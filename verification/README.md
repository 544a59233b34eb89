# A verified model of the AllJoyn C bindings and of their Node bridge

This project models, in Dafny 4.11, the parts of the repository that hold state of their own and
proves what they promise over every run:

* **Deferred callbacks** (`DeferredCallback*.dfy`). Bus threads push heap objects on a locked list and
  spin; whoever calls `TriggerCallbacks` pops, runs, waits for `finished` and deletes. `DeferredCallback`
  is a small-step system: each activation of `Execute` (constructor included) and of `TriggerCallbacks`
  has a program counter, one step is one access to shared memory, any number of activations of both
  kinds may overlap, and the mode switch may flip between any two steps. Touching a deleted object is
  not disabled; it sets a fault flag that is proved never to be set. `DeferredCallbackInvariant` holds
  the joint invariant; `DeferredCallbackResults`, `DeferredCallbackEntry`, `DeferredCallbackOrder`,
  `DeferredCallbackProgress` and `DeferredCallbackOverlap` draw memory safety, result delivery, counts,
  termination and order from it; `DeferredCallbackHistory` ties the state and its logs to the actions of the
  run that led there.
* **Event channels** (`EventChannel.dfy`). Producers append under a mutex and call `uv_async_send`, which
  coalesces; one loop thread serves every handle through `handle->data`. Any number of channels.
* **Accept rendezvous** (`AcceptRendezvous.dfy`, `AcceptOverlap.dfy`). `AcceptSessionJoiner` blocks on a condition variable,
  with spurious wake-ups, until JavaScript has answered through a one-place slot.
* **Signal registry** (`SignalRegistry.dfy`, `RegistryCalls.dfy`, `BusAttachmentC.dfy`). The map from C handlers to
  reference-counted wrappers: operations on values with the laws of whole call sequences, and the class
  that updates the map in place, proved against them. The core bus is the multiset of registrations it
  holds; which registrations it takes to be the same, and what it answers, are arbitrary.
* **Properties-changed listeners** (`ListenerMap.dfy`, `ProxyBusObjectC.dfy`). An ordered multimap for an
  arbitrary comparator, refined to the list of listeners in insertion order, and the owning class.
* **Method dispatch** (`MethodDispatch.dfy`), **string buffers** (`StringBuffers.dfy`) and **value
  conversion** (`ValueConversion.dfy`).

`dafny verify dfyconfig.toml` checks the whole project.

## What the proofs show about the code

* `sMainThread` is the thread that constructs the first deferred callback, which may be a bus thread.
  `FirstIssuerDoesNotWait` gives the run: mode on throughout, and that thread's `Execute` returns while its
  callback is still on the list. `CallbackOutlivesArguments` continues it, for a call without a result, to
  where the callback runs after the frame that holds its arguments is gone. The header comment
  (`alljoyn/alljoyn_c/src/DeferredCallback.h:25-69`) promises callbacks on the main thread; the model
  follows the code. `EntryGuaranteesResultIff` says, from the state at the call, exactly when `Execute`
  returns only after its callback: with the mode left alone, iff the mode is off, or another thread has
  been recorded as `sMainThread` and no claim by the calling thread is under way.
* The mode is off by default, and then nothing is ever deferred (`NothingIsDeferredByDefault`). Once a call
  has pushed, and if the mode may be switched at any time, only a completed callback is a guarantee
  (`PushedGuaranteesResultIff`).
* Callbacks start in push order as long as no two calls of `TriggerCallbacks` overlap that can still pop
  (`StartedInPushOrder`). One more call cannot disturb the order iff every earlier call is spent: returned,
  or past the point where it saw the list empty under the lock (`OneMoreCallKeepsOrderIff`). Memory safety
  needs no such premise.
* An object whose callback ran directly is never deleted (`DirectObjectsLeak`), as the header comment warns.
* The accept slot is correct for one request at a time (`AcceptIsSynchronous`) and wrong for two
  (`OverlapGoesWrongFromStart`); a second request is harmless exactly when the outstanding one has the
  mutex back after its answer (`SecondRequestHarmlessIff`).
* A refused signal registration leaves a wrapper that only UnregisterAll removes
  (`RefusedRegistrationIsNeverRemoved`). So does an unregister that succeeds without finding its
  subscription, which happens if the core takes a path and a rule for the same registration
  (`AliasingLeavesWrapper`). These two are all: for every core, once every accepted registration is undone,
  a wrapper is left over iff one of them has happened since the last UnregisterAll (`WrapperIsLeftOverIff`).
* A live wrapper never has fewer subscriptions than the core has registrations for it, so no unregister
  deletes a wrapper still in use. UnregisterAll does, exactly if the core keeps a registration it was asked
  to give up (`RegistrationOutlivesItsWrapperIff`).
* The listener comparator compares its left operand with itself. `AsWrittenRun`, `IntendedRun` and
  `OrdersAgreeIff` say what an unregister then removes, and exactly when that is what was meant;
  `RunsAgreeIff` says it of whole runs.
* The first handler ever added for a member is the one that runs, even if the core refused it and
  accepted a later one (`AddedHandlerRunsIff`).
* `alljoyn_interfacedescription_member_getannotation` answers false to a size query even if the annotation
  exists, and then writes outside a buffer of size 0; so does `alljoyn_keystorelistener_getkeys`.
* `objToMsgArg` returns nothing for objects, and encodes every Boolean object as true.

## Model

| member | source | states |
|---|---|---|
| DeferredCallbackInvariant.StepKeepsInv | alljoyn/alljoyn_c/src/DeferredCallback.h:85-134 | every step of `Execute`, of `TriggerCallbacks`, of the constructor and of the mode switch keeps the joint invariant of ownership, locking, list contents, result slot and logs |
| DeferredCallbackInvariant.RunKeepsInv | alljoyn/alljoyn_c/src/DeferredCallback.h:94-134 | so does every run, from any state that has it |
| DeferredCallbackInvariant.ObjectTurn | alljoyn/alljoyn_c/src/DeferredCallback.h:94-135 | any step leaves an object alone, is its own issuer's, or is that of the one drainer that popped it |
| DeferredCallbackResults.EveryRunIsSafe | alljoyn/alljoyn_c/src/DeferredCallback.h:94-134 | over all interleavings: no access after deletion, no callback started twice by anyone, no object deleted twice, and deletion only after the callback came back and `Execute` returned |
| DeferredCallbackResults.PushedIsPoppedThenPending | alljoyn/alljoyn_c/src/DeferredCallback.h:97-105 | the pushed history is the popped objects in pop order followed by the pending list, with no repetition |
| DeferredCallbackResults.DeferredCallRefinesDirectCall | alljoyn/alljoyn_c/src/DeferredCallback.h:381-401 | an `Execute` that waited, or ran the callback itself, returns after the callback came back in the run, with exactly what it gave there |
| DeferredCallbackResults.GivenIsReturned | alljoyn/alljoyn_c/src/DeferredCallback.h:381-401 | what a callback gives in a step, deferred or direct, is what its `Execute` returns in every continuation, unless that was told to skip its wait |
| DeferredCallbackResults.ResultIsWhatWasGiven | alljoyn/alljoyn_c/src/DeferredCallback.h:381-383 | in every run a callback has completed iff it came back in some step, once, and with what it gave in that step |
| DeferredCallbackResults.ArgumentsOutliveCallback | alljoyn/alljoyn_c/src/BusAttachmentC.cc:37-58 | a callback is about to run or running after its `Execute` returned only if that `Execute` was told not to wait; otherwise stack arguments such as `&c_member` outlive it |
| DeferredCallbackResults.SteadyExecuteReturnsResult | alljoyn/alljoyn_c/src/DeferredCallback.h:115-127 | whenever the mode is on and the thread is not `sMainThread` at the moments `Execute` looks, it returns by waiting, after the callback came back, with what it gave |
| DeferredCallbackEntry.EntryGuaranteesResultIff | alljoyn/alljoyn_c/src/DeferredCallback.h:85-127 | for every reachable state with a call, of either kind of template, at its constructor or at the first statement of `Execute`: every continuation that leaves the mode alone returns after the callback has completed, with its result if it has one, iff the mode is off, or `sMainThread` is recorded and is not the calling thread and no claim by the calling thread is under way |
| DeferredCallbackEntry.NeverBecomesMain | alljoyn/alljoyn_c/src/DeferredCallback.h:85-90 | once `initilized` is set, a thread that is not `sMainThread` and has no claim under way never becomes it |
| DeferredCallbackEntry.SettledIsPermanent | alljoyn/alljoyn_c/src/DeferredCallback.h:85-90 | once `initilized` is set and no claim is under way, no step changes `sMainThread` |
| DeferredCallbackResults.ResultGuaranteedIff | alljoyn/alljoyn_c/src/DeferredCallback.h:173-178 | and later, whatever the mode switch does, for both kinds of template: from every reachable state after `IsMainThread` has answered, all continuations return after the callback, with its result, iff the answer was to wait or the callback has completed already |
| DeferredCallbackEntry.PushedGuaranteesResultIff | alljoyn/alljoyn_c/src/DeferredCallback.h:115-118 | from every reachable state where a call has pushed and the mode is not tested yet, all continuations, mode switches included, return after the callback, with its result, iff it has completed already |
| DeferredCallbackHistory.NothingIsDeferredByDefault | alljoyn/alljoyn_c/src/DeferredCallback.cc:24-31 | in every run that never switches the mode on, nothing is pushed and every `Execute` returns what its callback gave on its own thread |
| DeferredCallbackHistory.ModeIsLastSwitch | alljoyn/alljoyn_c/src/DeferredCallback.cc:24-31 | the mode is off at start-up and then what it was last switched to |
| DeferredCallbackHistory.LogIsHistory | alljoyn/alljoyn_c/src/DeferredCallback.h:97-113 | in every run the logs hold exactly the pushes, direct calls, pops, starts and deletions, each in the order in which the run took those steps |
| DeferredCallbackHistory.ObjectsWereConstructed | alljoyn/alljoyn_c/src/DeferredCallback.h:85-90 | every object was constructed in the run, on its thread and with its kind of result |
| DeferredCallbackResults.SkippedReturnsEarly | alljoyn/alljoyn_c/src/DeferredCallback.h:115-118 | an `Execute` told not to wait can return with its callback not completed, and with an uninitialised result if it has one |
| DeferredCallbackResults.FirstIssuerDoesNotWait | alljoyn/alljoyn_c/src/DeferredCallback.h:85-90 | with the mode on throughout, the thread of the first construction returns while its callback is still listed, with or without a result |
| DeferredCallbackOrder.CallbackOutlivesArguments | alljoyn/alljoyn_c/src/BusAttachmentC.cc:37-58 | in a run from start-up with the mode on throughout, a drainer is inside the callback of a void call whose `Execute`, which holds its arguments, has returned |
| DeferredCallbackResults.DirectObjectsLeak | alljoyn/alljoyn_c/src/DeferredCallback.h:48-54 | in every run an object that took the direct route is never deleted, a deleted object was pushed, and a returned `Execute` did one of the two |
| DeferredCallbackOrder.TriggerCallbacksReturnsItsCount | alljoyn/alljoyn_c/src/DeferredCallback.h:94-113 | a finished `TriggerCallbacks` returns the number it popped itself, and it started and deleted exactly those, in that order |
| DeferredCallbackOrder.StartedInPushOrder | alljoyn/alljoyn_c/src/DeferredCallback.h:97-106 | without overlap of calls that can still pop, the pushed history is the started callbacks, at most one in hand, then the pending list |
| DeferredCallbackOverlap.OneMoreCallKeepsOrderIff | alljoyn/alljoyn_c/src/DeferredCallback.h:94-113 | from every reachable state ordered so far: all continuations with at most one more `TriggerCallbacks` start callbacks in pop order iff every earlier call has returned or has seen, or is about to see, the list empty under the lock |
| DeferredCallbackOverlap.NoOverlapIsOrdered | alljoyn/alljoyn_c/src/DeferredCallback.h:97-106 | runs without overlap of calls that can still pop are ordered |
| DeferredCallbackProgress.WaitingDrainerIsServed | alljoyn/alljoyn_c/src/DeferredCallback.h:107-108 | while a drainer waits for `finished`, it is set or the issuer has an enabled step that changes the state and takes no lock |
| DeferredCallbackProgress.BusyRunsAreBounded | alljoyn/alljoyn_c/src/DeferredCallback.h:97-127 | with no new activations, a run has at most `Measure` state-changing steps of activations, however often the mode is switched in between |
| DeferredCallbackProgress.RunsStopOnlyWhenDrained | alljoyn/alljoyn_c/src/DeferredCallback.h:94-134 | no deadlock: a run stops only with the lock free, every drainer returned, and every issuer returned or waiting for an object that is still listed |
| DeferredCallbackProgress.DrainingServesEveryone | alljoyn/alljoyn_c/src/DeferredCallback.cc:31-35 | if nobody can still push, a drainer at its loop test makes every run end, mode switches included, with the list empty, every activation returned, every pushed object deleted exactly once, and exactly the objects of direct calls leaked |
| EventChannel.RunKeepsInv | src/BusListenerImpl.cc:19-67 | conservation, mutex ownership, `handle->data` and wake-up invariants hold in every run over any set of channels |
| EventChannel.CallsFollowEnqueues | src/SignalHandlerImpl.cc:20-75 | for every run and channel: the items JavaScript was called with, then in hand, then queued are the items enqueued under the lock, in the order of those steps |
| EventChannel.DeliveryIsFifo | src/SignalHandlerImpl.cc:20-75 | the same of the channel's own histories, and no fault occurs |
| EventChannel.NoWakeUpIsLost | src/BusListenerImpl.cc:39-47 | a non-empty queue has its handle sent, a producer about to send, or the loop coming; a sent handle names its own holder |
| EventChannel.QuietRunsAreBounded | src/SessionPortListenerImpl.cc:35-66 | once no events arrive, a run has at most `Measure` steps |
| EventChannel.EverythingIsDelivered | src/BusListenerImpl.cc:19-67 | where such a run ends, every producer has returned and every channel has delivered its queue in order, each item exactly as often as events of the run brought it |
| EventChannel.ArrivalsAreBringers | src/BusListenerImpl.cc:39-67 | every event of a run has its producer, on its own channel and with its own item |
| AcceptRendezvous.RunKeepsInv | src/SessionPortListenerImpl.cc:17-33 | the phases of request, slot and loop match in every run with one request at a time |
| AcceptRendezvous.AcceptIsSynchronous | src/SessionPortListenerImpl.cc:68-84 | the k-th call of JavaScript in the run is made with the port and joiner of the k-th request of the run, and a returned request was asked and returned what JavaScript answered |
| AcceptRendezvous.StateIsHistory | src/SessionPortListenerImpl.cc:17-33 | in every run, overlapping or not, the requests are those that came and the calls those that the loop made, with the arguments in the slot and the answers given |
| AcceptRendezvous.SignalIsNeverMissed | src/SessionPortListenerImpl.cc:77-81 | without help from spurious wake-ups, a run can stop only when every request has returned |
| AcceptRendezvous.AnswerComesInBoundedSteps | src/SessionPortListenerImpl.cc:68-84 | from any such state a run without new requests has at most 16 ordinary steps and two more per spurious wake-up |
| AcceptOverlap.OverlapGoesWrongFromStart | src/SessionPortListenerImpl.h:18-34 | for any two requests there is a run from start-up in which JavaScript is asked only about the second, the first returns that answer, and the second sleeps with no ordinary step left |
| AcceptOverlap.SecondRequestHarmlessIff | src/SessionPortListenerImpl.cc:68-84 | from every state reached one request at a time: all continuations with at most one further request serve every request iff the outstanding one has the mutex back after its answer, or none is outstanding |
| SignalRegistry.UnsubscribedCounted | alljoyn/alljoyn_c/src/BusAttachmentC.h:216-223 | after a successful unregister a deleted wrapper has no registration and a live one no more registrations than subscriptions |
| SignalRegistry.RunKeepsInv | alljoyn/alljoyn_c/src/BusAttachmentC.cc:63-203 | over every sequence of calls and core replies, and any aliasing of paths and rules: the map holds exactly the live wrappers under their own handlers, each with subscriptions at least as many as its registrations |
| SignalRegistry.RegistrationOutlivesItsWrapperIff | alljoyn/alljoyn_c/src/BusAttachmentC.cc:186-203 | over the same: the core holds a registration for a deleted wrapper iff it kept one when an UnregisterAll asked for it back |
| SignalRegistry.SlackNeverShrinks | alljoyn/alljoyn_c/src/BusAttachmentC.cc:81-85 | no call but UnregisterAll reduces the excess of subscriptions over registrations |
| SignalRegistry.RefusedRegistrationIsNeverRemoved | alljoyn/alljoyn_c/src/BusAttachmentC.cc:116-120 | after a refused registration the handler keeps a wrapper through every later sequence without UnregisterAll |
| SignalRegistry.CountIsBalance | alljoyn/alljoyn_c/src/BusAttachmentC.cc:63-184 | for every core: the counts of a call's subscription and of its registrations are what a caller tallies from calls and statuses, a successful unregister taking one subscription if there is one and one registration |
| SignalRegistry.UnregisterSucceedsIff | alljoyn/alljoyn_c/src/BusAttachmentC.cc:126-184 | for every core, an unregister by a path or by a rule answers ER_OK iff the accepted balance of that path or of the canonical rule is positive, otherwise the refusal, or ER_FAIL without a wrapper, or the parser's status for an invalid rule |
| SignalRegistry.WrapperExistsIff | alljoyn/alljoyn_c/src/BusAttachmentC.cc:139-145 | for every core, a handler has a wrapper iff the tally of some subscription of it is positive |
| SignalRegistry.BalancedRunRestores | alljoyn/alljoyn_c/src/BusAttachmentC.cc:63-203 | for every core and after any history, a further sequence of calls restores a handler's subscriptions and registrations iff it balances call by call, and then the handler has a wrapper iff it had one |
| SignalRegistry.SlackIsStrays | alljoyn/alljoyn_c/src/BusAttachmentC.cc:81-85 | for every core, the subscriptions without a registration behind them are exactly as many as the refused registers and the successful unregisters of a subscription not held, since the last UnregisterAll |
| SignalRegistry.StraysAreRefusals | alljoyn/alljoyn_c/src/BusAttachmentC.cc:132-146 | if the core never takes for the same two registrations that the wrapper tells apart, these are the refused registers only |
| SignalRegistry.AliasingLeavesWrapper | alljoyn/alljoyn_c/src/BusAttachmentC.cc:152-184 | if it does, registering by a path and unregistering by a rule leaves a wrapper with no registration and no refusal |
| SignalRegistry.WrapperIsLeftOverIff | alljoyn/alljoyn_c/src/BusAttachmentC.cc:116-120 | for every core, when all accepted registrations of a handler are undone, the core holds none for it and its wrapper is left over iff there was a refused register, or a successful unregister of a subscription not held, since the last UnregisterAll |
| SignalRegistry.EquivalentRulesInterchange | alljoyn/alljoyn_c/src/BusAttachmentC.cc:97-102 | rules with the same canonical form can be exchanged anywhere in a run (section "Match Rules" of the D-Bus Specification) |
| RegistryCalls.SameSubscriptionIff | alljoyn/alljoyn_c/src/BusAttachmentC.h:191-210 | two calls share a subscription iff the members agree and the path or rule texts do, a NULL path counting as empty |
| RegistryCalls.RegisterDoes | alljoyn/alljoyn_c/src/BusAttachmentC.cc:63-89 | after any history: one more subscription under the given member and path, one more registration of that path iff the core accepts, no other handler touched |
| RegistryCalls.RegisterWithRuleDoes | alljoyn/alljoyn_c/src/BusAttachmentC.cc:91-124 | the same under the canonical rule; an invalid rule changes nothing |
| RegistryCalls.UnregisterDoes | alljoyn/alljoyn_c/src/BusAttachmentC.cc:126-150 | after any history: if the core has a registration of that path, ER_OK and one fewer of both, the wrapper going with the last subscription; otherwise nothing changes |
| RegistryCalls.UnregisterWithRuleDoes | alljoyn/alljoyn_c/src/BusAttachmentC.cc:152-184 | the same for the canonical rule |
| RegistryCalls.UnregisterUndoesRegister | alljoyn/alljoyn_c/src/BusAttachmentC.cc:135-146 | after any history an accepted registration by a path is undone by unregistering that path: ER_OK, and every handler has what it had |
| RegistryCalls.UnregisterUndoesRegisterWithRule | alljoyn/alljoyn_c/src/BusAttachmentC.cc:160-184 | and one by a rule by any rule with the same canonical form |
| BusAttachmentC.SubscriptionsAreTotallyOrdered | alljoyn/alljoyn_c/src/BusAttachmentC.h:191-193 | the subscription order is strict, transitive, and equates only equal subscriptions |
| BusAttachmentC.BusAttachmentC.RemoveSubscription | alljoyn/alljoyn_c/src/BusAttachmentC.h:216-223 | one fewer if there was one; true iff none is left |
| BusAttachmentC.BusAttachmentC.RegisterSignalHandlerC | alljoyn/alljoyn_c/src/BusAttachmentC.cc:63-89 | keeps the invariant and makes the registry that of the one-call run; returns the core's reply |
| BusAttachmentC.BusAttachmentC.RegisterSignalHandlerWithRuleC | alljoyn/alljoyn_c/src/BusAttachmentC.cc:91-124 | the same for the canonical rule; an invalid rule changes nothing and returns the parser's status |
| BusAttachmentC.BusAttachmentC.UnregisterSignalHandlerC | alljoyn/alljoyn_c/src/BusAttachmentC.cc:126-150 | keeps the invariant; drops the registration of the given path with the status of doing so, which is the one-call run |
| BusAttachmentC.BusAttachmentC.UnregisterSignalHandlerWithRuleC | alljoyn/alljoyn_c/src/BusAttachmentC.cc:152-184 | the same for the canonical rule |
| BusAttachmentC.BusAttachmentC.UnregisterAllHandlersC | alljoyn/alljoyn_c/src/BusAttachmentC.cc:186-203 | empties the map and deletes every wrapper, whether or not the core gives its registrations up; ER_OK iff all replies were, otherwise the first other reply in handler order |
| ListenerMap.EqualRange | alljoyn/alljoyn_c/src/ProxyBusObject.cc:95-96 | in a sorted multimap the bounds enclose exactly the keys equivalent to the callback |
| ListenerMap.InsertIsAppend | alljoyn/alljoyn_c/src/ProxyBusObject.cc:85 | insertion appends to the class of equivalent keys and to no other (section 23.2.4 of C++11) |
| ListenerMap.MultimapRefinesList | alljoyn/alljoyn_c/src/ProxyBusObject.cc:81-107 | for every strict weak order and every run, lookups answer like the list in insertion order keyed by equivalence |
| ListenerMap.AsWrittenRun | alljoyn/alljoyn_c/src/ProxyBusObject.cc:42-51 | in every run with the comparator as written, the multimap is the list in insertion order and a lookup takes the earliest listener for the interface, whatever its callback |
| ListenerMap.IntendedRun | alljoyn/alljoyn_c/src/ProxyBusObject.cc:81-107 | in every run with the intended comparator, a lookup finds a listener iff one with that callback and interface is registered, and then the earliest-added such |
| ListenerMap.UnregisterUndoesRegister | alljoyn/alljoyn_c/src/ProxyBusObject.cc:81-107 | for every strict weak order and after every run, a listener new under its callback and interface is found under them, and removing them undoes the registration |
| ListenerMap.OrdersAgreeIff | alljoyn/alljoyn_c/src/ProxyBusObject.cc:48 | the two find the same listener iff the interface has none or its earliest one has the given callback |
| ListenerMap.RunsAgreeIff | alljoyn/alljoyn_c/src/ProxyBusObject.cc:42-107 | over whole runs the two keep the same listeners at every point iff every unregistration met that condition |
| ProxyBusObjectC.ProxyBusObjectC.AddListener | alljoyn/alljoyn_c/src/ProxyBusObject.cc:81-88 | inserts a fresh listener with its own copy of the name; every address is accounted for once |
| ProxyBusObjectC.ProxyBusObjectC.FindListener | alljoyn/alljoyn_c/src/ProxyBusObject.cc:95-99 | the bounds and the scan find the first match of the whole multimap |
| ProxyBusObjectC.ProxyBusObjectC.RemoveListener | alljoyn/alljoyn_c/src/ProxyBusObject.cc:90-107 | takes out that entry, frees its name only, and hands the listener over still allocated; nothing if there is none |
| ProxyBusObjectC.ProxyBusObjectC.Unregister | alljoyn/alljoyn_c/src/ProxyBusObject.cc:285-297 | frees name and listener of that entry once each and returns the core's status, or ER_FAIL and changes nothing |
| ProxyBusObjectC.ProxyBusObjectC.Destroy | alljoyn/alljoyn_c/src/ProxyBusObject.cc:66-79 | afterwards every address ever allocated has been freed exactly once |
| ProxyBusObjectC.LiveIffListed | alljoyn/alljoyn_c/src/ProxyBusObject.cc:66-107 | between operations an address is live iff the multimap owns it, and none is freed twice |
| MethodDispatch.AddedHandlerRunsIff | alljoyn/alljoyn_c/src/BusObjectC.cc:111-120 | an added handler is the one dispatched iff the member had none or that same one before |
| MethodDispatch.BusObjectC.AddMethodHandlerC | alljoyn/alljoyn_c/src/BusObjectC.cc:111-120 | records the addition; the map keeps the first handler per member, and the core dispatches only recorded members |
| MethodDispatch.BusObjectC.AddMethodHandlersC | alljoyn/alljoyn_c/src/BusObjectC.cc:122-137 | the same as adding the entries one by one, whatever part of them the core takes |
| MethodDispatch.BusObjectC.MethodHandlerRemap | alljoyn/alljoyn_c/src/BusObjectC.cc:208-233 | for a member the core dispatches, the handler is the first ever added, never null if none added was, and nothing is inserted |
| StringBuffers.StrNCpy | alljoyn/alljoyn_c/src/BusObjectC.cc:290 | section 7.24.2.4 of ISO C11: characters up to the NUL, then NULs up to n, nothing beyond |
| StringBuffers.CopyOut | alljoyn/alljoyn_c/src/InterfaceDescription.cc:549-552 | the buffer reads as the longest prefix that fits and is terminated, unless the capacity is 0, when the terminator goes outside |
| StringBuffers.GetName | alljoyn/alljoyn_c/src/BusObjectC.cc:285-295 | size is length + 1 whatever the capacity; the longest prefix that fits, nothing at or beyond the capacity written |
| StringBuffers.GetKeys | alljoyn/alljoyn_c/src/KeyStoreListener.cc:93-110 | ER_BUFFER_TOO_SMALL iff the capacity is below length + 1, otherwise the listener's status; an out-of-bounds write iff a sink of size 0 is given |
| StringBuffers.GetAnnotation | alljoyn/alljoyn_c/src/InterfaceDescription.cc:73-97 | true iff the annotation exists and a buffer was given; an empty string if it does not exist; an out-of-bounds write iff it exists and the buffer has size 0 |
| StringBuffers.QueryThenFetch | alljoyn/alljoyn_c/src/BusObjectC.cc:285-295 | asking for the size and fetching with it yields the whole string iff it has no embedded NUL, and a capacity holds all a reader sees iff it exceeds its length |
| ValueConversion.MsgArgToObject | src/util.cc:7-47 | stores exactly the decoding of the argument under its index, or nothing |
| ValueConversion.DecodedIsSame | src/util.cc:8-38 | the decoding has the value of the argument: the same truth value, text, or number for an integer of any handled width, and member by member for structs |
| ValueConversion.SameIsDecoded | src/util.cc:8-38 | and it is the only such value |
| ValueConversion.MessageShowsValues | src/util.cc:15-26 | under key k JavaScript sees the value of argument k, for each handled integer type the number equal to it |
| ValueConversion.MessageToObject | src/SignalHandlerImpl.cc:34-41 | the argument loop builds the object of all handled arguments |
| ValueConversion.DecodePreservesStructure | src/util.cc:30-38 | at every path into nested structs JavaScript sees the decoding of the argument at that path |
| ValueConversion.KeyPresentIff | src/util.cc:8-46 | key k is present iff argument k is a supported scalar or a non-empty struct |
| ValueConversion.RoundTripIff | src/util.cc:49-60 | a value survives encoding and decoding iff it is a number, a primitive boolean or a string without NUL |
| ValueConversion.EncodesAs | src/util.cc:49-60 | a number goes out as an Int32 iff it is a 32-bit integer, with its value, and otherwise as the same Double; both Boolean objects go out as true, objects as nothing |

## Left out

- The AllJoyn core (`BusAttachment`, `MsgArg` building and parsing, `Rule`): its source is not part of this model; its replies, and which registrations it keeps, are parameters.
- Re-entrant callbacks: activations are independent threads of control, which covers safety for nested calls; the progress results do not speak of a callback that itself waits on its own thread.
- Address reuse, hardware memory ordering, `qcc::Sleep` timing: objects have identities that are never reused, and each flag or list access is one atomic step, the unlocked `empty()` included.
- `DeferredCallback_N` for each N: one activation covers the R-returning and the void templates; the arguments themselves are not modelled, only how long they must live.
- Client code that tests the mode before it creates a deferred callback: with the mode off it calls the user directly and no object exists.
- libuv beyond the coalescing flag, moved-from queues other than empty ones, JavaScript exceptions in callbacks, closing of handles.
- `alljoyn_proxybusobject_copy`: it copies owning addresses, so the ownership results do not hold across it.
- The core's part in registering a properties-changed listener: only its status is passed on.
- Introspection and the other annotation getters: the same copy as `StringBuffers.CopyOut`.
- UTF-8 conversion, integer widths of decoded arguments and the sender fields of a signal message.
- `AboutData`, `AuthListener`, `Message`, `SessionOpts` and the other one-line forwarding files, and the `*Wrapper.cc` argument checks: they would only add easy members.
