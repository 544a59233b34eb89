/** The deferred-callback protocol as a transition system.

    Every activation of `Execute` and of `TriggerCallbacks` is a small program with its own
    program counter; one step is one access to shared memory.  Any number of activations of
    either kind may be in progress, on any threads, and the mode switch may be thrown
    between any two steps.  Objects are deleted explicitly: an access to an object that has
    been deleted is not disabled, it sets `fault`. */
module DeferredCallback {
  import opened Common

  type ThreadId = nat
  type CallbackId = nat
  type DrainId = nat
  type Value = int

  /** The memory of a callback object; `retVal` starts uninitialised. */
  datatype Cell = Cell(executeNow: bool, finished: bool, retVal: Option<Value>)

  /** How `Execute` got past its wait: it ran the callback itself, it saw `executeNow`,
      or `IsMainThread` told it not to wait. */
  datatype Route = Direct | Waited | Skipped

  datatype IssuePc =
    | TestInit                                          // constructor: if (!initilized)
    | ClaimMain                                         //   sMainThread = GetThread()
    | MarkInit                                          //   initilized = true
    | ReadMode                                          // Execute: if (!sMainThreadCallbacksOnly)
    | RunDirect | InDirect | SignalDirect               //   runCallbackNow() on this thread
    | LockList | Push | UnlockList                      //   push_back(this) under the lock
    | CheckMode | CheckThread                           // IsMainThread()
    | Spin                                              // Wait()
    | ReadResult(route: Route)                          // ret = retVal
    | SetFinished(route: Route, ret: Option<Value>)     // ~ScopeFinishedMarker
    | Returned(route: Route, ret: Option<Value>)

  /** Where an object is: with its issuer only, on the list, popped by a drainer, deleted. */
  datatype Place = Private | Listed | Held(d: DrainId) | Gone

  /** What the user's callback for an object has done so far. */
  datatype RunState = NotRun | Running | Completed(result: Value)

  /** A callback object and the activation of `Execute` on it.  `cell` is `None` once the
      object is deleted; `hasResult` tells the R-returning templates from the void ones;
      `place` and `run` are history that no step reads. */
  datatype Object = Object(
    thread: ThreadId, hasResult: bool, pc: IssuePc, cell: Option<Cell>, place: Place, run: RunState)

  datatype DrainPc =
    | TestEmpty                                         // while (!sPendingCallbacks.empty()), no lock
    | LockPending | Pop | UnlockEmpty                   // test again under the lock
    | UnlockPopped(cb: CallbackId)                      // front(), pop_front() done
    | Run(cb: CallbackId) | InCallback(cb: CallbackId) | Signal(cb: CallbackId)  // runCallbackNow()
    | AwaitFinished(cb: CallbackId)                     // while (!cb->finished)
    | Delete(cb: CallbackId)                            // delete cb
    | Count                                             // ret++
    | Exited

  datatype Drain = Drain(pc: DrainPc, ret: nat)

  datatype Holder = Nobody | Issuer(id: CallbackId) | Drainer(d: DrainId)

  /** The static members of the class. */
  datatype Globals = Globals(
    mode: bool, initialized: bool, mainThread: Option<ThreadId>, lock: Holder, pending: seq<CallbackId>)

  /** What has happened so far, in order; no step reads it. */
  datatype Log = Log(
    pushed: seq<CallbackId>,
    direct: seq<CallbackId>,
    popped: seq<(DrainId, CallbackId)>,
    started: seq<(DrainId, CallbackId)>,
    deleted: seq<(DrainId, CallbackId)>)

  datatype State = State(
    g: Globals, objects: map<CallbackId, Object>, drains: map<DrainId, Drain>, log: Log, fault: bool)

  datatype Action =
    | NewIssue(id: CallbackId, thread: ThreadId, hasResult: bool)
    | NewDrain(d: DrainId)
    | SetMode(on: bool)
    | StepIssue(id: CallbackId, result: Value)
    | StepDrain(d: DrainId, result: Value)

  /** The process at start-up. */
  function Init(): State {
    State(Globals(false, false, None, Nobody, []), map[], map[], Log([], [], [], [], []), false)
  }

  // ---------------------------------------------------------------- a step of Execute

  predicate TouchesObject(pc: IssuePc) {
    pc.RunDirect? || pc.InDirect? || pc.SignalDirect? || pc.Spin? || pc.ReadResult? || pc.SetFinished?
  }

  /** The object after `runCallbackNow` got `v` back from the callback. */
  function CallbackReturned(o: Object, v: Value): Object
    requires o.cell.Some?
  {
    o.(run := Completed(v),
       cell := if o.hasResult then Some(o.cell.value.(retVal := Some(v))) else o.cell)
  }

  /** The void templates have no result to read. */
  function AfterWait(o: Object, route: Route): IssuePc {
    if o.hasResult then ReadResult(route) else SetFinished(route, None)
  }

  function IssueObject(g: Globals, o: Object, v: Value): Object
    requires TouchesObject(o.pc) ==> o.cell.Some?
  {
    match o.pc
    case TestInit => o.(pc := if g.initialized then ReadMode else ClaimMain)
    case ClaimMain => o.(pc := MarkInit)
    case MarkInit => o.(pc := ReadMode)
    case ReadMode => o.(pc := if g.mode then LockList else RunDirect)
    case RunDirect => o.(pc := InDirect, run := Running)
    case InDirect => CallbackReturned(o, v).(pc := SignalDirect)
    case SignalDirect => o.(pc := AfterWait(o, Direct), cell := Some(o.cell.value.(executeNow := true)))
    case LockList => o.(pc := Push)
    case Push => o.(pc := UnlockList, place := Listed)
    case UnlockList => o.(pc := CheckMode)
    case CheckMode => o.(pc := if g.mode then CheckThread else AfterWait(o, Skipped))
    case CheckThread => o.(pc := if g.mainThread == Some(o.thread) then AfterWait(o, Skipped) else Spin)
    case Spin => if o.cell.value.executeNow then o.(pc := AfterWait(o, Waited)) else o
    case ReadResult(route) => o.(pc := SetFinished(route, o.cell.value.retVal))
    case SetFinished(route, ret) => o.(pc := Returned(route, ret), cell := Some(o.cell.value.(finished := true)))
    case Returned(_, _) => o
  }

  function IssueGlobals(g: Globals, id: CallbackId, o: Object): Globals {
    match o.pc
    case ClaimMain => g.(mainThread := Some(o.thread))
    case MarkInit => g.(initialized := true)
    case LockList => g.(lock := Issuer(id))
    case Push => g.(pending := g.pending + [id])
    case UnlockList => g.(lock := Nobody)
    case _ => g
  }

  function IssueLog(l: Log, id: CallbackId, pc: IssuePc): Log {
    match pc
    case Push => l.(pushed := l.pushed + [id])
    case RunDirect => l.(direct := l.direct + [id])
    case _ => l
  }

  /** One step of the activation of `Execute` on object `id`; `None` when it is blocked on the
      lock or has returned. */
  function IssueStep(s: State, id: CallbackId, v: Value): Option<State>
    requires id in s.objects
  {
    var o := s.objects[id];
    if TouchesObject(o.pc) && o.cell.None? then Some(s.(fault := true))
    else if o.pc.Returned? || (o.pc.LockList? && !s.g.lock.Nobody?) then None
    else Some(State(IssueGlobals(s.g, id, o), s.objects[id := IssueObject(s.g, o, v)], s.drains,
                    IssueLog(s.log, id, o.pc), s.fault))
  }

  // ---------------------------------------------------------------- a step of TriggerCallbacks

  predicate TouchesPopped(pc: DrainPc) {
    pc.Run? || pc.InCallback? || pc.Signal? || pc.AwaitFinished? || pc.Delete?
  }

  /** `finished` is what the drainer reads from the object it waits for. */
  function DrainNext(g: Globals, finished: bool, p: Drain): Drain {
    match p.pc
    case TestEmpty => p.(pc := if g.pending == [] then Exited else LockPending)
    case LockPending => p.(pc := Pop)
    case Pop => p.(pc := if g.pending == [] then UnlockEmpty else UnlockPopped(g.pending[0]))
    case UnlockEmpty => p.(pc := Exited)
    case UnlockPopped(cb) => p.(pc := Run(cb))
    case Run(cb) => p.(pc := InCallback(cb))
    case InCallback(cb) => p.(pc := Signal(cb))
    case Signal(cb) => p.(pc := AwaitFinished(cb))
    case AwaitFinished(cb) => if finished then p.(pc := Delete(cb)) else p
    case Delete(_) => p.(pc := Count)
    case Count => Drain(TestEmpty, p.ret + 1)
    case Exited => p
  }

  function DrainGlobals(g: Globals, d: DrainId, pc: DrainPc): Globals {
    match pc
    case LockPending => g.(lock := Drainer(d))
    case Pop => if g.pending == [] then g else g.(pending := g.pending[1..])
    case UnlockEmpty => g.(lock := Nobody)
    case UnlockPopped(_) => g.(lock := Nobody)
    case _ => g
  }

  /** What a drainer does to the object it works on. */
  function DrainObject(o: Object, d: DrainId, pc: DrainPc, v: Value): Object
    requires TouchesPopped(pc) ==> o.cell.Some?
  {
    match pc
    case Pop => o.(place := Held(d))
    case Run(_) => o.(run := Running)
    case InCallback(_) => CallbackReturned(o, v)
    case Signal(_) => o.(cell := Some(o.cell.value.(executeNow := true)))
    case Delete(_) => o.(cell := None, place := Gone)
    case _ => o
  }

  function DrainLog(l: Log, d: DrainId, pc: DrainPc, target: Option<CallbackId>): Log {
    if target.None? then l else
    match pc
    case Pop => l.(popped := l.popped + [(d, target.value)])
    case Run(_) => l.(started := l.started + [(d, target.value)])
    case Delete(_) => l.(deleted := l.deleted + [(d, target.value)])
    case _ => l
  }

  /** The object a step of the drainer concerns. */
  function Target(g: Globals, pc: DrainPc): Option<CallbackId> {
    if TouchesPopped(pc) then Some(pc.cb)
    else if pc.Pop? && g.pending != [] then Some(g.pending[0])
    else None
  }

  /** One step of an activation of `TriggerCallbacks`. */
  function DrainStep(s: State, d: DrainId, v: Value): Option<State>
    requires d in s.drains
  {
    var p := s.drains[d];
    var target := Target(s.g, p.pc);
    if target.Some? && (target.value !in s.objects || s.objects[target.value].cell.None?) then Some(s.(fault := true))
    else if p.pc.Exited? || (p.pc.LockPending? && !s.g.lock.Nobody?) then None
    else
      var finished := target.Some? && s.objects[target.value].cell.value.finished;
      var objects := if target.Some?
                     then s.objects[target.value := DrainObject(s.objects[target.value], d, p.pc, v)]
                     else s.objects;
      Some(State(DrainGlobals(s.g, d, p.pc), objects, s.drains[d := DrainNext(s.g, finished, p)],
                 DrainLog(s.log, d, p.pc, target), s.fault))
  }

  // ---------------------------------------------------------------- runs

  function Step(s: State, a: Action): Option<State> {
    match a
    case NewIssue(id, thread, hasResult) =>
      if id in s.objects then None else
        Some(s.(objects := s.objects[id := NewObject(thread, hasResult)]))
    case NewDrain(d) =>
      if d in s.drains then None else Some(s.(drains := s.drains[d := Drain(TestEmpty, 0)]))
    case SetMode(on) => Some(s.(g := s.g.(mode := on)))
    case StepIssue(id, v) => if id in s.objects then IssueStep(s, id, v) else None
    case StepDrain(d, v) => if d in s.drains then DrainStep(s, d, v) else None
  }

  function NewObject(thread: ThreadId, hasResult: bool): Object {
    Object(thread, hasResult, TestInit, Some(Cell(false, false, None)), Private, NotRun)
  }

  /** The state a whole run reaches, or `None` if one of its actions was not enabled. */
  function Exec(s: State, run: seq<Action>): Option<State> {
    if run == [] then Some(s) else
      var before := Exec(s, run[..|run| - 1]);
      if before.None? then None else Step(before.value, run[|run| - 1])
  }
}
