/** What one call of `TriggerCallbacks` accounts for, and in which order callbacks start. */
module DeferredCallbackOrder {
  import opened Common
  import opened DeferredCallback
  import opened DeferredCallbackInvariant
  import opened DeferredCallbackResults

  // ---------------------------------------------------------------- one drainer's share of a log

  function Only(d: DrainId, log: seq<(DrainId, CallbackId)>): seq<CallbackId> {
    if log == [] then [] else
      var last := log[|log| - 1];
      Only(d, log[..|log| - 1]) + (if last.0 == d then [last.1] else [])
  }

  lemma OnlyAppend(d: DrainId, log: seq<(DrainId, CallbackId)>, e: DrainId, id: CallbackId)
    ensures Only(d, log + [(e, id)]) == Only(d, log) + (if e == d then [id] else [])
  {
    assert (log + [(e, id)])[..|log|] == log;
  }

  /** Popped, then started, then deleted: at most the object in hand separates the three. */
  predicate Account(p: Drain, popped: seq<CallbackId>, started: seq<CallbackId>, deleted: seq<CallbackId>) {
    && popped == started + (if p.pc.UnlockPopped? || p.pc.Run? then [p.pc.cb] else [])
    && started == deleted + (if TouchesPopped(p.pc) && !p.pc.Run? then [p.pc.cb] else [])
    && |deleted| == p.ret + (if p.pc.Count? then 1 else 0)
  }

  predicate AccountOf(drains: map<DrainId, Drain>, l: Log, d: DrainId) {
    if d in drains
    then Account(drains[d], Only(d, l.popped), Only(d, l.started), Only(d, l.deleted))
    else Only(d, l.popped) == Only(d, l.started) == Only(d, l.deleted) == []
  }

  ghost predicate Accounts(s: State) {
    forall d :: AccountOf(s.drains, s.log, d)
  }

  /** What a step at `pc` adds to each of the three lists. */
  function Adds(now: bool, target: Option<CallbackId>): seq<CallbackId> {
    if now && target.Some? then [target.value] else []
  }

  lemma AccountNext(g: Globals, finished: bool, p: Drain, popped: seq<CallbackId>, started: seq<CallbackId>,
                    deleted: seq<CallbackId>)
    requires Account(p, popped, started, deleted)
    ensures var t := Target(g, p.pc);
            Account(DrainNext(g, finished, p),
                    popped + Adds(p.pc.Pop?, t), started + Adds(p.pc.Run?, t), deleted + Adds(p.pc.Delete?, t))
  {
    if p.pc.Delete? {
      assert started + [] == deleted + [p.pc.cb];
    }
  }

  /** A drainer's step and its entry in the log agree. */
  lemma AccountTurn(g: Globals, finished: bool, p: Drain, l: Log, d: DrainId)
    requires Account(p, Only(d, l.popped), Only(d, l.started), Only(d, l.deleted))
    ensures var l' := DrainLog(l, d, p.pc, Target(g, p.pc));
            Account(DrainNext(g, finished, p), Only(d, l'.popped), Only(d, l'.started), Only(d, l'.deleted))
  {
    var target := Target(g, p.pc);
    LogAdds(l, d, p.pc, target);
    AccountNext(g, finished, p, Only(d, l.popped), Only(d, l.started), Only(d, l.deleted));
  }

  /** One of the three lists after a step that enters `target` in it `now`. */
  function Entered(log: seq<(DrainId, CallbackId)>, d: DrainId, now: bool, target: Option<CallbackId>):
    seq<(DrainId, CallbackId)>
  {
    if now && target.Some? then log + [(d, target.value)] else log
  }

  lemma LogEnters(l: Log, d: DrainId, pc: DrainPc, target: Option<CallbackId>)
    ensures var l' := DrainLog(l, d, pc, target);
            && l'.popped == Entered(l.popped, d, pc.Pop?, target)
            && l'.started == Entered(l.started, d, pc.Run?, target)
            && l'.deleted == Entered(l.deleted, d, pc.Delete?, target)
  {
  }

  lemma ListAdds(log: seq<(DrainId, CallbackId)>, d: DrainId, now: bool, target: Option<CallbackId>)
    ensures Only(d, Entered(log, d, now, target)) == Only(d, log) + Adds(now, target)
  {
    if now && target.Some? {
      OnlyAppend(d, log, d, target.value);
    }
  }

  lemma LogAdds(l: Log, d: DrainId, pc: DrainPc, target: Option<CallbackId>)
    ensures var l' := DrainLog(l, d, pc, target);
            && Only(d, l'.popped) == Only(d, l.popped) + Adds(pc.Pop?, target)
            && Only(d, l'.started) == Only(d, l.started) + Adds(pc.Run?, target)
            && Only(d, l'.deleted) == Only(d, l.deleted) + Adds(pc.Delete?, target)
  {
    LogEnters(l, d, pc, target);
    ListAdds(l.popped, d, pc.Pop?, target);
    ListAdds(l.started, d, pc.Run?, target);
    ListAdds(l.deleted, d, pc.Delete?, target);
  }

  lemma OtherAccount(l: Log, e: DrainId, pc: DrainPc, target: Option<CallbackId>, d: DrainId)
    requires d != e
    ensures var l' := DrainLog(l, e, pc, target);
            && Only(d, l'.popped) == Only(d, l.popped) && Only(d, l'.started) == Only(d, l.started)
            && Only(d, l'.deleted) == Only(d, l.deleted)
  {
    if target.Some? {
      OnlyAppend(d, l.popped, e, target.value);
      OnlyAppend(d, l.started, e, target.value);
      OnlyAppend(d, l.deleted, e, target.value);
    }
  }

  lemma DrainKeepsAccount(s: State, e: DrainId, v: Value, d: DrainId)
    requires Accounts(s) && e in s.drains && DrainStep(s, e, v).Some? && !DrainStep(s, e, v).value.fault
    ensures AccountOf(DrainStep(s, e, v).value.drains, DrainStep(s, e, v).value.log, d)
  {
    var p, s' := s.drains[e], DrainStep(s, e, v).value;
    var target := Target(s.g, p.pc);
    assert AccountOf(s.drains, s.log, d);
    if d == e {
      AccountTurn(s.g, target.Some? && s.objects[target.value].cell.value.finished, p, s.log, d);
    } else {
      OtherAccount(s.log, e, p.pc, target, d);
    }
  }

  lemma OthersKeepAccounts(s: State, a: Action)
    requires Accounts(s) && !a.StepDrain? && Step(s, a).Some?
    ensures Accounts(Step(s, a).value)
  {
    var s' := Step(s, a).value;
    forall d ensures AccountOf(s'.drains, s'.log, d) {
      assert AccountOf(s.drains, s.log, d);
      assert s'.log.popped == s.log.popped && s'.log.started == s.log.started && s'.log.deleted == s.log.deleted;
      assert d in s.drains ==> d in s'.drains && s'.drains[d] == s.drains[d];
      assert d !in s.drains && d in s'.drains ==> s'.drains[d] == Drain(TestEmpty, 0);
    }
  }

  lemma StepKeepsAccounts(s: State, a: Action)
    requires Objects(s) && Lists(s) && !s.fault && Accounts(s) && Step(s, a).Some?
    ensures Accounts(Step(s, a).value)
  {
    if a.StepDrain? {
      DrainKeepsObjects(s, a.d, a.result);
      forall d { DrainKeepsAccount(s, a.d, a.result, d); }
    } else {
      OthersKeepAccounts(s, a);
    }
  }

  lemma {:induction false} RunKeepsAccounts(run: seq<Action>)
    requires Exec(Init(), run).Some?
    ensures Accounts(Exec(Init(), run).value)
  {
    if run != [] {
      var front := run[..|run| - 1];
      RunKeepsAccounts(front);
      RunKeepsInv(Init(), front);
      StepKeepsAccounts(Exec(Init(), front).value, run[|run| - 1]);
    }
  }

  /** `TriggerCallbacks` returns the number of callbacks it popped itself; it has started
      exactly those, in that order, and deleted exactly those, in that order. */
  lemma TriggerCallbacksReturnsItsCount(run: seq<Action>, d: DrainId)
    requires Exec(Init(), run).Some? && d in Exec(Init(), run).value.drains
    requires Exec(Init(), run).value.drains[d].pc.Exited?
    ensures var s := Exec(Init(), run).value;
            && s.drains[d].ret == |Only(d, s.log.popped)|
            && Only(d, s.log.started) == Only(d, s.log.popped) && Only(d, s.log.deleted) == Only(d, s.log.popped)
  {
    RunKeepsAccounts(run);
    var s := Exec(Init(), run).value;
    assert AccountOf(s.drains, s.log, d);
  }

  // ---------------------------------------------------------------- start order without overlap

  /** The call will pop nothing more: it has returned, or has seen the list empty under the lock, or
      is about to. */
  predicate Spent(g: Globals, pc: DrainPc) {
    pc.Exited? || pc.UnlockEmpty? || (pc.Pop? && g.pending == [])
  }

  /** No two calls of `TriggerCallbacks` overlap, but for spent ones. */
  ghost predicate OneUnspent(s: State) {
    forall d, e :: d in s.drains && e in s.drains && !Spent(s.g, s.drains[d].pc) && !Spent(s.g, s.drains[e].pc)
                   ==> d == e
  }

  ghost predicate NoOverlap(run: seq<Action>) {
    forall n :: 0 <= n <= |run| && Exec(Init(), run[..n]).Some? ==> OneUnspent(Exec(Init(), run[..n]).value)
  }

  predicate Unstarted(pc: DrainPc) {
    pc.UnlockPopped? || pc.Run?
  }

  /** Everything popped has been started, in pop order, but for the object just popped. */
  ghost predicate InOrder(s: State) {
    && (forall d :: d in s.drains && Unstarted(s.drains[d].pc) ==>
          s.log.popped == s.log.started + [(d, s.drains[d].pc.cb)])
    && ((forall d :: d in s.drains ==> !Unstarted(s.drains[d].pc)) ==> s.log.popped == s.log.started)
  }

  lemma DrainKeepsOrder(s: State, d: DrainId, v: Value)
    requires InOrder(s) && OneUnspent(s) && d in s.drains && DrainStep(s, d, v).Some? && !DrainStep(s, d, v).value.fault
    ensures InOrder(DrainStep(s, d, v).value)
  {
    var s' := DrainStep(s, d, v).value;
    assert s'.drains == s.drains[d := s'.drains[d]];
    if Spent(s.g, s.drains[d].pc) {
      assert s'.log == s.log;
      assert forall e :: e in s.drains ==> Unstarted(s'.drains[e].pc) == Unstarted(s.drains[e].pc);
      assert forall e :: e in s.drains && Unstarted(s.drains[e].pc) ==> s'.drains[e] == s.drains[e];
    } else {
      assert forall e :: e in s.drains && e != d ==> !Unstarted(s.drains[e].pc);
      if Unstarted(s.drains[d].pc) {
        assert s.log.popped == s.log.started + [(d, s.drains[d].pc.cb)];
      } else {
        assert s.log.popped == s.log.started;
      }
    }
  }

  lemma {:induction false} RunKeepsOrder(run: seq<Action>)
    requires Exec(Init(), run).Some? && NoOverlap(run)
    ensures InOrder(Exec(Init(), run).value)
  {
    if run != [] {
      var front, a := run[..|run| - 1], run[|run| - 1];
      assert forall n :: 0 <= n <= |front| ==> front[..n] == run[..n];
      RunKeepsOrder(front);
      RunKeepsInv(Init(), front);
      var s := Exec(Init(), front).value;
      if a.StepDrain? {
        DrainKeepsObjects(s, a.d, a.result);
        assert OneUnspent(Exec(Init(), run[..|front|]).value);
        DrainKeepsOrder(s, a.d, a.result);
      } else {
        OthersKeepOrder(s, a);
      }
    }
  }

  lemma OthersKeepOrder(s: State, a: Action)
    requires InOrder(s) && !a.StepDrain? && Step(s, a).Some?
    ensures InOrder(Step(s, a).value)
  {
    var s' := Step(s, a).value;
    assert s'.log.popped == s.log.popped && s'.log.started == s.log.started;
    assert forall d :: d in s'.drains && Unstarted(s'.drains[d].pc) ==> d in s.drains && s'.drains[d] == s.drains[d];
    assert forall d :: d in s.drains ==> d in s'.drains && s'.drains[d] == s.drains[d];
  }

  /** If no two unspent calls of `TriggerCallbacks` overlap, callbacks are started in the order they
      were pushed: the pushed history is the started ones, then at most one popped and not
      yet started, then the pending list. */
  lemma StartedInPushOrder(run: seq<Action>)
    requires Exec(Init(), run).Some? && NoOverlap(run)
    ensures var s := Exec(Init(), run).value;
            exists inHand: seq<CallbackId> :: |inHand| <= 1 && s.log.pushed == Ids(s.log.started) + inHand + s.g.pending
  {
    RunKeepsOrder(run);
    RunKeepsInv(Init(), run);
    var s := Exec(Init(), run).value;
    if d :| d in s.drains && Unstarted(s.drains[d].pc) {
      IdsAppend(s.log.started, d, s.drains[d].pc.cb);
      assert |[s.drains[d].pc.cb]| <= 1;
    } else {
      assert Ids(s.log.started) + [] == Ids(s.log.started);
    }
  }

  // ---------------------------------------------------------------- the premise is needed

  /** A step of a drainer that concerns no object. */
  lemma DrainGoes(s0: State, run: seq<Action>, s: State, d: DrainId) returns (run': seq<Action>, s': State)
    requires Exec(s0, run) == Some(s) && d in s.drains
    requires || s.drains[d].pc.TestEmpty? || s.drains[d].pc.UnlockPopped?
             || (s.drains[d].pc.LockPending? && s.g.lock.Nobody?)
    ensures Exec(s0, run') == Some(s') && NewDrains(run') == NewDrains(run) && (NoSwitch(run) ==> NoSwitch(run'))
    ensures s' == s.(g := DrainGlobals(s.g, d, s.drains[d].pc),
                     drains := s.drains[d := DrainNext(s.g, false, s.drains[d])])
  {
    ExecAppend(s0, run, StepDrain(d, 0));
    NewDrainsAppend(run, StepDrain(d, 0));
    run', s' := run + [StepDrain(d, 0)], DrainStep(s, d, 0).value;
  }

  lemma DrainPops(s0: State, run: seq<Action>, s: State, d: DrainId) returns (run': seq<Action>, s': State)
    requires Exec(s0, run) == Some(s) && d in s.drains && s.drains[d].pc.Pop? && s.g.pending != []
    requires s.g.pending[0] in s.objects && s.objects[s.g.pending[0]].cell.Some?
    ensures Exec(s0, run') == Some(s') && NewDrains(run') == NewDrains(run) && (NoSwitch(run) ==> NoSwitch(run'))
    ensures var cb := s.g.pending[0];
            s' == State(s.g.(pending := s.g.pending[1..]), s.objects[cb := s.objects[cb].(place := Held(d))],
                        s.drains[d := s.drains[d].(pc := UnlockPopped(cb))],
                        s.log.(popped := s.log.popped + [(d, cb)]), s.fault)
  {
    ExecAppend(s0, run, StepDrain(d, 0));
    NewDrainsAppend(run, StepDrain(d, 0));
    run', s' := run + [StepDrain(d, 0)], DrainStep(s, d, 0).value;
  }

  /** A fresh drainer that pops the head of the list and is about to run it. */
  lemma PopHead(s: State, d: DrainId) returns (run: seq<Action>, s': State)
    requires s.g.pending != [] && s.g.lock.Nobody? && d !in s.drains
    requires s.g.pending[0] in s.objects && s.objects[s.g.pending[0]].cell.Some?
    ensures Exec(s, run) == Some(s') && NewDrains(run) == 1 && NoSwitch(run)
    ensures var cb := s.g.pending[0];
            && s'.g == s.g.(pending := s.g.pending[1..])
            && s'.objects == s.objects[cb := s.objects[cb].(place := Held(d))]
            && s'.drains == s.drains[d := Drain(Run(cb), 0)] && s'.log.started == s.log.started
            && s'.log.popped == s.log.popped + [(d, cb)]
  {
    run, s' := [] + [NewDrain(d)], s.(drains := s.drains[d := Drain(TestEmpty, 0)]);
    ExecAppend(s, [], NewDrain(d));
    run, s' := DrainGoes(s, run, s', d);
    run, s' := DrainGoes(s, run, s', d);
    run, s' := DrainPops(s, run, s', d);
    run, s' := DrainGoes(s, run, s', d);
    assert s'.drains == s.drains[d := Drain(Run(s.g.pending[0]), 0)];
  }

  /** A drainer about to run a live object starts it. */
  lemma StartHeld(s0: State, run: seq<Action>, s: State, d: DrainId)
    requires Exec(s0, run) == Some(s) && d in s.drains && s.drains[d].pc.Run?
    requires s.drains[d].pc.cb in s.objects && s.objects[s.drains[d].pc.cb].cell.Some?
    ensures var s' := Exec(s0, run + [StepDrain(d, 0)]); var cb := s.drains[d].pc.cb;
            && s'.Some? && s'.value.log == s.log.(started := s.log.started + [(d, cb)])
            && s'.value.drains == s.drains[d := s.drains[d].(pc := InCallback(cb))]
            && s'.value.objects == s.objects[cb := s.objects[cb].(run := Running)]
  {
    ExecAppend(s0, run, StepDrain(d, 0));
  }

  lemma TwoDrainersReorder(s: State, d: DrainId, e: DrainId) returns (run: seq<Action>)
    requires |s.g.pending| >= 2 && s.g.lock.Nobody? && d !in s.drains && e !in s.drains && d != e
    requires s.g.pending[0] in s.objects && s.objects[s.g.pending[0]].cell.Some?
    requires s.g.pending[1] in s.objects && s.objects[s.g.pending[1]].cell.Some?
    ensures Exec(s, run).Some?
    ensures Exec(s, run).value.log.started == s.log.started + [(e, s.g.pending[1])] + [(d, s.g.pending[0])]
  {
    var run1, s1 := PopHead(s, d);
    var run2, _ := PopHead(s1, e);
    ExecConcat(s, run1, run2);
    var s2 := Exec(s, run1 + run2).value;
    StartHeld(s, run1 + run2, s2, e);
    var run3 := run1 + run2 + [StepDrain(e, 0)];
    StartHeld(s, run3, Exec(s, run3).value, d);
    run := run3 + [StepDrain(d, 0)];
  }

  /** Two new calls can always do it: from every reachable state with two pending callbacks and a
      free lock, there is a continuation that starts the second first. */
  lemma OverlappingDrainersReorder(prefix: seq<Action>, d: DrainId, e: DrainId) returns (run: seq<Action>)
    requires Exec(Init(), prefix).Some?
    requires var s := Exec(Init(), prefix).value;
             |s.g.pending| >= 2 && s.g.lock.Nobody? && d !in s.drains && e !in s.drains && d != e
    ensures var s := Exec(Init(), prefix).value;
            && Exec(s, run).Some?
            && Exec(s, run).value.log.started == s.log.started + [(e, s.g.pending[1])] + [(d, s.g.pending[0])]
  {
    RunKeepsInv(Init(), prefix);
    var s := Exec(Init(), prefix).value;
    assert s.g.pending[0] in s.g.pending && s.g.pending[1] in s.g.pending;
    assert ObjectOk(s.objects[s.g.pending[0]]) && ObjectOk(s.objects[s.g.pending[1]]);
    run := TwoDrainersReorder(s, d, e);
  }

  /** The run behind ArgumentsOutliveCallback's exception: with the mode on throughout, the callback of
      a void call runs while the `Execute` that holds its arguments has returned. */
  lemma CallbackOutlivesArguments(thread: ThreadId, d: DrainId) returns (run: seq<Action>)
    ensures ModeOnThroughout(run) && Exec(Init(), run).Some?
    ensures var s := Exec(Init(), run).value;
            && d in s.drains && s.drains[d].pc == InCallback(0)
            && 0 in s.objects && !s.objects[0].hasResult && s.objects[0].thread == thread
            && s.objects[0].pc.Returned? && s.objects[0].run == Running
  {
    var run0 := FirstIssuerDoesNotWait(thread, false);
    var s0 := Exec(Init(), run0).value;
    var run1, s1 := PopHead(s0, d);
    ExecConcat(Init(), run0, run1);
    StartHeld(Init(), run0 + run1, s1, d);
    run := run0 + run1 + [StepDrain(d, 0)];
  }
}
