/** Freedom from deadlock and termination of draining. */
module DeferredCallbackProgress {
  import opened Common
  import opened DeferredCallback
  import opened DeferredCallbackInvariant
  import opened DeferredCallbackResults

  // ---------------------------------------------------------------- a waiting drainer

  /** An issuer whose callback has been signalled is never blocked. */
  lemma SignalledIssuerMoves(g: Globals, o: Object, v: Value)
    requires ObjectOk(o) && o.place.Held? && o.cell.Some? && o.cell.value.executeNow && !o.cell.value.finished
    ensures !o.pc.Returned? && !o.pc.LockList? && IssueObject(g, o, v).pc != o.pc
  {
  }

  /** While a drainer waits for `finished`, the issuer has finished or can take a step that
      changes the state and acquires no lock. */
  lemma WaitingDrainerIsServed(prefix: seq<Action>, d: DrainId, v: Value)
    requires Exec(Init(), prefix).Some? && d in Exec(Init(), prefix).value.drains
    requires Exec(Init(), prefix).value.drains[d].pc.AwaitFinished?
    ensures var s := Exec(Init(), prefix).value; var cb := s.drains[d].pc.cb;
            && cb in s.objects && s.objects[cb].cell.Some?
            && (|| s.objects[cb].cell.value.finished
                || (&& !s.objects[cb].pc.LockList? && IssueStep(s, cb, v).Some?
                    && IssueStep(s, cb, v).value.objects[cb].pc != s.objects[cb].pc))
  {
    RunKeepsInv(Init(), prefix);
    AwaitedIssuerMoves(Exec(Init(), prefix).value, d, v);
  }

  lemma AwaitedIssuerMoves(s: State, d: DrainId, v: Value)
    requires Objects(s) && d in s.drains && s.drains[d].pc.AwaitFinished?
    ensures var cb := s.drains[d].pc.cb;
            && cb in s.objects && s.objects[cb].cell.Some?
            && (|| s.objects[cb].cell.value.finished
                || (&& !s.objects[cb].pc.LockList? && IssueStep(s, cb, v).Some?
                    && IssueStep(s, cb, v).value.objects[cb].pc != s.objects[cb].pc))
  {
    assert Holds(s.drains[d].pc);
    var o := s.objects[s.drains[d].pc.cb];
    assert ObjectOk(o);
    if !o.cell.value.finished {
      SignalledIssuerMoves(s.g, o, v);
    }
  }

  // ---------------------------------------------------------------- a measure

  /** The steps still owed: the push pays for the drainer's whole turn with the object. */
  function IssueRank(pc: IssuePc): nat {
    match pc
    case TestInit => 22
    case ClaimMain => 21
    case MarkInit => 20
    case ReadMode => 19
    case LockList => 18
    case Push => 17
    case UnlockList => 6
    case CheckMode => 5
    case CheckThread => 4
    case Spin => 3
    case RunDirect => 5
    case InDirect => 4
    case SignalDirect => 3
    case ReadResult(_) => 2
    case SetFinished(_, _) => 1
    case Returned(_, _) => 0
  }

  function DrainRank(pc: DrainPc): nat {
    match pc
    case UnlockPopped(_) => 11
    case Run(_) => 10
    case InCallback(_) => 9
    case Signal(_) => 8
    case AwaitFinished(_) => 7
    case Delete(_) => 6
    case Count => 5
    case TestEmpty => 4
    case LockPending => 3
    case Pop => 2
    case UnlockEmpty => 1
    case Exited => 0
  }

  function IssueRanks(objects: map<CallbackId, Object>): map<CallbackId, nat> {
    map id | id in objects :: IssueRank(objects[id].pc)
  }

  function DrainRanks(drains: map<DrainId, Drain>): map<DrainId, nat> {
    map d | d in drains :: DrainRank(drains[d].pc)
  }

  ghost function Measure(s: State): nat {
    Sum(IssueRanks(s.objects)) + Sum(DrainRanks(s.drains)) + 10 * |s.g.pending|
  }

  lemma IssueRankDecreases(g: Globals, o: Object, v: Value)
    requires TouchesObject(o.pc) ==> o.cell.Some?
    requires IssueObject(g, o, v) != o
    ensures IssueRank(IssueObject(g, o, v).pc) + (if o.pc.Push? then 10 else 0) < IssueRank(o.pc)
  {
  }

  /** A step of `Execute` changes the state exactly when it moves the activation. */
  lemma IssueMovesIff(s: State, id: CallbackId, v: Value)
    requires id in s.objects && IssueStep(s, id, v).Some? && !IssueStep(s, id, v).value.fault && !s.fault
    requires IssueStep(s, id, v).value.objects[id] == s.objects[id]
    ensures IssueStep(s, id, v) == Some(s)
  {
    assert s.objects[id].pc.Spin? && s.objects[id := s.objects[id]] == s.objects;
  }

  lemma IssueStepDecreases(s: State, id: CallbackId, v: Value)
    requires Inv(s) && id in s.objects && IssueStep(s, id, v).Some? && IssueStep(s, id, v) != Some(s)
    ensures Measure(IssueStep(s, id, v).value) < Measure(s)
  {
    IssueKeepsObjects(s, id, v);
    var o, s' := s.objects[id], IssueStep(s, id, v).value;
    var o' := IssueObject(s.g, o, v);
    if o' == o {
      IssueMovesIff(s, id, v);
    }
    IssueRankDecreases(s.g, o, v);
    assert IssueRanks(s'.objects) == IssueRanks(s.objects)[id := IssueRank(o'.pc)];
    SumUpdate(IssueRanks(s.objects), id, IssueRank(o'.pc));
  }

  lemma DrainRankDecreases(g: Globals, finished: bool, p: Drain)
    requires DrainNext(g, finished, p) != p
    ensures DrainRank(DrainNext(g, finished, p).pc) < DrainRank(p.pc) + (if p.pc.Pop? && g.pending != [] then 10 else 0)
  {
  }

  /** Draining does not move any issuer. */
  lemma DrainKeepsIssueRanks(s: State, d: DrainId, v: Value)
    requires d in s.drains && DrainStep(s, d, v).Some? && !DrainStep(s, d, v).value.fault
    ensures IssueRanks(DrainStep(s, d, v).value.objects) == IssueRanks(s.objects)
  {
    var s' := DrainStep(s, d, v).value;
    assert s'.objects.Keys == s.objects.Keys;
    assert forall id :: id in s.objects ==> s'.objects[id].pc == s.objects[id].pc;
  }

  /** A drainer's step changes the state exactly when it moves the drainer. */
  lemma DrainMovesIff(s: State, d: DrainId, v: Value)
    requires d in s.drains && DrainStep(s, d, v).Some? && !DrainStep(s, d, v).value.fault
    requires DrainStep(s, d, v).value.drains[d] == s.drains[d]
    ensures DrainStep(s, d, v) == Some(s)
  {
    var p := s.drains[d];
    assert p.pc.AwaitFinished? && s.drains[d := p] == s.drains;
    assert s.objects[p.pc.cb := s.objects[p.pc.cb]] == s.objects;
  }

  lemma DrainStepDecreases(s: State, d: DrainId, v: Value)
    requires d in s.drains && DrainStep(s, d, v).Some? && DrainStep(s, d, v) != Some(s)
    requires !DrainStep(s, d, v).value.fault
    ensures Measure(DrainStep(s, d, v).value) < Measure(s)
  {
    var p, s' := s.drains[d], DrainStep(s, d, v).value;
    var p' := s'.drains[d];
    if p' == p {
      DrainMovesIff(s, d, v);
    }
    var target := Target(s.g, p.pc);
    DrainRankDecreases(s.g, target.Some? && s.objects[target.value].cell.value.finished, p);
    DrainKeepsIssueRanks(s, d, v);
    assert DrainRanks(s'.drains) == DrainRanks(s.drains)[d := DrainRank(p'.pc)];
    SumUpdate(DrainRanks(s.drains), d, DrainRank(p'.pc));
    assert |s'.g.pending| == |s.g.pending| - (if p.pc.Pop? && s.g.pending != [] then 1 else 0);
  }

  // ---------------------------------------------------------------- bounded runs

  /** A step of an activation already in progress. */
  predicate Quiet(a: Action) {
    a.StepIssue? || a.StepDrain?
  }

  /** Only such steps, none of them an idle spin, and throws of the mode switch anywhere between. */
  predicate Busy(s: State, run: seq<Action>) {
    run == [] ||
    (var before := Exec(s, run[..|run| - 1]); var a := run[|run| - 1];
     && Busy(s, run[..|run| - 1]) && before.Some? && Step(before.value, a).Some?
     && (a.SetMode? || (Quiet(a) && Step(before.value, a) != before)))
  }

  /** How many steps of activations a run has. */
  function Turns(run: seq<Action>): nat {
    if run == [] then 0 else Turns(run[..|run| - 1]) + if Quiet(run[|run| - 1]) then 1 else 0
  }

  /** With no new activations, no run can go on for more than `Measure` state-changing steps of
      activations, however often the mode is switched in between: neither the spin loops nor the
      draining loop can keep each other going. */
  lemma {:induction false} BusyRunsAreBounded(s: State, run: seq<Action>)
    requires Inv(s) && Busy(s, run)
    ensures Exec(s, run).Some? && Turns(run) + Measure(Exec(s, run).value) <= Measure(s)
  {
    if run != [] {
      var front := run[..|run| - 1];
      BusyRunsAreBounded(s, front);
      RunKeepsInv(s, front);
      BusyStepDecreases(Exec(s, front).value, run[|run| - 1]);
    }
  }

  lemma BusyStepDecreases(s: State, a: Action)
    requires Inv(s) && Step(s, a).Some? && (a.SetMode? || (Quiet(a) && Step(s, a) != Some(s)))
    ensures Measure(Step(s, a).value) + (if Quiet(a) then 1 else 0) <= Measure(s)
  {
    match a
    case SetMode(_) =>
    case StepIssue(id, v) => IssueStepDecreases(s, id, v);
    case StepDrain(d, v) =>
      DrainKeepsObjects(s, d, v);
      DrainStepDecreases(s, d, v);
  }

  // ---------------------------------------------------------------- where a run can stop

  /** No activation in progress can change the state. */
  ghost predicate Stuck(s: State) {
    forall a :: Quiet(a) && Step(s, a).Some? ==> Step(s, a).value == s
  }

  lemma IssueAdvances(g: Globals, o: Object, v: Value)
    requires PlaceOk(o) && !o.pc.Returned? && (o.pc.Spin? ==> o.cell.Some? && o.cell.value.executeNow)
    ensures (TouchesObject(o.pc) ==> o.cell.Some?) && IssueObject(g, o, v).pc != o.pc
  {
  }

  lemma IssuerCanMove(s: State, id: CallbackId)
    requires Inv(s) && id in s.objects && !s.objects[id].pc.Returned?
    requires s.objects[id].pc.LockList? ==> s.g.lock.Nobody?
    requires s.objects[id].pc.Spin? ==> s.objects[id].cell.Some? && s.objects[id].cell.value.executeNow
    ensures !Stuck(s)
  {
    var o, s' := s.objects[id], IssueStep(s, id, 0).value;
    assert ObjectOk(o);
    IssueAdvances(s.g, o, 0);
    assert s'.objects[id] == IssueObject(s.g, o, 0);
    assert Quiet(StepIssue(id, 0)) && Step(s, StepIssue(id, 0)) == Some(s');
  }

  lemma DrainerCanMove(s: State, d: DrainId)
    requires Inv(s) && d in s.drains && !s.drains[d].pc.Exited?
    requires s.drains[d].pc.LockPending? ==> s.g.lock.Nobody?
    requires s.drains[d].pc.AwaitFinished? ==>
               s.drains[d].pc.cb in s.objects && s.objects[s.drains[d].pc.cb].cell.Some?
               && s.objects[s.drains[d].pc.cb].cell.value.finished
    ensures !Stuck(s)
  {
    DrainKeepsObjects(s, d, 0);
    var s' := DrainStep(s, d, 0).value;
    assert s'.drains[d] != s.drains[d];
    assert Quiet(StepDrain(d, 0)) && Step(s, StepDrain(d, 0)) == Some(s');
  }

  lemma StuckLockIsFree(s: State)
    requires Inv(s) && Stuck(s)
    ensures s.g.lock.Nobody?
  {
    if s.g.lock.Issuer? {
      IssuerCanMove(s, s.g.lock.id);
    } else if s.g.lock.Drainer? {
      DrainerCanMove(s, s.g.lock.d);
    }
  }

  lemma StuckDrainersExited(s: State, d: DrainId)
    requires Inv(s) && Stuck(s) && d in s.drains
    ensures s.drains[d].pc.Exited?
  {
    StuckLockIsFree(s);
    if !s.drains[d].pc.Exited? {
      if s.drains[d].pc.AwaitFinished? && !s.objects[s.drains[d].pc.cb].cell.value.finished {
        assert ObjectOk(s.objects[s.drains[d].pc.cb]);
        IssuerCanMove(s, s.drains[d].pc.cb);
      } else {
        DrainerCanMove(s, d);
      }
    }
  }

  lemma StuckIssuerWaitsForDrainer(s: State, id: CallbackId)
    requires Inv(s) && Stuck(s) && id in s.objects
    ensures s.objects[id].pc.Returned? || (s.objects[id].pc.Spin? && id in s.g.pending)
  {
    StuckLockIsFree(s);
    var o := s.objects[id];
    assert ObjectOk(o);
    if !o.pc.Returned? {
      if !o.pc.Spin? || o.cell.value.executeNow {
        IssuerCanMove(s, id);
      } else if o.place.Held? {
        StuckDrainersExited(s, o.place.d);
        assert false;
      }
    }
  }

  /** No deadlock: a run can stop only where the lock is free, every `TriggerCallbacks` has
      returned, and every `Execute` has returned or waits for a callback still on the list,
      for which nobody is draining. */
  lemma RunsStopOnlyWhenDrained(prefix: seq<Action>)
    requires Exec(Init(), prefix).Some? && Stuck(Exec(Init(), prefix).value)
    ensures var s := Exec(Init(), prefix).value;
            && s.g.lock.Nobody?
            && (forall d :: d in s.drains ==> s.drains[d].pc.Exited?)
            && (forall id :: id in s.objects ==>
                  s.objects[id].pc.Returned? || (s.objects[id].pc.Spin? && id in s.g.pending))
  {
    RunKeepsInv(Init(), prefix);
    var s := Exec(Init(), prefix).value;
    StuckLockIsFree(s);
    forall d | d in s.drains ensures s.drains[d].pc.Exited? { StuckDrainersExited(s, d); }
    forall id | id in s.objects
      ensures s.objects[id].pc.Returned? || (s.objects[id].pc.Spin? && id in s.g.pending)
    { StuckIssuerWaitsForDrainer(s, id); }
  }

  // ---------------------------------------------------------------- draining serves everyone

  /** `Execute` has pushed, or runs its callback itself: it will not push any more. */
  predicate WillNotPush(o: Object) {
    o.place != Private || o.pc.RunDirect? || o.pc.InDirect? || o.pc.SignalDirect? || Leaving(o.pc)
  }

  ghost predicate NoMorePushes(s: State) {
    forall id :: id in s.objects ==> WillNotPush(s.objects[id])
  }

  /** The drainer will look at the list again before it leaves. */
  predicate Covers(s: State, d: DrainId) {
    d in s.drains && (s.g.pending == [] || (!s.drains[d].pc.Exited? && !s.drains[d].pc.UnlockEmpty?))
  }

  lemma QuietStepKeepsNoPushes(s: State, a: Action)
    requires Inv(s) && NoMorePushes(s) && Quiet(a) && Step(s, a).Some?
    ensures NoMorePushes(Step(s, a).value)
  {
    var s' := Step(s, a).value;
    assert s'.objects.Keys == s.objects.Keys by { StepKeepsInv(s, a); }
    forall id | id in s.objects ensures WillNotPush(s'.objects[id]) {
      ObjectKeepsNoPushes(s, a, id);
    }
  }

  lemma ObjectKeepsNoPushes(s: State, a: Action, id: CallbackId)
    requires Inv(s) && Quiet(a) && Step(s, a).Some? && id in s.objects && WillNotPush(s.objects[id])
    ensures id in Step(s, a).value.objects && WillNotPush(Step(s, a).value.objects[id])
  {
    assert ObjectOk(s.objects[id]);
    ObjectTurn(s, a, id);
    if a.StepIssue? && a.id == id {
      TurnKeepsNoPushes(s.g, s.objects[id], a.result);
    }
  }

  lemma TurnKeepsNoPushes(g: Globals, o: Object, v: Value)
    requires ObjectOk(o) && WillNotPush(o)
    ensures !o.pc.Push?
    ensures WillNotPush(IssueObject(g, o, v))
  {
  }

  lemma QuietStepKeepsCover(s: State, a: Action, d: DrainId)
    requires Objects(s) && !s.fault && NoMorePushes(s) && Covers(s, d) && Quiet(a) && Step(s, a).Some?
    ensures Covers(Step(s, a).value, d)
  {
    if a.StepIssue? {
      TurnKeepsNoPushes(s.g, s.objects[a.id], a.result);
    }
  }

  lemma {:induction false} BusyRunKeepsCover(s: State, run: seq<Action>, d: DrainId)
    requires Inv(s) && NoMorePushes(s) && Covers(s, d) && Busy(s, run) && Exec(s, run).Some?
    ensures NoMorePushes(Exec(s, run).value) && Covers(Exec(s, run).value, d)
  {
    if run != [] {
      var front, a := run[..|run| - 1], run[|run| - 1];
      BusyRunKeepsCover(s, front, d);
      if Quiet(a) {
        RunKeepsInv(s, front);
        QuietStepKeepsNoPushes(Exec(s, front).value, a);
        QuietStepKeepsCover(Exec(s, front).value, a, d);
      }
    }
  }

  /** Everybody has been served: nothing is pending, every activation has returned, every object ever
      pushed has been deleted, once, and the objects that leak are those of direct calls. */
  ghost predicate AllServed(s: State) {
    && s.g.pending == []
    && (forall d :: d in s.drains ==> s.drains[d].pc.Exited?)
    && (forall id :: id in s.objects ==> s.objects[id].pc.Returned?)
    && Distinct(Ids(s.log.deleted))
    && (forall id :: id in s.log.pushed ==> id in s.objects && s.objects[id].place == Gone && id in Ids(s.log.deleted))
    && (forall id :: id in s.objects ==> (s.objects[id].cell.Some? <==> id in s.log.direct))
  }

  lemma StuckCoveredIsServed(s: State, d: DrainId)
    requires Inv(s) && AllRecorded(s) && Stuck(s) && Covers(s, d)
    ensures AllServed(s)
  {
    forall e | e in s.drains ensures s.drains[e].pc.Exited? { StuckDrainersExited(s, e); }
    forall id | id in s.objects ensures s.objects[id].pc.Returned? { StuckIssuerWaitsForDrainer(s, id); }
    forall id | id in s.log.pushed ensures s.objects[id].place == Gone {
      assert s.objects[id].place != Private;
    }
    forall id | id in s.objects ensures s.objects[id].cell.Some? <==> id in s.log.direct {
      assert ObjectOk(s.objects[id]) && Recorded(s.log, id, s.objects[id]);
      ObjectLeaksOrServed(s, id);
    }
  }

  lemma CoveredRunServes(s: State, run: seq<Action>, d: DrainId)
    requires Inv(s) && AllRecorded(s) && NoMorePushes(s) && Covers(s, d) && Busy(s, run)
    ensures Exec(s, run).Some? && Turns(run) <= Measure(s)
    ensures Stuck(Exec(s, run).value) ==> AllServed(Exec(s, run).value)
  {
    BusyRunsAreBounded(s, run);
    if Stuck(Exec(s, run).value) {
      RunKeepsInv(s, run);
      RunRecords(s, run);
      BusyRunKeepsCover(s, run, d);
      StuckCoveredIsServed(Exec(s, run).value, d);
    }
  }

  /** From every reachable state in which nobody is about to push and one `TriggerCallbacks` is at
      its loop test, every run has boundedly many state-changing steps, however the mode is switched
      meanwhile; and where it stops, everybody has been served. */
  lemma DrainingServesEveryone(prefix: seq<Action>, run: seq<Action>, d: DrainId)
    requires Exec(Init(), prefix).Some?
    requires var s := Exec(Init(), prefix).value;
             NoMorePushes(s) && d in s.drains && s.drains[d].pc.TestEmpty? && Busy(s, run)
    ensures var s := Exec(Init(), prefix).value;
            && Exec(s, run).Some? && Turns(run) <= Measure(s)
            && (Stuck(Exec(s, run).value) ==> AllServed(Exec(s, run).value))
  {
    ReachableIsOk(prefix);
    CoveredRunServes(Exec(Init(), prefix).value, run, d);
  }
}
