/** Exactly when one more call of `TriggerCallbacks` cannot disturb the order in which callbacks start. */
module DeferredCallbackOverlap {
  import opened Common
  import opened DeferredCallback
  import opened DeferredCallbackInvariant
  import opened DeferredCallbackResults
  import opened DeferredCallbackEntry
  import opened DeferredCallbackOrder
  import opened DeferredCallbackProgress

  /** Callbacks have been started in the order they were popped, which is the order of the pushes,
      and none has been overtaken. */
  predicate Ordered(s: State) {
    s.log.started <= s.log.popped
  }

  ghost predicate AllSpent(s: State) {
    forall d :: d in s.drains ==> Spent(s.g, s.drains[d].pc)
  }

  lemma InOrderIsOrdered(s: State)
    requires InOrder(s)
    ensures Ordered(s)
  {
    if d :| d in s.drains && Unstarted(s.drains[d].pc) {
      assert s.log.popped == s.log.started + [(d, s.drains[d].pc.cb)];
    }
  }

  /** Runs without overlap are ordered, so the results below apply to the states they reach. */
  lemma NoOverlapIsOrdered(run: seq<Action>)
    requires Exec(Init(), run).Some? && NoOverlap(run)
    ensures Ordered(Exec(Init(), run).value)
  {
    RunKeepsOrder(run);
    InOrderIsOrdered(Exec(Init(), run).value);
  }

  // ---------------------------------------------------------------- spent calls are harmless

  /** Nobody pushes or pops while a spent call holds the lock. */
  lemma SpentStaysSpent(s: State, a: Action, d: DrainId)
    requires Locking(s) && !s.fault && d in s.drains && Spent(s.g, s.drains[d].pc)
    requires Step(s, a).Some? && !Step(s, a).value.fault
    ensures d in Step(s, a).value.drains && Spent(Step(s, a).value.g, Step(s, a).value.drains[d].pc)
  {
  }

  lemma NoFault(s: State, a: Action)
    requires Inv(s) && Step(s, a).Some?
    ensures !Step(s, a).value.fault
  {
    StepKeepsInv(s, a);
  }

  lemma StepKeepsOneUnspent(s: State, a: Action)
    requires Inv(s) && Step(s, a).Some? && OneUnspent(s) && (a.NewDrain? ==> AllSpent(s))
    ensures OneUnspent(Step(s, a).value) && (AllSpent(s) && !a.NewDrain? ==> AllSpent(Step(s, a).value))
  {
    var s' := Step(s, a).value;
    NoFault(s, a);
    forall d | d in s.drains && Spent(s.g, s.drains[d].pc) ensures d in s'.drains && Spent(s'.g, s'.drains[d].pc) {
      SpentStaysSpent(s, a, d);
    }
    assert forall d :: d in s'.drains && d !in s.drains ==> a == NewDrain(d);
  }

  lemma StepKeepsInOrder(s: State, a: Action)
    requires Inv(s) && Step(s, a).Some? && OneUnspent(s) && InOrder(s)
    ensures InOrder(Step(s, a).value)
  {
    if a.StepDrain? {
      DrainKeepsObjects(s, a.d, a.result);
      DrainKeepsOrder(s, a.d, a.result);
    } else {
      OthersKeepOrder(s, a);
    }
  }

  lemma {:induction false} OneNewcomerKeepsOrder(s: State, run: seq<Action>)
    requires Inv(s) && InOrder(s) && AllSpent(s) && NewDrains(run) <= 1 && Exec(s, run).Some?
    ensures var s' := Exec(s, run).value; InOrder(s') && OneUnspent(s') && (NewDrains(run) == 0 ==> AllSpent(s'))
  {
    if run != [] {
      var front, a := run[..|run| - 1], run[|run| - 1];
      OneNewcomerKeepsOrder(s, front);
      RunKeepsInv(s, front);
      StepKeepsOneUnspent(Exec(s, front).value, a);
      StepKeepsInOrder(Exec(s, front).value, a);
    }
  }

  lemma FrontNotInBack<T>(a: seq<T>, b: seq<T>, k: nat)
    requires Distinct(a + b) && k < |a|
    ensures a[k] !in b
  {
    forall j | 0 <= j < |b| ensures b[j] != a[k] {
      assert (a + b)[|a| + j] == b[j] && (a + b)[k] == a[k];
    }
  }

  lemma PoppedDistinct(s: State)
    requires Lists(s)
    ensures Distinct(Ids(s.log.popped))
  {
    forall i, j | 0 <= i < j < |s.log.popped| ensures Ids(s.log.popped)[i] != Ids(s.log.popped)[j] {
      assert s.log.pushed[i] == Ids(s.log.popped)[i] && s.log.pushed[j] == Ids(s.log.popped)[j];
    }
  }

  /** A popped callback that no drainer holds has been started. */
  lemma PoppedIsStarted(s: State, k: nat)
    requires Inv(s) && AllRecorded(s) && AllSpent(s) && k < |s.log.popped|
    ensures s.log.popped[k].1 in Ids(s.log.started)
  {
    var id := s.log.popped[k].1;
    assert s.log.pushed[k] == Ids(s.log.popped)[k] == id;
    assert id in s.log.pushed && id in s.objects && Recorded(s.log, id, s.objects[id]) && ObjectOk(s.objects[id]);
    FrontNotInBack(Ids(s.log.popped), s.g.pending, k);
  }

  lemma NextIsNotStarted(started: seq<(DrainId, CallbackId)>, popped: seq<(DrainId, CallbackId)>)
    requires started <= popped && |started| < |popped| && Distinct(Ids(popped))
    ensures popped[|started|].1 !in Ids(started)
  {
    forall k | 0 <= k < |started| ensures Ids(started)[k] != popped[|started|].1 {
      assert started[k] == popped[k] && Ids(popped)[k] != Ids(popped)[|started|];
    }
  }

  lemma SpentIsInOrder(s: State)
    requires Inv(s) && AllRecorded(s) && AllSpent(s) && Ordered(s)
    ensures InOrder(s)
  {
    PoppedDistinct(s);
    if |s.log.started| < |s.log.popped| {
      NextIsNotStarted(s.log.started, s.log.popped);
      PoppedIsStarted(s, |s.log.started|);
    }
  }

  // ---------------------------------------------------------------- an unspent call can be overtaken

  lemma Goes(s0: State, run: seq<Action>, s: State, a: Action) returns (run': seq<Action>, s': State)
    requires Exec(s0, run) == Some(s) && Inv(s) && Step(s, a).Some? && !a.NewDrain?
    ensures Exec(s0, run') == Some(s') && s' == Step(s, a).value && Inv(s') && NewDrains(run') == NewDrains(run)
  {
    ExecAppend(s0, run, a);
    NewDrainsAppend(run, a);
    StepKeepsInv(s, a);
    run', s' := run + [a], Step(s, a).value;
  }

  /** Between the start of a callback and the next test of the list. */
  predicate Midway(pc: DrainPc) {
    pc.InCallback? || pc.Signal? || pc.AwaitFinished? || pc.Delete? || pc.Count?
  }

  lemma MidwayDrainerGoes(s: State, d: DrainId)
    requires Inv(s) && d in s.drains && Midway(s.drains[d].pc)
    requires s.drains[d].pc.AwaitFinished? ==>
               s.drains[d].pc.cb in s.objects && s.objects[s.drains[d].pc.cb].cell.Some?
               && s.objects[s.drains[d].pc.cb].cell.value.finished
    ensures DrainStep(s, d, 0).Some?
    ensures var s' := DrainStep(s, d, 0).value;
            && Measure(s') < Measure(s) && d in s'.drains
            && (Midway(s'.drains[d].pc) || s'.drains[d].pc.TestEmpty?)
  {
    DrainKeepsObjects(s, d, 0);
    assert DrainStep(s, d, 0).value.drains[d].pc != s.drains[d].pc;
    DrainStepDecreases(s, d, 0);
  }

  lemma AwaitedGoes(s: State, d: DrainId)
    requires Inv(s) && d in s.drains && s.drains[d].pc.AwaitFinished?
    requires s.drains[d].pc.cb in s.objects && s.objects[s.drains[d].pc.cb].cell.Some?
    requires !s.objects[s.drains[d].pc.cb].cell.value.finished
    ensures var cb := s.drains[d].pc.cb;
            && IssueStep(s, cb, 0).Some?
            && Measure(IssueStep(s, cb, 0).value) < Measure(s) && IssueStep(s, cb, 0).value.drains == s.drains
  {
    AwaitedIssuerMoves(s, d, 0);
    IssueStepDecreases(s, s.drains[d].pc.cb, 0);
  }

  /** It, or the issuer it waits for, always has a step. */
  lemma MidwayGoes(s: State, d: DrainId) returns (a: Action)
    requires Inv(s) && d in s.drains && Midway(s.drains[d].pc)
    ensures !a.NewDrain? && Step(s, a).Some?
    ensures var s' := Step(s, a).value;
            && Measure(s') < Measure(s) && d in s'.drains
            && (Midway(s'.drains[d].pc) || s'.drains[d].pc.TestEmpty?)
  {
    var pc := s.drains[d].pc;
    if pc.AwaitFinished? {
      AwaitedIssuerMoves(s, d, 0);
      if !s.objects[pc.cb].cell.value.finished {
        AwaitedGoes(s, d);
        return StepIssue(pc.cb, 0);
      }
    }
    MidwayDrainerGoes(s, d);
    a := StepDrain(d, 0);
  }

  lemma {:induction false} ComesRound(s0: State, run: seq<Action>, s: State, d: DrainId)
    returns (run': seq<Action>, s': State)
    requires Exec(s0, run) == Some(s) && Inv(s) && d in s.drains
    ensures Exec(s0, run') == Some(s') && Inv(s') && NewDrains(run') == NewDrains(run) && d in s'.drains
    ensures if Midway(s.drains[d].pc) then s'.drains[d].pc.TestEmpty? else s' == s
    decreases Measure(s)
  {
    run', s' := run, s;
    if Midway(s.drains[d].pc) {
      var a := MidwayGoes(s, d);
      var t: State;
      run', t := Goes(s0, run, s, a);
      run', s' := ComesRound(s0, run', t, d);
    }
  }

  // ---------------------------------------------------------------- the lock becomes free

  /** Closer to a free lock, with one drainer where it was. */
  predicate Frees(s: State, s': State, d: DrainId) {
    && StepsToUnlock(s') < StepsToUnlock(s)
    && d in s.drains && d in s'.drains && s'.drains[d] == s.drains[d]
    && (s'.g.lock == s.g.lock || s'.g.lock.Nobody?)
  }

  lemma IssuerFrees(s: State, k: CallbackId, d: DrainId)
    requires k in s.objects && IssueInside(s.objects[k].pc) && s.g.lock == Issuer(k) && d in s.drains
    ensures IssueStep(s, k, 0).Some? && Frees(s, IssueStep(s, k, 0).value, d)
  {
  }

  lemma DrainerFrees(s: State, e: DrainId, d: DrainId)
    requires e in s.drains && DrainInside(s.drains[e].pc) && s.g.lock == Drainer(e) && d in s.drains && d != e
    requires s.g.pending != [] ==> s.g.pending[0] in s.objects && s.objects[s.g.pending[0]].cell.Some?
    ensures DrainStep(s, e, 0).Some? && Frees(s, DrainStep(s, e, 0).value, d)
  {
  }

  lemma HeadIsLive(s: State)
    requires Objects(s) && Lists(s) && s.g.pending != []
    ensures s.g.pending[0] in s.objects && s.objects[s.g.pending[0]].cell.Some?
  {
    assert s.g.pending[0] in s.g.pending;
    assert ObjectOk(s.objects[s.g.pending[0]]);
  }

  lemma LockHolderGoes(s: State, d: DrainId) returns (a: Action)
    requires Inv(s) && d in s.drains && !s.g.lock.Nobody? && s.g.lock != Drainer(d)
    ensures !a.NewDrain? && Step(s, a).Some? && Frees(s, Step(s, a).value, d)
  {
    if s.g.lock.Issuer? {
      a := StepIssue(s.g.lock.id, 0);
      IssuerFrees(s, s.g.lock.id, d);
    } else {
      a := StepDrain(s.g.lock.d, 0);
      if s.g.pending != [] { HeadIsLive(s); }
      DrainerFrees(s, s.g.lock.d, d);
    }
  }

  lemma {:induction false} LockIsFreed(s0: State, run: seq<Action>, s: State, d: DrainId)
    returns (run': seq<Action>, s': State)
    requires Exec(s0, run) == Some(s) && Inv(s) && d in s.drains && s.g.lock != Drainer(d)
    ensures Exec(s0, run') == Some(s') && Inv(s') && NewDrains(run') == NewDrains(run)
    ensures s'.g.lock.Nobody? && d in s'.drains && s'.drains[d] == s.drains[d]
    decreases StepsToUnlock(s)
  {
    run', s' := run, s;
    if !s.g.lock.Nobody? {
      var a := LockHolderGoes(s, d);
      var t: State;
      run', t := Goes(s0, run, s, a);
      run', s' := LockIsFreed(s0, run', t, d);
    }
  }

  // ---------------------------------------------------------------- one more push

  /** A new call begins with the mode on. */
  lemma NewIssuerAppears(s: State, k: CallbackId) returns (run: seq<Action>, s': State)
    requires k !in s.objects
    ensures Exec(s, run) == Some(s') && NewDrains(run) == 0
    ensures s' == s.(g := s.g.(mode := true), objects := s.objects[k := NewObject(0, false)])
  {
    run, s' := [] + [SetMode(true)], s.(g := s.g.(mode := true));
    ExecAppend(s, [], SetMode(true));
    ExecAppend(s, run, NewIssue(k, 0, false));
    NewDrainsAppend([], SetMode(true));
    NewDrainsAppend(run, NewIssue(k, 0, false));
    run, s' := run + [NewIssue(k, 0, false)], s'.(objects := s'.objects[k := NewObject(0, false)]);
  }

  /** ... gets through its constructor ... */
  lemma NewIssuerConstructs(s: State, k: CallbackId) returns (run: seq<Action>, s': State)
    requires k !in s.objects
    ensures Exec(s, run) == Some(s') && NewDrains(run) == 0
    ensures k in s'.objects && s'.objects[k] == NewObject(0, false).(pc := ReadMode)
    ensures s'.g.mode && s'.g.lock == s.g.lock && s'.g.pending == s.g.pending && s'.drains == s.drains
  {
    run, s' := NewIssuerAppears(s, k);
    run, s' := IssueGoes(s, run, s', k);
    if s'.objects[k].pc.ClaimMain? {
      run, s' := IssueGoes(s, run, s', k);
      run, s' := IssueGoes(s, run, s', k);
    }
  }

  /** ... and pushes. */
  lemma NewIssuerPushes(s: State, k: CallbackId) returns (run: seq<Action>, s': State)
    requires k !in s.objects && s.g.lock.Nobody?
    ensures Exec(s, run) == Some(s') && NewDrains(run) == 0
    ensures s'.g.lock.Nobody? && s'.g.pending != [] && s'.drains == s.drains
  {
    run, s' := NewIssuerConstructs(s, k);
    run, s' := IssueGoes(s, run, s', k);
    run, s' := IssueGoes(s, run, s', k);
    run, s' := IssueGoes(s, run, s', k);
    run, s' := IssueGoes(s, run, s', k);
  }

  lemma OneIsPushed(s0: State, run: seq<Action>, s: State) returns (run': seq<Action>, s': State)
    requires Exec(s0, run) == Some(s) && Inv(s) && s.g.lock.Nobody?
    ensures Exec(s0, run') == Some(s') && Inv(s') && NewDrains(run') == NewDrains(run)
    ensures s'.g.lock.Nobody? && s'.g.pending != [] && s'.drains == s.drains
  {
    var k := Unused(s.objects.Keys);
    assert k !in s.objects;
    var more: seq<Action>;
    more, s' := NewIssuerPushes(s, k);
    RunKeepsInv(s, more);
    ExecConcat(s0, run, more);
    NewDrainsConcat(run, more);
    run' := run + more;
  }

  // ---------------------------------------------------------------- to the brink of a callback

  /** A step of a drainer on its way to a callback, for what it does to the drainer, the lock and the list. */
  lemma DrainerGoes(s0: State, run: seq<Action>, s: State, d: DrainId) returns (run': seq<Action>, s': State)
    requires Exec(s0, run) == Some(s) && Inv(s) && d in s.drains && s.g.pending != []
    requires s.drains[d].pc.TestEmpty? || s.drains[d].pc.Pop? || (s.drains[d].pc.LockPending? && s.g.lock.Nobody?)
    ensures Exec(s0, run') == Some(s') && Inv(s') && NewDrains(run') == NewDrains(run) && d in s'.drains
    ensures s'.drains[d].pc == DrainNext(s.g, false, s.drains[d]).pc && s'.g == DrainGlobals(s.g, d, s.drains[d].pc)
  {
    HeadIsLive(s);
    run', s' := Goes(s0, run, s, StepDrain(d, 0));
  }

  lemma PopperRuns(s0: State, run: seq<Action>, s: State, d: DrainId) returns (run': seq<Action>, s': State)
    requires Exec(s0, run) == Some(s) && Inv(s) && d in s.drains
    requires s.drains[d].pc.UnlockPopped? || (s.drains[d].pc.Pop? && s.g.pending != [])
    ensures Exec(s0, run') == Some(s') && Inv(s') && NewDrains(run') == NewDrains(run)
    ensures d in s'.drains && s'.drains[d].pc.Run?
  {
    run', s' := run, s;
    if s.drains[d].pc.Pop? {
      run', s' := DrainerGoes(s0, run', s', d);
    }
    UnlockerGoes(s', d);
    run', s' := Goes(s0, run', s', StepDrain(d, 0));
  }

  lemma UnlockerGoes(s: State, d: DrainId)
    requires d in s.drains && s.drains[d].pc.UnlockPopped?
    ensures DrainStep(s, d, 0).Some?
    ensures d in DrainStep(s, d, 0).value.drains && DrainStep(s, d, 0).value.drains[d].pc.Run?
  {
  }

  lemma TesterRuns(s0: State, run: seq<Action>, s: State, d: DrainId) returns (run': seq<Action>, s': State)
    requires Exec(s0, run) == Some(s) && Inv(s) && d in s.drains
    requires s.drains[d].pc.TestEmpty? || s.drains[d].pc.LockPending?
    ensures Exec(s0, run') == Some(s') && Inv(s') && NewDrains(run') == NewDrains(run)
    ensures d in s'.drains && s'.drains[d].pc.Run?
  {
    run', s' := LockIsFreed(s0, run, s, d);
    run', s' := OneIsPushed(s0, run', s');
    if s.drains[d].pc.TestEmpty? {
      run', s' := DrainerGoes(s0, run', s', d);
    }
    run', s' := DrainerGoes(s0, run', s', d);
    run', s' := PopperRuns(s0, run', s', d);
  }

  /** From wherever it is, an unspent call can be brought to the brink of a callback it has popped. */
  lemma UnspentRuns(s0: State, run: seq<Action>, s: State, d: DrainId) returns (run': seq<Action>, s': State)
    requires Exec(s0, run) == Some(s) && Inv(s) && d in s.drains && !Spent(s.g, s.drains[d].pc)
    ensures Exec(s0, run') == Some(s') && Inv(s') && NewDrains(run') == NewDrains(run)
    ensures d in s'.drains && s'.drains[d].pc.Run?
  {
    run', s' := ComesRound(s0, run, s, d);
    if s'.drains[d].pc.TestEmpty? || s'.drains[d].pc.LockPending? {
      run', s' := TesterRuns(s0, run', s', d);
    } else if !s'.drains[d].pc.Run? {
      run', s' := PopperRuns(s0, run', s', d);
    }
  }

  // ---------------------------------------------------------------- and be overtaken there

  lemma LastIsNew(popped: seq<(DrainId, CallbackId)>, x: (DrainId, CallbackId))
    requires Distinct(Ids(popped + [x]))
    ensures x !in popped
  {
    var all := popped + [x];
    forall k | 0 <= k < |popped| ensures popped[k] != x {
      assert Ids(all)[k] != Ids(all)[|popped|] && all[k] == popped[k];
    }
  }

  /** A start that overtakes is no prefix of the pops. */
  lemma OvertakingStart(popped: seq<(DrainId, CallbackId)>, started: seq<(DrainId, CallbackId)>,
                        x: (DrainId, CallbackId), c: CallbackId)
    requires x !in popped && c in Ids(popped + [x]) && c !in Ids(started + [x])
    ensures !(started + [x] <= popped + [x])
  {
    var ps, ss := popped + [x], started + [x];
    var k :| 0 <= k < |ps| && Ids(ps)[k] == c;
    assert ss[|started|] == x;
    assert |started| < |popped| ==> ps[|started|] == popped[|started|];
    assert k < |ss| ==> Ids(ss)[k] == ss[k].1;
  }

  /** `e` has started its callback while `d`, which popped before it, has not. */
  lemma OvertakenIsDisordered(s: State, d: DrainId, popped: seq<(DrainId, CallbackId)>,
                              started: seq<(DrainId, CallbackId)>, x: (DrainId, CallbackId))
    requires Inv(s) && AllRecorded(s) && d in s.drains && s.drains[d].pc.Run?
    requires s.log.popped == popped + [x] && s.log.started == started + [x]
    ensures !Ordered(s)
  {
    var c := s.drains[d].pc.cb;
    assert Holds(s.drains[d].pc) && s.objects[c].place == Held(d) && s.objects[c].run == NotRun;
    assert c in s.log.pushed by { assert Recorded(s.log, c, s.objects[c]); }
    PoppedDistinct(s);
    LastIsNew(popped, x);
    OvertakingStart(popped, started, x, c);
  }

  /** A newcomer pops the head of the list and starts it. */
  lemma NewcomerStarts(s: State, d: DrainId, e: DrainId) returns (run: seq<Action>)
    requires d in s.drains && e !in s.drains && s.g.lock.Nobody? && s.g.pending != []
    requires s.g.pending[0] in s.objects && s.objects[s.g.pending[0]].cell.Some?
    ensures NewDrains(run) == 1 && Exec(s, run).Some?
    ensures var s' := Exec(s, run).value;
            && d in s'.drains && s'.drains[d] == s.drains[d]
            && s'.log.popped == s.log.popped + [(e, s.g.pending[0])]
            && s'.log.started == s.log.started + [(e, s.g.pending[0])]
  {
    var run1, s1 := PopHead(s, e);
    StartHeld(s, run1, s1, e);
    NewDrainsAppend(run1, StepDrain(e, 0));
    run := run1 + [StepDrain(e, 0)];
  }

  lemma RunnerIsOvertaken(s: State, d: DrainId) returns (run: seq<Action>)
    requires Inv(s) && AllRecorded(s) && d in s.drains && s.drains[d].pc.Run? && s.g.lock.Nobody? && s.g.pending != []
    ensures NewDrains(run) == 1 && Exec(s, run).Some? && !Ordered(Exec(s, run).value)
  {
    var e := Unused(s.drains.Keys);
    assert e !in s.drains;
    HeadIsLive(s);
    run := NewcomerStarts(s, d, e);
    RunKeepsInv(s, run);
    RunRecords(s, run);
    OvertakenIsDisordered(Exec(s, run).value, d, s.log.popped, s.log.started, (e, s.g.pending[0]));
  }

  /** It is at the brink of its callback while the list is not empty and the lock is free. */
  lemma UnspentIsExposed(s: State, d: DrainId) returns (run: seq<Action>, s': State)
    requires Inv(s) && d in s.drains && !Spent(s.g, s.drains[d].pc)
    ensures Exec(s, run) == Some(s') && Inv(s') && NewDrains(run) == 0
    ensures d in s'.drains && s'.drains[d].pc.Run? && s'.g.lock.Nobody? && s'.g.pending != []
  {
    run, s' := UnspentRuns(s, [], s, d);
    run, s' := LockIsFreed(s, run, s', d);
    run, s' := OneIsPushed(s, run, s');
  }

  lemma UnspentIsOvertaken(s: State, d: DrainId) returns (run: seq<Action>)
    requires Inv(s) && AllRecorded(s) && d in s.drains && !Spent(s.g, s.drains[d].pc)
    ensures NewDrains(run) == 1 && Exec(s, run).Some? && !Ordered(Exec(s, run).value)
  {
    var run0, t := UnspentIsExposed(s, d);
    RunRecords(s, run0);
    var run1 := RunnerIsOvertaken(t, d);
    ExecConcat(s, run0, run1);
    NewDrainsConcat(run0, run1);
    run := run0 + run1;
  }

  /** From every reachable state whose callbacks have been started in order so far, as they are in every
      run without overlap: they go on to be, in every continuation with at most one more call of
      `TriggerCallbacks`, if and only if every earlier call is spent. */
  lemma OneMoreCallKeepsOrderIff(prefix: seq<Action>)
    requires Exec(Init(), prefix).Some? && Ordered(Exec(Init(), prefix).value)
    ensures var s := Exec(Init(), prefix).value;
            (forall run :: NewDrains(run) <= 1 && Exec(s, run).Some? ==> Ordered(Exec(s, run).value))
            <==> AllSpent(s)
  {
    ReachableIsOk(prefix);
    var s := Exec(Init(), prefix).value;
    if AllSpent(s) {
      SpentIsInOrder(s);
      forall run | NewDrains(run) <= 1 && Exec(s, run).Some? ensures Ordered(Exec(s, run).value) {
        OneNewcomerKeepsOrder(s, run);
        InOrderIsOrdered(Exec(s, run).value);
      }
    } else {
      var d :| d in s.drains && !Spent(s.g, s.drains[d].pc);
      var run := UnspentIsOvertaken(s, d);
    }
  }
}
