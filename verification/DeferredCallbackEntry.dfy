/** When a caller of `Execute` can rely on the result, told from the state at the call. */
module DeferredCallbackEntry {
  import opened Common
  import opened DeferredCallback
  import opened DeferredCallbackInvariant
  import opened DeferredCallbackResults

  // ---------------------------------------------------------------- sMainThread settles

  predicate Constructing(pc: IssuePc) {
    pc.TestInit? || pc.ClaimMain? || pc.MarkInit?
  }

  /** Whoever is past its constructor has left `initilized` set. */
  ghost predicate Constructed(s: State) {
    forall id :: id in s.objects && !Constructing(s.objects[id].pc) ==> s.g.initialized
  }

  lemma StepKeepsConstructed(s: State, a: Action)
    requires Constructed(s) && Step(s, a).Some?
    ensures Constructed(Step(s, a).value)
  {
  }

  lemma {:induction false} RunKeepsConstructed(run: seq<Action>)
    requires Exec(Init(), run).Some?
    ensures Constructed(Exec(Init(), run).value)
  {
    if run != [] {
      RunKeepsConstructed(run[..|run| - 1]);
      StepKeepsConstructed(Exec(Init(), run[..|run| - 1]).value, run[|run| - 1]);
    }
  }

  /** Nobody is between its test of `initilized` and its claim of `sMainThread`. */
  ghost predicate NobodyClaims(s: State) {
    forall id :: id in s.objects ==> !s.objects[id].pc.ClaimMain?
  }

  /** Nobody on thread `t` is there. */
  ghost predicate NoClaimOf(s: State, t: ThreadId) {
    forall id :: id in s.objects && s.objects[id].pc.ClaimMain? ==> s.objects[id].thread != t
  }

  /** Once `initilized` is set, a thread that is not `sMainThread` and claims nothing never will be. */
  lemma NeverBecomesMain(s: State, a: Action, t: ThreadId)
    requires s.g.initialized && NoClaimOf(s, t) && s.g.mainThread != Some(t) && Step(s, a).Some?
    ensures var s' := Step(s, a).value; s'.g.initialized && NoClaimOf(s', t) && s'.g.mainThread != Some(t)
  {
  }

  /** Once `initilized` is set and no claim is under way, `sMainThread` never changes again. */
  lemma SettledIsPermanent(s: State, a: Action)
    requires NobodyClaims(s) && s.g.initialized && Step(s, a).Some?
    ensures var s' := Step(s, a).value; NobodyClaims(s') && s'.g.initialized && s'.g.mainThread == s.g.mainThread
  {
  }

  // ---------------------------------------------------------------- when the result is safe

  /** On the way to, or on, the route that runs the callback on the issuing thread. */
  predicate DirectOnly(pc: IssuePc) {
    || Constructing(pc) || pc.ReadMode? || pc.RunDirect? || pc.InDirect? || pc.SignalDirect?
    || (Leaving(pc) && pc.route == Direct)
  }

  /** With the mode off the call is direct; with it on the call waits, as its thread is not, and
      will not become, `sMainThread`. */
  ghost predicate Safe(s: State, id: CallbackId) {
    && id in s.objects
    && if s.g.mode
       then s.g.initialized && NoClaimOf(s, s.objects[id].thread) && s.g.mainThread != Some(s.objects[id].thread)
            && NotSkipping(s.objects[id].pc)
       else DirectOnly(s.objects[id].pc)
  }

  lemma TurnDirectOnly(g: Globals, o: Object, v: Value)
    requires ObjectOk(o) && DirectOnly(o.pc) && !g.mode
    ensures DirectOnly(IssueObject(g, o, v).pc)
  {
  }

  lemma TurnKeepsCaller(g: Globals, o: Object, v: Value)
    requires ObjectOk(o)
    ensures IssueObject(g, o, v).thread == o.thread && IssueObject(g, o, v).hasResult == o.hasResult
  {
  }

  lemma StepKeepsCaller(s: State, a: Action, id: CallbackId)
    requires Inv(s) && id in s.objects && Step(s, a).Some?
    ensures id in Step(s, a).value.objects
    ensures var o, o' := s.objects[id], Step(s, a).value.objects[id];
            && o'.thread == o.thread && o'.hasResult == o.hasResult
            && (o'.pc == o.pc || (a.StepIssue? && a.id == id && o'.pc == IssueObject(s.g, o, a.result).pc))
  {
    assert ObjectOk(s.objects[id]);
    ObjectTurn(s, a, id);
    if a.StepIssue? {
      TurnKeepsCaller(s.g, s.objects[id], a.result);
    }
  }

  lemma ModeStays(s: State, a: Action)
    requires !a.SetMode? && Step(s, a).Some?
    ensures Step(s, a).value.g.mode == s.g.mode
  {
  }

  lemma StepKeepsSafe(s: State, a: Action, id: CallbackId)
    requires Inv(s) && Safe(s, id) && !a.SetMode? && Step(s, a).Some?
    ensures Safe(Step(s, a).value, id)
  {
    StepKeepsCaller(s, a, id);
    ModeStays(s, a);
    if s.g.mode {
      NeverBecomesMain(s, a, s.objects[id].thread);
      StepNotSkipping(s, a, id);
    } else if a.StepIssue? && a.id == id {
      TurnDirectOnly(s.g, s.objects[id], a.result);
    }
  }

  lemma {:induction false} RunKeepsSafe(s: State, run: seq<Action>, id: CallbackId)
    requires Inv(s) && Safe(s, id) && NoSwitch(run) && Exec(s, run).Some?
    ensures Safe(Exec(s, run).value, id)
  {
    if run != [] {
      var front := run[..|run| - 1];
      RunKeepsSafe(s, front, id);
      RunKeepsInv(s, front);
      StepKeepsSafe(Exec(s, front).value, run[|run| - 1], id);
    }
  }

  lemma SafeIsAfter(s: State, id: CallbackId)
    requires Objects(s) && Safe(s, id)
    ensures After(s, id)
  {
    assert ObjectOk(s.objects[id]);
  }

  // ---------------------------------------------------------------- when it is not

  /** How many steps the holder of the list lock still owes. */
  function StepsToUnlock(s: State): nat {
    match s.g.lock
    case Nobody => 0
    case Issuer(k) => if k in s.objects && s.objects[k].pc.Push? then 2 else 1
    case Drainer(d) => if d in s.drains && s.drains[d].pc.Pop? then 2 else 1
  }

  /** Closer to a free lock, with the mode, `sMainThread` and one object as they were. */
  predicate Closer(s: State, s': State, id: CallbackId) {
    && StepsToUnlock(s') < StepsToUnlock(s)
    && s'.g.mode == s.g.mode && s'.g.mainThread == s.g.mainThread
    && id in s.objects && id in s'.objects && s'.objects[id] == s.objects[id]
  }

  lemma IssuerUnlocks(s: State, k: CallbackId, id: CallbackId)
    requires k in s.objects && IssueInside(s.objects[k].pc) && s.g.lock == Issuer(k) && id in s.objects && id != k
    ensures IssueStep(s, k, 0).Some? && Closer(s, IssueStep(s, k, 0).value, id)
  {
  }

  lemma DrainerUnlocks(s: State, d: DrainId, id: CallbackId)
    requires d in s.drains && DrainInside(s.drains[d].pc) && s.g.lock == Drainer(d) && id in s.objects
    requires s.g.pending != [] ==> s.g.pending[0] != id && s.g.pending[0] in s.objects
                                   && s.objects[s.g.pending[0]].cell.Some?
    ensures DrainStep(s, d, 0).Some? && Closer(s, DrainStep(s, d, 0).value, id)
  {
  }

  /** The holder of the lock always has a step that brings it closer to free. */
  lemma HolderGoes(s: State, id: CallbackId) returns (a: Action)
    requires Inv(s) && id in s.objects && s.objects[id].pc.LockList? && !s.g.lock.Nobody?
    ensures !a.SetMode? && Step(s, a).Some? && Closer(s, Step(s, a).value, id)
  {
    if s.g.lock.Issuer? {
      a := StepIssue(s.g.lock.id, 0);
      IssuerUnlocks(s, s.g.lock.id, id);
    } else {
      a := StepDrain(s.g.lock.d, 0);
      if s.g.pending != [] { HeadIsAnother(s, id); }
      DrainerUnlocks(s, s.g.lock.d, id);
    }
  }

  lemma HeadIsAnother(s: State, id: CallbackId)
    requires Objects(s) && Lists(s) && id in s.objects && s.objects[id].pc.LockList? && s.g.pending != []
    ensures s.g.pending[0] != id && s.g.pending[0] in s.objects && s.objects[s.g.pending[0]].cell.Some?
  {
    assert s.g.pending[0] in s.g.pending;
    assert ObjectOk(s.objects[id]) && ObjectOk(s.objects[s.g.pending[0]]);
  }

  lemma {:induction false} LockBecomesFree(s0: State, run: seq<Action>, s: State, id: CallbackId)
    returns (run': seq<Action>, s': State)
    requires Exec(s0, run) == Some(s) && NoSwitch(run) && Inv(s) && id in s.objects && s.objects[id].pc.LockList?
    ensures Exec(s0, run') == Some(s') && NoSwitch(run') && s'.g.lock.Nobody?
    ensures s'.g.mode == s.g.mode && s'.g.mainThread == s.g.mainThread
    ensures id in s'.objects && s'.objects[id] == s.objects[id]
    decreases StepsToUnlock(s)
  {
    run', s' := run, s;
    if !s.g.lock.Nobody? {
      var a := HolderGoes(s, id);
      ExecAppend(s0, run, a);
      StepKeepsInv(s, a);
      run', s' := LockBecomesFree(s0, run + [a], Step(s, a).value, id);
    }
  }

  /** The thread of `o` is `sMainThread`, the mode is on, and the callback has not run. */
  predicate Deceived(g: Globals, o: Object) {
    g.mode && g.mainThread == Some(o.thread) && o.cell.Some? && o.run == NotRun
  }

  predicate Entering(pc: IssuePc) { pc.TestInit? || pc.ReadMode? }

  /** The first issuer of the process makes itself `sMainThread`. */
  lemma FirstIssuerClaims(s: State, id: CallbackId) returns (run: seq<Action>, s': State)
    requires id in s.objects && s.objects[id].pc.TestInit? && s.objects[id].cell.Some? && !s.g.initialized
    ensures Exec(s, run) == Some(s') && NoSwitch(run)
    ensures id in s'.objects && s'.objects[id] == s.objects[id].(pc := ReadMode)
    ensures s'.g.mode == s.g.mode && s'.g.mainThread == Some(s.objects[id].thread)
  {
    run, s' := IssueGoes(s, [], s, id);
    run, s' := IssueGoes(s, run, s', id);
    run, s' := IssueGoes(s, run, s', id);
  }

  /** From its constructor to the lock. */
  lemma EnteringLocks(s: State, id: CallbackId) returns (run: seq<Action>, s': State)
    requires id in s.objects && Entering(s.objects[id].pc)
    requires Deceived(s.g.(mainThread := Some(s.objects[id].thread)), s.objects[id])
    requires (s.objects[id].pc.TestInit? && !s.g.initialized) || s.g.mainThread == Some(s.objects[id].thread)
    ensures Exec(s, run) == Some(s') && NoSwitch(run)
    ensures id in s'.objects && s'.objects[id] == s.objects[id].(pc := LockList) && Deceived(s'.g, s'.objects[id])
  {
    run, s' := [], s;
    if s.objects[id].pc.TestInit? {
      if s.g.initialized {
        run, s' := IssueGoes(s, run, s', id);
      } else {
        run, s' := FirstIssuerClaims(s, id);
      }
    }
    run, s' := IssueGoes(s, run, s', id);
  }

  lemma LockedPushes(s0: State, run: seq<Action>, s: State, id: CallbackId) returns (run': seq<Action>, s': State)
    requires Exec(s0, run) == Some(s) && NoSwitch(run) && s.g.lock.Nobody?
    requires id in s.objects && s.objects[id].pc.LockList? && Deceived(s.g, s.objects[id])
    ensures Exec(s0, run') == Some(s') && NoSwitch(run') && id in s'.objects
    ensures s'.objects[id] == s.objects[id].(pc := CheckMode, place := Listed) && Deceived(s'.g, s'.objects[id])
  {
    run', s' := IssueGoes(s0, run, s, id);
    run', s' := IssueGoes(s0, run', s', id);
    run', s' := IssueGoes(s0, run', s', id);
  }

  /** Push, and be told not to wait. */
  lemma LockedSkips(s0: State, run: seq<Action>, s: State, id: CallbackId) returns (run': seq<Action>, s': State)
    requires Exec(s0, run) == Some(s) && NoSwitch(run) && s.g.lock.Nobody?
    requires id in s.objects && s.objects[id].pc.LockList? && Deceived(s.g, s.objects[id])
    ensures Exec(s0, run') == Some(s') && NoSwitch(run') && id in s'.objects
    ensures s'.objects[id] == s.objects[id].(pc := AfterWait(s.objects[id], Skipped), place := Listed)
  {
    run', s' := LockedPushes(s0, run, s, id);
    run', s' := IssueGoes(s0, run', s', id);
    run', s' := IssueGoes(s0, run', s', id);
  }

  lemma SkipperReturns(s0: State, run: seq<Action>, s: State, id: CallbackId) returns (run': seq<Action>, s': State)
    requires Exec(s0, run) == Some(s) && NoSwitch(run) && id in s.objects && s.objects[id].cell.Some?
    requires s.objects[id].pc == AfterWait(s.objects[id], Skipped)
    ensures Exec(s0, run') == Some(s') && NoSwitch(run')
    ensures id in s'.objects && s'.objects[id].pc.Returned? && s'.objects[id].run == s.objects[id].run
  {
    run', s' := IssueGoes(s0, run, s, id);
    if s.objects[id].hasResult {
      run', s' := IssueGoes(s0, run', s', id);
    }
  }

  lemma MainThreadReturnsEarly(s: State, id: CallbackId) returns (run: seq<Action>, s': State)
    requires Inv(s) && id in s.objects && Entering(s.objects[id].pc) && s.g.mode
    requires (s.objects[id].pc.TestInit? && !s.g.initialized) || s.g.mainThread == Some(s.objects[id].thread)
    ensures Exec(s, run) == Some(s') && NoSwitch(run) && !After(s', id)
  {
    assert ObjectOk(s.objects[id]);
    run, s' := EnteringLocks(s, id);
    RunKeepsInv(s, run);
    run, s' := LockBecomesFree(s, run, s', id);
    run, s' := LockedSkips(s, run, s', id);
    run, s' := SkipperReturns(s, run, s', id);
  }

  /** A claim on the same thread goes first. */
  lemma ClaimGoesFirst(s: State, k: CallbackId, id: CallbackId) returns (run: seq<Action>, s': State)
    requires Inv(s) && id in s.objects && Entering(s.objects[id].pc) && s.g.mode
    requires k in s.objects && s.objects[k].pc.ClaimMain? && s.objects[k].thread == s.objects[id].thread
    ensures Exec(s, run) == Some(s') && NoSwitch(run) && Inv(s') && s'.g.mode
    ensures id in s'.objects && s'.objects[id] == s.objects[id]
    ensures s'.g.mainThread == Some(s.objects[id].thread)
  {
    ExecAppend(s, [], StepIssue(k, 0));
    ClaimMoves(s, k, id);
    run, s' := [] + [StepIssue(k, 0)], IssueStep(s, k, 0).value;
    StepKeepsInv(s, StepIssue(k, 0));
  }

  lemma ClaimMoves(s: State, k: CallbackId, id: CallbackId)
    requires k in s.objects && s.objects[k].pc.ClaimMain? && id in s.objects && id != k
    ensures IssueStep(s, k, 0).Some?
    ensures var s' := IssueStep(s, k, 0).value;
            && s'.g == s.g.(mainThread := Some(s.objects[k].thread))
            && id in s'.objects && s'.objects[id] == s.objects[id]
  {
  }

  lemma ClaimedReturnsEarly(s: State, k: CallbackId, id: CallbackId) returns (run: seq<Action>)
    requires Inv(s) && id in s.objects && Entering(s.objects[id].pc) && s.g.mode
    requires k in s.objects && s.objects[k].pc.ClaimMain? && s.objects[k].thread == s.objects[id].thread
    ensures NoSwitch(run) && Exec(s, run).Some? && !After(Exec(s, run).value, id)
  {
    var first, s1 := ClaimGoesFirst(s, k, id);
    var rest, s2 := MainThreadReturnsEarly(s1, id);
    ExecConcat(s, first, rest);
    run := first + rest;
  }

  /** The calling thread of `id` is not, and cannot become, `sMainThread`. */
  ghost predicate WillWait(s: State, id: CallbackId)
    requires id in s.objects
  {
    s.g.initialized && s.g.mainThread != Some(s.objects[id].thread) && NoClaimOf(s, s.objects[id].thread)
  }

  /** In every reachable state where an `Execute` is at its constructor or at its first statement: if
      the mode is left alone, the call returns after its callback has completed, and with its result
      if it has one, in every continuation if and only if the mode is off, or a main thread has been
      recorded that is not the calling one, and no claim by the calling thread is under way. */
  lemma EntryGuaranteesResultIff(prefix: seq<Action>, id: CallbackId)
    requires Exec(Init(), prefix).Some? && id in Exec(Init(), prefix).value.objects
    requires Entering(Exec(Init(), prefix).value.objects[id].pc)
    ensures var s := Exec(Init(), prefix).value;
            (forall run :: NoSwitch(run) && Exec(s, run).Some? ==> After(Exec(s, run).value, id))
            <==> !s.g.mode || WillWait(s, id)
  {
    RunKeepsInv(Init(), prefix);
    RunKeepsConstructed(prefix);
    EntryIff(Exec(Init(), prefix).value, id);
  }

  lemma SafeEntryIsAfter(s: State, run: seq<Action>, id: CallbackId)
    requires Inv(s) && Safe(s, id) && NoSwitch(run) && Exec(s, run).Some?
    ensures After(Exec(s, run).value, id)
  {
    RunKeepsSafe(s, run, id);
    RunKeepsInv(s, run);
    SafeIsAfter(Exec(s, run).value, id);
  }

  lemma UnsafeEntryReturnsEarly(s: State, id: CallbackId) returns (run: seq<Action>)
    requires Inv(s) && Constructed(s) && id in s.objects && Entering(s.objects[id].pc)
    requires s.g.mode && !WillWait(s, id)
    ensures NoSwitch(run) && Exec(s, run).Some? && !After(Exec(s, run).value, id)
  {
    if s.g.initialized && s.g.mainThread != Some(s.objects[id].thread) {
      var k :| k in s.objects && s.objects[k].pc.ClaimMain? && s.objects[k].thread == s.objects[id].thread;
      run := ClaimedReturnsEarly(s, k, id);
    } else {
      var s': State;
      run, s' := MainThreadReturnsEarly(s, id);
    }
  }

  lemma EntryIff(s: State, id: CallbackId)
    requires Inv(s) && Constructed(s) && id in s.objects && Entering(s.objects[id].pc)
    ensures (forall run :: NoSwitch(run) && Exec(s, run).Some? ==> After(Exec(s, run).value, id))
            <==> !s.g.mode || WillWait(s, id)
  {
    if !s.g.mode || WillWait(s, id) {
      forall run | NoSwitch(run) && Exec(s, run).Some? ensures After(Exec(s, run).value, id) {
        SafeEntryIsAfter(s, run, id);
      }
    } else {
      var run := UnsafeEntryReturnsEarly(s, id);
    }
  }

  // ---------------------------------------------------------------- if the mode may be switched

  /** The callback has come back, and a result read since is its result. */
  predicate Came(o: Object) {
    o.run.Completed? && (o.hasResult && Leaving(o.pc) && !o.pc.ReadResult? ==> o.pc.ret == Some(o.run.result))
  }

  lemma IssueKeepsCame(g: Globals, o: Object, v: Value)
    requires ObjectOk(o) && Came(o)
    ensures (TouchesObject(o.pc) ==> o.cell.Some?) && Came(IssueObject(g, o, v))
  {
  }

  lemma DrainKeepsCame(o: Object, d: DrainId, pc: DrainPc, v: Value)
    requires ObjectOk(o) && Came(o)
    ensures forall o' :: DrainTurn(o, d, pc, v, o') ==> Came(o')
  {
  }

  lemma {:induction false} RunKeepsCame(s: State, run: seq<Action>, id: CallbackId)
    requires Inv(s) && id in s.objects && Came(s.objects[id]) && Exec(s, run).Some?
    ensures id in Exec(s, run).value.objects && Came(Exec(s, run).value.objects[id])
  {
    if run != [] {
      RunKeepsCame(s, run[..|run| - 1], id);
      RunKeepsInv(s, run[..|run| - 1]);
      StepKeepsCame(Exec(s, run[..|run| - 1]).value, run[|run| - 1], id);
    }
  }

  lemma StepKeepsCame(s: State, a: Action, id: CallbackId)
    requires Inv(s) && id in s.objects && Came(s.objects[id]) && Step(s, a).Some?
    ensures id in Step(s, a).value.objects && Came(Step(s, a).value.objects[id])
  {
    var o := s.objects[id];
    assert ObjectOk(o);
    ObjectTurn(s, a, id);
    if a.StepIssue? && a.id == id {
      IssueKeepsCame(s.g, o, a.result);
    } else if a.StepDrain? && a.d in s.drains {
      DrainKeepsCame(o, a.d, s.drains[a.d].pc, a.result);
    }
  }

  /** Switching the mode off lets a call that has pushed go without waiting. */
  lemma SwitchedOffSkips(s: State, id: CallbackId) returns (run: seq<Action>, s': State)
    requires id in s.objects && s.objects[id].cell.Some?
    requires s.objects[id].pc.UnlockList? || s.objects[id].pc.CheckMode?
    ensures Exec(s, run) == Some(s')
    ensures id in s'.objects && s'.objects[id] == s.objects[id].(pc := AfterWait(s.objects[id], Skipped))
  {
    ExecAppend(s, [], SetMode(false));
    run, s' := [] + [SetMode(false)], s.(g := s.g.(mode := false));
    if s.objects[id].pc.UnlockList? {
      run, s' := IssueGoes(s, run, s', id);
    }
    run, s' := IssueGoes(s, run, s', id);
  }

  lemma SwitchedOffReturnsEarly(s: State, id: CallbackId) returns (run: seq<Action>)
    requires Inv(s) && id in s.objects && (s.objects[id].pc.UnlockList? || s.objects[id].pc.CheckMode?)
    requires !s.objects[id].run.Completed?
    ensures Exec(s, run).Some? && !After(Exec(s, run).value, id)
  {
    assert ObjectOk(s.objects[id]);
    var run0, t := SwitchedOffSkips(s, id);
    RunKeepsInv(s, run0);
    assert ObjectOk(t.objects[id]);
    var run1 := SkippedReturnsEarly(t, id);
    ExecConcat(s, run0, run1);
    run := run0 + run1;
  }

  /** If the mode may be switched at any time, nothing but the callback itself is a guarantee: in every
      reachable state where an `Execute` has pushed and `IsMainThread` has not looked at the mode yet,
      every continuation returns after the callback, with its result, if and only if the callback has
      completed already. */
  lemma PushedGuaranteesResultIff(prefix: seq<Action>, id: CallbackId)
    requires Exec(Init(), prefix).Some? && id in Exec(Init(), prefix).value.objects
    requires var pc := Exec(Init(), prefix).value.objects[id].pc; pc.UnlockList? || pc.CheckMode?
    ensures var s := Exec(Init(), prefix).value;
            (forall run :: Exec(s, run).Some? ==> After(Exec(s, run).value, id)) <==> s.objects[id].run.Completed?
  {
    RunKeepsInv(Init(), prefix);
    var s := Exec(Init(), prefix).value;
    if s.objects[id].run.Completed? {
      forall run | Exec(s, run).Some? ensures After(Exec(s, run).value, id) {
        RunKeepsCame(s, run, id);
      }
    } else {
      var run := SwitchedOffReturnsEarly(s, id);
    }
  }
}
