/** What the deferred-callback protocol promises its callers, over every run. */
module DeferredCallbackResults {
  import opened Common
  import opened DeferredCallback
  import opened DeferredCallbackInvariant

  // ---------------------------------------------------------------- memory safety, at most once

  /** In every run, no activation touches a deleted object; no callback is started twice, by
      drainers, by issuers, or by one of each; no object is deleted twice; and an object is
      deleted only when its callback has come back, its `Execute` has returned, and nobody
      holds it. */
  lemma EveryRunIsSafe(run: seq<Action>)
    requires Exec(Init(), run).Some?
    ensures var s := Exec(Init(), run).value;
            && !s.fault
            && Distinct(Ids(s.log.started)) && Distinct(s.log.direct)
            && (forall id :: id in s.log.direct ==> id !in Ids(s.log.started))
            && Distinct(Ids(s.log.deleted))
            && (forall id :: id in Ids(s.log.deleted) ==>
                  && id in s.objects && s.objects[id].pc.Returned? && s.objects[id].run.Completed?
                  && id !in s.g.pending
                  && forall d :: d in s.drains && Holds(s.drains[d].pc) ==> s.drains[d].pc.cb != id)
  {
    RunKeepsInv(Init(), run);
  }

  /** Conservation and order: what was pushed is what was popped, in pop order, then what is pending. */
  lemma PushedIsPoppedThenPending(run: seq<Action>)
    requires Exec(Init(), run).Some?
    ensures var s := Exec(Init(), run).value;
            s.log.pushed == Ids(s.log.popped) + s.g.pending && Distinct(s.log.pushed)
  {
    RunKeepsInv(Init(), run);
  }

  // ---------------------------------------------------------------- the logs are complete

  /** An object beyond its issuer's hands was pushed, and a callback that has begun was started. */
  predicate Recorded(l: Log, id: CallbackId, o: Object) {
    && (o.place != Private ==> id in l.pushed)
    && (o.run != NotRun ==> if o.place == Private then id in l.direct else id in Ids(l.started))
  }

  ghost predicate AllRecorded(s: State) {
    forall id :: id in s.objects ==> Recorded(s.log, id, s.objects[id])
  }

  /** Nothing is ever taken out of a log. */
  predicate Grows(l: Log, l': Log) {
    l.pushed <= l'.pushed && l.direct <= l'.direct && l.started <= l'.started
  }

  lemma StepGrowsLog(s: State, a: Action)
    requires Step(s, a).Some?
    ensures Grows(s.log, Step(s, a).value.log)
  {
  }

  lemma RecordedGrows(l: Log, l': Log, id: CallbackId, o: Object)
    requires Recorded(l, id, o) && Grows(l, l')
    ensures Recorded(l', id, o)
  {
    if id in Ids(l.started) {
      var k :| 0 <= k < |l.started| && Ids(l.started)[k] == id;
      assert Ids(l'.started)[k] == id;
    }
  }

  lemma IssueRecords(g: Globals, l: Log, id: CallbackId, o: Object, v: Value)
    requires ObjectOk(o) && Recorded(l, id, o)
    ensures Recorded(IssueLog(l, id, o.pc), id, IssueObject(g, o, v))
  {
  }

  lemma DrainRecords(l: Log, id: CallbackId, o: Object, d: DrainId, pc: DrainPc, v: Value)
    requires Recorded(l, id, o) && o.cell.Some? && DrainTurn(o, d, pc, v, DrainObject(o, d, pc, v))
    ensures Recorded(DrainLog(l, d, pc, Some(id)), id, DrainObject(o, d, pc, v))
  {
    IdsAppend(l.started, d, id);
  }

  lemma DrainStepRecords(s: State, d: DrainId, v: Value, id: CallbackId)
    requires Inv(s) && d in s.drains && DrainStep(s, d, v).Some? && id in s.objects
    requires Recorded(s.log, id, s.objects[id])
    ensures id in DrainStep(s, d, v).value.objects
    ensures Recorded(DrainStep(s, d, v).value.log, id, DrainStep(s, d, v).value.objects[id])
  {
    var pc := s.drains[d].pc;
    DrainKeepsObjects(s, d, v);
    if Target(s.g, pc) == Some(id) {
      assert pc.Pop? ==> id in s.g.pending;
      DrainRecords(s.log, id, s.objects[id], d, pc, v);
    } else {
      StepGrowsLog(s, StepDrain(d, v));
      RecordedGrows(s.log, DrainStep(s, d, v).value.log, id, s.objects[id]);
    }
  }

  lemma IssueStepRecords(s: State, k: CallbackId, v: Value, id: CallbackId)
    requires Objects(s) && k in s.objects && IssueStep(s, k, v).Some? && id in s.objects
    requires Recorded(s.log, id, s.objects[id])
    ensures id in IssueStep(s, k, v).value.objects
    ensures Recorded(IssueStep(s, k, v).value.log, id, IssueStep(s, k, v).value.objects[id])
  {
    assert ObjectOk(s.objects[k]);
    if k == id {
      IssueRecords(s.g, s.log, id, s.objects[id], v);
    } else {
      StepGrowsLog(s, StepIssue(k, v));
      RecordedGrows(s.log, IssueStep(s, k, v).value.log, id, s.objects[id]);
    }
  }

  lemma NewcomerIsFresh(s: State, a: Action, id: CallbackId)
    requires Step(s, a).Some? && id in Step(s, a).value.objects && id !in s.objects
    ensures Step(s, a).value.objects[id].place == Private && Step(s, a).value.objects[id].run == NotRun
  {
  }

  lemma StepRecords(s: State, a: Action, id: CallbackId)
    requires Inv(s) && AllRecorded(s) && Step(s, a).Some? && id in Step(s, a).value.objects
    ensures Recorded(Step(s, a).value.log, id, Step(s, a).value.objects[id])
  {
    if id in s.objects {
      assert Recorded(s.log, id, s.objects[id]);
      match a
      case StepIssue(k, v) => IssueStepRecords(s, k, v, id);
      case StepDrain(d, v) => DrainStepRecords(s, d, v, id);
      case _ =>
    } else {
      NewcomerIsFresh(s, a, id);
    }
  }

  lemma {:induction false} RunRecords(s: State, run: seq<Action>)
    requires Inv(s) && AllRecorded(s) && Exec(s, run).Some?
    ensures AllRecorded(Exec(s, run).value)
  {
    if run != [] {
      var front, s' := run[..|run| - 1], Exec(s, run).value;
      RunRecords(s, front);
      RunKeepsInv(s, front);
      forall id | id in s'.objects ensures Recorded(s'.log, id, s'.objects[id]) {
        StepRecords(Exec(s, front).value, run[|run| - 1], id);
      }
    }
  }

  lemma StartIsOk()
    ensures Inv(Init()) && AllRecorded(Init())
  {
  }

  lemma ReachableIsOk(run: seq<Action>)
    requires Exec(Init(), run).Some?
    ensures Inv(Exec(Init(), run).value) && AllRecorded(Exec(Init(), run).value)
  {
    StartIsOk();
    RunKeepsInv(Init(), run);
    RunRecords(Init(), run);
  }

  /** An object that took the direct route is never deleted, it leaks; every object that is deleted
      was pushed; and a returned `Execute` did one of the two. */
  predicate LeaksOrServed(l: Log, id: CallbackId, o: Object) {
    && (id in l.direct ==> id !in l.pushed && o.cell.Some?)
    && (id in Ids(l.deleted) ==> id in l.pushed && o.cell.None?)
    && (o.pc.Returned? ==> id in l.direct || id in l.pushed)
  }

  lemma ObjectLeaksOrServed(s: State, id: CallbackId)
    requires Lists(s) && Logs(s) && id in s.objects && ObjectOk(s.objects[id]) && Recorded(s.log, id, s.objects[id])
    ensures LeaksOrServed(s.log, id, s.objects[id])
  {
  }

  lemma DirectObjectsLeak(run: seq<Action>, id: CallbackId)
    requires Exec(Init(), run).Some? && id in Exec(Init(), run).value.objects
    ensures LeaksOrServed(Exec(Init(), run).value.log, id, Exec(Init(), run).value.objects[id])
  {
    ReachableIsOk(run);
    ObjectLeaksOrServed(Exec(Init(), run).value, id);
  }

  // ---------------------------------------------------------------- result delivery

  /** In this step the user's callback for `id` comes back, with the result the action carries. */
  predicate Gives(s: State, a: Action, id: CallbackId) {
    || (a.StepDrain? && a.d in s.drains && s.drains[a.d].pc == InCallback(id))
    || (a.StepIssue? && a.id == id && id in s.objects && s.objects[id].pc.InDirect?)
  }

  /** What the user's callback for `id` has given in a run from start-up, if it has come back. */
  function Gave(run: seq<Action>, id: CallbackId): Option<Value> {
    if run == [] then None else
      var front, a := run[..|run| - 1], run[|run| - 1];
      var before := Exec(Init(), front);
      if before.Some? && Gives(before.value, a, id) then Some(a.result) else Gave(front, id)
  }

  /** The callback comes back once, in that step and in no other. */
  predicate ResultStep(s: State, a: Action, id: CallbackId, o: Object, o': Object) {
    if Gives(s, a, id) then !o.run.Completed? && o'.run == Completed(a.result)
    else (o.run.Completed? ==> o'.run == o.run) && (o'.run.Completed? ==> o.run.Completed?)
  }

  lemma IssueResultStep(g: Globals, o: Object, v: Value)
    requires ObjectOk(o)
    ensures TouchesObject(o.pc) ==> o.cell.Some?
    ensures var o' := IssueObject(g, o, v);
            if o.pc.InDirect? then !o.run.Completed? && o'.run == Completed(v)
            else (o.run.Completed? ==> o'.run == o.run) && (o'.run.Completed? ==> o.run.Completed?)
  {
  }

  lemma DrainResultStep(o: Object, d: DrainId, pc: DrainPc, v: Value)
    requires ObjectOk(o) && o.cell.Some?
    requires (pc.Pop? && o.place == Listed) || (TouchesPopped(pc) && PoppedOk(pc, o))
    ensures var o' := DrainObject(o, d, pc, v);
            if pc.InCallback? then !o.run.Completed? && o'.run == Completed(v)
            else (o.run.Completed? ==> o'.run == o.run) && (o'.run.Completed? ==> o.run.Completed?)
  {
  }

  lemma StepGivesResult(s: State, a: Action, id: CallbackId)
    requires Inv(s) && id in s.objects && Step(s, a).Some?
    ensures id in Step(s, a).value.objects && ResultStep(s, a, id, s.objects[id], Step(s, a).value.objects[id])
  {
    var o := s.objects[id];
    assert ObjectOk(o);
    match a
    case StepIssue(k, v) => if k == id { IssueResultStep(s.g, o, v); }
    case StepDrain(d, v) =>
      var pc := s.drains[d].pc;
      DrainKeepsObjects(s, d, v);
      if Target(s.g, pc) == Some(id) {
        assert pc.Pop? ==> id in s.g.pending;
        DrainResultStep(o, d, pc, v);
      }
    case _ =>
  }

  /** Nobody is inside the callback of an object that does not exist. */
  lemma NobodyGivesUnborn(s: State, a: Action, id: CallbackId)
    requires Objects(s) && id !in s.objects
    ensures !Gives(s, a, id)
  {
  }

  /** The history of an object agrees with the run: its callback has completed if and only if it has come
      back in the run, and with what it gave there. */
  lemma {:induction false} ResultIsWhatWasGiven(run: seq<Action>, id: CallbackId)
    requires Exec(Init(), run).Some?
    ensures var s := Exec(Init(), run).value;
            if id in s.objects
            then if s.objects[id].run.Completed? then Gave(run, id) == Some(s.objects[id].run.result)
                 else Gave(run, id) == None
            else Gave(run, id) == None
  {
    if run != [] {
      var front, a := run[..|run| - 1], run[|run| - 1];
      var s := Exec(Init(), front).value;
      ResultIsWhatWasGiven(front, id);
      RunKeepsInv(Init(), front);
      if id in s.objects {
        StepGivesResult(s, a, id);
      } else {
        NobodyGivesUnborn(s, a, id);
        if id in Step(s, a).value.objects { NewcomerIsFresh(s, a, id); }
      }
    }
  }

  /** An `Execute` that waited, or ran the callback itself, returns after the callback has
      come back and with exactly what it gave: a deferred call refines the direct call. */
  lemma DeferredCallRefinesDirectCall(run: seq<Action>, id: CallbackId)
    requires Exec(Init(), run).Some? && id in Exec(Init(), run).value.objects
    requires var pc := Exec(Init(), run).value.objects[id].pc; pc.Returned? && pc.route != Skipped
    ensures var o := Exec(Init(), run).value.objects[id];
            && o.run.Completed? && Gave(run, id) == Some(o.run.result)
            && (o.hasResult ==> o.pc.ret == Gave(run, id))
  {
    RunKeepsInv(Init(), run);
    ResultIsWhatWasGiven(run, id);
    assert ObjectOk(Exec(Init(), run).value.objects[id]);
  }

  lemma {:induction false} CompletedStays(s: State, run: seq<Action>, id: CallbackId)
    requires Inv(s) && id in s.objects && s.objects[id].run.Completed? && Exec(s, run).Some?
    ensures id in Exec(s, run).value.objects && Exec(s, run).value.objects[id].run == s.objects[id].run
  {
    if run != [] {
      var front := run[..|run| - 1];
      CompletedStays(s, front, id);
      RunKeepsInv(s, front);
      StepGivesResult(Exec(s, front).value, run[|run| - 1], id);
    }
  }

  /** From any such state: what the callback gives in the step `a`, deferred or direct, is what an
      `Execute` that was not told to skip its wait returns, however the run goes on. */
  lemma GivenIsReturned(s: State, a: Action, run: seq<Action>, id: CallbackId)
    requires Inv(s) && id in s.objects && Gives(s, a, id) && Step(s, a).Some? && Exec(Step(s, a).value, run).Some?
    ensures id in Exec(Step(s, a).value, run).value.objects
    ensures var o := Exec(Step(s, a).value, run).value.objects[id];
            o.hasResult && o.pc.Returned? && o.pc.route != Skipped ==> o.pc.ret == Some(a.result)
  {
    StepGivesResult(s, a, id);
    StepKeepsInv(s, a);
    CompletedStays(Step(s, a).value, run, id);
    RunKeepsInv(Step(s, a).value, run);
    assert ObjectOk(Exec(Step(s, a).value, run).value.objects[id]);
  }

  lemma UnfinishedCallbackHasItsFrame(s: State, d: DrainId)
    requires Objects(s) && d in s.drains
    requires s.drains[d].pc.UnlockPopped? || s.drains[d].pc.Run? || s.drains[d].pc.InCallback?
    ensures var cb := s.drains[d].pc.cb;
            cb in s.objects && (s.objects[cb].pc.Returned? ==> s.objects[cb].pc.route == Skipped)
  {
    assert Holds(s.drains[d].pc);
    assert ObjectOk(s.objects[s.drains[d].pc.cb]);
  }

  /** A callback never runs on the arguments of an `Execute` that has returned, unless that
      `Execute` was told not to wait. */
  lemma ArgumentsOutliveCallback(run: seq<Action>, d: DrainId)
    requires Exec(Init(), run).Some? && d in Exec(Init(), run).value.drains
    requires var pc := Exec(Init(), run).value.drains[d].pc; pc.UnlockPopped? || pc.Run? || pc.InCallback?
    ensures var s := Exec(Init(), run).value; var cb := s.drains[d].pc.cb;
            cb in s.objects && (s.objects[cb].pc.Returned? ==> s.objects[cb].pc.route == Skipped)
  {
    RunKeepsInv(Init(), run);
    UnfinishedCallbackHasItsFrame(Exec(Init(), run).value, d);
  }

  /** Whenever `Execute` looks, the mode is on and its thread is not `sMainThread`. */
  predicate SteadyFor(s: State, id: CallbackId) {
    id in s.objects ==>
      var o := s.objects[id];
      && (o.pc.ReadMode? || o.pc.CheckMode? ==> s.g.mode)
      && (o.pc.CheckThread? ==> s.g.mainThread != Some(o.thread))
  }

  ghost predicate SteadyRun(run: seq<Action>, id: CallbackId) {
    forall n :: 0 <= n <= |run| && Exec(Init(), run[..n]).Some? ==> SteadyFor(Exec(Init(), run[..n]).value, id)
  }

  predicate NotSkipping(pc: IssuePc) {
    !pc.RunDirect? && !pc.InDirect? && !pc.SignalDirect? && (Leaving(pc) ==> pc.route == Waited)
  }

  lemma StepNotSkipping(s: State, a: Action, id: CallbackId)
    requires Inv(s) && id in s.objects && NotSkipping(s.objects[id].pc) && SteadyFor(s, id) && Step(s, a).Some?
    ensures id in Step(s, a).value.objects && NotSkipping(Step(s, a).value.objects[id].pc)
  {
    ObjectTurn(s, a, id);
    if a.StepIssue? && a.id == id {
      TurnNotSkipping(s.g, s.objects[id], a.result);
    }
  }

  lemma TurnNotSkipping(g: Globals, o: Object, v: Value)
    requires NotSkipping(o.pc) && ObjectOk(o)
    requires (o.pc.ReadMode? || o.pc.CheckMode? ==> g.mode) && (o.pc.CheckThread? ==> g.mainThread != Some(o.thread))
    ensures NotSkipping(IssueObject(g, o, v).pc)
  {
  }

  lemma {:induction false} SteadyRunNeverSkips(run: seq<Action>, id: CallbackId)
    requires Exec(Init(), run).Some? && SteadyRun(run, id) && id in Exec(Init(), run).value.objects
    ensures NotSkipping(Exec(Init(), run).value.objects[id].pc)
  {
    if run != [] {
      var front := run[..|run| - 1];
      assert forall n :: 0 <= n <= |front| ==> front[..n] == run[..n];
      var s := Exec(Init(), front).value;
      if id in s.objects {
        SteadyRunNeverSkips(front, id);
        RunKeepsInv(Init(), front);
        StepNotSkipping(s, run[|run| - 1], id);
      }
    }
  }

  /** While the mode stays on and the issuing thread is not `sMainThread`, `Execute` returns
      only after its callback has come back, with exactly what it gave. */
  lemma SteadyExecuteReturnsResult(run: seq<Action>, id: CallbackId)
    requires Exec(Init(), run).Some? && SteadyRun(run, id)
    requires id in Exec(Init(), run).value.objects && Exec(Init(), run).value.objects[id].pc.Returned?
    ensures var o := Exec(Init(), run).value.objects[id];
            o.pc.route == Waited && Gave(run, id).Some? && (o.hasResult ==> o.pc.ret == Gave(run, id))
  {
    SteadyRunNeverSkips(run, id);
    DeferredCallRefinesDirectCall(run, id);
  }

  // ---------------------------------------------------------------- exactly when the result is guaranteed

  /** If `Execute` on `id` has returned, then after its callback completed, so that its arguments
      outlived the callback, and with its result if it has one. */
  predicate After(s: State, id: CallbackId) {
    id in s.objects && s.objects[id].pc.Returned? ==>
      var o := s.objects[id];
      o.run.Completed? && (o.hasResult ==> o.pc.ret == Some(o.run.result))
  }

  /** `IsMainThread` has answered and the result, if there is one, is not read yet. */
  predicate Answered(o: Object) {
    o.pc.Spin? || o.pc.ReadResult? || (!o.hasResult && o.pc.SetFinished?)
  }

  /** The wait has been decided on and it will be, or was, effective. */
  predicate Secured(o: Object) {
    && (o.pc.Spin? || Leaving(o.pc))
    && (Leaving(o.pc) && o.pc.route == Skipped ==> o.run.Completed?)
    && (Leaving(o.pc) && !o.pc.ReadResult? ==>
          o.run.Completed? && (o.hasResult ==> o.pc.ret == Some(o.run.result)))
  }

  lemma StepKeepsSecured(s: State, a: Action, id: CallbackId)
    requires Inv(s) && id in s.objects && Secured(s.objects[id]) && Step(s, a).Some?
    ensures id in Step(s, a).value.objects && Secured(Step(s, a).value.objects[id])
  {
    var o := s.objects[id];
    assert ObjectOk(o);
    ObjectTurn(s, a, id);
    if a.StepIssue? && a.id == id {
      IssueKeepsSecured(s.g, o, a.result);
    } else if a.StepDrain? && a.d in s.drains {
      DrainKeepsSecured(o, a.d, s.drains[a.d].pc, a.result);
    }
  }

  lemma IssueKeepsSecured(g: Globals, o: Object, v: Value)
    requires ObjectOk(o) && Secured(o)
    ensures (TouchesObject(o.pc) ==> o.cell.Some?) && Secured(IssueObject(g, o, v))
  {
  }

  lemma DrainKeepsSecured(o: Object, d: DrainId, pc: DrainPc, v: Value)
    requires ObjectOk(o) && Secured(o)
    ensures forall o' :: DrainTurn(o, d, pc, v, o') ==> Secured(o')
  {
  }

  lemma {:induction false} RunKeepsSecured(s: State, run: seq<Action>, id: CallbackId)
    requires Inv(s) && id in s.objects && Secured(s.objects[id]) && Exec(s, run).Some?
    ensures After(Exec(s, run).value, id)
    ensures id in Exec(s, run).value.objects && Secured(Exec(s, run).value.objects[id])
  {
    if run != [] {
      var front := run[..|run| - 1];
      RunKeepsSecured(s, front, id);
      RunKeepsInv(s, front);
      StepKeepsSecured(Exec(s, front).value, run[|run| - 1], id);
    }
  }

  lemma ExecAppend(s: State, run: seq<Action>, a: Action)
    requires Exec(s, run).Some?
    ensures Exec(s, run + [a]) == Step(Exec(s, run).value, a)
  {
    assert (run + [a])[..|run|] == run;
  }

  lemma {:induction false} ExecConcat(s: State, a: seq<Action>, b: seq<Action>)
    requires Exec(s, a).Some?
    ensures Exec(s, a + b) == Exec(Exec(s, a).value, b)
  {
    if b == [] {
      assert a + b == a;
    } else {
      assert (a + b)[..|a + b| - 1] == a + b[..|b| - 1];
      ExecConcat(s, a, b[..|b| - 1]);
    }
  }

  /** An `Execute` told not to wait can return before its callback has completed, and with an
      uninitialised result if it has one. */
  lemma SkippedReturnsEarly(s: State, id: CallbackId) returns (run: seq<Action>)
    requires id in s.objects && ObjectOk(s.objects[id]) && Answered(s.objects[id]) && !s.objects[id].pc.Spin?
    requires s.objects[id].pc.route == Skipped && !s.objects[id].run.Completed?
    ensures Exec(s, run).Some? && id in Exec(s, run).value.objects && NoSwitch(run)
    ensures var o := Exec(s, run).value.objects[id];
            && o.pc.Returned? && o.pc.route == Skipped && (o.hasResult ==> o.pc.ret == None)
            && o.run == s.objects[id].run && o.hasResult == s.objects[id].hasResult
  {
    var t: State;
    assert s.objects[id].cell.Some? && s.objects[id].cell.value.retVal == None;
    run, t := IssueGoes(s, [], s, id);
    if s.objects[id].pc.ReadResult? {
      run, t := IssueGoes(s, run, t, id);
    }
  }

  /** The mode switch is not thrown. */
  predicate NoSwitch(run: seq<Action>) {
    forall k :: 0 <= k < |run| ==> !run[k].SetMode?
  }

  /** How many calls of `TriggerCallbacks` begin during a run. */
  function NewDrains(run: seq<Action>): nat {
    if run == [] then 0 else NewDrains(run[..|run| - 1]) + if run[|run| - 1].NewDrain? then 1 else 0
  }

  lemma NewDrainsAppend(run: seq<Action>, a: Action)
    ensures NewDrains(run + [a]) == NewDrains(run) + if a.NewDrain? then 1 else 0
  {
    assert (run + [a])[..|run|] == run;
  }

  lemma {:induction false} NewDrainsConcat(a: seq<Action>, b: seq<Action>)
    ensures NewDrains(a + b) == NewDrains(a) + NewDrains(b)
  {
    if b == [] {
      assert a + b == a;
    } else {
      assert (a + b)[..|a + b| - 1] == a + b[..|b| - 1];
      NewDrainsConcat(a, b[..|b| - 1]);
    }
  }

  /** A step of `Execute` on a live object, for what it does to that object and to the globals. */
  lemma IssueGoes(s0: State, run: seq<Action>, s: State, id: CallbackId) returns (run': seq<Action>, s': State)
    requires Exec(s0, run) == Some(s) && id in s.objects && s.objects[id].cell.Some?
    requires !s.objects[id].pc.Returned? && (s.objects[id].pc.LockList? ==> s.g.lock.Nobody?)
    ensures Exec(s0, run') == Some(s') && (NoSwitch(run) ==> NoSwitch(run')) && NewDrains(run') == NewDrains(run)
    ensures id in s'.objects && s'.objects[id] == IssueObject(s.g, s.objects[id], 0)
    ensures s'.g == IssueGlobals(s.g, id, s.objects[id]) && s'.drains == s.drains
  {
    ExecAppend(s0, run, StepIssue(id, 0));
    NewDrainsAppend(run, StepIssue(id, 0));
    run', s' := run + [StepIssue(id, 0)], IssueStep(s, id, 0).value;
  }

  /** In every reachable state where `IsMainThread` has answered and the result is not read yet:
      every continuation returns after the callback, with its result, if and only if the answer was
      to wait, or the callback has completed already. */
  lemma ResultGuaranteedIff(prefix: seq<Action>, id: CallbackId)
    requires Exec(Init(), prefix).Some? && id in Exec(Init(), prefix).value.objects
    requires Answered(Exec(Init(), prefix).value.objects[id])
    ensures var s := Exec(Init(), prefix).value; var o := s.objects[id];
            (forall run :: Exec(s, run).Some? ==> After(Exec(s, run).value, id))
            <==> (o.pc.Spin? || o.pc.route != Skipped || o.run.Completed?)
  {
    RunKeepsInv(Init(), prefix);
    var s := Exec(Init(), prefix).value;
    var o := s.objects[id];
    assert ObjectOk(o);
    if o.pc.Spin? || o.pc.route != Skipped || o.run.Completed? {
      forall run | Exec(s, run).Some? ensures After(Exec(s, run).value, id) {
        RunKeepsSecured(s, run, id);
      }
    } else {
      var run := SkippedReturnsEarly(s, id);
      assert !After(Exec(s, run).value, id);
    }
  }

  /** A process with one object and no drainer. */
  function Alone(g: Globals, o: Object, l: Log): State {
    State(g, map[0 := o], map[], l, false)
  }

  lemma AloneSteps(run: seq<Action>, g: Globals, o: Object, l: Log)
    requires Exec(Init(), run) == Some(Alone(g, o, l))
    requires !o.pc.Returned? && (o.pc.LockList? ==> g.lock.Nobody?) && (TouchesObject(o.pc) ==> o.cell.Some?)
    ensures Exec(Init(), run + [StepIssue(0, 0)])
            == Some(Alone(IssueGlobals(g, 0, o), IssueObject(g, o, 0), IssueLog(l, 0, o.pc)))
  {
    ExecAppend(Init(), run, StepIssue(0, 0));
    assert map[0 := o][0 := IssueObject(g, o, 0)] == map[0 := IssueObject(g, o, 0)];
  }

  predicate ModeOnThroughout(run: seq<Action>) {
    run != [] && run[0] == SetMode(true) && forall k :: 0 < k < |run| ==> !run[k].SetMode?
  }

  /** `Execute` on object 0 has returned to `thread`, uninitialised if it has a result; its callback
      has not run. */
  predicate LeftBehind(s: State, thread: ThreadId, hasResult: bool) {
    && 0 in s.objects && s.objects[0].thread == thread && s.objects[0].hasResult == hasResult
    && s.objects[0].cell.Some? && s.objects[0].pc == Returned(Skipped, None) && s.objects[0].run == NotRun
    && s.g.pending == [0] && s.g.lock.Nobody? && s.drains == map[]
  }

  /** The premise on the thread is needed: the thread that constructs the first deferred
      callback of the process becomes `sMainThread`, so with the mode on throughout, its
      `Execute` returns while its callback is still on the list. */
  lemma FirstIssuerDoesNotWait(thread: ThreadId, hasResult: bool) returns (run: seq<Action>)
    ensures ModeOnThroughout(run) && Exec(Init(), run).Some?
    ensures LeftBehind(Exec(Init(), run).value, thread, hasResult)
  {
    run := [] + [SetMode(true)];
    ExecAppend(Init(), [], SetMode(true));
    ExecAppend(Init(), run, NewIssue(0, thread, hasResult));
    run := run + [NewIssue(0, thread, hasResult)];
    var g, o, l := Globals(true, false, None, Nobody, []), NewObject(thread, hasResult), Init().log;
    assert Exec(Init(), run) == Some(Alone(g, o, l));
    var n := 0;
    while !o.pc.Returned?
      invariant 0 <= n <= 11
      invariant ModeOnThroughout(run)
      invariant Exec(Init(), run) == Some(Alone(g, o, l))
      invariant OnTheWay(n, thread, hasResult, g, o)
      decreases 11 - n
    {
      AloneSteps(run, g, o, l);
      StageMoves(n, thread, hasResult, g, o);
      run := run + [StepIssue(0, 0)];
      n := NextStage(n, hasResult);
      g, o, l := IssueGlobals(g, 0, o), IssueObject(g, o, 0), IssueLog(l, 0, o.pc);
    }
  }

  /** The program point of the first issuer at stage `n`. */
  function Stage(n: int): IssuePc
    requires 0 <= n <= 11
  {
    [TestInit, ClaimMain, MarkInit, ReadMode, LockList, Push, UnlockList, CheckMode, CheckThread,
     ReadResult(Skipped), SetFinished(Skipped, None), Returned(Skipped, None)][n]
  }

  /** Where the first issuer is at stage `n`; the void templates skip the read of the result. */
  predicate OnTheWay(n: int, thread: ThreadId, hasResult: bool, g: Globals, o: Object) {
    && 0 <= n <= 11 && o.pc == Stage(n) && (n == 9 ==> hasResult)
    && o.thread == thread && o.hasResult == hasResult && o.run == NotRun
    && o.cell.Some? && o.cell.value.retVal == None && g.mode
    && g.pending == (if n < 6 then [] else [0])
    && g.lock == (if 5 <= n < 7 then Issuer(0) else Nobody)
    && (g.initialized <==> n >= 3) && (n >= 2 ==> g.mainThread == Some(thread))
  }

  function NextStage(n: int, hasResult: bool): int { if n == 8 && !hasResult then 10 else n + 1 }

  lemma StageMoves(n: int, thread: ThreadId, hasResult: bool, g: Globals, o: Object)
    requires OnTheWay(n, thread, hasResult, g, o) && n < 11
    ensures OnTheWay(NextStage(n, hasResult), thread, hasResult, IssueGlobals(g, 0, o), IssueObject(g, o, 0))
  {
  }
}
