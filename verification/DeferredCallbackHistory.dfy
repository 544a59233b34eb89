/** The state and its logs tied to the actions of the run that led there. */
module DeferredCallbackHistory {
  import opened Common
  import opened DeferredCallback
  import opened DeferredCallbackInvariant
  import opened DeferredCallbackResults
  import opened DeferredCallbackEntry

  // ---------------------------------------------------------------- the logs are what happened

  datatype Event =
    | Pushes(id: CallbackId) | RunsDirectly(id: CallbackId)
    | Pops(d: DrainId, cb: CallbackId) | Starts(d: DrainId, cb: CallbackId) | Deletes(d: DrainId, cb: CallbackId)
    | Nothing

  /** What an enabled action amounts to, from the program point it is taken at. */
  function EventOf(s: State, a: Action): Event {
    if a.StepIssue? && a.id in s.objects then
      if s.objects[a.id].pc.Push? then Pushes(a.id)
      else if s.objects[a.id].pc.RunDirect? then RunsDirectly(a.id)
      else Nothing
    else if a.StepDrain? && a.d in s.drains then
      var pc := s.drains[a.d].pc;
      if pc.Pop? && s.g.pending != [] then Pops(a.d, s.g.pending[0])
      else if pc.Run? then Starts(a.d, pc.cb)
      else if pc.Delete? then Deletes(a.d, pc.cb)
      else Nothing
    else Nothing
  }

  /** The log a run ought to leave. */
  function LogOf(run: seq<Action>): Log {
    if run == [] then Log([], [], [], [], []) else
      var front := run[..|run| - 1];
      var before := Exec(Init(), front);
      if before.None? then LogOf(front) else Entered(LogOf(front), EventOf(before.value, run[|run| - 1]))
  }

  function Entered(l: Log, e: Event): Log {
    match e
    case Pushes(id) => l.(pushed := l.pushed + [id])
    case RunsDirectly(id) => l.(direct := l.direct + [id])
    case Pops(d, cb) => l.(popped := l.popped + [(d, cb)])
    case Starts(d, cb) => l.(started := l.started + [(d, cb)])
    case Deletes(d, cb) => l.(deleted := l.deleted + [(d, cb)])
    case Nothing => l
  }

  lemma IssueEnters(s: State, id: CallbackId, v: Value)
    requires id in s.objects && IssueStep(s, id, v).Some? && !IssueStep(s, id, v).value.fault
    ensures IssueStep(s, id, v).value.log == Entered(s.log, EventOf(s, StepIssue(id, v)))
  {
  }

  lemma DrainEnters(s: State, d: DrainId, v: Value)
    requires d in s.drains && DrainStep(s, d, v).Some? && !DrainStep(s, d, v).value.fault
    ensures DrainStep(s, d, v).value.log == Entered(s.log, EventOf(s, StepDrain(d, v)))
  {
  }

  lemma StepEnters(s: State, a: Action)
    requires Inv(s) && Step(s, a).Some?
    ensures Step(s, a).value.log == Entered(s.log, EventOf(s, a))
  {
    match a
    case StepIssue(id, v) =>
      IssueKeepsObjects(s, id, v);
      IssueEnters(s, id, v);
    case StepDrain(d, v) =>
      DrainKeepsObjects(s, d, v);
      DrainEnters(s, d, v);
    case _ =>
  }

  /** In every run the logs hold exactly the pushes, direct calls, pops, starts and deletions, each in the
      order in which the run took those steps. */
  lemma {:induction false} LogIsHistory(run: seq<Action>)
    requires Exec(Init(), run).Some?
    ensures Exec(Init(), run).value.log == LogOf(run)
  {
    if run != [] {
      LogIsHistory(run[..|run| - 1]);
      RunKeepsInv(Init(), run[..|run| - 1]);
      StepEnters(Exec(Init(), run[..|run| - 1]).value, run[|run| - 1]);
    }
  }

  // ---------------------------------------------------------------- objects are what was constructed

  lemma StepKeepsCallers(s: State, a: Action, id: CallbackId)
    requires Inv(s) && Step(s, a).Some? && id in Step(s, a).value.objects
    ensures var o' := Step(s, a).value.objects[id];
            if id in s.objects then o'.thread == s.objects[id].thread && o'.hasResult == s.objects[id].hasResult
            else a == NewIssue(id, o'.thread, o'.hasResult)
  {
    if id in s.objects {
      StepKeepsCaller(s, a, id);
    }
  }

  /** Every object was constructed in the run, on its thread and with its kind of result. */
  lemma {:induction false} ObjectsWereConstructed(run: seq<Action>, id: CallbackId)
    requires Exec(Init(), run).Some? && id in Exec(Init(), run).value.objects
    ensures var o := Exec(Init(), run).value.objects[id]; NewIssue(id, o.thread, o.hasResult) in run
  {
    if run != [] {
      var front, a := run[..|run| - 1], run[|run| - 1];
      RunKeepsInv(Init(), front);
      StepKeepsCallers(Exec(Init(), front).value, a, id);
      if id in Exec(Init(), front).value.objects {
        ObjectsWereConstructed(front, id);
      }
    }
  }

  // ---------------------------------------------------------------- the mode

  /** The mode is off at start-up and then what it was last switched to. */
  function LastSwitch(run: seq<Action>): bool {
    run != [] && (if run[|run| - 1].SetMode? then run[|run| - 1].on else LastSwitch(run[..|run| - 1]))
  }

  lemma {:induction false} ModeIsLastSwitch(run: seq<Action>)
    requires Exec(Init(), run).Some?
    ensures Exec(Init(), run).value.g.mode == LastSwitch(run)
  {
    if run != [] {
      var front, a := run[..|run| - 1], run[|run| - 1];
      ModeIsLastSwitch(front);
      if !a.SetMode? { ModeStays(Exec(Init(), front).value, a); }
    }
  }

  /** Every call is direct or still undecided, and nothing has been put on the list. */
  ghost predicate NothingDeferred(s: State) {
    !s.g.mode && s.log.pushed == [] && forall id :: id in s.objects ==> DirectOnly(s.objects[id].pc)
  }

  lemma StepPushesNothing(s: State, a: Action)
    requires Step(s, a).Some? && forall id :: id in s.objects ==> DirectOnly(s.objects[id].pc)
    ensures Step(s, a).value.log.pushed == s.log.pushed
  {
  }

  lemma StepDefersNothing(s: State, a: Action)
    requires Inv(s) && NothingDeferred(s) && a != SetMode(true) && Step(s, a).Some?
    ensures NothingDeferred(Step(s, a).value)
  {
    var s' := Step(s, a).value;
    if !a.SetMode? { ModeStays(s, a); }
    StepPushesNothing(s, a);
    forall id | id in s'.objects ensures DirectOnly(s'.objects[id].pc) {
      if id in s.objects { ObjectStaysDirect(s, a, id); }
    }
  }

  lemma ObjectStaysDirect(s: State, a: Action, id: CallbackId)
    requires Inv(s) && id in s.objects && DirectOnly(s.objects[id].pc) && !s.g.mode && Step(s, a).Some?
    ensures id in Step(s, a).value.objects && DirectOnly(Step(s, a).value.objects[id].pc)
  {
    assert ObjectOk(s.objects[id]);
    StepKeepsCaller(s, a, id);
    if a.StepIssue? && a.id == id {
      TurnDirectOnly(s.g, s.objects[id], a.result);
    }
  }

  lemma {:induction false} NothingEverDeferred(run: seq<Action>)
    requires Exec(Init(), run).Some? && SetMode(true) !in run
    ensures NothingDeferred(Exec(Init(), run).value)
  {
    if run != [] {
      var front := run[..|run| - 1];
      NothingEverDeferred(front);
      RunKeepsInv(Init(), front);
      StepDefersNothing(Exec(Init(), front).value, run[|run| - 1]);
    }
  }

  /** As long as the mode is never switched on, which it is not by default, nothing is ever pushed, and
      every `Execute` runs its callback on its own thread and returns what it gave. */
  lemma NothingIsDeferredByDefault(run: seq<Action>, id: CallbackId)
    requires Exec(Init(), run).Some? && SetMode(true) !in run
    ensures Exec(Init(), run).value.log.pushed == []
    ensures id in Exec(Init(), run).value.objects && Exec(Init(), run).value.objects[id].pc.Returned? ==>
              var o := Exec(Init(), run).value.objects[id];
              o.pc.route == Direct && Gave(run, id).Some? && (o.hasResult ==> o.pc.ret == Gave(run, id))
  {
    NothingEverDeferred(run);
    if id in Exec(Init(), run).value.objects && Exec(Init(), run).value.objects[id].pc.Returned? {
      DeferredCallRefinesDirectCall(run, id);
    }
  }
}
