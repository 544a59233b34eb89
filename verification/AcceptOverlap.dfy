/** Two overlapping requests on the one-place slot of `AcceptSessionJoiner`: what goes wrong, and
    exactly when a second request is harmless. */
module AcceptOverlap {
  import opened Common
  import opened AcceptRendezvous

  /** How many requests arrive during a run. */
  function News(run: seq<Action>): nat {
    if run == [] then 0 else News(run[..|run| - 1]) + if run[|run| - 1].NewRequest? then 1 else 0
  }

  // ---------------------------------------------------------------- what goes wrong

  lemma Append(s0: State, run: seq<Action>, s: State, a: Action)
    requires Exec(s0, run) == Some(s)
    ensures Exec(s0, run + [a]) == Step(s, a)
    ensures News(run + [a]) == News(run) + if a.NewRequest? then 1 else 0
  {
    assert (run + [a])[..|run|] == run;
  }

  lemma {:induction false} ExecConcat(s: State, a: seq<Action>, b: seq<Action>)
    requires Exec(s, a).Some?
    ensures Exec(s, a + b) == Exec(Exec(s, a).value, b) && News(a + b) == News(a) + News(b)
  {
    if b == [] {
      assert a + b == a;
    } else {
      assert (a + b)[..|a + b| - 1] == a + b[..|b| - 1];
      ExecConcat(s, a, b[..|b| - 1]);
    }
  }

  /** Steps of one request, as long as it is not blocked. */
  lemma RequestGoes(s0: State, run: seq<Action>, s: State, k: nat) returns (run': seq<Action>, s': State)
    requires Exec(s0, run) == Some(s) && k < |s.requests|
    requires !RequestBlocked(s.requests[k], s.slot) && (s.requests[k].pc.ReadRval? ==> s.slot.rval.Some?)
    ensures Exec(s0, run') == Some(s') && News(run') == News(run)
    ensures s' == s.(requests := s.requests[k := s.requests[k].(pc := RequestNext(s.requests[k], s.slot))],
                     slot := RequestSlot(k, s.requests[k], s.slot))
  {
    Append(s0, run, s, StepRequest(k));
    run' := run + [StepRequest(k)];
    s' := RequestStep(s, k).value;
  }

  lemma LoopGoes(s0: State, run: seq<Action>, s: State, b: bool) returns (run': seq<Action>, s': State)
    requires Exec(s0, run) == Some(s) && !LoopBlocked(s.loop, s.slot) && !s.loop.Signal? && s.slot.dataSet
    ensures Exec(s0, run') == Some(s') && News(run') == News(run)
    ensures s' == s.(slot := LoopSlot(s.loop, s.slot), loop := LoopNext(s.loop, b),
                     calls := if s.loop.CallJs? then s.calls + [JsCall(s.slot.port, s.slot.joiner, b)] else s.calls)
  {
    Append(s0, run, s, StepLoop(b, 0));
    run' := run + [StepLoop(b, 0)];
    s' := LoopStep(s, b, 0).value;
  }

  /** A new request overwrites the slot, whatever it holds, and goes to sleep. */
  lemma SecondOverwrites(s: State, port: nat, joiner: string) returns (run: seq<Action>, s': State)
    requires s.slot.lock.Nobody?
    ensures Exec(s, run) == Some(s') && News(run) == 1
    ensures s' == s.(requests := s.requests + [Request(port, joiner, Asleep)],
                     slot := s.slot.(dataSet := true, sent := true, joiner := joiner, port := port, complete := false))
  {
    run := [] + [NewRequest(port, joiner)];
    Append(s, [], s, NewRequest(port, joiner));
    s' := s.(requests := s.requests + [Request(port, joiner, SetData)]);
    run, s' := LatestGoes(s, run, s', s.requests, port, joiner, LockSlot);
    run, s' := LatestGoes(s, run, s', s.requests, port, joiner, Fill);
    assert s'.slot == s.slot.(dataSet := true, lock := ByRequest(|s.requests|));
    run, s' := FillsAndSleeps(s, run, s', s.requests, port, joiner);
  }

  lemma FillsAndSleeps(s0: State, run: seq<Action>, s: State, others: seq<Request>, port: nat, joiner: string)
    returns (run': seq<Action>, s': State)
    requires Exec(s0, run) == Some(s) && s.requests == others + [Request(port, joiner, Fill)]
    ensures Exec(s0, run') == Some(s') && News(run') == News(run)
    ensures s' == s.(requests := others + [Request(port, joiner, Asleep)],
                     slot := s.slot.(lock := Nobody, sent := true, joiner := joiner, port := port, complete := false))
  {
    run', s' := LatestGoes(s0, run, s, others, port, joiner, Send);
    run', s' := LatestGoes(s0, run', s', others, port, joiner, Test);
    run', s' := LatestGoes(s0, run', s', others, port, joiner, Asleep);
  }

  /** A step of the newest request; the others stand still. */
  lemma LatestGoes(s0: State, run: seq<Action>, s: State, others: seq<Request>, port: nat, joiner: string,
                   pc: RequestPc)
    returns (run': seq<Action>, s': State)
    requires Exec(s0, run) == Some(s) && |s.requests| == |others| + 1
    requires var r := Request(port, joiner, s.requests[|others|].pc);
             s.requests == others + [r] && !RequestBlocked(r, s.slot) && !r.pc.ReadRval? && RequestNext(r, s.slot) == pc
    ensures Exec(s0, run') == Some(s') && News(run') == News(run)
    ensures s' == s.(requests := others + [Request(port, joiner, pc)],
                     slot := RequestSlot(|others|, Request(port, joiner, s.requests[|others|].pc), s.slot))
  {
    run', s' := RequestGoes(s0, run, s, |others|);
    assert s'.requests == others + [Request(port, joiner, pc)];
  }

  /** The loop answers whatever is in the slot and wakes request `k`. */
  lemma LoopAnswers(s0: State, run: seq<Action>, s: State, k: nat, b: bool) returns (run': seq<Action>, s': State)
    requires Exec(s0, run) == Some(s) && s.loop.Idle? && s.slot.sent && s.slot.dataSet && s.slot.lock.Nobody?
    requires k < |s.requests| && s.requests[k].pc.Asleep?
    ensures Exec(s0, run') == Some(s') && News(run') == News(run)
    ensures s' == s.(requests := Wake(s.requests, k),
                     slot := s.slot.(sent := false, joiner := "", rval := Some(b), complete := true),
                     calls := s.calls + [JsCall(s.slot.port, s.slot.joiner, b)])
  {
    var t := s;
    run' := run;
    run', t := LoopGoes(s0, run', t, b);
    run', t := LoopGoes(s0, run', t, b);
    run', t := LoopGoes(s0, run', t, b);
    run', t := LoopGoes(s0, run', t, b);
    run', t := LoopGoes(s0, run', t, b);
    assert AnyAsleep(t.requests);
    Append(s0, run', t, StepLoop(b, k));
    run' := run' + [StepLoop(b, k)];
    t := LoopStep(t, b, k).value;
    run', t := LoopGoes(s0, run', t, b);
    s' := t;
  }

  /** From every state where a request sleeps, the loop is idle and the mutex is free, a second request
      can take its place: the first returns the answer JavaScript gave about the second, JavaScript
      is never asked about the first, and the second sleeps with no wake-up left. */
  lemma TwoRequestsGoWrong(s: State, k: nat, port: nat, joiner: string, b: bool) returns (run: seq<Action>, s': State)
    requires k < |s.requests| && s.requests[k].pc.Asleep? && s.slot.lock.Nobody? && s.loop.Idle?
    ensures Exec(s, run) == Some(s') && News(run) == 1
    ensures s'.calls == s.calls + [JsCall(port, joiner, b)]
    ensures s'.requests == s.requests[k := s.requests[k].(pc := Returned(b))] + [Request(port, joiner, Asleep)]
    ensures s'.loop.Idle? && !s'.slot.sent && s'.slot.lock.Nobody?
  {
    var t: State;
    run, t := SecondOverwrites(s, port, joiner);
    run, t := LoopAnswers(s, run, t, k, b);
    run, s' := ReturnsAnswer(s, run, t, k, b);
  }

  /** The run from start-up: two requests, one call of JavaScript about the second, whose answer the
      first returns; the second sleeps, and without a spurious wake-up nothing can move any more. */
  lemma OverlapGoesWrongFromStart(port0: nat, joiner0: string, port1: nat, joiner1: string, b: bool)
    returns (run: seq<Action>)
    ensures Exec(Init(), run).Some? && News(run) == 2
    ensures var s := Exec(Init(), run).value;
            && s.requests == [Request(port0, joiner0, Returned(b)), Request(port1, joiner1, Asleep)]
            && s.calls == [JsCall(port1, joiner1, b)] && Stuck(s)
  {
    var run0, s0 := SecondOverwrites(Init(), port0, joiner0);
    var run1, s1 := TwoRequestsGoWrong(s0, 0, port1, joiner1, b);
    ExecConcat(Init(), run0, run1);
    run := run0 + run1;
    forall a | Ordinary(a) ensures Step(s1, a).None? {
      assert a.StepRequest? && a.k < 2 ==> RequestBlocked(s1.requests[a.k], s1.slot);
    }
  }

  lemma ReturnsAnswer(s0: State, run: seq<Action>, s: State, k: nat, b: bool) returns (run': seq<Action>, s': State)
    requires Exec(s0, run) == Some(s) && k < |s.requests| && s.requests[k].pc.Relock?
    requires s.slot.lock.Nobody? && s.slot.complete && s.slot.rval == Some(b)
    ensures Exec(s0, run') == Some(s') && News(run') == News(run)
    ensures s' == s.(requests := s.requests[k := s.requests[k].(pc := Returned(b))])
  {
    run', s' := RequestGoes(s0, run, s, k);
    run', s' := RequestGoes(s0, run', s', k);
    run', s' := RequestGoes(s0, run', s', k);
    run', s' := RequestGoes(s0, run', s', k);
    assert s'.requests == s.requests[k := s.requests[k].(pc := Returned(b))];
  }

  // ---------------------------------------------------------------- when a second request is harmless

  /** The request has the mutex back after its answer, or has returned. */
  predicate AnswerTaken(r: Request, slot: Slot) {
    (r.pc.Test? && slot.complete) || r.pc.ReadRval? || r.pc.Unlock? || r.pc.Returned?
  }

  predicate Harmless(s: State) {
    s.requests == [] || AnswerTaken(s.requests[|s.requests| - 1], s.slot)
  }

  ghost predicate AllServed(s: State) {
    !s.fault && forall k :: 0 <= k < |s.requests| ==> Served(s, k)
  }

  /** The last request but one is on its way out with its answer; the last has not got the mutex. */
  predicate Clearing(s: State) {
    && |s.requests| >= 2 && !s.fault
    && var k := |s.requests| - 2; var r := s.requests[k];
       && (forall j :: 0 <= j < k ==> PastOk(s.requests[j], j, s.calls))
       && LatestOk(r, k, s.slot, s.loop, s.calls) && AnswerTaken(r, s.slot) && !r.pc.Returned?
       && (s.requests[k + 1].pc.SetData? || s.requests[k + 1].pc.LockSlot?)
  }

  /** As a run with at most one new request goes on from a harmless state with `n` requests. */
  predicate Calm(s: State, n: nat) {
    if |s.requests| == n then Inv(s) && OneOutstanding(s) && Harmless(s)
    else |s.requests| == n + 1 && ((Inv(s) && OneOutstanding(s)) || Clearing(s))
  }

  lemma TakenStaysTaken(r: Request, k: nat, slot: Slot, l: Loop, calls: seq<JsCall>)
    requires LatestOk(r, k, slot, l, calls) && AnswerTaken(r, slot)
    ensures l.Idle? && LoopBlocked(l, slot) && !r.pc.Asleep?
    ensures !RequestBlocked(r, slot) && (r.pc.ReadRval? ==> slot.rval.Some?) ==>
              AnswerTaken(r.(pc := RequestNext(r, slot)), RequestSlot(k, r, slot))
  {
  }

  lemma OneStaysOutstanding(s: State, a: Action)
    requires Inv(s) && OneOutstanding(s) && !a.NewRequest? && Step(s, a).Some?
    ensures Inv(Step(s, a).value) && OneOutstanding(Step(s, a).value)
    ensures |Step(s, a).value.requests| == |s.requests|
  {
    if a.Spurious? {
      assert a.k == |s.requests| - 1;
    } else {
      OrdinaryStepDecreases(s, a);
    }
    StepKeepsInv(s, a);
  }

  lemma HarmlessStaysHarmless(s: State, a: Action)
    requires Inv(s) && OneOutstanding(s) && Harmless(s) && !a.NewRequest? && Step(s, a).Some?
    ensures Harmless(Step(s, a).value)
  {
    if s.requests != [] {
      var last := |s.requests| - 1;
      TakenStaysTaken(s.requests[last], last, s.slot, s.loop, s.calls);
      if a.StepRequest? {
        assert a.k == last;
      }
    }
  }

  lemma NewcomerClears(s: State, port: nat, joiner: string)
    requires Inv(s) && OneOutstanding(s) && Harmless(s)
    ensures var s' := Step(s, NewRequest(port, joiner)).value; (Inv(s') && OneOutstanding(s')) || Clearing(s')
  {
    var s' := Step(s, NewRequest(port, joiner)).value;
    if s.requests == [] || s.requests[|s.requests| - 1].pc.Returned? {
      StepKeepsInv(s, NewRequest(port, joiner));
    } else {
      assert forall j :: 0 <= j < |s.requests| ==> s'.requests[j] == s.requests[j];
    }
  }

  /** When the earlier request leaves, the later one is the only one outstanding. */
  lemma ClearingStep(s: State, a: Action)
    requires Clearing(s) && !a.NewRequest? && Step(s, a).Some?
    ensures var s' := Step(s, a).value;
            |s'.requests| == |s.requests| && ((Inv(s') && OneOutstanding(s')) || Clearing(s'))
  {
    var k, s' := |s.requests| - 2, Step(s, a).value;
    var r := s.requests[k];
    TakenStaysTaken(r, k, s.slot, s.loop, s.calls);
    assert a.StepRequest? && (a.k == k || a.k == k + 1);
    assert forall j :: 0 <= j < k ==> s'.requests[j] == s.requests[j];
    if a.k == k {
      RequestTurn(r, k, s.slot, s.loop, s.calls);
    }
  }

  lemma CalmStep(s: State, a: Action, n: nat)
    requires Calm(s, n) && Step(s, a).Some? && (a.NewRequest? ==> |s.requests| == n)
    ensures Calm(Step(s, a).value, n)
    ensures |Step(s, a).value.requests| == |s.requests| + if a.NewRequest? then 1 else 0
  {
    if a.NewRequest? {
      NewcomerClears(s, a.port, a.joiner);
    } else if |s.requests| == n + 1 && Clearing(s) {
      ClearingStep(s, a);
    } else {
      OneStaysOutstanding(s, a);
      if |s.requests| == n { HarmlessStaysHarmless(s, a); }
    }
  }

  lemma {:induction false} CalmRun(s: State, run: seq<Action>)
    requires Calm(s, |s.requests|) && News(run) <= 1 && Exec(s, run).Some?
    ensures var s' := Exec(s, run).value; Calm(s', |s.requests|) && |s'.requests| == |s.requests| + News(run)
  {
    if run != [] {
      CalmRun(s, run[..|run| - 1]);
      CalmStep(Exec(s, run[..|run| - 1]).value, run[|run| - 1], |s.requests|);
    }
  }

  lemma ClearingServed(s: State)
    requires Clearing(s)
    ensures AllServed(s)
  {
    forall j | 0 <= j < |s.requests| ensures Served(s, j) {
      if j < |s.requests| - 2 { assert PastOk(s.requests[j], j, s.calls); }
    }
  }

  lemma CalmServed(s: State, n: nat)
    requires Calm(s, n)
    ensures AllServed(s)
  {
    if Inv(s) {
      forall k | 0 <= k < |s.requests| ensures Served(s, k) { RequestServed(s, k); }
    } else {
      ClearingServed(s);
    }
  }

  // ---------------------------------------------------------------- when it is not

  /** The answer is in the slot and the request, awake, has not got the mutex back. */
  predicate Ready(s: State) {
    && s.requests != [] && Inv(s) && OneOutstanding(s) && s.loop.Idle? && s.slot.lock.Nobody? && s.slot.dataSet
    && s.requests[|s.requests| - 1].pc.Relock? && |s.calls| == |s.requests|
  }

  predicate Parked(pc: RequestPc) { pc.Asleep? || pc.Relock? }

  /** Until the answer is in the slot, the request can go to sleep or the loop can go on. */
  lemma SomebodyDrives(r: Request, k: nat, slot: Slot, l: Loop, calls: seq<JsCall>)
    requires LatestOk(r, k, slot, l, calls) && !AnswerTaken(r, slot)
    requires !(r.pc.Relock? && l.Idle? && |calls| == k + 1)
    ensures if Parked(r.pc) then !LoopBlocked(l, slot)
            else !RequestBlocked(r, slot)
                 && !AnswerTaken(r.(pc := RequestNext(r, slot)), RequestSlot(k, r, slot))
  {
  }

  lemma DriverGoes(s: State) returns (a: Action)
    requires Inv(s) && OneOutstanding(s) && !Harmless(s) && !Ready(s)
    ensures Ordinary(a) && Step(s, a).Some? && !Harmless(Step(s, a).value)
  {
    var last := |s.requests| - 1;
    var r := s.requests[last];
    SomebodyDrives(r, last, s.slot, s.loop, s.calls);
    if Parked(r.pc) {
      a := StepLoop(false, last);
      LoopTurn(r, last, s.slot, s.loop, s.calls, false);
      assert s.loop.Signal? ==> MayWake(s.requests, last);
    } else {
      a := StepRequest(last);
    }
  }

  lemma {:induction false} DrivesToReady(s0: State, run: seq<Action>, s: State) returns (run': seq<Action>, s': State)
    requires Exec(s0, run) == Some(s) && Inv(s) && OneOutstanding(s) && !Harmless(s)
    ensures Exec(s0, run') == Some(s') && News(run') == News(run) && Ready(s')
    decreases Measure(s)
  {
    run', s' := run, s;
    if !Ready(s) {
      var a := DriverGoes(s);
      Append(s0, run, s, a);
      OrdinaryStepDecreases(s, a);
      StepKeepsInv(s, a);
      run', s' := DrivesToReady(s0, run + [a], Step(s, a).value);
    }
  }

  /** A second request that gets the mutex first sends the first back to sleep, and the first then
      returns the answer about the second. */
  lemma LateOverlapGoesWrong(s: State, b: bool) returns (run: seq<Action>, s': State)
    requires Ready(s)
    ensures Exec(s, run) == Some(s') && News(run) == 1
    ensures var k := |s.requests| - 1;
            k < |s'.requests| && s'.requests[k].pc == Returned(b) && s.calls <= s'.calls
  {
    var k := |s.requests| - 1;
    var t: State;
    run, t := SecondOverwrites(s, 0, "");
    run, t := RequestGoes(s, run, t, k);
    run, t := RequestGoes(s, run, t, k);
    run, t := LoopAnswers(s, run, t, k, b);
    run, s' := ReturnsAnswer(s, run, t, k, b);
  }

  lemma OverlapHarms(s: State) returns (run: seq<Action>)
    requires Inv(s) && OneOutstanding(s) && !Harmless(s)
    ensures News(run) <= 1 && Exec(s, run).Some? && !AllServed(Exec(s, run).value)
  {
    var run0, t := DrivesToReady(s, [], s);
    var k := |t.requests| - 1;
    var run1, s' := LateOverlapGoesWrong(t, !t.calls[k].answer);
    ExecConcat(s, run0, run1);
    run := run0 + run1;
    assert !Served(s', k);
  }

  /** From every state reached one request at a time: every continuation with at most one further
      request serves all requests, each asked about itself and given its own answer, if and only if
      the outstanding request, if any, has the mutex back after its answer. */
  lemma SecondRequestHarmlessIff(prefix: seq<Action>)
    requires Exec(Init(), prefix).Some? && OneAtATime(prefix)
    ensures var s := Exec(Init(), prefix).value;
            (forall run :: News(run) <= 1 && Exec(s, run).Some? ==> AllServed(Exec(s, run).value)) <==> Harmless(s)
  {
    RunKeepsInv(prefix);
    var s := Exec(Init(), prefix).value;
    if Harmless(s) {
      forall run | News(run) <= 1 && Exec(s, run).Some? ensures AllServed(Exec(s, run).value) {
        CalmRun(s, run);
        CalmServed(Exec(s, run).value, |s.requests|);
      }
    } else {
      var run := OverlapHarms(s);
    }
  }
}
