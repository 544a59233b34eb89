/** `AcceptSessionJoiner` on the Node side: a bus thread fills a one-place slot, wakes the loop
    and blocks on a condition variable until JavaScript has answered.  Waiters may wake up
    spuriously. */
module AcceptRendezvous {
  import opened Common

  datatype RequestPc =
    | SetData                       // accept_async.data = &acceptCallback
    | LockSlot
    | Fill                          // data, complete = false, port: all under the mutex
    | Send                          // uv_async_send, still under the mutex
    | Test                          // while (!complete)
    | Asleep                        // uv_cond_wait has released the mutex
    | Relock                        // woken, reacquiring it
    | ReadRval
    | Unlock(ret: bool)
    | Returned(ret: bool)

  datatype Request = Request(port: nat, joiner: string, pc: RequestPc)

  datatype Loop =
    | Idle
    | ReadData                      // holder = handle->data
    | LockHolder
    | CallJs                        // argv from port and data; callback->Call
    | Store(answer: bool)           // rval, complete = true
    | Signal                        // uv_cond_signal
    | UnlockHolder

  datatype Owner = Nobody | ByRequest(k: nat) | ByLoop

  /** The holder and its async handle; `rval` starts uninitialised. */
  datatype Slot = Slot(
    sent: bool, dataSet: bool, lock: Owner, joiner: string, port: nat, complete: bool, rval: Option<bool>)

  /** One invocation of the JavaScript callback and its answer. */
  datatype JsCall = JsCall(port: nat, joiner: string, answer: bool)

  datatype State = State(requests: seq<Request>, slot: Slot, loop: Loop, calls: seq<JsCall>, fault: bool)

  datatype Action =
    | NewRequest(port: nat, joiner: string)
    | StepRequest(k: nat)
    | Spurious(k: nat)
    | StepLoop(answer: bool, waiter: nat)   // `waiter`: whom a signal wakes

  function Init(): State {
    State([], Slot(false, false, Nobody, "", 0, false, None), Idle, [], false)
  }

  // ---------------------------------------------------------------- steps

  function RequestNext(r: Request, slot: Slot): RequestPc
    requires r.pc.ReadRval? ==> slot.rval.Some?
  {
    match r.pc
    case SetData => LockSlot
    case LockSlot => Fill
    case Fill => Send
    case Send => Test
    case Test => if slot.complete then ReadRval else Asleep
    case Asleep => Asleep
    case Relock => Test
    case ReadRval => Unlock(slot.rval.value)
    case Unlock(ret) => Returned(ret)
    case Returned(ret) => Returned(ret)
  }

  function RequestSlot(k: nat, r: Request, slot: Slot): Slot {
    match r.pc
    case SetData => slot.(dataSet := true)
    case LockSlot => slot.(lock := ByRequest(k))
    case Fill => slot.(joiner := r.joiner, complete := false, port := r.port)
    case Send => slot.(sent := true)
    case Test => if slot.complete then slot else slot.(lock := Nobody)
    case Relock => slot.(lock := ByRequest(k))
    case Unlock(_) => slot.(lock := Nobody)
    case _ => slot
  }

  predicate RequestBlocked(r: Request, slot: Slot) {
    r.pc.Asleep? || r.pc.Returned? || ((r.pc.LockSlot? || r.pc.Relock?) && !slot.lock.Nobody?)
  }

  function RequestStep(s: State, k: nat): Option<State>
    requires k < |s.requests|
  {
    var r := s.requests[k];
    if r.pc.ReadRval? && s.slot.rval.None? then Some(s.(fault := true))
    else if RequestBlocked(r, s.slot) then None
    else Some(s.(requests := s.requests[k := r.(pc := RequestNext(r, s.slot))], slot := RequestSlot(k, r, s.slot)))
  }

  predicate AnyAsleep(requests: seq<Request>) {
    exists k :: 0 <= k < |requests| && requests[k].pc.Asleep?
  }

  /** A signal wakes one waiter if there is one; otherwise it has no effect. */
  predicate MayWake(requests: seq<Request>, k: nat) {
    AnyAsleep(requests) ==> k < |requests| && requests[k].pc.Asleep?
  }

  function Wake(requests: seq<Request>, k: nat): seq<Request>
    requires k < |requests|
  {
    requests[k := requests[k].(pc := Relock)]
  }

  function LoopNext(l: Loop, answer: bool): Loop {
    match l
    case Idle => ReadData
    case ReadData => LockHolder
    case LockHolder => CallJs
    case CallJs => Store(answer)
    case Store(_) => Signal
    case Signal => UnlockHolder
    case UnlockHolder => Idle
  }

  function LoopSlot(l: Loop, slot: Slot): Slot {
    match l
    case Idle => slot.(sent := false)
    case ReadData => slot
    case LockHolder => slot.(lock := ByLoop)
    case CallJs => slot.(joiner := "")               // the string is moved out
    case Store(answer) => slot.(rval := Some(answer), complete := true)
    case Signal => slot
    case UnlockHolder => slot.(lock := Nobody)
  }

  predicate LoopBlocked(l: Loop, slot: Slot) {
    (l.Idle? && !slot.sent) || (l.LockHolder? && !slot.lock.Nobody?)
  }

  function LoopStep(s: State, answer: bool, waiter: nat): Option<State> {
    if s.loop.ReadData? && !s.slot.dataSet then Some(s.(fault := true))
    else if LoopBlocked(s.loop, s.slot) || (s.loop.Signal? && !MayWake(s.requests, waiter)) then None
    else Some(s.(slot := LoopSlot(s.loop, s.slot), loop := LoopNext(s.loop, answer),
                 calls := if s.loop.CallJs? then s.calls + [JsCall(s.slot.port, s.slot.joiner, answer)] else s.calls,
                 requests := if s.loop.Signal? && AnyAsleep(s.requests) then Wake(s.requests, waiter) else s.requests))
  }

  function Step(s: State, a: Action): Option<State> {
    match a
    case NewRequest(port, joiner) => Some(s.(requests := s.requests + [Request(port, joiner, SetData)]))
    case StepRequest(k) => if k < |s.requests| then RequestStep(s, k) else None
    case Spurious(k) =>
      if k < |s.requests| && s.requests[k].pc.Asleep? then Some(s.(requests := Wake(s.requests, k))) else None
    case StepLoop(answer, waiter) => LoopStep(s, answer, waiter)
  }

  function Exec(s: State, run: seq<Action>): Option<State> {
    if run == [] then Some(s) else
      var before := Exec(s, run[..|run| - 1]);
      if before.None? then None else Step(before.value, run[|run| - 1])
  }

  // ---------------------------------------------------------------- one request at a time

  /** At most the latest request is outstanding. */
  predicate OneOutstanding(s: State) {
    forall k :: 0 <= k < |s.requests| - 1 ==> s.requests[k].pc.Returned?
  }

  ghost predicate OneAtATime(run: seq<Action>) {
    forall n :: 0 <= n <= |run| && Exec(Init(), run[..n]).Some? ==> OneOutstanding(Exec(Init(), run[..n]).value)
  }

  predicate Inside(pc: RequestPc) {
    pc.Fill? || pc.Send? || pc.Test? || pc.ReadRval? || pc.Unlock?
  }

  predicate LoopInside(l: Loop) {
    l.CallJs? || l.Store? || l.Signal? || l.UnlockHolder?
  }

  /** Not yet handed to JavaScript. */
  predicate Unasked(r: Request, slot: Slot, l: Loop) {
    if r.pc.SetData? || r.pc.LockSlot? || r.pc.Fill? then !slot.sent && l.Idle?
    else
      && slot.joiner == r.joiner && slot.port == r.port && !slot.complete && slot.dataSet
      && if r.pc.Send? then !slot.sent && l.Idle?
         else (r.pc.Test? || r.pc.Asleep? || r.pc.Relock?)
              && (if slot.sent then l.Idle? else l.ReadData? || l.LockHolder? || l.CallJs?)
  }

  /** JavaScript has answered `answer`; before the signal is over the request sleeps or is waking. */
  predicate Answered(r: Request, slot: Slot, l: Loop, answer: bool) {
    && !slot.sent
    && (if l.Store? then l.answer == answer && !slot.complete && (r.pc.Asleep? || r.pc.Relock?)
        else
          && slot.complete && slot.rval == Some(answer)
          && (if l.Signal? then r.pc.Asleep? || r.pc.Relock?
              else if l.UnlockHolder? then r.pc.Relock?
              else l.Idle? && (r.pc.Relock? || r.pc.Test? || r.pc.ReadRval?
                               || ((r.pc.Unlock? || r.pc.Returned?) && r.pc.ret == answer))))
  }

  predicate LatestOk(r: Request, k: nat, slot: Slot, l: Loop, calls: seq<JsCall>) {
    && (Inside(r.pc) <==> slot.lock == ByRequest(k))
    && (LoopInside(l) <==> slot.lock == ByLoop)
    && (slot.lock.ByRequest? ==> slot.lock.k == k)
    && (!r.pc.SetData? ==> slot.dataSet)
    && (|| (|calls| == k && Unasked(r, slot, l))
        || (|calls| == k + 1 && calls[k].port == r.port && calls[k].joiner == r.joiner
            && Answered(r, slot, l, calls[k].answer)))
  }

  /** A returned request was put to JavaScript once, with its own arguments, and got that answer. */
  predicate PastOk(r: Request, k: nat, calls: seq<JsCall>) {
    k < |calls| && r.pc.Returned? && calls[k] == JsCall(r.port, r.joiner, r.pc.ret)
  }

  predicate Inv(s: State) {
    && !s.fault
    && (forall k :: 0 <= k < |s.requests| - 1 ==> PastOk(s.requests[k], k, s.calls))
    && (if s.requests == []
        then s.calls == [] && s.loop.Idle? && !s.slot.sent && s.slot.lock.Nobody?
        else var k := |s.requests| - 1; LatestOk(s.requests[k], k, s.slot, s.loop, s.calls))
  }

  lemma RequestTurn(r: Request, k: nat, slot: Slot, l: Loop, calls: seq<JsCall>)
    requires LatestOk(r, k, slot, l, calls) && !RequestBlocked(r, slot)
    ensures r.pc.ReadRval? ==> slot.rval.Some?
    ensures LatestOk(r.(pc := RequestNext(r, slot)), k, RequestSlot(k, r, slot), l, calls)
  {
  }

  lemma LoopTurn(r: Request, k: nat, slot: Slot, l: Loop, calls: seq<JsCall>, answer: bool)
    requires LatestOk(r, k, slot, l, calls) && !LoopBlocked(l, slot)
    ensures l.ReadData? ==> slot.dataSet
    ensures var r' := if l.Signal? && r.pc.Asleep? then r.(pc := Relock) else r;
            var calls' := if l.CallJs? then calls + [JsCall(slot.port, slot.joiner, answer)] else calls;
            LatestOk(r', k, LoopSlot(l, slot), LoopNext(l, answer), calls')
  {
  }

  lemma RequestKeepsInv(s: State, k: nat)
    requires Inv(s) && k < |s.requests| && RequestStep(s, k).Some?
    ensures Inv(RequestStep(s, k).value)
  {
    var last := |s.requests| - 1;
    assert forall j :: 0 <= j < last ==> PastOk(s.requests[j], j, s.calls);
    assert k == last;
    RequestTurn(s.requests[last], last, s.slot, s.loop, s.calls);
  }

  lemma LoopKeepsInv(s: State, answer: bool, waiter: nat)
    requires Inv(s) && LoopStep(s, answer, waiter).Some?
    ensures Inv(LoopStep(s, answer, waiter).value)
  {
    if s.requests != [] {
      var s', last := LoopStep(s, answer, waiter).value, |s.requests| - 1;
      LoopTurn(s.requests[last], last, s.slot, s.loop, s.calls, answer);
      assert forall k :: 0 <= k < last ==> PastOk(s.requests[k], k, s.calls);
      if s.loop.Signal? && AnyAsleep(s.requests) {
        assert waiter == last;
      }
      assert s'.requests[..last] == s.requests[..last];
      assert forall k :: 0 <= k < last ==> s'.requests[k] == s.requests[k];
    }
  }

  lemma StepKeepsInv(s: State, a: Action)
    requires Inv(s) && OneOutstanding(s) && Step(s, a).Some? && OneOutstanding(Step(s, a).value)
    ensures Inv(Step(s, a).value)
  {
    match a
    case NewRequest(port, joiner) =>
      var s' := Step(s, a).value;
      if s.requests != [] {
        var last := |s.requests| - 1;
        assert s'.requests[last] == s.requests[last];
        assert PastOk(s.requests[last], last, s.calls);
      }
    case StepRequest(k) => RequestKeepsInv(s, k);
    case Spurious(k) =>
      assert k == |s.requests| - 1;
    case StepLoop(answer, waiter) => LoopKeepsInv(s, answer, waiter);
  }

  lemma {:induction false} RunKeepsInv(run: seq<Action>)
    requires Exec(Init(), run).Some? && OneAtATime(run)
    ensures Inv(Exec(Init(), run).value) && OneOutstanding(Exec(Init(), run).value)
  {
    assert run[..|run|] == run;
    if run != [] {
      var front := run[..|run| - 1];
      assert forall n :: 0 <= n <= |front| ==> front[..n] == run[..n];
      RunKeepsInv(front);
      StepKeepsInv(Exec(Init(), front).value, run[|run| - 1]);
    }
  }

  // ---------------------------------------------------------------- a synchronous call

  /** The k-th call, if made, was about the k-th request, and a returned request got its answer. */
  predicate Served(s: State, k: nat)
    requires k < |s.requests|
  {
    && |s.calls| <= |s.requests|
    && (k < |s.calls| ==> s.calls[k].port == s.requests[k].port && s.calls[k].joiner == s.requests[k].joiner)
    && (s.requests[k].pc.Returned? ==> k < |s.calls| && s.requests[k].pc.ret == s.calls[k].answer)
  }

  lemma RequestServed(s: State, k: nat)
    requires Inv(s) && k < |s.requests|
    ensures Served(s, k)
  {
    var last := |s.requests| - 1;
    assert LatestOk(s.requests[last], last, s.slot, s.loop, s.calls);
    if k < last { assert PastOk(s.requests[k], k, s.calls); }
  }

  // What the actions of a run say: which requests came, and what JavaScript was called with and answered.

  function Requested(run: seq<Action>): seq<(nat, string)> {
    if run == [] then [] else
      var a := run[|run| - 1];
      Requested(run[..|run| - 1]) + if a.NewRequest? then [(a.port, a.joiner)] else []
  }

  /** One call for each step of the loop at `callback->Call`: with the port and the joiner then in the slot,
      and the answer that the action carries. */
  function Called(before: Option<State>, a: Action): seq<JsCall> {
    if before.Some? && a.StepLoop? && before.value.loop.CallJs?
    then [JsCall(before.value.slot.port, before.value.slot.joiner, a.answer)] else []
  }

  function JsCalls(run: seq<Action>): seq<JsCall> {
    if run == [] then [] else
      var front := run[..|run| - 1];
      JsCalls(front) + Called(Exec(Init(), front), run[|run| - 1])
  }

  /** The requests of a state are those that came, in order. */
  predicate AsRequested(requests: seq<Request>, came: seq<(nat, string)>) {
    |requests| == |came| && forall k :: 0 <= k < |came| ==> (requests[k].port, requests[k].joiner) == came[k]
  }

  lemma StepKeepsHistory(s: State, a: Action, came: seq<(nat, string)>)
    requires AsRequested(s.requests, came) && Step(s, a).Some? && !Step(s, a).value.fault
    ensures AsRequested(Step(s, a).value.requests, came + if a.NewRequest? then [(a.port, a.joiner)] else [])
    ensures Step(s, a).value.calls == s.calls + Called(Some(s), a)
  {
    assert s.calls + [] == s.calls;
  }

  lemma FaultStays(s: State, a: Action)
    requires s.fault && Step(s, a).Some?
    ensures Step(s, a).value.fault
  {
  }

  /** In every run, whether or not requests overlap. */
  lemma {:induction false} StateIsHistory(run: seq<Action>)
    requires Exec(Init(), run).Some? && !Exec(Init(), run).value.fault
    ensures var s := Exec(Init(), run).value; AsRequested(s.requests, Requested(run)) && s.calls == JsCalls(run)
  {
    if run != [] {
      var front, a := run[..|run| - 1], run[|run| - 1];
      var s := Exec(Init(), front).value;
      if s.fault { FaultStays(s, a); }
      StateIsHistory(front);
      StepKeepsHistory(s, a, Requested(front));
    }
  }

  /** With one request outstanding at a time, every run refines a synchronous call: the k-th
      JavaScript call is made with the k-th request's own port and joiner, at most one per
      request; and a request that has returned was asked and returned what JavaScript answered. */
  lemma AcceptIsSynchronous(run: seq<Action>)
    requires Exec(Init(), run).Some? && OneAtATime(run)
    ensures var s, came, calls := Exec(Init(), run).value, Requested(run), JsCalls(run);
            && !s.fault && |s.requests| == |came| && |calls| <= |came|
            && (forall k :: 0 <= k < |calls| ==> (calls[k].port, calls[k].joiner) == came[k])
            && (forall k :: 0 <= k < |came| && s.requests[k].pc.Returned? ==>
                  k < |calls| && s.requests[k].pc.ret == calls[k].answer)
  {
    RunKeepsInv(run);
    StateIsHistory(run);
    CallsMatchRequests(Exec(Init(), run).value, Requested(run));
  }

  lemma CallsMatchRequests(s: State, came: seq<(nat, string)>)
    requires Inv(s) && AsRequested(s.requests, came)
    ensures |s.calls| <= |came|
    ensures forall k :: 0 <= k < |s.calls| ==> (s.calls[k].port, s.calls[k].joiner) == came[k]
    ensures forall k :: 0 <= k < |came| && s.requests[k].pc.Returned? ==>
              k < |s.calls| && s.requests[k].pc.ret == s.calls[k].answer
  {
    if s.requests != [] { RequestServed(s, 0); }
    forall k | 0 <= k < |s.calls| ensures (s.calls[k].port, s.calls[k].joiner) == came[k] {
      RequestServed(s, k);
    }
    forall k | 0 <= k < |came| && s.requests[k].pc.Returned?
      ensures k < |s.calls| && s.requests[k].pc.ret == s.calls[k].answer
    {
      RequestServed(s, k);
    }
  }

  /** A step that is neither a new request nor a spurious wake-up. */
  predicate Ordinary(a: Action) { a.StepRequest? || a.StepLoop? }

  ghost predicate Stuck(s: State) {
    forall a :: Ordinary(a) ==> Step(s, a).None?
  }

  lemma RequestCanMove(s: State, k: nat)
    requires k < |s.requests| && !RequestBlocked(s.requests[k], s.slot)
    ensures !Stuck(s)
  {
    assert Ordinary(StepRequest(k)) && Step(s, StepRequest(k)).Some?;
  }

  lemma LoopCanMove(s: State, waiter: nat)
    requires !LoopBlocked(s.loop, s.slot) && (s.loop.Signal? ==> MayWake(s.requests, waiter))
    ensures !Stuck(s)
  {
    assert Ordinary(StepLoop(false, waiter)) && Step(s, StepLoop(false, waiter)).Some?;
  }

  lemma StuckLatestReturned(s: State)
    requires Inv(s) && Stuck(s) && s.requests != []
    ensures s.requests[|s.requests| - 1].pc.Returned?
  {
    var last := |s.requests| - 1;
    var r := s.requests[last];
    if !r.pc.Returned? {
      if !RequestBlocked(r, s.slot) {
        RequestCanMove(s, last);
      } else if s.loop.Signal? && AnyAsleep(s.requests) {
        var w :| 0 <= w < |s.requests| && s.requests[w].pc.Asleep?;
        LoopCanMove(s, w);
      } else {
        LoopCanMove(s, last);
      }
    }
  }

  predicate AllReturned(requests: seq<Request>) {
    forall k :: 0 <= k < |requests| ==> requests[k].pc.Returned?
  }

  lemma StuckAllReturned(s: State)
    requires Inv(s) && OneOutstanding(s) && Stuck(s)
    ensures AllReturned(s.requests)
  {
    if s.requests != [] { StuckLatestReturned(s); }
  }

  /** The signal cannot be missed: without any help from spurious wake-ups, a run can stop only
      when every request has returned. */
  lemma SignalIsNeverMissed(run: seq<Action>)
    requires Exec(Init(), run).Some? && OneAtATime(run) && Stuck(Exec(Init(), run).value)
    ensures AllReturned(Exec(Init(), run).value.requests)
  {
    RunKeepsInv(run);
    StuckAllReturned(Exec(Init(), run).value);
  }

  /** The ordinary steps still owed by a request, and by the loop to it. */
  function RequestRank(pc: RequestPc, complete: bool): nat {
    match pc
    case SetData => 16
    case LockSlot => 15
    case Fill => 14
    case Send => 13
    case Relock => if complete then 4 else 5
    case Test => if complete then 3 else 4
    case Asleep => 3
    case ReadRval => 2
    case Unlock(_) => 1
    case Returned(_) => 0
  }

  function LoopRank(l: Loop): nat {
    match l
    case ReadData => 7
    case LockHolder => 6
    case CallJs => 5
    case Store(_) => 4
    case Signal => 3
    case UnlockHolder => 1
    case Idle => 0
  }

  function Measure(s: State): nat {
    (if s.requests == [] then 0 else RequestRank(s.requests[|s.requests| - 1].pc, s.slot.complete))
    + LoopRank(s.loop) + (if s.slot.sent then 8 else 0)
  }

  lemma OrdinaryStepDecreases(s: State, a: Action)
    requires Inv(s) && OneOutstanding(s) && Ordinary(a) && Step(s, a).Some?
    ensures Measure(Step(s, a).value) < Measure(s) && OneOutstanding(Step(s, a).value)
  {
    var last := |s.requests| - 1;
    if a.StepRequest? {
      assert a.k == last;
      RequestTurn(s.requests[last], last, s.slot, s.loop, s.calls);
    } else if s.requests != [] {
      LoopTurn(s.requests[last], last, s.slot, s.loop, s.calls, a.answer);
      if s.loop.Signal? && AnyAsleep(s.requests) {
        assert a.waiter == last;
      }
    }
  }

  lemma SpuriousCostsTwo(s: State, k: nat)
    requires Inv(s) && OneOutstanding(s) && Step(s, Spurious(k)).Some?
    ensures Measure(Step(s, Spurious(k)).value) <= Measure(s) + 2 && OneOutstanding(Step(s, Spurious(k)).value)
  {
    assert k == |s.requests| - 1;
  }

  lemma MeasureIsBounded(s: State)
    requires Inv(s)
    ensures Measure(s) <= 16
  {
    if s.requests != [] {
      assert LatestOk(s.requests[|s.requests| - 1], |s.requests| - 1, s.slot, s.loop, s.calls);
    }
  }

  function Ordinaries(run: seq<Action>): nat {
    if run == [] then 0 else Ordinaries(run[..|run| - 1]) + if Ordinary(run[|run| - 1]) then 1 else 0
  }

  function Spurions(run: seq<Action>): nat {
    if run == [] then 0 else Spurions(run[..|run| - 1]) + if run[|run| - 1].Spurious? then 1 else 0
  }

  /** From any state reached one request at a time, a run without new requests has at most 16 ordinary
      steps, and two more for each spurious wake-up, before the outstanding request has its answer. */
  lemma {:induction false} AnswerComesInBoundedSteps(prefix: seq<Action>, run: seq<Action>)
    requires Exec(Init(), prefix).Some? && OneAtATime(prefix)
    requires Exec(Exec(Init(), prefix).value, run).Some? && forall i :: 0 <= i < |run| ==> !run[i].NewRequest?
    ensures var s := Exec(Init(), prefix).value; var s' := Exec(s, run).value;
            && Inv(s') && OneOutstanding(s')
            && Ordinaries(run) + Measure(s') <= Measure(s) + 2 * Spurions(run) <= 16 + 2 * Spurions(run)
  {
    RunKeepsInv(prefix);
    var s := Exec(Init(), prefix).value;
    MeasureIsBounded(s);
    if run != [] {
      var front, a := run[..|run| - 1], run[|run| - 1];
      AnswerComesInBoundedSteps(prefix, front);
      var s' := Exec(s, front).value;
      if a.Spurious? {
        SpuriousCostsTwo(s', a.k);
      } else {
        OrdinaryStepDecreases(s', a);
      }
      StepKeepsInv(s', a);
    }
  }
}
