/** The channels that carry bus events to JavaScript: producers on bus threads append to a
    queue under its mutex and call `uv_async_send`; the single loop thread takes the whole
    queue and delivers it.  A listener owns any number of channels, each with its own async
    handle and holder, and one callback serves every handle through `handle->data`. */
module EventChannel {
  import opened Common

  type Chan = nat
  type ProducerId = nat
  type Item = string

  datatype ProducerPc =
    | SetData                                 // async.data = &holder
    | LockQueue | Enqueue | UnlockQueue       // emplace under the mutex
    | Send                                    // uv_async_send
    | Done

  datatype Producer = Producer(chan: Chan, item: Item, pc: ProducerPc)

  datatype Loop =
    | Idle
    | ReadData(h: Chan)                       // holder = handle->data
    | LockHolder(c: Chan) | Take(c: Chan)     // move the queue out under the mutex
    | UnlockHolder(c: Chan, batch: seq<Item>)
    | TestBatch(c: Chan, batch: seq<Item>)    // while (!dataqueue.empty())
    | Call(c: Chan, batch: seq<Item>)         // holder->callback->Call(front)
    | PopBatch(c: Chan, batch: seq<Item>)     // dataqueue.pop()

  datatype Owner = Nobody | ByProducer(p: ProducerId) | ByLoop

  /** An async handle (`sent`, `data`) and its holder (`lock`, `queue`); the last two fields are history. */
  datatype Channel = Channel(
    sent: bool, data: Option<Chan>, lock: Owner, queue: seq<Item>, enqueued: seq<Item>, delivered: seq<Item>)

  datatype State = State(chans: map<Chan, Channel>, producers: map<ProducerId, Producer>, loop: Loop, fault: bool)

  datatype Action =
    | NewProducer(p: ProducerId, c: Chan, item: Item)
    | StepProducer(p: ProducerId)
    | StepLoop(h: Chan)                       // `h` is the handle an idle loop looks at

  function Fresh(): Channel { Channel(false, None, Nobody, [], [], []) }

  function Init(channels: set<Chan>): State {
    State(map c | c in channels :: Fresh(), map[], Idle, false)
  }

  // ---------------------------------------------------------------- steps

  function ProducerNext(pc: ProducerPc): ProducerPc {
    match pc
    case SetData => LockQueue
    case LockQueue => Enqueue
    case Enqueue => UnlockQueue
    case UnlockQueue => Send
    case Send => Done
    case Done => Done
  }

  function ProducerChan(ch: Channel, p: ProducerId, w: Producer): Channel {
    match w.pc
    case SetData => ch.(data := Some(w.chan))
    case LockQueue => ch.(lock := ByProducer(p))
    case Enqueue => ch.(queue := ch.queue + [w.item], enqueued := ch.enqueued + [w.item])
    case UnlockQueue => ch.(lock := Nobody)
    case Send => ch.(sent := true)
    case Done => ch
  }

  function ProducerStep(s: State, p: ProducerId): Option<State>
    requires p in s.producers
  {
    var w := s.producers[p];
    if w.pc.Done? || w.chan !in s.chans || (w.pc.LockQueue? && !s.chans[w.chan].lock.Nobody?) then None
    else Some(s.(chans := s.chans[w.chan := ProducerChan(s.chans[w.chan], p, w)],
                 producers := s.producers[p := w.(pc := ProducerNext(w.pc))]))
  }

  /** The channel a step of the loop works on. */
  function LoopChan(l: Loop, h: Chan): Chan {
    if l.Idle? then h else if l.ReadData? then l.h else l.c
  }

  predicate LoopEnabled(l: Loop, ch: Channel) {
    (l.Idle? ==> ch.sent) && (l.LockHolder? ==> ch.lock.Nobody?)
  }

  predicate LoopWellFormed(l: Loop) {
    l.Call? || l.PopBatch? ==> l.batch != []
  }

  function LoopNext(l: Loop, h: Chan, ch: Channel): Loop
    requires LoopWellFormed(l) && (l.ReadData? ==> ch.data.Some?)
  {
    match l
    case Idle => ReadData(h)
    case ReadData(_) => LockHolder(ch.data.value)
    case LockHolder(c) => Take(c)
    case Take(c) => UnlockHolder(c, ch.queue)
    case UnlockHolder(c, batch) => TestBatch(c, batch)
    case TestBatch(c, batch) => if batch == [] then Idle else Call(c, batch)
    case Call(c, batch) => PopBatch(c, batch)
    case PopBatch(c, batch) => TestBatch(c, batch[1..])
  }

  /** The flag is cleared before the callback starts, so later sends are not absorbed. */
  function LoopChannel(l: Loop, ch: Channel): Channel
    requires LoopWellFormed(l)
  {
    match l
    case Idle => ch.(sent := false)
    case LockHolder(_) => ch.(lock := ByLoop)
    case Take(_) => ch.(queue := [])
    case UnlockHolder(_, _) => ch.(lock := Nobody)
    case Call(_, batch) => ch.(delivered := ch.delivered + [batch[0]])
    case _ => ch
  }

  /** Reading a null `data`, or the front of an empty queue, is a fault. */
  function LoopStep(s: State, h: Chan): Option<State> {
    var c := LoopChan(s.loop, h);
    if s.loop.Idle? && h !in s.chans then None
    else if c !in s.chans || !LoopWellFormed(s.loop) || (s.loop.ReadData? && s.chans[c].data.None?)
    then Some(s.(fault := true))
    else if !LoopEnabled(s.loop, s.chans[c]) then None
    else Some(s.(chans := s.chans[c := LoopChannel(s.loop, s.chans[c])], loop := LoopNext(s.loop, h, s.chans[c])))
  }

  function Step(s: State, a: Action): Option<State> {
    match a
    case NewProducer(p, c, item) =>
      if p in s.producers || c !in s.chans then None
      else Some(s.(producers := s.producers[p := Producer(c, item, SetData)]))
    case StepProducer(p) => if p in s.producers then ProducerStep(s, p) else None
    case StepLoop(h) => LoopStep(s, h)
  }

  function Exec(s: State, run: seq<Action>): Option<State> {
    if run == [] then Some(s) else
      var before := Exec(s, run[..|run| - 1]);
      if before.None? then None else Step(before.value, run[|run| - 1])
  }

  // ---------------------------------------------------------------- the invariant

  /** Items of channel `c` the loop has taken and not yet handed to JavaScript. */
  function InHand(l: Loop, c: Chan): seq<Item> {
    match l
    case UnlockHolder(k, batch) => if k == c then batch else []
    case TestBatch(k, batch) => if k == c then batch else []
    case Call(k, batch) => if k == c then batch else []
    case PopBatch(k, batch) => if k == c && batch != [] then batch[1..] else []
    case _ => []
  }

  /** The loop has begun a callback for the channel and not yet taken the queue. */
  predicate Coming(l: Loop, c: Chan) {
    (l.ReadData? && l.h == c) || ((l.LockHolder? || l.Take?) && l.c == c)
  }

  predicate ProducerInside(pc: ProducerPc) { pc.Enqueue? || pc.UnlockQueue? }

  predicate LoopInside(l: Loop, c: Chan) { (l.Take? || l.UnlockHolder?) && l.c == c }

  /** A producer that has enqueued on `c` and not yet sent. */
  predicate AboutToSend(w: Producer, c: Chan) {
    w.chan == c && (w.pc.UnlockQueue? || w.pc.Send?)
  }

  ghost predicate Sending(s: State, c: Chan) {
    exists p :: p in s.producers && AboutToSend(s.producers[p], c)
  }

  /** Nothing lost, duplicated or reordered; and no wake-up for a handle without its holder. */
  predicate ChannelOk(l: Loop, c: Chan, ch: Channel) {
    && ch.delivered + InHand(l, c) + ch.queue == ch.enqueued
    && (ch.data.Some? ==> ch.data.value == c)
    && (ch.sent || Coming(l, c) ==> ch.data.Some?)
    && (LoopInside(l, c) <==> ch.lock == ByLoop)
  }

  ghost predicate Channels(s: State) {
    && !s.fault && LoopWellFormed(s.loop)
    && (!s.loop.Idle? ==> LoopChan(s.loop, 0) in s.chans)
    && (forall c :: c in s.chans ==> ChannelOk(s.loop, c, s.chans[c]))
  }

  /** Producers hold the mutex exactly inside their critical section, and have set `data` before. */
  ghost predicate Producers(s: State) {
    && (forall p :: p in s.producers ==>
          var w := s.producers[p];
          && w.chan in s.chans
          && (!w.pc.SetData? ==> s.chans[w.chan].data.Some?)
          && (ProducerInside(w.pc) <==> s.chans[w.chan].lock == ByProducer(p)))
    && (forall c :: c in s.chans && s.chans[c].lock.ByProducer? ==>
          var p := s.chans[c].lock.p; p in s.producers && s.producers[p].chan == c)
  }

  /** No wake-up is lost: a non-empty queue has a send pending or coming, or the loop is coming. */
  ghost predicate Awake(s: State) {
    forall c :: c in s.chans && s.chans[c].queue != [] ==> s.chans[c].sent || Coming(s.loop, c) || Sending(s, c)
  }

  ghost predicate Inv(s: State) {
    Channels(s) && Producers(s) && Awake(s)
  }

  lemma ProducerKeepsChannels(s: State, p: ProducerId)
    requires Channels(s) && Producers(s) && p in s.producers && ProducerStep(s, p).Some?
    ensures Channels(ProducerStep(s, p).value)
  {
  }

  lemma ProducerKeepsProducers(s: State, p: ProducerId)
    requires Producers(s) && p in s.producers && ProducerStep(s, p).Some?
    ensures Producers(ProducerStep(s, p).value)
  {
  }

  lemma ProducerKeepsAwake(s: State, p: ProducerId)
    requires Producers(s) && Awake(s) && p in s.producers && ProducerStep(s, p).Some?
    ensures Awake(ProducerStep(s, p).value)
  {
    var s' := ProducerStep(s, p).value;
    forall c | c in s'.chans && s'.chans[c].queue != [] && !s'.chans[c].sent && !Coming(s'.loop, c)
      ensures Sending(s', c)
    {
      if s.producers[p].chan == c && s.producers[p].pc.Enqueue? {
        assert AboutToSend(s'.producers[p], c);
      } else {
        var q :| q in s.producers && AboutToSend(s.producers[q], c);
        assert AboutToSend(s'.producers[q], c);
      }
    }
  }

  /** The loop keeps the channel it works on in order ... */
  lemma LoopTurn(l: Loop, h: Chan, ch: Channel)
    requires LoopWellFormed(l) && LoopEnabled(l, ch) && ChannelOk(l, LoopChan(l, h), ch)
    ensures l.ReadData? ==> ch.data.Some?
    ensures LoopWellFormed(LoopNext(l, h, ch))
    ensures !LoopNext(l, h, ch).Idle? ==> LoopChan(LoopNext(l, h, ch), h) == LoopChan(l, h)
    ensures ChannelOk(LoopNext(l, h, ch), LoopChan(l, h), LoopChannel(l, ch))
  {
    LoopTurnIsFifo(l, h, ch);
  }

  lemma LoopTurnIsFifo(l: Loop, h: Chan, ch: Channel)
    requires LoopWellFormed(l) && ChannelOk(l, LoopChan(l, h), ch)
    ensures l.ReadData? ==> ch.data.Some?
    ensures var ch' := LoopChannel(l, ch);
            ch'.delivered + InHand(LoopNext(l, h, ch), LoopChan(l, h)) + ch'.queue == ch.enqueued
  {
    if l.Take? {
      assert ch.delivered + [] + ch.queue == ch.delivered + ch.queue + [];
    } else if l.Call? {
      MoveFirst(ch.delivered, l.batch, ch.queue);
    }
  }

  lemma MoveFirst(a: seq<Item>, b: seq<Item>, c: seq<Item>)
    requires b != []
    ensures a + [b[0]] + b[1..] + c == a + b + c
  {
    assert [b[0]] + b[1..] == b;
    assert a + [b[0]] + b[1..] == a + b;
  }

  /** ... and every other channel untouched. */
  lemma LoopElsewhere(l: Loop, h: Chan, ch: Channel, k: Chan)
    requires LoopWellFormed(l) && ChannelOk(l, LoopChan(l, h), ch) && k != LoopChan(l, h)
    ensures l.ReadData? ==> ch.data.Some?
    ensures var l' := LoopNext(l, h, ch);
            && InHand(l', k) == InHand(l, k) == []
            && !Coming(l', k) && !Coming(l, k) && !LoopInside(l', k) && !LoopInside(l, k)
  {
  }

  lemma LoopKeepsChannels(s: State, h: Chan)
    requires Channels(s) && LoopStep(s, h).Some?
    ensures Channels(LoopStep(s, h).value)
  {
    var c := LoopChan(s.loop, h);
    assert ChannelOk(s.loop, c, s.chans[c]);
    LoopTurn(s.loop, h, s.chans[c]);
    forall k | k in s.chans && k != c ensures ChannelOk(LoopStep(s, h).value.loop, k, s.chans[k]) {
      LoopElsewhere(s.loop, h, s.chans[c], k);
    }
  }

  lemma LoopKeepsProducers(s: State, h: Chan)
    requires Channels(s) && Producers(s) && LoopStep(s, h).Some?
    ensures Producers(LoopStep(s, h).value)
  {
  }

  lemma LoopKeepsAwake(s: State, h: Chan)
    requires Channels(s) && Awake(s) && LoopStep(s, h).Some?
    ensures Awake(LoopStep(s, h).value)
  {
  }

  lemma StepKeepsInv(s: State, a: Action)
    requires Inv(s) && Step(s, a).Some?
    ensures Inv(Step(s, a).value)
  {
    match a
    case NewProducer(_, _, _) =>
    case StepProducer(p) => ProducerKeepsChannels(s, p); ProducerKeepsProducers(s, p); ProducerKeepsAwake(s, p);
    case StepLoop(h) => LoopKeepsChannels(s, h); LoopKeepsProducers(s, h); LoopKeepsAwake(s, h);
  }

  lemma StepKeepsChannels(s: State, a: Action)
    requires Step(s, a).Some?
    ensures Step(s, a).value.chans.Keys == s.chans.Keys
  {
  }

  lemma {:induction false} RunKeepsInv(channels: set<Chan>, run: seq<Action>)
    requires Exec(Init(channels), run).Some?
    ensures Inv(Exec(Init(channels), run).value)
    ensures Exec(Init(channels), run).value.chans.Keys == channels
  {
    if run != [] {
      RunKeepsInv(channels, run[..|run| - 1]);
      StepKeepsInv(Exec(Init(channels), run[..|run| - 1]).value, run[|run| - 1]);
      StepKeepsChannels(Exec(Init(channels), run[..|run| - 1]).value, run[|run| - 1]);
    }
  }

  // ---------------------------------------------------------------- what every run promises

  /** In every interleaving and for every channel: what JavaScript has been given, then what the
      loop holds, then the shared queue, is exactly what was enqueued under the lock, in order. */
  lemma DeliveryIsFifo(channels: set<Chan>, run: seq<Action>, c: Chan)
    requires Exec(Init(channels), run).Some? && c in channels
    ensures var s := Exec(Init(channels), run).value;
            && !s.fault && c in s.chans
            && s.chans[c].delivered + InHand(s.loop, c) + s.chans[c].queue == s.chans[c].enqueued
  {
    RunKeepsInv(channels, run);
    assert ChannelOk(Exec(Init(channels), run).value.loop, c, Exec(Init(channels), run).value.chans[c]);
  }

  /** Coalesced sends lose nothing: a non-empty queue is always about to be visited, and a handle
      that has been sent always names its own holder. */
  lemma NoWakeUpIsLost(channels: set<Chan>, run: seq<Action>, c: Chan)
    requires Exec(Init(channels), run).Some? && c in channels
    ensures var s := Exec(Init(channels), run).value;
            && c in s.chans
            && (s.chans[c].queue != [] ==> s.chans[c].sent || Coming(s.loop, c) || Sending(s, c))
            && (s.chans[c].sent ==> s.chans[c].data == Some(c))
  {
    RunKeepsInv(channels, run);
    assert ChannelOk(Exec(Init(channels), run).value.loop, c, Exec(Init(channels), run).value.chans[c]);
  }

  // ---------------------------------------------------------------- everything is delivered

  function ProducerRank(pc: ProducerPc): nat {
    match pc
    case SetData => 14
    case LockQueue => 13
    case Enqueue => 12
    case UnlockQueue => 8
    case Send => 7
    case Done => 0
  }

  /** A pending send pays for one visit of the loop, a queued item for its delivery. */
  function ChannelRank(ch: Channel): nat { (if ch.sent then 6 else 0) + 3 * |ch.queue| }

  function LoopRank(l: Loop): nat {
    match l
    case Idle => 0
    case ReadData(_) => 5
    case LockHolder(_) => 4
    case Take(_) => 3
    case UnlockHolder(_, batch) => 2 + 3 * |batch|
    case TestBatch(_, batch) => 1 + 3 * |batch|
    case Call(_, batch) => 3 * |batch|
    case PopBatch(_, batch) => if batch == [] then 0 else 3 * |batch| - 1
  }

  function ProducerRanks(m: map<ProducerId, Producer>): map<ProducerId, nat> { map p | p in m :: ProducerRank(m[p].pc) }

  function ChannelRanks(m: map<Chan, Channel>): map<Chan, nat> { map c | c in m :: ChannelRank(m[c]) }

  ghost function Measure(s: State): nat {
    Sum(ProducerRanks(s.producers)) + Sum(ChannelRanks(s.chans)) + LoopRank(s.loop)
  }

  lemma ChannelMeasure(m: map<Chan, Channel>, c: Chan, ch: Channel)
    requires c in m
    ensures Sum(ChannelRanks(m[c := ch])) == Sum(ChannelRanks(m)) - ChannelRank(m[c]) + ChannelRank(ch)
  {
    assert ChannelRanks(m[c := ch]) == ChannelRanks(m)[c := ChannelRank(ch)];
    SumUpdate(ChannelRanks(m), c, ChannelRank(ch));
  }

  lemma ProducerStepDecreases(s: State, p: ProducerId)
    requires p in s.producers && ProducerStep(s, p).Some?
    ensures Measure(ProducerStep(s, p).value) < Measure(s)
  {
    var w := s.producers[p];
    var w' := w.(pc := ProducerNext(w.pc));
    ChannelMeasure(s.chans, w.chan, ProducerChan(s.chans[w.chan], p, w));
    assert ProducerRanks(s.producers[p := w']) == ProducerRanks(s.producers)[p := ProducerRank(w'.pc)];
    SumUpdate(ProducerRanks(s.producers), p, ProducerRank(w'.pc));
  }

  lemma LoopRankDecreases(l: Loop, h: Chan, ch: Channel)
    requires LoopWellFormed(l) && LoopEnabled(l, ch) && (l.ReadData? ==> ch.data.Some?)
    ensures LoopRank(LoopNext(l, h, ch)) + ChannelRank(LoopChannel(l, ch)) < LoopRank(l) + ChannelRank(ch)
  {
  }

  lemma LoopStepDecreases(s: State, h: Chan)
    requires Channels(s) && LoopStep(s, h).Some?
    ensures Measure(LoopStep(s, h).value) < Measure(s)
  {
    LoopKeepsChannels(s, h);
    var c := LoopChan(s.loop, h);
    LoopRankDecreases(s.loop, h, s.chans[c]);
    ChannelMeasure(s.chans, c, LoopChannel(s.loop, s.chans[c]));
  }

  /** With no new events every run is finite. */
  lemma {:induction false} QuietRunsAreBounded(s: State, run: seq<Action>)
    requires Inv(s) && Exec(s, run).Some? && forall k :: 0 <= k < |run| ==> !run[k].NewProducer?
    ensures Inv(Exec(s, run).value) && |run| + Measure(Exec(s, run).value) <= Measure(s)
  {
    if run != [] {
      var front, a := run[..|run| - 1], run[|run| - 1];
      QuietRunsAreBounded(s, front);
      var s' := Exec(s, front).value;
      StepKeepsInv(s', a);
      if a.StepProducer? { ProducerStepDecreases(s', a.p); } else { LoopStepDecreases(s', a.h); }
    }
  }

  ghost predicate Stuck(s: State) {
    forall a: Action :: !a.NewProducer? ==> Step(s, a).None?
  }

  lemma ProducerCanMove(s: State, p: ProducerId)
    requires Inv(s) && p in s.producers && !s.producers[p].pc.Done?
    requires s.producers[p].pc.LockQueue? ==> s.chans[s.producers[p].chan].lock.Nobody?
    ensures !Stuck(s)
  {
    assert Step(s, StepProducer(p)).Some?;
  }

  lemma LoopCanMove(s: State, h: Chan)
    requires Inv(s) && h in s.chans && (s.loop.Idle? ==> s.chans[h].sent)
    requires s.loop.LockHolder? ==> s.chans[s.loop.c].lock.Nobody?
    ensures !Stuck(s)
  {
    assert Step(s, StepLoop(h)).Some?;
  }

  /** Whoever holds the mutex can go on, so a blocked loop means somebody else moves. */
  lemma StuckLoopIsIdle(s: State)
    requires Inv(s) && Stuck(s)
    ensures s.loop.Idle? && forall c :: c in s.chans ==> !s.chans[c].sent
  {
    if !s.loop.Idle? {
      var h := LoopChan(s.loop, 0);
      assert ChannelOk(s.loop, h, s.chans[h]);
      if s.loop.LockHolder? && !s.chans[h].lock.Nobody? {
        ProducerCanMove(s, s.chans[h].lock.p);
      } else {
        LoopCanMove(s, h);
      }
    }
    forall c | c in s.chans ensures !s.chans[c].sent {
      if s.chans[c].sent { LoopCanMove(s, c); }
    }
  }

  lemma StuckProducersDone(s: State, p: ProducerId)
    requires Inv(s) && Stuck(s) && p in s.producers
    ensures s.producers[p].pc.Done?
  {
    StuckLoopIsIdle(s);
    if !s.producers[p].pc.Done? {
      var ch := s.chans[s.producers[p].chan];
      assert ChannelOk(s.loop, s.producers[p].chan, ch);
      ProducerCanMove(s, if ch.lock.ByProducer? then ch.lock.p else p);
    }
  }

  lemma StuckChannelDelivered(s: State, c: Chan)
    requires Inv(s) && Stuck(s) && c in s.chans
    ensures s.chans[c].delivered == s.chans[c].enqueued
  {
    StuckLoopIsIdle(s);
    if p :| p in s.producers && AboutToSend(s.producers[p], c) {
      StuckProducersDone(s, p);
    }
    assert ChannelOk(s.loop, c, s.chans[c]);
    assert s.chans[c].queue == [];
  }

  // ---------------------------------------------------------------- every event counts once

  predicate Brings(w: Producer, c: Chan, item: Item) { w.chan == c && w.item == item }

  /** The producers that brought `item` to channel `c`. */
  function Bringers(producers: map<ProducerId, Producer>, c: Chan, item: Item): set<ProducerId> {
    set p | p in producers && Brings(producers[p], c, item)
  }

  predicate HasEnqueued(w: Producer, c: Chan, item: Item) {
    w.chan == c && w.item == item && (w.pc.UnlockQueue? || w.pc.Send? || w.pc.Done?)
  }

  /** ... and have enqueued it. */
  function Enqueuers(producers: map<ProducerId, Producer>, c: Chan, item: Item): set<ProducerId> {
    set p | p in producers && HasEnqueued(producers[p], c, item)
  }

  /** An item is in a channel's history as often as producers have enqueued it there. */
  predicate CountedOnce(s: State, c: Chan, item: Item) {
    c in s.chans ==> multiset(s.chans[c].enqueued)[item] == |Enqueuers(s.producers, c, item)|
  }

  /** What one step of `w` adds to the count of an item on a channel. */
  function Adds(w: Producer, c: Chan, item: Item): nat {
    if w.pc.Enqueue? && w.chan == c && w.item == item then 1 else 0
  }

  lemma EnqueuesOnce(w: Producer, c: Chan, item: Item)
    ensures var w' := w.(pc := ProducerNext(w.pc));
            && (HasEnqueued(w', c, item) <==> HasEnqueued(w, c, item) || Adds(w, c, item) == 1)
            && (Adds(w, c, item) == 1 ==> !HasEnqueued(w, c, item))
  {
  }

  lemma EnqueuersChange(producers: map<ProducerId, Producer>, p: ProducerId, w': Producer, c: Chan, item: Item)
    requires p in producers && (HasEnqueued(producers[p], c, item) ==> HasEnqueued(w', c, item))
    ensures |Enqueuers(producers[p := w'], c, item)| == |Enqueuers(producers, c, item)|
              + if HasEnqueued(w', c, item) && !HasEnqueued(producers[p], c, item) then 1 else 0
  {
    var before, after := Enqueuers(producers, c, item), Enqueuers(producers[p := w'], c, item);
    if HasEnqueued(w', c, item) && !HasEnqueued(producers[p], c, item) {
      assert p !in before && after == before + {p};
    } else {
      assert after == before;
    }
  }

  lemma ProducerKeepsCount(s: State, p: ProducerId, c: Chan, item: Item)
    requires CountedOnce(s, c, item) && p in s.producers && ProducerStep(s, p).Some?
    ensures CountedOnce(ProducerStep(s, p).value, c, item)
  {
    var w, s' := s.producers[p], ProducerStep(s, p).value;
    EnqueuesOnce(w, c, item);
    EnqueuersChange(s.producers, p, w.(pc := ProducerNext(w.pc)), c, item);
    if c in s.chans {
      assert s'.chans[c].enqueued == s.chans[c].enqueued + if w.pc.Enqueue? && w.chan == c then [w.item] else [];
    }
  }

  lemma StepKeepsCount(s: State, a: Action, c: Chan, item: Item)
    requires CountedOnce(s, c, item) && Step(s, a).Some?
    ensures CountedOnce(Step(s, a).value, c, item)
  {
    match a
    case NewProducer(p, chan, _) =>
      assert Enqueuers(Step(s, a).value.producers, c, item) == Enqueuers(s.producers, c, item);
    case StepProducer(p) => ProducerKeepsCount(s, p, c, item);
    case StepLoop(_) =>
  }

  lemma {:induction false} RunKeepsCount(s: State, run: seq<Action>, c: Chan, item: Item)
    requires CountedOnce(s, c, item) && Exec(s, run).Some?
    ensures CountedOnce(Exec(s, run).value, c, item)
  {
    if run != [] {
      RunKeepsCount(s, run[..|run| - 1], c, item);
      StepKeepsCount(Exec(s, run[..|run| - 1]).value, run[|run| - 1], c, item);
    }
  }

  lemma StuckCount(s: State, c: Chan, item: Item)
    requires Inv(s) && Stuck(s) && c in s.chans && CountedOnce(s, c, item)
    ensures multiset(s.chans[c].delivered)[item] == |Bringers(s.producers, c, item)|
  {
    StuckChannelDelivered(s, c);
    forall p | p in s.producers ensures s.producers[p].pc.Done? { StuckProducersDone(s, p); }
    assert Enqueuers(s.producers, c, item) == Bringers(s.producers, c, item);
  }

  // ---------------------------------------------------------------- what arrived, and what was called

  /** How many events brought `item` to channel `c` in a run. */
  function Arrivals(run: seq<Action>, c: Chan, item: Item): nat {
    if run == [] then 0 else
      var a := run[|run| - 1];
      Arrivals(run[..|run| - 1], c, item) + if a.NewProducer? && a.c == c && a.item == item then 1 else 0
  }

  lemma BringersChange(s: State, a: Action, c: Chan, item: Item)
    requires Step(s, a).Some?
    ensures |Bringers(Step(s, a).value.producers, c, item)| == |Bringers(s.producers, c, item)|
              + if a.NewProducer? && a.c == c && a.item == item then 1 else 0
  {
    match a
    case NewProducer(p, k, x) => NewcomerBrings(s.producers, p, Producer(k, x, SetData), c, item);
    case StepProducer(p) =>
      assert Bringers(Step(s, a).value.producers, c, item) == Bringers(s.producers, c, item);
    case StepLoop(_) =>
  }

  lemma NewcomerBrings(producers: map<ProducerId, Producer>, p: ProducerId, w: Producer, c: Chan, item: Item)
    requires p !in producers
    ensures |Bringers(producers[p := w], c, item)| == |Bringers(producers, c, item)|
              + if Brings(w, c, item) then 1 else 0
  {
    var before, after := Bringers(producers, c, item), Bringers(producers[p := w], c, item);
    if Brings(w, c, item) {
      assert after == before + {p} && p !in before;
    } else {
      assert after == before;
    }
  }

  /** Every event of a run has its producer, on its own channel and with its own item. */
  lemma {:induction false} ArrivalsAreBringers(channels: set<Chan>, run: seq<Action>, c: Chan, item: Item)
    requires Exec(Init(channels), run).Some?
    ensures |Bringers(Exec(Init(channels), run).value.producers, c, item)| == Arrivals(run, c, item)
  {
    if run == [] {
      assert Bringers(Init(channels).producers, c, item) == {};
    } else {
      ArrivalsAreBringers(channels, run[..|run| - 1], c, item);
      BringersChange(Exec(Init(channels), run[..|run| - 1]).value, run[|run| - 1], c, item);
    }
  }

  lemma {:induction false} NoneArrive(front: seq<Action>, run: seq<Action>, c: Chan, item: Item)
    requires forall k :: 0 <= k < |run| ==> !run[k].NewProducer?
    ensures Arrivals(front + run, c, item) == Arrivals(front, c, item)
  {
    if run == [] {
      assert front + run == front;
    } else {
      assert (front + run)[..|front + run| - 1] == front + run[..|run| - 1];
      NoneArrive(front, run[..|run| - 1], c, item);
    }
  }

  lemma {:induction false} QuietRunKeepsBringers(s: State, run: seq<Action>, c: Chan, item: Item)
    requires Exec(s, run).Some? && forall k :: 0 <= k < |run| ==> !run[k].NewProducer?
    ensures |Bringers(Exec(s, run).value.producers, c, item)| == |Bringers(s.producers, c, item)|
  {
    if run != [] {
      QuietRunKeepsBringers(s, run[..|run| - 1], c, item);
      BringersChange(Exec(s, run[..|run| - 1]).value, run[|run| - 1], c, item);
    }
  }

  /** What JavaScript has been called with on channel `c`, in order. */
  function Calls(channels: set<Chan>, run: seq<Action>, c: Chan): seq<Item> {
    if run == [] then [] else
      var front := run[..|run| - 1];
      Calls(channels, front, c) + Called(Exec(Init(channels), front), run[|run| - 1], c)
  }

  function Called(before: Option<State>, a: Action, c: Chan): seq<Item> {
    if before.Some? && a.StepLoop? && before.value.loop.Call? && before.value.loop.c == c
       && before.value.loop.batch != []
    then [before.value.loop.batch[0]] else []
  }

  /** What producers have put on channel `c` under its mutex, in order. */
  function Enqueues(channels: set<Chan>, run: seq<Action>, c: Chan): seq<Item> {
    if run == [] then [] else
      var front := run[..|run| - 1];
      Enqueues(channels, front, c) + Enqueued(Exec(Init(channels), front), run[|run| - 1], c)
  }

  function Enqueued(before: Option<State>, a: Action, c: Chan): seq<Item> {
    if before.Some? && a.StepProducer? && a.p in before.value.producers
       && before.value.producers[a.p].pc.Enqueue? && before.value.producers[a.p].chan == c
    then [before.value.producers[a.p].item] else []
  }

  /** The histories of a channel after one action. */
  predicate Written(s: State, a: Action, c: Chan, ch: Channel, ch': Channel) {
    ch'.delivered == ch.delivered + Called(Some(s), a, c) && ch'.enqueued == ch.enqueued + Enqueued(Some(s), a, c)
  }

  lemma ProducerWrites(s: State, p: ProducerId, c: Chan)
    requires p in s.producers && ProducerStep(s, p).Some? && c in s.chans
    ensures c in ProducerStep(s, p).value.chans
    ensures Written(s, StepProducer(p), c, s.chans[c], ProducerStep(s, p).value.chans[c])
  {
    assert s.chans[c].delivered + [] == s.chans[c].delivered && s.chans[c].enqueued + [] == s.chans[c].enqueued;
  }

  lemma LoopWrites(s: State, h: Chan, c: Chan)
    requires LoopStep(s, h).Some? && !LoopStep(s, h).value.fault && c in s.chans
    ensures c in LoopStep(s, h).value.chans
    ensures Written(s, StepLoop(h), c, s.chans[c], LoopStep(s, h).value.chans[c])
  {
    assert s.chans[c].delivered + [] == s.chans[c].delivered && s.chans[c].enqueued + [] == s.chans[c].enqueued;
  }

  lemma StepWritesHistory(s: State, a: Action, c: Chan)
    requires Inv(s) && Step(s, a).Some? && c in s.chans
    ensures c in Step(s, a).value.chans && Written(s, a, c, s.chans[c], Step(s, a).value.chans[c])
  {
    match a
    case NewProducer(_, _, _) =>
      assert s.chans[c].delivered + [] == s.chans[c].delivered && s.chans[c].enqueued + [] == s.chans[c].enqueued;
    case StepProducer(p) => ProducerWrites(s, p, c);
    case StepLoop(h) =>
      StepKeepsInv(s, a);
      LoopWrites(s, h, c);
  }

  /** In every run and on every channel: JavaScript has been called with what was enqueued, in that order,
      but for what the loop has in hand and what is still queued. */
  lemma {:induction false} CallsFollowEnqueues(channels: set<Chan>, run: seq<Action>, c: Chan)
    requires Exec(Init(channels), run).Some? && c in channels
    ensures var s := Exec(Init(channels), run).value;
            && c in s.chans && s.chans[c].delivered == Calls(channels, run, c)
            && s.chans[c].enqueued == Enqueues(channels, run, c)
            && Calls(channels, run, c) + InHand(s.loop, c) + s.chans[c].queue == Enqueues(channels, run, c)
  {
    if run != [] {
      var front := run[..|run| - 1];
      CallsFollowEnqueues(channels, front, c);
      RunKeepsInv(channels, front);
      StepWritesHistory(Exec(Init(channels), front).value, run[|run| - 1], c);
    }
    DeliveryIsFifo(channels, run, c);
  }

  /** Nothing is owed: every producer has returned, and on every channel the items delivered are those
      enqueued, in order, each as often as events brought it. */
  ghost predicate NothingOwed(s: State) {
    && s.loop.Idle?
    && (forall p :: p in s.producers ==> s.producers[p].pc.Done?)
    && (forall c :: c in s.chans ==> s.chans[c].delivered == s.chans[c].enqueued)
    && (forall c, item :: c in s.chans ==>
          multiset(s.chans[c].delivered)[item] == |Bringers(s.producers, c, item)|)
  }

  /** From every reachable state, once no new events arrive, every run ends; and where it ends, every
      event that ever arrived has been delivered exactly once, with its own item, in the order of the
      queue. */
  lemma EverythingIsDelivered(channels: set<Chan>, prefix: seq<Action>, run: seq<Action>)
    requires Exec(Init(channels), prefix).Some? && Exec(Exec(Init(channels), prefix).value, run).Some?
    requires forall k :: 0 <= k < |run| ==> !run[k].NewProducer?
    ensures var s := Exec(Init(channels), prefix).value; var s' := Exec(s, run).value;
            && |run| <= Measure(s)
            && (Stuck(s') ==>
                  && NothingOwed(s')
                  && forall c, item :: c in s'.chans ==>
                       multiset(s'.chans[c].delivered)[item] == Arrivals(prefix + run, c, item))
  {
    RunKeepsInv(channels, prefix);
    var s := Exec(Init(channels), prefix).value;
    QuietRunsAreBounded(s, run);
    var s' := Exec(s, run).value;
    if Stuck(s') {
      forall c, item ensures CountedOnce(s', c, item) {
        assert Enqueuers(Init(channels).producers, c, item) == {};
        RunKeepsCount(Init(channels), prefix, c, item);
        RunKeepsCount(s, run, c, item);
      }
      StuckOwesNothing(s');
      forall c, item | c in s'.chans
        ensures multiset(s'.chans[c].delivered)[item] == Arrivals(prefix + run, c, item)
      {
        ArrivalsAreBringers(channels, prefix, c, item);
        QuietRunKeepsBringers(s, run, c, item);
        NoneArrive(prefix, run, c, item);
      }
    }
  }

  lemma StuckOwesNothing(s: State)
    requires Inv(s) && Stuck(s) && forall c, item :: CountedOnce(s, c, item)
    ensures NothingOwed(s)
  {
    StuckLoopIsIdle(s);
    forall p | p in s.producers ensures s.producers[p].pc.Done? { StuckProducersDone(s, p); }
    forall c | c in s.chans ensures s.chans[c].delivered == s.chans[c].enqueued { StuckChannelDelivered(s, c); }
    forall c, item | c in s.chans
      ensures multiset(s.chans[c].delivered)[item] == |Bringers(s.producers, c, item)|
    { StuckCount(s, c, item); }
  }
}
