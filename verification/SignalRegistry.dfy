/** The map from C signal handlers to reference-counted C++ wrappers.

    Wrappers are deleted explicitly, so each carries whether it is still live; the hidden core
    bus is the multiset of registrations it holds for each wrapper, live or not. */
module SignalRegistry {
  import opened Common

  type Handler = nat        // alljoyn_messagereceiver_signalhandler_ptr
  type Member = nat         // const InterfaceDescription::Member*
  type WrapperId = nat
  type CoreKey = int

  /** What a caller names besides the member: a source path (possibly NULL) or a canonical rule. */
  datatype Qualifier = Path(path: Option<string>) | Canonical(rule: string)

  datatype Subscription = Subscription(member: Member, qualifier: string)

  /** The wrapper's own record of a registration: NULL and "" are the same, and so are a path
      and a rule that are spelled alike. */
  function Sub(m: Member, q: Qualifier): Subscription {
    match q
    case Path(path) => Subscription(m, if path.Some? then path.value else "")
    case Canonical(rule) => Subscription(m, rule)
  }

  /** A SignalHandlerC object, and what the core bus holds for it. */
  datatype Wrapper = Wrapper(handler: Handler, live: bool, subs: multiset<Subscription>, regs: multiset<CoreKey>)

  datatype RuleResult = ValidRule(canonical: string) | InvalidRule(status: Status)

  /** The parts of the core the registry relies on: the rule parser, and which registrations the
      core takes to be the same one. */
  datatype Core = Core(parse: string -> RuleResult, key: (Member, Qualifier) -> CoreKey)

  datatype Registry = Registry(
    handlers: map<Handler, WrapperId>,                  // signalHandlerMap
    wrappers: map<WrapperId, Wrapper>,                  // every SignalHandlerC ever created
    next: WrapperId)

  /** An API call together with the replies of the core it meets. */
  datatype Op =
    | Register(h: Handler, m: Member, srcPath: Option<string>, reply: Status)
    | RegisterWithRule(h: Handler, m: Member, text: string, reply: Status)
    | Unregister(h: Handler, m: Member, srcPath: Option<string>, refusal: Status)
    | UnregisterWithRule(h: Handler, m: Member, text: string, refusal: Status)
    | UnregisterAll(kept: set<Handler>)                 // for whose wrappers the core keeps registrations

  /** What a call comes down to once its rule has been parsed. */
  datatype Request =
    | Adds(h: Handler, m: Member, q: Qualifier, reply: Status)
    | Drops(h: Handler, m: Member, q: Qualifier, refusal: Status)
    | Rejected(status: Status)
    | Clears(kept: set<Handler>)

  function Resolve(env: Core, op: Op): Request {
    match op
    case Register(h, m, srcPath, reply) => Adds(h, m, Path(srcPath), reply)
    case Unregister(h, m, srcPath, refusal) => Drops(h, m, Path(srcPath), refusal)
    case RegisterWithRule(h, m, text, reply) =>
      (match env.parse(text)
       case ValidRule(c) => Adds(h, m, Canonical(c), reply)
       case InvalidRule(e) => Rejected(e))
    case UnregisterWithRule(h, m, text, refusal) =>
      (match env.parse(text)
       case ValidRule(c) => Drops(h, m, Canonical(c), refusal)
       case InvalidRule(e) => Rejected(e))
    case UnregisterAll(kept) => Clears(kept)
  }

  // ---------------------------------------------------------------- the operations, on values

  /** The map holds exactly the live wrappers, each under its own handler. */
  ghost predicate WellKeyed(s: Registry) {
    && (forall h :: h in s.handlers ==>
          var w := s.handlers[h]; w in s.wrappers && s.wrappers[w].live && s.wrappers[w].handler == h)
    && (forall w :: w in s.wrappers && s.wrappers[w].live ==>
          var h := s.wrappers[w].handler; h in s.handlers && s.handlers[h] == w)
    && (forall w :: w in s.wrappers ==> w < s.next)
  }

  /** A wrapper is live only while it has subscriptions, and the core holds no more registrations than
      a live wrapper has subscriptions. */
  predicate Counted(x: Wrapper) {
    x.live ==> x.subs != multiset{} && |x.regs| <= |x.subs|
  }

  /** The wrapper has been deleted and the core still calls it. */
  predicate Orphaned(x: Wrapper) { !x.live && x.regs != multiset{} }

  ghost predicate Inv(s: Registry) {
    WellKeyed(s) && forall w :: w in s.wrappers ==> Counted(s.wrappers[w])
  }

  function Init(): Registry { Registry(map[], map[], 0) }

  /** A new wrapper: no subscriptions and no registrations. */
  function NoWrapper(h: Handler): Wrapper { Wrapper(h, true, multiset{}, multiset{}) }

  /** The wrapper of a handler; for a handler without one, what a new one would be. */
  function Find(s: Registry, h: Handler): Wrapper {
    if h in s.handlers && s.handlers[h] in s.wrappers then s.wrappers[s.handlers[h]] else NoWrapper(h)
  }

  function FindOrCreate(s: Registry, h: Handler): Registry {
    if h in s.handlers then s
    else Registry(s.handlers[h := s.next], s.wrappers[s.next := NoWrapper(h)], s.next + 1)
  }

  /** AddSubscription, then the core's answer: the subscription stays even if the core refuses. */
  function Subscribed(env: Core, x: Wrapper, m: Member, q: Qualifier, reply: Status): Wrapper {
    x.(subs := x.subs + multiset{Sub(m, q)},
       regs := if reply == ER_OK then x.regs + multiset{env.key(m, q)} else x.regs)
  }

  function Add(env: Core, s: Registry, h: Handler, m: Member, q: Qualifier, reply: Status): Registry {
    var t := FindOrCreate(s, h);
    t.(wrappers := t.wrappers[t.handlers[h] := Subscribed(env, Find(t, h), m, q, reply)])
  }

  /** The core gives a registration up, RemoveSubscription takes one away if there is one, and
      the wrapper is deleted when none is left. */
  function Unsubscribed(env: Core, x: Wrapper, m: Member, q: Qualifier): Wrapper {
    var subs := x.subs - multiset{Sub(m, q)};
    x.(subs := subs, regs := x.regs - multiset{env.key(m, q)}, live := subs != multiset{})
  }

  /** What is left of it, seen from its handler. */
  function Remaining(env: Core, x: Wrapper, m: Member, q: Qualifier, h: Handler): Wrapper {
    var y := Unsubscribed(env, x, m, q);
    if y.live then y else NoWrapper(h)
  }

  /** The core has a registration to give up. */
  predicate CoreHas(env: Core, s: Registry, h: Handler, m: Member, q: Qualifier) {
    h in s.handlers && s.handlers[h] in s.wrappers && env.key(m, q) in s.wrappers[s.handlers[h]].regs
  }

  function Drop(env: Core, s: Registry, h: Handler, m: Member, q: Qualifier): Registry {
    if !CoreHas(env, s, h, m, q) then s else
      var w := s.handlers[h];
      var x := Unsubscribed(env, s.wrappers[w], m, q);
      s.(handlers := if x.live then s.handlers else s.handlers - {h}, wrappers := s.wrappers[w := x])
  }

  function DropStatus(env: Core, s: Registry, h: Handler, m: Member, q: Qualifier, refusal: Status): Status {
    if h !in s.handlers then ER_FAIL else if CoreHas(env, s, h, m, q) then ER_OK else refusal
  }

  /** Every live wrapper is deleted, and its registrations are given up unless the core keeps them. */
  function Deleted(x: Wrapper, kept: set<Handler>): Wrapper {
    if !x.live then x else x.(live := false, regs := if x.handler in kept then x.regs else multiset{})
  }

  function Clear(s: Registry, kept: set<Handler>): Registry {
    Registry(map[], map w | w in s.wrappers :: Deleted(s.wrappers[w], kept), s.next)
  }

  function Apply(env: Core, s: Registry, r: Request): Registry {
    match r
    case Adds(h, m, q, reply) => Add(env, s, h, m, q, reply)
    case Drops(h, m, q, _) => Drop(env, s, h, m, q)
    case Rejected(_) => s
    case Clears(kept) => Clear(s, kept)
  }

  // ---------------------------------------------------------------- every operation keeps the invariant

  lemma WrapperChanges(s: Registry, w: WrapperId, x: Wrapper)
    requires WellKeyed(s) && w in s.wrappers && x.handler == s.wrappers[w].handler && x.live == s.wrappers[w].live
    ensures WellKeyed(s.(wrappers := s.wrappers[w := x]))
  {
  }

  lemma WrapperDies(s: Registry, h: Handler, x: Wrapper)
    requires WellKeyed(s) && h in s.handlers && x.handler == h && !x.live
    ensures WellKeyed(s.(handlers := s.handlers - {h}, wrappers := s.wrappers[s.handlers[h] := x]))
  {
  }

  lemma WrapperIsBorn(s: Registry, h: Handler)
    requires WellKeyed(s)
    ensures WellKeyed(FindOrCreate(s, h)) && h in FindOrCreate(s, h).handlers
    ensures FindOrCreate(s, h).handlers[h] in FindOrCreate(s, h).wrappers
  {
  }

  lemma SubscribedCounted(env: Core, x: Wrapper, m: Member, q: Qualifier, reply: Status)
    requires x.live && |x.regs| <= |x.subs|
    ensures Counted(Subscribed(env, x, m, q, reply))
  {
  }

  lemma AddKeepsInv(env: Core, s: Registry, h: Handler, m: Member, q: Qualifier, reply: Status)
    requires Inv(s)
    ensures Inv(Add(env, s, h, m, q, reply))
  {
    var t, s' := FindOrCreate(s, h), Add(env, s, h, m, q, reply);
    WrapperIsBorn(s, h);
    var w := t.handlers[h];
    var x := Subscribed(env, t.wrappers[w], m, q, reply);
    WrapperChanges(t, w, x);
    forall v | v in s'.wrappers ensures Counted(s'.wrappers[v]) {
      if v == w {
        assert h in s.handlers ==> Counted(s.wrappers[w]);
        SubscribedCounted(env, t.wrappers[w], m, q, reply);
      } else {
        assert s'.wrappers[v] == s.wrappers[v];
      }
    }
  }

  /** When the last subscription goes, the last registration has gone with it. */
  lemma UnsubscribedCounted(env: Core, x: Wrapper, m: Member, q: Qualifier)
    requires Counted(x) && x.live && env.key(m, q) in x.regs
    ensures Counted(Unsubscribed(env, x, m, q)) && !Orphaned(Unsubscribed(env, x, m, q))
  {
    var subs, regs := x.subs - multiset{Sub(m, q)}, x.regs - multiset{env.key(m, q)};
    assert |regs| == |x.regs| - 1;
    assert |subs| >= |x.subs| - 1;
    if subs == multiset{} { assert |regs| == 0; }
  }

  lemma DropKeepsInv(env: Core, s: Registry, h: Handler, m: Member, q: Qualifier)
    requires Inv(s)
    ensures Inv(Drop(env, s, h, m, q))
  {
    if CoreHas(env, s, h, m, q) {
      var w := s.handlers[h];
      var x := Unsubscribed(env, s.wrappers[w], m, q);
      UnsubscribedCounted(env, s.wrappers[w], m, q);
      if x.live { WrapperChanges(s, w, x); } else { WrapperDies(s, h, x); }
    }
  }

  lemma ClearKeepsInv(s: Registry, kept: set<Handler>)
    requires Inv(s)
    ensures Inv(Clear(s, kept))
  {
  }

  lemma ApplyKeepsInv(env: Core, s: Registry, r: Request)
    requires Inv(s)
    ensures Inv(Apply(env, s, r))
  {
    match r
    case Adds(h, m, q, reply) => AddKeepsInv(env, s, h, m, q, reply);
    case Drops(h, m, q, _) => DropKeepsInv(env, s, h, m, q);
    case Rejected(_) =>
    case Clears(kept) => ClearKeepsInv(s, kept);
  }

  /** The registry after a sequence of calls. */
  function Run(env: Core, s: Registry, ops: seq<Op>): Registry {
    if ops == [] then s
    else Apply(env, Run(env, s, ops[..|ops| - 1]), Resolve(env, ops[|ops| - 1]))
  }

  /** Over every sequence of calls and whatever the core replies, the map holds exactly the live
      wrappers, and a live wrapper's subscriptions never number fewer than its registrations. */
  lemma {:induction false} RunKeepsInv(env: Core, ops: seq<Op>)
    ensures Inv(Run(env, Init(), ops))
  {
    if ops != [] {
      RunKeepsInv(env, ops[..|ops| - 1]);
      ApplyKeepsInv(env, Run(env, Init(), ops[..|ops| - 1]), Resolve(env, ops[|ops| - 1]));
    }
  }

  // ---------------------------------------------------------------- registrations that outlive their wrapper

  ghost predicate AnyOrphan(s: Registry) { exists w :: w in s.wrappers && Orphaned(s.wrappers[w]) }

  /** UnregisterAll meets a handler with registrations that the core will not give up. */
  ghost predicate Strands(s: Registry, kept: set<Handler>) {
    exists h :: h in kept && h in s.handlers && s.handlers[h] in s.wrappers
                && s.wrappers[s.handlers[h]].regs != multiset{}
  }

  lemma LiveChangeKeepsOrphans(s: Registry, w: WrapperId, x: Wrapper, handlers: map<Handler, WrapperId>,
                               next: WrapperId)
    requires !Orphaned(x) && (w in s.wrappers ==> !Orphaned(s.wrappers[w]))
    ensures AnyOrphan(Registry(handlers, s.wrappers[w := x], next)) <==> AnyOrphan(s)
  {
    var s' := Registry(handlers, s.wrappers[w := x], next);
    if AnyOrphan(s) {
      var v :| v in s.wrappers && Orphaned(s.wrappers[v]);
      assert v in s'.wrappers && s'.wrappers[v] == s.wrappers[v];
    }
    if AnyOrphan(s') {
      var v :| v in s'.wrappers && Orphaned(s'.wrappers[v]);
      assert v in s.wrappers && s'.wrappers[v] == s.wrappers[v];
    }
  }

  lemma AddKeepsOrphans(env: Core, s: Registry, h: Handler, m: Member, q: Qualifier, reply: Status)
    requires WellKeyed(s)
    ensures AnyOrphan(Add(env, s, h, m, q, reply)) <==> AnyOrphan(s)
  {
    var t, s' := FindOrCreate(s, h), Add(env, s, h, m, q, reply);
    WrapperIsBorn(s, h);
    var w := t.handlers[h];
    assert s'.wrappers == s.wrappers[w := s'.wrappers[w]];
    LiveChangeKeepsOrphans(s, w, s'.wrappers[w], s'.handlers, s'.next);
  }

  lemma DropKeepsOrphans(env: Core, s: Registry, h: Handler, m: Member, q: Qualifier)
    requires Inv(s)
    ensures AnyOrphan(Drop(env, s, h, m, q)) <==> AnyOrphan(s)
  {
    if CoreHas(env, s, h, m, q) {
      var s', w := Drop(env, s, h, m, q), s.handlers[h];
      UnsubscribedCounted(env, s.wrappers[w], m, q);
      LiveChangeKeepsOrphans(s, w, s'.wrappers[w], s'.handlers, s'.next);
    }
  }

  lemma ClearMakesOrphans(s: Registry, kept: set<Handler>)
    requires WellKeyed(s)
    ensures AnyOrphan(Clear(s, kept)) <==> AnyOrphan(s) || Strands(s, kept)
  {
    var s' := Clear(s, kept);
    if AnyOrphan(s) {
      var w :| w in s.wrappers && Orphaned(s.wrappers[w]);
      assert w in s'.wrappers && Orphaned(s'.wrappers[w]);
    }
    if Strands(s, kept) {
      var h :| h in kept && h in s.handlers && s.wrappers[s.handlers[h]].regs != multiset{};
      assert s.handlers[h] in s'.wrappers && Orphaned(s'.wrappers[s.handlers[h]]);
    }
    if AnyOrphan(s') {
      var w :| w in s'.wrappers && Orphaned(s'.wrappers[w]);
      assert s.wrappers[w].live || Orphaned(s.wrappers[w]);
    }
  }

  lemma OrphansStep(env: Core, s: Registry, r: Request)
    requires Inv(s)
    ensures AnyOrphan(Apply(env, s, r)) <==> AnyOrphan(s) || (r.Clears? && Strands(s, r.kept))
  {
    match r
    case Adds(h, m, q, reply) => AddKeepsOrphans(env, s, h, m, q, reply);
    case Drops(h, m, q, _) => DropKeepsOrphans(env, s, h, m, q);
    case Rejected(_) =>
    case Clears(kept) => ClearMakesOrphans(s, kept);
  }

  /** The i-th call is such an UnregisterAll. */
  ghost predicate StrandsAt(env: Core, ops: seq<Op>, i: nat)
    requires i < |ops|
  {
    ops[i].UnregisterAll? && Strands(Run(env, Init(), ops[..i]), ops[i].kept)
  }

  ghost predicate StrandsSome(env: Core, ops: seq<Op>) {
    exists i :: 0 <= i < |ops| && StrandsAt(env, ops, i)
  }

  lemma StrandsSnoc(env: Core, front: seq<Op>, op: Op)
    ensures StrandsSome(env, front + [op]) <==>
            StrandsSome(env, front) || (op.UnregisterAll? && Strands(Run(env, Init(), front), op.kept))
  {
    var ops := front + [op];
    assert ops[..|front|] == front;
    assert forall i :: 0 <= i < |front| ==> ops[..i] == front[..i] && ops[i] == front[i];
    assert forall i :: 0 <= i < |front| ==> StrandsAt(env, ops, i) == StrandsAt(env, front, i);
    assert StrandsAt(env, ops, |front|) == (op.UnregisterAll? && Strands(Run(env, Init(), front), op.kept));
  }

  /** Over every sequence of calls and replies, and any aliasing of paths and rules: the core holds a
      registration for a deleted wrapper if and only if it kept one when an UnregisterAll asked for it
      back.  No single unregister ever deletes a wrapper that is still in use. */
  lemma {:induction false} RegistrationOutlivesItsWrapperIff(env: Core, ops: seq<Op>)
    ensures AnyOrphan(Run(env, Init(), ops)) <==> StrandsSome(env, ops)
  {
    if ops != [] {
      var front, op := ops[..|ops| - 1], ops[|ops| - 1];
      RegistrationOutlivesItsWrapperIff(env, front);
      RunKeepsInv(env, front);
      OrphansStep(env, Run(env, Init(), front), Resolve(env, op));
      assert front + [op] == ops;
      StrandsSnoc(env, front, op);
      ResolveClears(env, op);
    }
  }

  lemma ResolveClears(env: Core, op: Op)
    ensures Resolve(env, op).Clears? <==> op.UnregisterAll?
    ensures op.UnregisterAll? ==> Resolve(env, op).kept == op.kept
  {
  }

  // ---------------------------------------------------------------- the registry seen from one handler

  lemma FindAfterAdd(env: Core, s: Registry, h: Handler, m: Member, q: Qualifier, reply: Status, k: Handler)
    requires WellKeyed(s)
    ensures Find(Add(env, s, h, m, q, reply), k)
            == if k == h then Subscribed(env, Find(s, h), m, q, reply) else Find(s, k)
    ensures k in Add(env, s, h, m, q, reply).handlers <==> k == h || k in s.handlers
  {
    WrapperIsBorn(s, h);
    if k == h {
      FindOwnAfterAdd(env, s, h, m, q, reply);
    } else {
      FindOtherAfterAdd(env, s, h, m, q, reply, k);
    }
  }

  lemma FindOwnAfterAdd(env: Core, s: Registry, h: Handler, m: Member, q: Qualifier, reply: Status)
    requires h in s.handlers ==> s.handlers[h] in s.wrappers
    ensures Find(Add(env, s, h, m, q, reply), h) == Subscribed(env, Find(s, h), m, q, reply)
  {
  }

  lemma FindOtherAfterAdd(env: Core, s: Registry, h: Handler, m: Member, q: Qualifier, reply: Status, k: Handler)
    requires k != h && (h in s.handlers ==> s.handlers[h] in s.wrappers)
    requires k in s.handlers ==>
               s.handlers[k] != s.next && (h in s.handlers ==> s.handlers[h] != s.handlers[k])
    ensures Find(Add(env, s, h, m, q, reply), k) == Find(s, k)
  {
  }

  lemma FindAfterDrop(env: Core, s: Registry, h: Handler, m: Member, q: Qualifier)
    requires WellKeyed(s) && CoreHas(env, s, h, m, q)
    ensures Find(Drop(env, s, h, m, q), h) == Remaining(env, Find(s, h), m, q, h)
  {
  }

  lemma FindOtherAfterDrop(env: Core, s: Registry, h: Handler, m: Member, q: Qualifier, k: Handler)
    requires WellKeyed(s) && (k != h || !CoreHas(env, s, h, m, q))
    ensures Find(Drop(env, s, h, m, q), k) == Find(s, k)
  {
    if CoreHas(env, s, h, m, q) {
      var s' := Drop(env, s, h, m, q);
      assert k in s'.handlers <==> k in s.handlers;
      if k in s.handlers {
        assert s.handlers[k] != s.handlers[h] && s'.handlers[k] == s.handlers[k];
      }
    }
  }

  // ---------------------------------------------------------------- refused registrations

  /** Subscriptions that no registration stands behind. */
  function Slack(x: Wrapper): int { |x.subs| - |x.regs| }

  lemma SubscribedSlack(env: Core, x: Wrapper, m: Member, q: Qualifier, reply: Status)
    ensures Slack(Subscribed(env, x, m, q, reply)) == Slack(x) + (if reply == ER_OK then 0 else 1)
  {
  }

  lemma UnsubscribedSlack(env: Core, x: Wrapper, m: Member, q: Qualifier)
    requires env.key(m, q) in x.regs
    ensures Slack(Unsubscribed(env, x, m, q)) >= Slack(x)
    ensures !Unsubscribed(env, x, m, q).live ==> Slack(x) <= 0
  {
    assert |x.regs - multiset{env.key(m, q)}| == |x.regs| - 1;
    assert |x.subs - multiset{Sub(m, q)}| >= |x.subs| - 1;
  }

  /** Slack is never worked off ... */
  lemma SlackNeverShrinks(env: Core, s: Registry, r: Request, h: Handler)
    requires WellKeyed(s) && !r.Clears?
    ensures Slack(Find(Apply(env, s, r), h)) >= Slack(Find(s, h))
  {
    match r
    case Adds(k, m, q, reply) =>
      FindAfterAdd(env, s, k, m, q, reply, h);
      SubscribedSlack(env, Find(s, k), m, q, reply);
    case Drops(k, m, q, _) =>
      if h == k && CoreHas(env, s, k, m, q) {
        FindAfterDrop(env, s, k, m, q);
        UnsubscribedSlack(env, Find(s, k), m, q);
      } else {
        FindOtherAfterDrop(env, s, k, m, q, h);
      }
    case Rejected(_) =>
  }

  lemma OneCallKeepsSlack(env: Core, s: Registry, op: Op, h: Handler)
    requires Inv(s) && !op.UnregisterAll?
    ensures var s' := Apply(env, s, Resolve(env, op)); Inv(s') && Slack(Find(s', h)) >= Slack(Find(s, h))
  {
    ApplyKeepsInv(env, s, Resolve(env, op));
    SlackNeverShrinks(env, s, Resolve(env, op), h);
  }

  lemma {:induction false} SlackNeverShrinksInRuns(env: Core, s: Registry, ops: seq<Op>, h: Handler)
    requires Inv(s) && forall i :: 0 <= i < |ops| ==> !ops[i].UnregisterAll?
    ensures Inv(Run(env, s, ops)) && Slack(Find(Run(env, s, ops), h)) >= Slack(Find(s, h))
  {
    if ops != [] {
      var front, op := ops[..|ops| - 1], ops[|ops| - 1];
      SlackNeverShrinksInRuns(env, s, front, h);
      OneCallKeepsSlack(env, Run(env, s, front), op, h);
    }
  }

  /** ... so once the core has refused a registration, the handler keeps a wrapper that no
      sequence of unregisters can remove; only UnregisterAll does. */
  lemma RefusedRegistrationIsNeverRemoved(env: Core, before: seq<Op>, refused: Op, after: seq<Op>, h: Handler)
    requires IsRefused(env, refused, h)
    requires forall i :: 0 <= i < |after| ==> !after[i].UnregisterAll?
    ensures h in Run(env, Init(), before + [refused] + after).handlers
  {
    var r, s := Resolve(env, refused), Run(env, Init(), before);
    RunKeepsInv(env, before);
    RefusalAddsSlack(env, s, r.h, r.m, r.q, r.reply);
    ApplyKeepsInv(env, s, r);
    SlackNeverShrinksInRuns(env, Apply(env, s, r), after, h);
    RunSnoc(env, before, refused);
    RunConcat(env, before + [refused], after);
  }

  lemma {:induction false} RunConcat(env: Core, a: seq<Op>, b: seq<Op>)
    ensures Run(env, Init(), a + b) == Run(env, Run(env, Init(), a), b)
  {
    if b == [] {
      assert a + b == a;
    } else {
      assert (a + b)[..|a + b| - 1] == a + b[..|b| - 1];
      RunConcat(env, a, b[..|b| - 1]);
    }
  }

  lemma RefusalAddsSlack(env: Core, s: Registry, h: Handler, m: Member, q: Qualifier, reply: Status)
    requires Inv(s) && reply != ER_OK
    ensures Slack(Find(Add(env, s, h, m, q, reply), h)) >= 1
  {
    FindAfterAdd(env, s, h, m, q, reply, h);
    SubscribedSlack(env, Find(s, h), m, q, reply);
    SlackIsNat(s, h);
  }

  lemma SlackIsNat(s: Registry, h: Handler)
    requires Inv(s)
    ensures Slack(Find(s, h)) >= 0
  {
  }

  // ---------------------------------------------------------------- exact reference counts

  ghost predicate Askable(env: Core, key: CoreKey) { exists m, q :: env.key(m, q) == key }

  /** The core holds only registrations that a caller can name. */
  ghost predicate AllAskable(env: Core, x: Wrapper) {
    forall key :: key in x.regs ==> Askable(env, key)
  }

  lemma SubscribedAskable(env: Core, x: Wrapper, m: Member, q: Qualifier, reply: Status)
    requires AllAskable(env, x)
    ensures AllAskable(env, Subscribed(env, x, m, q, reply))
  {
    forall key | key in Subscribed(env, x, m, q, reply).regs ensures Askable(env, key) {
      assert key in x.regs || key == env.key(m, q);
    }
  }

  lemma RemainingAskable(env: Core, x: Wrapper, m: Member, q: Qualifier, h: Handler)
    requires AllAskable(env, x)
    ensures AllAskable(env, Remaining(env, x, m, q, h))
  {
    forall key | key in Remaining(env, x, m, q, h).regs ensures Askable(env, key) {
      assert key in x.regs;
    }
  }

  lemma ApplyKeepsAskable(env: Core, s: Registry, r: Request, h: Handler)
    requires WellKeyed(s) && AllAskable(env, Find(s, h))
    ensures AllAskable(env, Find(Apply(env, s, r), h))
  {
    match r
    case Adds(k, m, q, reply) =>
      FindAfterAdd(env, s, k, m, q, reply, h);
      if h == k { SubscribedAskable(env, Find(s, h), m, q, reply); }
    case Drops(k, m, q, _) =>
      if h == k && CoreHas(env, s, k, m, q) {
        FindAfterDrop(env, s, k, m, q);
        RemainingAskable(env, Find(s, h), m, q, h);
      } else {
        FindOtherAfterDrop(env, s, k, m, q, h);
      }
    case Rejected(_) =>
    case Clears(_) =>
  }

  lemma {:induction false} RunIsAskable(env: Core, ops: seq<Op>, h: Handler)
    ensures AllAskable(env, Find(Run(env, Init(), ops), h))
  {
    if ops != [] {
      var front, r := ops[..|ops| - 1], Resolve(env, ops[|ops| - 1]);
      RunIsAskable(env, front, h);
      RunKeepsInv(env, front);
      ApplyKeepsAskable(env, Run(env, Init(), front), r, h);
    }
  }

  /** What a caller can tally, from calls and their statuses, of one call for one handler: how often its
      subscription is held, where a successful unregister takes one away if there is one; and accepted
      registers minus successful unregisters of what the core takes for the same call. */
  datatype Tally = Tally(asked: int, accepted: int)

  function RetallyRequest(env: Core, r: Request, status: Status, h: Handler, m: Member, q: Qualifier, t: Tally): Tally {
    match r
    case Adds(k, m', q', _) =>
      if k != h then t else
        Tally(t.asked + (if Sub(m', q') == Sub(m, q) then 1 else 0),
              t.accepted + (if env.key(m', q') == env.key(m, q) && status == ER_OK then 1 else 0))
    case Drops(k, m', q', _) =>
      if k != h || status != ER_OK then t else Less(env, t, m', q', m, q)
    case Rejected(_) => t
    case Clears(_) => Tally(0, 0)
  }

  /** After one unregister of (m', q') has succeeded. */
  function Less(env: Core, t: Tally, m': Member, q': Qualifier, m: Member, q: Qualifier): Tally {
    Tally(t.asked - (if Sub(m', q') == Sub(m, q) && t.asked > 0 then 1 else 0),
          t.accepted - (if env.key(m', q') == env.key(m, q) then 1 else 0))
  }

  /** The status of a call; that of UnregisterAll depends on replies that play no part in the tallies. */
  function CallStatus(env: Core, s: Registry, r: Request): Status {
    match r
    case Adds(_, _, _, reply) => reply
    case Drops(h, m, q, refusal) => DropStatus(env, s, h, m, q, refusal)
    case Rejected(status) => status
    case Clears(_) => ER_OK
  }

  /** After one register of (m', q') for the handler. */
  function More(env: Core, t: Tally, status: Status, m': Member, q': Qualifier, m: Member, q: Qualifier): Tally {
    Tally(t.asked + (if Sub(m', q') == Sub(m, q) then 1 else 0),
          t.accepted + (if env.key(m', q') == env.key(m, q) && status == ER_OK then 1 else 0))
  }

  /** What a caller adds to the tally of (m, q) for `h`, from the arguments and the status of a call. */
  function Retally(env: Core, op: Op, status: Status, h: Handler, m: Member, q: Qualifier, t: Tally): Tally {
    match op
    case Register(k, m', srcPath, _) => if k == h then More(env, t, status, m', Path(srcPath), m, q) else t
    case RegisterWithRule(k, m', text, _) =>
      if k == h && env.parse(text).ValidRule?
      then More(env, t, status, m', Canonical(env.parse(text).canonical), m, q) else t
    case Unregister(k, m', srcPath, _) =>
      if k == h && status == ER_OK then Less(env, t, m', Path(srcPath), m, q) else t
    case UnregisterWithRule(k, m', text, _) =>
      if k == h && env.parse(text).ValidRule? && status == ER_OK
      then Less(env, t, m', Canonical(env.parse(text).canonical), m, q) else t
    case UnregisterAll(_) => Tally(0, 0)
  }

  lemma RetallyResolves(env: Core, op: Op, status: Status, h: Handler, m: Member, q: Qualifier, t: Tally)
    ensures Retally(env, op, status, h, m, q, t) == RetallyRequest(env, Resolve(env, op), status, h, m, q, t)
  {
  }

  /** What a call answers in a state. */
  function Answer(env: Core, s: Registry, op: Op): Status { CallStatus(env, s, Resolve(env, op)) }

  /** The tally of a whole run; UnregisterAll starts it anew. */
  function Balance(env: Core, ops: seq<Op>, h: Handler, m: Member, q: Qualifier): Tally {
    if ops == [] then Tally(0, 0) else
      var front, op := ops[..|ops| - 1], ops[|ops| - 1];
      Retally(env, op, Answer(env, Run(env, Init(), front), op), h, m, q, Balance(env, front, h, m, q))
  }

  /** The core's refusals are not ER_OK. */
  predicate Refusing(r: Request) { r.Drops? ==> r.refusal != ER_OK }

  predicate Refuses(env: Core, op: Op) {
    && (op.Unregister? ==> op.refusal != ER_OK)
    && (op.UnregisterWithRule? && env.parse(op.text).ValidRule? ==> op.refusal != ER_OK)
  }

  lemma RefusesResolves(env: Core, op: Op)
    requires Refuses(env, op)
    ensures Refusing(Resolve(env, op))
  {
  }

  ghost predicate AllRefused(env: Core, ops: seq<Op>) {
    forall i :: 0 <= i < |ops| ==> Refuses(env, ops[i])
  }

  /** What a wrapper, and the core for it, hold of one call. */
  function Held(env: Core, x: Wrapper, m: Member, q: Qualifier): Tally {
    Tally(x.subs[Sub(m, q)], x.regs[env.key(m, q)])
  }

  lemma CountStep(env: Core, s: Registry, r: Request, h: Handler, m: Member, q: Qualifier)
    requires Inv(s) && Refusing(r)
    ensures Held(env, Find(Apply(env, s, r), h), m, q)
            == RetallyRequest(env, r, CallStatus(env, s, r), h, m, q, Held(env, Find(s, h), m, q))
  {
    match r
    case Adds(_, _, _, _) => AddCount(env, s, r, h, m, q);
    case Drops(_, _, _, _) => DropCount(env, s, r, h, m, q);
    case Rejected(_) =>
    case Clears(_) =>
  }

  lemma SubscribedCount(env: Core, x: Wrapper, r: Request, m: Member, q: Qualifier)
    requires r.Adds?
    ensures Held(env, Subscribed(env, x, r.m, r.q, r.reply), m, q)
            == RetallyRequest(env, r, r.reply, r.h, m, q, Held(env, x, m, q))
  {
  }

  lemma AddCount(env: Core, s: Registry, r: Request, h: Handler, m: Member, q: Qualifier)
    requires WellKeyed(s) && r.Adds?
    ensures Held(env, Find(Add(env, s, r.h, r.m, r.q, r.reply), h), m, q)
            == RetallyRequest(env, r, r.reply, h, m, q, Held(env, Find(s, h), m, q))
  {
    FindAfterAdd(env, s, r.h, r.m, r.q, r.reply, h);
    SubscribedCount(env, Find(s, r.h), r, m, q);
  }

  lemma OneTaken<T>(s: multiset<T>, a: T, b: T)
    ensures (s - multiset{a})[b] == s[b] - if a == b && s[b] > 0 then 1 else 0
  {
  }

  /** A successful unregister takes one registration, and one subscription if there is one ... */
  lemma UnsubscribedHeld(env: Core, x: Wrapper, m': Member, q': Qualifier, m: Member, q: Qualifier)
    requires env.key(m', q') in x.regs
    ensures Held(env, Unsubscribed(env, x, m', q'), m, q) == Less(env, Held(env, x, m, q), m', q', m, q)
  {
    OneTaken(x.subs, Sub(m', q'), Sub(m, q));
    OneTaken(x.regs, env.key(m', q'), env.key(m, q));
  }

  /** ... and a wrapper it deletes held nothing else. */
  lemma UnsubscribedCount(env: Core, x: Wrapper, m': Member, q': Qualifier, h: Handler, m: Member, q: Qualifier)
    requires Counted(x) && x.live && env.key(m', q') in x.regs
    ensures Held(env, Remaining(env, x, m', q', h), m, q) == Less(env, Held(env, x, m, q), m', q', m, q)
  {
    UnsubscribedHeld(env, x, m', q', m, q);
    UnsubscribedCounted(env, x, m', q');
    var y := Unsubscribed(env, x, m', q');
    if !y.live {
      assert Held(env, y, m, q) == Tally(0, 0) == Held(env, NoWrapper(h), m, q);
    }
  }

  lemma DropCount(env: Core, s: Registry, r: Request, h: Handler, m: Member, q: Qualifier)
    requires Inv(s) && r.Drops? && Refusing(r)
    ensures Held(env, Find(Drop(env, s, r.h, r.m, r.q), h), m, q)
            == RetallyRequest(env, r, CallStatus(env, s, r), h, m, q, Held(env, Find(s, h), m, q))
  {
    if r.h == h && CoreHas(env, s, h, r.m, r.q) {
      FindAfterDrop(env, s, h, r.m, r.q);
      UnsubscribedCount(env, Find(s, h), r.m, r.q, h, m, q);
    } else {
      FindOtherAfterDrop(env, s, r.h, r.m, r.q, h);
    }
  }

  /** For every core, whatever it replies and whichever calls it takes for the same: a wrapper and the
      core hold of a call exactly what a caller tallies of it since the last UnregisterAll. */
  lemma {:induction false} CountIsBalance(env: Core, ops: seq<Op>, h: Handler, m: Member, q: Qualifier)
    requires AllRefused(env, ops)
    ensures Held(env, Find(Run(env, Init(), ops), h), m, q) == Balance(env, ops, h, m, q)
  {
    if ops != [] {
      var front, op := ops[..|ops| - 1], ops[|ops| - 1];
      CountIsBalance(env, front, h, m, q);
      RunKeepsInv(env, front);
      RefusesResolves(env, op);
      var s := Run(env, Init(), front);
      CountStep(env, s, Resolve(env, op), h, m, q);
      RetallyResolves(env, op, Answer(env, s, op), h, m, q, Balance(env, front, h, m, q));
    }
  }

  /** ... an unregister by a path or a rule succeeds exactly when more registers of it were accepted than
      undone; otherwise it answers ER_FAIL if the handler has no wrapper, and else the core's refusal ... */
  lemma UnregisterSucceedsIff(env: Core, ops: seq<Op>, h: Handler, m: Member, srcPath: Option<string>, text: string,
                              refusal: Status)
    requires AllRefused(env, ops) && refusal != ER_OK
    ensures var s := Run(env, Init(), ops);
            Answer(env, s, Unregister(h, m, srcPath, refusal))
            == if Balance(env, ops, h, m, Path(srcPath)).accepted > 0 then ER_OK
               else if h in s.handlers then refusal else ER_FAIL
    ensures var s, rule := Run(env, Init(), ops), env.parse(text);
            Answer(env, s, UnregisterWithRule(h, m, text, refusal))
            == if rule.InvalidRule? then rule.status
               else if Balance(env, ops, h, m, Canonical(rule.canonical)).accepted > 0 then ER_OK
               else if h in s.handlers then refusal else ER_FAIL
  {
    DropSucceedsIff(env, ops, h, m, Path(srcPath), refusal);
    if env.parse(text).ValidRule? {
      DropSucceedsIff(env, ops, h, m, Canonical(env.parse(text).canonical), refusal);
    }
  }

  lemma DropSucceedsIff(env: Core, ops: seq<Op>, h: Handler, m: Member, q: Qualifier, refusal: Status)
    requires AllRefused(env, ops)
    ensures var s := Run(env, Init(), ops);
            DropStatus(env, s, h, m, q, refusal)
            == if Balance(env, ops, h, m, q).accepted > 0 then ER_OK else if h in s.handlers then refusal else ER_FAIL
  {
    CountIsBalance(env, ops, h, m, q);
    RunKeepsInv(env, ops);
  }

  /** ... a handler has a wrapper exactly when one of its subscriptions is not balanced ... */
  lemma WrapperExistsIff(env: Core, ops: seq<Op>, h: Handler)
    requires AllRefused(env, ops)
    ensures h in Run(env, Init(), ops).handlers <==> exists m, q :: Balance(env, ops, h, m, q).asked > 0
  {
    RunKeepsInv(env, ops);
    var s := Run(env, Init(), ops);
    if h in s.handlers {
      var sub :| sub in s.wrappers[s.handlers[h]].subs;
      CountIsBalance(env, ops, h, sub.member, Canonical(sub.qualifier));
      assert Balance(env, ops, h, sub.member, Canonical(sub.qualifier)).asked > 0;
    } else if m, q :| Balance(env, ops, h, m, q).asked > 0 {
      CountIsBalance(env, ops, h, m, q);
    }
  }

  /** Two wrappers hold the same of every call. */
  ghost predicate SameHeld(env: Core, x: Wrapper, y: Wrapper) {
    forall m, q :: Held(env, x, m, q) == Held(env, y, m, q)
  }

  lemma SameHoldings(env: Core, x: Wrapper, y: Wrapper)
    requires AllAskable(env, x) && AllAskable(env, y)
    ensures SameHeld(env, x, y) <==> x.subs == y.subs && x.regs == y.regs
  {
    if SameHeld(env, x, y) {
      forall sub ensures x.subs[sub] == y.subs[sub] {
        var m, q := sub.member, Canonical(sub.qualifier);
        assert sub == Sub(m, q) && Held(env, x, m, q) == Held(env, y, m, q);
      }
      forall key ensures x.regs[key] == y.regs[key] {
        if Askable(env, key) {
          var m, q :| env.key(m, q) == key;
          assert Held(env, x, m, q) == Held(env, y, m, q);
        }
      }
    }
  }

  ghost predicate SameBalances(env: Core, before: seq<Op>, after: seq<Op>, h: Handler) {
    forall m, q :: Balance(env, after, h, m, q) == Balance(env, before, h, m, q)
  }

  lemma SameBalance(env: Core, before: seq<Op>, after: seq<Op>, h: Handler, m: Member, q: Qualifier)
    requires AllRefused(env, before) && AllRefused(env, after)
    ensures Balance(env, after, h, m, q) == Balance(env, before, h, m, q) <==>
            Held(env, Find(Run(env, Init(), before), h), m, q) == Held(env, Find(Run(env, Init(), after), h), m, q)
  {
    CountIsBalance(env, before, h, m, q);
    CountIsBalance(env, after, h, m, q);
  }

  lemma SameBalancesIff(env: Core, before: seq<Op>, after: seq<Op>, h: Handler)
    requires AllRefused(env, before) && AllRefused(env, after)
    ensures SameBalances(env, before, after, h)
            <==> SameHeld(env, Find(Run(env, Init(), before), h), Find(Run(env, Init(), after), h))
  {
    var x, y := Find(Run(env, Init(), before), h), Find(Run(env, Init(), after), h);
    if SameBalances(env, before, after, h) {
      forall m, q ensures Held(env, x, m, q) == Held(env, y, m, q) {
        SameBalance(env, before, after, h, m, q);
      }
    } else {
      var m, q :| Balance(env, after, h, m, q) != Balance(env, before, h, m, q);
      SameBalance(env, before, after, h, m, q);
    }
  }

  /** ... and calls that balance restore the registry: after any history, a further sequence of calls
      leaves a handler the subscriptions and registrations it had, if and only if the calls cancel out
      call by call; it then has a wrapper if and only if it had one. */
  lemma BalancedRunRestores(env: Core, before: seq<Op>, ops: seq<Op>, h: Handler)
    requires AllRefused(env, before + ops)
    ensures var s, s' := Run(env, Init(), before), Run(env, Init(), before + ops);
            && (SameBalances(env, before, before + ops, h)
                <==> Find(s', h).subs == Find(s, h).subs && Find(s', h).regs == Find(s, h).regs)
            && (Find(s', h).subs == Find(s, h).subs ==> (h in s'.handlers <==> h in s.handlers))
  {
    forall i | 0 <= i < |before| ensures Refuses(env, before[i]) {
      assert (before + ops)[i] == before[i];
    }
    SameBalancesIff(env, before, before + ops, h);
    RunIsAskable(env, before, h);
    RunIsAskable(env, before + ops, h);
    RunKeepsInv(env, before);
    RunKeepsInv(env, before + ops);
    SameHoldings(env, Find(Run(env, Init(), before), h), Find(Run(env, Init(), before + ops), h));
  }

  // ---------------------------------------------------------------- leftover wrappers

  function MoreStrays(r: Request, status: Status, h: Handler, held: int, n: int): int {
    match r
    case Adds(k, _, _, _) => if k == h && status != ER_OK then n + 1 else n
    case Drops(k, _, _, _) => if k == h && status == ER_OK && held == 0 then n + 1 else n
    case Rejected(_) => n
    case Clears(_) => 0
  }

  /** A refused register leaves a subscription without a registration, and so does an unregister that
      succeeds although its subscription is not held. */
  predicate IsStray(env: Core, before: seq<Op>, op: Op, status: Status, h: Handler) {
    match op
    case Register(k, _, _, _) => k == h && status != ER_OK
    case RegisterWithRule(k, _, text, _) => k == h && env.parse(text).ValidRule? && status != ER_OK
    case Unregister(k, m, srcPath, _) =>
      k == h && status == ER_OK && Balance(env, before, h, m, Path(srcPath)).asked == 0
    case UnregisterWithRule(k, m, text, _) =>
      && k == h && env.parse(text).ValidRule? && status == ER_OK
      && Balance(env, before, h, m, Canonical(env.parse(text).canonical)).asked == 0
    case UnregisterAll(_) => false
  }

  /** The strays of a handler since the last UnregisterAll, from calls and statuses. */
  function Strays(env: Core, ops: seq<Op>, h: Handler): int {
    if ops == [] || ops[|ops| - 1].UnregisterAll? then 0 else
      var front, op := ops[..|ops| - 1], ops[|ops| - 1];
      Strays(env, front, h) + if IsStray(env, front, op, Answer(env, Run(env, Init(), front), op), h) then 1 else 0
  }

  lemma StraysResolve(env: Core, front: seq<Op>, op: Op, status: Status, h: Handler, held: int, n: int)
    requires var r := Resolve(env, op); r.Drops? && r.h == h ==> held == Balance(env, front, h, r.m, r.q).asked
    ensures MoreStrays(Resolve(env, op), status, h, held, n)
            == if op.UnregisterAll? then 0 else n + if IsStray(env, front, op, status, h) then 1 else 0
  {
  }

  lemma RemainingSlack(env: Core, x: Wrapper, m: Member, q: Qualifier, h: Handler)
    requires Counted(x) && x.live && env.key(m, q) in x.regs
    ensures Slack(Remaining(env, x, m, q, h)) == Slack(x) + if Sub(m, q) in x.subs then 0 else 1
  {
    UnsubscribedCounted(env, x, m, q);
    assert |x.regs - multiset{env.key(m, q)}| == |x.regs| - 1;
    if Sub(m, q) in x.subs {
      assert |x.subs - multiset{Sub(m, q)}| == |x.subs| - 1;
    } else {
      assert x.subs - multiset{Sub(m, q)} == x.subs;
    }
  }

  lemma DropSlack(env: Core, s: Registry, r: Request, h: Handler)
    requires Inv(s) && r.Drops? && Refusing(r)
    ensures Slack(Find(Drop(env, s, r.h, r.m, r.q), h))
            == MoreStrays(r, CallStatus(env, s, r), h, Find(s, h).subs[Sub(r.m, r.q)], Slack(Find(s, h)))
  {
    if h == r.h && CoreHas(env, s, r.h, r.m, r.q) {
      FindAfterDrop(env, s, r.h, r.m, r.q);
      RemainingSlack(env, Find(s, h), r.m, r.q, h);
    } else {
      FindOtherAfterDrop(env, s, r.h, r.m, r.q, h);
    }
  }

  lemma SlackStep(env: Core, s: Registry, r: Request, h: Handler, held: int)
    requires Inv(s) && Refusing(r) && (r.Drops? ==> held == Find(s, h).subs[Sub(r.m, r.q)])
    ensures Slack(Find(Apply(env, s, r), h)) == MoreStrays(r, CallStatus(env, s, r), h, held, Slack(Find(s, h)))
  {
    match r
    case Adds(k, m, q, reply) =>
      FindAfterAdd(env, s, k, m, q, reply, h);
      SubscribedSlack(env, Find(s, k), m, q, reply);
    case Drops(_, _, _, _) => DropSlack(env, s, r, h);
    case Rejected(_) =>
    case Clears(_) =>
  }

  /** For every core, the subscriptions no registration stands behind are exactly the strays. */
  lemma {:induction false} SlackIsStrays(env: Core, ops: seq<Op>, h: Handler)
    requires AllRefused(env, ops)
    ensures Slack(Find(Run(env, Init(), ops), h)) == Strays(env, ops, h)
  {
    if ops != [] {
      var front, op := ops[..|ops| - 1], ops[|ops| - 1];
      var r, s := Resolve(env, op), Run(env, Init(), front);
      SlackIsStrays(env, front, h);
      RunKeepsInv(env, front);
      if r.Drops? { CountIsBalance(env, front, h, r.m, r.q); }
      RefusesResolves(env, op);
      var held := if r.Drops? then Find(s, h).subs[Sub(r.m, r.q)] else 0;
      SlackStep(env, s, r, h, held);
      StraysResolve(env, front, op, Answer(env, s, op), h, held, Strays(env, front, h));
    }
  }

  /** For every core: when every accepted registration of a handler has been undone, the core holds none
      for it, and its wrapper is left over if and only if there has been a stray since the last
      UnregisterAll. */
  lemma WrapperIsLeftOverIff(env: Core, ops: seq<Op>, h: Handler)
    requires AllRefused(env, ops)
    requires forall m, q :: Balance(env, ops, h, m, q).accepted == 0
    ensures Find(Run(env, Init(), ops), h).regs == multiset{}
    ensures h in Run(env, Init(), ops).handlers <==> Strays(env, ops, h) > 0
  {
    RunIsAskable(env, ops, h);
    RunKeepsInv(env, ops);
    SlackIsStrays(env, ops, h);
    var x := Find(Run(env, Init(), ops), h);
    forall key ensures x.regs[key] == 0 {
      if Askable(env, key) {
        var m, q :| env.key(m, q) == key;
        CountIsBalance(env, ops, h, m, q);
      }
    }
  }

  lemma RunSnoc(env: Core, front: seq<Op>, op: Op)
    ensures Run(env, Init(), front + [op]) == Apply(env, Run(env, Init(), front), Resolve(env, op))
  {
    assert (front + [op])[..|front|] == front;
  }

  /** A stray without a refusal: a core that takes a path and a rule for the same registration lets the
      rule unregister what the path registered, and the wrapper stays with the path's subscription. */
  lemma AliasingLeavesWrapper(env: Core, h: Handler, m: Member, p: string, text: string, refusal: Status)
    requires env.parse(text).ValidRule? && env.parse(text).canonical != p
    requires env.key(m, Path(Some(p))) == env.key(m, Canonical(env.parse(text).canonical))
    ensures var a, b := Register(h, m, Some(p), ER_OK), UnregisterWithRule(h, m, text, refusal);
            && Answer(env, Run(env, Init(), [a]), b) == ER_OK
            && var s := Run(env, Init(), [a] + [b]);
               h in s.handlers && Find(s, h).regs == multiset{} && Refusals(env, [a] + [b], h) == 0
  {
    var a, b := Register(h, m, Some(p), ER_OK), UnregisterWithRule(h, m, text, refusal);
    var c := Canonical(env.parse(text).canonical);
    var s1 := Add(env, Init(), h, m, Path(Some(p)), ER_OK);
    TwoCalls(env, a, b, Adds(h, m, Path(Some(p)), ER_OK), Drops(h, m, c, refusal));
    NoRefusals(env, a, b, h);
    AliasedDrop(env, s1, h, m, p, c);
  }

  lemma TwoCalls(env: Core, a: Op, b: Op, r: Request, r': Request)
    requires Resolve(env, a) == r && Resolve(env, b) == r'
    ensures Run(env, Init(), [a]) == Apply(env, Init(), r)
    ensures Run(env, Init(), [a] + [b]) == Apply(env, Apply(env, Init(), r), r')
  {
    var none: seq<Op> := [];
    assert none + [a] == [a];
    RunSnoc(env, none, a);
    RunSnoc(env, [a], b);
  }

  lemma NoRefusals(env: Core, a: Op, b: Op, h: Handler)
    requires !IsRefused(env, a, h) && !IsRefused(env, b, h)
    ensures Refusals(env, [a] + [b], h) == 0
  {
    assert ([a] + [b])[..1] == [a] && [a][..0] == [];
    assert Refusals(env, [a], h) == 0;
  }

  lemma AliasedDrop(env: Core, s: Registry, h: Handler, m: Member, p: string, c: Qualifier)
    requires c.Canonical? && c.rule != p && env.key(m, Path(Some(p))) == env.key(m, c)
    requires s == Add(env, Init(), h, m, Path(Some(p)), ER_OK)
    ensures CoreHas(env, s, h, m, c)
    ensures h in Drop(env, s, h, m, c).handlers && Find(Drop(env, s, h, m, c), h).regs == multiset{}
  {
    AliasedRemains(env, h, m, p, c);
    AddKeepsInv(env, Init(), h, m, Path(Some(p)), ER_OK);
    FindAfterAdd(env, Init(), h, m, Path(Some(p)), ER_OK, h);
    FindAfterDrop(env, s, h, m, c);
  }

  lemma AliasedRemains(env: Core, h: Handler, m: Member, p: string, c: Qualifier)
    requires c.Canonical? && c.rule != p && env.key(m, Path(Some(p))) == env.key(m, c)
    ensures var x := Subscribed(env, NoWrapper(h), m, Path(Some(p)), ER_OK);
            Remaining(env, x, m, c, h) == x.(regs := multiset{})
  {
    var x := Subscribed(env, NoWrapper(h), m, Path(Some(p)), ER_OK);
    assert Sub(m, c) != Sub(m, Path(Some(p)));
    assert x.subs - multiset{Sub(m, c)} == x.subs;
    assert x.regs - multiset{env.key(m, c)} == multiset{};
  }

  // ---------------------------------------------------------------- cores that do not alias

  /** The core never takes for the same two registrations that a wrapper tells apart. */
  ghost predicate NoAliasing(env: Core) {
    forall m1, q1, m2, q2 :: env.key(m1, q1) == env.key(m2, q2) ==> Sub(m1, q1) == Sub(m2, q2)
  }

  ghost predicate StandsFor(env: Core, key: CoreKey, sub: Subscription) {
    exists m, q :: env.key(m, q) == key && Sub(m, q) == sub
  }

  lemma StandsForItsSub(env: Core, m: Member, q: Qualifier, sub: Subscription)
    requires NoAliasing(env)
    ensures StandsFor(env, env.key(m, q), sub) <==> Sub(m, q) == sub
  {
  }

  /** How many registrations stand behind a subscription. */
  ghost function Behind(env: Core, regs: multiset<CoreKey>, sub: Subscription): nat
    decreases |regs|
  {
    if key :| key in regs
    then Behind(env, regs - multiset{key}, sub) + if StandsFor(env, key, sub) then 1 else 0
    else 0
  }

  lemma {:induction false} BehindTake(env: Core, regs: multiset<CoreKey>, key: CoreKey, sub: Subscription)
    requires key in regs
    ensures Behind(env, regs, sub)
            == Behind(env, regs - multiset{key}, sub) + if StandsFor(env, key, sub) then 1 else 0
    decreases |regs|
  {
    var k :| k in regs && Behind(env, regs, sub)
                          == Behind(env, regs - multiset{k}, sub) + if StandsFor(env, k, sub) then 1 else 0;
    if k != key {
      BehindTake(env, regs - multiset{k}, key, sub);
      BehindTake(env, regs - multiset{key}, k, sub);
      assert regs - multiset{k} - multiset{key} == regs - multiset{key} - multiset{k};
    }
  }

  /** Every registration the core holds still has its subscription. */
  ghost predicate Backed(env: Core, x: Wrapper) {
    forall sub :: Behind(env, x.regs, sub) <= x.subs[sub]
  }

  lemma SubscribedBacked(env: Core, x: Wrapper, m: Member, q: Qualifier, reply: Status)
    requires NoAliasing(env) && Backed(env, x)
    ensures Backed(env, Subscribed(env, x, m, q, reply))
  {
    var y, key := Subscribed(env, x, m, q, reply), env.key(m, q);
    forall sub ensures Behind(env, y.regs, sub) <= y.subs[sub] {
      if reply == ER_OK {
        BehindTake(env, y.regs, key, sub);
        assert y.regs - multiset{key} == x.regs;
        StandsForItsSub(env, m, q, sub);
      }
    }
  }

  lemma UnsubscribedBacked(env: Core, x: Wrapper, m: Member, q: Qualifier)
    requires NoAliasing(env) && Backed(env, x) && env.key(m, q) in x.regs
    ensures Backed(env, Unsubscribed(env, x, m, q)) && Sub(m, q) in x.subs
  {
    var y, key := Unsubscribed(env, x, m, q), env.key(m, q);
    forall sub
      ensures Behind(env, y.regs, sub) <= y.subs[sub]
      ensures sub == Sub(m, q) ==> sub in x.subs
    {
      BehindTake(env, x.regs, key, sub);
      StandsForItsSub(env, m, q, sub);
    }
  }

  lemma AddKeepsBacked(env: Core, s: Registry, k: Handler, m: Member, q: Qualifier, reply: Status, h: Handler)
    requires NoAliasing(env) && WellKeyed(s) && Backed(env, Find(s, h))
    ensures Backed(env, Find(Add(env, s, k, m, q, reply), h))
  {
    FindAfterAdd(env, s, k, m, q, reply, h);
    if h == k { SubscribedBacked(env, Find(s, h), m, q, reply); }
  }

  lemma DropKeepsBacked(env: Core, s: Registry, k: Handler, m: Member, q: Qualifier, h: Handler)
    requires NoAliasing(env) && WellKeyed(s) && Backed(env, Find(s, h))
    ensures Backed(env, Find(Drop(env, s, k, m, q), h))
  {
    if h == k && CoreHas(env, s, k, m, q) {
      FindAfterDrop(env, s, k, m, q);
      UnsubscribedBacked(env, Find(s, h), m, q);
    } else {
      FindOtherAfterDrop(env, s, k, m, q, h);
    }
  }

  lemma ApplyKeepsBacked(env: Core, s: Registry, r: Request, h: Handler)
    requires NoAliasing(env) && WellKeyed(s) && Backed(env, Find(s, h))
    ensures Backed(env, Find(Apply(env, s, r), h))
  {
    match r
    case Adds(k, m, q, reply) => AddKeepsBacked(env, s, k, m, q, reply, h);
    case Drops(k, m, q, _) => DropKeepsBacked(env, s, k, m, q, h);
    case Rejected(_) =>
    case Clears(_) =>
  }

  lemma {:induction false} RunIsBacked(env: Core, ops: seq<Op>, h: Handler)
    requires NoAliasing(env)
    ensures Inv(Run(env, Init(), ops)) && Backed(env, Find(Run(env, Init(), ops), h))
  {
    RunKeepsInv(env, ops);
    if ops != [] {
      var front, r := ops[..|ops| - 1], Resolve(env, ops[|ops| - 1]);
      RunIsBacked(env, front, h);
      ApplyKeepsBacked(env, Run(env, Init(), front), r, h);
    }
  }

  /** A registration of a handler that the core refuses. */
  predicate IsRefused(env: Core, op: Op, h: Handler) {
    && (op.Register? || (op.RegisterWithRule? && env.parse(op.text).ValidRule?))
    && op.h == h && op.reply != ER_OK
  }

  /** How many of them there have been since the last UnregisterAll. */
  function Refusals(env: Core, ops: seq<Op>, h: Handler): int {
    if ops == [] || ops[|ops| - 1].UnregisterAll? then 0
    else Refusals(env, ops[..|ops| - 1], h) + if IsRefused(env, ops[|ops| - 1], h) then 1 else 0
  }

  /** A core that does not alias makes no other strays than the refused registrations: an unregister
      that succeeds finds its subscription. */
  lemma {:induction false} StraysAreRefusals(env: Core, ops: seq<Op>, h: Handler)
    requires NoAliasing(env) && AllRefused(env, ops)
    ensures Strays(env, ops, h) == Refusals(env, ops, h)
  {
    if ops != [] {
      var front, r := ops[..|ops| - 1], Resolve(env, ops[|ops| - 1]);
      StraysAreRefusals(env, front, h);
      RunIsBacked(env, front, h);
      assert Refusing(r);
      if r.Drops? && CoreHas(env, Run(env, Init(), front), h, r.m, r.q) {
        UnsubscribedBacked(env, Find(Run(env, Init(), front), h), r.m, r.q);
        CountIsBalance(env, front, h, r.m, r.q);
      }
    }
  }

  /** The same call, but for the spelling of its rule. */
  predicate SameCall(env: Core, a: Op, b: Op) {
    match (a, b)
    case (RegisterWithRule(h, m, text, reply), RegisterWithRule(h', m', text', reply')) =>
      h == h' && m == m' && reply == reply' && env.parse(text) == env.parse(text')
    case (UnregisterWithRule(h, m, text, refusal), UnregisterWithRule(h', m', text', refusal')) =>
      h == h' && m == m' && refusal == refusal' && env.parse(text) == env.parse(text')
    case _ => a == b
  }

  lemma SameCallResolves(env: Core, a: Op, b: Op)
    requires SameCall(env, a, b)
    ensures Resolve(env, a) == Resolve(env, b)
  {
  }

  /** Rules with the same canonical form are interchangeable throughout a run. */
  lemma {:induction false} EquivalentRulesInterchange(env: Core, ops: seq<Op>, ops': seq<Op>)
    requires |ops| == |ops'| && forall i :: 0 <= i < |ops| ==> SameCall(env, ops[i], ops'[i])
    ensures Run(env, Init(), ops) == Run(env, Init(), ops')
  {
    if ops != [] {
      EquivalentRulesInterchange(env, ops[..|ops| - 1], ops'[..|ops| - 1]);
      SameCallResolves(env, ops[|ops| - 1], ops'[|ops| - 1]);
    }
  }
}
