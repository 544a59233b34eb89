/** What each call of the registry does under its own arguments, and what undoes it. */
module RegistryCalls {
  import opened Common
  import opened SignalRegistry

  // ---------------------------------------------------------------- which subscriptions are the same

  predicate Blank(srcPath: Option<string>) { srcPath.None? || srcPath.value == "" }

  /** A wrapper tells two calls apart by member and text, but for a NULL and an empty path; a path and
      a canonical rule count as the same if they are spelled alike. */
  lemma SameSubscriptionIff(m1: Member, m2: Member, p1: Option<string>, p2: Option<string>, c1: string, c2: string)
    ensures Sub(m1, Path(p1)) == Sub(m2, Path(p2)) <==> m1 == m2 && (p1 == p2 || (Blank(p1) && Blank(p2)))
    ensures Sub(m1, Canonical(c1)) == Sub(m2, Canonical(c2)) <==> m1 == m2 && c1 == c2
    ensures Sub(m1, Path(p1)) == Sub(m2, Canonical(c2)) <==> m1 == m2 && (p1 == Some(c2) || (Blank(p1) && c2 == ""))
  {
  }

  // ---------------------------------------------------------------- what a call does

  /** The registry has not changed for handler `k`. */
  predicate Untouched(s: Registry, s': Registry, k: Handler) {
    Find(s', k) == Find(s, k) && (k in s'.handlers <==> k in s.handlers)
  }

  /** One more of the subscription, and of the registration if the core accepted, for `h` alone. */
  ghost predicate Gained(s: Registry, s': Registry, h: Handler, sub: Subscription, key: CoreKey, reply: Status) {
    && h in s'.handlers
    && Find(s', h).subs == Find(s, h).subs + multiset{sub}
    && Find(s', h).regs == Find(s, h).regs + (if reply == ER_OK then multiset{key} else multiset{})
    && forall k :: k != h ==> Untouched(s, s', k)
  }

  /** One fewer of both, for `h` alone; its wrapper goes with the last subscription. */
  ghost predicate Lost(s: Registry, s': Registry, h: Handler, sub: Subscription, key: CoreKey) {
    && key in Find(s, h).regs
    && Find(s', h).subs == Find(s, h).subs - multiset{sub}
    && Find(s', h).regs == Find(s, h).regs - multiset{key}
    && (h in s'.handlers <==> Find(s', h).subs != multiset{})
    && forall k :: k != h ==> Untouched(s, s', k)
  }

  lemma AddElsewhere(env: Core, s: Registry, h: Handler, m: Member, q: Qualifier, reply: Status, k: Handler)
    requires WellKeyed(s) && k != h
    ensures Untouched(s, Add(env, s, h, m, q, reply), k)
  {
    FindAfterAdd(env, s, h, m, q, reply, k);
  }

  lemma AddGains(env: Core, s: Registry, h: Handler, m: Member, q: Qualifier, reply: Status)
    requires WellKeyed(s)
    ensures Gained(s, Add(env, s, h, m, q, reply), h, Sub(m, q), env.key(m, q), reply)
  {
    var s' := Add(env, s, h, m, q, reply);
    FindAfterAdd(env, s, h, m, q, reply, h);
    SubscribedGains(env, Find(s, h), m, q, reply);
    forall k | k != h ensures Untouched(s, s', k) { AddElsewhere(env, s, h, m, q, reply, k); }
  }

  lemma SubscribedGains(env: Core, x: Wrapper, m: Member, q: Qualifier, reply: Status)
    ensures var y := Subscribed(env, x, m, q, reply);
            && y.subs == x.subs + multiset{Sub(m, q)}
            && y.regs == x.regs + (if reply == ER_OK then multiset{env.key(m, q)} else multiset{})
  {
  }

  lemma DropElsewhere(env: Core, s: Registry, h: Handler, m: Member, q: Qualifier, k: Handler)
    requires WellKeyed(s) && k != h
    ensures Untouched(s, Drop(env, s, h, m, q), k)
  {
    FindOtherAfterDrop(env, s, h, m, q, k);
  }

  lemma DropHere(env: Core, s: Registry, h: Handler, m: Member, q: Qualifier)
    requires Inv(s) && CoreHas(env, s, h, m, q)
    ensures var s' := Drop(env, s, h, m, q);
            && Find(s', h).subs == Find(s, h).subs - multiset{Sub(m, q)}
            && Find(s', h).regs == Find(s, h).regs - multiset{env.key(m, q)}
            && (h in s'.handlers <==> Find(s', h).subs != multiset{})
  {
    FindAfterDrop(env, s, h, m, q);
    UnsubscribedCounted(env, Find(s, h), m, q);
  }

  /** An unregister of (m, q) succeeds if the core has such a registration; otherwise nothing changes. */
  lemma DropDoes(env: Core, s: Registry, h: Handler, m: Member, q: Qualifier, refusal: Status)
    requires Inv(s)
    ensures var s', status := Drop(env, s, h, m, q), DropStatus(env, s, h, m, q, refusal);
            if env.key(m, q) in Find(s, h).regs
            then status == ER_OK && Lost(s, s', h, Sub(m, q), env.key(m, q))
            else s' == s && status == if h in s.handlers then refusal else ER_FAIL
  {
    if env.key(m, q) in Find(s, h).regs {
      DropHere(env, s, h, m, q);
      forall k | k != h ensures Untouched(s, Drop(env, s, h, m, q), k) { DropElsewhere(env, s, h, m, q, k); }
    }
  }

  /** RegisterSignalHandler: under the given path. */
  lemma RegisterDoes(env: Core, ops: seq<Op>, h: Handler, m: Member, srcPath: Option<string>, reply: Status)
    ensures var op := Register(h, m, srcPath, reply);
            var s, s' := Run(env, Init(), ops), Run(env, Init(), ops + [op]);
            && Answer(env, s, op) == reply
            && Gained(s, s', h, Subscription(m, if srcPath.Some? then srcPath.value else ""),
                      env.key(m, Path(srcPath)), reply)
  {
    RunKeepsInv(env, ops);
    RunSnoc(env, ops, Register(h, m, srcPath, reply));
    AddGains(env, Run(env, Init(), ops), h, m, Path(srcPath), reply);
  }

  /** RegisterSignalHandlerWithRule: under the canonical form of the given rule; an invalid rule does nothing. */
  lemma RegisterWithRuleDoes(env: Core, ops: seq<Op>, h: Handler, m: Member, text: string, reply: Status)
    ensures var op := RegisterWithRule(h, m, text, reply);
            var s, s' := Run(env, Init(), ops), Run(env, Init(), ops + [op]);
            match env.parse(text)
            case InvalidRule(status) => Answer(env, s, op) == status && s' == s
            case ValidRule(c) =>
              Answer(env, s, op) == reply && Gained(s, s', h, Subscription(m, c), env.key(m, Canonical(c)), reply)
  {
    RunKeepsInv(env, ops);
    RunSnoc(env, ops, RegisterWithRule(h, m, text, reply));
    if env.parse(text).ValidRule? {
      AddGains(env, Run(env, Init(), ops), h, m, Canonical(env.parse(text).canonical), reply);
    }
  }

  /** UnregisterSignalHandler: under the given path, if the core has such a registration. */
  lemma UnregisterDoes(env: Core, ops: seq<Op>, h: Handler, m: Member, srcPath: Option<string>, refusal: Status)
    ensures var op := Unregister(h, m, srcPath, refusal);
            var s, s' := Run(env, Init(), ops), Run(env, Init(), ops + [op]);
            if env.key(m, Path(srcPath)) in Find(s, h).regs
            then && Answer(env, s, op) == ER_OK
                 && Lost(s, s', h, Subscription(m, if srcPath.Some? then srcPath.value else ""),
                         env.key(m, Path(srcPath)))
            else s' == s && Answer(env, s, op) == if h in s.handlers then refusal else ER_FAIL
  {
    var s := Run(env, Init(), ops);
    RunKeepsInv(env, ops);
    RunSnoc(env, ops, Unregister(h, m, srcPath, refusal));
    DropDoes(env, s, h, m, Path(srcPath), refusal);
  }

  lemma UnregisterWithRuleDoes(env: Core, ops: seq<Op>, h: Handler, m: Member, text: string, refusal: Status)
    ensures var op := UnregisterWithRule(h, m, text, refusal);
            var s, s' := Run(env, Init(), ops), Run(env, Init(), ops + [op]);
            match env.parse(text)
            case InvalidRule(status) => Answer(env, s, op) == status && s' == s
            case ValidRule(c) =>
              if env.key(m, Canonical(c)) in Find(s, h).regs
              then Answer(env, s, op) == ER_OK && Lost(s, s', h, Subscription(m, c), env.key(m, Canonical(c)))
              else s' == s && Answer(env, s, op) == if h in s.handlers then refusal else ER_FAIL
  {
    var s := Run(env, Init(), ops);
    RunKeepsInv(env, ops);
    RunSnoc(env, ops, UnregisterWithRule(h, m, text, refusal));
    if env.parse(text).ValidRule? {
      DropDoes(env, s, h, m, Canonical(env.parse(text).canonical), refusal);
    }
  }

  // ---------------------------------------------------------------- one call undoes another

  /** Handler `k` has what it had. */
  predicate RestoredFor(s: Registry, s': Registry, k: Handler) {
    && Find(s', k).subs == Find(s, k).subs && Find(s', k).regs == Find(s, k).regs
    && (k in s'.handlers <==> k in s.handlers)
  }

  ghost predicate Restored(s: Registry, s': Registry) { forall k :: RestoredFor(s, s', k) }

  lemma TakenBack<T>(s: multiset<T>, x: T)
    ensures s + multiset{x} - multiset{x} == s
  {
  }

  lemma LiveIffSubscribed(s: Registry, h: Handler)
    requires Inv(s)
    ensures h in s.handlers <==> Find(s, h).subs != multiset{}
  {
  }

  lemma AddThenDropHere(env: Core, s: Registry, h: Handler, m: Member, q: Qualifier)
    requires Inv(s)
    ensures var s1 := Add(env, s, h, m, q, ER_OK); var s2 := Drop(env, s1, h, m, q);
            CoreHas(env, s1, h, m, q) && RestoredFor(s, s2, h)
  {
    var s1 := Add(env, s, h, m, q, ER_OK);
    AddKeepsInv(env, s, h, m, q, ER_OK);
    FindAfterAdd(env, s, h, m, q, ER_OK, h);
    SubscribedGains(env, Find(s, h), m, q, ER_OK);
    assert CoreHas(env, s1, h, m, q);
    DropHere(env, s1, h, m, q);
    TakenBack(Find(s, h).subs, Sub(m, q));
    TakenBack(Find(s, h).regs, env.key(m, q));
    LiveIffSubscribed(s, h);
  }

  lemma AddThenDropElsewhere(env: Core, s: Registry, h: Handler, m: Member, q: Qualifier, k: Handler)
    requires Inv(s) && k != h
    ensures RestoredFor(s, Drop(env, Add(env, s, h, m, q, ER_OK), h, m, q), k)
  {
    AddKeepsInv(env, s, h, m, q, ER_OK);
    AddElsewhere(env, s, h, m, q, ER_OK, k);
    DropElsewhere(env, Add(env, s, h, m, q, ER_OK), h, m, q, k);
  }

  lemma AddThenDropRestores(env: Core, s: Registry, h: Handler, m: Member, q: Qualifier)
    requires Inv(s)
    ensures Restored(s, Drop(env, Add(env, s, h, m, q, ER_OK), h, m, q))
  {
    forall k ensures RestoredFor(s, Drop(env, Add(env, s, h, m, q, ER_OK), h, m, q), k) {
      if k == h { AddThenDropHere(env, s, h, m, q); } else { AddThenDropElsewhere(env, s, h, m, q, k); }
    }
  }

  /** The second call answers ER_OK, and together the two leave every handler what it had. */
  ghost predicate Undoes(env: Core, ops: seq<Op>, a: Op, b: Op) {
    && Answer(env, Run(env, Init(), ops + [a]), b) == ER_OK
    && Restored(Run(env, Init(), ops), Run(env, Init(), ops + [a] + [b]))
  }

  lemma DropUndoesAdd(env: Core, ops: seq<Op>, a: Op, b: Op, h: Handler, m: Member, q: Qualifier, refusal: Status)
    requires Resolve(env, a) == Adds(h, m, q, ER_OK) && Resolve(env, b) == Drops(h, m, q, refusal)
    ensures Undoes(env, ops, a, b)
  {
    RunKeepsInv(env, ops);
    RunSnoc(env, ops, a);
    RunSnoc(env, ops + [a], b);
    AddThenDropHere(env, Run(env, Init(), ops), h, m, q);
    AddThenDropRestores(env, Run(env, Init(), ops), h, m, q);
  }

  /** After any history, an accepted registration is undone by unregistering the same path ... */
  lemma UnregisterUndoesRegister(env: Core, ops: seq<Op>, h: Handler, m: Member, srcPath: Option<string>,
                                 refusal: Status)
    ensures Undoes(env, ops, Register(h, m, srcPath, ER_OK), Unregister(h, m, srcPath, refusal))
  {
    DropUndoesAdd(env, ops, Register(h, m, srcPath, ER_OK), Unregister(h, m, srcPath, refusal),
                  h, m, Path(srcPath), refusal);
  }

  /** ... and an accepted registration by rule by any rule with the same canonical form. */
  lemma UnregisterUndoesRegisterWithRule(env: Core, ops: seq<Op>, h: Handler, m: Member, text: string, text': string,
                                         refusal: Status)
    requires env.parse(text).ValidRule? && env.parse(text') == env.parse(text)
    ensures Undoes(env, ops, RegisterWithRule(h, m, text, ER_OK), UnregisterWithRule(h, m, text', refusal))
  {
    DropUndoesAdd(env, ops, RegisterWithRule(h, m, text, ER_OK), UnregisterWithRule(h, m, text', refusal),
                  h, m, Canonical(env.parse(text).canonical), refusal);
  }
}
