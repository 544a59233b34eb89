/** The registry as the class that updates it in place, each method one critical section of
    `signalHandlerMapLock`, proved against the operations of SignalRegistry. */
module BusAttachmentC {
  import opened Common
  import opened SignalRegistry

  // ---------------------------------------------------------------- Subscription::operator<

  /** Lexicographic order on strings. */
  predicate StringLess(a: string, b: string) {
    b != [] && (a == [] || a[0] < b[0] || (a[0] == b[0] && StringLess(a[1..], b[1..])))
  }

  predicate SubscriptionLess(a: Subscription, b: Subscription) {
    a.member < b.member || (a.member == b.member && StringLess(a.qualifier, b.qualifier))
  }

  lemma {:induction false} StringsCompare(a: string, b: string)
    ensures !(StringLess(a, b) && StringLess(b, a)) && (!StringLess(a, b) && !StringLess(b, a) <==> a == b)
  {
    if a != [] && b != [] {
      StringsCompare(a[1..], b[1..]);
      assert a == [a[0]] + a[1..] && b == [b[0]] + b[1..];
    }
  }

  lemma {:induction false} StringLessTransitive(a: string, b: string, c: string)
    requires StringLess(a, b) && StringLess(b, c)
    ensures StringLess(a, c)
  {
    if a != [] && a[0] == b[0] && b[0] == c[0] {
      StringLessTransitive(a[1..], b[1..], c[1..]);
    }
  }

  /** The comparator is a strict order under which only equal subscriptions are equivalent, so the
      std::multiset finds and counts subscriptions by value. */
  lemma SubscriptionsAreTotallyOrdered(a: Subscription, b: Subscription, c: Subscription)
    ensures !SubscriptionLess(a, a)
    ensures SubscriptionLess(a, b) && SubscriptionLess(b, c) ==> SubscriptionLess(a, c)
    ensures !SubscriptionLess(a, b) && !SubscriptionLess(b, a) <==> a == b
  {
    StringsCompare(a.qualifier, a.qualifier);
    StringsCompare(a.qualifier, b.qualifier);
    if SubscriptionLess(a, b) && SubscriptionLess(b, c) && a.member == b.member == c.member {
      StringLessTransitive(a.qualifier, b.qualifier, c.qualifier);
    }
  }

  // ---------------------------------------------------------------- the class

  class BusAttachmentC {
    var signalHandlerMap: map<Handler, WrapperId>
    var wrappers: map<WrapperId, Wrapper>
    var next: WrapperId
    const env: Core

    function View(): Registry
      reads this
    {
      Registry(signalHandlerMap, wrappers, next)
    }

    ghost predicate Valid()
      reads this
    {
      Inv(View())
    }

    constructor (env: Core)
      ensures Valid() && View() == Init() && this.env == env
    {
      signalHandlerMap, wrappers, next := map[], map[], 0;
      this.env := env;
    }

    /** SignalHandlerC::AddSubscription on a live wrapper. */
    method AddSubscription(w: WrapperId, m: Member, q: Qualifier)
      requires w in wrappers && wrappers[w].live
      modifies `wrappers
      ensures wrappers == old(wrappers)[w := old(wrappers)[w].(subs := old(wrappers)[w].subs + multiset{Sub(m, q)})]
    {
      wrappers := wrappers[w := wrappers[w].(subs := wrappers[w].subs + multiset{Sub(m, q)})];
    }

    /** SignalHandlerC::RemoveSubscription: take one away if there is one; true if none is left. */
    method RemoveSubscription(w: WrapperId, m: Member, q: Qualifier) returns (empty: bool)
      requires w in wrappers && wrappers[w].live
      modifies `wrappers
      ensures wrappers == old(wrappers)[w := old(wrappers)[w].(subs := old(wrappers)[w].subs - multiset{Sub(m, q)})]
      ensures empty <==> old(wrappers)[w].subs - multiset{Sub(m, q)} == multiset{}
    {
      var subs := wrappers[w].subs;
      if Sub(m, q) in subs {
        subs := subs - multiset{Sub(m, q)};
      }
      wrappers := wrappers[w := wrappers[w].(subs := subs)];
      empty := subs == multiset{};
      assert subs == old(wrappers)[w].subs - multiset{Sub(m, q)};
    }

    /** Look the handler up, creating its wrapper if there is none. */
    method FindHandler(h: Handler) returns (w: WrapperId)
      requires WellKeyed(View())
      modifies this
      ensures View() == FindOrCreate(old(View()), h) && h in signalHandlerMap && w == signalHandlerMap[h]
      ensures w in wrappers && wrappers[w].live && wrappers[w] == Find(FindOrCreate(old(View()), h), h)
    {
      if h !in signalHandlerMap {
        w := next;
        next := next + 1;
        wrappers := wrappers[w := NoWrapper(h)];
        signalHandlerMap := signalHandlerMap[h := w];
      } else {
        w := signalHandlerMap[h];
      }
    }

    /** The hidden core: RegisterSignalHandler takes the registration or refuses it. */
    method CoreRegister(w: WrapperId, m: Member, q: Qualifier, reply: Status)
      requires w in wrappers
      modifies `wrappers
      ensures var x := old(wrappers)[w];
              wrappers == old(wrappers)[
                w := x.(regs := if reply == ER_OK then x.regs + multiset{env.key(m, q)} else x.regs)]
    {
      if reply == ER_OK {
        wrappers := wrappers[w := wrappers[w].(regs := wrappers[w].regs + multiset{env.key(m, q)})];
      }
    }

    /** The part the path and the rule form share. */
    method RegisterQualified(h: Handler, m: Member, q: Qualifier, reply: Status) returns (ret: Status)
      requires WellKeyed(View())
      modifies this
      ensures View() == Add(env, old(View()), h, m, q, reply) && ret == reply
    {
      var w := FindHandler(h);
      ghost var t := View();
      AddSubscription(w, m, q);
      CoreRegister(w, m, q, reply);
      ret := reply;
      assert wrappers == t.wrappers[w := Subscribed(env, Find(t, h), m, q, reply)];
    }

    /** The hidden core: UnregisterSignalHandler succeeds exactly if it has one to remove. */
    method CoreUnregister(w: WrapperId, m: Member, q: Qualifier, refusal: Status) returns (ret: Status)
      requires w in wrappers && refusal != ER_OK
      modifies `wrappers
      ensures var x := old(wrappers)[w];
              && (ret == ER_OK <==> env.key(m, q) in x.regs)
              && (ret == ER_OK ==> wrappers == old(wrappers)[w := x.(regs := x.regs - multiset{env.key(m, q)})])
              && (ret != ER_OK ==> wrappers == old(wrappers) && ret == refusal)
    {
      if env.key(m, q) in wrappers[w].regs {
        wrappers := wrappers[w := wrappers[w].(regs := wrappers[w].regs - multiset{env.key(m, q)})];
        ret := ER_OK;
      } else {
        ret := refusal;
      }
    }

    /** After the core gave a registration up: forget the subscription, and the wrapper with the last one. */
    method Forget(h: Handler, w: WrapperId, m: Member, q: Qualifier)
      requires h in signalHandlerMap && signalHandlerMap[h] == w && w in wrappers && wrappers[w].live
      modifies `wrappers, `signalHandlerMap
      ensures var x := old(wrappers)[w]; var subs := x.subs - multiset{Sub(m, q)};
              && wrappers == old(wrappers)[w := x.(subs := subs, live := subs != multiset{})]
              && signalHandlerMap == if subs == multiset{} then old(signalHandlerMap) - {h} else old(signalHandlerMap)
    {
      var removeHandler := RemoveSubscription(w, m, q);
      if removeHandler {
        wrappers := wrappers[w := wrappers[w].(live := false)];    // delete iter->second
        signalHandlerMap := signalHandlerMap - {h};
      }
    }

    method UnregisterQualified(h: Handler, m: Member, q: Qualifier, refusal: Status) returns (ret: Status)
      requires WellKeyed(View()) && refusal != ER_OK
      modifies this
      ensures View() == Drop(env, old(View()), h, m, q)
      ensures ret == DropStatus(env, old(View()), h, m, q, refusal)
    {
      ghost var s := View();
      ret := ER_FAIL;
      if h in signalHandlerMap {
        var w := signalHandlerMap[h];
        ret := CoreUnregister(w, m, q, refusal);
        if ret == ER_OK {
          Forget(h, w, m, q);
          ForgetIsDrop(env, s, h, m, q);
        }
      }
    }

    method RegisterSignalHandlerC(h: Handler, m: Member, srcPath: Option<string>, reply: Status) returns (ret: Status)
      requires Valid()
      modifies this
      ensures Valid() && View() == Run(env, old(View()), [Register(h, m, srcPath, reply)])
      ensures View() == Add(env, old(View()), h, m, Path(srcPath), reply) && ret == reply
    {
      ApplyKeepsInv(env, View(), Adds(h, m, Path(srcPath), reply));
      RunOne(env, View(), Register(h, m, srcPath, reply));
      ret := RegisterQualified(h, m, Path(srcPath), reply);
    }

    method RegisterSignalHandlerWithRuleC(h: Handler, m: Member, text: string, reply: Status) returns (ret: Status)
      requires Valid()
      modifies this
      ensures Valid() && View() == Run(env, old(View()), [RegisterWithRule(h, m, text, reply)])
      ensures match env.parse(text)
              case InvalidRule(status) => View() == old(View()) && ret == status
              case ValidRule(c) => View() == Add(env, old(View()), h, m, Canonical(c), reply) && ret == reply
    {
      var rule := env.parse(text);
      RunOne(env, View(), RegisterWithRule(h, m, text, reply));
      if rule.InvalidRule? {
        return rule.status;
      }
      ApplyKeepsInv(env, View(), Adds(h, m, Canonical(rule.canonical), reply));
      ret := RegisterQualified(h, m, Canonical(rule.canonical), reply);
    }

    method UnregisterSignalHandlerC(h: Handler, m: Member, srcPath: Option<string>, refusal: Status)
      returns (ret: Status)
      requires Valid() && refusal != ER_OK
      modifies this
      ensures Valid() && View() == Run(env, old(View()), [Unregister(h, m, srcPath, refusal)])
      ensures View() == Drop(env, old(View()), h, m, Path(srcPath))
      ensures ret == DropStatus(env, old(View()), h, m, Path(srcPath), refusal)
    {
      ApplyKeepsInv(env, View(), Drops(h, m, Path(srcPath), refusal));
      RunOne(env, View(), Unregister(h, m, srcPath, refusal));
      ret := UnregisterQualified(h, m, Path(srcPath), refusal);
    }

    method UnregisterSignalHandlerWithRuleC(h: Handler, m: Member, text: string, refusal: Status) returns (ret: Status)
      requires Valid() && refusal != ER_OK
      modifies this
      ensures Valid() && View() == Run(env, old(View()), [UnregisterWithRule(h, m, text, refusal)])
      ensures match env.parse(text)
              case InvalidRule(status) => View() == old(View()) && ret == status
              case ValidRule(c) =>
                && View() == Drop(env, old(View()), h, m, Canonical(c))
                && ret == DropStatus(env, old(View()), h, m, Canonical(c), refusal)
    {
      var rule := env.parse(text);
      RunOne(env, View(), UnregisterWithRule(h, m, text, refusal));
      if rule.InvalidRule? {
        return rule.status;
      }
      ApplyKeepsInv(env, View(), Drops(h, m, Canonical(rule.canonical), refusal));
      ret := UnregisterQualified(h, m, Canonical(rule.canonical), refusal);
    }

    /** Deletes every wrapper, in handler order; the result is the first status that is not ER_OK.
        `reply` is what the core answers for each handler's wrapper, `kept` for which of them it keeps
        the registrations. */
    method UnregisterAllHandlersC(reply: Handler -> Status, kept: set<Handler>) returns (ret: Status)
      requires Valid()
      modifies this
      ensures Valid() && View() == Run(env, old(View()), [UnregisterAll(kept)])
      ensures FirstFailure(ret, reply, old(signalHandlerMap).Keys)
    {
      ApplyKeepsInv(env, View(), Clears(kept));
      RunOne(env, View(), UnregisterAll(kept));
      ret := DeleteAll(reply, kept);
    }

    method DeleteAll(reply: Handler -> Status, kept: set<Handler>) returns (ret: Status)
      requires WellKeyed(View())
      modifies this
      ensures View() == Clear(old(View()), kept) && FirstFailure(ret, reply, old(signalHandlerMap).Keys)
    {
      ghost var s := View();
      ret := ER_OK;
      var rest := signalHandlerMap.Keys;
      ClearingStarts(s, kept);
      while rest != {}
        invariant signalHandlerMap == s.handlers && next == s.next && rest <= signalHandlerMap.Keys
        invariant Clearing(s, kept, wrappers, rest)
        invariant Below(s.handlers.Keys - rest, rest)
        invariant FirstFailure(ret, reply, s.handlers.Keys - rest)
        decreases rest
      {
        ghost var least := Least(rest);
        var h :| h in rest && forall k :: k in rest ==> h <= k;
        FirstFailureStep(ret, reply, s.handlers.Keys, rest, h);
        ClearingStep(s, kept, wrappers, rest, h);
        var w := signalHandlerMap[h];
        wrappers := wrappers[w := Deleted(wrappers[w], kept)];     // UnregisterAllHandlers, delete
        if ret == ER_OK {
          ret := reply(h);
        }
        rest := rest - {h};
      }
      signalHandlerMap := map[];
      assert s.handlers.Keys - {} == s.handlers.Keys;
      ClearingDone(s, kept, wrappers);
    }
  }

  /** The two updates of the wrapper make up one unsubscription. */
  lemma ForgetIsDrop(env: Core, s: Registry, h: Handler, m: Member, q: Qualifier)
    requires WellKeyed(s) && CoreHas(env, s, h, m, q)
    ensures var w := s.handlers[h]; var x := s.wrappers[w]; var subs := x.subs - multiset{Sub(m, q)};
            var ws := s.wrappers[w := x.(regs := x.regs - multiset{env.key(m, q)})];
            && Drop(env, s, h, m, q).wrappers == ws[w := ws[w].(subs := subs, live := subs != multiset{})]
            && Drop(env, s, h, m, q).handlers == (if subs == multiset{} then s.handlers - {h} else s.handlers)
  {
  }

  lemma RunOne(env: Core, s: Registry, op: Op)
    ensures Run(env, s, [op]) == Apply(env, s, Resolve(env, op))
  {
    assert [op][..0] == [];
  }

  /** Every live wrapper whose handler is not in `rest` has been deleted. */
  ghost predicate Clearing(s: Registry, kept: set<Handler>, ws: map<WrapperId, Wrapper>, rest: set<Handler>) {
    && ws.Keys == s.wrappers.Keys
    && forall w :: w in ws ==>
         ws[w] == if s.wrappers[w].handler in rest then s.wrappers[w] else Deleted(s.wrappers[w], kept)
  }

  lemma ClearingStep(s: Registry, kept: set<Handler>, ws: map<WrapperId, Wrapper>, rest: set<Handler>, h: Handler)
    requires WellKeyed(s) && Clearing(s, kept, ws, rest) && h in rest && h in s.handlers
    ensures Clearing(s, kept, ws[s.handlers[h] := Deleted(ws[s.handlers[h]], kept)], rest - {h})
  {
    var w := s.handlers[h];
    forall v | v in ws && v != w && s.wrappers[v].handler == h ensures ws[v] == Deleted(s.wrappers[v], kept) {
      assert !s.wrappers[v].live;
    }
  }

  lemma ClearingStarts(s: Registry, kept: set<Handler>)
    requires WellKeyed(s)
    ensures Clearing(s, kept, s.wrappers, s.handlers.Keys)
  {
    forall w | w in s.wrappers && s.wrappers[w].handler !in s.handlers
      ensures Deleted(s.wrappers[w], kept) == s.wrappers[w]
    {
      assert !s.wrappers[w].live;
    }
  }

  lemma ClearingDone(s: Registry, kept: set<Handler>, ws: map<WrapperId, Wrapper>)
    requires Clearing(s, kept, ws, {})
    ensures ws == Clear(s, kept).wrappers
  {
  }

  predicate Below(a: set<Handler>, b: set<Handler>) { forall h, k :: h in a && k in b ==> h < k }

  /** ER_OK if every reply is; otherwise the reply for the least handler whose reply is not. */
  ghost predicate FirstFailure(ret: Status, reply: Handler -> Status, keys: set<Handler>) {
    && (ret == ER_OK <==> forall h :: h in keys ==> reply(h) == ER_OK)
    && (ret != ER_OK ==>
          exists h :: h in keys && reply(h) == ret && forall k :: k in keys && k < h ==> reply(k) == ER_OK)
  }

  lemma FirstFailureStep(ret: Status, reply: Handler -> Status, keys: set<Handler>, rest: set<Handler>, h: Handler)
    requires FirstFailure(ret, reply, keys - rest) && Below(keys - rest, rest) && rest <= keys
    requires h in rest && forall k :: k in rest ==> h <= k
    ensures FirstFailure(if ret == ER_OK then reply(h) else ret, reply, keys - (rest - {h}))
    ensures Below(keys - (rest - {h}), rest - {h})
  {
    var done := keys - rest;
    assert keys - (rest - {h}) == done + {h};
    if ret != ER_OK {
      var f :| f in done && reply(f) == ret && forall k :: k in done && k < f ==> reply(k) == ER_OK;
      assert f in done + {h};
      assert forall k :: k in done + {h} && k < f ==> reply(k) == ER_OK;
    } else {
      assert h in done + {h};
    }
  }

  lemma {:induction false} Least(s: set<nat>) returns (h: nat)
    requires s != {}
    ensures h in s && forall k :: k in s ==> h <= k
  {
    h :| h in s;
    if s != {h} {
      var rest := s - {h};
      var l := Least(rest);
      assert forall k :: k in s ==> k == h || k in rest;
      h := if h < l then h else l;
    }
  }
}
