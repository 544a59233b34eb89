/** The ordered multimap of properties-changed listeners, for any comparator. */
module ListenerMap {

  type Callback = int       // the C function, as an intptr_t
  type Ptr = nat            // a heap address
  type Order = (Callback, Callback) -> bool

  /** A multimap entry: the listener object (key) with its callback, and the duplicated name (value). */
  datatype Entry = Entry(listener: Ptr, callback: Callback, text: Ptr, iface: string)

  /** What std::multimap asks of its comparator. */
  ghost predicate StrictWeakOrder(less: Order) {
    && (forall a, b :: less(a, b) ==> !less(b, a))
    && (forall a, b, c :: less(a, c) ==> less(a, b) || less(b, c))
  }

  predicate Equivalent(less: Order, a: Callback, b: Callback) { !less(a, b) && !less(b, a) }

  ghost predicate Sorted(less: Order, m: seq<Entry>) {
    forall i, j :: 0 <= i < j < |m| ==> !less(m[j].callback, m[i].callback)
  }

  /** The first position whose key is not less than `key`. */
  function LowerBound(less: Order, m: seq<Entry>, key: Callback): (i: nat)
    ensures i <= |m| && (forall k :: 0 <= k < i ==> less(m[k].callback, key))
    ensures i < |m| ==> !less(m[i].callback, key)
  {
    if m == [] || !less(m[0].callback, key) then 0 else 1 + LowerBound(less, m[1..], key)
  }

  /** The first position whose key `key` is less than. */
  function UpperBound(less: Order, m: seq<Entry>, key: Callback): (i: nat)
    ensures i <= |m| && (forall k :: 0 <= k < i ==> !less(key, m[k].callback))
    ensures i < |m| ==> less(key, m[i].callback)
  {
    if m == [] || less(key, m[0].callback) then 0 else 1 + UpperBound(less, m[1..], key)
  }

  /** Insertion goes behind all equivalent keys (section 23.2.4 of C++11). */
  function Insert(less: Order, m: seq<Entry>, e: Entry): seq<Entry> {
    var i := UpperBound(less, m, e.callback);
    m[..i] + [e] + m[i..]
  }

  lemma InsertKeepsSorted(less: Order, m: seq<Entry>, e: Entry)
    requires StrictWeakOrder(less) && Sorted(less, m)
    ensures Sorted(less, Insert(less, m, e))
  {
    var i := UpperBound(less, m, e.callback);
    forall k | i <= k < |m| ensures !less(m[k].callback, e.callback) {
      assert less(e.callback, m[i].callback) && (k == i || !less(m[k].callback, m[i].callback));
      assert less(e.callback, m[k].callback);
    }
  }

  // ---------------------------------------------------------------- first match in a list

  predicate Matches(less: Order, e: Entry, cb: Callback, iface: string) {
    Equivalent(less, e.callback, cb) && e.iface == iface
  }

  /** The position of the first entry equivalent to `cb` and named `iface`, or the length. */
  function FirstMatch(less: Order, s: seq<Entry>, cb: Callback, iface: string): (i: nat)
    ensures i <= |s| && (forall k :: 0 <= k < i ==> !Matches(less, s[k], cb, iface))
    ensures i < |s| ==> Matches(less, s[i], cb, iface)
  {
    if s == [] || Matches(less, s[0], cb, iface) then 0 else 1 + FirstMatch(less, s[1..], cb, iface)
  }

  /** The list without its i-th entry, if it has one. */
  function Without(s: seq<Entry>, i: nat): seq<Entry> {
    if s == [] then [] else if i == 0 then s[1..] else [s[0]] + Without(s[1..], i - 1)
  }

  lemma {:induction false} WithoutIsSlices(s: seq<Entry>, i: nat)
    ensures Without(s, i) == if i < |s| then s[..i] + s[i + 1..] else s
  {
    if s != [] && i != 0 {
      WithoutIsSlices(s[1..], i - 1);
      if i < |s| {
        assert s[..i] == [s[0]] + s[1..][..i - 1] && s[i + 1..] == s[1..][i..];
      }
    }
  }

  lemma WithoutKeepsSorted(less: Order, m: seq<Entry>, i: nat)
    requires Sorted(less, m)
    ensures Sorted(less, Without(m, i))
  {
    WithoutIsSlices(m, i);
  }

  /** In a sorted multimap the keys equivalent to `cb` are exactly those between the bounds. */
  lemma EqualRange(less: Order, m: seq<Entry>, cb: Callback, k: nat)
    requires StrictWeakOrder(less) && Sorted(less, m) && k < |m|
    ensures Equivalent(less, m[k].callback, cb) <==> LowerBound(less, m, cb) <= k < UpperBound(less, m, cb)
  {
  }

  // ---------------------------------------------------------------- insertion order

  /** The entries equivalent to `cb`, in list order. */
  function Class(less: Order, s: seq<Entry>, cb: Callback): seq<Entry> {
    if s == [] then []
    else (if Equivalent(less, s[0].callback, cb) then [s[0]] else []) + Class(less, s[1..], cb)
  }

  lemma {:induction false} ClassConcat(less: Order, s: seq<Entry>, t: seq<Entry>, cb: Callback)
    ensures Class(less, s + t, cb) == Class(less, s, cb) + Class(less, t, cb)
  {
    if s == [] {
      assert s + t == t;
    } else {
      assert (s + t)[1..] == s[1..] + t && (s + t)[0] == s[0];
      ClassConcat(less, s[1..], t, cb);
      var head := if Equivalent(less, s[0].callback, cb) then [s[0]] else [];
      var rest, back := Class(less, s[1..], cb), Class(less, t, cb);
      assert head + (rest + back) == head + rest + back;
    }
  }

  lemma {:induction false} ClassEmpty(less: Order, s: seq<Entry>, cb: Callback)
    requires forall k :: 0 <= k < |s| ==> !Equivalent(less, s[k].callback, cb)
    ensures Class(less, s, cb) == []
  {
    if s != [] {
      assert !Equivalent(less, s[0].callback, cb);
      ClassEmpty(less, s[1..], cb);
    }
  }

  lemma BeyondUpperBound(less: Order, m: seq<Entry>, key: Callback, cb: Callback)
    requires StrictWeakOrder(less) && Sorted(less, m) && Equivalent(less, key, cb)
    ensures Class(less, m[UpperBound(less, m, key)..], cb) == []
  {
    var i := UpperBound(less, m, key);
    forall k | 0 <= k < |m[i..]| ensures !Equivalent(less, m[i..][k].callback, cb) {
      assert m[i..][k] == m[i + k] && (k == 0 || !less(m[i + k].callback, m[i].callback));
      assert less(key, m[i + k].callback);
    }
    ClassEmpty(less, m[i..], cb);
  }

  lemma ClassOfThree(less: Order, front: seq<Entry>, mid: seq<Entry>, back: seq<Entry>, cb: Callback)
    ensures Class(less, front + mid + back, cb) == Class(less, front, cb) + Class(less, mid, cb) + Class(less, back, cb)
    ensures Class(less, front + back, cb) == Class(less, front, cb) + Class(less, back, cb)
  {
    ClassConcat(less, front, back, cb);
    ClassConcat(less, front + mid, back, cb);
    ClassConcat(less, front, mid, cb);
  }

  /** Inserting into the multimap and appending to a list do the same to every class of keys. */
  lemma InsertIsAppend(less: Order, m: seq<Entry>, e: Entry, cb: Callback)
    requires StrictWeakOrder(less) && Sorted(less, m)
    ensures Class(less, Insert(less, m, e), cb) == Class(less, m, cb) + Class(less, [e], cb)
  {
    var i := UpperBound(less, m, e.callback);
    assert m == m[..i] + m[i..];
    ClassOfThree(less, m[..i], [e], m[i..], cb);
    if Equivalent(less, e.callback, cb) {
      BeyondUpperBound(less, m, e.callback, cb);
    } else {
      ClassEmpty(less, [e], cb);
    }
  }

  lemma {:induction false} SameClass(less: Order, s: seq<Entry>, c: Callback, cb: Callback)
    requires StrictWeakOrder(less) && Equivalent(less, c, cb)
    ensures Class(less, s, c) == Class(less, s, cb)
  {
    if s != [] {
      SameClass(less, s[1..], c, cb);
      assert Equivalent(less, s[0].callback, c) <==> Equivalent(less, s[0].callback, cb);
    }
  }

  /** The first match of a list is the first match of its class ... */
  lemma {:induction false} MatchInClass(less: Order, s: seq<Entry>, cb: Callback, iface: string)
    ensures var i, f := FirstMatch(less, s, cb, iface), Class(less, s, cb);
            var j := FirstMatch(less, f, cb, iface);
            (i < |s| <==> j < |f|) && (i < |s| ==> s[i] == f[j])
  {
    if s != [] {
      MatchInClass(less, s[1..], cb, iface);
      if Equivalent(less, s[0].callback, cb) {
        assert Class(less, s, cb) == [s[0]] + Class(less, s[1..], cb);
        assert Class(less, s, cb)[1..] == Class(less, s[1..], cb);
      } else {
        assert Class(less, s, cb) == Class(less, s[1..], cb);
      }
    }
  }

  /** ... and taking it out of the list takes it out of the class, and of no other. */
  lemma {:induction false} RemovalInClass(less: Order, s: seq<Entry>, cb: Callback, iface: string)
    ensures var i, f := FirstMatch(less, s, cb, iface), Class(less, s, cb);
            Class(less, Without(s, i), cb) == Without(f, FirstMatch(less, f, cb, iface))
  {
    if s != [] {
      var g := Class(less, s[1..], cb);
      RemoveFromCons(less, s[0], s[1..], cb, iface);
      assert s == [s[0]] + s[1..];
      if Matches(less, s[0], cb, iface) {
        RemoveFromCons(less, s[0], g, cb, iface);
      } else {
        RemovalInClass(less, s[1..], cb, iface);
        var rest := Without(s[1..], FirstMatch(less, s[1..], cb, iface));
        ClassConcat(less, [s[0]], rest, cb);
        if Equivalent(less, s[0].callback, cb) {
          RemoveFromCons(less, s[0], g, cb, iface);
        } else {
          assert Class(less, s, cb) == g;
        }
      }
    }
  }

  lemma RemoveFromCons(less: Order, e: Entry, s: seq<Entry>, cb: Callback, iface: string)
    ensures Without([e] + s, FirstMatch(less, [e] + s, cb, iface))
            == if Matches(less, e, cb, iface) then s else [e] + Without(s, FirstMatch(less, s, cb, iface))
  {
    assert ([e] + s)[1..] == s;
  }

  lemma {:induction false} RemovalOutsideClass(less: Order, s: seq<Entry>, cb: Callback, iface: string, c: Callback)
    requires StrictWeakOrder(less) && !Equivalent(less, c, cb)
    ensures Class(less, Without(s, FirstMatch(less, s, cb, iface)), c) == Class(less, s, c)
  {
    if s != [] {
      assert s == [s[0]] + s[1..];
      RemoveFromCons(less, s[0], s[1..], cb, iface);
      if Matches(less, s[0], cb, iface) {
        assert !Equivalent(less, s[0].callback, c);
      } else {
        RemovalOutsideClass(less, s[1..], cb, iface, c);
        var rest := Without(s[1..], FirstMatch(less, s[1..], cb, iface));
        assert ([s[0]] + rest)[1..] == rest;
      }
    }
  }

  // ---------------------------------------------------------------- the multimap refines a list

  /** The multimap and the insertion-ordered list agree on every class of keys. */
  ghost predicate Agrees(less: Order, m: seq<Entry>, list: seq<Entry>) {
    forall cb :: Class(less, m, cb) == Class(less, list, cb)
  }

  lemma AddRefines(less: Order, m: seq<Entry>, list: seq<Entry>, e: Entry)
    requires StrictWeakOrder(less) && Sorted(less, m) && Agrees(less, m, list)
    ensures Sorted(less, Insert(less, m, e)) && Agrees(less, Insert(less, m, e), list + [e])
  {
    InsertKeepsSorted(less, m, e);
    forall cb ensures Class(less, Insert(less, m, e), cb) == Class(less, list + [e], cb) {
      InsertIsAppend(less, m, e, cb);
      ClassConcat(less, list, [e], cb);
    }
  }

  /** A lookup in the multimap finds the earliest-added entry equivalent to the callback and
      named like the interface, and nothing if there is none; removing it keeps agreement. */
  lemma RemoveRefines(less: Order, m: seq<Entry>, list: seq<Entry>, cb: Callback, iface: string)
    requires StrictWeakOrder(less) && Sorted(less, m) && Agrees(less, m, list)
    ensures var i, j := FirstMatch(less, m, cb, iface), FirstMatch(less, list, cb, iface);
            && (i < |m| <==> j < |list|) && (i < |m| ==> m[i] == list[j])
            && Sorted(less, Without(m, i)) && Agrees(less, Without(m, i), Without(list, j))
  {
    MatchInClass(less, m, cb, iface);
    MatchInClass(less, list, cb, iface);
    var i, j := FirstMatch(less, m, cb, iface), FirstMatch(less, list, cb, iface);
    WithoutKeepsSorted(less, m, i);
    forall c ensures Class(less, Without(m, i), c) == Class(less, Without(list, j), c) {
      RemovalAgrees(less, m, list, cb, iface, c);
    }
  }

  lemma RemovalAgrees(less: Order, m: seq<Entry>, list: seq<Entry>, cb: Callback, iface: string, c: Callback)
    requires StrictWeakOrder(less)
    requires Class(less, m, cb) == Class(less, list, cb) && Class(less, m, c) == Class(less, list, c)
    ensures Class(less, Without(m, FirstMatch(less, m, cb, iface)), c)
            == Class(less, Without(list, FirstMatch(less, list, cb, iface)), c)
  {
    if Equivalent(less, c, cb) {
      SameClass(less, Without(m, FirstMatch(less, m, cb, iface)), c, cb);
      SameClass(less, Without(list, FirstMatch(less, list, cb, iface)), c, cb);
      RemovalInClass(less, m, cb, iface);
      RemovalInClass(less, list, cb, iface);
    } else {
      RemovalOutsideClass(less, m, cb, iface, c);
      RemovalOutsideClass(less, list, cb, iface, c);
    }
  }

  /** A run of registrations and unregistrations on both. */
  datatype Op = AddOp(entry: Entry) | RemoveOp(cb: Callback, iface: string)

  function RunMap(less: Order, ops: seq<Op>): seq<Entry> {
    if ops == [] then [] else
      var m := RunMap(less, ops[..|ops| - 1]);
      match ops[|ops| - 1]
      case AddOp(e) => Insert(less, m, e)
      case RemoveOp(cb, iface) => Without(m, FirstMatch(less, m, cb, iface))
  }

  function RunList(less: Order, ops: seq<Op>): seq<Entry> {
    if ops == [] then [] else
      var l := RunList(less, ops[..|ops| - 1]);
      match ops[|ops| - 1]
      case AddOp(e) => l + [e]
      case RemoveOp(cb, iface) => Without(l, FirstMatch(less, l, cb, iface))
  }

  /** For every strict weak order, every run and every lookup after it: the multimap answers like
      the list of listeners in the order they were added, keyed by equivalence. */
  lemma {:induction false} MultimapRefinesList(less: Order, ops: seq<Op>, cb: Callback, iface: string)
    requires StrictWeakOrder(less)
    ensures Sorted(less, RunMap(less, ops)) && Agrees(less, RunMap(less, ops), RunList(less, ops))
    ensures var m, l := RunMap(less, ops), RunList(less, ops);
            var i, j := FirstMatch(less, m, cb, iface), FirstMatch(less, l, cb, iface);
            (i < |m| <==> j < |l|) && (i < |m| ==> m[i] == l[j])
  {
    if ops != [] {
      var front := ops[..|ops| - 1];
      MultimapRefinesList(less, front, cb, iface);
      match ops[|ops| - 1]
      case AddOp(e) => AddRefines(less, RunMap(less, front), RunList(less, front), e);
      case RemoveOp(c, name) => RemoveRefines(less, RunMap(less, front), RunList(less, front), c, name);
    }
    RemoveRefines(less, RunMap(less, ops), RunList(less, ops), cb, iface);
  }

  /** What is listed was added, as it is. */
  lemma {:induction false} ListedWasAdded(less: Order, ops: seq<Op>, k: nat)
    requires k < |RunList(less, ops)|
    ensures AddOp(RunList(less, ops)[k]) in ops
  {
    var front, op := ops[..|ops| - 1], ops[|ops| - 1];
    var l := RunList(less, front);
    match op
    case AddOp(e) =>
      if k < |l| { ListedWasAdded(less, front, k); }
    case RemoveOp(cb, iface) =>
      var i := FirstMatch(less, l, cb, iface);
      WithoutIsSlices(l, i);
      ListedWasAdded(less, front, if k < i then k else k + 1);
  }

  /** After any run, a listener registered under a callback and an interface not registered before is the
      one that a lookup for them finds, and unregistering them undoes the registration. */
  lemma UnregisterUndoesRegister(less: Order, ops: seq<Op>, e: Entry)
    requires StrictWeakOrder(less)
    requires FirstMatch(less, RunMap(less, ops), e.callback, e.iface) == |RunMap(less, ops)|
    ensures var m := RunMap(less, ops + [AddOp(e)]); var i := FirstMatch(less, m, e.callback, e.iface);
            i < |m| && m[i] == e
    ensures RunMap(less, ops + [AddOp(e)] + [RemoveOp(e.callback, e.iface)]) == RunMap(less, ops)
  {
    var added := ops + [AddOp(e)];
    assert added[..|ops|] == ops && (added + [RemoveOp(e.callback, e.iface)])[..|added|] == added;
    InsertedIsFound(less, RunMap(less, ops), e);
  }

  lemma InsertedIsFound(less: Order, m: seq<Entry>, e: Entry)
    requires StrictWeakOrder(less) && FirstMatch(less, m, e.callback, e.iface) == |m|
    ensures var m', u := Insert(less, m, e), UpperBound(less, m, e.callback);
            FirstMatch(less, m', e.callback, e.iface) == u && u < |m'| && m'[u] == e && Without(m', u) == m
  {
    var m', u := Insert(less, m, e), UpperBound(less, m, e.callback);
    assert Matches(less, m'[u], e.callback, e.iface);
    assert forall k :: 0 <= k < u ==> m'[k] == m[k];
    WithoutIsSlices(m', u);
    assert m'[..u] == m[..u] && m'[u + 1..] == m[u..];
  }

  // ---------------------------------------------------------------- the comparator as written

  /** The comparator of the source compares its left operand with itself. */
  function AsWritten(): Order { (lhs: Callback, rhs: Callback) => lhs < lhs }

  /** The evident intention. */
  function Intended(): Order { (lhs: Callback, rhs: Callback) => lhs < rhs }

  lemma BothAreStrictWeakOrders()
    ensures StrictWeakOrder(AsWritten()) && StrictWeakOrder(Intended())
    ensures forall a, b :: Equivalent(AsWritten(), a, b)
    ensures forall a, b :: Equivalent(Intended(), a, b) <==> a == b
  {
  }

  /** The earliest entry for an interface, or the length. */
  function Earliest(l: seq<Entry>, iface: string): (i: nat)
    ensures i <= |l| && (forall k :: 0 <= k < i ==> l[k].iface != iface) && (i < |l| ==> l[i].iface == iface)
  {
    if l == [] || l[0].iface == iface then 0 else 1 + Earliest(l[1..], iface)
  }

  /** As written, the callback plays no part: a lookup takes the earliest-added listener for the
      interface, whatever its callback.  As intended, it finds a listener if and only if one with
      that callback and interface exists, and then the earliest-added such. */
  lemma WhatEachOrderFinds(l: seq<Entry>, cb: Callback, iface: string)
    ensures FirstMatch(AsWritten(), l, cb, iface) == Earliest(l, iface)
    ensures var i := FirstMatch(Intended(), l, cb, iface);
            && (i < |l| <==> exists k :: 0 <= k < |l| && l[k].callback == cb && l[k].iface == iface)
            && (i < |l| ==> l[i].callback == cb && l[i].iface == iface)
  {
    BothAreStrictWeakOrders();
    var i, j := FirstMatch(AsWritten(), l, cb, iface), Earliest(l, iface);
    if i < |l| { assert Matches(AsWritten(), l[i], cb, iface); }
    if j < |l| { assert Matches(AsWritten(), l[j], cb, iface); }
    forall k | 0 <= k < |l| && l[k].callback == cb && l[k].iface == iface
      ensures Matches(Intended(), l[k], cb, iface)
    {
    }
  }

  /** In every run with the comparator as written, the multimap is the plain list of listeners in the
      order they were added, and a lookup takes the earliest one for the interface. */
  lemma {:induction false} AsWrittenRun(ops: seq<Op>, cb: Callback, iface: string)
    ensures var m := RunMap(AsWritten(), ops);
            m == RunList(AsWritten(), ops) && FirstMatch(AsWritten(), m, cb, iface) == Earliest(m, iface)
  {
    if ops != [] {
      AsWrittenRun(ops[..|ops| - 1], cb, iface);
      var m := RunMap(AsWritten(), ops[..|ops| - 1]);
      if ops[|ops| - 1].AddOp? {
        assert UpperBound(AsWritten(), m, ops[|ops| - 1].entry.callback) == |m|;
        assert m[..|m|] == m && m[|m|..] == [];
      }
    }
    WhatEachOrderFinds(RunMap(AsWritten(), ops), cb, iface);
  }

  /** In every run with the intended comparator, a lookup finds a listener if and only if one with
      that callback and interface is registered, and then the earliest-added such. */
  lemma IntendedRun(ops: seq<Op>, cb: Callback, iface: string)
    ensures var m, l := RunMap(Intended(), ops), RunList(Intended(), ops);
            var i, j := FirstMatch(Intended(), m, cb, iface), FirstMatch(Intended(), l, cb, iface);
            && (i < |m| <==> exists k :: 0 <= k < |l| && l[k].callback == cb && l[k].iface == iface)
            && (i < |m| ==> j < |l| && m[i] == l[j] && l[j].callback == cb
                            && forall k :: 0 <= k < j ==> l[k].callback != cb || l[k].iface != iface)
  {
    BothAreStrictWeakOrders();
    MultimapRefinesList(Intended(), ops, cb, iface);
    WhatEachOrderFinds(RunList(Intended(), ops), cb, iface);
    var l := RunList(Intended(), ops);
    var j := FirstMatch(Intended(), l, cb, iface);
    forall k | 0 <= k < j ensures l[k].callback != cb || l[k].iface != iface {
      assert !Matches(Intended(), l[k], cb, iface);
    }
  }

  /** The interface has no listener, or its earliest one has the given callback. */
  predicate Meant(l: seq<Entry>, cb: Callback, iface: string) {
    Earliest(l, iface) < |l| ==> l[Earliest(l, iface)].callback == cb
  }

  /** The two orders look up the same listener if and only if the earliest is the one meant. */
  lemma OrdersAgreeIff(l: seq<Entry>, cb: Callback, iface: string)
    ensures FirstMatch(AsWritten(), l, cb, iface) == FirstMatch(Intended(), l, cb, iface) <==> Meant(l, cb, iface)
  {
    BothAreStrictWeakOrders();
    WhatEachOrderFinds(l, cb, iface);
    var i, j := Earliest(l, iface), FirstMatch(Intended(), l, cb, iface);
    if i < |l| && l[i].callback == cb {
      assert Matches(Intended(), l[i], cb, iface);
    }
  }

  /** Taking out a different listener leaves a different list. */
  lemma RemovalsAgreeIff(l: seq<Entry>, cb: Callback, iface: string)
    ensures Without(l, FirstMatch(AsWritten(), l, cb, iface)) == Without(l, FirstMatch(Intended(), l, cb, iface))
            <==> Meant(l, cb, iface)
  {
    OrdersAgreeIff(l, cb, iface);
    WhatEachOrderFinds(l, cb, iface);
    var i, j := FirstMatch(AsWritten(), l, cb, iface), FirstMatch(Intended(), l, cb, iface);
    WithoutIsSlices(l, i);
    WithoutIsSlices(l, j);
    if !Meant(l, cb, iface) && j < |l| && Without(l, i) == Without(l, j) {
      SameGapSameEntry(l, i, j);
    }
  }

  /** Lists that agree after removing at `i` and at `j` repeat one entry between the two. */
  lemma {:induction false} SameGapSameEntry(l: seq<Entry>, i: nat, j: nat)
    requires i <= j < |l| && l[..i] + l[i + 1..] == l[..j] + l[j + 1..]
    ensures l[i] == l[j]
    decreases j - i
  {
    if i < j {
      var a, b := l[..i] + l[i + 1..], l[..j] + l[j + 1..];
      assert a[i] == l[i + 1] && b[i] == l[i];
      assert l[..i + 1] + l[i + 2..] == a;
      SameGapSameEntry(l, i + 1, j);
    }
  }

  /** Every unregistration of a run met, in the list then registered, the listener it meant. */
  ghost predicate AllMeant(ops: seq<Op>) {
    forall n :: 0 <= n < |ops| && ops[n].RemoveOp? ==> Meant(RunList(AsWritten(), ops[..n]), ops[n].cb, ops[n].iface)
  }

  /** The two comparators register the same listeners up to every point of a run. */
  ghost predicate InStep(ops: seq<Op>) {
    forall n :: 0 <= n <= |ops| ==> RunList(AsWritten(), ops[..n]) == RunList(Intended(), ops[..n])
  }

  /** Over whole runs: the two comparators stay in step if and only if every unregistration met the
      listener it meant. */
  lemma {:induction false} RunsAgreeIff(ops: seq<Op>)
    ensures InStep(ops) <==> AllMeant(ops)
  {
    if ops != [] {
      var front, op := ops[..|ops| - 1], ops[|ops| - 1];
      RunsAgreeIff(front);
      OneMoreAgreesIff(front, op);
      assert front + [op] == ops;
    }
  }

  lemma OneMoreAgreesIff(front: seq<Op>, op: Op)
    requires InStep(front) <==> AllMeant(front)
    ensures InStep(front + [op]) <==> AllMeant(front + [op])
  {
    InStepSnoc(front, op);
    AllMeantSnoc(front, op);
    if RunList(AsWritten(), front) == RunList(Intended(), front) {
      LastCallAgreesIff(front, op);
    }
  }

  lemma LastCallAgreesIff(front: seq<Op>, op: Op)
    requires RunList(AsWritten(), front) == RunList(Intended(), front)
    ensures RunList(AsWritten(), front + [op]) == RunList(Intended(), front + [op])
            <==> (op.RemoveOp? ==> Meant(RunList(AsWritten(), front), op.cb, op.iface))
  {
    assert (front + [op])[..|front|] == front;
    if op.RemoveOp? {
      RemovalsAgreeIff(RunList(AsWritten(), front), op.cb, op.iface);
    }
  }

  lemma InStepSnoc(front: seq<Op>, op: Op)
    ensures InStep(front + [op]) <==>
            InStep(front) && RunList(AsWritten(), front + [op]) == RunList(Intended(), front + [op])
    ensures InStep(front) ==> RunList(AsWritten(), front) == RunList(Intended(), front)
  {
    var ops := front + [op];
    assert ops[..|ops|] == ops && front[..|front|] == front;
    assert forall n :: 0 <= n <= |front| ==> front[..n] == ops[..n];
  }

  lemma AllMeantSnoc(front: seq<Op>, op: Op)
    ensures AllMeant(front + [op]) <==>
            AllMeant(front) && (op.RemoveOp? ==> Meant(RunList(AsWritten(), front), op.cb, op.iface))
  {
    var ops := front + [op];
    assert ops[..|front|] == front;
    assert forall n :: 0 <= n < |front| ==> front[..n] == ops[..n] && front[n] == ops[n];
  }
}
