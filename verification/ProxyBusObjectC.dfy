/** The class that owns the listeners and their duplicated interface names, with `free` and
    `delete` made visible as a log of released addresses. */
module ProxyBusObjectC {
  import opened Common
  import opened ListenerMap

  /** Every address the entries own: a listener and a string each. */
  function Owned(s: seq<Entry>): multiset<Ptr> {
    if s == [] then multiset{} else multiset{s[0].listener, s[0].text} + Owned(s[1..])
  }

  lemma {:induction false} OwnedConcat(s: seq<Entry>, t: seq<Entry>)
    ensures Owned(s + t) == Owned(s) + Owned(t)
  {
    if s == [] {
      assert s + t == t;
    } else {
      assert (s + t)[1..] == s[1..] + t;
      OwnedConcat(s[1..], t);
    }
  }

  lemma OwnedOne(e: Entry)
    ensures Owned([e]) == multiset{e.listener, e.text}
  {
    assert [e][1..] == [];
  }

  lemma OwnedInsert(less: Order, m: seq<Entry>, e: Entry)
    ensures Owned(Insert(less, m, e)) == Owned(m) + multiset{e.listener, e.text}
  {
    var i := UpperBound(less, m, e.callback);
    assert m == m[..i] + m[i..];
    OwnedConcat(m[..i], m[i..]);
    OwnedConcat(m[..i] + [e], m[i..]);
    OwnedConcat(m[..i], [e]);
    OwnedOne(e);
  }

  lemma {:induction false} OwnedWithout(m: seq<Entry>, i: nat)
    requires i < |m|
    ensures Owned(m) == Owned(Without(m, i)) + multiset{m[i].listener, m[i].text}
  {
    if i != 0 {
      OwnedWithout(m[1..], i - 1);
      var rest := Without(m[1..], i - 1);
      assert ([m[0]] + rest)[1..] == rest;
    }
  }

  /** The addresses handed out so far, each once. */
  function Addresses(next: Ptr): seq<Ptr> { seq(next, i => i) }

  /** Each address handed out is owned by one entry, in the caller's hands, or freed: exactly one
      of the three, exactly once. */
  predicate Accounted(owned: multiset<Ptr>, loose: multiset<Ptr>, freed: seq<Ptr>, next: Ptr) {
    owned + loose + multiset(freed) == multiset(Addresses(next))
  }

  lemma AccountForNew(owned: multiset<Ptr>, freed: seq<Ptr>, next: Ptr)
    requires Accounted(owned, multiset{}, freed, next)
    ensures Accounted(owned + multiset{next, next + 1}, multiset{}, freed, next + 2)
  {
    assert Addresses(next + 2) == Addresses(next) + [next, next + 1];
  }

  lemma AccountForInsert(less: Order, m: seq<Entry>, e: Entry, freed: seq<Ptr>, next: Ptr)
    requires Accounted(Owned(m), multiset{}, freed, next) && e.listener == next && e.text == next + 1
    ensures Accounted(Owned(Insert(less, m, e)), multiset{}, freed, next + 2)
  {
    OwnedInsert(less, m, e);
    AccountForNew(Owned(m), freed, next);
  }

  lemma AccountForString(owned: multiset<Ptr>, freed: seq<Ptr>, next: Ptr, listener: Ptr, text: Ptr)
    requires Accounted(owned + multiset{listener, text}, multiset{}, freed, next)
    ensures Accounted(owned, multiset{listener}, freed + [text], next)
  {
    assert owned + multiset{listener, text} + multiset{} + multiset(freed)
           == owned + multiset{listener} + multiset(freed + [text]);
  }

  lemma AccountForErase(m: seq<Entry>, i: nat, freed: seq<Ptr>, next: Ptr)
    requires i < |m| && Accounted(Owned(m), multiset{}, freed, next)
    ensures Accounted(Owned(Without(m, i)), multiset{m[i].listener}, freed + [m[i].text], next)
  {
    OwnedWithout(m, i);
    AccountForString(Owned(Without(m, i)), freed, next, m[i].listener, m[i].text);
  }

  lemma AccountForListener(owned: multiset<Ptr>, freed: seq<Ptr>, next: Ptr, listener: Ptr)
    requires Accounted(owned, multiset{listener}, freed, next)
    ensures Accounted(owned, multiset{}, freed + [listener], next)
  {
    assert owned + multiset{listener} + multiset(freed) == owned + multiset{} + multiset(freed + [listener]);
  }

  /** The bounds and the scan find the first match of the whole multimap. */
  lemma ScanFindsFirstMatch(less: Order, m: seq<Entry>, cb: Callback, iface: string, it: nat)
    requires StrictWeakOrder(less) && Sorted(less, m)
    requires LowerBound(less, m, cb) <= it <= UpperBound(less, m, cb)
    requires forall k :: LowerBound(less, m, cb) <= k < it ==> m[k].iface != iface
    requires it < UpperBound(less, m, cb) ==> m[it].iface == iface
    ensures FirstMatch(less, m, cb, iface) == if it < UpperBound(less, m, cb) then it else |m|
  {
    forall k | 0 <= k < |m|
      ensures Equivalent(less, m[k].callback, cb) <==> LowerBound(less, m, cb) <= k < UpperBound(less, m, cb)
    { EqualRange(less, m, cb, k); }
    var i := FirstMatch(less, m, cb, iface);
    if i < |m| { assert Matches(less, m[i], cb, iface); }
    if it < UpperBound(less, m, cb) { assert Matches(less, m[it], cb, iface); }
  }

  class ProxyBusObjectC {
    var listeners: seq<Entry>          // std::multimap, in key order
    var freed: seq<Ptr>                // every free() and delete, in order
    var next: Ptr                      // the next fresh address
    const less: Order

    ghost predicate Valid(loose: multiset<Ptr>)
      reads this
    {
      && StrictWeakOrder(less) && Sorted(less, listeners)
      && Accounted(Owned(listeners), loose, freed, next)
    }

    constructor (less: Order)
      requires StrictWeakOrder(less)
      ensures Valid(multiset{}) && listeners == [] && freed == [] && this.less == less
    {
      listeners, freed, next := [], [], 0;
      this.less := less;
    }

    method Free(p: Ptr)
      modifies `freed
      ensures freed == old(freed) + [p]
    {
      freed := freed + [p];
    }

    method AddListener(iface: string, callback: Callback) returns (listener: Ptr)
      requires Valid(multiset{})
      modifies `listeners, `next
      ensures Valid(multiset{})
      ensures listener == old(next) && next == old(next) + 2
      ensures listeners == Insert(less, old(listeners), Entry(listener, callback, listener + 1, iface))
    {
      listener := next;                                  // new ...ListenerC(callback)
      var e := Entry(listener, callback, next + 1, iface);  // strdup(iface)
      next := next + 2;
      InsertKeepsSorted(less, listeners, e);
      AccountForInsert(less, listeners, e, freed, listener);
      listeners := Insert(less, listeners, e);
    }

    /** lower_bound, upper_bound and the scan for the interface name. */
    method FindListener(iface: string, callback: Callback) returns (it: nat)
      requires StrictWeakOrder(less) && Sorted(less, listeners)
      ensures it == FirstMatch(less, listeners, callback, iface)
    {
      it := LowerBound(less, listeners, callback);
      var end := UpperBound(less, listeners, callback);
      BoundsInOrder(less, listeners, callback);
      while it != end && listeners[it].iface != iface
        invariant LowerBound(less, listeners, callback) <= it <= end
        invariant forall k :: LowerBound(less, listeners, callback) <= k < it ==> listeners[k].iface != iface
        decreases end - it
      {
        it := it + 1;
      }
      ScanFindsFirstMatch(less, listeners, callback, iface, it);
      if it == end {
        it := |listeners|;                               // not found
      }
    }

    /** Frees the string and gives the listener back to the caller, still allocated. */
    method RemoveListener(iface: string, callback: Callback) returns (found: Option<Ptr>)
      requires Valid(multiset{})
      modifies `listeners, `freed
      ensures var i := FirstMatch(less, old(listeners), callback, iface);
              && listeners == Without(old(listeners), i)
              && (found.Some? <==> i < |old(listeners)|)
              && (found.Some? ==>
                    found.value == old(listeners)[i].listener && freed == old(freed) + [old(listeners)[i].text])
              && (found.None? ==> freed == old(freed))
      ensures Valid(if found.Some? then multiset{found.value} else multiset{})
    {
      var it := FindListener(iface, callback);
      found := None;
      if it < |listeners| {
        WithoutKeepsSorted(less, listeners, it);
        AccountForErase(listeners, it, freed, next);
        Free(listeners[it].text);
        found := Some(listeners[it].listener);
        listeners := Without(listeners, it);
      } else {
        WithoutIsSlices(listeners, it);
      }
    }

    /** alljoyn_proxybusobject_unregisterpropertieschangedlistener; `reply` is the core's status. */
    method Unregister(iface: string, callback: Callback, reply: Status) returns (status: Status)
      requires Valid(multiset{})
      modifies `listeners, `freed
      ensures Valid(multiset{})
      ensures var i := FirstMatch(less, old(listeners), callback, iface);
              && listeners == Without(old(listeners), i)
              && (if i < |old(listeners)|
                  then status == reply && freed == old(freed) + [old(listeners)[i].text] + [old(listeners)[i].listener]
                  else status == ER_FAIL && freed == old(freed))
    {
      status := ER_FAIL;
      var listener := RemoveListener(iface, callback);
      if listener.Some? {
        status := reply;
        AccountForListener(Owned(listeners), freed, next, listener.value);
        Free(listener.value);
      }
    }

    /** free(begin()->second); delete begin()->first; erase(begin()) */
    method ReleaseFirst()
      requires Valid(multiset{}) && listeners != []
      modifies `listeners, `freed
      ensures Valid(multiset{}) && listeners == old(listeners)[1..]
    {
      var e := listeners[0];
      assert Without(listeners, 0) == listeners[1..];
      WithoutKeepsSorted(less, listeners, 0);
      AccountForErase(listeners, 0, freed, next);
      AccountForListener(Owned(listeners[1..]), freed + [e.text], next, e.listener);
      Free(e.text);
      Free(e.listener);
      listeners := listeners[1..];
    }

    /** ~ProxyBusObjectC: afterwards every address ever handed out has been freed exactly once. */
    method Destroy()
      requires Valid(multiset{})
      modifies `listeners, `freed
      ensures listeners == [] && multiset(freed) == multiset(Addresses(next))
    {
      while listeners != []
        invariant Valid(multiset{})
        decreases |listeners|
      {
        ReleaseFirst();
      }
      assert multiset{} + multiset{} + multiset(freed) == multiset(freed);
    }
  }

  lemma BoundsInOrder(less: Order, m: seq<Entry>, cb: Callback)
    requires StrictWeakOrder(less) && Sorted(less, m)
    ensures LowerBound(less, m, cb) <= UpperBound(less, m, cb)
  {
    var lo, hi := LowerBound(less, m, cb), UpperBound(less, m, cb);
    if hi < lo { EqualRange(less, m, cb, hi); }
  }

  /** Between operations an address is live exactly if it is a key or a name of the multimap, and
      nothing is ever freed twice. */
  lemma LiveIffListed(s: seq<Entry>, freed: seq<Ptr>, next: Ptr, p: Ptr)
    requires Accounted(Owned(s), multiset{}, freed, next) && p < next
    ensures p !in freed <==> p in Owned(s)
    ensures Owned(s)[p] + multiset(freed)[p] == 1
  {
    AddressOnce(next, p);
    assert (Owned(s) + multiset{} + multiset(freed))[p] == Owned(s)[p] + multiset(freed)[p];
  }

  lemma {:induction false} AddressOnce(next: Ptr, p: Ptr)
    ensures multiset(Addresses(next))[p] == if p < next then 1 else 0
  {
    if next > 0 {
      AddressOnce(next - 1, p);
      assert Addresses(next) == Addresses(next - 1) + [next - 1];
    }
  }
}
