/** Method handlers of a bus object: `callbackMap` and the dispatch through it. */
module MethodDispatch {
  import opened Common

  type Member = nat
  type Handler = nat
  const NULL: Handler := 0

  /** std::map::insert: an existing entry wins. */
  function InsertNew(m: map<Member, Handler>, k: Member, h: Handler): map<Member, Handler> {
    if k in m then m else m[k := h]
  }

  /** The handler of the first addition for a member. */
  function FirstAdded(added: seq<(Member, Handler)>, k: Member): Option<Handler> {
    if added == [] then None
    else if added[0].0 == k then Some(added[0].1)
    else FirstAdded(added[1..], k)
  }

  lemma {:induction false} FirstAddedAppend(added: seq<(Member, Handler)>, more: seq<(Member, Handler)>, k: Member)
    ensures FirstAdded(added + more, k)
            == if FirstAdded(added, k).Some? then FirstAdded(added, k) else FirstAdded(more, k)
  {
    if added == [] {
      assert added + more == more;
    } else {
      assert (added + more)[1..] == added[1..] + more;
      FirstAddedAppend(added[1..], more, k);
    }
  }

  /** The map records, for each member, the first handler ever added and nothing else. */
  ghost predicate Records(m: map<Member, Handler>, added: seq<(Member, Handler)>) {
    forall k :: FirstAdded(added, k) == if k in m then Some(m[k]) else None
  }

  lemma InsertRecords(m: map<Member, Handler>, added: seq<(Member, Handler)>, k: Member, h: Handler)
    requires Records(m, added)
    ensures Records(InsertNew(m, k, h), added + [(k, h)])
  {
    forall j
      ensures FirstAdded(added + [(k, h)], j)
              == if j in InsertNew(m, k, h) then Some(InsertNew(m, k, h)[j]) else None
    {
      FirstAddedAppend(added, [(k, h)], j);
      assert [(k, h)][1..] == [];
    }
  }

  /** A handler just added, even one the core accepts, is the one that will run if and only if the
      member had none before or had that same handler. */
  lemma AddedHandlerRunsIff(added: seq<(Member, Handler)>, k: Member, h: Handler)
    ensures FirstAdded(added + [(k, h)], k) == Some(h)
            <==> FirstAdded(added, k) == None || FirstAdded(added, k) == Some(h)
  {
    FirstAddedAppend(added, [(k, h)], k);
  }

  lemma {:induction false} FirstAddedMember(added: seq<(Member, Handler)>, i: nat)
    requires i < |added|
    ensures FirstAdded(added, added[i].0).Some?
    ensures exists j :: 0 <= j <= i && added[j] == (added[i].0, FirstAdded(added, added[i].0).value)
  {
    if added[0].0 != added[i].0 {
      FirstAddedMember(added[1..], i - 1);
      var j :| 0 <= j <= i - 1 && added[1..][j] == (added[i].0, FirstAdded(added[1..], added[i].0).value);
      assert added[j + 1] == added[1..][j];
    } else {
      assert added[0] == (added[i].0, FirstAdded(added, added[i].0).value);
    }
  }

  class BusObjectC {
    var callbackMap: map<Member, Handler>
    ghost var added: seq<(Member, Handler)>      // every addition, in order
    ghost var accepted: set<Member>              // members the core dispatches to MethodHandlerRemap

    ghost predicate Valid()
      reads this
    {
      Records(callbackMap, added) && accepted <= callbackMap.Keys
    }

    constructor ()
      ensures Valid() && callbackMap == map[] && added == [] && accepted == {}
    {
      callbackMap, added, accepted := map[], [], {};
    }

    /** The map is filled before the core is asked, and keeps the entry if the core refuses. */
    method AddMethodHandlerC(k: Member, h: Handler, reply: Status) returns (ret: Status)
      requires Valid()
      modifies this
      ensures Valid() && added == old(added) + [(k, h)] && callbackMap == InsertNew(old(callbackMap), k, h)
      ensures accepted == (if reply == ER_OK then old(accepted) + {k} else old(accepted)) && ret == reply
    {
      InsertRecords(callbackMap, added, k, h);
      callbackMap := InsertNew(callbackMap, k, h);
      added := added + [(k, h)];
      accepted := if reply == ER_OK then accepted + {k} else accepted;
      ret := reply;
    }

    /** Bulk addition: the same as adding one by one; the core may take any of the members (`taken`)
        before it refuses, and takes all of them when it does not. */
    method AddMethodHandlersC(entries: seq<(Member, Handler)>, reply: Status, ghost taken: set<Member>)
      returns (ret: Status)
      requires Valid() && taken <= (set i | 0 <= i < |entries| :: entries[i].0)
      requires reply == ER_OK ==> taken == set i | 0 <= i < |entries| :: entries[i].0
      modifies this
      ensures Valid() && added == old(added) + entries && ret == reply && accepted == old(accepted) + taken
    {
      var i := 0;
      while i < |entries|
        invariant 0 <= i <= |entries|
        invariant added == old(added) + entries[..i] && accepted == old(accepted)
        invariant Records(callbackMap, added) && accepted <= callbackMap.Keys
      {
        InsertRecords(callbackMap, added, entries[i].0, entries[i].1);
        callbackMap := InsertNew(callbackMap, entries[i].0, entries[i].1);
        added := added + [entries[i]];
        assert entries[..i + 1] == entries[..i] + [entries[i]];
        i := i + 1;
      }
      assert entries[..i] == entries;
      forall k | k in taken ensures k in callbackMap {
        var j :| 0 <= j < |entries| && entries[j].0 == k;
        FirstAddedMember(added, |old(added)| + j);
      }
      accepted := accepted + taken;
      ret := reply;
    }

    /** Dispatch.  `callbackMap[member]` would insert a null for an unknown member; for a member the
        core dispatches it never does, and the handler is the first one ever added for it. */
    method MethodHandlerRemap(k: Member) returns (handler: Handler)
      requires Valid()
      modifies this
      ensures k in old(accepted) ==> callbackMap == old(callbackMap) && FirstAdded(added, k) == Some(handler)
      ensures k in old(accepted) && (forall i :: 0 <= i < |added| ==> added[i].1 != NULL) ==> handler != NULL
      ensures handler == if k in old(callbackMap) then old(callbackMap)[k] else NULL
      ensures callbackMap == if k in old(callbackMap) then old(callbackMap) else old(callbackMap)[k := NULL]
      ensures added == old(added) && accepted == old(accepted)
    {
      if k !in callbackMap {
        callbackMap := callbackMap[k := NULL];
      }
      handler := callbackMap[k];
      if k in accepted {
        AddedWasGiven(added, k);
      }
    }
  }

  lemma {:induction false} AddedWasGiven(added: seq<(Member, Handler)>, k: Member)
    requires FirstAdded(added, k).Some?
    ensures exists i :: 0 <= i < |added| && added[i] == (k, FirstAdded(added, k).value)
  {
    if added[0].0 == k {
      assert added[0] == (k, FirstAdded(added, k).value);
    } else {
      AddedWasGiven(added[1..], k);
      var i :| 0 <= i < |added[1..]| && added[1..][i] == (k, FirstAdded(added[1..], k).value);
      assert added[i + 1] == added[1..][i];
    }
  }
}
