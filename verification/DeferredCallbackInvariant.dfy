/** One joint invariant of the deferred-callback protocol and the safety it gives. */
module DeferredCallbackInvariant {
  import opened Common
  import opened DeferredCallback

  // ---------------------------------------------------------------- vocabulary

  /** The last three program points of `Execute`, which carry the route taken. */
  predicate Leaving(pc: IssuePc) {
    pc.ReadResult? || pc.SetFinished? || pc.Returned?
  }

  /** The drainer has popped an object and not yet deleted it. */
  predicate Holds(pc: DrainPc) {
    pc.UnlockPopped? || TouchesPopped(pc)
  }

  /** The activation is between Lock and Unlock of the list. */
  predicate IssueInside(pc: IssuePc) {
    pc.Push? || pc.UnlockList?
  }

  predicate DrainInside(pc: DrainPc) {
    pc.Pop? || pc.UnlockEmpty? || pc.UnlockPopped?
  }

  /** The objects of a log of (drainer, object) pairs. */
  function Ids(log: seq<(DrainId, CallbackId)>): (ids: seq<CallbackId>)
    ensures |ids| == |log|
    ensures forall k :: 0 <= k < |log| ==> ids[k] == log[k].1
  {
    seq(|log|, k requires 0 <= k < |log| => log[k].1)
  }

  // ---------------------------------------------------------------- the invariant

  /** How far `Execute` can be, given where its object is; only a deleted object has no memory. */
  predicate PlaceOk(o: Object) {
    match o.place
    case Private =>
      && o.cell.Some?
      && !o.pc.UnlockList? && !o.pc.CheckMode? && !o.pc.CheckThread? && !o.pc.Spin?
      && (Leaving(o.pc) ==> o.pc.route == Direct)
    case Gone => o.cell.None? && o.pc.Returned? && o.pc.route != Direct
    case _ =>
      && o.cell.Some?
      && (|| o.pc.UnlockList? || o.pc.CheckMode? || o.pc.CheckThread? || o.pc.Spin?
          || (Leaving(o.pc) && o.pc.route != Direct))
  }

  /** The result slot and the flags agree with what the callback has done. */
  predicate CellOk(o: Object) {
    o.cell.Some? ==>
      && (o.cell.value.finished <==> o.pc.Returned?)
      && (o.cell.value.executeNow ==> o.run.Completed?)
      && o.cell.value.retVal == (if o.run.Completed? && o.hasResult then Some(o.run.result) else None)
  }

  /** What the callback has done by the time `Execute` is at its program point. */
  predicate RunOk(o: Object) {
    && (o.pc.InDirect? ==> o.run == Running)
    && (o.place == Private && !o.pc.InDirect? && !o.pc.SignalDirect? && !Leaving(o.pc) ==> o.run == NotRun)
    && (o.pc.SignalDirect? || o.place == Gone ==> o.run.Completed?)
    && (o.place == Listed ==> o.run == NotRun)
    && (Leaving(o.pc) && o.pc.route != Skipped ==> o.run.Completed?)
    && (!o.pc.ReadResult? && Leaving(o.pc) && o.pc.route != Skipped && o.hasResult ==> o.pc.ret == Some(o.run.result))
  }

  predicate ObjectOk(o: Object) {
    PlaceOk(o) && CellOk(o) && RunOk(o)
  }

  /** What the drainer that popped an object knows about it. */
  predicate PoppedOk(pc: DrainPc, o: Object) {
    && o.cell.Some?
    && match pc
       case UnlockPopped(_) => o.run == NotRun
       case Run(_) => o.run == NotRun
       case InCallback(_) => o.run == Running
       case Signal(_) => o.run.Completed?
       case AwaitFinished(_) => o.cell.value.executeNow
       case Delete(_) => o.cell.value.executeNow && o.cell.value.finished
       case _ => true
  }

  /** Each object is with its issuer only, on the list, with exactly one drainer, or deleted. */
  ghost predicate Objects(s: State) {
    && (forall id :: id in s.objects ==> ObjectOk(s.objects[id]))
    && (forall d :: d in s.drains && Holds(s.drains[d].pc) ==>
          var cb := s.drains[d].pc.cb;
          cb in s.objects && s.objects[cb].place == Held(d) && PoppedOk(s.drains[d].pc, s.objects[cb]))
    && (forall id :: id in s.objects && s.objects[id].place.Held? ==>
          var d := s.objects[id].place.d;
          d in s.drains && Holds(s.drains[d].pc) && s.drains[d].pc.cb == id)
  }

  /** The list lock is held by exactly the activation that is between Lock and Unlock. */
  ghost predicate Locking(s: State) {
    && (forall id :: id in s.objects ==> (IssueInside(s.objects[id].pc) <==> s.g.lock == Issuer(id)))
    && (forall d :: d in s.drains ==> (DrainInside(s.drains[d].pc) <==> s.g.lock == Drainer(d)))
    && (s.g.lock.Issuer? ==> s.g.lock.id in s.objects)
    && (s.g.lock.Drainer? ==> s.g.lock.d in s.drains)
  }

  /** The list holds each listed object once, and what was pushed is what was popped
      followed by what is pending. */
  ghost predicate Lists(s: State) {
    && Distinct(s.g.pending)
    && (forall id :: id in s.g.pending ==> id in s.objects && s.objects[id].place == Listed)
    && (forall id :: id in s.objects && s.objects[id].place == Listed ==> id in s.g.pending)
    && Distinct(s.log.pushed)
    && (forall id :: id in s.log.pushed ==> id in s.objects && s.objects[id].place != Private)
    && s.log.pushed == Ids(s.log.popped) + s.g.pending
  }

  /** Nothing is started or deleted twice, and the deleted objects are the ones without memory. */
  ghost predicate Logs(s: State) {
    && Distinct(Ids(s.log.started)) && Distinct(s.log.direct) && Distinct(Ids(s.log.deleted))
    && (forall id :: id in Ids(s.log.started) ==>
          id in s.objects && s.objects[id].run != NotRun && s.objects[id].place != Private)
    && (forall id :: id in s.log.direct ==>
          id in s.objects && s.objects[id].run != NotRun && s.objects[id].place == Private)
    && (forall id :: id in Ids(s.log.deleted) ==> id in s.objects && s.objects[id].place == Gone)
    && (forall id :: id in s.objects && s.objects[id].place == Gone ==> id in Ids(s.log.deleted))
  }

  ghost predicate Inv(s: State) {
    !s.fault && Objects(s) && Locking(s) && Lists(s) && Logs(s)
  }

  // ---------------------------------------------------------------- every step keeps it

  lemma IdsAppend(log: seq<(DrainId, CallbackId)>, d: DrainId, id: CallbackId)
    ensures Ids(log + [(d, id)]) == Ids(log) + [id]
  {
  }

  /** A step of `Execute` keeps its own object in order ... */
  lemma IssueObjectOk(g: Globals, o: Object, v: Value)
    requires ObjectOk(o)
    ensures TouchesObject(o.pc) ==> o.cell.Some?
    ensures ObjectOk(IssueObject(g, o, v))
  {
    IssuePlaceOk(g, o, v);
    IssueCellOk(g, o, v);
    IssueRunOk(g, o, v);
  }

  lemma IssuePlaceOk(g: Globals, o: Object, v: Value)
    requires PlaceOk(o)
    ensures PlaceOk(IssueObject(g, o, v))
  {
  }

  lemma IssueCellOk(g: Globals, o: Object, v: Value)
    requires ObjectOk(o)
    ensures CellOk(IssueObject(g, o, v))
  {
  }

  lemma IssueRunOk(g: Globals, o: Object, v: Value)
    requires ObjectOk(o)
    ensures RunOk(IssueObject(g, o, v))
  {
  }

  /** ... and does not disturb what a drainer knows about it. */
  lemma IssuePoppedOk(g: Globals, o: Object, v: Value, pc: DrainPc)
    requires ObjectOk(o) && o.place.Held? && PoppedOk(pc, o)
    ensures PoppedOk(pc, IssueObject(g, o, v)) && IssueObject(g, o, v).place == o.place
  {
  }

  /** A step of the drainer keeps the object it holds in order, and what it knows about it. */
  lemma DrainObjectOk(o: Object, d: DrainId, p: Drain, g: Globals, v: Value)
    requires ObjectOk(o) && PoppedOk(p.pc, o) && Holds(p.pc) && o.place == Held(d)
    ensures ObjectOk(DrainObject(o, d, p.pc, v))
    ensures DrainObject(o, d, p.pc, v).place == if p.pc.Delete? then Gone else Held(d)
    ensures var pc' := DrainNext(g, o.cell.value.finished, p).pc;
            && (Holds(pc') <==> !p.pc.Delete?)
            && (Holds(pc') ==> pc'.cb == p.pc.cb && PoppedOk(pc', DrainObject(o, d, p.pc, v)))
  {
  }

  /** One object and possibly the drainer that holds it move; the rest stay in order. */
  lemma ObjectMoves(s: State, s': State, id: CallbackId)
    requires Objects(s) && id in s.objects && id in s'.objects && s'.objects == s.objects[id := s'.objects[id]]
    requires s'.drains == s.drains
    requires ObjectOk(s'.objects[id])
    requires s'.objects[id].place.Held? || s.objects[id].place.Held? ==>
               && s'.objects[id].place == s.objects[id].place
               && PoppedOk(s.drains[s.objects[id].place.d].pc, s'.objects[id])
    ensures Objects(s')
  {
  }

  lemma HolderMoves(s: State, s': State, d: DrainId, id: CallbackId)
    requires Objects(s) && id in s.objects && d in s.drains && d in s'.drains && id in s'.objects
    requires s'.objects == s.objects[id := s'.objects[id]] && s'.drains == s.drains[d := s'.drains[d]]
    requires s.objects[id].place.Held? ==> s.objects[id].place == Held(d)
    requires Holds(s.drains[d].pc) ==> s.drains[d].pc.cb == id
    requires ObjectOk(s'.objects[id])
    requires Holds(s'.drains[d].pc) ==> s'.drains[d].pc.cb == id && PoppedOk(s'.drains[d].pc, s'.objects[id])
    requires Holds(s'.drains[d].pc) <==> s'.objects[id].place == Held(d)
    requires s'.objects[id].place.Held? ==> s'.objects[id].place.d == d
    ensures Objects(s')
  {
  }

  lemma DrainerMoves(s: State, s': State, d: DrainId)
    requires Objects(s) && d in s.drains && s'.objects == s.objects && d in s'.drains
    requires s'.drains == s.drains[d := s'.drains[d]]
    requires !Holds(s.drains[d].pc) && !Holds(s'.drains[d].pc)
    ensures Objects(s')
  {
  }

  lemma IssueKeepsObjects(s: State, id: CallbackId, v: Value)
    requires Objects(s) && !s.fault && id in s.objects && IssueStep(s, id, v).Some?
    ensures Objects(IssueStep(s, id, v).value) && !IssueStep(s, id, v).value.fault
  {
    var o := s.objects[id];
    IssueObjectOk(s.g, o, v);
    if o.place.Held? {
      IssuePoppedOk(s.g, o, v, s.drains[o.place.d].pc);
    }
    ObjectMoves(s, IssueStep(s, id, v).value, id);
  }

  lemma DrainKeepsObjects(s: State, d: DrainId, v: Value)
    requires Objects(s) && Lists(s) && !s.fault && d in s.drains && DrainStep(s, d, v).Some?
    ensures Objects(DrainStep(s, d, v).value) && !DrainStep(s, d, v).value.fault
  {
    var p := s.drains[d];
    if Holds(p.pc) {
      HolderKeepsObjects(s, d, v);
    } else if p.pc.Pop? && s.g.pending != [] {
      assert s.g.pending[0] in s.g.pending;
      PopKeepsObjects(s, d, v);
    } else {
      DrainerMoves(s, DrainStep(s, d, v).value, d);
    }
  }

  lemma HolderKeepsObjects(s: State, d: DrainId, v: Value)
    requires Objects(s) && !s.fault && d in s.drains && Holds(s.drains[d].pc)
    ensures DrainStep(s, d, v).Some?
    ensures Objects(DrainStep(s, d, v).value) && !DrainStep(s, d, v).value.fault
  {
    var p := s.drains[d];
    DrainObjectOk(s.objects[p.pc.cb], d, p, s.g, v);
    HolderMoves(s, DrainStep(s, d, v).value, d, p.pc.cb);
  }

  lemma PopKeepsObjects(s: State, d: DrainId, v: Value)
    requires Objects(s) && !s.fault && d in s.drains && s.drains[d].pc.Pop? && s.g.pending != []
    requires s.g.pending[0] in s.objects && s.objects[s.g.pending[0]].place == Listed
    ensures DrainStep(s, d, v).Some?
    ensures Objects(DrainStep(s, d, v).value) && !DrainStep(s, d, v).value.fault
  {
    assert ObjectOk(s.objects[s.g.pending[0]]);
    HolderMoves(s, DrainStep(s, d, v).value, d, s.g.pending[0]);
  }

  lemma IssueKeepsLocking(s: State, id: CallbackId, v: Value)
    requires !s.fault && Locking(s) && id in s.objects && IssueStep(s, id, v).Some?
    ensures Locking(IssueStep(s, id, v).value)
  {
    var o, s' := s.objects[id], IssueStep(s, id, v).value;
    if !s'.fault {
      assert s'.objects == s.objects[id := IssueObject(s.g, o, v)] && s'.drains == s.drains;
      IssueLocks(s.g, id, o, v);
    }
  }

  /** A step of `Execute` takes the lock, gives it back, or neither. */
  lemma IssueLocks(g: Globals, id: CallbackId, o: Object, v: Value)
    requires TouchesObject(o.pc) ==> o.cell.Some?
    requires IssueInside(o.pc) <==> g.lock == Issuer(id)
    requires o.pc.LockList? ==> g.lock.Nobody?
    ensures IssueInside(IssueObject(g, o, v).pc) <==> IssueGlobals(g, id, o).lock == Issuer(id)
    ensures IssueGlobals(g, id, o).lock == g.lock || IssueGlobals(g, id, o).lock == Issuer(id)
            || (g.lock == Issuer(id) && IssueGlobals(g, id, o).lock.Nobody?)
    ensures IssueGlobals(g, id, o).lock == Issuer(id) ==> g.lock.Nobody? || g.lock == Issuer(id)
  {
  }

  lemma DrainKeepsLocking(s: State, d: DrainId, v: Value)
    requires !s.fault && Locking(s) && d in s.drains && DrainStep(s, d, v).Some?
    ensures Locking(DrainStep(s, d, v).value)
  {
  }

  /** The lists only depend on where the objects are. */
  lemma ListsFrame(s: State, s': State)
    requires Lists(s) && s'.objects.Keys == s.objects.Keys
    requires s'.g.pending == s.g.pending && s'.log.pushed == s.log.pushed && s'.log.popped == s.log.popped
    requires forall id :: id in s.objects ==> s'.objects[id].place == s.objects[id].place
    ensures Lists(s')
  {
  }

  lemma PushKeepsLists(s: State, s': State, id: CallbackId)
    requires Lists(s) && id in s.objects && s.objects[id].place == Private
    requires id in s'.objects && s'.objects == s.objects[id := s'.objects[id]] && s'.objects[id].place == Listed
    requires s'.g.pending == s.g.pending + [id] && s'.log.pushed == s.log.pushed + [id] && s'.log.popped == s.log.popped
    ensures Lists(s')
  {
  }

  lemma PopKeepsLists(s: State, s': State, d: DrainId)
    requires Lists(s) && s.g.pending != []
    requires var id := s.g.pending[0];
             && id in s.objects && id in s'.objects && s'.objects == s.objects[id := s'.objects[id]]
             && s'.objects[id].place == Held(d)
             && s'.g.pending == s.g.pending[1..] && s'.log.pushed == s.log.pushed
             && s'.log.popped == s.log.popped + [(d, id)]
    ensures Lists(s')
  {
    var id := s.g.pending[0];
    IdsAppend(s.log.popped, d, id);
    assert s.g.pending == [id] + s'.g.pending;
  }

  lemma DeleteKeepsLists(s: State, s': State, id: CallbackId)
    requires Lists(s) && id in s.objects && s.objects[id].place.Held?
    requires id in s'.objects && s'.objects == s.objects[id := s'.objects[id]] && s'.objects[id].place == Gone
    requires s'.g.pending == s.g.pending && s'.log.pushed == s.log.pushed && s'.log.popped == s.log.popped
    ensures Lists(s')
  {
  }

  lemma IssueKeepsLists(s: State, id: CallbackId, v: Value)
    requires Objects(s) && Lists(s) && !s.fault && id in s.objects && IssueStep(s, id, v).Some?
    ensures Lists(IssueStep(s, id, v).value)
  {
    var s' := IssueStep(s, id, v).value;
    assert ObjectOk(s.objects[id]);
    if s.objects[id].pc.Push? {
      PushKeepsLists(s, s', id);
    } else {
      ListsFrame(s, s');
    }
  }

  lemma DrainKeepsLists(s: State, d: DrainId, v: Value)
    requires Objects(s) && Lists(s) && !s.fault && d in s.drains && DrainStep(s, d, v).Some?
    ensures Lists(DrainStep(s, d, v).value)
  {
    var s' := DrainStep(s, d, v).value;
    var pc := s.drains[d].pc;
    if pc.Pop? && s.g.pending != [] {
      assert s.g.pending[0] in s.g.pending;
      PopKeepsLists(s, s', d);
    } else if pc.Delete? {
      DeleteKeepsLists(s, s', pc.cb);
    } else {
      ListsFrame(s, s');
    }
  }

  /** An object that neither becomes un-run nor leaves its side of the list, and is not deleted twice. */
  lemma LogsFrame(s: State, s': State)
    requires Logs(s) && s'.objects.Keys == s.objects.Keys
    requires s'.log.started == s.log.started && s'.log.direct == s.log.direct && s'.log.deleted == s.log.deleted
    requires forall id :: id in s.objects ==>
               var o, o' := s.objects[id], s'.objects[id];
               && (o.run != NotRun ==> o'.run != NotRun)
               && (o.run != NotRun ==> (o.place == Private <==> o'.place == Private))
               && (o.place == Gone <==> o'.place == Gone)
    ensures Logs(s')
  {
  }

  lemma StartKeepsLogs(s: State, s': State, d: DrainId, id: CallbackId)
    requires Logs(s) && id in s.objects && s.objects[id].run == NotRun && s.objects[id].place != Private
    requires s'.objects == s.objects[id := s.objects[id].(run := Running)]
    requires s'.log == s.log.(started := s.log.started + [(d, id)], popped := s'.log.popped, pushed := s'.log.pushed)
    ensures Logs(s')
  {
    IdsAppend(s.log.started, d, id);
  }

  lemma DirectKeepsLogs(s: State, s': State, id: CallbackId)
    requires Logs(s) && id in s.objects && s.objects[id].run == NotRun && s.objects[id].place == Private
    requires s'.objects == s.objects[id := s.objects[id].(run := Running, pc := InDirect)]
    requires s'.log == s.log.(direct := s.log.direct + [id])
    ensures Logs(s')
  {
  }

  lemma DeleteKeepsLogs(s: State, s': State, d: DrainId, id: CallbackId)
    requires Logs(s) && id in s.objects && s.objects[id].place.Held?
    requires s'.objects == s.objects[id := s.objects[id].(cell := None, place := Gone)]
    requires s'.log == s.log.(deleted := s.log.deleted + [(d, id)])
    ensures Logs(s')
  {
    IdsAppend(s.log.deleted, d, id);
  }

  lemma DrainObjectHistory(o: Object, d: DrainId, pc: DrainPc, v: Value)
    requires ObjectOk(o) && ((pc.Pop? && o.place == Listed) || (TouchesPopped(pc) && o.place == Held(d)))
    requires !pc.Run? && !pc.Delete?
    ensures var o' := DrainObject(o, d, pc, v);
            o'.place != Private && o'.place != Gone && (o.run != NotRun ==> o'.run != NotRun)
  {
  }

  lemma IssueObjectHistory(g: Globals, o: Object, v: Value)
    requires ObjectOk(o) && !o.pc.RunDirect?
    ensures var o' := IssueObject(g, o, v);
            && (o.run != NotRun ==> o'.run != NotRun)
            && (o.run != NotRun ==> (o.place == Private <==> o'.place == Private))
            && (o.place == Gone <==> o'.place == Gone)
  {
  }

  lemma IssueKeepsLogs(s: State, id: CallbackId, v: Value)
    requires Objects(s) && Logs(s) && !s.fault && id in s.objects && IssueStep(s, id, v).Some?
    ensures Logs(IssueStep(s, id, v).value)
  {
    var o, s' := s.objects[id], IssueStep(s, id, v).value;
    assert ObjectOk(o);
    assert s'.objects == s.objects[id := IssueObject(s.g, o, v)] && s'.log == IssueLog(s.log, id, o.pc);
    if o.pc.RunDirect? {
      DirectKeepsLogs(s, s', id);
    } else {
      IssueObjectHistory(s.g, o, v);
      LogsFrame(s, s');
    }
  }

  lemma DrainKeepsLogs(s: State, d: DrainId, v: Value)
    requires Objects(s) && Lists(s) && Logs(s) && !s.fault && d in s.drains && DrainStep(s, d, v).Some?
    ensures Logs(DrainStep(s, d, v).value)
  {
    var s' := DrainStep(s, d, v).value;
    var pc := s.drains[d].pc;
    if pc.Run? {
      StartKeepsLogs(s, s', d, pc.cb);
    } else if pc.Delete? {
      DeleteKeepsLogs(s, s', d, pc.cb);
    } else {
      var target := Target(s.g, pc);
      if target.Some? {
        assert pc.Pop? ==> target.value in s.g.pending;
        assert s'.objects == s.objects[target.value := DrainObject(s.objects[target.value], d, pc, v)];
        DrainObjectHistory(s.objects[target.value], d, pc, v);
      }
      LogsFrame(s, s');
    }
  }

  // ---------------------------------------------------------------- one step, seen from one object

  /** `Execute` itself moved the object from `o` to `o'`. */
  predicate IssueTurn(g: Globals, o: Object, v: Value, o': Object) {
    (TouchesObject(o.pc) ==> o.cell.Some?) && o' == IssueObject(g, o, v)
  }

  /** A drainer at `pc` moved it: it was popped, or was held by that drainer. */
  predicate DrainTurn(o: Object, d: DrainId, pc: DrainPc, v: Value, o': Object) {
    && o.cell.Some?
    && ((pc.Pop? && o.place == Listed) || (TouchesPopped(pc) && o.place == Held(d) && PoppedOk(pc, o)))
    && o' == DrainObject(o, d, pc, v)
  }

  /** Any step leaves an object alone, is its issuer's, or is the step of the drainer in charge of it. */
  lemma ObjectTurn(s: State, a: Action, id: CallbackId)
    requires Inv(s) && id in s.objects && Step(s, a).Some?
    ensures id in Step(s, a).value.objects
    ensures var o, o' := s.objects[id], Step(s, a).value.objects[id];
            || o' == o
            || (a.StepIssue? && a.id == id && IssueTurn(s.g, o, a.result, o'))
            || (a.StepDrain? && a.d in s.drains && DrainTurn(o, a.d, s.drains[a.d].pc, a.result, o'))
  {
    assert ObjectOk(s.objects[id]);
    if a.StepDrain? {
      assert s.drains[a.d].pc.Pop? && s.g.pending != [] ==> s.g.pending[0] in s.g.pending;
    }
  }

  // ---------------------------------------------------------------- over every run

  lemma NewIssueKeepsObjects(s: State, s': State, id: CallbackId, o: Object)
    requires Objects(s) && id !in s.objects && ObjectOk(o) && o.place == Private
    requires s' == s.(objects := s.objects[id := o])
    ensures Objects(s')
  {
  }

  lemma NewIssueKeepsLists(s: State, s': State, id: CallbackId, o: Object)
    requires Lists(s) && Logs(s) && id !in s.objects && o.place == Private
    requires s' == s.(objects := s.objects[id := o])
    ensures Lists(s') && Logs(s')
  {
  }

  lemma NewIssueKeepsLocking(s: State, s': State, id: CallbackId, o: Object)
    requires Locking(s) && id !in s.objects && !IssueInside(o.pc)
    requires s' == s.(objects := s.objects[id := o])
    ensures Locking(s')
  {
  }

  lemma NewIssueKeepsInv(s: State, id: CallbackId, thread: ThreadId, hasResult: bool)
    requires Inv(s) && id !in s.objects
    ensures Inv(s.(objects := s.objects[id := NewObject(thread, hasResult)]))
  {
    var o := NewObject(thread, hasResult);
    var s' := s.(objects := s.objects[id := o]);
    NewIssueKeepsObjects(s, s', id, o);
    NewIssueKeepsLists(s, s', id, o);
    NewIssueKeepsLocking(s, s', id, o);
  }

  lemma NewDrainKeepsObjects(s: State, d: DrainId)
    requires Objects(s) && Locking(s) && d !in s.drains
    ensures var s' := s.(drains := s.drains[d := Drain(TestEmpty, 0)]); Objects(s') && Locking(s')
  {
  }

  lemma NewDrainKeepsInv(s: State, d: DrainId)
    requires Inv(s) && d !in s.drains
    ensures Inv(s.(drains := s.drains[d := Drain(TestEmpty, 0)]))
  {
    var s' := s.(drains := s.drains[d := Drain(TestEmpty, 0)]);
    NewDrainKeepsObjects(s, d);
    ListsFrame(s, s');
    LogsFrame(s, s');
  }

  lemma IssueKeepsInv(s: State, id: CallbackId, v: Value)
    requires Inv(s) && id in s.objects && IssueStep(s, id, v).Some?
    ensures Inv(IssueStep(s, id, v).value)
  {
    IssueKeepsObjects(s, id, v);
    IssueKeepsLocking(s, id, v);
    IssueKeepsLists(s, id, v);
    IssueKeepsLogs(s, id, v);
  }

  lemma DrainKeepsInv(s: State, d: DrainId, v: Value)
    requires Inv(s) && d in s.drains && DrainStep(s, d, v).Some?
    ensures Inv(DrainStep(s, d, v).value)
  {
    DrainKeepsObjects(s, d, v);
    DrainKeepsLocking(s, d, v);
    DrainKeepsLists(s, d, v);
    DrainKeepsLogs(s, d, v);
  }

  lemma StepKeepsInv(s: State, a: Action)
    requires Inv(s) && Step(s, a).Some?
    ensures Inv(Step(s, a).value)
  {
    match a
    case NewIssue(id, thread, hasResult) => NewIssueKeepsInv(s, id, thread, hasResult);
    case NewDrain(d) => NewDrainKeepsInv(s, d);
    case SetMode(_) =>
    case StepIssue(id, v) => IssueKeepsInv(s, id, v);
    case StepDrain(d, v) => DrainKeepsInv(s, d, v);
  }

  lemma {:induction false} RunKeepsInv(s: State, run: seq<Action>)
    requires Inv(s) && Exec(s, run).Some?
    ensures Inv(Exec(s, run).value)
  {
    if run != [] {
      RunKeepsInv(s, run[..|run| - 1]);
      StepKeepsInv(Exec(s, run[..|run| - 1]).value, run[|run| - 1]);
    }
  }
}
