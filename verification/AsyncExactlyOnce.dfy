// When the duplicate-result failure can happen: only through a result committed
// after its batch was retried, which takes two waiters on the same batch.
module AsyncExactlyOnce {
  import opened Outcomes
  import opened AsyncLifecycle
  import opened AsyncSafety
  import opened AsyncProtocol
  import opened AsyncDelivery

  /** The request indices of the results among the events. */
  function Indices(events: seq<Event>): (r: seq<nat>) {
    if events == [] then []
    else (if events[0].Completed? then [events[0].index] else []) + Indices(events[1..])
  }

  lemma {:induction false} IndicesAppend(a: seq<Event>, b: seq<Event>)
    ensures Indices(a + b) == Indices(a) + Indices(b)
  {
    if a == [] {
      assert a + b == b;
    } else {
      assert (a + b)[1..] == a[1..] + b && (a + b)[0] == a[0];
      IndicesAppend(a[1..], b);
    }
  }

  lemma {:induction false} IndicesCome(events: seq<Event>, i: nat)
    requires i in Indices(events)
    ensures exists p :: 0 <= p < |events| && events[p].Completed? && events[p].index == i
  {
    if events[0].Completed? && events[0].index == i {
      assert events[0].index == i;
    } else {
      IndicesCome(events[1..], i);
      var p :| 0 <= p < |events[1..]| && events[1..][p].Completed? && events[1..][p].index == i;
      assert events[p + 1].index == i;
    }
  }

  // ----- the invariant -----

  /** No result of the attempt is on its way twice, and neither those on the way
      nor those still to be yielded are completed. */
  ghost predicate OnTheWay(a: Attempt, completed: set<nat>) {
    && NoDuplicates(Indices(Line(a)))
    && (forall p :: 0 <= p < |Indices(Line(a))| ==> Indices(Line(a))[p] !in completed)
    && (forall i :: i in a.inputs && i !in a.yielded ==> i !in completed)
  }

  ghost predicate ObjectFresh(w: World, obj: Identity) {
    obj in w.control.core.objects && CurrentKey(w, obj) in w.attempts ==>
      OnTheWay(w.attempts[CurrentKey(w, obj)], w.control.core.objects[obj].completed)
  }

  /** The waiter has taken a result of the attempt that is running now. */
  ghost predicate CarriesCurrent(w: World, t: nat) {
    t in w.waiters
    && var x := w.waiters[t];
       Carries(x.phase) && x.obj in w.control.core.objects && CurrentKey(w, x.obj) in w.attempts
       && x.phase.event.generation == Generation(w, x.obj)
  }

  function Carried(w: World, t: nat): (r: nat)
    requires t in w.waiters && Carries(w.waiters[t].phase)
  {
    w.waiters[t].phase.event.index
  }

  ghost predicate WaiterFresh(w: World, t: nat) {
    CarriesCurrent(w, t) ==>
      && Carried(w, t) !in w.control.core.objects[w.waiters[t].obj].completed
      && Carried(w, t) !in Indices(Line(w.attempts[CurrentKey(w, w.waiters[t].obj)]))
  }

  ghost predicate WaitersApart(w: World, t: nat, u: nat) {
    t != u && CarriesCurrent(w, t) && CarriesCurrent(w, u) && w.waiters[t].obj == w.waiters[u].obj ==>
      Carried(w, t) != Carried(w, u)
  }

  ghost predicate Fresh(w: World) {
    && (forall obj :: obj in w.control.core.objects ==> ObjectFresh(w, obj))
    && (forall t :: t in w.waiters ==> WaiterFresh(w, t))
    && (forall t, u :: t in w.waiters && u in w.waiters ==> WaitersApart(w, t, u))
  }

  // ----- the drain workers -----

  lemma SetAttemptFresh(w: World, key: AttemptKey, a: Attempt)
    requires Fresh(w) && key in w.attempts && key.0 in w.control.core.objects
    requires key == CurrentKey(w, key.0) ==>
      && OnTheWay(a, w.control.core.objects[key.0].completed)
      && forall t :: CarriesCurrent(w, t) && w.waiters[t].obj == key.0 ==> Carried(w, t) !in Indices(Line(a))
    ensures Fresh(SetAttempt(w, key, a))
  {
    var v := SetAttempt(w, key, a);
    forall obj | obj in v.control.core.objects ensures ObjectFresh(v, obj) {
      assert ObjectFresh(w, obj);
    }
    forall t | t in v.waiters ensures WaiterFresh(v, t) {
      assert WaiterFresh(w, t);
      assert CarriesCurrent(v, t) <==> CarriesCurrent(w, t);
    }
    forall t, u | t in v.waiters && u in v.waiters ensures WaitersApart(v, t, u) {
      assert WaitersApart(w, t, u);
    }
  }

  /** The worker drops, moves or ends without a new result. */
  lemma SameResultsFresh(w: World, key: AttemptKey, a: Attempt)
    requires Fresh(w) && key in w.attempts && key.0 in w.control.core.objects
    requires Indices(Line(a)) <= Indices(Line(w.attempts[key]))
    requires a.inputs == w.attempts[key].inputs && a.yielded == w.attempts[key].yielded
    ensures Fresh(SetAttempt(w, key, a))
  {
    assert ObjectFresh(w, key.0);
    forall t | CarriesCurrent(w, t) && w.waiters[t].obj == key.0 && key == CurrentKey(w, key.0)
      ensures Carried(w, t) !in Indices(Line(a))
    {
      assert WaiterFresh(w, t);
    }
    SetAttemptFresh(w, key, a);
  }

  lemma PrefixIndices(a: seq<Event>, b: seq<Event>)
    requires b <= a
    ensures Indices(b) <= Indices(a)
  {
    IndicesAppend(b, a[|b|..]);
    assert a == b + a[|b|..];
  }

  lemma FetchFresh(w: World, key: AttemptKey, index: nat)
    requires Shape(w) && Ranged(w) && Fresh(w) && Faithful(w, Fetch(key, index))
    ensures Fresh(RunFetch(w, key, index))
  {
    if RunFetch(w, key, index) != w {
      var a, b := w.attempts[key], RunFetch(w, key, index).attempts[key];
      assert AttemptShape(w, key) && AttemptRanged(w, key) && ObjectFresh(w, key.0);
      NotYielded(a, index);
      FetchedLine(a, b, Completed(index, key.1));
      NobodyCarries(w, key, index);
      SetAttemptFresh(w, key, b);
    }
  }

  /** What has not been yielded is not carried, and what is carried not on its way. */
  lemma NobodyCarries(w: World, key: AttemptKey, index: nat)
    requires WaitersRanged(w) && Fresh(w) && key in w.attempts && index !in w.attempts[key].yielded
    ensures forall t :: CarriesCurrent(w, t) && w.waiters[t].obj == key.0 && key == CurrentKey(w, key.0) ==>
      Carried(w, t) != index && Carried(w, t) !in Indices(Line(w.attempts[key]))
  {
    forall t | CarriesCurrent(w, t) && w.waiters[t].obj == key.0 && key == CurrentKey(w, key.0)
      ensures Carried(w, t) != index && Carried(w, t) !in Indices(Line(w.attempts[key]))
    {
      assert WaiterFresh(w, t) && WaiterRanged(w, t);
    }
  }

  lemma FetchedLine(a: Attempt, b: Attempt, event: Event)
    requires a.worker.Draining? && event.Completed?
    requires b == a.(yielded := b.yielded, worker := Offering(event, false))
    ensures Indices(Line(b)) == Indices(Line(a)) + [event.index]
  {
    assert Line(a) == a.queue && Line(b) == a.queue + [event];
    IndicesAppend(a.queue, [event]);
  }

  lemma NotYielded(a: Attempt, index: nat)
    requires index !in a.yielded
    requires forall p :: 0 <= p < |Line(a)| ==> Line(a)[p].Completed? ==> Line(a)[p].index in a.yielded
    ensures index !in Indices(Line(a))
  {
    if index in Indices(Line(a)) {
      IndicesCome(Line(a), index);
    }
  }

  lemma FinishFresh(w: World, key: AttemptKey, event: Event)
    requires Shape(w) && Fresh(w)
    ensures Fresh(RunFinish(w, key, event))
  {
    if RunFinish(w, key, event) != w {
      var a, b := w.attempts[key], RunFinish(w, key, event).attempts[key];
      assert AttemptShape(w, key);
      assert Line(a) == a.queue && Line(b) == a.queue + [event];
      IndicesAppend(a.queue, [event]);
      SameResultsFresh(w, key, b);
    }
  }

  lemma WorkerFresh(w: World, move: Move)
    requires Shape(w) && Fresh(w)
    requires move.Abort? || move.CheckAbort? || move.Put?
    ensures Fresh(Apply(w, move))
  {
    match move
    case Abort(obj) => AbortFresh(w, obj);
    case CheckAbort(key) => CheckAbortFresh(w, key);
    case Put(key) => PutFresh(w, key);
  }

  lemma AbortFresh(w: World, obj: Identity)
    requires Fresh(w)
    ensures Fresh(RunAbort(w, obj))
  {
    if RunAbort(w, obj) != w {
      var key := CurrentKey(w, obj);
      var b := w.attempts[key].(aborted := true);
      SameLine(w.attempts[key], b);
      PrefixIndices(Line(w.attempts[key]), Line(b));
      SameResultsFresh(w, key, b);
    }
  }

  lemma CheckAbortFresh(w: World, key: AttemptKey)
    requires Shape(w) && Fresh(w)
    ensures Fresh(RunCheckAbort(w, key))
  {
    if RunCheckAbort(w, key) != w {
      var b := RunCheckAbort(w, key).attempts[key];
      assert AttemptShape(w, key);
      SameLine(w.attempts[key], b);
      PrefixIndices(Line(w.attempts[key]), Line(b));
      SameResultsFresh(w, key, b);
    }
  }

  lemma PutFresh(w: World, key: AttemptKey)
    requires Shape(w) && Fresh(w)
    ensures Fresh(RunPut(w, key))
  {
    if RunPut(w, key) != w {
      var a, b := w.attempts[key], RunPut(w, key).attempts[key];
      assert AttemptShape(w, key);
      PutLine(a, b);
      SameResultsFresh(w, key, b);
    }
  }

  lemma PutLine(a: Attempt, b: Attempt)
    requires a.worker.Offering?
    requires if b.worker.Offering? then b.queue == a.queue && b.worker.event == a.worker.event
             else b.queue == a.queue + [a.worker.event]
    ensures Line(b) == Line(a)
  {
  }

  // ----- the waiters -----

  /** Only one waiter changes, and it carries nothing it did not carry before. */
  lemma WaitingFresh(w: World, v: World, t: nat)
    requires Fresh(w) && v == w.(waiters := v.waiters)
    requires forall u :: u in v.waiters && u != t ==> u in w.waiters && v.waiters[u] == w.waiters[u]
    requires t in v.waiters && Carries(v.waiters[t].phase) ==>
      t in w.waiters && w.waiters[t].obj == v.waiters[t].obj && Carries(w.waiters[t].phase)
      && w.waiters[t].phase.event == v.waiters[t].phase.event
    ensures Fresh(v)
  {
    forall obj | obj in v.control.core.objects ensures ObjectFresh(v, obj) {
      assert ObjectFresh(w, obj);
    }
    forall u | u in v.waiters ensures WaiterFresh(v, u) {
      assert u in w.waiters ==> WaiterFresh(w, u);
    }
    forall u, x | u in v.waiters && x in v.waiters ensures WaitersApart(v, u, x) {
      assert u in w.waiters && x in w.waiters ==> WaitersApart(w, u, x);
    }
  }

  lemma LeaveFresh(w: World, t: nat)
    requires Fresh(w)
    ensures Fresh(Leave(w, t))
  {
    WaitingFresh(w, Leave(w, t), t);
  }

  lemma AtFresh(w: World, t: nat, phase: Phase)
    requires Fresh(w) && t in w.waiters && !Carries(phase)
    ensures Fresh(At(w, t, phase))
  {
    WaitingFresh(w, At(w, t, phase), t);
  }

  lemma TakingFirst(a: Attempt, b: Attempt)
    requires a.queue != [] && b == a.(queue := a.queue[1..])
    ensures Indices(Line(a)) == (if a.queue[0].Completed? then [a.queue[0].index] else []) + Indices(Line(b))
  {
    assert Line(a) == [a.queue[0]] + Line(b);
    IndicesAppend([a.queue[0]], Line(b));
  }

  lemma GetFresh(w: World, t: nat)
    requires Shape(w) && Fresh(w)
    ensures Fresh(RunGet(w, t))
  {
    if RunGet(w, t) != w {
      var key := (w.waiters[t].obj, w.waiters[t].phase.generation);
      assert AttemptShape(w, key);
      assert w.attempts[key].queue[0].generation == key.1;
      TakeFresh(w, t, key, w.attempts[key].(queue := w.attempts[key].queue[1..]));
    }
  }

  lemma TakeFresh(w: World, t: nat, key: AttemptKey, b: Attempt)
    requires Fresh(w) && t in w.waiters && !Carries(w.waiters[t].phase) && w.waiters[t].obj == key.0
    requires key in w.attempts && key.0 in w.control.core.objects
    requires var a := w.attempts[key];
      a.queue != [] && b == a.(queue := a.queue[1..]) && a.queue[0].generation == key.1
    ensures Fresh(At(SetAttempt(w, key, b), t, Holding(w.attempts[key].queue[0])))
  {
    TakingFirst(w.attempts[key], b);
    TakingKeepsFresh(w, key, b);
    TakenIsNew(w, key, b);
    TakenFresh(SetAttempt(w, key, b), t, w.attempts[key].queue[0]);
  }

  lemma TakenIsNew(w: World, key: AttemptKey, b: Attempt)
    requires Fresh(w) && key in w.attempts && key.0 in w.control.core.objects
    requires var a := w.attempts[key]; a.queue != [] && b == a.(queue := a.queue[1..])
    ensures var v, first := SetAttempt(w, key, b), w.attempts[key].queue[0];
      first.Completed? && key == CurrentKey(w, key.0) ==>
        && first.index !in v.control.core.objects[key.0].completed
        && first.index !in Indices(Line(b))
        && forall u :: CarriesCurrent(v, u) && v.waiters[u].obj == key.0 ==> Carried(v, u) != first.index
  {
    var first := w.attempts[key].queue[0];
    TakingFirst(w.attempts[key], b);
    if first.Completed? && key == CurrentKey(w, key.0) {
      FirstIsNew(w, key.0, first.index, b);
      forall u | CarriesCurrent(SetAttempt(w, key, b), u) ensures CarriesCurrent(w, u) {
      }
    }
  }

  /** The first result on the way is neither completed, nor behind itself, nor
      held by a waiter. */
  lemma FirstIsNew(w: World, obj: Identity, index: nat, b: Attempt)
    requires Fresh(w) && obj in w.control.core.objects && CurrentKey(w, obj) in w.attempts
    requires Indices(Line(w.attempts[CurrentKey(w, obj)])) == [index] + Indices(Line(b))
    ensures index !in w.control.core.objects[obj].completed && index !in Indices(Line(b))
    ensures forall u :: CarriesCurrent(w, u) && w.waiters[u].obj == obj ==> Carried(w, u) != index
  {
    var all := Indices(Line(w.attempts[CurrentKey(w, obj)]));
    assert ObjectFresh(w, obj);
    assert all[0] == index;
    assert forall p :: 0 <= p < |Indices(Line(b))| ==> Indices(Line(b))[p] == all[p + 1];
    forall u | CarriesCurrent(w, u) && w.waiters[u].obj == obj ensures Carried(w, u) != index {
      assert WaiterFresh(w, u);
    }
  }

  lemma TakingKeepsFresh(w: World, key: AttemptKey, b: Attempt)
    requires Fresh(w) && key in w.attempts && key.0 in w.control.core.objects
    requires b.inputs == w.attempts[key].inputs && b.yielded == w.attempts[key].yielded
    requires exists before :: Indices(Line(w.attempts[key])) == before + Indices(Line(b))
    ensures Fresh(SetAttempt(w, key, b))
  {
    if key == CurrentKey(w, key.0) {
      var before :| Indices(Line(w.attempts[key])) == before + Indices(Line(b));
      assert ObjectFresh(w, key.0);
      SuffixIsNew(Indices(Line(w.attempts[key])), before, Indices(Line(b)), w.control.core.objects[key.0].completed);
      forall t | CarriesCurrent(w, t) && w.waiters[t].obj == key.0 ensures Carried(w, t) !in Indices(Line(b)) {
        assert WaiterFresh(w, t);
      }
    }
    SetAttemptFresh(w, key, b);
  }

  lemma SuffixIsNew(all: seq<nat>, before: seq<nat>, rest: seq<nat>, completed: set<nat>)
    requires all == before + rest && NoDuplicates(all)
    requires forall p :: 0 <= p < |all| ==> all[p] !in completed
    ensures NoDuplicates(rest) && forall p :: 0 <= p < |rest| ==> rest[p] !in completed
    ensures forall i :: i in rest ==> i in all
  {
    assert forall p :: 0 <= p < |rest| ==> rest[p] == all[|before| + p];
  }

  /** A waiter comes to hold a result that is nowhere else. */
  lemma TakenFresh(w: World, t: nat, event: Event)
    requires Fresh(w) && t in w.waiters && !Carries(w.waiters[t].phase)
    requires var obj := w.waiters[t].obj;
      event.Completed? && obj in w.control.core.objects && CurrentKey(w, obj) in w.attempts
      && event.generation == Generation(w, obj) ==>
        && event.index !in w.control.core.objects[obj].completed
        && event.index !in Indices(Line(w.attempts[CurrentKey(w, obj)]))
        && forall u :: CarriesCurrent(w, u) && w.waiters[u].obj == obj ==> Carried(w, u) != event.index
    ensures Fresh(At(w, t, Holding(event)))
  {
    var v := At(w, t, Holding(event));
    forall obj | obj in v.control.core.objects ensures ObjectFresh(v, obj) {
      assert ObjectFresh(w, obj);
    }
    forall u | u in v.waiters ensures WaiterFresh(v, u) {
      assert u != t ==> WaiterFresh(w, u);
    }
    forall u, x | u in v.waiters && x in v.waiters ensures WaitersApart(v, u, x) {
      assert WaitersApart(w, u, x);
      assert u != t ==> (CarriesCurrent(v, u) <==> CarriesCurrent(w, u));
      assert x != t ==> (CarriesCurrent(v, x) <==> CarriesCurrent(w, x));
    }
  }

  // ----- the lock-guarded blocks -----

  /** Waiters carry what they carried, into the same attempts. */
  lemma SameCarriersFresh(w: World, v: World)
    requires Fresh(w) && (forall obj :: obj in v.control.core.objects ==> ObjectFresh(v, obj))
    requires forall t :: t in v.waiters ==> t in w.waiters && v.waiters[t] == w.waiters[t]
    requires forall t :: t in v.waiters && CarriesCurrent(v, t) ==> CarriesCurrent(w, t) && WaiterFresh(v, t)
    ensures Fresh(v)
  {
    forall t, u | t in v.waiters && u in v.waiters ensures WaitersApart(v, t, u) {
      assert WaitersApart(w, t, u);
    }
  }

  /** No object changes, but there may be new ones with fresh attempts. */
  lemma StayingFresh(w: World, v: World)
    requires Shape(w) && Fresh(w) && Owned(w.control)
    requires ObjectsStay(w.control, v.control) && v.waiters == w.waiters
    requires var made := w.control.core.nextIdentity;
      v.attempts == if made in v.control.core.objects
        then w.attempts[(made, 0) := NewAttempt(w, v.control.core.objects[made].inputs)] else w.attempts
    ensures Fresh(v)
  {
    var made := w.control.core.nextIdentity;
    forall obj | obj in v.control.core.objects ensures ObjectFresh(v, obj) {
      assert obj in w.control.core.objects ==> ObjectFresh(w, obj);
      assert obj == made ==> Line(v.attempts[CurrentKey(v, obj)]) == [];
    }
    forall t | t in v.waiters && CarriesCurrent(v, t) ensures CarriesCurrent(w, t) && WaiterFresh(v, t) {
      assert WaiterFresh(w, t) && WaiterShape(w, t);
    }
    SameCarriersFresh(w, v);
  }

  lemma BlockFresh(w: World, block: Block)
    requires Shape(w) && Fresh(w) && Owned(w.control)
    ensures Fresh(RunBlock(w, block))
  {
    if !ForWaiters(block) {
      BlockKeepsObjects(w.control, block);
      BlockMakes(w, block);
      StayingFresh(w, RunBlock(w, block));
    }
  }

  lemma FailFresh(w: World, t: nat)
    requires Shape(w) && Fresh(w) && Owned(w.control)
    ensures Fresh(RunFailHeld(w, t))
  {
    if t in w.waiters && w.waiters[t].phase.GivingUp? {
      var v := w.(control := Failing(w.control, w.waiters[t].id, w.waiters[t].obj));
      StayingFresh(w, v);
      LeaveFresh(v, t);
    }
  }

  /** A result that is neither on the way nor held by another waiter is delivered. */
  lemma DeliveredFresh(w: World, t: nat)
    requires Shape(w) && Ranged(w) && Fresh(w) && CarriesCurrent(w, t)
    ensures var x := w.waiters[t];
      Fresh(Leave(w.(control := Delivering(w.control, x.id, x.obj, x.phase.event.index)), t))
  {
    var x := w.waiters[t];
    var v := Leave(w.(control := Delivering(w.control, x.id, x.obj, x.phase.event.index)), t);
    DeliveringObjects(w.control, x.id, x.obj, x.phase.event.index);
    CompletedObjectsFresh(w, v, t);
    CompletedFresh(w, v, t);
  }

  /** The waiter `t` has completed what it carried, and returned. */
  ghost predicate HandedOver(w: World, v: World, t: nat)
    requires CarriesCurrent(w, t)
  {
    && v.attempts == w.attempts && v.waiters == w.waiters - {t}
    && Completes(w.control.core.objects, v.control.core.objects, w.waiters[t].obj, Carried(w, t))
  }

  lemma CompletedFresh(w: World, v: World, t: nat)
    requires Fresh(w) && CarriesCurrent(w, t) && HandedOver(w, v, t)
    requires forall obj :: obj in v.control.core.objects ==> ObjectFresh(v, obj)
    ensures Fresh(v)
  {
    forall u | u in v.waiters && CarriesCurrent(v, u) ensures CarriesCurrent(w, u) && WaiterFresh(v, u) {
      assert WaiterFresh(w, u) && WaitersApart(w, t, u);
    }
    SameCarriersFresh(w, v);
  }

  lemma CompletedObjectsFresh(w: World, v: World, t: nat)
    requires Ranged(w) && Fresh(w) && CarriesCurrent(w, t) && HandedOver(w, v, t)
    ensures forall obj :: obj in v.control.core.objects ==> ObjectFresh(v, obj)
  {
    assert WaiterFresh(w, t) && WaiterRanged(w, t);
    forall obj | obj in v.control.core.objects ensures ObjectFresh(v, obj) {
      assert ObjectFresh(w, obj);
    }
  }

  /** A retried object runs a new attempt, of which no waiter has anything. */
  lemma RetriedFresh(w: World, id: BatchId, obj: Identity, starts: bool)
    requires Shape(w) && Fresh(w) && obj in w.control.core.objects
    ensures Fresh(Retried(w, id, obj, starts))
  {
    RetriedAges(w, id, obj, starts);
    RetriedElsewhere(w, id, obj, starts);
    RetriedAttemptFresh(w, id, obj, starts);
    OneObjectFresh(w, Retried(w, id, obj, starts), obj);
  }

  /** Only one object changes, and stays fresh. */
  lemma OneObjectFresh(w: World, v: World, obj: Identity)
    requires Fresh(w) && v.waiters == w.waiters && v.control.core.objects.Keys == w.control.core.objects.Keys
    requires forall o :: o in w.control.core.objects && o != obj ==>
      v.control.core.objects[o] == w.control.core.objects[o]
    requires forall key: AttemptKey :: key.0 != obj ==>
      (key in v.attempts <==> key in w.attempts) && (key in w.attempts ==> v.attempts[key] == w.attempts[key])
    requires obj in v.control.core.objects && ObjectFresh(v, obj)
    requires forall t :: t in v.waiters && w.waiters[t].obj == obj && CarriesCurrent(v, t) ==>
      CarriesCurrent(w, t) && WaiterFresh(v, t)
    ensures Fresh(v)
  {
    forall o | o in v.control.core.objects ensures ObjectFresh(v, o) {
      assert ObjectFresh(w, o);
    }
    forall t | t in v.waiters && CarriesCurrent(v, t) ensures CarriesCurrent(w, t) && WaiterFresh(v, t) {
      assert WaiterFresh(w, t);
    }
    SameCarriersFresh(w, v);
  }

  lemma RetriedAttemptFresh(w: World, id: BatchId, obj: Identity, starts: bool)
    requires Shape(w) && Fresh(w) && obj in w.control.core.objects
    ensures var v := Retried(w, id, obj, starts);
      && obj in v.control.core.objects && ObjectFresh(v, obj)
      && forall t :: t in v.waiters && w.waiters[t].obj == obj && CarriesCurrent(v, t) ==>
           CarriesCurrent(w, t) && WaiterFresh(v, t)
  {
    assert ObjectShape(w, obj);
    if Retry(w.control.core, id, obj, starts).1.Restarted? {
      RestartedAttempt(w, id, obj, starts);
      RestartedAttemptFresh(w, Retried(w, id, obj, starts), obj);
    } else {
      StoppedAttempt(w, id, obj, starts);
      StoppedAttemptFresh(w, Retried(w, id, obj, starts), obj);
    }
  }

  lemma RestartedAttempt(w: World, id: BatchId, obj: Identity, starts: bool)
    requires obj in w.control.core.objects && Retry(w.control.core, id, obj, starts).1.Restarted?
    ensures var v := Retried(w, id, obj, starts);
      && v.waiters == w.waiters && obj in v.control.core.objects
      && Generation(v, obj) == Generation(w, obj) + 1 && CurrentKey(v, obj) in v.attempts
      && var a, b := v.attempts[CurrentKey(v, obj)], v.control.core.objects[obj];
         Line(a) == [] && forall i :: i in a.inputs ==> i !in b.completed
  {
    RetriedControl(w, id, obj, starts);
    RetryingObjects(w.control, id, obj, starts);
  }

  /** Without a restart at most the old attempt is aborted. */
  lemma StoppedAttempt(w: World, id: BatchId, obj: Identity, starts: bool)
    requires obj in w.control.core.objects && !Retry(w.control.core, id, obj, starts).1.Restarted?
    requires CurrentKey(w, obj) in w.attempts
    ensures var v := Retried(w, id, obj, starts);
      && v.waiters == w.waiters && obj in v.control.core.objects && Generation(v, obj) == Generation(w, obj)
      && v.control.core.objects[obj].completed == w.control.core.objects[obj].completed
      && CurrentKey(v, obj) in v.attempts
      && var a, b := w.attempts[CurrentKey(w, obj)], v.attempts[CurrentKey(v, obj)];
         b.queue == a.queue && b.worker == a.worker && b.inputs == a.inputs && b.yielded == a.yielded
  {
    RetriedControl(w, id, obj, starts);
    RetryingObjects(w.control, id, obj, starts);
  }

  /** The new attempt of a restarted object has nothing on its way yet. */
  lemma RestartedAttemptFresh(w: World, v: World, obj: Identity)
    requires Shape(w) && v.waiters == w.waiters
    requires obj in w.control.core.objects && obj in v.control.core.objects
    requires Generation(v, obj) == Generation(w, obj) + 1 && CurrentKey(v, obj) in v.attempts
    requires var a, b := v.attempts[CurrentKey(v, obj)], v.control.core.objects[obj];
      Line(a) == [] && forall i :: i in a.inputs ==> i !in b.completed
    ensures ObjectFresh(v, obj)
    ensures forall t :: t in v.waiters && w.waiters[t].obj == obj ==> !CarriesCurrent(v, t)
  {
    forall t | t in v.waiters && w.waiters[t].obj == obj ensures !CarriesCurrent(v, t) {
      assert WaiterShape(w, t);
    }
  }

  lemma StoppedAttemptFresh(w: World, v: World, obj: Identity)
    requires Fresh(w) && v.waiters == w.waiters
    requires obj in w.control.core.objects && obj in v.control.core.objects
    requires Generation(v, obj) == Generation(w, obj)
    requires v.control.core.objects[obj].completed == w.control.core.objects[obj].completed
    requires CurrentKey(w, obj) in w.attempts && CurrentKey(v, obj) in v.attempts
    requires var a, b := w.attempts[CurrentKey(w, obj)], v.attempts[CurrentKey(v, obj)];
      b.queue == a.queue && b.worker == a.worker && b.inputs == a.inputs && b.yielded == a.yielded
    ensures ObjectFresh(v, obj)
    ensures forall t :: t in v.waiters && w.waiters[t].obj == obj && CarriesCurrent(v, t) ==>
      CarriesCurrent(w, t) && WaiterFresh(v, t)
  {
    assert ObjectFresh(w, obj);
    assert Line(v.attempts[CurrentKey(v, obj)]) == Line(w.attempts[CurrentKey(w, obj)]);
    forall t | t in v.waiters && w.waiters[t].obj == obj && CarriesCurrent(v, t)
      ensures CarriesCurrent(w, t) && WaiterFresh(v, t)
    {
      assert WaiterFresh(w, t);
    }
  }

  lemma RetryFresh(w: World, t: nat, starts: bool, again: bool)
    requires Shape(w) && Fresh(w)
    ensures Fresh(RunRetryHeld(w, t, starts, again))
  {
    if t in w.waiters && w.waiters[t].phase.Admitted? && Retryable(w.waiters[t].phase.event) {
      RetryIsRetried(w, t, starts, again);
      var v := Retried(w, w.waiters[t].id, w.waiters[t].obj, starts);
      RetriedFresh(w, w.waiters[t].id, w.waiters[t].obj, starts);
      AtFresh(v, t, Polling);
      AtFresh(v, t, GivingUp);
      LeaveFresh(v, t);
    }
  }

  // ----- duplicates come only from stale commits -----

  /** A commit is of a result of the attempt that is running when it is made. */
  predicate CommitsCurrent(w: World, move: Move) {
    move.CommitHeld? && move.t in w.waiters && w.waiters[move.t].phase.Admitted?
      && w.waiters[move.t].obj in w.control.core.objects ==>
      w.waiters[move.t].phase.event.generation == Generation(w, w.waiters[move.t].obj)
  }

  /** The move makes its batch fail because a result was reported twice. */
  predicate FailsAsDuplicate(w: World, move: Move) {
    && move.CommitHeld? && move.t in w.waiters
    && w.waiters[move.t].phase.Admitted? && w.waiters[move.t].phase.event.Completed?
    && var x := w.waiters[move.t];
       Commit(w.control.core, x.id, x.obj, x.phase.event.index).1.Duplicate?
  }

  predicate Orderly(w: World, move: Move) {
    Faithful(w, move) && CommitsCurrent(w, move)
  }

  lemma MoveFresh(w: World, move: Move)
    requires Sound(w) && Fresh(w) && Orderly(w, move)
    ensures Fresh(Apply(w, move)) && !FailsAsDuplicate(w, move)
  {
    match move
    case Block(block) => BlockFresh(w, block);
    case Fetch(key, index) => FetchFresh(w, key, index);
    case Finish(key, event) => FinishFresh(w, key, event);
    case Get(t) => GetFresh(w, t);
    case CommitHeld(t) => CommitFresh(w, t);
    case RetryHeld(t, starts, again) => RetryFresh(w, t, starts, again);
    case FailHeld(t) => FailFresh(w, t);
    case _ =>
      if move.Abort? || move.CheckAbort? || move.Put? {
        WorkerFresh(w, move);
      } else {
        WaitingMoveFresh(w, move);
      }
  }

  lemma WaitingMoveFresh(w: World, move: Move)
    requires Fresh(w)
    requires move.Collect? || move.ReadQueue? || move.FindEmpty? || move.Admit? || move.Decline?
    ensures Fresh(Apply(w, move))
  {
    WaiterMoveIsLocal(w, move);
    WaitingFresh(w, Apply(w, move), move.t);
  }

  lemma CommitFresh(w: World, t: nat)
    requires Sound(w) && Fresh(w) && CommitsCurrent(w, CommitHeld(t))
    ensures Fresh(RunCommitHeld(w, t)) && !FailsAsDuplicate(w, CommitHeld(t))
  {
    if t in w.waiters && w.waiters[t].phase.Admitted? && w.waiters[t].phase.event.Completed? {
      assert WaiterShape(w, t);
      AdmittedCarriesCurrent(w, t);
      assert WaiterFresh(w, t);
      DeliveredFresh(w, t);
    }
  }

  lemma AdmittedCarriesCurrent(w: World, t: nat)
    requires Shape(w) && t in w.waiters && w.waiters[t].obj in w.control.core.objects
    requires Carries(w.waiters[t].phase)
    requires w.waiters[t].phase.event.generation == Generation(w, w.waiters[t].obj)
    ensures CarriesCurrent(w, t)
  {
    assert ObjectShape(w, w.waiters[t].obj);
  }

  lemma {:induction false} OrderlyPlay(w: World, moves: seq<Move>)
    requires Sound(w) && Fresh(w) && Throughout(w, moves, Orderly)
    ensures Sound(Play(w, moves)) && Fresh(Play(w, moves))
    decreases moves
  {
    if moves != [] {
      MoveSound(w, moves[0]);
      MoveFresh(w, moves[0]);
      OrderlyPlay(Apply(w, moves[0]), moves[1..]);
    }
  }

  /** Any number of waiters: in a run whose commits are all of the running attempt,
      no batch ever fails for a duplicate result. */
  lemma NoDuplicateUnlessStale(workerCount: nat, retryLimit: nat, moves: seq<Move>, last: Move)
    requires Throughout(Start(workerCount, retryLimit), moves, Orderly)
    requires Orderly(Play(Start(workerCount, retryLimit), moves), last)
    ensures !FailsAsDuplicate(Play(Start(workerCount, retryLimit), moves), last)
  {
    StartSound(workerCount, retryLimit);
    OrderlyPlay(Start(workerCount, retryLimit), moves);
    MoveFresh(Play(Start(workerCount, retryLimit), moves), last);
  }
}
