// A backend that ends only when it has yielded every request never makes an
// active batch fail as exhausted, as long as one waiter collects at a time.
module AsyncExhaustion {
  import opened Outcomes
  import opened AsyncLifecycle
  import opened AsyncSafety
  import opened AsyncProtocol
  import opened AsyncDelivery
  import opened AsyncExactlyOnce
  import opened AsyncSingleWaiter

  /** The result stream of an attempt that has not been aborted is exhausted only
      after every request of the attempt. */
  predicate Exhaustive(w: World, move: Move) {
    move.Finish? && move.event.Exhausted? && move.key in w.attempts && !w.attempts[move.key].aborted ==>
      w.attempts[move.key].inputs <= w.attempts[move.key].yielded
  }

  /** Terminal events come last, and exhaustion means that all was yielded. */
  ghost predicate Ordered(a: Attempt) {
    && (forall p :: 0 <= p < |Line(a)| - 1 ==> Line(a)[p].Completed?)
    && (a.worker.Draining? ==> forall p :: 0 <= p < |a.queue| ==> a.queue[p].Completed?)
    && (!a.aborted ==> forall p :: 0 <= p < |Line(a)| ==> Line(a)[p].Exhausted? ==> a.inputs <= a.yielded)
  }

  /** Everything yielded for a batch in use is completed, on the way, or held. */
  ghost predicate Traced(w: World, obj: Identity) {
    obj in w.control.core.objects && CurrentKey(w, obj) in w.attempts ==>
      var a := w.attempts[CurrentKey(w, obj)];
      && !a.aborted
      && forall i :: i in a.yielded ==> Found(w, obj, i)
  }

  ghost predicate Found(w: World, obj: Identity, i: nat)
    requires obj in w.control.core.objects && CurrentKey(w, obj) in w.attempts
  {
    || i in w.control.core.objects[obj].completed
    || i in Indices(Line(w.attempts[CurrentKey(w, obj)]))
    || exists t :: CarriesCurrent(w, t) && w.waiters[t].obj == obj && Carried(w, t) == i
  }

  /** A waiter that holds the current exhaustion event has seen all else taken. */
  ghost predicate SawTheEnd(w: World, t: nat)
    requires t in w.waiters
  {
    var x := w.waiters[t];
    (x.phase.Holding? || x.phase.Admitted?) && x.phase.event.Exhausted?
    && x.obj in w.control.core.objects && CurrentKey(w, x.obj) in w.attempts
    && x.phase.event.generation == Generation(w, x.obj) ==>
      var a := w.attempts[CurrentKey(w, x.obj)];
      a.worker.Ended? && a.queue == [] && (a.aborted || a.inputs <= a.yielded)
  }

  ghost predicate Whole(w: World) {
    && (forall key :: key in w.attempts ==> Ordered(w.attempts[key]))
    && (forall obj :: Live(w.control, obj) ==> Traced(w, obj))
    && (forall t :: t in w.waiters ==> SawTheEnd(w, t))
  }

  // ----- the drain workers -----

  /** What has been yielded is still on the way, or was not before either. */
  ghost predicate KeepsResults(a: Attempt, b: Attempt) {
    forall i :: i in b.yielded ==> i in Indices(Line(b)) || (i in a.yielded && i !in Indices(Line(a)))
  }

  /** An attempt goes on without losing a result of a batch in use. */
  lemma SetAttemptWhole(w: World, key: AttemptKey, a: Attempt)
    requires Whole(w) && key in w.attempts && key.0 in w.control.core.objects && Ordered(a)
    requires w.attempts[key].worker.Ended? && w.attempts[key].queue == [] ==>
      a.worker.Ended? && a.queue == [] && a.inputs == w.attempts[key].inputs && a.yielded == w.attempts[key].yielded
    requires w.attempts[key].aborted ==> a.aborted
    requires Live(w.control, key.0) && key == CurrentKey(w, key.0) ==>
      !a.aborted && KeepsResults(w.attempts[key], a)
    ensures Whole(SetAttempt(w, key, a))
  {
    var v := SetAttempt(w, key, a);
    forall obj | Live(v.control, obj) ensures Traced(v, obj) {
      assert Traced(w, obj);
      SetAttemptTraced(w, key, a, obj);
    }
    forall t | t in v.waiters ensures SawTheEnd(v, t) {
      assert SawTheEnd(w, t);
    }
  }

  lemma SetAttemptTraced(w: World, key: AttemptKey, a: Attempt, obj: Identity)
    requires key in w.attempts && obj in w.control.core.objects && Traced(w, obj)
    requires key == CurrentKey(w, obj) ==>
      !a.aborted && KeepsResults(w.attempts[key], a)
    ensures Traced(SetAttempt(w, key, a), obj)
  {
    var v := SetAttempt(w, key, a);
    if CurrentKey(w, obj) in w.attempts {
      forall i | i in v.attempts[CurrentKey(v, obj)].yielded ensures Found(v, obj, i) {
        if key != CurrentKey(w, obj) || i !in Indices(Line(a)) {
          assert Found(w, obj, i);
          if t :| CarriesCurrent(w, t) && w.waiters[t].obj == obj && Carried(w, t) == i {
            assert CarriesCurrent(v, t);
          }
        }
      }
    }
  }

  /** The line keeps its results. */
  lemma SameResultsWhole(w: World, key: AttemptKey, a: Attempt)
    requires Whole(w) && key in w.attempts && key.0 in w.control.core.objects && Ordered(a)
    requires w.attempts[key].worker.Ended? ==> a.worker.Ended? && a.queue == w.attempts[key].queue
    requires a.inputs == w.attempts[key].inputs && a.yielded == w.attempts[key].yielded
    requires w.attempts[key].aborted ==> a.aborted
    requires Live(w.control, key.0) && key == CurrentKey(w, key.0) ==>
      !a.aborted && Indices(Line(a)) == Indices(Line(w.attempts[key]))
    ensures Whole(SetAttempt(w, key, a))
  {
    SetAttemptWhole(w, key, a);
  }

  lemma FetchWhole(w: World, key: AttemptKey, index: nat)
    requires Shape(w) && Whole(w)
    ensures Whole(RunFetch(w, key, index))
  {
    if RunFetch(w, key, index) != w {
      var a, b := w.attempts[key], RunFetch(w, key, index).attempts[key];
      assert AttemptShape(w, key);
      assert Line(a) == a.queue && Line(b) == a.queue + [Completed(index, key.1)];
      IndicesAppend(a.queue, [Completed(index, key.1)]);
      assert Live(w.control, key.0) ==> Traced(w, key.0);
      SetAttemptWhole(w, key, b);
    }
  }

  lemma FinishWhole(w: World, key: AttemptKey, event: Event)
    requires Shape(w) && Whole(w) && Exhaustive(w, Finish(key, event))
    ensures Whole(RunFinish(w, key, event))
  {
    if RunFinish(w, key, event) != w {
      var a, b := w.attempts[key], RunFinish(w, key, event).attempts[key];
      assert AttemptShape(w, key);
      assert Line(a) == a.queue && Line(b) == a.queue + [event];
      IndicesAppend(a.queue, [event]);
      assert Live(w.control, key.0) ==> Traced(w, key.0);
      SameResultsWhole(w, key, b);
    }
  }

  lemma CheckAbortWhole(w: World, key: AttemptKey)
    requires Shape(w) && Whole(w)
    ensures Whole(RunCheckAbort(w, key))
  {
    if RunCheckAbort(w, key) != w {
      var a, b := w.attempts[key], RunCheckAbort(w, key).attempts[key];
      assert AttemptShape(w, key);
      assert Live(w.control, key.0) ==> Traced(w, key.0);
      SameLine(a, b);
      assert Ordered(a);
      SameResultsWhole(w, key, b);
    }
  }

  lemma PutWhole(w: World, key: AttemptKey)
    requires Shape(w) && Whole(w)
    ensures Whole(RunPut(w, key))
  {
    if RunPut(w, key) != w {
      var a, b := w.attempts[key], RunPut(w, key).attempts[key];
      assert AttemptShape(w, key);
      assert Live(w.control, key.0) ==> Traced(w, key.0);
      assert Line(a) == Line(b) && Ordered(a);
      assert forall p :: 0 <= p < |a.queue| ==> a.queue[p] == Line(a)[p];
      SameResultsWhole(w, key, b);
    }
  }

  lemma AbortWhole(w: World, obj: Identity)
    requires Whole(w)
    ensures Whole(RunAbort(w, obj))
  {
    if RunAbort(w, obj) != w {
      var key := CurrentKey(w, obj);
      var b := w.attempts[key].(aborted := true);
      assert Line(b) == Line(w.attempts[key]) && Ordered(w.attempts[key]);
      SameResultsWhole(w, key, b);
    }
  }

  // ----- the waiters -----

  /** The waiter's hold on its batch does not matter: the batch is out of use, or
      what is held is not a result of the running attempt. */
  ghost predicate MayLetGo(w: World, t: nat) {
    t in w.waiters ==> !Live(w.control, w.waiters[t].obj) || !CarriesCurrent(w, t)
  }

  /** Only one waiter changes, and what it holds matters no more, or stays. */
  lemma WaitingWhole(w: World, v: World, t: nat)
    requires Whole(w) && v == w.(waiters := v.waiters)
    requires forall u :: u != t ==> (u in v.waiters <==> u in w.waiters)
    requires forall u :: u in v.waiters && u != t ==> v.waiters[u] == w.waiters[u]
    requires MayLetGo(w, t) || (t in v.waiters && CarriesCurrent(v, t) && v.waiters[t].obj == w.waiters[t].obj
                                && v.waiters[t].phase.event == w.waiters[t].phase.event)
    requires t in v.waiters ==> SawTheEnd(v, t)
    ensures Whole(v)
  {
    forall obj | Live(v.control, obj) ensures Traced(v, obj) {
      assert Traced(w, obj);
      if CurrentKey(w, obj) in w.attempts {
        forall i | i in v.attempts[CurrentKey(v, obj)].yielded ensures Found(v, obj, i) {
          assert Found(w, obj, i);
          if u :| CarriesCurrent(w, u) && w.waiters[u].obj == obj && Carried(w, u) == i {
            assert CarriesCurrent(v, u) && Carried(v, u) == i;
          }
        }
      }
    }
    forall u | u in v.waiters ensures SawTheEnd(v, u) {
      assert u != t ==> SawTheEnd(w, u);
    }
  }

  lemma LeaveWhole(w: World, t: nat)
    requires Whole(w) && MayLetGo(w, t)
    ensures Whole(Leave(w, t))
  {
    WaitingWhole(w, Leave(w, t), t);
  }

  lemma AtWhole(w: World, t: nat, phase: Phase)
    requires Whole(w) && t in w.waiters && MayLetGo(w, t) && !phase.Holding? && !phase.Admitted?
    ensures Whole(At(w, t, phase))
  {
    WaitingWhole(w, At(w, t, phase), t);
  }

  lemma WaiterMoveWhole(w: World, move: Move)
    requires Whole(w)
    requires move.Collect? || move.ReadQueue? || move.FindEmpty? || move.Decline?
    ensures Whole(Apply(w, move))
  {
    WaitingWhole(w, Apply(w, move), move.t);
  }

  /** A batch is out of use when the waiter that collects for it finds it inactive. */
  lemma InactiveIsNotLive(w: World, t: nat)
    requires Shape(w) && t in w.waiters && !IsActive(w.control.core, w.waiters[t].id, w.waiters[t].obj)
    ensures !Live(w.control, w.waiters[t].obj)
  {
    assert WaiterShape(w, t);
  }

  lemma AdmitWhole(w: World, t: nat, again: bool)
    requires Shape(w) && Whole(w)
    ensures Whole(RunAdmit(w, t, again))
  {
    if t in w.waiters && w.waiters[t].phase.Holding? {
      var x := w.waiters[t];
      assert SawTheEnd(w, t);
      if !IsActive(w.control.core, x.id, x.obj) {
        InactiveIsNotLive(w, t);
        LeaveWhole(w, t);
      } else if x.phase.event.generation != Generation(w, x.obj) {
        AtWhole(w, t, Polling);
        LeaveWhole(w, t);
      } else {
        WaitingWhole(w, At(w, t, Admitted(x.phase.event)), t);
      }
    }
  }

  lemma GetWhole(w: World, t: nat)
    requires Shape(w) && Whole(w)
    ensures Whole(RunGet(w, t))
  {
    if RunGet(w, t) != w {
      var key := (w.waiters[t].obj, w.waiters[t].phase.generation);
      assert AttemptShape(w, key);
      assert w.attempts[key].queue[0].generation == key.1;
      TakeWhole(w, t, key, w.attempts[key].(queue := w.attempts[key].queue[1..]));
    }
  }

  lemma TakeWhole(w: World, t: nat, key: AttemptKey, b: Attempt)
    requires Whole(w) && t in w.waiters && w.waiters[t].phase.Reading? && w.waiters[t].obj == key.0
    requires key in w.attempts && key.0 in w.control.core.objects
    requires var a := w.attempts[key];
      a.queue != [] && b == a.(queue := a.queue[1..]) && a.queue[0].generation == key.1
    ensures Whole(At(SetAttempt(w, key, b), t, Holding(w.attempts[key].queue[0])))
  {
    var a := w.attempts[key];
    var v := At(SetAttempt(w, key, b), t, Holding(a.queue[0]));
    TakingOrdered(a, b);
    forall k | k in v.attempts ensures Ordered(v.attempts[k]) {
      assert k != key ==> Ordered(w.attempts[k]);
    }
    forall obj | Live(v.control, obj) ensures Traced(v, obj) {
      assert Traced(w, obj);
      TakeTraced(w, t, key, b, obj);
    }
    forall u | u in v.waiters ensures SawTheEnd(v, u) {
      assert SawTheEnd(w, u);
    }
  }

  lemma TakingOrdered(a: Attempt, b: Attempt)
    requires Ordered(a) && a.queue != [] && b == a.(queue := a.queue[1..])
    ensures Ordered(b)
    ensures !a.queue[0].Completed? ==> b.worker.Ended? && b.queue == []
    ensures a.queue[0].Exhausted? ==> b.aborted || b.inputs <= b.yielded
  {
    assert Line(a) == [a.queue[0]] + Line(b);
    assert forall p :: 0 <= p < |Line(b)| ==> Line(b)[p] == Line(a)[p + 1];
    assert Line(a)[0] == a.queue[0];
    assert forall p :: 0 <= p < |b.queue| ==> b.queue[p] == a.queue[p + 1];
  }

  lemma TakeTraced(w: World, t: nat, key: AttemptKey, b: Attempt, obj: Identity)
    requires t in w.waiters && w.waiters[t].phase.Reading? && w.waiters[t].obj == key.0
    requires key in w.attempts && key.0 in w.control.core.objects
    requires obj in w.control.core.objects && Traced(w, obj)
    requires var a := w.attempts[key];
      a.queue != [] && b == a.(queue := a.queue[1..]) && a.queue[0].generation == key.1
    ensures Traced(At(SetAttempt(w, key, b), t, Holding(w.attempts[key].queue[0])), obj)
  {
    var a := w.attempts[key];
    var v := At(SetAttempt(w, key, b), t, Holding(a.queue[0]));
    TakingFirst(a, b);
    if CurrentKey(w, obj) in w.attempts {
      forall i | i in v.attempts[CurrentKey(v, obj)].yielded ensures Found(v, obj, i) {
        assert Found(w, obj, i);
        if u :| CarriesCurrent(w, u) && w.waiters[u].obj == obj && Carried(w, u) == i {
          assert CarriesCurrent(v, u) && Carried(v, u) == i;
        } else if key == CurrentKey(w, obj) && a.queue[0].Completed? && a.queue[0].index == i {
          assert CarriesCurrent(v, t) && Carried(v, t) == i;
        }
      }
    }
  }

  // ----- the lock-guarded blocks -----

  /** Batch objects that are out of use never come into use again. */
  lemma BlockKeepsUnused(s: Control, block: Block)
    requires Filed(s) && !ForWaiters(block)
    ensures forall obj :: obj in s.core.objects && Live(Step(s, block), obj) ==> Live(s, obj)
  {
    BlockKeepsObjects(s, block);
    BlockKeepsUses(s, block);
    BlockKeepsActive(s, block);
  }

  lemma BlockKeepsActive(s: Control, block: Block)
    requires Filed(s) && !ForWaiters(block)
    ensures forall id :: id in Step(s, block).core.active ==>
      var obj := Step(s, block).core.active[id];
      || (id in s.core.active && s.core.active[id] == obj)
      || (id in s.starting && s.starting[id] == obj)
      || (id in s.resumptions && s.resumptions[id].started == Some(obj))
  {
  }

  lemma StayingWhole(w: World, v: World)
    requires Shape(w) && Whole(w) && Owned(w.control)
    requires ObjectsStay(w.control, v.control) && v.waiters == w.waiters
    requires forall obj :: obj in w.control.core.objects && Live(v.control, obj) ==> Live(w.control, obj)
    requires var made := w.control.core.nextIdentity;
      v.attempts == if made in v.control.core.objects
        then w.attempts[(made, 0) := NewAttempt(w, v.control.core.objects[made].inputs)] else w.attempts
    ensures Whole(v)
  {
    forall key | key in v.attempts ensures Ordered(v.attempts[key]) {
      assert key in w.attempts ==> Ordered(w.attempts[key]);
    }
    forall obj | Live(v.control, obj) ensures Traced(v, obj) {
      if obj in w.control.core.objects {
        assert Traced(w, obj);
        StayingTraced(w, v, obj);
      }
    }
    forall t | t in v.waiters ensures SawTheEnd(v, t) {
      assert SawTheEnd(w, t) && WaiterShape(w, t);
    }
  }

  /** A batch object with its attempt, and the waiters that carry its results. */
  lemma StayingTraced(w: World, v: World, obj: Identity)
    requires obj in w.control.core.objects && Traced(w, obj) && v.waiters == w.waiters
    requires obj in v.control.core.objects && v.control.core.objects[obj] == w.control.core.objects[obj]
    requires CurrentKey(w, obj) in w.attempts && CurrentKey(w, obj) in v.attempts
    requires v.attempts[CurrentKey(w, obj)] == w.attempts[CurrentKey(w, obj)]
    ensures Traced(v, obj)
  {
    forall i | i in v.attempts[CurrentKey(v, obj)].yielded ensures Found(v, obj, i) {
      assert Found(w, obj, i);
      if u :| CarriesCurrent(w, u) && w.waiters[u].obj == obj && Carried(w, u) == i {
        assert CarriesCurrent(v, u) && Carried(v, u) == i;
      }
    }
  }

  lemma BlockWhole(w: World, block: Block)
    requires Shape(w) && Whole(w) && Filed(w.control)
    ensures Whole(RunBlock(w, block))
  {
    if !ForWaiters(block) {
      BlockKeepsObjects(w.control, block);
      BlockKeepsUnused(w.control, block);
      BlockMakes(w, block);
      StayingWhole(w, RunBlock(w, block));
    }
  }

  lemma FailWhole(w: World, t: nat)
    requires Shape(w) && Whole(w) && Owned(w.control)
    ensures Whole(RunFailHeld(w, t))
  {
    if t in w.waiters && w.waiters[t].phase.GivingUp? {
      var v := w.(control := Failing(w.control, w.waiters[t].id, w.waiters[t].obj));
      FailingStays(w.control, w.waiters[t].id, w.waiters[t].obj);
      StayingWhole(w, v);
      LeaveWhole(v, t);
    }
  }

  lemma FailingStays(s: Control, id: BatchId, obj: Identity)
    requires Owned(s)
    ensures var t := Failing(s, id, obj);
      && ObjectsStay(s, t) && s.core.nextIdentity !in t.core.objects
      && forall o :: Live(t, o) ==> Live(s, o)
  {
  }

  lemma CommitWhole(w: World, t: nat)
    requires Shape(w) && Whole(w)
    ensures Whole(RunCommitHeld(w, t))
  {
    var v := RunCommitHeld(w, t);
    if v != w {
      CommitKeepsUnused(w, t);
      forall obj | Live(v.control, obj) ensures Traced(v, obj) {
        assert Traced(w, obj);
        CommitTraced(w, t, obj);
      }
      forall u | u in v.waiters ensures SawTheEnd(v, u) {
        assert SawTheEnd(w, u);
      }
    }
  }

  lemma CommitKeepsUnused(w: World, t: nat)
    ensures var v := RunCommitHeld(w, t);
      && (forall obj :: Live(v.control, obj) ==> Live(w.control, obj))
      && v.attempts == w.attempts && v.control.core.objects.Keys == w.control.core.objects.Keys
      && (forall obj :: obj in w.control.core.objects ==>
            v.control.core.objects[obj].generation == w.control.core.objects[obj].generation)
      && (forall u :: u in v.waiters ==> u in w.waiters && v.waiters[u] == w.waiters[u])
  {
    if t in w.waiters && w.waiters[t].phase.Admitted? && w.waiters[t].phase.event.Completed? {
      var x := w.waiters[t];
      DeliveringObjects(w.control, x.id, x.obj, x.phase.event.index);
    }
  }

  lemma CommitTraced(w: World, t: nat, obj: Identity)
    requires Shape(w) && Traced(w, obj) && obj in w.control.core.objects
    requires t in w.waiters && w.waiters[t].phase.Admitted? && w.waiters[t].phase.event.Completed?
    requires Live(RunCommitHeld(w, t).control, obj)
    ensures Traced(RunCommitHeld(w, t), obj)
  {
    var x, v := w.waiters[t], RunCommitHeld(w, t);
    DeliveringObjects(w.control, x.id, x.obj, x.phase.event.index);
    UsedMeansDelivered(w, t, obj);
    if CurrentKey(w, obj) in w.attempts {
      forall i | i in v.attempts[CurrentKey(v, obj)].yielded ensures Found(v, obj, i) {
        assert Found(w, obj, i);
        if u :| CarriesCurrent(w, u) && w.waiters[u].obj == obj && Carried(w, u) == i {
          assert u != t ==> CarriesCurrent(v, u) && Carried(v, u) == i;
        }
      }
    }
  }

  /** A batch that is still in use after a commit has got the result. */
  lemma UsedMeansDelivered(w: World, t: nat, obj: Identity)
    requires Shape(w) && obj in w.control.core.objects
    requires t in w.waiters && w.waiters[t].phase.Admitted? && w.waiters[t].phase.event.Completed?
    requires Live(RunCommitHeld(w, t).control, obj)
    ensures var x := w.waiters[t];
      x.obj == obj ==> Commit(w.control.core, x.id, x.obj, x.phase.event.index).1.Delivered?
  {
    assert WaiterShape(w, t);
  }

  lemma RetriedWhole(w: World, id: BatchId, obj: Identity, starts: bool)
    requires Shape(w) && Whole(w) && Filed(w.control) && obj in w.control.core.objects
    ensures Whole(Retried(w, id, obj, starts))
  {
    var v := Retried(w, id, obj, starts);
    RetriedAges(w, id, obj, starts);
    RetriedElsewhere(w, id, obj, starts);
    RetriedObjectWhole(w, id, obj, starts);
    forall key | key in v.attempts ensures Ordered(v.attempts[key]) {
      assert key in w.attempts ==> Ordered(w.attempts[key]);
    }
    forall o | Live(v.control, o) && o != obj ensures Traced(v, o) {
      OtherTraced(w, id, obj, starts, o);
    }
    forall t | t in v.waiters ensures SawTheEnd(v, t) {
      assert SawTheEnd(w, t);
    }
  }

  lemma OtherTraced(w: World, id: BatchId, obj: Identity, starts: bool, o: Identity)
    requires Shape(w) && Whole(w) && obj in w.control.core.objects
    requires o != obj && Live(Retried(w, id, obj, starts).control, o)
    ensures Traced(Retried(w, id, obj, starts), o)
  {
    RetriedAges(w, id, obj, starts);
    RetriedElsewhere(w, id, obj, starts);
    RetriedKeepsUnused(w, id, obj, starts, o);
    assert Traced(w, o) && ObjectShape(w, o);
    StayingTraced(w, Retried(w, id, obj, starts), o);
  }

  lemma RetriedKeepsUnused(w: World, id: BatchId, obj: Identity, starts: bool, o: Identity)
    requires obj in w.control.core.objects
    requires Live(Retried(w, id, obj, starts).control, o)
    ensures Live(w.control, o)
  {
    RetriedAges(w, id, obj, starts);
    RetriedControl(w, id, obj, starts);
  }

  /** The retried object: if it is still in use, it runs a new attempt or the old
      one untouched, and nobody has anything of a new attempt. */
  lemma RetriedObjectWhole(w: World, id: BatchId, obj: Identity, starts: bool)
    requires Shape(w) && Whole(w) && Filed(w.control) && obj in w.control.core.objects
    ensures var v := Retried(w, id, obj, starts);
      && (forall key :: key in v.attempts && key.0 == obj ==> Ordered(v.attempts[key]))
      && (Live(v.control, obj) ==> Traced(v, obj))
      && (forall t :: t in v.waiters && w.waiters[t].obj == obj ==> SawTheEnd(v, t))
  {
    var verdict := Retry(w.control.core, id, obj, starts).1;
    if verdict.RetryInactive? || verdict.Declined? {
      assert Retried(w, id, obj, starts) == w;
    } else {
      RestartedWhole(w, id, obj, starts);
      RetriedOrdered(w, id, obj, starts);
    }
  }

  lemma RetriedOrdered(w: World, id: BatchId, obj: Identity, starts: bool)
    requires Shape(w) && Whole(w) && obj in w.control.core.objects
    ensures var v := Retried(w, id, obj, starts);
      forall key :: key in v.attempts && key.0 == obj ==> Ordered(v.attempts[key])
  {
    var v := Retried(w, id, obj, starts);
    RetriedControl(w, id, obj, starts);
    RetryingObjects(w.control, id, obj, starts);
    forall key | key in v.attempts && key.0 == obj ensures Ordered(v.attempts[key]) {
      if key in w.attempts {
        assert AttemptShape(w, key) && Ordered(w.attempts[key]);
        assert Line(v.attempts[key]) == Line(w.attempts[key]);
      }
    }
  }

  lemma RestartedWhole(w: World, id: BatchId, obj: Identity, starts: bool)
    requires Shape(w) && Whole(w) && Filed(w.control) && IsActive(w.control.core, id, obj)
    requires var verdict := Retry(w.control.core, id, obj, starts).1; verdict.Restarted? || verdict.RestartFailed?
    ensures var v := Retried(w, id, obj, starts);
      && (Live(v.control, obj) ==> Traced(v, obj))
      && (forall t :: t in v.waiters && w.waiters[t].obj == obj ==> SawTheEnd(v, t))
  {
    var v := Retried(w, id, obj, starts);
    RetriedControl(w, id, obj, starts);
    RetryingObjects(w.control, id, obj, starts);
    forall t | t in v.waiters && w.waiters[t].obj == obj ensures SawTheEnd(v, t) {
      assert SawTheEnd(w, t) && WaiterShape(w, t);
    }
  }

  lemma RetryWhole(w: World, t: nat, starts: bool, again: bool)
    requires Shape(w) && Whole(w) && Filed(w.control)
    ensures Whole(RunRetryHeld(w, t, starts, again))
  {
    if t in w.waiters && w.waiters[t].phase.Admitted? && Retryable(w.waiters[t].phase.event) {
      RetryIsRetried(w, t, starts, again);
      var v := Retried(w, w.waiters[t].id, w.waiters[t].obj, starts);
      RetriedWhole(w, w.waiters[t].id, w.waiters[t].obj, starts);
      AtWhole(v, t, Polling);
      AtWhole(v, t, GivingUp);
      LeaveWhole(v, t);
    }
  }

  lemma MoveWhole(w: World, move: Move)
    requires Shape(w) && Whole(w) && Filed(w.control) && Exhaustive(w, move)
    ensures Whole(Apply(w, move))
  {
    match move
    case Block(block) => BlockWhole(w, block);
    case Abort(obj) => AbortWhole(w, obj);
    case Fetch(key, index) => FetchWhole(w, key, index);
    case Finish(key, event) => FinishWhole(w, key, event);
    case CheckAbort(key) => CheckAbortWhole(w, key);
    case Put(key) => PutWhole(w, key);
    case Get(t) => GetWhole(w, t);
    case Admit(t, again) => AdmitWhole(w, t, again);
    case CommitHeld(t) => CommitWhole(w, t);
    case RetryHeld(t, starts, again) => RetryWhole(w, t, starts, again);
    case FailHeld(t) => FailWhole(w, t);
    case _ => WaiterMoveWhole(w, move);
  }

  // ----- exhaustion cannot fail an active batch -----

  /** The move handles an exhausted result stream of a batch that is still active:
      it restarts the batch or gives it up. */
  predicate HandlesExhaustion(w: World, move: Move) {
    && move.RetryHeld? && move.t in w.waiters
    && w.waiters[move.t].phase.Admitted? && w.waiters[move.t].phase.event.Exhausted?
    && IsActive(w.control.core, w.waiters[move.t].id, w.waiters[move.t].obj)
  }

  predicate Diligent(w: World, move: Move) {
    Single(w, move) && Exhaustive(w, move)
  }

  lemma {:induction false} DiligentPlay(w: World, moves: seq<Move>)
    requires Sound(w) && Whole(w) && Sole(w) && AdmittedCurrent(w) && Throughout(w, moves, Diligent)
    ensures var v := Play(w, moves); Sound(v) && Whole(v) && Sole(v) && AdmittedCurrent(v)
    decreases moves
  {
    if moves != [] {
      MoveSole(w, moves[0]);
      MoveSound(w, moves[0]);
      MoveWhole(w, moves[0]);
      DiligentPlay(Apply(w, moves[0]), moves[1..]);
    }
  }

  lemma {:induction false} AtLeastAll(s: set<nat>, n: nat)
    requires forall i :: 0 <= i < n ==> i in s
    ensures |s| >= n
  {
    if n > 0 {
      AtLeastAll(s - {n - 1}, n - 1);
      assert s == (s - {n - 1}) + {n - 1};
    }
  }

  lemma EndMeansDone(w: World, t: nat)
    requires Sound(w) && Whole(w) && Sole(w) && AdmittedCurrent(w)
    requires t in w.waiters && w.waiters[t].phase.Admitted? && w.waiters[t].phase.event.Exhausted?
    ensures !IsActive(w.control.core, w.waiters[t].id, w.waiters[t].obj)
  {
    var id, obj := w.waiters[t].id, w.waiters[t].obj;
    if IsActive(w.control.core, id, obj) {
      assert WaiterShape(w, t) && Books(w.control, id);
      YieldedIsCompleted(w, t);
      AtLeastAll(w.control.core.objects[obj].completed, w.control.core.objects[obj].requestCount);
      assert false;
    }
  }

  /** When the only waiter sees the end, everything has been completed. */
  lemma YieldedIsCompleted(w: World, t: nat)
    requires Shape(w) && Whole(w) && Sole(w) && AdmittedCurrent(w)
    requires t in w.waiters && w.waiters[t].phase.Admitted? && w.waiters[t].phase.event.Exhausted?
    requires Live(w.control, w.waiters[t].obj)
    ensures var b := w.control.core.objects[w.waiters[t].obj];
      forall i :: 0 <= i < b.requestCount ==> i in b.completed
  {
    var obj := w.waiters[t].obj;
    assert ObjectShape(w, obj) && SawTheEnd(w, t) && Traced(w, obj);
    var b, a := w.control.core.objects[obj], w.attempts[CurrentKey(w, obj)];
    assert Line(a) == [];
    NobodyElse(w, t);
    forall i | 0 <= i < b.requestCount ensures i in b.completed {
      assert i in b.completed || i in Elements(b.inputs);
      assert i in a.yielded ==> Found(w, obj, i);
    }
  }

  lemma NobodyElse(w: World, t: nat)
    requires Shape(w) && Sole(w) && t in w.waiters && !Carries(w.waiters[t].phase)
    ensures forall u :: CarriesCurrent(w, u) ==> w.waiters[u].obj != w.waiters[t].obj
  {
    forall u | CarriesCurrent(w, u) ensures w.waiters[u].obj != w.waiters[t].obj {
      assert WaiterShape(w, u) && WaiterShape(w, t);
    }
  }

  /** With one waiter per batch, against a backend that yields each request once
      before it ends, an active batch is never restarted or given up because its
      results ran out. */
  lemma NoExhaustionFailure(workerCount: nat, retryLimit: nat, moves: seq<Move>, last: Move)
    requires Throughout(Start(workerCount, retryLimit), moves, Diligent)
    ensures !HandlesExhaustion(Play(Start(workerCount, retryLimit), moves), last)
  {
    var start := Start(workerCount, retryLimit);
    StartSound(workerCount, retryLimit);
    DiligentPlay(start, moves);
    var w := Play(start, moves);
    if HandlesExhaustion(w, last) {
      EndMeansDone(w, last.t);
    }
  }
}
