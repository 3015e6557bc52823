// Exactly-once delivery: no request is lost while its batch is active, and a
// batch retired by completion has delivered every request once.
module AsyncDelivery {
  import opened Outcomes
  import opened AsyncLifecycle
  import opened AsyncSafety
  import opened AsyncProtocol

  // ----- the invariant -----

  /** Attempts belong to batch objects, carry their own generation, and respect
      the queue bound; waiters refer to objects that have been registered. */
  ghost predicate AttemptShape(w: World, key: AttemptKey)
    requires key in w.attempts
  {
    var a := w.attempts[key];
    && key.0 in w.control.core.objects
    && key.1 <= Generation(w, key.0)
    && |a.queue| <= a.capacity
    && (forall p :: 0 <= p < |a.queue| ==> a.queue[p].generation == key.1)
    && (a.worker.Offering? ==> a.worker.event.generation == key.1)
  }

  ghost predicate WaiterShape(w: World, t: nat)
    requires t in w.waiters
  {
    var x, s := w.waiters[t], w.control;
    && x.obj in s.core.objects
    && s.core.objects[x.obj].owner == x.id
    && (x.phase.Reading? ==> x.phase.generation <= Generation(w, x.obj))
    && ((x.phase.Holding? || x.phase.Admitted?) ==> x.phase.event.generation <= Generation(w, x.obj))
    && (x.id in s.starting ==> s.starting[x.id] != x.obj)
    && (x.id in s.resumptions ==> s.resumptions[x.id].started != Some(x.obj))
  }

  ghost predicate ObjectShape(w: World, obj: Identity)
    requires obj in w.control.core.objects
  {
    var b := w.control.core.objects[obj];
    && CurrentKey(w, obj) in w.attempts
    && w.attempts[CurrentKey(w, obj)].inputs == Elements(b.inputs)
    // Nothing is lost: what is not completed is in the running attempt.
    && (forall i :: 0 <= i < b.requestCount ==> i in b.completed || i in b.inputs)
    && (forall i :: i in b.inputs ==> i < b.requestCount)
  }

  ghost predicate Shape(w: World) {
    && (forall key :: key in w.attempts ==> AttemptShape(w, key))
    && (forall t :: t in w.waiters ==> WaiterShape(w, t))
    && (forall obj :: obj in w.control.core.objects ==> ObjectShape(w, obj))
  }

  // ----- moves that leave the lifecycle state alone -----

  lemma SetAttemptShape(w: World, key: AttemptKey, a: Attempt)
    requires Shape(w) && key in w.attempts
    requires a.inputs == w.attempts[key].inputs && |a.queue| <= a.capacity
    requires forall p :: 0 <= p < |a.queue| ==> a.queue[p].generation == key.1
    requires a.worker.Offering? ==> a.worker.event.generation == key.1
    ensures Shape(SetAttempt(w, key, a))
  {
    var v := SetAttempt(w, key, a);
    assert AttemptShape(w, key);
    forall k | k in v.attempts ensures AttemptShape(v, k) {
      assert AttemptShape(w, k);
    }
    forall t | t in v.waiters ensures WaiterShape(v, t) {
      assert WaiterShape(w, t);
    }
    forall obj | obj in v.control.core.objects ensures ObjectShape(v, obj) {
      assert ObjectShape(w, obj);
    }
  }

  lemma WorkerShape(w: World, move: Move)
    requires Shape(w)
    requires move.Abort? || move.Fetch? || move.Finish? || move.CheckAbort? || move.Put?
    ensures Shape(Apply(w, move))
  {
    match move
    case Abort(obj) =>
      if RunAbort(w, obj) != w {
        var key := CurrentKey(w, obj);
        assert AttemptShape(w, key);
        SetAttemptShape(w, key, w.attempts[key].(aborted := true));
      }
    case Fetch(key, index) =>
      if RunFetch(w, key, index) != w {
        assert AttemptShape(w, key);
        SetAttemptShape(w, key, RunFetch(w, key, index).attempts[key]);
      }
    case Finish(key, event) =>
      if RunFinish(w, key, event) != w {
        assert AttemptShape(w, key);
        SetAttemptShape(w, key, RunFinish(w, key, event).attempts[key]);
      }
    case CheckAbort(key) =>
      if RunCheckAbort(w, key) != w {
        assert AttemptShape(w, key);
        SetAttemptShape(w, key, RunCheckAbort(w, key).attempts[key]);
      }
    case Put(key) =>
      if RunPut(w, key) != w {
        assert AttemptShape(w, key);
        SetAttemptShape(w, key, RunPut(w, key).attempts[key]);
      }
  }

  /** A waiter starts, moves on or leaves. */
  lemma WaiterMoves(w: World, v: World, t: nat)
    requires Shape(w)
    requires v == w.(waiters := v.waiters)
    requires forall u :: u in v.waiters && u != t ==> u in w.waiters && v.waiters[u] == w.waiters[u]
    requires t in v.waiters ==> WaiterShape(v, t)
    ensures Shape(v)
  {
    forall u | u in v.waiters ensures WaiterShape(v, u) {
      assert u != t ==> WaiterShape(w, u);
    }
    forall k | k in v.attempts ensures AttemptShape(v, k) {
      assert AttemptShape(w, k);
    }
    forall obj | obj in v.control.core.objects ensures ObjectShape(v, obj) {
      assert ObjectShape(w, obj);
    }
  }

  lemma GetShape(w: World, t: nat)
    requires Shape(w)
    ensures Shape(RunGet(w, t))
  {
    if RunGet(w, t) != w {
      var key := (w.waiters[t].obj, w.waiters[t].phase.generation);
      var a := w.attempts[key];
      assert WaiterShape(w, t) && AttemptShape(w, key);
      var taken := SetAttempt(w, key, a.(queue := a.queue[1..]));
      SetAttemptShape(w, key, a.(queue := a.queue[1..]));
      WaiterMoves(taken, RunGet(w, t), t);
    }
  }

  lemma CollectShape(w: World, t: nat, id: BatchId)
    requires Shape(w) && Filed(w.control)
    ensures Shape(RunCollect(w, t, id))
  {
    if RunCollect(w, t, id) != w {
      WaiterMoves(w, RunCollect(w, t, id), t);
    }
  }

  /** A waiter reaches another phase, holding no newer event than its batch. */
  lemma AtShape(w: World, t: nat, phase: Phase)
    requires Shape(w) && t in w.waiters
    requires w.waiters[t].obj in w.control.core.objects
    requires phase.Reading? ==> phase.generation <= Generation(w, w.waiters[t].obj)
    requires (phase.Holding? || phase.Admitted?) ==> phase.event.generation <= Generation(w, w.waiters[t].obj)
    ensures Shape(At(w, t, phase))
  {
    assert WaiterShape(w, t);
    WaiterMoves(w, At(w, t, phase), t);
  }

  lemma LeaveShape(w: World, t: nat)
    requires Shape(w)
    ensures Shape(Leave(w, t))
  {
    WaiterMoves(w, Leave(w, t), t);
  }

  lemma ReadQueueShape(w: World, t: nat)
    requires Shape(w)
    ensures Shape(RunReadQueue(w, t))
  {
    if RunReadQueue(w, t) != w {
      AtShape(w, t, Reading(Generation(w, w.waiters[t].obj)));
    }
  }

  lemma FindEmptyShape(w: World, t: nat, again: bool)
    requires Shape(w)
    ensures Shape(RunFindEmpty(w, t, again))
  {
    if t in w.waiters {
      assert WaiterShape(w, t);
      AtShape(w, t, Polling);
      LeaveShape(w, t);
    }
  }

  lemma AdmitShape(w: World, t: nat, again: bool)
    requires Shape(w)
    ensures Shape(RunAdmit(w, t, again))
  {
    if t in w.waiters && w.waiters[t].phase.Holding? {
      assert WaiterShape(w, t);
      AtShape(w, t, Polling);
      LeaveShape(w, t);
      AtShape(w, t, Admitted(w.waiters[t].phase.event));
    }
  }

  lemma DeclineShape(w: World, t: nat)
    requires Shape(w)
    ensures Shape(RunDecline(w, t))
  {
    if t in w.waiters {
      assert WaiterShape(w, t);
      AtShape(w, t, GivingUp);
    }
  }

  // ----- moves that run a block -----

  /** Batch objects stay as they are; a new one may appear, with its attempt. */
  ghost predicate ObjectsStay(s: Control, t: Control) {
    && (forall o :: o in s.core.objects ==> o in t.core.objects && t.core.objects[o] == s.core.objects[o])
    && (forall o :: o in t.core.objects && o !in s.core.objects ==>
          var b := t.core.objects[o];
          o == s.core.nextIdentity && b.generation == 0 && b.inputs == Remaining(b.requestCount, b.completed))
  }

  /** No object in use comes into use for another purpose. */
  ghost predicate UsesStay(s: Control, t: Control) {
    && (forall id, o :: o in s.core.objects && id in t.starting && t.starting[id] == o ==>
          id in s.starting && s.starting[id] == o)
    && (forall id, o :: o in s.core.objects && id in t.resumptions && t.resumptions[id].started == Some(o) ==>
          id in s.resumptions && s.resumptions[id].started == Some(o))
  }

  lemma BlockKeepsObjects(s: Control, block: Block)
    requires Owned(s) && !ForWaiters(block)
    ensures ObjectsStay(s, Step(s, block))
  {
  }

  lemma BlockKeepsUses(s: Control, block: Block)
    requires Owned(s) && !ForWaiters(block)
    ensures UsesStay(s, Step(s, block))
  {
  }

  lemma StayingShape(w: World, v: World)
    requires Shape(w) && Owned(w.control)
    requires ObjectsStay(w.control, v.control) && UsesStay(w.control, v.control)
    requires v.waiters == w.waiters && v.workerCount == w.workerCount
    requires var made := w.control.core.nextIdentity;
      v.attempts == if made in v.control.core.objects
        then w.attempts[(made, 0) := NewAttempt(w, v.control.core.objects[made].inputs)] else w.attempts
    ensures Shape(v)
  {
    var made := w.control.core.nextIdentity;
    forall key | key in v.attempts ensures AttemptShape(v, key) {
      assert key in w.attempts ==> AttemptShape(w, key);
    }
    forall t | t in v.waiters ensures WaiterShape(v, t) {
      assert WaiterShape(w, t);
    }
    forall o | o in v.control.core.objects ensures ObjectShape(v, o) {
      assert o in w.control.core.objects ==> ObjectShape(w, o);
      assert o in w.control.core.objects ==> o < made;
    }
  }

  lemma BlockShape(w: World, block: Block)
    requires Shape(w) && Owned(w.control)
    ensures Shape(RunBlock(w, block))
  {
    if !ForWaiters(block) {
      BlockKeepsObjects(w.control, block);
      BlockKeepsUses(w.control, block);
      BlockMakes(w, block);
      StayingShape(w, RunBlock(w, block));
    }
  }

  /** A block that makes a batch object starts its attempt. */
  lemma BlockMakes(w: World, block: Block)
    requires Owned(w.control) && !ForWaiters(block)
    ensures var v, made := RunBlock(w, block), w.control.core.nextIdentity;
      && v.waiters == w.waiters && v.workerCount == w.workerCount
      && v.control == Step(w.control, block)
      && v.attempts == if made in v.control.core.objects
           then w.attempts[(made, 0) := NewAttempt(w, v.control.core.objects[made].inputs)] else w.attempts
  {
  }

  /** Batch objects keep their owner and size, and generations only grow. */
  ghost predicate ObjectsAge(s: Control, t: Control) {
    && t.starting == s.starting && t.resumptions == s.resumptions
    && t.core.objects.Keys == s.core.objects.Keys
    && forall o :: o in s.core.objects ==>
         && t.core.objects[o].owner == s.core.objects[o].owner
         && t.core.objects[o].requestCount == s.core.objects[o].requestCount
         && t.core.objects[o].generation >= s.core.objects[o].generation
  }

  lemma AgingShape(w: World, v: World)
    requires Shape(w) && ObjectsAge(w.control, v.control) && v.waiters == w.waiters
    requires forall key :: key in v.attempts ==> AttemptShape(v, key)
    requires forall o :: o in v.control.core.objects ==> ObjectShape(v, o)
    ensures Shape(v)
  {
    forall t | t in v.waiters ensures WaiterShape(v, t) {
      assert WaiterShape(w, t);
    }
  }

  ghost predicate Completes(before: map<Identity, ActiveBatch>, after: map<Identity, ActiveBatch>, obj: Identity,
                            index: nat)
  {
    || after == before
    || (obj in before && after == before[obj := before[obj].(completed := before[obj].completed + {index})])
  }

  /** A commit adds to what one object has completed, at most. */
  lemma DeliveringObjects(s: Control, id: BatchId, obj: Identity, index: nat)
    ensures var t := Delivering(s, id, obj, index);
      && t.starting == s.starting && t.resumptions == s.resumptions
      && t.core.objects ==
         if Commit(s.core, id, obj, index).1.Delivered? && obj in s.core.objects
         then s.core.objects[obj := s.core.objects[obj].(completed := s.core.objects[obj].completed + {index})]
         else s.core.objects
  {
  }

  lemma DeliveringShape(w: World, id: BatchId, obj: Identity, index: nat)
    requires Shape(w)
    ensures Shape(w.(control := Delivering(w.control, id, obj, index)))
  {
    DeliveringObjects(w.control, id, obj, index);
    CompletingShape(w, w.(control := Delivering(w.control, id, obj, index)), obj, index);
  }

  lemma CompletingShape(w: World, v: World, obj: Identity, index: nat)
    requires Shape(w) && v == w.(control := v.control)
    requires v.control.starting == w.control.starting && v.control.resumptions == w.control.resumptions
    requires Completes(w.control.core.objects, v.control.core.objects, obj, index)
    ensures Shape(v)
  {
    forall key | key in v.attempts ensures AttemptShape(v, key) {
      assert AttemptShape(w, key);
    }
    forall o | o in v.control.core.objects ensures ObjectShape(v, o) {
      assert ObjectShape(w, o);
      CompletingObject(w, v, obj, index, o);
    }
    AgingShape(w, v);
  }

  lemma CompletingObject(w: World, v: World, obj: Identity, index: nat, o: Identity)
    requires o in w.control.core.objects && ObjectShape(w, o) && v == w.(control := v.control)
    requires Completes(w.control.core.objects, v.control.core.objects, obj, index)
    ensures o in v.control.core.objects && ObjectShape(v, o)
  {
  }

  lemma CommitShape(w: World, t: nat)
    requires Shape(w)
    ensures Shape(RunCommitHeld(w, t))
  {
    if t in w.waiters && w.waiters[t].phase.Admitted? && w.waiters[t].phase.event.Completed? {
      var x := w.waiters[t];
      DeliveringShape(w, x.id, x.obj, x.phase.event.index);
      LeaveShape(w.(control := Delivering(w.control, x.id, x.obj, x.phase.event.index)), t);
    }
  }

  lemma FailShape(w: World, t: nat)
    requires Shape(w)
    ensures Shape(RunFailHeld(w, t))
  {
    if t in w.waiters && w.waiters[t].phase.GivingUp? {
      var v := w.(control := Failing(w.control, w.waiters[t].id, w.waiters[t].obj));
      forall key | key in v.attempts ensures AttemptShape(v, key) {
        assert AttemptShape(w, key);
      }
      forall o | o in v.control.core.objects ensures ObjectShape(v, o) {
        assert ObjectShape(w, o);
      }
      AgingShape(w, v);
      LeaveShape(v, t);
    }
  }

  /** The state of a retry after its block, with the attempts it changes. */
  function Retried(w: World, id: BatchId, obj: Identity, starts: bool): (r: World)
    requires obj in w.control.core.objects
  {
    var verdict := Retry(w.control.core, id, obj, starts).1;
    var stopped := AbortOld(w.(control := Retrying(w.control, id, obj, starts)), obj, Generation(w, obj));
    match verdict
    case RetryInactive => w
    case Declined => w
    case RestartFailed => stopped
    case Restarted => StartNew(stopped, obj)
  }

  lemma RetriedShape(w: World, id: BatchId, obj: Identity, starts: bool)
    requires Shape(w) && obj in w.control.core.objects
    ensures Shape(Retried(w, id, obj, starts))
  {
    RetriedAttempts(w, id, obj, starts);
    RetriedObjects(w, id, obj, starts);
    RetriedAges(w, id, obj, starts);
    AgingShape(w, Retried(w, id, obj, starts));
  }

  lemma RetriedAges(w: World, id: BatchId, obj: Identity, starts: bool)
    requires obj in w.control.core.objects
    ensures var v := Retried(w, id, obj, starts);
      ObjectsAge(w.control, v.control) && v.waiters == w.waiters
      && forall o :: o in w.control.core.objects && o != obj ==>
           v.control.core.objects[o] == w.control.core.objects[o]
  {
    RetryingObjects(w.control, id, obj, starts);
    RetriedControl(w, id, obj, starts);
  }

  lemma RetriedObjects(w: World, id: BatchId, obj: Identity, starts: bool)
    requires Shape(w) && obj in w.control.core.objects
    ensures var v := Retried(w, id, obj, starts);
      forall o :: o in v.control.core.objects ==> ObjectShape(v, o)
  {
    var v := Retried(w, id, obj, starts);
    RetriedAges(w, id, obj, starts);
    RetriedElsewhere(w, id, obj, starts);
    RetriedObject(w, id, obj, starts);
    forall o | o in v.control.core.objects ensures ObjectShape(v, o) {
      assert ObjectShape(w, o);
    }
  }

  lemma RetriedElsewhere(w: World, id: BatchId, obj: Identity, starts: bool)
    requires obj in w.control.core.objects
    ensures var v := Retried(w, id, obj, starts);
      forall key: AttemptKey :: key.0 != obj ==>
        (key in v.attempts <==> key in w.attempts) && (key in w.attempts ==> v.attempts[key] == w.attempts[key])
  {
  }

  lemma RetriedObject(w: World, id: BatchId, obj: Identity, starts: bool)
    requires obj in w.control.core.objects && ObjectShape(w, obj)
    ensures var v := Retried(w, id, obj, starts);
      obj in v.control.core.objects && ObjectShape(v, obj)
  {
    RetryingObjects(w.control, id, obj, starts);
    RetriedControl(w, id, obj, starts);
  }

  lemma RetriedAttempts(w: World, id: BatchId, obj: Identity, starts: bool)
    requires Shape(w) && obj in w.control.core.objects
    ensures var v := Retried(w, id, obj, starts);
      forall key :: key in v.attempts ==> AttemptShape(v, key)
  {
    var v := Retried(w, id, obj, starts);
    RetryingObjects(w.control, id, obj, starts);
    RetriedControl(w, id, obj, starts);
    assert ObjectShape(w, obj);
    forall key | key in v.attempts ensures AttemptShape(v, key) {
      assert key in w.attempts ==> AttemptShape(w, key);
    }
  }

  /** A retry restarts its own batch object over what is left, and no other. */
  lemma RetryingObjects(s: Control, id: BatchId, obj: Identity, starts: bool)
    requires obj in s.core.objects
    ensures var t, b, verdict := Retrying(s, id, obj, starts), s.core.objects[obj], Retry(s.core, id, obj, starts).1;
      && t.starting == s.starting && t.resumptions == s.resumptions
      && t.core.objects ==
         if verdict.Restarted? then
           s.core.objects[obj := b.(retries := b.retries + 1, generation := b.generation + 1,
                                    inputs := Remaining(b.requestCount, b.completed))]
         else if verdict.RestartFailed? then s.core.objects[obj := b.(retries := b.retries + 1)]
         else s.core.objects
  {
  }

  lemma RetriedControl(w: World, id: BatchId, obj: Identity, starts: bool)
    requires obj in w.control.core.objects
    ensures Retried(w, id, obj, starts).control == Retrying(w.control, id, obj, starts)
  {
  }

  lemma RetryIsRetried(w: World, t: nat, starts: bool, again: bool)
    requires Shape(w)
    requires t in w.waiters && w.waiters[t].phase.Admitted? && Retryable(w.waiters[t].phase.event)
    ensures w.waiters[t].obj in w.control.core.objects
    ensures var v, next := Retried(w, w.waiters[t].id, w.waiters[t].obj, starts), RunRetryHeld(w, t, starts, again);
      v.waiters == w.waiters && (next == Leave(v, t) || next == At(v, t, Polling) || next == At(v, t, GivingUp))
  {
    assert WaiterShape(w, t);
    var x := w.waiters[t];
    var v := Retried(w, x.id, x.obj, starts);
    assert Retry(w.control.core, x.id, x.obj, starts).1.Declined? ==>
      RunRetryHeld(w, t, starts, again) == At(v, t, GivingUp);
  }

  lemma RetryShape(w: World, t: nat, starts: bool, again: bool)
    requires Shape(w)
    ensures Shape(RunRetryHeld(w, t, starts, again))
  {
    if t in w.waiters && w.waiters[t].phase.Admitted? && Retryable(w.waiters[t].phase.event) {
      var x := w.waiters[t];
      RetryIsRetried(w, t, starts, again);
      var v := Retried(w, x.id, x.obj, starts);
      RetriedShape(w, x.id, x.obj, starts);
      AtShape(v, t, Polling);
      AtShape(v, t, GivingUp);
      LeaveShape(v, t);
    }
  }

  lemma MoveShape(w: World, move: Move)
    requires Shape(w) && Filed(w.control)
    ensures Shape(Apply(w, move))
  {
    match move
    case Block(block) => BlockShape(w, block);
    case Collect(t, id) => CollectShape(w, t, id);
    case ReadQueue(t) => ReadQueueShape(w, t);
    case Get(t) => GetShape(w, t);
    case FindEmpty(t, again) => FindEmptyShape(w, t, again);
    case Admit(t, again) => AdmitShape(w, t, again);
    case CommitHeld(t) => CommitShape(w, t);
    case RetryHeld(t, starts, again) => RetryShape(w, t, starts, again);
    case Decline(t) => DeclineShape(w, t);
    case FailHeld(t) => FailShape(w, t);
    case _ => WorkerShape(w, move);
  }

  // ----- only requests of the batch are delivered -----

  /** The events of an attempt that no waiter has taken, oldest first. */
  function Line(a: Attempt): (r: seq<Event>) {
    a.queue + if a.worker.Offering? then [a.worker.event] else []
  }

  /** What the backend yielded, and nothing else, is on its way. */
  ghost predicate AttemptRanged(w: World, key: AttemptKey)
    requires key in w.attempts
  {
    var a := w.attempts[key];
    && key.0 in w.control.core.objects
    && a.yielded <= a.inputs
    && (forall i :: i in a.inputs ==> i < w.control.core.objects[key.0].requestCount)
    && (forall p :: 0 <= p < |Line(a)| ==> Line(a)[p].Completed? ==> Line(a)[p].index in a.yielded)
  }

  predicate Carries(phase: Phase) {
    (phase.Holding? || phase.Admitted?) && phase.event.Completed?
  }

  ghost predicate WaiterRanged(w: World, t: nat)
    requires t in w.waiters
  {
    var x := w.waiters[t];
    Carries(x.phase) ==>
      (x.obj, x.phase.event.generation) in w.attempts
      && x.phase.event.index in w.attempts[(x.obj, x.phase.event.generation)].yielded
  }

  ghost predicate DeliveredRanged(s: Control) {
    forall id :: id in s.delivered ==>
      id in s.requestCount && forall p :: 0 <= p < |s.delivered[id]| ==> s.delivered[id][p] < s.requestCount[id]
  }

  ghost predicate AttemptsRanged(w: World) {
    forall key :: key in w.attempts ==> AttemptRanged(w, key)
  }

  ghost predicate WaitersRanged(w: World) {
    forall t :: t in w.waiters ==> WaiterRanged(w, t)
  }

  ghost predicate Ranged(w: World) {
    AttemptsRanged(w) && WaitersRanged(w) && DeliveredRanged(w.control)
  }

  /** Attempts stay, and go on from what they have yielded. */
  ghost predicate Grows(w: World, v: World) {
    forall key :: key in w.attempts ==> key in v.attempts && w.attempts[key].yielded <= v.attempts[key].yielded
  }

  lemma GrowingWaiters(w: World, v: World, t: nat)
    requires WaitersRanged(w) && Grows(w, v)
    requires forall u :: u in v.waiters && u != t ==> u in w.waiters && v.waiters[u] == w.waiters[u]
    requires t in v.waiters ==> WaiterRanged(v, t)
    ensures WaitersRanged(v)
  {
    forall u | u in v.waiters ensures WaiterRanged(v, u) {
      assert u != t ==> WaiterRanged(w, u);
    }
  }

  lemma SetAttemptRanged(w: World, key: AttemptKey, a: Attempt)
    requires Ranged(w) && key in w.attempts
    requires a.inputs == w.attempts[key].inputs
    requires w.attempts[key].yielded <= a.yielded <= a.inputs
    requires forall p :: 0 <= p < |Line(a)| ==> Line(a)[p].Completed? ==> Line(a)[p].index in a.yielded
    ensures Ranged(SetAttempt(w, key, a))
  {
    var v := SetAttempt(w, key, a);
    assert AttemptRanged(w, key);
    forall k | k in v.attempts ensures AttemptRanged(v, k) {
      assert AttemptRanged(w, k);
    }
    forall t | t in v.waiters ensures WaiterRanged(v, t) {
      assert WaiterRanged(w, t);
    }
  }

  /** The line of an attempt stays, unless its worker drops the event it offers. */
  lemma SameLine(a: Attempt, b: Attempt)
    requires b.queue == a.queue
    requires a.worker.Offering? && b.worker.Offering? ==> a.worker.event == b.worker.event
    requires b.worker.Offering? ==> a.worker.Offering?
    ensures Line(b) <= Line(a)
  {
  }

  lemma WorkerRanged(w: World, move: Move)
    requires Ranged(w) && Genuine(w, move)
    requires move.Abort? || move.Fetch? || move.Finish? || move.CheckAbort? || move.Put?
    ensures Ranged(Apply(w, move))
  {
    match move
    case Abort(obj) =>
      if RunAbort(w, obj) != w {
        assert AttemptRanged(w, CurrentKey(w, obj));
        SameLine(w.attempts[CurrentKey(w, obj)], w.attempts[CurrentKey(w, obj)].(aborted := true));
        SetAttemptRanged(w, CurrentKey(w, obj), w.attempts[CurrentKey(w, obj)].(aborted := true));
      }
    case Fetch(key, index) =>
      if RunFetch(w, key, index) != w {
        assert AttemptRanged(w, key);
        assert Line(w.attempts[key]) == w.attempts[key].queue;
        SetAttemptRanged(w, key, RunFetch(w, key, index).attempts[key]);
      }
    case Finish(key, event) =>
      if RunFinish(w, key, event) != w {
        assert AttemptRanged(w, key);
        assert Line(w.attempts[key]) == w.attempts[key].queue;
        SetAttemptRanged(w, key, RunFinish(w, key, event).attempts[key]);
      }
    case CheckAbort(key) =>
      if RunCheckAbort(w, key) != w {
        assert AttemptRanged(w, key);
        SameLine(w.attempts[key], RunCheckAbort(w, key).attempts[key]);
        SetAttemptRanged(w, key, RunCheckAbort(w, key).attempts[key]);
      }
    case Put(key) =>
      if RunPut(w, key) != w {
        assert AttemptRanged(w, key);
        assert Line(RunPut(w, key).attempts[key]) == Line(w.attempts[key]);
        SetAttemptRanged(w, key, RunPut(w, key).attempts[key]);
      }
  }

  /** The front of the queue is taken out. */
  lemma TakenRanged(w: World, key: AttemptKey) returns (v: World)
    requires Ranged(w) && key in w.attempts && w.attempts[key].queue != []
    ensures var a := w.attempts[key];
      v == SetAttempt(w, key, a.(queue := a.queue[1..])) && Ranged(v)
      && (a.queue[0].Completed? ==> a.queue[0].index in a.yielded)
  {
    var a := w.attempts[key];
    var b := a.(queue := a.queue[1..]);
    assert AttemptRanged(w, key);
    assert Line(a) == [a.queue[0]] + Line(b);
    forall p | 0 <= p < |Line(b)| && Line(b)[p].Completed? ensures Line(b)[p].index in b.yielded {
      assert Line(b)[p] == Line(a)[p + 1];
    }
    SetAttemptRanged(w, key, b);
    assert Line(a)[0] == a.queue[0];
    v := SetAttempt(w, key, b);
  }

  lemma GetRanged(w: World, t: nat)
    requires Shape(w) && Ranged(w)
    ensures Ranged(RunGet(w, t))
  {
    if RunGet(w, t) != w {
      var key := (w.waiters[t].obj, w.waiters[t].phase.generation);
      assert AttemptShape(w, key);
      var v := TakenRanged(w, key);
      HoldingRanged(v, t, w.attempts[key].queue[0]);
    }
  }

  lemma HoldingRanged(w: World, t: nat, event: Event)
    requires Ranged(w) && t in w.waiters
    requires event.Completed? ==>
      var key := (w.waiters[t].obj, event.generation);
      key in w.attempts && event.index in w.attempts[key].yielded
    ensures Ranged(At(w, t, Holding(event)))
  {
    var v := At(w, t, Holding(event));
    GrowingWaiters(w, v, t);
    forall k | k in v.attempts ensures AttemptRanged(v, k) {
      assert AttemptRanged(w, k);
    }
  }

  /** Only one waiter changes, and it carries nothing it did not carry before. */
  lemma WaitingRanged(w: World, v: World, t: nat)
    requires Ranged(w) && v == w.(waiters := v.waiters)
    requires forall u :: u in v.waiters && u != t ==> u in w.waiters && v.waiters[u] == w.waiters[u]
    requires t in v.waiters && Carries(v.waiters[t].phase) ==>
      t in w.waiters && w.waiters[t].obj == v.waiters[t].obj && Carries(w.waiters[t].phase)
      && w.waiters[t].phase.event == v.waiters[t].phase.event
    ensures Ranged(v)
  {
    assert t in w.waiters ==> WaiterRanged(w, t);
    GrowingWaiters(w, v, t);
    forall k | k in v.attempts ensures AttemptRanged(v, k) {
      assert AttemptRanged(w, k);
    }
  }

  lemma LeaveRanged(w: World, t: nat)
    requires Ranged(w)
    ensures Ranged(Leave(w, t))
  {
    WaitingRanged(w, Leave(w, t), t);
  }

  lemma AtRanged(w: World, t: nat, phase: Phase)
    requires Ranged(w) && t in w.waiters
    requires Carries(phase) ==> Carries(w.waiters[t].phase) && w.waiters[t].phase.event == phase.event
    ensures Ranged(At(w, t, phase))
  {
    WaitingRanged(w, At(w, t, phase), t);
  }

  lemma WaiterRangedMoves(w: World, move: Move)
    requires Ranged(w)
    requires move.Collect? || move.ReadQueue? || move.FindEmpty? || move.Admit? || move.Decline?
    ensures Ranged(Apply(w, move))
  {
    WaiterMoveIsLocal(w, move);
    WaitingRanged(w, Apply(w, move), move.t);
  }

  lemma WaiterMoveIsLocal(w: World, move: Move)
    requires move.Collect? || move.ReadQueue? || move.FindEmpty? || move.Admit? || move.Decline?
    ensures var v, t := Apply(w, move), move.t;
      && v == w.(waiters := v.waiters)
      && (forall u :: u in v.waiters && u != t ==> u in w.waiters && v.waiters[u] == w.waiters[u])
      && (t in v.waiters && Carries(v.waiters[t].phase) ==>
            t in w.waiters && w.waiters[t].obj == v.waiters[t].obj && Carries(w.waiters[t].phase)
            && w.waiters[t].phase.event == v.waiters[t].phase.event)
  {
  }

  lemma BlockDeliveredRanged(s: Control, block: Block)
    requires Known(s) && DeliveredRanged(s) && !ForWaiters(block)
    ensures DeliveredRanged(Step(s, block))
  {
  }

  lemma BlockRanged(w: World, block: Block)
    requires Shape(w) && Ranged(w) && Filed(w.control)
    ensures Ranged(RunBlock(w, block))
  {
    if !ForWaiters(block) {
      BlockKeepsObjects(w.control, block);
      BlockMakes(w, block);
      BlockDeliveredRanged(w.control, block);
      StayingRanged(w, RunBlock(w, block));
    }
  }

  lemma StayingRanged(w: World, v: World)
    requires Shape(w) && Ranged(w) && Owned(w.control) && DeliveredRanged(v.control)
    requires ObjectsStay(w.control, v.control) && v.waiters == w.waiters
    requires var made := w.control.core.nextIdentity;
      v.attempts == if made in v.control.core.objects
        then w.attempts[(made, 0) := NewAttempt(w, v.control.core.objects[made].inputs)] else w.attempts
    ensures Ranged(v)
  {
    var made := w.control.core.nextIdentity;
    forall key | key in v.attempts ensures AttemptRanged(v, key) {
      assert key in w.attempts ==> AttemptRanged(w, key) && AttemptShape(w, key);
    }
    assert Grows(w, v) by {
      forall key | key in w.attempts ensures key.0 < made {
        assert AttemptShape(w, key);
      }
    }
    forall t | t in v.waiters ensures WaiterRanged(v, t) {
      assert WaiterRanged(w, t);
    }
  }

  lemma DeliveringRanged(s: Control, id: BatchId, obj: Identity, index: nat)
    requires Filed(s) && Accounted(s) && DeliveredRanged(s)
    requires obj in s.core.objects ==> index < s.core.objects[obj].requestCount
    ensures DeliveredRanged(Delivering(s, id, obj, index))
  {
    if IsActive(s.core, id, obj) {
      assert Books(s, id);
    }
  }

  lemma DeliveringKeepsRanged(w: World, id: BatchId, obj: Identity, index: nat)
    requires Ranged(w) && Filed(w.control) && Accounted(w.control)
    requires obj in w.control.core.objects ==> index < w.control.core.objects[obj].requestCount
    ensures Ranged(w.(control := Delivering(w.control, id, obj, index)))
  {
    var v := w.(control := Delivering(w.control, id, obj, index));
    DeliveringRanged(w.control, id, obj, index);
    DeliveringObjects(w.control, id, obj, index);
    forall key | key in v.attempts ensures AttemptRanged(v, key) {
      assert AttemptRanged(w, key);
    }
    forall t | t in v.waiters ensures WaiterRanged(v, t) {
      assert WaiterRanged(w, t);
    }
  }

  lemma CommitRanged(w: World, t: nat)
    requires Ranged(w) && Filed(w.control) && Accounted(w.control)
    ensures Ranged(RunCommitHeld(w, t))
  {
    if t in w.waiters && w.waiters[t].phase.Admitted? && w.waiters[t].phase.event.Completed? {
      var x := w.waiters[t];
      assert WaiterRanged(w, t);
      assert AttemptRanged(w, (x.obj, x.phase.event.generation));
      DeliveringKeepsRanged(w, x.id, x.obj, x.phase.event.index);
      LeaveRanged(w.(control := Delivering(w.control, x.id, x.obj, x.phase.event.index)), t);
    }
  }

  lemma FailRanged(w: World, t: nat)
    requires Ranged(w)
    ensures Ranged(RunFailHeld(w, t))
  {
    if t in w.waiters && w.waiters[t].phase.GivingUp? {
      var v := w.(control := Failing(w.control, w.waiters[t].id, w.waiters[t].obj));
      assert AttemptsRanged(v) by {
        forall key | key in v.attempts ensures AttemptRanged(v, key) {
          assert AttemptRanged(w, key);
        }
      }
      assert WaitersRanged(v) by {
        forall u | u in v.waiters ensures WaiterRanged(v, u) {
          assert WaiterRanged(w, u);
        }
      }
      LeaveRanged(v, t);
    }
  }

  lemma RetriedRanged(w: World, id: BatchId, obj: Identity, starts: bool)
    requires Shape(w) && Ranged(w) && obj in w.control.core.objects
    ensures Ranged(Retried(w, id, obj, starts))
  {
    var v := Retried(w, id, obj, starts);
    RetriedAges(w, id, obj, starts);
    RetriedElsewhere(w, id, obj, starts);
    RetriedLines(w, id, obj, starts);
    RetriedGrows(w, id, obj, starts);
    assert AttemptsRanged(v) by {
      forall key | key in v.attempts ensures AttemptRanged(v, key) {
        assert key in w.attempts ==> AttemptRanged(w, key);
      }
    }
    assert WaitersRanged(v) by {
      forall t | t in v.waiters ensures WaiterRanged(v, t) {
        assert WaiterRanged(w, t);
      }
    }
  }

  lemma RetriedGrows(w: World, id: BatchId, obj: Identity, starts: bool)
    requires Shape(w) && obj in w.control.core.objects
    ensures var v := Retried(w, id, obj, starts);
      Grows(w, v) && v.control.delivered == w.control.delivered && v.control.requestCount == w.control.requestCount
  {
    var v := Retried(w, id, obj, starts);
    RetriedControl(w, id, obj, starts);
    forall key | key in w.attempts
      ensures key in v.attempts && w.attempts[key].yielded == v.attempts[key].yielded
    {
      assert AttemptShape(w, key);
    }
  }

  /** The attempts of the retried object: the old one goes on as it was, the new
      one has yielded nothing. */
  lemma RetriedLines(w: World, id: BatchId, obj: Identity, starts: bool)
    requires Shape(w) && Ranged(w) && obj in w.control.core.objects
    ensures var v := Retried(w, id, obj, starts);
      forall key :: key in v.attempts && key.0 == obj ==> AttemptRanged(v, key)
  {
    var v := Retried(w, id, obj, starts);
    RetriedControl(w, id, obj, starts);
    RetryingObjects(w.control, id, obj, starts);
    forall key | key in v.attempts && key.0 == obj ensures AttemptRanged(v, key) {
      assert key in w.attempts ==> AttemptRanged(w, key);
      if key in w.attempts {
        SameLine(w.attempts[key], v.attempts[key]);
      } else {
        assert Line(v.attempts[key]) == [];
      }
    }
  }

  lemma RetryRanged(w: World, t: nat, starts: bool, again: bool)
    requires Shape(w) && Ranged(w)
    ensures Ranged(RunRetryHeld(w, t, starts, again))
  {
    if t in w.waiters && w.waiters[t].phase.Admitted? && Retryable(w.waiters[t].phase.event) {
      RetryIsRetried(w, t, starts, again);
      var v := Retried(w, w.waiters[t].id, w.waiters[t].obj, starts);
      RetriedRanged(w, w.waiters[t].id, w.waiters[t].obj, starts);
      AtRanged(v, t, Polling);
      AtRanged(v, t, GivingUp);
      LeaveRanged(v, t);
    }
  }

  lemma MoveRanged(w: World, move: Move)
    requires Shape(w) && Ranged(w) && Filed(w.control) && Accounted(w.control)
    requires Genuine(w, move)
    ensures Ranged(Apply(w, move))
  {
    match move
    case Block(block) => BlockRanged(w, block);
    case Get(t) => GetRanged(w, t);
    case CommitHeld(t) => CommitRanged(w, t);
    case RetryHeld(t, starts, again) => RetryRanged(w, t, starts, again);
    case FailHeld(t) => FailRanged(w, t);
    case _ =>
      if move.Collect? || move.ReadQueue? || move.FindEmpty? || move.Admit? || move.Decline? {
        WaiterRangedMoves(w, move);
      } else {
        WorkerRanged(w, move);
      }
  }

  // ----- what every run keeps -----

  ghost predicate Sound(w: World) {
    Safe(w.control) && Shape(w) && Ranged(w)
  }

  lemma StartSound(workerCount: nat, retryLimit: nat)
    ensures Sound(Start(workerCount, retryLimit))
  {
  }

  lemma MoveSound(w: World, move: Move)
    requires Sound(w) && Genuine(w, move)
    ensures Sound(Apply(w, move))
  {
    MoveShape(w, move);
    MoveRanged(w, move);
    MoveSafe(w, move);
  }

  lemma {:induction false} PlaySound(w: World, moves: seq<Move>)
    requires Sound(w) && Throughout(w, moves, Genuine)
    ensures Sound(Play(w, moves))
    decreases moves
  {
    if moves != [] {
      MoveSound(w, moves[0]);
      PlaySound(Apply(w, moves[0]), moves[1..]);
    }
  }

  /** The evaluator after some run against a backend that answers for the requests
      it was given. */
  ghost predicate Occurs(w: World) {
    exists workerCount, retryLimit, moves ::
      Throughout(Start(workerCount, retryLimit), moves, Genuine) && w == Play(Start(workerCount, retryLimit), moves)
  }

  lemma OccursSound(w: World)
    requires Occurs(w)
    ensures Sound(w)
  {
    var workerCount, retryLimit, moves :|
      Throughout(Start(workerCount, retryLimit), moves, Genuine) && w == Play(Start(workerCount, retryLimit), moves);
    StartSound(workerCount, retryLimit);
    PlaySound(Start(workerCount, retryLimit), moves);
  }

  // ----- exactly-once delivery -----

  /** A batch retired by completion has delivered each of its requests exactly
      once, and nothing else. */
  lemma RetiredDeliversAll(w: World, id: BatchId)
    requires Occurs(w) && id in w.control.retired
    ensures id in w.control.delivered && id in w.control.requestCount
    ensures NoDuplicates(w.control.delivered[id])
    ensures |w.control.delivered[id]| == w.control.requestCount[id]
    ensures forall i :: i in w.control.delivered[id] <==> 0 <= i < w.control.requestCount[id]
  {
    OccursSound(w);
    assert Books(w.control, id);
    var delivered := w.control.delivered[id];
    NoDuplicatesSize(delivered);
    BoundedElements(Elements(delivered), w.control.requestCount[id]);
    assert forall i :: i in delivered <==> i in Elements(delivered);
  }

  /** No request of an active batch is lost: it has been delivered, or the attempt
      that is running was started with it. */
  lemma UndeliveredIsRunning(w: World, id: BatchId, i: nat)
    requires Occurs(w) && id in w.control.core.active
    requires id in w.control.requestCount && i < w.control.requestCount[id]
    ensures id in w.control.delivered && w.control.core.active[id] in w.control.core.objects
    ensures var key := CurrentKey(w, w.control.core.active[id]);
      i in w.control.delivered[id] || (key in w.attempts && i in w.attempts[key].inputs)
  {
    OccursSound(w);
    assert Books(w.control, id);
    assert ObjectShape(w, w.control.core.active[id]);
  }

  /** The handoff queue of an attempt never exceeds its capacity. */
  lemma QueuesBounded(w: World, key: AttemptKey)
    requires Occurs(w) && key in w.attempts
    ensures |w.attempts[key].queue| <= w.attempts[key].capacity
  {
    OccursSound(w);
    assert AttemptShape(w, key);
  }
}
