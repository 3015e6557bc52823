// What every interleaving of the lock-guarded blocks keeps: batches live in one
// place, results are delivered at most once, retries are counted across
// suspensions, and resume handles stay good.
module AsyncSafety {
  import opened Outcomes
  import opened AsyncLifecycle

  // ----- the invariant -----

  /** A batch is in at most one of the maps of the evaluator. */
  ghost predicate OnePlace(s: Control) {
    var c := s.core;
    && c.active.Keys !! c.suspended.Keys
    && c.active.Keys !! c.resuming
    && c.suspended.Keys !! c.resuming
    && s.starting.Keys !! c.active.Keys
    && s.starting.Keys !! c.suspended.Keys
    && s.starting.Keys !! c.resuming
    && c.discarded <= c.resuming
    && s.resumptions.Keys == c.resuming
  }

  /** Everything known about a batch is known of a submitted one. */
  ghost predicate Known(s: Control) {
    var c := s.core;
    && (forall id :: id in s.requestCount ==> id < c.nextId)
    && s.delivered.Keys == s.requestCount.Keys && s.retried.Keys == s.requestCount.Keys
    && c.active.Keys <= s.requestCount.Keys && c.suspended.Keys <= s.requestCount.Keys
    && c.resuming <= s.requestCount.Keys && s.starting.Keys <= s.requestCount.Keys
    && s.retired <= s.requestCount.Keys
  }

  /** Maps refer to objects made for the batch they are filed under. */
  ghost predicate Owned(s: Control) {
    var c := s.core;
    && (forall o :: o in c.objects ==> o < c.nextIdentity)
    && (forall id :: id in c.active ==> c.active[id] in c.objects && c.objects[c.active[id]].owner == id)
    && (forall id :: id in s.starting ==>
          s.starting[id] in c.objects && c.objects[s.starting[id]].owner == id)
    && (forall id :: id in s.resumptions && s.resumptions[id].started.Some? ==>
          s.resumptions[id].started.value in c.objects
          && c.objects[s.resumptions[id].started.value].owner == id)
  }

  /** What is recorded for a batch is what has been observed of it, with work left. */
  ghost predicate Tallies(s: Control, id: BatchId, n: nat, completed: set<nat>, retries: nat)
    requires id in s.requestCount && id in s.delivered && id in s.retried
  {
    && n == s.requestCount[id]
    && completed == Elements(s.delivered[id])
    && retries == s.retried[id]
    && |completed| < n
  }

  ghost predicate ObjectTallies(s: Control, id: BatchId, obj: Identity)
    requires id in s.requestCount && id in s.delivered && id in s.retried
  {
    && obj in s.core.objects
    && var b := s.core.objects[obj]; Tallies(s, id, b.requestCount, b.completed, b.retries)
  }

  /** The books of one batch: no index delivered twice, the retry limit kept, and
      whichever map holds the batch agrees with what has been observed of it. */
  ghost predicate Books(s: Control, id: BatchId)
    requires id in s.requestCount && id in s.delivered && id in s.retried
  {
    var c := s.core;
    && NoDuplicates(s.delivered[id])
    && s.retried[id] <= c.retryLimit
    && (id in s.retired ==> |s.delivered[id]| >= s.requestCount[id])
    && (id in c.active ==> ObjectTallies(s, id, c.active[id]))
    && (id in s.starting ==> ObjectTallies(s, id, s.starting[id]))
    && (id in c.suspended ==>
          Tallies(s, id, c.suspended[id].requestCount, c.suspended[id].completed, c.suspended[id].retries))
    && (id in s.resumptions ==>
          var r := s.resumptions[id];
          && Tallies(s, id, r.record.requestCount, r.record.completed, r.record.retries)
          && (r.started.Some? ==> ObjectTallies(s, id, r.started.value)))
  }

  ghost predicate Accounted(s: Control)
    requires Known(s)
  {
    forall id :: id in s.requestCount ==> Books(s, id)
  }

  /** Records of suspensions are distinct objects, and what a handle or a pending
      suspension says about its record is true of it. */
  ghost predicate HandleTrue(s: Control, handle: ResumeHandle, record: Identity) {
    var c, id := s.core, handle.batchId;
    && record < c.nextIdentity
    && (id in c.suspended && c.suspended[id].identity == record ==> handle == HandleFor(id, c.suspended[id]))
    && (id in s.resumptions && s.resumptions[id].record.identity == record ==>
          handle == HandleFor(id, s.resumptions[id].record))
  }

  ghost predicate SuspensionTrue(s: Control, call: Suspension) {
    var c, id := s.core, call.id;
    && HandleTrue(s, HandleFor(id, call.record), call.record.identity)
    && call.obj in c.objects
    && c.objects[call.obj].requestCount == call.record.requestCount
    && c.objects[call.obj].completed == call.record.completed
    && c.objects[call.obj].owner == id
    // The suspended object is never put to work again.
    && (id in c.active ==> c.active[id] != call.obj)
    && (id in s.starting ==> s.starting[id] != call.obj)
    && (id in s.resumptions ==> s.resumptions[id].started != Some(call.obj))
  }

  ghost predicate HandlesTrue(s: Control) {
    && (forall h :: h in s.handles ==> HandleTrue(s, h.0, h.1))
    && (forall call :: call in s.suspensions ==> SuspensionTrue(s, call))
    && (forall id :: id in s.core.suspended ==> s.core.suspended[id].identity < s.core.nextIdentity)
    && (forall id :: id in s.resumptions ==> s.resumptions[id].record.identity < s.core.nextIdentity)
  }

  ghost predicate Filed(s: Control) {
    OnePlace(s) && Known(s) && Owned(s)
  }

  ghost predicate Safe(s: Control) {
    Filed(s) && Accounted(s) && HandlesTrue(s)
  }

  lemma InitialSafe(retryLimit: nat)
    ensures Safe(Initial(retryLimit))
  {
  }

  // ----- blocks that change one object -----

  /** Nothing but one object of an active batch changes, and perhaps the batch
      leaves the active map. */
  ghost predicate OneObjectChanges(c: Core, d: Core, id: BatchId, obj: Identity, b: ActiveBatch) {
    && IsActive(c, id, obj)
    && b.owner == c.objects[obj].owner
    && d == c.(objects := c.objects[obj := b], active := d.active)
    && (d.active == c.active || d.active == c.active - {id})
  }

  lemma OneObjectPlaces(s: Control, t: Control, id: BatchId, obj: Identity, b: ActiveBatch)
    requires Filed(s) && OneObjectChanges(s.core, t.core, id, obj, b)
    requires t.starting == s.starting && t.resumptions == s.resumptions && t.requestCount == s.requestCount
    requires t.delivered.Keys == s.delivered.Keys && t.retried.Keys == s.retried.Keys
    requires t.retired <= s.retired + {id}
    ensures Filed(t)
  {
    assert t.core.objects.Keys == s.core.objects.Keys;
  }

  /** The handles do not notice, as long as a suspended object is not the one. */
  lemma OneObjectHandles(s: Control, t: Control, id: BatchId, obj: Identity, b: ActiveBatch)
    requires Filed(s) && HandlesTrue(s) && OneObjectChanges(s.core, t.core, id, obj, b)
    requires t.starting == s.starting && t.resumptions == s.resumptions
    requires t.suspensions == s.suspensions && t.handles == s.handles
    ensures HandlesTrue(t)
  {
    forall call | call in t.suspensions ensures SuspensionTrue(t, call) {
      assert SuspensionTrue(s, call);
      assert s.core.objects[obj].owner == id;
      assert call.obj != obj;
    }
    forall h | h in t.handles ensures HandleTrue(t, h.0, h.1) {
      assert HandleTrue(s, h.0, h.1);
    }
  }

  /** Batches other than the changed one keep their books. */
  lemma OneObjectAccounted(s: Control, t: Control, id: BatchId, obj: Identity, b: ActiveBatch)
    requires Filed(s) && Accounted(s) && OneObjectChanges(s.core, t.core, id, obj, b)
    requires Filed(t)
    requires t.starting == s.starting && t.resumptions == s.resumptions && t.requestCount == s.requestCount
    requires forall i :: i in s.requestCount && i != id ==>
      t.delivered[i] == s.delivered[i] && t.retried[i] == s.retried[i]
    requires NoDuplicates(t.delivered[id]) && t.retried[id] <= t.core.retryLimit
    requires t.retired <= s.retired + {id}
    requires id in t.retired ==> |t.delivered[id]| >= t.requestCount[id]
    requires id in t.core.active ==> Tallies(t, id, b.requestCount, b.completed, b.retries)
    ensures Accounted(t)
  {
    forall i | i in t.requestCount ensures Books(t, i) {
      assert Books(s, i);
    }
  }

  /** A delivery appends an index that was not delivered before. */
  lemma DeliveryTallies(before: seq<nat>, index: nat)
    requires NoDuplicates(before) && index !in Elements(before)
    ensures NoDuplicates(before + [index])
    ensures Elements(before + [index]) == Elements(before) + {index}
    ensures |before + [index]| == |Elements(before) + {index}|
  {
    assert Elements(before + [index]) == Elements(before) + {index} by {
      forall x ensures x in Elements(before + [index]) <==> x in Elements(before) + {index} {
        assert x in before + [index] <==> x in before || x == index;
      }
    }
    forall i | 0 <= i < |before| ensures before[i] != index {
      assert before[i] in Elements(before);
    }
    NoDuplicatesSize(before + [index]);
  }

  lemma DeliveryAccounted(s: Control, id: BatchId, obj: Identity, index: nat)
    requires Filed(s) && Accounted(s)
    requires IsActive(s.core, id, obj) && index !in s.core.objects[obj].completed
    ensures Filed(Delivering(s, id, obj, index)) && Accounted(Delivering(s, id, obj, index))
  {
    var t := Delivering(s, id, obj, index);
    assert Books(s, id);
    DeliveryTallies(s.delivered[id], index);
    var b := DeliveryChanges(s, id, obj, index);
    OneObjectPlaces(s, t, id, obj, b);
    OneObjectAccounted(s, t, id, obj, b);
  }

  /** What a delivery changes, field by field. */
  lemma DeliveryChanges(s: Control, id: BatchId, obj: Identity, index: nat) returns (b: ActiveBatch)
    requires IsActive(s.core, id, obj) && index !in s.core.objects[obj].completed
    requires id in s.delivered
    ensures var t, completed := Delivering(s, id, obj, index), s.core.objects[obj].completed + {index};
      && b == s.core.objects[obj].(completed := completed)
      && OneObjectChanges(s.core, t.core, id, obj, b)
      && t == s.(core := t.core, delivered := s.delivered[id := s.delivered[id] + [index]], retired := t.retired)
      && (if |completed| >= b.requestCount
          then t.retired == s.retired + {id} && id !in t.core.active
          else t.retired == s.retired)
  {
    b := s.core.objects[obj].(completed := s.core.objects[obj].completed + {index});
  }

  lemma DeliverySafe(s: Control, id: BatchId, obj: Identity, index: nat)
    requires Safe(s) && IsActive(s.core, id, obj) && index !in s.core.objects[obj].completed
    ensures Safe(Delivering(s, id, obj, index))
  {
    var t := Delivering(s, id, obj, index);
    DeliveryAccounted(s, id, obj, index);
    OneObjectHandles(s, t, id, obj, t.core.objects[obj]);
  }

  lemma RetryingSafe(s: Control, id: BatchId, obj: Identity, starts: bool)
    requires Safe(s)
    ensures Safe(Retrying(s, id, obj, starts))
  {
    var verdict := Retry(s.core, id, obj, starts).1;
    if verdict.Restarted? || verdict.RestartFailed? {
      RestartSafe(s, id, obj, starts);
    }
  }

  lemma RestartSafe(s: Control, id: BatchId, obj: Identity, starts: bool)
    requires Safe(s) && IsActive(s.core, id, obj)
    requires s.core.objects[obj].retries < s.core.retryLimit
    requires Remaining(s.core.objects[obj].requestCount, s.core.objects[obj].completed) != []
    ensures Safe(Retrying(s, id, obj, starts))
  {
    var t := Retrying(s, id, obj, starts);
    assert Books(s, id);
    var b := RestartChanges(s, id, obj, starts);
    OneObjectPlaces(s, t, id, obj, b);
    OneObjectAccounted(s, t, id, obj, b);
    OneObjectHandles(s, t, id, obj, b);
  }

  /** What a retry changes, field by field. */
  lemma RestartChanges(s: Control, id: BatchId, obj: Identity, starts: bool) returns (b: ActiveBatch)
    requires IsActive(s.core, id, obj) && id in s.retried
    requires s.core.objects[obj].retries < s.core.retryLimit
    requires Remaining(s.core.objects[obj].requestCount, s.core.objects[obj].completed) != []
    ensures var t := Retrying(s, id, obj, starts);
      && b == s.core.objects[obj].(retries := s.core.objects[obj].retries + 1,
                                   generation := b.generation, inputs := b.inputs)
      && OneObjectChanges(s.core, t.core, id, obj, b)
      && t == s.(core := t.core, retried := s.retried[id := s.retried[id] + 1])
  {
    b := Retrying(s, id, obj, starts).core.objects[obj];
  }

  // ----- blocks that only remove -----

  /** Batches may leave the maps of `s`; nothing else about them changes. */
  ghost predicate Restricts(s: Control, t: Control) {
    && t.core.objects == s.core.objects && t.core.retryLimit == s.core.retryLimit
    && t.core.nextId == s.core.nextId && t.core.nextIdentity == s.core.nextIdentity
    && (forall i :: i in t.core.active ==> i in s.core.active && t.core.active[i] == s.core.active[i])
    && (forall i :: i in t.core.suspended ==>
          i in s.core.suspended && t.core.suspended[i] == s.core.suspended[i])
    && t.core.resuming == s.core.resuming && t.core.discarded <= t.core.resuming
    && t.starting == s.starting && t.resumptions == s.resumptions && t.requestCount == s.requestCount
    && t.delivered == s.delivered && t.retried == s.retried && t.retired == s.retired
    && t.suspensions <= s.suspensions
  }

  lemma RestrictedIsSafe(s: Control, t: Control)
    requires Safe(s) && Restricts(s, t)
    requires forall h :: h in t.handles ==> HandleTrue(s, h.0, h.1)
    ensures Safe(t)
  {
    RestrictedBooks(s, t);
    forall h | h in t.handles ensures HandleTrue(t, h.0, h.1) {
      assert HandleTrue(s, h.0, h.1);
    }
    forall call | call in t.suspensions ensures SuspensionTrue(t, call) {
      assert SuspensionTrue(s, call);
    }
  }

  lemma RestrictedBooks(s: Control, t: Control)
    requires Filed(s) && Accounted(s) && Restricts(s, t)
    ensures Filed(t) && Accounted(t)
  {
    forall i | i in t.requestCount ensures Books(t, i) {
      assert Books(s, i);
    }
  }

  lemma ConfirmedHandle(s: Control, call: Suspension)
    requires HandlesTrue(s)
    ensures forall h :: h in Confirming(s, call).handles ==> HandleTrue(s, h.0, h.1)
  {
    if call in s.suspensions {
      assert SuspensionTrue(s, call);
    }
  }

  lemma ConfirmingSafe(s: Control, call: Suspension)
    requires Safe(s)
    ensures Safe(Confirming(s, call))
  {
    ConfirmedHandle(s, call);
    RestrictedIsSafe(s, Confirming(s, call));
  }

  /** Nothing about the batches other than `id` changes, and no count. */
  ghost predicate OneBatchChanges(s: Control, t: Control, id: BatchId) {
    && t.core.retryLimit == s.core.retryLimit && t.retired == s.retired
    && (forall o :: o in s.core.objects ==> o in t.core.objects && t.core.objects[o] == s.core.objects[o])
    && (forall i :: i in t.requestCount && i != id ==>
          && i in s.requestCount && t.requestCount[i] == s.requestCount[i]
          && i in s.delivered && i in t.delivered && t.delivered[i] == s.delivered[i]
          && i in s.retried && i in t.retried && t.retried[i] == s.retried[i])
    && (forall i :: i in t.core.active && i != id ==> i in s.core.active && t.core.active[i] == s.core.active[i])
    && (forall i :: i in t.starting && i != id ==> i in s.starting && t.starting[i] == s.starting[i])
    && (forall i :: i in t.core.suspended && i != id ==>
          i in s.core.suspended && t.core.suspended[i] == s.core.suspended[i])
    && (forall i :: i in t.resumptions && i != id ==> i in s.resumptions && t.resumptions[i] == s.resumptions[i])
  }

  lemma OneBatchAccounted(s: Control, t: Control, id: BatchId)
    requires Filed(s) && Accounted(s) && Filed(t) && OneBatchChanges(s, t, id)
    requires id in t.requestCount ==> Books(t, id)
    ensures Accounted(t)
  {
    forall i | i in t.requestCount ensures Books(t, i) {
      assert i != id ==> Books(s, i);
    }
  }

  lemma SubmittingPlaces(s: Control, n: nat)
    requires Filed(s)
    ensures var t := Submitting(s, n); Filed(t)
  {
  }

  lemma SubmittingAccounted(s: Control, n: nat)
    requires Filed(s) && Accounted(s)
    requires var t := Submitting(s, n); Filed(t)
    ensures Accounted(Submitting(s, n))
  {
    var t := Submitting(s, n);
    if n > 0 {
      assert t.delivered == s.delivered[s.core.nextId := []] && t.retried == s.retried[s.core.nextId := 0];
      assert t.requestCount == s.requestCount[s.core.nextId := n];
      SubmittedBooks(s, n);
      OneBatchAccounted(s, t, s.core.nextId);
    }
  }

  lemma SubmittedBooks(s: Control, n: nat)
    requires Filed(s) && n > 0 && Filed(Submitting(s, n))
    ensures Books(Submitting(s, n), s.core.nextId)
  {
    assert Elements([]) == {};
  }

  lemma SubmittingHandles(s: Control, n: nat)
    requires Filed(s) && HandlesTrue(s)
    ensures HandlesTrue(Submitting(s, n))
  {
  }

  lemma SkippingIdSafe(s: Control)
    requires Safe(s)
    ensures Safe(SkippingId(s))
  {
  }

  lemma RegisteringPlaces(s: Control, id: BatchId)
    requires Filed(s)
    ensures Filed(Registering(s, id))
  {
  }

  lemma RegisteringAccounted(s: Control, id: BatchId)
    requires Filed(s) && Accounted(s)
    requires Filed(Registering(s, id))
    ensures Accounted(Registering(s, id))
  {
    var t := Registering(s, id);
    forall i | i in t.requestCount ensures Books(t, i) {
      assert Books(s, i);
    }
  }

  lemma RegisteringHandles(s: Control, id: BatchId)
    requires Filed(s) && HandlesTrue(s)
    ensures HandlesTrue(Registering(s, id))
  {
  }

  lemma SuspendingPlaces(s: Control, id: BatchId)
    requires Filed(s)
    ensures var t := Suspending(s, id); Filed(t)
  {
  }

  lemma SuspendingAccounted(s: Control, id: BatchId)
    requires Filed(s) && Accounted(s)
    requires var t := Suspending(s, id); Filed(t)
    ensures Accounted(Suspending(s, id))
  {
    var t := Suspending(s, id);
    forall i | i in t.requestCount ensures Books(t, i) {
      assert Books(s, i);
    }
  }

  lemma SuspendingHandles(s: Control, id: BatchId)
    requires Filed(s) && HandlesTrue(s)
    ensures HandlesTrue(Suspending(s, id))
  {
    var t := Suspending(s, id);
    forall call | call in t.suspensions ensures SuspensionTrue(t, call) {
      assert call in s.suspensions ==> SuspensionTrue(s, call);
    }
  }

  lemma ResumingPlaces(s: Control, handle: ResumeHandle)
    requires Filed(s)
    ensures var t := Resuming(s, handle); Filed(t)
  {
  }

  lemma ResumingAccounted(s: Control, handle: ResumeHandle)
    requires Filed(s) && Accounted(s)
    requires var t := Resuming(s, handle); Filed(t)
    ensures Accounted(Resuming(s, handle))
  {
    var t := Resuming(s, handle);
    forall i | i in t.requestCount ensures Books(t, i) {
      assert i in s.requestCount ==> Books(s, i);
    }
  }

  lemma ResumingHandles(s: Control, handle: ResumeHandle)
    requires Filed(s) && HandlesTrue(s)
    ensures HandlesTrue(Resuming(s, handle))
  {
  }

  lemma StartingResumedPlaces(s: Control, id: BatchId)
    requires Filed(s)
    ensures var t := StartingResumed(s, id); Filed(t)
  {
  }

  lemma StartingResumedAccounted(s: Control, id: BatchId)
    requires Filed(s) && Accounted(s)
    requires var t := StartingResumed(s, id); Filed(t)
    ensures Accounted(StartingResumed(s, id))
  {
    var t := StartingResumed(s, id);
    if t != s {
      assert Books(s, id);
      StartingResumedBooks(s, id);
      StartingResumedChanges(s, id);
      OneBatchAccounted(s, t, id);
    }
  }

  lemma StartingResumedChanges(s: Control, id: BatchId)
    requires Filed(s)
    ensures OneBatchChanges(s, StartingResumed(s, id), id)
  {
  }

  lemma StartingResumedBooks(s: Control, id: BatchId)
    requires Filed(s) && id in s.requestCount && Books(s, id)
    requires var t := StartingResumed(s, id); Filed(t)
    ensures Books(StartingResumed(s, id), id)
  {
  }

  lemma StartingResumedHandles(s: Control, id: BatchId)
    requires Filed(s) && HandlesTrue(s)
    ensures HandlesTrue(StartingResumed(s, id))
  {
  }

  lemma AbandoningPlaces(s: Control, id: BatchId)
    requires Filed(s)
    ensures var t := Abandoning(s, id); Filed(t)
  {
  }

  lemma AbandoningAccounted(s: Control, id: BatchId)
    requires Filed(s) && Accounted(s)
    requires var t := Abandoning(s, id); Filed(t)
    ensures Accounted(Abandoning(s, id))
  {
    var t := Abandoning(s, id);
    if t != s {
      assert Books(s, id);
      AbandoningBooks(s, id);
      AbandoningChanges(s, id);
      OneBatchAccounted(s, t, id);
    }
  }

  lemma AbandoningChanges(s: Control, id: BatchId)
    requires Filed(s)
    ensures OneBatchChanges(s, Abandoning(s, id), id)
  {
  }

  lemma AbandoningBooks(s: Control, id: BatchId)
    requires Filed(s) && id in s.requestCount && Books(s, id)
    requires var t := Abandoning(s, id); Filed(t)
    ensures Books(Abandoning(s, id), id)
  {
  }

  lemma AbandoningHandles(s: Control, id: BatchId)
    requires Filed(s) && HandlesTrue(s)
    ensures HandlesTrue(Abandoning(s, id))
  {
  }

  lemma FinishingPlaces(s: Control, id: BatchId)
    requires Filed(s)
    ensures var t := Finishing(s, id); Filed(t)
  {
  }

  lemma FinishingAccounted(s: Control, id: BatchId)
    requires Filed(s) && Accounted(s)
    requires var t := Finishing(s, id); Filed(t)
    ensures Accounted(Finishing(s, id))
  {
    var t := Finishing(s, id);
    if t != s {
      assert Books(s, id);
      FinishingBooks(s, id);
      FinishingChanges(s, id);
      OneBatchAccounted(s, t, id);
    }
  }

  lemma FinishingChanges(s: Control, id: BatchId)
    requires Filed(s)
    ensures OneBatchChanges(s, Finishing(s, id), id)
  {
  }

  lemma FinishingBooks(s: Control, id: BatchId)
    requires Filed(s) && id in s.requestCount && Books(s, id)
    requires var t := Finishing(s, id); Filed(t)
    ensures Books(Finishing(s, id), id)
  {
  }

  lemma FinishingHandles(s: Control, id: BatchId)
    requires Filed(s) && HandlesTrue(s)
    ensures HandlesTrue(Finishing(s, id))
  {
  }

  // ----- every block, and every interleaving -----

  lemma SubmittingSafe(s: Control, n: nat)
    requires Safe(s)
    ensures Safe(Submitting(s, n))
  {
    SubmittingPlaces(s, n);
    SubmittingAccounted(s, n);
    SubmittingHandles(s, n);
  }

  lemma RegisteringSafe(s: Control, id: BatchId)
    requires Safe(s)
    ensures Safe(Registering(s, id))
  {
    RegisteringPlaces(s, id);
    RegisteringAccounted(s, id);
    RegisteringHandles(s, id);
  }

  lemma SuspendingSafe(s: Control, id: BatchId)
    requires Safe(s)
    ensures Safe(Suspending(s, id))
  {
    SuspendingPlaces(s, id);
    SuspendingAccounted(s, id);
    SuspendingHandles(s, id);
  }

  lemma ResumingSafe(s: Control, handle: ResumeHandle)
    requires Safe(s)
    ensures Safe(Resuming(s, handle))
  {
    ResumingPlaces(s, handle);
    ResumingAccounted(s, handle);
    ResumingHandles(s, handle);
  }

  lemma StartingResumedSafe(s: Control, id: BatchId)
    requires Safe(s)
    ensures Safe(StartingResumed(s, id))
  {
    StartingResumedPlaces(s, id);
    StartingResumedAccounted(s, id);
    StartingResumedHandles(s, id);
  }

  lemma AbandoningSafe(s: Control, id: BatchId)
    requires Safe(s)
    ensures Safe(Abandoning(s, id))
  {
    AbandoningPlaces(s, id);
    AbandoningAccounted(s, id);
    AbandoningHandles(s, id);
  }

  lemma FinishingSafe(s: Control, id: BatchId)
    requires Safe(s)
    ensures Safe(Finishing(s, id))
  {
    FinishingPlaces(s, id);
    FinishingAccounted(s, id);
    FinishingHandles(s, id);
  }

  lemma DeliveringSafe(s: Control, id: BatchId, obj: Identity, index: nat)
    requires Safe(s)
    ensures Safe(Delivering(s, id, obj, index))
  {
    if IsActive(s.core, id, obj) && index !in s.core.objects[obj].completed {
      DeliverySafe(s, id, obj, index);
    } else {
      RestrictedIsSafe(s, Delivering(s, id, obj, index));
    }
  }

  lemma FailingSafe(s: Control, id: BatchId, obj: Identity)
    requires Safe(s)
    ensures Safe(Failing(s, id, obj))
  {
    RestrictedIsSafe(s, Failing(s, id, obj));
  }

  lemma CancellingSafe(s: Control, id: BatchId)
    requires Safe(s)
    ensures Safe(Cancelling(s, id))
  {
    RestrictedIsSafe(s, Cancelling(s, id));
  }

  lemma DiscardingSafe(s: Control, id: BatchId)
    requires Safe(s)
    ensures Safe(Discarding(s, id))
  {
    RestrictedIsSafe(s, Discarding(s, id));
  }

  lemma StepSafe(s: Control, block: Block)
    requires Safe(s)
    ensures Safe(Step(s, block))
  {
    match block
    case BeginSubmit(n) => SubmittingSafe(s, n);
    case FailedSubmit => SkippingIdSafe(s);
    case FinishSubmit(id) => RegisteringSafe(s, id);
    case CommitResult(id, obj, index) => DeliveringSafe(s, id, obj, index);
    case RetryAttempt(id, obj, starts) => RetryingSafe(s, id, obj, starts);
    case FailBatch(id, obj) => FailingSafe(s, id, obj);
    case CancelBatch(id) => CancellingSafe(s, id);
    case SuspendBatch(id) => SuspendingSafe(s, id);
    case ConfirmSuspend(call) => ConfirmingSafe(s, call);
    case BeginResumeBatch(handle) => ResumingSafe(s, handle);
    case StartResumed(id) => StartingResumedSafe(s, id);
    case AbandonResumeBatch(id) => AbandoningSafe(s, id);
    case FinishResumeBatch(id) => FinishingSafe(s, id);
    case DiscardSuspended(id) => DiscardingSafe(s, id);
  }

  lemma {:induction false} StepsSafe(s: Control, blocks: seq<Block>)
    requires Safe(s)
    ensures Safe(Steps(s, blocks))
    decreases blocks
  {
    if blocks != [] {
      StepSafe(s, blocks[0]);
      StepsSafe(Step(s, blocks[0]), blocks[1..]);
    }
  }

  ghost predicate Reachable(s: Control) {
    exists retryLimit, blocks :: s == Steps(Initial(retryLimit), blocks)
  }

  lemma ReachableSafe(s: Control)
    requires Reachable(s)
    ensures Safe(s)
  {
    var retryLimit, blocks :| s == Steps(Initial(retryLimit), blocks);
    InitialSafe(retryLimit);
    StepsSafe(Initial(retryLimit), blocks);
  }

  // ----- what callers can rely on -----

  /** Over every interleaving: nothing is delivered twice, what a live batch has
      recorded is what was delivered, and a batch retired by completion has
      delivered as many results as it has requests. */
  lemma DeliveredAtMostOnce(s: Control, id: BatchId)
    requires Reachable(s) && id in s.requestCount
    ensures id in s.delivered && NoDuplicates(s.delivered[id])
    ensures id in s.core.active ==>
      (s.core.active[id] in s.core.objects
       && s.core.objects[s.core.active[id]].completed == Elements(s.delivered[id]))
    ensures id in s.core.suspended ==> s.core.suspended[id].completed == Elements(s.delivered[id])
    ensures id in s.retired ==> |s.delivered[id]| >= s.requestCount[id]
  {
    ReachableSafe(s);
    assert Books(s, id);
  }

  /** Retries are counted across suspensions and never exceed the limit. */
  lemma RetriesLimited(s: Control, id: BatchId)
    requires Reachable(s) && id in s.requestCount
    ensures id in s.retried && s.retried[id] <= s.core.retryLimit
  {
    ReachableSafe(s);
    assert Books(s, id);
  }

  /** The id was submitted and has left every map. */
  predicate Gone(s: Control, id: BatchId) {
    && id < s.core.nextId
    && id !in s.core.active && id !in s.core.suspended && id !in s.core.resuming
    && id !in s.starting && id !in s.resumptions
  }

  /** A batch that has left the evaluator never comes back, and nothing more is
      delivered for it. */
  lemma {:induction false} GoneForever(s: Control, blocks: seq<Block>, id: BatchId)
    requires Safe(s) && Gone(s, id)
    ensures Gone(Steps(s, blocks), id)
    ensures id in s.delivered ==>
      id in Steps(s, blocks).delivered && Steps(s, blocks).delivered[id] == s.delivered[id]
    decreases blocks
  {
    if blocks != [] {
      StepSafe(s, blocks[0]);
      GoneStep(s, blocks[0], id);
      GoneForever(Step(s, blocks[0]), blocks[1..], id);
    }
  }

  lemma GoneInSubmission(s: Control, block: Block, id: BatchId)
    requires OnePlace(s) && Gone(s, id)
    requires block.BeginSubmit? || block.FailedSubmit? || block.FinishSubmit?
    ensures Gone(Step(s, block), id)
    ensures id in s.delivered ==>
      id in Step(s, block).delivered && Step(s, block).delivered[id] == s.delivered[id]
  {
  }

  lemma GoneInRetry(s: Control, owner: BatchId, obj: Identity, starts: bool, id: BatchId)
    requires Gone(s, id)
    ensures var t := Retrying(s, owner, obj, starts); Gone(t, id) && t.delivered == s.delivered
  {
    RetryKeepsSuspended(s.core, owner, obj, starts);
  }

  lemma GoneInFailure(s: Control, owner: BatchId, obj: Identity, id: BatchId)
    requires Gone(s, id)
    ensures var t := Failing(s, owner, obj); Gone(t, id) && t.delivered == s.delivered
  {
  }

  lemma GoneInCommit(s: Control, i: BatchId, obj: Identity, index: nat, id: BatchId)
    requires OnePlace(s) && Gone(s, id)
    ensures var t := Delivering(s, i, obj, index);
      Gone(t, id) && (id in s.delivered ==> id in t.delivered && t.delivered[id] == s.delivered[id])
  {
    if i == id {
      assert Delivering(s, i, obj, index) == s;
    }
  }

  lemma GoneInSuspension(s: Control, block: Block, id: BatchId)
    requires OnePlace(s) && Gone(s, id)
    requires block.CancelBatch? || block.SuspendBatch? || block.ConfirmSuspend? || block.DiscardSuspended?
    ensures Gone(Step(s, block), id)
    ensures id in s.delivered ==>
      id in Step(s, block).delivered && Step(s, block).delivered[id] == s.delivered[id]
  {
  }

  lemma GoneInResumption(s: Control, block: Block, id: BatchId)
    requires OnePlace(s) && Gone(s, id)
    requires block.BeginResumeBatch? || block.StartResumed? || block.AbandonResumeBatch? || block.FinishResumeBatch?
    ensures Gone(Step(s, block), id)
    ensures id in s.delivered ==>
      id in Step(s, block).delivered && Step(s, block).delivered[id] == s.delivered[id]
  {
  }

  lemma GoneStep(s: Control, block: Block, id: BatchId)
    requires OnePlace(s) && Gone(s, id)
    ensures Gone(Step(s, block), id)
    ensures id in s.delivered ==>
      id in Step(s, block).delivered && Step(s, block).delivered[id] == s.delivered[id]
  {
    if block.BeginSubmit? || block.FailedSubmit? || block.FinishSubmit? {
      GoneInSubmission(s, block, id);
    } else if block.CommitResult? {
      GoneInCommit(s, block.id, block.obj, block.index, id);
    } else if block.RetryAttempt? {
      GoneInRetry(s, block.id, block.obj, block.starts, id);
    } else if block.FailBatch? {
      GoneInFailure(s, block.id, block.obj, id);
    } else if block.CancelBatch? || block.SuspendBatch? || block.ConfirmSuspend? || block.DiscardSuspended? {
      GoneInSuspension(s, block, id);
    } else {
      GoneInResumption(s, block, id);
    }
  }

  /** The handle is for the record that is suspended under its batch id. */
  ghost predicate Current(s: Control, handle: ResumeHandle, record: Identity) {
    && (handle, record) in s.handles
    && handle.batchId in s.core.suspended
    && s.core.suspended[handle.batchId].identity == record
  }

  /** Blocks that use up the suspended batch `id`; a resumption that is refused
      does not. */
  predicate Consumes(s: Control, block: Block, id: BatchId) {
    match block
    case CancelBatch(i) => i == id
    case DiscardSuspended(i) => i == id
    case BeginResumeBatch(handle) => handle.batchId == id && BeginResume(s.core, handle).1.Some?
    case _ => false
  }

  predicate NeverConsumed(s: Control, blocks: seq<Block>, id: BatchId)
    decreases blocks
  {
    blocks == [] || (!Consumes(s, blocks[0], id) && NeverConsumed(Step(s, blocks[0]), blocks[1..], id))
  }

  /** Resuming accepts every handle that is still current. */
  lemma CurrentHandleAccepted(s: Control, handle: ResumeHandle, record: Identity)
    requires Reachable(s) && Current(s, handle, record)
    ensures BeginResume(s.core, handle).1 == Some(s.core.suspended[handle.batchId])
  {
    ReachableSafe(s);
    assert HandleTrue(s, handle, record);
  }

  /** A handle stays current until its batch is resumed, cancelled or discarded. */
  lemma HandleStaysCurrent(s: Control, block: Block, handle: ResumeHandle, record: Identity)
    requires OnePlace(s) && Current(s, handle, record)
    requires !Consumes(s, block, handle.batchId)
    ensures Current(Step(s, block), handle, record)
  {
    if block.BeginSubmit? || block.FailedSubmit? || block.FinishSubmit?
      || block.CommitResult? || block.RetryAttempt? || block.FailBatch? {
      HandleStaysInWork(s, block, handle, record);
    } else {
      HandleStaysInControl(s, block, handle, record);
    }
  }

  /** Over any run of blocks: a handle stays good until its batch is resumed,
      cancelled or discarded. */
  lemma {:induction false} HandleStaysGood(s: Control, blocks: seq<Block>, handle: ResumeHandle, record: Identity)
    requires Safe(s) && Current(s, handle, record) && NeverConsumed(s, blocks, handle.batchId)
    ensures var t := Steps(s, blocks);
      Current(t, handle, record) && BeginResume(t.core, handle).1.Some?
    decreases blocks
  {
    if blocks == [] {
      assert HandleTrue(s, handle, record);
    } else {
      HandleStaysCurrent(s, blocks[0], handle, record);
      StepSafe(s, blocks[0]);
      HandleStaysGood(Step(s, blocks[0]), blocks[1..], handle, record);
    }
  }

  lemma HandleStaysInWork(s: Control, block: Block, handle: ResumeHandle, record: Identity)
    requires OnePlace(s) && Current(s, handle, record)
    requires block.BeginSubmit? || block.FailedSubmit? || block.FinishSubmit?
      || block.CommitResult? || block.RetryAttempt? || block.FailBatch?
    ensures Current(Step(s, block), handle, record)
  {
    match block
    case CommitResult(id, obj, index) => CommitKeepsSuspended(s.core, id, obj, index);
    case RetryAttempt(id, obj, starts) => RetryKeepsSuspended(s.core, id, obj, starts);
    case _ =>
  }

  lemma CommitKeepsSuspended(c: Core, id: BatchId, obj: Identity, index: nat)
    ensures Commit(c, id, obj, index).0.suspended == c.suspended
  {
  }

  lemma RetryKeepsSuspended(c: Core, id: BatchId, obj: Identity, starts: bool)
    ensures var d := Retry(c, id, obj, starts).0;
      && d.nextId == c.nextId && d.active.Keys <= c.active.Keys
      && d.suspended == c.suspended && d.resuming == c.resuming
  {
  }

  lemma HandleStaysInControl(s: Control, block: Block, handle: ResumeHandle, record: Identity)
    requires OnePlace(s) && Current(s, handle, record)
    requires !Consumes(s, block, handle.batchId)
    requires block.CancelBatch? || block.DiscardSuspended? || block.SuspendBatch? || block.ConfirmSuspend?
      || block.BeginResumeBatch? || block.StartResumed? || block.AbandonResumeBatch? || block.FinishResumeBatch?
    ensures Current(Step(s, block), handle, record)
  {
    if block.CancelBatch? || block.DiscardSuspended? {
      HandleStaysInRemoval(s, block, handle, record);
    } else if block.SuspendBatch? || block.ConfirmSuspend? {
      HandleStaysInSuspension(s, block, handle, record);
    } else {
      HandleStaysInResumption(s, block, handle, record);
    }
  }

  lemma HandleStaysInRemoval(s: Control, block: Block, handle: ResumeHandle, record: Identity)
    requires Current(s, handle, record) && !Consumes(s, block, handle.batchId)
    requires block.CancelBatch? || block.DiscardSuspended?
    ensures Current(Step(s, block), handle, record)
  {
  }

  lemma HandleStaysInSuspension(s: Control, block: Block, handle: ResumeHandle, record: Identity)
    requires OnePlace(s) && Current(s, handle, record)
    requires block.SuspendBatch? || block.ConfirmSuspend?
    ensures Current(Step(s, block), handle, record)
  {
  }

  lemma HandleStaysInResumption(s: Control, block: Block, handle: ResumeHandle, record: Identity)
    requires OnePlace(s) && Current(s, handle, record) && !Consumes(s, block, handle.batchId)
    requires block.BeginResumeBatch? || block.StartResumed? || block.AbandonResumeBatch? || block.FinishResumeBatch?
    ensures Current(Step(s, block), handle, record)
  {
  }

  /** A resumption whose attempt does not start leaves the handle good, unless the
      batch was discarded meanwhile. */
  lemma FailedResumeRestores(s: Control, handle: ResumeHandle, record: Identity)
    requires Reachable(s) && (handle, record) in s.handles
    requires handle.batchId in s.resumptions && s.resumptions[handle.batchId].started.None?
    requires s.resumptions[handle.batchId].record.identity == record
    ensures var t := Abandoning(s, handle.batchId);
      if handle.batchId in s.core.discarded then Gone(t, handle.batchId)
      else Current(t, handle, record) && BeginResume(t.core, handle).1.Some?
  {
    ReachableSafe(s);
    assert HandleTrue(s, handle, record);
  }
}
