// The life of one batch as an automaton, and the evaluator's maps as its
// implementation: what each lock-guarded block does to each batch, exactly.
module AsyncBatchLife {
  import opened Outcomes
  import opened AsyncLifecycle
  import opened AsyncSafety

  /** How far a batch of `requestCount` requests is. */
  datatype Progress = Progress(requestCount: nat, completed: set<nat>, retries: nat)

  datatype Life =
    | Unborn
    | Starting(progress: Progress)
    | Running(progress: Progress)
    | Parked(progress: Progress)
    | Resuming(progress: Progress, started: bool, discarded: bool)
    | Over

  // ----- the automaton of one batch -----

  /** A result arrives: a repeated one ends the batch as failed, the last one as
      completed. */
  function AfterResult(p: Progress, index: nat): (r: Life) {
    if index in p.completed || |p.completed| + 1 >= p.requestCount then Over
    else Running(p.(completed := p.completed + {index}))
  }

  /** A failed attempt is replaced while the limit allows it; the retry is counted
      even when the replacement cannot start, which ends the batch. */
  function AfterFailedAttempt(p: Progress, starts: bool, limit: nat): (r: Life) {
    if p.retries >= limit then Running(p)
    else if starts then Running(p.(retries := p.retries + 1))
    else Over
  }

  /** A block that names this batch. `owns` tells whether the caller's batch object
      is the running one. */
  function Named(life: Life, block: Block, owns: bool, limit: nat): (r: Life) {
    match block
    case FinishSubmit(_) => if life.Starting? then Running(life.progress) else life
    case CommitResult(_, _, index) => if life.Running? && owns then AfterResult(life.progress, index) else life
    case RetryAttempt(_, _, starts) =>
      if life.Running? && owns then AfterFailedAttempt(life.progress, starts, limit) else life
    case FailBatch(_, _) => if life.Running? && owns then Over else life
    case CancelBatch(_) => if life.Running? || life.Parked? then Over else life
    case SuspendBatch(_) => if life.Running? then Parked(life.progress) else life
    case BeginResumeBatch(handle) =>
      if life.Parked? && handle.requestCount == life.progress.requestCount
         && handle.completedCount == |life.progress.completed|
      then Resuming(life.progress, false, false) else life
    case StartResumed(_) => if life.Resuming? then Resuming(life.progress, true, life.discarded) else life
    case AbandonResumeBatch(_) =>
      if life.Resuming? && !life.started then (if life.discarded then Over else Parked(life.progress)) else life
    case FinishResumeBatch(_) =>
      if life.Resuming? && life.started then (if life.discarded then Over else Running(life.progress)) else life
    case DiscardSuspended(_) =>
      if life.Parked? then Over
      else if life.Resuming? then Resuming(life.progress, life.started, true) else life
    case _ => life
  }

  function Target(block: Block): (r: Option<BatchId>) {
    match block
    case FinishSubmit(id) => Some(id)
    case CommitResult(id, _, _) => Some(id)
    case RetryAttempt(id, _, _) => Some(id)
    case FailBatch(id, _) => Some(id)
    case CancelBatch(id) => Some(id)
    case SuspendBatch(id) => Some(id)
    case BeginResumeBatch(handle) => Some(handle.batchId)
    case StartResumed(id) => Some(id)
    case AbandonResumeBatch(id) => Some(id)
    case FinishResumeBatch(id) => Some(id)
    case DiscardSuspended(id) => Some(id)
    case _ => None
  }

  /** A submission makes the next batch; a failed one uses up its number. */
  function Born(block: Block): (r: Life) {
    match block
    case BeginSubmit(n) => if n > 0 then Starting(Progress(n, {}, 0)) else Unborn
    case FailedSubmit => Over
    case _ => Unborn
  }

  function NextLife(life: Life, block: Block, isTarget: bool, owns: bool, limit: nat): (r: Life) {
    if life.Unborn? then Born(block) else if isTarget then Named(life, block, owns, limit) else life
  }

  // ----- the evaluator implements it -----

  function ProgressOf(b: ActiveBatch): (r: Progress) {
    Progress(b.requestCount, b.completed, b.retries)
  }

  function RecordedProgress(b: SuspendedBatch): (r: Progress) {
    Progress(b.requestCount, b.completed, b.retries)
  }

  /** Where the maps have a batch, and with what progress. */
  function LifeOf(s: Control, id: BatchId): (r: Life)
    requires Owned(s)
  {
    var c := s.core;
    if id >= c.nextId then Unborn
    else if id in s.starting then Starting(ProgressOf(c.objects[s.starting[id]]))
    else if id in c.active then Running(ProgressOf(c.objects[c.active[id]]))
    else if id in c.suspended then Parked(RecordedProgress(c.suspended[id]))
    else if id in s.resumptions then
      var call := s.resumptions[id];
      Resuming(RecordedProgress(call.record), call.started.Some?, id in c.discarded)
    else Over
  }

  /** The caller of a waiter's block has the batch object that is running. */
  predicate Owns(s: Control, block: Block) {
    match block
    case CommitResult(id, obj, _) => IsActive(s.core, id, obj)
    case RetryAttempt(id, obj, _) => IsActive(s.core, id, obj)
    case FailBatch(id, obj) => IsActive(s.core, id, obj)
    case _ => false
  }

  /** Only the next number is born by a submission. */
  function Follows(s: Control, block: Block, id: BatchId): (r: Life)
    requires Owned(s)
  {
    if id > s.core.nextId then Unborn
    else NextLife(LifeOf(s, id), block, Target(block) == Some(id), Owns(s, block), s.core.retryLimit)
  }

  /** Nothing about the batch `id` is different in `t`. */
  ghost predicate SameAt(s: Control, t: Control, id: BatchId)
    requires Owned(s) && Owned(t)
  {
    var c, d := s.core, t.core;
    && (id < c.nextId <==> id < d.nextId)
    && (id in s.starting <==> id in t.starting)
    && (id in s.starting ==> d.objects[t.starting[id]] == c.objects[s.starting[id]])
    && (id in c.active <==> id in d.active)
    && (id in c.active ==> d.objects[d.active[id]] == c.objects[c.active[id]])
    && (id in c.suspended <==> id in d.suspended) && (id in c.suspended ==> d.suspended[id] == c.suspended[id])
    && (id in s.resumptions <==> id in t.resumptions)
    && (id in s.resumptions ==> t.resumptions[id] == s.resumptions[id])
    && (id in c.discarded <==> id in d.discarded)
  }

  /** A block that neither names a batch nor makes it does nothing to it. */
  lemma KeptFollows(s: Control, t: Control, block: Block, id: BatchId)
    requires Owned(s) && Owned(t) && SameAt(s, t, id) && Target(block) != Some(id)
    requires (block.BeginSubmit? || block.FailedSubmit?) ==> id != s.core.nextId
    ensures LifeOf(t, id) == Follows(s, block, id)
  {
  }

  lemma SubmittingOwn(s: Control, n: nat)
    requires Filed(s) && Filed(Submitting(s, n))
    ensures LifeOf(Submitting(s, n), s.core.nextId) == if n > 0 then Starting(Progress(n, {}, 0)) else Unborn
  {
  }

  lemma SubmittingElsewhere(s: Control, n: nat, id: BatchId)
    requires Filed(s) && Filed(Submitting(s, n)) && id != s.core.nextId
    ensures SameAt(s, Submitting(s, n), id)
  {
  }

  lemma SubmittingFollows(s: Control, n: nat, id: BatchId)
    requires Filed(s) && Filed(Step(s, BeginSubmit(n)))
    ensures LifeOf(Step(s, BeginSubmit(n)), id) == Follows(s, BeginSubmit(n), id)
  {
    if id == s.core.nextId {
      SubmittingOwn(s, n);
    } else {
      SubmittingElsewhere(s, n, id);
    }
  }

  lemma SkippingIdFollows(s: Control, id: BatchId)
    requires Filed(s) && Accounted(s) && Filed(Step(s, FailedSubmit))
    ensures LifeOf(Step(s, FailedSubmit), id) == Follows(s, FailedSubmit, id)
  {
  }

  lemma RegisteringOwn(s: Control, owner: BatchId)
    requires Filed(s) && Accounted(s) && Filed(Registering(s, owner))
    ensures LifeOf(Registering(s, owner), owner) ==
      (if owner in s.starting then Running(ProgressOf(s.core.objects[s.starting[owner]])) else LifeOf(s, owner))
  {
  }

  lemma RegisteringElsewhere(s: Control, owner: BatchId, id: BatchId)
    requires Filed(s) && Filed(Registering(s, owner)) && id != owner
    ensures SameAt(s, Registering(s, owner), id)
  {
  }

  lemma RegisteringFollows(s: Control, owner: BatchId, id: BatchId)
    requires Filed(s) && Accounted(s) && Filed(Step(s, FinishSubmit(owner)))
    ensures LifeOf(Step(s, FinishSubmit(owner)), id) == Follows(s, FinishSubmit(owner), id)
  {
    if id == owner {
      RegisteringOwn(s, owner);
    } else {
      RegisteringElsewhere(s, owner, id);
    }
  }

  /** Of the maps, only the entry of `owner` and its object `obj` may differ. */
  ghost predicate TouchesOnly(s: Control, t: Control, owner: BatchId, obj: Identity) {
    var c, d := s.core, t.core;
    && t.starting == s.starting && t.resumptions == s.resumptions
    && d.nextId == c.nextId && d.suspended == c.suspended && d.discarded == c.discarded
    && (d.active == c.active || d.active == c.active - {owner})
    && d.objects.Keys == c.objects.Keys
    && forall o :: o in c.objects && o != obj ==> d.objects[o] == c.objects[o]
  }

  lemma OneObjectElsewhere(s: Control, t: Control, owner: BatchId, obj: Identity, id: BatchId)
    requires Owned(s) && Owned(t) && TouchesOnly(s, t, owner, obj)
    requires IsActive(s.core, owner, obj) && id != owner
    ensures SameAt(s, t, id)
  {
  }

  lemma CommitTouches(c: Core, owner: BatchId, obj: Identity, index: nat)
    requires IsActive(c, owner, obj)
    ensures var d := Commit(c, owner, obj, index).0;
      && d.nextId == c.nextId && d.suspended == c.suspended && d.discarded == c.discarded
      && (d.active == c.active || d.active == c.active - {owner})
      && d.objects.Keys == c.objects.Keys
      && forall o :: o in c.objects && o != obj ==> d.objects[o] == c.objects[o]
  {
  }

  lemma DeliveringTouches(s: Control, owner: BatchId, obj: Identity, index: nat)
    requires IsActive(s.core, owner, obj)
    ensures TouchesOnly(s, Delivering(s, owner, obj, index), owner, obj)
  {
    CommitTouches(s.core, owner, obj, index);
  }

  lemma RetryTouches(c: Core, owner: BatchId, obj: Identity, starts: bool)
    requires IsActive(c, owner, obj)
    ensures var d := Retry(c, owner, obj, starts).0;
      && d.nextId == c.nextId && d.suspended == c.suspended && d.discarded == c.discarded
      && (d.active == c.active || d.active == c.active - {owner})
      && d.objects.Keys == c.objects.Keys
      && forall o :: o in c.objects && o != obj ==> d.objects[o] == c.objects[o]
  {
  }

  /** Where a retry leaves its own batch, when there is work left. */
  lemma RetryLeaves(c: Core, owner: BatchId, obj: Identity, starts: bool)
    requires IsActive(c, owner, obj)
    requires var b := c.objects[obj]; Remaining(b.requestCount, b.completed) != []
    ensures var d, b := Retry(c, owner, obj, starts).0, c.objects[obj];
      if b.retries >= c.retryLimit then d == c
      else if !starts then owner !in d.active
      else IsActive(d, owner, obj) && ProgressOf(d.objects[obj]) == ProgressOf(b).(retries := b.retries + 1)
  {
  }

  lemma RetryingTouches(s: Control, owner: BatchId, obj: Identity, starts: bool)
    requires IsActive(s.core, owner, obj)
    ensures TouchesOnly(s, Retrying(s, owner, obj, starts), owner, obj)
  {
    RetryTouches(s.core, owner, obj, starts);
  }

  lemma DeliveringOwn(s: Control, owner: BatchId, obj: Identity, index: nat)
    requires Filed(s) && Accounted(s) && Filed(Delivering(s, owner, obj, index))
    ensures LifeOf(Delivering(s, owner, obj, index), owner) ==
      (if IsActive(s.core, owner, obj) then AfterResult(ProgressOf(s.core.objects[obj]), index) else LifeOf(s, owner))
  {
    if IsActive(s.core, owner, obj) {
      var completed := s.core.objects[obj].completed;
      assert index !in completed ==> |completed + {index}| == |completed| + 1;
    }
  }

  lemma DeliveringElsewhere(s: Control, owner: BatchId, obj: Identity, index: nat, id: BatchId)
    requires Filed(s) && Filed(Delivering(s, owner, obj, index)) && id != owner
    ensures SameAt(s, Delivering(s, owner, obj, index), id)
  {
    if IsActive(s.core, owner, obj) {
      DeliveringTouches(s, owner, obj, index);
      OneObjectElsewhere(s, Delivering(s, owner, obj, index), owner, obj, id);
    }
  }

  lemma DeliveringOwnFollows(s: Control, owner: BatchId, obj: Identity, index: nat)
    requires Filed(s) && Accounted(s) && Filed(Delivering(s, owner, obj, index))
    ensures LifeOf(Delivering(s, owner, obj, index), owner) == Follows(s, CommitResult(owner, obj, index), owner)
  {
    DeliveringOwn(s, owner, obj, index);
  }

  lemma DeliveringFollows(s: Control, owner: BatchId, obj: Identity, index: nat, id: BatchId)
    requires Filed(s) && Accounted(s) && Filed(Step(s, CommitResult(owner, obj, index)))
    ensures LifeOf(Step(s, CommitResult(owner, obj, index)), id) == Follows(s, CommitResult(owner, obj, index), id)
  {
    if id == owner {
      DeliveringOwnFollows(s, owner, obj, index);
    } else {
      DeliveringElsewhere(s, owner, obj, index, id);
    }
  }

  lemma RetryingOwn(s: Control, owner: BatchId, obj: Identity, starts: bool)
    requires Filed(s) && Accounted(s) && Filed(Retrying(s, owner, obj, starts))
    ensures LifeOf(Retrying(s, owner, obj, starts), owner) ==
      (if IsActive(s.core, owner, obj)
         then AfterFailedAttempt(ProgressOf(s.core.objects[obj]), starts, s.core.retryLimit) else LifeOf(s, owner))
  {
    if IsActive(s.core, owner, obj) {
      assert Books(s, owner);
      WorkLeft(s.core.objects[obj].requestCount, s.core.objects[obj].completed);
      RetryLeaves(s.core, owner, obj, starts);
      RetryTouches(s.core, owner, obj, starts);
    }
  }

  lemma RetryingElsewhere(s: Control, owner: BatchId, obj: Identity, starts: bool, id: BatchId)
    requires Filed(s) && Filed(Retrying(s, owner, obj, starts)) && id != owner
    ensures SameAt(s, Retrying(s, owner, obj, starts), id)
  {
    if IsActive(s.core, owner, obj) {
      RetryingTouches(s, owner, obj, starts);
      OneObjectElsewhere(s, Retrying(s, owner, obj, starts), owner, obj, id);
    }
  }

  lemma RetryingFollows(s: Control, owner: BatchId, obj: Identity, starts: bool, id: BatchId)
    requires Filed(s) && Accounted(s) && Filed(Step(s, RetryAttempt(owner, obj, starts)))
    ensures LifeOf(Step(s, RetryAttempt(owner, obj, starts)), id) == Follows(s, RetryAttempt(owner, obj, starts), id)
  {
    if id == owner {
      RetryingOwn(s, owner, obj, starts);
    } else {
      RetryingElsewhere(s, owner, obj, starts, id);
    }
  }

  lemma FailingOwn(s: Control, owner: BatchId, obj: Identity)
    requires Filed(s) && Accounted(s) && Filed(Failing(s, owner, obj))
    ensures LifeOf(Failing(s, owner, obj), owner) ==
      (if IsActive(s.core, owner, obj) then Over else LifeOf(s, owner))
  {
  }

  lemma FailingElsewhere(s: Control, owner: BatchId, obj: Identity, id: BatchId)
    requires Filed(s) && Filed(Failing(s, owner, obj)) && id != owner
    ensures SameAt(s, Failing(s, owner, obj), id)
  {
  }

  lemma FailingFollows(s: Control, owner: BatchId, obj: Identity, id: BatchId)
    requires Filed(s) && Accounted(s) && Filed(Step(s, FailBatch(owner, obj)))
    ensures LifeOf(Step(s, FailBatch(owner, obj)), id) == Follows(s, FailBatch(owner, obj), id)
  {
    if id == owner {
      FailingOwn(s, owner, obj);
    } else {
      FailingElsewhere(s, owner, obj, id);
    }
  }

  lemma CancellingOwn(s: Control, owner: BatchId)
    requires Filed(s) && Accounted(s) && Filed(Cancelling(s, owner))
    ensures LifeOf(Cancelling(s, owner), owner) ==
      (if owner in s.core.active || owner in s.core.suspended then Over else LifeOf(s, owner))
  {
  }

  lemma CancellingElsewhere(s: Control, owner: BatchId, id: BatchId)
    requires Filed(s) && Filed(Cancelling(s, owner)) && id != owner
    ensures SameAt(s, Cancelling(s, owner), id)
  {
  }

  lemma CancellingFollows(s: Control, owner: BatchId, id: BatchId)
    requires Filed(s) && Accounted(s) && Filed(Step(s, CancelBatch(owner)))
    ensures LifeOf(Step(s, CancelBatch(owner)), id) == Follows(s, CancelBatch(owner), id)
  {
    if id == owner {
      CancellingOwn(s, owner);
    } else {
      CancellingElsewhere(s, owner, id);
    }
  }

  lemma SuspendingOwn(s: Control, owner: BatchId)
    requires Filed(s) && Accounted(s) && Filed(Suspending(s, owner))
    ensures LifeOf(Suspending(s, owner), owner) ==
      (if owner in s.core.active then Parked(ProgressOf(s.core.objects[s.core.active[owner]])) else LifeOf(s, owner))
  {
  }

  lemma SuspendingElsewhere(s: Control, owner: BatchId, id: BatchId)
    requires Filed(s) && Filed(Suspending(s, owner)) && id != owner
    ensures SameAt(s, Suspending(s, owner), id)
  {
  }

  lemma SuspendingFollows(s: Control, owner: BatchId, id: BatchId)
    requires Filed(s) && Accounted(s) && Filed(Step(s, SuspendBatch(owner)))
    ensures LifeOf(Step(s, SuspendBatch(owner)), id) == Follows(s, SuspendBatch(owner), id)
  {
    if id == owner {
      SuspendingOwn(s, owner);
    } else {
      SuspendingElsewhere(s, owner, id);
      KeptFollows(s, Step(s, SuspendBatch(owner)), SuspendBatch(owner), id);
    }
  }

  lemma ConfirmingElsewhere(s: Control, call: Suspension, id: BatchId)
    requires Filed(s) && Filed(Confirming(s, call))
    ensures SameAt(s, Confirming(s, call), id)
  {
  }

  lemma ConfirmingFollows(s: Control, call: Suspension, id: BatchId)
    requires Filed(s) && Filed(Step(s, ConfirmSuspend(call)))
    ensures LifeOf(Step(s, ConfirmSuspend(call)), id) == Follows(s, ConfirmSuspend(call), id)
  {
    ConfirmingElsewhere(s, call, id);
  }

  lemma ResumingOwn(s: Control, handle: ResumeHandle)
    requires Filed(s) && Accounted(s) && Filed(AsyncLifecycle.Resuming(s, handle))
    ensures LifeOf(AsyncLifecycle.Resuming(s, handle), handle.batchId) ==
      (if handle.batchId in s.core.suspended && HandleFor(handle.batchId, s.core.suspended[handle.batchId]) == handle
         then Life.Resuming(RecordedProgress(s.core.suspended[handle.batchId]), false, false) else LifeOf(s, handle.batchId))
  {
  }

  lemma ResumingElsewhere(s: Control, handle: ResumeHandle, id: BatchId)
    requires Filed(s) && Filed(AsyncLifecycle.Resuming(s, handle)) && id != handle.batchId
    ensures SameAt(s, AsyncLifecycle.Resuming(s, handle), id)
  {
  }

  lemma ResumingOwnFollows(s: Control, handle: ResumeHandle)
    requires Filed(s) && Accounted(s) && Filed(AsyncLifecycle.Resuming(s, handle))
    ensures LifeOf(AsyncLifecycle.Resuming(s, handle), handle.batchId) ==
      Follows(s, BeginResumeBatch(handle), handle.batchId)
  {
    ResumingOwn(s, handle);
  }

  lemma ResumingFollows(s: Control, handle: ResumeHandle, id: BatchId)
    requires Filed(s) && Accounted(s) && Filed(Step(s, BeginResumeBatch(handle)))
    ensures LifeOf(Step(s, BeginResumeBatch(handle)), id) == Follows(s, BeginResumeBatch(handle), id)
  {
    if id == handle.batchId {
      ResumingOwnFollows(s, handle);
    } else {
      ResumingElsewhere(s, handle, id);
      KeptFollows(s, Step(s, BeginResumeBatch(handle)), BeginResumeBatch(handle), id);
    }
  }

  lemma StartingResumedOwn(s: Control, owner: BatchId)
    requires Filed(s) && Accounted(s) && Filed(StartingResumed(s, owner))
    ensures LifeOf(StartingResumed(s, owner), owner) ==
      (if owner in s.resumptions
         then Life.Resuming(RecordedProgress(s.resumptions[owner].record), true, owner in s.core.discarded)
         else LifeOf(s, owner))
  {
  }

  lemma StartingResumedElsewhere(s: Control, owner: BatchId, id: BatchId)
    requires Filed(s) && Filed(StartingResumed(s, owner)) && id != owner
    ensures SameAt(s, StartingResumed(s, owner), id)
  {
  }

  lemma StartingResumedFollows(s: Control, owner: BatchId, id: BatchId)
    requires Filed(s) && Accounted(s) && Filed(Step(s, StartResumed(owner)))
    ensures LifeOf(Step(s, StartResumed(owner)), id) == Follows(s, StartResumed(owner), id)
  {
    if id == owner {
      StartingResumedOwn(s, owner);
    } else {
      StartingResumedElsewhere(s, owner, id);
    }
  }

  lemma AbandoningOwn(s: Control, owner: BatchId)
    requires Filed(s) && Accounted(s) && Filed(Abandoning(s, owner))
    ensures LifeOf(Abandoning(s, owner), owner) ==
      (if owner in s.resumptions && s.resumptions[owner].started.None?
         then (if owner in s.core.discarded then Over else Parked(RecordedProgress(s.resumptions[owner].record)))
         else LifeOf(s, owner))
  {
  }

  lemma AbandoningElsewhere(s: Control, owner: BatchId, id: BatchId)
    requires Filed(s) && Filed(Abandoning(s, owner)) && id != owner
    ensures SameAt(s, Abandoning(s, owner), id)
  {
  }

  lemma AbandoningFollows(s: Control, owner: BatchId, id: BatchId)
    requires Filed(s) && Accounted(s) && Filed(Step(s, AbandonResumeBatch(owner)))
    ensures LifeOf(Step(s, AbandonResumeBatch(owner)), id) == Follows(s, AbandonResumeBatch(owner), id)
  {
    if id == owner {
      AbandoningOwn(s, owner);
    } else {
      AbandoningElsewhere(s, owner, id);
    }
  }

  lemma FinishingOwn(s: Control, owner: BatchId)
    requires Filed(s) && Accounted(s) && Filed(Finishing(s, owner))
    ensures LifeOf(Finishing(s, owner), owner) ==
      (if owner in s.resumptions && s.resumptions[owner].started.Some?
         then (if owner in s.core.discarded then Over else Running(RecordedProgress(s.resumptions[owner].record)))
         else LifeOf(s, owner))
  {
    if owner in s.resumptions {
      assert Books(s, owner);
    }
  }

  lemma FinishingElsewhere(s: Control, owner: BatchId, id: BatchId)
    requires Filed(s) && Filed(Finishing(s, owner)) && id != owner
    ensures SameAt(s, Finishing(s, owner), id)
  {
  }

  lemma FinishingFollows(s: Control, owner: BatchId, id: BatchId)
    requires Filed(s) && Accounted(s) && Filed(Step(s, FinishResumeBatch(owner)))
    ensures LifeOf(Step(s, FinishResumeBatch(owner)), id) == Follows(s, FinishResumeBatch(owner), id)
  {
    if id == owner {
      FinishingOwn(s, owner);
    } else {
      FinishingElsewhere(s, owner, id);
    }
  }

  lemma DiscardingOwn(s: Control, owner: BatchId)
    requires Filed(s) && Accounted(s) && Filed(Discarding(s, owner))
    ensures LifeOf(Discarding(s, owner), owner) ==
      (if owner in s.core.suspended then Over
         else if owner in s.resumptions then
           Life.Resuming(RecordedProgress(s.resumptions[owner].record), s.resumptions[owner].started.Some?, true)
         else LifeOf(s, owner))
  {
  }

  lemma DiscardingElsewhere(s: Control, owner: BatchId, id: BatchId)
    requires Filed(s) && Filed(Discarding(s, owner)) && id != owner
    ensures SameAt(s, Discarding(s, owner), id)
  {
  }

  lemma DiscardingFollows(s: Control, owner: BatchId, id: BatchId)
    requires Filed(s) && Accounted(s) && Filed(Step(s, DiscardSuspended(owner)))
    ensures LifeOf(Step(s, DiscardSuspended(owner)), id) == Follows(s, DiscardSuspended(owner), id)
  {
    if id == owner {
      DiscardingOwn(s, owner);
    } else {
      DiscardingElsewhere(s, owner, id);
    }
  }

  /** A batch with fewer results than requests has work left. */
  lemma WorkLeft(n: nat, completed: set<nat>)
    requires |completed| < n
    ensures Remaining(n, completed) != []
  {
    if forall i :: 0 <= i < n ==> i in completed {
      AllBelow(completed, n);
    }
  }

  lemma {:induction false} AllBelow(s: set<nat>, n: nat)
    requires forall i :: 0 <= i < n ==> i in s
    ensures |s| >= n
  {
    if n > 0 {
      AllBelow(s - {n - 1}, n - 1);
    }
  }

  /** Every block does to every batch what the automaton says: to the batch it names
      its effect, and nothing to any other. */
  lemma StepFollows(s: Control, block: Block, id: BatchId)
    requires Safe(s)
    ensures Safe(Step(s, block)) && LifeOf(Step(s, block), id) == Follows(s, block, id)
  {
    StepSafe(s, block);
    match block
    case BeginSubmit(n) => SubmittingFollows(s, n, id);
    case FailedSubmit => SkippingIdFollows(s, id);
    case FinishSubmit(owner) => RegisteringFollows(s, owner, id);
    case CommitResult(owner, obj, index) => DeliveringFollows(s, owner, obj, index, id);
    case RetryAttempt(owner, obj, starts) => RetryingFollows(s, owner, obj, starts, id);
    case FailBatch(owner, obj) => FailingFollows(s, owner, obj, id);
    case CancelBatch(owner) => CancellingFollows(s, owner, id);
    case SuspendBatch(owner) => SuspendingFollows(s, owner, id);
    case ConfirmSuspend(call) => ConfirmingFollows(s, call, id);
    case BeginResumeBatch(handle) => ResumingFollows(s, handle, id);
    case DiscardSuspended(owner) => DiscardingFollows(s, owner, id);
    case StartResumed(owner) => StartingResumedFollows(s, owner, id);
    case AbandonResumeBatch(owner) => AbandoningFollows(s, owner, id);
    case FinishResumeBatch(owner) => FinishingFollows(s, owner, id);
  }

  /** A block with its state afterwards. */
  lemma OneStep(s: Control, block: Block, id: BatchId) returns (t: Control)
    requires Safe(s)
    ensures t == Step(s, block) && Safe(t) && LifeOf(t, id) == Follows(s, block, id)
  {
    StepFollows(s, block, id);
    t := Step(s, block);
  }

  // ----- what ends a batch ends it for good -----

  lemma OverIsGone(s: Control, id: BatchId)
    requires Filed(s)
    ensures LifeOf(s, id).Over? <==> Gone(s, id)
  {
  }

  /** A batch that is over stays over, and nothing more is delivered for it. */
  lemma OverForGood(s: Control, blocks: seq<Block>, id: BatchId)
    requires Safe(s) && LifeOf(s, id).Over? && id in s.delivered
    ensures var t := Steps(s, blocks);
      Safe(t) && LifeOf(t, id).Over? && id in t.delivered && t.delivered[id] == s.delivered[id]
  {
    OverIsGone(s, id);
    GoneForever(s, blocks, id);
    StepsSafe(s, blocks);
    OverIsGone(Steps(s, blocks), id);
  }

  /** Cancelling an active or a suspended batch ends it. */
  lemma CancelEnds(s: Control, id: BatchId, blocks: seq<Block>)
    requires Safe(s) && (id in s.core.active || id in s.core.suspended)
    ensures var t := Steps(Step(s, CancelBatch(id)), blocks);
      Safe(t) && LifeOf(t, id).Over? && id in t.delivered && t.delivered[id] == s.delivered[id]
  {
    var t := OneStep(s, CancelBatch(id), id);
    OverForGood(t, blocks, id);
  }

  /** So does a waiter that gives up the batch it owns. */
  lemma FailEnds(s: Control, id: BatchId, obj: Identity, blocks: seq<Block>)
    requires Safe(s) && IsActive(s.core, id, obj)
    ensures var t := Steps(Step(s, FailBatch(id, obj)), blocks);
      Safe(t) && LifeOf(t, id).Over? && id in t.delivered && t.delivered[id] == s.delivered[id]
  {
    var t := OneStep(s, FailBatch(id, obj), id);
    OverForGood(t, blocks, id);
  }

  /** A repeated result ends its batch without being delivered. */
  lemma DuplicateEnds(s: Control, id: BatchId, obj: Identity, index: nat, blocks: seq<Block>)
    requires Safe(s) && IsActive(s.core, id, obj) && index in s.core.objects[obj].completed
    ensures var t := Steps(Step(s, CommitResult(id, obj, index)), blocks);
      Safe(t) && LifeOf(t, id).Over? && id in t.delivered && t.delivered[id] == s.delivered[id]
  {
    var t := OneStep(s, CommitResult(id, obj, index), id);
    OverForGood(t, blocks, id);
  }

  /** Discarding a suspended batch ends it at once. */
  lemma DiscardEnds(s: Control, id: BatchId, blocks: seq<Block>)
    requires Safe(s) && id in s.core.suspended
    ensures var t := Steps(Step(s, DiscardSuspended(id)), blocks);
      Safe(t) && LifeOf(t, id).Over? && id in t.delivered && t.delivered[id] == s.delivered[id]
  {
    var t := OneStep(s, DiscardSuspended(id), id);
    OverForGood(t, blocks, id);
  }

  /** Discarding a batch that is being resumed ends it with the resumption, however
      that ends; until then nothing is delivered for it. */
  lemma {:induction false} DiscardedNeverReturns(s: Control, id: BatchId, blocks: seq<Block>)
    requires Safe(s) && LifeOf(s, id).Resuming? && LifeOf(s, id).discarded
    ensures var t := Steps(s, blocks);
      && Safe(t) && id in t.delivered && t.delivered[id] == s.delivered[id]
      && (LifeOf(t, id).Over? || (LifeOf(t, id).Resuming? && LifeOf(t, id).discarded))
    decreases blocks
  {
    if blocks != [] {
      var t := Step(s, blocks[0]);
      StepFollows(s, blocks[0], id);
      ResumingKeepsDelivered(s, blocks[0], id);
      if LifeOf(t, id).Over? {
        OverForGood(t, blocks[1..], id);
      } else {
        DiscardedNeverReturns(t, id, blocks[1..]);
      }
    }
  }

  lemma ResumingKeepsDelivered(s: Control, block: Block, id: BatchId)
    requires Filed(s) && id in s.resumptions
    ensures var t := Step(s, block);
      id in t.delivered && t.delivered[id] == s.delivered[id]
  {
    if block.CommitResult? && block.id == id {
      assert !IsActive(s.core, id, block.obj);
    }
  }

  lemma DiscardedResumptionEnds(s: Control, id: BatchId) returns (t: Control, u: Control)
    requires Safe(s) && LifeOf(s, id).Resuming?
    ensures t == Step(s, DiscardSuspended(id)) && LifeOf(t, id).Resuming? && LifeOf(t, id).discarded
    ensures u == Step(t, if LifeOf(s, id).started then FinishResumeBatch(id) else AbandonResumeBatch(id))
    ensures Safe(u) && LifeOf(u, id).Over?
  {
    var p := LifeOf(s, id).progress;
    t := OneStep(s, DiscardSuspended(id), id);
    if LifeOf(s, id).started {
      u := ResumeFinishes(t, id, p, true);
    } else {
      u := ResumeAbandoned(t, id, p, true);
    }
  }

  /** A batch is given up for failed attempts only after as many retries as the
      limit allows. */
  lemma DeclinedMeansSpent(s: Control, id: BatchId, obj: Identity, starts: bool)
    requires Safe(s) && IsActive(s.core, id, obj)
    ensures Retry(s.core, id, obj, starts).1.Declined? <==> s.retried[id] == s.core.retryLimit
  {
    assert Books(s, id);
    WorkLeft(s.core.objects[obj].requestCount, s.core.objects[obj].completed);
  }

  // ----- suspension loses nothing -----

  lemma SuspensionParks(s: Control, id: BatchId) returns (t: Control, call: Suspension)
    requires Safe(s) && LifeOf(s, id).Running?
    ensures t == Step(s, SuspendBatch(id)) && Safe(t) && LifeOf(t, id) == Parked(LifeOf(s, id).progress)
    ensures id in s.core.active && s.core.active[id] in s.core.objects && id in t.core.suspended
    ensures call == Suspension(id, s.core.active[id], t.core.suspended[id])
    ensures LifeOf(s, id).progress == ProgressOf(s.core.objects[s.core.active[id]])
  {
    t := OneStep(s, SuspendBatch(id), id);
    call := Suspension(id, s.core.active[id], t.core.suspended[id]);
  }

  /** The handle that a suspension of the running batch returns. */
  lemma SuspensionReturns(s: Control, id: BatchId)
    returns (call: Suspension, handle: ResumeHandle, suspended: Control, parked: Control)
    requires Safe(s) && LifeOf(s, id).Running?
    ensures suspended == Step(s, SuspendBatch(id)) && parked == Step(suspended, ConfirmSuspend(call))
    ensures var p := LifeOf(s, id).progress;
      && call.id == id && handle == ResumeHandle(id, p.requestCount, |p.completed|)
      && Safe(parked) && LifeOf(parked, id) == Parked(p) && (handle, call.record.identity) in parked.handles
  {
    var p := LifeOf(s, id).progress;
    suspended, call := SuspensionParks(s, id);
    handle := ResumeHandle(id, p.requestCount, |p.completed|);
    HandleReturned(s, suspended, call, handle);
    parked := OneStep(suspended, ConfirmSuspend(call), id);
  }

  lemma HandleReturned(s: Control, suspended: Control, call: Suspension, handle: ResumeHandle)
    requires Safe(s) && call.id in s.core.active && suspended == Step(s, SuspendBatch(call.id))
    requires call.id in suspended.core.suspended
    requires call == Suspension(call.id, s.core.active[call.id], suspended.core.suspended[call.id])
    requires var b := s.core.objects[s.core.active[call.id]];
      handle == ResumeHandle(call.id, b.requestCount, |b.completed|)
    ensures (handle, call.record.identity) in Step(suspended, ConfirmSuspend(call)).handles
  {
    assert call in suspended.suspensions;
  }

  /** A suspension returns a handle exactly when its own record is still there, with the
      counts of that record: a batch that was cancelled, discarded or resumed meanwhile
      gets none. */
  lemma ConfirmsExactly(s: Control, call: Suspension)
    requires Safe(s) && call in s.suspensions
    ensures var t, life := Step(s, ConfirmSuspend(call)), LifeOf(s, call.id);
      var kept := life.Parked? && s.core.suspended[call.id].identity == call.record.identity;
      && t == s.(suspensions := s.suspensions - {call}, handles := t.handles)
      && t.handles == s.handles +
           if kept
           then {(ResumeHandle(call.id, life.progress.requestCount, |life.progress.completed|), call.record.identity)}
           else {}
  {
    ConfirmingSafe(s, call);
  }

  lemma ResumeBegins(s: Control, id: BatchId, handle: ResumeHandle, p: Progress) returns (t: Control)
    requires Safe(s) && LifeOf(s, id) == Parked(p) && handle == ResumeHandle(id, p.requestCount, |p.completed|)
    ensures t == Step(s, BeginResumeBatch(handle)) && Safe(t) && LifeOf(t, id) == Life.Resuming(p, false, false)
  {
    t := OneStep(s, BeginResumeBatch(handle), id);
  }

  lemma ResumeStarts(s: Control, id: BatchId, p: Progress, discarded: bool) returns (t: Control)
    requires Safe(s) && LifeOf(s, id) == Life.Resuming(p, false, discarded)
    ensures t == Step(s, StartResumed(id)) && Safe(t) && LifeOf(t, id) == Life.Resuming(p, true, discarded)
  {
    t := OneStep(s, StartResumed(id), id);
  }

  lemma ResumeFinishes(s: Control, id: BatchId, p: Progress, discarded: bool) returns (t: Control)
    requires Safe(s) && LifeOf(s, id) == Life.Resuming(p, true, discarded)
    ensures t == Step(s, FinishResumeBatch(id)) && Safe(t)
    ensures LifeOf(t, id) == if discarded then Over else Running(p)
  {
    t := OneStep(s, FinishResumeBatch(id), id);
  }

  lemma ResumeAbandoned(s: Control, id: BatchId, p: Progress, discarded: bool) returns (t: Control)
    requires Safe(s) && LifeOf(s, id) == Life.Resuming(p, false, discarded)
    ensures t == Step(s, AbandonResumeBatch(id)) && Safe(t)
    ensures LifeOf(t, id) == if discarded then Over else Parked(p)
  {
    t := OneStep(s, AbandonResumeBatch(id), id);
  }

  /** Suspended and resumed with the handle it returned, a batch runs on with what it
      had completed and the retries it had used. */
  lemma SuspendedResumes(s: Control, id: BatchId)
    returns (call: Suspension, handle: ResumeHandle, parked: Control, resumed: Control)
    requires Safe(s) && LifeOf(s, id).Running?
    ensures parked == Step(Step(s, SuspendBatch(id)), ConfirmSuspend(call))
    ensures (handle, call.record.identity) in parked.handles
    ensures resumed == Steps(parked, [BeginResumeBatch(handle), StartResumed(id), FinishResumeBatch(id)])
    ensures Safe(resumed) && LifeOf(resumed, id) == LifeOf(s, id)
  {
    var p := LifeOf(s, id).progress;
    var suspended;
    call, handle, suspended, parked := SuspensionReturns(s, id);
    var a := ResumeBegins(parked, id, handle, p);
    var b := ResumeStarts(a, id, p, false);
    resumed := ResumeFinishes(b, id, p, false);
    ThreeSteps(parked, a, b, BeginResumeBatch(handle), StartResumed(id), FinishResumeBatch(id));
  }

  lemma ThreeSteps(s: Control, a: Control, b: Control, first: Block, second: Block, third: Block)
    requires a == Step(s, first) && b == Step(a, second)
    ensures Steps(s, [first, second, third]) == Step(b, third)
  {
    assert [first, second, third][1..] == [second, third];
    assert [second, third][1..] == [third] && [third][1..] == [];
    assert Steps(b, [third]) == Step(b, third);
  }

  /** A submitted batch runs with nothing completed. */
  lemma SubmittedRuns(s: Control, n: nat)
    requires Safe(s) && n > 0
    ensures var id, t := s.core.nextId, Step(Step(s, BeginSubmit(n)), FinishSubmit(s.core.nextId));
      Safe(t) && LifeOf(s, id).Unborn? && LifeOf(t, id) == Running(Progress(n, {}, 0))
  {
    StepFollows(s, BeginSubmit(n), s.core.nextId);
    StepFollows(Step(s, BeginSubmit(n)), FinishSubmit(s.core.nextId), s.core.nextId);
  }
}
