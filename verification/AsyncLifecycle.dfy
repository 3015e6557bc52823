// Lifecycle state of the asynchronous joblib evaluator
// (src/variopt/evaluators/joblib/asynchronous.py): what every block that runs
// under the lifecycle lock does, and what any interleaving of such blocks keeps.
// The outcome stream and the attempt stream run the same blocks over their own
// maps; this is either of them.
module AsyncLifecycle {
  import opened Outcomes

  type BatchId = nat

  /** Stands for the identity of an object, which the source compares with `is`. */
  type Identity = nat

  /** One running batch. `owner` only says which batch the object was made for. */
  datatype ActiveBatch = ActiveBatch(
    owner: BatchId, requestCount: nat, completed: set<nat>, retries: nat, generation: nat, inputs: seq<nat>)

  datatype SuspendedBatch = SuspendedBatch(
    identity: Identity, requestCount: nat, completed: set<nat>, retries: nat)

  datatype ResumeHandle = ResumeHandle(batchId: BatchId, requestCount: nat, completedCount: nat)

  datatype Core = Core(
    retryLimit: nat,
    nextId: BatchId,
    nextIdentity: Identity,
    objects: map<Identity, ActiveBatch>,
    active: map<BatchId, Identity>,
    suspended: map<BatchId, SuspendedBatch>,
    resuming: set<BatchId>,
    discarded: set<BatchId>)

  // ----- the lock-guarded blocks -----

  /** The request indices in `[0, n)` that are not completed, in order. */
  function Remaining(n: nat, completed: set<nat>): (r: seq<nat>)
    ensures forall i :: i in r <==> 0 <= i < n && i !in completed
    ensures forall p :: 0 <= p < |r| ==> r[p] < n
    ensures forall p, q :: 0 <= p < q < |r| ==> r[p] < r[q]
  {
    if n == 0 then []
    else Remaining(n - 1, completed) + if n - 1 in completed then [] else [n - 1]
  }

  predicate IsActive(c: Core, id: BatchId, obj: Identity) {
    id in c.active && c.active[id] == obj && obj in c.objects
  }

  /** A new object for a batch, running over the requests not completed yet. */
  function Started(c: Core, id: BatchId, n: nat, completed: set<nat>, retries: nat): (r: Core) {
    c.(nextIdentity := c.nextIdentity + 1,
       objects := c.objects[c.nextIdentity :=
         ActiveBatch(id, n, completed, retries, 0, Remaining(n, completed))])
  }

  datatype CommitVerdict = CommitInactive | Duplicate | Delivered(retired: bool)

  function Commit(c: Core, id: BatchId, obj: Identity, index: nat): (r: (Core, CommitVerdict)) {
    if !IsActive(c, id, obj) then (c, CommitInactive)
    else
      var batch := c.objects[obj];
      if index in batch.completed then (c.(active := c.active - {id}), Duplicate)
      else
        var next := c.(objects := c.objects[obj := batch.(completed := batch.completed + {index})]);
        if |batch.completed + {index}| >= batch.requestCount
        then (next.(active := next.active - {id}), Delivered(true))
        else (next, Delivered(false))
  }

  datatype RetryVerdict = RetryInactive | Declined | Restarted | RestartFailed

  /** `starts` tells whether the backend could start the replacement attempt. */
  function Retry(c: Core, id: BatchId, obj: Identity, starts: bool): (r: (Core, RetryVerdict)) {
    if !IsActive(c, id, obj) then (c, RetryInactive)
    else
      var batch := c.objects[obj];
      var rest := Remaining(batch.requestCount, batch.completed);
      if batch.retries >= c.retryLimit || rest == [] then (c, Declined)
      else if starts then
        (c.(objects := c.objects[obj := batch.(retries := batch.retries + 1,
                                                  generation := batch.generation + 1,
                                                  inputs := rest)]), Restarted)
      else
        (c.(objects := c.objects[obj := batch.(retries := batch.retries + 1)],
            active := c.active - {id}), RestartFailed)
  }

  /** The batch failed for good: the waiter that still owns it removes it. */
  function GiveUp(c: Core, id: BatchId, obj: Identity): (r: (Core, bool)) {
    if !IsActive(c, id, obj) then (c, false) else (c.(active := c.active - {id}), true)
  }

  function Cancel(c: Core, id: BatchId): (r: Core) {
    c.(active := c.active - {id}, suspended := c.suspended - {id})
  }

  function Suspend(c: Core, id: BatchId): (r: (Core, Option<SuspendedBatch>)) {
    if id !in c.active || c.active[id] !in c.objects then (c, None)
    else
      var batch := c.objects[c.active[id]];
      var record := SuspendedBatch(c.nextIdentity, batch.requestCount, batch.completed, batch.retries);
      (c.(active := c.active - {id}, nextIdentity := c.nextIdentity + 1,
          suspended := c.suspended[id := record]), Some(record))
  }

  function BeginResume(c: Core, handle: ResumeHandle): (r: (Core, Option<SuspendedBatch>)) {
    var id := handle.batchId;
    if id !in c.suspended then (c, None)
    else
      var record := c.suspended[id];
      if handle.requestCount != record.requestCount || handle.completedCount != |record.completed|
      then (c, None)
      else (c.(suspended := c.suspended - {id}, resuming := c.resuming + {id}), Some(record))
  }

  function AbandonResume(c: Core, id: BatchId, record: SuspendedBatch): (r: Core) {
    if id in c.discarded
    then c.(resuming := c.resuming - {id}, discarded := c.discarded - {id})
    else c.(resuming := c.resuming - {id}, suspended := c.suspended[id := record])
  }

  /** The second component tells whether the batch was discarded meanwhile. */
  function FinishResume(c: Core, id: BatchId, obj: Identity): (r: (Core, bool)) {
    if id in c.discarded
    then (c.(resuming := c.resuming - {id}, discarded := c.discarded - {id}), true)
    else (c.(resuming := c.resuming - {id}, active := c.active[id := obj]), false)
  }

  function Discard(c: Core, id: BatchId): (r: Core) {
    if id in c.suspended then c.(suspended := c.suspended - {id})
    else if id in c.resuming then c.(discarded := c.discarded + {id})
    else c
  }

  // ----- any interleaving of the blocks -----

  /** A call of `suspend_batch` between its two lock blocks. */
  datatype Suspension = Suspension(id: BatchId, obj: Identity, record: SuspendedBatch)

  /** A call of `resume_session` between its two lock blocks. */
  datatype Resumption = Resumption(record: SuspendedBatch, started: Option<Identity>)

  /** The evaluator together with the calls that are between two blocks, and with
      what has been observed so far: per batch the indices delivered, in order,
      and the retries made; the batches retired by completion; the resume handles
      handed out, with the record each was made for. */
  datatype Control = Control(
    core: Core,
    starting: map<BatchId, Identity>,
    suspensions: set<Suspension>,
    resumptions: map<BatchId, Resumption>,
    requestCount: map<BatchId, nat>,
    delivered: map<BatchId, seq<nat>>,
    retried: map<BatchId, nat>,
    retired: set<BatchId>,
    handles: set<(ResumeHandle, Identity)>)

  datatype Block =
    | BeginSubmit(n: nat)
    | FailedSubmit
    | FinishSubmit(id: BatchId)
    | CommitResult(id: BatchId, obj: Identity, index: nat)
    | RetryAttempt(id: BatchId, obj: Identity, starts: bool)
    | FailBatch(id: BatchId, obj: Identity)
    | CancelBatch(id: BatchId)
    | SuspendBatch(id: BatchId)
    | ConfirmSuspend(call: Suspension)
    | BeginResumeBatch(handle: ResumeHandle)
    | StartResumed(id: BatchId)
    | AbandonResumeBatch(id: BatchId)
    | FinishResumeBatch(id: BatchId)
    | DiscardSuspended(id: BatchId)

  function Initial(retryLimit: nat): Control {
    Control(Core(retryLimit, 0, 0, map[], map[], map[], {}, {}), map[], {}, map[], map[], map[], map[], {}, {})
  }

  /** A submission of `n` requests draws the next batch number and starts an
      attempt; the batch is registered by a later block. */
  function Submitting(s: Control, n: nat): (r: Control) {
    if n == 0 then s
    else
      var id, obj := s.core.nextId, s.core.nextIdentity;
      s.(core := Started(s.core.(nextId := id + 1), id, n, {}, 0),
         starting := s.starting[id := obj],
         requestCount := s.requestCount[id := n],
         delivered := s.delivered[id := []],
         retried := s.retried[id := 0])
  }

  function Delivering(s: Control, id: BatchId, obj: Identity, index: nat): (r: Control) {
    var (core, verdict) := Commit(s.core, id, obj, index);
    match verdict
    case Delivered(retired) =>
      s.(core := core,
         delivered := s.delivered[id := (if id in s.delivered then s.delivered[id] else []) + [index]],
         retired := if retired then s.retired + {id} else s.retired)
    case _ => s.(core := core)
  }

  function Retrying(s: Control, id: BatchId, obj: Identity, starts: bool): (r: Control) {
    var (core, verdict) := Retry(s.core, id, obj, starts);
    if verdict.Restarted? || verdict.RestartFailed?
    then s.(core := core, retried := s.retried[id := (if id in s.retried then s.retried[id] else 0) + 1])
    else s.(core := core)
  }

  function Suspending(s: Control, id: BatchId): (r: Control) {
    var (core, record) := Suspend(s.core, id);
    if record.None? then s
    else s.(core := core, suspensions := s.suspensions + {Suspension(id, s.core.active[id], record.value)})
  }

  /** A handle is returned when the record made by the suspension is still there;
      its count is read from the object that was active then. */
  function Confirming(s: Control, call: Suspension): (r: Control) {
    if call !in s.suspensions || call.obj !in s.core.objects then s
    else
      var id, next := call.id, s.(suspensions := s.suspensions - {call});
      if id in s.core.suspended && s.core.suspended[id].identity == call.record.identity
      then
        var batch := s.core.objects[call.obj];
        next.(handles := s.handles +
          {(ResumeHandle(id, batch.requestCount, |batch.completed|), call.record.identity)})
      else next
  }

  function HandleFor(id: BatchId, record: SuspendedBatch): ResumeHandle {
    ResumeHandle(id, record.requestCount, |record.completed|)
  }

  function Registering(s: Control, id: BatchId): (r: Control) {
    if id !in s.starting then s
    else s.(core := s.core.(active := s.core.active[id := s.starting[id]]), starting := s.starting - {id})
  }

  function Resuming(s: Control, handle: ResumeHandle): (r: Control) {
    var (core, record) := BeginResume(s.core, handle);
    if record.None? then s
    else s.(core := core, resumptions := s.resumptions[handle.batchId := Resumption(record.value, None)])
  }

  function StartingResumed(s: Control, id: BatchId): (r: Control) {
    if id !in s.resumptions || s.resumptions[id].started.Some? then s
    else
      var record := s.resumptions[id].record;
      s.(core := Started(s.core, id, record.requestCount, record.completed, record.retries),
         resumptions := s.resumptions[id := Resumption(record, Some(s.core.nextIdentity))])
  }

  function Abandoning(s: Control, id: BatchId): (r: Control) {
    if id !in s.resumptions || s.resumptions[id].started.Some? then s
    else s.(core := AbandonResume(s.core, id, s.resumptions[id].record), resumptions := s.resumptions - {id})
  }

  function Finishing(s: Control, id: BatchId): (r: Control) {
    if id !in s.resumptions || s.resumptions[id].started.None? then s
    else s.(core := FinishResume(s.core, id, s.resumptions[id].started.value).0,
            resumptions := s.resumptions - {id})
  }

  function Failing(s: Control, id: BatchId, obj: Identity): (r: Control) {
    s.(core := GiveUp(s.core, id, obj).0)
  }

  function Cancelling(s: Control, id: BatchId): (r: Control) {
    s.(core := Cancel(s.core, id))
  }

  function Discarding(s: Control, id: BatchId): (r: Control) {
    s.(core := Discard(s.core, id))
  }

  function SkippingId(s: Control): (r: Control) {
    s.(core := s.core.(nextId := s.core.nextId + 1))
  }

  function Step(s: Control, block: Block): (r: Control) {
    match block
    case BeginSubmit(n) => Submitting(s, n)
    case FailedSubmit => SkippingId(s)
    case FinishSubmit(id) => Registering(s, id)
    case CommitResult(id, obj, index) => Delivering(s, id, obj, index)
    case RetryAttempt(id, obj, starts) => Retrying(s, id, obj, starts)
    case FailBatch(id, obj) => Failing(s, id, obj)
    case CancelBatch(id) => Cancelling(s, id)
    case SuspendBatch(id) => Suspending(s, id)
    case ConfirmSuspend(call) => Confirming(s, call)
    case BeginResumeBatch(handle) => Resuming(s, handle)
    case StartResumed(id) => StartingResumed(s, id)
    case AbandonResumeBatch(id) => Abandoning(s, id)
    case FinishResumeBatch(id) => Finishing(s, id)
    case DiscardSuspended(id) => Discarding(s, id)
  }

  function Steps(s: Control, blocks: seq<Block>): (r: Control)
    decreases blocks
  {
    if blocks == [] then s else Steps(Step(s, blocks[0]), blocks[1..])
  }
}
