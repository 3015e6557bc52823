// The pending-aware, resumable session over one asynchronous batch
// (src/variopt/evaluators/joblib/batches.py).
module BatchSession {
  import opened Outcomes
  import opened AsyncLifecycle
  import opened AsyncSafety
  import opened AsyncBatchLife

  datatype Lifecycle = Active | Completed | FailedBatch | Cancelled | Suspended

  /** What a call of the evaluator gives: group sizes, or a batch failure. */
  datatype Collected = Groups(sizes: seq<nat>) | Raised(cancelled: bool)

  datatype SessionState = SessionState(requestCount: nat, completedCount: nat, pendingCount: nat, lifecycle: Lifecycle)

  datatype Session = Session(requestCount: nat, completedCount: nat, lifecycle: Lifecycle)

  /** The session after an evaluator call of `poll` or `wait`. */
  function SessionCollecting(s: Session, collected: Collected): (r: Session) {
    if !s.lifecycle.Active? then s
    else match collected
      case Raised(cancelled) => s.(lifecycle := if cancelled then Cancelled else FailedBatch)
      case Groups(sizes) =>
        SumNonNegative(sizes);
        var count := s.completedCount + Sum(sizes);
        if count >= s.requestCount then s.(completedCount := s.requestCount, lifecycle := Completed)
        else s.(completedCount := count)
  }

  /** `suspended` is the completed count of the resume handle, or a batch failure. */
  function SessionSuspending(s: Session, suspended: Result<nat, bool>): (r: Session) {
    if !s.lifecycle.Active? then s
    else match suspended
      case Err(cancelled) => s.(lifecycle := if cancelled then Cancelled else FailedBatch)
      case Ok(count) => s.(completedCount := count, lifecycle := Suspended)
  }

  function SessionCancelling(s: Session): (r: Session) {
    if s.lifecycle.Suspended? || s.lifecycle.Active? then s.(lifecycle := Cancelled) else s
  }

  datatype Call = Collect(collected: Collected) | Suspend(suspended: Result<nat, bool>) | Cancel

  function After(s: Session, call: Call): (r: Session) {
    match call
    case Collect(collected) => SessionCollecting(s, collected)
    case Suspend(suspended) => SessionSuspending(s, suspended)
    case Cancel => SessionCancelling(s)
  }

  function AfterAll(s: Session, calls: seq<Call>): (r: Session)
    decreases calls
  {
    if calls == [] then s else AfterAll(After(s, calls[0]), calls[1..])
  }

  predicate Consistent(s: Session) {
    && s.requestCount > 0 && s.completedCount <= s.requestCount
    && (s.lifecycle.Completed? ==> s.completedCount == s.requestCount)
  }

  /** A resume handle counts no more requests than the batch has. */
  predicate Honest(s: Session, call: Call) {
    call.Suspend? && call.suspended.Ok? ==> call.suspended.value <= s.requestCount
  }

  /** The reported counts partition the batch after any calls; a finished session
      stays as it is, and a suspended one can only be cancelled. */
  lemma {:induction false} SessionsStayConsistent(s: Session, calls: seq<Call>)
    requires Consistent(s) && forall k :: 0 <= k < |calls| ==> Honest(s, calls[k])
    ensures var t := AfterAll(s, calls);
      && Consistent(t) && t.requestCount == s.requestCount
      && (s.lifecycle.Completed? || s.lifecycle.FailedBatch? || s.lifecycle.Cancelled? ==> t == s)
      && (s.lifecycle.Suspended? ==> t == s || t == s.(lifecycle := Cancelled))
    decreases calls
  {
    if calls != [] {
      SessionsStayConsistent(After(s, calls[0]), calls[1..]);
    }
  }

  /** What a call that succeeds adds to the count. */
  function Brought(call: Call): (r: nat) {
    if call.Collect? && call.collected.Groups? then SumNonNegative(call.collected.sizes); Sum(call.collected.sizes) else 0
  }

  function AllBrought(calls: seq<Call>): (r: nat)
    decreases calls
  {
    if calls == [] then 0 else Brought(calls[0]) + AllBrought(calls[1..])
  }

  /** The call does not end an active session that has `count` results. */
  predicate GoesOn(call: Call, count: nat, requestCount: nat) {
    call.Collect? && call.collected.Groups? && count + Brought(call) < requestCount
  }

  ghost predicate AllGoOn(calls: seq<Call>, count: nat, requestCount: nat) {
    forall i :: 0 <= i < |calls| ==> GoesOn(calls[i], count + AllBrought(calls[..i]), requestCount)
  }

  function FailureKind(cancelled: bool): (r: Lifecycle) {
    if cancelled then Cancelled else FailedBatch
  }

  /** How a session that was active with `count` results is after the call that ended
      that, and any calls behind it. */
  ghost predicate EndedBy(call: Call, later: seq<Call>, count: nat, t: Session) {
    match call
    case Collect(Groups(_)) => t.lifecycle.Completed? && t.completedCount == t.requestCount
    case Collect(Raised(cancelled)) => t.lifecycle == FailureKind(cancelled) && t.completedCount == count
    case Suspend(Err(cancelled)) => t.lifecycle == FailureKind(cancelled) && t.completedCount == count
    case Suspend(Ok(handed)) =>
      t.lifecycle == (if Cancel in later then Cancelled else Suspended) && t.completedCount == handed
    case Cancel => t.lifecycle.Cancelled? && t.completedCount == count
  }

  /** An active session counts what the calls bring until a first one ends it: the one
      that completes the count, fails, suspends or cancels; that one decides for good,
      except that a suspended session can be cancelled later. */
  lemma {:induction false} SessionRunsExactly(s: Session, calls: seq<Call>) returns (k: nat)
    requires s.lifecycle.Active?
    ensures k <= |calls| && AllGoOn(calls[..k], s.completedCount, s.requestCount)
    ensures var t, count := AfterAll(s, calls), s.completedCount + AllBrought(calls[..k]);
      if k == |calls| then t == s.(completedCount := count)
      else
        && t.requestCount == s.requestCount && !GoesOn(calls[k], count, s.requestCount)
        && EndedBy(calls[k], calls[k + 1..], count, t)
    decreases calls
  {
    if calls == [] {
      k := 0;
    } else if !GoesOn(calls[0], s.completedCount, s.requestCount) {
      k := 0;
      NoLongerActive(After(s, calls[0]), calls[1..]);
    } else {
      var rest := SessionRunsExactly(After(s, calls[0]), calls[1..]);
      k := rest + 1;
      assert calls[..k][1..] == calls[1..][..rest];
      assert k < |calls| ==> calls[k + 1..] == calls[1..][rest + 1..];
      forall i | 0 <= i < k ensures GoesOn(calls[i], s.completedCount + AllBrought(calls[..k][..i]), s.requestCount) {
        if i > 0 {
          assert calls[..k][..i][1..] == calls[1..][..rest][..i - 1] && calls[i] == calls[1..][..rest][i - 1];
        }
      }
    }
  }

  lemma {:induction false} NoLongerActive(s: Session, calls: seq<Call>)
    requires !s.lifecycle.Active?
    ensures AfterAll(s, calls) == if s.lifecycle.Suspended? && Cancel in calls then s.(lifecycle := Cancelled) else s
    decreases calls
  {
    if calls != [] {
      NoLongerActive(After(s, calls[0]), calls[1..]);
      assert Cancel in calls <==> calls[0] == Cancel || Cancel in calls[1..];
    }
  }

  // ----- the session and the batch that it stands for -----

  /** The session says of its batch what the evaluator has. */
  ghost predicate Stands(s: Session, c: Control, id: BatchId) {
    && Owned(c)
    && match s.lifecycle
       case Active => LifeOf(c, id).Running? && Counts(s, LifeOf(c, id).progress)
       case Suspended => LifeOf(c, id).Parked? && Counts(s, LifeOf(c, id).progress)
       case _ => LifeOf(c, id).Over?
  }

  predicate Counts(s: Session, p: Progress) {
    s.requestCount == p.requestCount && s.completedCount == |p.completed|
  }

  /** What cancelling the session calls: nothing, once it is neither active nor
      suspended. */
  function CancelCalls(s: Session, id: BatchId): (r: seq<Block>) {
    match s.lifecycle
    case Active => [CancelBatch(id)]
    case Suspended => [DiscardSuspended(id)]
    case _ => []
  }

  /** Cancelling an active or a suspended session ends its batch, and cancelling any
      other does nothing. */
  lemma CancelStands(s: Session, c: Control, id: BatchId)
    requires Safe(c) && Stands(s, c, id)
    ensures var d := Steps(c, CancelCalls(s, id));
      && Safe(d) && Stands(SessionCancelling(s), d, id) && LifeOf(d, id).Over?
  {
    if s.lifecycle.Active? {
      OneCall(c, CancelBatch(id), id);
    } else if s.lifecycle.Suspended? {
      OneCall(c, DiscardSuspended(id), id);
    }
  }

  lemma OneCall(c: Control, call: Block, id: BatchId)
    requires Safe(c)
    ensures Safe(Steps(c, [call])) && LifeOf(Steps(c, [call]), id) == Follows(c, call, id)
  {
    StepFollows(c, call, id);
    assert Steps(c, [call]) == Steps(Step(c, call), []);
  }

  /** Suspending an active session parks its batch, with the count of its record. */
  lemma SuspendStands(s: Session, c: Control, id: BatchId)
    requires Safe(c) && Stands(s, c, id) && s.lifecycle.Active?
    ensures var d := Step(c, SuspendBatch(id));
      && Safe(d) && LifeOf(d, id).Parked?
      && Stands(SessionSuspending(s, Ok(|LifeOf(d, id).progress.completed|)), d, id)
  {
    StepSafe(c, SuspendBatch(id));
    StepFollows(c, SuspendBatch(id), id);
  }

  /** A batch that fails ends the session that collects from it. */
  lemma FailureStands(s: Session, c: Control, id: BatchId, obj: Identity, cancelled: bool)
    requires Safe(c) && Stands(s, c, id) && s.lifecycle.Active? && IsActive(c.core, id, obj)
    ensures var d, t := Step(c, FailBatch(id, obj)), SessionCollecting(s, Raised(cancelled));
      Safe(d) && Stands(t, d, id) && t.lifecycle == FailureKind(cancelled)
  {
    StepSafe(c, FailBatch(id, obj));
    StepFollows(c, FailBatch(id, obj), id);
  }

  /** The results that one call brings, committed one after the other. */
  function DeliveringAll(c: Control, id: BatchId, obj: Identity, indices: seq<nat>): (r: Control)
    decreases indices
  {
    if indices == [] then c else DeliveringAll(Delivering(c, id, obj, indices[0]), id, obj, indices[1..])
  }

  predicate AllDelivered(c: Control, id: BatchId, obj: Identity, indices: seq<nat>)
    decreases indices
  {
    indices == [] ||
    (Commit(c.core, id, obj, indices[0]).1.Delivered?
     && AllDelivered(Delivering(c, id, obj, indices[0]), id, obj, indices[1..]))
  }

  /** Commits that are all deliveries are counted one by one, and the batch is retired
      by the last of its requests. */
  lemma {:induction false} DeliveriesCount(c: Control, id: BatchId, obj: Identity, indices: seq<nat>)
    requires Safe(c) && id in c.requestCount && id in c.delivered && AllDelivered(c, id, obj, indices)
    requires id in c.core.active <==> |c.delivered[id]| < c.requestCount[id]
    ensures var d := DeliveringAll(c, id, obj, indices);
      && id in d.delivered && |d.delivered[id]| == |c.delivered[id]| + |indices|
      && (id in d.core.active <==> |d.delivered[id]| < c.requestCount[id])
    decreases indices
  {
    if indices != [] {
      var d := Delivering(c, id, obj, indices[0]);
      DeliverySafe(c, id, obj, indices[0]);
      OneDelivery(c, id, obj, indices[0]);
      DeliveriesCount(d, id, obj, indices[1..]);
    }
  }

  lemma OneDelivery(c: Control, id: BatchId, obj: Identity, index: nat)
    requires Safe(c) && id in c.requestCount && Commit(c.core, id, obj, index).1.Delivered?
    ensures var d := Delivering(c, id, obj, index);
      && d.requestCount == c.requestCount && id in d.delivered && id in c.delivered
      && |d.delivered[id]| == |c.delivered[id]| + 1
      && (id in d.core.active <==> |d.delivered[id]| < c.requestCount[id])
      && (id in d.core.active ==> IsActive(d.core, id, obj))
  {
    assert Books(c, id);
    NoDuplicatesSize(c.delivered[id]);
    DeliveryTallies(c.delivered[id], index);
  }

  /** The session's count is that of the batch, however many groups a call brings: a
      delivered result is counted once, and the session completes exactly when the
      batch is retired. */
  lemma SessionFollowsDelivery(c: Control, s: Session, id: BatchId, obj: Identity, indices: seq<nat>, sizes: seq<nat>)
    requires Safe(c) && id in c.requestCount && IsActive(c.core, id, obj)
    requires s.lifecycle.Active? && s.requestCount == c.requestCount[id]
    requires s.completedCount == |c.delivered[id]|
    requires AllDelivered(c, id, obj, indices) && Sum(sizes) == |indices|
    ensures var d, t := DeliveringAll(c, id, obj, indices), SessionCollecting(s, Groups(sizes));
      && id in d.delivered && t.completedCount == |d.delivered[id]|
      && (t.lifecycle.Completed? <==> id !in d.core.active)
      && (t.lifecycle.Active? || t.lifecycle.Completed?)
  {
    assert Books(c, id);
    NoDuplicatesSize(c.delivered[id]);
    DeliveriesCount(c, id, obj, indices);
    DeliveredWithin(c, id, obj, indices);
  }

  /** No more is delivered than the batch has requests. */
  lemma {:induction false} DeliveredWithin(c: Control, id: BatchId, obj: Identity, indices: seq<nat>)
    requires Safe(c) && id in c.requestCount && AllDelivered(c, id, obj, indices)
    requires |c.delivered[id]| <= c.requestCount[id]
    ensures |c.delivered[id]| + |indices| <= c.requestCount[id]
    decreases indices
  {
    if indices != [] {
      var d := Delivering(c, id, obj, indices[0]);
      DeliverySafe(c, id, obj, indices[0]);
      OneDelivery(c, id, obj, indices[0]);
      assert Books(c, id);
      NoDuplicatesSize(c.delivered[id]);
      DeliveredWithin(d, id, obj, indices[1..]);
    }
  }

  class ResumablePendingAwareAsyncJoblibBatchSession {
    const requestCount: nat
    var completedCount: nat
    var lifecycle: Lifecycle

    function Value(): Session
      reads this
    {
      Session(requestCount, completedCount, lifecycle)
    }

    constructor (requestCount: nat, completedCount: nat)
      ensures Value() == Session(requestCount, completedCount, Active)
    {
      this.requestCount, this.completedCount, this.lifecycle := requestCount, completedCount, Active;
    }

    /** `poll` and `wait`; false when the session is not active or the call failed. */
    method PollOrWait(collected: Collected) returns (ok: bool)
      modifies this`completedCount, this`lifecycle
      ensures Value() == SessionCollecting(old(Value()), collected)
      ensures ok == (old(lifecycle).Active? && collected.Groups?)
    {
      if lifecycle != Active {
        return false;
      }
      if collected.Raised? {
        lifecycle := if collected.cancelled then Cancelled else FailedBatch;
        return false;
      }
      SumNonNegative(collected.sizes);
      completedCount := completedCount + Sum(collected.sizes);
      if completedCount >= requestCount {
        completedCount := requestCount;
        lifecycle := Completed;
      }
      return true;
    }

    method CancelSession()
      modifies this`lifecycle
      ensures Value() == SessionCancelling(old(Value()))
    {
      if lifecycle == Suspended {
        lifecycle := Cancelled;
        return;
      }
      if lifecycle != Active {
        return;
      }
      lifecycle := Cancelled;
    }

    method SuspendSession(suspended: Result<nat, bool>) returns (ok: bool)
      modifies this`completedCount, this`lifecycle
      ensures Value() == SessionSuspending(old(Value()), suspended)
      ensures ok == (old(lifecycle).Active? && suspended.Ok?)
    {
      if lifecycle != Active {
        return false;
      }
      if suspended.Err? {
        lifecycle := if suspended.error then Cancelled else FailedBatch;
        return false;
      }
      completedCount := suspended.value;
      lifecycle := Suspended;
      return true;
    }

    /** The state summary never fails its own check that the counts partition. */
    method State() returns (state: SessionState)
      requires Consistent(Value())
      ensures state.lifecycle == lifecycle && state.requestCount == requestCount
      ensures state.completedCount == completedCount
      ensures state.completedCount + state.pendingCount == state.requestCount
    {
      state := SessionState(requestCount, completedCount, requestCount - completedCount, lifecycle);
    }
  }
}
