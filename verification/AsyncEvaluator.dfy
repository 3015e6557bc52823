// The asynchronous joblib evaluator as an object: every lock-guarded block
// updates the maps and batch records in place, and does to them what
// AsyncLifecycle says.
module AsyncEvaluator {
  import opened Outcomes
  import opened AsyncLifecycle

  /** In-flight state of one batch; compared by identity. */
  class ActiveAsyncJoblibBatch {
    const identity: Identity
    const owner: BatchId
    const requestCount: nat
    var completedIndices: set<nat>
    var infrastructureRetryCount: nat
    var attemptGeneration: nat
    var attemptInputs: seq<nat>

    constructor (identity: Identity, owner: BatchId, n: nat, completed: set<nat>, retries: nat)
      ensures this.identity == identity
      ensures Value() == ActiveBatch(owner, n, completed, retries, 0, Remaining(n, completed))
    {
      this.identity, this.owner, this.requestCount := identity, owner, n;
      completedIndices, infrastructureRetryCount, attemptGeneration := completed, retries, 0;
      attemptInputs := Remaining(n, completed);
    }

    function Value(): ActiveBatch
      reads this
    {
      ActiveBatch(owner, requestCount, completedIndices, infrastructureRetryCount,
                  attemptGeneration, attemptInputs)
    }
  }

  class AsyncJoblibEvaluator {
    const infrastructureRetryLimit: nat
    var batchCounter: BatchId
    var activeBatches: map<BatchId, ActiveAsyncJoblibBatch>
    var suspendedBatches: map<BatchId, SuspendedBatch>
    var resumingBatches: set<BatchId>
    var discardedResumingBatches: set<BatchId>
    /** All batch objects ever made, and how many objects have been made. */
    ghost var created: map<Identity, ActiveAsyncJoblibBatch>
    var identities: Identity

    ghost predicate Valid()
      reads this, created.Values
    {
      && (forall i :: i in created ==> created[i].identity == i && i < identities)
      && (forall id :: id in activeBatches ==> IsCreated(activeBatches[id]))
    }

    ghost predicate IsCreated(batch: ActiveAsyncJoblibBatch)
      reads this
    {
      batch.identity in created && created[batch.identity] == batch
    }

    /** The evaluator's state as a value. */
    ghost function Abstract(): Core
      reads this, created.Values
    {
      Core(infrastructureRetryLimit, batchCounter, identities,
           map i | i in created :: created[i].Value(),
           map id | id in activeBatches :: activeBatches[id].identity,
           suspendedBatches, resumingBatches, discardedResumingBatches)
    }

    constructor (infrastructureRetryLimit: nat)
      ensures Valid() && created == map[]
      ensures Abstract() == Initial(infrastructureRetryLimit).core
    {
      this.infrastructureRetryLimit := infrastructureRetryLimit;
      batchCounter, identities := 0, 0;
      activeBatches, suspendedBatches := map[], map[];
      resumingBatches, discardedResumingBatches, created := {}, {}, map[];
    }

    method DrawBatchId() returns (id: BatchId)
      requires Valid()
      modifies this`batchCounter
      ensures Valid() && id == old(batchCounter)
      ensures Abstract() == old(Abstract()).(nextId := id + 1)
    {
      id := batchCounter;
      batchCounter := batchCounter + 1;
    }

    method StartActiveBatch(id: BatchId, n: nat, completed: set<nat>, retries: nat)
      returns (batch: ActiveAsyncJoblibBatch)
      requires Valid()
      modifies this`identities, this`created
      ensures Valid() && IsCreated(batch) && fresh(batch)
      ensures batch.identity == old(identities)
      ensures Abstract() == Started(old(Abstract()), id, n, completed, retries)
    {
      batch := new ActiveAsyncJoblibBatch(identities, id, n, completed, retries);
      created := created[identities := batch];
      identities := identities + 1;
    }

    method Register(id: BatchId, batch: ActiveAsyncJoblibBatch)
      requires Valid() && IsCreated(batch)
      modifies this`activeBatches
      ensures Valid()
      ensures Abstract() == old(Abstract()).(active := old(Abstract()).active[id := batch.identity])
    {
      activeBatches := activeBatches[id := batch];
    }

    /** Drops a batch from the active map. */
    method Deactivate(id: BatchId)
      requires Valid()
      modifies this`activeBatches
      ensures Valid() && activeBatches == old(activeBatches) - {id}
      ensures Abstract() == old(Abstract()).(active := old(Abstract()).active - {id})
    {
      activeBatches := activeBatches - {id};
      assert Abstract().active == old(Abstract()).active - {id};
      assert Abstract().objects == old(Abstract()).objects;
    }

    /** A waiter commits the result it holds, unless it lost the batch. */
    method CommitCompleted(id: BatchId, batch: ActiveAsyncJoblibBatch, index: nat)
      returns (verdict: CommitVerdict)
      requires Valid() && IsCreated(batch)
      modifies this`activeBatches, batch`completedIndices
      ensures Valid()
      ensures Abstract() == Commit(old(Abstract()), id, batch.identity, index).0
      ensures verdict == Commit(old(Abstract()), id, batch.identity, index).1
    {
      if id !in activeBatches || activeBatches[id] != batch {
        return CommitInactive;
      }
      if index in batch.completedIndices {
        Deactivate(id);
        return Duplicate;
      }
      ghost var before := Abstract();
      batch.completedIndices := batch.completedIndices + {index};
      assert Abstract().objects == before.objects[batch.identity := batch.Value()];
      if |batch.completedIndices| >= batch.requestCount {
        Deactivate(id);
        return Delivered(true);
      }
      return Delivered(false);
    }

    /** Replaces the running attempt by one over the unfinished requests. */
    method RetryInfrastructureFailure(id: BatchId, batch: ActiveAsyncJoblibBatch, starts: bool)
      returns (verdict: RetryVerdict)
      requires Valid() && IsCreated(batch)
      modifies this`activeBatches
      modifies batch`infrastructureRetryCount, batch`attemptGeneration, batch`attemptInputs
      ensures Valid()
      ensures Abstract() == Retry(old(Abstract()), id, batch.identity, starts).0
      ensures verdict == Retry(old(Abstract()), id, batch.identity, starts).1
    {
      if id !in activeBatches || activeBatches[id] != batch {
        return RetryInactive;
      }
      if batch.infrastructureRetryCount >= infrastructureRetryLimit {
        return Declined;
      }
      var remainingInputs := Remaining(batch.requestCount, batch.completedIndices);
      if |remainingInputs| == 0 {
        return Declined;
      }
      ghost var before := Abstract();
      batch.infrastructureRetryCount := batch.infrastructureRetryCount + 1;
      if !starts {
        assert Abstract().objects == before.objects[batch.identity := batch.Value()];
        Deactivate(id);
        return RestartFailed;
      }
      batch.attemptGeneration := batch.attemptGeneration + 1;
      batch.attemptInputs := remainingInputs;
      assert Abstract().objects == before.objects[batch.identity := batch.Value()];
      return Restarted;
    }

    method FailActive(id: BatchId, batch: ActiveAsyncJoblibBatch) returns (owned: bool)
      requires Valid() && IsCreated(batch)
      modifies this`activeBatches
      ensures Valid()
      ensures Abstract() == GiveUp(old(Abstract()), id, batch.identity).0
      ensures owned == GiveUp(old(Abstract()), id, batch.identity).1
    {
      if id !in activeBatches || activeBatches[id] != batch {
        return false;
      }
      Deactivate(id);
      return true;
    }

    method CancelBatch(id: BatchId)
      requires Valid()
      modifies this`activeBatches, this`suspendedBatches
      ensures Valid()
      ensures Abstract() == Cancel(old(Abstract()), id)
    {
      Deactivate(id);
      suspendedBatches := suspendedBatches - {id};
    }

    method SuspendActive(id: BatchId) returns (record: Option<SuspendedBatch>)
      requires Valid()
      modifies this`activeBatches, this`suspendedBatches, this`identities
      ensures Valid()
      ensures Abstract() == Suspend(old(Abstract()), id).0
      ensures record == Suspend(old(Abstract()), id).1
    {
      if id !in activeBatches {
        return None;
      }
      var batch := activeBatches[id];
      Deactivate(id);
      var suspended := SuspendedBatch(identities, batch.requestCount, batch.completedIndices,
                                      batch.infrastructureRetryCount);
      identities := identities + 1;
      suspendedBatches := suspendedBatches[id := suspended];
      return Some(suspended);
    }

    method ClaimSuspended(handle: ResumeHandle) returns (record: Option<SuspendedBatch>)
      requires Valid()
      modifies this`suspendedBatches, this`resumingBatches
      ensures Valid()
      ensures Abstract() == BeginResume(old(Abstract()), handle).0
      ensures record == BeginResume(old(Abstract()), handle).1
    {
      var id := handle.batchId;
      if id !in suspendedBatches {
        return None;
      }
      var suspended := suspendedBatches[id];
      if handle.requestCount != suspended.requestCount {
        return None;
      }
      if handle.completedCount != |suspended.completed| {
        return None;
      }
      suspendedBatches := suspendedBatches - {id};
      resumingBatches := resumingBatches + {id};
      assert Abstract() == BeginResume(old(Abstract()), handle).0;
      return Some(suspended);
    }

    method RestoreSuspended(id: BatchId, suspended: SuspendedBatch)
      requires Valid()
      modifies this`suspendedBatches, this`resumingBatches, this`discardedResumingBatches
      ensures Valid()
      ensures Abstract() == AbandonResume(old(Abstract()), id, suspended)
    {
      resumingBatches := resumingBatches - {id};
      if id in discardedResumingBatches {
        discardedResumingBatches := discardedResumingBatches - {id};
      } else {
        suspendedBatches := suspendedBatches[id := suspended];
      }
    }

    method ActivateResumed(id: BatchId, batch: ActiveAsyncJoblibBatch) returns (wasDiscarded: bool)
      requires Valid() && IsCreated(batch)
      modifies this`activeBatches, this`resumingBatches, this`discardedResumingBatches
      ensures Valid()
      ensures Abstract() == FinishResume(old(Abstract()), id, batch.identity).0
      ensures wasDiscarded == FinishResume(old(Abstract()), id, batch.identity).1
    {
      resumingBatches := resumingBatches - {id};
      wasDiscarded := id in discardedResumingBatches;
      if wasDiscarded {
        discardedResumingBatches := discardedResumingBatches - {id};
      } else {
        activeBatches := activeBatches[id := batch];
        assert Abstract().active == old(Abstract()).active[id := batch.identity];
      }
      assert Abstract() == FinishResume(old(Abstract()), id, batch.identity).0;
    }

    method DiscardSuspendedBatch(id: BatchId)
      requires Valid()
      modifies this`suspendedBatches, this`discardedResumingBatches
      ensures Valid()
      ensures Abstract() == Discard(old(Abstract()), id)
    {
      if id in suspendedBatches {
        suspendedBatches := suspendedBatches - {id};
      } else if id in resumingBatches {
        discardedResumingBatches := discardedResumingBatches + {id};
      }
    }
  }
}
