// What the protocol can do, and what a move does for sure: a batch can complete in
// any order of its results, only current events are admitted, and an aborted
// attempt hands nothing more on.
module AsyncProgress {
  import opened Outcomes
  import opened AsyncLifecycle
  import opened AsyncSafety
  import opened AsyncProtocol
  import opened AsyncDelivery
  import opened AsyncDuplicates
  import opened AsyncBatchLife

  // ----- only current events are admitted -----

  /** A waiter goes on with the event it holds exactly when it still owns the batch
      and the event is of the running attempt; otherwise it drops the event. */
  lemma AdmitsExactly(w: World, t: nat, again: bool)
    requires t in w.waiters && w.waiters[t].phase.Holding?
    ensures var x, v := w.waiters[t], Apply(w, Admit(t, again));
      && v == w.(waiters := v.waiters)
      && (t in v.waiters && v.waiters[t].phase == Admitted(x.phase.event)
          <==> IsActive(w.control.core, x.id, x.obj) && x.phase.event.generation == Generation(w, x.obj))
      && (t in v.waiters ==> v.waiters[t].phase == Admitted(x.phase.event) || v.waiters[t].phase.Polling?)
  {
  }

  /** The waiter that gives up the batch it owns ends it. */
  lemma GivingUpEnds(w: World, t: nat) returns (v: World)
    requires Safe(w.control) && t in w.waiters && w.waiters[t].phase.GivingUp?
    requires IsActive(w.control.core, w.waiters[t].id, w.waiters[t].obj)
    ensures v == Apply(w, FailHeld(t)) && t !in v.waiters
    ensures Safe(v.control) && LifeOf(v.control, w.waiters[t].id).Over?
  {
    var s := OneStep(w.control, FailBatch(w.waiters[t].id, w.waiters[t].obj), w.waiters[t].id);
    v := Apply(w, FailHeld(t));
    assert v.control == s;
  }

  /** A failure other than a broken pool is never retried: the waiter gives up. */
  lemma OtherFailuresEnd(w: World, t: nat, generation: nat, failure: Failure, starts: bool, again: bool)
    requires t in w.waiters && w.waiters[t].phase == Admitted(Failed(failure, generation))
    requires failure.Interrupted? || failure.OtherFailure?
    ensures Apply(w, RetryHeld(t, starts, again)) == w
    ensures Apply(w, Decline(t)) == w.(waiters := w.waiters[t := w.waiters[t].(phase := GivingUp)])
  {
  }

  /** A broken pool and an exhausted stream are retried as long as the limit allows,
      and given up then. */
  lemma SpentRetriesEnd(w: World, t: nat, event: Event, starts: bool, again: bool)
    requires Safe(w.control) && t in w.waiters && w.waiters[t].phase == Admitted(event)
    requires event.Exhausted? || (event.Failed? && event.failure.PoolBroken?)
    requires IsActive(w.control.core, w.waiters[t].id, w.waiters[t].obj)
    ensures Apply(w, RetryHeld(t, starts, again)) == w.(waiters := w.waiters[t := w.waiters[t].(phase := GivingUp)])
      <==> w.control.retried[w.waiters[t].id] == w.control.core.retryLimit
  {
    var x := w.waiters[t];
    DeclinedMeansSpent(w.control, x.id, x.obj, starts);
    SpentVerdict(w.control.core, x.id, x.obj, starts);
  }

  lemma SpentVerdict(c: Core, id: BatchId, obj: Identity, starts: bool)
    requires IsActive(c, id, obj)
    ensures var (d, verdict) := Retry(c, id, obj, starts);
      !verdict.RetryInactive? && (verdict.Declined? ==> d == c)
      && (verdict.RestartFailed? ==> d.active == c.active - {id})
      && (verdict.Restarted? ==> obj in d.objects && d.objects[obj].generation == c.objects[obj].generation + 1)
  {
  }

  /** A call collects from the batch object that is active when it starts, if any. */
  lemma CollectsExactly(w: World, t: nat, id: BatchId)
    ensures var v := Apply(w, Collect(t, id));
      if t !in w.waiters && id in w.control.core.active
      then v == w.(waiters := w.waiters[t := Waiter(id, w.control.core.active[id], Polling)])
      else v == w
  {
  }

  /** A waiter takes the oldest event of the attempt it looks at, and no other. */
  lemma TakesOldest(w: World, t: nat)
    requires t in w.waiters && w.waiters[t].phase.Reading?
    ensures var x, v := w.waiters[t], Apply(w, Get(t));
      var key := (x.obj, x.phase.generation);
      if key in w.attempts && w.attempts[key].queue != []
      then
        && v.waiters == w.waiters[t := x.(phase := Holding(w.attempts[key].queue[0]))] && v.control == w.control
        && v.attempts == w.attempts[key := w.attempts[key].(queue := w.attempts[key].queue[1..])]
      else v == w
  {
  }

  /** Where there is nothing to take, only a call that still owns its batch looks
      again. */
  lemma LooksAgainExactly(w: World, t: nat, again: bool)
    requires t in w.waiters && w.waiters[t].phase.Reading?
    requires (w.waiters[t].obj, w.waiters[t].phase.generation) in w.attempts
    requires w.attempts[(w.waiters[t].obj, w.waiters[t].phase.generation)].queue == []
    ensures var x, v := w.waiters[t], Apply(w, FindEmpty(t, again));
      && v == w.(waiters := v.waiters)
      && v.waiters == if again && x.id in w.control.core.active && w.control.core.active[x.id] == x.obj
                         && x.obj in w.control.core.objects
                      then w.waiters[t := x.(phase := Polling)] else w.waiters - {t}
  {
  }

  // ----- queues -----

  /** A cleared worker hands its event on exactly when there is room, behind all others,
      and has then ended unless there is more to fetch; without room it keeps the event
      and looks again whether it is aborted. */
  lemma PutsExactly(w: World, key: AttemptKey)
    requires key in w.attempts && w.attempts[key].worker.Offering? && w.attempts[key].worker.ready
    ensures var a, v := w.attempts[key], Apply(w, Put(key));
      && v == w.(attempts := v.attempts) && key in v.attempts
      && var b := v.attempts[key];
         && b == a.(queue := b.queue, worker := b.worker)
         && (if |a.queue| < a.capacity
             then b.queue == a.queue + [a.worker.event]
                  && b.worker == if a.worker.event.Completed? then Draining else Ended
             else b.queue == a.queue && b.worker == Offering(a.worker.event, false))
  {
  }

  /** Room for every result of the attempt and its end, or for two results per worker
      and the end, whichever is less. */
  ghost predicate Roomy(w: World, a: Attempt) {
    var all, busy := |a.inputs| + 1, 2 * w.workerCount + 1;
    a.capacity == if all <= busy then all else busy
  }

  ghost predicate AllRoomy(w: World) {
    forall key :: key in w.attempts ==> Roomy(w, w.attempts[key])
  }

  lemma NewIsRoomy(w: World, n: nat, completed: set<nat>)
    ensures Roomy(w, NewAttempt(w, Remaining(n, completed)))
  {
    NoDuplicatesSize(Remaining(n, completed));
  }

  lemma SetKeepsRoom(w: World, v: World, key: AttemptKey)
    requires AllRoomy(w) && v.workerCount == w.workerCount && key in v.attempts && Roomy(w, v.attempts[key])
    requires v.attempts == w.attempts[key := v.attempts[key]]
    ensures AllRoomy(v)
  {
    forall k | k in v.attempts ensures Roomy(v, v.attempts[k]) {
      assert k != key ==> Roomy(w, w.attempts[k]);
    }
  }

  /** A new batch object runs over what is left of its requests. */
  lemma MadeOverRest(s: Control, block: Block) returns (n: nat, completed: set<nat>)
    requires Owned(s) && !ForWaiters(block) && s.core.nextIdentity in Step(s, block).core.objects
    ensures Step(s, block).core.objects[s.core.nextIdentity].inputs == Remaining(n, completed)
  {
    if block.BeginSubmit? {
      n, completed := block.n, {};
    } else {
      assert block.StartResumed? && block.id in s.resumptions;
      n, completed := s.resumptions[block.id].record.requestCount, s.resumptions[block.id].record.completed;
    }
  }

  lemma BlockKeepsRoom(w: World, block: Block)
    requires AllRoomy(w) && Owned(w.control)
    ensures AllRoomy(RunBlock(w, block))
  {
    if !ForWaiters(block) {
      BlockMakes(w, block);
      var v, made := RunBlock(w, block), w.control.core.nextIdentity;
      if made in v.control.core.objects {
        var n, completed := MadeOverRest(w.control, block);
        NewIsRoomy(w, n, completed);
        SetKeepsRoom(w, v, (made, 0));
      }
    }
  }

  lemma AbortKeepsRoom(w: World, obj: Identity, generation: nat)
    requires AllRoomy(w)
    ensures AllRoomy(AbortOld(w, obj, generation))
  {
    if (obj, generation) in w.attempts {
      assert Roomy(w, w.attempts[(obj, generation)]);
      SetKeepsRoom(w, AbortOld(w, obj, generation), (obj, generation));
    }
  }

  lemma RestartKeepsRoom(w: World, obj: Identity, n: nat, completed: set<nat>)
    requires AllRoomy(w) && obj in w.control.core.objects
    requires w.control.core.objects[obj].inputs == Remaining(n, completed)
    ensures AllRoomy(StartNew(w, obj))
  {
    NewIsRoomy(w, n, completed);
    SetKeepsRoom(w, StartNew(w, obj), CurrentKey(w, obj));
  }

  lemma RetriedKeepsRoom(w: World, id: BatchId, obj: Identity, starts: bool)
    requires AllRoomy(w) && obj in w.control.core.objects
    ensures AllRoomy(Retried(w, id, obj, starts))
  {
    var b, next := w.control.core.objects[obj], w.(control := Retrying(w.control, id, obj, starts));
    assert AllRoomy(next);
    AbortKeepsRoom(next, obj, Generation(w, obj));
    RetryingObjects(w.control, id, obj, starts);
    if Retry(w.control.core, id, obj, starts).1.Restarted? {
      RestartKeepsRoom(AbortOld(next, obj, Generation(w, obj)), obj, b.requestCount, b.completed);
    }
  }

  lemma RetryKeepsRoom(w: World, t: nat, starts: bool, again: bool)
    requires AllRoomy(w) && Shape(w)
    ensures AllRoomy(RunRetryHeld(w, t, starts, again))
  {
    if t in w.waiters && w.waiters[t].phase.Admitted? && Retryable(w.waiters[t].phase.event) {
      RetryIsRetried(w, t, starts, again);
      RetriedKeepsRoom(w, w.waiters[t].id, w.waiters[t].obj, starts);
      RoomElsewhere(Retried(w, w.waiters[t].id, w.waiters[t].obj, starts), RunRetryHeld(w, t, starts, again));
    }
  }

  lemma RoomElsewhere(w: World, v: World)
    requires AllRoomy(w) && v.attempts == w.attempts && v.workerCount == w.workerCount
    ensures AllRoomy(v)
  {
    forall k | k in v.attempts ensures Roomy(v, v.attempts[k]) {
      assert Roomy(w, w.attempts[k]);
    }
  }

  lemma WorkKeepsRoom(w: World, move: Move)
    requires AllRoomy(w) && !move.Block? && !move.RetryHeld?
    ensures AllRoomy(Apply(w, move))
  {
    var v := Apply(w, move);
    forall k | k in v.attempts ensures Roomy(v, v.attempts[k]) {
      assert Roomy(w, w.attempts[k]);
    }
  }

  lemma MoveKeepsRoom(w: World, move: Move)
    requires AllRoomy(w) && Sound(w)
    ensures AllRoomy(Apply(w, move))
  {
    match move
    case Block(block) => BlockKeepsRoom(w, block);
    case RetryHeld(t, starts, again) => RetryKeepsRoom(w, t, starts, again);
    case _ => WorkKeepsRoom(w, move);
  }

  lemma {:induction false} PlayKeepsRoom(w: World, moves: seq<Move>)
    requires AllRoomy(w) && Sound(w) && Throughout(w, moves, Genuine)
    ensures AllRoomy(Play(w, moves))
    decreases moves
  {
    if moves != [] {
      MoveKeepsRoom(w, moves[0]);
      MoveSound(w, moves[0]);
      PlayKeepsRoom(Apply(w, moves[0]), moves[1..]);
    }
  }

  /** In every run the handoff queue of an attempt has room for all of its results and
      its end, or for two results per worker and the end, and never holds more. */
  lemma CapacityExactly(w: World, key: AttemptKey)
    requires Occurs(w) && key in w.attempts
    ensures Roomy(w, w.attempts[key]) && |w.attempts[key].queue| <= w.attempts[key].capacity
  {
    var workerCount, retryLimit, moves :|
      Throughout(Start(workerCount, retryLimit), moves, Genuine) && w == Play(Start(workerCount, retryLimit), moves);
    StartSound(workerCount, retryLimit);
    PlayKeepsRoom(Start(workerCount, retryLimit), moves);
    QueuesBounded(w, key);
  }

  // ----- an aborted attempt hands nothing more on -----

  /** The attempt is aborted and its worker has no event that it may still put. */
  ghost predicate Silenced(w: World, key: AttemptKey) {
    key in w.attempts && w.attempts[key].aborted
    && (w.attempts[key].worker.Offering? ==> !w.attempts[key].worker.ready)
  }

  /** The queue stays, or loses its oldest event. */
  predicate OnlyTakes(before: seq<Event>, after: seq<Event>) {
    after == before || (before != [] && after == before[1..])
  }

  ghost predicate StaysSilenced(w: World, v: World, key: AttemptKey) {
    Silenced(w, key) ==> Silenced(v, key) && OnlyTakes(w.attempts[key].queue, v.attempts[key].queue)
  }

  lemma BlockSilenced(w: World, block: Block, key: AttemptKey)
    requires Shape(w) && Owned(w.control) && Silenced(w, key)
    ensures StaysSilenced(w, RunBlock(w, block), key)
  {
    if !ForWaiters(block) {
      BlockMakes(w, block);
      BlockKeepsObjects(w.control, block);
      assert AttemptShape(w, key);
    }
  }

  lemma RetrySilenced(w: World, t: nat, starts: bool, again: bool, key: AttemptKey)
    requires Shape(w) && Silenced(w, key)
    ensures StaysSilenced(w, RunRetryHeld(w, t, starts, again), key)
  {
    if t in w.waiters && w.waiters[t].phase.Admitted? && Retryable(w.waiters[t].phase.event) {
      var x := w.waiters[t];
      RetryIsRetried(w, t, starts, again);
      RetriedSilenced(w, x.id, x.obj, starts, key);
    }
  }

  lemma RetriedSilenced(w: World, id: BatchId, obj: Identity, starts: bool, key: AttemptKey)
    requires Shape(w) && Silenced(w, key) && obj in w.control.core.objects
    ensures StaysSilenced(w, Retried(w, id, obj, starts), key)
  {
    if key.0 != obj {
      RetriedElsewhere(w, id, obj, starts);
    } else {
      assert AttemptShape(w, key);
      RetriedControl(w, id, obj, starts);
      RetryingObjects(w.control, id, obj, starts);
    }
  }

  lemma WorkSilenced(w: World, move: Move, key: AttemptKey)
    requires !move.Block? && !move.RetryHeld? && Silenced(w, key)
    ensures StaysSilenced(w, Apply(w, move), key)
  {
  }

  lemma SilencedStep(w: World, move: Move, key: AttemptKey)
    requires Shape(w) && Owned(w.control) && Silenced(w, key)
    ensures StaysSilenced(w, Apply(w, move), key)
  {
    match move
    case Block(block) => BlockSilenced(w, block, key);
    case RetryHeld(t, starts, again) => RetrySilenced(w, t, starts, again, key);
    case _ => WorkSilenced(w, move, key);
  }

  ghost predicate Suffix(rest: seq<Event>, all: seq<Event>) {
    |rest| <= |all| && rest == all[|all| - |rest|..]
  }

  /** Whatever happens afterwards, what is in the queue of an aborted attempt then is
      the rest of what is in it now. */
  lemma {:induction false} AbortedPutsNothing(w: World, moves: seq<Move>, key: AttemptKey)
    requires Sound(w) && Throughout(w, moves, Genuine) && Silenced(w, key)
    ensures var v := Play(w, moves); Silenced(v, key) && Suffix(v.attempts[key].queue, w.attempts[key].queue)
    decreases moves
  {
    if moves != [] {
      var v := Apply(w, moves[0]);
      MoveSound(w, moves[0]);
      SilencedStep(w, moves[0], key);
      AbortedPutsNothing(v, moves[1..], key);
      SuffixOfTaken(Play(v, moves[1..]).attempts[key].queue, v.attempts[key].queue, w.attempts[key].queue);
    }
  }

  lemma SuffixOfTaken(rest: seq<Event>, after: seq<Event>, before: seq<Event>)
    requires Suffix(rest, after) && OnlyTakes(before, after)
    ensures Suffix(rest, before)
  {
  }

  /** An event that the worker of an aborted attempt has not been cleared to put is
      dropped with the worker. */
  lemma AbortEndsWorker(w: World, key: AttemptKey)
    requires Silenced(w, key)
    ensures var v := Apply(w, CheckAbort(key));
      Silenced(v, key) && (w.attempts[key].worker.Offering? ==> v.attempts[key].worker.Ended?)
  {
  }

  /** Whoever takes a batch out of use can abort its running attempt ... */
  lemma AbortsUnused(w: World, obj: Identity)
    requires Shape(w) && obj in w.control.core.objects && !Live(w.control, obj)
    ensures var v := Apply(w, Abort(obj)); CurrentKey(v, obj) in v.attempts && v.attempts[CurrentKey(v, obj)].aborted
  {
    assert ObjectShape(w, obj);
  }

  /** ... and a retry within the limit aborts the attempt that it replaces. */
  lemma RetryAborts(w: World, id: BatchId, obj: Identity, starts: bool)
    requires Sound(w) && IsActive(w.control.core, id, obj) && w.control.retried[id] < w.control.core.retryLimit
    ensures var v := Retried(w, id, obj, starts);
      obj in v.control.core.objects && Replaced(w, v, id, obj, starts)
  {
    assert Books(w.control, id) && ObjectShape(w, obj);
    WorkLeft(w.control.core.objects[obj].requestCount, w.control.core.objects[obj].completed);
    if starts {
      RestartReplaces(w, id, obj);
    } else {
      FailedRestartStops(w, id, obj);
    }
  }

  /** The old attempt is aborted; a new one drains, or the batch is out of use. */
  ghost predicate Replaced(w: World, v: World, id: BatchId, obj: Identity, starts: bool)
    requires obj in w.control.core.objects && obj in v.control.core.objects
  {
    var former, latest := CurrentKey(w, obj), CurrentKey(v, obj);
    && former in v.attempts && v.attempts[former].aborted
    && (if starts
        then IsActive(v.control.core, id, obj) && latest != former && latest in v.attempts
             && !v.attempts[latest].aborted && v.attempts[latest].worker.Draining?
        else id !in v.control.core.active)
  }

  lemma RestartReplaces(w: World, id: BatchId, obj: Identity)
    requires IsActive(w.control.core, id, obj) && CurrentKey(w, obj) in w.attempts
    requires w.control.core.objects[obj].retries < w.control.core.retryLimit
    requires Remaining(w.control.core.objects[obj].requestCount, w.control.core.objects[obj].completed) != []
    ensures var v := Retried(w, id, obj, true);
      obj in v.control.core.objects && Replaced(w, v, id, obj, true)
  {
  }

  lemma FailedRestartStops(w: World, id: BatchId, obj: Identity)
    requires IsActive(w.control.core, id, obj) && CurrentKey(w, obj) in w.attempts
    requires w.control.core.objects[obj].retries < w.control.core.retryLimit
    requires Remaining(w.control.core.objects[obj].requestCount, w.control.core.objects[obj].completed) != []
    ensures var v := Retried(w, id, obj, false);
      obj in v.control.core.objects && Replaced(w, v, id, obj, false)
  {
  }

  // ----- a batch can complete in any order -----

  /** The batch 0 of `n` requests, of which `done` have been delivered in this order;
      nobody collects, and nothing is on its way. */
  ghost predicate Idle(w: World, n: nat, done: seq<nat>) {
    var c := w.control.core;
    && w.waiters == map[]
    && IsActive(c, 0, 0) && c.objects[0].owner == 0 && c.objects[0].requestCount == n
    && c.objects[0].completed == Elements(done) && c.objects[0].generation == 0
    && 0 in w.control.delivered && w.control.delivered[0] == done
    && (0, 0) in w.attempts
    && var a := w.attempts[(0, 0)];
       && a.worker.Draining? && !a.aborted && a.queue == [] && a.capacity >= 1
       && a.yielded == Elements(done) && forall i :: 0 <= i < n ==> i in a.inputs
  }

  lemma SubmittedIdle(workers: nat, limit: nat, n: nat) returns (moves: seq<Move>, w: World)
    requires n > 0
    ensures Leads(Start(workers, limit), moves, w) && Idle(w, n, [])
  {
    var start := Start(workers, limit);
    moves, w := [], start;
    moves, w := Made(start, moves, w, Block(BeginSubmit(n)));
    moves, w := Made(start, moves, w, Block(FinishSubmit(0)));
    assert Elements([]) == {};
  }

  /** One more result is yielded, handed on, taken and committed. */
  lemma OneMoreDelivered(start: World, moves: seq<Move>, w: World, n: nat, done: seq<nat>, index: nat)
    returns (longer: seq<Move>, v: World)
    requires Leads(start, moves, w) && Idle(w, n, done) && index < n && index !in done
    requires |Elements(done + [index])| == |done| + 1
    ensures Leads(start, longer, v) && 0 in v.control.delivered && v.control.delivered[0] == done + [index]
    ensures |done| + 1 < n ==> Idle(v, n, done + [index])
    ensures |done| + 1 >= n ==> 0 in v.control.retired && 0 !in v.control.core.active
  {
    longer, v := Handed(start, moves, w, (0, 0), Completed(index, 0));
    longer, v := Taken(start, longer, v, 0);
    assert v.waiters[0] == Waiter(0, 0, Admitted(Completed(index, 0)));
    assert Elements(done + [index]) == Elements(done) + {index};
    longer, v := Made(start, longer, v, CommitHeld(0));
  }

  lemma {:induction false} DeliveredUpTo(workers: nat, limit: nat, order: seq<nat>, k: nat)
    returns (moves: seq<Move>, w: World)
    requires order != [] && NoDuplicates(order) && forall p :: 0 <= p < |order| ==> order[p] < |order|
    requires k <= |order|
    ensures Leads(Start(workers, limit), moves, w)
    ensures k < |order| ==> Idle(w, |order|, order[..k])
    ensures k == |order| ==> 0 in w.control.delivered && w.control.delivered[0] == order && 0 in w.control.retired
    decreases k
  {
    if k == 0 {
      moves, w := SubmittedIdle(workers, limit, |order|);
      assert order[..0] == [];
    } else {
      moves, w := DeliveredUpTo(workers, limit, order, k - 1);
      assert order[..k] == order[..k - 1] + [order[k - 1]];
      PrefixIsNew(order, k - 1);
      moves, w := OneMoreDelivered(Start(workers, limit), moves, w, |order|, order[..k - 1], order[k - 1]);
      assert k == |order| ==> order[..k] == order;
    }
  }

  lemma PrefixIsNew(order: seq<nat>, k: nat)
    requires NoDuplicates(order) && k < |order|
    ensures order[k] !in order[..k]
    ensures |Elements(order[..k] + [order[k]])| == k + 1
  {
    var front := order[..k] + [order[k]];
    assert front == order[..k + 1];
    NoDuplicatesSize(front);
  }

  /** For every number of workers, retry limit and order of the requests there is a
      run in which the batch delivers them in that order and completes. */
  lemma CompletesInAnyOrder(workers: nat, limit: nat, order: seq<nat>) returns (moves: seq<Move>, w: World)
    requires order != [] && NoDuplicates(order) && forall p :: 0 <= p < |order| ==> order[p] < |order|
    ensures Throughout(Start(workers, limit), moves, Faithful) && w == Play(Start(workers, limit), moves)
    ensures 0 in w.control.delivered && w.control.delivered[0] == order && 0 in w.control.retired
  {
    moves, w := DeliveredUpTo(workers, limit, order, |order|);
  }
}
