// The whole asynchronous protocol: drain workers feeding bounded queues, any
// number of waiters taking events from them, and the lock-guarded blocks of
// AsyncLifecycle, interleaved in any order
// (src/variopt/evaluators/joblib/asynchronous.py).
module AsyncProtocol {
  import opened Outcomes
  import opened AsyncLifecycle
  import opened AsyncSafety

  /** How a drained result stream can break. */
  datatype Failure = Interrupted | PoolBroken | OtherFailure

  /** What a drain worker puts into its queue; `generation` is the attempt's. */
  datatype Event =
    | Completed(index: nat, generation: nat)
    | Failed(failure: Failure, generation: nat)
    | Exhausted(generation: nat)

  /** The drain worker: waiting for the backend, holding an event it wants to put
      (`ready` once it has seen that the attempt is not aborted), or ended. */
  datatype Worker = Draining | Offering(event: Event, ready: bool) | Ended

  datatype Attempt = Attempt(
    inputs: set<nat>, capacity: nat, aborted: bool, yielded: set<nat>, worker: Worker, queue: seq<Event>)

  /** A call that collects a completion group: the batch object it looked up, and
      how far it is. `Reading` has fetched the queue of one attempt; `Holding` has
      taken an event; `Admitted` has found it current; `GivingUp` cannot retry. */
  datatype Phase = Polling | Reading(generation: nat) | Holding(event: Event) | Admitted(event: Event) | GivingUp

  datatype Waiter = Waiter(id: BatchId, obj: Identity, phase: Phase)

  type AttemptKey = (Identity, nat)

  datatype World = World(
    workerCount: nat, control: Control, attempts: map<AttemptKey, Attempt>, waiters: map<nat, Waiter>)

  datatype Move =
    | Block(block: Block)
    | Abort(obj: Identity)
    | Fetch(key: AttemptKey, index: nat)
    | Finish(key: AttemptKey, event: Event)
    | CheckAbort(key: AttemptKey)
    | Put(key: AttemptKey)
    | Collect(t: nat, id: BatchId)
    | ReadQueue(t: nat)
    | Get(t: nat)
    | FindEmpty(t: nat, again: bool)
    | Admit(t: nat, again: bool)
    | CommitHeld(t: nat)
    | RetryHeld(t: nat, starts: bool, again: bool)
    | Decline(t: nat)
    | FailHeld(t: nat)

  const COMPLETIONS_PER_WORKER := 2
  const TERMINAL_EVENTS := 1

  /** Capacity of the handoff queue of one attempt. */
  function QueueCapacity(workerCount: nat, requestCount: nat): (r: nat) {
    Min(requestCount + TERMINAL_EVENTS, workerCount * COMPLETIONS_PER_WORKER + TERMINAL_EVENTS)
  }

  function NewAttempt(w: World, inputs: seq<nat>): (r: Attempt) {
    Attempt(Elements(inputs), QueueCapacity(w.workerCount, |inputs|), false, {}, Draining, [])
  }

  function Generation(w: World, obj: Identity): (r: nat)
    requires obj in w.control.core.objects
  {
    w.control.core.objects[obj].generation
  }

  /** The key of the running attempt of a batch object. */
  function CurrentKey(w: World, obj: Identity): (r: AttemptKey)
    requires obj in w.control.core.objects
  {
    (obj, Generation(w, obj))
  }

  // ----- the lock-guarded blocks, seen from the protocol -----

  /** Blocks that only a waiter runs, with the event it holds. */
  predicate ForWaiters(block: Block) {
    block.CommitResult? || block.RetryAttempt? || block.FailBatch?
  }

  /** A block; when it makes a batch object, the first attempt starts draining. */
  function RunBlock(w: World, block: Block): (r: World) {
    if ForWaiters(block) then w
    else
      var next, made := Step(w.control, block), w.control.core.nextIdentity;
      if (block.BeginSubmit? || block.StartResumed?) && made in next.core.objects
      then w.(control := next, attempts := w.attempts[(made, 0) := NewAttempt(w, next.core.objects[made].inputs)])
      else w.(control := next)
  }

  /** The object is in use: registered, being submitted, or being resumed. */
  predicate Live(s: Control, obj: Identity) {
    obj in s.core.objects
    && var id := s.core.objects[obj].owner;
       || (id in s.core.active && s.core.active[id] == obj)
       || (id in s.starting && s.starting[id] == obj)
       || (id in s.resumptions && s.resumptions[id].started == Some(obj))
  }

  /** Whoever took a batch out of use aborts its running attempt afterwards. */
  function RunAbort(w: World, obj: Identity): (r: World) {
    if obj in w.control.core.objects && !Live(w.control, obj) && CurrentKey(w, obj) in w.attempts
    then
      var key := CurrentKey(w, obj);
      w.(attempts := w.attempts[key := w.attempts[key].(aborted := true)])
    else w
  }

  // ----- the drain worker -----

  function SetAttempt(w: World, key: AttemptKey, a: Attempt): (r: World) {
    w.(attempts := w.attempts[key := a])
  }

  function RunFetch(w: World, key: AttemptKey, index: nat): (r: World) {
    if key in w.attempts && w.attempts[key].worker.Draining?
    then
      var a := w.attempts[key];
      SetAttempt(w, key, a.(yielded := a.yielded + {index}, worker := Offering(Completed(index, key.1), false)))
    else w
  }

  /** The result stream ends, by exhaustion or with a failure. */
  function RunFinish(w: World, key: AttemptKey, event: Event): (r: World) {
    if key in w.attempts && w.attempts[key].worker.Draining? && !event.Completed? && event.generation == key.1
    then SetAttempt(w, key, w.attempts[key].(worker := Offering(event, false)))
    else w
  }

  function RunCheckAbort(w: World, key: AttemptKey): (r: World) {
    if key in w.attempts && w.attempts[key].worker.Offering? && !w.attempts[key].worker.ready
    then
      var a := w.attempts[key];
      SetAttempt(w, key, a.(worker := if a.aborted then Ended else a.worker.(ready := true)))
    else w
  }

  /** One timed put: it succeeds unless the queue is full. */
  function RunPut(w: World, key: AttemptKey): (r: World) {
    if key in w.attempts && w.attempts[key].worker.Offering? && w.attempts[key].worker.ready
    then
      var a := w.attempts[key];
      if |a.queue| >= a.capacity then SetAttempt(w, key, a.(worker := a.worker.(ready := false)))
      else SetAttempt(w, key, a.(queue := a.queue + [a.worker.event],
                                 worker := if a.worker.event.Completed? then Draining else Ended))
    else w
  }

  // ----- the waiters -----

  function At(w: World, t: nat, phase: Phase): (r: World)
    requires t in w.waiters
  {
    w.(waiters := w.waiters[t := w.waiters[t].(phase := phase)])
  }

  function Leave(w: World, t: nat): (r: World) {
    w.(waiters := w.waiters - {t})
  }

  function RunCollect(w: World, t: nat, id: BatchId): (r: World) {
    if t !in w.waiters && id in w.control.core.active
    then w.(waiters := w.waiters[t := Waiter(id, w.control.core.active[id], Polling)])
    else w
  }

  function RunReadQueue(w: World, t: nat): (r: World) {
    if t in w.waiters && w.waiters[t].phase.Polling? && w.waiters[t].obj in w.control.core.objects
    then At(w, t, Reading(Generation(w, w.waiters[t].obj)))
    else w
  }

  function RunGet(w: World, t: nat): (r: World) {
    if t in w.waiters && w.waiters[t].phase.Reading?
    then
      var key := (w.waiters[t].obj, w.waiters[t].phase.generation);
      if key in w.attempts && w.attempts[key].queue != []
      then
        var a := w.attempts[key];
        At(SetAttempt(w, key, a.(queue := a.queue[1..])), t, Holding(a.queue[0]))
      else w
    else w
  }

  /** The queue stayed empty: a blocking call may look again while it owns the
      batch; otherwise it returns nothing or fails as inactive. */
  function RunFindEmpty(w: World, t: nat, again: bool): (r: World) {
    if t in w.waiters && w.waiters[t].phase.Reading?
    then
      var x := w.waiters[t];
      var key := (x.obj, x.phase.generation);
      if key in w.attempts && w.attempts[key].queue == []
      then if again && IsActive(w.control.core, x.id, x.obj) then At(w, t, Polling) else Leave(w, t)
      else w
    else w
  }

  function RunAdmit(w: World, t: nat, again: bool): (r: World) {
    if t in w.waiters && w.waiters[t].phase.Holding?
    then
      var x := w.waiters[t];
      if !IsActive(w.control.core, x.id, x.obj) then Leave(w, t)
      else if x.phase.event.generation != Generation(w, x.obj)
      then if again then At(w, t, Polling) else Leave(w, t)
      else At(w, t, Admitted(x.phase.event))
    else w
  }

  function RunCommitHeld(w: World, t: nat): (r: World) {
    if t in w.waiters && w.waiters[t].phase.Admitted? && w.waiters[t].phase.event.Completed?
    then
      var x := w.waiters[t];
      Leave(w.(control := Delivering(w.control, x.id, x.obj, x.phase.event.index)), t)
    else w
  }

  /** Exhaustion and a broken process pool may be retried. */
  predicate Retryable(event: Event) {
    event.Exhausted? || (event.Failed? && event.failure.PoolBroken?)
  }

  function RunRetryHeld(w: World, t: nat, starts: bool, again: bool): (r: World) {
    if t in w.waiters && w.waiters[t].phase.Admitted? && Retryable(w.waiters[t].phase.event)
    then
      var x := w.waiters[t];
      var verdict := Retry(w.control.core, x.id, x.obj, starts).1;
      var next := w.(control := Retrying(w.control, x.id, x.obj, starts));
      match verdict
      case RetryInactive => Leave(w, t)
      case Declined => At(w, t, GivingUp)
      case RestartFailed => Leave(AbortOld(next, x.obj, Generation(w, x.obj)), t)
      case Restarted =>
        var restarted := StartNew(AbortOld(next, x.obj, Generation(w, x.obj)), x.obj);
        if again then At(restarted, t, Polling) else Leave(restarted, t)
    else w
  }

  function AbortOld(w: World, obj: Identity, generation: nat): (r: World)
    ensures r.waiters == w.waiters && r.control == w.control
  {
    if (obj, generation) in w.attempts
    then SetAttempt(w, (obj, generation), w.attempts[(obj, generation)].(aborted := true))
    else w
  }

  function StartNew(w: World, obj: Identity): (r: World)
    ensures r.waiters == w.waiters && r.control == w.control
  {
    if obj in w.control.core.objects
    then SetAttempt(w, CurrentKey(w, obj), NewAttempt(w, w.control.core.objects[obj].inputs))
    else w
  }

  function RunDecline(w: World, t: nat): (r: World) {
    if t in w.waiters && w.waiters[t].phase.Admitted?
       && w.waiters[t].phase.event.Failed? && !Retryable(w.waiters[t].phase.event)
    then At(w, t, GivingUp)
    else w
  }

  function RunFailHeld(w: World, t: nat): (r: World) {
    if t in w.waiters && w.waiters[t].phase.GivingUp?
    then Leave(w.(control := Failing(w.control, w.waiters[t].id, w.waiters[t].obj)), t)
    else w
  }

  // ----- any interleaving -----

  function Apply(w: World, move: Move): (r: World) {
    match move
    case Block(block) => RunBlock(w, block)
    case Abort(obj) => RunAbort(w, obj)
    case Fetch(key, index) => RunFetch(w, key, index)
    case Finish(key, event) => RunFinish(w, key, event)
    case CheckAbort(key) => RunCheckAbort(w, key)
    case Put(key) => RunPut(w, key)
    case Collect(t, id) => RunCollect(w, t, id)
    case ReadQueue(t) => RunReadQueue(w, t)
    case Get(t) => RunGet(w, t)
    case FindEmpty(t, again) => RunFindEmpty(w, t, again)
    case Admit(t, again) => RunAdmit(w, t, again)
    case CommitHeld(t) => RunCommitHeld(w, t)
    case RetryHeld(t, starts, again) => RunRetryHeld(w, t, starts, again)
    case Decline(t) => RunDecline(w, t)
    case FailHeld(t) => RunFailHeld(w, t)
  }

  function Start(workerCount: nat, retryLimit: nat): (r: World) {
    World(workerCount, Initial(retryLimit), map[], map[])
  }

  function Play(w: World, moves: seq<Move>): (r: World)
    decreases moves
  {
    if moves == [] then w else Play(Apply(w, moves[0]), moves[1..])
  }

  /** Every move of the run meets a condition on the state it is made in. */
  predicate Throughout(w: World, moves: seq<Move>, ok: (World, Move) -> bool)
    decreases moves
  {
    moves == [] || (ok(w, moves[0]) && Throughout(Apply(w, moves[0]), moves[1..], ok))
  }

  /** The backend yields only requests of the attempt ... */
  predicate Genuine(w: World, move: Move) {
    move.Fetch? && move.key in w.attempts ==> move.index in w.attempts[move.key].inputs
  }

  /** ... and each at most once. */
  predicate Faithful(w: World, move: Move) {
    && Genuine(w, move)
    && (move.Fetch? && move.key in w.attempts ==> move.index !in w.attempts[move.key].yielded)
  }

  // ----- the protocol refines the lifecycle -----

  /** The block of AsyncLifecycle that a move amounts to, if any. */
  function BlockOf(w: World, move: Move): (r: Option<Block>) {
    match move
    case Block(block) => if ForWaiters(block) then None else Some(block)
    case CommitHeld(t) =>
      if t in w.waiters && w.waiters[t].phase.Admitted? && w.waiters[t].phase.event.Completed?
      then Some(CommitResult(w.waiters[t].id, w.waiters[t].obj, w.waiters[t].phase.event.index))
      else None
    case RetryHeld(t, starts, again) =>
      if t in w.waiters && w.waiters[t].phase.Admitted? && Retryable(w.waiters[t].phase.event)
      then Some(RetryAttempt(w.waiters[t].id, w.waiters[t].obj, starts))
      else None
    case FailHeld(t) =>
      if t in w.waiters && w.waiters[t].phase.GivingUp?
      then Some(FailBatch(w.waiters[t].id, w.waiters[t].obj))
      else None
    case _ => None
  }

  /** Every move changes the shared lifecycle state by at most one block, so the
      safety of AsyncSafety carries over to the whole protocol. */
  lemma MoveRunsBlock(w: World, move: Move)
    ensures Apply(w, move).control == match BlockOf(w, move)
      case None => w.control
      case Some(block) => Step(w.control, block)
  {
  }

  lemma MoveSafe(w: World, move: Move)
    requires Safe(w.control)
    ensures Safe(Apply(w, move).control)
  {
    MoveRunsBlock(w, move);
    if BlockOf(w, move).Some? {
      StepSafe(w.control, BlockOf(w, move).value);
    }
  }
}
