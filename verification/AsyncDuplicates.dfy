// When any number of waiters can lose a batch to the duplicate failure: exactly
// when failed attempts may be retried.
module AsyncDuplicates {
  import opened Outcomes
  import opened AsyncLifecycle
  import opened AsyncSafety
  import opened AsyncProtocol
  import opened AsyncDelivery
  import opened AsyncExactlyOnce

  /** Some run of a backend that yields each request at most once fails a batch for
      a duplicate result. */
  ghost predicate CanDuplicate(workerCount: nat, retryLimit: nat) {
    exists moves, last ::
      Duplicates(Start(workerCount, retryLimit), moves, last)
  }

  ghost predicate Duplicates(start: World, moves: seq<Move>, last: Move) {
    && Throughout(start, moves, Faithful)
    && Faithful(Play(start, moves), last) && FailsAsDuplicate(Play(start, moves), last)
  }

  /** The duplicate failure can happen exactly when the retry limit is positive. */
  lemma DuplicatesExactly(workerCount: nat, retryLimit: nat)
    ensures CanDuplicate(workerCount, retryLimit) <==> retryLimit > 0
  {
    if retryLimit > 0 {
      var moves, last := TwoWaitersCanDuplicate(workerCount, retryLimit);
      assert Duplicates(Start(workerCount, retryLimit), moves, last);
    } else {
      forall moves, last ensures !Duplicates(Start(workerCount, 0), moves, last) {
        if Duplicates(Start(workerCount, 0), moves, last) {
          NoDuplicateWithoutRetries(workerCount, moves, last);
        }
      }
    }
  }

  // ----- without retries every attempt is the first -----

  ghost predicate NoRetries(s: Control) {
    s.core.retryLimit == 0 && forall obj :: obj in s.core.objects ==> s.core.objects[obj].generation == 0
  }

  lemma StepNoRetries(s: Control, block: Block)
    requires NoRetries(s)
    ensures NoRetries(Step(s, block))
  {
    match block
    case CommitResult(id, obj, index) => DeliveringObjects(s, id, obj, index);
    case RetryAttempt(id, obj, starts) =>
      assert Retry(s.core, id, obj, starts).0 == s.core;
    case _ =>
  }

  lemma MoveNoRetries(w: World, move: Move)
    requires NoRetries(w.control)
    ensures NoRetries(Apply(w, move).control)
  {
    MoveRunsBlock(w, move);
    if BlockOf(w, move).Some? {
      StepNoRetries(w.control, BlockOf(w, move).value);
    }
  }

  lemma NoRetriesCommitsCurrent(w: World, move: Move)
    requires Shape(w) && NoRetries(w.control)
    ensures CommitsCurrent(w, move)
  {
    if move.CommitHeld? && move.t in w.waiters {
      assert WaiterShape(w, move.t);
    }
  }

  lemma {:induction false} PlayWithoutRetries(w: World, moves: seq<Move>)
    requires Sound(w) && NoRetries(w.control) && Throughout(w, moves, Faithful)
    ensures Throughout(w, moves, Orderly) && Sound(Play(w, moves)) && NoRetries(Play(w, moves).control)
    decreases moves
  {
    if moves != [] {
      NoRetriesCommitsCurrent(w, moves[0]);
      MoveSound(w, moves[0]);
      MoveNoRetries(w, moves[0]);
      PlayWithoutRetries(Apply(w, moves[0]), moves[1..]);
    }
  }

  /** Without retries, no number of waiters can make a batch fail for a duplicate. */
  lemma NoDuplicateWithoutRetries(workerCount: nat, moves: seq<Move>, last: Move)
    requires Throughout(Start(workerCount, 0), moves, Faithful) && Faithful(Play(Start(workerCount, 0), moves), last)
    ensures !FailsAsDuplicate(Play(Start(workerCount, 0), moves), last)
  {
    StartSound(workerCount, 0);
    PlayWithoutRetries(Start(workerCount, 0), moves);
    NoRetriesCommitsCurrent(Play(Start(workerCount, 0), moves), last);
    NoDuplicateUnlessStale(workerCount, 0, moves, last);
  }

  // ----- with retries two waiters are enough -----

  lemma {:induction false} Extend(w: World, moves: seq<Move>, move: Move, ok: (World, Move) -> bool)
    requires Throughout(w, moves, ok) && ok(Play(w, moves), move)
    ensures Throughout(w, moves + [move], ok) && Play(w, moves + [move]) == Apply(Play(w, moves), move)
    decreases moves
  {
    if moves == [] {
      assert moves + [move] == [move];
      assert [move][1..] == [];
    } else {
      assert (moves + [move])[1..] == moves[1..] + [move];
      Extend(Apply(w, moves[0]), moves[1..], move, ok);
    }
  }

  /** A run from `start` has led to `w`. */
  ghost predicate Leads(start: World, moves: seq<Move>, w: World) {
    Throughout(start, moves, Faithful) && w == Play(start, moves)
  }

  /** The batch of two requests of the run below. */
  function PairBatch(completed: set<nat>, retries: nat): (r: ActiveBatch) {
    ActiveBatch(0, 2, completed, retries, retries, [0, 1])
  }

  function PairControl(limit: nat, completed: set<nat>, delivered: seq<nat>, retries: nat): (r: Control) {
    Control(Core(limit, 1, 1, map[0 := PairBatch(completed, retries)], map[0 := 0], map[], {}, {}),
            map[], {}, map[], map[0 := 2], map[0 := delivered], map[0 := retries], {}, {})
  }

  function PairAttempt(workers: nat, yielded: set<nat>, worker: Worker, queue: seq<Event>): (r: Attempt) {
    Attempt({0, 1}, QueueCapacity(workers, 2), false, yielded, worker, queue)
  }

  lemma Made(start: World, moves: seq<Move>, w: World, move: Move) returns (longer: seq<Move>, v: World)
    requires Leads(start, moves, w) && Faithful(w, move)
    ensures Leads(start, longer, v) && v == Apply(w, move)
  {
    Extend(start, moves, move, Faithful);
    longer, v := moves + [move], Apply(w, move);
  }

  /** The backend yields a result, or ends, and the worker hands the event on. */
  lemma Handed(start: World, moves: seq<Move>, w: World, key: AttemptKey, event: Event)
    returns (longer: seq<Move>, v: World)
    requires Leads(start, moves, w) && key in w.attempts && event.generation == key.1
    requires var a := w.attempts[key];
      && a.worker.Draining? && !a.aborted && |a.queue| < a.capacity
      && (event.Completed? ==> event.index in a.inputs && event.index !in a.yielded)
    ensures Leads(start, longer, v)
    ensures var a := w.attempts[key];
      v == SetAttempt(w, key, a.(
        yielded := if event.Completed? then a.yielded + {event.index} else a.yielded,
        worker := if event.Completed? then Draining else Ended, queue := a.queue + [event]))
  {
    longer, v := Made(start, moves, w, if event.Completed? then Fetch(key, event.index) else Finish(key, event));
    longer, v := Made(start, longer, v, CheckAbort(key));
    longer, v := Made(start, longer, v, Put(key));
  }

  /** A waiter takes the first event and finds it current. */
  lemma Taken(start: World, moves: seq<Move>, w: World, t: nat) returns (longer: seq<Move>, v: World)
    requires Leads(start, moves, w)
    requires t !in w.waiters && IsActive(w.control.core, 0, 0) && CurrentKey(w, 0) in w.attempts
    requires w.attempts[CurrentKey(w, 0)].queue != []
    requires w.attempts[CurrentKey(w, 0)].queue[0].generation == Generation(w, 0)
    ensures Leads(start, longer, v)
    ensures var key := CurrentKey(w, 0);
      && v.workerCount == w.workerCount && v.control == w.control
      && v.waiters == w.waiters[t := Waiter(0, 0, Admitted(w.attempts[key].queue[0]))]
      && v.attempts == w.attempts[key := w.attempts[key].(queue := w.attempts[key].queue[1..])]
  {
    longer, v := Made(start, moves, w, Collect(t, 0));
    longer, v := Made(start, longer, v, ReadQueue(t));
    longer, v := Made(start, longer, v, Get(t));
    longer, v := Made(start, longer, v, Admit(t, false));
  }

  lemma PairSubmitted(workers: nat, limit: nat) returns (moves: seq<Move>, w: World)
    ensures Leads(Start(workers, limit), moves, w)
    ensures w.workerCount == workers && w.control == PairControl(limit, {}, [], 0) && w.waiters == map[]
    ensures w.attempts == map[(0, 0) := PairAttempt(workers, {}, Draining, [])]
  {
    var start := Start(workers, limit);
    moves, w := [], start;
    assert Remaining(2, {}) == [0, 1];
    assert Elements([0, 1]) == {0, 1};
    moves, w := Made(start, moves, w, Block(BeginSubmit(2)));
    moves, w := Made(start, moves, w, Block(FinishSubmit(0)));
    assert w.control == PairControl(limit, {}, [], 0);
  }

  /** The backend yields request 0, which a waiter takes, and its pool breaks, which
      another waiter learns. */
  lemma BrokenBehindOne(workers: nat, limit: nat) returns (moves: seq<Move>, w: World)
    ensures Leads(Start(workers, limit), moves, w)
    ensures w.workerCount == workers && w.control == PairControl(limit, {}, [], 0)
    ensures w.waiters == map[0 := Waiter(0, 0, Admitted(Completed(0, 0))),
                             1 := Waiter(0, 0, Admitted(Failed(PoolBroken, 0)))]
  {
    var start := Start(workers, limit);
    moves, w := PairSubmitted(workers, limit);
    moves, w := Handed(start, moves, w, (0, 0), Completed(0, 0));
    moves, w := Taken(start, moves, w, 0);
    moves, w := Handed(start, moves, w, (0, 0), Failed(PoolBroken, 0));
    moves, w := Taken(start, moves, w, 1);
  }

  /** The second waiter retries the batch; the first still holds its result. */
  lemma RetriedBehindAnother(workers: nat, limit: nat) returns (moves: seq<Move>, w: World)
    requires limit > 0
    ensures Leads(Start(workers, limit), moves, w)
    ensures w.workerCount == workers && w.control == PairControl(limit, {}, [], 1)
    ensures w.waiters == map[0 := Waiter(0, 0, Admitted(Completed(0, 0)))]
    ensures (0, 1) in w.attempts && w.attempts[(0, 1)] == PairAttempt(workers, {}, Draining, [])
  {
    moves, w := BrokenBehindOne(workers, limit);
    PairRetried(limit, w);
    moves, w := Made(Start(workers, limit), moves, w, RetryHeld(1, true, false));
  }

  lemma PairRetried(limit: nat, w: World)
    requires limit > 0 && w.control == PairControl(limit, {}, [], 0)
    requires 1 in w.waiters && w.waiters[1] == Waiter(0, 0, Admitted(Failed(PoolBroken, 0)))
    ensures var v := Apply(w, RetryHeld(1, true, false));
      && v.workerCount == w.workerCount && v.control == PairControl(limit, {}, [], 1) && v.waiters == w.waiters - {1}
      && (0, 1) in v.attempts && v.attempts[(0, 1)] == PairAttempt(w.workerCount, {}, Draining, [])
  {
    assert Remaining(2, {}) == [0, 1];
    assert Elements([0, 1]) == {0, 1};
    var v := Apply(w, RetryHeld(1, true, false));
    assert v.control.core.objects == map[0 := PairBatch({}, 1)];
    assert v.control.retried == map[0 := 1];
  }

  /** With any retry limit above zero the duplicate failure does happen: the first
      waiter commits its old result, and the new attempt repeats it. */
  lemma TwoWaitersCanDuplicate(workerCount: nat, retryLimit: nat) returns (moves: seq<Move>, last: Move)
    requires retryLimit > 0
    ensures Duplicates(Start(workerCount, retryLimit), moves, last)
  {
    var start := Start(workerCount, retryLimit);
    var w;
    moves, w := RetriedBehindAnother(workerCount, retryLimit);
    moves, w := Made(start, moves, w, CommitHeld(0));
    assert w.control.core.objects[0].completed == {0};
    moves, w := Handed(start, moves, w, (0, 1), Completed(0, 1));
    moves, w := Taken(start, moves, w, 1);
    last := CommitHeld(1);
  }
}
