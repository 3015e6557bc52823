// One waiter per batch at a time, as the batch sessions keep it: results are
// delivered exactly once, and neither a duplicate nor an exhausted backend can
// make a batch fail.
module AsyncSingleWaiter {
  import opened Outcomes
  import opened AsyncLifecycle
  import opened AsyncSafety
  import opened AsyncProtocol
  import opened AsyncDelivery
  import opened AsyncExactlyOnce

  // ----- a single waiter commits what is current -----

  /** Nobody starts to collect for a batch while another call does. */
  predicate Alone(w: World, move: Move) {
    move.Collect? ==> forall t :: t in w.waiters ==> w.waiters[t].id != move.id
  }

  ghost predicate Sole(w: World) {
    forall t, u :: t in w.waiters && u in w.waiters && t != u ==> w.waiters[t].id != w.waiters[u].id
  }

  /** What a waiter has found current stays current. */
  ghost predicate AdmittedCurrent(w: World) {
    forall t :: t in w.waiters && w.waiters[t].phase.Admitted? && w.waiters[t].obj in w.control.core.objects ==>
      w.waiters[t].phase.event.generation == Generation(w, w.waiters[t].obj)
  }

  lemma RetrySole(w: World, t: nat, starts: bool, again: bool)
    requires Shape(w) && Sole(w) && AdmittedCurrent(w)
    ensures Sole(RunRetryHeld(w, t, starts, again)) && AdmittedCurrent(RunRetryHeld(w, t, starts, again))
  {
    if t in w.waiters && w.waiters[t].phase.Admitted? && Retryable(w.waiters[t].phase.event) {
      var obj := w.waiters[t].obj;
      RetryIsRetried(w, t, starts, again);
      RetriedAges(w, w.waiters[t].id, obj, starts);
      forall u | u in w.waiters && u != t ensures w.waiters[u].obj != obj {
        assert WaiterShape(w, u) && WaiterShape(w, t);
      }
    }
  }

  lemma CommitSole(w: World, t: nat)
    requires Sole(w) && AdmittedCurrent(w)
    ensures Sole(RunCommitHeld(w, t)) && AdmittedCurrent(RunCommitHeld(w, t))
  {
    if t in w.waiters && w.waiters[t].phase.Admitted? && w.waiters[t].phase.event.Completed? {
      DeliveringObjects(w.control, w.waiters[t].id, w.waiters[t].obj, w.waiters[t].phase.event.index);
    }
  }

  lemma BlockSole(w: World, block: Block)
    requires Shape(w) && Owned(w.control) && Sole(w) && AdmittedCurrent(w)
    ensures Sole(RunBlock(w, block)) && AdmittedCurrent(RunBlock(w, block))
  {
    if !ForWaiters(block) {
      BlockKeepsObjects(w.control, block);
      BlockMakes(w, block);
      forall t | t in w.waiters ensures w.waiters[t].obj in w.control.core.objects {
        assert WaiterShape(w, t);
      }
    }
  }

  lemma WaiterSole(w: World, move: Move)
    requires Sole(w) && AdmittedCurrent(w) && Alone(w, move)
    requires move.Collect? || move.ReadQueue? || move.Get? || move.FindEmpty?
      || move.Admit? || move.Decline? || move.FailHeld?
    ensures Sole(Apply(w, move)) && AdmittedCurrent(Apply(w, move))
  {
    match move
    case Admit(t, again) => AdmitSole(w, t, again);
    case FailHeld(t) => FailSole(w, t);
    case _ =>
  }

  lemma AdmitSole(w: World, t: nat, again: bool)
    requires Sole(w) && AdmittedCurrent(w)
    ensures Sole(RunAdmit(w, t, again)) && AdmittedCurrent(RunAdmit(w, t, again))
  {
  }

  lemma FailSole(w: World, t: nat)
    requires Sole(w) && AdmittedCurrent(w)
    ensures Sole(RunFailHeld(w, t)) && AdmittedCurrent(RunFailHeld(w, t))
  {
  }

  lemma MoveSole(w: World, move: Move)
    requires Shape(w) && Owned(w.control) && Sole(w) && AdmittedCurrent(w) && Alone(w, move)
    ensures Sole(Apply(w, move)) && AdmittedCurrent(Apply(w, move)) && CommitsCurrent(w, move)
  {
    match move
    case Block(block) => BlockSole(w, block);
    case CommitHeld(t) => CommitSole(w, t);
    case RetryHeld(t, starts, again) => RetrySole(w, t, starts, again);
    case _ =>
      if !(move.Abort? || move.Fetch? || move.Finish? || move.CheckAbort? || move.Put?) {
        WaiterSole(w, move);
      }
  }

  /** A backend that yields each request once, and one waiter per batch. */
  predicate Single(w: World, move: Move) {
    Faithful(w, move) && Alone(w, move)
  }

  lemma {:induction false} SinglePlay(w: World, moves: seq<Move>)
    requires Sound(w) && Fresh(w) && Sole(w) && AdmittedCurrent(w) && Throughout(w, moves, Single)
    ensures var v := Play(w, moves); Sound(v) && Fresh(v) && Sole(v) && AdmittedCurrent(v)
    decreases moves
  {
    if moves != [] {
      MoveSole(w, moves[0]);
      MoveSound(w, moves[0]);
      MoveFresh(w, moves[0]);
      SinglePlay(Apply(w, moves[0]), moves[1..]);
    }
  }

  /** With one waiter per batch and a backend that yields each request at most
      once, the duplicate failure cannot happen, whatever is retried, suspended,
      resumed, cancelled or discarded meanwhile. */
  lemma NoDuplicateWithOneWaiter(workerCount: nat, retryLimit: nat, moves: seq<Move>, last: Move)
    requires Throughout(Start(workerCount, retryLimit), moves, Single)
    requires Single(Play(Start(workerCount, retryLimit), moves), last)
    ensures !FailsAsDuplicate(Play(Start(workerCount, retryLimit), moves), last)
  {
    var start := Start(workerCount, retryLimit);
    StartSound(workerCount, retryLimit);
    SinglePlay(start, moves);
    MoveSole(Play(start, moves), last);
    MoveFresh(Play(start, moves), last);
  }
}
