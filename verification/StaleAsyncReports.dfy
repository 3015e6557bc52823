// What a stale-asynchronous run reports: its accounting over every completion
// order, when a report is refused, which checkpoint it returns, and the tight
// bound on the overshoot of slot mode.
module StaleAsyncReports {
  import opened Outcomes
  import opened RunHistory
  import opened StudyRun
  import opened StudyRunSafety
  import opened StaleAsync
  import opened StaleAsyncLoop
  import opened StaleAsyncSafety
  import opened StaleAsyncDelivery

  // ----- how a run ends -----

  /** A history counts costs in cost mode, and slots in slot mode. */
  ghost predicate CountedAs(cfg: Settings, h: History) {
    h.evaluationCount == if cfg.countCost then AttemptCost(h) else AttemptCount(h)
  }

  /** The heads recorded so far belong to one growing history, and the snapshot is
      the latest safe one among them. */
  ghost predicate Chained(m: RunMethod, cfg: Settings, s: Stale) {
    && |s.heads| > 0
    && (forall k :: 0 <= k < |s.heads| ==>
          Extends(s.history, s.heads[k].history) && CountedAs(cfg, s.heads[k].history))
    && s.snapshot == (if cfg.stopAtCheckpoint then LatestCut(m, s.heads) else None)
  }

  /** The history is that of the latest head; with nothing in flight, so is the state. */
  ghost predicate UpToDate(s: Stale) {
    |s.heads| > 0 && s.heads[|s.heads| - 1].history == s.history
    && (Outstanding(s) == 0 ==> s.heads[|s.heads| - 1].state == s.state)
  }

  /** The budget covers the costs of the history in cost mode. In slot mode it counts
      its slots, which are less than one batch above it. */
  ghost predicate Counted(cfg: Settings, s: Stale) {
    && s.remaining <= cfg.maxEvaluations && CountedAs(cfg, s.history)
    && (cfg.countCost ==> s.history.evaluationCount <= cfg.maxEvaluations - s.remaining)
    && (!cfg.countCost ==>
          && s.history.evaluationCount == cfg.maxEvaluations - s.remaining
          && s.history.evaluationCount <= Submitted(s.sizes)
          && (s.sizes != [] ==> Submitted(s.sizes) <= cfg.maxEvaluations + Window(cfg) - 1))
  }

  ghost predicate FailsBy(cfg: Settings, last: Stale, ending: Ending, cause: Cause)
    requires last.remaining <= cfg.maxEvaluations
  {
    ending == FailedAt(cfg, last.history, cfg.maxEvaluations - last.remaining, last.state, last.snapshot, cause)
  }

  ghost predicate EndsBy(m: RunMethod, cfg: Settings, last: Stale, ending: Ending)
    requires last.remaining <= cfg.maxEvaluations
  {
    || (exists cause :: FailsBy(cfg, last, ending, cause))
    || (cfg.stopAtCheckpoint && last.snapshot.Some?
        && ending == ReturnedOr(Project(last.snapshot.value, last.history), last.snapshot.value.state))
    || (ending == ClosedAt(m, cfg, last.history, last.state, last.snapshot)
        && last.heads != [] && last.heads[|last.heads| - 1] == Head(last.state, last.history))
  }

  ghost predicate Proper(m: RunMethod, cfg: Settings, t: Transition) {
    match t
    case Go(next) => Chained(m, cfg, next) && UpToDate(next)
    case Halt(ending, last) => Chained(m, cfg, last) && Counted(cfg, last) && EndsBy(m, cfg, last, ending)
  }

  lemma FailedProper(m: RunMethod, cfg: Settings, s: Stale, cause: Cause)
    requires Chained(m, cfg, s) && Counted(cfg, s)
    ensures Proper(m, cfg, StaleFailed(cfg, s, cause))
  {
    assert FailsBy(cfg, s, StaleFailed(cfg, s, cause).ending, cause);
  }

  lemma AccountsCounted(cfg: Settings, s: Stale)
    requires Accounts(cfg, s)
    ensures Counted(cfg, s)
  {
    OpenSlotsNonNegative(s.active);
  }

  lemma OpenProper(m: RunMethod, b: Backend, cfg: Settings, s: Stale, size: nat)
    requires Accounts(cfg, s) && Chained(m, cfg, s) && UpToDate(s)
    requires s.remaining > 0 && size <= s.remaining && Outstanding(s) + size <= Window(cfg)
    ensures Proper(m, cfg, OpenBatch(m, b, cfg, s, size))
  {
    AccountsCounted(cfg, s);
    OpenBalanced(m, b, cfg, s, size);
    var opening := OpenBatch(m, b, cfg, s, size);
    if opening.Halt? {
      OpenFailure(m, b, cfg, s, size);
    }
  }

  lemma OpenFailure(m: RunMethod, b: Backend, cfg: Settings, s: Stale, size: nat)
    requires Chained(m, cfg, s) && Counted(cfg, s) && OpenBatch(m, b, cfg, s, size).Halt?
    ensures Proper(m, cfg, OpenBatch(m, b, cfg, s, size))
  {
    var (opening, left) := Opening(m, b, cfg, s.state, size, s.remaining, |s.sizes|);
    FailedProper(m, cfg, s.(remaining := left), opening.error);
  }

  lemma PollProper(m: RunMethod, b: Backend, cfg: Settings, s: Stale)
    requires Accounts(cfg, s) && Chained(m, cfg, s) && UpToDate(s) && s.queue != [] && s.groups == []
    ensures Proper(m, cfg, PollNext(b, cfg, s))
  {
    AccountsCounted(cfg, s);
    var position := s.queue[0];
    var polled, result := s.(polls := s.polls + 1, queue := s.queue[1..]), b.poll(s.polls, s.active[position]);
    if result.Err? {
      FailedProper(m, cfg, polled, result.error);
    } else if Accepted(s.active[position], result.value).Err? {
      FailedProper(m, cfg, polled, Accepted(s.active[position], result.value).error);
    } else {
      AcceptedProper(m, b, cfg, s);
    }
  }

  lemma AcceptedProper(m: RunMethod, b: Backend, cfg: Settings, s: Stale)
    requires Accounts(cfg, s) && Chained(m, cfg, s) && UpToDate(s) && s.queue != [] && s.groups == []
    requires PollNext(b, cfg, s).Go?
    ensures Proper(m, cfg, PollNext(b, cfg, s))
  {
    var next := PollKeepsOutstanding(b, cfg, s);
    assert Chained(m, cfg, next);
  }

  /** What a poll moves from the sessions to the groups stays outstanding. */
  lemma PollKeepsOutstanding(b: Backend, cfg: Settings, s: Stale) returns (next: Stale)
    requires Accounts(cfg, s) && s.queue != [] && s.groups == [] && PollNext(b, cfg, s).Go?
    ensures PollNext(b, cfg, s) == Go(next) && Outstanding(next) == Outstanding(s)
    ensures next == s.(polls := next.polls, queue := next.queue, active := next.active,
                       groups := next.groups, owner := next.owner)
  {
    next := PollNext(b, cfg, s).next;
    var position := s.queue[0];
    AcceptedSlots(s.active[position], next.groups);
    OpenSlotsUpdate(s.active, position, next.active[position]);
  }

  /** A told state becomes the latest head. */
  lemma ToldProper(m: RunMethod, cfg: Settings, s: Stale, next: State)
    requires |s.heads| > 0 && Counted(cfg, s)
    requires forall k :: 0 <= k < |s.heads| ==>
      Extends(s.history, s.heads[k].history) && CountedAs(cfg, s.heads[k].history)
    requires s.snapshot == (if cfg.stopAtCheckpoint then LatestCut(m, s.heads) else None)
    ensures Proper(m, cfg, StaleTold(m, cfg, s, next))
    ensures StaleTold(m, cfg, s, next).Go? ==>
      var after := StaleTold(m, cfg, s, next).next;
      after.heads[|after.heads| - 1] == Head(after.state, after.history)
  {
    LatestCutAppend(m, s.heads, Head(next, s.history));
  }

  lemma LatestCutAppend(m: RunMethod, heads: seq<Head>, head: Head)
    ensures LatestCut(m, heads + [head]) ==
      if m.isSafe(head.state) then Some(TakeSnapshot(head.history, head.state)) else LatestCut(m, heads)
  {
    assert (heads + [head])[..|heads|] == heads;
  }

  lemma ChargedCounted(cfg: Settings, s: Stale)
    requires Accounts(cfg, s) && s.groups != [] && ChargedGroup(cfg, s).Ok?
    ensures var charged := ChargedGroup(cfg, s).value;
      Counted(cfg, charged) && Extends(charged.history, s.history)
  {
    ChargedAhead(cfg, s);
    OpenSlotsNonNegative(s.active);
  }

  lemma AssimilateProper(m: RunMethod, b: Backend, cfg: Settings, s: Stale)
    requires Accounts(cfg, s) && Chained(m, cfg, s) && UpToDate(s) && s.groups != []
    ensures Proper(m, cfg, AssimilateNext(m, b, cfg, s))
  {
    AccountsCounted(cfg, s);
    var told := AssimilateGroup(m, cfg, s);
    GroupProper(m, cfg, s);
    if told.Go? {
      ToldBalanced(m, cfg, s);
      if MayOpen(m, told.next) {
        OpenProper(m, b, cfg, told.next, Min(|s.groups[0].attempts|, told.next.remaining));
      }
    }
  }

  lemma GroupProper(m: RunMethod, cfg: Settings, s: Stale)
    requires Accounts(cfg, s) && Chained(m, cfg, s) && s.groups != []
    ensures Proper(m, cfg, AssimilateGroup(m, cfg, s))
  {
    AccountsCounted(cfg, s);
    var charged := ChargedGroup(cfg, s);
    if charged.Ok? {
      ChargedCounted(cfg, s);
      var told := m.tellAttempts(s.state, s.groups[0].attempts);
      forall k | 0 <= k < |s.heads| ensures Extends(charged.value.history, s.heads[k].history) {
        assert Extends(s.history, s.heads[k].history);
      }
      if told.Ok? {
        ToldProper(m, cfg, RecordedGroup(charged.value), told.value);
      } else {
        FailedProper(m, cfg, charged.value, told.error);
      }
    } else {
      FailedProper(m, cfg, s, charged.error);
    }
  }

  lemma StepProper(m: RunMethod, b: Backend, cfg: Settings, s: Stale)
    requires Accounts(cfg, s) && Chained(m, cfg, s) && UpToDate(s)
    ensures Proper(m, cfg, StaleStep(m, b, cfg, s))
  {
    AccountsCounted(cfg, s);
    if s.groups != [] {
      AssimilateProper(m, b, cfg, s);
    } else if s.inRound && s.queue != [] {
      PollProper(m, b, cfg, s);
    } else if s.inRound {
      OpenSlotsUnfinished(s.active);
    } else if s.active == [] && MayOpen(m, s) {
      OpenProper(m, b, cfg, s, Min(cfg.batchSize, s.remaining));
    }
  }

  lemma BeginProper(m: RunMethod, cfg: Settings, initial: State)
    ensures var s := StaleBegin(m, cfg, initial); Accounts(cfg, s) && Chained(m, cfg, s) && UpToDate(s)
  {
    var heads := [Head(initial, EMPTY_HISTORY)];
    assert heads[..0] == [];
    BeginBalanced(m, cfg, initial);
  }

  /** What holds after every action of a run that goes on. */
  ghost predicate Good(m: RunMethod, cfg: Settings, s: Stale) {
    Accounts(cfg, s) && Tells(s) && Chained(m, cfg, s) && UpToDate(s)
  }

  lemma StepGood(m: RunMethod, b: Backend, cfg: Settings, s: Stale)
    requires Good(m, cfg, s)
    ensures match StaleStep(m, b, cfg, s)
      case Go(next) => Good(m, cfg, next)
      case Halt(ending, last) => Chained(m, cfg, last) && Counted(cfg, last) && EndsBy(m, cfg, last, ending)
  {
    StepAccounts(m, b, cfg, s);
    StepTells(m, b, cfg, s);
    StepProper(m, b, cfg, s);
  }

  ghost predicate GoodEnd(m: RunMethod, cfg: Settings, outcome: (Option<Ending>, Stale)) {
    var (ending, last) := outcome;
    if ending.None? then Good(m, cfg, last)
    else Chained(m, cfg, last) && Counted(cfg, last) && EndsBy(m, cfg, last, ending.value)
  }

  lemma RunGood(m: RunMethod, b: Backend, cfg: Settings, s: Stale, fuel: nat)
    requires Good(m, cfg, s)
    ensures GoodEnd(m, cfg, StaleFrom(m, b, cfg, s, fuel))
  {
    var good := (x: Stale) => Good(m, cfg, x);
    var ended := (ending: Ending, last: Stale) =>
      Chained(m, cfg, last) && Counted(cfg, last) && EndsBy(m, cfg, last, ending);
    forall x: Stale | good(x) && TakesOf(cfg)(x) ensures KeptBy(good, ended, ActionOf(m, b, cfg)(x)) {
      StepGood(m, b, cfg, x);
    }
    StepsKeep(TakesOf(cfg), ActionOf(m, b, cfg), good, ended, s, fuel);
  }

  lemma RunIsGood(m: RunMethod, b: Backend, cfg: Settings, initial: State, fuel: nat)
    ensures GoodEnd(m, cfg, StaleFrom(m, b, cfg, StaleBegin(m, cfg, initial), fuel))
  {
    BeginProper(m, cfg, initial);
    BeginTells(m, cfg, initial);
    RunGood(m, b, cfg, StaleBegin(m, cfg, initial), fuel);
  }

  // ----- accounting at every action -----

  /** Cost mode, after any number of actions: the ledger has lost what the
      assimilated groups cost, each at least its slots, and the slots in flight;
      these stay within one batch, and all submitted slots within the budget. */
  lemma CostModeAccounting(m: RunMethod, b: Backend, cfg: Settings, initial: State, fuel: nat)
    requires cfg.countCost
    requires StaleFrom(m, b, cfg, StaleBegin(m, cfg, initial), fuel).0.None?
    ensures var s := StaleFrom(m, b, cfg, StaleBegin(m, cfg, initial), fuel).1;
      && cfg.maxEvaluations - s.remaining == Spent(s.assimilated) + Outstanding(s)
      && 0 <= Outstanding(s) <= cfg.batchSize
      && Submitted(s.sizes) == SlotCount(s.assimilated) + Outstanding(s) <= cfg.maxEvaluations
  {
    RunIsGood(m, b, cfg, initial, fuel);
    OpenSlotsNonNegative(StaleFrom(m, b, cfg, StaleBegin(m, cfg, initial), fuel).1.active);
  }

  /** Slot mode: slots in flight are not reserved, so the assimilated ones may
      overshoot the budget, but by less than one batch, however the run ends. */
  lemma SlotModeOvershoot(m: RunMethod, b: Backend, cfg: Settings, initial: State, fuel: nat)
    requires !cfg.countCost && cfg.maxEvaluations > 0 && cfg.batchSize > 0
    ensures var (ending, s) := StaleFrom(m, b, cfg, StaleBegin(m, cfg, initial), fuel);
      && AttemptCount(s.history) == cfg.maxEvaluations - s.remaining
      && AttemptCount(s.history) <= Submitted(s.sizes) <= cfg.maxEvaluations + Window(cfg) - 1
      && Window(cfg) <= cfg.batchSize
      && (ending.None? ==> SlotCount(s.assimilated) == AttemptCount(s.history))
  {
    RunIsGood(m, b, cfg, initial, fuel);
    var (ending, s) := StaleFrom(m, b, cfg, StaleBegin(m, cfg, initial), fuel);
    if ending.None? {
      AccountsCounted(cfg, s);
    }
  }

  /** The outer loop is left: nothing is in flight and nothing more may start. */
  predicate Exits(m: RunMethod, s: Stale) {
    s.groups == [] && !s.inRound && s.active == [] && !MayOpen(m, s)
  }

  /** When the loop is left normally, every submitted request has been told exactly
      once; `fuel` actions have led there. */
  lemma AllToldOnExit(m: RunMethod, b: Backend, cfg: Settings, initial: State, fuel: nat, t: nat)
    requires var (ending, s) := StaleFrom(m, b, cfg, StaleBegin(m, cfg, initial), fuel);
      ending.None? && Exits(m, s) && t < |s.sizes|
    ensures var s := StaleFrom(m, b, cfg, StaleBegin(m, cfg, initial), fuel).1;
      && |s.told| == |s.sizes| && NoDuplicates(s.told[t])
      && (forall i :: i in s.told[t] <==> 0 <= i < s.sizes[t])
      && InBounds(cfg, s) && StaleStep(m, b, cfg, s) == Halt(ClosedAt(m, cfg, s.history, s.state, s.snapshot), s)
  {
    RunIsGood(m, b, cfg, initial, fuel);
    var s := StaleFrom(m, b, cfg, StaleBegin(m, cfg, initial), fuel).1;
    assert ToldOnce(s, t);
    assert Pending(s, t) == {};
    assert Elements(s.told[t]) == AllSlots(s.sizes[t]);
    forall i ensures i in s.told[t] <==> 0 <= i < s.sizes[t] {
      assert i >= 0 ==> (i in s.told[t] <==> i in Elements(s.told[t]));
    }
  }

  // ----- what the ending says -----

  /** The snapshot shows its head, whatever has been appended since. */
  lemma SnapshotIsHead(m: RunMethod, cfg: Settings, s: Stale)
    requires Chained(m, cfg, s) && s.snapshot.Some?
    ensures LatestSafe(m, s.heads).Some?
    ensures var head := s.heads[LatestSafe(m, s.heads).value];
      && s.snapshot.value.state == head.state
      && Project(s.snapshot.value, s.history) == MakeReport(head.history, head.history.evaluationCount)
      && (cfg.countCost ==> Project(s.snapshot.value, s.history).Some?)
  {
    var head := s.heads[LatestSafe(m, s.heads).value];
    SnapshotsAreStable(head.history, head.state, s.history);
  }

  /** In cost mode no report of a stale run is refused. */
  lemma StaleCostModeReportsAccepted(m: RunMethod, b: Backend, cfg: Settings, initial: State, fuel: nat)
    requires cfg.countCost
    ensures var ending := StaleFrom(m, b, cfg, StaleBegin(m, cfg, initial), fuel).0;
      ending.Some? ==> !ending.value.RaisedReportRefused? && !ending.value.RaisedCause?
  {
    RunIsGood(m, b, cfg, initial, fuel);
    var (ending, last) := StaleFrom(m, b, cfg, StaleBegin(m, cfg, initial), fuel);
    if ending.Some? {
      EndingAccepted(m, cfg, last, ending.value);
    }
  }

  lemma EndingAccepted(m: RunMethod, cfg: Settings, last: Stale, ending: Ending)
    requires cfg.countCost && Chained(m, cfg, last) && Counted(cfg, last) && EndsBy(m, cfg, last, ending)
    ensures !ending.RaisedReportRefused? && !ending.RaisedCause?
  {
    if last.snapshot.Some? {
      SnapshotIsHead(m, cfg, last);
    }
  }

  lemma EndingAligned(m: RunMethod, cfg: Settings, last: Stale, ending: Ending)
    requires cfg.stopAtCheckpoint && Chained(m, cfg, last) && Counted(cfg, last) && EndsBy(m, cfg, last, ending)
    ensures EndsAligned(m, last.heads, ending)
  {
    if cause :| FailsBy(cfg, last, ending, cause) {
      FailureAligned(m, cfg, last, cause);
    } else if last.snapshot.Some? {
      SnapshotIsHead(m, cfg, last);
    }
  }

  lemma FailureAligned(m: RunMethod, cfg: Settings, last: Stale, cause: Cause)
    requires cfg.stopAtCheckpoint && Chained(m, cfg, last) && Counted(cfg, last)
    ensures EndsAligned(m, last.heads,
      FailedAt(cfg, last.history, cfg.maxEvaluations - last.remaining, last.state, last.snapshot, cause))
  {
    if last.snapshot.Some? {
      SnapshotIsHead(m, cfg, last);
    }
  }

  /** The history that a final report shows: of the latest safe told state when the
      run stops at checkpoints and has one. */
  function ShownHistory(m: RunMethod, cfg: Settings, last: Stale): (r: History) {
    var cut := LatestSafe(m, last.heads);
    if cfg.stopAtCheckpoint && cut.Some? then last.heads[cut.value].history else last.history
  }

  /** The report of a normal ending, or of a failure, is refused exactly when a
      history that it shows is overpriced. */
  ghost predicate RefusedExactly(m: RunMethod, cfg: Settings, last: Stale, ending: Ending) {
    var shown := ShownHistory(m, cfg, last);
    && (ending.Returned? || ending.RaisedReportRefused? ==>
          && (cfg.stopAtCheckpoint ==> LatestSafe(m, last.heads).Some?)
          && (ending.RaisedReportRefused? <==> Overpriced(shown)))
    && (ending.RaisedRunFailed? || ending.RaisedCause? ==>
          (ending.RaisedCause? <==> Overpriced(last.history) || Overpriced(shown)))
  }

  /** Slot mode counts slots but checks costs. A final report is refused exactly when
      the attempts it shows have cost more than one evaluation each on average, and a
      failure loses its reports exactly when those shown by the partial report or by
      the checkpoint have. */
  lemma StaleSlotModeReports(m: RunMethod, b: Backend, cfg: Settings, initial: State, fuel: nat)
    requires !cfg.countCost
    ensures var (ending, last) := StaleFrom(m, b, cfg, StaleBegin(m, cfg, initial), fuel);
      ending.Some? ==> RefusedExactly(m, cfg, last, ending.value)
  {
    RunIsGood(m, b, cfg, initial, fuel);
    var (ending, last) := StaleFrom(m, b, cfg, StaleBegin(m, cfg, initial), fuel);
    if ending.Some? {
      EndingRefused(m, cfg, last, ending.value);
    }
  }

  lemma EndingRefused(m: RunMethod, cfg: Settings, last: Stale, ending: Ending)
    requires !cfg.countCost && Chained(m, cfg, last) && Counted(cfg, last) && EndsBy(m, cfg, last, ending)
    ensures RefusedExactly(m, cfg, last, ending)
  {
    if cause :| FailsBy(cfg, last, ending, cause) {
      FailureRefused(m, cfg, last, cause);
    } else if cfg.stopAtCheckpoint && last.snapshot.Some?
      && ending == ReturnedOr(Project(last.snapshot.value, last.history), last.snapshot.value.state) {
      CutRefused(m, cfg, last);
    } else {
      CloseRefused(m, cfg, last);
    }
  }

  /** The projected cut is refused exactly when its history is overpriced. */
  lemma CutRefused(m: RunMethod, cfg: Settings, last: Stale)
    requires !cfg.countCost && cfg.stopAtCheckpoint && Chained(m, cfg, last) && last.snapshot.Some?
    ensures LatestSafe(m, last.heads).Some?
    ensures Project(last.snapshot.value, last.history).None? <==> Overpriced(ShownHistory(m, cfg, last))
  {
    SnapshotIsHead(m, cfg, last);
  }

  lemma CloseRefused(m: RunMethod, cfg: Settings, last: Stale)
    requires !cfg.countCost && Chained(m, cfg, last) && Counted(cfg, last)
    requires last.heads != [] && last.heads[|last.heads| - 1] == Head(last.state, last.history)
    ensures RefusedExactly(m, cfg, last, ClosedAt(m, cfg, last.history, last.state, last.snapshot))
  {
    if cfg.stopAtCheckpoint && last.snapshot.Some? {
      CutRefused(m, cfg, last);
    }
  }

  lemma FailureRefused(m: RunMethod, cfg: Settings, last: Stale, cause: Cause)
    requires !cfg.countCost && Chained(m, cfg, last) && Counted(cfg, last)
    ensures RefusedExactly(m, cfg, last,
      FailedAt(cfg, last.history, cfg.maxEvaluations - last.remaining, last.state, last.snapshot, cause))
  {
    if cfg.stopAtCheckpoint && last.snapshot.Some? {
      CutRefused(m, cfg, last);
    }
  }

  /** Under checkpointing, whatever pair of report and state a stale run returns, or
      attaches to a failure, is its latest safe told state with exactly the history
      that existed then. */
  lemma StaleCheckpointsAligned(m: RunMethod, b: Backend, cfg: Settings, initial: State, fuel: nat)
    requires cfg.stopAtCheckpoint
    ensures var (ending, last) := StaleFrom(m, b, cfg, StaleBegin(m, cfg, initial), fuel);
      ending.Some? ==> EndsAligned(m, last.heads, ending.value)
  {
    RunIsGood(m, b, cfg, initial, fuel);
    var (ending, last) := StaleFrom(m, b, cfg, StaleBegin(m, cfg, initial), fuel);
    if ending.Some? {
      EndingAligned(m, cfg, last, ending.value);
    }
  }
}
