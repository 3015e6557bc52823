// What every study run keeps: the budget is accounted for at every loop head,
// reports are refused only where slots and costs are counted against each other,
// and what a run returns under checkpointing is its latest safe cut.
module StudyRunSafety {
  import opened Outcomes
  import opened EvaluationLedger
  import opened RunHistory
  import opened StudyRun
  import opened StudyRunLoop

  // ----- accounting of one step -----

  lemma SettledCostIsCost(limits: seq<int>, attempts: seq<Attempt>)
    requires SettledCost(limits, ExactCounts(attempts)).Ok?
    ensures SettledCost(limits, ExactCounts(attempts)).value == Cost(attempts)
  {
    CostIsSum(attempts);
    assert Values(ExactCounts(attempts)) == Costs(attempts);
  }

  /** What a step reports is what the ledger lost, and at least what its attempts
      cost; without a ledger it is just that cost. */
  lemma StepIsCharged(m: RunMethod, ev: Evaluation, cfg: Settings, step: nat, state: State, batch: nat, remaining: nat)
    ensures var (result, left) := StepFeedback(m, ev, cfg, step, state, batch, remaining);
      result.Ok? ==>
        && result.value.evaluationCount >= Cost(result.value.attempts)
        && (cfg.countCost ==> left == remaining - result.value.evaluationCount)
        && (!cfg.countCost ==> result.value.evaluationCount == Cost(result.value.attempts))
  {
    var asked := AskedRequests(m, state, batch, cfg.directKernel && m.elidesHints);
    if asked.Ok? {
      var (requests, next) := asked.value;
      var script := ev(step, next, requests, remaining);
      var limits := EpisodeLimits(script, |requests|, remaining, cfg.countCost);
      if limits.Ok? && limits.value.Some? && script.episodes.Ok?
        && SettledCost(limits.value.value, ExactCounts(script.episodes.value)).Ok? {
        SettledCostIsCost(limits.value.value, script.episodes.value);
      }
    }
  }

  // ----- the loop invariant -----

  function LatestSafe(m: RunMethod, heads: seq<Head>): (r: Option<nat>)
    ensures r.Some? ==> r.value < |heads| && m.isSafe(heads[r.value].state)
    ensures forall k :: 0 <= k < |heads| && m.isSafe(heads[k].state) ==> r.Some? && k <= r.value
  {
    if heads == [] then None
    else if m.isSafe(heads[|heads| - 1].state) then Some(|heads| - 1)
    else LatestSafe(m, heads[..|heads| - 1])
  }

  function LatestCut(m: RunMethod, heads: seq<Head>): (r: Option<Snapshot>) {
    match LatestSafe(m, heads)
    case None => None
    case Some(k) => Some(TakeSnapshot(heads[k].history, heads[k].state))
  }

  ghost predicate Accounted(cfg: Settings, loop: Loop) {
    && loop.remaining <= cfg.maxEvaluations
    && Covered(loop.history)
    && (cfg.countCost ==> loop.history.evaluationCount == cfg.maxEvaluations - loop.remaining)
    && (!cfg.countCost ==>
          && |loop.history.successes| + |loop.history.failures| == cfg.maxEvaluations - loop.remaining
          && Cost(loop.history.successes) + Cost(loop.history.failures) == loop.history.evaluationCount)
  }

  ghost predicate Recorded(m: RunMethod, cfg: Settings, loop: Loop) {
    && |loop.heads| > 0 && loop.heads[|loop.heads| - 1] == Head(loop.state, loop.history)
    && (forall k :: 0 <= k < |loop.heads| ==>
          Covered(loop.heads[k].history) && Extends(loop.history, loop.heads[k].history))
    && loop.snapshot == (if cfg.stopAtCheckpoint then LatestCut(m, loop.heads) else None)
  }

  ghost predicate Sound(m: RunMethod, cfg: Settings, loop: Loop) {
    Accounted(cfg, loop) && Recorded(m, cfg, loop)
  }

  lemma BeginSound(m: RunMethod, cfg: Settings, initial: State)
    ensures Sound(m, cfg, Begin(m, cfg, initial))
  {
    var heads := [Head(initial, EMPTY_HISTORY)];
    assert heads[..0] == [];
  }

  ghost predicate AdvanceSound(m: RunMethod, cfg: Settings, advance: Advance) {
    match advance
    case Continue(next) => Sound(m, cfg, next)
    case Break(last) => Sound(m, cfg, last)
    case End(_) => true
  }

  lemma IterateSound(m: RunMethod, ev: Evaluation, cfg: Settings, loop: Loop)
    requires Sound(m, cfg, loop)
    ensures AdvanceSound(m, cfg, Iterate(m, ev, cfg, loop))
  {
    if !Iterate(m, ev, cfg, loop).End? {
      var feedback, left, told := IterateTells(m, ev, cfg, loop);
      ToldSound(m, cfg, loop, feedback, left, told);
    }
  }

  /** An iteration that goes on tells the run method what it has charged for. */
  lemma IterateTells(m: RunMethod, ev: Evaluation, cfg: Settings, loop: Loop)
    returns (feedback: Feedback, left: nat, told: Result<State, Cause>)
    requires loop.remaining <= cfg.maxEvaluations && !Iterate(m, ev, cfg, loop).End?
    ensures Iterate(m, ev, cfg, loop) ==
      Told(m, cfg, loop, Append(loop.history, feedback.attempts, feedback.evaluationCount), left,
           feedback.postAskState, told)
    ensures ChargedFor(cfg, loop, feedback, left)
  {
    var batch := Min(cfg.batchSize, loop.remaining);
    StepIsCharged(m, ev, cfg, |loop.heads|, loop.state, batch, loop.remaining);
    var (result, l) := StepFeedback(m, ev, cfg, |loop.heads|, loop.state, batch, loop.remaining);
    feedback := result.value;
    left := if cfg.countCost then l else loop.remaining - |feedback.attempts|;
    told := m.tellAttempts(feedback.postAskState, feedback.attempts);
  }

  ghost predicate ChargedFor(cfg: Settings, loop: Loop, feedback: Feedback, left: nat) {
    && feedback.evaluationCount >= Cost(feedback.attempts)
    && (cfg.countCost ==> left == loop.remaining - feedback.evaluationCount)
    && (!cfg.countCost ==>
          left == loop.remaining - |feedback.attempts| && feedback.evaluationCount == Cost(feedback.attempts))
  }

  lemma ToldSound(m: RunMethod, cfg: Settings, loop: Loop, feedback: Feedback, left: nat, told: Result<State, Cause>)
    requires Sound(m, cfg, loop) && ChargedFor(cfg, loop, feedback, left)
    ensures var h := Append(loop.history, feedback.attempts, feedback.evaluationCount);
      AdvanceSound(m, cfg, Told(m, cfg, loop, h, left, feedback.postAskState, told))
  {
    var h := Append(loop.history, feedback.attempts, feedback.evaluationCount);
    AppendCovered(loop.history, feedback.attempts, feedback.evaluationCount);
    CostSplits(feedback.attempts);
    if told.Ok? {
      AssimilatedSound(m, cfg, loop, h, left, told.value);
    }
  }

  lemma AssimilatedSound(m: RunMethod, cfg: Settings, loop: Loop, h: History, left: nat, next: State)
    requires Recorded(m, cfg, loop) && Covered(h) && Extends(h, loop.history)
    requires Accounted(cfg, loop.(history := h, remaining := left))
    ensures AdvanceSound(m, cfg, Assimilated(m, cfg, loop, h, left, next))
  {
    var heads := loop.heads + [Head(next, h)];
    assert heads[..|heads| - 1] == loop.heads;
    forall k | 0 <= k < |heads| ensures Covered(heads[k].history) && Extends(h, heads[k].history) {
      if k < |loop.heads| {
        assert heads[k] == loop.heads[k];
        assert Extends(loop.history, heads[k].history);
      }
    }
  }

  /** Every run ends, or is left, at a sound head, which decides how it ends. */
  lemma RunSound(m: RunMethod, ev: Evaluation, cfg: Settings, loop: Loop, fuel: nat)
    requires Sound(m, cfg, loop)
    ensures var (ending, last) := RunFrom(m, ev, cfg, loop, fuel);
      && Sound(m, cfg, last)
      && (ending.Some? ==> EndsAt(m, ev, cfg, last, ending.value))
  {
    var inv := (l: Loop) => Sound(m, cfg, l);
    forall l: Loop | inv(l) && GoesOf(m)(l) ensures Keeps(inv, StepOf(m, ev, cfg)(l)) {
      IterateSound(m, ev, cfg, l);
    }
    LoopKeeps(GoesOf(m), StepOf(m, ev, cfg), CloseOf(m, cfg), inv, loop, fuel);
    RunIsLoop(m, ev, cfg, loop, fuel);
  }

  /** How a run ends is decided at its last loop head. */
  ghost predicate EndsAt(m: RunMethod, ev: Evaluation, cfg: Settings, last: Loop, ending: Ending)
    requires last.remaining <= cfg.maxEvaluations
  {
    ending == Close(m, cfg, last) || Iterate(m, ev, cfg, last) == End(ending)
  }

  /** Cost mode: at every loop head the history counts exactly what the ledger has
      lost, through runner charges, unmetered kernel cost and episodes alike. The
      loop after any number of iterations is a head, so `fuel` ranges over them. */
  lemma BudgetIsConserved(m: RunMethod, ev: Evaluation, cfg: Settings, initial: State, fuel: nat)
    requires cfg.countCost
    ensures var loop := RunFrom(m, ev, cfg, Begin(m, cfg, initial), fuel).1;
      && loop.history.evaluationCount == cfg.maxEvaluations - loop.remaining
      && 0 <= loop.history.evaluationCount <= cfg.maxEvaluations
      && Cost(loop.history.successes) + Cost(loop.history.failures) <= loop.history.evaluationCount
  {
    BeginSound(m, cfg, initial);
    RunSound(m, ev, cfg, Begin(m, cfg, initial), fuel);
  }

  // ----- reports -----

  function AttemptCount(h: History): (r: nat) {
    |h.successes| + |h.failures|
  }

  function AttemptCost(h: History): (r: nat) {
    Cost(h.successes) + Cost(h.failures)
  }

  /** The attempts have cost more than one evaluation each on average, so that a
      report which counts slots is refused. */
  predicate Overpriced(h: History) {
    AttemptCost(h) > AttemptCount(h)
  }

  /** A cut shows the history that existed when its state was reached. */
  lemma CutIsHead(m: RunMethod, cfg: Settings, loop: Loop, h: History)
    requires Sound(m, cfg, loop) && loop.snapshot.Some? && Extends(h, loop.history)
    ensures LatestSafe(m, loop.heads).Some?
    ensures var head := loop.heads[LatestSafe(m, loop.heads).value];
      && loop.snapshot.value.state == head.state
      && Cut(loop.snapshot.value, h) == head.history
      && Project(loop.snapshot.value, h) == MakeReport(head.history, head.history.evaluationCount)
      && Project(loop.snapshot.value, h).Some?
  {
    var head := loop.heads[LatestSafe(m, loop.heads).value];
    SnapshotsAreStable(head.history, head.state, h);
  }

  /** In cost mode no report is ever refused: neither a terminal one, nor the
      partial and checkpoint reports of a failure, which would otherwise hide
      behind the original cause. */
  lemma CostModeReportsAccepted(m: RunMethod, ev: Evaluation, cfg: Settings, initial: State, fuel: nat)
    requires cfg.countCost
    ensures var ending := RunFrom(m, ev, cfg, Begin(m, cfg, initial), fuel).0;
      ending.Some? ==> !ending.value.RaisedReportRefused? && !ending.value.RaisedCause?
  {
    BeginSound(m, cfg, initial);
    RunSound(m, ev, cfg, Begin(m, cfg, initial), fuel);
    var (ending, last) := RunFrom(m, ev, cfg, Begin(m, cfg, initial), fuel);
    if ending.Some? {
      if last.snapshot.Some? {
        CutIsHead(m, cfg, last, last.history);
      }
      if ending.value != Close(m, cfg, last) {
        FailureReports(m, ev, cfg, last);
      }
    }
  }

  /** A run is ended by a step that raised, or by a run method that could not be
      told of a step whose attempts the history already has. */
  lemma EndsAsFailure(m: RunMethod, ev: Evaluation, cfg: Settings, loop: Loop)
    returns (inStep: bool, h: History, left: nat, state: State, cause: Cause)
    requires Covered(loop.history) && loop.remaining <= cfg.maxEvaluations && Iterate(m, ev, cfg, loop).End?
    ensures left <= loop.remaining && Covered(h) && Extends(h, loop.history)
    ensures inStep ==> cause.BudgetExhausted? || StepRaises(m, ev, cfg, loop)
    ensures Iterate(m, ev, cfg, loop).ending ==
      if inStep then StepFailed(cfg, loop, cause, left)
      else FailedRun(h, h.evaluationCount, state, loop.snapshot, cause)
  {
    var batch := Min(cfg.batchSize, loop.remaining);
    var (result, rest) := StepFeedback(m, ev, cfg, |loop.heads|, loop.state, batch, loop.remaining);
    inStep, h, left, state := result.Err?, loop.history, rest, loop.state;
    if result.Err? {
      cause := result.error;
    } else {
      var feedback := result.value;
      FeedbackCovered(m, ev, cfg, |loop.heads|, loop.state, batch, loop.remaining, loop.history);
      h, state := Append(loop.history, feedback.attempts, feedback.evaluationCount), feedback.postAskState;
      cause := m.tellAttempts(feedback.postAskState, feedback.attempts).error;
    }
  }

  lemma FeedbackCovered(m: RunMethod, ev: Evaluation, cfg: Settings, step: nat, state: State, batch: nat,
                        remaining: nat, h: History)
    requires Covered(h)
    ensures var result := StepFeedback(m, ev, cfg, step, state, batch, remaining).0;
      result.Ok? ==>
        var next := Append(h, result.value.attempts, result.value.evaluationCount);
        Covered(next) && Extends(next, h)
  {
    var result := StepFeedback(m, ev, cfg, step, state, batch, remaining).0;
    StepIsCharged(m, ev, cfg, step, state, batch, remaining);
    if result.Ok? {
      AppendCovered(h, result.value.attempts, result.value.evaluationCount);
    }
  }

  lemma FailureReports(m: RunMethod, ev: Evaluation, cfg: Settings, loop: Loop)
    requires cfg.countCost && Sound(m, cfg, loop) && Iterate(m, ev, cfg, loop).End?
    ensures var ending := Iterate(m, ev, cfg, loop).ending;
      !ending.RaisedReportRefused? && !ending.RaisedCause?
  {
    var inStep, h, left, state, cause := EndsAsFailure(m, ev, cfg, loop);
    if loop.snapshot.Some? {
      CutIsHead(m, cfg, loop, loop.history);
      CutIsHead(m, cfg, loop, h);
    }
  }

  /** Slot mode counts the partial report of a failed step in slots. The report is
      refused, and the bare cause raised, exactly when the attempts so far have
      cost more than one evaluation each on average. */
  lemma SlotModeFailure(m: RunMethod, ev: Evaluation, cfg: Settings, loop: Loop)
    requires !cfg.countCost && Sound(m, cfg, loop)
    requires var batch := Min(cfg.batchSize, loop.remaining);
      var result := StepFeedback(m, ev, cfg, |loop.heads|, loop.state, batch, loop.remaining).0;
      result.Err? && !result.error.BudgetExhausted?
    ensures var h, ending := loop.history, Iterate(m, ev, cfg, loop);
      && ending.End? && (ending.ending.RaisedCause? || ending.ending.RaisedRunFailed?)
      && (ending.ending.RaisedCause? <==> Overpriced(h))
  {
    if loop.snapshot.Some? {
      CutIsHead(m, cfg, loop, loop.history);
    }
  }

  /** The step raises something other than the exhausted budget. */
  predicate StepRaises(m: RunMethod, ev: Evaluation, cfg: Settings, loop: Loop) {
    var batch := Min(cfg.batchSize, loop.remaining);
    var result := StepFeedback(m, ev, cfg, |loop.heads|, loop.state, batch, loop.remaining).0;
    result.Err? && !result.error.BudgetExhausted?
  }

  /** In either mode no final report is refused, and a failure keeps its reports
      unless, in slot mode, a step raises behind overpriced attempts. */
  lemma ReportsRefusedExactly(m: RunMethod, ev: Evaluation, cfg: Settings, initial: State, fuel: nat)
    ensures var (ending, last) := RunFrom(m, ev, cfg, Begin(m, cfg, initial), fuel);
      && last.remaining <= cfg.maxEvaluations
      && (ending.Some? ==> !ending.value.RaisedReportRefused?)
      && (ending.Some? && (ending.value.RaisedCause? || ending.value.RaisedRunFailed?) ==>
            (ending.value.RaisedCause? <==>
              !cfg.countCost && StepRaises(m, ev, cfg, last) && Overpriced(last.history)))
  {
    BeginSound(m, cfg, initial);
    RunSound(m, ev, cfg, Begin(m, cfg, initial), fuel);
    var (ending, last) := RunFrom(m, ev, cfg, Begin(m, cfg, initial), fuel);
    if ending.Some? {
      if last.snapshot.Some? {
        CutIsHead(m, cfg, last, last.history);
      }
      if ending.value != Close(m, cfg, last) {
        if cfg.countCost {
          FailureReports(m, ev, cfg, last);
        } else if StepRaises(m, ev, cfg, last) {
          SlotModeFailure(m, ev, cfg, last);
        } else {
          OtherFailureReports(m, ev, cfg, last);
        }
      }
    }
  }

  /** A run method that cannot be told, or an exhausted budget. */
  lemma OtherFailureReports(m: RunMethod, ev: Evaluation, cfg: Settings, loop: Loop)
    requires Sound(m, cfg, loop) && Iterate(m, ev, cfg, loop).End? && !StepRaises(m, ev, cfg, loop)
    ensures var ending := Iterate(m, ev, cfg, loop).ending;
      !ending.RaisedReportRefused? && !ending.RaisedCause?
  {
    var inStep, h, left, state, cause := EndsAsFailure(m, ev, cfg, loop);
    if loop.snapshot.Some? {
      CutIsHead(m, cfg, loop, loop.history);
      CutIsHead(m, cfg, loop, h);
    }
  }

  // ----- checkpoint alignment -----

  /** The latest safe head, as the pair a run hands out. */
  ghost predicate IsLatestCut(m: RunMethod, heads: seq<Head>, report: Report, state: State) {
    && LatestSafe(m, heads).Some?
    && var head := heads[LatestSafe(m, heads).value];
       && state == head.state
       && Some(report) == MakeReport(head.history, head.history.evaluationCount)
  }

  /** Every pair that an ending hands out is the latest cut; where it hands out
      none, there was no safe state. */
  ghost predicate EndsAligned(m: RunMethod, heads: seq<Head>, ending: Ending) {
    match ending
    case Returned(report, state) => IsLatestCut(m, heads, report, state)
    case RaisedRunFailed(_, _, checkpoint, _) =>
      if checkpoint.None? then LatestSafe(m, heads).None?
      else IsLatestCut(m, heads, checkpoint.value.0, checkpoint.value.1)
    case RaisedNoSafeState => LatestSafe(m, heads).None?
    case RaisedBudgetExhausted => LatestSafe(m, heads).None?
    case _ => true
  }

  /** Under checkpointing, whatever pair of report and state a run returns, or
      attaches to a failure, is the latest safe state it reached with exactly the
      history that existed then; without one, there was no safe state. */
  lemma CheckpointsAreAligned(m: RunMethod, ev: Evaluation, cfg: Settings, initial: State, fuel: nat)
    requires cfg.stopAtCheckpoint
    ensures var (ending, last) := RunFrom(m, ev, cfg, Begin(m, cfg, initial), fuel);
      ending.Some? ==> EndsAligned(m, last.heads, ending.value)
  {
    BeginSound(m, cfg, initial);
    RunSound(m, ev, cfg, Begin(m, cfg, initial), fuel);
    var (ending, last) := RunFrom(m, ev, cfg, Begin(m, cfg, initial), fuel);
    if ending.Some? {
      if last.snapshot.Some? {
        CutIsHead(m, cfg, last, last.history);
      }
      if ending.value != Close(m, cfg, last) {
        FailureCheckpoint(m, ev, cfg, last);
      }
    }
  }

  lemma FailureCheckpoint(m: RunMethod, ev: Evaluation, cfg: Settings, loop: Loop)
    requires cfg.stopAtCheckpoint && Sound(m, cfg, loop) && Iterate(m, ev, cfg, loop).End?
    ensures EndsAligned(m, loop.heads, Iterate(m, ev, cfg, loop).ending)
  {
    var inStep, h, left, state, cause := EndsAsFailure(m, ev, cfg, loop);
    StepFailedAligned(m, cfg, loop, cause, left);
    FailedRunAligned(m, cfg, loop, h, h.evaluationCount, state, cause);
  }

  lemma StepFailedAligned(m: RunMethod, cfg: Settings, loop: Loop, cause: Cause, left: nat)
    requires cfg.stopAtCheckpoint && Sound(m, cfg, loop) && left <= loop.remaining
    ensures EndsAligned(m, loop.heads, StepFailed(cfg, loop, cause, left))
  {
    if loop.snapshot.Some? {
      CutIsHead(m, cfg, loop, loop.history);
    }
    FailedRunAligned(m, cfg, loop, loop.history, cfg.maxEvaluations - left, loop.state, cause);
  }

  lemma FailedRunAligned(m: RunMethod, cfg: Settings, loop: Loop, h: History, count: nat, state: State, cause: Cause)
    requires cfg.stopAtCheckpoint && Sound(m, cfg, loop) && Extends(h, loop.history)
    ensures EndsAligned(m, loop.heads, FailedRun(h, count, state, loop.snapshot, cause))
  {
    if loop.snapshot.Some? {
      CutIsHead(m, cfg, loop, h);
    }
  }

  // ----- termination -----

  /** The completed iterations among the first `fuel` that leave the budget as it is. */
  function FreeSteps(m: RunMethod, ev: Evaluation, cfg: Settings, loop: Loop, fuel: nat): (r: nat) {
    FreeFrom(GoesOf(m), StepOf(m, ev, cfg), loop, fuel)
  }

  lemma RunSpends(m: RunMethod, ev: Evaluation, cfg: Settings)
    ensures Spends(GoesOf(m), StepOf(m, ev, cfg))
  {
  }

  ghost predicate Ends(m: RunMethod, ev: Evaluation, cfg: Settings, loop: Loop)
    requires loop.remaining <= cfg.maxEvaluations
  {
    exists fuel: nat :: RunFrom(m, ev, cfg, loop, fuel).0.Some?
  }

  /** A run ends exactly when at some point it has made as many iterations that are
      not free as its budget has units. */
  lemma EndsExactly(m: RunMethod, ev: Evaluation, cfg: Settings, loop: Loop)
    requires loop.remaining <= cfg.maxEvaluations
    ensures Ends(m, ev, cfg, loop) <==>
      exists fuel: nat :: FreeSteps(m, ev, cfg, loop, fuel) <= fuel - loop.remaining
  {
    if Ends(m, ev, cfg, loop) {
      var fuel: nat :| RunFrom(m, ev, cfg, loop, fuel).0.Some?;
      RunIsLoop(m, ev, cfg, loop, fuel);
      EndedIsCounted(GoesOf(m), StepOf(m, ev, cfg), CloseOf(m, cfg), loop, fuel, fuel + loop.remaining);
      assert FreeSteps(m, ev, cfg, loop, fuel + loop.remaining) <= fuel;
    }
    if fuel: nat :| FreeSteps(m, ev, cfg, loop, fuel) <= fuel - loop.remaining {
      PaidRunEnds(m, ev, cfg, loop, fuel);
    }
  }

  lemma PaidRunEnds(m: RunMethod, ev: Evaluation, cfg: Settings, loop: Loop, fuel: nat)
    requires loop.remaining <= cfg.maxEvaluations
    requires FreeSteps(m, ev, cfg, loop, fuel) <= fuel - loop.remaining
    ensures RunFrom(m, ev, cfg, loop, fuel).0.Some?
  {
    RunIsLoop(m, ev, cfg, loop, fuel);
    RunSpends(m, ev, cfg);
    if RunFrom(m, ev, cfg, loop, fuel).0.None? {
      UnendedIsFree(GoesOf(m), StepOf(m, ev, cfg), CloseOf(m, cfg), loop, fuel);
    }
  }

  /** In slot mode no iteration is free, so a run ends after at most as many as its
      budget has units; so it does in cost mode when none of its own is free. */
  lemma RunsEnd(m: RunMethod, ev: Evaluation, cfg: Settings, loop: Loop, fuel: nat)
    requires loop.remaining <= cfg.maxEvaluations && fuel >= loop.remaining
    requires cfg.countCost ==> FreeSteps(m, ev, cfg, loop, fuel) == 0
    ensures RunFrom(m, ev, cfg, loop, fuel).0.Some?
  {
    if !cfg.countCost {
      SlotStepsCost(m, ev, cfg);
      PaidIsNotFree(GoesOf(m), StepOf(m, ev, cfg), loop, fuel);
    }
    PaidRunEnds(m, ev, cfg, loop, fuel);
  }

  lemma SlotStepsCost(m: RunMethod, ev: Evaluation, cfg: Settings)
    requires !cfg.countCost
    ensures forall l: Loop :: GoesOf(m)(l) && StepOf(m, ev, cfg)(l).Continue? ==>
      StepOf(m, ev, cfg)(l).next.remaining < l.remaining
  {
    forall l: Loop | GoesOn(m, l) && l.remaining <= cfg.maxEvaluations && Iterate(m, ev, cfg, l).Continue?
      ensures Iterate(m, ev, cfg, l).next.remaining < l.remaining
    {
      var (result, _) := StepFeedback(m, ev, cfg, |l.heads|, l.state, Min(cfg.batchSize, l.remaining), l.remaining);
      assert |result.value.attempts| >= 1;
    }
  }

  /** An iteration that neither ends the run nor takes from its budget. */
  ghost predicate FreeStep(m: RunMethod, ev: Evaluation, cfg: Settings, loop: Loop)
    requires loop.remaining <= cfg.maxEvaluations
  {
    GoesOn(m, loop) && Iterate(m, ev, cfg, loop).Continue?
    && Iterate(m, ev, cfg, loop).next.remaining == loop.remaining
  }

  /** Every iteration from one of these places is free and leads to another. */
  ghost predicate StaysFreeAt(m: RunMethod, ev: Evaluation, cfg: Settings, stays: Loop -> bool) {
    forall l: Loop :: l.remaining <= cfg.maxEvaluations && stays(l) ==>
      FreeStep(m, ev, cfg, l) && stays(Iterate(m, ev, cfg, l).next)
  }

  /** A run goes on for ever once it is at such a place. */
  lemma FreeRunNeverEnds(m: RunMethod, ev: Evaluation, cfg: Settings, loop: Loop, stays: Loop -> bool)
    requires loop.remaining <= cfg.maxEvaluations && stays(loop) && StaysFreeAt(m, ev, cfg, stays)
    ensures !Ends(m, ev, cfg, loop)
  {
    var within := (l: Loop) => l.remaining <= cfg.maxEvaluations && stays(l);
    forall l: Loop | within(l)
      ensures GoesOf(m)(l) && StepOf(m, ev, cfg)(l).Continue?
      ensures StepOf(m, ev, cfg)(l).next.remaining == l.remaining && within(StepOf(m, ev, cfg)(l).next)
    {
      FreeStepOf(m, ev, cfg, l);
    }
    forall fuel: nat ensures RunFrom(m, ev, cfg, loop, fuel).0.None? {
      StaysUnended(m, ev, cfg, loop, within, fuel);
    }
  }

  lemma FreeStepOf(m: RunMethod, ev: Evaluation, cfg: Settings, l: Loop)
    requires l.remaining <= cfg.maxEvaluations && FreeStep(m, ev, cfg, l)
    ensures GoesOf(m)(l) && StepOf(m, ev, cfg)(l) == Iterate(m, ev, cfg, l)
    ensures StepOf(m, ev, cfg)(l).Continue? && StepOf(m, ev, cfg)(l).next.remaining == l.remaining
  {
  }

  lemma StaysUnended(m: RunMethod, ev: Evaluation, cfg: Settings, loop: Loop, stays: Loop -> bool, fuel: nat)
    requires loop.remaining <= cfg.maxEvaluations && stays(loop)
    requires StaysFree(GoesOf(m), StepOf(m, ev, cfg), stays)
    ensures RunFrom(m, ev, cfg, loop, fuel).0.None?
  {
    FreeNeverEnds(GoesOf(m), StepOf(m, ev, cfg), CloseOf(m, cfg), stays, loop, fuel);
    RunIsLoop(m, ev, cfg, loop, fuel);
  }

  // ----- where a checkpointed run stops -----

  /** Heads after the first: once one is unsafe, all later ones are. */
  ghost predicate SafeThenUnsafe(m: RunMethod, heads: seq<Head>) {
    forall i, j :: 1 <= i < j < |heads| && !m.isSafe(heads[i].state) ==> !m.isSafe(heads[j].state)
  }

  ghost predicate Segmented(m: RunMethod, loop: Loop) {
    && SafeThenUnsafe(m, loop.heads)
    && (loop.segmentUnsafe <==> exists i :: 1 <= i < |loop.heads| && !m.isSafe(loop.heads[i].state))
  }

  /** Only the last head can be a safe one behind an unsafe one. */
  ghost predicate Stopped(m: RunMethod, heads: seq<Head>) {
    |heads| > 0 && SafeThenUnsafe(m, heads[..|heads| - 1])
  }

  ghost predicate AdvanceSegmented(m: RunMethod, advance: Advance) {
    match advance
    case Continue(next) => |next.heads| > 0 && Segmented(m, next)
    case Break(last) => Stopped(m, last.heads)
    case End(_) => true
  }

  lemma IterateSegmented(m: RunMethod, ev: Evaluation, cfg: Settings, loop: Loop)
    requires cfg.stopAtCheckpoint && loop.remaining <= cfg.maxEvaluations
    requires |loop.heads| > 0 && Segmented(m, loop)
    ensures AdvanceSegmented(m, Iterate(m, ev, cfg, loop))
  {
    var advance := Iterate(m, ev, cfg, loop);
    if !advance.End? {
      var after := if advance.Continue? then advance.next else advance.last;
      assert after.heads[..|loop.heads|] == loop.heads;
      assert forall i :: 0 <= i < |loop.heads| ==> after.heads[i] == loop.heads[i];
      assert after.heads[|loop.heads|].state == after.state;
      assert !m.isSafe(after.state) ==> !m.isSafe(after.heads[|after.heads| - 1].state);
    }
  }

  lemma SegmentedIsStopped(m: RunMethod, loop: Loop)
    requires |loop.heads| > 0 && Segmented(m, loop)
    ensures Stopped(m, loop.heads)
  {
  }

  /** A checkpointed run stops at the first safe state after an unsafe segment. */
  lemma {:induction false} StopsAtBoundary(m: RunMethod, ev: Evaluation, cfg: Settings, loop: Loop, fuel: nat)
    requires cfg.stopAtCheckpoint && loop.remaining <= cfg.maxEvaluations
    requires |loop.heads| > 0 && Segmented(m, loop)
    ensures Stopped(m, RunFrom(m, ev, cfg, loop, fuel).1.heads)
    decreases fuel
  {
    SegmentedIsStopped(m, loop);
    if GoesOn(m, loop) && fuel > 0 {
      IterateSegmented(m, ev, cfg, loop);
      var advance := Iterate(m, ev, cfg, loop);
      if advance.Continue? {
        StopsAtBoundary(m, ev, cfg, advance.next, fuel - 1);
      }
    }
  }

  lemma RunStopsAtBoundary(m: RunMethod, ev: Evaluation, cfg: Settings, initial: State, fuel: nat)
    requires cfg.stopAtCheckpoint
    ensures Stopped(m, RunFrom(m, ev, cfg, Begin(m, cfg, initial), fuel).1.heads)
  {
    BeginSound(m, cfg, initial);
    StopsAtBoundary(m, ev, cfg, Begin(m, cfg, initial), fuel);
  }

  // ----- two runs that show where the guarantees end -----

  /** A run method that always asks for the same proposal and never changes. */
  function Constant(): (m: RunMethod) {
    RunMethod(0, (s, n) => Ok(([0], 0)), (s, p) => Ok(None), (s, p) => Ok(None),
              (s, a) => Ok(0), (s, a) => Ok(0), s => false, s => true, false, false)
  }

  /** One success of fixed cost at every step, but for one step that raises. */
  function Reporting(cost: nat, failsAt: Option<nat>): (ev: Evaluation) {
    (step: nat, s: State, requests: seq<Request>, remaining: nat) =>
      Script([], Err(Raised(0)), [], false,
             if failsAt == Some(step) || requests == [] then Err(Raised(1))
             else Ok([Success(requests[0], 0.0, 0.0, cost)]), Ok(()))
  }

  lemma ConstantStep(cost: nat, failsAt: Option<nat>, cfg: Settings, step: nat, remaining: nat)
    requires cost <= remaining
    ensures var (result, left) := StepFeedback(Constant(), Reporting(cost, failsAt), cfg, step, 0, 1, remaining);
      if failsAt == Some(step) then (result, left) == (Err(Raised(1)), remaining)
      else (result, left) == (Ok(Feedback([Success(Request(0, None), 0.0, 0.0, cost)], 0, cost)),
                              if cfg.countCost then remaining - cost else remaining)
  {
    var m, requests := Constant(), Requests([0], None);
    assert requests == [Request(0, None)];
    assert AskedRequests(m, 0, 1, cfg.directKernel && m.elidesHints) == Ok((requests, 0));
    var attempts := [Success(Request(0, None), 0.0, 0.0, cost)];
    assert Cost(attempts) == cost + Cost([]);
  }

  /** Such runs exist in cost mode: the steps of this one report no cost. */
  lemma FreeRunExists()
    ensures var cfg := Settings(1, 1, true, false, false);
      !Ends(Constant(), Reporting(0, None), cfg, Begin(Constant(), cfg, 0))
  {
    var m, ev, cfg := Constant(), Reporting(0, None), Settings(1, 1, true, false, false);
    var stays := (l: Loop) => l.state == 0 && l.remaining == 1;
    forall l: Loop | l.remaining <= 1 && stays(l) ensures FreeStep(m, ev, cfg, l) && stays(Iterate(m, ev, cfg, l).next) {
      ConstantStep(0, None, cfg, |l.heads|, 1);
    }
    FreeRunNeverEnds(m, ev, cfg, Begin(m, cfg, 0), stays);
  }

  /** In slot mode a failure behind a success of cost 2 cannot be reported. */
  lemma SlotModeLosesReport()
    ensures var cfg := Settings(3, 1, false, false, false);
      RunFrom(Constant(), Reporting(2, Some(2)), cfg, Begin(Constant(), cfg, 0), 2).0 == Some(RaisedCause(Raised(1)))
  {
    var m, ev, cfg := Constant(), Reporting(2, Some(2)), Settings(3, 1, false, false, false);
    var first := Begin(m, cfg, 0);
    ConstantStep(2, Some(2), cfg, 1, 3);
    var second := Iterate(m, ev, cfg, first).next;
    var done := [Success(Request(0, None), 0.0, 0.0, 2)];
    assert Successes(done) == done && Failures(done) == [] by {
      assert Successes(done[1..]) == [] && Failures(done[1..]) == [];
    }
    assert second.history.successes == done && second.history.failures == [];
    assert Cost(done) == 2 + Cost([]);
    ConstantStep(2, Some(2), cfg, 2, 2);
    assert Iterate(m, ev, cfg, second) == End(RaisedCause(Raised(1)));
    assert RunFrom(m, ev, cfg, second, 1).0 == Some(RaisedCause(Raised(1)));
  }
}
