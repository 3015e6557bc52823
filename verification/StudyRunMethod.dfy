// The run loop as the source writes it: a budget object, a reservation object and
// a history object updated in place, step by step. Every method does what the
// functions of StudyRun say (src/variopt/study/execution.py).
module StudyRunMethod {
  import opened Outcomes
  import opened MaxMinAllocator
  import opened MaxMinAllocation
  import opened EvaluationLedger
  import opened RunHistory
  import opened StudyRun

  /** The ledger of a run; without one, slots are counted instead. */
  function Left(budget: EvaluationBudget?, slots: nat): (r: int)
    reads budget
  {
    if budget == null then slots else budget.remaining
  }

  /** Sub-batches of a kernel, charged before they are evaluated. */
  method ChargeCalls(budget: EvaluationBudget, calls: seq<nat>, catches: bool) returns (admitted: bool)
    requires budget.remaining >= 0
    modifies budget
    ensures (budget.remaining, admitted) == Charged(old(budget.remaining), calls, catches)
  {
    for i := 0 to |calls|
      invariant budget.remaining >= 0
      invariant Charged(old(budget.remaining), calls, catches) == Charged(budget.remaining, calls[i..], catches)
    {
      assert calls[i..][1..] == calls[i + 1..];
      var consumed := budget.Consume(calls[i]);
      if consumed.Err? && !catches {
        return false;
      }
    }
    return true;
  }

  /** Reconciles the reported cost with what the runner has consumed already. */
  method ConsumeReportedEvaluationCost(budget: EvaluationBudget?, remainingBefore: nat, attempts: seq<Attempt>)
    returns (r: Result<nat, Cause>)
    requires budget != null ==> 0 <= budget.remaining <= remainingBefore
    modifies budget
    ensures budget == null ==> r == Ok(Cost(attempts))
    ensures budget != null ==>
      var (result, left) := Reconciled(attempts, remainingBefore, old(budget.remaining), true);
      && budget.remaining == left
      && r == match result { case Err(cause) => Err(cause) case Ok((_, count)) => Ok(count) }
  {
    var reported := Cost(attempts);
    if budget == null {
      return Ok(reported);
    }
    var consumedByRunner := remainingBefore - budget.remaining;
    if reported > consumedByRunner {
      var consumed := budget.Consume(reported - consumedByRunner);
      if consumed.Err? {
        return Err(Cause.BudgetExhausted);
      }
      return Ok(reported);
    }
    return Ok(consumedByRunner);
  }

  ghost function Prefixed(front: seq<int>, rest: Result<Option<seq<int>>, Cause>): Result<Option<seq<int>>, Cause> {
    if rest.Ok? && rest.value.Some? then Ok(Some(front + rest.value.value)) else rest
  }

  /** Preferred limits are asked for in request order. */
  method AskPreferredLimits(preferences: seq<Option<int>>, n: nat) returns (r: Result<Option<seq<int>>, Cause>)
    ensures r == PreferredLimits(preferences, n)
  {
    var preferredLimits: seq<int> := [];
    ghost var all := PreferredLimits(preferences, n);
    PrefixedNothing(all);
    for i := 0 to n
      invariant i <= |preferences| && |preferredLimits| == i && Positive(preferredLimits)
      invariant all == Prefixed(preferredLimits, PreferredLimits(preferences[i..], n - i))
    {
      if i == |preferences| || preferences[i].None? {
        return Ok(None);
      }
      assert preferences[i..][1..] == preferences[i + 1..];
      if preferences[i].value <= 0 {
        return Err(InvalidPreference);
      }
      ghost var rest := PreferredLimits(preferences[i + 1..], n - (i + 1));
      PrefixedOne(preferredLimits, preferences[i].value, rest);
      preferredLimits := preferredLimits + [preferences[i].value];
    }
    assert preferredLimits + [] == preferredLimits;
    return Ok(Some(preferredLimits));
  }

  lemma PrefixedNothing(rest: Result<Option<seq<int>>, Cause>)
    ensures Prefixed([], rest) == rest
  {
    if rest.Ok? && rest.value.Some? {
      assert [] + rest.value.value == rest.value.value;
    }
  }

  lemma PrefixedOne(front: seq<int>, x: int, rest: Result<Option<seq<int>>, Cause>)
    ensures Prefixed(front, Prefixed([x], rest)) == Prefixed(front + [x], rest)
  {
    if rest.Ok? && rest.value.Some? {
      assert front + ([x] + rest.value.value) == front + [x] + rest.value.value;
    }
  }

  /** Reserves the limits of the batch; None when it is not run as episodes. */
  method ReserveEpisodes(budget: EvaluationBudget, script: Script, n: nat)
    returns (r: Result<Option<EvaluationReservationBatch>, Cause>)
    requires budget.remaining >= 0 && n > 0
    modifies budget
    ensures var before: nat, limits := old(budget.remaining), EpisodeLimits(script, n, old(budget.remaining), true);
      if limits.Err? then r == Err(limits.error) && budget.remaining == before
      else if limits.value.None? then r == Ok(None) && budget.remaining == before
      else
        && r.Ok? && r.value.Some? && fresh(r.value.value) && !r.value.value.isFinalized
        && r.value.value.budget == budget && r.value.value.limits == limits.value.value
        && budget.remaining == before - Sum(limits.value.value)
  {
    var preferred := AskPreferredLimits(script.preferences, n);
    if preferred.Err? {
      return Err(preferred.error);
    }
    if preferred.value.None? {
      return Ok(None);
    }
    var limits := MaxMinEvaluationLimits(preferred.value.value, budget.remaining);
    if limits.None? {
      return Ok(None);
    }
    LimitsAreReservable(preferred.value.value, budget.remaining);
    var counts := seq(|limits.value|, i requires 0 <= i < |limits.value| => Exact(limits.value[i]));
    ReservingExact(budget.remaining, limits.value, counts);
    var reservation := EvaluationReservationBatch.Reserve(budget, counts);
    return Ok(Some(reservation.value));
  }

  /** Runs the reserved episodes, and settles or forfeits the reservation. */
  method RunReserved(reservation: EvaluationReservationBatch, script: Script, requests: seq<Request>,
                     ghost before: nat)
    returns (r: Result<(seq<Attempt>, nat), Cause>)
    requires !reservation.isFinalized && |reservation.limits| == |requests|
    requires 0 <= Sum(reservation.limits) <= before
    requires reservation.budget.remaining == before - Sum(reservation.limits)
    modifies reservation, reservation.budget
    ensures reservation.isFinalized
    ensures (r, reservation.budget.remaining) == RunEpisodes(script, requests, reservation.limits, before)
  {
    if script.episodes.Err? {
      var _ := reservation.Forfeit();
      return Err(script.episodes.error);
    }
    var attempts := script.episodes.value;
    if !Aligned(requests, attempts) {
      var _ := reservation.Forfeit();
      return Err(MisalignedAttempts);
    }
    var consumed := reservation.Settle(ExactCounts(attempts));
    if consumed.Err? {
      return Err(RejectedCosts);
    }
    SettledCostBounds(reservation.limits, ExactCounts(attempts));
    return Ok((attempts, consumed.value));
  }

  /** None when the batch is not run as episodes. */
  method EvaluateRequestLocalEpisodes(budget: EvaluationBudget, script: Script, requests: seq<Request>)
    returns (r: Option<Result<(seq<Attempt>, nat), Cause>>)
    requires budget.remaining >= 0 && |requests| > 0
    modifies budget
    ensures var before: nat, limits := old(budget.remaining),
                                       EpisodeLimits(script, |requests|, old(budget.remaining), true);
      if limits.Err? then r == Some(Err(limits.error)) && budget.remaining == before
      else if limits.value.None? then r.None? && budget.remaining == before
      else r.Some? && (r.value, budget.remaining) == RunEpisodes(script, requests, limits.value.value, before)
  {
    ghost var before := budget.remaining;
    var reservation := ReserveEpisodes(budget, script, |requests|);
    if reservation.Err? {
      return Some(Err(reservation.error));
    }
    if reservation.value.None? {
      return None;
    }
    var result := RunReserved(reservation.value.value, script, requests, before);
    return Some(result);
  }

  lemma LimitsAreReservable(preferred: seq<int>, available: nat)
    requires Positive(preferred)
    ensures |preferred| <= available ==>
      var limits := Allocation(preferred, available);
      0 <= Sum(limits) <= available && forall i :: 0 <= i < |limits| ==> limits[i] > 0
  {
    if |preferred| <= available {
      AllocationIsFeasible(preferred, available);
      SumNonNegative(Allocation(preferred, available));
    }
  }

  /** Reserving positive limits within the budget succeeds. */
  lemma ReservingExact(remaining: int, limits: seq<int>, counts: seq<Count>)
    requires |counts| == |limits| && forall i :: 0 <= i < |limits| ==> counts[i] == Exact(limits[i]) && limits[i] > 0
    requires |limits| > 0 && Sum(limits) <= remaining
    ensures Reserved(remaining, counts) == Ok(limits)
  {
    assert Values(counts) == limits;
  }

  method RunKernelBatch(budget: EvaluationBudget?, script: Script, requests: seq<Request>, slots: nat)
    returns (r: Result<(seq<Attempt>, nat), Cause>)
    requires budget != null ==> budget.remaining >= 0
    modifies budget
    ensures (r, Left(budget, slots)) == RunKernel(script, requests, old(Left(budget, slots)), budget != null)
  {
    var remainingBefore := Left(budget, slots);
    if budget != null {
      var admitted := ChargeCalls(budget, script.calls, script.catches);
      if !admitted {
        return Err(Cause.BudgetExhausted);
      }
    }
    if script.attempts.Err? {
      return Err(script.attempts.error);
    }
    var attempts := script.attempts.value;
    if !Aligned(requests, attempts) {
      return Err(MisalignedAttempts);
    }
    var count := ConsumeReportedEvaluationCost(budget, remainingBefore, attempts);
    if count.Err? {
      return Err(count.error);
    }
    return Ok((attempts, count.value));
  }

  method EvaluateStepFeedback(m: RunMethod, ev: Evaluation, cfg: Settings, step: nat, state: State, batch: nat,
                              budget: EvaluationBudget?, slots: nat)
    returns (r: Result<Feedback, Cause>)
    requires cfg.countCost <==> budget != null
    requires budget != null ==> budget.remaining >= 0
    modifies budget
    ensures (r, Left(budget, slots)) == StepFeedback(m, ev, cfg, step, state, batch, old(Left(budget, slots)))
  {
    var asked := AskedRequests(m, state, batch, cfg.directKernel && m.elidesHints);
    if asked.Err? {
      return Err(asked.error);
    }
    var (requests, next) := asked.value;
    var script := ev(step, next, requests, Left(budget, slots));
    var result: Result<(seq<Attempt>, nat), Cause>;
    if budget == null {
      result := RunKernelBatch(budget, script, requests, slots);
    } else {
      var episodes := EvaluateRequestLocalEpisodes(budget, script, requests);
      if episodes.Some? {
        result := episodes.value;
      } else {
        result := RunKernelBatch(budget, script, requests, slots);
      }
    }
    if result.Err? {
      return Err(result.error);
    }
    if script.materialized.Err? {
      return Err(script.materialized.error);
    }
    return Ok(Feedback(result.value.0, next, result.value.1));
  }

  /** The variables of the run loop, as values. */
  ghost predicate Matches(loop: Loop, state: State, history: History, left: int, snapshot: Option<Snapshot>,
                          segmentUnsafe: bool)
  {
    && loop.state == state && loop.history == history && loop.remaining == left
    && loop.snapshot == snapshot && loop.segmentUnsafe == segmentUnsafe
  }

  /** The run loop, for at most `fuel` iterations; None when they do not suffice. */
  method Run(m: RunMethod, ev: Evaluation, cfg: Settings, initialState: Option<State>, fuel: nat)
    returns (ending: Option<Ending>)
    ensures ending ==
      RunFrom(m, ev, cfg, Begin(m, cfg, if initialState.Some? then initialState.value else m.initial), fuel).0
  {
    var runHistory := new StudyRunHistory();
    var budget: EvaluationBudget? := null;
    if cfg.countCost {
      budget := new EvaluationBudget(cfg.maxEvaluations);
    }
    var state: State := if initialState.None? then m.initial else initialState.value;
    var safeSnapshot: Option<Snapshot> := None;
    if cfg.stopAtCheckpoint && m.isSafe(state) {
      var snapshot := runHistory.CheckpointSnapshot(state);
      safeSnapshot := Some(snapshot);
    }
    ending := RunLoop(m, ev, cfg, runHistory, budget, state, safeSnapshot, fuel, Begin(m, cfg, state));
  }

  method RunLoop(m: RunMethod, ev: Evaluation, cfg: Settings, runHistory: StudyRunHistory, budget: EvaluationBudget?,
                 initialState: State, initialSnapshot: Option<Snapshot>, fuel: nat, ghost first: Loop)
    returns (ending: Option<Ending>)
    requires cfg.countCost <==> budget != null
    requires Matches(first, initialState, runHistory.Contents(), Left(budget, cfg.maxEvaluations), initialSnapshot, false)
    requires first.remaining <= cfg.maxEvaluations && |first.heads| == 1
    modifies runHistory, budget
    ensures ending == RunFrom(m, ev, cfg, first, fuel).0
  {
    var state, safeSnapshot, unsafeSinceSafeSnapshot := initialState, initialSnapshot, false;
    var slots: nat := cfg.maxEvaluations;
    ghost var loop := first;
    ghost var goal := RunFrom(m, ev, cfg, loop, fuel).0;
    var steps, stopped := 0, false;
    while !stopped && Left(budget, slots) > 0 && !m.isExhausted(state)
      invariant steps <= fuel && |loop.heads| == steps + 1
      invariant Matches(loop, state, runHistory.Contents(), Left(budget, slots), safeSnapshot, unsafeSinceSafeSnapshot)
      invariant Awaits(m, ev, cfg, loop, fuel - steps, stopped, goal)
      decreases !stopped, fuel - steps
    {
      if steps == fuel {
        RunsOut(m, ev, cfg, loop, goal);
        return None;
      }
      steps := steps + 1;
      ending, state, slots, safeSnapshot, unsafeSinceSafeSnapshot, stopped, loop :=
        RunRound(m, ev, cfg, runHistory, budget, slots, state, safeSnapshot, unsafeSinceSafeSnapshot, steps, loop,
                 fuel - steps, goal);
      if ending.Some? {
        return;
      }
    }
    RunEnds(m, ev, cfg, loop, fuel - steps, stopped, goal);
    var closed := CloseRun(m, cfg, runHistory, state, safeSnapshot);
    return Some(closed);
  }

  /** What is still to come of a run that ends with `goal`. */
  ghost predicate Awaits(m: RunMethod, ev: Evaluation, cfg: Settings, loop: Loop, fuel: nat, stopped: bool,
                         goal: Option<Ending>)
  {
    loop.remaining <= cfg.maxEvaluations
    && goal == if stopped then Some(Close(m, cfg, loop)) else RunFrom(m, ev, cfg, loop, fuel).0
  }

  lemma RunsOut(m: RunMethod, ev: Evaluation, cfg: Settings, loop: Loop, goal: Option<Ending>)
    requires Awaits(m, ev, cfg, loop, 0, false, goal) && GoesOn(m, loop)
    ensures goal.None?
  {
  }

  lemma RunEnds(m: RunMethod, ev: Evaluation, cfg: Settings, loop: Loop, fuel: nat, stopped: bool, goal: Option<Ending>)
    requires Awaits(m, ev, cfg, loop, fuel, stopped, goal) && (stopped || !GoesOn(m, loop))
    ensures goal == Some(Close(m, cfg, loop))
  {
  }

  /** One round of the loop: it ends the run, or leaves the loop variables as the
      next iteration finds them. */
  method RunRound(m: RunMethod, ev: Evaluation, cfg: Settings, runHistory: StudyRunHistory, budget: EvaluationBudget?,
                  slots: nat, state: State, safeSnapshot: Option<Snapshot>, segmentUnsafe: bool, steps: nat,
                  ghost loop: Loop, ghost fuel: nat, ghost goal: Option<Ending>)
    returns (ending: Option<Ending>, next: State, slotsLeft: nat, cut: Option<Snapshot>, isUnsafe: bool, stopped: bool,
             ghost after: Loop)
    requires (cfg.countCost <==> budget != null) && |loop.heads| == steps && GoesOn(m, loop)
    requires Matches(loop, state, runHistory.Contents(), Left(budget, slots), safeSnapshot, segmentUnsafe)
    requires Awaits(m, ev, cfg, loop, fuel + 1, false, goal)
    modifies runHistory, budget
    ensures ending.Some? ==> goal == ending
    ensures ending.None? ==>
      && |after.heads| == steps + 1
      && Matches(after, next, runHistory.Contents(), Left(budget, slotsLeft), cut, isUnsafe)
      && Awaits(m, ev, cfg, after, fuel, stopped, goal)
  {
    ghost var advance := Iterate(m, ev, cfg, loop);
    OneIteration(m, ev, cfg, loop, fuel + 1);
    ending, next, slotsLeft, stopped :=
      RunStep(m, ev, cfg, runHistory, budget, slots, state, safeSnapshot, steps, segmentUnsafe, loop);
    cut, isUnsafe, after := safeSnapshot, segmentUnsafe, loop;
    if ending.None? {
      cut, isUnsafe := UpdatedCheckpoint(m, cfg, runHistory, next, safeSnapshot, segmentUnsafe);
      after := if stopped then advance.last else advance.next;
    }
  }

  lemma OneIteration(m: RunMethod, ev: Evaluation, cfg: Settings, loop: Loop, fuel: nat)
    requires loop.remaining <= cfg.maxEvaluations && GoesOn(m, loop) && fuel > 0
    ensures var advance := Iterate(m, ev, cfg, loop);
      && (advance.End? ==> RunFrom(m, ev, cfg, loop, fuel).0 == Some(advance.ending))
      && (advance.Break? ==> RunFrom(m, ev, cfg, loop, fuel).0 == Some(Close(m, cfg, advance.last)))
      && (advance.Continue? ==> RunFrom(m, ev, cfg, loop, fuel) == RunFrom(m, ev, cfg, advance.next, fuel - 1))
  {
  }

  /** The checkpoint variables of the loop after a step that led to `next`. */
  function CheckpointAfter(m: RunMethod, cfg: Settings, h: History, next: State, snapshot: Option<Snapshot>,
                           segmentUnsafe: bool): (r: (Option<Snapshot>, bool))
  {
    if !cfg.stopAtCheckpoint then (snapshot, segmentUnsafe)
    else if m.isSafe(next) then (Some(TakeSnapshot(h, next)), segmentUnsafe)
    else (snapshot, true)
  }

  method UpdatedCheckpoint(m: RunMethod, cfg: Settings, runHistory: StudyRunHistory, state: State,
                           safeSnapshot: Option<Snapshot>, unsafeSinceSafeSnapshot: bool)
    returns (snapshot: Option<Snapshot>, segmentUnsafe: bool)
    ensures (snapshot, segmentUnsafe) ==
      CheckpointAfter(m, cfg, runHistory.Contents(), state, safeSnapshot, unsafeSinceSafeSnapshot)
  {
    snapshot, segmentUnsafe := safeSnapshot, unsafeSinceSafeSnapshot;
    if cfg.stopAtCheckpoint {
      if m.isSafe(state) {
        var taken := runHistory.CheckpointSnapshot(state);
        snapshot := Some(taken);
      } else {
        segmentUnsafe := true;
      }
    }
  }

  /** One iteration: it ends the run, or yields the next state and slot count and
      tells whether a checkpoint boundary stops the run there. */
  method RunStep(m: RunMethod, ev: Evaluation, cfg: Settings, runHistory: StudyRunHistory, budget: EvaluationBudget?,
                 slots: nat, state: State, safeSnapshot: Option<Snapshot>, steps: nat, segmentUnsafe: bool,
                 ghost loop: Loop)
    returns (ending: Option<Ending>, next: State, slotsLeft: nat, stopped: bool)
    requires (cfg.countCost <==> budget != null) && |loop.heads| == steps
    requires Matches(loop, state, runHistory.Contents(), Left(budget, slots), safeSnapshot, segmentUnsafe)
    requires loop.remaining <= cfg.maxEvaluations
    modifies runHistory, budget
    ensures var advance := Iterate(m, ev, cfg, loop);
      if advance.End? then ending == Some(advance.ending)
      else
        var (cut, isUnsafe) := CheckpointAfter(m, cfg, runHistory.Contents(), next, safeSnapshot, segmentUnsafe);
        && ending.None? && stopped == advance.Break?
        && Matches(if stopped then advance.last else advance.next, next, runHistory.Contents(),
                   Left(budget, slotsLeft), cut, isUnsafe)
  {
    ending, next, slotsLeft, stopped := None, state, slots, false;
    var currentBatchSize := Min(cfg.batchSize, Left(budget, slots));
    var feedback := EvaluateStepFeedback(m, ev, cfg, steps, state, currentBatchSize, budget, slots);
    if feedback.Err? {
      ending := HandleStepFailure(cfg, runHistory, feedback.error, cfg.maxEvaluations - Left(budget, slots), state,
                                  safeSnapshot);
      return;
    }
    var attempts := feedback.value.attempts;
    runHistory.AppendStep(attempts, feedback.value.evaluationCount);
    var told := m.tellAttempts(feedback.value.postAskState, attempts);
    if budget == null {
      slotsLeft := slots - |attempts|;
    }
    ending, next, stopped :=
      FinishStep(m, cfg, runHistory, feedback.value.postAskState, told, safeSnapshot, segmentUnsafe, loop,
                 Left(budget, slotsLeft));
  }

  /** The history has the step; a run method that raises fails the run. */
  method FinishStep(m: RunMethod, cfg: Settings, runHistory: StudyRunHistory, postAskState: State,
                    told: Result<State, Cause>, safeSnapshot: Option<Snapshot>, segmentUnsafe: bool, ghost loop: Loop,
                    ghost left: nat)
    returns (ending: Option<Ending>, next: State, stopped: bool)
    requires loop.snapshot == safeSnapshot && loop.segmentUnsafe == segmentUnsafe
    ensures var h := runHistory.Contents();
      var advance := Told(m, cfg, loop, h, left, postAskState, told);
      if advance.End? then ending == Some(advance.ending)
      else
        var (cut, isUnsafe) := CheckpointAfter(m, cfg, h, next, safeSnapshot, segmentUnsafe);
        && ending.None? && stopped == advance.Break?
        && Matches(if stopped then advance.last else advance.next, next, h, left, cut, isUnsafe)
  {
    if told.Err? {
      var failed := RaiseRunExecutionFailed(runHistory, None, postAskState, safeSnapshot, told.error);
      return Some(failed), postAskState, false;
    }
    return None, told.value, cfg.stopAtCheckpoint && m.isSafe(told.value) && segmentUnsafe;
  }

  method HandleStepFailure(cfg: Settings, runHistory: StudyRunHistory, cause: Cause, count: nat, state: State,
                           safeSnapshot: Option<Snapshot>)
    returns (ending: Option<Ending>)
    ensures ending == Some(FailedAt(cfg, runHistory.Contents(), count, state, safeSnapshot, cause))
  {
    if cause.BudgetExhausted? {
      if cfg.stopAtCheckpoint && safeSnapshot.Some? {
        var report := runHistory.CheckpointReport(safeSnapshot.value);
        return Some(ReturnedOr(report, safeSnapshot.value.state));
      }
      return Some(RaisedBudgetExhausted);
    }
    var failed := RaiseRunExecutionFailed(runHistory, Some(count), state, safeSnapshot, cause);
    return Some(failed);
  }

  method RaiseRunExecutionFailed(runHistory: StudyRunHistory, count: Option<nat>, state: State,
                                 safeSnapshot: Option<Snapshot>, cause: Cause)
    returns (ending: Ending)
    ensures ending == FailedRun(runHistory.Contents(),
      if count.Some? then count.value else runHistory.evaluationCount, state, safeSnapshot, cause)
  {
    var checkpoint: Option<(Report, State)> := None;
    if safeSnapshot.Some? {
      var report := runHistory.CheckpointReport(safeSnapshot.value);
      if report.None? {
        return RaisedCause(cause);
      }
      checkpoint := Some((report.value, safeSnapshot.value.state));
    }
    var partial := runHistory.ToReport(count);
    if partial.None? {
      return RaisedCause(cause);
    }
    return RaisedRunFailed(partial.value, state, checkpoint, cause);
  }

  method CloseRun(m: RunMethod, cfg: Settings, runHistory: StudyRunHistory, state: State,
                  safeSnapshot: Option<Snapshot>)
    returns (ending: Ending)
    ensures ending == ClosedAt(m, cfg, runHistory.Contents(), state, safeSnapshot)
  {
    if cfg.stopAtCheckpoint && !m.isSafe(state) {
      if safeSnapshot.None? {
        return RaisedNoSafeState;
      }
      var report := runHistory.CheckpointReport(safeSnapshot.value);
      return ReturnedOr(report, safeSnapshot.value.state);
    }
    var report := runHistory.ToReport(None);
    return ReturnedOr(report, state);
  }
}
