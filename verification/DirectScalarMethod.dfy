// The fused scalar loop as the source writes it, with its budget and history
// objects; it does what FusedFrom says (src/variopt/study/execution.py).
module DirectScalarMethod {
  import opened Outcomes
  import opened EvaluationLedger
  import opened RunHistory
  import opened StudyRun
  import opened StudyRunMethod
  import opened DirectScalar

  /** The requests of one batch, evaluated in order into attempt slots. */
  method EvaluateSlots(p: Problem, proposals: seq<Proposal>, specs: Option<seq<Option<nat>>>)
    returns (r: Result<seq<Attempt>, Cause>)
    requires specs.Some? ==> |specs.value| == |proposals|
    ensures r == EvaluatedBatch(p, Requests(proposals, specs))
  {
    var slots: seq<Attempt> := [];
    ghost var requests := Requests(proposals, specs);
    for index := 0 to |proposals|
      invariant EvaluatedBatch(p, requests[..index]) == Ok(slots)
    {
      assert requests[..index + 1][..index] == requests[..index];
      var proposal := proposals[index];
      var valid := p.validate(proposal);
      if valid.Err? {
        FirstFailureDecides(p, requests, index + 1);
        return Err(valid.error);
      }
      var request := Request(proposal, if specs.None? then None else specs.value[index]);
      var value := p.objective(proposal);
      if value.Err? {
        slots := slots + [Failure(request, value.error, 1)];
      } else {
        slots := slots + [Success(request, value.value, Score(p, value.value), 1)];
      }
    }
    assert requests[..|proposals|] == requests;
    return Ok(slots);
  }

  lemma {:induction false} FirstFailureDecides(p: Problem, requests: seq<Request>, n: nat)
    requires n <= |requests| && EvaluatedBatch(p, requests[..n]).Err?
    ensures EvaluatedBatch(p, requests) == EvaluatedBatch(p, requests[..n])
    decreases |requests|
  {
    if n == |requests| {
      assert requests[..n] == requests;
    } else {
      var front := requests[..|requests| - 1];
      assert front[..n] == requests[..n];
      FirstFailureDecides(p, front, n);
    }
  }

  method FusedStepFeedback(m: RunMethod, p: Problem, cfg: Settings, state: State, batch: nat,
                           budget: EvaluationBudget?, slots: nat)
    returns (r: Result<FusedFeedback, Cause>)
    requires cfg.countCost <==> budget != null
    requires 0 <= batch <= Left(budget, slots)
    modifies budget
    ensures (r, Left(budget, slots)) == FusedStep(m, p, cfg, state, batch, old(Left(budget, slots)))
  {
    var asked := m.ask(state, batch);
    if asked.Err? {
      return Err(asked.error);
    }
    var (proposals, next) := asked.value;
    if |proposals| == 0 {
      return Err(NoProposals);
    }
    if |proposals| > batch {
      return Err(TooManyProposals);
    }
    var specs := m.specs(next, proposals);
    if specs.Err? {
      return Err(specs.error);
    }
    if specs.value.Some? && |specs.value.value| != |proposals| {
      return Err(MisalignedSpecs);
    }
    if budget != null {
      var _ := budget.Consume(|proposals|);
    }
    var attempts := EvaluateSlots(p, proposals, specs.value);
    if attempts.Err? {
      return Err(attempts.error);
    }
    return Ok(FusedFeedback(attempts.value, next));
  }

  /** The run loop, for at most `fuel` iterations; None when they do not suffice. */
  method OptimizeDirectScalarSequential(m: RunMethod, p: Problem, cfg: Settings, initialState: Option<State>, fuel: nat)
    returns (ending: Option<Ending>)
    ensures ending ==
      FusedFrom(m, p, cfg, Begin(m, cfg, if initialState.Some? then initialState.value else m.initial), fuel)
  {
    var runHistory := new StudyRunHistory();
    var budget: EvaluationBudget? := null;
    if cfg.countCost {
      budget := new EvaluationBudget(cfg.maxEvaluations);
    }
    var state: State := if initialState.None? then m.initial else initialState.value;
    var safeSnapshot: Option<Snapshot> := None;
    if cfg.stopAtCheckpoint && m.isSafe(state) {
      var snapshot := runHistory.CheckpointSnapshot(state);
      safeSnapshot := Some(snapshot);
    }
    ghost var first := Begin(m, cfg, state);
    ending := FusedLoop(m, p, cfg, runHistory, budget, state, safeSnapshot, fuel, first,
                        FusedFrom(m, p, cfg, first, fuel));
  }

  method FusedLoop(m: RunMethod, p: Problem, cfg: Settings, runHistory: StudyRunHistory, budget: EvaluationBudget?,
                   initialState: State, initialSnapshot: Option<Snapshot>, fuel: nat, ghost first: Loop,
                   ghost goal: Option<Ending>)
    returns (ending: Option<Ending>)
    requires cfg.countCost <==> budget != null
    requires Matches(first, initialState, runHistory.Contents(), Left(budget, cfg.maxEvaluations), initialSnapshot, false)
    requires FusedAwaits(m, p, cfg, first, fuel, false, goal)
    modifies runHistory, budget
    ensures ending == goal
  {
    var state, safeSnapshot, unsafeSinceSafeSnapshot := initialState, initialSnapshot, false;
    var slots: nat := cfg.maxEvaluations;
    ghost var loop := first;
    var steps, stopped := 0, false;
    while !stopped && Left(budget, slots) > 0 && !m.isExhausted(state)
      invariant steps <= fuel
      invariant Matches(loop, state, runHistory.Contents(), Left(budget, slots), safeSnapshot, unsafeSinceSafeSnapshot)
      invariant FusedAwaits(m, p, cfg, loop, fuel - steps, stopped, goal)
      decreases !stopped, fuel - steps
    {
      if steps == fuel {
        FusedRunsOut(m, p, cfg, loop, goal);
        return None;
      }
      steps := steps + 1;
      ending, state, slots, safeSnapshot, unsafeSinceSafeSnapshot, stopped, loop :=
        FusedRound(m, p, cfg, runHistory, budget, slots, state, safeSnapshot, unsafeSinceSafeSnapshot, loop,
                   fuel - steps, goal);
      if ending.Some? {
        return;
      }
    }
    FusedEnds(m, p, cfg, loop, fuel - steps, stopped, goal);
    var closed := CloseFused(m, cfg, runHistory, budget, slots, state, safeSnapshot, loop);
    return Some(closed);
  }

  /** What is still to come of a fused run that ends with `goal`. */
  ghost predicate FusedAwaits(m: RunMethod, p: Problem, cfg: Settings, loop: Loop, fuel: nat, stopped: bool,
                              goal: Option<Ending>)
  {
    loop.remaining <= cfg.maxEvaluations
    && goal == if stopped then Some(FusedClose(m, cfg, loop)) else FusedFrom(m, p, cfg, loop, fuel)
  }

  lemma FusedRunsOut(m: RunMethod, p: Problem, cfg: Settings, loop: Loop, goal: Option<Ending>)
    requires FusedAwaits(m, p, cfg, loop, 0, false, goal) && GoesOn(m, loop)
    ensures goal.None?
  {
  }

  lemma FusedEnds(m: RunMethod, p: Problem, cfg: Settings, loop: Loop, fuel: nat, stopped: bool, goal: Option<Ending>)
    requires FusedAwaits(m, p, cfg, loop, fuel, stopped, goal) && (stopped || !GoesOn(m, loop))
    ensures loop.remaining <= cfg.maxEvaluations && goal == Some(FusedClose(m, cfg, loop))
  {
  }

  /** One round of the loop: it ends the run, or leaves the loop variables as the
      next iteration finds them. */
  method FusedRound(m: RunMethod, p: Problem, cfg: Settings, runHistory: StudyRunHistory, budget: EvaluationBudget?,
                    slots: nat, state: State, safeSnapshot: Option<Snapshot>, segmentUnsafe: bool,
                    ghost loop: Loop, ghost fuel: nat, ghost goal: Option<Ending>)
    returns (ending: Option<Ending>, next: State, slotsLeft: nat, cut: Option<Snapshot>, isUnsafe: bool, stopped: bool,
             ghost after: Loop)
    requires (cfg.countCost <==> budget != null) && GoesOn(m, loop)
    requires Matches(loop, state, runHistory.Contents(), Left(budget, slots), safeSnapshot, segmentUnsafe)
    requires FusedAwaits(m, p, cfg, loop, fuel + 1, false, goal)
    modifies runHistory, budget
    ensures ending.Some? ==> goal == ending
    ensures ending.None? ==>
      && Matches(after, next, runHistory.Contents(), Left(budget, slotsLeft), cut, isUnsafe)
      && FusedAwaits(m, p, cfg, after, fuel, stopped, goal)
  {
    ghost var advance := FusedIterate(m, p, cfg, loop);
    OneFusedIteration(m, p, cfg, loop, fuel + 1);
    ending, next, slotsLeft, stopped :=
      FusedRunStep(m, p, cfg, runHistory, budget, slots, state, safeSnapshot, segmentUnsafe, loop);
    cut, isUnsafe, after := safeSnapshot, segmentUnsafe, loop;
    if ending.None? {
      cut, isUnsafe := UpdatedCheckpoint(m, cfg, runHistory, next, safeSnapshot, segmentUnsafe);
      after := if stopped then advance.last else advance.next;
    }
  }

  lemma OneFusedIteration(m: RunMethod, p: Problem, cfg: Settings, loop: Loop, fuel: nat)
    requires loop.remaining <= cfg.maxEvaluations && GoesOn(m, loop) && fuel > 0
    ensures var advance := FusedIterate(m, p, cfg, loop);
      && (advance.End? ==> FusedFrom(m, p, cfg, loop, fuel) == Some(advance.ending))
      && (advance.Break? ==> FusedFrom(m, p, cfg, loop, fuel) == Some(FusedClose(m, cfg, advance.last)))
      && (advance.Continue? ==> FusedFrom(m, p, cfg, loop, fuel) == FusedFrom(m, p, cfg, advance.next, fuel - 1))
  {
  }

  /** One iteration: it ends the run, or yields the next state and slot count and
      tells whether a checkpoint boundary stops the run there. */
  method FusedRunStep(m: RunMethod, p: Problem, cfg: Settings, runHistory: StudyRunHistory, budget: EvaluationBudget?,
                      slots: nat, state: State, safeSnapshot: Option<Snapshot>, segmentUnsafe: bool, ghost loop: Loop)
    returns (ending: Option<Ending>, next: State, slotsLeft: nat, stopped: bool)
    requires cfg.countCost <==> budget != null
    requires Matches(loop, state, runHistory.Contents(), Left(budget, slots), safeSnapshot, segmentUnsafe)
    requires loop.remaining <= cfg.maxEvaluations
    modifies runHistory, budget
    ensures var advance := FusedIterate(m, p, cfg, loop);
      if advance.End? then ending == Some(advance.ending)
      else
        var (cut, isUnsafe) := CheckpointAfter(m, cfg, runHistory.Contents(), next, safeSnapshot, segmentUnsafe);
        && ending.None? && stopped == advance.Break?
        && Matches(if stopped then advance.last else advance.next, next, runHistory.Contents(),
                   Left(budget, slotsLeft), cut, isUnsafe)
  {
    ending, next, slotsLeft, stopped := None, state, slots, false;
    var currentBatchSize := Min(cfg.batchSize, Left(budget, slots));
    var feedback := FusedStepFeedback(m, p, cfg, state, currentBatchSize, budget, slots);
    if feedback.Err? {
      ending := HandleStepFailure(cfg, runHistory, feedback.error, cfg.maxEvaluations - Left(budget, slots), state,
                                  safeSnapshot);
      return;
    }
    var attempts := feedback.value.attempts;
    runHistory.AppendStep(attempts, Cost(attempts));
    var told: Result<State, Cause>;
    if Failures(attempts) != [] || !m.directTell {
      told := m.tellAttempts(feedback.value.postAskState, attempts);
    } else {
      told := m.tell(feedback.value.postAskState, Successes(attempts));
    }
    if budget == null {
      slotsLeft := slots - |attempts|;
    }
    ending, next, stopped :=
      FinishStep(m, cfg, runHistory, feedback.value.postAskState, told, safeSnapshot, segmentUnsafe, loop,
                 Left(budget, slotsLeft));
  }

  method CloseFused(m: RunMethod, cfg: Settings, runHistory: StudyRunHistory, budget: EvaluationBudget?, slots: nat,
                    state: State, safeSnapshot: Option<Snapshot>, ghost loop: Loop)
    returns (ending: Ending)
    requires Matches(loop, state, runHistory.Contents(), Left(budget, slots), safeSnapshot, loop.segmentUnsafe)
    requires loop.remaining <= cfg.maxEvaluations
    ensures ending == FusedClose(m, cfg, loop)
  {
    if cfg.stopAtCheckpoint && !m.isSafe(state) {
      if safeSnapshot.None? {
        return RaisedNoSafeState;
      }
      var report := runHistory.CheckpointReport(safeSnapshot.value);
      return ReturnedOr(report, safeSnapshot.value.state);
    }
    var report := runHistory.ToReport(Some(cfg.maxEvaluations - Left(budget, slots)));
    return ReturnedOr(report, state);
  }
}
