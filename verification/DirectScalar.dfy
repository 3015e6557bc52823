// The fused loop for scalar objectives with a direct kernel and the sequential
// evaluator, and its refinement of the generic run
// (src/variopt/study/execution.py, src/variopt/evaluation_pipeline.py).
module DirectScalar {
  import opened Outcomes
  import opened EvaluationLedger
  import opened RunHistory
  import opened StudyRun
  import opened StudyRunLoop
  import opened StudyRunSafety

  /** A scalar problem: candidate validation is a hard failure, an exception of the
      objective is recorded as a failed slot. */
  datatype Problem = Problem(
    validate: Proposal -> Result<(), Cause>, objective: Proposal -> Result<real, Cause>, maximize: bool)

  function Score(p: Problem, value: real): real {
    if p.maximize then -value else value
  }

  function EvaluatedRequest(p: Problem, request: Request): (r: Result<Attempt, Cause>) {
    match p.validate(request.proposal)
    case Err(cause) => Err(cause)
    case Ok(_) =>
      match p.objective(request.proposal)
      case Err(cause) => Ok(Failure(request, cause, 1))
      case Ok(value) => Ok(Success(request, value, Score(p, value), 1))
  }

  /** All requests in order; the first invalid candidate is a hard failure. */
  function EvaluatedBatch(p: Problem, requests: seq<Request>): (r: Result<seq<Attempt>, Cause>)
    ensures r.Ok? ==> |r.value| == |requests|
    ensures r.Ok? ==> forall i :: 0 <= i < |requests| ==> EvaluatedRequest(p, requests[i]) == Ok(r.value[i])
    decreases |requests|
  {
    if requests == [] then Ok([])
    else match EvaluatedBatch(p, requests[..|requests| - 1])
      case Err(cause) => Err(cause)
      case Ok(front) =>
        match EvaluatedRequest(p, requests[|requests| - 1])
        case Err(cause) => Err(cause)
        case Ok(attempt) => Ok(front + [attempt])
  }

  /** The direct kernel hands the whole batch to the sequential evaluator. */
  function DirectEvaluation(p: Problem): (ev: Evaluation) {
    (step: nat, s: State, requests: seq<Request>, remaining: nat) =>
      Script([], Ok([]), [|requests|], false, EvaluatedBatch(p, requests), Ok(()))
  }

  // ----- the fused loop -----

  datatype FusedFeedback = FusedFeedback(attempts: seq<Attempt>, postAskState: State)

  /** Kernel hints are never asked for. */
  function FusedStep(m: RunMethod, p: Problem, cfg: Settings, state: State, batch: nat, remaining: nat)
    : (r: (Result<FusedFeedback, Cause>, nat))
    requires batch <= remaining
    ensures r.1 <= remaining
    ensures r.0.Ok? ==> 1 <= |r.0.value.attempts| <= batch
  {
    match m.ask(state, batch)
    case Err(cause) => (Err(cause), remaining)
    case Ok((proposals, next)) =>
      if |proposals| == 0 then (Err(NoProposals), remaining)
      else if |proposals| > batch then (Err(TooManyProposals), remaining)
      else match m.specs(next, proposals)
        case Err(cause) => (Err(cause), remaining)
        case Ok(specs) =>
          if specs.Some? && |specs.value| != |proposals| then (Err(MisalignedSpecs), remaining)
          else
            var left := if cfg.countCost then remaining - |proposals| else remaining;
            match EvaluatedBatch(p, Requests(proposals, specs))
            case Err(cause) => (Err(cause), left)
            case Ok(attempts) => (Ok(FusedFeedback(attempts, next)), left)
  }

  /** A batch without failures may be told as bare records. */
  function FusedTell(m: RunMethod, state: State, attempts: seq<Attempt>): (r: Result<State, Cause>) {
    if Failures(attempts) != [] || !m.directTell then m.tellAttempts(state, attempts)
    else m.tell(state, Successes(attempts))
  }

  function FusedIterate(m: RunMethod, p: Problem, cfg: Settings, loop: Loop): (r: Advance)
    requires loop.remaining <= cfg.maxEvaluations
    ensures r.Continue? ==> r.next.remaining <= loop.remaining
    ensures r.Break? ==> r.last.remaining <= loop.remaining
  {
    var batch := Min(cfg.batchSize, loop.remaining);
    var (result, left) := FusedStep(m, p, cfg, loop.state, batch, loop.remaining);
    match result
    case Err(cause) => End(StepFailed(cfg, loop, cause, left))
    case Ok(feedback) =>
      var h := Append(loop.history, feedback.attempts, Cost(feedback.attempts));
      Told(m, cfg, loop, h, if cfg.countCost then left else loop.remaining - |feedback.attempts|,
           feedback.postAskState, FusedTell(m, feedback.postAskState, feedback.attempts))
  }

  /** The terminal count is read off the budget, not off the history. */
  function FusedClose(m: RunMethod, cfg: Settings, loop: Loop): (r: Ending)
    requires loop.remaining <= cfg.maxEvaluations
  {
    if cfg.stopAtCheckpoint && !m.isSafe(loop.state) then
      if loop.snapshot.None? then RaisedNoSafeState
      else ReturnedOr(Project(loop.snapshot.value, loop.history), loop.snapshot.value.state)
    else ReturnedOr(MakeReport(loop.history, cfg.maxEvaluations - loop.remaining), loop.state)
  }

  function FusedFrom(m: RunMethod, p: Problem, cfg: Settings, loop: Loop, fuel: nat): (r: Option<Ending>)
    requires loop.remaining <= cfg.maxEvaluations
    decreases fuel
  {
    if !GoesOn(m, loop) then Some(FusedClose(m, cfg, loop))
    else if fuel == 0 then None
    else match FusedIterate(m, p, cfg, loop)
      case End(ending) => Some(ending)
      case Break(last) => Some(FusedClose(m, cfg, last))
      case Continue(next) => FusedFrom(m, p, cfg, next, fuel - 1)
  }

  // ----- the scalar result of a generic run -----

  /** The scalar projection builds its result anew, with the same accounting check. */
  function Materialized(ending: Ending): (r: Ending) {
    if ending.Returned? then
      var h := History(ending.report.successes, ending.report.failures, ending.report.trace, 0);
      ReturnedOr(MakeReport(h, ending.report.evaluationCount), ending.state)
    else ending
  }

  /** The projection refuses exactly the reports that count less than their attempts
      have cost, and leaves all other endings as they are. */
  lemma MaterializedExactly(ending: Ending)
    ensures Materialized(ending) ==
      if ending.Returned?
         && ending.report.evaluationCount < Cost(ending.report.successes) + Cost(ending.report.failures)
      then RaisedReportRefused else ending
  {
  }

  // ----- agreement of one step -----

  lemma BatchCosts(p: Problem, requests: seq<Request>)
    requires EvaluatedBatch(p, requests).Ok?
    ensures var attempts := EvaluatedBatch(p, requests).value;
      Cost(attempts) == |attempts| && Aligned(requests, attempts) && UnitCosts(attempts)
  {
    var attempts := EvaluatedBatch(p, requests).value;
    forall i | 0 <= i < |attempts| ensures attempts[i].request == requests[i] && attempts[i].cost == 1 {
      assert EvaluatedRequest(p, requests[i]) == Ok(attempts[i]);
    }
    CostOfUnits(attempts);
  }

  ghost predicate UnitCosts(attempts: seq<Attempt>) {
    forall i :: 0 <= i < |attempts| ==> attempts[i].cost == 1
  }

  lemma {:induction false} CostOfUnits(attempts: seq<Attempt>)
    requires UnitCosts(attempts)
    ensures Cost(attempts) == |attempts|
  {
    if attempts != [] {
      CostOfUnits(attempts[1..]);
    }
  }

  /** The run method meets its contract: `tell` may stand in for `tellAttempts` on
      batches of successes that cost one evaluation each. */
  ghost predicate TellAgrees(m: RunMethod) {
    m.directTell ==> forall state, attempts: seq<Attempt> ::
      UnitCosts(attempts) && (forall i :: 0 <= i < |attempts| ==> attempts[i].Success?) ==>
        m.tell(state, attempts) == m.tellAttempts(state, attempts)
  }

  /** Asking for kernel hints makes no difference to the requests of this step. */
  ghost predicate HintsHarmless(m: RunMethod, state: State, batch: nat) {
    AskedRequests(m, state, batch, m.elidesHints) == AskedRequests(m, state, batch, true)
  }

  /** Hints make no difference exactly when the hook is not called, or there is no
      batch to call it for, or it returns nothing or one hint per proposal, or the
      evaluation specs fail the step in a way that hides what the hook did. */
  lemma HintsHarmlessExactly(m: RunMethod, state: State, batch: nat)
    ensures HintsHarmless(m, state, batch) <==>
      m.elidesHints || match m.ask(state, batch)
        case Err(_) => true
        case Ok((proposals, next)) =>
          |proposals| == 0 || |proposals| > batch
          || var specs, hook := m.specs(next, proposals), m.kernelHints(next, proposals);
             var fault := if specs.Err? then Some(specs.error)
                          else if specs.value.Some? && |specs.value.value| != |proposals| then Some(MisalignedSpecs)
                          else None;
             if hook.Err? then fault == Some(hook.error)
             else hook.value.None? || hook.value.value == |proposals| || fault.Some?
  {
  }

  lemma {:induction false} AllSuccesses(attempts: seq<Attempt>)
    requires Failures(attempts) == []
    ensures Successes(attempts) == attempts && forall i :: 0 <= i < |attempts| ==> attempts[i].Success?
  {
    if attempts != [] {
      assert Failures(attempts[1..]) == [] by {
        CostSplits(attempts);
        CostSplits(attempts[1..]);
      }
      AllSuccesses(attempts[1..]);
      assert attempts == [attempts[0]] + attempts[1..];
    }
  }

  lemma TellsAgree(m: RunMethod, state: State, attempts: seq<Attempt>)
    requires TellAgrees(m) && UnitCosts(attempts)
    ensures FusedTell(m, state, attempts) == m.tellAttempts(state, attempts)
  {
    if Failures(attempts) == [] {
      AllSuccesses(attempts);
    }
  }

  /** When the hint hook does not interfere, the two steps ask for the same
      requests, charge the same and give the same attempts. */
  lemma StepsAgree(m: RunMethod, p: Problem, cfg: Settings, step: nat, state: State, batch: nat, remaining: nat)
    requires cfg.directKernel && batch <= remaining
    ensures var (generic, left) := StepFeedback(m, DirectEvaluation(p), cfg, step, state, batch, remaining);
      var (fused, left') := FusedStep(m, p, cfg, state, batch, remaining);
      HintsHarmless(m, state, batch) ==>
        && left == left'
        && generic == (match fused
             case Err(cause) => Err(cause)
             case Ok(f) => Ok(Feedback(f.attempts, f.postAskState, |f.attempts|)))
        && (fused.Ok? ==> UnitCosts(fused.value.attempts) && Cost(fused.value.attempts) == |fused.value.attempts|)
        && (fused.Ok? && cfg.countCost ==> left' == remaining - |fused.value.attempts|)
  {
    var asked := AskedRequests(m, state, batch, true);
    if asked.Ok? {
      var requests := asked.value.0;
      if EvaluatedBatch(p, requests).Ok? {
        BatchCosts(p, requests);
      }
      OneCall(remaining, |requests|);
    }
  }

  lemma OneCall(remaining: nat, n: nat)
    requires n <= remaining
    ensures Charged(remaining, [n], false) == (remaining - n, true)
  {
    assert [n][1..] == [];
  }

  // ----- the fused loop refines the generic run -----

  /** What a run of unit costs keeps: the history counts the spent budget, in
      either mode. */
  ghost predicate Unit(cfg: Settings, loop: Loop) {
    && loop.remaining <= cfg.maxEvaluations
    && loop.history.evaluationCount == cfg.maxEvaluations - loop.remaining
  }

  ghost predicate HarmlessAt(m: RunMethod, cfg: Settings, loop: Loop) {
    HintsHarmless(m, loop.state, Min(cfg.batchSize, loop.remaining))
  }

  lemma IteratesAgree(m: RunMethod, p: Problem, cfg: Settings, loop: Loop)
    requires cfg.directKernel && TellAgrees(m) && Unit(cfg, loop)
    requires HarmlessAt(m, cfg, loop)
    ensures Iterate(m, DirectEvaluation(p), cfg, loop) == FusedIterate(m, p, cfg, loop)
    ensures AdvanceUnit(cfg, loop.remaining, FusedIterate(m, p, cfg, loop))
  {
    var batch := Min(cfg.batchSize, loop.remaining);
    StepsAgree(m, p, cfg, |loop.heads|, loop.state, batch, loop.remaining);
    var fused := FusedStep(m, p, cfg, loop.state, batch, loop.remaining).0;
    if fused.Ok? {
      TellsAgree(m, fused.value.postAskState, fused.value.attempts);
    }
  }

  lemma ClosesAgree(m: RunMethod, cfg: Settings, loop: Loop)
    requires Unit(cfg, loop)
    ensures FusedClose(m, cfg, loop) == Close(m, cfg, loop) == Materialized(Close(m, cfg, loop))
  {
  }

  /** The run method keeps its contract, and its hint hook does not interfere at the
      heads that the generic run from `loop` reaches. */
  ghost predicate Eligible(m: RunMethod, p: Problem, cfg: Settings, loop: Loop, fuel: nat) {
    TellAgrees(m)
    && Along(GoesOf(m), StepOf(m, DirectEvaluation(p), cfg), (l: Loop) => HarmlessAt(m, cfg, l), loop, fuel)
  }

  ghost predicate AdvanceUnit(cfg: Settings, remaining: nat, advance: Advance) {
    match advance
    case Continue(next) => Unit(cfg, next) && next.remaining < remaining
    case Break(last) => Unit(cfg, last)
    case End(_) => true
  }

  /** Steps that are equal at the heads passed make equal loops, which end within the
      budget. */
  lemma {:induction false} SameLoops(cfg: Settings, goes: Loop -> bool, step: Loop -> Advance, step': Loop -> Advance,
                                     close: Loop -> Ending, close': Loop -> Ending, ok: Loop -> bool, loop: Loop,
                                     fuel: nat)
    requires forall l: Loop :: Unit(cfg, l) ==> close(l) == close'(l)
    requires forall l: Loop :: Unit(cfg, l) && ok(l) ==> step(l) == step'(l) && AdvanceUnit(cfg, l.remaining, step(l))
    requires forall l: Loop :: goes(l) ==> l.remaining > 0
    requires Along(goes, step, ok, loop, fuel) && Unit(cfg, loop) && fuel >= loop.remaining
    ensures LoopFrom(goes, step, close, loop, fuel).0 == LoopFrom(goes, step', close', loop, fuel).0
    ensures LoopFrom(goes, step, close, loop, fuel).0.Some?
    decreases fuel
  {
    if goes(loop) && step(loop).Continue? {
      SameLoops(cfg, goes, step, step', close, close', ok, step(loop).next, fuel - 1);
    }
  }

  function FusedStepOf(m: RunMethod, p: Problem, cfg: Settings): (r: Loop -> Advance) {
    (l: Loop) => if l.remaining <= cfg.maxEvaluations then FusedIterate(m, p, cfg, l) else Break(l)
  }

  function FusedCloseOf(m: RunMethod, cfg: Settings): (r: Loop -> Ending) {
    (l: Loop) => if l.remaining <= cfg.maxEvaluations then FusedClose(m, cfg, l) else RaisedNoSafeState
  }

  lemma {:induction false} FusedIsLoop(m: RunMethod, p: Problem, cfg: Settings, loop: Loop, fuel: nat)
    requires loop.remaining <= cfg.maxEvaluations
    ensures FusedFrom(m, p, cfg, loop, fuel) ==
      LoopFrom(GoesOf(m), FusedStepOf(m, p, cfg), FusedCloseOf(m, cfg), loop, fuel).0
    decreases fuel
  {
    if GoesOn(m, loop) && fuel > 0 {
      var advance := FusedIterate(m, p, cfg, loop);
      if advance.Continue? {
        FusedIsLoop(m, p, cfg, advance.next, fuel - 1);
      }
    }
  }

  lemma FusedAgrees(m: RunMethod, p: Problem, cfg: Settings, loop: Loop, fuel: nat)
    requires cfg.directKernel && Eligible(m, p, cfg, loop, fuel) && Unit(cfg, loop) && fuel >= loop.remaining
    ensures FusedFrom(m, p, cfg, loop, fuel).Some?
    ensures RunFrom(m, DirectEvaluation(p), cfg, loop, fuel).0 == FusedFrom(m, p, cfg, loop, fuel)
  {
    var ev, ok := DirectEvaluation(p), (l: Loop) => HarmlessAt(m, cfg, l);
    forall l: Loop | Unit(cfg, l) ensures CloseOf(m, cfg)(l) == FusedCloseOf(m, cfg)(l) {
      ClosesAgree(m, cfg, l);
    }
    forall l: Loop | Unit(cfg, l) && ok(l)
      ensures StepOf(m, ev, cfg)(l) == FusedStepOf(m, p, cfg)(l)
      ensures AdvanceUnit(cfg, l.remaining, StepOf(m, ev, cfg)(l))
    {
      IteratesAgree(m, p, cfg, l);
    }
    SameLoops(cfg, GoesOf(m), StepOf(m, ev, cfg), FusedStepOf(m, p, cfg),
              CloseOf(m, cfg), FusedCloseOf(m, cfg), ok, loop, fuel);
    RunIsLoop(m, ev, cfg, loop, fuel);
    FusedIsLoop(m, p, cfg, loop, fuel);
  }

  /** A report that a run returns has passed the accounting check already. */
  lemma MaterializedUnchanged(m: RunMethod, ev: Evaluation, cfg: Settings, initial: State, fuel: nat)
    ensures var ending := RunFrom(m, ev, cfg, Begin(m, cfg, initial), fuel).0;
      ending.Some? ==> Materialized(ending.value) == ending.value
  {
    BeginSound(m, cfg, initial);
    RunSound(m, ev, cfg, Begin(m, cfg, initial), fuel);
    var (ending, last) := RunFrom(m, ev, cfg, Begin(m, cfg, initial), fuel);
    if ending.Some? {
      MaterializedAt(m, ev, cfg, last, ending.value);
    }
  }

  lemma MaterializedAt(m: RunMethod, ev: Evaluation, cfg: Settings, last: Loop, ending: Ending)
    requires last.remaining <= cfg.maxEvaluations && EndsAt(m, ev, cfg, last, ending)
    ensures Materialized(ending) == ending
  {
    if ending == Close(m, cfg, last) {
    } else {
      FailureMaterialized(m, ev, cfg, last);
    }
  }

  lemma FailureMaterialized(m: RunMethod, ev: Evaluation, cfg: Settings, loop: Loop)
    requires loop.remaining <= cfg.maxEvaluations && Iterate(m, ev, cfg, loop).End?
    ensures var ending := Iterate(m, ev, cfg, loop).ending; Materialized(ending) == ending
  {
  }

  /** The fused loop ends as the generic run does, projected to a scalar result: the
      same successes, failures, trace, count and state, or the same failure. This is
      for every run method whose `tell` keeps its contract and whose hint hook does
      not interfere where the run gets to, every partial objective, batch size, budget mode and checkpoint
      setting. */
  lemma DirectRefinesRun(m: RunMethod, p: Problem, cfg: Settings, initial: State)
    requires cfg.directKernel && Eligible(m, p, cfg, Begin(m, cfg, initial), cfg.maxEvaluations)
    ensures var generic := RunFrom(m, DirectEvaluation(p), cfg, Begin(m, cfg, initial), cfg.maxEvaluations).0;
      && generic.Some?
      && FusedFrom(m, p, cfg, Begin(m, cfg, initial), cfg.maxEvaluations) == Some(Materialized(generic.value))
  {
    FusedAgrees(m, p, cfg, Begin(m, cfg, initial), cfg.maxEvaluations);
    MaterializedUnchanged(m, DirectEvaluation(p), cfg, initial, cfg.maxEvaluations);
  }

  /** A run method whose hint hook raises, and a problem that never fails. */
  function RaisingHints(): (m: RunMethod) {
    Constant().(kernelHints := (s, q) => Err(Raised(7)))
  }

  function ZeroProblem(): (p: Problem) {
    Problem(q => Ok(()), q => Ok(0.0), false)
  }

  lemma GenericFailsOnHints()
    ensures var m, cfg := RaisingHints(), Settings(1, 1, true, false, true);
      var ending := RunFrom(m, DirectEvaluation(ZeroProblem()), cfg, Begin(m, cfg, 0), 1).0;
      ending.Some? && ending.value.RaisedRunFailed?
  {
    var m, cfg := RaisingHints(), Settings(1, 1, true, false, true);
    assert AskedRequests(m, 0, 1, false) == Err(Raised(7));
    assert Iterate(m, DirectEvaluation(ZeroProblem()), cfg, Begin(m, cfg, 0)).ending.RaisedRunFailed?;
  }

  lemma FusedStepOfZero()
    ensures FusedStep(RaisingHints(), ZeroProblem(), Settings(1, 1, true, false, true), 0, 1, 1)
      == (Ok(FusedFeedback([Success(Request(0, None), 0.0, 0.0, 1)], 0)), 0)
  {
    var requests, done := Requests([0], None), [Success(Request(0, None), 0.0, 0.0, 1)];
    assert requests == [Request(0, None)] && requests[..0] == [];
    assert EvaluatedRequest(ZeroProblem(), requests[0]) == Ok(done[0]);
    assert EvaluatedBatch(ZeroProblem(), []) == Ok([]);
    assert [] + done == done;
    assert EvaluatedBatch(ZeroProblem(), requests) == Ok(done);
  }

  /** A hint hook that raises is never called by the fused loop: there the generic
      run fails where the fused loop returns a result. */
  lemma FusedHidesHintFailure()
    ensures var m, cfg := RaisingHints(), Settings(1, 1, true, false, true);
      var generic := RunFrom(m, DirectEvaluation(ZeroProblem()), cfg, Begin(m, cfg, 0), 1).0;
      var fused := FusedFrom(m, ZeroProblem(), cfg, Begin(m, cfg, 0), 1);
      generic.Some? && generic.value.RaisedRunFailed? && fused.Some? && fused.value.Returned?
  {
    var m, cfg := RaisingHints(), Settings(1, 1, true, false, true);
    GenericFailsOnHints();
    FusedStepOfZero();
    var done := [Success(Request(0, None), 0.0, 0.0, 1)];
    assert Cost(done) == 1 + Cost([]);
    AppendCovered(EMPTY_HISTORY, done, 1);
    var advance := FusedIterate(m, ZeroProblem(), cfg, Begin(m, cfg, 0));
    assert advance.Continue? && advance.next.remaining == 0;
  }
}
