// What the attempts of a direct evaluation say, and that "best" means best in the
// direction of the problem (src/variopt/direction.py,
// src/variopt/evaluation_pipeline.py).
module DirectScores {
  import opened Outcomes
  import opened RunHistory
  import opened StudyRun
  import opened StudyRunLoop
  import opened StudyRunSafety
  import opened StudyRunSteps
  import opened DirectScalar

  // ----- one batch -----

  /** The attempt is what validation and objective make of its request: one evaluation,
      a success with the objective's value or a failure with its exception. */
  predicate Tells(p: Problem, request: Request, attempt: Attempt) {
    && attempt.request == request && attempt.cost == 1 && p.validate(request.proposal).Ok?
    && (if attempt.Success? then p.objective(request.proposal) == Ok(attempt.value)
        else p.objective(request.proposal) == Err(attempt.cause))
  }

  /** A batch is evaluated exactly when all its candidates are valid; otherwise the
      first invalid one decides the failure. */
  lemma {:induction false} BatchExactly(p: Problem, requests: seq<Request>)
    ensures var r := EvaluatedBatch(p, requests);
      && (r.Ok? <==> forall i :: 0 <= i < |requests| ==> p.validate(requests[i].proposal).Ok?)
      && (r.Ok? ==> forall i :: 0 <= i < |requests| ==> Tells(p, requests[i], r.value[i]))
      && (r.Err? ==> exists k: nat :: FirstInvalid(p, requests, k, r.error))
    decreases |requests|
  {
    if requests != [] {
      var n := |requests| - 1;
      BatchExactly(p, requests[..n]);
      if EvaluatedBatch(p, requests[..n]).Err? {
        var k: nat :| FirstInvalid(p, requests[..n], k, EvaluatedBatch(p, requests[..n]).error);
        assert FirstInvalid(p, requests, k, EvaluatedBatch(p, requests).error);
      } else if EvaluatedBatch(p, requests).Err? {
        assert FirstInvalid(p, requests, n, EvaluatedBatch(p, requests).error);
      }
    }
  }

  predicate FirstInvalid(p: Problem, requests: seq<Request>, k: nat, cause: Cause) {
    && k < |requests| && p.validate(requests[k].proposal) == Err(cause)
    && forall i :: 0 <= i < k ==> p.validate(requests[i].proposal).Ok?
  }

  // ----- the best is the best in the direction of the problem -----

  /** At least as good a value. */
  predicate AtLeastAsGood(p: Problem, a: real, b: real) {
    if p.maximize then a >= b else a <= b
  }

  /** Records of this problem: every value is the objective's, and scores order the
      records as the direction orders their values. */
  ghost predicate Ranked(p: Problem, records: seq<Attempt>) {
    && (forall i :: 0 <= i < |records| ==>
          records[i].Success? && p.objective(records[i].request.proposal) == Ok(records[i].value))
    && (forall i, j :: 0 <= i < |records| && 0 <= j < |records| ==>
          (records[i].score <= records[j].score <==> AtLeastAsGood(p, records[i].value, records[j].value)))
  }

  /** No record has a better value than the first one with the least score. */
  lemma BestIsOptimal(p: Problem, records: seq<Attempt>, k: nat)
    requires Ranked(p, records) && IsBest(records, k)
    ensures forall i :: 0 <= i < |records| ==> AtLeastAsGood(p, records[k].value, records[i].value)
  {
  }

  /** The score of one record, told from its value. */
  predicate Scored(p: Problem, a: Attempt) {
    a.Success? && p.objective(a.request.proposal) == Ok(a.value)
    && a.score + a.value == if p.maximize then 0.0 else a.value + a.value
  }

  ghost predicate AllScored(p: Problem, records: seq<Attempt>) {
    forall i :: 0 <= i < |records| ==> Scored(p, records[i])
  }

  lemma ScoredIsRanked(p: Problem, records: seq<Attempt>)
    requires AllScored(p, records)
    ensures Ranked(p, records)
  {
    forall i, j | 0 <= i < |records| && 0 <= j < |records|
      ensures records[i].score <= records[j].score <==> AtLeastAsGood(p, records[i].value, records[j].value)
    {
      assert Scored(p, records[i]) && Scored(p, records[j]);
    }
    forall i | 0 <= i < |records|
      ensures records[i].Success? && p.objective(records[i].request.proposal) == Ok(records[i].value)
    {
      assert Scored(p, records[i]);
    }
  }

  lemma {:induction false} SuccessesScored(p: Problem, attempts: seq<Attempt>)
    requires forall i :: 0 <= i < |attempts| && attempts[i].Success? ==> Scored(p, attempts[i])
    ensures AllScored(p, Successes(attempts))
  {
    if attempts != [] {
      SuccessesScored(p, attempts[1..]);
      assert attempts[0].Success? ==> Scored(p, attempts[0]);
    }
  }

  lemma BatchScored(p: Problem, requests: seq<Request>)
    requires EvaluatedBatch(p, requests).Ok?
    ensures AllScored(p, Successes(EvaluatedBatch(p, requests).value))
  {
    var attempts := EvaluatedBatch(p, requests).value;
    forall i | 0 <= i < |attempts| && attempts[i].Success? ensures Scored(p, attempts[i]) {
      assert EvaluatedRequest(p, requests[i]) == Ok(attempts[i]);
    }
    SuccessesScored(p, attempts);
  }

  // ----- over a run -----

  lemma StepScored(m: RunMethod, p: Problem, cfg: Settings, loop: Loop, feedback: Feedback)
    requires StepFeedback(m, DirectEvaluation(p), cfg, |loop.heads|, loop.state, Min(cfg.batchSize, loop.remaining),
                          loop.remaining).0 == Ok(feedback)
    ensures AllScored(p, Successes(feedback.attempts))
  {
    var requests := AskedRequests(m, loop.state, Min(cfg.batchSize, loop.remaining),
                                  cfg.directKernel && m.elidesHints).value.0;
    DirectKernelOnly(p, requests, loop.remaining, cfg.countCost);
    BatchScored(p, requests);
  }

  /** A direct evaluation gives just what the evaluator gave for the batch. */
  lemma DirectKernelOnly(p: Problem, requests: seq<Request>, remaining: nat, countCost: bool)
    requires requests != []
    ensures var script := Script([], Ok([]), [|requests|], false, EvaluatedBatch(p, requests), Ok(()));
      var result := EvaluatedRequests(script, requests, remaining, countCost).0;
      result.Ok? ==> EvaluatedBatch(p, requests) == Ok(result.value.0)
  {
    var script := Script([], Ok([]), [|requests|], false, EvaluatedBatch(p, requests), Ok(()));
    assert EpisodeLimits(script, |requests|, remaining, countCost) == Ok(None);
  }

  lemma AppendScored(p: Problem, h: History, attempts: seq<Attempt>, count: nat)
    requires AllScored(p, h.successes) && AllScored(p, Successes(attempts))
    ensures AllScored(p, Append(h, attempts, count).successes)
  {
  }

  /** Every trace event of a head shows the best value that its step found. */
  ghost predicate TraceOptimal(p: Problem, heads: seq<Head>) {
    forall k :: 0 < k < |heads| ==> EventOptimal(p, heads[k - 1].history, heads[k].history)
  }

  ghost predicate EventOptimal(p: Problem, before: History, after: History) {
    && before.successes <= after.successes && |after.trace| == |before.trace| + 1
    && var event, found := after.trace[|before.trace|], after.successes[|before.successes|..];
       && (event.value.None? <==> found == [])
       && (event.value.Some? ==>
             && (exists k :: 0 <= k < |found| && found[k].Success? && found[k].value == event.value.value)
             && (forall i :: 0 <= i < |found| ==>
                   found[i].Success? && AtLeastAsGood(p, event.value.value, found[i].value)))
  }

  lemma AppendOptimal(p: Problem, h: History, attempts: seq<Attempt>, count: nat)
    requires AllScored(p, Successes(attempts))
    ensures EventOptimal(p, h, Append(h, attempts, count))
  {
    AppendTells(h, attempts, count);
    var after := Append(h, attempts, count);
    var event, found := after.trace[|h.trace|], after.successes[|h.successes|..];
    assert found == Successes(attempts);
    ScoredIsRanked(p, found);
    if event.value.Some? {
      var k: nat :| IsBest(found, k) && event.value == Some(found[k].value);
      BestIsOptimal(p, found, k);
    }
  }

  ghost predicate Optimal(p: Problem, loop: Loop) {
    && AllScored(p, loop.history.successes) && TraceOptimal(p, loop.heads)
    && loop.heads != [] && loop.heads[|loop.heads| - 1] == Head(loop.state, loop.history)
  }

  lemma IterateOptimal(m: RunMethod, p: Problem, cfg: Settings, loop: Loop)
    requires Sound(m, cfg, loop) && Optimal(p, loop) && GoesOn(m, loop)
    requires !Iterate(m, DirectEvaluation(p), cfg, loop).End?
    ensures var after := AfterStep(Iterate(m, DirectEvaluation(p), cfg, loop)); Sound(m, cfg, after) && Optimal(p, after)
  {
    var ev := DirectEvaluation(p);
    IterateSound(m, ev, cfg, loop);
    var feedback, head := IterateAdds(m, ev, cfg, loop);
    StepScored(m, p, cfg, loop, feedback);
    AppendScored(p, loop.history, feedback.attempts, feedback.evaluationCount);
    AppendOptimal(p, loop.history, feedback.attempts, feedback.evaluationCount);
    var heads := AfterStep(Iterate(m, ev, cfg, loop)).heads;
    forall k | 0 < k < |heads| ensures EventOptimal(p, heads[k - 1].history, heads[k].history) {
      assert heads[k - 1] == loop.heads[k - 1];
      assert k < |loop.heads| ==> heads[k] == loop.heads[k];
    }
  }

  lemma RunOptimal(m: RunMethod, p: Problem, cfg: Settings, initial: State, fuel: nat)
    ensures var last := RunFrom(m, DirectEvaluation(p), cfg, Begin(m, cfg, initial), fuel).1;
      Sound(m, cfg, last) && Optimal(p, last)
  {
    var ev := DirectEvaluation(p);
    BeginSound(m, cfg, initial);
    var inv := (l: Loop) => Sound(m, cfg, l) && Optimal(p, l);
    forall l: Loop | inv(l) && GoesOf(m)(l) ensures Keeps(inv, StepOf(m, ev, cfg)(l)) {
      if !Iterate(m, ev, cfg, l).End? {
        IterateOptimal(m, p, cfg, l);
      }
    }
    LoopKeeps(GoesOf(m), StepOf(m, ev, cfg), CloseOf(m, cfg), inv, Begin(m, cfg, initial), fuel);
    RunIsLoop(m, ev, cfg, Begin(m, cfg, initial), fuel);
  }

  /** The history of every run of a direct evaluation, at every head: its best success
      has the best value that was found, as the objective gave it, and every trace event
      the best value of its step. */
  lemma RunBestIsOptimal(m: RunMethod, p: Problem, cfg: Settings, initial: State, fuel: nat)
    ensures var last := RunFrom(m, DirectEvaluation(p), cfg, Begin(m, cfg, initial), fuel).1;
      && TraceOptimal(p, last.heads)
      && (last.history.successes != [] ==> BestOf(p, last.history.successes))
  {
    RunOptimal(m, p, cfg, initial, fuel);
    var last := RunFrom(m, DirectEvaluation(p), cfg, Begin(m, cfg, initial), fuel).1;
    if last.history.successes != [] {
      ScoredBest(p, last.history.successes);
    }
  }

  ghost predicate BestOf(p: Problem, successes: seq<Attempt>)
    requires successes != []
  {
    && (forall i :: 0 <= i < |successes| ==> successes[i].Success?)
    && var best := successes[BestIndex(successes)];
       && p.objective(best.request.proposal) == Ok(best.value)
       && forall i :: 0 <= i < |successes| ==>
            && p.objective(successes[i].request.proposal) == Ok(successes[i].value)
            && AtLeastAsGood(p, best.value, successes[i].value)
  }

  lemma ScoredBest(p: Problem, successes: seq<Attempt>)
    requires successes != [] && AllScored(p, successes)
    ensures BestOf(p, successes)
  {
    ScoredIsRanked(p, successes);
    BestIsOptimal(p, successes, BestIndex(successes));
  }

  /** So does every report that a run returns. */
  lemma ReportBestIsOptimal(m: RunMethod, p: Problem, cfg: Settings, initial: State, fuel: nat)
    ensures var ending := RunFrom(m, DirectEvaluation(p), cfg, Begin(m, cfg, initial), fuel).0;
      ending.Some? && ending.value.Returned? && ending.value.report.successes != [] ==>
        BestOf(p, ending.value.report.successes)
  {
    var ev, loop := DirectEvaluation(p), Begin(m, cfg, initial);
    RunOptimal(m, p, cfg, initial, fuel);
    RunSound(m, ev, cfg, loop, fuel);
    var (ending, last) := RunFrom(m, ev, cfg, loop, fuel);
    if ending.Some? && ending.value.Returned? && ending.value.report.successes != [] {
      ReturnedIsPart(m, ev, cfg, last, ending.value);
      ScoredBest(p, ending.value.report.successes);
    }
  }

  /** A returned report shows the history of the last head, or of a cut of it. */
  lemma ReturnedIsPart(m: RunMethod, ev: Evaluation, cfg: Settings, last: Loop, ending: Ending)
    requires Sound(m, cfg, last) && EndsAt(m, ev, cfg, last, ending) && ending.Returned?
    ensures ending.report.successes <= last.history.successes
  {
    if last.snapshot.Some? {
      CutIsHead(m, cfg, last, last.history);
    }
    if ending != Close(m, cfg, last) {
      var inStep, h, left, state, cause := EndsAsFailure(m, ev, cfg, last);
    }
  }
}
