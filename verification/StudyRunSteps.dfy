// What one step of the generic run charges, exactly, and how the heads of a run
// follow from one another (src/variopt/study/execution.py).
module StudyRunSteps {
  import opened Outcomes
  import opened MaxMinAllocator
  import opened EvaluationLedger
  import opened RunHistory
  import opened StudyRun
  import opened StudyRunLoop
  import opened StudyRunSafety

  // ----- the runner's charges -----

  /** What is left before and after each sub-batch: one that fits is charged. */
  predicate ChargesInTurn(calls: seq<nat>, lefts: seq<nat>) {
    && |lefts| == |calls| + 1
    && forall i :: 0 <= i < |calls| ==>
         lefts[i + 1] == if calls[i] <= lefts[i] then lefts[i] - calls[i] else lefts[i]
  }

  /** Sub-batches are charged in turn; the first one that does not fit stops a kernel
      that does not catch the refusal. */
  lemma {:induction false} ChargedExactly(remaining: nat, calls: seq<nat>, catches: bool)
    returns (lefts: seq<nat>, stop: nat)
    ensures stop <= |calls| && ChargesInTurn(calls[..stop], lefts) && lefts[0] == remaining
    ensures Charged(remaining, calls, catches) == (lefts[stop], stop == |calls|)
    ensures !catches ==> forall i :: 0 <= i < stop ==> calls[i] <= lefts[i]
    ensures stop < |calls| ==> !catches && calls[stop] > lefts[stop]
    decreases calls
  {
    if calls == [] || (!catches && calls[0] > remaining) {
      lefts, stop := [remaining], 0;
    } else {
      var next := if calls[0] <= remaining then remaining - calls[0] else remaining;
      var rest, k := ChargedExactly(next, calls[1..], catches);
      lefts, stop := [remaining] + rest, k + 1;
      assert calls[..stop][1..] == calls[1..][..k];
      forall i | 0 <= i < stop
        ensures lefts[i + 1] == if calls[i] <= lefts[i] then lefts[i] - calls[i] else lefts[i]
        ensures !catches ==> calls[i] <= lefts[i]
      {
        if i > 0 {
          assert calls[i] == calls[1..][..k][i - 1] && lefts[i] == rest[i - 1];
        }
      }
    }
  }

  function Total(calls: seq<nat>): (r: nat) {
    if calls == [] then 0 else calls[0] + Total(calls[1..])
  }

  /** Without catching, all sub-batches are admitted exactly when they fit together. */
  lemma {:induction false} AdmittedExactly(remaining: nat, calls: seq<nat>)
    ensures var (left, admitted) := Charged(remaining, calls, false);
      (admitted <==> Total(calls) <= remaining) && (admitted ==> left == remaining - Total(calls))
    decreases calls
  {
    if calls != [] && calls[0] <= remaining {
      AdmittedExactly(remaining - calls[0], calls[1..]);
    }
  }

  // ----- the kernel path -----

  /** The kernel ends with one attempt per request, none of its refused sub-batches
      unanswered. */
  predicate KernelDelivers(script: Script, requests: seq<Request>, remaining: nat) {
    Charged(remaining, script.calls, script.catches).1 && script.attempts.Ok?
    && Aligned(requests, script.attempts.value)
  }

  /** Cost mode: the runner's charges count towards the reported cost. A step counts
      the larger of the two, the ledger loses just that, and it is exhausted exactly
      when the reported cost exceeds what there was before the step. */
  lemma KernelChargesExactly(script: Script, requests: seq<Request>, remaining: nat)
    ensures var (result, left) := RunKernel(script, requests, remaining, true);
      var charged := remaining - Charged(remaining, script.calls, script.catches).0;
      && (result.Ok? <==> KernelDelivers(script, requests, remaining) && Cost(script.attempts.value) <= remaining)
      && (result.Ok? ==>
            && result.value.0 == script.attempts.value
            && result.value.1 >= Cost(script.attempts.value) && result.value.1 >= charged
            && (result.value.1 == Cost(script.attempts.value) || result.value.1 == charged)
            && left == remaining - result.value.1)
      && (result.Err? ==> left == remaining - charged)
      && (KernelDelivers(script, requests, remaining) ==>
            (result == Err(Cause.BudgetExhausted) <==> Cost(script.attempts.value) > remaining))
      && (!Charged(remaining, script.calls, script.catches).1 ==> result == Err(Cause.BudgetExhausted))
  {
  }

  /** Slot mode: nothing is charged, and the reported cost is counted. */
  lemma KernelInSlotMode(script: Script, requests: seq<Request>, remaining: nat)
    ensures var (result, left) := RunKernel(script, requests, remaining, false);
      && left == remaining
      && (result.Ok? <==> script.attempts.Ok? && Aligned(requests, script.attempts.value))
      && (result.Ok? ==> result.value == (script.attempts.value, Cost(script.attempts.value)))
  {
  }

  // ----- the episode path -----

  predicate Preferred(preferences: seq<Option<int>>, k: nat) {
    k < |preferences| && preferences[k].Some? && preferences[k].value > 0
  }

  predicate Wants(preferences: seq<Option<int>>, wanted: seq<int>) {
    |wanted| <= |preferences| && forall i :: 0 <= i < |wanted| ==> preferences[i] == Some(wanted[i])
  }

  /** The first request without a positive preference decides: an invalid preference
      is an error, a missing one means no episodes. */
  lemma {:induction false} PreferencesExactly(preferences: seq<Option<int>>, n: nat) returns (k: nat)
    ensures k <= n && (forall i :: 0 <= i < k ==> Preferred(preferences, i)) && (k < n ==> !Preferred(preferences, k))
    ensures var r := PreferredLimits(preferences, n);
      && (k == n ==> r.Ok? && r.value.Some? && |r.value.value| == n && Wants(preferences, r.value.value))
      && (k < n ==> r == if k < |preferences| && preferences[k].Some? then Err(InvalidPreference) else Ok(None))
    decreases n
  {
    if n == 0 || !Preferred(preferences, 0) {
      k := 0;
    } else {
      var rest := PreferencesExactly(preferences[1..], n - 1);
      k := rest + 1;
      forall i | 0 <= i < k ensures Preferred(preferences, i) {
        assert i > 0 ==> Preferred(preferences[1..], i - 1);
      }
      if k < n {
        assert !Preferred(preferences[1..], rest);
      } else {
        var tail := PreferredLimits(preferences[1..], n - 1).value.value;
        WantsMore(preferences, tail, PreferredLimits(preferences, n).value.value);
      }
    }
  }

  lemma WantsMore(preferences: seq<Option<int>>, tail: seq<int>, wanted: seq<int>)
    requires Preferred(preferences, 0) && Wants(preferences[1..], tail) && wanted == [preferences[0].value] + tail
    ensures Wants(preferences, wanted)
  {
    forall i | 0 <= i < |wanted| ensures preferences[i] == Some(wanted[i]) {
      if i > 0 {
        assert preferences[1..][i - 1] == Some(tail[i - 1]);
      }
    }
  }

  /** Episodes are run exactly in cost mode, with a positive preference for every
      request and at least one unit each; their limits are the round robin. */
  lemma EpisodesExactly(script: Script, n: nat, remaining: nat, countCost: bool)
    ensures var r := EpisodeLimits(script, n, remaining, countCost);
      && (r.Ok? && r.value.Some? <==>
            countCost && n <= remaining && forall i :: 0 <= i < n ==> Preferred(script.preferences, i))
      && (r.Ok? && r.value.Some? ==>
            exists wanted :: |wanted| == n && Wants(script.preferences, wanted)
              && r.value.value == Allocation(wanted, remaining))
  {
    var k := PreferencesExactly(script.preferences, n);
    if k == n && countCost && n <= remaining {
      var wanted := PreferredLimits(script.preferences, n).value.value;
      assert EpisodeLimits(script, n, remaining, countCost) == Ok(Some(Allocation(wanted, remaining)));
    }
  }

  /** The reservation is settled exactly when every episode stays within its limit; a
      failure of any kind forfeits all of it. */
  lemma EpisodesChargeExactly(script: Script, requests: seq<Request>, limits: seq<int>, remaining: nat)
    requires |limits| == |requests| && 0 <= Sum(limits) <= remaining
    ensures var (result, left) := RunEpisodes(script, requests, limits, remaining);
      && (result.Ok? <==> script.episodes.Ok? && Aligned(requests, script.episodes.value)
                          && forall i :: 0 <= i < |limits| ==> script.episodes.value[i].cost <= limits[i])
      && (result.Ok? ==> result.value == (script.episodes.value, Cost(script.episodes.value))
                         && left == remaining - Cost(script.episodes.value))
      && (result.Err? ==> left == remaining - Sum(limits))
  {
    if script.episodes.Ok? && Aligned(requests, script.episodes.value) {
      var attempts := script.episodes.value;
      if SettledCost(limits, ExactCounts(attempts)).Ok? {
        SettledCostIsCost(limits, attempts);
      }
    }
  }

  // ----- one step -----

  predicate RequestsFor(requests: seq<Request>, proposals: seq<Proposal>, specs: Option<seq<Option<nat>>>) {
    && |requests| == |proposals|
    && (specs.Some? ==> |specs.value| == |proposals|)
    && forall i :: 0 <= i < |requests| ==>
         requests[i].proposal == proposals[i] && requests[i].spec == if specs.None? then None else specs.value[i]
  }

  /** The run method asks for `size` evaluations, gets at most that many proposals, and
      has a specification for each or for none. */
  ghost predicate AsksFor(m: RunMethod, state: State, size: nat, requests: seq<Request>, asked: State) {
    exists proposals, specs ::
      && m.ask(state, size) == Ok((proposals, asked)) && m.specs(asked, proposals) == Ok(specs)
      && 1 <= |proposals| <= size && RequestsFor(requests, proposals, specs)
  }

  /** The method asks for something, within the size, with aligned specifications and
      hints. */
  predicate CanAsk(m: RunMethod, state: State, size: nat, skipHints: bool) {
    m.ask(state, size).Ok?
    && var (proposals, asked) := m.ask(state, size).value;
       var specs, hints := m.specs(asked, proposals), m.kernelHints(asked, proposals);
       && 1 <= |proposals| <= size
       && specs.Ok? && (specs.value.Some? ==> |specs.value.value| == |proposals|)
       && (skipHints || (hints.Ok? && (hints.value.Some? ==> hints.value.value == |proposals|)))
  }

  /** When asking gives requests, and which; `skipHints` says that the hint hook is not
      called. */
  lemma AskedExactly(m: RunMethod, state: State, size: nat, skipHints: bool)
    ensures var r := AskedRequests(m, state, size, skipHints);
      (r.Ok? <==> CanAsk(m, state, size, skipHints)) && (r.Ok? ==> AsksFor(m, state, size, r.value.0, r.value.1))
  {
  }

  /** Cost mode: what the runner has charged before the reported cost is reconciled;
      episodes are charged by their settlement alone. */
  function RunnerCharge(script: Script, n: nat, remaining: nat): (r: nat) {
    var limits := EpisodeLimits(script, n, remaining, true);
    if limits.Ok? && limits.value.None? then remaining - Charged(remaining, script.calls, script.catches).0 else 0
  }

  /** A completed step: the requests are those asked for, with one attempt each in
      their order; it counts the larger of reported cost and runner charge, and the
      ledger loses what it counts. In slot mode it counts the reported cost. */
  ghost predicate StepIs(m: RunMethod, ev: Evaluation, cfg: Settings, step: nat, state: State, size: nat, remaining: nat,
                         feedback: Feedback, left: nat, requests: seq<Request>)
  {
    var cost, charge :=
      Cost(feedback.attempts), RunnerCharge(ev(step, feedback.postAskState, requests, remaining), |requests|, remaining);
    && AsksFor(m, state, size, requests, feedback.postAskState) && Aligned(requests, feedback.attempts)
    && (if cfg.countCost
        then feedback.evaluationCount == (if cost > charge then cost else charge) <= remaining
             && left == remaining - feedback.evaluationCount
        else feedback.evaluationCount == cost && left == remaining)
  }

  lemma StepCountsExactly(m: RunMethod, ev: Evaluation, cfg: Settings, step: nat, state: State, size: nat, remaining: nat)
    returns (requests: seq<Request>)
    requires StepFeedback(m, ev, cfg, step, state, size, remaining).0.Ok?
    ensures var (result, left) := StepFeedback(m, ev, cfg, step, state, size, remaining);
      StepIs(m, ev, cfg, step, state, size, remaining, result.value, left, requests)
  {
    var skip := cfg.directKernel && m.elidesHints;
    AskedExactly(m, state, size, skip);
    requests := AskedRequests(m, state, size, skip).value.0;
    var asked := AskedRequests(m, state, size, skip).value.1;
    EvaluationCountsExactly(ev(step, asked, requests, remaining), requests, remaining, cfg.countCost);
  }

  lemma EvaluationCountsExactly(script: Script, requests: seq<Request>, remaining: nat, countCost: bool)
    requires EvaluatedRequests(script, requests, remaining, countCost).0.Ok?
    ensures var (result, left) := EvaluatedRequests(script, requests, remaining, countCost);
      var (attempts, count) := result.value;
      var cost, charge := Cost(attempts), RunnerCharge(script, |requests|, remaining);
      && Aligned(requests, attempts)
      && (if countCost then count == (if cost > charge then cost else charge) <= remaining && left == remaining - count
          else count == cost && left == remaining)
  {
    var limits := EpisodeLimits(script, |requests|, remaining, countCost);
    if limits.value.Some? {
      EpisodesChargeExactly(script, requests, limits.value.value, remaining);
    } else if countCost {
      KernelChargesExactly(script, requests, remaining);
    } else {
      KernelInSlotMode(script, requests, remaining);
    }
  }

  predicate WithinLimits(attempts: seq<Attempt>, limits: seq<int>) {
    |attempts| == |limits| && forall i :: 0 <= i < |limits| ==> attempts[i].cost <= limits[i]
  }

  /** The batch is evaluated: no preference is invalid, and the episodes stay within
      their limits, or the kernel delivers and what it reports can be paid. */
  predicate Delivers(script: Script, requests: seq<Request>, remaining: nat, countCost: bool) {
    var limits := EpisodeLimits(script, |requests|, remaining, countCost);
    limits.Ok?
    && if limits.value.Some? then
         && script.episodes.Ok? && Aligned(requests, script.episodes.value)
         && WithinLimits(script.episodes.value, limits.value.value)
       else if countCost then KernelDelivers(script, requests, remaining) && Cost(script.attempts.value) <= remaining
       else script.attempts.Ok? && Aligned(requests, script.attempts.value)
  }

  lemma DeliversExactly(script: Script, requests: seq<Request>, remaining: nat, countCost: bool)
    ensures EvaluatedRequests(script, requests, remaining, countCost).0.Ok? <==>
      Delivers(script, requests, remaining, countCost)
  {
    var limits := EpisodeLimits(script, |requests|, remaining, countCost);
    if limits.Ok? && limits.value.Some? {
      EpisodesChargeExactly(script, requests, limits.value.value, remaining);
    } else if countCost {
      KernelChargesExactly(script, requests, remaining);
    } else {
      KernelInSlotMode(script, requests, remaining);
    }
  }

  /** Why asking fails, in the order of the checks: the method raises, gives too few or
      too many proposals, its hints raise, or specifications or hints do not align. */
  predicate AskRaises(m: RunMethod, state: State, size: nat, skipHints: bool, cause: Cause) {
    match m.ask(state, size)
    case Err(raised) => cause == raised
    case Ok((proposals, asked)) =>
      var specs, hints := m.specs(asked, proposals), m.kernelHints(asked, proposals);
      if |proposals| == 0 then cause.NoProposals?
      else if |proposals| > size then cause.TooManyProposals?
      else if !skipHints && hints.Err? then cause == hints.error
      else if specs.Err? then cause == specs.error
      else if specs.value.Some? && |specs.value.value| != |proposals| then cause.MisalignedSpecs?
      else cause.MisalignedHints? && !skipHints && hints.value.Some? && hints.value.value != |proposals|
  }

  lemma AskFailsWith(m: RunMethod, state: State, size: nat, skipHints: bool)
    ensures var r := AskedRequests(m, state, size, skipHints); r.Err? ==> AskRaises(m, state, size, skipHints, r.error)
  {
  }

  /** Why an evaluation fails: a preference that is no limit, a failure of the episodes
      or the kernel, attempts that do not align, costs beyond their limits, or nothing
      left to pay them. */
  predicate EvaluationRaises(script: Script, requests: seq<Request>, remaining: nat, countCost: bool, cause: Cause) {
    var limits := EpisodeLimits(script, |requests|, remaining, countCost);
    if limits.Err? then cause.InvalidPreference?
    else if limits.value.Some? then
      || script.episodes == Err(cause)
      || (script.episodes.Ok?
          && if Aligned(requests, script.episodes.value)
             then cause.RejectedCosts? && !WithinLimits(script.episodes.value, limits.value.value)
             else cause.MisalignedAttempts?)
    else if countCost && !Charged(remaining, script.calls, script.catches).1 then cause.BudgetExhausted?
    else
      || script.attempts == Err(cause)
      || (script.attempts.Ok?
          && if Aligned(requests, script.attempts.value)
             then cause.BudgetExhausted? && countCost && Cost(script.attempts.value) > remaining
             else cause.MisalignedAttempts?)
  }

  lemma EvaluationFailsWith(script: Script, requests: seq<Request>, remaining: nat, countCost: bool)
    ensures var result := EvaluatedRequests(script, requests, remaining, countCost).0;
      result.Err? ==> EvaluationRaises(script, requests, remaining, countCost, result.error)
  {
    var limits := EpisodeLimits(script, |requests|, remaining, countCost);
    if limits.Err? {
      var k := PreferencesExactly(script.preferences, |requests|);
    } else if limits.value.Some? {
      EpisodesChargeExactly(script, requests, limits.value.value, remaining);
    } else if countCost {
      KernelChargesExactly(script, requests, remaining);
    } else {
      KernelInSlotMode(script, requests, remaining);
    }
  }

  /** A step completes exactly when there is a batch to ask for, it is evaluated, and
      its feedback materializes; the failure of that is raised as it is, and what was
      charged until then stays charged. */
  lemma StepCompletesExactly(m: RunMethod, ev: Evaluation, cfg: Settings, step: nat, state: State, size: nat,
                             remaining: nat)
    ensures var (result, left) := StepFeedback(m, ev, cfg, step, state, size, remaining);
      var skip := cfg.directKernel && m.elidesHints;
      if !CanAsk(m, state, size, skip) then
        result.Err? && AskRaises(m, state, size, skip, result.error) && left == remaining
      else
        var (requests, asked) := AskedRequests(m, state, size, skip).value;
        var script := ev(step, asked, requests, remaining);
        var delivers, evaluated := Delivers(script, requests, remaining, cfg.countCost),
          EvaluatedRequests(script, requests, remaining, cfg.countCost);
        && (result.Ok? <==> delivers && script.materialized.Ok?)
        && left == evaluated.1
        && (result.Err? ==> result.error == if delivers then script.materialized.error else evaluated.0.error)
  {
    var skip := cfg.directKernel && m.elidesHints;
    AskedExactly(m, state, size, skip);
    if CanAsk(m, state, size, skip) {
      var (requests, asked) := AskedRequests(m, state, size, skip).value;
      DeliversExactly(ev(step, asked, requests, remaining), requests, remaining, cfg.countCost);
    }
  }

  // ----- how the heads of a run follow from one another -----

  /** The size of the batch that the run asks for behind a history. */
  function SizeBehind(cfg: Settings, h: History): (r: int) {
    var left := cfg.maxEvaluations - if cfg.countCost then h.evaluationCount else AttemptCount(h);
    if cfg.batchSize < left then cfg.batchSize else left
  }

  ghost predicate FollowsBy(m: RunMethod, cfg: Settings, before: Head, after: Head, requests: seq<Request>, asked: State,
                            attempts: seq<Attempt>, count: nat)
  {
    && SizeBehind(cfg, before.history) >= 0
    && AsksFor(m, before.state, SizeBehind(cfg, before.history), requests, asked)
    && Aligned(requests, attempts) && count >= Cost(attempts) && (!cfg.countCost ==> count == Cost(attempts))
    && after.history == Append(before.history, attempts, count)
    && m.tellAttempts(asked, attempts) == Ok(after.state)
    && !m.isExhausted(before.state)
  }

  /** Every head comes from the one before by one ask for the batch, one attempt per
      request, which enter the history, and one tell of them to the asked state. */
  ghost predicate Follows(m: RunMethod, cfg: Settings, before: Head, after: Head) {
    exists requests, asked, attempts, count :: FollowsBy(m, cfg, before, after, requests, asked, attempts, count)
  }

  ghost predicate HeadsFollow(m: RunMethod, cfg: Settings, initial: State, heads: seq<Head>) {
    && heads != [] && heads[0] == Head(initial, EMPTY_HISTORY)
    && forall k :: 0 < k < |heads| ==> Follows(m, cfg, heads[k - 1], heads[k])
  }

  ghost predicate Steady(m: RunMethod, cfg: Settings, initial: State, loop: Loop) {
    Sound(m, cfg, loop) && HeadsFollow(m, cfg, initial, loop.heads)
  }

  /** The last head of what an iteration goes on or stops with. */
  function AfterStep(advance: Advance): (r: Loop)
    requires !advance.End?
  {
    if advance.Continue? then advance.next else advance.last
  }

  /** The head that a completed iteration adds. */
  lemma IterateAdds(m: RunMethod, ev: Evaluation, cfg: Settings, loop: Loop) returns (feedback: Feedback, head: Head)
    requires loop.remaining <= cfg.maxEvaluations && !Iterate(m, ev, cfg, loop).End?
    ensures var size := Min(cfg.batchSize, loop.remaining);
      StepFeedback(m, ev, cfg, |loop.heads|, loop.state, size, loop.remaining).0 == Ok(feedback)
    ensures head.history == Append(loop.history, feedback.attempts, feedback.evaluationCount)
    ensures m.tellAttempts(feedback.postAskState, feedback.attempts) == Ok(head.state)
    ensures AfterStep(Iterate(m, ev, cfg, loop)).heads == loop.heads + [head]
  {
    var size := Min(cfg.batchSize, loop.remaining);
    feedback := StepFeedback(m, ev, cfg, |loop.heads|, loop.state, size, loop.remaining).0.value;
    head := Head(m.tellAttempts(feedback.postAskState, feedback.attempts).value,
                 Append(loop.history, feedback.attempts, feedback.evaluationCount));
  }

  lemma IterateFollows(m: RunMethod, ev: Evaluation, cfg: Settings, loop: Loop)
    requires Sound(m, cfg, loop) && GoesOn(m, loop) && !Iterate(m, ev, cfg, loop).End?
    ensures var after := AfterStep(Iterate(m, ev, cfg, loop));
      && |after.heads| == |loop.heads| + 1 && after.heads[..|loop.heads|] == loop.heads
      && Follows(m, cfg, Head(loop.state, loop.history), after.heads[|loop.heads|])
  {
    var feedback, head := IterateAdds(m, ev, cfg, loop);
    var requests := StepCountsExactly(m, ev, cfg, |loop.heads|, loop.state, Min(cfg.batchSize, loop.remaining),
                                      loop.remaining);
    assert FollowsBy(m, cfg, Head(loop.state, loop.history), head, requests, feedback.postAskState,
                     feedback.attempts, feedback.evaluationCount);
  }

  lemma IterateSteady(m: RunMethod, ev: Evaluation, cfg: Settings, initial: State, loop: Loop)
    requires Steady(m, cfg, initial, loop) && GoesOn(m, loop) && !Iterate(m, ev, cfg, loop).End?
    ensures Steady(m, cfg, initial, AfterStep(Iterate(m, ev, cfg, loop)))
  {
    IterateSound(m, ev, cfg, loop);
    IterateFollows(m, ev, cfg, loop);
    var after := AfterStep(Iterate(m, ev, cfg, loop));
    MoreHeads(m, cfg, initial, loop.heads, after.heads);
  }

  lemma MoreHeads(m: RunMethod, cfg: Settings, initial: State, heads: seq<Head>, more: seq<Head>)
    requires HeadsFollow(m, cfg, initial, heads) && |more| == |heads| + 1 && more[..|heads|] == heads
    requires Follows(m, cfg, heads[|heads| - 1], more[|heads|])
    ensures HeadsFollow(m, cfg, initial, more)
  {
    forall k | 0 < k < |more| ensures Follows(m, cfg, more[k - 1], more[k]) {
      assert more[k - 1] == heads[k - 1];
      assert k < |heads| ==> more[k] == heads[k];
    }
  }

  /** The heads of every run follow from one another, from the initial state on. */
  lemma RunFollowsMethod(m: RunMethod, ev: Evaluation, cfg: Settings, initial: State, fuel: nat)
    ensures HeadsFollow(m, cfg, initial, RunFrom(m, ev, cfg, Begin(m, cfg, initial), fuel).1.heads)
  {
    BeginSound(m, cfg, initial);
    var inv := (l: Loop) => Steady(m, cfg, initial, l);
    forall l: Loop | inv(l) && GoesOf(m)(l) ensures Keeps(inv, StepOf(m, ev, cfg)(l)) {
      if !Iterate(m, ev, cfg, l).End? {
        IterateSteady(m, ev, cfg, initial, l);
      }
    }
    LoopKeeps(GoesOf(m), StepOf(m, ev, cfg), CloseOf(m, cfg), inv, Begin(m, cfg, initial), fuel);
    RunIsLoop(m, ev, cfg, Begin(m, cfg, initial), fuel);
  }

  // ----- how a run ends -----

  /** The last told state is safe, and one since the start was not. */
  ghost predicate AtBoundary(m: RunMethod, cfg: Settings, heads: seq<Head>) {
    && cfg.stopAtCheckpoint && heads != [] && m.isSafe(heads[|heads| - 1].state)
    && exists j :: 1 <= j < |heads| - 1 && !m.isSafe(heads[j].state)
  }

  /** A run that ends normally has used up its budget, is exhausted, or has come to a
      checkpoint boundary; it shows everything, and its last state, unless that is not
      safe where it should be. */
  ghost predicate EndsNormally(m: RunMethod, cfg: Settings, last: Loop, ending: Ending) {
    && (last.remaining == 0 || m.isExhausted(last.state) || AtBoundary(m, cfg, last.heads))
    && (!cfg.stopAtCheckpoint || m.isSafe(last.state) ==>
          ending == Returned(ReportOf(last.history, last.history.evaluationCount), last.state))
  }

  function ReportOf(h: History, count: nat): (r: Report) {
    Report(h.successes, h.failures, h.trace, count)
  }

  /** A failure shows the history and the state it met, and raises its cause. */
  ghost predicate FailsWith(ending: Ending, h: History, count: nat, state: State, cause: Cause) {
    match ending
    case RaisedRunFailed(partial, at, _, failure) => partial == ReportOf(h, count) && at == state && failure == cause
    case RaisedCause(raised) => raised == cause
    case _ => false
  }

  /** A step raised: the history is that of the last head, and counts what the ledger
      has lost since. */
  ghost predicate EndsInStep(m: RunMethod, ev: Evaluation, cfg: Settings, last: Loop, ending: Ending) {
    && last.remaining <= cfg.maxEvaluations
    && var (result, left) := StepFeedback(m, ev, cfg, |last.heads|, last.state, Min(cfg.batchSize, last.remaining),
                                          last.remaining);
       && result.Err? && left <= last.remaining
       && (!result.error.BudgetExhausted? ==>
             FailsWith(ending, last.history, cfg.maxEvaluations - left, last.state, result.error))
       && (result.error.BudgetExhausted? && last.snapshot.None? ==> ending == RaisedBudgetExhausted)
  }

  /** The run method could not be told: the history has the attempts by then. */
  ghost predicate EndsInTell(m: RunMethod, ev: Evaluation, cfg: Settings, last: Loop, ending: Ending) {
    var result := StepFeedback(m, ev, cfg, |last.heads|, last.state, Min(cfg.batchSize, last.remaining), last.remaining).0;
    result.Ok?
    && var told := m.tellAttempts(result.value.postAskState, result.value.attempts);
       var h := Append(last.history, result.value.attempts, result.value.evaluationCount);
       told.Err? && FailsWith(ending, h, h.evaluationCount, result.value.postAskState, told.error)
  }

  ghost predicate EndsRightly(m: RunMethod, ev: Evaluation, cfg: Settings, last: Loop, ending: Ending) {
    || EndsNormally(m, cfg, last, ending)
    || (GoesOn(m, last) && (EndsInStep(m, ev, cfg, last, ending) || EndsInTell(m, ev, cfg, last, ending)))
  }

  ghost predicate Tracked(m: RunMethod, cfg: Settings, loop: Loop) {
    Sound(m, cfg, loop) && (cfg.stopAtCheckpoint ==> Segmented(m, loop))
  }

  /** How an iteration ends the run, or with what it goes on or stops. */
  lemma IterateEndsRightly(m: RunMethod, ev: Evaluation, cfg: Settings, loop: Loop)
    requires Tracked(m, cfg, loop) && GoesOn(m, loop)
    ensures match Iterate(m, ev, cfg, loop)
      case Continue(next) => Tracked(m, cfg, next)
      case Break(last) => Sound(m, cfg, last) && AtBoundary(m, cfg, last.heads)
      case End(ending) => EndsInStep(m, ev, cfg, loop, ending) || EndsInTell(m, ev, cfg, loop, ending)
  {
    IterateSound(m, ev, cfg, loop);
    if cfg.stopAtCheckpoint {
      IterateSegmented(m, ev, cfg, loop);
    }
    match Iterate(m, ev, cfg, loop)
    case Continue(_) =>
    case Break(last) => BreakAtBoundary(m, ev, cfg, loop);
    case End(_) => EndOfIteration(m, ev, cfg, loop);
  }

  lemma BreakAtBoundary(m: RunMethod, ev: Evaluation, cfg: Settings, loop: Loop)
    requires Tracked(m, cfg, loop) && GoesOn(m, loop) && Iterate(m, ev, cfg, loop).Break?
    ensures AtBoundary(m, cfg, Iterate(m, ev, cfg, loop).last.heads)
  {
    var heads := Iterate(m, ev, cfg, loop).last.heads;
    IterateFollows(m, ev, cfg, loop);
    var j :| 1 <= j < |loop.heads| && !m.isSafe(loop.heads[j].state);
    assert heads[..|loop.heads|][j] == heads[j];
  }

  lemma FailedRunFails(h: History, count: nat, state: State, snapshot: Option<Snapshot>, cause: Cause)
    ensures FailsWith(FailedRun(h, count, state, snapshot, cause), h, count, state, cause)
  {
  }

  lemma EndOfIteration(m: RunMethod, ev: Evaluation, cfg: Settings, loop: Loop)
    requires Sound(m, cfg, loop) && GoesOn(m, loop) && Iterate(m, ev, cfg, loop).End?
    ensures var ending := Iterate(m, ev, cfg, loop).ending;
      EndsInStep(m, ev, cfg, loop, ending) || EndsInTell(m, ev, cfg, loop, ending)
  {
    var size := Min(cfg.batchSize, loop.remaining);
    var (result, left) := StepFeedback(m, ev, cfg, |loop.heads|, loop.state, size, loop.remaining);
    if result.Err? {
      assert Iterate(m, ev, cfg, loop) == End(StepFailed(cfg, loop, result.error, left));
      FailedRunFails(loop.history, cfg.maxEvaluations - left, loop.state, loop.snapshot, result.error);
    } else {
      ToldEnds(m, ev, cfg, loop);
    }
  }

  lemma ToldEnds(m: RunMethod, ev: Evaluation, cfg: Settings, loop: Loop)
    requires Sound(m, cfg, loop) && Iterate(m, ev, cfg, loop).End?
    requires StepFeedback(m, ev, cfg, |loop.heads|, loop.state, Min(cfg.batchSize, loop.remaining), loop.remaining).0.Ok?
    ensures EndsInTell(m, ev, cfg, loop, Iterate(m, ev, cfg, loop).ending)
  {
    var feedback := StepFeedback(m, ev, cfg, |loop.heads|, loop.state, Min(cfg.batchSize, loop.remaining),
                                 loop.remaining).0.value;
    var h := Append(loop.history, feedback.attempts, feedback.evaluationCount);
    var told := m.tellAttempts(feedback.postAskState, feedback.attempts);
    FailedRunFails(h, h.evaluationCount, feedback.postAskState, loop.snapshot, told.error);
  }

  lemma CloseIsNormal(m: RunMethod, cfg: Settings, last: Loop)
    requires Sound(m, cfg, last)
    requires last.remaining == 0 || m.isExhausted(last.state) || AtBoundary(m, cfg, last.heads)
    ensures EndsNormally(m, cfg, last, Close(m, cfg, last))
  {
  }

  /** Every run that ends does so rightly. */
  lemma RunEndsRightly(m: RunMethod, ev: Evaluation, cfg: Settings, initial: State, fuel: nat)
    ensures var (ending, last) := RunFrom(m, ev, cfg, Begin(m, cfg, initial), fuel);
      ending.Some? ==> EndsRightly(m, ev, cfg, last, ending.value)
  {
    BeginSound(m, cfg, initial);
    var loop, inv := Begin(m, cfg, initial), (l: Loop) => Tracked(m, cfg, l);
    var stopped := (l: Loop) => Sound(m, cfg, l) && AtBoundary(m, cfg, l.heads);
    forall l: Loop | inv(l) && GoesOf(m)(l)
      ensures match StepOf(m, ev, cfg)(l)
        case Continue(next) => inv(next) case Break(last) => stopped(last) case End(_) => true
    {
      IterateEndsRightly(m, ev, cfg, l);
    }
    LoopEnds(GoesOf(m), StepOf(m, ev, cfg), CloseOf(m, cfg), inv, stopped, loop, fuel);
    RunIsLoop(m, ev, cfg, loop, fuel);
    var (ending, last) := RunFrom(m, ev, cfg, loop, fuel);
    if ending.Some? {
      if inv(last) && GoesOn(m, last) && Iterate(m, ev, cfg, last) == End(ending.value) {
        IterateEndsRightly(m, ev, cfg, last);
      } else {
        CloseIsNormal(m, cfg, last);
      }
    }
  }
}
