// The generic study run: repeated ask/evaluate/tell steps under an evaluation
// budget, with checkpoint-safe cuts (src/variopt/study/execution.py).
module StudyRun {
  import opened Outcomes
  import opened MaxMinAllocator
  import opened EvaluationLedger
  import opened RunHistory

  // ----- what a run works with -----

  /** A run method: any functions of its immutable state; of kernel hints only
      their number is modelled, if there are any. `directTell` says that
      `tell` may stand in for `tellAttempts`; `elidesHints` that its kernel hints
      need not be asked for when the kernel is direct. */
  datatype RunMethod = RunMethod(
    initial: State,
    ask: (State, nat) -> Result<(seq<Proposal>, State), Cause>,
    kernelHints: (State, seq<Proposal>) -> Result<Option<nat>, Cause>,
    specs: (State, seq<Proposal>) -> Result<Option<seq<Option<nat>>>, Cause>,
    tell: (State, seq<Attempt>) -> Result<State, Cause>,
    tellAttempts: (State, seq<Attempt>) -> Result<State, Cause>,
    isExhausted: State -> bool,
    isSafe: State -> bool,
    directTell: bool,
    elidesHints: bool)

  /** What kernel and evaluator do with one batch of requests. `preferences` are
      the preferred episode limits (none when episodes do not apply) and
      `episodes` what their evaluation gives; otherwise the kernel sends `calls`
      sub-batches to the runner, going on after a refused one if it `catches`,
      and ends with `attempts`. `materialized` is the feedback boundary. */
  datatype Script = Script(
    preferences: seq<Option<int>>,
    episodes: Result<seq<Attempt>, Cause>,
    calls: seq<nat>,
    catches: bool,
    attempts: Result<seq<Attempt>, Cause>,
    materialized: Result<(), Cause>)

  /** Kernel and evaluator: anything, and different at every step. */
  type Evaluation = (nat, State, seq<Request>, nat) -> Script

  datatype Settings = Settings(
    maxEvaluations: nat, batchSize: nat, countCost: bool, stopAtCheckpoint: bool, directKernel: bool)

  // ----- one step -----

  function Requests(proposals: seq<Proposal>, specs: Option<seq<Option<nat>>>): (r: seq<Request>)
    requires specs.Some? ==> |specs.value| == |proposals|
    ensures |r| == |proposals|
  {
    seq(|proposals|, i requires 0 <= i < |proposals| =>
      Request(proposals[i], if specs.None? then None else specs.value[i]))
  }

  /** The batch the run method asks for, as requests, with the post-ask state. */
  function AskedRequests(m: RunMethod, state: State, batch: nat, skipHints: bool)
    : (r: Result<(seq<Request>, State), Cause>)
    ensures r.Ok? ==> 1 <= |r.value.0| <= batch
  {
    match m.ask(state, batch)
    case Err(cause) => Err(cause)
    case Ok((proposals, next)) =>
      if |proposals| == 0 then Err(NoProposals)
      else if |proposals| > batch then Err(TooManyProposals)
      else
        var hinted := if skipHints then Ok(None) else m.kernelHints(next, proposals);
        if hinted.Err? then Err(hinted.error)
        else match m.specs(next, proposals)
          case Err(cause) => Err(cause)
          case Ok(specs) =>
            if specs.Some? && |specs.value| != |proposals| then Err(MisalignedSpecs)
            else if hinted.value.Some? && hinted.value.value != |proposals| then Err(MisalignedHints)
            else Ok((Requests(proposals, specs), next))
  }

  predicate Aligned(requests: seq<Request>, attempts: seq<Attempt>) {
    |attempts| == |requests| && forall i :: 0 <= i < |attempts| ==> attempts[i].request == requests[i]
  }

  /** Sub-batches sent to the runner: each is charged before it is evaluated. */
  function Charged(remaining: nat, calls: seq<nat>, catches: bool): (r: (nat, bool))
    ensures r.0 <= remaining
    decreases calls
  {
    if calls == [] then (remaining, true)
    else if calls[0] <= remaining then Charged(remaining - calls[0], calls[1..], catches)
    else if catches then Charged(remaining, calls[1..], catches)
    else (remaining, false)
  }

  /** Preferred limits in request order: the first missing one means that the
      batch is not run as episodes, the first invalid one is an error. */
  function PreferredLimits(preferences: seq<Option<int>>, n: nat): (r: Result<Option<seq<int>>, Cause>)
    ensures r.Ok? && r.value.Some? ==> |r.value.value| == n && Positive(r.value.value)
    decreases n
  {
    if n == 0 then Ok(Some([]))
    else if preferences == [] || preferences[0].None? then Ok(None)
    else if preferences[0].value <= 0 then Err(InvalidPreference)
    else match PreferredLimits(preferences[1..], n - 1)
      case Ok(Some(rest)) => Ok(Some([preferences[0].value] + rest))
      case other => other
  }

  function ExactCounts(attempts: seq<Attempt>): (r: seq<Count>)
    ensures |r| == |attempts| && forall i :: 0 <= i < |r| ==> r[i] == Exact(attempts[i].cost)
  {
    seq(|attempts|, i requires 0 <= i < |attempts| => Exact(attempts[i].cost))
  }

  type Charge = (Result<(seq<Attempt>, nat), Cause>, nat)

  /** The reserved episodes: what they give, and what is left of the budget. A
      hard failure or an untrusted result forfeits the whole reservation. */
  function RunEpisodes(script: Script, requests: seq<Request>, limits: seq<int>, remaining: nat): (r: Charge)
    requires |limits| == |requests| && 0 <= Sum(limits) <= remaining
    ensures r.1 <= remaining
  {
    var reserved := remaining - Sum(limits);
    match script.episodes
    case Err(cause) => (Err(cause), reserved)
    case Ok(attempts) =>
      if !Aligned(requests, attempts) then (Err(MisalignedAttempts), reserved)
      else match SettledCost(limits, ExactCounts(attempts))
        case Err(_) => (Err(RejectedCosts), reserved)
        case Ok(cost) =>
          SettledCostBounds(limits, ExactCounts(attempts));
          (Ok((attempts, cost)), remaining - cost)
  }

  /** The kernel path: runner charges first, then the reported cost is reconciled. */
  function RunKernel(script: Script, requests: seq<Request>, remaining: nat, countCost: bool): (r: Charge)
    ensures r.1 <= remaining && (!countCost ==> r.1 == remaining)
  {
    var (left, admitted) := if countCost then Charged(remaining, script.calls, script.catches) else (remaining, true);
    if !admitted then (Err(Cause.BudgetExhausted), left)
    else match script.attempts
      case Err(cause) => (Err(cause), left)
      case Ok(attempts) =>
        if !Aligned(requests, attempts) then (Err(MisalignedAttempts), left)
        else Reconciled(attempts, remaining, left, countCost)
  }

  /** What the runner has not charged yet is charged now. */
  function Reconciled(attempts: seq<Attempt>, before: nat, left: nat, countCost: bool): (r: Charge)
    requires left <= before
    ensures r.1 <= left && (!countCost ==> r.1 == left)
  {
    var reported: nat, consumed: nat := Cost(attempts), before - left;
    if !countCost then (Ok((attempts, reported)), left)
    else if reported <= consumed then (Ok((attempts, consumed)), left)
    else if reported - consumed > left then (Err(Cause.BudgetExhausted), left)
    else (Ok((attempts, reported)), left - (reported - consumed))
  }

  function EpisodeLimits(script: Script, n: nat, remaining: nat, countCost: bool): (r: Result<Option<seq<int>>, Cause>)
    ensures r.Ok? && r.value.Some? ==>
      && |r.value.value| == n && 0 <= Sum(r.value.value) <= remaining
      && forall i :: 0 <= i < n ==> r.value.value[i] > 0
  {
    if !countCost then Ok(None)
    else match PreferredLimits(script.preferences, n)
      case Err(cause) => Err(cause)
      case Ok(None) => Ok(None)
      case Ok(Some(preferred)) =>
        if remaining < n then Ok(None)
        else
          AllocationIsFeasible(preferred, remaining);
          SumNonNegative(Allocation(preferred, remaining));
          Ok(Some(Allocation(preferred, remaining)))
  }

  function EvaluatedRequests(script: Script, requests: seq<Request>, remaining: nat, countCost: bool): (r: Charge)
    ensures r.1 <= remaining && (!countCost ==> r.1 == remaining)
  {
    match EpisodeLimits(script, |requests|, remaining, countCost)
    case Err(cause) => (Err(cause), remaining)
    case Ok(Some(limits)) => RunEpisodes(script, requests, limits, remaining)
    case Ok(None) => RunKernel(script, requests, remaining, countCost)
  }

  datatype Feedback = Feedback(attempts: seq<Attempt>, postAskState: State, evaluationCount: nat)

  /** One step up to the feedback, and what is left of the ledger after it. */
  function StepFeedback(m: RunMethod, ev: Evaluation, cfg: Settings, step: nat, state: State, batch: nat, remaining: nat)
    : (r: (Result<Feedback, Cause>, nat))
    ensures r.1 <= remaining && (!cfg.countCost ==> r.1 == remaining)
    ensures r.0.Ok? ==> 1 <= |r.0.value.attempts| <= batch
  {
    match AskedRequests(m, state, batch, cfg.directKernel && m.elidesHints)
    case Err(cause) => (Err(cause), remaining)
    case Ok((requests, next)) =>
      var script := ev(step, next, requests, remaining);
      var (result, left) := EvaluatedRequests(script, requests, remaining, cfg.countCost);
      match result
      case Err(cause) => (Err(cause), left)
      case Ok((attempts, count)) =>
        if script.materialized.Err? then (Err(script.materialized.error), left)
        else (Ok(Feedback(attempts, next, count)), left)
  }

  // ----- the loop -----

  /** A loop head that was reached: a state with the history it was reached by. */
  datatype Head = Head(state: State, history: History)

  /** The variables of the loop. `remaining` is the ledger's in cost mode and the
      slot count otherwise; `heads` records the loop heads passed so far. */
  datatype Loop = Loop(
    state: State, history: History, remaining: nat, snapshot: Option<Snapshot>, segmentUnsafe: bool, heads: seq<Head>)

  datatype Ending =
    | Returned(report: Report, state: State)
    | RaisedBudgetExhausted
    | RaisedNoSafeState
    | RaisedReportRefused
    | RaisedCause(cause: Cause)
    | RaisedRunFailed(partial: Report, partialState: State, checkpoint: Option<(Report, State)>, failure: Cause)

  datatype Advance = Continue(next: Loop) | Break(last: Loop) | End(ending: Ending)

  function Begin(m: RunMethod, cfg: Settings, initial: State): (r: Loop) {
    Loop(initial, EMPTY_HISTORY, cfg.maxEvaluations,
         if cfg.stopAtCheckpoint && m.isSafe(initial) then Some(TakeSnapshot(EMPTY_HISTORY, initial)) else None,
         false, [Head(initial, EMPTY_HISTORY)])
  }

  predicate GoesOn(m: RunMethod, loop: Loop) {
    loop.remaining > 0 && !m.isExhausted(loop.state)
  }

  function ReturnedOr(report: Option<Report>, state: State): (r: Ending) {
    if report.None? then RaisedReportRefused else Returned(report.value, state)
  }

  /** A hard failure carries the partial and the checkpoint report; if either is
      refused, the original cause is raised instead. */
  function FailedRun(h: History, count: nat, state: State, snapshot: Option<Snapshot>, cause: Cause): (r: Ending) {
    var partial := MakeReport(h, count);
    if snapshot.None? then
      if partial.None? then RaisedCause(cause) else RaisedRunFailed(partial.value, state, None, cause)
    else
      var report := Project(snapshot.value, h);
      if report.None? || partial.None? then RaisedCause(cause)
      else RaisedRunFailed(partial.value, state, Some((report.value, snapshot.value.state)), cause)
  }

  /** Any step that raised, with the evaluations counted so far. */
  function FailedAt(cfg: Settings, h: History, count: nat, state: State, snapshot: Option<Snapshot>, cause: Cause)
    : (r: Ending)
  {
    if cause.BudgetExhausted? then
      if cfg.stopAtCheckpoint && snapshot.Some? then ReturnedOr(Project(snapshot.value, h), snapshot.value.state)
      else RaisedBudgetExhausted
    else FailedRun(h, count, state, snapshot, cause)
  }

  function StepFailed(cfg: Settings, loop: Loop, cause: Cause, left: nat): (r: Ending)
    requires left <= loop.remaining <= cfg.maxEvaluations
  {
    FailedAt(cfg, loop.history, cfg.maxEvaluations - left, loop.state, loop.snapshot, cause)
  }

  /** A step that was assimilated into `next`. */
  function Assimilated(m: RunMethod, cfg: Settings, loop: Loop, h: History, left: nat, next: State): (r: Advance) {
    var after := loop.(state := next, history := h, remaining := left, heads := loop.heads + [Head(next, h)]);
    if !cfg.stopAtCheckpoint then Continue(after)
    else if m.isSafe(next) then
      var cut := after.(snapshot := Some(TakeSnapshot(h, next)));
      if loop.segmentUnsafe then Break(cut) else Continue(cut.(segmentUnsafe := false))
    else Continue(after.(segmentUnsafe := true))
  }

  /** The run method has been told, or has raised: the attempts are in the history
      by then. */
  function Told(m: RunMethod, cfg: Settings, loop: Loop, h: History, left: nat, postAskState: State,
                told: Result<State, Cause>): (r: Advance)
  {
    match told
    case Err(cause) => End(FailedRun(h, h.evaluationCount, postAskState, loop.snapshot, cause))
    case Ok(next) => Assimilated(m, cfg, loop, h, left, next)
  }

  function Iterate(m: RunMethod, ev: Evaluation, cfg: Settings, loop: Loop): (r: Advance)
    requires loop.remaining <= cfg.maxEvaluations
    ensures r.Continue? ==> r.next.remaining <= loop.remaining && |r.next.heads| == |loop.heads| + 1
    ensures r.Break? ==> r.last.remaining <= loop.remaining && |r.last.heads| == |loop.heads| + 1
  {
    var batch := Min(cfg.batchSize, loop.remaining);
    var (result, left) := StepFeedback(m, ev, cfg, |loop.heads|, loop.state, batch, loop.remaining);
    match result
    case Err(cause) => End(StepFailed(cfg, loop, cause, left))
    case Ok(feedback) =>
      var h := Append(loop.history, feedback.attempts, feedback.evaluationCount);
      Told(m, cfg, loop, h, if cfg.countCost then left else loop.remaining - |feedback.attempts|,
           feedback.postAskState, m.tellAttempts(feedback.postAskState, feedback.attempts))
  }

  /** After the loop: the final state, or the latest checkpoint-safe cut. */
  function ClosedAt(m: RunMethod, cfg: Settings, h: History, state: State, snapshot: Option<Snapshot>): (r: Ending) {
    if cfg.stopAtCheckpoint && !m.isSafe(state) then
      if snapshot.None? then RaisedNoSafeState else ReturnedOr(Project(snapshot.value, h), snapshot.value.state)
    else ReturnedOr(MakeReport(h, h.evaluationCount), state)
  }

  function Close(m: RunMethod, cfg: Settings, loop: Loop): (r: Ending) {
    ClosedAt(m, cfg, loop.history, loop.state, loop.snapshot)
  }

  /** The run from `loop` on, as far as `fuel` iterations reach; with the loop
      variables at the end. A run whose steps are free need not end at all. */
  function RunFrom(m: RunMethod, ev: Evaluation, cfg: Settings, loop: Loop, fuel: nat): (r: (Option<Ending>, Loop))
    requires loop.remaining <= cfg.maxEvaluations
    decreases fuel
  {
    if !GoesOn(m, loop) then (Some(Close(m, cfg, loop)), loop)
    else if fuel == 0 then (None, loop)
    else match Iterate(m, ev, cfg, loop)
      case End(ending) => (Some(ending), loop)
      case Break(last) => (Some(Close(m, cfg, last)), last)
      case Continue(next) => RunFrom(m, ev, cfg, next, fuel - 1)
  }
}
