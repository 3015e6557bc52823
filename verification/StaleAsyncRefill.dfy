// Freed slots are refilled: with a run method that always has something to propose,
// the evaluator is never left with less in flight than the budget allows
// (src/variopt/study/stale_async.py).
module StaleAsyncRefill {
  import opened Outcomes
  import opened RunHistory
  import opened StudyRun
  import opened StaleAsync
  import opened StaleAsyncLoop
  import opened StaleAsyncSafety

  /** The method is never exhausted, and gives as many proposals as it is asked for. */
  ghost predicate AsksFull(m: RunMethod) {
    && (forall state :: !m.isExhausted(state))
    && (forall state, size: nat :: m.ask(state, size).Ok? ==> |m.ask(state, size).value.0| == size)
  }

  /** The slots to be kept in flight: a whole window while cost is counted ahead of
      evaluation, and in slot mode no more than the budget still has. */
  function Wanted(cfg: Settings, remaining: int): (r: int) {
    if remaining <= 0 then 0 else if cfg.countCost then Window(cfg) else Min(cfg.batchSize, remaining)
  }

  /** From the first batch on, the evaluator is kept busy. */
  ghost predicate Busy(cfg: Settings, s: Stale) {
    s.sizes != [] ==> Outstanding(s) >= Wanted(cfg, s.remaining)
  }

  ghost predicate Started(cfg: Settings, s: Stale) {
    s.sizes == [] ==> s.remaining == cfg.maxEvaluations && s.active == [] && s.groups == []
  }

  ghost predicate KeptBusy(cfg: Settings, s: Stale) {
    Accounts(cfg, s) && Busy(cfg, s) && Started(cfg, s)
  }

  /** A batch that is opened has the size asked for. */
  lemma OpensFull(m: RunMethod, b: Backend, cfg: Settings, s: Stale, size: nat) returns (next: Stale)
    requires AsksFull(m) && s.remaining <= cfg.maxEvaluations && OpenBatch(m, b, cfg, s, size).Go?
    ensures next == OpenBatch(m, b, cfg, s, size).next && next.sizes != []
    ensures Outstanding(next) == Outstanding(s) + size
    ensures next.remaining == if cfg.countCost then s.remaining - size else s.remaining
  {
    next := OpenBatch(m, b, cfg, s, size).next;
    FullBatch(m, s.state, size);
    var session := Session(|s.sizes|, AskedRequests(m, s.state, size, true).value.0, {});
    assert next.active == s.active + [session];
    OpenSlotsAppend(s.active, [session]);
    assert OpenSlots([session]) == |session.requests| + OpenSlots([]);
  }

  lemma FullBatch(m: RunMethod, state: State, size: nat)
    requires AsksFull(m) && AskedRequests(m, state, size, true).Ok?
    ensures |AskedRequests(m, state, size, true).value.0| == size
  {
  }

  lemma RefillBusy(m: RunMethod, b: Backend, cfg: Settings, s: Stale)
    requires AsksFull(m) && KeptBusy(cfg, s) && s.groups != [] && AssimilateNext(m, b, cfg, s).Go?
    ensures Busy(cfg, AssimilateNext(m, b, cfg, s).next)
  {
    var told := TakenFrom(m, cfg, s);
    if told.remaining > 0 {
      var next := OpensFull(m, b, cfg, told, Min(|s.groups[0].attempts|, told.remaining));
    }
  }

  /** In slot mode a group takes its slots from the budget, in cost mode nothing is
      given back. */
  lemma TakenFrom(m: RunMethod, cfg: Settings, s: Stale) returns (told: Stale)
    requires Accounts(cfg, s) && s.groups != [] && AssimilateGroup(m, cfg, s).Go?
    ensures told == AssimilateGroup(m, cfg, s).next && told.sizes == s.sizes
    ensures told.remaining <= cfg.maxEvaluations && 0 <= Outstanding(told) == Outstanding(s) - |s.groups[0].attempts|
    ensures if cfg.countCost then told.remaining <= s.remaining
            else told.remaining == s.remaining - |s.groups[0].attempts|
  {
    told := AssimilateGroup(m, cfg, s).next;
    ToldBalanced(m, cfg, s);
    OpenSlotsNonNegative(told.active);
  }

  lemma PollBusy(b: Backend, cfg: Settings, s: Stale)
    requires KeptBusy(cfg, s) && s.queue != [] && s.groups == [] && PollNext(b, cfg, s).Go?
    ensures Busy(cfg, PollNext(b, cfg, s).next)
  {
    var next, position := PollNext(b, cfg, s).next, s.queue[0];
    AcceptedSlots(s.active[position], next.groups);
    OpenSlotsUpdate(s.active, position, next.active[position]);
  }

  lemma HeadBusy(m: RunMethod, b: Backend, cfg: Settings, s: Stale)
    requires AsksFull(m) && KeptBusy(cfg, s) && s.groups == [] && AtHead(m, b, cfg, s).Go?
    ensures Busy(cfg, AtHead(m, b, cfg, s).next)
  {
    if s.active == [] {
      var next := OpensFull(m, b, cfg, s, Min(cfg.batchSize, s.remaining));
    }
  }

  lemma StepBusy(m: RunMethod, b: Backend, cfg: Settings, s: Stale)
    requires AsksFull(m) && KeptBusy(cfg, s) && StaleStep(m, b, cfg, s).Go?
    ensures Busy(cfg, StaleStep(m, b, cfg, s).next)
  {
    if s.groups != [] {
      RefillBusy(m, b, cfg, s);
    } else if s.inRound && s.queue != [] {
      PollBusy(b, cfg, s);
    } else if s.inRound {
      OpenSlotsUnfinished(s.active);
    } else {
      HeadBusy(m, b, cfg, s);
    }
  }

  lemma OpenedSizes(m: RunMethod, b: Backend, cfg: Settings, s: Stale, size: nat)
    requires s.remaining <= cfg.maxEvaluations && OpenBatch(m, b, cfg, s, size).Go?
    ensures OpenBatch(m, b, cfg, s, size).next.sizes != []
  {
  }

  lemma StepStarted(m: RunMethod, b: Backend, cfg: Settings, s: Stale)
    requires Accounts(cfg, s) && Started(cfg, s) && StaleStep(m, b, cfg, s).Go?
    ensures Started(cfg, StaleStep(m, b, cfg, s).next)
  {
    if s.groups != [] {
      var told := TakenFrom(m, cfg, s);
      if MayOpen(m, told) {
        OpenedSizes(m, b, cfg, told, Min(|s.groups[0].attempts|, told.remaining));
      }
    } else if s.inRound && s.queue != [] {
      assert s.queue[0] < |s.active|;
      assert PollNext(b, cfg, s).next.sizes == s.sizes != [];
    } else if !s.inRound && s.active == [] {
      OpenedSizes(m, b, cfg, s, Min(cfg.batchSize, s.remaining));
    }
  }

  lemma StepKeepsBusy(m: RunMethod, b: Backend, cfg: Settings, s: Stale, t: Transition)
    requires AsksFull(m) && KeptBusy(cfg, s) && t == StaleStep(m, b, cfg, s)
    ensures t.Go? ==> KeptBusy(cfg, t.next)
  {
    if t.Go? {
      StepAccounts(m, b, cfg, s);
      StepBusy(m, b, cfg, s);
      StepStarted(m, b, cfg, s);
    }
  }

  lemma BeginBusy(m: RunMethod, cfg: Settings, initial: State)
    ensures KeptBusy(cfg, StaleBegin(m, cfg, initial))
  {
    BeginBalanced(m, cfg, initial);
  }

  lemma RunKeepsBusy(m: RunMethod, b: Backend, cfg: Settings, s: Stale, fuel: nat)
    requires AsksFull(m) && KeptBusy(cfg, s)
    ensures var (ending, last) := StaleFrom(m, b, cfg, s, fuel); if ending.None? then KeptBusy(cfg, last) else true
  {
    var good := (x: Stale) => KeptBusy(cfg, x);
    var ended := (ending: Ending, last: Stale) => true;
    forall x: Stale | good(x) && TakesOf(cfg)(x) ensures KeptBy(good, ended, ActionOf(m, b, cfg)(x)) {
      StepKeepsBusy(m, b, cfg, x, ActionOf(m, b, cfg)(x));
    }
    StepsKeep(TakesOf(cfg), ActionOf(m, b, cfg), good, ended, s, fuel);
  }

  /** Wherever a run gets to, the slots it wants in flight are in flight. */
  lemma NeverIdle(m: RunMethod, b: Backend, cfg: Settings, initial: State, fuel: nat)
    requires AsksFull(m)
    ensures var (ending, last) := StaleFrom(m, b, cfg, StaleBegin(m, cfg, initial), fuel);
      ending.None? ==> Busy(cfg, last)
  {
    BeginBusy(m, cfg, initial);
    RunKeepsBusy(m, b, cfg, StaleBegin(m, cfg, initial), fuel);
  }
}
