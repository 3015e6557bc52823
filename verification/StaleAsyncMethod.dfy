// The stale-asynchronous run as the source writes it: session objects with their
// completed indices, polled in nested loops over one budget and one history
// (src/variopt/study/stale_async.py). It does, action by action, what StaleAsync
// says.
module StaleAsyncMethod {
  import opened Outcomes
  import opened EvaluationLedger
  import opened RunHistory
  import opened StudyRun
  import opened StudyRunMethod
  import opened StaleAsync
  import opened StaleAsyncLoop
  import opened StaleAsyncSafety

  class StaleAsyncActiveBatchSession {
    const serial: nat
    const requests: seq<Request>
    var completedIndices: set<nat>

    constructor (serial: nat, requests: seq<Request>)
      ensures Value() == Session(serial, requests, {})
    {
      this.serial, this.requests, completedIndices := serial, requests, {};
    }

    function Value(): Session
      reads this
    {
      Session(serial, requests, completedIndices)
    }

    /** Validates what a poll returned, group by group; the indices of a group are
        added one at a time. */
    method PollCompletedGroups(polled: Result<seq<Group>, Cause>) returns (r: Result<seq<Group>, Cause>)
      modifies this
      ensures match polled
        case Err(cause) => r == Err(cause)
        case Ok(groups) =>
          match Accepted(old(Value()), groups)
          case Err(cause) => r == Err(cause)
          case Ok(after) => r == Ok(groups) && Value() == after
    {
      if polled.Err? {
        return Err(polled.error);
      }
      var groups := polled.value;
      for g := 0 to |groups|
        invariant Accepted(old(Value()), groups) == Accepted(Value(), groups[g..])
      {
        assert groups[g..][1..] == groups[g + 1..];
        var group := groups[g];
        if |group.attempts| == 0 || group.start + |group.attempts| > |requests| {
          return Err(MisalignedAttempts);
        }
        if !Aligned(GroupRequests(requests, group), group.attempts) {
          return Err(MisalignedAttempts);
        }
        var isNew := AddIndices(group);
        if !isNew {
          return Err(MisalignedAttempts);
        }
      }
      return Ok(groups);
    }

    /** The indices of one group, one at a time, up to one that is completed already. */
    method AddIndices(group: Group) returns (isNew: bool)
      modifies this`completedIndices
      ensures isNew <==> Slots(group) * old(completedIndices) == {}
      ensures isNew ==> completedIndices == old(completedIndices) + Slots(group)
    {
      for offset := 0 to |group.attempts|
        invariant completedIndices == old(completedIndices) + Elements(Indices(group)[..offset])
        invariant Elements(Indices(group)[..offset]) * old(completedIndices) == {}
      {
        var index := group.start + offset;
        OneMoreIndex(group, offset);
        if index in completedIndices {
          assert index in Slots(group) * old(completedIndices);
          return false;
        }
        completedIndices := completedIndices + {index};
      }
      assert Indices(group)[..|group.attempts|] == Indices(group);
      return true;
    }

    method IsCompleted() returns (completed: bool)
      ensures completed == Finished(Value())
    {
      completed := |completedIndices| == |requests|;
    }
  }

  lemma OneMoreIndex(group: Group, offset: nat)
    requires offset < |group.attempts|
    ensures var before, index := Elements(Indices(group)[..offset]), group.start + offset;
      Elements(Indices(group)[..offset + 1]) == before + {index} && index !in before && index in Slots(group)
  {
    assert Indices(group)[offset] == group.start + offset;
    assert Indices(group)[..offset + 1] == Indices(group)[..offset] + [group.start + offset];
  }

  // ----- sessions held by a run -----

  ghost function Values(sessions: seq<StaleAsyncActiveBatchSession>): (r: seq<Session>)
    reads sessions
    ensures |r| == |sessions| && forall k :: 0 <= k < |r| ==> r[k] == sessions[k].Value()
  {
    seq(|sessions|, k requires 0 <= k < |sessions| reads sessions => sessions[k].Value())
  }

  ghost predicate Apart(sessions: seq<StaleAsyncActiveBatchSession>) {
    forall j, k :: 0 <= j < k < |sessions| ==> sessions[j] != sessions[k]
  }

  lemma {:induction false} UnfinishedAppend(a: seq<Session>, b: seq<Session>)
    ensures Unfinished(a + b) == Unfinished(a) + Unfinished(b)
  {
    if a == [] {
      assert a + b == b;
    } else {
      assert (a + b)[1..] == a[1..] + b;
      UnfinishedAppend(a[1..], b);
    }
  }

  method FilterUnfinished(active: seq<StaleAsyncActiveBatchSession>) returns (kept: seq<StaleAsyncActiveBatchSession>)
    requires Apart(active)
    ensures Values(kept) == Unfinished(Values(active)) && Apart(kept)
    ensures forall x :: x in kept ==> x in active
  {
    kept := [];
    ghost var values := Values(active);
    for k := 0 to |active|
      invariant Values(kept) == Unfinished(values[..k]) && Apart(kept)
      invariant forall x :: x in kept ==> x in active[..k]
    {
      assert values[..k + 1] == values[..k] + [values[k]];
      UnfinishedAppend(values[..k], [values[k]]);
      assert Unfinished([values[k]]) == (if Finished(values[k]) then [] else [values[k]]) + Unfinished([]);
      var completed := active[k].IsCompleted();
      if !completed {
        assert active[k] !in active[..k];
        ghost var before := kept;
        kept := kept + [active[k]];
        assert Values(kept) == Values(before) + [values[k]];
      }
    }
    assert values[..|active|] == values;
  }

  // ----- the run -----

  /** The local variables of the run. */
  datatype Vars = Vars(state: State, slots: int, safeSnapshot: Option<Snapshot>, unsafeSinceSafeSnapshot: bool,
                       active: seq<StaleAsyncActiveBatchSession>, count: nat, polls: nat)

  /** The machine state that the variables of the run amount to. */
  ghost predicate Shows(s: Stale, v: Vars, h: History, left: int)
    reads v.active
  {
    && s.state == v.state && s.history == h && s.remaining == left && s.snapshot == v.safeSnapshot
    && s.segmentUnsafe == v.unsafeSinceSafeSnapshot && s.active == Values(v.active)
    && |s.sizes| == v.count && s.polls == v.polls && Apart(v.active)
  }

  function Budget(budget: EvaluationBudget?, slots: int): (r: int)
    reads budget
  {
    if budget == null then slots else budget.remaining
  }

  method OpenSession(m: RunMethod, b: Backend, cfg: Settings, state: State, size: nat, budget: EvaluationBudget?,
                     slots: int, serial: nat)
    returns (r: Result<(StaleAsyncActiveBatchSession, State), Cause>)
    requires cfg.countCost <==> budget != null
    modifies budget
    ensures var (opening, left) := Opening(m, b, cfg, state, size, old(Budget(budget, slots)), serial);
      && Budget(budget, slots) == left
      && (opening.Err? ==> r == Err(opening.error))
      && (opening.Ok? ==> r.Ok? && fresh(r.value.0) && r.value.0.Value() == opening.value.0
                          && r.value.1 == opening.value.1)
  {
    var asked := AskedRequests(m, state, size, true);
    if asked.Err? {
      return Err(asked.error);
    }
    var (requests, next) := asked.value;
    if budget != null {
      var consumed := budget.Consume(|requests|);
      if consumed.Err? {
        return Err(Cause.BudgetExhausted);
      }
    }
    var submitted := b.open(serial, requests);
    if submitted.Err? {
      return Err(submitted.error);
    }
    var session := new StaleAsyncActiveBatchSession(serial, requests);
    return Ok((session, next));
  }

  /** Charges one completed group and enters it into the history. */
  method ChargeGroup(cfg: Settings, runHistory: StudyRunHistory, budget: EvaluationBudget?, slots: int, group: Group,
                     ghost s: Stale)
    returns (r: Result<int, Cause>)
    requires cfg.countCost <==> budget != null
    requires s.groups != [] && s.groups[0] == group
    requires s.history == runHistory.Contents() && s.remaining == Budget(budget, slots)
    requires budget != null ==> budget.remaining >= 0
    modifies runHistory, budget
    ensures match ChargedGroup(cfg, s)
      case Err(cause) =>
        r == Err(cause) && runHistory.Contents() == s.history && Budget(budget, slots) == s.remaining
      case Ok(charged) =>
        r.Ok? && runHistory.Contents() == charged.history && Budget(budget, r.value) == charged.remaining
  {
    if group.materialized.Err? {
      return Err(group.materialized.error);
    }
    var stepCount := |group.attempts|;
    var left := slots;
    if budget != null {
      var unmetered := Cost(group.attempts) - |group.attempts|;
      if unmetered > 0 {
        var consumed := budget.Consume(unmetered);
        if consumed.Err? {
          return Err(Cause.BudgetExhausted);
        }
      }
      stepCount := Cost(group.attempts);
    } else {
      left := slots - |group.attempts|;
    }
    runHistory.AppendStep(group.attempts, stepCount);
    return Ok(left);
  }

  /** Sessions are only added, and those that are there stay as they are. */
  twostate predicate Keeps(v: Vars, new w: Vars) {
    && v.active <= w.active
    && forall k :: |v.active| <= k < |w.active| ==> fresh(w.active[k])
  }

  method OpenInto(m: RunMethod, b: Backend, cfg: Settings, runHistory: StudyRunHistory, budget: EvaluationBudget?,
                  v: Vars, size: nat, ghost s: Stale)
    returns (ending: Option<Ending>, w: Vars)
    requires cfg.countCost <==> budget != null
    requires Shows(s, v, runHistory.Contents(), Budget(budget, v.slots)) && s.remaining <= cfg.maxEvaluations
    modifies budget
    ensures Keeps(v, w)
    ensures var t := OpenBatch(m, b, cfg, s, size);
      if t.Halt? then ending == Some(t.ending)
      else ending.None? && Shows(t.next, w, runHistory.Contents(), Budget(budget, w.slots))
  {
    w := v;
    var opening := OpenSession(m, b, cfg, v.state, size, budget, v.slots, v.count);
    if opening.Err? {
      ending := HandleStepFailure(cfg, runHistory, opening.error, cfg.maxEvaluations - Budget(budget, v.slots), v.state,
                                  v.safeSnapshot);
      return;
    }
    var (session, next) := opening.value;
    ghost var before := Values(v.active);
    w := v.(state := next, active := v.active + [session], count := v.count + 1,
            unsafeSinceSafeSnapshot := v.unsafeSinceSafeSnapshot || (cfg.stopAtCheckpoint && !m.isSafe(next)));
    assert Values(w.active) == before + [session.Value()];
    return None, w;
  }

  /** After a group was told: the checkpoint variables, and whether the run stops. */
  method NoteCheckpoint(m: RunMethod, cfg: Settings, runHistory: StudyRunHistory, v: Vars, next: State, ghost s: Stale)
    returns (ending: Option<Ending>, w: Vars)
    requires s.history == runHistory.Contents() && s.snapshot == v.safeSnapshot
    requires s.segmentUnsafe == v.unsafeSinceSafeSnapshot
    ensures w == v.(state := next, safeSnapshot := w.safeSnapshot, unsafeSinceSafeSnapshot := w.unsafeSinceSafeSnapshot)
    ensures var t := StaleTold(m, cfg, s, next);
      if t.Halt? then ending == Some(t.ending)
      else ending.None? && t.next.snapshot == w.safeSnapshot && t.next.segmentUnsafe == w.unsafeSinceSafeSnapshot
  {
    ending, w := None, v.(state := next);
    if cfg.stopAtCheckpoint && m.isSafe(next) {
      var snapshot := runHistory.CheckpointSnapshot(next);
      w := w.(safeSnapshot := Some(snapshot));
      if v.unsafeSinceSafeSnapshot {
        var report := runHistory.CheckpointReport(snapshot);
        ending := Some(ReturnedOr(report, next));
        return;
      }
    } else if cfg.stopAtCheckpoint {
      w := w.(unsafeSinceSafeSnapshot := true);
    }
  }

  /** One completed group is charged, recorded and told. */
  method TellGroup(m: RunMethod, cfg: Settings, runHistory: StudyRunHistory, budget: EvaluationBudget?, v: Vars,
                   group: Group, ghost s: Stale)
    returns (ending: Option<Ending>, w: Vars)
    requires (cfg.countCost <==> budget != null) && s.groups != [] && s.groups[0] == group && s.owner < |s.told|
    requires s.remaining <= cfg.maxEvaluations && (cfg.countCost ==> s.remaining >= 0)
    requires Shows(s, v, runHistory.Contents(), Budget(budget, v.slots))
    modifies runHistory, budget
    ensures w.active == v.active
    ensures var t := AssimilateGroup(m, cfg, s);
      if t.Halt? then ending == Some(t.ending)
      else ending.None? && Shows(t.next, w, runHistory.Contents(), Budget(budget, w.slots))
  {
    w := v;
    var charged := ChargeGroup(cfg, runHistory, budget, v.slots, group, s);
    if charged.Err? {
      ending := HandleStepFailure(cfg, runHistory, charged.error, cfg.maxEvaluations - Budget(budget, v.slots), v.state,
                                  v.safeSnapshot);
      return;
    }
    ending, w := TellCharged(m, cfg, runHistory, budget, v.(slots := charged.value), group, ChargedGroup(cfg, s).value);
  }

  /** The run method is told of a group that the history has already. */
  method TellCharged(m: RunMethod, cfg: Settings, runHistory: StudyRunHistory, budget: EvaluationBudget?, v: Vars,
                     group: Group, ghost charged: Stale)
    returns (ending: Option<Ending>, w: Vars)
    requires charged.groups != [] && charged.owner < |charged.told| && charged.remaining <= cfg.maxEvaluations
    requires Shows(charged, v, runHistory.Contents(), Budget(budget, v.slots))
    ensures w.active == v.active && w.slots == v.slots
    ensures var told := m.tellAttempts(charged.state, group.attempts);
      var t := if told.Err? then StaleFailed(cfg, charged, told.error)
               else StaleTold(m, cfg, RecordedGroup(charged), told.value);
      if t.Halt? then ending == Some(t.ending)
      else ending.None? && Shows(t.next, w, runHistory.Contents(), Budget(budget, w.slots))
  {
    w := v;
    var told := m.tellAttempts(v.state, group.attempts);
    if told.Err? {
      ending := HandleStepFailure(cfg, runHistory, told.error, cfg.maxEvaluations - Budget(budget, v.slots), v.state,
                                  v.safeSnapshot);
      return;
    }
    ending, w := NoteCheckpoint(m, cfg, runHistory, w, told.value, RecordedGroup(charged));
  }

  /** One completed group: told, and its slots refilled. */
  method AssimilateCompletedGroup(m: RunMethod, b: Backend, cfg: Settings, runHistory: StudyRunHistory,
                                  budget: EvaluationBudget?, v: Vars, group: Group, ghost s: Stale)
    returns (ending: Option<Ending>, w: Vars)
    requires (cfg.countCost <==> budget != null) && Accounts(cfg, s) && s.groups != [] && s.groups[0] == group
    requires Shows(s, v, runHistory.Contents(), Budget(budget, v.slots))
    modifies runHistory, budget
    ensures Keeps(v, w)
    ensures var t := AssimilateNext(m, b, cfg, s);
      if t.Halt? then ending == Some(t.ending)
      else ending.None? && Shows(t.next, w, runHistory.Contents(), Budget(budget, w.slots))
  {
    ending, w := TellGroup(m, cfg, runHistory, budget, v, group, s);
    if ending.Some? {
      return;
    }
    ghost var told := ToldState(m, cfg, s);
    var remaining := Budget(budget, w.slots);
    if remaining > 0 && !m.isExhausted(w.state) {
      ending, w := OpenInto(m, b, cfg, runHistory, budget, w, Min(|group.attempts|, remaining), told);
    }
  }

  lemma ToldState(m: RunMethod, cfg: Settings, s: Stale) returns (told: Stale)
    requires Accounts(cfg, s) && s.groups != [] && AssimilateGroup(m, cfg, s).Go?
    ensures AssimilateGroup(m, cfg, s) == Go(told) && Accounts(cfg, told)
  {
    ToldBalanced(m, cfg, s);
    told := AssimilateGroup(m, cfg, s).next;
  }

  // ----- the nested loops -----

  /** The run that began in `first` is in `s` after `used` actions. */
  ghost predicate At(m: RunMethod, b: Backend, cfg: Settings, first: Stale, used: nat, s: Stale) {
    StaleFrom(m, b, cfg, first, used) == (None, s)
  }

  ghost predicate EndedAt(m: RunMethod, b: Backend, cfg: Settings, first: Stale, used: nat, ending: Ending) {
    StaleFrom(m, b, cfg, first, used).0 == Some(ending)
  }

  lemma OneMore(m: RunMethod, b: Backend, cfg: Settings, first: Stale, used: nat, s: Stale)
    requires At(m, b, cfg, first, used, s) && InBounds(cfg, s)
    ensures StaleFrom(m, b, cfg, first, used + 1) == match StaleStep(m, b, cfg, s)
      case Go(next) => (None, next)
      case Halt(ending, last) => (Some(ending), last)
  {
    StepsMore(TakesOf(cfg), ActionOf(m, b, cfg), first, used, s);
  }

  /** One more action. */
  lemma OneAction(m: RunMethod, b: Backend, cfg: Settings, first: Stale, used: nat, s: Stale) returns (t: Transition)
    requires Accounts(cfg, first) && At(m, b, cfg, first, used, s)
    ensures Accounts(cfg, s) && t == StaleStep(m, b, cfg, s)
    ensures t.Halt? ==> EndedAt(m, b, cfg, first, used + 1, t.ending)
    ensures t.Go? ==> At(m, b, cfg, first, used + 1, t.next) && Accounts(cfg, t.next)
  {
    RunAccounts(m, b, cfg, first, used);
    t := StaleStep(m, b, cfg, s);
    StepAccounts(m, b, cfg, s);
    OneMore(m, b, cfg, first, used, s);
  }

  ghost predicate AccountsIfOn(cfg: Settings, outcome: (Option<Ending>, Stale)) {
    outcome.0.None? ==> Accounts(cfg, outcome.1)
  }

  lemma RunAccounts(m: RunMethod, b: Backend, cfg: Settings, s: Stale, fuel: nat)
    requires Accounts(cfg, s)
    ensures AccountsIfOn(cfg, StaleFrom(m, b, cfg, s, fuel))
  {
    var good, ended := (x: Stale) => Accounts(cfg, x), (ending: Ending, last: Stale) => true;
    forall x: Stale | good(x) && TakesOf(cfg)(x) ensures KeptBy(good, ended, ActionOf(m, b, cfg)(x)) {
      StepAccounts(m, b, cfg, x);
    }
    StepsKeep(TakesOf(cfg), ActionOf(m, b, cfg), good, ended, s, fuel);
  }

  lemma StaysEnded(m: RunMethod, b: Backend, cfg: Settings, first: Stale, used: nat, fuel: nat, ending: Ending)
    requires EndedAt(m, b, cfg, first, used, ending) && used <= fuel
    ensures EndedAt(m, b, cfg, first, fuel, ending)
  {
    EndedStays(TakesOf(cfg), ActionOf(m, b, cfg), first, used, fuel, ending);
  }

  /** Where a part of the run leaves off, after how many actions. */
  datatype Progress = Onward(vars: Vars, used: nat) | Ended(ending: Ending, used: nat) | OutOfFuel(vars: Vars, used: nat)

  /** One round of the innermost loop. */
  method AssimilateOne(m: RunMethod, b: Backend, cfg: Settings, runHistory: StudyRunHistory, budget: EvaluationBudget?,
                       v: Vars, group: Group, used: nat, fuel: nat, ghost first: Stale, ghost s: Stale)
    returns (p: Progress, ghost next: Stale)
    requires (cfg.countCost <==> budget != null) && s.groups != [] && s.groups[0] == group && used <= fuel
    requires Shows(s, v, runHistory.Contents(), Budget(budget, v.slots))
    requires Accounts(cfg, first) && At(m, b, cfg, first, used, s)
    modifies runHistory, budget
    ensures used <= p.used <= fuel
    ensures p.Ended? ==> EndedAt(m, b, cfg, first, p.used, p.ending)
    ensures !p.Ended? ==> At(m, b, cfg, first, p.used, next)
    ensures p.OutOfFuel? ==> p.used == fuel
    ensures p.Onward? ==> Shows(next, p.vars, runHistory.Contents(), Budget(budget, p.vars.slots))
    ensures p.Onward? ==>
      Keeps(v, p.vars) && next.groups == s.groups[1..] && next.inRound == s.inRound && next.queue == s.queue
  {
    next := s;
    if used == fuel {
      return OutOfFuel(v, used), s;
    }
    ghost var t := OneAction(m, b, cfg, first, used, s);
    GroupTransition(m, b, cfg, s, t);
    var ending, w := AssimilateCompletedGroup(m, b, cfg, runHistory, budget, v, group, s);
    if ending.Some? {
      return Ended(ending.value, used + 1), s;
    }
    return Onward(w, used + 1), t.next;
  }

  lemma GroupTransition(m: RunMethod, b: Backend, cfg: Settings, s: Stale, t: Transition)
    requires InBounds(cfg, s) && t == StaleStep(m, b, cfg, s) && s.groups != []
    ensures t == AssimilateNext(m, b, cfg, s)
    ensures t.Go? ==> t.next.groups == s.groups[1..] && t.next.inRound == s.inRound && t.next.queue == s.queue
  {
  }

  /** The innermost loop: the groups of one poll. */
  method AssimilateGroups(m: RunMethod, b: Backend, cfg: Settings, runHistory: StudyRunHistory,
                          budget: EvaluationBudget?, start: Vars, groups: seq<Group>, used: nat, fuel: nat,
                          ghost first: Stale, ghost s0: Stale)
    returns (p: Progress, ghost s: Stale)
    requires (cfg.countCost <==> budget != null) && s0.groups == groups && s0.inRound && used <= fuel
    requires Shows(s0, start, runHistory.Contents(), Budget(budget, start.slots))
    requires Accounts(cfg, first) && At(m, b, cfg, first, used, s0)
    modifies runHistory, budget
    ensures used <= p.used <= fuel
    ensures p.Ended? ==> EndedAt(m, b, cfg, first, p.used, p.ending)
    ensures !p.Ended? ==> At(m, b, cfg, first, p.used, s)
    ensures p.OutOfFuel? ==> p.used == fuel
    ensures p.Onward? ==> Shows(s, p.vars, runHistory.Contents(), Budget(budget, p.vars.slots))
    ensures p.Onward? ==> Keeps(start, p.vars) && s.groups == [] && s.inRound && s.queue == s0.queue
  {
    var v, rest := start, groups;
    var n: nat := used;
    s := s0;
    while |rest| > 0
      invariant Shows(s, v, runHistory.Contents(), Budget(budget, v.slots))
      invariant At(m, b, cfg, first, n, s) && used <= n <= fuel
      invariant s.groups == rest && s.inRound && s.queue == s0.queue
      invariant Keeps(start, v)
    {
      p, s := AssimilateOne(m, b, cfg, runHistory, budget, v, rest[0], n, fuel, first, s);
      if !p.Onward? {
        return;
      }
      v, n, rest := p.vars, p.used, rest[1..];
    }
    p := Onward(v, n);
  }

  /** Polls one session and assimilates what it has completed. */
  method PollSession(m: RunMethod, b: Backend, cfg: Settings, runHistory: StudyRunHistory, budget: EvaluationBudget?,
                     v: Vars, position: nat, used: nat, fuel: nat, ghost first: Stale, ghost s: Stale)
    returns (p: Progress, ghost next: Stale)
    requires (cfg.countCost <==> budget != null) && position < |v.active| && used <= fuel
    requires Shows(s, v, runHistory.Contents(), Budget(budget, v.slots))
    requires Accounts(cfg, first) && At(m, b, cfg, first, used, s)
    requires s.groups == [] && s.inRound && s.queue != [] && s.queue[0] == position
    modifies runHistory, budget, v.active[position]
    ensures used <= p.used <= fuel
    ensures p.Ended? ==> EndedAt(m, b, cfg, first, p.used, p.ending)
    ensures !p.Ended? ==> At(m, b, cfg, first, p.used, next)
    ensures p.OutOfFuel? ==> p.used == fuel
    ensures p.Onward? ==> Shows(next, p.vars, runHistory.Contents(), Budget(budget, p.vars.slots))
    ensures p.Onward? ==> Keeps(v, p.vars) && next.groups == [] && next.inRound && next.queue == s.queue[1..]
  {
    next := s;
    if used == fuel {
      return OutOfFuel(v, used), s;
    }
    ghost var t := OneAction(m, b, cfg, first, used, s);
    var groups, ending := PollOne(m, b, cfg, runHistory, budget, v, position, s);
    if groups.None? {
      return Ended(ending.value, used + 1), s;
    }
    p, next := AssimilateGroups(m, b, cfg, runHistory, budget, v.(polls := v.polls + 1), groups.value, used + 1, fuel,
                                first, t.next);
  }

  method PollOne(m: RunMethod, b: Backend, cfg: Settings, runHistory: StudyRunHistory, budget: EvaluationBudget?,
                 v: Vars, position: nat, ghost s: Stale)
    returns (groups: Option<seq<Group>>, ending: Option<Ending>)
    requires position < |v.active| && InBounds(cfg, s)
    requires Shows(s, v, runHistory.Contents(), Budget(budget, v.slots))
    requires s.groups == [] && s.inRound && s.queue != [] && s.queue[0] == position
    modifies v.active[position]
    ensures var t := StaleStep(m, b, cfg, s);
      if t.Halt? then groups.None? && ending == Some(t.ending)
      else
        && groups.Some? && t.next.groups == groups.value && t.next.inRound && t.next.queue == s.queue[1..]
        && Shows(t.next, v.(polls := v.polls + 1), runHistory.Contents(), Budget(budget, v.slots))
  {
    var session := v.active[position];
    var polled := b.poll(v.polls, Session(session.serial, session.requests, session.completedIndices));
    var completed := session.PollCompletedGroups(polled);
    if completed.Err? {
      ending := HandleStepFailure(cfg, runHistory, completed.error, cfg.maxEvaluations - Budget(budget, v.slots),
                                  v.state, v.safeSnapshot);
      return None, ending;
    }
    assert Values(v.active) == s.active[position := session.Value()];
    return Some(completed.value), None;
  }

  /** One round: every session that was active when it started is polled. */
  method PollRound(m: RunMethod, b: Backend, cfg: Settings, runHistory: StudyRunHistory, budget: EvaluationBudget?,
                   start: Vars, used: nat, fuel: nat, ghost first: Stale, ghost s0: Stale)
    returns (p: Progress, ghost s: Stale)
    requires (cfg.countCost <==> budget != null) && used <= fuel
    requires Shows(s0, start, runHistory.Contents(), Budget(budget, start.slots))
    requires Accounts(cfg, first) && At(m, b, cfg, first, used, s0)
    requires s0.groups == [] && s0.inRound && s0.queue == Positions(|start.active|)
    modifies runHistory, budget, start.active
    ensures used <= p.used <= fuel
    ensures p.Ended? ==> EndedAt(m, b, cfg, first, p.used, p.ending)
    ensures !p.Ended? ==> At(m, b, cfg, first, p.used, s)
    ensures p.OutOfFuel? ==> p.used == fuel
    ensures p.Onward? ==> Shows(s, p.vars, runHistory.Contents(), Budget(budget, p.vars.slots))
    ensures p.Onward? ==> Keeps(start, p.vars) && s.groups == [] && s.inRound && s.queue == []
  {
    var v := start;
    var n: nat := used;
    s := s0;
    var rest := Positions(|start.active|);
    while |rest| > 0
      invariant Shows(s, v, runHistory.Contents(), Budget(budget, v.slots))
      invariant At(m, b, cfg, first, n, s) && used <= n <= fuel
      invariant s.groups == [] && s.inRound && s.queue == rest
      invariant forall k :: 0 <= k < |rest| ==> rest[k] < |start.active|
      invariant Keeps(start, v)
    {
      assert v.active[rest[0]] == start.active[rest[0]];
      p, s := PollSession(m, b, cfg, runHistory, budget, v, rest[0], n, fuel, first, s);
      if !p.Onward? {
        return;
      }
      v, n, rest := p.vars, p.used, rest[1..];
    }
    p := Onward(v, n);
  }

  function Positions(n: nat): (r: seq<nat>) {
    seq(n, i requires 0 <= i < n => i)
  }

  /** The head of the outer loop: an idle run opens a batch, or ends. */
  method BeginRound(m: RunMethod, b: Backend, cfg: Settings, runHistory: StudyRunHistory, budget: EvaluationBudget?,
                    v: Vars, ghost s: Stale)
    returns (ending: Option<Ending>, w: Vars)
    requires (cfg.countCost <==> budget != null) && InBounds(cfg, s)
    requires Shows(s, v, runHistory.Contents(), Budget(budget, v.slots)) && s.groups == [] && !s.inRound
    modifies budget
    ensures Keeps(v, w)
    ensures var t := AtHead(m, b, cfg, s);
      if t.Halt? then ending == Some(t.ending)
      else
        && ending.None? && Shows(t.next, w, runHistory.Contents(), Budget(budget, w.slots))
        && t.next.groups == [] && t.next.inRound && t.next.queue == Positions(|w.active|)
  {
    ending, w := None, v;
    if |v.active| == 0 {
      var remaining := Budget(budget, v.slots);
      if remaining <= 0 || m.isExhausted(v.state) {
        var closed := CloseRun(m, cfg, runHistory, v.state, v.safeSnapshot);
        return Some(closed), v;
      }
      ending, w := OpenInto(m, b, cfg, runHistory, budget, v, Min(cfg.batchSize, remaining), s);
    }
  }

  /** The whole run, for at most `fuel` actions; None when they do not suffice. */
  method RunStaleAsync(m: RunMethod, b: Backend, cfg: Settings, initialState: Option<State>, fuel: nat)
    returns (ending: Option<Ending>)
    ensures ending == StaleFrom(m, b, cfg,
      StaleBegin(m, cfg, if initialState.Some? then initialState.value else m.initial), fuel).0
  {
    var runHistory := new StudyRunHistory();
    var budget: EvaluationBudget? := null;
    if cfg.countCost {
      budget := new EvaluationBudget(cfg.maxEvaluations);
    }
    var state: State := if initialState.None? then m.initial else initialState.value;
    var safeSnapshot: Option<Snapshot> := None;
    if cfg.stopAtCheckpoint && m.isSafe(state) {
      var snapshot := runHistory.CheckpointSnapshot(state);
      safeSnapshot := Some(snapshot);
    }
    var v := Vars(state, cfg.maxEvaluations, safeSnapshot, false, [], 0, 0);
    ghost var first := StaleBegin(m, cfg, state);
    BeginBalanced(m, cfg, state);
    ending := RunRounds(m, b, cfg, runHistory, budget, v, fuel, first);
  }

  method RunRounds(m: RunMethod, b: Backend, cfg: Settings, runHistory: StudyRunHistory, budget: EvaluationBudget?,
                   start: Vars, fuel: nat, ghost first: Stale)
    returns (ending: Option<Ending>)
    requires (cfg.countCost <==> budget != null) && Accounts(cfg, first)
    requires Shows(first, start, runHistory.Contents(), Budget(budget, start.slots))
    requires first.groups == [] && !first.inRound && start.active == []
    modifies runHistory, budget
    ensures ending == StaleFrom(m, b, cfg, first, fuel).0
  {
    var v := start;
    var used: nat := 0;
    ghost var s := first;
    while used < fuel
      invariant used <= fuel && At(m, b, cfg, first, used, s)
      invariant Shows(s, v, runHistory.Contents(), Budget(budget, v.slots)) && s.groups == [] && !s.inRound
      invariant forall k :: 0 <= k < |v.active| ==> fresh(v.active[k])
      decreases fuel - used
    {
      var p;
      p, s := OneRound(m, b, cfg, runHistory, budget, v, used, fuel, first, s);
      if p.Ended? {
        StaysEnded(m, b, cfg, first, p.used, fuel, p.ending);
        return Some(p.ending);
      }
      if p.OutOfFuel? {
        return None;
      }
      v, used := p.vars, p.used;
    }
    return None;
  }

  /** One pass of the outer loop. */
  method OneRound(m: RunMethod, b: Backend, cfg: Settings, runHistory: StudyRunHistory, budget: EvaluationBudget?,
                  v: Vars, used: nat, fuel: nat, ghost first: Stale, ghost s0: Stale)
    returns (p: Progress, ghost s: Stale)
    requires (cfg.countCost <==> budget != null) && used < fuel
    requires Shows(s0, v, runHistory.Contents(), Budget(budget, v.slots)) && s0.groups == [] && !s0.inRound
    requires Accounts(cfg, first) && At(m, b, cfg, first, used, s0)
    modifies runHistory, budget, v.active
    ensures used < p.used <= fuel
    ensures p.Ended? ==> EndedAt(m, b, cfg, first, p.used, p.ending)
    ensures !p.Ended? ==> At(m, b, cfg, first, p.used, s)
    ensures p.OutOfFuel? ==> p.used == fuel
    ensures p.Onward? ==> Shows(s, p.vars, runHistory.Contents(), Budget(budget, p.vars.slots))
    ensures p.Onward? ==> s.groups == [] && !s.inRound
    ensures p.Onward? ==>
      forall k :: 0 <= k < |p.vars.active| ==> p.vars.active[k] in v.active || fresh(p.vars.active[k])
  {
    p, s := HeadAction(m, b, cfg, runHistory, budget, v, used, fuel, first, s0);
    if !p.Onward? {
      return;
    }
    ghost var w := p.vars;
    p, s := PollRound(m, b, cfg, runHistory, budget, p.vars, p.used, fuel, first, s);
    if !p.Onward? {
      return;
    }
    ghost var polled := p.vars;
    p, s := CloseRound(m, b, cfg, runHistory, budget, p.vars, p.used, fuel, first, s);
    if p.Onward? {
      forall k | 0 <= k < |p.vars.active|
        ensures p.vars.active[k] in v.active || fresh(p.vars.active[k])
      {
        assert p.vars.active[k] in polled.active;
        var j :| 0 <= j < |polled.active| && polled.active[j] == p.vars.active[k];
        assert j < |w.active| ==> polled.active[j] == w.active[j];
        assert j < |v.active| ==> w.active[j] == v.active[j];
      }
    }
  }

  /** The first action of a round. */
  method HeadAction(m: RunMethod, b: Backend, cfg: Settings, runHistory: StudyRunHistory, budget: EvaluationBudget?,
                    v: Vars, used: nat, fuel: nat, ghost first: Stale, ghost s0: Stale)
    returns (p: Progress, ghost s: Stale)
    requires (cfg.countCost <==> budget != null) && used < fuel
    requires Shows(s0, v, runHistory.Contents(), Budget(budget, v.slots)) && s0.groups == [] && !s0.inRound
    requires Accounts(cfg, first) && At(m, b, cfg, first, used, s0)
    modifies budget
    ensures p.used == used + 1 && !p.OutOfFuel?
    ensures p.Ended? ==> EndedAt(m, b, cfg, first, p.used, p.ending)
    ensures p.Onward? ==> At(m, b, cfg, first, p.used, s)
    ensures p.Onward? ==> Shows(s, p.vars, runHistory.Contents(), Budget(budget, p.vars.slots)) && Keeps(v, p.vars)
    ensures p.Onward? ==> s.groups == [] && s.inRound && s.queue == Positions(|p.vars.active|)
  {
    s := s0;
    ghost var t := OneAction(m, b, cfg, first, used, s);
    var ending, w := BeginRound(m, b, cfg, runHistory, budget, v, s);
    if ending.Some? {
      return Ended(ending.value, used + 1), s;
    }
    return Onward(w, used + 1), t.next;
  }

  /** The end of a round: finished sessions are dropped. */
  method CloseRound(m: RunMethod, b: Backend, cfg: Settings, runHistory: StudyRunHistory, budget: EvaluationBudget?,
                    v: Vars, used: nat, fuel: nat, ghost first: Stale, ghost s0: Stale)
    returns (p: Progress, ghost s: Stale)
    requires used <= fuel && s0.groups == [] && s0.inRound && s0.queue == []
    requires Shows(s0, v, runHistory.Contents(), Budget(budget, v.slots))
    requires Accounts(cfg, first) && At(m, b, cfg, first, used, s0)
    ensures used <= p.used <= fuel && !p.Ended? && At(m, b, cfg, first, p.used, s)
    ensures p.OutOfFuel? ==> p.used == fuel
    ensures p.Onward? ==> Shows(s, p.vars, runHistory.Contents(), Budget(budget, p.vars.slots))
    ensures p.Onward? ==> s.groups == [] && !s.inRound
    ensures p.Onward? ==> forall k :: 0 <= k < |p.vars.active| ==> p.vars.active[k] in v.active
  {
    s := s0;
    if used == fuel {
      return OutOfFuel(v, fuel), s;
    }
    ghost var next := RoundEnds(m, b, cfg, first, used, s);
    var kept := FilterUnfinished(v.active);
    return Onward(v.(active := kept), used + 1), next;
  }

  lemma RoundEnds(m: RunMethod, b: Backend, cfg: Settings, first: Stale, used: nat, s: Stale) returns (next: Stale)
    requires Accounts(cfg, first) && At(m, b, cfg, first, used, s)
    requires s.groups == [] && s.inRound && s.queue == []
    ensures next == s.(inRound := false, active := Unfinished(s.active)) && At(m, b, cfg, first, used + 1, next)
  {
    var t := OneAction(m, b, cfg, first, used, s);
    next := t.next;
  }
}
