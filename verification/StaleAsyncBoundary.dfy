// How the states of a stale-asynchronous run follow from one another, where a
// checkpointed run stops, and that it ends for one of the reasons it should
// (src/variopt/study/stale_async.py).
module StaleAsyncBoundary {
  import opened Outcomes
  import opened RunHistory
  import opened StudyRun
  import opened StudyRunSafety
  import opened StudyRunSteps
  import opened StaleAsync
  import opened StaleAsyncLoop
  import opened StaleAsyncSafety

  // ----- the states of a run -----

  /** The tells among the visits. */
  function Tells(visits: seq<Visit>): (r: nat) {
    if visits == [] then 0 else Tells(visits[..|visits| - 1]) + if visits[|visits| - 1].told then 1 else 0
  }

  /** The state at `k` came from the one before: by asking for at most as many requests
      as it should, or by telling the group of attempts that was assimilated then. */
  ghost predicate VisitFollows(m: RunMethod, visits: seq<Visit>, assimilated: seq<seq<Attempt>>, k: nat) {
    0 < k < |visits|
    && if visits[k].told
       then var n := Tells(visits[..k]) - 1;
            0 <= n < |assimilated| && m.tellAttempts(visits[k - 1].state, assimilated[n]) == Ok(visits[k].state)
       else Asked(m, visits[k - 1].state, visits[k].state)
  }

  ghost predicate Asked(m: RunMethod, before: State, after: State) {
    exists size: nat :: AskGives(m, before, size, after)
  }

  ghost predicate AskGives(m: RunMethod, state: State, size: nat, asked: State) {
    exists requests :: AsksFor(m, state, size, requests, asked)
  }

  ghost predicate VisitsFollow(m: RunMethod, s: Stale, initial: State) {
    && s.visits != [] && s.visits[0] == Visit(initial, true)
    && Tells(s.visits) == |s.assimilated| + 1
    && (forall k :: 0 < k < |s.visits| ==> VisitFollows(m, s.visits, s.assimilated, k))
  }

  /** The run is where its last visit was. */
  ghost predicate UpToVisit(m: RunMethod, s: Stale, initial: State) {
    VisitsFollow(m, s, initial) && s.state == s.visits[|s.visits| - 1].state
  }

  lemma TellsAppend(visits: seq<Visit>, x: Visit)
    ensures Tells(visits + [x]) == Tells(visits) + if x.told then 1 else 0
  {
    assert (visits + [x])[..|visits|] == visits;
  }

  /** Visits that followed still do when more are added. */
  lemma VisitStays(m: RunMethod, visits: seq<Visit>, assimilated: seq<seq<Attempt>>, more: seq<Visit>,
                   further: seq<seq<Attempt>>, k: nat)
    requires VisitFollows(m, visits, assimilated, k) && visits <= more && assimilated <= further
    ensures VisitFollows(m, more, further, k)
  {
    assert more[..k] == visits[..k];
    assert more[k] == visits[k] && more[k - 1] == visits[k - 1];
  }

  lemma AskedFollows(m: RunMethod, s: Stale, t: Stale, initial: State, size: nat)
    requires UpToVisit(m, s, initial) && AskGives(m, s.state, size, t.state)
    requires t.visits == s.visits + [Visit(t.state, false)] && t.assimilated == s.assimilated
    ensures UpToVisit(m, t, initial)
  {
    TellsAppend(s.visits, Visit(t.state, false));
    forall k | 0 < k < |t.visits| ensures VisitFollows(m, t.visits, t.assimilated, k) {
      if k < |s.visits| {
        VisitStays(m, s.visits, s.assimilated, t.visits, t.assimilated, k);
      }
    }
  }

  lemma ToldFollows(m: RunMethod, s: Stale, t: Stale, initial: State, attempts: seq<Attempt>)
    requires UpToVisit(m, s, initial) && m.tellAttempts(s.state, attempts) == Ok(t.state)
    requires t.visits == s.visits + [Visit(t.state, true)] && t.assimilated == s.assimilated + [attempts]
    ensures UpToVisit(m, t, initial)
  {
    TellsAppend(s.visits, Visit(t.state, true));
    assert t.visits[..|s.visits|] == s.visits;
    forall k | 0 < k < |t.visits| ensures VisitFollows(m, t.visits, t.assimilated, k) {
      if k < |s.visits| {
        VisitStays(m, s.visits, s.assimilated, t.visits, t.assimilated, k);
      }
    }
  }

  // ----- checkpoint boundaries -----

  /** A state behind the initial one was not safe. */
  ghost predicate UnsafeWithin(m: RunMethod, visits: seq<Visit>) {
    exists j :: 1 <= j < |visits| && !m.isSafe(visits[j].state)
  }

  /** The visit at `k` is a told state that is safe behind an unsafe one. */
  ghost predicate BoundaryAt(m: RunMethod, visits: seq<Visit>, k: nat) {
    0 < k < |visits| && visits[k].told && m.isSafe(visits[k].state) && UnsafeWithin(m, visits[..k])
  }

  /** No boundary has been passed. */
  ghost predicate NoBoundary(m: RunMethod, visits: seq<Visit>) {
    forall k :: !BoundaryAt(m, visits, k)
  }

  ghost predicate Marked(m: RunMethod, cfg: Settings, s: Stale) {
    cfg.stopAtCheckpoint ==>
      NoBoundary(m, s.visits) && (s.segmentUnsafe <==> UnsafeWithin(m, s.visits))
  }

  /** The run has come to a boundary with its last visit. */
  ghost predicate StoppedThere(m: RunMethod, visits: seq<Visit>) {
    visits != [] && BoundaryAt(m, visits, |visits| - 1) && NoBoundary(m, visits[..|visits| - 1])
  }

  lemma UnsafeAppend(m: RunMethod, visits: seq<Visit>, x: Visit)
    requires visits != []
    ensures UnsafeWithin(m, visits + [x]) <==> UnsafeWithin(m, visits) || !m.isSafe(x.state)
  {
    var more := visits + [x];
    if UnsafeWithin(m, visits) {
      var j :| 1 <= j < |visits| && !m.isSafe(visits[j].state);
      assert more[j] == visits[j];
    }
    if !m.isSafe(x.state) {
      assert more[|visits|] == x;
    }
  }

  lemma BoundaryAppend(m: RunMethod, visits: seq<Visit>, x: Visit, k: nat)
    requires visits != []
    ensures BoundaryAt(m, visits + [x], k) <==>
      BoundaryAt(m, visits, k) || (k == |visits| && x.told && m.isSafe(x.state) && UnsafeWithin(m, visits))
  {
    var more := visits + [x];
    if k < |visits| {
      assert more[k] == visits[k] && more[..k] == visits[..k];
    } else if k == |visits| {
      assert more[k] == x && more[..k] == visits;
    }
  }

  /** One more visit: it is a boundary exactly when it is told, safe, and behind an
      unsafe one. */
  lemma OneMoreVisit(m: RunMethod, visits: seq<Visit>, x: Visit)
    requires visits != [] && NoBoundary(m, visits)
    ensures UnsafeWithin(m, visits + [x]) <==> UnsafeWithin(m, visits) || !m.isSafe(x.state)
    ensures if x.told && m.isSafe(x.state) && UnsafeWithin(m, visits) then StoppedThere(m, visits + [x])
            else NoBoundary(m, visits + [x])
  {
    UnsafeAppend(m, visits, x);
    forall k: nat
      ensures BoundaryAt(m, visits + [x], k) <==>
        BoundaryAt(m, visits, k) || (k == |visits| && x.told && m.isSafe(x.state) && UnsafeWithin(m, visits))
    {
      BoundaryAppend(m, visits, x, k);
    }
    assert (visits + [x])[..|visits|] == visits;
  }

  // ----- every action -----

  ghost predicate OnTrack(m: RunMethod, cfg: Settings, initial: State, s: Stale) {
    UpToVisit(m, s, initial) && Marked(m, cfg, s)
  }

  lemma BeginOnTrack(m: RunMethod, cfg: Settings, initial: State)
    ensures OnTrack(m, cfg, initial, StaleBegin(m, cfg, initial))
  {
    var visits := [Visit(initial, true)];
    assert visits[..0] == [] && Tells([]) == 0;
  }

  /** Nothing about the visits changes. */
  ghost predicate SameVisits(s: Stale, t: Stale) {
    t.visits == s.visits && t.assimilated == s.assimilated && t.state == s.state && t.segmentUnsafe == s.segmentUnsafe
  }

  lemma OpenOnTrack(m: RunMethod, b: Backend, cfg: Settings, initial: State, s: Stale, size: nat)
    requires s.remaining <= cfg.maxEvaluations && OnTrack(m, cfg, initial, s) && OpenBatch(m, b, cfg, s, size).Go?
    ensures OnTrack(m, cfg, initial, OpenBatch(m, b, cfg, s, size).next)
  {
    var next := OpenBatch(m, b, cfg, s, size).next;
    AskedExactly(m, s.state, size, true);
    assert AskGives(m, s.state, size, next.state);
    AskedFollows(m, s, next, initial, size);
    if cfg.stopAtCheckpoint {
      OneMoreVisit(m, s.visits, Visit(next.state, false));
    }
  }

  /** The told state comes next; the run stops there exactly at a boundary. */
  lemma ToldOnTrack(m: RunMethod, cfg: Settings, initial: State, s: Stale, attempts: seq<Attempt>, r: Stale, next: State)
    requires OnTrack(m, cfg, initial, s) && m.tellAttempts(s.state, attempts) == Ok(next)
    requires r.visits == s.visits && r.segmentUnsafe == s.segmentUnsafe && r.assimilated == s.assimilated + [attempts]
    ensures match StaleTold(m, cfg, r, next)
      case Go(t) => OnTrack(m, cfg, initial, t)
      case Halt(ending, last) =>
        UpToVisit(m, last, initial) && EndsAtBoundary(m, cfg, last, ending)
  {
    var x := Visit(next, true);
    if cfg.stopAtCheckpoint {
      OneMoreVisit(m, s.visits, x);
    }
    var t := if StaleTold(m, cfg, r, next).Go? then StaleTold(m, cfg, r, next).next else StaleTold(m, cfg, r, next).last;
    ToldFollows(m, s, t, initial, attempts);
    if StaleTold(m, cfg, r, next).Halt? {
      SnapshotsAreStable(r.history, next, r.history);
    }
  }

  /** The run has come to a checkpoint boundary, and gives all that it has told. */
  ghost predicate EndsAtBoundary(m: RunMethod, cfg: Settings, last: Stale, ending: Ending) {
    && cfg.stopAtCheckpoint && StoppedThere(m, last.visits)
    && ending == ReturnedOr(MakeReport(last.history, last.history.evaluationCount), last.state)
  }

  /** Nothing is open, and nothing more may be: the budget is used up, or the run
      method exhausted. What is given is everything, unless the state is not safe. */
  ghost predicate EndsDrained(m: RunMethod, cfg: Settings, last: Stale, ending: Ending) {
    && last.active == [] && last.groups == [] && (last.remaining <= 0 || m.isExhausted(last.state))
    && (!cfg.stopAtCheckpoint || m.isSafe(last.state) ==>
          ending == ReturnedOr(MakeReport(last.history, last.history.evaluationCount), last.state))
  }

  /** Opening a batch raises: the run method or the evaluator does, or the ledger has
      too little left. */
  ghost predicate OpeningRaises(m: RunMethod, b: Backend, cfg: Settings, s: Stale, size: nat, cause: Cause) {
    var asked := AskedRequests(m, s.state, size, true);
    || asked == Err(cause)
    || (asked.Ok? && ((cfg.countCost && |asked.value.0| > s.remaining && cause.BudgetExhausted?)
                      || b.open(|s.sizes|, asked.value.0) == Err(cause)))
  }

  /** A group raises: its materialization, the ledger, or the run method when told. */
  predicate GroupRaises(m: RunMethod, cfg: Settings, s: Stale, group: Group, cause: Cause) {
    || group.materialized == Err(cause)
    || (cfg.countCost && cause.BudgetExhausted?
        && (Cost(group.attempts) - |group.attempts| > s.remaining || s.remaining < 0))
    || m.tellAttempts(s.state, group.attempts) == Err(cause)
  }

  /** A poll raises, or gives groups that do not fit the session. */
  predicate PollRaises(b: Backend, s: Stale, session: Session, cause: Cause) {
    var polled := b.poll(s.polls, session);
    polled == Err(cause) || (polled.Ok? && Accepted(session, polled.value) == Err(cause))
  }

  /** Something has raised; the failure shows the history and the state of the time. */
  ghost predicate EndsRaised(cfg: Settings, last: Stale, ending: Ending, cause: Cause) {
    && last.remaining <= cfg.maxEvaluations
    && (!cause.BudgetExhausted? ==>
          FailsWith(ending, last.history, cfg.maxEvaluations - last.remaining, last.state, cause))
    && (cause.BudgetExhausted? ==>
          ending == if cfg.stopAtCheckpoint && last.snapshot.Some?
                    then ReturnedOr(Project(last.snapshot.value, last.history), last.snapshot.value.state)
                    else RaisedBudgetExhausted)
  }

  /** What the action at `s` can raise. */
  ghost predicate Faults(m: RunMethod, b: Backend, cfg: Settings, s: Stale, cause: Cause)
    requires InBounds(cfg, s)
  {
    if s.groups != [] then
      GroupRaises(m, cfg, s, s.groups[0], cause) || RefillRaises(m, b, cfg, s, cause)
    else if s.inRound && s.queue != [] then PollRaises(b, s, s.active[s.queue[0]], cause)
    else s.remaining >= 0 && OpeningRaises(m, b, cfg, s, Min(cfg.batchSize, s.remaining), cause)
  }

  ghost predicate RefillRaises(m: RunMethod, b: Backend, cfg: Settings, s: Stale, cause: Cause)
    requires InBounds(cfg, s) && s.groups != []
  {
    var told := AssimilateGroup(m, cfg, s);
    told.Go? && told.next.remaining >= 0
    && OpeningRaises(m, b, cfg, told.next, Min(|s.groups[0].attempts|, told.next.remaining), cause)
  }

  lemma FailedIsRaised(cfg: Settings, s: Stale, cause: Cause)
    requires s.remaining <= cfg.maxEvaluations
    ensures StaleFailed(cfg, s, cause).last == s
    ensures EndsRaised(cfg, s, StaleFailed(cfg, s, cause).ending, cause)
  {
    FailedRunFails(s.history, cfg.maxEvaluations - s.remaining, s.state, s.snapshot, cause);
  }

  /** What an action that may raise `faults` leads to: it goes on, or ends for a reason. */
  ghost predicate LeadsRightly(m: RunMethod, cfg: Settings, initial: State, faults: Cause -> bool, t: Transition) {
    match t
    case Go(next) => OnTrack(m, cfg, initial, next)
    case Halt(ending, last) =>
      && UpToVisit(m, last, initial)
      && (cfg.stopAtCheckpoint ==> NoBoundary(m, last.visits) || EndsAtBoundary(m, cfg, last, ending))
      && (EndsAtBoundary(m, cfg, last, ending) || EndsDrained(m, cfg, last, ending)
          || exists cause :: faults(cause) && EndsRaised(cfg, last, ending, cause))
  }

  lemma RaisedLeads(m: RunMethod, cfg: Settings, initial: State, s: Stale, t: Stale, cause: Cause, faults: Cause -> bool)
    requires OnTrack(m, cfg, initial, s) && SameVisits(s, t) && t.remaining <= cfg.maxEvaluations && faults(cause)
    ensures LeadsRightly(m, cfg, initial, faults, StaleFailed(cfg, t, cause))
  {
    FailedIsRaised(cfg, t, cause);
  }

  lemma OpenLeads(m: RunMethod, b: Backend, cfg: Settings, initial: State, s: Stale, size: nat, faults: Cause -> bool)
    requires s.remaining <= cfg.maxEvaluations && OnTrack(m, cfg, initial, s)
    requires forall cause :: OpeningRaises(m, b, cfg, s, size, cause) ==> faults(cause)
    ensures LeadsRightly(m, cfg, initial, faults, OpenBatch(m, b, cfg, s, size))
  {
    if OpenBatch(m, b, cfg, s, size).Go? {
      OpenOnTrack(m, b, cfg, initial, s, size);
    } else {
      var (opening, left) := Opening(m, b, cfg, s.state, size, s.remaining, |s.sizes|);
      assert OpeningRaises(m, b, cfg, s, size, opening.error);
      RaisedLeads(m, cfg, initial, s, s.(remaining := left), opening.error, faults);
    }
  }

  lemma GroupLeads(m: RunMethod, cfg: Settings, initial: State, s: Stale, faults: Cause -> bool)
    requires s.remaining <= cfg.maxEvaluations && s.groups != [] && s.owner < |s.told| && OnTrack(m, cfg, initial, s)
    requires forall cause :: GroupRaises(m, cfg, s, s.groups[0], cause) ==> faults(cause)
    ensures LeadsRightly(m, cfg, initial, faults, AssimilateGroup(m, cfg, s))
  {
    var charged := ChargedGroup(cfg, s);
    if charged.Err? {
      assert GroupRaises(m, cfg, s, s.groups[0], charged.error);
      RaisedLeads(m, cfg, initial, s, s, charged.error, faults);
    } else {
      var told := m.tellAttempts(s.state, s.groups[0].attempts);
      if told.Err? {
        assert GroupRaises(m, cfg, s, s.groups[0], told.error);
        RaisedLeads(m, cfg, initial, s, charged.value, told.error, faults);
      } else {
        ToldOnTrack(m, cfg, initial, s, s.groups[0].attempts, RecordedGroup(charged.value), told.value);
      }
    }
  }

  lemma AssimilateLeads(m: RunMethod, b: Backend, cfg: Settings, initial: State, s: Stale, faults: Cause -> bool)
    requires InBounds(cfg, s) && s.groups != [] && OnTrack(m, cfg, initial, s)
    requires forall cause :: GroupRaises(m, cfg, s, s.groups[0], cause) ==> faults(cause)
    requires forall cause :: RefillRaises(m, b, cfg, s, cause) ==> faults(cause)
    ensures LeadsRightly(m, cfg, initial, faults, AssimilateNext(m, b, cfg, s))
  {
    GroupLeads(m, cfg, initial, s, faults);
    var told := AssimilateGroup(m, cfg, s);
    if told.Go? && told.next.remaining <= cfg.maxEvaluations && MayOpen(m, told.next) {
      var size := Min(|s.groups[0].attempts|, told.next.remaining);
      forall cause | OpeningRaises(m, b, cfg, told.next, size, cause) ensures faults(cause) {
        assert RefillRaises(m, b, cfg, s, cause);
      }
      OpenLeads(m, b, cfg, initial, told.next, size, faults);
    }
  }

  lemma PollLeads(m: RunMethod, b: Backend, cfg: Settings, initial: State, s: Stale, faults: Cause -> bool)
    requires s.remaining <= cfg.maxEvaluations && s.queue != [] && s.queue[0] < |s.active| && OnTrack(m, cfg, initial, s)
    requires forall cause :: PollRaises(b, s, s.active[s.queue[0]], cause) ==> faults(cause)
    ensures LeadsRightly(m, cfg, initial, faults, PollNext(b, cfg, s))
  {
    var session, polled := s.active[s.queue[0]], s.(polls := s.polls + 1, queue := s.queue[1..]);
    var result := b.poll(s.polls, session);
    if result.Err? {
      assert PollRaises(b, s, session, result.error);
      RaisedLeads(m, cfg, initial, s, polled, result.error, faults);
    } else if Accepted(session, result.value).Err? {
      assert PollRaises(b, s, session, Accepted(session, result.value).error);
      RaisedLeads(m, cfg, initial, s, polled, Accepted(session, result.value).error, faults);
    }
  }

  lemma HeadLeads(m: RunMethod, b: Backend, cfg: Settings, initial: State, s: Stale, faults: Cause -> bool)
    requires s.remaining <= cfg.maxEvaluations && s.groups == [] && OnTrack(m, cfg, initial, s)
    requires s.remaining >= 0 ==>
      forall cause :: OpeningRaises(m, b, cfg, s, Min(cfg.batchSize, s.remaining), cause) ==> faults(cause)
    ensures LeadsRightly(m, cfg, initial, faults, AtHead(m, b, cfg, s))
  {
    if s.active == [] {
      if MayOpen(m, s) {
        OpenLeads(m, b, cfg, initial, s, Min(cfg.batchSize, s.remaining), faults);
      } else {
        assert EndsDrained(m, cfg, s, ClosedAt(m, cfg, s.history, s.state, s.snapshot));
      }
    }
  }

  lemma StepLeads(m: RunMethod, b: Backend, cfg: Settings, initial: State, s: Stale)
    requires InBounds(cfg, s) && OnTrack(m, cfg, initial, s)
    ensures LeadsRightly(m, cfg, initial, (cause: Cause) => Faults(m, b, cfg, s, cause), StaleStep(m, b, cfg, s))
  {
    var faults := (cause: Cause) => Faults(m, b, cfg, s, cause);
    if s.groups != [] {
      AssimilateLeads(m, b, cfg, initial, s, faults);
    } else if s.inRound && s.queue != [] {
      PollLeads(m, b, cfg, initial, s, faults);
    } else if !s.inRound {
      HeadLeads(m, b, cfg, initial, s, faults);
    }
  }

  // ----- what stops an action -----

  /** The state that an action goes on from, or ends with. */
  function Reached(t: Transition): (r: Stale) {
    if t.Go? then t.next else t.last
  }

  /** The cost beyond the slots, if any, cannot be paid. */
  predicate Unpaid(cfg: Settings, s: Stale, attempts: seq<Attempt>) {
    cfg.countCost && (Cost(attempts) - |attempts| > s.remaining || s.remaining < 0)
  }

  /** The history with a group that has been taken. */
  function WithGroup(cfg: Settings, h: History, attempts: seq<Attempt>): (r: History) {
    Append(h, attempts, if cfg.countCost then Cost(attempts) else |attempts|)
  }

  /** A group is taken exactly when it materializes, what it costs can be paid, and the
      run method can be told. A refused one leaves no trace in the history and costs
      nothing; one that could not be told is in the history, and paid. */
  lemma GroupTakenExactly(m: RunMethod, cfg: Settings, s: Stale)
    requires s.remaining <= cfg.maxEvaluations && s.groups != [] && s.owner < |s.told|
    ensures var group, t := s.groups[0], AssimilateGroup(m, cfg, s);
      var told, after := m.tellAttempts(s.state, group.attempts), Reached(t);
      if group.materialized.Err? then
        t.Halt? && after == s && EndsRaised(cfg, s, t.ending, group.materialized.error)
      else if Unpaid(cfg, s, group.attempts) then
        t.Halt? && after == s && EndsRaised(cfg, s, t.ending, Cause.BudgetExhausted)
      else
        && after.history == WithGroup(cfg, s.history, group.attempts)
        && s.remaining - after.remaining ==
             (if !cfg.countCost then |group.attempts|
              else if Cost(group.attempts) > |group.attempts| then Cost(group.attempts) - |group.attempts| else 0)
        && (told.Err? ==> t.Halt? && after.state == s.state && EndsRaised(cfg, after, t.ending, told.error))
        && (told.Ok? ==> after.state == told.value)
  {
    var charged := ChargedGroup(cfg, s);
    if charged.Err? {
      FailedIsRaised(cfg, s, charged.error);
    } else {
      var told := m.tellAttempts(s.state, s.groups[0].attempts);
      if told.Err? {
        FailedIsRaised(cfg, charged.value, told.error);
      }
    }
  }

  /** A batch is opened exactly when there is something to ask for, its slots can be
      paid, and the evaluator takes it. The slots of a batch that it does not take
      stay charged. */
  lemma OpenedExactly(m: RunMethod, b: Backend, cfg: Settings, s: Stale, size: nat)
    requires s.remaining <= cfg.maxEvaluations
    ensures var t, asked := OpenBatch(m, b, cfg, s, size), AskedRequests(m, s.state, size, true);
      var after := Reached(t);
      if asked.Err? then t.Halt? && after == s && EndsRaised(cfg, s, t.ending, asked.error)
      else
        var (requests, next) := asked.value;
        var slots := if cfg.countCost then |requests| else 0;
        if slots > 0 && slots > s.remaining then t.Halt? && after == s && EndsRaised(cfg, s, t.ending, Cause.BudgetExhausted)
        else
          var taken := b.open(|s.sizes|, requests);
          && after.remaining == s.remaining - slots && after.history == s.history
          && (taken.Err? ==> t.Halt? && after.active == s.active && EndsRaised(cfg, after, t.ending, taken.error))
          && (taken.Ok? ==> t.Go? && after.state == next
                              && after.active == s.active + [Session(|s.sizes|, requests, {})])
  {
    var (opening, left) := Opening(m, b, cfg, s.state, size, s.remaining, |s.sizes|);
    if opening.Err? {
      FailedIsRaised(cfg, s.(remaining := left), opening.error);
    }
  }

  /** The poll of the next session raises, or its groups are refused, or they are what
      is assimilated next. */
  lemma PolledExactly(b: Backend, cfg: Settings, s: Stale)
    requires s.remaining <= cfg.maxEvaluations && s.queue != [] && s.queue[0] < |s.active|
    ensures var session, t := s.active[s.queue[0]], PollNext(b, cfg, s);
      var polled, after := b.poll(s.polls, session), Reached(t);
      && after.queue == s.queue[1..] && after.history == s.history && after.remaining == s.remaining
      && (polled.Err? ==> t.Halt? && EndsRaised(cfg, after, t.ending, polled.error))
      && (polled.Ok? && !(AllFit(session, polled.value) && AllApart(polled.value)) ==>
            t.Halt? && EndsRaised(cfg, after, t.ending, MisalignedAttempts))
      && (polled.Ok? && AllFit(session, polled.value) && AllApart(polled.value) ==>
            t.Go? && after.groups == polled.value && after.owner == session.serial)
  {
    var session := s.active[s.queue[0]];
    var result, polled := b.poll(s.polls, session), s.(polls := s.polls + 1, queue := s.queue[1..]);
    if result.Err? {
      FailedIsRaised(cfg, polled, result.error);
    } else {
      AcceptedExactly(session, result.value);
      if Accepted(session, result.value).Err? {
        RefusalIsMisaligned(session, result.value);
        FailedIsRaised(cfg, polled, MisalignedAttempts);
      }
    }
  }

  lemma {:induction false} RefusalIsMisaligned(session: Session, groups: seq<Group>)
    ensures Accepted(session, groups).Err? ==> Accepted(session, groups).error == MisalignedAttempts
    decreases groups
  {
    if groups != [] {
      RefusalIsMisaligned(session.(completed := session.completed + Slots(groups[0])), groups[1..]);
    }
  }

  /** The sessions that stay open keep their order. */
  lemma {:induction false} OpenSessionsInOrder(sessions: seq<Session>, more: seq<Session>)
    ensures Unfinished(sessions + more) == Unfinished(sessions) + Unfinished(more)
  {
    if sessions == [] {
      assert sessions + more == more;
    } else {
      assert (sessions + more)[1..] == sessions[1..] + more && (sessions + more)[0] == sessions[0];
      OpenSessionsInOrder(sessions[1..], more);
    }
  }

  /** A round polls the sessions that were open at its start, each once, in order. */
  lemma RoundPollsEach(s: Stale)
    ensures var t := StartRound(s);
      && t.inRound && t.active == s.active && |t.queue| == |s.active|
      && forall i :: 0 <= i < |t.queue| ==> t.queue[i] == i
  {
  }

  // ----- over a run -----

  /** The run ends with the action at some state that it gets to, for a reason. */
  ghost predicate EndsFor(m: RunMethod, b: Backend, cfg: Settings, initial: State, ending: Ending, last: Stale) {
    exists s :: EndsFrom(m, b, cfg, initial, s, ending, last)
  }

  ghost predicate EndsFrom(m: RunMethod, b: Backend, cfg: Settings, initial: State, s: Stale, ending: Ending, last: Stale) {
    && InBounds(cfg, s) && OnTrack(m, cfg, initial, s) && StaleStep(m, b, cfg, s) == Halt(ending, last)
    && LeadsRightly(m, cfg, initial, (cause: Cause) => Faults(m, b, cfg, s, cause), Halt(ending, last))
  }

  /** Every state of a run comes from the one before by an ask, or by a tell of the
      group that was assimilated; a checkpointed run goes on until it comes to a
      boundary, and stops there; and a run that ends does so there, with everything
      drained, or because something has raised. */
  lemma StaleRunsRightly(m: RunMethod, b: Backend, cfg: Settings, initial: State, fuel: nat)
    ensures var (ending, last) := StaleFrom(m, b, cfg, StaleBegin(m, cfg, initial), fuel);
      if ending.None? then OnTrack(m, cfg, initial, last) else EndsFor(m, b, cfg, initial, ending.value, last)
  {
    BeginOnTrack(m, cfg, initial);
    var good := (x: Stale) => OnTrack(m, cfg, initial, x);
    var ended := (ending: Ending, last: Stale) => EndsFor(m, b, cfg, initial, ending, last);
    forall x: Stale | good(x) && TakesOf(cfg)(x) ensures KeptBy(good, ended, ActionOf(m, b, cfg)(x)) {
      StepLeads(m, b, cfg, initial, x);
      var t := StaleStep(m, b, cfg, x);
      if t.Halt? {
        assert EndsFrom(m, b, cfg, initial, x, t.ending, t.last);
      }
    }
    StepsKeep(TakesOf(cfg), ActionOf(m, b, cfg), good, ended, StaleBegin(m, cfg, initial), fuel);
  }

  /** Only the last visit can be a boundary, and then the run has ended there, with the
      told state and all that was told. */
  ghost predicate StopsThere(m: RunMethod, ending: Option<Ending>, last: Stale) {
    && last.visits != [] && NoBoundary(m, last.visits[..|last.visits| - 1])
    && last.state == last.visits[|last.visits| - 1].state
    && (BoundaryAt(m, last.visits, |last.visits| - 1) ==>
          ending == Some(ReturnedOr(MakeReport(last.history, last.history.evaluationCount), last.state)))
  }

  lemma OnTrackStops(m: RunMethod, cfg: Settings, initial: State, last: Stale)
    requires cfg.stopAtCheckpoint && OnTrack(m, cfg, initial, last)
    ensures StopsThere(m, None, last)
  {
    FrontHasNoBoundary(m, last.visits);
  }

  lemma EndStops(m: RunMethod, cfg: Settings, initial: State, faults: Cause -> bool, ending: Ending, last: Stale)
    requires cfg.stopAtCheckpoint && LeadsRightly(m, cfg, initial, faults, Halt(ending, last))
    ensures StopsThere(m, Some(ending), last)
  {
    if NoBoundary(m, last.visits) {
      FrontHasNoBoundary(m, last.visits);
    }
  }

  /** A checkpointed run goes on over every safe told state that has no unsafe one
      before it, and stops at the first one that has. */
  lemma StaleStopsAtBoundary(m: RunMethod, b: Backend, cfg: Settings, initial: State, fuel: nat)
    requires cfg.stopAtCheckpoint
    ensures var (ending, last) := StaleFrom(m, b, cfg, StaleBegin(m, cfg, initial), fuel);
      StopsThere(m, ending, last)
  {
    StaleRunsRightly(m, b, cfg, initial, fuel);
    var (ending, last) := StaleFrom(m, b, cfg, StaleBegin(m, cfg, initial), fuel);
    if ending.None? {
      OnTrackStops(m, cfg, initial, last);
    } else {
      var s :| EndsFrom(m, b, cfg, initial, s, ending.value, last);
      EndStops(m, cfg, initial, (cause: Cause) => Faults(m, b, cfg, s, cause), ending.value, last);
    }
  }

  lemma FrontHasNoBoundary(m: RunMethod, visits: seq<Visit>)
    requires visits != [] && NoBoundary(m, visits)
    ensures NoBoundary(m, visits[..|visits| - 1])
  {
    var front := visits[..|visits| - 1];
    forall k: nat ensures !BoundaryAt(m, front, k) {
      if k < |front| {
        assert front[..k] == visits[..k] && front[k] == visits[k];
        assert !BoundaryAt(m, visits, k);
      }
    }
  }

  // ----- what a session accepts -----

  predicate Within(group: Group, i: int) {
    group.start <= i < group.start + |group.attempts|
  }

  /** The group fits the session: some attempts within its bounds, each for the request
      at its place, and none completed before. */
  ghost predicate Fits(session: Session, group: Group) {
    && group.attempts != [] && group.start + |group.attempts| <= |session.requests|
    && (forall i :: 0 <= i < |group.attempts| ==> group.attempts[i].request == session.requests[group.start + i])
    && (forall i :: i in session.completed ==> !Within(group, i))
  }

  ghost predicate Apart(a: Group, b: Group) {
    forall i :: Within(a, i) ==> !Within(b, i)
  }

  ghost predicate AllFit(session: Session, groups: seq<Group>) {
    forall k :: 0 <= k < |groups| ==> Fits(session, groups[k])
  }

  ghost predicate AllApart(groups: seq<Group>) {
    forall j, k :: 0 <= j < k < |groups| ==> Apart(groups[j], groups[k])
  }

  ghost predicate SomeWithin(groups: seq<Group>, i: nat) {
    exists k :: 0 <= k < |groups| && Within(groups[k], i)
  }

  /** A poll is accepted exactly when every group fits and no two overlap; then their
      indices are completed. */
  lemma {:induction false} AcceptedExactly(session: Session, groups: seq<Group>)
    ensures Accepted(session, groups).Ok? <==> AllFit(session, groups) && AllApart(groups)
    ensures Accepted(session, groups).Ok? ==>
      forall i :: i in Accepted(session, groups).value.completed <==> i in session.completed || SomeWithin(groups, i)
    decreases groups
  {
    if groups != [] {
      var group, rest := groups[0], groups[1..];
      FitsFirst(session, group);
      AllBut(session, groups);
      if Fits(session, group) {
        var next := session.(completed := session.completed + Slots(group));
        AcceptedExactly(next, rest);
        RestFits(session, groups, next);
        MoreCompleted(session, groups, next, Accepted(session, groups));
      }
    }
  }

  lemma MoreCompleted(session: Session, groups: seq<Group>, next: Session, r: Result<Session, Cause>)
    requires groups != [] && next == session.(completed := session.completed + Slots(groups[0]))
    requires r.Ok? ==> forall i :: i in r.value.completed <==> i in next.completed || SomeWithin(groups[1..], i)
    ensures r.Ok? ==> forall i :: i in r.value.completed <==> i in session.completed || SomeWithin(groups, i)
  {
    SlotsSize(groups[0]);
    if r.Ok? {
      forall i: nat ensures i in r.value.completed <==> i in session.completed || SomeWithin(groups, i) {
        CoveredByRest(groups, i);
      }
    }
  }

  lemma CoveredByRest(groups: seq<Group>, i: nat)
    requires groups != []
    ensures SomeWithin(groups, i) <==> Within(groups[0], i) || SomeWithin(groups[1..], i)
  {
    if SomeWithin(groups[1..], i) {
      var k :| 0 <= k < |groups[1..]| && Within(groups[1..][k], i);
      assert groups[k + 1] == groups[1..][k];
    }
    if SomeWithin(groups, i) {
      var k :| 0 <= k < |groups| && Within(groups[k], i);
      assert k > 0 ==> groups[1..][k - 1] == groups[k];
    }
  }

  lemma FitsFirst(session: Session, group: Group)
    ensures Fits(session, group) <==>
      && group.attempts != [] && group.start + |group.attempts| <= |session.requests|
      && Aligned(GroupRequests(session.requests, group), group.attempts) && Slots(group) * session.completed == {}
  {
    SlotsSize(group);
    if Slots(group) * session.completed == {} {
      forall i | i in session.completed ensures !Within(group, i) {
        assert i !in Slots(group) * session.completed;
      }
    }
  }

  /** The first group, the others, and the first one against the others. */
  lemma AllBut(session: Session, groups: seq<Group>)
    requires groups != []
    ensures AllFit(session, groups) && AllApart(groups) <==>
      && Fits(session, groups[0]) && AllFit(session, groups[1..]) && AllApart(groups[1..])
      && forall k :: 0 <= k < |groups[1..]| ==> Apart(groups[0], groups[1..][k])
  {
    var rest := groups[1..];
    forall k | 0 <= k < |rest| ensures rest[k] == groups[k + 1] {
    }
    if Fits(session, groups[0]) && AllFit(session, rest) && AllApart(rest)
      && forall k :: 0 <= k < |rest| ==> Apart(groups[0], rest[k]) {
      forall k | 0 <= k < |groups| ensures Fits(session, groups[k]) {
        assert k > 0 ==> groups[k] == rest[k - 1];
      }
      forall j, k | 0 <= j < k < |groups| ensures Apart(groups[j], groups[k]) {
        assert groups[k] == rest[k - 1] && (j > 0 ==> groups[j] == rest[j - 1]);
      }
    }
  }

  /** Behind a first group that fits, the others fit what is left exactly when they fit
      the session and stay apart from it. */
  lemma RestFits(session: Session, groups: seq<Group>, next: Session)
    requires groups != [] && Fits(session, groups[0])
    requires next == session.(completed := session.completed + Slots(groups[0]))
    ensures AllFit(next, groups[1..]) <==>
      AllFit(session, groups[1..]) && forall k :: 0 <= k < |groups[1..]| ==> Apart(groups[0], groups[1..][k])
  {
    var rest := groups[1..];
    forall k | 0 <= k < |rest| ensures Fits(next, rest[k]) <==> Fits(session, rest[k]) && Apart(groups[0], rest[k]) {
      OneFits(session, groups[0], rest[k], next);
    }
  }

  lemma OneFits(session: Session, first: Group, group: Group, next: Session)
    requires Fits(session, first) && next == session.(completed := session.completed + Slots(first))
    ensures Fits(next, group) <==> Fits(session, group) && Apart(first, group)
  {
    SlotsSize(first);
    if Fits(next, group) {
      forall i | Within(first, i) ensures !Within(group, i) {
        assert i in next.completed;
      }
    }
  }
}
