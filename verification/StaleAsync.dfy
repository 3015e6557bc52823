// The stale-asynchronous run: several submitted batches are polled round by round,
// every completed group is told at once, and freed slots are refilled
// (src/variopt/study/stale_async.py).
module StaleAsync {
  import opened Outcomes
  import opened RunHistory
  import opened StudyRun

  /** A completed slice of one batch; `materialized` is the feedback boundary. */
  datatype Group = Group(start: nat, attempts: seq<Attempt>, materialized: Result<(), Cause>)

  /** An open batch; `serial` numbers the batches of a run. */
  datatype Session = Session(serial: nat, requests: seq<Request>, completed: set<nat>)

  /** The evaluator: anything, and different at every call. */
  datatype Backend = Backend(
    open: (nat, seq<Request>) -> Result<(), Cause>,
    poll: (nat, Session) -> Result<seq<Group>, Cause>)

  // ----- one session -----

  function Indices(group: Group): (r: seq<nat>)
    ensures |r| == |group.attempts|
    ensures forall i :: 0 <= i < |r| ==> r[i] == group.start + i
  {
    seq(|group.attempts|, i requires 0 <= i < |group.attempts| => group.start + i)
  }

  function Slots(group: Group): (r: set<nat>) {
    Elements(Indices(group))
  }

  function GroupRequests(requests: seq<Request>, group: Group): (r: seq<Request>)
    requires group.start + |group.attempts| <= |requests|
  {
    requests[group.start..group.start + |group.attempts|]
  }

  /** Groups are checked in the order of the poll: bounds, alignment, overlap. */
  function Accepted(session: Session, groups: seq<Group>): (r: Result<Session, Cause>)
    decreases groups
  {
    if groups == [] then Ok(session)
    else
      var group := groups[0];
      if group.attempts == [] || group.start + |group.attempts| > |session.requests| then Err(MisalignedAttempts)
      else if !Aligned(GroupRequests(session.requests, group), group.attempts) then Err(MisalignedAttempts)
      else if Slots(group) * session.completed != {} then Err(MisalignedAttempts)
      else Accepted(session.(completed := session.completed + Slots(group)), groups[1..])
  }

  predicate Finished(session: Session) {
    |session.completed| == |session.requests|
  }

  function Unfinished(sessions: seq<Session>): (r: seq<Session>) {
    if sessions == [] then []
    else (if Finished(sessions[0]) then [] else [sessions[0]]) + Unfinished(sessions[1..])
  }

  // ----- the run, one action at a time -----

  /** The variables of the loop. During a round `queue` holds the positions of the
      sessions still to be polled, and `groups` what the poll of session `owner` gave
      and is not assimilated yet. The rest records what happened: the sizes of the
      batches opened, the indices told per batch, the attempts assimilated group by
      group, the loop heads with a told state, and every state in turn. */
  datatype Stale = Stale(
    state: State, history: History, remaining: int, snapshot: Option<Snapshot>, segmentUnsafe: bool,
    active: seq<Session>, inRound: bool, queue: seq<nat>, groups: seq<Group>, owner: nat, polls: nat,
    sizes: seq<nat>, told: seq<seq<nat>>, assimilated: seq<seq<Attempt>>, heads: seq<Head>, visits: seq<Visit>)

  /** A state of the run method, as it came out of an ask or, `told`, out of a tell; the
      initial one counts as told. */
  datatype Visit = Visit(state: State, told: bool)

  datatype Transition = Go(next: Stale) | Halt(ending: Ending, last: Stale)

  function StaleBegin(m: RunMethod, cfg: Settings, initial: State): (s: Stale) {
    Stale(initial, EMPTY_HISTORY, cfg.maxEvaluations,
          if cfg.stopAtCheckpoint && m.isSafe(initial) then Some(TakeSnapshot(EMPTY_HISTORY, initial)) else None,
          false, [], false, [], [], 0, 0, [], [], [], [Head(initial, EMPTY_HISTORY)], [Visit(initial, true)])
  }

  /** Any exception of the run; its count is read off the budget. */
  function StaleFailed(cfg: Settings, s: Stale, cause: Cause): (r: Transition)
    requires s.remaining <= cfg.maxEvaluations
  {
    Halt(FailedAt(cfg, s.history, cfg.maxEvaluations - s.remaining, s.state, s.snapshot, cause), s)
  }

  /** Asks for a batch, charges its slots in cost mode, and submits it; with what is
      left of the budget. */
  function Opening(m: RunMethod, b: Backend, cfg: Settings, state: State, size: nat, remaining: int, serial: nat)
    : (r: (Result<(Session, State), Cause>, int))
    ensures r.1 <= remaining
  {
    match AskedRequests(m, state, size, true)
    case Err(cause) => (Err(cause), remaining)
    case Ok((requests, next)) =>
      if cfg.countCost && |requests| > remaining then (Err(Cause.BudgetExhausted), remaining)
      else
        var left := if cfg.countCost then remaining - |requests| else remaining;
        match b.open(serial, requests)
        case Err(cause) => (Err(cause), left)
        case Ok(_) => (Ok((Session(serial, requests, {}), next)), left)
  }

  function OpenBatch(m: RunMethod, b: Backend, cfg: Settings, s: Stale, size: nat): (r: Transition)
    requires s.remaining <= cfg.maxEvaluations
  {
    var (opening, left) := Opening(m, b, cfg, s.state, size, s.remaining, |s.sizes|);
    var charged := s.(remaining := left);
    match opening
    case Err(cause) => StaleFailed(cfg, charged, cause)
    case Ok((session, next)) =>
      Go(charged.(
        state := next, visits := s.visits + [Visit(next, false)],
        segmentUnsafe := s.segmentUnsafe || (cfg.stopAtCheckpoint && !m.isSafe(next)),
        active := s.active + [session],
        sizes := s.sizes + [|session.requests|],
        told := s.told + [[]]))
  }

  predicate MayOpen(m: RunMethod, s: Stale) {
    s.remaining > 0 && !m.isExhausted(s.state)
  }

  function StartRound(s: Stale): (r: Stale) {
    s.(inRound := true, queue := seq(|s.active|, i requires 0 <= i < |s.active| => i))
  }

  /** The head of the outer loop. */
  function AtHead(m: RunMethod, b: Backend, cfg: Settings, s: Stale): (r: Transition)
    requires s.remaining <= cfg.maxEvaluations
  {
    if s.active != [] then Go(StartRound(s))
    else if !MayOpen(m, s) then Halt(ClosedAt(m, cfg, s.history, s.state, s.snapshot), s)
    else match OpenBatch(m, b, cfg, s, Min(cfg.batchSize, s.remaining))
      case Halt(ending, last) => Halt(ending, last)
      case Go(next) => Go(StartRound(next))
  }

  function PollNext(b: Backend, cfg: Settings, s: Stale): (r: Transition)
    requires s.remaining <= cfg.maxEvaluations && s.queue != [] && s.queue[0] < |s.active|
  {
    var position := s.queue[0];
    var session, polled := s.active[position], s.(polls := s.polls + 1, queue := s.queue[1..]);
    match b.poll(s.polls, session)
    case Err(cause) => StaleFailed(cfg, polled, cause)
    case Ok(groups) =>
      match Accepted(session, groups)
      case Err(cause) => StaleFailed(cfg, polled, cause)
      case Ok(after) =>
        Go(polled.(active := s.active[position := after], groups := groups, owner := session.serial))
  }

  /** What a completed group costs beyond the slots charged when it was submitted. */
  function Unmetered(attempts: seq<Attempt>): (r: nat) {
    if Cost(attempts) > |attempts| then Cost(attempts) - |attempts| else 0
  }

  /** The charge is taken and the group enters the history before it is told. */
  function ChargedGroup(cfg: Settings, s: Stale): (r: Result<Stale, Cause>)
    requires s.groups != []
  {
    var group := s.groups[0];
    var charge: nat := if cfg.countCost then Unmetered(group.attempts) else |group.attempts|;
    if group.materialized.Err? then Err(group.materialized.error)
    else if cfg.countCost && charge > s.remaining then Err(Cause.BudgetExhausted)
    else
      var count := if cfg.countCost then Cost(group.attempts) else |group.attempts|;
      Ok(s.(remaining := s.remaining - charge, history := Append(s.history, group.attempts, count)))
  }

  function RecordedGroup(s: Stale): (r: Stale)
    requires s.groups != [] && s.owner < |s.told|
  {
    s.(groups := s.groups[1..],
       told := s.told[s.owner := s.told[s.owner] + Indices(s.groups[0])],
       assimilated := s.assimilated + [s.groups[0].attempts])
  }

  function AssimilateGroup(m: RunMethod, cfg: Settings, s: Stale): (r: Transition)
    requires s.remaining <= cfg.maxEvaluations && s.groups != [] && s.owner < |s.told|
  {
    match ChargedGroup(cfg, s)
    case Err(cause) => StaleFailed(cfg, s, cause)
    case Ok(charged) =>
      match m.tellAttempts(s.state, s.groups[0].attempts)
      case Err(cause) => StaleFailed(cfg, charged, cause)
      case Ok(next) => StaleTold(m, cfg, RecordedGroup(charged), next)
  }

  /** The told state is safe behind an unsafe segment: the run stops there.
      Otherwise it goes on. */
  function StaleTold(m: RunMethod, cfg: Settings, s: Stale, next: State): (r: Transition)
  {
    var after := s.(state := next, heads := s.heads + [Head(next, s.history)],
                    visits := s.visits + [Visit(next, true)]);
    if !cfg.stopAtCheckpoint then Go(after)
    else if m.isSafe(next) then
      var cut := after.(snapshot := Some(TakeSnapshot(s.history, next)));
      if s.segmentUnsafe then Halt(ReturnedOr(Project(cut.snapshot.value, s.history), next), cut) else Go(cut)
    else Go(after.(segmentUnsafe := true))
  }

  function AssimilateNext(m: RunMethod, b: Backend, cfg: Settings, s: Stale): (r: Transition)
    requires s.remaining <= cfg.maxEvaluations && s.groups != [] && s.owner < |s.told|
  {
    match AssimilateGroup(m, cfg, s)
    case Halt(ending, last) => Halt(ending, last)
    case Go(next) =>
      if next.remaining <= cfg.maxEvaluations && MayOpen(m, next)
      then OpenBatch(m, b, cfg, next, Min(|s.groups[0].attempts|, next.remaining))
      else Go(next)
  }

  function EndRound(s: Stale): (r: Stale) {
    s.(inRound := false, active := Unfinished(s.active))
  }

  /** What the invariant of StaleAsyncSafety says about indices used here. */
  predicate InBounds(cfg: Settings, s: Stale) {
    && s.remaining <= cfg.maxEvaluations
    && (forall k :: 0 <= k < |s.queue| ==> s.queue[k] < |s.active|)
    && (s.groups != [] ==> s.owner < |s.told|)
  }

  function StaleStep(m: RunMethod, b: Backend, cfg: Settings, s: Stale): (r: Transition)
    requires InBounds(cfg, s)
  {
    if s.groups != [] then AssimilateNext(m, b, cfg, s)
    else if s.inRound && s.queue != [] then PollNext(b, cfg, s)
    else if s.inRound then Go(EndRound(s))
    else AtHead(m, b, cfg, s)
  }

  /** Any machine of actions: how it ends, if `fuel` actions suffice, and where. */
  function StepsFrom(takes: Stale -> bool, step: Stale -> Transition, s: Stale, fuel: nat): (r: (Option<Ending>, Stale))
    decreases fuel
  {
    if fuel == 0 || !takes(s) then (None, s)
    else match step(s)
      case Halt(ending, last) => (Some(ending), last)
      case Go(next) => StepsFrom(takes, step, next, fuel - 1)
  }

  function TakesOf(cfg: Settings): (r: Stale -> bool) {
    (s: Stale) => InBounds(cfg, s)
  }

  function ActionOf(m: RunMethod, b: Backend, cfg: Settings): (r: Stale -> Transition) {
    (s: Stale) => if InBounds(cfg, s) then StaleStep(m, b, cfg, s) else Go(s)
  }

  /** The run from `s` on, as far as `fuel` actions reach; polling may go on for
      ever when nothing completes. */
  function StaleFrom(m: RunMethod, b: Backend, cfg: Settings, s: Stale, fuel: nat): (r: (Option<Ending>, Stale)) {
    StepsFrom(TakesOf(cfg), ActionOf(m, b, cfg), s, fuel)
  }
}
