// The overshoot bound of slot mode is tight: for every budget and batch size some
// run attains it.
module StaleAsyncOvershoot {
  import opened Outcomes
  import opened RunHistory
  import opened StudyRun
  import opened StudyRunSafety
  import opened StaleAsync
  import opened StaleAsyncLoop
  import opened StaleAsyncSafety
  import opened StaleAsyncDelivery
  import opened StaleAsyncReports

  /** Asks for as many proposals as it may, and never changes. */
  function Greedy(): (m: RunMethod) {
    Constant().(ask := (s, n) => Ok((Zeros(n), 0)))
  }

  function Zeros(n: nat): (r: seq<Proposal>)
    ensures |r| == n
  {
    seq(n, i => 0)
  }

  function FirstOpen(n: nat, done: set<nat>): (r: nat)
    requires exists i :: 0 <= i < n && i !in done
    ensures r < n && r !in done
    decreases n
  {
    if n - 1 !in done then n - 1 else FirstOpen(n - 1, done)
  }

  predicate HasOpen(session: Session) {
    exists i :: 0 <= i < |session.requests| && i !in session.completed
  }

  function OneSlot(session: Session): (r: Group)
    requires HasOpen(session)
  {
    var i := FirstOpen(|session.requests|, session.completed);
    Group(i, [Success(session.requests[i], 0.0, 0.0, 1)], Ok(()))
  }

  /** Every poll of an unfinished batch completes one slot of it. */
  function SlotBySlot(): (b: Backend) {
    Backend((serial, requests) => Ok(()),
            (n: nat, session: Session) => Ok(if HasOpen(session) then [OneSlot(session)] else []))
  }

  ghost predicate Steady(cfg: Settings, s: Stale) {
    && Accounts(cfg, s) && s.state == 0
    && |s.groups| <= 1
    && (forall k :: 0 <= k < |s.groups| ==> |s.groups[k].attempts| == 1 && s.groups[k].materialized.Ok?)
    && (s.sizes == [] ==> s.active == [] && !s.inRound && s.remaining == cfg.maxEvaluations)
    && (s.sizes != [] && s.remaining > 0 ==> Outstanding(s) == Window(cfg))
    && (s.remaining <= 0 ==> SlotCount(s.assimilated) + Outstanding(s) == cfg.maxEvaluations + Window(cfg) - 1)
    && (forall j, k :: 0 <= j < k < |s.queue| ==> s.queue[j] < s.queue[k])
    && (forall k :: 0 <= k < |s.queue| ==> s.queue[k] < |s.active| && !Finished(s.active[s.queue[k]]))
    && (!s.inRound ==> s.queue == [] && s.groups == [] && forall k :: 0 <= k < |s.active| ==> !Finished(s.active[k]))
  }

  ghost predicate SlotMode(cfg: Settings) {
    !cfg.countCost && !cfg.stopAtCheckpoint && cfg.maxEvaluations > 0 && cfg.batchSize > 0
  }

  lemma OpensGreedily(cfg: Settings, s: Stale, size: nat)
    requires SlotMode(cfg) && Accounts(cfg, s) && s.state == 0
    requires s.remaining > 0 && 1 <= size <= s.remaining && Outstanding(s) + size <= Window(cfg)
    ensures var opening := OpenBatch(Greedy(), SlotBySlot(), cfg, s, size);
      && opening.Go?
      && var next := opening.next;
         && Accounts(cfg, next) && next.state == 0 && next.remaining == s.remaining
         && next.active == s.active + [Session(|s.sizes|, next.active[|s.active|].requests, {})]
         && |next.active[|s.active|].requests| == size
         && Outstanding(next) == Outstanding(s) + size
         && next.groups == s.groups && next.queue == s.queue && next.inRound == s.inRound
         && next.sizes != [] && next.assimilated == s.assimilated
  {
    OpenBalanced(Greedy(), SlotBySlot(), cfg, s, size);
    var next := OpenBatch(Greedy(), SlotBySlot(), cfg, s, size).next;
    var session := next.active[|s.active|];
    OpenSlotsAppend(s.active, [session]);
    assert OpenSlots([session]) == |session.requests| + OpenSlots([]);
  }

  lemma UnfinishedHasOpen(session: Session)
    requires SessionWithin(session) && !Finished(session)
    ensures HasOpen(session)
  {
    if !HasOpen(session) {
      assert forall i :: 0 <= i < |session.requests| ==> i in session.completed;
      assert session.completed == AllSlots(|session.requests|);
      AllSlotsSize(|session.requests|);
    }
  }

  lemma {:induction false} AllSlotsSize(n: nat)
    ensures |AllSlots(n)| == n
  {
    if n > 0 {
      AllSlotsSize(n - 1);
    }
  }

  lemma PollsSteadily(cfg: Settings, s: Stale)
    requires SlotMode(cfg) && Steady(cfg, s) && s.inRound && s.queue != [] && s.groups == []
    ensures var polled := PollNext(SlotBySlot(), cfg, s);
      polled.Go? && Steady(cfg, polled.next) && |polled.next.groups| == 1
      && polled.next.assimilated == s.assimilated
  {
    var position := s.queue[0];
    var session := s.active[position];
    assert SessionWithin(session);
    UnfinishedHasOpen(session);
    var group := OneSlot(session);
    OneSlotAccepted(session);
    PollBalanced(SlotBySlot(), cfg, s);
    var next := PollNext(SlotBySlot(), cfg, s).next;
    AcceptedSlots(session, [group]);
    assert PendingSlots([group]) == 1 + PendingSlots([]);
    OpenSlotsUpdate(s.active, position, next.active[position]);
    forall k | 0 <= k < |next.queue| ensures !Finished(next.active[next.queue[k]]) {
      assert next.queue[k] == s.queue[k + 1] && s.queue[0] < s.queue[k + 1];
    }
  }

  lemma OneSlotAccepted(session: Session)
    requires HasOpen(session)
    ensures Accepted(session, [OneSlot(session)]).Ok?
  {
    var group := OneSlot(session);
    assert GroupRequests(session.requests, group)[0] == session.requests[group.start];
    SlotsSize(group);
    assert Slots(group) * session.completed == {};
    assert [group][1..] == [];
  }

  lemma TellsSteadily(cfg: Settings, s: Stale) returns (told: Stale)
    requires SlotMode(cfg) && Steady(cfg, s) && s.groups != []
    ensures AssimilateGroup(Greedy(), cfg, s) == Go(told)
    ensures Accounts(cfg, told) && told.state == 0 && Outstanding(told) + 1 == Outstanding(s)
    ensures told.remaining == s.remaining - 1 && told.groups == [] && told.inRound == s.inRound
    ensures told.active == s.active && told.queue == s.queue && told.sizes == s.sizes
    ensures SlotCount(told.assimilated) == SlotCount(s.assimilated) + 1
  {
    ToldBalanced(Greedy(), cfg, s);
    told := AssimilateGroup(Greedy(), cfg, s).next;
    assert told.assimilated[..|s.assimilated|] == s.assimilated;
    assert s.groups[1..] == [];
  }

  /** What follows a told group of one slot. */
  lemma AfterTold(cfg: Settings, s: Stale, told: Stale)
    requires s.remaining <= cfg.maxEvaluations && s.groups != [] && s.owner < |s.told|
    requires AssimilateGroup(Greedy(), cfg, s) == Go(told) && |s.groups[0].attempts| == 1
    requires told.remaining <= cfg.maxEvaluations
    ensures AssimilateNext(Greedy(), SlotBySlot(), cfg, s) ==
      if told.remaining > 0 then OpenBatch(Greedy(), SlotBySlot(), cfg, told, 1) else Go(told)
  {
  }

  /** Without a refill: the window stays full until the budget is counted out. */
  lemma SteadyWithout(cfg: Settings, s: Stale, told: Stale)
    requires SlotMode(cfg) && Steady(cfg, s) && s.inRound && s.groups != []
    requires Accounts(cfg, told) && told.state == 0 && Outstanding(told) + 1 == Outstanding(s)
    requires told.remaining == s.remaining - 1 <= 0 && told.groups == [] && told.inRound
    requires told.active == s.active && told.queue == s.queue && told.sizes == s.sizes
    requires SlotCount(told.assimilated) == SlotCount(s.assimilated) + 1
    ensures Steady(cfg, told)
  {
  }

  lemma SteadyWith(cfg: Settings, s: Stale, told: Stale, next: Stale)
    requires SlotMode(cfg) && Steady(cfg, s) && s.inRound && s.groups != []
    requires Outstanding(told) + 1 == Outstanding(s)
    requires told.remaining == s.remaining - 1 > 0 && told.groups == [] && told.inRound
    requires told.active == s.active && told.queue == s.queue && told.sizes == s.sizes
    requires Accounts(cfg, next) && next.state == 0 && next.remaining == told.remaining
    requires |next.active| == |told.active| + 1 && next.active[..|told.active|] == told.active
    requires Outstanding(next) == Outstanding(told) + 1
    requires next.groups == [] && next.queue == told.queue && next.inRound && next.sizes != []
    ensures Steady(cfg, next)
  {
    assert forall k :: 0 <= k < |s.active| ==> next.active[k] == s.active[k];
  }

  lemma AssimilatesSteadily(cfg: Settings, s: Stale) returns (next: Stale)
    requires SlotMode(cfg) && Steady(cfg, s) && s.inRound && s.groups != []
    ensures AssimilateNext(Greedy(), SlotBySlot(), cfg, s) == Go(next)
    ensures Steady(cfg, next) && next.groups == [] && next.inRound
    ensures SlotCount(next.assimilated) == SlotCount(s.assimilated) + 1
  {
    var told := TellsSteadily(cfg, s);
    AfterTold(cfg, s, told);
    next := told;
    if told.remaining > 0 {
      OpensGreedily(cfg, told, 1);
      next := OpenBatch(Greedy(), SlotBySlot(), cfg, told, 1).next;
      SteadyWith(cfg, s, told, next);
    } else {
      SteadyWithout(cfg, s, told);
    }
  }

  lemma StartsSteadily(cfg: Settings, s: Stale)
    requires SlotMode(cfg) && Accounts(cfg, s) && s.state == 0 && s.groups == [] && s.active != []
    requires s.sizes != [] && (s.remaining > 0 ==> Outstanding(s) == Window(cfg))
    requires s.remaining <= 0 ==> SlotCount(s.assimilated) + Outstanding(s) == cfg.maxEvaluations + Window(cfg) - 1
    requires forall k :: 0 <= k < |s.active| ==> !Finished(s.active[k])
    ensures Steady(cfg, StartRound(s)) && StartRound(s).queue != []
  {
    StartRoundBalanced(cfg, s);
  }

  lemma HeadSteadily(cfg: Settings, s: Stale)
    requires SlotMode(cfg) && Steady(cfg, s) && !s.inRound && !Exits(Greedy(), s)
    ensures var next := AtHead(Greedy(), SlotBySlot(), cfg, s);
      && next.Go? && Steady(cfg, next.next) && next.next.inRound && next.next.queue != []
      && next.next.groups == [] && next.next.assimilated == s.assimilated
  {
    if s.active != [] {
      StartsSteadily(cfg, s);
    } else {
      OpensGreedily(cfg, s, Window(cfg));
      var next := OpenBatch(Greedy(), SlotBySlot(), cfg, s, Window(cfg)).next;
      StartsSteadily(cfg, next);
    }
  }

  lemma EndsSteadily(cfg: Settings, s: Stale)
    requires SlotMode(cfg) && Steady(cfg, s) && s.inRound && s.queue == [] && s.groups == []
    ensures Steady(cfg, EndRound(s))
  {
    EndRoundBalanced(cfg, s);
    OpenSlotsUnfinished(s.active);
    UnfinishedComeFrom(s.active);
    var kept := Unfinished(s.active);
    forall k | 0 <= k < |kept| ensures !Finished(kept[k]) {
      assert kept[k] in kept;
    }
  }

  /** Slots that are still to complete. */
  function Left(cfg: Settings, s: Stale): (r: int) {
    cfg.maxEvaluations + Window(cfg) - 1 - SlotCount(s.assimilated) - PendingSlots(s.groups)
  }

  lemma LeftNonNegative(cfg: Settings, s: Stale)
    requires SlotMode(cfg) && Steady(cfg, s)
    ensures Left(cfg, s) >= 0
  {
    OpenSlotsNonNegative(s.active);
  }

  function Rank(s: Stale): (r: nat) {
    if !s.inRound then 1 else if s.queue == [] then 2 else 0
  }

  function Measure(cfg: Settings, s: Stale): (r: (nat, nat, nat)) {
    (if Left(cfg, s) < 0 then 0 else Left(cfg, s), |s.groups|, Rank(s))
  }

  lemma NextSteady(cfg: Settings, s: Stale) returns (next: Stale)
    requires SlotMode(cfg) && Steady(cfg, s) && !Exits(Greedy(), s)
    ensures InBounds(cfg, s) && StaleStep(Greedy(), SlotBySlot(), cfg, s) == Go(next) && Steady(cfg, next)
    ensures Before(Measure(cfg, next), Measure(cfg, s))
  {
    LeftNonNegative(cfg, s);
    if s.groups != [] {
      next := AssimilatesSteadily(cfg, s);
      assert PendingSlots(s.groups) == 1 + PendingSlots(s.groups[1..]);
    } else if s.inRound && s.queue != [] {
      PollsSteadily(cfg, s);
      next := PollNext(SlotBySlot(), cfg, s).next;
      LeftNonNegative(cfg, next);
      assert PendingSlots(next.groups) == 1 + PendingSlots(next.groups[1..]);
    } else if s.inRound {
      EndsSteadily(cfg, s);
      next := EndRound(s);
    } else {
      HeadSteadily(cfg, s);
      next := AtHead(Greedy(), SlotBySlot(), cfg, s).next;
    }
  }

  lemma SteadyDescends(cfg: Settings, x: Stale)
    requires SlotMode(cfg) && Steady(cfg, x) && !Exits(Greedy(), x)
    ensures TakesOf(cfg)(x)
    ensures var t := ActionOf(Greedy(), SlotBySlot(), cfg)(x);
      t.Go? && Steady(cfg, t.next) && Before(Measure(cfg, t.next), Measure(cfg, x))
  {
    var next := NextSteady(cfg, x);
  }

  /** From every steady state the run goes on to its normal end. */
  lemma Finishes(cfg: Settings, s: Stale) returns (fuel: nat)
    requires SlotMode(cfg) && Steady(cfg, s)
    ensures var (ending, last) := StaleFrom(Greedy(), SlotBySlot(), cfg, s, fuel);
      ending.None? && Steady(cfg, last) && Exits(Greedy(), last)
  {
    var good, exit := (x: Stale) => Steady(cfg, x), (x: Stale) => Exits(Greedy(), x);
    var takes, step, measure := TakesOf(cfg), ActionOf(Greedy(), SlotBySlot(), cfg), (x: Stale) => Measure(cfg, x);
    forall x: Stale | good(x) && !exit(x)
      ensures takes(x) && step(x).Go? && good(step(x).next) && Before(measure(step(x).next), measure(x))
    {
      SteadyDescends(cfg, x);
    }
    fuel := StepsFinish(takes, step, good, exit, measure, s);
  }

  /** For every budget and batch size a run of slot mode ends normally with the
      largest number of slots that the bound allows. */
  lemma OvershootAttained(maxEvaluations: nat, batchSize: nat) returns (fuel: nat)
    requires maxEvaluations > 0 && batchSize > 0
    ensures var cfg := Settings(maxEvaluations, batchSize, false, false, true);
      var (ending, last) := StaleFrom(Greedy(), SlotBySlot(), cfg, StaleBegin(Greedy(), cfg, 0), fuel);
      && ending.None? && Exits(Greedy(), last)
      && SlotCount(last.assimilated) == maxEvaluations + Window(cfg) - 1
  {
    var cfg := Settings(maxEvaluations, batchSize, false, false, true);
    BeginBalanced(Greedy(), cfg, 0);
    fuel := Finishes(cfg, StaleBegin(Greedy(), cfg, 0));
  }
}
