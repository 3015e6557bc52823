// What the stale-asynchronous run keeps over every completion order: slots and
// costs are accounted for, every submitted request is told once, and in slot mode
// the budget is overshot by less than one batch.
module StaleAsyncSafety {
  import opened Outcomes
  import opened RunHistory
  import opened StudyRun
  import opened StudyRunSafety
  import opened StaleAsync

  // ----- totals -----

  function OpenSlots(active: seq<Session>): (r: int) {
    if active == [] then 0 else |active[0].requests| - |active[0].completed| + OpenSlots(active[1..])
  }

  function PendingSlots(groups: seq<Group>): (r: nat) {
    if groups == [] then 0 else |groups[0].attempts| + PendingSlots(groups[1..])
  }

  /** Slots that were submitted and are not assimilated yet. */
  function Outstanding(s: Stale): (r: int) {
    OpenSlots(s.active) + PendingSlots(s.groups)
  }

  function SlotCount(batches: seq<seq<Attempt>>): (r: nat) {
    if batches == [] then 0 else SlotCount(batches[..|batches| - 1]) + |batches[|batches| - 1]|
  }

  function CostCount(batches: seq<seq<Attempt>>): (r: nat) {
    if batches == [] then 0 else CostCount(batches[..|batches| - 1]) + Cost(batches[|batches| - 1])
  }

  /** What the assimilated groups have taken from the ledger: their slots when they
      were submitted, and what they reported beyond that. */
  function Spent(batches: seq<seq<Attempt>>): (r: nat)
    ensures r >= SlotCount(batches) && r >= CostCount(batches)
  {
    if batches == [] then 0
    else
      var last := batches[|batches| - 1];
      Spent(batches[..|batches| - 1]) + if Cost(last) > |last| then Cost(last) else |last|
  }

  function Submitted(sizes: seq<nat>): (r: nat) {
    if sizes == [] then 0 else Submitted(sizes[..|sizes| - 1]) + sizes[|sizes| - 1]
  }

  lemma {:induction false} OpenSlotsAppend(a: seq<Session>, b: seq<Session>)
    ensures OpenSlots(a + b) == OpenSlots(a) + OpenSlots(b)
  {
    if a == [] {
      assert a + b == b;
    } else {
      assert (a + b)[1..] == a[1..] + b;
      OpenSlotsAppend(a[1..], b);
    }
  }

  lemma {:induction false} OpenSlotsUpdate(active: seq<Session>, k: nat, x: Session)
    requires k < |active| && |x.requests| == |active[k].requests|
    ensures OpenSlots(active[k := x]) == OpenSlots(active) + |active[k].completed| - |x.completed|
  {
    if k == 0 {
      assert active[0 := x][1..] == active[1..];
    } else {
      assert active[k := x][1..] == active[1..][k - 1 := x];
      OpenSlotsUpdate(active[1..], k - 1, x);
    }
  }

  /** Finished sessions leave nothing open behind. */
  lemma {:induction false} OpenSlotsUnfinished(active: seq<Session>)
    ensures OpenSlots(Unfinished(active)) == OpenSlots(active)
  {
    if active != [] {
      OpenSlotsUnfinished(active[1..]);
      OpenSlotsAppend(if Finished(active[0]) then [] else [active[0]], Unfinished(active[1..]));
      assert OpenSlots([active[0]]) == |active[0].requests| - |active[0].completed| + OpenSlots([]);
    }
  }

  // ----- accounting -----

  /** The largest number of slots that are ever in flight at once. */
  function Window(cfg: Settings): (r: nat) {
    Min(cfg.batchSize, cfg.maxEvaluations)
  }

  ghost predicate SessionWithin(session: Session) {
    session.requests != [] && forall i :: i in session.completed ==> i < |session.requests|
  }

  ghost predicate SessionsWithin(active: seq<Session>) {
    forall k :: 0 <= k < |active| ==> SessionWithin(active[k])
  }

  ghost predicate GroupsWithin(groups: seq<Group>) {
    forall k :: 0 <= k < |groups| ==> groups[k].attempts != []
  }

  ghost predicate Balanced(cfg: Settings, s: Stale) {
    && InBounds(cfg, s) && SessionsWithin(s.active) && GroupsWithin(s.groups)
    && |s.told| == |s.sizes| && (forall k :: 0 <= k < |s.active| ==> s.active[k].serial < |s.sizes|)
    && Outstanding(s) <= Window(cfg)
    && Submitted(s.sizes) == SlotCount(s.assimilated) + Outstanding(s)
    && (if cfg.countCost
        then 0 <= s.remaining && cfg.maxEvaluations - s.remaining == Spent(s.assimilated) + Outstanding(s)
        else cfg.maxEvaluations - s.remaining == SlotCount(s.assimilated))
    && (!cfg.countCost && s.sizes != [] ==> Submitted(s.sizes) <= cfg.maxEvaluations + Window(cfg) - 1)
  }

  /** The history is that of the assimilated groups. */
  ghost predicate Chronicled(cfg: Settings, h: History, assimilated: seq<seq<Attempt>>) {
    && Cost(h.successes) + Cost(h.failures) == CostCount(assimilated)
    && |h.successes| + |h.failures| == SlotCount(assimilated)
    && h.evaluationCount == if cfg.countCost then CostCount(assimilated) else SlotCount(assimilated)
  }

  ghost predicate Accounts(cfg: Settings, s: Stale) {
    Balanced(cfg, s) && Chronicled(cfg, s.history, s.assimilated)
  }

  lemma {:induction false} OpenSlotsNonNegative(active: seq<Session>)
    requires SessionsWithin(active)
    ensures OpenSlots(active) >= 0
    ensures OpenSlots(active) == 0 ==> forall k :: 0 <= k < |active| ==> Finished(active[k])
  {
    if active != [] {
      assert SessionWithin(active[0]);
      BoundedElements(active[0].completed, |active[0].requests|);
      forall k | 0 <= k < |active[1..]| ensures SessionWithin(active[1..][k]) {
        assert SessionWithin(active[k + 1]);
      }
      OpenSlotsNonNegative(active[1..]);
      forall k | OpenSlots(active) == 0 && 0 <= k < |active| ensures Finished(active[k]) {
        assert k > 0 ==> active[k] == active[1..][k - 1];
      }
    }
  }

  lemma BeginBalanced(m: RunMethod, cfg: Settings, initial: State)
    ensures Balanced(cfg, StaleBegin(m, cfg, initial))
    ensures Chronicled(cfg, EMPTY_HISTORY, [])
  {
  }

  /** A batch of at most the free slots is opened. */
  lemma OpenBalanced(m: RunMethod, b: Backend, cfg: Settings, s: Stale, size: nat)
    requires Balanced(cfg, s) && s.remaining > 0 && size <= s.remaining
    requires Outstanding(s) + size <= Window(cfg)
    ensures match OpenBatch(m, b, cfg, s, size)
      case Go(next) => Balanced(cfg, next) && next.assimilated == s.assimilated && next.history == s.history
                       && Outstanding(next) > 0
      case Halt(_, _) => true
  {
    if OpenBatch(m, b, cfg, s, size).Go? {
      var next, session := OpenChanges(m, b, cfg, s, size);
      OpenedBalanced(cfg, s, next, session);
    }
  }

  /** What opening a batch changes. */
  lemma OpenChanges(m: RunMethod, b: Backend, cfg: Settings, s: Stale, size: nat) returns (next: Stale, session: Session)
    requires s.remaining <= cfg.maxEvaluations && OpenBatch(m, b, cfg, s, size).Go?
    ensures next == OpenBatch(m, b, cfg, s, size).next && Opened(cfg, s, next, session)
    ensures |session.requests| <= size
  {
    next := OpenBatch(m, b, cfg, s, size).next;
    session := next.active[|s.active|];
  }

  ghost predicate Opened(cfg: Settings, s: Stale, next: Stale, session: Session) {
    var n := |session.requests|;
    && session == Session(|s.sizes|, session.requests, {}) && n > 0
    && (cfg.countCost ==> n <= s.remaining)
    && next == s.(state := next.state, visits := next.visits, segmentUnsafe := next.segmentUnsafe,
                  remaining := if cfg.countCost then s.remaining - n else s.remaining,
                  active := s.active + [session], sizes := s.sizes + [n], told := s.told + [[]])
  }

  lemma OpenedBalanced(cfg: Settings, s: Stale, next: Stale, session: Session)
    requires Balanced(cfg, s) && s.remaining > 0 && Opened(cfg, s, next, session)
    requires Outstanding(s) + |session.requests| <= Window(cfg)
    ensures Balanced(cfg, next) && Outstanding(next) > 0
  {
    OpenSlotsAppend(s.active, [session]);
    assert OpenSlots([session]) == |session.requests| + OpenSlots([]);
    SubmittedAppend(s.sizes, |session.requests|);
    SessionsAppend(s.active, session, |s.sizes|);
    OpenSlotsNonNegative(s.active);
  }

  lemma SubmittedAppend(sizes: seq<nat>, n: nat)
    ensures Submitted(sizes + [n]) == Submitted(sizes) + n
  {
    assert (sizes + [n])[..|sizes|] == sizes;
  }

  lemma SessionsAppend(active: seq<Session>, session: Session, serials: nat)
    requires SessionsWithin(active) && SessionWithin(session) && session.serial == serials
    requires forall k :: 0 <= k < |active| ==> active[k].serial < serials
    ensures SessionsWithin(active + [session])
    ensures forall k :: 0 <= k < |active + [session]| ==> (active + [session])[k].serial < serials + 1
  {
  }

  lemma {:induction false} AcceptedSlots(session: Session, groups: seq<Group>)
    requires SessionWithin(session) && Accepted(session, groups).Ok?
    ensures var after := Accepted(session, groups).value;
      && SessionWithin(after) && GroupsWithin(groups)
      && after.requests == session.requests && after.serial == session.serial
      && |after.completed| == |session.completed| + PendingSlots(groups)
    decreases groups
  {
    if groups != [] {
      var group := groups[0];
      SlotsSize(group);
      var next := session.(completed := session.completed + Slots(group));
      assert forall i :: i in session.completed && i in Slots(group) ==> i in Slots(group) * session.completed;
      assert SessionWithin(next);
      AcceptedSlots(next, groups[1..]);
      forall k | 0 <= k < |groups| ensures groups[k].attempts != [] {
        assert k > 0 ==> groups[k] == groups[1..][k - 1];
      }
    }
  }

  lemma SlotsSize(group: Group)
    ensures |Slots(group)| == |group.attempts|
    ensures forall i :: i in Slots(group) <==> group.start <= i < group.start + |group.attempts|
  {
    NoDuplicatesSize(Indices(group));
    forall i | group.start <= i < group.start + |group.attempts| ensures i in Slots(group) {
      assert Indices(group)[i - group.start] == i;
    }
  }

  lemma PollBalanced(b: Backend, cfg: Settings, s: Stale)
    requires Balanced(cfg, s) && s.queue != [] && s.groups == []
    ensures match PollNext(b, cfg, s)
      case Go(next) => Balanced(cfg, next) && next.assimilated == s.assimilated && next.history == s.history
      case Halt(_, _) => true
  {
    if PollNext(b, cfg, s).Go? {
      var next, position := PollNext(b, cfg, s).next, s.queue[0];
      AcceptedSlots(s.active[position], next.groups);
      OpenSlotsUpdate(s.active, position, next.active[position]);
    }
  }

  lemma {:induction false} UnfinishedComeFrom(active: seq<Session>)
    ensures forall x :: x in Unfinished(active) <==> x in active && !Finished(x)
  {
    if active != [] {
      UnfinishedComeFrom(active[1..]);
      assert active == [active[0]] + active[1..];
    }
  }

  lemma EndRoundBalanced(cfg: Settings, s: Stale)
    requires Balanced(cfg, s) && s.queue == [] && s.groups == []
    ensures Balanced(cfg, EndRound(s))
  {
    OpenSlotsUnfinished(s.active);
    UnfinishedComeFrom(s.active);
    var kept := Unfinished(s.active);
    forall k | 0 <= k < |kept| ensures SessionWithin(kept[k]) && kept[k].serial < |s.sizes| {
      assert kept[k] in s.active;
      var j :| 0 <= j < |s.active| && s.active[j] == kept[k];
      assert SessionWithin(s.active[j]);
    }
  }

  lemma StartRoundBalanced(cfg: Settings, s: Stale)
    requires Balanced(cfg, s) && s.groups == []
    ensures Balanced(cfg, StartRound(s))
  {
  }

  /** The charge of a group: afterwards the history is ahead of the record. */
  lemma ChargedAhead(cfg: Settings, s: Stale)
    requires Balanced(cfg, s) && Chronicled(cfg, s.history, s.assimilated) && s.groups != []
    requires ChargedGroup(cfg, s).Ok?
    ensures var charged := ChargedGroup(cfg, s).value;
      && Chronicled(cfg, charged.history, s.assimilated + [s.groups[0].attempts])
      && (cfg.countCost ==>
            0 <= charged.remaining
            && cfg.maxEvaluations - charged.remaining ==
               Spent(s.assimilated + [s.groups[0].attempts]) + Outstanding(s) - |s.groups[0].attempts|)
      && (!cfg.countCost ==>
            cfg.maxEvaluations - charged.remaining == SlotCount(s.assimilated + [s.groups[0].attempts]))
  {
    var group := s.groups[0];
    assert (s.assimilated + [group.attempts])[..|s.assimilated|] == s.assimilated;
    CostSplits(group.attempts);
    CostAppend(s.history.successes, Successes(group.attempts));
    CostAppend(s.history.failures, Failures(group.attempts));
  }

  lemma RecordedBalanced(cfg: Settings, s: Stale)
    requires Balanced(cfg, s) && Chronicled(cfg, s.history, s.assimilated) && s.groups != []
    requires ChargedGroup(cfg, s).Ok?
    ensures var next := RecordedGroup(ChargedGroup(cfg, s).value);
      && Balanced(cfg, next) && Chronicled(cfg, next.history, next.assimilated)
      && Outstanding(next) + |s.groups[0].attempts| == Outstanding(s)
  {
    ChargedAhead(cfg, s);
    var next := RecordedGroup(ChargedGroup(cfg, s).value);
    assert next.assimilated[..|s.assimilated|] == s.assimilated;
    forall k | 0 <= k < |next.groups| ensures next.groups[k].attempts != [] {
      assert next.groups[k] == s.groups[k + 1];
    }
  }

  lemma ToldBalanced(m: RunMethod, cfg: Settings, s: Stale)
    requires Accounts(cfg, s) && s.groups != [] && AssimilateGroup(m, cfg, s).Go?
    ensures var next := AssimilateGroup(m, cfg, s).next;
      Accounts(cfg, next) && Outstanding(next) + |s.groups[0].attempts| == Outstanding(s)
  {
    RecordedBalanced(cfg, s);
    var told := m.tellAttempts(s.state, s.groups[0].attempts);
    StaleToldBalanced(m, cfg, RecordedGroup(ChargedGroup(cfg, s).value), told.value);
  }

  /** A told state touches neither the budget nor what is in flight. */
  lemma StaleToldBalanced(m: RunMethod, cfg: Settings, s: Stale, next: State)
    requires Accounts(cfg, s) && StaleTold(m, cfg, s, next).Go?
    ensures var after := StaleTold(m, cfg, s, next).next; Accounts(cfg, after) && Outstanding(after) == Outstanding(s)
  {
    StaleToldChanges(m, cfg, s, next);
    SameAccounts(cfg, s, StaleTold(m, cfg, s, next).next);
  }

  ghost predicate SameLedger(s: Stale, t: Stale) {
    t == s.(state := t.state, heads := t.heads, visits := t.visits, snapshot := t.snapshot, segmentUnsafe := t.segmentUnsafe)
  }

  lemma StaleToldChanges(m: RunMethod, cfg: Settings, s: Stale, next: State)
    requires StaleTold(m, cfg, s, next).Go?
    ensures SameLedger(s, StaleTold(m, cfg, s, next).next)
  {
  }

  lemma SameAccounts(cfg: Settings, s: Stale, t: Stale)
    requires Accounts(cfg, s) && SameLedger(s, t)
    ensures Accounts(cfg, t) && Outstanding(t) == Outstanding(s)
  {
  }

  lemma AssimilateBalanced(m: RunMethod, b: Backend, cfg: Settings, s: Stale)
    requires Accounts(cfg, s) && s.groups != []
    ensures AssimilateNext(m, b, cfg, s).Go? ==> Accounts(cfg, AssimilateNext(m, b, cfg, s).next)
  {
    var told := AssimilateGroup(m, cfg, s);
    if told.Go? {
      ToldBalanced(m, cfg, s);
      if MayOpen(m, told.next) {
        OpenBalanced(m, b, cfg, told.next, Min(|s.groups[0].attempts|, told.next.remaining));
      }
    }
  }

  lemma HeadBalanced(m: RunMethod, b: Backend, cfg: Settings, s: Stale)
    requires Balanced(cfg, s) && Chronicled(cfg, s.history, s.assimilated) && s.groups == []
    ensures match AtHead(m, b, cfg, s)
      case Go(next) => Balanced(cfg, next) && Chronicled(cfg, next.history, next.assimilated)
      case Halt(_, _) => true
  {
    if s.active != [] {
      StartRoundBalanced(cfg, s);
    } else if MayOpen(m, s) {
      var size := Min(cfg.batchSize, s.remaining);
      OpenBalanced(m, b, cfg, s, size);
      var opening := OpenBatch(m, b, cfg, s, size);
      if opening.Go? {
        StartRoundBalanced(cfg, opening.next);
      }
    }
  }

  lemma StepAccounts(m: RunMethod, b: Backend, cfg: Settings, s: Stale)
    requires Accounts(cfg, s)
    ensures StaleStep(m, b, cfg, s).Go? ==> Accounts(cfg, StaleStep(m, b, cfg, s).next)
  {
    if s.groups != [] {
      AssimilateBalanced(m, b, cfg, s);
    } else if s.inRound && s.queue != [] {
      PollBalanced(b, cfg, s);
    } else if s.inRound {
      EndRoundBalanced(cfg, s);
    } else {
      HeadBalanced(m, b, cfg, s);
    }
  }
}
