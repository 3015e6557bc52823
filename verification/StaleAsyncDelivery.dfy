// Every request that a stale-asynchronous run submits is told exactly once before
// the run exits normally, in whatever order the groups complete.
module StaleAsyncDelivery {
  import opened Outcomes
  import opened RunHistory
  import opened StudyRun
  import opened StaleAsync
  import opened StaleAsyncSafety

  function PendingIndices(groups: seq<Group>): (r: set<nat>) {
    if groups == [] then {} else Slots(groups[0]) + PendingIndices(groups[1..])
  }

  ghost predicate GroupsApart(groups: seq<Group>) {
    groups == [] || (Slots(groups[0]) !! PendingIndices(groups[1..]) && GroupsApart(groups[1..]))
  }

  /** Requests of batch `t` that have completed but are not told yet. */
  function Pending(s: Stale, t: nat): (r: set<nat>) {
    if s.owner == t then PendingIndices(s.groups) else {}
  }

  function AllSlots(n: nat): (r: set<nat>)
    ensures forall i :: i in r <==> 0 <= i < n
  {
    if n == 0 then {} else AllSlots(n - 1) + {n - 1}
  }

  /** Batch `t` is open at this position, or nowhere and then complete. */
  ghost predicate Reached(s: Stale, t: nat, done: set<nat>)
    requires t < |s.sizes|
  {
    && (forall k :: 0 <= k < |s.active| && s.active[k].serial == t ==> s.active[k].completed == done)
    && ((forall k :: 0 <= k < |s.active| ==> s.active[k].serial != t) ==> done == AllSlots(s.sizes[t]))
  }

  /** What has completed of batch `t` has been told once, or is about to be. */
  ghost predicate ToldOnce(s: Stale, t: nat)
    requires t < |s.sizes| && |s.told| == |s.sizes|
  {
    && NoDuplicates(s.told[t])
    && Elements(s.told[t]) !! Pending(s, t)
    && Reached(s, t, Elements(s.told[t]) + Pending(s, t))
  }

  ghost predicate InOrder(active: seq<Session>) {
    forall j, k :: 0 <= j < k < |active| ==> active[j].serial < active[k].serial
  }

  ghost predicate Numbered(s: Stale) {
    && |s.told| == |s.sizes| && InOrder(s.active)
    && (forall k :: 0 <= k < |s.active| ==>
          s.active[k].serial < |s.sizes| && |s.active[k].requests| == s.sizes[s.active[k].serial])
    && (s.groups != [] ==> exists k :: 0 <= k < |s.active| && s.active[k].serial == s.owner)
  }

  ghost predicate Tells(s: Stale) {
    && Numbered(s) && GroupsApart(s.groups)
    && forall t :: 0 <= t < |s.sizes| ==> ToldOnce(s, t)
  }

  lemma BeginTells(m: RunMethod, cfg: Settings, initial: State)
    ensures Tells(StaleBegin(m, cfg, initial))
  {
  }

  lemma OpenTells(m: RunMethod, b: Backend, cfg: Settings, s: Stale, size: nat)
    requires Tells(s) && s.remaining <= cfg.maxEvaluations
    ensures OpenBatch(m, b, cfg, s, size).Go? ==> Tells(OpenBatch(m, b, cfg, s, size).next)
  {
    if OpenBatch(m, b, cfg, s, size).Go? {
      OpenedTells(s, OpenBatch(m, b, cfg, s, size).next);
    }
  }

  /** One more batch, with nothing completed or told. */
  lemma OpenedTells(s: Stale, next: Stale)
    requires Tells(s) && |next.active| == |s.active| + 1 && next.active[..|s.active|] == s.active
    requires var session := next.active[|s.active|];
      && session.serial == |s.sizes| && session.completed == {}
      && next.sizes == s.sizes + [|session.requests|] && next.told == s.told + [[]]
    requires next.groups == s.groups && next.owner == s.owner
    ensures Tells(next)
  {
    assert forall k :: 0 <= k < |s.active| ==> next.active[k] == s.active[k];
    assert forall t :: 0 <= t < |s.sizes| ==> next.sizes[t] == s.sizes[t] && next.told[t] == s.told[t];
    if s.groups != [] {
      var k :| 0 <= k < |s.active| && s.active[k].serial == s.owner;
      assert next.active[k].serial == next.owner;
    }
    forall t | 0 <= t < |next.sizes| ensures ToldOnce(next, t) {
      if t < |s.sizes| {
        assert ToldOnce(s, t);
        OpenReached(s, next, t);
      } else {
        assert next.active[|s.active|].serial == t;
      }
    }
  }

  lemma OpenReached(s: Stale, next: Stale, t: nat)
    requires t < |s.sizes| <= |next.sizes| && next.sizes[t] == s.sizes[t]
    requires |next.active| == |s.active| + 1 && next.active[..|s.active|] == s.active
    requires next.active[|s.active|].serial != t
    ensures forall done :: Reached(s, t, done) ==> Reached(next, t, done)
  {
    assert forall k :: 0 <= k < |s.active| ==> next.active[k] == s.active[k];
  }

  lemma {:induction false} AcceptedIndices(session: Session, groups: seq<Group>)
    requires Accepted(session, groups).Ok?
    ensures Accepted(session, groups).value ==
      session.(completed := session.completed + PendingIndices(groups))
    ensures session.completed !! PendingIndices(groups) && GroupsApart(groups)
    decreases groups
  {
    if groups == [] {
      assert session.completed + {} == session.completed;
    } else {
      var slots := Slots(groups[0]);
      assert forall i :: i in session.completed && i in slots ==> i in slots * session.completed;
      AcceptedIndices(session.(completed := session.completed + slots), groups[1..]);
      assert session.completed + slots + PendingIndices(groups[1..]) == session.completed + PendingIndices(groups);
    }
  }

  lemma PollTells(b: Backend, cfg: Settings, s: Stale)
    requires Tells(s) && InBounds(cfg, s) && s.queue != [] && s.groups == []
    ensures PollNext(b, cfg, s).Go? ==> Tells(PollNext(b, cfg, s).next)
  {
    if PollNext(b, cfg, s).Go? {
      var next, position := PollNext(b, cfg, s).next, s.queue[0];
      AcceptedIndices(s.active[position], next.groups);
      assert next.active[position].serial == next.owner;
      forall t | 0 <= t < |next.sizes| ensures ToldOnce(next, t) {
        assert ToldOnce(s, t);
        assert Pending(s, t) == {};
        PollReached(s, next, position, t);
      }
    }
  }

  lemma PollReached(s: Stale, next: Stale, position: nat, t: nat)
    requires Numbered(s) && t < |s.sizes| && position < |s.active|
    requires next.sizes == s.sizes && next.told == s.told && next.owner == s.active[position].serial
    requires var session := s.active[position];
      && session.completed !! PendingIndices(next.groups)
      && next.active == s.active[position := session.(completed := session.completed + PendingIndices(next.groups))]
    requires ToldOnce(s, t) && Pending(s, t) == {}
    ensures ToldOnce(next, t)
  {
    assert Elements(s.told[t]) + Pending(s, t) == Elements(s.told[t]);
    assert forall k :: 0 <= k < |s.active| ==> next.active[k].serial == s.active[k].serial;
    if t == next.owner {
      assert s.active[position].completed == Elements(s.told[t]);
    } else {
      assert Elements(next.told[t]) + Pending(next, t) == Elements(s.told[t]);
    }
  }

  lemma {:induction false} AppendTold(told: seq<nat>, group: Group)
    requires NoDuplicates(told) && Elements(told) !! Slots(group)
    ensures NoDuplicates(told + Indices(group))
    ensures Elements(told + Indices(group)) == Elements(told) + Slots(group)
  {
    var all := told + Indices(group);
    forall i, j | 0 <= i < j < |all| ensures all[i] != all[j] {
      if i < |told| <= j {
        assert all[i] in Elements(told) && all[j] in Slots(group);
      }
    }
    forall x ensures x in Elements(all) <==> x in Elements(told) + Slots(group) {
      assert x in all <==> x in told || x in Indices(group);
    }
  }

  lemma RecordedTells(s: Stale)
    requires Tells(s) && s.groups != [] && s.owner < |s.told|
    ensures Tells(RecordedGroup(s))
  {
    var next := RecordedGroup(s);
    var slots, rest := Slots(s.groups[0]), PendingIndices(s.groups[1..]);
    forall t | 0 <= t < |next.sizes| ensures ToldOnce(next, t) {
      assert ToldOnce(s, t);
      if t == s.owner {
        AppendTold(s.told[t], s.groups[0]);
        assert Elements(next.told[t]) + rest == Elements(s.told[t]) + (slots + rest);
      }
    }
  }

  lemma AssimilateTells(m: RunMethod, b: Backend, cfg: Settings, s: Stale)
    requires Tells(s) && InBounds(cfg, s) && s.groups != []
    ensures AssimilateNext(m, b, cfg, s).Go? ==> Tells(AssimilateNext(m, b, cfg, s).next)
  {
    var charged := ChargedGroup(cfg, s);
    if charged.Ok? {
      assert Tells(charged.value) by {
        forall t | 0 <= t < |s.sizes| ensures ToldOnce(charged.value, t) {
          assert ToldOnce(s, t);
        }
      }
      RecordedTells(charged.value);
      var told := AssimilateGroup(m, cfg, s);
      if told.Go? {
        SameTells(RecordedGroup(charged.value), told.next);
        if told.next.remaining <= cfg.maxEvaluations && MayOpen(m, told.next) {
          OpenTells(m, b, cfg, told.next, Min(|s.groups[0].attempts|, told.next.remaining));
        }
      }
    }
  }

  /** Only what batches are open and told matters. */
  lemma SameTells(s: Stale, next: Stale)
    requires Tells(s)
    requires next.active == s.active && next.groups == s.groups && next.owner == s.owner
    requires next.sizes == s.sizes && next.told == s.told
    ensures Tells(next)
  {
    forall t | 0 <= t < |next.sizes| ensures ToldOnce(next, t) {
      assert ToldOnce(s, t);
    }
  }

  lemma {:induction false} UnfinishedKeepOrder(active: seq<Session>)
    requires InOrder(active)
    ensures InOrder(Unfinished(active))
  {
    if active != [] {
      UnfinishedKeepOrder(active[1..]);
      UnfinishedComeFrom(active[1..]);
      var kept, rest := Unfinished(active), Unfinished(active[1..]);
      forall k | 0 <= k < |rest| ensures active[0].serial < rest[k].serial {
        assert rest[k] in active[1..];
        var i :| 0 <= i < |active[1..]| && active[1..][i] == rest[k];
        assert active[i + 1] == rest[k];
      }
      if Finished(active[0]) {
        assert kept == rest;
      } else {
        assert kept == [active[0]] + rest;
        forall j, k | 0 <= j < k < |kept| ensures kept[j].serial < kept[k].serial {
          assert kept[k] == rest[k - 1] && (j > 0 ==> kept[j] == rest[j - 1]);
        }
      }
    }
  }

  lemma EndRoundTells(s: Stale)
    requires Tells(s) && s.groups == [] && SessionsWithin(s.active)
    ensures Tells(EndRound(s))
  {
    var next := EndRound(s);
    UnfinishedKeepOrder(s.active);
    UnfinishedComeFrom(s.active);
    forall k | 0 <= k < |next.active|
      ensures next.active[k].serial < |s.sizes| && |next.active[k].requests| == s.sizes[next.active[k].serial]
    {
      assert next.active[k] in s.active;
    }
    forall t | 0 <= t < |next.sizes| ensures ToldOnce(next, t) {
      assert ToldOnce(s, t);
      EndRoundReached(s, t);
    }
  }

  lemma EndRoundReached(s: Stale, t: nat)
    requires Numbered(s) && SessionsWithin(s.active) && t < |s.sizes|
    ensures forall done :: Reached(s, t, done) ==> Reached(EndRound(s), t, done)
  {
    var kept := Unfinished(s.active);
    UnfinishedComeFrom(s.active);
    forall done | Reached(s, t, done) ensures Reached(EndRound(s), t, done) {
      forall k | 0 <= k < |kept| && kept[k].serial == t ensures kept[k].completed == done {
        assert kept[k] in s.active;
      }
      if forall k :: 0 <= k < |kept| ==> kept[k].serial != t {
        if k :| 0 <= k < |s.active| && s.active[k].serial == t {
          assert s.active[k] in s.active;
          assert s.active[k] !in kept;
          FinishedHasAll(s.active[k]);
          assert SessionWithin(s.active[k]);
          assert done == AllSlots(s.sizes[t]);
        }
      }
    }
  }

  lemma FinishedHasAll(session: Session)
    ensures SessionWithin(session) && Finished(session) ==> session.completed == AllSlots(|session.requests|)
  {
    if SessionWithin(session) && Finished(session) {
      BoundedElements(session.completed, |session.requests|);
    }
  }

  lemma StepTells(m: RunMethod, b: Backend, cfg: Settings, s: Stale)
    requires Accounts(cfg, s) && Tells(s)
    ensures StaleStep(m, b, cfg, s).Go? ==> Tells(StaleStep(m, b, cfg, s).next)
  {
    if s.groups != [] {
      AssimilateTells(m, b, cfg, s);
    } else if s.inRound && s.queue != [] {
      PollTells(b, cfg, s);
    } else if s.inRound {
      EndRoundTells(s);
    } else if s.active != [] {
      SameTells(s, StartRound(s));
    } else if MayOpen(m, s) {
      var size := Min(cfg.batchSize, s.remaining);
      OpenTells(m, b, cfg, s, size);
      var opening := OpenBatch(m, b, cfg, s, size);
      if opening.Go? {
        SameTells(opening.next, StartRound(opening.next));
      }
    }
  }
}
