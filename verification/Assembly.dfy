// Assembly of completion groups into one ordered batch, whatever order they
// arrive in (src/variopt/evaluators/async_evaluator/artifacts.py,
// src/variopt/evaluators/async_evaluator/contracts.py, src/variopt/study/common.py).
module Assembly {
  import opened Outcomes

  /** Stands for any outcome. */
  type Outcome = nat

  /** A contiguous, non-empty slice of a batch. */
  datatype Group = Group(start: nat, outcomes: seq<Outcome>)

  type Buffer = seq<Option<Outcome>>

  predicate Covers(g: Group, i: int) {
    g.start <= i < g.start + |g.outcomes|
  }

  function Empty(n: nat): (r: Buffer) {
    seq(n, _ => None)
  }

  /** `None` when the group exceeds the batch or meets a filled slot. */
  function Stored(buffer: Buffer, g: Group): (r: Option<Buffer>)
    ensures r.Some? ==> |r.value| == |buffer|
  {
    if g.start + |g.outcomes| > |buffer| then None
    else if exists i :: g.start <= i < g.start + |g.outcomes| && buffer[i].Some? then None
    else Some(Spliced(buffer, g))
  }

  function Spliced(buffer: Buffer, g: Group): (r: Buffer)
    requires g.start + |g.outcomes| <= |buffer|
    ensures |r| == |buffer|
  {
    buffer[..g.start] + Wrapped(g.outcomes) + buffer[g.start + |g.outcomes|..]
  }

  function Wrapped(outcomes: seq<Outcome>): (r: Buffer)
    ensures |r| == |outcomes| && forall k :: 0 <= k < |r| ==> r[k] == Some(outcomes[k])
  {
    seq(|outcomes|, k requires 0 <= k < |outcomes| => Some(outcomes[k]))
  }

  function StoredAll(buffer: Buffer, groups: seq<Group>): (r: Option<Buffer>)
    ensures r.Some? ==> |r.value| == |buffer|
    decreases groups
  {
    if groups == [] then Some(buffer)
    else match Stored(buffer, groups[0])
      case None => None
      case Some(next) => StoredAll(next, groups[1..])
  }

  function FilledCount(buffer: Buffer): (r: nat)
    ensures r <= |buffer|
  {
    if buffer == [] then 0 else (if buffer[0].Some? then 1 else 0) + FilledCount(buffer[1..])
  }

  lemma {:induction false} FilledAppend(a: Buffer, b: Buffer)
    ensures FilledCount(a + b) == FilledCount(a) + FilledCount(b)
  {
    if a == [] {
      assert a + b == b;
    } else {
      assert (a + b)[1..] == a[1..] + b;
      FilledAppend(a[1..], b);
    }
  }

  lemma {:induction false} AllOrNothing(buffer: Buffer)
    ensures (forall i :: 0 <= i < |buffer| ==> buffer[i].Some?) ==> FilledCount(buffer) == |buffer|
    ensures (forall i :: 0 <= i < |buffer| ==> buffer[i].None?) ==> FilledCount(buffer) == 0
    ensures FilledCount(buffer) == |buffer| ==> forall i :: 0 <= i < |buffer| ==> buffer[i].Some?
  {
    if buffer != [] {
      AllOrNothing(buffer[1..]);
    }
  }

  /** A stored group fills exactly its own slots. */
  lemma StoringCounts(buffer: Buffer, g: Group)
    requires Stored(buffer, g).Some?
    ensures FilledCount(Stored(buffer, g).value) == FilledCount(buffer) + |g.outcomes|
    ensures forall i :: 0 <= i < |buffer| ==>
      Stored(buffer, g).value[i] == if Covers(g, i) then Some(g.outcomes[i - g.start]) else buffer[i]
  {
    SplicedValues(buffer, g);
    SplicedFills(buffer, g);
  }

  lemma SplicedValues(buffer: Buffer, g: Group)
    requires g.start + |g.outcomes| <= |buffer|
    ensures forall i :: 0 <= i < |buffer| ==>
      Spliced(buffer, g)[i] == if Covers(g, i) then Some(g.outcomes[i - g.start]) else buffer[i]
  {
  }

  lemma SplicedFills(buffer: Buffer, g: Group)
    requires g.start + |g.outcomes| <= |buffer|
    requires forall i :: g.start <= i < g.start + |g.outcomes| ==> buffer[i].None?
    ensures FilledCount(Spliced(buffer, g)) == FilledCount(buffer) + |g.outcomes|
  {
    var stop := g.start + |g.outcomes|;
    Rejoined(buffer, g.start, stop);
    MiddleFilled(buffer[..g.start], buffer[g.start..stop], g.outcomes, buffer[stop..]);
  }

  lemma Rejoined(buffer: Buffer, start: nat, stop: nat)
    requires start <= stop <= |buffer|
    ensures buffer[..start] + buffer[start..stop] + buffer[stop..] == buffer
  {
  }

  lemma MiddleFilled(before: Buffer, open: Buffer, outcomes: seq<Outcome>, after: Buffer)
    requires |open| == |outcomes| && forall i :: 0 <= i < |open| ==> open[i].None?
    ensures FilledCount(before + Wrapped(outcomes) + after) == FilledCount(before + open + after) + |outcomes|
  {
    SplicedCount(before, open, after);
    SplicedCount(before, Wrapped(outcomes), after);
    AllOrNothing(open);
    AllOrNothing(Wrapped(outcomes));
  }

  lemma SplicedCount(before: Buffer, middle: Buffer, after: Buffer)
    ensures FilledCount(before + middle + after) == FilledCount(before) + FilledCount(middle) + FilledCount(after)
  {
    FilledAppend(before + middle, after);
    FilledAppend(before, middle);
  }

  // ----- any sequence of groups -----

  /** How many of the groups cover a slot. */
  function Cover(groups: seq<Group>, i: int): (r: nat) {
    if groups == [] then 0 else (if Covers(groups[0], i) then 1 else 0) + Cover(groups[1..], i)
  }

  predicate InBounds(groups: seq<Group>, n: nat) {
    forall k :: 0 <= k < |groups| ==> groups[k].start + |groups[k].outcomes| <= n
  }

  /** The groups can be stored, on top of what is filled already. */
  ghost predicate Fit(buffer: Buffer, groups: seq<Group>) {
    && InBounds(groups, |buffer|)
    && forall i :: 0 <= i < |buffer| ==> Cover(groups, i) + (if buffer[i].Some? then 1 else 0) <= 1
  }

  /** A sequence of groups is accepted exactly when all are in bounds and no slot is
      filled twice; each slot then holds what the group that covers it says. */
  lemma {:induction false} StoredAllExactly(buffer: Buffer, groups: seq<Group>)
    ensures StoredAll(buffer, groups).Some? <==> Fit(buffer, groups)
    ensures StoredAll(buffer, groups).Some? ==>
      forall i, k :: 0 <= i < |buffer| && 0 <= k < |groups| && Covers(groups[k], i) ==>
        StoredAll(buffer, groups).value[i] == Some(groups[k].outcomes[i - groups[k].start])
    ensures StoredAll(buffer, groups).Some? ==> forall i :: 0 <= i < |buffer| && Cover(groups, i) == 0 ==>
      StoredAll(buffer, groups).value[i] == buffer[i]
    decreases groups
  {
    if groups != [] {
      var g, rest := groups[0], groups[1..];
      if Stored(buffer, g).None? {
        FirstRejected(buffer, groups);
      } else {
        var next := Stored(buffer, g).value;
        StoringCounts(buffer, g);
        StoredAllExactly(next, rest);
        FitStep(buffer, groups, next);
        forall i, k | 0 <= i < |buffer| && 0 <= k < |groups| && Covers(groups[k], i) && StoredAll(next, rest).Some?
          ensures StoredAll(next, rest).value[i] == Some(groups[k].outcomes[i - groups[k].start])
        {
          if k > 0 {
            assert groups[k] == rest[k - 1];
          } else {
            CoverMember(groups, i, 0);
          }
        }
      }
    }
  }

  lemma {:induction false} CoverMember(groups: seq<Group>, i: int, k: nat)
    requires k < |groups| && Covers(groups[k], i)
    ensures Cover(groups, i) >= 1
  {
    if k > 0 {
      CoverMember(groups[1..], i, k - 1);
    }
  }

  lemma FirstRejected(buffer: Buffer, groups: seq<Group>)
    requires groups != [] && Stored(buffer, groups[0]).None?
    ensures !Fit(buffer, groups)
  {
    var g := groups[0];
    if g.start + |g.outcomes| <= |buffer| {
      var i :| g.start <= i < g.start + |g.outcomes| && buffer[i].Some?;
      assert Covers(g, i) && Cover(groups, i) >= 1;
    }
  }

  lemma FitStep(buffer: Buffer, groups: seq<Group>, next: Buffer)
    requires groups != [] && Stored(buffer, groups[0]) == Some(next)
    ensures Fit(buffer, groups) <==> Fit(next, groups[1..])
  {
    var g, rest := groups[0], groups[1..];
    StoringCounts(buffer, g);
    assert InBounds(groups, |buffer|) <==> InBounds(rest, |buffer|) by {
      assert forall k :: 0 <= k < |rest| ==> rest[k] == groups[k + 1];
      assert forall k :: 1 <= k < |groups| ==> groups[k] == rest[k - 1];
    }
    forall i | 0 <= i < |buffer|
      ensures Cover(groups, i) + (if buffer[i].Some? then 1 else 0) == Cover(rest, i) + (if next[i].Some? then 1 else 0)
    {
    }
  }

  // ----- arrival order -----

  lemma {:induction false} CoverRemove(groups: seq<Group>, k: nat, i: int)
    requires k < |groups|
    ensures Cover(groups, i) == (if Covers(groups[k], i) then 1 else 0) + Cover(groups[..k] + groups[k + 1..], i)
  {
    var without := groups[..k] + groups[k + 1..];
    if k == 0 {
      assert without == groups[1..];
    } else {
      CoverRemove(groups[1..], k - 1, i);
      assert without[1..] == groups[1..][..k - 1] + groups[1..][k..];
      assert without[0] == groups[0];
    }
  }

  /** How often a slot is covered does not depend on the order of the groups. */
  lemma {:induction false} CoverPermutes(groups: seq<Group>, other: seq<Group>, i: int)
    requires multiset(groups) == multiset(other)
    ensures Cover(groups, i) == Cover(other, i)
    decreases groups
  {
    if groups == [] {
      assert |other| == |multiset(other)| == 0;
    } else {
      var k := FoundIn(groups, other);
      CoverPermutes(groups[1..], other[..k] + other[k + 1..], i);
      CoverRemove(other, k, i);
    }
  }

  /** The first group is somewhere in the other order, and can be taken out of both. */
  lemma FoundIn(groups: seq<Group>, other: seq<Group>) returns (k: nat)
    requires groups != [] && multiset(groups) == multiset(other)
    ensures k < |other| && other[k] == groups[0]
    ensures multiset(groups[1..]) == multiset(other[..k] + other[k + 1..])
  {
    assert groups[0] in multiset(other);
    assert groups[0] in other;
    k :| 0 <= k < |other| && other[k] == groups[0];
    assert other == other[..k] + [other[k]] + other[k + 1..];
    assert groups == [groups[0]] + groups[1..];
    assert multiset(other[..k] + other[k + 1..]) == multiset(other) - multiset{other[k]};
    assert multiset(groups[1..]) == multiset(groups) - multiset{groups[0]};
  }

  /** Groups that arrive in another order are accepted or rejected alike, and fill
      the batch alike. */
  lemma ArrivalOrderIrrelevant(n: nat, groups: seq<Group>, other: seq<Group>)
    requires multiset(groups) == multiset(other)
    ensures StoredAll(Empty(n), groups) == StoredAll(Empty(n), other)
  {
    StoredAllExactly(Empty(n), groups);
    StoredAllExactly(Empty(n), other);
    forall i ensures Cover(groups, i) == Cover(other, i) {
      CoverPermutes(groups, other, i);
    }
    SameBounds(n, groups, other);
    SameBounds(n, other, groups);
    if StoredAll(Empty(n), groups).Some? {
      var a, b := StoredAll(Empty(n), groups).value, StoredAll(Empty(n), other).value;
      forall i | 0 <= i < n ensures a[i] == b[i] {
        if Cover(groups, i) > 0 {
          var k := Coverer(groups, i);
          assert groups[k] in multiset(other);
          assert groups[k] in other;
          var j :| 0 <= j < |other| && other[j] == groups[k];
          assert Covers(other[j], i);
        }
      }
      assert a == b;
    }
  }

  lemma SameBounds(n: nat, groups: seq<Group>, other: seq<Group>)
    requires multiset(groups) == multiset(other)
    ensures InBounds(groups, n) ==> InBounds(other, n)
  {
    forall k | InBounds(groups, n) && 0 <= k < |other| ensures other[k].start + |other[k].outcomes| <= n {
      assert other[k] in multiset(groups);
      assert other[k] in groups;
    }
  }

  lemma {:induction false} Coverer(groups: seq<Group>, i: int) returns (k: nat)
    requires Cover(groups, i) > 0
    ensures k < |groups| && Covers(groups[k], i)
  {
    if Covers(groups[0], i) {
      k := 0;
    } else {
      var j := Coverer(groups[1..], i);
      k := j + 1;
    }
  }

  // ----- the algorithm -----

  /** Writes a group into the buffer in place, slot by slot. After a rejection only
      empty slots of the group can have been filled. */
  method StoreCompletionGroup(buffer: array<Option<Outcome>>, g: Group) returns (covered: Option<nat>)
    modifies buffer
    ensures covered.Some? <==> Stored(old(buffer[..]), g).Some?
    ensures covered.Some? ==> covered.value == |g.outcomes| && Some(buffer[..]) == Stored(old(buffer[..]), g)
    ensures covered.None? ==> forall i :: 0 <= i < buffer.Length ==>
      buffer[i] == old(buffer[i]) || (Covers(g, i) && old(buffer[i]).None?)
  {
    if g.start + |g.outcomes| > buffer.Length {
      return None;
    }
    for offset := 0 to |g.outcomes|
      invariant forall i :: 0 <= i < buffer.Length ==>
        buffer[i] == if g.start <= i < g.start + offset then Some(g.outcomes[i - g.start]) else old(buffer[i])
      invariant forall i :: g.start <= i < g.start + offset ==> old(buffer[i]).None?
    {
      if buffer[g.start + offset].Some? {
        assert old(buffer[..])[g.start + offset].Some?;
        return None;
      }
      buffer[g.start + offset] := Some(g.outcomes[offset]);
    }
    assert Stored(old(buffer[..]), g).Some?;
    StoringCounts(old(buffer[..]), g);
    assert buffer[..] == Stored(old(buffer[..]), g).value;
    return Some(|g.outcomes|);
  }

  datatype Collected = Ordered(outcomes: seq<Outcome>) | Cancelled | StillWaiting

  /** What one call of `wait` gives: groups, or an exception. */
  type Wait = Option<seq<Group>>

  /** The groups of the waits before the batch is complete; with the wait that
      raised, if any, cut off. */
  function Flattened(waits: seq<Wait>): (r: seq<Group>) {
    if waits == [] || waits[0].None? then [] else waits[0].value + Flattened(waits[1..])
  }

  /** The first `used` waits gave groups that fit together and leave slots open. */
  ghost predicate OpenAfter(waits: seq<Wait>, used: nat, n: nat) {
    && used <= |waits| && (forall k :: 0 <= k < used ==> waits[k].Some?)
    && var stored := StoredAll(Empty(n), Flattened(waits[..used]));
       stored.Some? && FilledCount(stored.value) < n
  }

  /** The groups of the first waits, and of no fewer, are the whole batch. */
  ghost predicate OrderedAfter(waits: seq<Wait>, used: nat, n: nat, outcomes: seq<Outcome>) {
    && used <= |waits| && (forall k :: 0 <= k < used ==> waits[k].Some?) && |outcomes| == n
    && (used > 0 ==> OpenAfter(waits, used - 1, n))
    && StoredAll(Empty(n), Flattened(waits[..used])) == Some(Wrapped(outcomes))
  }

  /** While slots were open, a wait raised, or brought a group that does not fit. */
  ghost predicate FailsAt(waits: seq<Wait>, used: nat, n: nat) {
    && used < |waits| && OpenAfter(waits, used, n)
    && (waits[used].None? || StoredAll(Empty(n), Flattened(waits[..used + 1])).None?)
  }

  /** The collection loop over a schedule of waits: the outcomes in batch order, or
      the session cancelled after an exception. The loop's counter is the number of
      filled slots throughout. */
  method Evaluate(waits: seq<Wait>, requestCount: nat) returns (r: Collected)
    ensures r.Ordered? ==> exists used :: OrderedAfter(waits, used, requestCount, r.outcomes)
    ensures r.StillWaiting? ==> OpenAfter(waits, |waits|, requestCount)
    ensures r.Cancelled? ==> exists used :: FailsAt(waits, used, requestCount)
  {
    var buffer := new Option<Outcome>[requestCount](_ => None);
    var completedCount := 0;
    var used := 0;
    assert buffer[..] == Empty(requestCount);
    AllOrNothing(Empty(requestCount));
    while completedCount < requestCount
      invariant fresh(buffer) && buffer.Length == requestCount && 0 <= used <= |waits|
      invariant forall k :: 0 <= k < used ==> waits[k].Some?
      invariant StoredAll(Empty(requestCount), Flattened(waits[..used])) == Some(buffer[..])
      invariant completedCount == FilledCount(buffer[..])
      invariant used > 0 ==> OpenAfter(waits, used - 1, requestCount)
      decreases |waits| - used
    {
      assert OpenAfter(waits, used, requestCount);
      if used == |waits| {
        return StillWaiting;
      }
      if waits[used].None? {
        assert FailsAt(waits, used, requestCount);
        return Cancelled;
      }
      ghost var before := Flattened(waits[..used]);
      FlattenedSnoc(waits, used);
      var newly := StoreGroups(buffer, waits[used].value, Empty(requestCount), before);
      if newly.None? {
        assert FailsAt(waits, used, requestCount);
        return Cancelled;
      }
      completedCount := completedCount + newly.value;
      used := used + 1;
    }
    AllOrNothing(buffer[..]);
    var outcomes := seq(requestCount, i requires 0 <= i < requestCount reads buffer =>
      if buffer[i].Some? then buffer[i].value else 0);
    assert Wrapped(outcomes) == buffer[..];
    assert OrderedAfter(waits, used, requestCount, outcomes);
    return Ordered(outcomes);
  }

  lemma {:induction false} FlattenedSnoc(waits: seq<Wait>, n: nat)
    requires n < |waits| && forall k :: 0 <= k <= n ==> waits[k].Some?
    ensures Flattened(waits[..n + 1]) == Flattened(waits[..n]) + waits[n].value
  {
    if n == 0 {
      assert waits[..1][1..] == [];
    } else {
      assert waits[..n + 1][1..] == waits[1..][..n] && waits[..n][1..] == waits[1..][..n - 1];
      FlattenedSnoc(waits[1..], n - 1);
    }
  }

  lemma {:induction false} StoredAllAppend(buffer: Buffer, a: seq<Group>, b: seq<Group>)
    ensures StoredAll(buffer, a + b) ==
      if StoredAll(buffer, a).None? then None else StoredAll(StoredAll(buffer, a).value, b)
    decreases a
  {
    if a == [] {
      assert a + b == b;
    } else {
      assert (a + b)[1..] == a[1..] + b;
      if Stored(buffer, a[0]).Some? {
        StoredAllAppend(Stored(buffer, a[0]).value, a[1..], b);
      }
    }
  }

  /** The groups of one wait; the count of slots newly filled. */
  method StoreGroups(buffer: array<Option<Outcome>>, groups: seq<Group>, ghost start: Buffer, ghost before: seq<Group>)
    returns (covered: Option<nat>)
    requires StoredAll(start, before) == Some(buffer[..])
    modifies buffer
    ensures covered.Some? ==> StoredAll(start, before + groups) == Some(buffer[..])
    ensures covered.Some? ==> covered.value == FilledCount(buffer[..]) - FilledCount(old(buffer[..]))
    ensures covered.None? ==> StoredAll(start, before + groups).None?
  {
    StoredAllAppend(start, before, groups);
    var count := 0;
    for k := 0 to |groups|
      invariant StoredAll(old(buffer[..]), groups) == StoredAll(buffer[..], groups[k..])
      invariant count == FilledCount(buffer[..]) - FilledCount(old(buffer[..])) >= 0
    {
      assert groups[k..][1..] == groups[k + 1..];
      ghost var now := buffer[..];
      var newly := StoreCompletionGroup(buffer, groups[k]);
      if newly.None? {
        return None;
      }
      StoringCounts(now, groups[k]);
      count := count + newly.value;
    }
    return Some(count);
  }
}
