// The allocator as it runs: sort the requests by preference, raise the water
// level from one preference to the next, and split the last partial round.
module MaxMinAllocation {
  import opened Outcomes
  import opened MaxMinAllocator

  // ----- requests that still want more than a level -----

  /** The requests before `c` that prefer more than `level`, in index order. */
  function OpenBefore(prefs: seq<int>, level: int, c: nat): (r: seq<int>)
    requires c <= |prefs|
    ensures forall k :: 0 <= k < |r| ==> 0 <= r[k] < c
  {
    if c == 0 then []
    else OpenBefore(prefs, level, c - 1) + if prefs[c - 1] > level then [c - 1] else []
  }

  lemma {:induction false} OpenExactly(prefs: seq<int>, level: int, c: nat) returns (r: seq<int>)
    requires c <= |prefs|
    ensures r == OpenBefore(prefs, level, c) && StrictlyAscending(r)
    ensures forall i :: i in r <==> 0 <= i < c && prefs[i] > level
  {
    r := OpenBefore(prefs, level, c);
    if c > 0 {
      var before := OpenExactly(prefs, level, c - 1);
      assert forall i :: i in r <==> i in before || (i == c - 1 && prefs[i] > level);
    }
  }

  /** No preference lies strictly between a level and its target. */
  ghost predicate NoneBetween(prefs: seq<int>, level: int, target: int) {
    forall i :: 0 <= i < |prefs| && prefs[i] > level ==> prefs[i] >= target
  }

  predicate StrictlyAscending(s: seq<int>) {
    forall i, j :: 0 <= i < j < |s| ==> s[i] < s[j]
  }

  lemma LevelNext(prefs: seq<int>, level: int, c: nat)
    requires 0 < c <= |prefs|
    ensures var before := Level(prefs, level, c - 1);
      Level(prefs, level, c) == before[c - 1 := if prefs[c - 1] > level then level + 1 else before[c - 1]]
  {
  }

  lemma {:induction false} LevelCursor(prefs: seq<int>, level: int, c: nat)
    requires c <= |prefs|
    ensures Sum(Level(prefs, level, c)) == Sum(Level(prefs, level, 0)) + |OpenBefore(prefs, level, c)|
  {
    if c > 0 {
      LevelCursor(prefs, level, c - 1);
      OneMoreUnit(prefs, level, c);
    }
  }

  lemma OneMoreUnit(prefs: seq<int>, level: int, c: nat)
    requires 0 < c <= |prefs|
    ensures Sum(Level(prefs, level, c)) == Sum(Level(prefs, level, c - 1)) + if prefs[c - 1] > level then 1 else 0
  {
    LevelNext(prefs, level, c);
    var before := Level(prefs, level, c - 1);
    SumUpdate(before, c - 1, if prefs[c - 1] > level then level + 1 else before[c - 1]);
  }

  lemma LevelStep(prefs: seq<int>, level: int, up: int)
    requires up == level + 1
    ensures Sum(Level(prefs, up, 0)) == Sum(Level(prefs, level, 0)) + |OpenBefore(prefs, level, |prefs|)|
  {
    LevelCursor(prefs, level, |prefs|);
    assert Level(prefs, level, |prefs|) == Level(prefs, up, 0);
  }

  lemma SameOpen(prefs: seq<int>, level: int, x: int, target: int)
    requires level <= x < target && NoneBetween(prefs, level, target)
    ensures OpenBefore(prefs, x, |prefs|) == OpenBefore(prefs, level, |prefs|)
  {
    var a := OpenExactly(prefs, x, |prefs|);
    var b := OpenExactly(prefs, level, |prefs|);
    AscendingUnique(a, b);
  }

  function Times(n: nat, k: int): int {
    if n == 0 then 0 else Times(n - 1, k) + k
  }

  lemma {:induction false} TimesIsProduct(n: nat, k: int)
    ensures Times(n, k) == n * k
  {
    if n > 0 {
      TimesIsProduct(n - 1, k);
      assert n * k == (n - 1) * k + k;
    }
  }

  /** Raising the level by `n` up to `x` costs one unit per open request and step. */
  lemma {:induction false} LevelClimbs(prefs: seq<int>, level: int, target: int, n: nat, x: int, k: int)
    requires x == level + n && x <= target && k == |OpenBefore(prefs, level, |prefs|)|
    requires NoneBetween(prefs, level, target)
    ensures Sum(Level(prefs, x, 0)) == Sum(Level(prefs, level, 0)) + Times(n, k)
  {
    if n > 0 {
      LevelClimbs(prefs, level, target, n - 1, x - 1, k);
      RaiseOnce(prefs, level, target, x - 1, x);
    }
  }

  lemma LevelRaise(prefs: seq<int>, level: int, target: int, gap: nat, k: int, units: int)
    requires target == level + gap && units == gap * k && k == |OpenBefore(prefs, level, |prefs|)|
    requires NoneBetween(prefs, level, target)
    ensures Sum(Level(prefs, target, 0)) == Sum(Level(prefs, level, 0)) + units
  {
    LevelClimbs(prefs, level, target, gap, target, k);
    TimesIsProduct(gap, k);
  }

  lemma RaiseOnce(prefs: seq<int>, level: int, target: int, x: int, up: int)
    requires level <= x < target && up == x + 1 && NoneBetween(prefs, level, target)
    ensures Sum(Level(prefs, up, 0)) == Sum(Level(prefs, x, 0)) + |OpenBefore(prefs, level, |prefs|)|
  {
    LevelStep(prefs, x, up);
    SameOpen(prefs, level, x, target);
  }

  /** Strictly ascending sequences with the same elements are equal. */
  lemma {:induction false} AscendingUnique(s: seq<int>, t: seq<int>)
    requires StrictlyAscending(s) && StrictlyAscending(t)
    requires forall x :: x in s <==> x in t
    ensures s == t
  {
    assert t != [] ==> t[0] in t;
    if s == [] {
    } else {
      assert s[0] in s;
      assert s[0] in t && t[0] in s;
      assert s[0] == t[0];
      var s', t' := s[1..], t[1..];
      forall x ensures x in s' <==> x in t' {
        assert x in s' <==> x in s && x != s[0];
        assert x in t' <==> x in t && x != t[0];
      }
      AscendingUnique(s', t');
    }
  }

  lemma {:induction false} SortIsStrict(s: seq<int>)
    requires forall i, j :: 0 <= i < j < |s| ==> s[i] != s[j]
    ensures StrictlyAscending(SortAscending(s))
    ensures forall x :: x in SortAscending(s) <==> x in s
  {
    if s != [] {
      var tail := SortAscending(s[1..]);
      SortIsStrict(s[1..]);
      SortKeeps(s[1..], 0);
      InsertKeeps(s[0], tail, 0);
      InsertIsStrict(s[0], tail);
    }
  }

  lemma {:induction false} InsertIsStrict(x: int, s: seq<int>)
    requires StrictlyAscending(s) && x !in s
    ensures StrictlyAscending(Insert(x, s))
  {
    if s == [] || x <= s[0] {
    } else {
      InsertIsStrict(x, s[1..]);
      InsertKeeps(x, s[1..], 0);
      var r := Insert(x, s[1..]);
      forall j | 0 <= j < |r| ensures s[0] < r[j] {
        assert r[j] in r;
      }
    }
  }

  // ----- the table of requests, sorted by preference -----

  predicate Before(a: (int, int), b: (int, int)) {
    a.0 < b.0 || (a.0 == b.0 && a.1 < b.1)
  }

  predicate SortedTable(table: seq<(int, int)>) {
    forall i, j :: 0 <= i < j < |table| ==> Before(table[i], table[j])
  }

  /** The table lists exactly the requests that prefer more than one unit. */
  ghost predicate TableOf(prefs: seq<int>, table: seq<(int, int)>) {
    && SortedTable(table)
    && (forall k :: 0 <= k < |table| ==>
          0 <= table[k].1 < |prefs| && table[k].0 == prefs[table[k].1] && table[k].0 > 1)
    && (forall i :: 0 <= i < |prefs| && prefs[i] > 1 ==> (prefs[i], i) in table)
  }

  function InsertPair(x: (int, int), table: seq<(int, int)>): (r: seq<(int, int)>) {
    if table == [] || Before(x, table[0]) then [x] + table
    else [table[0]] + InsertPair(x, table[1..])
  }

  function SortedRequests(prefs: seq<int>, c: nat): (r: seq<(int, int)>)
    requires c <= |prefs|
  {
    if c == 0 then []
    else if prefs[c - 1] > 1 then InsertPair((prefs[c - 1], c - 1), SortedRequests(prefs, c - 1))
    else SortedRequests(prefs, c - 1)
  }

  lemma {:induction false} InsertPairKeeps(x: (int, int), table: seq<(int, int)>)
    requires SortedTable(table) && forall k :: 0 <= k < |table| ==> table[k].1 != x.1
    ensures SortedTable(InsertPair(x, table))
    ensures forall y :: y in InsertPair(x, table) <==> y == x || y in table
  {
    if table == [] || Before(x, table[0]) {
    } else {
      InsertPairKeeps(x, table[1..]);
      var r := InsertPair(x, table[1..]);
      forall j | 0 <= j < |r| ensures Before(table[0], r[j]) {
        assert r[j] in r;
      }
    }
  }

  lemma {:induction false} SortedRequestsTable(prefs: seq<int>, c: nat, front: seq<int>)
    requires c <= |prefs| && front == prefs[..c]
    ensures TableOf(front, SortedRequests(prefs, c))
  {
    if c > 0 {
      SortedRequestsTable(prefs, c - 1, prefs[..c - 1]);
      OneMoreRequest(prefs[..c - 1], prefs[c - 1], SortedRequests(prefs, c - 1), front);
    }
  }

  lemma OneMoreRequest(prefs: seq<int>, x: int, table: seq<(int, int)>, longer: seq<int>)
    requires TableOf(prefs, table) && longer == prefs + [x]
    ensures TableOf(longer, if x > 1 then InsertPair((x, |prefs|), table) else table)
  {
    if x > 1 {
      InsertPairKeeps((x, |prefs|), table);
      RowsOfMore(prefs, x, table, longer, InsertPair((x, |prefs|), table));
    }
  }

  lemma RowsOfMore(prefs: seq<int>, x: int, table: seq<(int, int)>, longer: seq<int>, r: seq<(int, int)>)
    requires TableOf(prefs, table) && longer == prefs + [x] && x > 1
    requires SortedTable(r) && forall y :: y in r <==> y == (x, |prefs|) || y in table
    ensures TableOf(longer, r)
  {
    forall k | 0 <= k < |r| ensures 0 <= r[k].1 < |longer| && r[k].0 == longer[r[k].1] && r[k].0 > 1 {
      assert r[k] in r;
    }
    forall i | 0 <= i < |longer| && longer[i] > 1 ensures (longer[i], i) in r {
      assert i < |prefs| ==> (prefs[i], i) in table;
    }
  }

  /** The indices of the rows from `start` on: they are the requests that prefer
      more than `level`, when `level` separates the rows there. */
  function Indices(table: seq<(int, int)>): (r: seq<int>)
    ensures |r| == |table|
    ensures forall k :: 0 <= k < |r| ==> r[k] == table[k].1
  {
    seq(|table|, k requires 0 <= k < |table| => table[k].1)
  }

  lemma OpenRows(prefs: seq<int>, table: seq<(int, int)>, start: nat, level: int)
    requires TableOf(prefs, table) && start <= |table| && level >= 1
    requires forall k :: 0 <= k < start ==> table[k].0 <= level
    requires forall k :: start <= k < |table| ==> table[k].0 > level
    ensures SortAscending(Indices(table[start..])) == OpenBefore(prefs, level, |prefs|)
    ensures |table| - start == |OpenBefore(prefs, level, |prefs|)|
  {
    var rows := Indices(table[start..]);
    var open := OpenExactly(prefs, level, |prefs|);
    SortIsStrict(rows);
    forall i ensures i in rows <==> i in open {
      if i in rows {
        var k :| 0 <= k < |rows| && rows[k] == i;
        assert table[start + k].1 == i;
      }
      if i in open {
        assert (prefs[i], i) in table;
        var k :| 0 <= k < |table| && table[k] == (prefs[i], i);
        assert rows[k - start] == i;
      }
    }
    AscendingUnique(SortAscending(rows), open);
  }

  // ----- the steps of the algorithm -----

  /** Gives every listed request `level`, and the first `extra` of them one more. */
  /** Of the open requests the first `extra` have one more than the level, and the
      others the level; nothing else changes. */
  ghost predicate OpenFilled(limits: seq<int>, open: seq<int>, level: int, extra: nat, r: seq<int>)
    requires forall k :: 0 <= k < |open| ==> 0 <= open[k] < |limits|
  {
    && |r| == |limits|
    && (forall k :: 0 <= k < |open| ==> r[open[k]] == if k < extra then level + 1 else level)
    && (forall i :: 0 <= i < |limits| && i !in open ==> r[i] == limits[i])
  }

  method FillOpen(limits: seq<int>, indices: seq<int>, level: int, extra: nat)
    returns (r: seq<int>)
    requires StrictlyAscending(indices) && extra <= |indices|
    requires forall k :: 0 <= k < |indices| ==> 0 <= indices[k] < |limits|
    ensures OpenFilled(limits, indices, level, extra, r)
  {
    r := limits;
    for k := 0 to |indices|
      invariant |r| == |limits|
      invariant forall j :: 0 <= j < k ==> r[indices[j]] == level
      invariant forall i :: 0 <= i < |limits| && i !in indices ==> r[i] == limits[i]
    {
      r := r[indices[k] := level];
    }
    for k := 0 to extra
      invariant |r| == |limits|
      invariant forall j :: 0 <= j < |indices| ==> r[indices[j]] == if j < k then level + 1 else level
      invariant forall i :: 0 <= i < |limits| && i !in indices ==> r[i] == limits[i]
    {
      r := r[indices[k] := r[indices[k]] + 1];
    }
  }

  /** Requests that want no more than the level already hold their preference. */
  ghost predicate ClosedSettled(prefs: seq<int>, level: int, limits: seq<int>) {
    && |limits| == |prefs|
    && forall i :: 0 <= i < |prefs| && prefs[i] <= level ==> limits[i] == prefs[i]
  }

  /** Filling the open requests completes the water level, remainder included. */
  lemma FilledIsLevel(prefs: seq<int>, water: int, level: int, rounds: nat, count: int, units: int, extra: nat,
                      lagging: seq<int>, open: seq<int>, r: seq<int>)
    requires ClosedSettled(prefs, water, lagging) && level == water + rounds && units == rounds * count
    requires open == OpenBefore(prefs, water, |prefs|) && count == |open| && extra < count
    requires NoneBetween(prefs, water, level + 1)
    requires OpenFilled(lagging, open, level, extra, r)
    ensures r == Level(prefs, level, open[extra])
    ensures Sum(r) == Sum(Level(prefs, water, 0)) + units + extra
  {
    FilledValues(prefs, water, level, extra, lagging, r);
    FilledSum(prefs, water, level, rounds, count, units, extra);
  }

  lemma FilledValues(prefs: seq<int>, water: int, level: int, extra: nat, lagging: seq<int>, r: seq<int>)
    requires ClosedSettled(prefs, water, lagging) && |r| == |prefs| && water <= level
    requires NoneBetween(prefs, water, level + 1)
    requires var open := OpenBefore(prefs, water, |prefs|);
      extra < |open| && OpenFilled(lagging, open, level, extra, r)
    ensures r == Level(prefs, level, OpenBefore(prefs, water, |prefs|)[extra])
  {
    var open := OpenExactly(prefs, water, |prefs|);
    forall i | 0 <= i < |prefs| ensures r[i] == Level(prefs, level, open[extra])[i] {
      if i in open {
        var k :| 0 <= k < |open| && open[k] == i;
        assert i < open[extra] <==> k < extra;
      }
    }
  }

  lemma FilledSum(prefs: seq<int>, water: int, level: int, rounds: nat, count: int, units: int, extra: nat)
    requires level == water + rounds && units == rounds * count
    requires count == |OpenBefore(prefs, water, |prefs|)| && extra < count
    requires NoneBetween(prefs, water, level + 1)
    ensures Sum(Level(prefs, level, OpenBefore(prefs, water, |prefs|)[extra]))
      == Sum(Level(prefs, water, 0)) + units + extra
  {
    FilledCursor(prefs, water, level, extra);
    LevelRaise(prefs, water, level, rounds, count, units);
  }

  lemma FilledCursor(prefs: seq<int>, water: int, level: int, extra: nat)
    requires water <= level && extra < |OpenBefore(prefs, water, |prefs|)|
    requires NoneBetween(prefs, water, level + 1)
    ensures Sum(Level(prefs, level, OpenBefore(prefs, water, |prefs|)[extra])) == Sum(Level(prefs, level, 0)) + extra
  {
    SameOpen(prefs, water, level, level + 1);
    LevelCursor(prefs, level, OpenBefore(prefs, level, |prefs|)[extra]);
    OpenPrefix(prefs, level, extra);
  }

  lemma OpenPrefix(prefs: seq<int>, level: int, k: nat)
    requires k < |OpenBefore(prefs, level, |prefs|)|
    ensures |OpenBefore(prefs, level, OpenBefore(prefs, level, |prefs|)[k])| == k
  {
    var open := OpenExactly(prefs, level, |prefs|);
    var before := OpenExactly(prefs, level, open[k]);
    forall x ensures x in before <==> x in open[..k] {
      if x in open {
        var j :| 0 <= j < |open| && open[j] == x;
        assert j < k ==> open[..k][j] == x;
      }
    }
    AscendingUnique(before, open[..k]);
  }

  /** Complete rounds and remainder of the units that do not reach the next
      preference, which is `gap` rounds away. */
  method DivideRounds(remaining: int, count: int, ghost gap: int, ghost bound: int)
    returns (rounds: int, extra: int, ghost units: int)
    requires bound == gap * count && 0 <= remaining < bound && count > 0
    ensures 0 <= rounds < gap && 0 <= extra < count
    ensures units == rounds * count && units + extra == remaining
  {
    rounds, extra := remaining / count, remaining % count;
    units := rounds * count;
    assert rounds >= gap ==> rounds * count >= bound;
  }

  /** While units remain below the total, some request is still open. */
  lemma SomeRequestOpen(prefs: seq<int>, level: int)
    requires Sum(Level(prefs, level, 0)) < Sum(prefs)
    ensures OpenBefore(prefs, level, |prefs|) != []
  {
    var open := OpenExactly(prefs, level, |prefs|);
    assert open == [] ==> Level(prefs, level, 0) == prefs;
  }

  // ----- the algorithm -----

  /** The rows before `start` are settled, those from there on are open. */
  ghost predicate Rows(prefs: seq<int>, table: seq<(int, int)>, start: nat, water: int, limits: seq<int>)
    requires TableOf(prefs, table)
  {
    && start <= |table| && water >= 1 && |limits| == |prefs|
    && (forall k :: 0 <= k < start ==> table[k].0 <= water && limits[table[k].1] == table[k].0)
    && (forall k :: start <= k < |table| ==> table[k].0 > water)
    && (forall i :: 0 <= i < |prefs| && prefs[i] <= 1 ==> limits[i] == prefs[i])
  }

  /** What holds at the head of the filling loop: rows before `start` are
      settled, rows from there on are open and their limits lag behind the
      water level, and the level accounts for all units given out so far. */
  ghost predicate Filling(prefs: seq<int>, table: seq<(int, int)>, start: nat, water: int,
                          limits: seq<int>, remaining: int, available: int)
  {
    && TableOf(prefs, table) && Rows(prefs, table, start, water, limits) && remaining >= 0
    && Sum(Level(prefs, water, 0)) + remaining == available
    && available < Sum(prefs)
  }

  /** A water level that has given out exactly the available units. */
  ghost predicate Filled(prefs: seq<int>, available: int, t: int, c: int) {
    0 <= c <= |prefs| && Sum(Level(prefs, t, c)) == available
  }

  lemma FillingIsSettled(prefs: seq<int>, table: seq<(int, int)>, start: nat, water: int,
                         limits: seq<int>, remaining: int, available: int)
    requires Filling(prefs, table, start, water, limits, remaining, available)
    ensures ClosedSettled(prefs, water, limits)
    ensures start < |table|
    ensures SortAscending(Indices(table[start..])) == OpenBefore(prefs, water, |prefs|)
    ensures |table| - start == |OpenBefore(prefs, water, |prefs|)|
    ensures NoneBetween(prefs, water, table[start].0)
  {
    forall i | 0 <= i < |prefs| && prefs[i] <= water ensures limits[i] == prefs[i] {
      if prefs[i] > 1 {
        assert (prefs[i], i) in table;
        var k :| 0 <= k < |table| && table[k] == (prefs[i], i);
      }
    }
    OpenRows(prefs, table, start, water);
    SomeRequestOpen(prefs, water);
    NextPreference(prefs, table, start, water);
  }

  lemma FillingGoesOn(prefs: seq<int>, table: seq<(int, int)>, start: nat, water: int,
                      limits: seq<int>, remaining: int, available: int)
    requires Filling(prefs, table, start, water, limits, remaining, available)
    ensures start < |table| && table[start].0 > water
  {
    FillingIsSettled(prefs, table, start, water, limits, remaining, available);
  }

  /** The last, partial rounds: everybody open gets the complete rounds, and the
      lowest indices one unit of the remainder each. */
  method FinishRounds(prefs: seq<int>, ghost table: seq<(int, int)>, ghost start: nat, water: int, open: seq<int>,
                      limits: seq<int>, remaining: int, activeCount: int, ghost gap: int, ghost units: int,
                      ghost available: int)
    returns (r: seq<int>, ghost t: int, ghost c: int)
    requires Filling(prefs, table, start, water, limits, remaining, available)
    requires start < |table| && activeCount == |table| - start && gap == table[start].0 - water
    requires open == SortAscending(Indices(table[start..]))
    requires units == gap * activeCount && 0 <= remaining < units
    ensures Filled(prefs, available, t, c) && r == Level(prefs, t, c)
  {
    FillingIsSettled(prefs, table, start, water, limits, remaining, available);
    r, t, c := FinishOpen(prefs, water, open, limits, remaining, activeCount, gap, units);
  }

  method FinishOpen(prefs: seq<int>, water: int, open: seq<int>, limits: seq<int>, remaining: int, activeCount: int,
                    ghost gap: int, ghost units: int)
    returns (r: seq<int>, ghost t: int, ghost c: int)
    requires ClosedSettled(prefs, water, limits)
    requires open == OpenBefore(prefs, water, |prefs|) && activeCount == |open| > 0
    requires NoneBetween(prefs, water, water + gap)
    requires units == gap * activeCount && 0 <= remaining < units
    ensures 0 <= c <= |prefs| && r == Level(prefs, t, c)
    ensures Sum(r) == Sum(Level(prefs, water, 0)) + remaining
  {
    ghost var exact := OpenExactly(prefs, water, |prefs|);
    var completeRounds, remainder;
    ghost var complete;
    completeRounds, remainder, complete := DivideRounds(remaining, activeCount, gap, units);
    var level := water + completeRounds;
    r := FillOpen(limits, open, level, remainder);
    FilledIsLevel(prefs, water, level, completeRounds, activeCount, complete, remainder, limits, open, r);
    t, c := level, open[remainder];
  }

  /** Moves the rows that want exactly `level` to the settled side. */
  method SettleRows(ghost prefs: seq<int>, table: seq<(int, int)>, start: nat, ghost water: int, level: int,
                    limits: seq<int>)
    returns (nextStart: nat, nextLimits: seq<int>)
    requires TableOf(prefs, table) && Rows(prefs, table, start, water, limits)
    requires start < |table| && table[start].0 == level
    ensures start < nextStart && Rows(prefs, table, nextStart, level, nextLimits)
  {
    nextStart, nextLimits := start, limits;
    while nextStart < |table| && table[nextStart].0 == level
      invariant |nextLimits| == |prefs| && start <= nextStart <= |table|
      invariant forall k :: 0 <= k < nextStart ==>
        table[k].0 <= level && nextLimits[table[k].1] == table[k].0
      invariant forall i :: 0 <= i < |prefs| && prefs[i] <= 1 ==> nextLimits[i] == prefs[i]
    {
      nextLimits := nextLimits[table[nextStart].1 := level];
      nextStart := nextStart + 1;
    }
    assert forall k :: start < k < |table| ==> Before(table[start], table[k]);
    assert forall k :: nextStart < k < |table| ==> Before(table[nextStart], table[k]);
  }

  lemma LevelPaid(prefs: seq<int>, table: seq<(int, int)>, start: nat, water: int, target: int, limits: seq<int>,
                  remaining: int, activeCount: int, gap: int, units: int, available: int)
    requires Filling(prefs, table, start, water, limits, remaining, available)
    requires start < |table| && activeCount == |table| - start
    requires target == table[start].0 == water + gap && units == gap * activeCount
    ensures Sum(Level(prefs, target, 0)) + remaining - units == available
  {
    FillingIsSettled(prefs, table, start, water, limits, remaining, available);
    LevelRaise(prefs, water, target, gap, activeCount, units);
  }

  /** Raises the level to the next preference and settles the rows that want no
      more than that. */
  method RaiseLevel(prefs: seq<int>, table: seq<(int, int)>, start: nat, water: int,
                    limits: seq<int>, ghost remaining: int, ghost activeCount: int, gap: int, ghost units: int,
                    ghost available: int)
    returns (nextStart: nat, nextLimits: seq<int>)
    requires Filling(prefs, table, start, water, limits, remaining, available)
    requires start < |table| && activeCount == |table| - start && gap == table[start].0 - water
    requires units == gap * activeCount && remaining >= units
    ensures start < nextStart <= |table|
    ensures Filling(prefs, table, nextStart, water + gap, nextLimits, remaining - units, available)
  {
    LevelPaid(prefs, table, start, water, water + gap, limits, remaining, activeCount, gap, units, available);
    nextStart, nextLimits := SettleRows(prefs, table, start, water, water + gap, limits);
  }

  /** Allocates a hard limit to every request, or nothing when there is less than
      one unit per request. */
  method MaxMinEvaluationLimits(preferredLimits: seq<int>, availableEvaluations: nat)
    returns (r: Option<seq<int>>)
    requires Positive(preferredLimits)
    ensures r == if availableEvaluations < |preferredLimits| then None
                 else Some(Allocation(preferredLimits, availableEvaluations))
  {
    var requestCount := |preferredLimits|;
    if requestCount == 0 {
      return Some([]);
    }
    if availableEvaluations < requestCount {
      return None;
    }
    if availableEvaluations >= Sum(preferredLimits) {
      PreferencesFit(preferredLimits, availableEvaluations);
      return Some(preferredLimits);
    }

    var limits := seq(requestCount, i => 1);
    var remaining := availableEvaluations - requestCount;
    var activeLimits := SortedRequests(preferredLimits, requestCount);
    var activeStart := 0;
    var waterLevel := 1;
    ghost var t, c := 1, 0;
    StartsFilling(preferredLimits, availableEvaluations);
    while remaining > 0
      invariant Filling(preferredLimits, activeLimits, activeStart, waterLevel, limits,
                        remaining, availableEvaluations)
      invariant remaining == 0 ==>
        Filled(preferredLimits, availableEvaluations, t, c) && limits == Level(preferredLimits, t, c)
      decreases |activeLimits| - activeStart
    {
      FillingGoesOn(preferredLimits, activeLimits, activeStart, waterLevel, limits,
                    remaining, availableEvaluations);
      var nextLimit := activeLimits[activeStart].0;
      var activeCount := |activeLimits| - activeStart;
      var gap := nextLimit - waterLevel;
      var evaluationsToNextLimit := gap * activeCount;
      if remaining < evaluationsToNextLimit {
        var activeRequestIndices := SortAscending(Indices(activeLimits[activeStart..]));
        limits, t, c := FinishRounds(preferredLimits, activeLimits, activeStart, waterLevel, activeRequestIndices,
                                     limits, remaining, activeCount, gap, evaluationsToNextLimit,
                                     availableEvaluations);
        break;
      }

      activeStart, limits := RaiseLevel(preferredLimits, activeLimits, activeStart, waterLevel, limits,
                                        remaining, activeCount, gap, evaluationsToNextLimit, availableEvaluations);
      remaining := remaining - evaluationsToNextLimit;
      waterLevel := nextLimit;
      if remaining == 0 {
        limits, t, c := FinishLevel(preferredLimits, activeLimits, activeStart, waterLevel, limits,
                                    availableEvaluations);
        break;
      }
    }
    LevelOfTotalIsAllocation(preferredLimits, t, c, availableEvaluations);
    return Some(limits);
  }

  /** The units are spent exactly at a level: the lagging rows catch up with it. */
  method FinishLevel(prefs: seq<int>, table: seq<(int, int)>, start: nat, water: int,
                     limits: seq<int>, ghost available: int)
    returns (r: seq<int>, ghost t: int, ghost c: int)
    requires Filling(prefs, table, start, water, limits, 0, available)
    ensures Filled(prefs, available, t, c) && r == Level(prefs, t, c)
  {
    FillingIsSettled(prefs, table, start, water, limits, 0, available);
    r := FillRows(prefs, table, start, water, limits);
    t, c := water, 0;
  }

  method FillRows(prefs: seq<int>, table: seq<(int, int)>, start: nat, water: int, limits: seq<int>)
    returns (r: seq<int>)
    requires TableOf(prefs, table) && start <= |table| && water >= 1
    requires forall k :: start <= k < |table| ==> table[k].0 > water
    requires forall k :: 0 <= k < start ==> table[k].0 <= water
    requires ClosedSettled(prefs, water, limits)
    ensures r == Level(prefs, water, 0)
  {
    r := limits;
    for k := start to |table|
      invariant |r| == |prefs|
      invariant forall j :: start <= j < k ==> r[table[j].1] == water
      invariant forall i :: 0 <= i < |prefs| && prefs[i] <= water ==> r[i] == prefs[i]
    {
      r := r[table[k].1 := water];
    }
    forall i | 0 <= i < |prefs| && prefs[i] > water ensures r[i] == water {
      assert (prefs[i], i) in table;
    }
  }

  lemma StartsFilling(prefs: seq<int>, available: int)
    requires Positive(prefs) && |prefs| <= available < Sum(prefs)
    ensures var limits := seq(|prefs|, i => 1);
      && Filling(prefs, SortedRequests(prefs, |prefs|), 0, 1, limits, available - |prefs|, available)
      && limits == Level(prefs, 1, 0)
      && (available == |prefs| ==> Filled(prefs, available, 1, 0))
  {
    var limits := seq(|prefs|, i => 1);
    SortedRequestsTable(prefs, |prefs|, prefs);
    assert limits == Level(prefs, 1, 0);
    SumBounds(limits, 1, 1);
  }

  lemma PreferencesFit(prefs: seq<int>, available: nat)
    requires Positive(prefs) && Sum(prefs) <= available
    ensures Allocation(prefs, available) == prefs
  {
    var t, c := AllocationIsLevel(prefs, available);
    SumMonotone(Level(prefs, t, c), prefs);
  }

  /** The next row of the table is the least preference above the water level. */
  lemma NextPreference(prefs: seq<int>, table: seq<(int, int)>, start: nat, water: int)
    requires TableOf(prefs, table) && start < |table| && water >= 1
    requires forall k :: 0 <= k < start ==> table[k].0 <= water
    requires forall k :: start <= k < |table| ==> table[k].0 > water
    ensures NoneBetween(prefs, water, table[start].0)
  {
    forall i | 0 <= i < |prefs| && prefs[i] > water ensures prefs[i] >= table[start].0 {
      assert (prefs[i], i) in table;
      var k :| 0 <= k < |table| && table[k] == (prefs[i], i);
      assert k == start || Before(table[start], table[k]);
    }
  }
}
