// The starvation-free allocator of per-request evaluation limits
// (src/variopt/study/execution.py): a sort-and-water-fill algorithm, proved equal
// to granting one evaluation at a time in index order.
module MaxMinAllocator {
  import opened Outcomes

  ghost predicate Positive(prefs: seq<int>) {
    forall i :: 0 <= i < |prefs| ==> prefs[i] >= 1
  }

  // ----- the reference: one-unit-at-a-time round robin -----

  /** The rest of one pass over the requests, from request `i` on: every request
      still below its preference receives one unit while units last. */
  function Pass(prefs: seq<int>, limits: seq<int>, i: nat, units: nat): (r: (seq<int>, nat))
    requires |limits| == |prefs| && i <= |prefs|
    ensures |r.0| == |prefs| && r.1 <= units
    decreases |prefs| - i
  {
    if i == |prefs| || units == 0 then (limits, units)
    else if limits[i] < prefs[i] then Pass(prefs, limits[i := limits[i] + 1], i + 1, units - 1)
    else Pass(prefs, limits, i + 1, units)
  }

  /** Passes are repeated until the units run out or nobody can take another one. */
  function RoundRobin(prefs: seq<int>, limits: seq<int>, units: nat): (r: seq<int>)
    requires |limits| == |prefs|
    ensures |r| == |prefs|
    decreases units
  {
    if units == 0 then limits
    else
      var (next, left) := Pass(prefs, limits, 0, units);
      if left == units then next else RoundRobin(prefs, next, left)
  }

  function Zeros(n: nat): (z: seq<int>) {
    seq(n, i => 0)
  }

  // ----- water levels -----

  /** Every request filled to `level`, the requests before `cursor` to one more,
      nobody above its preference. */
  function Level(prefs: seq<int>, level: int, cursor: int): (r: seq<int>)
    ensures |r| == |prefs|
    ensures forall i :: 0 <= i < |prefs| ==> r[i] == Min(prefs[i], if i < cursor then level + 1 else level)
  {
    seq(|prefs|, i requires 0 <= i < |prefs| => Min(prefs[i], if i < cursor then level + 1 else level))
  }

  lemma LevelPass(prefs: seq<int>, level: int, i: nat, units: nat) returns (c: nat)
    requires i <= |prefs| && level >= 0
    ensures i <= c <= |prefs|
    ensures var (l, u) := Pass(prefs, Level(prefs, level, i), i, units);
      && l == Level(prefs, level, c)
      && Sum(l) + u == Sum(Level(prefs, level, i)) + units
      && (u > 0 ==> c == |prefs|)
    decreases |prefs| - i
  {
    var limits := Level(prefs, level, i);
    if i == |prefs| || units == 0 {
      c := i;
    } else if limits[i] < prefs[i] {
      var granted := limits[i := limits[i] + 1];
      assert granted == Level(prefs, level, i + 1);
      SumUpdate(limits, i, limits[i] + 1);
      c := LevelPass(prefs, level, i + 1, units - 1);
    } else {
      assert limits == Level(prefs, level, i + 1);
      c := LevelPass(prefs, level, i + 1, units);
    }
  }

  /** Round robin always leaves a water level behind, and spends units until
      either they or the preferences are exhausted. */
  lemma RoundRobinIsLevel(prefs: seq<int>, level: int, units: nat) returns (t: int, c: nat)
    requires level >= 0
    requires forall i :: 0 <= i < |prefs| ==> prefs[i] >= 0
    ensures t >= level && c <= |prefs|
    ensures RoundRobin(prefs, Level(prefs, level, 0), units) == Level(prefs, t, c)
    ensures Sum(Level(prefs, t, c)) == Min(Sum(Level(prefs, level, 0)) + units, Sum(prefs))
    decreases units
  {
    var limits := Level(prefs, level, 0);
    SumMonotone(limits, prefs);
    if units == 0 {
      t, c := level, 0;
    } else {
      c := LevelPass(prefs, level, 0, units);
      var (next, left) := Pass(prefs, limits, 0, units);
      t := level;
      if left == units {
        SaturatedLevel(prefs, level);
      } else if left > 0 {
        assert next == Level(prefs, level + 1, 0);
        t, c := RoundRobinIsLevel(prefs, level + 1, left);
      } else {
        SumMonotone(next, prefs);
      }
    }
  }

  /** A full pass that grants nothing means that every request is saturated. */
  lemma SaturatedLevel(prefs: seq<int>, level: int)
    requires Sum(Level(prefs, level, |prefs|)) == Sum(Level(prefs, level, 0))
    ensures Level(prefs, level, |prefs|) == Level(prefs, level, 0) == prefs
  {
    var low, high := Level(prefs, level, 0), Level(prefs, level, |prefs|);
    SumMonotone(low, high);
    assert forall i :: 0 <= i < |prefs| ==> low[i] == high[i];
  }

  /** Two water levels of the same total are the same allocation, and a larger
      total never takes anything away from anybody. */
  lemma LevelsAreOrdered(prefs: seq<int>, t: int, c: int, t': int, c': int)
    requires 0 <= c <= |prefs| && 0 <= c' <= |prefs|
    requires Sum(Level(prefs, t, c)) <= Sum(Level(prefs, t', c'))
    ensures forall i :: 0 <= i < |prefs| ==> Level(prefs, t, c)[i] <= Level(prefs, t', c')[i]
  {
    var a, b := Level(prefs, t, c), Level(prefs, t', c');
    if t < t' || (t == t' && c <= c') {
      assert forall i :: 0 <= i < |prefs| ==> a[i] <= b[i];
    } else {
      assert forall i :: 0 <= i < |prefs| ==> b[i] <= a[i];
      SumMonotone(b, a);
    }
  }

  // ----- what the allocation guarantees -----

  /** One unit at a time, in index order, skipping saturated requests. */
  function Allocation(prefs: seq<int>, available: nat): (r: seq<int>)
    ensures |r| == |prefs|
  {
    RoundRobin(prefs, Zeros(|prefs|), available)
  }

  lemma AllocationIsLevel(prefs: seq<int>, available: nat) returns (t: int, c: nat)
    requires Positive(prefs)
    ensures t >= 0 && c <= |prefs|
    ensures Allocation(prefs, available) == Level(prefs, t, c)
    ensures Sum(Level(prefs, t, c)) == Min(available, Sum(prefs))
  {
    assert Zeros(|prefs|) == Level(prefs, 0, 0);
    SumBounds(Zeros(|prefs|), 0, 0);
    t, c := RoundRobinIsLevel(prefs, 0, available);
  }

  /** A water level of the right total is the round-robin allocation. */
  lemma LevelOfTotalIsAllocation(prefs: seq<int>, t: int, c: nat, available: nat)
    requires Positive(prefs) && c <= |prefs|
    requires Sum(Level(prefs, t, c)) == Min(available, Sum(prefs))
    ensures Level(prefs, t, c) == Allocation(prefs, available)
  {
    var t', c' := AllocationIsLevel(prefs, available);
    LevelsAreOrdered(prefs, t, c, t', c');
    LevelsAreOrdered(prefs, t', c', t, c);
  }

  /** The whole budget is handed out (or every preference is met), and nobody is
      starved or overfed once there is one unit per request. */
  lemma AllocationIsFeasible(prefs: seq<int>, available: nat)
    requires Positive(prefs) && |prefs| <= available
    ensures Sum(Allocation(prefs, available)) == Min(available, Sum(prefs))
    ensures forall i :: 0 <= i < |prefs| ==> 1 <= Allocation(prefs, available)[i] <= prefs[i]
  {
    var t, c := AllocationIsLevel(prefs, available);
    var one := Level(prefs, 1, 0);
    SumBounds(one, 1, 1);
    SumMonotone(one, prefs);
    LevelsAreOrdered(prefs, 1, 0, t, c);
  }

  /** Requests held below their preferences differ by at most one unit, and the
      extra units sit on the lowest indices. */
  lemma AllocationIsBalanced(prefs: seq<int>, available: nat, i: nat, j: nat)
    requires Positive(prefs)
    requires i < j < |prefs|
    requires Allocation(prefs, available)[i] < prefs[i]
    requires Allocation(prefs, available)[j] < prefs[j]
    ensures var r := Allocation(prefs, available); r[j] <= r[i] <= r[j] + 1
  {
    var t, c := AllocationIsLevel(prefs, available);
  }

  /** Raising the available budget never lowers anybody's limit. */
  lemma AllocationIsMonotone(prefs: seq<int>, available: nat, more: nat, i: nat)
    requires Positive(prefs)
    requires available <= more && i < |prefs|
    ensures Allocation(prefs, available)[i] <= Allocation(prefs, more)[i]
  {
    var t, c := AllocationIsLevel(prefs, available);
    var t', c' := AllocationIsLevel(prefs, more);
    LevelsAreOrdered(prefs, t, c, t', c');
  }

  // ----- max-min optimality -----

  ghost predicate Ascending(s: seq<int>) {
    forall i, j :: 0 <= i < j < |s| ==> s[i] <= s[j]
  }

  function Insert(x: int, s: seq<int>): (r: seq<int>)
    ensures |r| == |s| + 1
  {
    if s == [] || x <= s[0] then [x] + s else [s[0]] + Insert(x, s[1..])
  }

  function SortAscending(s: seq<int>): (r: seq<int>)
    ensures |r| == |s|
  {
    if s == [] then [] else Insert(s[0], SortAscending(s[1..]))
  }

  /** `s` is lexicographically smaller than `t`. */
  ghost predicate LexLess(s: seq<int>, t: seq<int>)
    requires |s| == |t|
  {
    exists k :: 0 <= k < |s| && s[k] < t[k] && forall j :: 0 <= j < k ==> s[j] == t[j]
  }

  /** How many elements are at most `v`. */
  function CountAtMost(s: seq<int>, v: int): (r: nat)
    ensures r <= |s|
  {
    if s == [] then 0 else (if s[0] <= v then 1 else 0) + CountAtMost(s[1..], v)
  }

  lemma {:induction false} InsertKeeps(x: int, s: seq<int>, v: int)
    requires Ascending(s)
    ensures Ascending(Insert(x, s))
    ensures Sum(Insert(x, s)) == x + Sum(s)
    ensures CountAtMost(Insert(x, s), v) == CountAtMost([x] + s, v)
    ensures forall y :: y in Insert(x, s) <==> y == x || y in s
  {
    if s == [] || x <= s[0] {
    } else {
      InsertKeeps(x, s[1..], v);
      var r := Insert(x, s[1..]);
      assert Insert(x, s)[1..] == r;
      assert forall j :: 0 <= j < |r| ==> r[j] in r;
      assert ([x] + s)[1..] == s;
      assert ([x] + s[1..])[1..] == s[1..];
    }
  }

  lemma {:induction false} SortKeeps(s: seq<int>, v: int)
    ensures Ascending(SortAscending(s))
    ensures Sum(SortAscending(s)) == Sum(s)
    ensures CountAtMost(SortAscending(s), v) == CountAtMost(s, v)
  {
    if s == [] {
    } else {
      SortKeeps(s[1..], v);
      InsertKeeps(s[0], SortAscending(s[1..]), v);
      assert ([s[0]] + SortAscending(s[1..]))[1..] == SortAscending(s[1..]);
    }
  }

  /** In an ascending sequence, position tells how many elements are at most `v`. */
  lemma {:induction false} AscendingCount(s: seq<int>, v: int, k: nat)
    requires Ascending(s) && k < |s|
    ensures s[k] <= v <==> CountAtMost(s, v) > k
  {
    if s[0] > v {
      NoneAtMost(s, v);
    } else if k > 0 {
      AscendingCount(s[1..], v, k - 1);
    }
  }

  lemma {:induction false} NoneAtMost(s: seq<int>, v: int)
    requires forall i :: 0 <= i < |s| ==> s[i] > v
    ensures CountAtMost(s, v) == 0
  {
    if s != [] {
      NoneAtMost(s[1..], v);
    }
  }

  lemma {:induction false} CountAtMostMonotone(s: seq<int>, t: seq<int>, v: int)
    requires |s| == |t|
    requires forall i :: 0 <= i < |s| ==> s[i] <= v ==> t[i] <= v
    ensures CountAtMost(s, v) <= CountAtMost(t, v)
  {
    if s != [] {
      CountAtMostMonotone(s[1..], t[1..], v);
    }
  }

  /** Agreeing before `k` and being at least as large from `k` on, strictly at
      `k`, makes the sum larger. */
  lemma SumSplitLess(s: seq<int>, t: seq<int>, k: nat)
    requires |s| == |t| && k < |s| && s[k] < t[k]
    requires forall j :: 0 <= j < |s| ==> s[j] <= t[j]
    ensures Sum(s) < Sum(t)
  {
    SumMonotone(s, t);
  }

  /** If whoever holds at most `v` in `r` also holds at most `v` in `other`, then
      `other` cannot first exceed `r` at a position of value `v`. */
  lemma NotExceededBelow(r: seq<int>, other: seq<int>, k: nat, v: int)
    requires |r| == |other| && k < |r| && v == SortAscending(r)[k]
    requires forall i :: 0 <= i < |r| ==> r[i] <= v ==> other[i] <= v
    ensures SortAscending(other)[k] <= v
  {
    SortKeeps(r, v);
    SortKeeps(other, v);
    CountAtMostMonotone(r, other, v);
    AscendingCount(SortAscending(r), v, k);
    AscendingCount(SortAscending(other), v, k);
  }

  /** If nobody in `r` holds more than one unit above the value at `k`, then
      exceeding `r` first at `k` costs a larger total. */
  lemma ExceedingCostsMore(r: seq<int>, other: seq<int>, k: nat, v: int)
    requires |r| == |other| && k < |r| && v == SortAscending(r)[k] < SortAscending(other)[k]
    requires forall i :: 0 <= i < |r| ==> r[i] <= v + 1
    requires forall j :: 0 <= j < k ==> SortAscending(r)[j] == SortAscending(other)[j]
    ensures Sum(r) < Sum(other)
  {
    var sr, so := SortAscending(r), SortAscending(other);
    SortKeeps(r, v);
    SortKeeps(other, v);
    SortedAtMost(r, v + 1);
    forall j | 0 <= j < |sr| ensures sr[j] <= so[j] {
      if j > k {
        assert so[k] <= so[j];
      }
    }
    SumSplitLess(sr, so, k);
  }

  /** No allocation that respects the preferences and the budget has a
      lexicographically larger ascending vector of limits. */
  lemma AllocationIsMaxMin(prefs: seq<int>, available: nat, other: seq<int>)
    requires Positive(prefs)
    requires |other| == |prefs| && Sum(other) <= available
    requires forall i :: 0 <= i < |prefs| ==> other[i] <= prefs[i]
    ensures !LexLess(SortAscending(Allocation(prefs, available)), SortAscending(other))
  {
    var t, c := AllocationIsLevel(prefs, available);
    SumMonotone(other, prefs);
    LevelIsMaxMin(prefs, t, c, other);
  }

  lemma LevelIsMaxMin(prefs: seq<int>, t: int, c: int, other: seq<int>)
    requires 0 <= c <= |prefs| && |other| == |prefs| && Sum(other) <= Sum(Level(prefs, t, c))
    requires forall i :: 0 <= i < |prefs| ==> other[i] <= prefs[i]
    ensures !LexLess(SortAscending(Level(prefs, t, c)), SortAscending(other))
  {
    var r := Level(prefs, t, c);
    if LexLess(SortAscending(r), SortAscending(other)) {
      var sr, so := SortAscending(r), SortAscending(other);
      var k :| 0 <= k < |sr| && sr[k] < so[k] && forall j :: 0 <= j < k ==> sr[j] == so[j];
      if sr[k] < t {
        // Everybody at or below this value is saturated.
        NotExceededBelow(r, other, k, sr[k]);
      } else {
        ExceedingCostsMore(r, other, k, sr[k]);
      }
    }
  }

  lemma {:induction false} SortedAtMost(s: seq<int>, v: int)
    requires forall i :: 0 <= i < |s| ==> s[i] <= v
    ensures forall i :: 0 <= i < |s| ==> SortAscending(s)[i] <= v
  {
    if s != [] {
      SortedAtMost(s[1..], v);
      SortKeeps(s[1..], v);
      InsertKeeps(s[0], SortAscending(s[1..]), v);
      forall i | 0 <= i < |s| ensures SortAscending(s)[i] <= v {
        assert SortAscending(s)[i] in Insert(s[0], SortAscending(s[1..]));
      }
    }
  }
}
