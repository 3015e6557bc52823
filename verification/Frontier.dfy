// Dominance of score vectors and the stable non-dominated frontier
// (src/variopt/artifacts/terminal.py).
module Frontier {
  import opened Outcomes

  /** Scores in canonical minimization form. */
  type Scores = seq<real>

  predicate Dominates(a: Scores, b: Scores)
    requires |a| == |b|
  {
    && (forall k :: 0 <= k < |a| ==> a[k] <= b[k])
    && (exists k :: 0 <= k < |a| && a[k] < b[k])
  }

  /** One pass with a flag; different dimensions are an error. */
  method DominatesObjectiveScores(left: Scores, right: Scores) returns (r: Option<bool>)
    ensures r == if |left| != |right| then None else Some(Dominates(left, right))
  {
    if |left| != |right| {
      return None;
    }
    var strictlyBetter := false;
    for k := 0 to |left|
      invariant forall j :: 0 <= j < k ==> left[j] <= right[j]
      invariant strictlyBetter <==> exists j :: 0 <= j < k && left[j] < right[j]
    {
      if left[k] > right[k] {
        return Some(false);
      }
      if left[k] < right[k] {
        strictlyBetter := true;
      }
    }
    return Some(strictlyBetter);
  }

  /** Dominance is a strict partial order. */
  lemma DominanceIsStrictOrder(a: Scores, b: Scores, c: Scores)
    requires |a| == |b| == |c|
    ensures !Dominates(a, a)
    ensures Dominates(a, b) ==> !Dominates(b, a)
    ensures Dominates(a, b) && Dominates(b, c) ==> Dominates(a, c)
  {
    if Dominates(a, b) && Dominates(b, c) {
      var k :| 0 <= k < |a| && a[k] < b[k];
      assert a[k] < c[k];
    }
  }

  // ----- the frontier -----

  predicate SameDimension(all: seq<Scores>) {
    forall i, j :: 0 <= i < j < |all| ==> |all[i]| == |all[j]|
  }

  predicate Dominated(all: seq<Scores>, i: nat)
    requires i < |all|
  {
    exists j :: 0 <= j < |all| && |all[j]| == |all[i]| && Dominates(all[j], all[i])
  }

  /** Positions below `n` that nothing dominates, in order. */
  function Kept(all: seq<Scores>, n: nat): (r: seq<nat>)
    requires n <= |all|
    ensures forall k :: 0 <= k < |r| ==> r[k] < n
  {
    if n == 0 then [] else Kept(all, n - 1) + if Dominated(all, n - 1) then [] else [n - 1]
  }

  /** The kept positions are all the undominated ones, in ascending order. */
  lemma {:induction false} KeptExactly(all: seq<Scores>, n: nat)
    requires n <= |all|
    ensures forall i :: i in Kept(all, n) <==> 0 <= i < n && !Dominated(all, i)
    ensures forall j, k :: 0 <= j < k < |Kept(all, n)| ==> Kept(all, n)[j] < Kept(all, n)[k]
  {
    if n > 0 {
      KeptExactly(all, n - 1);
      var before, last := Kept(all, n - 1), if Dominated(all, n - 1) then [] else [n - 1];
      forall i ensures i in before + last <==> 0 <= i < n && !Dominated(all, i) {
        assert i in before + last <==> i in before || i in last;
      }
    }
  }

  function Select(all: seq<Scores>, positions: seq<nat>): (r: seq<Scores>)
    requires forall k :: 0 <= k < |positions| ==> positions[k] < |all|
    ensures |r| == |positions| && forall k :: 0 <= k < |r| ==> r[k] == all[positions[k]]
  {
    seq(|positions|, k requires 0 <= k < |positions| => all[positions[k]])
  }

  function FrontierOf(all: seq<Scores>): (r: seq<Scores>) {
    Select(all, Kept(all, |all|))
  }

  function Dominators(all: seq<Scores>, i: nat): (r: set<nat>)
    requires i < |all|
    ensures forall j :: j in r <==> 0 <= j < |all| && |all[j]| == |all[i]| && Dominates(all[j], all[i])
  {
    set j | 0 <= j < |all| && |all[j]| == |all[i]| && Dominates(all[j], all[i])
  }

  /** Whatever is dominated is dominated by something that is kept. */
  lemma {:induction false} DroppedIsCovered(all: seq<Scores>, i: nat) returns (k: nat)
    requires i < |all| && Dominated(all, i)
    ensures k in Kept(all, |all|) && k < |all| && |all[k]| == |all[i]| && Dominates(all[k], all[i])
    decreases |Dominators(all, i)|
  {
    var j: nat :| j < |all| && |all[j]| == |all[i]| && Dominates(all[j], all[i]);
    KeptExactly(all, |all|);
    if !Dominated(all, j) {
      k := j;
    } else {
      DominatorsShrink(all, j, i);
      k := DroppedIsCovered(all, j);
      DominanceIsStrictOrder(all[k], all[j], all[i]);
    }
  }

  lemma DominatorsShrink(all: seq<Scores>, j: nat, i: nat)
    requires i < |all| && j in Dominators(all, i)
    ensures |Dominators(all, j)| < |Dominators(all, i)|
  {
    forall x | x in Dominators(all, j) ensures x in Dominators(all, i) {
      DominanceIsStrictOrder(all[x], all[j], all[i]);
    }
    DominanceIsStrictOrder(all[j], all[j], all[j]);
    SubsetSize(Dominators(all, j) + {j}, Dominators(all, i));
  }

  lemma {:induction false} SubsetSize(a: set<nat>, b: set<nat>)
    requires a <= b
    ensures |a| <= |b|
  {
    if a != {} {
      var x :| x in a;
      SubsetSize(a - {x}, b - {x});
    }
  }

  /** The frontier of a frontier is the frontier. */
  lemma FrontierIsIdempotent(all: seq<Scores>)
    ensures FrontierOf(FrontierOf(all)) == FrontierOf(all)
  {
    var kept, front := Kept(all, |all|), FrontierOf(all);
    KeptExactly(all, |all|);
    forall k, j | 0 <= k < |front| && 0 <= j < |front| && |front[j]| == |front[k]|
      ensures !Dominates(front[j], front[k])
    {
      assert kept[k] in kept;
      assert !Dominated(all, kept[k]);
    }
    AllKept(front, |front|);
    assert Select(front, Kept(front, |front|)) == front;
  }

  lemma {:induction false} AllKept(all: seq<Scores>, n: nat)
    requires n <= |all| && forall i :: 0 <= i < n ==> !Dominated(all, i)
    ensures Kept(all, n) == seq(n, i => i)
  {
    if n > 0 {
      AllKept(all, n - 1);
      assert seq(n, i => i) == seq(n - 1, i => i) + [n - 1];
    }
  }

  // ----- the algorithm -----

  predicate Comparable(all: seq<Scores>, i: nat)
    requires i < |all|
  {
    forall j :: 0 <= j < |all| ==> |all[j]| == |all[i]|
  }

  /** Scans the others in order until one dominates or cannot be compared. */
  method IsDominated(all: seq<Scores>, i: nat) returns (r: Option<bool>)
    requires i < |all|
    ensures r == Some(true) ==> Dominated(all, i)
    ensures r == Some(false) ==> !Dominated(all, i) && Comparable(all, i)
    ensures r.None? ==> !Comparable(all, i)
  {
    for j := 0 to |all|
      invariant forall k :: 0 <= k < j ==> |all[k]| == |all[i]| && !Dominates(all[k], all[i])
    {
      if j != i {
        var dominates := DominatesObjectiveScores(all[j], all[i]);
        if dominates.None? {
          return None;
        }
        if dominates.value {
          return Some(true);
        }
      } else {
        DominanceIsStrictOrder(all[i], all[i], all[i]);
      }
    }
    return Some(false);
  }

  /** The stable frontier; the comparison fails exactly when dimensions are mixed. */
  method CollectNondominated(all: seq<Scores>) returns (r: Option<seq<Scores>>)
    ensures r == if SameDimension(all) then Some(FrontierOf(all)) else None
  {
    var kept: seq<nat> := [];
    var collected: seq<Scores> := [];
    for i := 0 to |all|
      invariant kept == Kept(all, i) && |collected| == |kept|
      invariant forall k :: 0 <= k < |kept| ==> kept[k] < |all| && collected[k] == all[kept[k]]
      invariant AllComparable(all, kept)
    {
      var dominated := IsDominated(all, i);
      if dominated.None? {
        MixedDimensions(all, i);
        return None;
      }
      if !dominated.value {
        kept := kept + [i];
        collected := collected + [all[i]];
      }
    }
    KeptMeansSame(all);
    assert collected == Select(all, kept);
    return Some(collected);
  }

  ghost predicate AllComparable(all: seq<Scores>, positions: seq<nat>) {
    forall k :: 0 <= k < |positions| ==> positions[k] < |all| && Comparable(all, positions[k])
  }

  lemma MixedDimensions(all: seq<Scores>, i: nat)
    requires i < |all| && !Comparable(all, i)
    ensures !SameDimension(all)
  {
    var j :| 0 <= j < |all| && |all[j]| != |all[i]|;
    assert j < i || i < j;
  }

  lemma KeptMeansSame(all: seq<Scores>)
    requires AllComparable(all, Kept(all, |all|))
    ensures SameDimension(all)
  {
    if all != [] {
      var k: nat := 0;
      if Dominated(all, 0) {
        k := DroppedIsCovered(all, 0);
      }
      KeptExactly(all, |all|);
      assert k in Kept(all, |all|);
      assert Comparable(all, k);
    }
  }
}
