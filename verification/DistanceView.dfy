// The encoded snapshot behind structured distances: rebasing keeps encodings that
// are still right, and batched queries agree with single distances
// (src/variopt/diversity/space_metric.py).
module DistanceView {
  import opened Outcomes

  /** Stands for the identity of a candidate object, which may be changed in place. */
  type Identity = nat

  /** Stands for what a candidate means at some time. */
  type Content = int

  type Encoding = int

  /** An encoding object; `tag` stands for its identity. */
  datatype Encoded = Encoded(tag: nat, value: Encoding)

  /** A geometry plan with its scalar, many and packed kernels. */
  datatype Plan = Plan(
    encode: Content -> Encoding,
    squared: (Encoding, Encoding) -> real,
    many: (Encoding, seq<Encoding>) -> seq<real>,
    packed: (Encoding, seq<Encoding>, seq<nat>) -> seq<real>,
    prefersBatched: nat -> bool,
    rootMeanSquare: real -> real)

  datatype View = View(candidates: seq<Identity>, encodings: seq<Encoded>)

  /** The meaning of every candidate object at one time. */
  type Meaning = Identity -> Content

  // ----- making and rebasing views -----

  /** A fresh view: every encoding is a new object, numbered from `next`. */
  function FromCandidates(plan: Plan, meaning: Meaning, candidates: seq<Identity>, next: nat): (r: View) {
    View(candidates, seq(|candidates|, i requires 0 <= i < |candidates| =>
      Encoded(next + i, plan.encode(meaning(candidates[i])))))
  }

  predicate Retains(view: View, candidates: seq<Identity>, invalidated: set<int>, i: nat)
    requires i < |candidates|
  {
    i < |view.candidates| && i < |view.encodings| && i !in invalidated && candidates[i] == view.candidates[i]
  }

  function RebasedEncodings(view: View, plan: Plan, meaning: Meaning, candidates: seq<Identity>,
                            invalidated: set<int>, next: nat): (r: seq<Encoded>)
    ensures |r| == |candidates|
    ensures forall i :: 0 <= i < |r| ==>
      r[i] == if Retains(view, candidates, invalidated, i) then view.encodings[i]
              else Encoded(next + i, plan.encode(meaning(candidates[i])))
  {
    seq(|candidates|, i requires 0 <= i < |candidates| =>
      if Retains(view, candidates, invalidated, i) then view.encodings[i]
      else Encoded(next + i, plan.encode(meaning(candidates[i]))))
  }

  /** The same view when every encoding object is the old one. */
  function Rebase(view: View, plan: Plan, meaning: Meaning, candidates: seq<Identity>,
                  invalidated: set<int>, next: nat): (r: View)
  {
    var encodings := RebasedEncodings(view, plan, meaning, candidates, invalidated, next);
    if |encodings| == |view.encodings|
       && forall i :: 0 <= i < |encodings| ==> encodings[i].tag == view.encodings[i].tag
    then view else View(candidates, encodings)
  }

  predicate IsAlignedWith(view: View, candidates: seq<Identity>) {
    |candidates| == |view.candidates| && forall i :: 0 <= i < |candidates| ==> candidates[i] == view.candidates[i]
  }

  /** The view shows what its candidates mean now; its encoding objects are older
      than `next`. */
  ghost predicate Current(view: View, plan: Plan, meaning: Meaning, next: nat) {
    && |view.encodings| == |view.candidates|
    && forall i :: 0 <= i < |view.encodings| ==>
         view.encodings[i].tag < next && view.encodings[i].value == plan.encode(meaning(view.candidates[i]))
  }

  /** Every retained object whose meaning has changed is invalidated. */
  ghost predicate Covers(view: View, before: Meaning, after: Meaning, candidates: seq<Identity>, invalidated: set<int>) {
    forall i :: 0 <= i < |candidates| && i < |view.candidates| ==>
      candidates[i] == view.candidates[i] && before(candidates[i]) != after(candidates[i]) ==> i in invalidated
  }

  lemma RebaseIsCurrent(view: View, plan: Plan, before: Meaning, after: Meaning, candidates: seq<Identity>,
                        invalidated: set<int>, next: nat)
    requires Current(view, plan, before, next) && Covers(view, before, after, candidates, invalidated)
    ensures var r := Rebase(view, plan, after, candidates, invalidated, next);
      Current(r, plan, after, next + |candidates|) && r.candidates == candidates
  {
    var encodings := RebasedEncodings(view, plan, after, candidates, invalidated, next);
    if |encodings| == |view.encodings|
      && forall i :: 0 <= i < |encodings| ==> encodings[i].tag == view.encodings[i].tag {
      assert forall i :: 0 <= i < |candidates| ==> Retains(view, candidates, invalidated, i);
      assert candidates == view.candidates;
    }
  }

  /** One rebase of a chain. */
  datatype Change = Change(meaning: Meaning, candidates: seq<Identity>, invalidated: set<int>)

  function RebaseAll(view: View, plan: Plan, changes: seq<Change>, next: nat): (r: View)
    decreases changes
  {
    if changes == [] then view
    else
      var c := changes[0];
      RebaseAll(Rebase(view, plan, c.meaning, c.candidates, c.invalidated, next), plan, changes[1..],
                next + |c.candidates|)
  }

  /** Each rebase is told of the changes since the one before. */
  ghost predicate AllCovered(view: View, plan: Plan, before: Meaning, changes: seq<Change>, next: nat)
    decreases changes
  {
    changes == []
    || (Covers(view, before, changes[0].meaning, changes[0].candidates, changes[0].invalidated)
        && AllCovered(Rebase(view, plan, changes[0].meaning, changes[0].candidates, changes[0].invalidated, next), plan,
                      changes[0].meaning, changes[1..], next + |changes[0].candidates|))
  }

  /** After any chain of rebases the view is aligned with the last snapshot and its
      encodings are those of a view made afresh. */
  lemma {:induction false} ChainAgreesWithFresh(view: View, plan: Plan, before: Meaning, changes: seq<Change>, next: nat)
    requires Current(view, plan, before, next) && AllCovered(view, plan, before, changes, next) && changes != []
    ensures var last, r := changes[|changes| - 1], RebaseAll(view, plan, changes, next);
      var anew := FromCandidates(plan, last.meaning, last.candidates, 0);
      && IsAlignedWith(r, last.candidates) && |r.encodings| == |anew.encodings|
      && forall i :: 0 <= i < |r.encodings| ==> r.encodings[i].value == anew.encodings[i].value
    decreases changes
  {
    var c := changes[0];
    var rebased := Rebase(view, plan, c.meaning, c.candidates, c.invalidated, next);
    RebaseIsCurrent(view, plan, before, c.meaning, c.candidates, c.invalidated, next);
    if |changes| > 1 {
      assert changes[1..][|changes| - 2] == changes[|changes| - 1];
      ChainAgreesWithFresh(rebased, plan, c.meaning, changes[1..], next + |c.candidates|);
    } else {
      assert RebaseAll(view, plan, changes, next) == rebased;
    }
  }

  /** Without the coverage the view can be wrong: a changed object that is not
      invalidated keeps its old encoding. */
  lemma UncoveredChangeIsMissed(plan: Plan, before: Meaning, after: Meaning, x: Identity, next: nat)
    requires plan.encode(before(x)) != plan.encode(after(x))
    ensures var view := FromCandidates(plan, before, [x], next);
      var r := Rebase(view, plan, after, [x], {}, next + 1);
      |r.encodings| == 1 && r.encodings[0].value != plan.encode(after(x))
  {
  }

  // ----- distances -----

  function Values(view: View): (r: seq<Encoding>)
    ensures |r| == |view.encodings| && forall i :: 0 <= i < |r| ==> r[i] == view.encodings[i].value
  {
    seq(|view.encodings|, i requires 0 <= i < |view.encodings| => view.encodings[i].value)
  }

  /** The many and packed kernels give what the scalar kernel gives. */
  ghost predicate KernelsAgree(plan: Plan) {
    && (forall e, refs :: |plan.many(e, refs)| == |refs|
          && forall k :: 0 <= k < |refs| ==> plan.many(e, refs)[k] == plan.squared(e, refs[k]))
    && (forall e, refs, rows: seq<nat> :: (forall k :: 0 <= k < |rows| ==> rows[k] < |refs|) ==>
          |plan.packed(e, refs, rows)| == |rows|
          && forall k :: 0 <= k < |rows| ==> plan.packed(e, refs, rows)[k] == plan.squared(e, refs[rows[k]]))
  }

  predicate InSnapshot(view: View, i: int) {
    0 <= i < |view.encodings|
  }

  /** `None` when an index lies outside the snapshot. */
  function Distance(view: View, plan: Plan, left: int, right: int): (r: Option<real>) {
    if !InSnapshot(view, left) || !InSnapshot(view, right) then None
    else if left == right then Some(0.0)
    else Some(plan.rootMeanSquare(plan.squared(view.encodings[left].value, view.encodings[right].value)))
  }

  /** The distance of two contents, from their encodings. */
  function ContentDistance(plan: Plan, a: Content, b: Content): (r: real) {
    plan.rootMeanSquare(plan.squared(plan.encode(a), plan.encode(b)))
  }

  /** After any chain of rebases a distance is that of what the two candidates of the
      last snapshot mean then, zero from a position to itself, and refused exactly
      outside the snapshot. */
  lemma ChainDistancesAreTrue(view: View, plan: Plan, before: Meaning, changes: seq<Change>, next: nat, i: int, j: int)
    requires Current(view, plan, before, next) && AllCovered(view, plan, before, changes, next) && changes != []
    ensures var last, r := changes[|changes| - 1], RebaseAll(view, plan, changes, next);
      Distance(r, plan, i, j) ==
        if i < 0 || j < 0 || i >= |last.candidates| || j >= |last.candidates| then None
        else if i == j then Some(0.0)
        else Some(ContentDistance(plan, last.meaning(last.candidates[i]), last.meaning(last.candidates[j])))
  {
    ChainAgreesWithFresh(view, plan, before, changes, next);
  }

  /** Distances to any list of indices, with duplicates and the source itself, agree
      with single distances; one bad index fails them all. */
  method DistancesFrom(view: View, plan: Plan, left: int, rights: seq<int>) returns (r: Option<seq<real>>)
    requires KernelsAgree(plan)
    ensures r.Some? <==> InSnapshot(view, left) && forall k :: 0 <= k < |rights| ==> InSnapshot(view, rights[k])
    ensures r.Some? ==> |r.value| == |rights|
    ensures r.Some? ==> forall k :: 0 <= k < |rights| ==> Some(r.value[k]) == Distance(view, plan, left, rights[k])
  {
    if left < 0 || left >= |view.encodings| || exists k :: 0 <= k < |rights| && !InSnapshot(view, rights[k]) {
      return None;
    }
    var positions := OtherPositions(left, rights);
    var source := view.encodings[left].value;
    var rows: seq<nat> := seq(|positions|, k requires 0 <= k < |positions| => rights[positions[k]]);
    var squared: seq<real>;
    if plan.prefersBatched(|view.encodings|) {
      squared := plan.packed(source, Values(view), rows);
    } else {
      squared := plan.many(source, seq(|rows|, k requires 0 <= k < |rows| => view.encodings[rows[k]].value));
    }
    var distances := Scattered(view, plan, left, rights, positions, squared);
    return Some(distances);
  }

  /** Positions of the indices other than the source, in order. */
  method OtherPositions(left: int, rights: seq<int>) returns (positions: seq<nat>)
    ensures forall k :: 0 <= k < |positions| ==> positions[k] < |rights| && rights[positions[k]] != left
    ensures forall j :: 0 <= j < |rights| && rights[j] != left ==> j in positions
  {
    positions := [];
    for j := 0 to |rights|
      invariant forall k :: 0 <= k < |positions| ==> positions[k] < j && rights[positions[k]] != left
      invariant forall i :: 0 <= i < j && rights[i] != left ==> i in positions
    {
      if rights[j] != left {
        positions := positions + [j];
      }
    }
  }

  method Scattered(view: View, plan: Plan, left: int, rights: seq<int>, positions: seq<nat>, squared: seq<real>)
    returns (distances: seq<real>)
    requires InSnapshot(view, left) && forall k :: 0 <= k < |rights| ==> InSnapshot(view, rights[k])
    requires |squared| == |positions|
    requires forall k :: 0 <= k < |positions| ==> positions[k] < |rights| && rights[positions[k]] != left
    requires forall j :: 0 <= j < |rights| && rights[j] != left ==> j in positions
    requires forall k :: 0 <= k < |positions| ==>
      InSnapshot(view, rights[positions[k]])
      && squared[k] == plan.squared(view.encodings[left].value, view.encodings[rights[positions[k]]].value)
    ensures |distances| == |rights|
    ensures forall j :: 0 <= j < |rights| ==> Some(distances[j]) == Distance(view, plan, left, rights[j])
  {
    distances := seq(|rights|, _ => 0.0);
    for k := 0 to |positions|
      invariant |distances| == |rights|
      invariant forall j :: 0 <= j < |rights| && rights[j] == left ==> distances[j] == 0.0
      invariant forall i :: 0 <= i < k ==>
        Some(distances[positions[i]]) == Distance(view, plan, left, rights[positions[i]])
    {
      distances := distances[positions[k] := plan.rootMeanSquare(squared[k])];
    }
    forall j | 0 <= j < |rights| ensures Some(distances[j]) == Distance(view, plan, left, rights[j]) {
      if rights[j] != left {
        var i :| 0 <= i < |positions| && positions[i] == j;
      }
    }
  }

  /** Distances of any candidate to the whole snapshot. */
  method DistancesTo(view: View, plan: Plan, candidate: Content) returns (distances: seq<real>)
    requires KernelsAgree(plan)
    ensures |distances| == |view.encodings|
    ensures forall k :: 0 <= k < |distances| ==>
      distances[k] == plan.rootMeanSquare(plan.squared(plan.encode(candidate), view.encodings[k].value))
  {
    var encoded := plan.encode(candidate);
    var squared: seq<real>;
    if plan.prefersBatched(|view.encodings|) {
      squared := plan.packed(encoded, Values(view), seq(|view.encodings|, k requires 0 <= k < |view.encodings| => k));
    } else {
      squared := plan.many(encoded, Values(view));
    }
    distances := seq(|squared|, k requires 0 <= k < |squared| => plan.rootMeanSquare(squared[k]));
  }
}
