// When an edit succeeds, exactly, and what its leaves are then: in terms of bounds,
// declared choices and permutations.
module StructuredEditsExactly {
  import opened Outcomes
  import opened StructuredSpaces
  import opened StructuredEdits

  // ----- what is declared at a path -----

  /** The scalar space of a declared leaf. */
  function ScalarAt(space: Space, path: Path): (r: Option<Space>)
    decreases space
  {
    match space
    case PermutationSpace(_) => None
    case ArraySpace(element, length) => if Position(path, length) then ScalarAt(element, path[1..]) else None
    case _ => if path == [] then Some(space) else None
  }

  /** The size of the permutation that a declared leaf is a position of. */
  function PermutationAt(space: Space, path: Path): (r: Option<nat>)
    decreases space
  {
    match space
    case PermutationSpace(size) => if |path| == 1 && Position(path, size) then Some(size) else None
    case ArraySpace(element, length) => if Position(path, length) then PermutationAt(element, path[1..]) else None
    case _ => None
  }

  /** Every declared leaf is one or the other. */
  lemma {:induction false} LeafKinds(space: Space, path: Path)
    ensures path in LeafPaths(space) <==> ScalarAt(space, path).Some? || PermutationAt(space, path).Some?
    ensures ScalarAt(space, path).None? || PermutationAt(space, path).None?
    decreases space
  {
    match space
    case PermutationSpace(size) =>
      if |path| == 1 && Position(path, size) {
        assert LeafPaths(space)[path[0].i] == path;
      }
    case ArraySpace(element, length) =>
      InArrayPaths(LeafPaths(element), length, path);
      if Position(path, length) {
        LeafKinds(element, path[1..]);
      }
    case _ =>
  }

  // ----- the condition -----

  /** The new value suits the leaf: within the bounds, equal to a declared choice, or a
      number of the permutation. */
  predicate Suits(space: Space, path: Path, x: Value) {
    match ScalarAt(space, path)
    case Some(IntegerSpace(low, high)) => x.Int? && low <= x.n <= high
    case Some(CategoricalSpace(choices)) => !x.Tuple? && exists c :: c in choices && ScalarsEqual(x, c)
    case _ => PermutationAt(space, path).Some? ==> x.Int? && 0 <= x.n < PermutationAt(space, path).value
  }

  /** Every path is declared, and its value suits, or goes on below a scalar leaf. */
  predicate AllSuit(space: Space, edits: Edits) {
    forall p :: p in edits ==> (p in LeafPaths(space) && Suits(space, p, edits[p])) || BelowScalar(space, p)
  }

  /** Two positions of one permutation. */
  predicate Together(space: Space, p: Path, q: Path)
    decreases space
  {
    match space
    case PermutationSpace(size) => |p| == 1 && |q| == 1 && Position(p, size) && Position(q, size) && p != q
    case ArraySpace(element, length) =>
      Position(p, length) && Position(q, length) && p[0] == q[0] && Together(element, p[1..], q[1..])
    case _ => false
  }

  /** The leaf as the edits want it. */
  function Wanted(space: Space, v: Value, edits: Edits, p: Path): (r: Option<Value>)
    requires Valid(space, v)
  {
    if p in edits then Some(edits[p]) else Leaf(space, v, p)
  }

  /** No permutation gets a number twice. */
  ghost predicate Unrepeated(space: Space, v: Value, edits: Edits)
    requires Valid(space, v)
  {
    forall p, q :: Together(space, p, q) ==> Wanted(space, v, edits, p) != Wanted(space, v, edits, q)
  }

  // ----- it is exact -----

  /** An edit succeeds exactly when every declared path gets a suitable value, every
      other one goes on below a scalar leaf, and no permutation gets a number twice. */
  lemma {:induction false} SucceedsExactly(space: Space, v: Value, edits: Edits)
    requires Valid(space, v)
    ensures Replaced(space, v, edits).Some? <==> AllSuit(space, edits) && Unrepeated(space, v, edits)
    decreases space
  {
    match space
    case PermutationSpace(size) => PermutationExactly(size, v, edits);
    case ArraySpace(element, length) =>
      ArraySucceeds(space, v, edits);
      forall i | 0 <= i < length
        ensures Replaced(element, v.items[i], Below(edits, Index(i))).Some? <==>
          AllSuit(element, Below(edits, Index(i))) && Unrepeated(element, v.items[i], Below(edits, Index(i)))
      {
        SucceedsExactly(element, v.items[i], Below(edits, Index(i)));
      }
      AllSuitBelow(space, edits);
      UnrepeatedBelow(space, v, edits);
    case _ => ScalarExactly(space, v, edits);
  }

  lemma ScalarExactly(space: Space, v: Value, edits: Edits)
    requires space.IntegerSpace? || space.CategoricalSpace?
    requires Valid(space, v)
    ensures Replaced(space, v, edits).Some? <==> AllSuit(space, edits) && Unrepeated(space, v, edits)
  {
    assert AllSuit(space, edits) <==> ([] in edits ==> Suits(space, [], edits[[]])) by {
      assert LeafPaths(space) == [[]];
    }
  }

  lemma PermutationExactly(size: nat, v: Value, edits: Edits)
    requires Valid(PermutationSpace(size), v)
    ensures var space := PermutationSpace(size);
      Replaced(space, v, edits).Some? <==> AllSuit(space, edits) && Unrepeated(space, v, edits)
  {
    var space := PermutationSpace(size);
    forall p | p in edits ensures p in LeafPaths(space) <==> |p| == 1 && Position(p, size) {
      LeafKinds(space, p);
    }
    assert AllSuit(space, edits) <==> PositionEdits(size, edits);
    if PositionEdits(size, edits) {
      EditedDistinct(size, v, edits);
    }
  }

  lemma EditedDistinct(size: nat, v: Value, edits: Edits)
    requires Valid(PermutationSpace(size), v) && PositionEdits(size, edits)
    ensures IsPermutation(EditedItems(v.items, edits), size) <==> Unrepeated(PermutationSpace(size), v, edits)
  {
    var space, items := PermutationSpace(size), EditedItems(v.items, edits);
    forall i | 0 <= i < size ensures Wanted(space, v, edits, [Index(i)]) == Some(items[i]) {
      assert [Index(i)][0] == Index(i);
    }
    if Unrepeated(space, v, edits) {
      forall i, j | 0 <= i < j < size ensures items[i] != items[j] {
        assert [Index(i)][0] != [Index(j)][0];
        assert Together(space, [Index(i)], [Index(j)]);
      }
    }
    if IsPermutation(items, size) {
      forall p: Path, q: Path | Together(space, p, q) ensures Wanted(space, v, edits, p) != Wanted(space, v, edits, q) {
        assert p == [Index(p[0].i)] && q == [Index(q[0].i)];
        assert items[p[0].i] != items[q[0].i];
      }
    }
  }

  lemma ArraySucceeds(space: Space, v: Value, edits: Edits)
    requires space.ArraySpace? && Valid(space, v)
    ensures Replaced(space, v, edits).Some? <==>
      ChildEdits(space.length, edits)
      && forall i :: 0 <= i < space.length ==> Replaced(space.element, v.items[i], Below(edits, Index(i))).Some?
  {
    var children := ReplacedItems(space.element, v.items, edits);
    forall i | 0 <= i < space.length
      ensures children[i].Some? <==> Replaced(space.element, v.items[i], Below(edits, Index(i))).Some?
    {
      NoEdits(space.element, v.items[i]);
    }
    ArrayHasAll(space, v, edits, children);
  }

  lemma ArrayHasAll(space: Space, v: Value, edits: Edits, children: seq<Option<Value>>)
    requires space.ArraySpace? && Valid(space, v) && children == ReplacedItems(space.element, v.items, edits)
    ensures Replaced(space, v, edits).Some? <==>
      ChildEdits(space.length, edits) && forall i :: 0 <= i < |children| ==> children[i].Some?
  {
    if None in children {
      var k :| 0 <= k < |children| && children[k] == None;
    }
    forall i | 0 <= i < |children| && children[i].None? ensures None in children {
      assert children[i] in children;
    }
  }

  lemma AllSuitBelow(space: Space, edits: Edits)
    requires space.ArraySpace?
    ensures AllSuit(space, edits) <==>
      ChildEdits(space.length, edits)
      && forall i :: 0 <= i < space.length ==> AllSuit(space.element, Below(edits, Index(i)))
  {
    var element, length := space.element, space.length;
    if AllSuit(space, edits) {
      forall p | p in edits ensures Position(p, length) {
        LeafKinds(space, p);
      }
      forall i | 0 <= i < length ensures AllSuit(element, Below(edits, Index(i))) {
        forall t | t in Below(edits, Index(i))
          ensures (t in LeafPaths(element) && Suits(element, t, Below(edits, Index(i))[t])) || BelowScalar(element, t)
        {
          SuitsBelow(space, i, t, edits[[Index(i)] + t]);
        }
      }
    }
    if ChildEdits(length, edits) && forall i :: 0 <= i < length ==> AllSuit(element, Below(edits, Index(i))) {
      forall p: Path | p in edits ensures (p in LeafPaths(space) && Suits(space, p, edits[p])) || BelowScalar(space, p) {
        var i, t := p[0].i, p[1..];
        assert p == [Index(i)] + t;
        assert t in Below(edits, Index(i)) && AllSuit(element, Below(edits, Index(i)));
        SuitsBelow(space, i, t, edits[p]);
      }
    }
  }

  lemma SuitsBelow(space: Space, i: nat, t: Path, x: Value)
    requires space.ArraySpace? && i < space.length
    ensures var p := [Index(i)] + t;
      && (p in LeafPaths(space) <==> t in LeafPaths(space.element))
      && (Suits(space, p, x) <==> Suits(space.element, t, x))
      && (BelowScalar(space, p) <==> BelowScalar(space.element, t))
  {
    var p := [Index(i)] + t;
    assert p[0] == Index(i) && p[1..] == t;
    InArrayPaths(LeafPaths(space.element), space.length, p);
  }

  lemma UnrepeatedBelow(space: Space, v: Value, edits: Edits)
    requires space.ArraySpace? && Valid(space, v)
    ensures Unrepeated(space, v, edits) <==>
      forall i :: 0 <= i < space.length ==> Unrepeated(space.element, v.items[i], Below(edits, Index(i)))
  {
    if Unrepeated(space, v, edits) {
      forall i | 0 <= i < space.length ensures Unrepeated(space.element, v.items[i], Below(edits, Index(i))) {
        UnrepeatedChild(space, v, edits, i, Below(edits, Index(i)));
      }
    }
    if forall i :: 0 <= i < space.length ==> Unrepeated(space.element, v.items[i], Below(edits, Index(i))) {
      forall p: Path, q: Path | Together(space, p, q) ensures Wanted(space, v, edits, p) != Wanted(space, v, edits, q) {
        UnrepeatedPair(space, v, edits, p[0].i, p, q);
      }
    }
  }

  lemma UnrepeatedChild(space: Space, v: Value, edits: Edits, i: nat, below: Edits)
    requires space.ArraySpace? && Valid(space, v) && Unrepeated(space, v, edits)
    requires i < space.length && below == Below(edits, Index(i))
    ensures Unrepeated(space.element, v.items[i], below)
  {
    forall s, t | Together(space.element, s, t)
      ensures Wanted(space.element, v.items[i], below, s) != Wanted(space.element, v.items[i], below, t)
    {
      WantedBelow(space, v, edits, i, s, below);
      WantedBelow(space, v, edits, i, t, below);
      assert ([Index(i)] + s)[1..] == s && ([Index(i)] + t)[1..] == t;
      assert Together(space, [Index(i)] + s, [Index(i)] + t);
    }
  }

  lemma UnrepeatedPair(space: Space, v: Value, edits: Edits, i: nat, p: Path, q: Path)
    requires space.ArraySpace? && Valid(space, v) && Together(space, p, q) && p[0] == Index(i) && i < space.length
    requires Unrepeated(space.element, v.items[i], Below(edits, Index(i)))
    ensures Wanted(space, v, edits, p) != Wanted(space, v, edits, q)
  {
    assert p == [Index(i)] + p[1..] && q == [Index(i)] + q[1..];
    WantedBelow(space, v, edits, i, p[1..], Below(edits, Index(i)));
    WantedBelow(space, v, edits, i, q[1..], Below(edits, Index(i)));
  }

  lemma WantedBelow(space: Space, v: Value, edits: Edits, i: nat, t: Path, below: Edits)
    requires space.ArraySpace? && Valid(space, v) && i < space.length && below == Below(edits, Index(i))
    ensures Wanted(space, v, edits, [Index(i)] + t) == Wanted(space.element, v.items[i], below, t)
  {
    var p := [Index(i)] + t;
    assert p[0] == Index(i) && p[1..] == t;
  }

  // ----- equal scalars -----

  /** Numbers are equal when their values are, whatever their types; truth values count
      as one and zero; everything else is equal only to itself. */
  lemma NumbersCompareByValue(n: int, x: real, b: bool, v: Value, w: Value)
    ensures ScalarsEqual(Int(n), Real(x)) <==> x == n as real
    ensures ScalarsEqual(Int(n), Bool(b)) <==> n == if b then 1 else 0
    ensures ScalarsEqual(Real(x), Bool(b)) <==> x == if b then 1.0 else 0.0
    ensures v.Str? || v.Tuple? ==> (ScalarsEqual(v, w) <==> v == w)
    ensures SameType(v, w) ==> (ScalarsEqual(v, w) <==> v == w)
  {
  }

  lemma EqualityIsEquivalence(u: Value, v: Value, w: Value)
    ensures ScalarsEqual(v, v) && (ScalarsEqual(v, w) <==> ScalarsEqual(w, v))
    ensures ScalarsEqual(u, v) && ScalarsEqual(v, w) ==> ScalarsEqual(u, w)
  {
  }

  /** The match is the first equal choice, and among the choices of a declared space
      the only one. */
  lemma {:induction false} MatchesFirst(choices: seq<Value>, v: Value) returns (k: nat)
    ensures k <= |choices| && forall i :: 0 <= i < k ==> !ScalarsEqual(v, choices[i])
    ensures k < |choices| ==> ScalarsEqual(v, choices[k])
    ensures MatchingChoice(choices, v) == if k < |choices| then Some(choices[k]) else None
    ensures Declared(CategoricalSpace(choices)) ==>
      forall i :: 0 <= i < |choices| && ScalarsEqual(v, choices[i]) ==> i == k
    decreases choices
  {
    if choices == [] || ScalarsEqual(v, choices[0]) {
      k := 0;
    } else {
      var rest := MatchesFirst(choices[1..], v);
      k := rest + 1;
      forall i | 0 <= i < k ensures !ScalarsEqual(v, choices[i]) {
        assert i > 0 ==> choices[i] == choices[1..][i - 1];
      }
    }
    if Declared(CategoricalSpace(choices)) {
      forall i | 0 <= i < |choices| && ScalarsEqual(v, choices[i]) ensures i == k {
        EqualityIsEquivalence(choices[k], v, choices[i]);
        EqualityIsEquivalence(choices[i], v, choices[k]);
      }
    }
  }

  // ----- what is read back -----

  /** Canonical: one of the declared choices, or the value itself. */
  predicate Canonized(scalar: Option<Space>, x: Value, y: Value) {
    if scalar.Some? && scalar.value.CategoricalSpace? then y in scalar.value.choices else y == x
  }

  /** The leaf reads back as what was written, up to the type of an equal number: the
      declared choice, or the value itself. */
  lemma ReadsBackEdit(space: Space, v: Value, edits: Edits, w: Value, path: Path)
    requires Declared(space) && Valid(space, v) && Replaced(space, v, edits) == Some(w)
    requires path in LeafPaths(space) && path in edits
    ensures Valid(space, w) && Leaf(space, w, path).Some?
    ensures var x, y := edits[path], Leaf(space, w, path).value;
      ScalarsEqual(x, y) && Canonized(ScalarAt(space, path), x, y)
  {
    ReadAfterReplace(space, v, edits, w, path);
    LeafPathsReadable(space, w, path);
    CanonicalEquals(space, path, edits[path]);
  }

  lemma {:induction false} CanonicalEquals(space: Space, path: Path, x: Value)
    requires path in LeafPaths(space) && CanonicalAt(space, path, x).Some?
    ensures var y := CanonicalAt(space, path, x).value;
      ScalarsEqual(x, y) && Canonized(ScalarAt(space, path), x, y)
    decreases space
  {
    match space
    case PermutationSpace(_) =>
    case ArraySpace(element, length) =>
      InArrayPaths(LeafPaths(element), length, path);
      CanonicalEquals(element, path[1..], x);
    case _ =>
  }

  // ----- what is valid -----

  predicate Proper(space: Space, v: Value) {
    match space
    case IntegerSpace(low, high) => v.Int? && low <= v.n <= high
    case CategoricalSpace(choices) => v in choices
    case PermutationSpace(size) =>
      v.Tuple? && |v.items| == size && (forall i :: 0 <= i < size ==> v.items[i].Int? && 0 <= v.items[i].n < size)
      && forall n :: 0 <= n < size ==> Int(n) in v.items
    case _ => true
  }

  /** A valid leaf is within the bounds, a declared choice, or an arrangement of all
      the numbers below the size. */
  lemma ValidLeafExactly(space: Space, v: Value)
    requires Declared(space) && !space.ArraySpace?
    ensures Valid(space, v) <==> Proper(space, v)
  {
    match space
    case CategoricalSpace(choices) =>
      if v in choices {
        ChoiceMatchesItself(choices, v);
      }
    case PermutationSpace(size) =>
      if v.Tuple? && |v.items| == size && forall i :: 0 <= i < size ==> v.items[i].Int? && 0 <= v.items[i].n < size {
        DistinctIsOnto(v.items, size);
      }
    case _ =>
  }

  function Numbers(items: seq<Value>): (r: seq<nat>)
    requires forall i :: 0 <= i < |items| ==> items[i].Int? && items[i].n >= 0
    ensures |r| == |items| && forall i :: 0 <= i < |r| ==> items[i] == Int(r[i])
  {
    seq(|items|, i requires 0 <= i < |items| => items[i].n)
  }

  /** Of `size` numbers below `size`, none is repeated exactly when none is missing. */
  lemma DistinctIsOnto(items: seq<Value>, size: nat)
    requires |items| == size && forall i :: 0 <= i < size ==> items[i].Int? && 0 <= items[i].n < size
    ensures (forall i, j :: 0 <= i < j < size ==> items[i] != items[j]) <==> forall n :: 0 <= n < size ==> Int(n) in items
  {
    var numbers := Numbers(items);
    forall n: nat ensures Int(n) in items <==> n in Elements(numbers) {
      if Int(n) in items {
        var k :| 0 <= k < |items| && items[k] == Int(n);
        assert numbers[k] == n;
      }
    }
    BoundedElements(Elements(numbers), size);
    if forall i, j :: 0 <= i < j < size ==> items[i] != items[j] {
      NoDuplicatesSize(numbers);
    }
    if forall n :: 0 <= n < size ==> Int(n) in items {
      AllBelowSize(Elements(numbers), size);
      OntoIsDistinct(numbers);
    }
  }

  lemma {:induction false} AllBelowSize(s: set<nat>, n: nat)
    requires forall i :: 0 <= i < n ==> i in s
    ensures |s| >= n
  {
    if n > 0 {
      AllBelowSize(s - {n - 1}, n - 1);
    }
  }

  /** As many elements as places: nothing is repeated. */
  lemma {:induction false} OntoIsDistinct(s: seq<nat>)
    requires |Elements(s)| >= |s|
    ensures NoDuplicates(s)
  {
    if s != [] {
      var front, last := s[..|s| - 1], s[|s| - 1];
      assert s == front + [last];
      assert Elements(s) == Elements(front) + {last};
      ElementsAtMost(front);
      OntoIsDistinct(front);
      assert last !in Elements(front);
    }
  }

  lemma {:induction false} ElementsAtMost(s: seq<nat>)
    ensures |Elements(s)| <= |s|
  {
    if s != [] {
      ElementsAtMost(s[..|s| - 1]);
      assert s == s[..|s| - 1] + [s[|s| - 1]];
      assert Elements(s) == Elements(s[..|s| - 1]) + {s[|s| - 1]};
    }
  }
}
