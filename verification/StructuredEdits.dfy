// The laws of nested leaf edits: what was written is read back and nothing else
// changes, the result is valid, a second edit overrides the first, disjoint edits
// commute, and validation on the way down makes no difference.
module StructuredEdits {
  import opened Outcomes
  import opened StructuredSpaces

  // ----- declared leaves -----

  lemma {:induction false} InArrayPaths(childPaths: seq<Path>, length: nat, path: Path)
    ensures path in ArrayPaths(childPaths, length) <==> Position(path, length) && path[1..] in childPaths
  {
    if length > 0 {
      InArrayPaths(childPaths, length - 1, path);
      var last := Prefixed(Index(length - 1), childPaths);
      if path in last {
        var k :| 0 <= k < |last| && last[k] == path;
        assert path[1..] == childPaths[k];
      }
      if Position(path, length) && path[0].i == length - 1 && path[1..] in childPaths {
        var k :| 0 <= k < |childPaths| && childPaths[k] == path[1..];
        assert last[k] == path;
      }
    }
  }

  /** The declared leaf paths are exactly the ones that can be read. */
  lemma {:induction false} LeafPathsReadable(space: Space, v: Value, path: Path)
    requires Valid(space, v)
    ensures path in LeafPaths(space) <==> Leaf(space, v, path).Some?
    decreases space
  {
    match space
    case PermutationSpace(size) =>
      if |path| == 1 && Position(path, size) {
        assert LeafPaths(space)[path[0].i] == path;
      }
    case ArraySpace(element, length) =>
      InArrayPaths(LeafPaths(element), length, path);
      if Position(path, length) {
        LeafPathsReadable(element, v.items[path[0].i], path[1..]);
      }
    case _ =>
  }

  ghost predicate Distinct(paths: seq<Path>) {
    forall i, j :: 0 <= i < j < |paths| ==> paths[i] != paths[j]
  }

  lemma {:induction false} ArrayPathsDistinct(childPaths: seq<Path>, length: nat)
    requires Distinct(childPaths)
    ensures Distinct(ArrayPaths(childPaths, length))
  {
    if length > 0 {
      ArrayPathsDistinct(childPaths, length - 1);
      var front, last := ArrayPaths(childPaths, length - 1), Prefixed(Index(length - 1), childPaths);
      forall i, j | 0 <= i < j < |front + last| ensures (front + last)[i] != (front + last)[j] {
        if i < |front| <= j {
          InArrayPaths(childPaths, length - 1, front[i]);
          assert front[i] in front;
        } else if |front| <= i {
          assert last[i - |front|][1..] == childPaths[i - |front|];
          assert last[j - |front|][1..] == childPaths[j - |front|];
        }
      }
    }
  }

  /** No leaf is declared twice. */
  lemma {:induction false} LeafPathsDistinct(space: Space)
    ensures Distinct(LeafPaths(space))
    decreases space
  {
    match space
    case ArraySpace(element, length) =>
      LeafPathsDistinct(element);
      ArrayPathsDistinct(LeafPaths(element), length);
    case PermutationSpace(size) =>
      assert forall i :: 0 <= i < size ==> LeafPaths(space)[i] == [Index(i)];
    case _ =>
  }

  /** Candidates that agree on every declared leaf are equal. */
  lemma {:induction false} LeavesDetermine(space: Space, v: Value, w: Value)
    requires Valid(space, v) && Valid(space, w)
    requires forall p :: p in LeafPaths(space) ==> Leaf(space, v, p) == Leaf(space, w, p)
    ensures v == w
    decreases space
  {
    match space
    case PermutationSpace(size) =>
      forall i | 0 <= i < size ensures v.items[i] == w.items[i] {
        assert LeafPaths(space)[i] == [Index(i)];
        assert Leaf(space, v, [Index(i)]) == Leaf(space, w, [Index(i)]);
      }
      assert v.items == w.items;
    case ArraySpace(element, length) =>
      forall i | 0 <= i < length ensures v.items[i] == w.items[i] {
        forall p | p in LeafPaths(element) ensures Leaf(element, v.items[i], p) == Leaf(element, w.items[i], p) {
          InArrayPaths(LeafPaths(element), length, [Index(i)] + p);
          assert ([Index(i)] + p)[1..] == p;
          assert Leaf(space, v, [Index(i)] + p) == Leaf(space, w, [Index(i)] + p);
        }
        LeavesDetermine(element, v.items[i], w.items[i]);
      }
      assert v.items == w.items;
    case _ =>
      assert Leaf(space, v, []) == Leaf(space, w, []);
  }

  // ----- replacement in an array, child by child -----

  /** What an array replacement gives, and from which children. */
  lemma ArrayReplaced(space: Space, v: Value, edits: Edits, w: Value)
    requires space.ArraySpace? && Valid(space, v) && Replaced(space, v, edits) == Some(w)
    ensures w.Tuple? && |w.items| == space.length && ChildEdits(space.length, edits)
    ensures forall i :: 0 <= i < space.length ==> ChildBecomes(space.element, v.items[i], Below(edits, Index(i)), w.items[i])
  {
    var children := ReplacedItems(space.element, v.items, edits);
    forall i | 0 <= i < space.length
      ensures ChildBecomes(space.element, v.items[i], Below(edits, Index(i)), w.items[i])
    {
      assert children[i] in children;
    }
  }

  ghost predicate ChildBecomes(element: Space, child: Value, edits: Edits, after: Value)
    requires Valid(element, child)
  {
    if edits == map[] then after == child else Replaced(element, child, edits) == Some(after)
  }

  lemma ArrayReplacedBy(space: Space, v: Value, edits: Edits, items: seq<Value>)
    requires space.ArraySpace? && Valid(space, v) && |items| == space.length && ChildEdits(space.length, edits)
    requires forall i :: 0 <= i < space.length ==> ChildBecomes(space.element, v.items[i], Below(edits, Index(i)), items[i])
    ensures Replaced(space, v, edits) == Some(Tuple(items))
  {
    var children := ReplacedItems(space.element, v.items, edits);
    forall i | 0 <= i < space.length ensures children[i] == Some(items[i]) {
      assert ChildBecomes(space.element, v.items[i], Below(edits, Index(i)), items[i]);
    }
    assert None !in children;
    assert Replaced(space, v, edits).value.items == items;
  }

  /** Editing nothing changes nothing. */
  lemma {:induction false} NoEdits(space: Space, v: Value)
    requires Valid(space, v)
    ensures Replaced(space, v, map[]) == Some(v)
  {
    match space
    case PermutationSpace(size) =>
      assert EditedItems(v.items, map[]) == v.items;
    case ArraySpace(element, length) =>
      forall i | 0 <= i < length ensures ChildBecomes(element, v.items[i], Below(map[], Index(i)), v.items[i]) {
        assert Below(map[], Index(i)) == map[];
      }
      ArrayReplacedBy(space, v, map[], v.items);
    case _ =>
  }

  // ----- the result is valid -----

  lemma {:induction false} ChoiceMatchesItself(choices: seq<Value>, c: Value)
    requires c in choices && !c.Tuple?
    requires forall i, j :: 0 <= i < j < |choices| ==> !ScalarsEqual(choices[i], choices[j])
    ensures MatchingChoice(choices, c) == Some(c)
  {
    if choices[0] != c {
      assert c in choices[1..];
      var k :| 0 <= k < |choices[1..]| && choices[1..][k] == c;
      assert choices[k + 1] == c;
      assert !ScalarsEqual(choices[0], choices[k + 1]);
      ChoiceMatchesItself(choices[1..], c);
    }
  }

  /** A replacement that succeeds gives a valid candidate. */
  lemma {:induction false} ReplacedIsValid(space: Space, v: Value, edits: Edits, w: Value)
    requires Declared(space) && Valid(space, v) && Replaced(space, v, edits) == Some(w)
    ensures Valid(space, w)
    decreases space
  {
    match space
    case CategoricalSpace(choices) =>
      if [] in edits {
        ChoiceMatchesItself(choices, w);
      }
    case ArraySpace(element, length) =>
      ArrayReplaced(space, v, edits, w);
      forall i | 0 <= i < length ensures Valid(element, w.items[i]) {
        if Below(edits, Index(i)) != map[] {
          assert ChildBecomes(element, v.items[i], Below(edits, Index(i)), w.items[i]);
          ReplacedIsValid(element, v.items[i], Below(edits, Index(i)), w.items[i]);
        } else {
          assert ChildBecomes(element, v.items[i], map[], w.items[i]);
        }
      }
    case _ =>
  }

  // ----- put and get -----

  /** What the leaf at a declared path makes of a replacement value. */
  function CanonicalAt(space: Space, path: Path, x: Value): (r: Option<Value>)
    decreases space
  {
    match space
    case PermutationSpace(size) => Some(x)
    case ArraySpace(element, _) => if path == [] then None else CanonicalAt(element, path[1..], x)
    case _ => Canonical(space, x)
  }

  /** Reading a declared leaf after a replacement gives the canonical new value if
      the leaf was edited, and the old value otherwise. */
  lemma {:induction false} ReadAfterReplace(space: Space, v: Value, edits: Edits, w: Value, path: Path)
    requires Declared(space) && Valid(space, v) && Replaced(space, v, edits) == Some(w)
    requires path in LeafPaths(space)
    ensures Valid(space, w)
    ensures Leaf(space, w, path) == if path in edits then CanonicalAt(space, path, edits[path]) else Leaf(space, v, path)
    decreases space, 1
  {
    ReplacedIsValid(space, v, edits, w);
    match space
    case PermutationSpace(size) =>
      ReadPosition(size, v, edits, w, path);
    case ArraySpace(element, length) =>
      ArrayReplaced(space, v, edits, w);
      InArrayPaths(LeafPaths(element), length, path);
      ReadChildAfterReplace(space, v, edits, w, path[0].i, path[1..]);
      assert path == [Index(path[0].i)] + path[1..];
    case _ =>
  }

  lemma ReadPosition(size: nat, v: Value, edits: Edits, w: Value, path: Path)
    requires var space := PermutationSpace(size);
      Valid(space, v) && Valid(space, w) && Replaced(space, v, edits) == Some(w) && path in LeafPaths(space)
    ensures Leaf(PermutationSpace(size), w, path) ==
      if path in edits then Some(edits[path]) else Leaf(PermutationSpace(size), v, path)
  {
    var k :| 0 <= k < size && path == LeafPaths(PermutationSpace(size))[k];
    assert path == [Index(k)];
  }

  lemma LeafBelow(space: Space, v: Value, i: nat, tail: Path, x: Value)
    requires space.ArraySpace? && Valid(space, v) && i < space.length
    ensures Leaf(space, v, [Index(i)] + tail) == Leaf(space.element, v.items[i], tail)
    ensures CanonicalAt(space, [Index(i)] + tail, x) == CanonicalAt(space.element, tail, x)
  {
    assert ([Index(i)] + tail)[1..] == tail;
  }

  lemma ReadChildAfterReplace(space: Space, v: Value, edits: Edits, w: Value, i: nat, tail: Path)
    requires Declared(space) && space.ArraySpace? && Valid(space, v) && Valid(space, w)
    requires i < space.length && tail in LeafPaths(space.element)
    requires ChildBecomes(space.element, v.items[i], Below(edits, Index(i)), w.items[i])
    ensures var path := [Index(i)] + tail;
      Leaf(space, w, path) == if path in edits then CanonicalAt(space, path, edits[path]) else Leaf(space, v, path)
    decreases space, 0
  {
    var path, below := [Index(i)] + tail, Below(edits, Index(i));
    LeafBelow(space, v, i, tail, if path in edits then edits[path] else v);
    LeafBelow(space, w, i, tail, v);
    assert path in edits <==> tail in below;
    if below != map[] {
      ReadAfterReplace(space.element, v.items[i], below, w.items[i], tail);
    }
  }

  // ----- a second edit overrides the first -----

  lemma BelowMerges(first: Edits, second: Edits, head: Segment)
    ensures Below(first + second, head) == Below(first, head) + Below(second, head)
  {
  }

  /** Two replacements in a row are one replacement with the merged edits. */
  lemma {:induction false} ReplaceTwice(space: Space, v: Value, first: Edits, a: Value, second: Edits, b: Value)
    requires Declared(space) && Valid(space, v) && Replaced(space, v, first) == Some(a)
    requires Valid(space, a) && Replaced(space, a, second) == Some(b)
    ensures Replaced(space, v, first + second) == Some(b)
    decreases space, 0
  {
    match space
    case PermutationSpace(size) =>
      assert EditedItems(v.items, first + second) == EditedItems(a.items, second);
    case ArraySpace(element, length) =>
      ArrayReplaced(space, v, first, a);
      ArrayReplaced(space, a, second, b);
      forall i | 0 <= i < length
        ensures ChildBecomes(element, v.items[i], Below(first + second, Index(i)), b.items[i])
      {
        BelowMerges(first, second, Index(i));
        ChildTwice(element, v.items[i], Below(first, Index(i)), a.items[i], Below(second, Index(i)), b.items[i]);
      }
      ArrayReplacedBy(space, v, first + second, b.items);
    case _ =>
  }

  lemma ChildTwice(element: Space, v: Value, first: Edits, a: Value, second: Edits, b: Value)
    requires Declared(element) && Valid(element, v) && Valid(element, a)
    requires ChildBecomes(element, v, first, a) && ChildBecomes(element, a, second, b)
    ensures ChildBecomes(element, v, first + second, b)
    decreases element, 1
  {
    if first == map[] {
      assert first + second == second;
    } else if second == map[] {
      assert first + second == first;
    } else {
      ReplaceTwice(element, v, first, a, second, b);
      var p :| p in first;
      assert p in first + second;
    }
  }

  /** Disjoint edits commute when each order succeeds. */
  lemma DisjointEditsCommute(space: Space, v: Value, first: Edits, second: Edits, a: Value, ab: Value, b: Value, ba: Value)
    requires Declared(space) && Valid(space, v) && first.Keys !! second.Keys
    requires Replaced(space, v, first) == Some(a) && Valid(space, a) && Replaced(space, a, second) == Some(ab)
    requires Replaced(space, v, second) == Some(b) && Valid(space, b) && Replaced(space, b, first) == Some(ba)
    ensures ab == ba
  {
    ReplaceTwice(space, v, first, a, second, ab);
    ReplaceTwice(space, v, second, b, first, ba);
    DisjointMerge(first, second);
  }

  lemma DisjointMerge(first: Edits, second: Edits)
    requires first.Keys !! second.Keys
    ensures first + second == second + first
  {
  }

  /** Writing back what is there changes nothing. */
  lemma WriteBack(space: Space, v: Value, edits: Edits, w: Value)
    requires Declared(space) && Valid(space, v) && Replaced(space, v, edits) == Some(w)
    requires forall p :: p in edits && p in LeafPaths(space) ==> Leaf(space, v, p) == CanonicalAt(space, p, edits[p])
    ensures w == v
  {
    ReplacedIsValid(space, v, edits, w);
    forall p | p in LeafPaths(space) ensures Leaf(space, w, p) == Leaf(space, v, p) {
      ReadAfterReplace(space, v, edits, w, p);
    }
    LeavesDetermine(space, w, v);
  }

  // ----- undeclared paths -----

  /** Edits of undeclared paths either make the replacement fail or have no effect:
      the result depends on the declared paths alone. */
  lemma UndeclaredEditsIgnored(space: Space, v: Value, edits: Edits, other: Edits, w: Value, x: Value)
    requires Declared(space) && Valid(space, v)
    requires Replaced(space, v, edits) == Some(w) && Replaced(space, v, other) == Some(x)
    requires forall p :: p in LeafPaths(space) ==>
      (p in edits <==> p in other) && (p in edits ==> edits[p] == other[p])
    ensures w == x
  {
    ReplacedIsValid(space, v, edits, w);
    ReplacedIsValid(space, v, other, x);
    forall p | p in LeafPaths(space) ensures Leaf(space, w, p) == Leaf(space, x, p) {
      ReadAfterReplace(space, v, edits, w, p);
      ReadAfterReplace(space, v, other, x, p);
    }
    LeavesDetermine(space, w, x);
  }

  /** The path goes on below a scalar leaf: positions of arrays lead to the leaf, and
      something follows. */
  predicate BelowScalar(space: Space, path: Path)
    decreases space
  {
    match space
    case PermutationSpace(size) => false
    case ArraySpace(element, length) => Position(path, length) && BelowScalar(element, path[1..])
    case _ => path != []
  }

  /** Arrays and permutations refuse undeclared paths: a replacement succeeds only if
      each of its paths is declared or goes on below a scalar leaf. */
  lemma {:induction false} EditsExtendLeaves(space: Space, v: Value, edits: Edits, path: Path)
    requires Valid(space, v) && Replaced(space, v, edits).Some? && path in edits
    ensures path in LeafPaths(space) || BelowScalar(space, path)
    decreases space
  {
    match space
    case PermutationSpace(size) =>
      assert LeafPaths(space)[path[0].i] == path;
    case ArraySpace(element, length) =>
      var w := Replaced(space, v, edits).value;
      ArrayReplaced(space, v, edits, w);
      var i, tail := path[0].i, path[1..];
      assert path == [Index(i)] + tail;
      assert tail in Below(edits, Index(i));
      assert ChildBecomes(element, v.items[i], Below(edits, Index(i)), w.items[i]);
      EditsExtendLeaves(element, v.items[i], Below(edits, Index(i)), tail);
      InArrayPaths(LeafPaths(element), length, path);
    case _ =>
  }

  /** Such a path has a declared one strictly before it, and is not declared itself. */
  lemma {:induction false} BelowScalarExtendsLeaf(space: Space, path: Path) returns (k: nat)
    requires BelowScalar(space, path)
    ensures k < |path| && path[..k] in LeafPaths(space) && path !in LeafPaths(space)
    decreases space
  {
    if space.ArraySpace? {
      var below := BelowScalarExtendsLeaf(space.element, path[1..]);
      k := below + 1;
      assert path[..k][1..] == path[1..][..below];
      InArrayPaths(LeafPaths(space.element), space.length, path[..k]);
      InArrayPaths(LeafPaths(space.element), space.length, path);
    } else {
      k := 0;
      assert path[..0] == [];
    }
  }

  /** An edit below a scalar leaf is neither refused nor of any effect. */
  lemma {:induction false} EditBelowScalarIsLost(space: Space, v: Value, edits: Edits, path: Path, x: Value)
    requires Valid(space, v) && BelowScalar(space, path)
    ensures Replaced(space, v, edits[path := x]) == Replaced(space, v, edits)
    decreases space
  {
    if space.ArraySpace? {
      var i, below := path[0].i, Below(edits, path[0]);
      EditBelowScalarIsLost(space.element, v.items[i], below, path[1..], x);
      NoEdits(space.element, v.items[i]);
      MoreEdits(space, v, edits, path, x);
    }
  }

  /** An array takes one more edit as its child at the head of the path does. */
  lemma MoreEdits(space: Space, v: Value, edits: Edits, path: Path, x: Value)
    requires space.ArraySpace? && Valid(space, v) && Position(path, space.length)
    requires var child, below := v.items[path[0].i], Below(edits, path[0]);
      && Replaced(space.element, child, below[path[1..] := x]) == Replaced(space.element, child, below)
      && Replaced(space.element, child, map[]) == Some(child)
    ensures Replaced(space, v, edits[path := x]) == Replaced(space, v, edits)
  {
    var more := edits[path := x];
    var before, after := ReplacedItems(space.element, v.items, edits), ReplacedItems(space.element, v.items, more);
    forall i | 0 <= i < space.length ensures after[i] == before[i] {
      if path[0] == Index(i) {
        OneMoreEditBelow(edits, path, x);
      } else {
        SameEditsBelow(edits, path, x, Index(i));
      }
    }
    assert after == before;
    SameReplacement(space, v, edits, more);
  }

  lemma SameReplacement(space: Space, v: Value, edits: Edits, more: Edits)
    requires space.ArraySpace? && Valid(space, v)
    requires ChildEdits(space.length, edits) <==> ChildEdits(space.length, more)
    requires ReplacedItems(space.element, v.items, edits) == ReplacedItems(space.element, v.items, more)
    ensures Replaced(space, v, more) == Replaced(space, v, edits)
  {
    if Replaced(space, v, edits).Some? {
      assert Replaced(space, v, more).value.items == Replaced(space, v, edits).value.items;
    }
  }

  lemma OneMoreEditBelow(edits: Edits, path: Path, x: Value)
    requires path != []
    ensures Below(edits[path := x], path[0]) == Below(edits, path[0])[path[1..] := x]
  {
    var head, tail := path[0], path[1..];
    var more, longer := Below(edits[path := x], head), Below(edits, head)[tail := x];
    forall t: Path ensures (t in more <==> t in longer) && (t in more ==> more[t] == longer[t]) {
      HeadAndTail(path, head, t);
    }
    SameEdits(more, longer);
  }

  lemma SameEditsBelow(edits: Edits, path: Path, x: Value, head: Segment)
    requires path != [] && path[0] != head
    ensures Below(edits[path := x], head) == Below(edits, head)
  {
    forall t: Path ensures [head] + t != path {
      HeadAndTail(path, head, t);
    }
    SameEdits(Below(edits[path := x], head), Below(edits, head));
  }

  lemma HeadAndTail(path: Path, head: Segment, t: Path)
    requires path != []
    ensures [head] + t == path <==> path[0] == head && path[1..] == t
  {
    assert path == [path[0]] + path[1..];
    assert ([head] + t)[0] == head && ([head] + t)[1..] == t;
  }

  lemma SameEdits(a: Edits, b: Edits)
    requires forall t :: t in a <==> t in b
    requires forall t :: t in a ==> a[t] == b[t]
    ensures a == b
  {
    assert a.Keys == b.Keys;
  }

  /** Which undeclared paths are refused: exactly those that do not go on below a
      scalar leaf. */
  lemma UndeclaredRefusedExactly(space: Space, v: Value, path: Path, x: Value)
    requires Valid(space, v) && path !in LeafPaths(space)
    ensures Replaced(space, v, map[path := x]).None? <==> !BelowScalar(space, path)
  {
    if BelowScalar(space, path) {
      EditBelowScalarIsLost(space, v, map[], path, x);
      NoEdits(space, v);
      assert map[][path := x] == map[path := x];
    } else if Replaced(space, v, map[path := x]).Some? {
      EditsExtendLeaves(space, v, map[path := x], path);
    }
  }

  // ----- validation on the way down -----

  /** For a valid candidate the path that validates at every level and the one that
      does not give the same. */
  lemma {:induction false} CheckedAgrees(space: Space, v: Value, edits: Edits)
    requires Valid(space, v)
    ensures CheckedReplaced(space, v, edits) == Replaced(space, v, edits)
    decreases space
  {
    match space
    case ArraySpace(element, length) =>
      forall i | 0 <= i < length
        ensures CheckedItems(element, v.items, edits)[i] == ReplacedItems(element, v.items, edits)[i]
      {
        CheckedAgrees(element, v.items[i], Below(edits, Index(i)));
      }
      assert CheckedItems(element, v.items, edits) == ReplacedItems(element, v.items, edits);
    case _ =>
  }
}
