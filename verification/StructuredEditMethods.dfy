// The loops behind structured edits: grouping edits by child, normalizing a
// permutation with its table of seen values, listing leaf paths, and replacing
// children in a copy of the list (src/variopt/spaces/composites/adapters.py,
// src/variopt/spaces/permutation.py, src/variopt/spaces/composites/array_space.py).
module StructuredEditMethods {
  import opened Outcomes
  import opened StructuredSpaces
  import opened StructuredEdits

  /** The edits of a set of paths. */
  ghost function Restricted(edits: Edits, paths: set<Path>): (r: Edits)
    requires paths <= edits.Keys
  {
    map p | p in paths :: edits[p]
  }

  ghost predicate Groups(grouped: map<Segment, Edits>, edits: Edits) {
    && (forall h :: h in grouped ==> grouped[h] == Below(edits, h) && grouped[h] != map[])
    && (forall p :: p in edits ==> p != [] && p[0] in grouped)
  }

  /** The edits seen so far, found under their heads and tails. */
  ghost predicate Filed(grouped: map<Segment, Edits>, edits: Edits, done: set<Path>) {
    && done <= edits.Keys
    && (forall p: Path :: p in done <==> p != [] && p[0] in grouped && p[1..] in grouped[p[0]])
    && (forall p :: p in done ==> grouped[p[0]][p[1..]] == edits[p])
    && (forall h :: h in grouped ==> grouped[h] != map[])
  }

  /** Grouping by first segment loses nothing and makes no empty group; it fails
      exactly when some path has no segment. */
  method GroupChildReplacements(edits: Edits) returns (r: Option<map<Segment, Edits>>)
    ensures r.None? <==> [] in edits
    ensures r.Some? ==> Groups(r.value, edits)
  {
    var grouped: map<Segment, Edits> := map[];
    var rest := edits.Keys;
    ghost var done: set<Path> := {};
    while rest != {}
      invariant rest + done == edits.Keys && rest !! done && [] !in done
      invariant Filed(grouped, edits, done)
      decreases rest
    {
      var path: Path :| path in rest;
      if |path| == 0 {
        return None;
      }
      var head, tail := path[0], path[1..];
      ghost var before := grouped;
      if head !in grouped {
        grouped := grouped[head := map[]];
      }
      grouped := grouped[head := grouped[head][tail := edits[path]]];
      FileOne(before, edits, done, path, grouped);
      rest, done := rest - {path}, done + {path};
    }
    FiledAll(grouped, edits);
    return Some(grouped);
  }

  lemma FileOne(before: map<Segment, Edits>, edits: Edits, done: set<Path>, path: Path, after: map<Segment, Edits>)
    requires path in edits && path !in done && path != [] && Filed(before, edits, done)
    requires var group := if path[0] in before then before[path[0]] else map[];
      after == before[path[0] := group[path[1..] := edits[path]]]
    ensures Filed(after, edits, done + {path})
  {
    forall p: Path | p != [] && p[0] == path[0] && p[1..] == path[1..] ensures p == path {
      assert p == [p[0]] + p[1..] && path == [path[0]] + path[1..];
    }
    assert path[1..] in after[path[0]];
  }

  lemma FiledAll(grouped: map<Segment, Edits>, edits: Edits)
    requires Filed(grouped, edits, edits.Keys)
    ensures Groups(grouped, edits)
  {
    forall h | h in grouped ensures grouped[h] == Below(edits, h) {
      forall t ensures t in grouped[h] <==> [h] + t in edits {
        assert ([h] + t)[0] == h && ([h] + t)[1..] == t;
      }
      forall t | t in grouped[h] ensures grouped[h][t] == Below(edits, h)[t] {
        assert ([h] + t)[0] == h && ([h] + t)[1..] == t;
      }
    }
  }

  /** The permutation itself when every entry is a new number below `size`. */
  method NormalizePermutationValues(values: seq<Value>, size: nat) returns (r: Option<seq<Value>>)
    ensures r == if IsPermutation(values, size) then Some(values) else None
  {
    if |values| != size {
      return None;
    }
    var normalized: seq<Value> := [];
    var seen := new bool[size](_ => false);
    for k := 0 to size
      invariant normalized == values[..k]
      invariant forall i :: 0 <= i < k ==> values[i].Int? && 0 <= values[i].n < size
      invariant forall x :: 0 <= x < size ==> (seen[x] <==> exists i :: 0 <= i < k && values[i] == Int(x))
      invariant forall i, j :: 0 <= i < j < k ==> values[i] != values[j]
    {
      var raw := values[k];
      if !raw.Int? || raw.n < 0 || raw.n >= size {
        return None;
      }
      if seen[raw.n] {
        var i :| 0 <= i < k && values[i] == Int(raw.n);
        assert values[i] == values[k];
        return None;
      }
      seen[raw.n] := true;
      normalized := normalized + [raw];
      assert values[k] == Int(raw.n);
    }
    assert values[..size] == values;
    return Some(normalized);
  }

  /** Leaf paths, appended index by index. */
  method ListLeafPaths(space: Space) returns (paths: seq<Path>)
    ensures paths == LeafPaths(space)
    decreases space
  {
    match space
    case ArraySpace(element, length) =>
      paths := [];
      var children := ListLeafPaths(element);
      for index := 0 to length
        invariant paths == ArrayPaths(children, index)
      {
        ghost var before := paths;
        for c := 0 to |children|
          invariant paths == before + Prefixed(Index(index), children)[..c]
        {
          paths := paths + [[Index(index)] + children[c]];
        }
        assert Prefixed(Index(index), children)[..|children|] == Prefixed(Index(index), children);
      }
    case PermutationSpace(size) =>
      paths := seq(size, i => [Index(i)]);
    case _ =>
      paths := [[]];
  }

  /** Replaces the edited children in a copy of the list, in order. */
  method ReplaceLeafValues(space: Space, v: Value, edits: Edits) returns (r: Option<Value>)
    requires Valid(space, v)
    ensures r == Replaced(space, v, edits)
    decreases space
  {
    match space
    case ArraySpace(element, length) =>
      var grouped := GroupChildReplacements(edits);
      if grouped.None? {
        return None;
      }
      if grouped.value == map[] {
        assert edits == map[];
        NoEdits(space, v);
        return Some(v);
      }
      var valid := SegmentsValid(grouped.value.Keys, length);
      GroupsValid(grouped.value, edits, length);
      if !valid {
        return None;
      }
      r := ReplaceChildren(space, v, edits, grouped.value);
    case PermutationSpace(size) =>
      r := ReplacePositions(size, v, edits);
    case _ =>
      if [] !in edits {
        return Some(v);
      }
      r := Canonical(space, edits[[]]);
  }

  predicate ValidSegment(segment: Segment, length: nat) {
    segment.Index? && 0 <= segment.i < length
  }

  method SegmentsValid(segments: set<Segment>, length: nat) returns (valid: bool)
    ensures valid <==> forall h :: h in segments ==> ValidSegment(h, length)
  {
    var rest := segments;
    while rest != {}
      invariant rest <= segments
      invariant forall h :: h in segments && h !in rest ==> ValidSegment(h, length)
      decreases rest
    {
      var segment: Segment :| segment in rest;
      if !ValidSegment(segment, length) {
        return false;
      }
      rest := rest - {segment};
    }
    return true;
  }

  lemma GroupsValid(grouped: map<Segment, Edits>, edits: Edits, length: nat)
    requires Groups(grouped, edits)
    ensures ChildEdits(length, edits) <==> forall h :: h in grouped ==> ValidSegment(h, length)
  {
    forall h | h in grouped ensures exists p :: p in edits && p != [] && p[0] == h {
      var t :| t in grouped[h];
      assert [h] + t in edits && ([h] + t)[0] == h;
    }
  }

  method ReplaceChildren(space: Space, v: Value, edits: Edits, grouped: map<Segment, Edits>) returns (r: Option<Value>)
    requires space.ArraySpace? && Valid(space, v) && Groups(grouped, edits) && ChildEdits(space.length, edits)
    ensures r == Replaced(space, v, edits)
    decreases space, 1
  {
    var replaced := v.items;
    ghost var children := ReplacedItems(space.element, v.items, edits);
    for index := 0 to space.length
      invariant |replaced| == space.length
      invariant forall i :: 0 <= i < index ==> children[i] == Some(replaced[i])
    {
      var child := ReplaceChild(space, v, edits, grouped, index);
      if child.None? {
        ChildFails(space, v, edits, index);
        return None;
      }
      replaced := replaced[index := child.value];
    }
    ChildrenRejoin(space, v, edits, replaced);
    return Some(Tuple(replaced));
  }

  /** A child without edits is left as it is. */
  method ReplaceChild(space: Space, v: Value, edits: Edits, grouped: map<Segment, Edits>, index: nat)
    returns (child: Option<Value>)
    requires space.ArraySpace? && Valid(space, v) && Groups(grouped, edits) && index < space.length
    ensures child == ReplacedItems(space.element, v.items, edits)[index]
    decreases space, 0
  {
    if Index(index) !in grouped {
      NotGrouped(grouped, edits, Index(index));
      return Some(v.items[index]);
    }
    child := ReplaceLeafValues(space.element, v.items[index], grouped[Index(index)]);
  }

  lemma ChildFails(space: Space, v: Value, edits: Edits, i: nat)
    requires space.ArraySpace? && Valid(space, v) && i < space.length
    requires ReplacedItems(space.element, v.items, edits)[i].None?
    ensures Replaced(space, v, edits).None?
  {
    var children := ReplacedItems(space.element, v.items, edits);
    assert children[i] in children;
  }

  lemma ChildrenRejoin(space: Space, v: Value, edits: Edits, items: seq<Value>)
    requires space.ArraySpace? && Valid(space, v) && ChildEdits(space.length, edits) && |items| == space.length
    requires forall i :: 0 <= i < space.length ==> ReplacedItems(space.element, v.items, edits)[i] == Some(items[i])
    ensures Replaced(space, v, edits) == Some(Tuple(items))
  {
    assert None !in ReplacedItems(space.element, v.items, edits);
    assert Replaced(space, v, edits).value.items == items;
  }

  lemma NotGrouped(grouped: map<Segment, Edits>, edits: Edits, head: Segment)
    requires Groups(grouped, edits) && head !in grouped
    ensures Below(edits, head) == map[]
  {
    forall t ensures t !in Below(edits, head) {
      assert ([head] + t)[0] == head;
    }
  }

  method ReplacePositions(size: nat, v: Value, edits: Edits) returns (r: Option<Value>)
    requires Valid(PermutationSpace(size), v)
    ensures r == Replaced(PermutationSpace(size), v, edits)
  {
    var values := v.items;
    var rest := edits.Keys;
    ghost var done: set<Path> := {};
    while rest != {}
      invariant rest + done == edits.Keys && rest !! done
      invariant PositionEdits(size, Restricted(edits, done))
      invariant values == EditedItems(v.items, Restricted(edits, done))
      decreases rest
    {
      var path: Path :| path in rest;
      if |path| != 1 || !Position(path, size) {
        return None;
      }
      var x := edits[path];
      if !x.Int? || x.n < 0 || x.n >= size {
        return None;
      }
      ghost var before := values;
      values := values[path[0].i := x];
      rest, done := rest - {path}, done + {path};
      assert path == [Index(path[0].i)];
      assert values == EditedItems(v.items, Restricted(edits, done));
    }
    assert Restricted(edits, done) == edits;
    var normalized := NormalizePermutationValues(values, size);
    if normalized.None? {
      return None;
    }
    return Some(Tuple(normalized.value));
  }
}
