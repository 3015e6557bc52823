// Structured spaces and the reading and replacing of their leaves: nested arrays
// over permutation, integer and categorical leaves
// (src/variopt/spaces/composites/array_space.py, src/variopt/spaces/permutation.py,
// src/variopt/spaces/scalar.py).
module StructuredSpaces {
  import opened Outcomes

  datatype Value = Int(n: int) | Bool(b: bool) | Real(r: real) | Str(s: string) | Tuple(items: seq<Value>)

  datatype Segment = Index(i: int) | Name(name: string)

  type Path = seq<Segment>

  datatype Space =
    | IntegerSpace(low: int, high: int)
    | CategoricalSpace(choices: seq<Value>)
    | PermutationSpace(size: nat)
    | ArraySpace(element: Space, length: nat)

  // ----- scalars -----

  /** Numbers compare by value, whatever their type. */
  function Numeric(v: Value): (r: Option<real>) {
    match v
    case Int(n) => Some(n as real)
    case Bool(b) => Some(if b then 1.0 else 0.0)
    case Real(x) => Some(x)
    case _ => None
  }

  predicate ScalarsEqual(a: Value, b: Value) {
    if Numeric(a).Some? && Numeric(b).Some? then Numeric(a) == Numeric(b) else a == b
  }

  /** The first declared choice equal to a scalar. */
  function MatchingChoice(choices: seq<Value>, v: Value): (r: Option<Value>)
    ensures r.Some? ==> r.value in choices && ScalarsEqual(v, r.value)
    ensures r.None? ==> forall c :: c in choices ==> !ScalarsEqual(v, c)
  {
    if choices == [] then None
    else if ScalarsEqual(v, choices[0]) then Some(choices[0])
    else MatchingChoice(choices[1..], v)
  }

  predicate SameType(a: Value, b: Value) {
    (a.Int? && b.Int?) || (a.Bool? && b.Bool?) || (a.Real? && b.Real?) || (a.Str? && b.Str?)
  }

  // ----- valid spaces and candidates -----

  predicate Declared(space: Space) {
    match space
    case IntegerSpace(low, high) => low <= high
    case CategoricalSpace(choices) =>
      && choices != [] && (forall c :: c in choices ==> !c.Tuple?)
      && forall i, j :: 0 <= i < j < |choices| ==> !ScalarsEqual(choices[i], choices[j])
    case PermutationSpace(size) => size > 0
    case ArraySpace(element, length) => length > 0 && Declared(element)
  }

  /** Every number below `size`, once. */
  predicate IsPermutation(values: seq<Value>, size: nat) {
    && |values| == size
    && (forall i :: 0 <= i < size ==> values[i].Int? && 0 <= values[i].n < size)
    && (forall i, j :: 0 <= i < j < size ==> values[i] != values[j])
  }

  predicate Valid(space: Space, v: Value)
    decreases space
  {
    match space
    case IntegerSpace(low, high) => v.Int? && low <= v.n <= high
    case CategoricalSpace(choices) =>
      !v.Tuple? && var c := MatchingChoice(choices, v); c.Some? && SameType(v, c.value)
    case PermutationSpace(size) => v.Tuple? && IsPermutation(v.items, size)
    case ArraySpace(element, length) =>
      v.Tuple? && |v.items| == length && forall i :: 0 <= i < length ==> Valid(element, v.items[i])
  }

  // ----- leaves -----

  function Prefixed(head: Segment, paths: seq<Path>): (r: seq<Path>)
    ensures |r| == |paths| && forall k :: 0 <= k < |r| ==> r[k] == [head] + paths[k]
  {
    seq(|paths|, k requires 0 <= k < |paths| => [head] + paths[k])
  }

  function ArrayPaths(childPaths: seq<Path>, length: nat): (r: seq<Path>) {
    if length == 0 then [] else ArrayPaths(childPaths, length - 1) + Prefixed(Index(length - 1), childPaths)
  }

  function LeafPaths(space: Space): (r: seq<Path>) {
    match space
    case PermutationSpace(size) => seq(size, i => [Index(i)])
    case ArraySpace(element, length) => ArrayPaths(LeafPaths(element), length)
    case _ => [[]]
  }

  /** The head of a path as a position below `length`. */
  predicate Position(path: Path, length: nat) {
    path != [] && path[0].Index? && 0 <= path[0].i < length
  }

  /** `None` when the source raises. The candidate has been validated. */
  function Leaf(space: Space, v: Value, path: Path): (r: Option<Value>)
    requires Valid(space, v)
    decreases space
  {
    match space
    case PermutationSpace(size) => if |path| == 1 && Position(path, size) then Some(v.items[path[0].i]) else None
    case ArraySpace(element, length) =>
      if Position(path, length) then Leaf(element, v.items[path[0].i], path[1..]) else None
    case _ => if path == [] then Some(v) else None
  }

  // ----- replacement -----

  type Edits = map<Path, Value>

  function Tails(edits: Edits, head: Segment): (r: set<Path>) {
    set p | p in edits && p != [] && p[0] == head :: p[1..]
  }

  /** The edits below one child, relative to it. */
  function Below(edits: Edits, head: Segment): (r: Edits)
    ensures forall t :: t in r <==> [head] + t in edits
    ensures forall t :: t in r ==> r[t] == edits[[head] + t]
  {
    TailsExact(edits, head);
    map t | t in Tails(edits, head) :: edits[[head] + t]
  }

  lemma TailsExact(edits: Edits, head: Segment)
    ensures forall t :: t in Tails(edits, head) <==> [head] + t in edits
  {
    forall t ensures t in Tails(edits, head) <==> [head] + t in edits {
      if [head] + t in edits {
        assert ([head] + t)[1..] == t && ([head] + t)[0] == head;
      }
      if t in Tails(edits, head) {
        var p :| p in edits && p != [] && p[0] == head && p[1..] == t;
        assert p == [head] + t;
      }
    }
  }

  /** A scalar leaf looks only at the edit of its root. */
  function ReplacedScalar(space: Space, v: Value, edits: Edits): (r: Option<Value>)
    requires space.IntegerSpace? || space.CategoricalSpace?
  {
    if [] !in edits then Some(v) else Canonical(space, edits[[]])
  }

  /** What a scalar leaf makes of a replacement value. */
  function Canonical(space: Space, x: Value): (r: Option<Value>)
    requires space.IntegerSpace? || space.CategoricalSpace?
  {
    match space
    case IntegerSpace(low, high) => if x.Int? && low <= x.n <= high then Some(x) else None
    case CategoricalSpace(choices) => if x.Tuple? then None else MatchingChoice(choices, x)
  }

  predicate PositionEdits(size: nat, edits: Edits) {
    forall p :: p in edits ==> |p| == 1 && Position(p, size) && edits[p].Int? && 0 <= edits[p].n < size
  }

  function EditedItems(items: seq<Value>, edits: Edits): (r: seq<Value>)
    ensures |r| == |items|
    ensures forall i :: 0 <= i < |items| ==> r[i] == if [Index(i)] in edits then edits[[Index(i)]] else items[i]
  {
    seq(|items|, i requires 0 <= i < |items| => if [Index(i)] in edits then edits[[Index(i)]] else items[i])
  }

  predicate ChildEdits(length: nat, edits: Edits) {
    forall p :: p in edits ==> Position(p, length)
  }

  /** `None` when the source raises. The candidate has been validated. */
  function Replaced(space: Space, v: Value, edits: Edits): (r: Option<Value>)
    requires Valid(space, v)
    decreases space, 0
  {
    match space
    case PermutationSpace(size) =>
      if PositionEdits(size, edits) && IsPermutation(EditedItems(v.items, edits), size)
      then Some(Tuple(EditedItems(v.items, edits))) else None
    case ArraySpace(element, length) =>
      if !ChildEdits(length, edits) then None
      else
        var children := ReplacedItems(element, v.items, edits);
        if None in children then None
        else Some(Tuple(seq(length, i requires 0 <= i < length =>
          if children[i].Some? then children[i].value else v.items[i])))
    case _ => ReplacedScalar(space, v, edits)
  }

  /** Children without edits stay as they are. */
  function ReplacedItems(element: Space, items: seq<Value>, edits: Edits): (r: seq<Option<Value>>)
    requires forall i :: 0 <= i < |items| ==> Valid(element, items[i])
    ensures |r| == |items|
    ensures forall i :: 0 <= i < |items| ==>
      r[i] == if Below(edits, Index(i)) == map[] then Some(items[i])
              else Replaced(element, items[i], Below(edits, Index(i)))
    decreases element, 1
  {
    seq(|items|, i requires 0 <= i < |items| =>
      if Below(edits, Index(i)) == map[] then Some(items[i])
      else Replaced(element, items[i], Below(edits, Index(i))))
  }

  /** Replacement that validates its candidate, at this level and below. */
  function CheckedReplaced(space: Space, v: Value, edits: Edits): (r: Option<Value>)
    decreases space, 0
  {
    if !Valid(space, v) then None
    else match space
      case ArraySpace(element, length) =>
        if !ChildEdits(length, edits) then None
        else
          var children := CheckedItems(element, v.items, edits);
          if None in children then None
          else Some(Tuple(seq(length, i requires 0 <= i < length =>
            if children[i].Some? then children[i].value else v.items[i])))
      case _ => Replaced(space, v, edits)
  }

  function CheckedItems(element: Space, items: seq<Value>, edits: Edits): (r: seq<Option<Value>>)
    ensures |r| == |items|
    ensures forall i :: 0 <= i < |items| ==>
      r[i] == if Below(edits, Index(i)) == map[] then Some(items[i])
              else CheckedReplaced(element, items[i], Below(edits, Index(i)))
    decreases element, 1
  {
    seq(|items|, i requires 0 <= i < |items| =>
      if Below(edits, Index(i)) == map[] then Some(items[i])
      else CheckedReplaced(element, items[i], Below(edits, Index(i))))
  }
}
