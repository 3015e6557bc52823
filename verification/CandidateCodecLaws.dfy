// The codec's laws: when encoding succeeds, when an encoding decodes to the
// candidate it came from, and that encodings tell candidates apart.
module CandidateCodecLaws {
  import opened Outcomes
  import opened CandidateCodec

  // ----- depths -----

  function MaxOf(ns: seq<nat>): (r: nat)
    ensures forall i :: 0 <= i < |ns| ==> ns[i] <= r
    ensures ns == [] ==> r == 0
    ensures ns != [] ==> exists i :: 0 <= i < |ns| && ns[i] == r
  {
    if ns == [] then 0
    else
      var front := MaxOf(ns[..|ns| - 1]);
      if |ns| > 1 && front >= ns[|ns| - 1] then front else ns[|ns| - 1]
  }

  /** Levels below a candidate, as the encoder counts them. */
  function Depth(c: Candidate): (r: nat)
    decreases c
  {
    match c
    case TupleValue(items) => MaxOf(ItemDepths(items))
    case MappingValue(_, entries) => MaxOf(EntryDepths(entries))
    case _ => 0
  }

  function ItemDepths(items: seq<Candidate>): (r: seq<nat>)
    ensures |r| == |items| && forall i :: 0 <= i < |items| ==> r[i] == 1 + Depth(items[i])
    decreases items
  {
    seq(|items|, i requires 0 <= i < |items| => 1 + Depth(items[i]))
  }

  function EntryDepths(entries: seq<Entry<Candidate>>): (r: seq<nat>)
    ensures |r| == |entries| && forall i :: 0 <= i < |entries| ==> r[i] == 1 + Depth(entries[i].value)
    decreases entries
  {
    seq(|entries|, i requires 0 <= i < |entries| => 1 + Depth(entries[i].value))
  }

  /** Levels of the encoding, as the decoder counts them: the payload and the items
      of an escaped mapping cost two more. */
  function Weight(c: Candidate): (r: nat)
    decreases c
  {
    match c
    case TupleValue(items) => MaxOf(ItemWeights(items))
    case MappingValue(_, entries) => MaxOf(EntryWeights(entries))
    case _ => 0
  }

  function ItemWeights(items: seq<Candidate>): (r: seq<nat>)
    ensures |r| == |items| && forall i :: 0 <= i < |items| ==> r[i] == 1 + Weight(items[i])
    decreases items
  {
    seq(|items|, i requires 0 <= i < |items| => 1 + Weight(items[i]))
  }

  function Cost(entries: seq<Entry<Candidate>>): (r: nat) {
    if NeedsEscape(entries) then 3 else 1
  }

  function EntryWeights(entries: seq<Entry<Candidate>>): (r: seq<nat>)
    ensures |r| == |entries|
    ensures forall i :: 0 <= i < |entries| ==> r[i] == Cost(entries) + Weight(entries[i].value)
    decreases entries
  {
    seq(|entries|, i requires 0 <= i < |entries| => Cost(entries) + Weight(entries[i].value))
  }

  /** Only supported values and finite floats. */
  predicate Encodable(c: Candidate)
    decreases c
  {
    match c
    case FloatValue(x) => x.Finite?
    case UnsupportedValue => false
    case TupleValue(items) => false !in ItemFlags(items)
    case MappingValue(_, entries) => false !in EntryFlags(entries)
    case _ => true
  }

  function ItemFlags(items: seq<Candidate>): (r: seq<bool>)
    ensures |r| == |items| && forall i :: 0 <= i < |items| ==> r[i] == Encodable(items[i])
    decreases items
  {
    seq(|items|, i requires 0 <= i < |items| => Encodable(items[i]))
  }

  function EntryFlags(entries: seq<Entry<Candidate>>): (r: seq<bool>)
    ensures |r| == |entries| && forall i :: 0 <= i < |entries| ==> r[i] == Encodable(entries[i].value)
    decreases entries
  {
    seq(|entries|, i requires 0 <= i < |entries| => Encodable(entries[i].value))
  }

  /** Every mapping turned into the kind that the decoder is asked to build. */
  function Retyped(c: Candidate, records: bool): (r: Candidate)
    decreases c
  {
    match c
    case TupleValue(items) => TupleValue(RetypedItems(items, records))
    case MappingValue(_, entries) => MappingValue(records, RetypedEntries(entries, records))
    case _ => c
  }

  function RetypedItems(items: seq<Candidate>, records: bool): (r: seq<Candidate>)
    ensures |r| == |items| && forall i :: 0 <= i < |items| ==> r[i] == Retyped(items[i], records)
    decreases items
  {
    seq(|items|, i requires 0 <= i < |items| => Retyped(items[i], records))
  }

  function RetypedEntries(entries: seq<Entry<Candidate>>, records: bool): (r: seq<Entry<Candidate>>)
    ensures |r| == |entries|
    ensures forall i :: 0 <= i < |entries| ==> r[i] == Entry(entries[i].key, Retyped(entries[i].value, records))
    decreases entries
  {
    seq(|entries|, i requires 0 <= i < |entries| => Entry(entries[i].key, Retyped(entries[i].value, records)))
  }

  predicate AllOfKind(c: Candidate, records: bool) {
    match c
    case TupleValue(items) => forall i :: 0 <= i < |items| ==> AllOfKind(items[i], records)
    case MappingValue(isRecord, entries) =>
      isRecord == records && forall i :: 0 <= i < |entries| ==> AllOfKind(entries[i].value, records)
    case _ => true
  }

  lemma {:induction false} RetypedUnchanged(c: Candidate, records: bool)
    requires AllOfKind(c, records)
    ensures Retyped(c, records) == c
    decreases c
  {
    match c
    case TupleValue(items) =>
      forall i | 0 <= i < |items| ensures Retyped(items[i], records) == items[i] {
        RetypedUnchanged(items[i], records);
      }
      assert Retyped(c, records).items == items;
    case MappingValue(_, entries) =>
      forall i | 0 <= i < |entries| ensures Retyped(entries[i].value, records) == entries[i].value {
        RetypedUnchanged(entries[i].value, records);
      }
      assert Retyped(c, records).entries == entries;
    case _ =>
  }

  // ----- when encoding succeeds -----

  ghost predicate EncodesWithin(c: Candidate, depth: nat, limit: nat) {
    Encode(c, depth, limit).Ok? <==> Encodable(c) && depth + Depth(c) <= limit
  }

  lemma CollectedWithin<T>(results: seq<Result<T, CodecError>>, ok: seq<bool>, depths: seq<nat>, depth: nat, limit: nat)
    requires |results| == |ok| == |depths| && depth <= limit
    requires forall i :: 0 <= i < |results| ==> (results[i].Ok? <==> ok[i] && depth + depths[i] <= limit)
    ensures Collected(results).Ok? <==> false !in ok && depth + MaxOf(depths) <= limit
  {
  }

  lemma TupleEncodes(items: seq<Candidate>, depth: nat, limit: nat)
    requires depth <= limit && forall i :: 0 <= i < |items| ==> EncodesWithin(items[i], depth + 1, limit)
    ensures EncodesWithin(TupleValue(items), depth, limit)
  {
    forall i | 0 <= i < |items|
      ensures EncodeItems(items, depth + 1, limit)[i].Ok? <==> ItemFlags(items)[i] && depth + ItemDepths(items)[i] <= limit
    {
      assert EncodesWithin(items[i], depth + 1, limit);
    }
    CollectedWithin(EncodeItems(items, depth + 1, limit), ItemFlags(items), ItemDepths(items), depth, limit);
  }

  lemma MappingEncodes(isRecord: bool, entries: seq<Entry<Candidate>>, depth: nat, limit: nat)
    requires depth <= limit && forall i :: 0 <= i < |entries| ==> EncodesWithin(entries[i].value, depth + 1, limit)
    ensures EncodesWithin(MappingValue(isRecord, entries), depth, limit)
  {
    forall i | 0 <= i < |entries|
      ensures EncodeEntries(entries, depth + 1, limit)[i].Ok? <==>
        EntryFlags(entries)[i] && depth + EntryDepths(entries)[i] <= limit
    {
      assert EncodesWithin(entries[i].value, depth + 1, limit);
    }
    CollectedWithin(EncodeEntries(entries, depth + 1, limit), EntryFlags(entries), EntryDepths(entries), depth, limit);
  }

  /** Encoding succeeds exactly for supported finite candidates that are not nested
      deeper than the limit. */
  lemma {:induction false} EncodesExactly(c: Candidate, depth: nat, limit: nat)
    ensures Encode(c, depth, limit).Ok? <==> Encodable(c) && depth + Depth(c) <= limit
    decreases c
  {
    if depth <= limit {
      match c
      case TupleValue(items) =>
        forall i | 0 <= i < |items| ensures EncodesWithin(items[i], depth + 1, limit) {
          EncodesExactly(items[i], depth + 1, limit);
        }
        TupleEncodes(items, depth, limit);
      case MappingValue(isRecord, entries) =>
        forall i | 0 <= i < |entries| ensures EncodesWithin(entries[i].value, depth + 1, limit) {
          EncodesExactly(entries[i].value, depth + 1, limit);
        }
        MappingEncodes(isRecord, entries, depth, limit);
      case _ =>
    }
  }

  // ----- when an encoding decodes -----

  /** What decoding the encoding of `c` gives: `c`, as far as the limit reaches. */
  ghost predicate DecodesBack(c: Candidate, json: Json, depth: nat, limit: nat, records: bool) {
    Decode(json, depth, limit, records) ==
      if depth + Weight(c) <= limit then Ok(Retyped(c, records)) else Err(TooDeep)
  }

  /** Children that decode back within the limit, or fail as too deep. */
  lemma CollectedBack<T>(results: seq<Result<T, CodecError>>, values: seq<T>, weights: seq<nat>, depth: nat, limit: nat)
    requires |results| == |values| == |weights| && depth <= limit
    requires forall i :: 0 <= i < |results| ==>
      results[i] == if depth + weights[i] <= limit then Ok(values[i]) else Err(TooDeep)
    ensures Collected(results) == if depth + MaxOf(weights) <= limit then Ok(values) else Err(TooDeep)
  {
    if depth + MaxOf(weights) <= limit {
      assert Collected(results).value == values;
    }
  }

  lemma MarkersDiffer()
    ensures |BYTES_MARKER| == 17 && |BYTEARRAY_MARKER| == 21 && |MAPPING_MARKER| == 19
    ensures |FORMAT_FIELD| == 6 && |ITEMS_FIELD| == 5
  {
  }

  lemma TupleDecodes(items: seq<Candidate>, jsons: seq<Json>, depth: nat, limit: nat, records: bool)
    requires depth <= limit && |jsons| == |items|
    requires forall i :: 0 <= i < |items| ==> DecodesBack(items[i], jsons[i], depth + 1, limit, records)
    ensures DecodesBack(TupleValue(items), JsonList(jsons), depth, limit, records)
  {
    forall i | 0 <= i < |items|
      ensures DecodeItems(jsons, depth + 1, limit, records)[i] ==
        if depth + ItemWeights(items)[i] <= limit then Ok(RetypedItems(items, records)[i]) else Err(TooDeep)
    {
      assert DecodesBack(items[i], jsons[i], depth + 1, limit, records);
    }
    CollectedBack(DecodeItems(jsons, depth + 1, limit, records), RetypedItems(items, records), ItemWeights(items),
                  depth, limit);
  }

  lemma PlainMappingDecodes(isRecord: bool, entries: seq<Entry<Candidate>>, jsons: seq<Json>, depth: nat, limit: nat,
                            records: bool)
    requires depth <= limit && |jsons| == |entries| && !NeedsEscape(entries)
    requires forall i :: 0 <= i < |entries| ==> DecodesBack(entries[i].value, jsons[i], depth + 1, limit, records)
    ensures DecodesBack(MappingValue(isRecord, entries), JsonObject(Keyed(Keys(entries), jsons)), depth, limit, records)
  {
    var encoded := Keyed(Keys(entries), jsons);
    var values := seq(|entries|, i requires 0 <= i < |entries| => Retyped(entries[i].value, records));
    PlainIsUnmarked(entries, jsons);
    forall i | 0 <= i < |entries|
      ensures DecodeEntries(encoded, depth + 1, limit, records)[i] ==
        if depth + EntryWeights(entries)[i] <= limit then Ok(values[i]) else Err(TooDeep)
    {
      assert DecodesBack(entries[i].value, jsons[i], depth + 1, limit, records);
    }
    CollectedBack(DecodeEntries(encoded, depth + 1, limit, records), values, EntryWeights(entries), depth, limit);
    assert Keyed(Keys(encoded), values) == RetypedEntries(entries, records);
  }

  lemma PlainIsUnmarked(entries: seq<Entry<Candidate>>, jsons: seq<Json>)
    requires |jsons| == |entries| && !NeedsEscape(entries)
    ensures var encoded := Keyed(Keys(entries), jsons);
      !IsOnly(encoded, BYTES_MARKER) && !IsOnly(encoded, BYTEARRAY_MARKER) && !IsOnly(encoded, MAPPING_MARKER)
  {
  }

  lemma EscapedMappingDecodes(isRecord: bool, entry: Entry<Candidate>, json: Json, depth: nat, limit: nat,
                              records: bool)
    requires depth <= limit && IsReserved(entry.key)
    requires depth + 3 <= limit ==> DecodesBack(entry.value, json, depth + 3, limit, records)
    requires depth + 3 > limit ==> Decode(json, depth + 3, limit, records) == Err(TooDeep)
    ensures DecodesBack(MappingValue(isRecord, [entry]), Escaped([Entry(entry.key, json)]), depth, limit, records)
  {
    var payload := EscapeShape(entry.key, json);
    PayloadDecodes(entry, json, payload, depth + 1, limit, records);
    EscapedWeight(isRecord, entry);
    MarkersDiffer();
  }

  lemma EscapeShape(key: string, json: Json) returns (payload: Json)
    ensures Escaped([Entry(key, json)]) == JsonObject([Entry(MAPPING_MARKER, payload)])
    ensures IsEscape([Entry(MAPPING_MARKER, payload)]) && payload.JsonObject?
    ensures Field(payload.entries, ITEMS_FIELD) == Some(JsonList([JsonList([JsonStr(key), json])]))
  {
    MarkersDiffer();
    payload := Escaped([Entry(key, json)]).entries[0].value;
    assert payload.entries[1..][0].key == ITEMS_FIELD;
    assert payload.entries[1].value.items == [JsonList([JsonStr(key), json])];
  }

  lemma PayloadDecodes(entry: Entry<Candidate>, json: Json, payload: Json, depth: nat, limit: nat, records: bool)
    requires payload.JsonObject? && IsReserved(entry.key)
    requires Field(payload.entries, ITEMS_FIELD) == Some(JsonList([JsonList([JsonStr(entry.key), json])]))
    requires depth + 2 <= limit ==> DecodesBack(entry.value, json, depth + 2, limit, records)
    requires depth + 2 > limit ==> Decode(json, depth + 2, limit, records) == Err(TooDeep)
    ensures DecodeEscape(payload, depth, limit, records) ==
      if depth + 2 + Weight(entry.value) <= limit then Ok(MappingValue(records, RetypedEntries([entry], records)))
      else Err(TooDeep)
  {
    var pairs := [JsonList([JsonStr(entry.key), json])];
    var value := Retyped(entry.value, records);
    var results := DecodePairs(pairs, depth + 2, limit, records);
    assert results[0] == Decode(json, depth + 2, limit, records);
    CollectedOne(results);
    assert Keyed(ItemKeys(pairs), [value]) == RetypedEntries([entry], records);
  }

  lemma CollectedOne<T>(results: seq<Result<T, CodecError>>)
    requires |results| == 1
    ensures Collected(results) == if results[0].Ok? then Ok([results[0].value]) else Err(results[0].error)
  {
    if results[0].Ok? {
      assert Collected(results).value == [results[0].value];
    }
  }

  lemma EscapedWeight(isRecord: bool, entry: Entry<Candidate>)
    requires IsReserved(entry.key)
    ensures Weight(MappingValue(isRecord, [entry])) == 3 + Weight(entry.value)
  {
    assert EntryWeights([entry]) == [3 + Weight(entry.value)];
  }

  lemma EncodedTuple(items: seq<Candidate>, depth: nat, limit: nat) returns (jsons: seq<Json>)
    requires Encode(TupleValue(items), depth, limit).Ok?
    ensures Encode(TupleValue(items), depth, limit) == Ok(JsonList(jsons)) && |jsons| == |items|
    ensures forall i :: 0 <= i < |items| ==> Encode(items[i], depth + 1, limit) == Ok(jsons[i])
  {
    jsons := Collected(EncodeItems(items, depth + 1, limit)).value;
    forall i | 0 <= i < |items| ensures Encode(items[i], depth + 1, limit) == Ok(jsons[i]) {
      assert EncodeItems(items, depth + 1, limit)[i] == Ok(jsons[i]);
    }
  }

  lemma EncodedMapping(isRecord: bool, entries: seq<Entry<Candidate>>, depth: nat, limit: nat)
    returns (jsons: seq<Json>)
    requires Encode(MappingValue(isRecord, entries), depth, limit).Ok?
    ensures |jsons| == |entries|
    ensures Encode(MappingValue(isRecord, entries), depth, limit) == Ok(
      if NeedsEscape(entries) then Escaped(Keyed(Keys(entries), jsons)) else JsonObject(Keyed(Keys(entries), jsons)))
    ensures forall i :: 0 <= i < |entries| ==> Encode(entries[i].value, depth + 1, limit) == Ok(jsons[i])
  {
    jsons := Collected(EncodeEntries(entries, depth + 1, limit)).value;
    forall i | 0 <= i < |entries| ensures Encode(entries[i].value, depth + 1, limit) == Ok(jsons[i]) {
      assert EncodeEntries(entries, depth + 1, limit)[i] == Ok(jsons[i]);
    }
  }

  lemma ScalarDecodes(c: Candidate, json: Json, depthE: nat, limitE: nat, depth: nat, limit: nat, records: bool)
    requires Encode(c, depthE, limitE) == Ok(json) && depth <= limit && !c.TupleValue? && !c.MappingValue?
    ensures DecodesBack(c, json, depth, limit, records)
  {
    if c.BytesValue? || c.ByteArrayValue? {
      assert json == JsonObject([Entry(if c.BytesValue? then BYTES_MARKER else BYTEARRAY_MARKER, JsonStr(Hex(c.bytes)))]);
      BytesDecode(c.bytes, depth, limit, records);
    } else {
      UnmarkedDecodes(c, json, depthE, limitE, depth, limit, records);
    }
  }

  lemma UnmarkedDecodes(c: Candidate, json: Json, depthE: nat, limitE: nat, depth: nat, limit: nat, records: bool)
    requires Encode(c, depthE, limitE) == Ok(json) && depth <= limit && !c.TupleValue? && !c.MappingValue?
    requires !c.BytesValue? && !c.ByteArrayValue?
    ensures DecodesBack(c, json, depth, limit, records)
  {
  }

  lemma BytesDecode(bytes: seq<Byte>, depth: nat, limit: nat, records: bool)
    requires depth <= limit
    ensures Decode(JsonObject([Entry(BYTES_MARKER, JsonStr(Hex(bytes)))]), depth, limit, records) == Ok(BytesValue(bytes))
    ensures Decode(JsonObject([Entry(BYTEARRAY_MARKER, JsonStr(Hex(bytes)))]), depth, limit, records)
      == Ok(ByteArrayValue(bytes))
  {
    MarkersDiffer();
    HexRoundTrip(bytes);
  }

  lemma {:induction false} DecodesItsEncoding(c: Candidate, depthE: nat, limitE: nat, depth: nat, limit: nat,
                                              records: bool)
    requires Encode(c, depthE, limitE).Ok?
    ensures DecodesBack(c, Encode(c, depthE, limitE).value, depth, limit, records)
    decreases c
  {
    if depth <= limit {
      match c
      case TupleValue(items) =>
        var jsons := EncodedTuple(items, depthE, limitE);
        forall i | 0 <= i < |items| ensures DecodesBack(items[i], jsons[i], depth + 1, limit, records) {
          DecodesItsEncoding(items[i], depthE + 1, limitE, depth + 1, limit, records);
        }
        TupleDecodes(items, jsons, depth, limit, records);
      case MappingValue(isRecord, entries) =>
        var jsons := EncodedMapping(isRecord, entries, depthE, limitE);
        forall i | 0 <= i < |entries|
          ensures DecodesBack(entries[i].value, jsons[i], depth + Cost(entries), limit, records)
        {
          DecodesItsEncoding(entries[i].value, depthE + 1, limitE, depth + Cost(entries), limit, records);
        }
        MappingDecodes(isRecord, entries, jsons, depth, limit, records);
      case _ => ScalarDecodes(c, Encode(c, depthE, limitE).value, depthE, limitE, depth, limit, records);
    }
  }

  lemma MappingDecodes(isRecord: bool, entries: seq<Entry<Candidate>>, jsons: seq<Json>, depth: nat, limit: nat,
                       records: bool)
    requires depth <= limit && |jsons| == |entries|
    requires forall i :: 0 <= i < |entries| ==>
      DecodesBack(entries[i].value, jsons[i], depth + Cost(entries), limit, records)
    ensures var encoded := Keyed(Keys(entries), jsons);
      DecodesBack(MappingValue(isRecord, entries),
                  if NeedsEscape(entries) then Escaped(encoded) else JsonObject(encoded), depth, limit, records)
  {
    if NeedsEscape(entries) {
      assert entries == [entries[0]];
      assert Keyed(Keys(entries), jsons) == [Entry(entries[0].key, jsons[0])];
      EscapedMappingDecodes(isRecord, entries[0], jsons[0], depth, limit, records);
    } else {
      PlainMappingDecodes(isRecord, entries, jsons, depth, limit, records);
    }
  }

  // ----- the public functions -----

  function ToDict(c: Candidate): (r: Result<Json, CodecError>) {
    Encode(c, 0, MAX_DEPTH)
  }

  function FromDict(json: Json, records: bool): (r: Result<Candidate, CodecError>) {
    Decode(json, 0, MAX_DEPTH, records)
  }

  /** A candidate is encoded exactly when it is supported, finite, and at most 256
      levels deep; its encoding then decodes to it exactly when its weighted depth is
      at most 256, and is otherwise refused as too deep. */
  lemma RoundTrip(c: Candidate, records: bool)
    requires AllOfKind(c, records)
    ensures ToDict(c).Ok? <==> Encodable(c) && Depth(c) <= 256
    ensures ToDict(c).Ok? ==>
      FromDict(ToDict(c).value, records) == if Weight(c) <= 256 then Ok(c) else Err(TooDeep)
  {
    EncodesExactly(c, 0, MAX_DEPTH);
    if ToDict(c).Ok? {
      DecodesItsEncoding(c, 0, MAX_DEPTH, 0, MAX_DEPTH, records);
      RetypedUnchanged(c, records);
    }
  }

  /** Different candidates have different encodings, apart from whether a mapping is
      a record, which the encoding does not say. */
  lemma EncodingIsInjective(c: Candidate, d: Candidate)
    requires ToDict(c).Ok? && ToDict(d) == ToDict(c)
    ensures forall records :: Retyped(c, records) == Retyped(d, records)
  {
    forall records ensures Retyped(c, records) == Retyped(d, records) {
      var limit := Weight(c) + Weight(d);
      DecodesItsEncoding(c, 0, MAX_DEPTH, 0, limit, records);
      DecodesItsEncoding(d, 0, MAX_DEPTH, 0, limit, records);
    }
  }

  function Wrapped(c: Candidate): (r: Candidate) {
    MappingValue(false, [Entry(BYTES_MARKER, c)])
  }

  /** `n` mappings inside each other, each under a reserved marker. */
  function Chain(n: nat): (c: Candidate) {
    if n == 0 then IntValue(0) else Wrapped(Chain(n - 1))
  }

  lemma WrappedDepth(c: Candidate)
    ensures Depth(Wrapped(c)) == 1 + Depth(c)
  {
    assert EntryDepths(Wrapped(c).entries) == [1 + Depth(c)];
  }

  lemma WrappedKind(c: Candidate)
    requires Encodable(c) && AllOfKind(c, false)
    ensures Encodable(Wrapped(c)) && AllOfKind(Wrapped(c), false)
  {
    assert EntryFlags(Wrapped(c).entries) == [true];
  }

  ghost predicate Measures(c: Candidate, n: nat) {
    Depth(c) == n && Weight(c) == 3 * n && Encodable(c) && AllOfKind(c, false)
  }

  lemma WrappedMeasures(c: Candidate, n: nat, d: Candidate, more: nat)
    requires Measures(c, n) && d == Wrapped(c) && more == n + 1
    ensures Measures(d, more)
  {
    WrappedDepth(c);
    EscapedWeight(false, Entry(BYTES_MARKER, c));
    WrappedKind(c);
  }

  lemma {:induction false} ChainMeasures(n: nat, c: Candidate)
    requires c == Chain(n)
    ensures Measures(c, n)
  {
    if n > 0 {
      var inner := Chain(n - 1);
      ChainMeasures(n - 1, inner);
      WrappedMeasures(inner, n - 1, c, n);
    }
  }

  /** Encoding and decoding do not have the same limit: 86 to 256 such mappings
      encode, but their encoding is refused. */
  lemma ChainIsLost(n: nat)
    requires n <= MAX_DEPTH < 3 * n
    ensures ToDict(Chain(n)).Ok? && FromDict(ToDict(Chain(n)).value, false) == Err(TooDeep)
  {
    ChainMeasures(n, Chain(n));
    RoundTrip(Chain(n), false);
  }

  // ----- what decodes encodes again -----

  /** The decoded value `c` can be encoded within the limit, and has only mappings
      of the kind asked for. */
  ghost predicate Reencodes(c: Candidate, depth: nat, limit: nat, records: bool) {
    Encodable(c) && depth + Depth(c) <= limit && AllOfKind(c, records)
  }

  /** Whatever a payload decodes to can be encoded again. */
  lemma {:induction false} DecodedEncodes(json: Json, c: Candidate, depth: nat, limit: nat, records: bool)
    requires Decode(json, depth, limit, records) == Ok(c)
    ensures Reencodes(c, depth, limit, records)
    decreases json
  {
    if c.TupleValue? {
      TupleItems(json, c, depth, limit, records);
      forall i | 0 <= i < |c.items| ensures Reencodes(c.items[i], depth + 1, limit, records) {
        DecodedEncodes(json.items[i], c.items[i], depth + 1, limit, records);
      }
      TupleReencodes(c.items, depth, limit, records);
    } else if c.MappingValue? {
      var parts, below := MappingParts(json, c, depth, limit, records);
      forall i | 0 <= i < |c.entries| ensures Reencodes(c.entries[i].value, depth + 1, limit, records) {
        assert PartOf(parts[i], json, c.entries[i].value, below, limit, records);
        DecodedEncodes(parts[i], c.entries[i].value, below, limit, records);
      }
      MappingReencodes(c.entries, depth, limit, records);
    } else {
      ScalarReencodes(json, c, depth, limit, records);
    }
  }

  lemma ScalarReencodes(json: Json, c: Candidate, depth: nat, limit: nat, records: bool)
    requires Decode(json, depth, limit, records) == Ok(c) && !c.TupleValue? && !c.MappingValue?
    ensures Reencodes(c, depth, limit, records)
  {
  }

  lemma TupleReencodes(items: seq<Candidate>, depth: nat, limit: nat, records: bool)
    requires depth <= limit && forall i :: 0 <= i < |items| ==> Reencodes(items[i], depth + 1, limit, records)
    ensures Reencodes(TupleValue(items), depth, limit, records)
  {
    assert forall i :: 0 <= i < |items| ==> ItemFlags(items)[i] && depth + ItemDepths(items)[i] <= limit;
  }

  lemma MappingReencodes(entries: seq<Entry<Candidate>>, depth: nat, limit: nat, records: bool)
    requires depth <= limit && forall i :: 0 <= i < |entries| ==> Reencodes(entries[i].value, depth + 1, limit, records)
    ensures Reencodes(MappingValue(records, entries), depth, limit, records)
  {
    assert forall i :: 0 <= i < |entries| ==> EntryFlags(entries)[i] && depth + EntryDepths(entries)[i] <= limit;
  }

  /** A payload inside `json` that decodes to `value`. */
  ghost predicate PartOf(part: Json, json: Json, value: Candidate, depth: nat, limit: nat, records: bool) {
    part < json && Decode(part, depth, limit, records) == Ok(value)
  }

  lemma TupleItems(json: Json, c: Candidate, depth: nat, limit: nat, records: bool)
    requires Decode(json, depth, limit, records) == Ok(c) && c.TupleValue?
    ensures json.JsonList? && |json.items| == |c.items|
    ensures forall i :: 0 <= i < |c.items| ==> Decode(json.items[i], depth + 1, limit, records) == Ok(c.items[i])
  {
    forall i | 0 <= i < |c.items| ensures Decode(json.items[i], depth + 1, limit, records) == Ok(c.items[i]) {
      assert DecodeItems(json.items, depth + 1, limit, records)[i] == Ok(c.items[i]);
    }
  }

  /** The payloads that the values of a decoded mapping come from. */
  lemma MappingParts(json: Json, c: Candidate, depth: nat, limit: nat, records: bool)
    returns (parts: seq<Json>, below: nat)
    requires Decode(json, depth, limit, records) == Ok(c) && c.MappingValue?
    ensures c.isRecord == records && |parts| == |c.entries| && below > depth
    ensures forall i :: 0 <= i < |parts| ==> PartOf(parts[i], json, c.entries[i].value, below, limit, records)
  {
    if IsEscape(json.entries) {
      below := depth + 3;
      parts := EscapedParts(json, c, depth, limit, records);
    } else {
      below := depth + 1;
      parts := PlainParts(json, c, depth, limit, records);
    }
  }

  lemma PlainParts(json: Json, c: Candidate, depth: nat, limit: nat, records: bool) returns (parts: seq<Json>)
    requires Decode(json, depth, limit, records) == Ok(c) && c.MappingValue? && !IsEscape(json.entries)
    ensures c.isRecord == records && |parts| == |c.entries|
    ensures forall i :: 0 <= i < |parts| ==> PartOf(parts[i], json, c.entries[i].value, depth + 1, limit, records)
  {
    var entries := json.entries;
    var results := DecodeEntries(entries, depth + 1, limit, records);
    parts := seq(|entries|, i requires 0 <= i < |entries| => entries[i].value);
    forall i | 0 <= i < |parts| ensures PartOf(parts[i], json, c.entries[i].value, depth + 1, limit, records) {
      assert results[i] == Ok(c.entries[i].value);
      assert entries[i] in entries;
    }
  }

  lemma EscapedParts(json: Json, c: Candidate, depth: nat, limit: nat, records: bool) returns (parts: seq<Json>)
    requires Decode(json, depth, limit, records) == Ok(c) && c.MappingValue? && IsEscape(json.entries)
    ensures c.isRecord == records && |parts| == |c.entries|
    ensures forall i :: 0 <= i < |parts| ==> PartOf(parts[i], json, c.entries[i].value, depth + 3, limit, records)
  {
    MarkersDiffer();
    var payload := json.entries[0].value;
    assert DecodeEscape(payload, depth + 1, limit, records) == Ok(c);
    parts := PayloadParts(payload, c, depth + 1, limit, records);
    forall i | 0 <= i < |parts| ensures PartOf(parts[i], json, c.entries[i].value, depth + 3, limit, records) {
      assert PartOf(parts[i], payload, c.entries[i].value, depth + 3, limit, records);
    }
  }

  lemma PayloadParts(payload: Json, c: Candidate, depth: nat, limit: nat, records: bool) returns (parts: seq<Json>)
    requires payload.JsonObject? && DecodeEscape(payload, depth, limit, records) == Ok(c)
    ensures c.MappingValue? && c.isRecord == records && |parts| == |c.entries|
    ensures forall i :: 0 <= i < |parts| ==> PartOf(parts[i], payload, c.entries[i].value, depth + 2, limit, records)
  {
    FieldIsSmaller(payload, ITEMS_FIELD);
    var pairs := Field(payload.entries, ITEMS_FIELD).value.items;
    parts := seq(|pairs|, i requires 0 <= i < |pairs| => if IsPair(pairs[i]) then pairs[i].items[1] else pairs[i]);
    forall i | 0 <= i < |parts| ensures PartOf(parts[i], payload, c.entries[i].value, depth + 2, limit, records) {
      assert DecodePairs(pairs, depth + 2, limit, records)[i] == Ok(c.entries[i].value);
      assert pairs[i] in pairs;
    }
  }
}
