// The wire format of structured candidates: what each payload means, and that the
// decoder accepts exactly the payloads that mean something and the encoder writes the
// plainest of them (src/variopt/spaces/serialization.py).
module CandidateCodecFormat {
  import opened Outcomes
  import opened CandidateCodec
  import opened CandidateCodecLaws

  // ----- hexadecimal texts -----

  const LOWER := "0123456789abcdef"
  const UPPER := "0123456789ABCDEF"

  /** Two lower-case digits per byte, without anything between. */
  lemma {:induction false} HexAt(bytes: seq<Byte>, i: nat)
    ensures |Hex(bytes)| == 2 * |bytes|
    ensures i < |bytes| ==>
      Hex(bytes)[2 * i] == LOWER[bytes[i] as int / 16] && Hex(bytes)[2 * i + 1] == LOWER[bytes[i] as int % 16]
  {
    if bytes != [] {
      HexAt(bytes[1..], if i > 0 then i - 1 else 0);
      assert forall n: int :: 0 <= n < 16 ==> HexDigit(n) == LOWER[n];
      if 0 < i < |bytes| {
        assert Hex(bytes)[2..] == Hex(bytes[1..]);
        assert Hex(bytes)[2 * i] == Hex(bytes[1..])[2 * (i - 1)];
        assert Hex(bytes)[2 * i + 1] == Hex(bytes[1..])[2 * (i - 1) + 1];
      }
    }
  }

  /** Two digits of either case, behind some white space. */
  datatype Token = Token(pad: string, high: char, low: char)

  predicate Blank(s: string) {
    forall i :: 0 <= i < |s| ==> s[i] as int == 32 || 9 <= s[i] as int <= 13
  }

  predicate DigitOf(c: char, n: int)
    requires 0 <= n < 16
  {
    c == LOWER[n] || c == UPPER[n]
  }

  predicate Spells(token: Token, b: Byte) {
    Blank(token.pad) && DigitOf(token.high, b as int / 16) && DigitOf(token.low, b as int % 16)
  }

  function Spelled(tokens: seq<Token>, tail: string): (r: string) {
    if tokens == [] then tail else tokens[0].pad + [tokens[0].high, tokens[0].low] + Spelled(tokens[1..], tail)
  }

  ghost predicate SpelledBy(tokens: seq<Token>, tail: string, s: string, bytes: seq<Byte>) {
    && |tokens| == |bytes| && Blank(tail) && s == Spelled(tokens, tail)
    && forall i :: 0 <= i < |bytes| ==> Spells(tokens[i], bytes[i])
  }

  /** The text spells the bytes, with white space anywhere but inside a byte. */
  ghost predicate HexText(s: string, bytes: seq<Byte>) {
    exists tokens, tail :: SpelledBy(tokens, tail, s, bytes)
  }

  lemma DigitsExactly(c: char, n: int)
    requires 0 <= n < 16
    ensures DigitValue(c) == Some(n) <==> DigitOf(c, n)
    ensures DigitOf(c, n) ==> !IsSpace(c)
  {
  }

  /** Hexadecimal texts are read exactly when they spell bytes, as those. */
  lemma HexReadsExactly(s: string, bytes: seq<Byte>)
    ensures FromHex(s) == Ok(bytes) <==> HexText(s, bytes)
  {
    if FromHex(s) == Ok(bytes) {
      var tokens, tail := TokensOf(s, bytes);
    }
    if HexText(s, bytes) {
      var tokens, tail :| SpelledBy(tokens, tail, s, bytes);
      SpelledReads(tokens, tail, s, bytes);
    }
  }

  lemma {:induction false} TokensOf(s: string, bytes: seq<Byte>) returns (tokens: seq<Token>, tail: string)
    requires FromHex(s) == Ok(bytes)
    ensures SpelledBy(tokens, tail, s, bytes)
    decreases |s|
  {
    if s == "" {
      tokens, tail := [], "";
    } else if IsSpace(s[0]) {
      var rest, end := TokensOf(s[1..], bytes);
      tokens, tail := MorePadded(rest, end, s, bytes);
    } else {
      var rest, end := TokensOf(s[2..], bytes[1..]);
      tokens, tail := [Token("", s[0], s[1])] + rest, end;
      OneMoreToken(rest, tail, s, bytes);
    }
  }

  lemma MorePadded(rest: seq<Token>, end: string, s: string, bytes: seq<Byte>)
    returns (tokens: seq<Token>, tail: string)
    requires s != "" && IsSpace(s[0]) && SpelledBy(rest, end, s[1..], bytes)
    ensures SpelledBy(tokens, tail, s, bytes)
  {
    assert s == [s[0]] + s[1..];
    if rest == [] {
      tokens, tail := [], [s[0]] + end;
    } else {
      var first := rest[0].(pad := [s[0]] + rest[0].pad);
      tokens, tail := [first] + rest[1..], end;
      assert tokens[1..] == rest[1..];
      assert Spells(rest[0], bytes[0]);
    }
  }

  lemma OneMoreToken(rest: seq<Token>, tail: string, s: string, bytes: seq<Byte>)
    requires |s| >= 2 && bytes != [] && SpelledBy(rest, tail, s[2..], bytes[1..])
    requires DigitValue(s[0]) == Some(bytes[0] as int / 16) && DigitValue(s[1]) == Some(bytes[0] as int % 16)
    ensures SpelledBy([Token("", s[0], s[1])] + rest, tail, s, bytes)
  {
    var tokens := [Token("", s[0], s[1])] + rest;
    assert tokens[1..] == rest && s == [s[0], s[1]] + s[2..];
    DigitsExactly(s[0], bytes[0] as int / 16);
    DigitsExactly(s[1], bytes[0] as int % 16);
    forall i | 0 <= i < |bytes| ensures Spells(tokens[i], bytes[i]) {
      if i > 0 {
        assert bytes[i] == bytes[1..][i - 1] && tokens[i] == rest[i - 1];
      }
    }
  }

  lemma {:induction false} BlankReads(pad: string, s: string)
    requires Blank(pad)
    ensures FromHex(pad + s) == FromHex(s)
    decreases |pad|
  {
    if pad == "" {
      assert pad + s == s;
    } else {
      assert (pad + s)[1..] == pad[1..] + s && (pad + s)[0] == pad[0];
      BlankReads(pad[1..], s);
    }
  }

  lemma {:induction false} SpelledReads(tokens: seq<Token>, tail: string, s: string, bytes: seq<Byte>)
    requires SpelledBy(tokens, tail, s, bytes)
    ensures FromHex(s) == Ok(bytes)
    decreases |tokens|
  {
    if tokens == [] {
      BlankReads(tail, "");
      assert tail + "" == tail && bytes == [];
    } else {
      var token, rest := tokens[0], Spelled(tokens[1..], tail);
      assert Spells(token, bytes[0]);
      SpelledReads(tokens[1..], tail, rest, bytes[1..]);
      var pair := [token.high, token.low] + rest;
      assert s == token.pad + pair;
      BlankReads(token.pad, pair);
      PairReads(token, bytes[0], rest, pair);
      assert bytes == [bytes[0]] + bytes[1..];
    }
  }

  lemma PairReads(token: Token, b: Byte, rest: string, pair: string)
    requires Spells(token, b) && pair == [token.high, token.low] + rest && FromHex(rest).Ok?
    ensures FromHex(pair) == Ok([b] + FromHex(rest).value)
  {
    DigitsExactly(token.high, b as int / 16);
    DigitsExactly(token.low, b as int % 16);
    assert pair[2..] == rest && pair[0] == token.high && pair[1] == token.low;
  }

  // ----- what a payload means -----

  predicate OnlyKey(entries: seq<Entry<Json>>, key: string) {
    |entries| == 1 && entries[0].key == key
  }

  /** An object that stands for a mapping with a reserved key, or any other mapping. */
  predicate IsWrapping(entries: seq<Entry<Json>>) {
    OnlyKey(entries, "__variopt_mapping__") && entries[0].value.JsonObject?
    && Field(entries[0].value.entries, "format") == Some(JsonStr("variopt.mapping"))
  }

  predicate HasItems(payload: Json) {
    payload.JsonObject? && Field(payload.entries, "items").Some? && Field(payload.entries, "items").value.JsonList?
  }

  function ItemsOf(payload: Json): (r: seq<Json>)
    requires HasItems(payload)
    ensures forall i :: 0 <= i < |r| ==> r[i] < payload
  {
    FieldIsSmaller(payload, "items");
    var items := Field(payload.entries, "items").value;
    assert forall i :: 0 <= i < |items.items| ==> items.items[i] < items;
    items.items
  }

  predicate KeyedBy(item: Json, key: string) {
    item.JsonList? && |item.items| == 2 && item.items[0] == JsonStr(key)
  }

  predicate DistinctKeys<T>(entries: seq<Entry<T>>) {
    forall i, j :: 0 <= i < j < |entries| ==> entries[i].key != entries[j].key
  }

  /** The payload means the candidate, with mappings of the kind asked for. Objects
      with one reserved key mean byte strings, or mappings written as key and value
      pairs; all others mean mappings as they are. */
  ghost predicate Means(json: Json, c: Candidate, records: bool)
    decreases json
  {
    match json
    case JsonNull => false
    case JsonInt(n) => c == IntValue(n)
    case JsonBool(b) => c == BoolValue(b)
    case JsonStr(s) => c == StrValue(s)
    case JsonFloat(x) => x.Finite? && c == FloatValue(x)
    case JsonList(items) =>
      c.TupleValue? && |c.items| == |items| && forall i :: 0 <= i < |items| ==> Means(items[i], c.items[i], records)
    case JsonObject(entries) =>
      if OnlyKey(entries, "__variopt_bytes__") then
        c.BytesValue? && entries[0].value.JsonStr? && HexText(entries[0].value.text, c.bytes)
      else if OnlyKey(entries, "__variopt_bytearray__") then
        c.ByteArrayValue? && entries[0].value.JsonStr? && HexText(entries[0].value.text, c.bytes)
      else
        && c.MappingValue? && c.isRecord == records
        && if IsWrapping(entries) then
             HasItems(entries[0].value) && MeansItems(entries[0].value, c.entries, records)
           else MeansEntries(entries, c.entries, records)
  }

  ghost predicate MeansEntries(payloads: seq<Entry<Json>>, entries: seq<Entry<Candidate>>, records: bool)
    decreases payloads, 0
  {
    && |entries| == |payloads|
    && forall i :: 0 <= i < |payloads| ==>
         entries[i].key == payloads[i].key && Means(payloads[i].value, entries[i].value, records)
  }

  ghost predicate MeansItems(payload: Json, entries: seq<Entry<Candidate>>, records: bool)
    requires HasItems(payload)
    decreases payload, 0
  {
    var items := ItemsOf(payload);
    && |entries| == |items| && DistinctKeys(entries)
    && forall i :: 0 <= i < |items| ==>
         KeyedBy(items[i], entries[i].key) && Means(items[i].items[1], entries[i].value, records)
  }

  // ----- how deep a payload is -----

  /** Levels below a payload, as the decoder counts them. */
  function Levels(json: Json): (r: nat)
    decreases json
  {
    match json
    case JsonList(items) => MaxOf(ItemLevels(items))
    case JsonObject(entries) =>
      if OnlyKey(entries, "__variopt_bytes__") || OnlyKey(entries, "__variopt_bytearray__") then 0
      else if IsWrapping(entries) then 2 + if HasItems(entries[0].value) then PairLevels(entries[0].value) else 0
      else MaxOf(EntryLevels(entries))
    case _ => 0
  }

  function ItemLevels(items: seq<Json>): (r: seq<nat>)
    ensures |r| == |items| && forall i :: 0 <= i < |items| ==> r[i] == 1 + Levels(items[i])
    decreases items, 0
  {
    seq(|items|, i requires 0 <= i < |items| => 1 + Levels(items[i]))
  }

  function EntryLevels(entries: seq<Entry<Json>>): (r: seq<nat>)
    ensures |r| == |entries| && forall i :: 0 <= i < |entries| ==> r[i] == 1 + Levels(entries[i].value)
    decreases entries, 0
  {
    seq(|entries|, i requires 0 <= i < |entries| => 1 + Levels(entries[i].value))
  }

  function PairLevels(payload: Json): (r: nat)
    requires HasItems(payload)
    decreases payload, 1
  {
    MaxOf(PairDepths(payload))
  }

  function PairDepths(payload: Json): (r: seq<nat>)
    requires HasItems(payload)
    ensures |r| == |ItemsOf(payload)| && forall i :: 0 <= i < |r| ==>
      r[i] == 1 + if IsPair(ItemsOf(payload)[i]) then Levels(ItemsOf(payload)[i].items[1]) else 0
    decreases payload, 0
  {
    var items := ItemsOf(payload);
    seq(|items|, i requires 0 <= i < |items| => 1 + if IsPair(items[i]) then Levels(items[i].items[1]) else 0)
  }

  // ----- the decoder -----

  /** The decoder gives the candidate exactly when the payload means it and is not too
      deep. */
  ghost predicate ReadsWithin(json: Json, depth: nat, limit: nat, records: bool) {
    forall c :: Decode(json, depth, limit, records) == Ok(c) <==> Means(json, c, records) && depth + Levels(json) <= limit
  }

  lemma CollectedExactly<T>(results: seq<Result<T, CodecError>>, values: seq<T>)
    ensures Collected(results) == Ok(values) <==>
      |values| == |results| && forall i :: 0 <= i < |results| ==> results[i] == Ok(values[i])
  {
    if |values| == |results| && forall i :: 0 <= i < |results| ==> results[i] == Ok(values[i]) {
      assert Collected(results).value == values;
    }
  }

  lemma MaxWithin(ns: seq<nat>, bound: int)
    ensures bound >= 0 ==> (MaxOf(ns) <= bound <==> forall i :: 0 <= i < |ns| ==> ns[i] <= bound)
  {
  }

  lemma ListReads(items: seq<Json>, depth: nat, limit: nat, records: bool)
    requires depth <= limit && forall i :: 0 <= i < |items| ==> ReadsWithin(items[i], depth + 1, limit, records)
    ensures ReadsWithin(JsonList(items), depth, limit, records)
  {
    var results := DecodeItems(items, depth + 1, limit, records);
    MaxWithin(ItemLevels(items), limit - depth);
    forall c ensures Decode(JsonList(items), depth, limit, records) == Ok(c) <==>
      Means(JsonList(items), c, records) && depth + Levels(JsonList(items)) <= limit
    {
      if c.TupleValue? {
        CollectedExactly(results, c.items);
        if |c.items| == |items| {
          forall i | 0 <= i < |items| ensures results[i] == Ok(c.items[i]) <==>
            Means(items[i], c.items[i], records) && ItemLevels(items)[i] <= limit - depth
          {
            assert ReadsWithin(items[i], depth + 1, limit, records);
          }
        }
      }
    }
  }

  lemma EntriesRead(payloads: seq<Entry<Json>>, depth: nat, limit: nat, records: bool, entries: seq<Entry<Candidate>>)
    requires depth <= limit
    requires forall i :: 0 <= i < |payloads| ==> ReadsWithin(payloads[i].value, depth + 1, limit, records)
    ensures MeansEntries(payloads, entries, records) && depth + MaxOf(EntryLevels(payloads)) <= limit <==>
      && |entries| == |payloads| && Collected(DecodeEntries(payloads, depth + 1, limit, records)) == Ok(ValuesOf(entries))
      && entries == Keyed(Keys(payloads), ValuesOf(entries))
  {
    var results, values := DecodeEntries(payloads, depth + 1, limit, records), ValuesOf(entries);
    MaxWithin(EntryLevels(payloads), limit - depth);
    CollectedExactly(results, values);
    if |entries| == |payloads| {
      forall i | 0 <= i < |payloads| ensures results[i] == Ok(values[i]) <==>
        Means(payloads[i].value, entries[i].value, records) && EntryLevels(payloads)[i] <= limit - depth
      {
        assert ReadsWithin(payloads[i].value, depth + 1, limit, records);
      }
      KeyedExactly(payloads, entries);
    }
  }

  lemma KeyedExactly(payloads: seq<Entry<Json>>, entries: seq<Entry<Candidate>>)
    requires |entries| == |payloads|
    ensures entries == Keyed(Keys(payloads), ValuesOf(entries)) <==>
      forall i :: 0 <= i < |payloads| ==> entries[i].key == payloads[i].key
  {
    var keyed := Keyed(Keys(payloads), ValuesOf(entries));
    if forall i :: 0 <= i < |payloads| ==> entries[i].key == payloads[i].key {
      assert entries == keyed;
    }
    assert forall i :: 0 <= i < |payloads| ==> keyed[i] == Entry(payloads[i].key, entries[i].value);
  }

  function ValuesOf<T>(entries: seq<Entry<T>>): (r: seq<T>)
    ensures |r| == |entries| && forall i :: 0 <= i < |r| ==> r[i] == entries[i].value
  {
    seq(|entries|, i requires 0 <= i < |entries| => entries[i].value)
  }

  /** A pair and its value: the pair is one, its key is new, and its value is read. */
  lemma PairsRead(pairs: seq<Json>, depth: nat, limit: nat, records: bool, entries: seq<Entry<Candidate>>)
    requires |entries| == |pairs|
    requires forall i :: 0 <= i < |pairs| && IsPair(pairs[i]) ==> ReadsWithin(pairs[i].items[1], depth, limit, records)
    ensures PairsMean(pairs, entries, depth, limit, records) <==>
      && Collected(DecodePairs(pairs, depth, limit, records)) == Ok(ValuesOf(entries))
      && entries == Keyed(ItemKeys(pairs), ValuesOf(entries))
  {
    var results, values := DecodePairs(pairs, depth, limit, records), ValuesOf(entries);
    CollectedExactly(results, values);
    PairKeys(pairs, entries);
    forall i | 0 <= i < |pairs| ensures results[i] == Ok(values[i]) <==>
      NewKey(pairs, i) && Means(pairs[i].items[1], entries[i].value, records) && depth + Levels(pairs[i].items[1]) <= limit
    {
      if NewKey(pairs, i) {
        assert ReadsWithin(pairs[i].items[1], depth, limit, records);
      }
    }
  }

  predicate NewKey(pairs: seq<Json>, i: nat)
    requires i < |pairs|
  {
    IsPair(pairs[i]) && ItemKeys(pairs)[i] !in ItemKeys(pairs)[..i]
  }

  /** The entries have the keys of the pairs, all different. */
  lemma PairKeys(pairs: seq<Json>, entries: seq<Entry<Candidate>>)
    requires |entries| == |pairs|
    ensures DistinctKeys(entries) && (forall i :: 0 <= i < |pairs| ==> KeyedBy(pairs[i], entries[i].key)) <==>
      entries == Keyed(ItemKeys(pairs), ValuesOf(entries)) && forall i :: 0 <= i < |pairs| ==> NewKey(pairs, i)
  {
    var keys := ItemKeys(pairs);
    if entries == Keyed(keys, ValuesOf(entries)) && forall i :: 0 <= i < |pairs| ==> NewKey(pairs, i) {
      forall i, j | 0 <= i < j < |entries| ensures entries[i].key != entries[j].key {
        assert NewKey(pairs, j) && keys[i] in keys[..j];
      }
      forall i | 0 <= i < |pairs| ensures KeyedBy(pairs[i], entries[i].key) {
        assert NewKey(pairs, i) && entries[i].key == keys[i];
      }
    }
    if DistinctKeys(entries) && forall i :: 0 <= i < |pairs| ==> KeyedBy(pairs[i], entries[i].key) {
      assert entries == Keyed(keys, ValuesOf(entries));
      forall i | 0 <= i < |pairs| ensures NewKey(pairs, i) {
        assert KeyedBy(pairs[i], entries[i].key);
        assert forall j :: 0 <= j < i ==> keys[j] == entries[j].key;
      }
    }
  }

  ghost predicate PairsReadWithin(payload: Json, depth: nat, limit: nat, records: bool)
    requires HasItems(payload)
  {
    var items := ItemsOf(payload);
    forall i :: 0 <= i < |items| && IsPair(items[i]) ==> ReadsWithin(items[i].items[1], depth, limit, records)
  }

  /** Every item is a pair with the entry's key, a meaning and few enough levels. */
  ghost predicate PairsMean(pairs: seq<Json>, entries: seq<Entry<Candidate>>, depth: nat, limit: nat, records: bool) {
    && |entries| == |pairs| && DistinctKeys(entries)
    && forall i :: 0 <= i < |pairs| ==>
         && KeyedBy(pairs[i], entries[i].key) && Means(pairs[i].items[1], entries[i].value, records)
         && depth + Levels(pairs[i].items[1]) <= limit
  }

  lemma ItemsMean(payload: Json, entries: seq<Entry<Candidate>>, depth: nat, limit: nat, records: bool)
    requires HasItems(payload) && depth <= limit
    ensures PairsMean(ItemsOf(payload), entries, depth + 1, limit, records) <==>
      MeansItems(payload, entries, records) && depth + PairLevels(payload) <= limit
  {
    var items, depths := ItemsOf(payload), PairDepths(payload);
    MaxWithin(depths, limit - depth);
    if MeansItems(payload, entries, records) {
      forall i | 0 <= i < |items| ensures depths[i] == 1 + Levels(items[i].items[1]) {
        assert KeyedBy(items[i], entries[i].key);
      }
    }
    if PairsMean(items, entries, depth + 1, limit, records) {
      forall i | 0 <= i < |items| ensures depths[i] <= limit - depth {
        assert KeyedBy(items[i], entries[i].key);
      }
    }
  }

  lemma EscapeGives(payload: Json, depth: nat, limit: nat, records: bool, c: Candidate)
    requires HasItems(payload) && depth + 1 <= limit
    ensures var pairs := ItemsOf(payload);
      DecodeEscape(payload, depth, limit, records) == Ok(c) <==>
        && c.MappingValue? && c.isRecord == records && |c.entries| == |pairs|
        && Collected(DecodePairs(pairs, depth + 2, limit, records)) == Ok(ValuesOf(c.entries))
        && c.entries == Keyed(ItemKeys(pairs), ValuesOf(c.entries))
  {
    MarkersAre();
    var collected := Collected(DecodePairs(ItemsOf(payload), depth + 2, limit, records));
    if DecodeEscape(payload, depth, limit, records) == Ok(c) {
      assert ValuesOf(c.entries) == collected.value;
    }
  }

  lemma PayloadReads(payload: Json, depth: nat, limit: nat, records: bool, c: Candidate)
    requires HasItems(payload) && depth + 1 <= limit && PairsReadWithin(payload, depth + 2, limit, records)
    ensures DecodeEscape(payload, depth, limit, records) == Ok(c) <==>
      && c.MappingValue? && c.isRecord == records && MeansItems(payload, c.entries, records)
      && depth + 1 + PairLevels(payload) <= limit
  {
    EscapeGives(payload, depth, limit, records, c);
    if c.MappingValue? {
      if |c.entries| == |ItemsOf(payload)| {
        PairsRead(ItemsOf(payload), depth + 2, limit, records, c.entries);
      }
      ItemsMean(payload, c.entries, depth + 1, limit, records);
    }
  }

  lemma MarkersAre()
    ensures "__variopt_bytes__" == BYTES_MARKER && "__variopt_bytearray__" == BYTEARRAY_MARKER
    ensures "__variopt_mapping__" == MAPPING_MARKER && "variopt.mapping" == MAPPING_FORMAT
    ensures "format" == FORMAT_FIELD && "items" == ITEMS_FIELD
    ensures BYTES_MARKER != BYTEARRAY_MARKER && BYTES_MARKER != MAPPING_MARKER && BYTEARRAY_MARKER != MAPPING_MARKER
  {
    MarkersDiffer();
  }

  lemma BytesRead(entries: seq<Entry<Json>>, depth: nat, limit: nat, records: bool)
    requires depth <= limit
    requires OnlyKey(entries, "__variopt_bytes__") || OnlyKey(entries, "__variopt_bytearray__")
    ensures ReadsWithin(JsonObject(entries), depth, limit, records)
  {
    MarkersAre();
    if entries[0].value.JsonStr? {
      var text := entries[0].value.text;
      forall bytes ensures FromHex(text) == Ok(bytes) <==> HexText(text, bytes) {
        HexReadsExactly(text, bytes);
      }
    }
  }

  lemma WrappingReads(entries: seq<Entry<Json>>, depth: nat, limit: nat, records: bool)
    requires depth <= limit && IsWrapping(entries)
    requires HasItems(entries[0].value) ==> PairsReadWithin(entries[0].value, depth + 3, limit, records)
    ensures ReadsWithin(JsonObject(entries), depth, limit, records)
  {
    MarkersAre();
    var payload := entries[0].value;
    if HasItems(payload) && depth + 2 <= limit {
      forall c {
        PayloadReads(payload, depth + 1, limit, records, c);
      }
    }
  }

  lemma PlainReads(entries: seq<Entry<Json>>, depth: nat, limit: nat, records: bool)
    requires depth <= limit && !IsWrapping(entries)
    requires !OnlyKey(entries, "__variopt_bytes__") && !OnlyKey(entries, "__variopt_bytearray__")
    requires forall i :: 0 <= i < |entries| ==> ReadsWithin(entries[i].value, depth + 1, limit, records)
    ensures ReadsWithin(JsonObject(entries), depth, limit, records)
  {
    MarkersAre();
    if IsOnly(entries, MAPPING_MARKER) && depth + 1 > limit {
      MarkedTooDeep(entries, depth, limit, records);
    } else {
      forall c: Candidate | c.MappingValue? && c.isRecord == records
        ensures Decode(JsonObject(entries), depth, limit, records) == Ok(c) <==>
          MeansEntries(entries, c.entries, records) && depth + MaxOf(EntryLevels(entries)) <= limit
      {
        EntriesRead(entries, depth, limit, records, c.entries);
        PlainGives(entries, depth, limit, records, c);
      }
      PlainMeans(entries, depth, limit, records);
    }
  }

  lemma PlainMeans(entries: seq<Entry<Json>>, depth: nat, limit: nat, records: bool)
    requires depth <= limit && !IsWrapping(entries) && !IsOnly(entries, BYTES_MARKER) && !IsOnly(entries, BYTEARRAY_MARKER)
    requires forall c: Candidate :: c.MappingValue? && c.isRecord == records ==>
      (Decode(JsonObject(entries), depth, limit, records) == Ok(c) <==>
         MeansEntries(entries, c.entries, records) && depth + MaxOf(EntryLevels(entries)) <= limit)
    ensures ReadsWithin(JsonObject(entries), depth, limit, records)
  {
    MarkersAre();
  }

  lemma MarkedTooDeep(entries: seq<Entry<Json>>, depth: nat, limit: nat, records: bool)
    requires IsOnly(entries, MAPPING_MARKER) && depth <= limit < depth + 1 && !IsWrapping(entries)
    ensures ReadsWithin(JsonObject(entries), depth, limit, records)
  {
    MarkersAre();
    assert EntryLevels(entries)[0] >= 1;
    assert DecodeEntries(entries, depth + 1, limit, records)[0].Err?;
  }

  lemma PlainGives(entries: seq<Entry<Json>>, depth: nat, limit: nat, records: bool, c: Candidate)
    requires depth <= limit && !IsEscape(entries) && !IsOnly(entries, BYTES_MARKER) && !IsOnly(entries, BYTEARRAY_MARKER)
    requires !(IsOnly(entries, MAPPING_MARKER) && depth + 1 > limit)
    requires c.MappingValue? && c.isRecord == records
    ensures Decode(JsonObject(entries), depth, limit, records) == Ok(c) <==>
      && |c.entries| == |entries| && Collected(DecodeEntries(entries, depth + 1, limit, records)) == Ok(ValuesOf(c.entries))
      && c.entries == Keyed(Keys(entries), ValuesOf(c.entries))
  {
    var collected := Collected(DecodeEntries(entries, depth + 1, limit, records));
    if Decode(JsonObject(entries), depth, limit, records) == Ok(c) {
      assert ValuesOf(c.entries) == collected.value;
    }
  }

  /** Decoding gives a candidate exactly when the payload means it and is not nested
      deeper than the limit. */
  lemma {:induction false} DecodesExactly(json: Json, depth: nat, limit: nat, records: bool)
    ensures ReadsWithin(json, depth, limit, records)
    decreases json, 1
  {
    if depth > limit {
      NothingTooDeep(json, depth, limit, records);
    } else if json.JsonList? {
      forall i | 0 <= i < |json.items| ensures ReadsWithin(json.items[i], depth + 1, limit, records) {
        DecodesExactly(json.items[i], depth + 1, limit, records);
      }
      ListReads(json.items, depth, limit, records);
    } else if json.JsonObject? {
      ObjectReads(json, depth, limit, records);
    } else {
      ScalarReads(json, depth, limit, records);
    }
  }

  lemma NothingTooDeep(json: Json, depth: nat, limit: nat, records: bool)
    requires depth > limit
    ensures ReadsWithin(json, depth, limit, records)
  {
  }

  lemma ScalarReads(json: Json, depth: nat, limit: nat, records: bool)
    requires depth <= limit && !json.JsonList? && !json.JsonObject?
    ensures ReadsWithin(json, depth, limit, records)
  {
  }

  lemma {:induction false} ObjectReads(json: Json, depth: nat, limit: nat, records: bool)
    requires depth <= limit && json.JsonObject?
    ensures ReadsWithin(json, depth, limit, records)
    decreases json, 0
  {
    var entries := json.entries;
    if OnlyKey(entries, "__variopt_bytes__") || OnlyKey(entries, "__variopt_bytearray__") {
      BytesRead(entries, depth, limit, records);
    } else if IsWrapping(entries) {
      var payload := entries[0].value;
      if HasItems(payload) {
        var items := ItemsOf(payload);
        forall i | 0 <= i < |items| && IsPair(items[i])
          ensures ReadsWithin(items[i].items[1], depth + 3, limit, records)
        {
          assert items[i] < payload && payload == entries[0].value;
          DecodesExactly(items[i].items[1], depth + 3, limit, records);
        }
      }
      WrappingReads(entries, depth, limit, records);
    } else {
      forall i | 0 <= i < |entries| ensures ReadsWithin(entries[i].value, depth + 1, limit, records) {
        DecodesExactly(entries[i].value, depth + 1, limit, records);
      }
      PlainReads(entries, depth, limit, records);
    }
  }

  // ----- the encoder -----

  /** The encoding of a candidate means it, and has as many levels as the candidate
      weighs. */
  lemma EncodingMeans(c: Candidate, depth: nat, limit: nat, records: bool)
    requires Encode(c, depth, limit).Ok?
    ensures var json := Encode(c, depth, limit).value;
      Means(json, Retyped(c, records), records) && Levels(json) == Weight(c)
  {
    var json := Encode(c, depth, limit).value;
    DecodesItsEncoding(c, depth, limit, 0, Weight(c), records);
    DecodesItsEncoding(c, depth, limit, 0, Levels(json), records);
    DecodesExactly(json, 0, Weight(c), records);
    DecodesExactly(json, 0, Levels(json), records);
    assert Decode(json, 0, Weight(c), records) == Ok(Retyped(c, records));
    assert Decode(json, 0, Levels(json), records) == Ok(Retyped(c, records));
  }

  predicate ReservedKey(key: string) {
    key == "__variopt_bytes__" || key == "__variopt_bytearray__" || key == "__variopt_mapping__"
  }

  /** The object that a mapping with the one reserved key is written as. */
  function WrappingOf(key: string, value: Json): (r: Json) {
    JsonObject([Entry("__variopt_mapping__", JsonObject([
      Entry("format", JsonStr("variopt.mapping")), Entry("items", JsonList([JsonList([JsonStr(key), value])]))]))])
  }

  /** How a candidate is written: the encodings of its parts in their order, under
      their own keys unless there is just one and it is reserved. */
  ghost predicate WrittenAs(c: Candidate, json: Json, depth: nat, limit: nat) {
    match c
    case BytesValue(bytes) => json == JsonObject([Entry("__variopt_bytes__", JsonStr(Hex(bytes)))])
    case ByteArrayValue(bytes) => json == JsonObject([Entry("__variopt_bytearray__", JsonStr(Hex(bytes)))])
    case TupleValue(items) =>
      json.JsonList? && |json.items| == |items|
      && forall i :: 0 <= i < |items| ==> Encode(items[i], depth + 1, limit) == Ok(json.items[i])
    case MappingValue(_, entries) =>
      if |entries| == 1 && ReservedKey(entries[0].key) then
        var value := Encode(entries[0].value, depth + 1, limit);
        value.Ok? && json == WrappingOf(entries[0].key, value.value)
      else
        && json.JsonObject? && |json.entries| == |entries|
        && forall i :: 0 <= i < |entries| ==>
             json.entries[i].key == entries[i].key && Encode(entries[i].value, depth + 1, limit) == Ok(json.entries[i].value)
    case _ => !json.JsonObject? && !json.JsonList?
  }

  lemma WrittenPlainly(c: Candidate, depth: nat, limit: nat)
    requires Encode(c, depth, limit).Ok?
    ensures WrittenAs(c, Encode(c, depth, limit).value, depth, limit)
  {
    MarkersAre();
    match c
    case TupleValue(items) =>
      var jsons := EncodedTuple(items, depth, limit);
    case MappingValue(isRecord, entries) =>
      var jsons := EncodedMapping(isRecord, entries, depth, limit);
      if NeedsEscape(entries) {
        WrappingIs(entries, jsons);
      }
    case _ =>
  }

  lemma WrappingIs(entries: seq<Entry<Candidate>>, jsons: seq<Json>)
    requires |entries| == |jsons| == 1
    ensures Escaped(Keyed(Keys(entries), jsons)) == WrappingOf(entries[0].key, jsons[0])
  {
    var keyed := Keyed(Keys(entries), jsons);
    assert seq(|keyed|, i requires 0 <= i < |keyed| => JsonList([JsonStr(keyed[i].key), keyed[i].value]))
      == [JsonList([JsonStr(entries[0].key), jsons[0]])];
  }

  // ----- errors -----

  /** There is something in the candidate that cannot be encoded for that reason. */
  ghost predicate Unencodable(c: Candidate, e: CodecError)
    decreases c
  {
    match c
    case FloatValue(x) => x.NonFinite? && e.NotFinite?
    case UnsupportedValue => e.Unsupported?
    case TupleValue(items) => exists i :: 0 <= i < |items| && Unencodable(items[i], e)
    case MappingValue(_, entries) => exists i :: 0 <= i < |entries| && Unencodable(entries[i].value, e)
    case _ => false
  }

  ghost predicate FailsFor(c: Candidate, depth: nat, limit: nat, e: CodecError) {
    if e.TooDeep? then depth + Depth(c) > limit else Unencodable(c, e)
  }

  /** An encoding that fails tells why: too many levels, or the fault of some part. */
  lemma {:induction false} EncodingFailsWith(c: Candidate, depth: nat, limit: nat, e: CodecError)
    requires Encode(c, depth, limit) == Err(e)
    ensures FailsFor(c, depth, limit, e)
    decreases c
  {
    if depth > limit {
    } else if c.TupleValue? {
      var i := FirstFailure(EncodeItems(c.items, depth + 1, limit), e);
      EncodingFailsWith(c.items[i], depth + 1, limit, e);
      ItemFails(c.items, i, depth, limit, e);
    } else if c.MappingValue? {
      var i := FirstFailure(EncodeEntries(c.entries, depth + 1, limit), e);
      EncodingFailsWith(c.entries[i].value, depth + 1, limit, e);
      EntryFails(c.isRecord, c.entries, i, depth, limit, e);
    } else {
      ScalarFails(c, depth, limit, e);
    }
  }

  lemma ScalarFails(c: Candidate, depth: nat, limit: nat, e: CodecError)
    requires depth <= limit && Encode(c, depth, limit) == Err(e) && !c.TupleValue? && !c.MappingValue?
    ensures FailsFor(c, depth, limit, e)
  {
  }

  lemma FirstFailure<T>(results: seq<Result<T, CodecError>>, e: CodecError) returns (i: nat)
    requires Collected(results).Err? && Collected(results).error == e
    ensures i < |results| && results[i] == Err(e)
  {
    i :| i < |results| && results[i] == Err(e);
  }

  lemma ItemFails(items: seq<Candidate>, i: nat, depth: nat, limit: nat, e: CodecError)
    requires i < |items| && FailsFor(items[i], depth + 1, limit, e)
    ensures FailsFor(TupleValue(items), depth, limit, e)
  {
    assert ItemDepths(items)[i] == 1 + Depth(items[i]);
  }

  lemma EntryFails(isRecord: bool, entries: seq<Entry<Candidate>>, i: nat, depth: nat, limit: nat, e: CodecError)
    requires i < |entries| && FailsFor(entries[i].value, depth + 1, limit, e)
    ensures FailsFor(MappingValue(isRecord, entries), depth, limit, e)
  {
    assert EntryDepths(entries)[i] == 1 + Depth(entries[i].value);
  }

  /** There is something in the payload that means nothing, for that reason. */
  ghost predicate Faulty(json: Json, e: CodecError)
    decreases json
  {
    match json
    case JsonNull => e.BadPayload?
    case JsonFloat(x) => x.NonFinite? && e.NotFinite?
    case JsonList(items) => exists i :: 0 <= i < |items| && Faulty(items[i], e)
    case JsonObject(entries) =>
      if OnlyKey(entries, "__variopt_bytes__") || OnlyKey(entries, "__variopt_bytearray__") then
        if !entries[0].value.JsonStr? then e.BadPayload?
        else e.BadHex? && forall bytes :: !HexText(entries[0].value.text, bytes)
      else if IsWrapping(entries) then
        if !HasItems(entries[0].value) then e.BadPayload? else FaultyItem(entries[0].value, e)
      else exists i :: 0 <= i < |entries| && Faulty(entries[i].value, e)
    case _ => false
  }

  ghost predicate FaultyItem(payload: Json, e: CodecError)
    requires HasItems(payload)
    decreases payload, 0
  {
    var items := ItemsOf(payload);
    exists i: nat :: i < |items| && if NewKey(items, i) then Faulty(items[i].items[1], e) else e.BadPayload?
  }

  ghost predicate RefusedFor(json: Json, depth: nat, limit: nat, e: CodecError) {
    if e.TooDeep? then depth + Levels(json) > limit else Faulty(json, e)
  }

  lemma HexFails(s: string)
    ensures FromHex(s).Err? ==> FromHex(s).error.BadHex? && forall bytes :: !HexText(s, bytes)
    decreases |s|
  {
    if FromHex(s).Err? {
      HexErrors(s);
      forall bytes ensures !HexText(s, bytes) {
        HexReadsExactly(s, bytes);
      }
    }
  }

  lemma {:induction false} HexErrors(s: string)
    ensures FromHex(s).Err? ==> FromHex(s).error.BadHex?
    decreases |s|
  {
    if s != "" {
      if IsSpace(s[0]) {
        HexErrors(s[1..]);
      } else if |s| >= 2 {
        HexErrors(s[2..]);
      }
    }
  }

  lemma ListRefused(items: seq<Json>, i: nat, depth: nat, limit: nat, e: CodecError)
    requires i < |items| && RefusedFor(items[i], depth + 1, limit, e)
    ensures RefusedFor(JsonList(items), depth, limit, e)
  {
    assert ItemLevels(items)[i] == 1 + Levels(items[i]);
  }

  lemma EntryRefused(entries: seq<Entry<Json>>, i: nat, depth: nat, limit: nat, e: CodecError)
    requires i < |entries| && RefusedFor(entries[i].value, depth + 1, limit, e) && !IsWrapping(entries)
    requires !OnlyKey(entries, "__variopt_bytes__") && !OnlyKey(entries, "__variopt_bytearray__")
    ensures RefusedFor(JsonObject(entries), depth, limit, e)
  {
    assert EntryLevels(entries)[i] == 1 + Levels(entries[i].value);
  }

  /** An item that is no pair with a new key, or whose value is refused. */
  lemma ItemRefused(entries: seq<Entry<Json>>, i: nat, depth: nat, limit: nat, e: CodecError)
    requires IsWrapping(entries) && HasItems(entries[0].value) && i < |ItemsOf(entries[0].value)|
    requires var items := ItemsOf(entries[0].value);
      if NewKey(items, i) then RefusedFor(items[i].items[1], depth + 3, limit, e) else e.BadPayload?
    ensures RefusedFor(JsonObject(entries), depth, limit, e)
  {
    MarkersAre();
    var payload := entries[0].value;
    var items := ItemsOf(payload);
    if e.TooDeep? {
      assert PairDepths(payload)[i] == 1 + Levels(items[i].items[1]);
    } else {
      assert FaultyItem(payload, e);
    }
  }

  lemma MarkedRefused(entries: seq<Entry<Json>>, depth: nat, limit: nat, e: CodecError)
    requires OnlyKey(entries, "__variopt_mapping__") && depth + 1 > limit && e.TooDeep?
    ensures RefusedFor(JsonObject(entries), depth, limit, e)
  {
    MarkersAre();
    if !IsWrapping(entries) {
      assert EntryLevels(entries)[0] >= 1;
    }
  }

  /** A payload that is refused tells why: too many levels, or the fault of some part. */
  lemma {:induction false} DecodingFailsWith(json: Json, depth: nat, limit: nat, records: bool, e: CodecError)
    requires Decode(json, depth, limit, records) == Err(e)
    ensures RefusedFor(json, depth, limit, e)
    decreases json, 1
  {
    if depth > limit {
    } else if json.JsonList? {
      var i := FirstFailure(DecodeItems(json.items, depth + 1, limit, records), e);
      DecodingFailsWith(json.items[i], depth + 1, limit, records, e);
      ListRefused(json.items, i, depth, limit, e);
    } else if json.JsonObject? {
      ObjectFailsWith(json, depth, limit, records, e);
    } else {
      ScalarRefused(json, depth, limit, records, e);
    }
  }

  lemma ScalarRefused(json: Json, depth: nat, limit: nat, records: bool, e: CodecError)
    requires depth <= limit && Decode(json, depth, limit, records) == Err(e) && !json.JsonList? && !json.JsonObject?
    ensures RefusedFor(json, depth, limit, e)
  {
  }

  lemma {:induction false} ObjectFailsWith(json: Json, depth: nat, limit: nat, records: bool, e: CodecError)
    requires json.JsonObject? && depth <= limit && Decode(json, depth, limit, records) == Err(e)
    ensures RefusedFor(json, depth, limit, e)
    decreases json, 0
  {
    MarkersAre();
    var entries := json.entries;
    if OnlyKey(entries, "__variopt_bytes__") || OnlyKey(entries, "__variopt_bytearray__") {
      if entries[0].value.JsonStr? {
        HexFails(entries[0].value.text);
      }
    } else if OnlyKey(entries, "__variopt_mapping__") && entries[0].value.JsonObject? && depth + 1 > limit {
      MarkedRefused(entries, depth, limit, e);
    } else if IsWrapping(entries) {
      var payload := entries[0].value;
      if HasItems(payload) && depth + 2 <= limit {
        var items := ItemsOf(payload);
        var i := FirstFailure(DecodePairs(items, depth + 3, limit, records), e);
        if NewKey(items, i) {
          DecodingFailsWith(items[i].items[1], depth + 3, limit, records, e);
        }
        ItemRefused(entries, i, depth, limit, e);
      }
    } else {
      var i := FirstFailure(DecodeEntries(entries, depth + 1, limit, records), e);
      DecodingFailsWith(entries[i].value, depth + 1, limit, records, e);
      EntryRefused(entries, i, depth, limit, e);
    }
  }
}
