// The JSON codec of structured candidates: reserved-marker escaping, hexadecimal
// byte strings, and the depth limits of the two directions
// (src/variopt/spaces/serialization.py).
module CandidateCodec {
  import opened Outcomes

  newtype Byte = x: int | 0 <= x < 256

  datatype Float = Finite(value: real) | NonFinite

  datatype Entry<T> = Entry(key: string, value: T)

  /** A structured candidate. A mapping keeps its entries in insertion order, with
      unique keys; `isRecord` tells a record candidate from a plain mapping. */
  datatype Candidate =
    | IntValue(int)
    | BoolValue(bool)
    | StrValue(string)
    | FloatValue(Float)
    | BytesValue(bytes: seq<Byte>)
    | ByteArrayValue(bytes: seq<Byte>)
    | TupleValue(items: seq<Candidate>)
    | MappingValue(isRecord: bool, entries: seq<Entry<Candidate>>)
    | UnsupportedValue

  datatype Json =
    | JsonNull
    | JsonInt(int)
    | JsonBool(bool)
    | JsonStr(text: string)
    | JsonFloat(Float)
    | JsonList(items: seq<Json>)
    | JsonObject(entries: seq<Entry<Json>>)

  datatype CodecError = TooDeep | NotFinite | Unsupported | BadPayload | BadHex

  const BYTES_MARKER := "__variopt_bytes__"
  const BYTEARRAY_MARKER := "__variopt_bytearray__"
  const MAPPING_MARKER := "__variopt_mapping__"
  const MAPPING_FORMAT := "variopt.mapping"
  const FORMAT_FIELD := "format"
  const ITEMS_FIELD := "items"
  const MAX_DEPTH: nat := 256

  // ----- the first error of a sequence decides -----

  function Collected<T>(results: seq<Result<T, CodecError>>): (r: Result<seq<T>, CodecError>)
    ensures r.Ok? <==> forall i :: 0 <= i < |results| ==> results[i].Ok?
    ensures r.Ok? ==> |r.value| == |results| && forall i :: 0 <= i < |results| ==> results[i] == Ok(r.value[i])
    ensures r.Err? ==> exists i :: 0 <= i < |results| && results[i] == Err(r.error)
  {
    if results == [] then Ok([])
    else if results[0].Err? then Err(results[0].error)
    else match Collected(results[1..])
      case Err(e) => Err(e)
      case Ok(rest) => Ok([results[0].value] + rest)
  }

  // ----- hexadecimal -----

  function HexDigit(n: int): (c: char)
    requires 0 <= n < 16
  {
    if n < 10 then '0' + n as char else 'a' + (n - 10) as char
  }

  function DigitValue(c: char): (r: Option<int>)
    ensures r.Some? ==> 0 <= r.value < 16
  {
    if '0' <= c <= '9' then Some((c - '0') as int)
    else if 'a' <= c <= 'f' then Some((c - 'a') as int + 10)
    else if 'A' <= c <= 'F' then Some((c - 'A') as int + 10)
    else None
  }

  function Hex(bytes: seq<Byte>): (r: string) {
    if bytes == [] then ""
    else [HexDigit(bytes[0] as int / 16), HexDigit(bytes[0] as int % 16)] + Hex(bytes[1..])
  }

  predicate IsSpace(c: char) {
    c == ' ' || '\t' <= c <= '\r'
  }

  /** White space may stand between the bytes, and either case is read. */
  function FromHex(s: string): (r: Result<seq<Byte>, CodecError>)
    decreases |s|
  {
    if s == "" then Ok([])
    else if IsSpace(s[0]) then FromHex(s[1..])
    else if |s| < 2 || DigitValue(s[0]).None? || DigitValue(s[1]).None? then Err(BadHex)
    else match FromHex(s[2..])
      case Err(e) => Err(e)
      case Ok(rest) => Ok([(DigitValue(s[0]).value * 16 + DigitValue(s[1]).value) as Byte] + rest)
  }

  lemma DigitRoundTrip(n: int)
    requires 0 <= n < 16
    ensures DigitValue(HexDigit(n)) == Some(n) && !IsSpace(HexDigit(n))
  {
  }

  lemma {:induction false} HexRoundTrip(bytes: seq<Byte>)
    ensures FromHex(Hex(bytes)) == Ok(bytes)
  {
    if bytes != [] {
      HexRoundTrip(bytes[1..]);
      var high, low := bytes[0] as int / 16, bytes[0] as int % 16;
      ReadPair(high, low, Hex(bytes[1..]), bytes[1..], Hex(bytes));
      assert [bytes[0]] + bytes[1..] == bytes;
    }
  }

  lemma ReadPair(high: int, low: int, rest: string, bytes: seq<Byte>, s: string)
    requires 0 <= high < 16 && 0 <= low < 16 && FromHex(rest) == Ok(bytes)
    requires s == [HexDigit(high), HexDigit(low)] + rest
    ensures FromHex(s) == Ok([(high * 16 + low) as Byte] + bytes)
  {
    DigitRoundTrip(high);
    DigitRoundTrip(low);
    assert s[2..] == rest && s[0] == HexDigit(high) && s[1] == HexDigit(low);
  }

  /** What is read without its white space, in lower case. */
  function Plain(s: string): (r: string) {
    if s == "" then ""
    else (if IsSpace(s[0]) then "" else if 'A' <= s[0] <= 'F' then [s[0] - 'A' + 'a'] else [s[0]]) + Plain(s[1..])
  }

  /** A text that is accepted is, white space and case apart, that of the bytes read. */
  lemma {:induction false} HexReadsWhatItWrites(s: string)
    requires FromHex(s).Ok?
    ensures Hex(FromHex(s).value) == Plain(s)
    decreases |s|
  {
    if s != "" {
      if IsSpace(s[0]) {
        HexReadsWhatItWrites(s[1..]);
      } else {
        HexReadsWhatItWrites(s[2..]);
        PlainDigit(s);
        PlainDigit(s[1..]);
        assert s[1..][1..] == s[2..];
        HexPair(DigitValue(s[0]).value, DigitValue(s[1]).value, FromHex(s[2..]).value);
      }
    }
  }

  lemma PlainDigit(s: string)
    requires s != "" && DigitValue(s[0]).Some?
    ensures Plain(s) == [HexDigit(DigitValue(s[0]).value)] + Plain(s[1..])
  {
    DigitReadsBack(s[0]);
  }

  lemma HexPair(high: int, low: int, rest: seq<Byte>)
    requires 0 <= high < 16 && 0 <= low < 16
    ensures Hex([(high * 16 + low) as Byte] + rest) == [HexDigit(high)] + ([HexDigit(low)] + Hex(rest))
  {
    var bytes := [(high * 16 + low) as Byte] + rest;
    assert bytes[1..] == rest && bytes[0] as int / 16 == high && bytes[0] as int % 16 == low;
  }

  lemma DigitReadsBack(c: char)
    requires DigitValue(c).Some?
    ensures HexDigit(DigitValue(c).value) == (if 'A' <= c <= 'F' then c - 'A' + 'a' else c) && !IsSpace(c)
  {
  }

  // ----- encoding -----

  predicate IsReserved(key: string) {
    key == BYTES_MARKER || key == BYTEARRAY_MARKER || key == MAPPING_MARKER
  }

  /** A mapping whose only key is a reserved marker cannot be written as it is. */
  predicate NeedsEscape<T>(entries: seq<Entry<T>>) {
    |entries| == 1 && IsReserved(entries[0].key)
  }

  function Escaped(entries: seq<Entry<Json>>): (r: Json) {
    JsonObject([Entry(MAPPING_MARKER, JsonObject([
      Entry(FORMAT_FIELD, JsonStr(MAPPING_FORMAT)),
      Entry(ITEMS_FIELD, JsonList(seq(|entries|, i requires 0 <= i < |entries| =>
        JsonList([JsonStr(entries[i].key), entries[i].value]))))]))])
  }

  function Keyed<T>(keys: seq<string>, values: seq<T>): (r: seq<Entry<T>>)
    requires |keys| == |values|
    ensures |r| == |keys| && forall i :: 0 <= i < |r| ==> r[i] == Entry(keys[i], values[i])
  {
    seq(|keys|, i requires 0 <= i < |keys| => Entry(keys[i], values[i]))
  }

  function Keys<T>(entries: seq<Entry<T>>): (r: seq<string>)
    ensures |r| == |entries| && forall i :: 0 <= i < |r| ==> r[i] == entries[i].key
  {
    seq(|entries|, i requires 0 <= i < |entries| => entries[i].key)
  }

  function Encode(c: Candidate, depth: nat, limit: nat): (r: Result<Json, CodecError>)
    decreases c
  {
    if depth > limit then Err(TooDeep)
    else match c
      case ByteArrayValue(bytes) => Ok(JsonObject([Entry(BYTEARRAY_MARKER, JsonStr(Hex(bytes)))]))
      case BytesValue(bytes) => Ok(JsonObject([Entry(BYTES_MARKER, JsonStr(Hex(bytes)))]))
      case FloatValue(x) => if x.NonFinite? then Err(NotFinite) else Ok(JsonFloat(x))
      case BoolValue(b) => Ok(JsonBool(b))
      case IntValue(n) => Ok(JsonInt(n))
      case StrValue(s) => Ok(JsonStr(s))
      case TupleValue(items) =>
        (match Collected(EncodeItems(items, depth + 1, limit))
         case Err(e) => Err(e)
         case Ok(values) => Ok(JsonList(values)))
      case MappingValue(_, entries) =>
        (match Collected(EncodeEntries(entries, depth + 1, limit))
         case Err(e) => Err(e)
         case Ok(values) =>
           var encoded := Keyed(Keys(entries), values);
           Ok(if NeedsEscape(entries) then Escaped(encoded) else JsonObject(encoded)))
      case UnsupportedValue => Err(Unsupported)
  }

  function EncodeItems(items: seq<Candidate>, depth: nat, limit: nat): (r: seq<Result<Json, CodecError>>)
    ensures |r| == |items| && forall i :: 0 <= i < |items| ==> r[i] == Encode(items[i], depth, limit)
    decreases items
  {
    seq(|items|, i requires 0 <= i < |items| => Encode(items[i], depth, limit))
  }

  function EncodeEntries(entries: seq<Entry<Candidate>>, depth: nat, limit: nat): (r: seq<Result<Json, CodecError>>)
    ensures |r| == |entries| && forall i :: 0 <= i < |entries| ==> r[i] == Encode(entries[i].value, depth, limit)
    decreases entries
  {
    seq(|entries|, i requires 0 <= i < |entries| => Encode(entries[i].value, depth, limit))
  }

  // ----- decoding -----

  function Field(entries: seq<Entry<Json>>, key: string): (r: Option<Json>) {
    if entries == [] then None
    else if entries[0].key == key then Some(entries[0].value)
    else Field(entries[1..], key)
  }

  predicate IsOnly(entries: seq<Entry<Json>>, marker: string) {
    |entries| == 1 && entries[0].key == marker
  }

  /** The payload of an escaped mapping, unless it is an ordinary mapping. */
  predicate IsEscape(entries: seq<Entry<Json>>) {
    IsOnly(entries, MAPPING_MARKER) && entries[0].value.JsonObject?
    && Field(entries[0].value.entries, FORMAT_FIELD) == Some(JsonStr(MAPPING_FORMAT))
  }

  predicate IsPair(item: Json) {
    item.JsonList? && |item.items| == 2 && item.items[0].JsonStr?
  }

  function ItemKeys(items: seq<Json>): (r: seq<string>)
    ensures |r| == |items|
  {
    seq(|items|, i requires 0 <= i < |items| => if IsPair(items[i]) then items[i].items[0].text else "")
  }

  function Decode(d: Json, depth: nat, limit: nat, records: bool): (r: Result<Candidate, CodecError>)
    decreases d
  {
    if depth > limit then Err(TooDeep)
    else match d
      case JsonList(items) =>
        (match Collected(DecodeItems(items, depth + 1, limit, records))
         case Err(e) => Err(e)
         case Ok(values) => Ok(TupleValue(values)))
      case JsonObject(entries) =>
        if IsOnly(entries, BYTES_MARKER) then
          (if !entries[0].value.JsonStr? then Err(BadPayload)
           else match FromHex(entries[0].value.text)
             case Err(e) => Err(e)
             case Ok(bytes) => Ok(BytesValue(bytes)))
        else if IsOnly(entries, BYTEARRAY_MARKER) then
          (if !entries[0].value.JsonStr? then Err(BadPayload)
           else match FromHex(entries[0].value.text)
             case Err(e) => Err(e)
             case Ok(bytes) => Ok(ByteArrayValue(bytes)))
        else if IsOnly(entries, MAPPING_MARKER) && entries[0].value.JsonObject? && depth + 1 > limit then Err(TooDeep)
        else if IsEscape(entries) then
          DecodeEscape(entries[0].value, depth + 1, limit, records)
        else
          (match Collected(DecodeEntries(entries, depth + 1, limit, records))
           case Err(e) => Err(e)
           case Ok(values) => Ok(MappingValue(records, Keyed(Keys(entries), values))))
      case JsonNull => Err(BadPayload)
      case JsonFloat(x) => if x.NonFinite? then Err(NotFinite) else Ok(FloatValue(x))
      case JsonBool(b) => Ok(BoolValue(b))
      case JsonInt(n) => Ok(IntValue(n))
      case JsonStr(s) => Ok(StrValue(s))
  }

  function DecodeItems(items: seq<Json>, depth: nat, limit: nat, records: bool)
    : (r: seq<Result<Candidate, CodecError>>)
    ensures |r| == |items| && forall i :: 0 <= i < |items| ==> r[i] == Decode(items[i], depth, limit, records)
    decreases items
  {
    seq(|items|, i requires 0 <= i < |items| => Decode(items[i], depth, limit, records))
  }

  function DecodeEntries(entries: seq<Entry<Json>>, depth: nat, limit: nat, records: bool)
    : (r: seq<Result<Candidate, CodecError>>)
    ensures |r| == |entries| && forall i :: 0 <= i < |entries| ==> r[i] == Decode(entries[i].value, depth, limit, records)
    decreases entries
  {
    seq(|entries|, i requires 0 <= i < |entries| => Decode(entries[i].value, depth, limit, records))
  }

  /** Each pair of an escaped mapping, with a string key not seen before. */
  function DecodePairs(pairs: seq<Json>, depth: nat, limit: nat, records: bool)
    : (r: seq<Result<Candidate, CodecError>>)
    ensures |r| == |pairs| && forall i :: 0 <= i < |pairs| ==>
      r[i] == if !IsPair(pairs[i]) || ItemKeys(pairs)[i] in ItemKeys(pairs)[..i] then Err(BadPayload)
              else Decode(pairs[i].items[1], depth, limit, records)
    decreases pairs
  {
    seq(|pairs|, i requires 0 <= i < |pairs| =>
      if !IsPair(pairs[i]) || ItemKeys(pairs)[i] in ItemKeys(pairs)[..i] then Err(BadPayload)
      else Decode(pairs[i].items[1], depth, limit, records))
  }

  /** The items of an escaped mapping, one level below its payload. */
  function DecodeEscape(payload: Json, depth: nat, limit: nat, records: bool): (r: Result<Candidate, CodecError>)
    requires payload.JsonObject?
    decreases payload
  {
    var items := Field(payload.entries, ITEMS_FIELD);
    if items.None? || !items.value.JsonList? then Err(BadPayload)
    else if depth + 1 > limit then Err(TooDeep)
    else
      FieldIsSmaller(payload, ITEMS_FIELD);
      var pairs := items.value.items;
      match Collected(DecodePairs(pairs, depth + 2, limit, records))
      case Err(e) => Err(e)
      case Ok(values) => Ok(MappingValue(records, Keyed(ItemKeys(pairs), values)))
  }

  lemma FieldIsSmaller(payload: Json, key: string)
    requires payload.JsonObject? && Field(payload.entries, key).Some?
    ensures Field(payload.entries, key).value < payload
  {
    FieldIsEntry(payload.entries, key);
  }

  lemma {:induction false} FieldIsEntry(entries: seq<Entry<Json>>, key: string)
    requires Field(entries, key).Some?
    ensures exists i :: 0 <= i < |entries| && entries[i] == Entry(key, Field(entries, key).value)
  {
    if entries[0].key == key {
      assert entries[0] == Entry(key, entries[0].value);
    } else {
      FieldIsEntry(entries[1..], key);
      var i :| 0 <= i < |entries[1..]| && entries[1..][i] == Entry(key, Field(entries[1..], key).value);
      assert entries[i + 1] == entries[1..][i];
    }
  }
}
