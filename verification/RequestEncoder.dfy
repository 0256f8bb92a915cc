/** Text as UTF-16 units, which a lone surrogate may be among, and its UTF-8 (section 3 of RFC 3629). */
module Utf8Text {
  type Unit = u: nat | u < 0x10000

  type Byte = b: nat | b < 256

  datatype Option<+T> = None | Some(value: T)

  predicate High(u: Unit) {
    0xD800 <= u <= 0xDBFF
  }

  predicate Low(u: Unit) {
    0xDC00 <= u <= 0xDFFF
  }

  /** How many units the first character takes. */
  function Width(units: seq<Unit>): nat
    requires units != []
  {
    if High(units[0]) && |units| > 1 && Low(units[1]) then 2 else 1
  }

  const REPLACEMENT: Unit := 0xFFFD

  /** The code point of the first character: that of U+FFFD for a lone surrogate. */
  function Point(units: seq<Unit>): (point: nat)
    requires units != []
    ensures point < 0x110000
  {
    if Width(units) == 2 then 0x10000 + (units[0] - 0xD800) * 1024 + (units[1] - 0xDC00)
    else if High(units[0]) || Low(units[0]) then REPLACEMENT
    else units[0]
  }

  function PointBytes(point: nat): (bytes: seq<Byte>)
    requires point < 0x110000
    ensures 1 <= |bytes| <= 4
  {
    if point < 0x80 then [point]
    else if point < 0x800 then [0xC0 + point / 64, 0x80 + point % 64]
    else if point < 0x10000 then [0xE0 + point / 4096, 0x80 + point / 64 % 64, 0x80 + point % 64]
    else [0xF0 + point / 262144, 0x80 + point / 4096 % 64, 0x80 + point / 64 % 64, 0x80 + point % 64]
  }

  /** The characters of the examples in section 7 of RFC 3629. */
  lemma ExamplesMatch()
    ensures PointBytes(0x41) == [0x41] && PointBytes(0x2262) == [0xE2, 0x89, 0xA2] && PointBytes(0x391) == [0xCE, 0x91]
    ensures PointBytes(0xD55C) == [0xED, 0x95, 0x9C] && PointBytes(0x233B4) == [0xF0, 0xA3, 0x8E, 0xB4]
  {
  }

  function Utf8(units: seq<Unit>): seq<Byte>
    decreases |units|
  {
    if units == [] then [] else PointBytes(Point(units)) + Utf8(units[Width(units)..])
  }

  /** The same text with each lone surrogate replaced. */
  function Replaced(units: seq<Unit>): seq<Unit>
    decreases |units|
  {
    if units == [] then []
    else (if Width(units) == 2 then units[..2] else [Point(units)]) + Replaced(units[Width(units)..])
  }

  function PointUnits(point: nat): seq<Unit>
    requires point < 0x110000
  {
    if point < 0x10000 then [point] else [0xD800 + (point - 0x10000) / 1024, 0xDC00 + (point - 0x10000) % 1024]
  }

  function At(bytes: seq<Byte>, i: nat): int
    requires i < |bytes|
  {
    bytes[i]
  }

  function Size(first: int): nat {
    if first < 0x80 then 1 else if first < 0xE0 then 2 else if first < 0xF0 then 3 else 4
  }

  /** The code point of some bytes. */
  function PointOf(bytes: seq<Byte>): int
    requires bytes != [] && |bytes| >= Size(bytes[0])
  {
    if Size(bytes[0]) == 1 then At(bytes, 0)
    else if Size(bytes[0]) == 2 then (At(bytes, 0) - 0xC0) * 64 + (At(bytes, 1) - 0x80)
    else if Size(bytes[0]) == 3 then (At(bytes, 0) - 0xE0) * 4096 + (At(bytes, 1) - 0x80) * 64 + (At(bytes, 2) - 0x80)
    else (At(bytes, 0) - 0xF0) * 262144 + (At(bytes, 1) - 0x80) * 4096 + (At(bytes, 2) - 0x80) * 64 +
         (At(bytes, 3) - 0x80)
  }

  /** The units that UTF-8 stands for. */
  function Units(bytes: seq<Byte>): Option<seq<Unit>>
    decreases |bytes|
  {
    if bytes == [] then Some([])
    else if |bytes| < Size(bytes[0]) || !(0 <= PointOf(bytes) < 0x110000) then None
    else match Units(bytes[Size(bytes[0])..])
      case None => None
      case Some(rest) => Some(PointUnits(PointOf(bytes)) + rest)
  }

  lemma Sixes(point: nat)
    ensures point == point / 64 * 64 + point % 64
    ensures point / 64 == point / 4096 * 64 + point / 64 % 64
    ensures point / 4096 == point / 262144 * 64 + point / 4096 % 64
  {
  }

  lemma PointBytesOf(point: nat, rest: seq<Byte>)
    requires point < 0x110000
    ensures var bytes := PointBytes(point) + rest;
            && Size(bytes[0]) == |PointBytes(point)| <= |bytes| && bytes[Size(bytes[0])..] == rest
            && PointOf(bytes) == point
  {
    Sixes(point);
  }

  lemma PointOnce(point: nat, rest: seq<Byte>)
    requires point < 0x110000 && Units(rest).Some?
    ensures Units(PointBytes(point) + rest) == Some(PointUnits(point) + Units(rest).value)
  {
    hide PointBytes, PointUnits, PointOf;
    PointBytesOf(point, rest);
  }

  lemma PointReplaced(units: seq<Unit>)
    requires units != []
    ensures PointUnits(Point(units)) == if Width(units) == 2 then units[..2] else [Point(units)]
  {
    if Width(units) == 2 {
      assert PointUnits(Point(units)) == [units[0], units[1]];
    }
  }

  /** Decoding gives back the text, but for its lone surrogates. */
  lemma {:induction false} Utf8RoundTrip(units: seq<Unit>)
    ensures Units(Utf8(units)) == Some(Replaced(units))
    decreases |units|
  {
    hide Point, PointBytes, PointUnits, PointOf;
    if units != [] {
      Utf8RoundTrip(units[Width(units)..]);
      PointOnce(Point(units), Utf8(units[Width(units)..]));
      PointReplaced(units);
    }
  }

  lemma {:induction false} Utf8Bound(units: seq<Unit>)
    ensures |Utf8(units)| <= 3 * |units|
    decreases |units|
  {
    if units != [] {
      Utf8Bound(units[Width(units)..]);
    }
  }

  /** Text of ASCII characters alone is its own UTF-8. */
  lemma {:induction false} Utf8Ascii(units: seq<Unit>)
    requires forall u :: u in units ==> u < 0x80
    ensures Utf8(units) == units
    decreases |units|
  {
    if units != [] {
      assert units[0] in units && Width(units) == 1 && PointBytes(Point(units)) == [units[0]];
      assert forall u :: u in units[1..] ==> u in units;
      hide Width, Point, PointBytes;
      Utf8Ascii(units[1..]);
      assert units == [units[0]] + units[1..];
    }
  }
}

/** The values a request carries, the bytes and the memory they take, and how the bytes are read (wasm-preflight.ts). */
module BridgeFormat {
  import opened Utf8Text

  type Bytes = seq<Byte>

  /** A number by its eight bytes, whether it is finite, and whether it is an integer that both sides hold exactly. */
  type Float = bytes: Bytes | |bytes| == 8 witness [0, 0, 0, 0, 0, 0, 0, 0]

  datatype Json =
    | Null | False | True
    | Number(float: Float, finite: bool, safe: bool)
    | Text(units: seq<Unit>)
    | Array(items: seq<Json>)
    | Object(fields: seq<Field>)
    | Undefined
    | Other

  datatype Field = Field(key: seq<Unit>, value: Json)

  const MAX_BYTES := 16 * 1024 * 1024
  const MAX_NODES := 1_000_000
  const MAX_OPERATIONS := 1_000_000
  const MAX_DEPTH := 64
  const STRING_OVERHEAD := 12
  const VECTOR_OVERHEAD := 12
  const RUST_VALUE_BYTES := 24
  const RUST_MAP_ENTRY_OVERHEAD := 128

  function Word(n: nat): (word: Bytes)
    requires n < 0x1_0000_0000
    ensures |word| == 4
  {
    [n % 256, n / 256 % 256, n / 65536 % 256, n / 16777216]
  }

  function Tag(v: Json): Byte {
    match v
    case Null => 0
    case False => 1
    case True => 2
    case Number(_, _, safe) => if safe then 3 else 5
    case Text(_) => 6
    case Array(_) => 7
    case _ => 8
  }

  /** A request so far: its bytes, the memory it would take, and the values and steps in it. */
  datatype State = State(bytes: Bytes, retained: nat, nodes: nat, operations: nat)

  function Put(s: State, bytes: Bytes): Option<State> {
    if |s.bytes| + |bytes| > MAX_BYTES then None else Some(s.(bytes := s.bytes + bytes))
  }

  function Retain(s: State, count: nat): Option<State> {
    if s.retained + count > MAX_BYTES then None else Some(s.(retained := s.retained + count))
  }

  /** A text: its length in bytes, and its bytes. */
  function PutText(s: State, units: seq<Unit>): Option<State> {
    var utf8 := Utf8(units);
    if |s.bytes| + 4 + |utf8| > MAX_BYTES then None
    else Retain(s.(bytes := s.bytes + Word(|utf8|) + utf8), |utf8| + STRING_OVERHEAD)
  }

  /** The start of a list: the memory it takes, and its length. */
  function PutCount(s: State, count: nat): Option<State> {
    if count > MAX_OPERATIONS then None
    else match Retain(s, count * RUST_VALUE_BYTES + VECTOR_OVERHEAD)
      case None => None
      case Some(t) => Put(t, Word(count))
  }

  function PutItems(s: State, items: seq<Json>, depth: nat): Option<State>
    decreases items, 0
  {
    if items == [] then Some(s)
    else if items[0].Undefined? then None
    else match PutValue(s, items[0], depth)
      case None => None
      case Some(t) => PutItems(t, items[1..], depth)
  }

  function PutFields(s: State, fields: seq<Field>, depth: nat): Option<State>
    decreases fields, 0
  {
    if fields == [] then Some(s)
    else match PutText(s, fields[0].key)
      case None => None
      case Some(t) => match Retain(t, RUST_VALUE_BYTES + RUST_MAP_ENTRY_OVERHEAD)
        case None => None
        case Some(u) => match PutValue(u, fields[0].value, depth)
          case None => None
          case Some(w) => PutFields(w, fields[1..], depth)
  }

  /** A value, counted as a step before its depth is checked and as a value after. */
  function PutValue(s: State, v: Json, depth: nat): Option<State>
    decreases v, 1
  {
    if s.operations >= MAX_OPERATIONS || depth > MAX_DEPTH || s.nodes >= MAX_NODES then None
    else
      var counted := s.(operations := s.operations + 1, nodes := s.nodes + 1);
      match v
      case Undefined | Other => None
      case Null | False | True => Put(counted, [Tag(v)])
      case Number(float, finite, _) => if finite then Put(counted, [Tag(v)] + float) else None
      case Text(units) => (match Put(counted, [Tag(v)])
        case None => None
        case Some(t) => PutText(t, units))
      case Array(items) => (match Put(counted, [Tag(v)])
        case None => None
        case Some(t) => match PutCount(t, |items|)
          case None => None
          case Some(u) => PutItems(u, items, depth + 1))
      case Object(fields) => (match Put(counted, [Tag(v)])
        case None => None
        case Some(t) =>
          if |fields| > MAX_OPERATIONS then None
          else match Put(t, Word(|fields|))
            case None => None
            case Some(u) => PutFields(u, fields, depth + 1))
  }

  /** A list of values: what every list is written as. */
  function PutList(s: State, items: seq<Json>, depth: nat): Option<State> {
    match PutCount(s, |items|)
    case None => None
    case Some(t) => PutItems(t, items, depth)
  }

  datatype Read<+T> = Done(value: T, rest: Bytes) | Bad

  function ReadWord(bytes: Bytes): Read<nat> {
    if |bytes| < 4 then Bad
    else Done(At(bytes, 0) + 256 * At(bytes, 1) + 65536 * At(bytes, 2) + 16777216 * At(bytes, 3), bytes[4..])
  }

  function ReadText(bytes: Bytes): (result: Read<seq<Unit>>)
    ensures result.Done? ==> |result.rest| < |bytes|
  {
    match ReadWord(bytes)
    case Bad => Bad
    case Done(length, rest) =>
      if |rest| < length then Bad
      else match Units(rest[..length])
        case None => Bad
        case Some(units) => Done(units, rest[length..])
  }

  /** Reads values as the format lays them out. Whether a number is an integer is told by its tag. */
  function ReadValue(bytes: Bytes): (result: Read<Json>)
    ensures result.Done? ==> |result.rest| < |bytes|
    decreases |bytes|, 0
  {
    if bytes == [] then Bad
    else
      var tag, rest := bytes[0], bytes[1..];
      if tag == 0 then Done(Null, rest)
      else if tag == 1 then Done(False, rest)
      else if tag == 2 then Done(True, rest)
      else if tag == 3 || tag == 5 then if |rest| < 8 then Bad else Done(Number(rest[..8], true, tag == 3), rest[8..])
      else if tag == 6 then
        match ReadText(rest)
        case Bad => Bad
        case Done(units, after) => Done(Text(units), after)
      else if tag == 7 then
        match ReadWord(rest)
        case Bad => Bad
        case Done(count, after) => match ReadItems(after, count)
          case Bad => Bad
          case Done(items, end) => Done(Array(items), end)
      else if tag == 8 then
        match ReadWord(rest)
        case Bad => Bad
        case Done(count, after) => match ReadFields(after, count)
          case Bad => Bad
          case Done(fields, end) => Done(Object(fields), end)
      else Bad
  }

  function ReadItems(bytes: Bytes, count: nat): (result: Read<seq<Json>>)
    ensures result.Done? ==> |result.rest| <= |bytes|
    decreases |bytes|, count + 1
  {
    if count == 0 then Done([], bytes)
    else match ReadValue(bytes)
      case Bad => Bad
      case Done(first, rest) => match ReadItems(rest, count - 1)
        case Bad => Bad
        case Done(others, end) => Done([first] + others, end)
  }

  function ReadFields(bytes: Bytes, count: nat): (result: Read<seq<Field>>)
    ensures result.Done? ==> |result.rest| <= |bytes|
    decreases |bytes|, count + 1
  {
    if count == 0 then Done([], bytes)
    else match ReadText(bytes)
      case Bad => Bad
      case Done(key, rest) => match ReadValue(rest)
        case Bad => Bad
        case Done(value, after) => match ReadFields(after, count - 1)
          case Bad => Bad
          case Done(others, end) => Done([Field(key, value)] + others, end)
  }

  /** The value that is read back: the same, but for its texts' lone surrogates. */
  function Clean(v: Json): Json {
    match v
    case Text(units) => Text(Replaced(units))
    case Array(items) => Array(CleanItems(items))
    case Object(fields) => Object(CleanFields(fields))
    case _ => v
  }

  function CleanItems(items: seq<Json>): seq<Json> {
    if items == [] then [] else [Clean(items[0])] + CleanItems(items[1..])
  }

  function CleanFields(fields: seq<Field>): seq<Field> {
    if fields == [] then [] else [Field(Replaced(fields[0].key), Clean(fields[0].value))] + CleanFields(fields[1..])
  }

  lemma WordOnce(n: nat, rest: Bytes)
    requires n < 0x1_0000_0000
    ensures ReadWord(Word(n) + rest) == Done(n, rest)
  {
    var bytes := Word(n) + rest;
    assert bytes[4..] == rest;
    Digits(n);
  }

  lemma Digits(n: nat)
    ensures n == n % 256 + 256 * (n / 256 % 256) + 65536 * (n / 65536 % 256) + 16777216 * (n / 16777216)
  {
    var a := n / 256;
    var b := a / 256;
    assert b == n / 65536 && b / 256 == n / 16777216;
    assert n == n % 256 + 256 * a && a == a % 256 + 256 * b && b == b % 256 + 256 * (b / 256);
  }

  /** What one state of a request adds to an earlier one. */
  function Added(s: State, t: State): Bytes
    requires s.bytes <= t.bytes
  {
    t.bytes[|s.bytes|..]
  }

  lemma AddedTwice(s: State, t: State, u: State, rest: Bytes)
    requires s.bytes <= t.bytes <= u.bytes
    ensures s.bytes <= u.bytes && Added(s, u) + rest == Added(s, t) + (Added(t, u) + rest)
  {
  }

  lemma TextRead(s: State, units: seq<Unit>, rest: Bytes)
    requires PutText(s, units).Some?
    ensures var t := PutText(s, units).value;
            s.bytes <= t.bytes && ReadText(Added(s, t) + rest) == Done(Replaced(units), rest)
  {
    var utf8 := Utf8(units);
    var t := PutText(s, units).value;
    assert Added(s, t) + rest == Word(|utf8|) + (utf8 + rest);
    WordOnce(|utf8|, utf8 + rest);
    assert (utf8 + rest)[..|utf8|] == utf8 && (utf8 + rest)[|utf8|..] == rest;
    Utf8RoundTrip(units);
  }

  lemma TagRead(s: State, t: State, u: State, v: Json, rest: Bytes)
    requires t.bytes == s.bytes + [Tag(v)] && t.bytes <= u.bytes
    ensures s.bytes <= u.bytes
    ensures var bytes := Added(s, u) + rest; bytes != [] && bytes[0] == Tag(v) && bytes[1..] == Added(t, u) + rest
  {
  }

  lemma {:induction false} ItemsRead(s: State, items: seq<Json>, depth: nat, rest: Bytes)
    requires PutItems(s, items, depth).Some?
    ensures var t := PutItems(s, items, depth).value;
            s.bytes <= t.bytes && ReadItems(Added(s, t) + rest, |items|) == Done(CleanItems(items), rest)
    decreases items, 0
  {
    hide PutValue, ReadValue, Clean;
    var t := PutItems(s, items, depth).value;
    if items == [] {
      assert Added(s, t) + rest == rest;
    } else {
      var first := PutValue(s, items[0], depth).value;
      ItemsRead(first, items[1..], depth, rest);
      ValueRead(s, items[0], depth, Added(first, t) + rest);
      AddedTwice(s, first, t, rest);
    }
  }

  lemma {:induction false} FieldsRead(s: State, fields: seq<Field>, depth: nat, rest: Bytes)
    requires PutFields(s, fields, depth).Some?
    ensures var t := PutFields(s, fields, depth).value;
            s.bytes <= t.bytes && ReadFields(Added(s, t) + rest, |fields|) == Done(CleanFields(fields), rest)
    decreases fields, 0
  {
    hide PutValue, ReadValue, Clean, PutText, ReadText, Replaced;
    var t := PutFields(s, fields, depth).value;
    if fields == [] {
      assert Added(s, t) + rest == rest;
    } else {
      var key := PutText(s, fields[0].key).value;
      var kept := Retain(key, RUST_VALUE_BYTES + RUST_MAP_ENTRY_OVERHEAD).value;
      var value := PutValue(kept, fields[0].value, depth).value;
      FieldsRead(value, fields[1..], depth, rest);
      ValueRead(kept, fields[0].value, depth, Added(value, t) + rest);
      AddedTwice(kept, value, t, rest);
      TextRead(s, fields[0].key, Added(kept, t) + rest);
      AddedTwice(s, key, t, rest);
    }
  }

  /** What a value adds to a request reads back as the value, whatever follows it. */
  lemma {:induction false} ValueRead(s: State, v: Json, depth: nat, rest: Bytes)
    requires PutValue(s, v, depth).Some?
    ensures var t := PutValue(s, v, depth).value;
            s.bytes <= t.bytes && ReadValue(Added(s, t) + rest) == Done(Clean(v), rest)
    decreases v, 1
  {
    hide ReadItems, ReadFields, PutItems, PutFields, PutText, ReadText, CleanItems, CleanFields, Replaced, Word,
         ReadWord;
    var t := PutValue(s, v, depth).value;
    var counted := s.(operations := s.operations + 1, nodes := s.nodes + 1);
    match v
    case Null | False | True =>
      TagRead(s, t, t, v, rest);
      assert Added(t, t) + rest == rest;
    case Number(float, _, _) =>
      var tagged := counted.(bytes := counted.bytes + [Tag(v)]);
      assert t.bytes == tagged.bytes + float;
      TagRead(s, tagged, t, v, rest);
      assert Added(tagged, t) == float;
      assert (float + rest)[..8] == float && (float + rest)[8..] == rest;
    case Text(units) =>
      var tagged := Put(counted, [Tag(v)]).value;
      TextRead(tagged, units, rest);
      TagRead(s, tagged, t, v, rest);
    case Array(items) =>
      var tagged := Put(counted, [Tag(v)]).value;
      var begun := PutCount(tagged, |items|).value;
      ItemsRead(begun, items, depth + 1, rest);
      CountRead(tagged, begun, t, |items|, rest);
      TagRead(s, tagged, t, v, rest);
    case Object(fields) =>
      var tagged := Put(counted, [Tag(v)]).value;
      var begun := Put(tagged, Word(|fields|)).value;
      FieldsRead(begun, fields, depth + 1, rest);
      CountRead(tagged, begun, t, |fields|, rest);
      TagRead(s, tagged, t, v, rest);
  }

  lemma CountRead(s: State, t: State, u: State, count: nat, rest: Bytes)
    requires count < 0x1_0000_0000 && t.bytes == s.bytes + Word(count) && t.bytes <= u.bytes
    ensures s.bytes <= u.bytes && ReadWord(Added(s, u) + rest) == Done(count, Added(t, u) + rest)
  {
    WordOnce(count, Added(t, u) + rest);
    assert Added(s, t) == Word(count);
    AddedTwice(s, t, u, rest);
  }

  /** A statement's request: whether its rows are arrays, its text or its number, and its parameters. */
  datatype Statement = Sql(text: seq<Unit>) | Prepared(id: nat)

  const MAX_U32 := 0xffff_ffff

  function PutStatement(statement: Statement, parameters: seq<Json>, arrayRows: bool): Option<State> {
    var start := State([if arrayRows then 1 else 0], 0, 0, 0);
    var named := match statement
      case Prepared(id) => if 1 <= id <= MAX_U32 then Some(start.(bytes := start.bytes + Word(id))) else None
      case Sql(text) => PutText(start, text);
    match named
    case None => None
    case Some(s) => PutList(s, parameters, 0)
  }

  function ReadParameters(bytes: Bytes): Read<seq<Json>> {
    match ReadWord(bytes)
    case Bad => Bad
    case Done(count, rest) => ReadItems(rest, count)
  }

  /** A statement's request reads back as its parts. */
  lemma StatementRead(statement: Statement, parameters: seq<Json>, arrayRows: bool)
    requires PutStatement(statement, parameters, arrayRows).Some?
    ensures var bytes := PutStatement(statement, parameters, arrayRows).value.bytes;
            && bytes != [] && bytes[0] == (if arrayRows then 1 else 0)
            && match statement
               case Sql(text) =>
                 ReadText(bytes[1..]).Done? && ReadText(bytes[1..]).value == Replaced(text) &&
                 ReadParameters(ReadText(bytes[1..]).rest) == Done(CleanItems(parameters), [])
               case Prepared(id) =>
                 ReadWord(bytes[1..]).Done? && ReadWord(bytes[1..]).value == id &&
                 ReadParameters(ReadWord(bytes[1..]).rest) == Done(CleanItems(parameters), [])
  {
    hide ReadItems, PutItems, PutText, ReadText, CleanItems, Replaced, Word, ReadWord;
    var start := State([if arrayRows then 1 else 0], 0, 0, 0);
    var end := PutStatement(statement, parameters, arrayRows).value;
    var named := match statement
      case Prepared(id) => start.(bytes := start.bytes + Word(id))
      case Sql(text) => PutText(start, text).value;
    var begun := PutCount(named, |parameters|).value;
    ItemsRead(begun, parameters, 0, []);
    CountRead(named, begun, end, |parameters|, []);
    assert Added(named, end) + [] == Added(named, end) && Added(begun, end) + [] == Added(begun, end);
    match statement
    case Sql(text) =>
      TextRead(start, text, Added(named, end));
      AddedTwice(start, named, end, []);
      assert end.bytes[1..] == Added(start, end) == Added(start, end) + [];
    case Prepared(id) =>
      CountRead(start, named, end, id, []);
      assert end.bytes[1..] == Added(start, end) == Added(start, end) + [];
  }
}
