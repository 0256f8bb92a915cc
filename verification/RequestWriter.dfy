/** The writer of requests: one buffer, which grows, and what has been counted of the request in it (wasm-preflight.ts).
    */
module RequestWriters {
  import opened Utf8Text
  import opened BridgeFormat

  const INITIAL_BUFFER_BYTES := 1024
  const MAX_KEPT_BUFFER_BYTES := 1024 * 1024
  const MAX_COPIED_STRING_LENGTH := 64

  class Writer {
    var buffer: array<Byte>
    var length: nat
    var retained: nat
    var nodes: nat
    var operations: nat

    /** What is written is within the buffer, which never passes the bound on a request. */
    ghost predicate Valid()
      reads this
    {
      INITIAL_BUFFER_BYTES <= buffer.Length <= MAX_BYTES && length <= buffer.Length
    }

    ghost function Now(): State
      requires Valid()
      reads this, buffer
    {
      State(buffer[..length], retained, nodes, operations)
    }

    constructor ()
      ensures Valid() && fresh(buffer) && Now() == State([], 0, 0, 0)
    {
      buffer := new Byte[INITIAL_BUFFER_BYTES];
      length, retained, nodes, operations := 0, 0, 0, 0;
    }

    /** Makes room for a request of `needed` bytes, which keeps every byte written, or refuses what passes the bound. */
    method Grow(needed: nat) returns (ok: bool)
      requires Valid() && needed > buffer.Length
      modifies this`buffer
      ensures Valid() && Now() == old(Now())
      ensures ok == (needed <= MAX_BYTES)
      ensures if ok then fresh(buffer) && needed <= buffer.Length else buffer == old(buffer)
    {
      if needed > MAX_BYTES {
        return false;
      }
      var most := if needed > buffer.Length * 2 then needed else buffer.Length * 2;
      var grown := new Byte[if most < MAX_BYTES then most else MAX_BYTES];
      for i := 0 to length
        invariant buffer == old(buffer) && grown[..i] == buffer[..i] == old(buffer[..i])
      {
        grown[i] := buffer[i];
      }
      buffer := grown;
      return true;
    }

    method Room(needed: nat) returns (ok: bool)
      requires Valid()
      modifies this`buffer
      ensures Valid() && Now() == old(Now())
      ensures ok == (needed <= MAX_BYTES)
      ensures ok ==> needed <= buffer.Length
      ensures buffer == old(buffer) || fresh(buffer)
    {
      ok := true;
      if needed > buffer.Length {
        ok := Grow(needed);
      }
    }

    /** Bytes after those written. */
    method Append(bytes: Bytes) returns (ok: bool)
      requires Valid()
      modifies this`buffer, this`length, buffer
      ensures Valid() && (buffer == old(buffer) || fresh(buffer))
      ensures ok == Put(old(Now()), bytes).Some?
      ensures Now() == if ok then Put(old(Now()), bytes).value else old(Now())
    {
      ok := Room(length + |bytes|);
      if ok {
        Copy(length, bytes);
        length := length + |bytes|;
      }
    }

    /** Bytes anywhere in the buffer. */
    method Copy(at: nat, bytes: Bytes)
      requires at + |bytes| <= buffer.Length
      modifies buffer
      ensures buffer[..at] == old(buffer[..at]) && buffer[at..at + |bytes|] == bytes
      ensures buffer[at + |bytes|..] == old(buffer[at + |bytes|..])
    {
      for i := 0 to |bytes|
        invariant buffer[..at] == old(buffer[..at]) && buffer[at..at + i] == bytes[..i]
        invariant buffer[at + i..] == old(buffer[at + i..])
      {
        buffer[at + i] := bytes[i];
        assert buffer[at + i + 1..] == old(buffer[at + i..])[1..];
      }
    }

    /** How many bytes a text takes, where they are within the bound. */
    method Utf8Length(units: seq<Unit>) returns (ok: bool, bytes: nat)
      ensures ok ==> bytes == |Utf8(units)|
      ensures !ok ==> |Utf8(units)| > MAX_BYTES
    {
      var index := 0;
      bytes := 0;
      while index < |units|
        invariant index <= |units| && |Utf8(units)| == bytes + |Utf8(units[index..])| && bytes <= MAX_BYTES
        decreases |units| - index
      {
        ghost var rest := units[index..];
        var width, taken := 1, 3;
        var code := units[index];
        if code < 0x80 {
          taken := 1;
        } else if code < 0x800 {
          taken := 2;
        } else if High(code) && index + 1 < |units| && Low(units[index + 1]) {
          width, taken := 2, 4;
        }
        assert width == Width(rest) && rest[width..] == units[index + width..] && taken == |PointBytes(Point(rest))|;
        bytes := bytes + taken;
        if bytes > MAX_BYTES {
          return false, bytes;
        }
        index := index + width;
      }
      return true, bytes;
    }

    /** A text, copied a unit at a time where it is short and ASCII, and encoded whole where it is not. Only one that
        might not fit is measured first. */
    method WriteText(units: seq<Unit>) returns (ok: bool)
      requires Valid()
      modifies this`buffer, this`length, this`retained, buffer
      ensures Valid() && (buffer == old(buffer) || fresh(buffer))
      ensures ok == PutText(old(Now()), units).Some?
      ensures ok ==> Now() == PutText(old(Now()), units).value
    {
      hide Utf8, Word;
      ok := TextRoom(units);
      if ok {
        PlaceText(units);
        retained := retained + |Utf8(units)| + STRING_OVERHEAD;
        ok := retained <= MAX_BYTES;
      }
    }

    /** A text's bytes, and then, in the four before them, how many there are. */
    method PlaceText(units: seq<Unit>)
      requires Valid() && length + 4 + |Utf8(units)| <= buffer.Length
      modifies this`length, buffer
      ensures Valid() && buffer[..length] == old(buffer[..length]) + Word(|Utf8(units)|) + Utf8(units)
    {
      hide Utf8, Word;
      var start := length + 4;
      ghost var before := buffer[..length];
      var written := EncodeAt(start, units);
      ghost var encoded := buffer[..];
      assert encoded[..start][..length] == before;
      Copy(length, Word(written));
      ThreeParts(before, Word(written), Utf8(units), encoded, buffer[..]);
      length := start + written;
    }

    /** Room for a text and its length: for three bytes a unit, or where that might not fit, for what it takes. */
    method TextRoom(units: seq<Unit>) returns (ok: bool)
      requires Valid()
      modifies this`buffer
      ensures Valid() && Now() == old(Now()) && (buffer == old(buffer) || fresh(buffer))
      ensures ok == (length + 4 + |Utf8(units)| <= MAX_BYTES)
      ensures ok ==> length + 4 + |Utf8(units)| <= buffer.Length
    {
      Utf8Bound(units);
      var room := |units| * 3;
      if length + 4 + room > MAX_BYTES {
        ok, room := Utf8Length(units);
        if !ok {
          return;
        }
      }
      ok := Room(length + 4 + room);
    }

    /** Copied a unit at a time where it is short and ASCII, and encoded whole where it is not. */
    method EncodeAt(start: nat, units: seq<Unit>) returns (written: nat)
      requires Valid() && length <= start && start + |Utf8(units)| <= buffer.Length
      modifies buffer
      ensures buffer[..start] == old(buffer[..start])
      ensures written == |Utf8(units)| && buffer[start..][..written] == Utf8(units)
    {
      written := CopyAscii(start, units);
      if written != |units| {
        written := EncodeInto(start, units);
      }
    }

    /** Copies a short text's ASCII units, up to the first that is not. */
    method CopyAscii(start: nat, units: seq<Unit>) returns (written: nat)
      requires Valid() && length <= start && start + |Utf8(units)| <= buffer.Length
      modifies buffer
      ensures buffer[..start] == old(buffer[..start]) && written <= |units|
      ensures written == |units| ==> written == |Utf8(units)| && buffer[start..start + written] == Utf8(units)
    {
      written := 0;
      if |units| > MAX_COPIED_STRING_LENGTH {
        return;
      }
      ghost var was := buffer[..start];
      while written < |units| && units[written] < 0x80
        invariant written <= |units| && written <= |Utf8(units)|
        invariant buffer[..start] == was && forall i :: 0 <= i < written ==> units[i] < 0x80
        invariant buffer[start..start + written] == units[..written]
        decreases |units| - written
      {
        AsciiPrefix(units, written + 1);
        buffer[start + written] := units[written];
        assert buffer[start..start + written + 1] == units[..written] + [units[written]];
        written := written + 1;
      }
      if written == |units| {
        assert units[..written] == units;
        Utf8Ascii(units);
      }
    }

    /** The platform's encoder, given room for the whole text. */
    method EncodeInto(start: nat, units: seq<Unit>) returns (written: nat)
      requires start + |Utf8(units)| <= buffer.Length
      modifies buffer
      ensures buffer[..start] == old(buffer[..start])
      ensures written == |Utf8(units)| && buffer[start..start + written] == Utf8(units)
    {
      Copy(start, Utf8(units));
      written := |Utf8(units)|;
    }

    method RetainBytes(count: nat) returns (ok: bool)
      requires Valid()
      modifies this`retained
      ensures ok == Retain(old(Now()), count).Some?
      ensures Valid() && (ok ==> Now() == Retain(old(Now()), count).value)
    {
      retained := retained + count;
      ok := retained <= MAX_BYTES;
    }

    /** A list's start: its memory and its length. */
    method WriteCount(count: nat) returns (ok: bool)
      requires Valid()
      modifies this`buffer, this`length, this`retained, buffer
      ensures Valid() && (buffer == old(buffer) || fresh(buffer))
      ensures ok == PutCount(old(Now()), count).Some?
      ensures ok ==> Now() == PutCount(old(Now()), count).value
    {
      if count > MAX_OPERATIONS {
        return false;
      }
      ok := RetainBytes(count * RUST_VALUE_BYTES + VECTOR_OVERHEAD);
      if ok {
        ok := Append(Word(count));
      }
    }

    method WriteItems(items: seq<Json>, depth: nat) returns (ok: bool)
      requires Valid()
      modifies this, buffer
      ensures Valid() && (buffer == old(buffer) || fresh(buffer))
      ensures ok == PutItems(old(Now()), items, depth).Some?
      ensures ok ==> Now() == PutItems(old(Now()), items, depth).value
      decreases items, 0
    {
      hide PutValue;
      ghost var start := Now();
      for index := 0 to |items|
        invariant Valid() && (buffer == old(buffer) || fresh(buffer))
        invariant PutItems(start, items, depth) == PutItems(Now(), items[index..], depth)
      {
        assert items[index..][0] == items[index] && items[index..][1..] == items[index + 1..];
        if items[index].Undefined? {
          return false;
        }
        ok := WriteValue(items[index], depth);
        if !ok {
          return;
        }
      }
      return true;
    }

    method WriteFields(fields: seq<Field>, depth: nat) returns (ok: bool)
      requires Valid()
      modifies this, buffer
      ensures Valid() && (buffer == old(buffer) || fresh(buffer))
      ensures ok == PutFields(old(Now()), fields, depth).Some?
      ensures ok ==> Now() == PutFields(old(Now()), fields, depth).value
      decreases fields, 0
    {
      hide PutValue, PutText;
      ghost var start := Now();
      for index := 0 to |fields|
        invariant Valid() && (buffer == old(buffer) || fresh(buffer))
        invariant PutFields(start, fields, depth) == PutFields(Now(), fields[index..], depth)
      {
        var field := fields[index];
        assert fields[index..][0] == field && fields[index..][1..] == fields[index + 1..];
        ok := WriteText(field.key);
        if !ok {
          return;
        }
        ok := RetainBytes(RUST_VALUE_BYTES + RUST_MAP_ENTRY_OVERHEAD);
        if !ok {
          return;
        }
        ok := WriteValue(field.value, depth);
        if !ok {
          return;
        }
      }
      return true;
    }

    /** Any value, as the format has it. */
    method WriteValue(v: Json, depth: nat) returns (ok: bool)
      requires Valid()
      modifies this, buffer
      ensures Valid() && (buffer == old(buffer) || fresh(buffer))
      ensures ok == PutValue(old(Now()), v, depth).Some?
      ensures ok ==> Now() == PutValue(old(Now()), v, depth).value
      decreases v, 1
    {
      hide PutItems, PutFields, PutText, Put, PutCount, Word, Tag;
      if operations >= MAX_OPERATIONS || depth > MAX_DEPTH || nodes >= MAX_NODES {
        return false;
      }
      operations, nodes := operations + 1, nodes + 1;
      match v
      case Undefined | Other =>
        ok := false;
      case Null | False | True =>
        ok := Append([Tag(v)]);
      case Number(float, finite, _) =>
        ok := finite;
        if ok {
          ok := Append([Tag(v)] + float);
        }
      case Text(units) =>
        ok := Append([Tag(v)]);
        if ok {
          ok := WriteText(units);
        }
      case Array(items) =>
        ok := Append([Tag(v)]);
        if ok {
          ok := WriteCount(|items|);
        }
        if ok {
          ok := WriteItems(items, depth + 1);
        }
      case Object(fields) =>
        ok := Append([Tag(v)]);
        if ok {
          ok := |fields| <= MAX_OPERATIONS;
        }
        if ok {
          ok := Append(Word(|fields|));
        }
        if ok {
          ok := WriteFields(fields, depth + 1);
        }
    }

    /** The request so far, with the values and steps that the scalars before it stand for. */
    ghost function Counting(n: nat): State
      requires Valid()
      reads this, buffer
    {
      Now().(nodes := n, operations := n)
    }

    /** A statement's request, for the parameters from `from` on, exactly as the writer of any list would write them. */
    method EncodeStatement(statement: Statement, input: seq<Json>, arrayRows: bool, from: nat)
      returns (ok: bool, written: Bytes)
      requires Valid()
      modifies this, buffer
      ensures Valid() && (buffer == old(buffer) || fresh(buffer))
      ensures ok == PutStatement(statement, Sliced(input, from), arrayRows).Some?
      ensures ok ==> written == PutStatement(statement, Sliced(input, from), arrayRows).value.bytes
    {
      hide PutItems, PutCount, PutText, Word;
      var parameters := Sliced(input, from);
      written := [];
      ok := WriteStart(statement, arrayRows);
      if ok {
        ghost var before := Now();
        ok := WriteCount(|parameters|);
        CountCounted(before, |parameters|);
      }
      if ok {
        ok := WriteParameters(parameters);
      }
      written := buffer[..length];
    }

    /** Whether rows are arrays, and the statement. What the counts were for an earlier request does not matter. */
    method WriteStart(statement: Statement, arrayRows: bool) returns (ok: bool)
      requires Valid()
      modifies this, buffer
      ensures Valid() && (buffer == old(buffer) || fresh(buffer))
      ensures var named := StatementStart(statement, arrayRows);
              ok == named.Some? && (ok ==> Counting(0) == named.value)
    {
      hide PutText, Word;
      Copy(0, [if arrayRows then 1 else 0]);
      retained := 0;
      length := 1;
      assert buffer[..1] == [if arrayRows then 1 else 0];
      match statement
      case Prepared(id) =>
        ok := 1 <= id <= MAX_U32;
        if ok {
          Copy(1, Word(id));
          length := 5;
          assert buffer[..5] == buffer[..1] + buffer[1..5];
        }
      case Sql(text) =>
        TextCounted(Now(), text);
        ok := WriteText(text);
    }

    /** A scalar is written where it is met, and is not counted: the parameters alone are too few to pass the bounds.
        From the first value of another kind on, all are written as any list's are, and the scalars before are counted.
        */
    method WriteParameters(parameters: seq<Json>) returns (ok: bool)
      requires Valid() && |parameters| <= MAX_OPERATIONS
      modifies this, buffer
      ensures Valid() && (buffer == old(buffer) || fresh(buffer))
      ensures var all := PutItems(old(Counting(0)), parameters, 0);
              ok == all.Some? && (ok ==> Now().bytes == all.value.bytes)
    {
      hide PutValue;
      ghost var start := Counting(0);
      for index := 0 to |parameters|
        invariant Valid() && (buffer == old(buffer) || fresh(buffer))
        invariant PutItems(start, parameters, 0) == PutItems(Counting(index), parameters[index..], 0)
      {
        var item, rest := parameters[index], parameters[index..];
        assert rest[0] == item && rest[1..] == parameters[index + 1..];
        if Scalar(item) {
          ScalarCounted(Now(), index, item);
          ok := WriteScalar(item);
          if !ok {
            return;
          }
        } else {
          nodes, operations := index, index;
          ok := WriteItems(rest, 0);
          return;
        }
      }
      return true;
    }

    method WriteScalar(item: Json) returns (ok: bool)
      requires Valid() && Scalar(item)
      modifies this`buffer, this`length, this`retained, buffer
      ensures Valid() && (buffer == old(buffer) || fresh(buffer))
      ensures ok == PutScalar(old(Now()), item).Some?
      ensures ok ==> Now() == PutScalar(old(Now()), item).value
    {
      hide Put, PutText, Tag;
      if item.Number? {
        ok := Append([Tag(item)] + item.float);
      } else {
        ok := Append([Tag(item)]);
        if ok && item.Text? {
          ok := WriteText(item.units);
        }
      }
    }
  }

  lemma ThreeParts(before: Bytes, word: Bytes, text: Bytes, encoded: Bytes, after: Bytes)
    requires |before| + |word| + |text| <= |encoded| == |after|
    requires encoded[..|before|] == before && encoded[|before| + |word|..][..|text|] == text
    requires after[..|before|] == encoded[..|before|] && after[|before|..|before| + |word|] == word
    requires after[|before| + |word|..] == encoded[|before| + |word|..]
    ensures after[..|before| + |word| + |text|] == before + word + text
  {
    var low, high := |before|, |before| + |word|;
    assert after[high..][..|text|] == after[high..high + |text|] == text;
    assert after[..high + |text|] == after[..low] + after[low..high] + after[high..high + |text|];
  }

  lemma {:induction false} AsciiPrefix(units: seq<Unit>, n: nat)
    requires n <= |units| && forall i :: 0 <= i < n ==> units[i] < 0x80
    ensures n <= |Utf8(units)|
    decreases n
  {
    if n > 0 {
      AsciiPrefix(units[1..], n - 1);
    }
  }

  function Sliced(input: seq<Json>, from: nat): seq<Json> {
    if from < |input| then input[from..] else []
  }

  /** The parameters are what comes after the slots before them: all of that, and nothing else. */
  lemma SlicedRest(slots: seq<Json>, parameters: seq<Json>)
    ensures Sliced(slots + parameters, |slots|) == parameters
  {
    if parameters == [] {
      assert slots + parameters == slots;
    }
  }

  function StatementStart(statement: Statement, arrayRows: bool): Option<State> {
    var start := State([if arrayRows then 1 else 0], 0, 0, 0);
    match statement
    case Prepared(id) => if 1 <= id <= MAX_U32 then Some(start.(bytes := start.bytes + Word(id))) else None
    case Sql(text) => PutText(start, text)
  }

  /** What may be written where it is met. A number that is not finite is not. */
  predicate Scalar(item: Json) {
    item.Null? || item.False? || item.True? || item.Text? || (item.Number? && item.finite)
  }

  /** A scalar without its counts. */
  function PutScalar(s: State, item: Json): Option<State>
    requires Scalar(item)
  {
    match item
    case Number(float, _, _) => Put(s, [Tag(item)] + float)
    case Text(units) => (match Put(s, [Tag(item)])
      case None => None
      case Some(t) => PutText(t, units))
    case _ => Put(s, [Tag(item)])
  }

  /** The counts are no part of what is written, or of whether there is room for it. */
  function Recount(s: Option<State>, n: nat): Option<State> {
    match s
    case None => None
    case Some(t) => Some(t.(nodes := n, operations := n))
  }

  lemma TextCounted(s: State, units: seq<Unit>)
    ensures PutText(s.(nodes := 0, operations := 0), units) == Recount(PutText(s, units), 0)
  {
  }

  lemma CountCounted(s: State, count: nat)
    ensures PutCount(s.(nodes := 0, operations := 0), count) == Recount(PutCount(s, count), 0)
    ensures PutCount(s, count).Some? ==> count <= MAX_OPERATIONS
  {
  }

  lemma ScalarCounted(s: State, n: nat, item: Json)
    requires Scalar(item) && n < MAX_OPERATIONS
    ensures PutValue(s.(nodes := n, operations := n), item, 0) == Recount(PutScalar(s, item), n + 1)
  {
  }
}
