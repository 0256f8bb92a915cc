/** How the values a query groups by are encoded as text, so that a sorted map could be keyed by it (aggregate.rs). */
module GroupKeys {
  /** A grouped value: a float by its bits, zero's without a sign. */
  datatype Grouped = Null | Boolean(b: bool) | Integer(n: int) | Float(bits: Bits) | Text(text: string)

  type Bits = n: nat | n < 0x1_0000_0000_0000_0000 witness 0

  /** The bytes of a text: its characters' lengths in UTF-8 (section 3 of RFC 3629). */
  function Utf8Length(text: string): (length: nat)
    ensures |text| <= length <= 4 * |text|
  {
    if text == [] then 0
    else
      var c := text[0] as int;
      (if c < 0x80 then 1 else if c < 0x800 then 2 else if c < 0x1_0000 then 3 else 4) + Utf8Length(text[1..])
  }

  function Digit(d: nat): char
    requires d < 16
  {
    if d < 10 then ('0' as int + d) as char else ('a' as int + d - 10) as char
  }

  function Decimal(n: nat): (s: string)
    ensures |s| > 0
    ensures forall c :: c in s ==> '0' <= c <= '9'
  {
    if n < 10 then [Digit(n)] else Decimal(n / 10) + [Digit(n % 10)]
  }

  function Signed(n: int): string {
    if n < 0 then "-" + Decimal(-n) else Decimal(n)
  }

  /** The low hexadecimal digits of a number. */
  function Hex(n: nat, digits: nat): (s: string)
    ensures |s| == digits
  {
    if digits == 0 then [] else Hex(n / 16, digits - 1) + [Digit(n % 16)]
  }

  /** A character of a JSON string. */
  function Escape(c: char): string {
    if c == '\"' then "\\\""
    else if c == '\\' then "\\\\"
    else if c == '\n' then "\\n"
    else if c == '\r' then "\\r"
    else if c == '\t' then "\\t"
    else if c as int == 8 then "\\b"
    else if c as int == 12 then "\\f"
    else if c as int < 32 then "\\u00" + [Digit(c as int / 16), Digit(c as int % 16)]
    else [c]
  }

  function Escapes(s: string): string {
    if s == [] then [] else Escape(s[0]) + Escapes(s[1..])
  }

  function Quote(s: string): string {
    "\"" + Escapes(s) + "\""
  }

  function Part(value: Grouped): string {
    match value
    case Null => "null"
    case Boolean(b) => if b then "b:true" else "b:false"
    case Integer(n) => "i:" + Signed(n)
    case Float(bits) => "f:" + Hex(bits, 16)
    case Text(text) => "s:" + Quote(text)
  }

  /** What follows the first part in a JSON array of strings. */
  function Rest(values: seq<Grouped>): string {
    if values == [] then "]" else "," + Quote(Part(values[0])) + Rest(values[1..])
  }

  function Key(values: seq<Grouped>): string {
    if values == [] then "[]" else "[" + Quote(Part(values[0])) + Rest(values[1..])
  }

  lemma {:induction false} DecimalOnce(a: nat, b: nat)
    requires Decimal(a) == Decimal(b)
    ensures a == b
  {
    LastDigit(a);
    LastDigit(b);
    if a >= 10 && b >= 10 {
      assert Decimal(a / 10) == Decimal(a)[..|Decimal(a)| - 1] == Decimal(b / 10);
      DecimalOnce(a / 10, b / 10);
    }
  }

  lemma LastDigit(n: nat)
    ensures Decimal(n)[|Decimal(n)| - 1] as int == '0' as int + n % 10
    ensures |Decimal(n)| == 1 <==> n < 10
  {
  }

  lemma SignSeen(n: int)
    ensures |Signed(n)| > 0 && (n < 0 <==> Signed(n)[0] == '-')
  {
    if n >= 0 {
      assert Decimal(n)[0] in Decimal(n);
    }
  }

  lemma SignedOnce(a: int, b: int)
    requires Signed(a) == Signed(b)
    ensures a == b
  {
    SignSeen(a);
    SignSeen(b);
    if a < 0 {
      assert Signed(a)[1..] == Decimal(-a) && Signed(b)[1..] == Decimal(-b);
      DecimalOnce(-a, -b);
    } else {
      DecimalOnce(a, b);
    }
  }

  function Power16(n: nat): (p: nat)
    ensures p > 0
  {
    if n == 0 then 1 else 16 * Power16(n - 1)
  }

  lemma {:induction false} HexOnce(a: nat, b: nat, digits: nat)
    requires Hex(a, digits) == Hex(b, digits) && a < Power16(digits) && b < Power16(digits)
    ensures a == b
  {
    if digits > 0 {
      var x, y := Hex(a, digits), Hex(b, digits);
      assert x[..digits - 1] == Hex(a / 16, digits - 1) && y[..digits - 1] == Hex(b / 16, digits - 1);
      assert x[digits - 1] == Digit(a % 16) && y[digits - 1] == Digit(b % 16);
      HexOnce(a / 16, b / 16, digits - 1);
    }
  }

  /** No character's escape begins another's, or a quote. */
  lemma EscapeOnce(a: char, b: char, x: string, y: string)
    requires Escape(a) + x == Escape(b) + y
    ensures a == b && x == y
  {
    var s, t := Escape(a) + x, Escape(b) + y;
    assert s[0] == Escape(a)[0] && t[0] == Escape(b)[0];
    if s[0] == '\\' {
      assert s[1] == Escape(a)[1] && t[1] == Escape(b)[1];
      if s[1] == 'u' {
        assert s[4] == Digit(a as int / 16) && s[5] == Digit(a as int % 16);
        assert t[4] == Digit(b as int / 16) && t[5] == Digit(b as int % 16);
      }
    }
    assert a == b;
    assert x == s[|Escape(a)|..] && y == t[|Escape(b)|..];
  }

  lemma EscapesStart(s: string)
    ensures if s == [] then Escapes(s) == [] else |Escapes(s)| > 0 && Escapes(s)[0] != '\"'
  {
    if s != [] {
      assert |Escape(s[0])| > 0 && Escape(s[0])[0] != '\"';
      assert Escapes(s)[0] == Escape(s[0])[0];
    }
  }

  /** A quoted text ends where it is seen to end. */
  lemma {:induction false} EscapesOnce(a: string, b: string, x: string, y: string)
    requires Escapes(a) + "\"" + x == Escapes(b) + "\"" + y
    ensures a == b && x == y
  {
    hide Escape;
    var s, t := Escapes(a) + "\"" + x, Escapes(b) + "\"" + y;
    EscapesStart(a);
    EscapesStart(b);
    if a == [] || b == [] {
      assert a == [] <==> s[0] == '\"';
      assert b == [] <==> t[0] == '\"';
      assert s[1..] == x && t[1..] == y;
    } else {
      assert s == Escape(a[0]) + (Escapes(a[1..]) + "\"" + x);
      assert t == Escape(b[0]) + (Escapes(b[1..]) + "\"" + y);
      EscapeOnce(a[0], b[0], Escapes(a[1..]) + "\"" + x, Escapes(b[1..]) + "\"" + y);
      EscapesOnce(a[1..], b[1..], x, y);
    }
  }

  lemma QuoteOnce(a: string, b: string, x: string, y: string)
    requires Quote(a) + x == Quote(b) + y
    ensures a == b && x == y
  {
    assert (Quote(a) + x)[1..] == Escapes(a) + "\"" + x;
    assert (Quote(b) + y)[1..] == Escapes(b) + "\"" + y;
    EscapesOnce(a, b, x, y);
  }

  lemma PartOnce(a: Grouped, b: Grouped)
    requires Part(a) == Part(b)
    ensures a == b
  {
    var s := Part(a);
    assert s[0] == (match a
      case Null => 'n' case Boolean(_) => 'b' case Integer(_) => 'i' case Float(_) => 'f' case Text(_) => 's');
    assert s[0] == (match b
      case Null => 'n' case Boolean(_) => 'b' case Integer(_) => 'i' case Float(_) => 'f' case Text(_) => 's');
    match a
    case Null =>
    case Boolean(x) => assert s[2] == if x then 't' else 'f';
    case Integer(n) =>
      assert s[2..] == Signed(n) && s[2..] == Signed(b.n);
      SignedOnce(n, b.n);
    case Float(bits) =>
      assert s[2..] == Hex(bits, 16) && s[2..] == Hex(b.bits, 16);
      Sixteen();
      HexOnce(bits, b.bits, 16);
    case Text(text) =>
      assert s[2..] == Quote(text) && s[2..] == Quote(b.text);
      assert Quote(text) + [] == Quote(text) && Quote(b.text) + [] == Quote(b.text);
      QuoteOnce(text, b.text, [], []);
  }

  lemma Sixteen()
    ensures Power16(16) == 0x1_0000_0000_0000_0000
  {
    assert Power16(4) == 65536;
    assert Power16(8) == 16 * 16 * 16 * 16 * 65536;
    assert Power16(12) == 16 * 16 * 16 * 16 * Power16(8);
  }

  lemma AfterOnce(mark: string, a: string, b: string, x: string, y: string)
    requires |mark| == 1 && mark + Quote(a) + x == mark + Quote(b) + y
    ensures a == b && x == y
  {
    hide Quote;
    assert (mark + Quote(a) + x)[1..] == Quote(a) + x;
    assert (mark + Quote(b) + y)[1..] == Quote(b) + y;
    QuoteOnce(a, b, x, y);
  }

  lemma {:induction false} RestOnce(a: seq<Grouped>, b: seq<Grouped>)
    requires Rest(a) == Rest(b)
    ensures a == b
  {
    hide Quote, Part;
    assert a == [] <==> Rest(a)[0] == ']';
    assert b == [] <==> Rest(b)[0] == ']';
    if a != [] {
      AfterOnce(",", Part(a[0]), Part(b[0]), Rest(a[1..]), Rest(b[1..]));
      PartOnce(a[0], b[0]);
      RestOnce(a[1..], b[1..]);
    }
  }

  lemma EmptyKey(values: seq<Grouped>)
    ensures |Key(values)| > 1 && (values == [] <==> Key(values)[1] == ']')
  {
    if values != [] {
      assert Key(values)[1] == Quote(Part(values[0]))[0];
    }
  }

  /** Two rows' values are the same exactly when their keys are. */
  lemma KeyOnce(a: seq<Grouped>, b: seq<Grouped>)
    ensures Key(a) == Key(b) <==> a == b
  {
    hide Quote, Part, Rest;
    EmptyKey(a);
    EmptyKey(b);
    if Key(a) == Key(b) && a != [] {
      AfterOnce("[", Part(a[0]), Part(b[0]), Rest(a[1..]), Rest(b[1..]));
      PartOnce(a[0], b[0]);
      RestOnce(a[1..], b[1..]);
    }
  }
}
