/** The CRC-32 that superblocks carry (crates/tinyjoin-core/src/checksum.rs). */

/** The reference: the shift register of section 8 of RFC 1952, fed one message bit at a time. */
module CrcReference {
  const POLYNOMIAL: bv32 := 0xedb8_8320

  /** The register's 32 bits, and the few operations that proofs about it are made of. */
  datatype Register = Register(bits: bv32)

  function Xor(a: Register, b: Register): Register {
    Register(a.bits ^ b.bits)
  }

  predicate Odd(state: Register) {
    state.bits & 1 == 1
  }

  function Fall(state: Register): Register {
    Register(state.bits >> 1)
  }

  function Polynomial(): Register {
    Register(POLYNOMIAL)
  }

  /** One message bit enters the register. */
  function FeedBit(state: Register, bit: bool): Register {
    if Odd(state) != bit then Xor(Fall(state), Polynomial()) else Fall(state)
  }

  /** The lowest `count` bits of `bits` enter the register, least significant first. */
  function FeedBits(state: Register, bits: Register, count: nat): Register
    decreases count
  {
    if count == 0 then state else FeedBits(FeedBit(state, Odd(bits)), Fall(bits), count - 1)
  }

  function FeedByte(state: Register, byte: bv8): Register {
    FeedBits(state, Register(byte as bv32), 8)
  }

  function Crc(state: Register, bytes: seq<bv8>): Register {
    if bytes == [] then state
    else FeedByte(Crc(state, bytes[..|bytes| - 1]), bytes[|bytes| - 1])
  }

  /** The bit of an exponent, highest exponent lowest. */
  function Bit(exponent: nat): bv32
    requires exponent < 32
  {
    (1 as bv32) << 31 - exponent
  }

  /** The polynomial of section 8 of RFC 1952, by its exponents. */
  lemma PolynomialIs()
    ensures POLYNOMIAL ==
            Bit(26) | Bit(23) | Bit(22) | Bit(16) | Bit(12) | Bit(11) | Bit(10) | Bit(8) | Bit(7) | Bit(5) |
                          Bit(4) | Bit(2) | Bit(1) | Bit(0)
  {
  }

  lemma CrcNext(state: Register, bytes: seq<bv8>, byte: bv8)
    ensures Crc(state, bytes + [byte]) == FeedByte(Crc(state, bytes), byte)
  {
    assert (bytes + [byte])[..|bytes|] == bytes;
  }

  lemma FirstDigits()
    ensures FeedByte(Register(0xffff_ffff), 0x31) == Register(0x7c23_1048)
    ensures FeedByte(Register(0x7c23_1048), 0x32) == Register(0xb0ac_bb32)
    ensures FeedByte(Register(0xb0ac_bb32), 0x33) == Register(0x77b7_9c2d)
  {
  }

  lemma MiddleDigits()
    ensures FeedByte(Register(0x77b7_9c2d), 0x34) == Register(0x641c_1f5c)
    ensures FeedByte(Register(0x641c_1f5c), 0x35) == Register(0x340a_c5e3)
    ensures FeedByte(Register(0x340a_c5e3), 0x36) == Register(0xf68d_2c9e)
  {
  }

  lemma LastDigits()
    ensures FeedByte(Register(0xf68d_2c9e), 0x37) == Register(0xaffc_9660)
    ensures FeedByte(Register(0xaffc_9660), 0x38) == Register(0x651f_2550)
    ensures FeedByte(Register(0x651f_2550), 0x39) == Register(0x340b_c6d9)
  {
  }

  /** The bytes of the digits from `1` on. */
  function Digits(n: nat): seq<bv8>
    requires n <= 9
  {
    if n == 0 then [] else Digits(n - 1) + [0x30 + n as bv8]
  }

  lemma DigitNext(n: nat, state: Register, next: Register)
    requires 0 < n <= 9 && Crc(Register(0xffff_ffff), Digits(n - 1)) == state &&
             FeedByte(state, 0x30 + n as bv8) == next
    ensures Crc(Register(0xffff_ffff), Digits(n)) == next
  {
    hide FeedByte;
    CrcNext(Register(0xffff_ffff), Digits(n - 1), 0x30 + n as bv8);
  }

  /** The check value: the checksum of the nine digits is the complement of 0xcbf4_3926. */
  lemma CheckValue()
    ensures Crc(Register(0xffff_ffff), Digits(9)) == Register(!0xcbf4_3926)
  {
    hide FeedByte, Crc;
    assert Crc(Register(0xffff_ffff), Digits(0)) == Register(0xffff_ffff) by { CrcNone(Register(0xffff_ffff)); }
    FirstDigits();
    MiddleDigits();
    LastDigits();
    DigitNext(1, Register(0xffff_ffff), Register(0x7c23_1048));
    DigitNext(2, Register(0x7c23_1048), Register(0xb0ac_bb32));
    DigitNext(3, Register(0xb0ac_bb32), Register(0x77b7_9c2d));
    DigitNext(4, Register(0x77b7_9c2d), Register(0x641c_1f5c));
    DigitNext(5, Register(0x641c_1f5c), Register(0x340a_c5e3));
    DigitNext(6, Register(0x340a_c5e3), Register(0xf68d_2c9e));
    DigitNext(7, Register(0xf68d_2c9e), Register(0xaffc_9660));
    DigitNext(8, Register(0xaffc_9660), Register(0x651f_2550));
    DigitNext(9, Register(0x651f_2550), Register(0x340b_c6d9));
  }

  lemma CrcNone(state: Register)
    ensures Crc(state, []) == state
  {
  }

  /** A message may be supplied in parts. */
  lemma {:induction false} CrcConcat(state: Register, left: seq<bv8>, right: seq<bv8>)
    ensures Crc(state, left + right) == Crc(Crc(state, left), right)
  {
    if right == [] {
      assert left + right == left;
    } else {
      var most := right[..|right| - 1];
      assert (left + right)[..|left + right| - 1] == left + most;
      CrcConcat(state, left, most);
    }
  }
}

/** What the register becomes over zero bits, which every table entry is a value of. */
module CrcLinear {
  import opened CrcReference

  lemma Assoc(a: Register, b: Register, c: Register)
    ensures Xor(Xor(a, b), c) == Xor(a, Xor(b, c))
  {
  }

  lemma Comm(a: Register, b: Register)
    ensures Xor(a, b) == Xor(b, a)
  {
  }

  lemma Cancel(a: Register, b: Register)
    ensures Xor(Xor(a, b), b) == a
  {
  }

  lemma XorZero(a: Register)
    ensures Xor(a, Register(0)) == a
  {
  }

  lemma OddXor(a: Register, b: Register)
    ensures Odd(Xor(a, b)) <==> (Odd(a) != Odd(b))
  {
  }

  lemma FallXor(a: Register, b: Register)
    ensures Fall(Xor(a, b)) == Xor(Fall(a), Fall(b))
  {
  }

  /** The register after `count` zero bits. */
  function Zeros(state: Register, count: nat): Register
    decreases count
  {
    if count == 0 then state else Zeros(FeedBit(state, false), count - 1)
  }

  lemma FeedBitLinear(a: Register, b: Register)
    ensures FeedBit(Xor(a, b), false) == Xor(FeedBit(a, false), FeedBit(b, false))
  {
    hide Xor, Odd, Fall, Polynomial;
    OddXor(a, b);
    FallXor(a, b);
    var x, y, p := Fall(a), Fall(b), Polynomial();
    Assoc(x, p, y);
    Assoc(x, y, p);
    Assoc(x, p, Xor(y, p));
    Comm(p, y);
    Comm(p, Xor(y, p));
    Cancel(y, p);
  }

  /** Over zero bits each bit of the register moves the result independently. */
  lemma {:induction false} ZerosLinear(a: Register, b: Register, count: nat)
    ensures Zeros(Xor(a, b), count) == Xor(Zeros(a, count), Zeros(b, count))
    decreases count
  {
    if count > 0 {
      FeedBitLinear(a, b);
      ZerosLinear(FeedBit(a, false), FeedBit(b, false), count - 1);
    }
  }

  lemma {:induction false} ZerosSum(state: Register, first: nat, second: nat)
    ensures Zeros(Zeros(state, first), second) == Zeros(state, first + second)
    decreases first
  {
    if first > 0 {
      ZerosSum(FeedBit(state, false), first - 1, second);
    }
  }

  lemma {:induction false} ZerosOfZero(count: nat)
    ensures Zeros(Register(0), count) == Register(0)
  {
    if count > 0 {
      ZerosOfZero(count - 1);
    }
  }

  predicate Joins(a: bv32, b: bv32, whole: bv32) {
    a ^ b == whole
  }

  lemma XorOf(a: bv32, b: bv32, c: bv32)
    requires Joins(a, b, c)
    ensures Xor(Register(a), Register(b)) == Register(c)
  {
  }

  /** The lowest `count` bits of `value` are clear, and above them stands `rest`. */
  predicate Clear(value: bv32, count: nat, rest: bv32)
    decreases count
  {
    if count == 0 then value == rest else value & 1 == 0 && Clear(value >> 1, count - 1, rest)
  }

  lemma FallClear(value: bv32)
    requires value & 1 == 0
    ensures FeedBit(Register(value), false) == Register(value >> 1)
  {
  }

  /** While the bits leaving the register are clear it only shifts. */
  lemma {:induction false} ZerosShift(value: bv32, count: nat, rest: bv32)
    requires Clear(value, count, rest)
    ensures Zeros(Register(value), count) == Register(rest)
    decreases count
  {
    if count > 0 {
      FallClear(value);
      ZerosShift(value >> 1, count - 1, rest);
    }
  }

  /** `high` is `low` a byte further from leaving the register. */
  predicate Rises(low: bv32, high: bv32) {
    high & 255 == 0 && high >> 8 == low
  }

  lemma RisesClear(low: bv32, high: bv32)
    requires Rises(low, high)
    ensures Clear(high, 8, low)
  {
    assert Clear(high >> 4, 4, high >> 8);
  }

  lemma RisesZeros(low: bv32, high: bv32, count: nat)
    requires Rises(low, high) && count >= 8
    ensures Zeros(Register(high), count) == Zeros(Register(low), count - 8)
  {
    RisesClear(low, high);
    ZerosShift(high, 8, low);
    ZerosSum(Register(high), 8, count - 8);
  }

  lemma SplitBits(bits: bv32)
    ensures Joins(bits & 0xffff_ff00, bits & 255, bits)
    ensures Rises(bits >> 8, bits & 0xffff_ff00)
  {
  }

  lemma ByteSplitAt(bits: bv32, high: bv32, low: bv32, rest: bv32)
    requires Joins(high, low, bits) && Rises(rest, high)
    ensures Zeros(Register(bits), 8) == Xor(Register(rest), Zeros(Register(low), 8))
  {
    hide Xor, Rises, Joins, FeedBit;
    XorOf(high, low, bits);
    ZerosLinear(Register(high), Register(low), 8);
    RisesZeros(rest, high, 8);
  }

  /** The byte step of a table-driven CRC. */
  lemma ByteSplit(bits: bv32)
    ensures Zeros(Register(bits), 8) == Xor(Register(bits >> 8), Zeros(Register(bits & 255), 8))
  {
    SplitBits(bits);
    hide Xor, Rises, Joins, Zeros;
    ByteSplitAt(bits, bits & 0xffff_ff00, bits & 255, bits >> 8);
  }

  predicate Fits(bits: Register, count: nat)
    decreases count
  {
    if count == 0 then bits == Register(0) else Fits(Fall(bits), count - 1)
  }

  lemma FoldBit(state: Register, bits: Register)
    ensures Xor(FeedBit(state, Odd(bits)), Fall(bits)) == FeedBit(Xor(state, bits), false)
  {
    OddXor(state, bits);
    FallXor(state, bits);
    Assoc(Fall(state), Polynomial(), Fall(bits));
    Comm(Polynomial(), Fall(bits));
    Assoc(Fall(state), Fall(bits), Polynomial());
  }

  /** Bits fed one at a time may be folded into the register first. */
  lemma {:induction false} FeedBitsFold(state: Register, bits: Register, count: nat)
    requires Fits(bits, count)
    ensures FeedBits(state, bits, count) == Zeros(Xor(state, bits), count)
    decreases count
  {
    if count == 0 {
      XorZero(state);
    } else {
      FoldBit(state, bits);
      FeedBitsFold(FeedBit(state, Odd(bits)), Fall(bits), count - 1);
    }
  }

  lemma ByteFits(bits: bv32)
    requires bits <= 255
    ensures Fits(Register(bits), 8)
  {
    assert Fits(Register(bits >> 4), 4);
  }

  /** A message byte may be folded into the register before eight zero bits. */
  lemma FeedByteFold(state: Register, byte: bv8)
    ensures FeedByte(state, byte) == Zeros(Xor(state, Register(byte as bv32)), 8)
  {
    ByteFits(byte as bv32);
    FeedBitsFold(state, Register(byte as bv32), 8);
  }

  predicate ZeroBytes(bytes: seq<bv8>) {
    forall i :: 0 <= i < |bytes| ==> bytes[i] == 0
  }

  /** A run of zero bytes. */
  lemma {:induction false} CrcOfZeros(state: Register, bytes: seq<bv8>)
    requires ZeroBytes(bytes)
    ensures Crc(state, bytes) == Zeros(state, 8 * |bytes|)
  {
    if bytes != [] {
      var most := bytes[..|bytes| - 1];
      CrcOfZeros(state, most);
      FeedByteFold(Crc(state, most), 0);
      XorZero(Crc(state, most));
      ZerosSum(state, 8 * |most|, 8);
    }
  }

  function Byte0(word: bv32): bv32 {
    word & 255
  }

  function Byte1(word: bv32): bv32 {
    (word >> 8) & 255
  }

  function Byte2(word: bv32): bv32 {
    (word >> 16) & 255
  }

  function Byte3(word: bv32): bv32 {
    word >> 24
  }

  lemma ByteBounds(word: bv32)
    ensures Byte0(word) <= 255 && Byte1(word) <= 255 && Byte2(word) <= 255 && Byte3(word) <= 255
  {
  }

  /** A word's bytes `b`, where they stand in it `s`, and the word as they are joined in turn. */
  datatype Parts = Parts(b0: bv32, b1: bv32, b2: bv32, b3: bv32, s1: bv32, s2: bv32, s3: bv32,
                         m2: bv32, m3: bv32, n3: bv32, two: bv32, three: bv32)

  predicate PartsOf(parts: Parts, word: bv32) {
    && Joins(parts.b0, parts.s1, parts.two) && Joins(parts.two, parts.s2, parts.three)
    && Joins(parts.three, parts.s3, word)
    && Rises(parts.b1, parts.s1)
    && Rises(parts.b2, parts.m2) && Rises(parts.m2, parts.s2)
    && Rises(parts.b3, parts.m3) && Rises(parts.m3, parts.n3) && Rises(parts.n3, parts.s3)
  }

  lemma WordJoins(word: bv32) returns (b0: bv32, s1: bv32, s2: bv32, s3: bv32, two: bv32, three: bv32)
    ensures Joins(b0, s1, two) && Joins(two, s2, three) && Joins(three, s3, word)
    ensures b0 == word & 255 && s1 == ((word >> 8) & 255) << 8
    ensures s2 == ((word >> 16) & 255) << 16 && s3 == (word >> 24) << 24
  {
    b0, s1, s2, s3 := word & 255, ((word >> 8) & 255) << 8, ((word >> 16) & 255) << 16, (word >> 24) << 24;
    two := b0 ^ s1;
    three := two ^ s2;
  }

  lemma WordRises(word: bv32) returns (b1: bv32, b2: bv32, b3: bv32, m2: bv32, m3: bv32, n3: bv32)
    ensures b1 == (word >> 8) & 255 && b2 == (word >> 16) & 255 && b3 == word >> 24
    ensures Rises(b1, ((word >> 8) & 255) << 8)
    ensures Rises(b2, m2) && Rises(m2, ((word >> 16) & 255) << 16)
    ensures Rises(b3, m3) && Rises(m3, n3) && Rises(n3, (word >> 24) << 24)
  {
    b1, b2, b3 := (word >> 8) & 255, (word >> 16) & 255, word >> 24;
    m2, m3, n3 := b2 << 8, b3 << 8, b3 << 16;
  }

  lemma SplitParts(word: bv32) returns (parts: Parts)
    ensures PartsOf(parts, word)
    ensures parts.b0 == word & 255 && parts.b1 == (word >> 8) & 255
    ensures parts.b2 == (word >> 16) & 255 && parts.b3 == word >> 24
    ensures parts.s1 == ((word >> 8) & 255) << 8 && parts.s2 == ((word >> 16) & 255) << 16
    ensures parts.s3 == (word >> 24) << 24
  {
    hide Joins, Rises;
    var b0, s1, s2, s3, two, three := WordJoins(word);
    var b1, b2, b3, m2, m3, n3 := WordRises(word);
    parts := Parts(b0, b1, b2, b3, s1, s2, s3, m2, m3, n3, two, three);
  }

  lemma JoinZeros(left: bv32, right: bv32, whole: bv32, count: nat)
    requires Joins(left, right, whole)
    ensures Zeros(Register(whole), count) == Xor(Zeros(Register(left), count), Zeros(Register(right), count))
  {
    hide Xor, Zeros, Joins;
    XorOf(left, right, whole);
    ZerosLinear(Register(left), Register(right), count);
  }

  lemma JoinParts(parts: Parts, word: bv32, count: nat)
    requires PartsOf(parts, word)
    ensures Zeros(Register(word), count) ==
            Xor(Xor(Xor(Zeros(Register(parts.b0), count), Zeros(Register(parts.s1), count)),
                    Zeros(Register(parts.s2), count)),
                Zeros(Register(parts.s3), count))
  {
    hide Xor, Zeros, Rises, Joins;
    JoinZeros(parts.b0, parts.s1, parts.two, count);
    JoinZeros(parts.two, parts.s2, parts.three, count);
    JoinZeros(parts.three, parts.s3, word, count);
  }

  lemma LowerParts(parts: Parts, word: bv32, count: nat)
    requires PartsOf(parts, word) && count >= 24
    ensures Zeros(Register(parts.s1), count) == Zeros(Register(parts.b1), count - 8)
    ensures Zeros(Register(parts.s2), count) == Zeros(Register(parts.b2), count - 16)
    ensures Zeros(Register(parts.s3), count) == Zeros(Register(parts.b3), count - 24)
  {
    hide Zeros, Rises;
    RisesZeros(parts.b1, parts.s1, count);
    RisesZeros(parts.m2, parts.s2, count);
    RisesZeros(parts.b2, parts.m2, count - 8);
    RisesZeros(parts.n3, parts.s3, count);
    RisesZeros(parts.m3, parts.n3, count - 8);
    RisesZeros(parts.b3, parts.m3, count - 16);
  }

  /** Shifting a word out a byte at a time leaves its bytes where the slicing tables expect them. */
  lemma WordSplit(word: bv32, count: nat)
    requires count >= 24
    ensures Zeros(Register(word), count) ==
            Xor(Xor(Xor(Zeros(Register(Byte0(word)), count), Zeros(Register(Byte1(word)), count - 8)),
                    Zeros(Register(Byte2(word)), count - 16)),
                Zeros(Register(Byte3(word)), count - 24))
  {
    hide Xor, Zeros, Rises, Joins, PartsOf;
    var parts := SplitParts(word);
    JoinParts(parts, word, count);
    LowerParts(parts, word, count);
  }

  /** A byte moved up the word, `row` bytes. */
  function Raised(byte: bv32, row: nat): bv32
    requires row < 4
  {
    if row == 0 then byte else if row == 1 then byte << 8 else if row == 2 then byte << 16 else byte << 24
  }

  /** As `WordSplit`, with each byte left where it stands in the word. */
  lemma WordStands(word: bv32, count: nat)
    ensures Zeros(Register(word), count) ==
            Xor(Xor(Xor(Zeros(Register(Raised(Byte0(word), 0)), count), Zeros(Register(Raised(Byte1(word), 1)), count)),
                    Zeros(Register(Raised(Byte2(word), 2)), count)),
                Zeros(Register(Raised(Byte3(word), 3)), count))
  {
    RaisedParts(word);
    hide Xor, Zeros, Rises, Joins, PartsOf, Raised;
    var parts := SplitParts(word);
    JoinParts(parts, word, count);
  }

  lemma RaisedParts(word: bv32)
    ensures Raised(Byte0(word), 0) == word & 255 && Raised(Byte1(word), 1) == ((word >> 8) & 255) << 8
    ensures Raised(Byte2(word), 2) == ((word >> 16) & 255) << 16 && Raised(Byte3(word), 3) == (word >> 24) << 24
  {
  }

  /** A byte entering `shift` bits into a word may be folded in before the word moves. */
  lemma FeedRaised(before: Register, state: Register, byte: bv8, raised: Register, count: nat)
    requires before == Zeros(state, count)
    requires Zeros(raised, count) == Register(byte as bv32)
    ensures FeedByte(before, byte) == Zeros(Xor(state, raised), count + 8)
  {
    hide Xor, FeedByte, FeedBits;
    FeedByteFold(before, byte);
    ZerosLinear(state, raised, count);
    ZerosSum(Xor(state, raised), count, 8);
  }

  /** Four bytes as the word their little-endian order makes. */
  function Word(b0: bv32, b1: bv32, b2: bv32, b3: bv32): bv32 {
    b0 | (b1 << 8) | (b2 << 16) | (b3 << 24)
  }

  lemma WordOfBytes(b0: bv32, b1: bv32, b2: bv32, b3: bv32)
    requires b0 <= 255 && b1 <= 255 && b2 <= 255 && b3 <= 255
    ensures var word := Word(b0, b1, b2, b3);
            word & 255 == b0 && (word >> 8) & 255 == b1 && (word >> 16) & 255 == b2 && word >> 24 == b3
  {
  }

  lemma ByteBound(byte: bv8)
    ensures byte as bv32 <= 255
  {
  }

  lemma WordParts(b0: bv8, b1: bv8, b2: bv8, b3: bv8) returns (parts: Parts)
    ensures PartsOf(parts, Word(b0 as bv32, b1 as bv32, b2 as bv32, b3 as bv32))
    ensures parts.b0 == b0 as bv32 && parts.b1 == b1 as bv32
    ensures parts.b2 == b2 as bv32 && parts.b3 == b3 as bv32
  {
    hide PartsOf, Word;
    ByteBound(b0);
    ByteBound(b1);
    ByteBound(b2);
    ByteBound(b3);
    WordOfBytes(b0 as bv32, b1 as bv32, b2 as bv32, b3 as bv32);
    parts := SplitParts(Word(b0 as bv32, b1 as bv32, b2 as bv32, b3 as bv32));
  }

  lemma XorWord(state: Register, parts: Parts, word: bv32)
    requires PartsOf(parts, word)
    ensures Xor(Xor(Xor(Xor(state, Register(parts.b0)), Register(parts.s1)), Register(parts.s2)), Register(parts.s3)) ==
            Xor(state, Register(word))
  {
    hide Xor, Joins, Rises;
    XorOf(parts.b0, parts.s1, parts.two);
    XorOf(parts.two, parts.s2, parts.three);
    XorOf(parts.three, parts.s3, word);
    Assoc(state, Register(parts.b0), Register(parts.s1));
    Assoc(state, Register(parts.two), Register(parts.s2));
    Assoc(state, Register(parts.three), Register(parts.s3));
  }

  lemma PartsFall(parts: Parts, word: bv32)
    requires PartsOf(parts, word)
    ensures Zeros(Register(parts.s1), 8) == Register(parts.b1)
    ensures Zeros(Register(parts.s2), 16) == Register(parts.b2)
    ensures Zeros(Register(parts.s3), 24) == Register(parts.b3)
  {
    hide Joins, Rises;
    RisesZeros(parts.b1, parts.s1, 8);
    RisesZeros(parts.m2, parts.s2, 16);
    RisesZeros(parts.b2, parts.m2, 8);
    RisesZeros(parts.n3, parts.s3, 24);
    RisesZeros(parts.m3, parts.n3, 16);
    RisesZeros(parts.b3, parts.m3, 8);
  }

  /** A whole word may be folded into the register before 32 zero bits. */
  lemma FeedWord(state: Register, b0: bv8, b1: bv8, b2: bv8, b3: bv8)
    ensures FeedByte(FeedByte(FeedByte(FeedByte(state, b0), b1), b2), b3) ==
            Zeros(Xor(state, Register(Word(b0 as bv32, b1 as bv32, b2 as bv32, b3 as bv32))), 32)
  {
    hide Xor, FeedByte, FeedBits, PartsOf, Word, Zeros;
    var parts := WordParts(b0, b1, b2, b3);
    PartsFall(parts, Word(b0 as bv32, b1 as bv32, b2 as bv32, b3 as bv32));
    FeedByteFold(state, b0);
    var x0 := Xor(state, Register(parts.b0));
    var x1 := Xor(x0, Register(parts.s1));
    var x2 := Xor(x1, Register(parts.s2));
    FeedRaised(FeedByte(state, b0), x0, b1, Register(parts.s1), 8);
    FeedRaised(FeedByte(FeedByte(state, b0), b1), x1, b2, Register(parts.s2), 16);
    FeedRaised(FeedByte(FeedByte(FeedByte(state, b0), b1), b2), x2, b3, Register(parts.s3), 24);
    XorWord(state, parts, Word(b0 as bv32, b1 as bv32, b2 as bv32, b3 as bv32));
  }
}
