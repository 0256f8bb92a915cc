/** The table-driven CRC-32: sixteen bytes a step, and 256 zero bytes a step over long zero runs. */
module CrcTables {
  import opened CrcReference
  import opened CrcLinear

  predicate Shaped(t: array2<bv32>) {
    t.Length0 == 20 && t.Length1 == 256
  }

  function At(t: array2<bv32>, slice: nat, byte: bv32): bv32
    reads t
    requires Shaped(t) && slice < 20 && byte <= 255
  {
    t[slice, byte as int]
  }

  /** Entry `n` of slice `k` is the register after byte value `n` and `k` zero bytes. */
  ghost function Want(slice: nat, byte: bv32): Register {
    Zeros(Register(byte), 8 * slice + 8)
  }

  /** The first `count` entries of a slice are in place. */
  ghost predicate FilledTo(t: array2<bv32>, slice: nat, count: nat)
    reads t
    requires Shaped(t) && slice < 20 && count <= 256
  {
    forall byte: bv32 :: byte as int < count ==> Register(t[slice, byte as int]) == Want(slice, byte)
  }

  ghost predicate SliceHolds(t: array2<bv32>, slice: nat)
    reads t
    requires Shaped(t) && slice < 20
  {
    FilledTo(t, slice, 256)
  }

  ghost predicate Sliced(t: array2<bv32>, slices: nat)
    reads t
    requires Shaped(t) && slices <= 16
  {
    forall slice: nat :: slice < slices ==> SliceHolds(t, slice)
  }

  function Unit(bit: nat): bv32
    requires bit < 32
  {
    (1 as bv32) << bit
  }

  predicate Has(byte: bv32, bit: nat)
    requires bit < 32
  {
    byte & Unit(bit) != 0
  }

  function LowBits(byte: bv32, count: nat): bv32
    requires count <= 8
  {
    byte & (((1 as bv32) << count) - 1)
  }

  /** How many bits of row `row` are among the first `bits` bits of the word. */
  function Count(row: nat, bits: nat): nat
    requires row < 4 && bits <= 32
  {
    if bits <= 8 * row then 0 else if bits >= 8 * row + 8 then 8 else bits - 8 * row
  }

  /** The bits of `byte` that the first `bits` bits of the word reach, where row `row` has them. */
  function Reached(byte: bv32, row: nat, bits: nat): bv32
    requires row < 4 && bits <= 32
  {
    Raised(LowBits(byte, Count(row, bits)), row)
  }

  ghost function Run(row: nat, byte: bv32, bits: nat): Register
    requires row < 4 && bits <= 32
  {
    Zeros(Register(Reached(byte, row, bits)), 2048)
  }

  /** Row `row` of the tables over 256 zero bytes, with `after` bits of the state entered in its first `count`
      entries and `before` in the others. */
  ghost predicate RowTo(t: array2<bv32>, row: nat, before: nat, after: nat, count: nat)
    reads t
    requires Shaped(t) && row < 4 && before <= 32 && after <= 32 && count <= 256
  {
    && (forall byte: bv32 :: byte as int < count ==> Register(t[16 + row, byte as int]) == Run(row, byte, after))
    && (forall byte: bv32 :: count <= byte as int < 256 ==>
          Register(t[16 + row, byte as int]) == Run(row, byte, before))
  }

  ghost predicate RowHolds(t: array2<bv32>, row: nat, bits: nat)
    reads t
    requires Shaped(t) && row < 4 && bits <= 32
  {
    forall byte: bv32 :: byte as int < 256 ==> Register(t[16 + row, byte as int]) == Run(row, byte, bits)
  }

  /** The tables over 256 zero bytes, once the first `bits` bits of the state are entered. */
  ghost predicate RunsHold(t: array2<bv32>, bits: nat)
    reads t
    requires Shaped(t) && bits <= 32
  {
    forall row: nat :: row < 4 ==> RowHolds(t, row, bits)
  }

  ghost predicate Built(t: array2<bv32>)
    reads t
  {
    Shaped(t) && Sliced(t, 16) && RunsHold(t, 32)
  }

  /** Exclusive or, which is addition in the field the checksum works in. */
  function Plus(a: bv32, b: bv32): bv32 {
    a ^ b
  }

  lemma PlusXor(a: bv32, b: bv32)
    ensures Register(Plus(a, b)) == Xor(Register(a), Register(b))
  {
  }

  lemma ByteIndex(byte: bv32)
    ensures byte <= 255 <==> byte as int < 256
    ensures (byte as int) as bv32 == byte
  {
  }

  lemma Entry(t: array2<bv32>, slice: nat, byte: bv32)
    requires Shaped(t) && Sliced(t, 16) && slice < 16 && byte <= 255
    ensures Register(At(t, slice, byte)) == Zeros(Register(byte), 8 * slice + 8)
  {
    hide Zeros;
    ByteIndex(byte);
    assert SliceHolds(t, slice);
    assert Register(t[slice, byte as int]) == Want(slice, byte);
  }

  /** Four lookups, one for each byte of a word, in the slices from `top` down. */
  function Lookups(t: array2<bv32>, top: nat, word: bv32): bv32
    reads t
    requires Shaped(t) && 3 <= top < 16
  {
    ByteBounds(word);
    Plus(Plus(Plus(At(t, top, Byte0(word)), At(t, top - 1, Byte1(word))), At(t, top - 2, Byte2(word))),
         At(t, top - 3, Byte3(word)))
  }

  lemma LookupsZeros(t: array2<bv32>, top: nat, word: bv32)
    requires Shaped(t) && Sliced(t, 16) && 3 <= top < 16
    ensures Register(Lookups(t, top, word)) == Zeros(Register(word), 8 * top + 8)
  {
    hide Xor, Zeros, At, Sliced, Plus, Byte0, Byte1, Byte2, Byte3;
    ByteBounds(word);
    var v0, v1, v2, v3 :=
      At(t, top, Byte0(word)), At(t, top - 1, Byte1(word)), At(t, top - 2, Byte2(word)), At(t, top - 3, Byte3(word));
    WordSplit(word, 8 * top + 8);
    Entry(t, top, Byte0(word));
    Entry(t, top - 1, Byte1(word));
    Entry(t, top - 2, Byte2(word));
    Entry(t, top - 3, Byte3(word));
    PlusXor(v0, v1);
    PlusXor(Plus(v0, v1), v2);
    PlusXor(Plus(Plus(v0, v1), v2), v3);
  }

  /** The register after sixteen zero bytes. */
  function Skip(t: array2<bv32>, state: bv32): bv32
    reads t
    requires Shaped(t)
  {
    Lookups(t, 15, state)
  }

  /** The register after 256 zero bytes. */
  function Leap(t: array2<bv32>, state: bv32): bv32
    reads t
    requires Shaped(t)
  {
    ByteBounds(state);
    Plus(Plus(Plus(At(t, 16, Byte0(state)), At(t, 17, Byte1(state))), At(t, 18, Byte2(state))),
         At(t, 19, Byte3(state)))
  }

  lemma RunEntry(t: array2<bv32>, row: nat, byte: bv32)
    requires Shaped(t) && RunsHold(t, 32) && row < 4 && byte <= 255
    ensures Register(At(t, 16 + row, byte)) == Zeros(Register(Raised(byte, row)), 2048)
  {
    hide Zeros, Raised, LowBits;
    LowBitsEnds(byte);
    assert Count(row, 32) == 8;
    ByteIndex(byte);
    assert RowHolds(t, row, 32);
    assert Register(t[16 + row, byte as int]) == Run(row, byte, 32);
    assert Reached(byte, row, 32) == Raised(byte, row);
  }

  lemma LeapZeros(t: array2<bv32>, state: bv32)
    requires Shaped(t) && RunsHold(t, 32)
    ensures Register(Leap(t, state)) == Zeros(Register(state), 2048)
  {
    hide Xor, Zeros, At, RunsHold, Plus, Byte0, Byte1, Byte2, Byte3, Raised;
    ByteBounds(state);
    var v0, v1, v2, v3 := At(t, 16, Byte0(state)), At(t, 17, Byte1(state)), At(t, 18, Byte2(state)),
                          At(t, 19, Byte3(state));
    WordStands(state, 2048);
    RunEntry(t, 0, Byte0(state));
    RunEntry(t, 1, Byte1(state));
    RunEntry(t, 2, Byte2(state));
    RunEntry(t, 3, Byte3(state));
    PlusXor(v0, v1);
    PlusXor(Plus(v0, v1), v2);
    PlusXor(Plus(Plus(v0, v1), v2), v3);
  }

  lemma LowBitsEnds(byte: bv32)
    ensures LowBits(byte, 0) == 0
    ensures byte <= 255 ==> LowBits(byte, 8) == byte
  {
  }

  lemma RaisedZero(row: nat)
    requires row < 4
    ensures Raised(0, row) == 0
  {
    if row == 0 {
    } else if row == 1 {
    } else if row == 2 {
    } else {
    }
  }

  lemma TakeXor(byte: bv32, count: nat)
    requires count < 8
    ensures byte & (((1 as bv32) << (count + 1)) - 1) ==
            (byte & (((1 as bv32) << count) - 1)) ^ (byte & ((1 as bv32) << count))
    ensures byte & ((1 as bv32) << count) != 0 ==> byte & ((1 as bv32) << count) == (1 as bv32) << count
  {
  }

  lemma TakeSet(byte: bv32, count: nat)
    requires count < 8 && Has(byte, count)
    ensures LowBits(byte, count + 1) == Plus(LowBits(byte, count), Unit(count))
  {
    TakeXor(byte, count);
  }

  lemma TakeClear(byte: bv32, count: nat)
    requires count < 8 && !Has(byte, count)
    ensures LowBits(byte, count + 1) == LowBits(byte, count)
  {
  }

  lemma PlusZero(a: bv32)
    ensures Plus(a, 0) == a
  {
  }

  lemma ShiftXor8(a: bv32, b: bv32, c: bv32)
    requires c == a ^ b
    ensures c << 8 == (a << 8) ^ (b << 8)
  {
  }

  lemma ShiftXor16(a: bv32, b: bv32, c: bv32)
    requires c == a ^ b
    ensures c << 16 == (a << 16) ^ (b << 16)
  {
  }

  lemma ShiftXor24(a: bv32, b: bv32, c: bv32)
    requires c == a ^ b
    ensures c << 24 == (a << 24) ^ (b << 24)
  {
  }

  lemma PlusIs(a: bv32, b: bv32)
    ensures Plus(a, b) == a ^ b
  {
  }

  lemma ShiftPlus8(a: bv32, b: bv32)
    ensures Plus(a, b) << 8 == Plus(a << 8, b << 8)
  {
    hide Plus;
    var c := Plus(a, b);
    PlusIs(a, b);
    ShiftXor8(a, b, c);
    PlusIs(a << 8, b << 8);
  }

  lemma ShiftPlus16(a: bv32, b: bv32)
    ensures Plus(a, b) << 16 == Plus(a << 16, b << 16)
  {
    hide Plus;
    var c := Plus(a, b);
    PlusIs(a, b);
    ShiftXor16(a, b, c);
    PlusIs(a << 16, b << 16);
  }

  lemma ShiftPlus24(a: bv32, b: bv32)
    ensures Plus(a, b) << 24 == Plus(a << 24, b << 24)
  {
    hide Plus;
    var c := Plus(a, b);
    PlusIs(a, b);
    ShiftXor24(a, b, c);
    PlusIs(a << 24, b << 24);
  }

  lemma RaisedPlus(a: bv32, b: bv32, row: nat)
    requires row < 4
    ensures Raised(Plus(a, b), row) == Plus(Raised(a, row), Raised(b, row))
  {
    hide Plus;
    ShiftPlus8(a, b);
    ShiftPlus16(a, b);
    ShiftPlus24(a, b);
  }

  lemma RaisedUnit(count: nat, row: nat)
    requires count < 8 && row < 4
    ensures Raised(Unit(count), row) == Unit(8 * row + count)
  {
    if row == 0 {
    } else if row == 1 {
    } else if row == 2 {
    } else {
    }
  }

  lemma ReachedNone(byte: bv32, row: nat)
    requires row < 4
    ensures Reached(byte, row, 0) == 0
  {
    hide Raised, LowBits;
    LowBitsEnds(byte);
    RaisedZero(row);
  }

  lemma ReachedElsewhere(byte: bv32, row: nat, bit: nat)
    requires row < 4 && bit < 32 && bit / 8 != row
    ensures Reached(byte, row, bit + 1) == Reached(byte, row, bit)
  {
    hide Raised, LowBits;
  }

  lemma ReachedNext(byte: bv32, bit: nat)
    requires bit < 32
    ensures Reached(byte, bit / 8, bit + 1) ==
            Plus(Reached(byte, bit / 8, bit), if Has(byte, bit % 8) then Unit(bit) else 0)
  {
    hide Raised, LowBits, Plus, Has, Unit;
    var row, count := bit / 8, bit % 8;
    if Has(byte, count) {
      TakeSet(byte, count);
      RaisedPlus(LowBits(byte, count), Unit(count), row);
      RaisedUnit(count, row);
    } else {
      TakeClear(byte, count);
      PlusZero(Reached(byte, row, bit));
    }
  }

  /** A shift of the register with the polynomial masked in. */
  function Shift(checksum: bv32): bv32 {
    (checksum >> 1) ^ (POLYNOMIAL & (0 - (checksum & 1)))
  }

  lemma ShiftIs(checksum: bv32)
    ensures Register(Shift(checksum)) == FeedBit(Register(checksum), false)
  {
    if checksum & 1 == 1 {
    } else {
      assert checksum & 1 == 0;
    }
  }

  /** The register after one more zero byte, by one lookup. */
  function Step(t: array2<bv32>, previous: bv32): bv32
    reads t
    requires Shaped(t)
  {
    ByteBounds(previous);
    Plus(previous >> 8, At(t, 0, Byte0(previous)))
  }

  lemma StepZeros(t: array2<bv32>, previous: bv32)
    requires Shaped(t) && SliceHolds(t, 0)
    ensures Register(Step(t, previous)) == Zeros(Register(previous), 8)
  {
    ByteBounds(previous);
    ByteSplit(previous);
    hide Xor, Zeros, Plus;
    ByteIndex(Byte0(previous));
    assert Register(t[0, Byte0(previous) as int]) == Want(0, Byte0(previous));
    PlusXor(previous >> 8, At(t, 0, Byte0(previous)));
  }

  method EightShifts(start: bv32) returns (checksum: bv32)
    ensures Register(checksum) == Zeros(Register(start), 8)
  {
    checksum := start;
    for i := 0 to 8
      invariant Zeros(Register(checksum), 8 - i) == Zeros(Register(start), 8)
    {
      ShiftIs(checksum);
      checksum := Shift(checksum);
    }
  }

  method Put(t: array2<bv32>, slice: nat, byte: nat, next: bv32)
    requires Shaped(t) && slice < 20 && byte < 256 && FilledTo(t, slice, byte)
    requires forall b: bv32 :: b as int == byte ==> Register(next) == Want(slice, b)
    modifies t
    ensures FilledTo(t, slice, byte + 1)
    ensures forall i, j :: 0 <= i < 20 && 0 <= j < 256 && i != slice ==> t[i, j] == old(t[i, j])
  {
    hide Want;
    t[slice, byte] := next;
  }

  method FillFirst(t: array2<bv32>)
    requires Shaped(t)
    modifies t
    ensures SliceHolds(t, 0)
    ensures forall i, j :: 1 <= i < 20 && 0 <= j < 256 ==> t[i, j] == old(t[i, j])
  {
    for byte := 0 to 256
      invariant FilledTo(t, 0, byte)
      invariant forall i, j :: 1 <= i < 20 && 0 <= j < 256 ==> t[i, j] == old(t[i, j])
    {
      var checksum := EightShifts(byte as bv32);
      forall b: bv32 | b as int == byte ensures Register(checksum) == Want(0, b) {
        ByteIndex(b);
      }
      Put(t, 0, byte, checksum);
    }
  }

  method SliceEntry(t: array2<bv32>, slice: nat, byte: nat) returns (next: bv32)
    requires Shaped(t) && 1 <= slice < 16 && byte < 256 && SliceHolds(t, 0) && SliceHolds(t, slice - 1)
    ensures forall b: bv32 :: b as int == byte ==> Register(next) == Want(slice, b)
  {
    var previous := t[slice - 1, byte];
    next := Step(t, previous);
    hide Step, Zeros;
    StepZeros(t, previous);
    forall b: bv32 | b as int == byte ensures Register(next) == Want(slice, b) {
      assert Register(t[slice - 1, b as int]) == Want(slice - 1, b);
      ZerosSum(Register(b), 8 * slice, 8);
    }
  }

  method FillSlice(t: array2<bv32>, slice: nat)
    requires Shaped(t) && 1 <= slice < 16 && SliceHolds(t, 0) && SliceHolds(t, slice - 1)
    modifies t
    ensures SliceHolds(t, slice)
    ensures forall i, j :: 0 <= i < 20 && 0 <= j < 256 && i != slice ==> t[i, j] == old(t[i, j])
  {
    hide Want;
    for byte := 0 to 256
      invariant FilledTo(t, slice, byte)
      invariant SliceHolds(t, 0) && SliceHolds(t, slice - 1)
      invariant forall i, j :: 0 <= i < 20 && 0 <= j < 256 && i != slice ==> t[i, j] == old(t[i, j])
    {
      var next := SliceEntry(t, slice, byte);
      Put(t, slice, byte, next);
    }
  }

  /** What one bit of the state becomes over 256 zero bytes. */
  method BitRun(t: array2<bv32>, bit: nat) returns (state: bv32)
    requires Shaped(t) && Sliced(t, 16) && bit < 32
    ensures Register(state) == Zeros(Register(Unit(bit)), 2048)
  {
    hide Unit, Skip;
    state := Unit(bit);
    for i := 0 to 16
      invariant Register(state) == Zeros(Register(Unit(bit)), 128 * i)
    {
      LookupsZeros(t, 15, state);
      ZerosSum(Register(Unit(bit)), 128 * i, 128);
      state := Lookups(t, 15, state);
    }
  }

  lemma RunNext(byte: bv32, bit: nat, value: bv32, state: bv32)
    requires bit < 32 && Register(value) == Run(bit / 8, byte, bit)
    requires Register(state) == Zeros(Register(Unit(bit)), 2048)
    ensures Run(bit / 8, byte, bit + 1) == Register(if Has(byte, bit % 8) then Plus(value, state) else value)
  {
    hide Reached, Xor, Zeros, Plus, Has, Unit;
    var reached := Reached(byte, bit / 8, bit);
    ReachedNext(byte, bit);
    if Has(byte, bit % 8) {
      PlusXor(reached, Unit(bit));
      ZerosLinear(Register(reached), Register(Unit(bit)), 2048);
      PlusXor(value, state);
    } else {
      PlusZero(reached);
    }
  }

  /** One entry of a row: the state is added where the entry's value has the bit. */
  method RunValue(t: array2<bv32>, bit: nat, value: nat, state: bv32) returns (next: bv32)
    requires Shaped(t) && bit < 32 && value < 256 && RowTo(t, bit / 8, bit, bit + 1, value)
    requires Register(state) == Zeros(Register(Unit(bit)), 2048)
    ensures var row, after := bit / 8, bit + 1;
            forall b: bv32 :: b as int == value ==> Register(next) == Run(row, b, after)
  {
    hide Run, Has, Plus, Unit, Zeros;
    next := t[16 + bit / 8, value];
    var was := next;
    if Has(value as bv32, bit % 8) {
      next := Plus(next, state);
    }
    var row, after := bit / 8, bit + 1;
    forall b: bv32 | b as int == value ensures Register(next) == Run(row, b, after) {
      ByteIndex(b);
      assert Register(t[16 + row, b as int]) == Run(row, b, bit);
      RunNext(b, bit, was, state);
    }
  }

  method PutRun(t: array2<bv32>, row: nat, before: nat, after: nat, value: nat, next: bv32)
    requires Shaped(t) && row < 4 && before <= 32 && after <= 32 && value < 256 && RowTo(t, row, before, after, value)
    requires forall b: bv32 :: b as int == value ==> Register(next) == Run(row, b, after)
    modifies t
    ensures RowTo(t, row, before, after, value + 1)
    ensures forall i, j :: 0 <= i < 20 && 0 <= j < 256 && i != 16 + row ==> t[i, j] == old(t[i, j])
  {
    hide Run;
    t[16 + row, value] := next;
  }

  method EnterBit(t: array2<bv32>, bit: nat)
    requires Shaped(t) && Sliced(t, 16) && bit < 32 && RunsHold(t, bit)
    modifies t
    ensures Sliced(t, 16) && RunsHold(t, bit + 1)
  {
    var state := BitRun(t, bit);
    hide Run, Unit, Want, Zeros;
    var row := bit / 8;
    assert RowHolds(t, row, bit);
    for value := 0 to 256
      invariant RowTo(t, row, bit, bit + 1, value)
      invariant forall i, j :: 0 <= i < 20 && 0 <= j < 256 && i != 16 + row ==> t[i, j] == old(t[i, j])
    {
      var next := RunValue(t, bit, value, state);
      PutRun(t, row, bit, bit + 1, value, next);
    }
    var next := bit + 1;
    forall other: nat | other < 4 ensures RowHolds(t, other, next) {
      if other != row {
        assert old(RowHolds(t, other, bit));
        forall byte: bv32 | byte as int < 256
          ensures Register(t[16 + other, byte as int]) == Run(other, byte, next)
        {
          RunElsewhere(other, byte, bit);
        }
      }
    }
    forall slice: nat | slice < 16 ensures SliceHolds(t, slice) {
      assert old(SliceHolds(t, slice));
    }
  }

  lemma RunElsewhere(row: nat, byte: bv32, bit: nat)
    requires row < 4 && bit < 32 && bit / 8 != row
    ensures Run(row, byte, bit + 1) == Run(row, byte, bit)
  {
    hide Reached, Zeros;
    ReachedElsewhere(byte, row, bit);
  }

  /** Builds the twenty tables, as they are on first use. */
  method Tables() returns (t: array2<bv32>)
    ensures fresh(t) && Built(t)
  {
    t := new bv32[20, 256]((_, _) => 0);
    FillFirst(t);
    hide Want, Run;
    for slice := 1 to 16
      invariant forall i: nat :: i < slice ==> SliceHolds(t, i)
      invariant forall i, j :: 16 <= i < 20 && 0 <= j < 256 ==> t[i, j] == 0
    {
      label before:
      FillSlice(t, slice);
      forall i: nat | i < slice ensures SliceHolds(t, i) {
        assert old@before(SliceHolds(t, i));
      }
    }
    RunsStart(t);
    for bit := 0 to 32
      invariant Sliced(t, 16) && RunsHold(t, bit)
    {
      EnterBit(t, bit);
    }
  }

  lemma RunsStart(t: array2<bv32>)
    requires Shaped(t) && forall i, j :: 16 <= i < 20 && 0 <= j < 256 ==> t[i, j] == 0
    ensures RunsHold(t, 0)
  {
    hide Reached, Zeros;
    forall row: nat, byte: bv32 | row < 4 && byte as int < 256
      ensures Register(t[16 + row, byte as int]) == Run(row, byte, 0)
    {
      ReachedNone(byte, row);
      ZerosOfZero(2048);
    }
  }

  function Chunk(bytes: seq<bv8>, index: nat): seq<bv8>
    requires 16 * index + 16 <= |bytes|
  {
    bytes[16 * index..16 * index + 16]
  }

  function WordAt(chunk: seq<bv8>, offset: nat): bv32
    requires offset + 4 <= |chunk|
  {
    Word(chunk[offset] as bv32, chunk[offset + 1] as bv32, chunk[offset + 2] as bv32, chunk[offset + 3] as bv32)
  }

  /** Sixteen bytes at once: the register enters with the first word. */
  function Dense(t: array2<bv32>, checksum: bv32, chunk: seq<bv8>): bv32
    reads t
    requires Shaped(t) && |chunk| == 16
  {
    Plus(Plus(Plus(Lookups(t, 15, Plus(WordAt(chunk, 0), checksum)), Lookups(t, 11, WordAt(chunk, 4))),
              Lookups(t, 7, WordAt(chunk, 8))), Lookups(t, 3, WordAt(chunk, 12)))
  }

  lemma CrcFour(state: Register, bytes: seq<bv8>, offset: nat)
    requires offset + 4 <= |bytes|
    ensures Crc(state, bytes[..offset + 4]) ==
            Zeros(Xor(Crc(state, bytes[..offset]), Register(WordAt(bytes, offset))), 32)
  {
    hide Xor, Zeros, FeedByte, Word;
    var s0 := bytes[..offset];
    var s1, s2, s3 := bytes[..offset + 1], bytes[..offset + 2], bytes[..offset + 3];
    var s4 := bytes[..offset + 4];
    assert s1[..|s1| - 1] == s0 && s2[..|s2| - 1] == s1 && s3[..|s3| - 1] == s2 && s4[..|s4| - 1] == s3;
    assert Crc(state, s1) == FeedByte(Crc(state, s0), bytes[offset]);
    assert Crc(state, s2) == FeedByte(Crc(state, s1), bytes[offset + 1]);
    assert Crc(state, s3) == FeedByte(Crc(state, s2), bytes[offset + 2]);
    assert Crc(state, s4) == FeedByte(Crc(state, s3), bytes[offset + 3]);
    FeedWord(Crc(state, s0), bytes[offset], bytes[offset + 1], bytes[offset + 2], bytes[offset + 3]);
  }

  lemma DenseCrc(t: array2<bv32>, checksum: bv32, chunk: seq<bv8>)
    requires Built(t) && |chunk| == 16
    ensures Register(Dense(t, checksum, chunk)) == Crc(Register(checksum), chunk)
  {
    hide Xor, Zeros, Plus, Lookups, FeedByte, Word, Sliced, WordAt;
    var w0, w1, w2, w3 := WordAt(chunk, 0), WordAt(chunk, 4), WordAt(chunk, 8), WordAt(chunk, 12);
    var first := Plus(w0, checksum);
    var l0, l1, l2, l3 := Lookups(t, 15, first), Lookups(t, 11, w1), Lookups(t, 7, w2), Lookups(t, 3, w3);
    LookupsZeros(t, 15, first);
    LookupsZeros(t, 11, w1);
    LookupsZeros(t, 7, w2);
    LookupsZeros(t, 3, w3);
    PlusXor(l0, l1);
    PlusXor(Plus(l0, l1), l2);
    PlusXor(Plus(Plus(l0, l1), l2), l3);
    PlusXor(w0, checksum);
    Comm(Register(w0), Register(checksum));
    FourWords(Register(checksum), chunk, Register(w0), Register(w1), Register(w2), Register(w3));
  }

  /** A register that entered with `x` after `count` zero bits, 32 bits on. */
  lemma Later(x: Register, count: nat)
    ensures Zeros(Zeros(x, count), 32) == Zeros(x, count + 32)
  {
    ZerosSum(x, count, 32);
  }

  lemma FourWords(state: Register, chunk: seq<bv8>, w0: Register, w1: Register, w2: Register, w3: Register)
    requires |chunk| == 16
    requires w0 == Register(WordAt(chunk, 0)) && w1 == Register(WordAt(chunk, 4))
    requires w2 == Register(WordAt(chunk, 8)) && w3 == Register(WordAt(chunk, 12))
    ensures Crc(state, chunk) ==
            Xor(Xor(Xor(Zeros(Xor(state, w0), 128), Zeros(w1, 96)), Zeros(w2, 64)), Zeros(w3, 32))
  {
    hide Xor, Zeros, FeedByte, WordAt;
    CrcFour(state, chunk, 0);
    CrcFour(state, chunk, 4);
    CrcFour(state, chunk, 8);
    CrcFour(state, chunk, 12);
    assert chunk[..0] == [] && chunk[..16] == chunk;
    WordsOn(Xor(state, w0), w1, w2, w3);
  }

  /** What is in the register moves on while one more word enters. */
  lemma WordOn(before: Register, w: Register, after: Register)
    requires Zeros(before, 32) == after
    ensures Zeros(Xor(before, w), 32) == Xor(after, Zeros(w, 32))
  {
    hide Xor, Zeros;
    ZerosLinear(before, w, 32);
  }

  lemma TwoOn(x: Register, w1: Register)
    ensures Zeros(Xor(Zeros(x, 64), Zeros(w1, 32)), 32) == Xor(Zeros(x, 96), Zeros(w1, 64))
  {
    hide Xor, Zeros;
    Later(x, 64);
    Later(w1, 32);
    ZerosLinear(Zeros(x, 64), Zeros(w1, 32), 32);
  }

  lemma ThreeOn(x: Register, w1: Register, w2: Register)
    ensures Zeros(Xor(Xor(Zeros(x, 96), Zeros(w1, 64)), Zeros(w2, 32)), 32) ==
            Xor(Xor(Zeros(x, 128), Zeros(w1, 96)), Zeros(w2, 64))
  {
    hide Xor, Zeros;
    Later(x, 96);
    Later(w1, 64);
    Later(w2, 32);
    ZerosLinear(Zeros(x, 96), Zeros(w1, 64), 32);
    ZerosLinear(Xor(Zeros(x, 96), Zeros(w1, 64)), Zeros(w2, 32), 32);
  }

  lemma WordsOn(x: Register, w1: Register, w2: Register, w3: Register)
    ensures Zeros(Xor(Zeros(Xor(Zeros(Xor(Zeros(x, 32), w1), 32), w2), 32), w3), 32) ==
            Xor(Xor(Xor(Zeros(x, 128), Zeros(w1, 96)), Zeros(w2, 64)), Zeros(w3, 32))
  {
    hide Xor, Zeros;
    Later(x, 32);
    TwoOn(x, w1);
    ThreeOn(x, w1, w2);
    var after1 := Zeros(x, 64);
    WordOn(Zeros(x, 32), w1, after1);
    var c2 := Xor(after1, Zeros(w1, 32));
    var after2 := Xor(Zeros(x, 96), Zeros(w1, 64));
    WordOn(c2, w2, after2);
    WordOn(Xor(after2, Zeros(w2, 32)), w3, Xor(Xor(Zeros(x, 128), Zeros(w1, 96)), Zeros(w2, 64)));
  }

  /** One message byte, by one lookup. */
  function StepByte(t: array2<bv32>, checksum: bv32, byte: bv8): bv32
    reads t
    requires Shaped(t)
  {
    ByteBounds(Plus(checksum, byte as bv32));
    Plus(checksum >> 8, At(t, 0, Byte0(Plus(checksum, byte as bv32))))
  }

  lemma DropByte(checksum: bv32, byte: bv8)
    ensures Plus(checksum, byte as bv32) >> 8 == checksum >> 8
  {
  }

  lemma StepByteCrc(t: array2<bv32>, checksum: bv32, byte: bv8)
    requires Built(t)
    ensures Register(StepByte(t, checksum, byte)) == FeedByte(Register(checksum), byte)
  {
    hide Xor, Zeros, Plus, FeedByte, At, SliceHolds, Byte0;
    assert SliceHolds(t, 0);
    DropByte(checksum, byte);
    StepZeros(t, Plus(checksum, byte as bv32));
    PlusXor(checksum, byte as bv32);
    FeedByteFold(Register(checksum), byte);
  }

  /** Passes `run` chunks of zeros: by leaps of sixteen chunks, and then one at a time. */
  method PassZeros(t: array2<bv32>, checksum: bv32, run: nat) returns (result: bv32)
    requires Built(t)
    ensures Register(result) == Zeros(Register(checksum), 128 * run)
  {
    hide Lookups, Leap, Sliced, RunsHold;
    result := checksum;
    for i := 0 to run / 16
      invariant Register(result) == Zeros(Register(checksum), 2048 * i)
    {
      LeapZeros(t, result);
      ZerosSum(Register(checksum), 2048 * i, 2048);
      result := Leap(t, result);
    }
    ghost var leaped := 2048 * (run / 16);
    for i := 0 to run % 16
      invariant Register(result) == Zeros(Register(checksum), leaped + 128 * i)
    {
      LookupsZeros(t, 15, result);
      ZerosSum(Register(checksum), leaped + 128 * i, 128);
      result := Skip(t, result);
    }
  }

  lemma CrcPart(state: Register, bytes: seq<bv8>, from: nat, to: nat)
    requires from <= to <= |bytes|
    ensures Crc(state, bytes[..to]) == Crc(Crc(state, bytes[..from]), bytes[from..to])
  {
    assert bytes[..to] == bytes[..from] + bytes[from..to];
    CrcConcat(state, bytes[..from], bytes[from..to]);
  }

  /** How many chunks from `index` on hold nothing but zeros. */
  method ZeroRun(bytes: seq<bv8>, index: nat, chunks: nat) returns (run: nat)
    requires index <= chunks && 16 * chunks <= |bytes|
    ensures index + run <= chunks && ZeroBytes(bytes[16 * index..16 * (index + run)])
    ensures index + run < chunks ==> !ZeroBytes(Chunk(bytes, index + run))
  {
    run := 0;
    while index + run < chunks && ZeroBytes(Chunk(bytes, index + run))
      invariant index + run <= chunks
      invariant ZeroBytes(bytes[16 * index..16 * (index + run)])
    {
      ghost var chunk := Chunk(bytes, index + run);
      assert bytes[16 * index..16 * (index + run + 1)] == bytes[16 * index..16 * (index + run)] + chunk;
      run := run + 1;
    }
  }

  lemma PartZeros(start: Register, checksum: Register, bytes: seq<bv8>, from: nat, to: nat)
    requires from <= to <= |bytes| && checksum == Crc(start, bytes[..from]) && ZeroBytes(bytes[from..to])
    ensures Zeros(checksum, 8 * (to - from)) == Crc(start, bytes[..to])
  {
    hide ZeroBytes, Zeros;
    CrcPart(start, bytes, from, to);
    CrcOfZeros(checksum, bytes[from..to]);
  }

  /** The chunk at `index`, or the run of zero chunks from it. */
  method NextChunks(t: array2<bv32>, ghost start: bv32, checksum: bv32, bytes: seq<bv8>, index: nat)
    returns (result: bv32, next: nat)
    requires Built(t) && index < |bytes| / 16
    requires Register(checksum) == Crc(Register(start), bytes[..16 * index])
    ensures index < next <= |bytes| / 16
    ensures Register(result) == Crc(Register(start), bytes[..16 * next])
  {
    hide ZeroBytes, Zeros, Dense, Crc;
    if ZeroBytes(Chunk(bytes, index)) {
      var run := ZeroRun(bytes, index, |bytes| / 16);
      next := index + run;
      PartZeros(Register(start), Register(checksum), bytes, 16 * index, 16 * next);
      Unchanged(t);
      result := PassZeros(t, checksum, run);
    } else {
      next := index + 1;
      CrcPart(Register(start), bytes, 16 * index, 16 * next);
      DenseCrc(t, checksum, Chunk(bytes, index));
      result := Dense(t, checksum, Chunk(bytes, index));
    }
  }

  /** Continues a checksum over further bytes, as the reference does. */
  method Crc32Update(checksum: bv32, bytes: seq<bv8>) returns (result: bv32)
    ensures Register(result) == Crc(Register(checksum), bytes)
  {
    var t := Tables();
    result := Update(t, checksum, bytes);
  }

  method Update(t: array2<bv32>, checksum: bv32, bytes: seq<bv8>) returns (result: bv32)
    requires Built(t)
    ensures Register(result) == Crc(Register(checksum), bytes)
  {
    result := checksum;
    var index := 0;
    while index < |bytes| / 16
      invariant index <= |bytes| / 16
      invariant Register(result) == Crc(Register(checksum), bytes[..16 * index])
    {
      Unchanged(t);
      result, index := NextChunks(t, checksum, result, bytes, index);
    }
    for i := 16 * index to |bytes|
      invariant Register(result) == Crc(Register(checksum), bytes[..i])
    {
      Unchanged(t);
      result := NextByte(t, checksum, result, bytes, i);
    }
    assert bytes[..|bytes|] == bytes;
  }

  twostate lemma Unchanged(t: array2<bv32>)
    requires old(Built(t)) && unchanged(t)
    ensures Built(t)
  {
    forall slice: nat | slice < 16 ensures SliceHolds(t, slice) {
      assert old(SliceHolds(t, slice));
    }
    forall row: nat | row < 4 ensures RowHolds(t, row, 32) {
      assert old(RowHolds(t, row, 32));
    }
  }

  method NextByte(t: array2<bv32>, ghost start: bv32, checksum: bv32, bytes: seq<bv8>, i: nat)
    returns (result: bv32)
    requires Built(t) && i < |bytes|
    requires Register(checksum) == Crc(Register(start), bytes[..i])
    ensures Register(result) == Crc(Register(start), bytes[..i + 1])
  {
    hide StepByte, FeedByte;
    assert bytes[..i + 1][..i] == bytes[..i];
    StepByteCrc(t, checksum, bytes[i]);
    result := StepByte(t, checksum, bytes[i]);
  }
}
