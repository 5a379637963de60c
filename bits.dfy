/** Fixed-width integer helpers for the Generation 4 personal record: the C# casts,
    the little-endian 16-bit reads and writes of BinaryPrimitives, the packed
    effort-value word, the colour byte and single bits of a bitmap byte. */
module Bits {

  /** A C# `int`. */
  type int32 = x: int | -0x8000_0000 <= x < 0x8000_0000

  /** A C# `ushort`. */
  type uint16 = x: int | 0 <= x < 0x1_0000

  /** A number below 0x100 and the byte that holds it have the same value. */
  lemma ByteValue(x: int)
    requires 0 <= x < 0x100
    ensures (x as bv8) as int == x
  {
    // One range of sixteen values at a time keeps each case small for the solver.
    if x < 0x10 { } else if x < 0x20 { } else if x < 0x30 { } else if x < 0x40 { } else if x < 0x50 { } else if x < 0x60 { } else if x < 0x70 { } else if x < 0x80 { } else if x < 0x90 { } else if x < 0xA0 { } else if x < 0xB0 { } else if x < 0xC0 { } else if x < 0xD0 { } else if x < 0xE0 { } else if x < 0xF0 { } else { }
  }

  /** The C# cast `(byte)value`: the low eight bits of the two's complement form. */
  function ToByte(value: int): (r: bv8)
    ensures r as int == value % 0x100
  {
    var x := value % 0x100;
    ByteValue(x);
    x as bv8
  }

  /** The unsigned comparison `(uint)index >= count`, which the record uses as its range check. */
  function OutOfRange(index: int32, count: nat): (r: bool)
    requires count < 0x8000_0000
    ensures r <==> !(0 <= index < count)
  {
    index % 0x1_0000_0000 >= count
  }

  // ---------------------------------------------------------------------------
  // Little-endian 16-bit fields: the byte at the lower offset is the low byte.

  /** The value `ReadUInt16LittleEndian` returns. */
  function ReadU16(lo: bv8, hi: bv8): (r: int)
    ensures 0 <= r < 0x1_0000
  {
    lo as int + 0x100 * hi as int
  }

  /** The value `ReadInt16LittleEndian` returns: the same bytes as a two's complement `short`. */
  function ReadS16(lo: bv8, hi: bv8): (r: int)
    ensures -0x8000 <= r < 0x8000
    ensures r % 0x1_0000 == ReadU16(lo, hi)
  {
    var u := ReadU16(lo, hi);
    if u < 0x8000 then u else u - 0x1_0000
  }

  /** The C# cast `(short)value`. */
  function ToInt16(value: int): (r: int)
    ensures -0x8000 <= r < 0x8000
    ensures r % 0x1_0000 == value % 0x1_0000
    ensures -0x8000 <= value < 0x8000 ==> r == value
  {
    var u := value % 0x1_0000;
    if u < 0x8000 then u else u - 0x1_0000
  }

  /** The low byte and the byte above it make up the low sixteen bits. */
  lemma {:induction false} LowSixteenBits(value: int, lo: int, hi: int)
    requires lo == value % 0x100 && hi == (value / 0x100) % 0x100
    ensures lo + 0x100 * hi == value % 0x1_0000
  {
    var q := value / 0x100;
    assert value == 0x100 * q + lo;
    assert q == 0x100 * (q / 0x100) + hi;
    assert value == 0x1_0000 * (q / 0x100) + (lo + 0x100 * hi);
  }

  /** Bytes holding the low sixteen bits of `value` read back as `(short)value`. */
  lemma ShortFromBytes(value: int, lo: bv8, hi: bv8)
    requires lo as int == value % 0x100 && hi as int == (value / 0x100) % 0x100
    ensures ReadS16(lo, hi) == ToInt16(value)
  {
    LowSixteenBits(value, lo as int, hi as int);
  }

  /** The two bytes `WriteInt16LittleEndian(span, (short)value)` stores, lowest offset first:
      the low byte of the two's complement form, then the byte above it. Reading them back
      as a `short` gives `(short)value`, so every signed 16-bit value survives the round trip. */
  function Int16Bytes(value: int): (r: (bv8, bv8))
    ensures ReadS16(r.0, r.1) == ToInt16(value)
  {
    var lo := ToByte(value);
    var hi := ToByte(value / 0x100);
    ShortFromBytes(value, lo, hi);
    (lo, hi)
  }

  // ---------------------------------------------------------------------------
  // The effort-value yield word: six 2-bit fields at shifts 0, 2, 4, 6, 8 and 10;
  // bits 12 to 15 belong to none of them.

  /** The bits of `ReadUInt16LittleEndian`, for the packed word: the byte at the lower
      offset is the low half of the word, the other byte the high half. This is the same read
      as `ReadU16`, kept as a bit-vector because the effort-value fields are shifted and
      masked; the two forms are not related by a lemma, as converting a whole `bv16` to a
      number is beyond what the solver settles within the resource limit. */
  function Word(lo: bv8, hi: bv8): (r: bv16)
    ensures (r & 0xFF) as bv8 == lo && (r >> 8) as bv8 == hi
  {
    (hi as bv16 << 8) | lo as bv16
  }

  /** The two bytes `WriteUInt16LittleEndian` stores, lowest offset first. */
  function WordBytes(w: bv16): (r: (bv8, bv8))
    ensures Word(r.0, r.1) == w
  {
    ((w & 0xFF) as bv8, (w >> 8) as bv8)
  }

  datatype EvStat = HP | ATK | DEF | SPE | SPA | SPD

  /** Where a stat's two bits sit: fields are two bits apart and all lie below bit 12. */
  function EvShift(stat: EvStat): (r: bv16)
    ensures r % 2 == 0 && r <= 10
  {
    match stat
    case HP => 0
    case ATK => 2
    case DEF => 4
    case SPE => 6
    case SPA => 8
    case SPD => 10
  }

  /** The two bits of one field, `(EVYield >> shift) & 0x3`. */
  function EvBits(word: bv16, stat: EvStat): bv16
  {
    (word >> EvShift(stat)) & 0x3
  }

  /** The yield of one stat. */
  function EvOf(word: bv16, stat: EvStat): (r: int)
    ensures 0 <= r <= 3
  {
    EvBits(word, stat) as int
  }

  /** `value & 0x3` on a two's complement `int`, which is `value % 4`. */
  function LowTwoBits(value: int): (r: bv16)
    ensures r < 4 && r as int == value % 4
  {
    (value % 4) as bv16
  }

  lemma EvBitsStored(word: bv16, stat: EvStat, t: bv16)
    requires t < 4
    ensures EvBits((word & !(0x3 << EvShift(stat))) | (t << EvShift(stat)), stat) == t
  {
  }

  lemma EvBitsKept(word: bv16, stat: EvStat, t: bv16, other: EvStat)
    requires t < 4 && other != stat
    ensures EvBits((word & !(0x3 << EvShift(stat))) | (t << EvShift(stat)), other) == EvBits(word, other)
  {
  }

  lemma EvHighBitsKept(word: bv16, stat: EvStat, t: bv16)
    requires t < 4
    ensures ((word & !(0x3 << EvShift(stat))) | (t << EvShift(stat))) >> 12 == word >> 12
  {
  }

  /** `(EVYield & ~(0x3 << shift)) | ((value & 0x3) << shift)`: a read-modify-write of one field.
      The source computes on `int`; as the word is below 0x10000 and both masks fit in 16 bits,
      the 16-bit computation yields the same bits, and the `(ushort)` cast keeps them all.
      The written yield reads back as `value & 0x3`; the other five yields and the four bits
      above them keep their values. */
  function WithEv(word: bv16, stat: EvStat, value: int): (r: bv16)
    ensures EvOf(r, stat) == value % 4
    ensures forall other: EvStat :: other != stat ==> EvOf(r, other) == EvOf(word, other)
    ensures r >> 12 == word >> 12
  {
    var t := LowTwoBits(value);
    var r := (word & !(0x3 << EvShift(stat))) | (t << EvShift(stat));
    EvBitsStored(word, stat, t);
    EvHighBitsKept(word, stat, t);
    assert forall other: EvStat :: other != stat ==> EvOf(r, other) == EvOf(word, other) by {
      forall other: EvStat | other != stat
        ensures EvOf(r, other) == EvOf(word, other)
      {
        EvBitsKept(word, stat, t, other);
      }
    }
    r
  }

  // ---------------------------------------------------------------------------
  // The colour byte: colour index in bits 0 to 6, the no-flip flag in bit 7.

  /** `Data[0x19] & 0x7F`. */
  function ColorOf(b: bv8): (r: int)
    ensures 0 <= r < 0x80
  {
    (b & 0x7F) as int
  }

  /** `Data[0x19] >> 7 == 1`. */
  function NoFlipOf(b: bv8): (r: bool)
    ensures r <==> b as int >= 0x80
  {
    b >> 7 == 1
  }

  lemma LowSevenBits(x: bv8)
    ensures (x & 0x7F) as int == x as int % 0x80
  {
  }

  /** Keeping bit 7 of `b` and ORing in `t`: the low seven bits are those of `t`, and bit 7 is
      set when it is set in either. */
  lemma KeepHighOr(b: bv8, t: bv8)
    ensures ColorOf((b & 0x80) | t) == ColorOf(t)
    ensures NoFlipOf((b & 0x80) | t) == (NoFlipOf(b) || NoFlipOf(t))
  {
    assert ((b & 0x80) | t) & 0x7F == t & 0x7F;
    assert ((b & 0x80) | t) >> 7 == 1 <==> b >> 7 == 1 || t >> 7 == 1;
  }

  /** The low seven bits of the low byte are the low seven bits of the number. */
  lemma {:induction false} ByteThenSevenBits(value: int)
    ensures (value % 0x100) % 0x80 == value % 0x80
  {
    var q := value / 0x100;
    var r := value % 0x100;
    var h := r / 0x80;
    var l := r % 0x80;
    assert value == 0x100 * q + r;
    assert r == 0x80 * h + l;
    assert value == 0x80 * (2 * q + h) + l;
  }

  /** `(byte)((Data[0x19] & 0x80) | value)`. The value is not masked to seven bits: the colour
      reads back as `value % 0x80`, and bit 7 of the value is ORed into the no-flip flag.
      OR and truncation to a byte commute on two's complement integers, so truncating the
      value first gives the same byte. */
  function WithColor(b: bv8, value: int): (r: bv8)
    ensures ColorOf(r) == value % 0x80
    ensures NoFlipOf(r) == (NoFlipOf(b) || value % 0x100 >= 0x80)
  {
    var t := ToByte(value);
    KeepHighOr(b, t);
    LowSevenBits(t);
    ByteThenSevenBits(value);
    (b & 0x80) | t
  }

  /** `(byte)(Color | (value ? 0x80 : 0))`: rebuilt from the current colour. */
  function WithNoFlip(b: bv8, flag: bool): (r: bv8)
    ensures ColorOf(r) == ColorOf(b)
    ensures NoFlipOf(r) == flag
  {
    (b & 0x7F) | (if flag then 0x80 else 0)
  }

  /** A colour in [0, 127] is stored as given and leaves the flag alone. */
  lemma ColorKeepsNoFlip(b: bv8, value: int)
    requires 0 <= value < 0x80
    ensures ColorOf(WithColor(b, value)) == value
    ensures NoFlipOf(WithColor(b, value)) == NoFlipOf(b)
  {
    assert value % 0x80 == value && value % 0x100 == value;
  }

  /** A colour in [128, 255], which the setter does not reject, raises the flag and stores
      only its low seven bits. */
  lemma WideColorRaisesNoFlip(b: bv8, value: int)
    requires 0x80 <= value < 0x100
    ensures NoFlipOf(WithColor(b, value))
    ensures ColorOf(WithColor(b, value)) == value - 0x80
  {
    assert value % 0x80 == value - 0x80 && value % 0x100 == value;
  }

  // ---------------------------------------------------------------------------
  // Single bits of a bitmap byte, least significant bit first.

  /** `(b & (1 << k)) != 0`. */
  function BitAt(b: bv8, k: nat): bool
    requires k < 8
  {
    b & (1 << k) != 0
  }

  lemma BitOfSet(b: bv8, k: nat, j: nat)
    requires k < 8 && j < 8
    ensures BitAt(b | (1 << k), j) == (j == k || BitAt(b, j))
  {
  }

  lemma BitOfCleared(b: bv8, k: nat, j: nat)
    requires k < 8 && j < 8
    ensures BitAt(b & !(1 << k), j) == (j != k && BitAt(b, j))
  {
  }

  /** `b |= (byte)(1 << k)` when setting, `b &= (byte)~(1 << k)` when clearing;
      `(byte)~(1 << k)` is the byte with every bit but `k` set. */
  function WithBit(b: bv8, k: nat, value: bool): (r: bv8)
    requires k < 8
    ensures BitAt(r, k) == value
    ensures forall j :: 0 <= j < 8 && j != k ==> BitAt(r, j) == BitAt(b, j)
  {
    var r := if value then b | (1 << k) else b & !(1 << k);
    assert forall j :: 0 <= j < 8 ==> BitAt(r, j) == (if j == k then value else BitAt(b, j)) by {
      forall j | 0 <= j < 8
        ensures BitAt(r, j) == (if j == k then value else BitAt(b, j))
      {
        if value { BitOfSet(b, k, j); } else { BitOfCleared(b, k, j); }
      }
    }
    r
  }
}
