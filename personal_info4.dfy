/** The Generation 4 personal record: a typed view over one species' 0x2C-byte entry of
    the personal table, with its machine and tutor learn-compatibility flags. Every
    property reads or writes the record's bytes in place; nothing is parsed into fields. */
module Personal {
  import opened Bits
  import opened Outcomes
  import opened Learnsets
  import Moves

  /** Size of one record. */
  const SIZE: nat := 0x2C

  /** Offset of the machine bitmap: 92 technical-machine bits, then 8 hidden-machine bits. */
  const TMHM: nat := 0x1C
  const CountTM: nat := 92
  const CountHM: nat := 8
  const CountTMHM: nat := CountTM + CountHM
  /** Bytes the bitmap spans: 13, so it ends at 0x28, just before the form count. */
  const ByteCountTM: nat := (CountTMHM + 7) / 8
  /** Number of tutor flags. */
  const CountTutor: nat := 0x34

  /** Number of ability slots. */
  const AbilityCount: nat := 2

  /** The bitmap occupies 0x1C to 0x28 and stops short of the form count at 0x29. */
  lemma BitmapBeforeFormCount()
    ensures ByteCountTM == 13 && TMHM + ByteCountTM == 0x29
    ensures 8 * ByteCountTM >= CountTMHM
  {
  }

  class PersonalInfo4 {
    /** The record's bytes, borrowed from the table that holds every species' record. */
    const data: array<bv8>

    /** Tutor compatibility flags, kept outside the record; empty until attached. */
    var typeTutors: array<bool>

    predicate Valid()
    {
      data.Length == SIZE
    }

    constructor (raw: array<bv8>)
      requires raw.Length == SIZE
      ensures Valid() && data == raw
      ensures typeTutors.Length == 0
    {
      data := raw;
      typeTutors := new bool[0];
    }

    /** A copy of the record's bytes. */
    method Write() returns (r: array<bv8>)
      requires Valid()
      ensures fresh(r) && r[..] == data[..]
    {
      r := new bv8[SIZE](i reads data requires 0 <= i < SIZE => data[i]);
    }

    // -------------------------------------------------------------------------
    // Single-byte fields. The `int` properties store `(byte)value`; the `byte`
    // properties store the byte they are given.

    /** Base hit points. An `int` property over the byte at 0x00. */
    function HP(): (r: int)
      reads data
      requires Valid()
      ensures 0 <= r < 0x100
    {
      data[0x00] as int
    }

    /** Stores `(byte)value` at 0x00; the property then reads `value % 0x100`. */
    method SetHP(value: int32)
      requires Valid()
      modifies data
      ensures data[..] == old(data[..])[0x00 := ToByte(value)]
      ensures HP() == value % 0x100
    {
      data[0x00] := ToByte(value);
    }

    /** Base attack. An `int` property over the byte at 0x01. */
    function ATK(): (r: int)
      reads data
      requires Valid()
      ensures 0 <= r < 0x100
    {
      data[0x01] as int
    }

    /** Stores `(byte)value` at 0x01; the property then reads `value % 0x100`. */
    method SetATK(value: int32)
      requires Valid()
      modifies data
      ensures data[..] == old(data[..])[0x01 := ToByte(value)]
      ensures ATK() == value % 0x100
    {
      data[0x01] := ToByte(value);
    }

    /** Base defense. An `int` property over the byte at 0x02. */
    function DEF(): (r: int)
      reads data
      requires Valid()
      ensures 0 <= r < 0x100
    {
      data[0x02] as int
    }

    /** Stores `(byte)value` at 0x02; the property then reads `value % 0x100`. */
    method SetDEF(value: int32)
      requires Valid()
      modifies data
      ensures data[..] == old(data[..])[0x02 := ToByte(value)]
      ensures DEF() == value % 0x100
    {
      data[0x02] := ToByte(value);
    }

    /** Base speed. An `int` property over the byte at 0x03. */
    function SPE(): (r: int)
      reads data
      requires Valid()
      ensures 0 <= r < 0x100
    {
      data[0x03] as int
    }

    /** Stores `(byte)value` at 0x03; the property then reads `value % 0x100`. */
    method SetSPE(value: int32)
      requires Valid()
      modifies data
      ensures data[..] == old(data[..])[0x03 := ToByte(value)]
      ensures SPE() == value % 0x100
    {
      data[0x03] := ToByte(value);
    }

    /** Base special attack. An `int` property over the byte at 0x04. */
    function SPA(): (r: int)
      reads data
      requires Valid()
      ensures 0 <= r < 0x100
    {
      data[0x04] as int
    }

    /** Stores `(byte)value` at 0x04; the property then reads `value % 0x100`. */
    method SetSPA(value: int32)
      requires Valid()
      modifies data
      ensures data[..] == old(data[..])[0x04 := ToByte(value)]
      ensures SPA() == value % 0x100
    {
      data[0x04] := ToByte(value);
    }

    /** Base special defense. An `int` property over the byte at 0x05. */
    function SPD(): (r: int)
      reads data
      requires Valid()
      ensures 0 <= r < 0x100
    {
      data[0x05] as int
    }

    /** Stores `(byte)value` at 0x05; the property then reads `value % 0x100`. */
    method SetSPD(value: int32)
      requires Valid()
      modifies data
      ensures data[..] == old(data[..])[0x05 := ToByte(value)]
      ensures SPD() == value % 0x100
    {
      data[0x05] := ToByte(value);
    }

    /** First type. A `byte` property at 0x06. */
    function Type1(): bv8
      reads data
      requires Valid()
    {
      data[0x06]
    }

    method SetType1(value: bv8)
      requires Valid()
      modifies data
      ensures data[..] == old(data[..])[0x06 := value]
      ensures Type1() == value
    {
      data[0x06] := value;
    }

    /** Second type; equal to the first for single-typed species. A `byte` property at 0x07. */
    function Type2(): bv8
      reads data
      requires Valid()
    {
      data[0x07]
    }

    method SetType2(value: bv8)
      requires Valid()
      modifies data
      ensures data[..] == old(data[..])[0x07 := value]
      ensures Type2() == value
    {
      data[0x07] := value;
    }

    /** Catch rate. A `byte` property at 0x08. */
    function CatchRate(): bv8
      reads data
      requires Valid()
    {
      data[0x08]
    }

    method SetCatchRate(value: bv8)
      requires Valid()
      modifies data
      ensures data[..] == old(data[..])[0x08 := value]
      ensures CatchRate() == value
    {
      data[0x08] := value;
    }

    /** Base experience yield. An `int` property over the byte at 0x09. */
    function BaseEXP(): (r: int)
      reads data
      requires Valid()
      ensures 0 <= r < 0x100
    {
      data[0x09] as int
    }

    /** Stores `(byte)value` at 0x09; the property then reads `value % 0x100`. */
    method SetBaseEXP(value: int32)
      requires Valid()
      modifies data
      ensures data[..] == old(data[..])[0x09 := ToByte(value)]
      ensures BaseEXP() == value % 0x100
    {
      data[0x09] := ToByte(value);
    }

    // -------------------------------------------------------------------------
    // Effort-value yields: six 2-bit fields of the little-endian word at 0x0A.

    /** The private `EVYield` property: the word at 0x0A. */
    function EVYield(): (r: bv16)
      reads data
      requires Valid()
      ensures (r & 0xFF) as bv8 == data[0x0A] && (r >> 8) as bv8 == data[0x0B]
    {
      Word(data[0x0A], data[0x0B])
    }

    /** The `EVYield` setter: stores the word little-endian at 0x0A. */
    method SetEVYield(word: bv16)
      requires Valid()
      modifies data
      ensures EVYield() == word
      ensures forall j :: 0 <= j < SIZE && j != 0x0A && j != 0x0B ==> data[j] == old(data[j])
    {
      var (lo, hi) := WordBytes(word);
      data[0x0A], data[0x0B] := lo, hi;
    }

    /** The read-modify-write every `EV_*` setter performs. */
    method SetEv(stat: EvStat, value: int32)
      requires Valid()
      modifies data
      ensures EVYield() == WithEv(old(EVYield()), stat, value)
      ensures EvOf(EVYield(), stat) == value % 4
      ensures forall other: EvStat :: other != stat ==> EvOf(EVYield(), other) == EvOf(old(EVYield()), other)
      ensures EVYield() >> 12 == old(EVYield()) >> 12
      ensures forall j :: 0 <= j < SIZE && j != 0x0A && j != 0x0B ==> data[j] == old(data[j])
    {
      SetEVYield(WithEv(EVYield(), stat, value));
    }

    function EV_HP(): (r: int)
      reads data
      requires Valid()
      ensures 0 <= r <= 3
    {
      EvOf(EVYield(), EvStat.HP)
    }

    method SetEV_HP(value: int32)
      requires Valid()
      modifies data
      ensures EVYield() == WithEv(old(EVYield()), EvStat.HP, value)
      ensures EV_HP() == value % 4
      ensures forall other: EvStat :: other != EvStat.HP ==> EvOf(EVYield(), other) == EvOf(old(EVYield()), other)
      ensures EVYield() >> 12 == old(EVYield()) >> 12
      ensures forall j :: 0 <= j < SIZE && j != 0x0A && j != 0x0B ==> data[j] == old(data[j])
    {
      SetEv(EvStat.HP, value);
    }

    function EV_ATK(): (r: int)
      reads data
      requires Valid()
      ensures 0 <= r <= 3
    {
      EvOf(EVYield(), EvStat.ATK)
    }

    method SetEV_ATK(value: int32)
      requires Valid()
      modifies data
      ensures EVYield() == WithEv(old(EVYield()), EvStat.ATK, value)
      ensures EV_ATK() == value % 4
      ensures forall other: EvStat :: other != EvStat.ATK ==> EvOf(EVYield(), other) == EvOf(old(EVYield()), other)
      ensures EVYield() >> 12 == old(EVYield()) >> 12
      ensures forall j :: 0 <= j < SIZE && j != 0x0A && j != 0x0B ==> data[j] == old(data[j])
    {
      SetEv(EvStat.ATK, value);
    }

    function EV_DEF(): (r: int)
      reads data
      requires Valid()
      ensures 0 <= r <= 3
    {
      EvOf(EVYield(), EvStat.DEF)
    }

    method SetEV_DEF(value: int32)
      requires Valid()
      modifies data
      ensures EVYield() == WithEv(old(EVYield()), EvStat.DEF, value)
      ensures EV_DEF() == value % 4
      ensures forall other: EvStat :: other != EvStat.DEF ==> EvOf(EVYield(), other) == EvOf(old(EVYield()), other)
      ensures EVYield() >> 12 == old(EVYield()) >> 12
      ensures forall j :: 0 <= j < SIZE && j != 0x0A && j != 0x0B ==> data[j] == old(data[j])
    {
      SetEv(EvStat.DEF, value);
    }

    function EV_SPE(): (r: int)
      reads data
      requires Valid()
      ensures 0 <= r <= 3
    {
      EvOf(EVYield(), EvStat.SPE)
    }

    method SetEV_SPE(value: int32)
      requires Valid()
      modifies data
      ensures EVYield() == WithEv(old(EVYield()), EvStat.SPE, value)
      ensures EV_SPE() == value % 4
      ensures forall other: EvStat :: other != EvStat.SPE ==> EvOf(EVYield(), other) == EvOf(old(EVYield()), other)
      ensures EVYield() >> 12 == old(EVYield()) >> 12
      ensures forall j :: 0 <= j < SIZE && j != 0x0A && j != 0x0B ==> data[j] == old(data[j])
    {
      SetEv(EvStat.SPE, value);
    }

    function EV_SPA(): (r: int)
      reads data
      requires Valid()
      ensures 0 <= r <= 3
    {
      EvOf(EVYield(), EvStat.SPA)
    }

    method SetEV_SPA(value: int32)
      requires Valid()
      modifies data
      ensures EVYield() == WithEv(old(EVYield()), EvStat.SPA, value)
      ensures EV_SPA() == value % 4
      ensures forall other: EvStat :: other != EvStat.SPA ==> EvOf(EVYield(), other) == EvOf(old(EVYield()), other)
      ensures EVYield() >> 12 == old(EVYield()) >> 12
      ensures forall j :: 0 <= j < SIZE && j != 0x0A && j != 0x0B ==> data[j] == old(data[j])
    {
      SetEv(EvStat.SPA, value);
    }

    function EV_SPD(): (r: int)
      reads data
      requires Valid()
      ensures 0 <= r <= 3
    {
      EvOf(EVYield(), EvStat.SPD)
    }

    method SetEV_SPD(value: int32)
      requires Valid()
      modifies data
      ensures EVYield() == WithEv(old(EVYield()), EvStat.SPD, value)
      ensures EV_SPD() == value % 4
      ensures forall other: EvStat :: other != EvStat.SPD ==> EvOf(EVYield(), other) == EvOf(old(EVYield()), other)
      ensures EVYield() >> 12 == old(EVYield()) >> 12
      ensures forall j :: 0 <= j < SIZE && j != 0x0A && j != 0x0B ==> data[j] == old(data[j])
    {
      SetEv(EvStat.SPD, value);
    }

    // -------------------------------------------------------------------------
    // Held items: signed 16-bit little-endian fields at 0x0C and 0x0E.

    function Item1(): (r: int)
      reads data
      requires Valid()
      ensures -0x8000 <= r < 0x8000
    {
      ReadS16(data[0x0C], data[0x0D])
    }

    /** Stores `(short)value` little-endian at 0x0C; the property then reads `(short)value`,
        which is `value` itself for every value a `short` can hold. */
    method SetItem1(value: int32)
      requires Valid()
      modifies data
      ensures data[..] == old(data[..])[0x0C := Int16Bytes(value).0][0x0D := Int16Bytes(value).1]
      ensures Item1() == ToInt16(value)
    {
      var (lo, hi) := Int16Bytes(value);
      data[0x0C], data[0x0D] := lo, hi;
    }

    function Item2(): (r: int)
      reads data
      requires Valid()
      ensures -0x8000 <= r < 0x8000
    {
      ReadS16(data[0x0E], data[0x0F])
    }

    /** Stores `(short)value` little-endian at 0x0E. */
    method SetItem2(value: int32)
      requires Valid()
      modifies data
      ensures data[..] == old(data[..])[0x0E := Int16Bytes(value).0][0x0F := Int16Bytes(value).1]
      ensures Item2() == ToInt16(value)
    {
      var (lo, hi) := Int16Bytes(value);
      data[0x0E], data[0x0F] := lo, hi;
    }

    /** Gender ratio. A `byte` property at 0x10. */
    function Gender(): bv8
      reads data
      requires Valid()
    {
      data[0x10]
    }

    method SetGender(value: bv8)
      requires Valid()
      modifies data
      ensures data[..] == old(data[..])[0x10 := value]
      ensures Gender() == value
    {
      data[0x10] := value;
    }

    /** Egg hatch cycles. A `byte` property at 0x11. */
    function HatchCycles(): bv8
      reads data
      requires Valid()
    {
      data[0x11]
    }

    method SetHatchCycles(value: bv8)
      requires Valid()
      modifies data
      ensures data[..] == old(data[..])[0x11 := value]
      ensures HatchCycles() == value
    {
      data[0x11] := value;
    }

    /** Base friendship. A `byte` property at 0x12. */
    function BaseFriendship(): bv8
      reads data
      requires Valid()
    {
      data[0x12]
    }

    method SetBaseFriendship(value: bv8)
      requires Valid()
      modifies data
      ensures data[..] == old(data[..])[0x12 := value]
      ensures BaseFriendship() == value
    {
      data[0x12] := value;
    }

    /** Experience growth rate. A `byte` property at 0x13. */
    function EXPGrowth(): bv8
      reads data
      requires Valid()
    {
      data[0x13]
    }

    method SetEXPGrowth(value: bv8)
      requires Valid()
      modifies data
      ensures data[..] == old(data[..])[0x13 := value]
      ensures EXPGrowth() == value
    {
      data[0x13] := value;
    }

    /** First egg group. An `int` property over the byte at 0x14. */
    function EggGroup1(): (r: int)
      reads data
      requires Valid()
      ensures 0 <= r < 0x100
    {
      data[0x14] as int
    }

    /** Stores `(byte)value` at 0x14; the property then reads `value % 0x100`. */
    method SetEggGroup1(value: int32)
      requires Valid()
      modifies data
      ensures data[..] == old(data[..])[0x14 := ToByte(value)]
      ensures EggGroup1() == value % 0x100
    {
      data[0x14] := ToByte(value);
    }

    /** Second egg group. An `int` property over the byte at 0x15. */
    function EggGroup2(): (r: int)
      reads data
      requires Valid()
      ensures 0 <= r < 0x100
    {
      data[0x15] as int
    }

    /** Stores `(byte)value` at 0x15; the property then reads `value % 0x100`. */
    method SetEggGroup2(value: int32)
      requires Valid()
      modifies data
      ensures data[..] == old(data[..])[0x15 := ToByte(value)]
      ensures EggGroup2() == value % 0x100
    {
      data[0x15] := ToByte(value);
    }

    /** First ability. An `int` property over the byte at 0x16. */
    function Ability1(): (r: int)
      reads data
      requires Valid()
      ensures 0 <= r < 0x100
    {
      data[0x16] as int
    }

    /** Stores `(byte)value` at 0x16; the property then reads `value % 0x100`. */
    method SetAbility1(value: int32)
      requires Valid()
      modifies data
      ensures data[..] == old(data[..])[0x16 := ToByte(value)]
      ensures Ability1() == value % 0x100
    {
      data[0x16] := ToByte(value);
    }

    /** Second ability; equal to the first when there is only one. An `int` property over the byte at 0x17. */
    function Ability2(): (r: int)
      reads data
      requires Valid()
      ensures 0 <= r < 0x100
    {
      data[0x17] as int
    }

    /** Stores `(byte)value` at 0x17; the property then reads `value % 0x100`. */
    method SetAbility2(value: int32)
      requires Valid()
      modifies data
      ensures data[..] == old(data[..])[0x17 := ToByte(value)]
      ensures Ability2() == value % 0x100
    {
      data[0x17] := ToByte(value);
    }

    /** Safari escape rate. An `int` property over the byte at 0x18. */
    function EscapeRate(): (r: int)
      reads data
      requires Valid()
      ensures 0 <= r < 0x100
    {
      data[0x18] as int
    }

    /** Stores `(byte)value` at 0x18; the property then reads `value % 0x100`. */
    method SetEscapeRate(value: int32)
      requires Valid()
      modifies data
      ensures data[..] == old(data[..])[0x18 := ToByte(value)]
      ensures EscapeRate() == value % 0x100
    {
      data[0x18] := ToByte(value);
    }

    // -------------------------------------------------------------------------
    // Colour and the no-flip flag share the byte at 0x19.

    function Color(): (r: int)
      reads data
      requires Valid()
      ensures 0 <= r < 0x80
    {
      ColorOf(data[0x19])
    }

    /** Keeps bit 7 of the byte and ORs in `(byte)value` unmasked: the colour reads back as
        `value % 0x80`, and a value with bit 7 set also raises the no-flip flag. */
    method SetColor(value: int32)
      requires Valid()
      modifies data
      ensures data[..] == old(data[..])[0x19 := WithColor(old(data[0x19]), value)]
      ensures Color() == value % 0x80
      ensures NoFlip() == (old(NoFlip()) || value % 0x100 >= 0x80)
    {
      data[0x19] := WithColor(data[0x19], value);
    }

    /** Bit 7 of byte 0x19: set exactly when the byte is at least 0x80. */
    function NoFlip(): (r: bool)
      reads data
      requires Valid()
      ensures r <==> data[0x19] as int >= 0x80
    {
      NoFlipOf(data[0x19])
    }

    /** Rebuilds the byte from the current colour and the new flag. */
    method SetNoFlip(value: bool)
      requires Valid()
      modifies data
      ensures data[..] == old(data[..])[0x19 := WithNoFlip(old(data[0x19]), value)]
      ensures NoFlip() == value
      ensures Color() == old(Color())
    {
      data[0x19] := WithNoFlip(data[0x19], value);
    }

    // -------------------------------------------------------------------------
    // Abilities.

    /** 0 when the id is the first ability (whatever the second is), 1 when it is only the
        second, -1 when it is neither; a found index leads back to the id. */
    function GetIndexOfAbility(abilityID: int32): (r: int)
      reads data
      requires Valid()
      ensures -1 <= r <= 1
      ensures r == -1 <==> abilityID != Ability1() && abilityID != Ability2()
      ensures r == 1 ==> abilityID != Ability1()
      ensures r != -1 ==> GetAbilityAtIndex(r) == Ok(abilityID)
    {
      if abilityID == Ability1() then 0 else if abilityID == Ability2() then 1 else -1
    }

    /** The ability in slot 0 or 1; any other index fails with an out-of-range error. */
    function GetAbilityAtIndex(abilityIndex: int32): (r: Result<int>)
      reads data
      requires Valid()
      ensures r.Ok? <==> abilityIndex == 0 || abilityIndex == 1
      ensures abilityIndex == 0 ==> r == Ok(Ability1())
      ensures abilityIndex == 1 ==> r == Ok(Ability2())
      ensures r.Err? ==> r.error == ArgumentOutOfRange("abilityIndex", abilityIndex)
    {
      match abilityIndex
      case 0 => Ok(Ability1())
      case 1 => Ok(Ability2())
      case _ => Err(ArgumentOutOfRange("abilityIndex", abilityIndex))
    }

    /** The second ability only when it is asked for and differs from the first. Because the
        guard only skips an equal value, asking for the second always yields `Ability2`, and
        the result's index is 1 exactly when a distinct second ability was chosen. */
    function GetAbility(second: bool): (r: int)
      reads data
      requires Valid()
      ensures !second ==> r == Ability1()
      ensures second ==> r == Ability2()
      ensures GetIndexOfAbility(r) == (if second && HasSecondAbility() then 1 else 0)
    {
      if second && HasSecondAbility() then Ability2() else Ability1()
    }

    /** The two slots differ, so the second ability is found at index 1. */
    function HasSecondAbility(): (r: bool)
      reads data
      requires Valid()
      ensures r <==> GetIndexOfAbility(Ability2()) == 1
    {
      Ability1() != Ability2()
    }

    // -------------------------------------------------------------------------
    // Form data, maintained outside this record: the setters ignore their value.

    function FormCount(): bv8
      reads data
      requires Valid()
    {
      data[0x29]
    }

    method SetFormCount(value: bv8)
      requires Valid()
      ensures data[..] == old(data[..])
      ensures FormCount() == old(FormCount())
    {
    }

    function FormStatsIndex(): (r: int)
      reads data
      requires Valid()
      ensures 0 <= r < 0x1_0000
    {
      ReadU16(data[0x2A], data[0x2B])
    }

    method SetFormStatsIndex(value: int32)
      requires Valid()
      ensures data[..] == old(data[..])
      ensures FormStatsIndex() == old(FormStatsIndex())
    {
    }

    // -------------------------------------------------------------------------
    // Tutor flags.

    /** Makes this record share the other record's tutor array: the same array, not a copy. */
    method CopyTypeTutors(other: PersonalInfo4)
      modifies this`typeTutors
      ensures typeTutors == old(other.typeTutors)
    {
      typeTutors := other.typeTutors;
    }

    /** False outside [0, 0x34); otherwise the flag. Reading an in-range index needs the
        tutor array to have been attached. */
    function GetIsLearnTutorType(index: int32): (r: bool)
      reads this, typeTutors
      requires 0 <= index < CountTutor ==> index < typeTutors.Length
      ensures r ==> 0 <= index < CountTutor
      ensures 0 <= index < CountTutor ==> r == typeTutors[index]
    {
      if OutOfRange(index, CountTutor) then false else typeTutors[index]
    }

    /** Fails with an out-of-range error outside [0, 0x34), unlike the machine setter, which
        ignores such indices; otherwise sets that one flag. */
    method SetIsLearnTutorType(index: int32, value: bool) returns (r: Outcome)
      requires 0 <= index < CountTutor ==> index < typeTutors.Length
      modifies typeTutors
      ensures r.Fail? <==> !(0 <= index < CountTutor)
      ensures r.Fail? ==> r.error == ArgumentOutOfRange("index", index) && typeTutors[..] == old(typeTutors[..])
      ensures r.Pass? ==> typeTutors[..] == old(typeTutors[..])[index := value]
      ensures r.Pass? ==> GetIsLearnTutorType(index) == value
    {
      if OutOfRange(index, CountTutor) {
        return Fail(ArgumentOutOfRange("index", index));
      }
      typeTutors[index] := value;
      r := Pass;
    }

    /** After a copy the two records hold one array: a flag set through one is read back
        through the other. */
    static method CopiedTutorsAreShared(target: PersonalInfo4, source: PersonalInfo4, index: int32, value: bool)
      requires 0 <= index < CountTutor <= source.typeTutors.Length
      modifies target, source.typeTutors
      ensures source.typeTutors == old(source.typeTutors)
      ensures target.typeTutors == source.typeTutors
      ensures source.GetIsLearnTutorType(index) == value
    {
      target.CopyTypeTutors(source);
      var _ := target.SetIsLearnTutorType(index, value);
    }

    // -------------------------------------------------------------------------
    // Machine flags: bit `i` of the bitmap at 0x1C is technical machine `i` for i < 92
    // and hidden machine `i - 92` above that.

    /** The 13 bytes of the machine bitmap. */
    function Bitmap(): (r: seq<bv8>)
      reads data
      requires Valid()
      ensures |r| == ByteCountTM && 8 * |r| >= CountTMHM
    {
      data[TMHM..TMHM + ByteCountTM]
    }

    /** Bit `index & 7` of byte `0x1C + (index >> 3)` for an index in [0, 92), false for any
        other index, negative ones included. */
    function GetIsLearnTM(index: int32): (r: bool)
      reads data
      requires Valid()
      ensures r <==> 0 <= index < CountTM && BitmapBit(Bitmap(), index)
    {
      if OutOfRange(index, CountTM) then false
      else BitmapBit(Bitmap(), index)
    }

    /** Sets or clears one bit of the bitmap for an index in [0, 92); leaves the record alone
        for any other index. */
    method SetIsLearnTM(index: int32, value: bool)
      requires Valid()
      modifies data
      ensures !(0 <= index < CountTM) ==> data[..] == old(data[..])
      ensures 0 <= index < CountTM ==>
                data[..] == old(data[..])[TMHM + index / 8 := WithBit(old(data[TMHM + index / 8]), index % 8, value)]
      ensures 0 <= index < CountTM ==> GetIsLearnTM(index) == value
      ensures forall j :: 0 <= j < CountTMHM && j != index ==> BitmapBit(Bitmap(), j) == BitmapBit(old(Bitmap()), j)
      ensures FormCount() == old(FormCount())
    {
      if OutOfRange(index, CountTM) {
        return;
      }
      var at := TMHM + index / 8;
      ghost var before := Bitmap();
      data[at] := WithBit(data[at], index % 8, value);
      assert Bitmap() == before[index / 8 := data[at]];
      BitmapStoreBit(before, index, value);
    }

    /** Bit `92 + index` of the same bitmap for an index in [0, 8), false otherwise: the
        hidden machines share the technical machines' storage. */
    function GetIsLearnHM(index: int32): (r: bool)
      reads data
      requires Valid()
      ensures r <==> 0 <= index < CountHM && BitmapBit(Bitmap(), CountTM + index)
    {
      if OutOfRange(index, CountHM) then false
      else BitmapBit(Bitmap(), CountTM + index)
    }

    /** The technical-machine bits as flags. */
    function TMFlags(): seq<bool>
      reads data
      requires Valid()
    {
      Flags(Bitmap(), 0, CountTM)
    }

    /** The hidden-machine bits as flags. */
    function HMFlags(): seq<bool>
      reads data
      requires Valid()
    {
      Flags(Bitmap(), CountTM, CountHM)
    }

    /** The flags the bulk operations expand are the ones the per-index queries report. */
    lemma FlagsAreQueries()
      requires Valid()
      ensures forall i: int32 :: 0 <= i < CountTM ==> TMFlags()[i] == GetIsLearnTM(i)
      ensures forall i: int32 :: 0 <= i < CountHM ==> HMFlags()[i] == GetIsLearnHM(i)
    {
    }

    /** Marks the move of every set technical-machine bit; entries already true stay true and
        the record is not touched. The result array and the record are distinct objects, as a
        `bool` span and a `byte` buffer always are; the verifier's heap model needs it said. */
    method SetAllLearnTM(result: array<bool>, moves: seq<uint16>)
      requires Valid()
      requires result as object != data as object
      requires Fits(TMFlags(), moves, result.Length)
      modifies result
      ensures data[..] == old(data[..])
      ensures forall m :: 0 <= m < result.Length ==>
                (result[m] <==> old(result[m]) || Taught(TMFlags(), moves, m))
    {
      var span := data[TMHM..TMHM + ByteCountTM];
      ghost var flags := TMFlags();
      var index := CountTM - 1;
      assert flags[..index + 1] == flags;
      while index >= 0
        invariant -1 <= index < CountTM
        invariant unchanged(data)
        invariant Fits(flags[..index + 1], moves, result.Length)
        invariant Expand(result[..], flags[..index + 1], moves) == Expand(old(result[..]), flags, moves)
      {
        ExpandStep(result[..], flags, moves, index);
        if BitmapBit(span, index) {
          result[moves[index]] := true;
        }
        index := index - 1;
      }
      assert TMFlags() == flags;
      forall m | 0 <= m < result.Length
        ensures result[m] <==> old(result[m]) || Taught(flags, moves, m)
      {
        ExpandTaught(old(result[..]), flags, moves, m);
      }
    }

    /** Marks the move of every set hidden-machine bit, using the hidden-machine table. */
    method SetAllLearnHM(result: array<bool>, moves: seq<uint16>)
      requires Valid()
      requires result as object != data as object
      requires Fits(HMFlags(), moves, result.Length)
      modifies result
      ensures data[..] == old(data[..])
      ensures forall m :: 0 <= m < result.Length ==>
                (result[m] <==> old(result[m]) || Taught(HMFlags(), moves, m))
    {
      var span := data[TMHM..TMHM + ByteCountTM];
      ghost var flags := HMFlags();
      var index := CountTM + CountHM - 1;
      assert flags[..index + 1 - CountTM] == flags;
      while index >= CountTM
        invariant CountTM - 1 <= index < CountTMHM
        invariant unchanged(data)
        invariant Fits(flags[..index + 1 - CountTM], moves, result.Length)
        invariant Expand(result[..], flags[..index + 1 - CountTM], moves) == Expand(old(result[..]), flags, moves)
      {
        ExpandStep(result[..], flags, moves, index - CountTM);
        if BitmapBit(span, index) {
          result[moves[index - CountTM]] := true;
        }
        index := index - 1;
      }
      assert HMFlags() == flags;
      forall m | 0 <= m < result.Length
        ensures result[m] <==> old(result[m]) || Taught(flags, moves, m)
      {
        ExpandTaught(old(result[..]), flags, moves, m);
      }
    }

    /** Marks the move of every set tutor flag. The result array is not the tutor array itself. */
    method SetAllLearnTutorType(result: array<bool>, moves: seq<uint16>)
      requires CountTutor <= typeTutors.Length
      requires result != typeTutors
      requires Fits(typeTutors[..CountTutor], moves, result.Length)
      modifies result
      ensures typeTutors[..] == old(typeTutors[..])
      ensures forall m :: 0 <= m < result.Length ==>
                (result[m] <==> old(result[m]) || Taught(typeTutors[..CountTutor], moves, m))
    {
      ghost var flags := typeTutors[..CountTutor];
      var index := CountTutor - 1;
      assert flags[..index + 1] == flags;
      while index >= 0
        invariant -1 <= index < CountTutor
        invariant typeTutors[..CountTutor] == flags
        invariant Fits(flags[..index + 1], moves, result.Length)
        invariant Expand(result[..], flags[..index + 1], moves) == Expand(old(result[..]), flags, moves)
      {
        ExpandStep(result[..], flags, moves, index);
        if typeTutors[index] {
          result[moves[index]] := true;
        }
        index := index - 1;
      }
      forall m | 0 <= m < result.Length
        ensures result[m] <==> old(result[m]) || Taught(flags, moves, m)
      {
        ExpandTaught(old(result[..]), flags, moves, m);
      }
    }

    // -------------------------------------------------------------------------
    // Static move tables, indexed like the flags they translate.

    /** The hidden machines to disallow on transfer to Generation 5. With Defog in the moveset
        the Heart Gold / Soul Silver list is chosen, which names Whirlpool instead of Defog,
        so Defog is kept; otherwise the Diamond / Pearl / Platinum list, which names Defog. */
    static function GetPreferredTransferHMs(hasDefog: bool): (r: seq<uint16>)
      ensures |r| == CountHM
      ensures hasDefog <==> Moves.Defog !in r
      ensures !hasDefog <==> Moves.Whirlpool !in r
      ensures forall i :: 0 <= i < CountHM && i != 4 ==> r[i] == MachineMovesHiddenDPPt()[i]
    {
      if hasDefog then MachineMovesHiddenHGSS() else MachineMovesHiddenDPPt()
    }

    /** The two hidden-machine lists agree everywhere but index 4. */
    static lemma HiddenTablesDifferOnlyAtFour()
      ensures |MachineMovesHiddenDPPt()| == |MachineMovesHiddenHGSS()| == CountHM
      ensures forall i :: 0 <= i < CountHM && i != 4 ==> MachineMovesHiddenDPPt()[i] == MachineMovesHiddenHGSS()[i]
      ensures MachineMovesHiddenDPPt()[4] == Moves.Defog && MachineMovesHiddenHGSS()[4] == Moves.Whirlpool
    {
    }

    static const SpecialTutorBlastBurn: seq<uint16> := [006, 157, 257, 392]
    static const SpecialTutorHydroCannon: seq<uint16> := [009, 160, 260, 395]
    static const SpecialTutorFrenzyPlant: seq<uint16> := [003, 154, 254, 389]
    static const SpecialTutorDracoMeteor: seq<uint16> :=
      [147, 148, 149, 230, 329, 330, 334, 371, 372, 373, 380, 381, 384, 443, 444, 445, 483, 484, 487]

    /** Move of each tutor flag. */
    static function TutorMoves(): (r: seq<uint16>)
      ensures |r| == CountTutor
    {
      [291, 189, 210, 196, 205, 009, 007, 276, 008, 442, 401, 466, 380, 173, 180, 314] +
      [270, 283, 200, 246, 235, 324, 428, 410, 414, 441, 239, 402, 334, 393, 387, 340] +
      [271, 257, 282, 389, 129, 253, 162, 220, 081, 366, 356, 388, 277, 272, 215, 067] +
      [143, 335, 450, 029]
    }

    /** Move of each technical-machine bit. */
    static function MachineMovesTechnical(): (r: seq<uint16>)
      ensures |r| == CountTM
    {
      [264, 337, 352, 347, 046, 092, 258, 339, 331, 237] +
      [241, 269, 058, 059, 063, 113, 182, 240, 202, 219] +
      [218, 076, 231, 085, 087, 089, 216, 091, 094, 247] +
      [280, 104, 115, 351, 053, 188, 201, 126, 317, 332] +
      [259, 263, 290, 156, 213, 168, 211, 285, 289, 315] +
      [355, 411, 412, 206, 362, 374, 451, 203, 406, 409] +
      [261, 318, 373, 153, 421, 371, 278, 416, 397, 148] +
      [444, 419, 086, 360, 014, 446, 244, 445, 399, 157] +
      [404, 214, 363, 398, 138, 447, 207, 365, 369, 164] +
      [430, 433]
    }

    /** Hidden machines in Diamond, Pearl and Platinum. */
    static function MachineMovesHiddenDPPt(): (r: seq<uint16>)
      ensures |r| == CountHM
    {
      [Moves.Cut, Moves.Fly, Moves.Surf, Moves.Strength, Moves.Defog, Moves.RockSmash, Moves.Waterfall, Moves.RockClimb]
    }

    /** Hidden machines in Heart Gold and Soul Silver. */
    static function MachineMovesHiddenHGSS(): (r: seq<uint16>)
      ensures |r| == CountHM
    {
      [Moves.Cut, Moves.Fly, Moves.Surf, Moves.Strength, Moves.Whirlpool, Moves.RockSmash, Moves.Waterfall, Moves.RockClimb]
    }
  }
}
