# PersonalInfo4 in Dafny

A model of PKHeX's Generation 4 personal record, `PersonalInfo4`. It is a typed view over
one species' 0x2C-byte entry in the Diamond/Pearl/Platinum and Heart Gold/Soul Silver
personal table. The view covers:

- base stats, types, catch rate and experience yield;
- the packed effort-value yields and the two held items;
- gender ratio, hatch cycles, friendship and growth rate;
- egg groups, abilities, escape rate, and the colour byte with its no-flip flag;
- the form fields;
- a 100-bit bitmap of technical/hidden machine compatibility;
- a separately attached array of move-tutor flags;
- the static move tables that turn flag indices into move identifiers.

The record is a `class` over the byte array it borrows (`data`, which is never re-pointed)
and the tutor array it holds (`typeTutors`, which can be replaced). Each C# property
becomes a getter `function` with `reads data` and a setter `method` with `modifies data`.
The setter's contract gives the whole new byte array and what the property reads back
afterwards.

The three `SetAllLearn*` operations are descending `while` loops. Each loop is proved
against `Learnsets.Expand`, a pure fold that walks the flags in the same order.
`Learnsets.ExpandTaught` then shows what the fold means: a move is marked afterwards
exactly when it was marked before or some set flag's table entry names it.

Fixed-width arithmetic is written out explicitly in module `Bits`:

- `(byte)` casts, as `value % 0x100`;
- the unsigned range check `(uint)index >= count`;
- little-endian 16-bit reads and writes, signed and unsigned;
- the `(short)` cast;
- the 2-bit effort-value fields inside their word;
- the colour/no-flip byte;
- single bits of a bitmap byte.

An exception (`ArgumentOutOfRangeException`) is modelled as a `Result`/`Outcome` value in
module `Outcomes`. The source breaks the record's promises in two places; the model
follows the code there:

- `Color`'s setter does not mask its argument to 7 bits. A colour whose low byte is
  0x80-0xFF (for example 128..255) sets the no-flip flag (`Bits.WithColor`,
  `Bits.WideColorRaisesNoFlip`). Only bit 7 of the low byte matters, so a value such as
  256 leaves the flag as it was.
- `CopyTypeTutors` shares the other record's array instead of copying it, so later writes
  through either record are seen by both (`Personal.PersonalInfo4.CopiedTutorsAreShared`).

`GetPreferredTransferHMs` makes the selection its documentation describes. With Defog in
the moveset it returns the Heart Gold/Soul Silver list, which names Whirlpool rather than
Defog, so Defog is kept; otherwise it returns the Diamond/Pearl/Platinum list.

Files:

- `bits.dfy`: module `Bits`.
- `outcomes.dfy`: module `Outcomes`.
- `learnsets.dfy`: module `Learnsets`, the bitmap view and the expansion fold.
- `moves.dfy`: module `Moves`, named move identifiers.
- `personal_info4.dfy`: module `Personal`, the record.

## Model

| member | source | states |
|---|---|---|
| Bits.ToByte | PKHeX.Core/PersonalInfo/Info/PersonalInfo4.cs:16 | `(byte)value` keeps the value modulo 256 (the two's complement low byte, never negative) |
| Bits.OutOfRange | PKHeX.Core/PersonalInfo/Info/PersonalInfo4.cs:80 | `(uint)index >= count` holds exactly when the signed index is outside `[0, count)`, negative indices included |
| Bits.ReadU16 | PKHeX.Core/PersonalInfo/Info/PersonalInfo4.cs:61 | an unsigned little-endian 16-bit read lies in `[0, 0x10000)` |
| Bits.ReadS16 | PKHeX.Core/PersonalInfo/Info/PersonalInfo4.cs:33 | a signed little-endian read lies in the `short` range and agrees with the unsigned read modulo 0x10000 |
| Bits.ToInt16 | PKHeX.Core/PersonalInfo/Info/PersonalInfo4.cs:33 | `(short)value` is in the `short` range, congruent to the value modulo 0x10000, and the identity on the `short` range |
| Bits.Int16Bytes | PKHeX.Core/PersonalInfo/Info/PersonalInfo4.cs:33-34 | the two bytes `WriteInt16LittleEndian(span, (short)value)` stores read back through `ReadInt16LittleEndian` as `(short)value`, for every `int` |
| Bits.Word | PKHeX.Core/PersonalInfo/Info/PersonalInfo4.cs:26 | the word `ReadUInt16LittleEndian` reads has the byte at the lower offset as its low half and the other byte as its high half |
| Bits.WordBytes | PKHeX.Core/PersonalInfo/Info/PersonalInfo4.cs:26 | the two bytes a 16-bit write stores read back as the same word |
| Bits.EvShift | PKHeX.Core/PersonalInfo/Info/PersonalInfo4.cs:27-32 | the six shifts 0, 2, ..., 10 are even and at most 10, so every 2-bit field lies below bit 12 |
| Bits.EvOf | PKHeX.Core/PersonalInfo/Info/PersonalInfo4.cs:27-32 | a yield `(EVYield >> shift) & 0x3` is between 0 and 3 |
| Bits.LowTwoBits | PKHeX.Core/PersonalInfo/Info/PersonalInfo4.cs:27-32 | `value & 0x3` on an `int` is `value % 4`, below 4, negative values included |
| Bits.WithEv | PKHeX.Core/PersonalInfo/Info/PersonalInfo4.cs:27-32 | after an `EV_*` read-modify-write the written yield reads back as `value & 3`; the other five yields and bits 12 to 15 of the word are unchanged |
| Bits.ColorOf | PKHeX.Core/PersonalInfo/Info/PersonalInfo4.cs:44 | the colour is the low seven bits, below 0x80 |
| Bits.NoFlipOf | PKHeX.Core/PersonalInfo/Info/PersonalInfo4.cs:45 | the flag is set exactly when the byte is at least 0x80 |
| Bits.WithColor | PKHeX.Core/PersonalInfo/Info/PersonalInfo4.cs:44 | the stored colour reads back as `value % 0x80`; the flag becomes the old flag OR bit 7 of `(byte)value` |
| Bits.ColorKeepsNoFlip | PKHeX.Core/PersonalInfo/Info/PersonalInfo4.cs:44 | a colour in `[0, 127]` reads back unchanged and leaves the no-flip flag as it was |
| Bits.WideColorRaisesNoFlip | PKHeX.Core/PersonalInfo/Info/PersonalInfo4.cs:44 | a colour in `[128, 255]` is accepted, sets the no-flip flag, and reads back as `value - 128` |
| Bits.WithNoFlip | PKHeX.Core/PersonalInfo/Info/PersonalInfo4.cs:45 | setting the flag rebuilds the byte from the colour: the colour is kept and the flag reads back as given |
| Bits.WithBit | PKHeX.Core/PersonalInfo/Info/PersonalInfo4.cs:89-92 | `|= (byte)(1 << k)` / `&= (byte)~(1 << k)` makes bit `k` the given value and keeps the other seven bits |
| Learnsets.BitmapBit | PKHeX.Core/PersonalInfo/Info/PersonalInfo4.cs:82 | the test `(bytes[i >> 3] & (1 << (i & 7))) != 0` is the low bit of byte `i >> 3` shifted right by `i & 7`: bits are numbered least significant first |
| Learnsets.BitmapBitAfterStore | PKHeX.Core/PersonalInfo/Info/PersonalInfo4.cs:82 | replacing one byte of the bitmap changes only the eight bits that byte holds |
| Learnsets.BitmapStoreBit | PKHeX.Core/PersonalInfo/Info/PersonalInfo4.cs:85-93 | storing one bit of the bitmap makes that bit read back as stored and keeps every other bit |
| Learnsets.Expand | PKHeX.Core/PersonalInfo/Info/PersonalInfo4.cs:98-102 | the descending walk keeps the result's length and never clears an entry |
| Learnsets.ExpandStep | PKHeX.Core/PersonalInfo/Info/PersonalInfo4.cs:98-102 | handling one index and then the indices below it is the walk over the first `index + 1` flags; the table access is in range |
| Learnsets.TaughtSplit | PKHeX.Core/PersonalInfo/Info/PersonalInfo4.cs:98-102 | a move is taught by a flag list exactly when it is taught by the list without its last flag or by that last flag |
| Learnsets.ExpandTaught | PKHeX.Core/PersonalInfo/Info/PersonalInfo4.cs:95-103 | after the walk an entry is true exactly when it was true before or some set flag's table entry names it; the order of the walk does not matter |
| Personal.BitmapBeforeFormCount | PKHeX.Core/PersonalInfo/Info/PersonalInfo4.cs:71-76 | the bitmap spans 13 bytes, 0x1C to 0x28, holds all 100 machine bits, and stops before the form count at 0x29 |
| Personal.PersonalInfo4.constructor | PKHeX.Core/PersonalInfo/Info/PersonalInfo4.cs:9 | the record is a view of the given 0x2C bytes; the tutor array starts empty |
| Personal.PersonalInfo4.Write | PKHeX.Core/PersonalInfo/Info/PersonalInfo4.cs:14 | returns a new array holding the record's bytes |
| Personal.PersonalInfo4.HP | PKHeX.Core/PersonalInfo/Info/PersonalInfo4.cs:16 | the base HP is the byte at 0x00, in `[0, 255]` |
| Personal.PersonalInfo4.SetHP | PKHeX.Core/PersonalInfo/Info/PersonalInfo4.cs:16 | only byte 0x00 changes, to `(byte)value`, and HP reads back as `value % 256` |
| Personal.PersonalInfo4.ATK | PKHeX.Core/PersonalInfo/Info/PersonalInfo4.cs:17 | the byte at 0x01, in `[0, 255]` |
| Personal.PersonalInfo4.SetATK | PKHeX.Core/PersonalInfo/Info/PersonalInfo4.cs:17 | only byte 0x01 changes, to `(byte)value`; ATK reads back as `value % 256` |
| Personal.PersonalInfo4.DEF | PKHeX.Core/PersonalInfo/Info/PersonalInfo4.cs:18 | the byte at 0x02, in `[0, 255]` |
| Personal.PersonalInfo4.SetDEF | PKHeX.Core/PersonalInfo/Info/PersonalInfo4.cs:18 | only byte 0x02 changes, to `(byte)value`; DEF reads back as `value % 256` |
| Personal.PersonalInfo4.SPE | PKHeX.Core/PersonalInfo/Info/PersonalInfo4.cs:19 | the byte at 0x03, in `[0, 255]` |
| Personal.PersonalInfo4.SetSPE | PKHeX.Core/PersonalInfo/Info/PersonalInfo4.cs:19 | only byte 0x03 changes, to `(byte)value`; SPE reads back as `value % 256` |
| Personal.PersonalInfo4.SPA | PKHeX.Core/PersonalInfo/Info/PersonalInfo4.cs:20 | the byte at 0x04, in `[0, 255]` |
| Personal.PersonalInfo4.SetSPA | PKHeX.Core/PersonalInfo/Info/PersonalInfo4.cs:20 | only byte 0x04 changes, to `(byte)value`; SPA reads back as `value % 256` |
| Personal.PersonalInfo4.SPD | PKHeX.Core/PersonalInfo/Info/PersonalInfo4.cs:21 | the byte at 0x05, in `[0, 255]` |
| Personal.PersonalInfo4.SetSPD | PKHeX.Core/PersonalInfo/Info/PersonalInfo4.cs:21 | only byte 0x05 changes, to `(byte)value`; SPD reads back as `value % 256` |
| Personal.PersonalInfo4.SetType1 | PKHeX.Core/PersonalInfo/Info/PersonalInfo4.cs:22 | only byte 0x06 changes, to the given byte, which Type1 reads back |
| Personal.PersonalInfo4.SetType2 | PKHeX.Core/PersonalInfo/Info/PersonalInfo4.cs:23 | only byte 0x07 changes, to the given byte, which Type2 reads back |
| Personal.PersonalInfo4.SetCatchRate | PKHeX.Core/PersonalInfo/Info/PersonalInfo4.cs:24 | only byte 0x08 changes, to the given byte, which CatchRate reads back |
| Personal.PersonalInfo4.BaseEXP | PKHeX.Core/PersonalInfo/Info/PersonalInfo4.cs:25 | the byte at 0x09, in `[0, 255]` |
| Personal.PersonalInfo4.SetBaseEXP | PKHeX.Core/PersonalInfo/Info/PersonalInfo4.cs:25 | only byte 0x09 changes, to `(byte)value`; BaseEXP reads back as `value % 256` |
| Personal.PersonalInfo4.EVYield | PKHeX.Core/PersonalInfo/Info/PersonalInfo4.cs:26 | the private yield word is read little-endian from 0x0A: byte 0x0A is its low half and byte 0x0B its high half |
| Personal.PersonalInfo4.SetEVYield | PKHeX.Core/PersonalInfo/Info/PersonalInfo4.cs:26 | the word at 0x0A reads back as written; no other byte changes |
| Personal.PersonalInfo4.SetEv | PKHeX.Core/PersonalInfo/Info/PersonalInfo4.cs:27-32 | the chosen yield reads back as `value & 3`; the other yields, the top four bits of the word and every byte outside 0x0A-0x0B are unchanged |
| Personal.PersonalInfo4.EV_HP | PKHeX.Core/PersonalInfo/Info/PersonalInfo4.cs:27 | the HP yield, bits 0-1 of the word, is between 0 and 3 |
| Personal.PersonalInfo4.SetEV_HP | PKHeX.Core/PersonalInfo/Info/PersonalInfo4.cs:27 | HP yield reads back as `value & 3`; the other five yields are unchanged |
| Personal.PersonalInfo4.EV_ATK | PKHeX.Core/PersonalInfo/Info/PersonalInfo4.cs:28 | bits 2-3 of the word, between 0 and 3 |
| Personal.PersonalInfo4.SetEV_ATK | PKHeX.Core/PersonalInfo/Info/PersonalInfo4.cs:28 | ATK yield reads back as `value & 3`; the other yields are unchanged |
| Personal.PersonalInfo4.EV_DEF | PKHeX.Core/PersonalInfo/Info/PersonalInfo4.cs:29 | bits 4-5 of the word, between 0 and 3 |
| Personal.PersonalInfo4.SetEV_DEF | PKHeX.Core/PersonalInfo/Info/PersonalInfo4.cs:29 | DEF yield reads back as `value & 3`; the other yields are unchanged |
| Personal.PersonalInfo4.EV_SPE | PKHeX.Core/PersonalInfo/Info/PersonalInfo4.cs:30 | bits 6-7 of the word, between 0 and 3 |
| Personal.PersonalInfo4.SetEV_SPE | PKHeX.Core/PersonalInfo/Info/PersonalInfo4.cs:30 | SPE yield reads back as `value & 3`; the other yields are unchanged |
| Personal.PersonalInfo4.EV_SPA | PKHeX.Core/PersonalInfo/Info/PersonalInfo4.cs:31 | bits 8-9 of the word, between 0 and 3 |
| Personal.PersonalInfo4.SetEV_SPA | PKHeX.Core/PersonalInfo/Info/PersonalInfo4.cs:31 | SPA yield reads back as `value & 3`; the other yields are unchanged |
| Personal.PersonalInfo4.EV_SPD | PKHeX.Core/PersonalInfo/Info/PersonalInfo4.cs:32 | bits 10-11 of the word, between 0 and 3 |
| Personal.PersonalInfo4.SetEV_SPD | PKHeX.Core/PersonalInfo/Info/PersonalInfo4.cs:32 | SPD yield reads back as `value & 3`; the other yields are unchanged |
| Personal.PersonalInfo4.Item1 | PKHeX.Core/PersonalInfo/Info/PersonalInfo4.cs:33 | the signed little-endian word at 0x0C, in the `short` range |
| Personal.PersonalInfo4.SetItem1 | PKHeX.Core/PersonalInfo/Info/PersonalInfo4.cs:33 | only bytes 0x0C-0x0D change; Item1 reads back as `(short)value` |
| Personal.PersonalInfo4.Item2 | PKHeX.Core/PersonalInfo/Info/PersonalInfo4.cs:34 | the signed little-endian word at 0x0E, in the `short` range |
| Personal.PersonalInfo4.SetItem2 | PKHeX.Core/PersonalInfo/Info/PersonalInfo4.cs:34 | only bytes 0x0E-0x0F change; Item2 reads back as `(short)value` |
| Personal.PersonalInfo4.SetGender | PKHeX.Core/PersonalInfo/Info/PersonalInfo4.cs:35 | only byte 0x10 changes, to the given byte, which Gender reads back |
| Personal.PersonalInfo4.SetHatchCycles | PKHeX.Core/PersonalInfo/Info/PersonalInfo4.cs:36 | only byte 0x11 changes, to the given byte, which HatchCycles reads back |
| Personal.PersonalInfo4.SetBaseFriendship | PKHeX.Core/PersonalInfo/Info/PersonalInfo4.cs:37 | only byte 0x12 changes, to the given byte, which BaseFriendship reads back |
| Personal.PersonalInfo4.SetEXPGrowth | PKHeX.Core/PersonalInfo/Info/PersonalInfo4.cs:38 | only byte 0x13 changes, to the given byte, which EXPGrowth reads back |
| Personal.PersonalInfo4.EggGroup1 | PKHeX.Core/PersonalInfo/Info/PersonalInfo4.cs:39 | the byte at 0x14, in `[0, 255]` |
| Personal.PersonalInfo4.SetEggGroup1 | PKHeX.Core/PersonalInfo/Info/PersonalInfo4.cs:39 | only byte 0x14 changes, to `(byte)value`; EggGroup1 reads back as `value % 256` |
| Personal.PersonalInfo4.EggGroup2 | PKHeX.Core/PersonalInfo/Info/PersonalInfo4.cs:40 | the byte at 0x15, in `[0, 255]` |
| Personal.PersonalInfo4.SetEggGroup2 | PKHeX.Core/PersonalInfo/Info/PersonalInfo4.cs:40 | only byte 0x15 changes, to `(byte)value`; EggGroup2 reads back as `value % 256` |
| Personal.PersonalInfo4.Ability1 | PKHeX.Core/PersonalInfo/Info/PersonalInfo4.cs:41 | the byte at 0x16, in `[0, 255]` |
| Personal.PersonalInfo4.SetAbility1 | PKHeX.Core/PersonalInfo/Info/PersonalInfo4.cs:41 | only byte 0x16 changes, to `(byte)value`; Ability1 reads back as `value % 256` |
| Personal.PersonalInfo4.Ability2 | PKHeX.Core/PersonalInfo/Info/PersonalInfo4.cs:42 | the byte at 0x17, in `[0, 255]` |
| Personal.PersonalInfo4.SetAbility2 | PKHeX.Core/PersonalInfo/Info/PersonalInfo4.cs:42 | only byte 0x17 changes, to `(byte)value`; Ability2 reads back as `value % 256` |
| Personal.PersonalInfo4.EscapeRate | PKHeX.Core/PersonalInfo/Info/PersonalInfo4.cs:43 | the byte at 0x18, in `[0, 255]` |
| Personal.PersonalInfo4.SetEscapeRate | PKHeX.Core/PersonalInfo/Info/PersonalInfo4.cs:43 | only byte 0x18 changes, to `(byte)value`; EscapeRate reads back as `value % 256` |
| Personal.PersonalInfo4.Color | PKHeX.Core/PersonalInfo/Info/PersonalInfo4.cs:44 | the low seven bits of byte 0x19, below 0x80 |
| Personal.PersonalInfo4.SetColor | PKHeX.Core/PersonalInfo/Info/PersonalInfo4.cs:44 | only byte 0x19 changes; the colour reads back as `value % 0x80`, and the no-flip flag becomes the old flag OR bit 7 of `(byte)value` |
| Personal.PersonalInfo4.NoFlip | PKHeX.Core/PersonalInfo/Info/PersonalInfo4.cs:45 | `Data[0x19] >> 7 == 1` holds exactly when the byte is at least 0x80 |
| Personal.PersonalInfo4.SetNoFlip | PKHeX.Core/PersonalInfo/Info/PersonalInfo4.cs:45 | only byte 0x19 changes; the flag reads back as given and the colour is unchanged |
| Personal.PersonalInfo4.GetIndexOfAbility | PKHeX.Core/PersonalInfo/Info/PersonalInfo4.cs:48 | the result is -1 exactly when the id is neither ability; a match on the first slot wins; a found index leads back to the id through `GetAbilityAtIndex` |
| Personal.PersonalInfo4.GetAbilityAtIndex | PKHeX.Core/PersonalInfo/Info/PersonalInfo4.cs:49-54 | indices 0 and 1 give the two abilities; every other index fails with `ArgumentOutOfRange("abilityIndex", index)` |
| Personal.PersonalInfo4.GetAbility | PKHeX.Core/PersonalInfo/Info/PersonalInfo4.cs:55 | not asking for the second gives Ability1; asking for it always gives Ability2's value; the result's index is 1 exactly when a distinct second ability was asked for |
| Personal.PersonalInfo4.HasSecondAbility | PKHeX.Core/PersonalInfo/Info/PersonalInfo4.cs:57 | true exactly when Ability2 is found at index 1, i.e. differs from Ability1 |
| Personal.PersonalInfo4.SetFormCount | PKHeX.Core/PersonalInfo/Info/PersonalInfo4.cs:60 | the setter ignores its value: no byte changes |
| Personal.PersonalInfo4.FormStatsIndex | PKHeX.Core/PersonalInfo/Info/PersonalInfo4.cs:61 | the unsigned word at 0x2A, in `[0, 0xFFFF]` |
| Personal.PersonalInfo4.SetFormStatsIndex | PKHeX.Core/PersonalInfo/Info/PersonalInfo4.cs:61 | the setter ignores its value: no byte changes |
| Personal.PersonalInfo4.CopyTypeTutors | PKHeX.Core/PersonalInfo/Info/PersonalInfo4.cs:64 | the record now holds the other record's tutor array itself, not a copy |
| Personal.PersonalInfo4.CopiedTutorsAreShared | PKHeX.Core/PersonalInfo/Info/PersonalInfo4.cs:64 | after a copy, a flag set through the copying record is read back through the source record |
| Personal.PersonalInfo4.GetIsLearnTutorType | PKHeX.Core/PersonalInfo/Info/PersonalInfo4.cs:105-110 | false for any index outside `[0, 0x34)`, negative ones included; otherwise the stored flag |
| Personal.PersonalInfo4.SetIsLearnTutorType | PKHeX.Core/PersonalInfo/Info/PersonalInfo4.cs:112-117 | fails with `ArgumentOutOfRange("index", index)` exactly when the index is outside `[0, 0x34)`, leaving the flags alone; otherwise only that flag changes and reads back as given |
| Personal.PersonalInfo4.SetAllLearnTutorType | PKHeX.Core/PersonalInfo/Info/PersonalInfo4.cs:119-126 | afterwards `result[m]` holds exactly when it held before or some set tutor flag's table entry is `m`; the tutor flags are unchanged |
| Personal.PersonalInfo4.Bitmap | PKHeX.Core/PersonalInfo/Info/PersonalInfo4.cs:97 | the bitmap slice is 13 bytes long and holds all 100 machine bits |
| Personal.PersonalInfo4.GetIsLearnTM | PKHeX.Core/PersonalInfo/Info/PersonalInfo4.cs:78-83 | true exactly when the index is in `[0, 92)` and its bit in the bitmap is set |
| Personal.PersonalInfo4.SetIsLearnTM | PKHeX.Core/PersonalInfo/Info/PersonalInfo4.cs:85-93 | outside `[0, 92)` nothing changes; otherwise only the index's byte changes, the bit reads back as given, and every other machine bit and the form count are unchanged |
| Personal.PersonalInfo4.GetIsLearnHM | PKHeX.Core/PersonalInfo/Info/PersonalInfo4.cs:128-134 | true exactly when the index is in `[0, 8)` and bit `92 + index` of the same bitmap is set |
| Personal.PersonalInfo4.FlagsAreQueries | PKHeX.Core/PersonalInfo/Info/PersonalInfo4.cs:78-83 | the flag lists the bulk operations expand agree index by index with `GetIsLearnTM` and `GetIsLearnHM` |
| Personal.PersonalInfo4.SetAllLearnTM | PKHeX.Core/PersonalInfo/Info/PersonalInfo4.cs:95-103 | afterwards `result[m]` holds exactly when it held before or some set technical-machine bit's table entry is `m`; the record is unchanged |
| Personal.PersonalInfo4.SetAllLearnHM | PKHeX.Core/PersonalInfo/Info/PersonalInfo4.cs:136-144 | the same for the hidden-machine bits 92 to 99, with table index `index - 92` |
| Personal.PersonalInfo4.GetPreferredTransferHMs | PKHeX.Core/PersonalInfo/Info/PersonalInfo4.cs:154 | eight moves; with Defog in the moveset the list omits Defog, without it the list omits Whirlpool; the entries other than index 4 are the common ones |
| Personal.PersonalInfo4.HiddenTablesDifferOnlyAtFour | PKHeX.Core/PersonalInfo/Info/PersonalInfo4.cs:199-224 | the two hidden-machine lists agree everywhere except index 4, which is Defog in D/P/Pt and Whirlpool in HG/SS |
| Personal.PersonalInfo4.TutorMoves | PKHeX.Core/PersonalInfo/Info/PersonalInfo4.cs:171-177 | one move per tutor flag: 0x34 entries |
| Personal.PersonalInfo4.MachineMovesTechnical | PKHeX.Core/PersonalInfo/Info/PersonalInfo4.cs:182-194 | one move per technical-machine bit: 92 entries |
| Personal.PersonalInfo4.MachineMovesHiddenDPPt | PKHeX.Core/PersonalInfo/Info/PersonalInfo4.cs:199-209 | one move per hidden-machine bit: 8 entries |
| Personal.PersonalInfo4.MachineMovesHiddenHGSS | PKHeX.Core/PersonalInfo/Info/PersonalInfo4.cs:214-224 | one move per hidden-machine bit: 8 entries |

## Left out

- AddTypeTutors: left out. It builds the tutor array with `FlagUtil.GetBitFlagArray`, and FlagUtil is not part of this model. A client attaches the tutor array by assigning the field `typeTutors`, which stands in for `AddTypeTutors` (the C# setter is private; a Dafny field is not).
- The `PersonalInfo` base class and the `IPersonalAbility12`, `IPersonalInfoTM` and `IPersonalInfoTutorType` interfaces are not part of this model. Only the members `PersonalInfo4` defines or overrides are modelled. `AbilityCount` is the constant `Personal.AbilityCount`.
- `Memory<byte>`/`Span<byte>` plumbing: the record is modelled over a plain byte array. Slicing a larger personal table is not modelled, and `Write` returns a fresh copy.
- The `Move` enumeration is not part of this model. The hidden-machine tables use the enumeration's values (national move numbers) as named constants in module `Moves`.
- The species lists `SpecialTutorBlastBurn`, `SpecialTutorHydroCannon`, `SpecialTutorFrenzyPlant` and `SpecialTutorDracoMeteor` are constants with the source's contents. Nothing is proved about them.
- Personal.PersonalInfo4.SetAllLearnTM: requires that the result array is not the record's byte array. The two have different element types in C#, but the verifier's heap model needs this said.
- Personal.PersonalInfo4.SetAllLearnHM: same requirement as `SetAllLearnTM`.
- Personal.PersonalInfo4.SetAllLearnTutorType: requires that the result array is not the tutor array.
- Personal.PersonalInfo4.SetAllLearnTM, Personal.PersonalInfo4.SetAllLearnHM and Personal.PersonalInfo4.SetAllLearnTutorType require every set flag to have a table entry naming an index of the result. The source would throw `IndexOutOfRangeException` otherwise; that exception path is not modelled.
- Personal.PersonalInfo4.GetIsLearnTutorType and Personal.PersonalInfo4.SetIsLearnTutorType require an in-range index to lie within the attached tutor array. With the initial empty array the source throws `IndexOutOfRangeException`; that path is not modelled.
- Personal.PersonalInfo4.SetAllLearnTutorType requires the attached tutor array to hold at least 0x34 flags, for the same reason.
- The getters of the `byte` properties (`Type1`, `Type2`, `CatchRate`, `Gender`, `HatchCycles`, `BaseFriendship`, `EXPGrowth`, `FormCount`) state nothing beyond the byte they return. Their setters carry the round trip.
