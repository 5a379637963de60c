/** Learn-compatibility flags and their expansion into move identifiers.

    A record keeps one flag per machine or tutor index; a static table maps each index to
    a move identifier. The `SetAllLearn*` operations walk the indices and mark, in an array
    keyed by move identifier, every move whose index is flagged. */
module Learnsets {
  import opened Bits

  /** Bit `i` of a bitmap stored least significant bit first:
      `(bytes[i >> 3] & (1 << (i & 7))) != 0`, which is the low bit of that byte shifted
      right by `i & 7`. */
  function BitmapBit(bytes: seq<bv8>, i: nat): (r: bool)
    requires i < 8 * |bytes|
    ensures r <==> (bytes[i / 8] >> (i % 8)) & 1 == 1
  {
    BitAt(bytes[i / 8], i % 8)
  }

  /** Replacing one byte of a bitmap changes only the bits that byte holds. */
  lemma BitmapBitAfterStore(bytes: seq<bv8>, at: nat, b: bv8, j: nat)
    requires at < |bytes| && j < 8 * |bytes|
    ensures BitmapBit(bytes[at := b], j) == if j / 8 == at then BitAt(b, j % 8) else BitmapBit(bytes, j)
  {
  }

  /** Storing one bit of a bitmap: that bit reads back as stored and every other bit keeps
      its value. */
  lemma BitmapStoreBit(bytes: seq<bv8>, i: nat, value: bool)
    requires i < 8 * |bytes|
    ensures var after := bytes[i / 8 := WithBit(bytes[i / 8], i % 8, value)];
            BitmapBit(after, i) == value &&
            forall j :: 0 <= j < 8 * |bytes| && j != i ==> BitmapBit(after, j) == BitmapBit(bytes, j)
  {
    var stored := WithBit(bytes[i / 8], i % 8, value);
    var after := bytes[i / 8 := stored];
    forall j | 0 <= j < 8 * |bytes| && j != i
      ensures BitmapBit(after, j) == BitmapBit(bytes, j)
    {
      BitmapBitAfterStore(bytes, i / 8, stored, j);
    }
    BitmapBitAfterStore(bytes, i / 8, stored, i);
  }

  /** Bits `from` to `from + count - 1` of a bitmap, as a sequence of flags. */
  function Flags(bytes: seq<bv8>, from: nat, count: nat): seq<bool>
    requires from + count <= 8 * |bytes|
  {
    seq(count, k requires 0 <= k < count => BitmapBit(bytes, from + k))
  }

  /** Every flagged index has an entry in the move table, and that move is an index of
      the result array; otherwise the source's span accesses would throw. */
  ghost predicate Fits(flags: seq<bool>, moves: seq<uint16>, size: nat)
  {
    forall i :: 0 <= i < |flags| && flags[i] ==> i < |moves| && moves[i] < size
  }

  /** Move `m` is the move of some flagged index. */
  ghost predicate Taught(flags: seq<bool>, moves: seq<uint16>, m: int)
  {
    exists i :: 0 <= i < |flags| && flags[i] && i < |moves| && moves[i] == m
  }

  /** The loop of the `SetAllLearn*` operations: from the last index down to the first,
      a set flag marks `result[moves[index]]`; nothing is ever cleared. */
  function Expand(result: seq<bool>, flags: seq<bool>, moves: seq<uint16>): (r: seq<bool>)
    requires Fits(flags, moves, |result|)
    ensures |r| == |result|
    ensures forall m :: 0 <= m < |result| && result[m] ==> r[m]
    decreases |flags|
  {
    if flags == [] then result
    else
      var i := |flags| - 1;
      Expand(if flags[i] then result[moves[i] := true] else result, flags[..i], moves)
  }

  /** One step of the walk: handling index `i` and then the indices below it is the
      expansion of the first `i + 1` flags. */
  lemma ExpandStep(result: seq<bool>, flags: seq<bool>, moves: seq<uint16>, i: nat)
    requires i < |flags|
    requires Fits(flags[..i + 1], moves, |result|)
    ensures Fits(flags[..i], moves, |result|)
    ensures flags[i] ==> moves[i] < |result|
    ensures Expand(if flags[i] then result[moves[i] := true] else result, flags[..i], moves)
            == Expand(result, flags[..i + 1], moves)
  {
    assert flags[..i + 1][..i] == flags[..i];
    assert flags[..i + 1][i] == flags[i];
  }

  /** Dropping the last flag: a move is taught by all the flags exactly when it is taught by
      the others or by the last one. */
  lemma TaughtSplit(flags: seq<bool>, moves: seq<uint16>, m: int)
    requires flags != []
    ensures Taught(flags, moves, m) <==>
              Taught(flags[..|flags| - 1], moves, m) ||
              (flags[|flags| - 1] && |flags| - 1 < |moves| && moves[|flags| - 1] == m)
  {
    var i := |flags| - 1;
    if Taught(flags, moves, m) {
      var j :| 0 <= j < |flags| && flags[j] && j < |moves| && moves[j] == m;
      if j < i {
        assert flags[..i][j];
      }
    }
    if Taught(flags[..i], moves, m) {
      var j :| 0 <= j < i && flags[..i][j] && j < |moves| && moves[j] == m;
      assert flags[j];
    }
  }

  /** What the expansion computes: a move is marked afterwards exactly when it was marked
      before or some flagged index maps to it. The direction of the walk does not matter. */
  lemma {:induction false} ExpandTaught(result: seq<bool>, flags: seq<bool>, moves: seq<uint16>, m: int)
    requires Fits(flags, moves, |result|)
    requires 0 <= m < |result|
    ensures Expand(result, flags, moves)[m] <==> result[m] || Taught(flags, moves, m)
    decreases |flags|
  {
    if flags != [] {
      var i := |flags| - 1;
      var next := if flags[i] then result[moves[i] := true] else result;
      ExpandTaught(next, flags[..i], moves, m);
      TaughtSplit(flags, moves, m);
    }
  }
}
