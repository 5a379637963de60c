/** The move identifiers the hidden-machine tables name. They are the national move
    numbers of the `Move` enumeration; the model relies only on their being distinct. */
module Moves {
  import opened Bits

  const Cut: uint16 := 15
  const Fly: uint16 := 19
  const Surf: uint16 := 57
  const Strength: uint16 := 70
  const Waterfall: uint16 := 127
  const RockSmash: uint16 := 249
  const Whirlpool: uint16 := 250
  const RockClimb: uint16 := 431
  const Defog: uint16 := 432
}
