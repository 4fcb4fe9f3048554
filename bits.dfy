/** Facts about 32-bit flag sets. */
module Bits {

  /** OR-ing in `bit` sets it. */
  lemma Sets(flags: bv32, bit: bv32)
    ensures (flags | bit) & bit == bit
  {
  }

  /** OR-ing in a bit that is already set changes nothing. */
  lemma Absorbs(flags: bv32, bit: bv32)
    requires flags & bit == bit
    ensures flags | bit == flags
  {
  }

  /** OR-ing in `bit` keeps every bit already set. */
  lemma Keeps(flags: bv32, bit: bv32)
    ensures (flags | bit) & flags == flags
  {
  }

  /** OR-ing in `bit` leaves the bits outside it alone. */
  lemma Leaves(flags: bv32, bit: bv32, other: bv32)
    requires other & bit == 0
    ensures (flags | bit) & other == flags & other
  {
  }
}
