/** Octets and the four of them that spell a block number (section 5.2 of RFC 8018). */
module Octets {

  type Bytes = seq<bv8>

  /** Four octets of a 32-bit word, most significant first. */
  function Spell(w: bv32): Bytes {
    [((w >> 24) & 0xff) as bv8, ((w >> 16) & 0xff) as bv8, ((w >> 8) & 0xff) as bv8, (w & 0xff) as bv8]
  }

  /** The octets side by side are the word again. */
  lemma SpellsOut(w: bv32)
    ensures var b := Spell(w);
            ((b[0] as bv32) << 24) | ((b[1] as bv32) << 16) | ((b[2] as bv32) << 8) | (b[3] as bv32) == w
  {}

  /** INT (i). */
  function Int32(i: nat): Bytes { Spell((i % 0x1_0000_0000) as bv32) }
}
