/** The connection gene: one 32-bit word with bit-packed fields.
    Layout (bit 31 first): unused | in-type | out-type | 7-bit in index | 7-bit out index | 15-bit weight.
    The source wraps an i32; its arithmetic right shift differs from the logical shift of bv32 only
    in the bits shifted in at the top, and every getter masks those away, so the fields agree. */
module Genes {

  type Gene = bv32

  // Field extractors at bit-vector width; every property of the layout is proved at this level.

  function WeightBits(g: Gene): bv15 { (g & 0x7fff) as bv15 }
  function OutIndexBits(g: Gene): bv7 { ((g >> 15) & 0x7f) as bv7 }
  function InIndexBits(g: Gene): bv7 { ((g >> 22) & 0x7f) as bv7 }
  function OutTypeBit(g: Gene): bv1 { ((g >> 29) & 1) as bv1 }
  function InTypeBit(g: Gene): bv1 { ((g >> 30) & 1) as bv1 }
  function TopBit(g: Gene): bv1 { (g >> 31) as bv1 }

  /** Raw 15-bit weight, bits 0-14. */
  function Weight(g: Gene): (w: nat)
    ensures w < 0x8000
  {
    WeightBits(g) as nat
  }

  /** Raw 7-bit output index, bits 15-21. */
  function OutIndex(g: Gene): (i: nat)
    ensures i < 128
  {
    OutIndexBits(g) as nat
  }

  /** Raw 7-bit input index, bits 22-28. */
  function InIndex(g: Gene): (i: nat)
    ensures i < 128
  {
    InIndexBits(g) as nat
  }

  /** Output type, bit 29: 1 is an output sensor, 0 an internal node. */
  function OutType(g: Gene): (t: nat)
    ensures t <= 1
  {
    OutTypeBit(g) as nat
  }

  /** Input type, bit 30: 1 is an input sensor, 0 an internal node. */
  function InType(g: Gene): (t: nat)
    ensures t <= 1
  {
    InTypeBit(g) as nat
  }

  /** The divisor of the float weight: `i16::MAX / 4` in integer arithmetic. */
  const WEIGHT_SCALE: int := 32767 / 4

  /** Weight centred on 0x4000 and scaled by 1/8191. */
  function WeightF(g: Gene): (r: real)
    ensures -16384.0 / 8191.0 <= r <= 16383.0 / 8191.0
    ensures r * 8191.0 == (Weight(g) - 0x4000) as real
    ensures r == 0.0 <==> Weight(g) == 0x4000
  {
    (Weight(g) - 0x4000) as real / WEIGHT_SCALE as real
  }

  /** Bit `i` of a gene. */
  function Bit(g: Gene, i: bv5): bv1 { ((g >> i) & 1) as bv1 }

  /** Toggles bit `pos`; a shift of an i32 is only defined below 32, which the 5-bit position encodes.
      Exactly that bit changes. */
  function FlipBit(g: Gene, pos: bv5): (r: Gene)
    ensures r != g && (r ^ g) & ((r ^ g) - 1) == 0
    ensures Bit(r, pos) != Bit(g, pos)
  {
    g ^ (1 << pos)
  }

  /** Re-packs the five fields and the top bit into one word. */
  function Pack(w: bv15, outIndex: bv7, inIndex: bv7, outType: bv1, inType: bv1, top: bv1): Gene
  {
    ((top as bv32) << 31) | ((inType as bv32) << 30) | ((outType as bv32) << 29)
      | ((inIndex as bv32) << 22) | ((outIndex as bv32) << 15) | (w as bv32)
  }

  /** The fields cover all 32 bits without overlap: unpacking then packing gives the gene back. */
  lemma PackUnpack(g: Gene)
    ensures Pack(WeightBits(g), OutIndexBits(g), InIndexBits(g), OutTypeBit(g), InTypeBit(g), TopBit(g)) == g
  {
  }

  /** Packing then unpacking gives every field back. */
  lemma UnpackPack(w: bv15, outIndex: bv7, inIndex: bv7, outType: bv1, inType: bv1, top: bv1)
    ensures var g := Pack(w, outIndex, inIndex, outType, inType, top);
      WeightBits(g) == w && OutIndexBits(g) == outIndex && InIndexBits(g) == inIndex
      && OutTypeBit(g) == outType && InTypeBit(g) == inType && TopBit(g) == top
  {
  }

  /** Flipping twice restores the gene. */
  lemma FlipBitInvolution(g: Gene, pos: bv5)
    ensures FlipBit(FlipBit(g, pos), pos) == g
  {
  }

  /** A flip inside bits 0-14 changes only the weight, which goes up by 2^pos when the bit was clear
      and down by 2^pos when it was set. */
  lemma FlipWeightBit(g: Gene, pos: bv5)
    requires pos <= 14
    ensures var f := FlipBit(g, pos); var step: bv15 := 1 << pos;
      && (if g & (1 << pos) == 0 then WeightBits(f) == WeightBits(g) + step
          else WeightBits(f) == WeightBits(g) - step)
      && OutIndexBits(f) == OutIndexBits(g) && InIndexBits(f) == InIndexBits(g)
      && OutTypeBit(f) == OutTypeBit(g) && InTypeBit(f) == InTypeBit(g) && TopBit(f) == TopBit(g)
  {
  }

  /** A flip inside bits 15-21 toggles one bit of the output index and nothing else. */
  lemma FlipOutIndexBit(g: Gene, pos: bv5)
    requires 15 <= pos <= 21
    ensures var f := FlipBit(g, pos);
      && OutIndexBits(f) == OutIndexBits(g) ^ (1 << (pos - 15))
      && WeightBits(f) == WeightBits(g) && InIndexBits(f) == InIndexBits(g)
      && OutTypeBit(f) == OutTypeBit(g) && InTypeBit(f) == InTypeBit(g) && TopBit(f) == TopBit(g)
  {
  }

  /** A flip inside bits 22-28 toggles one bit of the input index and nothing else. */
  lemma FlipInIndexBit(g: Gene, pos: bv5)
    requires 22 <= pos <= 28
    ensures var f := FlipBit(g, pos);
      && InIndexBits(f) == InIndexBits(g) ^ (1 << (pos - 22))
      && WeightBits(f) == WeightBits(g) && OutIndexBits(f) == OutIndexBits(g)
      && OutTypeBit(f) == OutTypeBit(g) && InTypeBit(f) == InTypeBit(g) && TopBit(f) == TopBit(g)
  {
  }

  /** Bit 29 is the output type and nothing else. */
  lemma FlipOutTypeBit(g: Gene)
    ensures var f := FlipBit(g, 29);
      && OutTypeBit(f) == !OutTypeBit(g)
      && WeightBits(f) == WeightBits(g) && OutIndexBits(f) == OutIndexBits(g) && InIndexBits(f) == InIndexBits(g)
      && InTypeBit(f) == InTypeBit(g) && TopBit(f) == TopBit(g)
  {
  }

  /** Bit 30 is the input type and nothing else. */
  lemma FlipInTypeBit(g: Gene)
    ensures var f := FlipBit(g, 30);
      && InTypeBit(f) == !InTypeBit(g)
      && WeightBits(f) == WeightBits(g) && OutIndexBits(f) == OutIndexBits(g) && InIndexBits(f) == InIndexBits(g)
      && OutTypeBit(f) == OutTypeBit(g) && TopBit(f) == TopBit(g)
  {
  }

  /** The unit-test gene 0b010_1001001_1111010_000011010000011 and its bit flips. */
  lemma TestVector()
    ensures var g: Gene := 1383925379;
      && Weight(g) == 1667 && OutIndex(g) == 122 && InIndex(g) == 73
      && OutType(g) == 0 && InType(g) == 1
      && InType(FlipBit(g, 30)) == 0 && OutType(FlipBit(g, 29)) == 1
      && Weight(FlipBit(g, 12)) == 5763
  {
  }
}
