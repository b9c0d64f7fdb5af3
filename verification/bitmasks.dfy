/**
  The six bit-field projections every decoder step is built from
  (src/bitmasks.rs). Each one is total on 16-bit words; the nibble and byte
  projections return a `u8`, the address projection a `u16`.
*/
module Bitmasks {

  /** An unsigned 8-bit value (`u8`). */
  type Byte = bv8

  /** An unsigned 16-bit value (`u16`): one fetched opcode word. */
  type Word = bv16

  /** Top nibble: the opcode class. */
  function MaskF000(opcode: Word): (r: Byte)
    ensures r < 0x10
    ensures (r as Word) << 12 == opcode & 0xF000
  {
    ((opcode >> 12) & 0xF) as Byte
  }

  /** Low byte: an immediate or a sub-opcode selector. */
  function Mask00FF(opcode: Word): (r: Byte)
    ensures (opcode & 0xFF00) | (r as Word) == opcode
  {
    (opcode & 0xFF) as Byte
  }

  /** Second nibble: usually register X. */
  function Mask0F00(opcode: Word): (r: Byte)
    ensures r < 0x10
    ensures (r as Word) << 8 == opcode & 0x0F00
  {
    ((opcode >> 8) & 0xF) as Byte
  }

  /** Low twelve bits: an address. */
  function Mask0FFF(opcode: Word): (r: Word)
    ensures r < 0x1000
    ensures r | (opcode & 0xF000) == opcode
  {
    opcode & 0xFFF
  }

  /** Third nibble: usually register Y. */
  function Mask00F0(opcode: Word): (r: Byte)
    ensures r < 0x10
    ensures (r as Word) << 4 == opcode & 0x00F0
  {
    ((opcode >> 4) & 0xF) as Byte
  }

  /** Low nibble: a sub-opcode selector or a sprite height. */
  function Mask000F(opcode: Word): (r: Byte)
    ensures r < 0x10 && (opcode & 0xFFF0) | (r as Word) == opcode
  {
    (opcode & 0xF) as Byte
  }

  /** The four nibbles, read as base-16 digits, give back the word. */
  lemma NibblesReassemble(opcode: Word)
    ensures (MaskF000(opcode) as Word) * 0x1000 + (Mask0F00(opcode) as Word) * 0x100
            + (Mask00F0(opcode) as Word) * 0x10 + (Mask000F(opcode) as Word) == opcode
  {
  }

  /** The address field is the three low nibbles. */
  lemma AddressIsLowNibbles(opcode: Word)
    ensures Mask0FFF(opcode) == (Mask0F00(opcode) as Word) * 0x100
            + (Mask00F0(opcode) as Word) * 0x10 + (Mask000F(opcode) as Word)
  {
  }

  /** The low byte is the two low nibbles. */
  lemma ByteIsLowNibbles(opcode: Word)
    ensures Mask00FF(opcode) == Mask00F0(opcode) * 0x10 + Mask000F(opcode)
  {
  }

  /** Taking the address of an address changes nothing. */
  lemma AddressIdempotent(opcode: Word)
    ensures Mask0FFF(Mask0FFF(opcode)) == Mask0FFF(opcode)
  {
  }

  /** Two words are equal exactly when all four nibbles are. */
  lemma NibblesDetermineWord(a: Word, b: Word)
    ensures a == b <==>
      && MaskF000(a) == MaskF000(b) && Mask0F00(a) == Mask0F00(b)
      && Mask00F0(a) == Mask00F0(b) && Mask000F(a) == Mask000F(b)
  {
  }
}
