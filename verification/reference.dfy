/**
  A second classifier, written without the table: a nested case analysis on
  the nibbles in the manner of section 3.1 of Cowgod's CHIP-8 Technical
  Reference, with the table's own choices where the two differ (a zero word
  is rejected, and in class E any word whose low nibble is 1 is taken by
  the `EXA1` handler). `DecoderProperties` proves the table-driven decoder
  equal to it.
*/
module Reference {
  import opened Wrappers
  import opened Bitmasks
  import opened Instructions
  import opened Opcodes

  /** The sub-opcodes of class 8, keyed by the low nibble. */
  function ArithmeticFamily(n: Nibble): Option<Family> {
    if n == 0x0 then Some(Op8XY0)
    else if n == 0x1 then Some(Op8XY1)
    else if n == 0x2 then Some(Op8XY2)
    else if n == 0x3 then Some(Op8XY3)
    else if n == 0x4 then Some(Op8XY4)
    else if n == 0x5 then Some(Op8XY5)
    else if n == 0x6 then Some(Op8XY6)
    else if n == 0x7 then Some(Op8XY7)
    else if n == 0xE then Some(Op8XYE)
    else None
  }

  /** The sub-opcodes of class F, keyed by the low byte. */
  function MiscellaneousFamily(kk: Data): Option<Family> {
    if kk == 0x07 then Some(OpFX07)
    else if kk == 0x0A then Some(OpFX0A)
    else if kk == 0x15 then Some(OpFX15)
    else if kk == 0x18 then Some(OpFX18)
    else if kk == 0x1E then Some(OpFX1E)
    else if kk == 0x29 then Some(OpFX29)
    else if kk == 0x33 then Some(OpFX33)
    else if kk == 0x55 then Some(OpFX55)
    else if kk == 0x65 then Some(OpFX65)
    else None
  }

  /** Which handler a word belongs to: the class nibble first, then the sub-opcode field of the class. */
  function Classify(w: Word): Option<Family> {
    var c, n, kk := MaskF000(w), Mask000F(w), Mask00FF(w);
    if c == 0x0 then
      if w == 0x0000 then None
      else if w == 0x00E0 then Some(Op00E0)
      else if w == 0x00EE then Some(Op00EE)
      else Some(Op0NNN)
    else if c == 0x1 then Some(Op1NNN)
    else if c == 0x2 then Some(Op2NNN)
    else if c == 0x3 then Some(Op3XNN)
    else if c == 0x4 then Some(Op4XNN)
    else if c == 0x5 then (if n == 0x0 then Some(Op5XY0) else None)
    else if c == 0x6 then Some(Op6XNN)
    else if c == 0x7 then Some(Op7XNN)
    else if c == 0x8 then ArithmeticFamily(n)
    else if c == 0x9 then (if n == 0x0 then Some(Op9XY0) else None)
    else if c == 0xA then Some(OpANNN)
    else if c == 0xB then Some(OpBNNN)
    else if c == 0xC then Some(OpCXNN)
    else if c == 0xD then Some(OpDXYN)
    else if c == 0xE then
      if kk == 0x9E then Some(OpEX9E)
      else if n == 0x1 then Some(OpEXA1)
      else None
    else MiscellaneousFamily(kk)
  }

  /** The decoder the classifier describes: the chosen handler builds the instruction, and a word without one is the error. */
  function ReferenceDecode(w: Word): Result<Instruction, Word> {
    match Classify(w)
    case Some(f) => Success(Build(f, w))
    case None => Failure(w)
  }
}
