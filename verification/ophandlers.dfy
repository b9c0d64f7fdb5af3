/**
  The 35 per-family operand builders of src/ophandlers.rs. Each takes the
  whole opcode word and builds one instruction from the fields the family
  encodes, read through the projections of `Bitmasks`.

  Every contract says which bits of the word survive: re-encoding the result
  gives the family's canonical word with exactly those operand bits of the
  input filled in, and nothing else.
*/
module OpHandlers {
  import opened Wrappers
  import opened Bitmasks
  import opened Instructions


  /** `00E0`: the word carries no operands, so it is ignored. */
  function Handle00E0(opcode: Word): (r: Instruction)
    ensures r.ClearScreen?
    ensures Encode(r) == Some(0x00E0)
  {
    ClearScreen
  }

  /** `00EE`: the word carries no operands, so it is ignored. */
  function Handle00EE(opcode: Word): (r: Instruction)
    ensures r.Return?
    ensures Encode(r) == Some(0x00EE)
  {
    Return
  }

  /** `0NNN`: the word is ignored and the address is not kept. */
  function Handle0NNN(opcode: Word): (r: Instruction)
    ensures r == SYS && Encode(r) == None
  {
    SYS
  }

  /** `1NNN`: keeps the 12-bit address. */
  function Handle1NNN(opcode: Word): (r: Instruction)
    ensures r.Jump? && WellFormed(r)
    ensures Encode(r) == Some(0x1000 | (opcode & 0x0FFF))
  {
    Jump(Mask0FFF(opcode))
  }

  /** `2NNN`: keeps the 12-bit address. */
  function Handle2NNN(opcode: Word): (r: Instruction)
    ensures r.Call? && WellFormed(r)
    ensures Encode(r) == Some(0x2000 | (opcode & 0x0FFF))
  {
    Call(Mask0FFF(opcode))
  }

  /** `3XNN`: keeps register X and the low byte. */
  function Handle3XNN(opcode: Word): (r: Instruction)
    ensures r.SkipEqualsByte? && WellFormed(r)
    ensures Encode(r) == Some(0x3000 | (opcode & 0x0FFF))
  {
    SkipEqualsByte(Mask0F00(opcode), Mask00FF(opcode))
  }

  /** `4XNN`: keeps register X and the low byte. */
  function Handle4XNN(opcode: Word): (r: Instruction)
    ensures r.SkipNotEqualsByte? && WellFormed(r)
    ensures Encode(r) == Some(0x4000 | (opcode & 0x0FFF))
  {
    SkipNotEqualsByte(Mask0F00(opcode), Mask00FF(opcode))
  }

  /** `5XY0`: keeps registers X and Y. */
  function Handle5XY0(opcode: Word): (r: Instruction)
    ensures r.SkipEqualsRegister? && WellFormed(r)
    ensures Encode(r) == Some(0x5000 | (opcode & 0x0FF0))
  {
    SkipEqualsRegister(Mask0F00(opcode), Mask00F0(opcode))
  }

  /** `6XNN`: keeps register X and the low byte. */
  function Handle6XNN(opcode: Word): (r: Instruction)
    ensures r.LoadByte? && WellFormed(r)
    ensures Encode(r) == Some(0x6000 | (opcode & 0x0FFF))
  {
    LoadByte(Mask0F00(opcode), Mask00FF(opcode))
  }

  /** `7XNN`: keeps register X and the low byte. */
  function Handle7XNN(opcode: Word): (r: Instruction)
    ensures r.AddByte? && WellFormed(r)
    ensures Encode(r) == Some(0x7000 | (opcode & 0x0FFF))
  {
    AddByte(Mask0F00(opcode), Mask00FF(opcode))
  }

  /** `8XY0`: keeps registers X and Y. */
  function Handle8XY0(opcode: Word): (r: Instruction)
    ensures r.LoadRegister? && WellFormed(r)
    ensures Encode(r) == Some(0x8000 | (opcode & 0x0FF0))
  {
    LoadRegister(Mask0F00(opcode), Mask00F0(opcode))
  }

  /** `8XY1`: keeps registers X and Y. */
  function Handle8XY1(opcode: Word): (r: Instruction)
    ensures r.Or? && WellFormed(r)
    ensures Encode(r) == Some(0x8001 | (opcode & 0x0FF0))
  {
    Or(Mask0F00(opcode), Mask00F0(opcode))
  }

  /** `8XY2`: keeps registers X and Y. */
  function Handle8XY2(opcode: Word): (r: Instruction)
    ensures r.And? && WellFormed(r)
    ensures Encode(r) == Some(0x8002 | (opcode & 0x0FF0))
  {
    And(Mask0F00(opcode), Mask00F0(opcode))
  }

  /** `8XY3`: keeps registers X and Y. */
  function Handle8XY3(opcode: Word): (r: Instruction)
    ensures r.Xor? && WellFormed(r)
    ensures Encode(r) == Some(0x8003 | (opcode & 0x0FF0))
  {
    Xor(Mask0F00(opcode), Mask00F0(opcode))
  }

  /** `8XY4`: keeps registers X and Y. */
  function Handle8XY4(opcode: Word): (r: Instruction)
    ensures r.AddRegister? && WellFormed(r)
    ensures Encode(r) == Some(0x8004 | (opcode & 0x0FF0))
  {
    AddRegister(Mask0F00(opcode), Mask00F0(opcode))
  }

  /** `8XY5`: keeps registers X and Y. */
  function Handle8XY5(opcode: Word): (r: Instruction)
    ensures r.SubRegister? && WellFormed(r)
    ensures Encode(r) == Some(0x8005 | (opcode & 0x0FF0))
  {
    SubRegister(Mask0F00(opcode), Mask00F0(opcode))
  }

  /** `8XY6`: keeps register X only; Y is dropped. */
  function Handle8XY6(opcode: Word): (r: Instruction)
    ensures r.ShiftRight? && WellFormed(r)
    ensures Encode(r) == Some(0x8006 | (opcode & 0x0F00))
  {
    ShiftRight(Mask0F00(opcode))
  }

  /** `8XY7`: keeps registers X and Y. */
  function Handle8XY7(opcode: Word): (r: Instruction)
    ensures r.SubNRegister? && WellFormed(r)
    ensures Encode(r) == Some(0x8007 | (opcode & 0x0FF0))
  {
    SubNRegister(Mask0F00(opcode), Mask00F0(opcode))
  }

  /** `8XYE`: keeps register X only; Y is dropped. */
  function Handle8XYE(opcode: Word): (r: Instruction)
    ensures r.ShiftLeft? && WellFormed(r)
    ensures Encode(r) == Some(0x800E | (opcode & 0x0F00))
  {
    ShiftLeft(Mask0F00(opcode))
  }

  /** `9XY0`: keeps registers X and Y. */
  function Handle9XY0(opcode: Word): (r: Instruction)
    ensures r.SkipNotEqualRegister? && WellFormed(r)
    ensures Encode(r) == Some(0x9000 | (opcode & 0x0FF0))
  {
    SkipNotEqualRegister(Mask0F00(opcode), Mask00F0(opcode))
  }

  /** `ANNN`: keeps the 12-bit address. */
  function HandleANNN(opcode: Word): (r: Instruction)
    ensures r.LoadImmediate? && WellFormed(r)
    ensures Encode(r) == Some(0xA000 | (opcode & 0x0FFF))
  {
    LoadImmediate(Mask0FFF(opcode))
  }

  /** `BNNN`: keeps the 12-bit address. */
  function HandleBNNN(opcode: Word): (r: Instruction)
    ensures r.JumpBase? && WellFormed(r)
    ensures Encode(r) == Some(0xB000 | (opcode & 0x0FFF))
  {
    JumpBase(Mask0FFF(opcode))
  }

  /** `CXNN`: keeps register X and the low byte. */
  function HandleCXNN(opcode: Word): (r: Instruction)
    ensures r.Random? && WellFormed(r)
    ensures Encode(r) == Some(0xC000 | (opcode & 0x0FFF))
  {
    Random(Mask0F00(opcode), Mask00FF(opcode))
  }

  /** `DXYN`: keeps X, Y and the height N. */
  function HandleDXYN(opcode: Word): (r: Instruction)
    ensures r.DisplaySprite? && WellFormed(r)
    ensures Encode(r) == Some(0xD000 | (opcode & 0x0FFF))
  {
    DisplaySprite(Mask0F00(opcode), Mask00F0(opcode), Mask000F(opcode))
  }

  /** `EX9E`: keeps register X only. */
  function HandleEX9E(opcode: Word): (r: Instruction)
    ensures r.SkipKeyPress? && WellFormed(r)
    ensures Encode(r) == Some(0xE09E | (opcode & 0x0F00))
  {
    SkipKeyPress(Mask0F00(opcode))
  }

  /** `EXA1`: keeps register X only; re-encodes to the canonical `ExA1`. */
  function HandleEXA1(opcode: Word): (r: Instruction)
    ensures r.SkipNotKeyPress? && WellFormed(r)
    ensures Encode(r) == Some(0xE0A1 | (opcode & 0x0F00))
  {
    SkipNotKeyPress(Mask0F00(opcode))
  }

  /** `FX07`: keeps register X only. */
  function HandleFX07(opcode: Word): (r: Instruction)
    ensures r.LoadFromDelay? && WellFormed(r)
    ensures Encode(r) == Some(0xF007 | (opcode & 0x0F00))
  {
    LoadFromDelay(Mask0F00(opcode))
  }

  /** `FX0A`: keeps register X only. */
  function HandleFX0A(opcode: Word): (r: Instruction)
    ensures r.LoadKeyPress? && WellFormed(r)
    ensures Encode(r) == Some(0xF00A | (opcode & 0x0F00))
  {
    LoadKeyPress(Mask0F00(opcode))
  }

  /** `FX15`: keeps register X only. */
  function HandleFX15(opcode: Word): (r: Instruction)
    ensures r.LoadDelay? && WellFormed(r)
    ensures Encode(r) == Some(0xF015 | (opcode & 0x0F00))
  {
    LoadDelay(Mask0F00(opcode))
  }

  /** `FX18`: keeps register X only. */
  function HandleFX18(opcode: Word): (r: Instruction)
    ensures r.LoadSound? && WellFormed(r)
    ensures Encode(r) == Some(0xF018 | (opcode & 0x0F00))
  {
    LoadSound(Mask0F00(opcode))
  }

  /** `FX1E`: keeps register X only. */
  function HandleFX1E(opcode: Word): (r: Instruction)
    ensures r.AddI? && WellFormed(r)
    ensures Encode(r) == Some(0xF01E | (opcode & 0x0F00))
  {
    AddI(Mask0F00(opcode))
  }

  /** `FX29`: keeps register X only. */
  function HandleFX29(opcode: Word): (r: Instruction)
    ensures r.LoadFontSprite? && WellFormed(r)
    ensures Encode(r) == Some(0xF029 | (opcode & 0x0F00))
  {
    LoadFontSprite(Mask0F00(opcode))
  }

  /** `FX33`: keeps register X only. */
  function HandleFX33(opcode: Word): (r: Instruction)
    ensures r.LoadIBCD? && WellFormed(r)
    ensures Encode(r) == Some(0xF033 | (opcode & 0x0F00))
  {
    LoadIBCD(Mask0F00(opcode))
  }

  /** `FX55`: keeps register X only. */
  function HandleFX55(opcode: Word): (r: Instruction)
    ensures r.StoreRegisters? && WellFormed(r)
    ensures Encode(r) == Some(0xF055 | (opcode & 0x0F00))
  {
    StoreRegisters(Mask0F00(opcode))
  }

  /** `FX65`: keeps register X only. */
  function HandleFX65(opcode: Word): (r: Instruction)
    ensures r.LoadRegisters? && WellFormed(r)
    ensures Encode(r) == Some(0xF065 | (opcode & 0x0F00))
  {
    LoadRegisters(Mask0F00(opcode))
  }

  /** The constant handlers ignore the word altogether. */
  lemma ConstantHandlersIgnoreWord(a: Word, b: Word)
    ensures Handle00E0(a) == Handle00E0(b) && Handle00EE(a) == Handle00EE(b) && Handle0NNN(a) == Handle0NNN(b)
  {}

  /** The address handlers give the same instruction for words that agree on the twelve low bits. */
  lemma AddressDecides(a: Word, b: Word)
    requires a & 0x0FFF == b & 0x0FFF
    ensures Handle1NNN(a) == Handle1NNN(b) && Handle2NNN(a) == Handle2NNN(b)
    ensures HandleANNN(a) == HandleANNN(b) && HandleBNNN(a) == HandleBNNN(b)
  {
    assert Mask0FFF(a) == Mask0FFF(b);
  }

  /** The register-and-byte handlers, and `DXYN`, give the same instruction for words that agree on the twelve low bits. */
  lemma LowTwelveBitsDecide(a: Word, b: Word)
    requires a & 0x0FFF == b & 0x0FFF
    ensures Handle3XNN(a) == Handle3XNN(b) && Handle4XNN(a) == Handle4XNN(b)
    ensures Handle6XNN(a) == Handle6XNN(b) && Handle7XNN(a) == Handle7XNN(b)
    ensures HandleCXNN(a) == HandleCXNN(b) && HandleDXYN(a) == HandleDXYN(b)
  {
    assert Mask0F00(a) == Mask0F00(b) && Mask00FF(a) == Mask00FF(b);
    assert Mask00F0(a) == Mask00F0(b) && Mask000F(a) == Mask000F(b);
  }

  /** Handlers that read X and Y give the same instruction for words that agree on the middle byte. */
  lemma MiddleByteDecides(a: Word, b: Word)
    requires a & 0x0FF0 == b & 0x0FF0
    ensures Handle5XY0(a) == Handle5XY0(b) && Handle9XY0(a) == Handle9XY0(b)
    ensures Handle8XY0(a) == Handle8XY0(b) && Handle8XY1(a) == Handle8XY1(b)
    ensures Handle8XY2(a) == Handle8XY2(b) && Handle8XY3(a) == Handle8XY3(b)
    ensures Handle8XY4(a) == Handle8XY4(b) && Handle8XY5(a) == Handle8XY5(b)
    ensures Handle8XY7(a) == Handle8XY7(b)
  {
    assert Mask0F00(a) == Mask0F00(b) && Mask00F0(a) == Mask00F0(b);
  }

  /** Handlers that read only X, the two shifts included, give the same instruction for words that agree on X. */
  lemma SecondNibbleDecides(a: Word, b: Word)
    requires a & 0x0F00 == b & 0x0F00
    ensures Handle8XY6(a) == Handle8XY6(b) && Handle8XYE(a) == Handle8XYE(b)
    ensures HandleEX9E(a) == HandleEX9E(b) && HandleEXA1(a) == HandleEXA1(b)
    ensures HandleFX07(a) == HandleFX07(b) && HandleFX0A(a) == HandleFX0A(b)
    ensures HandleFX15(a) == HandleFX15(b) && HandleFX18(a) == HandleFX18(b)
    ensures HandleFX1E(a) == HandleFX1E(b) && HandleFX29(a) == HandleFX29(b)
    ensures HandleFX33(a) == HandleFX33(b) && HandleFX55(a) == HandleFX55(b)
    ensures HandleFX65(a) == HandleFX65(b)
  {
    assert Mask0F00(a) == Mask0F00(b);
  }
}
