/**
  The closed set of 35 decodable operations (the `InstructionV2` enum of
  src/opcodesv2.rs) with the operands each one carries, and the canonical
  opcode word of each one as listed in section 3.1 of Cowgod's CHIP-8
  Technical Reference.
*/
module Instructions {
  import opened Wrappers
  import opened Bitmasks

  /** A 12-bit memory address, held in a `u16`. */
  type Address = Word

  /** A register index 0..15, held in a `u8`. */
  type Register = Byte

  /** An 8-bit immediate. */
  type Data = Byte

  /** The 4-bit sprite height of `DisplaySprite`, held in a `u8`. */
  type Nibble = Byte

  datatype Instruction =
    | ClearScreen                                    // 00E0 CLS
    | Return                                         // 00EE RET
    | SYS                                            // 0nnn SYS addr (address dropped)
    | Jump(addr: Address)                            // 1nnn JP addr
    | Call(addr: Address)                            // 2nnn CALL addr
    | SkipEqualsByte(x: Register, kk: Data)          // 3xkk SE Vx, byte
    | SkipNotEqualsByte(x: Register, kk: Data)       // 4xkk SNE Vx, byte
    | SkipEqualsRegister(x: Register, y: Register)   // 5xy0 SE Vx, Vy
    | LoadByte(x: Register, kk: Data)                // 6xkk LD Vx, byte
    | AddByte(x: Register, kk: Data)                 // 7xkk ADD Vx, byte
    | LoadRegister(x: Register, y: Register)         // 8xy0 LD Vx, Vy
    | Or(x: Register, y: Register)                   // 8xy1 OR Vx, Vy
    | And(x: Register, y: Register)                  // 8xy2 AND Vx, Vy
    | Xor(x: Register, y: Register)                  // 8xy3 XOR Vx, Vy
    | AddRegister(x: Register, y: Register)          // 8xy4 ADD Vx, Vy
    | SubRegister(x: Register, y: Register)          // 8xy5 SUB Vx, Vy
    | ShiftRight(x: Register)                        // 8xy6 SHR Vx
    | SubNRegister(x: Register, y: Register)         // 8xy7 SUBN Vx, Vy
    | ShiftLeft(x: Register)                         // 8xyE SHL Vx
    | SkipNotEqualRegister(x: Register, y: Register) // 9xy0 SNE Vx, Vy
    | LoadImmediate(addr: Address)                   // Annn LD I, addr
    | JumpBase(addr: Address)                        // Bnnn JP V0, addr
    | Random(x: Register, kk: Data)                  // Cxkk RND Vx, byte
    | DisplaySprite(x: Register, y: Register, n: Nibble) // Dxyn DRW Vx, Vy, nibble
    | SkipKeyPress(x: Register)                      // Ex9E SKP Vx
    | SkipNotKeyPress(x: Register)                   // ExA1 SKNP Vx
    | LoadFromDelay(x: Register)                     // Fx07 LD Vx, DT
    | LoadKeyPress(x: Register)                      // Fx0A LD Vx, K
    | LoadDelay(x: Register)                         // Fx15 LD DT, Vx
    | LoadSound(x: Register)                         // Fx18 LD ST, Vx
    | AddI(x: Register)                              // Fx1E ADD I, Vx
    | LoadFontSprite(x: Register)                    // Fx29 LD F, Vx
    | LoadIBCD(x: Register)                          // Fx33 LD B, Vx
    | StoreRegisters(x: Register)                    // Fx55 LD [I], Vx
    | LoadRegisters(x: Register)                     // Fx65 LD Vx, [I]

  /** Every operand fits the field it is encoded in: addresses 12 bits, registers and heights 4 bits. */
  predicate WellFormed(i: Instruction) {
    match i
    case ClearScreen | Return | SYS => true
    case Jump(a) => a < 0x1000
    case Call(a) => a < 0x1000
    case LoadImmediate(a) => a < 0x1000
    case JumpBase(a) => a < 0x1000
    case SkipEqualsByte(x, _) => x < 0x10
    case SkipNotEqualsByte(x, _) => x < 0x10
    case LoadByte(x, _) => x < 0x10
    case AddByte(x, _) => x < 0x10
    case Random(x, _) => x < 0x10
    case SkipEqualsRegister(x, y) => x < 0x10 && y < 0x10
    case LoadRegister(x, y) => x < 0x10 && y < 0x10
    case Or(x, y) => x < 0x10 && y < 0x10
    case And(x, y) => x < 0x10 && y < 0x10
    case Xor(x, y) => x < 0x10 && y < 0x10
    case AddRegister(x, y) => x < 0x10 && y < 0x10
    case SubRegister(x, y) => x < 0x10 && y < 0x10
    case SubNRegister(x, y) => x < 0x10 && y < 0x10
    case SkipNotEqualRegister(x, y) => x < 0x10 && y < 0x10
    case DisplaySprite(x, y, n) => x < 0x10 && y < 0x10 && n < 0x10
    case ShiftRight(_) | ShiftLeft(_) | SkipKeyPress(_) | SkipNotKeyPress(_)
       | LoadFromDelay(_) | LoadKeyPress(_) | LoadDelay(_) | LoadSound(_) | AddI(_)
       | LoadFontSprite(_) | LoadIBCD(_) | StoreRegisters(_) | LoadRegisters(_) => i.x < 0x10
  }

  /** Pattern `pnnn`. */
  function WithAddress(pattern: Word, nnn: Address): Word {
    pattern | nnn
  }

  /** Pattern `pxkk`. */
  function WithRegisterAndByte(pattern: Word, x: Register, kk: Data): Word {
    pattern | ((x as Word) << 8) | (kk as Word)
  }

  /** Pattern `pxyq`, with a nibble `n` in the low position (zero for most families). */
  function WithRegisters(pattern: Word, x: Register, y: Register, n: Nibble): Word {
    pattern | ((x as Word) << 8) | ((y as Word) << 4) | (n as Word)
  }

  /** Pattern `pxqq`. */
  function WithRegister(pattern: Word, x: Register): Word {
    pattern | ((x as Word) << 8)
  }

  /**
    The canonical opcode word of an instruction. `SYS` has none: the decoder
    drops its address, so no single word stands for it.
  */
  function Encode(i: Instruction): Option<Word> {
    match i
    case ClearScreen => Some(0x00E0)
    case Return => Some(0x00EE)
    case SYS => None
    case Jump(a) => Some(WithAddress(0x1000, a))
    case Call(a) => Some(WithAddress(0x2000, a))
    case SkipEqualsByte(x, kk) => Some(WithRegisterAndByte(0x3000, x, kk))
    case SkipNotEqualsByte(x, kk) => Some(WithRegisterAndByte(0x4000, x, kk))
    case SkipEqualsRegister(x, y) => Some(WithRegisters(0x5000, x, y, 0))
    case LoadByte(x, kk) => Some(WithRegisterAndByte(0x6000, x, kk))
    case AddByte(x, kk) => Some(WithRegisterAndByte(0x7000, x, kk))
    case LoadRegister(x, y) => Some(WithRegisters(0x8000, x, y, 0))
    case Or(x, y) => Some(WithRegisters(0x8000, x, y, 1))
    case And(x, y) => Some(WithRegisters(0x8000, x, y, 2))
    case Xor(x, y) => Some(WithRegisters(0x8000, x, y, 3))
    case AddRegister(x, y) => Some(WithRegisters(0x8000, x, y, 4))
    case SubRegister(x, y) => Some(WithRegisters(0x8000, x, y, 5))
    case ShiftRight(x) => Some(WithRegister(0x8006, x))
    case SubNRegister(x, y) => Some(WithRegisters(0x8000, x, y, 7))
    case ShiftLeft(x) => Some(WithRegister(0x800E, x))
    case SkipNotEqualRegister(x, y) => Some(WithRegisters(0x9000, x, y, 0))
    case LoadImmediate(a) => Some(WithAddress(0xA000, a))
    case JumpBase(a) => Some(WithAddress(0xB000, a))
    case Random(x, kk) => Some(WithRegisterAndByte(0xC000, x, kk))
    case DisplaySprite(x, y, n) => Some(WithRegisters(0xD000, x, y, n))
    case SkipKeyPress(x) => Some(WithRegister(0xE09E, x))
    case SkipNotKeyPress(x) => Some(WithRegister(0xE0A1, x))
    case LoadFromDelay(x) => Some(WithRegister(0xF007, x))
    case LoadKeyPress(x) => Some(WithRegister(0xF00A, x))
    case LoadDelay(x) => Some(WithRegister(0xF015, x))
    case LoadSound(x) => Some(WithRegister(0xF018, x))
    case AddI(x) => Some(WithRegister(0xF01E, x))
    case LoadFontSprite(x) => Some(WithRegister(0xF029, x))
    case LoadIBCD(x) => Some(WithRegister(0xF033, x))
    case StoreRegisters(x) => Some(WithRegister(0xF055, x))
    case LoadRegisters(x) => Some(WithRegister(0xF065, x))
  }
}
