/**
  Encoding then decoding gives the instruction back: the canonical word of
  every well-formed instruction except `SYS` decodes to that instruction.
  The other direction fails, because the decoder drops operand bits in three
  places; the last three lemmas name one word for each.
*/
module Inverse {
  import opened Wrappers
  import opened Bitmasks
  import opened Instructions
  import opened Opcodes
  import opened Reference
  import opened DecoderProperties

  // The classifier's decoder maps the canonical word of each instruction
  // back to it. `TryFromMatchesReference` carries this to `TryFrom`.

  lemma InvertsFixed()
    ensures ReferenceDecode(0x00E0) == Success(ClearScreen)
    ensures ReferenceDecode(0x00EE) == Success(Return)
  {}

  // Address forms `pnnn`.
  lemma InvertsJump(a: Address)
    requires a < 0x1000
    ensures ReferenceDecode(WithAddress(0x1000, a)) == Success(Jump(a))
  {}

  lemma InvertsCall(a: Address)
    requires a < 0x1000
    ensures ReferenceDecode(WithAddress(0x2000, a)) == Success(Call(a))
  {}

  lemma InvertsLoadImmediate(a: Address)
    requires a < 0x1000
    ensures ReferenceDecode(WithAddress(0xA000, a)) == Success(LoadImmediate(a))
  {}

  lemma InvertsJumpBase(a: Address)
    requires a < 0x1000
    ensures ReferenceDecode(WithAddress(0xB000, a)) == Success(JumpBase(a))
  {}

  // Register-and-byte forms `pxkk`.
  lemma InvertsSkipEqualsByte(x: Register, kk: Data)
    requires x < 0x10
    ensures ReferenceDecode(WithRegisterAndByte(0x3000, x, kk)) == Success(SkipEqualsByte(x, kk))
  {}

  lemma InvertsSkipNotEqualsByte(x: Register, kk: Data)
    requires x < 0x10
    ensures ReferenceDecode(WithRegisterAndByte(0x4000, x, kk)) == Success(SkipNotEqualsByte(x, kk))
  {}

  lemma InvertsLoadByte(x: Register, kk: Data)
    requires x < 0x10
    ensures ReferenceDecode(WithRegisterAndByte(0x6000, x, kk)) == Success(LoadByte(x, kk))
  {}

  lemma InvertsAddByte(x: Register, kk: Data)
    requires x < 0x10
    ensures ReferenceDecode(WithRegisterAndByte(0x7000, x, kk)) == Success(AddByte(x, kk))
  {}

  lemma InvertsRandom(x: Register, kk: Data)
    requires x < 0x10
    ensures ReferenceDecode(WithRegisterAndByte(0xC000, x, kk)) == Success(Random(x, kk))
  {}

  // Two-register forms `pxyq`, and `Dxyn`.
  lemma InvertsSkipEqualsRegister(x: Register, y: Register)
    requires x < 0x10 && y < 0x10
    ensures ReferenceDecode(WithRegisters(0x5000, x, y, 0)) == Success(SkipEqualsRegister(x, y))
  {}

  lemma InvertsLoadRegister(x: Register, y: Register)
    requires x < 0x10 && y < 0x10
    ensures ReferenceDecode(WithRegisters(0x8000, x, y, 0)) == Success(LoadRegister(x, y))
  {}

  lemma InvertsOr(x: Register, y: Register)
    requires x < 0x10 && y < 0x10
    ensures ReferenceDecode(WithRegisters(0x8000, x, y, 1)) == Success(Or(x, y))
  {}

  lemma InvertsAnd(x: Register, y: Register)
    requires x < 0x10 && y < 0x10
    ensures ReferenceDecode(WithRegisters(0x8000, x, y, 2)) == Success(And(x, y))
  {}

  lemma InvertsXor(x: Register, y: Register)
    requires x < 0x10 && y < 0x10
    ensures ReferenceDecode(WithRegisters(0x8000, x, y, 3)) == Success(Xor(x, y))
  {}

  lemma InvertsAddRegister(x: Register, y: Register)
    requires x < 0x10 && y < 0x10
    ensures ReferenceDecode(WithRegisters(0x8000, x, y, 4)) == Success(AddRegister(x, y))
  {}

  lemma InvertsSubRegister(x: Register, y: Register)
    requires x < 0x10 && y < 0x10
    ensures ReferenceDecode(WithRegisters(0x8000, x, y, 5)) == Success(SubRegister(x, y))
  {}

  lemma InvertsSubNRegister(x: Register, y: Register)
    requires x < 0x10 && y < 0x10
    ensures ReferenceDecode(WithRegisters(0x8000, x, y, 7)) == Success(SubNRegister(x, y))
  {}

  lemma InvertsSkipNotEqualRegister(x: Register, y: Register)
    requires x < 0x10 && y < 0x10
    ensures ReferenceDecode(WithRegisters(0x9000, x, y, 0)) == Success(SkipNotEqualRegister(x, y))
  {}

  lemma InvertsDisplaySprite(x: Register, y: Register, n: Nibble)
    requires x < 0x10 && y < 0x10 && n < 0x10
    ensures ReferenceDecode(WithRegisters(0xD000, x, y, n)) == Success(DisplaySprite(x, y, n))
  {}

  // One-register forms `pxqq`.
  lemma InvertsShiftRight(x: Register)
    requires x < 0x10
    ensures ReferenceDecode(WithRegister(0x8006, x)) == Success(ShiftRight(x))
  {}

  lemma InvertsShiftLeft(x: Register)
    requires x < 0x10
    ensures ReferenceDecode(WithRegister(0x800E, x)) == Success(ShiftLeft(x))
  {}

  lemma InvertsSkipKeyPress(x: Register)
    requires x < 0x10
    ensures ReferenceDecode(WithRegister(0xE09E, x)) == Success(SkipKeyPress(x))
  {}

  lemma InvertsSkipNotKeyPress(x: Register)
    requires x < 0x10
    ensures ReferenceDecode(WithRegister(0xE0A1, x)) == Success(SkipNotKeyPress(x))
  {}

  lemma InvertsLoadFromDelay(x: Register)
    requires x < 0x10
    ensures ReferenceDecode(WithRegister(0xF007, x)) == Success(LoadFromDelay(x))
  {}

  lemma InvertsLoadKeyPress(x: Register)
    requires x < 0x10
    ensures ReferenceDecode(WithRegister(0xF00A, x)) == Success(LoadKeyPress(x))
  {}

  lemma InvertsLoadDelay(x: Register)
    requires x < 0x10
    ensures ReferenceDecode(WithRegister(0xF015, x)) == Success(LoadDelay(x))
  {}

  lemma InvertsLoadSound(x: Register)
    requires x < 0x10
    ensures ReferenceDecode(WithRegister(0xF018, x)) == Success(LoadSound(x))
  {}

  lemma InvertsAddI(x: Register)
    requires x < 0x10
    ensures ReferenceDecode(WithRegister(0xF01E, x)) == Success(AddI(x))
  {}

  lemma InvertsLoadFontSprite(x: Register)
    requires x < 0x10
    ensures ReferenceDecode(WithRegister(0xF029, x)) == Success(LoadFontSprite(x))
  {}

  lemma InvertsLoadIBCD(x: Register)
    requires x < 0x10
    ensures ReferenceDecode(WithRegister(0xF033, x)) == Success(LoadIBCD(x))
  {}

  lemma InvertsStoreRegisters(x: Register)
    requires x < 0x10
    ensures ReferenceDecode(WithRegister(0xF055, x)) == Success(StoreRegisters(x))
  {}

  lemma InvertsLoadRegisters(x: Register)
    requires x < 0x10
    ensures ReferenceDecode(WithRegister(0xF065, x)) == Success(LoadRegisters(x))
  {}

  /** The inverse on the address forms. */
  lemma AddressInverts(i: Instruction)
    requires WellFormed(i)
    requires i.Jump? || i.Call? || i.LoadImmediate? || i.JumpBase?
    ensures ReferenceDecode(Encode(i).value) == Success(i)
  {
    if i.Jump? {
      assert Encode(i) == Some(WithAddress(0x1000, i.addr));
      InvertsJump(i.addr);
    } else if i.Call? {
      assert Encode(i) == Some(WithAddress(0x2000, i.addr));
      InvertsCall(i.addr);
    } else if i.LoadImmediate? {
      assert Encode(i) == Some(WithAddress(0xA000, i.addr));
      InvertsLoadImmediate(i.addr);
    } else {
      assert Encode(i) == Some(WithAddress(0xB000, i.addr));
      InvertsJumpBase(i.addr);
    }
  }

  /** The inverse on the register-and-byte forms. */
  lemma ByteInverts(i: Instruction)
    requires WellFormed(i)
    requires i.SkipEqualsByte? || i.SkipNotEqualsByte? || i.LoadByte? || i.AddByte?
          || i.Random?
    ensures ReferenceDecode(Encode(i).value) == Success(i)
  {
    if i.SkipEqualsByte? {
      assert Encode(i) == Some(WithRegisterAndByte(0x3000, i.x, i.kk));
      InvertsSkipEqualsByte(i.x, i.kk);
    } else if i.SkipNotEqualsByte? {
      assert Encode(i) == Some(WithRegisterAndByte(0x4000, i.x, i.kk));
      InvertsSkipNotEqualsByte(i.x, i.kk);
    } else if i.LoadByte? {
      assert Encode(i) == Some(WithRegisterAndByte(0x6000, i.x, i.kk));
      InvertsLoadByte(i.x, i.kk);
    } else if i.AddByte? {
      assert Encode(i) == Some(WithRegisterAndByte(0x7000, i.x, i.kk));
      InvertsAddByte(i.x, i.kk);
    } else {
      assert Encode(i) == Some(WithRegisterAndByte(0xC000, i.x, i.kk));
      InvertsRandom(i.x, i.kk);
    }
  }

  /** The inverse on classes 5, 9 and D. */
  lemma RegisterPairInverts(i: Instruction)
    requires WellFormed(i)
    requires i.SkipEqualsRegister? || i.SkipNotEqualRegister? || i.DisplaySprite?
    ensures ReferenceDecode(Encode(i).value) == Success(i)
  {
    if i.SkipEqualsRegister? {
      assert Encode(i) == Some(WithRegisters(0x5000, i.x, i.y, 0));
      InvertsSkipEqualsRegister(i.x, i.y);
    } else if i.SkipNotEqualRegister? {
      assert Encode(i) == Some(WithRegisters(0x9000, i.x, i.y, 0));
      InvertsSkipNotEqualRegister(i.x, i.y);
    } else {
      assert Encode(i) == Some(WithRegisters(0xD000, i.x, i.y, i.n));
      InvertsDisplaySprite(i.x, i.y, i.n);
    }
  }

  /** The inverse on class 8. */
  lemma ArithmeticInverts(i: Instruction)
    requires WellFormed(i)
    requires i.LoadRegister? || i.Or? || i.And? || i.Xor? || i.AddRegister? || i.SubRegister?
          || i.SubNRegister? || i.ShiftRight? || i.ShiftLeft?
    ensures ReferenceDecode(Encode(i).value) == Success(i)
  {
    if i.LoadRegister? {
      assert Encode(i) == Some(WithRegisters(0x8000, i.x, i.y, 0));
      InvertsLoadRegister(i.x, i.y);
    } else if i.Or? {
      assert Encode(i) == Some(WithRegisters(0x8000, i.x, i.y, 1));
      InvertsOr(i.x, i.y);
    } else if i.And? {
      assert Encode(i) == Some(WithRegisters(0x8000, i.x, i.y, 2));
      InvertsAnd(i.x, i.y);
    } else if i.Xor? {
      assert Encode(i) == Some(WithRegisters(0x8000, i.x, i.y, 3));
      InvertsXor(i.x, i.y);
    } else if i.AddRegister? {
      assert Encode(i) == Some(WithRegisters(0x8000, i.x, i.y, 4));
      InvertsAddRegister(i.x, i.y);
    } else if i.SubRegister? {
      assert Encode(i) == Some(WithRegisters(0x8000, i.x, i.y, 5));
      InvertsSubRegister(i.x, i.y);
    } else if i.SubNRegister? {
      assert Encode(i) == Some(WithRegisters(0x8000, i.x, i.y, 7));
      InvertsSubNRegister(i.x, i.y);
    } else if i.ShiftRight? {
      assert Encode(i) == Some(WithRegister(0x8006, i.x));
      InvertsShiftRight(i.x);
    } else {
      assert Encode(i) == Some(WithRegister(0x800E, i.x));
      InvertsShiftLeft(i.x);
    }
  }

  /** The inverse on class E. */
  lemma KeyInverts(i: Instruction)
    requires WellFormed(i)
    requires i.SkipKeyPress? || i.SkipNotKeyPress?
    ensures ReferenceDecode(Encode(i).value) == Success(i)
  {
    if i.SkipKeyPress? {
      assert Encode(i) == Some(WithRegister(0xE09E, i.x));
      InvertsSkipKeyPress(i.x);
    } else {
      assert Encode(i) == Some(WithRegister(0xE0A1, i.x));
      InvertsSkipNotKeyPress(i.x);
    }
  }

  /** The inverse on the timer and key-wait forms of class F. */
  lemma TimerInverts(i: Instruction)
    requires WellFormed(i)
    requires i.LoadFromDelay? || i.LoadKeyPress? || i.LoadDelay? || i.LoadSound?
    ensures ReferenceDecode(Encode(i).value) == Success(i)
  {
    if i.LoadFromDelay? {
      assert Encode(i) == Some(WithRegister(0xF007, i.x));
      InvertsLoadFromDelay(i.x);
    } else if i.LoadKeyPress? {
      assert Encode(i) == Some(WithRegister(0xF00A, i.x));
      InvertsLoadKeyPress(i.x);
    } else if i.LoadDelay? {
      assert Encode(i) == Some(WithRegister(0xF015, i.x));
      InvertsLoadDelay(i.x);
    } else {
      assert Encode(i) == Some(WithRegister(0xF018, i.x));
      InvertsLoadSound(i.x);
    }
  }

  /** The inverse on the index and memory forms of class F. */
  lemma MemoryInverts(i: Instruction)
    requires WellFormed(i)
    requires i.AddI? || i.LoadFontSprite? || i.LoadIBCD? || i.StoreRegisters?
          || i.LoadRegisters?
    ensures ReferenceDecode(Encode(i).value) == Success(i)
  {
    if i.AddI? {
      assert Encode(i) == Some(WithRegister(0xF01E, i.x));
      InvertsAddI(i.x);
    } else if i.LoadFontSprite? {
      assert Encode(i) == Some(WithRegister(0xF029, i.x));
      InvertsLoadFontSprite(i.x);
    } else if i.LoadIBCD? {
      assert Encode(i) == Some(WithRegister(0xF033, i.x));
      InvertsLoadIBCD(i.x);
    } else if i.StoreRegisters? {
      assert Encode(i) == Some(WithRegister(0xF055, i.x));
      InvertsStoreRegisters(i.x);
    } else {
      assert Encode(i) == Some(WithRegister(0xF065, i.x));
      InvertsLoadRegisters(i.x);
    }
  }

  /** The inverse on classes 1 to 7, 9 and A to D. */
  lemma LowInverts(i: Instruction)
    requires WellFormed(i)
    requires i.Jump? || i.Call? || i.LoadImmediate? || i.JumpBase? || i.SkipEqualsByte?
          || i.SkipNotEqualsByte? || i.LoadByte? || i.AddByte? || i.Random?
          || i.SkipEqualsRegister? || i.SkipNotEqualRegister? || i.DisplaySprite?
    ensures ReferenceDecode(Encode(i).value) == Success(i)
  {
    if i.Jump? || i.Call? || i.LoadImmediate? || i.JumpBase? {
      AddressInverts(i);
    } else if i.SkipEqualsByte? || i.SkipNotEqualsByte? || i.LoadByte? || i.AddByte?
        || i.Random? {
      ByteInverts(i);
    } else {
      RegisterPairInverts(i);
    }
  }

  /** The inverse on classes 8, E and F. */
  lemma HighInverts(i: Instruction)
    requires WellFormed(i)
    requires i.LoadRegister? || i.Or? || i.And? || i.Xor? || i.AddRegister? || i.SubRegister?
          || i.SubNRegister? || i.ShiftRight? || i.ShiftLeft? || i.SkipKeyPress?
          || i.SkipNotKeyPress? || i.LoadFromDelay? || i.LoadKeyPress? || i.LoadDelay?
          || i.LoadSound? || i.AddI? || i.LoadFontSprite? || i.LoadIBCD? || i.StoreRegisters?
          || i.LoadRegisters?
    ensures ReferenceDecode(Encode(i).value) == Success(i)
  {
    if i.LoadRegister? || i.Or? || i.And? || i.Xor? || i.AddRegister? || i.SubRegister?
        || i.SubNRegister? || i.ShiftRight? || i.ShiftLeft? {
      ArithmeticInverts(i);
    } else if i.SkipKeyPress? || i.SkipNotKeyPress? {
      KeyInverts(i);
    } else if i.LoadFromDelay? || i.LoadKeyPress? || i.LoadDelay? || i.LoadSound? {
      TimerInverts(i);
    } else {
      MemoryInverts(i);
    }
  }

  /** The classifier's decoder inverts `Encode` on every well-formed instruction that has a word. */
  lemma ReferenceInverts(i: Instruction)
    requires WellFormed(i)
    ensures Encode(i).Some? ==> ReferenceDecode(Encode(i).value) == Success(i)
  {
    if i.SYS? {
      assert Encode(i) == None;
    } else if i.ClearScreen? || i.Return? {
      InvertsFixed();
    } else if i.Jump? || i.Call? || i.LoadImmediate? || i.JumpBase? || i.SkipEqualsByte?
        || i.SkipNotEqualsByte? || i.LoadByte? || i.AddByte? || i.Random?
        || i.SkipEqualsRegister? || i.SkipNotEqualRegister? || i.DisplaySprite? {
      LowInverts(i);
    } else {
      HighInverts(i);
    }
  }

  /**
    Encode-then-decode: `SYS` is the one instruction without a word, and the
    word of any other well-formed instruction decodes to that instruction.
  */
  lemma EncodeThenDecode(i: Instruction)
    requires WellFormed(i)
    ensures Encode(i).None? <==> i.SYS?
    ensures Encode(i).Some? ==> TryFrom(Encode(i).value) == Success(i)
  {
    if Encode(i).Some? {
      TryFromMatchesReference(Encode(i).value);
      ReferenceInverts(i);
    }
  }

  lemma ReferenceShiftDropsY()
    ensures ReferenceDecode(0x8DB6) == Success(ShiftRight(0xD))
  {}

  lemma ReferenceKeyReleaseAnyLowOne()
    ensures ReferenceDecode(0xE5B1) == Success(SkipNotKeyPress(0x5))
  {}

  lemma ReferenceSysDropsAddress()
    ensures ReferenceDecode(0x06B5) == Success(SYS)
  {}

  /** The shifts drop Y: `0x8DB6` decodes to `ShiftRight(0xD)`, whose word is `0x8D06`. */
  lemma ShiftDropsY()
    ensures TryFrom(0x8DB6) == Success(ShiftRight(0xD)) && Encode(ShiftRight(0xD)) == Some(0x8D06)
  {
    TryFromMatchesReference(0x8DB6);
    ReferenceShiftDropsY();
  }

  /**
    The `EXA1` entry takes any class-E word with low nibble 1: `0xE5B1`
    decodes to `SkipNotKeyPress(0x5)`, whose word is `0xE5A1`.
  */
  lemma KeyReleaseAnyLowOne()
    ensures TryFrom(0xE5B1) == Success(SkipNotKeyPress(0x5)) && Encode(SkipNotKeyPress(0x5)) == Some(0xE5A1)
  {
    TryFromMatchesReference(0xE5B1);
    ReferenceKeyReleaseAnyLowOne();
  }

  /** `SYS` drops its address: `0x06B5` decodes to `SYS`, which has no word. */
  lemma SysDropsAddress()
    ensures TryFrom(0x06B5) == Success(SYS) && Encode(SYS) == None
  {
    TryFromMatchesReference(0x06B5);
    ReferenceSysDropsAddress();
  }
}
