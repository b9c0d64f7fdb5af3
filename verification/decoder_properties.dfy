/**
  The table-driven decoder agrees with the nibble-by-nibble classifier of
  `Reference` on every word, and the properties the decoder's tests check
  follow from that agreement.
*/
module DecoderProperties {
  import opened Wrappers
  import opened Bitmasks
  import opened Instructions
  import opened OpHandlers
  import opened Opcodes
  import opened TableClasses
  import opened Reference

  /** The scan over class `c`'s run, one `Try` per entry. */
  function Unrolled(c: nat, w: Word): Option<Family>
    requires c < 16
  {
    match c
    case 0x0 =>
      Try(Entry(0x00E0, 0xFFFF, Op00E0), w,
      Try(Entry(0x00EE, 0xFFFF, Op00EE), w,
      Try(Entry(0x0000, 0xF000, Op0NNN), w, None)))
    case 0x1 =>
      Try(Entry(0x1000, 0xF000, Op1NNN), w, None)
    case 0x2 =>
      Try(Entry(0x2000, 0xF000, Op2NNN), w, None)
    case 0x3 =>
      Try(Entry(0x3000, 0xF000, Op3XNN), w, None)
    case 0x4 =>
      Try(Entry(0x4000, 0xF000, Op4XNN), w, None)
    case 0x5 =>
      Try(Entry(0x5000, 0xF00F, Op5XY0), w, None)
    case 0x6 =>
      Try(Entry(0x6000, 0xF000, Op6XNN), w, None)
    case 0x7 =>
      Try(Entry(0x7000, 0xF000, Op7XNN), w, None)
    case 0x8 =>
      Try(Entry(0x8000, 0xF00F, Op8XY0), w,
      Try(Entry(0x8001, 0xF00F, Op8XY1), w,
      Try(Entry(0x8002, 0xF00F, Op8XY2), w,
      Try(Entry(0x8003, 0xF00F, Op8XY3), w,
      Try(Entry(0x8004, 0xF00F, Op8XY4), w,
      Try(Entry(0x8005, 0xF00F, Op8XY5), w,
      Try(Entry(0x8006, 0xF00F, Op8XY6), w,
      Try(Entry(0x8007, 0xF00F, Op8XY7), w,
      Try(Entry(0x800E, 0xF00F, Op8XYE), w, None)))))))))
    case 0x9 =>
      Try(Entry(0x9000, 0xF00F, Op9XY0), w, None)
    case 0xA =>
      Try(Entry(0xA000, 0xF000, OpANNN), w, None)
    case 0xB =>
      Try(Entry(0xB000, 0xF000, OpBNNN), w, None)
    case 0xC =>
      Try(Entry(0xC000, 0xF000, OpCXNN), w, None)
    case 0xD =>
      Try(Entry(0xD000, 0xF000, OpDXYN), w, None)
    case 0xE =>
      Try(Entry(0xE09E, 0xF0FF, OpEX9E), w,
      Try(Entry(0xE001, 0xF00F, OpEXA1), w, None))
    case _ =>
      Try(Entry(0xF007, 0xF0FF, OpFX07), w,
      Try(Entry(0xF00A, 0xF0FF, OpFX0A), w,
      Try(Entry(0xF015, 0xF0FF, OpFX15), w,
      Try(Entry(0xF018, 0xF0FF, OpFX18), w,
      Try(Entry(0xF01E, 0xF0FF, OpFX1E), w,
      Try(Entry(0xF029, 0xF0FF, OpFX29), w,
      Try(Entry(0xF033, 0xF0FF, OpFX33), w,
      Try(Entry(0xF055, 0xF0FF, OpFX55), w,
      Try(Entry(0xF065, 0xF0FF, OpFX65), w, None)))))))))
  }

  lemma ScanGroup0(w: Word)
    ensures Lookup(Group(0x0), w) == Unrolled(0x0, w)
  {
    assert Group(0x0) == [Entry(0x00E0, 0xFFFF, Op00E0)] + ([Entry(0x00EE, 0xFFFF, Op00EE)] + ([Entry(0x0000, 0xF000, Op0NNN)]));
    LookupCons(Entry(0x00E0, 0xFFFF, Op00E0), [Entry(0x00EE, 0xFFFF, Op00EE)] + ([Entry(0x0000, 0xF000, Op0NNN)]), w);
    LookupCons(Entry(0x00EE, 0xFFFF, Op00EE), [Entry(0x0000, 0xF000, Op0NNN)], w);
    LookupCons(Entry(0x0000, 0xF000, Op0NNN), [], w);
  }

  lemma ClassifyGroup0(w: Word)
    requires w & 0xF000 == 0x0000
    ensures Classify(w) == Unrolled(0x0, w)
  {}

  lemma ScanGroup1(w: Word)
    ensures Lookup(Group(0x1), w) == Unrolled(0x1, w)
  {
    assert Group(0x1) == [Entry(0x1000, 0xF000, Op1NNN)] + [];
    LookupCons(Entry(0x1000, 0xF000, Op1NNN), [], w);
  }

  lemma ClassifyGroup1(w: Word)
    requires w & 0xF000 == 0x1000
    ensures Classify(w) == Unrolled(0x1, w)
  {}

  lemma ScanGroup2(w: Word)
    ensures Lookup(Group(0x2), w) == Unrolled(0x2, w)
  {
    assert Group(0x2) == [Entry(0x2000, 0xF000, Op2NNN)] + [];
    LookupCons(Entry(0x2000, 0xF000, Op2NNN), [], w);
  }

  lemma ClassifyGroup2(w: Word)
    requires w & 0xF000 == 0x2000
    ensures Classify(w) == Unrolled(0x2, w)
  {}

  lemma ScanGroup3(w: Word)
    ensures Lookup(Group(0x3), w) == Unrolled(0x3, w)
  {
    assert Group(0x3) == [Entry(0x3000, 0xF000, Op3XNN)] + [];
    LookupCons(Entry(0x3000, 0xF000, Op3XNN), [], w);
  }

  lemma ClassifyGroup3(w: Word)
    requires w & 0xF000 == 0x3000
    ensures Classify(w) == Unrolled(0x3, w)
  {}

  lemma ScanGroup4(w: Word)
    ensures Lookup(Group(0x4), w) == Unrolled(0x4, w)
  {
    assert Group(0x4) == [Entry(0x4000, 0xF000, Op4XNN)] + [];
    LookupCons(Entry(0x4000, 0xF000, Op4XNN), [], w);
  }

  lemma ClassifyGroup4(w: Word)
    requires w & 0xF000 == 0x4000
    ensures Classify(w) == Unrolled(0x4, w)
  {}

  lemma ScanGroup5(w: Word)
    ensures Lookup(Group(0x5), w) == Unrolled(0x5, w)
  {
    assert Group(0x5) == [Entry(0x5000, 0xF00F, Op5XY0)] + [];
    LookupCons(Entry(0x5000, 0xF00F, Op5XY0), [], w);
  }

  lemma ClassifyGroup5(w: Word)
    requires w & 0xF000 == 0x5000
    ensures Classify(w) == Unrolled(0x5, w)
  {}

  lemma ScanGroup6(w: Word)
    ensures Lookup(Group(0x6), w) == Unrolled(0x6, w)
  {
    assert Group(0x6) == [Entry(0x6000, 0xF000, Op6XNN)] + [];
    LookupCons(Entry(0x6000, 0xF000, Op6XNN), [], w);
  }

  lemma ClassifyGroup6(w: Word)
    requires w & 0xF000 == 0x6000
    ensures Classify(w) == Unrolled(0x6, w)
  {}

  lemma ScanGroup7(w: Word)
    ensures Lookup(Group(0x7), w) == Unrolled(0x7, w)
  {
    assert Group(0x7) == [Entry(0x7000, 0xF000, Op7XNN)] + [];
    LookupCons(Entry(0x7000, 0xF000, Op7XNN), [], w);
  }

  lemma ClassifyGroup7(w: Word)
    requires w & 0xF000 == 0x7000
    ensures Classify(w) == Unrolled(0x7, w)
  {}

  lemma ScanGroup8(w: Word)
    ensures Lookup(Group(0x8), w) == Unrolled(0x8, w)
  {
    assert Group(0x8) ==
      [Entry(0x8000, 0xF00F, Op8XY0)] + ([Entry(0x8001, 0xF00F, Op8XY1)] + ([Entry(0x8002, 0xF00F, Op8XY2)] + (
      [Entry(0x8003, 0xF00F, Op8XY3)] + ([Entry(0x8004, 0xF00F, Op8XY4)] + ([Entry(0x8005, 0xF00F, Op8XY5)] + (
      [Entry(0x8006, 0xF00F, Op8XY6)] + ([Entry(0x8007, 0xF00F, Op8XY7)] + ([Entry(0x800E, 0xF00F, Op8XYE)]))))))));
    LookupCons(Entry(0x8000, 0xF00F, Op8XY0),
      [Entry(0x8001, 0xF00F, Op8XY1)] + ([Entry(0x8002, 0xF00F, Op8XY2)] + ([Entry(0x8003, 0xF00F, Op8XY3)] + (
      [Entry(0x8004, 0xF00F, Op8XY4)] + ([Entry(0x8005, 0xF00F, Op8XY5)] + ([Entry(0x8006, 0xF00F, Op8XY6)] + (
      [Entry(0x8007, 0xF00F, Op8XY7)] + ([Entry(0x800E, 0xF00F, Op8XYE)]))))))), w);
    LookupCons(Entry(0x8001, 0xF00F, Op8XY1),
      [Entry(0x8002, 0xF00F, Op8XY2)] + ([Entry(0x8003, 0xF00F, Op8XY3)] + ([Entry(0x8004, 0xF00F, Op8XY4)] + (
      [Entry(0x8005, 0xF00F, Op8XY5)] + ([Entry(0x8006, 0xF00F, Op8XY6)] + ([Entry(0x8007, 0xF00F, Op8XY7)] + (
      [Entry(0x800E, 0xF00F, Op8XYE)])))))), w);
    LookupCons(Entry(0x8002, 0xF00F, Op8XY2),
      [Entry(0x8003, 0xF00F, Op8XY3)] + ([Entry(0x8004, 0xF00F, Op8XY4)] + ([Entry(0x8005, 0xF00F, Op8XY5)] + (
      [Entry(0x8006, 0xF00F, Op8XY6)] + ([Entry(0x8007, 0xF00F, Op8XY7)] + ([Entry(0x800E, 0xF00F, Op8XYE)]))))), w);
    LookupCons(Entry(0x8003, 0xF00F, Op8XY3),
      [Entry(0x8004, 0xF00F, Op8XY4)] + ([Entry(0x8005, 0xF00F, Op8XY5)] + ([Entry(0x8006, 0xF00F, Op8XY6)] + (
      [Entry(0x8007, 0xF00F, Op8XY7)] + ([Entry(0x800E, 0xF00F, Op8XYE)])))), w);
    LookupCons(Entry(0x8004, 0xF00F, Op8XY4),
      [Entry(0x8005, 0xF00F, Op8XY5)] + ([Entry(0x8006, 0xF00F, Op8XY6)] + ([Entry(0x8007, 0xF00F, Op8XY7)] + (
      [Entry(0x800E, 0xF00F, Op8XYE)]))), w);
    LookupCons(Entry(0x8005, 0xF00F, Op8XY5),
      [Entry(0x8006, 0xF00F, Op8XY6)] + ([Entry(0x8007, 0xF00F, Op8XY7)] + ([Entry(0x800E, 0xF00F, Op8XYE)])), w);
    LookupCons(Entry(0x8006, 0xF00F, Op8XY6),
      [Entry(0x8007, 0xF00F, Op8XY7)] + ([Entry(0x800E, 0xF00F, Op8XYE)]), w);
    LookupCons(Entry(0x8007, 0xF00F, Op8XY7),
      [Entry(0x800E, 0xF00F, Op8XYE)], w);
    LookupCons(Entry(0x800E, 0xF00F, Op8XYE), [], w);
  }


  lemma ClassifyGroup8(w: Word)
    requires w & 0xF000 == 0x8000
    ensures Classify(w) == Unrolled(0x8, w)
  {}

  lemma ScanGroup9(w: Word)
    ensures Lookup(Group(0x9), w) == Unrolled(0x9, w)
  {
    assert Group(0x9) == [Entry(0x9000, 0xF00F, Op9XY0)] + [];
    LookupCons(Entry(0x9000, 0xF00F, Op9XY0), [], w);
  }

  lemma ClassifyGroup9(w: Word)
    requires w & 0xF000 == 0x9000
    ensures Classify(w) == Unrolled(0x9, w)
  {}

  lemma ScanGroupA(w: Word)
    ensures Lookup(Group(0xA), w) == Unrolled(0xA, w)
  {
    assert Group(0xA) == [Entry(0xA000, 0xF000, OpANNN)] + [];
    LookupCons(Entry(0xA000, 0xF000, OpANNN), [], w);
  }

  lemma ClassifyGroupA(w: Word)
    requires w & 0xF000 == 0xA000
    ensures Classify(w) == Unrolled(0xA, w)
  {}

  lemma ScanGroupB(w: Word)
    ensures Lookup(Group(0xB), w) == Unrolled(0xB, w)
  {
    assert Group(0xB) == [Entry(0xB000, 0xF000, OpBNNN)] + [];
    LookupCons(Entry(0xB000, 0xF000, OpBNNN), [], w);
  }

  lemma ClassifyGroupB(w: Word)
    requires w & 0xF000 == 0xB000
    ensures Classify(w) == Unrolled(0xB, w)
  {}

  lemma ScanGroupC(w: Word)
    ensures Lookup(Group(0xC), w) == Unrolled(0xC, w)
  {
    assert Group(0xC) == [Entry(0xC000, 0xF000, OpCXNN)] + [];
    LookupCons(Entry(0xC000, 0xF000, OpCXNN), [], w);
  }

  lemma ClassifyGroupC(w: Word)
    requires w & 0xF000 == 0xC000
    ensures Classify(w) == Unrolled(0xC, w)
  {}

  lemma ScanGroupD(w: Word)
    ensures Lookup(Group(0xD), w) == Unrolled(0xD, w)
  {
    assert Group(0xD) == [Entry(0xD000, 0xF000, OpDXYN)] + [];
    LookupCons(Entry(0xD000, 0xF000, OpDXYN), [], w);
  }

  lemma ClassifyGroupD(w: Word)
    requires w & 0xF000 == 0xD000
    ensures Classify(w) == Unrolled(0xD, w)
  {}

  lemma ScanGroupE(w: Word)
    ensures Lookup(Group(0xE), w) == Unrolled(0xE, w)
  {
    assert Group(0xE) == [Entry(0xE09E, 0xF0FF, OpEX9E)] + ([Entry(0xE001, 0xF00F, OpEXA1)]);
    LookupCons(Entry(0xE09E, 0xF0FF, OpEX9E), [Entry(0xE001, 0xF00F, OpEXA1)], w);
    LookupCons(Entry(0xE001, 0xF00F, OpEXA1), [], w);
  }

  lemma ClassifyGroupE(w: Word)
    requires w & 0xF000 == 0xE000
    ensures Classify(w) == Unrolled(0xE, w)
  {}

  lemma ScanGroupF(w: Word)
    ensures Lookup(Group(0xF), w) == Unrolled(0xF, w)
  {
    assert Group(0xF) ==
      [Entry(0xF007, 0xF0FF, OpFX07)] + ([Entry(0xF00A, 0xF0FF, OpFX0A)] + ([Entry(0xF015, 0xF0FF, OpFX15)] + (
      [Entry(0xF018, 0xF0FF, OpFX18)] + ([Entry(0xF01E, 0xF0FF, OpFX1E)] + ([Entry(0xF029, 0xF0FF, OpFX29)] + (
      [Entry(0xF033, 0xF0FF, OpFX33)] + ([Entry(0xF055, 0xF0FF, OpFX55)] + ([Entry(0xF065, 0xF0FF, OpFX65)]))))))));
    LookupCons(Entry(0xF007, 0xF0FF, OpFX07),
      [Entry(0xF00A, 0xF0FF, OpFX0A)] + ([Entry(0xF015, 0xF0FF, OpFX15)] + ([Entry(0xF018, 0xF0FF, OpFX18)] + (
      [Entry(0xF01E, 0xF0FF, OpFX1E)] + ([Entry(0xF029, 0xF0FF, OpFX29)] + ([Entry(0xF033, 0xF0FF, OpFX33)] + (
      [Entry(0xF055, 0xF0FF, OpFX55)] + ([Entry(0xF065, 0xF0FF, OpFX65)]))))))), w);
    LookupCons(Entry(0xF00A, 0xF0FF, OpFX0A),
      [Entry(0xF015, 0xF0FF, OpFX15)] + ([Entry(0xF018, 0xF0FF, OpFX18)] + ([Entry(0xF01E, 0xF0FF, OpFX1E)] + (
      [Entry(0xF029, 0xF0FF, OpFX29)] + ([Entry(0xF033, 0xF0FF, OpFX33)] + ([Entry(0xF055, 0xF0FF, OpFX55)] + (
      [Entry(0xF065, 0xF0FF, OpFX65)])))))), w);
    LookupCons(Entry(0xF015, 0xF0FF, OpFX15),
      [Entry(0xF018, 0xF0FF, OpFX18)] + ([Entry(0xF01E, 0xF0FF, OpFX1E)] + ([Entry(0xF029, 0xF0FF, OpFX29)] + (
      [Entry(0xF033, 0xF0FF, OpFX33)] + ([Entry(0xF055, 0xF0FF, OpFX55)] + ([Entry(0xF065, 0xF0FF, OpFX65)]))))), w);
    LookupCons(Entry(0xF018, 0xF0FF, OpFX18),
      [Entry(0xF01E, 0xF0FF, OpFX1E)] + ([Entry(0xF029, 0xF0FF, OpFX29)] + ([Entry(0xF033, 0xF0FF, OpFX33)] + (
      [Entry(0xF055, 0xF0FF, OpFX55)] + ([Entry(0xF065, 0xF0FF, OpFX65)])))), w);
    LookupCons(Entry(0xF01E, 0xF0FF, OpFX1E),
      [Entry(0xF029, 0xF0FF, OpFX29)] + ([Entry(0xF033, 0xF0FF, OpFX33)] + ([Entry(0xF055, 0xF0FF, OpFX55)] + (
      [Entry(0xF065, 0xF0FF, OpFX65)]))), w);
    LookupCons(Entry(0xF029, 0xF0FF, OpFX29),
      [Entry(0xF033, 0xF0FF, OpFX33)] + ([Entry(0xF055, 0xF0FF, OpFX55)] + ([Entry(0xF065, 0xF0FF, OpFX65)])), w);
    LookupCons(Entry(0xF033, 0xF0FF, OpFX33),
      [Entry(0xF055, 0xF0FF, OpFX55)] + ([Entry(0xF065, 0xF0FF, OpFX65)]), w);
    LookupCons(Entry(0xF055, 0xF0FF, OpFX55),
      [Entry(0xF065, 0xF0FF, OpFX65)], w);
    LookupCons(Entry(0xF065, 0xF0FF, OpFX65), [], w);
  }


  lemma ClassifyGroupF(w: Word)
    requires w & 0xF000 == 0xF000
    ensures Classify(w) == Unrolled(0xF, w)
  {}

  /** Within its class, a word is classified as the scan over the class run picks. */
  lemma GroupAgrees(w: Word)
    ensures Lookup(Group(ClassIndex(w)), w) == Classify(w)
  {
    ClassKeyOfIndex(w);
    match ClassIndex(w)
    case 0x0 => ScanGroup0(w); ClassifyGroup0(w);
    case 0x1 => ScanGroup1(w); ClassifyGroup1(w);
    case 0x2 => ScanGroup2(w); ClassifyGroup2(w);
    case 0x3 => ScanGroup3(w); ClassifyGroup3(w);
    case 0x4 => ScanGroup4(w); ClassifyGroup4(w);
    case 0x5 => ScanGroup5(w); ClassifyGroup5(w);
    case 0x6 => ScanGroup6(w); ClassifyGroup6(w);
    case 0x7 => ScanGroup7(w); ClassifyGroup7(w);
    case 0x8 => ScanGroup8(w); ClassifyGroup8(w);
    case 0x9 => ScanGroup9(w); ClassifyGroup9(w);
    case 0xA => ScanGroupA(w); ClassifyGroupA(w);
    case 0xB => ScanGroupB(w); ClassifyGroupB(w);
    case 0xC => ScanGroupC(w); ClassifyGroupC(w);
    case 0xD => ScanGroupD(w); ClassifyGroupD(w);
    case 0xE => ScanGroupE(w); ClassifyGroupE(w);
    case _ => ScanGroupF(w); ClassifyGroupF(w);
  }

  /** The first-match scan over the whole table picks the family `Classify` names. */
  lemma TablePicksReference(w: Word)
    ensures Pick(Table, w) == Classify(w)
  {
    PickByClass(w);
    GroupAgrees(w);
  }

  /** `try_from` is the reference decoder, on every word. */
  lemma TryFromMatchesReference(w: Word)
    ensures TryFrom(w) == ReferenceDecode(w)
  {
    DecodeIsPick(Table, w);
    TablePicksReference(w);
  }

  // Facts about the classifier and `Build` alone. The statements about
  // `TryFrom` below rest on them, and `TryFromMatchesReference` carries each
  // over to the table-driven decoder.

  lemma ClassifyRejects()
    ensures Classify(0x0000) == None
    ensures Classify(0xFC14) == None
    ensures Classify(0xEB8E) == None
  {}

  lemma ClassifyEight(w: Word)
    requires MaskF000(w) == 0x8
    ensures Classify(w) == ArithmeticFamily(Mask000F(w))
  {}

  lemma ClassifyE(w: Word)
    requires MaskF000(w) == 0xE
    ensures Classify(w) == if Mask00FF(w) == 0x9E then Some(OpEX9E)
                           else if Mask000F(w) == 0x1 then Some(OpEXA1)
                           else None
  {}

  lemma ClassifyF(w: Word)
    requires MaskF000(w) == 0xF
    ensures Classify(w) == MiscellaneousFamily(Mask00FF(w))
  {}

  lemma BuildShifts(w: Word)
    ensures Build(Op8XY6, w) == ShiftRight(Mask0F00(w))
    ensures Build(Op8XYE, w) == ShiftLeft(Mask0F00(w))
  {}

  lemma BuildKeyPress(w: Word)
    ensures Build(OpEX9E, w) == SkipKeyPress(Mask0F00(w))
    ensures Build(OpEXA1, w) == SkipNotKeyPress(Mask0F00(w))
  {}

  lemma KeepsFX07(w: Word)
    requires MaskF000(w) == 0xF && Mask00FF(w) == 0x07
    ensures Encode(Build(OpFX07, w)) == Some(w)
  {
    NibblesReassemble(w);
  }

  lemma KeepsFX0A(w: Word)
    requires MaskF000(w) == 0xF && Mask00FF(w) == 0x0A
    ensures Encode(Build(OpFX0A, w)) == Some(w)
  {
    NibblesReassemble(w);
  }

  lemma KeepsFX15(w: Word)
    requires MaskF000(w) == 0xF && Mask00FF(w) == 0x15
    ensures Encode(Build(OpFX15, w)) == Some(w)
  {
    NibblesReassemble(w);
  }

  lemma KeepsFX18(w: Word)
    requires MaskF000(w) == 0xF && Mask00FF(w) == 0x18
    ensures Encode(Build(OpFX18, w)) == Some(w)
  {
    NibblesReassemble(w);
  }

  lemma KeepsFX1E(w: Word)
    requires MaskF000(w) == 0xF && Mask00FF(w) == 0x1E
    ensures Encode(Build(OpFX1E, w)) == Some(w)
  {
    NibblesReassemble(w);
  }

  lemma KeepsFX29(w: Word)
    requires MaskF000(w) == 0xF && Mask00FF(w) == 0x29
    ensures Encode(Build(OpFX29, w)) == Some(w)
  {
    NibblesReassemble(w);
  }

  lemma KeepsFX33(w: Word)
    requires MaskF000(w) == 0xF && Mask00FF(w) == 0x33
    ensures Encode(Build(OpFX33, w)) == Some(w)
  {
    NibblesReassemble(w);
  }

  lemma KeepsFX55(w: Word)
    requires MaskF000(w) == 0xF && Mask00FF(w) == 0x55
    ensures Encode(Build(OpFX55, w)) == Some(w)
  {
    NibblesReassemble(w);
  }

  lemma KeepsFX65(w: Word)
    requires MaskF000(w) == 0xF && Mask00FF(w) == 0x65
    ensures Encode(Build(OpFX65, w)) == Some(w)
  {
    NibblesReassemble(w);
  }

  /** A class-F sub-opcode fixes every bit but X, and its handler keeps X. */
  lemma MiscellaneousKeepsWord(w: Word)
    requires MaskF000(w) == 0xF && MiscellaneousFamily(Mask00FF(w)).Some?
    ensures Encode(Build(MiscellaneousFamily(Mask00FF(w)).value, w)) == Some(w)
  {
    var kk := Mask00FF(w);
    if kk == 0x07 {
      KeepsFX07(w);
    } else if kk == 0x0A {
      KeepsFX0A(w);
    } else if kk == 0x15 {
      KeepsFX15(w);
    } else if kk == 0x18 {
      KeepsFX18(w);
    } else if kk == 0x1E {
      KeepsFX1E(w);
    } else if kk == 0x29 {
      KeepsFX29(w);
    } else if kk == 0x33 {
      KeepsFX33(w);
    } else if kk == 0x55 {
      KeepsFX55(w);
    } else if kk == 0x65 {
      KeepsFX65(w);
    }
  }

  lemma ArithmeticCovers(w: Word)
    ensures ArithmeticFamily(Mask000F(w)).Some? <==> Mask000F(w) <= 0x7 || Mask000F(w) == 0xE
    ensures Mask000F(w) == 0x6 ==> ArithmeticFamily(Mask000F(w)) == Some(Op8XY6)
    ensures Mask000F(w) == 0xE ==> ArithmeticFamily(Mask000F(w)) == Some(Op8XYE)
  {}

  /** The classifier's decoder succeeds exactly when it names a handler, and then builds with it. */
  lemma ReferenceByFamily(w: Word)
    ensures ReferenceDecode(w).Success? <==> Classify(w).Some?
    ensures Classify(w).Some? ==> ReferenceDecode(w) == Success(Build(Classify(w).value, w))
  {}

  /** The zero word never decodes: the loop skips it, so the error carries 0. */
  lemma ZeroRejected()
    ensures TryFrom(0x0000) == Failure(0x0000)
  {
    TryFromMatchesReference(0x0000);
    ClassifyRejects();
  }

  /** The bad-opcode test: `0xFC14` has no class-F sub-opcode `14`, so it is rejected and the error names it. */
  lemma FC14Rejected()
    ensures TryFrom(0xFC14) == Failure(0xFC14)
  {
    TryFromMatchesReference(0xFC14);
    ClassifyRejects();
  }

  /** The bad-opcode test: `0xEB8E` has neither low byte `9E` nor low nibble 1, so it is rejected and the error names it. */
  lemma EB8ERejected()
    ensures TryFrom(0xEB8E) == Failure(0xEB8E)
  {
    TryFromMatchesReference(0xEB8E);
    ClassifyRejects();
  }

  /** Classes whose entry reads every low bit: every nonzero word of them decodes. */
  lemma AlwaysDecodes(w: Word)
    requires w != 0 && MaskF000(w) in {0x0, 0x1, 0x2, 0x3, 0x4, 0x6, 0x7, 0xA, 0xB, 0xC, 0xD}
    ensures TryFrom(w).Success?
  {
    TryFromMatchesReference(w);
  }

  /** Class 0: the two exact entries win over the catch-all `0NNN`, which yields `SYS` without an address. */
  lemma ClassZero(w: Word)
    requires MaskF000(w) == 0x0 && w != 0
    ensures TryFrom(w) == Success(if w == 0x00E0 then ClearScreen else if w == 0x00EE then Return else SYS)
  {
    TryFromMatchesReference(w);
  }

  lemma BuildRegisterSkips(w: Word)
    ensures Build(Op5XY0, w) == SkipEqualsRegister(Mask0F00(w), Mask00F0(w))
    ensures Build(Op9XY0, w) == SkipNotEqualRegister(Mask0F00(w), Mask00F0(w))
  {}

  /** Classes 5 and 9 decode only when the low nibble is 0, and then compare registers X and Y. */
  lemma ClassesFiveAndNine(w: Word)
    requires MaskF000(w) == 0x5 || MaskF000(w) == 0x9
    ensures TryFrom(w).Success? <==> Mask000F(w) == 0x0
    ensures MaskF000(w) == 0x5 && Mask000F(w) == 0x0 ==>
              TryFrom(w) == Success(SkipEqualsRegister(Mask0F00(w), Mask00F0(w)))
    ensures MaskF000(w) == 0x9 && Mask000F(w) == 0x0 ==>
              TryFrom(w) == Success(SkipNotEqualRegister(Mask0F00(w), Mask00F0(w)))
  {
    TryFromMatchesReference(w);
    ReferenceByFamily(w);
    BuildRegisterSkips(w);
  }

  /** Class 8 decodes only for the low nibbles 0 to 7 and E; the two shifts keep X and drop Y. */
  lemma ClassEight(w: Word)
    requires MaskF000(w) == 0x8
    ensures TryFrom(w).Success? <==> Mask000F(w) <= 0x7 || Mask000F(w) == 0xE
    ensures Mask000F(w) == 0x6 ==> TryFrom(w) == Success(ShiftRight(Mask0F00(w)))
    ensures Mask000F(w) == 0xE ==> TryFrom(w) == Success(ShiftLeft(Mask0F00(w)))
  {
    TryFromMatchesReference(w);
    ReferenceByFamily(w);
    ClassifyEight(w);
    ArithmeticCovers(w);
    BuildShifts(w);
  }

  /**
    Class E: `SkipKeyPress` exactly when the low byte is `9E`; any word whose
    low nibble is 1 is `SkipNotKeyPress`, whatever its third nibble.
  */
  lemma ClassE(w: Word)
    requires MaskF000(w) == 0xE
    ensures TryFrom(w) == Success(SkipKeyPress(Mask0F00(w))) <==> Mask00FF(w) == 0x9E
    ensures Mask000F(w) == 0x1 ==> TryFrom(w) == Success(SkipNotKeyPress(Mask0F00(w)))
    ensures TryFrom(w).Success? <==> Mask00FF(w) == 0x9E || Mask000F(w) == 0x1
  {
    TryFromMatchesReference(w);
    ClassifyE(w);
    BuildKeyPress(w);
  }

  /**
    Class F decodes only for its nine low bytes, and a decoded word loses
    nothing: the sub-opcode fixes every bit but X, and the result keeps X.
  */
  lemma ClassF(w: Word)
    requires MaskF000(w) == 0xF
    ensures TryFrom(w).Success? <==> Mask00FF(w) in {0x07, 0x0A, 0x15, 0x18, 0x1E, 0x29, 0x33, 0x55, 0x65}
    ensures TryFrom(w).Success? ==> Encode(TryFrom(w).value) == Some(w)
  {
    TryFromMatchesReference(w);
    ClassifyF(w);
    if MiscellaneousFamily(Mask00FF(w)).Some? {
      MiscellaneousKeepsWord(w);
    }
  }

  lemma ReferenceFixtureJump()
    ensures ReferenceDecode(0x16B5) == Success(Jump(0x6B5))
  {}

  /** Test fixture: `0x16B5` is `Jump(0x6B5)`. */
  lemma FixtureJump()
    ensures TryFrom(0x16B5) == Success(Jump(0x6B5))
  {
    TryFromMatchesReference(0x16B5);
    ReferenceFixtureJump();
  }

  lemma ReferenceFixtureSubRegister()
    ensures ReferenceDecode(0x8DB5) == Success(SubRegister(0xD, 0xB))
  {}

  /** Test fixture: `0x8DB5` is `SubRegister(0xD, 0xB)`. */
  lemma FixtureSubRegister()
    ensures TryFrom(0x8DB5) == Success(SubRegister(0xD, 0xB))
  {
    TryFromMatchesReference(0x8DB5);
    ReferenceFixtureSubRegister();
  }

  lemma ReferenceFixtureDisplaySprite()
    ensures ReferenceDecode(0xDDB5) == Success(DisplaySprite(0xD, 0xB, 0x5))
  {}

  /** Test fixture: `0xDDB5` is `DisplaySprite(0xD, 0xB, 5)`. */
  lemma FixtureDisplaySprite()
    ensures TryFrom(0xDDB5) == Success(DisplaySprite(0xD, 0xB, 0x5))
  {
    TryFromMatchesReference(0xDDB5);
    ReferenceFixtureDisplaySprite();
  }

  lemma ReferenceFixtureLoadRegisters()
    ensures ReferenceDecode(0xFD65) == Success(LoadRegisters(0xD))
  {}

  /** Test fixture: `0xFD65` is `LoadRegisters(0xD)`. */
  lemma FixtureLoadRegisters()
    ensures TryFrom(0xFD65) == Success(LoadRegisters(0xD))
  {
    TryFromMatchesReference(0xFD65);
    ReferenceFixtureLoadRegisters();
  }
}
