/**
  The ordered opcode table and the first-match decoder of src/opcodesv2.rs.

  The source stores a function pointer in each entry; here each entry names
  its handler by a `Family` tag and `Build` dispatches on the tag.
*/
module Opcodes {
  import opened Wrappers
  import opened Bitmasks
  import opened Instructions
  import opened OpHandlers

  /** One tag per handler of `OpHandlers`. */
  datatype Family =
    | Op00E0
    | Op00EE
    | Op0NNN
    | Op1NNN
    | Op2NNN
    | Op3XNN
    | Op4XNN
    | Op5XY0
    | Op6XNN
    | Op7XNN
    | Op8XY0
    | Op8XY1
    | Op8XY2
    | Op8XY3
    | Op8XY4
    | Op8XY5
    | Op8XY6
    | Op8XY7
    | Op8XYE
    | Op9XY0
    | OpANNN
    | OpBNNN
    | OpCXNN
    | OpDXYN
    | OpEX9E
    | OpEXA1
    | OpFX07
    | OpFX0A
    | OpFX15
    | OpFX18
    | OpFX1E
    | OpFX29
    | OpFX33
    | OpFX55
    | OpFX65

  /** An `OpcodeTableEntry`: a word matches when `word & mask == opcode`. */
  datatype Entry = Entry(opcode: Word, mask: Word, handler: Family)

  /** `OPCODE_TABLE`, in the source's order. */
  const Table: seq<Entry> := [
    Entry(0x00E0, 0xFFFF, Op00E0),
    Entry(0x00EE, 0xFFFF, Op00EE),
    Entry(0x0000, 0xF000, Op0NNN),
    Entry(0x1000, 0xF000, Op1NNN),
    Entry(0x2000, 0xF000, Op2NNN),
    Entry(0x3000, 0xF000, Op3XNN),
    Entry(0x4000, 0xF000, Op4XNN),
    Entry(0x5000, 0xF00F, Op5XY0),
    Entry(0x6000, 0xF000, Op6XNN),
    Entry(0x7000, 0xF000, Op7XNN),
    Entry(0x8000, 0xF00F, Op8XY0),
    Entry(0x8001, 0xF00F, Op8XY1),
    Entry(0x8002, 0xF00F, Op8XY2),
    Entry(0x8003, 0xF00F, Op8XY3),
    Entry(0x8004, 0xF00F, Op8XY4),
    Entry(0x8005, 0xF00F, Op8XY5),
    Entry(0x8006, 0xF00F, Op8XY6),
    Entry(0x8007, 0xF00F, Op8XY7),
    Entry(0x800E, 0xF00F, Op8XYE),
    Entry(0x9000, 0xF00F, Op9XY0),
    Entry(0xA000, 0xF000, OpANNN),
    Entry(0xB000, 0xF000, OpBNNN),
    Entry(0xC000, 0xF000, OpCXNN),
    Entry(0xD000, 0xF000, OpDXYN),
    Entry(0xE09E, 0xF0FF, OpEX9E),
    Entry(0xE001, 0xF00F, OpEXA1),
    Entry(0xF007, 0xF0FF, OpFX07),
    Entry(0xF00A, 0xF0FF, OpFX0A),
    Entry(0xF015, 0xF0FF, OpFX15),
    Entry(0xF018, 0xF0FF, OpFX18),
    Entry(0xF01E, 0xF0FF, OpFX1E),
    Entry(0xF029, 0xF0FF, OpFX29),
    Entry(0xF033, 0xF0FF, OpFX33),
    Entry(0xF055, 0xF0FF, OpFX55),
    Entry(0xF065, 0xF0FF, OpFX65)
  ]

  /** Runs the handler an entry names. */
  function Build(f: Family, opcode: Word): (r: Instruction)
    ensures WellFormed(r)
  {
    match f
    case Op00E0 => Handle00E0(opcode)
    case Op00EE => Handle00EE(opcode)
    case Op0NNN => Handle0NNN(opcode)
    case Op1NNN => Handle1NNN(opcode)
    case Op2NNN => Handle2NNN(opcode)
    case Op3XNN => Handle3XNN(opcode)
    case Op4XNN => Handle4XNN(opcode)
    case Op5XY0 => Handle5XY0(opcode)
    case Op6XNN => Handle6XNN(opcode)
    case Op7XNN => Handle7XNN(opcode)
    case Op8XY0 => Handle8XY0(opcode)
    case Op8XY1 => Handle8XY1(opcode)
    case Op8XY2 => Handle8XY2(opcode)
    case Op8XY3 => Handle8XY3(opcode)
    case Op8XY4 => Handle8XY4(opcode)
    case Op8XY5 => Handle8XY5(opcode)
    case Op8XY6 => Handle8XY6(opcode)
    case Op8XY7 => Handle8XY7(opcode)
    case Op8XYE => Handle8XYE(opcode)
    case Op9XY0 => Handle9XY0(opcode)
    case OpANNN => HandleANNN(opcode)
    case OpBNNN => HandleBNNN(opcode)
    case OpCXNN => HandleCXNN(opcode)
    case OpDXYN => HandleDXYN(opcode)
    case OpEX9E => HandleEX9E(opcode)
    case OpEXA1 => HandleEXA1(opcode)
    case OpFX07 => HandleFX07(opcode)
    case OpFX0A => HandleFX0A(opcode)
    case OpFX15 => HandleFX15(opcode)
    case OpFX18 => HandleFX18(opcode)
    case OpFX1E => HandleFX1E(opcode)
    case OpFX29 => HandleFX29(opcode)
    case OpFX33 => HandleFX33(opcode)
    case OpFX55 => HandleFX55(opcode)
    case OpFX65 => HandleFX65(opcode)
  }

  /** The source's loop test: a word is taken by an entry only when it is nonzero and matches. */
  predicate Selects(e: Entry, w: Word) {
    w != 0 && w & e.mask == e.opcode
  }

  /** `k` is the lowest index of `table` whose entry takes `w`. */
  predicate FirstSelects(table: seq<Entry>, k: int, w: Word) {
    && 0 <= k < |table|
    && Selects(table[k], w)
    && forall j | 0 <= j < k :: !Selects(table[j], w)
  }

  /** The scan of the `for` loop over `table`, started at index `from`: the index of the first entry that takes `w`. */
  function FirstMatch(table: seq<Entry>, w: Word, from: nat): (r: Option<nat>)
    requires from <= |table|
    decreases |table| - from
    ensures r.Some? ==> from <= r.value < |table|
  {
    if from == |table| then None
    else if Selects(table[from], w) then Some(from)
    else FirstMatch(table, w, from + 1)
  }

  /** The scan finds the first entry from `from` on that takes `w`, and finds nothing only when no entry does. */
  lemma {:induction false} FirstMatchSpec(table: seq<Entry>, w: Word, from: nat)
    requires from <= |table|
    decreases |table| - from
    ensures var r := FirstMatch(table, w, from);
            && (r.Some? ==> Selects(table[r.value], w))
            && (r.Some? ==> forall j | from <= j < r.value :: !Selects(table[j], w))
            && (r.None? <==> forall j | from <= j < |table| :: !Selects(table[j], w))
  {
    if from < |table| && !Selects(table[from], w) {
      FirstMatchSpec(table, w, from + 1);
    }
  }

  /**
    The decoding loop over any table: the handler of the first entry that
    takes the word builds the instruction; a word no entry takes is returned
    as the error.
  */
  function Decode(table: seq<Entry>, w: Word): (r: Result<Instruction, Word>)
    ensures r.Success? ==> WellFormed(r.value)
    ensures r.Failure? ==> r.error == w
  {
    match FirstMatch(table, w, 0)
    case Some(k) => Success(Build(table[k].handler, w))
    case None => Failure(w)
  }

  /**
    First match wins: the decoder fails exactly when no entry takes the word,
    the error is the word itself, and a success is the handler of the
    lowest-index entry that takes it.
  */
  lemma DecodeSpec(table: seq<Entry>, w: Word)
    ensures Decode(table, w).Failure? <==> forall j | 0 <= j < |table| :: !Selects(table[j], w)
    ensures Decode(table, w).Failure? ==> Decode(table, w).error == w
    ensures forall k | FirstSelects(table, k, w) :: Decode(table, w) == Success(Build(table[k].handler, w))
  {
    FirstMatchSpec(table, w, 0);
  }

  /** `TryFrom<u16> for InstructionV2`: the loop over `OPCODE_TABLE`. */
  function TryFrom(w: Word): Result<Instruction, Word> {
    Decode(Table, w)
  }
}
