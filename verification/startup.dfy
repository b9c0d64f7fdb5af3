/**
  Fetching from a machine with a ROM in place, and what the decoder would
  make of the first word a fresh machine fetches. In src/core.rs the run
  loop only logs each word and never decodes it, so applying `TryFrom` to a
  fetched word here is a composition the program does not yet perform.
*/
module Startup {
  import opened Wrappers
  import opened Bitmasks
  import opened Opcodes
  import opened Machine
  import opened DecoderProperties

  /**
    With a ROM in place and the counter at the `j`-th word of the program
    area, a step fetches the ROM's `j`-th big-endian byte pair.
  */
  lemma FetchesRomWord(m: Machine, rom: seq<Byte>, j: nat)
    requires 2 * j + 2 <= |Delivered(rom)|
    ensures var loaded := CopyIntoMem(m, rom).(counter := ProgramOffset + 2 * j);
            Step(loaded) == Success(Fetch(GetOpcode(rom[2 * j..2 * j + 2]), loaded.(counter := ProgramOffset + 2 * j + 2)))
  {
    var loaded := CopyIntoMem(m, rom).(counter := ProgramOffset + 2 * j);
    var pc := ProgramOffset + 2 * j;
    assert loaded.mem[pc..pc + 2] == rom[2 * j..2 * j + 2];
  }

  /**
    A fresh machine's counter is 0, below the program area, so after a ROM
    is copied in the first fetch still reads the two zero bytes at address
    0; were that word handed to the decoder, it would be rejected.
  */
  lemma FirstFetchMissesRom(name: string, rom: seq<Byte>)
    ensures var loaded := CopyIntoMem(New(name), rom);
            && Step(loaded) == Success(Fetch(0x0000, loaded.(counter := 2)))
            && TryFrom(Step(loaded).value.opcode) == Failure(0x0000)
  {
    var loaded := CopyIntoMem(New(name), rom);
    assert loaded.mem[0..2] == loaded.mem[..ProgramOffset][0..2];
    ZeroRejected();
  }
}
