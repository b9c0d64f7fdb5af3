# CHIP-8 instruction decoder, modelled in Dafny

A model of the decoding core of `chip8-rust`, a CHIP-8 interpreter in
Rust. The core covers:

- the six bit-field projections of a 16-bit opcode word (`bitmasks.rs`);
- the 35 per-family operand builders (`ophandlers.rs`);
- the ordered opcode table and its first-match decoder, `TryFrom<u16> for InstructionV2` (`opcodesv2.rs`);
- the pure parts of the machine in `core.rs`: the all-zero constructor, placing a ROM image at offset 512, big-endian word assembly, and one fetch step of the run loop.

The instruction set follows section 3.1 of Cowgod's CHIP-8 Technical
Reference.

Layout, one module per file:

| file | module | what it holds |
|---|---|---|
| `wrappers.dfy` | `Wrappers` | `Option` and `Result` |
| `bitmasks.dfy` | `Bitmasks` | `Byte`/`Word` as `bv8`/`bv16`, the six projections, and nibble lemmas |
| `instructions.dfy` | `Instructions` | the 35-variant `Instruction` datatype, `WellFormed`, and `Encode` (the canonical Cowgod word of an instruction, the inverse the handlers are checked against) |
| `ophandlers.dfy` | `OpHandlers` | the 35 handlers and lemmas on which bits each one reads |
| `opcodes.dfy` | `Opcodes` | the `Family` tags, the 35-entry `Table`, `Build` (the tag-to-handler dispatch), and the first-match `Decode`/`TryFrom` |
| `reference.dfy` | `Reference` | an independent nested classifier, class nibble first and then the sub-opcode field, written without the table |
| `table_classes.dfy` | `TableClasses` | the table read class by class: a word is only ever taken by entries of its own class |
| `decoder_properties.dfy` | `DecoderProperties` | `TryFrom` equals the reference decoder on every word; the per-class behaviour, rejections and test fixtures follow from that |
| `inverse.dfy` | `Inverse` | encode-then-decode gives every instruction back; three words for which decode-then-encode does not |
| `machine.dfy` | `Machine` | the machine state, `New`, `CopyIntoMem`, `GetOpcode`, `Step` and `Run` |
| `startup.dfy` | `Startup` | fetching from a loaded machine, and what the decoder would make of a fresh machine's first word (the source's run loop does not decode yet) |

The function pointers of the table become a `Family` tag, and
`Build(tag, word)` calls the matching handler. The decoder returns
`Result<Instruction, Word>`, and a failure carries the rejected word.

The decoder is checked two ways:

- Every handler's contract re-encodes its result. This says exactly which bits of the word survive.
- `TryFrom` is proved equal, on all 65536 words, to a classifier written independently of the table. The proof goes class by class: every entry's mask covers the top nibble, and the table lists the classes in order.
- Decoding the canonical word of any well-formed instruction other than `SYS` gives the instruction back (`Inverse.EncodeThenDecode`). The converse fails, and `Inverse` names a word for each way it fails.

## Where the code departs from Cowgod's reference

- `SYS` carries no address, where the reference has `SYS addr`.
- The `EXA1` entry is opcode `0xE001` with mask `0xF00F`, not the word `0xE0A1` that the reference lists. Every class-E word with low nibble 1 is therefore `SkipNotKeyPress`, whatever its third nibble.
- `Machine::new` starts the program counter at 0, while the reference loads and starts programs at `0x200`. The first fetch after loading a ROM reads address 0, below the program, and gets `0x0000`, a word the decoder rejects (`Startup.FirstFetchMissesRom`). The run loop does not yet decode what it fetches.

Two more facts about the code matter for the proofs:

- Word `0x0000` is rejected with an error.
- The table is not prefix-free. `0x00E0` and `0x00EE` also match the `0NNN` entry, and only the order of the entries makes them decode as `ClearScreen` and `Return`.

## Model

| member | source | states |
|---|---|---|
| Bitmasks.MaskF000 | src/bitmasks.rs:2-4 | the result is below 16 and is exactly the top nibble: shifted back by 12 it equals `opcode & 0xF000` |
| Bitmasks.Mask00FF | src/bitmasks.rs:7-9 | putting the result back under the word's high byte gives the word, so it is the low byte and nothing else |
| Bitmasks.Mask0F00 | src/bitmasks.rs:12-14 | the result is below 16 and is exactly the second nibble: shifted back by 8 it equals `opcode & 0x0F00` |
| Bitmasks.Mask0FFF | src/bitmasks.rs:17-19 | the result is below `0x1000`, and putting the top nibble back gives the word |
| Bitmasks.Mask00F0 | src/bitmasks.rs:22-24 | the result is below 16 and is exactly the third nibble: shifted back by 4 it equals `opcode & 0x00F0` |
| Bitmasks.Mask000F | src/bitmasks.rs:27-29 | the result is below 16, and putting it back under the word's top twelve bits gives the word |
| Bitmasks.NibblesReassemble | src/bitmasks.rs:2-29 | the four nibbles, read as base-16 digits, give back the word |
| Bitmasks.AddressIsLowNibbles | src/bitmasks.rs:12-29 | the 12-bit address is `0F00*256 + 00F0*16 + 000F` |
| Bitmasks.ByteIsLowNibbles | src/bitmasks.rs:7-29 | the low byte is `00F0*16 + 000F` |
| Bitmasks.AddressIdempotent | src/bitmasks.rs:17-19 | taking the address of an address changes nothing |
| Bitmasks.NibblesDetermineWord | src/bitmasks.rs:2-29 | two words are equal if and only if all four nibbles are |
| OpHandlers.Handle00E0 | src/ophandlers.rs:5-7 | always `ClearScreen`, whatever the word; it encodes back to `00E0` |
| OpHandlers.Handle00EE | src/ophandlers.rs:10-12 | always `Return`, whatever the word; it encodes back to `00EE` |
| OpHandlers.Handle0NNN | src/ophandlers.rs:15-17 | always `SYS`, whatever the word: no address is kept, so it has no encoding |
| OpHandlers.Handle1NNN | src/ophandlers.rs:20-22 | a well-formed `Jump` that keeps the 12-bit address: re-encoding gives `0x1000` with the word's `0x0FFF` bits filled in |
| OpHandlers.Handle2NNN | src/ophandlers.rs:25-27 | a well-formed `Call` that keeps the 12-bit address: re-encoding gives `0x2000` with the word's `0x0FFF` bits filled in |
| OpHandlers.Handle3XNN | src/ophandlers.rs:30-32 | a well-formed `SkipEqualsByte` that keeps X and the low byte: re-encoding gives `0x3000` with the word's `0x0FFF` bits filled in |
| OpHandlers.Handle4XNN | src/ophandlers.rs:35-37 | a well-formed `SkipNotEqualsByte` that keeps X and the low byte: re-encoding gives `0x4000` with the word's `0x0FFF` bits filled in |
| OpHandlers.Handle5XY0 | src/ophandlers.rs:40-42 | a well-formed `SkipEqualsRegister` that keeps X and Y: re-encoding gives `0x5000` with the word's `0x0FF0` bits filled in |
| OpHandlers.Handle6XNN | src/ophandlers.rs:45-47 | a well-formed `LoadByte` that keeps X and the low byte: re-encoding gives `0x6000` with the word's `0x0FFF` bits filled in |
| OpHandlers.Handle7XNN | src/ophandlers.rs:50-52 | a well-formed `AddByte` that keeps X and the low byte: re-encoding gives `0x7000` with the word's `0x0FFF` bits filled in |
| OpHandlers.Handle8XY0 | src/ophandlers.rs:55-59 | a well-formed `LoadRegister` that keeps X and Y: re-encoding gives `0x8000` with the word's `0x0FF0` bits filled in |
| OpHandlers.Handle8XY1 | src/ophandlers.rs:62-66 | a well-formed `Or` that keeps X and Y: re-encoding gives `0x8001` with the word's `0x0FF0` bits filled in |
| OpHandlers.Handle8XY2 | src/ophandlers.rs:69-73 | a well-formed `And` that keeps X and Y: re-encoding gives `0x8002` with the word's `0x0FF0` bits filled in |
| OpHandlers.Handle8XY3 | src/ophandlers.rs:76-80 | a well-formed `Xor` that keeps X and Y: re-encoding gives `0x8003` with the word's `0x0FF0` bits filled in |
| OpHandlers.Handle8XY4 | src/ophandlers.rs:83-87 | a well-formed `AddRegister` that keeps X and Y: re-encoding gives `0x8004` with the word's `0x0FF0` bits filled in |
| OpHandlers.Handle8XY5 | src/ophandlers.rs:90-94 | a well-formed `SubRegister` that keeps X and Y: re-encoding gives `0x8005` with the word's `0x0FF0` bits filled in |
| OpHandlers.Handle8XY6 | src/ophandlers.rs:97-100 | a well-formed `ShiftRight` that keeps X only (Y is dropped): re-encoding gives `0x8006` with the word's `0x0F00` bits filled in |
| OpHandlers.Handle8XY7 | src/ophandlers.rs:103-107 | a well-formed `SubNRegister` that keeps X and Y: re-encoding gives `0x8007` with the word's `0x0FF0` bits filled in |
| OpHandlers.Handle8XYE | src/ophandlers.rs:110-113 | a well-formed `ShiftLeft` that keeps X only (Y is dropped): re-encoding gives `0x800E` with the word's `0x0F00` bits filled in |
| OpHandlers.Handle9XY0 | src/ophandlers.rs:116-118 | a well-formed `SkipNotEqualRegister` that keeps X and Y: re-encoding gives `0x9000` with the word's `0x0FF0` bits filled in |
| OpHandlers.HandleANNN | src/ophandlers.rs:121-123 | a well-formed `LoadImmediate` that keeps the 12-bit address: re-encoding gives `0xA000` with the word's `0x0FFF` bits filled in |
| OpHandlers.HandleBNNN | src/ophandlers.rs:126-128 | a well-formed `JumpBase` that keeps the 12-bit address: re-encoding gives `0xB000` with the word's `0x0FFF` bits filled in |
| OpHandlers.HandleCXNN | src/ophandlers.rs:131-133 | a well-formed `Random` that keeps X and the low byte: re-encoding gives `0xC000` with the word's `0x0FFF` bits filled in |
| OpHandlers.HandleDXYN | src/ophandlers.rs:136-138 | a well-formed `DisplaySprite` that keeps X, Y and N: re-encoding gives `0xD000` with the word's `0x0FFF` bits filled in |
| OpHandlers.HandleEX9E | src/ophandlers.rs:141-144 | a well-formed `SkipKeyPress` that keeps X only: re-encoding gives `0xE09E` with the word's `0x0F00` bits filled in |
| OpHandlers.HandleEXA1 | src/ophandlers.rs:147-150 | a well-formed `SkipNotKeyPress` that keeps X only: re-encoding gives `0xE0A1` with the word's `0x0F00` bits filled in |
| OpHandlers.HandleFX07 | src/ophandlers.rs:153-156 | a well-formed `LoadFromDelay` that keeps X only: re-encoding gives `0xF007` with the word's `0x0F00` bits filled in |
| OpHandlers.HandleFX0A | src/ophandlers.rs:159-162 | a well-formed `LoadKeyPress` that keeps X only: re-encoding gives `0xF00A` with the word's `0x0F00` bits filled in |
| OpHandlers.HandleFX15 | src/ophandlers.rs:165-168 | a well-formed `LoadDelay` that keeps X only: re-encoding gives `0xF015` with the word's `0x0F00` bits filled in |
| OpHandlers.HandleFX18 | src/ophandlers.rs:171-174 | a well-formed `LoadSound` that keeps X only: re-encoding gives `0xF018` with the word's `0x0F00` bits filled in |
| OpHandlers.HandleFX1E | src/ophandlers.rs:177-180 | a well-formed `AddI` that keeps X only: re-encoding gives `0xF01E` with the word's `0x0F00` bits filled in |
| OpHandlers.HandleFX29 | src/ophandlers.rs:183-186 | a well-formed `LoadFontSprite` that keeps X only: re-encoding gives `0xF029` with the word's `0x0F00` bits filled in |
| OpHandlers.HandleFX33 | src/ophandlers.rs:189-192 | a well-formed `LoadIBCD` that keeps X only: re-encoding gives `0xF033` with the word's `0x0F00` bits filled in |
| OpHandlers.HandleFX55 | src/ophandlers.rs:195-198 | a well-formed `StoreRegisters` that keeps X only: re-encoding gives `0xF055` with the word's `0x0F00` bits filled in |
| OpHandlers.HandleFX65 | src/ophandlers.rs:201-204 | a well-formed `LoadRegisters` that keeps X only: re-encoding gives `0xF065` with the word's `0x0F00` bits filled in |
| OpHandlers.ConstantHandlersIgnoreWord | src/ophandlers.rs:5-17 | `00E0`, `00EE` and `0NNN` give the same instruction for any two words |
| OpHandlers.AddressDecides | src/ophandlers.rs:20-128 | `1NNN`, `2NNN`, `ANNN` and `BNNN` give equal instructions for words that agree on the twelve low bits |
| OpHandlers.LowTwelveBitsDecide | src/ophandlers.rs:30-138 | the register-and-byte handlers and `DXYN` give equal instructions for words that agree on the twelve low bits |
| OpHandlers.MiddleByteDecides | src/ophandlers.rs:40-118 | the X-and-Y handlers give equal instructions for words that agree on the middle byte |
| OpHandlers.SecondNibbleDecides | src/ophandlers.rs:97-204 | the shifts and every `E`/`F` handler give equal instructions for words that agree on X |
| Opcodes.Build | src/opcodesv2.rs:53-229 | whatever the table tag, the handler it calls builds a well-formed instruction: addresses below `0x1000`, registers and nibbles below 16 |
| Opcodes.FirstMatch | src/opcodesv2.rs:235-241 | the `for` loop over the table: an index it returns lies in the table, at or after the start; `FirstMatchSpec` states that it is the first entry taking the word |
| Opcodes.FirstMatchSpec | src/opcodesv2.rs:235-240 | the scan stops at an entry that takes the word and passes over none that does; it finds nothing if and only if no entry takes the word |
| Opcodes.DecodeSpec | src/opcodesv2.rs:231-244 | the decoder fails if and only if no entry takes the word; the error is the word itself; a success is the lowest-index matching entry's handler applied to the word |
| Opcodes.Decode | src/opcodesv2.rs:231-244 | a success is a well-formed instruction and a failure carries the word itself; `DecodeSpec` states which entry's handler builds a success |
| Opcodes.TryFrom | src/opcodesv2.rs:231-244 | `try_from` is the first-match decoder over `Table`, the 35 entries of `OPCODE_TABLE` in source order; its contract is `DecodeSpec`, `TableByClass` and `TryFromMatchesReference` |
| TableClasses.PickAppend | src/opcodesv2.rs:235-240 | scanning `a + b` gives the first part's pick, or the second's when the first part takes nothing |
| TableClasses.TableByClass | src/opcodesv2.rs:53-229 | `Table`, the literal `OPCODE_TABLE`, is its sixteen class runs in class order |
| TableClasses.PickByClass | src/opcodesv2.rs:53-240 | the table's pick for a word is the pick of its own class's run alone |
| DecoderProperties.TryFromMatchesReference | src/opcodesv2.rs:231-244 | on every word the table-driven decoder equals the reference classifier's decoder |
| DecoderProperties.ZeroRejected | src/opcodesv2.rs:236-242 | `try_from(0)` is an error that carries 0 |
| DecoderProperties.FC14Rejected | src/opcodesv2.rs:342-351 | `0xFC14` is rejected, and the error names it |
| DecoderProperties.EB8ERejected | src/opcodesv2.rs:342-351 | `0xEB8E` is rejected, and the error names it |
| DecoderProperties.AlwaysDecodes | src/opcodesv2.rs:64-173 | every nonzero word of class 0, 1, 2, 3, 4, 6, 7, A, B, C or D decodes |
| DecoderProperties.ClassZero | src/opcodesv2.rs:54-68 | `0x00E0` gives `ClearScreen`, `0x00EE` gives `Return`, and any other nonzero class-0 word gives `SYS` |
| DecoderProperties.ClassesFiveAndNine | src/opcodesv2.rs:89-153 | a class-5 or class-9 word decodes if and only if its low nibble is 0, and then gives `SkipEqualsRegister(X, Y)` or `SkipNotEqualRegister(X, Y)` respectively |
| DecoderProperties.ClassEight | src/opcodesv2.rs:104-148 | a class-8 word decodes if and only if its low nibble is 0 to 7 or E; `8XY6` and `8XYE` give shifts of X alone |
| DecoderProperties.ClassE | src/opcodesv2.rs:174-183 | `SkipKeyPress` if and only if the low byte is `9E`; any low nibble 1 gives `SkipNotKeyPress`; the class decodes if and only if one of the two holds |
| DecoderProperties.ClassF | src/opcodesv2.rs:184-229 | a class-F word decodes if and only if its low byte is one of the nine sub-opcodes, and then re-encoding the result gives the word back |
| DecoderProperties.FixtureJump | src/opcodesv2.rs:259 | `0x16B5` decodes to `Jump(0x6B5)` |
| DecoderProperties.FixtureSubRegister | src/opcodesv2.rs:301-304 | `0x8DB5` decodes to `SubRegister(0xD, 0xB)` |
| DecoderProperties.FixtureDisplaySprite | src/opcodesv2.rs:321-324 | `0xDDB5` decodes to `DisplaySprite(0xD, 0xB, 5)` |
| DecoderProperties.FixtureLoadRegisters | src/opcodesv2.rs:335 | `0xFD65` decodes to `LoadRegisters(0xD)` |
| Inverse.EncodeThenDecode | src/opcodesv2.rs:53-244 | `SYS` is the only instruction without a canonical word, and the canonical word of every other well-formed instruction decodes to that instruction |
| Inverse.ShiftDropsY | src/ophandlers.rs:97-100 | `0x8DB6` decodes to `ShiftRight(0xD)`, whose canonical word is `0x8D06`: the shift handlers drop Y |
| Inverse.KeyReleaseAnyLowOne | src/opcodesv2.rs:179-183 | `0xE5B1` decodes to `SkipNotKeyPress(0x5)`, whose canonical word is `0xE5A1`: the `EXA1` entry takes any low nibble 1 |
| Inverse.SysDropsAddress | src/ophandlers.rs:15-17 | `0x06B5` decodes to `SYS`, which has no canonical word: the handler drops the address |
| Machine.New | src/core.rs:48-62 | the fresh machine has its name; counter, stack pointer, `i` and both timers are 0; all 4096 memory bytes, 16 stack slots and 16 registers are 0 |
| Machine.Delivered | src/core.rs:70-74 | the read takes a prefix of the ROM: the whole ROM, or the first 3584 bytes when it is longer |
| Machine.Buffer | src/core.rs:70-74 | the buffer is 3584 bytes: the bytes read, then zeros |
| Machine.CopyIntoMem | src/core.rs:69-80 | memory below 512 is unchanged; ROM byte `k` is at `512 + k`; everything after the copied bytes is zero; no other field changes |
| Machine.CopyReadsBack | src/core.rs:69-80 | reading memory from 512 gives the ROM back, cut to 3584 bytes |
| Machine.EmptyRomKeepsMemoryZero | src/core.rs:121-131 | copying an empty ROM into a fresh machine leaves all memory zero |
| Machine.HelloWorldCopied | src/core.rs:133-146 | the twelve bytes of "Hello World!" sit at 512 to 523 |
| Machine.GetOpcode | src/core.rs:108-113 | the first byte is the word's high byte and the second its low byte |
| Machine.GetOpcodeOfSplit | src/core.rs:108-113 | assembling a word's own two bytes gives the word |
| Machine.SplitOfGetOpcode | src/core.rs:108-113 | splitting an assembled word gives back the two bytes in order |
| Machine.GetOpcodeValue | src/core.rs:108-113 | the word is `first * 256 + second` |
| Machine.GetOpcodeFixtures | src/core.rs:149-157 | `[0x31,0x42]` gives `0x3142`, `[0xAB,0x9C]` gives `0xAB9C`, and `[1,2]` gives `0x0102`, not `0x1200` or `0x0012` |
| Machine.StepSpec | src/core.rs:86-96 | a step halts at the guard if and only if the counter is above 4095, and at the read if and only if the counter is exactly 4095; otherwise it reads `mem[pc]*256 + mem[pc+1]` and adds 2 to the counter, changing nothing else |
| Machine.Step | src/core.rs:86-96 | one iteration of the `start` loop: the guard, the two-byte read, and the counter moved on; its contract is `StepSpec` |
| Machine.Run | src/core.rs:84-97 | `n` iterations of the loop, stopping at the first panic; its contract is `RunSplit`, `RunAdvances` and `EvenCounterReadsInBounds` |
| Machine.EvenCounterReadsInBounds | src/core.rs:86-96 | from an even counter, any number of steps never reaches the out-of-bounds read: the `> 4095` guard suffices |
| Machine.RunAdvances | src/core.rs:84-97 | from an even counter, `n` steps that stay in memory add `2n` to the counter and change nothing else |
| Machine.RunSplit | src/core.rs:84-97 | running `a + b` steps is running `a` steps, then `b` more from where they stopped |
| Machine.FreshMachineHaltsAtGuard | src/core.rs:48-97 | a fresh machine makes 2048 fetches and then stops at the counter guard |
| Startup.FetchesRomWord | src/core.rs:69-96 | with a ROM loaded and the counter on its `j`-th word, a step fetches ROM bytes `2j` and `2j+1` as a big-endian word |
| Startup.FirstFetchMissesRom | src/core.rs:48-96 | after a ROM is loaded into a fresh machine, the first fetch reads `0x0000` at address 0, a word the decoder rejects; the run loop itself does not decode |

## Left out

- `src/main.rs`: argument parsing, logger set-up and the entry point are process plumbing.
- `Machine::load_rom` and the `File::read` call are I/O. `CopyIntoMem` takes the file's bytes instead.
- `Machine.Delivered`: assumes the single read returns as many bytes as fit. A short read, which the OS may return and the code does not retry, is not modelled. A read error, which the code passes on with `?`, is not modelled either.
- The unbounded `loop` of `start` and its `trace!` logging. `Step` is one iteration and `Run` is a bounded number of them. The two panics are the `Halt` values.
- The `fmt::Debug` impls are display formatting only.
- The error text `"Opcode not found: {:X}"`: a failure carries the rejected word instead of its hex rendering.
- The function pointers in the table are replaced by a `Family` tag and `Build`.
- `src/opcodes.rs` is a superseded instruction enum with no behaviour.
- Executing instructions, timers, keyboard and display: the code implements none of them.
- Decoding then re-encoding does not hold for the whole decoder, so no such statement is made. It fails for the shifts, which drop Y (`Inverse.ShiftDropsY`), for class-E words with low nibble 1 other than `ExA1` (`Inverse.KeyReleaseAnyLowOne`), and for `SYS`, which has no word (`Inverse.SysDropsAddress`). It holds within class F (`ClassF`). The direction that holds everywhere, encode then decode, is `Inverse.EncodeThenDecode`.
- The test table at src/opcodesv2.rs:254-339 is proved entry by entry for four of its words only (`Jump`, `SubRegister`, `DisplaySprite`, `LoadRegisters`), plus the class-5 and class-9 forms in `ClassesFiveAndNine`. For every other entry, the instruction follows from `TryFromMatchesReference` by evaluating the reference classifier and `Build` at that word, and the model does not spell that out. `AlwaysDecodes` and the first clause of `ClassEight` say only that those words decode, not what they decode to.
