/**
  The machine state of src/core.rs and the pure parts of its behaviour: the
  all-zero constructor, placing a ROM image at the program offset, building
  a big-endian word from two bytes, and one fetch step of the run loop.
  Reading the ROM file is left to the caller, who passes the file's bytes.
*/
module Machine {
  import opened Wrappers
  import opened Bitmasks

  const MemorySize: nat := 4096
  const StackSize: nat := 16
  const RegisterCount: nat := 16
  /** Programs are placed here; the bytes below are left alone. */
  const ProgramOffset: nat := 512
  /** The one read fills a buffer as large as the memory above the program offset. */
  const BufferSize: nat := MemorySize - ProgramOffset

  /** An unsigned 16-bit count, as the `u16` program counter. */
  type U16 = x: int | 0 <= x < 0x1_0000

  type Memory = m: seq<Byte> | |m| == MemorySize witness seq(MemorySize, _ => 0)
  type Stack = s: seq<Word> | |s| == StackSize witness seq(StackSize, _ => 0)
  type Registers = v: seq<Byte> | |v| == RegisterCount witness seq(RegisterCount, _ => 0)

  datatype Machine = Machine(
    name: string,
    counter: U16,
    stackPtr: Byte,
    mem: Memory,
    stack: Stack,
    v: Registers,
    i: Word,
    delay: Byte,
    sound: Byte)

  /** A fresh machine: everything zero, the program counter included. */
  function New(name: string): (m: Machine)
    ensures m.name == name
    ensures m.counter == 0 && m.stackPtr == 0 && m.i == 0 && m.delay == 0 && m.sound == 0
    ensures forall k | 0 <= k < MemorySize :: m.mem[k] == 0
    ensures forall k | 0 <= k < StackSize :: m.stack[k] == 0
    ensures forall k | 0 <= k < RegisterCount :: m.v[k] == 0
  {
    Machine(name, 0, 0, seq(MemorySize, _ => 0), seq(StackSize, _ => 0),
            seq(RegisterCount, _ => 0), 0, 0, 0)
  }

  /** The bytes the single read takes from a ROM file: as many as fit in the buffer. */
  function Delivered(rom: seq<Byte>): (r: seq<Byte>)
    ensures |r| <= BufferSize && |r| <= |rom|
    ensures r == rom[..|r|]
    ensures |r| == |rom| || |r| == BufferSize
  {
    if |rom| <= BufferSize then rom else rom[..BufferSize]
  }

  /** The buffer after the read: the delivered bytes, then the zeros it was created with. */
  function Buffer(rom: seq<Byte>): (b: seq<Byte>)
    ensures |b| == BufferSize
    ensures b[..|Delivered(rom)|] == Delivered(rom)
    ensures forall k | |Delivered(rom)| <= k < BufferSize :: b[k] == 0
  {
    var d := Delivered(rom);
    d + seq(BufferSize - |d|, _ => 0)
  }

  /**
    Places a ROM at the program offset: the whole buffer is copied over the
    memory above the offset, so what the read delivered lands at 512 and the
    rest up to the end of memory becomes zero.
  */
  function CopyIntoMem(m: Machine, rom: seq<Byte>): (r: Machine)
    ensures r.mem[..ProgramOffset] == m.mem[..ProgramOffset]
    ensures forall k | 0 <= k < |Delivered(rom)| :: r.mem[ProgramOffset + k] == rom[k]
    ensures forall k | ProgramOffset + |Delivered(rom)| <= k < MemorySize :: r.mem[k] == 0
    ensures r == m.(mem := r.mem)
  {
    m.(mem := m.mem[..ProgramOffset] + Buffer(rom))
  }

  /** Reading the program area back gives the ROM, up to what fits above the offset. */
  lemma CopyReadsBack(m: Machine, rom: seq<Byte>)
    ensures |rom| <= BufferSize ==> CopyIntoMem(m, rom).mem[ProgramOffset..ProgramOffset + |rom|] == rom
    ensures |rom| > BufferSize ==> CopyIntoMem(m, rom).mem[ProgramOffset..] == rom[..BufferSize]
  {
    var r := CopyIntoMem(m, rom);
    var d := Delivered(rom);
    assert r.mem[ProgramOffset..] == Buffer(rom);
    assert r.mem[ProgramOffset..ProgramOffset + |d|] == Buffer(rom)[..|d|];
  }

  /** Copying an empty ROM into a fresh machine leaves every byte of memory zero. */
  lemma EmptyRomKeepsMemoryZero(name: string)
    ensures forall k | 0 <= k < MemorySize :: CopyIntoMem(New(name), []).mem[k] == 0
  {
    var r := CopyIntoMem(New(name), []);
    forall k | 0 <= k < MemorySize ensures r.mem[k] == 0 {
      if k < ProgramOffset {
        assert r.mem[k] == r.mem[..ProgramOffset][k];
      }
    }
  }

  /** The copy test: the bytes of "Hello World!" land at 512 onwards. */
  lemma HelloWorldCopied(name: string)
    ensures CopyIntoMem(New(name), [72, 101, 108, 108, 111, 32, 87, 111, 114, 108, 100, 33]).mem[512..524]
         == [72, 101, 108, 108, 111, 32, 87, 111, 114, 108, 100, 33]
  {
    CopyReadsBack(New(name), [72, 101, 108, 108, 111, 32, 87, 111, 114, 108, 100, 33]);
  }

  /** Big-endian assembly: the first byte is the high byte, the second the low byte. */
  function GetOpcode(b: seq<Byte>): (r: Word)
    requires |b| >= 2
    ensures (r >> 8) as Byte == b[0]
    ensures Mask00FF(r) == b[1]
  {
    ((b[0] as Word) << 8) | (b[1] as Word)
  }

  /** The high and low bytes of a word. */
  function Split(w: Word): (b: seq<Byte>)
    ensures |b| == 2
  {
    [(w >> 8) as Byte, (w & 0xFF) as Byte]
  }

  /** Assembly undoes splitting: every word is assembled from its own two bytes. */
  lemma GetOpcodeOfSplit(w: Word)
    ensures GetOpcode(Split(w)) == w
  {}

  /** Splitting undoes assembly: the two bytes come back in order. */
  lemma SplitOfGetOpcode(b: seq<Byte>)
    requires |b| == 2
    ensures Split(GetOpcode(b)) == b
  {}

  /** In numbers: the word is the first byte times 256 plus the second, which cannot overflow 16 bits. */
  lemma GetOpcodeValue(b: seq<Byte>)
    requires |b| >= 2
    ensures GetOpcode(b) == (b[0] as Word) * 0x100 + b[1] as Word
  {}

  /** The word-assembly tests, including that nothing is padded or swapped. */
  lemma GetOpcodeFixtures()
    ensures GetOpcode([0x31, 0x42]) == 0x3142
    ensures GetOpcode([0x01, 0x02]) == 0x0102
    ensures GetOpcode([0xAB, 0x9C]) == 0xAB9C
    ensures GetOpcode([0x01, 0x02]) != 0x1200 && GetOpcode([0x01, 0x02]) != 0x0012
  {}

  /**
    Why the run loop stops. The loop panics on a counter past 4095; a
    counter of exactly 4095 passes that guard, and the two-byte read then
    runs past the end of memory, which panics as well.
  */
  datatype Halt = CounterOutOfBounds | ReadOutOfBounds

  /** What one fetch yields: the word read and the machine after it. */
  datatype Fetch = Fetch(opcode: Word, next: Machine)

  /** One iteration of the run loop: the guard, the two-byte read, and the counter moved past it. */
  function Step(m: Machine): Result<Fetch, Halt> {
    var pc := m.counter;
    if pc > 4095 then Failure(CounterOutOfBounds)
    else if pc + 1 >= MemorySize then Failure(ReadOutOfBounds)
    else Success(Fetch(GetOpcode(m.mem[pc..pc + 2]), m.(counter := pc + 2)))
  }

  /**
    The step halts exactly at the counters the guard or the read refuse;
    otherwise it reads the big-endian word at the counter, moves the counter
    on by two, and changes nothing else.
  */
  lemma StepSpec(m: Machine)
    ensures Step(m) == Failure(CounterOutOfBounds) <==> m.counter >= MemorySize
    ensures Step(m) == Failure(ReadOutOfBounds) <==> m.counter == MemorySize - 1
    ensures Step(m).Success? ==>
              && m.counter + 1 < MemorySize
              && Step(m).value.opcode == (m.mem[m.counter] as Word) * 0x100 + m.mem[m.counter + 1] as Word
              && Step(m).value.next == m.(counter := m.counter + 2)
  {
    if m.counter + 1 < MemorySize {
      GetOpcodeValue(m.mem[m.counter..m.counter + 2]);
    }
  }

  /** `n` iterations of the run loop, stopping at the first halt. */
  function Run(m: Machine, n: nat): Result<Machine, Halt>
    decreases n
  {
    if n == 0 then Success(m)
    else match Step(m)
         case Success(f) => Run(f.next, n - 1)
         case Failure(h) => Failure(h)
  }

  /** From an even counter the loop never reaches the out-of-bounds read: the guard alone stops it. */
  lemma {:induction false} EvenCounterReadsInBounds(m: Machine, n: nat)
    requires m.counter % 2 == 0
    ensures Run(m, n) != Failure(ReadOutOfBounds)
    decreases n
  {
    if n > 0 && m.counter + 1 < MemorySize {
      EvenCounterReadsInBounds(m.(counter := m.counter + 2), n - 1);
    }
  }

  /** While the counter stays in memory, `n` steps move it by `2 * n` and change nothing else. */
  lemma {:induction false} RunAdvances(m: Machine, n: nat)
    requires m.counter % 2 == 0 && m.counter + 2 * n <= MemorySize
    ensures Run(m, n) == Success(m.(counter := m.counter + 2 * n))
    decreases n
  {
    if n > 0 {
      RunAdvances(m.(counter := m.counter + 2), n - 1);
    }
  }

  /**
    A fresh machine fetches 2048 words, the whole memory, and the next
    iteration stops at the counter guard.
  */
  lemma FreshMachineHaltsAtGuard(name: string)
    ensures Run(New(name), 2048) == Success(New(name).(counter := MemorySize))
    ensures Run(New(name), 2049) == Failure(CounterOutOfBounds)
  {
    var m := New(name);
    RunAdvances(m, 2048);
    RunSplit(m, 2048, 1);
  }

  /** Running `a + b` steps is running `a`, then `b` from where it stopped. */
  lemma {:induction false} RunSplit(m: Machine, a: nat, b: nat)
    ensures Run(m, a + b) == match Run(m, a)
                             case Success(m') => Run(m', b)
                             case Failure(h) => Failure(h)
    decreases a
  {
    if a > 0 {
      match Step(m)
      case Success(f) => RunSplit(f.next, a - 1, b);
      case Failure(h) =>
    }
  }
}
