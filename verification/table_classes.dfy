/**
  The table read class by class. Every entry's mask covers the class
  nibble (the top four bits), so a word can only be taken by entries of its
  own class; the table lists the classes in order, so the scan over the
  whole table is the scan over the word's class alone. The lemmas here
  reduce `Decode(Table, w)` to a scan over at most nine entries.
*/
module TableClasses {
  import opened Wrappers
  import opened Bitmasks
  import opened Opcodes

  /** The family the scan picks: the handler of the first entry that takes `w`, if any. */
  function Pick(table: seq<Entry>, w: Word): Option<Family> {
    match FirstMatch(table, w, 0)
    case Some(k) => Some(table[k].handler)
    case None => None
  }

  lemma PickSpec(table: seq<Entry>, w: Word)
    ensures Pick(table, w).None? <==> forall j | 0 <= j < |table| :: !Selects(table[j], w)
    ensures forall k | FirstSelects(table, k, w) :: Pick(table, w) == Some(table[k].handler)
  {
    FirstMatchSpec(table, w, 0);
  }

  /** The decoder is the pick followed by the picked handler. */
  lemma DecodeIsPick(table: seq<Entry>, w: Word)
    ensures Decode(table, w) == match Pick(table, w)
                                case Some(f) => Success(Build(f, w))
                                case None => Failure(w)
  {}

  /** The scan of `a + b` past `a` is the scan of `b`, with indices shifted by `|a|`. */
  lemma {:induction false} FirstMatchSuffix(a: seq<Entry>, b: seq<Entry>, w: Word, j: nat)
    requires j <= |b|
    decreases |b| - j
    ensures FirstMatch(a + b, w, |a| + j) == match FirstMatch(b, w, j)
                                              case Some(k) => Some(|a| + k)
                                              case None => None
  {
    if j < |b| {
      assert (a + b)[|a| + j] == b[j];
      if !Selects(b[j], w) {
        FirstMatchSuffix(a, b, w, j + 1);
      }
    }
  }

  /** The scan of `a + b` from inside `a` finds what the scan of `a` finds, and otherwise goes on into `b`. */
  lemma {:induction false} FirstMatchPrefix(a: seq<Entry>, b: seq<Entry>, w: Word, from: nat)
    requires from <= |a|
    decreases |a| - from
    ensures FirstMatch(a + b, w, from) == match FirstMatch(a, w, from)
                                          case Some(k) => Some(k)
                                          case None => FirstMatch(a + b, w, |a|)
  {
    if from < |a| {
      assert (a + b)[from] == a[from];
      if !Selects(a[from], w) {
        FirstMatchPrefix(a, b, w, from + 1);
      }
    }
  }

  /** Scanning a concatenation scans the first part, then the second only if the first took nothing. */
  lemma PickAppend(a: seq<Entry>, b: seq<Entry>, w: Word)
    ensures Pick(a + b, w) == if Pick(a, w).Some? then Pick(a, w) else Pick(b, w)
  {
    FirstMatchPrefix(a, b, w, 0);
    FirstMatchSuffix(a, b, w, 0);
    match FirstMatch(a, w, 0)
    case Some(k) =>
      assert (a + b)[k] == a[k];
    case None =>
      match FirstMatch(b, w, 0)
      case Some(k) =>
        assert (a + b)[|a| + k] == b[k];
      case None =>
  }

  /** Every entry of `t` tests the class nibble and expects the class `key`. */
  predicate InClass(t: seq<Entry>, key: Word) {
    forall j | 0 <= j < |t| :: t[j].mask & 0xF000 == 0xF000 && t[j].opcode & 0xF000 == key
  }

  /** Entries of one class take no word of another. */
  lemma PickOtherClass(t: seq<Entry>, key: Word, w: Word)
    requires InClass(t, key) && w & 0xF000 != key
    ensures Pick(t, w) == None
  {
    PickSpec(t, w);
    forall j | 0 <= j < |t| ensures !Selects(t[j], w) {
      var e := t[j];
      assert e.mask & 0xF000 == 0xF000 && e.opcode & 0xF000 == key;
    }
  }

  /** The class nibble of a word, as an index. */
  function ClassIndex(w: Word): (c: nat)
    ensures c < 16
  {
    if w < 0x1000 then 0x0 else if w < 0x2000 then 0x1 else if w < 0x3000 then 0x2 else if w < 0x4000 then 0x3
    else if w < 0x5000 then 0x4 else if w < 0x6000 then 0x5 else if w < 0x7000 then 0x6 else if w < 0x8000 then 0x7
    else if w < 0x9000 then 0x8 else if w < 0xA000 then 0x9 else if w < 0xB000 then 0xA else if w < 0xC000 then 0xB
    else if w < 0xD000 then 0xC else if w < 0xE000 then 0xD else if w < 0xF000 then 0xE else 0xF
  }

  /** The top four bits of the words of class `c`. */
  function ClassKey(c: nat): Word
    requires c < 16
  {
    match c
    case 0x0 => 0x0000 case 0x1 => 0x1000 case 0x2 => 0x2000 case 0x3 => 0x3000
    case 0x4 => 0x4000 case 0x5 => 0x5000 case 0x6 => 0x6000 case 0x7 => 0x7000
    case 0x8 => 0x8000 case 0x9 => 0x9000 case 0xA => 0xA000 case 0xB => 0xB000
    case 0xC => 0xC000 case 0xD => 0xD000 case 0xE => 0xE000 case _ => 0xF000
  }

  lemma ClassKeyOfIndex(w: Word)
    ensures w & 0xF000 == ClassKey(ClassIndex(w))
  {}

  lemma ClassIndexOfKey(c: nat)
    requires c < 16
    ensures ClassIndex(ClassKey(c)) == c
  {}

  /** The run of the table's entries whose opcode has class nibble `c`, in table order. */
  function Group(c: nat): seq<Entry>
    requires c < 16
  {
    match c
    case 0x0 => [Entry(0x00E0, 0xFFFF, Op00E0), Entry(0x00EE, 0xFFFF, Op00EE), Entry(0x0000, 0xF000, Op0NNN)]
    case 0x1 => [Entry(0x1000, 0xF000, Op1NNN)]
    case 0x2 => [Entry(0x2000, 0xF000, Op2NNN)]
    case 0x3 => [Entry(0x3000, 0xF000, Op3XNN)]
    case 0x4 => [Entry(0x4000, 0xF000, Op4XNN)]
    case 0x5 => [Entry(0x5000, 0xF00F, Op5XY0)]
    case 0x6 => [Entry(0x6000, 0xF000, Op6XNN)]
    case 0x7 => [Entry(0x7000, 0xF000, Op7XNN)]
    case 0x8 => [
      Entry(0x8000, 0xF00F, Op8XY0), Entry(0x8001, 0xF00F, Op8XY1), Entry(0x8002, 0xF00F, Op8XY2),
      Entry(0x8003, 0xF00F, Op8XY3), Entry(0x8004, 0xF00F, Op8XY4), Entry(0x8005, 0xF00F, Op8XY5),
      Entry(0x8006, 0xF00F, Op8XY6), Entry(0x8007, 0xF00F, Op8XY7), Entry(0x800E, 0xF00F, Op8XYE)
    ]
    case 0x9 => [Entry(0x9000, 0xF00F, Op9XY0)]
    case 0xA => [Entry(0xA000, 0xF000, OpANNN)]
    case 0xB => [Entry(0xB000, 0xF000, OpBNNN)]
    case 0xC => [Entry(0xC000, 0xF000, OpCXNN)]
    case 0xD => [Entry(0xD000, 0xF000, OpDXYN)]
    case 0xE => [Entry(0xE09E, 0xF0FF, OpEX9E), Entry(0xE001, 0xF00F, OpEXA1)]
    case _ => [
      Entry(0xF007, 0xF0FF, OpFX07), Entry(0xF00A, 0xF0FF, OpFX0A), Entry(0xF015, 0xF0FF, OpFX15),
      Entry(0xF018, 0xF0FF, OpFX18), Entry(0xF01E, 0xF0FF, OpFX1E), Entry(0xF029, 0xF0FF, OpFX29),
      Entry(0xF033, 0xF0FF, OpFX33), Entry(0xF055, 0xF0FF, OpFX55), Entry(0xF065, 0xF0FF, OpFX65)
    ]
  }

  /** The runs of classes `0 .. k - 1`, concatenated. */
  function Upto(k: nat): seq<Entry>
    requires k <= 16
  {
    if k == 0 then [] else Upto(k - 1) + Group(k - 1)
  }

  /** The table split after class 8: nineteen entries, then sixteen. */
  lemma TableHalves()
    ensures Table == [
        Entry(0x00E0, 0xFFFF, Op00E0), Entry(0x00EE, 0xFFFF, Op00EE), Entry(0x0000, 0xF000, Op0NNN),
        Entry(0x1000, 0xF000, Op1NNN), Entry(0x2000, 0xF000, Op2NNN), Entry(0x3000, 0xF000, Op3XNN),
        Entry(0x4000, 0xF000, Op4XNN), Entry(0x5000, 0xF00F, Op5XY0), Entry(0x6000, 0xF000, Op6XNN),
        Entry(0x7000, 0xF000, Op7XNN), Entry(0x8000, 0xF00F, Op8XY0), Entry(0x8001, 0xF00F, Op8XY1),
        Entry(0x8002, 0xF00F, Op8XY2), Entry(0x8003, 0xF00F, Op8XY3), Entry(0x8004, 0xF00F, Op8XY4),
        Entry(0x8005, 0xF00F, Op8XY5), Entry(0x8006, 0xF00F, Op8XY6), Entry(0x8007, 0xF00F, Op8XY7),
        Entry(0x800E, 0xF00F, Op8XYE)
      ]
         + [
        Entry(0x9000, 0xF00F, Op9XY0), Entry(0xA000, 0xF000, OpANNN), Entry(0xB000, 0xF000, OpBNNN),
        Entry(0xC000, 0xF000, OpCXNN), Entry(0xD000, 0xF000, OpDXYN), Entry(0xE09E, 0xF0FF, OpEX9E),
        Entry(0xE001, 0xF00F, OpEXA1), Entry(0xF007, 0xF0FF, OpFX07), Entry(0xF00A, 0xF0FF, OpFX0A),
        Entry(0xF015, 0xF0FF, OpFX15), Entry(0xF018, 0xF0FF, OpFX18), Entry(0xF01E, 0xF0FF, OpFX1E),
        Entry(0xF029, 0xF0FF, OpFX29), Entry(0xF033, 0xF0FF, OpFX33), Entry(0xF055, 0xF0FF, OpFX55),
        Entry(0xF065, 0xF0FF, OpFX65)
      ]
  {}

  /** Classes 0 to 8 make up the first nineteen entries. */
  lemma LowHalf()
    ensures [
        Entry(0x00E0, 0xFFFF, Op00E0), Entry(0x00EE, 0xFFFF, Op00EE), Entry(0x0000, 0xF000, Op0NNN),
        Entry(0x1000, 0xF000, Op1NNN), Entry(0x2000, 0xF000, Op2NNN), Entry(0x3000, 0xF000, Op3XNN),
        Entry(0x4000, 0xF000, Op4XNN), Entry(0x5000, 0xF00F, Op5XY0), Entry(0x6000, 0xF000, Op6XNN),
        Entry(0x7000, 0xF000, Op7XNN), Entry(0x8000, 0xF00F, Op8XY0), Entry(0x8001, 0xF00F, Op8XY1),
        Entry(0x8002, 0xF00F, Op8XY2), Entry(0x8003, 0xF00F, Op8XY3), Entry(0x8004, 0xF00F, Op8XY4),
        Entry(0x8005, 0xF00F, Op8XY5), Entry(0x8006, 0xF00F, Op8XY6), Entry(0x8007, 0xF00F, Op8XY7),
        Entry(0x800E, 0xF00F, Op8XYE)
      ]
         == Group(0) + Group(1) + Group(2) + Group(3) + Group(4) + Group(5) + Group(6) + Group(7) + Group(8)
  {}

  /** Classes 9 to F make up the last sixteen entries. */
  lemma HighHalf()
    ensures [
        Entry(0x9000, 0xF00F, Op9XY0), Entry(0xA000, 0xF000, OpANNN), Entry(0xB000, 0xF000, OpBNNN),
        Entry(0xC000, 0xF000, OpCXNN), Entry(0xD000, 0xF000, OpDXYN), Entry(0xE09E, 0xF0FF, OpEX9E),
        Entry(0xE001, 0xF00F, OpEXA1), Entry(0xF007, 0xF0FF, OpFX07), Entry(0xF00A, 0xF0FF, OpFX0A),
        Entry(0xF015, 0xF0FF, OpFX15), Entry(0xF018, 0xF0FF, OpFX18), Entry(0xF01E, 0xF0FF, OpFX1E),
        Entry(0xF029, 0xF0FF, OpFX29), Entry(0xF033, 0xF0FF, OpFX33), Entry(0xF055, 0xF0FF, OpFX55),
        Entry(0xF065, 0xF0FF, OpFX65)
      ]
         == Group(9) + Group(10) + Group(11) + Group(12) + Group(13) + Group(14) + Group(15)
  {}

  /** The runs of classes 0 to 8, in order. */
  lemma UptoLow()
    ensures Upto(9) == Group(0) + Group(1) + Group(2) + Group(3) + Group(4) + Group(5) + Group(6) + Group(7) + Group(8)
  {
    assert Upto(1) == Upto(0) + Group(0);
    assert Upto(2) == Upto(1) + Group(1);
    assert Upto(3) == Upto(2) + Group(2);
    assert Upto(4) == Upto(3) + Group(3);
    assert Upto(5) == Upto(4) + Group(4);
    assert Upto(6) == Upto(5) + Group(5);
    assert Upto(7) == Upto(6) + Group(6);
    assert Upto(8) == Upto(7) + Group(7);
    assert Upto(9) == Upto(8) + Group(8);
  }

  /** The runs of classes 9 to F follow them. */
  lemma UptoHigh()
    ensures Upto(16) == Upto(9) + (Group(9) + Group(10) + Group(11) + Group(12) + Group(13) + Group(14) + Group(15))
  {
    assert Upto(10) == Upto(9) + Group(9);
    assert Upto(11) == Upto(10) + Group(10);
    assert Upto(12) == Upto(11) + Group(11);
    assert Upto(13) == Upto(12) + Group(12);
    assert Upto(14) == Upto(13) + Group(13);
    assert Upto(15) == Upto(14) + Group(14);
    assert Upto(16) == Upto(15) + Group(15);
  }

  /** The table is its sixteen class runs in class order. */
  lemma TableByClass()
    ensures Table == Upto(16)
  {
    TableHalves();
    LowHalf();
    HighHalf();
    UptoLow();
    UptoHigh();
  }

  lemma GroupsKeyedLow(c: nat)
    requires c < 8
    ensures InClass(Group(c), ClassKey(c))
  {}

  lemma GroupsKeyedHigh(c: nat)
    requires 8 <= c < 15
    ensures InClass(Group(c), ClassKey(c))
  {}

  lemma GroupKeyedTop()
    ensures InClass(Group(15), ClassKey(15))
  {}

  /** A run takes no word of another class. */
  lemma PickOtherGroup(c: nat, w: Word)
    requires c < 16 && ClassIndex(w) != c
    ensures Pick(Group(c), w) == None
  {
    if c < 8 { GroupsKeyedLow(c); } else if c < 15 { GroupsKeyedHigh(c); } else { GroupKeyedTop(); }
    ClassKeyOfIndex(w);
    ClassIndexOfKey(c);
    PickOtherClass(Group(c), ClassKey(c), w);
  }

  lemma {:induction false} PickUpto(k: nat, w: Word)
    requires k <= 16
    ensures Pick(Upto(k), w) == if ClassIndex(w) < k then Pick(Group(ClassIndex(w)), w) else None
  {
    if k > 0 {
      var c := k - 1;
      PickUpto(c, w);
      PickAppend(Upto(c), Group(c), w);
      if ClassIndex(w) != c {
        PickOtherGroup(c, w);
      }
    }
  }

  /** One step of a scan: `e` takes `w`, or the rest of the scan decides. */
  function Try(e: Entry, w: Word, rest: Option<Family>): Option<Family> {
    if Selects(e, w) then Some(e.handler) else rest
  }

  /** The scan written head first, without quantified contracts; it agrees with `Pick`. */
  function Lookup(t: seq<Entry>, w: Word): Option<Family> {
    if |t| == 0 then None else Try(t[0], w, Lookup(t[1..], w))
  }

  lemma LookupCons(e: Entry, rest: seq<Entry>, w: Word)
    ensures Lookup([e] + rest, w) == Try(e, w, Lookup(rest, w))
  {
    assert ([e] + rest)[1..] == rest;
  }

  lemma {:induction false} LookupIsPick(t: seq<Entry>, w: Word)
    ensures Lookup(t, w) == Pick(t, w)
  {
    if |t| > 0 {
      LookupIsPick(t[1..], w);
      PickAppend([t[0]], t[1..], w);
      PickSpec([t[0]], w);
      assert t == [t[0]] + t[1..];
      if Selects(t[0], w) { assert FirstSelects([t[0]], 0, w); }
    }
  }

  /** The scan over the whole table is the scan over the word's class run. */
  lemma PickByClass(w: Word)
    ensures Pick(Table, w) == Lookup(Group(ClassIndex(w)), w)
  {
    TableByClass();
    PickUpto(16, w);
    LookupIsPick(Group(ClassIndex(w)), w);
  }
}
