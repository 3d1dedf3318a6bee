/**
 Access to the registers of an RF8256 radio. The chip shows one page of registers at a time,
 chosen by two bits of its register 0; the driver keeps a shadow of register 0 and switches
 pages around each access. The outcome is a flat file of registers 0 to 45.
 */
module RfPages {

  const PAGE_BITS: bv32 := 0x140
  const LAST_OFFSET: bv32 := 45

  // ---- The chip ----

  // Register 0 is seen on every page.
  datatype Cell = Cell(page: nat, local: bv32)

  const REG0 := Cell(0, 0)

  type Regs = map<Cell, bv32>

  function Get(regs: Regs, c: Cell): bv32 {
    if c in regs then regs[c] else 0
  }

  function PageOf(reg0: bv32): nat {
    if reg0 & 0x100 == 0 then 0 else if reg0 & 0x40 == 0 then 1 else 2
  }

  function CellSeen(regs: Regs, local: bv32): Cell {
    if local == 0 then REG0 else Cell(PageOf(Get(regs, REG0)), local)
  }

  predicate PageClean(v: bv32) {
    v & PAGE_BITS == 0
  }

  // The three-wire word that sets register 0 to v.
  function Word(v: bv32): bv32 {
    v << 16
  }

  function Low12(v: bv32): bv32 {
    v & 0xfff
  }

  // A word on the three-wire interface: the address in the low bits, 12 bits of data above.
  function Wire(regs: Regs, word: bv32): Regs {
    regs[CellSeen(regs, word & 0x3f) := Low12(word >> 16)]
  }

  // ---- One access, as the driver makes it ----

  // `shadow` is RfReg0Value of the path.
  datatype Rf = Rf(shadow: bv32, regs: Regs)

  function Local(o: bv32): bv32 {
    if o >= 31 then o - 30 else if o >= 16 then o - 15 else o
  }

  function Selecting(shadow: bv32, o: bv32): bv32 {
    if o >= 31 then shadow | 0x140 else if o >= 16 then (shadow | 0x100) & !(0x40 as bv32) else shadow
  }

  function Select(s: Rf, o: bv32): Rf {
    if o >= 16 then var v := Selecting(s.shadow, o); Rf(v, Wire(s.regs, Word(v))) else s
  }

  function Restore(s: Rf): Rf {
    var v := s.shadow & 0xebf;
    Rf(v, Wire(s.regs, Word(v)))
  }

  function Read(s: Rf, offset: bv32): (Rf, bv32) {
    var o := offset & 0x3f;
    var s1 := Select(s, o);
    (Restore(s1), Low12(Get(s1.regs, CellSeen(s1.regs, Local(o)))))
  }

  function Write(s: Rf, offset: bv32, data: bv32): Rf {
    var o := offset & 0x3f;
    var s1 := Select(s, o);
    var regs := Wire(s1.regs, (data << 16) | (Local(o) & 0x3f));
    if o == 0 then Rf(data, regs) else Restore(Rf(s1.shadow, regs))
  }

  // ---- The flat view ----

  // Offsets 0 to 15 lie on page 0, 16 to 30 on page 1 from address 1 on, 31 to 45 on page 2 likewise.
  function CellAt(o: bv32): Cell {
    if o >= 31 then Cell(2, o - 30) else if o >= 16 then Cell(1, o - 15) else Cell(0, o)
  }

  function Flat(s: Rf, o: bv32): bv32 {
    Low12(Get(s.regs, CellAt(o)))
  }

  // Page 0 is selected and the shadow is the chip's register 0.
  ghost predicate RfOk(s: Rf) {
    Get(s.regs, REG0) == Low12(s.shadow) && PageClean(s.shadow)
  }

  lemma OffsetsInjective(p: bv32, q: bv32)
    requires p <= LAST_OFFSET && q <= LAST_OFFSET && CellAt(p) == CellAt(q)
    ensures p == q
  {
  }

  lemma WordParts(v: bv32, a: bv32)
    requires a <= 0x3f
    ensures ((v << 16) | a) & 0x3f == a && (((v << 16) | a) >> 16) & 0xfff == v & 0xfff
    ensures (v << 16) & 0x3f == 0 && ((v << 16) >> 16) & 0xfff == v & 0xfff
    ensures a & 0x3f == a
  {
  }

  lemma Low12Twice(v: bv32)
    ensures Low12(Low12(v)) == Low12(v)
  {
  }

  lemma WireIs(regs: Regs, v: bv32, a: bv32)
    requires a <= 0x3f
    ensures Wire(regs, (v << 16) | (a & 0x3f)) == regs[CellSeen(regs, a) := Low12(v)]
    ensures Wire(regs, Word(v)) == regs[REG0 := Low12(v)]
  {
    WordParts(v, a);
  }

  lemma SelectingPages(v: bv32, o: bv32)
    requires PageClean(v)
    ensures 16 <= o < 31 ==> PageOf(Low12(Selecting(v, o))) == 1
    ensures o >= 31 ==> PageOf(Low12(Selecting(v, o))) == 2
    ensures PageOf(Low12(v)) == 0
    ensures Low12(Selecting(v, o) & 0xebf) == Low12(v) && PageClean(Selecting(v, o) & 0xebf)
  {
  }

  lemma LocalSmall(o: bv32)
    requires o <= LAST_OFFSET
    ensures Local(o) <= 15 && (Local(o) == 0 <==> o == 0) && o & 0x3f == o
  {
  }

  lemma SelectIs(s: Rf, o: bv32)
    ensures var v := Selecting(s.shadow, o);
      Select(s, o) == if o >= 16 then Rf(v, s.regs[REG0 := Low12(v)]) else s
    ensures o < 16 ==> Selecting(s.shadow, o) == s.shadow
  {
    WireIs(s.regs, Selecting(s.shadow, o), 0);
    hide Wire, Low12;
  }

  lemma RestoreIs(s: Rf)
    ensures Restore(s) == Rf(s.shadow & 0xebf, s.regs[REG0 := Low12(s.shadow & 0xebf)])
  {
    WireIs(s.regs, s.shadow & 0xebf, 0);
    hide Wire, Low12;
  }

  lemma RfOkParts(s: Rf)
    ensures RfOk(s) <==> Get(s.regs, REG0) == Low12(s.shadow) && PageClean(s.shadow)
  {
  }

  // After selection the chip shows the page of o, and only register 0 has changed.
  lemma Selected(s: Rf, o: bv32)
    requires RfOk(s) && o <= LAST_OFFSET
    ensures var s1 := Select(s, o);
      && CellSeen(s1.regs, Local(o)) == CellAt(o)
      && s1.shadow == Selecting(s.shadow, o) && Get(s1.regs, REG0) == Low12(s1.shadow)
      && (forall c :: c != REG0 ==> Get(s1.regs, c) == Get(s.regs, c))
  {
    RfOkParts(s);
    SelectIs(s, o);
    SelectingPages(s.shadow, o);
    LocalSmall(o);
    hide RfOk, Select, Selecting, PageOf, Low12, Local;
    var s1 := Select(s, o);
    assert Get(s1.regs, REG0) == Low12(s1.shadow);
    assert CellSeen(s1.regs, Local(o)) == if o == 0 then REG0 else Cell(PageOf(Low12(s1.shadow)), Local(o));
  }

  lemma Restored(s: Rf, o: bv32, s1: Rf)
    requires RfOk(s) && s1.shadow == Selecting(s.shadow, o)
    ensures RfOk(Restore(s1)) && Get(Restore(s1).regs, REG0) == Get(s.regs, REG0)
    ensures forall c :: c != REG0 ==> Get(Restore(s1).regs, c) == Get(s1.regs, c)
  {
    RfOkParts(s);
    RfOkParts(Restore(s1));
    RestoreIs(s1);
    SelectingPages(s.shadow, o);
    hide RfOk, Restore, Selecting, Low12;
  }

  // A read returns the register and changes none.
  lemma ReadIsFlat(s: Rf, o: bv32)
    requires RfOk(s) && o <= LAST_OFFSET
    ensures var (s', v) := Read(s, o);
      && RfOk(s') && v == Flat(s, o)
      && (forall p :: p <= LAST_OFFSET ==> Flat(s', p) == Flat(s, p))
  {
    Selected(s, o);
    LocalSmall(o);
    Restored(s, o, Select(s, o));
    hide Select, Restore, RfOk, Selecting, Low12;
    forall p | p <= LAST_OFFSET ensures Flat(Read(s, o).0, p) == Flat(s, p) {
      LocalSmall(p);
    }
  }

  lemma WriteIs(s: Rf, o: bv32, data: bv32)
    requires RfOk(s) && o <= LAST_OFFSET
    ensures var s1 := Select(s, o);
      var regs := s1.regs[CellAt(o) := Low12(data)];
      Write(s, o, data) == if o == 0 then Rf(data, regs) else Restore(Rf(s1.shadow, regs))
  {
    Selected(s, o);
    LocalSmall(o);
    WireIs(Select(s, o).regs, data, Local(o));
    hide RfOk, Select, Restore, Wire, Low12, Local, CellSeen, CellAt;
  }

  // A write changes that register alone, to the low 12 bits of the data.
  lemma WriteIsFlat(s: Rf, o: bv32, data: bv32)
    requires RfOk(s) && o <= LAST_OFFSET && (o == 0 ==> PageClean(data))
    ensures var s' := Write(s, o, data);
      && RfOk(s')
      && (forall p :: p <= LAST_OFFSET ==> Flat(s', p) == if p == o then Low12(data) else Flat(s, p))
  {
    var s1 := Select(s, o);
    var regs := s1.regs[CellAt(o) := Low12(data)];
    var s' := Write(s, o, data);
    WriteIs(s, o, data);
    Selected(s, o);
    LocalSmall(o);
    Restored(s, o, Rf(s1.shadow, regs));
    RfOkParts(s);
    RfOkParts(s');
    SelectIs(s, o);
    Low12Twice(data);
    hide RfOk, Write, Select, Restore, Selecting, Low12, Local;
    forall p | p <= LAST_OFFSET ensures Flat(s', p) == if p == o then Low12(data) else Flat(s, p) {
      LocalSmall(p);
      if CellAt(p) == CellAt(o) {
        OffsetsInjective(p, o);
      }
    }
  }

  // ---- Whole runs of accesses ----

  datatype Access = ReadAt(o: bv32) | WriteAt(o: bv32, data: bv32)

  ghost predicate Proper(a: Access) {
    a.o <= LAST_OFFSET && (a.WriteAt? && a.o == 0 ==> PageClean(a.data))
  }

  // What the reads of a run return, and the state they leave.
  function Run(s: Rf, accesses: seq<Access>): (Rf, seq<bv32>)
    decreases |accesses|
  {
    if accesses == [] then (s, [])
    else
      match accesses[0]
      case ReadAt(o) => var (s1, v) := Read(s, o); var (s2, vs) := Run(s1, accesses[1..]); (s2, [v] + vs)
      case WriteAt(o, data) => Run(Write(s, o, data), accesses[1..])
  }

  // A plain file of 12-bit registers.
  datatype Slot = Slot(offset: bv32)

  type File = map<Slot, bv32>

  function Entry(f: File, o: bv32): bv32 {
    if Slot(o) in f then f[Slot(o)] else 0
  }

  function FileRun(f: File, accesses: seq<Access>): (File, seq<bv32>)
    decreases |accesses|
  {
    if accesses == [] then (f, [])
    else
      match accesses[0]
      case ReadAt(o) =>
        var (f2, vs) := FileRun(f, accesses[1..]); (f2, [Entry(f, o)] + vs)
      case WriteAt(o, data) => FileRun(f[Slot(o) := Low12(data)], accesses[1..])
  }

  ghost predicate Shows(s: Rf, f: File) {
    RfOk(s) && forall p :: p <= LAST_OFFSET ==> Flat(s, p) == Entry(f, p)
  }

  lemma ShowsRead(s: Rf, f: File, o: bv32)
    requires Shows(s, f) && o <= LAST_OFFSET
    ensures Shows(Read(s, o).0, f) && Read(s, o).1 == Entry(f, o)
  {
    ReadIsFlat(s, o);
    hide Read, RfOk, Flat;
  }

  lemma ShowsWrite(s: Rf, f: File, o: bv32, data: bv32)
    requires Shows(s, f) && o <= LAST_OFFSET && (o == 0 ==> PageClean(data))
    ensures Shows(Write(s, o, data), f[Slot(o) := Low12(data)])
  {
    WriteIsFlat(s, o, data);
    hide Write, RfOk, Flat, Low12;
    forall p | p <= LAST_OFFSET ensures Flat(Write(s, o, data), p) == Entry(f[Slot(o) := Low12(data)], p) {
      assert p != o ==> Flat(Write(s, o, data), p) == Flat(s, p);
    }
  }

  // Any sequence of reads and writes goes as on a plain file: a read returns the value last
  // written at its offset, and the shadow stays the chip's register 0 with page 0 selected.
  lemma {:induction false} RunIsFlat(s: Rf, f: File, accesses: seq<Access>)
    requires Shows(s, f) && forall k :: 0 <= k < |accesses| ==> Proper(accesses[k])
    ensures Run(s, accesses).1 == FileRun(f, accesses).1
    ensures Shows(Run(s, accesses).0, FileRun(f, accesses).0)
    decreases |accesses|
  {
    if accesses != [] {
      assert Proper(accesses[0]);
      match accesses[0] {
        case ReadAt(o) =>
          ShowsRead(s, f, o);
          hide Read, Shows;
          RunIsFlat(Read(s, o).0, f, accesses[1..]);
        case WriteAt(o, data) =>
          ShowsWrite(s, f, o, data);
          hide Write, Shows, Low12;
          RunIsFlat(Write(s, o, data), f[Slot(o) := Low12(data)], accesses[1..]);
      }
    }
  }

  lemma PageBitsLost(d: bv32)
    ensures Low12(d & 0xebf) == Low12(d) <==> PageClean(d)
  {
  }

  lemma ReadZero(s: Rf)
    ensures Read(s, 0) == (Restore(s), Low12(Get(s.regs, REG0)))
  {
  }

  // The page bits in the data for register 0 are what the flat view excludes, and no more than
  // it must: with one of them set, the access after next no longer reads back what was written.
  lemma PageBitsExactly(s: Rf, d: bv32)
    requires RfOk(s)
    ensures var s1 := Write(s, 0, d);
      var (s2, first) := Read(s1, 0);
      && first == Low12(d)
      && (Read(s2, 0).1 == Low12(d) <==> PageClean(d))
  {
    var s1 := Write(s, 0, d);
    WriteIs(s, 0, d);
    ReadZero(s1);
    RestoreIs(s1);
    ReadZero(Restore(s1));
    Low12Twice(d);
    Low12Twice(d & 0xebf);
    PageBitsLost(d);
    hide Read, Write, Select, Restore, Low12, RfOk;
  }

  // ---- The driver's methods ----

  // The base-band registers an access to one path goes through.
  datatype BbReg = ThreeWire | HssiPara2 | LssiReadBack | AnalogParameter4

  const READ_ADDRESS: bv32 := 0x3f000000
  const READ_EDGE: bv32 := 0x80000000
  const WHOLE: bv32 := 0xffffffff
  const LOW12: bv32 := 0xfff

  // i is the position of the lowest bit of mask.
  predicate LowestBit(mask: bv32, i: bv6) {
    i <= 31 && (mask >> i) & 1 == 1 && mask & (((1 as bv32) << i) - 1) == 0
  }

  lemma LowestBits(i: bv6)
    ensures LowestBit(READ_ADDRESS, i) ==> i == 24
    ensures LowestBit(READ_EDGE, i) ==> i == 31
    ensures LowestBit(LOW12, i) ==> i == 0
  {
  }

  lemma LowestBitUnique(mask: bv32, i: bv6, j: bv6)
    requires LowestBit(mask, i) && LowestBit(mask, j)
    ensures i == j
  {
  }

  // No bit of mask below position i.
  predicate NoneBelow(mask: bv32, i: bv6)
    requires i <= 32
  {
    mask & (((1 as bv32) << i) - 1) == 0
  }

  lemma OnesNext(i: bv6)
    requires i <= 31
    ensures ((1 as bv32) << (i + 1)) - 1 == (((1 as bv32) << i) - 1) | ((1 as bv32) << i)
  {
  }

  lemma BitAt(mask: bv32, i: bv6)
    requires i <= 31
    ensures (mask >> i) & 1 == 1 || mask & ((1 as bv32) << i) == 0
  {
  }

  lemma MaskSplits(mask: bv32, a: bv32, b: bv32)
    ensures mask & (a | b) == (mask & a) | (mask & b)
  {
  }

  lemma NoneBelowNext(mask: bv32, i: bv6)
    requires i <= 31 && NoneBelow(mask, i)
    ensures (mask >> i) & 1 != 1 ==> NoneBelow(mask, i + 1)
    ensures (mask >> i) & 1 == 1 ==> LowestBit(mask, i)
  {
    OnesNext(i);
    BitAt(mask, i);
    MaskSplits(mask, ((1 as bv32) << i) - 1, (1 as bv32) << i);
  }

  lemma NoneBelowEnds(mask: bv32)
    ensures NoneBelow(mask, 0) && (NoneBelow(mask, 32) ==> mask == 0)
  {
  }

  method CalculateBitShift(mask: bv32) returns (i: bv6)
    requires mask != 0
    ensures i <= 31 && LowestBit(mask, i)
  {
    hide NoneBelow, LowestBit;
    NoneBelowEnds(mask);
    i := 0;
    while i <= 31
      invariant i <= 32 && NoneBelow(mask, i)
      decreases 32 - i
    {
      NoneBelowNext(mask, i);
      if (mask >> i) & 1 == 1 {
        return;
      }
      i := i + 1;
    }
  }

  datatype RfType = Rf1T2R | Rf2T4R | OtherType

  // rtl8192_phy_CheckIsLegalRFPath, for paths A to D as 0 to 3.
  predicate LegalPath(t: RfType, path: nat) {
    match t
    case Rf2T4R => true
    case Rf1T2R => path != 0 && path != 1
    case OtherType => true
  }

  function And(v: bv32, w: bv32): bv32 {
    v & w
  }

  function Without(v: bv32, mask: bv32): bv32 {
    v & !mask
  }

  function Blended(v: bv32, mask: bv32, d: bv32): bv32 {
    Without(v, mask) | d
  }

  function Raised(v: bv32, i: bv6): bv32
    requires i <= 31
  {
    v << i
  }

  function Lowered(v: bv32, i: bv6): bv32
    requires i <= 31
  {
    v >> i
  }

  // A masked write of `data` over `old`, where i is the lowest bit of the mask.
  function Masked(was: bv32, mask: bv32, i: bv6, data: bv32): bv32
    requires i <= 31
  {
    Blended(was, mask, Raised(data, i))
  }

  predicate Rises(h: bv32, v: bv32) {
    h & 0x80000000 == 0 && v & 0x80000000 != 0
  }

  // What the chip latches for the read address in the HSSI word v.
  function Latched(regs: Regs, v: bv32): bv32 {
    Get(regs, CellSeen(regs, (v & 0x3f000000) >> 24))
  }

  // The field of v under mask.
  function Field(v: bv32, mask: bv32, i: bv6): bv32
    requires i <= 31
  {
    Lowered(And(v, mask), i)
  }

  // What the read-address and edge fields of the HSSI word become.
  lemma ReadStrobe(h: bv32, a: bv32)
    requires a <= 0x3f
    ensures var h1 := Masked(h, READ_ADDRESS, 24, a);
      var h2 := Masked(h1, READ_EDGE, 31, 0);
      var h3 := Masked(h2, READ_EDGE, 31, 1);
      && !Rises(h, h1) && !Rises(h1, h2) && Rises(h2, h3)
      && forall regs: Regs :: Latched(regs, h3) == Get(regs, CellSeen(regs, a))
  {
  }

  lemma QueryLow(v: bv32)
    ensures Field(v, LOW12, 0) == Low12(v)
  {
  }

  // An access switches four bits of the analog parameters off and, at its end, those of the paths the
  // radio has on again: all four, the upper two, or none for another type of radio. No other bit changes.
  ghost predicate SwitchedBack(t: RfType, was: bv32, now: bv32) {
    && Without(now, 0xf00) == Without(was, 0xf00)
    && And(now, 0xf00) == match t
         case Rf2T4R => 0xf00
         case Rf1T2R => 0xc00
         case OtherType => 0
  }

  lemma AnalogBits(i: bv6)
    ensures LowestBit(0xf00, i) ==> i == 8
    ensures LowestBit(0xc00, i) ==> i == 10
  {
  }

  lemma RaisedBits()
    ensures Raised(0, 8) == 0 && Raised(0xf, 8) == 0xf00 && Raised(0x3, 10) == 0xc00
  {
  }

  // Bits written within m stand as written, and every other bit as before.
  lemma BlendedBits(v: bv32, m: bv32, d: bv32)
    requires Without(d, m) == 0
    ensures And(Blended(v, m, d), m) == d && Without(Blended(v, m, d), m) == Without(v, m)
  {
  }

  lemma BlendedWithin(v: bv32, m: bv32, d: bv32, n: bv32)
    requires Without(d, m) == 0 && Without(m, n) == 0 && And(v, n) == 0
    ensures And(Blended(v, m, d), n) == d
  {
  }

  lemma BlendedOutside(v: bv32, m: bv32, d: bv32, n: bv32)
    requires Without(d, m) == 0 && Without(m, n) == 0
    ensures Without(Blended(v, m, d), n) == Without(v, n)
  {
  }

  lemma AnalogMasks()
    ensures Without(0, 0xf00) == 0 && Without(0xf00, 0xf00) == 0
    ensures Without(0xc00, 0xc00) == 0 && Without(0xc00, 0xf00) == 0
  {
  }

  lemma SwitchesBack(was: bv32)
    ensures var off := Masked(was, 0xf00, 8, 0);
      && SwitchedBack(Rf2T4R, was, Masked(off, 0xf00, 8, 0xf))
      && SwitchedBack(Rf1T2R, was, Masked(off, 0xc00, 10, 0x3))
      && SwitchedBack(OtherType, was, off)
  {
    hide Raised, Blended, Without, And;
    var off := Masked(was, 0xf00, 8, 0);
    RaisedBits();
    AnalogMasks();
    BlendedBits(was, 0xf00, 0);
    BlendedBits(off, 0xf00, 0xf00);
    BlendedWithin(off, 0xc00, 0xc00, 0xf00);
    BlendedOutside(off, 0xc00, 0xc00, 0xf00);
  }

  lemma SwitchedTwice(t: RfType, a: bv32, b: bv32, c: bv32)
    requires SwitchedBack(t, a, b) && SwitchedBack(t, b, c)
    ensures SwitchedBack(t, a, c)
  {
    hide Without, And;
  }

  // One RF path: the driver's shadow and the base-band registers in front of the chip.
  class Radio {
    const rfType: RfType
    const path: nat
    var shadow: bv32
    var regs: Regs
    var hssi2: bv32
    var readBack: bv32
    var analog4: bv32
    var wire: bv32

    constructor (t: RfType, p: nat, reg0: bv32, chip: Regs)
      ensures rfType == t && path == p && State() == Rf(reg0, chip)
    {
      rfType, path, shadow, regs := t, p, reg0, chip;
      hssi2, readBack, analog4, wire := 0, 0, 0, 0;
    }

    ghost function State(): Rf
      reads this
    {
      Rf(shadow, regs)
    }

    function ReadNic(r: BbReg): bv32
      reads this
    {
      match r
      case ThreeWire => wire
      case HssiPara2 => hssi2
      case LssiReadBack => readBack
      case AnalogParameter4 => analog4
    }

    // The chip acts on what is written: a three-wire word sets a register, a rising read edge
    // latches the register named by the read address.
    method WriteNic(r: BbReg, v: bv32)
      modifies this
      ensures shadow == old(shadow)
      ensures regs == if r.ThreeWire? then Wire(old(regs), v) else old(regs)
      ensures hssi2 == if r.HssiPara2? then v else old(hssi2)
      ensures analog4 == if r.AnalogParameter4? then v else old(analog4)
      ensures readBack == if r.HssiPara2? && Rises(old(hssi2), v) then Latched(old(regs), v) else old(readBack)
    {
      hide Wire, Rises, Latched;
      match r {
        case ThreeWire =>
          wire := v;
          regs := Wire(regs, v);
        case HssiPara2 =>
          if Rises(hssi2, v) {
            readBack := Latched(regs, v);
          }
          hssi2 := v;
        case LssiReadBack =>
        case AnalogParameter4 => analog4 := v;
      }
    }

    method SetBBreg(r: BbReg, mask: bv32, data: bv32) returns (ghost i: bv6)
      requires mask != 0
      modifies this
      ensures i <= 31 && (mask != WHOLE ==> LowestBit(mask, i))
      ensures shadow == old(shadow)
      ensures var v := if mask != WHOLE then Masked(old(ReadNic(r)), mask, i, data) else data;
        && regs == (if r.ThreeWire? then Wire(old(regs), v) else old(regs))
        && hssi2 == (if r.HssiPara2? then v else old(hssi2))
        && analog4 == (if r.AnalogParameter4? then v else old(analog4))
        && readBack == if r.HssiPara2? && Rises(old(hssi2), v) then Latched(old(regs), v) else old(readBack)
    {
      i := 0;
      hide Wire, Rises, Latched, LowestBit, Masked;
      if mask != WHOLE {
        var original := ReadNic(r);
        var shift := CalculateBitShift(mask);
        i := shift;
        WriteNic(r, Masked(original, mask, shift, data));
      } else {
        WriteNic(r, data);
      }
    }

    method QueryBBReg(r: BbReg, mask: bv32) returns (v: bv32, ghost i: bv6)
      requires mask != 0
      ensures i <= 31 && LowestBit(mask, i) && v == Field(ReadNic(r), mask, i)
    {
      hide LowestBit, Field;
      var original := ReadNic(r);
      var shift := CalculateBitShift(mask);
      i := shift;
      v := Field(original, mask, shift);
    }

    // Strobes the chip and returns the register it shows at local address a.
    method Strobe(a: bv32) returns (v: bv32)
      requires a <= 0x3f
      modifies this
      ensures State() == old(State()) && analog4 == old(analog4)
      ensures v == Low12(Get(regs, CellSeen(regs, a)))
    {
      hide Wire, Get, CellSeen, LowestBit, Masked, Low12, Rises, Latched, Field;
      ReadStrobe(hssi2, a);
      ghost var i := SetBBreg(HssiPara2, READ_ADDRESS, a);
      LowestBits(i);
      i := SetBBreg(HssiPara2, READ_EDGE, 0);
      LowestBits(i);
      i := SetBBreg(HssiPara2, READ_EDGE, 1);
      LowestBits(i);
      v, i := QueryBBReg(LssiReadBack, LOW12);
      LowestBits(i);
      QueryLow(readBack);
    }

    // The page bits of the shadow for offset o.
    method ChoosePage(o: bv32)
      modifies this`shadow
      ensures shadow == Selecting(old(shadow), o)
    {
      if o >= 31 {
        shadow := shadow | 0x140;
      } else if o >= 16 {
        shadow := shadow | 0x100;
        shadow := shadow & !(0x40 as bv32);
      }
    }

    // Shows the page of offset o and returns its address there.
    method SelectPage(o: bv32) returns (a: bv32)
      modifies this
      ensures State() == Select(old(State()), o) && a == Local(o)
      ensures analog4 == Masked(old(analog4), 0xf00, 8, 0)
    {
      hide Wire, Rises, Latched, Masked, LowestBit, Selecting, Word;
      ghost var i := SetBBreg(AnalogParameter4, 0xf00, 0x0);
      AnalogBits(i);
      if o >= 31 {
        ChoosePage(o);
        i := SetBBreg(ThreeWire, WHOLE, Word(shadow));
        a := o - 30;
      } else if o >= 16 {
        ChoosePage(o);
        i := SetBBreg(ThreeWire, WHOLE, Word(shadow));
        a := o - 15;
      } else {
        a := o;
      }
    }

    method RestorePage()
      modifies this
      ensures State() == Restore(old(State())) && analog4 == old(analog4)
    {
      hide Wire;
      shadow := shadow & 0xebf;
      ghost var i := SetBBreg(ThreeWire, WHOLE, Word(shadow));
    }

    method RestoreAnalog(ghost was: bv32)
      requires analog4 == Masked(was, 0xf00, 8, 0)
      modifies this
      ensures State() == old(State()) && SwitchedBack(rfType, was, analog4)
    {
      hide Wire, Rises, Latched, Masked, LowestBit, SwitchedBack;
      SwitchesBack(was);
      if rfType == Rf2T4R {
        ghost var i := SetBBreg(AnalogParameter4, 0xf00, 0xf);
        AnalogBits(i);
      } else if rfType == Rf1T2R {
        ghost var i := SetBBreg(AnalogParameter4, 0xc00, 0x3);
        AnalogBits(i);
      }
    }

    method RFSerialRead(offset: bv32) returns (v: bv32)
      modifies this
      ensures (State(), v) == Read(old(State()), offset)
      ensures SwitchedBack(rfType, old(analog4), analog4)
    {
      ghost var was := analog4;
      var o := offset & 0x3f;
      LocalFits(o);
      var a := SelectPage(o);
      hide Select, Restore, Wire, Local, Get, CellSeen, Low12, Masked, SwitchedBack;
      v := Strobe(a);
      RestorePage();
      RestoreAnalog(was);
    }

    method RFSerialWrite(offset: bv32, data: bv32)
      modifies this
      ensures State() == Write(old(State()), offset, data)
      ensures SwitchedBack(rfType, old(analog4), analog4)
    {
      ghost var was := analog4;
      var o := offset & 0x3f;
      var a := SelectPage(o);
      hide Select, Restore, Wire, Local, Masked, SwitchedBack, Rises, Latched;
      ghost var i := SetBBreg(ThreeWire, WHOLE, (data << 16) | (a & 0x3f));
      if o == 0 {
        shadow := data;
      }
      if o != 0 {
        RestorePage();
      }
      RestoreAnalog(was);
    }

    // Paths A and B (0 and 1) of a 1T2R radio are illegal and left alone; on every other path the
    // field is written, and a partial mask makes it a read, then a write.
    method SetRFReg(offset: bv32, mask: bv32, data: bv32) returns (ghost i: bv6)
      requires mask != 0
      modifies this
      ensures i <= 31
      ensures rfType == Rf1T2R && path <= 1 ==> State() == old(State()) && analog4 == old(analog4)
      ensures rfType != Rf1T2R || path >= 2 ==>
        && (mask != LOW12 ==> LowestBit(mask, i))
        && State() == SetField(old(State()), offset, mask, i, data)
        && SwitchedBack(rfType, old(analog4), analog4)
    {
      hide Read, Write, LowestBit, Masked, SwitchedBack;
      i := 0;
      if !LegalPath(rfType, path) {
        return;
      }
      if mask != LOW12 {
        var original := RFSerialRead(offset);
        var shift := CalculateBitShift(mask);
        i := shift;
        ghost var between := analog4;
        RFSerialWrite(offset, Masked(original, mask, shift, data));
        SwitchedTwice(rfType, old(analog4), between, analog4);
      } else {
        RFSerialWrite(offset, data);
      }
    }

    // On an illegal path 0, on every other path the field.
    method QueryRFReg(offset: bv32, mask: bv32) returns (v: bv32, ghost i: bv6)
      requires mask != 0
      modifies this
      ensures i <= 31
      ensures rfType == Rf1T2R && path <= 1 ==> v == 0 && State() == old(State()) && analog4 == old(analog4)
      ensures rfType != Rf1T2R || path >= 2 ==>
        && LowestBit(mask, i)
        && State() == Read(old(State()), offset).0 && v == Field(Read(old(State()), offset).1, mask, i)
        && SwitchedBack(rfType, old(analog4), analog4)
    {
      hide Read, LowestBit, Field, SwitchedBack;
      i := 0;
      if !LegalPath(rfType, path) {
        return 0, 0;
      }
      var original := RFSerialRead(offset);
      var shift := CalculateBitShift(mask);
      i := shift;
      v := Field(original, mask, shift);
    }
  }

  lemma LocalFits(o: bv32)
    requires o <= 0x3f
    ensures Local(o) <= 0x3f
  {
  }

  // rtl8192_phy_SetRFReg on a legal path; i is the lowest bit of the mask.
  function SetField(s: Rf, offset: bv32, mask: bv32, i: bv6, data: bv32): Rf
    requires i <= 31
  {
    if mask != LOW12 then
      var (s1, v) := Read(s, offset); Write(s1, offset, Masked(v, mask, i, data))
    else Write(s, offset, data)
  }

  lemma BlendReads(v: bv32, mask: bv32, d: bv32)
    requires mask <= LOW12 && Without(d, mask) == 0
    ensures And(Low12(Blended(v, mask, d)), mask) == d
  {
  }

  lemma MaskedReads(v: bv32, mask: bv32, i: bv6, data: bv32)
    requires i <= 31 && mask <= LOW12 && Without(Raised(data, i), mask) == 0 && Lowered(Raised(data, i), i) == data
    ensures Field(Low12(Masked(v, mask, i, data)), mask, i) == data
  {
    hide Low12, Raised, Lowered, And, Blended;
    BlendReads(v, mask, Raised(data, i));
  }

  lemma MaskedKeeps(v: bv32, mask: bv32, i: bv6, data: bv32)
    requires i <= 31 && mask <= LOW12 && Without(Raised(data, i), mask) == 0
    ensures Without(Low12(Masked(v, mask, i, data)), mask) == Without(Low12(v), mask)
  {
    hide Raised;
  }

  lemma MaskedPages(v: bv32, mask: bv32, i: bv6, data: bv32)
    requires i <= 31 && PageClean(v) && PageClean(Raised(data, i))
    ensures PageClean(Masked(v, mask, i, data))
  {
    hide Raised;
  }

  // Setting a field of a register sets that field alone: it reads back as the data, the other
  // bits of the register and all other registers stay. For register 0 the field must leave the
  // page bits clear.
  lemma FieldsAreFlat(s: Rf, o: bv32, mask: bv32, i: bv6, data: bv32)
    requires RfOk(s) && o <= LAST_OFFSET
    requires i <= 31 && LowestBit(mask, i) && mask < LOW12
    requires Without(Raised(data, i), mask) == 0 && Lowered(Raised(data, i), i) == data
    requires o == 0 ==> PageClean(Raised(data, i))
    ensures var s' := SetField(s, o, mask, i, data);
      && RfOk(s')
      && Field(Flat(s', o), mask, i) == data
      && Without(Flat(s', o), mask) == Without(Flat(s, o), mask)
      && (forall p :: p <= LAST_OFFSET && p != o ==> Flat(s', p) == Flat(s, p))
  {
    hide Read, Write, RfOk, Flat, Masked, Field, Low12, LowestBit, Raised, Lowered, And, Without, PageClean;
    var (s1, v) := Read(s, o);
    var w := Masked(v, mask, i, data);
    ReadIsFlat(s, o);
    FlatIsLow(s, o);
    MaskedReads(v, mask, i, data);
    MaskedKeeps(v, mask, i, data);
    if o == 0 {
      ZeroFlat(s);
      MaskedPages(v, mask, i, data);
    }
    WriteIsFlat(s1, o, w);
  }

  lemma FlatIsLow(s: Rf, o: bv32)
    ensures Low12(Flat(s, o)) == Flat(s, o)
  {
    Low12Twice(Get(s.regs, CellAt(o)));
  }

  lemma ZeroFlat(s: Rf)
    requires RfOk(s)
    ensures PageClean(Flat(s, 0))
  {
    PageBitsOfLow(s.shadow);
    Low12Twice(s.shadow);
  }

  lemma PageBitsOfLow(v: bv32)
    ensures PageClean(Low12(v)) <==> PageClean(v)
  {
  }
}
