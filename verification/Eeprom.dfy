/**
 Reading the serial EEPROM by setting and clearing single bits of a command register, against
 a model of the 93C46 and 93C56 chips that hang on those bits.
 */
module Eeprom {
  import opened Basics

  type Register = bv8

  // The command register: operating mode in bits 7 and 6, then chip select, clock, data to the
  // chip and data from it in bits 3 to 0.
  const MODE_PROGRAM: Register := 0x80
  const MODE_NORMAL: Register := 0x00
  const CS: Register := 8
  const CK: Register := 4
  const W: Register := 2
  const R: Register := 1

  datatype Kind = C46 | C56

  function AddressBits(k: Kind): nat {
    if k.C46? then 6 else 8
  }

  // 16-bit words; the 93C56 ignores the first of its address bits.
  function WordCount(k: Kind): nat {
    if k.C46? then 64 else 128
  }

  // ---- Binary numbers, most significant bit first ----

  function Pow2(n: nat): (p: nat)
    ensures p > 0
  {
    if n == 0 then 1 else 2 * Pow2(n - 1)
  }

  function Value(bits: seq<bool>): nat {
    if bits == [] then 0 else 2 * Value(bits[..|bits| - 1]) + if bits[|bits| - 1] then 1 else 0
  }

  // Bit i of a word as it is shifted out, i = 0 first.
  predicate WordBit(w: Word, i: nat)
    requires i < 16
  {
    w / Pow2(15 - i) % 2 == 1
  }

  // ---- The chip ----

  // What has been shifted in or out since the chip was selected.
  datatype Phase =
    | Standby
    | Command(bits: seq<bool>)
    | Reading(addr: nat, shifted: nat)
    | Finished

  datatype Op = ReadOp(addr: nat) | OtherOp(opcode: nat, addr: nat)

  datatype Chip = Chip(kind: Kind, words: seq<Word>, phase: Phase, out: bool, ops: seq<Op>)

  ghost predicate ChipOk(c: Chip) {
    |c.words| == WordCount(c.kind) && (c.phase.Reading? ==> c.phase.addr < |c.words|)
  }

  // After its start bit a command has two opcode bits and 6 or 8 address bits.
  function CommandBits(k: Kind): nat {
    match k
    case C46 => 8
    case C56 => 10
  }

  // A complete command: opcode 10 is a read, which answers with a dummy zero first.
  function Obey(c: Chip, bits: seq<bool>): Chip
    requires |bits| == CommandBits(c.kind) && |c.words| == WordCount(c.kind)
  {
    var addr := Value(bits[2..]) % |c.words|;
    if bits[0] && !bits[1] then c.(phase := Reading(addr, 0), out := false, ops := c.ops + [ReadOp(addr)])
    else c.(phase := Finished, out := false, ops := c.ops + [OtherOp(Value(bits[..2]), addr)])
  }

  // A rising clock edge while the chip is selected.
  function Rise(c: Chip, di: bool): (c': Chip)
    requires ChipOk(c)
    ensures ChipOk(c') && c'.kind == c.kind && c'.words == c.words
  {
    match c.phase
    case Standby => if di then c.(phase := Command([])) else c
    case Command(bits) =>
      if |bits| + 1 == CommandBits(c.kind) then Obey(c, bits + [di]) else c.(phase := Command(bits + [di]))
    case Reading(addr, n) =>
      if n < 16 then c.(phase := Reading(addr, n + 1), out := WordBit(c.words[addr], n))
      else c.(phase := Finished, out := false)
    case Finished => c
  }

  function RiseAll(c: Chip, bits: seq<bool>): (c': Chip)
    requires ChipOk(c)
    ensures ChipOk(c') && c'.kind == c.kind && c'.words == c.words
    decreases |bits|
  {
    if bits == [] then c else RiseAll(Rise(c, bits[0]), bits[1..])
  }

  datatype Pins = Pins(on: bool, cs: bool, ck: bool, di: bool)

  // The chip sees the register only in programming mode; losing its select ends a command.
  function Seen(c: Chip, p: Pins, q: Pins): (c': Chip)
    requires ChipOk(c)
    ensures ChipOk(c') && c'.kind == c.kind && c'.words == c.words
  {
    if !q.on || !q.cs then c.(phase := Standby, out := false)
    else if !p.ck && q.ck then Rise(c, q.di) else c
  }

  // Bits 7 and 6 are 10 in programming mode; chip select is bit 3, the clock bit 2, data to the chip
  // bit 1, and data from it bit 0.
  function PinsOf(v: Register): Pins {
    Pins(v & 0xc0 == 0x80, v & 0x08 != 0, v & 0x04 != 0, v & 0x02 != 0)
  }

  lemma PinBits(v: Register)
    ensures PinsOf(v | CS) == PinsOf(v).(cs := true) && PinsOf(v & !CS) == PinsOf(v).(cs := false)
    ensures PinsOf(v | CK) == PinsOf(v).(ck := true) && PinsOf(v & !CK) == PinsOf(v).(ck := false)
    ensures PinsOf(v | W) == PinsOf(v).(di := true) && PinsOf(v & !W) == PinsOf(v).(di := false)
  {
  }

  lemma OutBit(v: Register, b: bool)
    ensures PinsOf(v | R) == PinsOf(v) && PinsOf(v & !R) == PinsOf(v)
    ensures (v | R) & R != 0 && (v & !R) & R == 0
  {
  }

  lemma ModeBits()
    ensures PinsOf(MODE_PROGRAM) == Pins(true, false, false, false)
    ensures PinsOf(MODE_NORMAL) == Pins(false, false, false, false)
  {
  }

  // ---- What a read command does to the chip ----

  lemma {:induction false} RiseAllAppend(c: Chip, a: seq<bool>, b: seq<bool>)
    requires ChipOk(c)
    ensures RiseAll(c, a + b) == RiseAll(RiseAll(c, a), b)
    decreases |a|
  {
    hide Rise;
    if a == [] {
      assert a + b == b;
    } else {
      assert (a + b)[1..] == a[1..] + b;
      RiseAllAppend(Rise(c, a[0]), a[1..], b);
    }
  }

  lemma {:induction false} Collects(c: Chip, bits: seq<bool>, more: seq<bool>)
    requires ChipOk(c) && c.phase == Command(bits) && |bits| + |more| < CommandBits(c.kind)
    ensures RiseAll(c, more) == c.(phase := Command(bits + more))
    decreases |more|
  {
    if more == [] {
      assert bits + more == bits;
    } else {
      Collects(Rise(c, more[0]), bits + [more[0]], more[1..]);
      assert bits + [more[0]] + more[1..] == bits + more;
    }
  }

  lemma ReadCommand(c: Chip, a: seq<bool>)
    requires ChipOk(c) && c.phase == Standby && |a| == AddressBits(c.kind)
    ensures var addr := Value(a) % |c.words|;
      RiseAll(c, [true, true, false] + a) == c.(phase := Reading(addr, 0), out := false, ops := c.ops + [ReadOp(addr)])
  {
    var n := |a| - 1;
    var c1 := c.(phase := Command([]));
    var head := [true, false] + a[..n];
    assert [true, true, false] + a == [true] + (head + [a[n]]);
    RiseAllAppend(c, [true], head + [a[n]]);
    assert RiseAll(c, [true]) == c1 by { assert [true][1..] == []; }
    RiseAllAppend(c1, head, [a[n]]);
    Collects(c1, [], head);
    assert [] + head == head;
    var c2 := c.(phase := Command(head));
    assert RiseAll(c2, [a[n]]) == Rise(c2, a[n]) by { assert [a[n]][1..] == []; }
    assert (head + [a[n]])[2..] == a;
  }

  // Bit k of an address, as the driver masks it out.
  predicate AddressBit(addr: nat, k: nat) {
    addr / Pow2(k) % 2 == 1
  }

  ghost predicate Spells(bits: seq<bool>, addr: nat) {
    forall i :: 0 <= i < |bits| ==> (bits[i] <==> AddressBit(addr, |bits| - 1 - i))
  }

  lemma DivTwice(a: nat, p: nat)
    requires p > 0
    ensures a / 2 / p == a / (2 * p)
  {
    var q, r := a / 2 / p, a / 2 % p;
    var rest := 2 * r + a % 2;
    assert a / 2 == p * q + r;
    assert a == (2 * p) * q + rest && 0 <= rest < 2 * p;
    DivMod(2 * p, q, rest, a);
  }

  lemma ShiftedBit(addr: nat, k: nat)
    ensures AddressBit(addr / 2, k) <==> AddressBit(addr, k + 1)
  {
    DivTwice(addr, Pow2(k));
  }

  // The bits of an address, most significant first, have it as their value.
  lemma {:induction false} SpelledValue(bits: seq<bool>, addr: nat)
    requires Spells(bits, addr) && addr < Pow2(|bits|)
    ensures Value(bits) == addr
    decreases |bits|
  {
    if bits != [] {
      var n := |bits| - 1;
      var front := bits[..n];
      forall i | 0 <= i < n ensures front[i] <==> AddressBit(addr / 2, n - 1 - i) {
        ShiftedBit(addr, n - 1 - i);
      }
      SpelledValue(front, addr / 2);
      assert bits[n] <==> AddressBit(addr, 0);
      assert Pow2(0) == 1;
    }
  }

  lemma AddressRange(k: Kind)
    ensures WordCount(k) <= Pow2(AddressBits(k))
  {
    assert Pow2(2) == 4 && Pow2(4) == 16 && Pow2(6) == 64 && Pow2(8) == 256;
  }

  lemma InRange(addr: nat, n: nat)
    requires addr < n
    ensures addr % n == addr
  {
  }

  lemma ReadSent(c: Chip, a: seq<bool>, addr: nat)
    requires ChipOk(c) && c.phase == Standby && addr < WordCount(c.kind)
    requires |a| == AddressBits(c.kind) && Spells(a, addr)
    ensures RiseAll(RiseAll(c, [true, true, false]), a)
         == c.(phase := Reading(addr, 0), out := false, ops := c.ops + [ReadOp(addr)])
  {
    assert addr < |c.words|;
    hide *;
    AddressRange(c.kind);
    SpelledValue(a, addr);
    InRange(addr, |c.words|);
    RiseAllAppend(c, [true, true, false], a);
    ReadCommand(c, a);
  }

  // The upper i bits of a word, put back in place one by one.
  lemma WordNext(w: Word, i: nat)
    requires i < 16
    ensures w - w % Pow2(15 - i) == (w - w % Pow2(16 - i)) + if WordBit(w, i) then Pow2(15 - i) else 0
  {
    var p := Pow2(15 - i);
    var q, r := w / p, w % p;
    assert Pow2(16 - i) == 2 * p;
    assert w == p * q + r;
    assert q == 2 * (q / 2) + q % 2;
    assert p * q == (2 * p) * (q / 2) + p * (q % 2) by {
      assert p * q == p * (2 * (q / 2)) + p * (q % 2);
    }
    DivMod(2 * p, q / 2, p * (q % 2) + r, w);
  }

  lemma WordWhole(w: Word)
    ensures w % Pow2(16) == w && w % Pow2(0) == 0
  {
    assert Pow2(4) == 16 && Pow2(8) == 256 && Pow2(12) == 4096 && Pow2(16) == 0x1_0000;
  }

  // ---- The driver ----

  class Board {
    const kind: Kind
    var reg: Register
    var chip: Chip

    ghost predicate Valid()
      reads this
    {
      chip.kind == kind && ChipOk(chip)
    }

    ghost function Lines(): Pins
      reads this
    {
      PinsOf(reg)
    }

    constructor (k: Kind, initial: Register, c: Chip)
      requires c.kind == k && ChipOk(c)
      ensures Valid() && kind == k && reg == initial && chip == c
    {
      kind, reg, chip := k, initial, c;
    }

    // The data bit of the register reads what the chip puts out.
    method ReadNic() returns (v: Register)
      ensures PinsOf(v) == Lines() && (v & 0x01 != 0 <==> chip.out)
    {
      hide PinsOf;
      OutBit(reg, chip.out);
      v := if chip.out then reg | R else reg & !R;
    }

    method WriteNic(v: Register)
      requires Valid()
      modifies this
      ensures Valid() && chip == Seen(old(chip), old(Lines()), PinsOf(v)) && Lines() == PinsOf(v)
    {
      chip := Seen(chip, PinsOf(reg), PinsOf(v));
      reg := v;
    }

    // eprom_cs.
    method Select(bit: bool)
      requires Valid()
      modifies this
      ensures Valid() && Lines() == old(Lines()).(cs := bit) && chip == Seen(old(chip), old(Lines()), Lines())
    {
      hide PinsOf, Seen;
      var v := ReadNic();
      PinBits(v);
      if bit {
        WriteNic(v | CS);
      } else {
        WriteNic(v & !CS);
      }
    }

    // eprom_ck_cycle.
    method Cycle()
      requires Valid() && !Lines().ck
      modifies this
      ensures Valid() && Lines() == old(Lines())
      ensures chip == if Lines().on && Lines().cs then Rise(old(chip), Lines().di)
                      else old(chip).(phase := Standby, out := false)
    {
      hide PinsOf, Rise;
      var v := ReadNic();
      PinBits(v);
      WriteNic(CK | v);
      v := ReadNic();
      PinBits(v);
      WriteNic(v & !CK);
    }

    // eprom_w.
    method PutBit(bit: bool)
      requires Valid()
      modifies this
      ensures Valid() && Lines() == old(Lines()).(di := bit)
      ensures chip == if Lines().on && Lines().cs then old(chip) else old(chip).(phase := Standby, out := false)
    {
      hide PinsOf, Rise;
      var v := ReadNic();
      PinBits(v);
      if bit {
        WriteNic(W | v);
      } else {
        WriteNic(v & !W);
      }
    }

    // eprom_r.
    method GetBit() returns (bit: bool)
      ensures bit == chip.out
    {
      var v := ReadNic();
      bit := v & R != 0;
    }

    // eprom_send_bits_string.
    method SendBits(b: seq<bool>)
      requires Valid() && Lines().on && Lines().cs && !Lines().ck
      modifies this
      ensures Valid() && chip == RiseAll(old(chip), b)
      ensures Lines().on && Lines().cs && !Lines().ck
    {
      hide PinsOf, Rise;
      var i := 0;
      assert b[0..] == b;
      while i < |b|
        invariant 0 <= i <= |b| && Valid() && Lines().on && Lines().cs && !Lines().ck
        invariant RiseAll(chip, b[i..]) == RiseAll(old(chip), b)
      {
        assert b[i..][0] == b[i] && b[i..][1..] == b[i + 1..];
        PutBit(b[i]);
        Cycle();
        i := i + 1;
      }
    }

    // The loop that shifts the 16 bits of a word in.
    method ReceiveWord(addr: nat) returns (ret: nat)
      requires Valid() && Lines().on && Lines().cs && !Lines().ck && chip.phase == Reading(addr, 0)
      modifies this
      ensures Valid() && ret == old(chip).words[addr] && chip.words == old(chip).words && chip.ops == old(chip).ops
      ensures Lines().on && Lines().cs && !Lines().ck
    {
      ghost var w := chip.words[addr];
      ret := 0;
      var i := 0;
      WordWhole(w);
      hide PinsOf, WordBit, Pow2;
      while i < 16
        invariant 0 <= i <= 16 && Valid() && Lines().on && Lines().cs && !Lines().ck
        invariant chip.words == old(chip).words && chip.ops == old(chip).ops && chip.phase == Reading(addr, i)
        invariant ret == w - w % Pow2(16 - i)
      {
        Cycle();
        WordNext(w, i);
        var bit := GetBit();
        ret := ret + if bit then Pow2(15 - i) else 0;
        i := i + 1;
      }
    }

    // The string of address bits.
    method AddressString(addr: nat) returns (a: seq<bool>)
      ensures |a| == AddressBits(kind) && Spells(a, addr)
    {
      hide AddressBit;
      if kind == C56 {
        a := [AddressBit(addr, 7), AddressBit(addr, 6), AddressBit(addr, 5), AddressBit(addr, 4),
              AddressBit(addr, 3), AddressBit(addr, 2), AddressBit(addr, 1), AddressBit(addr, 0)];
      } else {
        a := [AddressBit(addr, 5), AddressBit(addr, 4), AddressBit(addr, 3), AddressBit(addr, 2),
              AddressBit(addr, 1), AddressBit(addr, 0)];
      }
    }

    // Selecting the chip and sending it a read command.
    method Begin(addr: nat)
      requires Valid() && addr < WordCount(kind)
      modifies this
      ensures Valid() && Lines().on && Lines().cs && !Lines().ck
      ensures chip == old(chip).(phase := Reading(addr, 0), out := false, ops := old(chip).ops + [ReadOp(addr)])
    {
      ModeBits();
      WriteNic(MODE_PROGRAM);
      hide PinsOf, RiseAll;
      var a := AddressString(addr);
      Select(true);
      Cycle();
      hide Rise, Seen;
      ghost var c := chip;
      SendBits([true, true, false]);
      SendBits(a);
      ReadSent(c, a, addr);
      PutBit(false);
    }

    // eprom_read: the word stored at the address, by one read command and no other; the chip is
    // no longer selected afterwards.
    method ReadWord(addr: nat) returns (ret: nat)
      requires Valid() && addr < WordCount(kind)
      modifies this
      ensures Valid() && ret == old(chip).words[addr]
      ensures chip == old(chip).(phase := Standby, out := false, ops := old(chip).ops + [ReadOp(addr)])
      ensures !Lines().cs && !Lines().on
    {
      ModeBits();
      hide PinsOf, Rise;
      Begin(addr);
      ret := ReceiveWord(addr);
      Select(false);
      Cycle();
      WriteNic(MODE_NORMAL);
    }
  }
}
