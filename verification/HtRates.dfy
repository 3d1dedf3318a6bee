/**
 Negotiation of the HT rates: filtering the peer's set of MCS rates and choosing the highest
 (supported MCS set: section 8.4.2.58.4 of IEEE 802.11-2012). A set is a bitmap of 16 bytes.
 */
module HtRates {

  const MCS_BYTES := 16
  const MCS_COUNT := 77

  const RATE_1SS: bv8 := 0xff
  const RATE_2SS: bv8 := 0xf0
  const RATE_MCS32: bv8 := 0x01

  const MCS_FILTER_ALL: seq<bv8> := [0xff, 0xff, 0xff, 0xff, 0xff, 0xff, 0xff, 0xff, 0xff, 0x1f, 0, 0, 0, 0, 0, 0]
  const MCS_FILTER_1SS: seq<bv8> := [0xff, 0, 0, 1, 0, 0, 0, 0, 0, 0, 0, 0, 0, 0, 0, 0]

  // Data rates in units of 0.5 Mb/s, by channel width and guard interval. The first table of
  // the driver lacks an entry for MCS 19, so its later entries stand one place early and its
  // last one is the zero the compiler fills in.
  const RATES_20_LONG: seq<nat> :=
    [13, 26, 39, 52, 78, 104, 117, 130, 26, 52, 78, 104, 156, 208, 234, 260]
    + [39, 78, 117, 234, 312, 351, 390, 52, 104, 156, 208, 312, 416, 468, 520]
    + [0, 78, 104, 130, 117, 156, 195, 104, 130, 130, 156, 182, 182, 208, 156, 195]
    + [195, 234, 273, 273, 312, 130, 156, 181, 156, 181, 208, 234, 208, 234, 260, 260]
    + [286, 195, 234, 273, 234, 273, 312, 351, 312, 351, 390, 390, 429, 0]

  const RATES_20_SHORT: seq<nat> :=
    [14, 29, 43, 58, 87, 116, 130, 144, 29, 58, 87, 116, 173, 231, 260, 289]
    + [43, 87, 130, 173, 260, 347, 390, 433, 58, 116, 173, 231, 347, 462, 520, 578]
    + [0, 87, 116, 144, 130, 173, 217, 116, 144, 144, 173, 202, 202, 231, 173, 217]
    + [217, 260, 303, 303, 347, 144, 173, 202, 173, 202, 231, 260, 231, 260, 289, 289]
    + [318, 217, 260, 303, 260, 303, 347, 390, 347, 390, 433, 433, 477]

  const RATES_40_LONG: seq<nat> :=
    [27, 54, 81, 108, 162, 216, 243, 270, 54, 108, 162, 216, 324, 432, 486, 540]
    + [81, 162, 243, 324, 486, 648, 729, 810, 108, 216, 324, 432, 648, 864, 972, 1080]
    + [12, 162, 216, 270, 243, 324, 405, 216, 270, 270, 324, 378, 378, 432, 324, 405]
    + [405, 486, 567, 567, 648, 270, 324, 378, 324, 378, 432, 486, 432, 486, 540, 540]
    + [594, 405, 486, 567, 486, 567, 648, 729, 648, 729, 810, 810, 891]

  const RATES_40_SHORT: seq<nat> :=
    [30, 60, 90, 120, 180, 240, 270, 300, 60, 120, 180, 240, 360, 480, 540, 600]
    + [90, 180, 270, 360, 540, 720, 810, 900, 120, 240, 360, 480, 720, 960, 1080, 1200]
    + [13, 180, 240, 300, 270, 360, 450, 240, 300, 300, 360, 420, 420, 480, 360, 450]
    + [450, 540, 630, 630, 720, 300, 360, 420, 360, 420, 480, 540, 480, 540, 600, 600]
    + [660, 450, 540, 630, 540, 630, 720, 810, 720, 810, 900, 900, 990]

  datatype HtInfo = HtInfo(bw40: bool, shortGi20: bool, shortGi40: bool)

  function RateTable(h: HtInfo): seq<nat> {
    if h.bw40 then (if h.shortGi40 then RATES_40_SHORT else RATES_40_LONG)
    else if h.shortGi20 then RATES_20_SHORT else RATES_20_LONG
  }

  lemma RateTableFull(h: HtInfo)
    ensures |RateTable(h)| == MCS_COUNT
  {
  }

  // HTMcsToDataRate; the table holds 77 entries.
  function Rate(h: HtInfo, mcs: nat): nat {
    RateTableFull(h);
    if mcs < MCS_COUNT then RateTable(h)[mcs] else 0
  }

  // ---- The rates of the standard ----

  // One or two streams of BPSK, QPSK, 16-QAM or 64-QAM: bits per subcarrier over all streams.
  function BitsPerTone(mcs: nat): nat {
    var m := mcs % 8;
    (if m == 0 then 1 else if m <= 2 then 2 else if m <= 4 then 4 else 6) * (mcs / 8 + 1)
  }

  // The coding rate in twelfths: 1/2, 2/3, 3/4 or 5/6.
  function Coding(mcs: nat): nat {
    var m := mcs % 8;
    if m == 5 then 8 else if m == 7 then 10 else if m == 2 || m == 4 || m == 6 then 9 else 6
  }

  // A symbol takes 4 microseconds with the long guard interval, on 52 or 108 data subcarriers, and
  // 3.6 with the short one, rounded to the nearest unit (section 20.6 of IEEE 802.11-2012).
  function StandardRate(wide: bool, short: bool, mcs: nat): nat {
    if short then Shortened(LongRate(wide, mcs)) else LongRate(wide, mcs)
  }

  function LongRate(wide: bool, mcs: nat): nat {
    (if wide then 108 else 52) * BitsPerTone(mcs) * Coding(mcs) / 24
  }

  function Shortened(rate: nat): nat {
    (20 * rate + 9) / 18
  }

  lemma LongRates20One()
    ensures RATES_20_LONG[0] == LongRate(false, 0) && RATES_20_LONG[1] == LongRate(false, 1)
         && RATES_20_LONG[2] == LongRate(false, 2) && RATES_20_LONG[3] == LongRate(false, 3)
         && RATES_20_LONG[4] == LongRate(false, 4) && RATES_20_LONG[5] == LongRate(false, 5)
         && RATES_20_LONG[6] == LongRate(false, 6) && RATES_20_LONG[7] == LongRate(false, 7)
  {
  }

  lemma ShortRates20One()
    ensures RATES_20_SHORT[0] == Shortened(RATES_20_LONG[0]) && RATES_20_SHORT[1] == Shortened(RATES_20_LONG[1])
         && RATES_20_SHORT[2] == Shortened(RATES_20_LONG[2]) && RATES_20_SHORT[3] == Shortened(RATES_20_LONG[3])
         && RATES_20_SHORT[4] == Shortened(RATES_20_LONG[4]) && RATES_20_SHORT[5] == Shortened(RATES_20_LONG[5])
         && RATES_20_SHORT[6] == Shortened(RATES_20_LONG[6]) && RATES_20_SHORT[7] == Shortened(RATES_20_LONG[7])
  {
  }

  lemma LongRates40One()
    ensures RATES_40_LONG[0] == LongRate(true, 0) && RATES_40_LONG[1] == LongRate(true, 1)
         && RATES_40_LONG[2] == LongRate(true, 2) && RATES_40_LONG[3] == LongRate(true, 3)
         && RATES_40_LONG[4] == LongRate(true, 4) && RATES_40_LONG[5] == LongRate(true, 5)
         && RATES_40_LONG[6] == LongRate(true, 6) && RATES_40_LONG[7] == LongRate(true, 7)
  {
  }

  lemma ShortRates40One()
    ensures RATES_40_SHORT[0] == Shortened(RATES_40_LONG[0]) && RATES_40_SHORT[1] == Shortened(RATES_40_LONG[1])
         && RATES_40_SHORT[2] == Shortened(RATES_40_LONG[2]) && RATES_40_SHORT[3] == Shortened(RATES_40_LONG[3])
         && RATES_40_SHORT[4] == Shortened(RATES_40_LONG[4]) && RATES_40_SHORT[5] == Shortened(RATES_40_LONG[5])
         && RATES_40_SHORT[6] == Shortened(RATES_40_LONG[6]) && RATES_40_SHORT[7] == Shortened(RATES_40_LONG[7])
  {
  }

  lemma LongRates20Two()
    ensures RATES_20_LONG[8] == LongRate(false, 8) && RATES_20_LONG[9] == LongRate(false, 9)
         && RATES_20_LONG[10] == LongRate(false, 10) && RATES_20_LONG[11] == LongRate(false, 11)
         && RATES_20_LONG[12] == LongRate(false, 12) && RATES_20_LONG[13] == LongRate(false, 13)
         && RATES_20_LONG[14] == LongRate(false, 14) && RATES_20_LONG[15] == LongRate(false, 15)
  {
  }

  lemma ShortRates20Two()
    ensures RATES_20_SHORT[8] == Shortened(RATES_20_LONG[8]) && RATES_20_SHORT[9] == Shortened(RATES_20_LONG[9])
         && RATES_20_SHORT[10] == Shortened(RATES_20_LONG[10]) && RATES_20_SHORT[11] == Shortened(RATES_20_LONG[11])
         && RATES_20_SHORT[12] == Shortened(RATES_20_LONG[12]) && RATES_20_SHORT[13] == Shortened(RATES_20_LONG[13])
         && RATES_20_SHORT[14] == Shortened(RATES_20_LONG[14]) && RATES_20_SHORT[15] == Shortened(RATES_20_LONG[15])
  {
  }

  lemma LongRates40Two()
    ensures RATES_40_LONG[8] == LongRate(true, 8) && RATES_40_LONG[9] == LongRate(true, 9)
         && RATES_40_LONG[10] == LongRate(true, 10) && RATES_40_LONG[11] == LongRate(true, 11)
         && RATES_40_LONG[12] == LongRate(true, 12) && RATES_40_LONG[13] == LongRate(true, 13)
         && RATES_40_LONG[14] == LongRate(true, 14) && RATES_40_LONG[15] == LongRate(true, 15)
  {
  }

  lemma ShortRates40Two()
    ensures RATES_40_SHORT[8] == Shortened(RATES_40_LONG[8]) && RATES_40_SHORT[9] == Shortened(RATES_40_LONG[9])
         && RATES_40_SHORT[10] == Shortened(RATES_40_LONG[10]) && RATES_40_SHORT[11] == Shortened(RATES_40_LONG[11])
         && RATES_40_SHORT[12] == Shortened(RATES_40_LONG[12]) && RATES_40_SHORT[13] == Shortened(RATES_40_LONG[13])
         && RATES_40_SHORT[14] == Shortened(RATES_40_LONG[14]) && RATES_40_SHORT[15] == Shortened(RATES_40_LONG[15])
  {
  }

  // The rates of MCS 0 to 15, the only ones filtering can leave, are those of the standard.
  lemma RatesAreStandard(h: HtInfo, mcs: nat)
    requires mcs < 16
    ensures Rate(h, mcs) == StandardRate(h.bw40, if h.bw40 then h.shortGi40 else h.shortGi20, mcs)
  {
    RateTableFull(h);
    LongRates20One();
    LongRates20Two();
    ShortRates20One();
    ShortRates20Two();
    LongRates40One();
    LongRates40Two();
    ShortRates40One();
    ShortRates40Two();
    hide LongRate, Shortened;
    assert mcs == 0 || mcs == 1 || mcs == 2 || mcs == 3 || mcs == 4 || mcs == 5 || mcs == 6 || mcs == 7 || mcs == 8
      || mcs == 9 || mcs == 10 || mcs == 11 || mcs == 12 || mcs == 13 || mcs == 14 || mcs == 15;
  }

  // ---- Bitmaps ----

  function Bit(b: bv8, j: nat): bool {
    if j == 0 then b & 1 == 1 else Bit(b >> 1, j - 1)
  }

  predicate Has(rates: seq<bv8>, mcs: nat) {
    mcs / 8 < |rates| && Bit(rates[mcs / 8], mcs % 8)
  }

  predicate HasBoth(a: seq<bv8>, b: seq<bv8>, mcs: nat) {
    Has(a, mcs) && Has(b, mcs)
  }

  lemma {:induction false} BitAnd(a: bv8, b: bv8, j: nat)
    ensures Bit(a & b, j) <==> Bit(a, j) && Bit(b, j)
  {
    if j == 0 {
      AndLow(a, b);
    } else {
      AndShift(a, b);
      BitAnd(a >> 1, b >> 1, j - 1);
    }
  }

  lemma AndLow(a: bv8, b: bv8)
    ensures (a & b) & 1 == 1 <==> a & 1 == 1 && b & 1 == 1
  {
  }

  lemma AndShift(a: bv8, b: bv8)
    ensures (a & b) >> 1 == (a >> 1) & (b >> 1)
  {
  }

  lemma BitsOf(b: bv8)
    ensures Bit(b, 0) == (b & 1 != 0) && Bit(b, 1) == (b & 2 != 0) && Bit(b, 2) == (b & 4 != 0)
    ensures Bit(b, 3) == (b & 8 != 0)
    ensures Bit(b, 4) == (b & 16 != 0) && Bit(b, 5) == (b & 32 != 0) && Bit(b, 6) == (b & 64 != 0)
    ensures Bit(b, 7) == (b & 128 != 0)
  {
    var b1 := b >> 1;
    var b2 := b1 >> 1;
    var b3 := b2 >> 1;
    var b4 := b3 >> 1;
    var b5 := b4 >> 1;
    var b6 := b5 >> 1;
    var b7 := b6 >> 1;
    assert Bit(b7, 0) == Bit(b6, 1) == Bit(b5, 2) == Bit(b4, 3) == Bit(b3, 4) == Bit(b2, 5) == Bit(b1, 6) == Bit(b, 7);
    assert Bit(b6, 0) == Bit(b5, 1) == Bit(b4, 2) == Bit(b3, 3) == Bit(b2, 4) == Bit(b1, 5) == Bit(b, 6);
    assert Bit(b5, 0) == Bit(b4, 1) == Bit(b3, 2) == Bit(b2, 3) == Bit(b1, 4) == Bit(b, 5);
    assert Bit(b4, 0) == Bit(b3, 1) == Bit(b2, 2) == Bit(b1, 3) == Bit(b, 4);
  }

  // A byte without bits is zero.
  lemma NoBits(b: bv8)
    ensures (forall j: nat :: j < 8 ==> !Bit(b, j)) <==> b == 0
  {
    BitsOf(b);
    if b == 0 {
      forall j: nat | j < 8 ensures !Bit(b, j) {
        assert j == 0 || j == 1 || j == 2 || j == 3 || j == 4 || j == 5 || j == 6 || j == 7;
      }
    } else {
      assert b & 1 != 0 || b & 2 != 0 || b & 4 != 0 || b & 8 != 0
          || b & 16 != 0 || b & 32 != 0 || b & 64 != 0 || b & 128 != 0;
    }
  }

  // ---- Filtering ----

  datatype Mode = A | B | G | N24 | N5 | OtherMode

  // The MCS rates a mode and a half-N access point leave.
  predicate Permitted(mode: Mode, halfN: bool, mcs: nat) {
    match mode
    case A => false
    case B => false
    case G => false
    case OtherMode => mcs < 8 || (mcs < 16 && !halfN)
    case _ => mcs < 8 || (12 <= mcs < 16 && !halfN)
  }

  lemma MaskBits(j: nat)
    requires j < 8
    ensures Bit(RATE_1SS, j) && (Bit(RATE_2SS, j) <==> j >= 4) && !Bit(0, j)
  {
    BitsOf(RATE_1SS);
    BitsOf(RATE_2SS);
    BitsOf(0);
    assert j == 0 || j == 1 || j == 2 || j == 3 || j == 4 || j == 5 || j == 6 || j == 7;
  }

  function And8(a: bv8, b: bv8): bv8 {
    a & b
  }

  method ZeroFrom(operate: array<bv8>, n: nat)
    requires n <= operate.Length
    modifies operate
    ensures forall k :: 0 <= k < operate.Length ==> operate[k] == if k < n then old(operate[k]) else 0
  {
    var i := n;
    while i < operate.Length
      invariant n <= i <= operate.Length
      invariant forall k :: 0 <= k < operate.Length ==> operate[k] == if k < n || k >= i then old(operate[k]) else 0
    {
      operate[i] := 0;
      i := i + 1;
    }
  }

  // HT_PickMCSRate on an array of 16 bytes.
  method PickMcsRate(mode: Mode, operate: array<bv8>)
    requires operate.Length == MCS_BYTES
    modifies operate
    ensures operate[0] == Picked(mode, 0, old(operate[0])) && operate[1] == Picked(mode, 1, old(operate[1]))
  {
    hide And8;
    match mode {
      case OtherMode =>
      case N24 => MaskRates(operate);
      case N5 => MaskRates(operate);
      case _ => ZeroFrom(operate, 0);
    }
  }

  method MaskRates(operate: array<bv8>)
    requires operate.Length == MCS_BYTES
    modifies operate
    ensures operate[0] == And8(old(operate[0]), RATE_1SS) && operate[1] == And8(old(operate[1]), RATE_2SS)
  {
    hide And8;
    operate[0] := And8(operate[0], RATE_1SS);
    operate[1] := And8(operate[1], RATE_2SS);
    operate[3] := And8(operate[3], RATE_MCS32);
  }

  // What HT_PickMCSRate makes of the first two bytes.
  function Picked(mode: Mode, i: nat, b: bv8): bv8 {
    match mode
    case OtherMode => b
    case N24 => if i == 0 then And8(b, RATE_1SS) else And8(b, RATE_2SS)
    case N5 => if i == 0 then And8(b, RATE_1SS) else And8(b, RATE_2SS)
    case _ => 0
  }

  // HTFilterMCSRate: what is left is what both sides have and the mode permits.
  method FilterMcsRate(mode: Mode, halfN: bool, registered: array<bv8>, support: array<bv8>, operate: array<bv8>)
    requires registered.Length == MCS_BYTES && support.Length == MCS_BYTES && operate.Length == MCS_BYTES
    requires operate != registered && operate != support
    modifies operate
    ensures forall mcs: nat :: Has(operate[..], mcs) <==>
      HasBoth(registered[..], support[..], mcs) && Permitted(mode, halfN, mcs)
    ensures mode.A? || mode.B? || mode.G? ==> forall mcs: nat :: !Has(operate[..], mcs)
    ensures mode.N24? || mode.N5? ==> forall mcs: nat :: Has(operate[..], mcs) <==>
      HasBoth(registered[..], support[..], mcs) && (mcs < 8 || (12 <= mcs < 16 && !halfN))
    ensures mode.OtherMode? ==> forall mcs: nat :: Has(operate[..], mcs) <==>
      HasBoth(registered[..], support[..], mcs) && (mcs < 8 || (mcs < 16 && !halfN))
  {
    hide And8, Picked, Has, HasBoth;
    var i := 0;
    while i <= 15
      invariant 0 <= i <= 16 && forall k :: 0 <= k < i ==> operate[k] == And8(registered[k], support[k])
    {
      operate[i] := And8(registered[i], support[i]);
      i := i + 1;
    }
    PickMcsRate(mode, operate);
    if halfN {
      operate[1] := 0;
    }
    ZeroFrom(operate, 2);
    Filtered(mode, halfN, registered[..], support[..], operate[..]);
  }

  // What becomes of byte i of the intersection.
  function Kept(mode: Mode, halfN: bool, i: nat, b: bv8): bv8 {
    if i >= 2 || (i == 1 && halfN) then 0 else Picked(mode, i, b)
  }

  lemma Filtered(mode: Mode, halfN: bool, a: seq<bv8>, b: seq<bv8>, r: seq<bv8>)
    requires |a| == MCS_BYTES && |b| == MCS_BYTES && |r| == MCS_BYTES
    requires forall i :: 0 <= i < MCS_BYTES ==> r[i] == Kept(mode, halfN, i, And8(a[i], b[i]))
    ensures forall mcs: nat :: Has(r, mcs) <==> HasBoth(a, b, mcs) && Permitted(mode, halfN, mcs)
  {
    forall mcs: nat ensures Has(r, mcs) <==> HasBoth(a, b, mcs) && Permitted(mode, halfN, mcs) {
      hide Bit, Kept, And8, Permitted;
      var i, j := mcs / 8, mcs % 8;
      if i < MCS_BYTES {
        KeptBits(mode, halfN, i, a[i], b[i], j);
        assert 8 * i + j == mcs;
      }
    }
  }

  lemma KeptBits(mode: Mode, halfN: bool, i: nat, a: bv8, b: bv8, j: nat)
    requires j < 8
    ensures Bit(Kept(mode, halfN, i, And8(a, b)), j) <==> Bit(a, j) && Bit(b, j) && Permitted(mode, halfN, 8 * i + j)
  {
    AndBit(a, b, j);
    AndBit(And8(a, b), RATE_1SS, j);
    AndBit(And8(a, b), RATE_2SS, j);
    MaskBits(j);
    hide Bit, And8;
  }

  lemma AndBit(a: bv8, b: bv8, j: nat)
    ensures Bit(And8(a, b), j) <==> Bit(a, j) && Bit(b, j)
  {
    BitAnd(a, b, j);
  }

  // ---- The highest rate ----

  // m leads the members below n: it starts as 0 and gives way only to a higher rate.
  ghost predicate Leads(h: HtInfo, members: set<nat>, n: nat, m: nat) {
    && (m == 0 || (m in members && Rate(h, m) > Rate(h, 0)))
    && (forall k: nat :: k in members && k < n ==> Rate(h, k) <= Rate(h, m))
    && (forall k: nat :: k in members && k < m ==> Rate(h, k) < Rate(h, m))
    && (m == 0 || m < n)
  }

  ghost function Members(a: seq<bv8>, b: seq<bv8>): set<nat> {
    set mcs: nat | mcs < 128 && HasBoth(a, b, mcs)
  }

  // The lowest-indexed member with the highest rate.
  ghost predicate IsBest(h: HtInfo, members: set<nat>, m: nat) {
    && m in members
    && (forall k: nat :: k in members ==> Rate(h, k) <= Rate(h, m))
    && (forall k: nat :: k in members && k < m ==> Rate(h, k) < Rate(h, m))
  }

  // HTGetHighestMCSRate. Its filters leave no rate beyond the table.
  method GetHighestMcsRate(h: HtInfo, rateSet: array<bv8>, filter: seq<bv8>) returns (r: nat)
    requires rateSet.Length == MCS_BYTES && |filter| == MCS_BYTES
    requires forall mcs: nat :: Has(filter, mcs) ==> mcs < MCS_COUNT
    ensures r == 0 <==> Members(rateSet[..], filter) == {}
    ensures r != 0 ==> 0x80 <= r < 0x80 + MCS_COUNT && Leads(h, Members(rateSet[..], filter), 128, r - 0x80)
  {
    hide And8, Has, Leads, Bit, Lists, Members, Rate;
    var available := new bv8[MCS_BYTES];
    var i := 0;
    while i < 16
      invariant 0 <= i <= 16 && forall k :: 0 <= k < i ==> available[k] == And8(rateSet[k], filter[k])
    {
      available[i] := And8(rateSet[i], filter[i]);
      i := i + 1;
    }
    ghost var members := Members(rateSet[..], filter);
    MembersAre(rateSet[..], filter, available[..]);
    i := 0;
    while i < 16
      invariant 0 <= i <= 16 && forall k :: 0 <= k < i ==> available[k] == 0
    {
      if available[i] != 0 {
        break;
      }
      i := i + 1;
    }
    NoMembers(members, available[..]);
    MembersBelow(rateSet[..], filter);
    LeadStart(h, members);
    if i == 16 {
      return 0;
    }
    var mcsRate: nat := 0;
    i := 0;
    while i < 16
      invariant 0 <= i <= 16 && mcsRate < MCS_COUNT && Leads(h, members, 8 * i, mcsRate)
      invariant Lists(members, available[..])
    {
      ByteMembers(members, available[..], i);
      mcsRate := ScanByte(h, available[i], i, mcsRate, members);
      i := i + 1;
    }
    return 0x80 + mcsRate;
  }

  ghost predicate Lists(members: set<nat>, available: seq<bv8>) {
    forall k: nat :: k in members <==> k < 128 && Has(available, k)
  }

  lemma MembersAre(a: seq<bv8>, b: seq<bv8>, available: seq<bv8>)
    requires |a| == MCS_BYTES && |b| == MCS_BYTES && |available| == MCS_BYTES
    requires forall i :: 0 <= i < MCS_BYTES ==> available[i] == And8(a[i], b[i])
    ensures Lists(Members(a, b), available)
  {
    forall k: nat ensures k in Members(a, b) <==> k < 128 && Has(available, k) {
      if k < 128 {
        AndBit(a[k / 8], b[k / 8], k % 8);
      }
    }
  }

  lemma NoMembers(members: set<nat>, available: seq<bv8>)
    requires |available| == MCS_BYTES && Lists(members, available)
    ensures members == {} <==> forall i :: 0 <= i < MCS_BYTES ==> available[i] == 0
  {
    forall i | 0 <= i < MCS_BYTES ensures available[i] == 0 <==> forall j: nat :: j < 8 ==> !Bit(available[i], j) {
      NoBits(available[i]);
    }
    if exists i :: 0 <= i < MCS_BYTES && available[i] != 0 {
      var i :| 0 <= i < MCS_BYTES && available[i] != 0;
      var j: nat :| j < 8 && Bit(available[i], j);
      assert 8 * i + j in members;
    } else {
      forall k: nat ensures k !in members {
        assert k < 128 ==> available[k / 8] == 0;
      }
    }
  }

  lemma MembersBelow(a: seq<bv8>, b: seq<bv8>)
    requires forall mcs: nat :: Has(b, mcs) ==> mcs < MCS_COUNT
    ensures forall k :: k in Members(a, b) ==> k < MCS_COUNT
  {
  }

  lemma ByteMembers(members: set<nat>, available: seq<bv8>, i: nat)
    requires |available| == MCS_BYTES && Lists(members, available) && i < MCS_BYTES
    ensures forall j: nat :: j < 8 ==> (8 * i + j in members <==> Bit(available[i], j))
  {
    hide Bit;
    forall j: nat | j < 8 ensures 8 * i + j in members <==> Bit(available[i], j) {
      assert (8 * i + j) / 8 == i && (8 * i + j) % 8 == j;
    }
  }

  lemma LeadStart(h: HtInfo, members: set<nat>)
    ensures Leads(h, members, 0, 0)
  {
  }

  lemma LeadStep(h: HtInfo, members: set<nat>, n: nat, m: nat)
    requires Leads(h, members, n, m)
    ensures if n in members && Rate(h, n) > Rate(h, m) then Leads(h, members, n + 1, n) else Leads(h, members, n + 1, m)
  {
    hide Rate;
  }

  lemma LeadSkip(h: HtInfo, members: set<nat>, n: nat, d: nat, m: nat)
    requires Leads(h, members, n, m) && forall k: nat :: k in members ==> k < n || n + d <= k
    ensures Leads(h, members, n + d, m)
  {
    hide Rate;
  }

  lemma LowBit(b: bv8)
    ensures b % 2 != 0 <==> Bit(b, 0)
  {
  }

  lemma {:induction false} BitShift(byte: bv8, bitMap: bv8, j: nat)
    requires j < 8 && forall k: nat :: j <= k < 8 ==> Bit(byte, k) == Bit(bitMap, k - j)
    ensures forall k: nat :: j + 1 <= k < 8 ==> Bit(byte, k) == Bit(bitMap >> 1, k - (j + 1))
    ensures Bit(byte, j) == (bitMap % 2 != 0)
  {
    LowBit(bitMap);
    forall k: nat | j + 1 <= k < 8 ensures Bit(byte, k) == Bit(bitMap >> 1, k - (j + 1)) {
      assert Bit(bitMap, k - j) == Bit(bitMap >> 1, k - j - 1);
    }
  }

  // One bit of a byte of the map: what it says, and what the scan makes of it.
  lemma LeadBit(h: HtInfo, members: set<nat>, byte: bv8, bitMap: bv8, i: nat, j: nat, lead: nat)
    requires j < 8 && Leads(h, members, 8 * i + j, lead)
    requires forall k: nat :: k < 8 ==> (8 * i + k in members <==> Bit(byte, k))
    requires forall k: nat :: j <= k < 8 ==> Bit(byte, k) == Bit(bitMap, k - j)
    ensures forall k: nat :: j + 1 <= k < 8 ==> Bit(byte, k) == Bit(bitMap >> 1, k - (j + 1))
    ensures bitMap % 2 != 0 <==> 8 * i + j in members
    ensures var n := 8 * i + j;
      Leads(h, members, n + 1, if bitMap % 2 != 0 && Rate(h, n) > Rate(h, lead) then n else lead)
  {
    BitShift(byte, bitMap, j);
    LeadStep(h, members, 8 * i + j, lead);
    assert 8 * i + j in members <==> Bit(byte, j);
    hide *;
  }

  lemma LeadNone(h: HtInfo, members: set<nat>, i: nat, lead: nat)
    requires Leads(h, members, 8 * i, lead)
    requires forall k: nat :: k < 8 ==> (8 * i + k in members <==> Bit(0, k))
    ensures Leads(h, members, 8 * i + 8, lead)
  {
    NoBits(0);
    hide Bit, Leads, Rate;
    forall k: nat | k in members ensures k < 8 * i || 8 * i + 8 <= k {
      if 8 * i <= k < 8 * i + 8 {
        assert !Bit(0, k - 8 * i);
      }
    }
    LeadSkip(h, members, 8 * i, 8, lead);
  }

  method ScanByte(h: HtInfo, byte: bv8, i: nat, lead: nat, ghost members: set<nat>) returns (mcsRate: nat)
    requires i < 16 && lead < MCS_COUNT && Leads(h, members, 8 * i, lead)
    requires forall j: nat :: j < 8 ==> (8 * i + j in members <==> Bit(byte, j))
    requires forall k :: k in members ==> k < MCS_COUNT
    ensures mcsRate < MCS_COUNT && Leads(h, members, 8 * i + 8, mcsRate)
  {
    hide *;
    mcsRate := lead;
    if byte != 0 {
      var bitMap := byte;
      var j := 0;
      while j < 8
        invariant 0 <= j <= 8 && mcsRate < MCS_COUNT && Leads(h, members, 8 * i + j, mcsRate)
        invariant forall k: nat :: j <= k < 8 ==> Bit(byte, k) == Bit(bitMap, k - j)
      {
        hide *;
        LeadBit(h, members, byte, bitMap, i, j, mcsRate);
        if bitMap % 2 != 0 {
          if Rate(h, 8 * i + j) > Rate(h, mcsRate) {
            mcsRate := 8 * i + j;
          }
        }
        bitMap := bitMap >> 1;
        j := j + 1;
      }
    } else {
      LeadNone(h, members, i, lead);
    }
  }

  lemma LeadsUpTo(h: HtInfo, members: set<nat>, m: nat)
    requires Leads(h, members, 128, m) && forall k :: k in members ==> k < 128
    ensures forall k: nat :: k in members ==> Rate(h, k) <= Rate(h, m)
  {
  }

  // The scan starts from MCS 0 whether or not it is a member. So its result is the best member
  // exactly when MCS 0 is one, or some member has a higher rate than MCS 0.
  lemma BestExactly(h: HtInfo, members: set<nat>, m: nat)
    requires Leads(h, members, 128, m) && forall k :: k in members ==> k < 128
    ensures IsBest(h, members, m) <==> 0 in members || exists k :: k in members && Rate(h, k) > Rate(h, 0)
  {
    hide Rate;
    LeadsUpTo(h, members, m);
  }

  // MCS 32 alone, which no width or guard interval but the first rates above MCS 0, and MCS 31
  // alone with the first: the result is MCS 0, which is not a member.
  lemma NotAMember(h: HtInfo)
    ensures var mcs := if !h.bw40 && !h.shortGi20 then 31 else 32;
      Rate(h, mcs) <= Rate(h, 0) && forall m: nat :: Leads(h, {mcs}, 128, m) ==> m == 0 && !IsBest(h, {mcs}, m)
  {
    var mcs := if !h.bw40 && !h.shortGi20 then 31 else 32;
    LowRates(h);
    hide Rate;
    assert mcs in {mcs};
  }

  lemma LowRates(h: HtInfo)
    ensures var mcs := if !h.bw40 && !h.shortGi20 then 31 else 32; Rate(h, mcs) <= Rate(h, 0)
  {
  }

  // Every rate filtering can leave is above MCS 0, so after filtering the choice is always right.
  lemma PermittedAboveZero(h: HtInfo, mode: Mode, halfN: bool, mcs: nat)
    requires Permitted(mode, halfN, mcs) && mcs > 0
    ensures Rate(h, mcs) > Rate(h, 0)
  {
    assert mcs <= 15;
    FirstRates(mcs);
  }

  lemma FirstRates(mcs: nat)
    requires 1 <= mcs <= 15
    ensures RATES_20_LONG[mcs] > RATES_20_LONG[0] && RATES_20_SHORT[mcs] > RATES_20_SHORT[0]
    ensures RATES_40_LONG[mcs] > RATES_40_LONG[0] && RATES_40_SHORT[mcs] > RATES_40_SHORT[0]
  {
    assert mcs == 1 || mcs == 2 || mcs == 3 || mcs == 4 || mcs == 5 || mcs == 6 || mcs == 7 || mcs == 8
      || mcs == 9 || mcs == 10 || mcs == 11 || mcs == 12 || mcs == 13 || mcs == 14 || mcs == 15;
  }

  // HTOnAssocRsp, rates: an empty first byte of the peer's set stands for MCS 0 to 7; a peer
  // in static SM power save gets one stream.
  method NegotiateRates(h: HtInfo, mode: Mode, halfN: bool, staticSmps: bool,
                        registered: array<bv8>, peer: array<bv8>, operate: array<bv8>) returns (highest: nat)
    requires registered.Length == MCS_BYTES && peer.Length == MCS_BYTES && operate.Length == MCS_BYTES
    requires operate != registered && operate != peer && registered != peer
    modifies peer, operate
    ensures var rates := old(peer[..])[0 := if old(peer[0]) == 0 then 0xff else old(peer[0])];
      && peer[..] == rates
      && (forall mcs: nat :: Has(operate[..], mcs) <==>
        HasBoth(registered[..], rates, mcs) && Permitted(mode, halfN, mcs))
    ensures var members := set mcs: nat | mcs < 16 && Has(operate[..], mcs) && (staticSmps ==> mcs < 8);
      && (highest == 0 <==> members == {})
      && (highest != 0 ==> highest >= 0x80 && IsBest(h, members, highest - 0x80))
  {
    hide Has, Bit, Rate, Leads, Members;
    if peer[0] == 0 {
      peer[0] := 0xff;
    }
    FilterMcsRate(mode, halfN, registered, peer, operate);
    var filter := if staticSmps then MCS_FILTER_1SS else MCS_FILTER_ALL;
    FiltersFit();
    FilteredMembers(mode, halfN, operate[..], staticSmps);
    highest := GetHighestMcsRate(h, operate, filter);
    if highest != 0 {
      NegotiatedBest(h, mode, halfN, operate[..], filter, highest - 0x80);
    }
  }

  lemma FiltersFit()
    ensures forall mcs: nat :: Has(MCS_FILTER_ALL, mcs) || Has(MCS_FILTER_1SS, mcs) ==> mcs < MCS_COUNT
  {
    forall mcs: nat | Has(MCS_FILTER_ALL, mcs) || Has(MCS_FILTER_1SS, mcs) ensures mcs < MCS_COUNT {
      FilterBytes(mcs / 8);
      NoBits(0);
      BitsOf(0x1f);
      hide Bit;
    }
  }

  // Of the rates a mode permits the one filter leaves all and the other MCS 0 to 7.
  lemma FilteredMembers(mode: Mode, halfN: bool, rates: seq<bv8>, oneStream: bool)
    requires forall mcs: nat :: Has(rates, mcs) ==> Permitted(mode, halfN, mcs)
    ensures Members(rates, if oneStream then MCS_FILTER_1SS else MCS_FILTER_ALL)
         == set mcs: nat | mcs < 16 && Has(rates, mcs) && (oneStream ==> mcs < 8)
  {
    var filter := if oneStream then MCS_FILTER_1SS else MCS_FILTER_ALL;
    forall mcs: nat | mcs < 16 ensures Has(filter, mcs) <==> (oneStream ==> mcs < 8) {
      assert filter[0] == 0xff && filter[1] == (if oneStream then 0 else 0xff);
      assert mcs / 8 == (if mcs < 8 then 0 else 1);
      MaskBits(mcs % 8);
      hide Bit;
    }
    hide Has;
  }

  lemma FilterBytes(i: nat)
    requires i < MCS_BYTES
    ensures i >= 10 ==> MCS_FILTER_ALL[i] == 0
    ensures i >= 4 ==> MCS_FILTER_1SS[i] == 0
    ensures MCS_FILTER_ALL[9] == 0x1f
  {
  }

  lemma NegotiatedBest(h: HtInfo, mode: Mode, halfN: bool, rates: seq<bv8>, filter: seq<bv8>, m: nat)
    requires forall mcs: nat :: Has(rates, mcs) ==> Permitted(mode, halfN, mcs)
    requires Leads(h, Members(rates, filter), 128, m) && Members(rates, filter) != {}
    ensures IsBest(h, Members(rates, filter), m)
  {
    var members := Members(rates, filter);
    var k :| k in members;
    if k != 0 {
      PermittedAboveZero(h, mode, halfN, k);
    }
    BestExactly(h, members, m);
  }
}
