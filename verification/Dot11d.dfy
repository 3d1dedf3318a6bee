/**
 The channel map of 802.11d: built from a channel plan, or from the country element of an
 access point (section 8.4.2.10 of IEEE 802.11-2012), and consulted before tuning.
 */
module Dot11d {
  import Basics

  const MAX_CHANNEL := 161
  const MAX_IE_LEN := 0xff
  const NO_POWER := 0xff
  const GLOBAL_DOMAIN := 10
  const WORLD_WIDE_13 := 11

  datatype State = None | Learned | Done

  const UPTO_11: seq<nat> := [1, 2, 3, 4, 5, 6, 7, 8, 9, 10, 11]
  const BAND_5: seq<nat> := [36, 40, 44, 48, 52, 56, 60, 64]
  const UPTO_13: seq<nat> := UPTO_11 + [12, 13]
  const UPTO_14: seq<nat> := UPTO_11 + [12, 13, 14]

  // The channels of each plan, by country code.
  const PLANS: seq<seq<nat>> := [
    UPTO_11 + BAND_5 + [149, 153, 157, 161, 165], UPTO_11, UPTO_13 + BAND_5, UPTO_13, UPTO_13,
    UPTO_14 + BAND_5, UPTO_14 + BAND_5, UPTO_13, UPTO_14 + BAND_5, UPTO_14 + BAND_5, UPTO_14, UPTO_13, UPTO_13 + BAND_5]

  // ---- Country elements ----

  datatype Triple = Triple(first: Basics.Byte, count: Basics.Byte, power: Basics.Byte)

  predicate Covers(t: Triple, c: nat) {
    t.first <= c < t.first + t.count
  }

  // The triples after the three-byte country string; a remainder is ignored.
  function Triples(ie: seq<Basics.Byte>): (ts: seq<Triple>)
    ensures |ts| == if |ie| < 3 then 0 else (|ie| - 3) / 3
  {
    seq(if |ie| < 3 then 0 else (|ie| - 3) / 3,
        k requires 0 <= k < (if |ie| < 3 then 0 else (|ie| - 3) / 3) =>
          Triple(ie[3 + 3 * k], ie[4 + 3 * k], ie[5 + 3 * k]))
  }

  // A triple must start above all channels so far and end within the map.
  predicate Acceptable(t: Triple, max: nat) {
    max < t.first && t.first + t.count <= MAX_CHANNEL
  }

  function Reaches(t: Triple, max: nat): nat {
    if t.count == 0 then max else t.first + t.count - 1
  }

  // How many triples are taken before the first that is not acceptable.
  function GoodCount(ts: seq<Triple>, max: nat): (k: nat)
    ensures k <= |ts|
  {
    if ts == [] || !Acceptable(ts[0], max) then 0 else 1 + GoodCount(ts[1..], Reaches(ts[0], max))
  }

  ghost predicate Covered(ts: seq<Triple>, c: nat) {
    exists i :: 0 <= i < |ts| && Covers(ts[i], c)
  }

  // The triples of an element that are taken.
  function Taken(ie: seq<Basics.Byte>): seq<Triple> {
    Triples(ie)[..GoodCount(Triples(ie), 0)]
  }

  // ---- The bytes of an element ----

  function TripleCount(ie: seq<Basics.Byte>): nat {
    if |ie| < 3 then 0 else (|ie| - 3) / 3
  }

  // Triple k: its first channel, how many channels, and the power, in this order.
  function FirstByte(ie: seq<Basics.Byte>, k: nat): Basics.Byte
    requires k < TripleCount(ie)
  {
    ie[3 + 3 * k]
  }

  function NumberByte(ie: seq<Basics.Byte>, k: nat): Basics.Byte
    requires k < TripleCount(ie)
  {
    ie[4 + 3 * k]
  }

  function PowerByte(ie: seq<Basics.Byte>, k: nat): Basics.Byte
    requires k < TripleCount(ie)
  {
    ie[5 + 3 * k]
  }

  // The first m triples are good: none starts at channel 0 or goes beyond channel 160, and each
  // starts above the channels of those before it.
  ghost predicate GoodBytes(ie: seq<Basics.Byte>, m: nat)
    requires m <= TripleCount(ie)
  {
    && (forall k :: 0 <= k < m ==> 0 < FirstByte(ie, k) && FirstByte(ie, k) + NumberByte(ie, k) <= 161)
    && (forall j, k :: 0 <= j < k < m && NumberByte(ie, j) > 0 ==>
          FirstByte(ie, j) + NumberByte(ie, j) <= FirstByte(ie, k))
  }

  ghost predicate GoodTriples(ts: seq<Triple>, max: nat, m: nat)
    requires m <= |ts|
  {
    && (forall k :: 0 <= k < m ==> max < ts[k].first && ts[k].first + ts[k].count <= 161)
    && (forall j, k :: 0 <= j < k < m && ts[j].count > 0 ==> ts[j].first + ts[j].count <= ts[k].first)
  }

  lemma {:induction false} GoodExactly(ts: seq<Triple>, max: nat, m: nat)
    requires m <= |ts|
    ensures m <= GoodCount(ts, max) <==> GoodTriples(ts, max, m)
    decreases |ts|
  {
    if m > 0 {
      var rest, max' := ts[1..], Reaches(ts[0], max);
      assert forall k :: 0 <= k < |rest| ==> rest[k] == ts[k + 1];
      if Acceptable(ts[0], max) {
        GoodExactly(rest, max', m - 1);
        if GoodTriples(rest, max', m - 1) {
          forall k | 0 <= k < m ensures max < ts[k].first {
            assert k > 0 ==> ts[k] == rest[k - 1];
          }
          forall j, k | 0 <= j < k < m && ts[j].count > 0 ensures ts[j].first + ts[j].count <= ts[k].first {
            assert ts[k] == rest[k - 1] && (j > 0 ==> ts[j] == rest[j - 1]);
          }
        }
      }
    }
  }

  // How many triples are taken, in bytes: as many as are good.
  lemma TakenBytes(ie: seq<Basics.Byte>)
    ensures var m := |Taken(ie)|;
      && m <= TripleCount(ie) && GoodBytes(ie, m) && (m < TripleCount(ie) ==> !GoodBytes(ie, m + 1))
      && (forall k :: 0 <= k < m ==> Taken(ie)[k] == Triple(FirstByte(ie, k), NumberByte(ie, k), PowerByte(ie, k)))
  {
    var ts, m := Triples(ie), |Taken(ie)|;
    assert forall k :: 0 <= k < |ts| ==> ts[k] == Triple(FirstByte(ie, k), NumberByte(ie, k), PowerByte(ie, k));
    GoodExactly(ts, 0, m);
    if m < |ts| {
      GoodExactly(ts, 0, m + 1);
    }
  }

  // The triples taken cover channels 1 to 160 at most, each channel once.
  lemma {:induction false} TakenDisjoint(ts: seq<Triple>, max: nat, i: nat, c: nat)
    requires i < GoodCount(ts, max) && Covers(ts[i], c)
    ensures max < c < MAX_CHANNEL
    ensures forall j :: 0 <= j < GoodCount(ts, max) && Covers(ts[j], c) ==> j == i
    decreases |ts|
  {
    var rest, max' := ts[1..], Reaches(ts[0], max);
    if i == 0 {
      forall j | 0 <= j < GoodCount(ts, max) && Covers(ts[j], c) ensures j == 0 {
        if j > 0 {
          assert rest[j - 1] == ts[j];
          TakenDisjoint(rest, max', j - 1, c);
        }
      }
    } else {
      assert rest[i - 1] == ts[i];
      TakenDisjoint(rest, max', i - 1, c);
      forall j | 0 <= j < GoodCount(ts, max) && Covers(ts[j], c) ensures j == i {
        if j > 0 {
          assert rest[j - 1] == ts[j];
        }
      }
    }
  }

  // ---- Channel plans ----

  // The channels of a plan up to the first outside 1 to 14.
  function Usable(plan: seq<nat>): (r: seq<nat>)
    ensures forall c :: c in r ==> 1 <= c <= 14
  {
    if plan == [] || plan[0] < 1 || plan[0] > 14 then [] else [plan[0]] + Usable(plan[1..])
  }

  // The last of the channels 1, 2, ... of each plan.
  ghost function TopChannel(code: nat): nat
    requires code < 13
  {
    [11, 11, 13, 13, 13, 14, 14, 13, 14, 14, 14, 13, 13][code]
  }

  lemma {:induction false} UsableFront(plan: seq<nat>, n: nat)
    requires n <= |plan| && (forall k :: 0 <= k < n ==> 1 <= plan[k] <= 14) && (n < |plan| ==> plan[n] > 14)
    ensures Usable(plan) == plan[..n]
    decreases |plan|
  {
    if n > 0 {
      UsableFront(plan[1..], n - 1);
      assert plan[..n] == [plan[0]] + plan[1..][..n - 1];
    }
  }

  lemma PlanChannels(code: nat)
    requires code < |PLANS|
    ensures |PLANS| == 13 && forall c: nat :: c in Usable(PLANS[code]) <==> 1 <= c <= TopChannel(code)
  {
    var plan, n := PLANS[code], TopChannel(code);
    PlanStarts(code);
    UsableFront(plan, n);
    forall c: nat ensures c in plan[..n] <==> 1 <= c <= n {
      assert 1 <= c <= n ==> plan[..n][c - 1] == c;
    }
  }

  lemma PlanStarts(code: nat)
    requires code < |PLANS|
    ensures var plan, n := PLANS[code], TopChannel(code);
      && n <= |plan| && (forall k :: 0 <= k < n ==> plan[k] == k + 1) && (n < |plan| ==> plan[n] == 36)
  {
    assert |UPTO_11| == 11 && |UPTO_13| == 13 && |UPTO_14| == 14 && BAND_5[0] == 36;
    assert UPTO_13[11] == 12 && UPTO_13[12] == 13 && UPTO_14[11] == 12 && UPTO_14[12] == 13 && UPTO_14[13] == 14;
  }

  class Info {
    const channelMap: array<nat>
    const power: array<nat>
    var state: State
    var countryIe: seq<Basics.Byte>
    var source: seq<Basics.Byte>
    var globalDomain: bool
    var ibssStart: nat
    var ibssMaxJoin: nat

    ghost predicate Shape()
    {
      channelMap.Length == MAX_CHANNEL + 1 && power.Length == MAX_CHANNEL + 1 && channelMap != power
    }

    // Channel 0 is never in the map.
    ghost predicate Valid()
      reads channelMap
    {
      Shape() && channelMap[0] == 0
    }

    ghost predicate Legal(c: nat)
      requires Shape()
      reads channelMap
    {
      c <= MAX_CHANNEL && channelMap[c] > 0
    }

    // The map a channel plan leaves: its channels up to 14, those above 11 of the global domain (10)
    // and of the world-wide plan (11) for listening only.
    ghost predicate Planned(code: nat)
      requires Shape()
      reads channelMap
    {
      code < 13 && forall c :: 0 <= c <= MAX_CHANNEL ==>
        channelMap[c] == if c < 1 || c > TopChannel(code) then 0
                         else if c > 11 && (code == 10 || code == 11) then 2 else 1
    }

    // What the first m triples of an element put into the map.
    ghost predicate Marked(ie: seq<Basics.Byte>, m: nat)
      requires Shape() && m <= TripleCount(ie)
      reads channelMap, power
    {
      forall c :: 0 <= c <= MAX_CHANNEL ==>
        && (channelMap[c] == 0 || channelMap[c] == 1)
        && (channelMap[c] == 1 <==>
              exists k :: 0 <= k < m && FirstByte(ie, k) <= c < FirstByte(ie, k) + NumberByte(ie, k))
        && (channelMap[c] == 0 ==> power[c] == 255)
        && (forall k :: 0 <= k < m && FirstByte(ie, k) <= c < FirstByte(ie, k) + NumberByte(ie, k) ==>
              power[c] == PowerByte(ie, k))
    }

    lemma HoldsBytes(ie: seq<Basics.Byte>)
      requires Shape() && Holds(Taken(ie))
      ensures |Taken(ie)| <= TripleCount(ie) && Marked(ie, |Taken(ie)|)
    {
      TakenBytes(ie);
      var m := |Taken(ie)|;
      forall c | 0 <= c <= MAX_CHANNEL
        ensures Covered(Taken(ie), c) <==>
          exists k :: 0 <= k < m && FirstByte(ie, k) <= c < FirstByte(ie, k) + NumberByte(ie, k)
      {
        assert forall k :: 0 <= k < m ==>
          (Covers(Taken(ie)[k], c) <==> FirstByte(ie, k) <= c < FirstByte(ie, k) + NumberByte(ie, k));
      }
    }

    // Dot11d_Init.
    constructor ()
      ensures Valid() && fresh(channelMap) && fresh(power)
      ensures state == None && countryIe == [] && forall c :: 0 <= c <= MAX_CHANNEL ==>
        channelMap[c] == 0 && power[c] == NO_POWER
    {
      channelMap := new nat[MAX_CHANNEL + 1](_ => 0);
      power := new nat[MAX_CHANNEL + 1](_ => NO_POWER);
      state, countryIe, source, globalDomain, ibssStart, ibssMaxJoin := None, [], [], false, 1, 14;
    }

    method Clear()
      requires Shape()
      modifies channelMap, power
      ensures forall c :: 0 <= c <= MAX_CHANNEL ==> channelMap[c] == 0 && power[c] == 0xff
    {
      forall c | 0 <= c <= MAX_CHANNEL { channelMap[c] := 0; }
      forall c | 0 <= c <= MAX_CHANNEL { power[c] := NO_POWER; }
    }

    method Mark(first: nat, last: nat, value: nat)
      requires Shape() && first <= last <= MAX_CHANNEL
      modifies channelMap
      ensures forall c :: 0 <= c <= MAX_CHANNEL ==>
        channelMap[c] == if first <= c <= last then value else old(channelMap[c])
    {
      var i := first;
      while i <= last
        invariant first <= i <= last + 1
        invariant forall c :: 0 <= c <= MAX_CHANNEL ==>
          channelMap[c] == if first <= c < i then value else old(channelMap[c])
      {
        channelMap[i] := value;
        i := i + 1;
      }
    }

    method ApplyPlan(code: nat)
      requires Shape() && code < |PLANS|
      modifies this, channelMap
      ensures Valid() && Planned(code)
      ensures state == old(state) && countryIe == old(countryIe)
      ensures globalDomain == (code == 10)
      ensures if code == 10 || code == 11 then ibssStart == 10 && ibssMaxJoin == 11
              else ibssStart == 1 && ibssMaxJoin == 14
    {
      globalDomain := false;
      var plan := PLANS[code];
      PlanChannels(code);
      hide Usable;
      TakePlan(plan);
      if code == GLOBAL_DOMAIN {
        globalDomain := true;
        Mark(12, 14, 2);
        ibssStart, ibssMaxJoin := 10, 11;
      } else if code == WORLD_WIDE_13 {
        Mark(12, 13, 2);
        ibssStart, ibssMaxJoin := 10, 11;
      } else {
        ibssStart, ibssMaxJoin := 1, 14;
      }
    }

    method TakePlan(plan: seq<nat>)
      requires Shape()
      modifies channelMap
      ensures plan != [] ==> forall c :: 0 <= c <= MAX_CHANNEL ==> channelMap[c] == if c in Usable(plan) then 1 else 0
      ensures plan == [] ==> channelMap[..] == old(channelMap[..])
    {
      if plan != [] {
        forall c | 0 <= c <= MAX_CHANNEL { channelMap[c] := 0; }
        var i := 0;
        ghost var seen: seq<nat> := [];
        while i < |plan|
          invariant 0 <= i <= |plan| && Usable(plan) == seen + Usable(plan[i..])
          invariant forall c :: 0 <= c <= MAX_CHANNEL ==> channelMap[c] == if c in seen then 1 else 0
        {
          if plan[i] < 1 || plan[i] > 14 {
            break;
          }
          channelMap[plan[i]] := 1;
          seen := seen + [plan[i]];
          assert plan[i..][1..] == plan[i + 1..];
          i := i + 1;
        }
        assert Usable(plan) == seen;
      }
    }

    // Dot11d_Reset.
    method Reset()
      requires Shape()
      modifies this, channelMap, power
      ensures Valid() && state == None && countryIe == []
      ensures forall c :: 0 <= c <= MAX_CHANNEL ==>
        power[c] == 0xff && channelMap[c] == if 1 <= c <= 11 then 1 else if 12 <= c <= 14 then 2 else 0
    {
      Clear();
      Mark(1, 11, 1);
      Mark(12, 14, 2);
      state := None;
      countryIe := [];
    }

    // One triple: its channels are marked, with its power.
    method TakeTriple(t: Triple, max: nat) returns (max': nat)
      requires Shape() && Acceptable(t, max)
      modifies channelMap, power
      ensures max' == Reaches(t, max)
      ensures forall c :: 0 <= c <= MAX_CHANNEL ==> channelMap[c] == if Covers(t, c) then 1 else old(channelMap[c])
      ensures forall c :: 0 <= c <= MAX_CHANNEL ==> power[c] == if Covers(t, c) then t.power else old(power[c])
    {
      max' := max;
      var j := 0;
      while j < t.count
        invariant 0 <= j <= t.count && max' == if j == 0 then max else t.first + j - 1
        invariant forall c :: 0 <= c <= MAX_CHANNEL ==>
          channelMap[c] == if t.first <= c < t.first + j then 1 else old(channelMap[c])
        invariant forall c :: 0 <= c <= MAX_CHANNEL ==>
          power[c] == if t.first <= c < t.first + j then t.power else old(power[c])
      {
        channelMap[t.first + j] := 1;
        power[t.first + j] := t.power;
        max' := t.first + j;
        j := j + 1;
      }
    }

    // What the map holds after the triples ts: their channels, each with the power of its triple.
    ghost predicate Holds(ts: seq<Triple>)
      requires Shape()
      reads channelMap, power
    {
      forall c :: 0 <= c <= MAX_CHANNEL ==>
        && channelMap[c] == (if Covered(ts, c) then 1 else 0)
        && (!Covered(ts, c) ==> power[c] == 0xff)
        && (forall i :: 0 <= i < |ts| && Covers(ts[i], c) ==> power[c] == ts[i].power)
    }

    // How far the parse of ts has come: the first i triples are in the map.
    ghost predicate Parsed(ts: seq<Triple>, i: nat, max: nat)
      requires Shape()
      reads channelMap, power
    {
      && i <= |ts| && GoodCount(ts, 0) == i + GoodCount(ts[i..], max)
      && Holds(ts[..i]) && Below(ts[..i], max)
    }

    lemma ParsedNone(ts: seq<Triple>)
      requires Shape() && forall c :: 0 <= c <= MAX_CHANNEL ==> channelMap[c] == 0 && power[c] == NO_POWER
      ensures Parsed(ts, 0, 0)
    {
      assert ts[..0] == [] && ts[0..] == ts;
    }

    lemma ParsedEnds(ts: seq<Triple>, i: nat, max: nat)
      requires Shape() && Parsed(ts, i, max) && (i == |ts| || !Acceptable(ts[i], max))
      ensures GoodCount(ts, 0) == i && Holds(ts[..i]) && channelMap[0] == 0
    {
      NoneAtZero(ts);
      hide Covered, Acceptable;
    }

    // One triple of the element; false if it ends the parse.
    method ParseTriple(t: Triple, max: nat, ghost ts: seq<Triple>, ghost i: nat) returns (ok: bool, max': nat)
      requires Shape() && i < |ts| && t == ts[i] && Parsed(ts, i, max)
      modifies channelMap, power
      ensures ok <==> Acceptable(t, max)
      ensures ok ==> Parsed(ts, i + 1, max')
      ensures !ok ==> max' == max && Parsed(ts, i, max)
    {
      max' := max;
      if max >= t.first {
        return false, max';
      }
      if MAX_CHANNEL < t.first + t.count {
        return false, max';
      }
      GoodStep(ts, i, max);
      assert ts[..i] + [t] == ts[..i + 1];
      hide Holds, Below, GoodCount, Reaches;
      max' := TakeNext(t, max, ts[..i]);
      return true, max';
    }

    // The triples of an element up to the first bad one; whether there was none.
    method ParseTriples(ie: seq<Basics.Byte>) returns (all: bool)
      requires Shape()
      modifies channelMap, power
      ensures Holds(Taken(ie)) && channelMap[0] == 0
      ensures all <==> Taken(ie) == Triples(ie)
    {
      ghost var ts := Triples(ie);
      Clear();
      var max, i := 0, 0;
      var numTriples := if |ie| < 3 then 0 else (|ie| - 3) / 3;
      ParsedNone(ts);
      while i < numTriples
        invariant 0 <= i <= numTriples == |ts| && Parsed(ts, i, max)
      {
        var t := Triple(ie[3 + 3 * i], ie[4 + 3 * i], ie[5 + 3 * i]);
        assert t == ts[i];
        hide *;
        var ok;
        ok, max := ParseTriple(t, max, ts, i);
        if !ok {
          ParsedEnds(ts, i, max);
          TakenIs(ie, i);
          return false;
        }
        i := i + 1;
      }
      ParsedEnds(ts, i, max);
      TakenIs(ie, i);
      return true;
    }

    // Dot11d_UpdateCountryIe. A bad triple ends the parse: the triples before it stay in the
    // map, the state and the stored element are as they were.
    method UpdateCountryIe(addr: seq<Basics.Byte>, ie: seq<Basics.Byte>)
      requires Valid() && 1 <= |ie| <= MAX_IE_LEN
      modifies this, channelMap, power
      ensures Valid() && Holds(Taken(ie))
      ensures var n, m := TripleCount(ie), |Taken(ie)|;
        && m <= n && GoodBytes(ie, m) && (m < n ==> !GoodBytes(ie, m + 1))
        && Marked(ie, m)
        && (if m == n then state == Learned && countryIe == ie && source == addr
            else state == old(state) && countryIe == old(countryIe) && source == old(source))
    {
      TakenBytes(ie);
      hide Taken, Holds, GoodBytes, Marked;
      var all := ParseTriples(ie);
      HoldsBytes(ie);
      TakenAll(ie);
      if all {
        source := addr;
        countryIe := ie;
        state := Learned;
      }
    }

    method TakeNext(t: Triple, max: nat, ghost taken: seq<Triple>) returns (max': nat)
      requires Shape() && Acceptable(t, max) && Holds(taken) && Below(taken, max)
      modifies channelMap, power
      ensures max' == Reaches(t, max) && Holds(taken + [t]) && Below(taken + [t], max')
    {
      max' := TakeTriple(t, max);
      ghost var all := taken + [t];
      forall c: nat ensures Covered(all, c) <==> Covered(taken, c) || Covers(t, c) {
        CoveredSnoc(taken, t, c);
      }
    }

    // DOT11D_ScanComplete; `heard` says whether the country watchdog has been kept alive.
    method ScanComplete(heard: bool)
      requires Valid()
      modifies this, channelMap, power
      ensures Valid()
      ensures old(state) == Learned ==> state == Done
      ensures old(state) == Done && !heard ==> state == None && countryIe == []
      ensures old(state) == Done && heard ==> state == Done
      ensures old(state) == None ==> state == None
      ensures old(state) != Done || heard ==>
        channelMap[..] == old(channelMap[..]) && power[..] == old(power[..]) && countryIe == old(countryIe)
    {
      match state {
        case Learned => state := Done;
        case Done => if !heard { Reset(); }
        case None =>
      }
    }

    // A map learned from an element answers for the channels its triples cover, one set up from a
    // plan for the channels of the plan.
    method IsLegalChannel(channel: Basics.Byte) returns (legal: bool)
      requires Shape()
      ensures forall ie :: Holds(Taken(ie)) ==> (legal <==> Covered(Taken(ie), channel))
      ensures forall code: nat :: Planned(code) ==> (legal <==> 1 <= channel <= TopChannel(code))
      ensures legal <==> Legal(channel)
    {
      LegalIsCovered(channel);
      LegalIsPlanned(channel);
      hide *;
      if MAX_CHANNEL < channel {
        return false;
      }
      return channelMap[channel] > 0;
    }

    lemma LegalIsCovered(c: nat)
      requires Shape()
      ensures forall ie :: Holds(Taken(ie)) ==> (c <= MAX_CHANNEL && channelMap[c] > 0 <==> Covered(Taken(ie), c))
      ensures forall ie :: Holds(Taken(ie)) && !Covered(Taken(ie), c) && c <= MAX_CHANNEL ==> channelMap[c] == 0
    {
      forall ie | Holds(Taken(ie)) ensures c <= MAX_CHANNEL && channelMap[c] > 0 <==> Covered(Taken(ie), c) {
        CoveredInMap(ie, c);
      }
    }

    lemma LegalIsPlanned(c: nat)
      requires Shape()
      ensures forall code: nat :: Planned(code) ==>
        (c <= MAX_CHANNEL && channelMap[c] > 0 <==> 1 <= c <= TopChannel(code))
    {
    }

    // After an element: the power of the triple that covers the channel, 255 if none does.
    method MaxTxPower(channel: Basics.Byte) returns (dbm: nat)
      requires Shape()
      ensures forall ie, i :: Holds(Taken(ie)) && 0 <= i < |Taken(ie)| && Covers(Taken(ie)[i], channel) ==>
        dbm == Taken(ie)[i].power
      ensures forall ie :: Holds(Taken(ie)) && !Covered(Taken(ie), channel) ==> dbm == 0xff
    {
      dbm := NO_POWER;
      LegalIsCovered(channel);
      if MAX_CHANNEL < channel {
        return;
      }
      if channelMap[channel] != 0 {
        dbm := power[channel];
      }
    }

    // The channel itself if it is legal, otherwise the lowest legal one; 0 exactly when there is
    // none at all.
    method ToLegalChannel(channel: Basics.Byte) returns (c: Basics.Byte)
      requires Valid()
      ensures Legal(channel) ==> c == channel
      ensures !Legal(channel) && c != 0 ==> Legal(c) && forall d :: 0 <= d < c ==> !Legal(d)
      ensures c == 0 <==> forall d :: 0 <= d <= MAX_CHANNEL ==> !Legal(d)
    {
      var lowest: Basics.Byte := 0;
      var i := 1;
      while i <= MAX_CHANNEL
        invariant 1 <= i <= MAX_CHANNEL + 1 && lowest == 0
        invariant forall d :: 0 <= d < i ==> !Legal(d)
      {
        if channelMap[i] > 0 {
          lowest := i;
          break;
        }
        i := i + 1;
      }
      assert lowest == 0 ==> forall d :: 0 <= d <= MAX_CHANNEL ==> !Legal(d);
      assert lowest != 0 ==> Legal(lowest);
      if MAX_CHANNEL < channel {
        return lowest;
      }
      assert channelMap[channel] > 0 ==> Legal(channel);
      if channelMap[channel] > 0 {
        return channel;
      }
      return lowest;
    }
  }

  ghost predicate Below(ts: seq<Triple>, max: nat) {
    forall i, c: nat :: 0 <= i < |ts| && Covers(ts[i], c) ==> c <= max
  }

  lemma CoveredSnoc(ts: seq<Triple>, t: Triple, c: nat)
    ensures Covered(ts + [t], c) <==> Covered(ts, c) || Covers(t, c)
  {
    var all := ts + [t];
    if Covered(ts, c) {
      var i :| 0 <= i < |ts| && Covers(ts[i], c);
      assert all[i] == ts[i];
    }
    assert all[|ts|] == t;
  }

  lemma TakenIs(ie: seq<Basics.Byte>, k: nat)
    requires k == GoodCount(Triples(ie), 0)
    ensures Taken(ie) == Triples(ie)[..k] && (Taken(ie) == Triples(ie) <==> k == |Triples(ie)|)
  {
    assert |Taken(ie)| == k;
  }

  lemma TakenAll(ie: seq<Basics.Byte>)
    ensures Taken(ie) == Triples(ie) <==> |Taken(ie)| == TripleCount(ie)
  {
  }

  lemma CoveredInMap(ie: seq<Basics.Byte>, c: nat)
    ensures Covered(Taken(ie), c) ==> 1 <= c < MAX_CHANNEL
  {
    var ts, k := Triples(ie), GoodCount(Triples(ie), 0);
    if Covered(Taken(ie), c) {
      var i :| 0 <= i < k && Covers(Taken(ie)[i], c);
      TakenDisjoint(ts, 0, i, c);
    }
  }

  lemma GoodStep(ts: seq<Triple>, i: nat, max: nat)
    requires i < |ts|
    ensures if Acceptable(ts[i], max) then GoodCount(ts[i..], max) == 1 + GoodCount(ts[i + 1..], Reaches(ts[i], max))
            else GoodCount(ts[i..], max) == 0
  {
    assert ts[i..][1..] == ts[i + 1..];
  }

  lemma NoneAtZero(ts: seq<Triple>)
    ensures !Covered(ts[..GoodCount(ts, 0)], 0)
  {
    var k := GoodCount(ts, 0);
    forall i | 0 <= i < k ensures !Covers(ts[i], 0) {
      if Covers(ts[i], 0) {
        TakenDisjoint(ts, 0, i, 0);
      }
    }
  }

  // The channels country elements can bring into the map are exactly 1 to 160: each of these
  // comes from some element, and no element brings channel 161, the last one of the map.
  lemma CountryMap(c: nat)
    ensures (exists ie :: |ie| <= 255 && Covered(Taken(ie), c)) <==> 1 <= c <= 160
  {
    forall ie | Covered(Taken(ie), c) ensures 1 <= c < MAX_CHANNEL {
      CoveredInMap(ie, c);
    }
    if 1 <= c < MAX_CHANNEL {
      var ie := [0, 0, 0, c, 1, 0];
      var ts := Triples(ie);
      assert ts == [Triple(c, 1, 0)] && Acceptable(ts[0], 0);
      assert Covers(Taken(ie)[0], c);
    }
  }

  // A triple that starts above the others and ends inside the map is refused exactly when it
  // reaches the last channel of the map; so is the element that names just that channel.
  lemma LastChannelRefused(t: Triple, max: nat)
    requires max < t.first && t.count > 0 && t.first + t.count - 1 <= 161
    ensures !Acceptable(t, max) <==> Covers(t, 161)
    ensures Taken([0, 0, 0, 161, 1, 0]) == []
  {
    var ie: seq<Basics.Byte> := [0, 0, 0, MAX_CHANNEL, 1, 0];
    assert Triples(ie) == [Triple(MAX_CHANNEL, 1, 0)];
    assert GoodCount(Triples(ie), 0) == 0;
  }
}
