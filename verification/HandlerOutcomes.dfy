/**
 What each handler makes of the device, case by case: the record it changes, the frames it sends and
 nothing else. The cases are told by what the driver has stored and what a frame says, in the numbers
 of IEEE 802.11-2012, section 8.4.1.
 */
module HandlerOutcomes {
  import opened Basics
  import opened SequenceNumbers
  import opened RxReorder
  import opened BlockAck
  import opened TrafficStreams
  import opened StreamInvariants
  import opened Lookups

  // s' is s but for transmit record i, and for the frames sent.
  ghost predicate TxBecomes(s: DevState, s': DevState, i: nat, ts: TxTs, out: seq<Frame>) {
    i < |s.tx| && s' == s.(tx := s.tx[i := ts], sent := s.sent + out)
  }

  ghost predicate RxBecomes(s: DevState, s': DevState, j: nat, ts: RxTs, out: seq<Frame>) {
    j < |s.rx| && s' == s.(rx := s.rx[j := ts], sent := s.sent + out)
  }

  ghost predicate OnlySends(s: DevState, s': DevState, out: seq<Frame>) {
    s' == s.(sent := s.sent + out)
  }

  function Ended(ba: BaRecord): BaRecord {
    ba.(valid := false, timer := false)
  }

  lemma NothingSent(log: seq<Frame>)
    ensures log + [] == log
  {
  }

  // ---- Responses ----

  // The response answers the request the stream waits for.
  predicate Awaited(ts: TxTs, token: Byte) {
    ts.pending.valid && ts.pending.token == token
  }

  lemma FoundIs(s: DevState, c: Caps, side: Side, i: nat, addr: Mac, tid: Byte)
    requires DevInv(s) && Sound(s) && Serving(s, c, side, i, addr, tid) && !Rejected(c, addr, tid)
    ensures GetTs(s, c, addr, tid, side, false) == (s, Some(i)) && GetTs(s, c, addr, tid, side, true) == (s, Some(i))
  {
    hide DevInv, GetTs, Commons, UserPriority;
    var k := Commons(s, side)[i];
    HeadingIsAdded(c.mode, side);
    PriorityMeans(c.qosSupported, tid, k.tsid);
    HeldIsFound(s, c, side, i, addr, tid, false);
    HeldIsFound(s, c, side, i, addr, tid, true);
  }

  lemma NoneIs(s: DevState, c: Caps, side: Side, addr: Mac, tid: Byte)
    requires DevInv(s) && Sound(s)
    requires Rejected(c, addr, tid) || forall i :: !Serving(s, c, side, i, addr, tid)
    ensures GetTs(s, c, addr, tid, side, false) == (s, None)
  {
    hide DevInv, GetTs, Serving;
    LookupExactly(s, c, addr, tid, side, false);
  }

  // A response for which aggregation is off or no stream is in use: only the DELBA "unknown".
  lemma ResponseUnclaimed(s: DevState, c: Caps, src: Mac, token: Byte, status: Word, param: BaParam, timeout: Word)
    requires DevInv(s) && Sound(s)
    requires !(c.qosActive && c.ht && c.ampdu) || Rejected(c, src, param.tid)
      || forall i :: !Serving(s, c, Tx, i, src, param.tid)
    ensures OnlySends(s, OnAddBaRsp(s, c, src, token, status, param, timeout), [Frame(src, DelBa(1, param.tid, 38))])
  {
    hide DevInv, GetTs, TxOnRsp, Serving;
    if c.qosActive && c.ht && c.ampdu {
      NoneIs(s, c, Tx, src, param.tid);
    }
    assert Frames(src, [DelBa(1, param.tid, 38)]) == [Frame(src, DelBa(1, param.tid, 38))];
  }

  // The five ways a response for stream i ends. The attempt is over in each.
  lemma ResponseRecord(ts: TxTs, token: Byte, status: Word, param: BaParam, timeout: Word)
    requires TxLive(ts)
    ensures var r, over := TxOnRsp(ts, token, status, param, timeout), ts.(inProgress := false);
      && (ts.admitted.valid ==> r == (over, None))
      && (!ts.admitted.valid && !Awaited(ts, token) ==> r == (over, Some(38)))
      && (!ts.admitted.valid && Awaited(ts, token) && status != 0 ==>
            r == (over.(pending := Ended(ts.pending), delayed := true, disabled := true), Some(37)))
      && (!ts.admitted.valid && Awaited(ts, token) && status == 0 && param.policy == 0 ==>
            r == (over.(pending := Ended(ts.pending), delayed := true), Some(37)))
      && (!ts.admitted.valid && Awaited(ts, token) && status == 0 && param.policy == 1 ==>
            r == (over.(pending := Ended(ts.pending),
                        admitted := BaRecord(timeout != 0, true, token, param, timeout, ts.pending.start)), None))
  {
  }

  lemma ResponseOutcomes(s: DevState, c: Caps, src: Mac, token: Byte, status: Word, param: BaParam, timeout: Word,
                         i: nat)
    requires DevInv(s) && Sound(s) && i < |s.tx|
    requires c.qosActive && c.ht && c.ampdu && !Rejected(c, src, param.tid) && Serving(s, c, Tx, i, src, param.tid)
    ensures var s', ts := OnAddBaRsp(s, c, src, token, status, param, timeout), s.tx[i];
      var over := ts.(inProgress := false);
      var unknown, ending := [Frame(src, DelBa(1, param.tid, 38))], [Frame(src, DelBa(1, param.tid, 37))];
      if ts.admitted.valid then TxBecomes(s, s', i, over, [])
      else if !Awaited(ts, token) then TxBecomes(s, s', i, over, unknown)
      else if status != 0 then
        TxBecomes(s, s', i, over.(pending := Ended(ts.pending), delayed := true, disabled := true), ending)
      else if param.policy == 0 then
        TxBecomes(s, s', i, over.(pending := Ended(ts.pending), delayed := true), ending)
      else
        TxBecomes(s, s', i,
                  over.(pending := Ended(ts.pending),
                        admitted := BaRecord(timeout != 0, true, token, param, timeout, ts.pending.start)), [])
  {
    FoundIs(s, c, Tx, i, src, param.tid);
    assert TxLive(s.tx[i]);
    ResponseRecord(s.tx[i], token, status, param, timeout);
    hide DevInv, GetTs, TxOnRsp, Serving, Awaited, Ended, TxLive, Rejected;
    NothingSent(s.sent);
    assert forall a: Action :: Frames(src, [a]) == [Frame(src, a)];
  }

  // ---- Requests ----

  // A request that finds Block Ack off or no record for its stream is refused with status 37.
  lemma RequestRefused(s: DevState, c: Caps, src: Mac, token: Byte, param: BaParam, timeout: Word, start: SeqCtrl)
    requires DevInv(s) && Sound(s)
    requires !c.qosActive || !c.ht || c.rejectAddBa || Rejected(c, src, param.tid)
      || (s.rxl.unused == [] && forall i :: !Serving(s, c, Rx, i, src, param.tid))
    ensures OnlySends(s, OnAddBaReq(s, c, src, token, param, timeout, start),
      [Frame(src, AddBaRsp(token, 37, param.(policy := 1), timeout))])
  {
    hide DevInv, GetTs, RxOnReq, Serving;
    LookupExactly(s, c, src, param.tid, Rx, true);
    var rsp := AddBaRsp(token, 37, param.(policy := 1), timeout);
    assert Frames(src, [rsp]) == [Frame(src, rsp)];
  }

  lemma GetTsServes(s: DevState, c: Caps, addr: Mac, tid: Byte, side: Side)
    requires DevInv(s) && Sound(s) && !Rejected(c, addr, tid)
    requires ListsOf(s, side).unused != [] || exists i :: Serving(s, c, side, i, addr, tid)
    ensures var (s1, r) := GetTs(s, c, addr, tid, side, true);
      r.Some? && Serving(s1, c, side, r.value, addr, tid)
  {
    LookupExactly(s, c, addr, tid, side, true);
    hide DevInv, GetTs, Serving, OthersSame, Fresh;
  }

  // Any other has its stream, added if need be: for delayed Block Ack it is refused with status 38,
  // for immediate Block Ack the record becomes what the response says.
  lemma RequestOutcomes(s: DevState, c: Caps, src: Mac, token: Byte, param: BaParam, timeout: Word, start: SeqCtrl)
    requires DevInv(s) && Sound(s)
    requires c.qosActive && c.ht && !c.rejectAddBa && !Rejected(c, src, param.tid)
    requires s.rxl.unused != [] || exists i :: Serving(s, c, Rx, i, src, param.tid)
    ensures var s' := OnAddBaReq(s, c, src, token, param, timeout, start);
      var (s1, r), taken := GetTs(s, c, src, param.tid, Rx, true),
        param.(bufferSize := if c.oneFrame then 1 else 32);
      && r.Some? && r.value < |s1.rx| && Serving(s1, c, Rx, r.value, src, param.tid)
      && (param.policy == 0 ==> OnlySends(s1, s', [Frame(src, AddBaRsp(token, 38, param.(policy := 1), timeout))]))
      && (param.policy == 1 ==>
            RxBecomes(s1, s', r.value, s1.rx[r.value].(ba := BaRecord(false, true, token, taken, timeout, start)),
                      [Frame(src, AddBaRsp(token, 0, taken, timeout))]))
  {
    var r := GetTs(s, c, src, param.tid, Rx, true).1;
    GetTsServes(s, c, src, param.tid, Rx);
    hide DevInv, GetTs, Serving, Rejected;
    var taken := param.(bufferSize := if c.oneFrame then 1 else 32);
    assert Frames(src, [AddBaRsp(token, 38, param.(policy := 1), timeout)])
        == [Frame(src, AddBaRsp(token, 38, param.(policy := 1), timeout))];
    assert Frames(src, [AddBaRsp(token, 0, taken, timeout)]) == [Frame(src, AddBaRsp(token, 0, taken, timeout))];
  }

  // ---- DELBA ----

  // From the initiator it ends the agreement of the receive stream, from the responder all that the
  // transmit stream has asked for and got, with the attempt under way.
  lemma DelBaOutcomes(s: DevState, c: Caps, src: Mac, initiator: Bit, tid: Nibble, i: nat)
    requires DevInv(s) && Sound(s) && i < TOTAL_TS_NUM && !Rejected(c, src, tid) && c.qosActive && c.ht
    ensures initiator == 1 && Serving(s, c, Rx, i, src, tid) ==>
      RxBecomes(s, OnDelBa(s, c, src, initiator, tid), i, s.rx[i].(ba := Ended(s.rx[i].ba)), [])
    ensures var ts := s.tx[i];
      initiator == 0 && Serving(s, c, Tx, i, src, tid) ==>
        TxBecomes(s, OnDelBa(s, c, src, initiator, tid), i,
                  ts.(pending := Ended(ts.pending), admitted := Ended(ts.admitted), usingBa := false,
                      inProgress := false, delayed := false, addBaTimer := false), [])
  {
    var side := if initiator == 1 then Rx else Tx;
    if Serving(s, c, side, i, src, tid) {
      FoundIs(s, c, side, i, src, tid);
      assert side == Tx ==> TxLive(s.tx[i]);
      assert side == Rx ==> RxLive(s.rx[i]);
      hide DevInv, GetTs, Serving;
      NothingSent(s.sent);
    }
  }

  lemma DelBaUnclaimed(s: DevState, c: Caps, src: Mac, initiator: Bit, tid: Nibble)
    requires DevInv(s) && Sound(s)
    requires var side := if initiator == 1 then Rx else Tx;
      !c.qosActive || !c.ht || Rejected(c, src, tid) || forall i :: !Serving(s, c, side, i, src, tid)
    ensures OnDelBa(s, c, src, initiator, tid) == s
  {
    hide DevInv, GetTs, Serving;
    if c.qosActive && c.ht {
      NoneIs(s, c, if initiator == 1 then Rx else Tx, src, tid);
    }
  }

  // ---- The transmit path ----

  lemma UseRecord(ts: TxTs, mayStart: bool)
    ensures TxUse(ts, mayStart) ==
      if ts.admitted.valid then ts.(usingBa := ts.usingBa || Reached(ts.curSeq, ts.admitted.start.seqNum))
      else if mayStart && !ts.disabled && !ts.inProgress then ts.(inProgress := true, addBaTimer := true)
      else ts
  {
    hide SnLess, Reached;
    ReachedIsLess(ts.curSeq, ts.admitted.start.seqNum);
  }

  // Without an agreement an attempt is started, unless one is under way, the frame does not allow it
  // or the peer has refused before; with one, frames are sent under it from its first number on.
  lemma DataOutcomes(s: DevState, c: Caps, dst: Mac, tid: Byte, mayStart: bool)
    requires DevInv(s) && Sound(s)
    ensures var s', (s1, r) := OnTxData(s, c, dst, tid, mayStart), GetTs(s, c, dst, tid, Tx, true);
      && (r.None? ==> s' == s)
      && (r.Some? ==>
        r.value < |s1.tx| &&
        var ts := s1.tx[r.value];
        if ts.admitted.valid then
          TxBecomes(s1, s', r.value, ts.(usingBa := ts.usingBa || Reached(ts.curSeq, ts.admitted.start.seqNum)), [])
        else if mayStart && !ts.disabled && !ts.inProgress then
          TxBecomes(s1, s', r.value, ts.(inProgress := true, addBaTimer := true), [])
        else s' == s1)
  {
    GetTsMeaning(s, c, dst, tid, Tx, true);
    var (s1, r) := GetTs(s, c, dst, tid, Tx, true);
    hide DevInv, GetTs, Carries, TxUse, Reached, UserPriority, IsMulticast, InRange;
    NothingSent(s1.sent);
    if r.Some? {
      var ts := s1.tx[r.value];
      UseRecord(ts, mayStart);
      assert s1.tx[r.value := ts] == s1.tx;
    }
  }

  // Counting modulo 4096, cur is at first or at most 2047 numbers past it.
  predicate Reached(cur: SeqNum, first: SeqNum) {
    var d: int := cur - first;
    0 <= d < 2048 || -4096 < d < -2048
  }

  lemma ReachedIsLess(cur: SeqNum, first: SeqNum)
    ensures SnLess(first, (cur + 1) % SEQ_MOD) <==> Reached(cur, first)
  {
  }

  // Whatever unbounded numbers they stand for, half the number space apart at most.
  lemma ReachedExactly(n: int, b: int)
    requires -2048 <= n - b < 2048
    ensures Reached(n % SEQ_MOD, b % SEQ_MOD) <==> b <= n
  {
    var d := n % SEQ_MOD - b % SEQ_MOD;
    var k := b / SEQ_MOD - n / SEQ_MOD;
    assert d == n - b + SEQ_MOD * k;
    assert -1 <= k <= 1;
  }

  lemma NextNumber(ts: TxTs)
    ensures var n: int := ts.curSeq; NextSeq(ts) == ts.(curSeq := if n == 4095 then 0 else n + 1)
  {
  }

  lemma SeqOutcomes(s: DevState, c: Caps, dst: Mac, tid: Byte)
    requires DevInv(s) && Sound(s)
    ensures var s', (s1, r) := OnQuerySeq(s, c, dst, tid), GetTs(s, c, dst, tid, Tx, true);
      && (r.None? ==> s' == s)
      && (r.Some? ==>
        r.value < |s1.tx| &&
        var n: int := s1.tx[r.value].curSeq;
        TxBecomes(s1, s', r.value, s1.tx[r.value].(curSeq := if n == 4095 then 0 else n + 1), []))
  {
    GetTsMeaning(s, c, dst, tid, Tx, true);
    var (s1, r) := GetTs(s, c, dst, tid, Tx, true);
    hide DevInv, GetTs, Carries, UserPriority, IsMulticast, InRange, NextSeq;
    NothingSent(s1.sent);
    if r.Some? {
      NextNumber(s1.tx[r.value]);
    }
  }

  // ---- Timers ----

  // The delay timer sends the request, unless one is still out: the next token, immediate Block Ack,
  // the stream's own TID, 32 frames, no timeout, from the third number after the current one on.
  lemma DelayOutcomes(s: DevState, i: nat)
    requires DevInv(s) && i < TOTAL_TS_NUM
    ensures var s', ts := OnAddBaTimer(s, i), s.tx[i];
      if !ts.addBaTimer then s' == s
      else if ts.pending.valid then TxBecomes(s, s', i, ts.(addBaTimer := false), [])
      else
        var token: Byte := if ts.pending.token == 255 then 0 else ts.pending.token + 1;
        var first: SeqNum := if ts.curSeq < 4093 then ts.curSeq + 3 else ts.curSeq - 4093;
        var param, start := BaParam(0, 1, ts.common.tsid, 32), SeqCtrl(ts.pending.start.frag, first);
        TxBecomes(s, s', i, ts.(addBaTimer := false, pending := BaRecord(true, true, token, param, 0, start)),
                  [Frame(ts.common.addr, AddBaReq(token, param, 0, start))])
  {
    ArmedInUse(s, i);
    NothingSent(s.sent);
    assert forall a: Action :: Frames(s.tx[i].common.addr, [a]) == [Frame(s.tx[i].common.addr, a)];
    assert Frames(s.tx[i].common.addr, []) == [];
    hide DevInv, TxLive;
  }

  // No answer in time: the attempt ends and the next one is delayed.
  lemma SetupOutcomes(s: DevState, i: nat)
    requires DevInv(s) && i < TOTAL_TS_NUM
    ensures var s', ts := OnSetupTimer(s, i), s.tx[i];
      if !ts.pending.timer then s' == s
      else TxBecomes(s, s', i, ts.(inProgress := false, delayed := true, pending := Ended(ts.pending)), [])
  {
    NothingSent(s.sent);
    assert i < |s.tx|;
    hide DevInv;
  }

  // An unused agreement runs out: both records end and the peer is told, with reason 39, under the
  // TID of the agreement. The responder's side never runs out.
  lemma InactOutcomes(s: DevState, i: nat)
    requires DevInv(s) && i < TOTAL_TS_NUM
    ensures var s', ts := OnTxInactTimer(s, i), s.tx[i];
      if !ts.admitted.timer then s' == s
      else TxBecomes(s, s', i, ts.(pending := Ended(ts.pending), admitted := Ended(ts.admitted)),
                     [Frame(ts.common.addr, DelBa(1, ts.admitted.param.tid, 39))])
    ensures OnRxInactTimer(s, i) == s
  {
    ArmedInUse(s, i);
    assert forall a: Action :: Frames(s.tx[i].common.addr, [a]) == [Frame(s.tx[i].common.addr, a)];
    hide DevInv;
  }

  // ---- Removal ----

  // One DELBA for each stream of the peer that has an agreement or asks for one, in the order of the
  // list, naming the stream's TID ...
  function ByeTx(tx: seq<TxTs>, l: seq<nat>, sel: Option<Mac>): seq<Frame>
    requires InRange(l, |tx|)
  {
    if l == [] then []
    else
      var ts := tx[l[0]];
      (if (sel.None? || sel.value == ts.common.addr) && (ts.pending.valid || ts.admitted.valid)
       then [Frame(ts.common.addr, DelBa(1, ts.common.tsid, 37))] else []) + ByeTx(tx, l[1..], sel)
  }

  // ... and one for each that has granted one, naming the TID of the agreement.
  function ByeRx(rx: seq<RxTs>, l: seq<nat>, sel: Option<Mac>): seq<Frame>
    requires InRange(l, |rx|)
  {
    if l == [] then []
    else
      var ts := rx[l[0]];
      (if (sel.None? || sel.value == ts.common.addr) && ts.ba.valid
       then [Frame(ts.common.addr, DelBa(0, ts.ba.param.tid, 37))] else []) + ByeRx(rx, l[1..], sel)
  }

  lemma LiveBye(ts: TxTs)
    requires TxLive(ts)
    ensures Frames(ts.common.addr, ClearTx(ts).1) == if ts.pending.valid || ts.admitted.valid
                                                     then [Frame(ts.common.addr, DelBa(1, ts.common.tsid, 37))] else []
  {
  }

  lemma {:induction false} FarewellsAreByesTx(tx: seq<TxTs>, l: seq<nat>, sel: Option<Mac>)
    requires InRange(l, |tx|) && forall k :: 0 <= k < |l| ==> TxLive(tx[l[k]])
    ensures FarewellsTx(tx, Chosen(l, CommonsTx(tx), sel, false)) == ByeTx(tx, l, sel)
  {
    if l != [] {
      var rest := l[1..];
      FarewellsAreByesTx(tx, rest, sel);
      var gone := Chosen(rest, CommonsTx(tx), sel, false);
      LiveBye(tx[l[0]]);
      hide TxLive, ClearTx, Frames;
      if Selected(tx[l[0]].common, sel) {
        assert Chosen(l, CommonsTx(tx), sel, false) == [l[0]] + gone;
        assert ([l[0]] + gone)[1..] == gone;
      } else {
        assert Chosen(l, CommonsTx(tx), sel, false) == [] + gone == gone;
        assert [] + ByeTx(tx, rest, sel) == ByeTx(tx, rest, sel);
      }
    }
  }

  lemma RxBye(ts: RxTs)
    ensures Frames(ts.common.addr, ClearRx(ts).1) == if ts.ba.valid
                                                     then [Frame(ts.common.addr, DelBa(0, ts.ba.param.tid, 37))] else []
  {
  }

  lemma {:induction false} FarewellsAreByesRx(rx: seq<RxTs>, l: seq<nat>, sel: Option<Mac>)
    requires InRange(l, |rx|)
    ensures FarewellsRx(rx, Chosen(l, CommonsRx(rx), sel, false)) == ByeRx(rx, l, sel)
  {
    if l != [] {
      var rest := l[1..];
      FarewellsAreByesRx(rx, rest, sel);
      var gone := Chosen(rest, CommonsRx(rx), sel, false);
      RxBye(rx[l[0]]);
      hide ClearRx, Frames;
      if Selected(rx[l[0]].common, sel) {
        assert Chosen(l, CommonsRx(rx), sel, false) == [l[0]] + gone;
        assert ([l[0]] + gone)[1..] == gone;
      } else {
        assert Chosen(l, CommonsRx(rx), sel, false) == [] + gone == gone;
        assert [] + ByeRx(rx, rest, sel) == ByeRx(rx, rest, sel);
      }
    }
  }

  lemma RemoveTxAnnounces(s: DevState, sel: Option<Mac>)
    requires DevInv(s) && Sound(s)
    ensures var s1 := RemoveTx(s, sel);
      s1.sent == s.sent + ByeTx(s.tx, s.txl.admit, sel) && s1.rx == s.rx && s1.rxl == s.rxl
  {
    RetireNoneTx(s);
    FarewellsAreByesTx(s.tx, s.txl.admit, sel);
    hide DevInv, TxLive, ClearTx, FarewellsTx, ByeTx, Chosen;
  }

  lemma RemoveRxAnnounces(s: DevState, sel: Option<Mac>)
    requires DevInv(s) && Sound(s)
    ensures RemoveRx(s, sel).sent == s.sent + ByeRx(s.rx, s.rxl.admit, sel)
  {
    RetireNoneRx(s);
    FarewellsAreByesRx(s.rx, s.rxl.admit, sel);
    hide DevInv, ClearRx, FarewellsRx, ByeRx, Chosen, Released;
  }

  lemma RemovalAnnounces(s: DevState, sel: Option<Mac>)
    requires DevInv(s) && Sound(s)
    ensures Remove(s, sel).sent == s.sent + ByeTx(s.tx, s.txl.admit, sel) + ByeRx(s.rx, s.rxl.admit, sel)
  {
    RemoveTxKeeps(s, sel);
    RemoveTxAnnounces(s, sel);
    RemoveRxAnnounces(RemoveTx(s, sel), sel);
    hide DevInv, RemoveTx, RemoveRx, ByeTx, ByeRx;
  }

  lemma RemoveTxLeaves(s: DevState, sel: Option<Mac>)
    requires DevInv(s) && Sound(s)
    ensures var s1 := RemoveTx(s, sel);
      && s1.rx == s.rx && s1.rxl == s.rxl && s1.indicated == s.indicated && |s1.tx| == |s.tx|
      && (forall i :: 0 <= i < |s.tx| && i in s.txl.admit && sel.Some? && s.tx[i].common.addr != sel.value ==>
            i in s1.txl.admit && s1.tx[i] == s.tx[i])
  {
    RetireNoneTx(s);
    hide TxLive, ClearTx, FarewellsTx;
  }

  lemma RemoveRxLeaves(s: DevState, sel: Option<Mac>)
    requires DevInv(s) && Sound(s)
    ensures var s1 := RemoveRx(s, sel);
      && s1.tx == s.tx && s1.txl == s.txl && s1.indicated == s.indicated && |s1.rx| == |s.rx|
      && (forall j :: 0 <= j < |s.rx| && j in s.rxl.admit && sel.Some? && s.rx[j].common.addr != sel.value ==>
            j in s1.rxl.admit && s1.rx[j] == s.rx[j])
  {
    RetireNoneRx(s);
    hide RxLive, ClearRx, FarewellsRx, Released;
  }

  // Removing one peer leaves the streams of every other as they are, and delivers nothing.
  lemma RemovalLeaves(s: DevState, addr: Mac, i: nat)
    requires DevInv(s) && Sound(s)
    ensures var s' := Remove(s, Some(addr));
      && s'.indicated == s.indicated
      && (i < |s.tx| && i in s.txl.admit && s.tx[i].common.addr != addr ==>
            i in s'.txl.admit && i < |s'.tx| && s'.tx[i] == s.tx[i])
      && (i < |s.rx| && i in s.rxl.admit && s.rx[i].common.addr != addr ==>
            i in s'.rxl.admit && i < |s'.rx| && s'.rx[i] == s.rx[i])
  {
    RemoveTxKeeps(s, Some(addr));
    RemoveTxLeaves(s, Some(addr));
    RemoveRxLeaves(RemoveTx(s, Some(addr)), Some(addr));
    hide DevInv, RemoveTx, RemoveRx;
  }
}
