/**
 The responder's side of Block Ack: which agreements a station holds for one peer, and what it
 tells that peer it has accepted.
 */
module Responder {
  import opened Basics
  import opened SequenceNumbers
  import opened RxReorder
  import opened BlockAck
  import opened TrafficStreams
  import opened StreamInvariants

  // What a responder stores for a request.
  datatype Agreement = Agreement(token: Byte, param: BaParam, timeout: Word)

  function Stored(ba: BaRecord): Agreement {
    Agreement(ba.token, ba.param, ba.timeout)
  }

  // ---- What B keeps ----

  ghost predicate Holds(b: DevState, j: nat, addr: Mac) {
    j < |b.rx| && j in b.rxl.admit && b.rx[j].common.addr == addr && b.rx[j].ba.valid
  }

  ghost predicate RecordsIn(b: DevState, addr: Mac, ok: set<Agreement>) {
    forall j: nat :: Holds(b, j, addr) ==> Stored(b.rx[j].ba) in ok
  }

  // f tells addr that its request has been accepted.
  ghost predicate Accepts(f: Frame, addr: Mac) {
    f.dst == addr && f.action.AddBaRsp? && f.action.status == ADDBA_STATUS_SUCCESS
  }

  function Offer(f: Frame): Agreement
    requires f.action.AddBaRsp?
  {
    Agreement(f.action.token, f.action.param, f.action.timeout)
  }

  ghost predicate ResponsesIn(log: seq<Frame>, addr: Mac, ok: set<Agreement>) {
    forall f :: f in log && Accepts(f, addr) ==> Offer(f) in ok
  }

  ghost predicate BInv(b: DevState, addr: Mac, ok: set<Agreement>) {
    RecordsIn(b, addr, ok) && ResponsesIn(b.sent, addr, ok)
  }

  // No new record for addr and no new acceptance sent to it.
  ghost predicate BQuiet(b: DevState, b': DevState, addr: Mac) {
    && |b'.rx| == |b.rx|
    && (forall j: nat :: Holds(b', j, addr) ==> Holds(b, j, addr) && b'.rx[j].ba == b.rx[j].ba)
    && (forall f :: f in b'.sent && Accepts(f, addr) ==> f in b.sent)
  }

  lemma QuietKeeps(b: DevState, b': DevState, addr: Mac, ok: set<Agreement>)
    requires BInv(b, addr, ok) && BQuiet(b, b', addr)
    ensures BInv(b', addr, ok)
  {
  }

  lemma QuietThen(b: DevState, b1: DevState, b2: DevState, addr: Mac)
    requires BQuiet(b, b1, addr) && BQuiet(b1, b2, addr)
    ensures BQuiet(b, b2, addr)
  {
  }

  // The record of stream j changes, and frames that accept nothing of addr are sent.
  lemma QuietSetRx(b: DevState, j: nat, ts: RxTs, out: seq<Frame>, addr: Mac)
    requires j < |b.rx| && ts.common == b.rx[j].common
    requires ts.ba.valid && ts.common.addr == addr ==> b.rx[j].ba == ts.ba
    requires forall k :: 0 <= k < |out| ==> !Accepts(out[k], addr)
    ensures BQuiet(b, SetRx(b, j, ts).(sent := b.sent + out), addr)
  {
  }

  lemma QuietSend(b: DevState, b': DevState, out: seq<Frame>, addr: Mac)
    requires b'.rx == b.rx && b'.rxl == b.rxl && b'.sent == b.sent + out
    requires forall k :: 0 <= k < |out| ==> !Accepts(out[k], addr)
    ensures BQuiet(b, b', addr)
  {
  }

  lemma BGetTs(b: DevState, c: Caps, src: Mac, tid: Byte, side: Side, add: bool, addr: Mac)
    requires DevInv(b) && Sound(b)
    ensures BQuiet(b, GetTs(b, c, src, tid, side, add).0, addr)
  {
  }

  // A request of somebody else.
  lemma BOtherReq(b: DevState, c: Caps, src: Mac, token: Byte, param: BaParam, timeout: Word, start: SeqCtrl, addr: Mac)
    requires DevInv(b) && Sound(b) && src != addr
    ensures BQuiet(b, OnAddBaReq(b, c, src, token, param, timeout, start), addr)
  {
    hide DevInv, GetTs, FoldsTo;
    BGetTs(b, c, src, param.tid, Rx, true, addr);
    GetTsMeaning(b, c, src, param.tid, Rx, true);
    var (b1, r) := GetTs(b, c, src, param.tid, Rx, true);
    var b' := OnAddBaReq(b, c, src, token, param, timeout, start);
    if r.Some? && c.qosActive && c.ht && !c.rejectAddBa && param.policy != BA_POLICY_DELAYED {
      var (ts, rsp) := RxOnReq(b1.rx[r.value], token, param, timeout, start, c.oneFrame);
      QuietSetRx(b1, r.value, ts, Frames(src, [rsp]), addr);
      QuietThen(b, b1, b', addr);
    } else {
      var b2 := if c.qosActive && c.ht && !c.rejectAddBa then b1 else b;
      assert BQuiet(b, b2, addr);
      var able := r.Some? && c.qosActive && c.ht && !c.rejectAddBa;
      var status := if able then ADDBA_STATUS_INVALID_PARAM else ADDBA_STATUS_REFUSED;
      QuietSend(b2, b', Frames(src, [AddBaRsp(token, status, param.(policy := BA_POLICY_IMMEDIATE), timeout)]), addr);
      QuietThen(b, b2, b', addr);
    }
  }

  // A request of addr itself: if it is accepted, the stream found holds what the response says.
  lemma BReq(b: DevState, c: Caps, src: Mac, token: Byte, param: BaParam, timeout: Word, start: SeqCtrl,
             ok: set<Agreement>)
    requires DevInv(b) && Sound(b) && BInv(b, src, ok)
    ensures var b' := OnAddBaReq(b, c, src, token, param, timeout, start);
      var g := Agreement(token, param.(bufferSize := if c.oneFrame then 1 else 32), timeout);
      || BInv(b', src, ok)
      || (BInv(b', src, ok + {g}) && param.policy == BA_POLICY_IMMEDIATE && exists j: nat ::
        Holds(b', j, src) && Stored(b'.rx[j].ba) == g)
  {
    hide DevInv, GetTs, FoldsTo;
    BGetTs(b, c, src, param.tid, Rx, true, src);
    GetTsMeaning(b, c, src, param.tid, Rx, true);
    var (b1, r) := GetTs(b, c, src, param.tid, Rx, true);
    QuietKeeps(b, b1, src, ok);
    var b' := OnAddBaReq(b, c, src, token, param, timeout, start);
    if r.Some? && c.qosActive && c.ht && !c.rejectAddBa && param.policy != BA_POLICY_DELAYED {
      Accepted(b1, r.value, c, src, token, param, timeout, start, ok);
    } else {
      var b2 := if c.qosActive && c.ht && !c.rejectAddBa then b1 else b;
      var able := r.Some? && c.qosActive && c.ht && !c.rejectAddBa;
      var status := if able then ADDBA_STATUS_INVALID_PARAM else ADDBA_STATUS_REFUSED;
      QuietSend(b2, b', Frames(src, [AddBaRsp(token, status, param.(policy := BA_POLICY_IMMEDIATE), timeout)]), src);
      QuietKeeps(b2, b', src, ok);
    }
  }

  lemma Accepted(b1: DevState, j: nat, c: Caps, src: Mac, token: Byte, param: BaParam, timeout: Word,
                 start: SeqCtrl, ok: set<Agreement>)
    requires BInv(b1, src, ok) && j < |b1.rx| && j in b1.rxl.admit && b1.rx[j].common.addr == src
    ensures var r := RxOnReq(b1.rx[j], token, param, timeout, start, c.oneFrame);
      var b' := Send(SetRx(b1, j, r.0), src, [r.1]);
      var g := Agreement(token, param.(bufferSize := if c.oneFrame then 1 else 32), timeout);
      BInv(b', src, ok + {g}) && Holds(b', j, src) && Stored(b'.rx[j].ba) == g
  {
  }

  lemma BRsp(b: DevState, c: Caps, src: Mac, token: Byte, status: Word, param: BaParam, timeout: Word, addr: Mac)
    requires DevInv(b) && Sound(b)
    ensures BQuiet(b, OnAddBaRsp(b, c, src, token, status, param, timeout), addr)
  {
    hide DevInv, GetTs, TxOnRsp;
    BGetTs(b, c, src, param.tid, Tx, false, addr);
  }

  lemma BDelBa(b: DevState, c: Caps, src: Mac, initiator: Bit, tid: Nibble, addr: Mac)
    requires DevInv(b) && Sound(b)
    ensures BQuiet(b, OnDelBa(b, c, src, initiator, tid), addr)
  {
    hide DevInv, GetTs;
    BGetTs(b, c, src, tid, if initiator == 1 then Rx else Tx, false, addr);
  }

  lemma BData(b: DevState, c: Caps, dst: Mac, tid: Byte, mayStart: bool, sn: SeqNum, rxb: Rxb, addr: Mac)
    requires DevInv(b) && Sound(b)
    ensures BQuiet(b, OnTxData(b, c, dst, tid, mayStart), addr) && BQuiet(b, OnQuerySeq(b, c, dst, tid), addr)
    ensures BQuiet(b, OnRxData(b, c, dst, tid, sn, rxb), addr)
  {
    hide DevInv, GetTs, Arrive, TxUse;
    BGetTs(b, c, dst, tid, Tx, true, addr);
    BGetTs(b, c, dst, tid, Rx, true, addr);
  }

  lemma BTimer(b: DevState, kind: TimerKind, i: nat, addr: Mac)
    requires Sound(b) && i < TOTAL_TS_NUM
    ensures BQuiet(b, HandleTimer(b, kind, i), addr)
  {
  }

  lemma {:induction false} FarewellsAccept(rx: seq<RxTs>, gone: seq<nat>, tx: seq<TxTs>, goneTx: seq<nat>, addr: Mac)
    requires InRange(gone, |rx|) && InRange(goneTx, |tx|)
    ensures forall f :: f in FarewellsTx(tx, goneTx) || f in FarewellsRx(rx, gone) ==> !Accepts(f, addr)
    decreases |gone| + |goneTx|
  {
    if gone != [] {
      FarewellsAccept(rx, gone[1..], tx, goneTx, addr);
    } else if goneTx != [] {
      FarewellsAccept(rx, gone, tx, goneTx[1..], addr);
    }
  }

  lemma BRemove(b: DevState, sel: Option<Mac>, addr: Mac)
    requires DevInv(b) && Sound(b)
    ensures BQuiet(b, Remove(b, sel), addr)
  {
    RetireNoneTx(b);
    RemoveTxKeeps(b, sel);
    var b1 := RemoveTx(b, sel);
    RetireNoneRx(b1);
    var goneTx, gone := Chosen(b.txl.admit, CommonsTx(b.tx), sel, false),
      Chosen(b1.rxl.admit, CommonsRx(b1.rx), sel, false);
    FarewellsAccept(b1.rx, gone, b.tx, goneTx, addr);
    assert BQuiet(b, b1, addr);
    assert BQuiet(b1, RemoveRx(b1, sel), addr);
  }

  lemma BHandle(b: DevState, x: Input, addr: Mac)
    requires DevInv(b) && Sound(b) && !(x.event.AddBaReqIn? && x.event.src == addr)
    ensures BQuiet(b, Handle(b, x), addr)
  {
    hide DevInv, Remove, GetTs, OnAddBaReq, OnAddBaRsp, OnDelBa, OnTxData, OnQuerySeq, OnRxData, HandleTimer;
    var c := x.caps;
    match x.event {
      case Lookup(a, tid, side, add) => BGetTs(b, c, a, tid, side, add, addr);
      case AddBaReqIn(src, token, param, timeout, start) => BOtherReq(b, c, src, token, param, timeout, start, addr);
      case AddBaRspIn(src, token, status, param, timeout) => BRsp(b, c, src, token, status, param, timeout, addr);
      case DelBaIn(src, initiator, tid) => BDelBa(b, c, src, initiator, tid, addr);
      case TxData(dst, tid, mayStart) => BData(b, c, dst, tid, mayStart, 0, 0, addr);
      case QuerySeq(dst, tid) => BData(b, c, dst, tid, false, 0, 0, addr);
      case RxData(src, tid, sn, rxb) => BData(b, c, src, tid, false, sn, rxb, addr);
      case Timer(kind, i) => if i < TOTAL_TS_NUM { BTimer(b, kind, i, addr); }
      case RemoveTs(sel) => BRemove(b, sel, addr);
    }
  }

  ghost function StoredBy(b: DevState, addr: Mac): set<Agreement> {
    set j: nat | j < |b.rx| && Holds(b, j, addr) :: Stored(b.rx[j].ba)
  }


  lemma StoredIn(b: DevState, addr: Mac, ok: set<Agreement>)
    requires BInv(b, addr, ok)
    ensures StoredBy(b, addr) <= ok
  {
  }

  // ---- A request that is accepted ----

  // The stream found for an acceptable request holds its token afterwards.
  lemma AcceptedAtB(b: DevState, caps: Caps, src: Mac, token: Byte, param: BaParam, timeout: Word, start: SeqCtrl)
    requires DevInv(b) && Sound(b)
    requires caps.qosActive && caps.ht && !caps.rejectAddBa && param.policy == BA_POLICY_IMMEDIATE
    ensures var (b', r) := (OnAddBaReq(b, caps, src, token, param, timeout, start),
      GetTs(b, caps, src, param.tid, Rx, true).1);
      r.Some? ==> Holds(b', r.value, src) && b'.rx[r.value].ba.token == token
  {
    GetTsMeaning(b, caps, src, param.tid, Rx, true);
    hide DevInv, GetTs, FoldsTo, Holds, RxOnReq, SetRx, Send;
    var (b1, r) := GetTs(b, caps, src, param.tid, Rx, true);
    if r.Some? {
      var (ts, rsp) := RxOnReq(b1.rx[r.value], token, param, timeout, start, caps.oneFrame);
      AcceptedHolds(b1, r.value, src, token, param, timeout, start, caps.oneFrame);
      assert OnAddBaReq(b, caps, src, token, param, timeout, start) == Send(SetRx(b1, r.value, ts), src, [rsp]);
    }
  }

  lemma AcceptedHolds(b1: DevState, j: nat, src: Mac, token: Byte, param: BaParam, timeout: Word, start: SeqCtrl,
                      oneFrame: bool)
    requires j < |b1.rx| && j in b1.rxl.admit && b1.rx[j].common.addr == src
    ensures var r := RxOnReq(b1.rx[j], token, param, timeout, start, oneFrame);
      var b' := Send(SetRx(b1, j, r.0), src, [r.1]);
      Holds(b', j, src) && b'.rx[j].ba.token == token
  {
  }
}
