/**
 Runs with QoS support on throughout: the TID an agreement was made for is one of the two
 TIDs of its stream.
 */
module TidFolding {
  import opened Basics
  import opened SequenceNumbers
  import opened RxReorder
  import opened BlockAck
  import opened TrafficStreams
  import opened StreamInvariants

  // ---- Agreements are inherited ----

  // A record that holds an agreement afterwards held one for that TID and user priority before.
  predicate TxInherits(a: TxTs, b: TxTs) {
    b.admitted.valid ==>
      a.admitted.valid && b.admitted.param.tid == a.admitted.param.tid && b.common.tsid == a.common.tsid
  }

  predicate RxInherits(a: RxTs, b: RxTs) {
    b.ba.valid ==> a.ba.valid && b.ba.param.tid == a.ba.param.tid && b.common.tsid == a.common.tsid
  }

  // So for every record but those named.
  ghost predicate Inherits(s: DevState, s': DevState, i: Option<nat>, j: Option<nat>) {
    && |s'.tx| == |s.tx| && |s'.rx| == |s.rx|
    && (forall k: nat :: k < |s.tx| && i != Some(k) ==> TxInherits(s.tx[k], s'.tx[k]))
    && (forall k: nat :: k < |s.rx| && j != Some(k) ==> RxInherits(s.rx[k], s'.rx[k]))
  }

  lemma GetTsInherits(s: DevState, c: Caps, addr: Mac, tid: Byte, side: Side, add: bool)
    requires Sound(s)
    ensures Inherits(s, GetTs(s, c, addr, tid, side, add).0, None, None)
  {
  }

  // Every record but that of the stream a request is for.
  lemma ReqInherits(s: DevState, c: Caps, src: Mac, token: Byte, param: BaParam, timeout: Word, start: SeqCtrl)
    requires Sound(s)
    ensures Inherits(s, OnAddBaReq(s, c, src, token, param, timeout, start), None,
      GetTs(s, c, src, param.tid, Rx, true).1)
  {
    hide GetTs, RxOnReq;
    GetTsInherits(s, c, src, param.tid, Rx, true);
  }

  // Every record but that of the stream a response is for.
  lemma RspInherits(s: DevState, c: Caps, src: Mac, token: Byte, status: Word, param: BaParam, timeout: Word)
    requires Sound(s)
    ensures Inherits(s, OnAddBaRsp(s, c, src, token, status, param, timeout),
      GetTs(s, c, src, param.tid, Tx, false).1, None)
  {
    hide GetTs, TxOnRsp;
    GetTsInherits(s, c, src, param.tid, Tx, false);
  }

  lemma DelBaInherits(s: DevState, c: Caps, src: Mac, initiator: Bit, tid: Nibble)
    requires Sound(s)
    ensures Inherits(s, OnDelBa(s, c, src, initiator, tid), None, None)
  {
    hide GetTs;
    GetTsInherits(s, c, src, tid, if initiator == 1 then Rx else Tx, false);
  }

  lemma DataInherits(s: DevState, c: Caps, addr: Mac, tid: Byte, mayStart: bool, sn: SeqNum, rxb: Rxb)
    requires Sound(s)
    ensures Inherits(s, OnTxData(s, c, addr, tid, mayStart), None, None)
    ensures Inherits(s, OnQuerySeq(s, c, addr, tid), None, None)
    ensures Inherits(s, OnRxData(s, c, addr, tid, sn, rxb), None, None)
  {
    hide GetTs, Arrive;
    GetTsInherits(s, c, addr, tid, Rx, true);
    GetTsInherits(s, c, addr, tid, Tx, true);
  }

  lemma TimerInherits(s: DevState, kind: TimerKind, i: nat)
    requires Sound(s) && i < TOTAL_TS_NUM
    ensures Inherits(s, HandleTimer(s, kind, i), None, None)
  {
    hide Timeout;
  }

  lemma RemoveInherits(s: DevState, sel: Option<Mac>)
    requires Sound(s)
    ensures Inherits(s, Remove(s, sel), None, None)
  {
    hide FarewellsTx, FarewellsRx, Chosen, Released;
    assert Inherits(s, RemoveTx(s, sel), None, None);
  }

  // No event but a request or a response makes a record hold an agreement.
  lemma OthersInherit(s: DevState, x: Input)
    requires Sound(s) && !x.event.AddBaReqIn? && !x.event.AddBaRspIn?
    ensures Inherits(s, Handle(s, x), None, None)
  {
    hide Remove, GetTs, OnAddBaReq, OnAddBaRsp, OnDelBa, OnTxData, OnQuerySeq, OnRxData, HandleTimer, Inherits;
    var c := x.caps;
    match x.event {
      case Lookup(a, tid, side, add) => GetTsInherits(s, c, a, tid, side, add);
      case DelBaIn(src, initiator, tid) => DelBaInherits(s, c, src, initiator, tid);
      case TxData(dst, tid, mayStart) => DataInherits(s, c, dst, tid, mayStart, 0, 0);
      case QuerySeq(dst, tid) => DataInherits(s, c, dst, tid, false, 0, 0);
      case RxData(src, tid, sn, rxb) => DataInherits(s, c, src, tid, false, sn, rxb);
      case Timer(kind, i) =>
        if i < TOTAL_TS_NUM {
          TimerInherits(s, kind, i);
        } else {
          SameInherits(s);
        }
      case RemoveTs(sel) => RemoveInherits(s, sel);
    }
  }

  lemma SameInherits(s: DevState)
    ensures Inherits(s, s, None, None)
  {
  }

  // ---- The exact fold ----

  predicate TxFolds(ts: TxTs) {
    ts.admitted.valid ==> InClass(ts.admitted.param.tid, ts.common.tsid)
  }

  predicate RxFolds(ts: RxTs) {
    ts.ba.valid ==> InClass(ts.ba.param.tid, ts.common.tsid)
  }

  ghost predicate FoldInv(s: DevState) {
    && (forall i :: 0 <= i < |s.tx| ==> TxFolds(s.tx[i]))
    && (forall j :: 0 <= j < |s.rx| ==> RxFolds(s.rx[j]))
  }

  lemma InheritsFolds(s: DevState, s': DevState, i: Option<nat>, j: Option<nat>)
    requires FoldInv(s) && Inherits(s, s', i, j)
    requires i.Some? && i.value < |s'.tx| ==> TxFolds(s'.tx[i.value])
    requires j.Some? && j.value < |s'.rx| ==> RxFolds(s'.rx[j.value])
    ensures FoldInv(s')
  {
    forall k | 0 <= k < |s'.tx| ensures TxFolds(s'.tx[k]) {
      assert i != Some(k) ==> TxInherits(s.tx[k], s'.tx[k]);
    }
    forall k | 0 <= k < |s'.rx| ensures RxFolds(s'.rx[k]) {
      assert j != Some(k) ==> RxInherits(s.rx[k], s'.rx[k]);
    }
  }

  lemma RecordsFold(tx: TxTs, rx: RxTs, token: Byte, status: Word, param: BaParam, timeout: Word, start: SeqCtrl,
                    oneFrame: bool)
    ensures TxFolds(tx) && InClass(param.tid, tx.common.tsid) ==>
      TxFolds(TxOnRsp(tx, token, status, param, timeout).0)
    ensures InClass(param.tid, rx.common.tsid) ==>
      RxFolds(RxOnReq(rx, token, param, timeout, start, oneFrame).0)
  {
    hide InClass;
  }

  lemma ReqRecord(s: DevState, c: Caps, src: Mac, token: Byte, param: BaParam, timeout: Word, start: SeqCtrl)
    requires Sound(s)
    ensures var (s1, r), s' := GetTs(s, c, src, param.tid, Rx, true),
      OnAddBaReq(s, c, src, token, param, timeout, start);
      r.Some? ==> |s'.rx| == |s1.rx| && (s'.rx[r.value] == s.rx[r.value] || s'.rx[r.value] == s1.rx[r.value]
                  || s'.rx[r.value] == RxOnReq(s1.rx[r.value], token, param, timeout, start, c.oneFrame).0)
  {
    hide GetTs, RxOnReq;
  }

  lemma ReqFolds(s: DevState, c: Caps, src: Mac, token: Byte, param: BaParam, timeout: Word, start: SeqCtrl)
    requires DevInv(s) && Sound(s) && FoldInv(s) && c.qosSupported
    ensures FoldInv(OnAddBaReq(s, c, src, token, param, timeout, start))
  {
    ReqInherits(s, c, src, token, param, timeout, start);
    GetTsInherits(s, c, src, param.tid, Rx, true);
    GetTsMeaning(s, c, src, param.tid, Rx, true);
    var (s1, r) := GetTs(s, c, src, param.tid, Rx, true);
    InheritsFolds(s, s1, None, None);
    ReqRecord(s, c, src, token, param, timeout, start);
    hide DevInv, GetTs, Inherits, RxFolds, TxFolds, RxOnReq, OnAddBaReq, UserPriority, InClass;
    if r.Some? {
      PriorityMeans(true, param.tid, s1.rx[r.value].common.tsid);
      RecordsFold(IDLE_TX, s1.rx[r.value], token, 0, param, timeout, start, c.oneFrame);
    }
    InheritsFolds(s, OnAddBaReq(s, c, src, token, param, timeout, start), None, r);
  }

  lemma RspFolds(s: DevState, c: Caps, src: Mac, token: Byte, status: Word, param: BaParam, timeout: Word)
    requires DevInv(s) && Sound(s) && FoldInv(s) && c.qosSupported
    ensures FoldInv(OnAddBaRsp(s, c, src, token, status, param, timeout))
  {
    RspInherits(s, c, src, token, status, param, timeout);
    GetTsInherits(s, c, src, param.tid, Tx, false);
    GetTsMeaning(s, c, src, param.tid, Tx, false);
    var (s1, r) := GetTs(s, c, src, param.tid, Tx, false);
    InheritsFolds(s, s1, None, None);
    hide DevInv, GetTs, Inherits, RxFolds, TxFolds, TxOnRsp, UserPriority, InClass;
    if r.Some? {
      PriorityMeans(true, param.tid, s1.tx[r.value].common.tsid);
      RecordsFold(s1.tx[r.value], IDLE_RX, token, status, param, timeout, SeqCtrl(0, 0), false);
    }
    InheritsFolds(s, OnAddBaRsp(s, c, src, token, status, param, timeout), r, None);
  }

  lemma HandleFolds(s: DevState, x: Input)
    requires DevInv(s) && Sound(s) && FoldInv(s) && x.caps.qosSupported
    ensures FoldInv(Handle(s, x))
  {
    hide DevInv, FoldInv, Inherits, Remove, GetTs, OnAddBaReq, OnAddBaRsp, OnDelBa, OnTxData, OnQuerySeq, OnRxData,
         HandleTimer;
    match x.event {
      case AddBaReqIn(src, token, param, timeout, start) => ReqFolds(s, x.caps, src, token, param, timeout, start);
      case AddBaRspIn(src, token, status, param, timeout) => RspFolds(s, x.caps, src, token, status, param, timeout);
      case _ =>
        OthersInherit(s, x);
        InheritsFolds(s, Handle(s, x), None, None);
    }
  }

  lemma {:induction false} RunFolds(s: DevState, xs: seq<Input>, s': DevState)
    requires DevInv(s) && FoldInv(s) && Reachable(s, xs, s')
    requires forall k :: 0 <= k < |xs| ==> xs[k].caps.qosSupported
    ensures FoldInv(s')
    decreases |xs|
  {
    hide DevInv, FoldInv, Handle;
    if xs != [] {
      HandleFolds(s, xs[0]);
      HandleKeeps(s, xs[0]);
      RunFolds(Handle(s, xs[0]), xs[1..], s');
    }
  }

  // In every state a run with QoS support on can lead to, an agreement is for a TID of the class
  // its stream stands for, and a DELBA that ends it names such a TID: the one of a
  // removed receive stream, and those of the inactivity timeout and of the stream's own TID.
  lemma TeardownFolds(s0: DevState, xs: seq<Input>, s: DevState, i: nat)
    requires Initial(s0) && Reachable(s0, xs, s) && i < TOTAL_TS_NUM
    requires forall k :: 0 <= k < |xs| ==> xs[k].caps.qosSupported
    ensures |s.tx| == TOTAL_TS_NUM && |s.rx| == TOTAL_TS_NUM
    ensures s.tx[i].admitted.valid ==>
      exists tid: Nibble :: InClass(tid, s.tx[i].common.tsid)
                         && TxInactTimeout(s.tx[i]).1 == [DelBa(1, tid, DELBA_REASON_TIMEOUT)]
    ensures if s.rx[i].ba.valid
            then exists tid: Nibble :: InClass(tid, s.rx[i].common.tsid)
                                    && ClearRx(s.rx[i]).1 == [DelBa(0, tid, DELBA_REASON_END_BA)]
            else ClearRx(s.rx[i]).1 == []
  {
    InitialOk(s0);
    RunFolds(s0, xs, s);
    RunKeeps(s0, xs, s);
    DevSound(s);
    hide DevInv, Reachable, Initial, InClass;
    var ts := s.tx[i];
    assert TxInactTimeout(ts).1 == [DelBa(1, ts.admitted.param.tid, DELBA_REASON_TIMEOUT)];
    assert s.rx[i].ba.valid ==> ClearRx(s.rx[i]).1 == [DelBa(0, s.rx[i].ba.param.tid, DELBA_REASON_END_BA)];
    assert TxFolds(ts) && RxFolds(s.rx[i]);
  }
}
