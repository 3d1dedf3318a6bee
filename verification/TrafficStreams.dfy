/**
 The traffic-stream tables and the Block Ack handlers, as functions on values: what each
 handler makes of the device state. The device class is tied to these functions; the
 properties of whole runs are proved about them.
 */
module TrafficStreams {
  import opened Basics
  import opened SequenceNumbers
  import opened RxReorder
  import opened BlockAck

  const TOTAL_TS_NUM := 16

  // Infra stands for every mode the driver treats like it.
  datatype IwMode = Master | Adhoc | Infra
  datatype Dir = Up | Down | Direct | BiDir
  datatype Side = Tx | Rx

  // What a handler reads from the rest of the driver when it runs.
  datatype Caps = Caps(mode: IwMode, qosSupported: bool, qosActive: bool, ht: bool, ampdu: bool,
                       rejectAddBa: bool, oneFrame: bool)

  datatype TsCommon = TsCommon(addr: Mac, tsid: Nibble, dir: Dir, setupTimer: bool, inactTimer: bool)

  datatype TxTs = TxTs(common: TsCommon, curSeq: SeqNum, pending: BaRecord, admitted: BaRecord,
                       inProgress: bool, delayed: bool, usingBa: bool, disabled: bool, addBaTimer: bool)

  datatype RxTs = RxTs(common: TsCommon, queue: RxQueue, ba: BaRecord)

  // ---- One record ----

  const NO_COMMON := TsCommon(ZERO_MAC, 0, Up, false, false)

  function ResetCommon(c: TsCommon): TsCommon {
    c.(addr := ZERO_MAC, tsid := 0, dir := Up)
  }

  function ResetTx(ts: TxTs): TxTs {
    TxTs(ResetCommon(ts.common), 0, ResetBa(ts.pending), ResetBa(ts.admitted),
         false, false, false, false, ts.addBaTimer)
  }

  function ResetRx(ts: RxTs): RxTs {
    RxTs(ResetCommon(ts.common), ts.queue.(indicateSeq := NO_SEQ, timeoutSeq := NO_SEQ), ResetBa(ts.ba))
  }

  function TxDeleteBa(ts: TxTs): (TxTs, bool) {
    var p := if ts.pending.valid then DeActivate(ts.pending) else ts.pending;
    var a := if ts.admitted.valid then DeActivate(ts.admitted) else ts.admitted;
    (ts.(pending := p, admitted := a), ts.pending.valid || ts.admitted.valid)
  }

  function RxDeleteBa(ts: RxTs): (RxTs, bool) {
    (if ts.ba.valid then ts.(ba := DeActivate(ts.ba)) else ts, ts.ba.valid)
  }

  // TsInitDelBA for a transmit stream; the record named in the frame is chosen after both
  // records have been invalidated.
  function TxInitDelBa(ts: TxTs): (TxTs, seq<Action>) {
    var (ts', send) := TxDeleteBa(ts);
    var chosen := if ts'.admitted.valid then ts'.admitted else ts'.pending;
    (ts', if send then [DelBa(1, chosen.param.tid, DELBA_REASON_END_BA)] else [])
  }

  function RxInitDelBa(ts: RxTs): (RxTs, seq<Action>) {
    var (ts', send) := RxDeleteBa(ts);
    (ts', if send then [DelBa(0, ts'.ba.param.tid, DELBA_REASON_END_BA)] else [])
  }

  function InitAddBa(ts: TxTs, policy: Bit, overwritePending: bool): (TxTs, seq<Action>) {
    if ts.pending.valid && !overwritePending then (ts, [])
    else
      var ba := DeActivate(ts.pending);
      var ba := ba.(token := (ba.token + 1) % 0x100,
                    param := BaParam(0, policy, ts.common.tsid, 32),
                    timeout := 0,
                    start := ba.start.(seqNum := (ts.curSeq + 3) % SEQ_MOD));
      var ba := Activate(ba, BA_SETUP_TIMEOUT);
      (ts.(pending := ba), [AddBaReq(ba.token, ba.param, ba.timeout, ba.start)])
  }

  function StartAddBa(ts: TxTs): TxTs {
    if ts.inProgress then ts else ts.(inProgress := true, addBaTimer := true)
  }

  function SetupTimeout(ts: TxTs): TxTs {
    ts.(inProgress := false, delayed := true, pending := ts.pending.(valid := false))
  }

  function TxInactTimeout(ts: TxTs): (TxTs, seq<Action>) {
    var ts' := TxDeleteBa(ts).0;
    (ts', [DelBa(1, ts'.admitted.param.tid, DELBA_REASON_TIMEOUT)])
  }

  function RxInactTimeout(ts: RxTs): (RxTs, seq<Action>) {
    var ts' := RxDeleteBa(ts).0;
    (ts', [DelBa(0, ts'.ba.param.tid, DELBA_REASON_TIMEOUT)])
  }

  // rtllib_rx_ADDBARsp once the stream is found: the record, and the reason of the DELBA
  // that answers a response which is not taken.
  function TxOnRsp(ts: TxTs, token: Byte, status: Word, param: BaParam, timeout: Word): (TxTs, Option<Word>) {
    var ts := ts.(inProgress := false);
    if ts.admitted.valid then (ts, None)
    else if !ts.pending.valid || token != ts.pending.token then (ts, Some(DELBA_REASON_UNKNOWN_BA))
    else
      var ts := ts.(pending := DeActivate(ts.pending));
      if status == ADDBA_STATUS_SUCCESS then
        if param.policy == BA_POLICY_DELAYED then
          (ts.(delayed := true, admitted := DeActivate(ts.admitted)), Some(DELBA_REASON_END_BA))
        else
          var ba := ts.admitted.(token := token, timeout := timeout, start := ts.pending.start, param := param);
          (ts.(admitted := Activate(DeActivate(ba), timeout)), None)
      else
        (ts.(delayed := true, disabled := true), Some(DELBA_REASON_END_BA))
  }

  function TxOnDelBa(ts: TxTs): TxTs {
    TxDeleteBa(ts.(usingBa := false, inProgress := false, delayed := false, addBaTimer := false)).0
  }

  function RxOnReq(ts: RxTs, token: Byte, param: BaParam, timeout: Word, start: SeqCtrl, oneFrame: bool): (RxTs,
                   Action) {
    var ba := DeActivate(ts.ba).(token := token, param := param, timeout := timeout, start := start);
    var ba := ba.(param := ba.param.(bufferSize := if oneFrame then 1 else 32));
    var ba := Activate(ba, 0);
    (ts.(ba := ba), AddBaRsp(ba.token, ADDBA_STATUS_SUCCESS, ba.param, ba.timeout))
  }

  // The transmit path: ask for an agreement only when there is none, or start using it.
  function TxUse(ts: TxTs, mayStart: bool): TxTs {
    if !ts.admitted.valid then
      if mayStart && !ts.disabled then StartAddBa(ts) else ts
    else if !ts.usingBa && SnLess(ts.admitted.start.seqNum, (ts.curSeq + 1) % SEQ_MOD) then ts.(usingBa := true)
    else ts
  }

  function NextSeq(ts: TxTs): TxTs {
    ts.(curSeq := (ts.curSeq + 1) % SEQ_MOD)
  }

  // RemoveTsEntry.
  function ClearTx(ts: TxTs): (TxTs, seq<Action>) {
    var ts := ts.(common := ts.common.(setupTimer := false, inactTimer := false));
    var (ts', out) := TxInitDelBa(ts);
    (ts'.(addBaTimer := false), out)
  }

  function ClearRx(ts: RxTs): (RxTs, seq<Action>) {
    var ts := ts.(common := ts.common.(setupTimer := false, inactTimer := false));
    var (ts', out) := RxInitDelBa(ts);
    (ts'.(queue := ts'.queue.(timer := false, pending := [])), out)
  }

  // ---- The device ----

  datatype Lists = Lists(unused: seq<nat>, admit: seq<nat>, pend: seq<nat>)

  // A frame handed to the network stack, with the receive stream it came through. The stack
  // does not see the stream.
  datatype Delivery = Delivery(stream: nat, pkt: Pkt)

  function Tagged(j: nat, pkts: seq<Pkt>): (r: seq<Delivery>)
    ensures |r| == |pkts|
  {
    seq(|pkts|, k requires 0 <= k < |pkts| => Delivery(j, pkts[k]))
  }

  datatype DevState = DevState(tx: seq<TxTs>, rx: seq<RxTs>, txl: Lists, rxl: Lists,
                               free: seq<Entry>, sent: seq<Frame>, indicated: seq<Delivery>)

  function CommonsTx(tx: seq<TxTs>): (r: seq<TsCommon>)
    ensures |r| == |tx| && forall i :: 0 <= i < |tx| ==> r[i] == tx[i].common
  {
    seq(|tx|, i requires 0 <= i < |tx| => tx[i].common)
  }

  function CommonsRx(rx: seq<RxTs>): (r: seq<TsCommon>)
    ensures |r| == |rx| && forall i :: 0 <= i < |rx| ==> r[i] == rx[i].common
  {
    seq(|rx|, i requires 0 <= i < |rx| => rx[i].common)
  }

  function Commons(s: DevState, side: Side): seq<TsCommon> {
    if side == Tx then CommonsTx(s.tx) else CommonsRx(s.rx)
  }

  function ListsOf(s: DevState, side: Side): Lists {
    if side == Tx then s.txl else s.rxl
  }

  predicate InRange(l: seq<nat>, n: nat) {
    forall k :: 0 <= k < |l| ==> l[k] < n
  }

  predicate IsKey(c: TsCommon, addr: Mac, tsid: Nibble, dir: Dir) {
    c.addr == addr && c.tsid == tsid && c.dir == dir
  }

  predicate Searched(mode: IwMode, side: Side, dir: Dir) {
    match mode
    case Master => dir == BiDir || dir == (if side == Tx then Down else Up)
    case Adhoc => dir == (if side == Tx then Up else Down)
    case Infra => dir == BiDir || dir == Direct || dir == (if side == Tx then Up else Down)
  }

  // The direction given to a stream that is added.
  function AddedDir(mode: IwMode, side: Side): Dir {
    if mode == Master then (if side == Tx then Down else Up) else (if side == Tx then Up else Down)
  }

  function FirstIn(l: seq<nat>, ts: seq<TsCommon>, addr: Mac, tsid: Nibble, dir: Dir): (r: Option<nat>)
    requires InRange(l, |ts|)
    ensures r.Some? ==> r.value in l && r.value < |ts| && IsKey(ts[r.value], addr, tsid, dir)
    ensures r.None? ==> forall i :: i in l ==> !IsKey(ts[i], addr, tsid, dir)
  {
    if l == [] then None
    else if IsKey(ts[l[0]], addr, tsid, dir) then Some(l[0])
    else FirstIn(l[1..], ts, addr, tsid, dir)
  }

  function DirFirst(mode: IwMode, side: Side, l: seq<nat>, ts: seq<TsCommon>, addr: Mac, tsid: Nibble,
                    dir: Dir): (r: Option<nat>)
    requires InRange(l, |ts|)
    ensures r.Some? ==> r.value in l && r.value < |ts|
  {
    if Searched(mode, side, dir) then FirstIn(l, ts, addr, tsid, dir) else None
  }

  // SearchAdmitTRStream: directions in the order of their codes, each over the whole list.
  function Search(mode: IwMode, side: Side, l: seq<nat>, ts: seq<TsCommon>, addr: Mac, tsid: Nibble): (r: Option<nat>)
    requires InRange(l, |ts|)
    ensures r.Some? ==> r.value in l && r.value < |ts|
  {
    var a := DirFirst(mode, side, l, ts, addr, tsid, Up);
    var b := DirFirst(mode, side, l, ts, addr, tsid, Down);
    var c := DirFirst(mode, side, l, ts, addr, tsid, Direct);
    if a.Some? then a else if b.Some? then b else if c.Some? then c
    else DirFirst(mode, side, l, ts, addr, tsid, BiDir)
  }

  // The user priority a TID is folded to; None when GetTs rejects the TID.
  function UserPriority(qosSupported: bool, tid: Byte): Option<Nibble> {
    if !qosSupported then Some(0)
    else if tid > 7 then None
    else if tid == 0 || tid == 3 then Some(0)
    else if tid == 1 || tid == 2 then Some(2)
    else if tid == 4 || tid == 5 then Some(5)
    else Some(7)
  }

  predicate Sound(s: DevState) {
    && |s.tx| == TOTAL_TS_NUM && |s.rx| == TOTAL_TS_NUM
    && InRange(s.txl.unused, TOTAL_TS_NUM) && InRange(s.txl.admit, TOTAL_TS_NUM) && InRange(s.txl.pend, TOTAL_TS_NUM)
    && InRange(s.rxl.unused, TOTAL_TS_NUM) && InRange(s.rxl.admit, TOTAL_TS_NUM) && InRange(s.rxl.pend, TOTAL_TS_NUM)
  }

  // Taking the first unused record for a new key.
  function AddTs(s: DevState, mode: IwMode, addr: Mac, up: Nibble, side: Side): (r: (DevState, Option<nat>))
    requires Sound(s)
    ensures Sound(r.0) && (r.1.Some? ==> r.1.value < TOTAL_TS_NUM)
  {
    var l := ListsOf(s, side);
    if l.unused == [] then (s, None)
    else
      var i := l.unused[0];
      var c := TsCommon(addr, up, AddedDir(mode, side), false, false);
      var l' := l.(unused := l.unused[1..], admit := l.admit + [i]);
      if side == Tx then
        (s.(tx := s.tx[i := ResetTx(s.tx[i]).(common := c)], txl := l'), Some(i))
      else
        (s.(rx := s.rx[i := ResetRx(s.rx[i]).(common := c)], rxl := l'), Some(i))
  }

  function GetTs(s: DevState, c: Caps, addr: Mac, tid: Byte, side: Side, add: bool): (r: (DevState, Option<nat>))
    requires Sound(s)
    ensures Sound(r.0) && (r.1.Some? ==> r.1.value < TOTAL_TS_NUM)
  {
    if IsBroadcast(addr) || IsMulticast(addr) then (s, None)
    else
      var up := UserPriority(c.qosSupported, tid);
      if up.None? then (s, None)
      else
        var found := Search(c.mode, side, ListsOf(s, side).admit, Commons(s, side), addr, up.value);
        if found.Some? then (s, found)
        else if !add then (s, None)
        else AddTs(s, c.mode, addr, up.value, side)
  }

  function Frames(dst: Mac, out: seq<Action>): (r: seq<Frame>)
    ensures |r| == |out|
  {
    seq(|out|, k requires 0 <= k < |out| => Frame(dst, out[k]))
  }

  function Send(s: DevState, dst: Mac, out: seq<Action>): DevState {
    s.(sent := s.sent + Frames(dst, out))
  }

  function SetTx(s: DevState, i: nat, ts: TxTs): DevState
    requires i < |s.tx|
  {
    s.(tx := s.tx[i := ts])
  }

  function SetRx(s: DevState, i: nat, ts: RxTs): DevState
    requires i < |s.rx|
  {
    s.(rx := s.rx[i := ts])
  }

  // ---- Handlers ----

  function OnAddBaReq(s: DevState, c: Caps, src: Mac, token: Byte, param: BaParam, timeout: Word,
                      start: SeqCtrl): DevState
    requires Sound(s)
  {
    var refuse := (status: Word) => [AddBaRsp(token, status, param.(policy := BA_POLICY_IMMEDIATE), timeout)];
    if !c.qosActive || !c.ht || c.rejectAddBa then Send(s, src, refuse(ADDBA_STATUS_REFUSED))
    else
      var (s1, r) := GetTs(s, c, src, param.tid, Rx, true);
      if r.None? then Send(s1, src, refuse(ADDBA_STATUS_REFUSED))
      else if param.policy == BA_POLICY_DELAYED then Send(s1, src, refuse(ADDBA_STATUS_INVALID_PARAM))
      else
        var (ts, rsp) := RxOnReq(s1.rx[r.value], token, param, timeout, start, c.oneFrame);
        Send(SetRx(s1, r.value, ts), src, [rsp])
  }

  function OnAddBaRsp(s: DevState, c: Caps, src: Mac, token: Byte, status: Word, param: BaParam,
                      timeout: Word): DevState
    requires Sound(s)
  {
    var reject := (reason: Word) => [DelBa(1, param.tid, reason)];
    if !c.qosActive || !c.ht || !c.ampdu then Send(s, src, reject(DELBA_REASON_UNKNOWN_BA))
    else
      var (s1, r) := GetTs(s, c, src, param.tid, Tx, false);
      if r.None? then Send(s1, src, reject(DELBA_REASON_UNKNOWN_BA))
      else
        var (ts, reason) := TxOnRsp(s1.tx[r.value], token, status, param, timeout);
        var s2 := SetTx(s1, r.value, ts);
        if reason.Some? then Send(s2, src, reject(reason.value)) else s2
  }

  // From the decoded fields: the driver looks for them beyond the frame.
  function OnDelBa(s: DevState, c: Caps, src: Mac, initiator: Bit, tid: Nibble): DevState
    requires Sound(s)
  {
    if !c.qosActive || !c.ht then s
    else if initiator == 1 then
      var (s1, r) := GetTs(s, c, src, tid, Rx, false);
      if r.None? then s1 else SetRx(s1, r.value, RxDeleteBa(s1.rx[r.value]).0)
    else
      var (s1, r) := GetTs(s, c, src, tid, Tx, false);
      if r.None? then s1 else SetTx(s1, r.value, TxOnDelBa(s1.tx[r.value]))
  }

  function OnTxData(s: DevState, c: Caps, dst: Mac, tid: Byte, mayStart: bool): DevState
    requires Sound(s)
  {
    var (s1, r) := GetTs(s, c, dst, tid, Tx, true);
    if r.None? then s1 else SetTx(s1, r.value, TxUse(s1.tx[r.value], mayStart))
  }

  function OnQuerySeq(s: DevState, c: Caps, dst: Mac, tid: Byte): DevState
    requires Sound(s)
  {
    var (s1, r) := GetTs(s, c, dst, tid, Tx, true);
    if r.None? then s1
    else SetTx(s1, r.value, NextSeq(s1.tx[r.value]))
  }

  function ApplyReorder(s: DevState, j: nat, a: Outcome): DevState
    requires j < |s.rx|
  {
    SetRx(s, j, s.rx[j].(queue := a.queue)).(free := a.free, indicated := s.indicated + Tagged(j, a.delivered))
  }

  function OnRxData(s: DevState, c: Caps, src: Mac, tid: Byte, sn: SeqNum, rxb: Rxb): DevState
    requires Sound(s)
  {
    var (s1, r) := GetTs(s, c, src, tid, Rx, true);
    if r.None? then s1
    else ApplyReorder(s1, r.value, Arrive(s1.rx[r.value].queue, s1.free, sn, rxb))
  }

  // A timer callback runs once its timer, no longer pending, was pending.
  function OnAddBaTimer(s: DevState, i: nat): DevState
    requires i < |s.tx|
  {
    if !s.tx[i].addBaTimer then s
    else
      var ts := s.tx[i].(addBaTimer := false);
      var (ts', out) := InitAddBa(ts, BA_POLICY_IMMEDIATE, false);
      Send(SetTx(s, i, ts'), ts.common.addr, out)
  }

  function OnSetupTimer(s: DevState, i: nat): DevState
    requires i < |s.tx|
  {
    if !s.tx[i].pending.timer then s
    else SetTx(s, i, SetupTimeout(s.tx[i].(pending := s.tx[i].pending.(timer := false))))
  }

  function OnTxInactTimer(s: DevState, i: nat): DevState
    requires i < |s.tx|
  {
    if !s.tx[i].admitted.timer then s
    else
      var ts := s.tx[i].(admitted := s.tx[i].admitted.(timer := false));
      var (ts', out) := TxInactTimeout(ts);
      Send(SetTx(s, i, ts'), ts.common.addr, out)
  }

  function OnRxInactTimer(s: DevState, j: nat): DevState
    requires j < |s.rx|
  {
    if !s.rx[j].ba.timer then s
    else
      var ts := s.rx[j].(ba := s.rx[j].ba.(timer := false));
      var (ts', out) := RxInactTimeout(ts);
      Send(SetRx(s, j, ts'), ts.common.addr, out)
  }

  function OnPktTimer(s: DevState, j: nat): DevState
    requires j < |s.rx|
  {
    if !s.rx[j].queue.timer then s
    else ApplyReorder(s, j, Timeout(s.rx[j].queue, s.free))
  }

  // ---- Removal ----

  // None selects every stream, Some(addr) those of one peer.
  predicate Selected(c: TsCommon, sel: Option<Mac>) {
    sel.None? || c.addr == sel.value
  }

  function Chosen(l: seq<nat>, ts: seq<TsCommon>, sel: Option<Mac>, keep: bool): (r: seq<nat>)
    requires InRange(l, |ts|)
    ensures InRange(r, |ts|)
    ensures forall i :: i in r <==> i in l && i < |ts| && (Selected(ts[i], sel) != keep)
  {
    if l == [] then []
    else (if Selected(ts[l[0]], sel) != keep then [l[0]] else []) + Chosen(l[1..], ts, sel, keep)
  }

  function ClearedTx(tx: seq<TxTs>, gone: seq<nat>): (r: seq<TxTs>)
    ensures |r| == |tx|
    ensures forall i :: 0 <= i < |tx| ==> r[i] == if i in gone then ClearTx(tx[i]).0 else tx[i]
  {
    seq(|tx|, i requires 0 <= i < |tx| => if i in gone then ClearTx(tx[i]).0 else tx[i])
  }

  function ClearedRx(rx: seq<RxTs>, gone: seq<nat>): (r: seq<RxTs>)
    ensures |r| == |rx|
    ensures forall i :: 0 <= i < |rx| ==> r[i] == if i in gone then ClearRx(rx[i]).0 else rx[i]
  {
    seq(|rx|, i requires 0 <= i < |rx| => if i in gone then ClearRx(rx[i]).0 else rx[i])
  }

  function FarewellsTx(tx: seq<TxTs>, gone: seq<nat>): seq<Frame>
    requires InRange(gone, |tx|)
  {
    if gone == [] then []
    else Frames(tx[gone[0]].common.addr, ClearTx(tx[gone[0]]).1) + FarewellsTx(tx, gone[1..])
  }

  function FarewellsRx(rx: seq<RxTs>, gone: seq<nat>): seq<Frame>
    requires InRange(gone, |rx|)
  {
    if gone == [] then []
    else Frames(rx[gone[0]].common.addr, ClearRx(rx[gone[0]]).1) + FarewellsRx(rx, gone[1..])
  }

  function Released(rx: seq<RxTs>, gone: seq<nat>): seq<Entry>
    requires InRange(gone, |rx|)
  {
    if gone == [] then [] else rx[gone[0]].queue.pending + Released(rx, gone[1..])
  }

  // The selected streams of one list go to the end of the unused list, in order, each
  // cleared and each announcing the end of its agreement.
  function RetireTx(s: DevState, gone: seq<nat>): DevState
    requires Sound(s) && InRange(gone, TOTAL_TS_NUM)
  {
    s.(tx := ClearedTx(s.tx, gone), txl := s.txl.(unused := s.txl.unused + gone),
       sent := s.sent + FarewellsTx(s.tx, gone))
  }

  function RetireRx(s: DevState, gone: seq<nat>): DevState
    requires Sound(s) && InRange(gone, TOTAL_TS_NUM)
  {
    s.(rx := ClearedRx(s.rx, gone), rxl := s.rxl.(unused := s.rxl.unused + gone),
       free := s.free + Released(s.rx, gone), sent := s.sent + FarewellsRx(s.rx, gone))
  }

  function RemoveTx(s: DevState, sel: Option<Mac>): DevState
    requires Sound(s)
  {
    var c := CommonsTx(s.tx);
    var s1 := RetireTx(s, Chosen(s.txl.pend, c, sel, false));
    var s2 := RetireTx(s1, Chosen(s.txl.admit, c, sel, false));
    s2.(txl := s2.txl.(pend := Chosen(s.txl.pend, c, sel, true), admit := Chosen(s.txl.admit, c, sel, true)))
  }

  function RemoveRx(s: DevState, sel: Option<Mac>): DevState
    requires Sound(s)
  {
    var c := CommonsRx(s.rx);
    var s1 := RetireRx(s, Chosen(s.rxl.pend, c, sel, false));
    var s2 := RetireRx(s1, Chosen(s.rxl.admit, c, sel, false));
    s2.(rxl := s2.rxl.(pend := Chosen(s.rxl.pend, c, sel, true), admit := Chosen(s.rxl.admit, c, sel, true)))
  }

  // RemovePeerTS and RemoveAllTS.
  function Remove(s: DevState, sel: Option<Mac>): DevState
    requires Sound(s)
  {
    RemoveRx(RemoveTx(s, sel), sel)
  }
}
