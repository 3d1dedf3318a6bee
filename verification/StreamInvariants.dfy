/**
 What every handler keeps, and what follows for whole runs of the device.
 */
module StreamInvariants {
  import opened Basics
  import opened SequenceNumbers
  import opened RxReorder
  import opened BlockAck
  import opened TrafficStreams

  // ---- Runs ----

  datatype Event =
    | Lookup(addr: Mac, tid: Byte, side: Side, add: bool)
    | AddBaReqIn(src: Mac, token: Byte, param: BaParam, timeout: Word, start: SeqCtrl)
    | AddBaRspIn(src: Mac, token: Byte, status: Word, param: BaParam, timeout: Word)
    | DelBaIn(src: Mac, initiator: Bit, baTid: Nibble)
    | TxData(dst: Mac, tid: Byte, mayStart: bool)
    | QuerySeq(dst: Mac, tid: Byte)
    | RxData(src: Mac, tid: Byte, sn: SeqNum, rxb: Rxb)
    | Timer(kind: TimerKind, i: nat)
    | RemoveTs(sel: Option<Mac>)

  datatype TimerKind = AddBaDelay | BaSetup | TxBaInact | RxBaInact | RxPktPending

  // The capabilities may differ at every event, the interface mode included.
  datatype Input = Input(caps: Caps, event: Event)

  function HandleTimer(s: DevState, kind: TimerKind, i: nat): DevState
    requires Sound(s) && i < TOTAL_TS_NUM
  {
    match kind
    case AddBaDelay => OnAddBaTimer(s, i)
    case BaSetup => OnSetupTimer(s, i)
    case TxBaInact => OnTxInactTimer(s, i)
    case RxBaInact => OnRxInactTimer(s, i)
    case RxPktPending => OnPktTimer(s, i)
  }

  function Handle(s: DevState, x: Input): DevState
    requires Sound(s)
  {
    var c := x.caps;
    match x.event
    case Lookup(addr, tid, side, add) => GetTs(s, c, addr, tid, side, add).0
    case AddBaReqIn(src, token, param, timeout, start) => OnAddBaReq(s, c, src, token, param, timeout, start)
    case AddBaRspIn(src, token, status, param, timeout) => OnAddBaRsp(s, c, src, token, status, param, timeout)
    case DelBaIn(src, initiator, tid) => OnDelBa(s, c, src, initiator, tid)
    case TxData(dst, tid, mayStart) => OnTxData(s, c, dst, tid, mayStart)
    case QuerySeq(dst, tid) => OnQuerySeq(s, c, dst, tid)
    case RxData(src, tid, sn, rxb) => OnRxData(s, c, src, tid, sn, rxb)
    case Timer(kind, i) => if i < TOTAL_TS_NUM then HandleTimer(s, kind, i) else s
    case RemoveTs(sel) => Remove(s, sel)
  }

  // ---- Invariants of records ----

  predicate UserPriorityValue(u: Nibble) {
    u == 0 || u == 2 || u == 5 || u == 7
  }

  // The access classes: best effort, background, video and voice, each named by one of its two TIDs.
  predicate InClass(tid: Byte, u: Nibble) {
    || (u == 0 && (tid == 0 || tid == 3))
    || (u == 2 && (tid == 1 || tid == 2))
    || (u == 5 && (tid == 4 || tid == 5))
    || (u == 7 && (tid == 6 || tid == 7))
  }

  // What a TID stands for: its class with QoS support, and 0 without.
  predicate Means(qosSupported: bool, tid: Byte, u: Nibble) {
    if qosSupported then InClass(tid, u) else u == 0
  }

  lemma PriorityMeans(q: bool, tid: Byte, u: Nibble)
    ensures UserPriority(q, tid) == Some(u) <==> Means(q, tid, u)
    ensures UserPriority(q, tid).None? <==> q && tid > 7
  {
  }

  // Some setting of the QoS support folds tid to u.
  predicate FoldsTo(tid: Nibble, u: Nibble) {
    u == 0 || InClass(tid, u)
  }

  predicate KeyOk(c: TsCommon) {
    && !c.setupTimer && !c.inactTimer
    && UserPriorityValue(c.tsid)
    && (c.dir == Up || c.dir == Down)
    && !IsMulticast(c.addr)
  }

  // A transmit record in use.
  predicate TxLive(ts: TxTs) {
    && KeyOk(ts.common)
    && (ts.pending.valid <==> ts.pending.timer)
    && (ts.admitted.timer ==> ts.admitted.valid)
    && (ts.inProgress ==> ts.addBaTimer || ts.pending.valid)
    && (ts.inProgress ==> !ts.admitted.valid)
    && (ts.pending.valid || ts.admitted.valid ==> ts.pending.param.tid == ts.common.tsid)
    && (ts.admitted.valid ==> FoldsTo(ts.admitted.param.tid, ts.common.tsid))
  }

  // A transmit record waiting in the unused list: nothing valid, no timer pending.
  predicate TxIdle(ts: TxTs) {
    && !ts.common.setupTimer && !ts.common.inactTimer && !ts.addBaTimer
    && !ts.pending.timer && !ts.pending.valid && !ts.admitted.timer && !ts.admitted.valid
  }

  ghost predicate RxLive(ts: RxTs) {
    && KeyOk(ts.common) && QueueInv(ts.queue)
    && !ts.ba.timer
    && (ts.ba.valid ==> FoldsTo(ts.ba.param.tid, ts.common.tsid))
  }

  predicate RxIdle(ts: RxTs) {
    && !ts.common.setupTimer && !ts.common.inactTimer
    && !ts.ba.timer && !ts.ba.valid
    && !ts.queue.timer && ts.queue.pending == []
  }

  // ---- Invariants of the tables ----

  ghost predicate Distinct(a: seq<nat>) {
    forall p, q :: 0 <= p < q < |a| ==> a[p] != a[q]
  }

  // Every record is in exactly one list, once; nothing is ever pending admission.
  ghost predicate ListsOk(l: Lists) {
    && InRange(l.unused, TOTAL_TS_NUM) && InRange(l.admit, TOTAL_TS_NUM) && l.pend == []
    && Distinct(l.unused) && Distinct(l.admit)
    && forall i :: 0 <= i < TOTAL_TS_NUM ==> (i in l.unused <==> i !in l.admit)
  }

  ghost predicate KeysUnique(admit: seq<nat>, ts: seq<TsCommon>) {
    forall i, j :: i in admit && j in admit && i < |ts| && j < |ts| && i != j ==>
      !IsKey(ts[i], ts[j].addr, ts[j].tsid, ts[j].dir)
  }

  ghost predicate TxOk(l: Lists, tx: seq<TxTs>) {
    && |tx| == TOTAL_TS_NUM && ListsOk(l)
    && (forall i :: 0 <= i < |tx| && i in l.admit ==> TxLive(tx[i]))
    && (forall i :: 0 <= i < |tx| && i in l.unused ==> TxIdle(tx[i]))
    && KeysUnique(l.admit, CommonsTx(tx))
  }

  ghost predicate RxOk(l: Lists, rx: seq<RxTs>) {
    && |rx| == TOTAL_TS_NUM && ListsOk(l)
    && (forall i :: 0 <= i < |rx| && i in l.admit ==> RxLive(rx[i]))
    && (forall i :: 0 <= i < |rx| && i in l.unused ==> RxIdle(rx[i]))
    && KeysUnique(l.admit, CommonsRx(rx))
  }

  // The pool nodes buffered in the first n streams.
  ghost function Buffered(rx: seq<RxTs>): multiset<nat> {
    if rx == [] then multiset{}
    else Buffered(rx[..|rx| - 1]) + multiset(Ids(rx[|rx| - 1].queue.pending))
  }

  // Every pool node is in exactly one place: the free list or one stream's pending list.
  ghost predicate PoolOk(free: seq<Entry>, rx: seq<RxTs>) {
    forall id: nat :: (multiset(Ids(free)) + Buffered(rx))[id] == if id < REORDER_ENTRY_NUM then 1 else 0
  }

  ghost predicate DevInv(s: DevState) {
    TxOk(s.txl, s.tx) && RxOk(s.rxl, s.rx) && PoolOk(s.free, s.rx)
  }

  // ---- Lists ----

  lemma DevSound(s: DevState)
    requires DevInv(s)
    ensures Sound(s)
  {
  }

  // ---- Lookup ----

  // Streams only ever carry one direction of each mode, so the search is a search for one key.
  lemma SearchFinds(mode: IwMode, side: Side, l: seq<nat>, ts: seq<TsCommon>, addr: Mac, tsid: Nibble)
    requires InRange(l, |ts|)
    requires forall i :: 0 <= i < |ts| && i in l ==> ts[i].dir == Up || ts[i].dir == Down
    ensures var r := Search(mode, side, l, ts, addr, tsid);
      if r.Some? then r.value in l && r.value < |ts| && IsKey(ts[r.value], addr, tsid, AddedDir(mode, side))
      else !HasKey(l, ts, addr, tsid, AddedDir(mode, side))
  {
    var c := DirFirst(mode, side, l, ts, addr, tsid, Direct);
    var d := DirFirst(mode, side, l, ts, addr, tsid, BiDir);
    assert c.None? && d.None?;
  }

  lemma UserPriorities(q: bool, tid: Byte)
    ensures UserPriority(q, tid).Some? ==> UserPriorityValue(UserPriority(q, tid).value)
    ensures UserPriority(q, tid).Some? && tid < 16 ==> FoldsTo(tid, UserPriority(q, tid).value)
  {
  }

  // ---- Updates of one record ----

  lemma TxUpdate(l: Lists, tx: seq<TxTs>, i: nat, ts: TxTs)
    requires TxOk(l, tx) && i in l.admit && i < TOTAL_TS_NUM
    requires TxLive(ts) && ts.common == tx[i].common
    ensures TxOk(l, tx[i := ts])
  {
    assert CommonsTx(tx[i := ts]) == CommonsTx(tx);
  }

  lemma RxUpdate(l: Lists, rx: seq<RxTs>, j: nat, ts: RxTs)
    requires RxOk(l, rx) && j in l.admit && j < TOTAL_TS_NUM
    requires RxLive(ts) && ts.common == rx[j].common
    ensures RxOk(l, rx[j := ts])
  {
    assert CommonsRx(rx[j := ts]) == CommonsRx(rx);
  }

  lemma Exchange(a: multiset<nat>, a': multiset<nat>, x: multiset<nat>, y: multiset<nat>, z: multiset<nat>)
    requires a' + x == a + y
    ensures (a' + z) + x == (a + z) + y
  {
    assert (a' + z) + x == (a' + x) + z;
  }

  lemma {:induction false} BufferedUpdate(rx: seq<RxTs>, j: nat, ts: RxTs)
    requires j < |rx|
    ensures Buffered(rx[j := ts]) + multiset(Ids(rx[j].queue.pending)) == Buffered(rx) + multiset(Ids(ts.queue.pending))
    decreases |rx|
  {
    hide Ids;
    var n := |rx| - 1;
    var rx' := rx[j := ts];
    var front := rx[..n];
    if j < n {
      BufferedUpdate(front, j, ts);
      assert rx'[..n] == front[j := ts];
      assert rx'[n] == rx[n] && front[j] == rx[j];
      Exchange(Buffered(front), Buffered(front[j := ts]), multiset(Ids(rx[j].queue.pending)),
               multiset(Ids(ts.queue.pending)), multiset(Ids(rx[n].queue.pending)));
    } else {
      assert rx'[..n] == front;
    }
  }

  lemma PoolUpdate(free: seq<Entry>, rx: seq<RxTs>, j: nat, ts: RxTs, free': seq<Entry>)
    requires PoolOk(free, rx) && j < |rx|
    requires multiset(Ids(ts.queue.pending)) + multiset(Ids(free'))
      == multiset(Ids(rx[j].queue.pending)) + multiset(Ids(free))
    ensures PoolOk(free', rx[j := ts])
  {
    BufferedUpdate(rx, j, ts);
    var x, y := multiset(Ids(rx[j].queue.pending)), multiset(Ids(ts.queue.pending));
    var f, f' := multiset(Ids(free)), multiset(Ids(free'));
    var b, b' := Buffered(rx), Buffered(rx[j := ts]);
    forall id: nat ensures (f' + b')[id] == (f + b)[id] {
      assert (b' + x)[id] == (b + y)[id];
      assert (y + f')[id] == (x + f)[id];
    }
  }

  // ---- GetTs ----

  lemma TakeFirst(l: Lists)
    requires ListsOk(l) && l.unused != []
    ensures ListsOk(l.(unused := l.unused[1..], admit := l.admit + [l.unused[0]]))
    ensures l.unused[0] in l.unused && l.unused[0] !in l.unused[1..]
  {
    var i, u, a := l.unused[0], l.unused[1..], l.admit + [l.unused[0]];
    assert forall k :: 0 <= k < |u| ==> u[k] == l.unused[k + 1];
    forall k: nat ensures k in l.unused <==> k == i || k in u {
      if k in l.unused {
        var p :| 0 <= p < |l.unused| && l.unused[p] == k;
        assert p == 0 || u[p - 1] == k;
      }
    }
    assert i !in l.admit;
  }

  ghost predicate HasKey(l: seq<nat>, ts: seq<TsCommon>, addr: Mac, tsid: Nibble, dir: Dir) {
    exists i :: 0 <= i < |ts| && i in l && IsKey(ts[i], addr, tsid, dir)
  }

  lemma TxAdd(l: Lists, tx: seq<TxTs>, c: TsCommon)
    requires TxOk(l, tx) && l.unused != [] && KeyOk(c)
    requires !HasKey(l.admit, CommonsTx(tx), c.addr, c.tsid, c.dir)
    ensures var i := l.unused[0];
      TxOk(l.(unused := l.unused[1..], admit := l.admit + [i]), tx[i := ResetTx(tx[i]).(common := c)])
  {
    TakeFirst(l);
    var i := l.unused[0];
    var ts := ResetTx(tx[i]).(common := c);
    assert TxLive(ts);
    var tx' := tx[i := ts];
    assert forall k :: 0 <= k < |tx| && k != i ==> CommonsTx(tx')[k] == CommonsTx(tx)[k];
  }

  lemma RxAdd(l: Lists, rx: seq<RxTs>, c: TsCommon)
    requires RxOk(l, rx) && l.unused != [] && KeyOk(c)
    requires !HasKey(l.admit, CommonsRx(rx), c.addr, c.tsid, c.dir)
    ensures var i := l.unused[0];
      RxOk(l.(unused := l.unused[1..], admit := l.admit + [i]), rx[i := ResetRx(rx[i]).(common := c)])
  {
    TakeFirst(l);
    var i := l.unused[0];
    var ts := ResetRx(rx[i]).(common := c);
    assert RxIdle(rx[i]);
    assert ts.queue == EMPTY_QUEUE;
    assert RxLive(ts);
    var rx' := rx[i := ts];
    assert forall k :: 0 <= k < |rx| && k != i ==> CommonsRx(rx')[k] == CommonsRx(rx)[k];
  }

  lemma AddTxKeeps(s: DevState, mode: IwMode, addr: Mac, up: Nibble)
    requires DevInv(s) && Sound(s) && !IsMulticast(addr) && UserPriorityValue(up)
    requires !HasKey(s.txl.admit, CommonsTx(s.tx), addr, up, AddedDir(mode, Tx)) && s.txl.unused != []
    ensures DevInv(AddTs(s, mode, addr, up, Tx).0)
  {
    var c := TsCommon(addr, up, AddedDir(mode, Tx), false, false);
    TxAdd(s.txl, s.tx, c);
  }

  lemma AddRxKeeps(s: DevState, mode: IwMode, addr: Mac, up: Nibble)
    requires DevInv(s) && Sound(s) && !IsMulticast(addr) && UserPriorityValue(up)
    requires !HasKey(s.rxl.admit, CommonsRx(s.rx), addr, up, AddedDir(mode, Rx)) && s.rxl.unused != []
    ensures DevInv(AddTs(s, mode, addr, up, Rx).0)
  {
    var c := TsCommon(addr, up, AddedDir(mode, Rx), false, false);
    RxAdd(s.rxl, s.rx, c);
    var i := s.rxl.unused[0];
    assert i in s.rxl.unused && RxIdle(s.rx[i]);
    PoolUpdate(s.free, s.rx, i, ResetRx(s.rx[i]).(common := c), s.free);
  }

  lemma AddTsKeeps(s: DevState, mode: IwMode, addr: Mac, up: Nibble, side: Side)
    requires DevInv(s) && Sound(s) && !IsMulticast(addr) && UserPriorityValue(up)
    requires !HasKey(ListsOf(s, side).admit, Commons(s, side), addr, up, AddedDir(mode, side))
    ensures DevInv(AddTs(s, mode, addr, up, side).0)
  {
    if ListsOf(s, side).unused != [] {
      if side == Tx { AddTxKeeps(s, mode, addr, up); } else { AddRxKeeps(s, mode, addr, up); }
    }
  }

  ghost predicate InUse(s: DevState, side: Side, i: nat) {
    i < |Commons(s, side)| && i in ListsOf(s, side).admit
  }

  lemma AddTsMeaning(s: DevState, mode: IwMode, addr: Mac, up: Nibble, side: Side)
    requires Sound(s)
    ensures var r := AddTs(s, mode, addr, up, side);
      && (r.1.Some? <==> ListsOf(s, side).unused != [])
      && (r.1.None? ==> r.0 == s)
      && (r.1.Some? ==> InUse(r.0, side, r.1.value)
                        && Commons(r.0, side)[r.1.value] == TsCommon(addr, up, AddedDir(mode, side), false, false))
  {
  }

  // The invariant says of either side what the search needs.
  lemma SideKeys(s: DevState, side: Side)
    requires DevInv(s)
    ensures InRange(ListsOf(s, side).admit, |Commons(s, side)|) && |Commons(s, side)| == TOTAL_TS_NUM
    ensures forall i :: 0 <= i < TOTAL_TS_NUM && i in ListsOf(s, side).admit ==> KeyOk(Commons(s, side)[i])
    ensures KeysUnique(ListsOf(s, side).admit, Commons(s, side))
  {
  }

  lemma GetTsKeeps(s: DevState, c: Caps, addr: Mac, tid: Byte, side: Side, add: bool)
    requires DevInv(s) && Sound(s)
    ensures DevInv(GetTs(s, c, addr, tid, side, add).0)
  {
    hide Search, AddTs;
    var up := UserPriority(c.qosSupported, tid);
    UserPriorities(c.qosSupported, tid);
    if !IsMulticast(addr) && up.Some? {
      SideKeys(s, side);
      SearchFinds(c.mode, side, ListsOf(s, side).admit, Commons(s, side), addr, up.value);
      if Search(c.mode, side, ListsOf(s, side).admit, Commons(s, side), addr, up.value).None? && add {
        AddTsKeeps(s, c.mode, addr, up.value, side);
      }
    }
  }

  // The stream r of state s carries addr and the user priority of tid.
  ghost predicate Carries(s: DevState, c: Caps, side: Side, r: nat, addr: Mac, tid: Byte) {
    && UserPriority(c.qosSupported, tid).Some? && !IsMulticast(addr) && InUse(s, side, r)
    && IsKey(Commons(s, side)[r], addr, UserPriority(c.qosSupported, tid).value, AddedDir(c.mode, side))
  }

  // GetTs finds the stream of (addr, user priority), or adds it if asked to; with a valid
  // unicast key and adding allowed it fails only for want of an unused record.
  lemma GetTsMeaning(s: DevState, c: Caps, addr: Mac, tid: Byte, side: Side, add: bool)
    requires DevInv(s) && Sound(s)
    ensures var r := GetTs(s, c, addr, tid, side, add);
      && (r.1.None? ==> r.0 == s)
      && (r.1.None? && add && !IsMulticast(addr) && UserPriority(c.qosSupported, tid).Some? ==>
        ListsOf(s, side).unused == [])
      && (r.1.Some? ==> Carries(r.0, c, side, r.1.value, addr, tid))
  {
    hide Search, AddTs;
    var up := UserPriority(c.qosSupported, tid);
    if !IsMulticast(addr) && up.Some? {
      SideKeys(s, side);
      SearchFinds(c.mode, side, ListsOf(s, side).admit, Commons(s, side), addr, up.value);
      if Search(c.mode, side, ListsOf(s, side).admit, Commons(s, side), addr, up.value).None? && add {
        AddTsMeaning(s, c.mode, addr, up.value, side);
      }
    }
  }

  // ---- Records under the handlers ----

  lemma TxHandlersLive(ts: TxTs, mayStart: bool)
    requires TxLive(ts)
    ensures TxLive(TxOnDelBa(ts)) && TxOnDelBa(ts).common == ts.common
    ensures TxLive(TxUse(ts, mayStart)) && TxUse(ts, mayStart).common == ts.common
    ensures TxLive(NextSeq(ts)) && NextSeq(ts).common == ts.common
  {
  }

  lemma TxTimersLive(ts: TxTs)
    requires TxLive(ts)
    ensures ts.addBaTimer ==> TxLive(InitAddBa(ts.(addBaTimer := false), BA_POLICY_IMMEDIATE, false).0)
    ensures InitAddBa(ts.(addBaTimer := false), BA_POLICY_IMMEDIATE, false).0.common == ts.common
    ensures ts.pending.timer ==> TxLive(SetupTimeout(ts.(pending := ts.pending.(timer := false))))
    ensures ts.admitted.timer ==> TxLive(TxInactTimeout(ts.(admitted := ts.admitted.(timer := false))).0)
  {
  }

  lemma TxOnRspLive(ts: TxTs, token: Byte, status: Word, param: BaParam, timeout: Word)
    requires TxLive(ts) && FoldsTo(param.tid, ts.common.tsid)
    ensures TxLive(TxOnRsp(ts, token, status, param, timeout).0)
    ensures TxOnRsp(ts, token, status, param, timeout).0.common == ts.common
  {
  }

  lemma RxHandlersLive(ts: RxTs, token: Byte, param: BaParam, timeout: Word, start: SeqCtrl, oneFrame: bool)
    requires RxLive(ts)
    ensures RxLive(RxDeleteBa(ts).0)
    ensures FoldsTo(param.tid, ts.common.tsid) ==> RxLive(RxOnReq(ts, token, param, timeout, start, oneFrame).0)
  {
  }

  lemma ClearTxIdle(ts: TxTs)
    requires TxLive(ts)
    ensures TxIdle(ClearTx(ts).0) && ClearTx(ts).0.common == ts.common
  {
  }

  lemma ClearRxIdle(ts: RxTs)
    requires RxLive(ts)
    ensures RxIdle(ClearRx(ts).0) && ClearRx(ts).0.common == ts.common
  {
  }

  // ---- The device under the handlers ----

  lemma SetTxKeeps(s: DevState, i: nat, ts: TxTs)
    requires DevInv(s) && i < TOTAL_TS_NUM && i in s.txl.admit
    requires TxLive(ts) && ts.common == s.tx[i].common
    ensures DevInv(SetTx(s, i, ts))
  {
    TxUpdate(s.txl, s.tx, i, ts);
  }

  lemma SetRxKeeps(s: DevState, j: nat, ts: RxTs, free: seq<Entry>)
    requires DevInv(s) && j < TOTAL_TS_NUM && j in s.rxl.admit
    requires RxLive(ts) && ts.common == s.rx[j].common
    requires multiset(Ids(ts.queue.pending)) + multiset(Ids(free))
      == multiset(Ids(s.rx[j].queue.pending)) + multiset(Ids(s.free))
    ensures DevInv(SetRx(s, j, ts).(free := free))
  {
    RxUpdate(s.rxl, s.rx, j, ts);
    PoolUpdate(s.free, s.rx, j, ts, free);
  }

  // The transmit record a successful GetTs returns is in use.
  lemma GotTx(s: DevState, c: Caps, addr: Mac, tid: Byte, add: bool)
    requires DevInv(s) && Sound(s)
    ensures var r := GetTs(s, c, addr, tid, Tx, add);
      && DevInv(r.0)
      && (r.1.Some? ==> r.1.value in r.0.txl.admit && TxLive(r.0.tx[r.1.value]))
      && (r.1.Some? && tid < 16 ==> FoldsTo(tid, r.0.tx[r.1.value].common.tsid))
  {
    GetTsKeeps(s, c, addr, tid, Tx, add);
    GetTsMeaning(s, c, addr, tid, Tx, add);
    UserPriorities(c.qosSupported, tid);
  }

  lemma GotRx(s: DevState, c: Caps, addr: Mac, tid: Byte, add: bool)
    requires DevInv(s) && Sound(s)
    ensures var r := GetTs(s, c, addr, tid, Rx, add);
      && DevInv(r.0)
      && (r.1.Some? ==> r.1.value in r.0.rxl.admit && RxLive(r.0.rx[r.1.value]))
      && (r.1.Some? && tid < 16 ==> FoldsTo(tid, r.0.rx[r.1.value].common.tsid))
  {
    GetTsKeeps(s, c, addr, tid, Rx, add);
    GetTsMeaning(s, c, addr, tid, Rx, add);
    UserPriorities(c.qosSupported, tid);
  }

  lemma ReqKeeps(s: DevState, c: Caps, src: Mac, token: Byte, param: BaParam, timeout: Word, start: SeqCtrl)
    requires DevInv(s) && Sound(s)
    ensures DevInv(OnAddBaReq(s, c, src, token, param, timeout, start))
  {
    hide GetTs, FoldsTo;
    GotRx(s, c, src, param.tid, true);
    var (s1, r) := GetTs(s, c, src, param.tid, Rx, true);
    if r.Some? {
      RxHandlersLive(s1.rx[r.value], token, param, timeout, start, c.oneFrame);
      SetRxKeeps(s1, r.value, RxOnReq(s1.rx[r.value], token, param, timeout, start, c.oneFrame).0, s1.free);
    }
  }

  lemma RspKeeps(s: DevState, c: Caps, src: Mac, token: Byte, status: Word, param: BaParam, timeout: Word)
    requires DevInv(s) && Sound(s)
    ensures DevInv(OnAddBaRsp(s, c, src, token, status, param, timeout))
  {
    hide GetTs, FoldsTo;
    GotTx(s, c, src, param.tid, false);
    var (s1, r) := GetTs(s, c, src, param.tid, Tx, false);
    if r.Some? {
      TxOnRspLive(s1.tx[r.value], token, status, param, timeout);
      SetTxKeeps(s1, r.value, TxOnRsp(s1.tx[r.value], token, status, param, timeout).0);
    }
  }

  lemma DelBaKeeps(s: DevState, c: Caps, src: Mac, initiator: Bit, tid: Nibble)
    requires DevInv(s) && Sound(s)
    ensures DevInv(OnDelBa(s, c, src, initiator, tid))
  {
    hide GetTs, FoldsTo;
    if initiator == 1 {
      GotRx(s, c, src, tid, false);
      var (s1, r) := GetTs(s, c, src, tid, Rx, false);
      if r.Some? {
        RxHandlersLive(s1.rx[r.value], 0, NO_PARAM, 0, SeqCtrl(0, 0), false);
        SetRxKeeps(s1, r.value, RxDeleteBa(s1.rx[r.value]).0, s1.free);
      }
    } else {
      GotTx(s, c, src, tid, false);
      var (s1, r) := GetTs(s, c, src, tid, Tx, false);
      if r.Some? {
        TxHandlersLive(s1.tx[r.value], false);
        SetTxKeeps(s1, r.value, TxOnDelBa(s1.tx[r.value]));
      }
    }
  }

  lemma TxDataKeeps(s: DevState, c: Caps, dst: Mac, tid: Byte, mayStart: bool)
    requires DevInv(s) && Sound(s)
    ensures DevInv(OnTxData(s, c, dst, tid, mayStart))
  {
    hide GetTs, FoldsTo;
    GotTx(s, c, dst, tid, true);
    var (s1, r) := GetTs(s, c, dst, tid, Tx, true);
    if r.Some? {
      TxHandlersLive(s1.tx[r.value], mayStart);
      SetTxKeeps(s1, r.value, TxUse(s1.tx[r.value], mayStart));
    }
  }

  lemma QuerySeqKeeps(s: DevState, c: Caps, dst: Mac, tid: Byte)
    requires DevInv(s) && Sound(s)
    ensures DevInv(OnQuerySeq(s, c, dst, tid))
  {
    hide GetTs, FoldsTo;
    GotTx(s, c, dst, tid, true);
    var (s1, r) := GetTs(s, c, dst, tid, Tx, true);
    if r.Some? {
      TxHandlersLive(s1.tx[r.value], false);
      SetTxKeeps(s1, r.value, NextSeq(s1.tx[r.value]));
    }
  }

  lemma RxPathKeeps(s: DevState, c: Caps, src: Mac, tid: Byte, sn: SeqNum, rxb: Rxb)
    requires DevInv(s) && Sound(s)
    ensures DevInv(OnRxData(s, c, src, tid, sn, rxb))
  {
    hide GetTs, FoldsTo;
    GotRx(s, c, src, tid, true);
    var (s1, r) := GetTs(s, c, src, tid, Rx, true);
    if r.Some? {
      var q := s1.rx[r.value].queue;
      ArriveKeepsQueue(q, s1.free, sn, rxb);
      ArriveConserves(q, s1.free, sn, rxb);
      var a := Arrive(q, s1.free, sn, rxb);
      SetRxKeeps(s1, r.value, s1.rx[r.value].(queue := a.queue), a.free);
    }
  }

  // An armed timer is the timer of a record in use.
  lemma ArmedInUse(s: DevState, i: nat)
    requires DevInv(s) && i < TOTAL_TS_NUM
    ensures s.tx[i].addBaTimer || s.tx[i].pending.timer || s.tx[i].admitted.timer ==>
      i in s.txl.admit && TxLive(s.tx[i])
    ensures s.rx[i].queue.timer ==> i in s.rxl.admit && RxLive(s.rx[i])
    ensures !s.rx[i].ba.timer
  {
  }

  lemma TxTimersKeep(s: DevState, i: nat)
    requires DevInv(s) && i < TOTAL_TS_NUM && i in s.txl.admit
    ensures DevInv(OnAddBaTimer(s, i)) && DevInv(OnSetupTimer(s, i)) && DevInv(OnTxInactTimer(s, i))
  {
    var ts := s.tx[i];
    TxTimersLive(ts);
    if ts.addBaTimer {
      SetTxKeeps(s, i, InitAddBa(ts.(addBaTimer := false), BA_POLICY_IMMEDIATE, false).0);
    }
    if ts.pending.timer {
      SetTxKeeps(s, i, SetupTimeout(ts.(pending := ts.pending.(timer := false))));
    }
    if ts.admitted.timer {
      SetTxKeeps(s, i, TxInactTimeout(ts.(admitted := ts.admitted.(timer := false))).0);
    }
  }

  lemma TimerKeeps(s: DevState, kind: TimerKind, i: nat)
    requires DevInv(s) && Sound(s) && i < TOTAL_TS_NUM
    ensures DevInv(HandleTimer(s, kind, i))
  {
    ArmedInUse(s, i);
    match kind {
      case RxPktPending => PktTimerKeeps(s, i);
      case RxBaInact =>
      case _ => if i in s.txl.admit { TxTimersKeep(s, i); }
    }
  }

  lemma PktTimerKeeps(s: DevState, j: nat)
    requires DevInv(s) && j < TOTAL_TS_NUM
    ensures DevInv(OnPktTimer(s, j))
  {
    ArmedInUse(s, j);
    var q := s.rx[j].queue;
    if q.timer {
      TimeoutKeepsQueue(q, s.free);
      TimeoutConserves(q, s.free);
      var a := Timeout(q, s.free);
      SetRxKeeps(s, j, s.rx[j].(queue := a.queue), a.free);
    }
  }

  // ---- Removal ----

  lemma {:induction false} ChosenDistinct(l: seq<nat>, ts: seq<TsCommon>, sel: Option<Mac>, keep: bool)
    requires InRange(l, |ts|) && Distinct(l)
    ensures Distinct(Chosen(l, ts, sel, keep))
  {
    if l != [] {
      assert forall k :: 0 <= k < |l[1..]| ==> l[1..][k] == l[k + 1];
      ChosenDistinct(l[1..], ts, sel, keep);
    }
  }

  lemma RetireLists(l: Lists, ts: seq<TsCommon>, sel: Option<Mac>)
    requires ListsOk(l) && |ts| == TOTAL_TS_NUM
    ensures ListsOk(l.(unused := l.unused + Chosen(l.admit, ts, sel, false), admit := Chosen(l.admit, ts, sel, true)))
  {
    ChosenDistinct(l.admit, ts, sel, false);
    ChosenDistinct(l.admit, ts, sel, true);
    var n, gone := |l.unused|, Chosen(l.admit, ts, sel, false);
    var u := l.unused + gone;
    forall p, q | 0 <= p < q < |u| ensures u[p] != u[q] {
      assert p < n ==> u[p] in l.unused;
      assert q >= n ==> u[q] == gone[q - n] && u[q] in l.admit;
    }
  }

  lemma RetireTxKeeps(l: Lists, tx: seq<TxTs>, sel: Option<Mac>)
    requires TxOk(l, tx)
    ensures var c := CommonsTx(tx);
      var gone := Chosen(l.admit, c, sel, false);
      TxOk(l.(unused := l.unused + gone, admit := Chosen(l.admit, c, sel, true)), ClearedTx(tx, gone))
  {
    var c := CommonsTx(tx);
    var gone := Chosen(l.admit, c, sel, false);
    RetireLists(l, c, sel);
    var tx' := ClearedTx(tx, gone);
    forall i | 0 <= i < |tx| && i in gone ensures TxIdle(tx'[i]) {
      ClearTxIdle(tx[i]);
    }
    forall i | 0 <= i < |tx| && i in l.admit ensures CommonsTx(tx')[i] == c[i] {
      ClearTxIdle(tx[i]);
    }
  }

  lemma RetireRxKeeps(l: Lists, rx: seq<RxTs>, sel: Option<Mac>)
    requires RxOk(l, rx)
    ensures var c := CommonsRx(rx);
      var gone := Chosen(l.admit, c, sel, false);
      RxOk(l.(unused := l.unused + gone, admit := Chosen(l.admit, c, sel, true)), ClearedRx(rx, gone))
  {
    var c := CommonsRx(rx);
    var gone := Chosen(l.admit, c, sel, false);
    RetireLists(l, c, sel);
    var rx' := ClearedRx(rx, gone);
    forall i | 0 <= i < |rx| && i in gone ensures RxIdle(rx'[i]) {
      ClearRxIdle(rx[i]);
    }
    forall i | 0 <= i < |rx| && i in l.admit ensures CommonsRx(rx')[i] == c[i] {
      ClearRxIdle(rx[i]);
    }
  }

  lemma {:induction false} ReleasedFrame(rx: seq<RxTs>, rx': seq<RxTs>, gone: seq<nat>)
    requires |rx| == |rx'| && InRange(gone, |rx|)
    requires forall i :: i in gone ==> rx[i].queue.pending == rx'[i].queue.pending
    ensures Released(rx, gone) == Released(rx', gone)
  {
    if gone != [] {
      assert gone[0] in gone && forall i :: i in gone[1..] ==> i in gone;
      ReleasedFrame(rx, rx', gone[1..]);
    }
  }

  // Retiring a list of streams is retiring the first and then the others.
  lemma ClearedStep(rx: seq<RxTs>, gone: seq<nat>)
    requires InRange(gone, |rx|) && Distinct(gone) && gone != []
    ensures var g, rest := gone[0], gone[1..];
      var rx1 := rx[g := ClearRx(rx[g]).0];
      && ClearedRx(rx1, rest) == ClearedRx(rx, gone)
      && Released(rx, gone) == rx[g].queue.pending + Released(rx1, rest)
  {
    var g, rest := gone[0], gone[1..];
    var rx1 := rx[g := ClearRx(rx[g]).0];
    HeadTail(gone);
    ReleasedFrame(rx, rx1, rest);
    forall i | 0 <= i < |rx| ensures ClearedRx(rx1, rest)[i] == ClearedRx(rx, gone)[i] {
      assert i in gone <==> i == g || i in rest;
    }
  }

  lemma HeadTail(gone: seq<nat>)
    requires Distinct(gone) && gone != []
    ensures gone[0] !in gone[1..] && Distinct(gone[1..])
    ensures forall i :: i in gone <==> i == gone[0] || i in gone[1..]
  {
    var rest := gone[1..];
    assert gone == [gone[0]] + rest;
    assert forall k :: 0 <= k < |rest| ==> rest[k] == gone[k + 1];
  }

  lemma PoolClear(free: seq<Entry>, rx: seq<RxTs>, g: nat)
    requires PoolOk(free, rx) && g < |rx|
    ensures PoolOk(free + rx[g].queue.pending, rx[g := ClearRx(rx[g]).0])
  {
    IdsConcat(free, rx[g].queue.pending);
    PoolUpdate(free, rx, g, ClearRx(rx[g]).0, free + rx[g].queue.pending);
  }

  // Freeing the pending lists of the removed streams loses no pool node.
  lemma {:induction false} PoolRetire(free: seq<Entry>, rx: seq<RxTs>, gone: seq<nat>)
    requires PoolOk(free, rx) && InRange(gone, |rx|) && Distinct(gone)
    ensures PoolOk(free + Released(rx, gone), ClearedRx(rx, gone))
    decreases |gone|
  {
    if gone == [] {
      assert ClearedRx(rx, gone) == rx && free + [] == free;
    } else {
      var g, rest := gone[0], gone[1..];
      assert Distinct(rest);
      var rx1 := rx[g := ClearRx(rx[g]).0];
      var p := rx[g].queue.pending;
      PoolClear(free, rx, g);
      PoolRetire(free + p, rx1, rest);
      ClearedStep(rx, gone);
      assert free + p + Released(rx1, rest) == free + Released(rx, gone);
    }
  }

  lemma RetireNoneTx(s: DevState)
    requires Sound(s)
    ensures RetireTx(s, []) == s
  {
    assert ClearedTx(s.tx, []) == s.tx && s.txl.unused + [] == s.txl.unused && s.sent + [] == s.sent;
  }

  lemma RetireNoneRx(s: DevState)
    requires Sound(s)
    ensures RetireRx(s, []) == s
  {
    assert ClearedRx(s.rx, []) == s.rx && s.rxl.unused + [] == s.rxl.unused && s.sent + [] == s.sent;
    assert s.free + [] == s.free;
  }

  lemma RemoveTxKeeps(s: DevState, sel: Option<Mac>)
    requires DevInv(s) && Sound(s)
    ensures DevInv(RemoveTx(s, sel)) && Sound(RemoveTx(s, sel))
  {
    RetireNoneTx(s);
    RetireTxKeeps(s.txl, s.tx, sel);
  }

  lemma RemoveRxKeeps(s: DevState, sel: Option<Mac>)
    requires DevInv(s) && Sound(s)
    ensures DevInv(RemoveRx(s, sel))
  {
    RetireNoneRx(s);
    RetireRxKeeps(s.rxl, s.rx, sel);
    var gone := Chosen(s.rxl.admit, CommonsRx(s.rx), sel, false);
    ChosenDistinct(s.rxl.admit, CommonsRx(s.rx), sel, false);
    PoolRetire(s.free, s.rx, gone);
  }

  // ---- Whole runs ----

  const IDLE_BA := BaRecord(false, false, 0, NO_PARAM, 0, SeqCtrl(0, 0))
  const IDLE_TX := TxTs(NO_COMMON, 0, IDLE_BA, IDLE_BA, false, false, false, false, false)
  const IDLE_RX := RxTs(NO_COMMON, EMPTY_QUEUE, IDLE_BA)

  function Upto(n: nat): (r: seq<nat>)
    ensures |r| == n && forall i :: 0 <= i < n ==> r[i] == i
  {
    seq(n, i => i)
  }

  // The state TSInitialize sets up, each record listed once. The frames the pool nodes hold
  // are left over from whatever was there before.
  ghost predicate Initial(s: DevState) {
    && s.tx == seq(TOTAL_TS_NUM, i => IDLE_TX) && s.rx == seq(TOTAL_TS_NUM, i => IDLE_RX)
    && s.txl == Lists(Upto(TOTAL_TS_NUM), [], []) && s.rxl == Lists(Upto(TOTAL_TS_NUM), [], [])
    && Ids(s.free) == Upto(REORDER_ENTRY_NUM)
    && s.sent == [] && s.indicated == []
  }

  lemma {:induction false} NothingBuffered(rx: seq<RxTs>)
    requires forall i :: 0 <= i < |rx| ==> rx[i].queue.pending == []
    ensures Buffered(rx) == multiset{}
    decreases |rx|
  {
    if rx != [] {
      NothingBuffered(rx[..|rx| - 1]);
    }
  }

  lemma {:induction false} UptoOnce(n: nat, id: nat)
    ensures multiset(Upto(n))[id] == if id < n then 1 else 0
  {
    if n > 0 {
      UptoOnce(n - 1, id);
      assert Upto(n) == Upto(n - 1) + [n - 1];
    }
  }

  lemma InitialOk(s: DevState)
    requires Initial(s)
    ensures DevInv(s)
  {
    forall i | 0 <= i < TOTAL_TS_NUM ensures i in Upto(TOTAL_TS_NUM) {
      assert Upto(TOTAL_TS_NUM)[i] == i;
    }
    NothingBuffered(s.rx);
    forall id: nat ensures (multiset(Ids(s.free)) + Buffered(s.rx))[id] == if id < REORDER_ENTRY_NUM then 1 else 0 {
      UptoOnce(REORDER_ENTRY_NUM, id);
    }
  }

  lemma RemoveKeeps(s: DevState, sel: Option<Mac>)
    requires DevInv(s) && Sound(s)
    ensures DevInv(Remove(s, sel))
  {
    RemoveTxKeeps(s, sel);
    RemoveRxKeeps(RemoveTx(s, sel), sel);
  }

  // Every handler, run to completion, keeps the invariant, whatever the capabilities are.
  lemma HandleKeeps(s: DevState, x: Input)
    requires DevInv(s) && Sound(s)
    ensures DevInv(Handle(s, x))
  {
    hide Remove, GetTs, OnAddBaReq, OnAddBaRsp, OnDelBa, OnTxData, OnQuerySeq, OnRxData, HandleTimer;
    hide DevInv;
    var c := x.caps;
    match x.event {
      case Lookup(addr, tid, side, add) => GetTsKeeps(s, c, addr, tid, side, add);
      case AddBaReqIn(src, token, param, timeout, start) => ReqKeeps(s, c, src, token, param, timeout, start);
      case AddBaRspIn(src, token, status, param, timeout) => RspKeeps(s, c, src, token, status, param, timeout);
      case DelBaIn(src, initiator, tid) => DelBaKeeps(s, c, src, initiator, tid);
      case TxData(dst, tid, mayStart) => TxDataKeeps(s, c, dst, tid, mayStart);
      case QuerySeq(dst, tid) => QuerySeqKeeps(s, c, dst, tid);
      case RxData(src, tid, sn, rxb) => RxPathKeeps(s, c, src, tid, sn, rxb);
      case Timer(kind, i) => if i < TOTAL_TS_NUM { TimerKeeps(s, kind, i); }
      case RemoveTs(sel) => RemoveKeeps(s, sel);
    }
  }

  ghost predicate Reachable(s0: DevState, xs: seq<Input>, s: DevState)
    decreases |xs|
  {
    if xs == [] then s == s0
    else Sound(s0) && Reachable(Handle(s0, xs[0]), xs[1..], s)
  }

  lemma {:induction false} RunKeeps(s0: DevState, xs: seq<Input>, s: DevState)
    requires DevInv(s0) && Reachable(s0, xs, s)
    ensures DevInv(s)
    decreases |xs|
  {
    hide DevInv, Handle;
    if xs != [] {
      HandleKeeps(s0, xs[0]);
      RunKeeps(Handle(s0, xs[0]), xs[1..], s);
    }
  }

  // ---- What holds in every reachable state ----

  ghost predicate ReachableState(s: DevState) {
    Sound(s) && exists s0: DevState, xs: seq<Input> :: Initial(s0) && Reachable(s0, xs, s)
  }

  lemma ReachableInv(s: DevState)
    requires ReachableState(s)
    ensures DevInv(s)
  {
    var s0, xs :| Initial(s0) && Reachable(s0, xs, s);
    InitialOk(s0);
    RunKeeps(s0, xs, s);
  }

  // Stream records: each is in exactly one list, once; the pending lists stay empty; no two
  // streams of one side in use share peer, TSID and direction.
  lemma StreamsPartitioned(s: DevState, side: Side)
    requires ReachableState(s)
    ensures var l := ListsOf(s, side);
      && l.pend == [] && Distinct(l.unused) && Distinct(l.admit)
      && (forall i :: 0 <= i < 16 ==> (i in l.unused <==> i !in l.admit))
      && (forall i :: i in l.unused || i in l.admit ==> i < 16)
      && (forall i: nat, j: nat :: InUse(s, side, i) && InUse(s, side, j) && i != j ==>
            !IsKey(Commons(s, side)[i], Commons(s, side)[j].addr, Commons(s, side)[j].tsid, Commons(s, side)[j].dir))
  {
    ReachableInv(s);
    SideKeys(s, side);
  }

  // Reorder nodes: each is in exactly one place, once.
  lemma PoolPartitioned(s: DevState, id: nat)
    requires ReachableState(s)
    ensures (multiset(Ids(s.free)) + Buffered(s.rx))[id] == if id < 128 then 1 else 0
  {
    ReachableInv(s);
  }

  // A record waiting for reuse has no timer pending, no agreement and no buffered frame.
  lemma UnusedIsQuiet(s: DevState, i: nat)
    requires ReachableState(s)
    ensures i < TOTAL_TS_NUM && i in s.txl.unused ==> TxIdle(s.tx[i])
    ensures i < TOTAL_TS_NUM && i in s.rxl.unused ==> RxIdle(s.rx[i])
  {
    ReachableInv(s);
  }

  // An attempt with no timer of its own stream left to end it.
  predicate Stranded(ts: TxTs) {
    ts.inProgress && !ts.addBaTimer && !ts.pending.timer
  }

  // An ADDBA attempt in progress still has something that will end it: the timer that sends
  // the request, or a pending record, which is valid exactly while its setup timer runs.
  lemma AttemptNeverStuck(s: DevState, i: nat)
    requires ReachableState(s) && i < TOTAL_TS_NUM && i in s.txl.admit
    ensures s.tx[i].inProgress ==> s.tx[i].addBaTimer || s.tx[i].pending.valid
    ensures !Stranded(s.tx[i])
    ensures s.tx[i].pending.valid <==> s.tx[i].pending.timer
    ensures s.tx[i].admitted.timer ==> s.tx[i].admitted.valid
  {
    ReachableInv(s);
  }

  // Which steps of a stream leave its attempt stranded: the inactivity timeout of an agreement,
  // exactly if an attempt is under way whose request has been sent, and no other step. So it takes
  // an attempt started beside an agreement, which the transmit path never does.
  lemma StrandedExactly(ts: TxTs, mayStart: bool, token: Byte, status: Word, param: BaParam, timeout: Word)
    requires !Stranded(ts) && (ts.pending.valid <==> ts.pending.timer)
    ensures Stranded(TxInactTimeout(ts.(admitted := ts.admitted.(timer := false))).0) <==>
      ts.inProgress && !ts.addBaTimer
    ensures ts.addBaTimer ==> !Stranded(InitAddBa(ts.(addBaTimer := false), BA_POLICY_IMMEDIATE, false).0)
    ensures ts.pending.timer ==> !Stranded(SetupTimeout(ts.(pending := ts.pending.(timer := false))))
    ensures !Stranded(TxUse(ts, mayStart)) && !Stranded(NextSeq(ts)) && !Stranded(StartAddBa(ts))
    ensures !Stranded(TxOnRsp(ts, token, status, param, timeout).0) && !Stranded(TxOnDelBa(ts))
  {
  }

  // A stranded attempt keeps the stream from starting another; any response and any DELBA of the
  // peer ends it.
  lemma StrandedUntilPeer(ts: TxTs, mayStart: bool, token: Byte, status: Word, param: BaParam, timeout: Word)
    requires Stranded(ts)
    ensures StartAddBa(ts) == ts && (!ts.admitted.valid ==> TxUse(ts, mayStart) == ts)
    ensures !TxOnRsp(ts, token, status, param, timeout).0.inProgress && !TxOnDelBa(ts).inProgress
  {
  }

  // Taking a transmit stream down announces its own TSID, once, exactly when an agreement was
  // pending or admitted, although both records are invalid when the TID is read.
  lemma TeardownNamesStream(s: DevState, i: nat)
    requires ReachableState(s) && i < TOTAL_TS_NUM && i in s.txl.admit
    ensures var ts := s.tx[i];
      ClearTx(ts).1 == if ts.pending.valid || ts.admitted.valid
                       then [DelBa(1, ts.common.tsid, DELBA_REASON_END_BA)] else []
    ensures var ts := s.tx[i];
      ts.admitted.timer ==>
        exists tid :: FoldsTo(tid, ts.common.tsid) && TxInactTimeout(ts).1 == [DelBa(1, tid, DELBA_REASON_TIMEOUT)]
  {
    ReachableInv(s);
    var ts := s.tx[i];
    assert TxInactTimeout(ts).1 == [DelBa(1, ts.admitted.param.tid, DELBA_REASON_TIMEOUT)];
  }

  // A responder's record never has its timer running, so its inactivity timeout never fires.
  lemma ResponderTimerNeverRuns(s: DevState, j: nat)
    requires ReachableState(s) && j < TOTAL_TS_NUM
    ensures !s.rx[j].ba.timer && OnRxInactTimer(s, j) == s
  {
    ReachableInv(s);
    DevSound(s);
    assert j in s.rxl.admit || j in s.rxl.unused;
  }

  // a stands before b in l.
  ghost predicate Before(l: seq<nat>, a: nat, b: nat) {
    exists p, q :: 0 <= p < q < |l| && l[p] == a && l[q] == b
  }

  lemma BeforeTail(l: seq<nat>, a: nat, b: nat)
    requires l != [] && Before(l[1..], a, b)
    ensures Before(l, a, b)
  {
    var p, q :| 0 <= p < q < |l[1..]| && l[1..][p] == a && l[1..][q] == b;
    assert l[p + 1] == a && l[q + 1] == b;
  }

  lemma {:induction false} ChosenInOrder(l: seq<nat>, ts: seq<TsCommon>, sel: Option<Mac>, keep: bool, a: nat, b: nat)
    requires InRange(l, |ts|) && Before(Chosen(l, ts, sel, keep), a, b)
    ensures Before(l, a, b)
  {
    hide Selected;
    var r := Chosen(l, ts, sel, keep);
    var p, q :| 0 <= p < q < |r| && r[p] == a && r[q] == b;
    var rest := Chosen(l[1..], ts, sel, keep);
    if Selected(ts[l[0]], sel) != keep {
      assert r == [l[0]] + rest && rest[q - 1] == b && b in rest;
      assert b in l[1..];
      if p == 0 {
        var k :| 0 <= k < |l[1..]| && l[1..][k] == b;
        assert l[0] == a && l[k + 1] == b;
      } else {
        assert rest[p - 1] == a && Before(rest, a, b);
        ChosenInOrder(l[1..], ts, sel, keep, a, b);
        BeforeTail(l, a, b);
      }
    } else {
      assert r == rest;
      ChosenInOrder(l[1..], ts, sel, keep, a, b);
      BeforeTail(l, a, b);
    }
  }

  // What removal makes of one list of streams.
  ghost predicate Partitioned(l: Lists, l': Lists, ts: seq<TsCommon>, sel: Option<Mac>) {
    var n := |l.unused|;
    && n <= |l'.unused| && l'.unused[..n] == l.unused
    && (forall i: nat :: i in l'.admit <==> i in l.admit && i < |ts| && !Selected(ts[i], sel))
    && (forall i: nat :: i in l'.unused[n..] <==> i in l.admit && i < |ts| && Selected(ts[i], sel))
    && (forall a, b :: Before(l'.admit, a, b) ==> Before(l.admit, a, b))
    && (forall a, b :: Before(l'.unused[n..], a, b) ==> Before(l.admit, a, b))
  }

  lemma RetiredPartition(l: Lists, l': Lists, ts: seq<TsCommon>, sel: Option<Mac>)
    requires InRange(l.admit, |ts|)
    requires l'.admit == Chosen(l.admit, ts, sel, true) && l'.unused == l.unused + Chosen(l.admit, ts, sel, false)
    ensures Partitioned(l, l', ts, sel)
  {
    var gone := Chosen(l.admit, ts, sel, false);
    assert l'.unused[|l.unused|..] == gone;
    forall a, b | Before(l'.admit, a, b) ensures Before(l.admit, a, b) {
      ChosenInOrder(l.admit, ts, sel, true, a, b);
    }
    forall a, b | Before(gone, a, b) ensures Before(l.admit, a, b) {
      ChosenInOrder(l.admit, ts, sel, false, a, b);
    }
  }

  lemma RemovedLists(s: DevState, sel: Option<Mac>)
    requires DevInv(s) && Sound(s)
    ensures var s' := Remove(s, sel); var c, d := CommonsTx(s.tx), CommonsRx(s.rx);
      && s'.txl == Lists(s.txl.unused + Chosen(s.txl.admit, c, sel, false), Chosen(s.txl.admit, c, sel, true), [])
      && s'.rxl == Lists(s.rxl.unused + Chosen(s.rxl.admit, d, sel, false), Chosen(s.rxl.admit, d, sel, true), [])
  {
    RetireNoneTx(s);
    RetireNoneRx(RemoveTx(s, sel));
    hide DevInv, FarewellsTx, FarewellsRx, Released;
  }

  // Removal takes exactly the selected streams out of the admit list and appends them to the
  // unused list, both in the order they had; those removed are idle.
  lemma RemovalExactly(s: DevState, sel: Option<Mac>, side: Side)
    requires ReachableState(s)
    ensures var s' := Remove(s, sel);
      && Partitioned(ListsOf(s, side), ListsOf(s', side), Commons(s, side), sel)
      && (forall i :: 0 <= i < TOTAL_TS_NUM && i in s'.txl.unused ==> TxIdle(s'.tx[i]))
      && (forall j :: 0 <= j < TOTAL_TS_NUM && j in s'.rxl.unused ==> RxIdle(s'.rx[j]))
  {
    ReachableInv(s);
    RemovedLists(s, sel);
    RemoveKeeps(s, sel);
    var s' := Remove(s, sel);
    assert InRange(s.txl.admit, |CommonsTx(s.tx)|) && InRange(s.rxl.admit, |CommonsRx(s.rx)|);
    hide Remove, Partitioned;
    RetiredPartition(s.txl, s'.txl, CommonsTx(s.tx), sel);
    RetiredPartition(s.rxl, s'.rxl, CommonsRx(s.rx), sel);
  }

  // ---- A stream found once stays found ----

  // What is in use in s is in use in s', under the same key.
  ghost predicate Extends(s: DevState, s': DevState) {
    && |s.tx| == |s'.tx| && |s.rx| == |s'.rx|
    && (forall i :: 0 <= i < |s.tx| && i in s.txl.admit ==> i in s'.txl.admit && s'.tx[i].common == s.tx[i].common)
    && (forall j :: 0 <= j < |s.rx| && j in s.rxl.admit ==> j in s'.rxl.admit && s'.rx[j].common == s.rx[j].common)
  }

  lemma GetTsExtends(s: DevState, c: Caps, addr: Mac, tid: Byte, side: Side, add: bool)
    requires DevInv(s) && Sound(s)
    ensures Extends(s, GetTs(s, c, addr, tid, side, add).0)
  {
    var l := ListsOf(s, side);
    assert l.unused != [] ==> l.unused[0] in l.unused && l.unused[0] !in l.admit;
  }

  lemma SetTxExtends(s: DevState, s1: DevState, i: nat, ts: TxTs)
    requires Extends(s, s1) && i < |s1.tx| && ts.common == s1.tx[i].common
    ensures Extends(s, SetTx(s1, i, ts))
  {
  }

  lemma SetRxExtends(s: DevState, s1: DevState, j: nat, ts: RxTs)
    requires Extends(s, s1) && j < |s1.rx| && ts.common == s1.rx[j].common
    ensures Extends(s, SetRx(s1, j, ts))
  {
  }

  lemma ReqExtends(s: DevState, c: Caps, src: Mac, token: Byte, param: BaParam, timeout: Word, start: SeqCtrl)
    requires DevInv(s) && Sound(s)
    ensures Extends(s, OnAddBaReq(s, c, src, token, param, timeout, start))
  {
    hide GetTs, DevInv;
    GetTsExtends(s, c, src, param.tid, Rx, true);
    var (s1, r) := GetTs(s, c, src, param.tid, Rx, true);
    if r.Some? {
      SetRxExtends(s, s1, r.value, RxOnReq(s1.rx[r.value], token, param, timeout, start, c.oneFrame).0);
    }
  }

  lemma RspExtends(s: DevState, c: Caps, src: Mac, token: Byte, status: Word, param: BaParam, timeout: Word)
    requires DevInv(s) && Sound(s)
    ensures Extends(s, OnAddBaRsp(s, c, src, token, status, param, timeout))
  {
    hide GetTs, DevInv;
    GetTsExtends(s, c, src, param.tid, Tx, false);
    var (s1, r) := GetTs(s, c, src, param.tid, Tx, false);
    if r.Some? {
      SetTxExtends(s, s1, r.value, TxOnRsp(s1.tx[r.value], token, status, param, timeout).0);
    }
  }

  lemma DelBaExtends(s: DevState, c: Caps, src: Mac, initiator: Bit, tid: Nibble)
    requires DevInv(s) && Sound(s)
    ensures Extends(s, OnDelBa(s, c, src, initiator, tid))
  {
    hide GetTs, DevInv;
    GetTsExtends(s, c, src, tid, if initiator == 1 then Rx else Tx, false);
  }

  lemma TxPathExtends(s: DevState, c: Caps, dst: Mac, tid: Byte, mayStart: bool)
    requires DevInv(s) && Sound(s)
    ensures Extends(s, OnTxData(s, c, dst, tid, mayStart)) && Extends(s, OnQuerySeq(s, c, dst, tid))
  {
    hide GetTs, DevInv;
    GetTsExtends(s, c, dst, tid, Tx, true);
    var (s1, r) := GetTs(s, c, dst, tid, Tx, true);
    if r.Some? {
      SetTxExtends(s, s1, r.value, TxUse(s1.tx[r.value], mayStart));
      SetTxExtends(s, s1, r.value, NextSeq(s1.tx[r.value]));
    }
  }

  lemma RxPathExtends(s: DevState, c: Caps, src: Mac, tid: Byte, sn: SeqNum, rxb: Rxb)
    requires DevInv(s) && Sound(s)
    ensures Extends(s, OnRxData(s, c, src, tid, sn, rxb))
  {
    hide GetTs, DevInv;
    GetTsExtends(s, c, src, tid, Rx, true);
  }

  lemma TimerExtends(s: DevState, kind: TimerKind, i: nat)
    requires Sound(s) && i < TOTAL_TS_NUM
    ensures Extends(s, HandleTimer(s, kind, i))
  {
  }

  ghost predicate Spares(x: Input, addr: Mac) {
    x.event.RemoveTs? ==> x.event.sel.Some? && x.event.sel.value != addr
  }

  // Stream i of one side is in use for (addr, tsid, dir).
  ghost predicate Held(s: DevState, side: Side, i: nat, addr: Mac, tsid: Nibble, dir: Dir) {
    InUse(s, side, i) && IsKey(Commons(s, side)[i], addr, tsid, dir)
  }

  // Removing another peer keeps every stream of addr.
  ghost predicate KeepsPeer(s: DevState, s': DevState, addr: Mac) {
    && |s.tx| == |s'.tx| && |s.rx| == |s'.rx|
    && (forall i :: 0 <= i < |s.tx| && i in s.txl.admit && s.tx[i].common.addr == addr ==>
          i in s'.txl.admit && s'.tx[i].common == s.tx[i].common)
    && (forall j :: 0 <= j < |s.rx| && j in s.rxl.admit && s.rx[j].common.addr == addr ==>
          j in s'.rxl.admit && s'.rx[j].common == s.rx[j].common)
  }

  lemma RemoveTxKeepsPeer(s: DevState, sel: Option<Mac>, addr: Mac)
    requires DevInv(s) && Sound(s) && sel.Some? && sel.value != addr
    ensures KeepsPeer(s, RemoveTx(s, sel), addr)
    ensures RemoveTx(s, sel).rx == s.rx && RemoveTx(s, sel).rxl == s.rxl
  {
    RetireNoneTx(s);
  }

  lemma RemoveRxKeepsPeer(s: DevState, sel: Option<Mac>, addr: Mac)
    requires DevInv(s) && Sound(s) && sel.Some? && sel.value != addr
    ensures KeepsPeer(s, RemoveRx(s, sel), addr)
    ensures RemoveRx(s, sel).tx == s.tx && RemoveRx(s, sel).txl == s.txl
  {
    RetireNoneRx(s);
  }

  lemma RemoveKeepsPeer(s: DevState, sel: Option<Mac>, addr: Mac)
    requires DevInv(s) && Sound(s) && sel.Some? && sel.value != addr
    ensures KeepsPeer(s, Remove(s, sel), addr)
  {
    RemoveTxKeeps(s, sel);
    RemoveTxKeepsPeer(s, sel, addr);
    RemoveRxKeepsPeer(RemoveTx(s, sel), sel, addr);
  }

  lemma HandleExtends(s: DevState, x: Input)
    requires DevInv(s) && Sound(s) && !x.event.RemoveTs?
    ensures Extends(s, Handle(s, x))
  {
    hide Remove, GetTs, OnAddBaReq, OnAddBaRsp, OnDelBa, OnTxData, OnQuerySeq, OnRxData, HandleTimer;
    hide DevInv;
    var c := x.caps;
    match x.event {
      case Lookup(addr, tid, side, add) => GetTsExtends(s, c, addr, tid, side, add);
      case AddBaReqIn(src, token, param, timeout, start) => ReqExtends(s, c, src, token, param, timeout, start);
      case AddBaRspIn(src, token, status, param, timeout) => RspExtends(s, c, src, token, status, param, timeout);
      case DelBaIn(src, initiator, tid) => DelBaExtends(s, c, src, initiator, tid);
      case TxData(dst, tid, mayStart) => TxPathExtends(s, c, dst, tid, mayStart);
      case QuerySeq(dst, tid) => TxPathExtends(s, c, dst, tid, false);
      case RxData(src, tid, sn, rxb) => RxPathExtends(s, c, src, tid, sn, rxb);
      case Timer(kind, i) => if i < TOTAL_TS_NUM { TimerExtends(s, kind, i); }
    }
  }

  lemma ExtendsHolds(s: DevState, s': DevState, side: Side, i: nat, addr: Mac, tsid: Nibble, dir: Dir)
    requires Held(s, side, i, addr, tsid, dir) && Extends(s, s')
    ensures Held(s', side, i, addr, tsid, dir)
  {
  }

  lemma PeerHolds(s: DevState, s': DevState, side: Side, i: nat, addr: Mac, tsid: Nibble, dir: Dir)
    requires Held(s, side, i, addr, tsid, dir) && KeepsPeer(s, s', addr)
    ensures Held(s', side, i, addr, tsid, dir)
  {
  }

  lemma HandleRemove(s: DevState, x: Input)
    requires Sound(s) && x.event.RemoveTs?
    ensures Handle(s, x) == Remove(s, x.event.sel)
  {
    hide Remove, GetTs, OnAddBaReq, OnAddBaRsp, OnDelBa, OnTxData, OnQuerySeq, OnRxData, HandleTimer;
  }

  lemma HandleHolds(s: DevState, x: Input, side: Side, i: nat, addr: Mac, tsid: Nibble, dir: Dir)
    requires DevInv(s) && Sound(s) && Held(s, side, i, addr, tsid, dir) && Spares(x, addr)
    ensures Held(Handle(s, x), side, i, addr, tsid, dir)
  {
    hide DevInv, Held, Handle, Remove, Extends, KeepsPeer;
    if x.event.RemoveTs? {
      HandleRemove(s, x);
      RemoveKeepsPeer(s, x.event.sel, addr);
      PeerHolds(s, Remove(s, x.event.sel), side, i, addr, tsid, dir);
    } else {
      HandleExtends(s, x);
      ExtendsHolds(s, Handle(s, x), side, i, addr, tsid, dir);
    }
  }

  lemma {:induction false} RunHolds(s: DevState, xs: seq<Input>, s': DevState, side: Side, i: nat, addr: Mac,
                                    tsid: Nibble, dir: Dir)
    requires DevInv(s) && Held(s, side, i, addr, tsid, dir) && Reachable(s, xs, s')
    requires forall k :: 0 <= k < |xs| ==> Spares(xs[k], addr)
    ensures Held(s', side, i, addr, tsid, dir)
    decreases |xs|
  {
    hide DevInv, Held, Handle;
    if xs != [] {
      HandleHolds(s, xs[0], side, i, addr, tsid, dir);
      HandleKeeps(s, xs[0]);
      RunHolds(Handle(s, xs[0]), xs[1..], s', side, i, addr, tsid, dir);
    }
  }

  lemma HeldIsFound(s: DevState, c: Caps, side: Side, i: nat, addr: Mac, tid: Byte, add: bool)
    requires DevInv(s) && Sound(s) && Carries(s, c, side, i, addr, tid)
    ensures GetTs(s, c, addr, tid, side, add) == (s, Some(i))
  {
    SideKeys(s, side);
    SearchFinds(c.mode, side, ListsOf(s, side).admit, Commons(s, side), addr, UserPriority(c.qosSupported, tid).value);
  }

  // Once GetTs has returned a stream for a peer and user priority, every later call for the
  // same peer, side and user priority, in the same mode, returns that same stream and changes
  // nothing, until that peer's streams are removed.
  lemma LookupIsStable(s: DevState, c: Caps, addr: Mac, tid: Byte, side: Side, add: bool,
                       xs: seq<Input>, s': DevState, c': Caps, tid': Byte, add': bool)
    requires DevInv(s) && Sound(s)
    requires forall k :: 0 <= k < |xs| ==> Spares(xs[k], addr)
    requires c'.mode == c.mode
    requires UserPriority(c'.qosSupported, tid') == UserPriority(c.qosSupported, tid)
    ensures var g := GetTs(s, c, addr, tid, side, add);
      g.1.Some? && Reachable(g.0, xs, s') ==> Sound(s') && GetTs(s', c', addr, tid', side, add') == (s', g.1)
  {
    var (s1, r) := GetTs(s, c, addr, tid, side, add);
    if r.Some? && Reachable(s1, xs, s') {
      GetTsMeaning(s, c, addr, tid, side, add);
      GetTsKeeps(s, c, addr, tid, side, add);
      hide GetTs, DevInv;
      var up := UserPriority(c.qosSupported, tid).value;
      RunHolds(s1, xs, s', side, r.value, addr, up, AddedDir(c.mode, side));
      RunKeeps(s1, xs, s');
      DevSound(s');
      HeldIsFound(s', c', side, r.value, addr, tid', add');
    }
  }
}
