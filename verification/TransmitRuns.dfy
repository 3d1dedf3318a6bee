/**
 A transmit stream over whole runs. Its frames are numbered consecutively; and a peer that refuses
 Block Ack is not asked again: as long as the peer's streams are kept, the refusal of a pending request
 ends the requests for its TID, exactly if no further attempt already waits for its delay timer.
 */
module TransmitRuns {
  import opened Basics
  import opened SequenceNumbers
  import opened RxReorder
  import opened BlockAck
  import opened TrafficStreams
  import opened StreamInvariants
  import opened Responder
  import opened Initiator
  import opened Lookups
  import opened HandlerOutcomes

  // ---- What one event does to the transmit streams ----

  // The stream starts no attempt, and none waits for its timer.
  predicate Hushed(ts: TxTs) {
    ts.disabled && !ts.addBaTimer
  }

  // The key stays, what is hushed stays hushed, and a number is taken or none.
  predicate Continues(a: TxTs, b: TxTs, taken: bool) {
    && b.common == a.common && (Hushed(a) ==> Hushed(b))
    && b.curSeq == if taken then (a.curSeq + 1) % 4096 else a.curSeq
  }

  // Streams in use continue, q taking a number; those that are new head the way of the mode.
  ghost predicate Moves(s: DevState, s': DevState, mode: IwMode, q: Option<nat>) {
    && |s'.tx| == |s.tx|
    && forall k :: 0 <= k < |s.tx| && k in s'.txl.admit ==>
         if k in s.txl.admit then Continues(s.tx[k], s'.tx[k], q == Some(k))
         else s'.tx[k].common.dir == Heading(mode, Tx)
  }

  // The stream is about to ask, and f is addressed to its peer for its TID.
  ghost predicate Asks(s: DevState, k: nat, f: Frame) {
    && k < |s.tx| && k in s.txl.admit && s.tx[k].addBaTimer
    && f.dst == s.tx[k].common.addr && f.action.AddBaReq? && f.action.param.tid == s.tx[k].common.tsid
  }

  // Of the frames that are new, each request is one a stream was about to send.
  ghost predicate Sends(s: DevState, s': DevState) {
    && |s.sent| <= |s'.sent| && s'.sent[..|s.sent|] == s.sent
    && forall n :: |s.sent| <= n < |s'.sent| && s'.sent[n].action.AddBaReq? ==> exists k :: Asks(s, k, s'.sent[n])
  }

  lemma SendsOthers(s: DevState, s': DevState, more: seq<Frame>)
    requires s'.sent == s.sent + more && NoRequests(more)
    ensures Sends(s, s')
  {
    assert forall n :: |s.sent| <= n < |s'.sent| ==> s'.sent[n] == more[n - |s.sent|];
  }

  lemma SendsNothing(s: DevState, s': DevState)
    requires s'.sent == s.sent
    ensures Sends(s, s')
  {
  }

  lemma MovesNone(s: DevState, s': DevState, mode: IwMode)
    requires s'.tx == s.tx && s'.txl == s.txl
    ensures Moves(s, s', mode, None)
  {
  }

  lemma MovesOne(s: DevState, s1: DevState, s': DevState, mode: IwMode, i: nat, ts: TxTs, taken: bool)
    requires Moves(s, s1, mode, None) && i < |s1.tx| && s'.txl == s1.txl && s'.tx == s1.tx[i := ts]
    requires Continues(s1.tx[i], ts, taken)
    ensures Moves(s, s', mode, if taken then Some(i) else None)
  {
  }

  lemma GetTsMoves(s: DevState, c: Caps, addr: Mac, tid: Byte, side: Side, add: bool)
    requires DevInv(s) && Sound(s)
    ensures var s' := GetTs(s, c, addr, tid, side, add).0; Moves(s, s', c.mode, None) && s'.sent == s.sent
  {
    HeadingIsAdded(c.mode, Tx);
    assert s.txl.unused != [] ==> s.txl.unused[0] in s.txl.unused && s.txl.unused[0] !in s.txl.admit;
    hide Search, UserPriority, DevInv, ResetTx, ResetRx, Hushed, Commons, InRange, IsMulticast;
  }

  lemma RecordsContinue(ts: TxTs, mayStart: bool, token: Byte, status: Word, param: BaParam, timeout: Word)
    ensures Continues(ts, TxOnRsp(ts, token, status, param, timeout).0, false) && Continues(ts, TxOnDelBa(ts), false)
    ensures Continues(ts, TxUse(ts, mayStart), false) && Continues(ts, NextSeq(ts), true)
  {
  }

  lemma RspMoves(s: DevState, c: Caps, src: Mac, token: Byte, status: Word, param: BaParam, timeout: Word)
    requires DevInv(s) && Sound(s)
    ensures var s' := OnAddBaRsp(s, c, src, token, status, param, timeout); Moves(s, s', c.mode, None) && Sends(s, s')
  {
    GetTsMoves(s, c, src, param.tid, Tx, false);
    MovesNone(s, s, c.mode);
    var (s1, r) := GetTs(s, c, src, param.tid, Tx, false);
    var s' := OnAddBaRsp(s, c, src, token, status, param, timeout);
    hide DevInv, GetTs, TxOnRsp, Moves, Sends, Continues;
    var more := s'.sent[|s.sent|..];
    SendsOthers(s, s', more);
    if c.qosActive && c.ht && c.ampdu && r.Some? {
      var ts := s1.tx[r.value];
      RecordsContinue(ts, false, token, status, param, timeout);
      MovesOne(s, s1, s', c.mode, r.value, TxOnRsp(ts, token, status, param, timeout).0, false);
    } else {
      MovesNone(s, s', c.mode);
    }
  }

  lemma ReqMoves(s: DevState, c: Caps, src: Mac, token: Byte, param: BaParam, timeout: Word, start: SeqCtrl)
    requires DevInv(s) && Sound(s)
    ensures var s' := OnAddBaReq(s, c, src, token, param, timeout, start); Moves(s, s', c.mode, None) && Sends(s, s')
  {
    RxGetTsFrame(s, c, src, param.tid, true);
    var s' := OnAddBaReq(s, c, src, token, param, timeout, start);
    hide DevInv, GetTs, Moves, Sends;
    SendsOthers(s, s', s'.sent[|s.sent|..]);
    MovesNone(s, s', c.mode);
  }

  lemma DelBaMoves(s: DevState, c: Caps, src: Mac, initiator: Bit, tid: Nibble)
    requires DevInv(s) && Sound(s)
    ensures var s' := OnDelBa(s, c, src, initiator, tid); Moves(s, s', c.mode, None) && Sends(s, s')
  {
    var side := if initiator == 1 then Rx else Tx;
    var s' := OnDelBa(s, c, src, initiator, tid);
    GetTsMoves(s, c, src, tid, side, false);
    NotAddedIsSame(s, c, src, tid, side);
    MovesNone(s, s, c.mode);
    hide DevInv, GetTs, TxOnDelBa, RxDeleteBa, Moves, Sends, Continues;
    SendsNothing(s, s');
    var r := GetTs(s, c, src, tid, side, false).1;
    if initiator == 0 && r.Some? && c.qosActive && c.ht {
      var ts := s.tx[r.value];
      RecordsContinue(ts, false, 0, 0, NO_PARAM, 0);
      MovesOne(s, s, s', c.mode, r.value, TxOnDelBa(ts), false);
    } else {
      MovesNone(s, s', c.mode);
    }
  }

  lemma TxPathMoves(s: DevState, c: Caps, dst: Mac, tid: Byte, mayStart: bool)
    requires DevInv(s) && Sound(s)
    ensures var s' := OnTxData(s, c, dst, tid, mayStart); Moves(s, s', c.mode, None) && Sends(s, s')
    ensures var s' := OnQuerySeq(s, c, dst, tid);
      Moves(s, s', c.mode, GetTs(s, c, dst, tid, Tx, true).1) && Sends(s, s')
  {
    GetTsMoves(s, c, dst, tid, Tx, true);
    hide DevInv, GetTs, TxUse, NextSeq, Moves, Sends, Continues;
    var (s1, r) := GetTs(s, c, dst, tid, Tx, true);
    SendsNothing(s, OnTxData(s, c, dst, tid, mayStart));
    SendsNothing(s, OnQuerySeq(s, c, dst, tid));
    if r.Some? {
      var ts := s1.tx[r.value];
      RecordsContinue(ts, mayStart, 0, 0, NO_PARAM, 0);
      MovesOne(s, s1, OnTxData(s, c, dst, tid, mayStart), c.mode, r.value, TxUse(ts, mayStart), false);
      MovesOne(s, s1, OnQuerySeq(s, c, dst, tid), c.mode, r.value, NextSeq(ts), true);
    }
  }

  lemma RxDataMoves(s: DevState, c: Caps, src: Mac, tid: Byte, sn: SeqNum, rxb: Rxb)
    requires DevInv(s) && Sound(s)
    ensures var s' := OnRxData(s, c, src, tid, sn, rxb); Moves(s, s', c.mode, None) && Sends(s, s')
  {
    RxGetTsFrame(s, c, src, tid, true);
    hide DevInv, GetTs, Arrive, Moves, Sends;
    SendsNothing(s, OnRxData(s, c, src, tid, sn, rxb));
    MovesNone(s, OnRxData(s, c, src, tid, sn, rxb), c.mode);
  }

  // Only the delay timer sends a request.
  lemma DelaySends(s: DevState, i: nat)
    requires DevInv(s) && i < TOTAL_TS_NUM
    ensures Sends(s, OnAddBaTimer(s, i))
  {
    var s' := OnAddBaTimer(s, i);
    DelayOutcomes(s, i);
    ArmedInUse(s, i);
    hide DevInv, OnAddBaTimer;
    if s'.sent != s.sent && s.tx[i].addBaTimer {
      assert Asks(s, i, s'.sent[|s.sent|]);
    }
  }

  lemma TimerMoves(s: DevState, kind: TimerKind, i: nat, mode: IwMode)
    requires DevInv(s) && Sound(s) && i < TOTAL_TS_NUM
    ensures Moves(s, HandleTimer(s, kind, i), mode, None) && Sends(s, HandleTimer(s, kind, i))
  {
    var s', ts := HandleTimer(s, kind, i), s.tx[i];
    MovesNone(s, s, mode);
    match kind {
      case AddBaDelay =>
        DelaySends(s, i);
        DelayOutcomes(s, i);
        hide DevInv, OnAddBaTimer, Sends;
      case BaSetup =>
        SetupOutcomes(s, i);
        hide DevInv, OnSetupTimer;
        SendsNothing(s, s');
      case TxBaInact =>
        InactOutcomes(s, i);
        hide DevInv, OnTxInactTimer;
        SendsOthers(s, s', s'.sent[|s.sent|..]);
      case RxBaInact =>
        InactOutcomes(s, i);
        hide DevInv, OnRxInactTimer;
        SendsNothing(s, s');
      case RxPktPending =>
        hide DevInv, Timeout;
        SendsNothing(s, s');
    }
  }

  lemma RemoveMoves(s: DevState, sel: Option<Mac>, mode: IwMode)
    requires DevInv(s) && Sound(s)
    ensures Moves(s, Remove(s, sel), mode, None) && Sends(s, Remove(s, sel))
  {
    var more := RemovalEffect(s, sel);
    hide DevInv, Remove;
    SendsOthers(s, Remove(s, sel), more);
  }

  // The stream whose next number the event takes.
  function Numbers(s: DevState, x: Input): Option<nat>
    requires Sound(s)
  {
    if x.event.QuerySeq? then GetTs(s, x.caps, x.event.dst, x.event.tid, Tx, true).1 else None
  }

  lemma HandleMoves(s: DevState, x: Input)
    requires DevInv(s) && Sound(s)
    ensures Moves(s, Handle(s, x), x.caps.mode, Numbers(s, x)) && Sends(s, Handle(s, x))
  {
    hide DevInv, Moves, Sends, Remove, GetTs, OnAddBaReq, OnAddBaRsp, OnDelBa, OnTxData, OnQuerySeq, OnRxData,
         HandleTimer;
    var c := x.caps;
    match x.event {
      case Lookup(addr, tid, side, add) =>
        GetTsMoves(s, c, addr, tid, side, add);
        SendsNothing(s, GetTs(s, c, addr, tid, side, add).0);
      case AddBaReqIn(src, token, param, timeout, start) => ReqMoves(s, c, src, token, param, timeout, start);
      case AddBaRspIn(src, token, status, param, timeout) => RspMoves(s, c, src, token, status, param, timeout);
      case DelBaIn(src, initiator, tid) => DelBaMoves(s, c, src, initiator, tid);
      case TxData(dst, tid, mayStart) => TxPathMoves(s, c, dst, tid, mayStart);
      case QuerySeq(dst, tid) => TxPathMoves(s, c, dst, tid, false);
      case RxData(src, tid, sn, rxb) => RxDataMoves(s, c, src, tid, sn, rxb);
      case Timer(kind, i) =>
        if i < TOTAL_TS_NUM {
          TimerMoves(s, kind, i, c.mode);
        } else {
          MovesNone(s, s, c.mode);
          SendsNothing(s, s);
        }
      case RemoveTs(sel) => RemoveMoves(s, sel, c.mode);
    }
  }

  // ---- Consecutive numbers ----

  // How many numbers of stream i the run takes.
  ghost function Taken(s: DevState, xs: seq<Input>, i: nat): nat
    decreases |xs|
  {
    if xs == [] || !Sound(s) then 0
    else (if Numbers(s, xs[0]) == Some(i) then 1 else 0) + Taken(Handle(s, xs[0]), xs[1..], i)
  }

  lemma HeldMoves(s: DevState, s': DevState, mode: IwMode, q: Option<nat>, i: nat, addr: Mac, t: Nibble, dir: Dir)
    requires Moves(s, s', mode, q) && Held(s, Tx, i, addr, t, dir) && Held(s', Tx, i, addr, t, dir)
    ensures i < |s.tx| && i < |s'.tx| && Continues(s.tx[i], s'.tx[i], q == Some(i))
  {
  }

  lemma {:induction false} RunNumbers(s: DevState, xs: seq<Input>, s': DevState, i: nat, addr: Mac, t: Nibble, dir: Dir)
    requires DevInv(s) && Held(s, Tx, i, addr, t, dir) && Reachable(s, xs, s') && i < |s.tx|
    requires forall k :: 0 <= k < |xs| ==> Spares(xs[k], addr)
    ensures i < |s'.tx| && s'.tx[i].curSeq == (s.tx[i].curSeq + Taken(s, xs, i)) % 4096
    decreases |xs|
  {
    hide DevInv, Held, Handle, Moves, Spares, Numbers;
    if xs != [] {
      var s1 := Handle(s, xs[0]);
      HandleMoves(s, xs[0]);
      HandleHolds(s, xs[0], Tx, i, addr, t, dir);
      HandleKeeps(s, xs[0]);
      HeldMoves(s, s1, xs[0].caps.mode, Numbers(s, xs[0]), i, addr, t, dir);
      RunNumbers(s1, xs[1..], s', i, addr, t, dir);
    }
  }

  lemma RunFromZero(s: DevState, xs: seq<Input>, s': DevState, i: nat, addr: Mac)
    requires DevInv(s) && Reachable(s, xs, s') && i < |s.tx| && s.tx[i].curSeq == 0
    requires Held(s, Tx, i, addr, s.tx[i].common.tsid, s.tx[i].common.dir)
    requires forall k :: 0 <= k < |xs| ==> Spares(xs[k], addr)
    ensures i < |s'.tx| && s'.tx[i].curSeq == Taken(s, xs, i) % 4096
  {
    hide *;
    RunNumbers(s, xs, s', i, addr, s.tx[i].common.tsid, s.tx[i].common.dir);
  }

  lemma AddedStartsAtZero(s: DevState, c: Caps, addr: Mac, tid: Byte)
    requires DevInv(s) && Sound(s)
    ensures var (s1, r) := GetTs(s, c, addr, tid, Tx, true);
      r.Some? && r.value in s.txl.unused ==>
        r.value < |s1.tx| && s1.tx[r.value].curSeq == 0
        && Held(s1, Tx, r.value, addr, s1.tx[r.value].common.tsid, s1.tx[r.value].common.dir)
  {
    LookupExactly(s, c, addr, tid, Tx, true);
    UnusedServesNone(s, c, addr, tid);
    hide DevInv, GetTs, UserPriority, Means, OthersSame, Rejected;
  }

  lemma UnusedServesNone(s: DevState, c: Caps, addr: Mac, tid: Byte)
    requires DevInv(s) && Sound(s)
    ensures forall i :: i in s.txl.unused ==> !Serving(s, c, Tx, i, addr, tid)
  {
  }

  // From the lookup that adds a stream until its peer is removed, the frames of the stream are
  // numbered from 0 on, one by one: the next one is the count of those before, in 12 bits. Whatever
  // else happens changes no number.
  lemma NumbersAreConsecutive(s: DevState, c: Caps, addr: Mac, tid: Byte, xs: seq<Input>, s': DevState)
    requires DevInv(s) && Sound(s)
    requires forall k :: 0 <= k < |xs| ==> Spares(xs[k], addr)
    ensures var (s1, r) := GetTs(s, c, addr, tid, Tx, true);
      r.Some? && r.value in s.txl.unused && Reachable(s1, xs, s') ==>
        r.value < |s'.tx| && s'.tx[r.value].curSeq == Taken(s1, xs, r.value) % 4096
  {
    var (s1, r) := GetTs(s, c, addr, tid, Tx, true);
    GetTsKeeps(s, c, addr, tid, Tx, true);
    hide DevInv, GetTs, Reachable, Spares, Taken, Held, Sound, Heading;
    if r.Some? && r.value in s.txl.unused && Reachable(s1, xs, s') {
      AddedStartsAtZero(s, c, addr, tid);
      RunFromZero(s1, xs, s', r.value, addr);
    }
  }

  // ---- Runs in one mode ----

  ghost predicate OneWay(s: DevState, mode: IwMode) {
    forall k :: 0 <= k < |s.tx| && k in s.txl.admit ==> s.tx[k].common.dir == Heading(mode, Tx)
  }

  lemma MovesOneWay(s: DevState, s': DevState, mode: IwMode, q: Option<nat>)
    requires OneWay(s, mode) && Moves(s, s', mode, q)
    ensures OneWay(s', mode)
  {
  }

  ghost predicate InMode(xs: seq<Input>, mode: IwMode) {
    forall k :: 0 <= k < |xs| ==> xs[k].caps.mode == mode
  }

  lemma {:induction false} RunOneWay(s: DevState, xs: seq<Input>, s': DevState, mode: IwMode)
    requires DevInv(s) && OneWay(s, mode) && Reachable(s, xs, s') && InMode(xs, mode)
    ensures DevInv(s') && OneWay(s', mode)
    decreases |xs|
  {
    hide DevInv, OneWay, Handle, Moves;
    if xs != [] {
      HandleMoves(s, xs[0]);
      MovesOneWay(s, Handle(s, xs[0]), mode, Numbers(s, xs[0]));
      HandleKeeps(s, xs[0]);
      RunOneWay(Handle(s, xs[0]), xs[1..], s', mode);
    }
  }

  // Stream i is the one in use for addr and t, and hushed.
  ghost predicate Silenced(s: DevState, mode: IwMode, i: nat, addr: Mac, t: Nibble) {
    Held(s, Tx, i, addr, t, Heading(mode, Tx)) && i < |s.tx| && Hushed(s.tx[i])
  }

  lemma {:induction false} RequestsOthers(log: seq<Frame>, more: seq<Frame>, dst: Mac, t: Nibble)
    requires forall n :: 0 <= n < |more| ==> !IsRequest(more[n], dst, t)
    ensures Requests(log + more, dst, t) == Requests(log, dst, t)
    decreases |more|
  {
    if more == [] {
      assert log + more == log;
    } else {
      var n := |more| - 1;
      RequestsOthers(log, more[..n], dst, t);
      assert (log + more)[..|log| + n] == log + more[..n];
      assert (log + more)[|log| + n] == more[n];
    }
  }

  lemma NoneAsked(s: DevState, s': DevState, mode: IwMode, i: nat, addr: Mac, t: Nibble)
    requires DevInv(s) && OneWay(s, mode) && Silenced(s, mode, i, addr, t) && Sends(s, s')
    ensures Requests(s'.sent, addr, t) == Requests(s.sent, addr, t)
  {
    hide Requests, RxOk, PoolOk, TxLive, TxIdle;
    var more := s'.sent[|s.sent|..];
    assert s'.sent == s.sent + more;
    forall n | 0 <= n < |more| ensures !IsRequest(more[n], addr, t) {
      assert more[n] == s'.sent[|s.sent| + n];
      if IsRequest(more[n], addr, t) {
        var k :| Asks(s, k, more[n]);
        OneStream(s, i, k);
      }
    }
    RequestsOthers(s.sent, more, addr, t);
  }

  lemma SilencedStep(s: DevState, x: Input, mode: IwMode, i: nat, addr: Mac, t: Nibble)
    requires DevInv(s) && Sound(s) && OneWay(s, mode) && Silenced(s, mode, i, addr, t)
    requires x.caps.mode == mode && Spares(x, addr)
    ensures Silenced(Handle(s, x), mode, i, addr, t)
    ensures Requests(Handle(s, x).sent, addr, t) == Requests(s.sent, addr, t)
  {
    HandleMoves(s, x);
    HandleHolds(s, x, Tx, i, addr, t, Heading(mode, Tx));
    NoneAsked(s, Handle(s, x), mode, i, addr, t);
    hide DevInv, OneWay, Handle, Requests, Sends, Hushed;
  }

  lemma {:induction false} RunSilenced(s: DevState, xs: seq<Input>, s': DevState, mode: IwMode, i: nat, addr: Mac,
                                       t: Nibble)
    requires DevInv(s) && OneWay(s, mode) && Silenced(s, mode, i, addr, t)
    requires Reachable(s, xs, s') && InMode(xs, mode) && forall k :: 0 <= k < |xs| ==> Spares(xs[k], addr)
    ensures Requests(s'.sent, addr, t) == Requests(s.sent, addr, t)
    decreases |xs|
  {
    hide DevInv, OneWay, Handle, Moves, Silenced, Requests, Spares;
    if xs != [] {
      var s1 := Handle(s, xs[0]);
      SilencedStep(s, xs[0], mode, i, addr, t);
      HandleMoves(s, xs[0]);
      MovesOneWay(s, s1, mode, Numbers(s, xs[0]));
      HandleKeeps(s, xs[0]);
      RunSilenced(s1, xs[1..], s', mode, i, addr, t);
    }
  }

  // ---- The refusal ----

  // No run in this mode that keeps the peer's streams sends it another request for t.
  ghost predicate AsksNoMore(s: DevState, mode: IwMode, addr: Mac, t: Nibble) {
    forall xs: seq<Input>, s': DevState ::
      Reachable(s, xs, s') && InMode(xs, mode) && (forall k :: 0 <= k < |xs| ==> Spares(xs[k], addr)) ==>
        Requests(s'.sent, addr, t) == Requests(s.sent, addr, t)
  }

  // The peer answers the pending request of stream i with a status other than success.
  ghost predicate Refuses(s: DevState, x: Input, i: nat, addr: Mac, t: Nibble) {
    && x.event.AddBaRspIn? && x.event.src == addr && x.event.status != 0
    && Means(x.caps.qosSupported, x.event.param.tid, t) && x.caps.qosActive && x.caps.ht && x.caps.ampdu
    && i < |s.tx| && Awaited(s.tx[i], x.event.token)
  }

  lemma ServesIsServing(s: DevState, c: Caps, i: nat, addr: Mac, tid: Nibble, t: Nibble)
    requires DevInv(s) && OneWay(s, c.mode) && Serves(s, i, addr, t) && Means(c.qosSupported, tid, t)
    ensures Serving(s, c, Tx, i, addr, tid) && !Rejected(c, addr, tid)
    ensures Held(s, Tx, i, addr, t, Heading(c.mode, Tx))
  {
    assert TxLive(s.tx[i]);
    hide DevInv;
  }

  lemma HeldKey(s: DevState, i: nat, addr: Mac, t: Nibble, dir: Dir)
    requires Held(s, Tx, i, addr, t, dir)
    ensures i < |s.tx| && s.tx[i].common.addr == addr && s.tx[i].common.tsid == t
  {
  }

  lemma RefusedRecord(s: DevState, x: Input, mode: IwMode, i: nat, addr: Mac, t: Nibble)
    requires DevInv(s) && Sound(s) && OneWay(s, mode) && x.caps.mode == mode
    requires Serves(s, i, addr, t) && !s.tx[i].admitted.valid && Refuses(s, x, i, addr, t)
    ensures var s' := Handle(s, x);
      && Held(s', Tx, i, addr, t, Heading(mode, Tx)) && i < |s'.tx|
      && s'.tx[i].disabled && s'.tx[i].addBaTimer == s.tx[i].addBaTimer && !s'.tx[i].pending.valid
      && Requests(s'.sent, addr, t) == Requests(s.sent, addr, t)
  {
    var e := x.event;
    ServesIsServing(s, x.caps, i, addr, e.param.tid, t);
    HandleHolds(s, x, Tx, i, addr, t, Heading(mode, Tx));
    hide Requests, OnAddBaRsp, DevInv, OneWay, Held, Serving, Means, Rejected, Awaited;
    ResponseOutcomes(s, x.caps, addr, e.token, e.status, e.param, e.timeout, i);
    RequestsOne(s.sent, Frame(addr, DelBa(1, e.param.tid, 37)), addr, t);
  }

  lemma OneEvent(s: DevState, x: Input)
    requires Sound(s)
    ensures Reachable(s, [x], Handle(s, x))
  {
    hide Handle;
    assert [x][1..] == [] && Reachable(Handle(s, x), [x][1..], Handle(s, x));
  }

  lemma DelayRequests(s: DevState, i: nat)
    requires DevInv(s) && i < TOTAL_TS_NUM && s.tx[i].addBaTimer && !s.tx[i].pending.valid
    ensures var c, s' := s.tx[i].common, OnAddBaTimer(s, i);
      |Requests(s'.sent, c.addr, c.tsid)| == |Requests(s.sent, c.addr, c.tsid)| + 1
  {
    DelayOutcomes(s, i);
    var c, s' := s.tx[i].common, OnAddBaTimer(s, i);
    hide DevInv, OnAddBaTimer, Requests;
    RequestsOne(s.sent, s'.sent[|s.sent|], c.addr, c.tsid);
  }

  lemma DelayedAsks(s: DevState, mode: IwMode, i: nat, addr: Mac, t: Nibble, c: Caps)
    requires DevInv(s) && Sound(s) && c.mode == mode
    requires Held(s, Tx, i, addr, t, Heading(mode, Tx)) && i < |s.tx| && s.tx[i].addBaTimer && !s.tx[i].pending.valid
    ensures !AsksNoMore(s, mode, addr, t)
  {
    var x := Input(c, Timer(AddBaDelay, i));
    DelayRequests(s, i);
    HeldKey(s, i, addr, t, Heading(mode, Tx));
    hide DevInv, Reachable, Requests, OnAddBaTimer, Held, Heading, Sound;
    OneEvent(s, x);
    assert Handle(s, x) == OnAddBaTimer(s, i);
    assert InMode([x], mode) && forall k :: 0 <= k < |[x]| ==> Spares([x][k], addr);
  }

  // In every state that runs in one mode lead to: once a refusal of its pending request reaches a
  // stream without an agreement, the peer is not asked again for that TID until its streams are
  // removed, exactly if the delay timer is off. If it is on, the attempt it stands for goes on.
  lemma RefusalIsFinal(s0: DevState, xs: seq<Input>, s: DevState, x: Input, mode: IwMode, i: nat, addr: Mac, t: Nibble)
    requires Initial(s0) && Reachable(s0, xs, s) && InMode(xs, mode) && x.caps.mode == mode && Sound(s)
    requires Serves(s, i, addr, t) && !s.tx[i].admitted.valid && Refuses(s, x, i, addr, t)
    ensures Requests(Handle(s, x).sent, addr, t) == Requests(s.sent, addr, t)
    ensures AsksNoMore(Handle(s, x), mode, addr, t) <==> !s.tx[i].addBaTimer
  {
    InitialOk(s0);
    assert OneWay(s0, mode);
    RunOneWay(s0, xs, s, mode);
    RefusedRecord(s, x, mode, i, addr, t);
    HandleMoves(s, x);
    HandleKeeps(s, x);
    var s1 := Handle(s, x);
    MovesOneWay(s, s1, mode, Numbers(s, x));
    DevSound(s1);
    hide DevInv, OneWay, Handle, Moves, Held, Requests, Reachable, Initial, Spares, InMode, Sends;
    if s.tx[i].addBaTimer {
      DelayedAsks(s1, mode, i, addr, t, x.caps);
    } else {
      forall ys: seq<Input>, s': DevState
        | Reachable(s1, ys, s') && InMode(ys, mode) && forall k :: 0 <= k < |ys| ==> Spares(ys[k], addr)
        ensures Requests(s'.sent, addr, t) == Requests(s1.sent, addr, t) {
        RunSilenced(s1, ys, s', mode, i, addr, t);
      }
    }
  }

  lemma StillServing(s: DevState, s1: DevState, c: Caps, i: nat, ts: TxTs, out: seq<Frame>, addr: Mac, tid: Byte)
    requires TxBecomes(s, s1, i, ts, out) && ts.common == s.tx[i].common && Serving(s, c, Tx, i, addr, tid)
    ensures Serving(s1, c, Tx, i, addr, tid)
  {
    hide Means, Heading;
  }

  lemma UnknownEnds(s: DevState, c: Caps, i: nat, addr: Mac, token: Byte, status: Word, param: BaParam, timeout: Word)
    requires DevInv(s) && Sound(s) && c.qosActive && c.ht && c.ampdu && i < |s.tx|
    requires Serving(s, c, Tx, i, addr, param.tid) && !Rejected(c, addr, param.tid)
    requires !s.tx[i].admitted.valid && !Awaited(s.tx[i], token)
    ensures var s1 := OnAddBaRsp(s, c, addr, token, status, param, timeout);
      && DevInv(s1) && Sound(s1) && Serving(s1, c, Tx, i, addr, param.tid)
      && i < |s1.tx| && s1.tx[i] == s.tx[i].(inProgress := false)
  {
    var s1 := OnAddBaRsp(s, c, addr, token, status, param, timeout);
    RspKeeps(s, c, addr, token, status, param, timeout);
    DevSound(s1);
    hide OnAddBaRsp, DevInv, Sound, Rejected, Serving, Awaited;
    ResponseOutcomes(s, c, addr, token, status, param, timeout, i);
    var ts, out := s.tx[i].(inProgress := false), [Frame(addr, DelBa(1, param.tid, 38))];
    StillServing(s, s1, c, i, ts, out, addr, param.tid);
  }

  lemma FrameStarts(s: DevState, c: Caps, i: nat, addr: Mac, tid: Byte)
    requires DevInv(s) && Sound(s) && i < |s.tx|
    requires Serving(s, c, Tx, i, addr, tid) && !Rejected(c, addr, tid)
    requires !s.tx[i].admitted.valid && !s.tx[i].disabled && !s.tx[i].inProgress
    ensures var s' := OnTxData(s, c, addr, tid, true);
      i < |s'.tx| && s'.tx[i] == s.tx[i].(inProgress := true, addBaTimer := true)
  {
    hide DevInv, Sound, Serving, Rejected, OnTxData, GetTs, Reached;
    FoundIs(s, c, Tx, i, addr, tid);
    DataOutcomes(s, c, addr, tid, true);
  }

  // How the delay timer comes to run beside a pending request: a response with another token ends the
  // attempt but not the request, and the next frame starts another.
  lemma SecondAttempt(s: DevState, c: Caps, i: nat, addr: Mac, token: Byte, status: Word, param: BaParam, timeout: Word)
    requires DevInv(s) && Sound(s) && c.qosActive && c.ht && c.ampdu && i < |s.tx|
    requires Serving(s, c, Tx, i, addr, param.tid) && !Rejected(c, addr, param.tid)
    requires !s.tx[i].admitted.valid && s.tx[i].pending.valid && !s.tx[i].disabled && token != s.tx[i].pending.token
    ensures var s1 := OnAddBaRsp(s, c, addr, token, status, param, timeout);
      && Sound(s1)
      && var s2 := OnTxData(s1, c, addr, param.tid, true);
         i < |s2.tx| && s2.tx[i].addBaTimer && s2.tx[i].pending == s.tx[i].pending && !s2.tx[i].admitted.valid
  {
    var s1 := OnAddBaRsp(s, c, addr, token, status, param, timeout);
    UnknownEnds(s, c, i, addr, token, status, param, timeout);
    hide OnAddBaRsp, DevInv, Sound, Serving, Rejected, OnTxData;
    FrameStarts(s1, c, i, addr, param.tid);
  }
}
