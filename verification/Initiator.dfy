/**
 The initiator's side of Block Ack: the requests a station A has sent to one peer B, and how its
 transmit records for B stand against them, through any number of removals of B's streams.
 */
module Initiator {
  import opened Basics
  import opened SequenceNumbers
  import opened RxReorder
  import opened BlockAck
  import opened TrafficStreams
  import opened StreamInvariants
  import opened Responder
  import opened TidFolding

  // The two addresses, and what stays fixed at A: its mode and whether QoS is supported.
  datatype Setup = Setup(aAddr: Mac, bAddr: Mac, mode: IwMode, qos: bool)

  // ---- The log of sent frames ----

  predicate IsRequest(f: Frame, dst: Mac, t: Nibble) {
    f.dst == dst && f.action.AddBaReq? && f.action.param.tid == t
  }

  // The ADDBA requests sent to dst for one TID, in order.
  function Requests(log: seq<Frame>, dst: Mac, t: Nibble): seq<Action> {
    if log == [] then []
    else
      var n := |log| - 1;
      Requests(log[..n], dst, t) + if IsRequest(log[n], dst, t) then [log[n].action] else []
  }

  ghost predicate NoRequests(more: seq<Frame>) {
    forall k :: 0 <= k < |more| ==> !more[k].action.AddBaReq?
  }

  lemma {:induction false} RequestsQuiet(log: seq<Frame>, more: seq<Frame>, dst: Mac, t: Nibble)
    requires NoRequests(more)
    ensures Requests(log + more, dst, t) == Requests(log, dst, t)
    decreases |more|
  {
    if more == [] {
      assert log + more == log;
    } else {
      var n := |more| - 1;
      RequestsQuiet(log, more[..n], dst, t);
      assert (log + more)[..|log| + n] == log + more[..n];
      assert (log + more)[|log| + n] == more[n];
    }
  }

  lemma RequestsOne(log: seq<Frame>, f: Frame, dst: Mac, t: Nibble)
    ensures Requests(log + [f], dst, t) == Requests(log, dst, t) + if IsRequest(f, dst, t) then [f.action] else []
  {
    assert (log + [f])[..|log|] == log;
  }

  // ---- The lives of a stream ----

  ghost predicate Serves(s: DevState, i: nat, addr: Mac, t: Nibble) {
    i < |s.tx| && i in s.txl.admit && s.tx[i].common.addr == addr && s.tx[i].common.tsid == t
  }

  ghost predicate Served(s: DevState, addr: Mac, t: Nibble) {
    exists i: nat :: Serves(s, i, addr, t)
  }

  // For each TID, how many requests had been sent to B when its stream was last added.
  type Counts = c: seq<nat> | |c| == 16 witness [0, 0, 0, 0, 0, 0, 0, 0, 0, 0, 0, 0, 0, 0, 0, 0]

  ghost function Since(st: Setup, s: DevState, s': DevState, since: Counts): Counts {
    seq(16, t requires 0 <= t < 16 =>
      if Served(s', st.bAddr, t) && !Served(s, st.bAddr, t) then |Requests(s.sent, st.bAddr, t)| else since[t])
  }

  // The requests sent in the current life of the stream for t.
  ghost function Current(st: Setup, log: seq<Frame>, since: Counts, t: Nibble): seq<Action> {
    var r := Requests(log, st.bAddr, t);
    if since[t] <= |r| then r[since[t]..] else []
  }

  ghost predicate SameServes(st: Setup, s: DevState, s': DevState) {
    forall i: nat, t: Nibble :: Serves(s', i, st.bAddr, t) <==> Serves(s, i, st.bAddr, t)
  }

  // No stream of B is added: those in use are some of those before, as they were.
  ghost predicate OnlyFewer(st: Setup, s: DevState, s': DevState) {
    forall i: nat, t: Nibble :: Serves(s', i, st.bAddr, t) ==> Serves(s, i, st.bAddr, t) && s'.tx[i] == s.tx[i]
  }

  lemma SinceFewer(st: Setup, s: DevState, s': DevState, since: Counts)
    requires OnlyFewer(st, s, s')
    ensures Since(st, s, s', since) == since
  {
    hide Requests, Serves;
  }

  lemma SinceSame(st: Setup, s: DevState, s': DevState, since: Counts)
    requires SameServes(st, s, s')
    ensures Since(st, s, s', since) == since
  {
    hide Requests, Serves;
  }

  lemma SinceThen(st: Setup, s: DevState, s1: DevState, s2: DevState, since: Counts)
    requires SameServes(st, s1, s2)
    ensures Since(st, s, s2, since) == Since(st, s, s1, since)
  {
    hide Requests, Serves;
  }

  // ---- What A keeps ----

  ghost predicate Tokens(reqs: seq<Action>) {
    forall k :: 0 <= k < |reqs| ==> reqs[k].AddBaReq? && reqs[k].token == (k + 1) % 0x100
  }

  // Request k is the one the record stands for.
  predicate Answers(ba: BaRecord, reqs: seq<Action>, k: int) {
    0 <= k < |reqs| && reqs[k].AddBaReq? && reqs[k].token == ba.token && reqs[k].start == ba.start
  }

  // A transmit record against the requests sent in the current life of its stream.
  ghost predicate StreamLog(ts: TxTs, reqs: seq<Action>, ok: set<Agreement>) {
    && Tokens(reqs) && ts.pending.token == |reqs| % 0x100
    && (ts.pending.valid ==> Answers(ts.pending, reqs, |reqs| - 1))
    && (ts.admitted.valid ==> (exists k :: Answers(ts.admitted, reqs, k)) && Stored(ts.admitted) in ok)
    && (ts.admitted.valid ==> ts.admitted.param.tid == ts.common.tsid)
  }

  ghost predicate RequestOk(st: Setup, f: Frame) {
    f.action.AddBaReq? ==>
      && f.action.param == BaParam(0, BA_POLICY_IMMEDIATE, f.action.param.tid, 32) && f.action.timeout == 0
      && UserPriorityValue(f.action.param.tid) && (!st.qos ==> f.action.param.tid == 0)
  }

  ghost predicate LogOk(st: Setup, log: seq<Frame>) {
    forall f :: f in log ==> RequestOk(st, f)
  }

  ghost predicate AInv(st: Setup, s: DevState, since: Counts, ok: set<Agreement>) {
    && LogOk(st, s.sent)
    && (forall i :: 0 <= i < |s.tx| && i in s.txl.admit ==>
          s.tx[i].common.dir == AddedDir(st.mode, Tx) && (!st.qos ==> s.tx[i].common.tsid == 0))
    && (forall t: Nibble :: since[t] <= |Requests(s.sent, st.bAddr, t)|)
    && (forall i: nat, t: Nibble :: Serves(s, i, st.bAddr, t) ==> StreamLog(s.tx[i], Current(st, s.sent, since, t), ok))
  }

  // After a step, with the counts as the step makes them.
  ghost predicate AStep(st: Setup, s: DevState, s': DevState, since: Counts, ok: set<Agreement>) {
    AInv(st, s', Since(st, s, s', since), ok)
  }

  lemma AQuiet(st: Setup, s: DevState, s': DevState, more: seq<Frame>, since: Counts, ok: set<Agreement>)
    requires AInv(st, s, since, ok) && NoRequests(more)
    requires s'.tx == s.tx && s'.txl == s.txl && s'.sent == s.sent + more
    ensures AInv(st, s', since, ok) && SameServes(st, s, s') && AStep(st, s, s', since, ok)
  {
    forall t: Nibble ensures Requests(s'.sent, st.bAddr, t) == Requests(s.sent, st.bAddr, t) {
      RequestsQuiet(s.sent, more, st.bAddr, t);
    }
    assert SameServes(st, s, s');
    SinceSame(st, s, s', since);
    hide Requests, StreamLog, Since;
  }

  // Only stream i changes, and only it may send requests.
  lemma ASetTx(st: Setup, s: DevState, i: nat, ts: TxTs, more: seq<Frame>, since: Counts, ok: set<Agreement>)
    requires DevInv(s) && AInv(st, s, since, ok) && i < |s.tx| && i in s.txl.admit && ts.common == s.tx[i].common
    requires LogOk(st, more)
    requires forall t: Nibble :: |Requests(s.sent, st.bAddr, t)| <= |Requests(s.sent + more, st.bAddr, t)|
    requires forall t: Nibble :: t != ts.common.tsid || ts.common.addr != st.bAddr ==>
      Current(st, s.sent + more, since, t) == Current(st, s.sent, since, t)
    requires ts.common.addr == st.bAddr ==> StreamLog(ts, Current(st, s.sent + more, since, ts.common.tsid), ok)
    ensures var s' := SetTx(s, i, ts).(sent := s.sent + more); AInv(st, s', since, ok) && SameServes(st, s, s')
  {
    var s' := SetTx(s, i, ts).(sent := s.sent + more);
    assert SameServes(st, s, s');
    hide Current, Requests, StreamLog;
    forall j: nat, t: Nibble | Serves(s', j, st.bAddr, t)
      ensures StreamLog(s'.tx[j], Current(st, s'.sent, since, t), ok) {
      if j != i && t == ts.common.tsid && ts.common.addr == st.bAddr {
        OneStream(s, i, j);
      }
    }
  }

  // Two streams of one direction for the same peer and TID are one.
  lemma OneStream(s: DevState, i: nat, j: nat)
    requires DevInv(s) && i < |s.tx| && j < |s.tx| && i in s.txl.admit && j in s.txl.admit
    requires s.tx[i].common.addr == s.tx[j].common.addr && s.tx[i].common.tsid == s.tx[j].common.tsid
    requires s.tx[i].common.dir == s.tx[j].common.dir
    ensures i == j
  {
    var c := CommonsTx(s.tx);
    assert IsKey(c[i], c[j].addr, c[j].tsid, c[j].dir);
  }

  // The record may change as long as it stands against the requests as before.
  lemma ASetTxQuiet(st: Setup, s: DevState, i: nat, ts: TxTs, more: seq<Frame>, since: Counts, ok: set<Agreement>)
    requires DevInv(s) && AInv(st, s, since, ok) && i < |s.tx| && i in s.txl.admit && ts.common == s.tx[i].common
    requires NoRequests(more)
    requires forall reqs: seq<Action> :: ts.common.addr == st.bAddr && StreamLog(s.tx[i], reqs, ok) ==>
      StreamLog(ts, reqs, ok)
    ensures var s' := SetTx(s, i, ts).(sent := s.sent + more); AInv(st, s', since, ok) && SameServes(st, s, s')
  {
    forall t: Nibble ensures Requests(s.sent + more, st.bAddr, t) == Requests(s.sent, st.bAddr, t) {
      RequestsQuiet(s.sent, more, st.bAddr, t);
    }
    assert ts.common.addr == st.bAddr ==> Serves(s, i, st.bAddr, ts.common.tsid);
    ASetTx(st, s, i, ts, more, since, ok);
  }

  // A handler that changes one record and sends nothing.
  lemma ASetTxSilent(st: Setup, s: DevState, i: nat, ts: TxTs, since: Counts, ok: set<Agreement>)
    requires DevInv(s) && AInv(st, s, since, ok) && i < |s.tx| && i in s.txl.admit && ts.common == s.tx[i].common
    requires forall reqs: seq<Action> :: ts.common.addr == st.bAddr && StreamLog(s.tx[i], reqs, ok) ==>
      StreamLog(ts, reqs, ok)
    ensures AInv(st, SetTx(s, i, ts), since, ok) && SameServes(st, s, SetTx(s, i, ts))
  {
    hide AInv, DevInv, StreamLog;
    ASetTxQuiet(st, s, i, ts, [], since, ok);
    assert s.sent + [] == s.sent;
    assert SetTx(s, i, ts).(sent := s.sent + []) == SetTx(s, i, ts);
  }

  // Streams of B may go, and anything but requests be sent.
  lemma AFewer(st: Setup, s: DevState, s': DevState, more: seq<Frame>, since: Counts, ok: set<Agreement>)
    requires AInv(st, s, since, ok) && OnlyFewer(st, s, s') && s'.sent == s.sent + more && NoRequests(more)
    requires |s'.tx| == |s.tx|
    requires forall i :: 0 <= i < |s.tx| && i in s'.txl.admit ==> i in s.txl.admit && s'.tx[i].common == s.tx[i].common
    ensures AStep(st, s, s', since, ok)
  {
    forall t: Nibble ensures Requests(s'.sent, st.bAddr, t) == Requests(s.sent, st.bAddr, t) {
      RequestsQuiet(s.sent, more, st.bAddr, t);
    }
    SinceFewer(st, s, s', since);
    hide Requests, StreamLog, Since;
  }

  // ---- A's handlers, record by record ----

  // The pending record may lose its validity, the admitted one its validity and its timer.
  lemma StillLogged(ts: TxTs, ts': TxTs, reqs: seq<Action>, ok: set<Agreement>)
    requires StreamLog(ts, reqs, ok) && ts'.common == ts.common
    requires ts'.pending.valid ==> ts.pending.valid
    requires ts'.pending == ts.pending.(valid := ts'.pending.valid, timer := ts'.pending.timer)
    requires ts'.admitted.valid ==> ts.admitted.valid
    requires ts'.admitted == ts.admitted.(valid := ts'.admitted.valid, timer := ts'.admitted.timer)
    ensures StreamLog(ts', reqs, ok)
  {
    assert forall k :: Answers(ts'.admitted, reqs, k) <==> Answers(ts.admitted, reqs, k);
  }

  lemma QuietRecords(ts: TxTs, mayStart: bool, reqs: seq<Action>, ok: set<Agreement>)
    requires StreamLog(ts, reqs, ok)
    ensures StreamLog(TxOnDelBa(ts), reqs, ok) && StreamLog(TxUse(ts, mayStart), reqs, ok)
    ensures StreamLog(NextSeq(ts), reqs, ok)
  {
    hide StreamLog, SnLess;
    StillLogged(ts, TxOnDelBa(ts), reqs, ok);
    StillLogged(ts, TxUse(ts, mayStart), reqs, ok);
    StillLogged(ts, NextSeq(ts), reqs, ok);
  }

  lemma QuietTimeouts(ts: TxTs, reqs: seq<Action>, ok: set<Agreement>)
    requires StreamLog(ts, reqs, ok)
    ensures StreamLog(SetupTimeout(ts.(pending := ts.pending.(timer := false))), reqs, ok)
    ensures StreamLog(TxInactTimeout(ts.(admitted := ts.admitted.(timer := false))).0, reqs, ok)
  {
    hide StreamLog;
    StillLogged(ts, SetupTimeout(ts.(pending := ts.pending.(timer := false))), reqs, ok);
    StillLogged(ts, TxInactTimeout(ts.(admitted := ts.admitted.(timer := false))).0, reqs, ok);
  }

  // A response is taken only for the latest request of the stream's current life, and then for
  // what B stored.
  lemma ResponseRecord(ts: TxTs, token: Byte, status: Word, param: BaParam, timeout: Word, reqs: seq<Action>,
                       ok: set<Agreement>)
    requires StreamLog(ts, reqs, ok)
    requires status == ADDBA_STATUS_SUCCESS ==> Agreement(token, param, timeout) in ok && param.tid == ts.common.tsid
    ensures var ts' := TxOnRsp(ts, token, status, param, timeout).0;
      && StreamLog(ts', reqs, ok)
      && (ts'.admitted.valid && !ts.admitted.valid ==> Answers(ts'.admitted, reqs, |reqs| - 1))
  {
    var ts' := TxOnRsp(ts, token, status, param, timeout).0;
    if ts.admitted.valid {
      assert ts'.admitted == ts.admitted;
    } else if ts'.admitted.valid {
      assert Answers(ts'.admitted, reqs, |reqs| - 1);
    }
  }

  lemma TokensSnoc(reqs: seq<Action>, a: Action)
    requires Tokens(reqs) && a.AddBaReq? && a.token == (|reqs| + 1) % 0x100
    ensures Tokens(reqs + [a])
  {
  }

  lemma AnswersSnoc(ba: BaRecord, reqs: seq<Action>, a: Action)
    requires exists k :: Answers(ba, reqs, k)
    ensures exists k :: Answers(ba, reqs + [a], k)
  {
    var k :| Answers(ba, reqs, k);
    assert Answers(ba, reqs + [a], k);
  }

  lemma RequestRecord(ts: TxTs, reqs: seq<Action>, ok: set<Agreement>)
    requires StreamLog(ts, reqs, ok) && !ts.pending.valid
    ensures var r := InitAddBa(ts.(addBaTimer := false), BA_POLICY_IMMEDIATE, false);
      |r.1| == 1 && StreamLog(r.0, reqs + r.1, ok)
  {
    var (ts', out) := InitAddBa(ts.(addBaTimer := false), BA_POLICY_IMMEDIATE, false);
    assert out == [out[0]] && ts'.admitted == ts.admitted && ts'.common == ts.common;
    assert Answers(ts'.pending, reqs + [out[0]], |reqs|);
    TokensSnoc(reqs, out[0]);
    if ts.admitted.valid {
      AnswersSnoc(ts.admitted, reqs, out[0]);
    }
    hide Tokens, Answers;
  }

  // ---- A's handlers ----

  ghost predicate SameSetting(st: Setup, c: Caps) {
    c.mode == st.mode && c.qosSupported == st.qos
  }

  lemma RxGetTsFrame(s: DevState, c: Caps, addr: Mac, tid: Byte, add: bool)
    requires Sound(s)
    ensures var s1 := GetTs(s, c, addr, tid, Rx, add).0; s1.tx == s.tx && s1.txl == s.txl && s1.sent == s.sent
  {
  }

  lemma NotAddedIsSame(s: DevState, c: Caps, addr: Mac, tid: Byte, side: Side)
    requires Sound(s)
    ensures GetTs(s, c, addr, tid, side, false).0 == s
  {
  }

  lemma AGetTsRx(st: Setup, s: DevState, c: Caps, addr: Mac, tid: Byte, add: bool, since: Counts, ok: set<Agreement>)
    requires AInv(st, s, since, ok) && Sound(s)
    ensures AStep(st, s, GetTs(s, c, addr, tid, Rx, add).0, since, ok)
  {
    var s' := GetTs(s, c, addr, tid, Rx, add).0;
    RxGetTsFrame(s, c, addr, tid, add);
    assert s.sent + [] == s.sent;
    hide AInv, GetTs, AStep;
    AQuiet(st, s, s', [], since, ok);
  }

  // A new stream starts with no request sent for it.
  lemma AAddTs(st: Setup, s: DevState, addr: Mac, up: Nibble, since: Counts, ok: set<Agreement>)
    requires DevInv(s) && Sound(s) && AInv(st, s, since, ok) && s.txl.unused != [] && (!st.qos ==> up == 0)
    requires !HasKey(s.txl.admit, CommonsTx(s.tx), addr, up, AddedDir(st.mode, Tx))
    ensures AStep(st, s, AddTs(s, st.mode, addr, up, Tx).0, since, ok)
  {
    var s' := AddTs(s, st.mode, addr, up, Tx).0;
    var i := s.txl.unused[0];
    AddedServes(st, s, addr, up, since, ok);
    SinceAdded(st, s, s', i, addr, up, since);
    NothingYet(s'.tx[i], ok);
    hide StreamLog, DevInv, Requests, Current, Serves, Served, Since, HasKey, LogOk;
    CurrentAdded(st, s.sent, since, up);
  }

  lemma NothingYet(ts: TxTs, ok: set<Agreement>)
    requires ts.pending.token == 0 && !ts.pending.valid && !ts.admitted.valid
    ensures StreamLog(ts, [], ok)
  {
  }

  lemma CurrentAdded(st: Setup, log: seq<Frame>, since: Counts, up: Nibble)
    ensures var since' := since[up := |Requests(log, st.bAddr, up)|];
      && Current(st, log, since', up) == []
      && forall t: Nibble :: t != up ==> Current(st, log, since', t) == Current(st, log, since, t)
  {
  }

  lemma AddedServes(st: Setup, s: DevState, addr: Mac, up: Nibble, since: Counts, ok: set<Agreement>)
    requires DevInv(s) && Sound(s) && AInv(st, s, since, ok) && s.txl.unused != []
    requires !HasKey(s.txl.admit, CommonsTx(s.tx), addr, up, AddedDir(st.mode, Tx))
    ensures var s' := AddTs(s, st.mode, addr, up, Tx).0;
      && !Served(s, addr, up) && s.txl.unused[0] !in s.txl.admit
      && forall j: nat, t: Nibble :: Serves(s', j, st.bAddr, t) <==>
           Serves(s, j, st.bAddr, t) || (j == s.txl.unused[0] && addr == st.bAddr && t == up)
  {
    var i := s.txl.unused[0];
    var c := CommonsTx(s.tx);
    hide StreamLog, RxOk, PoolOk, TxLive, TxIdle, Requests, Current, LogOk;
    assert i in s.txl.unused && i !in s.txl.admit;
    forall j: nat ensures !Serves(s, j, addr, up) {
      assert Serves(s, j, addr, up) ==> IsKey(c[j], addr, up, AddedDir(st.mode, Tx));
    }
  }

  lemma SinceAdded(st: Setup, s: DevState, s': DevState, i: nat, addr: Mac, up: Nibble, since: Counts)
    requires !Served(s, addr, up)
    requires forall j: nat, t: Nibble :: Serves(s', j, st.bAddr, t) <==>
      Serves(s, j, st.bAddr, t) || (j == i && addr == st.bAddr && t == up)
    ensures Since(st, s, s', since) == if addr == st.bAddr then since[up := |Requests(s.sent, st.bAddr, up)|] else since
  {
    hide Requests, Serves;
    forall t: Nibble ensures Served(s', st.bAddr, t) <==> Served(s, st.bAddr, t) || (addr == st.bAddr && t == up) {
      if Served(s, st.bAddr, t) {
        var j: nat :| Serves(s, j, st.bAddr, t);
        assert Serves(s', j, st.bAddr, t);
      }
      assert addr == st.bAddr ==> Serves(s', i, st.bAddr, up);
    }
  }

  lemma AGetTs(st: Setup, s: DevState, c: Caps, addr: Mac, tid: Byte, add: bool, since: Counts, ok: set<Agreement>)
    requires DevInv(s) && Sound(s) && AInv(st, s, since, ok) && SameSetting(st, c)
    ensures AStep(st, s, GetTs(s, c, addr, tid, Tx, add).0, since, ok)
  {
    assert SameServes(st, s, s);
    SinceSame(st, s, s, since);
    assert AStep(st, s, s, since, ok);
    hide AInv, AStep, AddTs, Search;
    var up := UserPriority(c.qosSupported, tid);
    if !IsMulticast(addr) && up.Some? {
      SideKeys(s, Tx);
      SearchFinds(c.mode, Tx, s.txl.admit, CommonsTx(s.tx), addr, up.value);
      if Search(c.mode, Tx, s.txl.admit, CommonsTx(s.tx), addr, up.value).None? && add && s.txl.unused != [] {
        AAddTs(st, s, addr, up.value, since, ok);
      } else {
        AddTsMeaning(s, c.mode, addr, up.value, Tx);
      }
    }
  }

  // After a lookup that left the state s1, a step that keeps the streams in use.
  lemma AThen(st: Setup, s: DevState, s1: DevState, s2: DevState, since: Counts, ok: set<Agreement>)
    requires SameServes(st, s1, s2) && AInv(st, s2, Since(st, s, s1, since), ok)
    ensures AStep(st, s, s2, since, ok)
  {
    SinceThen(st, s, s1, s2, since);
  }

  lemma ASame(st: Setup, s: DevState, s': DevState, since: Counts, ok: set<Agreement>)
    requires SameServes(st, s, s') && AInv(st, s', since, ok)
    ensures AStep(st, s, s', since, ok)
  {
    SinceSame(st, s, s', since);
  }

  lemma ANothing(st: Setup, s: DevState, since: Counts, ok: set<Agreement>)
    requires AInv(st, s, since, ok)
    ensures AStep(st, s, s, since, ok)
  {
    ASame(st, s, s, since, ok);
  }

  lemma AReq(st: Setup, s: DevState, c: Caps, src: Mac, token: Byte, param: BaParam, timeout: Word, start: SeqCtrl,
             since: Counts, ok: set<Agreement>)
    requires DevInv(s) && Sound(s) && AInv(st, s, since, ok)
    ensures AStep(st, s, OnAddBaReq(s, c, src, token, param, timeout, start), since, ok)
  {
    hide AInv, AStep, DevInv, GetTs;
    var s' := OnAddBaReq(s, c, src, token, param, timeout, start);
    RxGetTsFrame(s, c, src, param.tid, true);
    var more := s'.sent[|s.sent|..];
    assert s'.tx == s.tx && s'.txl == s.txl && s'.sent == s.sent + more && NoRequests(more);
    AQuiet(st, s, s', more, since, ok);
  }

  lemma ARsp(st: Setup, s: DevState, c: Caps, src: Mac, token: Byte, status: Word, param: BaParam, timeout: Word,
             since: Counts, ok: set<Agreement>)
    requires DevInv(s) && Sound(s) && AInv(st, s, since, ok) && SameSetting(st, c)
    requires src == st.bAddr && status == ADDBA_STATUS_SUCCESS ==>
      Agreement(token, param, timeout) in ok && UserPriority(st.qos, param.tid) == Some(param.tid)
    ensures AStep(st, s, OnAddBaRsp(s, c, src, token, status, param, timeout), since, ok)
  {
    hide AInv, AStep, DevInv, GetTs, TxOnRsp, StreamLog, FoldsTo, SameServes;
    var r := GetTs(s, c, src, param.tid, Tx, false).1;
    NotAddedIsSame(s, c, src, param.tid, Tx);
    GotTx(s, c, src, param.tid, false);
    GetTsMeaning(s, c, src, param.tid, Tx, false);
    var s' := OnAddBaRsp(s, c, src, token, status, param, timeout);
    if c.qosActive && c.ht && c.ampdu && r.Some? {
      var ts := s.tx[r.value];
      var (ts', reason) := TxOnRsp(ts, token, status, param, timeout);
      TxOnRspLive(ts, token, status, param, timeout);
      var more := if reason.Some? then Frames(src, [DelBa(1, param.tid, reason.value)]) else [];
      forall reqs: seq<Action> | ts'.common.addr == st.bAddr && StreamLog(ts, reqs, ok)
        ensures StreamLog(ts', reqs, ok) {
        ResponseRecord(ts, token, status, param, timeout, reqs, ok);
      }
      ASetTxQuiet(st, s, r.value, ts', more, since, ok);
      assert s.sent + [] == s.sent;
      assert s' == SetTx(s, r.value, ts').(sent := s.sent + more);
      ASame(st, s, s', since, ok);
    } else {
      AQuiet(st, s, s', Frames(src, [DelBa(1, param.tid, DELBA_REASON_UNKNOWN_BA)]), since, ok);
    }
  }

  lemma ADelBa(st: Setup, s: DevState, c: Caps, src: Mac, initiator: Bit, tid: Nibble, since: Counts,
               ok: set<Agreement>)
    requires DevInv(s) && Sound(s) && AInv(st, s, since, ok) && SameSetting(st, c)
    ensures AStep(st, s, OnDelBa(s, c, src, initiator, tid), since, ok)
  {
    hide AInv, AStep, DevInv, GetTs, StreamLog, FoldsTo, SameServes;
    var side := if initiator == 1 then Rx else Tx;
    var r := GetTs(s, c, src, tid, side, false).1;
    NotAddedIsSame(s, c, src, tid, side);
    ANothing(st, s, since, ok);
    if r.Some? {
      if initiator == 1 {
        assert s.sent + [] == s.sent;
        AQuiet(st, s, SetRx(s, r.value, RxDeleteBa(s.rx[r.value]).0), [], since, ok);
      } else {
        GotTx(s, c, src, tid, false);
        var ts := s.tx[r.value];
        TxHandlersLive(ts, false);
        forall reqs: seq<Action> | StreamLog(ts, reqs, ok) ensures StreamLog(TxOnDelBa(ts), reqs, ok) {
          QuietRecords(ts, false, reqs, ok);
        }
        ASetTxSilent(st, s, r.value, TxOnDelBa(ts), since, ok);
        ASame(st, s, SetTx(s, r.value, TxOnDelBa(ts)), since, ok);
      }
    }
  }

  lemma ATxPath(st: Setup, s: DevState, c: Caps, dst: Mac, tid: Byte, mayStart: bool, since: Counts, ok: set<Agreement>)
    requires DevInv(s) && Sound(s) && AInv(st, s, since, ok) && SameSetting(st, c)
    ensures AStep(st, s, OnTxData(s, c, dst, tid, mayStart), since, ok)
    ensures AStep(st, s, OnQuerySeq(s, c, dst, tid), since, ok)
  {
    AGetTs(st, s, c, dst, tid, true, since, ok);
    hide AInv, DevInv, GetTs, StreamLog, FoldsTo, SameServes, Since;
    GotTx(s, c, dst, tid, true);
    var (s1, r) := GetTs(s, c, dst, tid, Tx, true);
    if r.Some? {
      var ts, since1 := s1.tx[r.value], Since(st, s, s1, since);
      TxHandlersLive(ts, mayStart);
      forall reqs: seq<Action> | StreamLog(ts, reqs, ok)
        ensures StreamLog(TxUse(ts, mayStart), reqs, ok) && StreamLog(NextSeq(ts), reqs, ok)
      {
        QuietRecords(ts, mayStart, reqs, ok);
      }
      hide AStep, TxUse, NextSeq;
      ASetTxSilent(st, s1, r.value, TxUse(ts, mayStart), since1, ok);
      AThen(st, s, s1, SetTx(s1, r.value, TxUse(ts, mayStart)), since, ok);
      ASetTxSilent(st, s1, r.value, NextSeq(ts), since1, ok);
      AThen(st, s, s1, SetTx(s1, r.value, NextSeq(ts)), since, ok);
    }
  }

  lemma ARxData(st: Setup, s: DevState, c: Caps, src: Mac, tid: Byte, sn: SeqNum, rxb: Rxb, since: Counts,
                ok: set<Agreement>)
    requires DevInv(s) && Sound(s) && AInv(st, s, since, ok)
    ensures AStep(st, s, OnRxData(s, c, src, tid, sn, rxb), since, ok)
  {
    hide AInv, AStep, DevInv, GetTs, Arrive;
    RxGetTsFrame(s, c, src, tid, true);
    assert s.sent + [] == s.sent;
    AQuiet(st, s, OnRxData(s, c, src, tid, sn, rxb), [], since, ok);
  }

  lemma CurrentOne(st: Setup, log: seq<Frame>, f: Frame, since: Counts, t: Nibble)
    requires since[t] <= |Requests(log, st.bAddr, t)|
    ensures |Requests(log, st.bAddr, t)| <= |Requests(log + [f], st.bAddr, t)|
    ensures Current(st, log + [f], since, t)
         == Current(st, log, since, t) + if IsRequest(f, st.bAddr, t) then [f.action] else []
  {
    RequestsOne(log, f, st.bAddr, t);
  }

  // The delay timer: the request goes out and the pending record stands for it.
  lemma AAddBaTimer(st: Setup, s: DevState, i: nat, since: Counts, ok: set<Agreement>)
    requires DevInv(s) && AInv(st, s, since, ok) && i < TOTAL_TS_NUM && i in s.txl.admit && s.tx[i].addBaTimer
    ensures AInv(st, OnAddBaTimer(s, i), since, ok) && SameServes(st, s, OnAddBaTimer(s, i))
  {
    var ts := s.tx[i];
    var (ts', out) := InitAddBa(ts.(addBaTimer := false), BA_POLICY_IMMEDIATE, false);
    assert KeyOk(ts.common);
    if ts.pending.valid {
      ASetTxQuiet(st, s, i, ts', Frames(ts.common.addr, out), since, ok);
    } else {
      var f := Frame(ts.common.addr, out[0]);
      assert Frames(ts.common.addr, out) == [f];
      assert LogOk(st, [f]);
      forall t: Nibble
        ensures |Requests(s.sent, st.bAddr, t)| <= |Requests(s.sent + [f], st.bAddr, t)|
        ensures Current(st, s.sent + [f], since, t)
             == Current(st, s.sent, since, t) + if IsRequest(f, st.bAddr, t) then [out[0]] else []
      {
        CurrentOne(st, s.sent, f, since, t);
      }
      if ts.common.addr == st.bAddr {
        assert Serves(s, i, st.bAddr, ts.common.tsid);
        RequestRecord(ts, Current(st, s.sent, since, ts.common.tsid), ok);
        assert out == [out[0]];
      }
      hide Current, Requests, StreamLog, AInv, DevInv;
      ASetTx(st, s, i, ts', [f], since, ok);
    }
  }

  lemma ASetupTimer(st: Setup, s: DevState, i: nat, since: Counts, ok: set<Agreement>)
    requires DevInv(s) && Sound(s) && AInv(st, s, since, ok) && i < TOTAL_TS_NUM && i in s.txl.admit
    requires s.tx[i].pending.timer
    ensures AStep(st, s, OnSetupTimer(s, i), since, ok)
  {
    hide AInv, AStep, DevInv, StreamLog, SetupTimeout, SameServes;
    var ts := s.tx[i];
    var ts' := SetupTimeout(ts.(pending := ts.pending.(timer := false)));
    TimeoutCommon(ts);
    forall reqs: seq<Action> | StreamLog(ts, reqs, ok) ensures StreamLog(ts', reqs, ok) {
      QuietTimeouts(ts, reqs, ok);
    }
    ASetTxSilent(st, s, i, ts', since, ok);
    ASame(st, s, OnSetupTimer(s, i), since, ok);
  }

  lemma AInactTimer(st: Setup, s: DevState, i: nat, since: Counts, ok: set<Agreement>)
    requires DevInv(s) && Sound(s) && AInv(st, s, since, ok) && i < TOTAL_TS_NUM && i in s.txl.admit
    requires s.tx[i].admitted.timer
    ensures AStep(st, s, OnTxInactTimer(s, i), since, ok)
  {
    hide AInv, AStep, DevInv, StreamLog, TxInactTimeout, SameServes;
    var ts := s.tx[i];
    var (ts', out) := TxInactTimeout(ts.(admitted := ts.admitted.(timer := false)));
    TimeoutCommon(ts);
    forall reqs: seq<Action> | StreamLog(ts, reqs, ok) ensures StreamLog(ts', reqs, ok) {
      QuietTimeouts(ts, reqs, ok);
    }
    ASetTxQuiet(st, s, i, ts', Frames(ts.common.addr, out), since, ok);
    ASame(st, s, OnTxInactTimer(s, i), since, ok);
  }

  lemma TimeoutCommon(ts: TxTs)
    ensures SetupTimeout(ts.(pending := ts.pending.(timer := false))).common == ts.common
    ensures var (ts', out) := TxInactTimeout(ts.(admitted := ts.admitted.(timer := false)));
      ts'.common == ts.common && |out| == 1 && !out[0].AddBaReq?
  {
  }

  lemma ATimer(st: Setup, s: DevState, kind: TimerKind, i: nat, since: Counts, ok: set<Agreement>)
    requires DevInv(s) && Sound(s) && AInv(st, s, since, ok) && i < TOTAL_TS_NUM
    ensures AStep(st, s, HandleTimer(s, kind, i), since, ok)
  {
    ArmedInUse(s, i);
    ANothing(st, s, since, ok);
    hide AInv, AStep, DevInv, TxLive, RxLive, SameServes, SetupTimeout, TxInactTimeout, InitAddBa, Timeout;
    match kind {
      case AddBaDelay =>
        if s.tx[i].addBaTimer {
          AAddBaTimer(st, s, i, since, ok);
          ASame(st, s, OnAddBaTimer(s, i), since, ok);
        }
      case BaSetup => if s.tx[i].pending.timer { ASetupTimer(st, s, i, since, ok); }
      case TxBaInact => if s.tx[i].admitted.timer { AInactTimer(st, s, i, since, ok); }
      case RxBaInact =>
      case RxPktPending =>
        assert s.sent + [] == s.sent;
        AQuiet(st, s, OnPktTimer(s, i), [], since, ok);
    }
  }

  lemma {:induction false} FarewellsQuiet(tx: seq<TxTs>, gone: seq<nat>)
    requires InRange(gone, |tx|)
    ensures NoRequests(FarewellsTx(tx, gone))
  {
    if gone != [] {
      FarewellsQuiet(tx, gone[1..]);
    }
  }

  lemma {:induction false} RxFarewellsQuiet(rx: seq<RxTs>, gone: seq<nat>)
    requires InRange(gone, |rx|)
    ensures NoRequests(FarewellsRx(rx, gone))
  {
    if gone != [] {
      RxFarewellsQuiet(rx, gone[1..]);
    }
  }

  // What a removal leaves in use it leaves alone; it sends no request.
  lemma RemovalEffect(s: DevState, sel: Option<Mac>) returns (more: seq<Frame>)
    requires DevInv(s) && Sound(s)
    ensures var s' := Remove(s, sel);
      && s'.sent == s.sent + more && NoRequests(more) && |s'.tx| == |s.tx|
      && forall i :: 0 <= i < |s.tx| && i in s'.txl.admit ==> i in s.txl.admit && s'.tx[i] == s.tx[i]
  {
    RetireNoneTx(s);
    RemoveTxKeeps(s, sel);
    var s1 := RemoveTx(s, sel);
    RetireNoneRx(s1);
    var gone, goneRx := Chosen(s.txl.admit, CommonsTx(s.tx), sel, false),
      Chosen(s1.rxl.admit, CommonsRx(s1.rx), sel, false);
    FarewellsQuiet(s.tx, gone);
    RxFarewellsQuiet(s1.rx, goneRx);
    more := FarewellsTx(s.tx, gone) + FarewellsRx(s1.rx, goneRx);
    hide TxLive, TxIdle, RxLive, RxIdle, PoolOk, ClearTx, ClearRx, FarewellsTx, FarewellsRx, Released;
    Regroup(s.sent, FarewellsTx(s.tx, gone), FarewellsRx(s1.rx, goneRx));
  }

  lemma ARemove(st: Setup, s: DevState, sel: Option<Mac>, since: Counts, ok: set<Agreement>)
    requires DevInv(s) && Sound(s) && AInv(st, s, since, ok)
    ensures AStep(st, s, Remove(s, sel), since, ok)
  {
    var more := RemovalEffect(s, sel);
    hide AInv, AStep, DevInv, Remove;
    AFewer(st, s, Remove(s, sel), more, since, ok);
  }

  // What may happen at A: a response from B that reports success carries what B has stored, for a
  // TID that is its own user priority.
  ghost predicate AllowedAtA(st: Setup, x: Input, ok: set<Agreement>) {
    && SameSetting(st, x.caps)
    && (x.event.AddBaRspIn? && x.event.src == st.bAddr && x.event.status == ADDBA_STATUS_SUCCESS ==>
          Agreement(x.event.token, x.event.param, x.event.timeout) in ok
          && UserPriority(st.qos, x.event.param.tid) == Some(x.event.param.tid))
  }

  // Every event at A, the removal of B's streams included, keeps the records for B in step with
  // the requests sent in the current life of each stream.
  lemma AHandle(st: Setup, s: DevState, x: Input, since: Counts, ok: set<Agreement>)
    requires DevInv(s) && Sound(s) && AInv(st, s, since, ok) && AllowedAtA(st, x, ok)
    ensures AInv(st, Handle(s, x), Since(st, s, Handle(s, x), since), ok)
  {
    hide AInv, DevInv, Since, Remove, GetTs, OnAddBaReq, OnAddBaRsp, OnDelBa, OnTxData, OnQuerySeq, OnRxData,
         HandleTimer;
    var c := x.caps;
    match x.event {
      case Lookup(addr, tid, side, add) =>
        if side == Tx {
          AGetTs(st, s, c, addr, tid, add, since, ok);
        } else {
          AGetTsRx(st, s, c, addr, tid, add, since, ok);
        }
      case AddBaReqIn(src, token, param, timeout, start) =>
        AReq(st, s, c, src, token, param, timeout, start, since, ok);
      case AddBaRspIn(src, token, status, param, timeout) =>
        ARsp(st, s, c, src, token, status, param, timeout, since, ok);
      case DelBaIn(src, initiator, tid) => ADelBa(st, s, c, src, initiator, tid, since, ok);
      case TxData(dst, tid, mayStart) => ATxPath(st, s, c, dst, tid, mayStart, since, ok);
      case QuerySeq(dst, tid) => ATxPath(st, s, c, dst, tid, false, since, ok);
      case RxData(src, tid, sn, rxb) => ARxData(st, s, c, src, tid, sn, rxb, since, ok);
      case Timer(kind, i) =>
        if i < TOTAL_TS_NUM {
          ATimer(st, s, kind, i, since, ok);
        } else {
          ANothing(st, s, since, ok);
        }
      case RemoveTs(sel) => ARemove(st, s, sel, since, ok);
    }
  }

  // ---- When A comes to hold an agreement ----

  // A response changes at most the record of the stream found, and sends at most a DELBA.
  lemma ResponseEffect(s: DevState, c: Caps, src: Mac, token: Byte, status: Word, param: BaParam, timeout: Word,
                       addr: Mac, t: Nibble)
    requires Sound(s)
    ensures var s' := OnAddBaRsp(s, c, src, token, status, param, timeout);
      var r := GetTs(s, c, src, param.tid, Tx, false).1;
      && Requests(s'.sent, addr, t) == Requests(s.sent, addr, t)
      && s'.tx == if c.qosActive && c.ht && c.ampdu && r.Some? && r.value < |s.tx|
                  then s.tx[r.value := TxOnRsp(s.tx[r.value], token, status, param, timeout).0] else s.tx
  {
    hide GetTs, TxOnRsp, Requests;
    NotAddedIsSame(s, c, src, param.tid, Tx);
    var s' := OnAddBaRsp(s, c, src, token, status, param, timeout);
    var more := s'.sent[|s.sent|..];
    assert s'.sent == s.sent + more && NoRequests(more);
    RequestsQuiet(s.sent, more, addr, t);
  }

  lemma ServedLog(st: Setup, s: DevState, i: nat, t: Nibble, since: Counts, ok: set<Agreement>)
    requires AInv(st, s, since, ok) && Serves(s, i, st.bAddr, t)
    ensures since[t] <= |Requests(s.sent, st.bAddr, t)|
    ensures StreamLog(s.tx[i], Current(st, s.sent, since, t), ok) && s.tx[i].common.dir == AddedDir(st.mode, Tx)
  {
  }

  lemma CurrentLength(st: Setup, log: seq<Frame>, since: Counts, t: Nibble)
    requires since[t] <= |Requests(log, st.bAddr, t)|
    ensures |Current(st, log, since, t)| == |Requests(log, st.bAddr, t)| - since[t]
  {
  }

  // The latest request of the current life is the latest of all.
  lemma LatestOfAll(st: Setup, log: seq<Frame>, since: Counts, t: Nibble, ba: BaRecord)
    requires var cur := Current(st, log, since, t); Answers(ba, cur, |cur| - 1)
    ensures var reqs := Requests(log, st.bAddr, t); Answers(ba, reqs, |reqs| - 1) && since[t] < |reqs|
  {
  }

  // A response changes the record of the stream it is for, and sends no request.
  lemma ResponseAdmits(st: Setup, s: DevState, c: Caps, src: Mac, token: Byte, status: Word, param: BaParam,
                       timeout: Word,
                       since: Counts, ok: set<Agreement>, i: nat, t: Nibble)
    requires DevInv(s) && Sound(s) && AInv(st, s, since, ok) && SameSetting(st, c)
    requires src == st.bAddr && status == ADDBA_STATUS_SUCCESS ==>
      Agreement(token, param, timeout) in ok && UserPriority(st.qos, param.tid) == Some(param.tid)
    requires Serves(s, i, st.bAddr, t) && !s.tx[i].admitted.valid
    ensures var s' := OnAddBaRsp(s, c, src, token, status, param, timeout);
      var reqs := Requests(s.sent, st.bAddr, t);
      && i < |s'.tx| && Requests(s'.sent, st.bAddr, t) == reqs
      && (s'.tx[i].admitted.valid ==>
            src == st.bAddr && Answers(s'.tx[i].admitted, reqs, |reqs| - 1) && since[t] < |reqs|)
  {
    hide AInv, DevInv, GetTs, TxOnRsp, StreamLog, FoldsTo, Requests, Current;
    var (s1, r) := GetTs(s, c, src, param.tid, Tx, false);
    GetTsMeaning(s, c, src, param.tid, Tx, false);
    NotAddedIsSame(s, c, src, param.tid, Tx);
    ResponseEffect(s, c, src, token, status, param, timeout, st.bAddr, t);
    ServedLog(st, s, i, t, since, ok);
    if c.qosActive && c.ht && c.ampdu && r == Some(i) {
      ResponseRecord(s.tx[i], token, status, param, timeout, Current(st, s.sent, since, t), ok);
      var ts' := TxOnRsp(s.tx[i], token, status, param, timeout).0;
      if ts'.admitted.valid {
        LatestOfAll(st, s.sent, since, t, ts'.admitted);
      }
    }
  }

  // A step makes stream i, in use for (addr, t), hold an agreement.
  ghost predicate Admits(s: DevState, s': DevState, i: nat, addr: Mac, t: Nibble) {
    Serves(s, i, addr, t) && !s.tx[i].admitted.valid && i < |s'.tx| && s'.tx[i].admitted.valid
  }

  // The step sends no request for (addr, t), and the agreement answers the latest one sent.
  ghost predicate ForLatest(s: DevState, s': DevState, i: nat, addr: Mac, t: Nibble) {
    var reqs := Requests(s.sent, addr, t);
    Requests(s'.sent, addr, t) == reqs && i < |s'.tx| && Answers(s'.tx[i].admitted, reqs, |reqs| - 1)
  }

  // Only a response from B makes the stream hold an agreement.
  lemma AdmitsAtA(st: Setup, s: DevState, x: Input, since: Counts, ok: set<Agreement>, i: nat, t: Nibble)
    requires DevInv(s) && Sound(s) && AInv(st, s, since, ok) && AllowedAtA(st, x, ok)
    ensures Admits(s, Handle(s, x), i, st.bAddr, t) ==>
      x.event.AddBaRspIn? && x.event.src == st.bAddr && ForLatest(s, Handle(s, x), i, st.bAddr, t)
      && since[t] < |Requests(s.sent, st.bAddr, t)|
  {
    hide DevInv, AInv, GetTs, OnAddBaReq, OnAddBaRsp, OnDelBa, OnTxData, OnQuerySeq, OnRxData, HandleTimer, Remove,
         Requests;
    if Admits(s, Handle(s, x), i, st.bAddr, t) {
      match x.event {
        case AddBaRspIn(src, token, status, param, timeout) =>
          ResponseAdmits(st, s, x.caps, src, token, status, param, timeout, since, ok, i, t);
        case AddBaReqIn(src, token, param, timeout, start) => ReqInherits(s, x.caps, src, token, param, timeout, start);
        case _ => OthersInherit(s, x);
      }
    }
  }

  // Which response to success A takes: exactly one that finds a pending request and no agreement and
  // whose token is that of the latest request, counted from the start of the stream's current life.
  lemma TakenAtA(st: Setup, s: DevState, c: Caps, token: Byte, param: BaParam, timeout: Word,
                 since: Counts, ok: set<Agreement>, i: nat, t: Nibble)
    requires DevInv(s) && Sound(s) && AInv(st, s, since, ok) && SameSetting(st, c)
    requires c.qosActive && c.ht && c.ampdu && param.policy == BA_POLICY_IMMEDIATE
    requires Serves(s, i, st.bAddr, t) && UserPriority(st.qos, param.tid) == Some(t)
    ensures var s' := OnAddBaRsp(s, c, st.bAddr, token, ADDBA_STATUS_SUCCESS, param, timeout);
      && (Admits(s, s', i, st.bAddr, t) <==>
            !s.tx[i].admitted.valid && s.tx[i].pending.valid && token == |Current(st, s.sent, since, t)| % 0x100)
      && (Admits(s, s', i, st.bAddr, t) ==> s'.tx[i].admitted.token == token)
  {
    ServedLog(st, s, i, t, since, ok);
    SideKeys(s, Tx);
    assert InUse(s, Tx, i) && KeyOk(Commons(s, Tx)[i]);
    hide DevInv, AInv, GetTs, Requests, Current, KeyOk, UserPriority;
    HeldIsFound(s, c, Tx, i, st.bAddr, param.tid, false);
    ResponseEffect(s, c, st.bAddr, token, ADDBA_STATUS_SUCCESS, param, timeout, st.bAddr, t);
  }
}
