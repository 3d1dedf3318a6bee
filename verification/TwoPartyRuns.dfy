/**
 Runs of the two stations in which what A holds and what B holds fall apart: a response taken for
 a request it does not answer, and a record of B older than A's agreement.
 */
module TwoPartyRuns {
  import opened Basics
  import opened SequenceNumbers
  import opened RxReorder
  import opened BlockAck
  import opened TrafficStreams
  import opened StreamInvariants
  import opened Responder
  import opened Initiator
  import opened TwoParty

  // ---- One step more ----

  lemma {:induction false} LeadsSnoc(st: Setup, w0: World, hs: seq<Happening>, w: World, h: Happening)
    requires Leads(st, w0, hs, w) && Sound(w.a) && Sound(w.b) && Allowed(st, w, h)
    ensures Leads(st, w0, hs + [h], Next(st, w, h))
    decreases |hs|
  {
    hide Next, Allowed, Sound;
    if hs == [] {
      assert hs + [h] == [h] && [h][1..] == [];
      assert Leads(st, Next(st, w0, h), [], Next(st, w, h));
    } else {
      LeadsSnoc(st, Next(st, w0, hs[0]), hs[1..], w, h);
      assert (hs + [h])[1..] == hs[1..] + [h];
    }
  }

  lemma PossibleNext(st: Setup, w: World, h: Happening) returns (w': World)
    requires Possible(st, w) && Sound(w.a) && Sound(w.b) && Allowed(st, w, h)
    ensures w' == Next(st, w, h) && Possible(st, w') && WInv(st, w')
    ensures DevInv(w'.a) && Sound(w'.a) && DevInv(w'.b) && Sound(w'.b)
  {
    hide *;
    w' := Next(st, w, h);
    PossibleExtends(st, w, h);
    PossibleInv(st, w');
    WInvParts(st, w');
  }

  lemma PossibleExtends(st: Setup, w: World, h: Happening)
    requires Possible(st, w) && Sound(w.a) && Sound(w.b) && Allowed(st, w, h)
    ensures Possible(st, Next(st, w, h))
  {
    hide Leads, Next, Allowed, Sound;
    var w0, hs :| Start(w0) && Leads(st, w0, hs, w);
    LeadsSnoc(st, w0, hs, w, h);
  }

  // ---- What single events do to A ----

  // Block Ack may be used.
  function Able(st: Setup): Caps {
    Caps(st.mode, st.qos, true, true, true, false, false)
  }

  // The record of a stream whose first attempt has just been started.
  function Started(dst: Mac, t: Nibble, dir: Dir): TxTs {
    TxTs(TsCommon(dst, t, dir, false, false), 0, IDLE_BA, IDLE_BA, true, false, false, false, true)
  }

  lemma HandledTx(s: DevState, c: Caps, dst: Mac, tid: Byte, kind: TimerKind, i: nat)
    requires Sound(s) && i < TOTAL_TS_NUM
    ensures Handle(s, Input(c, TxData(dst, tid, true))) == OnTxData(s, c, dst, tid, true)
    ensures Handle(s, Input(c, Timer(kind, i))) == HandleTimer(s, kind, i)
  {
    hide Remove, GetTs, OnAddBaReq, OnAddBaRsp, OnDelBa, OnTxData, OnQuerySeq, OnRxData, HandleTimer;
  }

  // A frame for a peer and TID without a stream adds one and starts an attempt on it.
  lemma FirstData(s: DevState, c: Caps, dst: Mac, t: Nibble)
    requires DevInv(s) && Sound(s) && !IsMulticast(dst) && UserPriority(c.qosSupported, t) == Some(t)
    requires !Served(s, dst, t) && s.txl.unused != []
    ensures var s', i := OnTxData(s, c, dst, t, true), s.txl.unused[0];
      && i < |s.tx| && s'.tx == s.tx[i := Started(dst, t, AddedDir(c.mode, Tx))]
      && i in s'.txl.admit && s'.sent == s.sent
  {
    var i := s.txl.unused[0];
    assert i in s.txl.unused && TxIdle(s.tx[i]);
    NoStream(s, c, dst, t);
    hide DevInv, GetTs;
  }

  lemma NoStream(s: DevState, c: Caps, dst: Mac, t: Nibble)
    requires DevInv(s) && Sound(s) && !IsMulticast(dst) && UserPriority(c.qosSupported, t) == Some(t)
    requires !Served(s, dst, t)
    ensures GetTs(s, c, dst, t, Tx, true) == AddTs(s, c.mode, dst, t, Tx)
  {
    SideKeys(s, Tx);
    SearchFinds(c.mode, Tx, s.txl.admit, CommonsTx(s.tx), dst, t);
    forall i: nat ensures !(i < |s.tx| && i in s.txl.admit && IsKey(CommonsTx(s.tx)[i], dst, t, AddedDir(c.mode, Tx))) {
      assert !Serves(s, i, dst, t);
    }
    hide DevInv, AddTs, Search;
  }

  // The delay timer of a stream with nothing pending sends the next request.
  lemma DelayTimer(s: DevState, i: nat)
    requires i < |s.tx| && s.tx[i].addBaTimer && !s.tx[i].pending.valid
    ensures var s', ts := OnAddBaTimer(s, i), s.tx[i];
      var ba := s'.tx[i].pending;
      && s'.tx == s.tx[i := ts.(addBaTimer := false, pending := ba)] && s'.txl == s.txl
      && ba.valid && ba.timer && ba.token == (ts.pending.token + 1) % 0x100
      && s'.sent == s.sent + [Frame(ts.common.addr,
        AddBaReq(ba.token, BaParam(0, BA_POLICY_IMMEDIATE, ts.common.tsid, 32), 0, ba.start))]
  {
  }

  // ---- A response taken for a request it does not answer ----

  lemma AtAIs(st: Setup, w: World, x: Input)
    requires Sound(w.a) && Sound(w.b)
    ensures var w' := Next(st, w, AtA(x)); w'.a == Handle(w.a, x) && w'.b == w.b
  {
    hide Handle, Since;
  }

  // A step of A alone.
  lemma StepAtA(st: Setup, w: World, e: Event) returns (w': World)
    requires Possible(st, w) && Sound(w.a) && Sound(w.b) && !e.AddBaReqIn? && !e.AddBaRspIn?
    ensures Possible(st, w') && w'.b == w.b && w'.a == Handle(w.a, Input(Able(st), e))
    ensures DevInv(w'.a) && Sound(w'.a) && Sound(w'.b)
    ensures w' == Next(st, w, AtA(Input(Able(st), e))) && Allowed(st, w, AtA(Input(Able(st), e)))
  {
    hide DevInv, WInv, Handle, Next, Possible, Sound;
    AtAIs(st, w, Input(Able(st), e));
    w' := PossibleNext(st, w, AtA(Input(Able(st), e)));
  }

  // A has no stream for (B, t), and has a frame to send.
  lemma FirstFrame(st: Setup, w: World, t: Nibble) returns (w': World, i: nat)
    requires Possible(st, w) && Sound(w.a) && Sound(w.b) && DevInv(w.a)
    requires !Served(w.a, st.bAddr, t) && w.a.txl.unused != []
    requires !IsMulticast(st.bAddr) && UserPriority(st.qos, t) == Some(t)
    ensures Possible(st, w') && DevInv(w'.a) && Sound(w'.a) && Sound(w'.b)
    ensures w' == Next(st, w, AtA(Input(Able(st), TxData(st.bAddr, t, true)))) && w'.b == w.b && w'.a.sent == w.a.sent
    ensures i < TOTAL_TS_NUM && Serves(w'.a, i, st.bAddr, t)
    ensures w'.a.tx[i] == Started(st.bAddr, t, AddedDir(st.mode, Tx))
  {
    i := w.a.txl.unused[0];
    hide DevInv, Handle, Next, OnTxData, Possible, UserPriority, Served;
    HandledTx(w.a, Able(st), st.bAddr, t, AddBaDelay, i);
    FirstData(w.a, Able(st), st.bAddr, t);
    w' := StepAtA(st, w, TxData(st.bAddr, t, true));
  }

  // The frame that carries the request of record ba for TID t.
  function RequestFrame(st: Setup, ba: BaRecord, t: Nibble): Frame {
    Frame(st.bAddr, AddBaReq(ba.token, BaParam(0, BA_POLICY_IMMEDIATE, t, 32), 0, ba.start))
  }

  // The delay timer of stream i runs out: the next request goes out.
  lemma Delay(st: Setup, w: World, i: nat, t: Nibble) returns (w': World)
    requires Possible(st, w) && Sound(w.a) && Sound(w.b) && i < TOTAL_TS_NUM && Serves(w.a, i, st.bAddr, t)
    requires w.a.tx[i].addBaTimer && !w.a.tx[i].pending.valid
    ensures Possible(st, w') && DevInv(w'.a) && Sound(w'.a) && Sound(w'.b)
    ensures w' == Next(st, w, AtA(Input(Able(st), Timer(AddBaDelay, i)))) && w'.b == w.b
    ensures Serves(w'.a, i, st.bAddr, t)
    ensures var ts, ba := w.a.tx[i], w'.a.tx[i].pending;
      && ba.valid && ba.timer && ba.token == (ts.pending.token + 1) % 0x100
      && w'.a.tx[i] == ts.(addBaTimer := false, pending := ba)
      && w'.a.sent == w.a.sent + [RequestFrame(st, ba, t)]
  {
    hide DevInv, Handle, Next, OnAddBaTimer, Possible;
    HandledTx(w.a, Able(st), st.bAddr, 0, AddBaDelay, i);
    DelayTimer(w.a, i);
    w' := StepAtA(st, w, Timer(AddBaDelay, i));
  }

  // f is an acceptance of B for the first request of some life of A's stream for TID t.
  ghost predicate FirstAnswer(st: Setup, w: World, f: Frame, t: Nibble) {
    f in w.b.sent && Accepts(f, st.aAddr) && f.action.token == 1 && f.action.param.tid == t
  }

  // Wherever A has no stream for (B, t) and a record left for one, any such acceptance B has ever
  // sent is stale; yet in three steps of A, and none of B, it makes A hold an agreement: a frame to
  // send, the delay timer, and the acceptance arriving once more. A's agreement stands for the
  // request it has just sent; B has received nothing of A in between.
  lemma StaleResponseTaken(st: Setup, w: World, f: Frame, t: Nibble) returns (w1: World, w2: World, i: nat)
    requires Possible(st, w) && FirstAnswer(st, w, f, t)
    requires !Served(w.a, st.bAddr, t) && w.a.txl.unused != [] && !IsMulticast(st.bAddr)
    ensures Sound(w.a) && Sound(w.b) && Sound(w1.a) && Sound(w1.b) && Sound(w2.a) && Sound(w2.b)
    ensures w1 == Next(st, w, AtA(Input(Able(st), TxData(st.bAddr, t, true))))
    ensures w2 == Next(st, w1, AtA(Input(Able(st), Timer(AddBaDelay, i))))
    ensures Possible(st, w2) && w2.b == w.b && |w2.a.sent| == |w.a.sent| + 1
    ensures Allowed(st, w2, ToA(f, Able(st), SeqCtrl(0, 0)))
    ensures Admits(w2.a, Next(st, w2, ToA(f, Able(st), SeqCtrl(0, 0))).a, i, st.bAddr, t)
  {
    hide *;
    PossibleInv(st, w);
    WInvParts(st, w);
    FirstAnswerMeans(st, w, f, t);
    w1, i := FirstFrame(st, w, t);
    StartedMeans(st.bAddr, t, AddedDir(st.mode, Tx));
    w2 := Delay(st, w1, i, t);
    AbleMeans(st);
    PendingCount(st, w2, i, t);
    TakenExactly(st, w2, f, Able(st), SeqCtrl(0, 0), i, t);
  }

  lemma AbleMeans(st: Setup)
    ensures SameSetting(st, Able(st)) && Able(st).qosActive && Able(st).ht && Able(st).ampdu && !Able(st).rejectAddBa
  {
  }

  lemma StartedMeans(dst: Mac, t: Nibble, dir: Dir)
    ensures var ts := Started(dst, t, dir);
      ts.addBaTimer && !ts.pending.valid && ts.pending.token == 0 && !ts.admitted.valid && !ts.disabled
  {
  }

  lemma FirstAnswerMeans(st: Setup, w: World, f: Frame, t: Nibble)
    requires WInv(st, w) && FirstAnswer(st, w, f, t)
    ensures f in w.b.sent && Accepts(f, st.aAddr) && f.action.AddBaRsp? && f.action.token == 1
    ensures f.action.param.tid == t
    ensures UserPriority(st.qos, t) == Some(t)
  {
    OffersAreImmediate(st, w, f);
  }

  // The token of a pending record counts the requests of the current life.
  lemma PendingCount(st: Setup, w: World, i: nat, t: Nibble)
    requires Possible(st, w) && Serves(w.a, i, st.bAddr, t)
    ensures i < |w.a.tx|
    ensures w.a.tx[i].pending.token == (|Requests(w.a.sent, st.bAddr, t)| - w.since[t]) % 0x100
  {
    PossibleInv(st, w);
    ServedLog(st, w.a, i, t, w.since, w.stored);
    CurrentLength(st, w.a.sent, w.since, t);
    hide Possible, DevInv, AInv, Requests, Current, Tokens, Answers;
  }

  // ---- What single events do to B ----

  // A request for a new or known stream is accepted while an unused record is left.
  lemma AcceptsRequest(b: DevState, c: Caps, src: Mac, token: Byte, param: BaParam, timeout: Word, start: SeqCtrl)
    requires DevInv(b) && Sound(b) && c.qosActive && c.ht && !c.rejectAddBa && param.policy == BA_POLICY_IMMEDIATE
    requires !IsMulticast(src) && UserPriority(c.qosSupported, param.tid).Some? && b.rxl.unused != []
    ensures var b', r := OnAddBaReq(b, c, src, token, param, timeout, start), GetTs(b, c, src, param.tid, Rx, true).1;
      && r.Some? && Holds(b', r.value, src) && b'.rx[r.value].ba.token == token
      && b'.sent == b.sent + [Frame(src, AddBaRsp(token, ADDBA_STATUS_SUCCESS,
                                                  param.(bufferSize := if c.oneFrame then 1 else 32), timeout))]
      && |b'.rxl.unused| >= |b.rxl.unused| - 1
  {
    GetTsMeaning(b, c, src, param.tid, Rx, true);
    AcceptedAtB(b, c, src, token, param, timeout, start);
    LookupTakesOne(b, c, src, param.tid);
    hide DevInv, GetTs, Holds;
  }

  lemma LookupTakesOne(b: DevState, c: Caps, src: Mac, tid: Byte)
    requires Sound(b)
    ensures var b1 := GetTs(b, c, src, tid, Rx, true).0; |b1.rxl.unused| >= |b.rxl.unused| - 1 && b1.sent == b.sent
  {
  }

  lemma AtBIs(st: Setup, w: World, f: Frame, caps: Caps, start: SeqCtrl)
    requires Sound(w.a) && Sound(w.b) && f.action.AddBaReq? && f in w.a.sent && f.dst == st.bAddr
    ensures var w' := Next(st, w, ToB(f, caps, start));
      && Allowed(st, w, ToB(f, caps, start)) && w'.a == w.a
      && w'.b == OnAddBaReq(w.b, caps, st.aAddr, f.action.token, f.action.param, f.action.timeout, start)
  {
    DecodedIs(caps, st.aAddr, f.action, start);
    hide Decoded, Handle, OnAddBaReq, StoredBy;
    RequestHandled(w.b, caps, st.aAddr, f.action.token, f.action.param, f.action.timeout, start);
  }

  // A request of A reaches B, which accepts it.
  lemma Delivered(st: Setup, w: World, ba: BaRecord, t: Nibble) returns (w': World, j: nat, rsp: Frame)
    requires Possible(st, w) && Sound(w.a) && Sound(w.b) && DevInv(w.b) && RequestFrame(st, ba, t) in w.a.sent
    requires !IsMulticast(st.aAddr) && UserPriority(st.qos, t) == Some(t) && w.b.rxl.unused != []
    ensures Possible(st, w') && w' == Next(st, w, ToB(RequestFrame(st, ba, t), Able(st), SeqCtrl(0, 0)))
    ensures DevInv(w'.a) && Sound(w'.a) && Sound(w'.b) && DevInv(w'.b) && w'.a == w.a
    ensures Holds(w'.b, j, st.aAddr) && w'.b.rx[j].ba.token == ba.token && |w'.b.rxl.unused| >= |w.b.rxl.unused| - 1
    ensures rsp in w'.b.sent && Accepts(rsp, st.aAddr) && rsp.action.token == ba.token && rsp.action.param.tid == t
  {
    var f, c := RequestFrame(st, ba, t), Able(st);
    hide DevInv, Sound, Next, OnAddBaReq, Possible, UserPriority, GetTs, Holds;
    AtBIs(st, w, f, c, SeqCtrl(0, 0));
    AcceptsRequest(w.b, c, st.aAddr, ba.token, f.action.param, 0, SeqCtrl(0, 0));
    w' := PossibleNext(st, w, ToB(f, c, SeqCtrl(0, 0)));
    j := GetTs(w.b, c, st.aAddr, t, Rx, true).1.value;
    rsp := Frame(st.aAddr, AddBaRsp(ba.token, ADDBA_STATUS_SUCCESS, f.action.param.(bufferSize := 32), 0));
  }

  // ---- A stale answer does come about ----

  function Zeros(): Counts {
    seq(16, _ => 0)
  }

  lemma StartWorld(st: Setup) returns (w: World)
    ensures Start(w) && Possible(st, w) && DevInv(w.a) && Sound(w.a) && DevInv(w.b) && Sound(w.b)
    ensures w.a.txl.unused != [] && |w.b.rxl.unused| >= 2 && w.a.sent == []
    ensures forall t: Nibble :: !Served(w.a, st.bAddr, t)
  {
    var free := seq(REORDER_ENTRY_NUM, i requires 0 <= i < REORDER_ENTRY_NUM => Entry(i, 0, 0));
    var l := Lists(Upto(TOTAL_TS_NUM), [], []);
    var s := DevState(seq(TOTAL_TS_NUM, i => IDLE_TX), seq(TOTAL_TS_NUM, i => IDLE_RX), l, l, free, [], []);
    assert Ids(free) == Upto(REORDER_ENTRY_NUM);
    w := World(s, s, {}, Zeros());
    InitialOk(s);
    assert Leads(st, w, [], w);
  }

  // A removes the streams of B.
  lemma RemovedPeer(st: Setup, w: World, i: nat, t: Nibble) returns (w': World)
    requires Possible(st, w) && Sound(w.a) && Sound(w.b) && DevInv(w.a) && Serves(w.a, i, st.bAddr, t)
    ensures Possible(st, w') && w' == Next(st, w, AtA(Input(Able(st), RemoveTs(Some(st.bAddr))))) && w'.b == w.b
    ensures DevInv(w'.a) && Sound(w'.a) && Sound(w'.b)
    ensures w'.a.txl.unused != [] && !Served(w'.a, st.bAddr, t)
  {
    var x := Input(Able(st), RemoveTs(Some(st.bAddr)));
    HandleRemove(w.a, x);
    PeerGone(w.a, st.bAddr, i, t);
    hide *;
    w' := StepAtA(st, w, x.event);
  }

  lemma PeerGone(s: DevState, addr: Mac, i: nat, t: Nibble)
    requires DevInv(s) && Sound(s) && Serves(s, i, addr, t)
    ensures var s' := Remove(s, Some(addr)); s'.txl.unused != [] && !Served(s', addr, t)
  {
    RemovedLists(s, Some(addr));
    var more := RemovalEffect(s, Some(addr));
    hide DevInv, Remove;
    assert i in Chosen(s.txl.admit, CommonsTx(s.tx), Some(addr), false);
  }

  lemma PriorityZero(qos: bool)
    ensures UserPriority(qos, 0) == Some(0)
  {
  }

  lemma LastSent(log: seq<Frame>, f: Frame)
    ensures f in log + [f]
  {
  }

  // Two stations, and A with a first frame to send.
  lemma Starting(st: Setup) returns (w: World, i: nat)
    requires !IsMulticast(st.bAddr)
    ensures Possible(st, w) && DevInv(w.a) && Sound(w.a) && DevInv(w.b) && Sound(w.b)
    ensures |w.b.rxl.unused| >= 2 && i < TOTAL_TS_NUM && Serves(w.a, i, st.bAddr, 0) && i < |w.a.tx|
    ensures var ts := w.a.tx[i];
      ts == Started(st.bAddr, 0, AddedDir(st.mode, Tx)) && ts.addBaTimer && !ts.pending.valid && ts.pending.token == 0
  {
    PriorityZero(st.qos);
    StartedMeans(st.bAddr, 0, AddedDir(st.mode, Tx));
    hide *;
    var w0 := StartWorld(st);
    w, i := FirstFrame(st, w0, 0);
    ServesMeans(w.a, i, st.bAddr, 0);
  }

  // Two stations, and the first request of A sent.
  lemma Requesting(st: Setup) returns (w: World, i: nat)
    requires !IsMulticast(st.bAddr)
    ensures Possible(st, w) && DevInv(w.a) && Sound(w.a) && DevInv(w.b) && Sound(w.b)
    ensures |w.b.rxl.unused| >= 2 && i < TOTAL_TS_NUM && Serves(w.a, i, st.bAddr, 0) && i < |w.a.tx|
    ensures var ts := w.a.tx[i];
      && ts == Started(st.bAddr, 0, AddedDir(st.mode, Tx)).(addBaTimer := false, pending := ts.pending)
      && ts.pending.valid && ts.pending.timer && ts.pending.token == 1
      && RequestFrame(st, ts.pending, 0) in w.a.sent
  {
    hide *;
    var w1;
    w1, i := Starting(st);
    w := Delay(st, w1, i, 0);
    ServesMeans(w.a, i, st.bAddr, 0);
    LastSent(w1.a.sent, RequestFrame(st, w.a.tx[i].pending, 0));
  }

  lemma ServesMeans(s: DevState, i: nat, addr: Mac, t: Nibble)
    requires Serves(s, i, addr, t)
    ensures i < |s.tx|
  {
  }

  // The first request answered, and A's streams for B removed: a world in which StaleResponseTaken
  // applies.
  lemma StaleAnswerExists(st: Setup) returns (w: World, f: Frame)
    requires !IsMulticast(st.aAddr) && !IsMulticast(st.bAddr)
    ensures Possible(st, w) && FirstAnswer(st, w, f, 0)
    ensures !Served(w.a, st.bAddr, 0) && w.a.txl.unused != []
  {
    PriorityZero(st.qos);
    hide *;
    var w1, i := Requesting(st);
    var ba := w1.a.tx[i].pending;
    var w2, j;
    w2, j, f := Delivered(st, w1, ba, 0);
    w := RemovedPeer(st, w2, i, 0);
    IsFirstAnswer(st, w, f, 0);
  }

  lemma IsFirstAnswer(st: Setup, w: World, f: Frame, t: Nibble)
    requires f in w.b.sent && Accepts(f, st.aAddr) && f.action.token == 1 && f.action.param.tid == t
    ensures FirstAnswer(st, w, f, t)
  {
  }

  // ---- A record of B older than A's agreement ----

  // The setup timer runs out: the attempt ends.
  lemma Expired(st: Setup, w: World, i: nat, t: Nibble) returns (w': World)
    requires Possible(st, w) && Sound(w.a) && Sound(w.b) && i < TOTAL_TS_NUM && Serves(w.a, i, st.bAddr, t)
    requires w.a.tx[i].pending.timer
    ensures Possible(st, w') && DevInv(w'.a) && Sound(w'.a) && Sound(w'.b) && w'.b == w.b
    ensures Serves(w'.a, i, st.bAddr, t) && i < |w'.a.tx| && w'.a.sent == w.a.sent
    ensures w'.a.tx[i] == SetupTimeout(w.a.tx[i].(pending := w.a.tx[i].pending.(timer := false)))
  {
    hide DevInv, Handle, Next, Possible, SetupTimeout;
    HandledTx(w.a, Able(st), st.bAddr, 0, BaSetup, i);
    TimeoutCommon(w.a.tx[i]);
    w' := StepAtA(st, w, Timer(BaSetup, i));
  }

  // Another frame to send on the same stream.
  lemma NextFrame(st: Setup, w: World, i: nat, t: Nibble) returns (w': World)
    requires Possible(st, w) && Sound(w.a) && Sound(w.b) && i < TOTAL_TS_NUM && Serves(w.a, i, st.bAddr, t)
    requires UserPriority(st.qos, t) == Some(t)
    ensures Possible(st, w') && DevInv(w'.a) && Sound(w'.a) && Sound(w'.b) && w'.b == w.b
    ensures Serves(w'.a, i, st.bAddr, t) && i < |w'.a.tx| && w'.a.sent == w.a.sent
    ensures w'.a.tx[i] == TxUse(w.a.tx[i], true)
  {
    var c := Able(st);
    StreamIsFound(st, w, c, i, t);
    hide DevInv, Handle, Next, Possible, TxUse, GetTs, UserPriority;
    HandledTx(w.a, c, st.bAddr, t, BaSetup, i);
    UseCommon(w.a.tx[i]);
    w' := StepAtA(st, w, TxData(st.bAddr, t, true));
  }

  lemma UseCommon(ts: TxTs)
    ensures TxUse(ts, true).common == ts.common
  {
  }

  lemma StreamIsFound(st: Setup, w: World, c: Caps, i: nat, t: Nibble)
    requires Possible(st, w) && Sound(w.a) && Serves(w.a, i, st.bAddr, t) && SameSetting(st, c)
    requires UserPriority(st.qos, t) == Some(t)
    ensures GetTs(w.a, c, st.bAddr, t, Tx, true) == (w.a, Some(i))
  {
    PossibleInv(st, w);
    ServedLog(st, w.a, i, t, w.since, w.stored);
    SideKeys(w.a, Tx);
    assert InUse(w.a, Tx, i) && KeyOk(Commons(w.a, Tx)[i]);
    hide DevInv, AInv, Possible, KeyOk, UserPriority, GetTs;
    HeldIsFound(w.a, c, Tx, i, st.bAddr, t, true);
  }

  // An attempt that ran into its timeout is started again by the next frame.
  lemma Restarted(ts: TxTs)
    requires !ts.admitted.valid && !ts.disabled && ts.pending.valid && !ts.addBaTimer
    ensures var ts' := TxUse(SetupTimeout(ts.(pending := ts.pending.(timer := false))), true);
      && ts'.addBaTimer && !ts'.pending.valid && ts'.pending.token == ts.pending.token
      && !ts'.admitted.valid && !ts'.disabled
  {
  }

  // Two stations, the first request of A timed out and the second sent; both may still arrive.
  lemma AskedTwice(st: Setup) returns (w: World, i: nat, first: BaRecord)
    requires !IsMulticast(st.bAddr)
    ensures Possible(st, w) && DevInv(w.a) && Sound(w.a) && DevInv(w.b) && Sound(w.b)
    ensures |w.b.rxl.unused| >= 2 && i < TOTAL_TS_NUM && Serves(w.a, i, st.bAddr, 0) && i < |w.a.tx|
    ensures !w.a.tx[i].admitted.valid && w.a.tx[i].pending.valid && w.a.tx[i].pending.token == 2 && first.token == 1
    ensures RequestFrame(st, first, 0) in w.a.sent && RequestFrame(st, w.a.tx[i].pending, 0) in w.a.sent
  {
    PriorityZero(st.qos);
    StartedMeans(st.bAddr, 0, AddedDir(st.mode, Tx));
    hide *;
    var w1;
    w1, i := Requesting(st);
    first := w1.a.tx[i].pending;
    AfterRequest(w1.a.tx[i], Started(st.bAddr, 0, AddedDir(st.mode, Tx)));
    var w2 := Expired(st, w1, i, 0);
    w := AskedAgain(st, w2, i, w1.a.tx[i]);
    LastSent(w2.a.sent, RequestFrame(st, w.a.tx[i].pending, 0));
  }

  lemma AfterRequest(ts: TxTs, s: TxTs)
    requires ts == s.(addBaTimer := false, pending := ts.pending) && !s.admitted.valid && !s.disabled
    requires ts.pending.valid
    ensures !ts.admitted.valid && !ts.disabled && !ts.addBaTimer
  {
  }

  lemma FrameAfterTimeout(st: Setup, w: World, i: nat, was: TxTs) returns (w': World)
    requires Possible(st, w) && Sound(w.a) && Sound(w.b) && i < TOTAL_TS_NUM && Serves(w.a, i, st.bAddr, 0)
    requires i < |w.a.tx|
    requires w.a.tx[i] == SetupTimeout(was.(pending := was.pending.(timer := false)))
    requires !was.admitted.valid && !was.disabled && was.pending.valid && !was.addBaTimer
    ensures Possible(st, w') && Sound(w'.a) && Sound(w'.b) && w'.b == w.b && w'.a.sent == w.a.sent
    ensures Serves(w'.a, i, st.bAddr, 0) && i < |w'.a.tx| && w'.a.tx[i].addBaTimer && !w'.a.tx[i].pending.valid
    ensures !w'.a.tx[i].admitted.valid && w'.a.tx[i].pending.token == was.pending.token
  {
    PriorityZero(st.qos);
    Restarted(was);
    hide *;
    w' := NextFrame(st, w, i, 0);
  }

  lemma AskedAgain(st: Setup, w: World, i: nat, was: TxTs) returns (w': World)
    requires Possible(st, w) && Sound(w.a) && Sound(w.b) && i < TOTAL_TS_NUM && Serves(w.a, i, st.bAddr, 0)
    requires i < |w.a.tx|
    requires w.a.tx[i] == SetupTimeout(was.(pending := was.pending.(timer := false)))
    requires !was.admitted.valid && !was.disabled && was.pending.valid && !was.addBaTimer && was.pending.token == 1
    ensures Possible(st, w') && DevInv(w'.a) && Sound(w'.a) && Sound(w'.b) && w'.b == w.b
    ensures Serves(w'.a, i, st.bAddr, 0) && i < |w'.a.tx|
    ensures !w'.a.tx[i].admitted.valid && w'.a.tx[i].pending.valid && w'.a.tx[i].pending.token == 2
    ensures w'.a.sent == w.a.sent + [RequestFrame(st, w'.a.tx[i].pending, 0)]
  {
    hide *;
    var w1 := FrameAfterTimeout(st, w, i, was);
    w' := Delay(st, w1, i, 0);
    ServesMeans(w'.a, i, st.bAddr, 0);
  }

  // B answers the second request, A takes the answer, and then the first request arrives at B.
  lemma OlderRecordHappens(st: Setup) returns (w: World, i: nat, j: nat)
    requires !IsMulticast(st.aAddr) && !IsMulticast(st.bAddr)
    ensures Possible(st, w)
    ensures Serves(w.a, i, st.bAddr, 0) && w.a.tx[i].admitted.valid && w.a.tx[i].admitted.token == 2
    ensures Holds(w.b, j, st.aAddr) && w.b.rx[j].ba.token == 1
  {
    PriorityZero(st.qos);
    hide *;
    var w1, first;
    w1, i, first := AskedTwice(st);
    var w2, k, rsp := Delivered(st, w1, w1.a.tx[i].pending, 0);
    var w3 := Taken(st, w2, rsp, i, 0);
    HandleSendsAt(w2, w3, RequestFrame(st, first, 0));
    w, j, rsp := Delivered(st, w3, first, 0);
  }

  lemma HandleSendsAt(w: World, w': World, f: Frame)
    requires f in w.a.sent && Keeps(w.a, w'.a)
    ensures f in w'.a.sent
  {
  }

  lemma Taken(st: Setup, w: World, f: Frame, i: nat, t: Nibble) returns (w': World)
    requires Possible(st, w) && DevInv(w.a) && Sound(w.a) && Sound(w.b)
    requires f in w.b.sent && Accepts(f, st.aAddr) && f.action.param.tid == t && Serves(w.a, i, st.bAddr, t)
    requires i < |w.a.tx|
    requires !w.a.tx[i].admitted.valid && w.a.tx[i].pending.valid && w.a.tx[i].pending.token == f.action.token
    ensures Possible(st, w') && DevInv(w'.b) && Sound(w'.a) && Sound(w'.b) && w'.b == w.b && Keeps(w.a, w'.a)
    ensures Serves(w'.a, i, st.bAddr, t) && i < |w'.a.tx|
    ensures w'.a.tx[i].admitted.valid && w'.a.tx[i].admitted.token == f.action.token
  {
    hide *;
    AcceptsMeans(f, st.aAddr);
    TakenTest(st, w, f, i, t);
    ResponseKeepsStream(st, w, f, i, t);
    w' := PossibleNext(st, w, ToA(f, Able(st), SeqCtrl(0, 0)));
    TookMeans(w.a, w'.a, i, st.bAddr, t);
  }

  lemma TakenTest(st: Setup, w: World, f: Frame, i: nat, t: Nibble)
    requires Possible(st, w) && Sound(w.a) && Sound(w.b)
    requires f in w.b.sent && Accepts(f, st.aAddr) && f.action.param.tid == t && Serves(w.a, i, st.bAddr, t)
    requires i < |w.a.tx|
    requires !w.a.tx[i].admitted.valid && w.a.tx[i].pending.valid && w.a.tx[i].pending.token == f.action.token
    ensures var h := ToA(f, Able(st), SeqCtrl(0, 0)); var a' := Next(st, w, h).a;
      && Allowed(st, w, h) && Admits(w.a, a', i, st.bAddr, t)
      && (i < |a'.tx| ==> a'.tx[i].admitted.token == f.action.token)
  {
    AcceptsMeans(f, st.aAddr);
    AbleMeans(st);
    hide *;
    PendingCount(st, w, i, t);
    TakenExactly(st, w, f, Able(st), SeqCtrl(0, 0), i, t);
  }

  lemma TookMeans(s: DevState, s': DevState, i: nat, addr: Mac, t: Nibble)
    requires Admits(s, s', i, addr, t)
    ensures i < |s'.tx| && s'.tx[i].admitted.valid
  {
  }

  lemma AcceptsMeans(f: Frame, addr: Mac)
    requires Accepts(f, addr)
    ensures f.action.AddBaRsp? && f.dst == addr
  {
  }

  lemma ResponseKeepsStream(st: Setup, w: World, f: Frame, i: nat, t: Nibble)
    requires Sound(w.a) && Sound(w.b) && DevInv(w.a) && f in w.b.sent && Accepts(f, st.aAddr)
    requires Serves(w.a, i, st.bAddr, t)
    ensures var w' := Next(st, w, ToA(f, Able(st), SeqCtrl(0, 0)));
      w'.b == w.b && Keeps(w.a, w'.a) && Serves(w'.a, i, st.bAddr, t)
  {
    var x := Decoded(Able(st), st.bAddr, f.action, SeqCtrl(0, 0));
    DecodedIs(Able(st), st.bAddr, f.action, SeqCtrl(0, 0));
    hide DevInv, Handle, Decoded, Keeps, Since;
    HandleSends(w.a, x);
    HandleExtends(w.a, x);
  }
}
