/**
 Two stations running the driver, an initiator A and a responder B, over a network that may
 lose, duplicate and reorder frames: what either has ever sent may arrive at any time, any
 number of times, and either may remove its streams at any time. Which agreements A can come to
 hold with B.
 */
module TwoParty {
  import opened Basics
  import opened SequenceNumbers
  import opened RxReorder
  import opened BlockAck
  import opened TrafficStreams
  import opened StreamInvariants
  import opened Responder
  import opened Initiator

  // `stored` collects what B's records for A have held in any state of the run; `since` counts,
  // for each TID, the requests A had sent when its stream for B was last added.
  datatype World = World(a: DevState, b: DevState, stored: set<Agreement>, since: Counts)

  datatype Happening =
    | AtA(x: Input)
    | AtB(x: Input)
    | ToA(f: Frame, caps: Caps, start: SeqCtrl)
    | ToB(f: Frame, caps: Caps, start: SeqCtrl)

  // ---- Frames that have been sent stay sent ----

  ghost predicate Keeps(s: DevState, s': DevState) {
    forall f :: f in s.sent ==> f in s'.sent
  }

  lemma GetTsSends(s: DevState, c: Caps, addr: Mac, tid: Byte, side: Side, add: bool)
    requires Sound(s)
    ensures GetTs(s, c, addr, tid, side, add).0.sent == s.sent
  {
  }

  lemma BlockAckSends(s: DevState, c: Caps, src: Mac, token: Byte, status: Word, param: BaParam, timeout: Word,
                      start: SeqCtrl,
                      initiator: Bit, tid: Nibble)
    requires Sound(s)
    ensures Keeps(s, OnAddBaReq(s, c, src, token, param, timeout, start))
    ensures Keeps(s, OnAddBaRsp(s, c, src, token, status, param, timeout))
    ensures Keeps(s, OnDelBa(s, c, src, initiator, tid))
  {
    hide GetTs, TxOnRsp;
    GetTsSends(s, c, src, param.tid, Rx, true);
    GetTsSends(s, c, src, param.tid, Tx, false);
    GetTsSends(s, c, src, tid, Rx, false);
    GetTsSends(s, c, src, tid, Tx, false);
  }

  lemma DataSends(s: DevState, c: Caps, dst: Mac, tid: Byte, mayStart: bool, sn: SeqNum, rxb: Rxb)
    requires Sound(s)
    ensures Keeps(s, OnTxData(s, c, dst, tid, mayStart)) && Keeps(s, OnQuerySeq(s, c, dst, tid))
    ensures Keeps(s, OnRxData(s, c, dst, tid, sn, rxb))
  {
    hide GetTs, Arrive, TxUse;
    GetTsSends(s, c, dst, tid, Rx, true);
    GetTsSends(s, c, dst, tid, Tx, true);
  }

  lemma TimerSends(s: DevState, kind: TimerKind, i: nat)
    requires Sound(s) && i < TOTAL_TS_NUM
    ensures Keeps(s, HandleTimer(s, kind, i))
  {
  }

  lemma RemoveSends(s: DevState, sel: Option<Mac>)
    requires Sound(s)
    ensures Keeps(s, Remove(s, sel))
  {
    hide FarewellsTx, FarewellsRx, Chosen, Released;
    assert Keeps(s, RemoveTx(s, sel));
    assert Keeps(RemoveTx(s, sel), RemoveRx(RemoveTx(s, sel), sel));
  }

  lemma HandleSends(s: DevState, x: Input)
    requires Sound(s)
    ensures Keeps(s, Handle(s, x))
  {
    hide Remove, GetTs, OnAddBaReq, OnAddBaRsp, OnDelBa, OnTxData, OnQuerySeq, OnRxData, HandleTimer;
    var c := x.caps;
    match x.event {
      case Lookup(a, tid, side, add) => GetTsSends(s, c, a, tid, side, add);
      case AddBaReqIn(src, token, param, timeout, start) =>
        BlockAckSends(s, c, src, token, 0, param, timeout, start, 0, 0);
      case AddBaRspIn(src, token, status, param, timeout) =>
        BlockAckSends(s, c, src, token, status, param, timeout, SeqCtrl(0, 0), 0, 0);
      case DelBaIn(src, initiator, tid) => BlockAckSends(s, c, src, 0, 0, NO_PARAM, 0, SeqCtrl(0, 0), initiator, tid);
      case TxData(dst, tid, mayStart) => DataSends(s, c, dst, tid, mayStart, 0, 0);
      case QuerySeq(dst, tid) => DataSends(s, c, dst, tid, false, 0, 0);
      case RxData(src, tid, sn, rxb) => DataSends(s, c, src, tid, false, sn, rxb);
      case Timer(kind, i) => if i < TOTAL_TS_NUM { TimerSends(s, kind, i); }
      case RemoveTs(sel) => RemoveSends(s, sel);
    }
  }

  // ---- The two together ----

  // A station reads the bytes of a frame; the start sequence of a request is read elsewhere.
  function Decoded(caps: Caps, src: Mac, a: Action, start: SeqCtrl): Input {
    match a
    case AddBaReq(_, _, _, _) =>
      var r := ParseReq(Encode(a)).value; Input(caps, AddBaReqIn(src, r.0, r.1, r.2, start))
    case AddBaRsp(_, _, _, _) =>
      var r := ParseRsp(Encode(a)).value; Input(caps, AddBaRspIn(src, r.0, r.1, r.2, r.3))
    case DelBa(initiator, tid, _) => Input(caps, DelBaIn(src, initiator, tid))
  }

  lemma DecodedIs(caps: Caps, src: Mac, a: Action, start: SeqCtrl)
    ensures Decoded(caps, src, a, start) == Input(caps, match a
      case AddBaReq(token, param, timeout, _) => AddBaReqIn(src, token, param, timeout, start)
      case AddBaRsp(token, status, param, timeout) => AddBaRspIn(src, token, status, param, timeout)
      case DelBa(initiator, tid, _) => DelBaIn(src, initiator, tid))
  {
    hide Encode, ParseReq, ParseRsp;
    match a {
      case AddBaReq(token, param, timeout, st) => RequestRoundTrip(token, param, timeout, st);
      case AddBaRsp(token, status, param, timeout) => ResponseRoundTrip(token, status, param, timeout);
      case DelBa(_, _, _) =>
    }
  }

  // Frames of B reach A, and of A reach B, only through the network. A DELBA from B may reach
  // A with any fields, since the driver reads them from beyond the frame.
  ghost predicate Allowed(st: Setup, w: World, h: Happening) {
    match h
    case AtA(x) => SameSetting(st, x.caps) && (x.event.AddBaReqIn? || x.event.AddBaRspIn? ==> x.event.src != st.bAddr)
    case AtB(x) => x.event.AddBaReqIn? || x.event.AddBaRspIn? ==> x.event.src != st.aAddr
    case ToA(f, caps, start) => f in w.b.sent && f.dst == st.aAddr && SameSetting(st, caps)
    case ToB(f, caps, start) => f in w.a.sent && f.dst == st.bAddr
  }

  ghost function AfterA(st: Setup, w: World, x: Input): World
    requires Sound(w.a)
  {
    var a := Handle(w.a, x);
    w.(a := a, since := Since(st, w.a, a, w.since))
  }

  ghost function AfterB(st: Setup, w: World, x: Input): World
    requires Sound(w.b)
  {
    var b := Handle(w.b, x);
    w.(b := b, stored := w.stored + StoredBy(b, st.aAddr))
  }

  ghost function Next(st: Setup, w: World, h: Happening): World
    requires Sound(w.a) && Sound(w.b)
  {
    match h
    case AtA(x) => AfterA(st, w, x)
    case AtB(x) => AfterB(st, w, x)
    case ToA(f, caps, start) => AfterA(st, w, Decoded(caps, st.bAddr, f.action, start))
    case ToB(f, caps, start) => AfterB(st, w, Decoded(caps, st.aAddr, f.action, start))
  }

  // A request of A lies behind what B stored, and B changed nothing of it but the buffer size.
  ghost predicate Requested(st: Setup, log: seq<Frame>, g: Agreement) {
    && g.param == BaParam(0, BA_POLICY_IMMEDIATE, g.param.tid, g.param.bufferSize)
    && (g.param.bufferSize == 1 || g.param.bufferSize == 32)
    && g.timeout == 0 && UserPriorityValue(g.param.tid) && (!st.qos ==> g.param.tid == 0)
    && exists f :: f in log && IsRequest(f, st.bAddr, g.param.tid) && f.action.token == g.token
  }

  ghost predicate AllRequested(st: Setup, log: seq<Frame>, ok: set<Agreement>) {
    forall g :: g in ok ==> Requested(st, log, g)
  }

  ghost predicate WInv(st: Setup, w: World) {
    && DevInv(w.a) && Sound(w.a) && DevInv(w.b) && Sound(w.b)
    && AInv(st, w.a, w.since, w.stored) && BInv(w.b, st.aAddr, w.stored)
    && AllRequested(st, w.a.sent, w.stored)
  }

  lemma RequestedGrows(st: Setup, a: DevState, a': DevState, ok: set<Agreement>)
    requires AllRequested(st, a.sent, ok) && Keeps(a, a')
    ensures AllRequested(st, a'.sent, ok)
  {
    forall g | g in ok ensures Requested(st, a'.sent, g) {
      var f :| f in a.sent && IsRequest(f, st.bAddr, g.param.tid) && f.action.token == g.token;
      assert f in a'.sent;
    }
  }

  lemma AInvGrows(st: Setup, s: DevState, since: Counts, ok: set<Agreement>, ok': set<Agreement>)
    requires AInv(st, s, since, ok) && ok <= ok'
    ensures AInv(st, s, since, ok')
  {
    hide Current, Requests, LogOk;
  }

  lemma StepOfA(st: Setup, w: World, x: Input)
    requires WInv(st, w) && AllowedAtA(st, x, w.stored)
    ensures WInv(st, AfterA(st, w, x))
  {
    hide DevInv, AInv, BInv, AllRequested, Handle, Keeps, AllowedAtA, Since;
    HandleKeeps(w.a, x);
    DevSound(Handle(w.a, x));
    AHandle(st, w.a, x, w.since, w.stored);
    HandleSends(w.a, x);
    RequestedGrows(st, w.a, Handle(w.a, x), w.stored);
  }

  lemma QuietStepOfB(st: Setup, w: World, x: Input)
    requires WInv(st, w) && !(x.event.AddBaReqIn? && x.event.src == st.aAddr)
    ensures WInv(st, AfterB(st, w, x))
  {
    hide DevInv, AInv, BInv, AllRequested, Handle, BQuiet;
    var b := Handle(w.b, x);
    HandleKeeps(w.b, x);
    DevSound(b);
    BHandle(w.b, x, st.aAddr);
    QuietKeeps(w.b, b, st.aAddr, w.stored);
    StoredIn(b, st.aAddr, w.stored);
    assert w.stored + StoredBy(b, st.aAddr) == w.stored;
  }

  // B receives a request of A.
  lemma RequestAtB(st: Setup, w: World, f: Frame, caps: Caps, start: SeqCtrl)
    requires WInv(st, w) && f in w.a.sent && f.dst == st.bAddr && f.action.AddBaReq?
    ensures var x := AddBaReqIn(st.aAddr, f.action.token, f.action.param, f.action.timeout, start);
      WInv(st, AfterB(st, w, Input(caps, x)))
  {
    var x := Input(caps, AddBaReqIn(st.aAddr, f.action.token, f.action.param, f.action.timeout, start));
    var size := if caps.oneFrame then 1 else 32;
    var g := Agreement(f.action.token, f.action.param.(bufferSize := size), f.action.timeout);
    assert Requested(st, w.a.sent, g) by {
      assert RequestOk(st, f);
      assert IsRequest(f, st.bAddr, g.param.tid);
    }
    hide DevInv, AInv, BInv, Requested, GetTs, OnAddBaReq, Handle, Holds;
    var b := Handle(w.b, x);
    RequestHandled(w.b, caps, st.aAddr, f.action.token, f.action.param, f.action.timeout, start);
    HandleKeeps(w.b, x);
    DevSound(b);
    BReq(w.b, caps, st.aAddr, f.action.token, f.action.param, f.action.timeout, start, w.stored);
    StoredMeans(st, w, b, g);
  }

  // B's records after the step are known to be stored, or with g beside them.
  lemma StoredMeans(st: Setup, w: World, b: DevState, g: Agreement)
    requires WInv(st, w) && DevInv(b) && Sound(b) && Requested(st, w.a.sent, g)
    requires BInv(b, st.aAddr, w.stored)
      || (BInv(b, st.aAddr, w.stored + {g}) && exists j: nat :: Holds(b, j, st.aAddr) && Stored(b.rx[j].ba) == g)
    ensures WInv(st, w.(b := b, stored := w.stored + StoredBy(b, st.aAddr)))
  {
    hide DevInv, AInv, Requested;
    var stored := w.stored + StoredBy(b, st.aAddr);
    if BInv(b, st.aAddr, w.stored) {
      StoredIn(b, st.aAddr, w.stored);
      assert stored == w.stored;
    } else {
      StoredIn(b, st.aAddr, w.stored + {g});
      assert stored == w.stored + {g};
      AInvGrows(st, w.a, w.since, w.stored, stored);
    }
  }

  lemma RequestHandled(s: DevState, caps: Caps, src: Mac, token: Byte, param: BaParam, timeout: Word, start: SeqCtrl)
    requires Sound(s)
    ensures Handle(s, Input(caps, AddBaReqIn(src, token, param, timeout, start)))
      == OnAddBaReq(s, caps, src, token, param, timeout, start)
  {
    hide Remove, GetTs, OnAddBaReq, OnAddBaRsp, OnDelBa, OnTxData, OnQuerySeq, OnRxData, HandleTimer;
  }

  // What B has sent as accepted, it has stored, and for a TID that is its own user priority.
  lemma DeliveredIsAllowed(st: Setup, w: World, f: Frame, caps: Caps, start: SeqCtrl)
    requires WInv(st, w) && f in w.b.sent && f.dst == st.aAddr && SameSetting(st, caps)
    ensures AllowedAtA(st, Decoded(caps, st.bAddr, f.action, start), w.stored)
  {
    hide DevInv, AInv, Decoded;
    DecodedIs(caps, st.bAddr, f.action, start);
    if Accepts(f, st.aAddr) {
      assert Offer(f) in w.stored && Requested(st, w.a.sent, Offer(f));
    }
  }

  lemma NextKeeps(st: Setup, w: World, h: Happening)
    requires WInv(st, w) && Allowed(st, w, h)
    ensures WInv(st, Next(st, w, h))
  {
    hide WInv, Handle, AfterB, Decoded;
    assert Sound(w.a) && Sound(w.b) && BInv(w.b, st.aAddr, w.stored) by { WInvParts(st, w); }
    match h {
      case AtA(x) => StepOfA(st, w, x);
      case AtB(x) => QuietStepOfB(st, w, x);
      case ToA(f, caps, start) =>
        DeliveredIsAllowed(st, w, f, caps, start);
        StepOfA(st, w, Decoded(caps, st.bAddr, f.action, start));
      case ToB(f, caps, start) =>
        DecodedIs(caps, st.aAddr, f.action, start);
        if f.action.AddBaReq? {
          RequestAtB(st, w, f, caps, start);
        } else {
          QuietStepOfB(st, w, Decoded(caps, st.aAddr, f.action, start));
        }
    }
  }

  lemma WInvParts(st: Setup, w: World)
    requires WInv(st, w)
    ensures Sound(w.a) && Sound(w.b) && BInv(w.b, st.aAddr, w.stored)
    ensures DevInv(w.a) && DevInv(w.b) && AInv(st, w.a, w.since, w.stored)
  {
  }

  ghost predicate Leads(st: Setup, w0: World, hs: seq<Happening>, w: World)
    decreases |hs|
  {
    if hs == [] then w == w0
    else Sound(w0.a) && Sound(w0.b) && Allowed(st, w0, hs[0]) && Leads(st, Next(st, w0, hs[0]), hs[1..], w)
  }

  ghost predicate Start(w: World) {
    Initial(w.a) && Initial(w.b) && w.stored == {} && forall t: Nibble :: w.since[t] == 0
  }

  // The worlds a run from two freshly initialised stations can lead to.
  ghost predicate Possible(st: Setup, w: World) {
    exists w0: World, hs: seq<Happening> :: Start(w0) && Leads(st, w0, hs, w)
  }

  lemma StartOk(st: Setup, w: World)
    requires Start(w)
    ensures WInv(st, w)
  {
    InitialOk(w.a);
    InitialOk(w.b);
    DevSound(w.a);
    DevSound(w.b);
  }

  lemma {:induction false} LeadsKeeps(st: Setup, w0: World, hs: seq<Happening>, w: World)
    requires WInv(st, w0) && Leads(st, w0, hs, w)
    ensures WInv(st, w)
    decreases |hs|
  {
    hide WInv, Next, Allowed;
    if hs != [] {
      NextKeeps(st, w0, hs[0]);
      LeadsKeeps(st, Next(st, w0, hs[0]), hs[1..], w);
    }
  }

  lemma PossibleInv(st: Setup, w: World)
    requires Possible(st, w)
    ensures WInv(st, w)
  {
    hide WInv;
    var w0, hs :| Start(w0) && Leads(st, w0, hs, w);
    StartOk(st, w0);
    LeadsKeeps(st, w0, hs, w);
  }
  // ---- What A can hold ----

  // Dialog tokens tell the requests of one life of a stream apart exactly as long as there are at
  // most 256.
  lemma TokensUnique(reqs: seq<Action>)
    requires Tokens(reqs)
    ensures |reqs| <= 0x100 <==> (forall p, q :: 0 <= p < q < |reqs| ==> reqs[p].token != reqs[q].token)
  {
    if |reqs| > 0x100 {
      assert reqs[0].token == reqs[0x100].token;
    }
  }

  // The agreement A holds for (B, t): made for request k, one of those sent since the stream was
  // added, with the token and start sequence of that request, and with the very parameters B
  // stored for that token at some time.
  ghost predicate Agreed(w: World, ba: BaRecord, reqs: seq<Action>, k: int, t: Nibble) {
    && w.since[t] <= k && Answers(ba, reqs, k) && Stored(ba) in w.stored
    && (ba.param == BaParam(0, BA_POLICY_IMMEDIATE, t, 1) || ba.param == BaParam(0, BA_POLICY_IMMEDIATE, t, 32))
    && ba.timeout == 0
    && (|reqs| - w.since[t] <= 0x100 ==> OnlyToken(ba.token, reqs, w.since[t], k))
  }

  // From request n on, k is the only one with this token.
  ghost predicate OnlyToken(token: Byte, reqs: seq<Action>, n: nat, k: int) {
    forall p :: n <= p < |reqs| && reqs[p].AddBaReq? && reqs[p].token == token ==> p == k
  }

  // Whatever A holds for B in any world a run can lead to is agreed: it answers a request of the
  // stream's current life, and that one alone while there are at most 256 in it, with its token and
  // its start sequence; B has stored its parameters for that token; they are immediate, for the
  // stream's own TID, with a buffer of 1 or 32, and never expire.
  lemma HeldIsAgreed(st: Setup, w: World, i: nat, t: Nibble)
    requires Possible(st, w) && Serves(w.a, i, st.bAddr, t) && w.a.tx[i].admitted.valid
    ensures exists k :: Agreed(w, w.a.tx[i].admitted, Requests(w.a.sent, st.bAddr, t), k, t)
  {
    PossibleInv(st, w);
    var ba, reqs := w.a.tx[i].admitted, Requests(w.a.sent, st.bAddr, t);
    ServedLog(st, w.a, i, t, w.since, w.stored);
    HeldWasOffered(st, w, i, t);
    hide DevInv, AInv, BInv, WInv, AllRequested, Possible, Requests, Stored;
    var k := AnswersCurrent(ba, reqs, w.since[t], w.a.tx[i], w.stored);
    assert Agreed(w, ba, reqs, k, t);
  }

  lemma HeldWasOffered(st: Setup, w: World, i: nat, t: Nibble)
    requires WInv(st, w) && Serves(w.a, i, st.bAddr, t) && w.a.tx[i].admitted.valid
    ensures var ba := w.a.tx[i].admitted;
      && Stored(ba) in w.stored && ba.timeout == 0
      && (ba.param == BaParam(0, BA_POLICY_IMMEDIATE, t, 1) || ba.param == BaParam(0, BA_POLICY_IMMEDIATE, t, 32))
  {
    ServedLog(st, w.a, i, t, w.since, w.stored);
    assert Requested(st, w.a.sent, Stored(w.a.tx[i].admitted));
  }

  lemma AnswersCurrent(ba: BaRecord, reqs: seq<Action>, n: nat, ts: TxTs, ok: set<Agreement>) returns (k: int)
    requires n <= |reqs| && StreamLog(ts, reqs[n..], ok) && ba == ts.admitted && ba.valid
    ensures n <= k && Answers(ba, reqs, k)
    ensures |reqs| - n <= 0x100 ==> OnlyToken(ba.token, reqs, n, k)
  {
    var cur := reqs[n..];
    var j :| Answers(ba, cur, j);
    k := n + j;
    assert cur[j] == reqs[k];
    TokensUnique(cur);
    forall p | |cur| <= 0x100 && n <= p < |reqs| && reqs[p].AddBaReq? && reqs[p].token == ba.token ensures p == k {
      assert reqs[p] == cur[p - n];
    }
  }

  // The step at which A comes to hold an agreement is the receipt of a response to the latest
  // request it has sent for that stream, in the stream's current life.
  lemma AdmitsLatest(st: Setup, w: World, h: Happening, i: nat, t: Nibble)
    requires Possible(st, w)
    ensures Sound(w.a) && Sound(w.b)
    ensures Allowed(st, w, h) && Admits(w.a, Next(st, w, h).a, i, st.bAddr, t) ==>
      && h.ToA? && h.f.action.AddBaRsp? && ForLatest(w.a, Next(st, w, h).a, i, st.bAddr, t)
      && w.since[t] < |Requests(w.a.sent, st.bAddr, t)|
  {
    hide DevInv, AInv, BInv, Handle, Decoded, AllRequested, Requests, Since;
    PossibleInv(st, w);
    if Allowed(st, w, h) {
      match h {
        case AtA(x) => AdmitsAtA(st, w.a, x, w.since, w.stored, i, t);
        case ToA(f, caps, start) =>
          DeliveredIsAllowed(st, w, f, caps, start);
          DecodedIs(caps, st.bAddr, f.action, start);
          AdmitsAtA(st, w.a, Decoded(caps, st.bAddr, f.action, start), w.since, w.stored, i, t);
        case _ =>
      }
    }
  }

  // A cannot tell which request a response answers but by its token. Whatever acceptance B has ever
  // sent, for a request of this life of the stream or of an earlier one: A takes it exactly if it is
  // waiting for a response and holds no agreement, and the token is the number of requests of this
  // life modulo 256.
  lemma TakenExactly(st: Setup, w: World, f: Frame, caps: Caps, start: SeqCtrl, i: nat, t: Nibble)
    requires Possible(st, w) && f in w.b.sent && Accepts(f, st.aAddr) && SameSetting(st, caps)
    requires caps.qosActive && caps.ht && caps.ampdu && Serves(w.a, i, st.bAddr, t) && f.action.param.tid == t
    ensures Sound(w.a) && Sound(w.b) && Allowed(st, w, ToA(f, caps, start))
    ensures var a' := Next(st, w, ToA(f, caps, start)).a;
      && (Admits(w.a, a', i, st.bAddr, t) <==>
            && !w.a.tx[i].admitted.valid && w.a.tx[i].pending.valid
            && f.action.token == (|Requests(w.a.sent, st.bAddr, t)| - w.since[t]) % 0x100)
      && (Admits(w.a, a', i, st.bAddr, t) ==> a'.tx[i].admitted.token == f.action.token)
  {
    hide *;
    PossibleInv(st, w);
    WInvParts(st, w);
    OffersAreImmediate(st, w, f);
    ServedLog(st, w.a, i, t, w.since, w.stored);
    ResponseDelivered(st, w, f, caps, start);
    TakenAtA(st, w.a, caps, f.action.token, f.action.param, f.action.timeout, w.since, w.stored, i, t);
    CurrentLength(st, w.a.sent, w.since, t);
  }

  lemma ResponseDelivered(st: Setup, w: World, f: Frame, caps: Caps, start: SeqCtrl)
    requires Sound(w.a) && Sound(w.b) && f.action.AddBaRsp? && f in w.b.sent && f.dst == st.aAddr
    requires SameSetting(st, caps)
    ensures Allowed(st, w, ToA(f, caps, start))
    ensures Next(st, w, ToA(f, caps, start)).a
         == OnAddBaRsp(w.a, caps, st.bAddr, f.action.token, f.action.status, f.action.param, f.action.timeout)
  {
    DecodedIs(caps, st.bAddr, f.action, start);
    hide OnAddBaRsp, Handle, Decoded, Since;
    ResponseHandled(w.a, caps, st.bAddr, f.action.token, f.action.status, f.action.param, f.action.timeout);
  }

  lemma OffersAreImmediate(st: Setup, w: World, f: Frame)
    requires WInv(st, w) && f in w.b.sent && Accepts(f, st.aAddr)
    ensures f.dst == st.aAddr && f.action.AddBaRsp? && f.action.status == ADDBA_STATUS_SUCCESS
    ensures f.action.param.policy == BA_POLICY_IMMEDIATE
    ensures UserPriority(st.qos, f.action.param.tid) == Some(f.action.param.tid)
  {
    assert Offer(f) in w.stored && Requested(st, w.a.sent, Offer(f));
  }

  lemma ResponseHandled(s: DevState, caps: Caps, src: Mac, token: Byte, status: Word, param: BaParam, timeout: Word)
    requires Sound(s)
    ensures Handle(s, Input(caps, AddBaRspIn(src, token, status, param, timeout)))
         == OnAddBaRsp(s, caps, src, token, status, param, timeout)
  {
    hide Remove, GetTs, OnAddBaReq, OnAddBaRsp, OnDelBa, OnTxData, OnQuerySeq, OnRxData, HandleTimer;
  }

  // ---- What B's record says beside it ----

  lemma {:induction false} RequestsWereSent(log: seq<Frame>, dst: Mac, t: Nibble, k: nat)
    requires k < |Requests(log, dst, t)|
    ensures var f := Frame(dst, Requests(log, dst, t)[k]); f in log && IsRequest(f, dst, t)
    decreases |log|
  {
    var n := |log| - 1;
    if k < |Requests(log[..n], dst, t)| {
      RequestsWereSent(log[..n], dst, t, k);
    } else {
      assert log[n] == Frame(dst, log[n].action);
    }
  }

  // While A holds an agreement, any of its requests may reach B once more. If B accepts it, its
  // record carries the token of that request afterwards: that of A's agreement exactly if the
  // request carries it, and, of the requests of the stream's current life while there are at most
  // 256, exactly if it is the one the agreement answers. A is not told.
  lemma StaleRequestExactly(st: Setup, w: World, i: nat, t: Nibble, k: nat, caps: Caps, start: SeqCtrl)
    requires Possible(st, w) && Serves(w.a, i, st.bAddr, t) && w.a.tx[i].admitted.valid
    requires k < |Requests(w.a.sent, st.bAddr, t)| && caps.qosActive && caps.ht && !caps.rejectAddBa
    ensures Sound(w.a) && Sound(w.b)
    ensures var reqs := Requests(w.a.sent, st.bAddr, t);
      var h := ToB(Frame(st.bAddr, reqs[k]), caps, start);
      var held, b', r := w.a.tx[i].admitted, Next(st, w, h).b, GetTs(w.b, caps, st.aAddr, t, Rx, true).1;
      && Allowed(st, w, h) && Next(st, w, h).a == w.a && reqs[k].AddBaReq?
      && (r.Some? ==> Holds(b', r.value, st.aAddr)
                      && (b'.rx[r.value].ba.token == held.token <==> reqs[k].token == held.token))
      && (r.Some? && w.since[t] <= k && |reqs| - w.since[t] <= 0x100 ==>
            (b'.rx[r.value].ba.token == held.token <==> Answers(held, reqs, k)))
  {
    PossibleInv(st, w);
    RequestsWereSent(w.a.sent, st.bAddr, t, k);
    HeldIsAgreed(st, w, i, t);
    var a := Requests(w.a.sent, st.bAddr, t)[k];
    DecodedIs(caps, st.aAddr, a, start);
    assert RequestOk(st, Frame(st.bAddr, a)) && a.param.policy == BA_POLICY_IMMEDIATE;
    hide GetTs, DevInv, AInv, BInv, AllRequested, Possible, Holds, OnAddBaReq, Decoded, Handle, RequestOk, Requests,
         Stored, StoredBy;
    RequestHandled(w.b, caps, st.aAddr, a.token, a.param, a.timeout, start);
    AcceptedAtB(w.b, caps, st.aAddr, a.token, a.param, a.timeout, start);
  }
}
