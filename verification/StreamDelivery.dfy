/**
 In-order delivery for the streams of a whole device: what one receive stream goes through in a
 run of the device is a run of its reorder buffer, so its frames reach the stack in order.
 */
module StreamDelivery {
  import opened Basics
  import opened SequenceNumbers
  import opened RxReorder
  import opened BlockAck
  import opened TrafficStreams
  import opened StreamInvariants

  // ---- One stream of the device ----

  // What event x is to receive stream j: a frame for it, its timer, or nothing.
  function StreamEvent(s: DevState, x: Input, j: nat): Option<RxEvent>
    requires Sound(s) && j < TOTAL_TS_NUM
  {
    match x.event
    case RxData(src, tid, sn, rxb) =>
      if GetTs(s, x.caps, src, tid, Rx, true).1 == Some(j) then Some(Arrival(sn, rxb, s.free)) else None
    case Timer(kind, i) => if kind.RxPktPending? && i == j && s.rx[j].queue.timer then Some(Expire) else None
    case _ => None
  }

  ghost function StreamEvents(s: DevState, xs: seq<Input>, j: nat): seq<RxEvent>
    requires j < TOTAL_TS_NUM
    decreases |xs|
  {
    if xs == [] || !Sound(s) then []
    else AsSeq(StreamEvent(s, xs[0], j)) + StreamEvents(Handle(s, xs[0]), xs[1..], j)
  }

  function AsSeq(e: Option<RxEvent>): seq<RxEvent> {
    if e.Some? then [e.value] else []
  }

  // The frames delivered through stream j, in order.
  function Through(log: seq<Delivery>, j: nat): seq<Pkt> {
    if log == [] then []
    else
      var n := |log| - 1;
      Through(log[..n], j) + if log[n].stream == j then [log[n].pkt] else []
  }

  lemma {:induction false} ThroughTagged(log: seq<Delivery>, i: nat, pkts: seq<Pkt>, j: nat)
    ensures Through(log + Tagged(i, pkts), j) == Through(log, j) + if i == j then pkts else []
    decreases |pkts|
  {
    if pkts == [] {
      assert log + Tagged(i, pkts) == log;
    } else {
      var n := |pkts| - 1;
      ThroughTagged(log, i, pkts[..n], j);
      var all := log + Tagged(i, pkts);
      assert all[..|all| - 1] == log + Tagged(i, pkts[..n]);
      assert pkts == pkts[..n] + [pkts[n]];
    }
  }

  // ---- One event ----

  // Queue and deliveries of stream j after an event, as its buffer alone has them.
  ghost predicate Follows(s: DevState, s': DevState, j: nat, e: Option<RxEvent>) {
    && j < |s.rx| && j < |s'.rx|
    && (e.None? ==> s'.rx[j].queue == s.rx[j].queue && Through(s'.indicated, j) == Through(s.indicated, j))
    && (e.Some? ==>
          var (q, out) := Step(s.rx[j].queue, e.value);
          s'.rx[j].queue == q && Through(s'.indicated, j) == Through(s.indicated, j) + out)
  }

  // The queue of j and the log are as they were.
  ghost predicate Untouched(s: DevState, s': DevState, j: nat) {
    j < |s.rx| && j < |s'.rx| && s'.rx[j].queue == s.rx[j].queue && s'.indicated == s.indicated
  }

  lemma GetTsLeaves(s: DevState, c: Caps, addr: Mac, tid: Byte, side: Side, add: bool, j: nat)
    requires DevInv(s) && Sound(s) && j < TOTAL_TS_NUM && j in s.rxl.admit
    ensures Untouched(s, GetTs(s, c, addr, tid, side, add).0, j) && GetTs(s, c, addr, tid, side, add).0.free == s.free
  {
    assert s.rxl.unused != [] ==> s.rxl.unused[0] in s.rxl.unused;
  }

  lemma BlockAckLeaves(s: DevState, x: Input, j: nat)
    requires DevInv(s) && Sound(s) && j < TOTAL_TS_NUM && j in s.rxl.admit
    requires x.event.AddBaReqIn? || x.event.AddBaRspIn? || x.event.DelBaIn?
    ensures Untouched(s, Handle(s, x), j)
  {
    hide DevInv, GetTs, TxOnRsp, Remove, OnTxData, OnQuerySeq, OnRxData, HandleTimer;
    var c := x.caps;
    match x.event {
      case AddBaReqIn(src, token, param, timeout, start) => GetTsLeaves(s, c, src, param.tid, Rx, true, j);
      case AddBaRspIn(src, token, status, param, timeout) => GetTsLeaves(s, c, src, param.tid, Tx, false, j);
      case DelBaIn(src, initiator, tid) => GetTsLeaves(s, c, src, tid, if initiator == 1 then Rx else Tx, false, j);
    }
  }

  lemma TxPathLeaves(s: DevState, c: Caps, dst: Mac, tid: Byte, mayStart: bool, j: nat)
    requires DevInv(s) && Sound(s) && j < TOTAL_TS_NUM && j in s.rxl.admit
    ensures Untouched(s, OnTxData(s, c, dst, tid, mayStart), j) && Untouched(s, OnQuerySeq(s, c, dst, tid), j)
  {
    hide DevInv, GetTs, TxUse;
    GetTsLeaves(s, c, dst, tid, Tx, true, j);
  }

  lemma RemoveLeaves(s: DevState, sel: Option<Mac>, j: nat)
    requires DevInv(s) && Sound(s) && j < TOTAL_TS_NUM && j in s.rxl.admit
    requires sel.Some? && sel.value != s.rx[j].common.addr
    ensures Untouched(s, Remove(s, sel), j)
  {
    RetireNoneTx(s);
    RetireNoneRx(RemoveTx(s, sel));
    hide FarewellsTx, FarewellsRx, Released;
  }

  lemma RxDataFollows(s: DevState, c: Caps, src: Mac, tid: Byte, sn: SeqNum, rxb: Rxb, j: nat)
    requires DevInv(s) && Sound(s) && j < TOTAL_TS_NUM && j in s.rxl.admit
    ensures var e := if GetTs(s, c, src, tid, Rx, true).1 == Some(j) then Some(Arrival(sn, rxb, s.free)) else None;
      Follows(s, OnRxData(s, c, src, tid, sn, rxb), j, e)
  {
    hide DevInv, GetTs, Arrive;
    GetTsLeaves(s, c, src, tid, Rx, true, j);
    var (s1, r) := GetTs(s, c, src, tid, Rx, true);
    if r.Some? {
      var a := Arrive(s1.rx[r.value].queue, s1.free, sn, rxb);
      ThroughTagged(s1.indicated, r.value, a.delivered, j);
      assert (sn as int) % SEQ_MOD == sn;
    }
  }

  lemma TimeoutAnyPool(q: RxQueue, free: seq<Entry>)
    ensures Timeout(q, free).queue == Timeout(q, []).queue && Timeout(q, free).delivered == Timeout(q, []).delivered
  {
    hide DrainCount, DrainSeq;
  }

  lemma TimerFollows(s: DevState, kind: TimerKind, i: nat, j: nat)
    requires Sound(s) && i < TOTAL_TS_NUM && j < TOTAL_TS_NUM
    ensures var e := if kind.RxPktPending? && i == j && s.rx[j].queue.timer then Some(Expire) else None;
      Follows(s, HandleTimer(s, kind, i), j, e)
  {
    hide Timeout;
    if kind.RxPktPending? && s.rx[i].queue.timer {
      var a := Timeout(s.rx[i].queue, s.free);
      TimeoutAnyPool(s.rx[i].queue, s.free);
      ThroughTagged(s.indicated, i, a.delivered, j);
    }
  }

  lemma UntouchedFollows(s: DevState, s': DevState, j: nat)
    requires Untouched(s, s', j)
    ensures Follows(s, s', j, None)
  {
  }

  // Every event but the removal of its peer is to stream j what StreamEvent says.
  lemma HandleFollows(s: DevState, x: Input, j: nat)
    requires DevInv(s) && Sound(s) && j < TOTAL_TS_NUM && j in s.rxl.admit && Spares(x, s.rx[j].common.addr)
    ensures Follows(s, Handle(s, x), j, StreamEvent(s, x, j))
  {
    hide DevInv, Follows, Untouched, Remove, GetTs, OnAddBaReq, OnAddBaRsp, OnDelBa, OnTxData, OnQuerySeq, OnRxData,
         HandleTimer;
    var c, s' := x.caps, Handle(s, x);
    match x.event {
      case Lookup(addr, tid, side, add) =>
        GetTsLeaves(s, c, addr, tid, side, add, j);
        UntouchedFollows(s, s', j);
      case AddBaReqIn(src, token, param, timeout, start) =>
        BlockAckLeaves(s, x, j);
        UntouchedFollows(s, s', j);
      case AddBaRspIn(src, token, status, param, timeout) =>
        BlockAckLeaves(s, x, j);
        UntouchedFollows(s, s', j);
      case DelBaIn(src, initiator, tid) =>
        BlockAckLeaves(s, x, j);
        UntouchedFollows(s, s', j);
      case TxData(dst, tid, mayStart) =>
        TxPathLeaves(s, c, dst, tid, mayStart, j);
        UntouchedFollows(s, s', j);
      case QuerySeq(dst, tid) =>
        TxPathLeaves(s, c, dst, tid, false, j);
        UntouchedFollows(s, s', j);
      case RxData(src, tid, sn, rxb) => RxDataFollows(s, c, src, tid, sn, rxb, j);
      case Timer(kind, i) =>
        if i < TOTAL_TS_NUM {
          TimerFollows(s, kind, i, j);
        } else {
          SameFollows(s, j);
        }
      case RemoveTs(sel) =>
        RemoveLeaves(s, sel, j);
        UntouchedFollows(s, s', j);
    }
  }

  lemma SameFollows(s: DevState, j: nat)
    requires j < |s.rx|
    ensures Follows(s, s, j, None)
  {
  }

  // ---- Whole runs ----

  // Queue and deliveries of stream j after a run, as its buffer alone has them.
  ghost predicate Ran(s: DevState, s': DevState, j: nat, es: seq<RxEvent>) {
    && j < |s.rx| && j < |s'.rx|
    && s'.rx[j].queue == Run(s.rx[j].queue, es).0
    && Through(s'.indicated, j) == Through(s.indicated, j) + Run(s.rx[j].queue, es).1
  }

  lemma RanNone(s: DevState, j: nat)
    requires j < |s.rx|
    ensures Ran(s, s, j, [])
  {
    assert Through(s.indicated, j) + [] == Through(s.indicated, j);
  }

  lemma RanThen(s: DevState, s1: DevState, s': DevState, j: nat, e: Option<RxEvent>, es: seq<RxEvent>)
    requires Follows(s, s1, j, e) && Ran(s1, s', j, es)
    ensures Ran(s, s', j, AsSeq(e) + es)
  {
    hide Run, Step, Through;
    if e.Some? {
      RunCons(s.rx[j].queue, e.value, es);
      var a, b := Step(s.rx[j].queue, e.value).1, Run(s1.rx[j].queue, es).1;
      assert Through(s.indicated, j) + a + b == Through(s.indicated, j) + (a + b);
    } else {
      assert [] + es == es;
    }
  }

  lemma HeldInUse(s: DevState, j: nat, addr: Mac, tsid: Nibble, dir: Dir)
    requires Held(s, Rx, j, addr, tsid, dir)
    ensures j < |s.rx| && j in s.rxl.admit && s.rx[j].common.addr == addr
  {
  }

  // Over a run that does not remove its peer, the queue and the deliveries of a stream in use
  // are those of its buffer run on its own events.
  lemma {:induction false} StreamRun(s: DevState, xs: seq<Input>, s': DevState, j: nat, addr: Mac, tsid: Nibble,
                                     dir: Dir)
    requires DevInv(s) && Reachable(s, xs, s') && j < TOTAL_TS_NUM && Held(s, Rx, j, addr, tsid, dir)
    requires forall k :: 0 <= k < |xs| ==> Spares(xs[k], addr)
    ensures Ran(s, s', j, StreamEvents(s, xs, j))
    decreases |xs|
  {
    hide DevInv, Held, Handle, StreamEvent, Follows, Ran, Spares, AsSeq;
    HeldInUse(s, j, addr, tsid, dir);
    if xs == [] {
      RanNone(s, j);
    } else {
      var s1 := Handle(s, xs[0]);
      HandleFollows(s, xs[0], j);
      HandleHolds(s, xs[0], Rx, j, addr, tsid, dir);
      HandleKeeps(s, xs[0]);
      StreamRun(s1, xs[1..], s', j, addr, tsid, dir);
      RanThen(s, s1, s', j, StreamEvent(s, xs[0], j), StreamEvents(s1, xs[1..], j));
    }
  }

  // ---- The frames' own numbers ----

  // The same frames, pools and expiries; the numbers of the frames agree in the 12 bits a
  // header shows.
  ghost predicate SameFrames(es: seq<RxEvent>, fs: seq<RxEvent>) {
    |es| == |fs| && forall k :: 0 <= k < |es| ==> SameFrame(es[k], fs[k])
  }

  ghost predicate SameFrame(e: RxEvent, f: RxEvent) {
    if e.Arrival? then f.Arrival? && e.t % SEQ_MOD == f.t % SEQ_MOD && e.rxb == f.rxb && e.free == f.free else f.Expire?
  }

  lemma {:induction false} RunSame(q: RxQueue, es: seq<RxEvent>, fs: seq<RxEvent>)
    requires SameFrames(es, fs)
    ensures Run(q, es) == Run(q, fs)
    decreases |es|
  {
    hide Arrive, Timeout;
    if es != [] {
      assert SameFrame(es[0], fs[0]);
      RunSame(Step(q, es[0]).0, es[1..], fs[1..]);
    }
  }

  // Every run of frames has a numbering from any first number on, each frame within half the
  // number space of where the window then starts ...
  lemma {:induction false} NumberingExists(i: Ideal, es: seq<RxEvent>) returns (fs: seq<RxEvent>)
    ensures SameFrames(fs, es) && HalfWindow(i, fs)
    decreases |es|
  {
    hide IdealStep;
    if es == [] {
      fs := [];
    } else {
      var f := if es[0].Arrival? then es[0].(t := Nearest(i.next, es[0].t % SEQ_MOD)) else Expire;
      var rest := NumberingExists(IdealStep(i, f).0, es[1..]);
      fs := [f] + rest;
      assert fs[1..] == rest && forall k :: 1 <= k < |es| ==> es[k] == es[1..][k - 1];
    }
  }

  // ... and only one.
  lemma {:induction false} NumberingIsUnique(i: Ideal, fs: seq<RxEvent>, gs: seq<RxEvent>)
    requires SameFrames(fs, gs) && HalfWindow(i, fs) && HalfWindow(i, gs)
    ensures fs == gs
    decreases |fs|
  {
    hide IdealStep;
    if fs != [] {
      assert SameFrame(fs[0], gs[0]);
      if fs[0].Arrival? {
        NearestIsUnique(i.next, fs[0].t % SEQ_MOD, fs[0].t);
        NearestIsUnique(i.next, fs[0].t % SEQ_MOD, gs[0].t);
      }
      NumberingIsUnique(IdealStep(i, fs[0]).0, fs[1..], gs[1..]);
    }
  }

  // ---- In order, stream by stream ----

  // A stream that has been reset first goes through an arrival: its timer is not running.
  lemma {:induction false} FirstArrives(s: DevState, xs: seq<Input>, s': DevState, j: nat, addr: Mac, tsid: Nibble,
                                        dir: Dir)
    requires DevInv(s) && Reachable(s, xs, s') && j < TOTAL_TS_NUM && Held(s, Rx, j, addr, tsid, dir)
    requires forall k :: 0 <= k < |xs| ==> Spares(xs[k], addr)
    requires j < |s.rx| && s.rx[j].queue == EMPTY_QUEUE
    ensures var es := StreamEvents(s, xs, j); es != [] ==> es[0].Arrival?
    decreases |xs|
  {
    hide DevInv, Held, Handle, Spares, Through, GetTs, Step;
    HeldInUse(s, j, addr, tsid, dir);
    if xs != [] && Sound(s) {
      HandleFollows(s, xs[0], j);
      HandleHolds(s, xs[0], Rx, j, addr, tsid, dir);
      HandleKeeps(s, xs[0]);
      if StreamEvent(s, xs[0], j).None? {
        FirstArrives(Handle(s, xs[0]), xs[1..], s', j, addr, tsid, dir);
        assert [] + StreamEvents(Handle(s, xs[0]), xs[1..], j) == StreamEvents(Handle(s, xs[0]), xs[1..], j);
      }
    }
  }

  // A stream that is added starts with its reorder buffer reset, and nothing delivered.
  lemma AddedIsReset(s: DevState, c: Caps, addr: Mac, tid: Byte)
    requires DevInv(s) && Sound(s)
    ensures var (s1, r) := GetTs(s, c, addr, tid, Rx, true);
      && s1.indicated == s.indicated
      && (r.Some? && r.value in s.rxl.unused ==> r.value < |s1.rx| && s1.rx[r.value].queue == EMPTY_QUEUE)
  {
    assert forall i :: i in s.rxl.admit ==> i !in s.rxl.unused;
    assert s.rxl.unused != [] ==> s.rxl.unused[0] in s.rxl.unused && RxIdle(s.rx[s.rxl.unused[0]]);
  }

  // A frame that is the first of its stream adds it and is then received on it.
  lemma AddsThenReceives(s: DevState, c: Caps, src: Mac, tid: Byte, sn: SeqNum, rxb: Rxb)
    requires DevInv(s) && Sound(s)
    ensures OnRxData(GetTs(s, c, src, tid, Rx, true).0, c, src, tid, sn, rxb) == OnRxData(s, c, src, tid, sn, rxb)
  {
    GetTsMeaning(s, c, src, tid, Rx, true);
    GetTsKeeps(s, c, src, tid, Rx, true);
    hide DevInv, GetTs, Arrive;
    var (s1, r) := GetTs(s, c, src, tid, Rx, true);
    if r.Some? {
      HeldIsFound(s1, c, Rx, r.value, src, tid, true);
    }
  }

  // nums are frames of fs, in strictly increasing order, and what the run handed to the stack
  // through stream j.
  ghost predicate InOrder(before: seq<Delivery>, after: seq<Delivery>, j: nat, fs: seq<RxEvent>, nums: seq<Numbered>) {
    && Through(after, j) == Through(before, j) + Wrap(nums)
    && Ascending(nums)
    && forall k :: 0 <= k < |nums| ==> Received(fs, nums[k])
  }

  // From the lookup that adds a receive stream on, through any run of the device that does not
  // remove the peer, whatever else the device does: if each frame for the stream is within half
  // the number space of where its window then starts, the stack gets frames that were received,
  // in strictly increasing order, none twice. fs gives the frames their own numbers.
  lemma StreamDeliversInOrder(s: DevState, c: Caps, addr: Mac, tid: Byte, xs: seq<Input>, s': DevState,
                              fs: seq<RxEvent>)
    requires DevInv(s) && Sound(s)
    requires forall k :: 0 <= k < |xs| ==> Spares(xs[k], addr)
    ensures var (s1, r) := GetTs(s, c, addr, tid, Rx, true);
      r.Some? && r.value in s.rxl.unused && Reachable(s1, xs, s') && SameFrames(fs, StreamEvents(s1, xs, r.value))
      && (fs != [] && fs[0].Arrival? ==> HalfWindow(Ideal(fs[0].t, map[], false), fs)) ==>
        exists nums :: InOrder(s.indicated, s'.indicated, r.value, fs, nums)
  {
    GetTsMeaning(s, c, addr, tid, Rx, true);
    GetTsKeeps(s, c, addr, tid, Rx, true);
    AddedIsReset(s, c, addr, tid);
    hide DevInv, GetTs, Through, StreamEvents, SameFrames, HalfWindow, Reachable, Spares, InOrder;
    var (s1, r) := GetTs(s, c, addr, tid, Rx, true);
    if r.Some? && r.value in s.rxl.unused && Reachable(s1, xs, s') && SameFrames(fs, StreamEvents(s1, xs, r.value))
       && (fs != [] && fs[0].Arrival? ==> HalfWindow(Ideal(fs[0].t, map[], false), fs)) {
      var up := UserPriority(c.qosSupported, tid);
      ResetDelivers(s1, xs, s', r.value, addr, up.value, AddedDir(c.mode, Rx), fs);
    }
  }

  lemma ResetDelivers(s: DevState, xs: seq<Input>, s': DevState, j: nat, addr: Mac, tsid: Nibble, dir: Dir,
                      fs: seq<RxEvent>)
    requires DevInv(s) && Reachable(s, xs, s') && j < TOTAL_TS_NUM && Held(s, Rx, j, addr, tsid, dir)
    requires forall k :: 0 <= k < |xs| ==> Spares(xs[k], addr)
    requires j < |s.rx| && s.rx[j].queue == EMPTY_QUEUE && SameFrames(fs, StreamEvents(s, xs, j))
    requires fs != [] && fs[0].Arrival? ==> HalfWindow(Ideal(fs[0].t, map[], false), fs)
    ensures exists nums :: InOrder(s.indicated, s'.indicated, j, fs, nums)
  {
    hide DevInv, Held, Through, StreamEvents, Run, HalfWindow, Reachable, Spares, InOrder;
    StreamRun(s, xs, s', j, addr, tsid, dir);
    FirstArrives(s, xs, s', j, addr, tsid, dir);
    RunSame(EMPTY_QUEUE, fs, StreamEvents(s, xs, j));
    DeliveredNumbers(s.indicated, s'.indicated, j, fs);
  }

  lemma DeliveredNumbers(before: seq<Delivery>, after: seq<Delivery>, j: nat, fs: seq<RxEvent>)
    requires Through(after, j) == Through(before, j) + Run(EMPTY_QUEUE, fs).1
    requires fs != [] ==> fs[0].Arrival? && HalfWindow(Ideal(fs[0].t, map[], false), fs)
    ensures exists nums :: InOrder(before, after, j, fs, nums)
  {
    if fs == [] {
      assert Run(EMPTY_QUEUE, fs).1 == Wrap([]);
      assert InOrder(before, after, j, fs, []);
    } else {
      hide Through, Run;
      InOrderDelivery(fs);
      var nums :| Run(EMPTY_QUEUE, fs).1 == Wrap(nums) && Ascending(nums)
        && forall k :: 0 <= k < |nums| ==> Received(fs, nums[k]);
      assert InOrder(before, after, j, fs, nums);
    }
  }
}
