/**
 The tables of the device and their handlers, updated in place. Every method is tied to the
 function of TrafficStreams that says what the handler makes of the device state.
 */
module TsDevice {
  import opened Basics
  import opened SequenceNumbers
  import opened RxReorder
  import opened BlockAck
  import opened TrafficStreams
  import opened StreamInvariants

  // Direction codes 0 to 3.
  function DirOf(code: nat): Dir {
    if code == 0 then Up else if code == 1 then Down else if code == 2 then Direct else BiDir
  }

  // ---- Taking selected elements out of a list, from the front ----

  lemma {:induction false} ChosenSnoc(l: seq<nat>, i: nat, ts: seq<TsCommon>, sel: Option<Mac>, keep: bool)
    requires InRange(l, |ts|) && i < |ts|
    ensures Chosen(l + [i], ts, sel, keep) == Chosen(l, ts, sel, keep)
      + if Selected(ts[i], sel) != keep then [i] else []
    decreases |l|
  {
    hide Selected;
    if l == [] {
      assert l + [i] == [i] && [i][1..] == [];
    } else {
      assert (l + [i])[1..] == l[1..] + [i];
      ChosenSnoc(l[1..], i, ts, sel, keep);
    }
  }

  lemma ChosenNone(ts: seq<TsCommon>, sel: Option<Mac>)
    ensures Chosen([], ts, sel, true) == [] && Chosen([], ts, sel, false) == []
  {
  }

  lemma {:induction false} FarewellsTxSnoc(tx: seq<TxTs>, gone: seq<nat>, i: nat)
    requires InRange(gone, |tx|) && i < |tx|
    ensures FarewellsTx(tx, gone + [i]) == FarewellsTx(tx, gone) + Frames(tx[i].common.addr, ClearTx(tx[i]).1)
  {
    hide ClearTx, Frames;
    if gone == [] {
      assert [] + [i] == [i] && [i][1..] == [];
    } else {
      assert (gone + [i])[1..] == gone[1..] + [i];
      FarewellsTxSnoc(tx, gone[1..], i);
    }
  }

  lemma {:induction false} FarewellsRxSnoc(rx: seq<RxTs>, gone: seq<nat>, j: nat)
    requires InRange(gone, |rx|) && j < |rx|
    ensures FarewellsRx(rx, gone + [j]) == FarewellsRx(rx, gone) + Frames(rx[j].common.addr, ClearRx(rx[j]).1)
    ensures Released(rx, gone + [j]) == Released(rx, gone) + rx[j].queue.pending
  {
    hide ClearRx, Frames;
    if gone == [] {
      assert [] + [j] == [j] && [j][1..] == [];
    } else {
      assert (gone + [j])[1..] == gone[1..] + [j];
      FarewellsRxSnoc(rx, gone[1..], j);
    }
  }

  // What retiring the streams `gone` of a state has made of the records, the log and the lists.
  datatype TxStart = TxStart(tx: seq<TxTs>, sent: seq<Frame>, unused: seq<nat>)
  datatype RxStart = RxStart(rx: seq<RxTs>, sent: seq<Frame>, unused: seq<nat>, free: seq<Entry>)

  ghost predicate TxRetired(s: TxStart, gone: seq<nat>, tx: seq<TxTs>, sent: seq<Frame>, unused: seq<nat>) {
    && InRange(gone, |s.tx|)
    && tx == ClearedTx(s.tx, gone) && sent == s.sent + FarewellsTx(s.tx, gone) && unused == s.unused + gone
  }

  ghost predicate RxRetired(s: RxStart, gone: seq<nat>, rx: seq<RxTs>, sent: seq<Frame>, unused: seq<nat>,
                            free: seq<Entry>) {
    && InRange(gone, |s.rx|)
    && rx == ClearedRx(s.rx, gone) && sent == s.sent + FarewellsRx(s.rx, gone) && unused == s.unused + gone
    && free == s.free + Released(s.rx, gone)
  }

  lemma TxRetiredNone(s: TxStart)
    ensures TxRetired(s, [], s.tx, s.sent, s.unused)
  {
    assert ClearedTx(s.tx, []) == s.tx;
  }

  lemma RxRetiredNone(s: RxStart)
    ensures RxRetired(s, [], s.rx, s.sent, s.unused, s.free)
  {
    assert ClearedRx(s.rx, []) == s.rx;
  }

  lemma TxRetiredNothing(s: TxStart, tx: seq<TxTs>, sent: seq<Frame>, unused: seq<nat>)
    requires TxRetired(s, [], tx, sent, unused)
    ensures tx == s.tx && sent == s.sent && unused == s.unused
  {
    assert s.sent + [] == s.sent && s.unused + [] == s.unused;
  }

  lemma RxRetiredNothing(s: RxStart, rx: seq<RxTs>, sent: seq<Frame>, unused: seq<nat>, free: seq<Entry>)
    requires RxRetired(s, [], rx, sent, unused, free)
    ensures rx == s.rx && sent == s.sent && unused == s.unused && free == s.free
  {
    assert s.sent + [] == s.sent && s.unused + [] == s.unused && s.free + [] == s.free;
  }

  lemma TxRetiredStep(s: TxStart, gone: seq<nat>, tx: seq<TxTs>, sent: seq<Frame>, unused: seq<nat>, i: nat)
    requires TxRetired(s, gone, tx, sent, unused) && i < |s.tx| && i !in gone
    ensures |tx| == |s.tx| && tx[i] == s.tx[i]
    ensures TxRetired(s, gone + [i], tx[i := ClearTx(tx[i]).0],
                      sent + Frames(tx[i].common.addr, ClearTx(tx[i]).1), unused + [i])
  {
    FarewellsTxSnoc(s.tx, gone, i);
    ClearedTxSnoc(s.tx, gone, i);
    InRangeSnoc(gone, i, |s.tx|);
    Regroup(s.sent, FarewellsTx(s.tx, gone), Frames(tx[i].common.addr, ClearTx(tx[i]).1));
    Regroup(s.unused, gone, [i]);
    hide ClearTx, Frames, ClearedTx, FarewellsTx, InRange;
  }

  lemma ClearedTxSnoc(tx: seq<TxTs>, gone: seq<nat>, i: nat)
    requires i < |tx| && i !in gone
    ensures ClearedTx(tx, gone)[i] == tx[i] && ClearedTx(tx, gone + [i]) == ClearedTx(tx, gone)[i := ClearTx(tx[i]).0]
  {
    hide ClearTx;
  }

  lemma RxRetiredStep(s: RxStart, gone: seq<nat>, rx: seq<RxTs>, sent: seq<Frame>, unused: seq<nat>,
                      free: seq<Entry>, j: nat)
    requires RxRetired(s, gone, rx, sent, unused, free) && j < |s.rx| && j !in gone
    ensures |rx| == |s.rx| && rx[j] == s.rx[j]
    ensures RxRetired(s, gone + [j], rx[j := ClearRx(rx[j]).0],
                      sent + Frames(rx[j].common.addr, ClearRx(rx[j]).1), unused + [j], free + rx[j].queue.pending)
  {
    FarewellsRxSnoc(s.rx, gone, j);
    ClearedRxSnoc(s.rx, gone, j);
    InRangeSnoc(gone, j, |s.rx|);
    Regroup(s.sent, FarewellsRx(s.rx, gone), Frames(rx[j].common.addr, ClearRx(rx[j]).1));
    Regroup(s.free, Released(s.rx, gone), rx[j].queue.pending);
    Regroup(s.unused, gone, [j]);
    hide ClearRx, Frames, ClearedRx, FarewellsRx, Released, InRange;
  }

  lemma InRangeSnoc(l: seq<nat>, i: nat, n: nat)
    requires InRange(l, n) && i < n
    ensures InRange(l + [i], n)
  {
  }

  lemma ClearedRxSnoc(rx: seq<RxTs>, gone: seq<nat>, j: nat)
    requires j < |rx| && j !in gone
    ensures ClearedRx(rx, gone)[j] == rx[j] && ClearedRx(rx, gone + [j]) == ClearedRx(rx, gone)[j := ClearRx(rx[j]).0]
  {
    hide ClearRx;
  }

  // Nothing is pending, so removal is retiring the selected admitted streams.
  lemma RemoveTxIs(s: DevState, sel: Option<Mac>, tx: seq<TxTs>, sent: seq<Frame>, unused: seq<nat>)
    requires Sound(s) && s.txl.pend == []
    requires TxRetired(TxStart(s.tx, s.sent, s.txl.unused), Chosen(s.txl.admit, CommonsTx(s.tx), sel, false), tx,
      sent, unused)
    ensures RemoveTx(s, sel)
         == s.(tx := tx, sent := sent, txl := Lists(unused, Chosen(s.txl.admit, CommonsTx(s.tx), sel, true), []))
  {
    RetireNoneTx(s);
  }

  lemma RemoveRxIs(s: DevState, sel: Option<Mac>, rx: seq<RxTs>, sent: seq<Frame>, unused: seq<nat>, free: seq<Entry>)
    requires Sound(s) && s.rxl.pend == []
    requires RxRetired(RxStart(s.rx, s.sent, s.rxl.unused, s.free), Chosen(s.rxl.admit, CommonsRx(s.rx), sel, false),
      rx, sent, unused, free)
    ensures RemoveRx(s, sel)
         == s.(rx := rx, sent := sent, free := free,
           rxl := Lists(unused, Chosen(s.rxl.admit, CommonsRx(s.rx), sel, true), []))
  {
    RetireNoneRx(s);
  }

  // How far a removal has come through a list: `kept` stays, `gone` has been retired.
  ghost predicate Split(l: seq<nat>, n: nat, ts: seq<TsCommon>, sel: Option<Mac>, kept: seq<nat>, gone: seq<nat>)
    requires InRange(l, |ts|)
  {
    n <= |l| && kept == Chosen(l[..n], ts, sel, true) && gone == Chosen(l[..n], ts, sel, false)
  }

  lemma SplitStart(l: seq<nat>, ts: seq<TsCommon>, sel: Option<Mac>)
    requires InRange(l, |ts|)
    ensures Split(l, 0, ts, sel, [], [])
  {
  }

  lemma SplitEnd(l: seq<nat>, ts: seq<TsCommon>, sel: Option<Mac>, kept: seq<nat>, gone: seq<nat>)
    requires InRange(l, |ts|) && Split(l, |l|, ts, sel, kept, gone)
    ensures kept == Chosen(l, ts, sel, true) && gone == Chosen(l, ts, sel, false)
  {
    assert l[..|l|] == l;
  }

  lemma SplitStep(l: seq<nat>, n: nat, ts: seq<TsCommon>, sel: Option<Mac>, kept: seq<nat>, gone: seq<nat>)
    requires InRange(l, |ts|) && n < |l| && Split(l, n, ts, sel, kept, gone)
    ensures Selected(ts[l[n]], sel) ==> Split(l, n + 1, ts, sel, kept, gone + [l[n]])
    ensures !Selected(ts[l[n]], sel) ==> Split(l, n + 1, ts, sel, kept + [l[n]], gone)
  {
    hide Selected;
    assert l[..n + 1] == l[..n] + [l[n]];
    ChosenSnoc(l[..n], l[n], ts, sel, true);
    ChosenSnoc(l[..n], l[n], ts, sel, false);
    assert kept + [] == kept && gone + [] == gone;
  }

  lemma SplitFresh(l: seq<nat>, n: nat, ts: seq<TsCommon>, sel: Option<Mac>, kept: seq<nat>, gone: seq<nat>)
    requires InRange(l, |ts|) && Distinct(l) && n < |l| && Split(l, n, ts, sel, kept, gone)
    ensures l[n] < |ts| && l[n] !in gone
  {
    assert forall i :: i in gone ==> i in l[..n];
  }

  // How far an indication loop has come: n entries of p0 are in the array and back in the
  // pool, and the window start has moved from ind0 to ind.
  ghost predicate Drained(p0: seq<Entry>, ind0: nat, n: nat, ind: nat) {
    && n <= |p0|
    && DrainCount(p0, ind0) == n + DrainCount(p0[n..], ind)
    && DrainSeq(p0, ind0) == DrainSeq(p0[n..], ind)
  }

  lemma DrainedStep(p0: seq<Entry>, ind0: nat, n: nat, ind: nat)
    requires Drained(p0, ind0, n, ind) && n < |p0| && Due(p0[n], ind)
    ensures Drained(p0, ind0, n + 1, Passed(p0[n], ind))
  {
    assert p0[n..][1..] == p0[n + 1..] && p0[n..][0] == p0[n];
  }

  lemma NotLessThanItself(sn: SeqNum)
    ensures !SnLess(sn, sn) && SnEqual(sn, sn)
  {
    SnLessIsLess(sn, sn);
  }

  lemma IndicateSame(q: RxQueue, q': RxQueue, p: seq<Entry>, free: seq<Entry>, ind: nat, first: seq<Pkt>)
    requires q.timer == q'.timer && q.timeoutSeq == q'.timeoutSeq
    ensures Indicate(q, p, free, ind, first) == Indicate(q', p, free, ind, first)
  {
  }

  lemma BufferFits(p: seq<Entry>, free: seq<Entry>, sn: SeqNum, rxb: Rxb)
    ensures |Buffer(p, free, sn, rxb).0| <= |p| + 1
  {
  }

  lemma OldestIsDue(p: seq<Entry>)
    requires p != []
    ensures DrainCount(p, p[0].sn) >= 1
  {
  }

  lemma PacketsSnoc(p: seq<Entry>, n: nat)
    requires n < |p|
    ensures p[..n + 1] == p[..n] + [p[n]] && p[n..][1..] == p[n + 1..] && p[n..][0] == p[n]
    ensures Packets(p[..n + 1]) == Packets(p[..n]) + [Pkt(p[n].sn, p[n].rxb)]
  {
  }

  lemma DrainedEnd(p0: seq<Entry>, ind0: nat, n: nat, ind: nat)
    requires Drained(p0, ind0, n, ind) && (n == |p0| || !Due(p0[n], ind))
    ensures DrainCount(p0, ind0) == n && DrainSeq(p0, ind0) == ind
  {
  }

  lemma LiveFits(ts: RxTs)
    requires RxLive(ts)
    ensures |ts.queue.pending| < RX_REORDER_WIN
  {
    PendingFits(ts.queue);
  }

  lemma NotAdded(s: DevState, c: Caps, addr: Mac, tid: Byte, side: Side)
    requires Sound(s)
    ensures TrafficStreams.GetTs(s, c, addr, tid, side, false).0 == s
  {
  }

  // A response for this TID finds an agreement in place.
  ghost predicate Drops(s: DevState, c: Caps, src: Mac, tid: Nibble)
    requires Sound(s)
  {
    var r := TrafficStreams.GetTs(s, c, src, tid, Tx, false).1;
    c.qosActive && c.ht && c.ampdu && r.Some? && s.tx[r.value].admitted.valid
  }

  // A DELBA finds the stream it ends the agreement of.
  ghost predicate Ends(s: DevState, c: Caps, src: Mac, initiator: Bit, tid: Nibble)
    requires Sound(s)
  {
    c.qosActive && c.ht && TrafficStreams.GetTs(s, c, src, tid, if initiator == 1 then Rx else Tx, false).1.Some?
  }

  predicate Picked(c: TsCommon, sel: Option<Mac>)
    ensures Picked(c, sel) == Selected(c, sel)
  {
    match sel
    case None => true
    case Some(addr) => c.addr == addr
  }

  class Device {
    const tx: array<TxTs>
    const rx: array<RxTs>
    var txl: Lists
    var rxl: Lists
    var free: seq<Entry>
    var sent: seq<Frame>
    var indicated: seq<Delivery>

    ghost predicate Shape()
      reads this
    {
      tx.Length == TOTAL_TS_NUM && rx.Length == TOTAL_TS_NUM
    }

    ghost function State(): DevState
      reads this, tx, rx
    {
      DevState(tx[..], rx[..], txl, rxl, free, sent, indicated)
    }

    ghost predicate Valid()
      reads this, tx, rx
    {
      Shape() && DevInv(State()) && Sound(State())
    }

    // ---- Block Ack: rtl819x_BAProc.c ----

    method TxTsDeleteBA(i: nat) returns (send: bool)
      requires Shape() && i < TOTAL_TS_NUM
      modifies tx
      ensures tx[..] == old(tx[..])[i := TxDeleteBa(old(tx[i])).0]
      ensures send == TxDeleteBa(old(tx[i])).1
    {
      send := false;
      if tx[i].pending.valid {
        tx[i] := tx[i].(pending := DeActivate(tx[i].pending));
        send := true;
      }
      if tx[i].admitted.valid {
        tx[i] := tx[i].(admitted := DeActivate(tx[i].admitted));
        send := true;
      }
    }

    method RxTsDeleteBA(j: nat) returns (send: bool)
      requires Shape() && j < TOTAL_TS_NUM
      modifies rx
      ensures rx[..] == old(rx[..])[j := RxDeleteBa(old(rx[j])).0]
      ensures send == RxDeleteBa(old(rx[j])).1
    {
      send := false;
      if rx[j].ba.valid {
        rx[j] := rx[j].(ba := DeActivate(rx[j].ba));
        send := true;
      }
    }

    method Transmit(dst: Mac, a: Action)
      modifies this`sent
      ensures sent == old(sent) + Frames(dst, [a])
    {
      sent := sent + [Frame(dst, a)];
    }

    method TsInitAddBA(i: nat, policy: Bit, overwritePending: bool)
      requires Shape() && i < TOTAL_TS_NUM
      modifies tx, this`sent
      ensures tx[..] == old(tx[..])[i := InitAddBa(old(tx[i]), policy, overwritePending).0]
      ensures sent == old(sent) + Frames(old(tx[i]).common.addr, InitAddBa(old(tx[i]), policy, overwritePending).1)
    {
      if tx[i].pending.valid && !overwritePending {
        return;
      }
      var ba := DeActivate(tx[i].pending);
      ba := ba.(token := (ba.token + 1) % 0x100);
      ba := ba.(param := ba.param.(amsdu := 0));
      ba := ba.(param := ba.param.(policy := policy));
      ba := ba.(param := ba.param.(tid := tx[i].common.tsid));
      ba := ba.(param := ba.param.(bufferSize := 32));
      ba := ba.(timeout := 0);
      ba := ba.(start := ba.start.(seqNum := (tx[i].curSeq + 3) % SEQ_MOD));
      ba := Activate(ba, BA_SETUP_TIMEOUT);
      tx[i] := tx[i].(pending := ba);
      Transmit(tx[i].common.addr, AddBaReq(ba.token, ba.param, ba.timeout, ba.start));
    }

    method TsInitDelBATx(i: nat)
      requires Shape() && i < TOTAL_TS_NUM
      modifies tx, this`sent
      ensures tx[..] == old(tx[..])[i := TxInitDelBa(old(tx[i])).0]
      ensures sent == old(sent) + Frames(old(tx[i]).common.addr, TxInitDelBa(old(tx[i])).1)
    {
      var send := TxTsDeleteBA(i);
      if send {
        var chosen := if tx[i].admitted.valid then tx[i].admitted else tx[i].pending;
        Transmit(tx[i].common.addr, DelBa(1, chosen.param.tid, DELBA_REASON_END_BA));
      }
    }

    method TsInitDelBARx(j: nat)
      requires Shape() && j < TOTAL_TS_NUM
      modifies rx, this`sent
      ensures rx[..] == old(rx[..])[j := RxInitDelBa(old(rx[j])).0]
      ensures sent == old(sent) + Frames(old(rx[j]).common.addr, RxInitDelBa(old(rx[j])).1)
    {
      var send := RxTsDeleteBA(j);
      if send {
        Transmit(rx[j].common.addr, DelBa(0, rx[j].ba.param.tid, DELBA_REASON_END_BA));
      }
    }

    // ---- Streams: rtl819x_TSProc.c ----

    method TsStartAddBaProcess(i: nat)
      requires Shape() && i < TOTAL_TS_NUM
      modifies tx
      ensures tx[..] == old(tx[..])[i := StartAddBa(old(tx[i]))]
    {
      if !tx[i].inProgress {
        tx[i] := tx[i].(inProgress := true);
        tx[i] := tx[i].(addBaTimer := true);
      }
    }

    method SearchAdmitTRStream(mode: IwMode, addr: Mac, tsid: Nibble, side: Side) returns (r: Option<nat>)
      requires Shape() && Sound(State())
      ensures r == Search(mode, side, ListsOf(State(), side).admit, Commons(State(), side), addr, tsid)
    {
      ghost var cs := Commons(State(), side);
      var list := if side == Tx then txl.admit else rxl.admit;
      r := None;
      var code := 0;
      while code < 4 && r.None?
        invariant 0 <= code <= 4
        invariant r.None? ==> forall d :: 0 <= d < code ==> DirFirst(mode, side, list, cs, addr, tsid, DirOf(d)).None?
        invariant r.Some? ==> r == Search(mode, side, list, cs, addr, tsid)
      {
        if Searched(mode, side, DirOf(code)) {
          r := FirstAdmitted(side, list, addr, tsid, DirOf(code));
        }
        assert r == DirFirst(mode, side, list, cs, addr, tsid, DirOf(code));
        assert DirOf(0) == Up && DirOf(1) == Down && DirOf(2) == Direct && DirOf(3) == BiDir;
        code := code + 1;
      }
      assert r.None? ==> forall d :: d == 0 || d == 1 || d == 2 || d == 3 ==>
        DirFirst(mode, side, list, cs, addr, tsid, DirOf(d)).None?;
      assert DirOf(0) == Up && DirOf(1) == Down && DirOf(2) == Direct && DirOf(3) == BiDir;
    }

    method FirstAdmitted(side: Side, list: seq<nat>, addr: Mac, tsid: Nibble, dir: Dir) returns (r: Option<nat>)
      requires Shape() && InRange(list, TOTAL_TS_NUM)
      ensures r == FirstIn(list, Commons(State(), side), addr, tsid, dir)
    {
      ghost var cs := Commons(State(), side);
      var k := 0;
      while k < |list|
        invariant 0 <= k <= |list|
        invariant FirstIn(list, cs, addr, tsid, dir) == FirstIn(list[k..], cs, addr, tsid, dir)
      {
        var c := if side == Tx then tx[list[k]].common else rx[list[k]].common;
        assert c == cs[list[k]] && list[k..][1..] == list[k + 1..];
        if c.addr == addr {
          if c.tsid == tsid {
            if c.dir == dir {
              return Some(list[k]);
            }
          }
        }
        k := k + 1;
      }
      return None;
    }

    method GetTs(c: Caps, addr: Mac, tid: Byte, side: Side, add: bool) returns (r: Option<nat>)
      requires Valid()
      modifies this, tx, rx
      ensures Valid() && (State(), r) == TrafficStreams.GetTs(old(State()), c, addr, tid, side, add)
    {
      GetTsKeeps(State(), c, addr, tid, side, add);
      if IsBroadcast(addr) || IsMulticast(addr) {
        return None;
      }
      var up: Nibble := 0;
      if c.qosSupported {
        if tid > 7 {
          return None;
        }
        match tid {
          case 0 => up := 0;
          case 3 => up := 0;
          case 1 => up := 2;
          case 2 => up := 2;
          case 4 => up := 5;
          case 5 => up := 5;
          case _ => up := 7;
        }
      }
      hide DevInv, Search;
      assert UserPriority(c.qosSupported, tid) == Some(up);
      r := SearchAdmitTRStream(c.mode, addr, up, side);
      if r.Some? || !add {
        return;
      }
      r := AddTs(c.mode, addr, up, side);
    }

    method AddTs(mode: IwMode, addr: Mac, up: Nibble, side: Side) returns (r: Option<nat>)
      requires Shape() && Sound(State())
      modifies this, tx, rx
      ensures (State(), r) == TrafficStreams.AddTs(old(State()), mode, addr, up, side)
    {
      var unused := if side == Tx then txl.unused else rxl.unused;
      if unused == [] {
        return None;
      }
      var i := unused[0];
      if side == Tx {
        txl := txl.(unused := txl.unused[1..]);
        tx[i] := ResetTx(tx[i]);
        tx[i] := tx[i].(common := TsCommon(addr, up, AddedDir(mode, Tx), tx[i].common.setupTimer,
          tx[i].common.inactTimer));
        tx[i] := tx[i].(common := tx[i].common.(setupTimer := false, inactTimer := false));
        txl := txl.(admit := txl.admit + [i]);
      } else {
        rxl := rxl.(unused := rxl.unused[1..]);
        rx[i] := ResetRx(rx[i]);
        rx[i] := rx[i].(common := TsCommon(addr, up, AddedDir(mode, Rx), rx[i].common.setupTimer,
          rx[i].common.inactTimer));
        rx[i] := rx[i].(common := rx[i].common.(setupTimer := false, inactTimer := false));
        rxl := rxl.(admit := rxl.admit + [i]);
      }
      assert side == Tx ==> tx[..] == old(tx[..])[i := tx[i]] && rx[..] == old(rx[..]);
      assert side == Rx ==> rx[..] == old(rx[..])[i := rx[i]] && tx[..] == old(tx[..]);
      return Some(i);
    }

    method RemoveTsEntryTx(i: nat)
      requires Shape() && i < TOTAL_TS_NUM
      modifies tx, this`sent
      ensures tx[..] == old(tx[..])[i := ClearTx(old(tx[i])).0]
      ensures sent == old(sent) + Frames(old(tx[i]).common.addr, ClearTx(old(tx[i])).1)
    {
      tx[i] := tx[i].(common := tx[i].common.(setupTimer := false));
      tx[i] := tx[i].(common := tx[i].common.(inactTimer := false));
      TsInitDelBATx(i);
      tx[i] := tx[i].(addBaTimer := false);
    }

    method RemoveTsEntryRx(j: nat)
      requires Shape() && j < TOTAL_TS_NUM
      modifies rx, this`sent, this`free
      ensures rx[..] == old(rx[..])[j := ClearRx(old(rx[j])).0]
      ensures sent == old(sent) + Frames(old(rx[j]).common.addr, ClearRx(old(rx[j])).1)
      ensures free == old(free) + old(rx[j]).queue.pending
    {
      rx[j] := rx[j].(common := rx[j].common.(setupTimer := false));
      rx[j] := rx[j].(common := rx[j].common.(inactTimer := false));
      TsInitDelBARx(j);
      if rx[j].queue.timer {
        rx[j] := rx[j].(queue := rx[j].queue.(timer := false));
      }
      DropPending(j);
    }

    // The frames of a removed stream are freed, their nodes go back to the pool.
    method DropPending(j: nat)
      requires Shape() && j < TOTAL_TS_NUM
      modifies rx, this`free
      ensures rx[..] == old(rx[..])[j := old(rx[j]).(queue := old(rx[j]).queue.(pending := []))]
      ensures free == old(free) + old(rx[j]).queue.pending
    {
      ghost var all := rx[j].queue.pending;
      ghost var n := 0;
      assert all[..0] == [] && all[0..] == all;
      while rx[j].queue.pending != []
        invariant n <= |all|
        invariant rx[..] == old(rx[..])[j := old(rx[j]).(queue := old(rx[j]).queue.(pending := all[n..]))]
        invariant free == old(free) + all[..n]
        decreases |rx[j].queue.pending|
      {
        var e := rx[j].queue.pending[0];
        rx[j] := rx[j].(queue := rx[j].queue.(pending := rx[j].queue.pending[1..]));
        free := free + [e];
        n := n + 1;
        assert all[..n] == all[..n - 1] + [e];
      }
      assert all[..n] == all;
    }

    // One step of a loop of RemovePeerTS or RemoveAllTS: stream l[n] is retired or kept.
    method VisitTx(l: seq<nat>, n: nat, sel: Option<Mac>, kept: seq<nat>, ghost start: TxStart, ghost gone: seq<nat>)
      returns (kept': seq<nat>, ghost gone': seq<nat>)
      requires Shape() && InRange(l, TOTAL_TS_NUM) && Distinct(l) && n < |l|
      requires |start.tx| == TOTAL_TS_NUM && Split(l, n, CommonsTx(start.tx), sel, kept, gone)
      requires TxRetired(start, gone, tx[..], sent, txl.unused)
      modifies tx, this`sent, this`txl
      ensures Split(l, n + 1, CommonsTx(start.tx), sel, kept', gone')
      ensures txl == old(txl).(unused := txl.unused)
      ensures TxRetired(start, gone', tx[..], sent, txl.unused)
    {
      ghost var c := CommonsTx(start.tx);
      var i := l[n];
      kept', gone' := kept, gone;
      SplitFresh(l, n, c, sel, kept, gone);
      TxRetiredStep(start, gone, tx[..], sent, txl.unused, i);
      SplitStep(l, n, c, sel, kept, gone);
      assert tx[i].common == c[i];
      hide *;
      if Picked(tx[i].common, sel) {
        RemoveTsEntryTx(i);
        txl := txl.(unused := txl.unused + [i]);
        gone' := gone + [i];
      } else {
        kept' := kept + [i];
      }
    }

    method RetireTxStreams(list: seq<nat>, sel: Option<Mac>) returns (kept: seq<nat>)
      requires Shape() && InRange(list, TOTAL_TS_NUM) && Distinct(list)
      modifies tx, this`sent, this`txl
      ensures var c := CommonsTx(old(tx[..]));
        && kept == Chosen(list, c, sel, true)
        && txl == old(txl).(unused := txl.unused)
        && TxRetired(TxStart(old(tx[..]), old(sent), old(txl).unused), Chosen(list, c, sel, false),
                     tx[..], sent, txl.unused)
    {
      ghost var start := TxStart(tx[..], sent, txl.unused);
      ghost var gone: seq<nat> := [];
      var k := 0;
      kept := [];
      TxRetiredNone(start);
      SplitStart(list, CommonsTx(start.tx), sel);
      while k < |list|
        invariant 0 <= k <= |list| && Split(list, k, CommonsTx(start.tx), sel, kept, gone)
        invariant txl == old(txl).(unused := txl.unused)
        invariant TxRetired(start, gone, tx[..], sent, txl.unused)
      {
        hide *;
        kept, gone := VisitTx(list, k, sel, kept, start, gone);
        k := k + 1;
      }
      SplitEnd(list, CommonsTx(start.tx), sel, kept, gone);
    }

    // One step of a loop of RemovePeerTS or RemoveAllTS: stream l[n] is retired or kept.
    method VisitRx(l: seq<nat>, n: nat, sel: Option<Mac>, kept: seq<nat>, ghost start: RxStart, ghost gone: seq<nat>)
      returns (kept': seq<nat>, ghost gone': seq<nat>)
      requires Shape() && InRange(l, TOTAL_TS_NUM) && Distinct(l) && n < |l|
      requires |start.rx| == TOTAL_TS_NUM && Split(l, n, CommonsRx(start.rx), sel, kept, gone)
      requires RxRetired(start, gone, rx[..], sent, rxl.unused, free)
      modifies rx, this`sent, this`rxl, this`free
      ensures Split(l, n + 1, CommonsRx(start.rx), sel, kept', gone')
      ensures rxl == old(rxl).(unused := rxl.unused)
      ensures RxRetired(start, gone', rx[..], sent, rxl.unused, free)
    {
      ghost var c := CommonsRx(start.rx);
      var j := l[n];
      kept', gone' := kept, gone;
      SplitFresh(l, n, c, sel, kept, gone);
      RxRetiredStep(start, gone, rx[..], sent, rxl.unused, free, j);
      SplitStep(l, n, c, sel, kept, gone);
      assert rx[j].common == c[j];
      hide *;
      if Picked(rx[j].common, sel) {
        RemoveTsEntryRx(j);
        rxl := rxl.(unused := rxl.unused + [j]);
        gone' := gone + [j];
      } else {
        kept' := kept + [j];
      }
    }

    method RetireRxStreams(list: seq<nat>, sel: Option<Mac>) returns (kept: seq<nat>)
      requires Shape() && InRange(list, TOTAL_TS_NUM) && Distinct(list)
      modifies rx, this`sent, this`rxl, this`free
      ensures var c := CommonsRx(old(rx[..]));
        && kept == Chosen(list, c, sel, true)
        && rxl == old(rxl).(unused := rxl.unused)
        && RxRetired(RxStart(old(rx[..]), old(sent), old(rxl).unused, old(free)), Chosen(list, c, sel, false),
                     rx[..], sent, rxl.unused, free)
    {
      ghost var start := RxStart(rx[..], sent, rxl.unused, free);
      ghost var gone: seq<nat> := [];
      var k := 0;
      kept := [];
      RxRetiredNone(start);
      SplitStart(list, CommonsRx(start.rx), sel);
      while k < |list|
        invariant 0 <= k <= |list| && Split(list, k, CommonsRx(start.rx), sel, kept, gone)
        invariant rxl == old(rxl).(unused := rxl.unused)
        invariant RxRetired(start, gone, rx[..], sent, rxl.unused, free)
      {
        hide *;
        kept, gone := VisitRx(list, k, sel, kept, start, gone);
        k := k + 1;
      }
      SplitEnd(list, CommonsRx(start.rx), sel, kept, gone);
    }

    // The loop over the pending list, which is always empty.
    method RetirePendingTx(sel: Option<Mac>)
      requires Shape() && txl.pend == []
      modifies tx, this`sent, this`txl
      ensures State() == old(State())
    {
      ghost var s := State();
      ChosenNone(CommonsTx(tx[..]), sel);
      hide Chosen, TxRetired;
      var kept := RetireTxStreams(txl.pend, sel);
      TxRetiredNothing(TxStart(s.tx, s.sent, s.txl.unused), tx[..], sent, txl.unused);
      txl := txl.(pend := kept);
    }

    method RetirePendingRx(sel: Option<Mac>)
      requires Shape() && rxl.pend == []
      modifies rx, this`sent, this`rxl, this`free
      ensures State() == old(State())
    {
      ghost var s := State();
      ChosenNone(CommonsRx(rx[..]), sel);
      hide Chosen, RxRetired;
      var kept := RetireRxStreams(rxl.pend, sel);
      RxRetiredNothing(RxStart(s.rx, s.sent, s.rxl.unused, s.free), rx[..], sent, rxl.unused, free);
      rxl := rxl.(pend := kept);
    }

    method RemoveTxStreams(sel: Option<Mac>)
      requires Valid()
      modifies this, tx
      ensures State() == RemoveTx(old(State()), sel)
    {
      ghost var s := State();
      assert ListsOk(txl);
      hide DevInv, RemoveTx, Chosen, TxRetired;
      RetirePendingTx(sel);
      var kept := RetireTxStreams(txl.admit, sel);
      txl := txl.(admit := kept);
      RemoveTxIs(s, sel, tx[..], sent, txl.unused);
    }

    method RemoveRxStreams(sel: Option<Mac>)
      requires Valid()
      modifies this, rx
      ensures State() == RemoveRx(old(State()), sel)
    {
      ghost var s := State();
      assert ListsOk(rxl);
      hide DevInv, RemoveRx, Chosen, RxRetired;
      RetirePendingRx(sel);
      var kept := RetireRxStreams(rxl.admit, sel);
      rxl := rxl.(admit := kept);
      RemoveRxIs(s, sel, rx[..], sent, rxl.unused, free);
    }

    // RemovePeerTS for Some(addr), RemoveAllTS for None.
    method RemoveTs(sel: Option<Mac>)
      requires Valid()
      modifies this, tx, rx
      ensures Valid() && State() == Remove(old(State()), sel)
    {
      RemoveTxKeeps(State(), sel);
      RemoveKeeps(State(), sel);
      hide DevInv, RemoveTx, RemoveRx;
      RemoveTxStreams(sel);
      RemoveRxStreams(sel);
      DevSound(State());
    }

    // ---- Receive reordering: rtllib_rx.c and rtl819x_TSProc.c ----

    method SetPending(j: nat, p: seq<Entry>)
      requires Shape() && j < TOTAL_TS_NUM
      modifies rx
      ensures rx[..] == old(rx[..])[j := old(rx[j]).(queue := old(rx[j]).queue.(pending := p))]
    {
      rx[j] := rx[j].(queue := rx[j].queue.(pending := p));
    }

    method SetIndicateSeq(j: nat, n: nat)
      requires Shape() && j < TOTAL_TS_NUM
      modifies rx
      ensures rx[..] == old(rx[..])[j := old(rx[j]).(queue := old(rx[j]).queue.(indicateSeq := n))]
    {
      rx[j] := rx[j].(queue := rx[j].queue.(indicateSeq := n));
    }

    // Links e into the pending list, scanning from the newest end; false if its number is there.
    method AddReorderEntry(j: nat, e: Entry) returns (ok: bool)
      requires Shape() && j < TOTAL_TS_NUM && e.sn < SEQ_MOD
      modifies rx
      ensures var p := old(rx[j]).queue.pending;
        var r := Place(p, e.sn, |p|);
        && ok == (r >= 0)
        && rx[..] == if ok
                     then old(rx[..])[j := old(rx[j]).(queue := old(rx[j]).queue.(pending := p[..r] + [e] + p[r..]))]
                     else old(rx[..])
    {
      var p := rx[j].queue.pending;
      var k := |p|;
      while k > 0
        invariant 0 <= k <= |p| && Place(p, e.sn, |p|) == Place(p, e.sn, k)
      {
        if SnLess(e.sn, p[k - 1].sn) {
          k := k - 1;
        } else if SnEqual(e.sn, p[k - 1].sn) {
          return false;
        } else {
          break;
        }
      }
      SetPending(j, p[..k] + [e] + p[k..]);
      return true;
    }

    // The part of RxReorderIndicatePacket that takes a node of the pool for the frame.
    method BufferFrame(j: nat, sn: SeqNum, rxb: Rxb)
      requires Shape() && j < TOTAL_TS_NUM
      modifies rx, this`free
      ensures var b := Buffer(old(rx[j]).queue.pending, old(free), sn, rxb);
        && rx[..] == old(rx[..])[j := old(rx[j]).(queue := old(rx[j]).queue.(pending := b.0))]
        && free == b.1
    {
      if free != [] {
        var e := free[0];
        free := free[1..];
        e := e.(sn := sn, rxb := rxb);
        var ok := AddReorderEntry(j, e);
        if !ok {
          free := free + [e];
        }
      }
    }

    // Hands the first n frames of the array to the stack, in order.
    method IndicatePackets(j: nat, a: array<Pkt>, n: nat)
      requires n <= a.Length
      modifies this`indicated
      ensures indicated == old(indicated) + Tagged(j, a[..n])
    {
      var k := 0;
      while k < n
        invariant 0 <= k <= n && indicated == old(indicated) + Tagged(j, a[..k])
      {
        indicated := indicated + [Delivery(j, a[k])];
        k := k + 1;
        assert Tagged(j, a[..k]) == Tagged(j, a[..k - 1]) + [Delivery(j, a[k - 1])];
      }
    }

    // The oldest buffered frame goes into the indication array, its node back to the pool.
    method TakeOldest(j: nat, a: array<Pkt>, index: nat)
      requires Shape() && j < TOTAL_TS_NUM && index < a.Length && rx[j].queue.pending != []
      modifies rx, a, this`free
      ensures var q := old(rx[j]).queue;
        var e := q.pending[0];
        && rx[..] == old(rx[..])[j := old(rx[j]).(queue := q.(indicateSeq := Passed(e, q.indicateSeq),
          pending := q.pending[1..]))]
        && free == old(free) + [e]
        && a[..index + 1] == old(a[..index]) + [Pkt(e.sn, e.rxb)]
    {
      var e := rx[j].queue.pending[0];
      SetPending(j, rx[j].queue.pending[1..]);
      if SnEqual(e.sn, rx[j].queue.indicateSeq) {
        SetIndicateSeq(j, (rx[j].queue.indicateSeq + 1) % SEQ_MOD);
      }
      a[index] := Pkt(e.sn, e.rxb);
      free := free + [e];
    }

    // The indication loop of RxReorderIndicatePacket. The array has room for every buffered
    // frame, so the loop never stops for want of it.
    method IndicateDue(j: nat, a: array<Pkt>, index0: nat) returns (index: nat, inBuf: bool)
      requires Shape() && j < TOTAL_TS_NUM && a.Length == REORDER_WIN_SIZE
      requires index0 + |rx[j].queue.pending| <= REORDER_WIN_SIZE
      modifies rx, a, this`free
      ensures var q := old(rx[j]).queue;
        var k := DrainCount(q.pending, q.indicateSeq);
        && index == index0 + k <= a.Length && inBuf == (k < |q.pending|)
        && a[..index] == old(a[..index0]) + Packets(q.pending[..k])
        && free == old(free) + q.pending[..k]
        && rx[..] == old(rx[..])[j := old(rx[j]).(queue :=
             q.(indicateSeq := DrainSeq(q.pending, q.indicateSeq), pending := q.pending[k..]))]
    {
      index, inBuf := index0, false;
      ghost var q := rx[j].queue;
      ghost var n := 0;
      assert q.pending[0..] == q.pending && q.pending[..0] == [];
      hide Drained, DrainCount, DrainSeq, Due, Passed, Packets;
      while rx[j].queue.pending != []
        invariant n <= |q.pending| && Drained(q.pending, q.indicateSeq, n, rx[j].queue.indicateSeq)
        invariant index == index0 + n <= a.Length && !inBuf
        invariant rx[..] == old(rx[..])[j := old(rx[j]).(queue := q.(indicateSeq := rx[j].queue.indicateSeq,
          pending := q.pending[n..]))]
        invariant free == old(free) + q.pending[..n]
        invariant a[..index] == old(a[..index0]) + Packets(q.pending[..n])
        decreases |rx[j].queue.pending|
      {
        var e := rx[j].queue.pending[0];
        if Due(e, rx[j].queue.indicateSeq) {
          if index >= REORDER_WIN_SIZE {
            inBuf := true;
            break;
          }
          DrainedStep(q.pending, q.indicateSeq, n, rx[j].queue.indicateSeq);
          PacketsSnoc(q.pending, n);
          TakeOldest(j, a, index);
          index := index + 1;
          n := n + 1;
        } else {
          inBuf := true;
          break;
        }
      }
      DrainedEnd(q.pending, q.indicateSeq, n, rx[j].queue.indicateSeq);
    }

    // What both entry points do after their loop: deliver and stop the timer, or start it.
    method Settle(j: nat, a: array<Pkt>, index: nat, inBuf: bool)
      requires Shape() && j < TOTAL_TS_NUM && index <= a.Length
      modifies rx, this`indicated
      ensures var q := old(rx[j]).queue;
        var q' := if index > 0 then q.(timer := false, timeoutSeq := NO_SEQ)
                  else if inBuf && q.timeoutSeq == NO_SEQ then q.(timer := true, timeoutSeq := q.indicateSeq) else q;
        rx[..] == old(rx[..])[j := old(rx[j]).(queue := q')]
      ensures indicated == old(indicated) + Tagged(j, a[..index])
    {
      var buffered := inBuf;
      if index > 0 {
        if rx[j].queue.timer {
          rx[j] := rx[j].(queue := rx[j].queue.(timer := false));
        }
        rx[j] := rx[j].(queue := rx[j].queue.(timeoutSeq := NO_SEQ));
        IndicatePackets(j, a, index);
        buffered := false;
      }
      if buffered && rx[j].queue.timeoutSeq == NO_SEQ {
        rx[j] := rx[j].(queue := rx[j].queue.(timeoutSeq := rx[j].queue.indicateSeq));
        rx[j] := rx[j].(queue := rx[j].queue.(timer := true));
      }
    }

    // Indication and timer handling, from the pending list as it then is.
    method IndicateAndSettle(j: nat, a: array<Pkt>, index0: nat)
      requires Shape() && j < TOTAL_TS_NUM && a.Length == REORDER_WIN_SIZE
      requires index0 + |rx[j].queue.pending| <= REORDER_WIN_SIZE
      modifies rx, a, this`free, this`indicated
      ensures var q := old(rx[j]).queue;
        var o := Indicate(q, q.pending, old(free), q.indicateSeq, old(a[..index0]));
        && rx[..] == old(rx[..])[j := old(rx[j]).(queue := o.queue)]
        && free == o.free && indicated == old(indicated) + Tagged(j, o.delivered)
    {
      hide DrainCount, DrainSeq, Due, Packets, Tagged;
      ghost var q := rx[j].queue;
      assert q.pending[0..] == q.pending;
      var index, inBuf := IndicateDue(j, a, index0);
      Settle(j, a, index, inBuf);
    }

    // The window moves over a frame that starts it, or up to hold a frame beyond its end.
    method ShiftWindow(j: nat, sn: SeqNum, winEnd: nat) returns (matchWinStart: bool)
      requires Shape() && j < TOTAL_TS_NUM
      modifies rx
      ensures var ind := old(rx[j]).queue.indicateSeq;
        var ind' := if SnEqual(sn, ind) then (ind + 1) % SEQ_MOD
                  else if SnLess(winEnd, sn) then WindowStart(sn) else ind;
        && matchWinStart == SnEqual(sn, ind)
        && rx[..] == old(rx[..])[j := old(rx[j]).(queue := old(rx[j]).queue.(indicateSeq := ind'))]
    {
      matchWinStart := false;
      if SnEqual(sn, rx[j].queue.indicateSeq) {
        SetIndicateSeq(j, (rx[j].queue.indicateSeq + 1) % SEQ_MOD);
        matchWinStart := true;
      } else if SnLess(winEnd, sn) {
        if sn >= RX_REORDER_WIN - 1 {
          SetIndicateSeq(j, sn + 1 - RX_REORDER_WIN);
        } else {
          SetIndicateSeq(j, 4095 - (RX_REORDER_WIN - (sn + 1)) + 1);
        }
      }
    }

    method RxReorderIndicatePacket(j: nat, sn: SeqNum, rxb: Rxb)
      requires Shape() && j < TOTAL_TS_NUM && |rx[j].queue.pending| < RX_REORDER_WIN
      modifies rx, this`free, this`indicated
      ensures var o := Arrive(old(rx[j]).queue, old(free), sn, rxb);
        && rx[..] == old(rx[..])[j := old(rx[j]).(queue := o.queue)]
        && free == o.free && indicated == old(indicated) + Tagged(j, o.delivered)
    {
      hide Indicate, SnLess, SnEqual, Place, Buffer, WindowStart;
      ghost var q := rx[j].queue;
      var winEnd := (rx[j].queue.indicateSeq + RX_REORDER_WIN - 1) % SEQ_MOD;
      if rx[j].queue.indicateSeq == NO_SEQ {
        SetIndicateSeq(j, sn);
      }
      NotLessThanItself(sn);
      if SnLess(sn, rx[j].queue.indicateSeq) {
        return;
      }
      var a := new Pkt[REORDER_WIN_SIZE](_ => Pkt(0, 0));
      var index := 0;
      var matchWinStart := ShiftWindow(j, sn, winEnd);
      if matchWinStart {
        a[0] := Pkt(sn, rxb);
        index := 1;
        assert a[..1] == [Pkt(sn, rxb)];
      } else {
        BufferFrame(j, sn, rxb);
        BufferFits(q.pending, old(free), sn, rxb);
        assert a[..0] == [];
      }
      IndicateSame(rx[j].queue, q, rx[j].queue.pending, free, rx[j].queue.indicateSeq, a[..index]);
      IndicateAndSettle(j, a, index);
    }

    // The loop of RxPktPendingTimeout: the window start jumps to the oldest frame before the first step.
    method IndicateFromOldest(j: nat, a: array<Pkt>) returns (index: nat, inBuf: bool)
      requires Shape() && j < TOTAL_TS_NUM && a.Length == REORDER_WIN_SIZE
      requires |rx[j].queue.pending| <= REORDER_WIN_SIZE
      modifies rx, a, this`free
      ensures var q := old(rx[j]).queue;
        var ind := if q.pending == [] then q.indicateSeq else q.pending[0].sn;
        var k := DrainCount(q.pending, ind);
        && index == k <= a.Length && inBuf == (k < |q.pending|)
        && a[..index] == Packets(q.pending[..k])
        && free == old(free) + q.pending[..k]
        && rx[..] == old(rx[..])[j := old(rx[j]).(queue :=
             q.(indicateSeq := DrainSeq(q.pending, ind), pending := q.pending[k..]))]
    {
      index, inBuf := 0, false;
      ghost var q := rx[j].queue;
      ghost var ind := if q.pending == [] then q.indicateSeq else q.pending[0].sn;
      assert q.pending[0..] == q.pending && q.pending[..0] == [];
      hide Drained, DrainCount, DrainSeq, Due, Passed, Packets;
      while rx[j].queue.pending != []
        invariant index <= |q.pending| && !inBuf
        invariant rx[j].queue.indicateSeq == q.indicateSeq || index > 0
        invariant Drained(q.pending, ind, index, if index == 0 then ind else rx[j].queue.indicateSeq)
        invariant rx[..] == old(rx[..])[j := old(rx[j]).(queue := q.(indicateSeq := rx[j].queue.indicateSeq,
          pending := q.pending[index..]))]
        invariant free == old(free) + q.pending[..index]
        invariant a[..index] == Packets(q.pending[..index])
        decreases |rx[j].queue.pending|
      {
        var e := rx[j].queue.pending[0];
        if index == 0 {
          SetIndicateSeq(j, e.sn);
        }
        if Due(e, rx[j].queue.indicateSeq) {
          DrainedStep(q.pending, ind, index, rx[j].queue.indicateSeq);
          PacketsSnoc(q.pending, index);
          TakeOldest(j, a, index);
          index := index + 1;
        } else {
          inBuf := true;
          break;
        }
      }
      DrainedEnd(q.pending, ind, index, rx[j].queue.indicateSeq);
    }

    method FlushOldest(j: nat)
      requires Shape() && j < TOTAL_TS_NUM && |rx[j].queue.pending| <= REORDER_WIN_SIZE
      modifies rx, this`free, this`indicated
      ensures var o := Timeout(old(rx[j]).queue, old(free));
        && rx[..] == old(rx[..])[j := old(rx[j]).(queue := o.queue)]
        && free == o.free && indicated == old(indicated) + Tagged(j, o.delivered)
    {
      ghost var q := rx[j].queue;
      rx[j] := rx[j].(queue := rx[j].queue.(timer := false));
      var a := new Pkt[REORDER_WIN_SIZE](_ => Pkt(0, 0));
      var index, inBuf := 0, false;
      if rx[j].queue.timeoutSeq != NO_SEQ {
        index, inBuf := IndicateFromOldest(j, a);
      }
      if q.pending != [] {
        OldestIsDue(q.pending);
      }
      hide Due, DrainSeq, DrainCount, Packets;
      Settle(j, a, index, inBuf);
      assert q.pending != [] ==> q.pending[0..] == q.pending;
      assert a[..0] == [];
    }

    // The timer of stream j has fired: the kernel takes it off before it makes this call.
    method RxPktPendingTimeout(j: nat)
      requires Valid() && j < TOTAL_TS_NUM && rx[j].queue.timer
      modifies this, rx
      ensures Valid() && State() == OnPktTimer(old(State()), j)
    {
      PktTimerKeeps(State(), j);
      ArmedInUse(State(), j);
      PendingFits(rx[j].queue);
      hide DevInv, RxLive, QueueInv, Timeout;
      ghost var s := State();
      FlushOldest(j);
      assert State() == ApplyReorder(s, j, Timeout(s.rx[j].queue, s.free));
    }

    // ---- Block Ack frames and timers ----

    // What rtllib_rx_ADDBAReq does with the record of a stream once it takes the request.
    method AcceptRequest(j: nat, token: Byte, param: BaParam, timeout: Word, start: SeqCtrl, oneFrame: bool)
      returns (rsp: Action)
      requires Shape() && j < TOTAL_TS_NUM
      modifies rx
      ensures var r := RxOnReq(old(rx[j]), token, param, timeout, start, oneFrame);
        rx[..] == old(rx[..])[j := r.0] && rsp == r.1
    {
      var ba := DeActivate(rx[j].ba);
      ba := ba.(token := token);
      ba := ba.(param := param);
      ba := ba.(timeout := timeout);
      ba := ba.(start := start);
      if oneFrame {
        ba := ba.(param := ba.param.(bufferSize := 1));
      } else {
        ba := ba.(param := ba.param.(bufferSize := 32));
      }
      ba := Activate(ba, 0);
      rx[j] := rx[j].(ba := ba);
      rsp := AddBaRsp(ba.token, ADDBA_STATUS_SUCCESS, ba.param, ba.timeout);
    }

    method AddBaReqReceived(c: Caps, src: Mac, token: Byte, param: BaParam, timeout: Word, start: SeqCtrl)
      requires Valid()
      modifies this, tx, rx
      ensures Valid() && State() == OnAddBaReq(old(State()), c, src, token, param, timeout, start)
    {
      ReqKeeps(State(), c, src, token, param, timeout, start);
      hide DevInv, TrafficStreams.GetTs;
      ghost var s := State();
      var status := ADDBA_STATUS_REFUSED;
      if c.qosActive && c.ht && !c.rejectAddBa {
        var r := GetTs(c, src, param.tid, Rx, true);
        if r.Some? {
          if param.policy != BA_POLICY_DELAYED {
            var rsp := AcceptRequest(r.value, token, param, timeout, start, c.oneFrame);
            Transmit(src, rsp);
            return;
          }
          status := ADDBA_STATUS_INVALID_PARAM;
        }
      }
      Transmit(src, AddBaRsp(token, status, param.(policy := BA_POLICY_IMMEDIATE), timeout));
    }

    // rtllib_rx_ADDBAReq on the frame body. The start sequence is whatever lies where the
    // driver looks for it.
    method RxAddBaReq(c: Caps, src: Mac, body: seq<Byte>, start: SeqCtrl) returns (ret: int)
      requires Valid()
      modifies this, tx, rx
      ensures Valid()
      ensures ParseReq(body).None? ==> ret == -1 && State() == old(State())
      ensures ParseReq(body).Some? ==> ret == 0
      ensures ParseReq(body).Some? ==>
        State() == OnAddBaReq(old(State()), c, src, ParseReq(body).value.0, ParseReq(body).value.1,
          ParseReq(body).value.2, start)
    {
      if |body| < 9 {
        return -1;
      }
      AddBaReqReceived(c, src, body[2], UnpackParam(Get16(body, 3)), Get16(body, 5), start);
      return 0;
    }

    // What rtllib_rx_ADDBARsp does with the records of a stream, and why it rejects, if it does.
    method TakeResponse(i: nat, token: Byte, status: Word, param: BaParam, timeout: Word)
      returns (reason: Option<Word>, ret: int)
      requires Shape() && i < TOTAL_TS_NUM
      modifies tx
      ensures var r := TxOnRsp(old(tx[i]), token, status, param, timeout);
        tx[..] == old(tx[..])[i := r.0] && reason == r.1
      ensures ret == if old(tx[i]).admitted.valid then -1 else 0
    {
      tx[i] := tx[i].(inProgress := false);
      if tx[i].admitted.valid {
        return None, -1;
      } else if !tx[i].pending.valid || token != tx[i].pending.token {
        return Some(DELBA_REASON_UNKNOWN_BA), 0;
      } else {
        tx[i] := tx[i].(pending := DeActivate(tx[i].pending));
      }
      if status == ADDBA_STATUS_SUCCESS {
        if param.policy == BA_POLICY_DELAYED {
          tx[i] := tx[i].(delayed := true);
          tx[i] := tx[i].(admitted := DeActivate(tx[i].admitted));
          return Some(DELBA_REASON_END_BA), 0;
        }
        var ba := tx[i].admitted;
        ba := ba.(token := token);
        ba := ba.(timeout := timeout);
        ba := ba.(start := tx[i].pending.start);
        ba := ba.(param := param);
        ba := DeActivate(ba);
        ba := Activate(ba, timeout);
        tx[i] := tx[i].(admitted := ba);
        return None, 0;
      } else {
        tx[i] := tx[i].(delayed := true);
        tx[i] := tx[i].(disabled := true);
        return Some(DELBA_REASON_END_BA), 0;
      }
    }

    method AddBaRspReceived(c: Caps, src: Mac, token: Byte, status: Word, param: BaParam,
                            timeout: Word) returns (ret: int)
      requires Valid()
      modifies this, tx, rx
      ensures Valid() && State() == OnAddBaRsp(old(State()), c, src, token, status, param, timeout)
      ensures ret == if Drops(old(State()), c, src, param.tid) then -1 else 0
    {
      RspKeeps(State(), c, src, token, status, param, timeout);
      NotAdded(State(), c, src, param.tid, Tx);
      hide DevInv, TrafficStreams.GetTs, TxOnRsp;
      var reason: Option<Word> := Some(DELBA_REASON_UNKNOWN_BA);
      ret := 0;
      if c.qosActive && c.ht && c.ampdu {
        var r := GetTs(c, src, param.tid, Tx, false);
        if r.Some? {
          reason, ret := TakeResponse(r.value, token, status, param, timeout);
        }
      }
      if reason.Some? {
        Transmit(src, DelBa(1, param.tid, reason.value));
      }
    }

    // rtllib_rx_ADDBARsp on the frame body: -1 for a short frame and for a response that is dropped
    // because there is an agreement already.
    method RxAddBaRsp(c: Caps, src: Mac, body: seq<Byte>) returns (ret: int)
      requires Valid()
      modifies this, tx, rx
      ensures Valid()
      ensures ParseRsp(body).None? ==> ret == -1 && State() == old(State())
      ensures ParseRsp(body).Some? ==>
        var (token, status, param, timeout) := ParseRsp(body).value;
        && State() == OnAddBaRsp(old(State()), c, src, token, status, param, timeout)
        && ret == if Drops(old(State()), c, src, param.tid) then -1 else 0
    {
      if |body| < 9 {
        return -1;
      }
      ret := AddBaRspReceived(c, src, body[2], Get16(body, 3), UnpackParam(Get16(body, 5)), Get16(body, 7));
    }

    method DelBaReceived(c: Caps, src: Mac, initiator: Bit, tid: Nibble) returns (ret: int)
      requires Valid()
      modifies this, tx, rx
      ensures Valid() && State() == OnDelBa(old(State()), c, src, initiator, tid)
      ensures ret == if Ends(old(State()), c, src, initiator, tid) then 0 else -1
    {
      DelBaKeeps(State(), c, src, initiator, tid);
      hide DevInv, TrafficStreams.GetTs;
      if !c.qosActive || !c.ht {
        return -1;
      }
      if initiator == 1 {
        var r := GetTs(c, src, tid, Rx, false);
        if r.None? {
          return -1;
        }
        var _ := RxTsDeleteBA(r.value);
      } else {
        var r := GetTs(c, src, tid, Tx, false);
        if r.None? {
          return -1;
        }
        EndAgreement(r.value);
      }
      return 0;
    }

    // rtllib_rx_DELBA on the frame body. Initiator and TID are whatever lies where the driver looks
    // for them, far beyond the frame.
    method RxDelBa(c: Caps, src: Mac, body: seq<Byte>, initiator: Bit, tid: Nibble) returns (ret: int)
      requires Valid()
      modifies this, tx, rx
      ensures Valid()
      ensures |body| < 6 ==> ret == -1 && State() == old(State())
      ensures |body| >= 6 ==> State() == OnDelBa(old(State()), c, src, initiator, tid)
      ensures |body| >= 6 ==> ret == if Ends(old(State()), c, src, initiator, tid) then 0 else -1
    {
      if |body| < 6 {
        return -1;
      }
      ret := DelBaReceived(c, src, initiator, tid);
    }

    method EndAgreement(i: nat)
      requires Shape() && i < TOTAL_TS_NUM
      modifies tx
      ensures tx[..] == old(tx[..])[i := TxOnDelBa(old(tx[i]))]
    {
      tx[i] := tx[i].(usingBa := false);
      tx[i] := tx[i].(inProgress := false);
      tx[i] := tx[i].(delayed := false);
      tx[i] := tx[i].(addBaTimer := false);
      var _ := TxTsDeleteBA(i);
    }

    // Timer callbacks: each timer is off again when its callback runs.
    method TsAddBaProcess(i: nat)
      requires Valid() && i < TOTAL_TS_NUM && tx[i].addBaTimer
      modifies this, tx
      ensures Valid() && State() == OnAddBaTimer(old(State()), i)
    {
      TimerKeeps(State(), AddBaDelay, i);
      hide DevInv, InitAddBa, Frames, InRange;
      tx[i] := tx[i].(addBaTimer := false);
      TsInitAddBA(i, BA_POLICY_IMMEDIATE, false);
    }

    method BaSetupTimeOut(i: nat)
      requires Valid() && i < TOTAL_TS_NUM && tx[i].pending.timer
      modifies this, tx
      ensures Valid() && State() == OnSetupTimer(old(State()), i)
    {
      TimerKeeps(State(), BaSetup, i);
      hide DevInv, SetupTimeout, InRange;
      tx[i] := tx[i].(pending := tx[i].pending.(timer := false));
      GiveUp(i);
    }

    method GiveUp(i: nat)
      requires Shape() && i < TOTAL_TS_NUM
      modifies tx
      ensures tx[..] == old(tx[..])[i := SetupTimeout(old(tx[i]))]
    {
      tx[i] := tx[i].(inProgress := false);
      tx[i] := tx[i].(delayed := true);
      tx[i] := tx[i].(pending := tx[i].pending.(valid := false));
    }

    method TxBaInactTimeout(i: nat)
      requires Valid() && i < TOTAL_TS_NUM && tx[i].admitted.timer
      modifies this, tx
      ensures Valid() && State() == OnTxInactTimer(old(State()), i)
    {
      TimerKeeps(State(), TxBaInact, i);
      hide DevInv, TxDeleteBa, Frames, InRange;
      tx[i] := tx[i].(admitted := tx[i].admitted.(timer := false));
      var _ := TxTsDeleteBA(i);
      Transmit(tx[i].common.addr, DelBa(1, tx[i].admitted.param.tid, DELBA_REASON_TIMEOUT));
    }

    // No valid state has this timer running; the callback is right all the same.
    method RxBaInactTimeout(j: nat)
      requires Shape() && j < TOTAL_TS_NUM && rx[j].ba.timer
      modifies this, rx
      ensures State() == OnRxInactTimer(old(State()), j)
    {
      rx[j] := rx[j].(ba := rx[j].ba.(timer := false));
      var _ := RxTsDeleteBA(j);
      Transmit(rx[j].common.addr, DelBa(0, rx[j].ba.param.tid, DELBA_REASON_TIMEOUT));
    }

    // ---- The data paths ----

    // The traffic-stream part of rtllib_tx_query_agg_cap.
    method QueryAggCap(c: Caps, dst: Mac, tid: Byte, mayStart: bool)
      requires Valid()
      modifies this, tx, rx
      ensures Valid() && State() == OnTxData(old(State()), c, dst, tid, mayStart)
    {
      TxDataKeeps(State(), c, dst, tid, mayStart);
      hide DevInv, TrafficStreams.GetTs, TxUse;
      var r := GetTs(c, dst, tid, Tx, true);
      if r.None? {
        return;
      }
      UseStream(r.value, mayStart);
    }

    method UseStream(i: nat, mayStart: bool)
      requires Shape() && i < TOTAL_TS_NUM
      modifies tx
      ensures tx[..] == old(tx[..])[i := TxUse(old(tx[i]), mayStart)]
    {
      if !tx[i].admitted.valid {
        if mayStart && !tx[i].disabled {
          TsStartAddBaProcess(i);
        }
      } else if !tx[i].usingBa {
        if SnLess(tx[i].admitted.start.seqNum, (tx[i].curSeq + 1) % SEQ_MOD) {
          tx[i] := tx[i].(usingBa := true);
        }
      }
    }

    // The number given to a frame; 0 if there is no stream for it.
    method QuerySeqNum(c: Caps, dst: Mac, tid: Byte) returns (n: SeqNum)
      requires Valid()
      modifies this, tx, rx
      ensures Valid() && State() == OnQuerySeq(old(State()), c, dst, tid)
      ensures var g := TrafficStreams.GetTs(old(State()), c, dst, tid, Tx, true);
        n == if g.1.Some? then g.0.tx[g.1.value].curSeq else 0
    {
      QuerySeqKeeps(State(), c, dst, tid);
      hide DevInv, TrafficStreams.GetTs;
      var r := GetTs(c, dst, tid, Tx, true);
      if r.None? {
        return 0;
      }
      n := tx[r.value].curSeq;
      tx[r.value] := tx[r.value].(curSeq := (tx[r.value].curSeq + 1) % SEQ_MOD);
    }

    method RxDataReceived(c: Caps, src: Mac, tid: Byte, sn: SeqNum, rxb: Rxb)
      requires Valid()
      modifies this, tx, rx
      ensures Valid() && State() == OnRxData(old(State()), c, src, tid, sn, rxb)
    {
      RxPathKeeps(State(), c, src, tid, sn, rxb);
      GotRx(State(), c, src, tid, true);
      hide DevInv, TrafficStreams.GetTs, Arrive, RxLive;
      var r := GetTs(c, src, tid, Rx, true);
      if r.Some? {
        LiveFits(rx[r.value]);
        RxReorderIndicatePacket(r.value, sn, rxb);
      }
    }

    // ---- Initialisation and whole runs ----

    // TSInitialize as it is meant: every record is put on the unused list of its side once.
    // The device structure has been cleared before.
    constructor ()
      ensures Initial(State()) && Valid() && fresh(tx) && fresh(rx)
    {
      tx := new TxTs[TOTAL_TS_NUM](_ => IDLE_TX);
      rx := new RxTs[TOTAL_TS_NUM](_ => IDLE_RX.(queue := RxQueue(0, 0, [], false)));
      txl, rxl := Lists([], [], []), Lists([], [], []);
      free, sent, indicated := [], [], [];
      new;
      var count := 0;
      while count < TOTAL_TS_NUM
        invariant 0 <= count <= TOTAL_TS_NUM && Shape()
        invariant forall i :: 0 <= i < TOTAL_TS_NUM ==> tx[i] == IDLE_TX
        invariant forall i :: 0 <= i < TOTAL_TS_NUM ==> rx[i] == IDLE_RX.(queue := RxQueue(0, 0, [], false))
        invariant txl == Lists(Upto(count), [], []) && rxl == Lists([], [], []) && free == [] && sent == []
        invariant indicated == []
      {
        tx[count] := ResetTx(tx[count]);
        assert Upto(count + 1) == Upto(count) + [count];
        txl := txl.(unused := txl.unused + [count]);
        count := count + 1;
      }
      count := 0;
      while count < TOTAL_TS_NUM
        invariant 0 <= count <= TOTAL_TS_NUM && Shape()
        invariant forall i :: 0 <= i < TOTAL_TS_NUM ==> tx[i] == IDLE_TX
        invariant forall i :: 0 <= i < count ==> rx[i] == IDLE_RX
        invariant forall i :: count <= i < TOTAL_TS_NUM ==> rx[i] == IDLE_RX.(queue := RxQueue(0, 0, [], false))
        invariant txl == Lists(Upto(TOTAL_TS_NUM), [], []) && rxl == Lists(Upto(count), [], [])
        invariant free == [] && sent == [] && indicated == []
      {
        rx[count] := ResetRx(rx[count]);
        assert Upto(count + 1) == Upto(count) + [count];
        rxl := rxl.(unused := rxl.unused + [count]);
        count := count + 1;
      }
      FillPool();
      InitialOk(State());
      DevSound(State());
    }

    method FillPool()
      requires free == []
      modifies this`free
      ensures Ids(free) == Upto(REORDER_ENTRY_NUM)
    {
      var count := 0;
      while count < REORDER_ENTRY_NUM
        invariant 0 <= count <= REORDER_ENTRY_NUM && Ids(free) == Upto(count)
      {
        assert Upto(count + 1) == Upto(count) + [count] && Ids([Entry(count, 0, 0)]) == [count];
        assert Ids(free + [Entry(count, 0, 0)]) == Ids(free) + Ids([Entry(count, 0, 0)]);
        free := free + [Entry(count, 0, 0)];
        count := count + 1;
      }
    }

    // Any event: the device goes from state to state as Handle does.
    method Step(x: Input)
      requires Valid()
      modifies this, tx, rx
      ensures Valid() && State() == Handle(old(State()), x)
    {
      hide DevInv, TrafficStreams.GetTs, OnAddBaReq, OnAddBaRsp, OnDelBa, OnTxData, OnQuerySeq, OnRxData, Remove;
      var c := x.caps;
      match x.event {
        case Lookup(addr, tid, side, add) => var _ := GetTs(c, addr, tid, side, add);
        case AddBaReqIn(src, token, param, timeout, start) => AddBaReqReceived(c, src, token, param, timeout, start);
        case AddBaRspIn(src, token, status, param, timeout) =>
          var _ := AddBaRspReceived(c, src, token, status, param, timeout);
        case DelBaIn(src, initiator, tid) => var _ := DelBaReceived(c, src, initiator, tid);
        case TxData(dst, tid, mayStart) => QueryAggCap(c, dst, tid, mayStart);
        case QuerySeq(dst, tid) => var _ := QuerySeqNum(c, dst, tid);
        case RxData(src, tid, sn, rxb) => RxDataReceived(c, src, tid, sn, rxb);
        case Timer(kind, i) => if i < TOTAL_TS_NUM { Fire(kind, i); }
        case RemoveTs(sel) => RemoveTs(sel);
      }
    }

    // A timer expires only while it is pending.
    method Fire(kind: TimerKind, i: nat)
      requires Valid() && i < TOTAL_TS_NUM
      modifies this, tx, rx
      ensures Valid() && State() == HandleTimer(old(State()), kind, i)
    {
      ArmedInUse(State(), i);
      match kind {
        case AddBaDelay => if tx[i].addBaTimer { TsAddBaProcess(i); }
        case BaSetup => if tx[i].pending.timer { BaSetupTimeOut(i); }
        case TxBaInact => if tx[i].admitted.timer { TxBaInactTimeout(i); }
        case RxBaInact =>
        case RxPktPending => if rx[i].queue.timer { RxPktPendingTimeout(i); }
      }
    }
  }
}
