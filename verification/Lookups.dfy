/**
 Which stream a lookup gives, stated by peer, TID and side alone: two TIDs share a record, with its
 numbers and its agreement, exactly if they are of the same access class.
 */
module Lookups {
  import opened Basics
  import opened SequenceNumbers
  import opened RxReorder
  import opened BlockAck
  import opened TrafficStreams
  import opened StreamInvariants

  // From the access point down, to it up.
  function Heading(mode: IwMode, side: Side): Dir {
    match (mode, side)
    case (Master, Tx) => Down
    case (Master, Rx) => Up
    case (_, Tx) => Up
    case (_, Rx) => Down
  }

  // No stream is kept for a group address, nor, with QoS support, for a TID above 7.
  predicate Rejected(c: Caps, addr: Mac, tid: Byte) {
    addr[0] % 2 == 1 || (c.qosSupported && tid > 7)
  }

  // A stream in use for the peer and what the TID stands for.
  ghost predicate Serving(s: DevState, c: Caps, side: Side, i: nat, addr: Mac, tid: Byte) {
    && InUse(s, side, i)
    && var k := Commons(s, side)[i];
       k.addr == addr && Means(c.qosSupported, tid, k.tsid) && k.dir == Heading(c.mode, side)
  }

  // The record is as good as new but for its key.
  ghost predicate Fresh(s: DevState, side: Side, i: nat, k: TsCommon) {
    var none := BaRecord(false, false, 0, BaParam(0, 0, 0, 0), 0, SeqCtrl(0, 0));
    && i < |s.tx| && i < |s.rx| && !k.setupTimer && !k.inactTimer
    && if side == Tx then s.tx[i] == TxTs(k, 0, none, none, false, false, false, false, false)
       else s.rx[i] == RxTs(k, RxQueue(0xffff, 0xffff, [], false), none)
  }

  // s' is s with record i put to use.
  ghost predicate Adds(s: DevState, s': DevState, c: Caps, side: Side, i: nat, addr: Mac, tid: Byte) {
    var l, l' := ListsOf(s, side), ListsOf(s', side);
    && l.unused == [i] + l'.unused && l'.admit == l.admit + [i] && l'.pend == l.pend
    && Serving(s', c, side, i, addr, tid) && Fresh(s', side, i, Commons(s', side)[i])
    && OthersSame(s, s', side, i)
  }

  ghost predicate OthersSame(s: DevState, s': DevState, side: Side, i: nat) {
    && |s'.tx| == |s.tx| && |s'.rx| == |s.rx|
    && (forall k :: 0 <= k < |s.tx| && (side == Rx || k != i) ==> s'.tx[k] == s.tx[k])
    && (forall k :: 0 <= k < |s.rx| && (side == Tx || k != i) ==> s'.rx[k] == s.rx[k])
    && (side == Tx ==> s'.rxl == s.rxl) && (side == Rx ==> s'.txl == s.txl)
    && s'.free == s.free && s'.sent == s.sent && s'.indicated == s.indicated
  }

  lemma HeadingIsAdded(mode: IwMode, side: Side)
    ensures Heading(mode, side) == AddedDir(mode, side)
  {
  }

  lemma ServingIsKey(s: DevState, c: Caps, side: Side, i: nat, addr: Mac, tid: Byte, up: Nibble)
    requires UserPriority(c.qosSupported, tid) == Some(up)
    ensures Serving(s, c, side, i, addr, tid) <==>
      InUse(s, side, i) && IsKey(Commons(s, side)[i], addr, up, AddedDir(c.mode, side))
  {
    HeadingIsAdded(c.mode, side);
    if InUse(s, side, i) {
      PriorityMeans(c.qosSupported, tid, Commons(s, side)[i].tsid);
    }
  }

  lemma AddTxExactly(s: DevState, c: Caps, addr: Mac, tid: Byte, up: Nibble)
    requires DevInv(s) && Sound(s) && UserPriority(c.qosSupported, tid) == Some(up) && s.txl.unused != []
    ensures var r := AddTs(s, c.mode, addr, up, Tx);
      && r.1 == Some(s.txl.unused[0])
      && Adds(s, r.0, c, Tx, s.txl.unused[0], addr, tid)
  {
    var i := s.txl.unused[0];
    assert i in s.txl.unused && TxIdle(s.tx[i]);
    var s' := AddTs(s, c.mode, addr, up, Tx).0;
    ServingIsKey(s', c, Tx, i, addr, tid, up);
    assert s.txl.unused == [i] + s'.txl.unused;
  }

  lemma AddRxExactly(s: DevState, c: Caps, addr: Mac, tid: Byte, up: Nibble)
    requires DevInv(s) && Sound(s) && UserPriority(c.qosSupported, tid) == Some(up) && s.rxl.unused != []
    ensures var r := AddTs(s, c.mode, addr, up, Rx);
      && r.1 == Some(s.rxl.unused[0])
      && Adds(s, r.0, c, Rx, s.rxl.unused[0], addr, tid)
  {
    var i := s.rxl.unused[0];
    assert i in s.rxl.unused && RxIdle(s.rx[i]);
    var s' := AddTs(s, c.mode, addr, up, Rx).0;
    ServingIsKey(s', c, Rx, i, addr, tid, up);
    assert s.rxl.unused == [i] + s'.rxl.unused;
  }

  lemma SearchServes(s: DevState, c: Caps, side: Side, addr: Mac, tid: Byte, up: Nibble)
    requires DevInv(s) && Sound(s) && UserPriority(c.qosSupported, tid) == Some(up)
    ensures var r := Search(c.mode, side, ListsOf(s, side).admit, Commons(s, side), addr, up);
      if r.Some? then Serving(s, c, side, r.value, addr, tid)
      else forall i :: !Serving(s, c, side, i, addr, tid)
  {
    SideKeys(s, side);
    SearchFinds(c.mode, side, ListsOf(s, side).admit, Commons(s, side), addr, up);
    hide Search, DevInv, Sound, Serving;
    forall i: nat ensures Serving(s, c, side, i, addr, tid) <==>
                          InUse(s, side, i) && IsKey(Commons(s, side)[i], addr, up, AddedDir(c.mode, side)) {
      ServingIsKey(s, c, side, i, addr, tid, up);
    }
  }

  // A lookup gives nothing for a rejected address or TID; the stream that serves the peer and TID if
  // there is one; and otherwise, if asked to add, the first unused record, made that stream.
  lemma LookupExactly(s: DevState, c: Caps, addr: Mac, tid: Byte, side: Side, add: bool)
    requires DevInv(s) && Sound(s)
    ensures var (s', r) := GetTs(s, c, addr, tid, side, add);
      if Rejected(c, addr, tid) then r.None? && s' == s
      else if exists i :: Serving(s, c, side, i, addr, tid)
      then s' == s && r.Some? && Serving(s, c, side, r.value, addr, tid)
      else if !add || ListsOf(s, side).unused == [] then r.None? && s' == s
      else r == Some(ListsOf(s, side).unused[0]) && Adds(s, s', c, side, r.value, addr, tid)
  {
    hide Search, AddTs, DevInv, Adds, Serving, UserPriority, Means, Commons, Searched, InRange;
    PriorityMeans(c.qosSupported, tid, 0);
    if !Rejected(c, addr, tid) {
      var up := UserPriority(c.qosSupported, tid).value;
      SearchServes(s, c, side, addr, tid, up);
      AddTsMeaning(s, c.mode, addr, up, side);
      if ListsOf(s, side).unused != [] {
        if side == Tx { AddTxExactly(s, c, addr, tid, up); } else { AddRxExactly(s, c, addr, tid, up); }
      }
    }
  }

  // Both TIDs stand for the same, each under its own setting of QoS support.
  predicate SameClass(q: bool, tid: Byte, q': bool, tid': Byte) {
    exists u: Nibble :: Means(q, tid, u) && Means(q', tid', u)
  }

  // With QoS support on these are the pairs {0, 3}, {1, 2}, {4, 5} and {6, 7}; without it all TIDs
  // are one class.
  lemma SameClassExactly(tid: Byte, tid': Byte)
    ensures SameClass(true, tid, true, tid') <==>
      (tid == tid' && tid < 8) || {tid, tid'} in {{0, 3}, {1, 2}, {4, 5}, {6, 7}}
    ensures SameClass(false, tid, false, tid')
  {
    assert Means(false, tid, 0);
    assert InClass(tid, 0) || InClass(tid, 2) || InClass(tid, 5) || InClass(tid, 7) <==> tid < 8;
    var pairs := {{0, 3}, {1, 2}, {4, 5}, {6, 7}};
    if SameClass(true, tid, true, tid') && tid != tid' {
      assert {tid, tid'} == {0, 3} || {tid, tid'} == {1, 2} || {tid, tid'} == {4, 5} || {tid, tid'} == {6, 7};
    }
    if {tid, tid'} in pairs || (tid == tid' && tid < 8) {
      assert tid in {tid, tid'} && tid' in {tid, tid'};
      var u: Nibble := UserPriority(true, tid).value;
      assert Means(true, tid, u) && Means(true, tid', u);
    }
  }

  // A lookup after a lookup of the same peer and side, in the same mode and with the peer's streams
  // kept in between, gives the same record exactly if the two TIDs are of one class.
  lemma SameRecordExactly(s: DevState, c: Caps, addr: Mac, tid: Byte, side: Side, add: bool, xs: seq<Input>,
                          s': DevState, c': Caps, tid': Byte, add': bool)
    requires DevInv(s) && Sound(s)
    requires forall k :: 0 <= k < |xs| ==> Spares(xs[k], addr)
    requires c'.mode == c.mode
    ensures var g := GetTs(s, c, addr, tid, side, add);
      g.1.Some? && Reachable(g.0, xs, s') ==>
        Sound(s') && (GetTs(s', c', addr, tid', side, add').1 == g.1 <==>
                      SameClass(c.qosSupported, tid, c'.qosSupported, tid'))
  {
    var (s1, r) := GetTs(s, c, addr, tid, side, add);
    if r.Some? && Reachable(s1, xs, s') {
      GetTsMeaning(s, c, addr, tid, side, add);
      GetTsKeeps(s, c, addr, tid, side, add);
      var up := UserPriority(c.qosSupported, tid).value;
      hide GetTs, DevInv, UserPriority, Spares, Reachable;
      RunHolds(s1, xs, s', side, r.value, addr, up, AddedDir(c.mode, side));
      RunKeeps(s1, xs, s');
      DevSound(s');
      PriorityMeans(c.qosSupported, tid, up);
      FoundExactly(s', c', side, r.value, addr, up, tid', add');
      MeansOne(c.qosSupported, tid, c'.qosSupported, tid', up);
    }
  }

  lemma MeansOne(q: bool, tid: Byte, q': bool, tid': Byte, u: Nibble)
    requires Means(q, tid, u)
    ensures SameClass(q, tid, q', tid') <==> Means(q', tid', u)
  {
  }

  lemma FoundExactly(s: DevState, c: Caps, side: Side, i: nat, addr: Mac, up: Nibble, tid: Byte, add: bool)
    requires DevInv(s) && Sound(s) && Held(s, side, i, addr, up, AddedDir(c.mode, side)) && !IsMulticast(addr)
    ensures GetTs(s, c, addr, tid, side, add).1 == Some(i) <==> Means(c.qosSupported, tid, up)
  {
    PriorityMeans(c.qosSupported, tid, up);
    var (s', r) := GetTs(s, c, addr, tid, side, add);
    if Means(c.qosSupported, tid, up) {
      HeldIsFound(s, c, side, i, addr, tid, add);
    } else if r == Some(i) {
      GetTsMeaning(s, c, addr, tid, side, add);
      GetTsExtends(s, c, addr, tid, side, add);
      ExtendsHolds(s, s', side, i, addr, up, AddedDir(c.mode, side));
    }
  }

  // ---- Streams of any direction ----

  function Code(dir: Dir): nat {
    match dir
    case Up => 0
    case Down => 1
    case Direct => 2
    case BiDir => 3
  }

  // The directions in which a stream may serve the side, beside that of the streams the driver adds.
  function Directions(mode: IwMode, side: Side): set<Dir> {
    match mode
    case Master => {Heading(mode, side), BiDir}
    case Adhoc => {Heading(mode, side)}
    case Infra => {Heading(mode, side), Direct, BiDir}
  }

  ghost predicate Matches(l: seq<nat>, ts: seq<TsCommon>, i: nat, addr: Mac, tsid: Nibble, dirs: set<Dir>) {
    i in l && i < |ts| && ts[i].addr == addr && ts[i].tsid == tsid && ts[i].dir in dirs
  }

  // Whatever streams a list holds, the search finds one of the peer, the TSID and a direction of the
  // side, of the least direction code, if there is one.
  lemma SearchAnyDirection(mode: IwMode, side: Side, l: seq<nat>, ts: seq<TsCommon>, addr: Mac, tsid: Nibble)
    requires InRange(l, |ts|)
    ensures var r, dirs := Search(mode, side, l, ts, addr, tsid), Directions(mode, side);
      if r.Some? then
        && Matches(l, ts, r.value, addr, tsid, dirs)
        && forall i: nat :: Matches(l, ts, i, addr, tsid, dirs) ==> Code(ts[r.value].dir) <= Code(ts[i].dir)
      else forall i: nat :: !Matches(l, ts, i, addr, tsid, dirs)
  {
    forall i: nat, dirs: set<Dir> | Matches(l, ts, i, addr, tsid, dirs) ensures IsKey(ts[i], addr, tsid, ts[i].dir) {
    }
  }
}
