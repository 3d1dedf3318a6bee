/**
 The receive reorder buffer of one traffic stream, as values.

 `pending` lists the buffered entries from the oldest end (list_entry(prev) in the
 driver is pending[0]); a newly received frame is placed scanning from the other end.
 The device class carries out the same steps in place; here are the functions those
 steps are tied to and what they mean in terms of unbounded sequence numbers.
 */
module RxReorder {
  import opened SequenceNumbers

  const REORDER_WIN_SIZE := 128
  const REORDER_ENTRY_NUM := 128
  const RX_REORDER_WIN := 64

  // A received frame handed to the network stack: an opaque handle.
  type Rxb = int

  // A node of the shared pool, named by its index there; it carries the frame it holds.
  datatype Entry = Entry(id: nat, sn: SeqNum, rxb: Rxb)

  datatype Pkt = Pkt(sn: SeqNum, rxb: Rxb)

  datatype RxQueue = RxQueue(indicateSeq: nat, timeoutSeq: nat, pending: seq<Entry>, timer: bool)

  const EMPTY_QUEUE := RxQueue(NO_SEQ, NO_SEQ, [], false)

  datatype Outcome = Outcome(queue: RxQueue, free: seq<Entry>, delivered: seq<Pkt>)

  function Packets(p: seq<Entry>): (r: seq<Pkt>)
    ensures |r| == |p|
  {
    seq(|p|, i requires 0 <= i < |p| => Pkt(p[i].sn, p[i].rxb))
  }

  // ---- The steps of the driver ----

  predicate Due(e: Entry, ind: nat) {
    SnLess(e.sn, ind) || SnEqual(e.sn, ind)
  }

  function Passed(e: Entry, ind: nat): nat {
    if SnEqual(e.sn, ind) then (ind + 1) % SEQ_MOD else ind
  }

  // How many entries the indication loop takes from the oldest end ...
  function DrainCount(p: seq<Entry>, ind: nat): (k: nat)
    ensures k <= |p|
  {
    if p == [] || !Due(p[0], ind) then 0 else 1 + DrainCount(p[1..], Passed(p[0], ind))
  }

  // ... and where it leaves RxIndicateSeq.
  function DrainSeq(p: seq<Entry>, ind: nat): nat {
    if p == [] || !Due(p[0], ind) then ind else DrainSeq(p[1..], Passed(p[0], ind))
  }

  // Where AddReorderEntry links a frame numbered sn into p[..j], scanning from the newest
  // end; -1 when an entry with that number is met.
  function Place(p: seq<Entry>, sn: SeqNum, j: nat): (r: int)
    requires j <= |p|
    ensures -1 <= r <= j
  {
    if j == 0 then 0
    else if SnLess(sn, p[j - 1].sn) then Place(p, sn, j - 1)
    else if SnEqual(sn, p[j - 1].sn) then -1
    else j
  }

  function WindowStart(sn: SeqNum): nat {
    if sn >= RX_REORDER_WIN - 1 then sn + 1 - RX_REORDER_WIN
    else 4095 - (RX_REORDER_WIN - (sn + 1)) + 1
  }

  // Buffering one frame: the pending list and the pool after it.
  function Buffer(p: seq<Entry>, free: seq<Entry>, sn: SeqNum, rxb: Rxb): (seq<Entry>, seq<Entry>) {
    if free == [] then (p, free)
    else
      var e := free[0].(sn := sn, rxb := rxb);
      var j := Place(p, sn, |p|);
      if j < 0 then (p, free[1..] + [e]) else (p[..j] + [e] + p[j..], free[1..])
  }

  // Indication and timer handling shared by both entry points: `first` is what is
  // delivered ahead of the pending list.
  function Indicate(q: RxQueue, p: seq<Entry>, free: seq<Entry>, ind: nat, first: seq<Pkt>): Outcome {
    var k := DrainCount(p, ind);
    var ind' := DrainSeq(p, ind);
    var out := first + Packets(p[..k]);
    var q' :=
      if out != [] then RxQueue(ind', NO_SEQ, p[k..], false)
      else if p != [] && q.timeoutSeq == NO_SEQ then RxQueue(ind', ind', p, true)
      else RxQueue(ind', q.timeoutSeq, p, q.timer);
    Outcome(q', free + p[..k], out)
  }

  // RxReorderIndicatePacket.
  function Arrive(q: RxQueue, free: seq<Entry>, sn: SeqNum, rxb: Rxb): Outcome {
    var winEnd := (q.indicateSeq + RX_REORDER_WIN - 1) % SEQ_MOD;
    var start := if q.indicateSeq == NO_SEQ then sn else q.indicateSeq;
    if SnLess(sn, start) then Outcome(q, free, [])
    else if SnEqual(sn, start) then
      Indicate(q, q.pending, free, (start + 1) % SEQ_MOD, [Pkt(sn, rxb)])
    else
      var ind := if SnLess(winEnd, sn) then WindowStart(sn) else start;
      var (p, free') := Buffer(q.pending, free, sn, rxb);
      Indicate(q, p, free', ind, [])
  }

  // RxPktPendingTimeout: the timer has fired, so it is no longer armed.
  function Timeout(q: RxQueue, free: seq<Entry>): Outcome {
    if q.timeoutSeq == NO_SEQ || q.pending == [] then Outcome(q.(timer := false), free, [])
    else Indicate(q, q.pending, free, q.pending[0].sn, [])
  }

  // ---- Unbounded numbers ----

  datatype Numbered = Numbered(n: int, rxb: Rxb)

  // The frames of p with the numbers they stand for when the window starts at u.
  function Lift(p: seq<Entry>, u: int): (l: seq<Numbered>)
    ensures |l| == |p|
    ensures forall i :: 0 <= i < |p| ==> l[i].n % SEQ_MOD == p[i].sn && u <= l[i].n < u + SEQ_MOD
  {
    seq(|p|, i requires 0 <= i < |p| => Numbered(u + (p[i].sn - u) % SEQ_MOD, p[i].rxb))
  }

  function Wrap(l: seq<Numbered>): (r: seq<Pkt>)
    ensures |r| == |l|
  {
    seq(|l|, i requires 0 <= i < |l| => Pkt(l[i].n % SEQ_MOD, l[i].rxb))
  }

  ghost predicate Ascending(l: seq<Numbered>) {
    forall i, j :: 0 <= i < j < |l| ==> l[i].n < l[j].n
  }

  ghost predicate Within(l: seq<Numbered>, lo: int, hi: int) {
    forall i :: 0 <= i < |l| ==> lo <= l[i].n < hi
  }

  // Every buffered frame lies strictly ahead of the window start and inside the window,
  // in order; the timer is armed exactly when a timeout number is recorded.
  ghost predicate Represents(q: RxQueue, u: int) {
    && q.indicateSeq == u % SEQ_MOD
    && Ascending(Lift(q.pending, u))
    && Within(Lift(q.pending, u), u + 1, u + RX_REORDER_WIN)
    && TimerOk(q)
  }

  ghost predicate TimerOk(q: RxQueue) {
    && q.timer == (q.timeoutSeq != NO_SEQ)
    && (q.timer ==> q.pending != [])
  }

  // The state of a queue in every reachable state.
  ghost predicate QueueInv(q: RxQueue) {
    if q.indicateSeq == NO_SEQ then q == EMPTY_QUEUE
    else q.indicateSeq < SEQ_MOD && Represents(q, q.indicateSeq)
  }

  lemma LiftShift(p: seq<Entry>, u: int, v: int)
    requires u % SEQ_MOD == v % SEQ_MOD
    ensures forall i :: 0 <= i < |p| ==> Lift(p, v)[i].n == Lift(p, u)[i].n + (v - u)
  {
    forall i | 0 <= i < |p| ensures Lift(p, v)[i].n == Lift(p, u)[i].n + (v - u) {
      assert (p[i].sn - u) % SEQ_MOD == (p[i].sn - v) % SEQ_MOD;
    }
  }

  // The invariant does not depend on which lap of the number space is meant.
  lemma RepresentsAnyLap(q: RxQueue, u: int, v: int)
    requires u % SEQ_MOD == v % SEQ_MOD
    requires Represents(q, u)
    ensures Represents(q, v)
  {
    LiftShift(q.pending, u, v);
  }

  lemma RepresentsQueue(q: RxQueue, u: int)
    requires Represents(q, u)
    ensures QueueInv(q)
  {
    RepresentsAnyLap(q, u, q.indicateSeq);
  }

  // A window of distinct numbers holds few entries: the indication array cannot overflow.
  lemma {:induction false} AscendingFits(l: seq<Numbered>, lo: int, hi: int)
    requires Ascending(l) && Within(l, lo, hi) && lo <= hi
    ensures |l| <= hi - lo
    decreases |l|
  {
    if l != [] {
      var m := |l| - 1;
      assert Within(l[..m], lo, l[m].n) by {
        forall i | 0 <= i < m ensures lo <= l[..m][i].n < l[m].n {
          assert l[..m][i] == l[i];
        }
      }
      AscendingFits(l[..m], lo, l[m].n);
    }
  }

  lemma PendingFits(q: RxQueue)
    requires QueueInv(q)
    ensures |q.pending| <= 63 < REORDER_WIN_SIZE
  {
    if q.indicateSeq != NO_SEQ {
      var u := q.indicateSeq;
      AscendingFits(Lift(q.pending, u), u + 1, u + RX_REORDER_WIN);
    }
  }

  // ---- The ideal reorder buffer: unbounded numbers, a finite map, no lists ----

  datatype Ideal = Ideal(next: int, buf: map<int, Rxb>, armed: bool)

  ghost function FirstMissing(s: set<int>, u: int): (v: int)
    ensures v >= u && v !in s
    ensures forall w :: u <= w < v ==> w in s
    decreases |s|
  {
    if u !in s then u
    else
      var v := FirstMissing(s - {u}, u + 1);
      assert forall w :: u <= w < v ==> w in s by {
        forall w | u <= w < v ensures w in s {
          assert w == u || w in s - {u};
        }
      }
      v
  }

  ghost function Least(s: set<int>): (m: int)
    requires s != {}
    ensures m in s && forall x :: x in s ==> m <= x
    decreases |s|
  {
    assert (forall x :: x !in s) ==> s == {};
    var x :| x in s;
    var rest := s - {x};
    assert s == rest + {x};
    if rest == {} then x
    else
      var m := Least(rest);
      if x < m then x else m
  }

  // The frames of buf numbered lo..hi-1, in increasing order.
  ghost function Listing(buf: map<int, Rxb>, lo: int, hi: int): seq<Numbered>
    decreases hi - lo
  {
    if lo >= hi then []
    else (if lo in buf then [Numbered(lo, buf[lo])] else []) + Listing(buf, lo + 1, hi)
  }

  // Move the window start up to `start`, then over every number already here; whatever
  // falls below is delivered in order.
  ghost function Complete(i: Ideal, buf: map<int, Rxb>, start: int): (Ideal, seq<Numbered>) {
    var v := FirstMissing(buf.Keys, start);
    var rest := map n | n in buf && n >= v :: buf[n];
    var out := Listing(buf, i.next, v);
    (Ideal(v, rest, out == [] && (i.armed || rest != map[])), out)
  }

  // A frame of the window of 64 numbers is buffered if there is room and none of its number is; one
  // beyond it moves the window to end with it.
  ghost function IdealArrive(i: Ideal, t: int, rxb: Rxb, room: bool): (Ideal, seq<Numbered>) {
    if t < i.next then (i, [])
    else
      var buf := if t == i.next || (room && t !in i.buf) then i.buf[t := rxb] else i.buf;
      Complete(i, buf, if i.next < t - 63 then t - 63 else i.next)
  }

  ghost function IdealTimeout(i: Ideal): (Ideal, seq<Numbered>) {
    if i.buf == map[] then (i.(armed := false), []) else Complete(i, i.buf, Least(i.buf.Keys))
  }

  // ---- Sorted lists as maps ----

  ghost function Numbers(l: seq<Numbered>): set<int> {
    set i | 0 <= i < |l| :: l[i].n
  }

  ghost function FrameAt(l: seq<Numbered>, n: int): Rxb
    requires n in Numbers(l)
  {
    var i :| 0 <= i < |l| && l[i].n == n;
    l[i].rxb
  }

  ghost function ToMap(l: seq<Numbered>): (m: map<int, Rxb>) {
    map n | n in Numbers(l) :: FrameAt(l, n)
  }

  ghost function Abs(q: RxQueue, u: int): Ideal {
    Ideal(u, ToMap(Lift(q.pending, u)), q.timer)
  }

  lemma ToMapMeaning(l: seq<Numbered>)
    requires Ascending(l)
    ensures ToMap(l).Keys == Numbers(l)
    ensures forall i :: 0 <= i < |l| ==> l[i].n in ToMap(l) && ToMap(l)[l[i].n] == l[i].rxb
  {
  }

  // A map is determined by its entries.
  lemma ToMapIs(l: seq<Numbered>, m: map<int, Rxb>)
    requires Ascending(l)
    requires forall i :: 0 <= i < |l| ==> l[i].n in m && m[l[i].n] == l[i].rxb
    requires forall n :: n in m ==> n in Numbers(l)
    ensures ToMap(l) == m
  {
    ToMapMeaning(l);
    forall n | n in m ensures n in ToMap(l) && ToMap(l)[n] == m[n] {
      var i :| 0 <= i < |l| && l[i].n == n;
    }
  }

  // l lists the frames of buf numbered lo..hi-1 in order.
  ghost predicate Lists(buf: map<int, Rxb>, l: seq<Numbered>, lo: int, hi: int) {
    && Ascending(l) && Within(l, lo, hi)
    && (forall i :: 0 <= i < |l| ==> l[i].n in buf && buf[l[i].n] == l[i].rxb)
    && (forall n :: n in buf && lo <= n < hi ==> n in Numbers(l))
  }

  lemma ListsTail(buf: map<int, Rxb>, l: seq<Numbered>, lo: int, hi: int)
    requires Lists(buf, l, lo, hi) && lo < hi && lo in buf
    ensures l != [] && l[0] == Numbered(lo, buf[lo]) && Lists(buf, l[1..], lo + 1, hi)
  {
    assert lo in Numbers(l);
    var r := l[1..];
    assert l[0].n == lo;
    assert forall i :: 0 <= i < |r| ==> r[i] == l[i + 1];
    assert Ascending(r) && Within(r, lo + 1, hi);
    forall n | n in buf && lo + 1 <= n < hi ensures n in Numbers(r) {
      var j :| 0 <= j < |l| && l[j].n == n;
      assert r[j - 1].n == n;
    }
  }

  lemma {:induction false} ListingIs(buf: map<int, Rxb>, l: seq<Numbered>, lo: int, hi: int)
    requires Lists(buf, l, lo, hi)
    ensures Listing(buf, lo, hi) == l
    decreases hi - lo
  {
    if lo < hi {
      if lo in buf {
        ListsTail(buf, l, lo, hi);
        ListingIs(buf, l[1..], lo + 1, hi);
      } else {
        assert forall i :: 0 <= i < |l| ==> l[i].n != lo;
        ListingIs(buf, l, lo + 1, hi);
      }
    }
  }

  lemma {:induction false} ListingAscends(buf: map<int, Rxb>, lo: int, hi: int)
    ensures Ascending(Listing(buf, lo, hi)) && Within(Listing(buf, lo, hi), lo, hi)
    ensures forall i :: 0 <= i < |Listing(buf, lo, hi)| ==>
      Listing(buf, lo, hi)[i].n in buf && buf[Listing(buf, lo, hi)[i].n] == Listing(buf, lo, hi)[i].rxb
    decreases hi - lo
  {
    if lo < hi {
      ListingAscends(buf, lo + 1, hi);
    }
  }

  // ---- Draining on unbounded numbers ----

  ghost function LiftedCount(l: seq<Numbered>, u: int): (k: nat)
    ensures k <= |l|
  {
    if l == [] || l[0].n > u then 0 else 1 + LiftedCount(l[1..], if l[0].n == u then u + 1 else u)
  }

  ghost function LiftedNext(l: seq<Numbered>, u: int): int {
    if l == [] || l[0].n > u then u else LiftedNext(l[1..], if l[0].n == u then u + 1 else u)
  }

  // The 12-bit loop does what the loop on unbounded numbers does.
  lemma {:induction false} DrainIsLifted(p: seq<Entry>, l: seq<Numbered>, base: int, u: int)
    requires |l| == |p| && Within(l, base, base + 2048) && base <= u <= base + 2048
    requires forall i :: 0 <= i < |p| ==> l[i].n % SEQ_MOD == p[i].sn
    ensures DrainCount(p, u % SEQ_MOD) == LiftedCount(l, u)
    ensures DrainSeq(p, u % SEQ_MOD) == LiftedNext(l, u) % SEQ_MOD
  {
    if p != [] {
      SnLessIsLess(l[0].n, u);
      if l[0].n <= u {
        var u' := if l[0].n == u then u + 1 else u;
        NextModulo(u);
        assert Passed(p[0], u % SEQ_MOD) == u' % SEQ_MOD;
        DrainIsLifted(p[1..], l[1..], base, u');
      }
    }
  }

  // It stops at the first number that is not in the list.
  lemma {:induction false} LiftedStops(l: seq<Numbered>, u: int)
    requires Ascending(l)
    ensures var k, v := LiftedCount(l, u), LiftedNext(l, u);
      && u <= v
      && (forall i :: 0 <= i < k ==> l[i].n < v)
      && (forall i :: k <= i < |l| ==> l[i].n > v)
      && (forall w :: u <= w < v ==> w in Numbers(l))
  {
    if l != [] && l[0].n <= u {
      var r := l[1..];
      var u' := if l[0].n == u then u + 1 else u;
      assert Ascending(r);
      LiftedStops(r, u');
      var k, v := LiftedCount(l, u), LiftedNext(l, u);
      forall i | 0 <= i < k ensures l[i].n < v {
        if i > 0 { assert l[i] == r[i - 1]; } else if l[0].n == u { assert u' <= v; }
      }
      forall i | k <= i < |l| ensures l[i].n > v {
        assert l[i] == r[i - 1];
      }
      forall w | u <= w < v ensures w in Numbers(l) {
        if w != l[0].n {
          assert u' <= w && w in Numbers(r);
          var j :| 0 <= j < |r| && r[j].n == w;
          assert l[j + 1].n == w;
        }
      }
    }
  }

  lemma FirstMissingIs(s: set<int>, u: int, v: int)
    requires u <= v && v !in s && forall w :: u <= w < v ==> w in s
    ensures FirstMissing(s, u) == v
  {
    var f := FirstMissing(s, u);
    assert f == v || u <= f < v || u <= v < f;
  }

  // ---- One step of the driver is one step of the ideal buffer ----

  lemma LiftIs(p: seq<Entry>, l: seq<Numbered>, v: int)
    requires |l| == |p| && Within(l, v, v + SEQ_MOD)
    requires forall i :: 0 <= i < |p| ==> l[i].n % SEQ_MOD == p[i].sn && l[i].rxb == p[i].rxb
    ensures Lift(p, v) == l
  {
    forall i | 0 <= i < |p| ensures Lift(p, v)[i] == l[i] {
      var a, b := Lift(p, v)[i].n, l[i].n;
      assert (a - b) % SEQ_MOD == 0 && -SEQ_MOD < a - b < SEQ_MOD;
    }
  }

  lemma ToMapEmpty(l: seq<Numbered>)
    requires Ascending(l)
    ensures ToMap(l) == map[] <==> l == []
  {
    ToMapMeaning(l);
    if l != [] { assert l[0].n in ToMap(l); }
  }

  lemma SplitAt(l: seq<Numbered>, k: nat)
    requires Ascending(l) && k <= |l|
    ensures Ascending(l[..k]) && Ascending(l[k..])
    ensures forall n :: n in Numbers(l) <==> n in Numbers(l[..k]) || n in Numbers(l[k..])
  {
    var a, b := l[..k], l[k..];
    forall n | n in Numbers(l) ensures n in Numbers(a) || n in Numbers(b) {
      var j :| 0 <= j < |l| && l[j].n == n;
      if j < k { assert a[j].n == n; } else { assert b[j - k].n == n; }
    }
    forall n | n in Numbers(a) ensures n in Numbers(l) {
      var j :| 0 <= j < |a| && a[j].n == n;
      assert l[j].n == n;
    }
    forall n | n in Numbers(b) ensures n in Numbers(l) {
      var j :| 0 <= j < |b| && b[j].n == n;
      assert l[k + j].n == n;
    }
  }

  // Where a sorted list is cut by a number v, so is its map.
  lemma CutRest(l: seq<Numbered>, k: nat, v: int)
    requires Ascending(l) && k <= |l|
    requires forall i :: 0 <= i < k ==> l[i].n < v
    requires forall i :: k <= i < |l| ==> l[i].n > v
    ensures (map n | n in ToMap(l) && n >= v :: ToMap(l)[n]) == ToMap(l[k..])
  {
    var rest := l[k..];
    SplitAt(l, k);
    ToMapMeaning(l);
    hide ToMap;
    var left := map n | n in ToMap(l) && n >= v :: ToMap(l)[n];
    assert forall j :: 0 <= j < |rest| ==> rest[j] == l[k + j];
    forall n | n in left ensures n in Numbers(rest) {
      var j :| 0 <= j < |l| && l[j].n == n;
      assert rest[j - k].n == n;
    }
    ToMapIs(rest, left);
  }

  lemma CutDone(l: seq<Numbered>, k: nat, lo: int, v: int)
    requires Ascending(l) && k <= |l|
    requires forall i :: 0 <= i < k ==> lo <= l[i].n < v
    requires forall i :: k <= i < |l| ==> l[i].n > v
    ensures Listing(ToMap(l), lo, v) == l[..k]
  {
    var m, done := ToMap(l), l[..k];
    SplitAt(l, k);
    ToMapMeaning(l);
    assert forall j :: 0 <= j < |done| ==> done[j] == l[j];
    forall n | n in m && lo <= n < v ensures n in Numbers(done) {
      var j :| 0 <= j < |l| && l[j].n == n;
      assert done[j].n == n;
    }
    ListingIs(m, done, lo, v);
  }

  // Completing a sorted buffer splits it where the drain loop stops.
  lemma CompleteOfList(i: Ideal, l: seq<Numbered>, start: int)
    requires Ascending(l)
    requires forall j :: 0 <= j < |l| ==> i.next <= l[j].n
    ensures var k, v := LiftedCount(l, start), LiftedNext(l, start);
      Complete(i, ToMap(l), start) ==
        (Ideal(v, ToMap(l[k..]), k == 0 && (i.armed || l != [])), l[..k])
  {
    var k, v := LiftedCount(l, start), LiftedNext(l, start);
    LiftedStops(l, start);
    ToMapMeaning(l);
    assert v !in Numbers(l);
    FirstMissingIs(ToMap(l).Keys, start, v);
    CutRest(l, k, v);
    CutDone(l, k, i.next, v);
    SplitAt(l, k);
    ToMapEmpty(l[k..]);
    hide ToMap, LiftedCount, LiftedNext, FirstMissing, Listing, Numbers;
  }

  ghost predicate StandsFor(p: seq<Entry>, l: seq<Numbered>) {
    |l| == |p| && forall i :: 0 <= i < |p| ==> l[i].n % SEQ_MOD == p[i].sn && l[i].rxb == p[i].rxb
  }

  // What the queue becomes when the drained list p stands for l.
  lemma IndicateMeaning(q: RxQueue, p: seq<Entry>, free: seq<Entry>, first: seq<Pkt>, u: int, l: seq<Numbered>,
                        start: int)
    requires TimerOk(q) && (q.timer && first == [] ==> p != [])
    requires StandsFor(p, l) && Ascending(l) && u <= start <= u + 2048
    requires Within(l, u, u + 2048) && Within(l, u, start + RX_REORDER_WIN)
    ensures var k, v := LiftedCount(l, start), LiftedNext(l, start);
      var a := Indicate(q, p, free, start % SEQ_MOD, first);
      && Represents(a.queue, v) && Lift(a.queue.pending, v) == l[k..]
      && a.delivered == first + Wrap(l[..k])
      && a.queue.timer == (first == [] && k == 0 && (q.timer || l != []))
  {
    var k, v := LiftedCount(l, start), LiftedNext(l, start);
    DrainIsLifted(p, l, u, start);
    LiftedStops(l, start);
    RestStands(p, l, k, v, start + RX_REORDER_WIN);
    assert Packets(p[..k]) == Wrap(l[..k]);
    hide DrainCount, DrainSeq, LiftedCount, LiftedNext, Lift, Wrap, Packets, Ascending, Within, StandsFor;
  }

  lemma RestStands(p: seq<Entry>, l: seq<Numbered>, k: nat, v: int, hi: int)
    requires StandsFor(p, l) && Ascending(l) && k <= |l|
    requires forall i :: k <= i < |l| ==> v < l[i].n < hi
    requires hi <= v + RX_REORDER_WIN
    ensures Lift(p[k..], v) == l[k..] && Ascending(l[k..]) && Within(l[k..], v + 1, v + RX_REORDER_WIN)
  {
    LiftIs(p[k..], l[k..], v);
  }

  lemma IndicateRefines(q: RxQueue, p: seq<Entry>, free: seq<Entry>, u: int, l: seq<Numbered>, start: int)
    requires TimerOk(q) && (q.timer ==> p != [])
    requires StandsFor(p, l) && Ascending(l) && u <= start <= u + 2048
    requires Within(l, u, u + 2048) && Within(l, u, start + RX_REORDER_WIN)
    ensures var a, r := Indicate(q, p, free, start % SEQ_MOD, []),
      Complete(Ideal(u, ToMap(l), q.timer), ToMap(l), start);
      && Represents(a.queue, r.0.next) && Abs(a.queue, r.0.next) == r.0
      && a.delivered == Wrap(r.1)
  {
    IndicateMeaning(q, p, free, [], u, l, start);
    CompleteOfList(Ideal(u, ToMap(l), q.timer), l, start);
    var w := Wrap(l[..LiftedCount(l, start)]);
    assert [] + w == w;
  }

  lemma InsertAscends(l: seq<Numbered>, j: nat, x: Numbered)
    requires Ascending(l) && j <= |l|
    requires forall i :: 0 <= i < j ==> l[i].n < x.n
    requires forall i :: j <= i < |l| ==> l[i].n > x.n
    ensures Ascending(l[..j] + [x] + l[j..])
  {
    var l' := l[..j] + [x] + l[j..];
    forall a, b | 0 <= a < b < |l'| ensures l'[a].n < l'[b].n {
      var a', b' := if a < j then a else a - 1, if b < j then b else b - 1;
      assert a != j ==> l'[a] == l[a'];
      assert b != j ==> l'[b] == l[b'];
    }
  }

  lemma InsertNumbers(l: seq<Numbered>, j: nat, x: Numbered, n: int)
    requires j <= |l| && n in Numbers(l)
    ensures n in Numbers(l[..j] + [x] + l[j..])
  {
    var i :| 0 <= i < |l| && l[i].n == n;
    assert (l[..j] + [x] + l[j..])[if i < j then i else i + 1] == l[i];
  }

  lemma InsertSorted(l: seq<Numbered>, j: nat, x: Numbered)
    requires Ascending(l) && j <= |l|
    requires forall i :: 0 <= i < j ==> l[i].n < x.n
    requires forall i :: j <= i < |l| ==> l[i].n > x.n
    ensures Ascending(l[..j] + [x] + l[j..]) && x.n !in Numbers(l)
    ensures ToMap(l[..j] + [x] + l[j..]) == ToMap(l)[x.n := x.rxb]
  {
    var l' := l[..j] + [x] + l[j..];
    InsertAscends(l, j, x);
    ToMapMeaning(l);
    var m := ToMap(l)[x.n := x.rxb];
    forall i | 0 <= i < |l'| ensures l'[i].n in m && m[l'[i].n] == l'[i].rxb {
      if i != j { assert l'[i] == l[if i < j then i else i - 1]; }
    }
    forall n | n in m ensures n in Numbers(l') {
      if n == x.n { assert l'[j] == x; } else { InsertNumbers(l, j, x, n); }
    }
    ToMapIs(l', m);
  }

  lemma ConsDrain(l: seq<Numbered>, u: int, rxb: Rxb)
    ensures var l1 := [Numbered(u, rxb)] + l; var k := LiftedCount(l, u + 1);
      && LiftedCount(l1, u) == k + 1 && LiftedNext(l1, u) == LiftedNext(l, u + 1)
      && l1[..k + 1] == [Numbered(u, rxb)] + l[..k] && l1[k + 1..] == l[k..]
      && Wrap(l1[..k + 1]) == [Pkt(u % SEQ_MOD, rxb)] + Wrap(l[..k])
  {
    var l1 := [Numbered(u, rxb)] + l;
    assert l1[1..] == l;
  }

  // The same when the frame numbered u itself is delivered first.
  lemma IndicateFirstRefines(q: RxQueue, free: seq<Entry>, u: int, rxb: Rxb)
    requires Represents(q, u)
    ensures var a := Indicate(q, q.pending, free, (u + 1) % SEQ_MOD, [Pkt(u % SEQ_MOD, rxb)]);
      var r := Complete(Abs(q, u), Abs(q, u).buf[u := rxb], u);
      && Represents(a.queue, r.0.next) && Abs(a.queue, r.0.next) == r.0
      && a.delivered == Wrap(r.1)
  {
    hide LiftedCount, LiftedNext, Indicate, Complete, ToMap, Wrap, Numbers;
    var l := Lift(q.pending, u);
    var l1 := [Numbered(u, rxb)] + l;
    InsertSorted(l, 0, Numbered(u, rxb));
    assert l[..0] + [Numbered(u, rxb)] + l[0..] == l1;
    ConsDrain(l, u, rxb);
    IndicateMeaning(q, q.pending, free, [Pkt(u % SEQ_MOD, rxb)], u, l, u + 1);
    CompleteOfList(Abs(q, u), l1, u);
  }

  lemma {:induction false} PlaceIsSorted(p: seq<Entry>, l: seq<Numbered>, t: int, j: nat)
    requires |l| == |p| && j <= |p| && Ascending(l)
    requires forall i :: 0 <= i < |p| ==> l[i].n % SEQ_MOD == p[i].sn
    requires forall i :: 0 <= i < |p| ==> -2048 <= t - l[i].n < 2048
    ensures var r := Place(p, t % SEQ_MOD, j);
      if r < 0 then t in Numbers(l)
      else (forall i :: 0 <= i < r ==> l[i].n < t) && (forall i :: r <= i < j ==> l[i].n > t)
  {
    if j > 0 {
      SnLessIsLess(t, l[j - 1].n);
      if t < l[j - 1].n {
        PlaceIsSorted(p, l, t, j - 1);
      }
    }
  }

  lemma StandsInsert(p: seq<Entry>, l: seq<Numbered>, j: nat, e: Entry, x: Numbered)
    requires StandsFor(p, l) && j <= |p|
    requires x.n % SEQ_MOD == e.sn && x.rxb == e.rxb
    ensures StandsFor(p[..j] + [e] + p[j..], l[..j] + [x] + l[j..])
  {
  }

  // Buffering a frame is adding it to the map, unless its number is there or the pool is empty.
  lemma BufferRefines(p: seq<Entry>, l: seq<Numbered>, free: seq<Entry>, t: int, rxb: Rxb, lo: int, hi: int)
      returns (l': seq<Numbered>)
    requires StandsFor(p, l) && Ascending(l)
    requires Within(l, lo, hi) && lo <= t < hi <= lo + 2048
    ensures StandsFor(Buffer(p, free, t % SEQ_MOD, rxb).0, l')
    ensures Ascending(l') && Within(l', lo, hi) && |l'| >= |l|
    ensures ToMap(l') == if free != [] && t !in ToMap(l) then ToMap(l)[t := rxb] else ToMap(l)
  {
    l' := l;
    ToMapMeaning(l);
    if free != [] {
      PlaceIsSorted(p, l, t, |p|);
      var j := Place(p, t % SEQ_MOD, |p|);
      if j >= 0 {
        l' := l[..j] + [Numbered(t, rxb)] + l[j..];
        InsertSorted(l, j, Numbered(t, rxb));
        StandsInsert(p, l, j, free[0].(sn := t % SEQ_MOD, rxb := rxb), Numbered(t, rxb));
      }
    }
  }

  lemma WindowStartModulo(t: int)
    ensures WindowStart(t % SEQ_MOD) == (t + 1 - RX_REORDER_WIN) % SEQ_MOD
  {
    ShiftModulo(t, 1 - RX_REORDER_WIN);
  }

  lemma WindowArithmetic(u: int, t: int)
    requires u < t < u + 2048
    ensures !SnLess(t % SEQ_MOD, u % SEQ_MOD) && !SnEqual(t % SEQ_MOD, u % SEQ_MOD)
    ensures SnLess((u % SEQ_MOD + RX_REORDER_WIN - 1) % SEQ_MOD, t % SEQ_MOD) <==> u < t + 1 - RX_REORDER_WIN
    ensures WindowStart(t % SEQ_MOD) == (t + 1 - RX_REORDER_WIN) % SEQ_MOD
  {
    SnLessIsLess(t, u);
    SnLessIsLess(u + RX_REORDER_WIN - 1, t);
    ShiftModulo(u, RX_REORDER_WIN - 1);
    WindowStartModulo(t);
  }

  lemma ArriveAhead(q: RxQueue, u: int, free: seq<Entry>, t: int, rxb: Rxb)
    requires Represents(q, u)
    requires u < t < u + 2048
    ensures var start := if u < t + 1 - RX_REORDER_WIN then t + 1 - RX_REORDER_WIN else u;
      var (p, free') := Buffer(q.pending, free, t % SEQ_MOD, rxb);
      Arrive(q, free, t % SEQ_MOD, rxb) == Indicate(q, p, free', start % SEQ_MOD, [])
  {
    WindowArithmetic(u, t);
  }

  lemma LiftStands(p: seq<Entry>, u: int)
    ensures StandsFor(p, Lift(p, u))
  {
  }

  // What was buffered before plays no part.
  lemma CompleteOf(i: Ideal, buf: map<int, Rxb>, start: int)
    ensures Complete(i, buf, start) == Complete(Ideal(i.next, buf, i.armed), buf, start)
  {
    hide FirstMissing, Listing;
  }

  lemma IdealAhead(i: Ideal, t: int, rxb: Rxb, room: bool)
    requires i.next < t
    ensures var buf := if room && t !in i.buf then i.buf[t := rxb] else i.buf;
      IdealArrive(i, t, rxb, room)
        == Complete(i, buf, if i.next < t + 1 - RX_REORDER_WIN then t + 1 - RX_REORDER_WIN else i.next)
  {
    hide Complete;
  }

  lemma AheadRefines(q: RxQueue, u: int, free: seq<Entry>, t: int, rxb: Rxb)
    requires Represents(q, u)
    requires u < t < u + 2048
    ensures var a := Arrive(q, free, t % SEQ_MOD, rxb);
      var r := IdealArrive(Abs(q, u), t, rxb, free != []);
      && Represents(a.queue, r.0.next) && Abs(a.queue, r.0.next) == r.0
      && a.delivered == Wrap(r.1)
  {
    hide Arrive, Indicate, Buffer, IdealArrive, Complete, ToMap, Lift, Ascending, Wrap, Numbers;
    var p := q.pending;
    ArriveAhead(q, u, free, t, rxb);
    IdealAhead(Abs(q, u), t, rxb, free != []);
    var start := if u < t + 1 - RX_REORDER_WIN then t + 1 - RX_REORDER_WIN else u;
    var hi := if t < u + RX_REORDER_WIN then u + RX_REORDER_WIN else t + 1;
    LiftStands(p, u);
    var l' := BufferRefines(p, Lift(p, u), free, t, rxb, u, hi);
    var (p', free') := Buffer(p, free, t % SEQ_MOD, rxb);
    IndicateRefines(q, p', free', u, l', start);
    CompleteOf(Abs(q, u), ToMap(l'), start);
  }

  // RxReorderIndicatePacket on 12-bit numbers is the ideal buffer on the frame's own
  // number, whenever that number is within half the number space of the window start.
  lemma ArriveRefines(q: RxQueue, u: int, free: seq<Entry>, t: int, rxb: Rxb)
    requires Represents(q, u)
    requires u - 2048 <= t < u + 2048
    ensures var a := Arrive(q, free, t % SEQ_MOD, rxb);
      var r := IdealArrive(Abs(q, u), t, rxb, free != []);
      && Represents(a.queue, r.0.next) && Abs(a.queue, r.0.next) == r.0
      && a.delivered == Wrap(r.1)
  {
    SnLessIsLess(t, u);
    NextModulo(u);
    if t == u {
      IndicateFirstRefines(q, free, u, rxb);
    } else if t > u {
      AheadRefines(q, u, free, t, rxb);
    }
  }

  // RxPktPendingTimeout gives up on the missing numbers before the oldest frame.
  lemma TimeoutRefines(q: RxQueue, u: int, free: seq<Entry>)
    requires Represents(q, u) && q.timer
    ensures var a, r := Timeout(q, free), IdealTimeout(Abs(q, u));
      && Represents(a.queue, r.0.next) && Abs(a.queue, r.0.next) == r.0
      && a.delivered == Wrap(r.1)
  {
    var p := q.pending;
    var l := Lift(p, u);
    ToMapMeaning(l);
    ToMapEmpty(l);
    assert l[0].n in Numbers(l);
    var m := Least(ToMap(l).Keys);
    var j :| 0 <= j < |l| && l[j].n == m;
    assert m == l[0].n;
    IndicateRefines(q, p, free, u, l, m);
  }

  // ---- Whole runs ----

  // A frame carries its own number t; the header shows t modulo 4096. The pool is shared
  // with other streams, so a run leaves open what it holds at each arrival.
  datatype RxEvent = Arrival(t: int, rxb: Rxb, free: seq<Entry>) | Expire

  function Step(q: RxQueue, e: RxEvent): (RxQueue, seq<Pkt>) {
    match e
    case Arrival(t, rxb, free) => var a := Arrive(q, free, t % SEQ_MOD, rxb); (a.queue, a.delivered)
    case Expire => if q.timer then var a := Timeout(q, []); (a.queue, a.delivered) else (q, [])
  }

  ghost function IdealStep(i: Ideal, e: RxEvent): (Ideal, seq<Numbered>) {
    match e
    case Arrival(t, rxb, free) => IdealArrive(i, t, rxb, free != [])
    case Expire => if i.armed then IdealTimeout(i) else (i, [])
  }

  function Run(q: RxQueue, es: seq<RxEvent>): (RxQueue, seq<Pkt>)
    decreases |es|
  {
    if es == [] then (q, [])
    else
      var (q1, out1) := Step(q, es[0]);
      var (q2, out2) := Run(q1, es[1..]);
      (q2, out1 + out2)
  }

  lemma RunCons(q: RxQueue, e: RxEvent, es: seq<RxEvent>)
    ensures var s, r := Step(q, e), Run(Step(q, e).0, es);
      Run(q, [e] + es) == (r.0, s.1 + r.1)
  {
    assert ([e] + es)[1..] == es;
  }

  ghost function IdealRun(i: Ideal, es: seq<RxEvent>): (Ideal, seq<Numbered>)
    decreases |es|
  {
    if es == [] then (i, [])
    else
      var (i1, out1) := IdealStep(i, es[0]);
      var (i2, out2) := IdealRun(i1, es[1..]);
      (i2, out1 + out2)
  }

  // Every arrival is within half the number space of where the window then starts.
  ghost predicate HalfWindow(i: Ideal, es: seq<RxEvent>)
    decreases |es|
  {
    es == [] || ((es[0].Arrival? ==> i.next - 2048 <= es[0].t < i.next + 2048)
                 && HalfWindow(IdealStep(i, es[0]).0, es[1..]))
  }

  // The driver's state and deliveries are those of the ideal buffer, modulo 4096.
  ghost predicate Agree(q: RxQueue, out: seq<Pkt>, i: Ideal, nums: seq<Numbered>) {
    Represents(q, i.next) && Abs(q, i.next) == i && out == Wrap(nums)
  }

  lemma StepRefines(q: RxQueue, u: int, e: RxEvent)
    requires Represents(q, u)
    requires e.Arrival? ==> u - 2048 <= e.t < u + 2048
    ensures var s, r := Step(q, e), IdealStep(Abs(q, u), e); Agree(s.0, s.1, r.0, r.1)
  {
    match e {
      case Arrival(t, rxb, free) => ArriveRefines(q, u, free, t, rxb);
      case Expire => if q.timer { TimeoutRefines(q, u, []); }
    }
  }

  lemma AgreeThen(q: RxQueue, out1: seq<Pkt>, out2: seq<Pkt>, i: Ideal, nums1: seq<Numbered>, nums2: seq<Numbered>)
    requires Agree(q, out2, i, nums2) && out1 == Wrap(nums1)
    ensures Agree(q, out1 + out2, i, nums1 + nums2)
  {
    assert Wrap(nums1 + nums2) == Wrap(nums1) + Wrap(nums2);
  }

  lemma {:induction false} RunRefines(q: RxQueue, u: int, es: seq<RxEvent>)
    requires Represents(q, u) && HalfWindow(Abs(q, u), es)
    ensures var s, r := Run(q, es), IdealRun(Abs(q, u), es); Agree(s.0, s.1, r.0, r.1)
    decreases |es|
  {
    if es != [] {
      StepRefines(q, u, es[0]);
      var s1, r1 := Step(q, es[0]), IdealStep(Abs(q, u), es[0]);
      RunRefines(s1.0, r1.0.next, es[1..]);
      var s2, r2 := Run(s1.0, es[1..]), IdealRun(r1.0, es[1..]);
      AgreeThen(s2.0, s1.1, s2.1, r2.0, r1.1, r2.1);
    }
  }

  ghost predicate IdealInv(i: Ideal) {
    forall n :: n in i.buf ==> n > i.next
  }

  // The frames a run may deliver: what was buffered at its start and what arrives in it.
  ghost predicate Received(es: seq<RxEvent>, x: Numbered) {
    exists k :: 0 <= k < |es| && es[k].Arrival? && es[k].t == x.n && es[k].rxb == x.rxb
  }

  lemma IdealStepOrder(i: Ideal, e: RxEvent)
    requires IdealInv(i)
    ensures var (i', out) := IdealStep(i, e);
      && IdealInv(i') && i.next <= i'.next
      && Ascending(out) && Within(out, i.next, i'.next)
      && (forall k :: 0 <= k < |out| ==>
            (out[k].n in i.buf && i.buf[out[k].n] == out[k].rxb) || (e.Arrival? && out[k] == Numbered(e.t, e.rxb)))
      && (forall n :: n in i'.buf ==>
            (n in i.buf && i'.buf[n] == i.buf[n]) || (e.Arrival? && n == e.t && i'.buf[n] == e.rxb))
  {
    var (i', out) := IdealStep(i, e);
    match e {
      case Arrival(t, rxb, free) =>
        ListingAscends(if t == i.next || (free != [] && t !in i.buf) then i.buf[t := rxb] else i.buf, i.next, i'.next);
      case Expire => ListingAscends(i.buf, i.next, i'.next);
    }
  }

  lemma {:induction false} IdealRunOrder(i: Ideal, es: seq<RxEvent>)
    requires IdealInv(i)
    ensures var (i', out) := IdealRun(i, es);
      && IdealInv(i') && i.next <= i'.next
      && Ascending(out) && Within(out, i.next, i'.next)
      && (forall k :: 0 <= k < |out| ==>
            (out[k].n in i.buf && i.buf[out[k].n] == out[k].rxb) || Received(es, out[k]))
    decreases |es|
  {
    if es != [] {
      IdealStepOrder(i, es[0]);
      var (i1, out1) := IdealStep(i, es[0]);
      IdealRunOrder(i1, es[1..]);
      var (i2, out2) := IdealRun(i1, es[1..]);
      var out := out1 + out2;
      forall k | 0 <= k < |out|
        ensures (out[k].n in i.buf && i.buf[out[k].n] == out[k].rxb) || Received(es, out[k])
      {
        if k < |out1| {
          assert out[k] == out1[k];
          assert es[0].Arrival? && out[k] == Numbered(es[0].t, es[0].rxb) ==> Received(es, out[k]);
        } else {
          var x := out2[k - |out1|];
          assert out[k] == x;
          if Received(es[1..], x) {
            var j :| 0 <= j < |es[1..]| && es[1..][j].Arrival? && es[1..][j].t == x.n && es[1..][j].rxb == x.rxb;
            assert es[1..][j] == es[j + 1];
          }
        }
      }
    }
  }

  // A stream that has just been reset takes the first frame's number as its window start.
  lemma FirstFrame(t: int, rxb: Rxb, free: seq<Entry>)
    ensures Arrive(EMPTY_QUEUE, free, t % SEQ_MOD, rxb)
         == Arrive(EMPTY_QUEUE.(indicateSeq := t % SEQ_MOD), free, t % SEQ_MOD, rxb)
  {
    SnLessIsLess(t, t);
  }

  // In-order delivery over whole runs: from a reset stream, if each arriving frame is
  // within half the number space of the window start, the delivered frames are frames that
  // were received, and their numbers strictly increase: nothing twice, nothing backwards.
  lemma InOrderDelivery(es: seq<RxEvent>)
    requires es != [] && es[0].Arrival? && HalfWindow(Ideal(es[0].t, map[], false), es)
    ensures exists nums: seq<Numbered> ::
      && Run(EMPTY_QUEUE, es).1 == Wrap(nums)
      && Ascending(nums)
      && forall k :: 0 <= k < |nums| ==> Received(es, nums[k])
    ensures QueueInv(Run(EMPTY_QUEUE, es).0)
  {
    var u := es[0].t;
    var q := EMPTY_QUEUE.(indicateSeq := u % SEQ_MOD);
    assert Represents(q, u) && Abs(q, u) == Ideal(u, map[], false);
    FirstFrame(u, es[0].rxb, es[0].free);
    assert Run(q, es) == Run(EMPTY_QUEUE, es);
    RunRefines(q, u, es);
    IdealRunOrder(Abs(q, u), es);
    var nums := IdealRun(Abs(q, u), es).1;
    assert Run(EMPTY_QUEUE, es).1 == Wrap(nums);
    RepresentsQueue(Run(q, es).0, IdealRun(Abs(q, u), es).0.next);
  }

  // ---- What every single step keeps, whatever the numbers are ----

  lemma ArriveKeepsQueue(q: RxQueue, free: seq<Entry>, sn: SeqNum, rxb: Rxb)
    requires QueueInv(q)
    ensures QueueInv(Arrive(q, free, sn, rxb).queue)
  {
    if q.indicateSeq == NO_SEQ {
      FirstFrame(sn, rxb, free);
      var q0 := EMPTY_QUEUE.(indicateSeq := sn);
      ArriveRefines(q0, sn, free, sn, rxb);
      RepresentsQueue(Arrive(q0, free, sn, rxb).queue, IdealArrive(Abs(q0, sn), sn, rxb, free != []).0.next);
    } else {
      var u := q.indicateSeq;
      var t := Nearest(u, sn);
      ArriveRefines(q, u, free, t, rxb);
      RepresentsQueue(Arrive(q, free, sn, rxb).queue, IdealArrive(Abs(q, u), t, rxb, free != []).0.next);
    }
  }

  // The timer runs only while nothing is delivered, and remembers where the window started when it
  // was armed.
  lemma TimerRecords(q: RxQueue, free: seq<Entry>, sn: SeqNum, rxb: Rxb)
    requires QueueInv(q)
    ensures var a := Arrive(q, free, sn, rxb);
      if a.queue.timer
      then a.queue.timeoutSeq == (if q.timer then q.timeoutSeq else a.queue.indicateSeq) && a.delivered == []
      else a.queue.timeoutSeq == 0xffff
  {
    ArriveKeepsQueue(q, free, sn, rxb);
    hide Place, DrainCount, DrainSeq, Packets, Lift, Ascending, Within;
  }

  lemma TimeoutKeepsQueue(q: RxQueue, free: seq<Entry>)
    requires QueueInv(q) && q.timer
    ensures QueueInv(Timeout(q, free).queue)
  {
    var u := q.indicateSeq;
    TimeoutRefines(q, u, free);
    RepresentsQueue(Timeout(q, free).queue, IdealTimeout(Abs(q, u)).0.next);
  }

  // Both entry points only move pool nodes between the two lists.
  function Ids(p: seq<Entry>): (r: seq<nat>)
    ensures |r| == |p|
  {
    seq(|p|, i requires 0 <= i < |p| => p[i].id)
  }

  lemma IdsConcat(a: seq<Entry>, b: seq<Entry>)
    ensures multiset(Ids(a + b)) == multiset(Ids(a)) + multiset(Ids(b))
  {
    assert Ids(a + b) == Ids(a) + Ids(b);
  }

  lemma BufferConserves(p: seq<Entry>, free: seq<Entry>, sn: SeqNum, rxb: Rxb)
    ensures var b := Buffer(p, free, sn, rxb);
      multiset(Ids(b.0)) + multiset(Ids(b.1)) == multiset(Ids(p)) + multiset(Ids(free))
  {
    if free != [] {
      var e := free[0].(sn := sn, rxb := rxb);
      var rest := free[1..];
      assert free == [free[0]] + rest;
      IdsConcat([free[0]], rest);
      IdsConcat(rest, [e]);
      assert Ids([e]) == Ids([free[0]]) == [e.id];
      var j := Place(p, sn, |p|);
      if j >= 0 {
        assert p == p[..j] + p[j..];
        IdsConcat(p[..j], p[j..]);
        IdsConcat(p[..j], [e]);
        IdsConcat(p[..j] + [e], p[j..]);
      }
    }
  }

  lemma IndicateConserves(q: RxQueue, p: seq<Entry>, free: seq<Entry>, ind: nat, first: seq<Pkt>)
    ensures var a := Indicate(q, p, free, ind, first);
      multiset(Ids(a.queue.pending)) + multiset(Ids(a.free)) == multiset(Ids(p)) + multiset(Ids(free))
  {
    var k := DrainCount(p, ind);
    IdsConcat(p[..k], p[k..]);
    assert p == p[..k] + p[k..];
    IdsConcat(free, p[..k]);
  }

  lemma ArriveConserves(q: RxQueue, free: seq<Entry>, sn: SeqNum, rxb: Rxb)
    ensures var a := Arrive(q, free, sn, rxb);
      multiset(Ids(a.queue.pending)) + multiset(Ids(a.free)) == multiset(Ids(q.pending)) + multiset(Ids(free))
  {
    var winEnd := (q.indicateSeq + RX_REORDER_WIN - 1) % SEQ_MOD;
    var start := if q.indicateSeq == NO_SEQ then sn else q.indicateSeq;
    if SnLess(sn, start) {
    } else if SnEqual(sn, start) {
      IndicateConserves(q, q.pending, free, (start + 1) % SEQ_MOD, [Pkt(sn, rxb)]);
    } else {
      var ind := if SnLess(winEnd, sn) then WindowStart(sn) else start;
      var (p, free') := Buffer(q.pending, free, sn, rxb);
      BufferConserves(q.pending, free, sn, rxb);
      IndicateConserves(q, p, free', ind, []);
    }
  }

  lemma TimeoutConserves(q: RxQueue, free: seq<Entry>)
    ensures var a := Timeout(q, free);
      multiset(Ids(a.queue.pending)) + multiset(Ids(a.free)) == multiset(Ids(q.pending)) + multiset(Ids(free))
  {
    if q.timeoutSeq != NO_SEQ && q.pending != [] {
      IndicateConserves(q, q.pending, free, q.pending[0].sn, []);
    }
  }

  // ---- One timeout ----

  lemma {:induction false} DrainRun(p: seq<Entry>, l: seq<Numbered>, u: int)
    requires StandsFor(p, l) && Ascending(l) && (l != [] ==> l[0].n >= u)
    ensures var k := LiftedCount(l, u);
      && LiftedNext(l, u) == u + k
      && (forall i :: 0 <= i < k ==> l[i].n == u + i)
      && (k < |l| ==> l[k].n > u + k)
    decreases |l|
  {
    if l != [] && l[0].n == u {
      var r := l[1..];
      assert forall i :: 0 <= i < |r| ==> r[i] == l[i + 1];
      assert l[1..] != [] ==> l[0].n < l[1].n;
      DrainRun(p[1..], r, u + 1);
      var k := LiftedCount(l, u);
      forall i | 0 <= i < k ensures l[i].n == u + i {
        if i > 0 { assert l[i] == r[i - 1]; }
      }
    }
  }

  lemma {:induction false} OldestRun(p: seq<Entry>, u: int)
    requires p != [] && Ascending(Lift(p, u)) && Within(Lift(p, u), u + 1, u + RX_REORDER_WIN)
    ensures var k := DrainCount(p, p[0].sn);
      && 1 <= k
      && (forall i :: 0 <= i < k ==> p[i].sn == (p[0].sn + i) % SEQ_MOD)
      && (k < |p| ==> p[k].sn != (p[0].sn + k) % SEQ_MOD)
      && DrainSeq(p, p[0].sn) == (p[k - 1].sn + 1) % SEQ_MOD
  {
    var l := Lift(p, u);
    var m := l[0].n;
    DrainIsLifted(p, l, u, m);
    DrainRun(p, l, m);
    var k := DrainCount(p, p[0].sn);
    NextModulo(m + k - 1);
    forall i | 0 <= i < k ensures p[i].sn == (p[0].sn + i) % SEQ_MOD {
      ShiftModulo(m, i);
      assert l[i].n == m + i;
    }
    if k < |p| {
      ShiftModulo(m, k);
      DifferModulo(l[k].n, m + k);
    }
  }

  // A timeout delivers exactly the maximal run of consecutive numbers at the oldest end,
  // keeps the rest in order, returns the delivered nodes to the pool, and leaves no timeout
  // number and no armed timer.
  lemma TimeoutDeliversOldestRun(q: RxQueue, free: seq<Entry>)
    requires QueueInv(q) && q.timer
    ensures var a, k := Timeout(q, free), |Timeout(q, free).delivered|;
      && 1 <= k <= |q.pending|
      && a.delivered == Packets(q.pending[..k])
      && (forall i :: 0 <= i < k ==> q.pending[i].sn == (q.pending[0].sn + i) % SEQ_MOD)
      && (k < |q.pending| ==> q.pending[k].sn != (q.pending[0].sn + k) % SEQ_MOD)
      && a.free == free + q.pending[..k]
      && a.queue == RxQueue((q.pending[k - 1].sn + 1) % SEQ_MOD, NO_SEQ, q.pending[k..], false)
  {
    var p := q.pending;
    OldestRun(p, q.indicateSeq);
    var k := DrainCount(p, p[0].sn);
    assert [] + Packets(p[..k]) == Packets(p[..k]);
  }
}
