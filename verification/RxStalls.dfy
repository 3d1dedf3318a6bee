/**
 When buffered frames of a stream are left with no timer running: until another frame arrives
 nothing will deliver them.
 */
module RxStalls {
  import opened SequenceNumbers
  import opened RxReorder

  // Known before the frame numbered sn is taken: frames stay buffered behind it, and no timer.
  // A stale frame changes nothing. The frame that starts the window is delivered, which stops
  // the timer; nothing stays behind only if the buffered frames are the numbers right after it.
  // A frame beyond the window moves it; if that makes the oldest buffered frame due, frames stay
  // behind unless the whole window was buffered and the frame is the next number after it.
  predicate Strands(q: RxQueue, free: seq<Entry>, sn: SeqNum) {
    var u, n := q.indicateSeq, |q.pending|;
    && u != NO_SEQ && n > 0
    && (SnLess(sn, u) ==> !q.timer)
    && (!SnLess(sn, u) && sn == u ==> q.pending[n - 1].sn != (u + n) % SEQ_MOD)
    && (!SnLess(sn, u) && sn != u ==> StrandsAhead(q, free, sn))
  }

  predicate StrandsAhead(q: RxQueue, free: seq<Entry>, sn: SeqNum)
    requires q.pending != []
  {
    var u, n := q.indicateSeq, |q.pending|;
    && SnLess((u + RX_REORDER_WIN - 1) % SEQ_MOD, sn) && Due(q.pending[0], WindowStart(sn))
    && (free == [] ==> DrainCount(q.pending, WindowStart(sn)) < n)
    && (free != [] ==> n < RX_REORDER_WIN - 1 || sn != (u + RX_REORDER_WIN) % SEQ_MOD)
  }

  ghost predicate Stranded(q: RxQueue) {
    q.pending != [] && !q.timer
  }

  // ---- Sorted lists of numbers ----

  lemma {:induction false} Spread(l: seq<Numbered>, i: nat, j: nat)
    requires Ascending(l) && i <= j < |l|
    ensures l[j].n >= l[i].n + (j - i)
    decreases j - i
  {
    if i < j {
      Spread(l, i, j - 1);
      assert l[j - 1].n < l[j].n;
    }
  }

  // A list that holds every number from a up to b is at least that long.
  lemma {:induction false} Covering(l: seq<Numbered>, a: int, b: int)
    requires Ascending(l) && a <= b && forall w :: a <= w < b ==> w in Numbers(l)
    ensures |l| >= b - a
    decreases b - a
  {
    if a < b {
      assert b - 1 in Numbers(l);
      var j :| 0 <= j < |l| && l[j].n == b - 1;
      var front := l[..j];
      forall w | a <= w < b - 1 ensures w in Numbers(front) {
        assert w in Numbers(l);
        var k :| 0 <= k < |l| && l[k].n == w;
        assert k < j;
        assert front[k].n == w;
      }
      Covering(front, a, b - 1);
    }
  }

  // The numbers right after u are all there, and no others, exactly if the last is u + |l|.
  lemma RunToEnd(p: seq<Entry>, l: seq<Numbered>, u: int)
    requires StandsFor(p, l) && l != [] && Ascending(l) && l[0].n > u
    ensures LiftedCount(l, u + 1) == |l| <==> l[|l| - 1].n == u + |l|
  {
    DrainRun(p, l, u + 1);
    var k, m := LiftedCount(l, u + 1), |l| - 1;
    if k < |l| {
      Spread(l, k, m);
    }
  }

  // ---- The frame that starts the window ----

  lemma MatchStrands(q: RxQueue, free: seq<Entry>, sn: SeqNum)
    requires QueueInv(q) && q.indicateSeq == sn && q.pending != []
    ensures DrainCount(q.pending, (sn + 1) % SEQ_MOD) < |q.pending|
       <==> q.pending[|q.pending| - 1].sn != (sn + |q.pending|) % SEQ_MOD
  {
    var p, u: int := q.pending, sn;
    var l := Lift(p, u);
    PendingFits(q);
    DrainIsLifted(p, l, u, u + 1);
    RunToEnd(p, l, u);
    var m := |l| - 1;
    Spread(l, 0, m);
    SameResidue(l[m].n, u + |l|);
  }

  lemma SameResidue(a: int, b: int)
    requires -SEQ_MOD < a - b < SEQ_MOD
    ensures a % SEQ_MOD == b % SEQ_MOD <==> a == b
  {
  }

  // ---- A frame beyond the window ----

  lemma LandsLast(p: seq<Entry>, l: seq<Numbered>, t: int)
    requires StandsFor(p, l) && Ascending(l)
    requires forall i :: 0 <= i < |l| ==> l[i].n < t < l[i].n + 2048
    ensures Place(p, t % SEQ_MOD, |p|) == |p|
  {
    if p != [] {
      SnLessIsLess(t, l[|l| - 1].n);
    }
  }

  // With t appended, everything is delivered only if the numbers are u + 1 to u + 64.
  lemma AllDelivered(l: seq<Numbered>, u: int, t: int, x: Rxb)
    requires Ascending(l) && Within(l, u + 1, u + RX_REORDER_WIN) && t >= u + RX_REORDER_WIN
    ensures var l', start := l + [Numbered(t, x)], t + 1 - RX_REORDER_WIN;
      Ascending(l') && (LiftedCount(l', start) == |l'| <==> |l| == RX_REORDER_WIN - 1 && t == u + RX_REORDER_WIN)
  {
    var l', start := l + [Numbered(t, x)], t + 1 - RX_REORDER_WIN;
    AscendingFits(l, u + 1, u + RX_REORDER_WIN);
    LiftedStops(l', start);
    if LiftedCount(l', start) == |l'| {
      var v := LiftedNext(l', start);
      assert l'[|l|].n == t < v;
      Covering(l', start, t + 1);
      FullWindow(l, u);
      WholeRange(l, u, t, x);
    }
    if |l| == RX_REORDER_WIN - 1 && t == u + RX_REORDER_WIN {
      FullWindow(l, u);
      NoneAhead(l', u + 1);
    }
  }

  lemma {:induction false} NoneAhead(l: seq<Numbered>, u: int)
    requires forall i :: 0 <= i < |l| ==> l[i].n == u + i
    ensures LiftedCount(l, u) == |l|
    decreases |l|
  {
    if l != [] {
      assert forall i :: 0 <= i < |l[1..]| ==> l[1..][i] == l[i + 1];
      NoneAhead(l[1..], u + 1);
    }
  }

  lemma FullWindow(l: seq<Numbered>, u: int)
    requires Ascending(l) && Within(l, u + 1, u + RX_REORDER_WIN)
    ensures |l| == RX_REORDER_WIN - 1 ==> forall i :: 0 <= i < |l| ==> l[i].n == u + 1 + i
  {
    if |l| == RX_REORDER_WIN - 1 {
      forall i | 0 <= i < |l| ensures l[i].n == u + 1 + i {
        Spread(l, 0, i);
        Spread(l, i, |l| - 1);
      }
    }
  }

  lemma WholeRange(l: seq<Numbered>, u: int, t: int, x: Rxb)
    requires Ascending(l) && |l| == RX_REORDER_WIN - 1 && forall i :: 0 <= i < |l| ==> l[i].n == u + 1 + i
    requires t >= u + RX_REORDER_WIN && t + 1 - RX_REORDER_WIN in Numbers(l + [Numbered(t, x)])
    requires forall w :: t + 1 - RX_REORDER_WIN <= w < t + 1 ==> w in Numbers(l + [Numbered(t, x)])
    ensures t == u + RX_REORDER_WIN
  {
    var l' := l + [Numbered(t, x)];
    var w := u + RX_REORDER_WIN;
    var i :| 0 <= i < |l'| && l'[i].n == t + 1 - RX_REORDER_WIN;
    assert i < |l|;
    forall j | 0 <= j < |l'| && l'[j].n == w ensures t == w {
      assert j == |l|;
    }
    assert w in Numbers(l');
  }

  lemma BufferedLast(p: seq<Entry>, l: seq<Numbered>, free: seq<Entry>, t: int, x: Rxb)
    requires StandsFor(p, l) && Ascending(l) && free != []
    requires forall i :: 0 <= i < |l| ==> l[i].n < t < l[i].n + 2048
    ensures Buffer(p, free, t % SEQ_MOD, x).0 == p + [free[0].(sn := t % SEQ_MOD, rxb := x)]
  {
    LandsLast(p, l, t);
    hide Place, StandsFor, Ascending;
  }

  lemma BeyondDrain(p: seq<Entry>, l: seq<Numbered>, e: Entry, u: int, t: int)
    requires StandsFor(p, l) && Ascending(l) && Within(l, u + 1, u + RX_REORDER_WIN)
    requires u + RX_REORDER_WIN <= t < u + 2048 && e.sn == t % SEQ_MOD
    ensures var ind := (t + 1 - RX_REORDER_WIN) % SEQ_MOD;
      && (DrainCount(p + [e], ind) == |p| + 1 <==> |p| == RX_REORDER_WIN - 1 && t == u + RX_REORDER_WIN)
      && (Due((p + [e])[0], ind) <==> p != [] && Due(p[0], ind))
  {
    var start := t + 1 - RX_REORDER_WIN;
    var p', l' := p + [e], l + [Numbered(t, e.rxb)];
    AllDelivered(l, u, t, e.rxb);
    assert StandsFor(p', l');
    hide Ascending, LiftedCount, DrainCount, Due;
    DrainIsLifted(p', l', u, start);
    FirstDue(p', l', start);
    if p != [] {
      FirstDue(p, l, start);
    }
  }

  lemma BeyondStrands(q: RxQueue, u: int, free: seq<Entry>, t: int, x: Rxb)
    requires Represents(q, u) && QueueInv(q) && u + RX_REORDER_WIN <= t < u + 2048
    ensures Stranded(Arrive(q, free, t % SEQ_MOD, x).queue) <==>
      && q.pending != [] && Due(q.pending[0], WindowStart(t % SEQ_MOD))
      && (if free == [] then DrainCount(q.pending, WindowStart(t % SEQ_MOD)) < |q.pending|
          else |q.pending| < RX_REORDER_WIN - 1 || t != u + RX_REORDER_WIN)
  {
    var p, start := q.pending, t + 1 - RX_REORDER_WIN;
    ArriveAhead(q, u, free, t, x);
    WindowStartModulo(t);
    PendingFits(q);
    if free != [] {
      BufferedLast(p, Lift(p, u), free, t, x);
      BeyondDrain(p, Lift(p, u), free[0].(sn := t % SEQ_MOD, rxb := x), u, t);
    }
    hide DrainCount, Due, Lift, Indicate, WindowStart, Arrive, QueueInv;
    var (p', free') := Buffer(p, free, t % SEQ_MOD, x);
    IndicateStrands(q, p', free', start % SEQ_MOD);
  }

  lemma FirstDue(p: seq<Entry>, l: seq<Numbered>, u: int)
    requires StandsFor(p, l) && p != [] && -2048 <= l[0].n - u < 2048
    ensures Due(p[0], u % SEQ_MOD) <==> l[0].n <= u
  {
    SnLessIsLess(l[0].n, u);
  }

  // Indication without a frame of its own strands exactly if it delivers some frames and not all.
  lemma IndicateStrands(q: RxQueue, p: seq<Entry>, free: seq<Entry>, ind: nat)
    requires TimerOk(q) && (q.timer ==> p != [])
    ensures Stranded(Indicate(q, p, free, ind, []).queue) <==> p != [] && Due(p[0], ind) && DrainCount(p, ind) < |p|
  {
  }

  // ---- Every arrival ----

  // Exactly then: whatever frame arrives, and whatever the state, an arrival leaves frames
  // buffered with no timer running.
  lemma StallExactly(q: RxQueue, free: seq<Entry>, sn: SeqNum, x: Rxb)
    requires QueueInv(q)
    ensures Stranded(Arrive(q, free, sn, x).queue) <==> Strands(q, free, sn)
  {
    var u := q.indicateSeq;
    if u == NO_SEQ {
      FirstFrame(sn, x, free);
      SnLessIsLess(sn, sn);
    } else {
      var t := Nearest(u, sn);
      SnLessIsLess(t, u);
      if sn == u {
        if q.pending != [] {
          MatchStrands(q, free, sn);
        }
      } else if t > u {
        AheadStrands(q, free, t, x);
      }
    }
  }

  lemma AheadStrands(q: RxQueue, free: seq<Entry>, t: int, x: Rxb)
    requires QueueInv(q) && q.indicateSeq != NO_SEQ && q.indicateSeq < t < q.indicateSeq + 2048
    ensures Stranded(Arrive(q, free, t % SEQ_MOD, x).queue) <==> Strands(q, free, t % SEQ_MOD)
  {
    var u := q.indicateSeq;
    WindowArithmetic(u, t);
    SameResidue(t, u + RX_REORDER_WIN);
    SameResidue(t, u);
    if t >= u + RX_REORDER_WIN {
      BeyondStrands(q, u, free, t, x);
    } else {
      WithinStays(q, u, free, t, x);
    }
  }

  // Inside the window nothing becomes due, and the timer runs while anything is buffered.
  lemma WithinStays(q: RxQueue, u: int, free: seq<Entry>, t: int, x: Rxb)
    requires Represents(q, u) && u < t < u + RX_REORDER_WIN
    ensures !Stranded(Arrive(q, free, t % SEQ_MOD, x).queue)
  {
    var p := q.pending;
    ArriveAhead(q, u, free, t, x);
    var (p', free') := Buffer(p, free, t % SEQ_MOD, x);
    var l' := BufferRefines(p, Lift(p, u), free, t, x, u + 1, u + RX_REORDER_WIN);
    IndicateStrands(q, p', free', u % SEQ_MOD);
    if p' != [] {
      FirstDue(p', l', u);
    }
  }

  // ---- A run that does it ----

  lemma IndicateNone(q: RxQueue, p: seq<Entry>, free: seq<Entry>, ind: nat, first: seq<Pkt>)
    requires p == [] || !Due(p[0], ind)
    ensures Indicate(q, p, free, ind, first) == Outcome(
      if first != [] then RxQueue(ind, NO_SEQ, p, false)
      else if p != [] && q.timeoutSeq == NO_SEQ then RxQueue(ind, ind, p, true)
      else RxQueue(ind, q.timeoutSeq, p, q.timer), free, first)
  {
    assert DrainCount(p, ind) == 0 && p[..0] == [] && p[0..] == p;
    assert first + Packets([]) == first && free + [] == free;
  }

  lemma BufferFirst(e: Entry, rest: seq<Entry>, sn: SeqNum, x: Rxb)
    ensures Buffer([], [e] + rest, sn, x) == ([e.(sn := sn, rxb := x)], rest)
  {
    var p: seq<Entry> := [];
    assert p[..0] + [e.(sn := sn, rxb := x)] + p[0..] == [e.(sn := sn, rxb := x)];
    assert ([e] + rest)[1..] == rest;
  }

  lemma BufferLast(a: Entry, e: Entry, rest: seq<Entry>, sn: SeqNum, x: Rxb)
    requires !SnLess(sn, a.sn) && !SnEqual(sn, a.sn)
    ensures Buffer([a], [e] + rest, sn, x) == ([a, e.(sn := sn, rxb := x)], rest)
  {
    var p := [a];
    assert Place(p, sn, 1) == 1;
    assert p[..1] + [e.(sn := sn, rxb := x)] + p[1..] == [a, e.(sn := sn, rxb := x)];
    assert ([e] + rest)[1..] == rest;
  }

  // Frames 0, 2, 4 and then 1: frames 1 and 2 are delivered, 4 stays with no timer.
  lemma StallHappens(x: Rxb, e: Entry, f: Entry)
    ensures var es := [Arrival(0, x, [e, f]), Arrival(2, x, [e, f]), Arrival(4, x, [f]), Arrival(1, x, [])];
      var (q, out) := Run(EMPTY_QUEUE, es);
      && out == [Pkt(0, x), Pkt(1, x), Pkt(2, x)]
      && q.pending == [f.(sn := 4, rxb := x)] && !q.timer
  {
    StallStart(x, e, f);
    StallBuffers(x, e, f);
    var e2, f4 := e.(sn := 2, rxb := x), f.(sn := 4, rxb := x);
    StallDelivers(x, e2, f4);
    var q1, q2, q3 := RxQueue(1, NO_SEQ, [], false), RxQueue(1, 1, [e2], true), RxQueue(1, 1, [e2, f4], true);
    var e0, e1, e3, e4 := Arrival(0, x, [e, f]), Arrival(2, x, [e, f]), Arrival(4, x, [f]), Arrival(1, x, []);
    RunCons(q3, e4, []);
    RunCons(q2, e3, [e4]);
    RunCons(q1, e1, [e3, e4]);
    RunCons(EMPTY_QUEUE, e0, [e1, e3, e4]);
    assert [e4] + [] == [e4] && [e3] + [e4] == [e3, e4] && [e1] + [e3, e4] == [e1, e3, e4];
    assert [e0] + [e1, e3, e4] == [e0, e1, e3, e4];
  }

  lemma StallStart(x: Rxb, e: Entry, f: Entry)
    ensures Step(EMPTY_QUEUE, Arrival(0, x, [e, f])) == (RxQueue(1, NO_SEQ, [], false), [Pkt(0, x)])
  {
    IndicateNone(EMPTY_QUEUE, [], [e, f], 1, [Pkt(0, x)]);
  }

  lemma StallBuffers(x: Rxb, e: Entry, f: Entry)
    ensures var e2, f4 := e.(sn := 2, rxb := x), f.(sn := 4, rxb := x);
      var q1, q2, q3 := RxQueue(1, NO_SEQ, [], false), RxQueue(1, 1, [e2], true), RxQueue(1, 1, [e2, f4], true);
      Step(q1, Arrival(2, x, [e, f])) == (q2, []) && Step(q2, Arrival(4, x, [f])) == (q3, [])
  {
    var e2, f4 := e.(sn := 2, rxb := x), f.(sn := 4, rxb := x);
    BufferFirst(e, [f], 2, x);
    assert [e] + [f] == [e, f];
    IndicateNone(RxQueue(1, NO_SEQ, [], false), [e2], [f], 1, []);
    BufferLast(e2, f, [], 4, x);
    assert [f] + [] == [f];
    IndicateNone(RxQueue(1, 1, [e2], true), [e2, f4], [], 1, []);
  }

  lemma StallDelivers(x: Rxb, e2: Entry, f4: Entry)
    requires e2.sn == 2 && e2.rxb == x && f4.sn == 4
    ensures Step(RxQueue(1, 1, [e2, f4], true), Arrival(1, x, []))
         == (RxQueue(3, NO_SEQ, [f4], false), [Pkt(1, x), Pkt(2, x)])
  {
    var p, q := [e2, f4], RxQueue(1, 1, [e2, f4], true);
    assert p[1..] == [f4] && p[..1] == [e2];
    assert !Due(f4, 3);
    assert DrainCount([f4], 3) == 0 && DrainSeq([f4], 3) == 3;
    assert Due(e2, 2) && Passed(e2, 2) == 3;
    assert DrainCount(p, 2) == 1 && DrainSeq(p, 2) == 3;
    assert Packets(p[..1]) == [Pkt(2, x)];
    assert [Pkt(1, x)] + [Pkt(2, x)] == [Pkt(1, x), Pkt(2, x)];
    assert Indicate(q, p, [], 2, [Pkt(1, x)]) ==
      Outcome(RxQueue(3, NO_SEQ, [f4], false), [] + [e2], [Pkt(1, x), Pkt(2, x)]);
    assert !SnLess(1, 1);
  }
}
