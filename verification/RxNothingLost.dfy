/**
 No frame is lost between the arrival and the stack: what the reorder buffer of a stream accepts is
 delivered or still buffered when a run ends.
 */
module RxNothingLost {
  import opened SequenceNumbers
  import opened RxReorder

  ghost predicate Kept(x: Numbered, i: Ideal, out: seq<Numbered>) {
    (x.n in i.buf && i.buf[x.n] == x.rxb) || x in out
  }

  // The frame e is not stale, not there yet, and there is room for it, or it starts the window.
  ghost predicate Accepts(i: Ideal, e: RxEvent) {
    e.Arrival? && (e.t == i.next || (e.t > i.next && e.free != [] && e.t !in i.buf))
  }

  lemma {:induction false} ListingHas(buf: map<int, Rxb>, lo: int, hi: int, n: int)
    requires n in buf && lo <= n < hi
    ensures Numbered(n, buf[n]) in Listing(buf, lo, hi)
    decreases hi - lo
  {
    if n > lo {
      ListingHas(buf, lo + 1, hi, n);
    }
  }

  lemma CompleteKeeps(i: Ideal, buf: map<int, Rxb>, start: int, x: Numbered)
    requires x.n in buf && buf[x.n] == x.rxb && x.n >= i.next
    ensures var r := Complete(i, buf, start); Kept(x, r.0, r.1)
  {
    var v := FirstMissing(buf.Keys, start);
    if x.n < v {
      ListingHas(buf, i.next, v, x.n);
    }
  }

  lemma StepKeeps(i: Ideal, e: RxEvent, x: Numbered)
    requires IdealInv(i)
    requires Kept(x, i, []) || (Accepts(i, e) && x == Numbered(e.t, e.rxb))
    ensures var r := IdealStep(i, e); Kept(x, r.0, r.1)
  {
    hide Complete;
    match e {
      case Arrival(t, rxb, free) =>
        if t >= i.next {
          var buf := if t == i.next || (free != [] && t !in i.buf) then i.buf[t := rxb] else i.buf;
          CompleteKeeps(i, buf, if i.next < t - 63 then t - 63 else i.next, x);
        }
      case Expire =>
        if i.armed && i.buf != map[] {
          CompleteKeeps(i, i.buf, Least(i.buf.Keys), x);
        }
    }
  }

  lemma {:induction false} BufferedStays(i: Ideal, es: seq<RxEvent>, x: Numbered)
    requires IdealInv(i) && Kept(x, i, [])
    ensures var r := IdealRun(i, es); Kept(x, r.0, r.1)
    decreases |es|
  {
    if es != [] {
      StepKeeps(i, es[0], x);
      IdealStepOrder(i, es[0]);
      var (i1, out1) := IdealStep(i, es[0]);
      hide IdealStep, IdealInv;
      if Kept(x, i1, []) {
        BufferedStays(i1, es[1..], x);
      }
    }
  }

  // What is accepted at any point of a run is delivered in it or still buffered at its end.
  lemma {:induction false} AcceptedStays(i: Ideal, es: seq<RxEvent>, k: nat)
    requires IdealInv(i) && k < |es| && Accepts(IdealRun(i, es[..k]).0, es[k])
    ensures var r := IdealRun(i, es); Kept(Numbered(es[k].t, es[k].rxb), r.0, r.1)
    decreases |es|
  {
    var x := Numbered(es[k].t, es[k].rxb);
    var (i1, out1) := IdealStep(i, es[0]);
    IdealStepOrder(i, es[0]);
    if k == 0 {
      assert es[..0] == [];
      StepKeeps(i, es[0], x);
      hide IdealStep, IdealInv;
      if Kept(x, i1, []) {
        BufferedStays(i1, es[1..], x);
      }
    } else {
      assert es[..k][0] == es[0] && es[..k][1..] == es[1..][..k - 1] && es[1..][k - 1] == es[k];
      hide IdealStep, IdealInv;
      AcceptedStays(i1, es[1..], k - 1);
    }
  }

  // The driver loses nothing: whatever its buffer accepts, at any point of a run from a reset stream,
  // it has delivered, or has buffered, when the run ends. `i` is the ideal buffer at that point.
  lemma NothingLost(es: seq<RxEvent>, k: nat)
    requires k < |es| && es[0].Arrival? && HalfWindow(Ideal(es[0].t, map[], false), es)
    requires Accepts(IdealRun(Ideal(es[0].t, map[], false), es[..k]).0, es[k])
    ensures var s := Run(EMPTY_QUEUE, es);
      || Pkt(es[k].t % SEQ_MOD, es[k].rxb) in s.1
      || exists e :: e in s.0.pending && e.sn == es[k].t % SEQ_MOD && e.rxb == es[k].rxb
  {
    var u := es[0].t;
    var q := EMPTY_QUEUE.(indicateSeq := u % SEQ_MOD);
    assert Represents(q, u) && Abs(q, u) == Ideal(u, map[], false);
    FirstFrame(u, es[0].rxb, es[0].free);
    assert Run(q, es) == Run(EMPTY_QUEUE, es);
    RunRefines(q, u, es);
    AcceptedStays(Abs(q, u), es, k);
    var s, r, x := Run(EMPTY_QUEUE, es), IdealRun(Abs(q, u), es), Numbered(es[k].t, es[k].rxb);
    hide Run, IdealRun, HalfWindow, Abs;
    if x in r.1 {
      var j :| 0 <= j < |r.1| && r.1[j] == x;
      assert s.1[j] == Pkt(x.n % SEQ_MOD, x.rxb);
    } else {
      BufferedEntry(s.0, r.0.next, x);
    }
  }

  lemma BufferedEntry(q: RxQueue, u: int, x: Numbered)
    requires Represents(q, u) && x.n in Abs(q, u).buf && Abs(q, u).buf[x.n] == x.rxb
    ensures exists e :: e in q.pending && e.sn == x.n % SEQ_MOD && e.rxb == x.rxb
  {
    var l := Lift(q.pending, u);
    ToMapMeaning(l);
    var i :| 0 <= i < |l| && l[i].n == x.n;
    assert q.pending[i] in q.pending;
  }
}
