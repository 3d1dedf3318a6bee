/**
 The doubly linked lists of the receive stream records, link by link. TSInitialize also puts
 record 0 on the unused list once for every transmit record, before the records are linked.
 Here is what that does to the list, beside what it is without it.
 */
module ListNodes {

  const RECORDS := 16
  const UNUSED := 0
  const ADMIT := 1
  const NODES := 18

  // The node of record i.
  function Rec(i: nat): nat {
    i + 2
  }

  // ---- The links as values ----

  datatype Links = Links(next: seq<nat>, prev: seq<nat>)

  ghost predicate Closed(l: Links) {
    && |l.next| == NODES && |l.prev| == NODES
    && forall n :: 0 <= n < NODES ==> l.next[n] < NODES && l.prev[n] < NODES
  }

  function InitHead(l: Links, n: nat): Links
    requires Closed(l) && n < NODES
  {
    Links(l.next[n := n], l.prev[n := n])
  }

  // list_add_tail.
  function AddTail(l: Links, x: nat, head: nat): (r: Links)
    requires Closed(l) && x < NODES && head < NODES
    ensures Closed(r)
  {
    var p := l.prev[head];
    Links(l.next[x := head][p := x], l.prev[head := x][x := p])
  }

  // list_del_init.
  function DelInit(l: Links, x: nat): (r: Links)
    requires Closed(l) && x < NODES
    ensures Closed(r)
  {
    var p, n := l.prev[x], l.next[x];
    Links(l.next[p := n][x := x], l.prev[n := p][x := x])
  }

  // The list moves of GetTs: the first unused record goes to the end of the admit list.
  function Take(l: Links): (r: Links)
    requires Closed(l)
    ensures Closed(r)
  {
    var x := l.next[UNUSED];
    AddTail(DelInit(l, x), x, ADMIT)
  }

  // Those of RemovePeerTS for one record.
  function Release(l: Links, x: nat): (r: Links)
    requires Closed(l) && x < NODES
    ensures Closed(r)
  {
    AddTail(DelInit(l, x), x, UNUSED)
  }

  ghost predicate Empty(l: Links, head: nat)
    requires Closed(l) && head < NODES
  {
    l.next[head] == head && l.prev[head] == head
  }

  // The nodes of records first to last - 1 are chained one after the other.
  ghost predicate Chained(l: Links, first: nat, last: nat)
    requires Closed(l) && first <= last <= RECORDS
  {
    && (forall i :: first <= i < last - 1 ==> l.next[Rec(i)] == Rec(i + 1))
    && (forall i :: first < i < last ==> l.prev[Rec(i)] == Rec(i - 1))
  }

  // ---- Initialisation ----

  // Records 0 to count - 1 have been linked; `slip` says whether the loop before was as written.
  ghost predicate Linked(l: Links, slip: bool, count: nat)
    requires Closed(l) && count <= RECORDS
  {
    && Empty(l, ADMIT) && Chained(l, 0, count)
    && (if count == 0 then (if slip then l.next[UNUSED] == Rec(0) && l.prev[UNUSED] == Rec(0) else Empty(l, UNUSED))
        else (l.next[UNUSED] == Rec(0) && l.prev[UNUSED] == Rec(count - 1)
              && l.prev[Rec(0)] == if slip then Rec(0) else UNUSED))
    && (count > 1 || (count == 1 && !slip) ==> l.next[Rec(count - 1)] == UNUSED)
  }

  lemma LinkedStart(l: Links, slip: bool)
    requires Closed(l) && Empty(l, ADMIT)
    requires if slip then l.next[UNUSED] == Rec(0) && l.prev[UNUSED] == Rec(0) else Empty(l, UNUSED)
    ensures Linked(l, slip, 0)
  {
  }

  lemma LinkedNext(l: Links, slip: bool, count: nat)
    requires Closed(l) && count < RECORDS && Linked(l, slip, count)
    ensures Linked(AddTail(InitHead(l, Rec(count)), Rec(count), UNUSED), slip, count + 1)
  {
  }

  // ---- As written ----

  // Record 0 stays the first unused record, whether it is in use or not.
  ghost predicate Slipped(l: Links)
    requires Closed(l)
  {
    l.next[UNUSED] == Rec(0) && (Fresh(l) || InUse(l) || Back(l))
  }

  ghost predicate Fresh(l: Links)
    requires Closed(l)
  {
    l.prev[UNUSED] == Rec(15) && l.next[Rec(0)] == Rec(1) && l.prev[Rec(0)] == Rec(0) && Empty(l, ADMIT)
  }

  ghost predicate InUse(l: Links)
    requires Closed(l)
  {
    && l.prev[UNUSED] == Rec(15) && l.next[ADMIT] == Rec(0) && l.prev[ADMIT] == Rec(0)
    && l.next[Rec(0)] == ADMIT && l.prev[Rec(0)] == ADMIT
  }

  ghost predicate Back(l: Links)
    requires Closed(l)
  {
    l.prev[UNUSED] == Rec(0) && l.next[Rec(0)] == UNUSED && l.prev[Rec(0)] == Rec(15) && Empty(l, ADMIT)
  }

  lemma TakeSlipped(l: Links)
    requires Closed(l) && Slipped(l)
    ensures l.next[UNUSED] == Rec(0) && Slipped(Take(l)) && InUse(Take(l))
  {
  }

  lemma ReleaseSlipped(l: Links)
    requires Closed(l) && Slipped(l) && InUse(l)
    ensures Slipped(Release(l, Rec(0)))
  {
  }

  lemma LinkedIsSlipped(l: Links)
    requires Closed(l) && Linked(l, true, RECORDS)
    ensures Slipped(l)
  {
    assert l.next[Rec(0)] == Rec(1);
  }

  // ---- As meant ----

  // The k-th node of the ring through head and s; head itself before the first and after the last.
  function At(head: nat, s: seq<nat>, k: int): nat {
    if 0 <= k < |s| then s[k] else head
  }

  // The list at head holds the nodes of s, in order.
  ghost predicate Ring(l: Links, head: nat, s: seq<nat>)
    requires Closed(l)
  {
    && head < NODES && (forall i :: 0 <= i < |s| ==> s[i] < NODES)
    && (forall k :: -1 <= k < |s| ==> l.next[At(head, s, k)] == At(head, s, k + 1))
    && (forall k :: -1 <= k < |s| ==> l.prev[At(head, s, k + 1)] == At(head, s, k))
  }

  ghost predicate Distinct(s: seq<nat>) {
    forall p, q :: 0 <= p < q < |s| ==> s[p] != s[q]
  }

  // Two lists that share no node.
  ghost predicate Apart(h: nat, s: seq<nat>, g: nat, u: seq<nat>) {
    && h != g && h !in s && h !in u && g !in s && g !in u
    && Distinct(s) && Distinct(u)
    && (forall p, q :: 0 <= p < |s| && 0 <= q < |u| ==> s[p] != u[q])
  }

  function Without(s: seq<nat>, k: nat): seq<nat>
    requires k < |s|
  {
    s[..k] + s[k + 1..]
  }

  lemma RingAt(l: Links, head: nat, s: seq<nat>, k: int)
    requires Closed(l) && Ring(l, head, s) && -1 <= k < |s|
    ensures At(head, s, k) < NODES && At(head, s, k + 1) < NODES
    ensures l.next[At(head, s, k)] == At(head, s, k + 1) && l.prev[At(head, s, k + 1)] == At(head, s, k)
  {
  }

  // Unlinking a node of one list takes it out there and leaves the other list alone.
  lemma Unlinked(l: Links, h: nat, s: seq<nat>, k: nat, g: nat, u: seq<nat>)
    requires Closed(l) && Ring(l, h, s) && Ring(l, g, u) && Apart(h, s, g, u) && k < |s|
    ensures Ring(DelInit(l, s[k]), h, Without(s, k)) && Ring(DelInit(l, s[k]), g, u)
  {
    var l', s' := DelInit(l, s[k]), Without(s, k);
    RingAt(l, h, s, k - 1);
    RingAt(l, h, s, k);
    forall j | -1 <= j < |s'|
      ensures l'.next[At(h, s', j)] == At(h, s', j + 1) && l'.prev[At(h, s', j + 1)] == At(h, s', j)
    {
      var i := if j < k then j else j + 1;
      assert At(h, s', j) == At(h, s, i) && At(h, s', j + 1) == At(h, s, if j + 1 < k then j + 1 else j + 2);
      RingAt(l, h, s, i);
    }
    Untouched(l, l', g, u);
  }

  // Linking a node in at the end of one list, likewise.
  lemma LinkedLast(l: Links, x: nat, h: nat, s: seq<nat>, g: nat, u: seq<nat>)
    requires Closed(l) && Ring(l, h, s) && Ring(l, g, u) && Apart(h, s, g, u)
    requires x < NODES && x != h && x != g && x !in s && x !in u
    ensures Ring(AddTail(l, x, h), h, s + [x]) && Ring(AddTail(l, x, h), g, u)
  {
    var l', s' := AddTail(l, x, h), s + [x];
    RingAt(l, h, s, |s| - 1);
    forall j | -1 <= j < |s'|
      ensures l'.next[At(h, s', j)] == At(h, s', j + 1) && l'.prev[At(h, s', j + 1)] == At(h, s', j)
    {
      assert j < |s| ==> At(h, s', j) == At(h, s, j) && l.next[At(h, s, j)] == At(h, s, j + 1);
    }
    Untouched(l, l', g, u);
  }

  lemma Untouched(l: Links, l': Links, g: nat, u: seq<nat>)
    requires Closed(l) && Closed(l') && Ring(l, g, u)
    requires forall k :: -1 <= k < |u| ==>
      var n := At(g, u, k); n < NODES && l'.next[n] == l.next[n] && l'.prev[n] == l.prev[n]
    ensures Ring(l', g, u)
  {
    assert l'.prev[At(g, u, |u|)] == l'.prev[At(g, u, -1)];
  }

  // The two lists as sequences of nodes.
  datatype Two = Two(unused: seq<nat>, admit: seq<nat>)

  // The links hold these two lists; together they hold each record once.
  ghost predicate Shows(l: Links, t: Two)
    requires Closed(l)
  {
    && Ring(l, UNUSED, t.unused) && Ring(l, ADMIT, t.admit) && Apart(UNUSED, t.unused, ADMIT, t.admit)
    && |t.unused| + |t.admit| == RECORDS
  }

  lemma StillApart(h: nat, s: seq<nat>, k: nat, g: nat, u: seq<nat>)
    requires Apart(h, s, g, u) && k < |s|
    ensures var x, rest := s[k], Without(s, k);
      Apart(h, rest, g, u) && x != h && x != g && x !in rest && x !in u && Apart(h, rest, g, u + [x])
  {
    var rest := Without(s, k);
    forall i | 0 <= i < |rest| ensures rest[i] in s && rest[i] != s[k] {
      assert rest[i] == s[if i < k then i else i + 1];
    }
  }

  // Moving the k-th node of one list to the end of the other.
  lemma Moved(l: Links, h: nat, s: seq<nat>, k: nat, g: nat, u: seq<nat>)
    requires Closed(l) && Ring(l, h, s) && Ring(l, g, u) && Apart(h, s, g, u) && k < |s|
    ensures var r := AddTail(DelInit(l, s[k]), s[k], g);
      Ring(r, h, Without(s, k)) && Ring(r, g, u + [s[k]]) && Apart(h, Without(s, k), g, u + [s[k]])
  {
    RingAt(l, h, s, k);
    Unlinked(l, h, s, k, g, u);
    StillApart(h, s, k, g, u);
    ApartFlip(h, Without(s, k), g, u);
    hide Ring, DelInit, AddTail, Apart;
    LinkedLast(DelInit(l, s[k]), s[k], g, u, h, Without(s, k));
  }

  lemma ApartFlip(h: nat, s: seq<nat>, g: nat, u: seq<nat>)
    requires Apart(h, s, g, u)
    ensures Apart(g, u, h, s)
  {
  }

  lemma TakeShows(l: Links, t: Two)
    requires Closed(l) && Shows(l, t) && t.unused != []
    ensures Shows(Take(l), Two(t.unused[1..], t.admit + [t.unused[0]]))
  {
    RingAt(l, UNUSED, t.unused, -1);
    Moved(l, UNUSED, t.unused, 0, ADMIT, t.admit);
    assert Without(t.unused, 0) == t.unused[1..];
    hide Ring, DelInit, AddTail, Apart;
  }

  lemma ReleaseShows(l: Links, t: Two, k: nat)
    requires Closed(l) && Shows(l, t) && k < |t.admit|
    ensures t.admit[k] < NODES
    ensures Shows(Release(l, t.admit[k]), Two(t.unused + [t.admit[k]], Without(t.admit, k)))
  {
    RingAt(l, ADMIT, t.admit, k);
    ApartFlip(UNUSED, t.unused, ADMIT, t.admit);
    Moved(l, ADMIT, t.admit, k, UNUSED, t.unused);
    ApartFlip(ADMIT, Without(t.admit, k), UNUSED, t.unused + [t.admit[k]]);
    hide Ring, DelInit, AddTail, Apart;
  }

  function Records(): (s: seq<nat>)
    ensures |s| == RECORDS && forall i :: 0 <= i < RECORDS ==> s[i] == Rec(i)
  {
    seq(RECORDS, i requires 0 <= i < RECORDS => Rec(i))
  }

  lemma LinkedShows(l: Links)
    requires Closed(l) && Linked(l, false, RECORDS)
    ensures Shows(l, Two(Records(), []))
  {
    var s := Records();
    forall k | -1 <= k < RECORDS
      ensures l.next[At(UNUSED, s, k)] == At(UNUSED, s, k + 1) && l.prev[At(UNUSED, s, k + 1)] == At(UNUSED, s, k)
    {
      assert 0 <= k < 15 ==> l.next[Rec(k)] == Rec(k + 1) && l.prev[Rec(k + 1)] == Rec(k);
    }
  }

  // ---- Runs of additions and removals ----

  datatype Move = Add | Remove(x: nat)

  // The links, the records additions have taken so far, and those in use: taken and not removed
  // since.
  datatype Ran = Ran(links: Links, taken: seq<nat>, used: set<nat>)

  ghost predicate RanOk(r: Ran) {
    Closed(r.links) && forall x :: x in r.used ==> x < NODES
  }

  // An addition fails on an empty list; only a record in use can be removed.
  function Next(r: Ran, m: Move): (r': Ran)
    requires RanOk(r)
    ensures RanOk(r')
  {
    match m
    case Add =>
      var x := r.links.next[UNUSED];
      if x == UNUSED then r else Ran(Take(r.links), r.taken + [x], r.used + {x})
    case Remove(x) => if x in r.used then Ran(Release(r.links, x), r.taken, r.used - {x}) else r
  }

  function After(l: Links, moves: seq<Move>): (r: Ran)
    requires Closed(l)
    ensures RanOk(r)
  {
    if moves == [] then Ran(l, [], {}) else Next(After(l, moves[..|moves| - 1]), moves[|moves| - 1])
  }

  function Additions(moves: seq<Move>): nat {
    if moves == [] then 0 else Additions(moves[..|moves| - 1]) + if moves[|moves| - 1].Add? then 1 else 0
  }

  // As it is written, every addition of every run takes record 0, whether that record is in use
  // or not, and no addition fails: the other fifteen records are never used.
  lemma {:induction false} AsWritten(l: Links, moves: seq<Move>)
    requires Closed(l) && Linked(l, true, RECORDS)
    ensures var r := After(l, moves);
      && Slipped(r.links) && (r.used != {} ==> r.used == {Rec(0)} && InUse(r.links))
      && |r.taken| == Additions(moves) && forall k :: 0 <= k < |r.taken| ==> r.taken[k] == Rec(0)
    decreases |moves|
  {
    LinkedIsSlipped(l);
    hide Slipped, InUse, Linked, Take, Release;
    if moves != [] {
      var n := |moves| - 1;
      AsWritten(l, moves[..n]);
      var r := After(l, moves[..n]);
      TakeSlipped(r.links);
      if r.used != {} {
        ReleaseSlipped(r.links);
      }
    }
  }

  // As it is meant, the links always hold two lists with each record in one of them, once: those in
  // use in the admit list, the others in the unused list.
  lemma {:induction false} MeantShows(l: Links, moves: seq<Move>) returns (t: Two)
    requires Closed(l) && Linked(l, false, RECORDS)
    ensures Shows(After(l, moves).links, t)
    ensures forall x :: x in After(l, moves).used <==> x in t.admit
    decreases |moves|
  {
    if moves == [] {
      LinkedShows(l);
      t := Two(Records(), []);
    } else {
      var n := |moves| - 1;
      var was := MeantShows(l, moves[..n]);
      t := NextShows(After(l, moves[..n]), was, moves[n]);
    }
  }

  lemma NextShows(r: Ran, t: Two, m: Move) returns (t': Two)
    requires RanOk(r) && Shows(r.links, t) && forall x :: x in r.used <==> x in t.admit
    ensures Shows(Next(r, m).links, t')
    ensures forall x :: x in Next(r, m).used <==> x in t'.admit
  {
    t' := t;
    FirstUnused(r.links, t);
    match m {
      case Add =>
        if t.unused != [] {
          TakeShows(r.links, t);
          t' := Two(t.unused[1..], t.admit + [t.unused[0]]);
          hide Shows, Take;
        }
      case Remove(x) =>
        if x in r.used {
          var k: nat :| k < |t.admit| && t.admit[k] == x;
          ReleaseShows(r.links, t, k);
          t' := Two(t.unused + [x], Without(t.admit, k));
          OthersStay(t.admit, k);
          hide Shows, Release;
        }
    }
  }

  lemma FirstUnused(l: Links, t: Two)
    requires Closed(l) && Shows(l, t)
    ensures l.next[UNUSED] == (if t.unused == [] then UNUSED else t.unused[0]) && UNUSED !in t.unused
    ensures Distinct(t.admit)
  {
    assert l.next[At(UNUSED, t.unused, -1)] == At(UNUSED, t.unused, 0);
  }

  lemma OthersStay(s: seq<nat>, k: nat)
    requires Distinct(s) && k < |s|
    ensures forall y :: y in Without(s, k) <==> y in s && y != s[k]
  {
    var s' := Without(s, k);
    forall i | 0 <= i < |s| && i != k ensures s[i] in s' {
      assert s[i] == s'[if i < k then i else i - 1];
    }
  }

  lemma {:induction false} Count(s: seq<nat>, u: set<nat>)
    requires Distinct(s) && forall x :: x in u <==> x in s
    ensures |u| == |s|
  {
    if s == [] {
      assert u == {};
    } else {
      var n := |s| - 1;
      assert forall x :: x in s[..n] ==> x in s;
      Count(s[..n], u - {s[n]});
      assert s[n] in u;
    }
  }

  // So an addition never takes a record that is in use, and fails exactly when all sixteen are.
  lemma AsMeant(l: Links, moves: seq<Move>)
    requires Closed(l) && Linked(l, false, RECORDS)
    ensures var r := After(l, moves); var x := r.links.next[UNUSED];
      && (x == UNUSED <==> |r.used| == RECORDS)
      && (x != UNUSED ==> x !in r.used && Rec(0) <= x < NODES)
  {
    var t := MeantShows(l, moves);
    var r := After(l, moves);
    FirstUnused(r.links, t);
    Count(t.admit, r.used);
    assert t.unused != [] ==> t.unused[0] != UNUSED && t.unused[0] != ADMIT;
  }

  // ---- The lists of the driver ----

  class Nodes {
    const next: array<nat>
    const prev: array<nat>

    ghost predicate Valid()
      reads this, next, prev
    {
      next.Length == NODES && prev.Length == NODES && next != prev && Closed(State())
    }

    ghost function State(): Links
      reads this, next, prev
    {
      Links(next[..], prev[..])
    }

    method Init(n: nat)
      requires Valid() && n < NODES
      modifies next, prev
      ensures Valid() && State() == InitHead(old(State()), n)
    {
      next[n] := n;
      prev[n] := n;
    }

    method Add(x: nat, head: nat)
      requires Valid() && x < NODES && head < NODES
      modifies next, prev
      ensures Valid() && State() == AddTail(old(State()), x, head)
    {
      var p := prev[head];
      prev[head] := x;
      next[x] := head;
      prev[x] := p;
      next[p] := x;
    }

    method Delete(x: nat)
      requires Valid() && x < NODES
      modifies next, prev
      ensures Valid() && State() == DelInit(old(State()), x)
    {
      var p, n := prev[x], next[x];
      prev[n] := p;
      next[p] := n;
      next[x] := x;
      prev[x] := x;
    }

    // The receive lists as TSInitialize sets them up, with its first loop as it is written or
    // without it.
    constructor (slip: bool)
      ensures Valid() && fresh(next) && fresh(prev) && Linked(State(), slip, RECORDS)
    {
      next := new nat[NODES](_ => 0);
      prev := new nat[NODES](_ => 0);
      new;
      Init(ADMIT);
      Init(UNUSED);
      var count := 0;
      while slip && count < RECORDS
        invariant 0 <= count <= RECORDS && Valid() && fresh(next) && fresh(prev) && Empty(State(), ADMIT)
        invariant (!slip ==> count == 0) && (count == 0 ==> Empty(State(), UNUSED))
        invariant count > 0 ==> next[UNUSED] == Rec(0) && prev[UNUSED] == Rec(0)
      {
        Add(Rec(0), UNUSED);
        count := count + 1;
      }
      count := 0;
      LinkedStart(State(), slip);
      hide Linked;
      while count < RECORDS
        invariant 0 <= count <= RECORDS && Valid() && fresh(next) && fresh(prev)
        invariant Linked(State(), slip, count)
      {
        LinkedNext(State(), slip, count);
        Init(Rec(count));
        Add(Rec(count), UNUSED);
        count := count + 1;
      }
    }

    method TakeFirst() returns (x: nat)
      requires Valid()
      modifies next, prev
      ensures Valid() && x == old(next[UNUSED]) && State() == Take(old(State()))
    {
      x := next[UNUSED];
      Delete(x);
      Add(x, ADMIT);
    }

    method GiveBack(x: nat)
      requires Valid() && x < NODES
      modifies next, prev
      ensures Valid() && State() == Release(old(State()), x)
    {
      Delete(x);
      Add(x, UNUSED);
    }
  }

  // A run of additions and removals on the lists of the driver.
  method RunMoves(l: Nodes, moves: seq<Move>) returns (taken: seq<nat>)
    requires l.Valid()
    modifies l.next, l.prev
    ensures l.Valid() && l.State() == After(old(l.State()), moves).links && taken == After(old(l.State()), moves).taken
  {
    taken := [];
    var used: set<nat> := {};
    var i := 0;
    while i < |moves|
      invariant 0 <= i <= |moves| && l.Valid()
      invariant After(old(l.State()), moves[..i]) == Ran(l.State(), taken, used)
    {
      assert moves[..i + 1][..i] == moves[..i];
      hide Take, Release;
      match moves[i] {
        case Add =>
          if l.next[UNUSED] != UNUSED {
            var x := l.TakeFirst();
            taken, used := taken + [x], used + {x};
          }
        case Remove(x) =>
          if x in used {
            l.GiveBack(x);
            used := used - {x};
          }
      }
      i := i + 1;
    }
    assert moves[..i] == moves;
  }

  // From the lists as TSInitialize sets them up, as it is written: record 0 for every stream.
  method RunAsWritten(moves: seq<Move>) returns (taken: seq<nat>)
    ensures |taken| == Additions(moves) && forall k :: 0 <= k < |taken| ==> taken[k] == Rec(0)
  {
    var l := new Nodes(true);
    AsWritten(l.State(), moves);
    hide *;
    taken := RunMoves(l, moves);
  }
}
