/**
 Sending a long buffer to the device in fragments: command packets as they are, firmware with
 the four bytes of every word in reverse order.
 */
module Fragments {

  import opened Basics

  // GET_COMMAND_PACKET_FRAG_THRESHOLD(MAX_TRANSMIT_BUFFER_SIZE): 4 * (3200 / 4) - 8.
  const THRESHOLD := 3192

  // frag_offset has 16 bits.
  const OFFSET_LIMIT := 0x1_0000

  datatype Fragment = Fragment(payload: seq<Byte>, last: bool)

  function Joined(fs: seq<Fragment>): seq<Byte> {
    if fs == [] then [] else fs[0].payload + Joined(fs[1..])
  }

  // All of the threshold's length but the last one, which is not longer, not empty unless it is the
  // only one, and alone marked as the last.
  ghost predicate WellCut(thr: nat, fs: seq<Fragment>) {
    && fs != []
    && (forall i :: 0 <= i < |fs| - 1 ==> |fs[i].payload| == thr)
    && |fs[|fs| - 1].payload| <= thr && (|fs| > 1 ==> fs[|fs| - 1].payload != [])
    && (forall i :: 0 <= i < |fs| ==> (fs[i].last <==> i == |fs| - 1))
  }

  // ---- Command packets ----

  function Cut(thr: nat, buf: seq<Byte>): (fs: seq<Fragment>)
    requires thr > 0
    ensures fs != []
  {
    if |buf| <= thr then [Fragment(buf, true)]
    else [Fragment(buf[..thr], false)] + Cut(thr, buf[thr..])
  }

  lemma JoinedCons(f: Fragment, fs: seq<Fragment>)
    ensures Joined([f] + fs) == f.payload + Joined(fs) && Joined([f]) == f.payload
  {
    assert ([f] + fs)[1..] == fs && [f][1..] == [];
  }

  lemma WellCutCons(thr: nat, f: Fragment, fs: seq<Fragment>)
    requires |f.payload| <= thr
    ensures f.last ==> WellCut(thr, [f])
    ensures !f.last && |f.payload| == thr && WellCut(thr, fs) && fs[0].payload != [] ==> WellCut(thr, [f] + fs)
  {
    var all := [f] + fs;
    assert forall i :: 1 <= i < |all| ==> all[i] == fs[i - 1];
  }

  // The payloads make up the buffer again.
  lemma {:induction false} CutRoundTrip(thr: nat, buf: seq<Byte>)
    requires thr > 0
    ensures Joined(Cut(thr, buf)) == buf && WellCut(thr, Cut(thr, buf))
  {
    hide Joined, WellCut;
    if |buf| <= thr {
      JoinedCons(Fragment(buf, true), []);
      WellCutCons(thr, Fragment(buf, true), []);
    } else {
      var f, rest := Fragment(buf[..thr], false), Cut(thr, buf[thr..]);
      CutRoundTrip(thr, buf[thr..]);
      JoinedCons(f, rest);
      WellCutCons(thr, f, rest);
    }
  }

  // ---- Firmware ----

  // Four bytes of the payload, from the word at i. Bytes are reversed, and only then compared
  // with the length, by their place in the payload.
  function SwappedWord(mem: seq<Byte>, n: nat, i: nat): (w: seq<Byte>)
    requires i < n && n + 3 <= |mem|
    ensures |w| == 4
  {
    [mem[i + 3], if i + 1 < n then mem[i + 2] else 0,
     if i + 2 < n then mem[i + 1] else 0, if i + 3 < n then mem[i] else 0]
  }

  // The payload made of the first n bytes of mem, from i on.
  function Reversed(mem: seq<Byte>, n: nat, i: nat): (p: seq<Byte>)
    requires n + 3 <= |mem|
    decreases n - i
  {
    if i >= n then [] else SwappedWord(mem, n, i) + Reversed(mem, n, i + 4)
  }

  function FwCut(thr: nat, mem: seq<Byte>, n: nat): (fs: seq<Fragment>)
    requires thr > 0 && thr % 4 == 0
    requires n + 3 <= |mem|
    ensures fs != []
  {
    if n <= thr then [Fragment(Reversed(mem, n, 0), true)]
    else [Fragment(Reversed(mem, thr, 0), false)] + FwCut(thr, mem[thr..], n - thr)
  }

  // The 32-bit byte swap.
  function Swap(s: seq<Byte>): (r: seq<Byte>) {
    if |s| < 4 then [] else [s[3], s[2], s[1], s[0]] + Swap(s[4..])
  }

  lemma {:induction false} SwapLength(s: seq<Byte>)
    requires |s| % 4 == 0
    ensures |Swap(s)| == |s|
  {
    if |s| >= 4 {
      SwapLength(s[4..]);
    }
  }

  lemma {:induction false} SwapTwice(s: seq<Byte>)
    requires |s| % 4 == 0
    ensures Swap(Swap(s)) == s
  {
    if |s| >= 4 {
      SwapTwice(s[4..]);
      assert Swap(s)[4..] == Swap(s[4..]);
      assert s == [s[0], s[1], s[2], s[3]] + s[4..];
    }
  }

  lemma {:induction false} SwapAppend(a: seq<Byte>, b: seq<Byte>)
    requires |a| % 4 == 0
    ensures Swap(a + b) == Swap(a) + Swap(b)
    decreases |a|
  {
    if a == [] {
      assert a + b == b;
    } else {
      var w := [a[3], a[2], a[1], a[0]];
      SwapAppend(a[4..], b);
      assert (a + b)[4..] == a[4..] + b;
      assert Swap(a + b) == w + Swap(a[4..] + b);
      assert Swap(a) == w + Swap(a[4..]);
    }
  }

  lemma ReversedNext(done: seq<Byte>, mem: seq<Byte>, n: nat, i: nat)
    requires n + 3 <= |mem| && i < n
    ensures (done + SwappedWord(mem, n, i)) + Reversed(mem, n, i + 4) == done + Reversed(mem, n, i)
  {
    hide SwappedWord;
  }

  lemma {:induction false} ReversedIsSwap(mem: seq<Byte>, n: nat, i: nat)
    requires n + 3 <= |mem| && n % 4 == 0 && i % 4 == 0 && i <= n
    ensures Reversed(mem, n, i) == Swap(mem[i..n])
    decreases n - i
  {
    if i < n {
      ReversedIsSwap(mem, n, i + 4);
      assert mem[i..n][4..] == mem[i + 4..n];
    }
  }

  // For a length that is a multiple of 4 the payloads make up the byte swap of the image.
  lemma {:induction false} FwRoundTrip(thr: nat, mem: seq<Byte>, n: nat)
    requires thr > 0 && thr % 4 == 0
    requires n + 3 <= |mem| && n % 4 == 0
    ensures Joined(FwCut(thr, mem, n)) == Swap(mem[..n])
    decreases n
  {
    hide Joined, Reversed, Swap;
    if n <= thr {
      ReversedIsSwap(mem, n, 0);
      JoinedCons(Fragment(Reversed(mem, n, 0), true), []);
      assert mem[0..n] == mem[..n];
    } else {
      var f, rest := Fragment(Reversed(mem, thr, 0), false), FwCut(thr, mem[thr..], n - thr);
      ReversedIsSwap(mem, thr, 0);
      FwRoundTrip(thr, mem[thr..], n - thr);
      JoinedCons(f, rest);
      TakeDrop(mem, thr, n);
      SwapAppend(mem[0..thr], mem[thr..][..n - thr]);
    }
  }

  lemma TakeDrop(mem: seq<Byte>, k: nat, n: nat)
    requires k <= n <= |mem|
    ensures mem[..n] == mem[0..k] + mem[k..][..n - k]
  {
  }

  lemma {:induction false} ReversedSize(mem: seq<Byte>, n: nat, i: nat)
    requires n + 3 <= |mem| && i % 4 == 0
    ensures |Reversed(mem, n, i)| == if i < n then (n - i + 3) / 4 * 4 else 0
    decreases n - i
  {
    if i < n {
      ReversedSize(mem, n, i + 4);
      var w, r := SwappedWord(mem, n, i), Reversed(mem, n, i + 4);
      assert Reversed(mem, n, i) == w + r;
      hide SwappedWord, Reversed;
      assert |w + r| == 4 + |r|;
    }
  }

  lemma {:induction false} FwWellCut(thr: nat, mem: seq<Byte>, n: nat)
    requires thr > 0 && thr % 4 == 0
    requires n + 3 <= |mem|
    ensures WellCut(thr, FwCut(thr, mem, n))
    decreases n
  {
    hide WellCut, Reversed;
    if n <= thr {
      ReversedSize(mem, n, 0);
      WellCutCons(thr, Fragment(Reversed(mem, n, 0), true), []);
    } else {
      ReversedSize(mem, thr, 0);
      FwWellCut(thr, mem[thr..], n - thr);
      ReversedSize(mem[thr..], if n - thr > thr then thr else n - thr, 0);
      WellCutCons(thr, Fragment(Reversed(mem, thr, 0), false), FwCut(thr, mem[thr..], n - thr));
    }
  }

  // Byte q of all that is sent for n bytes: its word in reverse order, and zero from byte n on. What
  // stands at q decides that, not where in memory it comes from.
  function SentByte(mem: seq<Byte>, n: nat, q: nat): Byte
    requires n + 3 <= |mem|
  {
    if q < n then mem[q - q % 4 + (3 - q % 4)] else 0
  }

  function RoundedUp(n: nat): nat {
    (n + 3) / 4 * 4
  }

  lemma Rounding(n: nat, i: nat)
    requires i % 4 == 0
    ensures RoundedUp(n) % 4 == 0 && RoundedUp(n) >= n && (i < n <==> i < RoundedUp(n))
    ensures i < n ==> i + 4 <= RoundedUp(n)
    ensures i <= n ==> RoundedUp(n) == i + RoundedUp(n - i)
  {
    var k := i / 4;
    assert i == 4 * k;
    assert i <= n ==> (n - i + 3) / 4 == (n + 3) / 4 - k;
  }

  lemma WordBytes(mem: seq<Byte>, n: nat, i: nat, p: nat)
    requires i < n && n + 3 <= |mem| && i % 4 == 0 && p < 4
    ensures SwappedWord(mem, n, i)[p] == SentByte(mem, n, i + p)
  {
    assert (i + p) % 4 == p;
  }

  lemma ShiftedByte(mem: seq<Byte>, thr: nat, n: nat, q: nat)
    requires thr % 4 == 0 && thr <= n && n + 3 <= |mem|
    ensures SentByte(mem[thr..], n - thr, q) == SentByte(mem, n, thr + q)
  {
    assert (thr + q) % 4 == q % 4;
  }

  lemma {:induction false} ReversedBytes(mem: seq<Byte>, n: nat, i: nat)
    requires n + 3 <= |mem| && i % 4 == 0 && i <= RoundedUp(n)
    ensures var r := Reversed(mem, n, i);
      |r| == RoundedUp(n) - i && forall p :: 0 <= p < |r| ==> r[p] == SentByte(mem, n, i + p)
    decreases RoundedUp(n) - i
  {
    Rounding(n, i);
    hide SwappedWord, SentByte, RoundedUp;
    if i < n {
      ReversedBytes(mem, n, i + 4);
      var w, rest := SwappedWord(mem, n, i), Reversed(mem, n, i + 4);
      assert Reversed(mem, n, i) == w + rest;
      forall p: nat | p < |w + rest| ensures (w + rest)[p] == SentByte(mem, n, i + p) {
        if p < 4 {
          WordBytes(mem, n, i, p);
        } else {
          assert (w + rest)[p] == rest[p - 4] == SentByte(mem, n, i + 4 + (p - 4));
        }
      }
    }
  }

  // What the device gets, byte by byte, for an image of any length: the payloads together are rounded
  // up to whole words, each word in reverse order, with zeros for the bytes that stand beyond n.
  lemma {:induction false} PayloadBytes(thr: nat, mem: seq<Byte>, n: nat)
    requires thr > 0 && thr % 4 == 0 && n + 3 <= |mem|
    ensures var all := Joined(FwCut(thr, mem, n));
      |all| == RoundedUp(n) && forall p :: 0 <= p < |all| ==> all[p] == SentByte(mem, n, p)
    decreases n
  {
    hide Joined, Reversed, SentByte, RoundedUp;
    if n <= thr {
      Rounding(n, 0);
      ReversedBytes(mem, n, 0);
      JoinedCons(Fragment(Reversed(mem, n, 0), true), []);
    } else {
      Rounding(thr, 0);
      var first, rest := Reversed(mem, thr, 0), FwCut(thr, mem[thr..], n - thr);
      ReversedBytes(mem, thr, 0);
      PayloadBytes(thr, mem[thr..], n - thr);
      JoinedCons(Fragment(first, false), rest);
      BytesJoin(thr, mem, n, first, Joined(rest));
    }
  }

  lemma BytesJoin(thr: nat, mem: seq<Byte>, n: nat, a: seq<Byte>, b: seq<Byte>)
    requires thr % 4 == 0 && thr < n && n + 3 <= |mem|
    requires |a| == RoundedUp(thr) && forall p :: 0 <= p < |a| ==> a[p] == SentByte(mem, thr, 0 + p)
    requires |b| == RoundedUp(n - thr) && forall p :: 0 <= p < |b| ==> b[p] == SentByte(mem[thr..], n - thr, p)
    ensures |a + b| == RoundedUp(n) && forall p :: 0 <= p < |a + b| ==> (a + b)[p] == SentByte(mem, n, p)
  {
    Rounding(n, thr);
    assert RoundedUp(thr) == thr;
    forall p: nat | p < |a + b| ensures (a + b)[p] == SentByte(mem, n, p) {
      if p < thr {
        assert SentByte(mem, thr, 0 + p) == SentByte(mem, n, p);
      } else {
        ShiftedByte(mem, thr, n, p - thr);
        hide SentByte;
        assert (a + b)[p] == b[p - thr];
      }
    }
  }

  // An image filled up with zeros to whole words.
  function Padded(image: seq<Byte>): (r: seq<Byte>)
    ensures |r| % 4 == 0
  {
    image + seq((4 - |image| % 4) % 4, _ => 0)
  }

  // The first of the bytes that do not fill a word is lost: the payloads end in a zero.
  lemma {:induction false} LastByte(thr: nat, mem: seq<Byte>, n: nat)
    requires thr > 0 && thr % 4 == 0
    requires n + 3 <= |mem| && n % 4 != 0
    ensures var p := Joined(FwCut(thr, mem, n)); p != [] && p[|p| - 1] == 0
    decreases n
  {
    hide Reversed, Joined;
    if n <= thr {
      ReversedEnd(mem, n, 0);
      JoinedCons(Fragment(Reversed(mem, n, 0), true), []);
    } else {
      LastByte(thr, mem[thr..], n - thr);
      JoinedCons(Fragment(Reversed(mem, thr, 0), false), FwCut(thr, mem[thr..], n - thr));
    }
  }

  lemma {:induction false} ReversedEnd(mem: seq<Byte>, n: nat, i: nat)
    requires n + 3 <= |mem| && n % 4 != 0 && i % 4 == 0 && i < n
    ensures Reversed(mem, n, i) != [] && Reversed(mem, n, i)[|Reversed(mem, n, i)| - 1] == 0
    decreases n - i
  {
    var w, r := SwappedWord(mem, n, i), Reversed(mem, n, i + 4);
    assert Reversed(mem, n, i) == w + r;
    if i + 4 < n {
      ReversedEnd(mem, n, i + 4);
    } else {
      assert i + 3 >= n && w[3] == 0 && r == [];
    }
    hide SwappedWord, Reversed;
  }

  lemma {:induction false} SwapEnd(s: seq<Byte>)
    requires |s| % 4 == 0 && s != []
    ensures |Swap(s)| == |s| && Swap(s)[|s| - 1] == s[|s| - 4]
  {
    SwapLength(s);
    var w, r := [s[3], s[2], s[1], s[0]], Swap(s[4..]);
    assert Swap(s) == w + r;
    if |s| > 4 {
      SwapEnd(s[4..]);
    }
    hide Swap;
  }

  // An image of n ones loses one of them when n is not a multiple of 4.
  lemma PartialWordLost(thr: nat, n: nat, image: seq<Byte>, beyond: seq<Byte>)
    requires thr > 0 && thr % 4 == 0
    requires n % 4 != 0 && image == seq(n, _ => 1) && |beyond| == 3
    ensures Joined(FwCut(thr, image + beyond, n)) != Swap(Padded(image))
  {
    LastByte(thr, image + beyond, n);
    var p := Padded(image);
    SwapEnd(p);
    hide FwCut, Joined, Swap;
    assert |p| - 4 < n;
    assert p[|p| - 4] == image[|p| - 4] == 1;
  }

  lemma WholeWordsRight(thr: nat, n: nat, image: seq<Byte>, beyond: seq<Byte>)
    requires thr > 0 && thr % 4 == 0
    requires n % 4 == 0 && |image| == n && |beyond| == 3
    ensures Joined(FwCut(thr, image + beyond, n)) == Swap(Padded(image))
  {
    FwRoundTrip(thr, image + beyond, n);
    assert (image + beyond)[..n] == image && Padded(image) == image;
  }

  ghost predicate Delivered(thr: nat, n: nat, image: seq<Byte>, beyond: seq<Byte>)
    requires thr > 0 && thr % 4 == 0
  {
    |image| == n && |beyond| == 3 ==> Joined(FwCut(thr, image + beyond, n)) == Swap(Padded(image))
  }

  // So the device gets the swapped image, filled up with zeros, for every image of a length and
  // whatever follows it in memory, exactly when that length is a multiple of 4.
  lemma WholeWordsExactly(thr: nat, n: nat)
    requires thr > 0 && thr % 4 == 0
    ensures n % 4 == 0 <==> forall image: seq<Byte>, beyond: seq<Byte> :: Delivered(thr, n, image, beyond)
  {
    if n % 4 == 0 {
      forall image: seq<Byte>, beyond: seq<Byte> ensures Delivered(thr, n, image, beyond) {
        if |image| == n && |beyond| == 3 {
          WholeWordsRight(thr, n, image, beyond);
        }
      }
    } else {
      var image: seq<Byte>, beyond: seq<Byte> := seq(n, _ => 1), [0, 0, 0];
      PartialWordLost(thr, n, image, beyond);
      hide FwCut, Joined, Swap, Padded;
      assert !Delivered(thr, n, image, beyond);
    }
  }

  // ---- The loops ----

  // The images and buffers the driver sends are shorter than the range of its 16-bit offset;
  // `beyond` is what follows one in memory.
  datatype Image = Image(code: seq<Byte>, beyond: seq<Byte>)

  ghost predicate Fits(m: Image) {
    |m.code| < OFFSET_LIMIT && |m.beyond| >= 3
  }

  datatype Status = Init | MoveBootCode | MoveMainCode | TurnonCpu | MoveDataCode | Ready

  datatype Step = Boot | Main | Data

  const NULL_PACKET := Fragment(seq(128, _ => 0), false)

  class Loader {
    const threshold: nat
    var log: seq<Fragment>
    var status: Status
    var dataBuf: Image

    ghost predicate Valid()
      reads this
    {
      0 < threshold < OFFSET_LIMIT && threshold % 4 == 0 && Fits(dataBuf)
    }

    constructor ()
      ensures Valid() && log == [] && status == Init && threshold == 4 * (3200 / 4) - 8
    {
      threshold, log, status, dataBuf := THRESHOLD, [], Init, Image([], [0, 0, 0]);
    }

    // cmpk_message_handle_tx; `room` is how many buffers can still be allocated.
    method SendCommand(buf: seq<Byte>, room: nat) returns (ok: bool)
      requires Valid() && |buf| < OFFSET_LIMIT
      modifies this`log
      ensures Valid()
      ensures var fs := Cut(threshold, buf);
        && ok == (room >= |fs|)
        && log == old(log) + if ok then fs else fs[..room]
    {
      var fragOffset := 0;
      ghost var fs := Cut(threshold, buf);
      var k := 0;
      assert buf[0..] == buf && fs[0..] == fs && fs[..0] == [];
      hide Cut;
      while true
        invariant 0 <= fragOffset <= |buf| && k < |fs| && k <= room
        invariant Cut(threshold, buf[fragOffset..]) == fs[k..]
        invariant log == old(log) + fs[..k]
        decreases |buf| - fragOffset, |fs| - k
      {
        CutStep(threshold, buf, fragOffset, fs, k);
        var fragLength, last := |buf| - fragOffset, true;
        if |buf| - fragOffset > threshold {
          fragLength, last := threshold, false;
        }
        if k == room {
          return false;
        }
        log := log + [Fragment(buf[fragOffset..fragOffset + fragLength], last)];
        fragOffset := fragOffset + fragLength;
        k := k + 1;
        assert log == old(log) + fs[..k];
        if fragOffset >= |buf| {
          break;
        }
      }
      assert fs[..k] == fs;
      return true;
    }

    // The byte-reversing loop: the payload of a fragment, written word by word. The buffer has
    // room for the word that the last bytes begin.
    method Reverse(code: seq<Byte>, length: nat) returns (payload: seq<Byte>)
      requires length + 3 <= |code|
      ensures payload == Reversed(code, length, 0)
    {
      var seg := new Byte[length + 4](_ => 0);
      var i := 0;
      assert seg[..0] == [];
      while i < length
        invariant 0 <= i <= length + 3 && i % 4 == 0
        invariant seg[..i] + Reversed(code, length, i) == Reversed(code, length, 0)
      {
        ghost var done := seg[..i];
        ReversedNext(done, code, length, i);
        hide *;
        PutWord(seg, code, length, i);
        i := i + 4;
      }
      payload := seg[..i];
      assert payload + [] == payload;
    }

    // The four bytes of one word, the ones beyond the length as zeros.
    static method PutWord(seg: array<Byte>, code: seq<Byte>, length: nat, i: nat)
      requires length + 3 <= |code| && i < length && i + 4 <= seg.Length
      modifies seg
      ensures seg[..i + 4] == old(seg[..i]) + SwappedWord(code, length, i)
    {
      seg[i] := code[i + 3];
      seg[i + 1] := if i + 1 < length then code[i + 2] else 0;
      seg[i + 2] := if i + 2 < length then code[i + 1] else 0;
      seg[i + 3] := if i + 3 < length then code[i] else 0;
    }

    // fw_download_code.
    method Download(m: Image)
      requires Valid() && Fits(m)
      modifies this`log
      ensures Valid() && log == old(log) + FwCut(threshold, m.code + m.beyond, |m.code|)
    {
      var mem := m.code + m.beyond;
      var n := |m.code|;
      var fragOffset := 0;
      ghost var all := log + FwCut(threshold, mem, n);
      assert mem[0..] == mem && 0 < threshold && threshold % 4 == 0;
      hide FwCut, Reversed, Valid;
      while true
        invariant 0 <= fragOffset <= n && Valid()
        invariant log + FwCut(threshold, mem[fragOffset..], n - fragOffset) == all
        decreases n - fragOffset
      {
        FwCutStep(threshold, mem, n, fragOffset, log);
        var fragLength := DownloadNext(mem[fragOffset..], n - fragOffset);
        fragOffset := fragOffset + fragLength;
        if fragOffset >= n {
          break;
        }
      }
    }

    // One fragment of the firmware, from what is left of it.
    method DownloadNext(rest: seq<Byte>, left: nat) returns (fragLength: nat)
      requires Valid() && left + 3 <= |rest|
      modifies this`log
      ensures fragLength == if left > threshold then threshold else left
      ensures log == old(log) + [Fragment(Reversed(rest, fragLength, 0), left <= threshold)]
    {
      var last := true;
      fragLength := left;
      if left > threshold {
        fragLength, last := threshold, false;
      }
      var payload := Reverse(rest, fragLength);
      log := log + [Fragment(payload, last)];
    }

    // firmware_check_ready; `up` is what the device's status bits say in time.
    method CheckReady(step: Step, up: bool) returns (ok: bool)
      modifies this`log, this`status
      ensures match step
        case Boot => ok && log == old(log) + [Fragment(seq(128, _ => 0), false)] && status == MoveBootCode
        case Main => ok == up && log == old(log) && status == if up then TurnonCpu else MoveMainCode
        case Data => ok == up && log == old(log) && status == if up then Ready else MoveDataCode
    {
      ok := true;
      match step {
        case Boot =>
          status := MoveBootCode;
          log := log + [NULL_PACKET];
        case Main =>
          status := MoveMainCode;
          ok := up;
          if ok {
            status := TurnonCpu;
          }
        case Data =>
          status := MoveDataCode;
          ok := up;
          if ok {
            status := Ready;
          }
      }
    }

    // init_firmware with the images built into the driver. From any state but Ready it loads
    // all three and keeps the data image; from Ready it loads the kept data image again.
    method InitFirmware(boot: Image, main: Image, data: Image, codeOk: bool, fwReady: bool) returns (ok: bool)
      requires Valid() && Fits(boot) && Fits(main) && Fits(data)
      modifies this
      ensures Valid()
      ensures ok ==> status == Ready
      ensures old(status) == Ready ==>
        && ok == fwReady && dataBuf == old(dataBuf)
        && log == old(log) + FwCut(threshold, old(dataBuf).code + old(dataBuf).beyond, |old(dataBuf).code|)
      ensures old(status) != Ready ==>
        && ok == (codeOk && fwReady)
        && dataBuf == (if codeOk then data else old(dataBuf))
        && log == old(log) + FwCut(threshold, boot.code + boot.beyond, |boot.code|)
             + [Fragment(seq(128, _ => 0), false)] + FwCut(threshold, main.code + main.beyond, |main.code|)
             + if codeOk then FwCut(threshold, data.code + data.beyond, |data.code|) else []
    {
      hide FwCut;
      if status != Ready {
        Download(boot);
        ok := CheckReady(Boot, true);
        Download(main);
        ok := CheckReady(Main, codeOk);
        if !ok {
          return;
        }
        dataBuf := data;
      }
      Download(dataBuf);
      ok := CheckReady(Data, fwReady);
    }
  }

  lemma CutUnfold(thr: nat, buf: seq<Byte>)
    requires thr > 0
    ensures Cut(thr, buf) == if |buf| > thr then [Fragment(buf[..thr], false)] + Cut(thr, buf[thr..])
                             else [Fragment(buf, true)]
  {
  }

  // The fragment cut at an offset, and what follows it.
  lemma CutStep(thr: nat, buf: seq<Byte>, at: nat, fs: seq<Fragment>, k: nat)
    requires thr > 0 && at <= |buf| && k < |fs| && Cut(thr, buf[at..]) == fs[k..]
    ensures |buf| - at > thr ==>
      fs[k] == Fragment(buf[at..at + thr], false) && Cut(thr, buf[at + thr..]) == fs[k + 1..]
    ensures |buf| - at <= thr ==> fs[k] == Fragment(buf[at..at + (|buf| - at)], true) && k + 1 == |fs|
    ensures fs[..k + 1] == fs[..k] + [fs[k]]
    ensures k + 1 < |fs| || |buf| - at <= thr
  {
    CutUnfold(thr, buf[at..]);
    hide Cut;
    assert fs[k..][0] == fs[k] && fs[k..][1..] == fs[k + 1..];
    assert |buf| - at > thr ==> buf[at..][..thr] == buf[at..at + thr] && buf[at..][thr..] == buf[at + thr..];
  }

  lemma FwCutUnfold(thr: nat, mem: seq<Byte>, n: nat)
    requires thr > 0 && thr % 4 == 0 && n + 3 <= |mem|
    ensures FwCut(thr, mem, n) == if n > thr then [Fragment(Reversed(mem, thr, 0), false)]
      + FwCut(thr, mem[thr..], n - thr)
                                  else [Fragment(Reversed(mem, n, 0), true)]
  {
    hide Reversed;
  }

  // Sending the first fragment of what is left leaves the rest to be sent.
  lemma FwCutStep(thr: nat, mem: seq<Byte>, n: nat, at: nat, log: seq<Fragment>)
    requires thr > 0 && thr % 4 == 0 && at <= n && n + 3 <= |mem|
    ensures log + FwCut(thr, mem[at..], n - at) ==
      if n - at > thr
      then log + [Fragment(Reversed(mem[at..], thr, 0), false)] + FwCut(thr, mem[at + thr..], n - (at + thr))
      else log + [Fragment(Reversed(mem[at..], n - at, 0), true)]
  {
    FwCutUnfold(thr, mem[at..], n - at);
    hide FwCut, Reversed;
    if n - at > thr {
      assert mem[at..][thr..] == mem[at + thr..];
      Regroup(log, [Fragment(Reversed(mem[at..], thr, 0), false)], FwCut(thr, mem[at + thr..], n - (at + thr)));
    }
  }
}
