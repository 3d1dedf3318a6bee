/** 12-bit sequence numbers of 802.11 and the half-range comparison of the driver. */
module SequenceNumbers {

  const SEQ_MOD := 4096

  // 0xffff marks "no sequence number yet" in the 16-bit fields of a receive stream.
  const NO_SEQ := 0xffff

  type SeqNum = n: nat | n < SEQ_MOD

  // SN_LESS(a, b): bit 11 of the C difference a - b (an int, so it may be negative).
  // Floor division by 2048 moves that bit to the bottom in two's complement.
  predicate SnLess(a: int, b: int) {
    (a - b) / 2048 % 2 == 1
  }

  predicate SnEqual(a: int, b: int) {
    a == b
  }

  // The number nearest to `base` that is congruent to `sn`: what a receiver that has
  // reached `base` takes the 12 bits `sn` to stand for.
  function Nearest(base: int, sn: SeqNum): (t: int)
    ensures t % SEQ_MOD == sn
    ensures base - 2048 <= t < base + 2048
  {
    var ahead := (sn - base) % SEQ_MOD;
    if ahead < 2048 then base + ahead else base + ahead - SEQ_MOD
  }

  // Within half of the number space the 12-bit comparison is the comparison of the
  // unbounded numbers.
  lemma SnLessIsLess(t: int, u: int)
    requires -2048 <= t - u < 2048
    ensures SnLess(t % SEQ_MOD, u % SEQ_MOD) <==> t < u
    ensures SnEqual(t % SEQ_MOD, u % SEQ_MOD) <==> t == u
  {
    var d := t % SEQ_MOD - u % SEQ_MOD;
    var k := u / SEQ_MOD - t / SEQ_MOD;
    assert d == t - u + SEQ_MOD * k;
    assert -1 <= k <= 1;
  }

  lemma NearestIsUnique(base: int, sn: SeqNum, t: int)
    requires t % SEQ_MOD == sn
    requires base - 2048 <= t < base + 2048
    ensures t == Nearest(base, sn)
  {
    var n := Nearest(base, sn);
    assert (t - n) % SEQ_MOD == 0 && -SEQ_MOD < t - n < SEQ_MOD;
  }

  lemma NextModulo(u: int)
    ensures (u + 1) % SEQ_MOD == (u % SEQ_MOD + 1) % SEQ_MOD
  {
  }

  lemma ShiftModulo(m: int, i: int)
    ensures (m % SEQ_MOD + i) % SEQ_MOD == (m + i) % SEQ_MOD
  {
  }

  lemma DifferModulo(a: int, b: int)
    requires 0 < a - b < SEQ_MOD
    ensures a % SEQ_MOD != b % SEQ_MOD
  {
  }
}
