/** Bytes, words and the few arithmetic facts several modules need. */
module Basics {

  datatype Option<T> = None | Some(value: T)

  type Byte = n: nat | n < 0x100
  type Word = n: nat | n < 0x1_0000

  // Quotient and remainder are the only numbers with their property.
  lemma DivMod(d: int, q: int, r: int, w: int)
    requires d > 0 && 0 <= r < d && w == d * q + r
    ensures w / d == q && w % d == r
  {
    var k := w / d - q;
    assert d * k == r - w % d;
    assert k >= 1 ==> d * k >= d;
    assert k <= -1 ==> d * k <= -d;
  }

  lemma Regroup<T>(a: seq<T>, b: seq<T>, c: seq<T>)
    ensures a + b + c == a + (b + c)
  {
  }
}
