/** Facts about Euclidean division that the decoders' rollover and byte-packing proofs share. */
module Arithmetic {
  /** Euclidean division of `span * k + rem` by `span` leaves `rem`. */
  lemma {:induction false} MultiplePlusRemainder(k: int, span: int, rem: int)
    requires 0 <= rem < span
    ensures (span * k + rem) % span == rem
  {
    var n := span * k + rem;
    var q, m := n / span, n % span;
    assert n == span * q + m;
    assert span * (q - k) == rem - m;
    ZeroMultiple(span, q - k, rem - m);
  }

  /** The only multiple of `span` strictly between `-span` and `span` is 0. */
  lemma {:induction false} ZeroMultiple(span: int, d: int, x: int)
    requires span > 0 && -span < x < span && span * d == x
    ensures d == 0
  {
    if d > 0 {
      MulAtLeast(span, d);
    } else if d < 0 {
      MulAtLeast(span, -d);
    }
  }

  lemma {:induction false} MulAtLeast(a: int, b: int)
    requires a >= 0 && b >= 1
    ensures a * b >= a
    decreases b
  {
    if b > 1 {
      MulAtLeast(a, b - 1);
      assert a * b == a * (b - 1) + a;
    }
  }

  /** Adding a multiple of `m` does not change the remainder modulo `m`. */
  lemma {:induction false} ModShift(x: int, j: int, m: int)
    requires m > 0
    ensures (x + m * j) % m == x % m
  {
    var q := x / m;
    assert x + m * j == m * (q + j) + x % m;
    MultiplePlusRemainder(q + j, m, x % m);
  }
}
