/**
 The JavaScript number operations the slide-tuning controller relies on, over
 unbounded integers: division rounded toward zero and the ToInt32 conversion
 that the bitwise `| 0` applies to its operand.
 */
module JsNumber {

  const TwoTo31: int := 0x8000_0000
  const TwoTo32: int := 0x1_0000_0000

  function Abs(n: int): nat {
    if n < 0 then -n else n
  }

  /** The quotient n / d with its fraction discarded toward zero (not toward minus infinity). */
  function TruncDiv(n: int, d: int): (q: int)
    requires d > 0
    ensures n >= 0 ==> q >= 0
    ensures n <= 0 ==> q <= 0
    ensures Abs(q) * d <= Abs(n) < (Abs(q) + 1) * d
  {
    var m := Abs(n);
    DivBounds(m, d);
    if n >= 0 then m / d else -(m / d)
  }

  /** Euclidean division of a natural number, in the form the bounds above use. */
  lemma DivBounds(m: nat, d: int)
    requires d > 0
    ensures m / d >= 0
    ensures (m / d) * d <= m < (m / d + 1) * d
  {
    var q, r := m / d, m % d;
    assert m == q * d + r && 0 <= r < d;
    assert (q + 1) * d == q * d + d;
  }

  lemma MulMonotone(a: nat, b: nat, d: int)
    requires a < b && d > 0
    ensures (a + 1) * d <= b * d
  {
    assert b * d - (a + 1) * d == (b - a - 1) * d;
  }

  /** ToInt32 of an integral number: reduced modulo 2^32 into the signed 32-bit range. */
  function ToInt32(n: int): (r: int)
    ensures -TwoTo31 <= r < TwoTo31
    ensures -TwoTo31 <= n < TwoTo31 ==> r == n
  {
    var m := n % TwoTo32;
    if m >= TwoTo31 then m - TwoTo32 else m
  }

  /** ToInt32 changes its operand by a whole number of 2^32 steps: it wraps around, it does not saturate. */
  lemma ToInt32Wraps(n: int)
    ensures (n - ToInt32(n)) % TwoTo32 == 0
    ensures ToInt32(n + TwoTo32) == ToInt32(n)
  {
    assert (n + TwoTo32) % TwoTo32 == n % TwoTo32;
  }

  /** Truncating division is determined by its sign and bounds: any q meeting them is TruncDiv(n, d). */
  lemma TruncDivUnique(n: int, d: int, q: int)
    requires d > 0
    requires (n >= 0 ==> q >= 0) && (n <= 0 ==> q <= 0)
    requires Abs(q) * d <= Abs(n) < (Abs(q) + 1) * d
    ensures q == TruncDiv(n, d)
  {
    var t := TruncDiv(n, d);
    if Abs(q) < Abs(t) {
      MulMonotone(Abs(q), Abs(t), d);
    } else if Abs(t) < Abs(q) {
      MulMonotone(Abs(t), Abs(q), d);
    }
  }
}
