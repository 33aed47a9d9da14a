/**
 * The C/C++ numeric conversions the steering controller relies on, stated
 * over mathematical reals and integers: the `(int)` cast of a floating-point
 * value (truncation toward zero), `round` (nearest integer, halfway cases away
 * from zero) and integer `abs`.
 */
module CMath {

  /** `(int) x`: drop the fractional part, rounding toward zero. */
  function Trunc(x: real): (r: int)
    ensures 0.0 <= x ==> 0 <= r && r as real <= x < r as real + 1.0
    ensures x < 0.0 ==> r <= 0 && r as real - 1.0 < x <= r as real
  {
    if 0.0 <= x then x.Floor else -((-x).Floor)
  }

  /** `round(x)`: the nearest integer; a value exactly halfway between two
      integers goes to the one farther from zero. */
  function Round(x: real): (r: int)
    ensures x - 0.5 <= r as real <= x + 0.5
    ensures 0.0 <= x ==> 0 <= r && x - 0.5 < r as real
    ensures x <= 0.0 ==> r <= 0 && r as real < x + 0.5
  {
    if 0.0 <= x then (x + 0.5).Floor else -((-x + 0.5).Floor)
  }

  /** Integer `abs`. */
  function Abs(n: int): (r: nat)
    ensures r == n || r == -n
  {
    if n < 0 then -n else n
  }

  function Min(a: int, b: int): (r: int)
    ensures r <= a && r <= b && (r == a || r == b)
  {
    if a <= b then a else b
  }

  /** The cast is the identity on values that are already integers. */
  lemma TruncOfInt(n: int)
    ensures Trunc(n as real) == n
  {
  }

  /** `|(int) x| < k` holds exactly when `x` lies strictly between `-k` and `k`:
      truncation cannot move a value across an integer threshold. */
  lemma {:induction false} TruncAbsBelowIff(x: real, k: nat)
    ensures Abs(Trunc(x)) < k <==> -(k as real) < x < k as real
  {
    var t := Trunc(x);
    if 0.0 <= x {
      assert Abs(t) == t;
      if t < k {
        assert (t + 1) as real <= k as real;
      } else {
        assert k as real <= t as real;
      }
    } else {
      assert Abs(t) == -t;
      if -t < k {
        assert -(k as real) <= (t - 1) as real;
      } else {
        assert t as real <= -(k as real);
      }
    }
  }

  /** Rounding a value whose magnitude is at least `k` (an integer) gives an
      integer whose magnitude is at least `k`. */
  lemma RoundKeepsMagnitude(x: real, k: nat)
    ensures k as real <= x || x <= -(k as real) ==> k <= Abs(Round(x))
  {
  }

  /** Rounding is symmetric about zero, so `abs(round(x)) == round(|x|)`. */
  lemma RoundOdd(x: real)
    ensures Round(-x) == -Round(x)
  {
  }
}
