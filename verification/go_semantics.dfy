/** Go's fixed-width integer arithmetic, made explicit on Dafny's unbounded `int`. */
module GoInt {

  const MinInt64: int := -0x8000_0000_0000_0000
  const MaxInt64: int := 0x7fff_ffff_ffff_ffff
  const TwoTo64: int := 0x1_0000_0000_0000_0000

  /** Fits in a Go `int64` (also `int` and `time.Duration` on 64-bit platforms). */
  predicate IsInt64(x: int) {
    MinInt64 <= x <= MaxInt64
  }

  /** Go's `byte` (`uint8`). */
  type Byte = x: int | 0 <= x < 256
  type Bytes = seq<Byte>

  function Abs(x: int): nat {
    if x < 0 then -x else x
  }

  /** Go's `a / b` for a positive divisor: the quotient truncated toward zero
      (Dafny's `/` is Euclidean). */
  function Quo(a: int, b: int): (q: int)
    requires b > 0
    ensures Abs(q * b) <= Abs(a) < Abs(q * b) + b
    ensures q * b == 0 || (q * b < 0 <==> a < 0)
  {
    var q0 := Abs(a) / b;
    EuclideanBracket(Abs(a), b);
    if a < 0 then
      assert -q0 * b == -(q0 * b);
      -q0
    else
      q0
  }

  /** `a / b` brackets `a` between two consecutive multiples of `b`. */
  lemma EuclideanBracket(a: int, b: int)
    requires b > 0
    ensures (a / b) * b <= a < (a / b) * b + b
  {
  }

  /** The result of a 64-bit two's-complement operation whose exact value is `x`. */
  function WrapInt64(x: int): (r: int)
    ensures IsInt64(r)
    ensures (x - r) % TwoTo64 == 0
    ensures IsInt64(x) ==> r == x
  {
    var m := (x - MinInt64) % TwoTo64;
    assert x - (m + MinInt64) == ((x - MinInt64) / TwoTo64) * TwoTo64;
    m + MinInt64
  }

  /** Truncation and Euclidean division agree on non-negative dividends and
      differ by one on negative dividends that the divisor does not divide. */
  lemma QuoVersusEuclidean(a: int, b: int)
    requires b > 0
    ensures a >= 0 ==> Quo(a, b) == a / b
    ensures a < 0 && a % b != 0 ==> Quo(a, b) == a / b + 1
    ensures a < 0 && a % b == 0 ==> Quo(a, b) == a / b
  {
    var q := Quo(a, b);
    EuclideanBracket(a, b);
    if a < 0 {
      assert (a / b) * b <= a < (a / b) * b + b;
      assert q * b - b < a <= q * b;
      MultiplesBetween(q, a / b, b);
      if a % b != 0 {
        assert a != q * b;
      }
    } else {
      assert q * b <= a < q * b + b;
      MultiplesBetween(q, a / b, b);
    }
  }

  /** Two multiples of `b` less than `b` apart are equal; one apart by less than `2b` differ by one step. */
  lemma MultiplesBetween(x: int, y: int, b: int)
    requires b > 0
    ensures -b < x * b - y * b < b ==> x == y
    ensures 0 < x * b - y * b < 2 * b ==> x == y + 1
  {
    var k := x - y;
    assert x * b - y * b == k * b;
    if k >= 2 {
      StepBound(k - 2, b);
      assert k * b == (k - 2) * b + 2 * b;
    } else if k <= -1 {
      StepBound(-k - 1, b);
      assert k * b == -((-k - 1) * b) - b;
    }
  }

  lemma StepBound(n: nat, b: int)
    requires b > 0
    ensures n * b >= 0
  {
  }
}

/** `time.Time` and `time.Duration` as integer nanoseconds on one absolute time line. */
module GoTime {
  import opened GoInt

  /** An instant, in nanoseconds since an arbitrary fixed epoch. */
  type Time = int

  const Nanosecond: int := 1
  const Second: int := 1_000_000_000 * Nanosecond
  const Hour: int := 3600 * Second
  /** `AddDate(0, 0, 1)` in UTC, where every day has 24 hours. */
  const Day: int := 24 * Hour

  /** `t.Sub(u)`: the duration `t - u`, saturated to the `time.Duration` (int64) range. */
  function Sub(t: Time, u: Time): (d: int)
    ensures IsInt64(d)
    ensures IsInt64(t - u) ==> d == t - u
    ensures d < 0 <==> t < u
    ensures Abs(d) <= Abs(t - u)
    ensures t - u > MaxInt64 ==> d == MaxInt64
    ensures t - u < MinInt64 ==> d == MinInt64
  {
    var exact := t - u;
    if exact < MinInt64 then MinInt64
    else if exact > MaxInt64 then MaxInt64
    else exact
  }

  /** `t.After(u)`. */
  predicate After(t: Time, u: Time) {
    t > u
  }
}
