/**
 Retry delays as 64-bit nanosecond counts: the float detour of the exponential strategy,
 the cap, the jitter, and where overflow and a panic come in.
 */
module Backoff {
  import opened Domain

  const TWO53 := 9007199254740992
  const TWO63 := 9223372036854775808
  const SECOND := 1000000000
  const HOUR := 3600 * SECOND

  /** What amd64's conversion yields for a float outside the 64-bit range. */
  const AMD64_OUT_OF_RANGE := -TWO63

  function Pow2(n: nat): (p: nat)
    ensures p >= 1
  {
    if n == 0 then 1 else 2 * Pow2(n - 1)
  }

  /** Two's-complement wrap-around. */
  function Wrap64(x: int): (r: int)
    ensures -TWO63 <= r < TWO63
    ensures -TWO63 <= x < TWO63 ==> r == x
  {
    (x + TWO63) % (2 * TWO63) - TWO63
  }

  /** The spacing of doubles around `x`. */
  function Ulp(x: nat): (u: nat)
    ensures u >= 1
  {
    if x < TWO53 then 1 else 2 * Ulp(x / 2)
  }

  function RoundHalfEven(x: nat, unit: nat): int
    requires unit >= 1
  {
    var q, rem := x / unit, x % unit;
    if 2 * rem < unit || (2 * rem == unit && q % 2 == 0) then q * unit else (q + 1) * unit
  }

  /** The double nearest to an integer, as an integer. */
  function ToFloat(x: int): int {
    if x < 0 then -RoundHalfEven(-x, Ulp(-x)) else RoundHalfEven(x, Ulp(x))
  }

  /**
   float64(base) * Pow(2, attempt - 1) converted back. Scaling by a power of two is exact;
   the power is infinite from 2^1024 on, and zero times infinity is not a number.
   */
  function Scaled(base: int, attempt: int, outOfRange: int): int
    requires attempt >= 1
  {
    var product := ToFloat(base) * Pow2(attempt - 1);
    if (base == 0 && attempt > 1024) || product < -TWO63 || TWO63 <= product then outOfRange else product
  }

  function Raw(strategy: string, base: int, attempt: int, outOfRange: int): int
    requires attempt >= 1
  {
    if strategy == "linear" then Wrap64(base * attempt)
    else if strategy == "exponential" then Scaled(base, attempt, outOfRange)
    else base
  }

  function Capped(strategy: string, base: int, maxDelay: int, attempt: int, outOfRange: int): int
    requires attempt >= 1
  {
    var d := Raw(strategy, base, attempt, outOfRange);
    if maxDelay > 0 && d > maxDelay then maxDelay else d
  }

  /** The generator panics when asked for a number below a bound that is not positive. */
  datatype Delay = Delay(ns: int) | Panic

  function Jittered(d: int, jitter: bool, draw: nat): Delay {
    if !jitter || d <= 0 then Delay(d)
    else if d / 2 == 0 then Panic
    else Delay(Wrap64(d + draw % (d / 2)))
  }

  /** The product of the exponential strategy stays a 64-bit number. */
  predicate InRange(base: nat, attempt: int)
    requires attempt >= 1
  {
    base * Pow2(attempt - 1) < TWO63 && (base > 0 || attempt <= 1024)
  }

  /** The policy is a capped doubling, and the attempt is one the arithmetic can still count. */
  predicate Doubles(strategy: string, base: int, maxDelay: int, attempt: int)
    requires attempt >= 1
  {
    strategy == "exponential" && base >= 0 && Representable(base) && InRange(base, attempt) && maxDelay > 0
  }

  /** The delay is `d`, with jitter less than half of it more. */
  predicate BacksOff(r: Delay, d: int, jitter: bool) {
    && (!jitter || d == 0 ==> r == Delay(d))
    && (jitter && 2 <= d && d + d / 2 <= TWO63 ==> r.Delay? && d <= r.ns && 2 * (r.ns - d) < d)
  }

  /** `draw` stands for the random source: any value below the bound can come up. */
  method NextDelay(
    strategy: string, base: int, maxDelay: int, attempt: int, jitter: bool, draw: nat, outOfRange: int)
    returns (r: Delay)
    ensures r == Jittered(Capped(strategy, base, maxDelay, Max(attempt, 1), outOfRange), jitter, draw)
  {
    var n := attempt;
    if n < 1 {
      n := 1;
    }
    var d := base;
    if strategy == "linear" {
      d := Wrap64(base * n);
    } else if strategy == "exponential" {
      d := Scaled(base, n, outOfRange);
    }
    if maxDelay > 0 && d > maxDelay {
      d := maxDelay;
    }
    if jitter && d > 0 {
      if d / 2 == 0 {
        return Panic;
      }
      d := Wrap64(d + draw % (d / 2));
    }
    return Delay(d);
  }

  // ---- powers and products ----

  lemma {:induction false} Pow2Monotone(a: nat, b: nat)
    requires a <= b
    ensures Pow2(a) <= Pow2(b)
    decreases b
  {
    if a < b {
      Pow2Monotone(a, b - 1);
    }
  }

  lemma {:induction false} Pow2Sum(a: nat, b: nat)
    ensures Pow2(a + b) == Pow2(a) * Pow2(b)
  {
    if b > 0 {
      Pow2Sum(a, b - 1);
    }
  }

  lemma Pow2Of30()
    ensures Pow2(30) == 1073741824 && Pow2(31) == 2147483648
  {
    assert Pow2(2) == 4;
    Pow2Sum(2, 2);
    Pow2Sum(4, 4);
    Pow2Sum(8, 8);
    Pow2Sum(16, 8);
    Pow2Sum(24, 4);
    Pow2Sum(28, 2);
  }

  lemma {:induction false} ScaleMonotone(base: nat, a: nat, b: nat)
    requires a <= b
    ensures base * Pow2(a) <= base * Pow2(b)
  {
    Pow2Monotone(a, b);
    MulMonotone(base, Pow2(a), Pow2(b));
  }

  lemma MulMonotone(k: nat, a: nat, b: nat)
    requires a <= b
    ensures k * a <= k * b
  {
  }

  // ---- which integers are doubles ----

  /** The integer is a multiple of the spacing of doubles around it. */
  predicate Representable(base: nat) {
    base % Ulp(base) == 0
  }

  lemma {:induction false} Regroup(q: nat, unit: nat, rem: nat)
    requires 0 <= rem < unit
    ensures (q + 1) * unit != q * unit + rem
    ensures q * unit == q * unit + rem <==> rem == 0
  {
    assert (q + 1) * unit == q * unit + unit;
  }

  /** The conversion to a double keeps a delay exactly when it is one. */
  lemma FloatKeepsExactly(base: nat)
    ensures ToFloat(base) == base <==> Representable(base)
    ensures base < TWO53 ==> Representable(base)
  {
    var unit := Ulp(base);
    assert base == (base / unit) * unit + base % unit;
    Regroup(base / unit, unit, base % unit);
  }

  /** The smallest delay that does not survive: 2^53 + 1 ns, some 104 days. */
  lemma FirstLostDelay()
    ensures !Representable(TWO53 + 1) && ToFloat(TWO53 + 1) == TWO53
  {
    assert Ulp(TWO53 + 1) == 2 * Ulp((TWO53 + 1) / 2) == 2;
  }

  // ---- the conversion is the nearest double ----

  function Distance(a: int, b: int): nat {
    if a < b then b - a else a - b
  }

  /** The spacing leaves 53 bits, and uses them all from 2^53 on. */
  lemma {:induction false} UlpBounds(x: nat)
    ensures x / Ulp(x) < TWO53 && (Ulp(x) > 1 ==> 4503599627370496 <= x / Ulp(x))
    decreases x
  {
    if x >= TWO53 {
      UlpBounds(x / 2);
      HalfAgain(x, Ulp(x / 2));
    }
  }

  lemma HalfAgain(x: nat, u: nat)
    requires u >= 1
    ensures x / (2 * u) == x / 2 / u
  {
    var q, r := x / 2 / u, x / 2 % u;
    assert x / 2 == q * u + r;
    var rest := 2 * r + x % 2;
    assert x == q * (2 * u) + rest && 0 <= rest < 2 * u;
    Quotient(x, 2 * u, q, rest);
  }

  lemma Quotient(x: nat, unit: nat, q: nat, rem: nat)
    requires unit >= 1 && x == q * unit + rem && rem < unit
    ensures x / unit == q
  {
    var p := x / unit;
    assert x == p * unit + x % unit;
    if p != q {
      Apart(unit, Min(p, q), Max(p, q));
    }
  }

  lemma Apart(unit: nat, a: nat, b: nat)
    requires a < b
    ensures a * unit + unit <= b * unit
  {
    MulMonotone(unit, a + 1, b);
    assert (a + 1) * unit == a * unit + unit;
  }

  lemma {:induction false} UlpIsPower(x: nat) returns (k: nat)
    ensures Ulp(x) == Pow2(k)
    decreases x
  {
    if x < TWO53 {
      k := 0;
    } else {
      k := UlpIsPower(x / 2);
      k := k + 1;
    }
  }

  /** The multiples of the unit on both sides of a number. */
  lemma Between(x: nat, unit: nat) returns (low: nat)
    requires unit >= 1
    ensures low == (x / unit) * unit && low + unit == (x / unit + 1) * unit
    ensures x == low + x % unit
    ensures RoundHalfEven(x, unit)
         == if 2 * (x - low) < unit || (2 * (x - low) == unit && x / unit % 2 == 0) then low else low + unit
  {
    low := (x / unit) * unit;
  }

  /** No multiple of the unit is nearer than the rounded one. */
  lemma NearestMultiple(x: nat, unit: nat, n: nat)
    requires unit >= 1
    ensures Distance(x, RoundHalfEven(x, unit)) <= Distance(x, n * unit)
  {
    var low := Between(x, unit);
    if n <= x / unit {
      NoFarther(unit, n, x / unit);
      assert n * unit <= low;
    } else {
      NoFarther(unit, x / unit + 1, n);
      assert low + unit <= n * unit;
    }
  }

  lemma NoFarther(unit: nat, a: nat, b: nat)
    requires a <= b
    ensures a * unit <= b * unit
  {
  }

  /** Rounding goes at most half a unit, and to an even multiple if it goes that far. */
  lemma RoundsHalfEven(x: nat, unit: nat) returns (c: nat)
    requires unit >= 1
    ensures RoundHalfEven(x, unit) == c * unit && c <= x / unit + 1
    ensures 2 * Distance(x, c * unit) <= unit
    ensures 2 * Distance(x, c * unit) == unit ==> c % 2 == 0
  {
    var low := Between(x, unit);
    var gap := 2 * (x - low);
    c := if gap < unit || (gap == unit && x / unit % 2 == 0) then x / unit else x / unit + 1;
  }

  /** The converted number is a 53-bit number times a power of two, an even one in case of a tie. */
  lemma FloatIsDouble(x: nat) returns (c: nat, k: nat)
    ensures ToFloat(x) == c * Pow2(k) && c <= TWO53
    ensures 2 * Distance(x, ToFloat(x)) <= Pow2(k)
    ensures 2 * Distance(x, ToFloat(x)) == Pow2(k) ==> c % 2 == 0
    ensures ToFloat(0 - x) == 0 - ToFloat(x)
  {
    k := UlpIsPower(x);
    UlpBounds(x);
    c := RoundsHalfEven(x, Ulp(x));
  }

  /** And no other such number is nearer. */
  lemma FloatIsNearest(x: nat, m: nat, e: nat)
    requires m <= TWO53
    ensures Distance(x, ToFloat(x)) <= Distance(x, m * Pow2(e))
  {
    var k := UlpIsPower(x);
    if k <= e {
      var n := CoarserIsMultiple(m, e, k);
      NearestMultiple(x, Ulp(x), n);
    } else {
      FinerIsLower(m, e, k);
      UlpBounds(x);
      LowerIsFarther(x, Ulp(x), m * Pow2(e));
    }
  }

  lemma CoarserIsMultiple(m: nat, e: nat, k: nat) returns (n: nat)
    requires k <= e
    ensures m * Pow2(e) == n * Pow2(k)
  {
    n := m * Pow2(e - k);
    Pow2Sum(e - k, k);
    assert m * (Pow2(e - k) * Pow2(k)) == n * Pow2(k);
  }

  lemma LowerIsFarther(x: nat, unit: nat, y: nat)
    requires unit >= 1 && 4503599627370496 <= x / unit && y <= 4503599627370496 * unit
    ensures Distance(x, RoundHalfEven(x, unit)) <= Distance(x, y)
  {
    var q := x / unit;
    NearestMultiple(x, unit, q);
    MulMonotone(unit, 4503599627370496, q);
    assert x == q * unit + x % unit;
  }

  lemma FinerIsLower(m: nat, e: nat, k: nat)
    requires m <= TWO53 && e < k
    ensures m * Pow2(e) <= 4503599627370496 * Pow2(k) && Pow2(k) > 1
  {
    Pow2Sum(k - 1 - e, e);
    MulMonotone(Pow2(e), 1, Pow2(k - 1 - e));
    MulMonotone(Pow2(e), m, TWO53);
    assert Pow2(k) == 2 * Pow2(k - 1);
  }

  // ---- exactness ----

  /** Inside the range the exponential delay is exactly the capped doubling. */
  lemma {:induction false} ExponentialExact(base: nat, maxDelay: int, attempt: int, outOfRange: int)
    requires Representable(base) && attempt >= 1 && maxDelay > 0 && InRange(base, attempt)
    ensures Capped("exponential", base, maxDelay, attempt, outOfRange)
         == Min(base * Pow2(attempt - 1), maxDelay)
  {
    FloatKeepsExactly(base);
  }

  lemma ScaledDiffers(a: nat, b: nat, p: nat)
    requires a != b && p >= 1
    ensures a * p != b * p && Min(a, b) * p == Min(a * p, b * p)
  {
    if a < b {
      assert b * p == a * p + (b - a) * p;
      assert (b - a) * p >= p by { MulMonotone(p, 1, b - a); }
    } else {
      assert a * p == b * p + (a - b) * p;
      assert (a - b) * p >= p by { MulMonotone(p, 1, a - b); }
    }
  }

  lemma FloatNotNegative(base: nat, attempt: int)
    requires attempt >= 1
    ensures ToFloat(base) >= 0 && ToFloat(base) * Pow2(attempt - 1) >= 0
  {
    MulMonotone(Pow2(attempt - 1), 0, ToFloat(base));
  }

  lemma {:induction false} CappedScaled(base: nat, maxDelay: int, attempt: int, outOfRange: int, product: nat)
    requires attempt >= 1 && maxDelay > 0 && product == ToFloat(base) * Pow2(attempt - 1)
    ensures Capped("exponential", base, maxDelay, attempt, outOfRange)
         == Min(if (base > 0 || attempt <= 1024) && product < TWO63 then product else outOfRange, maxDelay)
  {
    assert Scaled(base, attempt, outOfRange)
        == if (base > 0 || attempt <= 1024) && product < TWO63 then product else outOfRange;
  }

  /**
   On amd64 the documented formula holds exactly as long as the converted product fits 64
   bits and the base either is a double or lands above the cap with or without rounding.
   */
  lemma {:induction false} ExponentialExactly(base: nat, maxDelay: int, attempt: int)
    requires attempt >= 1 && 0 < maxDelay < TWO63
    ensures ToFloat(base) >= 0
    ensures Capped("exponential", base, maxDelay, attempt, AMD64_OUT_OF_RANGE)
         == Min(base * Pow2(attempt - 1), maxDelay)
       <==> && ToFloat(base) * Pow2(attempt - 1) < TWO63 && (base > 0 || attempt <= 1024)
            && (Representable(base) || maxDelay <= Min(base, ToFloat(base)) * Pow2(attempt - 1))
  {
    FloatKeepsExactly(base);
    FloatNotNegative(base, attempt);
    CappedScaled(base, maxDelay, attempt, AMD64_OUT_OF_RANGE, ToFloat(base) * Pow2(attempt - 1));
    if ToFloat(base) != base {
      ScaledDiffers(base, ToFloat(base), Pow2(attempt - 1));
    }
  }

  /** A base of zero is the whole delay up to attempt 1024; then the product is not a number. */
  lemma ZeroBaseExactly(maxDelay: int, attempt: int)
    requires attempt >= 1 && maxDelay > 0
    ensures Capped("exponential", 0, maxDelay, attempt, AMD64_OUT_OF_RANGE) == 0 <==> attempt <= 1024
  {
    FloatKeepsExactly(0);
  }

  /** A conversion that saturates instead keeps the formula for every attempt, unless the base is zero. */
  lemma SaturationIsExact(base: nat, maxDelay: int, attempt: int)
    requires Representable(base) && attempt >= 1 && 0 < maxDelay < TWO63
    ensures Capped("exponential", base, maxDelay, attempt, TWO63 - 1)
         == Min(base * Pow2(attempt - 1), maxDelay)
       <==> base > 0 || attempt <= 1024
  {
    FloatKeepsExactly(base);
  }

  /** The linear delay is the capped product exactly while it fits 64 bits, or if it wraps past the cap. */
  lemma LinearExactly(base: nat, maxDelay: int, attempt: int, outOfRange: int)
    requires attempt >= 1 && 0 < maxDelay < TWO63
    ensures Capped("linear", base, maxDelay, attempt, outOfRange) == Min(base * attempt, maxDelay)
       <==> base * attempt < TWO63 || maxDelay <= Wrap64(base * attempt)
  {
    CappedLinear(base, maxDelay, attempt, outOfRange, base * attempt);
  }

  lemma CappedLinear(base: nat, maxDelay: int, attempt: int, outOfRange: int, product: nat)
    requires attempt >= 1 && maxDelay > 0 && product == base * attempt
    ensures Capped("linear", base, maxDelay, attempt, outOfRange) == Min(Wrap64(product), maxDelay)
  {
  }

  /** Every other strategy is a fixed delay. */
  lemma FixedIsBase(strategy: string, base: int, maxDelay: int, attempt: int, outOfRange: int)
    requires attempt >= 1 && strategy != "linear" && strategy != "exponential"
    ensures Capped(strategy, base, maxDelay, attempt, outOfRange) == if maxDelay > 0 then Min(base, maxDelay) else base
  {
  }

  /** With the engine's default policy, amd64 retries with no delay at all from attempt 32 on. */
  lemma DefaultsOverflow(attempt: int, draw: nat)
    requires attempt >= 1
    ensures Jittered(Capped("exponential", 5 * SECOND, HOUR, attempt, AMD64_OUT_OF_RANGE), true, draw)
         == Delay(AMD64_OUT_OF_RANGE)
       <==> attempt >= 32
  {
    var base := 5 * SECOND;
    FloatKeepsExactly(base);
    Pow2Of30();
    if attempt >= 32 {
      ScaleMonotone(base, 31, attempt - 1);
    } else {
      ScaleMonotone(base, attempt - 1, 30);
      assert base * Pow2(attempt - 1) >= base;
      var d := Capped("exponential", base, HOUR, attempt, AMD64_OUT_OF_RANGE);
      assert 0 < d <= HOUR;
      JitterBounds(d, draw);
    }
  }

  /** Delays never shrink from one attempt to the next, and stay at the cap once there. */
  lemma ExponentialMonotone(base: nat, maxDelay: int, a: int, b: int, outOfRange: int)
    requires Representable(base) && 1 <= a <= b && maxDelay > 0 && InRange(base, b)
    ensures Capped("exponential", base, maxDelay, a, outOfRange)
         <= Capped("exponential", base, maxDelay, b, outOfRange) <= maxDelay
    ensures Capped("exponential", base, maxDelay, a, outOfRange) == maxDelay ==>
              Capped("exponential", base, maxDelay, b, outOfRange) == maxDelay
  {
    ScaleMonotone(base, a - 1, b - 1);
    ExponentialExact(base, maxDelay, a, outOfRange);
    ExponentialExact(base, maxDelay, b, outOfRange);
  }

  // ---- jitter ----

  /** Jitter panics exactly on a delay of one nanosecond. */
  lemma PanicsExactly(d: int, jitter: bool, draw: nat)
    ensures Jittered(d, jitter, draw).Panic? <==> jitter && d == 1
  {
  }

  /** Otherwise it adds less than half the delay, as long as the sum fits. */
  lemma JitterBounds(d: int, draw: nat)
    requires 2 <= d && d + d / 2 <= TWO63
    ensures Jittered(d, true, draw).Delay?
    ensures d <= Jittered(d, true, draw).ns && 2 * (Jittered(d, true, draw).ns - d) < d
  {
  }

  /** The delay survives jitter exactly when the sum does not wrap around. */
  lemma JitterKeepsDelayExactly(d: int, draw: nat)
    requires 2 <= d < TWO63
    ensures d <= Jittered(d, true, draw).ns <==> d + draw % (d / 2) < TWO63
  {
    var sum := d + draw % (d / 2);
    if sum >= TWO63 {
      assert Wrap64(sum) == sum - 2 * TWO63 by {
        assert sum + TWO63 == (sum - TWO63) + 1 * (2 * TWO63);
        assert 0 <= sum - TWO63 < 2 * TWO63;
      }
    }
  }

  /** What a caller can count on, whatever is drawn. */
  lemma {:induction false} DelayBounds(
    strategy: string, base: int, maxDelay: int, attempt: int, jitter: bool, draw: nat, outOfRange: int)
    requires attempt >= 1
    ensures var d := Capped(strategy, base, maxDelay, attempt, outOfRange);
            var r := Jittered(d, jitter, draw);
            && (r.Panic? <==> jitter && d == 1)
            && (!jitter && maxDelay > 0 ==> r.Delay? && r.ns <= maxDelay)
            && (Doubles(strategy, base, maxDelay, attempt) ==>
                  BacksOff(r, Min(base * Pow2(attempt - 1), maxDelay), jitter))
  {
    if Doubles(strategy, base, maxDelay, attempt) {
      ExponentialExact(base, maxDelay, attempt, outOfRange);
      var d := Min(base * Pow2(attempt - 1), maxDelay);
      if 2 <= d && d + d / 2 <= TWO63 {
        JitterBounds(d, draw);
      }
    }
  }

  // ---- the whole series of retries ----

  /** The capped delays of attempts 1 to n, summed. */
  function CappedSum(base: nat, maxDelay: int, n: nat): int {
    if n == 0 then 0 else CappedSum(base, maxDelay, n - 1) + Min(base * Pow2(n - 1), maxDelay)
  }

  lemma Doubled(base: nat, p: nat)
    ensures base * (2 * p - 1) == base * (p - 1) + base * p
  {
  }

  lemma {:induction false} CappedSumBound(base: nat, maxDelay: int, n: nat)
    ensures CappedSum(base, maxDelay, n) <= base * (Pow2(n) - 1)
  {
    if n > 0 {
      CappedSumBound(base, maxDelay, n - 1);
      Doubled(base, Pow2(n - 1));
    }
  }

  lemma {:induction false} CappedSumByCap(base: nat, maxDelay: int, n: nat)
    ensures CappedSum(base, maxDelay, n) <= n * maxDelay
  {
    if n > 0 {
      CappedSumByCap(base, maxDelay, n - 1);
    }
  }
}
