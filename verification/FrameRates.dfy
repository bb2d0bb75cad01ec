/** The exact frame rate behind a frame duration that was rounded to whole nanoseconds. */
module FrameRates {
  import opened Wrappers
  import opened Bytes

  const NS: nat := 1_000_000_000

  datatype Rational = Rational(num: nat, den: nat)

  /** The duration of a frame at `num / den` per second, in nanoseconds, halves rounded up. */
  function Duration(num: nat, den: nat): nat
    requires num > 0
  {
    (NS * den + num / 2) / num
  }

  /** The numerator over `den` that comes closest to a duration. */
  function RateOver(ns: nat, den: nat): nat
    requires ns > 0
  {
    (NS * den + ns / 2) / ns
  }

  /** That numerator has the duration asked for. */
  predicate RoundsBack(ns: nat, den: nat)
    requires ns > 0
  {
    RateOver(ns, den) > 0 && Duration(RateOver(ns, den), den) == ns
  }

  function Gcd(a: nat, b: nat): (g: nat)
    requires a > 0
    ensures g > 0
    decreases b
  {
    if b == 0 then a else Gcd(b, a % b)
  }

  function Quotient(a: nat, b: nat): nat
    requires b > 0
  {
    a / b
  }

  function FrameRate(ns: nat): Option<Rational> {
    if ns == 0 then None
    else if RoundsBack(ns, 1) then Some(Rational(RateOver(ns, 1), 1))
    else if RoundsBack(ns, 1001) then Some(Rational(RateOver(ns, 1001), 1001))
    else
      var g := Gcd(NS, ns);
      if Quotient(ns, g) < TWO_TO_THE_63 then Some(Rational(Quotient(NS, g), Quotient(ns, g))) else None
  }

  method FrameRateFromDefaultDuration(ns: nat) returns (r: Option<Rational>)
    requires ns < TWO_TO_THE_64
    ensures r == FrameRate(ns)
  {
    if ns == 0 {
      return None;
    }
    var dens := [1, 1001];
    for i := 0 to 2
      invariant i >= 1 ==> !RoundsBack(ns, 1)
      invariant i >= 2 ==> !RoundsBack(ns, 1001)
    {
      var den := dens[i];
      var num := (NS * den + ns / 2) / ns;
      assert num == RateOver(ns, den);
      if num != 0 {
        var back := (NS * den + num / 2) / num;
        assert back == Duration(num, den);
        if back == ns {
          return Some(Rational(num, den));
        }
      }
    }
    var a, b := NS, ns;
    while b != 0
      invariant a > 0 && Gcd(a, b) == Gcd(NS, ns)
      decreases b
    {
      a, b := b, a % b;
    }
    GcdDivides(NS, ns);
    var num, den := Quotient(NS, a), Quotient(ns, a);
    if num >= TWO_TO_THE_63 || den >= TWO_TO_THE_63 {
      QuotientIsSmaller(NS, a);
      return None;
    }
    return Some(Rational(num, den));
  }

  lemma QuotientIsSmaller(n: nat, d: nat)
    requires d > 0
    ensures Quotient(n, d) <= n
  {
    if n / d > n {
      MulMonotone(1, d, n / d);
      DivBounds(n, d);
    }
  }

  // ----- division -----

  lemma DivBounds(a: nat, b: nat)
    requires b > 0
    ensures b * (a / b) <= a < b * (a / b) + b
  {
  }

  lemma DivIs(a: nat, b: nat, q: nat)
    requires b > 0 && b * q <= a < b * q + b
    ensures a / b == q
  {
    DivUnique(a, b, q, a - b * q);
  }

  // ----- lowest terms -----

  predicate Divides(d: nat, n: nat) {
    d > 0 && n % d == 0
  }

  lemma DividesIs(d: nat, n: nat, k: nat)
    requires d > 0 && n == d * k
    ensures Divides(d, n) && n / d == k
  {
    DivUnique(n, d, k, 0);
  }

  lemma DividesSum(d: nat, a: nat, b: nat, k: nat)
    requires Divides(d, a) && Divides(d, b)
    ensures Divides(d, a * k + b)
  {
    var x, y := a / d, b / d;
    assert a == d * x && b == d * y;
    assert a * k + b == d * (x * k + y) by {
      MulThree(d, x, k);
    }
    DividesIs(d, a * k + b, x * k + y);
  }

  lemma MulThree(d: nat, x: nat, k: nat)
    ensures d * x * k == d * (x * k)
  {
  }

  lemma DividesRest(d: nat, a: nat, b: nat)
    requires b > 0 && Divides(d, a) && Divides(d, b)
    ensures Divides(d, a % b)
  {
    var x, y, q := a / d, b / d, a / b;
    assert a == d * x && b == d * y && a == b * q + a % b;
    assert b * q == d * (y * q) by {
      MulThree(d, y, q);
    }
    MulMinus(d, x, y * q);
    if x < y * q {
      MulMonotone(x + 1, y * q, d);
    }
    DividesIs(d, a % b, x - y * q);
  }

  lemma MulMinus(d: nat, x: int, y: int)
    ensures d * x - d * y == d * (x - y)
  {
  }

  lemma {:induction false} GcdDivides(a: nat, b: nat)
    requires a > 0
    ensures Divides(Gcd(a, b), a) && Divides(Gcd(a, b), b)
    decreases b
  {
    if b > 0 {
      GcdDivides(b, a % b);
      var g := Gcd(a, b);
      DividesSum(g, b, a % b, a / b);
      assert b * (a / b) + a % b == a;
    }
  }

  lemma {:induction false} GcdIsGreatest(a: nat, b: nat, d: nat)
    requires a > 0 && Divides(d, a) && Divides(d, b)
    ensures Divides(d, Gcd(a, b))
    decreases b
  {
    if b > 0 {
      DividesRest(d, a, b);
      GcdIsGreatest(b, a % b, d);
    }
  }

  ghost predicate LowestTerms(r: Rational) {
    forall d: nat :: Divides(d, r.num) && Divides(d, r.den) ==> d == 1
  }

  lemma ReducedIsLowest(a: nat, b: nat)
    requires a > 0
    ensures var g := Gcd(a, b);
            LowestTerms(Rational(Quotient(a, g), Quotient(b, g))) && a == g * Quotient(a, g) && b == g * Quotient(b, g)
  {
    var g := Gcd(a, b);
    GcdDivides(a, b);
    var x, y := Quotient(a, g), Quotient(b, g);
    assert a == g * x && b == g * y;
    forall d: nat | Divides(d, x) && Divides(d, y)
      ensures d == 1
    {
      ScaledDivides(d, x, g);
      ScaledDivides(d, y, g);
      GcdIsGreatest(a, b, g * d);
      OnlyOne(g, d);
    }
  }

  lemma ScaledDivides(d: nat, x: nat, g: nat)
    requires Divides(d, x) && g > 0
    ensures Divides(g * d, g * x)
  {
    var k := x / d;
    assert x == d * k;
    MulThree(g, d, k);
    MulMonotone(1, g, d);
    DividesIs(g * d, g * x, k);
  }

  lemma OnlyOne(g: nat, d: nat)
    requires g > 0 && d > 0 && Divides(g * d, g)
    ensures d == 1
  {
    var k := g / (g * d);
    assert g == g * d * k;
    assert k >= 1;
    MulMonotone(1, k, g * d);
    if d >= 2 {
      MulMonotone(2, d, g);
    }
  }

  // ----- what the rate is -----

  /** What the fallback returns is exact. */
  lemma FallbackIsExact(ns: nat)
    requires ns > 0
    ensures var g := Gcd(NS, ns); Quotient(NS, g) * ns == NS * Quotient(ns, g)
  {
    hide LowestTerms;
    ReducedIsLowest(NS, ns);
    var g := Gcd(NS, ns);
    var x, y := Quotient(NS, g), Quotient(ns, g);
    MulThree(x, g, y);
    MulThree(g, x, y);
  }

  /**
   * A rate over 1 or 1001 has a duration that rounds to the stated one; any other result is the
   * exact quotient in lowest terms; and there is none only for 0 and where the denominator
   * overflows.
   */
  lemma RateIsExact(ns: nat)
    ensures FrameRate(ns).None? <==>
              ns == 0 || (!RoundsBack(ns, 1) && !RoundsBack(ns, 1001) && Quotient(ns, Gcd(NS, ns)) >= TWO_TO_THE_63)
    ensures FrameRate(ns).Some? ==>
              var r := FrameRate(ns).value;
              || (r.den in {1, 1001} && r.num > 0 && Duration(r.num, r.den) == ns)
              || (r.num * ns == NS * r.den && LowestTerms(r))
  {
    hide Gcd, Duration, RateOver, LowestTerms;
    if ns > 0 {
      ReducedIsLowest(NS, ns);
      FallbackIsExact(ns);
    }
  }

  /** The closest numerator to a rounded duration is the one it came from, if it is not above the duration. */
  lemma NumeratorReturns(n: nat, den: nat, ns: nat)
    requires 0 < n <= ns && ns == Duration(n, den)
    ensures RateOver(ns, den) == n
  {
    var total := NS * den;
    DivBounds(total + n / 2, n);
    NumeratorBrackets(n, ns, total);
    DivIs(total + ns / 2, ns, n);
  }

  lemma NumeratorBrackets(n: nat, ns: nat, total: nat)
    requires 0 < n <= ns && n * ns <= total + n / 2 < n * ns + n
    ensures ns * n <= total + ns / 2 < ns * n + ns
  {
  }

  lemma DurationAtLeast(n: nat, den: nat, least: nat)
    requires n > 0 && least * n <= NS * den
    ensures Duration(n, den) >= least
  {
    var d := Duration(n, den);
    DivBounds(NS * den + n / 2, n);
    if d < least {
      MulMonotone(d + 1, least, n);
    }
  }

  /** If the numerator came out below the duration, no numerator above the duration can share it. */
  lemma NoneAbove(n: nat, ns: nat, c: nat, total: nat)
    requires 0 < ns < n && c < ns
    requires n * ns <= total + n / 2
    ensures !(total + ns / 2 < ns * c + ns)
  {
    MulMonotone(c + 1, ns, ns);
    MulMonotone(ns + 1, n, 2 * ns - 1);
    assert ns * (c + 1) == ns * c + ns;
    assert (ns + 1) * (2 * ns - 1) == 2 * (ns * ns) + ns - 1;
    assert n * (2 * ns - 1) == 2 * (n * ns) - n;
  }

  /** A duration is found over a denominator exactly if some rate over it has that duration. */
  lemma FoundExactlyIfThereIsOne(ns: nat, den: nat)
    requires ns > 0
    ensures RoundsBack(ns, den) <==> exists n: nat :: n > 0 && Duration(n, den) == ns
  {
    hide Duration, RateOver;
    forall n: nat | n > 0 && Duration(n, den) == ns
      ensures RoundsBack(ns, den)
    {
      AnyRateIsFound(n, den, ns);
    }
  }

  lemma AnyRateIsFound(n: nat, den: nat, ns: nat)
    requires n > 0 && ns > 0 && ns == Duration(n, den)
    ensures RoundsBack(ns, den)
  {
    var c := RateOver(ns, den);
    if n <= ns {
      NumeratorReturns(n, den, ns);
    } else if ns <= c {
      NumeratorReturns(ns, den, c);
    } else {
      DivBounds(NS * den + n / 2, n);
      DivBounds(NS * den + ns / 2, ns);
      NoneAbove(n, ns, c, NS * den);
      assert false;
    }
  }

  /** `num` is the numerator over `den` that comes closest to the duration, halves rounded up. */
  predicate IsClosest(num: nat, den: nat, ns: nat) {
    ns > 0 && num * ns <= NS * den + ns / 2 < num * ns + ns
  }

  lemma ClosestIsOne(num: nat, den: nat, ns: nat)
    requires ns > 0
    ensures IsClosest(num, den, ns) <==> RateOver(ns, den) == num
  {
    DivBounds(NS * den + ns / 2, ns);
    assert ns * num == num * ns;
    if IsClosest(num, den, ns) {
      DivIs(NS * den + ns / 2, ns, num);
    }
  }

  /** A quotient that is exact is the closest numerator. */
  lemma ExactIsClosest(num: nat, den: nat, ns: nat)
    requires ns > 0 && num * ns == NS * den
    ensures IsClosest(num, den, ns)
  {
  }

  /**
   * Which rates over 1 are recovered from their rounded duration: those that come closest to it.
   * For every rate there is, however high.
   */
  lemma WholeRateReturnsExactly(n: nat)
    requires n > 0
    ensures var d := Duration(n, 1); FrameRate(d) == Some(Rational(n, 1)) <==> d > 0 && n * d <= NS + d / 2 < n * d + d
  {
    hide Gcd, RateOver, Duration, Quotient;
    var d := Duration(n, 1);
    if d > 0 {
      ClosestIsOne(n, 1, d);
      FallbackIsExact(d);
      if FrameRate(d) == Some(Rational(n, 1)) && !RoundsBack(d, 1) {
        ExactIsClosest(n, 1, d);
      }
    }
  }

  /** And over 1001: those that come closest to it, where no whole rate shares the duration. */
  lemma RatesOver1001Return(num: nat)
    requires num > 0
    ensures var d := Duration(num, 1001);
            FrameRate(d) == Some(Rational(num, 1001))
            <==> d > 0 && !RoundsBack(d, 1) && num * d <= NS * 1001 + d / 2 < num * d + d
  {
    hide Gcd, RateOver, Duration, Quotient;
    var d := Duration(num, 1001);
    if d > 0 {
      ClosestIsOne(num, 1001, d);
      FallbackIsExact(d);
      if FrameRate(d) == Some(Rational(num, 1001)) && !RoundsBack(d, 1001) {
        ExactIsClosest(num, 1001, d);
      }
    }
  }

  /** A rate that is not above its duration comes closest to it. */
  lemma LowRateIsClosest(n: nat, den: nat)
    requires 0 < n <= Duration(n, den)
    ensures IsClosest(n, den, Duration(n, den))
  {
    hide Duration, RateOver;
    NumeratorReturns(n, den, Duration(n, den));
    ClosestIsOne(n, den, Duration(n, den));
  }

  /** So is every whole rate up to 31622. */
  lemma WholeRatesReturn(n: nat)
    requires 1 <= n <= 31622
    ensures FrameRate(Duration(n, 1)) == Some(Rational(n, 1))
  {
    MulMonotone(n, 31622, 31622);
    DurationAtLeast(n, 1, 31622);
    hide FrameRate, Duration;
    LowRateIsClosest(n, 1);
    WholeRateReturnsExactly(n);
  }

  /** But not 50001, which lasts 20000 ns as 50000 does and is farther from it. */
  lemma HighRatesCollide()
    ensures Duration(50001, 1) == Duration(50000, 1) == 20000
    ensures FrameRate(Duration(50001, 1)) == Some(Rational(50000, 1))
  {
    hide FrameRate;
    WholeRateReturnsExactly(50000);
  }

  /** As the television rates are: 24000/1001, 30000/1001, 60000/1001 and all the others below 1000. */
  lemma TelevisionRatesReturn(n: nat)
    requires 1 <= n <= 999
    ensures FrameRate(Duration(1000 * n, 1001)) == Some(Rational(1000 * n, 1001))
  {
    hide Gcd, FrameRate;
    var ns := Duration(1000 * n, 1001);
    DurationAtLeast(1000 * n, 1001, 1_000_000);
    LowRateIsClosest(1000 * n, 1001);
    RatesOver1001Return(1000 * n);
    if RoundsBack(ns, 1) {
      var c := RateOver(ns, 1);
      DivBounds(NS * 1001 + 1000 * n / 2, 1000 * n);
      DivBounds(NS + ns / 2, ns);
      DivBounds(NS + c / 2, c);
      NoSharedDuration(n, c, ns);
    }
  }

  lemma NoSharedDuration(n: nat, c: nat, ns: nat)
    requires 1 <= n <= 999 && c >= 1
    requires 1000 * n * ns <= NS * 1001 + 1000 * n / 2 < 1000 * n * ns + 1000 * n
    ensures !(c * ns <= NS + c / 2 < c * ns + c)
  {
    assert n * ns * 1000 == 1000 * n * ns;
    assert 2 * n * ns <= 2 * 1_001_000_000 + n && 2 * 1_001_000_000 <= 2 * n * ns + n;
    if c >= n {
      MulMonotone(n, c, ns);
      SmallRate(n, c, ns);
    } else {
      MulMonotone(c, n - 1, ns);
      assert (n - 1) * ns == n * ns - ns;
      LongFrames(n, ns);
    }
  }

  /** A frame at a rate below 1000 lasts more than 1001000 ns. */
  lemma LongFrames(n: nat, ns: nat)
    requires 1 <= n <= 999 && 2 * 1_001_000_000 <= 2 * n * ns + n
    ensures ns > 1_001_000
  {
    if ns <= 1_001_000 {
      MulMonotone(n, 999, ns);
      MulMonotone(ns, 1_001_000, 999);
    }
  }

  lemma SmallRate(n: nat, c: nat, ns: nat)
    requires 1 <= n <= 999 && n <= c && n * ns <= c * ns
    requires 2 * 1_001_000_000 <= 2 * n * ns + n
    ensures c * ns > NS + c / 2
  {
    LongFrames(n, ns);
    MulMonotone(1_001_001, ns, c);
  }
}
