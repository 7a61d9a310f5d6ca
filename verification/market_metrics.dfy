/** Per-respondent scores and the population aggregates that
    MarketPredictorAgent.calculate_pmf builds from the SSR distributions
    (src/agents/market_predictor.py). Floats are modelled as reals;
    Python's `int()` and `round()` are written out. */
module MarketMetrics {
  import opened Py

  /** A probability mass function over the Likert levels 1..5; index 0 is level 1. */
  type Pmf = p: seq<real> | |p| == 5 witness [0.0, 0.0, 0.0, 0.0, 1.0]

  /** What the SSR rater promises: five non-negative entries summing to 1. */
  predicate ValidPmf(p: Pmf) {
    && 0.0 <= p[0] && 0.0 <= p[1] && 0.0 <= p[2] && 0.0 <= p[3] && 0.0 <= p[4]
    && p[0] + p[1] + p[2] + p[3] + p[4] == 1.0
  }

  /** `np.dot(pmf, [1, 2, 3, 4, 5])`: the expected Likert level. */
  function ExpectedScore(p: Pmf): (e: real)
    ensures ValidPmf(p) ==> 1.0 <= e <= 5.0
  {
    1.0 * p[0] + 2.0 * p[1] + 3.0 * p[2] + 4.0 * p[3] + 5.0 * p[4]
  }

  /** One respondent's interest, disappointment and recommendation distributions. */
  datatype Ratings = Ratings(interest: Pmf, disappointment: Pmf, recommendation: Pmf)

  predicate ValidRatings(r: Ratings) {
    ValidPmf(r.interest) && ValidPmf(r.disappointment) && ValidPmf(r.recommendation)
  }

  function InterestScore(r: Ratings): real {
    ExpectedScore(r.interest)
  }

  function DisappointmentScore(r: Ratings): real {
    ExpectedScore(r.disappointment)
  }

  /** `(score_1_5 - 1) * 2.5`: the recommendation expectation on the 0..10 NPS scale. */
  function NpsScale(r: Ratings): real {
    (ExpectedScore(r.recommendation) - 1.0) * 2.5
  }

  /** Probability mass at disappointment levels 4 and 5 (`pmf[3:5].sum()`). */
  function TopTwoMass(r: Ratings): (m: real)
    ensures ValidRatings(r) ==> 0.0 <= m <= 1.0
  {
    r.disappointment[3] + r.disappointment[4]
  }

  // Buckets of one respondent, by expected score.
  predicate IsEnthusiast(r: Ratings) { InterestScore(r) >= 4.0 }
  predicate IsInterested(r: Ratings) { 2.5 <= InterestScore(r) < 4.0 }
  predicate IsSkeptical(r: Ratings) { InterestScore(r) < 2.5 }
  predicate IsVeryDisappointed(r: Ratings) { DisappointmentScore(r) >= 4.0 }
  predicate IsSomewhatDisappointed(r: Ratings) { 2.5 <= DisappointmentScore(r) < 4.0 }
  predicate IsNotDisappointed(r: Ratings) { DisappointmentScore(r) < 2.5 }
  predicate IsPromoter(r: Ratings) { NpsScale(r) >= 9.0 }
  predicate IsDetractor(r: Ratings) { NpsScale(r) <= 6.0 }
  predicate IsSuperfan(r: Ratings) { InterestScore(r) >= 4.5 && DisappointmentScore(r) >= 4.0 }

  /** `sum(1 for r in rs if p(r))` */
  function CountIf(rs: seq<Ratings>, p: Ratings -> bool): (n: nat)
    ensures n <= |rs|
  {
    if rs == [] then 0 else (if p(rs[0]) then 1 else 0) + CountIf(rs[1..], p)
  }

  /** A predicate every respondent meets counts everyone. */
  lemma {:induction false} CountIfAll(rs: seq<Ratings>, p: Ratings -> bool)
    requires forall r | r in rs :: p(r)
    ensures CountIf(rs, p) == |rs|
  {
    if rs != [] {
      assert forall r | r in rs[1..] :: r in rs;
      CountIfAll(rs[1..], p);
    }
  }

  /** A predicate no respondent meets counts no one. */
  lemma {:induction false} CountIfNone(rs: seq<Ratings>, p: Ratings -> bool)
    requires forall r | r in rs :: !p(r)
    ensures CountIf(rs, p) == 0
  {
    if rs != [] {
      assert forall r | r in rs[1..] :: r in rs;
      CountIfNone(rs[1..], p);
    }
  }

  /** Buckets that hold exactly one of three predicates split the population. */
  lemma {:induction false} CountPartition3(rs: seq<Ratings>, a: Ratings -> bool, b: Ratings -> bool, c: Ratings -> bool)
    requires forall r | r in rs :: (a(r) || b(r) || c(r)) && !(a(r) && b(r)) && !(a(r) && c(r)) && !(b(r) && c(r))
    ensures CountIf(rs, a) + CountIf(rs, b) + CountIf(rs, c) == |rs|
  {
    if rs != [] {
      assert forall r | r in rs[1..] :: r in rs;
      CountPartition3(rs[1..], a, b, c);
    }
  }

  /** Two predicates that never hold together count at most the population. */
  lemma {:induction false} CountDisjoint(rs: seq<Ratings>, a: Ratings -> bool, b: Ratings -> bool)
    requires forall r | r in rs :: !(a(r) && b(r))
    ensures CountIf(rs, a) + CountIf(rs, b) <= |rs|
  {
    if rs != [] {
      assert forall r | r in rs[1..] :: r in rs;
      CountDisjoint(rs[1..], a, b);
    }
  }

  /** A stronger predicate never counts more. */
  lemma {:induction false} CountSubset(rs: seq<Ratings>, a: Ratings -> bool, b: Ratings -> bool)
    requires forall r | r in rs :: a(r) ==> b(r)
    ensures CountIf(rs, a) <= CountIf(rs, b)
  {
    if rs != [] {
      assert forall r | r in rs[1..] :: r in rs;
      CountSubset(rs[1..], a, b);
    }
  }

  /** `sum(f(r) for r in rs)` */
  function SumOf(rs: seq<Ratings>, f: Ratings -> real): real {
    if rs == [] then 0.0 else f(rs[0]) + SumOf(rs[1..], f)
  }

  /** `n * x`, written as repeated addition so that sums stay linear. */
  function Times(n: nat, x: real): (r: real)
    ensures r == n as real * x
  {
    if n == 0 then 0.0 else x + Times(n - 1, x)
  }

  lemma {:induction false} SumBounds(rs: seq<Ratings>, f: Ratings -> real, lo: real, hi: real)
    requires forall r | r in rs :: lo <= f(r) <= hi
    ensures Times(|rs|, lo) <= SumOf(rs, f) <= Times(|rs|, hi)
  {
    if rs != [] {
      assert rs[0] in rs;
      assert forall r | r in rs[1..] :: r in rs;
      SumBounds(rs[1..], f, lo, hi);
    }
  }

  lemma {:induction false} SumMonotone(rs: seq<Ratings>, ss: seq<Ratings>, f: Ratings -> real)
    requires |rs| == |ss|
    requires forall i | 0 <= i < |rs| :: f(rs[i]) <= f(ss[i])
    ensures SumOf(rs, f) <= SumOf(ss, f)
  {
    if rs != [] {
      SumMonotone(rs[1..], ss[1..], f);
    }
  }

  /** `(n / total) * 100` */
  function Pct(n: int, total: nat): (p: real)
    requires total > 0
    ensures 0 <= n ==> 0.0 <= p
    ensures n <= total ==> p <= 100.0
    ensures n == total ==> p == 100.0
    ensures n == 0 ==> p == 0.0
  {
    (n as real / total as real) * 100.0
  }

  lemma PctSum3(a: int, b: int, c: int, total: nat)
    requires total > 0 && a + b + c == total
    ensures Pct(a, total) + Pct(b, total) + Pct(c, total) == 100.0
  {
    var t := total as real;
    assert a as real / t + b as real / t + c as real / t == (a + b + c) as real / t;
  }

  lemma PctMonotone(a: int, b: int, total: nat)
    requires total > 0 && a <= b
    ensures Pct(a, total) <= Pct(b, total)
  {
    var t := total as real;
    assert a as real / t <= b as real / t;
  }

  /** The sign and range of a count difference divided by the population size. */
  lemma RatioFacts(a: int, n: nat)
    requires n > 0
    ensures var q := a as real / n as real;
      && (-(n as int) <= a <= n ==> -1.0 <= q <= 1.0)
      && (a > 0 <==> q > 0.0) && (a < 0 <==> q < 0.0)
      && (a == n ==> q == 1.0) && (a == -(n as int) ==> q == -1.0)
  {
    var q, nr := a as real / n as real, n as real;
    assert q * nr == a as real;
    PositiveProduct(q, nr);
    PositiveProduct(-q, nr);
    PositiveProduct(q - 1.0, nr);
    PositiveProduct(-1.0 - q, nr);
  }

  /** The product of a positive real with a positive real is positive. */
  lemma PositiveProduct(x: real, y: real)
    requires y > 0.0
    ensures x > 0.0 ==> x * y > 0.0
  {
  }

  /** `sum(xs) / len(xs)` */
  function Mean(rs: seq<Ratings>, f: Ratings -> real): real
    requires rs != []
  {
    SumOf(rs, f) / |rs| as real
  }

  lemma MeanBounds(rs: seq<Ratings>, f: Ratings -> real, lo: real, hi: real)
    requires rs != []
    requires forall r | r in rs :: lo <= f(r) <= hi
    ensures lo <= Mean(rs, f) <= hi
  {
    SumBounds(rs, f, lo, hi);
    DivBounds(SumOf(rs, f), |rs| as real, lo, hi);
  }

  lemma DivBounds(s: real, n: real, lo: real, hi: real)
    requires n > 0.0 && n * lo <= s <= n * hi
    ensures lo <= s / n <= hi
  {
    var q := s / n;
    assert q * n == s;
    PositiveProduct(lo - q, n);
    assert (lo - q) * n == n * lo - s;
    PositiveProduct(q - hi, n);
    assert (q - hi) * n == s - n * hi;
  }

  /** The mean of a constant is that constant. */
  lemma MeanConstant(rs: seq<Ratings>, f: Ratings -> real, c: real)
    requires rs != []
    requires forall r | r in rs :: f(r) == c
    ensures Mean(rs, f) == c
  {
    SumBounds(rs, f, c, c);
    var n := |rs| as real;
    assert SumOf(rs, f) == n * c;
    assert n * c / n == c;
  }

  lemma MeanMonotone(rs: seq<Ratings>, ss: seq<Ratings>, f: Ratings -> real)
    requires rs != [] && |rs| == |ss|
    requires forall i | 0 <= i < |rs| :: f(rs[i]) <= f(ss[i])
    ensures Mean(rs, f) <= Mean(ss, f)
  {
    SumMonotone(rs, ss, f);
  }

  /** Python's `int(x)` on a float: truncation toward zero. */
  function TruncateTowardZero(x: real): (n: int)
    ensures 0.0 <= x ==> n as real <= x < n as real + 1.0
    ensures x < 0.0 ==> n as real - 1.0 < x <= n as real
  {
    if 0.0 <= x then x.Floor else -((-x).Floor)
  }

  /** Python's `round(x)`: nearest integer, ties to the even one. */
  function RoundHalfEven(x: real): (n: int)
    ensures -0.5 <= x - n as real <= 0.5
    ensures (x - n as real == 0.5 || x - n as real == -0.5) ==> n % 2 == 0
  {
    var f := x.Floor;
    var d := x - f as real;
    if d < 0.5 then f
    else if d > 0.5 then f + 1
    else if f % 2 == 0 then f
    else f + 1
  }
}
