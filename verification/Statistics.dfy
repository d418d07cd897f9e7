/** The rolling statistics of aerozen/topic_statistics.cpp, over exact reals. */
module Statistics {
  /** Two to the power n. */
  function Pow2(n: nat): (r: real)
    ensures r >= 1.0
  {
    if n == 0 then 1.0 else 2.0 * Pow2(n - 1)
  }

  /** The largest finite double, and the smallest positive normal one. */
  function LargestDouble(): real {
    Pow2(1024) - Pow2(971)
  }

  function SmallestNormalDouble(): (r: real)
    ensures r > 0.0
  {
    1.0 / Pow2(1022)
  }

  function SumUpTo(s: seq<real>, n: nat, f: real -> real): real
    requires n <= |s|
  {
    if n == 0 then 0.0 else SumUpTo(s, n - 1, f) + f(s[n - 1])
  }

  function SumOf(s: seq<real>, f: real -> real): real {
    SumUpTo(s, |s|, f)
  }

  function Same(): real -> real { x => x }
  function Squared(): real -> real { x => x * x }
  function One(): real -> real { x => 1.0 }
  function From(m: real): real -> real { x => x - m }
  function TimesFrom(m: real): real -> real { x => x * (x - m) }
  function SquaredFrom(m: real): real -> real { x => (x - m) * (x - m) }

  function Total(s: seq<real>): real {
    SumOf(s, Same())
  }

  /** The sum of squared distances to `m`. */
  function Scatter(s: seq<real>, m: real): real {
    SumOf(s, SquaredFrom(m))
  }

  function Least(s: seq<real>, bound: real): real {
    if s == [] then bound
    else var before := Least(s[..|s| - 1], bound); if s[|s| - 1] < before then s[|s| - 1] else before
  }

  function Greatest(s: seq<real>, bound: real): real {
    if s == [] then bound
    else var before := Greatest(s[..|s| - 1], bound); if before < s[|s| - 1] then s[|s| - 1] else before
  }

  predicate IsMean(s: seq<real>, m: real) {
    m * |s| as real == Total(s)
  }

  lemma {:induction false} SumOfPrefix(s: seq<real>, t: seq<real>, n: nat, f: real -> real)
    requires n <= |s| && n <= |t| && s[..n] == t[..n]
    ensures SumUpTo(s, n, f) == SumUpTo(t, n, f)
  {
    if n > 0 {
      assert s[..n - 1] == s[..n][..n - 1] == t[..n - 1] && s[n - 1] == s[..n][n - 1];
      SumOfPrefix(s, t, n - 1, f);
    }
  }

  lemma AppendSum(s: seq<real>, x: real, f: real -> real)
    ensures SumOf(s + [x], f) == SumOf(s, f) + f(x)
  {
    SumOfPrefix(s + [x], s, |s|, f);
  }

  lemma SumLast(s: seq<real>, f: real -> real)
    requires s != []
    ensures SumOf(s, f) == SumOf(s[..|s| - 1], f) + f(s[|s| - 1])
  {
    assert s == s[..|s| - 1] + [s[|s| - 1]];
    AppendSum(s[..|s| - 1], s[|s| - 1], f);
  }

  lemma {:induction false} SumRemove(s: seq<real>, f: real -> real, i: nat)
    requires i < |s|
    ensures SumOf(s, f) == SumOf(s[..i] + s[i + 1..], f) + f(s[i])
  {
    var without := s[..i] + s[i + 1..];
    SumLast(s, f);
    if i == |s| - 1 {
      assert without == s[..|s| - 1];
    } else {
      var front := s[..|s| - 1];
      SumRemove(front, f, i);
      SumLast(without, f);
      assert without[..|without| - 1] == front[..i] + front[i + 1..];
    }
  }

  lemma WithoutOne(s: seq<real>, i: nat)
    requires i < |s|
    ensures multiset(s[..i] + s[i + 1..]) == multiset(s) - multiset{s[i]}
  {
    assert s == s[..i] + [s[i]] + s[i + 1..];
  }

  lemma PermutedRest(s: seq<real>, t: seq<real>, i: nat)
    requires multiset(s) == multiset(t) && s != [] && i < |t| && t[i] == s[|s| - 1]
    ensures multiset(s[..|s| - 1]) == multiset(t[..i] + t[i + 1..])
  {
    WithoutOne(s, |s| - 1);
    WithoutOne(t, i);
    assert s[..|s| - 1] + s[|s|..] == s[..|s| - 1];
  }

  lemma PermutedEmpty(t: seq<real>)
    requires multiset(t) == multiset{}
    ensures t == []
  {
    assert |multiset(t)| == |t|;
  }

  /** A sum does not depend on the order of its terms. */
  lemma {:induction false} SumPermuted(s: seq<real>, t: seq<real>, f: real -> real)
    requires multiset(s) == multiset(t)
    ensures SumOf(s, f) == SumOf(t, f)
    decreases |s|
  {
    if s == [] {
      PermutedEmpty(t);
    } else {
      assert s[|s| - 1] in multiset(t);
      var i :| 0 <= i < |t| && t[i] == s[|s| - 1];
      PermutedRest(s, t, i);
      SumPermuted(s[..|s| - 1], t[..i] + t[i + 1..], f);
      SumLast(s, f);
      SumRemove(t, f, i);
    }
  }

  lemma {:induction false} SumSplit(s: seq<real>, f: real -> real, g: real -> real, h: real -> real, m: real)
    requires forall x :: f(x) == g(x) - m * h(x)
    ensures SumOf(s, f) == SumOf(s, g) - m * SumOf(s, h)
  {
    if s != [] {
      var front, x := s[..|s| - 1], s[|s| - 1];
      SumLast(s, f); SumLast(s, g); SumLast(s, h);
      SumSplit(front, f, g, h, m);
      assert m * (SumOf(front, h) + h(x)) == m * SumOf(front, h) + m * h(x);
    }
  }

  lemma {:induction false} SumOfOnes(s: seq<real>)
    ensures SumOf(s, One()) == |s| as real
  {
    if s != [] { SumLast(s, One()); SumOfOnes(s[..|s| - 1]); }
  }

  lemma CentredSum(s: seq<real>, m: real)
    requires IsMean(s, m)
    ensures SumOf(s, From(m)) == 0.0
  {
    SumSplit(s, From(m), Same(), One(), m);
    SumOfOnes(s);
  }

  /** About the mean, the scatter is the sum of squares less the mean times the total. */
  lemma ScatterAtMean(s: seq<real>, m: real)
    requires IsMean(s, m)
    ensures Scatter(s, m) == SumOf(s, Squared()) - m * Total(s)
  {
    calc {
      Scatter(s, m);
      { SumSplit(s, SquaredFrom(m), TimesFrom(m), From(m), m); }
      SumOf(s, TimesFrom(m)) - m * SumOf(s, From(m));
      { CentredSum(s, m); }
      SumOf(s, TimesFrom(m));
      { SumSplit(s, TimesFrom(m), Squared(), Same(), m); }
      SumOf(s, Squared()) - m * Total(s);
    }
  }

  lemma WelfordAlgebra(n: real, total: real, squares: real, m: real, x: real, next: real)
    requires m * n == total && next * (n + 1.0) == total + x
    ensures squares + x * x - next * (total + x) == squares - m * total + (x - m) * (x - next)
  {
  }

  /** Welford's step on sums known only by their closed forms. */
  lemma WelfordSums(s: seq<real>, x: real, m: real, next: real, id: real -> real, sq: real -> real,
                    f: real -> real, g: real -> real)
    requires id(x) == x && sq(x) == x * x
    requires m * |s| as real == SumOf(s, id) && next * |s + [x]| as real == SumOf(s + [x], id)
    requires SumOf(s, f) == SumOf(s, sq) - m * SumOf(s, id)
    requires SumOf(s + [x], g) == SumOf(s + [x], sq) - next * SumOf(s + [x], id)
    ensures SumOf(s + [x], g) == SumOf(s, f) + (x - m) * (x - next)
  {
    AppendSum(s, x, id);
    AppendSum(s, x, sq);
    assert |s + [x]| as real == |s| as real + 1.0;
    WelfordAlgebra(|s| as real, SumOf(s, id), SumOf(s, sq), m, x, next);
  }

  lemma NextMean(s: seq<real>, x: real, m: real, next: real)
    requires IsMean(s, m) && next == m + (x - m) / (|s| + 1) as real
    ensures IsMean(s + [x], next)
  {
    var n, e := (|s| + 1) as real, (x - m) / (|s| + 1) as real;
    assert e * n == x - m;
    assert (m + e) * n == m * n + e * n;
    assert m * n == m * |s| as real + m;
    AppendSum(s, x, Same());
  }

  /** Welford's step: the product added is exactly the growth of the scatter about the mean. */
  lemma WelfordStep(s: seq<real>, x: real, m: real, next: real)
    requires IsMean(s, m) && IsMean(s + [x], next)
    ensures Scatter(s + [x], next) == Scatter(s, m) + (x - m) * (x - next)
  {
    ScatterAtMean(s, m);
    ScatterAtMean(s + [x], next);
    WelfordSums(s, x, m, next, Same(), Squared(), SquaredFrom(m), SquaredFrom(next));
  }

  lemma {:induction false} ScatterNotNegative(s: seq<real>, m: real)
    ensures Scatter(s, m) >= 0.0
  {
    if s != [] {
      SumLast(s, SquaredFrom(m));
      ScatterNotNegative(s[..|s| - 1], m);
      var d := s[|s| - 1] - m;
      assert d * d >= 0.0;
    }
  }

  lemma {:induction false} TotalBetween(s: seq<real>, low: real, high: real)
    requires forall x | x in s :: low <= x <= high
    ensures low * |s| as real <= Total(s) <= high * |s| as real
  {
    if s == [] {
      assert |s| as real == 0.0 && low * 0.0 == 0.0 == high * 0.0;
    } else {
      var front, x := s[..|s| - 1], s[|s| - 1];
      assert forall y | y in front :: y in s;
      TotalBetween(front, low, high);
      SumLast(s, Same());
      assert x in s;
      assert |s| as real == |front| as real + 1.0;
      assert low * (|front| as real + 1.0) == low * |front| as real + low;
      assert high * (|front| as real + 1.0) == high * |front| as real + high;
    }
  }

  lemma CancelFactor(a: real, b: real, n: real)
    requires n > 0.0 && a * n <= b * n
    ensures a <= b
  {
  }

  /** The mean lies between any two bounds on the samples. */
  lemma MeanBetween(s: seq<real>, m: real, low: real, high: real)
    requires s != [] && IsMean(s, m) && forall x | x in s :: low <= x <= high
    ensures low <= m <= high
  {
    TotalBetween(s, low, high);
    CancelFactor(low, m, |s| as real);
    CancelFactor(m, high, |s| as real);
  }

  /** Neither the mean nor the scatter depends on the order of the samples. */
  lemma OrderIndependent(s: seq<real>, t: seq<real>, m1: real, m2: real)
    requires s != [] && multiset(s) == multiset(t) && IsMean(s, m1) && IsMean(t, m2)
    ensures m1 == m2 && Scatter(s, m1) == Scatter(t, m2)
  {
    SumPermuted(s, t, Same());
    assert |multiset(s)| == |s| && |multiset(t)| == |t|;
    var n := |s| as real;
    CancelFactor(m1, m2, n);
    CancelFactor(m2, m1, n);
    SumPermuted(s, t, SquaredFrom(m1));
  }

  lemma {:induction false} LeastIsBound(s: seq<real>, bound: real)
    ensures Least(s, bound) <= bound && forall x | x in s :: Least(s, bound) <= x
    ensures Least(s, bound) == bound || Least(s, bound) in s
  {
    if s != [] {
      LeastIsBound(s[..|s| - 1], bound);
      assert forall x | x in s :: x in s[..|s| - 1] || x == s[|s| - 1];
    }
  }

  lemma {:induction false} GreatestIsBound(s: seq<real>, bound: real)
    ensures Greatest(s, bound) >= bound && forall x | x in s :: Greatest(s, bound) >= x
    ensures Greatest(s, bound) == bound || Greatest(s, bound) in s
  {
    if s != [] {
      GreatestIsBound(s[..|s| - 1], bound);
      assert forall x | x in s :: x in s[..|s| - 1] || x == s[|s| - 1];
    }
  }

  /** The minimum is one of the samples exactly when some sample is within the initial bound; the
      maximum exactly when some sample reaches the smallest positive normal double, so never for negative
      samples alone. */
  lemma ExtremesAreSamples(s: seq<real>, largest: real, smallest: real)
    ensures Least(s, largest) in s <==> exists x :: x in s && x <= largest
    ensures Greatest(s, smallest) in s <==> exists x :: x in s && x >= smallest
  {
    LeastIsBound(s, largest);
    GreatestIsBound(s, smallest);
  }

  /** The five fields are the statistics of these samples; `top` and `bottom` are where min and max start. */
  ghost predicate Describes(samples: seq<real>, top: real, bottom: real, count: nat, average: real,
                            sumSquareMeanDist: real, min: real, max: real)
  {
    && count == |samples|
    && IsMean(samples, average)
    && sumSquareMeanDist == Scatter(samples, average)
    && min == Least(samples, top)
    && max == Greatest(samples, bottom)
  }

  lemma DescribesNext(s: seq<real>, x: real, top: real, bottom: real, count: nat, average: real, sum: real,
                      min: real, max: real, next: real)
    requires Describes(s, top, bottom, count, average, sum, min, max)
             && next == average + (x - average) / (count + 1) as real
    ensures Describes(s + [x], top, bottom, count + 1, next, sum + (x - average) * (x - next),
                      if x < min then x else min, if max < x then x else max)
  {
    NextMean(s, x, average, next);
    WelfordStep(s, x, average, next);
    assert (s + [x])[..|s|] == s;
  }

  class Statistics {
    var count: nat
    var average: real
    var sumSquareMeanDist: real
    var min: real
    var max: real
    ghost var samples: seq<real>
    ghost const top: real
    ghost const bottom: real

    ghost predicate Valid()
      reads this
    {
      Describes(samples, top, bottom, count, average, sumSquareMeanDist, min, max)
    }

    constructor ()
      ensures Valid() && samples == [] && top == LargestDouble() && bottom == SmallestNormalDouble()
    {
      count, average, sumSquareMeanDist := 0, 0.0, 0.0;
      min, max := LargestDouble(), SmallestNormalDouble();
      top, bottom := LargestDouble(), SmallestNormalDouble();
      samples := [];
    }

    method Update(stat: real)
      requires Valid()
      modifies this
      ensures Valid() && samples == old(samples) + [stat]
    {
      count := count + 1;
      var currentAvg := average;
      average := currentAvg + (stat - currentAvg) / count as real;
      DescribesNext(samples, stat, top, bottom, count - 1, currentAvg, sumSquareMeanDist, min, max, average);
      samples := samples + [stat];
      min := if stat < min then stat else min;
      max := if max < stat then stat else max;
      sumSquareMeanDist := sumSquareMeanDist + (stat - currentAvg) * (stat - average);
    }

    /** The square of the reported standard deviation. */
    function Variance(): (v: real)
      requires Valid()
      reads this
      ensures v >= 0.0 && v * |samples| as real == Scatter(samples, average)
    {
      ScatterNotNegative(samples, average);
      if count > 0 then sumSquareMeanDist / count as real else 0.0
    }
  }
}
