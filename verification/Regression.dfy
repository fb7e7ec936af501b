/** The least-squares slope of the arrival rate (internal/autoscale/autoscale.go), over real
    numbers. Times are seconds. */
module Regression {
  import opened Reals

  datatype Sample = Sample(at: real, rate: real, inflight: int)

  /** The four running sums of the regression loop. */
  datatype Sums = Sums(t: real, r: real, tt: real, tr: real)

  function AddSample(s: Sums, t: real, r: real): Sums {
    Sums(s.t + t, s.r + r, s.tt + Times(t, t), s.tr + Times(t, r))
  }

  function SumsOf(h: seq<Sample>, base: real): Sums {
    if h == [] then Sums(0.0, 0.0, 0.0, 0.0)
    else AddSample(SumsOf(h[..|h| - 1], base), h[|h| - 1].at - base, h[|h| - 1].rate)
  }

  function Denominator(n: int, s: Sums): real {
    Times(n as real, s.tt) - Times(s.t, s.t)
  }

  function Numerator(n: int, s: Sums): real {
    Times(n as real, s.tr) - Times(s.t, s.r)
  }

  /** The slope as computed, with times measured from base. */
  function SlopeFrom(h: seq<Sample>, base: real): real {
    if |h| < 2 then 0.0
    else
      var s := SumsOf(h, base);
      if Denominator(|h|, s) == 0.0 then 0.0 else Numerator(|h|, s) / Denominator(|h|, s)
  }

  function Slope(h: seq<Sample>): real {
    SlopeFrom(h, if h == [] then 0.0 else h[0].at)
  }

  ghost predicate Increasing(h: seq<Sample>) {
    forall i, j :: 0 <= i < j < |h| ==> h[i].at < h[j].at
  }

  // ------------------------------------------- sums over pairs of samples

  /** Squared gaps from each earlier sample to x. */
  ghost function GapSquares(h: seq<Sample>, x: Sample): real {
    if h == [] then 0.0
    else
      var y := h[|h| - 1];
      GapSquares(h[..|h| - 1], x) + Times(x.at - y.at, x.at - y.at)
  }

  /** Gap times rise, from each earlier sample to x. */
  ghost function GapRises(h: seq<Sample>, x: Sample): real {
    if h == [] then 0.0
    else
      var y := h[|h| - 1];
      GapRises(h[..|h| - 1], x) + Times(x.at - y.at, x.rate - y.rate)
  }

  ghost function PairSquares(h: seq<Sample>): real {
    if h == [] then 0.0 else PairSquares(h[..|h| - 1]) + GapSquares(h[..|h| - 1], h[|h| - 1])
  }

  ghost function PairRises(h: seq<Sample>): real {
    if h == [] then 0.0 else PairRises(h[..|h| - 1]) + GapRises(h[..|h| - 1], h[|h| - 1])
  }

  lemma {:induction false} GapSquaresFromSums(h: seq<Sample>, x: Sample, base: real)
    ensures var t, s := x.at - base, SumsOf(h, base);
      GapSquares(h, x) == s.tt + Times(|h| as real, Times(t, t)) - 2.0 * Times(t, s.t)
  {
    hide Times;
    var t := x.at - base;
    if h == [] {
      OneTimes(Times(t, t));
      OneTimes(t);
    } else {
      var y, front := h[|h| - 1], h[..|h| - 1];
      GapSquaresFromSums(front, x, base);
      var u, s, n := y.at - base, SumsOf(front, base), |front| as real;
      assert |h| as real == n + 1.0;
      assert x.at - y.at == t - u;
      ProductOfDifferences(t, u, t, u);
      Commute(t, u);
      Distribute(Times(t, t), n, 1.0);
      OneTimes(Times(t, t));
      Distribute(t, s.t, u);
    }
  }

  lemma {:induction false} GapRisesFromSums(h: seq<Sample>, x: Sample, base: real)
    ensures var t, s := x.at - base, SumsOf(h, base);
      GapRises(h, x) == s.tr + Times(|h| as real, Times(t, x.rate)) - Times(t, s.r) - Times(x.rate, s.t)
  {
    hide Times;
    var t, r := x.at - base, x.rate;
    if h == [] {
      OneTimes(Times(t, r));
      OneTimes(t);
      OneTimes(r);
    } else {
      var y, front := h[|h| - 1], h[..|h| - 1];
      GapRisesFromSums(front, x, base);
      var u, s, n := y.at - base, SumsOf(front, base), |front| as real;
      assert |h| as real == n + 1.0;
      assert x.at - y.at == t - u;
      ProductOfDifferences(t, u, r, y.rate);
      Commute(u, r);
      Distribute(Times(t, r), n, 1.0);
      OneTimes(Times(t, r));
      Distribute(t, s.r, y.rate);
      Distribute(r, s.t, u);
    }
  }

  /** Adding a sample grows the denominator by its squared gaps to all the others, and the
      numerator by its gaps times its rises. */
  lemma OneMoreSample(n: real, s: Sums, t: real, r: real)
    ensures Times(n + 1.0, s.tt + Times(t, t)) - Times(s.t + t, s.t + t) ==
      Times(n, s.tt) - Times(s.t, s.t) + (s.tt + Times(n, Times(t, t)) - 2.0 * Times(t, s.t))
    ensures Times(n + 1.0, s.tr + Times(t, r)) - Times(s.t + t, s.r + r) ==
      Times(n, s.tr) - Times(s.t, s.r) + (s.tr + Times(n, Times(t, r)) - Times(t, s.r) - Times(r, s.t))
  {
    hide Times;
    ProductOfSums(n, 1.0, s.tt, Times(t, t));
    ProductOfSums(s.t, t, s.t, t);
    ProductOfSums(n, 1.0, s.tr, Times(t, r));
    ProductOfSums(s.t, t, s.r, r);
    OneTimes(s.tt);
    OneTimes(s.tr);
    OneTimes(Times(t, t));
    OneTimes(Times(t, r));
    Commute(t, s.t);
    Commute(r, s.t);
  }

  /** Numerator and denominator are sums over pairs of samples, so neither depends on the time
      base and the slope is the mean of the pairwise slopes weighted by squared gaps. */
  lemma {:induction false} SumsOverPairs(h: seq<Sample>, base: real)
    ensures Denominator(|h|, SumsOf(h, base)) == PairSquares(h)
    ensures Numerator(|h|, SumsOf(h, base)) == PairRises(h)
  {
    hide Times;
    if h == [] {
      OneTimes(0.0);
    } else {
      var x, front := h[|h| - 1], h[..|h| - 1];
      SumsOverPairs(front, base);
      GapSquaresFromSums(front, x, base);
      GapRisesFromSums(front, x, base);
      OneMoreSample(|front| as real, SumsOf(front, base), x.at - base, x.rate);
      assert |h| as real == |front| as real + 1.0;
    }
  }

  lemma SlopeIgnoresTimeBase(h: seq<Sample>, base: real)
    ensures SlopeFrom(h, base) == Slope(h)
  {
    SumsOverPairs(h, base);
    SumsOverPairs(h, if h == [] then 0.0 else h[0].at);
    hide Denominator, Numerator, SumsOf;
  }

  // ------------------------------------------------------------- positivity

  lemma {:induction false} GapSquaresPositive(h: seq<Sample>, x: Sample)
    requires forall i :: 0 <= i < |h| ==> h[i].at < x.at
    ensures GapSquares(h, x) >= 0.0
    ensures h != [] ==> GapSquares(h, x) > 0.0
  {
    hide Times;
    if h == [] {
    } else {
      GapSquaresPositive(h[..|h| - 1], x);
      SquarePositive(x.at - h[|h| - 1].at);
    }
  }

  lemma {:induction false} PairSquaresPositive(h: seq<Sample>)
    requires Increasing(h)
    ensures PairSquares(h) >= 0.0
    ensures |h| >= 2 ==> PairSquares(h) > 0.0
  {
    if h == [] {
    } else {
      PairSquaresPositive(h[..|h| - 1]);
      GapSquaresPositive(h[..|h| - 1], h[|h| - 1]);
    }
  }

  /** Two samples at distinct times make the denominator positive, so the guard against dividing
      by zero is never taken on an increasing history. */
  lemma DenominatorIsPositive(h: seq<Sample>, base: real)
    requires Increasing(h) && |h| >= 2
    ensures Denominator(|h|, SumsOf(h, base)) > 0.0
  {
    SumsOverPairs(h, base);
    PairSquaresPositive(h);
  }

  /** On an increasing history the slope is the quotient of the two pair sums. */
  lemma SlopeIsPairQuotient(h: seq<Sample>)
    requires Increasing(h) && |h| >= 2
    ensures PairSquares(h) > 0.0 && Slope(h) == PairRises(h) / PairSquares(h)
  {
    SumsOverPairs(h, h[0].at);
    DenominatorIsPositive(h, h[0].at);
    hide Denominator, Numerator, SumsOf;
  }

  // ----------------------------------------------------------------- bounds

  /** The rise over a gap is between lo and hi times the gap. */
  predicate Within(gap: real, rise: real, lo: real, hi: real) {
    Times(lo, gap) <= rise <= Times(hi, gap)
  }

  /** Every consecutive difference quotient lies between lo and hi. */
  ghost predicate QuotientsWithin(h: seq<Sample>, lo: real, hi: real) {
    forall i, j :: 0 <= i && j == i + 1 && j < |h| ==> Within(h[j].at - h[i].at, h[j].rate - h[i].rate, lo, hi)
  }

  /** Then so does every pairwise one. */
  lemma {:induction false} PairWithin(h: seq<Sample>, lo: real, hi: real, i: nat, j: nat)
    requires QuotientsWithin(h, lo, hi) && i <= j < |h|
    ensures Within(h[j].at - h[i].at, h[j].rate - h[i].rate, lo, hi)
    decreases j - i
  {
    hide Times;
    if i == j {
      OneTimes(lo);
      OneTimes(hi);
    } else {
      var k := j - 1;
      PairWithin(h, lo, hi, i, k);
      assert Within(h[j].at - h[k].at, h[j].rate - h[k].rate, lo, hi);
      assert h[j].at - h[i].at == (h[j].at - h[k].at) + (h[k].at - h[i].at);
      Distribute(lo, h[j].at - h[k].at, h[k].at - h[i].at);
      Distribute(hi, h[j].at - h[k].at, h[k].at - h[i].at);
    }
  }

  lemma ScaleGap(gap: real, rise: real, lo: real, hi: real)
    requires gap >= 0.0 && Within(gap, rise, lo, hi)
    ensures Within(Times(gap, gap), Times(gap, rise), lo, hi)
  {
    hide Times;
    TimesMonotone(gap, Times(lo, gap), rise);
    TimesMonotone(gap, rise, Times(hi, gap));
    Reassociate(gap, lo, gap);
    Reassociate(gap, hi, gap);
  }

  lemma AddWithin(gap: real, rise: real, gap': real, rise': real, lo: real, hi: real)
    requires Within(gap, rise, lo, hi) && Within(gap', rise', lo, hi)
    ensures Within(gap + gap', rise + rise', lo, hi)
  {
    hide Times;
    Distribute(lo, gap, gap');
    Distribute(hi, gap, gap');
  }

  lemma {:induction false} GapsWithin(h: seq<Sample>, x: Sample, lo: real, hi: real)
    requires forall i :: 0 <= i < |h| ==> h[i].at < x.at && Within(x.at - h[i].at, x.rate - h[i].rate, lo, hi)
    ensures Within(GapSquares(h, x), GapRises(h, x), lo, hi)
  {
    if h == [] {
      OneTimes(lo);
      OneTimes(hi);
    } else {
      hide Times, Within;
      var front, y := h[..|h| - 1], h[|h| - 1];
      GapsWithin(front, x, lo, hi);
      var gap, rise := x.at - y.at, x.rate - y.rate;
      ScaleGap(gap, rise, lo, hi);
      AddWithin(GapSquares(front, x), GapRises(front, x), Times(gap, gap), Times(gap, rise), lo, hi);
    }
  }

  lemma {:induction false} PairsWithin(h: seq<Sample>, lo: real, hi: real)
    requires Increasing(h) && QuotientsWithin(h, lo, hi)
    ensures Within(PairSquares(h), PairRises(h), lo, hi)
  {
    if h == [] {
      OneTimes(lo);
      OneTimes(hi);
    } else {
      hide Times, Within;
      var front, x := h[..|h| - 1], h[|h| - 1];
      PairsWithin(front, lo, hi);
      forall i | 0 <= i < |front|
        ensures Within(x.at - front[i].at, x.rate - front[i].rate, lo, hi)
      {
        PairWithin(h, lo, hi, i, |h| - 1);
      }
      GapsWithin(front, x, lo, hi);
      AddWithin(PairSquares(front), PairRises(front), GapSquares(front, x), GapRises(front, x), lo, hi);
    }
  }

  lemma DivideWithin(d: real, a: real, lo: real, hi: real)
    requires d > 0.0 && Within(d, a, lo, hi)
    ensures lo <= a / d <= hi
  {
    QuotientTimes(a, d);
    OrderOfFactors(lo, a / d, d);
    OrderOfFactors(a / d, hi, d);
  }

  /** The slope lies between the least and the greatest consecutive difference quotient. */
  lemma SlopeWithinQuotients(h: seq<Sample>, lo: real, hi: real)
    requires Increasing(h) && |h| >= 2 && QuotientsWithin(h, lo, hi)
    ensures lo <= Slope(h) <= hi
  {
    hide Times, Within;
    SlopeIsPairQuotient(h);
    PairsWithin(h, lo, hi);
    DivideWithin(PairSquares(h), PairRises(h), lo, hi);
  }

  /** So it is exact on a linear ramp. */
  lemma SlopeExactOnLine(h: seq<Sample>, a: real, b: real)
    requires Increasing(h) && |h| >= 2
    requires forall i :: 0 <= i < |h| ==> h[i].rate == a + Times(b, h[i].at)
    ensures Slope(h) == b
  {
    hide Times;
    forall i, j | 0 <= i && j == i + 1 && j < |h|
      ensures Within(h[j].at - h[i].at, h[j].rate - h[i].rate, b, b)
    {
      Distribute(b, h[j].at - h[i].at, h[i].at);
      assert (h[j].at - h[i].at) + h[i].at == h[j].at;
    }
    SlopeWithinQuotients(h, b, b);
  }

  // --------------------------------------------------- the newest sample's weight

  lemma {:induction false} HigherRateRaisesGaps(h: seq<Sample>, x: Sample, y: Sample)
    requires forall i :: 0 <= i < |h| ==> h[i].at < x.at
    requires x.at == y.at && x.rate <= y.rate
    ensures GapRises(h, x) <= GapRises(h, y) && GapSquares(h, x) == GapSquares(h, y)
  {
    hide Times;
    if h == [] {
    } else {
      var last := h[|h| - 1];
      HigherRateRaisesGaps(h[..|h| - 1], x, y);
      TimesMonotone(x.at - last.at, x.rate - last.rate, y.rate - last.rate);
    }
  }

  /** Raising only the newest rate never lowers the slope. */
  lemma NewestRateRaisesSlope(front: seq<Sample>, x: Sample, y: Sample)
    requires Increasing(front + [x]) && x.at == y.at && x.rate <= y.rate
    ensures Slope(front + [x]) <= Slope(front + [y])
  {
    var h, g := front + [x], front + [y];
    assert h[..|front|] == front == g[..|front|];
    if front != [] {
      assert forall i :: 0 <= i < |front| ==> h[i] == front[i] && h[i].at < h[|front|].at;
      assert Increasing(g) by {
        assert forall i :: 0 <= i < |g| ==> g[i].at == h[i].at;
      }
      HigherRateRaisesGaps(front, x, y);
      SlopeIsPairQuotient(h);
      SlopeIsPairQuotient(g);
      hide Slope;
      DivideMonotone(PairRises(h), PairRises(g), PairSquares(h));
    }
  }
}
