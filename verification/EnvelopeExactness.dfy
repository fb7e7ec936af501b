/** Exactly when the trapezoid sum over a ramp equals the area under it
    (internal/loadgen/envelope.go). A ramp is concave, so a trapezoid that spans a kink, a tail the
    steps do not reach, or a sudden end loses area, and nothing makes up for it. */
module EnvelopeExactness {
  import opened Common
  import opened Integers
  import opened Reals
  import opened LoadEnvelope

  /** A ramp that ends in a slope. It may start at its peak. */
  predicate Sloped(e: Envelope) {
    e.Ramp? && e.up >= 0 && e.hold >= 0 && e.down > 0 && e.peak >= 0.0
  }

  /** The rise of the rate over the nanosecond after i. */
  function Slope(e: Envelope, i: nat): real
    requires Sloped(e)
  {
    if i < e.up then e.peak / e.up as real
    else if i < e.up + e.hold then 0.0
    else -(e.peak / e.down as real)
  }

  lemma RateSteps(e: Envelope, i: nat)
    requires Sloped(e) && i < Duration(e)
    ensures RateAt(e, i + 1) == RateAt(e, i) + Slope(e, i)
  {
    var u, h, d := e.up, e.hold, e.down;
    assert e == RampOf(e.peak, 1, u, h, d);
    hide RateAt, RampOf;
    if i < u {
      RateGoingUp(e.peak, 1, u, h, d, i);
      RateGoingUp(e.peak, 1, u, h, d, i + 1);
      Distribute(e.peak / u as real, i as real, 1.0);
      OneTimes(e.peak / u as real);
    } else if i < u + h {
      RateAtTheTop(e.peak, 1, u, h, d, i - u);
      RateAtTheTop(e.peak, 1, u, h, d, i + 1 - u);
    } else {
      RateGoingDown(e.peak, 1, u, h, d, i - u - h);
      RateGoingDown(e.peak, 1, u, h, d, i + 1 - u - h);
      Distribute(e.peak / d as real, (i - u - h) as real, 1.0);
      OneTimes(e.peak / d as real);
    }
  }

  /** A kink of the ramp lies after i and at j or before. */
  predicate KinkBetween(e: Envelope, i: int, j: int)
    requires e.Ramp?
  {
    i < e.up <= j || i < e.up + e.hold <= j
  }

  /** Slopes only fall, and strictly so across a kink. */
  lemma SlopesFall(e: Envelope, i: nat, j: nat)
    requires Sloped(e) && i <= j
    ensures Slope(e, i) >= Slope(e, j)
    ensures Slope(e, i) > Slope(e, j) <==> e.peak > 0.0 && KinkBetween(e, i, j)
  {
    if e.up > 0 {
      SlopeSign(e.peak, e.up as real);
    }
    SlopeSign(e.peak, e.down as real);
  }

  lemma SlopeSign(peak: real, leg: real)
    requires peak >= 0.0 && leg > 0.0
    ensures peak / leg >= 0.0 && (peak / leg > 0.0 <==> peak > 0.0)
  {
    DivideMonotone(0.0, peak, leg);
    if peak > 0.0 {
      PositiveQuotient(peak, leg);
    }
  }

  lemma PositiveQuotient(a: real, b: real)
    requires a > 0.0 && b > 0.0
    ensures a / b > 0.0
  {
  }

  lemma TimesStrict(a: real, b: real, c: real)
    requires a > 0.0 && b < c
    ensures Times(a, b) < Times(a, c)
  {
    LargerProduct(c, b, a);
    Commute(a, b);
    Commute(a, c);
  }

  /** The rate rises at least as fast as its slope at the end of a stretch says, and faster if the
      slope has fallen on the way. */
  lemma {:induction false} RiseSoFar(e: Envelope, a: nat, b: nat)
    requires Sloped(e) && a <= b < Duration(e)
    ensures RateAt(e, b) - RateAt(e, a) >= Times((b - a) as real, Slope(e, b))
    ensures Slope(e, a) > Slope(e, b) ==> RateAt(e, b) - RateAt(e, a) > Times((b - a) as real, Slope(e, b))
    decreases b
  {
    if a == b {
      OneTimes(Slope(e, b));
    } else {
      RiseSoFar(e, a, b - 1);
      RateSteps(e, b - 1);
      SlopesFall(e, a, b - 1);
      SlopesFall(e, b - 1, b);
      hide RateAt, Slope, Times, Duration;
      var s, t, m := Slope(e, b - 1), Slope(e, b), (b - 1 - a) as real;
      Distribute(s, m, 1.0);
      OneTimes(s);
      TimesMonotone(m + 1.0, t, s);
      if s > t {
        TimesStrict(m + 1.0, t, s);
      }
    }
  }

  lemma HalfOf(m: real, a: real, b: real, s: real)
    ensures Times(m + 1.0, (a + (b + s)) / 2.0) == Times(m, (a + b) / 2.0) + (a + b + s) / 2.0 + Times(m, s) / 2.0
  {
    assert (m + 1.0) * ((a + (b + s)) / 2.0) == m * ((a + b) / 2.0) + m * s / 2.0 + (a + b + s) / 2.0;
  }

  /** One trapezoid from a to b holds at most the area under the ramp, and less across a kink. */
  lemma {:induction false} OneTrapezoid(e: Envelope, a: nat, b: nat)
    requires Sloped(e) && a <= b <= Duration(e)
    ensures Averages(e, 1, b) - Averages(e, 1, a) >= Times((b - a) as real, (RateAt(e, a) + RateAt(e, b)) / 2.0)
    ensures a < b && Slope(e, a) > Slope(e, b - 1) ==>
      Averages(e, 1, b) - Averages(e, 1, a) > Times((b - a) as real, (RateAt(e, a) + RateAt(e, b)) / 2.0)
    decreases b
  {
    if a == b {
      OneTimes((RateAt(e, a) + RateAt(e, b)) / 2.0);
    } else {
      OneTrapezoid(e, a, b - 1);
      RateSteps(e, b - 1);
      RiseSoFar(e, a, b - 1);
      assert Average(e, 1, b - 1) == (RateAt(e, b - 1) + RateAt(e, b)) / 2.0;
      hide RateAt, Slope, Times, Duration;
      HalfOf((b - 1 - a) as real, RateAt(e, a), RateAt(e, b - 1), Slope(e, b - 1));
    }
  }

  /** The steps' trapezoids hold at most the area they cover, and less if step j spans a kink. */
  lemma {:induction false} StepsHoldLess(e: Envelope, step: int, n: nat, j: nat)
    requires Sloped(e) && step > 0 && step * n <= Duration(e)
    ensures step * n >= 0
    ensures Times(step as real, Averages(e, step, n)) <= Averages(e, 1, step * n)
    ensures j < n && e.peak > 0.0 && KinkBetween(e, step * j, step * (j + 1) - 1) ==>
      Times(step as real, Averages(e, step, n)) < Averages(e, 1, step * n)
    decreases n
  {
    if n == 0 {
      OneTimes(step as real);
    } else {
      SplitTimes(step, n - 1, 1);
      StepsHoldLess(e, step, n - 1, j);
      OneTrapezoid(e, step * (n - 1), step * n);
      SlopesFall(e, step * (n - 1), step * n - 1);
      hide RateAt, Slope, Times, Duration;
      Distribute(step as real, Averages(e, step, n - 1), Average(e, step, n - 1));
    }
  }

  lemma RatePositive(e: Envelope, i: nat)
    requires Sloped(e) && e.peak > 0.0 && i < Duration(e) && (i == 0 ==> e.up == 0)
    ensures RateAt(e, i) > 0.0
  {
    if i < e.up {
      PositiveQuotient(i as real, e.up as real);
      PositiveProduct(e.peak, i as real / e.up as real);
    } else if i >= e.up + e.hold {
      var m := i - e.up - e.hold;
      QuotientTimes(m as real, e.down as real);
      OrderOfFactors(m as real / e.down as real, 1.0, e.down as real);
      ProperFraction(m as real, e.down as real);
      PositiveProduct(e.peak, 1.0 - m as real / e.down as real);
    }
  }

  lemma ProperFraction(a: real, b: real)
    requires b > 0.0 && a < b
    ensures a / b < 1.0
  {
  }

  lemma SlopedIsValid(e: Envelope)
    requires Sloped(e)
    ensures Valid(e) && Duration(e) >= 1 && DividesLegs(e, 1)
  {
  }

  /** Whatever is left after m nanoseconds has area. */
  lemma {:induction false} TailHasArea(e: Envelope, m: nat, n: nat)
    requires Sloped(e) && e.peak > 0.0 && m <= n <= Duration(e)
    ensures Averages(e, 1, m) <= Averages(e, 1, n)
    ensures m < n ==> Averages(e, 1, m) < Averages(e, 1, n)
    decreases n
  {
    if m == n {
    } else {
      TailHasArea(e, m, n - 1);
      SlopedIsValid(e);
      RateBounds(e, n - 1);
      RateBounds(e, n);
      if n - 1 > 0 || e.up == 0 {
        RatePositive(e, n - 1);
      } else {
        RatePositive(e, n);
      }
      assert Average(e, 1, n - 1) == (RateAt(e, n - 1) + RateAt(e, n)) / 2.0;
    }
  }

  lemma InUnits(e: Envelope, step: int, n: nat)
    requires step >= 0
    ensures Times(Averages(e, step, n), Seconds(step)) == Times(Times(step as real, Averages(e, step, n)), Seconds(1))
  {
    var a, s := Averages(e, step, n), step as real;
    SecondsOfSteps(1, step);
    Commute(s, a);
    TimesInAnyOrder(a, s, Seconds(1));
  }

  lemma AreaInUnits(e: Envelope)
    requires Sloped(e)
    ensures Duration(e) >= 0 && Integral(e) == Times(Averages(e, 1, Duration(e)), Seconds(1))
  {
    SlopedIsValid(e);
    AlignedRampIsExact(e, 1, Duration(e));
  }

  /** If the steps cover the whole run but do not fit its legs, one of them spans a kink. */
  lemma MisalignedStepSpansKink(e: Envelope, step: int, n: nat) returns (j: nat)
    requires Sloped(e) && step > 0 && step * n == Duration(e) && !DividesLegs(e, step)
    ensures j < n && KinkBetween(e, step * j, step * (j + 1) - 1)
  {
    if e.up % step != 0 {
      j := SpansPoint(step, n, e.up);
    } else {
      LegsFit(e, step, n);
      j := SpansPoint(step, n, e.up + e.hold);
    }
  }

  lemma SpansPoint(step: int, n: nat, t: int) returns (j: nat)
    requires step > 0 && 0 < t < step * n && t % step != 0
    ensures j < n && step * j < t <= step * (j + 1) - 1
  {
    Division(t, step);
    var q := t / step;
    SplitTimes(step, q, 1);
    AtMostMultiples(step, q, 0, step - 1);
    AtMostMultiples(step, n - 1, q, step - 1) by {
      SplitTimes(step, n - 1, 1);
    }
    j := q;
  }

  /** If both the climb and the top end on a step, so does everything. */
  lemma LegsFit(e: Envelope, step: int, n: nat)
    requires Sloped(e) && step > 0 && step * n == Duration(e) && e.up % step == 0 && !DividesLegs(e, step)
    ensures (e.up + e.hold) % step != 0
  {
    if (e.up + e.hold) % step == 0 {
      Division(e.up, step);
      Division(e.up + e.hold, step);
      var u, w := e.up / step, (e.up + e.hold) / step;
      SplitTimes(step, u, w - u);
      SplitTimes(step, w, n - w);
      DivisionIs(step, w - u, 0);
      DivisionIs(step, n - w, 0);
    }
  }

  /** The ramp ends in a slope, the steps divide the run, and the step divides every leg. */
  predicate Fits(e: Envelope, steps: int)
    requires e.Ramp?
  {
    && e.down > 0
    && steps >= 1 && Duration(e) % steps == 0 && Duration(e) / steps > 0
    && DividesLegs(e, Duration(e) / steps)
  }

  lemma MisfitHoldsLess(e: Envelope, steps: int)
    requires Sloped(e) && e.peak > 0.0 && steps >= 1 && Duration(e) / steps > 0 && !Fits(e, steps)
    ensures Times((Duration(e) / steps) as real, Averages(e, Duration(e) / steps, steps)) < Averages(e, 1, Duration(e))
  {
    var step := Duration(e) / steps;
    Division(Duration(e), steps);
    if step * steps == Duration(e) {
      var j := MisalignedStepSpansKink(e, step, steps);
      StepsHoldLess(e, step, steps, j);
    } else {
      StepsHoldLess(e, step, steps, 0);
      TailHasArea(e, step * steps, Duration(e));
    }
  }

  lemma SecondsOfOne()
    ensures Seconds(1) > 0.0
  {
  }

  lemma SomeArea(e: Envelope)
    requires Sloped(e) && e.peak > 0.0
    ensures Integral(e) > 0.0
  {
    SlopedIsValid(e);
    AreaInUnits(e);
    TailHasArea(e, 0, Duration(e));
    SecondsOfOne();
    PositiveProduct(Averages(e, 1, Duration(e)), Seconds(1));
  }

  lemma LessInUnits(e: Envelope, steps: int, area: real)
    requires steps >= 1 && Duration(e) / steps > 0
    requires Times((Duration(e) / steps) as real, Averages(e, Duration(e) / steps, steps)) < area
    ensures Expected(Some(e), steps) < Times(area, Seconds(1))
  {
    var step := Duration(e) / steps;
    assert Duration(e) > 0 by {
      Division(Duration(e), steps);
      StepsInOrder(steps, 0, step);
    }
    InUnits(e, step, steps);
    SecondsOfOne();
    hide Averages, Seconds, Times;
    LargerProduct(area, Times(step as real, Averages(e, step, steps)), Seconds(1));
  }

  lemma MisfitMissesArea(e: Envelope, steps: int)
    requires Sloped(e) && e.peak > 0.0 && !Fits(e, steps)
    ensures Expected(Some(e), steps) < Integral(e)
  {
    if steps >= 1 && Duration(e) > 0 && Duration(e) / steps > 0 {
      MisfitHoldsLess(e, steps);
      AreaInUnits(e);
      LessInUnits(e, steps, Averages(e, 1, Duration(e)));
    } else {
      SomeArea(e);
    }
  }

  // ------------------------------------------------------------- a ramp that drops

  /** The ramp with its sudden end drawn out to one nanosecond. */
  function Softened(e: Envelope): Envelope
    requires e.Ramp?
  {
    Ramp(e.up, e.hold, 1, e.peak)
  }

  lemma DropCutsRate(e: Envelope, t: nat)
    requires e.Ramp? && Valid(e) && e.down == 0 && t <= Duration(e)
    ensures RateAt(e, t) == if t < Duration(e) then RateAt(Softened(e), t) else 0.0
    ensures t == Duration(e) ==> RateAt(Softened(e), t) == e.peak && RateAt(Softened(e), t + 1) == 0.0
  {
    OneTimes(e.peak);
  }

  lemma {:induction false} DropCutsSum(e: Envelope, step: int, n: nat)
    requires e.Ramp? && Valid(e) && e.down == 0 && step > 0 && step * n <= Duration(e)
    ensures Averages(e, step, n) <= Averages(Softened(e), step, n)
    ensures n > 0 && step * n == Duration(e) && e.peak > 0.0 ==> Averages(e, step, n) < Averages(Softened(e), step, n)
  {
    if n == 0 {
    } else {
      SplitTimes(step, n - 1, 1);
      StepsInOrder(step, 0, n - 1);
      DropCutsSum(e, step, n - 1);
      DropCutsRate(e, step * (n - 1));
      DropCutsRate(e, step * n);
      hide RateAt;
    }
  }

  lemma DropArea(e: Envelope)
    requires e.Ramp? && Valid(e) && e.down == 0
    ensures Duration(e) >= 1 && Integral(e) == Times(Averages(Softened(e), 1, Duration(e)), Seconds(1))
  {
    var f, n, s := Softened(e), Duration(e), Seconds(1);
    AreaInUnits(f);
    DropCutsRate(e, n);
    assert Average(f, 1, n) == e.peak / 2.0;
    assert Seconds(0) == 0.0;
    Distribute(e.peak, Seconds(e.up) / 2.0 + Seconds(e.hold), s / 2.0);
    HalfTimes(e.peak, s);
    Commute(Averages(f, 1, n) + e.peak / 2.0, s);
    Commute(Averages(f, 1, n), s);
    Commute(e.peak, s);
    Distribute(s, Averages(f, 1, n), e.peak / 2.0);
    HalfTimes(s, e.peak);
  }

  /** A ramp that drops from its peak at the end is never summed exactly. */
  lemma DropMissesArea(e: Envelope, steps: int)
    requires e.Ramp? && Valid(e) && e.down == 0 && e.peak > 0.0
    ensures Expected(Some(e), steps) < Integral(e)
  {
    var f, total := Softened(e), Duration(e);
    DropArea(e);
    if steps >= 1 && total / steps > 0 {
      var step := total / steps;
      Division(total, steps);
      StepsHoldLess(f, step, steps, 0);
      TailHasArea(f, step * steps, total);
      DropCutsSum(e, step, steps);
      hide Averages, RateAt, Integral;
      TimesMonotone(step as real, Averages(e, step, steps), Averages(f, step, steps));
      if step * steps == total {
        TimesStrict(step as real, Averages(e, step, steps), Averages(f, step, steps));
      }
      LessInUnits(e, steps, Averages(f, 1, total));
    } else {
      TailHasArea(f, 0, total);
      SecondsOfOne();
      PositiveProduct(Averages(f, 1, total), Seconds(1));
    }
  }

  // ---------------------------------------------------------------- every ramp

  lemma NoPeakNoArea(e: Envelope, steps: int)
    requires e.Ramp? && Valid(e) && e.peak == 0.0
    ensures Expected(Some(e), steps) == 0.0 == Integral(e)
  {
    ExpectedWithinPeak(e, steps);
    OneTimes(Seconds(Duration(e)));
    OneTimes(Seconds(e.up) / 2.0 + Seconds(e.hold) + Seconds(e.down) / 2.0);
  }

  lemma FittingStepsAreExact(e: Envelope, steps: int)
    requires Sloped(e) && Fits(e, steps)
    ensures Expected(Some(e), steps) == Integral(e)
  {
    var step := Duration(e) / steps;
    Division(Duration(e), steps);
    AlignedRampIsExact(e, step, steps);
  }

  /** For a ramp the trapezoid sum is the area exactly when it ends in a slope, the steps divide the
      run and the step divides every leg, or there is no load at all; otherwise it falls short. */
  lemma ExactExactlyWhen(e: Envelope, steps: int)
    requires e.Ramp? && Valid(e)
    ensures Expected(Some(e), steps) == Integral(e) <==> e.peak == 0.0 || Fits(e, steps)
    ensures Expected(Some(e), steps) <= Integral(e)
  {
    if e.peak == 0.0 {
      NoPeakNoArea(e, steps);
    } else if Fits(e, steps) {
      FittingStepsAreExact(e, steps);
    } else if e.down == 0 {
      DropMissesArea(e, steps);
    } else {
      MisfitMissesArea(e, steps);
    }
  }

  // ------------------------------------------------------------- ramps repeated

  function Bottom(e: Envelope): Envelope {
    match e
    case Repeat(Some(inner), _) => Bottom(inner)
    case _ => e
  }

  /** The steps find each leg of the ramp, or there is nothing to find. */
  predicate SeesEveryLeg(e: Envelope, step: int)
    requires e.Ramp? && step > 0
  {
    e.peak == 0.0 || (e.down > 0 && DividesLegs(e, step))
  }

  lemma {:induction false} BottomIsARamp(e: Envelope, step: int)
    requires step > 0 && WholeCycles(e, step)
    ensures Bottom(e).Ramp?
  {
    match e
    case Ramp(_, _, _, _) =>
    case Repeat(Some(inner), _) => BottomIsARamp(inner, step);
  }

  lemma RampOfSteps(e: Envelope, step: int, n: nat)
    requires e.Ramp? && Valid(e) && step > 0 && Duration(e) == step * n && Duration(e) > 0
    ensures var sum := Times(Averages(e, step, n), Seconds(step));
      sum <= Integral(e) && (sum == Integral(e) <==> SeesEveryLeg(e, step))
  {
    StepsInOrder(step, 0, n);
    ExactExactlyWhen(e, n);
    DivisionIs(n, step, 0);
    hide Averages, Integral;
  }

  lemma TimesKeepsOrder(k: real, a: real, b: real)
    requires k > 0.0
    ensures Times(k, a) <= Times(k, b) <==> a <= b
    ensures Times(k, a) == Times(k, b) <==> a == b
  {
    if a < b {
      TimesStrict(k, a, b);
    } else if b < a {
      TimesStrict(k, b, a);
    }
  }

  lemma {:induction false} CyclesOfSteps(e: Envelope, step: int, n: nat)
    requires Valid(e) && step > 0 && WholeCycles(e, step) && Duration(e) == step * n
    ensures Bottom(e).Ramp?
    ensures var sum := Times(Averages(e, step, n), Seconds(step));
      sum <= Integral(e) && (sum == Integral(e) <==> SeesEveryLeg(Bottom(e), step))
  {
    BottomIsARamp(e, step);
    WholeCyclesEnd(e, step);
    match e
    case Ramp(_, _, _, _) => RampOfSteps(e, step, n);
    case Repeat(Some(inner), times) =>
      WholeCyclesEnd(inner, step);
      Division(Duration(inner), step);
      var m := Duration(inner) / step;
      StepsInOrder(step, 0, m);
      StepsOfCycles(step, m, times, 0);
      StepsInOrder(step, n, m * times);
      hide Duration, Averages, Seconds, RateAt, Times, SeesEveryLeg, WholeCycles;
      CyclesOfSteps(inner, step, m);
      SumOverCycles(inner, times, step, times, m);
      TimesInAnyOrder(times as real, Averages(inner, step, m), Seconds(step));
      TimesKeepsOrder(times as real, Times(Averages(inner, step, m), Seconds(step)), Integral(inner));
  }

  /** However a ramp with a climb is repeated, if the steps divide the run and each cycle, the trapezoid
      sum never exceeds the area, and equals it exactly when they see every leg of the ramp. */
  lemma RepeatedExactExactlyWhen(e: Envelope, steps: int)
    requires Valid(e) && steps >= 1 && Duration(e) % steps == 0 && Duration(e) / steps > 0
    requires WholeCycles(e, Duration(e) / steps)
    ensures Bottom(e).Ramp? && Expected(Some(e), steps) <= Integral(e)
    ensures Expected(Some(e), steps) == Integral(e) <==> SeesEveryLeg(Bottom(e), Duration(e) / steps)
  {
    var step := Duration(e) / steps;
    Division(Duration(e), steps);
    WholeCyclesEnd(e, step);
    CyclesOfSteps(e, step, steps);
    hide Averages, Integral, SeesEveryLeg, WholeCycles;
  }

  const CANCELLING: Envelope := Repeat(Some(Ramp(6, 0, 6, 1.0)), 3)

  lemma CancellingRates()
    ensures Duration(CANCELLING) == 36
    ensures RateAt(CANCELLING, 0) == 0.0 == RateAt(CANCELLING, 36)
    ensures RateAt(CANCELLING, 9) == 0.5 == RateAt(CANCELLING, 27)
    ensures RateAt(CANCELLING, 18) == 1.0
  {
    var ramp := Ramp(6, 0, 6, 1.0);
    assert RateAt(ramp, 0) == 0.0 && RateAt(ramp, 3) == 0.5 && RateAt(ramp, 6) == 1.0;
    assert RateAt(ramp, 9) == 0.5 && RateAt(ramp, 12) == 0.0;
  }

  /** Repetition is not concave: here the errors at the peaks and at the joins cancel, so a step that
      divides no leg still gets the area. */
  lemma RepetitionCanCancel()
    ensures !Aligned(CANCELLING, Duration(CANCELLING) / 4)
    ensures Expected(Some(CANCELLING), 4) == Integral(CANCELLING)
  {
    CancellingRates();
    hide RateAt;
    assert Averages(CANCELLING, 9, 1) == 0.25;
    assert Averages(CANCELLING, 9, 2) == 1.0;
    assert Averages(CANCELLING, 9, 3) == 1.75;
    assert Averages(CANCELLING, 9, 4) == 2.0;
  }
}
