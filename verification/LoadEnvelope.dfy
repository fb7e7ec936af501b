/** The offered-load envelope and its integral (internal/loadgen/envelope.go). Durations are whole
    nanoseconds, rates are reals. */
module LoadEnvelope {
  import opened Common
  import opened Integers
  import opened Reals

  /** inner is None where the source's interface value is nil. */
  datatype Envelope =
    | Ramp(up: int, hold: int, down: int, peak: real)
    | Repeat(inner: Option<Envelope>, times: int)

  const NANOS_PER_SECOND: real := 1000000000.0

  function Seconds(d: int): real { d as real / NANOS_PER_SECOND }

  function Duration(e: Envelope): int {
    match e
    case Ramp(up, hold, down, _) => up + hold + down
    case Repeat(Some(inner), times) => if times <= 0 then 0 else Duration(inner) * times
    case Repeat(None, _) => 0
  }

  function PeakRate(e: Envelope): real {
    match e
    case Ramp(_, _, _, peak) => peak
    case Repeat(Some(inner), times) => if times <= 0 then 0.0 else PeakRate(inner)
    case Repeat(None, _) => 0.0
  }

  function RateAt(e: Envelope, t: int): real {
    match e
    case Ramp(up, hold, down, peak) =>
      if t < 0 || t > Duration(e) then 0.0
      else if t < up then Times(peak, t as real / up as real)
      else if t < up + hold then peak
      else if down == 0 then 0.0
      else Times(peak, 1.0 - (t - up - hold) as real / down as real)
    case Repeat(Some(inner), times) =>
      if times <= 0 || t < 0 || t > Duration(e) || Duration(inner) <= 0 then 0.0
      else if t == Duration(e) then RateAt(inner, Duration(inner))
      else RateAt(inner, t % Duration(inner))
    case Repeat(None, _) => 0.0
  }

  /** What Validate accepts, for the ramp at the bottom. */
  predicate Valid(e: Envelope) {
    match e
    case Ramp(up, hold, down, peak) =>
      up >= 0 && hold >= 0 && down >= 0 && up + hold + down > 0 && peak >= 0.0
    case Repeat(Some(inner), _) => Valid(inner)
    case Repeat(None, _) => true
  }

  // ------------------------------------------------------------------- bounds

  lemma FractionBounds(a: int, b: int)
    requires 0 <= a <= b && b > 0
    ensures 0.0 <= a as real / b as real <= 1.0
  {
    DivideMonotone(0.0, a as real, b as real);
    DivideMonotone(a as real, b as real, b as real);
  }

  lemma ShareBounds(peak: real, share: real)
    requires peak >= 0.0 && 0.0 <= share <= 1.0
    ensures 0.0 <= Times(peak, share) <= peak
  {
    TimesMonotone(peak, 0.0, share);
    TimesMonotone(peak, share, 1.0);
    OneTimes(peak);
  }

  /** At every instant the rate is between zero and the peak. */
  lemma {:induction false} RateBounds(e: Envelope, t: int)
    requires Valid(e)
    ensures 0.0 <= RateAt(e, t) <= PeakRate(e)
  {
    match e
    case Ramp(up, hold, down, peak) =>
      if 0 <= t <= Duration(e) {
        if t < up {
          FractionBounds(t, up);
          ShareBounds(peak, t as real / up as real);
        } else if t >= up + hold && down != 0 {
          FractionBounds(t - up - hold, down);
          ShareBounds(peak, 1.0 - (t - up - hold) as real / down as real);
        }
      }
    case Repeat(Some(inner), times) =>
      PeakIsNotNegative(inner);
      if times > 0 && 0 <= t <= Duration(e) && Duration(inner) > 0 {
        RateBounds(inner, if t == Duration(e) then Duration(inner) else t % Duration(inner));
      }
    case Repeat(None, _) =>
  }

  lemma {:induction false} PeakIsNotNegative(e: Envelope)
    requires Valid(e)
    ensures PeakRate(e) >= 0.0
  {
    if e.Ramp? || e.inner.None? {
    } else {
      PeakIsNotNegative(e.inner.value);
    }
  }

  lemma {:induction false} DurationIsNotNegative(e: Envelope)
    requires Valid(e)
    ensures Duration(e) >= 0
  {
    if e.Ramp? || e.inner.None? {
    } else {
      DurationIsNotNegative(e.inner.value);
    }
  }

  // --------------------------------------------------------- the trapezoid rule

  function Average(e: Envelope, step: int, i: nat): real {
    (RateAt(e, step * i) + RateAt(e, step * (i + 1))) / 2.0
  }

  /** The sum of the first n trapezoids, in rate times steps. */
  function Averages(e: Envelope, step: int, n: nat): real {
    if n == 0 then 0.0 else Averages(e, step, n - 1) + Average(e, step, n - 1)
  }

  function Expected(e: Option<Envelope>, steps: int): real {
    if e.None? || steps < 1 || Duration(e.value) <= 0 then 0.0
    else
      var step := Duration(e.value) / steps;
      if step <= 0 then 0.0 else Times(Averages(e.value, step, steps), Seconds(step))
  }

  /** The area under the rate function. */
  function Integral(e: Envelope): real {
    match e
    case Ramp(up, hold, down, peak) => Times(peak, Seconds(up) / 2.0 + Seconds(hold) + Seconds(down) / 2.0)
    case Repeat(Some(inner), times) => if times <= 0 then 0.0 else Times(times as real, Integral(inner))
    case Repeat(None, _) => 0.0
  }

  predicate DividesLegs(e: Envelope, step: int)
    requires e.Ramp? && step > 0
  {
    e.up % step == 0 && e.hold % step == 0 && e.down % step == 0
  }

  /** The step divides each leg of the ramp, and both slopes are there. */
  predicate Aligned(e: Envelope, step: int)
    requires step > 0
  {
    match e
    case Ramp(up, hold, down, _) => up > 0 && hold >= 0 && down > 0 && DividesLegs(e, step)
    case Repeat(Some(inner), times) => times > 0 && Aligned(inner, step)
    case Repeat(None, _) => false
  }

  method ExpectedArrivals(env: Option<Envelope>, steps: int) returns (sum: real)
    ensures sum == Expected(env, steps)
  {
    if env.None? || steps < 1 || Duration(env.value) <= 0 {
      return 0.0;
    }
    var total := Duration(env.value);
    var step := total / steps;
    if step <= 0 {
      return 0.0;
    }
    hide RateAt, Times, Seconds, Duration;
    sum := 0.0;
    OneTimes(Seconds(step));
    for i := 0 to steps
      invariant sum == Times(Averages(env.value, step, i), Seconds(step))
    {
      var left := RateAt(env.value, step * i);
      var right := RateAt(env.value, step * (i + 1));
      Distribute(Seconds(step), Averages(env.value, step, i), Average(env.value, step, i));
      sum := sum + Times((left + right) / 2.0, Seconds(step));
    }
  }

  // ------------------------------------------------------------- one ramp exactly

  /** A ramp whose legs are u, h and d steps long. */
  function RampOf(peak: real, step: int, u: nat, h: nat, d: nat): Envelope {
    Ramp(step * u, step * h, step * d, peak)
  }

  lemma ScaledFraction(i: int, u: int, step: int)
    requires u > 0 && step > 0
    ensures step * u > 0 && (step * i) as real / (step * u) as real == i as real / u as real
  {
    var s, a, b := step as real, i as real, u as real;
    assert (step * i) as real == s * a && (step * u) as real == s * b;
    QuotientTimes(a, b);
    assert (a / b) * b == a;
    assert s * a == s * ((a / b) * b) == (a / b) * (s * b);
    assert s * b > 0.0;
  }

  lemma ShareOf(peak: real, i: real, u: real)
    requires u > 0.0
    ensures Times(peak, i / u) == Times(peak / u, i)
  {
    QuotientTimes(i, u);
    QuotientTimes(peak, u);
    var a, b := i / u, peak / u;
    assert peak * a == (b * u) * a == b * (a * u) == b * i;
  }

  lemma RateGoingUp(peak: real, step: int, u: nat, h: nat, d: nat, i: nat)
    requires step > 0 && u > 0 && d > 0 && i <= u
    ensures RateAt(RampOf(peak, step, u, h, d), step * i) == Times(peak / u as real, i as real)
  {
    RampLegs(step, u, h, d);
    StepsInOrder(step, 0, i);
    StepsInOrder(step, i, u);
    ShareOf(peak, i as real, u as real);
    if i < u {
      ScaledFraction(i, u, step);
    } else {
      QuotientTimes(peak, u as real);
      RateAtTheTop(peak, step, u, h, d, 0);
    }
  }

  lemma RampLegs(step: int, u: nat, h: nat, d: nat)
    requires step > 0
    ensures step * u >= 0 && step * h >= 0 && step * d >= 0
    ensures u > 0 ==> step * u > 0
    ensures d > 0 ==> step * d > 0
  {
  }

  lemma RateAtTheTop(peak: real, step: int, u: nat, h: nat, d: nat, m: nat)
    requires step > 0 && d > 0 && m <= h
    ensures RateAt(RampOf(peak, step, u, h, d), step * (u + m)) == peak
  {
    if m == h {
      RateGoingDown(peak, step, u, h, d, 0);
      OneTimes(0.0);
      OneTimes(peak / d as real);
    } else {
      RampLegs(step, u, h, d);
      StepsInOrder(step, u, m);
      StepsInOrder(step, m, h);
      StepsInOrder(step, 0, m);
    }
  }

  lemma RateGoingDown(peak: real, step: int, u: nat, h: nat, d: nat, m: nat)
    requires step > 0 && d > 0 && m <= d
    ensures RateAt(RampOf(peak, step, u, h, d), step * (u + h + m)) == peak - Times(peak / d as real, m as real)
  {
    RampLegs(step, u, h, d);
    StepsInOrder(step, u, h);
    StepsInOrder(step, u + h, m);
    StepsInOrder(step, m, d);
    StepsInOrder(step, 0, m);
    ScaledFraction(m, d, step);
    ShareOf(peak, m as real, d as real);
    ProductOfDifferences(peak, 0.0, 1.0, m as real / d as real);
    OneTimes(peak);
    OneTimes(1.0);
    OneTimes(m as real / d as real);
  }

  lemma NextSquare(q: real, k: nat)
    ensures Times(q, (k * k) as real) + Times(q, k as real) + Times(q, (k + 1) as real)
      == Times(q, ((k + 1) * (k + 1)) as real)
  {
    assert (k + 1) * (k + 1) == k * k + k + (k + 1);
    Distribute(q, (k * k) as real, k as real);
    Distribute(q, (k * k + k) as real, (k + 1) as real);
  }

  /** The climb adds up to half the square of the steps climbed, times the rise per step. */
  lemma {:induction false} SumGoingUp(peak: real, step: int, u: nat, h: nat, d: nat, k: nat)
    requires step > 0 && u > 0 && d > 0 && k <= u
    ensures Averages(RampOf(peak, step, u, h, d), step, k) == Times(peak / u as real, (k * k) as real) / 2.0
  {
    hide Times, RateAt, RampOf;
    var q := peak / u as real;
    if k == 0 {
      OneTimes(q);
    } else {
      SumGoingUp(peak, step, u, h, d, k - 1);
      RateGoingUp(peak, step, u, h, d, k - 1);
      RateGoingUp(peak, step, u, h, d, k);
      NextSquare(q, k - 1);
    }
  }

  lemma {:induction false} SumAtTheTop(peak: real, step: int, u: nat, h: nat, d: nat, m: nat)
    requires step > 0 && d > 0 && m <= h
    ensures var e := RampOf(peak, step, u, h, d);
      Averages(e, step, u + m) == Averages(e, step, u) + Times(peak, m as real)
  {
    hide Times, RateAt, RampOf;
    if m == 0 {
      OneTimes(peak);
    } else {
      SumAtTheTop(peak, step, u, h, d, m - 1);
      RateAtTheTop(peak, step, u, h, d, m - 1);
      RateAtTheTop(peak, step, u, h, d, m);
      Distribute(peak, (m - 1) as real, 1.0);
      OneTimes(peak);
    }
  }

  lemma {:induction false} SumGoingDown(peak: real, step: int, u: nat, h: nat, d: nat, m: nat)
    requires step > 0 && d > 0 && m <= d
    ensures var e := RampOf(peak, step, u, h, d);
      Averages(e, step, u + h + m) ==
        Averages(e, step, u + h) + Times(peak, m as real) - Times(peak / d as real, (m * m) as real) / 2.0
  {
    hide Times, RateAt, RampOf;
    var q := peak / d as real;
    if m == 0 {
      OneTimes(peak);
      OneTimes(q);
    } else {
      SumGoingDown(peak, step, u, h, d, m - 1);
      RateGoingDown(peak, step, u, h, d, m - 1);
      RateGoingDown(peak, step, u, h, d, m);
      NextSquare(q, m - 1);
      Distribute(peak, (m - 1) as real, 1.0);
      OneTimes(peak);
    }
  }

  lemma HalfSquare(peak: real, u: nat)
    requires u > 0
    ensures Times(peak / u as real, (u * u) as real) == Times(peak, u as real)
  {
    var q, v := peak / u as real, u as real;
    QuotientTimes(peak, v);
    assert (u * u) as real == v * v;
    assert q * (v * v) == (q * v) * v;
  }

  lemma SecondsOfSteps(step: int, n: nat)
    ensures Times(n as real, Seconds(step)) == Seconds(step * n)
  {
    assert (step * n) as real == n as real * step as real;
  }

  lemma WholeClimb(peak: real, step: int, u: nat, h: nat, d: nat)
    requires step > 0 && d > 0
    ensures Averages(RampOf(peak, step, u, h, d), step, u) == Times(peak, u as real) / 2.0
  {
    if u == 0 {
      OneTimes(peak);
    } else {
      SumGoingUp(peak, step, u, h, d, u);
      HalfSquare(peak, u);
    }
  }

  /** The trapezoid rule is exact on a ramp whose legs are whole numbers of steps. */
  lemma RampIsExact(peak: real, step: int, u: nat, h: nat, d: nat)
    requires step > 0 && d > 0
    ensures var e := RampOf(peak, step, u, h, d);
      Times(Averages(e, step, u + h + d), Seconds(step)) == Integral(e)
  {
    var e, a, b, c, s := RampOf(peak, step, u, h, d), u as real, h as real, d as real, Seconds(step);
    WholeClimb(peak, step, u, h, d);
    SumAtTheTop(peak, step, u, h, d, h);
    SumGoingDown(peak, step, u, h, d, d);
    HalfSquare(peak, d);
    Distribute(peak, a / 2.0, b);
    Distribute(peak, a / 2.0 + b, c / 2.0);
    HalfTimes(peak, a);
    HalfTimes(peak, c);
    assert Averages(e, step, u + h + d) == Times(peak, a / 2.0 + b + c / 2.0) by { hide Averages, Times; }
    SecondsOfSteps(step, u);
    SecondsOfSteps(step, h);
    SecondsOfSteps(step, d);
    AreaInSeconds(peak, a, b, c, s);
  }

  lemma HalfTimes(a: real, b: real)
    ensures Times(a, b / 2.0) == Times(a, b) / 2.0
  {
  }

  lemma AreaInSeconds(peak: real, a: real, b: real, c: real, s: real)
    ensures Times(Times(peak, a / 2.0 + b + c / 2.0), s) ==
      Times(peak, Times(a, s) / 2.0 + Times(b, s) + Times(c, s) / 2.0)
  {
    var w := a / 2.0 + b + c / 2.0;
    assert (peak * w) * s == peak * (w * s);
    assert w * s == a * s / 2.0 + b * s + c * s / 2.0;
  }

  // ----------------------------------------------------------------- repetition

  /** Each cycle is a whole number of steps long, and starts and ends silent. */
  predicate WholeCycles(e: Envelope, step: int)
    requires step > 0
  {
    match e
    case Ramp(up, hold, down, _) => up > 0 && hold >= 0 && down >= 0 && Duration(e) % step == 0
    case Repeat(Some(inner), times) => times > 0 && WholeCycles(inner, step)
    case Repeat(None, _) => false
  }

  lemma {:induction false} AlignedIsWhole(e: Envelope, step: int)
    requires step > 0 && Aligned(e, step)
    ensures WholeCycles(e, step)
  {
    match e
    case Ramp(up, hold, down, _) =>
      Division(up, step);
      Division(hold, step);
      Division(down, step);
      var u, h, d := up / step, hold / step, down / step;
      SplitTimes(step, u, h);
      SplitTimes(step, u + h, d);
      WholeSteps(step, u + h + d);
    case Repeat(Some(inner), times) => AlignedIsWhole(inner, step);
  }

  /** An envelope of whole cycles is a whole number of steps long and silent at both ends. */
  lemma {:induction false} WholeCyclesEnd(e: Envelope, step: int)
    requires step > 0 && WholeCycles(e, step)
    ensures Duration(e) > 0 && Duration(e) % step == 0
    ensures RateAt(e, 0) == 0.0 == RateAt(e, Duration(e))
  {
    match e
    case Ramp(up, hold, down, peak) => RampEnds(up, hold, down, peak);
    case Repeat(Some(inner), times) =>
      WholeCyclesEnd(inner, step);
      RepeatEnds(inner, times);
      Division(Duration(inner), step);
      var n := Duration(inner) / step;
      StepsOfCycles(step, n, times, 0);
      WholeSteps(step, n * times);
  }

  lemma AlignedEnds(e: Envelope, step: int)
    requires step > 0 && Aligned(e, step)
    ensures Duration(e) > 0 && Duration(e) % step == 0
    ensures RateAt(e, 0) == 0.0 == RateAt(e, Duration(e))
  {
    AlignedIsWhole(e, step);
    WholeCyclesEnd(e, step);
  }

  lemma RampEnds(up: int, hold: int, down: int, peak: real)
    requires up > 0 && hold >= 0 && down >= 0
    ensures RateAt(Ramp(up, hold, down, peak), 0) == 0.0 == RateAt(Ramp(up, hold, down, peak), up + hold + down)
  {
    OneTimes(peak);
  }

  lemma RepeatEnds(inner: Envelope, times: int)
    requires Duration(inner) > 0 && times > 0
    ensures var e := Repeat(Some(inner), times);
      Duration(e) > 0 && RateAt(e, 0) == RateAt(inner, 0) && RateAt(e, Duration(e)) == RateAt(inner, Duration(inner))
  {
    AtLeastOnce(Duration(inner), times);
  }

  lemma WholeSteps(step: int, n: int)
    requires step > 0
    ensures (step * n) % step == 0 && (step * n) / step == n
    ensures n > 0 ==> step * n > 0
  {
    StepsInOrder(step, 0, n);
    DivisionIs(step, n, 0);
  }

  /** Inside cycle c, and at the end of the last one, a repetition plays its inner envelope. */
  lemma RateWithin(inner: Envelope, times: int, c: nat, rest: nat)
    requires Duration(inner) > 0 && c < times && rest < Duration(inner)
    ensures RateAt(Repeat(Some(inner), times), Duration(inner) * c + rest) == RateAt(inner, rest)
  {
    InCycle(Duration(inner), times, c, rest);
  }

  lemma RateAtEnd(inner: Envelope, times: int)
    requires Duration(inner) > 0 && times > 0
    ensures RateAt(Repeat(Some(inner), times), Duration(inner) * times) == RateAt(inner, Duration(inner))
  {
    StepsInOrder(Duration(inner), 0, times);
  }

  lemma StepsOfCycles(step: int, n: int, c: int, j: int)
    ensures step * (n * c + j) == (step * n) * c + step * j
  {
    assert step * (n * c) == (step * n) * c;
  }

  /** j steps into cycle c, counting both ends of the cycle in, the rate is the inner one. */
  lemma RateInCycle(inner: Envelope, times: int, step: int, c: nat, n: nat, j: nat)
    requires step > 0 && WholeCycles(inner, step) && times > 0
    requires Duration(inner) == step * n && c < times && j <= n
    ensures RateAt(Repeat(Some(inner), times), step * (n * c + j)) == RateAt(inner, step * j)
  {
    hide RateAt, Duration, WholeCycles;
    WholeCyclesEnd(inner, step);
    StepsOfCycles(step, n, c, j);
    StepsInOrder(step, j, n);
    StepsInOrder(step, 0, j);
    if j < n {
      RateWithin(inner, times, c, step * j);
    } else {
      assert Duration(inner) * c + Duration(inner) == Duration(inner) * (c + 1);
      if c + 1 < times {
        RateWithin(inner, times, c + 1, 0);
      } else {
        RateAtEnd(inner, times);
      }
    }
  }

  lemma InCycle(len: int, times: int, c: nat, rest: nat)
    requires rest < len && c < times
    ensures 0 <= len * c + rest < len * times
    ensures (len * c + rest) % len == rest
  {
    AtLeastOnce(len, times - c);
    assert len * times == len * c + len * (times - c);
    StepsInOrder(len, 0, c);
    DivisionIs(len, c, rest);
  }

  lemma {:induction false} SumInCycle(inner: Envelope, times: int, step: int, c: nat, n: nat, j: nat)
    requires step > 0 && WholeCycles(inner, step) && times > 0
    requires Duration(inner) == step * n && c < times && j <= n && n * c >= 0
    ensures var e := Repeat(Some(inner), times);
      Averages(e, step, n * c + j) == Averages(e, step, n * c) + Averages(inner, step, j)
    decreases j
  {
    hide RateAt, WholeCycles;
    if j == 0 {
    } else {
      SumInCycle(inner, times, step, c, n, j - 1);
      RateInCycle(inner, times, step, c, n, j - 1);
      RateInCycle(inner, times, step, c, n, j);
    }
  }

  lemma {:induction false} SumOverCycles(inner: Envelope, times: int, step: int, c: nat, n: nat)
    requires step > 0 && WholeCycles(inner, step) && times > 0
    requires Duration(inner) == step * n && c <= times
    ensures n * c >= 0
    ensures Averages(Repeat(Some(inner), times), step, n * c) == Times(c as real, Averages(inner, step, n))
    decreases c
  {
    hide RateAt, WholeCycles, Times;
    var cycle := Averages(inner, step, n);
    if c == 0 {
      OneTimes(cycle);
    } else {
      SumOverCycles(inner, times, step, c - 1, n);
      SumInCycle(inner, times, step, c - 1, n, n);
      assert n * (c - 1) + n == n * c;
      Distribute(cycle, (c - 1) as real, 1.0);
      OneTimes(cycle);
    }
  }

  lemma AlignedRampIsExact(e: Envelope, step: int, n: nat)
    requires e.Ramp? && e.up >= 0 && e.hold >= 0 && e.down > 0
    requires step > 0 && DividesLegs(e, step) && Duration(e) == step * n
    ensures Times(Averages(e, step, n), Seconds(step)) == Integral(e)
  {
    Division(e.up, step);
    Division(e.hold, step);
    Division(e.down, step);
    var u, h, d := e.up / step, e.hold / step, e.down / step;
    CountLegs(step, u, h, d, n);
    hide Averages, Integral;
    RampIsExact(e.peak, step, u, h, d);
    assert e == RampOf(e.peak, step, u, h, d);
  }

  lemma CountLegs(step: int, u: int, h: int, d: int, n: int)
    requires step > 0 && step * u >= 0 && step * h >= 0 && step * d > 0
    requires step * u + step * h + step * d == step * n
    ensures u >= 0 && h >= 0 && d > 0 && n == u + h + d
  {
    StepsInOrder(step, u, 0);
    StepsInOrder(step, h, 0);
    StepsInOrder(step, 0, d);
    StepsInOrder(step, u, h);
    StepsInOrder(step, u + h, d);
    StepsInOrder(step, n, u + h + d);
  }

  /** The trapezoid rule is exact on every envelope whose ramp legs are whole numbers of steps,
      however its repetitions are nested. */
  lemma {:induction false} AlignedIsExact(e: Envelope, step: int, n: nat)
    requires step > 0 && Aligned(e, step) && Duration(e) == step * n
    ensures Times(Averages(e, step, n), Seconds(step)) == Integral(e)
  {
    match e
    case Ramp(_, _, _, _) => AlignedRampIsExact(e, step, n);
    case Repeat(Some(inner), times) =>
      AlignedIsWhole(inner, step);
      WholeCyclesEnd(inner, step);
      Division(Duration(inner), step);
      var m := Duration(inner) / step;
      StepsInOrder(step, 0, m);
      StepsOfCycles(step, m, times, 0);
      StepsInOrder(step, n, m * times);
      hide Duration, Averages, Seconds, RateAt, Times;
      AlignedIsExact(inner, step, m);
      SumOverCycles(inner, times, step, times, m);
      TimesInAnyOrder(times as real, Averages(inner, step, m), Seconds(step));
  }

  lemma TimesInAnyOrder(a: real, b: real, c: real)
    ensures Times(Times(a, b), c) == Times(a, Times(b, c))
  {
    assert (a * b) * c == a * (b * c);
  }

  /** When the steps divide the run and the step divides each leg, the expected arrivals are
      exactly the area under the rate function: for one ramp repeated, the number of cycles times
      the peak times half the climb, the hold and half the descent in seconds. */
  lemma ExpectedIsIntegral(e: Envelope, steps: int)
    requires steps >= 1 && Duration(e) % steps == 0 && Duration(e) / steps > 0
    requires Aligned(e, Duration(e) / steps)
    ensures Expected(Some(e), steps) == Integral(e)
  {
    var step := Duration(e) / steps;
    assert Duration(e) == step * steps;
    AlignedEnds(e, step);
    AlignedIsExact(e, step, steps);
  }

  /** The step does matter: taken in one step the same run offers nothing at all. */
  lemma OneStepSeesNothing(e: Envelope, step: int)
    requires step > 0 && WholeCycles(e, step)
    ensures Expected(Some(e), 1) == 0.0
  {
    WholeCyclesEnd(e, step);
    var total := Duration(e);
    assert total * 0 == 0 && total * 1 == total;
    assert Average(e, total, 0) == 0.0;
    assert Averages(e, total, 1) == Averages(e, total, 0) + Average(e, total, 0);
    OneTimes(Seconds(total));
  }

  // -------------------------------------------------------------- any step at all

  lemma {:induction false} SumBounds(e: Envelope, step: int, n: nat)
    requires Valid(e)
    ensures 0.0 <= Averages(e, step, n) <= Times(n as real, PeakRate(e))
  {
    hide RateAt, PeakRate, Times;
    if n == 0 {
      OneTimes(PeakRate(e));
    } else {
      SumBounds(e, step, n - 1);
      RateBounds(e, step * (n - 1));
      RateBounds(e, step * n);
      Distribute(PeakRate(e), (n - 1) as real, 1.0);
      OneTimes(PeakRate(e));
    }
  }

  lemma StepFits(total: int, steps: int)
    requires steps >= 1 && total > 0
    ensures total / steps * steps <= total
  {
    Division(total, steps);
  }

  lemma AreaWithinPeak(e: Envelope, step: int, steps: nat, total: int)
    requires Valid(e) && step > 0 && step * steps <= total
    ensures 0.0 <= Times(Averages(e, step, steps), Seconds(step)) <= Times(PeakRate(e), Seconds(total))
  {
    var area, peak, s, n := Averages(e, step, steps), PeakRate(e), Seconds(step), steps as real;
    SumBounds(e, step, steps);
    PeakIsNotNegative(e);
    SecondsOfSteps(step, steps);
    SecondsOrder(0, step);
    SecondsOrder(step * steps, total);
    hide Averages, PeakRate, Seconds, Times, RateAt;
    TimesMonotone(s, 0.0, area);
    TimesMonotone(s, area, Times(n, peak));
    Commute(s, area);
    Commute(s, Times(n, peak));
    OneTimes(s);
    Commute(n, peak);
    TimesInAnyOrder(peak, n, s);
    TimesMonotone(peak, Seconds(step * steps), Seconds(total));
  }

  lemma SecondsOrder(a: int, b: int)
    requires a <= b
    ensures Seconds(a) <= Seconds(b) && Seconds(0) == 0.0
  {
  }

  /** Aligned or not, the expected arrivals lie between zero and the peak rate kept up for the
      whole run. */
  lemma ExpectedWithinPeak(e: Envelope, steps: int)
    requires Valid(e)
    ensures 0.0 <= Expected(Some(e), steps) <= Times(PeakRate(e), Seconds(Duration(e)))
  {
    DurationIsNotNegative(e);
    hide Averages, RateAt, PeakRate, Times, Seconds;
    var total := Duration(e);
    if steps >= 1 && total > 0 && total / steps > 0 {
      StepFits(total, steps);
      AreaWithinPeak(e, total / steps, steps, total);
    } else {
      PeakIsNotNegative(e);
      SecondsOrder(0, total);
      TimesMonotone(PeakRate(e), 0.0, Seconds(total));
      OneTimes(PeakRate(e));
    }
  }
}
