/** The shape of an offered load: which ramp it plays, how often, how high and how much, in plain
    arithmetic on the ramp's legs (internal/loadgen/envelope.go). */
module EnvelopeShape {
  import opened Common
  import opened Integers
  import opened Reals
  import opened LoadEnvelope
  import opened EnvelopeExactness

  /** Something is played: a ramp at the bottom, and every repetition above it at least once. */
  predicate Plays(e: Envelope) {
    match e
    case Ramp(_, _, _, _) => true
    case Repeat(Some(inner), times) => times > 0 && Plays(inner)
    case Repeat(None, _) => false
  }

  /** How many times the ramp at the bottom is played. */
  function Cycles(e: Envelope): int {
    match e
    case Ramp(_, _, _, _) => 1
    case Repeat(Some(inner), times) => Cycles(inner) * times
    case Repeat(None, _) => 0
  }

  /** The ramp climbs in a line, holds its peak, and comes down in a line. */
  lemma RampIsPiecewiseLinear(up: int, hold: int, down: int, peak: real, t: int)
    requires Valid(Ramp(up, hold, down, peak))
    ensures var rate, total := RateAt(Ramp(up, hold, down, peak), t), up + hold + down;
      if 0 <= t < up then rate * up as real == peak * t as real
      else if up <= t < up + hold then rate == peak
      else if up + hold <= t <= total && down > 0 then rate * down as real == peak * (total - t) as real
      else rate == 0.0
  {
    if 0 <= t < up {
      QuotientTimes(t as real, up as real);
      Scaled(peak, t as real / up as real, up as real);
    } else if up + hold <= t <= up + hold + down && down > 0 {
      var share := (t - up - hold) as real / down as real;
      QuotientTimes((t - up - hold) as real, down as real);
      Scaled(peak, 1.0 - share, down as real);
      Distribute(down as real, 1.0, -share);
      assert (1.0 - share) * down as real == down as real - share * down as real;
    }
  }

  lemma Scaled(peak: real, share: real, leg: real)
    ensures Times(peak, share) * leg == peak * (share * leg)
  {
  }

  lemma {:induction false} PlayedDuration(e: Envelope)
    requires Valid(e) && Plays(e)
    ensures Bottom(e).Ramp? && Valid(Bottom(e)) && Cycles(e) > 0
    ensures Duration(Bottom(e)) > 0 && Duration(e) == Duration(Bottom(e)) * Cycles(e)
  {
    match e
    case Ramp(_, _, _, _) =>
    case Repeat(Some(inner), times) =>
      PlayedDuration(inner);
      AtLeastOnce(Cycles(inner), times);
      assert Duration(Bottom(inner)) * Cycles(inner) * times == Duration(Bottom(inner)) * (Cycles(inner) * times);
    case Repeat(None, _) => assert false;
  }

  lemma RestOfRest(t: int, d: int, k: int)
    requires d > 0 && k > 0
    ensures d * k > 0 && (t % (d * k)) % d == t % d
  {
    AtLeastOnce(d, k);
    Division(t, d * k);
    var q, r := t / (d * k), t % (d * k);
    Division(r, d);
    assert t == d * (k * q + r / d) + r % d by {
      assert (d * k) * q == d * (k * q);
      SplitTimes(d, k * q, r / d);
    }
    DivisionIs(d, k * q + r / d, r % d);
  }

  /** However deep the repetitions are nested, at every instant the load is that of the ramp at the
      bottom, so far into its cycle. */
  lemma {:induction false} EveryCycleReplaysTheRamp(e: Envelope, t: int)
    requires Valid(e) && Plays(e) && 0 <= t <= Duration(e)
    ensures Bottom(e).Ramp? && Duration(Bottom(e)) > 0
    ensures var ramp := Bottom(e);
      RateAt(e, t) == if t == Duration(e) then RateAt(ramp, Duration(ramp)) else RateAt(ramp, t % Duration(ramp))
  {
    PlayedDuration(e);
    match e
    case Ramp(_, _, _, _) => if t < Duration(e) { DivisionIs(Duration(e), 0, t); }
    case Repeat(Some(inner), times) =>
      PlayedDuration(inner);
      var d, len := Duration(Bottom(inner)), Duration(inner);
      AtLeastOnce(d, Cycles(inner));
      hide Bottom, Duration, Cycles, Valid, Plays;
      if t == Duration(e) {
        EveryCycleReplaysTheRamp(inner, len);
      } else {
        Division(t, len);
        EveryCycleReplaysTheRamp(inner, t % len);
        RestOfRest(t, d, Cycles(inner));
      }
    case Repeat(None, _) => assert false;
  }

  lemma {:induction false} SilentWithoutRamp(e: Envelope, t: int)
    requires Valid(e) && !Plays(e)
    ensures Duration(e) == 0 && PeakRate(e) == 0.0 && RateAt(e, t) == 0.0
  {
    match e
    case Repeat(Some(inner), times) =>
      if times > 0 {
        SilentWithoutRamp(inner, t);
      }
    case Repeat(None, _) =>
    case Ramp(_, _, _, _) => assert false;
  }

  /** The peak rate is that of the ramp at the bottom, if anything is played. */
  lemma {:induction false} PeakIsTheRamps(e: Envelope)
    requires Valid(e) && Plays(e)
    ensures Bottom(e).Ramp? && PeakRate(e) == Bottom(e).peak
  {
    match e
    case Ramp(_, _, _, _) =>
    case Repeat(Some(inner), _) => PeakIsTheRamps(inner);
    case Repeat(None, _) => assert false;
  }

  ghost predicate ReachedAt(e: Envelope, t: int) {
    RateAt(e, t) == PeakRate(e)
  }

  /** The peak rate is reached, and not only approached, exactly when nothing is played, the ramp holds
      its peak or comes down from it, or the peak is zero. */
  lemma PeakIsReachedExactlyWhen(e: Envelope)
    requires Valid(e)
    ensures (exists t :: ReachedAt(e, t)) <==>
      !Plays(e) || (Bottom(e).Ramp? && (Bottom(e).hold + Bottom(e).down > 0 || Bottom(e).peak == 0.0))
  {
    if !Plays(e) {
      SilentWithoutRamp(e, 0);
      assert ReachedAt(e, 0);
    } else {
      PlayedDuration(e);
      PeakIsTheRamps(e);
      var ramp := Bottom(e);
      if ramp.hold + ramp.down > 0 || ramp.peak == 0.0 {
        var t := if ramp.peak == 0.0 then -1 else ramp.up;
        if t == ramp.up { ReachedAtTheTop(e); } else { OutsideIsSilent(e, t); }
        assert ReachedAt(e, t);
      } else {
        forall t
          ensures !ReachedAt(e, t)
        {
          NeverReached(e, t);
        }
      }
    }
  }

  lemma OutsideIsSilent(e: Envelope, t: int)
    requires t < 0 || t > Duration(e)
    ensures RateAt(e, t) == 0.0
  {
  }

  lemma ReachedAtTheTop(e: Envelope)
    requires Valid(e) && Plays(e) && Bottom(e).Ramp? && Bottom(e).hold + Bottom(e).down > 0
    ensures RateAt(e, Bottom(e).up) == Bottom(e).peak
  {
    var ramp := Bottom(e);
    PlayedDuration(e);
    AtLeastOnce(Duration(ramp), Cycles(e));
    DivisionIs(Duration(ramp), 0, ramp.up);
    EveryCycleReplaysTheRamp(e, ramp.up);
    hide Bottom, Cycles, Plays;
    OneTimes(ramp.peak);
    assert ramp.down > 0 ==> 0 as real / ramp.down as real == 0.0;
  }

  lemma NeverReached(e: Envelope, t: int)
    requires Valid(e) && Plays(e) && Bottom(e).Ramp?
    requires Bottom(e).hold == Bottom(e).down == 0 && Bottom(e).peak > 0.0
    ensures RateAt(e, t) < Bottom(e).peak
  {
    var ramp := Bottom(e);
    PlayedDuration(e);
    if 0 <= t <= Duration(e) {
      EveryCycleReplaysTheRamp(e, t);
      hide Bottom, Cycles, Plays;
      var u := if t == Duration(e) then ramp.up else t % ramp.up;
      assert RateAt(e, t) == RateAt(ramp, u);
      if u < ramp.up {
        ProperFraction(u as real, ramp.up as real);
        TimesStrict(ramp.peak, u as real / ramp.up as real, 1.0);
        OneTimes(ramp.peak);
      }
    } else {
      OutsideIsSilent(e, t);
    }
  }

  /** The area under the load, in plain terms: the cycles played, times the peak, times half the climb,
      the hold and half the descent, in seconds of a thousand million nanoseconds. */
  lemma {:induction false} AreaOfTheCycles(e: Envelope)
    requires Valid(e) && Plays(e)
    ensures Bottom(e).Ramp?
    ensures var ramp := Bottom(e);
      Integral(e) * 2_000_000_000.0 == Cycles(e) as real * (ramp.peak * (ramp.up + 2 * ramp.hold + ramp.down) as real)
  {
    match e
    case Ramp(up, hold, down, peak) => AreaOfARamp(up, hold, down, peak);
    case Repeat(Some(inner), times) =>
      AreaOfTheCycles(inner);
      var ramp := Bottom(inner);
      var one := ramp.peak * (ramp.up + 2 * ramp.hold + ramp.down) as real;
      ManyCycles(Integral(inner), Cycles(inner), times, one);
    case Repeat(None, _) => assert false;
  }

  lemma AreaOfARamp(up: int, hold: int, down: int, peak: real)
    ensures Integral(Ramp(up, hold, down, peak)) * 2_000_000_000.0 == peak * (up + 2 * hold + down) as real
  {
    var w := Seconds(up) / 2.0 + Seconds(hold) + Seconds(down) / 2.0;
    assert w * 2_000_000_000.0 == (up + 2 * hold + down) as real;
    assert (peak * w) * 2_000_000_000.0 == peak * (w * 2_000_000_000.0);
  }

  lemma ManyCycles(area: real, cycles: int, times: int, one: real)
    requires area * 2_000_000_000.0 == cycles as real * one
    ensures Times(times as real, area) * 2_000_000_000.0 == (cycles * times) as real * one
  {
    var c, n := cycles as real, times as real;
    assert (n * area) * 2_000_000_000.0 == n * (area * 2_000_000_000.0);
    assert n * (c * one) == (c * n) * one;
    assert (cycles * times) as real == c * n;
  }
}
