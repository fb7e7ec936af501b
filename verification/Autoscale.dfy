/** How many vmhost pods the fleet should run (internal/autoscale/autoscale.go). Rates, times and
    durations are reals, in seconds. */
module Autoscale {
  import opened Reals
  import opened Regression

  datatype Config = Config(
    slotsPerHost: int,
    targetUtilisation: real,
    meanTTL: real,
    provisionLatency: real,
    scaleDownStabilization: real,
    minReplicas: int,
    maxReplicas: int,
    slopeWindow: real)
  {
    predicate Valid() {
      && slotsPerHost >= 2
      && 0.0 < targetUtilisation <= 1.0
      && meanTTL > 0.0
      && provisionLatency >= 0.0
      && scaleDownStabilization >= 0.0
      && 0 <= minReplicas <= maxReplicas
      && slopeWindow >= 0.0
    }
  }

  datatype Decision = Decision(
    replicas: int,
    predictedRate: real,
    predictedVMs: real,
    leadTerm: real,
    heldByStabilization: bool)

  datatype State = State(history: seq<Sample>, rateSlope: real, peak: int, peakAt: real)

  const FRESH: State := State([], 0.0, 0, 0.0)

  // --------------------------------------------------------------------- slope

  /** The first sample from k on that the window keeps: those before the cutoff go, but never so
      many that fewer than two are left. */
  function FirstKept(h: seq<Sample>, cutoff: real, k: nat): (r: nat)
    requires k <= |h|
    ensures k <= r <= |h| && (r > k ==> r + 2 <= |h|)
    ensures r + 2 < |h| ==> h[r].at >= cutoff
    ensures forall i :: k <= i < r ==> h[i].at < cutoff
    decreases |h| - k
  {
    if k + 2 < |h| && h[k].at < cutoff then FirstKept(h, cutoff, k + 1) else k
  }

  function Trim(h: seq<Sample>, cutoff: real): seq<Sample> {
    h[FirstKept(h, cutoff, 0)..]
  }

  /** A sample no later than the newest leaves history and slope alone. */
  function Observe(cfg: Config, s: State, x: Sample): State {
    if s.history != [] && x.at <= s.history[|s.history| - 1].at then s
    else
      var h := Trim(s.history + [x], x.at - cfg.slopeWindow);
      s.(history := h, rateSlope := Slope(h))
  }

  /** On an increasing history the kept samples are exactly those inside the window, except that
      the newest two are always kept. */
  lemma WindowIsExact(h: seq<Sample>, cutoff: real, i: nat)
    requires Increasing(h) && i < |h|
    ensures h[i] in Trim(h, cutoff) <==> h[i].at >= cutoff || i + 2 >= |h|
  {
    var k := FirstKept(h, cutoff, 0);
    if i < k {
      assert forall j :: k <= j < |h| ==> h[j] != h[i];
    } else {
      assert h[k..][i - k] == h[i];
    }
  }

  lemma SuffixIsIncreasing(h: seq<Sample>, k: nat)
    requires Increasing(h) && k <= |h|
    ensures Increasing(h[k..])
  {
  }

  lemma NewestKeepsIncreasing(h: seq<Sample>, x: Sample)
    requires Increasing(h) && (h != [] ==> h[|h| - 1].at < x.at)
    ensures Increasing(h + [x])
  {
  }

  lemma ShortHistoryIsFlat(h: seq<Sample>)
    requires |h| < 2
    ensures Slope(h) == 0.0
  {
  }

  /** Only the times decide what is dropped. */
  lemma {:induction false} KeptFollowsTimes(h: seq<Sample>, g: seq<Sample>, cutoff: real, k: nat)
    requires |h| == |g| && (forall i :: 0 <= i < |h| ==> h[i].at == g[i].at) && k <= |h|
    ensures FirstKept(h, cutoff, k) == FirstKept(g, cutoff, k)
    decreases |h| - k
  {
    if k + 2 >= |h| || h[k].at >= cutoff {
    } else {
      KeptFollowsTimes(h, g, cutoff, k + 1);
    }
  }

  // -------------------------------------------------------------------- sizing

  function Ceil(x: real): int {
    -((-x).Floor)
  }

  function MaxReal(a: real, b: real): real { if a < b then b else a }

  function Clamp(cfg: Config, replicas: int): int {
    var low := if replicas < cfg.minReplicas then cfg.minReplicas else replicas;
    if low > cfg.maxReplicas then cfg.maxReplicas else low
  }

  function LeadTerm(cfg: Config, slope: real): real {
    Times(cfg.provisionLatency, MaxReal(0.0, slope))
  }

  /** The VMs to provide for: those predicted at the end of the lead time, but no fewer than are
      running now. */
  function RequiredVMs(cfg: Config, slope: real, x: Sample): real {
    MaxReal(Times(cfg.meanTTL, x.rate + LeadTerm(cfg, slope)), x.inflight as real)
  }

  function Replicas(cfg: Config, required: real): int
    requires cfg.Valid()
  {
    Ceil(required / cfg.targetUtilisation / cfg.slotsPerHost as real)
  }

  function RawDemand(cfg: Config, slope: real, x: Sample): int
    requires cfg.Valid()
  {
    Clamp(cfg, Replicas(cfg, RequiredVMs(cfg, slope, x)))
  }

  // ------------------------------------------------------------- stabilisation

  /** Grows at once; shrinks only once the window has passed since the peak. */
  function Stabilize(cfg: Config, s: State, now: real, replicas: int): (State, int) {
    if replicas >= s.peak || cfg.scaleDownStabilization == 0.0 || now - s.peakAt >= cfg.scaleDownStabilization
    then (s.(peak := replicas, peakAt := now), replicas)
    else (s, s.peak)
  }

  function Decide(cfg: Config, s: State, x: Sample): (State, Decision)
    requires cfg.Valid()
  {
    var seen := Observe(cfg, s, x);
    var raw := RawDemand(cfg, seen.rateSlope, x);
    var (s', replicas) := Stabilize(cfg, seen, x.at, raw);
    var lead := LeadTerm(cfg, seen.rateSlope);
    (s', Decision(replicas, x.rate + lead, Times(cfg.meanTTL, x.rate + lead), lead, replicas > raw))
  }

  // -------------------------------------------------------------- sizing proofs

  lemma CeilIsLeast(x: real, r: int)
    ensures Ceil(x) <= r <==> x <= r as real
  {
    assert (-x).Floor as real <= -x < (-x).Floor as real + 1.0;
  }

  lemma CeilMonotone(x: real, y: real)
    requires x <= y
    ensures Ceil(x) <= Ceil(y)
  {
    CeilIsLeast(x, Ceil(y));
    CeilIsLeast(y, Ceil(y));
  }

  lemma QuotientOrder(a: real, d: real, r: real)
    requires d > 0.0
    ensures a / d <= r <==> a <= Times(r, d)
  {
    QuotientTimes(a, d);
    if a / d <= r {
      TimesMonotone(d, a / d, r);
      Commute(d, a / d);
      Commute(d, r);
    } else if a <= Times(r, d) {
      OrderOfFactors(a / d, r, d);
    }
  }

  /** The pod count is the least whose slots, filled to the target, hold the required VMs. */
  lemma SizingIsTight(cfg: Config, required: real, r: int)
    requires cfg.Valid()
    ensures Replicas(cfg, required) <= r <==>
      required <= r as real * cfg.slotsPerHost as real * cfg.targetUtilisation
  {
    hide Ceil;
    var slots, pods := cfg.slotsPerHost as real, r as real;
    CeilIsLeast(required / cfg.targetUtilisation / slots, r);
    QuotientOrder(required / cfg.targetUtilisation, slots, pods);
    QuotientOrder(required, cfg.targetUtilisation, Times(pods, slots));
  }

  lemma DemandRisesWithNeed(cfg: Config, a: real, b: real)
    requires cfg.Valid() && a <= b
    ensures Clamp(cfg, Replicas(cfg, a)) <= Clamp(cfg, Replicas(cfg, b))
  {
    DivideMonotone(a, b, cfg.targetUtilisation);
    DivideMonotone(a / cfg.targetUtilisation, b / cfg.targetUtilisation, cfg.slotsPerHost as real);
    CeilMonotone(a / cfg.targetUtilisation / cfg.slotsPerHost as real,
                 b / cfg.targetUtilisation / cfg.slotsPerHost as real);
  }

  lemma NeedRisesWithSlopeAndLoad(cfg: Config, slope: real, x: Sample, slope': real, y: Sample)
    requires cfg.Valid() && slope <= slope' && x.rate <= y.rate && x.inflight <= y.inflight
    ensures RequiredVMs(cfg, slope, x) <= RequiredVMs(cfg, slope', y)
  {
    TimesMonotone(cfg.provisionLatency, MaxReal(0.0, slope), MaxReal(0.0, slope'));
    assert LeadTerm(cfg, slope) <= LeadTerm(cfg, slope');
    TimesMonotone(cfg.meanTTL, x.rate + LeadTerm(cfg, slope), y.rate + LeadTerm(cfg, slope'));
  }

  lemma TrimmedAlike(h: seq<Sample>, x: Sample, y: Sample, cutoff: real) returns (kept: seq<Sample>)
    requires Increasing(h) && (h != [] ==> h[|h| - 1].at < x.at) && x.at == y.at
    ensures Increasing(kept + [x])
    ensures Trim(h + [x], cutoff) == kept + [x] && Trim(h + [y], cutoff) == kept + [y]
  {
    NewestKeepsIncreasing(h, x);
    KeptFollowsTimes(h + [x], h + [y], cutoff, 0);
    var k := FirstKept(h + [x], cutoff, 0);
    SuffixIsIncreasing(h + [x], k);
    hide Increasing, FirstKept;
    kept := h[k..];
    assert (h + [x])[k..] == kept + [x] && (h + [y])[k..] == kept + [y];
  }

  /** A higher newest rate never lowers the estimated slope. */
  lemma ObservedSlopeIsMonotone(cfg: Config, s: State, x: Sample, y: Sample)
    requires Increasing(s.history) && x.at == y.at && x.rate <= y.rate
    ensures Observe(cfg, s, x).rateSlope <= Observe(cfg, s, y).rateSlope
  {
    hide Slope, Increasing, Trim;
    var h := s.history;
    if h == [] || h[|h| - 1].at < x.at {
      var kept := TrimmedAlike(h, x, y, x.at - cfg.slopeWindow);
      NewestRateRaisesSlope(kept, x, y);
    }
  }

  /** More load at the same instant never lowers the demand, even though the newest rate also
      moves the slope. */
  lemma DemandIsMonotone(cfg: Config, s: State, x: Sample, y: Sample)
    requires cfg.Valid() && Increasing(s.history)
    requires x.at == y.at && x.rate <= y.rate && x.inflight <= y.inflight
    ensures RawDemand(cfg, Observe(cfg, s, x).rateSlope, x) <= RawDemand(cfg, Observe(cfg, s, y).rateSlope, y)
  {
    hide Observe, Replicas, RequiredVMs, Clamp, Increasing;
    ObservedSlopeIsMonotone(cfg, s, x, y);
    var a, b := Observe(cfg, s, x).rateSlope, Observe(cfg, s, y).rateSlope;
    NeedRisesWithSlopeAndLoad(cfg, a, x, b, y);
    DemandRisesWithNeed(cfg, RequiredVMs(cfg, a, x), RequiredVMs(cfg, b, y));
  }

  // -------------------------------------------------------------------- whole runs

  /** The state after a run of samples. */
  function After(cfg: Config, samples: seq<Sample>): State
    requires cfg.Valid()
  {
    if samples == [] then FRESH
    else Decide(cfg, After(cfg, samples[..|samples| - 1]), samples[|samples| - 1]).0
  }

  /** What sample k demands, before stabilisation. */
  function DemandAt(cfg: Config, samples: seq<Sample>, k: nat): int
    requires cfg.Valid() && k < |samples|
  {
    RawDemand(cfg, Observe(cfg, After(cfg, samples[..k]), samples[k]).rateSlope, samples[k])
  }

  /** What the autoscaler answers at sample k. */
  function OutputAt(cfg: Config, samples: seq<Sample>, k: nat): Decision
    requires cfg.Valid() && k < |samples|
  {
    Decide(cfg, After(cfg, samples[..k]), samples[k]).1
  }

  ghost predicate InOrder(samples: seq<Sample>) {
    forall i, j :: 0 <= i < j < |samples| ==> samples[i].at <= samples[j].at
  }

  ghost predicate FallsAt(cfg: Config, samples: seq<Sample>, k: nat)
    requires cfg.Valid() && k < |samples|
  {
    k >= 1 && OutputAt(cfg, samples, k).replicas < OutputAt(cfg, samples, k - 1).replicas
  }

  /** After n samples the stored peak is the last output; every sample that demanded as much, and
      every fall, came no later than the stored peak time. */
  ghost predicate PeakRemembers(cfg: Config, samples: seq<Sample>, n: nat)
    requires cfg.Valid() && 1 <= n <= |samples|
  {
    var s := After(cfg, samples[..n]);
    && s.peak == OutputAt(cfg, samples, n - 1).replicas
    && s.peakAt <= samples[n - 1].at
    && (forall i :: 0 <= i < n && DemandAt(cfg, samples, i) >= s.peak ==> samples[i].at <= s.peakAt)
    && (forall i :: 0 <= i < n && FallsAt(cfg, samples, i) ==> samples[i].at <= s.peakAt)
  }

  lemma OneDecision(cfg: Config, samples: seq<Sample>, k: nat)
    requires cfg.Valid() && k < |samples|
    ensures var s, s' := After(cfg, samples[..k]), After(cfg, samples[..k + 1]);
      var raw, out, now := DemandAt(cfg, samples, k), OutputAt(cfg, samples, k), samples[k].at;
      && (s'.peak, s'.peakAt, out.replicas) ==
           (if raw >= s.peak || cfg.scaleDownStabilization == 0.0 || now - s.peakAt >= cfg.scaleDownStabilization
            then (raw, now, raw) else (s.peak, s.peakAt, s.peak))
      && out.heldByStabilization == (out.replicas > raw)
  {
    assert samples[..k + 1][..k] == samples[..k];
  }

  lemma DemandInRange(cfg: Config, samples: seq<Sample>, k: nat)
    requires cfg.Valid() && k < |samples|
    ensures cfg.minReplicas <= DemandAt(cfg, samples, k) <= cfg.maxReplicas
  {
  }

  lemma {:induction false} RunsRememberPeaks(cfg: Config, samples: seq<Sample>, n: nat)
    requires cfg.Valid() && InOrder(samples) && 1 <= n <= |samples|
    ensures PeakRemembers(cfg, samples, n)
    decreases n
  {
    hide DemandAt, OutputAt, After;
    OneDecision(cfg, samples, n - 1);
    DemandInRange(cfg, samples, n - 1);
    if n == 1 {
      FreshPeak(cfg, samples);
    } else {
      RunsRememberPeaks(cfg, samples, n - 1);
    }
  }

  lemma FreshPeak(cfg: Config, samples: seq<Sample>)
    requires cfg.Valid()
    ensures After(cfg, samples[..0]) == FRESH
  {
  }

  /** Over every run the output covers the demand and stays within the replica limits, and it is
      flagged as held exactly when it exceeds the demand. */
  lemma {:induction false} OutputCoversDemand(cfg: Config, samples: seq<Sample>, k: nat)
    requires cfg.Valid() && k < |samples|
    ensures var out := OutputAt(cfg, samples, k);
      && DemandAt(cfg, samples, k) <= out.replicas
      && cfg.minReplicas <= out.replicas <= cfg.maxReplicas
      && (out.heldByStabilization <==> out.replicas != DemandAt(cfg, samples, k))
    ensures After(cfg, samples[..k + 1]).peak == OutputAt(cfg, samples, k).replicas
    decreases k
  {
    hide DemandAt, OutputAt, After;
    OneDecision(cfg, samples, k);
    DemandInRange(cfg, samples, k);
    if k == 0 {
      FreshPeak(cfg, samples);
    } else {
      OutputCoversDemand(cfg, samples, k - 1);
    }
  }

  /** With samples in time order and a window W > 0: when the output falls at sample j, no earlier
      sample less than W before it demanded as much as the previous output. */
  lemma FallsOnlyAfterQuietWindow(cfg: Config, samples: seq<Sample>, j: nat, i: nat)
    requires cfg.Valid() && cfg.scaleDownStabilization > 0.0 && InOrder(samples)
    requires i < j < |samples| && FallsAt(cfg, samples, j)
    requires DemandAt(cfg, samples, i) >= OutputAt(cfg, samples, j - 1).replicas
    ensures samples[j].at - samples[i].at >= cfg.scaleDownStabilization
  {
    hide DemandAt, OutputAt, After;
    RunsRememberPeaks(cfg, samples, j);
    OneDecision(cfg, samples, j);
  }

  /** And two falls are at least W apart. */
  lemma FallsAreApart(cfg: Config, samples: seq<Sample>, j: nat, i: nat)
    requires cfg.Valid() && cfg.scaleDownStabilization > 0.0 && InOrder(samples)
    requires i < j < |samples| && FallsAt(cfg, samples, i) && FallsAt(cfg, samples, j)
    ensures samples[j].at - samples[i].at >= cfg.scaleDownStabilization
  {
    hide DemandAt, OutputAt, After;
    RunsRememberPeaks(cfg, samples, j);
    OneDecision(cfg, samples, j);
  }

  /** A zero window holds nothing. */
  lemma NoWindowNoHold(cfg: Config, samples: seq<Sample>, k: nat)
    requires cfg.Valid() && cfg.scaleDownStabilization == 0.0 && k < |samples|
    ensures OutputAt(cfg, samples, k).replicas == DemandAt(cfg, samples, k)
  {
    OneDecision(cfg, samples, k);
  }

  lemma HistoryStaysIncreasing(cfg: Config, s: State, x: Sample)
    requires cfg.Valid() && Increasing(s.history)
    ensures Increasing(Decide(cfg, s, x).0.history)
  {
    hide Slope, RawDemand, LeadTerm;
    if s.history == [] || x.at > s.history[|s.history| - 1].at {
      NewestKeepsIncreasing(s.history, x);
      SuffixIsIncreasing(s.history + [x], FirstKept(s.history + [x], x.at - cfg.slopeWindow, 0));
    }
  }

  /** The history is always increasing in time, whatever order samples arrive in, so the
      regression never divides by zero. */
  lemma {:induction false} HistoryIsIncreasing(cfg: Config, samples: seq<Sample>)
    requires cfg.Valid()
    ensures Increasing(After(cfg, samples).history)
  {
    if samples == [] {
    } else {
      var front, x := samples[..|samples| - 1], samples[|samples| - 1];
      HistoryIsIncreasing(cfg, front);
      HistoryStaysIncreasing(cfg, After(cfg, front), x);
    }
  }

  // ----------------------------------------------------------------- the object

  class Autoscaler {
    const cfg: Config
    var history: seq<Sample>
    var rateSlope: real
    var peak: int
    var peakAt: real

    ghost function Model(): State
      reads this
    {
      State(history, rateSlope, peak, peakAt)
    }

    constructor (cfg: Config)
      requires cfg.Valid()
      ensures this.cfg == cfg && Model() == FRESH
    {
      this.cfg := cfg;
      history, rateSlope, peak, peakAt := [], 0.0, 0, 0.0;
    }

    method DecideOn(x: Sample) returns (d: Decision)
      requires cfg.Valid()
      modifies this
      ensures (Model(), d) == Decide(cfg, old(Model()), x)
      ensures d.replicas == peak && (d.heldByStabilization ==> peak == old(peak) && peakAt == old(peakAt))
      ensures d.leadTerm == Times(cfg.provisionLatency, if rateSlope > 0.0 then rateSlope else 0.0)
      ensures d.predictedRate == x.rate + d.leadTerm && d.predictedVMs == Times(cfg.meanTTL, d.predictedRate)
    {
      hide Observe, Clamp, Ceil, Times;
      UpdateSlope(x);
      ghost var seen := Model();
      var lead := Times(cfg.provisionLatency, MaxReal(0.0, rateSlope));
      assert lead == LeadTerm(cfg, seen.rateSlope);
      var predictedRate := x.rate + lead;
      var predictedVMs := Times(cfg.meanTTL, predictedRate);
      var required := MaxReal(predictedVMs, x.inflight as real);
      assert required == RequiredVMs(cfg, seen.rateSlope, x);
      var slots := required / cfg.targetUtilisation;
      var replicas := Clamp(cfg, Ceil(slots / cfg.slotsPerHost as real));
      assert replicas == RawDemand(cfg, seen.rateSlope, x);
      var raw := replicas;
      replicas := ApplyStabilization(x.at, replicas);
      d := Decision(replicas, predictedRate, predictedVMs, lead, replicas > raw);
    }

    /** Re-estimates the slope by one pass over the samples in the window. */
    method UpdateSlope(x: Sample)
      requires cfg.Valid()
      modifies this`history, this`rateSlope
      ensures Model() == Observe(cfg, old(Model()), x)
    {
      hide Slope, Trim;
      if history != [] && x.at <= history[|history| - 1].at {
        return;
      }
      history := history + [x];
      DropOld(x.at - cfg.slopeWindow);
      if |history| < 2 {
        rateSlope := 0.0;
        ShortHistoryIsFlat(history);
        return;
      }
      rateSlope := Regress();
    }

    method DropOld(cutoff: real)
      modifies this`history
      ensures history == Trim(old(history), cutoff)
    {
      var drop := 0;
      while drop < |history| - 2 && history[drop].at < cutoff
        invariant 0 <= drop <= |history|
        invariant FirstKept(history, cutoff, drop) == FirstKept(history, cutoff, 0)
      {
        drop := drop + 1;
      }
      history := history[drop..];
    }

    method Regress() returns (slope: real)
      requires |history| >= 2
      ensures slope == Slope(history)
    {
      var base := history[0].at;
      var sumT, sumR, sumTT, sumTR := 0.0, 0.0, 0.0, 0.0;
      var i := 0;
      while i < |history|
        invariant 0 <= i <= |history|
        invariant Sums(sumT, sumR, sumTT, sumTR) == SumsOf(history[..i], base)
      {
        assert history[..i + 1][..i] == history[..i];
        var t := history[i].at - base;
        sumT := sumT + t;
        sumR := sumR + history[i].rate;
        sumTT := sumTT + Times(t, t);
        sumTR := sumTR + Times(t, history[i].rate);
        i := i + 1;
      }
      assert history[..i] == history;
      var n := |history| as real;
      var denom := Times(n, sumTT) - Times(sumT, sumT);
      if denom == 0.0 {
        return 0.0;
      }
      return (Times(n, sumTR) - Times(sumT, sumR)) / denom;
    }

    method ApplyStabilization(now: real, replicas: int) returns (out: int)
      modifies this`peak, this`peakAt
      ensures (Model(), out) == Stabilize(cfg, old(Model()), now, replicas)
    {
      if replicas >= peak {
        peak, peakAt := replicas, now;
        return replicas;
      }
      if cfg.scaleDownStabilization == 0.0 {
        peak, peakAt := replicas, now;
        return replicas;
      }
      if now - peakAt < cfg.scaleDownStabilization {
        return peak;
      }
      peak, peakAt := replicas, now;
      return replicas;
    }

    method Reset()
      modifies this
      ensures Model() == FRESH
    {
      history, rateSlope, peak, peakAt := [], 0.0, 0, 0.0;
    }
  }
}
