/** What the autoscaler's answers mean in terms of its configuration and the samples alone, over whole
    runs (internal/autoscale/autoscale.go). */
module AutoscaleRuns {
  import opened Reals
  import opened Regression
  import opened Autoscale

  // -------------------------------------------------------------------- sizing

  /** r pods, filled to the target, hold this many VMs. */
  function Room(cfg: Config, r: int): real {
    r as real * cfg.slotsPerHost as real * cfg.targetUtilisation
  }

  /** The VMs kept alive by the arrival rate reached, at this slope, when pods started now are ready. */
  function Predicted(cfg: Config, rate: real, slope: real): real {
    cfg.meanTTL * (rate + cfg.provisionLatency * (if slope > 0.0 then slope else 0.0))
  }

  lemma NeedIsTheGreater(cfg: Config, slope: real, x: Sample, room: real)
    ensures RequiredVMs(cfg, slope, x) <= room <==> Predicted(cfg, x.rate, slope) <= room && x.inflight as real <= room
  {
  }

  lemma ClampedBelow(cfg: Config, replicas: int, r: int)
    requires cfg.Valid() && cfg.minReplicas <= r < cfg.maxReplicas
    ensures Clamp(cfg, replicas) <= r <==> replicas <= r
  {
  }

  /** Within the limits, r pods meet the demand exactly when, filled to the target, they hold both the
      VMs that the predicted arrivals will keep alive and those in flight now. */
  lemma DemandIsMetExactlyWhen(cfg: Config, slope: real, x: Sample, r: int)
    requires cfg.Valid() && cfg.minReplicas <= r < cfg.maxReplicas
    ensures RawDemand(cfg, slope, x) <= r <==>
      Predicted(cfg, x.rate, slope) <= Room(cfg, r) && x.inflight as real <= Room(cfg, r)
    ensures cfg.minReplicas <= RawDemand(cfg, slope, x) <= cfg.maxReplicas
  {
    var required := RequiredVMs(cfg, slope, x);
    ClampedBelow(cfg, Replicas(cfg, required), r);
    SizingIsTight(cfg, required, r);
    NeedIsTheGreater(cfg, slope, x, Room(cfg, r));
    hide Replicas, RequiredVMs, Predicted, Times;
  }

  /** The slope the autoscaler has estimated when it answers sample k. */
  function SlopeAt(cfg: Config, samples: seq<Sample>, k: nat): real
    requires cfg.Valid() && k < |samples|
  {
    After(cfg, samples[..k + 1]).rateSlope
  }

  /** What one sample does to history and slope. */
  lemma OneSample(cfg: Config, samples: seq<Sample>, k: nat)
    requires cfg.Valid() && k < |samples|
    ensures var s, s' := After(cfg, samples[..k]), After(cfg, samples[..k + 1]);
      var seen := Observe(cfg, s, samples[k]);
      s'.history == seen.history && s'.rateSlope == seen.rateSlope
  {
    hide Observe, RawDemand, LeadTerm, Times;
    assert samples[..k + 1][..k] == samples[..k];
  }

  lemma DecisionTells(cfg: Config, s: State, x: Sample)
    requires cfg.Valid()
    ensures var out, slope := Decide(cfg, s, x).1, Observe(cfg, s, x).rateSlope;
      && out.leadTerm == cfg.provisionLatency * (if slope > 0.0 then slope else 0.0)
      && out.predictedRate == x.rate + out.leadTerm
      && out.predictedVMs == Predicted(cfg, x.rate, slope)
  {
    hide Observe, RawDemand;
  }

  /** Over every run: the prediction is the observed rate plus the positive slope over the provisioning
      time, and the VMs predicted are those that rate keeps alive; a count of pods that the answer does
      not exceed holds both those and the VMs in flight, and the answer that is not held back is the
      least such count within the limits. */
  lemma AnswersMeetTheLoad(cfg: Config, samples: seq<Sample>, k: nat, r: int)
    requires cfg.Valid() && k < |samples| && cfg.minReplicas <= r < cfg.maxReplicas
    ensures var out, x, slope := OutputAt(cfg, samples, k), samples[k], SlopeAt(cfg, samples, k);
      && out.leadTerm == cfg.provisionLatency * (if slope > 0.0 then slope else 0.0)
      && out.predictedRate == x.rate + out.leadTerm
      && out.predictedVMs == Predicted(cfg, x.rate, slope)
      && (out.replicas <= r ==> out.predictedVMs <= Room(cfg, r) && x.inflight as real <= Room(cfg, r))
      && (!out.heldByStabilization && out.predictedVMs <= Room(cfg, r) && x.inflight as real <= Room(cfg, r)
          ==> out.replicas <= r)
  {
    hide After, Decide, Observe, RawDemand, Room, Predicted;
    OneSample(cfg, samples, k);
    DecisionTells(cfg, After(cfg, samples[..k]), samples[k]);
    OutputCoversDemand(cfg, samples, k);
    DemandIsMetExactlyWhen(cfg, SlopeAt(cfg, samples, k), samples[k], r);
  }

  // ------------------------------------------------------------- stabilisation

  ghost predicate HeldAt(cfg: Config, samples: seq<Sample>, k: nat)
    requires cfg.Valid() && k < |samples|
  {
    OutputAt(cfg, samples, k).heldByStabilization
  }

  /** The latest answer not held back before sample n. */
  ghost predicate LastFree(cfg: Config, samples: seq<Sample>, n: nat, i: nat)
    requires cfg.Valid() && n <= |samples|
  {
    i < n && !HeldAt(cfg, samples, i) && forall j: nat :: i < j < n ==> HeldAt(cfg, samples, j)
  }

  /** The stored peak time is that of the latest answer not held back. */
  lemma {:induction false} PeakIsTheLastFree(cfg: Config, samples: seq<Sample>, n: nat) returns (i: nat)
    requires cfg.Valid() && 1 <= n <= |samples|
    ensures LastFree(cfg, samples, n, i)
    ensures After(cfg, samples[..n]).peakAt == samples[i].at
    decreases n
  {
    hide After, OutputAt, DemandAt;
    OneDecision(cfg, samples, n - 1);
    DemandInRange(cfg, samples, n - 1);
    if n == 1 {
      FreshPeak(cfg, samples);
      i := 0;
    } else if HeldAt(cfg, samples, n - 1) {
      i := PeakIsTheLastFree(cfg, samples, n - 1);
    } else {
      i := n - 1;
    }
  }

  /** With a window W > 0, an answer is held back exactly when the demand is below the previous answer
      and less than W has passed since the latest answer that was not held back; it then repeats the
      previous answer, and otherwise is the demand. The first answer is the demand. */
  lemma HeldExactlyWhen(cfg: Config, samples: seq<Sample>, k: nat) returns (i: nat)
    requires cfg.Valid() && cfg.scaleDownStabilization > 0.0 && 1 <= k < |samples|
    ensures !HeldAt(cfg, samples, 0)
    ensures LastFree(cfg, samples, k, i)
    ensures HeldAt(cfg, samples, k) <==>
      && DemandAt(cfg, samples, k) < OutputAt(cfg, samples, k - 1).replicas
      && samples[k].at - samples[i].at < cfg.scaleDownStabilization
    ensures OutputAt(cfg, samples, k).replicas ==
      if HeldAt(cfg, samples, k) then OutputAt(cfg, samples, k - 1).replicas else DemandAt(cfg, samples, k)
  {
    hide After, OutputAt, DemandAt;
    var first := PeakIsTheLastFree(cfg, samples, 1);
    i := PeakIsTheLastFree(cfg, samples, k);
    OneDecision(cfg, samples, k);
    OutputCoversDemand(cfg, samples, k - 1);
    assert k - 1 + 1 == k;
  }

  // ------------------------------------------------------------------- history

  lemma ObservedIsTrimmed(cfg: Config, s: State, x: Sample)
    ensures var h, seen := s.history, Observe(cfg, s, x);
      if h != [] && x.at <= h[|h| - 1].at then seen == s
      else seen.history == Trim(h + [x], x.at - cfg.slopeWindow) && seen.rateSlope == Slope(seen.history)
  {
  }

  /** The slope is always that of the history. */
  lemma {:induction false} SlopeIsOfTheHistory(cfg: Config, samples: seq<Sample>, n: nat)
    requires cfg.Valid() && n <= |samples|
    ensures After(cfg, samples[..n]).rateSlope == Slope(After(cfg, samples[..n]).history)
    decreases n
  {
    hide Slope, Observe, After, Trim;
    if n == 0 {
      FreshPeak(cfg, samples);
      ShortHistoryIsFlat([]);
    } else {
      SlopeIsOfTheHistory(cfg, samples, n - 1);
      OneSample(cfg, samples, n - 1);
      ObservedIsTrimmed(cfg, After(cfg, samples[..n - 1]), samples[n - 1]);
    }
  }

  lemma {:induction false} SkipsDropped(h: seq<Sample>, cutoff: real, a: nat, k: nat)
    requires k <= a && a + 2 <= |h| && forall i :: 0 <= i < a ==> h[i].at < cutoff
    ensures FirstKept(h, cutoff, k) == FirstKept(h, cutoff, a)
    decreases a - k
  {
    if k == a {
    } else {
      SkipsDropped(h, cutoff, a, k + 1);
    }
  }

  lemma {:induction false} KeptInSuffix(h: seq<Sample>, cutoff: real, a: nat, k: nat)
    requires a <= |h| && k <= |h| - a
    ensures FirstKept(h[a..], cutoff, k) + a == FirstKept(h, cutoff, k + a)
    decreases |h| - a - k
  {
    if k + 2 < |h| - a && h[a..][k].at < cutoff {
      KeptInSuffix(h, cutoff, a, k + 1);
    } else {
    }
  }

  lemma TrimIsASuffix(h: seq<Sample>, c: real) returns (a: nat)
    ensures a <= |h| && Trim(h, c) == h[a..] && (a > 0 ==> a + 2 <= |h|)
    ensures forall i :: 0 <= i < a ==> h[i].at < c
  {
    a := FirstKept(h, c, 0);
  }

  lemma SuffixTrimmed(full: seq<Sample>, c: real, a: nat)
    requires a <= |full| && (a > 0 ==> a + 2 <= |full|) && forall i :: 0 <= i < a ==> full[i].at < c
    ensures Trim(full[a..], c) == Trim(full, c)
  {
    KeptInSuffix(full, c, a, 0);
    if a > 0 { SkipsDropped(full, c, a, 0); }
    hide FirstKept;
    var b := FirstKept(full[a..], c, 0);
    assert full[a..][b..] == full[a + b..];
  }

  /** Trimming again with a later cutoff is trimming once. */
  lemma TrimmedTwice(h: seq<Sample>, x: Sample, c: real, c': real)
    requires c <= c'
    ensures Trim(Trim(h, c) + [x], c') == Trim(h + [x], c')
  {
    hide Trim;
    var full := h + [x];
    var a := TrimIsASuffix(h, c);
    assert h[a..] + [x] == full[a..];
    SuffixTrimmed(full, c', a);
  }

  lemma {:induction false} HistoryIsTrimmed(cfg: Config, samples: seq<Sample>, n: nat)
    requires cfg.Valid() && Increasing(samples) && 1 <= n <= |samples|
    ensures After(cfg, samples[..n]).history == Trim(samples[..n], samples[n - 1].at - cfg.slopeWindow)
    decreases n
  {
    hide After, Observe, Trim, Slope;
    OneSample(cfg, samples, n - 1);
    var x, s := samples[n - 1], After(cfg, samples[..n - 1]);
    ObservedIsTrimmed(cfg, s, x);
    assert samples[..n] == samples[..n - 1] + [x];
    if n == 1 {
      FreshPeak(cfg, samples);
    } else {
      var before := samples[n - 2];
      HistoryIsTrimmed(cfg, samples, n - 1);
      NewestIsKept(samples[..n - 1], before.at - cfg.slopeWindow);
      TrimmedTwice(samples[..n - 1], x, before.at - cfg.slopeWindow, x.at - cfg.slopeWindow);
    }
  }

  lemma NewestIsKept(h: seq<Sample>, cutoff: real)
    requires h != []
    ensures Trim(h, cutoff) != [] && Trim(h, cutoff)[|Trim(h, cutoff)| - 1] == h[|h| - 1]
  {
  }

  /** On samples increasing in time, those the slope is taken over are exactly the ones within the
      window before the newest, and always the newest two. */
  lemma HistoryIsTheWindow(cfg: Config, samples: seq<Sample>, i: nat)
    requires cfg.Valid() && Increasing(samples) && i < |samples|
    ensures samples[i] in After(cfg, samples).history <==>
      samples[i].at >= samples[|samples| - 1].at - cfg.slopeWindow || i + 2 >= |samples|
    ensures After(cfg, samples).rateSlope == Slope(After(cfg, samples).history)
  {
    hide After, Trim, Slope;
    assert samples[..|samples|] == samples;
    HistoryIsTrimmed(cfg, samples, |samples|);
    WindowIsExact(samples, samples[|samples| - 1].at - cfg.slopeWindow, i);
    SlopeIsOfTheHistory(cfg, samples, |samples|);
  }

  lemma {:induction false} NewestIsTheLatest(cfg: Config, samples: seq<Sample>, n: nat, i: nat)
    requires cfg.Valid() && i < n <= |samples|
    ensures var h := After(cfg, samples[..n]).history;
      h != [] && samples[i].at <= h[|h| - 1].at
    decreases n
  {
    hide After, Observe, Trim, Slope;
    var s, x := After(cfg, samples[..n - 1]), samples[n - 1];
    OneSample(cfg, samples, n - 1);
    ObservedIsTrimmed(cfg, s, x);
    NewestIsKept(s.history + [x], x.at - cfg.slopeWindow);
    if i < n - 1 {
      NewestIsTheLatest(cfg, samples, n - 1, i);
    }
  }

  /** A sample no later than the newest seen changes neither history nor slope. */
  lemma LateSampleIsIgnored(cfg: Config, samples: seq<Sample>, k: nat, i: nat)
    requires cfg.Valid() && i < k < |samples| && samples[k].at <= samples[i].at
    ensures After(cfg, samples[..k + 1]).history == After(cfg, samples[..k]).history
    ensures After(cfg, samples[..k + 1]).rateSlope == After(cfg, samples[..k]).rateSlope
  {
    hide After, Observe, Trim, Slope;
    NewestIsTheLatest(cfg, samples, k, i);
    OneSample(cfg, samples, k);
    ObservedIsTrimmed(cfg, After(cfg, samples[..k]), samples[k]);
  }
}
