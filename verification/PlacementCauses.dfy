/** Every flag of the service comes from a step that was taken: a deadline passed, the context
    cancelled, Stop called. So does every refusal (internal/placement/service.go). */
module PlacementCauses {
  import opened Common
  import opened SchedulerSpec
  import opened PlacementProtocol
  import opened PlacementFlow
  import opened PlacementHistory

  /** What a step does to the service's two shutdown flags, and to the id and the deadline of call c. */
  ghost predicate Flags(s: Service, a: Action, s': Service, c: CallId) {
    && (s'.cancelled <==> s.cancelled || a == Cancel)
    && (s'.stopped <==> s.stopped || a == Stop)
    && (c in s'.calls <==> c in s.calls || (a.Admit? && a.c == c))
    && (c in s.calls && c in s'.calls ==>
          && s'.calls[c].vm == s.calls[c].vm
          && (s'.calls[c].expired <==> s.calls[c].expired || a == Expire(c)))
    && (c !in s.calls && c in s'.calls ==>
          a == Admit(c, s'.calls[c].vm) && s'.calls[c].vm != VMID("") && !s'.calls[c].expired)
  }

  lemma AdmittingFlags(cfg: Config, s: Service, a: Action, c: CallId)
    requires Inv(s.sched) && Enabled(cfg, s, a) && Admitting(a)
    ensures Flags(s, a, Apply(cfg, s, a), c)
  {
    AdmittingIsOfOne(cfg, s, a);
    hide Inv, Apply;
  }

  lemma BootingFlags(cfg: Config, s: Service, a: Action, c: CallId)
    requires Inv(s.sched) && Enabled(cfg, s, a) && Booted(a)
    ensures Flags(s, a, Apply(cfg, s, a), c)
  {
    BootingIsOfOne(cfg, s, a);
    hide Inv, Apply, Place;
  }

  lemma DispatchingKeepsId(cfg: Config, s: Service, a: Action, c: CallId)
    requires Inv(s.sched) && Enabled(cfg, s, a) && Dispatching(a) && c in s.calls
    ensures var s' := Apply(cfg, s, a); c in s'.calls && s'.calls[c].vm == s.calls[c].vm
  {
    hide Inv, Place, DoAdmitting, DoBooting, DoOutside;
    match a {
      case Take =>
      case BeginDrain =>
      case DrainOne =>
      case Exit =>
      case TimeOut =>
      case CheckDeadline =>
      case TryPlace =>
      case Wake =>
      case Tick =>
      case QuitWaiting =>
      case Write =>
    }
  }

  lemma DispatchingFlags(cfg: Config, s: Service, a: Action, c: CallId)
    requires Inv(s.sched) && Enabled(cfg, s, a) && Dispatching(a)
    ensures Flags(s, a, Apply(cfg, s, a), c)
  {
    hide Inv, Enabled, Apply;
    DispatchingKeepsCalls(cfg, s, a);
    if c in s.calls {
      DispatchingKeepsId(cfg, s, a, c);
      CallersStay(cfg, s, a, c);
    }
  }

  lemma OutsideFlags(cfg: Config, s: Service, a: Action, c: CallId)
    requires Inv(s.sched) && Enabled(cfg, s, a) && !Admitting(a) && !Booted(a) && !Dispatching(a)
    ensures Flags(s, a, Apply(cfg, s, a), c)
  {
    hide Inv, Release, SetHostState, RemoveHost, AddHost, DoAdmitting, DoBooting, DoDispatching;
    match a {
      case Cancel =>
      case Stop =>
      case ReleaseVM(_) =>
      case Signal =>
      case SpuriousSignal =>
      case AddHostTo(_, _) =>
      case SetStateOf(_, _) =>
      case RemoveHostFrom(_) =>
    }
  }

  lemma StepFlags(cfg: Config, s: Service, a: Action, c: CallId)
    requires Inv(s.sched) && Enabled(cfg, s, a)
    ensures Flags(s, a, Apply(cfg, s, a), c)
  {
    hide Inv, Enabled, Apply, Flags;
    if Admitting(a) {
      AdmittingFlags(cfg, s, a, c);
    } else if Booted(a) {
      BootingFlags(cfg, s, a, c);
    } else if Dispatching(a) {
      DispatchingFlags(cfg, s, a, c);
    } else {
      OutsideFlags(cfg, s, a, c);
    }
  }

  /** Cancelled, stopped, admitted under a proper id, and expired are what the steps taken made them. */
  ghost predicate FlagsTell(s: Service, acts: seq<Action>, c: CallId) {
    && (s.cancelled <==> Cancel in acts)
    && (s.stopped <==> Stop in acts)
    && (c in s.calls ==>
          && Admit(c, s.calls[c].vm) in acts && s.calls[c].vm != VMID("")
          && (s.calls[c].expired <==> Expire(c) in acts))
    && (c !in s.calls ==> Expire(c) !in acts && forall vm :: Admit(c, vm) !in acts)
  }

  lemma FlagsGoOn(s: Service, acts: seq<Action>, a: Action, s': Service, c: CallId)
    requires FlagsTell(s, acts, c) && Flags(s, a, s', c) && (a == Expire(c) ==> c in s.calls)
    ensures FlagsTell(s', acts + [a], c)
  {
  }

  lemma ExpiresKnownCall(cfg: Config, s: Service, a: Action, c: CallId)
    requires Enabled(cfg, s, a) && a == Expire(c)
    ensures c in s.calls
  {
  }

  lemma {:induction false} FlagsFollowSteps(cfg: Config, s: Service, acts: seq<Action>, c: CallId)
    requires Init(s) && Exec(cfg, s, acts).Some?
    ensures FlagsTell(Exec(cfg, s, acts).value, acts, c)
  {
    if acts == [] {
    } else {
      hide Inv, Enabled, Apply, Flags, FlagsTell;
      var front, a := acts[..|acts| - 1], acts[|acts| - 1];
      FlagsFollowSteps(cfg, s, front, c);
      var mid := Exec(cfg, s, front).value;
      StepFlags(cfg, mid, a, c);
      if a == Expire(c) { ExpiresKnownCall(cfg, mid, a, c); }
      FlagsGoOn(mid, front, a, Apply(cfg, mid, a), c);
      assert acts == front + [a];
    }
  }

  /** Every failure of Admit has a cause among the steps taken: its deadline passed, the context was
      cancelled or Stop was called, a placement was tried and met its id, or a boot failed and then
      failed a third time, ran out of time, or found no host. */
  lemma FailuresHaveCauses(cfg: Config, s: Service, acts: seq<Action>, c: CallId)
    requires Init(s) && Exec(cfg, s, acts).Some? && c in Exec(cfg, s, acts).value.calls
    ensures var caller, n := Exec(cfg, s, acts).value.calls[c].caller, HistoryOf(cfg, s, acts, c);
      caller.Returned? && caller.outcome.Failed? ==>
        match caller.outcome.why
        case AdmissionTimeout => Expire(c) in acts
        case QueueFull => Expire(c) in acts
        case ShuttingDown => Cancel in acts || Stop in acts
        case DuplicateVM => n.tries >= 1
        case BootFailed => n.failedBoots >= 1 && (n.failedBoots == 3 || Expire(c) in acts || n.unplaced == 1)
  {
    hide Exec, HistoryOf, Init;
    FlagsFollowSteps(cfg, s, acts, c);
    RunsTell(cfg, s, acts, c);
    RefusalsHaveCause(cfg, s, acts, c);
    hide ShutsOnlyWhenClosing, StageTells;
  }

  /** A request whose deadline has passed by the time the dispatcher looks is not placed. */
  lemma LateRequestsAreNotTried(cfg: Config, s: Service, acts: seq<Action>, m: nat)
    requires Init(s) && m < |acts| && Exec(cfg, s, acts[..m + 1]).Some? && acts[m] == CheckDeadline
    ensures Exec(cfg, s, acts[..m]).Some? && Exec(cfg, s, acts[..m]).value.dispatcher.Serving?
    ensures Expire(Exec(cfg, s, acts[..m]).value.dispatcher.call) !in acts[..m]
  {
    assert acts[..m + 1][..m] == acts[..m];
    var mid := Exec(cfg, s, acts[..m]).value;
    assert Enabled(cfg, mid, CheckDeadline);
    FlagsFollowSteps(cfg, s, acts[..m], mid.dispatcher.call);
    hide Exec, Init;
  }

  /** And only past its deadline is a call turned away from the queue. */
  lemma NobodyIsTurnedAwayEarly(cfg: Config, s: Service, acts: seq<Action>, m: nat, c: CallId)
    requires Init(s) && m < |acts| && Exec(cfg, s, acts[..m + 1]).Some? && acts[m] == RejectFull(c)
    ensures Expire(c) in acts[..m]
  {
    assert acts[..m + 1][..m] == acts[..m];
    var mid := Exec(cfg, s, acts[..m]).value;
    assert Enabled(cfg, mid, RejectFull(c));
    FlagsFollowSteps(cfg, s, acts[..m], c);
    hide Exec, Init;
  }
}
