/** The service's counters account for every accepted request, in every reachable state
    (internal/placement/service.go). */
module PlacementCounters {
  import opened Common
  import opened SchedulerSpec
  import opened PlacementProtocol
  import opened PlacementFlow

  datatype Class = InFlight | Placed | TimedOut | QueueRejected | BootFailure | ShutDown | Duplicate

  function ClassOfFailure(why: Failure): Class {
    match why
    case AdmissionTimeout => TimedOut
    case QueueFull => QueueRejected
    case BootFailed => BootFailure
    case ShuttingDown => ShutDown
    case DuplicateVM => Duplicate
  }

  /** How a call ended, or is already bound to end; InFlight while that is open. */
  function ClassOf(call: Call): Class {
    match call.caller
    case Returned(Succeeded(_, _)) => Placed
    case Returned(Failed(why)) => ClassOfFailure(why)
    case Recording => ClassOfStage(call.stage)
    case Awaiting => ClassOfStage(call.stage)
    case _ => InFlight
  }

  function ClassOfStage(stage: Stage): Class {
    match stage
    case Decided(Refused(why)) => ClassOfFailure(why)
    case Answered(Refused(why)) => ClassOfFailure(why)
    case _ => InFlight
  }

  ghost function Members(calls: map<CallId, Call>, k: Class): set<CallId> {
    set c | c in calls && ClassOf(calls[c]) == k
  }

  /** Each counter is the number of calls of its class. */
  ghost predicate Counted(calls: map<CallId, Call>, n: Counters) {
    && n.accepted == |calls|
    && n.placed == |Members(calls, Placed)|
    && n.timedOut == |Members(calls, TimedOut)|
    && n.queueRejected == |Members(calls, QueueRejected)|
    && n.bootFailed == |Members(calls, BootFailure)|
  }

  function Is(call: Call, k: Class): int {
    if ClassOf(call) == k then 1 else 0
  }

  lemma MembersAfter(calls: map<CallId, Call>, c: CallId, call: Call, k: Class)
    ensures |Members(calls[c := call], k)| ==
      |Members(calls, k)| + Is(call, k) - if c in calls then Is(calls[c], k) else 0
  {
    hide ClassOf;
    SizeWithout(Members(calls, k), c);
    SizeWithout(Members(calls[c := call], k), c);
    assert Members(calls, k) - {c} == Members(calls[c := call], k) - {c};
  }

  /** One call changed, and each counter moved by as much as its class did. */
  lemma Recount(calls: map<CallId, Call>, n: Counters, c: CallId, call: Call, n': Counters)
    requires Counted(calls, n) && c in calls
    requires n'.accepted == n.accepted
    requires n'.placed == n.placed + Is(call, Placed) - Is(calls[c], Placed)
    requires n'.timedOut == n.timedOut + Is(call, TimedOut) - Is(calls[c], TimedOut)
    requires n'.queueRejected == n.queueRejected + Is(call, QueueRejected) - Is(calls[c], QueueRejected)
    requires n'.bootFailed == n.bootFailed + Is(call, BootFailure) - Is(calls[c], BootFailure)
    ensures Counted(calls[c := call], n')
  {
    MembersAfter(calls, c, call, Placed);
    MembersAfter(calls, c, call, TimedOut);
    MembersAfter(calls, c, call, QueueRejected);
    MembersAfter(calls, c, call, BootFailure);
    assert calls[c := call].Keys == calls.Keys;
    assert |calls[c := call]| == |calls[c := call].Keys| == |calls|;
  }

  lemma CountNewCall(calls: map<CallId, Call>, n: Counters, c: CallId, call: Call)
    requires Counted(calls, n) && c !in calls && ClassOf(call) == InFlight
    ensures Counted(calls[c := call], n.(accepted := n.accepted + 1))
  {
    MembersAfter(calls, c, call, Placed);
    MembersAfter(calls, c, call, TimedOut);
    MembersAfter(calls, c, call, QueueRejected);
    MembersAfter(calls, c, call, BootFailure);
    assert calls[c := call].Keys == calls.Keys + {c};
    assert |calls[c := call]| == |calls[c := call].Keys| == |calls| + 1;
  }

  lemma StepKeepsCounted(cfg: Config, s: Service, a: Action)
    requires Flowing(cfg, s) && Inv(s.sched) && Enabled(cfg, s, a) && Counted(s.calls, s.counters)
    ensures var s' := Apply(cfg, s, a); Counted(s'.calls, s'.counters)
  {
    hide Inv, Flow, Counted, Place, Release, SetHostState, RemoveHost, AddHost;
    FlowFacts(s.calls, s.queue, s.dispatcher, s.verdicts, s.enqueued);
    if Admitting(a) {
      AdmittingKeepsCounted(cfg, s, a);
    } else if Booted(a) {
      BootedKeepsCounted(cfg, s, a);
    } else if a.Take? || a.DrainOne? {
      var s' := Apply(cfg, s, a);
      Recount(s.calls, s.counters, s.queue[0], s'.calls[s.queue[0]], s'.counters);
    } else if a.TimeOut? || a.TryPlace? || a.QuitWaiting? || a.Write? {
      DispatcherKeepsCounted(cfg, s, a);
    } else {
      OtherStepsCountNothing(cfg, s, a);
      hide Apply, Enabled, Flow;
      SameCounters(s, Apply(cfg, s, a));
    }
  }

  lemma OtherStepsCountNothing(cfg: Config, s: Service, a: Action)
    requires Inv(s.sched) && Enabled(cfg, s, a) && !Admitting(a) && !Booted(a)
    requires !a.Take? && !a.DrainOne? && !a.TimeOut? && !a.TryPlace? && !a.QuitWaiting? && !a.Write?
    ensures var s' := Apply(cfg, s, a);
      s'.calls == s.calls && s'.counters.(released := 0) == s.counters.(released := 0)
  {
    hide Inv, Release, SetHostState, RemoveHost, AddHost;
  }

  lemma SameCounters(s: Service, s': Service)
    requires Counted(s.calls, s.counters) && s'.calls == s.calls
    requires s'.counters.(released := 0) == s.counters.(released := 0)
    ensures Counted(s'.calls, s'.counters)
  {
  }

  lemma AdmittingKeepsCounted(cfg: Config, s: Service, a: Action)
    requires Flowing(cfg, s) && Inv(s.sched) && Enabled(cfg, s, a) && Counted(s.calls, s.counters) && Admitting(a)
    ensures var s' := Apply(cfg, s, a); Counted(s'.calls, s'.counters)
  {
    hide Inv, Flowing, Counted;
    var c, s' := a.c, Apply(cfg, s, a);
    match a {
      case Admit(_, _) => CountNewCall(s.calls, s.counters, c, s'.calls[c]);
      case Receive(_) => ReceivingKeepsCounted(cfg, s, c);
      case Expire(_) => Recount(s.calls, s.counters, c, s'.calls[c], s'.counters);
      case Enqueue(_) => Recount(s.calls, s.counters, c, s'.calls[c], s'.counters);
      case RejectFull(_) => Recount(s.calls, s.counters, c, s'.calls[c], s'.counters);
      case RecordDepth(_) => Recount(s.calls, s.counters, c, s'.calls[c], s'.counters);
    }
  }

  lemma SameClassKeepsCounted(calls: map<CallId, Call>, n: Counters, c: CallId, call: Call)
    requires Counted(calls, n) && c in calls && ClassOf(call) == ClassOf(calls[c])
    ensures Counted(calls[c := call], n)
  {
    hide Counted, ClassOf;
    Recount(calls, n, c, call, n);
  }

  lemma ReceivingKeepsCounted(cfg: Config, s: Service, c: CallId)
    requires Flowing(cfg, s) && Inv(s.sched) && Enabled(cfg, s, Receive(c)) && Counted(s.calls, s.counters)
    ensures var s' := Apply(cfg, s, Receive(c)); Counted(s'.calls, s'.counters)
  {
    hide Inv, Flowing, Counted, Sane, DoReceive;
    AnswerIsThere(cfg, s, c);
    ReceiptIsCounted(cfg, s, c);
  }

  lemma ReceiptIsCounted(cfg: Config, s: Service, c: CallId)
    requires Counted(s.calls, s.counters) && At(s, c, Awaiting) && s.calls[c].written != []
    requires s.calls[c].stage == Answered(s.calls[c].written[0]) && Sane(s.calls[c].written[0])
    ensures var s' := DoReceive(cfg, s, c); Counted(s'.calls, s'.counters)
  {
    hide Counted;
    match s.calls[c].written[0] {
      case Refused(why) =>
        SameClassKeepsCounted(s.calls, s.counters, c, s.calls[c].(caller := Returned(Failed(why))));
      case Granted(host, attempts) =>
        var call := s.calls[c].(caller := if cfg.hasBooter then Booting(0, host, attempts)
                                          else Returned(Succeeded(host, attempts)));
        Recount(s.calls, s.counters, c, call, DoReceive(cfg, s, c).counters);
    }
  }

  lemma BootedKeepsCounted(cfg: Config, s: Service, a: Action)
    requires Flowing(cfg, s) && Inv(s.sched) && Enabled(cfg, s, a) && Counted(s.calls, s.counters) && Booted(a)
    ensures var s' := Apply(cfg, s, a); Counted(s'.calls, s'.counters)
  {
    hide Inv, Flow, Counted, Place, Release;
    var c, s' := a.c, Apply(cfg, s, a);
    match a {
      case BootSucceeds(_) => Recount(s.calls, s.counters, c, s'.calls[c], s'.counters);
      case BootFails(_) => Recount(s.calls, s.counters, c, s'.calls[c], s'.counters);
      case SignalAfterBoot(_) => Recount(s.calls, s.counters, c, s'.calls[c], s'.counters);
      case GiveUp(_) => Recount(s.calls, s.counters, c, s'.calls[c], s'.counters);
      case DecideToReplace(_) => Recount(s.calls, s.counters, c, s'.calls[c], s'.counters);
      case Replace(_) => ReplacingKeepsCounted(cfg, s, c);
    }
  }

  lemma ReplacingKeepsCounted(cfg: Config, s: Service, c: CallId)
    requires Flowing(cfg, s) && Inv(s.sched) && Enabled(cfg, s, Replace(c)) && Counted(s.calls, s.counters)
    ensures var s' := Apply(cfg, s, Replace(c)); Counted(s'.calls, s'.counters)
  {
    hide Inv, Flow, Counted, DoReplace;
    FlowFacts(s.calls, s.queue, s.dispatcher, s.verdicts, s.enqueued);
    ReplacingCounts(s, c);
    var s' := DoReplace(s, c);
    Recount(s.calls, s.counters, c, s'.calls[c], s'.counters);
  }

  lemma ReplacingCounts(s: Service, c: CallId)
    requires Inv(s.sched) && c in s.calls && s.calls[c].caller.Replacing? && CallOk(s.calls[c])
    ensures var s' := DoReplace(s, c);
      && s'.calls == s.calls[c := s'.calls[c]]
      && s'.counters == s.counters.(bootFailed :=
           s.counters.bootFailed + Is(s'.calls[c], BootFailure) - Is(s.calls[c], BootFailure))
      && Is(s'.calls[c], Placed) == Is(s.calls[c], Placed) && Is(s'.calls[c], TimedOut) == Is(s.calls[c], TimedOut)
      && Is(s'.calls[c], QueueRejected) == Is(s.calls[c], QueueRejected)
  {
    hide Inv, Place;
  }

  lemma DispatcherKeepsCounted(cfg: Config, s: Service, a: Action)
    requires Flowing(cfg, s) && Inv(s.sched) && Enabled(cfg, s, a) && Counted(s.calls, s.counters)
    requires a.TimeOut? || a.TryPlace? || a.QuitWaiting? || a.Write?
    ensures var s' := Apply(cfg, s, a); Counted(s'.calls, s'.counters)
  {
    hide Inv, Flowing, Counted, Apply;
    if a.TryPlace? {
      PlacingKeepsCounted(cfg, s);
    } else if a.Write? {
      WritingKeepsCounted(cfg, s);
    } else {
      RefusingKeepsCounted(cfg, s, a);
    }
  }

  lemma RefusingKeepsCounted(cfg: Config, s: Service, a: Action)
    requires Flowing(cfg, s) && Inv(s.sched) && Enabled(cfg, s, a) && Counted(s.calls, s.counters)
    requires a.TimeOut? || a.QuitWaiting?
    ensures var s' := Apply(cfg, s, a); Counted(s'.calls, s'.counters)
  {
    hide Inv, Flowing, Counted, DoAdmitting, DoBooting, DoOutside;
    HeldCall(cfg, s);
    DecisionIsCounted(s.calls, s.counters, s.dispatcher.call,
                      Refused(if a.TimeOut? then AdmissionTimeout else ShuttingDown));
  }

  lemma WritingKeepsCounted(cfg: Config, s: Service)
    requires Flowing(cfg, s) && Inv(s.sched) && Enabled(cfg, s, Write) && Counted(s.calls, s.counters)
    ensures var s' := Apply(cfg, s, Write); Counted(s'.calls, s'.counters)
  {
    hide Inv, Flow, Counted;
    FlowFacts(s.calls, s.queue, s.dispatcher, s.verdicts, s.enqueued);
    assert CallOk(s.calls[s.dispatcher.call]);
    AnswerIsCounted(s.calls, s.counters, s.dispatcher.call, s.dispatcher.verdict);
  }

  /** Answering moves no request from one class to another. */
  lemma AnswerIsCounted(calls: map<CallId, Call>, n: Counters, c: CallId, v: Verdict)
    requires Counted(calls, n) && c in calls
    requires calls[c].stage == Decided(v) && CallOk(calls[c])
    ensures Counted(calls[c := calls[c].(stage := Answered(v), written := calls[c].written + [v])], n)
  {
    hide Counted;
    Recount(calls, n, c, calls[c].(stage := Answered(v), written := calls[c].written + [v]), n);
  }

  /** A decision on a held request is counted only when it is a timeout. */
  lemma DecisionIsCounted(calls: map<CallId, Call>, n: Counters, c: CallId, v: Verdict)
    requires Counted(calls, n) && c in calls && Sane(v)
    requires calls[c].caller == Recording || calls[c].caller == Awaiting
    requires calls[c].stage == Dispatched
    ensures Counted(calls[c := calls[c].(stage := Decided(v))],
                    if v == Refused(AdmissionTimeout) then n.(timedOut := n.timedOut + 1) else n)
  {
    hide Counted;
    Recount(calls, n, c, calls[c].(stage := Decided(v)),
            if v == Refused(AdmissionTimeout) then n.(timedOut := n.timedOut + 1) else n);
  }

  lemma PlacingKeepsCounted(cfg: Config, s: Service)
    requires Flowing(cfg, s) && Inv(s.sched) && Enabled(cfg, s, TryPlace) && Counted(s.calls, s.counters)
    ensures var s' := Apply(cfg, s, TryPlace); Counted(s'.calls, s'.counters)
  {
    var v := PlacingCounts(cfg, s);
    HeldCall(cfg, s);
    hide *;
    if v.Some? {
      DecisionIsCounted(s.calls, s.counters, s.dispatcher.call, v.value);
    }
  }

  lemma PlacingCounts(cfg: Config, s: Service) returns (v: Option<Verdict>)
    requires Inv(s.sched) && Enabled(cfg, s, TryPlace)
    ensures s.dispatcher.Placing? && s.dispatcher.call in s.calls
    ensures var c, n, s' := s.dispatcher.call, s.counters, Apply(cfg, s, TryPlace);
      && (v.None? ==> s'.calls == s.calls && s'.counters == n)
      && (v.Some? ==>
            && Sane(v.value)
            && s'.calls == s.calls[c := s.calls[c].(stage := Decided(v.value))]
            && s'.counters == if v.value == Refused(AdmissionTimeout) then n.(timedOut := n.timedOut + 1) else n)
  {
    v := PlacingDecides(s);
    hide Inv, DoTryPlace, Sane;
  }

  lemma HeldCall(cfg: Config, s: Service)
    requires Flowing(cfg, s) && (s.dispatcher.Serving? || s.dispatcher.Placing? || s.dispatcher.Waiting?)
    ensures var c := s.dispatcher.call;
      && c in s.calls && s.calls[c].stage == Dispatched
      && (s.calls[c].caller == Recording || s.calls[c].caller == Awaiting)
  {
    hide Flow;
    FlowFacts(s.calls, s.queue, s.dispatcher, s.verdicts, s.enqueued);
  }

  lemma {:induction false} RunsKeepCounted(cfg: Config, s: Service, acts: seq<Action>)
    requires Init(s) && Exec(cfg, s, acts).Some?
    ensures var t := Exec(cfg, s, acts).value; Counted(t.calls, t.counters)
  {
    if acts == [] {
      assert forall k :: Members(map[], k) == {};
    } else {
      var front, a := acts[..|acts| - 1], acts[|acts| - 1];
      RunsKeepCounted(cfg, s, front);
      RunsKeepFlow(cfg, s, front);
      hide Inv, Flowing, Counted, Apply, Enabled;
      StepKeepsCounted(cfg, Exec(cfg, s, front).value, a);
    }
  }

  lemma ClassesPartition(calls: map<CallId, Call>)
    ensures |calls| ==
      |Members(calls, InFlight)| + |Members(calls, Placed)| + |Members(calls, TimedOut)|
      + |Members(calls, QueueRejected)| + |Members(calls, BootFailure)|
      + |Members(calls, ShutDown)| + |Members(calls, Duplicate)|
  {
    hide ClassOf, Members, Others;
    var k0: set<Class> := {};
    var k1 := k0 + {InFlight};
    var k2 := k1 + {Placed};
    var k3 := k2 + {TimedOut};
    var k4 := k3 + {QueueRejected};
    var k5 := k4 + {BootFailure};
    var k6 := k5 + {ShutDown};
    PeelClass(calls, k0, InFlight);
    PeelClass(calls, k1, Placed);
    PeelClass(calls, k2, TimedOut);
    PeelClass(calls, k3, QueueRejected);
    PeelClass(calls, k4, BootFailure);
    PeelClass(calls, k5, ShutDown);
    PeelClass(calls, k6, Duplicate);
    AllOrNone(calls, k6 + {Duplicate});
  }

  /** The calls of none of the given classes. */
  ghost function Others(calls: map<CallId, Call>, ks: set<Class>): set<CallId> {
    set c | c in calls && ClassOf(calls[c]) !in ks
  }

  lemma PeelClass(calls: map<CallId, Call>, ks: set<Class>, k: Class)
    requires k !in ks
    ensures |Others(calls, ks)| == |Members(calls, k)| + |Others(calls, ks + {k})|
  {
    hide ClassOf;
    PartSize(Others(calls, ks), Members(calls, k));
    assert Others(calls, ks) - Members(calls, k) == Others(calls, ks + {k});
  }

  lemma AllOrNone(calls: map<CallId, Call>, ks: set<Class>)
    requires {InFlight, Placed, TimedOut, QueueRejected, BootFailure, ShutDown, Duplicate} <= ks
    ensures |Others(calls, {})| == |calls| && Others(calls, ks) == {}
  {
    assert Others(calls, {}) == calls.Keys && |calls.Keys| == |calls|;
  }

  /** Nothing is lost: accepted requests are the placed, timed out, rejected and boot-failed
      ones the counters report, plus those refused at shutdown or as duplicates, plus those
      still in flight. */
  lemma RequestsAreConserved(cfg: Config, s: Service, acts: seq<Action>)
    requires Init(s) && Exec(cfg, s, acts).Some?
    ensures var t := Exec(cfg, s, acts).value;
      var n := t.counters;
      n.accepted == n.placed + n.timedOut + n.queueRejected + n.bootFailed
        + |Members(t.calls, ShutDown)| + |Members(t.calls, Duplicate)| + |Members(t.calls, InFlight)|
  {
    RunsKeepCounted(cfg, s, acts);
    ClassesPartition(Exec(cfg, s, acts).value.calls);
  }

  ghost function SucceededCalls(calls: map<CallId, Call>): set<CallId> {
    set c | c in calls && calls[c].caller.Returned? && calls[c].caller.outcome.Succeeded?
  }

  ghost function FailedCalls(calls: map<CallId, Call>, why: Failure): set<CallId> {
    set c | c in calls && calls[c].caller == Returned(Failed(why))
  }

  lemma ResultsAreClasses(calls: map<CallId, Call>, why: Failure)
    requires forall c :: c in calls ==> calls[c].caller.Returned?
    ensures Members(calls, Placed) == SucceededCalls(calls)
    ensures Members(calls, ClassOfFailure(why)) == FailedCalls(calls, why)
  {
  }

  /** Once every call has returned, each counter is exactly the number of calls that got that
      result, and the high-water mark has stayed within the queue. */
  lemma CountersMatchResults(cfg: Config, s: Service, acts: seq<Action>)
    requires Init(s) && Exec(cfg, s, acts).Some?
    requires forall c :: c in Exec(cfg, s, acts).value.calls ==> Exec(cfg, s, acts).value.calls[c].caller.Returned?
    ensures var t := Exec(cfg, s, acts).value;
      && t.counters.placed == |SucceededCalls(t.calls)|
      && t.counters.timedOut == |FailedCalls(t.calls, AdmissionTimeout)|
      && t.counters.queueRejected == |FailedCalls(t.calls, QueueFull)|
      && t.counters.bootFailed == |FailedCalls(t.calls, BootFailed)|
      && t.counters.maxQueueLen <= cfg.queueDepth
  {
    RunsKeepCounted(cfg, s, acts);
    RunsKeepFlow(cfg, s, acts);
    hide *;
    var t := Exec(cfg, s, acts).value;
    ReturnedCallsCounted(t.calls, t.counters);
    MaxQueueFits(cfg, t);
  }

  lemma ReturnedCallsCounted(calls: map<CallId, Call>, n: Counters)
    requires Counted(calls, n) && forall c :: c in calls ==> calls[c].caller.Returned?
    ensures n.placed == |SucceededCalls(calls)|
    ensures n.timedOut == |FailedCalls(calls, AdmissionTimeout)|
    ensures n.queueRejected == |FailedCalls(calls, QueueFull)|
    ensures n.bootFailed == |FailedCalls(calls, BootFailed)|
  {
    ResultsAreClasses(calls, AdmissionTimeout);
    ResultsAreClasses(calls, QueueFull);
    ResultsAreClasses(calls, BootFailed);
    hide Members, SucceededCalls, FailedCalls;
  }

  lemma MaxQueueFits(cfg: Config, s: Service)
    requires Flowing(cfg, s)
    ensures s.counters.maxQueueLen <= cfg.queueDepth
  {
    hide Flow;
  }
}
