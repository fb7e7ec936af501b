/** What results and counters say about the steps that were taken, over every run: how often a request
    was tried, why it was refused, how often its VM was booted (internal/placement/service.go). */
module PlacementHistory {
  import opened Common
  import opened SchedulerSpec
  import opened PlacementProtocol
  import opened PlacementFlow

  /** Counted from the actions of a run alone: placement attempts while the dispatcher handled the
      request, failed boots, and further placements that found a host or did not. */
  datatype History = History(tries: nat, failedBoots: nat, replaced: nat, unplaced: nat)

  const NO_HISTORY: History := History(0, 0, 0, 0)

  ghost function OneMore(mid: Service, a: Action, c: CallId, n: History): History
    requires Inv(mid.sched)
  {
    match a
    case TryPlace => if Handling(mid.dispatcher, c) then n.(tries := n.tries + 1) else n
    case BootFails(d) => if d == c then n.(failedBoots := n.failedBoots + 1) else n
    case Replace(d) =>
      if d != c || c !in mid.calls then n
      else if Place(mid.sched, mid.calls[c].vm).1.Ok? then n.(replaced := n.replaced + 1)
      else n.(unplaced := n.unplaced + 1)
    case _ => n
  }

  ghost function HistoryOf(cfg: Config, s: Service, acts: seq<Action>, c: CallId): History
    requires Exec(cfg, s, acts).Some?
  {
    if acts == [] then NO_HISTORY
    else
      var front := acts[..|acts| - 1];
      OneMore(Exec(cfg, s, front).value, acts[|acts| - 1], c, HistoryOf(cfg, s, front, c))
  }

  // --------------------------------------------------------- what the results must say

  predicate Closing(s: Service) { s.cancelled || s.stopped }

  predicate VerdictTells(v: Verdict, expired: bool, closing: bool, n: History) {
    match v
    case Granted(_, attempts) => attempts == n.tries && n.tries >= 1
    case Refused(why) =>
      match why
      case AdmissionTimeout => expired
      case ShuttingDown => closing
      case DuplicateVM => n.tries >= 1
      case _ => false
  }

  /** The dispatcher's count is that of the attempts made for the request it handles. */
  predicate StageTells(stage: Stage, expired: bool, d: Dispatcher, closing: bool, n: History) {
    match stage
    case Unsent => n.tries == 0
    case Queued => n.tries == 0
    case Dispatched => d.Serving? || d.Placing? || d.Waiting? ==> d.attempts == n.tries
    case Decided(v) => VerdictTells(v, expired, closing, n)
    case Answered(v) => VerdictTells(v, expired, closing, n)
  }

  predicate NeverBooted(n: History) { n.failedBoots == n.replaced == n.unplaced == 0 }

  /** Each failed boot but the latest was followed by a placement that found a host, and at most three
      boots are tried. */
  predicate CallerTells(caller: Caller, expired: bool, n: History) {
    match caller
    case Offering => NeverBooted(n)
    case Recording => NeverBooted(n)
    case Awaiting => NeverBooted(n)
    case Booting(boots, _, attempts) =>
      boots == n.failedBoots == n.replaced && n.unplaced == 0 && boots < 3 && attempts == n.tries + n.replaced
    case Freed(boots, attempts) => FailedTells(boots, attempts, n)
    case Retrying(boots, attempts) => FailedTells(boots, attempts, n)
    case Replacing(boots, attempts) => FailedTells(boots, attempts, n) && boots < 2
    case Returned(Succeeded(_, attempts)) =>
      attempts == n.tries + n.replaced && n.failedBoots == n.replaced < 3 && n.unplaced == 0
    case Returned(Failed(BootFailed)) =>
      && n.failedBoots == n.replaced + 1 <= 3
      && (n.failedBoots == 3 || expired || n.unplaced == 1)
    case Returned(Failed(QueueFull)) => NeverBooted(n) && expired
    case Returned(Failed(_)) => NeverBooted(n)
  }

  predicate FailedTells(boots: nat, attempts: nat, n: History) {
    && boots + 1 == n.failedBoots && boots == n.replaced && n.unplaced == 0 && boots < 3
    && attempts == n.tries + n.replaced
  }

  ghost predicate Tells(s: Service, c: CallId, n: History) {
    if c in s.calls then
      && StageTells(s.calls[c].stage, s.calls[c].expired, s.dispatcher, Closing(s), n)
      && CallerTells(s.calls[c].caller, s.calls[c].expired, n)
    else n == NO_HISTORY
  }

  predicate ShutsOnlyWhenClosing(s: Service) {
    s.dispatcher == Dispatcher.Draining || s.dispatcher == Exited || (s.dispatcher.Writing? && s.dispatcher.draining)
    ==> Closing(s)
  }

  // ---------------------------------------------------------------- every step

  /** One call becomes next; nothing else that matters changes. */
  lemma OneCallTells(s: Service, s': Service, d: CallId, next: Call, c: CallId, n: History, n': History)
    requires Tells(s, c, n) && s'.calls == s.calls[d := next] && s'.dispatcher == s.dispatcher
    requires s'.cancelled == s.cancelled && s'.stopped == s.stopped
    requires c != d ==> n' == n
    requires c == d ==>
      StageTells(next.stage, next.expired, s.dispatcher, Closing(s), n') && CallerTells(next.caller, next.expired, n')
    ensures Tells(s', c, n')
  {
    hide StageTells, CallerTells;
  }

  /** One call becomes next, and the flags stay. */
  ghost predicate OnlyCall(s: Service, s': Service, c: CallId, next: Call) {
    s'.calls == s.calls[c := next] && s'.cancelled == s.cancelled && s'.stopped == s.stopped
  }

  lemma AdmittingIsOfOne(cfg: Config, s: Service, a: Action)
    requires Inv(s.sched) && Enabled(cfg, s, a) && Admitting(a)
    ensures OnlyCall(s, Apply(cfg, s, a), a.c, NextAdmitting(cfg, s, a))
  {
    hide Inv, DoBooting, DoDispatching, DoOutside;
  }

  lemma AdmittingTells(cfg: Config, s: Service, a: Action, c: CallId, n: History)
    requires Inv(s.sched) && Enabled(cfg, s, a) && Admitting(a) && Tells(s, c, n)
    requires a.c in s.calls ==> CallOk(s.calls[a.c])
    ensures Tells(Apply(cfg, s, a), c, OneMore(s, a, c, n))
  {
    AdmittingIsOfOne(cfg, s, a);
    AdmittingLeaves(cfg, s, a);
    hide Inv, StageTells, CallerTells, Apply, NextAdmitting;
    var next := NextAdmitting(cfg, s, a);
    if c == a.c {
      AdmittedTells(cfg, s, a, n);
    }
    hide Tells;
    OneCallTells(s, Apply(cfg, s, a), a.c, next, c, n, n);
  }

  ghost function NextAdmitting(cfg: Config, s: Service, a: Action): Call
    requires Enabled(cfg, s, a) && Admitting(a)
  {
    match a
    case Admit(_, vm) => Call(vm, false, Offering, Unsent, [])
    case Expire(c) => s.calls[c].(expired := true)
    case Enqueue(c) => s.calls[c].(caller := Recording, stage := Queued)
    case RejectFull(c) => s.calls[c].(caller := Returned(Failed(QueueFull)))
    case RecordDepth(c) => s.calls[c].(caller := Awaiting)
    case Receive(c) =>
      s.calls[c].(caller := match s.calls[c].written[0]
        case Refused(why) => Returned(Failed(why))
        case Granted(host, attempts) =>
          if cfg.hasBooter then Caller.Booting(0, host, attempts) else Returned(Succeeded(host, attempts)))
  }

  lemma AdmittedTells(cfg: Config, s: Service, a: Action, n: History)
    requires Enabled(cfg, s, a) && Admitting(a) && Tells(s, a.c, n)
    requires a.c in s.calls ==> CallOk(s.calls[a.c])
    ensures var next := NextAdmitting(cfg, s, a);
      StageTells(next.stage, next.expired, s.dispatcher, Closing(s), n) && CallerTells(next.caller, next.expired, n)
  {
    match a {
      case Admit(_, _) =>
      case Expire(_) =>
      case Enqueue(_) =>
      case RejectFull(_) =>
      case RecordDepth(_) =>
      case Receive(_) =>
    }
  }

  lemma BootingIsOfOne(cfg: Config, s: Service, a: Action)
    requires Inv(s.sched) && Enabled(cfg, s, a) && Booted(a)
    ensures a.c in s.calls && OnlyCall(s, Apply(cfg, s, a), a.c, NextBooting(s, a))
  {
    hide Inv, Place, Release, DoAdmitting, DoDispatching, DoOutside;
  }

  lemma BootingTells(cfg: Config, s: Service, a: Action, c: CallId, n: History)
    requires Inv(s.sched) && Enabled(cfg, s, a) && Booted(a) && Tells(s, c, n) && CallOk(s.calls[a.c])
    ensures Tells(Apply(cfg, s, a), c, OneMore(s, a, c, n))
  {
    hide Inv, Place, StageTells, CallerTells, Apply, NextBooting;
    BootingIsOfOne(cfg, s, a);
    BootingLeaves(cfg, s, a);
    var next := NextBooting(s, a);
    if c == a.c {
      BootTells(cfg, s, a, n);
    }
    OneCallTells(s, Apply(cfg, s, a), a.c, next, c, n, OneMore(s, a, c, n));
  }

  lemma BootTells(cfg: Config, s: Service, a: Action, n: History)
    requires Inv(s.sched) && Enabled(cfg, s, a) && Booted(a) && Tells(s, a.c, n) && CallOk(s.calls[a.c])
    ensures var next, n' := NextBooting(s, a), OneMore(s, a, a.c, n);
      StageTells(next.stage, next.expired, s.dispatcher, Closing(s), n') && CallerTells(next.caller, next.expired, n')
  {
    hide Inv, Place;
    match a {
      case BootSucceeds(_) =>
      case BootFails(_) =>
      case SignalAfterBoot(_) =>
      case GiveUp(_) =>
      case DecideToReplace(_) =>
      case Replace(_) =>
    }
  }

  ghost function NextBooting(s: Service, a: Action): Call
    requires Inv(s.sched) && Booted(a) && a.c in s.calls
    requires a.BootSucceeds? || a.BootFails? ==> s.calls[a.c].caller.Booting?
    requires a.SignalAfterBoot? ==> s.calls[a.c].caller.Freed?
    requires a.DecideToReplace? ==> s.calls[a.c].caller.Retrying?
    requires a.Replace? ==> s.calls[a.c].caller.Replacing?
  {
    var call := s.calls[a.c];
    call.(caller := match a
      case BootSucceeds(_) => Returned(Succeeded(call.caller.host, call.caller.attempts))
      case BootFails(_) => Freed(call.caller.boots, call.caller.attempts)
      case SignalAfterBoot(_) => Retrying(call.caller.boots, call.caller.attempts)
      case GiveUp(_) => Returned(Failed(BootFailed))
      case DecideToReplace(_) => Replacing(call.caller.boots, call.caller.attempts)
      case Replace(_) =>
        match Place(s.sched, call.vm).1
        case Ok(host) => Caller.Booting(call.caller.boots + 1, host, call.caller.attempts + 1)
        case Err(_) => Returned(Failed(BootFailed)))
  }

  /** The call a dispatcher step is about, if any. */
  ghost function ActsOn(s: Service, a: Action): Option<CallId>
    requires a.Take? || a.DrainOne? ==> s.queue != []
  {
    if a.Take? || a.DrainOne? then Some(s.queue[0])
    else if s.dispatcher.Serving? || s.dispatcher.Placing? || s.dispatcher.Waiting? || s.dispatcher.Writing? then
      Some(s.dispatcher.call)
    else None
  }

  lemma DispatchingKeepsCalls(cfg: Config, s: Service, a: Action)
    requires Inv(s.sched) && Enabled(cfg, s, a) && Dispatching(a)
    ensures var s' := Apply(cfg, s, a);
      s'.calls.Keys == s.calls.Keys && s'.cancelled == s.cancelled && s'.stopped == s.stopped
  {
    hide Inv, Place, DoAdmitting, DoBooting, DoOutside;
    match a {
      case Take =>
      case BeginDrain =>
      case DrainOne =>
      case Exit =>
      case TimeOut =>
      case CheckDeadline =>
      case TryPlace =>
      case Wake =>
      case Tick =>
      case QuitWaiting =>
      case Write =>
    }
  }

  lemma DispatchingLeavesOther(cfg: Config, s: Service, a: Action, c: CallId)
    requires Inv(s.sched) && Enabled(cfg, s, a) && Dispatching(a) && c in s.calls && ActsOn(s, a) != Some(c)
    ensures var s' := Apply(cfg, s, a); c in s'.calls && s'.calls[c] == s.calls[c]
  {
    hide Inv, Place, DoAdmitting, DoBooting, DoOutside;
    match a {
      case Take =>
      case BeginDrain =>
      case DrainOne =>
      case Exit =>
      case TimeOut =>
      case CheckDeadline =>
      case TryPlace =>
      case Wake =>
      case Tick =>
      case QuitWaiting =>
      case Write =>
    }
  }

  lemma ActingStageTells(cfg: Config, s: Service, a: Action, c: CallId, n: History)
    requires Inv(s.sched) && Enabled(cfg, s, a) && Dispatching(a) && !a.TryPlace? && ActsOn(s, a) == Some(c)
    requires c in s.calls && StageTells(s.calls[c].stage, s.calls[c].expired, s.dispatcher, Closing(s), n)
    requires DispatcherHolds(s.calls, s.dispatcher) && ShutsOnlyWhenClosing(s)
    requires a.Take? || a.DrainOne? ==> s.calls[c].stage == Queued
    ensures var s' := Apply(cfg, s, a);
      c in s'.calls && StageTells(s'.calls[c].stage, s.calls[c].expired, s'.dispatcher, Closing(s), n)
  {
    hide Inv, DoAdmitting, DoBooting, DoOutside, DoTryPlace;
    match a {
      case Take =>
      case DrainOne =>
      case TimeOut =>
      case CheckDeadline =>
      case Wake =>
      case Tick =>
      case QuitWaiting =>
      case Write =>
      case _ =>
    }
  }

  lemma ActingTells(cfg: Config, s: Service, a: Action, c: CallId, n: History)
    requires Inv(s.sched) && Enabled(cfg, s, a) && Dispatching(a) && !a.TryPlace? && ActsOn(s, a) == Some(c)
    requires Tells(s, c, n) && c in s.calls && DispatcherHolds(s.calls, s.dispatcher) && ShutsOnlyWhenClosing(s)
    requires a.Take? || a.DrainOne? ==> s.calls[c].stage == Queued
    ensures Tells(Apply(cfg, s, a), c, n)
  {
    hide Inv, Apply, Enabled, StageTells, CallerTells, DispatcherHolds, ShutsOnlyWhenClosing;
    ActingStageTells(cfg, s, a, c, n);
    DispatchingKeepsCalls(cfg, s, a);
    CallersStay(cfg, s, a, c);
  }

  lemma CallersStay(cfg: Config, s: Service, a: Action, c: CallId)
    requires Inv(s.sched) && Enabled(cfg, s, a) && Dispatching(a) && c in s.calls
    ensures var s' := Apply(cfg, s, a);
      c in s'.calls && s'.calls[c].caller == s.calls[c].caller && s'.calls[c].expired == s.calls[c].expired
  {
    hide Inv, Place, DoAdmitting, DoBooting, DoOutside;
    match a {
      case Take =>
      case BeginDrain =>
      case DrainOne =>
      case Exit =>
      case TimeOut =>
      case CheckDeadline =>
      case TryPlace =>
      case Wake =>
      case Tick =>
      case QuitWaiting =>
      case Write =>
    }
  }

  lemma PlacingTells(cfg: Config, s: Service, c: CallId, n: History)
    requires Inv(s.sched) && s.dispatcher.Placing? && s.dispatcher.call == c
    requires Tells(s, c, n) && c in s.calls && s.calls[c].stage == Dispatched && CallOk(s.calls[c])
    ensures Tells(DoTryPlace(s), c, n.(tries := n.tries + 1))
  {
    hide Inv, Place;
  }

  lemma DispatchingTells(cfg: Config, s: Service, a: Action, c: CallId, n: History)
    requires Flowing(cfg, s) && Inv(s.sched) && Enabled(cfg, s, a) && Dispatching(a) && Tells(s, c, n)
    requires ShutsOnlyWhenClosing(s)
    ensures Tells(Apply(cfg, s, a), c, OneMore(s, a, c, n))
  {
    hide Inv, Flowing, Apply, Enabled, DoTryPlace, Tells, DispatcherHolds, CallOk, Place;
    HeldHere(cfg, s, a, c);
    if c in s.calls && ActsOn(s, a) == Some(c) {
      if a.TryPlace? {
        TryPlaceStep(cfg, s);
        PlacingTells(cfg, s, c, n);
      } else {
        ActingTells(cfg, s, a, c, n);
      }
    } else {
      DispatchingKeepsCalls(cfg, s, a);
      if c in s.calls { DispatchingLeavesOther(cfg, s, a, c); }
      OtherTells(s, Apply(cfg, s, a), c, n);
    }
  }

  lemma HeldHere(cfg: Config, s: Service, a: Action, c: CallId)
    requires Flowing(cfg, s) && Enabled(cfg, s, a) && Dispatching(a)
    ensures (a.Take? || a.DrainOne? ==> s.queue != []) && DispatcherHolds(s.calls, s.dispatcher)
    ensures c in s.calls ==> CallOk(s.calls[c])
    ensures c in s.calls && s.calls[c].stage.Dispatched? ==> ActsOn(s, a) == Some(c) && Handling(s.dispatcher, c)
    ensures a.Take? || a.DrainOne? ==> s.queue[0] in s.calls && s.calls[s.queue[0]].stage == Queued
    ensures a.TryPlace? && Handling(s.dispatcher, c) ==> ActsOn(s, a) == Some(c)
    ensures a.TryPlace? ==> s.calls[s.dispatcher.call].stage == Dispatched
  {
    if c in s.calls {
      PlaceOfCall(s, c);
    }
  }

  /** Only a dispatched request is told of by the dispatcher's count. */
  lemma OtherTells(s: Service, s': Service, c: CallId, n: History)
    requires Tells(s, c, n) && s'.calls.Keys == s.calls.Keys && (c in s.calls ==> s'.calls[c] == s.calls[c])
    requires Closing(s) ==> Closing(s')
    requires c in s.calls && s.calls[c].stage.Dispatched? ==> s'.dispatcher == s.dispatcher
    ensures Tells(s', c, n)
  {
  }

  lemma OutsideTells(cfg: Config, s: Service, a: Action, c: CallId, n: History)
    requires Inv(s.sched) && Enabled(cfg, s, a) && !Admitting(a) && !Booted(a) && !Dispatching(a) && Tells(s, c, n)
    ensures Tells(Apply(cfg, s, a), c, OneMore(s, a, c, n))
  {
    hide Inv, Apply, StageTells, CallerTells, VerdictTells;
    OutsideLeaves(cfg, s, a);
    if Closing(s) {
      ClosingStays(cfg, s, a);
    }
    hide Tells;
    OtherTells(s, Apply(cfg, s, a), c, n);
  }

  lemma ClosingStays(cfg: Config, s: Service, a: Action)
    requires Inv(s.sched) && Enabled(cfg, s, a) && Closing(s)
    ensures Closing(Apply(cfg, s, a))
  {
    hide Inv, Place, Release, SetHostState, RemoveHost, AddHost;
  }

  lemma StaysShutOnlyWhenClosing(cfg: Config, s: Service, a: Action)
    requires Inv(s.sched) && Enabled(cfg, s, a) && ShutsOnlyWhenClosing(s)
    ensures ShutsOnlyWhenClosing(Apply(cfg, s, a))
  {
    hide Inv, Apply;
    if Closing(s) {
      ClosingStays(cfg, s, a);
    } else if Admitting(a) {
      AdmittingLeaves(cfg, s, a);
    } else if Booted(a) {
      BootingLeaves(cfg, s, a);
    } else if Dispatching(a) {
      NothingShuts(cfg, s, a);
    } else {
      OutsideLeaves(cfg, s, a);
    }
  }

  lemma NothingShuts(cfg: Config, s: Service, a: Action)
    requires Inv(s.sched) && Enabled(cfg, s, a) && Dispatching(a) && ShutsOnlyWhenClosing(s) && !Closing(s)
    ensures ShutsOnlyWhenClosing(Apply(cfg, s, a))
  {
    hide Inv, Place, DoAdmitting, DoBooting, DoOutside;
  }

  // -------------------------------------------------------------------- over runs

  lemma StepTells(cfg: Config, s: Service, a: Action, c: CallId, n: History)
    requires Flowing(cfg, s) && Inv(s.sched) && Enabled(cfg, s, a) && Tells(s, c, n) && ShutsOnlyWhenClosing(s)
    ensures Tells(Apply(cfg, s, a), c, OneMore(s, a, c, n))
  {
    hide Inv, Flow, Apply, Enabled, Tells, OneMore, CallOk;
    FlowFacts(s.calls, s.queue, s.dispatcher, s.verdicts, s.enqueued);
    if Admitting(a) {
      AdmittingTells(cfg, s, a, c, n);
    } else if Booted(a) {
      CallExists(cfg, s, a);
      BootingTells(cfg, s, a, c, n);
    } else if Dispatching(a) {
      DispatchingTells(cfg, s, a, c, n);
    } else {
      OutsideTells(cfg, s, a, c, n);
    }
  }

  lemma CallExists(cfg: Config, s: Service, a: Action)
    requires Enabled(cfg, s, a) && Booted(a)
    ensures a.c in s.calls
  {
  }

  lemma {:induction false} RunsTell(cfg: Config, s: Service, acts: seq<Action>, c: CallId)
    requires Init(s) && Exec(cfg, s, acts).Some?
    ensures var t := Exec(cfg, s, acts).value;
      Tells(t, c, HistoryOf(cfg, s, acts, c)) && ShutsOnlyWhenClosing(t)
  {
    if acts == [] {
    } else {
      hide Inv, Flowing, Apply, Enabled, Tells, OneMore, ShutsOnlyWhenClosing;
      var front, a := acts[..|acts| - 1], acts[|acts| - 1];
      RunsTell(cfg, s, front, c);
      RunsKeepFlow(cfg, s, front);
      var mid := Exec(cfg, s, front).value;
      StepTells(cfg, mid, a, c, HistoryOf(cfg, s, front, c));
      StaysShutOnlyWhenClosing(cfg, mid, a);
    }
  }

  /** The attempts reported are the attempts made: the dispatcher counts the placements it tried for
      the request it handles, a grant carries that count, and a result adds one for each time a failed
      boot was followed by a placement that found a host. */
  lemma AttemptsAreTries(cfg: Config, s: Service, acts: seq<Action>, c: CallId)
    requires Init(s) && Exec(cfg, s, acts).Some? && c in Exec(cfg, s, acts).value.calls
    ensures var t, n := Exec(cfg, s, acts).value, HistoryOf(cfg, s, acts, c);
      var d, call := t.dispatcher, t.calls[c];
      && ((d.Serving? || d.Placing? || d.Waiting?) && d.call == c ==> d.attempts == n.tries)
      && (call.stage.Decided? || call.stage.Answered? ==>
            (call.stage.verdict.Granted? ==> call.stage.verdict.attempts == n.tries >= 1))
      && (call.caller.Booting? ==> call.caller.attempts == n.tries + n.replaced)
      && (call.caller.Returned? && call.caller.outcome.Succeeded? ==>
            call.caller.outcome.attempts == n.tries + n.replaced)
  {
    RunsTell(cfg, s, acts, c);
    RunsKeepFlow(cfg, s, acts);
    hide Exec, HistoryOf, Init, Inv;
    HandledIsDispatched(cfg, Exec(cfg, s, acts).value, c);
    hide Flowing;
  }

  lemma HandledIsDispatched(cfg: Config, t: Service, c: CallId)
    requires Flowing(cfg, t) && c in t.calls
    ensures (t.dispatcher.Serving? || t.dispatcher.Placing? || t.dispatcher.Waiting?) && t.dispatcher.call == c ==>
      t.calls[c].stage == Dispatched
  {
  }

  /** A boot is tried at most three times, and the call fails for it only after three failures, past
      its deadline, or when no host took the VM again. */
  lemma BootsAreBounded(cfg: Config, s: Service, acts: seq<Action>, c: CallId)
    requires Init(s) && Exec(cfg, s, acts).Some? && c in Exec(cfg, s, acts).value.calls
    ensures var t, n := Exec(cfg, s, acts).value, HistoryOf(cfg, s, acts, c);
      && n.failedBoots <= 3 && n.replaced <= 2
      && (t.calls[c].caller.Booting? || t.calls[c].caller == Returned(Failed(BootFailed)) ==>
            n.failedBoots == n.replaced + if t.calls[c].caller.Booting? then 0 else 1)
      && (t.calls[c].caller == Returned(Failed(BootFailed)) ==>
            n.failedBoots == 3 || t.calls[c].expired || n.unplaced == 1)
  {
    hide Exec, HistoryOf, Init, StageTells, ShutsOnlyWhenClosing;
    RunsTell(cfg, s, acts, c);
  }

  /** No request is refused without cause: for lateness only past its deadline, for shutdown only once
      the context is cancelled or Stop was called, as a duplicate only after a placement was tried. */
  lemma RefusalsHaveCause(cfg: Config, s: Service, acts: seq<Action>, c: CallId)
    requires Init(s) && Exec(cfg, s, acts).Some? && c in Exec(cfg, s, acts).value.calls
    ensures var t := Exec(cfg, s, acts).value;
      && (t.calls[c].caller == Returned(Failed(AdmissionTimeout)) || t.calls[c].caller == Returned(Failed(QueueFull))
          ==> t.calls[c].expired)
      && (t.calls[c].caller == Returned(Failed(ShuttingDown)) ==> t.cancelled || t.stopped)
      && (t.calls[c].caller == Returned(Failed(DuplicateVM)) ==> HistoryOf(cfg, s, acts, c).tries >= 1)
  {
    RunsTell(cfg, s, acts, c);
    RunsKeepFlow(cfg, s, acts);
    hide Exec, HistoryOf, Init, Inv;
    PlaceOfCall(Exec(cfg, s, acts).value, c);
    hide Flowing;
  }

  // -------------------------------------------------------------------- counters

  /** The longest queue any call saw when it recorded the depth. */
  ghost function DeepestSeen(cfg: Config, s: Service, acts: seq<Action>): nat
    requires Exec(cfg, s, acts).Some?
  {
    if acts == [] then 0
    else
      var front := acts[..|acts| - 1];
      var deepest, depth := DeepestSeen(cfg, s, front), |Exec(cfg, s, front).value.queue|;
      if acts[|acts| - 1].RecordDepth? && depth > deepest then depth else deepest
  }

  /** Releases of VMs that were assigned at the time. */
  ghost function Releases(cfg: Config, s: Service, acts: seq<Action>): nat
    requires Exec(cfg, s, acts).Some?
  {
    if acts == [] then 0
    else
      var front, a := acts[..|acts| - 1], acts[|acts| - 1];
      Releases(cfg, s, front) +
      if a.ReleaseVM? && a.vm in Exec(cfg, s, front).value.sched.assignment then 1 else 0
  }

  function Admissions(acts: seq<Action>): nat {
    if acts == [] then 0 else Admissions(acts[..|acts| - 1]) + if acts[|acts| - 1].Admit? then 1 else 0
  }

  lemma AdmittingCounts(cfg: Config, s: Service, a: Action)
    requires Inv(s.sched) && Enabled(cfg, s, a) && Admitting(a)
    ensures var n, n' := s.counters, Apply(cfg, s, a).counters;
      && n'.maxQueueLen == (if a.RecordDepth? && |s.queue| > n.maxQueueLen then |s.queue| else n.maxQueueLen)
      && n'.released == n.released && n'.accepted == n.accepted + if a.Admit? then 1 else 0
  {
    hide Inv, DoBooting, DoDispatching, DoOutside;
    match a {
      case Admit(_, _) =>
      case Expire(_) =>
      case Enqueue(_) =>
      case RejectFull(_) =>
      case RecordDepth(_) =>
      case Receive(_) =>
    }
  }

  lemma BootingCounts(cfg: Config, s: Service, a: Action)
    requires Inv(s.sched) && Enabled(cfg, s, a) && Booted(a)
    ensures var n, n' := s.counters, Apply(cfg, s, a).counters;
      n'.maxQueueLen == n.maxQueueLen && n'.released == n.released && n'.accepted == n.accepted
  {
    hide Inv, Place, Release, DoAdmitting, DoDispatching, DoOutside;
    match a {
      case BootSucceeds(_) =>
      case BootFails(_) =>
      case SignalAfterBoot(_) =>
      case GiveUp(_) =>
      case DecideToReplace(_) =>
      case Replace(_) =>
    }
  }

  lemma DispatchingCounts(cfg: Config, s: Service, a: Action)
    requires Inv(s.sched) && Enabled(cfg, s, a) && Dispatching(a)
    ensures var n, n' := s.counters, Apply(cfg, s, a).counters;
      n'.maxQueueLen == n.maxQueueLen && n'.released == n.released && n'.accepted == n.accepted
  {
    hide Inv, Place, DoAdmitting, DoBooting, DoOutside;
    match a {
      case Take =>
      case BeginDrain =>
      case DrainOne =>
      case Exit =>
      case TimeOut =>
      case CheckDeadline =>
      case TryPlace =>
      case Wake =>
      case Tick =>
      case QuitWaiting =>
      case Write =>
    }
  }

  lemma OutsideCounts(cfg: Config, s: Service, a: Action)
    requires Inv(s.sched) && Enabled(cfg, s, a) && !Admitting(a) && !Booted(a) && !Dispatching(a)
    ensures var n, n' := s.counters, Apply(cfg, s, a).counters;
      n' == n.(released := n.released + if a.ReleaseVM? && a.vm in s.sched.assignment then 1 else 0)
  {
    if a.ReleaseVM? { ReleaseUnassigns(s.sched, a.vm); }
    hide Inv, Release, SetHostState, RemoveHost, AddHost, DoAdmitting, DoBooting, DoDispatching;
  }

  lemma StepCounts(cfg: Config, s: Service, a: Action)
    requires Inv(s.sched) && Enabled(cfg, s, a)
    ensures var n, n' := s.counters, Apply(cfg, s, a).counters;
      && n'.maxQueueLen == (if a.RecordDepth? && |s.queue| > n.maxQueueLen then |s.queue| else n.maxQueueLen)
      && n'.released == n.released + (if a.ReleaseVM? && a.vm in s.sched.assignment then 1 else 0)
      && n'.accepted == n.accepted + if a.Admit? then 1 else 0
  {
    hide Inv, Apply, Enabled;
    if Admitting(a) {
      AdmittingCounts(cfg, s, a);
    } else if Booted(a) {
      BootingCounts(cfg, s, a);
    } else if Dispatching(a) {
      DispatchingCounts(cfg, s, a);
    } else {
      OutsideCounts(cfg, s, a);
    }
  }

  /** Over every run the high-water mark is the longest queue recorded, and the other two counters are
      the numbers of admissions begun and of releases that had something to release. */
  lemma {:induction false} CountersTell(cfg: Config, s: Service, acts: seq<Action>)
    requires Init(s) && Exec(cfg, s, acts).Some?
    ensures var n := Exec(cfg, s, acts).value.counters;
      && n.maxQueueLen == DeepestSeen(cfg, s, acts)
      && n.released == Releases(cfg, s, acts) && n.accepted == Admissions(acts)
  {
    if acts == [] {
    } else {
      hide Inv, Apply, Enabled;
      var front := acts[..|acts| - 1];
      CountersTell(cfg, s, front);
      StepCounts(cfg, Exec(cfg, s, front).value, acts[|acts| - 1]);
    }
  }
}
