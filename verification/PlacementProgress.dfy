/** Which steps can be taken, in every reachable state: the dispatcher has exactly those its code offers
    it where it is, and so has every call of Admit. Neither gets stuck: the dispatcher rests only without
    work, a call only for room in the queue or for its answer (internal/placement/service.go). */
module PlacementProgress {
  import opened Common
  import opened SchedulerSpec
  import opened PlacementProtocol
  import opened PlacementFlow
  import opened PlacementHistory

  // ----------------------------------------------------------------- the dispatcher

  /** What the dispatcher's code offers: a request past its deadline is refused and one within it tried;
      one that waits goes on with the token or the retry timer, and gives up at its deadline or at the
      shutdown. */
  ghost predicate Offers(t: Service, a: Action) {
    match t.dispatcher
    case Idle => (a == Take && t.queue != []) || (a == BeginDrain && (t.cancelled || t.stopped))
    case Serving(c, _) => c in t.calls && a == if t.calls[c].expired then TimeOut else CheckDeadline
    case Placing(_, _) => a == TryPlace
    case Waiting(c, _) =>
      || a == Tick || (a == Wake && t.freed)
      || (a == QuitWaiting && (t.cancelled || t.stopped))
      || (a == TimeOut && c in t.calls && t.calls[c].expired)
    case Writing(_, _, _) => a == Write
    case Draining => a == if t.queue != [] then DrainOne else Exit
    case Exited => false
  }

  lemma StepIsOffered(cfg: Config, t: Service, a: Action)
    requires DispatcherHolds(t.calls, t.dispatcher) && (t.queue != [] ==> t.queue[0] in t.calls) && Dispatching(a)
    ensures Enabled(cfg, t, a) <==> Offers(t, a)
  {
    match a {
      case Take =>
      case BeginDrain =>
      case DrainOne =>
      case Exit =>
      case TimeOut =>
      case CheckDeadline =>
      case TryPlace =>
      case Wake =>
      case Tick =>
      case QuitWaiting =>
      case Write =>
    }
  }

  lemma DispatcherStepsExactly(cfg: Config, s: Service, acts: seq<Action>, a: Action)
    requires Init(s) && Exec(cfg, s, acts).Some? && Dispatching(a)
    ensures Enabled(cfg, Exec(cfg, s, acts).value, a) <==> Offers(Exec(cfg, s, acts).value, a)
  {
    hide Exec, Init, Inv, Enabled, Offers, Flow, Dispatching;
    RunsKeepFlow(cfg, s, acts);
    var t := Exec(cfg, s, acts).value;
    FlowFacts(t.calls, t.queue, t.dispatcher, t.verdicts, t.enqueued);
    StepIsOffered(cfg, t, a);
  }

  /** The dispatcher rests only when it has exited, or has no request and is not to shut down. */
  lemma DispatcherIsNotStuck(cfg: Config, s: Service, acts: seq<Action>) returns (a: Action)
    requires Init(s) && Exec(cfg, s, acts).Some?
    requires var t := Exec(cfg, s, acts).value;
      t.dispatcher != Exited && (t.dispatcher == Idle ==> t.queue != [] || t.cancelled || t.stopped)
    ensures Dispatching(a) && Enabled(cfg, Exec(cfg, s, acts).value, a)
  {
    hide Exec, Init, Inv, Enabled, Flow;
    var t := Exec(cfg, s, acts).value;
    RunsKeepFlow(cfg, s, acts);
    FlowFacts(t.calls, t.queue, t.dispatcher, t.verdicts, t.enqueued);
    match t.dispatcher {
      case Idle => a := if t.queue != [] then Take else BeginDrain;
      case Serving(c, _) => a := if c in t.calls && t.calls[c].expired then TimeOut else CheckDeadline;
      case Placing(_, _) => a := TryPlace;
      case Waiting(_, _) => a := Tick;
      case Writing(_, _, _) => a := Write;
      case Draining => a := if t.queue != [] then DrainOne else Exit;
    }
    StepIsOffered(cfg, t, a);
  }

  // ---------------------------------------------------------------------- the calls

  predicate OwnStep(a: Action, c: CallId) {
    match a
    case Enqueue(d) => d == c
    case RejectFull(d) => d == c
    case RecordDepth(d) => d == c
    case Receive(d) => d == c
    case BootSucceeds(d) => d == c
    case BootFails(d) => d == c
    case SignalAfterBoot(d) => d == c
    case GiveUp(d) => d == c
    case DecideToReplace(d) => d == c
    case Replace(d) => d == c
    case _ => false
  }

  /** What Admit's own code offers a call: it waits for room until its deadline, and for its answer
      without end; after a failed boot it gives up exactly when that was the third, or the deadline has
      passed. */
  ghost predicate CallOffers(cfg: Config, t: Service, c: CallId, n: History, a: Action)
    requires c in t.calls
  {
    match t.calls[c].caller
    case Offering =>
      (a == Enqueue(c) && |t.queue| < cfg.queueDepth) || (a == RejectFull(c) && t.calls[c].expired)
    case Recording => a == RecordDepth(c)
    case Awaiting => a == Receive(c) && t.calls[c].stage.Answered?
    case Booting(_, _, _) => a == BootSucceeds(c) || a == BootFails(c)
    case Freed(_, _) => a == SignalAfterBoot(c)
    case Retrying(_, _) => a == if n.failedBoots == 3 || t.calls[c].expired then GiveUp(c) else DecideToReplace(c)
    case Replacing(_, _) => a == Replace(c)
    case Returned(_) => false
  }

  lemma CallStepIsOffered(cfg: Config, t: Service, c: CallId, n: History, a: Action)
    requires c in t.calls && CallOk(t.calls[c]) && OwnStep(a, c)
    requires CallerTells(t.calls[c].caller, t.calls[c].expired, n)
    ensures Enabled(cfg, t, a) <==> CallOffers(cfg, t, c, n, a)
  {
    match a {
      case Enqueue(_) =>
      case RejectFull(_) =>
      case RecordDepth(_) =>
      case Receive(_) =>
      case BootSucceeds(_) =>
      case BootFails(_) =>
      case SignalAfterBoot(_) =>
      case GiveUp(_) =>
      case DecideToReplace(_) =>
      case Replace(_) =>
    }
  }

  lemma CallStepsExactly(cfg: Config, s: Service, acts: seq<Action>, c: CallId, a: Action)
    requires Init(s) && Exec(cfg, s, acts).Some? && c in Exec(cfg, s, acts).value.calls && OwnStep(a, c)
    ensures Enabled(cfg, Exec(cfg, s, acts).value, a) <==>
      CallOffers(cfg, Exec(cfg, s, acts).value, c, HistoryOf(cfg, s, acts, c), a)
  {
    hide Exec, Init, Inv, Enabled, CallOffers, Flow, HistoryOf, StageTells, CallerTells, OwnStep;
    RunsKeepFlow(cfg, s, acts);
    RunsTell(cfg, s, acts, c);
    PlaceOfCall(Exec(cfg, s, acts).value, c);
    CallStepIsOffered(cfg, Exec(cfg, s, acts).value, c, HistoryOf(cfg, s, acts, c), a);
  }

  /** And a call whose request has no answer yet has it in the queue or with the dispatcher. */
  lemma CallsAreNotForgotten(cfg: Config, s: Service, acts: seq<Action>, c: CallId)
    requires Init(s) && Exec(cfg, s, acts).Some? && c in Exec(cfg, s, acts).value.calls
    ensures var t := Exec(cfg, s, acts).value;
      t.calls[c].caller == Awaiting && !t.calls[c].stage.Answered? ==> c in t.queue || Handling(t.dispatcher, c)
  {
    hide Exec, Init, Inv, Flow;
    RunsKeepFlow(cfg, s, acts);
    PlaceOfCall(Exec(cfg, s, acts).value, c);
  }
}
