/** The admission protocol of placement.Service as interleaved atomic steps
    (internal/placement/service.go): callers of Admit, the one dispatcher, callers of Release,
    and whoever changes the fleet. Every scheduler call is one step, because the scheduler
    holds its mutex throughout. Counters are bumped in the step that makes the decision they
    count. */
module PlacementProtocol {
  import opened Common
  import opened SchedulerSpec

  const MAX_BOOT_ATTEMPTS := 3

  type CallId = nat

  datatype Failure = AdmissionTimeout | QueueFull | ShuttingDown | DuplicateVM | BootFailed

  datatype Verdict = Granted(host: HostID, attempts: nat) | Refused(why: Failure)

  datatype Outcome = Succeeded(host: HostID, attempts: nat) | Failed(why: Failure)

  /** Where a call of Admit is in its own code. Boots counts boots already failed. */
  datatype Caller =
    | Offering
    | Recording
    | Awaiting
    | Booting(boots: nat, host: HostID, attempts: nat)
    | Freed(boots: nat, attempts: nat)
    | Retrying(boots: nat, attempts: nat)
    | Replacing(boots: nat, attempts: nat)
    | Returned(outcome: Outcome)

  /** History of the request on its way through queue and dispatcher. */
  datatype Stage = Unsent | Queued | Dispatched | Decided(verdict: Verdict) | Answered(verdict: Verdict)

  /** One call of Admit: its deadline flag, code position, and everything ever sent on its
      result channel. */
  datatype Call = Call(vm: VMID, expired: bool, caller: Caller, stage: Stage, written: seq<Verdict>)

  datatype Dispatcher =
    | Idle
    | Serving(call: CallId, attempts: nat)
    | Placing(call: CallId, attempts: nat)
    | Waiting(call: CallId, attempts: nat)
    | Writing(call: CallId, verdict: Verdict, draining: bool)
    | Draining
    | Exited

  datatype Counters = Counters(
    accepted: nat,
    placed: nat,
    timedOut: nat,
    queueRejected: nat,
    released: nat,
    bootFailed: nat,
    maxQueueLen: nat)

  /** Queue depth, and whether a Booter is attached. */
  datatype Config = Config(queueDepth: nat, hasBooter: bool)

  /** The last two fields are history: the calls whose VM a client has released since they returned,
      and those whose slot went with its host. */
  datatype Service = Service(
    sched: State,
    calls: map<CallId, Call>,
    queue: seq<CallId>,
    dispatcher: Dispatcher,
    freed: bool,
    signallers: nat,
    cancelled: bool,
    stopped: bool,
    counters: Counters,
    enqueued: seq<CallId>,
    verdicts: seq<(CallId, Verdict)>,
    released: set<CallId>,
    orphaned: set<CallId>)

  datatype Action =
    // callers of Admit
    | Admit(c: CallId, vm: VMID)
    | Expire(c: CallId)
    | Enqueue(c: CallId)
    | RejectFull(c: CallId)
    | RecordDepth(c: CallId)
    | Receive(c: CallId)
    | BootSucceeds(c: CallId)
    | BootFails(c: CallId)
    | SignalAfterBoot(c: CallId)
    | GiveUp(c: CallId)
    | DecideToReplace(c: CallId)
    | Replace(c: CallId)
    // the dispatcher
    | Take
    | BeginDrain
    | DrainOne
    | Exit
    | TimeOut
    | CheckDeadline
    | TryPlace
    | Wake
    | Tick
    | QuitWaiting
    | Write
    // everybody else
    | Cancel
    | Stop
    | ReleaseVM(vm: VMID)
    | Signal
    | SpuriousSignal
    | AddHostTo(id: HostID, capacity: int)
    | SetStateOf(id: HostID, state: HostState)
    | RemoveHostFrom(id: HostID)

  /** The host on which a call holds a slot: one granted and not yet read, one being booted on,
      or one returned to the client and not yet released. */
  ghost function Claim(call: Call, released: bool): Option<HostID> {
    match call.caller
    case Recording => ClaimOfStage(call.stage)
    case Awaiting => ClaimOfStage(call.stage)
    case Booting(_, host, _) => Some(host)
    case Returned(Succeeded(host, _)) => if released then None else Some(host)
    case _ => None
  }

  ghost function ClaimOfStage(stage: Stage): Option<HostID> {
    match stage
    case Decided(Granted(host, _)) => Some(host)
    case Answered(Granted(host, _)) => Some(host)
    case _ => None
  }

  /** The calls whose slots go with these VMs. */
  ghost function Displaced(s: Service, guests: set<VMID>): set<CallId> {
    set c | c in s.calls && s.calls[c].vm in guests && Claim(s.calls[c], c in s.released).Some?
  }

  ghost function ReturnedUnder(s: Service, vm: VMID): set<CallId> {
    set c | c in s.calls && s.calls[c].vm == vm && s.calls[c].caller.Returned?
  }

  // -------------------------------------------------------------- transitions

  ghost predicate At(s: Service, c: CallId, caller: Caller) {
    c in s.calls && s.calls[c].caller == caller
  }

  ghost predicate Handling(d: Dispatcher, c: CallId) {
    (d.Serving? || d.Placing? || d.Waiting? || d.Writing?) && d.call == c
  }

  ghost predicate Enabled(cfg: Config, s: Service, a: Action) {
    match a
    case Admit(c, vm) => c !in s.calls && vm != VMID("")
    case Expire(c) => c in s.calls
    case Enqueue(c) => At(s, c, Offering) && |s.queue| < cfg.queueDepth
    case RejectFull(c) => At(s, c, Offering) && s.calls[c].expired
    case RecordDepth(c) => At(s, c, Recording)
    case Receive(c) => At(s, c, Awaiting) && s.calls[c].written != []
    case BootSucceeds(c) => c in s.calls && s.calls[c].caller.Booting?
    case BootFails(c) => c in s.calls && s.calls[c].caller.Booting?
    case SignalAfterBoot(c) => c in s.calls && s.calls[c].caller.Freed?
    case GiveUp(c) => c in s.calls && s.calls[c].caller.Retrying?
                      && (s.calls[c].caller.boots + 1 >= MAX_BOOT_ATTEMPTS || s.calls[c].expired)
    case DecideToReplace(c) => c in s.calls && s.calls[c].caller.Retrying?
                               && s.calls[c].caller.boots + 1 < MAX_BOOT_ATTEMPTS && !s.calls[c].expired
    case Replace(c) => c in s.calls && s.calls[c].caller.Replacing?
    case Take => s.dispatcher == Idle && s.queue != [] && s.queue[0] in s.calls
    case BeginDrain => s.dispatcher == Idle && (s.cancelled || s.stopped)
    case DrainOne => s.dispatcher == Dispatcher.Draining && s.queue != [] && s.queue[0] in s.calls
    case Exit => s.dispatcher == Dispatcher.Draining && s.queue == []
    case TimeOut => (s.dispatcher.Serving? || s.dispatcher.Waiting?)
                    && s.dispatcher.call in s.calls && s.calls[s.dispatcher.call].expired
    case CheckDeadline => s.dispatcher.Serving?
                          && s.dispatcher.call in s.calls && !s.calls[s.dispatcher.call].expired
    case TryPlace => s.dispatcher.Placing? && s.dispatcher.call in s.calls
    case Wake => s.dispatcher.Waiting? && s.freed
    case Tick => s.dispatcher.Waiting?
    case QuitWaiting => s.dispatcher.Waiting? && s.dispatcher.call in s.calls && (s.cancelled || s.stopped)
    case Write => s.dispatcher.Writing? && s.dispatcher.call in s.calls
    case Cancel => true
    case Stop => true
    case ReleaseVM(vm) => true
    case Signal => s.signallers > 0
    case SpuriousSignal => true
    case AddHostTo(id, capacity) => true
    case SetStateOf(id, state) => true
    case RemoveHostFrom(id) => true
  }

  /** The call moves on in its own code. */
  ghost function Move(s: Service, c: CallId, caller: Caller): Service
    requires c in s.calls
  {
    s.(calls := s.calls[c := s.calls[c].(caller := caller)])
  }

  /** The call leaves Admit, and the counter for that outcome goes up. */
  ghost function Return(s: Service, c: CallId, outcome: Outcome): Service
    requires c in s.calls
  {
    var n := s.counters;
    Move(s, c, Returned(outcome)).(counters :=
      match outcome
      case Succeeded(_, _) => n.(placed := n.placed + 1)
      case Failed(QueueFull) => n.(queueRejected := n.queueRejected + 1)
      case Failed(BootFailed) => n.(bootFailed := n.bootFailed + 1)
      case Failed(_) => n)
  }

  /** The dispatcher settles on a verdict for the request it handles. */
  ghost function Decide(s: Service, c: CallId, v: Verdict, draining: bool): Service
    requires c in s.calls
  {
    s.(calls := s.calls[c := s.calls[c].(stage := Decided(v))],
       dispatcher := Writing(c, v, draining),
       counters := if v == Refused(AdmissionTimeout)
                   then s.counters.(timedOut := s.counters.timedOut + 1) else s.counters)
  }

  ghost function DoReceive(cfg: Config, s: Service, c: CallId): Service
    requires c in s.calls && s.calls[c].written != []
  {
    match s.calls[c].written[0]
    case Refused(why) => Move(s, c, Returned(Failed(why)))
    case Granted(host, attempts) =>
      if cfg.hasBooter then Move(s, c, Booting(0, host, attempts))
      else Return(s, c, Succeeded(host, attempts))
  }

  /** A failed boot gives the slot back; the caller has still to signal. */
  ghost function DoBootFails(s: Service, c: CallId): Service
    requires Inv(s.sched) && c in s.calls && s.calls[c].caller.Booting?
  {
    var Booting(boots, _, attempts) := s.calls[c].caller;
    Move(s, c, Freed(boots, attempts)).(
      sched := Release(s.sched, s.calls[c].vm).0,
      orphaned := s.orphaned - {c})
  }

  ghost function DoReplace(s: Service, c: CallId): Service
    requires Inv(s.sched) && c in s.calls && s.calls[c].caller.Replacing?
  {
    var Replacing(boots, attempts) := s.calls[c].caller;
    var (sched', r) := Place(s.sched, s.calls[c].vm);
    match r
    case Ok(host) => Move(s, c, Booting(boots + 1, host, attempts + 1)).(sched := sched')
    case Err(_) => Return(s, c, Failed(BootFailed))
  }

  ghost function DoTryPlace(s: Service): Service
    requires Inv(s.sched) && s.dispatcher.Placing? && s.dispatcher.call in s.calls
  {
    var Placing(c, attempts) := s.dispatcher;
    var (sched', r) := Place(s.sched, s.calls[c].vm);
    match r
    case Ok(host) => Decide(s, c, Granted(host, attempts + 1), false).(sched := sched')
    case Err(ErrNoCapacity) => s.(dispatcher := Waiting(c, attempts + 1))
    case Err(_) => Decide(s, c, Refused(DuplicateVM), false)
  }

  ghost function DoWrite(s: Service): Service
    requires s.dispatcher.Writing? && s.dispatcher.call in s.calls
  {
    var Writing(c, v, draining) := s.dispatcher;
    var call := s.calls[c];
    s.(calls := s.calls[c := call.(stage := Answered(v), written := call.written + [v])],
       verdicts := s.verdicts + [(c, v)],
       dispatcher := if draining then Dispatcher.Draining else Idle)
  }

  ghost function DoReleaseVM(s: Service, vm: VMID): Service
    requires Inv(s.sched)
  {
    var (sched', err) := Release(s.sched, vm);
    if err.Some? then s
    else
      s.(sched := sched',
         released := s.released + ReturnedUnder(s, vm),
         signallers := s.signallers + 1,
         counters := s.counters.(released := s.counters.released + 1))
  }

  /** Whoever makes a host ready signals afterwards. */
  ghost function DoSetState(s: Service, id: HostID, state: HostState): Service
    requires Inv(s.sched)
  {
    var (sched', err) := SetHostState(s.sched, id, state);
    s.(sched := sched', signallers := s.signallers + if state == Ready && err.None? then 1 else 0)
  }

  ghost function DoRemoveHost(s: Service, id: HostID): Service
    requires Inv(s.sched)
  {
    s.(sched := RemoveHost(s.sched, id).0, orphaned := s.orphaned + Displaced(s, VMsOn(s.sched.assignment, id)))
  }

  function Larger(a: nat, b: nat): nat { if a < b then b else a }

  predicate Admitting(a: Action) {
    a.Admit? || a.Expire? || a.Enqueue? || a.RejectFull? || a.RecordDepth? || a.Receive?
  }

  predicate Booted(a: Action) {
    a.BootSucceeds? || a.BootFails? || a.SignalAfterBoot? || a.GiveUp? || a.DecideToReplace? || a.Replace?
  }

  predicate Dispatching(a: Action) {
    || a.Take? || a.BeginDrain? || a.DrainOne? || a.Exit? || a.TimeOut? || a.CheckDeadline? || a.TryPlace?
    || a.Wake? || a.Tick? || a.QuitWaiting? || a.Write?
  }

  /** A call of Admit, as far as the dispatcher's answer. */
  ghost function DoAdmitting(cfg: Config, s: Service, a: Action): Service
    requires Enabled(cfg, s, a) && Admitting(a)
  {
    match a
    case Admit(c, vm) =>
      s.(calls := s.calls[c := Call(vm, false, Offering, Unsent, [])],
         counters := s.counters.(accepted := s.counters.accepted + 1))
    case Expire(c) => s.(calls := s.calls[c := s.calls[c].(expired := true)])
    case Enqueue(c) =>
      s.(calls := s.calls[c := s.calls[c].(caller := Recording, stage := Queued)],
         queue := s.queue + [c],
         enqueued := s.enqueued + [c])
    case RejectFull(c) => Return(s, c, Failed(QueueFull))
    case RecordDepth(c) =>
      Move(s, c, Awaiting).(counters :=
        s.counters.(maxQueueLen := Larger(s.counters.maxQueueLen, |s.queue|)))
    case Receive(c) => DoReceive(cfg, s, c)
  }

  /** A call of Admit, as it boots. */
  ghost function DoBooting(cfg: Config, s: Service, a: Action): Service
    requires Inv(s.sched) && Enabled(cfg, s, a) && Booted(a)
  {
    match a
    case BootSucceeds(c) => Return(s, c, Succeeded(s.calls[c].caller.host, s.calls[c].caller.attempts))
    case BootFails(c) => DoBootFails(s, c)
    case SignalAfterBoot(c) =>
      Move(s, c, Retrying(s.calls[c].caller.boots, s.calls[c].caller.attempts)).(freed := true)
    case GiveUp(c) => Return(s, c, Failed(BootFailed))
    case DecideToReplace(c) => Move(s, c, Replacing(s.calls[c].caller.boots, s.calls[c].caller.attempts))
    case Replace(c) => DoReplace(s, c)
  }

  ghost function DoDispatching(cfg: Config, s: Service, a: Action): Service
    requires Inv(s.sched) && Enabled(cfg, s, a) && Dispatching(a)
  {
    match a
    case Take =>
      var call := s.queue[0];
      s.(queue := s.queue[1..],
         dispatcher := Serving(call, 0),
         calls := s.calls[call := s.calls[call].(stage := Dispatched)])
    case BeginDrain => s.(dispatcher := Dispatcher.Draining)
    case DrainOne => Decide(s, s.queue[0], Refused(ShuttingDown), true).(queue := s.queue[1..])
    case Exit => s.(dispatcher := Exited)
    case TimeOut => Decide(s, s.dispatcher.call, Refused(AdmissionTimeout), false)
    case CheckDeadline => s.(dispatcher := Placing(s.dispatcher.call, s.dispatcher.attempts))
    case TryPlace => DoTryPlace(s)
    case Wake => s.(freed := false, dispatcher := Serving(s.dispatcher.call, s.dispatcher.attempts))
    case Tick => s.(dispatcher := Serving(s.dispatcher.call, s.dispatcher.attempts))
    case QuitWaiting => Decide(s, s.dispatcher.call, Refused(ShuttingDown), false)
    case Write => DoWrite(s)
  }

  /** Everybody else. */
  ghost function DoOutside(cfg: Config, s: Service, a: Action): Service
    requires Inv(s.sched) && Enabled(cfg, s, a) && !Admitting(a) && !Booted(a) && !Dispatching(a)
  {
    match a
    case Cancel => s.(cancelled := true)
    case Stop => s.(stopped := true)
    case ReleaseVM(vm) => DoReleaseVM(s, vm)
    case Signal => s.(signallers := s.signallers - 1, freed := true)
    case SpuriousSignal => s.(freed := true)
    case AddHostTo(id, capacity) => s.(sched := AddHost(s.sched, id, capacity).0)
    case SetStateOf(id, state) => DoSetState(s, id, state)
    case RemoveHostFrom(id) => DoRemoveHost(s, id)
  }

  ghost function Apply(cfg: Config, s: Service, a: Action): Service
    requires Inv(s.sched) && Enabled(cfg, s, a)
  {
    if Admitting(a) then DoAdmitting(cfg, s, a)
    else if Booted(a) then DoBooting(cfg, s, a)
    else if Dispatching(a) then DoDispatching(cfg, s, a)
    else DoOutside(cfg, s, a)
  }

  /** A new service over a scheduler that has placed nothing yet. */
  ghost predicate Init(s: Service) {
    && Inv(s.sched) && s.sched.assignment == map[]
    && s.calls == map[] && s.queue == [] && s.dispatcher == Idle
    && !s.freed && s.signallers == 0 && !s.cancelled && !s.stopped
    && s.counters == Counters(0, 0, 0, 0, 0, 0, 0)
    && s.enqueued == [] && s.verdicts == [] && s.released == {} && s.orphaned == {}
  }

  /** The state after a run of actions, if each was enabled when taken. */
  ghost function Exec(cfg: Config, s: Service, acts: seq<Action>): Option<Service> {
    if acts == [] then Some(s)
    else
      match Exec(cfg, s, acts[..|acts| - 1])
      case None => None
      case Some(mid) =>
        var a := acts[|acts| - 1];
        if Inv(mid.sched) && Enabled(cfg, mid, a) then Some(Apply(cfg, mid, a)) else None
  }

  lemma SchedulerStaysValid(cfg: Config, s: Service, a: Action)
    requires Inv(s.sched) && Enabled(cfg, s, a)
    ensures Inv(Apply(cfg, s, a).sched)
  {
    hide Inv, Place, Release, SetHostState, RemoveHost, AddHost;
    match a {
      case BootFails(c) => ReleaseKeepsInv(s.sched, s.calls[c].vm);
      case Replace(c) => PlaceKeepsInv(s.sched, s.calls[c].vm);
      case TryPlace => PlaceKeepsInv(s.sched, s.calls[s.dispatcher.call].vm);
      case ReleaseVM(vm) => ReleaseKeepsInv(s.sched, vm);
      case AddHostTo(id, capacity) => AddHostKeepsInv(s.sched, id, capacity);
      case SetStateOf(id, state) => SetHostStateKeepsInv(s.sched, id, state);
      case RemoveHostFrom(id) => RemoveHostKeepsInv(s.sched, id);
      case _ =>
    }
  }

  // ---------------------------------------- what each kind of action leaves alone

  lemma AdmittingLeaves(cfg: Config, s: Service, a: Action)
    requires Inv(s.sched) && Enabled(cfg, s, a) && Admitting(a)
    ensures var s' := Apply(cfg, s, a);
      && s'.sched == s.sched && s'.dispatcher == s.dispatcher && s'.verdicts == s.verdicts
      && s'.freed == s.freed && s'.signallers == s.signallers
      && s'.queue == (if a.Enqueue? then s.queue + [a.c] else s.queue)
      && s'.enqueued == if a.Enqueue? then s.enqueued + [a.c] else s.enqueued
  {
    hide Inv, DoBooting, DoDispatching, DoOutside;
  }

  lemma BootingLeaves(cfg: Config, s: Service, a: Action)
    requires Inv(s.sched) && Enabled(cfg, s, a) && Booted(a)
    ensures var s' := Apply(cfg, s, a);
      && s'.dispatcher == s.dispatcher && s'.verdicts == s.verdicts && s'.queue == s.queue && s'.enqueued == s.enqueued
      && (s'.freed <==> s.freed || a.SignalAfterBoot?) && s'.signallers == s.signallers
  {
    hide Inv, Place, Release, DoAdmitting, DoDispatching, DoOutside;
    match a {
      case BootSucceeds(_) =>
      case BootFails(_) =>
      case SignalAfterBoot(_) =>
      case GiveUp(_) =>
      case DecideToReplace(_) =>
      case Replace(_) =>
    }
  }

  lemma DispatchingLeaves(cfg: Config, s: Service, a: Action)
    requires Inv(s.sched) && Enabled(cfg, s, a) && Dispatching(a)
    ensures var s' := Apply(cfg, s, a);
      && s'.enqueued == s.enqueued && (s'.freed <==> s.freed && !a.Wake?) && s'.signallers == s.signallers
      && s.dispatcher != Exited
  {
    hide Inv, Place, DoAdmitting, DoBooting, DoOutside;
    match a {
      case Take =>
      case BeginDrain =>
      case DrainOne =>
      case Exit =>
      case TimeOut =>
      case CheckDeadline =>
      case TryPlace =>
      case Wake =>
      case Tick =>
      case QuitWaiting =>
      case Write =>
    }
  }

  lemma OutsideLeaves(cfg: Config, s: Service, a: Action)
    requires Inv(s.sched) && Enabled(cfg, s, a) && !Admitting(a) && !Booted(a) && !Dispatching(a)
    ensures var s' := Apply(cfg, s, a);
      && s'.calls == s.calls && s'.dispatcher == s.dispatcher && s'.verdicts == s.verdicts
      && s'.queue == s.queue && s'.enqueued == s.enqueued
      && (s.freed || s.signallers > 0 ==> s'.freed || s'.signallers > 0)
  {
    hide Inv, Release, SetHostState, RemoveHost, AddHost, DoAdmitting, DoBooting, DoDispatching;
  }

  lemma TryPlaceStep(cfg: Config, s: Service)
    requires Inv(s.sched)
    ensures Enabled(cfg, s, TryPlace) <==> s.dispatcher.Placing? && s.dispatcher.call in s.calls
    ensures Enabled(cfg, s, TryPlace) ==>
      Apply(cfg, s, TryPlace) == DoTryPlace(s) && Inv(DoTryPlace(s).sched)
  {
    if Enabled(cfg, s, TryPlace) { SchedulerStaysValid(cfg, s, TryPlace); }
    hide Inv, DoTryPlace;
  }

  lemma WriteStep(cfg: Config, s: Service)
    requires Inv(s.sched) && s.dispatcher.Writing? && s.dispatcher.call in s.calls
    ensures Enabled(cfg, s, Write) && Apply(cfg, s, Write) == DoWrite(s) && DoWrite(s).sched == s.sched
  {
    hide Inv;
  }

  /** One more enabled action at the end of a run. */
  lemma Then(cfg: Config, s: Service, acts: seq<Action>, mid: Service, a: Action, t: Service)
    returns (longer: seq<Action>)
    requires Exec(cfg, s, acts) == Some(mid)
    requires Inv(mid.sched) && Enabled(cfg, mid, a) && t == Apply(cfg, mid, a)
    ensures longer == acts + [a] && Exec(cfg, s, longer) == Some(t)
  {
    longer := acts + [a];
    assert longer[..|acts|] == acts;
  }
}
