/** Capacity never appears unannounced: the coalescing wake-up token cannot strand the
    dispatcher (internal/placement/service.go). */
module PlacementWakeup {
  import opened Common
  import opened SchedulerSpec
  import opened PlacementProtocol
  import opened PlacementFlow

  ghost predicate RoomIn(hosts: Hosts) {
    exists id :: Eligible(hosts, id)
  }

  /** The token is set, or somebody who freed capacity has still to set it. */
  ghost predicate Announced(s: Service) {
    || s.freed
    || s.signallers > 0
    || exists c :: c in s.calls && s.calls[c].caller.Freed?
  }

  ghost predicate NoneMissed(s: Service) {
    s.dispatcher.Waiting? && RoomIn(s.sched.hosts) ==> Announced(s)
  }

  lemma PlaceMakesNoRoom(s: State, vm: VMID)
    requires Inv(s) && RoomIn(Place(s, vm).0.hosts)
    ensures RoomIn(s.hosts)
  {
    PlaceRefinesSearch(s, vm);
    hide Inv, Place;
    var id :| Eligible(Place(s, vm).0.hosts, id);
    assert Eligible(s.hosts, id);
  }

  lemma AddHostMakesNoRoom(s: State, id: HostID, capacity: int)
    requires RoomIn(AddHost(s, id, capacity).0.hosts)
    ensures RoomIn(s.hosts)
  {
    var other :| Eligible(AddHost(s, id, capacity).0.hosts, other);
    assert Eligible(s.hosts, other);
  }

  lemma UnreadyingMakesNoRoom(s: State, id: HostID, state: HostState)
    requires Inv(s) && RoomIn(SetHostState(s, id, state).0.hosts)
    requires state != Ready || SetHostState(s, id, state).1.Some?
    ensures RoomIn(s.hosts)
  {
    var other :| Eligible(SetHostState(s, id, state).0.hosts, other);
    assert Eligible(s.hosts, other);
  }

  lemma RemoveHostMakesNoRoom(s: State, id: HostID)
    requires Inv(s) && RoomIn(RemoveHost(s, id).0.hosts)
    ensures RoomIn(s.hosts)
  {
    var other :| Eligible(RemoveHost(s, id).0.hosts, other);
    assert Eligible(s.hosts, other);
  }

  /** Whoever makes room is announcing it. */
  lemma NewRoomIsAnnounced(cfg: Config, s: Service, a: Action)
    requires Inv(s.sched) && Enabled(cfg, s, a)
    requires !RoomIn(s.sched.hosts) && RoomIn(Apply(cfg, s, a).sched.hosts)
    ensures Announced(Apply(cfg, s, a))
  {
    hide Inv, RoomIn, Apply, Enabled;
    if a.BootFails? || a.Replace? || a.TryPlace? || a.ReleaseVM? {
      NewRoomFromGuests(cfg, s, a);
    } else if a.AddHostTo? || a.SetStateOf? || a.RemoveHostFrom? {
      NewRoomFromHosts(cfg, s, a);
    } else {
      OthersMakeNoRoom(cfg, s, a);
    }
  }

  lemma OthersMakeNoRoom(cfg: Config, s: Service, a: Action)
    requires Inv(s.sched) && Enabled(cfg, s, a)
    requires !a.BootFails? && !a.Replace? && !a.TryPlace? && !a.ReleaseVM?
    requires !a.AddHostTo? && !a.SetStateOf? && !a.RemoveHostFrom?
    ensures Apply(cfg, s, a).sched == s.sched
  {
    hide Inv;
    if Admitting(a) {
      AdmittingLeaves(cfg, s, a);
    } else if Booted(a) {
      hide DoAdmitting, DoDispatching, DoOutside;
    } else if Dispatching(a) {
      hide DoAdmitting, DoBooting, DoOutside;
    } else {
      hide DoAdmitting, DoBooting, DoDispatching;
    }
  }

  lemma NewRoomFromHosts(cfg: Config, s: Service, a: Action)
    requires Inv(s.sched) && Enabled(cfg, s, a) && (a.AddHostTo? || a.SetStateOf? || a.RemoveHostFrom?)
    requires !RoomIn(s.sched.hosts) && RoomIn(Apply(cfg, s, a).sched.hosts)
    ensures Announced(Apply(cfg, s, a))
  {
    hide Inv, RoomIn, SetHostState, RemoveHost, AddHost, DoAdmitting, DoBooting, DoDispatching;
    match a {
      case AddHostTo(id, capacity) => AddHostMakesNoRoom(s.sched, id, capacity);
      case SetStateOf(id, state) =>
        if state != Ready || SetHostState(s.sched, id, state).1.Some? {
          UnreadyingMakesNoRoom(s.sched, id, state);
        }
      case RemoveHostFrom(id) => RemoveHostMakesNoRoom(s.sched, id);
    }
  }

  lemma NewRoomFromGuests(cfg: Config, s: Service, a: Action)
    requires Inv(s.sched) && Enabled(cfg, s, a) && (a.BootFails? || a.Replace? || a.TryPlace? || a.ReleaseVM?)
    requires !RoomIn(s.sched.hosts) && RoomIn(Apply(cfg, s, a).sched.hosts)
    ensures Announced(Apply(cfg, s, a))
  {
    hide Inv, RoomIn, Place, Release;
    match a {
      case BootFails(c) => assert Apply(cfg, s, a).calls[c].caller.Freed?;
      case Replace(c) => PlaceMakesNoRoom(s.sched, s.calls[c].vm);
      case TryPlace => PlaceMakesNoRoom(s.sched, s.calls[s.dispatcher.call].vm);
      case ReleaseVM(vm) => ReleaseUnassigns(s.sched, vm);
    }
  }

  /** An announcement is only ever consumed by the dispatcher waking up. */
  lemma AnnouncementsLast(cfg: Config, s: Service, a: Action)
    requires Inv(s.sched) && Enabled(cfg, s, a) && Announced(s) && !a.Wake?
    ensures Announced(Apply(cfg, s, a))
  {
    hide Inv, Apply;
    if s.freed || s.signallers > 0 {
      TokensLast(cfg, s, a);
    } else {
      var c :| c in s.calls && s.calls[c].caller.Freed?;
      if a.SignalAfterBoot? && a.c == c {
        BootingLeaves(cfg, s, a);
      } else {
        FreedCallStays(cfg, s, a, c);
      }
    }
  }

  lemma TokensLast(cfg: Config, s: Service, a: Action)
    requires Inv(s.sched) && Enabled(cfg, s, a) && (s.freed || s.signallers > 0) && !a.Wake?
    ensures Apply(cfg, s, a).freed || Apply(cfg, s, a).signallers > 0
  {
    hide Inv, Apply, Enabled;
    if Admitting(a) {
      AdmittingLeaves(cfg, s, a);
    } else if Booted(a) {
      BootingLeaves(cfg, s, a);
    } else if Dispatching(a) {
      DispatchingLeaves(cfg, s, a);
    } else {
      OutsideLeaves(cfg, s, a);
    }
  }

  lemma FreedCallStays(cfg: Config, s: Service, a: Action, c: CallId)
    requires Inv(s.sched) && Enabled(cfg, s, a) && c in s.calls && s.calls[c].caller.Freed?
    requires !(a.SignalAfterBoot? && a.c == c)
    ensures var s' := Apply(cfg, s, a); c in s'.calls && s'.calls[c].caller.Freed?
  {
    hide Inv, Apply;
    if Admitting(a) || Booted(a) {
      CallerMovesItself(cfg, s, a, c);
    } else if Dispatching(a) {
      DispatcherMovesNoCaller(cfg, s, a, c);
    } else {
      OutsideLeaves(cfg, s, a);
    }
  }

  lemma CallerMovesItself(cfg: Config, s: Service, a: Action, c: CallId)
    requires Inv(s.sched) && Enabled(cfg, s, a) && (Admitting(a) || Booted(a)) && c in s.calls
    ensures var s' := Apply(cfg, s, a);
      c in s'.calls && (s'.calls[c].caller == s.calls[c].caller || (a.c == c && !a.Expire?))
  {
    hide Inv, Apply, Enabled;
    if Admitting(a) {
      AdmittingMovesItself(cfg, s, a, c);
    } else {
      BootedMovesItself(cfg, s, a, c);
    }
  }

  lemma AdmittingMovesItself(cfg: Config, s: Service, a: Action, c: CallId)
    requires Inv(s.sched) && Enabled(cfg, s, a) && Admitting(a) && c in s.calls
    ensures var s' := Apply(cfg, s, a);
      c in s'.calls && (s'.calls[c].caller == s.calls[c].caller || (a.c == c && !a.Expire?))
  {
    hide Inv, DoBooting, DoDispatching, DoOutside;
    match a {
      case Admit(_, _) =>
      case Expire(_) =>
      case Enqueue(_) =>
      case RejectFull(_) =>
      case RecordDepth(_) =>
      case Receive(_) =>
    }
  }

  lemma BootedMovesItself(cfg: Config, s: Service, a: Action, c: CallId)
    requires Inv(s.sched) && Enabled(cfg, s, a) && Booted(a) && c in s.calls
    ensures var s' := Apply(cfg, s, a);
      c in s'.calls && (s'.calls[c].caller == s.calls[c].caller || a.c == c)
  {
    hide Inv, Place, Release, DoAdmitting, DoDispatching, DoOutside;
    match a {
      case BootSucceeds(_) =>
      case BootFails(_) =>
      case SignalAfterBoot(_) =>
      case GiveUp(_) =>
      case DecideToReplace(_) =>
      case Replace(_) =>
    }
  }

  lemma DispatcherMovesNoCaller(cfg: Config, s: Service, a: Action, c: CallId)
    requires Inv(s.sched) && Enabled(cfg, s, a) && Dispatching(a) && c in s.calls
    ensures var s' := Apply(cfg, s, a); c in s'.calls && s'.calls[c].caller == s.calls[c].caller
  {
    hide Inv, Place, DoAdmitting, DoBooting, DoOutside;
    match a {
      case Take =>
      case BeginDrain =>
      case DrainOne =>
      case Exit =>
      case TimeOut =>
      case CheckDeadline =>
      case TryPlace =>
      case Wake =>
      case Tick =>
      case QuitWaiting =>
      case Write =>
    }
  }

  /** The dispatcher starts to wait only when no ready host has a free slot. */
  lemma WaitsOnlyWhenFull(cfg: Config, s: Service, a: Action)
    requires Inv(s.sched) && Enabled(cfg, s, a)
    requires !s.dispatcher.Waiting? && Apply(cfg, s, a).dispatcher.Waiting?
    ensures a == TryPlace && !RoomIn(Apply(cfg, s, a).sched.hosts)
    ensures forall vm :: Place(s.sched, vm).1.Err?
  {
    hide Inv, Place, Apply;
    OnlyPlacingWaits(cfg, s, a);
    TryPlaceStep(cfg, s);
    var vm := s.calls[s.dispatcher.call].vm;
    PlaceRefinesSearch(s.sched, vm);
    assert Place(s.sched, vm).1 == Err(ErrNoCapacity);
    forall other
      ensures Place(s.sched, other).1.Err?
    {
      PlaceRefinesSearch(s.sched, other);
    }
  }

  lemma OnlyPlacingWaits(cfg: Config, s: Service, a: Action)
    requires Inv(s.sched) && Enabled(cfg, s, a)
    requires !s.dispatcher.Waiting? && Apply(cfg, s, a).dispatcher.Waiting?
    ensures a == TryPlace
  {
    hide Inv, Place, DoAdmitting, DoBooting, DoOutside;
    if Admitting(a) {
      AdmittingLeaves(cfg, s, a);
    } else if Booted(a) {
      BootingLeaves(cfg, s, a);
    } else if !Dispatching(a) {
      OutsideLeaves(cfg, s, a);
    }
  }

  lemma StepKeepsNoneMissed(cfg: Config, s: Service, a: Action)
    requires Inv(s.sched) && Enabled(cfg, s, a) && NoneMissed(s)
    ensures NoneMissed(Apply(cfg, s, a))
  {
    hide Inv, RoomIn, Announced, Apply;
    var s' := Apply(cfg, s, a);
    if s'.dispatcher.Waiting? && RoomIn(s'.sched.hosts) {
      if !s.dispatcher.Waiting? {
        WaitsOnlyWhenFull(cfg, s, a);
        assert false;
      }
      if RoomIn(s.sched.hosts) {
        if a.Wake? {
          WakingLeavesWaiting(cfg, s, a);
        } else {
          AnnouncementsLast(cfg, s, a);
        }
      } else {
        NewRoomIsAnnounced(cfg, s, a);
      }
    }
  }

  lemma WakingLeavesWaiting(cfg: Config, s: Service, a: Action)
    requires Inv(s.sched) && Enabled(cfg, s, a) && a.Wake?
    ensures !Apply(cfg, s, a).dispatcher.Waiting?
  {
  }

  lemma {:induction false} RunsKeepNoneMissed(cfg: Config, s: Service, acts: seq<Action>)
    requires Init(s) && Exec(cfg, s, acts).Some?
    ensures NoneMissed(Exec(cfg, s, acts).value)
  {
    if acts == [] {
    } else {
      var front, a := acts[..|acts| - 1], acts[|acts| - 1];
      RunsKeepNoneMissed(cfg, s, front);
      hide Inv, NoneMissed, Apply, Enabled;
      StepKeepsNoneMissed(cfg, Exec(cfg, s, front).value, a);
    }
  }

  /** No lost wake-up: in every reachable state in which the dispatcher waits while a ready host
      has a free slot, the token is set or is about to be, so it can be woken without waiting
      out its retry timer: the token is there to take, or the step that sets it is enabled. */
  lemma NoLostWakeup(cfg: Config, s: Service, acts: seq<Action>) returns (a: Action)
    requires Init(s) && Exec(cfg, s, acts).Some?
    requires var t := Exec(cfg, s, acts).value; t.dispatcher.Waiting? && RoomIn(t.sched.hosts)
    ensures var t := Exec(cfg, s, acts).value;
      && Announced(t)
      && (a == Wake || a == Signal || a.SignalAfterBoot?)
      && Inv(t.sched) && Enabled(cfg, t, a)
      && (a != Wake ==> Enabled(cfg, Apply(cfg, t, a), Wake))
  {
    RunsKeepNoneMissed(cfg, s, acts);
    RunsKeepFlow(cfg, s, acts);
    hide *;
    a := WayToWake(cfg, Exec(cfg, s, acts).value);
  }

  /** A dispatcher that waits while there is room can be woken in at most two steps. */
  lemma WayToWake(cfg: Config, t: Service) returns (a: Action)
    requires Inv(t.sched) && NoneMissed(t) && t.dispatcher.Waiting? && RoomIn(t.sched.hosts)
    ensures Announced(t)
    ensures a == Wake || a == Signal || a.SignalAfterBoot?
    ensures Enabled(cfg, t, a)
    ensures a != Wake ==> Enabled(cfg, Apply(cfg, t, a), Wake)
  {
    hide Inv, RoomIn;
    if t.freed {
      a := Wake;
    } else if t.signallers > 0 {
      a := Signal;
    } else {
      var c :| c in t.calls && t.calls[c].caller.Freed?;
      a := SignalAfterBoot(c);
    }
  }
}
