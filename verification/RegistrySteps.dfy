/** A sweep taken apart at every point where it holds no lock, with other calls in between, and
    exactly when registry and scheduler go on agreeing (internal/registry/registry.go). One goroutine
    sweeps; a call of another registry or scheduler operation is one step. */
module RegistrySteps {
  import opened Common
  import opened SchedulerSpec
  import opened RegistrySpec

  /** How far the sweep has got: about to drain the forgotten hosts in todo, or to stamp the one just
      drained; then about to check the hosts left of its snapshot, to remove one it has found
      reapable, or to delete the drain time of the one just removed. */
  datatype Sweeper =
    | Resting
    | Drains(todo: set<HostID>, now: int)
    | Stamps(id: HostID, todo: set<HostID>, now: int)
    | Checks(left: Hosts, now: int)
    | Removes(id: HostID, left: Hosts, now: int)
    | Forgets(id: HostID, left: Hosts, now: int)

  datatype World = World(view: View, sweeper: Sweeper)

  datatype Action =
    | Call(op: Op)
    | BeginSweep(now: int)
    | DrainOne(id: HostID)
    | StampOne
    | TakeSnapshot(now: int)
    | Check(id: HostID)
    | RemoveOne
    | ForgetOne
    | EndSweep

  // ------------------------------------------------------------------- transitions

  predicate Enabled(w: World, a: Action) {
    match a
    case Call(op) => !op.DoSweep?
    case BeginSweep(_) => w.sweeper.Resting?
    case DrainOne(id) => w.sweeper.Drains? && id in w.sweeper.todo
    case StampOne => w.sweeper.Stamps?
    case TakeSnapshot(_) => w.sweeper.Drains? && w.sweeper.todo == {}
    case Check(id) => w.sweeper.Checks? && id in w.sweeper.left
    case RemoveOne => w.sweeper.Removes?
    case ForgetOne => w.sweeper.Forgets?
    case EndSweep => w.sweeper.Checks? && w.sweeper.left == map[]
  }

  /** The reaper judges a host by its record in the snapshot and by the registry as it is now. */
  predicate Passes(v: View, id: HostID, h: HostRec, now: int) {
    && h.state == Draining && id !in v.lastSeen
    && !(h.used != 0 && id in v.drainingSince && now - v.drainingSince[id] < FORCE_REMOVE_AFTER)
  }

  /** The removal alone; the drain time is deleted afterwards. */
  function Removed(v: View, id: HostID): View {
    v.(hosts := v.hosts - {id},
       assignment := v.assignment - Residents(v.assignment, {id}),
       orphaned := v.orphaned + |Residents(v.assignment, {id})|)
  }

  function DoCheck(w: World, id: HostID): World
    requires w.sweeper.Checks? && id in w.sweeper.left
  {
    var Checks(left, now) := w.sweeper;
    w.(sweeper := if Passes(w.view, id, left[id], now) then Removes(id, left - {id}, now)
                  else Checks(left - {id}, now))
  }

  /** The scheduler refuses to remove a host it does not have, and the drain time is then kept. */
  function DoRemove(w: World): World
    requires w.sweeper.Removes?
  {
    var Removes(id, left, now) := w.sweeper;
    if id in w.view.hosts then World(Removed(w.view, id), Forgets(id, left, now))
    else w.(sweeper := Checks(left, now))
  }

  function Apply(w: World, a: Action, timeout: int): World
    requires Enabled(w, a)
  {
    var v := w.view;
    match a
    case Call(op) => w.(view := Do(v, op, timeout))
    case BeginSweep(now) => World(ForgetSilent(v, now, timeout), Drains(Expired(v.lastSeen, now, timeout), now))
    case DrainOne(id) =>
      World(v.(hosts := Drained(v.hosts, {id})), Stamps(id, w.sweeper.todo - {id}, w.sweeper.now))
    case StampOne =>
      World(v.(drainingSince := Stamped(v.drainingSince, {w.sweeper.id}, w.sweeper.now)),
            Drains(w.sweeper.todo, w.sweeper.now))
    case TakeSnapshot(now) => w.(sweeper := Checks(v.hosts, now))
    case Check(id) => DoCheck(w, id)
    case RemoveOne => DoRemove(w)
    case ForgetOne =>
      World(v.(drainingSince := v.drainingSince - {w.sweeper.id}), Checks(w.sweeper.left, w.sweeper.now))
    case EndSweep => w.(sweeper := Resting)
  }

  function Exec(w: World, acts: seq<Action>, timeout: int): Option<World> {
    if acts == [] then Some(w)
    else
      match Exec(w, acts[..|acts| - 1], timeout)
      case None => None
      case Some(mid) =>
        var a := acts[|acts| - 1];
        if Enabled(mid, a) then Some(Apply(mid, a, timeout)) else None
  }

  const START: World := World(NOTHING, Resting)

  // --------------------------------------------------- agreement, with a sweep under way

  function Todo(s: Sweeper): set<HostID> {
    if s.Drains? || s.Stamps? then s.todo else {}
  }

  function Left(s: Sweeper): Hosts {
    if s.Checks? || s.Removes? || s.Forgets? then s.left else map[]
  }

  /** The sweep knows only hosts the scheduler has, and has done with the one it is about to remove
      or has removed. */
  ghost predicate Grounded(hosts: Hosts, s: Sweeper) {
    && Todo(s) <= hosts.Keys && Left(s).Keys <= hosts.Keys
    && (s.Stamps? || s.Removes? ==> s.id in hosts)
    && (s.Removes? || s.Forgets? ==> s.id !in s.left)
  }

  /** An untracked host is draining since a recorded time, unless the sweep is yet to drain it or to
      record the time. */
  predicate Accounts(v: View, s: Sweeper, id: HostID)
    requires id in v.hosts
  {
    if v.hosts[id].state == Draining then id in v.drainingSince || (s.Stamps? && s.id == id)
    else v.hosts[id].state == Ready && id in Todo(s)
  }

  /** Agreement, but for what the sweep is yet to do. */
  ghost predicate Settling(v: View, s: Sweeper) {
    && Accounted(v.hosts, v.assignment)
    && (forall id :: id in v.lastSeen ==> id in v.hosts && v.hosts[id].state == Ready)
    && (forall id :: id in v.hosts && id !in v.lastSeen ==> Accounts(v, s, id))
    && (forall id :: id in v.address ==> id in v.lastSeen)
    && (forall id :: id in v.drainingSince ==> id in v.hosts || (s.Forgets? && s.id == id))
    && Grounded(v.hosts, s)
  }

  /** With no sweep under way, and between its checks, that is agreement itself. */
  lemma SettlingIsAgreement(v: View, s: Sweeper)
    requires s.Resting? || s.Checks?
    ensures Settling(v, s) <==> Agrees(v) && Left(s).Keys <= v.hosts.Keys
  {
    hide Accounted;
  }

  // ------------------------------------------------------------- other calls keep it

  lemma RegisterKeepsSettling(v: View, s: Sweeper, op: Op)
    requires Settling(v, s) && op.DoRegister?
    ensures Settling(Register(v, op.id, op.capacity, op.address, op.now).0, s)
  {
    hide Accounted, Todo, Left;
    var v' := Register(v, op.id, op.capacity, op.address, op.now).0;
    if op.id in v.lastSeen || op.capacity < MIN_SLOTS_PER_HOST || op.id == HostID("") {
      assert v'.hosts == v.hosts && v'.drainingSince == v.drainingSince && v'.assignment == v.assignment;
      assert v'.lastSeen.Keys == v.lastSeen.Keys && v'.address.Keys <= v.address.Keys + v.lastSeen.Keys;
      SameKeysKeepSettling(v, v', s);
    } else {
      ReturningKeepsSettling(v, v', s, op.id);
    }
  }

  lemma SameKeysKeepSettling(v: View, v': View, s: Sweeper)
    requires Settling(v, s)
    requires v'.hosts == v.hosts && v'.drainingSince == v.drainingSince && v'.assignment == v.assignment
    requires v'.lastSeen.Keys == v.lastSeen.Keys && v'.address.Keys <= v.address.Keys + v.lastSeen.Keys
    ensures Settling(v', s)
  {
    hide Accounted, Todo, Left;
  }

  lemma ReturningKeepsSettling(v: View, v': View, s: Sweeper, id: HostID)
    requires Settling(v, s) && id in v'.hosts && id in v'.lastSeen
    requires v'.hosts == v.hosts[id := v'.hosts[id]] && v'.hosts[id].state == Ready
    requires v'.hosts[id].used == if id in v.hosts then v.hosts[id].used else 0
    requires v'.lastSeen == v.lastSeen[id := v'.lastSeen[id]] && v'.address.Keys <= v.address.Keys + {id}
    requires v'.assignment == v.assignment && v'.drainingSince == v.drainingSince
    ensures Settling(v', s)
  {
    hide Accounted, Accounts;
    StateChangeKeepsAccounted(v.hosts, v'.hosts, v.assignment);
    forall other | other in v'.hosts && other !in v'.lastSeen
      ensures Accounts(v', s, other)
    {
      SameRecordAccounts(v, v', s, other);
    }
    hide Todo, Left;
  }

  lemma DeregisterKeepsSettling(v: View, s: Sweeper, id: HostID, now: int)
    requires Settling(v, s)
    ensures Settling(Deregister(v, id, now).0, s)
  {
    hide Settling;
    var v' := Deregister(v, id, now).0;
    if id !in v.lastSeen {
      assert v'.lastSeen == v.lastSeen && v'.address.Keys <= v.address.Keys;
      SameKeysKeepSettling(v, v', s);
    } else {
      TrackedExists(v, s, id);
      LeavingKeepsSettling(v, v', s, id, now);
    }
  }

  lemma TrackedExists(v: View, s: Sweeper, id: HostID)
    requires Settling(v, s) && id in v.lastSeen
    ensures id in v.hosts
  {
    hide Accounted, Todo, Left;
  }

  /** A tracked host that is deregistered is draining since a recorded time. */
  lemma LeavingKeepsSettling(v: View, v': View, s: Sweeper, id: HostID, now: int)
    requires Settling(v, s) && id in v.hosts && id in v.lastSeen
    requires v'.hosts == v.hosts[id := v.hosts[id].(state := Draining)] && v'.assignment == v.assignment
    requires v'.lastSeen == v.lastSeen - {id} && v'.address == v.address - {id}
    requires v'.drainingSince == v.drainingSince[id := now]
    ensures Settling(v', s)
  {
    hide Accounted, Accounts;
    StateChangeKeepsAccounted(v.hosts, v'.hosts, v.assignment);
    forall other | other in v'.hosts && other !in v'.lastSeen
      ensures Accounts(v', s, other)
    {
      if other == id { StampedAccounts(v', s, id); } else { SameRecordAccounts(v, v', s, other); }
    }
    hide Todo, Left;
  }

  lemma SameRecordAccounts(v: View, v': View, s: Sweeper, id: HostID)
    requires id in v.hosts && id in v'.hosts && v'.hosts[id].state == v.hosts[id].state
    requires id in v.drainingSince ==> id in v'.drainingSince
    ensures Accounts(v, s, id) ==> Accounts(v', s, id)
  {
    hide Todo;
  }

  lemma StampedAccounts(v: View, s: Sweeper, id: HostID)
    requires id in v.hosts && v.hosts[id].state == Draining && id in v.drainingSince
    ensures Accounts(v, s, id)
  {
  }

  lemma GuestsMovedKeepSettling(v: View, v': View, s: Sweeper)
    requires Settling(v, s) && Accounted(v'.hosts, v'.assignment) && v'.hosts.Keys == v.hosts.Keys
    requires forall id :: id in v.hosts ==> v'.hosts[id].state == v.hosts[id].state
    requires v' == v.(hosts := v'.hosts, assignment := v'.assignment)
    ensures Settling(v', s)
  {
    hide Accounted, Todo, Left, Accounts;
    forall id | id in v'.hosts && id !in v'.lastSeen
      ensures Accounts(v', s, id)
    {
      SameRecordAccounts(v, v', s, id);
    }
  }

  lemma CallKeepsSettling(v: View, s: Sweeper, op: Op, timeout: int)
    requires Settling(v, s) && !op.DoSweep?
    ensures Settling(Do(v, op, timeout), s)
  {
    hide Accounted, Todo, Left, Register, Deregister, Grounded;
    match op {
      case DoRegister(_, _, _, _) => RegisterKeepsSettling(v, s, op);
      case DoHeartbeat(id, now) => SameKeysKeepSettling(v, Heartbeat(v, id, now).0, s);
      case DoDeregister(id, now) => DeregisterKeepsSettling(v, s, id, now);
      case DoPlace(vm, host) =>
        if PlaceOn(v, vm, host) != v { AssigningKeepsAccounted(v.hosts, v.assignment, vm, host); }
        GuestsMovedKeepSettling(v, PlaceOn(v, vm, host), s);
      case DoRelease(vm) =>
        if ReleaseFrom(v, vm) != v { UnassigningKeepsAccounted(v.hosts, v.assignment, vm); }
        GuestsMovedKeepSettling(v, ReleaseFrom(v, vm), s);
    }
  }

  // ---------------------------------------------------------- the steps of the sweep

  /** What the sweep would have to look up again before it acts: that a host it drains or removes is
      still untracked, and that one whose drain time it deletes has not come back and drained since. */
  predicate Guarded(w: World, a: Action)
    requires Enabled(w, a)
  {
    match a
    case DrainOne(id) => id !in w.view.lastSeen
    case RemoveOne => w.sweeper.id !in w.view.lastSeen
    case ForgetOne => w.sweeper.id in w.view.hosts ==> w.sweeper.id in w.view.lastSeen
    case _ => true
  }

  lemma BeginningKeepsSettling(v: View, now: int, timeout: int)
    requires Settling(v, Resting)
    ensures Settling(ForgetSilent(v, now, timeout), Drains(Expired(v.lastSeen, now, timeout), now))
  {
    hide Accounted;
  }

  lemma DrainingSettlesExactlyWhen(v: View, s: Sweeper, id: HostID)
    requires Settling(v, s) && s.Drains? && id in s.todo
    ensures Settling(v.(hosts := Drained(v.hosts, {id})), Stamps(id, s.todo - {id}, s.now)) <==> id !in v.lastSeen
  {
    hide Accounted;
    StateChangeKeepsAccounted(v.hosts, Drained(v.hosts, {id}), v.assignment);
    var v' := v.(hosts := Drained(v.hosts, {id}));
    forall other | other in v.hosts && other !in v.lastSeen
      ensures Accounts(v', Stamps(id, s.todo - {id}, s.now), other)
    {
      assert Accounts(v, s, other);
    }
  }

  lemma StampingKeepsSettling(v: View, s: Sweeper)
    requires Settling(v, s) && s.Stamps?
    ensures Settling(v.(drainingSince := Stamped(v.drainingSince, {s.id}, s.now)), Drains(s.todo, s.now))
  {
    hide Accounted;
    var v' := v.(drainingSince := Stamped(v.drainingSince, {s.id}, s.now));
    forall id | id in v'.hosts && id !in v'.lastSeen
      ensures Accounts(v', Drains(s.todo, s.now), id)
    {
      assert Accounts(v, s, id);
    }
  }

  lemma SnapshotKeepsSettling(v: View, s: Sweeper, now: int)
    requires Settling(v, s) && s.Drains? && s.todo == {}
    ensures Settling(v, Checks(v.hosts, now))
  {
    hide Accounted;
    forall id | id in v.hosts && id !in v.lastSeen
      ensures Accounts(v, Checks(v.hosts, now), id)
    {
      assert Accounts(v, s, id);
    }
  }

  lemma CheckingKeepsSettling(w: World, id: HostID)
    requires Settling(w.view, w.sweeper) && w.sweeper.Checks? && id in w.sweeper.left
    ensures DoCheck(w, id).view == w.view && Settling(w.view, DoCheck(w, id).sweeper)
  {
    hide Accounted, Passes;
    forall other | other in w.view.hosts && other !in w.view.lastSeen
      ensures Accounts(w.view, DoCheck(w, id).sweeper, other)
    {
      assert Accounts(w.view, w.sweeper, other);
    }
  }

  lemma RemovingSettlesExactlyWhen(w: World)
    requires Settling(w.view, w.sweeper) && w.sweeper.Removes?
    ensures Settling(DoRemove(w).view, DoRemove(w).sweeper) <==> w.sweeper.id !in w.view.lastSeen
  {
    var v, s := w.view, w.sweeper;
    RemovalKeepsAccounted(v, {s.id});
    hide Accounted, Residents, Accounts;
    var v' := Removed(v, s.id);
    if s.id in v.lastSeen {
      assert s.id !in v'.hosts;
    } else {
      RemovalSettles(v, v', s);
    }
  }

  lemma RemovalSettles(v: View, v': View, s: Sweeper)
    requires Settling(v, s) && s.Removes? && s.id !in v.lastSeen && Accounted(v'.hosts, v'.assignment)
    requires v' == v.(hosts := v.hosts - {s.id}, assignment := v'.assignment, orphaned := v'.orphaned)
    ensures Settling(v', Forgets(s.id, s.left, s.now))
  {
    hide Accounted;
    forall other | other in v'.hosts && other !in v'.lastSeen
      ensures Accounts(v', Forgets(s.id, s.left, s.now), other)
    {
      assert Accounts(v, s, other);
    }
  }

  lemma ForgettingSettlesExactlyWhen(v: View, s: Sweeper)
    requires Settling(v, s) && s.Forgets?
    ensures Settling(v.(drainingSince := v.drainingSince - {s.id}), Checks(s.left, s.now)) <==>
      (s.id in v.hosts ==> s.id in v.lastSeen)
  {
    hide Accounted;
    var v' := v.(drainingSince := v.drainingSince - {s.id});
    forall other | other in v.hosts && other !in v.lastSeen
      ensures other != s.id ==> Accounts(v', Checks(s.left, s.now), other)
      ensures Accounts(v, s, other)
    {
      assert Accounts(v, s, other);
    }
    if s.id in v.hosts && s.id !in v.lastSeen {
      assert !Accounts(v', Checks(s.left, s.now), s.id);
    }
  }

  /** Every step keeps agreement, but for what the sweep is yet to do, exactly when the sweep's check
      still holds as it acts. */
  lemma StepSettlesExactlyWhen(w: World, a: Action, timeout: int)
    requires Settling(w.view, w.sweeper) && Enabled(w, a)
    ensures var w' := Apply(w, a, timeout); Settling(w'.view, w'.sweeper) <==> Guarded(w, a)
  {
    hide Settling, ForgetSilent, Expired, Drained, Stamped, DoCheck, DoRemove, Do;
    var v, s := w.view, w.sweeper;
    match a {
      case Call(op) => CallKeepsSettling(v, s, op, timeout);
      case BeginSweep(now) => BeginningKeepsSettling(v, now, timeout);
      case DrainOne(id) => DrainingSettlesExactlyWhen(v, s, id);
      case StampOne => StampingKeepsSettling(v, s);
      case TakeSnapshot(now) => SnapshotKeepsSettling(v, s, now);
      case Check(id) => CheckingKeepsSettling(w, id);
      case RemoveOne => RemovingSettlesExactlyWhen(w);
      case ForgetOne => ForgettingSettlesExactlyWhen(v, s);
      case EndSweep => EndingKeepsSettling(v, s);
    }
  }

  lemma EndingKeepsSettling(v: View, s: Sweeper)
    requires Settling(v, s) && s.Checks?
    ensures Settling(v, Resting)
  {
    SettlingIsAgreement(v, s);
    SettlingIsAgreement(v, Resting);
  }

  // ------------------------------------------------------------------ over whole runs

  ghost predicate SettlingThroughout(w: World, acts: seq<Action>, timeout: int)
    requires Exec(w, acts, timeout).Some?
  {
    var end := Exec(w, acts, timeout).value;
    && Settling(end.view, end.sweeper)
    && (acts != [] ==> SettlingThroughout(w, acts[..|acts| - 1], timeout))
  }

  ghost predicate GuardedThroughout(w: World, acts: seq<Action>, timeout: int)
    requires Exec(w, acts, timeout).Some?
  {
    acts != [] ==>
      var front := acts[..|acts| - 1];
      GuardedThroughout(w, front, timeout) && Guarded(Exec(w, front, timeout).value, acts[|acts| - 1])
  }

  /** Over every run of sweeps and other calls, registry and scheduler agree throughout, but for what
      the sweep under way is yet to do, exactly when every step of a sweep meets its check. */
  lemma {:induction false} RunSettlesExactlyWhen(w: World, acts: seq<Action>, timeout: int)
    requires Settling(w.view, w.sweeper) && Exec(w, acts, timeout).Some?
    ensures SettlingThroughout(w, acts, timeout) <==> GuardedThroughout(w, acts, timeout)
  {
    if acts == [] {
    } else {
      hide Settling, Enabled, Apply, Guarded;
      var front := acts[..|acts| - 1];
      RunSettlesExactlyWhen(w, front, timeout);
      if SettlingThroughout(w, front, timeout) {
        SettlingAtEnd(w, front, timeout);
        StepSettlesExactlyWhen(Exec(w, front, timeout).value, acts[|acts| - 1], timeout);
      }
    }
  }

  lemma SettlingAtEnd(w: World, acts: seq<Action>, timeout: int)
    requires Exec(w, acts, timeout).Some? && SettlingThroughout(w, acts, timeout)
    ensures Settling(Exec(w, acts, timeout).value.view, Exec(w, acts, timeout).value.sweeper)
  {
  }

  /** So from nothing, whenever no sweep is under way, a run that meets every check agrees. */
  lemma GuardedRunsAgree(acts: seq<Action>, timeout: int)
    requires Exec(START, acts, timeout).Some? && GuardedThroughout(START, acts, timeout)
    requires Exec(START, acts, timeout).value.sweeper == Resting
    ensures Agrees(Exec(START, acts, timeout).value.view)
  {
    NothingAgrees();
    SettlingIsAgreement(NOTHING, Resting);
    RunSettlesExactlyWhen(START, acts, timeout);
    hide Settling, Agrees;
    SettlingAtEnd(START, acts, timeout);
    SettlingIsAgreement(Exec(START, acts, timeout).value.view, Resting);
  }
}
