/** Host membership and liveness as functions on values, and what every run of registry and
    placement operations keeps (internal/registry/registry.go). Times are nanoseconds. Each
    registry method is one step here; RegistrySteps takes the sweep apart at its locks. */
module RegistrySpec {
  import opened Common
  import opened SchedulerSpec

  const SECOND := 1_000_000_000
  const FORCE_REMOVE_AFTER := 30 * SECOND

  datatype RegistryError = ErrEmptyHost | ErrUnregistered | ErrScheduler(error: Error)

  /** The registry's fields beside the scheduler's hosts and assignments. */
  datatype View = View(
    hosts: Hosts,
    assignment: map<VMID, HostID>,
    lastSeen: map<HostID, int>,
    address: map<HostID, string>,
    drainingSince: map<HostID, int>,
    orphaned: nat)

  const NOTHING: View := View(map[], map[], map[], map[], map[], 0)

  // ---------------------------------------------------------------- operations

  function Register(v: View, id: HostID, capacity: int, address: string, now: int): (View, Option<RegistryError>) {
    if id == HostID("") then (v, Some(ErrEmptyHost))
    else
      var seen := v.(
        lastSeen := v.lastSeen[id := now],
        address := if address != "" then v.address[id := address] else v.address);
      if id in v.lastSeen then (seen, None)
      else if capacity < MIN_SLOTS_PER_HOST then
        (seen.(lastSeen := seen.lastSeen - {id}, address := seen.address - {id}),
         Some(ErrScheduler(ErrInvalidCapacity)))
      else
        var h := if id in v.hosts then v.hosts[id] else HostRec(capacity, 0, Pending);
        (seen.(hosts := v.hosts[id := h.(state := Ready)]), None)
  }

  function Heartbeat(v: View, id: HostID, now: int): (View, Option<RegistryError>) {
    if id !in v.lastSeen then (v, Some(ErrUnregistered))
    else (v.(lastSeen := v.lastSeen[id := now]), None)
  }

  function Deregister(v: View, id: HostID, now: int): (View, Option<RegistryError>) {
    var gone := v.(lastSeen := v.lastSeen - {id}, address := v.address - {id});
    if id !in v.lastSeen then (gone, Some(ErrUnregistered))
    else
      var stamped := gone.(drainingSince := v.drainingSince[id := now]);
      if id !in v.hosts then (stamped, Some(ErrScheduler(ErrUnknownHost)))
      else (stamped.(hosts := v.hosts[id := v.hosts[id].(state := Draining)]), None)
  }

  function Expired(lastSeen: map<HostID, int>, now: int, timeout: int): set<HostID> {
    set id | id in lastSeen && now - lastSeen[id] > timeout
  }

  function Drained(hosts: Hosts, ids: set<HostID>): Hosts {
    map id | id in hosts :: if id in ids then hosts[id].(state := Draining) else hosts[id]
  }

  /** A host keeps the drain time it already has. */
  function Stamped(since: map<HostID, int>, ids: set<HostID>, now: int): map<HostID, int> {
    map id | id in since.Keys + ids :: if id in since then since[id] else now
  }

  /** The first half of a sweep: silent hosts are forgotten, drained and stamped. */
  function DrainSilent(v: View, now: int, timeout: int): View {
    var silent := Expired(v.lastSeen, now, timeout);
    v.(lastSeen := v.lastSeen - silent,
       address := v.address - silent,
       hosts := Drained(v.hosts, silent),
       drainingSince := Stamped(v.drainingSince, silent, now))
  }

  /** An untracked draining host that is empty, or has been draining for long enough. */
  predicate Reapable(v: View, id: HostID, now: int) {
    && id in v.hosts && v.hosts[id].state == Draining && id !in v.lastSeen
    && !(v.hosts[id].used != 0 && id in v.drainingSince && now - v.drainingSince[id] < FORCE_REMOVE_AFTER)
  }

  function RemoveAll(v: View, ids: set<HostID>): View {
    v.(hosts := v.hosts - ids,
       assignment := v.assignment - Residents(v.assignment, ids),
       drainingSince := v.drainingSince - ids,
       orphaned := v.orphaned + |Residents(v.assignment, ids)|)
  }

  /** The second half of a sweep: reapable hosts are removed and their guests counted. */
  function Reap(v: View, now: int): View {
    RemoveAll(v, set id | id in v.hosts && Reapable(v, id, now))
  }

  /** A sweep reads the clock twice, once for each half. */
  function Sweep(v: View, now: int, reapNow: int, timeout: int): (View, nat) {
    (Reap(DrainSilent(v, now, timeout), reapNow), |Expired(v.lastSeen, now, timeout)|)
  }

  // ------------------------------------------------------------- one host at a time

  lemma DrainNone(v: View, now: int)
    ensures DrainForgotten(v, {}, now) == v
  {
    assert Drained(v.hosts, {}) == v.hosts && Stamped(v.drainingSince, {}, now) == v.drainingSince;
  }

  lemma DrainOneMore(v: View, ids: set<HostID>, id: HostID, now: int)
    ensures Drained(v.hosts, ids).Keys == v.hosts.Keys
    ensures Drained(v.hosts, ids + {id}) ==
      if id in v.hosts then Drained(v.hosts, ids)[id := Drained(v.hosts, ids)[id].(state := Draining)]
      else Drained(v.hosts, ids)
    ensures Stamped(v.drainingSince, ids + {id}, now) ==
      if id in Stamped(v.drainingSince, ids, now) then Stamped(v.drainingSince, ids, now)
      else Stamped(v.drainingSince, ids, now)[id := now]
  {
  }

  /** Removing one more host extends RemoveAll by that host. */
  lemma RemoveOneMore(v: View, ids: set<HostID>, id: HostID)
    requires id !in ids
    ensures var u := RemoveAll(v, ids);
      RemoveAll(v, ids + {id}) == u.(
        hosts := u.hosts - {id},
        assignment := u.assignment - VMsOn(u.assignment, id),
        drainingSince := u.drainingSince - {id},
        orphaned := u.orphaned + |VMsOn(u.assignment, id)|)
  {
    var u := RemoveAll(v, ids);
    var here := VMsOn(u.assignment, id);
    assert Residents(v.assignment, ids + {id}) == Residents(v.assignment, ids) + here;
    assert v.hosts - (ids + {id}) == v.hosts - ids - {id};
    assert v.assignment - (Residents(v.assignment, ids) + here) == u.assignment - here;
    assert v.drainingSince - (ids + {id}) == v.drainingSince - ids - {id};
  }

  lemma RemoveNone(v: View)
    ensures RemoveAll(v, {}) == v
  {
    assert Residents(v.assignment, {}) == {};
  }

  /** Removing other hosts leaves a host's record and drain time alone. */
  lemma StillThere(v: View, gone: set<HostID>, id: HostID)
    requires id !in gone && id in v.hosts
    ensures var u := RemoveAll(v, gone);
      && id in u.hosts && u.hosts[id] == v.hosts[id] && u.lastSeen == v.lastSeen
      && (id in u.drainingSince <==> id in v.drainingSince)
      && (id in v.drainingSince ==> u.drainingSince[id] == v.drainingSince[id])
  {
  }

  // ---------------------------------------------------------------------- runs

  datatype Op =
    | DoRegister(id: HostID, capacity: int, address: string, now: int)
    | DoHeartbeat(id: HostID, now: int)
    | DoDeregister(id: HostID, now: int)
    | DoSweep(now: int, reapNow: int)
    | DoPlace(vm: VMID, host: HostID)
    | DoRelease(vm: VMID)

  /** Place on any eligible host; which one is the scheduler's affair. */
  function PlaceOn(v: View, vm: VMID, id: HostID): View {
    if vm !in v.assignment && id in v.hosts && v.hosts[id].state == Ready && v.hosts[id].Free() > 0 then
      v.(hosts := v.hosts[id := v.hosts[id].(used := v.hosts[id].used + 1)],
         assignment := v.assignment[vm := id])
    else v
  }

  function ReleaseFrom(v: View, vm: VMID): View {
    if vm in v.assignment && v.assignment[vm] in v.hosts then
      var id := v.assignment[vm];
      v.(hosts := v.hosts[id := v.hosts[id].(used := v.hosts[id].used - 1)],
         assignment := v.assignment - {vm})
    else v
  }

  function Do(v: View, op: Op, timeout: int): View {
    match op
    case DoRegister(id, capacity, address, now) => Register(v, id, capacity, address, now).0
    case DoHeartbeat(id, now) => Heartbeat(v, id, now).0
    case DoDeregister(id, now) => Deregister(v, id, now).0
    case DoSweep(now, reapNow) => Sweep(v, now, reapNow, timeout).0
    case DoPlace(vm, host) => PlaceOn(v, vm, host)
    case DoRelease(vm) => ReleaseFrom(v, vm)
  }

  function RunFrom(v: View, ops: seq<Op>, timeout: int): View {
    if ops == [] then v else Do(RunFrom(v, ops[..|ops| - 1], timeout), ops[|ops| - 1], timeout)
  }

  function Run(ops: seq<Op>, timeout: int): View {
    RunFrom(NOTHING, ops, timeout)
  }

  // ----------------------------------------------------------------- agreement

  /** Tracked hosts are exactly the ready ones; every other host is draining since a recorded
      time; addresses are kept for tracked hosts only and drain times for existing ones only. */
  ghost predicate Agrees(v: View) {
    && Accounted(v.hosts, v.assignment)
    && (forall id :: id in v.lastSeen <==> id in v.hosts && v.hosts[id].state == Ready)
    && (forall id :: id in v.hosts && id !in v.lastSeen ==>
          v.hosts[id].state == Draining && id in v.drainingSince)
    && (forall id :: id in v.address ==> id in v.lastSeen)
    && (forall id :: id in v.drainingSince ==> id in v.hosts)
  }

  lemma RemovalKeepsAccounted(v: View, ids: set<HostID>)
    requires Accounted(v.hosts, v.assignment)
    ensures Accounted(RemoveAll(v, ids).hosts, RemoveAll(v, ids).assignment)
  {
    var v' := RemoveAll(v, ids);
    forall id | id in v'.hosts
      ensures VMsOn(v'.assignment, id) == VMsOn(v.assignment, id)
    {
    }
  }

  lemma StateChangeKeepsAccounted(hosts: Hosts, hosts': Hosts, assignment: map<VMID, HostID>)
    requires Accounted(hosts, assignment) && hosts.Keys <= hosts'.Keys
    requires forall id :: id in hosts ==> hosts'[id].used == hosts[id].used
    requires forall id :: id in hosts' && id !in hosts ==> hosts'[id].used == 0
    ensures Accounted(hosts', assignment)
  {
    forall id | id in hosts' && id !in hosts
      ensures VMsOn(assignment, id) == {}
    {
    }
  }

  lemma OpKeepsAgreement(v: View, op: Op, timeout: int)
    requires Agrees(v)
    ensures Agrees(Do(v, op, timeout))
  {
    hide Accounted, Sweep, Register, Deregister, PlaceOn, ReleaseFrom;
    match op {
      case DoRegister(_, _, _, _) =>
        RegisteringKeepsAgreement(v, op);
      case DoHeartbeat(_, _) =>
      case DoDeregister(id, now) => DeregisteringKeepsAgreement(v, id, now);
      case DoSweep(now, reapNow) =>
        SweepKeepsAgreement(v, now, reapNow, timeout);
      case DoPlace(vm, host) => PlacingKeepsAgreement(v, vm, host);
      case DoRelease(vm) => ReleasingKeepsAgreement(v, vm);
    }
  }

  lemma DeregisteringKeepsAgreement(v: View, id: HostID, now: int)
    requires Agrees(v)
    ensures Agrees(Deregister(v, id, now).0)
  {
    hide Accounted;
    var v' := Deregister(v, id, now).0;
    StateChangeKeepsAccounted(v.hosts, v'.hosts, v.assignment);
    if id in v.lastSeen {
      DrainedHostIsUntracked(v, v', id);
    } else {
      assert v' == v.(lastSeen := v'.lastSeen, address := v'.address);
      assert v'.lastSeen == v.lastSeen && v'.address == v.address;
    }
  }

  lemma DrainedHostIsUntracked(v: View, v': View, id: HostID)
    requires Agrees(v) && id in v.lastSeen && Accounted(v'.hosts, v.assignment)
    requires v'.hosts == v.hosts[id := v.hosts[id].(state := Draining)] && v'.assignment == v.assignment
    requires v'.lastSeen == v.lastSeen - {id} && v'.address == v.address - {id}
    requires v'.drainingSince.Keys == v.drainingSince.Keys + {id}
    ensures Agrees(v')
  {
    hide Accounted;
  }

  lemma PlacingKeepsAgreement(v: View, vm: VMID, host: HostID)
    requires Agrees(v)
    ensures Agrees(PlaceOn(v, vm, host))
  {
    hide Accounted;
    if PlaceOn(v, vm, host) != v { AssigningKeepsAccounted(v.hosts, v.assignment, vm, host); }
  }

  lemma ReleasingKeepsAgreement(v: View, vm: VMID)
    requires Agrees(v)
    ensures Agrees(ReleaseFrom(v, vm))
  {
    hide Accounted;
    if ReleaseFrom(v, vm) != v { UnassigningKeepsAccounted(v.hosts, v.assignment, vm); }
  }

  lemma RegisteringKeepsAgreement(v: View, op: Op)
    requires Agrees(v) && op.DoRegister?
    ensures Agrees(Register(v, op.id, op.capacity, op.address, op.now).0)
  {
    hide Accounted;
    var v' := Register(v, op.id, op.capacity, op.address, op.now).0;
    if op.id in v.lastSeen || v'.hosts == v.hosts {
      assert v'.hosts == v.hosts && v'.drainingSince == v.drainingSince;
      assert v'.lastSeen.Keys == v.lastSeen.Keys;
      hide Register;
    } else {
      ReturningKeepsAgreement(v, v', op.id);
    }
  }

  /** A new or returning host is ready and tracked. */
  lemma ReturningKeepsAgreement(v: View, v': View, id: HostID)
    requires Agrees(v) && id !in v.lastSeen && id in v'.hosts && id in v'.lastSeen
    requires v'.hosts == v.hosts[id := v'.hosts[id]] && v'.hosts[id].state == Ready
    requires v'.hosts[id].used == if id in v.hosts then v.hosts[id].used else 0
    requires v'.lastSeen == v.lastSeen[id := v'.lastSeen[id]] && v'.address.Keys <= v.address.Keys + {id}
    requires v'.assignment == v.assignment && v'.drainingSince == v.drainingSince
    ensures Agrees(v')
  {
    hide Accounted;
    StateChangeKeepsAccounted(v.hosts, v'.hosts, v.assignment);
  }

  lemma DrainingKeepsAgreement(v: View, now: int, timeout: int)
    requires Agrees(v)
    ensures Agrees(DrainSilent(v, now, timeout))
  {
    hide Accounted;
    StateChangeKeepsAccounted(v.hosts, DrainSilent(v, now, timeout).hosts, v.assignment);
  }

  lemma ReapingKeepsAgreement(v: View, now: int)
    requires Agrees(v)
    ensures Agrees(Reap(v, now))
  {
    hide Accounted;
    RemovalKeepsAccounted(v, set id | id in v.hosts && Reapable(v, id, now));
  }

  lemma SweepKeepsAgreement(v: View, now: int, reapNow: int, timeout: int)
    requires Agrees(v)
    ensures Agrees(DrainSilent(v, now, timeout))
    ensures Agrees(Sweep(v, now, reapNow, timeout).0)
  {
    hide Agrees, DrainSilent, Reap;
    DrainingKeepsAgreement(v, now, timeout);
    ReapingKeepsAgreement(DrainSilent(v, now, timeout), reapNow);
  }

  lemma {:induction false} RunsAgree(ops: seq<Op>, timeout: int)
    ensures Agrees(Run(ops, timeout))
  {
    hide Agrees, Do;
    if ops == [] {
      NothingAgrees();
    } else {
      RunsAgree(ops[..|ops| - 1], timeout);
      OpKeepsAgreement(Run(ops[..|ops| - 1], timeout), ops[|ops| - 1], timeout);
    }
  }

  lemma NothingAgrees()
    ensures Agrees(NOTHING)
  {
  }

  // -------------------------------------------------------------- conservation

  /** Guests of removed hosts are counted, none is lost: a sweep moves VMs from in flight to
      orphaned and changes the total of neither. */
  lemma SweepConservesVMs(v: View, now: int, reapNow: int, timeout: int)
    ensures var v' := Sweep(v, now, reapNow, timeout).0;
      |v.assignment| + v.orphaned == |v'.assignment| + v'.orphaned
  {
    hide Reapable, Drained, Stamped, Expired;
    var drained := DrainSilent(v, now, timeout);
    var gone := set id | id in drained.hosts && Reapable(drained, id, reapNow);
    RemovalConservesVMs(drained, gone);
  }

  lemma RemovalConservesVMs(v: View, ids: set<HostID>)
    ensures |v.assignment| + v.orphaned == |RemoveAll(v, ids).assignment| + RemoveAll(v, ids).orphaned
  {
    DroppedSize(v.assignment, Residents(v.assignment, ids));
  }

  /** Placements that took effect, less releases that did. */
  ghost function NetPlaced(ops: seq<Op>, timeout: int): int {
    if ops == [] then 0
    else
      var front, op := ops[..|ops| - 1], ops[|ops| - 1];
      var before := Run(front, timeout);
      var after := Do(before, op, timeout);
      NetPlaced(front, timeout) +
      (if op.DoPlace? && after != before then 1 else if op.DoRelease? && after != before then -1 else 0)
  }

  lemma OneMore(m: map<VMID, HostID>, vm: VMID, id: HostID)
    requires vm !in m
    ensures |m[vm := id]| == |m| + 1
  {
    assert m[vm := id].Keys == m.Keys + {vm};
    assert |m[vm := id]| == |m[vm := id].Keys| && |m| == |m.Keys|;
  }

  lemma OneFewer(m: map<VMID, HostID>, vm: VMID)
    requires vm in m
    ensures |m - {vm}| == |m| - 1
  {
    assert (m - {vm}).Keys == m.Keys - {vm};
    assert |m - {vm}| == |(m - {vm}).Keys| && |m| == |m.Keys|;
  }

  lemma OpMovesNetByOne(v: View, op: Op, timeout: int)
    ensures var v' := Do(v, op, timeout);
      |v'.assignment| + v'.orphaned == |v.assignment| + v.orphaned +
      (if op.DoPlace? && v' != v then 1 else if op.DoRelease? && v' != v then -1 else 0)
  {
    hide Sweep, PlaceOn, ReleaseFrom;
    match op {
      case DoSweep(now, reapNow) => SweepConservesVMs(v, now, reapNow, timeout);
      case DoPlace(vm, host) => PlacingMovesNet(v, vm, host);
      case DoRelease(vm) => ReleasingMovesNet(v, vm);
      case _ =>
    }
  }

  lemma PlacingMovesNet(v: View, vm: VMID, host: HostID)
    ensures var v' := PlaceOn(v, vm, host);
      v'.orphaned == v.orphaned && |v'.assignment| == |v.assignment| + if v' != v then 1 else 0
  {
    if vm !in v.assignment { OneMore(v.assignment, vm, host); }
  }

  lemma ReleasingMovesNet(v: View, vm: VMID)
    ensures var v' := ReleaseFrom(v, vm);
      v'.orphaned == v.orphaned && |v'.assignment| == |v.assignment| - if v' != v then 1 else 0
  {
    if vm in v.assignment { OneFewer(v.assignment, vm); }
  }

  /** Over every run, the VMs in flight and the orphans together are the placements less the
      releases. */
  lemma {:induction false} RunsConserveVMs(ops: seq<Op>, timeout: int)
    ensures |Run(ops, timeout).assignment| + Run(ops, timeout).orphaned == NetPlaced(ops, timeout)
  {
    if ops == [] {
    } else {
      var front := ops[..|ops| - 1];
      RunsConserveVMs(front, timeout);
      hide Do;
      OpMovesNetByOne(Run(front, timeout), ops[|ops| - 1], timeout);
    }
  }

  // --------------------------------------------------------------------- grace

  /** The drain time a sweep judges a silent or draining host by. */
  function DrainTime(v: View, id: HostID, now: int): int {
    if id in v.drainingSince then v.drainingSince[id] else now
  }

  /** A host with guests outlives a sweep exactly when it has been heard from in time, or its
      drain time is less than ForceRemoveAfter ago; otherwise its guests are orphaned with it. */
  lemma GuestsOutliveSweepExactlyWhen(v: View, id: HostID, now: int, reapNow: int, timeout: int)
    requires Agrees(v) && id in v.hosts && v.hosts[id].used != 0
    ensures var v' := Sweep(v, now, reapNow, timeout).0;
      var heard := id in v.lastSeen && now - v.lastSeen[id] <= timeout;
      && (id in v'.hosts <==> heard || reapNow - DrainTime(v, id, now) < FORCE_REMOVE_AFTER)
      && (id in v'.hosts ==> VMsOn(v'.assignment, id) == VMsOn(v.assignment, id))
      && (id !in v'.hosts ==> VMsOn(v'.assignment, id) == {})
  {
    SurvivesExactlyWhen(v, id, now, reapNow, timeout);
    var drained := DrainSilent(v, now, timeout);
    AssignedHostsExist(v);
    hide Agrees, Drained, Stamped, Expired, Reapable, DrainTime;
    var gone := set other | other in drained.hosts && Reapable(drained, other, reapNow);
    RemovalTakesGuests(drained, gone, id);
  }

  lemma SurvivesExactlyWhen(v: View, id: HostID, now: int, reapNow: int, timeout: int)
    requires Agrees(v) && id in v.hosts && v.hosts[id].used != 0
    ensures var heard := id in v.lastSeen && now - v.lastSeen[id] <= timeout;
      id in Sweep(v, now, reapNow, timeout).0.hosts <==>
        heard || reapNow - DrainTime(v, id, now) < FORCE_REMOVE_AFTER
  {
    AfterDraining(v, id, now, timeout);
    hide Agrees, Drained, Stamped, Expired;
    var drained := DrainSilent(v, now, timeout);
    var gone := set other | other in drained.hosts && Reapable(drained, other, reapNow);
    assert id in gone <==> Reapable(drained, id, reapNow);
  }

  /** After a sweep's first half a host heard from in time is ready, and any other is draining and
      untracked, with its drain time recorded. */
  lemma AfterDraining(v: View, id: HostID, now: int, timeout: int)
    requires Agrees(v) && id in v.hosts
    ensures var drained := DrainSilent(v, now, timeout);
      && id in drained.hosts && drained.hosts[id].used == v.hosts[id].used
      && if id in v.lastSeen && now - v.lastSeen[id] <= timeout then
           drained.hosts[id].state == Ready
         else
           && drained.hosts[id].state == Draining && id !in drained.lastSeen
           && id in drained.drainingSince && drained.drainingSince[id] == DrainTime(v, id, now)
  {
    hide Accounted;
  }

  lemma RemovalTakesGuests(v: View, ids: set<HostID>, id: HostID)
    requires id in v.hosts
    ensures var v' := RemoveAll(v, ids);
      && (id in v'.hosts <==> id !in ids)
      && VMsOn(v'.assignment, id) == if id in ids then {} else VMsOn(v.assignment, id)
  {
  }

  lemma AssignedHostsExist(v: View)
    requires Agrees(v)
    ensures forall vm :: vm in v.assignment ==> v.assignment[vm] in v.hosts
  {
  }

  /** The leftover case happens: drained, back again, then silent, a host with a guest is removed
      by the very sweep that first finds it silent. */
  lemma StaleDrainTimeLosesGrace(h: HostID, vm: VMID)
    requires h != HostID("")
    ensures var ops := [DoRegister(h, 2, "", 0), DoPlace(vm, h), DoDeregister(h, 1 * SECOND),
                        DoRegister(h, 2, "", 2 * SECOND)];
      var before, after := Run(ops, 6 * SECOND), Run(ops + [DoSweep(40 * SECOND, 40 * SECOND)], 6 * SECOND);
      && before.hosts == map[h := HostRec(2, 1, Ready)] && before.assignment == map[vm := h]
      && after.hosts == map[] && after.assignment == map[] && after.orphaned == 1
  {
    hide Sweep;
    var t := 6 * SECOND;
    var ops := [DoRegister(h, 2, "", 0), DoPlace(vm, h), DoDeregister(h, 1 * SECOND),
                DoRegister(h, 2, "", 2 * SECOND)];
    var v1 := View(map[h := HostRec(2, 0, Ready)], map[], map[h := 0], map[], map[], 0);
    var v2 := View(map[h := HostRec(2, 1, Ready)], map[vm := h], map[h := 0], map[], map[], 0);
    var v3 := View(map[h := HostRec(2, 1, Draining)], map[vm := h], map[], map[], map[h := SECOND], 0);
    var v4 := View(map[h := HostRec(2, 1, Ready)], map[vm := h], map[h := 2 * SECOND], map[], map[h := SECOND], 0);
    assert ops[..1] == [ops[0]] && ops[..2][..1] == ops[..1] && ops[..3][..2] == ops[..2] && ops[..4] == ops;
    assert ops[..1][..0] == [] && Run([], t) == NOTHING;
    assert Run(ops[..1], t) == v1;
    assert Run(ops[..2], t) == v2;
    assert v3.lastSeen == v2.lastSeen - {h} && v3.address == v2.address - {h};
    assert Run(ops[..3], t) == v3;
    assert Run(ops[..4], t) == v4;
    var more := ops + [DoSweep(40 * SECOND, 40 * SECOND)];
    assert more[..4] == ops;
    StaleTimeReapsAtOnce(h, vm, v4);
  }

  /** A silent host with a guest and a drain time more than the grace period old goes in the very
      sweep that notices its silence. */
  lemma StaleTimeReapsAtOnce(h: HostID, vm: VMID, v: View)
    requires v == View(map[h := HostRec(2, 1, Ready)], map[vm := h], map[h := 2 * SECOND], map[],
                       map[h := SECOND], 0)
    ensures var after := Sweep(v, 40 * SECOND, 40 * SECOND, 6 * SECOND).0;
      after.hosts == map[] && after.assignment == map[] && after.orphaned == 1
  {
    var drained := DrainSilent(v, 40 * SECOND, 6 * SECOND);
    assert drained.hosts == map[h := HostRec(2, 1, Draining)] && drained.lastSeen == map[];
    assert drained.drainingSince == map[h := SECOND];
    assert (set id | id in drained.hosts && Reapable(drained, id, 40 * SECOND)) == {h};
    assert Residents(drained.assignment, {h}) == {vm};
  }

  // --------------------------------------------------------- bounded reclamation

  /** A registration or heartbeat: the ways a host is heard from. */
  predicate Contacts(op: Op, id: HostID) {
    (op.DoRegister? || op.DoHeartbeat?) && op.id == id
  }

  predicate Timed(op: Op) { !op.DoPlace? && !op.DoRelease? }

  function Begins(op: Op): int
    requires Timed(op)
  {
    op.now
  }

  function Ends(op: Op): int
    requires Timed(op)
  {
    if op.DoSweep? then op.reapNow else op.now
  }

  /** The clock never goes back, neither between operations nor within a sweep. */
  ghost predicate Monotone(ops: seq<Op>) {
    && (forall i :: 0 <= i < |ops| && Timed(ops[i]) ==> Begins(ops[i]) <= Ends(ops[i]))
    && (forall i, j :: 0 <= i < j < |ops| && Timed(ops[i]) && Timed(ops[j]) ==> Ends(ops[i]) <= Begins(ops[j]))
  }

  lemma FrontIsMonotone(ops: seq<Op>)
    requires Monotone(ops) && ops != []
    ensures Monotone(ops[..|ops| - 1])
  {
    assert forall i :: 0 <= i < |ops| - 1 ==> ops[..|ops| - 1][i] == ops[i];
  }

  /** Before the last operation begins, the others have ended. */
  lemma LastIsLatest(ops: seq<Op>)
    requires Monotone(ops) && ops != [] && Timed(ops[|ops| - 1])
    ensures forall op :: op in ops[..|ops| - 1] && Timed(op) ==>
      Begins(op) <= Ends(op) <= Begins(ops[|ops| - 1])
  {
  }

  lemma NewStampIsPast(v: View, op: Op, timeout: int, now: int)
    requires forall id :: id in v.drainingSince ==> v.drainingSince[id] <= now
    requires Timed(op) ==> Begins(op) <= now
    ensures forall id :: id in Do(v, op, timeout).drainingSince ==> Do(v, op, timeout).drainingSince[id] <= now
  {
  }

  /** Recorded drain times lie in the past. */
  lemma {:induction false} StampsArePast(ops: seq<Op>, timeout: int, now: int)
    requires forall op :: op in ops && Timed(op) ==> Ends(op) <= now && Begins(op) <= Ends(op)
    ensures forall id :: id in Run(ops, timeout).drainingSince ==> Run(ops, timeout).drainingSince[id] <= now
  {
    if ops == [] {
    } else {
      var front, op := ops[..|ops| - 1], ops[|ops| - 1];
      StampsArePast(front, timeout, now);
      assert op in ops;
      hide Do;
      NewStampIsPast(Run(front, timeout), op, timeout, now);
    }
  }

  /** Given up: removed for good, or draining untracked since t at the latest. */
  ghost predicate GivenUp(v: View, id: HostID, t: int) {
    id in v.hosts ==> v.hosts[id].state == Draining && id !in v.lastSeen
                      && id in v.drainingSince && v.drainingSince[id] <= t
  }

  lemma SweepGivesUp(v: View, id: HostID, now: int, reapNow: int, timeout: int)
    requires Agrees(v) && (id in v.lastSeen ==> now - v.lastSeen[id] > timeout)
    requires id in v.drainingSince ==> v.drainingSince[id] <= now
    ensures GivenUp(Sweep(v, now, reapNow, timeout).0, id, now)
  {
    hide Accounted;
  }

  lemma StaysGivenUp(v: View, op: Op, id: HostID, t: int, timeout: int)
    requires Agrees(v) && GivenUp(v, id, t) && !Contacts(op, id)
    ensures GivenUp(Do(v, op, timeout), id, t)
    ensures id !in v.hosts ==> id !in Do(v, op, timeout).hosts
  {
    hide Accounted;
  }

  lemma SecondSweepRemoves(v: View, id: HostID, t: int, now: int, reapNow: int, timeout: int)
    requires Agrees(v) && GivenUp(v, id, t) && reapNow >= t + FORCE_REMOVE_AFTER
    ensures id !in Sweep(v, now, reapNow, timeout).0.hosts
  {
    hide Accounted;
    if id in v.hosts {
      assert Reapable(DrainSilent(v, now, timeout), id, reapNow);
    }
  }

  /** The state after the sweep at position a that finds the host silent, and any operations
      that follow without a word from it. */
  lemma {:induction false} GivenUpAfter(ops: seq<Op>, timeout: int, id: HostID, a: nat)
    requires Monotone(ops) && a < |ops| && ops[a].DoSweep?
    requires var v := Run(ops[..a], timeout); id in v.lastSeen ==> ops[a].now - v.lastSeen[id] > timeout
    requires forall i :: a < i < |ops| ==> !Contacts(ops[i], id)
    ensures GivenUp(Run(ops, timeout), id, ops[a].now)
  {
    hide Agrees, GivenUp, Do, Sweep, Monotone, Contacts;
    var front, op := ops[..|ops| - 1], ops[|ops| - 1];
    RunsAgree(front, timeout);
    FrontIsMonotone(ops);
    if a == |front| {
      LastIsLatest(ops);
      StampsArePast(front, timeout, op.now);
      assert ops[..a] == front;
      DoingASweep(Run(front, timeout), op, timeout);
      SweepGivesUp(Run(front, timeout), id, op.now, op.reapNow, timeout);
    } else {
      assert front[..a] == ops[..a];
      GivenUpAfter(front, timeout, id, a);
      StaysGivenUp(Run(front, timeout), op, id, ops[a].now, timeout);
    }
  }

  lemma DoingASweep(v: View, op: Op, timeout: int)
    requires op.DoSweep?
    ensures Do(v, op, timeout) == Sweep(v, op.now, op.reapNow, timeout).0
  {
  }

  lemma {:induction false} StaysGone(ops: seq<Op>, timeout: int, id: HostID, a: nat, b: nat)
    requires Monotone(ops) && a < b < |ops| && ops[a].DoSweep? && ops[b].DoSweep?
    requires var v := Run(ops[..a], timeout); id in v.lastSeen ==> ops[a].now - v.lastSeen[id] > timeout
    requires forall i :: a < i < |ops| ==> !Contacts(ops[i], id)
    requires ops[b].now >= ops[a].now + FORCE_REMOVE_AFTER
    ensures id !in Run(ops, timeout).hosts
  {
    assert Timed(ops[b]) && Begins(ops[b]) <= Ends(ops[b]);
    hide Agrees, GivenUp, Do, Sweep, Monotone, Contacts;
    var front, op := ops[..|ops| - 1], ops[|ops| - 1];
    FrontIsMonotone(ops);
    assert front[..a] == ops[..a];
    RunsAgree(front, timeout);
    GivenUpAfter(front, timeout, id, a);
    if b == |front| {
      DoingASweep(Run(front, timeout), op, timeout);
      SecondSweepRemoves(Run(front, timeout), id, ops[a].now, op.now, op.reapNow, timeout);
    } else {
      StaysGone(front, timeout, id, a, b);
      StaysGivenUp(Run(front, timeout), op, id, ops[a].now, timeout);
    }
  }

  /** A host that one sweep finds silent for longer than the timeout, and that is not heard from
      again, is gone with all its assignments once a sweep runs ForceRemoveAfter later, and
      stays gone, whatever else happens in between and after. */
  lemma SilentHostIsReclaimed(ops: seq<Op>, timeout: int, id: HostID, a: nat, b: nat)
    requires Monotone(ops) && a < b < |ops| && ops[a].DoSweep? && ops[b].DoSweep?
    requires var v := Run(ops[..a], timeout); id in v.lastSeen ==> ops[a].now - v.lastSeen[id] > timeout
    requires forall i :: a < i < |ops| ==> !Contacts(ops[i], id)
    requires ops[b].now >= ops[a].now + FORCE_REMOVE_AFTER
    ensures var v := Run(ops, timeout);
      id !in v.hosts && id !in v.lastSeen && id !in v.address && id !in v.drainingSince
      && VMsOn(v.assignment, id) == {}
  {
    StaysGone(ops, timeout, id, a, b);
    RunsAgree(ops, timeout);
    hide Run;
    AssignedHostsExist(Run(ops, timeout));
  }

  // --------------------------------------------------------------- lock-level race

  /** Sweep forgets silent hosts under its lock, then drains them without it. */
  function ForgetSilent(v: View, now: int, timeout: int): View {
    var silent := Expired(v.lastSeen, now, timeout);
    v.(lastSeen := v.lastSeen - silent, address := v.address - silent)
  }

  function DrainForgotten(v: View, ids: set<HostID>, now: int): View {
    v.(hosts := Drained(v.hosts, ids), drainingSince := Stamped(v.drainingSince, ids, now))
  }

  /** Uninterrupted, the two steps are the sweep's first half. */
  lemma UninterruptedSweepDrains(v: View, now: int, timeout: int)
    ensures DrainForgotten(ForgetSilent(v, now, timeout), Expired(v.lastSeen, now, timeout), now)
      == DrainSilent(v, now, timeout)
  {
  }
}
