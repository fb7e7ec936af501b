/** The scheduler object: hosts, buckets and assignments updated in place
    (internal/scheduler/scheduler.go). Each method is one critical section of the source's
    mutex, and is proved to do to Model() exactly what its SchedulerSpec function says. */
module SchedulerImpl {
  import opened Common
  import opened HostSets
  import opened SchedulerSpec
  import opened FleetStats

  class Host {
    const id: HostID
    const capacity: int
    var used: int
    var state: HostState

    constructor (id: HostID, capacity: int)
      ensures this.id == id && Rec() == HostRec(capacity, 0, Pending)
    {
      this.id := id;
      this.capacity := capacity;
      used := 0;
      state := Pending;
    }

    function Free(): int
      reads this
    {
      capacity - used
    }

    ghost function Rec(): HostRec
      reads this
    {
      HostRec(capacity, used, state)
    }
  }

  datatype HostSnapshot = HostSnapshot(id: HostID, capacity: int, used: int, state: HostState) {
    function Rec(): HostRec { HostRec(capacity, used, state) }
  }

  ghost function SnapshotIds(out: seq<HostSnapshot>): (ids: seq<HostID>)
    ensures |ids| == |out| && forall i :: 0 <= i < |out| ==> ids[i] == out[i].id
  {
    seq(|out|, i requires 0 <= i < |out| => out[i].id)
  }

  ghost function HostsView(hosts: map<HostID, Host>): Hosts
    reads hosts.Values
  {
    map id | id in hosts :: hosts[id].Rec()
  }

  ghost function BucketsView(buckets: seq<HostSet>): Buckets
    reads buckets
  {
    seq(|buckets|, i requires 0 <= i < |buckets| reads buckets => buckets[i].ids)
  }

  lemma HostInRange(s: State, id: HostID)
    requires Inv(s) && id in s.hosts
    ensures 0 <= s.hosts[id].Free() <= s.hosts[id].capacity < |s.buckets|
    ensures s.hosts[id].used >= 1 ==> s.hosts[id].Free() + 1 < |s.buckets|
  {
  }

  lemma TalliedAll(s: State, out: Stats)
    requires out.hosts == |s.hosts| && out.inflightVMs == |s.assignment| && Tallies(s.hosts, s.hosts.Keys, out)
    ensures Describes(s, out)
  {
  }

  lemma BucketsReachMaxCap(s: State)
    requires Inv(s)
    ensures s.maxCap >= 0 && |s.buckets| == if s.maxCap == 0 then 0 else s.maxCap + 1
  {
  }

  class Scheduler {
    const policy: Policy
    var hosts: map<HostID, Host>
    var assignment: map<VMID, HostID>
    var buckets: seq<HostSet>
    var maxCap: int

    ghost function Repr(): set<object>
      reads this
    {
      {this} + hosts.Values + set b | b in buckets
    }

    /** Hosts and buckets are separate objects, and the state they hold satisfies Inv. */
    ghost predicate Valid()
      reads this, Repr()
    {
      && Separate()
      && Inv(Model())
    }

    ghost predicate Separate()
      reads this, Repr()
    {
      && (forall a, b :: a in hosts && b in hosts && a != b ==> hosts[a] != hosts[b])
      && (forall id :: id in hosts ==> hosts[id].id == id)
      && (forall i, j :: 0 <= i < j < |buckets| ==> buckets[i] != buckets[j])
      && (forall i :: 0 <= i < |buckets| ==> buckets[i].Valid())
    }

    ghost function Model(): State
      reads this, Repr()
    {
      State(policy, HostsView(hosts), assignment, BucketsView(buckets), maxCap)
    }

    constructor (policy: Policy)
      ensures Valid() && fresh(Repr())
      ensures Model() == Empty(policy)
    {
      this.policy := policy;
      hosts := map[];
      assignment := map[];
      buckets := [];
      maxCap := 0;
      new;
      assert Model() == Empty(policy);
    }

    method AddHost(id: HostID, capacity: int) returns (err: Option<Error>)
      requires Valid()
      modifies Repr()
      ensures Valid() && fresh(Repr() - old(Repr()))
      ensures (Model(), err) == SchedulerSpec.AddHost(old(Model()), id, capacity)
    {
      if capacity < MIN_SLOTS_PER_HOST {
        return Some(ErrInvalidCapacity);
      }
      if id in hosts {
        return Some(ErrDuplicateHost);
      }
      ghost var before := Model();
      AddHostKeepsInv(before, id, capacity);
      Admit(id, capacity);
      return None;
    }

    method Admit(id: HostID, capacity: int)
      requires Separate() && id !in hosts
      modifies this`hosts, this`buckets, this`maxCap
      ensures Separate() && fresh(Repr() - old(Repr()))
      ensures Model() == old(Model()).(
        hosts := old(HostsView(hosts))[id := HostRec(capacity, 0, Pending)],
        buckets := GrowBuckets(old(BucketsView(buckets)), capacity),
        maxCap := if capacity > old(maxCap) then capacity else old(maxCap))
    {
      hide HostSet.Valid, GrowBuckets, Inv;
      GrowBucketsTo(capacity);
      var h := new Host(id, capacity);
      hosts := hosts[id := h];
      assert HostsView(hosts) == old(HostsView(hosts))[id := HostRec(capacity, 0, Pending)];
    }

    method GrowBucketsTo(capacity: int)
      requires Separate()
      modifies this`buckets, this`maxCap
      ensures Separate() && fresh(Repr() - old(Repr()))
      ensures old(buckets) <= buckets
      ensures BucketsView(buckets) == old(GrowBuckets(BucketsView(buckets), capacity))
      ensures maxCap == if capacity > old(maxCap) then capacity else old(maxCap)
    {
      while |buckets| <= capacity
        invariant Separate() && fresh(Repr() - old(Repr()))
        invariant maxCap == old(maxCap) && old(buckets) <= buckets
        invariant GrowBuckets(BucketsView(buckets), capacity) == old(GrowBuckets(BucketsView(buckets), capacity))
        decreases capacity - |buckets|
      {
        ghost var before := BucketsView(buckets);
        var bucket := new HostSet();
        buckets := buckets + [bucket];
        assert BucketsView(buckets) == before + [[]];
      }
      if capacity > maxCap {
        maxCap := capacity;
      }
    }

    /** Takes a ready host out of its bucket. */
    method UnindexHost(h: Host)
      requires Separate() && h.id in hosts && hosts[h.id] == h
      requires h.state == Ready ==> 0 <= h.Free() < |buckets|
      modifies set b | b in buckets
      ensures Separate()
      ensures BucketsView(buckets) == Unindex(old(BucketsView(buckets)), h.id, h.Rec())
      ensures HostsView(hosts) == old(HostsView(hosts))
    {
      if h.state == Ready {
        buckets[h.Free()].Delete(h.id);
        assert BucketsView(buckets) ==
          old(BucketsView(buckets))[h.Free() := Remove(old(BucketsView(buckets))[h.Free()], h.id)];
      }
    }

    /** Puts a ready host into the bucket for its free count. */
    method ReindexHost(h: Host)
      requires Separate() && h.id in hosts && hosts[h.id] == h
      requires h.state == Ready ==> 0 <= h.Free() < |buckets|
      modifies set b | b in buckets
      ensures Separate()
      ensures BucketsView(buckets) == Reindex(old(BucketsView(buckets)), h.id, h.Rec())
      ensures HostsView(hosts) == old(HostsView(hosts))
    {
      if h.state == Ready {
        buckets[h.Free()].Insert(h.id);
        assert BucketsView(buckets) ==
          old(BucketsView(buckets))[h.Free() := Add(old(BucketsView(buckets))[h.Free()], h.id)];
      }
    }

    /** Changes a host's used count and state, moving it between buckets to match. */
    method Reclassify(h: Host, used: int, state: HostState)
      requires Separate() && h.id in hosts && hosts[h.id] == h
      requires h.state == Ready ==> 0 <= h.Free() < |buckets|
      requires state == Ready ==> 0 <= h.capacity - used < |buckets|
      modifies h, set b | b in buckets
      ensures Separate()
      ensures var after := HostRec(h.capacity, used, state);
        && HostsView(hosts) == old(HostsView(hosts))[h.id := after]
        && BucketsView(buckets) == Reindex(Unindex(old(BucketsView(buckets)), h.id, old(h.Rec())), h.id, after)
    {
      hide HostSet.Valid, Unindex, Reindex;
      UnindexHost(h);
      h.used := used;
      h.state := state;
      ReindexHost(h);
    }

    method SetHostState(id: HostID, state: HostState) returns (err: Option<Error>)
      requires Valid()
      modifies Repr()
      ensures Valid() && hosts == old(hosts) && buckets == old(buckets)
      ensures (Model(), err) == SchedulerSpec.SetHostState(old(Model()), id, state)
    {
      if id !in hosts {
        return Some(ErrUnknownHost);
      }
      var h := hosts[id];
      if h.state == state {
        return None;
      }
      ghost var before := Model();
      SetHostStateKeepsInv(before, id, state);
      assert before.hosts[id] == h.Rec();
      HostInRange(before, id);
      Reclassify(h, h.used, state);
      return None;
    }

    /** Forgets every assignment to a host, in whatever order the map is walked. */
    method DropAssignments(id: HostID) returns (orphaned: seq<VMID>)
      modifies this`assignment
      ensures assignment == old(assignment) - VMsOn(old(assignment), id)
      ensures Elements(orphaned) == VMsOn(old(assignment), id)
      ensures NoDup(orphaned) && |orphaned| == |VMsOn(old(assignment), id)|
    {
      orphaned := [];
      var left := assignment.Keys;
      ghost var was, guests := assignment, VMsOn(assignment, id);
      while left != {}
        invariant left <= was.Keys
        invariant assignment == was - (guests - left)
        invariant NoDup(orphaned)
        invariant forall vm :: vm in orphaned <==> vm in guests && vm !in left
        decreases |left|
      {
        var vm :| vm in left;
        if assignment[vm] == id {
          orphaned := orphaned + [vm];
          assignment := assignment - {vm};
        }
        left := left - {vm};
      }
      NoDupSize(orphaned);
    }

    method RemoveHost(id: HostID) returns (orphaned: seq<VMID>, err: Option<Error>)
      requires Valid()
      modifies Repr()
      ensures Valid() && Repr() <= old(Repr())
      ensures Model() == SchedulerSpec.RemoveHost(old(Model()), id).0
      ensures SchedulerSpec.RemoveHost(old(Model()), id).1 ==
        if err.None? then Ok(Elements(orphaned)) else Err(err.value)
      ensures NoDup(orphaned) && (err.Some? ==> orphaned == [])
    {
      if id !in hosts {
        return [], Some(ErrUnknownHost);
      }
      ghost var before := Model();
      RemoveHostKeepsInv(before, id);
      HostInRange(before, id);
      orphaned := Evict(id);
      return orphaned, None;
    }

    method Evict(id: HostID) returns (orphaned: seq<VMID>)
      requires Separate() && id in hosts
      requires hosts[id].state == Ready ==> 0 <= hosts[id].Free() < |buckets|
      modifies this`hosts, this`assignment, set b | b in buckets
      ensures Separate() && hosts == old(hosts) - {id}
      ensures Model() == old(Model().(
        hosts := HostsView(hosts) - {id},
        buckets := Unindex(BucketsView(buckets), id, hosts[id].Rec()),
        assignment := assignment - VMsOn(assignment, id)))
      ensures Elements(orphaned) == VMsOn(old(assignment), id) && NoDup(orphaned)
    {
      hide HostSet.Valid, Unindex;
      ForgetHost(id);
      hide HostsView;
      orphaned := DropAssignments(id);
    }

    method ForgetHost(id: HostID)
      requires Separate() && id in hosts
      requires hosts[id].state == Ready ==> 0 <= hosts[id].Free() < |buckets|
      modifies this`hosts, set b | b in buckets
      ensures Separate() && hosts == old(hosts) - {id}
      ensures HostsView(hosts) == old(HostsView(hosts)) - {id}
      ensures BucketsView(buckets) == old(Unindex(BucketsView(buckets), id, hosts[id].Rec()))
    {
      hide HostSet.Valid, Unindex;
      UnindexHost(hosts[id]);
      hosts := hosts - {id};
      assert HostsView(hosts) == old(HostsView(hosts)) - {id};
    }

    method Place(vm: VMID) returns (id: HostID, err: Option<Error>)
      requires Valid()
      modifies Repr()
      ensures Valid() && hosts == old(hosts) && buckets == old(buckets)
      ensures Model() == SchedulerSpec.Place(old(Model()), vm).0
      ensures SchedulerSpec.Place(old(Model()), vm).1 == if err.None? then Ok(id) else Err(err.value)
      ensures err.Some? ==> id == HostID("")
    {
      hide Inv, SchedulerSpec.SelectHost, Unindex, Reindex, HostSet.Valid;
      if vm in assignment {
        return HostID(""), Some(ErrDuplicateVM);
      }
      ghost var before := Model();
      PlaceKeepsInv(before, vm);
      PlaceTakesOneSlot(before, vm);
      var chosen, ok := SelectHost();
      if !ok {
        return HostID(""), Some(ErrNoCapacity);
      }
      Occupy(vm, chosen);
      return chosen, None;
    }

    method Occupy(vm: VMID, id: HostID)
      requires Separate() && id in hosts && hosts[id].state == Ready
      requires 1 <= hosts[id].Free() < |buckets|
      modifies this`assignment, hosts[id], set b | b in buckets
      ensures Separate()
      ensures var h := old(hosts[id].Rec());
        var fuller := h.(used := h.used + 1);
        Model() == old(Model()).(
          hosts := old(HostsView(hosts))[id := fuller],
          buckets := Reindex(Unindex(old(BucketsView(buckets)), id, h), id, fuller),
          assignment := old(assignment)[vm := id])
    {
      hide HostSet.Valid, Unindex, Reindex;
      var h := hosts[id];
      Reclassify(h, h.used + 1, h.state);
      assignment := assignment[vm := id];
    }

    method SelectHost() returns (id: HostID, ok: bool)
      requires Valid()
      ensures SchedulerSpec.SelectHost(Model()) == if ok then Some(id) else None
    {
      BucketsReachMaxCap(Model());
      hide Inv, SelectUp, SelectDown, Separate;
      if policy == WorstFit {
        id, ok := WalkDown();
      } else {
        id, ok := WalkUp();
      }
    }

    method WalkDown() returns (id: HostID, ok: bool)
      requires Separate() && 0 <= maxCap && (maxCap > 0 ==> maxCap < |buckets|)
      ensures SelectDown(BucketsView(buckets), maxCap) == if ok then Some(id) else None
    {
      var k := maxCap;
      while k >= 1
        invariant 0 <= k <= maxCap
        invariant SelectDown(BucketsView(buckets), k) == SelectDown(BucketsView(buckets), maxCap)
      {
        id, ok := buckets[k].Any();
        if ok {
          return;
        }
        k := k - 1;
      }
      return HostID(""), false;
    }

    method WalkUp() returns (id: HostID, ok: bool)
      requires Separate() && 0 <= maxCap && (maxCap > 0 ==> maxCap < |buckets|)
      ensures SelectUp(BucketsView(buckets), 1, maxCap) == if ok then Some(id) else None
    {
      var k := 1;
      while k <= maxCap
        invariant 1 <= k <= maxCap + 1
        invariant SelectUp(BucketsView(buckets), k, maxCap) == SelectUp(BucketsView(buckets), 1, maxCap)
      {
        id, ok := buckets[k].Any();
        if ok {
          return;
        }
        k := k + 1;
      }
      return HostID(""), false;
    }

    method Release(vm: VMID) returns (err: Option<Error>)
      requires Valid()
      modifies Repr()
      ensures Valid() && hosts == old(hosts) && buckets == old(buckets)
      ensures (Model(), err) == SchedulerSpec.Release(old(Model()), vm)
    {
      hide Inv, Unindex, Reindex, HostSet.Valid;
      if vm !in assignment {
        return Some(ErrUnknownVM);
      }
      ghost var before := Model();
      ReleaseFreesOneSlot(before, vm);  // so the source's missing-host return is never taken
      ReleaseKeepsInv(before, vm);
      Vacate(vm);
      return None;
    }

    method Vacate(vm: VMID)
      requires Separate() && vm in assignment && assignment[vm] in hosts
      requires 0 <= hosts[assignment[vm]].Free() && hosts[assignment[vm]].Free() + 1 < |buckets|
      modifies this`assignment, hosts[assignment[vm]], set b | b in buckets
      ensures Separate()
      ensures var id := old(assignment[vm]);
        var h := old(hosts[assignment[vm]].Rec());
        var emptier := h.(used := h.used - 1);
        Model() == old(Model()).(
          hosts := old(HostsView(hosts))[id := emptier],
          buckets := Reindex(Unindex(old(BucketsView(buckets)), id, h), id, emptier),
          assignment := old(assignment) - {vm})
    {
      hide HostSet.Valid, Unindex, Reindex;
      var id := assignment[vm];
      assignment := assignment - {vm};
      var h := hosts[id];
      Reclassify(h, h.used - 1, h.state);
    }

    method HostOf(vm: VMID) returns (id: HostID, ok: bool)
      requires Valid()
      ensures ok <==> vm in assignment
      ensures ok ==> id == assignment[vm] && id in hosts
    {
      if vm in assignment {
        assert Model().assignment[vm] in Model().hosts;
        return assignment[vm], true;
      }
      return HostID(""), false;
    }

    method TallyHost(before: Stats, h: Host) returns (out: Stats)
      ensures out == CountHost(before, h.Rec())
    {
      out := before.(used := before.used + h.used);
      match h.state {
        case Ready =>
          out := out.(readyHosts := out.readyHosts + 1, capacity := out.capacity + h.capacity);
          if h.used == 0 {
            out := out.(idleHosts := out.idleHosts + 1);
          } else if h.used == 1 {
            out := out.(underfilledHosts := out.underfilledHosts + 1);
          }
        case Draining =>
          out := out.(drainingHosts := out.drainingHosts + 1);
        case Pending =>
      }
    }

    method TallyNext(ghost view: map<HostID, HostRec>, ghost seen: set<HostID>, id: HostID, h: Host,
                     before: Stats)
      returns (out: Stats)
      requires seen <= view.Keys && id in view.Keys - seen && view[id] == h.Rec()
      requires Tallies(view, seen, before)
      ensures Tallies(view, seen + {id}, out)
      ensures out.hosts == before.hosts && out.inflightVMs == before.inflightVMs
    {
      CountOneMore(view, seen, id, before);
      out := TallyHost(before, h);
    }

    /** Counts the fleet in whatever order the host map is walked. */
    method Stats() returns (out: Stats)
      requires Valid()
      ensures Describes(Model(), out)
    {
      hide Inv, Valid, Separate, Tallies, Describes, BucketsView;
      out := FleetStats.Stats(|hosts|, 0, 0, 0, 0, 0, 0, |assignment|);
      ghost var view := HostsView(hosts);
      assert view.Keys == hosts.Keys;
      TallyNothing(view, out);
      out := TallyHosts(out, view);
      TalliedAll(Model(), out);
    }

    method TallyHosts(before: Stats, ghost view: map<HostID, HostRec>) returns (out: Stats)
      requires view == HostsView(hosts) && Tallies(view, {}, before)
      ensures Tallies(view, view.Keys, out)
      ensures out.hosts == before.hosts && out.inflightVMs == before.inflightVMs
    {
      hide Tallies;
      out := before;
      var left := hosts.Keys;
      assert view.Keys - left == {};
      while left != {}
        invariant left <= view.Keys
        invariant out.hosts == before.hosts && out.inflightVMs == before.inflightVMs
        invariant Tallies(view, view.Keys - left, out)
        decreases |left|
      {
        var id :| id in left;
        var h := hosts[id];
        ghost var seen := view.Keys - left;
        out := TallyNext(view, seen, id, h, out);
        left := left - {id};
        assert view.Keys - left == seen + {id};
      }
      assert view.Keys - {} == view.Keys;
    }

    /** A snapshot of every host, once each, in whatever order the map is walked. */
    method Hosts() returns (out: seq<HostSnapshot>)
      requires Valid()
      ensures NoDup(SnapshotIds(out))
      ensures forall id :: id in SnapshotIds(out) <==> id in Model().hosts
      ensures forall i :: 0 <= i < |out| ==>
        out[i].id in Model().hosts && out[i].Rec() == Model().hosts[out[i].id]
    {
      hide Inv, HostSet.Valid;
      out := [];
      var left := hosts.Keys;
      while left != {}
        invariant left <= hosts.Keys
        invariant NoDup(SnapshotIds(out))
        invariant forall id :: id in SnapshotIds(out) <==> id in hosts && id !in left
        invariant forall i :: 0 <= i < |out| ==> out[i].id in hosts && out[i].Rec() == hosts[out[i].id].Rec()
        decreases |left|
      {
        var id :| id in left;
        var h := hosts[id];
        ghost var before := SnapshotIds(out);
        out := out + [HostSnapshot(h.id, h.capacity, h.used, h.state)];
        left := left - {id};
        assert SnapshotIds(out) == before + [id];
      }
    }
  }
}
