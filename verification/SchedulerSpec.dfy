/** What every Scheduler operation does to the scheduler's state, as functions on values
    (internal/scheduler/scheduler.go). The class in SchedulerImpl refines these functions. */
module SchedulerSpec {
  import opened Common
  import opened HostSets

  const MIN_SLOTS_PER_HOST := 2

  datatype HostState = Pending | Ready | Draining

  datatype Policy = BestFit | WorstFit

  datatype Error =
    | ErrNoCapacity
    | ErrUnknownHost
    | ErrUnknownVM
    | ErrDuplicateHost
    | ErrDuplicateVM
    | ErrInvalidCapacity

  datatype HostRec = HostRec(capacity: int, used: int, state: HostState) {
    function Free(): int { capacity - used }
  }

  type Hosts = map<HostID, HostRec>

  type Buckets = seq<seq<HostID>>

  datatype State = State(
    policy: Policy,
    hosts: Hosts,
    assignment: map<VMID, HostID>,
    buckets: Buckets,
    maxCap: int)

  const NO_BUCKETS: Buckets := []

  function Empty(policy: Policy): State {
    State(policy, map[], map[], NO_BUCKETS, 0)
  }

  // ---------------------------------------------------------------- invariant

  ghost function VMsOn(assignment: map<VMID, HostID>, id: HostID): set<VMID> {
    set vm | vm in assignment && assignment[vm] == id
  }

  function Residents(assignment: map<VMID, HostID>, ids: set<HostID>): set<VMID> {
    set vm | vm in assignment && assignment[vm] in ids
  }

  ghost function InState(hosts: Hosts, state: HostState): set<HostID> {
    set id | id in hosts && hosts[id].state == state
  }

  /** Bucket k lists, once each, exactly the ready hosts with k free slots. */
  ghost predicate Indexed(hosts: Hosts, buckets: Buckets) {
    forall k :: 0 <= k < |buckets| ==> Lists(hosts, buckets[k], k)
  }

  ghost predicate Lists(hosts: Hosts, bucket: seq<HostID>, k: int) {
    && NoDup(bucket)
    && forall id :: id in bucket <==> Listed(hosts, id) && hosts[id].Free() == k
  }

  predicate Listed(hosts: Hosts, id: HostID) {
    id in hosts && hosts[id].state == Ready
  }

  ghost predicate SlotsInRange(hosts: Hosts, maxCap: int) {
    forall id :: id in hosts ==>
      MIN_SLOTS_PER_HOST <= hosts[id].capacity <= maxCap && 0 <= hosts[id].used <= hosts[id].capacity
  }

  /** Every assigned host exists, and a host's used count is the number of VMs assigned to it. */
  ghost predicate Accounted(hosts: Hosts, assignment: map<VMID, HostID>) {
    && (forall vm :: vm in assignment ==> assignment[vm] in hosts)
    && (forall id :: id in hosts ==> hosts[id].used == |VMsOn(assignment, id)|)
  }

  ghost predicate Inv(s: State) {
    && s.maxCap >= 0
    && |s.buckets| == (if s.maxCap == 0 then 0 else s.maxCap + 1)
    && SlotsInRange(s.hosts, s.maxCap)
    && Accounted(s.hosts, s.assignment)
    && Indexed(s.hosts, s.buckets)
  }

  // --------------------------------------------------------------- operations

  /** Takes a ready host out of the bucket for its free count. */
  function Unindex(buckets: Buckets, id: HostID, h: HostRec): Buckets
    requires h.state == Ready ==> 0 <= h.Free() < |buckets|
  {
    if h.state == Ready then buckets[h.Free() := Remove(buckets[h.Free()], id)] else buckets
  }

  /** Puts a ready host into the bucket for its free count. */
  function Reindex(buckets: Buckets, id: HostID, h: HostRec): Buckets
    requires h.state == Ready ==> 0 <= h.Free() < |buckets|
  {
    if h.state == Ready then buckets[h.Free() := Add(buckets[h.Free()], id)] else buckets
  }

  function GrowBuckets(buckets: Buckets, capacity: int): Buckets
    decreases capacity - |buckets|
  {
    if |buckets| <= capacity then GrowBuckets(buckets + [[]], capacity) else buckets
  }

  function AddHost(s: State, id: HostID, capacity: int): (State, Option<Error>) {
    if capacity < MIN_SLOTS_PER_HOST then (s, Some(ErrInvalidCapacity))
    else if id in s.hosts then (s, Some(ErrDuplicateHost))
    else
      (s.(buckets := GrowBuckets(s.buckets, capacity),
          maxCap := if capacity > s.maxCap then capacity else s.maxCap,
          hosts := s.hosts[id := HostRec(capacity, 0, Pending)]),
       None)
  }

  function SetHostState(s: State, id: HostID, state: HostState): (State, Option<Error>)
    requires Inv(s)
  {
    if id !in s.hosts then (s, Some(ErrUnknownHost))
    else
      var h := s.hosts[id];
      if h.state == state then (s, None)
      else
        var moved := h.(state := state);
        (s.(hosts := s.hosts[id := moved],
            buckets := Reindex(Unindex(s.buckets, id, h), id, moved)),
         None)
  }

  ghost function RemoveHost(s: State, id: HostID): (State, Result<set<VMID>, Error>)
    requires Inv(s)
  {
    if id !in s.hosts then (s, Err(ErrUnknownHost))
    else
      (s.(hosts := s.hosts - {id},
          buckets := Unindex(s.buckets, id, s.hosts[id]),
          assignment := s.assignment - VMsOn(s.assignment, id)),
       Ok(VMsOn(s.assignment, id)))
  }

  /** The last member of the first non-empty bucket among k..maxCap. */
  function SelectUp(buckets: Buckets, k: int, maxCap: int): Option<HostID>
    requires 0 <= k && (k <= maxCap ==> maxCap < |buckets|)
    decreases maxCap - k
  {
    if k > maxCap then None
    else if buckets[k] != [] then Some(buckets[k][|buckets[k]| - 1])
    else SelectUp(buckets, k + 1, maxCap)
  }

  /** The last member of the first non-empty bucket among k, k-1, ..., 1. */
  function SelectDown(buckets: Buckets, k: int): Option<HostID>
    requires 1 <= k ==> k < |buckets|
    decreases k
  {
    if k < 1 then None
    else if buckets[k] != [] then Some(buckets[k][|buckets[k]| - 1])
    else SelectDown(buckets, k - 1)
  }

  function SelectHost(s: State): Option<HostID>
    requires Inv(s)
  {
    if s.policy == WorstFit then SelectDown(s.buckets, s.maxCap) else SelectUp(s.buckets, 1, s.maxCap)
  }

  function Place(s: State, vm: VMID): (State, Result<HostID, Error>)
    requires Inv(s)
  {
    if vm in s.assignment then (s, Err(ErrDuplicateVM))
    else
      SelectHostIsBest(s);
      match SelectHost(s)
      case None => (s, Err(ErrNoCapacity))
      case Some(id) =>
        var h := s.hosts[id];
        var fuller := h.(used := h.used + 1);
        (s.(hosts := s.hosts[id := fuller],
            buckets := Reindex(Unindex(s.buckets, id, h), id, fuller),
            assignment := s.assignment[vm := id]),
         Ok(id))
  }

  function Release(s: State, vm: VMID): (State, Option<Error>)
    requires Inv(s)
  {
    if vm !in s.assignment then (s, Some(ErrUnknownVM))
    else
      var id := s.assignment[vm];
      var h := s.hosts[id];
      OccupiedHostIsUsed(s, vm);
      var emptier := h.(used := h.used - 1);
      (s.(hosts := s.hosts[id := emptier],
          buckets := Reindex(Unindex(s.buckets, id, h), id, emptier),
          assignment := s.assignment - {vm}),
       None)
  }

  // ------------------------------------------------- selection against search

  /** The hosts a plain search would consider. */
  ghost predicate Eligible(hosts: Hosts, id: HostID) {
    Listed(hosts, id) && hosts[id].Free() > 0
  }

  /** A plain search's verdict: id is eligible and no eligible host is fuller (BestFit) or
      emptier (WorstFit). */
  ghost predicate IsBestChoice(policy: Policy, hosts: Hosts, id: HostID) {
    && Eligible(hosts, id)
    && forall other :: Eligible(hosts, other) ==>
         match policy
         case BestFit => hosts[id].Free() <= hosts[other].Free()
         case WorstFit => hosts[other].Free() <= hosts[id].Free()
  }

  lemma {:induction false} SelectUpFindsLeast(s: State, k: int)
    requires Inv(s) && 1 <= k
    ensures var r := SelectUp(s.buckets, k, s.maxCap);
      match r
      case None => forall id :: Listed(s.hosts, id) ==> s.hosts[id].Free() < k
      case Some(id) =>
        && Listed(s.hosts, id) && k <= s.hosts[id].Free()
        && (forall other :: Listed(s.hosts, other) && k <= s.hosts[other].Free() ==>
              s.hosts[id].Free() <= s.hosts[other].Free())
        && s.buckets[s.hosts[id].Free()] != []
        && id == s.buckets[s.hosts[id].Free()][|s.buckets[s.hosts[id].Free()]| - 1]
    decreases s.maxCap - k
  {
    if k > s.maxCap {
    } else {
      assert Lists(s.hosts, s.buckets[k], k);
      if s.buckets[k] == [] {
        SelectUpFindsLeast(s, k + 1);
      } else {
        assert s.buckets[k][|s.buckets[k]| - 1] in s.buckets[k];
      }
    }
  }

  lemma {:induction false} SelectDownFindsGreatest(s: State, k: int)
    requires Inv(s) && k <= s.maxCap
    ensures var r := SelectDown(s.buckets, k);
      match r
      case None => forall id :: Listed(s.hosts, id) ==> s.hosts[id].Free() < 1 || s.hosts[id].Free() > k
      case Some(id) =>
        && Listed(s.hosts, id) && 1 <= s.hosts[id].Free() <= k
        && (forall other :: Listed(s.hosts, other) && s.hosts[other].Free() <= k ==>
              s.hosts[other].Free() <= s.hosts[id].Free())
        && s.buckets[s.hosts[id].Free()] != []
        && id == s.buckets[s.hosts[id].Free()][|s.buckets[s.hosts[id].Free()]| - 1]
    decreases k
  {
    if k < 1 {
    } else {
      assert Lists(s.hosts, s.buckets[k], k);
      if s.buckets[k] == [] {
        SelectDownFindsGreatest(s, k - 1);
      } else {
        assert s.buckets[k][|s.buckets[k]| - 1] in s.buckets[k];
      }
    }
  }

  /** The bucket walk returns what a plain search of every host would, and nothing exactly when
      no ready host has a free slot. The host is the top of its bucket. */
  lemma SelectHostIsBest(s: State)
    requires Inv(s)
    ensures SelectHost(s).None? <==> forall id :: !Eligible(s.hosts, id)
    ensures SelectHost(s).Some? ==>
      var id := SelectHost(s).value;
      && IsBestChoice(s.policy, s.hosts, id)
      && 1 <= s.hosts[id].Free() < |s.buckets|
      && s.buckets[s.hosts[id].Free()] != []
      && id == s.buckets[s.hosts[id].Free()][|s.buckets[s.hosts[id].Free()]| - 1]
  {
    SelectUpFindsLeast(s, 1);
    SelectDownFindsGreatest(s, s.maxCap);
    assert forall id :: Listed(s.hosts, id) ==> s.hosts[id].Free() <= s.hosts[id].capacity <= s.maxCap;
    if SelectHost(s).Some? {
      assert Eligible(s.hosts, SelectHost(s).value);
    }
  }

  /** Place refines the search: an unassigned VM goes to a best eligible host, and is refused
      for capacity exactly when no ready host has a free slot. */
  lemma PlaceRefinesSearch(s: State, vm: VMID)
    requires Inv(s)
    ensures Place(s, vm).1 == Err(ErrDuplicateVM) <==> vm in s.assignment
    ensures Place(s, vm).1 == Err(ErrNoCapacity) <==>
      vm !in s.assignment && forall id :: !Eligible(s.hosts, id)
    ensures Place(s, vm).1.Err? ==> Place(s, vm).0 == s
    ensures Place(s, vm).1.Ok? ==>
      var id := Place(s, vm).1.value;
      var s' := Place(s, vm).0;
      && IsBestChoice(s.policy, s.hosts, id)
      && s'.assignment == s.assignment[vm := id]
      && s'.hosts == s.hosts[id := s.hosts[id].(used := s.hosts[id].used + 1)]
  {
    SelectHostIsBest(s);
  }

  /** Placing changes only the selected host's count and bucket. */
  lemma PlaceTakesOneSlot(s: State, vm: VMID)
    requires Inv(s) && vm !in s.assignment
    ensures match SelectHost(s)
      case None => Place(s, vm) == (s, Err(ErrNoCapacity))
      case Some(id) =>
        && Listed(s.hosts, id)
        && 1 <= s.hosts[id].Free() < |s.buckets|
        && Place(s, vm) ==
             (s.(hosts := s.hosts[id := s.hosts[id].(used := s.hosts[id].used + 1)],
                 buckets := Reindex(Unindex(s.buckets, id, s.hosts[id]),
                                    id, s.hosts[id].(used := s.hosts[id].used + 1)),
                 assignment := s.assignment[vm := id]),
              Ok(id))
  {
    SelectHostIsBest(s);
  }

  /** Releasing an assigned VM always finds its host, and only that host's count changes. */
  lemma ReleaseFreesOneSlot(s: State, vm: VMID)
    requires Inv(s) && vm in s.assignment
    ensures s.assignment[vm] in s.hosts
    ensures var id, h := s.assignment[vm], s.hosts[s.assignment[vm]];
      && 0 <= h.Free() && h.Free() + 1 < |s.buckets|
      && Release(s, vm) ==
           (s.(hosts := s.hosts[id := h.(used := h.used - 1)],
               buckets := Reindex(Unindex(s.buckets, id, h), id, h.(used := h.used - 1)),
               assignment := s.assignment - {vm}),
            None)
  {
    OccupiedHostIsUsed(s, vm);
  }

  // ------------------------------------------------ the invariant is preserved

  lemma OccupiedHostIsUsed(s: State, vm: VMID)
    requires Inv(s) && vm in s.assignment
    ensures s.hosts[s.assignment[vm]].used >= 1
  {
    assert vm in VMsOn(s.assignment, s.assignment[vm]);
  }

  lemma UnindexKeepsIndexed(hosts: Hosts, buckets: Buckets, id: HostID)
    requires Indexed(hosts, buckets) && id in hosts
    requires hosts[id].state == Ready ==> 0 <= hosts[id].Free() < |buckets|
    ensures Indexed(hosts - {id}, Unindex(buckets, id, hosts[id]))
  {
    var after := Unindex(buckets, id, hosts[id]);
    forall k | 0 <= k < |after|
      ensures Lists(hosts - {id}, after[k], k)
    {
      assert Lists(hosts, buckets[k], k);
      RemoveMembers(buckets[k], id);
    }
  }

  lemma ReindexKeepsIndexed(hosts: Hosts, buckets: Buckets, id: HostID, h: HostRec)
    requires Indexed(hosts, buckets) && id !in hosts
    requires h.state == Ready ==> 0 <= h.Free() < |buckets|
    ensures Indexed(hosts[id := h], Reindex(buckets, id, h))
  {
    var after := Reindex(buckets, id, h);
    forall k | 0 <= k < |after|
      ensures Lists(hosts[id := h], after[k], k)
    {
      assert Lists(hosts, buckets[k], k);
      AddMembers(buckets[k], id);
    }
  }

  /** Moving a host between buckets as its record changes keeps the whole index right. */
  lemma MoveKeepsIndexed(hosts: Hosts, buckets: Buckets, id: HostID, h: HostRec)
    requires Indexed(hosts, buckets) && id in hosts
    requires hosts[id].state == Ready ==> 0 <= hosts[id].Free() < |buckets|
    requires h.state == Ready ==> 0 <= h.Free() < |buckets|
    ensures Indexed(hosts[id := h], Reindex(Unindex(buckets, id, hosts[id]), id, h))
  {
    UnindexKeepsIndexed(hosts, buckets, id);
    ReindexKeepsIndexed(hosts - {id}, Unindex(buckets, id, hosts[id]), id, h);
    assert (hosts - {id})[id := h] == hosts[id := h];
  }

  lemma {:induction false} GrowBucketsAddsEmpty(buckets: Buckets, capacity: int)
    ensures var g := GrowBuckets(buckets, capacity);
      && |g| == (if |buckets| <= capacity then capacity + 1 else |buckets|)
      && buckets <= g
      && forall k :: |buckets| <= k < |g| ==> g[k] == []
    decreases capacity - |buckets|
  {
    if capacity < |buckets| {
    } else {
      GrowBucketsAddsEmpty(buckets + [[]], capacity);
    }
  }

  lemma EmptyKeepsInv(policy: Policy)
    ensures Inv(Empty(policy))
  {
  }

  lemma AddHostKeepsInv(s: State, id: HostID, capacity: int)
    requires Inv(s)
    ensures Inv(AddHost(s, id, capacity).0)
  {
    var s' := AddHost(s, id, capacity).0;
    if s' != s {
      GrowBucketsAddsEmpty(s.buckets, capacity);
      forall k | 0 <= k < |s'.buckets|
        ensures Lists(s'.hosts, s'.buckets[k], k)
      {
        if k < |s.buckets| { assert Lists(s.hosts, s.buckets[k], k); }
      }
      assert VMsOn(s.assignment, id) == {};
    }
  }

  lemma SetHostStateKeepsInv(s: State, id: HostID, state: HostState)
    requires Inv(s)
    ensures Inv(SetHostState(s, id, state).0)
  {
    if id in s.hosts {
      MoveKeepsIndexed(s.hosts, s.buckets, id, s.hosts[id].(state := state));
    }
  }

  lemma RemoveHostKeepsInv(s: State, id: HostID)
    requires Inv(s)
    ensures Inv(RemoveHost(s, id).0)
  {
    if id in s.hosts {
      UnindexKeepsIndexed(s.hosts, s.buckets, id);
      var s' := RemoveHost(s, id).0;
      forall other | other in s'.hosts
        ensures VMsOn(s'.assignment, other) == VMsOn(s.assignment, other)
      {
      }
    }
  }

  lemma AssigningKeepsAccounted(hosts: Hosts, assignment: map<VMID, HostID>, vm: VMID, id: HostID)
    requires Accounted(hosts, assignment) && vm !in assignment && id in hosts
    ensures Accounted(hosts[id := hosts[id].(used := hosts[id].used + 1)], assignment[vm := id])
  {
    var assignment' := assignment[vm := id];
    assert VMsOn(assignment', id) == VMsOn(assignment, id) + {vm};
    forall other | other in hosts && other != id
      ensures VMsOn(assignment', other) == VMsOn(assignment, other)
    {
    }
  }

  lemma PlaceKeepsInv(s: State, vm: VMID)
    requires Inv(s)
    ensures Inv(Place(s, vm).0)
  {
    if Place(s, vm).1.Ok? {
      hide Indexed, Accounted, Unindex, Reindex, SelectHost;
      PlaceTakesOneSlot(s, vm);
      var id := Place(s, vm).1.value;
      var fuller := s.hosts[id].(used := s.hosts[id].used + 1);
      AssigningKeepsAccounted(s.hosts, s.assignment, vm, id);
      MoveKeepsIndexed(s.hosts, s.buckets, id, fuller);
    }
  }

  lemma UnassigningKeepsAccounted(hosts: Hosts, assignment: map<VMID, HostID>, vm: VMID)
    requires Accounted(hosts, assignment) && vm in assignment
    ensures var id := assignment[vm];
      Accounted(hosts[id := hosts[id].(used := hosts[id].used - 1)], assignment - {vm})
  {
    var id, assignment' := assignment[vm], assignment - {vm};
    assert VMsOn(assignment', id) == VMsOn(assignment, id) - {vm};
    forall other | other in hosts && other != id
      ensures VMsOn(assignment', other) == VMsOn(assignment, other)
    {
    }
  }

  lemma ReleaseKeepsInv(s: State, vm: VMID)
    requires Inv(s)
    ensures Inv(Release(s, vm).0)
  {
    hide Indexed, Accounted;
    if vm in s.assignment {
      ReleaseFreesOneSlot(s, vm);
      OccupiedHostIsUsed(s, vm);
      var id := s.assignment[vm];
      var emptier := s.hosts[id].(used := s.hosts[id].used - 1);
      UnassigningKeepsAccounted(s.hosts, s.assignment, vm);
      MoveKeepsIndexed(s.hosts, s.buckets, id, emptier);
    }
  }

  // ------------------------------------- what callers see of an operation

  lemma AddHostAddsPending(s: State, id: HostID, capacity: int)
    requires Inv(s)
    ensures var (s', err) := AddHost(s, id, capacity);
      && Inv(s') && s'.assignment == s.assignment
      && err == (if capacity < 2 then Some(ErrInvalidCapacity)
                 else if id in s.hosts then Some(ErrDuplicateHost) else None)
      && (err.Some? ==> s' == s)
      && (err.None? ==> s'.hosts == s.hosts[id := HostRec(capacity, 0, Pending)])
  {
    AddHostKeepsInv(s, id, capacity);
  }

  lemma SetHostStateSetsState(s: State, id: HostID, state: HostState)
    requires Inv(s)
    ensures var (s', err) := SetHostState(s, id, state);
      && Inv(s') && s'.assignment == s.assignment
      && err == (if id in s.hosts then None else Some(ErrUnknownHost))
      && s'.hosts == (if id in s.hosts then s.hosts[id := s.hosts[id].(state := state)] else s.hosts)
      && (id in s.hosts && s.hosts[id].state == state ==> s' == s)
  {
    SetHostStateKeepsInv(s, id, state);
  }

  lemma RemoveHostEvicts(s: State, id: HostID)
    requires Inv(s) && id in s.hosts
    ensures var (s', r) := RemoveHost(s, id);
      && Inv(s') && r == Ok(VMsOn(s.assignment, id))
      && s'.hosts == s.hosts - {id} && s'.assignment == s.assignment - VMsOn(s.assignment, id)
  {
    RemoveHostKeepsInv(s, id);
  }

  lemma ReleaseUnassigns(s: State, vm: VMID)
    requires Inv(s)
    ensures Release(s, vm).0.assignment == s.assignment - {vm}
    ensures Release(s, vm).1.None? <==> vm in s.assignment
    ensures vm !in s.assignment ==> Release(s, vm) == (s, Some(ErrUnknownVM))
  {
  }

  // --------------------------------------------------- place, then release

  lemma MoveThereAndBack(buckets: Buckets, id: HostID, h: HostRec)
    requires h.state == Ready && 1 <= h.Free() < |buckets|
    requires NoDup(buckets[h.Free()]) && NoDup(buckets[h.Free() - 1])
    requires buckets[h.Free()] != [] && buckets[h.Free()][|buckets[h.Free()]| - 1] == id
    requires id !in buckets[h.Free() - 1]
    ensures var fuller := h.(used := h.used + 1);
      var placed := Reindex(Unindex(buckets, id, h), id, fuller);
      Reindex(Unindex(placed, id, fuller), id, h) == buckets
  {
    var k := h.Free();
    var lower, upper := Add(buckets[k - 1], id), Remove(buckets[k], id);
    assert Remove(lower, id) == buckets[k - 1] by { RemoveUndoesAdd(buckets[k - 1], id); }
    assert Add(upper, id) == buckets[k] by { AddUndoesRemoveLast(buckets[k]); }
    var fuller := h.(used := h.used + 1);
    var placed := Reindex(Unindex(buckets, id, h), id, fuller);
    assert placed == buckets[k := upper][k - 1 := lower];
    BothPutBack(buckets, k, upper, lower);
    hide Add, Remove, NoDup;
  }

  lemma BothPutBack<T>(s: seq<T>, k: nat, a: T, b: T)
    requires 1 <= k < |s|
    ensures s[k := a][k - 1 := b][k - 1 := s[k - 1]][k := s[k]] == s
  {
  }

  /** The selected host tops its own bucket and is absent from the one below. */
  lemma TopOfBucket(s: State)
    requires Inv(s) && SelectHost(s).Some?
    ensures var id := SelectHost(s).value;
      && Listed(s.hosts, id)
      && var k := s.hosts[id].Free();
      && 1 <= k < |s.buckets| && NoDup(s.buckets[k]) && NoDup(s.buckets[k - 1])
      && s.buckets[k] != [] && s.buckets[k][|s.buckets[k]| - 1] == id && id !in s.buckets[k - 1]
  {
    SelectHostIsBest(s);
    var k := s.hosts[SelectHost(s).value].Free();
    assert Lists(s.hosts, s.buckets[k], k) && Lists(s.hosts, s.buckets[k - 1], k - 1);
  }

  /** Releasing a VM straight after placing it restores the whole state, including the order
      inside every bucket. */
  lemma ReleaseUndoesPlace(s: State, vm: VMID)
    requires Inv(s) && Place(s, vm).1.Ok?
    ensures Inv(Place(s, vm).0)
    ensures Release(Place(s, vm).0, vm) == (s, None)
  {
    hide Inv, SelectHost, Unindex, Reindex;
    PlaceKeepsInv(s, vm);
    PlaceTakesOneSlot(s, vm);
    var (s', r) := Place(s, vm);
    var id, h := r.value, s.hosts[r.value];
    var fuller := h.(used := h.used + 1);
    ReleaseFreesOneSlot(s', vm);
    assert s.hosts[id := fuller][id := h] == s.hosts;
    assert s.assignment[vm := id] - {vm} == s.assignment;
    TopOfBucket(s);
    MoveThereAndBack(s.buckets, id, h);
    assert fuller.(used := fuller.used - 1) == h;
  }

  /** So placing the same VM again at once chooses the same host. */
  lemma ReplaceChoosesSameHost(s: State, vm: VMID)
    requires Inv(s) && Place(s, vm).1.Ok?
    ensures Inv(Place(s, vm).0) && Inv(Release(Place(s, vm).0, vm).0)
    ensures Place(Release(Place(s, vm).0, vm).0, vm) == Place(s, vm)
  {
    ReleaseUndoesPlace(s, vm);
  }
}
