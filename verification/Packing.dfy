/** How tightly a run of Place calls packs a fleet of equal, ready hosts
    (internal/scheduler/scheduler.go, docs/decisions/0002-best-fit-placement.md). */
module Packing {
  import opened Common
  import opened Integers
  import opened SchedulerSpec
  import opened FleetStats

  /** Every host is ready and has c slots. */
  ghost predicate Uniform(s: State, c: int) {
    forall id :: id in s.hosts ==> s.hosts[id].state == Ready && s.hosts[id].capacity == c
  }

  /** The state after placing each VM in turn; a refused call changes nothing. */
  ghost function PlaceAll(s: State, vms: seq<VMID>): (r: State)
    requires Inv(s)
    ensures Inv(r)
  {
    if vms == [] then s
    else
      var before := PlaceAll(s, vms[..|vms| - 1]);
      PlaceKeepsInv(before, vms[|vms| - 1]);
      Place(before, vms[|vms| - 1]).0
  }

  ghost function Idle(s: State): set<HostID> {
    set id | id in s.hosts && s.hosts[id].used == 0
  }

  ghost function Full(s: State): set<HostID> {
    set id | id in s.hosts && s.hosts[id].Free() == 0
  }

  ghost function PartlyFull(s: State): set<HostID> {
    set id | id in s.hosts && s.hosts[id].used > 0 && s.hosts[id].Free() > 0
  }

  /** The least number of c-slot hosts that hold m VMs. */
  function HostsNeeded(m: int, c: int): int
    requires c > 0
  {
    (m + c - 1) / c
  }

  // ------------------------------------------------------- every call succeeds

  lemma SlotsLeftMeansEligible(s: State, c: int)
    requires Inv(s) && Uniform(s, c) && |s.assignment| < |s.hosts| * c
    ensures exists id :: Eligible(s.hosts, id)
  {
    if forall id :: !Eligible(s.hosts, id) {
      var ks, used := s.hosts.Keys, UsedOf(s.hosts);
      forall id | id in ks
        ensures c <= used[id] <= c
      {
        assert !Eligible(s.hosts, id) && Listed(s.hosts, id);
      }
      SumOverBounds(ks, used, c, c);
      TotalUsed(s);
      assert false;
    }
  }

  /** What each Place in such a run does: the VM is new and the fleet has room, so it lands on
      the best eligible host. */
  lemma OnePlacement(s: State, c: int, vm: VMID)
    requires Inv(s) && Uniform(s, c) && vm !in s.assignment && |s.assignment| < |s.hosts| * c
    ensures var (s', r) := Place(s, vm);
      && r.Ok? && IsBestChoice(s.policy, s.hosts, r.value)
      && s'.hosts == s.hosts[r.value := s.hosts[r.value].(used := s.hosts[r.value].used + 1)]
      && Uniform(s', c) && s'.hosts.Keys == s.hosts.Keys && s'.policy == s.policy
      && s'.assignment.Keys == s.assignment.Keys + {vm}
      && |s'.assignment| == |s.assignment| + 1
  {
    hide Inv, Place, IsBestChoice, SelectHost, Reindex, Unindex;
    SlotsLeftMeansEligible(s, c);
    PlaceRefinesSearch(s, vm);
    PlaceTakesOneSlot(s, vm);
    var s' := Place(s, vm).0;
    assert s'.assignment.Keys == s.assignment.Keys + {vm};
    assert |s'.assignment.Keys| == |s'.assignment|;
  }

  /** An empty, uniform fleet and distinct VMs that all fit. */
  ghost predicate Fits(s: State, c: int, vms: seq<VMID>) {
    && Inv(s) && Uniform(s, c) && c >= MIN_SLOTS_PER_HOST
    && s.assignment == map[]
    && NoDup(vms) && |vms| <= |s.hosts| * c
  }

  lemma {:induction false} EveryCallPlaces(s: State, c: int, vms: seq<VMID>)
    requires Fits(s, c, vms)
    ensures var t := PlaceAll(s, vms);
      && Uniform(t, c) && t.hosts.Keys == s.hosts.Keys && t.policy == s.policy
      && t.assignment.Keys == Elements(vms) && |t.assignment| == |vms|
  {
    hide Inv, Uniform, Place;
    if vms == [] {
    } else {
      var front, vm := vms[..|vms| - 1], vms[|vms| - 1];
      EveryCallPlaces(s, c, front);
      OnePlacement(PlaceAll(s, front), c, vm);
      OneMoreElement(vms, |front|);
      assert vms[..|front| + 1] == vms;
    }
  }

  // ------------------------------------------------------------------ best fit

  ghost predicate OnePartlyFull(s: State) {
    forall a, b :: a in PartlyFull(s) && b in PartlyFull(s) ==> a == b
  }

  /** If any host is partly full, best fit chooses it. */
  lemma PartlyFullIsChosen(s: State, c: int, id: HostID, a: HostID)
    requires Inv(s) && Uniform(s, c) && IsBestChoice(BestFit, s.hosts, id)
    requires OnePartlyFull(s) && a in PartlyFull(s)
    ensures a == id
  {
    assert Eligible(s.hosts, a);
    hide Inv;
    assert s.hosts[id].Free() <= s.hosts[a].Free() < c;
    assert id in PartlyFull(s);
  }

  lemma BestFitStep(s: State, c: int, vm: VMID)
    requires Inv(s) && Uniform(s, c) && s.policy == BestFit && c >= 1
    requires vm !in s.assignment && |s.assignment| < |s.hosts| * c
    requires OnePartlyFull(s)
    ensures OnePartlyFull(Place(s, vm).0)
  {
    OnePlacement(s, c, vm);
    var (s', r) := Place(s, vm);
    hide Inv, Place, IsBestChoice, OnePartlyFull;
    forall a | a in PartlyFull(s) && a in PartlyFull(s')
      ensures a == r.value
    {
      PartlyFullIsChosen(s, c, r.value, a);
    }
    OneIsEnough(s', r.value);
  }

  lemma OneIsEnough(s: State, id: HostID)
    requires forall a :: a in PartlyFull(s) ==> a == id
    ensures OnePartlyFull(s)
  {
  }

  lemma {:induction false} BestFitFillsOneAtATime(s: State, c: int, vms: seq<VMID>)
    requires Fits(s, c, vms) && s.policy == BestFit
    ensures OnePartlyFull(PlaceAll(s, vms))
  {
    if vms == [] {
      forall id | id in s.hosts
        ensures s.hosts[id].used == 0
      {
        assert VMsOn(s.assignment, id) == {};
      }
    } else {
      var front := vms[..|vms| - 1];
      EveryCallPlaces(s, c, front);
      BestFitFillsOneAtATime(s, c, front);
      BestFitStep(PlaceAll(s, front), c, vms[|vms| - 1]);
    }
  }

  /** Full hosts hold c each and idle ones none, so the placed VMs fix how many of each there are. */
  lemma SlotsByKind(s: State, c: int)
    requires Inv(s) && Uniform(s, c) && c >= 1
    ensures |s.hosts| == |Idle(s)| + |Full(s)| + |PartlyFull(s)|
    ensures c * |Full(s)| + |PartlyFull(s)| <= |s.assignment| <= c * |Full(s)| + (c - 1) * |PartlyFull(s)|
  {
    VMsByKind(s, c);
    SlotsOfIdleAndFull(s, c);
    SlotsOfPartlyFull(s, c);
    hide *;
  }

  lemma SlotsOfIdleAndFull(s: State, c: int)
    requires Inv(s) && Uniform(s, c) && c >= 1
    ensures Idle(s) + Full(s) <= UsedOf(s.hosts).Keys
    ensures SumOver(Idle(s), UsedOf(s.hosts)) == 0 && SumOver(Full(s), UsedOf(s.hosts)) == c * |Full(s)|
  {
    SlotsInRangeOf(s, c);
    var used := UsedOf(s.hosts);
    assert forall id :: id in Full(s) ==> used[id] == c;
    assert forall id :: id in Idle(s) ==> used[id] == 0;
    hide *;
    SumOverZero(Idle(s), used);
    SumOverBounds(Full(s), used, c, c);
  }

  lemma SlotsOfPartlyFull(s: State, c: int)
    requires Inv(s) && Uniform(s, c) && c >= 1
    ensures PartlyFull(s) <= UsedOf(s.hosts).Keys
    ensures |PartlyFull(s)| <= SumOver(PartlyFull(s), UsedOf(s.hosts)) <= (c - 1) * |PartlyFull(s)|
  {
    SlotsInRangeOf(s, c);
    assert forall id :: id in PartlyFull(s) ==> 1 <= UsedOf(s.hosts)[id] <= c - 1;
    hide *;
    SumOverBounds(PartlyFull(s), UsedOf(s.hosts), 1, c - 1);
  }

  lemma VMsByKind(s: State, c: int)
    requires Inv(s) && Uniform(s, c) && c >= 1
    ensures UsedOf(s.hosts).Keys == s.hosts.Keys == Idle(s) + Full(s) + PartlyFull(s)
    ensures |s.hosts| == |Idle(s)| + |Full(s)| + |PartlyFull(s)|
    ensures |s.assignment| == SumOver(Idle(s), UsedOf(s.hosts)) + SumOver(Full(s), UsedOf(s.hosts))
      + SumOver(PartlyFull(s), UsedOf(s.hosts))
  {
    var ks, used := s.hosts.Keys, UsedOf(s.hosts);
    var idle, full, part := Idle(s), Full(s), PartlyFull(s);
    TotalUsed(s);
    KindsPartition(s, c);
    assert |s.hosts| == |ks|;
    hide *;
    DisjointSize(idle, full + part);
    DisjointSize(full, part);
    SumOverSplit(ks, idle, used);
    SumOverSplit(full + part, full, used);
  }

  lemma KindsPartition(s: State, c: int)
    requires Inv(s) && Uniform(s, c) && c >= 1
    ensures s.hosts.Keys == Idle(s) + (Full(s) + PartlyFull(s)) && UsedOf(s.hosts).Keys == s.hosts.Keys
    ensures Idle(s) !! Full(s) + PartlyFull(s) && Full(s) !! PartlyFull(s)
    ensures s.hosts.Keys - Idle(s) == Full(s) + PartlyFull(s)
    ensures Full(s) + PartlyFull(s) - Full(s) == PartlyFull(s)
  {
    SlotsInRangeOf(s, c);
    hide Inv;
  }

  lemma SlotsInRangeOf(s: State, c: int)
    requires Inv(s) && Uniform(s, c)
    ensures forall id :: id in s.hosts ==> 0 <= s.hosts[id].used <= c
  {
  }

  lemma NeededExactly(m: int, c: int, full: int, part: int)
    requires c >= 2 && 0 <= part <= 1
    requires c * full + part <= m <= c * full + (c - 1) * part
    ensures HostsNeeded(m, c) == full + part
  {
    assert c * (full + part) == c * full + c * part;
    assert part == 0 || part == 1;
    DivideBetween(m + c - 1, c, full + part);
  }

  lemma DivideBetween(a: int, c: int, q: int)
    requires c > 0 && c * q <= a < c * q + c
    ensures a / c == q
  {
    DivisionIs(c, q, a - c * q);
  }

  /** However m VMs are spread over hosts of c slots, at least HostsNeeded(m, c) are in use. */
  lemma NoSpreadIsTighter(s: State, c: int)
    requires Inv(s) && Uniform(s, c) && c >= 1
    ensures |Idle(s)| <= |s.hosts| - HostsNeeded(|s.assignment|, c)
  {
    var ks, used, idle := s.hosts.Keys, UsedOf(s.hosts), Idle(s);
    var busy := ks - idle;
    TotalUsed(s);
    SlotsInRangeOf(s, c);
    assert used.Keys == ks && idle <= ks && |s.hosts| == |ks|;
    assert forall id :: id in idle ==> used[id] == 0;
    assert forall id :: id in busy ==> 0 <= used[id] <= c;
    hide *;
    SumOverSplit(ks, idle, used);
    SumOverBounds(idle, used, 0, 0);
    SumOverBounds(busy, used, 0, c);
    PartSize(ks, idle);
    AtMostBusy(c, |idle|, |busy|, SumOver(idle, used), SumOver(busy, used));
    DivideAtMost(|s.assignment|, c, |busy|);
  }

  lemma AtMostBusy(c: int, idle: nat, busy: nat, none: int, all: int)
    requires 0 * idle <= none <= 0 * idle && 0 * busy <= all <= c * busy
    ensures none + all <= c * busy
  {
  }

  lemma DivideAtMost(m: int, c: int, q: int)
    requires c > 0 && m <= c * q
    ensures HostsNeeded(m, c) <= q
  {
    Division(m + c - 1, c);
    AtMostMultiples(c, q, (m + c - 1) / c, c - 1);
  }

  /** Best fit leaves at most one host partly full and as many hosts idle as any assignment of
      the same number of VMs to the same fleet could. */
  lemma BestFitPackingIsOptimal(s: State, c: int, vms: seq<VMID>)
    requires Fits(s, c, vms) && s.policy == BestFit
    ensures var t := PlaceAll(s, vms);
      && |PartlyFull(t)| <= 1
      && |Idle(t)| == |s.hosts| - HostsNeeded(|vms|, c)
      && forall other :: Inv(other) && Uniform(other, c)
           && |other.hosts| == |s.hosts| && |other.assignment| == |vms|
           ==> |Idle(other)| <= |Idle(t)|
  {
    var t := PlaceAll(s, vms);
    EveryCallPlaces(s, c, vms);
    BestFitFillsOneAtATime(s, c, vms);
    AtMostOne(PartlyFull(t));
    SlotsByKind(t, c);
    NeededExactly(|vms|, c, |Full(t)|, |PartlyFull(t)|);
    assert |t.hosts.Keys| == |s.hosts.Keys|;
    forall other | Inv(other) && Uniform(other, c)
                   && |other.hosts| == |s.hosts| && |other.assignment| == |vms|
      ensures |Idle(other)| <= |Idle(t)|
    {
      NoSpreadIsTighter(other, c);
    }
  }

  lemma AtMostOne<T>(s: set<T>)
    requires forall a, b :: a in s && b in s ==> a == b
    ensures |s| <= 1
  {
    if s != {} {
      var a :| a in s;
      assert s == {a};
    }
  }

  // ----------------------------------------------------------------- worst fit

  /** No host holds two more VMs than another. */
  ghost predicate Level(s: State) {
    forall a, b :: a in s.hosts && b in s.hosts ==> s.hosts[a].used <= s.hosts[b].used + 1
  }

  lemma WorstFitStep(s: State, c: int, vm: VMID)
    requires Inv(s) && Uniform(s, c) && s.policy == WorstFit
    requires vm !in s.assignment && |s.assignment| < |s.hosts| * c
    requires Level(s)
    ensures Level(Place(s, vm).0)
  {
    OnePlacement(s, c, vm);
    var (s', r) := Place(s, vm);
    var id := r.value;
    forall b | b in s.hosts
      ensures s.hosts[id].used <= s.hosts[b].used
    {
      assert Listed(s.hosts, b);
      if Eligible(s.hosts, b) {
        assert s.hosts[b].Free() <= s.hosts[id].Free();
      }
    }
  }

  lemma {:induction false} WorstFitSpreadsLevel(s: State, c: int, vms: seq<VMID>)
    requires Fits(s, c, vms) && s.policy == WorstFit
    ensures Level(PlaceAll(s, vms))
  {
    if vms == [] {
      forall id | id in s.hosts
        ensures s.hosts[id].used == 0
      {
        assert VMsOn(s.assignment, id) == {};
      }
    } else {
      var front := vms[..|vms| - 1];
      EveryCallPlaces(s, c, front);
      WorstFitSpreadsLevel(s, c, front);
      WorstFitStep(PlaceAll(s, front), c, vms[|vms| - 1]);
    }
  }

  /** Worst fit keeps usage level, so a host stays idle only while VMs are fewer than hosts. */
  lemma WorstFitStrandsHosts(s: State, c: int, vms: seq<VMID>)
    requires Fits(s, c, vms) && s.policy == WorstFit
    ensures var t := PlaceAll(s, vms);
      && Level(t)
      && |Idle(t)| == if |vms| < |s.hosts| then |s.hosts| - |vms| else 0
  {
    var t := PlaceAll(s, vms);
    EveryCallPlaces(s, c, vms);
    WorstFitSpreadsLevel(s, c, vms);
    LevelIdleCount(t, c);
    assert |t.hosts.Keys| == |s.hosts.Keys|;
  }

  lemma LevelIdleCount(s: State, c: int)
    requires Inv(s) && Uniform(s, c) && Level(s)
    ensures |Idle(s)| == if |s.assignment| < |s.hosts| then |s.hosts| - |s.assignment| else 0
  {
    TotalUsed(s);
    SlotsInRangeOf(s, c);
    LevelZeroes(s.hosts.Keys, UsedOf(s.hosts), Idle(s));
  }

  /** In a level family of counts the zeroes number what the others, all ones, leave over. */
  lemma LevelZeroes(ks: set<HostID>, m: map<HostID, int>, zeroes: set<HostID>)
    requires ks <= m.Keys && forall k :: k in ks ==> 0 <= m[k]
    requires forall j, k :: j in ks && k in ks ==> m[j] <= m[k] + 1
    requires zeroes == set k | k in ks && m[k] == 0
    ensures |zeroes| == if SumOver(ks, m) < |ks| then |ks| - SumOver(ks, m) else 0
  {
    if zeroes == {} {
      SumOverAtLeast(ks, m, 1);
    } else {
      var zero :| zero in zeroes;
      assert forall j :: j in ks ==> m[j] <= m[zero] + 1;
      var ones := ks - zeroes;
      SumOverSplit(ks, zeroes, m);
      SumOverBounds(zeroes, m, 0, 0);
      SumOverBounds(ones, m, 1, 1);
      PartSize(ks, zeroes);
      ZeroesAndOnes(|zeroes|, |ones|, SumOver(zeroes, m), SumOver(ones, m));
    }
  }

  lemma ZeroesAndOnes(zeroes: nat, ones: nat, none: int, all: int)
    requires 0 * zeroes <= none <= 0 * zeroes && 1 * ones <= all <= 1 * ones
    ensures none == 0 && all == ones
  {
  }

  lemma {:induction false} SumOverAtLeast(ks: set<HostID>, m: map<HostID, int>, lo: int)
    requires ks <= m.Keys && forall k :: k in ks ==> lo <= m[k]
    ensures lo * |ks| <= SumOver(ks, m)
  {
    if ks == {} {
    } else {
      var k :| k in ks;
      SumOverRemove(ks, m, k);
      SumOverAtLeast(ks - {k}, m, lo);
      TimesOneMore(lo, |ks - {k}|);
    }
  }
}
