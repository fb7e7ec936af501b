/** What a Stats snapshot means, and how its totals relate to the assignments
    (internal/scheduler/scheduler.go). */
module FleetStats {
  import opened Common
  import opened SchedulerSpec

  datatype Stats = Stats(
    hosts: int,
    readyHosts: int,
    drainingHosts: int,
    idleHosts: int,
    underfilledHosts: int,
    capacity: int,
    used: int,
    inflightVMs: int)
  {
    function Utilisation(): real {
      if capacity == 0 then 0.0 else used as real / capacity as real
    }
  }

  ghost function ReadyWith(hosts: Hosts, used: int): set<HostID> {
    set id | id in hosts && hosts[id].state == Ready && hosts[id].used == used
  }

  ghost function UsedOf(hosts: Hosts): map<HostID, int> {
    map id | id in hosts :: hosts[id].used
  }

  ghost function CapacityOf(hosts: Hosts): map<HostID, int> {
    map id | id in hosts :: hosts[id].capacity
  }

  /** The snapshot's host counts and totals, over the hosts in ks. */
  ghost predicate Tallies(hosts: Hosts, ks: set<HostID>, out: Stats)
    requires ks <= hosts.Keys
  {
    && out.readyHosts == |InState(hosts, Ready) * ks|
    && out.drainingHosts == |InState(hosts, Draining) * ks|
    && out.idleHosts == |ReadyWith(hosts, 0) * ks|
    && out.underfilledHosts == |ReadyWith(hosts, 1) * ks|
    && out.capacity == SumOver(InState(hosts, Ready) * ks, CapacityOf(hosts))
    && out.used == SumOver(ks, UsedOf(hosts))
  }

  ghost predicate Describes(s: State, out: Stats) {
    && out.hosts == |s.hosts|
    && out.inflightVMs == |s.assignment|
    && Tallies(s.hosts, s.hosts.Keys, out)
  }

  lemma TallyNothing(hosts: Hosts, out: Stats)
    requires out.readyHosts == out.drainingHosts == out.idleHosts == out.underfilledHosts == 0
    requires out.capacity == out.used == 0
    ensures Tallies(hosts, {}, out)
  {
    assert forall a: set<HostID> :: a * {} == {};
  }

  /** What one more host adds to the totals. */
  ghost function CountHost(out: Stats, h: HostRec): (more: Stats)
    ensures more.hosts == out.hosts && more.inflightVMs == out.inflightVMs
  {
    var ready := h.state == Ready;
    out.(
      readyHosts := out.readyHosts + if ready then 1 else 0,
      drainingHosts := out.drainingHosts + if h.state == Draining then 1 else 0,
      idleHosts := out.idleHosts + if ready && h.used == 0 then 1 else 0,
      underfilledHosts := out.underfilledHosts + if ready && h.used == 1 then 1 else 0,
      capacity := out.capacity + if ready then h.capacity else 0,
      used := out.used + h.used)
  }

  /** Walking one more host adds its slots, and one to each count it belongs to. */
  lemma CountOneMore(hosts: Hosts, ks: set<HostID>, id: HostID, out: Stats)
    requires ks <= hosts.Keys && id in hosts && id !in ks && Tallies(hosts, ks, out)
    ensures Tallies(hosts, ks + {id}, CountHost(out, hosts[id]))
  {
    InStateOneMore(hosts, ks, id, Ready);
    InStateOneMore(hosts, ks, id, Draining);
    ReadyWithOneMore(hosts, ks, id, 0);
    ReadyWithOneMore(hosts, ks, id, 1);
    CapacityOfOneMore(hosts, ks, id);
    hide InState, ReadyWith, CapacityOf, SumOver;
    SumOverRemove(ks + {id}, UsedOf(hosts), id);
    assert ks + {id} - {id} == ks;
  }

  lemma InStateOneMore(hosts: Hosts, ks: set<HostID>, id: HostID, state: HostState)
    requires id in hosts && id !in ks
    ensures |InState(hosts, state) * (ks + {id})| ==
      |InState(hosts, state) * ks| + if hosts[id].state == state then 1 else 0
  {
    AddToIntersection(InState(hosts, state), ks, id);
  }

  lemma ReadyWithOneMore(hosts: Hosts, ks: set<HostID>, id: HostID, used: int)
    requires id in hosts && id !in ks
    ensures |ReadyWith(hosts, used) * (ks + {id})| ==
      |ReadyWith(hosts, used) * ks| + if hosts[id].state == Ready && hosts[id].used == used then 1 else 0
  {
    AddToIntersection(ReadyWith(hosts, used), ks, id);
  }

  lemma CapacityOfOneMore(hosts: Hosts, ks: set<HostID>, id: HostID)
    requires ks <= hosts.Keys && id in hosts && id !in ks
    ensures SumOver(InState(hosts, Ready) * (ks + {id}), CapacityOf(hosts)) ==
      SumOver(InState(hosts, Ready) * ks, CapacityOf(hosts))
      + if hosts[id].state == Ready then hosts[id].capacity else 0
  {
    var more := InState(hosts, Ready) * (ks + {id});
    if hosts[id].state == Ready {
      SumOverRemove(more, CapacityOf(hosts), id);
      assert more - {id} == InState(hosts, Ready) * ks;
    } else {
      assert more == InState(hosts, Ready) * ks;
    }
  }

  lemma AddToIntersection(a: set<HostID>, ks: set<HostID>, id: HostID)
    requires id !in ks
    ensures id in a ==> |a * (ks + {id})| == |a * ks| + 1
    ensures id !in a ==> a * (ks + {id}) == a * ks
  {
    if id in a {
      assert a * (ks + {id}) == a * ks + {id};
    }
  }

  lemma {:induction false} UsedCountsAssignments(s: State, ks: set<HostID>)
    requires Inv(s) && ks <= s.hosts.Keys
    ensures SumOver(ks, UsedOf(s.hosts)) == |Residents(s.assignment, ks)|
  {
    if ks == {} {
      assert Residents(s.assignment, ks) == {};
    } else {
      var id :| id in ks;
      assert UsedOf(s.hosts)[id] == |VMsOn(s.assignment, id)|;
      hide Inv, UsedOf, SumOver;
      SumOverRemove(ks, UsedOf(s.hosts), id);
      UsedCountsAssignments(s, ks - {id});
      OneMoreResident(s.assignment, ks, id);
    }
  }

  lemma OneMoreResident(assignment: map<VMID, HostID>, ks: set<HostID>, id: HostID)
    requires id in ks
    ensures |Residents(assignment, ks)| == |Residents(assignment, ks - {id})| + |VMsOn(assignment, id)|
  {
    assert Residents(assignment, ks) == Residents(assignment, ks - {id}) + VMsOn(assignment, id);
  }

  /** Occupied slots over all hosts are exactly the placed VMs. */
  lemma TotalUsed(s: State)
    requires Inv(s)
    ensures SumOver(s.hosts.Keys, UsedOf(s.hosts)) == |s.assignment|
  {
    UsedCountsAssignments(s, s.hosts.Keys);
    assert Residents(s.assignment, s.hosts.Keys) == s.assignment.Keys;
  }

  lemma UsedEqualsInflight(s: State, out: Stats)
    requires Inv(s) && Describes(s, out)
    ensures out.used == out.inflightVMs
  {
    TotalUsed(s);
  }

  /** Used counts every host while Capacity counts ready ones only, so Utilisation is the
      occupied fraction of ready slots exactly when no other host holds a guest. */
  lemma UtilisationIsReadyFraction(s: State, out: Stats)
    requires Inv(s) && Describes(s, out) && out.capacity > 0
    ensures out.Utilisation() == SumOver(InState(s.hosts, Ready), UsedOf(s.hosts)) as real / out.capacity as real
      <==> forall id :: id in s.hosts && s.hosts[id].state != Ready ==> s.hosts[id].used == 0
    ensures SumOver(InState(s.hosts, Ready), UsedOf(s.hosts)) <= out.capacity
  {
    var ready, used := InState(s.hosts, Ready), UsedOf(s.hosts);
    SumOverDominated(ready, used, CapacityOf(s.hosts));
    assert ready <= CapacityOf(s.hosts).Keys;
    UsedByOthers(s);
    TotalsOf(s, out);
    EqualFractions(out, SumOver(ready, used));
    hide *;
  }

  lemma TotalsOf(s: State, out: Stats)
    requires Describes(s, out)
    ensures out.used == SumOver(s.hosts.Keys, UsedOf(s.hosts))
    ensures out.capacity == SumOver(InState(s.hosts, Ready), CapacityOf(s.hosts))
  {
    assert InState(s.hosts, Ready) * s.hosts.Keys == InState(s.hosts, Ready);
  }

  /** All slots in use are on ready hosts exactly when no other host is in use. */
  lemma UsedByOthers(s: State)
    requires Inv(s)
    ensures InState(s.hosts, Ready) <= s.hosts.Keys == UsedOf(s.hosts).Keys
    ensures SumOver(s.hosts.Keys, UsedOf(s.hosts)) == SumOver(InState(s.hosts, Ready), UsedOf(s.hosts))
      <==> forall id :: id in s.hosts && s.hosts[id].state != Ready ==> s.hosts[id].used == 0
  {
    var ready, used := InState(s.hosts, Ready), UsedOf(s.hosts);
    SumOverSplit(s.hosts.Keys, ready, used);
    SumOverZero(s.hosts.Keys - ready, used);
    assert (forall id :: id in s.hosts.Keys - ready ==> used[id] == 0)
      <==> forall id :: id in s.hosts && s.hosts[id].state != Ready ==> s.hosts[id].used == 0;
  }

  ghost function FreeOf(hosts: Hosts): map<HostID, int> {
    map id | id in hosts :: hosts[id].Free()
  }

  /** The placed VMs whose host is not ready. */
  ghost function LeftBehind(s: State): set<VMID> {
    Residents(s.assignment, s.hosts.Keys - InState(s.hosts, Ready))
  }

  /** Utilisation exceeds one exactly when there is ready capacity and more VMs are on hosts that are
      not ready than there are free slots on hosts that are. */
  lemma UtilisationExceedsOneExactlyWhen(s: State, out: Stats)
    requires Inv(s) && Describes(s, out)
    ensures InState(s.hosts, Ready) <= FreeOf(s.hosts).Keys
    ensures out.Utilisation() > 1.0 <==>
      InState(s.hosts, Ready) != {} && |LeftBehind(s)| > SumOver(InState(s.hosts, Ready), FreeOf(s.hosts))
  {
    var ready, used := InState(s.hosts, Ready), UsedOf(s.hosts);
    UsedCountsAssignments(s, s.hosts.Keys - ready);
    SumOverSplit(s.hosts.Keys, ready, used);
    FreeIsTheRest(s.hosts, ready);
    ReadyCapacity(s);
    TotalsOf(s, out);
    AboveOne(out);
    hide *;
  }

  lemma {:induction false} FreeIsTheRest(hosts: Hosts, ks: set<HostID>)
    requires ks <= hosts.Keys
    ensures SumOver(ks, CapacityOf(hosts)) == SumOver(ks, UsedOf(hosts)) + SumOver(ks, FreeOf(hosts))
  {
    if ks == {} {
    } else {
      var k :| k in ks;
      SumOverRemove(ks, CapacityOf(hosts), k);
      SumOverRemove(ks, UsedOf(hosts), k);
      SumOverRemove(ks, FreeOf(hosts), k);
      FreeIsTheRest(hosts, ks - {k});
    }
  }

  lemma ReadyCapacity(s: State)
    requires Inv(s)
    ensures InState(s.hosts, Ready) <= CapacityOf(s.hosts).Keys
    ensures SumOver(InState(s.hosts, Ready), CapacityOf(s.hosts)) >= 0
    ensures SumOver(InState(s.hosts, Ready), CapacityOf(s.hosts)) > 0 <==> InState(s.hosts, Ready) != {}
  {
    var ready, capacity := InState(s.hosts, Ready), CapacityOf(s.hosts);
    SumOverZero(ready, capacity);
    if ready != {} {
      var id :| id in ready;
      assert capacity[id] >= MIN_SLOTS_PER_HOST;
    }
  }

  lemma AboveOne(out: Stats)
    requires out.capacity >= 0
    ensures out.Utilisation() > 1.0 <==> out.used > out.capacity > 0
  {
    if out.capacity > 0 {
      var c, q := out.capacity as real, out.Utilisation();
      assert q * c == out.used as real;
      assert (q - 1.0) * c == q * c - c;
      SignOfProduct(q - 1.0, c);
    }
  }

  lemma SignOfProduct(a: real, b: real)
    requires b > 0.0
    ensures a * b > 0.0 <==> a > 0.0
  {
  }

  lemma EqualFractions(out: Stats, used: int)
    requires out.capacity > 0
    ensures out.Utilisation() == used as real / out.capacity as real <==> out.used == used
  {
    var c, q, r := out.capacity as real, out.Utilisation(), used as real / out.capacity as real;
    assert q * c == out.used as real && r * c == used as real;
    assert q == r ==> q * c == r * c;
  }

  lemma {:induction false} SumOverDominated(ks: set<HostID>, m: map<HostID, int>, m': map<HostID, int>)
    requires ks <= m.Keys && ks <= m'.Keys
    requires forall k :: k in ks ==> m[k] <= m'[k]
    ensures SumOver(ks, m) <= SumOver(ks, m')
  {
    if ks == {} {
    } else {
      var k :| k in ks;
      SumOverRemove(ks, m, k);
      SumOverRemove(ks, m', k);
      SumOverDominated(ks - {k}, m, m');
    }
  }

  // Three guests on a draining host of three slots, beside an empty ready host of two.
  const OVERCOMMITTED: State :=
    State(
      BestFit,
      map[HostID("a") := HostRec(3, 3, Draining), HostID("b") := HostRec(2, 0, Ready)],
      map[VMID("1") := HostID("a"), VMID("2") := HostID("a"), VMID("3") := HostID("a")],
      [[], [], [HostID("b")], []],
      3)

  lemma OvercommittedIsValid()
    ensures Inv(OVERCOMMITTED)
  {
    var s, a, b := OVERCOMMITTED, HostID("a"), HostID("b");
    assert a.name[0] != b.name[0];
    var v, w, x := VMID("1"), VMID("2"), VMID("3");
    assert v.name[0] == '1' && w.name[0] == '2' && x.name[0] == '3';
    assert VMsOn(s.assignment, a) == {v, w, x};
    assert VMsOn(s.assignment, b) == {};
    assert forall k :: 0 <= k < 4 ==> Lists(s.hosts, s.buckets[k], k);
  }

  /** With guests left on a draining host the reported utilisation can exceed one. */
  lemma UtilisationCanExceedOne(out: Stats)
    requires Describes(OVERCOMMITTED, out)
    ensures Inv(OVERCOMMITTED) && out.Utilisation() == 1.5
  {
    OvercommittedIsValid();
    OvercommittedCounts();
    UsedEqualsInflight(OVERCOMMITTED, out);
    hide Inv;
    var ready, capacity := {HostID("b")}, CapacityOf(OVERCOMMITTED.hosts);
    SumOverRemove(ready, capacity, HostID("b"));
    assert ready - {HostID("b")} == {};
    assert out.used == 3 && out.capacity == 2;
  }

  lemma OvercommittedCounts()
    ensures |OVERCOMMITTED.assignment| == 3
    ensures InState(OVERCOMMITTED.hosts, Ready) * OVERCOMMITTED.hosts.Keys == {HostID("b")}
  {
    var v, w, x := VMID("1"), VMID("2"), VMID("3");
    assert v.name[0] == '1' && w.name[0] == '2' && x.name[0] == '3';
    assert OVERCOMMITTED.assignment.Keys == {v, w, x};
    assert HostID("a").name[0] != HostID("b").name[0];
  }
}
