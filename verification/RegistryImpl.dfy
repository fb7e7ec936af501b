/** The registry object driving the scheduler (internal/registry/registry.go). Each method is
    proved to do to View() exactly what its RegistrySpec function says, whatever order the
    maps are walked in. */
module RegistryImpl {
  import opened Common
  import opened SchedulerSpec
  import opened SchedulerImpl
  import opened RegistrySpec

  /** The scheduler's own Place and Release are moves the registry's runs allow. */
  lemma PlacementIsAnOp(s: State, vm: VMID, v: View)
    requires Inv(s) && v.hosts == s.hosts && v.assignment == s.assignment
    ensures var (s', r) := SchedulerSpec.Place(s, vm);
      r.Ok? ==> PlaceOn(v, vm, r.value) == v.(hosts := s'.hosts, assignment := s'.assignment)
    ensures var s' := SchedulerSpec.Release(s, vm).0;
      ReleaseFrom(v, vm) == v.(hosts := s'.hosts, assignment := s'.assignment)
  {
    PlaceRefinesSearch(s, vm);
    if vm in s.assignment { ReleaseFreesOneSlot(s, vm); }
  }

  class Registry {
    const sched: Scheduler
    const timeout: int
    const notifies: bool
    var lastSeen: map<HostID, int>
    var address: map<HostID, string>
    var drainingSince: map<HostID, int>
    var orphaned: nat

    ghost predicate Valid()
      reads this, sched, sched.Repr()
    {
      this !in sched.Repr() && sched.Valid()
    }

    ghost function View(): View
      reads this, sched, sched.Repr()
    {
      var m := sched.Model();
      RegistrySpec.View(m.hosts, m.assignment, lastSeen, address, drainingSince, orphaned)
    }

    constructor (sched: Scheduler, timeout: int, notifies: bool)
      requires sched.Valid()
      ensures Valid() && this.sched == sched && this.timeout == timeout && this.notifies == notifies
      ensures View() == NOTHING.(hosts := sched.Model().hosts, assignment := sched.Model().assignment)
    {
      this.sched := sched;
      this.timeout := timeout;
      this.notifies := notifies;
      lastSeen, address, drainingSince, orphaned := map[], map[], map[], 0;
    }

    /** Adds a host and marks it ready, or refreshes one already tracked. Announced says whether
        the notifier was told that capacity may have appeared. */
    method Register(id: HostID, capacity: int, addr: string, now: int)
      returns (err: Option<RegistryError>, announced: bool)
      requires Valid()
      modifies this, sched.Repr()
      ensures Valid() && fresh(sched.Repr() - old(sched.Repr()))
      ensures (View(), err) == RegistrySpec.Register(old(View()), id, capacity, addr, now)
      ensures err == Some(ErrEmptyHost) <==> id == HostID("")
      ensures err == None <==> id != HostID("") && (id in old(lastSeen) || capacity >= 2)
      ensures lastSeen ==
        if err == None then old(lastSeen)[id := now]
        else if err == Some(ErrEmptyHost) then old(lastSeen) else old(lastSeen) - {id}
      ensures err == None && id !in old(lastSeen) ==>
        && id in sched.Model().hosts && sched.Model().hosts[id].state == Ready
        && (id !in old(sched.Model().hosts) ==> sched.Model().hosts[id] == HostRec(capacity, 0, Ready))
      ensures announced <==> notifies && err.None? && id !in old(lastSeen)
    {
      hide Inv, Scheduler.Separate;
      announced := false;
      if id == HostID("") {
        err := Some(ErrEmptyHost);
        return;
      }
      var known := id in lastSeen;
      lastSeen := lastSeen[id := now];
      if addr != "" {
        address := address[id := addr];
      }
      if known {
        err := None;
        return;
      }
      err := Admit(id, capacity);
      announced := notifies && err.None?;
    }

    /** Gives the scheduler a host just noted as tracked, and forgets it again if refused. */
    method Admit(id: HostID, capacity: int) returns (err: Option<RegistryError>)
      requires Valid()
      modifies this, sched.Repr()
      ensures Valid() && fresh(sched.Repr() - old(sched.Repr()))
      ensures var v := old(View());
        if capacity < MIN_SLOTS_PER_HOST then
          && err == Some(ErrScheduler(ErrInvalidCapacity))
          && View() == v.(lastSeen := v.lastSeen - {id}, address := v.address - {id})
        else
          var h := if id in v.hosts then v.hosts[id] else HostRec(capacity, 0, Pending);
          err == None && View() == v.(hosts := v.hosts[id := h.(state := Ready)])
    {
      hide Inv, Scheduler.Separate;
      var added := AddReady(id, capacity);
      if added.Some? {
        lastSeen := lastSeen - {id};
        address := address - {id};
        return Some(ErrScheduler(added.value));
      }
      return None;
    }

    /** Adds the host if the scheduler does not have it, and marks it ready. */
    method AddReady(id: HostID, capacity: int) returns (err: Option<Error>)
      requires sched.Valid()
      modifies sched.Repr()
      ensures sched.Valid() && fresh(sched.Repr() - old(sched.Repr()))
      ensures err == if capacity < MIN_SLOTS_PER_HOST then Some(ErrInvalidCapacity) else None
      ensures sched.Model().assignment == old(sched.Model().assignment)
      ensures var hosts := old(sched.Model().hosts);
        var h := if id in hosts then hosts[id] else HostRec(capacity, 0, Pending);
        sched.Model().hosts == if err.None? then hosts[id := h.(state := Ready)] else hosts
    {
      hide Inv, Scheduler.Separate, HostsView, BucketsView, SchedulerSpec.AddHost, SchedulerSpec.SetHostState;
      AddHostAddsPending(sched.Model(), id, capacity);
      var added := sched.AddHost(id, capacity);
      if added.Some? && added != Some(ErrDuplicateHost) {
        return added;
      }
      SetHostStateSetsState(sched.Model(), id, Ready);
      err := sched.SetHostState(id, Ready);
    }

    method Heartbeat(id: HostID, now: int) returns (err: Option<RegistryError>)
      requires Valid()
      modifies this`lastSeen
      ensures Valid()
      ensures (View(), err) == RegistrySpec.Heartbeat(old(View()), id, now)
      ensures err == if id in old(lastSeen) then None else Some(ErrUnregistered)
      ensures lastSeen == if err == None then old(lastSeen)[id := now] else old(lastSeen)
    {
      hide Inv;
      if id !in lastSeen {
        return Some(ErrUnregistered);
      }
      lastSeen := lastSeen[id := now];
      return None;
    }

    method Deregister(id: HostID, now: int) returns (err: Option<RegistryError>)
      requires Valid()
      modifies this, sched.Repr()
      ensures Valid() && fresh(sched.Repr() - old(sched.Repr()))
      ensures (View(), err) == RegistrySpec.Deregister(old(View()), id, now)
      ensures err == Some(ErrUnregistered) <==> id !in old(lastSeen)
      ensures err == None <==> id in old(lastSeen) && id in old(sched.Model().hosts)
      ensures lastSeen == old(lastSeen) - {id} && address == old(address) - {id}
      ensures drainingSince == if id in old(lastSeen) then old(drainingSince)[id := now] else old(drainingSince)
      ensures err == None ==> id in sched.Model().hosts && sched.Model().hosts[id].state == Draining
    {
      hide Inv, Scheduler.Separate, SchedulerSpec.SetHostState;
      ghost var before := sched.Model();
      var known := id in lastSeen;
      lastSeen := lastSeen - {id};
      address := address - {id};
      if !known {
        return Some(ErrUnregistered);
      }
      drainingSince := drainingSince[id := now];
      SetHostStateSetsState(before, id, Draining);
      var drained := sched.SetHostState(id, Draining);
      return if drained.Some? then Some(ErrScheduler(drained.value)) else None;
    }

    /** Drains silent hosts, then removes those that are empty or have been draining too long.
        The two readings of the clock are parameters. */
    method Sweep(now: int, reapNow: int) returns (n: nat)
      requires Valid()
      modifies this, sched.Repr()
      ensures Valid() && fresh(sched.Repr() - old(sched.Repr()))
      ensures (View(), n) == RegistrySpec.Sweep(old(View()), now, reapNow, timeout)
    {
      hide Inv, Scheduler.Valid, Scheduler.Separate, DrainForgotten, Reap, Expired;
      ghost var v := View();
      var expired := CollectExpired(now);
      n := |expired|;
      ForgetAll(expired, now);
      UninterruptedSweepDrains(v, now, timeout);
      DrainExpired(expired, now);
      hide DrainSilent, ForgetSilent;
      ReapEmptyDrainingHosts(reapNow);
    }

    /** The silent hosts, each once. */
    method CollectExpired(now: int) returns (expired: seq<HostID>)
      ensures Elements(expired) == Expired(lastSeen, now, timeout)
      ensures |expired| == |Expired(lastSeen, now, timeout)|
    {
      expired := [];
      var left := lastSeen.Keys;
      while left != {}
        invariant left <= lastSeen.Keys && NoDup(expired)
        invariant forall id :: id in expired <==> id in lastSeen && id !in left && now - lastSeen[id] > timeout
        decreases |left|
      {
        var id :| id in left;
        if now - lastSeen[id] > timeout {
          expired := expired + [id];
        }
        left := left - {id};
      }
      NoDupSize(expired);
    }

    /** The half of a sweep that runs under the registry's lock. */
    method ForgetAll(expired: seq<HostID>, ghost now: int)
      requires Valid() && Elements(expired) == Expired(lastSeen, now, timeout)
      modifies this`lastSeen, this`address
      ensures Valid() && View() == ForgetSilent(old(View()), now, timeout)
    {
      hide Inv, Scheduler.Separate, Expired;
      Forget(expired);
    }

    method Forget(ids: seq<HostID>)
      modifies this`lastSeen, this`address
      ensures lastSeen == old(lastSeen) - Elements(ids) && address == old(address) - Elements(ids)
    {
      var i := 0;
      while i < |ids|
        invariant 0 <= i <= |ids|
        invariant lastSeen == old(lastSeen) - Elements(ids[..i]) && address == old(address) - Elements(ids[..i])
      {
        OneMoreElement(ids, i);
        lastSeen := lastSeen - {ids[i]};
        address := address - {ids[i]};
        i := i + 1;
      }
      assert ids[..i] == ids;
    }

    method DrainExpired(expired: seq<HostID>, now: int)
      requires Valid()
      modifies this`drainingSince, sched.Repr()
      ensures Valid() && sched.hosts == old(sched.hosts) && sched.buckets == old(sched.buckets)
      ensures View() == DrainForgotten(old(View()), Elements(expired), now)
    {
      hide Inv, Scheduler.Valid, Scheduler.Separate, DrainForgotten;
      ghost var v := View();
      DrainNone(v, now);
      assert Elements(expired[..0]) == {};
      var i := 0;
      while i < |expired|
        invariant 0 <= i <= |expired|
        invariant Valid() && sched.hosts == old(sched.hosts) && sched.buckets == old(sched.buckets)
        invariant View() == DrainForgotten(v, Elements(expired[..i]), now)
      {
        var id := expired[i];
        OneMoreElement(expired, i);
        DrainHost(id, now, v, Elements(expired[..i]));
        i := i + 1;
      }
      assert expired[..i] == expired;
    }

    method DrainHost(id: HostID, now: int, ghost v: View, ghost done: set<HostID>)
      requires Valid() && View() == DrainForgotten(v, done, now)
      modifies this`drainingSince, sched.Repr()
      ensures Valid() && sched.hosts == old(sched.hosts) && sched.buckets == old(sched.buckets)
      ensures View() == DrainForgotten(v, done + {id}, now)
    {
      hide Inv, Scheduler.Separate, SchedulerSpec.SetHostState, Drained, Stamped;
      DrainOneMore(v, done, id, now);
      SetHostStateSetsState(sched.Model(), id, Draining);
      var _ := sched.SetHostState(id, Draining);
      Stamp(id, now);
    }

    /** Records when the host began to drain, unless a time is recorded already. */
    method Stamp(id: HostID, now: int)
      requires Valid()
      modifies this`drainingSince
      ensures Valid()
      ensures drainingSince ==
        if id in old(drainingSince) then old(drainingSince) else old(drainingSince)[id := now]
    {
      hide Inv, Scheduler.Separate;
      if id !in drainingSince {
        drainingSince := drainingSince[id := now];
      }
    }

    method ReapEmptyDrainingHosts(now: int)
      requires Valid()
      modifies this`drainingSince, this`orphaned, sched.Repr()
      ensures Valid() && sched.Repr() <= old(sched.Repr())
      ensures View() == Reap(old(View()), now)
    {
      hide Inv, Scheduler.Valid, Reapable;
      ghost var v := View();
      var snapshot := sched.Hosts();
      ghost var ids := SnapshotIds(snapshot);
      assert ReapableAmong(v, ids, now) == set id | id in v.hosts && Reapable(v, id, now);
      ReapAll(snapshot, now, v);
    }

    /** Goes through a snapshot of v. */
    method ReapAll(snapshot: seq<HostSnapshot>, now: int, ghost v: View)
      requires Valid() && View() == v && NoDup(SnapshotIds(snapshot))
      requires forall i :: 0 <= i < |snapshot| ==>
        snapshot[i].id in v.hosts && snapshot[i].Rec() == v.hosts[snapshot[i].id]
      modifies this`drainingSince, this`orphaned, sched.Repr()
      ensures Valid() && sched.Repr() <= old(sched.Repr())
      ensures View() == RemoveAll(v, ReapableAmong(v, SnapshotIds(snapshot), now))
    {
      hide Inv, Scheduler.Valid, HostsView, BucketsView, RemoveAll, Reapable;
      ghost var ids := SnapshotIds(snapshot);
      RemoveNone(v);
      assert ReapableAmong(v, ids[..0], now) == {};
      var i := 0;
      while i < |snapshot|
        invariant 0 <= i <= |snapshot|
        invariant Valid() && sched.Repr() <= old(sched.Repr())
        invariant View() == RemoveAll(v, ReapableAmong(v, ids[..i], now))
      {
        OneMoreReapable(v, ids, i, now);
        ReapOne(snapshot[i], now, v, ReapableAmong(v, ids[..i], now));
        i := i + 1;
      }
      assert ids[..i] == ids;
    }

    ghost function ReapableAmong(v: View, ids: seq<HostID>, now: int): set<HostID> {
      set id | id in ids && Reapable(v, id, now)
    }

    lemma OneMoreReapable(v: View, ids: seq<HostID>, i: nat, now: int)
      requires i < |ids| && NoDup(ids)
      ensures ids[i] !in ReapableAmong(v, ids[..i], now)
      ensures ReapableAmong(v, ids[..i + 1], now) ==
        if Reapable(v, ids[i], now) then ReapableAmong(v, ids[..i], now) + {ids[i]} else ReapableAmong(v, ids[..i], now)
    {
      hide Reapable;
      assert ids[..i + 1] == ids[..i] + [ids[i]];
    }

    method ReapOne(h: HostSnapshot, now: int, ghost v: View, ghost gone: set<HostID>)
      requires Valid() && View() == RemoveAll(v, gone) && h.id !in gone
      requires h.id in v.hosts && h.Rec() == v.hosts[h.id]
      modifies this`drainingSince, this`orphaned, sched.Repr()
      ensures Valid() && sched.Repr() <= old(sched.Repr())
      ensures View() == RemoveAll(v, if Reapable(v, h.id, now) then gone + {h.id} else gone)
    {
      hide Inv, Scheduler.Valid, Scheduler.Separate, SchedulerSpec.RemoveHost, RemoveAll;
      StillThere(v, gone, h.id);
      if h.state == Draining && h.id !in lastSeen
         && !(h.used != 0 && h.id in drainingSince && now - drainingSince[h.id] < FORCE_REMOVE_AFTER) {
        Remove(h.id, v, gone);
      }
    }

    method Remove(id: HostID, ghost v: View, ghost gone: set<HostID>)
      requires Valid() && View() == RemoveAll(v, gone) && id !in gone && id in View().hosts
      modifies this`drainingSince, this`orphaned, sched.Repr()
      ensures Valid() && sched.Repr() <= old(sched.Repr())
      ensures View() == RemoveAll(v, gone + {id})
    {
      hide Inv, Scheduler.Valid, RemoveAll, HostsView, BucketsView;
      RemoveOneMore(v, gone, id);
      var guests := Evict(id);
      if |guests| > 0 {
        orphaned := orphaned + |guests|;
      }
      drainingSince := drainingSince - {id};
    }

    method Evict(id: HostID) returns (guests: seq<VMID>)
      requires sched.Valid() && id in sched.Model().hosts
      modifies sched.Repr()
      ensures sched.Valid() && sched.Repr() <= old(sched.Repr())
      ensures sched.Model().hosts == old(sched.Model().hosts) - {id}
      ensures sched.Model().assignment == old(sched.Model().assignment - VMsOn(sched.Model().assignment, id))
      ensures |guests| == old(|VMsOn(sched.Model().assignment, id)|)
    {
      hide Inv, Scheduler.Separate, SchedulerSpec.RemoveHost;
      RemoveHostEvicts(sched.Model(), id);
      var orphans, err := sched.RemoveHost(id);
      NoDupSize(orphans);
      return orphans;
    }
  }
}
