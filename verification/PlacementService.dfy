/** The parts of placement.Service that loop over its own fields, run without interference:
    the boot retry, the shutdown drain, and the release that wakes a waiter
    (internal/placement/service.go). */
module PlacementService {
  import opened Common
  import opened SchedulerSpec
  import opened SchedulerImpl
  import opened PlacementProtocol

  /** A request in the admission queue and what has been sent on its result channel. */
  class Pending {
    const vm: VMID
    var result: seq<Verdict>

    constructor (vm: VMID)
      ensures this.vm == vm && result == []
    {
      this.vm := vm;
      result := [];
    }
  }

  class Server {
    const sched: Scheduler
    var queue: seq<Pending>
    var freed: bool
    var released: nat
    var bootFailed: nat

    constructor (sched: Scheduler)
      ensures this.sched == sched && queue == [] && !freed && released == bootFailed == 0
    {
      this.sched := sched;
      queue := [];
      freed := false;
      released, bootFailed := 0, 0;
    }

    /** A send that is dropped when the one-slot channel is already full. */
    method SignalCapacity()
      modifies this`freed
      ensures freed
    {
      if !freed {
        freed := true;
      }
    }

    method ReleaseVM(vm: VMID) returns (err: Option<Error>)
      requires sched.Valid() && this !in sched.Repr()
      modifies this`freed, this`released, sched.Repr()
      ensures sched.Valid() && fresh(sched.Repr() - old(sched.Repr()))
      ensures (sched.Model(), err) == Release(old(sched.Model()), vm)
      ensures err.Some? ==> released == old(released) && freed == old(freed)
      ensures err.None? ==> released == old(released) + 1 && freed
    {
      hide Inv, Release;
      err := sched.Release(vm);
      if err.Some? {
        return;
      }
      released := released + 1;
      SignalCapacity();
    }

    /** Releases a VM, whatever the scheduler says, and signals. */
    method GiveBack(vm: VMID)
      requires sched.Valid() && this !in sched.Repr()
      modifies this`freed, sched.Repr()
      ensures sched.Valid() && sched.Repr() == old(sched.Repr())
      ensures sched.Model() == Release(old(sched.Model()), vm).0 && freed
    {
      hide Inv, Release;
      var _ := sched.Release(vm);
      SignalCapacity();
    }

    /** Fails every queued request, in order, each exactly once. */
    method Drain()
      requires NoDup(queue) && this as object !in queue
      modifies this`queue, queue
      ensures queue == []
      ensures forall i :: 0 <= i < |old(queue)| ==>
        old(queue)[i].result == old(queue[i].result) + [Refused(ShuttingDown)]
    {
      ghost var n := 0;
      while queue != []
        invariant 0 <= n <= |old(queue)| && queue == old(queue)[n..]
        invariant forall i :: 0 <= i < n ==>
          old(queue)[i].result == old(queue[i].result) + [Refused(ShuttingDown)]
        invariant forall i :: n <= i < |old(queue)| ==> old(queue)[i].result == old(queue[i].result)
        decreases |queue|
      {
        var p := queue[0];
        assert p == old(queue)[n];
        queue := queue[1..];
        p.result := p.result + [Refused(ShuttingDown)];
        n := n + 1;
      }
    }

    /** Boots the VM on the host it was placed on, and after a failed boot releases, signals and
        places it again, for at most three boots. The parameters say which boots succeed and
        whether the deadline has passed after each. Started straight after a placement and left
        alone, every boot is tried on that same host; success leaves the scheduler as it was,
        and failure as it was before the placement. */
    method BootWithRetry(vm: VMID, host: HostID, attempts: nat, boots: seq<bool>, late: seq<bool>,
                         ghost before: State)
      returns (chosen: HostID, tries: nat, ok: bool, ghost tried: seq<HostID>)
      requires sched.Valid() && this !in sched.Repr()
      requires Inv(before) && Place(before, vm) == (sched.Model(), Ok(host))
      requires |boots| == |late| == MAX_BOOT_ATTEMPTS
      modifies this`freed, this`bootFailed, sched.Repr()
      ensures sched.Valid() && fresh(sched.Repr() - old(sched.Repr()))
      ensures 1 <= |tried| <= MAX_BOOT_ATTEMPTS && forall i :: 0 <= i < |tried| ==> tried[i] == host
      ensures forall i :: 0 <= i < |tried| - 1 ==> !boots[i] && !late[i]
      ensures ok <==> boots[|tried| - 1]
      ensures !ok ==> |tried| == MAX_BOOT_ATTEMPTS || late[|tried| - 1]
      ensures tries == attempts + |tried| - 1
      ensures freed == (old(freed) || !boots[0])
      ensures ok ==> chosen == host && sched.Model() == old(sched.Model()) && bootFailed == old(bootFailed)
      ensures !ok ==> sched.Model() == before && bootFailed == old(bootFailed) + 1
    {
      hide Inv, Place, Release, Scheduler.Separate, HostsView, BucketsView;
      chosen, tries, tried := host, attempts, [];
      var i := 0;
      while true
        invariant 0 <= i < MAX_BOOT_ATTEMPTS && |tried| == i && tries == attempts + i
        invariant forall j :: 0 <= j < i ==> tried[j] == host && !boots[j] && !late[j]
        invariant chosen == host && sched.Valid() && sched.Model() == old(sched.Model())
        invariant sched.Repr() == old(sched.Repr())
        invariant freed == (old(freed) || i > 0) && bootFailed == old(bootFailed)
        decreases MAX_BOOT_ATTEMPTS - i
      {
        tried := tried + [chosen];
        if boots[i] {
          ok := true;
          return;
        }
        ReleaseUndoesPlace(before, vm);
        GiveBack(vm);
        if i + 1 >= MAX_BOOT_ATTEMPTS || late[i] {
          bootFailed := bootFailed + 1;
          ok := false;
          return;
        }
        var next, err := sched.Place(vm);
        assert err.None?;  // left alone, the second placement cannot fail
        chosen := next;
        tries := tries + 1;
        i := i + 1;
      }
    }
  }
}
