/** The fake hypervisor object: each method is one critical section of its mutex, or one channel or
    wait-group call, and does to Model() what the step of that name does
    (internal/hypervisor/fake.go). */
module FakeImpl {
  import opened Common
  import opened FakeHypervisor

  class Fake {
    const slots: nat
    var vms: seq<VM>
    var running: map<VMID, nat>
    var closed: bool
    var wg: int
    var expired: seq<VMID>
    var channelClosed: bool
    var panicked: bool
    ghost var stopped: seq<nat>
    ghost var reaped: seq<nat>
    ghost var reporters: seq<nat>
    ghost var reported: seq<VMID>
    ghost var read: seq<VMID>

    ghost function Model(): State
      reads this
    {
      State(slots, vms, running, closed, wg, expired, channelClosed, panicked,
            stopped, reaped, reporters, reported, read)
    }

    /** The capacity bound, the wait-group count and the rest of Safe, which every method keeps. */
    ghost predicate Valid()
      reads this
    {
      Safe(Model()) && NoEarlyTimers(vms)
    }

    constructor (slots: nat)
      ensures Valid() && Model() == New(slots) && this.slots == slots
    {
      this.slots := slots;
      vms, running, closed, wg := [], map[], false, 0;
      expired, channelClosed, panicked := [], false, false;
      stopped, reaped, reporters, reported, read := [], [], [], [], [];
      new;
      assert LiveTimers(vms) == {};
    }

    /** Start, up to the boot: takes a slot before sleeping, so that concurrent starts cannot
        oversubscribe. */
    method ReserveSlot(id: VMID, hasTTL: bool, fails: bool) returns (err: Option<Error>)
      requires Valid()
      modifies this
      ensures Valid() && Model() == DoReserve(old(Model()), id, hasTTL, fails)
      ensures err == Refusal(old(Model()), id)
      ensures err == None <==> !old(closed) && id !in old(running) && |old(running)| < slots
      ensures err == Some(ErrClosed) <==> old(closed)
      ensures err == Some(ErrDuplicateVM) <==> !old(closed) && id in old(running)
      ensures err == Some(ErrNoCapacity) <==> !old(closed) && id !in old(running) && |old(running)| == slots
      ensures err == None ==> running == old(running)[id := |old(vms)|]
      ensures err == None ==> vms == old(vms) + [VM(id, hasTTL, fails, Booting, Unset)]
      ensures err.Some? ==> running == old(running) && vms == old(vms)
    {
      ghost var before := Model();
      StepIsSafe(before, Reserve(id, hasTTL, fails));
      StepHasNoEarlyTimers(before, Reserve(id, hasTTL, fails));
      hide Safe, NoEarlyTimers, LiveTimers;
      if closed {
        return Some(ErrClosed);
      }
      if id in running {
        return Some(ErrDuplicateVM);
      }
      if |running| >= slots {
        return Some(ErrNoCapacity);
      }
      running := running[id := |vms|];
      vms := vms + [VM(id, hasTTL, fails, Booting, Unset)];
      return None;
    }

    /** Start, when the boot was cancelled or failed. */
    method ReleaseSlot(i: nat, cancelled: bool)
      requires Valid() && i < |vms| && vms[i].phase == Booting && (cancelled || vms[i].fails)
      modifies this
      ensures Valid() && Model() == DoFail(old(Model()), i, if cancelled then ErrCancelled else ErrBootFailed)
    {
      ghost var before := Model();
      ghost var step := if cancelled then BootCancelled(i) else BootEnds(i);
      StepIsSafe(before, step);
      StepHasNoEarlyTimers(before, step);
      hide Safe, NoEarlyTimers, LiveTimers;
      running := running - {vms[i].id};
      vms := vms[i := vms[i].(phase := Failed(if cancelled then ErrCancelled else ErrBootFailed))];
    }

    /** Start, after the boot. */
    method Commit(i: nat) returns (err: Option<Error>)
      requires Valid() && Enabled(Model(), BootEnds(i)) && !vms[i].fails
      modifies this
      ensures Valid() && Model() == DoCommit(old(Model()), i)
      ensures err == if old(closed) then Some(ErrClosed) else None
      ensures running == old(running)
      ensures err == None ==> vms[i].phase == Started && vms[i].timer == if vms[i].hasTTL then Armed else Unset
      ensures wg == old(wg) + if err == None && vms[i].hasTTL then 1 else 0
    {
      ghost var before := Model();
      StepIsSafe(before, BootEnds(i));
      StepHasNoEarlyTimers(before, BootEnds(i));
      hide Safe, NoEarlyTimers, LiveTimers;
      if closed {
        vms := vms[i := vms[i].(phase := Failed(ErrClosed))];
        return Some(ErrClosed);
      }
      vms := vms[i := vms[i].(phase := Started)];
      if vms[i].hasTTL {
        wg := wg + 1;
        vms := vms[i := vms[i].(timer := Armed)];
        assert vms == before.vms[i := before.vms[i].(phase := Started, timer := Armed)];
      }
      return None;
    }

    method LeaveWaitGroup()
      modifies this`wg, this`panicked
      ensures Model() == LeaveGroup(old(Model()))
    {
      if wg <= 0 {
        panicked := true;
      }
      wg := wg - 1;
    }

    /** A timer callback, up to its send. */
    method TakeOut(i: nat)
      requires Valid() && Enabled(Model(), Reap(i))
      modifies this
      ensures Valid() && Model() == DoReap(old(Model()), i)
    {
      ghost var before := Model();
      ReapIsSafe(before, i);
      ReapHasNoEarlyTimers(before, i);
      hide Safe, NoEarlyTimers, LiveTimers, Enabled, Owned;
      var id := vms[i].id;
      if closed || id !in running {
        vms := vms[i := vms[i].(timer := Leaving)];
        return;
      }
      reaped := reaped + [running[id]];
      running := running - {id};
      vms := vms[i := vms[i].(timer := Reporting)];
    }

    /** The callback's send: dropped when the buffer is full, and never made on a closed channel. */
    method Notify(i: nat)
      requires Valid() && Enabled(Model(), Report(i))
      modifies this
      ensures Valid() && Model() == DoReport(old(Model()), i)
    {
      ghost var before := Model();
      ChannelIsOpen(before, i);
      StepIsSafe(before, Report(i));
      StepHasNoEarlyTimers(before, Report(i));
      hide Safe, NoEarlyTimers, LiveTimers;
      var id := vms[i].id;
      vms := vms[i := vms[i].(timer := Leaving)];
      if |expired| < BUFFER_PER_SLOT * slots {
        expired := expired + [id];
        reporters := reporters + [i];
        reported := reported + [id];
      }
    }

    /** The callback's last step. */
    method LeaveAfterReport(i: nat)
      requires Valid() && Enabled(Model(), Leave(i))
      modifies this
      ensures Valid() && Model() == LeaveGroup(SetTimer(old(Model()), i, Finished))
    {
      StepIsSafe(Model(), Leave(i));
      StepHasNoEarlyTimers(Model(), Leave(i));
      hide Safe, NoEarlyTimers, LiveTimers;
      vms := vms[i := vms[i].(timer := Finished)];
      LeaveWaitGroup();
    }

    method StopVM(id: VMID) returns (err: Option<Error>)
      requires Valid()
      modifies this
      ensures Valid() && Model() == DoStop(old(Model()), id)
      ensures err == StopError(old(Model()), id)
      ensures err == None <==> !old(closed) && id in old(running)
      ensures err == Some(ErrClosed) <==> old(closed)
      ensures running == if err == None then old(running) - {id} else old(running)
    {
      ghost var before := Model();
      StopIsSafe(before, id);
      StopHasNoEarlyTimers(before, id);
      RunningIsKnown(before, id);
      hide Safe, NoEarlyTimers, LiveTimers, Owned;
      if closed {
        return Some(ErrClosed);
      }
      if id !in running {
        return Some(ErrUnknownVM);
      }
      var i := running[id];
      running := running - {id};
      stopped := stopped + [i];
      if vms[i].timer == Armed {
        vms := vms[i := vms[i].(timer := Cancelled)];
        LeaveWaitGroup();
      }
      assert Model() == DoStop(before, id);
      return None;
    }

    /** Close is under way from state s: the VMs no longer in running are forgotten, and their timers
        disarmed and out of the wait group. */
    ghost predicate Closing(s: State)
      reads this
    {
      && running.Keys <= s.running.Keys
      && (forall id :: id in running ==> running[id] == s.running[id])
      && Model() == s.(closed := true, running := running,
                       vms := Cancel(s.vms, Passed(s, running)),
                       wg := s.wg - |Passed(s, running)|)
    }

    method ForgetOne(id: VMID, ghost s: State)
      requires Safe(s) && Closing(s) && id in running
      modifies this
      ensures Closing(s) && running == old(running) - {id}
    {
      var i := running[id];
      ghost var left := running - {id};
      CancelPassed(s, running, id);
      EnoughLeft(s, Passed(s, left), left);
      hide Passed, Cancel, Safe, Owned, Disarmed, LiveTimers;
      if vms[i].timer == Armed {
        Disarm(i);
      }
      running := running - {id};
    }

    method Disarm(i: nat)
      requires i < |vms| && wg > 0
      modifies this`vms, this`wg
      ensures vms == old(vms)[i := old(vms[i]).(timer := Cancelled)] && wg == old(wg) - 1
    {
      vms := vms[i := vms[i].(timer := Cancelled)];
      wg := wg - 1;
    }

    /** Close, up to its wait: walks the running VMs in any order, disarming their timers. The wait
        group never goes below zero on the way. */
    method BeginClosing()
      requires Valid()
      modifies this
      ensures Valid() && Model() == DoBeginClose(old(Model()))
    {
      if closed {
        return;
      }
      ghost var s := Model();
      NonePassed(s);
      AllPassed(s);
      BeginCloseIsSafe(s);
      BeginCloseHasNoEarlyTimers(s);
      hide Passed, Cancel, Safe, NoEarlyTimers, LiveTimers;
      closed := true;
      ForgetAll(s);
    }

    method ForgetAll(ghost s: State)
      requires Safe(s) && Closing(s)
      modifies this
      ensures Closing(s) && running == map[]
    {
      hide Safe, Closing;
      while running != map[]
        invariant Closing(s)
        decreases |running|
      {
        var id :| id in running;
        KeysShrink(running, id);
        ForgetOne(id, s);
      }
    }
  }

  lemma RunningIsKnown(s: State, id: VMID)
    requires Owned(s)
    ensures id in s.running ==> s.running[id] < |s.vms|
  {
  }

  function Cancel(vms: seq<VM>, done: set<nat>): seq<VM> {
    seq(|vms|, i requires 0 <= i < |vms| => if i in done then vms[i].(timer := Cancelled) else vms[i])
  }

  /** The timers to disarm whose VMs are no longer in left. */
  ghost function Passed(s: State, left: map<VMID, nat>): set<nat> {
    set i | i in Disarmed(s) && s.vms[i].id !in left
  }

  lemma PassOne(s: State, left: map<VMID, nat>, id: VMID)
    requires Owned(s) && left.Keys <= s.running.Keys && id in left && left[id] == s.running[id]
    ensures left[id] < |s.vms| && left[id] !in Passed(s, left)
    ensures Passed(s, left - {id}) ==
      Passed(s, left) + if s.vms[left[id]].timer == Armed then {left[id]} else {}
  {
    var i := left[id];
    forall j | j in Disarmed(s) && s.vms[j].id == id
      ensures j == i
    {
      var other :| other in s.running && s.running[other] == j;
    }
    assert s.running[id] in s.running.Values;
  }

  lemma CancelOne(vms: seq<VM>, done: set<nat>, i: nat)
    requires i < |vms| && i !in done
    ensures |Cancel(vms, done)| == |vms| && Cancel(vms, done)[i] == vms[i]
    ensures Cancel(vms, done)[i := vms[i].(timer := Cancelled)] == Cancel(vms, done + {i})
  {
  }

  /** Forgetting one more VM cancels its timer, if armed, and no other. */
  lemma CancelPassed(s: State, left: map<VMID, nat>, id: VMID)
    requires Owned(s) && left.Keys <= s.running.Keys && id in left && left[id] == s.running[id]
    ensures var i, done, done' := left[id], Passed(s, left), Passed(s, left - {id});
      && i < |s.vms| == |Cancel(s.vms, done)|
      && Cancel(s.vms, done)[i] == s.vms[i]
      && if s.vms[i].timer == Armed then
           |done'| == |done| + 1
           && Cancel(s.vms, done') == Cancel(s.vms, done)[i := s.vms[i].(timer := Cancelled)]
         else done' == done
  {
    PassOne(s, left, id);
    CancelOne(s.vms, Passed(s, left), left[id]);
  }

  /** While a callback has still to report, the channel is open. */
  lemma ChannelIsOpen(s: State, i: nat)
    requires Safe(s) && i < |s.vms| && s.vms[i].timer == Reporting
    ensures !s.channelClosed
  {
    assert i in LiveTimers(s.vms);
  }

  lemma NonePassed(s: State)
    requires Owned(s)
    ensures Passed(s, s.running) == {} && Cancel(s.vms, {}) == s.vms
  {
    forall i | i in Disarmed(s)
      ensures s.vms[i].id in s.running
    {
      var id :| id in s.running && s.running[id] == i;
    }
  }

  lemma AllPassed(s: State)
    requires !s.closed
    ensures DoBeginClose(s) ==
      s.(closed := true, running := map[], vms := Cancel(s.vms, Passed(s, map[])), wg := s.wg - |Passed(s, map[])|)
  {
    assert Passed(s, map[]) == Disarmed(s);
  }

  lemma EnoughLeft(s: State, done: set<nat>, left: map<VMID, nat>)
    requires Safe(s) && done == Passed(s, left)
    ensures |done| <= s.wg
  {
    assert done <= LiveTimers(s.vms);
    SubsetSize(done, LiveTimers(s.vms));
  }

  lemma SubsetSize(a: set<nat>, b: set<nat>)
    requires a <= b
    ensures |a| <= |b|
  {
    assert b == a + (b - a);
  }
}
