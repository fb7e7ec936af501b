/** Who takes a VM's slot from it, and when an id may be used again
    (internal/hypervisor/fake.go). Slots are followed per Start, not per id, because a retried boot
    starts the same id again. */
module FakeFates {
  import opened Common
  import opened FakeHypervisor

  ghost predicate Holds(s: State, i: nat) {
    i < |s.vms| && s.vms[i].id in s.running && s.running[s.vms[i].id] == i
  }

  /** A Start that may yet touch the slot its id holds: its boot can still fail, or its timer has
      not yet been through the lock. */
  predicate Pending(vm: VM) {
    vm.phase == Booting || vm.timer == Armed || vm.timer == Fired
  }

  /** No other Start under this id is pending. */
  ghost predicate ClearFor(vms: seq<VM>, id: VMID, but: nat) {
    forall i: nat :: i < |vms| && i != but && vms[i].id == id ==> !Pending(vms[i])
  }

  /** The step takes Start k's slot without being its own failure, its own callback, Stop or
      Close. */
  ghost predicate Robs(s: State, a: Action, k: nat)
    requires Owned(s) && Enabled(s, a)
  {
    && Holds(s, k) && !Holds(Apply(s, a), k)
    && !(a.Stop? || a.BeginClose?)
    && !((a.BootCancelled? || a.BootEnds? || a.Reap?) && a.vm == k)
  }

  // ------------------------------------------------------------ one admitted Start

  /** Start k does not hold its slot, or nobody else can take it. */
  ghost predicate Guarded(s: State, k: nat) {
    && k < |s.vms|
    && (Holds(s, k) ==> ClearFor(s.vms, s.vms[k].id, k))
  }

  lemma GuardedIsNotRobbed(s: State, a: Action, k: nat)
    requires Owned(s) && Enabled(s, a) && Guarded(s, k)
    ensures !Robs(s, a, k)
  {
    if Holds(s, k) {
      match a {
        case BootCancelled(i) => assert i != k && s.vms[i].id == s.vms[k].id ==> !Pending(s.vms[i]);
        case BootEnds(i) => assert i != k && s.vms[i].id == s.vms[k].id ==> !Pending(s.vms[i]);
        case Reap(i) => assert i != k && s.vms[i].id == s.vms[k].id ==> !Pending(s.vms[i]);
        case Stop(_) =>
        case BeginClose =>
        case _ => OtherStepsKeepSlot(s, a, k);
      }
    }
  }

  lemma OtherStepsKeepSlot(s: State, a: Action, k: nat)
    requires Owned(s) && Enabled(s, a) && Holds(s, k)
    requires !(a.BootCancelled? || a.BootEnds? || a.Reap? || a.Stop? || a.BeginClose?)
    ensures Holds(Apply(s, a), k)
  {
  }

  lemma PendingIsNotRegained(s: State, a: Action, i: nat)
    requires Owned(s) && Enabled(s, a) && i < |s.vms| && !Pending(s.vms[i])
    ensures i < |Apply(s, a).vms| && Apply(s, a).vms[i].id == s.vms[i].id && !Pending(Apply(s, a).vms[i])
  {
    hide DoFail, DoCommit, SetTimer, DoReap, DoReport, DoStop, DoBeginClose;
    match a {
      case BootCancelled(j) => BootSettlesNothing(s, j, i);
      case BootEnds(j) => BootSettlesNothing(s, j, i);
      case Fire(j) => TimerSettlesNothing(s, j, i);
      case Reap(j) => CallbackSettlesNothing(s, j, i);
      case Report(j) => CallbackSettlesNothing(s, j, i);
      case Leave(j) => TimerSettlesNothing(s, j, i);
      case Stop(id) => StopSettlesNothing(s, id, i);
      case BeginClose => ClosingSettlesNothing(s, i);
      case _ =>
    }
  }

  /** The same Start, and still not pending. */
  predicate Settled(s: State, t: State, i: nat)
    requires i < |s.vms|
  {
    i < |t.vms| && t.vms[i].id == s.vms[i].id && !Pending(t.vms[i])
  }

  lemma BootSettlesNothing(s: State, j: nat, i: nat)
    requires i < |s.vms| && !Pending(s.vms[i]) && j < |s.vms| && s.vms[j].phase == Booting
    ensures Settled(s, DoFail(s, j, ErrCancelled), i) && Settled(s, DoFail(s, j, ErrBootFailed), i)
    ensures Settled(s, DoCommit(s, j), i)
  {
  }

  lemma TimerSettlesNothing(s: State, j: nat, i: nat)
    requires i < |s.vms| && !Pending(s.vms[i]) && j < |s.vms|
    ensures s.vms[j].timer == Armed ==> Settled(s, SetTimer(s, j, Fired), i)
    ensures Settled(s, LeaveGroup(SetTimer(s, j, Finished)), i)
  {
  }

  lemma CallbackSettlesNothing(s: State, j: nat, i: nat)
    requires i < |s.vms| && !Pending(s.vms[i]) && j < |s.vms|
    ensures Settled(s, DoReap(s, j), i) && Settled(s, DoReport(s, j), i)
  {
  }

  lemma ClosingSettlesNothing(s: State, i: nat)
    requires i < |s.vms| && !Pending(s.vms[i])
    ensures Settled(s, DoBeginClose(s), i)
  {
  }

  lemma StopSettlesNothing(s: State, id: VMID, i: nat)
    requires Owned(s) && i < |s.vms| && !Pending(s.vms[i])
    ensures Settled(s, DoStop(s, id), i)
  {
  }

  /** A slot once lost is never held by the same Start again. */
  lemma SlotIsNotRegained(s: State, a: Action, k: nat)
    requires Owned(s) && Enabled(s, a) && k < |s.vms|
    ensures k < |Apply(s, a).vms| && Apply(s, a).vms[k].id == s.vms[k].id
    ensures Holds(Apply(s, a), k) ==> Holds(s, k)
  {
    IdsStay(s, a, k);
    if a.Reserve? && Refusal(s, a.id) == None {
      assert DoReserve(s, a.id, a.hasTTL, a.fails).running == s.running[a.id := |s.vms|];
    }
  }

  lemma IdsStay(s: State, a: Action, i: nat)
    requires Owned(s) && Enabled(s, a) && i < |s.vms|
    ensures i < |Apply(s, a).vms| && Apply(s, a).vms[i].id == s.vms[i].id
  {
    match a {
      case Reap(j) => assert DoReap(s, j).vms == s.vms[j := DoReap(s, j).vms[j]];
      case Report(j) => assert DoReport(s, j).vms == s.vms[j := DoReport(s, j).vms[j]];
      case BootEnds(j) => assert DoCommit(s, j).vms == s.vms[j := DoCommit(s, j).vms[j]];
      case _ =>
    }
  }

  lemma VMsOnlyGrow(s: State, a: Action)
    requires Owned(s) && Enabled(s, a)
    ensures !a.Reserve? || Refusal(s, a.id).Some? ==> |Apply(s, a).vms| == |s.vms|
    ensures a.Reserve? && Refusal(s, a.id) == None ==>
      |Apply(s, a).vms| == |s.vms| + 1 && Apply(s, a).vms[|s.vms|].id == a.id && a.id !in s.running
  {
  }

  lemma GuardStays(s: State, a: Action, k: nat)
    requires Owned(s) && Enabled(s, a) && Guarded(s, k)
    ensures Guarded(Apply(s, a), k)
  {
    SlotIsNotRegained(s, a, k);
    VMsOnlyGrow(s, a);
    var s' := Apply(s, a);
    forall i: nat | Holds(s', k) && i < |s'.vms| && i != k && s'.vms[i].id == s.vms[k].id
      ensures !Pending(s'.vms[i])
    {
      if i < |s.vms| {
        IdsStay(s, a, i);
        PendingIsNotRegained(s, a, i);
      }
    }
    hide Apply, Enabled;
  }

  lemma StepKeepsOwned(s: State, a: Action)
    requires Owned(s) && Enabled(s, a)
    ensures Owned(Apply(s, a))
  {
    var s' := Apply(s, a);
    forall id | id in s'.running
      ensures s'.running[id] < |s'.vms| && s'.vms[s'.running[id]].id == id
    {
      OwnedBefore(s, a, id);
      VMsOnlyGrow(s, a);
      if id in s.running {
        IdsStay(s, a, s.running[id]);
      }
    }
    hide Apply, Enabled;
  }

  lemma OwnedBefore(s: State, a: Action, id: VMID)
    requires Owned(s) && Enabled(s, a) && id in Apply(s, a).running
    ensures if id in s.running then Apply(s, a).running[id] == s.running[id]
            else a.Reserve? && a.id == id && Refusal(s, id) == None && Apply(s, a).running[id] == |s.vms|
  {
    match a {
      case Reserve(_, _, _) =>
      case BootCancelled(_) =>
      case BootEnds(_) =>
      case Fire(_) =>
      case Reap(_) =>
      case Report(_) =>
      case Leave(_) =>
      case Stop(_) =>
      case Read =>
      case BeginClose =>
      case FinishClose =>
    }
  }

  /** No step of any continuation robs Start k. */
  ghost predicate SafeForever(s: State, k: nat) {
    forall acts, a ::
      Exec(s, acts).Some? && Owned(Exec(s, acts).value) && Enabled(Exec(s, acts).value, a) ==>
        !Robs(Exec(s, acts).value, a, k)
  }

  lemma {:induction false} GuardLasts(s: State, k: nat, acts: seq<Action>)
    requires Owned(s) && Guarded(s, k) && Exec(s, acts).Some?
    ensures Owned(Exec(s, acts).value) && Guarded(Exec(s, acts).value, k)
  {
    if acts == [] {
    } else {
      hide Apply, Enabled, Owned, Guarded;
      var front, a := acts[..|acts| - 1], acts[|acts| - 1];
      GuardLasts(s, k, front);
      StepKeepsOwned(Exec(s, front).value, a);
      GuardStays(Exec(s, front).value, a, k);
    }
  }

  /** Every pending predecessor has a way to rob its successor: an unfinished boot can be cancelled,
      an armed timer can fire and be served, a fired one served. */
  lemma PendingRobs(s: State, k: nat, i: nat) returns (acts: seq<Action>, a: Action)
    requires Owned(s) && !s.closed && Holds(s, k) && i < |s.vms| && i != k
    requires s.vms[i].id == s.vms[k].id && Pending(s.vms[i])
    ensures Exec(s, acts).Some? && Owned(Exec(s, acts).value) && Enabled(Exec(s, acts).value, a)
    ensures Robs(Exec(s, acts).value, a, k)
  {
    acts := [];
    if s.vms[i].phase == Booting {
      a := BootCancelled(i);
    } else if s.vms[i].timer == Fired {
      a := Reap(i);
    } else {
      acts, a := [Fire(i)], Reap(i);
      assert [Fire(i)][..0] == [];
      assert Exec(s, []) == Some(s);
      assert Exec(s, [Fire(i)]) == Some(SetTimer(s, i, Fired));
    }
  }

  /** Admitting a Start is safe in every continuation exactly when no earlier Start under its id is
      still booting or has its timer armed or fired. */
  lemma ReuseIsSafeExactlyWhen(s: State, id: VMID, hasTTL: bool, fails: bool)
    requires Owned(s) && Refusal(s, id) == None
    ensures SafeForever(DoReserve(s, id, hasTTL, fails), |s.vms|) <==> ClearFor(s.vms, id, |s.vms|)
  {
    var s', k := DoReserve(s, id, hasTTL, fails), |s.vms|;
    StepKeepsOwned(s, Reserve(id, hasTTL, fails));
    assert s'.vms[..k] == s.vms;
    assert Holds(s', k);
    if ClearFor(s.vms, id, k) {
      assert Guarded(s', k);
      forall acts, a | Exec(s', acts).Some? && Owned(Exec(s', acts).value) && Enabled(Exec(s', acts).value, a)
        ensures !Robs(Exec(s', acts).value, a, k)
      {
        GuardLasts(s', k, acts);
        GuardedIsNotRobbed(Exec(s', acts).value, a, k);
      }
    } else {
      var i: nat :| i < |s.vms| && i != k && s.vms[i].id == id && Pending(s.vms[i]);
      assert s'.vms[i] == s.vms[i];
      var acts, a := PendingRobs(s', k, i);
    }
  }

  // ------------------------------------------------------------- every careful run

  /** The step does not admit a Start while an earlier one under its id is pending. */
  ghost predicate Careful(s: State, a: Action) {
    a.Reserve? && Refusal(s, a.id) == None ==> ClearFor(s.vms, a.id, |s.vms|)
  }

  ghost predicate CarefulRun(slots: nat, acts: seq<Action>)
    requires Exec(New(slots), acts).Some?
  {
    acts == [] ||
      var front := acts[..|acts| - 1];
      CarefulRun(slots, front) && Careful(Exec(New(slots), front).value, acts[|acts| - 1])
  }

  /** Where Start i has got to: its slot is held from its reservation until its boot fails, Stop or
      its own callback takes it, or Close begins. */
  ghost predicate Fate(s: State, i: nat)
    requires i < |s.vms|
  {
    var vm := s.vms[i];
    && (Holds(s, i) <==> !vm.phase.Failed? && i !in s.stopped && i !in s.reaped && !s.closed)
    && (i in s.reaped ==> vm.timer == Reporting || vm.timer == Leaving || vm.timer == Finished)
    && (vm.timer == Reporting ==> i in s.reaped && i !in s.reporters)
    && TimerFits(vm)
  }

  ghost predicate Fates(s: State) {
    && Owned(s)
    && (forall i: nat :: i < |s.vms| ==> Guarded(s, i) && Fate(s, i))
    && (forall i :: i in s.stopped || i in s.reaped ==> i < |s.vms|)
  }

  /** No Start is stopped twice, reported twice, or both stopped and reported; and what was reported
      is the ids of those whose callbacks took them out. */
  ghost predicate Exclusive(s: State) {
    && NoDup(s.stopped) && NoDup(s.reaped) && NoDup(s.reporters)
    && (forall i :: i in s.stopped ==> i !in s.reaped)
    && (forall i :: i in s.reporters ==> i in s.reaped)
    && |s.reporters| == |s.reported|
    && (forall j :: 0 <= j < |s.reporters| ==>
          s.reporters[j] < |s.vms| && s.vms[s.reporters[j]].id == s.reported[j])
  }

  lemma AppendNoDup<T>(s: seq<T>, x: T)
    requires NoDup(s) && x !in s
    ensures NoDup(s + [x])
  {
  }

  /** A pending Start either holds its slot or its id is free, so what it takes is its own. */
  lemma PendingTakesItsOwn(s: State, i: nat)
    requires Fates(s) && i < |s.vms| && Pending(s.vms[i])
    ensures s.vms[i].id in s.running ==> Holds(s, i)
  {
    var id := s.vms[i].id;
    if id in s.running {
      var k := s.running[id];
      assert Holds(s, k) && Guarded(s, k);
    }
  }

  lemma ReserveKeepsFate(s: State, a: Action, j: nat)
    requires Fates(s) && a.Reserve? && j < |Apply(s, a).vms|
    ensures Fate(Apply(s, a), j)
  {
    if j < |s.vms| {
      assert Fate(s, j);
    }
  }

  lemma FailKeepsFate(s: State, i: nat, why: Error, j: nat)
    requires Fates(s) && i < |s.vms| && s.vms[i].phase == Booting && j < |s.vms|
    ensures Fate(DoFail(s, i, why), j)
  {
    PendingTakesItsOwn(s, i);
    assert Fate(s, i) && Fate(s, j);
  }

  lemma CommitKeepsFate(s: State, i: nat, j: nat)
    requires Fates(s) && i < |s.vms| && s.vms[i].phase == Booting && j < |s.vms|
    ensures Fate(DoCommit(s, i), j)
  {
    assert Fate(s, i) && Fate(s, j);
    assert DoCommit(s, i).running == s.running;
  }

  lemma TimerKeepsFate(s: State, i: nat, t: Timer, j: nat)
    requires Fates(s) && i < |s.vms| && j < |s.vms|
    requires (s.vms[i].timer == Armed && t == Fired) || (s.vms[i].timer == Leaving && t == Finished)
    ensures Fate(SetTimer(s, i, t), j)
  {
    assert Fate(s, i) && Fate(s, j);
  }

  lemma ReapKeepsFate(s: State, i: nat, j: nat)
    requires Fates(s) && Exclusive(s) && i < |s.vms| && s.vms[i].timer == Fired && j < |s.vms|
    ensures Fate(DoReap(s, i), j)
  {
    PendingTakesItsOwn(s, i);
    assert Fate(s, i) && Fate(s, j);
    assert i !in s.reporters;
    hide Exclusive;
  }

  lemma ReportKeepsFate(s: State, i: nat, j: nat)
    requires Fates(s) && i < |s.vms| && s.vms[i].timer == Reporting && j < |s.vms|
    ensures Fate(DoReport(s, i), j)
  {
    assert Fate(s, i) && Fate(s, j);
    hide Fates;
    if j == i {
    } else {
      assert DoReport(s, i).vms[j] == s.vms[j];
    }
  }

  lemma StopKeepsFate(s: State, id: VMID, j: nat)
    requires Fates(s) && j < |s.vms|
    ensures j < |DoStop(s, id).vms| && Fate(DoStop(s, id), j)
  {
    assert Fate(s, j);
    if StopError(s, id) == None {
      assert Holds(s, s.running[id]) && Fate(s, s.running[id]);
    }
  }

  lemma BeginCloseKeepsFate(s: State, j: nat)
    requires Fates(s) && j < |s.vms|
    ensures Fate(DoBeginClose(s), j)
  {
    assert Fate(s, j);
  }

  lemma QueueKeepsFate(s: State, s': State, j: nat)
    requires Fates(s) && j < |s.vms|
    requires s' == s.(expired := s'.expired, read := s'.read, channelClosed := s'.channelClosed)
    ensures Fate(s', j)
  {
    assert Fate(s, j);
  }

  lemma StepKeepsFate(s: State, a: Action, j: nat)
    requires Fates(s) && Exclusive(s) && Enabled(s, a) && j < |Apply(s, a).vms|
    ensures Fate(Apply(s, a), j)
  {
    VMsOnlyGrow(s, a);
    hide Fates, Exclusive, Fate;
    match a {
      case Reserve(_, _, _) => ReserveKeepsFate(s, a, j);
      case BootCancelled(i) => FailKeepsFate(s, i, ErrCancelled, j);
      case BootEnds(i) =>
        if s.vms[i].fails { FailKeepsFate(s, i, ErrBootFailed, j); } else { CommitKeepsFate(s, i, j); }
      case Fire(i) => TimerKeepsFate(s, i, Fired, j);
      case Leave(i) => LeaveKeepsFate(s, i, j);
      case Reap(i) => ReapKeepsFate(s, i, j);
      case Report(i) => ReportKeepsFate(s, i, j);
      case Stop(id) => StopKeepsFate(s, id, j);
      case BeginClose => BeginCloseKeepsFate(s, j);
      case Read => QueueKeepsFate(s, Apply(s, a), j);
      case FinishClose => QueueKeepsFate(s, Apply(s, a), j);
    }
  }

  lemma LeaveKeepsFate(s: State, i: nat, j: nat)
    requires Fates(s) && i < |s.vms| && s.vms[i].timer == Leaving && j < |s.vms|
    ensures Fate(LeaveGroup(SetTimer(s, i, Finished)), j)
  {
    TimerKeepsFate(s, i, Finished, j);
  }

  lemma StepKeepsFates(s: State, a: Action)
    requires Fates(s) && Exclusive(s) && Enabled(s, a) && Careful(s, a)
    ensures Fates(Apply(s, a))
  {
    var s' := Apply(s, a);
    StepKeepsOwned(s, a);
    VMsOnlyGrow(s, a);
    TakenAreKnown(s, a);
    forall i: nat | i < |s'.vms|
      ensures Guarded(s', i) && Fate(s', i)
    {
      StepKeepsFate(s, a, i);
      if i < |s.vms| {
        GuardStays(s, a, i);
      } else {
        NewcomerIsGuarded(s, a);
      }
    }
    hide Apply, Enabled, Fate, Guarded;
  }

  lemma NewcomerIsGuarded(s: State, a: Action)
    requires a.Reserve? && Refusal(s, a.id) == None && Careful(s, a)
    ensures Guarded(DoReserve(s, a.id, a.hasTTL, a.fails), |s.vms|)
  {
    assert DoReserve(s, a.id, a.hasTTL, a.fails).vms[..|s.vms|] == s.vms;
  }

  lemma TakenAreKnown(s: State, a: Action)
    requires Fates(s) && Enabled(s, a)
    ensures forall i :: i in Apply(s, a).stopped || i in Apply(s, a).reaped ==> i < |s.vms|
  {
    hide Fate, Guarded;
  }

  lemma ReapKeepsExclusive(s: State, i: nat)
    requires Fates(s) && Exclusive(s) && i < |s.vms| && s.vms[i].timer == Fired
    ensures Exclusive(DoReap(s, i))
  {
    PendingTakesItsOwn(s, i);
    assert Fate(s, i);
    AppendNoDup(s.reaped, i);
    hide Fates, NoDup;
  }

  lemma ReportKeepsExclusive(s: State, i: nat)
    requires Fates(s) && Exclusive(s) && i < |s.vms| && s.vms[i].timer == Reporting
    ensures Exclusive(DoReport(s, i))
  {
    assert Fate(s, i);
    AppendNoDup(s.reporters, i);
    hide Fates, NoDup;
  }

  lemma StopKeepsExclusive(s: State, id: VMID)
    requires Fates(s) && Exclusive(s)
    ensures Exclusive(DoStop(s, id))
  {
    if StopError(s, id) == None {
      var i := s.running[id];
      assert Holds(s, i) && Fate(s, i);
      AppendNoDup(s.stopped, i);
      hide Fates, NoDup;
    }
  }

  lemma OthersKeepExclusive(s: State, a: Action)
    requires Fates(s) && Exclusive(s) && Enabled(s, a) && !a.Reap? && !a.Report? && !a.Stop?
    ensures Exclusive(Apply(s, a))
  {
    var s' := Apply(s, a);
    forall j | 0 <= j < |s.reporters|
      ensures s.reporters[j] < |s'.vms| && s'.vms[s.reporters[j]].id == s.reported[j]
    {
      IdsStay(s, a, s.reporters[j]);
    }
    hide NoDup, Fate, Guarded;
  }

  lemma StepKeepsExclusive(s: State, a: Action)
    requires Fates(s) && Exclusive(s) && Enabled(s, a)
    ensures Exclusive(Apply(s, a))
  {
    hide Fates, Exclusive;
    match a {
      case Reap(i) => ReapKeepsExclusive(s, i);
      case Report(i) => ReportKeepsExclusive(s, i);
      case Stop(id) => StopKeepsExclusive(s, id);
      case _ => OthersKeepExclusive(s, a);
    }
  }

  /** In every run that is careful with ids, however they are reused, every Start's slot is
      accounted for, and no Start is both stopped and reported expired, or either of them twice. */
  lemma {:induction false} CarefulRunsSettle(slots: nat, acts: seq<Action>)
    requires Exec(New(slots), acts).Some? && CarefulRun(slots, acts)
    ensures Fates(Exec(New(slots), acts).value) && Exclusive(Exec(New(slots), acts).value)
  {
    if acts == [] {
    } else {
      hide Fates, Exclusive, Apply, Enabled, Owned, Careful;
      var front, a := acts[..|acts| - 1], acts[|acts| - 1];
      CarefulRunsSettle(slots, front);
      StepKeepsFates(Exec(New(slots), front).value, a);
      StepKeepsExclusive(Exec(New(slots), front).value, a);
    }
  }

  /** A boot retried after it failed is careful: of the Starts under its id, none is pending. */
  lemma RetryIsCareful(s: State, id: VMID, hasTTL: bool, fails: bool)
    requires NoEarlyTimers(s.vms)
    requires forall i: nat :: i < |s.vms| && s.vms[i].id == id ==> s.vms[i].phase.Failed?
    ensures Careful(s, Reserve(id, hasTTL, fails))
  {
    forall i: nat | i < |s.vms| && s.vms[i].id == id
      ensures !Pending(s.vms[i])
    {
      assert TimerFits(s.vms[i]);
    }
  }

  // --------------------------------------------------------------- ids never reused

  ghost predicate DistinctIds(acts: seq<Action>) {
    forall m, n :: 0 <= m < n < |acts| && acts[m].Reserve? && acts[n].Reserve? ==> acts[m].id != acts[n].id
  }

  ghost predicate Requested(acts: seq<Action>, id: VMID) {
    exists n :: 0 <= n < |acts| && acts[n].Reserve? && acts[n].id == id
  }

  lemma {:induction false} EveryVMWasRequested(slots: nat, acts: seq<Action>, i: nat)
    requires Exec(New(slots), acts).Some? && i < |Exec(New(slots), acts).value.vms|
    ensures Requested(acts, Exec(New(slots), acts).value.vms[i].id)
  {
    if acts == [] {
    } else {
      var front, a := acts[..|acts| - 1], acts[|acts| - 1];
      var mid := Exec(New(slots), front).value;
      VMsOnlyGrow(mid, a);
      if i < |mid.vms| {
        EveryVMWasRequested(slots, front, i);
        var n :| 0 <= n < |front| && front[n].Reserve? && front[n].id == mid.vms[i].id;
        assert acts[n] == front[n];
        IdsStay(mid, a, i);
      }
      hide Apply, Enabled, Owned;
    }
  }

  /** Distinct ids on the Start calls make a run careful. */
  lemma {:induction false} DistinctIdsAreCareful(slots: nat, acts: seq<Action>)
    requires Exec(New(slots), acts).Some? && DistinctIds(acts)
    ensures CarefulRun(slots, acts)
  {
    if acts == [] {
    } else {
      hide Apply, Enabled, Owned;
      var front, a := acts[..|acts| - 1], acts[|acts| - 1];
      DistinctIdsAreCareful(slots, front);
      var mid := Exec(New(slots), front).value;
      forall i | 0 <= i < |mid.vms| && a.Reserve?
        ensures mid.vms[i].id != a.id
      {
        EveryVMWasRequested(slots, front, i);
        var n :| 0 <= n < |front| && front[n].Reserve? && front[n].id == mid.vms[i].id;
        assert acts[n] == front[n];
      }
    }
  }

  lemma {:induction false} DistinctIdsGiveDistinctVMs(slots: nat, acts: seq<Action>, i: nat, j: nat)
    requires Exec(New(slots), acts).Some? && DistinctIds(acts)
    requires i < j < |Exec(New(slots), acts).value.vms|
    ensures Exec(New(slots), acts).value.vms[i].id != Exec(New(slots), acts).value.vms[j].id
  {
    if acts == [] {
    } else {
      var front, a := acts[..|acts| - 1], acts[|acts| - 1];
      var mid := Exec(New(slots), front).value;
      VMsOnlyGrow(mid, a);
      IdsStay(mid, a, i);
      if j < |mid.vms| {
        IdsStay(mid, a, j);
        DistinctIdsGiveDistinctVMs(slots, front, i, j);
      } else {
        EveryVMWasRequested(slots, front, i);
        var n :| 0 <= n < |front| && front[n].Reserve? && front[n].id == mid.vms[i].id;
        assert acts[n] == front[n];
      }
      hide Apply, Enabled, Owned;
    }
  }

  /** So with ids never reused, no VM is both stopped and reported expired, and none is reported
      twice. */
  lemma StoppedIsNotReported(slots: nat, acts: seq<Action>)
    requires Exec(New(slots), acts).Some? && DistinctIds(acts)
    ensures var end := Exec(New(slots), acts).value;
      && NoDup(end.reported)
      && forall i :: i in end.stopped ==> i < |end.vms| && end.vms[i].id !in end.reported
  {
    DistinctIdsAreCareful(slots, acts);
    CarefulRunsSettle(slots, acts);
    var end := Exec(New(slots), acts).value;
    forall i: nat, j: nat | i < j < |end.vms|
      ensures end.vms[i].id != end.vms[j].id
    {
      DistinctIdsGiveDistinctVMs(slots, acts, i, j);
    }
    hide Exec, DistinctIds;
    ReportsFollowStarts(end);
  }

  lemma ReportsFollowStarts(s: State)
    requires Fates(s) && Exclusive(s) && forall i, j :: 0 <= i < j < |s.vms| ==> s.vms[i].id != s.vms[j].id
    ensures NoDup(s.reported)
    ensures forall i :: i in s.stopped ==> i < |s.vms| && s.vms[i].id !in s.reported
  {
    hide Fate, Guarded;
    forall i, n | i in s.stopped && 0 <= n < |s.reported|
      ensures i < |s.vms| && s.vms[i].id != s.reported[n]
    {
      assert s.reporters[n] in s.reaped;
    }
  }

  // -------------------------------------------------------------- careless runs

  lemma OneMoreStep(s: State, acts: seq<Action>, mid: State, a: Action, next: State) returns (longer: seq<Action>)
    requires Exec(s, acts) == Some(mid) && Owned(mid) && Enabled(mid, a) && Apply(mid, a) == next
    ensures longer == acts + [a] && Exec(s, longer) == Some(next)
  {
    longer := acts + [a];
    assert longer[..|acts|] == acts;
  }

  function Stray(id: VMID): State {
    New(2).(vms := [VM(id, true, false, Started, Armed)], wg := 1, stopped := [0])
  }

  /** A VM stopped while it boots still has its Start succeed and arm a timer. */
  lemma StopDuringBootArmsTimer(id: VMID)
    ensures Exec(New(2), [Reserve(id, true, false), Stop(id), BootEnds(0)]) == Some(Stray(id))
  {
    assert Exec(New(2), []) == Some(New(2));
    hide Exec;
    var booting := VM(id, true, false, Booting, Unset);
    var s1 := New(2).(vms := [booting], running := map[id := 0]);
    var s2 := s1.(running := map[], stopped := [0]);
    var acts := [];
    acts := OneMoreStep(New(2), acts, New(2), Reserve(id, true, false), s1);
    acts := OneMoreStep(New(2), acts, s1, Stop(id), s2);
    acts := OneMoreStep(New(2), acts, s2, BootEnds(0), Stray(id));
    assert acts == [Reserve(id, true, false), Stop(id), BootEnds(0)];
  }

  /** Each way a predecessor can be pending happens. First: its timer is armed, and takes out a
      successor that has no TTL at all. */
  lemma ArmedTimerReapsNewVM(id: VMID)
    ensures var acts :=
        [Reserve(id, true, false), Stop(id), BootEnds(0), Reserve(id, false, false), BootEnds(1),
         Fire(0), Reap(0), Report(0)];
      var end := Exec(New(2), acts);
      && end.Some?
      && end.value.stopped == [0] && end.value.reaped == [1] && end.value.reported == [id]
      && end.value.running == map[]
      && |end.value.vms| == 2 && end.value.vms[1] == VM(id, false, false, Started, Unset)
  {
    hide Exec;
    StopDuringBootArmsTimer(id);
    var old0, new1 := Stray(id).vms[0], VM(id, false, false, Booting, Unset);
    var s4 := Stray(id).(vms := [old0, new1], running := map[id := 1]);
    var s5 := s4.(vms := [old0, new1.(phase := Started)]);
    var s6 := s5.(vms := [old0.(timer := Fired), s5.vms[1]]);
    var s7 := s6.(vms := [old0.(timer := Reporting), s5.vms[1]], running := map[], reaped := [1]);
    var s8 := s7.(vms := [old0.(timer := Leaving), s5.vms[1]], expired := [id], reporters := [0], reported := [id]);
    var acts := [Reserve(id, true, false), Stop(id), BootEnds(0)];
    acts := OneMoreStep(New(2), acts, Stray(id), Reserve(id, false, false), s4);
    acts := OneMoreStep(New(2), acts, s4, BootEnds(1), s5);
    acts := OneMoreStep(New(2), acts, s5, Fire(0), s6);
    acts := OneMoreStep(New(2), acts, s6, Reap(0), s7);
    acts := OneMoreStep(New(2), acts, s7, Report(0), s8);
    assert acts ==
      [Reserve(id, true, false), Stop(id), BootEnds(0), Reserve(id, false, false), BootEnds(1),
       Fire(0), Reap(0), Report(0)];
  }

  function Late(id: VMID): State {
    New(2).(vms := [VM(id, true, false, Started, Fired)], wg := 1, stopped := [0])
  }

  /** Stop comes too late to disarm a timer that has fired. */
  lemma StopAfterFireLeavesCallback(id: VMID)
    ensures Exec(New(2), [Reserve(id, true, false), BootEnds(0), Fire(0), Stop(id)]) == Some(Late(id))
  {
    assert Exec(New(2), []) == Some(New(2));
    hide Exec, DoReport, DoReap, DoBeginClose;
    var vm := VM(id, true, false, Booting, Unset);
    var s1 := New(2).(vms := [vm], running := map[id := 0]);
    var s2 := s1.(vms := [vm.(phase := Started, timer := Armed)], wg := 1);
    var s3 := s2.(vms := [vm.(phase := Started, timer := Fired)]);
    var acts := [];
    acts := OneMoreStep(New(2), acts, New(2), Reserve(id, true, false), s1);
    acts := OneMoreStep(New(2), acts, s1, BootEnds(0), s2);
    acts := OneMoreStep(New(2), acts, s2, Fire(0), s3);
    acts := OneMoreStep(New(2), acts, s3, Stop(id), Late(id));
    assert acts == [Reserve(id, true, false), BootEnds(0), Fire(0), Stop(id)];
  }

  /** Second: its timer has fired, and its callback comes after the successor. */
  lemma FiredTimerReapsNewVM(id: VMID)
    ensures var acts :=
        [Reserve(id, true, false), BootEnds(0), Fire(0), Stop(id), Reserve(id, false, false), Reap(0)];
      var end := Exec(New(2), acts);
      && end.Some?
      && end.value.stopped == [0] && end.value.reaped == [1] && end.value.running == map[]
      && |end.value.vms| == 2 && end.value.vms[1] == VM(id, false, false, Booting, Unset)
  {
    hide Exec;
    StopAfterFireLeavesCallback(id);
    var old0, new1 := Late(id).vms[0], VM(id, false, false, Booting, Unset);
    var s5 := Late(id).(vms := [old0, new1], running := map[id := 1]);
    var s6 := s5.(vms := [old0.(timer := Reporting), new1], running := map[], reaped := [1]);
    var acts := [Reserve(id, true, false), BootEnds(0), Fire(0), Stop(id)];
    acts := OneMoreStep(New(2), acts, Late(id), Reserve(id, false, false), s5);
    acts := OneMoreStep(New(2), acts, s5, Reap(0), s6);
    assert acts ==
      [Reserve(id, true, false), BootEnds(0), Fire(0), Stop(id), Reserve(id, false, false), Reap(0)];
  }

  /** Third: it is still booting after Stop, and is then cancelled. */
  lemma CancelledBootFreesNewVM(id: VMID)
    ensures var acts := [Reserve(id, true, false), Stop(id), Reserve(id, false, false), BootCancelled(0)];
      var end := Exec(New(2), acts);
      && end.Some?
      && end.value.stopped == [0] && end.value.running == map[]
      && |end.value.vms| == 2 && end.value.vms[1] == VM(id, false, false, Booting, Unset)
  {
    assert Exec(New(2), []) == Some(New(2));
    hide Exec;
    var old0, new1 := VM(id, true, false, Booting, Unset), VM(id, false, false, Booting, Unset);
    var s1 := New(2).(vms := [old0], running := map[id := 0]);
    var s2 := s1.(running := map[], stopped := [0]);
    var s3 := s2.(vms := [old0, new1], running := map[id := 1]);
    var s4 := s3.(vms := [old0.(phase := Failed(ErrCancelled)), new1], running := map[]);
    var acts := [];
    acts := OneMoreStep(New(2), acts, New(2), Reserve(id, true, false), s1);
    acts := OneMoreStep(New(2), acts, s1, Stop(id), s2);
    acts := OneMoreStep(New(2), acts, s2, Reserve(id, false, false), s3);
    acts := OneMoreStep(New(2), acts, s3, BootCancelled(0), s4);
    assert acts == [Reserve(id, true, false), Stop(id), Reserve(id, false, false), BootCancelled(0)];
  }
}
