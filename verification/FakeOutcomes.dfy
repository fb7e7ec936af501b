/** What each call and callback of the fake hypervisor comes to, from the steps taken alone: who is
    admitted, how every Start ends, what its timer does, and that Close gets to its end
    (internal/hypervisor/fake.go). */
module FakeOutcomes {
  import opened Common
  import opened FakeHypervisor
  import opened FakeFates

  // ------------------------------------------------------------------ admission

  /** A Start is admitted exactly when the hypervisor is open, its id is not running, and fewer than
      slots VMs are; it then holds a slot, and a Start turned away changes nothing. */
  lemma StartIsAdmittedExactlyWhen(s: State, id: VMID, hasTTL: bool, fails: bool)
    requires Owned(s)
    ensures var s' := Apply(s, Reserve(id, hasTTL, fails));
      if !s.closed && id !in s.running && |s.running| < s.slots then
        && s'.running == s.running[id := |s.vms|]
        && s' == s.(running := s'.running, vms := s.vms + [VM(id, hasTTL, fails, Booting, Unset)])
      else s' == s
  {
  }

  predicate Arrivals(acts: seq<Action>) {
    && (forall n :: 0 <= n < |acts| ==> acts[n].Reserve?)
    && (forall m, n :: 0 <= m < n < |acts| ==> acts[m].id != acts[n].id)
  }

  ghost function IdsOf(acts: seq<Action>): set<VMID>
    requires Arrivals(acts)
  {
    set n | 0 <= n < |acts| :: acts[n].id
  }

  /** Of the Starts asked for, the first, one for every free slot, are running beside those that were. */
  ghost predicate Filled(s: State, acts: seq<Action>, end: State)
    requires |s.running| <= s.slots && Arrivals(acts)
  {
    var free := s.slots - |s.running|;
    && !end.closed && end.slots == s.slots
    && (|acts| <= free ==>
          end.running.Keys == s.running.Keys + IdsOf(acts) && |end.running| == |s.running| + |acts|)
    && (|acts| > free ==>
          end.running.Keys == s.running.Keys + IdsOf(acts[..free]) && |end.running| == s.slots)
  }

  /** Of Starts under new ids on an open hypervisor, the first are admitted, one for every free slot,
      and no more. */
  lemma {:induction false} FirstComeFirstAdmitted(s: State, acts: seq<Action>)
    requires Owned(s) && !s.closed && |s.running| <= s.slots
    requires Arrivals(acts) && IdsOf(acts) !! s.running.Keys
    ensures Exec(s, acts).Some? && Owned(Exec(s, acts).value) && Filled(s, acts, Exec(s, acts).value)
  {
    hide Owned, Apply, Enabled;
    if acts == [] {
    } else {
      hide Exec, Filled;
      var last := |acts| - 1;
      var front, a := acts[..last], acts[last];
      assert front + [a] == acts;
      FewerArrivals(acts, last);
      FirstComeFirstAdmitted(s, front);
      var mid := Exec(s, front).value;
      ArrivalIsEnabled(mid, a);
      StepKeepsOwned(mid, a);
      StartIsAdmittedExactlyWhen(mid, a.id, a.hasTTL, a.fails);
      FilledBefore(s, front, mid);
      if last < s.slots - |s.running| {
        RoomForOneMore(s, acts, mid, Apply(mid, a));
      } else {
        FullStaysFull(s, acts, mid);
      }
      ExecMore(s, front, a);
    }
  }

  lemma ExecMore(s: State, acts: seq<Action>, a: Action)
    requires Exec(s, acts).Some? && Owned(Exec(s, acts).value) && Enabled(Exec(s, acts).value, a)
    ensures Exec(s, acts + [a]) == Some(Apply(Exec(s, acts).value, a))
  {
    hide Apply, Enabled, Owned;
    assert (acts + [a])[..|acts|] == acts;
  }

  lemma ExecFront(s: State, acts: seq<Action>)
    requires acts != [] && Exec(s, acts).Some?
    ensures var front, a := Exec(s, acts[..|acts| - 1]), acts[|acts| - 1];
      && front.Some? && Owned(front.value) && Enabled(front.value, a)
      && Exec(s, acts).value == Apply(front.value, a)
  {
    hide Apply, Enabled, Owned;
  }

  lemma FewerArrivals(acts: seq<Action>, n: nat)
    requires Arrivals(acts) && n <= |acts|
    ensures Arrivals(acts[..n]) && IdsOf(acts[..n]) <= IdsOf(acts)
  {
    forall k | 0 <= k < n
      ensures acts[..n][k] == acts[k]
    {
    }
  }

  lemma FilledBefore(s: State, acts: seq<Action>, mid: State)
    requires |s.running| <= s.slots && Arrivals(acts) && Filled(s, acts, mid)
    ensures !mid.closed && (|acts| < s.slots - |s.running| <==> |mid.running| < mid.slots)
  {
    hide IdsOf, Arrivals;
  }

  lemma FullStaysFull(s: State, acts: seq<Action>, mid: State)
    requires |s.running| <= s.slots && Arrivals(acts) && acts != []
    requires Arrivals(acts[..|acts| - 1]) && Filled(s, acts[..|acts| - 1], mid)
    requires |acts| > s.slots - |s.running|
    ensures Filled(s, acts, mid)
  {
    hide IdsOf, Arrivals;
    var last, free := |acts| - 1, s.slots - |s.running|;
    assert acts[..last][..free] == acts[..free];
    if last == free {
      assert acts[..last] == acts[..free];
    }
  }

  lemma OneMoreKey(held: set<VMID>, ids: set<VMID>, id: VMID, m: map<VMID, nat>, m': map<VMID, nat>, k: nat)
    requires m.Keys == held + ids && id !in held && id !in ids && (id !in m ==> m' == m[id := k])
    ensures m'.Keys == held + (ids + {id}) && |m'| == |m| + 1
  {
    assert m'.Keys == m.Keys + {id};
  }

  lemma RoomForOneMore(s: State, acts: seq<Action>, mid: State, end: State)
    requires |s.running| <= s.slots && Arrivals(acts) && acts != [] && IdsOf(acts) !! s.running.Keys
    requires Arrivals(acts[..|acts| - 1]) && Filled(s, acts[..|acts| - 1], mid)
    requires |acts| <= s.slots - |s.running| && !end.closed && end.slots == mid.slots && acts[|acts| - 1].Reserve?
    requires acts[|acts| - 1].id !in mid.running ==> end.running == mid.running[acts[|acts| - 1].id := |mid.vms|]
    ensures Filled(s, acts, end)
  {
    hide IdsOf, Arrivals;
    LastArrival(acts);
    OneMoreKey(s.running.Keys, IdsOf(acts[..|acts| - 1]), acts[|acts| - 1].id, mid.running, end.running, |mid.vms|);
  }

  lemma LastArrival(acts: seq<Action>)
    requires Arrivals(acts) && acts != []
    ensures var front, id := acts[..|acts| - 1], acts[|acts| - 1].id;
      Arrivals(front) && IdsOf(acts) == IdsOf(front) + {id} && id !in IdsOf(front)
  {
    OneMoreArrival(acts, |acts| - 1);
    assert acts[..|acts|] == acts;
  }

  lemma ArrivalIsEnabled(s: State, a: Action)
    requires a.Reserve?
    ensures Enabled(s, a)
  {
  }

  lemma OneMoreArrival(acts: seq<Action>, n: nat)
    requires Arrivals(acts) && n < |acts|
    ensures IdsOf(acts[..n + 1]) == IdsOf(acts[..n]) + {acts[n].id} && acts[n].id !in IdsOf(acts[..n])
  {
    assert acts[..n + 1][n] == acts[n];
    forall k | 0 <= k < n
      ensures acts[..n + 1][k] == acts[..n][k]
    {
    }
  }

  /** However many slots there are, all of them can be in use at once. */
  lemma EverySlotCanBeUsed(slots: nat) returns (acts: seq<Action>)
    ensures Exec(New(slots), acts).Some? && |Exec(New(slots), acts).value.running| == slots
  {
    acts := seq(slots, n requires 0 <= n < slots => Reserve(VMID(seq(n, _ => 'v')), true, false));
    forall m, n | 0 <= m < n < slots
      ensures acts[m].id != acts[n].id
    {
      assert |acts[m].id.name| == m && |acts[n].id.name| == n;
    }
    FirstComeFirstAdmitted(New(slots), acts);
  }

  // --------------------------------------------------------------- one Start at a time

  /** What a step makes of Start i. */
  ghost function Becomes(s: State, a: Action, i: nat): VM
    requires i < |s.vms|
  {
    var vm := s.vms[i];
    match a
    case BootCancelled(j) => if i == j then vm.(phase := Failed(ErrCancelled)) else vm
    case BootEnds(j) =>
      if i != j then vm
      else if vm.fails then vm.(phase := Failed(ErrBootFailed))
      else if s.closed then vm.(phase := Failed(ErrClosed))
      else if vm.hasTTL then vm.(phase := Started, timer := Armed)
      else vm.(phase := Started)
    case Fire(j) => if i == j then vm.(timer := Fired) else vm
    case Reap(j) =>
      if i != j then vm
      else vm.(timer := if !s.closed && vm.id in s.running then Reporting else Leaving)
    case Report(j) => if i == j then vm.(timer := Leaving) else vm
    case Leave(j) => if i == j then vm.(timer := Finished) else vm
    case Stop(id) =>
      if !s.closed && id == vm.id && Holds(s, i) && vm.timer == Armed then vm.(timer := Cancelled) else vm
    case BeginClose =>
      if !s.closed && Holds(s, i) && vm.timer == Armed then vm.(timer := Cancelled) else vm
    case Reserve(_, _, _) => vm
    case Read => vm
    case FinishClose => vm
  }

  lemma HolderIsRunning(s: State, i: nat)
    requires Owned(s) && i < |s.vms|
    ensures Holds(s, i) <==> i in s.running.Values
  {
    if i in s.running.Values {
      var id :| id in s.running && s.running[id] == i;
    }
  }

  lemma StopMakes(s: State, id: VMID, i: nat)
    requires Owned(s) && i < |s.vms|
    ensures DoStop(s, id).vms == s.vms || |DoStop(s, id).vms| == |s.vms|
    ensures i < |DoStop(s, id).vms| && DoStop(s, id).vms[i] == Becomes(s, Stop(id), i)
  {
  }

  lemma CloseMakes(s: State, i: nat)
    requires Owned(s) && i < |s.vms|
    ensures i < |DoBeginClose(s).vms| && DoBeginClose(s).vms[i] == Becomes(s, BeginClose, i)
  {
    HolderIsRunning(s, i);
  }

  lemma StepMakes(s: State, a: Action, i: nat)
    requires Owned(s) && Enabled(s, a) && i < |s.vms|
    ensures i < |Apply(s, a).vms| && Apply(s, a).vms[i] == Becomes(s, a, i)
  {
    match a {
      case Reserve(_, _, _) =>
      case BootCancelled(_) =>
      case BootEnds(_) =>
      case Fire(_) =>
      case Reap(_) =>
      case Report(_) =>
      case Leave(_) =>
      case Stop(id) => StopMakes(s, id, i);
      case Read =>
      case BeginClose => CloseMakes(s, i);
      case FinishClose =>
    }
  }

  lemma StepAdds(s: State, a: Action)
    requires Owned(s) && Enabled(s, a)
    ensures var s' := Apply(s, a);
      && |s'.vms| == |s.vms| + (if a.Reserve? && Refusal(s, a.id) == None then 1 else 0)
      && (|s'.vms| > |s.vms| ==> a.Reserve? && s'.vms[|s.vms|] == VM(a.id, a.hasTTL, a.fails, Booting, Unset))
      && s'.closed == (s.closed || a == BeginClose)
      && s'.channelClosed == (s.channelClosed || a == FinishClose)
  {
    match a {
      case Reserve(_, _, _) =>
      case BootCancelled(_) =>
      case BootEnds(_) =>
      case Fire(_) =>
      case Reap(_) =>
      case Report(_) =>
      case Leave(_) =>
      case Stop(_) =>
      case Read =>
      case BeginClose =>
      case FinishClose =>
    }
  }

  // ------------------------------------------------------------------ how Starts end

  /** How Start i stands, from the steps taken: a boot that ends starts the VM, unless it fails or
      finds the hypervisor closed, and arms the timer of a VM with a time to live. */
  predicate BootTells(vm: VM, i: nat, acts: seq<Action>) {
    match vm.phase
    case Booting => BootCancelled(i) !in acts && BootEnds(i) !in acts
    case Started => BootEnds(i) in acts && BootCancelled(i) !in acts && !vm.fails
    case Failed(why) =>
      if BootCancelled(i) in acts then why == ErrCancelled && BootEnds(i) !in acts
      else
        && BootEnds(i) in acts
        && (why == ErrBootFailed <==> vm.fails)
        && (!vm.fails ==> why == ErrClosed && BeginClose in acts)
  }

  predicate TimerTells(vm: VM, i: nat, acts: seq<Action>) {
    match vm.timer
    case Unset => Fire(i) !in acts && Reap(i) !in acts && Leave(i) !in acts && !(vm.phase.Started? && vm.hasTTL)
    case Armed => Fire(i) !in acts && Reap(i) !in acts && Leave(i) !in acts
    case Cancelled => Fire(i) !in acts && Leave(i) !in acts
    case Fired => Fire(i) in acts && Reap(i) !in acts && Leave(i) !in acts
    case Reporting => Reap(i) in acts && Leave(i) !in acts
    case Leaving => Reap(i) in acts && Leave(i) !in acts
    case Finished => Leave(i) in acts
  }

  predicate Subject(a: Action, i: nat) {
    match a
    case BootCancelled(j) => i == j
    case BootEnds(j) => i == j
    case Fire(j) => i == j
    case Reap(j) => i == j
    case Report(j) => i == j
    case Leave(j) => i == j
    case _ => false
  }

  ghost predicate HistoryTells(s: State, acts: seq<Action>) {
    && (s.closed <==> BeginClose in acts)
    && (s.channelClosed <==> FinishClose in acts)
    && (forall i: nat :: i < |s.vms| ==> BootTells(s.vms[i], i, acts) && TimerTells(s.vms[i], i, acts))
    && (forall n, i: nat :: 0 <= n < |acts| && Subject(acts[n], i) ==> i < |s.vms|)
  }

  lemma StepTells(s: State, acts: seq<Action>, a: Action, i: nat)
    requires Owned(s) && NoEarlyTimers(s.vms) && Enabled(s, a) && i < |s.vms|
    requires s.closed <==> BeginClose in acts
    requires BootTells(s.vms[i], i, acts) && TimerTells(s.vms[i], i, acts)
    ensures BootTells(Becomes(s, a, i), i, acts + [a]) && TimerTells(Becomes(s, a, i), i, acts + [a])
  {
    assert TimerFits(s.vms[i]);
    match a {
      case Reserve(_, _, _) =>
      case BootCancelled(_) =>
      case BootEnds(_) =>
      case Fire(_) =>
      case Reap(_) =>
      case Report(_) =>
      case Leave(_) =>
      case Stop(_) =>
      case Read =>
      case BeginClose =>
      case FinishClose =>
    }
  }

  lemma NewcomerTells(s: State, acts: seq<Action>, a: Action)
    requires HistoryTells(s, acts) && a.Reserve?
    ensures var vm := VM(a.id, a.hasTTL, a.fails, Booting, Unset);
      BootTells(vm, |s.vms|, acts + [a]) && TimerTells(vm, |s.vms|, acts + [a])
  {
    var i := |s.vms|;
    forall n | 0 <= n < |acts|
      ensures !Subject(acts[n], i)
    {
    }
  }

  lemma SubjectIsKnown(s: State, a: Action, i: nat)
    requires Enabled(s, a) && Subject(a, i)
    ensures i < |s.vms|
  {
  }

  lemma StepKeepsTelling(s: State, acts: seq<Action>, a: Action)
    requires Owned(s) && NoEarlyTimers(s.vms) && Enabled(s, a) && HistoryTells(s, acts)
    ensures HistoryTells(Apply(s, a), acts + [a])
  {
    hide Apply, Enabled, Owned, NoEarlyTimers, BootTells, TimerTells;
    var end, more := Apply(s, a), acts + [a];
    StepAdds(s, a);
    forall i: nat | i < |end.vms|
      ensures BootTells(end.vms[i], i, more) && TimerTells(end.vms[i], i, more)
    {
      if i < |s.vms| {
        StepMakes(s, a, i);
        StepTells(s, acts, a, i);
      } else {
        NewcomerTells(s, acts, a);
      }
    }
    forall n, i: nat | 0 <= n < |more| && Subject(more[n], i)
      ensures i < |end.vms|
    {
      if n == |acts| { SubjectIsKnown(s, a, i); }
    }
  }

  /** Over every interleaving, how a Start ended and where its timer is are those the steps taken
      say. */
  lemma {:induction false} OutcomesFollowHistory(slots: nat, acts: seq<Action>)
    requires Exec(New(slots), acts).Some?
    ensures HistoryTells(Exec(New(slots), acts).value, acts)
  {
    if acts == [] {
    } else {
      hide Exec, Apply, Enabled, Owned, NoEarlyTimers, Safe, HistoryTells, New;
      var front, a := acts[..|acts| - 1], acts[|acts| - 1];
      ExecFront(New(slots), acts);
      OutcomesFollowHistory(slots, front);
      RunsAreSafe(slots, front);
      StepKeepsTelling(Exec(New(slots), front).value, front, a);
      assert acts == front + [a];
    }
  }

  // ------------------------------------------------------------------ stop and report

  /** Stop takes out exactly the VM running under the id, disarming its timer, and is refused exactly when there is none
      or the hypervisor is closed. */
  lemma StopTakesOutTheRunning(s: State, id: VMID)
    requires Owned(s)
    ensures var s' := Apply(s, Stop(id));
      && (StopError(s, id) == None <==> !s.closed && id in s.running)
      && (StopError(s, id) == Some(ErrClosed) <==> s.closed)
      && if !s.closed && id in s.running then
           && s'.running == s.running - {id} && s'.stopped == s.stopped + [s.running[id]]
           && s.running[id] < |s'.vms| && s'.vms[s.running[id]].timer != Armed
         else s' == s
  {
  }

  /** A callback takes out the VM running under its id, and goes on to report it, unless there is
      none. */
  lemma ExpiryTakesOutTheRunning(s: State, i: nat)
    requires Safe(s) && i < |s.vms| && s.vms[i].timer == Fired
    ensures var s', id := Apply(s, Reap(i)), s.vms[i].id;
      && s'.running == s.running - {id}
      && s'.reaped == s.reaped + (if id in s.running then [s.running[id]] else [])
      && s'.vms == s.vms[i := s.vms[i].(timer := if id in s.running then Reporting else Leaving)]
  {
    hide LiveTimers;
  }

  /** The report is dropped exactly when four for every slot wait to be read. */
  lemma ReportIsDroppedExactlyWhenFull(s: State, i: nat)
    requires Safe(s) && i < |s.vms| && s.vms[i].timer == Reporting
    ensures var s', news := Apply(s, Report(i)), if |s.expired| < 4 * s.slots then [s.vms[i].id] else [];
      s'.reported == s.reported + news && s'.expired == s.expired + news && s'.running == s.running
  {
    assert i in LiveTimers(s.vms);
    hide LiveTimers;
  }

  // ----------------------------------------------------------------------- close

  /** Once Close has begun, only a Start that Stop took out has an armed timer. */
  ghost predicate OnlyStrayTimers(s: State) {
    s.closed ==> forall i: nat :: i < |s.vms| && s.vms[i].timer == Armed ==> i in s.stopped
  }

  lemma StepKeepsStrays(s: State, a: Action, i: nat)
    requires Fates(s) && Enabled(s, a) && OnlyStrayTimers(s)
    requires Apply(s, a).closed && i < |s.vms| && Becomes(s, a, i).timer == Armed
    ensures i in s.stopped
  {
    assert Fate(s, i);
    match a {
      case Reserve(_, _, _) =>
      case BootCancelled(_) =>
      case BootEnds(_) =>
      case Fire(_) =>
      case Reap(_) =>
      case Report(_) =>
      case Leave(_) =>
      case Stop(_) =>
      case Read =>
      case BeginClose =>
      case FinishClose =>
    }
  }

  lemma StoppedStays(s: State, a: Action, i: nat)
    requires Owned(s) && Enabled(s, a) && i in s.stopped
    ensures i in Apply(s, a).stopped
  {
    match a {
      case Reap(_) =>
      case Stop(_) =>
      case _ =>
    }
  }

  /** Over every careful run, Close disarms the timers of all the VMs then running, and none is armed
      after it but those of Starts that Stop had taken out. */
  lemma {:induction false} CloseDisarms(slots: nat, acts: seq<Action>)
    requires Exec(New(slots), acts).Some? && CarefulRun(slots, acts)
    ensures OnlyStrayTimers(Exec(New(slots), acts).value)
  {
    if acts == [] {
    } else {
      hide Apply, Enabled, Owned, Fates, OnlyStrayTimers, Careful;
      var front, a := acts[..|acts| - 1], acts[|acts| - 1];
      CloseDisarms(slots, front);
      CarefulRunsSettle(slots, front);
      StrayStep(Exec(New(slots), front).value, a);
    }
  }

  lemma StrayStep(s: State, a: Action)
    requires Fates(s) && Enabled(s, a) && OnlyStrayTimers(s)
    ensures OnlyStrayTimers(Apply(s, a))
  {
    FatesOwn(s);
    hide Enabled, Apply, Fates, Owned;
    StepAdds(s, a);
    forall i: nat | i < |Apply(s, a).vms| && Apply(s, a).closed && Apply(s, a).vms[i].timer == Armed
      ensures i in Apply(s, a).stopped
    {
      if i < |s.vms| {
        StepMakes(s, a, i);
        StepKeepsStrays(s, a, i);
        StoppedStays(s, a, i);
      }
    }
  }

  lemma FatesOwn(s: State)
    requires Fates(s)
    ensures Owned(s)
  {
  }

  predicate IsCallback(a: Action) {
    a.Fire? || a.Reap? || a.Leave?
  }

  ghost predicate WindingUp(s: State) {
    Safe(s) && NoEarlyTimers(s.vms) && s.closed && !s.channelClosed
  }

  lemma {:induction false} ExecJoins(s: State, front: seq<Action>, back: seq<Action>)
    requires Exec(s, front).Some?
    ensures Exec(s, front + back) == Exec(Exec(s, front).value, back)
  {
    hide Apply, Enabled, Owned;
    if back == [] {
      assert front + back == front;
    } else {
      var n := |back| - 1;
      ExecJoins(s, front, back[..n]);
      assert (front + back)[..|front| + n] == front + back[..n];
      assert (front + back)[|front| + n] == back[n];
    }
  }

  lemma OneStep(s: State, a: Action)
    requires Owned(s) && Enabled(s, a)
    ensures Exec(s, [a]) == Some(Apply(s, a))
  {
    assert [a][..0] == [];
    assert Exec(s, []) == Some(s);
  }

  /** The next step of a timer or callback once Close has begun. */
  function NextStep(t: Timer, i: nat): Action
    requires Live(t)
  {
    match t
    case Armed => Fire(i)
    case Fired => Reap(i)
    case Reporting => Report(i)
    case Leaving => Leave(i)
  }

  /** The steps every live timer and callback still has ahead of it. */
  function Ahead(t: Timer): nat {
    match t
    case Armed => 3
    case Fired => 2
    case Reporting => 2
    case Leaving => 1
    case _ => 0
  }

  function AllAhead(vms: seq<VM>): nat {
    if vms == [] then 0 else AllAhead(vms[..|vms| - 1]) + Ahead(vms[|vms| - 1].timer)
  }

  lemma {:induction false} OneLess(vms: seq<VM>, i: nat, vm: VM)
    requires i < |vms|
    ensures AllAhead(vms[i := vm]) == AllAhead(vms) - Ahead(vms[i].timer) + Ahead(vm.timer)
  {
    var last := |vms| - 1;
    if i == last {
      assert vms[i := vm][..last] == vms[..last];
    } else {
      OneLess(vms[..last], i, vm);
      assert vms[i := vm][..last] == vms[..last][i := vm];
    }
  }

  lemma CallbackAdvances(s: State, i: nat)
    requires WindingUp(s) && i < |s.vms| && Live(s.vms[i].timer)
    ensures var a := NextStep(s.vms[i].timer, i);
      && Enabled(s, a) && Apply(s, a).closed && !Apply(s, a).channelClosed
      && AllAhead(Apply(s, a).vms) == AllAhead(s.vms) - 1
  {
    var a := NextStep(s.vms[i].timer, i);
    var s' := Apply(s, a);
    assert s'.vms == s.vms[i := s'.vms[i]];
    OneLess(s.vms, i, s'.vms[i]);
  }

  lemma CanFinish(s: State)
    requires WindingUp(s) && LiveTimers(s.vms) == {}
    ensures Enabled(s, FinishClose) && Apply(s, FinishClose).channelClosed
  {
  }

  /** Once Close has begun it can always get to its end, by steps of timers and callbacks alone: no
      caller need stop, read or do anything else. */
  lemma {:induction false} CloseCanFinish(s: State) returns (acts: seq<Action>)
    requires WindingUp(s)
    ensures Exec(s, acts).Some? && Exec(s, acts).value.channelClosed
    ensures forall a :: a in acts ==> IsCallback(a) || a.Report? || a == FinishClose
    decreases AllAhead(s.vms)
  {
    var a;
    var rest: seq<Action> := [];
    if i: nat :| i < |s.vms| && Live(s.vms[i].timer) {
      CallbackAdvances(s, i);
      a := NextStep(s.vms[i].timer, i);
      StepIsSafe(s, a);
      StepHasNoEarlyTimers(s, a);
      hide Apply, Enabled;
      rest := CloseCanFinish(Apply(s, a));
    } else {
      assert LiveTimers(s.vms) == {};
      CanFinish(s);
      a := FinishClose;
      hide Apply, Enabled;
    }
    OneStep(s, a);
    ExecJoins(s, [a], rest);
    acts := [a] + rest;
  }
}
