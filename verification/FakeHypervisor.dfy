/** The in-process hypervisor's reservation, timer and close protocol
    (internal/hypervisor/fake.go), as a system of interleaved steps. A step is one critical section
    of the mutex, one channel operation, or one wait-group call. */
module FakeHypervisor {
  import opened Common

  datatype Error = ErrClosed | ErrDuplicateVM | ErrNoCapacity | ErrUnknownVM | ErrBootFailed | ErrCancelled

  /** A TTL timer and its callback: Fired has the callback about to take the lock, Reporting about
      to send, Leaving about to leave the wait group. */
  datatype Timer = Unset | Armed | Fired | Reporting | Leaving | Finished | Cancelled

  datatype Phase = Booting | Started | Failed(why: Error)

  /** One admitted Start. */
  datatype VM = VM(id: VMID, hasTTL: bool, fails: bool, phase: Phase, timer: Timer)

  /** Starts are numbered as they are admitted; running maps an id to the Start that reserved its
      slot. stopped, reaped and reporters record the Starts that Stop took out, that a callback took
      out, and whose callback reported; reported and read are the ids the channel accepted and the
      consumer received. */
  datatype State = State(
    slots: nat,
    vms: seq<VM>,
    running: map<VMID, nat>,
    closed: bool,
    wg: int,
    expired: seq<VMID>,
    channelClosed: bool,
    panicked: bool,
    stopped: seq<nat>,
    reaped: seq<nat>,
    reporters: seq<nat>,
    reported: seq<VMID>,
    read: seq<VMID>)

  const BUFFER_PER_SLOT: nat := 4

  datatype Action =
    | Reserve(id: VMID, hasTTL: bool, fails: bool)
    | BootCancelled(vm: nat)
    | BootEnds(vm: nat)
    | Fire(vm: nat)
    | Reap(vm: nat)
    | Report(vm: nat)
    | Leave(vm: nat)
    | Stop(id: VMID)
    | Read
    | BeginClose
    | FinishClose

  function New(slots: nat): State {
    State(slots, [], map[], false, 0, [], false, false, [], [], [], [], [])
  }

  // -------------------------------------------------------------- transitions

  predicate Enabled(s: State, a: Action) {
    match a
    case Reserve(_, _, _) => true
    case BootCancelled(i) => i < |s.vms| && s.vms[i].phase == Booting
    case BootEnds(i) => i < |s.vms| && s.vms[i].phase == Booting
    case Fire(i) => i < |s.vms| && s.vms[i].timer == Armed
    case Reap(i) => i < |s.vms| && s.vms[i].timer == Fired
    case Report(i) => i < |s.vms| && s.vms[i].timer == Reporting
    case Leave(i) => i < |s.vms| && s.vms[i].timer == Leaving
    case Stop(_) => true
    case Read => s.expired != []
    case BeginClose => true
    case FinishClose => s.closed && !s.channelClosed && s.wg == 0
  }

  /** Start's first critical section refuses for one of these reasons. */
  function Refusal(s: State, id: VMID): Option<Error> {
    if s.closed then Some(ErrClosed)
    else if id in s.running then Some(ErrDuplicateVM)
    else if |s.running| >= s.slots then Some(ErrNoCapacity)
    else None
  }

  function DoReserve(s: State, id: VMID, hasTTL: bool, fails: bool): State {
    if Refusal(s, id).Some? then s
    else
      s.(vms := s.vms + [VM(id, hasTTL, fails, Booting, Unset)],
         running := s.running[id := |s.vms|])
  }

  function SetTimer(s: State, i: nat, t: Timer): State
    requires i < |s.vms|
  {
    s.(vms := s.vms[i := s.vms[i].(timer := t)])
  }

  /** A boot that comes to nothing gives back whatever slot its id holds. */
  function DoFail(s: State, i: nat, why: Error): State
    requires i < |s.vms|
  {
    s.(vms := s.vms[i := s.vms[i].(phase := Failed(why))],
       running := s.running - {s.vms[i].id})
  }

  function DoCommit(s: State, i: nat): State
    requires i < |s.vms|
  {
    var vm := s.vms[i];
    if s.closed then s.(vms := s.vms[i := vm.(phase := Failed(ErrClosed))])
    else if vm.hasTTL then
      s.(vms := s.vms[i := vm.(phase := Started, timer := Armed)], wg := s.wg + 1)
    else s.(vms := s.vms[i := vm.(phase := Started)])
  }

  function DoReap(s: State, i: nat): State
    requires i < |s.vms|
  {
    var id := s.vms[i].id;
    if s.closed || id !in s.running then SetTimer(s, i, Leaving)
    else SetTimer(s, i, Reporting).(running := s.running - {id}, reaped := s.reaped + [s.running[id]])
  }

  /** A send that does not block; on a closed channel it panics. */
  function DoReport(s: State, i: nat): State
    requires i < |s.vms|
  {
    var left := SetTimer(s, i, Leaving);
    var id := s.vms[i].id;
    if s.channelClosed then left.(panicked := true)
    else if |s.expired| < BUFFER_PER_SLOT * s.slots then
      left.(expired := s.expired + [id], reporters := s.reporters + [i], reported := s.reported + [id])
    else left
  }

  /** The wait group panics below zero. */
  function LeaveGroup(s: State): State {
    s.(wg := s.wg - 1, panicked := s.panicked || s.wg <= 0)
  }

  function StopError(s: State, id: VMID): Option<Error> {
    if s.closed then Some(ErrClosed)
    else if id !in s.running then Some(ErrUnknownVM)
    else None
  }

  function DoStop(s: State, id: VMID): State
    requires id in s.running ==> s.running[id] < |s.vms|
  {
    if StopError(s, id).Some? then s
    else
      var i := s.running[id];
      var gone := s.(running := s.running - {id}, stopped := s.stopped + [i]);
      if s.vms[i].timer == Armed then LeaveGroup(SetTimer(gone, i, Cancelled)) else gone
  }

  /** The timers Close disarms: those of running VMs that have not fired. */
  ghost function Disarmed(s: State): set<nat> {
    set i: nat | i < |s.vms| && i in s.running.Values && s.vms[i].timer == Armed
  }

  ghost function DoBeginClose(s: State): State {
    if s.closed then s
    else
      s.(closed := true,
         running := map[],
         vms := seq(|s.vms|, i requires 0 <= i < |s.vms| =>
           if i in Disarmed(s) then s.vms[i].(timer := Cancelled) else s.vms[i]),
         wg := s.wg - |Disarmed(s)|)
  }

  ghost function Apply(s: State, a: Action): State
    requires Enabled(s, a) && Owned(s)
  {
    match a
    case Reserve(id, hasTTL, fails) => DoReserve(s, id, hasTTL, fails)
    case BootCancelled(i) => DoFail(s, i, ErrCancelled)
    case BootEnds(i) => if s.vms[i].fails then DoFail(s, i, ErrBootFailed) else DoCommit(s, i)
    case Fire(i) => SetTimer(s, i, Fired)
    case Reap(i) => DoReap(s, i)
    case Report(i) => DoReport(s, i)
    case Leave(i) => LeaveGroup(SetTimer(s, i, Finished))
    case Stop(id) => DoStop(s, id)
    case Read => s.(expired := s.expired[1..], read := s.read + [s.expired[0]])
    case BeginClose => DoBeginClose(s)
    case FinishClose => s.(channelClosed := true)
  }

  ghost function Exec(s: State, acts: seq<Action>): Option<State> {
    if acts == [] then Some(s)
    else
      match Exec(s, acts[..|acts| - 1])
      case None => None
      case Some(mid) =>
        var a := acts[|acts| - 1];
        if Owned(mid) && Enabled(mid, a) then Some(Apply(mid, a)) else None
  }

  // --------------------------------------------------------- every interleaving

  /** A reservation belongs to a Start for the same id. */
  ghost predicate Owned(s: State) {
    forall id :: id in s.running ==> s.running[id] < |s.vms| && s.vms[s.running[id]].id == id
  }

  predicate Live(t: Timer) {
    t == Armed || t == Fired || t == Reporting || t == Leaving
  }

  /** Armed timers and callbacks that have not left the wait group. */
  ghost function LiveTimers(vms: seq<VM>): set<nat> {
    set i: nat | i < |vms| && Live(vms[i].timer)
  }

  ghost predicate Safe(s: State) {
    && Owned(s)
    && |s.running| <= s.slots
    && s.wg == |LiveTimers(s.vms)|
    && !s.panicked
    && |s.expired| <= BUFFER_PER_SLOT * s.slots
    && (s.closed ==> s.running == map[])
    && (s.channelClosed ==> s.closed && s.wg == 0)
    && s.read + s.expired == s.reported
  }

  lemma TimerMoves(s: State, i: nat, vm: VM)
    requires i < |s.vms|
    ensures var before, after := LiveTimers(s.vms), LiveTimers(s.vms[i := vm]);
      && (Live(s.vms[i].timer) <==> i in before)
      && (Live(vm.timer) <==> i in after)
      && |after| == |before| + (if Live(vm.timer) then 1 else 0) - (if Live(s.vms[i].timer) then 1 else 0)
  {
    var before, after := LiveTimers(s.vms), LiveTimers(s.vms[i := vm]);
    assert before - {i} == after - {i};
    assert |before| == |before - {i}| + if i in before then 1 else 0;
    assert |after| == |after - {i}| + if i in after then 1 else 0;
  }

  lemma ReserveIsSafe(s: State, id: VMID, hasTTL: bool, fails: bool)
    requires Safe(s)
    ensures Safe(DoReserve(s, id, hasTTL, fails))
  {
    assert LiveTimers(DoReserve(s, id, hasTTL, fails).vms) == LiveTimers(s.vms);
  }

  lemma FailIsSafe(s: State, i: nat, why: Error)
    requires Safe(s) && i < |s.vms| && s.vms[i].timer == Unset
    ensures Safe(DoFail(s, i, why))
  {
    TimerMoves(s, i, s.vms[i].(phase := Failed(why)));
    KeysShrink(s.running, s.vms[i].id);
  }

  lemma CommitIsSafe(s: State, i: nat)
    requires Safe(s) && i < |s.vms| && s.vms[i].timer == Unset
    ensures Safe(DoCommit(s, i))
  {
    TimerMoves(s, i, DoCommit(s, i).vms[i]);
  }

  /** A Start has no timer before it commits. */
  ghost predicate NoEarlyTimers(vms: seq<VM>) {
    forall i :: 0 <= i < |vms| ==> TimerFits(vms[i])
  }

  predicate TimerFits(vm: VM) {
    vm.timer != Unset ==> vm.hasTTL && vm.phase == Started
  }

  lemma TimerStepIsSafe(s: State, i: nat, t: Timer)
    requires Safe(s) && i < |s.vms| && Live(s.vms[i].timer) && Live(t)
    ensures Safe(SetTimer(s, i, t))
  {
    TimerMoves(s, i, s.vms[i].(timer := t));
  }

  lemma ReapIsSafe(s: State, i: nat)
    requires Safe(s) && i < |s.vms| && s.vms[i].timer == Fired
    ensures Safe(DoReap(s, i))
  {
    TimerStepIsSafe(s, i, Leaving);
    TimerStepIsSafe(s, i, Reporting);
    KeysShrink(s.running, s.vms[i].id);
  }

  lemma ReportIsSafe(s: State, i: nat)
    requires Safe(s) && i < |s.vms| && s.vms[i].timer == Reporting
    ensures Safe(DoReport(s, i))
  {
    TimerStepIsSafe(s, i, Leaving);
    assert i in LiveTimers(s.vms);
    assert s.read + (s.expired + [s.vms[i].id]) == (s.read + s.expired) + [s.vms[i].id];
  }

  lemma LeaveIsSafe(s: State, i: nat)
    requires Safe(s) && i < |s.vms| && s.vms[i].timer == Leaving
    ensures Safe(LeaveGroup(SetTimer(s, i, Finished)))
  {
    TimerMoves(s, i, s.vms[i].(timer := Finished));
  }

  lemma StopIsSafe(s: State, id: VMID)
    requires Safe(s)
    ensures Safe(DoStop(s, id))
  {
    KeysShrink(s.running, id);
    if StopError(s, id) == None {
      var i := s.running[id];
      TimerMoves(s, i, s.vms[i].(timer := Cancelled));
    }
  }

  lemma BeginCloseIsSafe(s: State)
    requires Safe(s)
    ensures Safe(DoBeginClose(s))
  {
    if !s.closed {
      ClosingDisarms(s);
      hide LiveTimers, Disarmed;
    }
  }

  lemma ClosingDisarms(s: State)
    requires !s.closed
    ensures |LiveTimers(DoBeginClose(s).vms)| == |LiveTimers(s.vms)| - |Disarmed(s)|
  {
    assert Disarmed(s) <= LiveTimers(s.vms);
    assert LiveTimers(DoBeginClose(s).vms) == LiveTimers(s.vms) - Disarmed(s);
    PartSize(LiveTimers(s.vms), Disarmed(s));
  }

  lemma StepIsSafe(s: State, a: Action)
    requires Safe(s) && NoEarlyTimers(s.vms) && Enabled(s, a)
    ensures Safe(Apply(s, a))
  {
    match a {
      case Reserve(id, hasTTL, fails) => ReserveIsSafe(s, id, hasTTL, fails);
      case BootCancelled(i) => FailIsSafe(s, i, ErrCancelled);
      case BootEnds(i) => if s.vms[i].fails { FailIsSafe(s, i, ErrBootFailed); } else { CommitIsSafe(s, i); }
      case Fire(i) => TimerStepIsSafe(s, i, Fired);
      case Reap(i) => ReapIsSafe(s, i);
      case Report(i) => ReportIsSafe(s, i);
      case Leave(i) => LeaveIsSafe(s, i);
      case Stop(id) => StopIsSafe(s, id);
      case Read => assert [s.expired[0]] + s.expired[1..] == s.expired;
      case BeginClose => BeginCloseIsSafe(s);
      case FinishClose =>
    }
  }

  lemma ReapHasNoEarlyTimers(s: State, i: nat)
    requires NoEarlyTimers(s.vms) && i < |s.vms| && s.vms[i].timer == Fired
    ensures NoEarlyTimers(DoReap(s, i).vms)
  {
    assert TimerFits(s.vms[i]);
  }

  lemma StopHasNoEarlyTimers(s: State, id: VMID)
    requires Owned(s) && NoEarlyTimers(s.vms)
    ensures NoEarlyTimers(DoStop(s, id).vms)
  {
    if id in s.running {
      assert TimerFits(s.vms[s.running[id]]);
    }
  }

  lemma BeginCloseHasNoEarlyTimers(s: State)
    requires NoEarlyTimers(s.vms)
    ensures NoEarlyTimers(DoBeginClose(s).vms)
  {
    forall i | 0 <= i < |s.vms|
      ensures TimerFits(DoBeginClose(s).vms[i])
    {
      assert TimerFits(s.vms[i]);
    }
  }

  lemma StepHasNoEarlyTimers(s: State, a: Action)
    requires Owned(s) && NoEarlyTimers(s.vms) && Enabled(s, a)
    ensures NoEarlyTimers(Apply(s, a).vms)
  {
    match a {
      case BeginClose => BeginCloseHasNoEarlyTimers(s);
      case Stop(id) => StopHasNoEarlyTimers(s, id);
      case Reap(i) => ReapHasNoEarlyTimers(s, i);
      case _ =>
    }
  }

  /** In every interleaving at most slots VMs are running, the wait group counts the armed timers
      and unfinished callbacks, nothing panics, and the consumer reads what was reported in order. */
  lemma {:induction false} RunsAreSafe(slots: nat, acts: seq<Action>)
    requires Exec(New(slots), acts).Some?
    ensures Safe(Exec(New(slots), acts).value) && NoEarlyTimers(Exec(New(slots), acts).value.vms)
  {
    if acts == [] {
      assert LiveTimers(New(slots).vms) == {};
    } else {
      hide Safe, NoEarlyTimers, Apply, Enabled, Owned;
      var front, a := acts[..|acts| - 1], acts[|acts| - 1];
      RunsAreSafe(slots, front);
      var mid := Exec(New(slots), front).value;
      StepIsSafe(mid, a);
      StepHasNoEarlyTimers(mid, a);
    }
  }

  /** Once Close has begun the wait group only shrinks, so waiting on it is sound; and once the
      channel is closed no callback is left to send on it. */
  lemma CloseIsSound(s: State, a: Action)
    requires Safe(s) && Enabled(s, a) && s.closed
    ensures Apply(s, a).wg <= s.wg && Apply(s, a).running == map[]
    ensures s.channelClosed ==> !(a.Fire? || a.Reap? || a.Report? || a.Leave?)
  {
    if a.Fire? || a.Reap? || a.Report? || a.Leave? {
      assert a.vm in LiveTimers(s.vms);
    }
  }
}
