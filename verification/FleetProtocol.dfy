/** The simulated fleet's control loop interleaved with readiness timers, placements and releases
    (internal/sim/fleet.go). A step is one critical section of the fleet's mutex or one call into
    the scheduler. */
module FleetProtocol {
  import opened Common
  import opened SchedulerSpec

  // -------------------------------------------------------------------- pod names

  function Digit(d: nat): char
    requires d < 10
  {
    '0' + d as char
  }

  function Decimal(n: nat): (s: string)
    ensures s != []
  {
    if n < 10 then [Digit(n)] else Decimal(n / 10) + [Digit(n % 10)]
  }

  function Name(n: nat): HostID {
    HostID("vmhost-" + Decimal(n))
  }

  predicate Digits(s: string) {
    forall i :: 0 <= i < |s| ==> '0' <= s[i] <= '9'
  }

  /** The number a string of digits stands for. */
  function Reads(s: string): nat
    requires Digits(s)
  {
    if s == "" then 0 else Reads(s[..|s| - 1]) * 10 + (s[|s| - 1] as int - '0' as int)
  }

  lemma {:induction false} DecimalReads(n: nat)
    ensures Digits(Decimal(n)) && Reads(Decimal(n)) == n && (Decimal(n)[0] == '0' ==> n == 0 && |Decimal(n)| == 1)
  {
    var s := Decimal(n);
    assert s[|s| - 1] as int == '0' as int + n % 10;
    if n < 10 {
      assert s[..0] == "" && Reads("") == 0;
    } else {
      DecimalReads(n / 10);
      assert s[..|s| - 1] == Decimal(n / 10);
    }
  }

  /** A pod's name is vmhost- and its number in decimal, without leading zeros. */
  lemma NameReads(n: nat)
    ensures var s := Name(n).name;
      && |s| > 7 && s[..7] == "vmhost-" && Digits(s[7..]) && Reads(s[7..]) == n
      && (s[7] == '0' ==> n == 0 && |s| == 8)
  {
    DecimalReads(n);
    assert Name(n).name[7..] == Decimal(n);
  }

  /** So pod names are unique. */
  lemma NamesDiffer(m: nat, n: nat)
    requires Name(m) == Name(n)
    ensures m == n
  {
    NameReads(m);
    NameReads(n);
  }

  /** The first n names. */
  ghost predicate Issued(id: HostID, n: nat) {
    exists k: nat :: k < n && id == Name(k)
  }

  lemma NextNameIsNew(n: nat)
    ensures !Issued(Name(n), n) && Issued(Name(n), n + 1)
    ensures forall id :: Issued(id, n) ==> Issued(id, n + 1)
  {
    if Issued(Name(n), n) {
      var k: nat :| k < n && Name(n) == Name(k);
      NamesDiffer(n, k);
    }
  }

  // ------------------------------------------------------------------------ state

  datatype After = ThenDecide(desired: int) | ThenIdle

  /** Where the control loop is. */
  datatype Loop =
    | Idle
    | Reaping(after: After)
    | Looking(pending: set<HostID>, after: After)
    | Sweeping(left: set<HostID>, used: map<HostID, int>, after: After)
    | Forgetting(gone: HostID, left: set<HostID>, used: map<HostID, int>, after: After)
    | Deciding(desired: int)
    | Starting(n: nat)
    | Adding(name: HostID, n: nat)
    | Draining(todo: seq<HostID>)
    | Marking(id: HostID, todo: seq<HostID>)

  /** scheduled and checked are the pods whose markReady has not yet looked at the draining set,
      and has looked but not yet told the scheduler. */
  datatype Fleet = Fleet(
    sched: State,
    next: nat,
    draining: set<HostID>,
    scheduled: set<HostID>,
    checked: set<HostID>,
    loop: Loop)

  datatype Action =
    | Reconcile(desired: int)
    | TakePending
    | Snapshot
    | SweepOne(id: HostID)
    | Forget
    | EndSweep
    | Decide(victims: seq<HostID>)
    | PickName
    | AddPod
    | EndStart
    | DrainPod
    | MarkPod
    | EndDrain
    | CheckReady(id: HostID)
    | MakeReady(id: HostID)
    | Abandon(id: HostID)
    | PlaceVM(vm: VMID)
    | ReleaseVM(vm: VMID)

  // ------------------------------------------------------------------- transitions

  ghost function Live(hosts: Hosts): set<HostID> {
    set id | id in hosts && hosts[id].state != HostState.Draining
  }

  function Fewer(n: int, m: nat): nat { if n < 0 then 0 else if n < m then n else m }

  /** The order of Go strings. */
  predicate NameBefore(a: string, b: string) {
    b != "" && (a == "" || a[0] < b[0] || (a[0] == b[0] && NameBefore(a[1..], b[1..])))
  }

  /** The order in which ready hosts are drained: emptier ones first, then by name. */
  predicate DrainsFirst(hosts: Hosts, a: HostID, b: HostID) {
    UsedOn(hosts, a) < UsedOn(hosts, b) || (UsedOn(hosts, a) == UsedOn(hosts, b) && NameBefore(a.name, b.name))
  }

  /** victims are the n ready hosts first to be drained, in order, or all of them if there are fewer. */
  ghost predicate Emptiest(hosts: Hosts, n: int, victims: seq<HostID>) {
    && NoDup(victims)
    && Elements(victims) <= InState(hosts, Ready)
    && |victims| == Fewer(n, |InState(hosts, Ready)|)
    && (forall i, j :: 0 <= i < j < |victims| ==> DrainsFirst(hosts, victims[i], victims[j]))
    && (forall i, id :: 0 <= i < |victims| && id in InState(hosts, Ready) && id !in victims ==>
          DrainsFirst(hosts, victims[i], id))
  }

  function UsedOn(hosts: Hosts, id: HostID): int {
    if id in hosts then hosts[id].used else 0
  }

  function UsedMap(hosts: Hosts): map<HostID, int> {
    map id | id in hosts :: hosts[id].used
  }

  ghost predicate Enabled(f: Fleet, a: Action) {
    match a
    case Reconcile(_) => f.loop == Idle
    case TakePending => f.loop.Reaping?
    case Snapshot => f.loop.Looking?
    case SweepOne(id) => f.loop.Sweeping? && id in f.loop.left
    case Forget => f.loop.Forgetting?
    case EndSweep => f.loop.Sweeping? && f.loop.left == {}
    case Decide(victims) => f.loop.Deciding?
                            && Emptiest(f.sched.hosts, |Live(f.sched.hosts)| - f.loop.desired, victims)
    case PickName => f.loop.Starting? && f.loop.n > 0
    case AddPod => f.loop.Adding?
    case EndStart => f.loop == Starting(0)
    case DrainPod => f.loop.Draining? && f.loop.todo != []
    case MarkPod => f.loop.Marking?
    case EndDrain => f.loop == Loop.Draining([])
    case CheckReady(id) => id in f.scheduled
    case MakeReady(id) => id in f.checked
    case Abandon(id) => id in f.scheduled
    case PlaceVM(_) => true
    case ReleaseVM(_) => true
  }

  function Resume(after: After): Loop {
    match after
    case ThenDecide(desired) => Deciding(desired)
    case ThenIdle => Idle
  }

  /** One pass of the removal loop: a host that had guests in the snapshot stays; one that had none
      is removed from the scheduler; one that was gone already is only forgotten. */
  ghost function DoSweepOne(f: Fleet, id: HostID): Fleet
    requires Inv(f.sched) && f.loop.Sweeping?
  {
    var Sweeping(left, used, after) := f.loop;
    if id in used && used[id] > 0 then f.(loop := Sweeping(left - {id}, used, after))
    else if id in used then
      var (sched', r) := RemoveHost(f.sched, id);
      if r.Err? then f.(loop := Sweeping(left - {id}, used, after))
      else f.(sched := sched', loop := Forgetting(id, left - {id}, used, after))
    else f.(loop := Forgetting(id, left - {id}, used, after))
  }

  ghost function DoDecide(f: Fleet, victims: seq<HostID>): Fleet
    requires f.loop.Deciding?
  {
    var live, desired := |Live(f.sched.hosts)|, f.loop.desired;
    f.(loop :=
      if live < desired then Starting(desired - live)
      else if live > desired then Loop.Draining(victims)
      else Idle)
  }

  ghost function DoAddPod(slots: int, f: Fleet): Fleet
    requires f.loop.Adding?
  {
    var Adding(name, n) := f.loop;
    var (sched', err) := AddHost(f.sched, name, slots);
    if err.Some? then f.(loop := Starting(n))
    else f.(sched := sched', scheduled := f.scheduled + {name}, loop := Starting(n))
  }

  ghost function DoDrainPod(f: Fleet): Fleet
    requires Inv(f.sched) && f.loop.Draining? && f.loop.todo != []
  {
    var id, rest := f.loop.todo[0], f.loop.todo[1..];
    var (sched', err) := SetHostState(f.sched, id, HostState.Draining);
    if err.Some? then f.(loop := Loop.Draining(rest))
    else f.(sched := sched', loop := Marking(id, rest))
  }

  ghost function Apply(slots: int, f: Fleet, a: Action): Fleet
    requires Inv(f.sched) && Enabled(f, a)
  {
    match a
    case Reconcile(desired) => f.(loop := Reaping(ThenDecide(desired)))
    case TakePending =>
      f.(loop := if f.draining == {} then Resume(f.loop.after) else Looking(f.draining, f.loop.after))
    case Snapshot => f.(loop := Sweeping(f.loop.pending, UsedMap(f.sched.hosts), f.loop.after))
    case SweepOne(id) => DoSweepOne(f, id)
    case Forget =>
      f.(draining := f.draining - {f.loop.gone}, loop := Sweeping(f.loop.left, f.loop.used, f.loop.after))
    case EndSweep => f.(loop := Resume(f.loop.after))
    case Decide(victims) => DoDecide(f, victims)
    case PickName => f.(next := f.next + 1, loop := Adding(Name(f.next), f.loop.n - 1))
    case AddPod => DoAddPod(slots, f)
    case EndStart => f.(loop := Idle)
    case DrainPod => DoDrainPod(f)
    case MarkPod => f.(draining := f.draining + {f.loop.id}, loop := Loop.Draining(f.loop.todo))
    case EndDrain => f.(loop := Reaping(ThenIdle))
    case CheckReady(id) =>
      f.(scheduled := f.scheduled - {id},
         checked := if id in f.draining then f.checked else f.checked + {id})
    case MakeReady(id) => f.(sched := SetHostState(f.sched, id, Ready).0, checked := f.checked - {id})
    case Abandon(id) => f.(scheduled := f.scheduled - {id})
    case PlaceVM(vm) => f.(sched := Place(f.sched, vm).0)
    case ReleaseVM(vm) => f.(sched := Release(f.sched, vm).0)
  }

  function New(policy: Policy): Fleet {
    Fleet(Empty(policy), 0, {}, {}, {}, Idle)
  }

  ghost function Exec(slots: int, f: Fleet, acts: seq<Action>): Option<Fleet> {
    if acts == [] then Some(f)
    else
      match Exec(slots, f, acts[..|acts| - 1])
      case None => None
      case Some(mid) =>
        var a := acts[|acts| - 1];
        if Inv(mid.sched) && Enabled(mid, a) then Some(Apply(slots, mid, a)) else None
  }

  // -------------------------------------------- what scheduler calls do to the hosts

  /** Hosts keep their states, and guests only join ready hosts. */
  ghost predicate OnlyGuestsMoved(s: State, s': State) {
    && s'.hosts.Keys == s.hosts.Keys
    && (forall id :: id in s.hosts ==> s'.hosts[id].state == s.hosts[id].state)
    && (forall vm :: vm in s'.assignment && (vm !in s.assignment || s'.assignment[vm] != s.assignment[vm]) ==>
          Listed(s.hosts, s'.assignment[vm]))
  }

  lemma PlaceMovesGuests(s: State, vm: VMID)
    requires Inv(s)
    ensures OnlyGuestsMoved(s, Place(s, vm).0)
    ensures forall other :: other in s.assignment ==>
      other in Place(s, vm).0.assignment && Place(s, vm).0.assignment[other] == s.assignment[other]
  {
    PlaceRefinesSearch(s, vm);
    hide Inv, Place;
  }

  lemma ReleaseMovesGuests(s: State, vm: VMID)
    requires Inv(s)
    ensures OnlyGuestsMoved(s, Release(s, vm).0)
    ensures forall other :: other in s.assignment && other != vm ==>
      other in Release(s, vm).0.assignment && Release(s, vm).0.assignment[other] == s.assignment[other]
  {
    if vm in s.assignment {
      ReleaseFreesOneSlot(s, vm);
      hide Inv, Release;
    }
  }

  // -------------------------------------------------------------- the invariant

  /** Every pod has an issued name, and nothing in the draining set can come back: its hosts are
      gone or Draining. */
  ghost predicate Tracked(hosts: Hosts, draining: set<HostID>, names: nat) {
    && (forall id :: id in hosts ==> Issued(id, names))
    && (forall id :: id in draining ==>
          Issued(id, names) && (id in hosts ==> hosts[id].state == HostState.Draining))
  }

  /** A pod still to be marked ready is Pending. */
  ghost predicate Readying(f: Fleet) {
    && f.scheduled !! f.checked
    && forall id :: id in f.scheduled + f.checked ==>
         id in f.sched.hosts && f.sched.hosts[id].state == HostState.Pending
  }

  /** How many names the scheduler can have seen. */
  function Names(f: Fleet): nat {
    if f.loop.Adding? && f.next > 0 then f.next - 1 else f.next
  }

  ghost predicate AddsNextName(f: Fleet) {
    f.loop.Adding? ==> f.next > 0 && f.loop.name == Name(f.next - 1)
  }

  /** The removal loop's snapshot is still right about the hosts it has yet to visit. */
  ghost predicate SnapshotHolds(f: Fleet, left: set<HostID>, used: map<HostID, int>) {
    && left <= f.draining
    && forall id :: id in left ==>
         && (id in used <==> id in f.sched.hosts)
         && (id in used && used[id] <= 0 ==> VMsOn(f.sched.assignment, id) == {})
  }

  ghost predicate LoopOk(f: Fleet) {
    match f.loop
    case Looking(pending, _) => pending <= f.draining
    case Sweeping(left, used, _) => SnapshotHolds(f, left, used)
    case Forgetting(gone, left, used, _) =>
      gone !in f.sched.hosts && gone !in left && SnapshotHolds(f, left, used)
    case Draining(todo) => NoDup(todo) && forall id :: id in todo ==> Listed(f.sched.hosts, id)
    case Marking(id, todo) =>
      && Issued(id, Names(f)) && id in f.sched.hosts && f.sched.hosts[id].state == HostState.Draining
      && NoDup(todo) && forall other :: other in todo ==> Listed(f.sched.hosts, other)
    case _ => true
  }

  ghost predicate Ok(f: Fleet) {
    && Inv(f.sched)
    && Tracked(f.sched.hosts, f.draining, Names(f))
    && Readying(f)
    && AddsNextName(f)
    && LoopOk(f)
  }

  lemma UnusedHostIsEmpty(s: State, id: HostID)
    requires Inv(s) && id in s.hosts && s.hosts[id].used <= 0
    ensures VMsOn(s.assignment, id) == {}
  {
  }

  lemma LoopStepKeepsOk(slots: int, f: Fleet, a: Action)
    requires Ok(f) && Enabled(f, a)
    requires a.Reconcile? || a.TakePending? || a.EndSweep? || a.Decide? || a.EndStart? || a.EndDrain?
    ensures Ok(Apply(slots, f, a))
  {
    hide Inv, Issued;
    assert a.Decide? ==> forall id :: id in a.victims ==> id in Elements(a.victims);
  }

  lemma SnapshotKeepsOk(slots: int, f: Fleet)
    requires Ok(f) && f.loop.Looking?
    ensures Ok(Apply(slots, f, Snapshot))
  {
    forall id | id in f.sched.hosts && f.sched.hosts[id].used <= 0
      ensures VMsOn(f.sched.assignment, id) == {}
    {
      UnusedHostIsEmpty(f.sched, id);
    }
    hide Inv, Issued, VMsOn;
  }

  /** The removed host has no guests, whatever was placed or released since the snapshot. */
  lemma SweepKeepsOk(slots: int, f: Fleet, id: HostID)
    requires Ok(f) && f.loop.Sweeping? && id in f.loop.left
    ensures Ok(Apply(slots, f, SweepOne(id)))
    ensures Apply(slots, f, SweepOne(id)).sched.assignment == f.sched.assignment
  {
    hide Inv, Issued, RemoveHost;
    if id in f.sched.hosts {
      RemoveHostEvicts(f.sched, id);
    }
  }

  lemma DrainingSetStepKeepsOk(slots: int, f: Fleet, a: Action)
    requires Ok(f) && Enabled(f, a) && (a.Forget? || a.MarkPod?)
    ensures Ok(Apply(slots, f, a))
  {
    hide Inv, Issued, VMsOn;
  }

  lemma PickNameKeepsOk(slots: int, f: Fleet)
    requires Ok(f) && Enabled(f, PickName)
    ensures Ok(Apply(slots, f, PickName))
  {
    hide Inv, Issued;
  }

  lemma AddPodKeepsOk(slots: int, f: Fleet)
    requires Ok(f) && Enabled(f, AddPod)
    ensures Ok(Apply(slots, f, AddPod))
  {
    var name := f.loop.name;
    AddHostAddsPending(f.sched, name, slots);
    NextNameIsNew(f.next - 1);
    hide Inv, Issued, AddHost, Name, VMsOn, NoDup;
    if AddHost(f.sched, name, slots).1.None? {
      PodAdded(f, Apply(slots, f, AddPod), name, HostRec(slots, 0, HostState.Pending));
    }
  }

  lemma PodAdded(f: Fleet, f': Fleet, name: HostID, h: HostRec)
    requires Ok(f) && f.loop.Adding? && f.loop.name == name && name !in f.sched.hosts && h.state == HostState.Pending
    requires !Issued(name, Names(f)) && Issued(name, f.next)
    requires forall id :: Issued(id, Names(f)) ==> Issued(id, f.next)
    requires Inv(f'.sched) && f'.sched.hosts == f.sched.hosts[name := h] && f'.sched.assignment == f.sched.assignment
    requires f' == f.(sched := f'.sched, scheduled := f.scheduled + {name}, loop := Starting(f.loop.n))
    ensures Ok(f')
  {
    hide Inv, Issued, VMsOn, NoDup;
    assert name !in f.draining && name !in f.scheduled + f.checked;
  }

  lemma DrainPodKeepsOk(slots: int, f: Fleet)
    requires Ok(f) && Enabled(f, DrainPod)
    ensures Ok(Apply(slots, f, DrainPod))
  {
    hide Inv, Issued, SetHostState;
    var id, rest := f.loop.todo[0], f.loop.todo[1..];
    SetHostStateSetsState(f.sched, id, HostState.Draining);
    assert id in f.loop.todo && Listed(f.sched.hosts, id);
    RestIsListed(f.sched.hosts, f.loop.todo);
    hide NoDup;
  }

  lemma RestIsListed(hosts: Hosts, todo: seq<HostID>)
    requires NoDup(todo) && todo != [] && forall id :: id in todo ==> Listed(hosts, id)
    ensures NoDup(todo[1..])
    ensures forall id :: id in todo[1..] ==> id != todo[0] && Listed(hosts, id)
  {
    forall id | id in todo[1..]
      ensures id in todo && id != todo[0]
    {
      var i :| 0 <= i < |todo[1..]| && todo[1..][i] == id;
      assert todo[i + 1] == id;
    }
  }

  lemma ScheduledStepKeepsOk(slots: int, f: Fleet, a: Action)
    requires Ok(f) && Enabled(f, a) && (a.CheckReady? || a.Abandon?)
    ensures Ok(Apply(slots, f, a))
  {
    hide Inv, Issued, VMsOn;
  }

  /** A pod turning ready was Pending, so it is not one being drained. */
  lemma MakeReadyKeepsOk(slots: int, f: Fleet, id: HostID)
    requires Ok(f) && id in f.checked
    ensures Ok(Apply(slots, f, MakeReady(id)))
  {
    SetHostStateSetsState(f.sched, id, Ready);
    hide Inv, Issued, SetHostState, VMsOn, NoDup;
    assert id in f.scheduled + f.checked;
    PodTurnedReady(f, Apply(slots, f, MakeReady(id)), id);
  }

  lemma PodTurnedReady(f: Fleet, f': Fleet, id: HostID)
    requires Ok(f) && id in f.checked && id in f.sched.hosts && f.sched.hosts[id].state == HostState.Pending
    requires Inv(f'.sched) && f'.sched.hosts == f.sched.hosts[id := f.sched.hosts[id].(state := Ready)]
    requires f'.sched.assignment == f.sched.assignment
    requires f' == f.(sched := f'.sched, checked := f.checked - {id})
    ensures Ok(f')
  {
    hide Inv, Issued, VMsOn, NoDup;
  }

  lemma GuestStepKeepsOk(f: Fleet, sched': State)
    requires Ok(f) && Inv(sched') && OnlyGuestsMoved(f.sched, sched')
    ensures Ok(f.(sched := sched'))
  {
    hide Inv, Issued;
    var f' := f.(sched := sched');
    forall id | id in f.sched.hosts && f.sched.hosts[id].state != Ready
      ensures VMsOn(sched'.assignment, id) <= VMsOn(f.sched.assignment, id)
    {
    }
    assert Tracked(sched'.hosts, f.draining, Names(f)) && Readying(f') && AddsNextName(f');
  }

  lemma StepKeepsOk(slots: int, f: Fleet, a: Action)
    requires Ok(f) && Enabled(f, a)
    ensures Ok(Apply(slots, f, a))
  {
    match a {
      case Snapshot => SnapshotKeepsOk(slots, f);
      case SweepOne(id) => SweepKeepsOk(slots, f, id);
      case Forget => DrainingSetStepKeepsOk(slots, f, a);
      case MarkPod => DrainingSetStepKeepsOk(slots, f, a);
      case PickName => PickNameKeepsOk(slots, f);
      case AddPod => AddPodKeepsOk(slots, f);
      case DrainPod => DrainPodKeepsOk(slots, f);
      case CheckReady(_) => ScheduledStepKeepsOk(slots, f, a);
      case MakeReady(id) => MakeReadyKeepsOk(slots, f, id);
      case Abandon(_) => ScheduledStepKeepsOk(slots, f, a);
      case PlaceVM(vm) =>
        PlaceMovesGuests(f.sched, vm);
        PlaceKeepsInv(f.sched, vm);
        GuestStepKeepsOk(f, Place(f.sched, vm).0);
      case ReleaseVM(vm) =>
        ReleaseMovesGuests(f.sched, vm);
        ReleaseKeepsInv(f.sched, vm);
        GuestStepKeepsOk(f, Release(f.sched, vm).0);
      case _ => LoopStepKeepsOk(slots, f, a);
    }
  }

  lemma {:induction false} RunsKeepOk(slots: int, f: Fleet, acts: seq<Action>)
    requires Ok(f) && Exec(slots, f, acts).Some?
    ensures Ok(Exec(slots, f, acts).value)
  {
    if acts == [] {
    } else {
      hide Ok, Apply, Enabled, Inv;
      var front, a := acts[..|acts| - 1], acts[|acts| - 1];
      RunsKeepOk(slots, f, front);
      StepKeepsOk(slots, Exec(slots, f, front).value, a);
    }
  }

  lemma FreshFleetIsOk(policy: Policy)
    ensures Ok(New(policy))
  {
    EmptyKeepsInv(policy);
  }

  // ------------------------------------------------------------- nothing is orphaned

  predicate StaysOn(s: State, s': State, vm: VMID) {
    vm in s.assignment ==> vm in s'.assignment && s'.assignment[vm] == s.assignment[vm]
  }

  lemma GuestStaysOneStep(slots: int, f: Fleet, a: Action, vm: VMID)
    requires Ok(f) && Enabled(f, a) && a != ReleaseVM(vm)
    ensures StaysOn(f.sched, Apply(slots, f, a).sched, vm)
  {
    match a {
      case SweepOne(id) => SweepKeepsOk(slots, f, id);
      case AddPod => AddHostAddsPending(f.sched, f.loop.name, slots);
      case DrainPod => SetHostStateSetsState(f.sched, f.loop.todo[0], HostState.Draining);
      case MakeReady(id) => SetHostStateSetsState(f.sched, id, Ready);
      case PlaceVM(other) => PlaceMovesGuests(f.sched, other);
      case ReleaseVM(other) => ReleaseMovesGuests(f.sched, other);
      case _ =>
    }
  }

  /** Scaling down never costs a VM its host: over every run, whatever the interleaving, a VM that
      is not released stays on the host it was placed on, and that host still exists. */
  lemma {:induction false} GuestsStayPut(slots: int, f: Fleet, acts: seq<Action>, vm: VMID)
    requires Ok(f) && Exec(slots, f, acts).Some?
    requires vm in f.sched.assignment && ReleaseVM(vm) !in acts
    ensures var s := Exec(slots, f, acts).value.sched;
      && vm in s.assignment && s.assignment[vm] == f.sched.assignment[vm] && s.assignment[vm] in s.hosts
  {
    RunsKeepOk(slots, f, acts);
    if acts == [] {
    } else {
      hide Ok, Apply, Enabled;
      var front, a := acts[..|acts| - 1], acts[|acts| - 1];
      var mid := Exec(slots, f, front).value;
      GuestsStayPut(slots, f, front, vm);
      RunsKeepOk(slots, f, front);
      GuestStaysOneStep(slots, mid, a, vm);
      AssignedHostExists(Exec(slots, f, acts).value, vm);
    }
  }

  lemma AssignedHostExists(f: Fleet, vm: VMID)
    requires Ok(f) && vm in f.sched.assignment
    ensures f.sched.assignment[vm] in f.sched.hosts
  {
  }

  /** The host is gone, or still Draining with no guest it did not have before. */
  ghost predicate WindingDown(s: State, s': State, id: HostID) {
    id in s'.hosts ==>
      s'.hosts[id].state == HostState.Draining && VMsOn(s'.assignment, id) <= VMsOn(s.assignment, id)
  }

  lemma DrainingOneStep(slots: int, f: Fleet, a: Action, id: HostID)
    requires Ok(f) && Enabled(f, a)
    requires id in f.sched.hosts && f.sched.hosts[id].state == HostState.Draining
    ensures WindingDown(f.sched, Apply(slots, f, a).sched, id)
  {
    hide Inv, Place, Release, RemoveHost, AddHost, SetHostState, DoSweepOne, Tracked, Readying, AddsNextName, Emptiest;
    match a {
      case SweepOne(other) => SweepingDrains(f, other, id);
      case AddPod => AddHostAddsPending(f.sched, f.loop.name, slots);
      case DrainPod => SetHostStateSetsState(f.sched, f.loop.todo[0], HostState.Draining);
      case MakeReady(other) => ReadyingDrains(f, other, id);
      case PlaceVM(other) => PlaceMovesGuests(f.sched, other);
      case ReleaseVM(other) => ReleaseMovesGuests(f.sched, other);
      case _ =>
    }
  }

  lemma SweepingDrains(f: Fleet, other: HostID, id: HostID)
    requires Ok(f) && f.loop.Sweeping?
    requires id in f.sched.hosts && f.sched.hosts[id].state == HostState.Draining
    ensures WindingDown(f.sched, DoSweepOne(f, other).sched, id)
  {
    if other in f.sched.hosts { RemoveHostEvicts(f.sched, other); }
    hide Inv;
  }

  /** The pod turning ready was Pending, so it is another one. */
  lemma ReadyingDrains(f: Fleet, other: HostID, id: HostID)
    requires Ok(f) && other in f.checked
    requires id in f.sched.hosts && f.sched.hosts[id].state == HostState.Draining
    ensures WindingDown(f.sched, SetHostState(f.sched, other, Ready).0, id)
  {
    assert other in f.scheduled + f.checked;
    SetHostStateSetsState(f.sched, other, Ready);
    hide Inv, SetHostState;
  }

  lemma GoneStaysGoneOneStep(slots: int, f: Fleet, a: Action, id: HostID)
    requires Ok(f) && Enabled(f, a) && id !in f.sched.hosts && Issued(id, Names(f))
    ensures id !in Apply(slots, f, a).sched.hosts && Issued(id, Names(Apply(slots, f, a)))
  {
    match a {
      case SweepOne(other) => if other in f.sched.hosts { RemoveHostEvicts(f.sched, other); }
      case AddPod =>
        AddHostAddsPending(f.sched, f.loop.name, slots);
        NextNameIsNew(f.next - 1);
      case DrainPod => SetHostStateSetsState(f.sched, f.loop.todo[0], HostState.Draining);
      case MakeReady(other) => SetHostStateSetsState(f.sched, other, Ready);
      case PlaceVM(other) => PlaceMovesGuests(f.sched, other);
      case ReleaseVM(other) => ReleaseMovesGuests(f.sched, other);
      case _ =>
    }
    hide Inv, Place, Release, RemoveHost, AddHost, SetHostState, Name, Issued;
  }

  /** A draining host never serves again: over every run it is either gone for good or still
      Draining, and its guests only dwindle. */
  lemma {:induction false} DrainingIsFinal(slots: int, f: Fleet, acts: seq<Action>, id: HostID)
    requires Ok(f) && Exec(slots, f, acts).Some?
    requires id in f.sched.hosts && f.sched.hosts[id].state == HostState.Draining
    ensures var end := Exec(slots, f, acts).value;
      WindingDown(f.sched, end.sched, id) && Issued(id, Names(end))
  {
    if acts == [] {
      assert Tracked(f.sched.hosts, f.draining, Names(f));
    } else {
      hide Ok, Apply, Enabled, Issued, VMsOn;
      var front, a := acts[..|acts| - 1], acts[|acts| - 1];
      var mid := Exec(slots, f, front).value;
      DrainingIsFinal(slots, f, front, id);
      RunsKeepOk(slots, f, front);
      StepKeepsOk(slots, mid, a);
      if id in mid.sched.hosts {
        DrainingOneStep(slots, mid, a, id);
        IssuedStays(slots, mid, a, id);
      } else {
        GoneStaysGoneOneStep(slots, mid, a, id);
      }
    }
  }

  lemma IssuedStays(slots: int, f: Fleet, a: Action, id: HostID)
    requires Ok(f) && Enabled(f, a) && Issued(id, Names(f))
    ensures Issued(id, Names(Apply(slots, f, a)))
  {
    NextNameIsNew(Names(f));
    hide Issued, Name;
  }
}
