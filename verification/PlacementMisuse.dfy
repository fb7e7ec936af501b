/** Runs from a new service in which a client uses an id again too early, or releases a VM before its
    Admit has returned, and slots and results part ways (internal/placement/service.go). */
module PlacementMisuse {
  import opened Common
  import opened SchedulerSpec
  import opened PlacementProtocol

  function Sending(c: CallId, vm: VMID): seq<Action> {
    [Admit(c, vm), Enqueue(c), RecordDepth(c)]
  }

  const SERVING: seq<Action> := [Take, CheckDeadline, TryPlace, Write]

  /** The service after a request has joined an empty queue. */
  function Sent(s: Service, c: CallId, vm: VMID): Service {
    s.(calls := s.calls[c := Call(vm, false, Awaiting, Queued, [])],
       queue := [c],
       enqueued := s.enqueued + [c],
       counters := s.counters.(accepted := s.counters.accepted + 1, maxQueueLen := Larger(s.counters.maxQueueLen, 1)))
  }

  /** What one placement attempt answers. */
  function FirstAnswer(s: State, vm: VMID): Verdict
    requires Inv(s)
  {
    match Place(s, vm).1
    case Ok(host) => Granted(host, 1)
    case Err(_) => Refused(DuplicateVM)
  }

  /** The service after the dispatcher has served that request at once. */
  function Served(s: Service, c: CallId, vm: VMID): Service
    requires Inv(s.sched)
  {
    var v := FirstAnswer(s.sched, vm);
    s.(sched := Place(s.sched, vm).0,
       calls := s.calls[c := Call(vm, false, Awaiting, Answered(v), [v])],
       queue := [],
       verdicts := s.verdicts + [(c, v)])
  }

  lemma Overwrites<K, V>(m: map<K, V>, k: K, a: V, b: V)
    ensures m[k := a][k := b] == m[k := b] && m[k := a][k] == a
  {
  }

  lemma SendsRequest(cfg: Config, s: Service, acts: seq<Action>, mid: Service, c: CallId, vm: VMID)
    requires Exec(cfg, s, acts) == Some(mid) && Inv(mid.sched) && cfg.queueDepth >= 1
    requires mid.queue == [] && c !in mid.calls && vm != VMID("")
    ensures Exec(cfg, s, acts + Sending(c, vm)) == Some(Sent(mid, c, vm))
  {
    hide Inv, Exec;
    var m := mid.calls;
    var a, b := Call(vm, false, Offering, Unsent, []), Call(vm, false, Recording, Queued, []);
    Overwrites(m, c, a, b);
    Overwrites(m, c, b, b.(caller := Awaiting));
    var s1 := mid.(calls := m[c := a], counters := mid.counters.(accepted := mid.counters.accepted + 1));
    var s2 := s1.(calls := m[c := b], queue := [c], enqueued := mid.enqueued + [c]);
    var longer := Then(cfg, s, acts, mid, Admit(c, vm), s1);
    longer := Then(cfg, s, longer, s1, Enqueue(c), s2);
    longer := Then(cfg, s, longer, s2, RecordDepth(c), Sent(mid, c, vm));
    assert longer == acts + Sending(c, vm);
  }

  /** Taking the request to the placement attempt. */
  lemma ReachesPlacing(cfg: Config, s: Service, acts: seq<Action>, mid: Service, c: CallId, call: Call)
    returns (longer: seq<Action>)
    requires Exec(cfg, s, acts) == Some(mid) && Inv(mid.sched) && mid.dispatcher == Idle
    requires mid.queue == [c] && c in mid.calls && mid.calls[c] == call && !call.expired
    ensures longer == acts + [Take, CheckDeadline]
    ensures Exec(cfg, s, longer) ==
      Some(mid.(calls := mid.calls[c := call.(stage := Dispatched)], queue := [], dispatcher := Placing(c, 0)))
  {
    hide Inv, Exec;
    var s1 := mid.(calls := mid.calls[c := call.(stage := Dispatched)], queue := [], dispatcher := Serving(c, 0));
    longer := Then(cfg, s, acts, mid, Take, s1);
    longer := Then(cfg, s, longer, s1, CheckDeadline, s1.(dispatcher := Placing(c, 0)));
  }

  lemma PlacingSettles(s: Service, c: CallId, call: Call)
    requires Inv(s.sched) && s.dispatcher == Placing(c, 0) && c in s.calls && s.calls[c] == call
    requires Place(s.sched, call.vm).1 != Err(ErrNoCapacity)
    ensures var v := FirstAnswer(s.sched, call.vm);
      DoTryPlace(s) == s.(sched := Place(s.sched, call.vm).0,
                          calls := s.calls[c := call.(stage := Decided(v))],
                          dispatcher := Writing(c, v, false))
  {
    PlaceRefinesSearch(s.sched, call.vm);
    hide Inv, Place;
  }

  lemma WritingAnswers(s: Service, c: CallId, v: Verdict, call: Call)
    requires s.dispatcher == Writing(c, v, false) && c in s.calls && s.calls[c] == call
    ensures DoWrite(s) == s.(calls := s.calls[c := call.(stage := Answered(v), written := call.written + [v])],
                             verdicts := s.verdicts + [(c, v)],
                             dispatcher := Idle)
  {
  }

  lemma DecidingAndAnswering(s: Service, c: CallId, call: Call, start: Service)
    requires Inv(start.sched) && start.dispatcher == Idle && start.queue == [c] && c in start.calls
    requires start.calls[c] == call && call == Call(call.vm, false, Awaiting, Queued, [])
    requires Place(start.sched, call.vm).1 != Err(ErrNoCapacity)
    requires s == start.(calls := start.calls[c := call.(stage := Dispatched)], queue := [],
                         dispatcher := Placing(c, 0))
    ensures var t := DoTryPlace(s);
      t.dispatcher.Writing? && t.dispatcher.call in t.calls && DoWrite(t) == Served(start, c, call.vm)
  {
    PlacingSettles(s, c, call.(stage := Dispatched));
    var v := FirstAnswer(start.sched, call.vm);
    WritingAnswers(DoTryPlace(s), c, v, call.(stage := Decided(v)));
    Overwrites(start.calls, c, call.(stage := Dispatched), call.(stage := Decided(v)));
    Overwrites(start.calls, c, call.(stage := Decided(v)), call.(stage := Answered(v), written := [v]));
    assert call.written + [v] == [v];
    hide Inv, Place, DoTryPlace, DoWrite;
  }

  lemma ServesRequest(cfg: Config, s: Service, acts: seq<Action>, mid: Service, c: CallId, vm: VMID)
    requires Exec(cfg, s, acts) == Some(mid) && Inv(mid.sched) && mid.dispatcher == Idle
    requires mid.queue == [c] && c in mid.calls && mid.calls[c] == Call(vm, false, Awaiting, Queued, [])
    requires Place(mid.sched, vm).1 != Err(ErrNoCapacity)
    ensures Exec(cfg, s, acts + SERVING) == Some(Served(mid, c, vm)) && Inv(Served(mid, c, vm).sched)
  {
    hide Inv, Exec, Place, DoTryPlace, DoWrite, Served, Enabled, Apply;
    var call := mid.calls[c];
    var longer := ReachesPlacing(cfg, s, acts, mid, c, call);
    var s2 := mid.(calls := mid.calls[c := call.(stage := Dispatched)], queue := [], dispatcher := Placing(c, 0));
    DecidingAndAnswering(s2, c, call, mid);
    TryPlaceStep(cfg, s2);
    longer := Then(cfg, s, longer, s2, TryPlace, DoTryPlace(s2));
    WriteStep(cfg, DoTryPlace(s2));
    longer := Then(cfg, s, longer, DoTryPlace(s2), Write, Served(mid, c, vm));
    assert longer == acts + SERVING;
  }

  /** An id is admitted again while its VM runs: the second call returns a failure, and the VM of
      that id holds a slot all the same. */
  lemma DuplicateIdBreaksOwnership(cfg: Config, s: Service, vm: VMID)
    requires Init(s) && cfg.queueDepth >= 1 && vm != VMID("") && Place(s.sched, vm).1.Ok?
    ensures var t := Exec(cfg, s, Sending(0, vm) + SERVING + Sending(1, vm) + SERVING + [Receive(1)]);
      && t.Some? && 1 in t.value.calls && t.value.calls[1].vm == vm
      && t.value.calls[1].caller == Returned(Failed(DuplicateVM))
      && vm in t.value.sched.assignment
  {
    PlaceRefinesSearch(s.sched, vm);
    assert [] + Sending(0, vm) == Sending(0, vm);
    SendsRequest(cfg, s, [], s, 0, vm);
    ServesRequest(cfg, s, Sending(0, vm), Sent(s, 0, vm), 0, vm);
    var once, mid := Sending(0, vm) + SERVING, Served(Sent(s, 0, vm), 0, vm);
    PlaceRefinesSearch(mid.sched, vm);
    hide Inv, Exec, Place, Init, IsBestChoice, Listed;
    SendsRequest(cfg, s, once, mid, 1, vm);
    ServesRequest(cfg, s, once + Sending(1, vm), Sent(mid, 1, vm), 1, vm);
    var twice, last := once + Sending(1, vm) + SERVING, Served(Sent(mid, 1, vm), 1, vm);
    var longer := Then(cfg, s, twice, last, Receive(1), Move(last, 1, Returned(Failed(DuplicateVM))));
  }

  /** A VM is released while its boot is under way: Admit then returns the host, where the VM
      holds no slot. */
  lemma EarlyReleaseLosesSlot(cfg: Config, s: Service, vm: VMID)
    requires Init(s) && cfg.hasBooter && cfg.queueDepth >= 1 && vm != VMID("") && Place(s.sched, vm).1.Ok?
    ensures var t := Exec(cfg, s, Sending(0, vm) + SERVING + [Receive(0), ReleaseVM(vm), BootSucceeds(0)]);
      && t.Some? && 0 in t.value.calls && t.value.calls[0].vm == vm
      && t.value.calls[0].caller == Returned(Succeeded(Place(s.sched, vm).1.value, 1))
      && t.value.sched == s.sched && vm !in t.value.sched.assignment && t.value.orphaned == {}
  {
    PlaceRefinesSearch(s.sched, vm);
    assert [] + Sending(0, vm) == Sending(0, vm);
    SendsRequest(cfg, s, [], s, 0, vm);
    ServesRequest(cfg, s, Sending(0, vm), Sent(s, 0, vm), 0, vm);
    ReleaseUndoesPlace(s.sched, vm);
    ReleasedWhileBooting(cfg, s, Sending(0, vm) + SERVING, Served(Sent(s, 0, vm), 0, vm), s.sched, vm,
                         Place(s.sched, vm).1.value);
  }

  lemma ReleasedWhileBooting(cfg: Config, s: Service, acts: seq<Action>, mid: Service, before: State, vm: VMID,
                             host: HostID)
    requires Exec(cfg, s, acts) == Some(mid) && cfg.hasBooter && Inv(mid.sched) && Inv(before)
    requires 0 in mid.calls && mid.calls[0].vm == vm && mid.calls[0].caller == Awaiting
    requires mid.calls[0].written == [Granted(host, 1)] && Release(mid.sched, vm) == (before, None)
    ensures var t := Exec(cfg, s, acts + [Receive(0), ReleaseVM(vm), BootSucceeds(0)]);
      && t.Some? && 0 in t.value.calls && t.value.calls[0].vm == vm
      && t.value.calls[0].caller == Returned(Succeeded(host, 1))
      && t.value.sched == before && t.value.orphaned == mid.orphaned
  {
    hide Inv, Exec, Release, Return;
    var s1 := Move(mid, 0, Booting(0, host, 1));
    var longer := Then(cfg, s, acts, mid, Receive(0), s1);
    var s2 := DoReleaseVM(s1, vm);
    longer := Then(cfg, s, longer, s1, ReleaseVM(vm), s2);
    BootStep(cfg, s2, host);
    longer := Then(cfg, s, longer, s2, BootSucceeds(0), Return(s2, 0, Succeeded(host, 1)));
    assert longer == acts + [Receive(0), ReleaseVM(vm), BootSucceeds(0)];
  }

  lemma BootStep(cfg: Config, s: Service, host: HostID)
    requires Inv(s.sched) && 0 in s.calls && s.calls[0].caller == Booting(0, host, 1)
    ensures Enabled(cfg, s, BootSucceeds(0))
    ensures var t := Return(s, 0, Succeeded(host, 1));
      && Apply(cfg, s, BootSucceeds(0)) == t && 0 in t.calls && t.calls[0].vm == s.calls[0].vm
      && t.calls[0].caller == Returned(Succeeded(host, 1)) && t.sched == s.sched && t.orphaned == s.orphaned
  {
    hide Inv;
  }
}
