/** Which calls own the scheduler's slots, over every run in which clients use an id again only once no
    earlier call can touch its slot, and release a VM only after its Admit has returned
    (internal/placement/service.go, docs/decisions/0007-queue-not-reject.md). */
module PlacementOwnership {
  import opened Common
  import opened SchedulerSpec
  import opened PlacementProtocol
  import opened PlacementFlow

  ghost function ClaimOf(s: Service, c: CallId): Option<HostID>
    requires c in s.calls
  {
    Claim(s.calls[c], c in s.released)
  }

  /** The call has its id's slot, or may yet take it or give it back: it can still be granted one, or
      boots, or can try another placement, or has succeeded and was neither released nor displaced. */
  predicate Lives(hasBooter: bool, call: Call, placing: bool, released: bool, orphaned: bool) {
    match call.caller
    case Offering => MayBeGranted(hasBooter, call, placing, orphaned)
    case Recording => MayBeGranted(hasBooter, call, placing, orphaned)
    case Awaiting => MayBeGranted(hasBooter, call, placing, orphaned)
    case Booting(_, _, _) => true
    case Freed(boots, _) => boots + 1 < MAX_BOOT_ATTEMPTS && !call.expired
    case Retrying(boots, _) => boots + 1 < MAX_BOOT_ATTEMPTS && !call.expired
    case Replacing(_, _) => true
    case Returned(Succeeded(_, _)) => !released && !orphaned
    case Returned(Failed(_)) => false
  }

  predicate MayBeGranted(hasBooter: bool, call: Call, placing: bool, orphaned: bool) {
    match call.stage
    case Decided(v) => v.Granted? && (hasBooter || !orphaned)
    case Answered(v) => v.Granted? && (hasBooter || !orphaned)
    case _ => placing || !call.expired
  }

  predicate PlacingFor(d: Dispatcher, c: CallId) { d.Placing? && d.call == c }

  ghost predicate Live(cfg: Config, s: Service, c: CallId)
    requires c in s.calls
  {
    Lives(cfg.hasBooter, s.calls[c], PlacingFor(s.dispatcher, c), c in s.released, c in s.orphaned)
  }

  /** No call under this id can touch its slot any more. */
  ghost predicate Clear(cfg: Config, s: Service, vm: VMID) {
    forall c :: c in s.calls && s.calls[c].vm == vm ==> !Live(cfg, s, c)
  }

  /** What well-behaved clients do. */
  ghost predicate Disciplined(cfg: Config, s: Service, a: Action) {
    match a
    case Admit(_, vm) => Clear(cfg, s, vm)
    case ReleaseVM(vm) =>
      vm in s.sched.assignment ==>
        forall c :: c in s.calls && s.calls[c].vm == vm && Live(cfg, s, c) ==> s.calls[c].caller.Returned?
    case _ => true
  }

  ghost predicate DisciplinedRun(cfg: Config, s: Service, acts: seq<Action>) {
    acts != [] ==>
      var front := acts[..|acts| - 1];
      && DisciplinedRun(cfg, s, front)
      && (Exec(cfg, s, front).Some? ==> Disciplined(cfg, Exec(cfg, s, front).value, acts[|acts| - 1]))
  }

  /** A live call with a claim has its VM assigned to the claimed host, unless it was displaced; one
      without a claim has no VM assigned. */
  ghost predicate Settled(s: Service, c: CallId)
    requires c in s.calls
  {
    var vm := s.calls[c].vm;
    match ClaimOf(s, c)
    case Some(host) => if c in s.orphaned then vm !in s.sched.assignment
                       else vm in s.sched.assignment && s.sched.assignment[vm] == host
    case None => vm !in s.sched.assignment && c !in s.orphaned
  }

  /** A call that is not live claims nothing, or was displaced. */
  ghost predicate Quiet(s: Service, c: CallId)
    requires c in s.calls
  {
    ClaimOf(s, c) == None || c in s.orphaned
  }

  ghost predicate Kept(cfg: Config, s: Service, c: CallId)
    requires c in s.calls
  {
    if Live(cfg, s, c) then Settled(s, c) else Quiet(s, c)
  }

  ghost predicate LiveUnder(cfg: Config, s: Service, c: CallId, vm: VMID) {
    c in s.calls && s.calls[c].vm == vm && Live(cfg, s, c)
  }

  ghost predicate Owned(cfg: Config, s: Service) {
    && (forall c, d, vm :: LiveUnder(cfg, s, c, vm) && LiveUnder(cfg, s, d, vm) ==> c == d)
    && (forall c :: c in s.calls ==> Kept(cfg, s, c))
    && (forall vm :: vm in s.sched.assignment ==> exists c :: LiveUnder(cfg, s, c, vm))
    && (forall c :: c in s.released ==> c in s.calls && s.calls[c].caller.Returned?)
    && (forall c :: c in s.orphaned ==> c in s.calls)
  }

  // --------------------------------------------------------- kinds of change

  /** Nothing about the call has changed that matters to its claim. */
  ghost predicate Same(s: Service, s': Service, c: CallId)
    requires c in s.calls
  {
    && c in s'.calls && s'.calls[c] == s.calls[c]
    && (PlacingFor(s'.dispatcher, c) <==> PlacingFor(s.dispatcher, c))
    && (c in s'.released <==> c in s.released) && (c in s'.orphaned <==> c in s.orphaned)
  }

  lemma SameIsKept(cfg: Config, s: Service, s': Service, c: CallId)
    requires c in s.calls && Same(s, s', c) && Kept(cfg, s, c)
    requires var vm := s.calls[c].vm;
      (vm in s'.sched.assignment <==> vm in s.sched.assignment)
      && (vm in s.sched.assignment ==> s'.sched.assignment[vm] == s.sched.assignment[vm])
    ensures Kept(cfg, s', c) && (Live(cfg, s', c) <==> Live(cfg, s, c))
  {
  }

  lemma SameStaysLive(cfg: Config, s: Service, s': Service, c: CallId)
    requires c in s.calls && Same(s, s', c)
    ensures Live(cfg, s', c) <==> Live(cfg, s, c)
    ensures ClaimOf(s', c) == ClaimOf(s, c)
    ensures forall vm :: LiveUnder(cfg, s', c, vm) <==> LiveUnder(cfg, s, c, vm)
  {
  }

  /** One call changed, with at most its own VM's assignment, which only a live call may touch and one
      that stops being live leaves behind empty. */
  lemma OneCallChanged(cfg: Config, s: Service, s': Service, c: CallId)
    requires Owned(cfg, s) && c in s.calls && s'.calls.Keys == s.calls.Keys
    requires forall d :: d in s.calls && d != c ==> Same(s, s', d)
    requires s'.calls[c].vm == s.calls[c].vm
    requires s'.released == s.released && (c in s.released ==> s'.calls[c].caller.Returned?)
    requires s'.orphaned <= s.orphaned + {c}
    requires s'.sched.assignment - {s.calls[c].vm} == s.sched.assignment - {s.calls[c].vm}
    requires Live(cfg, s', c) ==> Live(cfg, s, c) && Settled(s', c)
    requires !Live(cfg, s', c) ==> Quiet(s', c) && (Live(cfg, s, c) ==> s.calls[c].vm !in s'.sched.assignment)
    requires !Live(cfg, s, c) ==> s'.sched.assignment == s.sched.assignment
    ensures Owned(cfg, s')
  {
    hide Live, Settled, Quiet, ClaimOf;
    var vm := s.calls[c].vm;
    forall d | d in s.calls && d != c
      ensures Kept(cfg, s', d) && (Live(cfg, s', d) <==> Live(cfg, s, d))
    {
      OtherIsKept(cfg, s, s', c, d);
    }
    forall d, e, other | LiveUnder(cfg, s', d, other) && LiveUnder(cfg, s', e, other)
      ensures d == e
    {
      assert LiveUnder(cfg, s, d, other) && LiveUnder(cfg, s, e, other);
    }
    forall other | other in s'.sched.assignment
      ensures exists d :: LiveUnder(cfg, s', d, other)
    {
      if other == vm {
        assert Live(cfg, s', c) || !Live(cfg, s, c);
        HolderStays(cfg, s, s', c);
      } else {
        assert other in s'.sched.assignment - {vm};
        var d :| LiveUnder(cfg, s, d, other);
        assert LiveUnder(cfg, s', d, other);
      }
    }
  }

  lemma OtherIsKept(cfg: Config, s: Service, s': Service, c: CallId, d: CallId)
    requires Owned(cfg, s) && c in s.calls && d in s.calls && d != c && Same(s, s', d)
    requires s'.sched.assignment - {s.calls[c].vm} == s.sched.assignment - {s.calls[c].vm}
    requires !Live(cfg, s, c) ==> s'.sched.assignment == s.sched.assignment
    ensures Kept(cfg, s', d) && (Live(cfg, s', d) <==> Live(cfg, s, d))
  {
    SameStaysLive(cfg, s, s', d);
    assert Kept(cfg, s, d);
    var vm, other := s.calls[c].vm, s.calls[d].vm;
    if other == vm {
      if Live(cfg, s, d) {
        assert LiveUnder(cfg, s, d, vm) && (LiveUnder(cfg, s, c, vm) <==> Live(cfg, s, c));
        SameIsKept(cfg, s, s', d);
      }
    } else {
      OtherAssignment(s.sched.assignment, s'.sched.assignment, vm, other);
      SameIsKept(cfg, s, s', d);
    }
    hide Live, ClaimOf, Settled, Owned;
  }

  lemma OtherAssignment(m: map<VMID, HostID>, m': map<VMID, HostID>, vm: VMID, other: VMID)
    requires m' - {vm} == m - {vm} && other != vm
    ensures other in m' <==> other in m
    ensures other in m ==> m'[other] == m[other]
  {
    assert (other in m <==> other in m - {vm}) && (other in m' <==> other in m' - {vm});
    assert other in m ==> (m - {vm})[other] == (m' - {vm})[other];
  }

  lemma HolderStays(cfg: Config, s: Service, s': Service, c: CallId)
    requires Owned(cfg, s) && c in s.calls && s'.calls.Keys == s.calls.Keys && s'.calls[c].vm == s.calls[c].vm
    requires forall d :: d in s.calls && d != c ==> Live(cfg, s', d) == Live(cfg, s, d) && s'.calls[d] == s.calls[d]
    requires s.calls[c].vm in s'.sched.assignment
    requires Live(cfg, s', c) || !Live(cfg, s, c)
    requires !Live(cfg, s, c) ==> s'.sched.assignment == s.sched.assignment
    ensures exists d :: LiveUnder(cfg, s', d, s.calls[c].vm)
  {
    var vm := s.calls[c].vm;
    if Live(cfg, s', c) {
      assert LiveUnder(cfg, s', c, vm);
    } else {
      hide Live;
      var d :| LiveUnder(cfg, s, d, vm);
      assert LiveUnder(cfg, s', d, vm);
    }
  }

  /** One call moves in its own code or on its way through the dispatcher, its claim unchanged. */
  ghost predicate MovesAlone(cfg: Config, s: Service, s': Service, c: CallId) {
    && c in s.calls && s'.calls.Keys == s.calls.Keys && s'.calls[c].vm == s.calls[c].vm
    && (forall d :: d in s.calls && d != c ==> Same(s, s', d))
    && s'.released == s.released && s'.orphaned == s.orphaned && s'.sched.assignment == s.sched.assignment
    && (c in s.released ==> s'.calls[c].caller.Returned?)
    && ClaimOf(s', c) == ClaimOf(s, c) && (Live(cfg, s', c) ==> Live(cfg, s, c))
    && (Live(cfg, s, c) && !Live(cfg, s', c) ==> ClaimOf(s, c) == None || c in s.orphaned)
  }

  lemma CallMoves(cfg: Config, s: Service, s': Service, c: CallId)
    requires Owned(cfg, s) && MovesAlone(cfg, s, s', c)
    ensures Owned(cfg, s')
  {
    hide Live, ClaimOf;
    assert Kept(cfg, s, c);
    OneCallChanged(cfg, s, s', c);
  }

  /** The call becomes this one, with the same claim and no new say over its slot. */
  ghost predicate Continues(cfg: Config, s: Service, c: CallId, next: Call) {
    && c in s.calls && next.vm == s.calls[c].vm && (c in s.released ==> next.caller.Returned?)
    && Claim(next, c in s.released) == Claim(s.calls[c], c in s.released)
    && var placing, released, orphaned := PlacingFor(s.dispatcher, c), c in s.released, c in s.orphaned;
    && (Lives(cfg.hasBooter, next, placing, released, orphaned) ==> Live(cfg, s, c))
    && (Live(cfg, s, c) && !Lives(cfg.hasBooter, next, placing, released, orphaned) ==>
          Claim(next, released) == None || orphaned)
  }

  lemma ContinuingMovesAlone(cfg: Config, s: Service, s': Service, c: CallId, next: Call)
    requires Continues(cfg, s, c, next) && s'.calls == s.calls[c := next] && s'.dispatcher == s.dispatcher
    requires s'.released == s.released && s'.orphaned == s.orphaned && s'.sched.assignment == s.sched.assignment
    ensures MovesAlone(cfg, s, s', c)
  {
    hide Lives, Claim;
  }

  lemma NothingOwnedChanged(cfg: Config, s: Service, s': Service)
    requires Owned(cfg, s) && s'.calls == s.calls && s'.released == s.released && s'.orphaned == s.orphaned
    requires s'.sched.assignment == s.sched.assignment
    requires forall c :: PlacingFor(s'.dispatcher, c) <==> PlacingFor(s.dispatcher, c)
    ensures Owned(cfg, s')
  {
    forall c | c in s.calls
      ensures Kept(cfg, s', c)
    {
      assert Same(s, s', c) && Kept(cfg, s, c);
      SameIsKept(cfg, s, s', c);
    }
    forall c, vm
      ensures LiveUnder(cfg, s', c, vm) <==> LiveUnder(cfg, s, c, vm)
    {
      if c in s.calls { SameStaysLive(cfg, s, s', c); }
    }
    hide LiveUnder, Kept;
  }

  lemma NewCall(cfg: Config, s: Service, s': Service, c: CallId, vm: VMID)
    requires Owned(cfg, s) && c !in s.calls && Clear(cfg, s, vm)
    requires s'.calls == s.calls[c := Call(vm, false, Offering, Unsent, [])]
    requires s'.released == s.released && s'.orphaned == s.orphaned && s'.sched.assignment == s.sched.assignment
    requires s'.dispatcher == s.dispatcher
    ensures Owned(cfg, s')
  {
    forall d | d in s.calls
      ensures Kept(cfg, s', d) && (Live(cfg, s', d) <==> Live(cfg, s, d))
    {
      assert Same(s, s', d) && Kept(cfg, s, d);
      SameIsKept(cfg, s, s', d);
    }
    assert vm !in s.sched.assignment by {
      assert forall d :: !LiveUnder(cfg, s, d, vm);
    }
    assert Kept(cfg, s', c);
    hide Live, Kept;
    forall other | other in s.sched.assignment
      ensures exists d :: LiveUnder(cfg, s', d, other)
    {
      var d :| LiveUnder(cfg, s, d, other);
      assert LiveUnder(cfg, s', d, other);
    }
    forall d, e, other | LiveUnder(cfg, s', d, other) && LiveUnder(cfg, s', e, other)
      ensures d == e
    {
      assert d != c ==> LiveUnder(cfg, s, d, other);
      assert e != c ==> LiveUnder(cfg, s, e, other);
    }
  }

  lemma SlotReleased(cfg: Config, s: Service, vm: VMID)
    requires Owned(cfg, s) && Inv(s.sched) && vm in s.sched.assignment && Disciplined(cfg, s, ReleaseVM(vm))
    ensures Owned(cfg, DoReleaseVM(s, vm))
  {
    ReleaseUnassigns(s.sched, vm);
    hide Inv, Release, Owned, ReturnedUnder;
    SlotGone(cfg, s, DoReleaseVM(s, vm), vm);
  }

  /** After a release or a removal: the VMs gone have no live holder, the others are untouched. */
  lemma SlotsGone(cfg: Config, s: Service, s': Service, gone: set<VMID>)
    requires Owned(cfg, s) && s'.calls == s.calls && s'.sched.assignment == s.sched.assignment - gone
    requires forall c :: c in s.calls ==> Kept(cfg, s', c) && (Live(cfg, s', c) ==> Live(cfg, s, c))
    requires forall c :: c in s.calls && s.calls[c].vm !in gone && Live(cfg, s, c) ==> Live(cfg, s', c)
    requires forall c :: c in s'.released ==> c in s.calls && s.calls[c].caller.Returned?
    requires forall c :: c in s'.orphaned ==> c in s.calls
    ensures Owned(cfg, s')
  {
    hide Live, Kept;
    forall other | other in s'.sched.assignment
      ensures exists d :: LiveUnder(cfg, s', d, other)
    {
      var d :| LiveUnder(cfg, s, d, other);
      assert LiveUnder(cfg, s', d, other);
    }
    forall d, e, other | LiveUnder(cfg, s', d, other) && LiveUnder(cfg, s', e, other)
      ensures d == e
    {
      assert LiveUnder(cfg, s, d, other) && LiveUnder(cfg, s, e, other);
    }
  }

  lemma SlotGone(cfg: Config, s: Service, s': Service, vm: VMID)
    requires Owned(cfg, s) && vm in s.sched.assignment && Disciplined(cfg, s, ReleaseVM(vm))
    requires s'.calls == s.calls && s'.released == s.released + ReturnedUnder(s, vm) && s'.orphaned == s.orphaned
    requires s'.sched.assignment == s.sched.assignment - {vm} && s'.dispatcher == s.dispatcher
    ensures Owned(cfg, s')
  {
    forall c | c in s.calls
      ensures Kept(cfg, s', c) && (Live(cfg, s', c) ==> Live(cfg, s, c))
      ensures s.calls[c].vm != vm && Live(cfg, s, c) ==> Live(cfg, s', c)
    {
      assert Kept(cfg, s, c);
      ReleasedIsKept(cfg, s, s', vm, c);
    }
    hide Live, Kept;
    SlotsGone(cfg, s, s', {vm});
  }

  lemma ReleasedIsKept(cfg: Config, s: Service, s': Service, vm: VMID, c: CallId)
    requires c in s.calls && Kept(cfg, s, c) && vm in s.sched.assignment && Disciplined(cfg, s, ReleaseVM(vm))
    requires s'.calls == s.calls && s'.released == s.released + ReturnedUnder(s, vm) && s'.orphaned == s.orphaned
    requires s'.sched.assignment == s.sched.assignment - {vm} && s'.dispatcher == s.dispatcher
    ensures Kept(cfg, s', c) && (Live(cfg, s', c) ==> Live(cfg, s, c))
    ensures s.calls[c].vm != vm && Live(cfg, s, c) ==> Live(cfg, s', c)
  {
    if s.calls[c].vm != vm {
      assert Same(s, s', c);
      SameIsKept(cfg, s, s', c);
    } else if s.calls[c].caller.Returned? {
      assert c in s'.released;
    } else {
      assert Same(s, s', c) && !Live(cfg, s, c);
      SameStaysLive(cfg, s, s', c);
    }
  }

  lemma HostRemoved(cfg: Config, s: Service, id: HostID)
    requires Owned(cfg, s) && Inv(s.sched)
    ensures Owned(cfg, DoRemoveHost(s, id))
  {
    var s' := DoRemoveHost(s, id);
    assert s'.sched.assignment == s.sched.assignment - VMsOn(s.sched.assignment, id) by {
      if id !in s.sched.hosts { assert VMsOn(s.sched.assignment, id) == {}; }
    }
    hide Inv, RemoveHost, Owned;
    GuestsDisplaced(cfg, s, s', VMsOn(s.sched.assignment, id));
  }

  lemma GuestsDisplaced(cfg: Config, s: Service, s': Service, guests: set<VMID>)
    requires Owned(cfg, s) && guests <= s.sched.assignment.Keys
    requires s'.calls == s.calls && s'.released == s.released && s'.orphaned == s.orphaned + Displaced(s, guests)
    requires s'.sched.assignment == s.sched.assignment - guests && s'.dispatcher == s.dispatcher
    ensures Owned(cfg, s')
  {
    forall c | c in s.calls
      ensures Kept(cfg, s', c) && (Live(cfg, s', c) ==> Live(cfg, s, c))
      ensures s.calls[c].vm !in guests && Live(cfg, s, c) ==> Live(cfg, s', c)
    {
      assert Kept(cfg, s, c);
      DisplacedIsKept(cfg, s, s', guests, c);
    }
    hide Live, Kept;
    SlotsGone(cfg, s, s', guests);
  }

  lemma DisplacedIsKept(cfg: Config, s: Service, s': Service, guests: set<VMID>, c: CallId)
    requires c in s.calls && Kept(cfg, s, c) && guests <= s.sched.assignment.Keys
    requires s'.calls == s.calls && s'.released == s.released && s'.orphaned == s.orphaned + Displaced(s, guests)
    requires s'.sched.assignment == s.sched.assignment - guests && s'.dispatcher == s.dispatcher
    ensures Kept(cfg, s', c) && (Live(cfg, s', c) ==> Live(cfg, s, c))
    ensures s.calls[c].vm !in guests && Live(cfg, s, c) ==> Live(cfg, s', c)
  {
    if c in s'.orphaned <==> c in s.orphaned {
      assert Same(s, s', c);
      SameStaysLive(cfg, s, s', c);
    }
  }

  /** What a scheduler call can do to the assignments. */
  lemma PlaceAssigns(s: State, vm: VMID)
    requires Inv(s)
    ensures var (s', r) := Place(s, vm);
      match r
      case Ok(id) => vm !in s.assignment && s'.assignment == s.assignment[vm := id]
      case Err(e) =>
        && s' == s
        && (e == ErrDuplicateVM || e == ErrNoCapacity)
        && (e == ErrDuplicateVM <==> vm in s.assignment)
  {
    PlaceRefinesSearch(s, vm);
  }

  lemma FleetCallsAssignNothing(s: State, id: HostID, capacity: int, state: HostState)
    requires Inv(s)
    ensures AddHost(s, id, capacity).0.assignment == s.assignment
    ensures SetHostState(s, id, state).0.assignment == s.assignment
  {
  }

  // ---------------------------------------------------------------- every step

  lemma StepKeepsOwned(cfg: Config, s: Service, a: Action)
    requires Owned(cfg, s) && Flowing(cfg, s) && Inv(s.sched) && Enabled(cfg, s, a) && Disciplined(cfg, s, a)
    ensures Owned(cfg, Apply(cfg, s, a))
  {
    hide Inv, Owned, Flow, Disciplined, Apply, Enabled;
    if Admitting(a) {
      AdmittingKeepsOwned(cfg, s, a);
    } else if Booted(a) {
      BootedKeepsOwned(cfg, s, a);
    } else if a.Take? || a.DrainOne? {
      HandoverKeepsOwned(cfg, s, a);
    } else if a.TryPlace? {
      PlacingKeepsOwned(cfg, s);
    } else if a.TimeOut? || a.QuitWaiting? || a.Write? || a.CheckDeadline? {
      DispatcherKeepsOwned(cfg, s, a);
    } else {
      OthersKeepOwned(cfg, s, a);
    }
  }

  lemma OthersKeepOwned(cfg: Config, s: Service, a: Action)
    requires Owned(cfg, s) && Inv(s.sched) && Enabled(cfg, s, a) && Disciplined(cfg, s, a)
    requires !Admitting(a) && !Booted(a) && !a.Take? && !a.DrainOne? && !a.TryPlace?
    requires !a.TimeOut? && !a.QuitWaiting? && !a.Write? && !a.CheckDeadline?
    ensures Owned(cfg, Apply(cfg, s, a))
  {
    hide Inv, Owned, Release, SetHostState, RemoveHost, AddHost, Disciplined;
    var s' := Apply(cfg, s, a);
    match a {
      case ReleaseVM(vm) =>
        ReleaseUnassigns(s.sched, vm);
        if vm in s.sched.assignment { SlotReleased(cfg, s, vm); }
      case RemoveHostFrom(id) => HostRemoved(cfg, s, id);
      case AddHostTo(id, capacity) =>
        FleetCallsAssignNothing(s.sched, id, capacity, Ready);
        NothingOwnedChanged(cfg, s, s');
      case SetStateOf(id, state) =>
        FleetCallsAssignNothing(s.sched, id, 0, state);
        NothingOwnedChanged(cfg, s, s');
      case _ => NothingOwnedChanged(cfg, s, s');
    }
  }

  lemma AdmittingKeepsOwned(cfg: Config, s: Service, a: Action)
    requires Owned(cfg, s) && Flowing(cfg, s) && Inv(s.sched) && Enabled(cfg, s, a) && Disciplined(cfg, s, a)
    requires Admitting(a)
    ensures Owned(cfg, Apply(cfg, s, a))
  {
    hide Inv, Owned, Flow, Apply, MovesAlone;
    if a.Receive? {
      ReceivingKeepsOwned(cfg, s, a.c);
    } else if a.Admit? {
      AdmissionKeepsOwned(cfg, s, a.c, a.vm);
    } else {
      FlowFacts(s.calls, s.queue, s.dispatcher, s.verdicts, s.enqueued);
      NotReleasedYet(cfg, s, a.c);
      AdmittingMoves(cfg, s, a);
      CallMoves(cfg, s, Apply(cfg, s, a), a.c);
    }
  }

  lemma AdmissionKeepsOwned(cfg: Config, s: Service, c: CallId, vm: VMID)
    requires Owned(cfg, s) && Inv(s.sched) && Enabled(cfg, s, Admit(c, vm)) && Clear(cfg, s, vm)
    ensures Owned(cfg, Apply(cfg, s, Admit(c, vm)))
  {
    hide Inv, Owned, Clear;
    NewCall(cfg, s, Apply(cfg, s, Admit(c, vm)), c, vm);
  }

  lemma AdmittingMoves(cfg: Config, s: Service, a: Action)
    requires Inv(s.sched) && Enabled(cfg, s, a) && Admitting(a) && !a.Receive? && !a.Admit?
    requires CallOk(s.calls[a.c]) && (a.c in s.released ==> s.calls[a.c].caller.Returned?)
    ensures MovesAlone(cfg, s, Apply(cfg, s, a), a.c)
  {
    var c, call := a.c, s.calls[a.c];
    var next := match a
      case Expire(_) => call.(expired := true)
      case Enqueue(_) => call.(caller := Recording, stage := Queued)
      case RejectFull(_) => call.(caller := Returned(Failed(QueueFull)))
      case RecordDepth(_) => call.(caller := Awaiting);
    assert Continues(cfg, s, c, next);
    hide Inv, Continues, MovesAlone, CallOk;
    ContinuingMovesAlone(cfg, s, Apply(cfg, s, a), c, next);
  }

  lemma ReceivingKeepsOwned(cfg: Config, s: Service, c: CallId)
    requires Owned(cfg, s) && Flowing(cfg, s) && Inv(s.sched) && Enabled(cfg, s, Receive(c))
    ensures Owned(cfg, Apply(cfg, s, Receive(c)))
  {
    hide Inv, Owned, Flowing, DoReceive, MovesAlone;
    AnswerIsThere(cfg, s, c);
    NotReleasedYet(cfg, s, c);
    ReceiptMoves(cfg, s, c);
    CallMoves(cfg, s, DoReceive(cfg, s, c), c);
  }

  lemma ReceiptMoves(cfg: Config, s: Service, c: CallId)
    requires At(s, c, Awaiting) && s.calls[c].written != []
    requires s.calls[c].stage == Answered(s.calls[c].written[0]) && c !in s.released
    ensures MovesAlone(cfg, s, DoReceive(cfg, s, c), c)
  {
    var call := s.calls[c];
    var next := call.(caller := match call.written[0]
      case Refused(why) => Returned(Failed(why))
      case Granted(host, attempts) =>
        if cfg.hasBooter then Booting(0, host, attempts) else Returned(Succeeded(host, attempts)));
    assert Continues(cfg, s, c, next);
    hide Continues, MovesAlone;
    ContinuingMovesAlone(cfg, s, DoReceive(cfg, s, c), c, next);
  }

  lemma NotReleasedYet(cfg: Config, s: Service, c: CallId)
    requires Owned(cfg, s) && c in s.calls
    ensures c in s.released ==> s.calls[c].caller.Returned?
  {
  }

  lemma KeptNow(cfg: Config, s: Service, c: CallId)
    requires Owned(cfg, s) && c in s.calls
    ensures Kept(cfg, s, c)
  {
  }

  lemma BootedKeepsOwned(cfg: Config, s: Service, a: Action)
    requires Owned(cfg, s) && Inv(s.sched) && Enabled(cfg, s, a) && Booted(a)
    ensures Owned(cfg, Apply(cfg, s, a))
  {
    hide Inv, Owned, DoBootFails, DoReplace, MovesAlone;
    NotReleasedYet(cfg, s, a.c);
    if a.BootFails? {
      SlotReturned(cfg, s, a.c);
    } else if a.Replace? {
      SlotRetaken(cfg, s, a.c);
    } else {
      BootMoves(cfg, s, a);
      hide Apply;
      CallMoves(cfg, s, Apply(cfg, s, a), a.c);
    }
  }

  lemma BootMoves(cfg: Config, s: Service, a: Action)
    requires Inv(s.sched) && Enabled(cfg, s, a) && Booted(a) && !a.BootFails? && !a.Replace? && a.c !in s.released
    ensures MovesAlone(cfg, s, Apply(cfg, s, a), a.c)
  {
    var c, caller := a.c, s.calls[a.c].caller;
    var next := match a
      case BootSucceeds(_) => Returned(Succeeded(caller.host, caller.attempts))
      case SignalAfterBoot(_) => Retrying(caller.boots, caller.attempts)
      case GiveUp(_) => Returned(Failed(BootFailed))
      case DecideToReplace(_) => Replacing(caller.boots, caller.attempts);
    assert Continues(cfg, s, c, s.calls[c].(caller := next));
    hide Inv, Continues, MovesAlone;
    ContinuingMovesAlone(cfg, s, Apply(cfg, s, a), c, s.calls[c].(caller := next));
  }

  lemma SlotReturned(cfg: Config, s: Service, c: CallId)
    requires Owned(cfg, s) && Inv(s.sched) && c in s.calls && s.calls[c].caller.Booting?
    ensures Owned(cfg, DoBootFails(s, c))
  {
    hide Inv, Owned, Release;
    NotReleasedYet(cfg, s, c);
    ReleaseUnassigns(s.sched, s.calls[c].vm);
    var vm, s' := s.calls[c].vm, DoBootFails(s, c);
    assert s'.sched.assignment - {vm} == s.sched.assignment - {vm};
    OneCallChanged(cfg, s, s', c);
  }

  lemma SlotRetaken(cfg: Config, s: Service, c: CallId)
    requires Owned(cfg, s) && Inv(s.sched) && c in s.calls && s.calls[c].caller.Replacing?
    ensures Owned(cfg, DoReplace(s, c))
  {
    hide Inv, Owned, Place, Settled, Quiet, DoReplace;
    NotReleasedYet(cfg, s, c);
    KeptNow(cfg, s, c);
    ReplacingMoves(cfg, s, c);
    OneCallChanged(cfg, s, DoReplace(s, c), c);
  }

  lemma ReplacingMoves(cfg: Config, s: Service, c: CallId)
    requires Inv(s.sched) && c in s.calls && s.calls[c].caller.Replacing? && Settled(s, c) && c !in s.released
    ensures var s' := DoReplace(s, c);
      && s'.calls == s.calls[c := s'.calls[c]] && s'.calls[c].vm == s.calls[c].vm
      && s'.released == s.released && s'.orphaned == s.orphaned && s'.dispatcher == s.dispatcher
      && s'.sched.assignment - {s.calls[c].vm} == s.sched.assignment - {s.calls[c].vm}
      && (if Live(cfg, s', c) then Settled(s', c) else Quiet(s', c) && s.calls[c].vm !in s'.sched.assignment)
  {
    hide Inv, Place;
    PlaceAssigns(s.sched, s.calls[c].vm);
    assert DoReplace(s, c).sched.assignment - {s.calls[c].vm} == s.sched.assignment - {s.calls[c].vm};
  }

  lemma HandoverKeepsOwned(cfg: Config, s: Service, a: Action)
    requires Owned(cfg, s) && Flowing(cfg, s) && Inv(s.sched) && Enabled(cfg, s, a) && (a.Take? || a.DrainOne?)
    ensures Owned(cfg, Apply(cfg, s, a))
  {
    hide Inv, Owned, Flow, Apply, MovesAlone;
    FlowFacts(s.calls, s.queue, s.dispatcher, s.verdicts, s.enqueued);
    NotReleasedYet(cfg, s, s.queue[0]);
    HandoverMoves(cfg, s, a);
    CallMoves(cfg, s, Apply(cfg, s, a), s.queue[0]);
  }

  lemma HandoverMoves(cfg: Config, s: Service, a: Action)
    requires Inv(s.sched) && Enabled(cfg, s, a) && (a.Take? || a.DrainOne?)
    requires CallOk(s.calls[s.queue[0]]) && s.calls[s.queue[0]].stage == Queued
    requires s.queue[0] in s.released ==> s.calls[s.queue[0]].caller.Returned?
    ensures MovesAlone(cfg, s, Apply(cfg, s, a), s.queue[0])
  {
    hide Inv;
  }

  lemma DispatcherKeepsOwned(cfg: Config, s: Service, a: Action)
    requires Owned(cfg, s) && Flowing(cfg, s) && Inv(s.sched) && Enabled(cfg, s, a)
    requires a.TimeOut? || a.QuitWaiting? || a.Write? || a.CheckDeadline?
    ensures Owned(cfg, Apply(cfg, s, a))
  {
    hide Inv, Owned, Flow, Apply, MovesAlone;
    FlowFacts(s.calls, s.queue, s.dispatcher, s.verdicts, s.enqueued);
    NotReleasedYet(cfg, s, s.dispatcher.call);
    DispatcherMoves(cfg, s, a);
    CallMoves(cfg, s, Apply(cfg, s, a), s.dispatcher.call);
  }

  lemma DispatcherMoves(cfg: Config, s: Service, a: Action)
    requires Inv(s.sched) && Enabled(cfg, s, a) && DispatcherHolds(s.calls, s.dispatcher)
    requires a.TimeOut? || a.QuitWaiting? || a.Write? || a.CheckDeadline?
    requires s.dispatcher.call in s.released ==> s.calls[s.dispatcher.call].caller.Returned?
    ensures MovesAlone(cfg, s, Apply(cfg, s, a), s.dispatcher.call)
  {
    hide Inv, MovesAlone, DoAdmitting, DoBooting, DoOutside, Decide, DoWrite;
    match a {
      case TimeOut => RefusalMoves(cfg, s, AdmissionTimeout);
      case QuitWaiting => RefusalMoves(cfg, s, ShuttingDown);
      case Write => WriteMoves(cfg, s);
      case CheckDeadline => CheckMoves(cfg, s);
    }
  }

  lemma RefusalMoves(cfg: Config, s: Service, why: Failure)
    requires s.dispatcher.Serving? || s.dispatcher.Waiting?
    requires var c := s.dispatcher.call;
      c in s.calls && s.calls[c].stage == Dispatched && (c in s.released ==> s.calls[c].caller.Returned?)
    ensures MovesAlone(cfg, s, Decide(s, s.dispatcher.call, Refused(why), false), s.dispatcher.call)
  {
  }

  lemma WriteMoves(cfg: Config, s: Service)
    requires s.dispatcher.Writing?
    requires var c := s.dispatcher.call;
      && c in s.calls && s.calls[c].stage == Decided(s.dispatcher.verdict)
      && (c in s.released ==> s.calls[c].caller.Returned?)
    ensures MovesAlone(cfg, s, DoWrite(s), s.dispatcher.call)
  {
  }

  lemma CheckMoves(cfg: Config, s: Service)
    requires s.dispatcher.Serving?
    requires var c := s.dispatcher.call;
      c in s.calls && !s.calls[c].expired && (c in s.released ==> s.calls[c].caller.Returned?)
    ensures var c, attempts := s.dispatcher.call, s.dispatcher.attempts;
      MovesAlone(cfg, s, s.(dispatcher := Placing(c, attempts)), c)
  {
  }

  lemma PlacingKeepsOwned(cfg: Config, s: Service)
    requires Owned(cfg, s) && Flowing(cfg, s) && Inv(s.sched) && Enabled(cfg, s, TryPlace)
    ensures Owned(cfg, Apply(cfg, s, TryPlace))
  {
    hide Inv, Owned, Flow, CallOk, DoTryPlace, Live, Settled, Quiet, Enabled, Apply;
    FlowFacts(s.calls, s.queue, s.dispatcher, s.verdicts, s.enqueued);
    TryPlaceStep(cfg, s);
    var c := s.dispatcher.call;
    NotReleasedYet(cfg, s, c);
    KeptNow(cfg, s, c);
    PlacingIsLive(cfg, s);
    PlacingMoves(cfg, s);
    OneCallChanged(cfg, s, DoTryPlace(s), c);
  }

  lemma PlacingIsLive(cfg: Config, s: Service)
    requires s.dispatcher.Placing? && s.dispatcher.call in s.calls
    requires s.calls[s.dispatcher.call].stage == Dispatched && CallOk(s.calls[s.dispatcher.call])
    ensures Live(cfg, s, s.dispatcher.call) && ClaimOf(s, s.dispatcher.call) == None
  {
  }

  lemma PlacingMoves(cfg: Config, s: Service)
    requires Inv(s.sched) && s.dispatcher.Placing? && s.dispatcher.call in s.calls
    requires s.calls[s.dispatcher.call].stage == Dispatched && CallOk(s.calls[s.dispatcher.call])
    requires Settled(s, s.dispatcher.call)
    ensures var c, s' := s.dispatcher.call, DoTryPlace(s);
      && s'.calls == s.calls[c := s'.calls[c]]
      && s'.calls[c].vm == s.calls[c].vm && s'.calls[c].caller == s.calls[c].caller
      && s'.released == s.released && s'.orphaned == s.orphaned
      && s'.sched.assignment - {s.calls[c].vm} == s.sched.assignment - {s.calls[c].vm}
      && !s'.dispatcher.Placing?
      && (if Live(cfg, s', c) then Settled(s', c) else Quiet(s', c) && s.calls[c].vm !in s'.sched.assignment)
  {
    hide Inv, Place;
    var vm := s.calls[s.dispatcher.call].vm;
    PlaceAssigns(s.sched, vm);
    assert DoTryPlace(s).sched.assignment - {vm} == s.sched.assignment - {vm};
  }

  lemma {:induction false} RunsKeepOwned(cfg: Config, s: Service, acts: seq<Action>)
    requires Owned(cfg, s) && Flowing(cfg, s) && Inv(s.sched)
    requires Exec(cfg, s, acts).Some? && DisciplinedRun(cfg, s, acts)
    ensures Owned(cfg, Exec(cfg, s, acts).value)
  {
    if acts == [] {
    } else {
      var front, a := acts[..|acts| - 1], acts[|acts| - 1];
      RunsKeepOwned(cfg, s, front);
      hide Inv, Flowing, Owned, Apply, Enabled, Disciplined;
      RunsFromHereKeepFlow(cfg, s, front);
      StepKeepsOwned(cfg, Exec(cfg, s, front).value, a);
    }
  }

  lemma NewServiceIsOwned(cfg: Config, s: Service)
    requires Init(s)
    ensures Owned(cfg, s)
  {
  }

  // ------------------------------------------------------------- main statements

  /** The calls that hold a slot. */
  ghost function Holders(s: Service): set<CallId> {
    set c | c in s.calls && ClaimOf(s, c).Some? && c !in s.orphaned
  }

  /** In every state a disciplined run reaches, the assigned VMs are exactly those of the calls
      holding a slot, each on the host its call was told, and no two of those calls share a VM. */
  lemma SlotsBelongToHolders(cfg: Config, s: Service, acts: seq<Action>)
    requires Init(s) && Exec(cfg, s, acts).Some? && DisciplinedRun(cfg, s, acts)
    ensures var t := Exec(cfg, s, acts).value;
      && (forall vm :: vm in t.sched.assignment <==> exists c :: c in Holders(t) && t.calls[c].vm == vm)
      && (forall c :: c in Holders(t) ==>
            t.calls[c].vm in t.sched.assignment && ClaimOf(t, c) == Some(t.sched.assignment[t.calls[c].vm]))
      && (forall c, d :: c in Holders(t) && d in Holders(t) && t.calls[c].vm == t.calls[d].vm ==> c == d)
  {
    OwnedFromTheStart(cfg, s, acts);
    hide Exec, DisciplinedRun, Init;
    HoldersAreAssigned(cfg, Exec(cfg, s, acts).value);
  }

  lemma OwnedFromTheStart(cfg: Config, s: Service, acts: seq<Action>)
    requires Init(s) && Exec(cfg, s, acts).Some? && DisciplinedRun(cfg, s, acts)
    ensures Owned(cfg, Exec(cfg, s, acts).value) && Flowing(cfg, Exec(cfg, s, acts).value)
  {
    RunsKeepFlow(cfg, s, []);
    RunsKeepFlow(cfg, s, acts);
    NewServiceIsOwned(cfg, s);
    assert Exec(cfg, s, []) == Some(s);
    hide Owned, Flowing;
    RunsKeepOwned(cfg, s, acts);
  }

  lemma HolderIsLive(cfg: Config, t: Service, c: CallId)
    requires Owned(cfg, t) && c in Holders(t)
    ensures LiveUnder(cfg, t, c, t.calls[c].vm) && Settled(t, c)
  {
    assert Kept(cfg, t, c);
  }

  lemma HoldersAreAssigned(cfg: Config, t: Service)
    requires Owned(cfg, t)
    ensures forall vm :: vm in t.sched.assignment <==> exists c :: c in Holders(t) && t.calls[c].vm == vm
    ensures forall c :: c in Holders(t) ==>
      t.calls[c].vm in t.sched.assignment && ClaimOf(t, c) == Some(t.sched.assignment[t.calls[c].vm])
    ensures forall c, d :: c in Holders(t) && d in Holders(t) && t.calls[c].vm == t.calls[d].vm ==> c == d
  {
    hide ClaimOf;
    forall c | c in Holders(t)
      ensures LiveUnder(cfg, t, c, t.calls[c].vm) && Settled(t, c)
    {
      HolderIsLive(cfg, t, c);
    }
    forall vm | vm in t.sched.assignment
      ensures exists c :: c in Holders(t) && t.calls[c].vm == vm
    {
      var c :| LiveUnder(cfg, t, c, vm);
      assert Kept(cfg, t, c);
      assert c in Holders(t);
    }
    hide Live;
  }

  /** An Admit that returned an error holds no slot: if its VM is assigned, another call of that id
      holds it. One that returned a host still has its slot there until it is released or the host is
      removed. */
  lemma ReturnedCallsOwnWhatTheySay(cfg: Config, s: Service, acts: seq<Action>, c: CallId)
    requires Init(s) && Exec(cfg, s, acts).Some? && DisciplinedRun(cfg, s, acts)
    requires c in Exec(cfg, s, acts).value.calls && Exec(cfg, s, acts).value.calls[c].caller.Returned?
    ensures var t := Exec(cfg, s, acts).value;
      var vm := t.calls[c].vm;
      match t.calls[c].caller.outcome
      case Failed(_) =>
        vm in t.sched.assignment ==> exists d :: d in Holders(t) && d != c && t.calls[d].vm == vm
      case Succeeded(host, _) =>
        c !in t.released && c !in t.orphaned ==> vm in t.sched.assignment && t.sched.assignment[vm] == host
  {
    OwnedFromTheStart(cfg, s, acts);
    hide Exec, DisciplinedRun, Init;
    ReturnedOwns(cfg, Exec(cfg, s, acts).value, c);
  }

  lemma ReturnedOwns(cfg: Config, t: Service, c: CallId)
    requires Owned(cfg, t) && c in t.calls && t.calls[c].caller.Returned?
    ensures var vm := t.calls[c].vm;
      match t.calls[c].caller.outcome
      case Failed(_) =>
        vm in t.sched.assignment ==> exists d :: d in Holders(t) && d != c && t.calls[d].vm == vm
      case Succeeded(host, _) =>
        c !in t.released && c !in t.orphaned ==> vm in t.sched.assignment && t.sched.assignment[vm] == host
  {
    KeptNow(cfg, t, c);
    if t.calls[c].caller.outcome.Failed? && t.calls[c].vm in t.sched.assignment {
      HoldersAreAssigned(cfg, t);
      hide Owned, Live, Settled;
      var d :| d in Holders(t) && t.calls[d].vm == t.calls[c].vm;
      assert d != c;
    }
  }

  /** A disciplined run never sees the duplicate refusal. */
  lemma DisciplinedRunsSeeNoDuplicates(cfg: Config, s: Service, acts: seq<Action>)
    requires Init(s) && Exec(cfg, s, acts).Some? && DisciplinedRun(cfg, s, acts)
    requires Exec(cfg, s, acts).value.dispatcher.Placing?
    ensures var t := Exec(cfg, s, acts).value;
      t.dispatcher.call in t.calls && t.calls[t.dispatcher.call].vm !in t.sched.assignment
  {
    OwnedFromTheStart(cfg, s, acts);
    hide *;
    PlacedVMIsUnassigned(cfg, Exec(cfg, s, acts).value);
  }

  lemma PlacedVMIsUnassigned(cfg: Config, t: Service)
    requires Owned(cfg, t) && Flowing(cfg, t) && t.dispatcher.Placing?
    ensures t.dispatcher.call in t.calls && t.calls[t.dispatcher.call].vm !in t.sched.assignment
  {
    FlowFacts(t.calls, t.queue, t.dispatcher, t.verdicts, t.enqueued);
    KeptNow(cfg, t, t.dispatcher.call);
  }
}
