/** When an id may be admitted again: exactly when no earlier call under it can still touch its slot
    (internal/placement/service.go). */
module PlacementReuse {
  import opened Common
  import opened SchedulerSpec
  import opened PlacementProtocol
  import opened PlacementFlow
  import opened PlacementOwnership

  /** The call is refused as a duplicate, or told of a slot that it does not have although its host was
      not removed. */
  ghost predicate Wronged(s: Service, k: CallId) {
    && k in s.calls
    && (RefusedAsDuplicate(s.calls[k])
        || (ClaimOf(s, k).Some? && k !in s.orphaned
            && !(s.calls[k].vm in s.sched.assignment
                 && s.sched.assignment[s.calls[k].vm] == ClaimOf(s, k).value)))
  }

  predicate RefusedAsDuplicate(call: Call) {
    call.stage == Decided(Refused(DuplicateVM)) || call.stage == Answered(Refused(DuplicateVM))
  }

  ghost predicate Unharmed(cfg: Config, s: Service, k: CallId, more: seq<Action>) {
    Exec(cfg, s, more).Some? && DisciplinedRun(cfg, s, more) ==> !Wronged(Exec(cfg, s, more).value, k)
  }

  /** No continuation in which clients behave wrongs the call. */
  ghost predicate SafeForever(cfg: Config, s: Service, k: CallId) {
    forall more :: Unharmed(cfg, s, k, more)
  }

  // ----------------------------------------------------------------- a clear id is safe

  lemma KeptIsNotWronged(cfg: Config, s: Service, k: CallId)
    requires Owned(cfg, s) && k in s.calls && !RefusedAsDuplicate(s.calls[k])
    ensures !Wronged(s, k)
  {
    KeptNow(cfg, s, k);
  }

  /** How a step can change the stage of a request. */
  predicate StageFollows(s: Service, a: Action, k: CallId, stage: Stage)
    requires k in s.calls
  {
    || stage == s.calls[k].stage
    || (a == Enqueue(k) && stage == Queued)
    || (a.Take? && s.queue != [] && s.queue[0] == k && stage == Dispatched)
    || (a.DrainOne? && s.queue != [] && s.queue[0] == k && stage == Decided(Refused(ShuttingDown)))
    || (a.TimeOut? && stage == Decided(Refused(AdmissionTimeout)))
    || (a.QuitWaiting? && stage == Decided(Refused(ShuttingDown)))
    || (a.TryPlace? && s.dispatcher.Placing? && s.dispatcher.call == k && stage.Decided?)
    || (a.Write? && s.dispatcher.Writing? && s.dispatcher.call == k && stage == Answered(s.dispatcher.verdict))
  }

  lemma AdmittingFollows(cfg: Config, s: Service, a: Action, k: CallId)
    requires Inv(s.sched) && Enabled(cfg, s, a) && Admitting(a) && k in s.calls
    ensures var s' := Apply(cfg, s, a); k in s'.calls && StageFollows(s, a, k, s'.calls[k].stage)
  {
    hide Inv, DoBooting, DoDispatching, DoOutside;
    match a {
      case Admit(_, _) =>
      case Expire(_) =>
      case Enqueue(_) =>
      case RejectFull(_) =>
      case RecordDepth(_) =>
      case Receive(_) =>
    }
  }

  lemma BootingFollows(cfg: Config, s: Service, a: Action, k: CallId)
    requires Inv(s.sched) && Enabled(cfg, s, a) && Booted(a) && k in s.calls
    ensures var s' := Apply(cfg, s, a); k in s'.calls && s'.calls[k].stage == s.calls[k].stage
  {
    hide Inv, Place, Release, DoAdmitting, DoDispatching, DoOutside;
    match a {
      case BootSucceeds(_) =>
      case BootFails(_) =>
      case SignalAfterBoot(_) =>
      case GiveUp(_) =>
      case DecideToReplace(_) =>
      case Replace(_) =>
    }
  }

  lemma DispatcherFollows(cfg: Config, s: Service, a: Action, k: CallId)
    requires Inv(s.sched) && Enabled(cfg, s, a) && Dispatching(a) && k in s.calls
    ensures var s' := Apply(cfg, s, a); k in s'.calls && StageFollows(s, a, k, s'.calls[k].stage)
  {
    hide Inv, Place, DoAdmitting, DoBooting, DoOutside;
    match a {
      case Take =>
      case BeginDrain =>
      case DrainOne =>
      case Exit =>
      case TimeOut =>
      case CheckDeadline =>
      case TryPlace =>
      case Wake =>
      case Tick =>
      case QuitWaiting =>
      case Write =>
    }
  }

  lemma StepFollows(cfg: Config, s: Service, a: Action, k: CallId)
    requires Inv(s.sched) && Enabled(cfg, s, a) && k in s.calls
    ensures var s' := Apply(cfg, s, a); k in s'.calls && StageFollows(s, a, k, s'.calls[k].stage)
  {
    hide Inv, Enabled, Apply;
    if Admitting(a) {
      AdmittingFollows(cfg, s, a, k);
    } else if Booted(a) {
      BootingFollows(cfg, s, a, k);
    } else if Dispatching(a) {
      DispatcherFollows(cfg, s, a, k);
    } else {
      OutsideLeaves(cfg, s, a);
    }
  }

  lemma StepRefusesNoDuplicate(cfg: Config, s: Service, a: Action, k: CallId)
    requires Owned(cfg, s) && Flowing(cfg, s) && Inv(s.sched) && Enabled(cfg, s, a)
    requires k in s.calls && !RefusedAsDuplicate(s.calls[k])
    ensures var s' := Apply(cfg, s, a); k in s'.calls && !RefusedAsDuplicate(s'.calls[k])
  {
    hide Inv, Apply, Enabled, Owned, Flow, Place;
    if a.TryPlace? {
      TryPlaceStep(cfg, s);
      PlacedVMIsUnassigned(cfg, s);
      PlaceAssigns(s.sched, s.calls[s.dispatcher.call].vm);
    } else {
      StepFollows(cfg, s, a, k);
      FlowFacts(s.calls, s.queue, s.dispatcher, s.verdicts, s.enqueued);
    }
  }

  lemma {:induction false} NeverWronged(cfg: Config, s: Service, k: CallId, more: seq<Action>)
    requires Owned(cfg, s) && Flowing(cfg, s) && Inv(s.sched)
    requires k in s.calls && !RefusedAsDuplicate(s.calls[k])
    requires Exec(cfg, s, more).Some? && DisciplinedRun(cfg, s, more)
    ensures var t := Exec(cfg, s, more).value; k in t.calls && !RefusedAsDuplicate(t.calls[k]) && !Wronged(t, k)
  {
    RunsKeepOwned(cfg, s, more);
    if more == [] {
    } else {
      var front := more[..|more| - 1];
      NeverWronged(cfg, s, k, front);
      RunsKeepOwned(cfg, s, front);
      RunsFromHereKeepFlow(cfg, s, front);
      hide Owned, Flowing, Inv, Apply, Enabled, Wronged;
      StepRefusesNoDuplicate(cfg, Exec(cfg, s, front).value, more[|more| - 1], k);
    }
    hide Exec, Flowing, Inv;
    KeptIsNotWronged(cfg, Exec(cfg, s, more).value, k);
  }

  // ------------------------------------------------- runs that wrong the successor

  /** The dispatcher has not begun to shut down. */
  predicate CanServe(d: Dispatcher) {
    d != Dispatcher.Draining && d != Exited && !(d.Writing? && d.draining)
  }

  predicate Tame(a: Action) { !a.Admit? && !a.ReleaseVM? }

  ghost predicate Reaches(cfg: Config, s: Service, acts: seq<Action>, mid: Service) {
    && (forall i :: 0 <= i < |acts| ==> Tame(acts[i]))
    && Exec(cfg, s, acts) == Some(mid) && Flowing(cfg, mid) && Inv(mid.sched)
  }

  lemma Onward(cfg: Config, s: Service, acts: seq<Action>, mid: Service, a: Action)
    returns (longer: seq<Action>, end: Service)
    requires Reaches(cfg, s, acts, mid) && Enabled(cfg, mid, a) && Tame(a)
    ensures end == Apply(cfg, mid, a) && Reaches(cfg, s, longer, end) && Inv(end.sched)
  {
    hide Flowing, Inv, Enabled, Apply;
    end := Apply(cfg, mid, a);
    longer := Then(cfg, s, acts, mid, a, end);
    SchedulerStaysValid(cfg, mid, a);
    StepKeepsFlow(cfg, mid, a);
  }

  lemma {:induction false} TameIsDisciplined(cfg: Config, s: Service, acts: seq<Action>)
    requires forall i :: 0 <= i < |acts| ==> Tame(acts[i])
    ensures DisciplinedRun(cfg, s, acts)
  {
    if acts == [] {
    } else {
      TameIsDisciplined(cfg, s, acts[..|acts| - 1]);
      assert Tame(acts[|acts| - 1]);
    }
  }

  lemma HarmIsReached(cfg: Config, s: Service, acts: seq<Action>, mid: Service, k: CallId)
    requires Reaches(cfg, s, acts, mid) && Wronged(mid, k)
    ensures !SafeForever(cfg, s, k)
  {
    TameIsDisciplined(cfg, s, acts);
    hide Wronged, Flowing, Inv, DisciplinedRun, Exec;
    assert !Unharmed(cfg, s, k, acts);
  }

  /** Between the two nothing was released, displaced or unassigned. */
  ghost predicate Calm(mid: Service, end: Service) {
    && end.released == mid.released && end.orphaned == mid.orphaned
    && mid.sched.assignment.Keys <= end.sched.assignment.Keys
  }

  /** Between the two only call c changed, and that in its request's stage. */
  ghost predicate Spares(mid: Service, end: Service, c: CallId) {
    && Calm(mid, end) && end.queue == mid.queue && end.calls.Keys == mid.calls.Keys
    && (forall d :: d in mid.calls && d != c ==> end.calls[d] == mid.calls[d])
    && (c in mid.calls ==> end.calls[c].vm == mid.calls[c].vm && end.calls[c].caller == mid.calls[c].caller)
  }

  lemma SparesOnward(a: Service, b: Service, c: Service, call: CallId)
    requires Spares(a, b, call) && Spares(b, c, call)
    ensures Spares(a, c, call)
  {
  }

  // ------------------------------------------------------- getting the dispatcher idle

  lemma TimesOut(cfg: Config, s: Service, acts: seq<Action>, mid: Service)
    returns (longer: seq<Action>, end: Service)
    requires Reaches(cfg, s, acts, mid) && Inv(mid.sched)
    requires (mid.dispatcher.Serving? || mid.dispatcher.Waiting?) && mid.dispatcher.call in mid.calls
    ensures Reaches(cfg, s, longer, end) && Inv(end.sched)
    ensures end.dispatcher == Idle && Spares(mid, end, mid.dispatcher.call)
  {
    hide Reaches, Inv, Spares;
    var c := mid.dispatcher.call;
    longer, end := Onward(cfg, s, acts, mid, Expire(c));
    var decided: Service;
    longer, decided := Onward(cfg, s, longer, end, TimeOut);
    assert Spares(mid, decided, c) by { TimedOutSpares(mid, c); }
    longer, end := Writes(cfg, s, longer, decided);
    SparesOnward(mid, decided, end, c);
  }

  lemma TimedOutSpares(mid: Service, c: CallId)
    requires c in mid.calls
    ensures var late := mid.(calls := mid.calls[c := mid.calls[c].(expired := true)]);
      Spares(mid, Decide(late, c, Refused(AdmissionTimeout), false), c)
  {
  }

  lemma Writes(cfg: Config, s: Service, acts: seq<Action>, mid: Service)
    returns (longer: seq<Action>, end: Service)
    requires Reaches(cfg, s, acts, mid) && Inv(mid.sched)
    requires mid.dispatcher.Writing? && !mid.dispatcher.draining && mid.dispatcher.call in mid.calls
    ensures Reaches(cfg, s, longer, end) && Inv(end.sched)
    ensures end == DoWrite(mid) && end.dispatcher == Idle && Spares(mid, end, mid.dispatcher.call)
  {
    hide Reaches, Inv, Enabled, Apply;
    WriteStep(cfg, mid);
    longer, end := Onward(cfg, s, acts, mid, Write);
  }

  lemma Tries(cfg: Config, s: Service, acts: seq<Action>, mid: Service)
    returns (longer: seq<Action>, end: Service)
    requires Reaches(cfg, s, acts, mid) && Inv(mid.sched)
    requires mid.dispatcher.Placing? && mid.dispatcher.call in mid.calls
    ensures Reaches(cfg, s, longer, end) && Inv(end.sched) && end == DoTryPlace(mid)
  {
    hide Reaches, Inv, DoTryPlace, Enabled, Apply;
    TryPlaceStep(cfg, mid);
    longer, end := Onward(cfg, s, acts, mid, TryPlace);
  }

  lemma TryingSpares(mid: Service)
    requires Inv(mid.sched) && mid.dispatcher.Placing? && mid.dispatcher.call in mid.calls
    ensures var end := DoTryPlace(mid);
      && Spares(mid, end, mid.dispatcher.call) && end.dispatcher.call == mid.dispatcher.call
      && (end.dispatcher.Waiting? || (end.dispatcher.Writing? && !end.dispatcher.draining))
  {
    hide Inv, Place;
    PlaceAssigns(mid.sched, mid.calls[mid.dispatcher.call].vm);
  }

  /** The dispatcher gets done with the request it handles. */
  lemma Finishes(cfg: Config, s: Service, acts: seq<Action>, mid: Service)
    returns (longer: seq<Action>, end: Service)
    requires Reaches(cfg, s, acts, mid) && CanServe(mid.dispatcher) && mid.dispatcher != Idle
    ensures Reaches(cfg, s, longer, end) && Inv(end.sched)
    ensures end.dispatcher == Idle && Spares(mid, end, mid.dispatcher.call)
  {
    FlowFacts(mid.calls, mid.queue, mid.dispatcher, mid.verdicts, mid.enqueued);
    hide Reaches, Inv, Flow, DoTryPlace, CallOk, Spares, DoWrite;
    if mid.dispatcher.Writing? {
      longer, end := Writes(cfg, s, acts, mid);
    } else if mid.dispatcher.Placing? {
      TryingSpares(mid);
      var tried: Service;
      longer, tried := Tries(cfg, s, acts, mid);
      assert tried.dispatcher.call in tried.calls by { StillThere(mid, tried, mid.dispatcher.call); }
      if tried.dispatcher.Writing? {
        longer, end := Writes(cfg, s, longer, tried);
      } else {
        longer, end := TimesOut(cfg, s, longer, tried);
      }
      SparesOnward(mid, tried, end, mid.dispatcher.call);
    } else {
      longer, end := TimesOut(cfg, s, acts, mid);
    }
  }

  lemma StillThere(mid: Service, end: Service, c: CallId)
    requires Spares(mid, end, c)
    ensures end.calls.Keys == mid.calls.Keys
  {
  }

  /** Between the two only these calls changed. */
  ghost predicate SparesOthers(mid: Service, end: Service, cs: set<CallId>) {
    && Calm(mid, end) && end.calls.Keys == mid.calls.Keys
    && (forall d :: d in mid.calls && d !in cs ==> end.calls[d] == mid.calls[d])
  }

  lemma SparesMore(a: Service, b: Service, c: Service, cs: set<CallId>, call: CallId)
    requires SparesOthers(a, b, cs) && Spares(b, c, call)
    ensures SparesOthers(a, c, cs + {call})
  {
  }

  /** The request at the head of the queue times out. */
  lemma SkipsOne(cfg: Config, s: Service, acts: seq<Action>, mid: Service)
    returns (longer: seq<Action>, end: Service)
    requires Reaches(cfg, s, acts, mid) && Inv(mid.sched) && mid.dispatcher == Idle
    requires mid.queue != [] && mid.queue[0] in mid.calls
    ensures Reaches(cfg, s, longer, end) && Inv(end.sched) && end.dispatcher == Idle
    ensures Spares(mid.(queue := mid.queue[1..]), end, mid.queue[0])
  {
    hide Reaches, Inv, Spares;
    var c := mid.queue[0];
    var taken: Service;
    longer, taken := Onward(cfg, s, acts, mid, Take);
    TakingSpares(mid, taken, c);
    longer, end := TimesOut(cfg, s, longer, taken);
    SparesOnward(mid.(queue := taken.queue), taken, end, c);
  }

  /** The n requests at the head of the queue time out. */
  lemma {:induction false} Skips(cfg: Config, s: Service, acts: seq<Action>, mid: Service, n: nat)
    returns (longer: seq<Action>, end: Service)
    requires Reaches(cfg, s, acts, mid) && mid.dispatcher == Idle && n <= |mid.queue|
    ensures Reaches(cfg, s, longer, end) && Inv(end.sched)
    ensures end.dispatcher == Idle && end.queue == mid.queue[n..] && SparesOthers(mid, end, Elements(mid.queue[..n]))
  {
    if n == 0 {
      longer, end := acts, mid;
    } else {
      var before: Service;
      longer, before := Skips(cfg, s, acts, mid, n - 1);
      FlowFacts(before.calls, before.queue, before.dispatcher, before.verdicts, before.enqueued);
      hide Reaches, Inv, Flow, CallOk, SparesOthers, Spares;
      var c, rest := mid.queue[n - 1], mid.queue[n..];
      assert before.queue[0] == c && before.queue[1..] == rest;
      longer, end := SkipsOne(cfg, s, longer, before);
      QueueIsNoCall(mid, before, rest, Elements(mid.queue[..n - 1]));
      SparesMore(mid, before.(queue := rest), end, Elements(mid.queue[..n - 1]), c);
      OneMoreElement(mid.queue, n - 1);
      SparesQueue(before.(queue := rest), end, c);
    }
  }

  lemma TakingSpares(mid: Service, end: Service, c: CallId)
    requires c in mid.calls && end.calls == mid.calls[c := mid.calls[c].(stage := Dispatched)]
    requires end.released == mid.released && end.orphaned == mid.orphaned && end.sched == mid.sched
    ensures Spares(mid.(queue := end.queue), end, c)
  {
  }

  lemma QueueIsNoCall(mid: Service, end: Service, queue: seq<CallId>, cs: set<CallId>)
    requires SparesOthers(mid, end, cs)
    ensures SparesOthers(mid, end.(queue := queue), cs)
  {
  }

  lemma SparesQueue(mid: Service, end: Service, c: CallId)
    requires Spares(mid, end, c)
    ensures end.queue == mid.queue
  {
  }

  ghost function HandledBy(d: Dispatcher): set<CallId> {
    Elements(AtDispatcher(d))
  }

  /** The dispatcher gets done with what it handles and with the n requests at the head. */
  lemma Clears(cfg: Config, s: Service, acts: seq<Action>, mid: Service, n: nat)
    returns (longer: seq<Action>, end: Service)
    requires Reaches(cfg, s, acts, mid) && CanServe(mid.dispatcher) && n <= |mid.queue|
    ensures Reaches(cfg, s, longer, end) && Inv(end.sched)
    ensures end.dispatcher == Idle && end.queue == mid.queue[n..]
    ensures SparesOthers(mid, end, Elements(mid.queue[..n]) + HandledBy(mid.dispatcher))
  {
    hide Reaches, Inv, SparesOthers, Spares;
    if mid.dispatcher == Idle {
      longer, end := Skips(cfg, s, acts, mid, n);
      assert HandledBy(mid.dispatcher) == {};
      assert Elements(mid.queue[..n]) + {} == Elements(mid.queue[..n]);
    } else {
      var idle: Service;
      longer, idle := Finishes(cfg, s, acts, mid);
      SparesQueue(mid, idle, mid.dispatcher.call);
      longer, end := Skips(cfg, s, longer, idle, n);
      assert HandledBy(mid.dispatcher) == {mid.dispatcher.call};
      SparesFirst(mid, idle, end, mid.dispatcher.call, Elements(mid.queue[..n]));
    }
  }

  lemma SparesFirst(a: Service, b: Service, c: Service, call: CallId, cs: set<CallId>)
    requires Spares(a, b, call) && SparesOthers(b, c, cs)
    ensures SparesOthers(a, c, cs + {call})
  {
  }

  /** A call neither queued nor at the dispatcher is left as it is. */
  lemma ClearsAll(cfg: Config, s: Service, acts: seq<Action>, mid: Service)
    returns (longer: seq<Action>, end: Service)
    requires Reaches(cfg, s, acts, mid) && CanServe(mid.dispatcher)
    ensures Reaches(cfg, s, longer, end) && Inv(end.sched)
    ensures end.dispatcher == Idle && end.queue == [] && Calm(mid, end)
    ensures forall c :: c in mid.calls && Apart(mid.calls[c]) ==> c in end.calls && end.calls[c] == mid.calls[c]
  {
    longer, end := Clears(cfg, s, acts, mid, |mid.queue|);
    hide Inv, Exec;
    forall c | c in mid.calls && Apart(mid.calls[c])
      ensures c !in Elements(mid.queue) + HandledBy(mid.dispatcher)
    {
      PlaceOfCall(mid, c);
    }
    assert mid.queue[..|mid.queue|] == mid.queue;
    hide Flowing, Elements;
  }

  predicate Apart(call: Call) { call.stage.Unsent? || call.stage.Answered? }

  // -------------------------------------------------------------- sending and placing

  lemma Serves(cfg: Config, s: Service, acts: seq<Action>, mid: Service, c: CallId)
    returns (longer: seq<Action>, end: Service)
    requires Reaches(cfg, s, acts, mid) && Inv(mid.sched)
    requires mid.dispatcher == Idle && mid.queue != [] && mid.queue[0] == c && c in mid.calls && !mid.calls[c].expired
    ensures Reaches(cfg, s, longer, end) && Inv(end.sched)
    ensures end == mid.(calls := mid.calls[c := mid.calls[c].(stage := Dispatched)], queue := mid.queue[1..],
                        dispatcher := Placing(c, 0))
  {
    hide Reaches, Inv;
    longer, end := Onward(cfg, s, acts, mid, Take);
    longer, end := Onward(cfg, s, longer, end, CheckDeadline);
  }

  lemma SendsAndServes(cfg: Config, s: Service, acts: seq<Action>, mid: Service, c: CallId)
    returns (longer: seq<Action>, end: Service)
    requires Reaches(cfg, s, acts, mid) && Inv(mid.sched) && cfg.queueDepth >= 1
    requires mid.dispatcher == Idle && mid.queue == [] && At(mid, c, Offering) && !mid.calls[c].expired
    ensures Reaches(cfg, s, longer, end) && Inv(end.sched)
    ensures end == mid.(calls := mid.calls[c := mid.calls[c].(caller := Recording, stage := Dispatched)],
                        enqueued := mid.enqueued + [c], dispatcher := Placing(c, 0))
  {
    hide Reaches, Inv;
    var sent: Service;
    longer, sent := Onward(cfg, s, acts, mid, Enqueue(c));
    assert sent.queue == [c] && sent.queue[1..] == [];
    longer, end := Serves(cfg, s, longer, sent, c);
    assert mid.calls[c := sent.calls[c]][c := sent.calls[c].(stage := Dispatched)] == end.calls;
  }

  lemma {:induction false} LongerThanAll(ids: set<HostID>) returns (n: nat)
    ensures forall id :: id in ids ==> |id.name| < n
  {
    if ids == {} {
      n := 0;
    } else {
      var id :| id in ids;
      n := LongerThanAll(ids - {id});
      n := if |id.name| < n then n else |id.name| + 1;
    }
  }

  lemma NewHost(hosts: Hosts) returns (id: HostID)
    ensures id !in hosts
  {
    var n := LongerThanAll(hosts.Keys);
    id := HostID(seq(n, _ => 'x'));
    assert |id.name| == n;
  }

  /** A host with free slots joins. */
  lemma MakesRoom(cfg: Config, s: Service, acts: seq<Action>, mid: Service)
    returns (longer: seq<Action>, end: Service)
    requires Reaches(cfg, s, acts, mid) && Inv(mid.sched)
    ensures Reaches(cfg, s, longer, end) && Inv(end.sched)
    ensures end == mid.(sched := end.sched, signallers := end.signallers)
    ensures end.sched.assignment == mid.sched.assignment
    ensures forall vm :: vm !in mid.sched.assignment ==> Place(end.sched, vm).1.Ok?
  {
    hide Reaches, Inv, AddHost, SetHostState, Place;
    var id := NewHost(mid.sched.hosts);
    AddHostAddsPending(mid.sched, id, 2);
    longer, end := Onward(cfg, s, acts, mid, AddHostTo(id, 2));
    SetHostStateSetsState(end.sched, id, Ready);
    longer, end := Onward(cfg, s, longer, end, SetStateOf(id, Ready));
    assert Eligible(end.sched.hosts, id);
    forall vm | vm !in mid.sched.assignment
      ensures Place(end.sched, vm).1.Ok?
    {
      PlaceAssigns(end.sched, vm);
      PlaceRefinesSearch(end.sched, vm);
    }
  }

  /** The dispatcher grants the request it is placing. */
  lemma Grants(cfg: Config, s: Service, acts: seq<Action>, mid: Service)
    returns (longer: seq<Action>, end: Service, host: HostID)
    requires Reaches(cfg, s, acts, mid) && Inv(mid.sched)
    requires mid.dispatcher.Placing? && mid.dispatcher.call in mid.calls
    requires mid.calls[mid.dispatcher.call].vm !in mid.sched.assignment
    ensures Reaches(cfg, s, longer, end) && Inv(end.sched)
    ensures var c := mid.dispatcher.call;
      && end.calls.Keys == mid.calls.Keys && (forall d :: d in mid.calls && d != c ==> end.calls[d] == mid.calls[d])
      && end.calls[c].vm == mid.calls[c].vm && end.calls[c].caller == mid.calls[c].caller
      && end.calls[c].stage.Decided? && end.calls[c].stage.verdict.Granted?
      && end.calls[c].stage.verdict.host == host
      && end.dispatcher.Writing? && !end.dispatcher.draining && end.dispatcher.call == c
      && end.released == mid.released && end.orphaned == mid.orphaned
      && end.sched.assignment == mid.sched.assignment[mid.calls[c].vm := host]
  {
    hide Reaches, Inv, DoTryPlace, Place;
    var roomy: Service;
    longer, roomy := MakesRoom(cfg, s, acts, mid);
    longer, end := Tries(cfg, s, longer, roomy);
    host := GrantedHost(roomy);
  }

  lemma GrantedHost(mid: Service) returns (host: HostID)
    requires Inv(mid.sched) && mid.dispatcher.Placing? && mid.dispatcher.call in mid.calls
    requires Place(mid.sched, mid.calls[mid.dispatcher.call].vm).1.Ok?
    ensures var c, end := mid.dispatcher.call, DoTryPlace(mid);
      && end.calls == mid.calls[c := mid.calls[c].(stage := Decided(Granted(host, mid.dispatcher.attempts + 1)))]
      && end.dispatcher == Writing(c, Granted(host, mid.dispatcher.attempts + 1), false)
      && end.released == mid.released && end.orphaned == mid.orphaned
      && end.sched.assignment == mid.sched.assignment[mid.calls[c].vm := host]
  {
    PlaceAssigns(mid.sched, mid.calls[mid.dispatcher.call].vm);
    hide Inv, Place;
    host := Place(mid.sched, mid.calls[mid.dispatcher.call].vm).1.value;
  }

  // --------------------------------------------------------- the harm an earlier call does

  /** The admitted call before it is sent, and whose slot nobody has taken or released. */
  ghost predicate Fresh(t: Service, k: CallId, vm: VMID) {
    k in t.calls && t.calls[k] == Call(vm, false, Offering, Unsent, []) && k !in t.orphaned && k !in t.released
  }

  /** While its VM is assigned, the call is refused. */
  lemma AssignedIsRefused(cfg: Config, s: Service, acts: seq<Action>, mid: Service, k: CallId, vm: VMID)
    requires Reaches(cfg, s, acts, mid) && Fresh(mid, k, vm) && CanServe(mid.dispatcher) && cfg.queueDepth >= 1
    requires vm in mid.sched.assignment
    ensures !SafeForever(cfg, s, k)
  {
    hide Reaches, Inv, DoTryPlace;
    var longer, end := ClearsAll(cfg, s, acts, mid);
    longer, end := SendsAndServes(cfg, s, longer, end, k);
    var refused: Service;
    longer, refused := Tries(cfg, s, longer, end);
    assert Wronged(refused, k) by { DuplicateIsRefused(end, k); }
    HarmIsReached(cfg, s, longer, refused, k);
  }

  lemma DuplicateIsRefused(mid: Service, k: CallId)
    requires Inv(mid.sched) && mid.dispatcher == Placing(k, 0) && k in mid.calls
    requires mid.calls[k].vm in mid.sched.assignment
    ensures Wronged(DoTryPlace(mid), k)
  {
    PlaceAssigns(mid.sched, mid.calls[k].vm);
    hide Inv, Place;
  }

  /** An earlier call of that id at the dispatcher gets the slot first. */
  lemma PlacedFirst(cfg: Config, s: Service, acts: seq<Action>, mid: Service, k: CallId, vm: VMID)
    requires Reaches(cfg, s, acts, mid) && Inv(mid.sched) && Fresh(mid, k, vm) && cfg.queueDepth >= 1
    requires mid.dispatcher.Placing? && mid.dispatcher.call in mid.calls && mid.dispatcher.call != k
    requires mid.calls[mid.dispatcher.call].vm == vm
    ensures !SafeForever(cfg, s, k)
  {
    hide Reaches, Inv, SafeForever;
    if vm in mid.sched.assignment {
      AssignedIsRefused(cfg, s, acts, mid, k, vm);
    } else {
      var longer, end, host := Grants(cfg, s, acts, mid);
      AssignedIsRefused(cfg, s, longer, end, k, vm);
    }
  }

  /** A boot of an earlier call of that id fails, and gives the slot back. */
  lemma BootRobs(cfg: Config, s: Service, acts: seq<Action>, mid: Service, k: CallId, vm: VMID, p: CallId)
    requires Reaches(cfg, s, acts, mid) && Fresh(mid, k, vm) && CanServe(mid.dispatcher) && cfg.queueDepth >= 1
    requires p in mid.calls && p != k && mid.calls[p].vm == vm && mid.calls[p].caller.Booting?
    requires Apart(mid.calls[p])
    ensures !SafeForever(cfg, s, k)
  {
    hide Reaches, Inv, SafeForever, Release;
    var longer, end := ClearsAll(cfg, s, acts, mid);
    if vm in end.sched.assignment {
      AssignedIsRefused(cfg, s, longer, end, k, vm);
    } else {
      longer, end := SendsAndServes(cfg, s, longer, end, k);
      var granted: Service, host: HostID;
      longer, granted, host := Grants(cfg, s, longer, end);
      var robbed: Service;
      longer, robbed := Onward(cfg, s, longer, granted, BootFails(p));
      assert Wronged(robbed, k) by { SlotIsGivenBack(granted, k, p); }
      HarmIsReached(cfg, s, longer, robbed, k);
    }
  }

  lemma SlotIsGivenBack(mid: Service, k: CallId, p: CallId)
    requires Inv(mid.sched) && p in mid.calls && mid.calls[p].caller.Booting? && k in mid.calls && k != p
    requires mid.calls[k].vm == mid.calls[p].vm && ClaimOf(mid, k).Some? && k !in mid.orphaned
    ensures Wronged(DoBootFails(mid, p), k)
  {
    ReleaseUnassigns(mid.sched, mid.calls[p].vm);
    hide Inv, Release;
  }

  /** An earlier call of that id places its VM again first. */
  lemma ReplacedFirst(cfg: Config, s: Service, acts: seq<Action>, mid: Service, k: CallId, vm: VMID, p: CallId)
    requires Reaches(cfg, s, acts, mid) && Inv(mid.sched) && Fresh(mid, k, vm) && CanServe(mid.dispatcher)
    requires cfg.queueDepth >= 1 && vm !in mid.sched.assignment
    requires p in mid.calls && p != k && mid.calls[p].vm == vm && mid.calls[p].caller.Replacing?
    ensures !SafeForever(cfg, s, k)
  {
    hide Reaches, Inv, SafeForever, Place;
    var longer, end := MakesRoom(cfg, s, acts, mid);
    PlaceAssigns(end.sched, vm);
    var replaced: Service;
    longer, replaced := Onward(cfg, s, longer, end, Replace(p));
    AssignedIsRefused(cfg, s, longer, replaced, k, vm);
  }

  lemma RetriedFirst(cfg: Config, s: Service, acts: seq<Action>, mid: Service, k: CallId, vm: VMID, p: CallId)
    requires Reaches(cfg, s, acts, mid) && Inv(mid.sched) && Fresh(mid, k, vm) && CanServe(mid.dispatcher)
    requires cfg.queueDepth >= 1 && vm !in mid.sched.assignment
    requires p in mid.calls && p != k && mid.calls[p].vm == vm && !mid.calls[p].expired
    requires mid.calls[p].caller.Freed? || mid.calls[p].caller.Retrying?
    requires mid.calls[p].caller.boots + 1 < MAX_BOOT_ATTEMPTS
    ensures !SafeForever(cfg, s, k)
  {
    hide Reaches, Inv, SafeForever;
    var longer, end := acts, mid;
    if end.calls[p].caller.Freed? {
      longer, end := Onward(cfg, s, longer, end, SignalAfterBoot(p));
    }
    longer, end := Onward(cfg, s, longer, end, DecideToReplace(p));
    ReplacedFirst(cfg, s, longer, end, k, vm, p);
  }

  /** An earlier call of that id not yet sent is served first. */
  lemma SentFirst(cfg: Config, s: Service, acts: seq<Action>, mid: Service, k: CallId, vm: VMID, p: CallId)
    requires Reaches(cfg, s, acts, mid) && Fresh(mid, k, vm) && CanServe(mid.dispatcher) && cfg.queueDepth >= 1
    requires At(mid, p, Offering) && p != k && mid.calls[p].vm == vm && !mid.calls[p].expired
    requires mid.calls[p].stage.Unsent?
    ensures !SafeForever(cfg, s, k)
  {
    hide Reaches, Inv, SafeForever;
    var longer, end := ClearsAll(cfg, s, acts, mid);
    longer, end := SendsAndServes(cfg, s, longer, end, p);
    PlacedFirst(cfg, s, longer, end, k, vm);
  }

  lemma PositionOf(cfg: Config, t: Service, p: CallId) returns (i: nat)
    requires Flowing(cfg, t) && p in t.calls && t.calls[p].stage.Queued?
    ensures i < |t.queue| && t.queue[i] == p
  {
    PlaceOfCall(t, p);
    i :| 0 <= i < |t.queue| && t.queue[i] == p;
  }

  lemma NotAhead(cfg: Config, t: Service, p: CallId, i: nat)
    requires Flowing(cfg, t) && p in t.calls && t.calls[p].stage.Queued? && i < |t.queue| && t.queue[i] == p
    ensures p !in Elements(t.queue[..i]) + HandledBy(t.dispatcher)
  {
    PlaceOfCall(t, p);
  }

  lemma NotQueued(cfg: Config, t: Service, k: CallId, i: nat)
    requires Flowing(cfg, t) && k in t.calls && Apart(t.calls[k]) && i <= |t.queue|
    ensures k !in Elements(t.queue[..i]) + HandledBy(t.dispatcher)
  {
    PlaceOfCall(t, k);
  }

  /** The requests ahead of p time out. */
  lemma ReachesHead(cfg: Config, s: Service, acts: seq<Action>, mid: Service, k: CallId, p: CallId)
    returns (longer: seq<Action>, end: Service)
    requires Reaches(cfg, s, acts, mid) && CanServe(mid.dispatcher)
    requires p in mid.calls && mid.calls[p].stage.Queued? && k in mid.calls && Apart(mid.calls[k])
    ensures Reaches(cfg, s, longer, end) && Inv(end.sched)
    ensures end.dispatcher == Idle && end.queue != [] && end.queue[0] == p && Calm(mid, end)
    ensures p in end.calls && end.calls[p] == mid.calls[p] && k in end.calls && end.calls[k] == mid.calls[k]
  {
    hide Exec, Inv, Flowing, HandledBy, Elements, Calm;
    var i := PositionOf(cfg, mid, p);
    NotAhead(cfg, mid, p, i);
    NotQueued(cfg, mid, k, i);
    longer, end := Clears(cfg, s, acts, mid, i);
  }

  lemma QueuedFirst(cfg: Config, s: Service, acts: seq<Action>, mid: Service, k: CallId, vm: VMID, p: CallId)
    requires Reaches(cfg, s, acts, mid) && Fresh(mid, k, vm) && CanServe(mid.dispatcher) && cfg.queueDepth >= 1
    requires p in mid.calls && p != k && mid.calls[p].vm == vm && !mid.calls[p].expired
    requires mid.calls[p].stage.Queued?
    ensures !SafeForever(cfg, s, k)
  {
    hide Exec, Inv, Flowing, SafeForever;
    var longer, end := ReachesHead(cfg, s, acts, mid, k, p);
    hide Reaches;
    longer, end := Serves(cfg, s, longer, end, p);
    PlacedFirst(cfg, s, longer, end, k, vm);
  }

  lemma DispatchedFirst(cfg: Config, s: Service, acts: seq<Action>, mid: Service, k: CallId, vm: VMID, p: CallId)
    requires Reaches(cfg, s, acts, mid) && Inv(mid.sched) && Fresh(mid, k, vm) && cfg.queueDepth >= 1
    requires p in mid.calls && p != k && mid.calls[p].vm == vm && Handling(mid.dispatcher, p)
    requires mid.dispatcher.Placing? || (!mid.calls[p].expired && !mid.dispatcher.Writing?)
    ensures !SafeForever(cfg, s, k)
  {
    hide Reaches, Inv, SafeForever;
    var longer, end := acts, mid;
    if end.dispatcher.Waiting? {
      longer, end := Onward(cfg, s, longer, end, Tick);
    }
    if end.dispatcher.Serving? {
      longer, end := Onward(cfg, s, longer, end, CheckDeadline);
    }
    PlacedFirst(cfg, s, longer, end, k, vm);
  }

  /** An earlier call of that id granted a slot that went with its host will boot there all the same,
      fail and give back its successor's. */
  lemma GrantedRobs(cfg: Config, s: Service, acts: seq<Action>, mid: Service, k: CallId, vm: VMID, p: CallId)
    requires Reaches(cfg, s, acts, mid) && Inv(mid.sched) && Fresh(mid, k, vm) && CanServe(mid.dispatcher)
    requires cfg.queueDepth >= 1 && cfg.hasBooter
    requires p in mid.calls && p != k && mid.calls[p].vm == vm
    requires mid.calls[p].caller == Recording || mid.calls[p].caller == Awaiting
    requires mid.calls[p].stage.Answered? && mid.calls[p].stage.verdict.Granted?
    requires mid.calls[p].written == [mid.calls[p].stage.verdict]
    ensures !SafeForever(cfg, s, k)
  {
    hide Reaches, Inv, SafeForever;
    var longer, end := acts, mid;
    if end.calls[p].caller == Recording {
      longer, end := Onward(cfg, s, longer, end, RecordDepth(p));
    }
    longer, end := Onward(cfg, s, longer, end, Receive(p));
    BootRobs(cfg, s, longer, end, k, vm, p);
  }

  lemma DecidedRobs(cfg: Config, s: Service, acts: seq<Action>, mid: Service, k: CallId, vm: VMID, p: CallId)
    requires Reaches(cfg, s, acts, mid) && Inv(mid.sched) && Fresh(mid, k, vm) && cfg.queueDepth >= 1 && cfg.hasBooter
    requires p in mid.calls && p != k && mid.calls[p].vm == vm && mid.calls[p].written == []
    requires mid.calls[p].caller == Recording || mid.calls[p].caller == Awaiting
    requires mid.dispatcher.Writing? && !mid.dispatcher.draining && mid.dispatcher.call == p
    requires mid.dispatcher.verdict.Granted?
    ensures !SafeForever(cfg, s, k)
  {
    hide Reaches, Inv, SafeForever, Spares;
    var longer, end := Writes(cfg, s, acts, mid);
    GrantedRobs(cfg, s, longer, end, k, vm, p);
  }

  /** Whatever an earlier live call of that id is at, it can do harm. */
  lemma LiveCallHarms(cfg: Config, s: Service, k: CallId, vm: VMID, p: CallId)
    requires Flowing(cfg, s) && Inv(s.sched) && Fresh(s, k, vm) && CanServe(s.dispatcher) && cfg.queueDepth >= 1
    requires LiveUnder(cfg, s, p, vm) && p != k && Settled(s, p)
    ensures !SafeForever(cfg, s, k)
  {
    assert Reaches(cfg, s, [], s);
    PlaceOfCall(s, p);
    if vm in s.sched.assignment {
      AssignedIsRefused(cfg, s, [], s, k, vm);
    } else {
      DispatcherIsAt(cfg, s, p);
      hide Reaches, Inv, SafeForever, Flowing, Exec;
      match s.calls[p].caller
      case Booting(_, _, _) => BootRobs(cfg, s, [], s, k, vm, p);
      case Freed(_, _) => RetriedFirst(cfg, s, [], s, k, vm, p);
      case Retrying(_, _) => RetriedFirst(cfg, s, [], s, k, vm, p);
      case Replacing(_, _) => ReplacedFirst(cfg, s, [], s, k, vm, p);
      case Returned(_) => assert false;
      case _ =>
        match s.calls[p].stage
        case Unsent => SentFirst(cfg, s, [], s, k, vm, p);
        case Queued => QueuedFirst(cfg, s, [], s, k, vm, p);
        case Dispatched => DispatchedFirst(cfg, s, [], s, k, vm, p);
        case Decided(_) => DecidedRobs(cfg, s, [], s, k, vm, p);
        case Answered(_) => GrantedRobs(cfg, s, [], s, k, vm, p);
    }
  }

  lemma DispatcherIsAt(cfg: Config, s: Service, p: CallId)
    requires Flowing(cfg, s) && p in s.calls
    ensures s.calls[p].stage.Dispatched? ==> Handling(s.dispatcher, p) && !s.dispatcher.Writing?
    ensures s.calls[p].stage.Decided? ==>
      s.dispatcher.Writing? && s.dispatcher.call == p && s.dispatcher.verdict == s.calls[p].stage.verdict
  {
  }

  // ------------------------------------------------------------------ the condition

  lemma AdmittedIsFresh(cfg: Config, s: Service, k: CallId, vm: VMID)
    requires Owned(cfg, s) && Inv(s.sched) && Enabled(cfg, s, Admit(k, vm))
    ensures var t := Apply(cfg, s, Admit(k, vm));
      && Fresh(t, k, vm) && t.dispatcher == s.dispatcher && t.sched == s.sched
      && (forall p :: p in s.calls ==> p != k && Same(s, t, p))
  {
    hide Inv;
  }

  lemma ClearIsSafe(cfg: Config, s: Service, k: CallId, vm: VMID)
    requires Owned(cfg, s) && Flowing(cfg, s) && Inv(s.sched) && Enabled(cfg, s, Admit(k, vm)) && Clear(cfg, s, vm)
    ensures SafeForever(cfg, Apply(cfg, s, Admit(k, vm)), k)
  {
    hide Inv, Flowing, Owned, Clear;
    var t := Apply(cfg, s, Admit(k, vm));
    AdmittedIsFresh(cfg, s, k, vm);
    AdmissionKeepsOwned(cfg, s, k, vm);
    StepKeepsFlow(cfg, s, Admit(k, vm));
    hide Apply, Enabled, Exec;
    forall more
      ensures Unharmed(cfg, t, k, more)
    {
      if Exec(cfg, t, more).Some? && DisciplinedRun(cfg, t, more) {
        NeverWronged(cfg, t, k, more);
      }
    }
  }

  lemma UnclearIsUnsafe(cfg: Config, s: Service, k: CallId, vm: VMID, p: CallId)
    requires Owned(cfg, s) && Flowing(cfg, s) && Inv(s.sched) && Enabled(cfg, s, Admit(k, vm))
    requires CanServe(s.dispatcher) && cfg.queueDepth >= 1 && LiveUnder(cfg, s, p, vm)
    ensures !SafeForever(cfg, Apply(cfg, s, Admit(k, vm)), k)
  {
    hide Inv, Flowing, SafeForever;
    var t := Apply(cfg, s, Admit(k, vm));
    AdmittedIsFresh(cfg, s, k, vm);
    StepKeepsFlow(cfg, s, Admit(k, vm));
    SameStaysLive(cfg, s, t, p);
    KeptNow(cfg, s, p);
    SameIsKept(cfg, s, t, p);
    hide Apply, Enabled, Owned, Live, Settled, Fresh;
    LiveCallHarms(cfg, t, k, vm, p);
  }

  // ------------------------------------------------------- once shutdown has begun

  predicate Ungranted(call: Call) {
    match call.stage
    case Unsent => true
    case Queued => true
    case Dispatched => false
    case Decided(v) => v == Refused(ShuttingDown)
    case Answered(v) => v == Refused(ShuttingDown)
  }

  lemma ShutStaysShut(cfg: Config, s: Service, a: Action)
    requires Inv(s.sched) && Enabled(cfg, s, a) && !CanServe(s.dispatcher)
    ensures !CanServe(Apply(cfg, s, a).dispatcher)
    ensures !a.Take? && !a.TimeOut? && !a.TryPlace? && !a.QuitWaiting?
  {
    hide Inv, Apply, Place;
    if Admitting(a) {
      AdmittingLeaves(cfg, s, a);
    } else if Booted(a) {
      BootingLeaves(cfg, s, a);
    } else if Dispatching(a) {
      ShuttingGoesOn(cfg, s, a);
    } else {
      OutsideLeaves(cfg, s, a);
    }
  }

  lemma ShuttingGoesOn(cfg: Config, s: Service, a: Action)
    requires Inv(s.sched) && Enabled(cfg, s, a) && Dispatching(a) && !CanServe(s.dispatcher)
    ensures !CanServe(Apply(cfg, s, a).dispatcher)
    ensures !a.Take? && !a.TimeOut? && !a.TryPlace? && !a.QuitWaiting?
  {
    hide Inv, Place, DoAdmitting, DoBooting, DoOutside, DoTryPlace;
  }

  lemma UngrantedStays(cfg: Config, s: Service, a: Action, k: CallId)
    requires Flowing(cfg, s) && Inv(s.sched) && Enabled(cfg, s, a) && !CanServe(s.dispatcher)
    requires k in s.calls && Ungranted(s.calls[k])
    ensures var s' := Apply(cfg, s, a); !CanServe(s'.dispatcher) && k in s'.calls && Ungranted(s'.calls[k])
  {
    hide Inv, Apply, Enabled, Flow;
    ShutStaysShut(cfg, s, a);
    StepFollows(cfg, s, a, k);
    FlowFacts(s.calls, s.queue, s.dispatcher, s.verdicts, s.enqueued);
  }

  lemma UngrantedIsNotWronged(cfg: Config, s: Service, k: CallId)
    requires Flowing(cfg, s) && k in s.calls && Ungranted(s.calls[k])
    ensures !Wronged(s, k)
  {
    PlaceOfCall(s, k);
  }

  lemma {:induction false} NeverGranted(cfg: Config, s: Service, k: CallId, more: seq<Action>)
    requires Flowing(cfg, s) && Inv(s.sched) && !CanServe(s.dispatcher)
    requires k in s.calls && Ungranted(s.calls[k]) && Exec(cfg, s, more).Some?
    ensures var t := Exec(cfg, s, more).value;
      !CanServe(t.dispatcher) && k in t.calls && Ungranted(t.calls[k]) && !Wronged(t, k)
  {
    if more == [] {
    } else {
      var front := more[..|more| - 1];
      NeverGranted(cfg, s, k, front);
      RunsFromHereKeepFlow(cfg, s, front);
      hide Flowing, Inv, Apply, Enabled, Wronged, CanServe, Ungranted;
      UngrantedStays(cfg, Exec(cfg, s, front).value, more[|more| - 1], k);
    }
    RunsFromHereKeepFlow(cfg, s, more);
    hide Exec, Flowing, Inv, CanServe, Ungranted, Wronged;
    UngrantedIsNotWronged(cfg, Exec(cfg, s, more).value, k);
  }

  lemma ShutIsSafe(cfg: Config, s: Service, k: CallId, vm: VMID)
    requires Owned(cfg, s) && Flowing(cfg, s) && Inv(s.sched) && Enabled(cfg, s, Admit(k, vm))
    requires !CanServe(s.dispatcher)
    ensures SafeForever(cfg, Apply(cfg, s, Admit(k, vm)), k)
  {
    hide Inv, Flowing, Owned;
    var t := Apply(cfg, s, Admit(k, vm));
    AdmittedIsFresh(cfg, s, k, vm);
    StepKeepsFlow(cfg, s, Admit(k, vm));
    hide Apply, Enabled, Exec, Wronged;
    forall more
      ensures Unharmed(cfg, t, k, more)
    {
      if Exec(cfg, t, more).Some? {
        NeverGranted(cfg, t, k, more);
      }
    }
  }

  /** Admitting an id is safe in every continuation in which clients behave exactly when no earlier
      call under it can still touch its slot, or the dispatcher has begun to shut down. Validation
      keeps the queue depth positive. */
  lemma ReuseIsSafeExactlyWhen(cfg: Config, s: Service, k: CallId, vm: VMID)
    requires Owned(cfg, s) && Flowing(cfg, s) && Inv(s.sched) && Enabled(cfg, s, Admit(k, vm))
    requires cfg.queueDepth >= 1
    ensures SafeForever(cfg, Apply(cfg, s, Admit(k, vm)), k) <==> Clear(cfg, s, vm) || !CanServe(s.dispatcher)
  {
    hide Inv, Flowing, Owned, SafeForever, Enabled, Apply, Live, CanServe;
    if Clear(cfg, s, vm) {
      ClearIsSafe(cfg, s, k, vm);
    } else if !CanServe(s.dispatcher) {
      ShutIsSafe(cfg, s, k, vm);
    } else {
      var p :| p in s.calls && s.calls[p].vm == vm && Live(cfg, s, p);
      UnclearIsUnsafe(cfg, s, k, vm, p);
    }
  }

  // ------------------------------------------------------------------ releasing

  /** The harm a release does shows at once. */
  ghost predicate WrongsNobody(s: Service) {
    forall c :: c in s.calls && !RefusedAsDuplicate(s.calls[c]) ==> !Wronged(s, c)
  }

  lemma OwnedWrongsNobody(cfg: Config, s: Service)
    requires Owned(cfg, s)
    ensures WrongsNobody(s)
  {
    hide Owned, Wronged;
    forall c | c in s.calls && !RefusedAsDuplicate(s.calls[c])
      ensures !Wronged(s, c)
    {
      KeptIsNotWronged(cfg, s, c);
    }
  }

  lemma EarlyReleaseWrongs(cfg: Config, s: Service, vm: VMID, c: CallId)
    requires Flowing(cfg, s) && Inv(s.sched) && vm in s.sched.assignment
    requires LiveUnder(cfg, s, c, vm) && !s.calls[c].caller.Returned? && Settled(s, c)
    ensures Wronged(DoReleaseVM(s, vm), c) && !RefusedAsDuplicate(s.calls[c])
  {
    PlaceOfCall(s, c);
    ReleaseUnassigns(s.sched, vm);
    hide Inv, Release, Flowing;
  }

  /** Releasing an id wrongs nobody exactly when nothing is released, or the call that holds the slot
      has returned from Admit. */
  lemma ReleaseIsSafeExactlyWhen(cfg: Config, s: Service, vm: VMID)
    requires Owned(cfg, s) && Flowing(cfg, s) && Inv(s.sched)
    ensures WrongsNobody(DoReleaseVM(s, vm)) <==> Disciplined(cfg, s, ReleaseVM(vm))
  {
    ReleaseUnassigns(s.sched, vm);
    if vm !in s.sched.assignment {
      hide Inv, Release, Owned;
      OwnedWrongsNobody(cfg, s);
    } else if Disciplined(cfg, s, ReleaseVM(vm)) {
      SlotReleased(cfg, s, vm);
      hide Inv, DoReleaseVM;
      OwnedWrongsNobody(cfg, DoReleaseVM(s, vm));
    } else {
      var c :| LiveUnder(cfg, s, c, vm) && !s.calls[c].caller.Returned?;
      KeptNow(cfg, s, c);
      EarlyReleaseWrongs(cfg, s, vm, c);
      hide Inv, Release, Owned, Wronged;
    }
  }
}
