/** Exactly-once, first-in-first-out verdicts in every reachable state of the admission
    protocol (internal/placement/service.go, docs/decisions/0007-queue-not-reject.md). */
module PlacementFlow {
  import opened Common
  import opened SchedulerSpec
  import opened PlacementProtocol

  ghost function Ids(verdicts: seq<(CallId, Verdict)>): (ids: seq<CallId>)
    ensures |ids| == |verdicts| && forall i :: 0 <= i < |ids| ==> ids[i] == verdicts[i].0
  {
    seq(|verdicts|, i requires 0 <= i < |verdicts| => verdicts[i].0)
  }

  ghost function AtDispatcher(d: Dispatcher): seq<CallId> {
    if d.Serving? || d.Placing? || d.Waiting? || d.Writing? then [d.call] else []
  }

  predicate DispatcherRefusal(why: Failure) {
    why == AdmissionTimeout || why == ShuttingDown || why == DuplicateVM
  }

  /** A verdict the dispatcher can reach. */
  predicate Sane(v: Verdict) {
    v.Refused? ==> DispatcherRefusal(v.why)
  }

  /** A call's own code position, channel and request stage agree. */
  predicate CallOk(call: Call) {
    match call.stage
    case Unsent => call.written == [] && (call.caller == Offering || call.caller == Returned(Failed(QueueFull)))
    case Queued => call.written == [] && (call.caller == Recording || call.caller == Awaiting)
    case Dispatched => call.written == [] && (call.caller == Recording || call.caller == Awaiting)
    case Decided(v) => call.written == [] && (call.caller == Recording || call.caller == Awaiting) && Sane(v)
    case Answered(v) =>
      && call.written == [v] && Sane(v)
      && match call.caller
         case Offering => false
         case Recording => true
         case Awaiting => true
         case Booting(boots, _, _) => v.Granted? && boots < MAX_BOOT_ATTEMPTS
         case Freed(boots, _) => v.Granted? && boots < MAX_BOOT_ATTEMPTS
         case Retrying(boots, _) => v.Granted? && boots < MAX_BOOT_ATTEMPTS
         case Replacing(boots, _) => v.Granted? && boots + 1 < MAX_BOOT_ATTEMPTS
         case Returned(Succeeded(_, _)) => v.Granted?
         case Returned(Failed(why)) => if v.Granted? then why == BootFailed else why == v.why
  }

  /** The queue, the dispatcher and the written verdicts hold each sent request exactly once,
      in the order the requests were enqueued. */
  ghost predicate Flow(
    calls: map<CallId, Call>, queue: seq<CallId>, d: Dispatcher,
    verdicts: seq<(CallId, Verdict)>, enqueued: seq<CallId>)
  {
    && (forall c :: c in calls ==> CallOk(calls[c]))
    && (forall i :: 0 <= i < |queue| ==> queue[i] in calls && calls[queue[i]].stage == Queued)
    && (forall i :: 0 <= i < |verdicts| ==>
          verdicts[i].0 in calls && calls[verdicts[i].0].stage == Answered(verdicts[i].1))
    && DispatcherHolds(calls, d)
    && NoDup(queue) && NoDup(Ids(verdicts))
    && (forall c :: c in calls && calls[c].stage == Queued ==> c in queue)
    && (forall c :: c in calls && (calls[c].stage.Dispatched? || calls[c].stage.Decided?) ==> Handling(d, c))
    && (forall c :: c in calls && calls[c].stage.Answered? ==> c in Ids(verdicts))
    && enqueued == Ids(verdicts) + AtDispatcher(d) + queue
  }

  ghost predicate DispatcherHolds(calls: map<CallId, Call>, d: Dispatcher) {
    match d
    case Serving(c, _) => c in calls && calls[c].stage == Dispatched
    case Placing(c, _) => c in calls && calls[c].stage == Dispatched
    case Waiting(c, _) => c in calls && calls[c].stage == Dispatched
    case Writing(c, v, _) => c in calls && calls[c].stage == Decided(v)
    case _ => true
  }

  ghost predicate Flowing(cfg: Config, s: Service) {
    && Flow(s.calls, s.queue, s.dispatcher, s.verdicts, s.enqueued)
    && |s.queue| <= cfg.queueDepth
    && s.counters.maxQueueLen <= cfg.queueDepth
  }

  // ------------------------------------------------------- one kind of step each

  /** A call that moves in its own code, without its request changing stage. */
  lemma CallerMoves(calls: map<CallId, Call>, queue: seq<CallId>, d: Dispatcher,
                    verdicts: seq<(CallId, Verdict)>, enqueued: seq<CallId>, c: CallId, call: Call)
    requires Flow(calls, queue, d, verdicts, enqueued)
    requires CallOk(call)
    requires if c in calls then call.stage == calls[c].stage else call.stage == Unsent
    ensures Flow(calls[c := call], queue, d, verdicts, enqueued)
  {
  }

  lemma RequestSent(calls: map<CallId, Call>, queue: seq<CallId>, d: Dispatcher,
                    verdicts: seq<(CallId, Verdict)>, enqueued: seq<CallId>, c: CallId, call: Call)
    requires Flow(calls, queue, d, verdicts, enqueued)
    requires c in calls && calls[c].stage == Unsent
    requires CallOk(call) && call.stage == Queued
    ensures Flow(calls[c := call], queue + [c], d, verdicts, enqueued + [c])
  {
    assert enqueued + [c] == Ids(verdicts) + AtDispatcher(d) + (queue + [c]);
  }

  /** The dispatcher takes the head of the queue, to serve it or to refuse it while draining. */
  lemma HeadTaken(calls: map<CallId, Call>, queue: seq<CallId>, d: Dispatcher,
                  verdicts: seq<(CallId, Verdict)>, enqueued: seq<CallId>, d': Dispatcher, call: Call)
    requires Flow(calls, queue, d, verdicts, enqueued)
    requires queue != [] && AtDispatcher(d) == [] && AtDispatcher(d') == [queue[0]]
    requires CallOk(call) && (call.stage.Dispatched? || call.stage.Decided?)
    requires DispatcherHolds(calls[queue[0] := call], d')
    ensures Flow(calls[queue[0] := call], queue[1..], d', verdicts, enqueued)
  {
    var head, rest, calls' := queue[0], queue[1..], calls[queue[0] := call];
    assert queue == [head] + rest;
    assert Ids(verdicts) + [] + queue == Ids(verdicts) + [head] + rest;
    assert NoDup(rest) && head !in rest;
    forall c | c in calls' && calls'[c].stage == Queued
      ensures c in rest
    {
      assert c in queue && c != head;
    }
    forall c | c in calls' && (calls'[c].stage.Dispatched? || calls'[c].stage.Decided?)
      ensures Handling(d', c)
    {
      assert c != head ==> Handling(d, c);
    }
    forall i | 0 <= i < |rest|
      ensures rest[i] in calls' && calls'[rest[i]].stage == Queued
    {
      assert rest[i] == queue[i + 1] && rest[i] != head;
    }
    forall i | 0 <= i < |verdicts|
      ensures verdicts[i].0 in calls' && calls'[verdicts[i].0].stage == Answered(verdicts[i].1)
    {
      assert calls[verdicts[i].0].stage == Answered(verdicts[i].1) && calls[head].stage == Queued;
    }
  }

  /** The dispatcher changes its mind about the request it already holds. */
  lemma HeldMoves(calls: map<CallId, Call>, queue: seq<CallId>, d: Dispatcher,
                  verdicts: seq<(CallId, Verdict)>, enqueued: seq<CallId>, d': Dispatcher, c: CallId, call: Call)
    requires Flow(calls, queue, d, verdicts, enqueued)
    requires AtDispatcher(d) == [c] == AtDispatcher(d') && c in calls
    requires CallOk(call) && (call.stage.Dispatched? || call.stage.Decided?)
    requires DispatcherHolds(calls[c := call], d')
    ensures Flow(calls[c := call], queue, d', verdicts, enqueued)
  {
    assert Handling(d, c);
    assert calls[c].stage.Dispatched? || calls[c].stage.Decided?;
  }

  lemma VerdictWritten(calls: map<CallId, Call>, queue: seq<CallId>, d: Dispatcher,
                       verdicts: seq<(CallId, Verdict)>, enqueued: seq<CallId>, d': Dispatcher)
    requires Flow(calls, queue, d, verdicts, enqueued)
    requires d.Writing? && AtDispatcher(d') == []
    ensures calls[d.call].written == []
    ensures var call := calls[d.call];
      Flow(calls[d.call := call.(stage := Answered(d.verdict), written := call.written + [d.verdict])],
           queue, d', verdicts + [(d.call, d.verdict)], enqueued)
  {
    var c, v := d.call, d.verdict;
    assert calls[c].stage == Decided(v);
    assert Ids(verdicts + [(c, v)]) == Ids(verdicts) + [c];
    forall i | 0 <= i < |verdicts|
      ensures Ids(verdicts)[i] != c
    {
      assert calls[verdicts[i].0].stage.Answered?;
    }
    var call' := calls[c].(stage := Answered(v), written := calls[c].written + [v]);
    assert CallOk(calls[c]) && CallOk(call');
    var calls' := calls[c := call'];
    assert Ids(verdicts) + [c] + queue == (Ids(verdicts) + [c]) + [] + queue;
    forall c' | c' in calls' && c' != c
      ensures !calls'[c'].stage.Dispatched? && !calls'[c'].stage.Decided?
    {
      assert !Handling(d, c');
    }
  }

  lemma DispatcherIdles(calls: map<CallId, Call>, queue: seq<CallId>, d: Dispatcher,
                        verdicts: seq<(CallId, Verdict)>, enqueued: seq<CallId>, d': Dispatcher)
    requires Flow(calls, queue, d, verdicts, enqueued)
    requires AtDispatcher(d) == [] == AtDispatcher(d')
    ensures Flow(calls, queue, d', verdicts, enqueued)
  {
    forall c | c in calls
      ensures !calls[c].stage.Dispatched? && !calls[c].stage.Decided?
    {
      assert !Handling(d, c);
    }
  }

  // ---------------------------------------------------------------- every step

  lemma StepKeepsFlow(cfg: Config, s: Service, a: Action)
    requires Flowing(cfg, s) && Inv(s.sched) && Enabled(cfg, s, a)
    ensures Flowing(cfg, Apply(cfg, s, a))
  {
    if Admitting(a) {
      AdmittingKeepsFlow(cfg, s, a);
    } else if Booted(a) {
      BootedKeepsFlow(cfg, s, a);
    } else if a.Take? || a.DrainOne? || a.BeginDrain? || a.Exit? || a.Write? {
      DispatcherHandoverKeepsFlow(cfg, s, a);
    } else if a.TimeOut? || a.CheckDeadline? || a.TryPlace? || a.Wake? || a.Tick? || a.QuitWaiting? {
      DispatcherWorkKeepsFlow(cfg, s, a);
    } else {
      hide Flow, Release, SetHostState, RemoveHost, AddHost, Inv;
      var s' := Apply(cfg, s, a);
      assert s'.calls == s.calls && s'.queue == s.queue && s'.dispatcher == s.dispatcher;
    }
  }

  lemma AdmittingKeepsFlow(cfg: Config, s: Service, a: Action)
    requires Flowing(cfg, s) && Inv(s.sched) && Enabled(cfg, s, a) && Admitting(a)
    ensures Flowing(cfg, Apply(cfg, s, a))
  {
    hide Inv, Flow;
    var c, s' := a.c, Apply(cfg, s, a);
    FlowFacts(s.calls, s.queue, s.dispatcher, s.verdicts, s.enqueued);
    match a {
      case Enqueue(_) => RequestSent(s.calls, s.queue, s.dispatcher, s.verdicts, s.enqueued, c, s'.calls[c]);
      case Admit(_, _) => CallerMoves(s.calls, s.queue, s.dispatcher, s.verdicts, s.enqueued, c, s'.calls[c]);
      case Expire(_) => CallerMoves(s.calls, s.queue, s.dispatcher, s.verdicts, s.enqueued, c, s'.calls[c]);
      case RejectFull(_) => CallerMoves(s.calls, s.queue, s.dispatcher, s.verdicts, s.enqueued, c, s'.calls[c]);
      case RecordDepth(_) => CallerMoves(s.calls, s.queue, s.dispatcher, s.verdicts, s.enqueued, c, s'.calls[c]);
      case Receive(_) => ReceivingKeepsFlow(cfg, s, c);
    }
  }

  lemma ReceivingKeepsFlow(cfg: Config, s: Service, c: CallId)
    requires Flowing(cfg, s) && Inv(s.sched) && Enabled(cfg, s, Receive(c))
    ensures Flowing(cfg, Apply(cfg, s, Receive(c)))
  {
    ReceiptIsOk(cfg, s, c);
    hide Inv, Flow, DoReceive;
    CallerMoves(s.calls, s.queue, s.dispatcher, s.verdicts, s.enqueued, c, DoReceive(cfg, s, c).calls[c]);
  }

  lemma ReceiptIsOk(cfg: Config, s: Service, c: CallId)
    requires Flowing(cfg, s) && At(s, c, Awaiting) && s.calls[c].written != []
    ensures var s' := DoReceive(cfg, s, c);
      && s' == s.(calls := s.calls[c := s'.calls[c]], counters := s'.counters)
      && CallOk(s'.calls[c]) && s'.calls[c].stage == s.calls[c].stage
  {
    hide Inv, Flow;
    FlowFacts(s.calls, s.queue, s.dispatcher, s.verdicts, s.enqueued);
  }

  lemma BootedKeepsFlow(cfg: Config, s: Service, a: Action)
    requires Flowing(cfg, s) && Inv(s.sched) && Enabled(cfg, s, a) && Booted(a)
    ensures Flowing(cfg, Apply(cfg, s, a))
  {
    hide Inv, Flow, Place, Release;
    var c, s' := a.c, Apply(cfg, s, a);
    FlowFacts(s.calls, s.queue, s.dispatcher, s.verdicts, s.enqueued);
    match a {
      case BootSucceeds(_) => CallerMoves(s.calls, s.queue, s.dispatcher, s.verdicts, s.enqueued, c, s'.calls[c]);
      case BootFails(_) => CallerMoves(s.calls, s.queue, s.dispatcher, s.verdicts, s.enqueued, c, s'.calls[c]);
      case SignalAfterBoot(_) => CallerMoves(s.calls, s.queue, s.dispatcher, s.verdicts, s.enqueued, c, s'.calls[c]);
      case GiveUp(_) => CallerMoves(s.calls, s.queue, s.dispatcher, s.verdicts, s.enqueued, c, s'.calls[c]);
      case DecideToReplace(_) => CallerMoves(s.calls, s.queue, s.dispatcher, s.verdicts, s.enqueued, c, s'.calls[c]);
      case Replace(_) => ReplacingKeepsFlow(cfg, s, c);
    }
  }

  /** A re-placement either starts the next boot or ends the call. */
  lemma ReplacingMovesCaller(s: Service, c: CallId)
    requires Inv(s.sched) && c in s.calls && s.calls[c].caller.Replacing?
    ensures var boots, call, s' := s.calls[c].caller.boots, s.calls[c], DoReplace(s, c);
      && c in s'.calls && s'.calls == s.calls[c := s'.calls[c]]
      && (|| s'.calls[c] == call.(caller := Returned(Failed(BootFailed)))
          || (s'.calls[c].caller.Booting? && s'.calls[c].caller.boots == boots + 1
              && s'.calls[c] == call.(caller := s'.calls[c].caller)))
      && s' == s.(sched := s'.sched, calls := s'.calls, counters := s'.counters)
      && s'.counters.maxQueueLen == s.counters.maxQueueLen
  {
    hide Inv, Place;
  }

  lemma ReplacingKeepsFlow(cfg: Config, s: Service, c: CallId)
    requires Flowing(cfg, s) && Inv(s.sched) && Enabled(cfg, s, Replace(c))
    ensures Flowing(cfg, Apply(cfg, s, Replace(c)))
  {
    ReplacingMovesCaller(s, c);
    hide Inv, Flow, DoReplace;
    FlowFacts(s.calls, s.queue, s.dispatcher, s.verdicts, s.enqueued);
    CallerMoves(s.calls, s.queue, s.dispatcher, s.verdicts, s.enqueued, c, Apply(cfg, s, Replace(c)).calls[c]);
  }

  lemma DispatcherHandoverKeepsFlow(cfg: Config, s: Service, a: Action)
    requires Flowing(cfg, s) && Inv(s.sched) && Enabled(cfg, s, a)
    requires a.Take? || a.DrainOne? || a.BeginDrain? || a.Exit? || a.Write?
    ensures Flowing(cfg, Apply(cfg, s, a))
  {
    hide Inv, Flow;
    var s' := Apply(cfg, s, a);
    FlowFacts(s.calls, s.queue, s.dispatcher, s.verdicts, s.enqueued);
    if a.Write? {
      VerdictWritten(s.calls, s.queue, s.dispatcher, s.verdicts, s.enqueued, s'.dispatcher);
    } else if a.BeginDrain? || a.Exit? {
      DispatcherIdles(s.calls, s.queue, s.dispatcher, s.verdicts, s.enqueued, s'.dispatcher);
    } else {
      HeadTaken(s.calls, s.queue, s.dispatcher, s.verdicts, s.enqueued, s'.dispatcher, s'.calls[s.queue[0]]);
    }
  }

  lemma DispatcherWorkKeepsFlow(cfg: Config, s: Service, a: Action)
    requires Flowing(cfg, s) && Inv(s.sched) && Enabled(cfg, s, a)
    requires a.TimeOut? || a.CheckDeadline? || a.TryPlace? || a.Wake? || a.Tick? || a.QuitWaiting?
    ensures Flowing(cfg, Apply(cfg, s, a))
  {
    hide Inv, Flow, Place;
    var s' := Apply(cfg, s, a);
    FlowFacts(s.calls, s.queue, s.dispatcher, s.verdicts, s.enqueued);
    if a.TryPlace? {
      PlacingKeepsFlow(cfg, s);
    } else if s'.dispatcher.Writing? {
      var c := s.dispatcher.call;
      HeldMoves(s.calls, s.queue, s.dispatcher, s.verdicts, s.enqueued, s'.dispatcher, c, s'.calls[c]);
    } else {
      HeldStays(s, s');
    }
  }

  /** A placement attempt either sends the dispatcher to wait or settles on a verdict. */
  lemma PlacingDecides(s: Service) returns (v: Option<Verdict>)
    requires Inv(s.sched) && s.dispatcher.Placing? && s.dispatcher.call in s.calls
    ensures var c, s' := s.dispatcher.call, DoTryPlace(s);
      && (v.None? ==> s' == s.(dispatcher := Waiting(c, s.dispatcher.attempts + 1)))
      && (v.Some? ==> s' == Decide(s, c, v.value, false).(sched := s'.sched))
    ensures v.Some? ==> Sane(v.value) && v.value != Refused(AdmissionTimeout)
  {
    hide Inv, Place;
    var r := Place(s.sched, s.calls[s.dispatcher.call].vm).1;
    match r
    case Ok(host) => v := Some(Granted(host, s.dispatcher.attempts + 1));
    case Err(ErrNoCapacity) => v := None;
    case Err(_) => v := Some(Refused(DuplicateVM));
  }

  lemma PlacingKeepsFlow(cfg: Config, s: Service)
    requires Flowing(cfg, s) && Inv(s.sched) && Enabled(cfg, s, TryPlace)
    ensures Flowing(cfg, Apply(cfg, s, TryPlace))
  {
    var v := PlacingDecides(s);
    hide Inv, Flow, DoTryPlace;
    var c, s' := s.dispatcher.call, Apply(cfg, s, TryPlace);
    FlowFacts(s.calls, s.queue, s.dispatcher, s.verdicts, s.enqueued);
    if v.Some? {
      HeldMoves(s.calls, s.queue, s.dispatcher, s.verdicts, s.enqueued, s'.dispatcher, c, s'.calls[c]);
    } else {
      HeldStays(s, s');
    }
  }

  /** The dispatcher's own code position changes while it holds the same request. */
  lemma HeldStays(s: Service, s': Service)
    requires Flow(s.calls, s.queue, s.dispatcher, s.verdicts, s.enqueued)
    requires s'.calls == s.calls && s'.queue == s.queue && s'.verdicts == s.verdicts && s'.enqueued == s.enqueued
    requires AtDispatcher(s.dispatcher) == AtDispatcher(s'.dispatcher)
    requires DispatcherHolds(s.calls, s'.dispatcher)
    ensures Flow(s'.calls, s'.queue, s'.dispatcher, s'.verdicts, s'.enqueued)
  {
    assert forall c: CallId :: Handling(s.dispatcher, c) <==> c in AtDispatcher(s.dispatcher);
    assert forall c: CallId :: Handling(s'.dispatcher, c) <==> c in AtDispatcher(s'.dispatcher);
  }

  /** The parts of Flow that single steps look at. */
  lemma FlowFacts(calls: map<CallId, Call>, queue: seq<CallId>, d: Dispatcher,
                  verdicts: seq<(CallId, Verdict)>, enqueued: seq<CallId>)
    requires Flow(calls, queue, d, verdicts, enqueued)
    ensures forall c :: c in calls ==> CallOk(calls[c])
    ensures DispatcherHolds(calls, d)
    ensures queue != [] ==> queue[0] in calls && calls[queue[0]].stage == Queued
  {
  }

  /** A call waiting for an answer that is there has the one its request was given. */
  lemma AnswerIsThere(cfg: Config, s: Service, c: CallId)
    requires Flowing(cfg, s) && At(s, c, Awaiting) && s.calls[c].written != []
    ensures s.calls[c].stage == Answered(s.calls[c].written[0]) && Sane(s.calls[c].written[0])
  {
    hide Flow;
    FlowFacts(s.calls, s.queue, s.dispatcher, s.verdicts, s.enqueued);
    assert CallOk(s.calls[c]);
  }

  lemma {:induction false} RunsFromHereKeepFlow(cfg: Config, s: Service, acts: seq<Action>)
    requires Flowing(cfg, s) && Inv(s.sched) && Exec(cfg, s, acts).Some?
    ensures Inv(Exec(cfg, s, acts).value.sched)
    ensures Flowing(cfg, Exec(cfg, s, acts).value)
  {
    hide Inv, Flowing, Apply, Enabled;
    if acts == [] {
    } else {
      var front, a := acts[..|acts| - 1], acts[|acts| - 1];
      RunsFromHereKeepFlow(cfg, s, front);
      var mid := Exec(cfg, s, front).value;
      SchedulerStaysValid(cfg, mid, a);
      StepKeepsFlow(cfg, mid, a);
    }
  }

  lemma RunsKeepFlow(cfg: Config, s: Service, acts: seq<Action>)
    requires Init(s) && Exec(cfg, s, acts).Some?
    ensures Inv(Exec(cfg, s, acts).value.sched)
    ensures Flowing(cfg, Exec(cfg, s, acts).value)
  {
    hide Inv, Exec;
    assert Ids([]) == [];
    RunsFromHereKeepFlow(cfg, s, acts);
  }

  // ------------------------------------------------------------- main statements

  /** In every reachable state verdicts have gone out in enqueue order, one per request. */
  lemma VerdictsAreFirstInFirstOut(cfg: Config, s: Service, acts: seq<Action>)
    requires Init(s) && Exec(cfg, s, acts).Some?
    ensures var t := Exec(cfg, s, acts).value;
      && |t.verdicts| <= |t.enqueued|
      && NoDup(t.enqueued)
      && forall i :: 0 <= i < |t.verdicts| ==> t.verdicts[i].0 == t.enqueued[i]
  {
    RunsKeepFlow(cfg, s, acts);
    var t := Exec(cfg, s, acts).value;
    SegmentsAreDisjoint(t);
    assert t.enqueued[..|t.verdicts|] == Ids(t.verdicts);
  }

  lemma SegmentsAreDisjoint(t: Service)
    requires Flow(t.calls, t.queue, t.dispatcher, t.verdicts, t.enqueued)
    ensures NoDup(t.enqueued) && t.enqueued == Ids(t.verdicts) + AtDispatcher(t.dispatcher) + t.queue
  {
    var v, d := Ids(t.verdicts), AtDispatcher(t.dispatcher);
    assert forall k :: 0 <= k < |v| ==> v[k] in t.calls && t.calls[v[k]].stage.Answered? by {
      assert forall k :: 0 <= k < |v| ==> v[k] == t.verdicts[k].0;
    }
    assert forall c :: c in d ==> c in t.calls && !t.calls[c].stage.Answered? && t.calls[c].stage != Queued;
    hide Flow, CallOk;
    assert NoDup(v + d + t.queue);
  }

  predicate ExactlyOne(a: bool, b: bool, c: bool) {
    (a || b || c) && !(a && b) && !(a && c) && !(b && c)
  }

  /** In every reachable state, every call has been answered at most once; a call still in Admit
      past its enqueue is in exactly one of the queue, the dispatcher's hands, and the answered;
      and the dispatcher only ever writes to an empty channel. */
  lemma EveryRequestIsInOnePlace(cfg: Config, s: Service, acts: seq<Action>, c: CallId)
    requires Init(s) && Exec(cfg, s, acts).Some?
    requires c in Exec(cfg, s, acts).value.calls
    ensures var t := Exec(cfg, s, acts).value;
      var call := t.calls[c];
      && |call.written| <= 1 && NoDup(t.queue)
      && (call.caller == Recording || call.caller == Awaiting ==>
            ExactlyOne(c in t.queue, Handling(t.dispatcher, c), call.written != []))
      && (t.dispatcher.Writing? && t.dispatcher.call == c ==> call.written == [])
  {
    RunsKeepFlow(cfg, s, acts);
    var t := Exec(cfg, s, acts).value;
    PlaceOfCall(t, c);
  }

  lemma PlaceOfCall(t: Service, c: CallId)
    requires Flow(t.calls, t.queue, t.dispatcher, t.verdicts, t.enqueued) && c in t.calls
    ensures var call := t.calls[c];
      && CallOk(call)
      && (c in t.queue <==> call.stage == Queued)
      && (Handling(t.dispatcher, c) <==> call.stage.Dispatched? || call.stage.Decided?)
      && (t.dispatcher.Writing? && t.dispatcher.call == c ==> call.stage.Decided?)
      && (call.written != [] <==> call.stage.Answered?)
  {
  }
}
