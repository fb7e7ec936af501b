/** What shutdown leaves behind: requests enqueued after the dispatcher has drained and exited
    are never answered, and those are the only ones (internal/placement/service.go). */
module PlacementShutdown {
  import opened Common
  import opened SchedulerSpec
  import opened PlacementProtocol
  import opened PlacementFlow

  lemma ExitIsFinal(cfg: Config, s: Service, a: Action)
    requires Inv(s.sched) && Enabled(cfg, s, a) && s.dispatcher == Exited
    ensures var s' := Apply(cfg, s, a);
      && s'.dispatcher == Exited
      && s'.verdicts == s.verdicts
      && s.queue <= s'.queue
  {
    hide Inv, Apply, Enabled;
    LeftByKind(cfg, s, a);
  }

  lemma LeftByKind(cfg: Config, s: Service, a: Action)
    requires Inv(s.sched) && Enabled(cfg, s, a)
    ensures var s' := Apply(cfg, s, a);
      && s'.enqueued == (if a.Enqueue? then s.enqueued + [a.c] else s.enqueued)
      && (!Dispatching(a) || s.dispatcher == Exited ==>
            s'.dispatcher == s.dispatcher && s'.verdicts == s.verdicts && s.queue <= s'.queue)
  {
    hide Inv, Apply, Enabled;
    if Admitting(a) {
      AdmittingLeaves(cfg, s, a);
    } else if Booted(a) {
      BootingLeaves(cfg, s, a);
    } else if Dispatching(a) {
      DispatchingLeaves(cfg, s, a);
    } else {
      OutsideLeaves(cfg, s, a);
    }
  }

  /** Once the dispatcher has exited, a queued request stays queued and unanswered through every
      continuation, and its Admit never returns. */
  lemma {:induction false} LateRequestIsNeverAnswered(cfg: Config, s: Service, acts: seq<Action>, c: CallId)
    requires Flowing(cfg, s) && Inv(s.sched) && s.dispatcher == Exited && c in s.queue
    requires Exec(cfg, s, acts).Some?
    ensures var t := Exec(cfg, s, acts).value;
      && t.dispatcher == Exited && t.verdicts == s.verdicts && s.queue <= t.queue
      && c in t.queue && c in t.calls
      && t.calls[c].written == [] && (t.calls[c].caller == Recording || t.calls[c].caller == Awaiting)
  {
    RunsFromHereKeepFlow(cfg, s, acts);
    if acts == [] {
    } else {
      var front, a := acts[..|acts| - 1], acts[|acts| - 1];
      LateRequestIsNeverAnswered(cfg, s, front, c);
      hide Inv, Flow, CallOk, Apply, Enabled;
      ExitIsFinal(cfg, Exec(cfg, s, front).value, a);
    }
    hide Exec, Inv;
    var t := Exec(cfg, s, acts).value;
    QueuedCall(t, c);
  }

  lemma QueuedCall(t: Service, c: CallId)
    requires Flow(t.calls, t.queue, t.dispatcher, t.verdicts, t.enqueued) && c in t.queue
    ensures c in t.calls && t.calls[c].written == []
    ensures t.calls[c].caller == Recording || t.calls[c].caller == Awaiting
  {
    assert CallOk(t.calls[c]);
  }

  /** The request is never answered, however the run goes on. */
  ghost predicate NeverAnswered(cfg: Config, t: Service, c: CallId) {
    forall more :: Exec(cfg, t, more).Some? ==>
      c in Exec(cfg, t, more).value.calls && Exec(cfg, t, more).value.calls[c].written == []
  }

  /** The requests enqueued are those with an Enqueue in the run. */
  lemma {:induction false} EnqueuedInRun(cfg: Config, s: Service, acts: seq<Action>, c: CallId)
    requires s.enqueued == [] && Exec(cfg, s, acts).Some?
    ensures c in Exec(cfg, s, acts).value.enqueued <==> Enqueue(c) in acts
  {
    if acts == [] {
    } else {
      hide Inv, Apply, Enabled;
      var front, a := acts[..|acts| - 1], acts[|acts| - 1];
      EnqueuedInRun(cfg, s, front, c);
      LeftByKind(cfg, Exec(cfg, s, front).value, a);
      InFrontOrLast(acts, Enqueue(c));
    }
  }

  lemma {:induction false} ExecSplits(cfg: Config, s: Service, acts: seq<Action>, n: nat)
    requires n <= |acts| && Exec(cfg, s, acts).Some?
    ensures Exec(cfg, s, acts[..n]).Some?
    ensures Exec(cfg, Exec(cfg, s, acts[..n]).value, acts[n..]) == Exec(cfg, s, acts)
    decreases |acts|
  {
    hide Inv, Apply, Enabled;
    if n == |acts| {
      assert acts[..n] == acts && acts[n..] == [];
    } else {
      var front := acts[..|acts| - 1];
      ExecSplits(cfg, s, front, n);
      assert front[..n] == acts[..n];
      assert acts[n..][..|acts[n..]| - 1] == front[n..];
    }
  }

  /** At its exit the dispatcher has answered every request enqueued so far. */
  lemma ExitAnswersAll(cfg: Config, s: Service)
    requires Flowing(cfg, s) && Inv(s.sched) && Enabled(cfg, s, Exit)
    ensures var t := Apply(cfg, s, Exit);
      t.enqueued == Ids(t.verdicts) && t.dispatcher == Exited
  {
  }

  lemma {:induction false} AfterExit(cfg: Config, s: Service, acts: seq<Action>)
    requires s.dispatcher == Exited && Exec(cfg, s, acts).Some?
    ensures Exec(cfg, s, acts).value.dispatcher == Exited
    ensures Exec(cfg, s, acts).value.verdicts == s.verdicts
  {
    if acts == [] {
    } else {
      hide Inv, Apply, Enabled;
      AfterExit(cfg, s, acts[..|acts| - 1]);
      ExitIsFinal(cfg, Exec(cfg, s, acts[..|acts| - 1]).value, acts[|acts| - 1]);
    }
  }

  /** In a state after the exit, a request sent is answered, and otherwise it is in the abandoned
      queue. */
  lemma AnsweredOrAbandoned(cfg: Config, t: Service, c: CallId)
    requires Flowing(cfg, t) && t.dispatcher == Exited && c in t.enqueued
    ensures c in Ids(t.verdicts) ==> c in t.calls && t.calls[c].written != []
    ensures c !in Ids(t.verdicts) ==> c in t.queue
  {
    if c in Ids(t.verdicts) {
      var i :| 0 <= i < |t.verdicts| && Ids(t.verdicts)[i] == c;
      assert t.calls[t.verdicts[i].0].stage == Answered(t.verdicts[i].1);
      assert CallOk(t.calls[c]);
    }
  }

  lemma AnsweredIsNotNever(cfg: Config, t: Service, c: CallId)
    requires c in t.calls && t.calls[c].written != []
    ensures !NeverAnswered(cfg, t, c)
  {
    assert Exec(cfg, t, []) == Some(t);
  }

  lemma AbandonedIsNever(cfg: Config, t: Service, c: CallId)
    requires Flowing(cfg, t) && Inv(t.sched) && t.dispatcher == Exited && c in t.queue
    ensures NeverAnswered(cfg, t, c)
  {
    hide Flowing, Inv, Exec;
    forall more | Exec(cfg, t, more).Some?
      ensures c in Exec(cfg, t, more).value.calls && Exec(cfg, t, more).value.calls[c].written == []
    {
      LateRequestIsNeverAnswered(cfg, t, more, c);
    }
  }

  /** Of the requests sent in a run in which the dispatcher exits at action n, those never answered
      are exactly the ones whose Enqueue comes after the exit. */
  lemma UnansweredExactlyWhenSentAfterExit(cfg: Config, s: Service, acts: seq<Action>, n: nat, c: CallId)
    requires Init(s) && Exec(cfg, s, acts).Some?
    requires n < |acts| && acts[n] == Exit && Enqueue(c) in acts
    ensures NeverAnswered(cfg, Exec(cfg, s, acts).value, c) <==> Enqueue(c) !in acts[..n]
  {
    ExecSplits(cfg, s, acts, n);
    ExecSplits(cfg, s, acts, n + 1);
    assert acts[..n + 1][..n] == acts[..n];
    var before, mid, t := Exec(cfg, s, acts[..n]).value, Exec(cfg, s, acts[..n + 1]).value, Exec(cfg, s, acts).value;
    RunsKeepFlow(cfg, s, acts[..n]);
    RunsKeepFlow(cfg, s, acts);
    assert Enabled(cfg, before, Exit) && mid == Apply(cfg, before, Exit);
    EnqueuedInRun(cfg, s, acts, c);
    EnqueuedInRun(cfg, s, acts[..n], c);
    LeftByKind(cfg, before, Exit);
    hide *;
    ExitAnswersAll(cfg, before);
    AfterExit(cfg, mid, acts[n + 1..]);
    AnsweredOrAbandoned(cfg, t, c);
    if Enqueue(c) in acts[..n] {
      AnsweredIsNotNever(cfg, t, c);
    } else {
      AbandonedIsNever(cfg, t, c);
    }
  }

  /** Such a request is reachable: stop the service, let the dispatcher leave, then call Admit. */
  lemma AdmitAfterShutdown(cfg: Config, s: Service, vm: VMID)
    requires Init(s) && cfg.queueDepth >= 1 && vm != VMID("")
    ensures var acts := [Stop, BeginDrain, Exit, Admit(0, vm), Enqueue(0)];
      && Exec(cfg, s, acts).Some?
      && var t := Exec(cfg, s, acts).value;
         t.dispatcher == Exited && t.queue == [0] && t.calls[0].vm == vm
  {
    var acts, exited := ShutsDown(cfg, s);
    hide Inv, Exec, Init;
    var offered := exited.(calls := map[0 := Call(vm, false, Offering, Unsent, [])],
                           counters := exited.counters.(accepted := 1));
    acts := Then(cfg, s, acts, exited, Admit(0, vm), offered);
    acts := Then(cfg, s, acts, offered, Enqueue(0), Apply(cfg, offered, Enqueue(0)));
    assert acts == [Stop, BeginDrain, Exit, Admit(0, vm), Enqueue(0)];
  }

  lemma ShutsDown(cfg: Config, s: Service) returns (acts: seq<Action>, exited: Service)
    requires Init(s)
    ensures acts == [Stop, BeginDrain, Exit] && exited == s.(stopped := true, dispatcher := Exited)
    ensures Exec(cfg, s, acts) == Some(exited)
  {
    assert Exec(cfg, s, []) == Some(s);
    hide Inv, Exec;
    var stopped := s.(stopped := true);
    var draining := stopped.(dispatcher := Dispatcher.Draining);
    exited := draining.(dispatcher := Exited);
    acts := Then(cfg, s, [], s, Stop, stopped);
    acts := Then(cfg, s, acts, stopped, BeginDrain, draining);
    acts := Then(cfg, s, acts, draining, Exit, exited);
  }
}
