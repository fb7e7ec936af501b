/** What the registry knows of a host comes from the host: when it was last heard from, its address, and
    whether it is tracked, all from the calls made, over whole runs (internal/registry/registry.go). */
module RegistryContacts {
  import opened Common
  import opened SchedulerSpec
  import opened RegistrySpec

  // --------------------------------------------------------------- last contact

  /** The call is accepted as a sign of life: a heartbeat of a tracked host, or a registration of one,
      or of a new one with at least two slots. */
  predicate Accepted(v: View, op: Op, id: HostID) {
    match op
    case DoRegister(other, capacity, _, _) => other == id && id != HostID("") && (id in v.lastSeen || capacity >= 2)
    case DoHeartbeat(other, _) => other == id && id in v.lastSeen
    case _ => false
  }

  ghost predicate AcceptedAt(ops: seq<Op>, i: nat, id: HostID, timeout: int)
    requires i < |ops|
  {
    Accepted(Run(ops[..i], timeout), ops[i], id)
  }

  /** The latest of the first n calls accepted from the host. */
  ghost predicate LatestContact(ops: seq<Op>, n: nat, id: HostID, timeout: int, i: nat)
    requires n <= |ops|
  {
    && i < n && AcceptedAt(ops, i, id, timeout)
    && forall j: nat :: i < j < n ==> !AcceptedAt(ops, j, id, timeout)
  }

  lemma NextRun(ops: seq<Op>, n: nat, timeout: int)
    requires n < |ops|
    ensures Run(ops[..n + 1], timeout) == Do(Run(ops[..n], timeout), ops[n], timeout)
  {
    assert ops[..n + 1][..n] == ops[..n];
  }

  lemma ContactIsNoted(v: View, op: Op, id: HostID, timeout: int)
    requires Accepted(v, op, id)
    ensures var v' := Do(v, op, timeout); id in v'.lastSeen && v'.lastSeen[id] == op.now
  {
  }

  lemma OthersNoteNothing(v: View, op: Op, id: HostID, timeout: int)
    requires !Accepted(v, op, id) && id in Do(v, op, timeout).lastSeen
    ensures id in v.lastSeen && Do(v, op, timeout).lastSeen[id] == v.lastSeen[id]
  {
    hide Reap, RemoveAll;
    match op {
      case DoRegister(_, _, _, _) =>
      case DoHeartbeat(_, _) =>
      case DoDeregister(_, _) =>
      case DoSweep(now, reapNow) => ReapingSeesNobody(DrainSilent(v, now, timeout), reapNow);
      case DoPlace(_, _) =>
      case DoRelease(_) =>
    }
  }

  lemma ReapingSeesNobody(v: View, now: int)
    ensures Reap(v, now).lastSeen == v.lastSeen && Reap(v, now).address == v.address
  {
  }

  /** Over every run, the time a tracked host was last seen is that of the latest call accepted from
      it. */
  lemma {:induction false} SeenAtTheLatestContact(ops: seq<Op>, n: nat, id: HostID, timeout: int) returns (i: nat)
    requires n <= |ops| && id in Run(ops[..n], timeout).lastSeen
    ensures LatestContact(ops, n, id, timeout, i)
    ensures Run(ops[..n], timeout).lastSeen[id] == ops[i].now
    decreases n
  {
    hide Run, Do, Accepted;
    if n == 0 {
      NobodyAtFirst(ops, timeout);
    } else {
      NextRun(ops, n - 1, timeout);
      var v := Run(ops[..n - 1], timeout);
      if Accepted(v, ops[n - 1], id) {
        ContactIsNoted(v, ops[n - 1], id, timeout);
        i := n - 1;
      } else {
        OthersNoteNothing(v, ops[n - 1], id, timeout);
        i := SeenAtTheLatestContact(ops, n - 1, id, timeout);
      }
    }
  }

  lemma NobodyAtFirst(ops: seq<Op>, timeout: int)
    ensures Run(ops[..0], timeout).lastSeen == map[] && Run(ops[..0], timeout).address == map[]
  {
  }

  // ------------------------------------------------------------------- staying tracked

  /** The latest of the first n calls from the host, accepted or not. */
  predicate LatestCall(ops: seq<Op>, n: nat, id: HostID, i: nat)
    requires n <= |ops|
  {
    i < n && Contacts(ops[i], id) && forall j :: i < j < n ==> !Contacts(ops[j], id)
  }

  /** From its registration at a on, the host is not deregistered, and before every sweep its latest
      call is no more than the timeout old. */
  ghost predicate KeepsInTouch(ops: seq<Op>, a: nat, id: HostID, timeout: int)
    requires a < |ops|
  {
    forall j: nat :: a < j < |ops| ==>
      && !(ops[j].DoDeregister? && ops[j].id == id)
      && (ops[j].DoSweep? ==>
            exists i: nat :: a <= i && LatestCall(ops, j, id, i) && ops[j].now - ops[i].now <= timeout)
  }

  lemma TrackedCallIsAccepted(v: View, op: Op, id: HostID)
    requires id in v.lastSeen && id != HostID("")
    ensures Accepted(v, op, id) <==> Contacts(op, id)
  {
  }

  lemma TrackIsKept(v: View, op: Op, id: HostID, timeout: int)
    requires id in v.lastSeen && !Contacts(op, id) && !(op.DoDeregister? && op.id == id)
    requires op.DoSweep? ==> op.now - v.lastSeen[id] <= timeout
    ensures var v' := Do(v, op, timeout); id in v'.lastSeen && v'.lastSeen[id] == v.lastSeen[id]
  {
    hide Reap, RemoveAll;
    if op.DoSweep? {
      ReapingSeesNobody(DrainSilent(v, op.now, timeout), op.reapNow);
    }
  }

  lemma LatestCallIsUnique(ops: seq<Op>, n: nat, id: HostID, i: nat, j: nat)
    requires n <= |ops| && LatestCall(ops, n, id, i) && LatestCall(ops, n, id, j)
    ensures i == j
  {
  }

  lemma InTouchAt(ops: seq<Op>, a: nat, n: nat, id: HostID, timeout: int, i: nat)
    requires a < n < |ops| && KeepsInTouch(ops, a, id, timeout) && LatestCall(ops, n, id, i)
    ensures !(ops[n].DoDeregister? && ops[n].id == id)
    ensures ops[n].DoSweep? ==> ops[n].now - ops[i].now <= timeout
  {
    if ops[n].DoSweep? {
      var j: nat :| a <= j && LatestCall(ops, n, id, j) && ops[n].now - ops[j].now <= timeout;
      LatestCallIsUnique(ops, n, id, i, j);
    }
  }

  lemma CallIsLatest(ops: seq<Op>, n: nat, id: HostID)
    requires n < |ops| && Contacts(ops[n], id)
    ensures LatestCall(ops, n + 1, id, n)
  {
  }

  lemma LatestCallLasts(ops: seq<Op>, n: nat, id: HostID, i: nat)
    requires n < |ops| && LatestCall(ops, n, id, i) && !Contacts(ops[n], id)
    ensures LatestCall(ops, n + 1, id, i)
  {
  }

  lemma {:induction false} TrackedSince(ops: seq<Op>, a: nat, n: nat, id: HostID, timeout: int) returns (i: nat)
    requires a < n <= |ops| && ops[a].DoRegister? && AcceptedAt(ops, a, id, timeout)
    requires KeepsInTouch(ops, a, id, timeout)
    ensures a <= i && LatestCall(ops, n, id, i)
    ensures id in Run(ops[..n], timeout).lastSeen && Run(ops[..n], timeout).lastSeen[id] == ops[i].now
    decreases n
  {
    hide Run, Do, Accepted, KeepsInTouch, LatestCall, Contacts;
    AcceptedIsNamed(Run(ops[..a], timeout), ops[a], id);
    NextRun(ops, n - 1, timeout);
    var v, op := Run(ops[..n - 1], timeout), ops[n - 1];
    if n == a + 1 {
      ContactIsNoted(v, op, id, timeout);
      i := a;
      CallIsLatest(ops, a, id);
    } else {
      i := TrackedSince(ops, a, n - 1, id, timeout);
      if Contacts(op, id) {
        TrackedCallIsAccepted(v, op, id);
        ContactIsNoted(v, op, id, timeout);
        i := n - 1;
        CallIsLatest(ops, n - 1, id);
      } else {
        InTouchAt(ops, a, n - 1, id, timeout, i);
        TrackIsKept(v, op, id, timeout);
        LatestCallLasts(ops, n - 1, id, i);
      }
    }
  }

  lemma AcceptedIsNamed(v: View, op: Op, id: HostID)
    requires op.DoRegister? && Accepted(v, op, id)
    ensures id != HostID("") && Contacts(op, id)
  {
  }

  /** A host that has registered, is not deregistered, and is heard from by registration or heartbeat at
      most the timeout before every sweep, is tracked and ready at the end of every such run. */
  lemma HostInTouchStaysReady(ops: seq<Op>, a: nat, id: HostID, timeout: int)
    requires a < |ops| && ops[a].DoRegister? && AcceptedAt(ops, a, id, timeout) && KeepsInTouch(ops, a, id, timeout)
    ensures var v := Run(ops, timeout);
      id in v.lastSeen && id in v.hosts && v.hosts[id].state == Ready
  {
    hide Run, KeepsInTouch, Accounted;
    var i := TrackedSince(ops, a, |ops|, id, timeout);
    assert ops[..|ops|] == ops;
    RunsAgree(ops, timeout);
  }

  /** A host whose every call lies more than the timeout before a sweep, and that does not call again, is
      gone with all its assignments once a sweep runs thirty seconds later, and stays gone. */
  lemma UnheardHostIsReclaimed(ops: seq<Op>, timeout: int, id: HostID, a: nat, b: nat)
    requires Monotone(ops) && a < b < |ops| && ops[a].DoSweep? && ops[b].DoSweep?
    requires forall i :: 0 <= i < a && Contacts(ops[i], id) ==> ops[a].now - ops[i].now > timeout
    requires forall i :: a < i < |ops| ==> !Contacts(ops[i], id)
    requires ops[b].now >= ops[a].now + 30_000_000_000
    ensures var v := Run(ops, timeout);
      id !in v.hosts && id !in v.lastSeen && id !in v.address && id !in v.drainingSince
      && VMsOn(v.assignment, id) == {}
  {
    if id in Run(ops[..a], timeout).lastSeen {
      var i := SeenAtTheLatestContact(ops, a, id, timeout);
      assert Contacts(ops[i], id);
    }
    hide Run;
    SilentHostIsReclaimed(ops, timeout, id, a, b);
  }

  /** A guest is given thirty seconds from its host's recorded drain time, to the nanosecond. */
  lemma GraceIsThirtySeconds(v: View, id: HostID, now: int, reapNow: int, timeout: int)
    requires Agrees(v) && id in v.hosts && v.hosts[id].used != 0 && id !in v.lastSeen
    ensures id in v.drainingSince
    ensures id in Sweep(v, now, reapNow, timeout).0.hosts <==> reapNow - v.drainingSince[id] < 30_000_000_000
  {
    GuestsOutliveSweepExactlyWhen(v, id, now, reapNow, timeout);
    hide Accounted, Sweep;
  }

  /** The number a sweep reports is that of the hosts it has stopped tracking. */
  lemma SweepCountsTheForgotten(v: View, now: int, reapNow: int, timeout: int)
    ensures var (v', n) := Sweep(v, now, reapNow, timeout);
      v'.lastSeen.Keys <= v.lastSeen.Keys && n == |v.lastSeen.Keys - v'.lastSeen.Keys|
  {
    ReapingSeesNobody(DrainSilent(v, now, timeout), reapNow);
    hide Reap;
    assert v.lastSeen.Keys - DrainSilent(v, now, timeout).lastSeen.Keys == Expired(v.lastSeen, now, timeout);
  }

  // --------------------------------------------------------------------- addresses

  predicate GivesAddress(v: View, op: Op, id: HostID) {
    op.DoRegister? && Accepted(v, op, id) && op.address != ""
  }

  ghost predicate LatestAddress(ops: seq<Op>, n: nat, id: HostID, timeout: int, i: nat)
    requires n <= |ops|
  {
    && i < n && GivesAddress(Run(ops[..i], timeout), ops[i], id)
    && forall j: nat :: i < j < n ==> !GivesAddress(Run(ops[..j], timeout), ops[j], id)
  }

  lemma AddressChanges(v: View, op: Op, id: HostID, timeout: int)
    requires id in v.address ==> id in v.lastSeen
    ensures var v' := Do(v, op, timeout);
      && (GivesAddress(v, op, id) ==> id in v'.address && v'.address[id] == op.address)
      && (!GivesAddress(v, op, id) && id in v'.address ==> id in v.address && v'.address[id] == v.address[id])
      && (!GivesAddress(v, op, id) && id in v.address && id in v'.lastSeen ==> id in v'.address)
  {
    hide Reap, RemoveAll;
    match op {
      case DoRegister(_, _, _, _) =>
      case DoHeartbeat(_, _) =>
      case DoDeregister(_, _) =>
      case DoSweep(now, reapNow) => ReapingSeesNobody(DrainSilent(v, now, timeout), reapNow);
      case DoPlace(_, _) =>
      case DoRelease(_) =>
    }
  }

  lemma AddressedIsTracked(ops: seq<Op>, timeout: int, id: HostID)
    ensures id in Run(ops, timeout).address ==> id in Run(ops, timeout).lastSeen
  {
    RunsAgree(ops, timeout);
    hide Run, Accounted;
  }

  /** Over every run, the address kept for a host is the latest one it gave in an accepted
      registration. */
  lemma {:induction false} AddressIsTheLatestGiven(ops: seq<Op>, n: nat, id: HostID, timeout: int) returns (i: nat)
    requires n <= |ops| && id in Run(ops[..n], timeout).address
    ensures LatestAddress(ops, n, id, timeout, i)
    ensures Run(ops[..n], timeout).address[id] == ops[i].address
    decreases n
  {
    hide Run, Do, GivesAddress;
    if n == 0 {
      NobodyAtFirst(ops, timeout);
    } else {
      NextRun(ops, n - 1, timeout);
      AddressedIsTracked(ops[..n - 1], timeout, id);
      var v := Run(ops[..n - 1], timeout);
      AddressChanges(v, ops[n - 1], id, timeout);
      if GivesAddress(v, ops[n - 1], id) {
        i := n - 1;
      } else {
        i := AddressIsTheLatestGiven(ops, n - 1, id, timeout);
      }
      GivingIsRegistering(v, ops[n - 1], id);
    }
  }

  lemma GivingIsRegistering(v: View, op: Op, id: HostID)
    ensures GivesAddress(v, op, id) ==> op.DoRegister?
  {
  }

  /** And an address given is kept for as long as the host is tracked. */
  lemma {:induction false} AddressIsKept(ops: seq<Op>, i: nat, n: nat, id: HostID, timeout: int)
    requires i < n <= |ops| && GivesAddress(Run(ops[..i], timeout), ops[i], id)
    requires forall j: nat :: i < j <= n ==> id in Run(ops[..j], timeout).lastSeen
    ensures id in Run(ops[..n], timeout).address
    decreases n
  {
    hide Run, Do, GivesAddress;
    NextRun(ops, n - 1, timeout);
    AddressedIsTracked(ops[..n - 1], timeout, id);
    AddressChanges(Run(ops[..n - 1], timeout), ops[n - 1], id, timeout);
    if n > i + 1 {
      AddressIsKept(ops, i, n - 1, id, timeout);
    }
  }
}
