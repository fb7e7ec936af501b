/** How long a silent host with guests is spared, over whole runs: which recorded drain time counts,
    and when it is the true start of the drain (internal/registry/registry.go). */
module RegistryGrace {
  import opened Common
  import opened SchedulerSpec
  import opened RegistrySpec

  // ------------------------------------------------------------- surviving a grace period

  /** The host is draining untracked, on record since t. */
  predicate OnRecord(v: View, id: HostID, t: int) {
    && id in v.hosts && v.hosts[id].state == Draining && id !in v.lastSeen
    && id in v.drainingSince && v.drainingSince[id] == t
  }

  /** In this continuation nobody contacts or deregisters the host, it has a guest at every sweep
      that could remove it, and no sweep reads the clock at the deadline or later. */
  ghost predicate LeftAlone(v: View, ops: seq<Op>, id: HostID, deadline: int, timeout: int) {
    ops == [] ||
      var front, op := ops[..|ops| - 1], ops[|ops| - 1];
      var mid := RunFrom(v, front, timeout);
      && LeftAlone(v, front, id, deadline, timeout)
      && !Contacts(op, id) && !(op.DoDeregister? && op.id == id)
      && (op.DoSweep? ==> op.reapNow < deadline && (id in mid.hosts ==> mid.hosts[id].used != 0))
  }

  lemma SweepSparesRecorded(v: View, id: HostID, t: int, now: int, reapNow: int, timeout: int)
    requires OnRecord(v, id, t) && v.hosts[id].used != 0 && reapNow - t < FORCE_REMOVE_AFTER
    ensures OnRecord(Sweep(v, now, reapNow, timeout).0, id, t)
  {
  }

  lemma RecordStays(v: View, op: Op, id: HostID, t: int, timeout: int)
    requires OnRecord(v, id, t) && !Contacts(op, id) && !(op.DoDeregister? && op.id == id)
    requires op.DoSweep? ==> v.hosts[id].used != 0 && op.reapNow - t < FORCE_REMOVE_AFTER
    ensures OnRecord(Do(v, op, timeout), id, t)
  {
    hide Sweep;
    if op.DoSweep? {
      SweepSparesRecorded(v, id, t, op.now, op.reapNow, timeout);
    }
  }

  /** A host on record since t survives every continuation that leaves it alone until
      ForceRemoveAfter past t. */
  lemma {:induction false} SurvivesUntilForced(v: View, ops: seq<Op>, id: HostID, t: int, timeout: int)
    requires OnRecord(v, id, t) && LeftAlone(v, ops, id, t + FORCE_REMOVE_AFTER, timeout)
    ensures OnRecord(RunFrom(v, ops, timeout), id, t)
  {
    if ops == [] {
    } else {
      hide Do;
      var front := ops[..|ops| - 1];
      SurvivesUntilForced(v, front, id, t, timeout);
      RecordStays(RunFrom(v, front, timeout), ops[|ops| - 1], id, t, timeout);
    }
  }

  lemma {:induction false} EarlierDeadline(v: View, ops: seq<Op>, id: HostID, d: int, d': int, timeout: int)
    requires LeftAlone(v, ops, id, d, timeout) && d <= d'
    ensures LeftAlone(v, ops, id, d', timeout)
  {
    if ops == [] {
    } else {
      EarlierDeadline(v, ops[..|ops| - 1], id, d, d', timeout);
    }
  }

  /** This continuation of the sweep that finds the host silent does not remove it. */
  ghost predicate Spares(v: View, id: HostID, now: int, reapNow: int, ops: seq<Op>, timeout: int) {
    var after, deadline := Swept(v, now, reapNow, timeout), now + FORCE_REMOVE_AFTER;
    reapNow < deadline && LeftAlone(after, ops, id, deadline, timeout) ==> id in RunFrom(after, ops, timeout).hosts
  }

  /** The sweep that finds a host silent spares it, and so does every continuation that leaves it
      alone through sweeps less than ForceRemoveAfter later. */
  ghost predicate FullGrace(v: View, id: HostID, now: int, timeout: int) {
    forall reapNow, ops :: Spares(v, id, now, reapNow, ops, timeout)
  }

  function Swept(v: View, now: int, reapNow: int, timeout: int): View {
    Sweep(v, now, reapNow, timeout).0
  }

  lemma NoticedHostIsOnRecord(v: View, id: HostID, now: int, reapNow: int, timeout: int)
    requires Agrees(v) && id in v.lastSeen && now - v.lastSeen[id] > timeout && v.hosts[id].used != 0
    requires reapNow - DrainTime(v, id, now) < FORCE_REMOVE_AFTER
    ensures OnRecord(Swept(v, now, reapNow, timeout), id, DrainTime(v, id, now))
  {
    hide Agrees, OnRecord, Reap, DrainSilent, DrainTime;
    DrainingRecords(v, id, now, timeout);
    ReapSparesRecorded(DrainSilent(v, now, timeout), id, DrainTime(v, id, now), reapNow);
  }

  lemma DrainingRecords(v: View, id: HostID, now: int, timeout: int)
    requires Agrees(v) && id in v.lastSeen && now - v.lastSeen[id] > timeout
    ensures var mid := DrainSilent(v, now, timeout);
      && OnRecord(mid, id, DrainTime(v, id, now)) && id in mid.hosts && id in v.hosts
      && mid.hosts[id].used == v.hosts[id].used
  {
    hide Accounted;
  }

  lemma ReapSparesRecorded(v: View, id: HostID, t: int, reapNow: int)
    requires OnRecord(v, id, t) && v.hosts[id].used != 0 && reapNow - t < FORCE_REMOVE_AFTER
    ensures OnRecord(Reap(v, reapNow), id, t)
  {
  }

  lemma {:induction false} FreshRecordSpares(v: View, id: HostID, now: int, reapNow: int, ops: seq<Op>, timeout: int)
    requires Agrees(v) && id in v.lastSeen && now - v.lastSeen[id] > timeout && v.hosts[id].used != 0
    requires DrainTime(v, id, now) >= now
    ensures Spares(v, id, now, reapNow, ops, timeout)
  {
    hide Agrees, Swept, DrainTime, LeftAlone, RunFrom;
    var t, after, deadline := DrainTime(v, id, now), Swept(v, now, reapNow, timeout), now + FORCE_REMOVE_AFTER;
    if reapNow < deadline && LeftAlone(after, ops, id, deadline, timeout) {
      NoticedHostIsOnRecord(v, id, now, reapNow, timeout);
      EarlierDeadline(after, ops, id, deadline, t + FORCE_REMOVE_AFTER, timeout);
      SurvivesUntilForced(after, ops, id, t, timeout);
    }
  }

  /** A silent host with a guest has its full grace exactly when no drain time from before the sweep
      that noticed it is on record. */
  lemma {:induction false} FullGraceExactlyWhen(v: View, id: HostID, now: int, timeout: int)
    requires Agrees(v) && id in v.lastSeen && now - v.lastSeen[id] > timeout && v.hosts[id].used != 0
    ensures FullGrace(v, id, now, timeout) <==> id !in v.drainingSince || v.drainingSince[id] >= now
  {
    hide Agrees, Spares;
    if DrainTime(v, id, now) >= now {
      forall reapNow, ops
        ensures Spares(v, id, now, reapNow, ops, timeout)
      {
        FreshRecordSpares(v, id, now, reapNow, ops, timeout);
      }
    } else {
      EarlierStampCutsGrace(v, id, now, timeout);
    }
  }

  /** With an earlier time on record, a sweep whose second clock reading comes late enough, but
      within the grace period, removes the host. */
  lemma EarlierStampCutsGrace(v: View, id: HostID, now: int, timeout: int)
    requires Agrees(v) && id in v.lastSeen && now - v.lastSeen[id] > timeout && v.hosts[id].used != 0
    requires id in v.drainingSince && v.drainingSince[id] < now
    ensures !FullGrace(v, id, now, timeout)
  {
    var reapNow := now + FORCE_REMOVE_AFTER - 1;
    GuestsOutliveSweepExactlyWhen(v, id, now, reapNow, timeout);
    hide Agrees;
    assert !Spares(v, id, now, reapNow, [], timeout);
  }

  // --------------------------------------------------- which drain the record is of

  /** The operation drains a tracked host: it is deregistered, or a sweep finds it silent. */
  predicate DrainsHost(v: View, op: Op, id: HostID, timeout: int) {
    && id in v.lastSeen
    && ((op.DoDeregister? && op.id == id) || (op.DoSweep? && op.now - v.lastSeen[id] > timeout))
  }

  predicate Drains(ops: seq<Op>, n: nat, id: HostID, timeout: int)
    requires n < |ops|
  {
    DrainsHost(Run(ops[..n], timeout), ops[n], id, timeout)
  }

  /** Operation n makes an untracked host tracked. */
  predicate Returns(ops: seq<Op>, n: nat, id: HostID, timeout: int)
    requires n < |ops|
  {
    id !in Run(ops[..n], timeout).lastSeen && id in Run(ops[..n + 1], timeout).lastSeen
      && ops[n].DoRegister? && ops[n].id == id
  }

  /** The record is of drain d: taken at its time, and no deregistration has drained it since. */
  ghost predicate Records(ops: seq<Op>, d: nat, id: HostID, timeout: int) {
    && d < |ops| && Drains(ops, d, id, timeout)
    && (ops[d].DoDeregister? || ops[d].DoSweep?)
    && id in Run(ops, timeout).drainingSince && Run(ops, timeout).drainingSince[id] == ops[d].now
    && forall e: nat :: d < e < |ops| && Drains(ops, e, id, timeout) ==> ops[e].DoSweep?
  }

  /** Drain d is the latest, and the host has not been back since. */
  ghost predicate Latest(ops: seq<Op>, d: nat, id: HostID, timeout: int) {
    && d < |ops| && Drains(ops, d, id, timeout)
    && (forall e: nat :: d < e < |ops| ==> !Drains(ops, e, id, timeout) && !Returns(ops, e, id, timeout))
  }

  lemma PrefixRuns(ops: seq<Op>, n: nat, timeout: int)
    requires n < |ops|
    ensures Run(ops[..n + 1], timeout) == Do(Run(ops[..n], timeout), ops[n], timeout)
  {
    assert ops[..n + 1][..n] == ops[..n];
  }

  /** What happened at an earlier operation does not depend on the later ones. */
  lemma SamePast(ops: seq<Op>, n: nat, id: HostID, timeout: int)
    requires n + 1 < |ops|
    ensures Drains(ops, n, id, timeout) == Drains(ops[..|ops| - 1], n, id, timeout)
    ensures Returns(ops, n, id, timeout) == Returns(ops[..|ops| - 1], n, id, timeout)
  {
    assert ops[..|ops| - 1][..n] == ops[..n] && ops[..|ops| - 1][..n + 1] == ops[..n + 1];
  }

  /** What one operation does to a drain time. */
  lemma StampChanges(v: View, op: Op, id: HostID, timeout: int)
    requires id in Do(v, op, timeout).drainingSince
    ensures id !in v.drainingSince || (DrainsHost(v, op, id, timeout) && op.DoDeregister?) ==>
      DrainsHost(v, op, id, timeout) && Do(v, op, timeout).drainingSince[id] == op.now
    ensures id in v.drainingSince && !(DrainsHost(v, op, id, timeout) && op.DoDeregister?) ==>
      Do(v, op, timeout).drainingSince[id] == v.drainingSince[id]
  {
    hide Reapable, Drained, Residents;
  }

  /** The record is always of some drain, and only a sweep can have drained the host since. */
  lemma {:induction false} RecordIsOfADrain(ops: seq<Op>, id: HostID, timeout: int) returns (d: nat)
    requires id in Run(ops, timeout).drainingSince
    ensures Records(ops, d, id, timeout)
  {
    var front, op := ops[..|ops| - 1], ops[|ops| - 1];
    var v := Run(front, timeout);
    StampChanges(v, op, id, timeout);
    hide Do, DrainsHost;
    if id in v.drainingSince && !(DrainsHost(v, op, id, timeout) && op.DoDeregister?) {
      d := RecordIsOfADrain(front, id, timeout);
      SamePast(ops, d, id, timeout);
      forall e: nat | d < e < |ops| && Drains(ops, e, id, timeout)
        ensures ops[e].DoSweep?
      {
        if e + 1 < |ops| {
          SamePast(ops, e, id, timeout);
        } else {
          DrainIsOneOfTwo(v, op, id, timeout);
        }
      }
    } else {
      d := |ops| - 1;
    }
  }

  lemma DrainIsOneOfTwo(v: View, op: Op, id: HostID, timeout: int)
    requires DrainsHost(v, op, id, timeout)
    ensures op.DoDeregister? || op.DoSweep?
  {
  }

  /** Only a drain makes a host draining, and it then is not tracked. */
  lemma DrainingComesFromADrain(v: View, op: Op, id: HostID, timeout: int)
    requires Agrees(v)
    requires id in Do(v, op, timeout).hosts && Do(v, op, timeout).hosts[id].state == Draining
    requires !DrainsHost(v, op, id, timeout)
    ensures id in v.hosts && v.hosts[id].state == Draining && id !in Do(v, op, timeout).lastSeen
  {
    hide Agrees, Sweep;
    OpKeepsAgreement(v, op, timeout);
    DrainingIsUntracked(Do(v, op, timeout), id);
    AgreedHostIsTracked(v, id);
    if op.DoSweep? {
      SweptHostWasDraining(v, id, op.now, op.reapNow, timeout);
    } else {
      hide Do;
      OtherOpsDrainNobody(v, op, id, timeout);
    }
  }

  lemma OtherOpsDrainNobody(v: View, op: Op, id: HostID, timeout: int)
    requires !op.DoSweep? && !DrainsHost(v, op, id, timeout)
    requires id in v.lastSeen ==> id in v.hosts && v.hosts[id].state == Ready
    requires id in Do(v, op, timeout).hosts && Do(v, op, timeout).hosts[id].state == Draining
    ensures id in v.hosts && v.hosts[id].state == Draining
  {
  }

  lemma DrainingIsUntracked(v: View, id: HostID)
    requires Agrees(v) && id in v.hosts && v.hosts[id].state == Draining
    ensures id !in v.lastSeen
  {
    hide Accounted;
  }

  lemma AgreedHostIsTracked(v: View, id: HostID)
    requires Agrees(v)
    ensures id in v.lastSeen <==> id in v.hosts && v.hosts[id].state == Ready
  {
    hide Accounted;
  }

  lemma SweptHostWasDraining(v: View, id: HostID, now: int, reapNow: int, timeout: int)
    requires Agrees(v) && id in Sweep(v, now, reapNow, timeout).0.hosts
    requires Sweep(v, now, reapNow, timeout).0.hosts[id].state == Draining
    requires id in v.lastSeen ==> now - v.lastSeen[id] <= timeout
    ensures id in v.hosts && v.hosts[id].state == Draining
  {
    hide Accounted, Reapable;
  }

  lemma {:induction false} DrainingHasALatestDrain(ops: seq<Op>, id: HostID, timeout: int) returns (d: nat)
    requires id in Run(ops, timeout).hosts && Run(ops, timeout).hosts[id].state == Draining
    ensures Latest(ops, d, id, timeout)
  {
    var front, op := ops[..|ops| - 1], ops[|ops| - 1];
    var v := Run(front, timeout);
    RunsAgree(front, timeout);
    if DrainsHost(v, op, id, timeout) {
      d := |ops| - 1;
    } else {
      DrainingComesFromADrain(v, op, id, timeout);
      d := DrainingHasALatestDrain(front, id, timeout);
      LatestStays(ops, d, id, timeout);
    }
    hide Do, DrainsHost, Agrees;
  }

  lemma {:induction false} LatestStays(ops: seq<Op>, d: nat, id: HostID, timeout: int)
    requires ops != [] && Latest(ops[..|ops| - 1], d, id, timeout)
    requires !DrainsHost(Run(ops[..|ops| - 1], timeout), ops[|ops| - 1], id, timeout)
    requires id !in Run(ops, timeout).lastSeen
    ensures Latest(ops, d, id, timeout)
  {
    hide Run, DrainsHost;
    SamePast(ops, d, id, timeout);
    assert ops[..|ops| - 1 + 1] == ops;
    forall e: nat | d < e < |ops|
      ensures !Drains(ops, e, id, timeout) && !Returns(ops, e, id, timeout)
    {
      if e + 1 < |ops| {
        SamePast(ops, e, id, timeout);
      }
    }
  }

  lemma DrainedIsUntracked(v: View, op: Op, id: HostID, timeout: int)
    requires DrainsHost(v, op, id, timeout)
    ensures id !in Do(v, op, timeout).lastSeen
  {
    hide Reapable, Drained, Stamped;
  }

  lemma OnlyRegisteringTracks(v: View, op: Op, id: HostID, timeout: int)
    requires id !in v.lastSeen && id in Do(v, op, timeout).lastSeen
    ensures op.DoRegister? && op.id == id
  {
    hide Reapable, Drained, Stamped;
  }

  /** A host untracked before and tracked after has returned in between. */
  lemma {:induction false} TrackedAgain(ops: seq<Op>, a: nat, b: nat, id: HostID, timeout: int) returns (f: nat)
    requires a <= b <= |ops| && id !in Run(ops[..a], timeout).lastSeen && id in Run(ops[..b], timeout).lastSeen
    ensures a <= f < b && Returns(ops, f, id, timeout)
    decreases b
  {
    if id in Run(ops[..b - 1], timeout).lastSeen {
      f := TrackedAgain(ops, a, b - 1, id, timeout);
    } else {
      PrefixRuns(ops, b - 1, timeout);
      OnlyRegisteringTracks(Run(ops[..b - 1], timeout), ops[b - 1], id, timeout);
      f := b - 1;
    }
  }

  /** The drain time on record for a draining host is the true start of its drain, unless it came
      back after an earlier drain and was then drained again by a sweep. */
  lemma RecordIsTrueStartUnless(ops: seq<Op>, id: HostID, timeout: int) returns (d: nat, last: nat)
    requires id in Run(ops, timeout).hosts && Run(ops, timeout).hosts[id].state == Draining
    ensures Latest(ops, last, id, timeout) && Records(ops, d, id, timeout)
    ensures d == last
      || (d < last && ops[last].DoSweep? && exists f: nat :: d < f < last && Returns(ops, f, id, timeout))
  {
    RunsAgree(ops, timeout);
    DrainingIsRecorded(Run(ops, timeout), id);
    d := RecordIsOfADrain(ops, id, timeout);
    last := DrainingHasALatestDrain(ops, id, timeout);
    hide Run, DrainsHost;
    if d < last {
      PrefixRuns(ops, d, timeout);
      DrainedIsUntracked(Run(ops[..d], timeout), ops[d], id, timeout);
      DrainedWasTracked(Run(ops[..last], timeout), ops[last], id, timeout);
      var f := TrackedAgain(ops, d + 1, last, id, timeout);
    }
  }

  lemma DrainingIsRecorded(v: View, id: HostID)
    requires Agrees(v) && id in v.hosts && v.hosts[id].state == Draining
    ensures id in v.drainingSince
  {
    hide Accounted;
  }

  lemma DrainedWasTracked(v: View, op: Op, id: HostID, timeout: int)
    requires DrainsHost(v, op, id, timeout)
    ensures id in v.lastSeen
  {
  }
}
