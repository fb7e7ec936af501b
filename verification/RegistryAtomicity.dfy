/** Left undisturbed, a sweep taken apart at its locks does what the sweep as a whole does, in whatever
    order it goes through its hosts (internal/registry/registry.go). */
module RegistryAtomicity {
  import opened Common
  import opened SchedulerSpec
  import opened RegistrySpec
  import opened RegistrySteps

  /** One sweep by itself, with these two readings of the clock. */
  predicate Undisturbed(acts: seq<Action>, now: int, reapNow: int) {
    && acts != [] && acts[0] == BeginSweep(now)
    && forall i :: 1 <= i < |acts| ==>
         !acts[i].Call? && !acts[i].BeginSweep? && (acts[i].TakeSnapshot? ==> acts[i].now == reapNow)
  }

  /** The reapable hosts the sweep has been through. */
  function Gone(v: View, left: Hosts, reapNow: int): set<HostID> {
    set id | id in v.hosts && id !in left && Reapable(v, id, reapNow)
  }

  function Halfway(v: View, drained: set<HostID>, stamped: set<HostID>, now: int): View {
    v.(hosts := Drained(v.hosts, drained), drainingSince := Stamped(v.drainingSince, stamped, now))
  }

  /** What the world looks like part of the way through a sweep of v. */
  ghost predicate Underway(v: View, w: World, now: int, reapNow: int, timeout: int) {
    var silent, forgotten := Expired(v.lastSeen, now, timeout), ForgetSilent(v, now, timeout);
    var drained := DrainSilent(v, now, timeout);
    match w.sweeper
    case Resting => w.view == Reap(drained, reapNow)
    case Drains(todo, t) =>
      t == now && todo <= silent && w.view == Halfway(forgotten, silent - todo, silent - todo, now)
    case Stamps(id, todo, t) =>
      t == now && todo <= silent && id in silent && id !in todo
      && w.view == Halfway(forgotten, silent - todo, silent - todo - {id}, now)
    case Checks(left, t) =>
      t == reapNow && Within(left, drained.hosts) && w.view == RemoveAll(drained, Gone(drained, left, reapNow))
    case Removes(id, left, t) =>
      t == reapNow && Within(left, drained.hosts) && Reapable(drained, id, reapNow) && id !in left
      && w.view == RemoveAll(drained, Gone(drained, left, reapNow) - {id})
    case Forgets(id, left, t) =>
      t == reapNow && Within(left, drained.hosts) && Reapable(drained, id, reapNow) && id !in left
      && w.view == Removed(RemoveAll(drained, Gone(drained, left, reapNow) - {id}), id)
  }

  predicate Within(left: Hosts, hosts: Hosts) {
    forall id :: id in left ==> id in hosts && left[id] == hosts[id]
  }

  lemma BeginningIsUnderway(v: View, now: int, reapNow: int, timeout: int)
    ensures Underway(v, Apply(World(v, Resting), BeginSweep(now), timeout), now, reapNow, timeout)
  {
    var silent := Expired(v.lastSeen, now, timeout);
    assert silent - silent == {};
    DrainNone(ForgetSilent(v, now, timeout), now);
  }

  lemma DrainingIsUnderway(v: View, w: World, id: HostID, now: int, reapNow: int, timeout: int)
    requires Underway(v, w, now, reapNow, timeout) && Enabled(w, DrainOne(id))
    ensures Underway(v, Apply(w, DrainOne(id), timeout), now, reapNow, timeout)
  {
    var silent, todo := Expired(v.lastSeen, now, timeout), w.sweeper.todo;
    hide Expired, Stamped;
    assert silent - (todo - {id}) == (silent - todo) + {id};
    assert silent - (todo - {id}) - {id} == silent - todo;
    assert Drained(Drained(v.hosts, silent - todo), {id}) == Drained(v.hosts, silent - todo + {id});
  }

  lemma StampingIsUnderway(v: View, w: World, now: int, reapNow: int, timeout: int)
    requires Underway(v, w, now, reapNow, timeout) && Enabled(w, StampOne)
    ensures Underway(v, Apply(w, StampOne, timeout), now, reapNow, timeout)
  {
    var silent, id, todo := Expired(v.lastSeen, now, timeout), w.sweeper.id, w.sweeper.todo;
    hide Expired, Drained;
    var before := silent - todo - {id};
    assert silent - todo == before + {id};
    assert Stamped(Stamped(v.drainingSince, before, now), {id}, now) == Stamped(v.drainingSince, before + {id}, now);
  }

  lemma SnapshotIsUnderway(v: View, w: World, now: int, reapNow: int, timeout: int)
    requires Underway(v, w, now, reapNow, timeout) && Enabled(w, TakeSnapshot(reapNow))
    ensures Underway(v, Apply(w, TakeSnapshot(reapNow), timeout), now, reapNow, timeout)
  {
    var silent, drained := Expired(v.lastSeen, now, timeout), DrainSilent(v, now, timeout);
    assert silent - {} == silent;
    assert w.view == drained;
    hide DrainSilent, Expired;
    assert Gone(drained, drained.hosts, reapNow) == {};
    RemoveNone(drained);
  }

  /** A host not yet gone through is judged as it was when the reaper began. */
  lemma PassesIfReapable(v: View, gone: set<HostID>, id: HostID, reapNow: int)
    requires id in v.hosts && id !in gone
    ensures Passes(RemoveAll(v, gone), id, v.hosts[id], reapNow) <==> Reapable(v, id, reapNow)
  {
    StillThere(v, gone, id);
    hide RemoveAll;
  }

  lemma CheckingIsUnderway(v: View, w: World, id: HostID, now: int, reapNow: int, timeout: int)
    requires Underway(v, w, now, reapNow, timeout) && Enabled(w, Check(id))
    ensures Underway(v, Apply(w, Check(id), timeout), now, reapNow, timeout)
  {
    hide DrainSilent, RemoveAll, Reapable, Passes;
    var drained, left := DrainSilent(v, now, timeout), w.sweeper.left;
    PassesIfReapable(drained, Gone(drained, left, reapNow), id, reapNow);
    if Reapable(drained, id, reapNow) {
      assert Gone(drained, left - {id}, reapNow) - {id} == Gone(drained, left, reapNow);
    } else {
      assert Gone(drained, left - {id}, reapNow) == Gone(drained, left, reapNow);
    }
  }

  lemma RemovingIsUnderway(v: View, w: World, now: int, reapNow: int, timeout: int)
    requires Underway(v, w, now, reapNow, timeout) && Enabled(w, RemoveOne)
    ensures Underway(v, Apply(w, RemoveOne, timeout), now, reapNow, timeout)
  {
    var drained, left, id := DrainSilent(v, now, timeout), w.sweeper.left, w.sweeper.id;
    assert id in drained.hosts;
    StillThere(drained, Gone(drained, left, reapNow) - {id}, id);
    hide DrainSilent, RemoveAll, Reapable, Removed, Gone;
  }

  lemma ForgettingIsUnderway(v: View, w: World, now: int, reapNow: int, timeout: int)
    requires Underway(v, w, now, reapNow, timeout) && Enabled(w, ForgetOne)
    ensures Underway(v, Apply(w, ForgetOne, timeout), now, reapNow, timeout)
  {
    var drained, left, id := DrainSilent(v, now, timeout), w.sweeper.left, w.sweeper.id;
    var before := Gone(drained, left, reapNow) - {id};
    hide DrainSilent, Residents;
    assert before + {id} == Gone(drained, left, reapNow);
    RemoveOneMore(drained, before, id);
    OneHostsGuests(RemoveAll(drained, before).assignment, id);
    hide RemoveAll, Reapable, Gone;
  }

  lemma OneHostsGuests(assignment: map<VMID, HostID>, id: HostID)
    ensures Residents(assignment, {id}) == VMsOn(assignment, id)
  {
  }

  lemma EndingIsUnderway(v: View, w: World, now: int, reapNow: int, timeout: int)
    requires Underway(v, w, now, reapNow, timeout) && Enabled(w, EndSweep)
    ensures Underway(v, Apply(w, EndSweep, timeout), now, reapNow, timeout)
  {
    hide DrainSilent, RemoveAll, Reapable;
    var drained := DrainSilent(v, now, timeout);
    assert Gone(drained, map[], reapNow) == set id | id in drained.hosts && Reapable(drained, id, reapNow);
  }

  lemma StepIsUnderway(v: View, w: World, a: Action, now: int, reapNow: int, timeout: int)
    requires Underway(v, w, now, reapNow, timeout) && Enabled(w, a)
    requires !a.Call? && !a.BeginSweep? && (a.TakeSnapshot? ==> a.now == reapNow)
    ensures Underway(v, Apply(w, a, timeout), now, reapNow, timeout)
  {
    hide Underway, Enabled, Apply;
    match a {
      case DrainOne(id) => DrainingIsUnderway(v, w, id, now, reapNow, timeout);
      case StampOne => StampingIsUnderway(v, w, now, reapNow, timeout);
      case TakeSnapshot(_) => SnapshotIsUnderway(v, w, now, reapNow, timeout);
      case Check(id) => CheckingIsUnderway(v, w, id, now, reapNow, timeout);
      case RemoveOne => RemovingIsUnderway(v, w, now, reapNow, timeout);
      case ForgetOne => ForgettingIsUnderway(v, w, now, reapNow, timeout);
      case EndSweep => EndingIsUnderway(v, w, now, reapNow, timeout);
    }
  }

  lemma {:induction false} StaysUnderway(v: View, acts: seq<Action>, now: int, reapNow: int, timeout: int)
    requires Undisturbed(acts, now, reapNow) && Exec(World(v, Resting), acts, timeout).Some?
    ensures Underway(v, Exec(World(v, Resting), acts, timeout).value, now, reapNow, timeout)
  {
    var w, front, a := World(v, Resting), acts[..|acts| - 1], acts[|acts| - 1];
    hide Underway, Enabled, Apply;
    if front == [] {
      assert Exec(w, front, timeout) == Some(w);
      BeginningIsUnderway(v, now, reapNow, timeout);
    } else {
      StaysUnderway(v, front, now, reapNow, timeout);
      StepIsUnderway(v, Exec(w, front, timeout).value, a, now, reapNow, timeout);
    }
  }

  /** However it goes through its hosts, a completed sweep that nothing comes between does to the
      registry and the scheduler exactly what Sweep does. */
  lemma UndisturbedSweepIsAtomic(v: View, acts: seq<Action>, now: int, reapNow: int, timeout: int)
    requires Undisturbed(acts, now, reapNow)
    requires Exec(World(v, Resting), acts, timeout).Some?
    requires Exec(World(v, Resting), acts, timeout).value.sweeper == Resting
    ensures Exec(World(v, Resting), acts, timeout).value.view == Sweep(v, now, reapNow, timeout).0
  {
    StaysUnderway(v, acts, now, reapNow, timeout);
    hide Exec, DrainSilent, Reap;
  }
}
