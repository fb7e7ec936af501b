/** What becomes of a host when a sweep acts without its check, and when a draining host keeps its
    grace although the reaper works from a snapshot (internal/registry/registry.go). */
module RegistryRaces {
  import opened Common
  import opened SchedulerSpec
  import opened RegistrySpec
  import opened RegistryGrace
  import opened RegistrySteps

  // ------------------------------------------------------------ hosts that get stuck

  /** The host is not deregistered and no sweep finds it silent. */
  predicate StaysInTouch(w: World, a: Action, id: HostID, timeout: int) {
    match a
    case Call(op) => !(op.DoDeregister? && op.id == id)
    case BeginSweep(now) => id in w.view.lastSeen ==> now - w.view.lastSeen[id] <= timeout
    case _ => true
  }

  predicate InTouchThroughout(w: World, acts: seq<Action>, id: HostID, timeout: int)
    requires Exec(w, acts, timeout).Some?
  {
    acts != [] ==>
      var front := acts[..|acts| - 1];
      && InTouchThroughout(w, front, id, timeout)
      && StaysInTouch(Exec(w, front, timeout).value, acts[|acts| - 1], id, timeout)
  }

  predicate TrackedButDraining(w: World, id: HostID) {
    && id in w.view.lastSeen && id in w.view.hosts && w.view.hosts[id].state == Draining
    && !(w.sweeper.Removes? && w.sweeper.id == id)
  }

  predicate TrackedButGone(w: World, id: HostID) {
    id in w.view.lastSeen && id !in w.view.hosts
  }

  /** Draining untracked, with no drain time on record. */
  predicate Unstamped(v: View, id: HostID) {
    id in v.hosts && v.hosts[id].state == Draining && id !in v.lastSeen && id !in v.drainingSince
  }

  /** What each step does when its check fails. */
  lemma UnguardedStepBreaks(w: World, a: Action, timeout: int)
    requires Settling(w.view, w.sweeper) && Enabled(w, a) && !Guarded(w, a)
    ensures var w' := Apply(w, a, timeout);
      match a
      case DrainOne(id) => TrackedButDraining(w', id)
      case RemoveOne => TrackedButGone(w', w.sweeper.id)
      case ForgetOne => Unstamped(w'.view, w.sweeper.id)
      case _ => false
  {
    hide Accounted;
    if a.ForgetOne? {
      assert Accounts(w.view, w.sweeper, w.sweeper.id);
    }
  }

  lemma StuckOneStep(w: World, a: Action, id: HostID, timeout: int)
    requires TrackedButDraining(w, id) && Enabled(w, a) && StaysInTouch(w, a, id, timeout)
    ensures var w' := Apply(w, a, timeout);
      TrackedButDraining(w', id) && VMsOn(w'.view.assignment, id) <= VMsOn(w.view.assignment, id)
  {
  }

  /** A host drained while tracked stays so for as long as it keeps in touch: no registration or
      heartbeat revives it, no sweep removes it, and it never gains a guest. */
  lemma {:induction false} RacedHostStaysStuck(w: World, acts: seq<Action>, id: HostID, timeout: int)
    requires TrackedButDraining(w, id)
    requires Exec(w, acts, timeout).Some? && InTouchThroughout(w, acts, id, timeout)
    ensures var w' := Exec(w, acts, timeout).value;
      TrackedButDraining(w', id) && VMsOn(w'.view.assignment, id) <= VMsOn(w.view.assignment, id)
  {
    if acts == [] {
    } else {
      hide TrackedButDraining, Enabled, Apply, VMsOn, StaysInTouch;
      var front := acts[..|acts| - 1];
      RacedHostStaysStuck(w, front, id, timeout);
      StuckOneStep(Exec(w, front, timeout).value, acts[|acts| - 1], id, timeout);
    }
  }

  lemma GoneOneStep(w: World, a: Action, id: HostID, timeout: int)
    requires TrackedButGone(w, id) && Enabled(w, a) && StaysInTouch(w, a, id, timeout)
    ensures TrackedButGone(Apply(w, a, timeout), id)
  {
  }

  /** A host removed while tracked stays lost for as long as it keeps in touch: registering again
      only refreshes it. */
  lemma {:induction false} GoneHostStaysGone(w: World, acts: seq<Action>, id: HostID, timeout: int)
    requires TrackedButGone(w, id)
    requires Exec(w, acts, timeout).Some? && InTouchThroughout(w, acts, id, timeout)
    ensures TrackedButGone(Exec(w, acts, timeout).value, id)
  {
    if acts == [] {
    } else {
      hide TrackedButGone, Enabled, Apply, StaysInTouch;
      var front := acts[..|acts| - 1];
      GoneHostStaysGone(w, front, id, timeout);
      GoneOneStep(Exec(w, front, timeout).value, acts[|acts| - 1], id, timeout);
    }
  }

  /** A host without its drain time goes in the next sweep, whatever the time and with its guests. */
  lemma UnstampedHostGoesAtOnce(v: View, id: HostID, now: int, reapNow: int, timeout: int)
    requires Unstamped(v, id)
    ensures var v' := Sweep(v, now, reapNow, timeout).0;
      id !in v'.hosts && VMsOn(v'.assignment, id) == {}
  {
    var drained := DrainSilent(v, now, timeout);
    assert Unstamped(drained, id);
    hide DrainSilent;
    assert Reapable(drained, id, reapNow);
  }

  // ---------------------------------------------------- grace, with a sweep under way

  /** The sweep under way is not about to remove the host or to delete its drain time, and does not
      remember it as a draining host without guests. */
  predicate Sparing(s: Sweeper, id: HostID) {
    && !(s.Removes? && s.id == id) && !(s.Forgets? && s.id == id)
    && (id in Left(s) && Left(s)[id].state == Draining ==> Left(s)[id].used != 0)
  }

  predicate Reaping(s: Sweeper) { s.Checks? || s.Removes? || s.Forgets? }

  predicate ReadsBefore(s: Sweeper, deadline: int) {
    Reaping(s) ==> s.now < deadline
  }

  /** Nobody contacts the host, it has a guest, and a reaper begins before the deadline. */
  predicate LetsBe(w: World, a: Action, id: HostID, deadline: int) {
    && (a.Call? ==> !Contacts(a.op, id))
    && (a.TakeSnapshot? ==> a.now < deadline)
    && (id in w.view.hosts ==> w.view.hosts[id].used != 0)
  }

  predicate LetBeThroughout(w: World, acts: seq<Action>, id: HostID, deadline: int, timeout: int)
    requires Exec(w, acts, timeout).Some?
  {
    acts != [] ==>
      var front := acts[..|acts| - 1];
      && LetBeThroughout(w, front, id, deadline, timeout)
      && LetsBe(Exec(w, front, timeout).value, acts[|acts| - 1], id, deadline)
  }

  ghost predicate Spared(w: World, id: HostID, deadline: int, timeout: int, acts: seq<Action>) {
    Exec(w, acts, timeout).Some? && LetBeThroughout(w, acts, id, deadline, timeout) ==>
      id in Exec(w, acts, timeout).value.view.hosts
  }

  /** No continuation that lets the host be removes it. */
  ghost predicate KeepsGrace(w: World, id: HostID, deadline: int, timeout: int) {
    forall acts :: Spared(w, id, deadline, timeout, acts)
  }

  predicate Sheltered(w: World, id: HostID, t: int) {
    OnRecord(w.view, id, t) && Sparing(w.sweeper, id) && ReadsBefore(w.sweeper, t + FORCE_REMOVE_AFTER)
  }

  lemma ShelteredOneStep(w: World, a: Action, id: HostID, t: int, timeout: int)
    requires Sheltered(w, id, t) && Enabled(w, a) && LetsBe(w, a, id, t + FORCE_REMOVE_AFTER)
    ensures Sheltered(Apply(w, a, timeout), id, t)
  {
  }

  lemma {:induction false} StaysSheltered(w: World, acts: seq<Action>, id: HostID, t: int, timeout: int)
    requires Sheltered(w, id, t) && Exec(w, acts, timeout).Some?
    requires LetBeThroughout(w, acts, id, t + FORCE_REMOVE_AFTER, timeout)
    ensures Sheltered(Exec(w, acts, timeout).value, id, t)
  {
    if acts == [] {
    } else {
      hide Sheltered, Enabled, Apply, LetsBe;
      var front := acts[..|acts| - 1];
      StaysSheltered(w, front, id, t, timeout);
      ShelteredOneStep(Exec(w, front, timeout).value, acts[|acts| - 1], id, t, timeout);
    }
  }

  /** A run so far, that has let the host be. */
  ghost predicate Reaches(w: World, acts: seq<Action>, mid: World, id: HostID, deadline: int, timeout: int) {
    Exec(w, acts, timeout) == Some(mid) && LetBeThroughout(w, acts, id, deadline, timeout)
  }

  lemma Onward(w: World, acts: seq<Action>, mid: World, a: Action, id: HostID, deadline: int, timeout: int)
    returns (longer: seq<Action>, end: World)
    requires Reaches(w, acts, mid, id, deadline, timeout) && Enabled(mid, a) && LetsBe(mid, a, id, deadline)
    ensures end == Apply(mid, a, timeout) && Reaches(w, longer, end, id, deadline, timeout)
  {
    longer, end := acts + [a], Apply(mid, a, timeout);
    assert longer[..|longer| - 1] == acts;
  }

  /** The reaper would remove the host as it stands. */
  predicate Condemned(w: World, id: HostID) {
    && id in w.view.hosts && w.view.hosts[id].state == Draining && id !in w.view.lastSeen
    && w.view.hosts[id].used != 0
  }

  lemma RemovalIsNotSpared(w: World, acts: seq<Action>, mid: World, id: HostID, deadline: int, timeout: int)
    requires Reaches(w, acts, mid, id, deadline, timeout) && Condemned(mid, id)
    requires mid.sweeper.Removes? && mid.sweeper.id == id
    ensures !KeepsGrace(w, id, deadline, timeout)
  {
    var longer, end := Onward(w, acts, mid, RemoveOne, id, deadline, timeout);
    assert id !in end.view.hosts;
    hide Exec, LetBeThroughout, Apply;
    assert !Spared(w, id, deadline, timeout, longer);
  }

  /** A check that the host passes by mistake. */
  lemma CheckIsNotSpared(w: World, acts: seq<Action>, mid: World, id: HostID, deadline: int, timeout: int)
    requires Reaches(w, acts, mid, id, deadline, timeout) && Condemned(mid, id)
    requires mid.sweeper.Checks? && id in mid.sweeper.left
    requires Passes(mid.view, id, mid.sweeper.left[id], mid.sweeper.now)
    ensures !KeepsGrace(w, id, deadline, timeout)
  {
    var longer, end := Onward(w, acts, mid, Check(id), id, deadline, timeout);
    hide Passes, Reaches, KeepsGrace;
    RemovalIsNotSpared(w, longer, end, id, deadline, timeout);
  }

  /** The reaper gets done with the host it is at. */
  lemma ReachesChecks(w: World, acts: seq<Action>, mid: World, id: HostID, deadline: int, timeout: int)
    returns (longer: seq<Action>, end: World)
    requires Reaches(w, acts, mid, id, deadline, timeout) && Condemned(mid, id)
    requires Reaping(mid.sweeper) && (mid.sweeper.Checks? || mid.sweeper.id != id)
    ensures Reaches(w, longer, end, id, deadline, timeout) && Condemned(end, id)
    ensures end.sweeper == Checks(Left(mid.sweeper), mid.sweeper.now)
    ensures end.view.drainingSince.Keys <= mid.view.drainingSince.Keys
  {
    hide Reaches, Residents;
    longer, end := acts, mid;
    if end.sweeper.Removes? {
      longer, end := Onward(w, longer, end, RemoveOne, id, deadline, timeout);
    }
    if end.sweeper.Forgets? {
      longer, end := Onward(w, longer, end, ForgetOne, id, deadline, timeout);
    }
  }

  lemma FinishesChecks(w: World, acts: seq<Action>, mid: World, id: HostID, deadline: int, timeout: int)
    returns (longer: seq<Action>, end: World)
    requires Reaches(w, acts, mid, id, deadline, timeout) && Condemned(mid, id) && id !in mid.view.drainingSince
    requires mid.sweeper.Checks? && id !in mid.sweeper.left
    ensures Reaches(w, longer, end, id, deadline, timeout) && Condemned(end, id) && id !in end.view.drainingSince
    ensures end.sweeper == Checks(map[], mid.sweeper.now)
    decreases |mid.sweeper.left|
  {
    hide Reaches, Passes;
    if mid.sweeper.left == map[] {
      longer, end := acts, mid;
    } else {
      var other :| other in mid.sweeper.left;
      KeysShrink(mid.sweeper.left, other);
      longer, end := Onward(w, acts, mid, Check(other), id, deadline, timeout);
      longer, end := ReachesChecks(w, longer, end, id, deadline, timeout);
      longer, end := FinishesChecks(w, longer, end, id, deadline, timeout);
    }
  }

  lemma FinishesDrains(w: World, acts: seq<Action>, mid: World, id: HostID, deadline: int, timeout: int)
    returns (longer: seq<Action>, end: World)
    requires Reaches(w, acts, mid, id, deadline, timeout) && Condemned(mid, id) && id !in mid.view.drainingSince
    requires mid.sweeper.Drains? && id !in mid.sweeper.todo
    ensures Reaches(w, longer, end, id, deadline, timeout) && Condemned(end, id) && id !in end.view.drainingSince
    ensures end.sweeper == Drains({}, mid.sweeper.now)
    decreases |mid.sweeper.todo|
  {
    hide Reaches;
    if mid.sweeper.todo == {} {
      longer, end := acts, mid;
    } else {
      var other :| other in mid.sweeper.todo;
      longer, end := Onward(w, acts, mid, DrainOne(other), id, deadline, timeout);
      longer, end := Onward(w, longer, end, StampOne, id, deadline, timeout);
      longer, end := FinishesDrains(w, longer, end, id, deadline, timeout);
    }
  }

  /** Once its drain time is deleted, the next sweep takes the host. */
  lemma ForgottenIsNotSpared(w: World, acts: seq<Action>, mid: World, id: HostID, deadline: int, timeout: int)
    requires Reaches(w, acts, mid, id, deadline, timeout) && Condemned(mid, id)
    requires mid.sweeper.Forgets? && mid.sweeper.id == id && id !in mid.sweeper.left && mid.sweeper.now < deadline
    ensures !KeepsGrace(w, id, deadline, timeout)
  {
    hide Reaches, KeepsGrace;
    var now := mid.sweeper.now;
    var longer, end := Onward(w, acts, mid, ForgetOne, id, deadline, timeout);
    longer, end := FinishesChecks(w, longer, end, id, deadline, timeout);
    longer, end := Onward(w, longer, end, EndSweep, id, deadline, timeout);
    longer, end := Onward(w, longer, end, BeginSweep(now), id, deadline, timeout);
    longer, end := FinishesDrains(w, longer, end, id, deadline, timeout);
    longer, end := Onward(w, longer, end, TakeSnapshot(now), id, deadline, timeout);
    CheckIsNotSpared(w, longer, end, id, deadline, timeout);
  }

  /** A host with a guest, draining on record since t, keeps it through every continuation that lets it
      be until ForceRemoveAfter past t exactly when the sweep under way, if any, is not about to remove
      it or to delete its drain time, and did not see it draining without guests. */
  lemma GraceHoldsExactlyWhen(w: World, id: HostID, t: int, timeout: int)
    requires OnRecord(w.view, id, t) && w.view.hosts[id].used != 0
    requires Grounded(w.view.hosts, w.sweeper) && ReadsBefore(w.sweeper, t + FORCE_REMOVE_AFTER)
    ensures KeepsGrace(w, id, t + FORCE_REMOVE_AFTER, timeout) <==> Sparing(w.sweeper, id)
  {
    var deadline := t + FORCE_REMOVE_AFTER;
    if Sparing(w.sweeper, id) {
      forall acts
        ensures Spared(w, id, deadline, timeout, acts)
      {
        if Exec(w, acts, timeout).Some? && LetBeThroughout(w, acts, id, deadline, timeout) {
          StaysSheltered(w, acts, id, t, timeout);
        }
      }
    } else {
      assert Reaches(w, [], w, id, deadline, timeout);
      hide KeepsGrace, Reaches, Exec;
      if w.sweeper.Removes? && w.sweeper.id == id {
        RemovalIsNotSpared(w, [], w, id, deadline, timeout);
      } else if w.sweeper.Forgets? && w.sweeper.id == id {
        ForgottenIsNotSpared(w, [], w, id, deadline, timeout);
      } else {
        var acts, mid := ReachesChecks(w, [], w, id, deadline, timeout);
        CheckIsNotSpared(w, acts, mid, id, deadline, timeout);
      }
    }
  }

  // -------------------------------------------------------------- each of them happens

  const TIMEOUT := 6 * SECOND

  /** A world with one host, which has capacity for two guests. */
  function Alone(h: HostID, used: nat, state: HostState, guests: map<VMID, HostID>, seen: map<HostID, int>,
                 since: map<HostID, int>, s: Sweeper): World
  {
    World(View(map[h := HostRec(2, used, state)], guests, seen, map[], since, 0), s)
  }

  lemma Next(acts: seq<Action>, mid: World, a: Action, end: World) returns (longer: seq<Action>)
    requires Exec(START, acts, TIMEOUT) == Some(mid) && Enabled(mid, a) && Apply(mid, a, TIMEOUT) == end
    ensures longer == acts + [a] && Exec(START, longer, TIMEOUT) == Some(end)
  {
    longer := acts + [a];
    assert longer[..|longer| - 1] == acts;
  }

  lemma RegistersFirst(h: HostID)
    requires h != HostID("")
    ensures Exec(START, [Call(DoRegister(h, 2, "", 0))], TIMEOUT) ==
      Some(Alone(h, 0, Ready, map[], map[h := 0], map[], Resting))
  {
    var acts := Next([], START, Call(DoRegister(h, 2, "", 0)), Alone(h, 0, Ready, map[], map[h := 0], map[], Resting));
  }

  lemma OneKey<V>(h: HostID, a: V, b: V)
    ensures map[h := a] - {h} == map[] && map[h := a][h := b] == map[h := b] == map[][h := b] && {h} - {h} == {}
  {
  }

  lemma AloneRegisters(w: World, h: HostID, now: int) returns (end: World)
    requires h != HostID("") && w.view.hosts.Keys <= {h} && w.view.lastSeen == map[] && w.view.address == map[]
    ensures end == Apply(w, Call(DoRegister(h, 2, "", now)), TIMEOUT)
    ensures var rec := if h in w.view.hosts then w.view.hosts[h] else HostRec(2, 0, Pending);
      end == w.(view := w.view.(hosts := map[h := rec.(state := Ready)], lastSeen := map[h := now]))
  {
    end := Apply(w, Call(DoRegister(h, 2, "", now)), TIMEOUT);
    var rec := if h in w.view.hosts then w.view.hosts[h] else HostRec(2, 0, Pending);
    assert end.view.hosts == map[h := rec.(state := Ready)];
  }

  lemma AloneDeregisters(w: World, h: HostID, now: int) returns (end: World)
    requires w.view.hosts.Keys == w.view.lastSeen.Keys == {h} && w.view.address == map[]
    requires w.view.drainingSince.Keys <= {h}
    ensures end == Apply(w, Call(DoDeregister(h, now)), TIMEOUT)
    ensures end == w.(view := w.view.(hosts := map[h := w.view.hosts[h].(state := Draining)], lastSeen := map[],
                                      drainingSince := map[h := now]))
  {
    end := Apply(w, Call(DoDeregister(h, now)), TIMEOUT);
    assert end.view.hosts == map[h := w.view.hosts[h].(state := Draining)];
    assert end.view.lastSeen == map[] && end.view.drainingSince == map[h := now];
  }

  /** A silent host registers between being forgotten and being drained. */
  lemma DrainRace(h: HostID)
    requires h != HostID("")
    ensures var acts := [Call(DoRegister(h, 2, "", 0)), BeginSweep(10 * SECOND),
                         Call(DoRegister(h, 2, "", 10 * SECOND)), DrainOne(h)];
      var end := Exec(START, acts, TIMEOUT);
      end.Some? && TrackedButDraining(end.value, h)
  {
    RegistersFirst(h);
    var ten := 10 * SECOND;
    var w1 := Alone(h, 0, Ready, map[], map[h := 0], map[], Resting);
    var w2 := Alone(h, 0, Ready, map[], map[], map[], Drains({h}, ten));
    var w4 := Alone(h, 0, Draining, map[], map[h := ten], map[], Stamps(h, {}, ten));
    assert Expired(w1.view.lastSeen, ten, TIMEOUT) == {h};
    assert w1.view.lastSeen - {h} == map[] && w1.view.address - {h} == map[];
    var acts := Next([Call(DoRegister(h, 2, "", 0))], w1, BeginSweep(ten), w2);
    var w3 := AloneRegisters(w2, h, ten);
    acts := Next(acts, w2, Call(DoRegister(h, 2, "", ten)), w3);
    OneKey(h, 0, 0);
    assert Drained(w3.view.hosts, {h}) == w4.view.hosts;
    acts := Next(acts, w3, DrainOne(h), w4);
    hide Exec;
    assert acts == [Call(DoRegister(h, 2, "", 0)), BeginSweep(ten), Call(DoRegister(h, 2, "", ten)), DrainOne(h)];
  }

  /** A draining host without guests is found by the reaper. */
  lemma ReaperFinds(h: HostID)
    requires h != HostID("")
    ensures Exec(START, [Call(DoRegister(h, 2, "", 0)), Call(DoDeregister(h, SECOND)), BeginSweep(2 * SECOND),
                         TakeSnapshot(2 * SECOND)], TIMEOUT) ==
      Some(Alone(h, 0, Draining, map[], map[], map[h := SECOND],
                 Checks(map[h := HostRec(2, 0, Draining)], 2 * SECOND)))
  {
    RegistersFirst(h);
    var w1 := Alone(h, 0, Ready, map[], map[h := 0], map[], Resting);
    var w2 := AloneDeregisters(w1, h, SECOND);
    var acts := Next([Call(DoRegister(h, 2, "", 0))], w1, Call(DoDeregister(h, SECOND)), w2);
    assert Expired(w2.view.lastSeen, 2 * SECOND, TIMEOUT) == {};
    assert w2.view.lastSeen - {} == map[] && w2.view.address - {} == map[];
    var w3 := w2.(sweeper := Drains({}, 2 * SECOND));
    acts := Next(acts, w2, BeginSweep(2 * SECOND), w3);
    acts := Next(acts, w3, TakeSnapshot(2 * SECOND), w3.(sweeper := Checks(w3.view.hosts, 2 * SECOND)));
    hide Exec;
    assert acts == [Call(DoRegister(h, 2, "", 0)), Call(DoDeregister(h, SECOND)), BeginSweep(2 * SECOND),
                    TakeSnapshot(2 * SECOND)];
  }

  /** It registers between the check and the removal. */
  lemma ReapRace(h: HostID)
    requires h != HostID("")
    ensures var acts := [Call(DoRegister(h, 2, "", 0)), Call(DoDeregister(h, SECOND)), BeginSweep(2 * SECOND),
                         TakeSnapshot(2 * SECOND), Check(h), Call(DoRegister(h, 2, "", 3 * SECOND)), RemoveOne];
      var end := Exec(START, acts, TIMEOUT);
      end.Some? && TrackedButGone(end.value, h)
  {
    ReaperFinds(h);
    var acts := [Call(DoRegister(h, 2, "", 0)), Call(DoDeregister(h, SECOND)), BeginSweep(2 * SECOND),
                 TakeSnapshot(2 * SECOND)];
    var rec := HostRec(2, 0, Draining);
    var w1 := Alone(h, 0, Draining, map[], map[], map[h := SECOND], Checks(map[h := rec], 2 * SECOND));
    OneKey(h, rec, rec);
    var w2 := w1.(sweeper := Removes(h, map[], 2 * SECOND));
    acts := Next(acts, w1, Check(h), w2);
    var w3 := AloneRegisters(w2, h, 3 * SECOND);
    acts := Next(acts, w2, Call(DoRegister(h, 2, "", 3 * SECOND)), w3);
    acts := Next(acts, w3, RemoveOne, DoRemove(w3));
    hide Exec;
    assert acts == [Call(DoRegister(h, 2, "", 0)), Call(DoDeregister(h, SECOND)), BeginSweep(2 * SECOND),
                    TakeSnapshot(2 * SECOND), Check(h), Call(DoRegister(h, 2, "", 3 * SECOND)), RemoveOne];
  }

  function Visit(h: HostID, vm: VMID): seq<Action> {
    [Call(DoRegister(h, 2, "", 3 * SECOND)), Call(DoPlace(vm, h)), Call(DoDeregister(h, 4 * SECOND))]
  }

  /** An empty or removed host comes back, gets a guest and drains, between two steps of a sweep. */
  lemma Visits(acts: seq<Action>, w: World, h: HostID, vm: VMID) returns (end: World)
    requires Exec(START, acts, TIMEOUT) == Some(w) && h != HostID("")
    requires w.view.hosts == map[] || w.view.hosts == map[h := HostRec(2, 0, Draining)]
    requires w.view.assignment == map[] && w.view.lastSeen == map[] && w.view.address == map[]
    requires w.view.drainingSince.Keys <= {h} && w.view.orphaned == 0
    ensures end == Alone(h, 1, Draining, map[vm := h], map[], map[h := 4 * SECOND], w.sweeper)
    ensures Exec(START, acts + Visit(h, vm), TIMEOUT) == Some(end)
  {
    var w1 := AloneRegisters(w, h, 3 * SECOND);
    var longer := Next(acts, w, Call(DoRegister(h, 2, "", 3 * SECOND)), w1);
    var rec := HostRec(2, 0, Ready);
    OneKey(h, rec, rec.(used := 1));
    var w2 := w1.(view := w1.view.(hosts := map[h := rec.(used := 1)], assignment := map[vm := h]));
    longer := Next(longer, w1, Call(DoPlace(vm, h)), w2);
    end := AloneDeregisters(w2, h, 4 * SECOND);
    longer := Next(longer, w2, Call(DoDeregister(h, 4 * SECOND)), end);
    hide Exec;
    assert longer == acts + Visit(h, vm);
  }

  /** It comes back and drains, with a guest, between its removal and the deletion of its drain time. */
  lemma StampRace(h: HostID, vm: VMID)
    requires h != HostID("")
    ensures var acts := [Call(DoRegister(h, 2, "", 0)), Call(DoDeregister(h, SECOND)), BeginSweep(2 * SECOND),
                         TakeSnapshot(2 * SECOND)] + [Check(h), RemoveOne] + Visit(h, vm) + [ForgetOne];
      var end := Exec(START, acts, TIMEOUT);
      end.Some? && Unstamped(end.value.view, h) && end.value.view.assignment == map[vm := h]
  {
    ReaperFinds(h);
    var acts := [Call(DoRegister(h, 2, "", 0)), Call(DoDeregister(h, SECOND)), BeginSweep(2 * SECOND),
                 TakeSnapshot(2 * SECOND)];
    var rec, reading := HostRec(2, 0, Draining), 2 * SECOND;
    var w1 := Alone(h, 0, Draining, map[], map[], map[h := SECOND], Checks(map[h := rec], reading));
    OneKey(h, rec, rec);
    var w2 := w1.(sweeper := Removes(h, map[], reading));
    var longer := Next(acts, w1, Check(h), w2);
    assert Residents(map[], {h}) == {};
    var w3 := World(w2.view.(hosts := map[]), Forgets(h, map[], reading));
    longer := Next(longer, w2, RemoveOne, w3);
    hide Exec;
    assert longer == acts + [Check(h), RemoveOne];
    var w4 := Visits(longer, w3, h, vm);
    var last := Next(longer + Visit(h, vm), w4, ForgetOne, Apply(w4, ForgetOne, TIMEOUT));
  }

  /** It comes back and drains, with a guest, between the snapshot that shows it empty and the check:
      drained at four seconds by the clock, it loses its guest to a reaper that read two. */
  lemma SnapshotRace(h: HostID, vm: VMID)
    requires h != HostID("")
    ensures var before := [Call(DoRegister(h, 2, "", 0)), Call(DoDeregister(h, SECOND)), BeginSweep(2 * SECOND),
                           TakeSnapshot(2 * SECOND)] + Visit(h, vm);
      var mid, end := Exec(START, before, TIMEOUT), Exec(START, before + [Check(h), RemoveOne], TIMEOUT);
      && mid.Some? && OnRecord(mid.value.view, h, 4 * SECOND) && mid.value.view.assignment == map[vm := h]
      && end.Some? && end.value.view.hosts == map[] && end.value.view.orphaned == 1
  {
    ReaperFinds(h);
    var acts := [Call(DoRegister(h, 2, "", 0)), Call(DoDeregister(h, SECOND)), BeginSweep(2 * SECOND),
                 TakeSnapshot(2 * SECOND)];
    var rec, reading := HostRec(2, 0, Draining), 2 * SECOND;
    var w1 := Alone(h, 0, Draining, map[], map[], map[h := SECOND], Checks(map[h := rec], reading));
    var w2 := Visits(acts, w1, h, vm);
    OneKey(h, rec, rec);
    var w3 := w2.(sweeper := Removes(h, map[], reading));
    var longer := Next(acts + Visit(h, vm), w2, Check(h), w3);
    assert Residents(map[vm := h], {h}) == {vm};
    OneKey(h, HostRec(2, 1, Draining), rec);
    longer := Next(longer, w3, RemoveOne, DoRemove(w3));
    hide Exec;
    assert longer == acts + Visit(h, vm) + [Check(h), RemoveOne];
  }
}
