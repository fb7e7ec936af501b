/** The control loop's steps add up to a reconcile: left alone, the fleet's interleaved machine ends
    where PodFleet.Reconcile does, whatever order it goes through its sets in
    (internal/sim/fleet.go). */
module FleetPass {
  import opened Common
  import opened SchedulerSpec
  import opened SchedulerImpl
  import opened FleetProtocol
  import opened FleetImpl

  function Here(f: Fleet): Pods {
    Pods(f.sched.hosts, f.draining, f.next)
  }

  /** A step of the control loop itself. */
  predicate OfLoop(a: Action) {
    match a
    case TakePending => true
    case Snapshot => true
    case SweepOne(_) => true
    case Forget => true
    case EndSweep => true
    case Decide(_) => true
    case PickName => true
    case AddPod => true
    case EndStart => true
    case DrainPod => true
    case MarkPod => true
    case EndDrain => true
    case Reconcile(_) => false
    case CheckReady(_) => false
    case MakeReady(_) => false
    case Abandon(_) => false
    case PlaceVM(_) => false
    case ReleaseVM(_) => false
  }

  // --------------------------------------------------------------------- the reaper

  /** The removal loop, begun at b, has still to visit the hosts in left. */
  ghost predicate Sweep(b: Pods, q: Pods, left: set<HostID>, used: map<HostID, int>) {
    var gone := Finished(b.hosts, b.draining - left);
    && used == UsedMap(b.hosts) && left <= b.draining
    && q == Pods(b.hosts - gone, b.draining - gone, b.names)
  }

  /** It has removed one more and has yet to forget it. */
  ghost predicate Removed(b: Pods, q: Pods, gone: HostID, left: set<HostID>, used: map<HostID, int>) {
    && gone in b.draining && gone !in left && UsedOn(b.hosts, gone) <= 0
    && Sweep(b, Pods(q.hosts, q.draining - {gone}, q.names), left, used)
  }

  ghost predicate Reaper(b: Pods, f: Fleet) {
    match f.loop
    case Reaping(_) => Here(f) == b
    case Looking(pending, _) => Here(f) == b && pending == b.draining
    case Sweeping(left, used, _) => Sweep(b, Here(f), left, used)
    case Forgetting(gone, left, used, _) => Removed(b, Here(f), gone, left, used)
    case _ => false
  }

  lemma SweepBegins(b: Pods)
    ensures Sweep(b, b, b.draining, UsedMap(b.hosts))
  {
    assert Finished(b.hosts, {}) == {};
    assert b.hosts - {} == b.hosts;
    assert b.draining - b.draining == {};
  }

  lemma SweepSkips(b: Pods, q: Pods, left: set<HostID>, used: map<HostID, int>, id: HostID)
    requires Sweep(b, q, left, used) && id in left && id in used && used[id] > 0
    ensures Sweep(b, q, left - {id}, used)
  {
    assert Finished(b.hosts, b.draining - (left - {id})) == Finished(b.hosts, b.draining - left);
  }

  lemma SweepRemoves(b: Pods, q: Pods, left: set<HostID>, used: map<HostID, int>, id: HostID)
    requires Sweep(b, q, left, used) && id in left && (id in used ==> used[id] <= 0)
    ensures id in used <==> id in q.hosts
    ensures Removed(b, Pods(q.hosts - {id}, q.draining, q.names), id, left - {id}, used)
  {
    assert Finished(b.hosts, b.draining - (left - {id})) == Finished(b.hosts, b.draining - left) + {id};
    assert b.hosts - (Finished(b.hosts, b.draining - left) + {id}) == q.hosts - {id};
    assert b.draining - (Finished(b.hosts, b.draining - left) + {id}) == q.draining - {id};
  }

  lemma SweepEnds(b: Pods, q: Pods, used: map<HostID, int>)
    requires Sweep(b, q, {}, used)
    ensures Shrunk(b, q, {})
    ensures var gone := Finished(b.hosts, b.draining); q == Pods(b.hosts - gone, b.draining - gone, b.names)
  {
    assert b.draining - {} == b.draining;
    ReapingShrinks(b, q);
  }

  lemma NothingToSweep(b: Pods)
    requires b.draining == {}
    ensures var gone := Finished(b.hosts, b.draining); b == Pods(b.hosts - gone, b.draining - gone, b.names)
  {
    assert b.hosts - {} == b.hosts;
  }

  /** A step of the reaper: it goes on, or it is done. */
  lemma ReaperStep(slots: int, b: Pods, f: Fleet, a: Action)
    requires FleetProtocol.Ok(f) && Enabled(f, a) && OfLoop(a) && Reaper(b, f)
    ensures var f', gone := Apply(slots, f, a), Finished(b.hosts, b.draining);
      && f'.scheduled == f.scheduled && f'.checked == f.checked
      && f'.sched.assignment == f.sched.assignment
      && f'.sched.hosts.Keys <= f.sched.hosts.Keys
      && ((f'.loop == Resume(f.loop.after) && Here(f') == Pods(b.hosts - gone, b.draining - gone, b.names))
          || (Reaper(b, f') && f'.loop.after == f.loop.after))
  {
    hide Inv, RemoveHost, Issued, Sweep, UsedMap, Finished;
    match f.loop {
      case Reaping(_) => NothingToSweepIf(b);
      case Looking(_, _) => SweepBegins(b);
      case Sweeping(left, used, _) =>
        if a.SweepOne? { SweepStep(b, f, a.id); } else { SweepEnds(b, Here(f), used); }
      case Forgetting(_, _, _, _) =>
    }
  }

  lemma NothingToSweepIf(b: Pods)
    ensures b.draining == {} ==>
      var gone := Finished(b.hosts, b.draining); b == Pods(b.hosts - gone, b.draining - gone, b.names)
  {
    if b.draining == {} { NothingToSweep(b); }
  }

  lemma SweepStep(b: Pods, f: Fleet, id: HostID)
    requires FleetProtocol.Ok(f) && f.loop.Sweeping? && id in f.loop.left && Reaper(b, f)
    ensures var f' := DoSweepOne(f, id);
      && Reaper(b, f') && f'.loop.after == f.loop.after
      && f'.scheduled == f.scheduled && f'.checked == f.checked && f'.sched.assignment == f.sched.assignment
      && f'.sched.hosts.Keys <= f.sched.hosts.Keys
  {
    hide Inv, RemoveHost, Issued, Sweep, UsedMap, Finished;
    var Sweeping(left, used, _) := f.loop;
    if id in used && used[id] > 0 {
      SweepSkips(b, Here(f), left, used, id);
    } else {
      SweepRemoves(b, Here(f), left, used, id);
      if id in used {
        RemoveHostEvicts(f.sched, id);
        SweptHostIsEmpty(f, id);
      } else {
        assert f.sched.hosts - {id} == f.sched.hosts;
      }
    }
  }

  lemma SweptHostIsEmpty(f: Fleet, id: HostID)
    requires FleetProtocol.Ok(f) && f.loop.Sweeping? && id in f.loop.left && id in f.loop.used && f.loop.used[id] <= 0
    ensures f.sched.assignment - VMsOn(f.sched.assignment, id) == f.sched.assignment
  {
    hide Inv, Issued;
    assert f.sched.assignment - {} == f.sched.assignment;
  }

  // --------------------------------------------------------------------- growing

  /** From m on, all but n of the missing pods have been started. */
  ghost predicate Growing(m: Pods, q: Pods, desired: int, slots: int, n: nat) {
    var missing := desired - |Live(m.hosts)|;
    n <= missing && missing > 0 && Grown(m, q, missing - n, slots, false)
  }

  /** The next pod has its name, and has yet to be added. */
  ghost predicate Naming(m: Pods, q: Pods, desired: int, slots: int, name: HostID, n: nat) {
    && q.names > 0 && name == Name(q.names - 1)
    && Growing(m, q.(names := q.names - 1), desired, slots, n + 1)
  }

  lemma PodIsAdded(slots: int, m: Pods, f: Fleet, desired: int)
    requires FleetProtocol.Ok(f) && f.loop.Adding?
    requires Naming(m, Here(f), desired, slots, f.loop.name, f.loop.n)
    ensures var f' := DoAddPod(slots, f);
      && f'.loop == Starting(f.loop.n) && Growing(m, Here(f'), desired, slots, f.loop.n)
      && f'.sched.assignment == f.sched.assignment && f'.checked == f.checked
      && f'.next == f.next && f'.draining == f.draining && f.loop.name !in f.sched.hosts
      && (if slots < 2 then f'.scheduled == f.scheduled && f'.sched.hosts == f.sched.hosts
          else f'.scheduled == f.scheduled + {f.loop.name}
               && f'.sched.hosts == f.sched.hosts[f.loop.name := HostRec(slots, 0, HostState.Pending)])
  {
    hide Inv, Issued, Name, AddHost, Live, LoopOk, Readying, Grown;
    var name := f.loop.name;
    AddHostAddsPending(f.sched, name, slots);
    NextNameKeepsTracked(f.sched.hosts, f.draining, f.next - 1);
    var q := Here(f).(names := f.next - 1);
    GrowsByOne(m, q, Here(DoAddPod(slots, f)), desired - |Live(m.hosts)| - (f.loop.n + 1), slots, false);
  }

  /** The name is not that of a host there was before. */
  lemma NamedIsNew(p: Pods, m: Pods, q: Pods, desired: int, slots: int, name: HostID, n: nat)
    requires Tracked(p.hosts, p.draining, p.names) && m.names == p.names
    requires Naming(m, q, desired, slots, name, n)
    ensures name !in p.hosts
  {
    hide Live, Name;
    NameAfter(p.names, q.names - 1);
    hide Issued;
  }

  // --------------------------------------------------------------------- shrinking

  /** From m on, the first k victims are Draining, and those before the j-th are in the draining set. */
  ghost predicate Shrinking(m: Pods, q: Pods, desired: int, victims: seq<HostID>, j: nat, k: nat) {
    && |Live(m.hosts)| > desired && Emptiest(m.hosts, |Live(m.hosts)| - desired, victims)
    && j <= k <= |victims| && q.names == m.names
    && Drained(m.hosts, q.hosts, Elements(victims[..k]))
    && q.draining == m.draining + Elements(victims[..j])
  }

  // ------------------------------------------------------------------------ a pass

  /** What the pass has settled on: the fleet after the first reaping, the victims, and the fleet when
      the second reaping begins. */
  datatype Course = Course(m: Pods, victims: seq<HostID>, b: Pods)

  ghost predicate ToDrain(c: Course, q: Pods, desired: int, todo: seq<HostID>) {
    var k := |c.victims| - |todo|;
    k >= 0 && todo == c.victims[k..] && Shrinking(c.m, q, desired, c.victims, k, k)
  }

  ghost predicate ToMark(c: Course, q: Pods, desired: int, id: HostID, todo: seq<HostID>) {
    var k := |c.victims| - |todo| - 1;
    && k >= 0 && id == c.victims[k] && todo == c.victims[k + 1..]
    && Shrinking(c.m, q, desired, c.victims, k, k + 1)
  }

  ghost predicate OnCourse(p: Pods, c: Course, desired: int, slots: int, f: Fleet) {
    match f.loop
    case Idle => Reconciled(p, Here(f), desired, slots, false, c.victims)
    case Deciding(d) => d == desired && Shrunk(p, Here(f), {})
    case Starting(n) => Shrunk(p, c.m, {}) && Growing(c.m, Here(f), desired, slots, n)
    case Adding(name, n) => Shrunk(p, c.m, {}) && Naming(c.m, Here(f), desired, slots, name, n)
    case Draining(todo) => Shrunk(p, c.m, {}) && ToDrain(c, Here(f), desired, todo)
    case Marking(id, todo) => Shrunk(p, c.m, {}) && ToMark(c, Here(f), desired, id, todo)
    case _ =>
      f.sched.hosts.Keys <= p.hosts.Keys &&
      match f.loop.after
      case ThenDecide(d) => d == desired && Reaper(p, f)
      case ThenIdle =>
        && Shrunk(p, c.m, {}) && Reaper(c.b, f)
        && Shrinking(c.m, c.b, desired, c.victims, |c.victims|, |c.victims|)
  }

  /** Nobody's VM is moved, and the pods waiting to be ready are those there were and the new ones. */
  ghost predicate OnlyPodsChange(f: Fleet, f': Fleet) {
    && f'.sched.assignment == f.sched.assignment
    && f'.checked == f.checked
    && f'.scheduled == f.scheduled + Added(Here(f), Here(f'))
  }

  lemma PodIsDrained(c: Course, f: Fleet, desired: int)
    requires FleetProtocol.Ok(f) && f.loop.Draining? && f.loop.todo != []
    requires ToDrain(c, Here(f), desired, f.loop.todo)
    ensures var f' := DoDrainPod(f);
      && f'.loop.Marking? && ToMark(c, Here(f'), desired, f'.loop.id, f'.loop.todo)
      && f'.sched.assignment == f.sched.assignment && f'.scheduled == f.scheduled && f'.checked == f.checked
      && f'.sched.hosts.Keys == f.sched.hosts.Keys
  {
    hide Inv, Issued, SetHostState, Live, LoopOk, Readying, Tracked;
    var k, victims := |c.victims| - |f.loop.todo|, c.victims;
    var id := f.loop.todo[0];
    EmptiestExist(c.m.hosts, |Live(c.m.hosts)| - desired, victims);
    assert id in Elements(victims);
    hide Emptiest;
    SetHostStateSetsState(f.sched, id, HostState.Draining);
    OneMoreElement(victims, k);
    DrainedOneMore(c.m.hosts, f.sched.hosts, Elements(victims[..k]), id);
    assert f.loop.todo[1..] == victims[k + 1..];
  }

  lemma VictimIsMarked(c: Course, q: Pods, q': Pods, desired: int, id: HostID, todo: seq<HostID>)
    requires ToMark(c, q, desired, id, todo) && q' == q.(draining := q.draining + {id})
    ensures ToDrain(c, q', desired, todo)
  {
    hide Live, Emptiest, Drained;
    OneMoreElement(c.victims, |c.victims| - |todo| - 1);
  }

  lemma AllAreMarked(p: Pods, c: Course, q: Pods, desired: int)
    requires Shrunk(p, c.m, {}) && ToDrain(c, q, desired, [])
    ensures q.hosts.Keys <= p.hosts.Keys && Shrinking(c.m, q, desired, c.victims, |c.victims|, |c.victims|)
  {
    hide Live, Emptiest;
  }

  lemma SecondReapEnds(p: Pods, c: Course, q: Pods, desired: int, slots: int)
    requires Tracked(p.hosts, p.draining, p.names) && Shrunk(p, c.m, {})
    requires Shrinking(c.m, c.b, desired, c.victims, |c.victims|, |c.victims|)
    requires var gone := Finished(c.b.hosts, c.b.draining);
      q == Pods(c.b.hosts - gone, c.b.draining - gone, c.b.names)
    ensures Reconciled(p, q, desired, slots, false, c.victims)
  {
    hide Issued, Tracked, Live, Emptiest, Reconciled;
    assert c.victims[..|c.victims|] == c.victims;
    EmptiestExist(c.m.hosts, |Live(c.m.hosts)| - desired, c.victims);
    DrainThenReap(c.m, c.b, q, Elements(c.victims));
    hide Shrunk;
    ResizedReconciles(p, c.m, q, desired, slots, false, c.victims);
  }

  lemma GrowingBegins(m: Pods, desired: int, slots: int)
    requires |Live(m.hosts)| < desired
    ensures Growing(m, m, desired, slots, desired - |Live(m.hosts)|)
  {
    GrownByNone(m, slots, false);
    hide Live, Grown;
  }

  lemma ShrinkingBegins(m: Pods, desired: int, victims: seq<HostID>, b: Pods)
    requires |Live(m.hosts)| > desired && Emptiest(m.hosts, |Live(m.hosts)| - desired, victims)
    ensures ToDrain(Course(m, victims, b), m, desired, victims)
  {
    hide Live, Emptiest, Drained;
    assert victims[..0] == [] && victims[0..] == victims;
    NoneDrained(m.hosts);
    assert m.draining + {} == m.draining;
  }

  lemma NoneDrained(hosts: Hosts)
    ensures Drained(hosts, hosts, {}) && Elements<HostID>([]) == {}
  {
  }

  lemma DecideStep(p: Pods, desired: int, slots: int, f: Fleet, victims: seq<HostID>) returns (c': Course)
    requires Tracked(p.hosts, p.draining, p.names)
    requires f.loop == Deciding(desired) && Shrunk(p, Here(f), {})
    requires Emptiest(f.sched.hosts, |Live(f.sched.hosts)| - desired, victims)
    ensures OnCourse(p, c', desired, slots, DoDecide(f, victims)) && Here(DoDecide(f, victims)) == Here(f)
  {
    hide Tracked, Live, Emptiest, Shrunk, Reconciled, Growing, ToDrain;
    var m := Here(f);
    if |Live(m.hosts)| > desired {
      c' := Course(m, victims, m);
      ShrinkingBegins(m, desired, victims, m);
    } else {
      c' := Course(m, [], m);
      if |Live(m.hosts)| == desired {
        ResizedReconciles(p, m, m, desired, slots, false, []);
      } else {
        GrowingBegins(m, desired, slots);
      }
    }
  }

  lemma StartsEnd(p: Pods, c: Course, desired: int, slots: int, f: Fleet) returns (c': Course)
    requires Tracked(p.hosts, p.draining, p.names) && OnCourse(p, c, desired, slots, f) && f.loop == Starting(0)
    ensures OnCourse(p, c', desired, slots, f.(loop := Idle))
  {
    hide Issued, Tracked, Live, Grown, Shrunk, Reconciled;
    ResizedReconciles(p, c.m, Here(f), desired, slots, false, []);
    c' := c.(victims := []);
  }

  lemma ReapStaysOnCourse(slots: int, p: Pods, c: Course, desired: int, f: Fleet, a: Action)
    requires Tracked(p.hosts, p.draining, p.names) && OnCourse(p, c, desired, slots, f)
    requires FleetProtocol.Ok(f) && Enabled(f, a) && OfLoop(a)
    requires f.loop.Reaping? || f.loop.Looking? || f.loop.Sweeping? || f.loop.Forgetting?
    ensures OnCourse(p, c, desired, slots, Apply(slots, f, a))
    ensures var f' := Apply(slots, f, a);
      && f'.sched.assignment == f.sched.assignment && f'.checked == f.checked && f'.scheduled == f.scheduled
      && f'.sched.hosts.Keys <= f.sched.hosts.Keys
  {
    OkHasInv(f);
    hide FleetProtocol.Ok, Enabled, Apply, Reaper, Finished, Tracked, Shrinking, Shrunk, Reconciled;
    var f' := Apply(slots, f, a);
    if f.loop.after.ThenIdle? {
      ReaperStep(slots, c.b, f, a);
      ReaperIsReaping(c.b, f');
      if f'.loop.Idle? { SecondReapEnds(p, c, Here(f'), desired, slots); }
    } else {
      ReaperStep(slots, p, f, a);
      ReaperIsReaping(p, f');
      if f'.loop.Deciding? { ReapingShrinks(p, Here(f')); }
    }
  }

  lemma OkHasInv(f: Fleet)
    requires FleetProtocol.Ok(f)
    ensures Inv(f.sched)
  {
  }

  lemma ReaperIsReaping(b: Pods, f: Fleet)
    ensures Reaper(b, f) ==> f.loop.Reaping? || f.loop.Looking? || f.loop.Sweeping? || f.loop.Forgetting?
  {
  }

  lemma FewerAddsNone(p: Pods, q: Pods)
    requires q.hosts.Keys <= p.hosts.Keys
    ensures Added(p, q) == {}
  {
  }

  lemma ShrunkKeepsNames(p: Pods, q: Pods, victims: set<HostID>)
    requires Shrunk(p, q, victims)
    ensures q.names == p.names
  {
  }

  /** Before and after a step that leaves the host names alone, the same hosts are new. */
  lemma SameAdded(p: Pods, q: Pods, q': Pods)
    requires q'.hosts.Keys == q.hosts.Keys
    ensures Added(p, q') == Added(p, q)
  {
  }

  lemma OneMoreIsNew(p: Pods, q: Pods, q': Pods, name: HostID)
    requires q'.hosts.Keys == q.hosts.Keys + {name} && name !in p.hosts
    ensures Added(p, q') == Added(p, q) + {name}
  {
  }

  /** The one step of the loop that can be taken from here, and what it does. */
  lemma NextLoopStep(slots: int, f: Fleet, a: Action)
    requires FleetProtocol.Ok(f) && Enabled(f, a) && OfLoop(a)
    ensures Inv(f.sched) && !f.loop.Idle?
    ensures f.loop.Deciding? ==>
      && a.Decide? && Emptiest(f.sched.hosts, |Live(f.sched.hosts)| - f.loop.desired, a.victims)
      && Apply(slots, f, a) == DoDecide(f, a.victims)
    ensures f.loop.Adding? ==> Apply(slots, f, a) == DoAddPod(slots, f)
    ensures f.loop.Draining? && f.loop.todo != [] ==> Apply(slots, f, a) == DoDrainPod(f)
    ensures f.loop.Draining? && f.loop.todo == [] ==> Apply(slots, f, a) == f.(loop := Reaping(ThenIdle))
    ensures f.loop.Marking? ==>
      Apply(slots, f, a) == f.(draining := f.draining + {f.loop.id}, loop := Loop.Draining(f.loop.todo))
  {
    hide Inv, DoAddPod, DoDrainPod, DoDecide, Live, Emptiest, LoopOk, Readying, Tracked;
  }

  lemma NextStart(slots: int, f: Fleet, a: Action)
    requires FleetProtocol.Ok(f) && Enabled(f, a) && OfLoop(a) && f.loop.Starting?
    ensures Inv(f.sched)
    ensures Apply(slots, f, a) ==
      if f.loop.n == 0 then f.(loop := Idle) else f.(next := f.next + 1, loop := Adding(Name(f.next), f.loop.n - 1))
  {
    hide Inv, Name, DoAddPod, DoDrainPod, DoDecide, Live, Emptiest, LoopOk, Readying, Tracked;
  }

  lemma StartStep(slots: int, f0: Fleet, p: Pods, c: Course, desired: int, f: Fleet, a: Action) returns (c': Course)
    requires p == Here(f0) && Tracked(p.hosts, p.draining, p.names)
    requires FleetProtocol.Ok(f) && Enabled(f, a) && OfLoop(a)
    requires OnCourse(p, c, desired, slots, f) && OnlyPodsChange(f0, f)
    requires f.loop.Starting?
    ensures OnCourse(p, c', desired, slots, Apply(slots, f, a)) && OnlyPodsChange(f0, Apply(slots, f, a))
  {
    NextStart(slots, f, a);
    hide Tracked, FleetProtocol.Ok, Inv, Name, Apply, Enabled, OfLoop, Growing, Shrunk, Reconciled, OnlyPodsChange;
    c' := c;
    if f.loop.n == 0 {
      c' := StartsEnd(p, c, desired, slots, f);
    } else {
      assert Here(Apply(slots, f, a)).(names := f.next) == Here(f);
    }
    HostsStay(f0, f, Apply(slots, f, a));
  }

  lemma AddStep(slots: int, f0: Fleet, p: Pods, c: Course, desired: int, f: Fleet, a: Action)
    requires p == Here(f0) && Tracked(p.hosts, p.draining, p.names)
    requires FleetProtocol.Ok(f) && Enabled(f, a) && OfLoop(a)
    requires OnCourse(p, c, desired, slots, f) && OnlyPodsChange(f0, f)
    requires f.loop.Adding?
    ensures OnCourse(p, c, desired, slots, Apply(slots, f, a)) && OnlyPodsChange(f0, Apply(slots, f, a))
  {
    NextLoopStep(slots, f, a);
    hide Tracked, FleetProtocol.Ok, Inv, Issued, Name, DoAddPod, Apply, Enabled, OfLoop, Growing, Naming, Shrunk,
      Reconciled, Added;
    var f' := Apply(slots, f, a);
    PodIsAdded(slots, c.m, f, desired);
    ShrunkKeepsNames(p, c.m, {});
    NamedIsNew(p, c.m, Here(f), desired, slots, f.loop.name, f.loop.n);
    if slots >= 2 { OneMoreIsNew(p, Here(f), Here(f'), f.loop.name); }
  }

  lemma HostsStay(f0: Fleet, f: Fleet, f': Fleet)
    requires OnlyPodsChange(f0, f) && f'.sched.hosts.Keys == f.sched.hosts.Keys
    requires f'.sched.assignment == f.sched.assignment && f'.scheduled == f.scheduled && f'.checked == f.checked
    ensures OnlyPodsChange(f0, f')
  {
    SameAdded(Here(f0), Here(f), Here(f'));
    hide Added;
  }

  lemma DrainStep(f0: Fleet, p: Pods, c: Course, desired: int, slots: int, f: Fleet, f': Fleet)
    requires f.loop.Draining? && OnCourse(p, c, desired, slots, f) && OnlyPodsChange(f0, f)
    requires f'.loop.Marking? && ToMark(c, Here(f'), desired, f'.loop.id, f'.loop.todo)
    requires f'.sched.hosts.Keys == f.sched.hosts.Keys
    requires f'.sched.assignment == f.sched.assignment && f'.scheduled == f.scheduled && f'.checked == f.checked
    ensures OnCourse(p, c, desired, slots, f') && OnlyPodsChange(f0, f')
  {
    hide ToDrain, ToMark, Shrunk, OnlyPodsChange;
    HostsStay(f0, f, f');
  }

  lemma DrainCourse(p: Pods, c: Course, desired: int, slots: int, f: Fleet)
    requires f.loop.Draining? && OnCourse(p, c, desired, slots, f)
    ensures ToDrain(c, Here(f), desired, f.loop.todo)
  {
    hide ToDrain;
  }

  lemma DrainsEnd(f0: Fleet, p: Pods, c: Course, desired: int, slots: int, f: Fleet)
    requires f.loop == Loop.Draining([]) && OnCourse(p, c, desired, slots, f) && OnlyPodsChange(f0, f)
    ensures var f' := f.(loop := Reaping(ThenIdle));
      OnCourse(p, c.(b := Here(f)), desired, slots, f') && OnlyPodsChange(f0, f')
  {
    hide ToDrain, Shrinking, Shrunk, OnlyPodsChange;
    AllAreMarked(p, c, Here(f), desired);
    HostsStay(f0, f, f.(loop := Reaping(ThenIdle)));
  }

  lemma MarkStep(f0: Fleet, p: Pods, c: Course, desired: int, slots: int, f: Fleet)
    requires f.loop.Marking? && OnCourse(p, c, desired, slots, f) && OnlyPodsChange(f0, f)
    ensures var f' := f.(draining := f.draining + {f.loop.id}, loop := Loop.Draining(f.loop.todo));
      OnCourse(p, c, desired, slots, f') && OnlyPodsChange(f0, f')
  {
    hide ToDrain, ToMark, Shrunk, Reconciled, OnlyPodsChange;
    var f' := f.(draining := f.draining + {f.loop.id}, loop := Loop.Draining(f.loop.todo));
    VictimIsMarked(c, Here(f), Here(f'), desired, f.loop.id, f.loop.todo);
    HostsStay(f0, f, f');
  }

  lemma PassStep(slots: int, f0: Fleet, p: Pods, c: Course, desired: int, f: Fleet, a: Action) returns (c': Course)
    requires p == Here(f0) && Tracked(p.hosts, p.draining, p.names)
    requires FleetProtocol.Ok(f) && Enabled(f, a) && OfLoop(a)
    requires OnCourse(p, c, desired, slots, f) && OnlyPodsChange(f0, f)
    ensures OnCourse(p, c', desired, slots, Apply(slots, f, a)) && OnlyPodsChange(f0, Apply(slots, f, a))
  {
    NextLoopStep(slots, f, a);
    hide Tracked, FleetProtocol.Ok, Inv, Enabled, Apply, OfLoop, DoDecide, DoDrainPod, Live, Reconciled, Shrunk,
      Growing, Naming, ToDrain, ToMark, Reaper, Emptiest, OnlyPodsChange;
    c' := c;
    match f.loop {
      case Idle => assert false;
      case Deciding(_) =>
        c' := DecideStep(p, desired, slots, f, a.victims);
        HostsStay(f0, f, Apply(slots, f, a));
      case Starting(_) => c' := StartStep(slots, f0, p, c, desired, f, a);
      case Adding(_, _) => AddStep(slots, f0, p, c, desired, f, a);
      case Draining(_) =>
        if f.loop.todo != [] {
          DrainCourse(p, c, desired, slots, f);
          PodIsDrained(c, f, desired);
          DrainStep(f0, p, c, desired, slots, f, DoDrainPod(f));
        } else {
          DrainsEnd(f0, p, c, desired, slots, f);
          c' := c.(b := Here(f));
        }
      case Marking(_, _) =>
        MarkStep(f0, p, c, desired, slots, f);
      case Reaping(_) => ReapStep(slots, f0, p, c, desired, f, a);
      case Looking(_, _) => ReapStep(slots, f0, p, c, desired, f, a);
      case Sweeping(_, _, _) => ReapStep(slots, f0, p, c, desired, f, a);
      case Forgetting(_, _, _, _) => ReapStep(slots, f0, p, c, desired, f, a);
    }
  }

  lemma ReapStep(slots: int, f0: Fleet, p: Pods, c: Course, desired: int, f: Fleet, a: Action)
    requires p == Here(f0) && Tracked(p.hosts, p.draining, p.names)
    requires FleetProtocol.Ok(f) && Enabled(f, a) && OfLoop(a)
    requires OnCourse(p, c, desired, slots, f) && OnlyPodsChange(f0, f)
    requires f.loop.Reaping? || f.loop.Looking? || f.loop.Sweeping? || f.loop.Forgetting?
    ensures OnCourse(p, c, desired, slots, Apply(slots, f, a)) && OnlyPodsChange(f0, Apply(slots, f, a))
  {
    OkHasInv(f);
    hide Tracked, FleetProtocol.Ok, Inv, Enabled, Apply, Reaper, Shrinking, Shrunk, Reconciled, Added;
    var f' := Apply(slots, f, a);
    ReapStaysOnCourse(slots, p, c, desired, f, a);
    FewerAddsNone(p, Here(f));
    FewerAddsNone(p, Here(f'));
  }

  /** A pass through the control loop that nothing interrupts does to the fleet what Reconcile does: the
      pods it starts wait to be made ready, no VM moves, and whatever order it goes through its sets in,
      it ends in the one way Reconciled describes. */
  lemma UndisturbedPassReconciles(slots: int, f: Fleet, desired: int, acts: seq<Action>) returns (victims: seq<HostID>)
    requires FleetProtocol.Ok(f) && f.loop == Idle && forall a :: a in acts ==> OfLoop(a)
    requires Exec(slots, f.(loop := Reaping(ThenDecide(desired))), acts).Some?
    requires Exec(slots, f.(loop := Reaping(ThenDecide(desired))), acts).value.loop == Idle
    ensures var end := Exec(slots, f.(loop := Reaping(ThenDecide(desired))), acts).value;
      Reconciled(Here(f), Here(end), desired, slots, false, victims) && OnlyPodsChange(f, end)
  {
    var c := PassCourse(slots, f, desired, acts);
    victims := c.victims;
    hide Reconciled, OnlyPodsChange, Exec;
  }

  lemma {:induction false} PassCourse(slots: int, f: Fleet, desired: int, acts: seq<Action>) returns (c: Course)
    requires FleetProtocol.Ok(f) && f.loop == Idle && forall a :: a in acts ==> OfLoop(a)
    requires Exec(slots, f.(loop := Reaping(ThenDecide(desired))), acts).Some?
    ensures var end := Exec(slots, f.(loop := Reaping(ThenDecide(desired))), acts).value;
      OnCourse(Here(f), c, desired, slots, end) && OnlyPodsChange(f, end) && FleetProtocol.Ok(end)
  {
    var begun := f.(loop := Reaping(ThenDecide(desired)));
    if acts == [] {
      c := Course(Here(f), [], Here(f));
      FewerAddsNone(Here(f), Here(f));
      LoopStepKeepsOk(slots, f, Action.Reconcile(desired));
    } else {
      TrackedAtFirst(f);
      hide FleetProtocol.Ok, Inv, Enabled, Apply, OnCourse, OnlyPodsChange, Tracked;
      var front, a := acts[..|acts| - 1], acts[|acts| - 1];
      c := PassCourse(slots, f, desired, front);
      StepKeepsOk(slots, Exec(slots, begun, front).value, a);
      c := PassStep(slots, f, Here(f), c, desired, Exec(slots, begun, front).value, a);
    }
  }

  lemma TrackedAtFirst(f: Fleet)
    requires FleetProtocol.Ok(f) && f.loop == Idle
    ensures Tracked(f.sched.hosts, f.draining, f.next)
  {
  }

  // ------------------------------------------------------------------- getting there

  /** How far the loop has to go: through the parts of a pass, and through the one it is in. */
  function Part(loop: Loop): nat {
    match loop
    case Reaping(after) => if after.ThenIdle? then 4 else 8
    case Looking(_, after) => if after.ThenIdle? then 3 else 7
    case Sweeping(_, _, after) => if after.ThenIdle? then 2 else 6
    case Forgetting(_, _, _, after) => if after.ThenIdle? then 2 else 6
    case Deciding(_) => 5
    case Starting(_) => 1
    case Adding(_, _) => 1
    case Draining(_) => 5
    case Marking(_, _) => 5
    case Idle => 0
  }

  function Within(loop: Loop): nat {
    match loop
    case Sweeping(left, _, _) => 2 * |left|
    case Forgetting(_, left, _, _) => 2 * |left| + 1
    case Starting(n) => 2 * n
    case Adding(_, n) => 2 * n + 1
    case Draining(todo) => 2 * |todo|
    case Marking(_, todo) => 2 * |todo| + 1
    case _ => 0
  }

  function Behind(loop: Loop): nat {
    if loop.Deciding? then 1 else 0
  }

  lemma SweepShortens(f: Fleet, id: HostID)
    requires Inv(f.sched) && f.loop.Sweeping? && id in f.loop.left
    ensures var was, now := f.loop, DoSweepOne(f, id).loop;
      Part(now) == Part(was) && Behind(now) == Behind(was) && Within(now) < Within(was)
  {
    hide Inv, RemoveHost;
    SizeWithout(f.loop.left, id);
  }

  /** Every step of the loop brings the end of the pass nearer. */
  lemma LoopStepShortens(slots: int, f: Fleet, a: Action)
    requires Inv(f.sched) && Enabled(f, a) && OfLoop(a)
    ensures var was, now := f.loop, Apply(slots, f, a).loop;
      || Part(now) < Part(was)
      || (Part(now) == Part(was) && Behind(now) < Behind(was))
      || (Part(now) == Part(was) && Behind(now) == Behind(was) && Within(now) < Within(was))
  {
    hide Inv, AddHost, SetHostState, DoSweepOne, Emptiest, Live;
    match a {
      case TakePending =>
      case Snapshot =>
      case SweepOne(id) => SweepShortens(f, id);
      case Forget =>
      case EndSweep =>
      case Decide(_) =>
      case PickName =>
      case AddPod =>
      case EndStart =>
      case DrainPod =>
      case MarkPod =>
      case EndDrain =>
    }
  }

  lemma {:induction false} Snapshots(hosts: Hosts, ids: set<HostID>) returns (snaps: seq<HostSnapshot>)
    requires ids <= hosts.Keys
    ensures ShowsExactly(hosts, snaps, ids)
    decreases |ids|
  {
    if ids == {} {
      snaps := [];
    } else {
      var id :| id in ids;
      var rest := Snapshots(hosts, ids - {id});
      var h := hosts[id];
      snaps := rest + [HostSnapshot(id, h.capacity, h.used, h.state)];
      assert SnapshotIds(snaps) == SnapshotIds(rest) + [id];
      assert id !in Elements(SnapshotIds(rest));
      assert Elements(SnapshotIds(snaps)) == Elements(SnapshotIds(rest)) + {id};
    }
  }

  lemma ThereAreEmptiest(hosts: Hosts, n: nat) returns (victims: seq<HostID>)
    ensures Emptiest(hosts, n, victims)
  {
    var snaps := Snapshots(hosts, InState(hosts, Ready));
    SortedOrders(snaps);
    ReorderedShows(hosts, snaps, Sorted(snaps), InState(hosts, Ready));
    FirstAreEmptiest(hosts, Sorted(snaps), n);
    victims := SnapshotIds(Sorted(snaps))[..Fewer(n, |Sorted(snaps)|)];
  }

  /** The loop is never stuck in the middle of a pass. */
  lemma LoopIsNotStuck(f: Fleet) returns (a: Action)
    requires f.loop != Idle
    ensures Enabled(f, a) && OfLoop(a)
  {
    match f.loop {
      case Reaping(_) => a := TakePending;
      case Looking(_, _) => a := Snapshot;
      case Sweeping(left, _, _) =>
        if id :| id in left { a := Action.SweepOne(id); } else { a := EndSweep; }
      case Forgetting(_, _, _, _) => a := Forget;
      case Deciding(desired) =>
        var over := |Live(f.sched.hosts)| - desired;
        var victims := ThereAreEmptiest(f.sched.hosts, if over < 0 then 0 else over);
        hide Live;
        a := Decide(victims);
      case Starting(n) => a := if n > 0 then PickName else EndStart;
      case Adding(_, _) => a := AddPod;
      case Draining(todo) => a := if todo != [] then DrainPod else EndDrain;
      case Marking(_, _) => a := MarkPod;
    }
  }

  lemma {:induction false} ExecJoins(slots: int, f: Fleet, a: Action, acts: seq<Action>)
    requires Inv(f.sched) && Enabled(f, a)
    ensures Exec(slots, f, [a] + acts) == Exec(slots, Apply(slots, f, a), acts)
  {
    hide Inv, Apply, Enabled;
    if acts == [] {
      assert [a] + acts == [a] && [a][..0] == [];
      assert Exec(slots, f, []) == Some(f);
    } else {
      var n := |acts| - 1;
      ExecJoins(slots, f, a, acts[..n]);
      assert ([a] + acts)[..n + 1] == [a] + acts[..n];
    }
  }

  /** And it gets to the end of the pass by itself, from wherever it is. */
  lemma {:induction false} PassGetsToItsEnd(slots: int, f: Fleet) returns (acts: seq<Action>)
    requires FleetProtocol.Ok(f)
    ensures forall a :: a in acts ==> OfLoop(a)
    ensures Exec(slots, f, acts).Some? && Exec(slots, f, acts).value.loop == Idle
    decreases Part(f.loop), Behind(f.loop), Within(f.loop)
  {
    OkHasInv(f);
    if f.loop == Idle {
      acts := [];
    } else {
      var a := LoopIsNotStuck(f);
      StepKeepsOk(slots, f, a);
      LoopStepShortens(slots, f, a);
      hide FleetProtocol.Ok, Inv, Enabled, Apply, Part, Behind, Within;
      var rest := PassGetsToItsEnd(slots, Apply(slots, f, a));
      ExecJoins(slots, f, a, rest);
      acts := [a] + rest;
    }
  }

  // ------------------------------------------------------------------ beside the loop

  lemma WaitingPodIsPending(f: Fleet, id: HostID)
    requires FleetProtocol.Ok(f) && id in f.scheduled
    ensures id in f.sched.hosts && id !in f.draining && id !in f.checked
  {
    assert id in f.scheduled + f.checked;
    hide Inv, Issued, LoopOk;
  }

  lemma TimerMakesReady(slots: int, f: Fleet, id: HostID)
    requires Inv(f.sched) && id in f.scheduled && id in f.sched.hosts && id !in f.draining && id !in f.checked
    ensures var f' := Apply(slots, f, CheckReady(id));
      && f'.sched == f.sched && Enabled(f', MakeReady(id))
      && var end := Apply(slots, f', MakeReady(id));
         && end.sched.hosts == f.sched.hosts[id := f.sched.hosts[id].(state := Ready)]
         && end.sched.assignment == f.sched.assignment
         && end.scheduled == f.scheduled - {id} && end.checked == f.checked
  {
    hide Inv, SetHostState, DoSweepOne, DoAddPod, DoDrainPod, DoDecide, Emptiest, Live;
    SetHostStateSetsState(f.sched, id, Ready);
    assert f.checked + {id} - {id} == f.checked;
  }

  /** A pod waiting to be ready is never one being drained, so its timer makes it ready. */
  lemma WaitingPodTurnsReady(slots: int, f: Fleet, id: HostID)
    requires FleetProtocol.Ok(f) && id in f.scheduled
    ensures var f' := Apply(slots, f, CheckReady(id));
      && id in f.sched.hosts && id !in f.draining && f'.sched == f.sched && Enabled(f', MakeReady(id))
      && var end := Apply(slots, f', MakeReady(id));
         && end.sched.hosts == f.sched.hosts[id := f.sched.hosts[id].(state := Ready)]
         && end.sched.assignment == f.sched.assignment
         && end.scheduled == f.scheduled - {id} && end.checked == f.checked
  {
    OkHasInv(f);
    WaitingPodIsPending(f, id);
    hide FleetProtocol.Ok, Inv, Apply, Enabled;
    TimerMakesReady(slots, f, id);
  }

  /** A pending host that nobody will make ready. */
  ghost predicate Stranded(f: Fleet, id: HostID) {
    && id in f.sched.hosts && f.sched.hosts[id].state == HostState.Pending
    && id !in f.scheduled && id !in f.checked
  }

  lemma LoopMissesPending(f: Fleet, id: HostID)
    requires FleetProtocol.Ok(f) && Stranded(f, id)
    ensures id !in f.draining && (f.loop.Sweeping? ==> id !in f.loop.left)
    ensures f.loop.Draining? && f.loop.todo != [] ==> f.loop.todo[0] != id
    ensures f.loop.Adding? ==> f.loop.name != id
  {
    if f.loop.Draining? && f.loop.todo != [] {
      assert f.loop.todo[0] in f.loop.todo;
    }
    if f.loop.Adding? { NextNameIsNew(f.next - 1); }
    hide Inv, Issued, Name, Readying;
  }

  lemma StrandedSwept(f: Fleet, other: HostID, id: HostID)
    requires Inv(f.sched) && f.loop.Sweeping? && Stranded(f, id) && other != id
    ensures Stranded(DoSweepOne(f, other), id)
  {
    if other in f.sched.hosts { RemoveHostEvicts(f.sched, other); }
    hide Inv, RemoveHost;
  }

  lemma StrandedAdded(slots: int, f: Fleet, id: HostID)
    requires Inv(f.sched) && f.loop.Adding? && Stranded(f, id) && f.loop.name != id
    ensures Stranded(DoAddPod(slots, f), id)
  {
    AddHostAddsPending(f.sched, f.loop.name, slots);
    hide Inv, AddHost;
  }

  lemma StrandedDrained(f: Fleet, id: HostID)
    requires Inv(f.sched) && f.loop.Draining? && f.loop.todo != [] && Stranded(f, id) && f.loop.todo[0] != id
    ensures Stranded(DoDrainPod(f), id)
  {
    SetHostStateSetsState(f.sched, f.loop.todo[0], HostState.Draining);
    hide Inv, SetHostState;
  }

  lemma StrandedOneStep(slots: int, f: Fleet, a: Action, id: HostID)
    requires FleetProtocol.Ok(f) && Enabled(f, a) && Stranded(f, id)
    ensures Stranded(Apply(slots, f, a), id)
  {
    OkHasInv(f);
    LoopMissesPending(f, id);
    hide FleetProtocol.Ok, Inv, Place, Release, AddHost, SetHostState, DoSweepOne, DoAddPod, DoDrainPod,
      DoDecide, Emptiest, Live;
    match a {
      case Reconcile(_) =>
      case TakePending =>
      case Snapshot =>
      case SweepOne(other) => StrandedSwept(f, other, id);
      case Forget =>
      case EndSweep =>
      case Decide(_) =>
      case PickName =>
      case AddPod => StrandedAdded(slots, f, id);
      case EndStart =>
      case DrainPod => StrandedDrained(f, id);
      case MarkPod =>
      case EndDrain =>
      case CheckReady(_) =>
      case MakeReady(other) => SetHostStateSetsState(f.sched, other, Ready);
      case Abandon(_) =>
      case PlaceVM(vm) => PlaceMovesGuests(f.sched, vm);
      case ReleaseVM(vm) => ReleaseMovesGuests(f.sched, vm);
    }
  }

  lemma AbandonedIsStranded(f: Fleet, id: HostID)
    requires FleetProtocol.Ok(f) && id in f.scheduled
    ensures Stranded(f.(scheduled := f.scheduled - {id}), id)
  {
    assert id in f.scheduled + f.checked;
    hide Inv, Issued, LoopOk;
  }

  lemma AbandonStep(slots: int, f: Fleet, id: HostID)
    requires FleetProtocol.Ok(f) && id in f.scheduled
    ensures Inv(f.sched) && Enabled(f, Abandon(id))
    ensures Apply(slots, f, Abandon(id)) == f.(scheduled := f.scheduled - {id})
  {
    hide Inv, Issued, LoopOk, Tracked, Readying;
  }

  /** A pod whose timer comes after the simulation was cancelled stays pending for good: it is never
      ready, never drained and never removed. */
  lemma {:induction false} AbandonedPodStaysPending(slots: int, f: Fleet, id: HostID, acts: seq<Action>)
    requires FleetProtocol.Ok(f) && id in f.scheduled && Exec(slots, Apply(slots, f, Abandon(id)), acts).Some?
    ensures var end := Exec(slots, Apply(slots, f, Abandon(id)), acts).value;
      FleetProtocol.Ok(end) && Stranded(end, id)
  {
    if acts == [] {
      AbandonStep(slots, f, id);
      hide FleetProtocol.Ok, Inv, Stranded, Enabled, Apply;
      ScheduledStepKeepsOk(slots, f, Abandon(id));
      AbandonedIsStranded(f, id);
    } else {
      AbandonStep(slots, f, id);
      hide FleetProtocol.Ok, Inv, Stranded, Enabled, Apply;
      var front, a := acts[..|acts| - 1], acts[|acts| - 1];
      AbandonedPodStaysPending(slots, f, id, front);
      var mid := Exec(slots, Apply(slots, f, Abandon(id)), front).value;
      StrandedOneStep(slots, mid, a, id);
      StepKeepsOk(slots, mid, a);
    }
  }

  /** A VM is served while a ready host has a free slot, by the best of them. */
  lemma GuestIsServed(slots: int, f: Fleet, vm: VMID)
    requires Inv(f.sched)
    ensures var s := Apply(slots, f, PlaceVM(vm)).sched;
      if vm !in f.sched.assignment && exists id :: Eligible(f.sched.hosts, id) then
        vm in s.assignment && IsBestChoice(f.sched.policy, f.sched.hosts, s.assignment[vm])
      else s == f.sched
  {
    hide Inv, IsBestChoice;
    PlaceRefinesSearch(f.sched, vm);
  }

  /** A release takes the VM off its host. */
  lemma GuestLeaves(slots: int, f: Fleet, vm: VMID)
    requires Inv(f.sched)
    ensures Apply(slots, f, ReleaseVM(vm)).sched.assignment == f.sched.assignment - {vm}
  {
    hide Inv;
    if vm in f.sched.assignment {
      ReleaseFreesOneSlot(f.sched, vm);
    } else {
      assert f.sched.assignment - {vm} == f.sched.assignment;
    }
  }
}
