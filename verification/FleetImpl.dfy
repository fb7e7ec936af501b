/** The simulated fleet's control loop run without interference, over a scheduler object
    (internal/sim/fleet.go): what one reconcile leaves behind. */
module FleetImpl {
  import opened Common
  import opened SchedulerSpec
  import opened SchedulerImpl
  import opened FleetProtocol
  import opened PlacementService

  // ------------------------------------------------------------- emptiest first

  predicate DrainsBefore(a: HostSnapshot, b: HostSnapshot) {
    if a.used != b.used then a.used < b.used else NameBefore(a.id.name, b.id.name)
  }

  function Insert(x: HostSnapshot, s: seq<HostSnapshot>): seq<HostSnapshot> {
    if s != [] && DrainsBefore(s[0], x) then [s[0]] + Insert(x, s[1..]) else [x] + s
  }

  function Sorted(s: seq<HostSnapshot>): seq<HostSnapshot> {
    if s == [] then [] else Insert(s[0], Sorted(s[1..]))
  }

  /** The names agree up to k, where the first ends or has the smaller character. */
  predicate SmallerAt(a: string, b: string, k: nat) {
    k <= |a| && k < |b| && a[..k] == b[..k] && (k == |a| || a[k] < b[k])
  }

  /** Two names are in order exactly when the first is a proper prefix of the second, or has the
      smaller character where they first differ. */
  lemma {:induction false} NamesAreOrderedByFirstDifference(a: string, b: string)
    ensures NameBefore(a, b) <==> exists k: nat :: SmallerAt(a, b, k)
  {
    assert SmallerAt(a, b, 0) <==> b != "" && (a == "" || a[0] < b[0]);
    if a == "" || b == "" || a[0] != b[0] {
      forall k: nat | k > 0
        ensures !SmallerAt(a, b, k)
      {
        NoneSmallerLater(a, b, k);
      }
    } else {
      NamesAreOrderedByFirstDifference(a[1..], b[1..]);
      if k: nat :| SmallerAt(a, b, k) {
        SmallerLater(a, b, k - 1);
      } else if k: nat :| SmallerAt(a[1..], b[1..], k) {
        SmallerLater(a, b, k);
      }
    }
  }

  lemma NoneSmallerLater(a: string, b: string, k: nat)
    requires k > 0 && (a == "" || b == "" || a[0] != b[0])
    ensures !SmallerAt(a, b, k)
  {
    if a != "" && b != "" && k <= |a| && k <= |b| {
      assert a[..k][0] == a[0] && b[..k][0] == b[0];
    }
  }

  lemma SmallerLater(a: string, b: string, k: nat)
    requires a != "" && b != "" && a[0] == b[0]
    ensures SmallerAt(a, b, k + 1) <==> SmallerAt(a[1..], b[1..], k)
  {
    if k + 1 <= |a| && k + 1 <= |b| {
      assert a[..k + 1] == [a[0]] + a[1..][..k] && b[..k + 1] == [b[0]] + b[1..][..k];
      assert a[1..][..k] == a[..k + 1][1..] && b[1..][..k] == b[..k + 1][1..];
    }
  }

  lemma {:induction false} NamesAreComparable(a: string, b: string)
    ensures NameBefore(a, b) || NameBefore(b, a) || a == b
    ensures !(NameBefore(a, b) && NameBefore(b, a)) && !NameBefore(a, a)
  {
    if a == "" {
    } else if b == "" {
      NamesAreComparable(a[1..], a[1..]);
    } else {
      NamesAreComparable(a[1..], b[1..]);
      NamesAreComparable(a[1..], a[1..]);
    }
  }

  lemma {:induction false} NameOrderIsTransitive(a: string, b: string, c: string)
    requires NameBefore(a, b) && NameBefore(b, c)
    ensures NameBefore(a, c)
  {
    if a == "" || a[0] < b[0] || b[0] < c[0] {
    } else {
      NameOrderIsTransitive(a[1..], b[1..], c[1..]);
    }
  }

  lemma OrderIsTransitive(a: HostSnapshot, b: HostSnapshot, c: HostSnapshot)
    requires !DrainsBefore(b, a) && !DrainsBefore(c, b)
    ensures !DrainsBefore(c, a)
  {
    if a.used == c.used && DrainsBefore(c, a) {
      NamesAreComparable(a.id.name, b.id.name);
      NamesAreComparable(b.id.name, c.id.name);
      NamesAreComparable(a.id.name, c.id.name);
      if a.id.name != b.id.name && b.id.name != c.id.name {
        NameOrderIsTransitive(a.id.name, b.id.name, c.id.name);
      }
    }
  }

  ghost predicate InOrder(s: seq<HostSnapshot>) {
    forall i, j :: 0 <= i < j < |s| ==> !DrainsBefore(s[j], s[i])
  }

  lemma {:induction false} InsertKeepsOrder(x: HostSnapshot, s: seq<HostSnapshot>)
    requires InOrder(s)
    ensures InOrder(Insert(x, s))
    ensures multiset(Insert(x, s)) == multiset(s) + multiset{x}
  {
    hide DrainsBefore;
    if s == [] {
    } else if !DrainsBefore(s[0], x) {
      forall j | 0 < j < |s|
        ensures !DrainsBefore(s[j], x)
      {
        OrderIsTransitive(x, s[0], s[j]);
      }
    } else {
      assert s == [s[0]] + s[1..];
      InsertKeepsOrder(x, s[1..]);
      NotBothBefore(s[0], x);
      PrependKeepsOrder(s[0], Insert(x, s[1..]), s[1..], x);
    }
  }

  lemma NotBothBefore(a: HostSnapshot, b: HostSnapshot)
    ensures !(DrainsBefore(a, b) && DrainsBefore(b, a))
  {
    NamesAreComparable(a.id.name, b.id.name);
  }

  lemma PrependKeepsOrder(head: HostSnapshot, rest: seq<HostSnapshot>, s: seq<HostSnapshot>, x: HostSnapshot)
    requires InOrder(rest) && multiset(rest) == multiset(s) + multiset{x}
    requires !DrainsBefore(x, head) && forall i :: 0 <= i < |s| ==> !DrainsBefore(s[i], head)
    ensures InOrder([head] + rest)
  {
    forall j | 0 <= j < |rest|
      ensures !DrainsBefore(rest[j], head)
    {
      assert rest[j] in multiset(rest);
    }
  }

  lemma {:induction false} SortedOrders(s: seq<HostSnapshot>)
    ensures InOrder(Sorted(s))
    ensures multiset(Sorted(s)) == multiset(s)
  {
    if s == [] {
    } else {
      SortedOrders(s[1..]);
      InsertKeepsOrder(s[0], Sorted(s[1..]));
      assert s == [s[0]] + s[1..];
    }
  }

  /** Snapshots of hosts, once each, with the values they have. */
  ghost predicate Shows(hosts: Hosts, snaps: seq<HostSnapshot>) {
    && NoDup(SnapshotIds(snaps))
    && forall i :: 0 <= i < |snaps| ==> snaps[i].id in hosts && snaps[i].Rec() == hosts[snaps[i].id]
  }

  ghost predicate ShowsExactly(hosts: Hosts, snaps: seq<HostSnapshot>, ids: set<HostID>) {
    Shows(hosts, snaps) && Elements(SnapshotIds(snaps)) == ids
  }

  /** Any reordering of distinct snapshots shows the same hosts. */
  lemma ReorderedShows(hosts: Hosts, snaps: seq<HostSnapshot>, again: seq<HostSnapshot>, ids: set<HostID>)
    requires ShowsExactly(hosts, snaps, ids) && multiset(again) == multiset(snaps)
    ensures ShowsExactly(hosts, again, ids)
  {
    forall i | 0 <= i < |again|
      ensures again[i] in snaps
    {
      assert again[i] in multiset(again);
    }
    forall i | 0 <= i < |snaps|
      ensures snaps[i] in again
    {
      assert snaps[i] in multiset(snaps);
    }
    forall i, j | 0 <= i < j < |again|
      ensures again[i].id != again[j].id
    {
      DistinctStaysDistinct(snaps, again, i, j);
    }
  }

  lemma DistinctStaysDistinct(snaps: seq<HostSnapshot>, again: seq<HostSnapshot>, i: nat, j: nat)
    requires NoDup(SnapshotIds(snaps)) && multiset(again) == multiset(snaps) && i < j < |again|
    ensures again[i].id != again[j].id
  {
    var a, b := again[i], again[j];
    assert a in multiset(snaps) && b in multiset(snaps);
    var k :| 0 <= k < |snaps| && snaps[k] == a;
    var l :| 0 <= l < |snaps| && snaps[l] == b;
    assert SnapshotIds(snaps)[k] == a.id && SnapshotIds(snaps)[l] == b.id;
    if a == b {
      assert again == again[..i] + [a] + again[i + 1..j] + [b] + again[j + 1..];
      assert multiset(again)[a] >= 2;
      OnceEach(snaps, a);
    }
  }

  lemma {:induction false} OnceEach(snaps: seq<HostSnapshot>, a: HostSnapshot)
    requires NoDup(SnapshotIds(snaps))
    ensures multiset(snaps)[a] <= 1
  {
    if snaps == [] {
    } else {
      var front, last := snaps[..|snaps| - 1], snaps[|snaps| - 1];
      assert snaps == front + [last];
      assert SnapshotIds(front) == SnapshotIds(snaps)[..|snaps| - 1];
      OnceEach(front, a);
      assert forall k :: 0 <= k < |front| ==> SnapshotIds(snaps)[k] == front[k].id;
      assert last !in front;
      assert multiset(snaps) == multiset(front) + multiset{last};
    }
  }

  lemma OrderedHosts(hosts: Hosts, sorted: seq<HostSnapshot>, i: nat, j: nat)
    requires Shows(hosts, sorted) && InOrder(sorted) && i < j < |sorted|
    ensures DrainsFirst(hosts, sorted[i].id, sorted[j].id)
  {
    assert SnapshotIds(sorted)[i] != SnapshotIds(sorted)[j];
    NamesAreComparable(sorted[i].id.name, sorted[j].id.name);
  }

  /** The first n of the sorted ready hosts are the first n to be drained. */
  lemma FirstAreEmptiest(hosts: Hosts, sorted: seq<HostSnapshot>, n: nat)
    requires ShowsExactly(hosts, sorted, InState(hosts, Ready)) && InOrder(sorted)
    ensures |sorted| == |InState(hosts, Ready)|
    ensures Emptiest(hosts, n, SnapshotIds(sorted)[..Fewer(n, |sorted|)])
  {
    var ids := SnapshotIds(sorted);
    NoDupSize(ids);
    var victims := ids[..Fewer(n, |sorted|)];
    assert forall k :: 0 <= k < |victims| ==> ids[k] == victims[k] == sorted[k].id;
    forall i, j | 0 <= i < j < |victims|
      ensures DrainsFirst(hosts, victims[i], victims[j])
    {
      OrderedHosts(hosts, sorted, i, j);
    }
    forall i, id | 0 <= i < |victims| && id in InState(hosts, Ready) && id !in victims
      ensures DrainsFirst(hosts, victims[i], id)
    {
      assert id in Elements(ids);
      var j :| 0 <= j < |ids| && ids[j] == id;
      assert j >= |victims|;
      OrderedHosts(hosts, sorted, i, j);
    }
    assert Elements(victims) <= Elements(ids);
  }

  // --------------------------------------------------------------- what one step does

  /** Draining-set hosts without guests, and those already gone. */
  ghost function Finished(hosts: Hosts, ids: set<HostID>): set<HostID> {
    set id | id in ids && UsedOn(hosts, id) <= 0
  }

  /** The fleet's pods: the hosts, those being drained, and how many names have been given out. */
  datatype Pods = Pods(hosts: Hosts, draining: set<HostID>, names: nat)

  ghost function Added(p: Pods, q: Pods): set<HostID> {
    set id | id in q.hosts && id !in p.hosts
  }

  /** n pods have been started: as many new hosts, if a pod has the two slots a host must have, all
      free, ready at once or pending, under names not given out before. */
  ghost predicate Grown(p: Pods, q: Pods, n: nat, slots: int, immediate: bool) {
    && q.draining == p.draining && q.names == p.names + n
    && p.hosts.Keys <= q.hosts.Keys
    && |Added(p, q)| == (if slots < 2 then 0 else n)
    && (forall id :: id in p.hosts ==> q.hosts[id] == p.hosts[id])
    && (forall id :: id in q.hosts && id !in p.hosts ==>
          && q.hosts[id] == HostRec(slots, 0, if immediate then Ready else HostState.Pending)
          && Issued(id, q.names) && !Issued(id, p.names))
  }

  lemma GrownByNone(p: Pods, slots: int, immediate: bool)
    ensures Grown(p, p, 0, slots, immediate)
  {
  }

  lemma IssuedLater(id: HostID, m: nat, n: nat)
    requires m <= n && Issued(id, m)
    ensures Issued(id, n)
  {
  }

  lemma NameAfter(m: nat, n: nat)
    requires m <= n
    ensures Issued(Name(n), n + 1) && !Issued(Name(n), m)
    ensures forall id :: Issued(id, n) ==> Issued(id, n + 1)
  {
    NextNameIsNew(n);
    hide Name;
    if Issued(Name(n), m) { IssuedLater(Name(n), m, n); }
  }

  lemma GrowsByOne(p: Pods, mid: Pods, q: Pods, n: nat, slots: int, immediate: bool)
    requires Grown(p, mid, n, slots, immediate) && Tracked(mid.hosts, mid.draining, mid.names)
    requires q.draining == mid.draining && q.names == mid.names + 1
    requires q.hosts ==
      if slots < 2 then mid.hosts
      else mid.hosts[Name(mid.names) := HostRec(slots, 0, if immediate then Ready else HostState.Pending)]
    ensures Grown(p, q, n + 1, slots, immediate)
  {
    hide Issued, Name, Tracked, Added;
    var name := Name(mid.names);
    NextNameKeepsTracked(mid.hosts, mid.draining, mid.names);
    NameAfter(p.names, mid.names);
    if slots >= 2 {
      OneMoreAdded(p, mid, q, name);
    } else {
      NoneAdded(p, mid, q);
    }
  }

  lemma OneMoreAdded(p: Pods, mid: Pods, q: Pods, name: HostID)
    requires p.hosts.Keys <= mid.hosts.Keys && name !in mid.hosts && q.hosts.Keys == mid.hosts.Keys + {name}
    ensures |Added(p, q)| == |Added(p, mid)| + 1
  {
    assert Added(p, q) == Added(p, mid) + {name};
  }

  lemma NoneAdded(p: Pods, mid: Pods, q: Pods)
    requires q.hosts == mid.hosts
    ensures Added(p, q) == Added(p, mid)
  {
  }

  /** hosts' is hosts with the given ones set to Draining. */
  ghost predicate Drained(hosts: Hosts, hosts': Hosts, ids: set<HostID>) {
    && hosts'.Keys == hosts.Keys
    && forall id :: id in hosts ==>
         hosts'[id] == if id in ids then hosts[id].(state := HostState.Draining) else hosts[id]
  }

  lemma DrainedOneMore(hosts: Hosts, mid: Hosts, ids: set<HostID>, id: HostID)
    requires Drained(hosts, mid, ids) && id in hosts
    ensures id in mid && Drained(hosts, mid[id := mid[id].(state := HostState.Draining)], ids + {id})
  {
  }

  lemma EmptyRemovalKeepsGuests(s: State, id: HostID)
    requires Inv(s) && id in s.hosts && s.hosts[id].used <= 0
    ensures RemoveHost(s, id).1.Ok?
    ensures RemoveHost(s, id).0 == s.(hosts := s.hosts - {id}, buckets := Unindex(s.buckets, id, s.hosts[id]))
  {
    UnusedHostIsEmpty(s, id);
    assert s.assignment - {} == s.assignment;
  }

  lemma OneMoreFinished(hosts: Hosts, d: set<HostID>, seen: set<HostID>, id: HostID)
    requires id !in seen
    ensures UsedOn(hosts, id) > 0 ==> Finished(hosts, seen + {id}) == Finished(hosts, seen)
    ensures UsedOn(hosts, id) <= 0 ==>
      && hosts - Finished(hosts, seen + {id}) == hosts - Finished(hosts, seen) - {id}
      && d - Finished(hosts, seen + {id}) == d - Finished(hosts, seen) - {id}
    ensures id in hosts ==> id in hosts - Finished(hosts, seen)
    ensures id !in hosts ==> hosts - Finished(hosts, seen) - {id} == hosts - Finished(hosts, seen)
  {
    assert UsedOn(hosts, id) <= 0 ==> Finished(hosts, seen + {id}) == Finished(hosts, seen) + {id};
    assert UsedOn(hosts, id) > 0 ==> Finished(hosts, seen + {id}) == Finished(hosts, seen);
  }

  lemma FinishedStaysTracked(hosts: Hosts, d: set<HostID>, names: nat)
    requires Tracked(hosts, d, names)
    ensures Tracked(hosts - Finished(hosts, d), d - Finished(hosts, d), names)
  {
  }

  /** Keeping or skipping the next snapshot keeps exactly those wanted. */
  lemma FilterOne(hosts: Hosts, snaps: seq<HostSnapshot>, i: nat, kept: seq<HostSnapshot>, wanted: set<HostID>)
    requires Shows(hosts, snaps) && Shows(hosts, kept) && i < |snaps|
    requires Elements(SnapshotIds(kept)) == Elements(SnapshotIds(snaps)[..i]) * wanted
    ensures var more := kept + [snaps[i]];
      && Shows(hosts, more)
      && Elements(SnapshotIds(more)) == Elements(SnapshotIds(kept)) + {snaps[i].id}
  {
    var ids, more := SnapshotIds(snaps), kept + [snaps[i]];
    assert SnapshotIds(more) == SnapshotIds(kept) + [snaps[i].id];
    assert forall j :: 0 <= j < i ==> ids[..i][j] == ids[j];
    assert snaps[i].id !in Elements(ids[..i]);
    assert snaps[i].id !in Elements(SnapshotIds(kept));
  }

  lemma StaysTracked(hosts: Hosts, d: set<HostID>, names: nat, id: HostID, h: HostRec)
    requires Tracked(hosts, d, names)
    ensures id !in d && Issued(id, names) ==> Tracked(hosts[id := h], d, names)
    ensures id in hosts && h.state == HostState.Draining ==> Tracked(hosts[id := h], d + {id}, names)
  {
    hide Issued;
  }

  lemma TrackedHostIsIssued(hosts: Hosts, d: set<HostID>, names: nat, id: HostID)
    requires Tracked(hosts, d, names) && id in hosts
    ensures Issued(id, names)
  {
  }

  lemma NextNameKeepsTracked(hosts: Hosts, d: set<HostID>, n: nat)
    requires Tracked(hosts, d, n)
    ensures Tracked(hosts, d, n + 1) && Issued(Name(n), n + 1)
    ensures Name(n) !in hosts && Name(n) !in d
  {
    NextNameIsNew(n);
    hide Issued, Name;
  }

  /** The victims are draining, and of all draining hosts exactly those without guests are gone. */
  ghost predicate Shrunk(p: Pods, q: Pods, victims: set<HostID>) {
    && q.names == p.names
    && q.hosts.Keys <= p.hosts.Keys
    && (forall id :: id in p.hosts ==> Kept(p, q, victims, id))
    && (forall id :: id in q.draining <==> (id in p.draining || id in victims) && UsedOn(p.hosts, id) > 0)
  }

  /** A draining host without guests is gone; any other is as it was, or draining now. */
  ghost predicate Kept(p: Pods, q: Pods, victims: set<HostID>, id: HostID)
    requires id in p.hosts
  {
    && (id in q.hosts <==> p.hosts[id].used > 0 || (id !in p.draining && id !in victims))
    && (id in q.hosts ==>
          q.hosts[id] == if id in victims then p.hosts[id].(state := HostState.Draining) else p.hosts[id])
  }

  lemma CountShown(hosts: Hosts, snaps: seq<HostSnapshot>, ids: set<HostID>)
    requires ShowsExactly(hosts, snaps, ids)
    ensures |snaps| == |ids|
  {
    NoDupSize(SnapshotIds(snaps));
  }

  lemma FrontShows(hosts: Hosts, snaps: seq<HostSnapshot>, k: nat)
    requires Shows(hosts, snaps) && k <= |snaps|
    ensures Shows(hosts, snaps[..k]) && SnapshotIds(snaps[..k]) == SnapshotIds(snaps)[..k]
  {
  }

  lemma EmptiestAreReady(hosts: Hosts, n: int, victims: seq<HostID>)
    requires Emptiest(hosts, n, victims)
    ensures NoDup(victims) && Elements(victims) <= InState(hosts, Ready)
    ensures |Elements(victims)| == |victims| == Fewer(n, |InState(hosts, Ready)|)
  {
    NoDupSize(victims);
  }

  lemma NobodyIsEmptiest(hosts: Hosts)
    ensures Emptiest(hosts, 0, [])
  {
  }

  lemma DrainThenReap(p: Pods, mid: Pods, q: Pods, victims: set<HostID>)
    requires Drained(p.hosts, mid.hosts, victims) && victims <= p.hosts.Keys
    requires mid.draining == p.draining + victims && mid.names == p.names == q.names
    requires var gone := Finished(mid.hosts, mid.draining);
      q.hosts == mid.hosts - gone && q.draining == mid.draining - gone
    ensures Shrunk(p, q, victims)
  {
  }

  lemma ReapingShrinks(p: Pods, q: Pods)
    requires var gone := Finished(p.hosts, p.draining);
      q.hosts == p.hosts - gone && q.draining == p.draining - gone && q.names == p.names
    ensures Shrunk(p, q, {})
  {
  }

  /** Reaping touches neither the live hosts nor how full any ready host is. */
  ghost predicate SameServing(hosts: Hosts, mid: Hosts) {
    && Live(mid) == Live(hosts)
    && InState(mid, Ready) == InState(hosts, Ready)
    && forall id :: id in mid ==> id in hosts && mid[id] == hosts[id]
  }

  lemma AfterReap(p: Pods, mid: Pods)
    requires Tracked(p.hosts, p.draining, p.names) && Shrunk(p, mid, {})
    ensures SameServing(p.hosts, mid.hosts)
  {
    hide Issued;
    assert forall id :: id in mid.hosts ==> id in p.hosts && Kept(p, mid, {}, id);
    assert forall id :: id in p.hosts && id !in mid.hosts ==> Kept(p, mid, {}, id) && id in p.draining;
  }

  /** The number of live hosts has been brought towards the desired one, from those there were after
      reaping. */
  ghost predicate Resized(p: Pods, q: Pods, desired: int, slots: int, immediate: bool, victims: seq<HostID>) {
    var live := |Live(p.hosts)|;
    if live < desired then victims == [] && Grown(p, q, desired - live, slots, immediate)
    else if live > desired then Emptiest(p.hosts, live - desired, victims) && Shrunk(p, q, Elements(victims))
    else victims == [] && q == p
  }

  /** Everything a reconcile leaves behind. The pods missing are started: new hosts under new names,
      with every slot free, ready at once or pending. Of pods too many, the ready ones first to be
      drained are draining. Draining hosts without guests are gone, and no other host is. */
  ghost predicate Reconciled(p: Pods, q: Pods, desired: int, slots: int, immediate: bool, victims: seq<HostID>) {
    var live := |Live(p.hosts)|;
    var missing := if live < desired then desired - live else 0;
    && (if live < desired then victims == [] else Emptiest(p.hosts, live - desired, victims))
    && (forall id :: id in p.hosts ==> Kept(p, q, Elements(victims), id))
    && (forall id :: id in q.draining <==> (id in p.draining || id in victims) && UsedOn(p.hosts, id) > 0)
    && q.names == p.names + missing
    && |Added(p, q)| == (if slots < 2 then 0 else missing)
    && (forall id :: id in q.hosts && id !in p.hosts ==>
          && q.hosts[id] == HostRec(slots, 0, if immediate then Ready else HostState.Pending)
          && Issued(id, q.names) && !Issued(id, p.names))
  }

  lemma ReapThenGrow(p: Pods, mid: Pods, q: Pods, desired: int, slots: int, immediate: bool)
    requires Tracked(p.hosts, p.draining, p.names) && Shrunk(p, mid, {}) && |Live(p.hosts)| < desired
    requires Grown(mid, q, desired - |Live(p.hosts)|, slots, immediate)
    ensures Reconciled(p, q, desired, slots, immediate, [])
  {
    hide Issued, Live;
    assert Added(p, q) == Added(mid, q);
    hide Tracked, Added;
    forall id | id in p.hosts
      ensures Kept(p, q, {}, id)
    {
      assert Kept(p, mid, {}, id);
    }
    assert Elements<HostID>([]) == {};
    hide Kept;
  }

  lemma ReapThenShrink(p: Pods, mid: Pods, q: Pods, victims: set<HostID>)
    requires Shrunk(p, mid, {}) && Shrunk(mid, q, victims) && victims <= mid.hosts.Keys
    ensures Shrunk(p, q, victims)
  {
    forall id | id in p.hosts
      ensures Kept(p, q, victims, id)
    {
      assert Kept(p, mid, {}, id);
      assert id in mid.hosts ==> Kept(mid, q, victims, id);
    }
    forall id
      ensures id in q.draining <==> (id in p.draining || id in victims) && UsedOn(p.hosts, id) > 0
    {
      assert id in p.hosts ==> Kept(p, mid, {}, id);
    }
  }

  lemma ResizedReconciles(p: Pods, mid: Pods, q: Pods, desired: int, slots: int, immediate: bool,
                          victims: seq<HostID>)
    requires Tracked(p.hosts, p.draining, p.names) && Shrunk(p, mid, {})
    requires Resized(mid, q, desired, slots, immediate, victims)
    ensures Reconciled(p, q, desired, slots, immediate, victims)
  {
    hide Issued, Tracked, Kept, Live, Grown, Emptiest, Shrunk, SameServing;
    var live := |Live(p.hosts)|;
    AfterReap(p, mid);
    SameLive(p.hosts, mid.hosts);
    if live < desired {
      ReapThenGrow(p, mid, q, desired, slots, immediate);
    } else {
      if live > desired {
        EmptiestExist(mid.hosts, live - desired, victims);
        ReapThenShrink(p, mid, q, Elements(victims));
        SameEmptiest(p.hosts, mid.hosts, live - desired, victims);
      } else {
        NobodyIsEmptiest(p.hosts);
        assert Elements<HostID>([]) == {};
      }
      ShrunkReconciles(p, q, desired, slots, immediate, victims);
    }
  }

  lemma SameLive(hosts: Hosts, mid: Hosts)
    requires SameServing(hosts, mid)
    ensures Live(mid) == Live(hosts)
  {
  }

  lemma EmptiestExist(hosts: Hosts, n: int, victims: seq<HostID>)
    requires Emptiest(hosts, n, victims)
    ensures Elements(victims) <= hosts.Keys
  {
  }

  lemma ShrunkReconciles(p: Pods, q: Pods, desired: int, slots: int, immediate: bool, victims: seq<HostID>)
    requires |Live(p.hosts)| >= desired && Emptiest(p.hosts, |Live(p.hosts)| - desired, victims)
    requires Shrunk(p, q, Elements(victims))
    ensures Reconciled(p, q, desired, slots, immediate, victims)
  {
    hide Emptiest, Live, Kept;
    assert Added(p, q) == {};
    assert forall id :: id in victims <==> id in Elements(victims);
  }

  lemma SameEmptiest(hosts: Hosts, mid: Hosts, n: int, victims: seq<HostID>)
    requires SameServing(hosts, mid) && Emptiest(mid, n, victims)
    ensures Emptiest(hosts, n, victims)
  {
    forall i | 0 <= i < |victims|
      ensures UsedOn(mid, victims[i]) == UsedOn(hosts, victims[i])
    {
      assert victims[i] in Elements(victims);
    }
    assert forall id :: id in InState(hosts, Ready) ==> UsedOn(mid, id) == UsedOn(hosts, id);
  }

  lemma LiveAfter(p: Pods, q: Pods, desired: int, slots: int, immediate: bool, victims: seq<HostID>)
    requires Tracked(p.hosts, p.draining, p.names) && Reconciled(p, q, desired, slots, immediate, victims)
    ensures Live(q.hosts) == (Live(p.hosts) - Elements(victims)) + Added(p, q)
  {
    hide Issued, Emptiest;
    var drained := Elements(victims);
    forall id | id in p.hosts
      ensures id in Live(q.hosts) <==> id in Live(p.hosts) && id !in drained
    {
      assert Kept(p, q, drained, id);
    }
  }

  /** Growing reaches the desired number of live pods exactly, if pods are large enough to be added at
      all, and shrinking does as far as there are ready pods to drain. */
  lemma ReconcileReaches(p: Pods, q: Pods, desired: int, slots: int, immediate: bool, victims: seq<HostID>)
    requires Tracked(p.hosts, p.draining, p.names) && Reconciled(p, q, desired, slots, immediate, victims)
    ensures var live, ready := |Live(p.hosts)|, |InState(p.hosts, Ready)|;
      |Live(q.hosts)| ==
        if live < desired then (if slots < 2 then live else desired)
        else if live - desired <= ready then desired else live - ready
  {
    hide Tracked, Live, InState, Emptiest, Kept, Issued, Added;
    var drained, added := Elements(victims), Added(p, q);
    LiveAfter(p, q, desired, slots, immediate, victims);
    AddedAreOthers(p, q);
    DisjointSize(Live(p.hosts) - drained, added);
    if |Live(p.hosts)| < desired {
      assert Live(p.hosts) - drained == Live(p.hosts);
    } else {
      EmptiestAreReady(p.hosts, |Live(p.hosts)| - desired, victims);
      ReadyIsLive(p.hosts);
      PartSize(Live(p.hosts), drained);
    }
  }

  lemma AddedAreOthers(p: Pods, q: Pods)
    ensures Live(p.hosts) !! Added(p, q)
  {
  }

  lemma ReadyIsLive(hosts: Hosts)
    ensures InState(hosts, Ready) <= Live(hosts)
  {
  }

  /** Pods started without a latency are ready, as many as were missing, and any unassigned VM can be
      placed from then on. */
  lemma GrowthServes(p: Pods, q: Pods, desired: int, slots: int, victims: seq<HostID>)
    requires Tracked(p.hosts, p.draining, p.names) && Reconciled(p, q, desired, slots, true, victims)
    requires |Live(p.hosts)| < desired && slots >= 2
    ensures |InState(q.hosts, Ready)| == |InState(p.hosts, Ready)| + desired - |Live(p.hosts)|
    ensures forall s: State, vm ::
      Inv(s) && s.hosts == q.hosts && vm !in s.assignment ==> SchedulerSpec.Place(s, vm).1.Ok?
  {
    var added := Added(p, q);
    ReadyAfterGrowth(p, q, desired, slots, victims);
    hide Issued, Kept, Tracked, Live, InState, Inv, SchedulerSpec.Place, Emptiest;
    var id :| id in added;
    forall s: State, vm | Inv(s) && s.hosts == q.hosts && vm !in s.assignment
      ensures SchedulerSpec.Place(s, vm).1.Ok?
    {
      FreeHostServes(s, id, vm);
    }
  }

  lemma ReadyAfterGrowth(p: Pods, q: Pods, desired: int, slots: int, victims: seq<HostID>)
    requires Tracked(p.hosts, p.draining, p.names) && Reconciled(p, q, desired, slots, true, victims)
    requires |Live(p.hosts)| < desired && slots >= 2
    ensures |InState(q.hosts, Ready)| == |InState(p.hosts, Ready)| + desired - |Live(p.hosts)|
  {
    hide Issued, Live, Emptiest;
    var added := Added(p, q);
    forall id | id in p.hosts
      ensures id in InState(q.hosts, Ready) <==> id in InState(p.hosts, Ready)
    {
      assert Kept(p, q, Elements(victims), id);
    }
    assert InState(q.hosts, Ready) == InState(p.hosts, Ready) + added;
    DisjointSize(InState(p.hosts, Ready), added);
  }

  lemma FreeHostServes(s: State, id: HostID, vm: VMID)
    requires Inv(s) && id in s.hosts && vm !in s.assignment
    requires s.hosts[id].state == Ready && s.hosts[id].used < s.hosts[id].capacity
    ensures SchedulerSpec.Place(s, vm).1.Ok?
  {
    PlaceRefinesSearch(s, vm);
    hide Inv, SchedulerSpec.Place;
    assert Eligible(s.hosts, id);
  }

  // ------------------------------------------------------------------- the object

  class PodFleet {
    const sched: Scheduler
    const svc: Server
    const slotsPerHost: int
    const immediate: bool
    var next: nat
    var draining: set<HostID>

    ghost predicate Valid()
      reads this, sched, sched.Repr()
    {
      && sched.Valid()
      && this !in sched.Repr() && svc !in sched.Repr()
      && Tracked(sched.Model().hosts, draining, next)
    }

    ghost function Seen(): Pods
      reads this, sched, sched.Repr()
    {
      Pods(sched.Model().hosts, draining, next)
    }

    constructor (sched: Scheduler, svc: Server, slotsPerHost: int, immediate: bool)
      requires sched.Valid() && sched.Model().hosts == map[] && svc !in sched.Repr()
      ensures Valid() && this.sched == sched && this.svc == svc
      ensures this.slotsPerHost == slotsPerHost && this.immediate == immediate
      ensures next == 0 && draining == {}
    {
      this.sched := sched;
      this.svc := svc;
      this.slotsPerHost := slotsPerHost;
      this.immediate := immediate;
      next := 0;
      draining := {};
    }

    /** The removal loop's view of the hosts. */
    method CountUsed(snaps: seq<HostSnapshot>, ghost hosts: Hosts) returns (used: map<HostID, int>)
      requires ShowsExactly(hosts, snaps, hosts.Keys)
      ensures used == UsedMap(hosts)
    {
      used := map[];
      for i := 0 to |snaps|
        invariant used.Keys == Elements(SnapshotIds(snaps)[..i])
        invariant forall id :: id in used ==> id in hosts && used[id] == hosts[id].used
      {
        OneMoreElement(SnapshotIds(snaps), i);
        used := used[snaps[i].id := snaps[i].used];
      }
      assert SnapshotIds(snaps)[..|snaps|] == SnapshotIds(snaps);
    }

    /** The removal loop has dealt with the hosts in seen: those without guests are gone from the
        scheduler and from the draining set, and every guest is where it was. */
    ghost predicate Swept(s: State, d: set<HostID>, seen: set<HostID>)
      reads this, sched, sched.Repr()
    {
      && sched.Valid()
      && sched.Model().hosts == s.hosts - Finished(s.hosts, seen)
      && sched.Model().assignment == s.assignment
      && draining == d - Finished(s.hosts, seen)
    }

    method SweepOne(id: HostID, used: map<HostID, int>, ghost s: State, ghost d: set<HostID>, ghost seen: set<HostID>)
      requires Swept(s, d, seen) && this !in sched.Repr()
      requires id !in seen && used == UsedMap(s.hosts)
      modifies this`draining, sched.Repr()
      ensures Swept(s, d, seen + {id}) && sched.Repr() <= old(sched.Repr())
    {
      hide Inv, Scheduler.Separate;
      OneMoreFinished(s.hosts, d, seen, id);
      assert id in used <==> id in s.hosts;
      assert id in used ==> used[id] == s.hosts[id].used;
      hide Finished, UsedMap;
      if id in used && used[id] > 0 {
        return;
      }
      if id in used {
        RemoveEmpty(id);
      }
      draining := draining - {id};
    }

    /** Removes the draining hosts that have emptied, and forgets those already gone. No guest
        loses its host. */
    method ReapDrained()
      requires Valid()
      modifies this`draining, sched.Repr()
      ensures Valid() && sched.Repr() <= old(sched.Repr())
      ensures var gone := Finished(old(sched.Model().hosts), old(draining));
        && sched.Model().hosts == old(sched.Model().hosts) - gone
        && sched.Model().assignment == old(sched.Model().assignment)
        && draining == old(draining) - gone
    {
      hide Inv, Issued;
      ghost var s, d := sched.Model(), draining;
      assert Finished(s.hosts, {}) == {};
      hide Finished;
      if draining == {} {
        assert s.hosts - {} == s.hosts;
        return;
      }
      var snaps := sched.Hosts();
      assert ShowsExactly(s.hosts, snaps, s.hosts.Keys);
      var used := CountUsed(snaps, s.hosts);
      SweepAll(used, s, d);
      FinishedStaysTracked(s.hosts, d, next);
    }

    method SweepAll(used: map<HostID, int>, ghost s: State, ghost d: set<HostID>)
      requires Swept(s, d, {}) && draining == d && this !in sched.Repr() && used == UsedMap(s.hosts)
      modifies this`draining, sched.Repr()
      ensures Swept(s, d, d) && sched.Repr() <= old(sched.Repr())
    {
      hide Inv, Finished;
      var pending := draining;
      ghost var seen: set<HostID> := {};
      while pending != {}
        invariant seen == d - pending && pending <= d
        invariant Swept(s, d, seen) && sched.Repr() <= old(sched.Repr())
        decreases |pending|
      {
        var id :| id in pending;
        SweepOne(id, used, s, d, seen);
        pending := pending - {id};
        seen := seen + {id};
      }
      assert seen == d;
    }

    method RemoveEmpty(id: HostID)
      requires sched.Valid() && id in sched.Model().hosts && sched.Model().hosts[id].used <= 0
      modifies sched.Repr()
      ensures sched.Valid() && sched.Repr() <= old(sched.Repr())
      ensures sched.Model().hosts == old(sched.Model().hosts) - {id}
      ensures sched.Model().assignment == old(sched.Model().assignment)
    {
      EmptyRemovalKeepsGuests(sched.Model(), id);
      hide Inv, RemoveHost;
      var _, _ := sched.RemoveHost(id);
    }

    method MarkReady(id: HostID)
      requires Valid()
      modifies svc`freed, sched.Repr()
      ensures Valid() && sched.hosts == old(sched.hosts) && sched.buckets == old(sched.buckets)
      ensures sched.Model().assignment == old(sched.Model().assignment)
      ensures id in draining || id !in old(sched.Model().hosts) ==>
        sched.Model().hosts == old(sched.Model().hosts) && svc.freed == old(svc.freed)
      ensures id !in draining && id in old(sched.Model().hosts) ==>
        && sched.Model().hosts == old(sched.Model().hosts)[id := old(sched.Model().hosts[id]).(state := Ready)]
        && svc.freed
    {
      if id in draining {
        return;
      }
      hide Inv, Issued, Tracked, Scheduler.Separate;
      var ok := Promote(id);
      if !ok {
        return;
      }
      svc.SignalCapacity();
    }

    method Promote(id: HostID) returns (ok: bool)
      requires Valid() && id !in draining
      modifies sched.Repr()
      ensures Valid() && sched.hosts == old(sched.hosts) && sched.buckets == old(sched.buckets)
      ensures sched.Model().assignment == old(sched.Model().assignment)
      ensures ok <==> id in old(sched.Model().hosts)
      ensures var h := old(sched.Model().hosts);
        sched.Model().hosts == if id in h then h[id := h[id].(state := Ready)] else h
    {
      SetHostStateSetsState(sched.Model(), id, Ready);
      if id in sched.Model().hosts {
        TrackedHostIsIssued(sched.Model().hosts, draining, next, id);
        StaysTracked(sched.Model().hosts, draining, next, id, sched.Model().hosts[id].(state := Ready));
      }
      hide Inv, SetHostState, Issued, Tracked, Scheduler.Separate;
      var err := sched.SetHostState(id, Ready);
      ok := err.None?;
    }

    /** Starts one pod under a name never used before. */
    method StartPod()
      requires Valid()
      modifies this`next, svc`freed, sched.Repr()
      ensures Valid() && fresh(sched.Repr() - old(sched.Repr()))
      ensures sched.Model().assignment == old(sched.Model().assignment)
      ensures next == old(next) + 1 && Name(old(next)) !in old(sched.Model().hosts)
      ensures sched.Model().hosts ==
        if slotsPerHost < 2 then old(sched.Model().hosts)
        else old(sched.Model().hosts)[Name(old(next)) :=
               HostRec(slotsPerHost, 0, if immediate then Ready else HostState.Pending)]
      ensures svc.freed <==> old(svc.freed) || (immediate && slotsPerHost >= 2)
    {
      hide Inv, Issued, Name, Tracked, Scheduler.Separate;
      var name := Name(next);
      NextNameKeepsTracked(sched.Model().hosts, draining, next);
      next := next + 1;
      AddNamed(name);
    }

    method AddNamed(name: HostID)
      requires Valid() && name !in sched.Model().hosts && name !in draining && Issued(name, next)
      modifies svc`freed, sched.Repr()
      ensures Valid() && fresh(sched.Repr() - old(sched.Repr()))
      ensures sched.Model().assignment == old(sched.Model().assignment)
      ensures sched.Model().hosts ==
        if slotsPerHost < 2 then old(sched.Model().hosts)
        else old(sched.Model().hosts)[name := HostRec(slotsPerHost, 0, if immediate then Ready else HostState.Pending)]
      ensures svc.freed <==> old(svc.freed) || (immediate && slotsPerHost >= 2)
    {
      StaysTracked(sched.Model().hosts, draining, next, name, HostRec(slotsPerHost, 0, HostState.Pending));
      AddHostAddsPending(sched.Model(), name, slotsPerHost);
      ghost var h := sched.Model().hosts;
      ghost var added := h[name := HostRec(slotsPerHost, 0, HostState.Pending)];
      assert added[name := added[name].(state := Ready)] == h[name := HostRec(slotsPerHost, 0, Ready)];
      hide Inv, AddHost, Issued, Tracked, Scheduler.Valid, Scheduler.Separate;
      var err := sched.AddHost(name, slotsPerHost);
      if err.Some? {
        return;
      }
      if immediate {
        MarkReady(name);
      }
    }

    method StartHosts(n: nat)
      requires Valid()
      modifies this`next, svc`freed, sched.Repr()
      ensures Valid() && fresh(sched.Repr() - old(sched.Repr()))
      ensures sched.Model().assignment == old(sched.Model().assignment)
      ensures Grown(old(Seen()), Seen(), n, slotsPerHost, immediate)
      ensures svc.freed <==> old(svc.freed) || (immediate && slotsPerHost >= 2 && n > 0)
    {
      hide Inv, Issued, Name, Grown, Tracked, Valid, Seen, Scheduler.Valid, Scheduler.Separate;
      ghost var p := Seen();
      GrownByNone(p, slotsPerHost, immediate);
      for i := 0 to n
        invariant Valid() && fresh(sched.Repr() - old(sched.Repr()))
        invariant sched.Model().assignment == old(sched.Model().assignment)
        invariant Grown(p, Seen(), i, slotsPerHost, immediate)
        invariant svc.freed <==> old(svc.freed) || (immediate && slotsPerHost >= 2 && i > 0)
      {
        StartOneMore(p, i);
      }
    }

    method StartOneMore(ghost p: Pods, ghost i: nat)
      requires Valid() && Grown(p, Seen(), i, slotsPerHost, immediate)
      modifies this`next, svc`freed, sched.Repr()
      ensures Valid() && fresh(sched.Repr() - old(sched.Repr()))
      ensures sched.Model().assignment == old(sched.Model().assignment)
      ensures Grown(p, Seen(), i + 1, slotsPerHost, immediate)
      ensures svc.freed <==> old(svc.freed) || (immediate && slotsPerHost >= 2)
    {
      hide Inv, Issued, Name, Grown, Tracked, Scheduler.Valid, Scheduler.Separate;
      ghost var mid := Seen();
      StartPod();
      GrowsByOne(p, mid, Seen(), i, slotsPerHost, immediate);
    }

    method OnlyReady(live: seq<HostSnapshot>, ghost hosts: Hosts) returns (ready: seq<HostSnapshot>)
      requires ShowsExactly(hosts, live, Live(hosts))
      ensures ShowsExactly(hosts, ready, InState(hosts, Ready))
    {
      ready := [];
      for i := 0 to |live|
        invariant Shows(hosts, ready)
        invariant Elements(SnapshotIds(ready)) == Elements(SnapshotIds(live)[..i]) * InState(hosts, Ready)
      {
        OneMoreElement(SnapshotIds(live), i);
        FilterOne(hosts, live, i, ready, InState(hosts, Ready));
        if live[i].state == Ready {
          ready := ready + [live[i]];
        }
      }
      assert SnapshotIds(live)[..|live|] == SnapshotIds(live);
    }

    method NotDraining(snaps: seq<HostSnapshot>, ghost hosts: Hosts) returns (live: seq<HostSnapshot>)
      requires ShowsExactly(hosts, snaps, hosts.Keys)
      ensures ShowsExactly(hosts, live, Live(hosts))
    {
      live := [];
      for i := 0 to |snaps|
        invariant Shows(hosts, live)
        invariant Elements(SnapshotIds(live)) == Elements(SnapshotIds(snaps)[..i]) * Live(hosts)
      {
        OneMoreElement(SnapshotIds(snaps), i);
        FilterOne(hosts, snaps, i, live, Live(hosts));
        if snaps[i].state != HostState.Draining {
          live := live + [snaps[i]];
        }
      }
      assert SnapshotIds(snaps)[..|snaps|] == SnapshotIds(snaps);
    }

    /** Sets the victims to Draining, in order. */
    method MarkVictims(victims: seq<HostSnapshot>)
      requires Valid() && Shows(sched.Model().hosts, victims)
      modifies this`draining, sched.Repr()
      ensures Valid() && sched.Repr() == old(sched.Repr())
      ensures sched.Model().assignment == old(sched.Model().assignment)
      ensures Drained(old(sched.Model().hosts), sched.Model().hosts, Elements(SnapshotIds(victims)))
      ensures draining == old(draining) + Elements(SnapshotIds(victims))
    {
      hide Inv, Issued, Tracked, Valid, Scheduler.Valid, Scheduler.Separate;
      ghost var h, ids := sched.Model().hosts, SnapshotIds(victims);
      assert Drained(h, h, {});
      hide Drained, NoDup;
      for i := 0 to |victims|
        invariant Valid() && sched.Repr() == old(sched.Repr())
        invariant sched.Model().assignment == old(sched.Model().assignment)
        invariant Drained(h, sched.Model().hosts, Elements(ids[..i]))
        invariant draining == old(draining) + Elements(ids[..i])
      {
        OneMoreElement(ids, i);
        assert ids[i] in h;
        DrainedOneMore(h, sched.Model().hosts, Elements(ids[..i]), ids[i]);
        DrainOne(victims[i].id);
      }
      assert ids[..|ids|] == ids;
    }

    method DrainOne(id: HostID)
      requires Valid() && id in sched.Model().hosts
      modifies this`draining, sched.Repr()
      ensures Valid() && sched.Repr() == old(sched.Repr())
      ensures sched.Model().assignment == old(sched.Model().assignment)
      ensures sched.Model().hosts ==
        old(sched.Model().hosts)[id := old(sched.Model().hosts[id]).(state := HostState.Draining)]
      ensures draining == old(draining) + {id}
    {
      hide Inv, SetHostState, Issued, HostsView, BucketsView;
      SetHostStateSetsState(sched.Model(), id, HostState.Draining);
      StaysTracked(sched.Model().hosts, draining, next, id,
                   sched.Model().hosts[id].(state := HostState.Draining));
      hide Tracked;
      var err := sched.SetHostState(id, HostState.Draining);
      if err.Some? {
        return;
      }
      draining := draining + {id};
    }

    /** Drains the n ready pods first in order, or every ready pod if there are fewer. */
    method DrainHosts(live: seq<HostSnapshot>, n: nat) returns (ghost victims: seq<HostID>)
      requires Valid() && ShowsExactly(sched.Model().hosts, live, Live(sched.Model().hosts))
      modifies this`draining, sched.Repr()
      ensures Valid() && sched.Repr() <= old(sched.Repr())
      ensures sched.Model().assignment == old(sched.Model().assignment)
      ensures Emptiest(old(sched.Model().hosts), n, victims)
      ensures Shrunk(old(Seen()), Seen(), Elements(victims))
    {
      hide Inv, Issued, Tracked, Emptiest, Scheduler.Valid, Scheduler.Separate;
      ghost var p := Seen();
      var ready := OnlyReady(live, p.hosts);
      var sorted := Sorted(ready);
      SortedOrders(ready);
      ReorderedShows(p.hosts, ready, sorted, InState(p.hosts, Ready));
      FirstAreEmptiest(p.hosts, sorted, n);
      var chosen := sorted[..Fewer(n, |sorted|)];
      victims := SnapshotIds(sorted)[..Fewer(n, |sorted|)];
      FrontShows(p.hosts, sorted, Fewer(n, |sorted|));
      EmptiestExist(p.hosts, n, victims);
      MarkVictims(chosen);
      ghost var mid := Seen();
      ReapDrained();
      DrainThenReap(p, mid, Seen(), Elements(victims));
    }

    /** Starts or drains as many pods as the live count is away from the desired one. */
    method Resize(live: seq<HostSnapshot>, desired: int) returns (ghost victims: seq<HostID>)
      requires Valid() && ShowsExactly(sched.Model().hosts, live, Live(sched.Model().hosts))
      modifies this`next, this`draining, svc`freed, sched.Repr()
      ensures Valid() && fresh(sched.Repr() - old(sched.Repr()))
      ensures sched.Model().assignment == old(sched.Model().assignment)
      ensures Resized(old(Seen()), Seen(), desired, slotsPerHost, immediate, victims)
      ensures svc.freed <==>
        old(svc.freed) || (immediate && slotsPerHost >= 2 && old(|Live(sched.Model().hosts)|) < desired)
    {
      hide Inv, Issued, Tracked, Emptiest, Valid, Scheduler.Valid, Scheduler.Separate, Live, Grown, Shrunk,
        ShowsExactly;
      CountShown(sched.Model().hosts, live, Live(sched.Model().hosts));
      victims := [];
      if |live| < desired {
        StartHosts(desired - |live|);
      } else if |live| > desired {
        victims := DrainHosts(live, |live| - desired);
      }
    }

    /** Drives the fleet towards the desired number of live pods. No VM loses its host, and the service
        is told of new capacity exactly when pods became ready. */
    method Reconcile(desired: int) returns (ghost victims: seq<HostID>)
      requires Valid()
      modifies this`next, this`draining, svc`freed, sched.Repr()
      ensures Valid() && fresh(sched.Repr() - old(sched.Repr()))
      ensures sched.Model().assignment == old(sched.Model().assignment)
      ensures Reconciled(old(Seen()), Seen(), desired, slotsPerHost, immediate, victims)
      ensures svc.freed <==>
        old(svc.freed) || (immediate && slotsPerHost >= 2 && old(|Live(sched.Model().hosts)|) < desired)
    {
      hide Inv, Issued, Scheduler.Valid, Scheduler.Separate, Finished, Reconciled, Resized, Live, SameServing, Shrunk;
      ghost var p := Seen();
      ReapDrained();
      ghost var mid := Seen();
      ReapingShrinks(p, mid);
      AfterReap(p, mid);
      SameLive(p.hosts, mid.hosts);
      hide Tracked;
      var snaps := sched.Hosts();
      assert ShowsExactly(mid.hosts, snaps, mid.hosts.Keys);
      var live := NotDraining(snaps, mid.hosts);
      victims := Resize(live, desired);
      ResizedReconciles(p, mid, Seen(), desired, slotsPerHost, immediate, victims);
    }
  }
}
