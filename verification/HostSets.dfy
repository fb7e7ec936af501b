/** The unordered set behind every free-slot bucket (internal/scheduler/hostset.go). */
module HostSets {
  import opened Common

  function IndexOf(ids: seq<HostID>, id: HostID): (i: nat)
    requires id in ids
    ensures i < |ids| && ids[i] == id
  {
    if ids[0] == id then 0 else 1 + IndexOf(ids[1..], id)
  }

  /** Appends an absent id; the slice is unchanged when the id is already there. */
  function Add(ids: seq<HostID>, id: HostID): seq<HostID> {
    if id in ids then ids else ids + [id]
  }

  /** Deletes id by moving the last element into its place. */
  function Remove(ids: seq<HostID>, id: HostID): seq<HostID> {
    if id !in ids then ids
    else
      var last := |ids| - 1;
      ids[IndexOf(ids, id) := ids[last]][..last]
  }

  lemma AddMembers(ids: seq<HostID>, id: HostID)
    requires NoDup(ids)
    ensures NoDup(Add(ids, id))
    ensures forall x :: x in Add(ids, id) <==> x in ids || x == id
    ensures id !in ids ==> Add(ids, id)[|ids|] == id
  {
  }

  lemma RemoveMembers(ids: seq<HostID>, id: HostID)
    requires NoDup(ids)
    ensures NoDup(Remove(ids, id))
    ensures forall x :: x in Remove(ids, id) <==> x in ids && x != id
  {
    if id in ids {
      var i, last := IndexOf(ids, id), |ids| - 1;
      var r := Remove(ids, id);
      assert forall j :: 0 <= j < last ==> r[j] == if j == i then ids[last] else ids[j];
      forall x | x in ids && x != id
        ensures x in r
      {
        var j :| 0 <= j < |ids| && ids[j] == x;
        assert j == last ==> r[i] == x;
        assert j < last ==> r[j] == x;
      }
    }
  }

  /** Removal moves only the last member, into the place that has become free. */
  lemma RemoveMovesTheLast(ids: seq<HostID>, id: HostID, j: nat)
    requires NoDup(ids) && id in ids && j < |ids| - 1
    ensures |Remove(ids, id)| == |ids| - 1
    ensures Remove(ids, id)[j] == if ids[j] == id then ids[|ids| - 1] else ids[j]
  {
    assert ids[IndexOf(ids, id)] == id;
  }

  /** Removing the most recently added member undoes the addition, order included. */
  lemma RemoveUndoesAdd(ids: seq<HostID>, id: HostID)
    requires NoDup(ids) && id !in ids
    ensures Remove(Add(ids, id), id) == ids
  {
    var more := ids + [id];
    assert forall j :: 0 <= j < |ids| ==> more[j] == ids[j] != id;
    assert IndexOf(more, id) == |ids|;
  }

  /** Adding back the last element after removing it restores the slice, order included. */
  lemma AddUndoesRemoveLast(ids: seq<HostID>)
    requires NoDup(ids) && ids != []
    ensures Add(Remove(ids, ids[|ids| - 1]), ids[|ids| - 1]) == ids
  {
    var last := |ids| - 1;
    assert IndexOf(ids, ids[last]) == last;
    assert Remove(ids, ids[last]) == ids[..last];
    assert ids == ids[..last] + [ids[last]];
  }

  /** Every member sits at the position the index records, and the index records nothing else. */
  ghost predicate Matches(ids: seq<HostID>, index: map<HostID, int>) {
    && (forall i :: 0 <= i < |ids| ==> ids[i] in index && index[ids[i]] == i)
    && (forall id :: id in index ==> 0 <= index[id] < |ids| && ids[index[id]] == id)
  }

  lemma SwapKeepsMatching(ids: seq<HostID>, index: map<HostID, int>, i: nat)
    requires Matches(ids, index) && i < |ids|
    ensures var last := |ids| - 1;
      && Matches(ids[i := ids[last]][..last], index[ids[last] := i] - {ids[i]})
      && ids[i := ids[last]][..last] == Remove(ids, ids[i])
  {
    assert IndexOf(ids, ids[i]) == i;
  }

  class HostSet {
    var ids: seq<HostID>
    var index: map<HostID, int>

    ghost predicate Valid()
      reads this
    {
      Matches(ids, index)
    }

    constructor ()
      ensures Valid() && ids == [] && index == map[]
    {
      ids := [];
      index := map[];
    }

    method Insert(id: HostID)
      requires Valid()
      modifies this
      ensures Valid() && ids == Add(old(ids), id)
      ensures index.Keys == old(index.Keys) + {id}
    {
      if id in index {
        return;
      }
      index := index[id := |ids|];
      ids := ids + [id];
    }

    method Delete(id: HostID)
      requires Valid()
      modifies this
      ensures Valid() && ids == Remove(old(ids), id)
      ensures index.Keys == old(index.Keys) - {id}
    {
      if id !in index {
        assert id !in ids;
        return;
      }
      var i := index[id];
      SwapKeepsMatching(ids, index, i);
      var last := |ids| - 1;
      assert i == last ==> ids[i := ids[last]] == ids && index[ids[last] := i] == index;
      hide IndexOf, Remove, Matches;
      if i != last {
        var moved := ids[last];
        ids := ids[i := moved];
        index := index[moved := i];
      }
      ids := ids[..last];
      index := index - {id};
    }

    /** Picks the last member, or reports that the set is empty. */
    method Any() returns (id: HostID, ok: bool)
      requires Valid()
      ensures ok <==> ids != []
      ensures ok ==> id == ids[|ids| - 1] && id in index
      ensures !ok ==> id == HostID("")
    {
      if |ids| == 0 {
        return HostID(""), false;
      }
      return ids[|ids| - 1], true;
    }

    method Contains(id: HostID) returns (ok: bool)
      requires Valid()
      ensures ok <==> id in ids
    {
      ok := id in index;
    }
  }

  /** A valid set's slice never repeats a host, and its index is determined by the slice. */
  lemma ValidSetIsDuplicateFree(s: HostSet)
    requires s.Valid()
    ensures NoDup(s.ids)
    ensures forall id :: id in s.index <==> id in s.ids
    ensures forall id :: id in s.index ==> s.index[id] == IndexOf(s.ids, id)
  {
  }
}
