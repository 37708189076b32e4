/** The per-directory table of file groups: one (pattern, count) record per shape,
    kept in order of creation. */
module Groups {

  /** Capacity of the groups array each directory pass declares. */
  const MaxGroups: nat := 1000

  datatype FileGroup = FileGroup(pattern: string, count: nat)

  /** The index of the first record holding pattern `p`, or |gs| when there is none. */
  function Find(gs: seq<FileGroup>, p: string): (i: nat)
    ensures i <= |gs|
    ensures i < |gs| ==> gs[i].pattern == p
    ensures forall k :: 0 <= k < i ==> gs[k].pattern != p
  {
    if gs == [] then 0
    else if gs[0].pattern == p then 0
    else 1 + Find(gs[1..], p)
  }

  /** The table after one find_or_create_group call with pattern `p`. */
  function Insert(gs: seq<FileGroup>, p: string): seq<FileGroup> {
    var i := Find(gs, p);
    if i < |gs| then gs[i := FileGroup(p, gs[i].count + 1)]
    else gs + [FileGroup(p, 1)]
  }

  /** The table after calling find_or_create_group on each pattern of `ps` in turn,
      starting from an empty table. */
  function GroupAll(ps: seq<string>): seq<FileGroup> {
    if ps == [] then [] else Insert(GroupAll(ps[..|ps| - 1]), ps[|ps| - 1])
  }

  lemma GroupAllSnoc(ps: seq<string>, x: string)
    ensures GroupAll(ps + [x]) == Insert(GroupAll(ps), x)
  {
    assert (ps + [x])[..|ps|] == ps;
  }

  /** Sum of the counts of a table. */
  function Total(gs: seq<FileGroup>): nat {
    if gs == [] then 0 else Total(gs[..|gs| - 1]) + gs[|gs| - 1].count
  }

  /** Position of the first occurrence of `p` in `ps`, or |ps| when it does not occur. */
  function FirstIndex(ps: seq<string>, p: string): (i: nat)
    ensures i <= |ps|
    ensures i < |ps| ==> ps[i] == p
    ensures forall k :: 0 <= k < i ==> ps[k] != p
  {
    if ps == [] then 0
    else if ps[0] == p then 0
    else 1 + FirstIndex(ps[1..], p)
  }

  ghost predicate Distinct(gs: seq<FileGroup>) {
    forall i, j :: 0 <= i < j < |gs| ==> gs[i].pattern != gs[j].pattern
  }

  /** The groups array of one directory pass together with its group_count. */
  class GroupTable {
    var groups: array<FileGroup>
    var groupCount: nat

    ghost predicate Valid()
      reads this
    {
      groupCount <= groups.Length
    }

    /** The records in use. */
    function Contents(): seq<FileGroup>
      reads this, groups
      requires Valid()
    {
      groups[..groupCount]
    }

    constructor (capacity: nat)
      ensures Valid() && fresh(groups)
      ensures groups.Length == capacity && Contents() == []
    {
      groups := new FileGroup[capacity](_ => FileGroup("", 0));
      groupCount := 0;
    }

    /** find_or_create_group: bumps the count of the record holding `pattern`, or appends
        (pattern, 1) when there is none, and returns the record's index. The source has no
        bounds check, so the caller must leave room for a new record. */
    method FindOrCreate(pattern: string) returns (index: nat)
      requires Valid()
      requires |Insert(Contents(), pattern)| <= groups.Length
      modifies this`groupCount, groups
      ensures Valid()
      ensures index == Find(old(Contents()), pattern)
      ensures index < groupCount && groups[index].pattern == pattern
      ensures index < old(groupCount) ==>
        groupCount == old(groupCount) && groups[index].count == old(groups[index].count) + 1
      ensures index == old(groupCount) ==>
        groupCount == old(groupCount) + 1 && groups[index] == FileGroup(pattern, 1)
      ensures forall k :: 0 <= k < old(groupCount) && k != index ==> groups[k] == old(groups[k])
      ensures Contents() == Insert(old(Contents()), pattern)
    {
      var i := 0;
      while i < groupCount
        invariant 0 <= i <= groupCount
        invariant forall k :: 0 <= k < i ==> groups[k].pattern != pattern
      {
        if groups[i].pattern == pattern {
          groups[i] := groups[i].(count := groups[i].count + 1);
          return i;
        }
        i := i + 1;
      }
      groups[groupCount] := FileGroup(pattern, 1);
      groupCount := groupCount + 1;
      return groupCount - 1;
    }
  }

  /** Grouping a longer list of patterns never leaves fewer records. */
  lemma {:induction false} GroupAllGrows(ps: seq<string>, qs: seq<string>)
    ensures |GroupAll(ps)| <= |GroupAll(ps + qs)|
  {
    if qs == [] {
      assert ps + qs == ps;
    } else {
      var init := qs[..|qs| - 1];
      assert (ps + qs)[..|ps + qs| - 1] == ps + init;
      GroupAllGrows(ps, init);
    }
  }

  /** Every record of a grouped list has a distinct pattern and a count of at least one,
      and the patterns recorded are exactly those that occur in the list. */
  lemma {:induction false} GroupAllWellFormed(ps: seq<string>)
    ensures Distinct(GroupAll(ps))
    ensures forall i :: 0 <= i < |GroupAll(ps)| ==> GroupAll(ps)[i].count >= 1
    ensures forall p :: p in ps <==> Find(GroupAll(ps), p) < |GroupAll(ps)|
  {
    if ps != [] {
      var init, x := ps[..|ps| - 1], ps[|ps| - 1];
      GroupAllWellFormed(init);
      assert ps == init + [x];
      var gs := GroupAll(init);
      var i := Find(gs, x);
      var hs := GroupAll(ps);
      assert hs == Insert(gs, x);
      assert forall k :: 0 <= k < |gs| ==> hs[k].pattern == gs[k].pattern;
      forall p ensures p in ps <==> Find(hs, p) < |hs| {
        var j := Find(gs, p);
        if p == x {
          assert hs[if i < |gs| then i else |gs|].pattern == x;
        } else if j < |gs| {
          assert hs[j].pattern == p;
        } else {
          assert forall k :: 0 <= k < |hs| ==> hs[k].pattern != p;
        }
      }
    }
  }

  /** Every record's pattern occurs in the grouped list. */
  lemma GroupAllRecordsOccur(ps: seq<string>)
    ensures forall j :: 0 <= j < |GroupAll(ps)| ==> GroupAll(ps)[j].pattern in ps
  {
    GroupAllWellFormed(ps);
    var gs := GroupAll(ps);
    forall j | 0 <= j < |gs| ensures gs[j].pattern in ps {
      assert Find(gs, gs[j].pattern) <= j;
    }
  }

  /** Each record counts exactly the occurrences of its pattern in the grouped list. */
  lemma {:induction false} GroupAllCounts(ps: seq<string>)
    ensures forall i :: 0 <= i < |GroupAll(ps)| ==>
      GroupAll(ps)[i].count == multiset(ps)[GroupAll(ps)[i].pattern]
  {
    if ps != [] {
      var init, x := ps[..|ps| - 1], ps[|ps| - 1];
      GroupAllCounts(init);
      GroupAllWellFormed(init);
      assert ps == init + [x];
      assert multiset(ps) == multiset(init) + multiset{x};
      var gs := GroupAll(init);
      if Find(gs, x) == |gs| {
        assert x !in init;
      }
    }
  }

  /** Replacing one record changes the total by the difference of the counts. */
  lemma {:induction false} TotalUpdate(gs: seq<FileGroup>, i: nat, g: FileGroup)
    requires i < |gs|
    ensures Total(gs[i := g]) + gs[i].count == Total(gs) + g.count
  {
    var last := |gs| - 1;
    assert gs[i := g][..last] == if i == last then gs[..last] else gs[..last][i := g];
    if i < last {
      TotalUpdate(gs[..last], i, g);
    }
  }

  lemma TotalAppend(gs: seq<FileGroup>, g: FileGroup)
    ensures Total(gs + [g]) == Total(gs) + g.count
  {
    assert (gs + [g])[..|gs|] == gs;
  }

  /** The counts of a grouped list add up to its length: every call is counted once. */
  lemma {:induction false} GroupAllTotal(ps: seq<string>)
    ensures Total(GroupAll(ps)) == |ps|
  {
    if ps != [] {
      var init, x := ps[..|ps| - 1], ps[|ps| - 1];
      GroupAllTotal(init);
      var gs := GroupAll(init);
      var i := Find(gs, x);
      assert GroupAll(ps) == Insert(gs, x);
      if i < |gs| {
        TotalUpdate(gs, i, FileGroup(x, gs[i].count + 1));
      } else {
        TotalAppend(gs, FileGroup(x, 1));
      }
    }
  }

  /** First occurrences in a list are unchanged by appending to it. */
  lemma {:induction false} FirstIndexAppend(ps: seq<string>, x: string, p: string)
    ensures FirstIndex(ps + [x], p) == if p in ps then FirstIndex(ps, p) else if p == x then |ps| else |ps| + 1
  {
    if ps != [] {
      assert (ps + [x])[1..] == ps[1..] + [x];
      FirstIndexAppend(ps[1..], x, p);
    } else {
      assert ps + [x] == [x];
    }
  }

  /** Records appear in the order their patterns first occur in the grouped list. */
  lemma {:induction false} GroupAllOrder(ps: seq<string>)
    ensures forall i, j :: 0 <= i < j < |GroupAll(ps)| ==>
      FirstIndex(ps, GroupAll(ps)[i].pattern) < FirstIndex(ps, GroupAll(ps)[j].pattern)
  {
    if ps != [] {
      var init, x := ps[..|ps| - 1], ps[|ps| - 1];
      GroupAllOrder(init);
      GroupAllWellFormed(init);
      assert ps == init + [x];
      var gs := GroupAll(init);
      var hs := GroupAll(ps);
      forall k | 0 <= k < |gs| ensures FirstIndex(ps, gs[k].pattern) == FirstIndex(init, gs[k].pattern) < |init| {
        FirstIndexAppend(init, x, gs[k].pattern);
        assert Find(gs, gs[k].pattern) < |gs|;
      }
      forall i, j | 0 <= i < j < |hs|
        ensures FirstIndex(ps, hs[i].pattern) < FirstIndex(ps, hs[j].pattern)
      {
        if j == |gs| {
          FirstIndexAppend(init, x, x);
        }
      }
    }
  }
}
