/**
  One instance and arm of the corrected ledger: the current root, the corrected sink and the ordered
  lineage between them (scripts/cross_file_corrected_ledger.py, lines 509-550 and 680-707).
 */
module Lineage {
  import opened LedgerGraph
  import opened LedgerLinks

  // ----- Filtering ----------------------------------------------------------

  function Filter(records: seq<Record>, keep: Record -> bool): seq<Record> {
    if records == [] then []
    else
      var n := |records| - 1;
      Filter(records[..n], keep) + (if keep(records[n]) then [records[n]] else [])
  }

  lemma {:induction false} FilterMembers(records: seq<Record>, keep: Record -> bool)
    ensures forall r :: r in Filter(records, keep) <==> r in records && keep(r)
  {
    if records != [] {
      var n := |records| - 1;
      FilterMembers(records[..n], keep);
      assert records == records[..n] + [records[n]];
    }
  }

  lemma {:induction false} FilterDistinct(records: seq<Record>, keep: Record -> bool)
    requires DistinctIds(records)
    ensures DistinctIds(Filter(records, keep))
  {
    if records != [] {
      var n := |records| - 1;
      FilterDistinct(records[..n], keep);
      FilterMembers(records[..n], keep);
      var inner := Filter(records[..n], keep);
      forall i | 0 <= i < |inner|
        ensures inner[i].id != records[n].id
      {
        assert inner[i] in records[..n];
      }
    }
  }

  /** Exactly one record is kept exactly when one record satisfies the condition. */
  lemma {:induction false} FilterSingle(records: seq<Record>, keep: Record -> bool)
    requires DistinctIds(records)
    ensures |Filter(records, keep)| == 1 <==> exists r :: Only(records, keep, r)
    ensures |Filter(records, keep)| == 1 ==> Only(records, keep, Filter(records, keep)[0])
  {
    hide Filter;
    FilterMembers(records, keep);
    FilterDistinct(records, keep);
    var kept := Filter(records, keep);
    if |kept| == 1 {
      assert kept[0] in kept;
      assert Only(records, keep, kept[0]);
    }
    if r :| Only(records, keep, r) {
      assert r in kept;
      assert forall i :: 0 <= i < |kept| ==> kept[i] in kept && kept[i] == r;
      assert |kept| >= 2 ==> kept[0].id != kept[1].id;
    }
  }

  ghost predicate Only(records: seq<Record>, keep: Record -> bool, r: Record) {
    r in records && keep(r) && forall s :: s in records && keep(s) ==> s == r
  }

  function Group(records: seq<Record>, key: Key): seq<Record> {
    Filter(records, (r: Record) => r.key == key)
  }

  ghost predicate OnlyRoot(group: seq<Record>, root: Record) {
    Only(group, (r: Record) => r.parent.None?, root)
  }

  ghost predicate OnlySink(group: seq<Record>, sink: Record) {
    Only(group, (r: Record) => ChildSet(group, r.id) == {}, sink)
  }

  /** A group of a sound ledger is a sound ledger of its own. */
  lemma {:induction false} GroupLinks(records: seq<Record>, key: Key)
    requires LinksOk(records)
    ensures LinksOk(Group(records, key))
    ensures forall r :: r in Group(records, key) ==> ChildSet(records, r.id) == ChildSet(Group(records, key), r.id)
  {
    hide Filter;
    var group := Group(records, key);
    FilterMembers(records, (r: Record) => r.key == key);
    FilterDistinct(records, (r: Record) => r.key == key);
    forall r | r in group
      ensures RecordOk(group, r)
    {
      assert RecordOk(records, r);
      forall t | t in r.supersedes
        ensures TargetOk(group, r, t)
      {
        assert TargetOk(records, r, t);
      }
      if r.link.Some? && r.link.value.hash != r.evidence {
        var s :| s in records && s.id in r.supersedes && s.evidence == r.link.value.hash;
        SameTarget(records, r, s);
      }
    }
    forall r | r in group
      ensures ChildSet(records, r.id) == ChildSet(group, r.id)
    {
      forall s | s in records && r.id in s.supersedes
        ensures s in group
      {
        assert RecordOk(records, s) && TargetOk(records, s, r.id);
        SameTarget(records, s, r);
      }
    }
  }

  /** A superseded record is in the group of the record that supersedes it. */
  lemma {:induction false} SameTarget(records: seq<Record>, r: Record, s: Record)
    requires DistinctIds(records) && RecordOk(records, r) && s in records && s.id in r.supersedes
    ensures s.key == r.key
  {
    assert TargetOk(records, r, s.id);
    var t :| t in records && t.id == s.id && t.key == r.key;
    SameRecord(records, s, t);
  }

  lemma {:induction false} SameRecord(records: seq<Record>, a: Record, b: Record)
    requires DistinctIds(records) && a in records && b in records && a.id == b.id
    ensures a == b
  {
  }

  lemma {:induction false} GroupRank(records: seq<Record>, key: Key, rank: map<Node, nat>)
    requires LinksOk(records) && Closed(Preds(records)) && Ranked(Preds(records), Preds(records).Keys, rank)
    ensures var g := Preds(Group(records, key)); Closed(g) && Ranked(g, g.Keys, rank)
  {
    hide Filter, Preds;
    var group := Group(records, key);
    GroupLinks(records, key);
    LinksClosed(group);
    PredsAre(records);
    PredsAre(group);
    FilterMembers(records, (r: Record) => r.key == key);
    var g := Preds(group);
    forall v | v in g
      ensures v in Preds(records) && g[v] == Preds(records)[v]
    {
      var r :| r in group && r.id == v;
      assert r in records;
    }
  }

  // ----- Roots and sinks ----------------------------------------------------

  /** The facts about one group that the lineage rests on. */
  ghost predicate SoundGroup(group: seq<Record>, rank: map<Node, nat>) {
    LinksOk(group) && Closed(Preds(group)) && Ranked(Preds(group), Preds(group).Keys, rank)
  }

  /** The children map seen from inside a group. */
  ghost predicate GroupChildren(group: seq<Record>, children: map<Node, set<Node>>) {
    forall r :: r in group ==> Next(children, r.id) == ChildSet(group, r.id)
  }

  /** From the only root everything in the group is reached, so no attempt is left unlinked. */
  lemma {:induction false} RootReaches(group: seq<Record>, rank: map<Node, nat>, children: map<Node, set<Node>>,
                                       root: Record, reach: set<Node>, r: Record)
    requires SoundGroup(group, rank) && GroupChildren(group, children) && OnlyRoot(group, root)
    requires ReachableSet(children, root.id, reach) && r in group && r.id in rank
    ensures r.id in reach
    decreases rank[r.id]
  {
    PredsAre(group);
    if r != root {
      assert RecordOk(group, r);
      var p := r.parent.value;
      assert TargetOk(group, r, p);
      var s :| s in group && s.id == p;
      assert p in Preds(group)[r.id];
      RootReaches(group, rank, children, root, reach, s);
      assert r.id in ChildSet(group, p) && ChildSet(group, p) == Next(children, p);
    }
  }

  /** What some attempt is a child of is not a root. */
  lemma {:induction false} ChildIsNoRoot(group: seq<Record>, s: Record, u: Node)
    requires LinksOk(group) && s in group && s.id in ChildSet(group, u)
    ensures s.parent.Some?
  {
    var w :| w in group && u in w.supersedes && w.id == s.id;
    SameRecord(group, s, w);
    assert RecordOk(group, s);
  }

  /** A root from which everything in the group is reached is the only root. */
  lemma {:induction false} ReachedFromOnlyRoot(group: seq<Record>, children: map<Node, set<Node>>, root: Record,
                                               reach: set<Node>)
    requires LinksOk(group) && root in group && root.parent.None?
    requires reach == Ids(group) && GroupChildren(group, children) && ReachableSet(children, root.id, reach)
    ensures OnlyRoot(group, root)
  {
    hide LinksOk;
    forall s | s in group && s.parent.None?
      ensures s == root
    {
      assert s.id in reach && HasWayIn(children, root.id, reach, s.id);
      if s.id != root.id {
        var u :| u in reach && u in children && s.id in children[u];
        var t :| t in group && t.id == u;
        ChildIsNoRoot(group, s, u);
      } else {
        UniqueIds(group);
        SameRecord(group, s, root);
      }
    }
  }

  lemma {:induction false} UniqueIds(group: seq<Record>)
    requires LinksOk(group)
    ensures DistinctIds(group)
  {
  }

  function Above(group: seq<Record>, rank: map<Node, nat>, n: nat): set<Node> {
    set w | w in Ids(group) && w in rank && n < rank[w]
  }

  lemma {:induction false} AboveShrinks(group: seq<Record>, rank: map<Node, nat>, v: Node, w: Node)
    requires v in rank && w in rank && rank[v] < rank[w] && w in Ids(group)
    ensures |Above(group, rank, rank[w])| < |Above(group, rank, rank[v])|
  {
    var lower, higher := Above(group, rank, rank[v]), Above(group, rank, rank[w]);
    assert w in lower && higher <= lower - {w};
    Smaller(higher, lower, w);
  }

  /** Every attempt of an acyclic group is below some sink. */
  lemma {:induction false} HasSink(group: seq<Record>, rank: map<Node, nat>, r: Record) returns (sink: Record)
    requires SoundGroup(group, rank) && r in group && r.id in rank
    ensures sink in group && ChildSet(group, sink.id) == {}
    decreases |Above(group, rank, rank[r.id])|
  {
    sink := r;
    if ChildSet(group, r.id) != {} {
      var c :| c in ChildSet(group, r.id);
      var s :| s in group && r.id in s.supersedes && s.id == c;
      EdgeRises(group, rank, r, s);
      AboveShrinks(group, rank, r.id, s.id);
      sink := HasSink(group, rank, s);
    }
  }

  lemma {:induction false} EdgeRises(group: seq<Record>, rank: map<Node, nat>, r: Record, s: Record)
    requires SoundGroup(group, rank) && r in group && s in group && r.id in s.supersedes
    ensures r.id in rank && s.id in rank && rank[r.id] < rank[s.id] && s.id in Ids(group)
  {
    PredsAre(group);
    assert r.id in Preds(group)[s.id];
  }

  lemma {:induction false} Smaller(a: set<Node>, b: set<Node>, v: Node)
    requires v in b && a <= b - {v}
    ensures |a| < |b|
  {
    Subset(a, b - {v});
  }

  lemma {:induction false} Subset(a: set<Node>, b: set<Node>)
    requires a <= b
    ensures |a| <= |b|
  {
    if a != {} {
      var v :| v in a;
      Subset(a - {v}, b - {v});
    }
  }

  // ----- Ordering by depth --------------------------------------------------

  ghost predicate FullDepth(group: seq<Record>, depth: map<Node, nat>) {
    Closed(Preds(group)) && Depths(Preds(group), depth) && depth.Keys == Ids(group)
  }

  predicate HasDepths(records: seq<Record>, depth: map<Node, nat>) {
    forall r :: r in records ==> r.id in depth
  }

  /** Insert after every record of at most the same depth. */
  function Insert(sorted: seq<Record>, r: Record, depth: map<Node, nat>): (s: seq<Record>)
    requires HasDepths(sorted, depth) && r.id in depth
    ensures HasDepths(s, depth)
  {
    if sorted == [] then [r]
    else
      var n := |sorted| - 1;
      assert sorted[n] in sorted;
      if depth[sorted[n].id] <= depth[r.id] then sorted + [r]
      else Insert(sorted[..n], r, depth) + [sorted[n]]
  }

  /** The stable sort by depth; ties keep the raw order. */
  function SortByDepth(records: seq<Record>, depth: map<Node, nat>): (s: seq<Record>)
    requires HasDepths(records, depth)
    ensures HasDepths(s, depth)
  {
    if records == [] then []
    else
      var n := |records| - 1;
      assert records[n] in records;
      Insert(SortByDepth(records[..n], depth), records[n], depth)
  }

  ghost predicate Sorted(s: seq<Record>, depth: map<Node, nat>)
    requires HasDepths(s, depth)
  {
    forall i, j :: 0 <= i < j < |s| ==> depth[s[i].id] <= depth[s[j].id]
  }

  lemma {:induction false} SplitsLast(records: seq<Record>)
    requires records != []
    ensures multiset(records) == multiset(records[..|records| - 1]) + multiset{records[|records| - 1]}
  {
    assert records == records[..|records| - 1] + [records[|records| - 1]];
  }

  lemma {:induction false} InsertPermutes(sorted: seq<Record>, r: Record, depth: map<Node, nat>)
    requires HasDepths(sorted, depth) && r.id in depth
    ensures multiset(Insert(sorted, r, depth)) == multiset(sorted) + multiset{r}
  {
    if sorted != [] {
      SplitsLast(sorted);
      if depth[sorted[|sorted| - 1].id] > depth[r.id] {
        InsertPermutes(sorted[..|sorted| - 1], r, depth);
      }
    }
  }

  lemma {:induction false} InsertMembers(sorted: seq<Record>, r: Record, depth: map<Node, nat>, x: Record)
    requires HasDepths(sorted, depth) && r.id in depth && x in Insert(sorted, r, depth)
    ensures x == r || x in sorted
  {
    InsertPermutes(sorted, r, depth);
    assert x in multiset(Insert(sorted, r, depth));
  }

  lemma {:induction false} InsertSorted(sorted: seq<Record>, r: Record, depth: map<Node, nat>)
    requires HasDepths(sorted, depth) && r.id in depth && Sorted(sorted, depth)
    ensures Sorted(Insert(sorted, r, depth), depth)
  {
    if sorted != [] && depth[sorted[|sorted| - 1].id] > depth[r.id] {
      var n := |sorted| - 1;
      InsertSorted(sorted[..n], r, depth);
      var inner := Insert(sorted[..n], r, depth);
      forall i | 0 <= i < |inner|
        ensures depth[inner[i].id] <= depth[sorted[n].id]
      {
        InsertMembers(sorted[..n], r, depth, inner[i]);
      }
    }
  }

  lemma {:induction false} SortSorts(records: seq<Record>, depth: map<Node, nat>)
    requires HasDepths(records, depth)
    ensures Sorted(SortByDepth(records, depth), depth)
  {
    if records != [] {
      var n := |records| - 1;
      SortSorts(records[..n], depth);
      InsertSorted(SortByDepth(records[..n], depth), records[n], depth);
    }
  }

  lemma {:induction false} SortPermutes(records: seq<Record>, depth: map<Node, nat>)
    requires HasDepths(records, depth)
    ensures multiset(SortByDepth(records, depth)) == multiset(records)
  {
    if records != [] {
      hide Insert;
      var n := |records| - 1;
      SplitsLast(records);
      SortPermutes(records[..n], depth);
      InsertPermutes(SortByDepth(records[..n], depth), records[n], depth);
    }
  }
}
