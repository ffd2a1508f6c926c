/**
  The ordered lineage of one instance and arm, and the choice of its current and corrected attempts
  (scripts/cross_file_corrected_ledger.py, lines 509-550 and 680-707).
 */
module OrderedLineage {
  import opened Wrappers
  import opened LedgerGraph
  import opened LedgerLinks
  import opened Lineage

  // ----- The lineage theorem ------------------------------------------------

  /** Every attempt comes after all attempts it supersedes. */
  ghost predicate Topological(ordered: seq<Record>) {
    forall i, j :: 0 <= i < |ordered| && 0 <= j < |ordered| && ordered[i].id in ordered[j].supersedes ==> i < j
  }

  ghost predicate IsLineage(group: seq<Record>, ordered: seq<Record>, root: Record, sink: Record) {
    && multiset(ordered) == multiset(group)
    && Topological(ordered)
    && ordered != [] && ordered[0] == root && ordered[|ordered| - 1] == sink
  }

  lemma {:induction false} SameMembers(a: seq<Record>, b: seq<Record>, r: Record)
    requires multiset(a) == multiset(b)
    ensures r in a <==> r in b
  {
    assert r in multiset(a) <==> r in multiset(b);
  }

  lemma {:induction false} DepthsCover(group: seq<Record>, depth: map<Node, nat>)
    requires FullDepth(group, depth)
    ensures HasDepths(group, depth)
  {
  }

  lemma {:induction false} EdgeDeepens(group: seq<Record>, depth: map<Node, nat>, a: Record, b: Record)
    requires LinksOk(group) && FullDepth(group, depth) && a in group && b in group && a.id in b.supersedes
    ensures a.id in depth && b.id in depth && depth[a.id] < depth[b.id]
  {
    PredsAre(group);
    assert DepthOf(Preds(group), depth, b.id) && a.id in Preds(group)[b.id];
  }

  /** Only a root has nothing below it. */
  lemma {:induction false} ParentIsShallower(group: seq<Record>, depth: map<Node, nat>, r: Record) returns (s: Record)
    requires LinksOk(group) && FullDepth(group, depth) && r in group && r.parent.Some?
    ensures s in group && s.id in depth && r.id in depth && depth[s.id] < depth[r.id]
  {
    assert RecordOk(group, r) && TargetOk(group, r, r.parent.value);
    s :| s in group && s.id == r.parent.value;
    EdgeDeepens(group, depth, s, r);
  }

  /** Only a sink has nothing above it. */
  lemma {:induction false} ChildIsDeeper(group: seq<Record>, depth: map<Node, nat>, r: Record) returns (s: Record)
    requires LinksOk(group) && FullDepth(group, depth) && r in group && ChildSet(group, r.id) != {}
    ensures s in group && s.id in depth && r.id in depth && depth[r.id] < depth[s.id]
  {
    var c :| c in ChildSet(group, r.id);
    s :| s in group && r.id in s.supersedes && s.id == c;
    EdgeDeepens(group, depth, r, s);
  }

  lemma {:induction false} SortedTopological(group: seq<Record>, depth: map<Node, nat>, ordered: seq<Record>)
    requires LinksOk(group) && FullDepth(group, depth) && multiset(ordered) == multiset(group)
    requires HasDepths(ordered, depth) && Sorted(ordered, depth)
    ensures Topological(ordered)
  {
    hide LinksOk, FullDepth;
    forall i, j | 0 <= i < |ordered| && 0 <= j < |ordered| && ordered[i].id in ordered[j].supersedes
      ensures i < j
    {
      SameMembers(group, ordered, ordered[i]);
      SameMembers(group, ordered, ordered[j]);
      EdgeDeepens(group, depth, ordered[i], ordered[j]);
    }
  }

  lemma {:induction false} SortedStartsAtRoot(group: seq<Record>, depth: map<Node, nat>, ordered: seq<Record>,
                                              root: Record)
    requires LinksOk(group) && FullDepth(group, depth) && multiset(ordered) == multiset(group)
    requires HasDepths(ordered, depth) && Sorted(ordered, depth) && OnlyRoot(group, root)
    ensures ordered != [] && ordered[0] == root
  {
    hide LinksOk, FullDepth;
    SameMembers(group, ordered, root);
    SameMembers(group, ordered, ordered[0]);
    if ordered[0].parent.Some? {
      var s := ParentIsShallower(group, depth, ordered[0]);
      SameMembers(group, ordered, s);
    }
  }

  lemma {:induction false} SortedEndsAtSink(group: seq<Record>, depth: map<Node, nat>, ordered: seq<Record>,
                                            sink: Record)
    requires LinksOk(group) && FullDepth(group, depth) && multiset(ordered) == multiset(group)
    requires HasDepths(ordered, depth) && Sorted(ordered, depth) && OnlySink(group, sink)
    ensures ordered != [] && ordered[|ordered| - 1] == sink
  {
    hide LinksOk, FullDepth, ChildSet;
    SameMembers(group, ordered, sink);
    var last := ordered[|ordered| - 1];
    SameMembers(group, ordered, last);
    if ChildSet(group, last.id) != {} {
      var s := ChildIsDeeper(group, depth, last);
      SameMembers(group, ordered, s);
      var k :| 0 <= k < |ordered| && ordered[k] == s;
    }
  }

  /** Sorting by depth puts a group in topological order, from its only root to its only sink. */
  lemma {:induction false} LineageTheorem(group: seq<Record>, depth: map<Node, nat>, root: Record, sink: Record)
    requires LinksOk(group) && FullDepth(group, depth) && OnlyRoot(group, root) && OnlySink(group, sink)
    ensures HasDepths(group, depth) && IsLineage(group, SortByDepth(group, depth), root, sink)
  {
    hide LinksOk, SortByDepth, Topological, OnlyRoot, OnlySink, Sorted;
    DepthsCover(group, depth);
    SortSorts(group, depth);
    SortPermutes(group, depth);
    hide FullDepth;
    var ordered := SortByDepth(group, depth);
    SortedTopological(group, depth, ordered);
    SortedStartsAtRoot(group, depth, ordered, root);
    SortedEndsAtSink(group, depth, ordered, sink);
  }

  // ----- The methods --------------------------------------------------------

  /** What the link validation hands to the lineage of one group. */
  ghost predicate GroupInputs(group: seq<Record>, rank: map<Node, nat>, l: Links) {
    && SoundGroup(group, rank) && GroupChildren(group, l.children)
    && forall r :: r in group ==> Next(l.preds, r.id) == Targets(r)
  }

  /** The predecessors restricted to what is reachable are those of the group. */
  lemma {:induction false} RestrictedPreds(group: seq<Record>, preds: map<Node, set<Node>>, g: map<Node, set<Node>>)
    requires LinksOk(group)
    requires forall r :: r in group ==> Next(preds, r.id) == Targets(r)
    requires g.Keys == Ids(group) && forall v :: v in g ==> g[v] == Next(preds, v) * Ids(group)
    ensures g == Preds(group)
  {
    PredsAre(group);
    LinksClosed(group);
    forall v | v in g
      ensures g[v] == Preds(group)[v]
    {
      var r :| r in group && r.id == v;
    }
  }

  method FillDepths(g: Graph, ghost rank: map<Node, nat>) returns (depth: map<Node, nat>)
    requires Ranked(g, g.Keys, rank)
    ensures Depths(g, depth) && depth.Keys == g.Keys
  {
    var memo := new DepthMemo(g);
    var todo := g.Keys;
    while todo != {}
      invariant todo <= g.Keys && memo.graph == g && Depths(g, memo.depth) && g.Keys - todo <= memo.depth.Keys
      decreases todo
    {
      hide Depths, Ranked;
      var id :| id in todo;
      ghost var prior := memo.depth;
      var _ := memo.GetDepth(id, rank);
      assert prior.Keys <= memo.depth.Keys;
      todo := todo - {id};
    }
    return memo.depth;
  }

  lemma {:induction false} ChildrenStay(group: seq<Record>, children: map<Node, set<Node>>)
    requires GroupChildren(group, children)
    ensures forall v, c :: v in Ids(group) && v in children && c in children[v] ==> c in Ids(group)
  {
    forall v, c | v in Ids(group) && v in children && c in children[v]
      ensures c in Ids(group)
    {
      var r :| r in group && r.id == v;
      assert c in ChildSet(group, r.id);
    }
  }

  /** The whole group is reached from a root exactly when it is the only root. */
  lemma {:induction false} ReachesAll(group: seq<Record>, rank: map<Node, nat>, children: map<Node, set<Node>>,
                                      root: Record, reach: set<Node>)
    requires SoundGroup(group, rank) && GroupChildren(group, children) && root in group && root.parent.None?
    requires reach <= Ids(group) && ReachableSet(children, root.id, reach)
    ensures reach == Ids(group) <==> OnlyRoot(group, root)
  {
    hide GroupChildren, ReachableSet, OnlyRoot, LinksOk;
    if reach == Ids(group) {
      ReachedFromOnlyRoot(group, children, root, reach);
    }
    if OnlyRoot(group, root) {
      UniqueIds(group);
      PredsAre(group);
      forall v | v in Ids(group)
        ensures v in reach
      {
        var r :| r in group && r.id == v;
        RootReaches(group, rank, children, root, reach, r);
      }
    }
  }

  /** Reachability from the current attempt, depths, and the sort; it fails exactly when there is a second root. */
  method Order(group: seq<Record>, current: Record, l: Links, ghost rank: map<Node, nat>)
    returns (r: Result<seq<Record>, LedgerError>, ghost depth: map<Node, nat>)
    requires GroupInputs(group, rank, l) && current in group && current.parent.None?
    ensures r.Ok? <==> OnlyRoot(group, current)
    ensures r.Ok? ==> FullDepth(group, depth) && HasDepths(group, depth) && r.value == SortByDepth(group, depth)
  {
    hide SortByDepth, OnlyRoot, GroupChildren, LinksOk, Preds, Ranked, ReachableSet, Depths;
    depth := map[];
    ChildrenStay(group, l.children);
    var reach := Reachable(l.children, current.id, Ids(group));
    ReachesAll(group, rank, l.children, current, reach);
    if reach != Ids(group) {
      return Err(Unlinked), depth;
    }
    var g := map v | v in reach :: Next(l.preds, v) * reach;
    RestrictedPreds(group, l.preds, g);
    var filled := FillDepths(g, rank);
    depth := filled;
    DepthsCover(group, depth);
    return Ok(SortByDepth(group, filled)), depth;
  }

  /** The current attempt of a group: the selected one, or the only root. */
  ghost predicate Accepts(group: seq<Record>, selector: Option<Node>, root: Record, sink: Record) {
    && OnlyRoot(group, root) && OnlySink(group, sink)
    && (selector.Some? ==> selector.value == root.id)
  }

  datatype Selected = Selected(current: Record, corrected: Record, lineage: seq<Record>)

  /** The index restricted to one key holds exactly its group. */
  ghost predicate GroupIndex(group: seq<Record>, key: Key, byId: map<Node, Record>) {
    && (forall id :: id in byId && byId[id].key == key ==> byId[id] in group && byId[id].id == id)
    && (forall r :: r in group ==> r.id in byId && byId[r.id] == r && r.key == key)
  }

  /** The selected root, or the only root when none is selected. */
  ghost predicate Picks(group: seq<Record>, selector: Option<Node>, c: Record) {
    c in group && c.parent.None? && if selector.Some? then c.id == selector.value else OnlyRoot(group, c)
  }

  method PickCurrent(group: seq<Record>, key: Key, selector: Option<Node>, byId: map<Node, Record>)
    returns (r: Result<Record, LedgerError>)
    requires DistinctIds(group)
    requires GroupIndex(group, key, byId)
    ensures r.Ok? <==> exists c :: Picks(group, selector, c)
    ensures r.Ok? ==> Picks(group, selector, r.value)
  {
    match selector {
      case None =>
        var roots := Filter(group, (r: Record) => r.parent.None?);
        FilterSingle(group, (r: Record) => r.parent.None?);
        if |roots| != 1 {
          return Err(AmbiguousRoot);
        }
        assert OnlyRoot(group, roots[0]);
        assert Picks(group, selector, roots[0]);
        return Ok(roots[0]);
      case Some(id) =>
        if id !in byId || byId[id].key != key || byId[id].parent.Some? {
          return Err(BadSelector);
        }
        assert Picks(group, selector, byId[id]);
        return Ok(byId[id]);
    }
  }

  method PickCorrected(group: seq<Record>, children: map<Node, set<Node>>) returns (r: Result<Record, LedgerError>)
    requires DistinctIds(group) && GroupChildren(group, children)
    ensures r.Ok? <==> exists sink :: OnlySink(group, sink)
    ensures r.Ok? ==> OnlySink(group, r.value)
  {
    hide OnlySink;
    var sinks := Filter(group, (r: Record) => Next(children, r.id) == {});
    SinksAre(group, children);
    if |sinks| != 1 {
      return Err(AmbiguousSink);
    }
    return Ok(sinks[0]);
  }

  /**
    One group: the current attempt, the corrected attempt and the lineage between them.
    It is accepted exactly when it has one root, which any selector names, and one sink.
   */
  method Select(group: seq<Record>, key: Key, selector: Option<Node>, l: Links, ghost rank: map<Node, nat>)
    returns (r: Result<Selected, LedgerError>, ghost depth: map<Node, nat>)
    requires GroupInputs(group, rank, l)
    requires GroupIndex(group, key, l.byId)
    ensures r.Ok? <==> exists root, sink :: Accepts(group, selector, root, sink)
    ensures r.Ok? ==> Accepts(group, selector, r.value.current, r.value.corrected)
    ensures r.Ok? ==> IsLineage(group, r.value.lineage, r.value.current, r.value.corrected)
    ensures r.Ok? ==> FullDepth(group, depth) && HasDepths(group, depth) && r.value.lineage == SortByDepth(group, depth)
  {
    InputsGive(group, rank, l);
    hide SortByDepth, GroupChildren, LinksOk, IsLineage, OnlyRoot, OnlySink, GroupIndex, GroupInputs, FullDepth,
         HasDepths, ChildSet, DistinctIds;
    depth := map[];
    var current := PickCurrent(group, key, selector, l.byId);
    if current.Err? {
      AcceptedPicks(group, selector);
      return Err(current.error), depth;
    }
    var corrected := PickCorrected(group, l.children);
    if corrected.Err? {
      return Err(corrected.error), depth;
    }
    var ordered;
    ordered, depth := Order(group, current.value, l, rank);
    if ordered.Err? {
      CurrentIsRoot(group, selector, current.value);
      return Err(ordered.error), depth;
    }
    LineageTheorem(group, depth, current.value, corrected.value);
    assert Accepts(group, selector, current.value, corrected.value);
    return Ok(Selected(current.value, corrected.value, ordered.value)), depth;
  }

  lemma {:induction false} InputsGive(group: seq<Record>, rank: map<Node, nat>, l: Links)
    requires GroupInputs(group, rank, l)
    ensures LinksOk(group) && DistinctIds(group) && GroupChildren(group, l.children)
  {
  }

  lemma {:induction false} AcceptedPicks(group: seq<Record>, selector: Option<Node>)
    ensures forall root, sink :: Accepts(group, selector, root, sink) ==> Picks(group, selector, root)
  {
  }

  lemma {:induction false} CurrentIsRoot(group: seq<Record>, selector: Option<Node>, current: Record)
    requires current in group && current.parent.None?
    ensures forall root, sink :: Accepts(group, selector, root, sink) ==> root == current
  {
  }

  lemma {:induction false} SinksAre(group: seq<Record>, children: map<Node, set<Node>>)
    requires DistinctIds(group) && GroupChildren(group, children)
    ensures var sinks := Filter(group, (r: Record) => Next(children, r.id) == {});
            && (|sinks| == 1 <==> exists sink :: OnlySink(group, sink))
            && (|sinks| == 1 ==> OnlySink(group, sinks[0]))
  {
    var keep := (r: Record) => Next(children, r.id) == {};
    FilterSingle(group, keep);
    forall r | r in group
      ensures keep(r) <==> ChildSet(group, r.id) == {}
    {
    }
    forall s
      ensures Only(group, keep, s) <==> OnlySink(group, s)
    {
    }
  }
}
