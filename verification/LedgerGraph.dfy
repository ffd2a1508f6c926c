/**
  Graph searches of the corrected ledger (scripts/cross_file_corrected_ledger.py, lines 489-550):
  the visiting/visited cycle search, the reachability worklist and the memoised depth.
 */
module LedgerGraph {

  /** An attempt id. */
  datatype Node = Node(name: string)

  /** Edges from every node to its predecessors; all of them are nodes. */
  type Graph = g: map<Node, set<Node>> | Closed(g) witness map[]

  ghost predicate Closed(g: map<Node, set<Node>>) {
    forall v :: v in g ==> g[v] <= g.Keys
  }

  // ----- Cycles and ranks ---------------------------------------------------

  ghost predicate IsPath(g: Graph, p: seq<Node>) {
    && (forall i :: 0 <= i < |p| ==> p[i] in g)
    && (forall i :: 0 <= i < |p| - 1 ==> p[i + 1] in g[p[i]])
  }

  ghost predicate IsCycle(g: Graph, p: seq<Node>) {
    |p| >= 2 && IsPath(g, p) && p[0] == p[|p| - 1]
  }

  ghost predicate HasCycle(g: Graph) {
    exists p: seq<Node> :: IsCycle(g, p)
  }

  /** A rank that strictly falls along every edge out of `nodes`, which contain all their predecessors. */
  ghost predicate Ranked(g: Graph, nodes: set<Node>, rank: map<Node, nat>) {
    && nodes <= g.Keys && nodes <= rank.Keys
    && forall v, p :: v in nodes && p in g[v] ==> p in nodes && rank[p] < rank[v]
  }

  lemma {:induction false} RankFallsAlong(g: Graph, rank: map<Node, nat>, p: seq<Node>)
    requires Ranked(g, g.Keys, rank) && IsPath(g, p) && |p| >= 2
    ensures rank[p[|p| - 1]] < rank[p[0]]
  {
    var n := |p| - 1;
    assert p[n] in g[p[n - 1]];
    if n > 1 {
      RankFallsAlong(g, rank, p[..n]);
    }
  }

  lemma {:induction false} RankedIsAcyclic(g: Graph, rank: map<Node, nat>)
    requires Ranked(g, g.Keys, rank)
    ensures !HasCycle(g)
  {
    forall p: seq<Node> | |p| >= 2 && IsPath(g, p)
      ensures p[0] != p[|p| - 1]
    {
      RankFallsAlong(g, rank, p);
    }
  }

  /** Ranks that are finishing times: below the number of finished nodes. */
  ghost predicate Timed(g: Graph, nodes: set<Node>, rank: map<Node, nat>) {
    Ranked(g, nodes, rank) && forall v :: v in nodes ==> rank[v] < |nodes|
  }

  /** A node is being visited or has been visited, not both. */
  ghost predicate Apart(nodes: set<Node>, visiting: set<Node>, visited: set<Node>) {
    visiting <= nodes && visited !! visiting
  }

  lemma {:induction false} ApartEnters(nodes: set<Node>, visiting: set<Node>, visited: set<Node>, id: Node)
    requires Apart(nodes, visiting, visited) && id in nodes && id !in visited
    ensures Apart(nodes, visiting + {id}, visited)
  {
  }

  lemma {:induction false} ApartLeaves(nodes: set<Node>, visiting: set<Node>, visited: set<Node>, id: Node)
    requires Apart(nodes, visiting, visited) && id in visiting
    ensures id !in visited && Apart(nodes, visiting - {id}, visited + {id})
  {
  }

  /** The nested `visit` function with the two sets it shares. */
  class CycleSearch {
    const graph: Graph
    var visiting: set<Node>
    var visited: set<Node>
    ghost var rank: map<Node, nat>   // the finishing time of every visited node

    constructor (graph: Graph)
      ensures this.graph == graph && visiting == {} && visited == {} && Valid()
    {
      this.graph := graph;
      visiting := {};
      visited := {};
      rank := map[];
    }

    ghost predicate Valid()
      reads this
    {
      Apart(graph.Keys, visiting, visited) && Timed(graph, visited, rank)
    }

    /** Visit a node below the open path `trail`; false is the raised cycle error. */
    method Visit(id: Node, ghost trail: seq<Node>) returns (ok: bool)
      requires Valid() && id in graph
      requires IsPath(graph, trail + [id]) && OnTrail(visiting, trail)
      modifies this
      ensures Valid() || !ok
      ensures ok ==> visiting == old(visiting) && old(visited) + {id} <= visited
      ensures !ok ==> HasCycle(graph)
      decreases |graph.Keys - visiting|, 0
    {
      hide Timed, IsPath, HasCycle, OnTrail, Closed, Apart;
      if id in visiting {
        PathCloses(graph, visiting, trail, id);
        return false;
      }
      if id in visited {
        return true;
      }
      ghost var before := visiting;
      TrailGrows(before, trail, id);
      ApartEnters(graph.Keys, visiting, visited, id);
      ShrinksBy(graph.Keys - visiting, graph.Keys - (visiting + {id}), id);
      visiting := visiting + {id};
      assert graph[id] <= graph[(trail + [id])[|trail|]];
      ok := VisitAll(graph[id], trail + [id]);
      if ok {
        assert visiting - {id} == before;
        ApartLeaves(graph.Keys, visiting, visited, id);
        Finish(graph, visited, rank, id);
        visiting := visiting - {id};
        rank := rank[id := |visited|];
        visited := visited + {id};
      }
    }

    /** The loop over the predecessors of the last node of the trail, in any order. */
    method VisitAll(nodes: set<Node>, ghost trail: seq<Node>) returns (ok: bool)
      requires Valid() && trail != [] && trail[|trail| - 1] in graph && nodes <= graph[trail[|trail| - 1]]
      requires IsPath(graph, trail) && OnTrail(visiting, trail)
      modifies this
      ensures Valid() || !ok
      ensures ok ==> visiting == old(visiting) && old(visited) + nodes <= visited
      ensures !ok ==> HasCycle(graph)
      decreases |graph.Keys - visiting|, 1
    {
      hide Timed, IsPath, HasCycle, OnTrail, Apart;
      var todo := nodes;
      while todo != {}
        invariant Valid() && visiting == old(visiting) && old(visited) + (nodes - todo) <= visited && todo <= nodes
        decreases todo
      {
        var predecessor :| predecessor in todo;
        Extend(graph, trail, predecessor);
        var inner := Visit(predecessor, trail);
        if !inner {
          return false;
        }
        todo := todo - {predecessor};
      }
      return true;
    }
  }

  /** A node whose predecessors are all visited may be ranked above everything visited. */
  lemma {:induction false} Finish(g: Graph, visited: set<Node>, rank: map<Node, nat>, id: Node)
    requires Timed(g, visited, rank) && id in g && id !in visited && g[id] <= visited
    ensures Timed(g, visited + {id}, rank[id := |visited|])
  {
  }

  lemma {:induction false} Extend(g: Graph, p: seq<Node>, v: Node)
    requires IsPath(g, p) && p != [] && v in g[p[|p| - 1]]
    ensures IsPath(g, p + [v])
  {
  }

  lemma {:induction false} ShrinksBy(a: set<Node>, b: set<Node>, id: Node)
    requires id in a && b == a - {id}
    ensures |b| < |a|
  {
  }

  /** The nodes being visited are those on the open path. */
  ghost predicate OnTrail(visiting: set<Node>, trail: seq<Node>) {
    forall v :: v in visiting <==> v in trail
  }

  lemma {:induction false} TrailGrows(visiting: set<Node>, trail: seq<Node>, id: Node)
    requires OnTrail(visiting, trail)
    ensures OnTrail(visiting + {id}, trail + [id])
  {
  }

  lemma {:induction false} PathCloses(g: Graph, visiting: set<Node>, trail: seq<Node>, id: Node)
    requires IsPath(g, trail + [id]) && OnTrail(visiting, trail) && id in visiting
    ensures HasCycle(g)
  {
    var k :| 0 <= k < |trail| && trail[k] == id;
    assert IsCycle(g, (trail + [id])[k..]);
  }

  /** Run the search from every node: it raises exactly when the relation has a cycle. */
  method DetectCycle(g: Graph, order: seq<Node>) returns (ok: bool, ghost rank: map<Node, nat>)
    requires (set v | v in order) == g.Keys
    ensures ok <==> !HasCycle(g)
    ensures ok ==> Ranked(g, g.Keys, rank)
  {
    var search := new CycleSearch(g);
    rank := map[];
    for i := 0 to |order|
      invariant search.graph == g && search.visiting == {} && search.Valid()
      invariant forall j :: 0 <= j < i ==> order[j] in search.visited
    {
      assert order[i] in g;
      var inner := search.Visit(order[i], []);
      if !inner {
        return false, rank;
      }
    }
    rank := search.rank;
    assert search.visited == g.Keys;
    RankedIsAcyclic(g, rank);
    return true, rank;
  }

  // ----- Reachability -------------------------------------------------------

  /** The set holds the start, every successor of its members, and nothing that has no way in. */
  ghost predicate ReachableSet(children: map<Node, set<Node>>, start: Node, r: set<Node>) {
    && start in r
    && (forall v, c :: v in r && v in children && c in children[v] ==> c in r)
    && (forall v :: v in r ==> HasWayIn(children, start, r, v))
  }

  ghost predicate HasWayIn(children: map<Node, set<Node>>, start: Node, r: set<Node>, v: Node) {
    v == start || exists u :: u in r && u in children && v in children[u]
  }

  lemma {:induction false} WayInGrows(children: map<Node, set<Node>>, start: Node, r: set<Node>, id: Node)
    ensures forall v :: HasWayIn(children, start, r, v) ==> HasWayIn(children, start, r + {id}, v)
    ensures id in children ==> forall c :: c in children[id] ==> HasWayIn(children, start, r + {id}, c)
  {
    forall v | HasWayIn(children, start, r, v)
      ensures HasWayIn(children, start, r + {id}, v)
    {
      if v != start {
        var u :| u in r && u in children && v in children[u];
        assert u in r + {id};
      }
    }
    assert id in r + {id};
  }

  method PushAll(stack: seq<Node>, nodes: set<Node>) returns (result: seq<Node>)
    ensures forall v :: v in result <==> v in stack || v in nodes
  {
    result := stack;
    var todo := nodes;
    while todo != {}
      invariant todo <= nodes && forall v :: v in result <==> v in stack || v in nodes - todo
      decreases todo
    {
      var v :| v in todo;
      result := result + [v];
      todo := todo - {v};
    }
  }

  /** The worklist invariant: everything found or pending belongs, and nothing found leads outside. */
  ghost predicate Frontier(children: map<Node, set<Node>>, start: Node, nodes: set<Node>, r: set<Node>,
                           stack: seq<Node>) {
    && r <= nodes && (forall v :: v in stack ==> v in nodes)
    && (start in r || start in stack)
    && (forall v, c :: v in r && v in children && c in children[v] ==> c in r || c in stack)
    && (forall v :: v in r || v in stack ==> HasWayIn(children, start, r, v))
  }

  function Next(children: map<Node, set<Node>>, id: Node): set<Node> {
    if id in children then children[id] else {}
  }

  lemma {:induction false} FrontierSkips(children: map<Node, set<Node>>, start: Node, nodes: set<Node>, r: set<Node>,
                                         stack: seq<Node>)
    requires Frontier(children, start, nodes, r, stack) && stack != [] && stack[|stack| - 1] in r
    ensures Frontier(children, start, nodes, r, stack[..|stack| - 1])
  {
    hide HasWayIn;
    assert stack == stack[..|stack| - 1] + [stack[|stack| - 1]];
  }

  lemma {:induction false} FrontierExpands(children: map<Node, set<Node>>, start: Node, nodes: set<Node>, r: set<Node>,
                                           stack: seq<Node>, id: Node, pushed: seq<Node>)
    requires Frontier(children, start, nodes, r, stack) && stack != [] && id == stack[|stack| - 1]
    requires forall v, c :: v in nodes && v in children && c in children[v] ==> c in nodes
    requires forall v :: v in pushed <==> v in stack[..|stack| - 1] || v in Next(children, id)
    ensures Frontier(children, start, nodes, r + {id}, pushed)
  {
    hide HasWayIn;
    assert stack == stack[..|stack| - 1] + [id];
    WayInGrows(children, start, r, id);
  }

  /** The stack worklist from the current attempt. */
  method Reachable(children: map<Node, set<Node>>, start: Node, ghost nodes: set<Node>) returns (r: set<Node>)
    requires start in nodes && forall v, c :: v in nodes && v in children && c in children[v] ==> c in nodes
    ensures r <= nodes && ReachableSet(children, start, r)
  {
    r := {};
    var stack := [start];
    while stack != []
      invariant Frontier(children, start, nodes, r, stack)
      decreases |nodes - r|, |stack|
    {
      var id := stack[|stack| - 1];
      var rest := stack[..|stack| - 1];
      if id in r {
        FrontierSkips(children, start, nodes, r, stack);
        stack := rest;
      } else {
        assert id in nodes;
        hide Frontier;
        var pushed := PushAll(rest, Next(children, id));
        FrontierExpands(children, start, nodes, r, stack, id, pushed);
        ShrinksBy(nodes - r, nodes - (r + {id}), id);
        r, stack := r + {id}, pushed;
      }
    }
  }

  // ----- Depth --------------------------------------------------------------

  /** The longest distance from a node without predecessors, said relationally. */
  ghost predicate DepthOf(g: Graph, depth: map<Node, nat>, v: Node)
    requires v in g && v in depth && g[v] <= depth.Keys
  {
    && (forall p :: p in g[v] ==> depth[p] + 1 <= depth[v])
    && (depth[v] == 0 || exists p :: p in g[v] && depth[v] == depth[p] + 1)
  }

  ghost predicate Depths(g: Graph, depth: map<Node, nat>) {
    && depth.Keys <= g.Keys
    && forall v :: v in depth ==> g[v] <= depth.Keys && DepthOf(g, depth, v)
  }

  /** Depths are unique, so the memo cannot depend on the order it is filled in. */
  lemma {:induction false} DepthUnique(g: Graph, rank: map<Node, nat>, a: map<Node, nat>, b: map<Node, nat>, v: Node)
    requires Ranked(g, g.Keys, rank) && Depths(g, a) && Depths(g, b) && v in a && v in b
    ensures a[v] == b[v]
    decreases rank[v]
  {
    assert DepthOf(g, a, v) && DepthOf(g, b, v);
    forall p | p in g[v]
      ensures a[p] == b[p]
    {
      DepthUnique(g, rank, a, b, p);
    }
  }

  class DepthMemo {
    const graph: Graph
    var depth: map<Node, nat>

    constructor (graph: Graph)
      ensures this.graph == graph && depth == map[]
    {
      this.graph := graph;
      depth := map[];
    }

    method GetDepth(id: Node, ghost rank: map<Node, nat>) returns (d: nat)
      requires id in graph && Ranked(graph, graph.Keys, rank) && Depths(graph, depth)
      modifies this
      ensures Depths(graph, depth) && id in depth && depth[id] == d
      ensures Progress(old(depth), depth, rank, rank[id] + 1)
      decreases rank[id]
    {
      assert depth.Keys <= rank.Keys;
      hide Progress, Depths, MaxOver;
      ProgressSteps(depth, depth, depth, rank, rank[id], rank[id] + 1);
      if id in depth {
        return depth[id];
      }
      var todo := graph[id];
      d := 0;
      MaxOverEmpty(depth);
      ghost var start := depth;
      assert graph[id] - todo == {};
      while todo != {}
        invariant todo <= graph[id]
        invariant Depths(graph, depth) && Progress(start, depth, rank, rank[id])
        invariant MaxOver(depth, graph[id] - todo, d)
        decreases todo
      {
        var parent :| parent in todo;
        assert parent in graph && rank[parent] < rank[id];
        ghost var prior, done := depth, graph[id] - todo;
        var above := GetDepth(parent, rank);
        todo := todo - {parent};
        assert graph[id] - todo == done + {parent};
        ProgressSteps(start, prior, depth, rank, rank[parent] + 1, rank[id]);
        MaxOverGrows(prior, depth, done, d, parent, rank, rank[parent] + 1);
        if d < above + 1 {
          d := above + 1;
        }
      }
      assert graph[id] - todo == graph[id];
      ProgressEnds(start, depth, rank, id, d);
      DepthsAdd(graph, depth, id, d);
      depth := depth[id := d];
    }
  }

  /** Old entries stay and new ones have a rank below the bound. */
  ghost predicate Progress(a: map<Node, nat>, b: map<Node, nat>, rank: map<Node, nat>, bound: int) {
    && a.Keys <= b.Keys <= rank.Keys
    && forall v :: v in b ==> if v in a then b[v] == a[v] else rank[v] < bound
  }

  lemma {:induction false} ProgressSteps(a: map<Node, nat>, b: map<Node, nat>, c: map<Node, nat>, rank: map<Node, nat>,
                                         m: int, n: int)
    requires m <= n
    ensures Progress(a, b, rank, n) && Progress(b, c, rank, m) ==> Progress(a, c, rank, n)
    ensures a.Keys <= rank.Keys ==> Progress(a, a, rank, m) && Progress(a, a, rank, n)
  {
  }

  lemma {:induction false} ProgressEnds(a: map<Node, nat>, b: map<Node, nat>, rank: map<Node, nat>, id: Node, d: nat)
    requires id !in a && id in rank && Progress(a, b, rank, rank[id])
    ensures id !in b && Progress(a, b[id := d], rank, rank[id] + 1)
  {
  }

  /** One more than the greatest depth in the set, or 0 for the empty set. */
  ghost predicate MaxOver(depth: map<Node, nat>, nodes: set<Node>, d: nat) {
    && (forall p :: p in nodes ==> p in depth && depth[p] + 1 <= d)
    && (d == 0 || exists p :: p in nodes && p in depth && d == depth[p] + 1)
  }

  lemma {:induction false} MaxOverEmpty(depth: map<Node, nat>)
    ensures MaxOver(depth, {}, 0)
  {
  }

  lemma {:induction false} MaxOverGrows(prior: map<Node, nat>, depth: map<Node, nat>, nodes: set<Node>, d: nat, v: Node,
                                        rank: map<Node, nat>, bound: int)
    requires MaxOver(prior, nodes, d) && Progress(prior, depth, rank, bound) && v in depth
    ensures MaxOver(depth, nodes + {v}, if d < depth[v] + 1 then depth[v] + 1 else d)
  {
    var next := if d < depth[v] + 1 then depth[v] + 1 else d;
    if next == depth[v] + 1 {
      assert v in nodes + {v};
    } else {
      var p :| p in nodes && p in prior && d == prior[p] + 1;
      assert p in nodes + {v} && depth[p] == prior[p];
    }
  }

  lemma {:induction false} DepthsAdd(g: Graph, depth: map<Node, nat>, id: Node, d: nat)
    requires Depths(g, depth) && id in g && id !in depth && MaxOver(depth, g[id], d)
    ensures Depths(g, depth[id := d])
  {
    var next := depth[id := d];
    forall v | v in next
      ensures g[v] <= next.Keys && DepthOf(g, next, v)
    {
      if v != id {
        assert g[v] <= depth.Keys && DepthOf(g, depth, v);
      }
    }
  }
}
