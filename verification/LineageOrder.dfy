/**
  How the lineage and its score depend on the raw order of the records
  (scripts/cross_file_corrected_ledger.py, lines 545-570 and 680-715).
 */
module LineageOrder {
  import opened Wrappers
  import opened QualityPoints
  import opened LedgerGraph
  import opened LedgerLinks
  import opened Lineage
  import opened OrderedLineage

  function Entries(records: seq<Record>): seq<RoundEntry> {
    if records == [] then [] else Entries(records[..|records| - 1]) + [records[|records| - 1].entry]
  }

  /** The last record of a quality round. */
  function LatestFor(records: seq<Record>, round: int): Option<Record> {
    if records == [] then None
    else
      var n := |records| - 1;
      if records[n].entry.round == Some(round) then Some(records[n]) else LatestFor(records[..n], round)
  }

  lemma {:induction false} LatestEntry(records: seq<Record>, round: int)
    ensures Latest(Entries(records), round)
         == if LatestFor(records, round).Some? then Some(LatestFor(records, round).value.entry) else None
  {
    if records != [] {
      var n := |records| - 1;
      LatestEntry(records[..n], round);
      assert Entries(records)[..|Entries(records)| - 1] == Entries(records[..n]);
    }
  }

  lemma {:induction false} LatestBelongs(records: seq<Record>, round: int)
    ensures LatestFor(records, round).Some? ==>
              LatestFor(records, round).value in records && LatestFor(records, round).value.entry.round == Some(round)
  {
    if records != [] {
      LatestBelongs(records[..|records| - 1], round);
    }
  }

  // ----- The latest record of a round after sorting -------------------------

  lemma {:induction false} LatestSnoc(front: seq<Record>, r: Record, round: int)
    ensures LatestFor(front + [r], round) == if r.entry.round == Some(round) then Some(r) else LatestFor(front, round)
  {
    assert (front + [r])[..|front|] == front;
  }

  lemma {:induction false} InsertLatest(s: seq<Record>, r: Record, depth: map<Node, nat>, round: int)
    requires HasDepths(s, depth) && r.id in depth && Sorted(s, depth)
    ensures var before := LatestFor(s, round);
            LatestFor(Insert(s, r, depth), round) ==
            if r.entry.round == Some(round)
              && (before.None? || before.value.id !in depth || depth[before.value.id] <= depth[r.id])
            then Some(r) else before
  {
    LatestDepth(s, depth, round);
    hide LatestFor, Sorted, HasDepths;
    if s == [] || depth[s[|s| - 1].id] <= depth[r.id] {
      LatestSnoc(s, r, round);
      assert Insert(s, r, depth) == s + [r];
    } else {
      var n := |s| - 1;
      PrefixKeeps(s, n, depth);
      InsertLatest(s[..n], r, depth, round);
      LatestSnoc(Insert(s[..n], r, depth), s[n], round);
      LatestSnoc(s[..n], s[n], round);
      assert s == s[..n] + [s[n]];
    }
  }

  /** No record of a sorted list is deeper than its last. */
  lemma {:induction false} LatestDepth(s: seq<Record>, depth: map<Node, nat>, round: int)
    requires HasDepths(s, depth) && Sorted(s, depth)
    ensures s != [] ==> s[|s| - 1].id in depth
    ensures var latest := LatestFor(s, round);
            latest.Some? ==> s != [] && latest.value.id in depth && depth[latest.value.id] <= depth[s[|s| - 1].id]
  {
    hide LatestFor;
    LatestBelongs(s, round);
    if s != [] {
      assert s[|s| - 1] in s;
      if LatestFor(s, round).Some? {
        var k :| 0 <= k < |s| && s[k] == LatestFor(s, round).value;
      }
    }
  }

  /** Nobody who reports the round is deeper. */
  ghost predicate Deepest(group: seq<Record>, depth: map<Node, nat>, round: int, x: Record)
    requires HasDepths(group, depth)
  {
    && x in group && x.entry.round == Some(round)
    && forall r :: r in group && r.entry.round == Some(round) ==> depth[r.id] <= depth[x.id]
  }

  /** The latest record of a round is a deepest one; there is none exactly if nobody reports the round. */
  ghost predicate LatestIsDeepest(group: seq<Record>, depth: map<Node, nat>, round: int, latest: Option<Record>)
    requires HasDepths(group, depth)
  {
    && (latest.Some? ==> Deepest(group, depth, round, latest.value))
    && (latest.None? ==> forall r :: r in group ==> r.entry.round != Some(round))
  }

  /** One more record replaces the latest one unless that is deeper. */
  lemma {:induction false} DeepestStep(group: seq<Record>, depth: map<Node, nat>, round: int, before: Option<Record>)
    requires group != [] && HasDepths(group, depth)
    requires LatestIsDeepest(group[..|group| - 1], depth, round, before)
    ensures var r := group[|group| - 1];
            var takes := r.entry.round == Some(round)
                         && (before.None? || before.value.id !in depth || depth[before.value.id] <= depth[r.id]);
            LatestIsDeepest(group, depth, round, if takes then Some(r) else before)
  {
    var n := |group| - 1;
    assert group[n] in group;
    assert forall r :: r in group <==> r in group[..n] || r == group[n] by {
      assert group == group[..n] + [group[n]];
    }
  }

  lemma {:induction false} DeepestIsLatest(group: seq<Record>, depth: map<Node, nat>, round: int)
    requires HasDepths(group, depth)
    ensures LatestIsDeepest(group, depth, round, LatestFor(SortByDepth(group, depth), round))
  {
    if group == [] {
      assert SortByDepth(group, depth) == [];
    } else {
      var n := |group| - 1;
      var front := group[..n];
      assert HasDepths(front, depth) && group[n] in group;
      DeepestIsLatest(front, depth, round);
      SortSorts(front, depth);
      var sorted := SortByDepth(front, depth);
      assert SortByDepth(group, depth) == Insert(sorted, group[n], depth);
      hide Insert, LatestFor, Sorted, SortByDepth, LatestIsDeepest, HasDepths;
      InsertLatest(sorted, group[n], depth, round);
      DeepestStep(group, depth, round, LatestFor(sorted, round));
    }
  }

  /** A deepest record that comes last in the raw order is the one that counts. */
  lemma {:induction false} LastDeepestWins(front: seq<Record>, x: Record, depth: map<Node, nat>, round: int)
    requires HasDepths(front + [x], depth) && Deepest(front + [x], depth, round, x)
    ensures LatestFor(SortByDepth(front + [x], depth), round) == Some(x)
  {
    assert x in front + [x];
    assert forall r :: r in front ==> r in front + [x];
    assert (front + [x])[..|front|] == front;
    SortSorts(front, depth);
    DeepestIsLatest(front, depth, round);
    InsertLatest(SortByDepth(front, depth), x, depth, round);
  }

  // ----- Scores under rearrangement -----------------------------------------

  ghost predicate Rearranges(group: seq<Record>, p: seq<Record>) {
    multiset(p) == multiset(group)
  }

  lemma {:induction false} RearrangedDepths(group: seq<Record>, p: seq<Record>, depth: map<Node, nat>)
    requires Rearranges(group, p) && HasDepths(group, depth)
    ensures HasDepths(p, depth)
    ensures forall round, x :: Deepest(p, depth, round, x) <==> Deepest(group, depth, round, x)
  {
    forall r
      ensures r in p <==> r in group
    {
      SameMembers(group, p, r);
    }
  }

  lemma {:induction false} MoveToEnd(group: seq<Record>, x: Record) returns (front: seq<Record>)
    requires x in group
    ensures Rearranges(group, front + [x])
  {
    var k :| 0 <= k < |group| && group[k] == x;
    front := group[..k] + group[k + 1..];
    assert group == group[..k] + [x] + group[k + 1..];
  }

  function SortedScore(group: seq<Record>, depth: map<Node, nat>): int
    requires HasDepths(group, depth)
  {
    LedgerScore(Entries(SortByDepth(group, depth)))
  }

  ghost predicate SameScore(group: seq<Record>, p: seq<Record>, depth: map<Node, nat>)
    requires HasDepths(group, depth)
  {
    HasDepths(p, depth) && SortedScore(p, depth) == SortedScore(group, depth)
  }

  /** Some deepest record of the round passes. */
  ghost predicate MayPass(group: seq<Record>, depth: map<Node, nat>, round: int)
    requires HasDepths(group, depth)
  {
    exists x :: Deepest(group, depth, round, x) && x.entry.passed
  }

  ghost predicate MustPass(group: seq<Record>, depth: map<Node, nat>, round: int)
    requires HasDepths(group, depth)
  {
    forall x :: Deepest(group, depth, round, x) ==> x.entry.passed
  }

  /** The first round that may pass must pass. */
  ghost predicate Settled(group: seq<Record>, depth: map<Node, nat>)
    requires HasDepths(group, depth)
  {
    forall n :: 1 <= n <= 3 && MayPass(group, depth, n) && (forall m :: 1 <= m < n ==> !MayPass(group, depth, m))
      ==> MustPass(group, depth, n)
  }

  /** Whether the round's latest record passes in one raw order, against what it may or must do in any. */
  lemma {:induction false} PassRange(group: seq<Record>, p: seq<Record>, depth: map<Node, nat>, round: int)
    requires HasDepths(group, depth) && HasDepths(p, depth) && Rearranges(group, p)
    ensures LatestPasses(Entries(SortByDepth(p, depth)), round) ==> MayPass(group, depth, round)
    ensures MayPass(group, depth, round) && MustPass(group, depth, round)
        ==> LatestPasses(Entries(SortByDepth(p, depth)), round)
  {
    hide SortByDepth, Deepest;
    RearrangedDepths(group, p, depth);
    DeepestIsLatest(p, depth, round);
    LatestEntry(SortByDepth(p, depth), round);
    if MayPass(group, depth, round) {
      var x :| Deepest(group, depth, round, x) && x.entry.passed;
      RoundReported(p, depth, round, x);
    }
  }

  lemma {:induction false} RoundReported(p: seq<Record>, depth: map<Node, nat>, round: int, x: Record)
    requires HasDepths(p, depth) && Deepest(p, depth, round, x)
    ensures x in p && x.entry.round == Some(round)
  {
  }

  /** The first round that may pass. */
  ghost function FirstMay(group: seq<Record>, depth: map<Node, nat>): Option<int>
    requires HasDepths(group, depth)
  {
    if MayPass(group, depth, 1) then Some(1)
    else if MayPass(group, depth, 2) then Some(2)
    else if MayPass(group, depth, 3) then Some(3)
    else None
  }

  lemma {:induction false} SettledFirstPass(group: seq<Record>, p: seq<Record>, depth: map<Node, nat>)
    requires HasDepths(group, depth) && HasDepths(p, depth) && Rearranges(group, p) && Settled(group, depth)
    ensures LedgerFirstPass(Entries(SortByDepth(p, depth))) == FirstMay(group, depth)
  {
    hide SortByDepth, LatestPasses, MayPass, MustPass;
    PassRange(group, p, depth, 1);
    PassRange(group, p, depth, 2);
    PassRange(group, p, depth, 3);
    assert MayPass(group, depth, 1) ==> MustPass(group, depth, 1);
  }

  lemma {:induction false} SettledScore(group: seq<Record>, p: seq<Record>, depth: map<Node, nat>)
    requires HasDepths(group, depth) && Rearranges(group, p) && Settled(group, depth)
    ensures SameScore(group, p, depth)
  {
    RearrangedDepths(group, p, depth);
    hide SortByDepth, LatestPasses, Settled, Deepest;
    SettledFirstPass(group, group, depth);
    SettledFirstPass(group, p, depth);
  }

  /** Putting a deepest record of the round last makes the round pass or fail with it. */
  lemma {:induction false} Decide(group: seq<Record>, depth: map<Node, nat>, n: int, x: Record) returns (p: seq<Record>)
    requires HasDepths(group, depth) && 1 <= n <= 3 && Deepest(group, depth, n, x)
    requires forall m :: 1 <= m < n ==> !MayPass(group, depth, m)
    ensures Rearranges(group, p) && HasDepths(p, depth)
    ensures SortedScore(p, depth) == Points(n) <==> x.entry.passed
  {
    hide SortByDepth, MayPass;
    var front := MoveToEnd(group, x);
    p := front + [x];
    RearrangedDepths(group, p, depth);
    LastDeepestWins(front, x, depth, n);
    LatestEntry(SortByDepth(p, depth), n);
    forall m | 1 <= m < n
      ensures !LatestPasses(Entries(SortByDepth(p, depth)), m)
    {
      PassRange(group, p, depth, m);
    }
  }

  /** The score is the same for every raw order exactly when the first round that may pass must pass. */
  lemma {:induction false} ScoreOrderIndependence(group: seq<Record>, depth: map<Node, nat>)
    requires HasDepths(group, depth)
    ensures (forall p :: Rearranges(group, p) ==> SameScore(group, p, depth)) <==> Settled(group, depth)
  {
    if Settled(group, depth) {
      forall p | Rearranges(group, p)
        ensures SameScore(group, p, depth)
      {
        SettledScore(group, p, depth);
      }
    } else {
      var n :| 1 <= n <= 3 && MayPass(group, depth, n) && (forall m :: 1 <= m < n ==> !MayPass(group, depth, m))
               && !MustPass(group, depth, n);
      var x :| Deepest(group, depth, n, x) && x.entry.passed;
      var y :| Deepest(group, depth, n, y) && !y.entry.passed;
      hide Settled, MayPass, MustPass, Deepest, SortedScore, Rearranges;
      var p := Decide(group, depth, n, x);
      var q := Decide(group, depth, n, y);
      assert !(SameScore(group, p, depth) && SameScore(group, q, depth));
    }
  }

  // ----- Lineages under rearrangement ---------------------------------------

  ghost predicate DistinctDepths(group: seq<Record>, depth: map<Node, nat>)
    requires HasDepths(group, depth)
  {
    forall a, b :: a in group && b in group && depth[a.id] == depth[b.id] ==> a == b
  }

  ghost predicate SameOrder(group: seq<Record>, p: seq<Record>, depth: map<Node, nat>)
    requires HasDepths(group, depth)
  {
    HasDepths(p, depth) && SortByDepth(p, depth) == SortByDepth(group, depth)
  }

  lemma {:induction false} PeelLast(s: seq<Record>, t: seq<Record>)
    requires multiset(s) == multiset(t) && s != [] && t != [] && s[|s| - 1] == t[|t| - 1]
    ensures multiset(s[..|s| - 1]) == multiset(t[..|t| - 1])
  {
    SplitsLast(s);
    SplitsLast(t);
    assert multiset(s[..|s| - 1]) == multiset(s) - multiset{s[|s| - 1]};
    assert multiset(t[..|t| - 1]) == multiset(t) - multiset{t[|t| - 1]};
  }

  lemma {:induction false} PrefixKeeps(s: seq<Record>, n: nat, depth: map<Node, nat>)
    requires HasDepths(s, depth) && n <= |s|
    ensures HasDepths(s[..n], depth)
    ensures Sorted(s, depth) ==> Sorted(s[..n], depth)
    ensures DistinctDepths(s, depth) ==> DistinctDepths(s[..n], depth)
  {
  }

  lemma {:induction false} SortedUnique(s: seq<Record>, t: seq<Record>, depth: map<Node, nat>)
    requires multiset(s) == multiset(t) && HasDepths(s, depth) && HasDepths(t, depth)
    requires Sorted(s, depth) && Sorted(t, depth) && DistinctDepths(s, depth)
    ensures s == t
  {
    assert |multiset(s)| == |s| && |multiset(t)| == |t|;
    if s != [] {
      hide HasDepths, Sorted, DistinctDepths;
      SameLast(s, t, depth);
      PeelLast(s, t);
      var n := |s| - 1;
      PrefixKeeps(s, n, depth);
      PrefixKeeps(t, n, depth);
      SortedUnique(s[..n], t[..n], depth);
      assert s == s[..n] + [s[n]] && t == t[..n] + [t[n]];
    }
  }

  lemma {:induction false} SameLast(s: seq<Record>, t: seq<Record>, depth: map<Node, nat>)
    requires multiset(s) == multiset(t) && HasDepths(s, depth) && HasDepths(t, depth) && s != [] && t != []
    requires Sorted(s, depth) && Sorted(t, depth) && DistinctDepths(s, depth)
    ensures s[|s| - 1] == t[|t| - 1]
  {
    var x, y := s[|s| - 1], t[|t| - 1];
    SameMembers(s, t, x);
    SameMembers(s, t, y);
    var i :| 0 <= i < |t| && t[i] == x;
    var j :| 0 <= j < |s| && s[j] == y;
    assert depth[x.id] <= depth[y.id] && depth[y.id] <= depth[x.id];
  }

  /** Everything after the record is strictly deeper. */
  ghost predicate TailDeeper(s: seq<Record>, r: Record, depth: map<Node, nat>)
    requires HasDepths(s, depth) && r.id in depth
  {
    exists j :: 0 <= j < |s| && s[j] == r && forall k :: j < k < |s| ==> depth[s[k].id] > depth[r.id]
  }

  lemma {:induction false} InsertTail(s: seq<Record>, r: Record, depth: map<Node, nat>)
    requires HasDepths(s, depth) && r.id in depth
    ensures TailDeeper(Insert(s, r, depth), r, depth)
  {
    if s == [] || depth[s[|s| - 1].id] <= depth[r.id] {
      assert Insert(s, r, depth)[|s|] == r;
    } else {
      var n := |s| - 1;
      InsertTail(s[..n], r, depth);
      var inner := Insert(s[..n], r, depth);
      var j :| 0 <= j < |inner| && inner[j] == r && forall k :: j < k < |inner| ==> depth[inner[k].id] > depth[r.id];
      assert Insert(s, r, depth)[j] == r;
    }
  }

  lemma {:induction false} LastIsTail(group: seq<Record>, depth: map<Node, nat>, x: Record) returns (p: seq<Record>)
    requires HasDepths(group, depth) && x in group
    ensures Rearranges(group, p) && HasDepths(p, depth) && TailDeeper(SortByDepth(p, depth), x, depth)
  {
    var front := MoveToEnd(group, x);
    p := front + [x];
    RearrangedDepths(group, p, depth);
    assert forall r :: r in front ==> r in p;
    assert p[..|front|] == front;
    InsertTail(SortByDepth(front, depth), x, depth);
  }

  lemma {:induction false} TailsDiffer(s: seq<Record>, a: Record, b: Record, depth: map<Node, nat>)
    requires HasDepths(s, depth) && a.id in depth && b.id in depth && depth[a.id] == depth[b.id]
    requires TailDeeper(s, a, depth) && TailDeeper(s, b, depth)
    ensures a == b
  {
    var i :| 0 <= i < |s| && s[i] == a && forall k :: i < k < |s| ==> depth[s[k].id] > depth[a.id];
    var j :| 0 <= j < |s| && s[j] == b && forall k :: j < k < |s| ==> depth[s[k].id] > depth[b.id];
    assert i == j;
  }

  /** The lineage is the same for every raw order exactly when no two attempts share a depth, as in a chain. */
  lemma {:induction false} LineageOrderIndependence(group: seq<Record>, depth: map<Node, nat>)
    requires HasDepths(group, depth)
    ensures (forall p :: Rearranges(group, p) ==> SameOrder(group, p, depth)) <==> DistinctDepths(group, depth)
  {
    hide SortByDepth, Sorted, TailDeeper;
    SortSorts(group, depth);
    SortPermutes(group, depth);
    if DistinctDepths(group, depth) {
      forall p | Rearranges(group, p)
        ensures SameOrder(group, p, depth)
      {
        RearrangedDepths(group, p, depth);
        SortSorts(p, depth);
        SortPermutes(p, depth);
        SortedDistinct(group, depth);
        SortedUnique(SortByDepth(group, depth), SortByDepth(p, depth), depth);
      }
    } else {
      var a, b :| a in group && b in group && depth[a.id] == depth[b.id] && a != b;
      var p := LastIsTail(group, depth, a);
      var q := LastIsTail(group, depth, b);
      if SameOrder(group, p, depth) && SameOrder(group, q, depth) {
        TailsDiffer(SortByDepth(group, depth), a, b, depth);
      }
    }
  }

  lemma {:induction false} SortedDistinct(group: seq<Record>, depth: map<Node, nat>)
    requires HasDepths(group, depth) && DistinctDepths(group, depth)
    ensures DistinctDepths(SortByDepth(group, depth), depth)
  {
    hide SortByDepth;
    SortPermutes(group, depth);
    forall r
      ensures r in SortByDepth(group, depth) <==> r in group
    {
      SameMembers(SortByDepth(group, depth), group, r);
    }
  }

  /** A chain is settled. */
  lemma {:induction false} ChainIsSettled(group: seq<Record>, depth: map<Node, nat>)
    requires HasDepths(group, depth) && DistinctDepths(group, depth)
    ensures Settled(group, depth)
  {
    forall n | MayPass(group, depth, n)
      ensures MustPass(group, depth, n)
    {
      var x :| Deepest(group, depth, n, x) && x.entry.passed;
      forall y | Deepest(group, depth, n, y)
        ensures y.entry.passed
      {
        assert depth[x.id] == depth[y.id];
      }
    }
  }

  // ----- The choice of current and corrected attempts -----------------------

  lemma {:induction false} DistinctStep(records: seq<Record>)
    requires records != []
    ensures var front, last := records[..|records| - 1], records[|records| - 1];
            && Ids(records) == Ids(front) + {last.id}
            && (DistinctIds(records) <==> DistinctIds(front) && last.id !in Ids(front))
  {
    var n := |records| - 1;
    assert records == records[..n] + [records[n]];
    forall k | 0 <= k < n
      ensures records[k].id in Ids(records[..n])
    {
      assert records[..n][k] in records[..n];
    }
    if records[n].id in Ids(records[..n]) {
      var r :| r in records[..n] && r.id == records[n].id;
      var k :| 0 <= k < n && records[..n][k] == r;
      assert records[k].id == records[n].id;
    }
  }

  lemma {:induction false} DistinctByCount(records: seq<Record>)
    ensures |Ids(records)| <= |records|
    ensures DistinctIds(records) <==> |Ids(records)| == |records|
  {
    if records == [] {
      assert Ids(records) == {};
    } else {
      DistinctByCount(records[..|records| - 1]);
      DistinctStep(records);
      hide Ids, DistinctIds;
    }
  }

  ghost predicate SameSet(a: seq<Record>, b: seq<Record>) {
    forall r :: r in a <==> r in b
  }

  lemma {:induction false} RearrangedSet(a: seq<Record>, b: seq<Record>)
    requires Rearranges(a, b)
    ensures SameSet(a, b) && Ids(a) == Ids(b) && (DistinctIds(a) <==> DistinctIds(b))
  {
    forall r
      ensures r in a <==> r in b
    {
      SameMembers(a, b, r);
    }
    assert |multiset(a)| == |a| && |multiset(b)| == |b|;
    DistinctByCount(a);
    DistinctByCount(b);
  }

  lemma {:induction false} RearrangedLinks(a: seq<Record>, b: seq<Record>)
    requires SameSet(a, b) && (DistinctIds(a) <==> DistinctIds(b))
    ensures LinksOk(a) <==> LinksOk(b)
    ensures forall id :: ChildSet(a, id) == ChildSet(b, id)
  {
    hide DistinctIds, LinkShape;
    forall r | r in a
      ensures RecordOk(a, r) <==> RecordOk(b, r)
    {
      forall t
        ensures TargetOk(a, r, t) <==> TargetOk(b, r, t)
      {
      }
    }
    forall id
      ensures ChildSet(a, id) == ChildSet(b, id)
    {
    }
  }

  lemma {:induction false} RearrangedPreds(a: seq<Record>, b: seq<Record>)
    requires SameSet(a, b) && Ids(a) == Ids(b) && DistinctIds(a) && DistinctIds(b)
    ensures Preds(a) == Preds(b)
  {
    hide DistinctIds, Preds;
    PredsAre(a);
    PredsAre(b);
    forall v | v in Preds(a)
      ensures Preds(a)[v] == Preds(b)[v]
    {
      var r :| r in a && r.id == v;
    }
  }

  lemma {:induction false} FilterCounts(records: seq<Record>, keep: Record -> bool, x: Record)
    ensures multiset(Filter(records, keep))[x] == if keep(x) then multiset(records)[x] else 0
  {
    if records != [] {
      var n := |records| - 1;
      FilterCounts(records[..n], keep, x);
      SplitsLast(records);
      assert keep(records[n]) ==>
          multiset(Filter(records, keep)) == multiset(Filter(records[..n], keep)) + multiset{records[n]};
    }
  }

  lemma {:induction false} RearrangedGroup(a: seq<Record>, b: seq<Record>, key: Key)
    requires Rearranges(a, b)
    ensures Rearranges(Group(a, key), Group(b, key))
  {
    hide Filter;
    var keep := (r: Record) => r.key == key;
    forall x
      ensures multiset(Group(a, key))[x] == multiset(Group(b, key))[x]
    {
      FilterCounts(a, keep, x);
      FilterCounts(b, keep, x);
    }
  }

  /** Reordering the raw records changes neither what is accepted nor the current and corrected attempts. */
  lemma {:induction false} ChoiceOrderIndependence(a: seq<Record>, b: seq<Record>, key: Key, selector: Option<Node>,
                                                   root: Record, sink: Record)
    requires Rearranges(a, b)
    ensures SoundLinks(a) <==> SoundLinks(b)
    ensures Accepts(Group(a, key), selector, root, sink) <==> Accepts(Group(b, key), selector, root, sink)
  {
    RearrangedGroup(a, b, key);
    RearrangedSet(a, b);
    RearrangedSet(Group(a, key), Group(b, key));
    hide Rearranges, Group, DistinctIds, HasCycle;
    RearrangedLinks(a, b);
    RearrangedLinks(Group(a, key), Group(b, key));
    hide LinksOk;
    if LinksOk(a) {
      UniqueIds(a);
      UniqueIds(b);
      RearrangedPreds(a, b);
    }
  }

  lemma {:induction false} DepthsAgree(g: Graph, rank: map<Node, nat>, da: map<Node, nat>, db: map<Node, nat>)
    requires Ranked(g, g.Keys, rank) && Depths(g, da) && Depths(g, db) && da.Keys == db.Keys
    ensures da == db
  {
    hide Depths, Ranked;
    forall v | v in da
      ensures da[v] == db[v]
    {
      DepthUnique(g, rank, da, db, v);
    }
  }

  lemma {:induction false} SamePreds(a: seq<Record>, b: seq<Record>)
    requires Rearranges(a, b) && LinksOk(a)
    ensures Preds(a) == Preds(b) && Ids(a) == Ids(b)
  {
    RearrangedSet(a, b);
    hide Rearranges, DistinctIds, Ids;
    UniqueIds(a);
    RearrangedPreds(a, b);
  }

  /** The depths of a group do not depend on the raw order either. */
  lemma {:induction false} DepthOrderIndependence(a: seq<Record>, b: seq<Record>, rank: map<Node, nat>,
                                                  da: map<Node, nat>, db: map<Node, nat>)
    requires Rearranges(a, b) && SoundGroup(a, rank) && FullDepth(a, da) && FullDepth(b, db)
    ensures da == db
  {
    hide Rearranges, LinksOk, Preds, Ids, Depths, Ranked;
    SamePreds(a, b);
    DepthsAgree(Preds(a), rank, da, db);
  }

  // ----- A diamond ----------------------------------------------------------

  ghost predicate Corrects(r: Record, key: Key, targets: seq<Node>)
    requires targets != []
  {
    r.key == key && r.parent == Some(targets[0]) && r.supersedes == targets
      && r.link == Some(Link(targets[0], r.evidence))
  }

  /** Two rival corrections of one root, joined by a third. */
  ghost predicate Diamond(group: seq<Record>, a: Record, b: Record, c: Record, d: Record) {
    && group == [a, b, c, d]
    && a.id != b.id && a.id != c.id && a.id != d.id && b.id != c.id && b.id != d.id && c.id != d.id
    && a.parent.None? && a.supersedes == [] && a.link.None?
    && Corrects(b, a.key, [a.id]) && Corrects(c, a.key, [a.id]) && Corrects(d, a.key, [b.id, c.id])
  }

  lemma {:induction false} DiamondMembers(group: seq<Record>, a: Record, b: Record, c: Record, d: Record)
    requires Diamond(group, a, b, c, d)
    ensures a in group && b in group && c in group && d in group && DistinctIds(group)
    ensures forall r :: r in group ==> r == a || r == b || r == c || r == d
    ensures Targets(a) == {} && Targets(b) == {a.id} && Targets(c) == {a.id} && Targets(d) == {b.id, c.id}
  {
    assert group[0] == a && group[1] == b && group[2] == c && group[3] == d;
  }

  lemma {:induction false} DiamondLinks(group: seq<Record>, a: Record, b: Record, c: Record, d: Record)
    requires Diamond(group, a, b, c, d)
    ensures LinksOk(group)
  {
    DiamondMembers(group, a, b, c, d);
    hide DistinctIds;
    assert TargetOk(group, b, a.id) && TargetOk(group, c, a.id) && TargetOk(group, d, b.id) && TargetOk(group, d, c.id);
    hide TargetOk;
    assert RecordOk(group, a) && RecordOk(group, b) && RecordOk(group, c) && RecordOk(group, d);
  }

  lemma {:induction false} DiamondDepthsOf(g: Graph, a: Node, b: Node, c: Node, d: Node, depth: map<Node, nat>)
    requires g.Keys == {a, b, c, d} == depth.Keys
    requires g[a] == {} && g[b] == {a} && g[c] == {a} && g[d] == {b, c}
    requires depth[a] == 0 && depth[b] == 1 && depth[c] == 1 && depth[d] == 2
    ensures Depths(g, depth)
  {
    assert b in g[d] && depth[d] == depth[b] + 1;
  }

  lemma {:induction false} DiamondDepths(group: seq<Record>, a: Record, b: Record, c: Record, d: Record,
                                         depth: map<Node, nat>)
    requires Diamond(group, a, b, c, d) && LinksOk(group)
    requires depth.Keys == {a.id, b.id, c.id, d.id}
    requires depth[a.id] == 0 && depth[b.id] == 1 && depth[c.id] == 1 && depth[d.id] == 2
    ensures FullDepth(group, depth)
  {
    DiamondMembers(group, a, b, c, d);
    LinksClosed(group);
    PredsAre(group);
    hide Diamond, Targets, Preds, DistinctIds, LinksOk;
    assert Ids(group) == {a.id, b.id, c.id, d.id};
    DiamondDepthsOf(Preds(group), a.id, b.id, c.id, d.id, depth);
  }

  lemma {:induction false} DiamondEnds(group: seq<Record>, a: Record, b: Record, c: Record, d: Record)
    requires Diamond(group, a, b, c, d)
    ensures Accepts(group, None, a, d)
  {
    DiamondMembers(group, a, b, c, d);
    assert a.id in b.supersedes && b.id in d.supersedes && c.id in d.supersedes;
    assert b.id in ChildSet(group, a.id) && d.id in ChildSet(group, b.id) && d.id in ChildSet(group, c.id);
    assert ChildSet(group, d.id) == {};
  }

  lemma {:induction false} DiamondUnsettled(group: seq<Record>, a: Record, b: Record, c: Record, d: Record,
                                            depth: map<Node, nat>)
    requires Diamond(group, a, b, c, d) && HasDepths(group, depth) && depth[b.id] == depth[c.id]
    requires a.entry.round.None? && d.entry.round.None?
    requires b.entry == RoundEntry(Some(1), true) && c.entry == RoundEntry(Some(1), false)
    ensures !Settled(group, depth)
  {
    DiamondMembers(group, a, b, c, d);
    assert Deepest(group, depth, 1, b) && Deepest(group, depth, 1, c);
    assert MayPass(group, depth, 1) && !MustPass(group, depth, 1);
  }

  /**
    An accepted ledger group whose score depends on the raw order: the rivals of a diamond tie in depth, one passes
    round 1 and the other fails it.
   */
  lemma {:induction false} DiamondScoresDiffer(group: seq<Record>, a: Record, b: Record, c: Record, d: Record,
                                               depth: map<Node, nat>)
    requires Diamond(group, a, b, c, d)
    requires depth.Keys == {a.id, b.id, c.id, d.id}
    requires depth[a.id] == 0 && depth[b.id] == 1 && depth[c.id] == 1 && depth[d.id] == 2
    requires a.entry.round.None? && d.entry.round.None?
    requires b.entry == RoundEntry(Some(1), true) && c.entry == RoundEntry(Some(1), false)
    ensures LinksOk(group) && FullDepth(group, depth) && Accepts(group, None, a, d)
    ensures HasDepths(group, depth) && exists p :: Rearranges(group, p) && !SameScore(group, p, depth)
  {
    hide Settled, LinksOk, Accepts, SameScore, Rearranges;
    DiamondLinks(group, a, b, c, d);
    DiamondDepths(group, a, b, c, d, depth);
    DiamondEnds(group, a, b, c, d);
    DepthsCover(group, depth);
    DiamondUnsettled(group, a, b, c, d, depth);
    ScoreOrderIndependence(group, depth);
  }
}
