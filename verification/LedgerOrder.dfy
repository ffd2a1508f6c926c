/**
  Two ledgers with the same records in different raw orders
  (scripts/cross_file_corrected_ledger.py, lines 545-550, 680-715 and 820-826): they are accepted alike, choose the same
  attempts and, if every group is settled, report the same totals.
 */
module LedgerOrder {
  import opened Wrappers
  import opened QualityPoints
  import opened LedgerGraph
  import opened LedgerLinks
  import opened Lineage
  import opened OrderedLineage
  import opened LineageOrder
  import opened LedgerTotals
  import opened CorrectedLedger

  // ----- Acceptance ---------------------------------------------------------

  lemma {:induction false} SameKeys(a: seq<Record>, b: seq<Record>)
    requires Rearranges(a, b)
    ensures Keys(a) == Keys(b) && (a == [] <==> b == [])
  {
    RearrangedSet(a, b);
    assert |multiset(a)| == |a| && |multiset(b)| == |b|;
    forall key
      ensures key in Keys(a) <==> key in Keys(b)
    {
    }
  }

  lemma {:induction false} SameGroupAccepted(a: seq<Record>, b: seq<Record>, selectors: map<Key, Node>, key: Key)
    requires Rearranges(a, b) && GroupAccepted(a, selectors, key)
    ensures GroupAccepted(b, selectors, key)
  {
    hide Rearranges, Accepts, Group;
    var root, sink :| Accepts(Group(a, key), Selector(selectors, key), root, sink);
    ChoiceOrderIndependence(a, b, key, Selector(selectors, key), root, sink);
    assert Accepts(Group(b, key), Selector(selectors, key), root, sink);
  }

  lemma {:induction false} AcceptedAlikeOneWay(a: seq<Record>, b: seq<Record>, selectors: map<Key, Node>)
    requires Rearranges(a, b) && Acceptable(a, selectors)
    ensures Acceptable(b, selectors)
  {
    SameKeys(a, b);
    SameSound(a, b);
    hide SoundLinks, GroupAccepted;
    forall key | key in Keys(b)
      ensures GroupAccepted(b, selectors, key)
    {
      SameGroupAccepted(a, b, selectors, key);
    }
  }

  lemma {:induction false} SameSound(a: seq<Record>, b: seq<Record>)
    requires Rearranges(a, b)
    ensures SoundLinks(a) <==> SoundLinks(b)
  {
    hide SoundLinks, Rearranges, Accepts;
    if a != [] {
      ChoiceOrderIndependence(a, b, a[0].key, None, a[0], a[0]);
    } else {
      assert |multiset(a)| == |a| && |multiset(b)| == |b| by { SameKeys(a, b); }
      SameKeys(a, b);
    }
  }

  /** Reordering the raw records does not change whether a ledger is accepted. */
  lemma {:induction false} AcceptedAlike(a: seq<Record>, b: seq<Record>, selectors: map<Key, Node>)
    requires Rearranges(a, b)
    ensures Acceptable(a, selectors) <==> Acceptable(b, selectors)
  {
    hide Acceptable;
    if Acceptable(a, selectors) {
      AcceptedAlikeOneWay(a, b, selectors);
    }
    if Acceptable(b, selectors) {
      AcceptedAlikeOneWay(b, a, selectors);
    }
  }

  // ----- Rows ---------------------------------------------------------------

  /** A settled group in every depth assignment, of which there is one. */
  ghost predicate GroupSettled(group: seq<Record>) {
    forall depth: map<Node, nat> :: FullDepth(group, depth) && HasDepths(group, depth) ==> Settled(group, depth)
  }

  lemma {:induction false} DepthIsRank(group: seq<Record>, depth: map<Node, nat>)
    requires LinksOk(group) && FullDepth(group, depth)
    ensures SoundGroup(group, depth)
  {
    hide LinksOk;
    UniqueIds(group);
    PredsAre(group);
    var g := Preds(group);
    forall v, p | v in g && p in g[v]
      ensures p in g && depth[p] < depth[v]
    {
      assert DepthOf(g, depth, v);
    }
  }

  /** Both rows of a key choose the same attempts. */
  lemma {:induction false} SameChoice(a: seq<Record>, b: seq<Record>, selectors: map<Key, Node>, x: Row, y: Row)
    requires Rearranges(a, b) && RowOf(a, selectors, x) && RowOf(b, selectors, y) && x.key == y.key
    ensures x.selected.current == y.selected.current && x.selected.corrected == y.selected.corrected
  {
    hide Rearranges, IsLineage, ByDepth, ViewOf, Group;
    ChoiceOrderIndependence(a, b, x.key, Selector(selectors, x.key), x.selected.current, x.selected.corrected);
  }

  lemma {:induction false} SameFirstPass(a: seq<Record>, b: seq<Record>, selectors: map<Key, Node>, x: Row, y: Row)
    requires Rearranges(a, b) && LinksOk(a) && RowOf(a, selectors, x) && RowOf(b, selectors, y) && x.key == y.key
    requires GroupSettled(Group(a, x.key))
    ensures LedgerFirstPass(Entries(x.selected.lineage)) == LedgerFirstPass(Entries(y.selected.lineage))
  {
    hide Rearranges, IsLineage, Accepts, ViewOf, Settled, FullDepth, HasDepths, SortByDepth, LinksOk, Group, Entries,
         LedgerFirstPass;
    var ga, gb := Group(a, x.key), Group(b, x.key);
    var da :| FullDepth(ga, da) && HasDepths(ga, da) && x.selected.lineage == SortByDepth(ga, da);
    var db :| FullDepth(gb, db) && HasDepths(gb, db) && y.selected.lineage == SortByDepth(gb, db);
    GroupLinks(a, x.key);
    DepthIsRank(ga, da);
    RearrangedGroup(a, b, x.key);
    DepthOrderIndependence(ga, gb, da, da, db);
    assert Settled(ga, da);
    RearrangesSelf(ga);
    SettledFirstPass(ga, ga, da);
    SettledFirstPass(ga, gb, da);
  }

  lemma {:induction false} RearrangesSelf(group: seq<Record>)
    ensures Rearranges(group, group)
  {
  }

  lemma {:induction false} SameParts(x: Row, y: Row, k: nat)
    requires k <= 3 && ViewOf(x.selected.lineage, x.view) && ViewOf(y.selected.lineage, y.view)
    requires LedgerFirstPass(Entries(x.selected.lineage)) == LedgerFirstPass(Entries(y.selected.lineage))
    ensures Part(x.view, k) == Part(y.view, k)
  {
    hide LedgerFirstPass, Entries, LatestFor;
    if k >= 1 {
      assert RoundOf(x.selected.lineage, x.view.firstPass, x.view.final, x.view.rounds, k - 1);
      assert RoundOf(y.selected.lineage, y.view.firstPass, y.view.final, y.view.rounds, k - 1);
    }
  }

  // ----- Totals -------------------------------------------------------------

  lemma {:induction false} TotalWithout(rows: seq<Row>, j: nat, k: nat)
    requires j < |rows|
    ensures Total(rows, k) == Total(Without(rows, j), k) + Part(rows[j].view, k)
  {
    var n := |rows| - 1;
    if j == n {
      assert rows[..j] + rows[j + 1..] == rows[..n];
    } else {
      TotalWithout(rows[..n], j, k);
      var rest := rows[..j] + rows[j + 1..];
      assert rest[..|rest| - 1] == rows[..n][..j] + rows[..n][j + 1..];
    }
  }

  ghost predicate SameValues(xs: seq<Row>, ys: seq<Row>, k: nat) {
    && (forall x :: x in xs ==> HasRow(ys, x.key)) && (forall y :: y in ys ==> HasRow(xs, y.key))
    && forall x, y :: x in xs && y in ys && x.key == y.key ==> Part(x.view, k) == Part(y.view, k)
  }

  function Without(rows: seq<Row>, j: nat): seq<Row>
    requires j < |rows|
  {
    rows[..j] + rows[j + 1..]
  }

  /** Leaving out one row leaves exactly the rows of the other keys. */
  lemma {:induction false} WithoutIs(rows: seq<Row>, j: nat)
    requires j < |rows| && DistinctKeys(rows)
    ensures DistinctKeys(Without(rows, j))
    ensures forall r :: r in Without(rows, j) <==> r in rows && r.key != rows[j].key
  {
    var rest := Without(rows, j);
    forall m | 0 <= m < |rest|
      ensures rest[m] == rows[if m < j then m else m + 1]
    {
    }
    forall r | r in rows && r.key != rows[j].key
      ensures r in rest
    {
      var i :| 0 <= i < |rows| && rows[i] == r;
      assert rest[if i < j then i else i - 1] == r;
    }
  }

  lemma {:induction false} OtherKeys(xs: seq<Row>, x: Row, key: Key, rest: seq<Row>)
    requires HasRow(xs, key) && x.key != key && forall r :: r in rest <==> r in xs && r.key != x.key
    ensures HasRow(rest, key)
  {
    var r :| r in xs && r.key == key;
    assert r in rest;
  }

  /** Leaving out the row of one key on both sides. */
  lemma {:induction false} DropKey(xs: seq<Row>, ys: seq<Row>, i: nat, j: nat, k: nat)
    requires DistinctKeys(xs) && DistinctKeys(ys) && SameValues(xs, ys, k)
    requires i < |xs| && j < |ys| && ys[j].key == xs[i].key
    ensures DistinctKeys(Without(xs, i)) && DistinctKeys(Without(ys, j))
            && SameValues(Without(xs, i), Without(ys, j), k)
  {
    hide DistinctKeys, Without, HasRow;
    WithoutIs(xs, i);
    WithoutIs(ys, j);
    forall x | x in Without(xs, i)
      ensures HasRow(Without(ys, j), x.key)
    {
      OtherKeys(ys, ys[j], x.key, Without(ys, j));
    }
    forall y | y in Without(ys, j)
      ensures HasRow(Without(xs, i), y.key)
    {
      OtherKeys(xs, xs[i], y.key, Without(xs, i));
    }
  }

  lemma {:induction false} SameTotals(xs: seq<Row>, ys: seq<Row>, k: nat)
    requires DistinctKeys(xs) && DistinctKeys(ys) && SameValues(xs, ys, k)
    ensures Total(xs, k) == Total(ys, k)
    decreases |xs|
  {
    if xs == [] {
      assert forall i :: 0 <= i < |ys| ==> ys[i] in ys;
    } else {
      var n := |xs| - 1;
      var x := xs[n];
      assert x in xs && HasRow(ys, x.key);
      var y :| y in ys && y.key == x.key;
      var j :| 0 <= j < |ys| && ys[j] == y;
      DropKey(xs, ys, n, j, k);
      SameTotals(Without(xs, n), Without(ys, j), k);
      TotalWithout(xs, n, k);
      TotalWithout(ys, j, k);
    }
  }

  /**
    Two reports on the same records in any two raw orders show the same current and corrected attempt for every
    instance and arm and, if every group is settled, the same totals.
   */
  lemma {:induction false} ReportsAgree(a: seq<Record>, b: seq<Record>, selectors: map<Key, Node>, ra: Report,
                                        rb: Report)
    requires Rearranges(a, b) && SoundLinks(a) && ReportOf(a, selectors, ra) && ReportOf(b, selectors, rb)
    ensures forall x, y :: x in ra.rows && y in rb.rows && x.key == y.key ==>
              x.selected.current == y.selected.current && x.selected.corrected == y.selected.corrected
    ensures (forall key :: key in Keys(a) ==> GroupSettled(Group(a, key))) ==>
              ra.correctedTotal == rb.correctedTotal && ra.roundTotals == rb.roundTotals
  {
    hide Rearranges, RowOf, PairsFor, Group, GroupSettled, Total, DistinctKeys, SoundLinks;
    SameKeys(a, b);
    forall x, y | x in ra.rows && y in rb.rows && x.key == y.key
      ensures x.selected.current == y.selected.current && x.selected.corrected == y.selected.corrected
    {
      SameChoice(a, b, selectors, x, y);
    }
    if forall key :: key in Keys(a) ==> GroupSettled(Group(a, key)) {
      forall k: nat | k <= 3
        ensures Total(ra.rows, k) == Total(rb.rows, k)
      {
        RowsAgree(a, b, selectors, ra.rows, rb.rows, k);
        SameTotals(ra.rows, rb.rows, k);
      }
    }
  }

  lemma {:induction false} RowsAgree(a: seq<Record>, b: seq<Record>, selectors: map<Key, Node>, xs: seq<Row>,
                                     ys: seq<Row>, k: nat)
    requires Rearranges(a, b) && SoundLinks(a) && k <= 3 && Keys(a) == Keys(b)
    requires RowsFor(a, selectors, Keys(a), xs) && RowsFor(b, selectors, Keys(b), ys)
    requires forall key :: key in Keys(a) ==> GroupSettled(Group(a, key))
    ensures SameValues(xs, ys, k)
  {
    hide Rearranges, RowOf, Group, GroupSettled, Part, DistinctKeys, Closed, HasCycle, LinksOk, HasRow;
    forall x, y | x in xs && y in ys && x.key == y.key
      ensures Part(x.view, k) == Part(y.view, k)
    {
      SameFirstPass(a, b, selectors, x, y);
      RowView(a, selectors, x);
      RowView(b, selectors, y);
      SameParts(x, y, k);
    }
  }

  lemma {:induction false} RowView(records: seq<Record>, selectors: map<Key, Node>, row: Row)
    requires RowOf(records, selectors, row)
    ensures ViewOf(row.selected.lineage, row.view)
  {
  }
}
