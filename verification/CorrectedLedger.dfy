/**
  The corrected-ledger builder (scripts/cross_file_corrected_ledger.py, lines 635-826): one row for every
  instance and arm, pair scores for every instance, and the totals.
 */
module CorrectedLedger {
  import opened Wrappers
  import opened Sequences
  import opened LedgerGraph
  import opened LedgerLinks
  import opened Lineage
  import opened OrderedLineage
  import opened LedgerTotals

  function Keys(records: seq<Record>): set<Key> {
    set r | r in records :: r.key
  }

  function Selector(selectors: map<Key, Node>, key: Key): Option<Node> {
    if key in selectors then Some(selectors[key]) else None
  }

  ghost predicate GroupAccepted(records: seq<Record>, selectors: map<Key, Node>, key: Key) {
    exists root, sink :: Accepts(Group(records, key), Selector(selectors, key), root, sink)
  }

  /** The ledgers the builder accepts. */
  ghost predicate Acceptable(records: seq<Record>, selectors: map<Key, Node>) {
    && records != []
    && SoundLinks(records)
    && (selectors == map[] || selectors.Keys == Keys(records))
    && forall key :: key in Keys(records) ==> GroupAccepted(records, selectors, key)
  }

  /** One row: its current and corrected attempts, the lineage between them and both score views. */
  ghost predicate RowOf(records: seq<Record>, selectors: map<Key, Node>, row: Row) {
    && Accepts(Group(records, row.key), Selector(selectors, row.key), row.selected.current, row.selected.corrected)
    && IsLineage(Group(records, row.key), row.selected.lineage, row.selected.current, row.selected.corrected)
    && ByDepth(Group(records, row.key), row.selected.lineage)
    && ViewOf([row.selected.current], row.currentView) && ViewOf(row.selected.lineage, row.view)
  }

  ghost predicate ByDepth(group: seq<Record>, lineage: seq<Record>) {
    exists depth: map<Node, nat> :: FullDepth(group, depth) && HasDepths(group, depth)
      && lineage == SortByDepth(group, depth)
  }

  /** The validated links are what every group needs. */
  lemma {:induction false} GroupReady(records: seq<Record>, key: Key, l: Links, rank: map<Node, nat>)
    requires SoundLinks(records) && LinksOf(records, l) && Ranked(Preds(records), Preds(records).Keys, rank)
    ensures GroupInputs(Group(records, key), rank, l) && GroupIndex(Group(records, key), key, l.byId)
  {
    hide HasCycle, Filter;
    GroupLinks(records, key);
    GroupRank(records, key, rank);
    UniqueIds(records);
    PredsAre(records);
    FilterMembers(records, (r: Record) => r.key == key);
    hide LinksOk, Ranked, DistinctIds, Preds, ChildSet;
  }

  method BuildRow(records: seq<Record>, selectors: map<Key, Node>, key: Key, l: Links, ghost rank: map<Node, nat>)
    returns (r: Result<Row, LedgerError>)
    requires SoundLinks(records) && LinksOf(records, l) && Ranked(Preds(records), Preds(records).Keys, rank)
    ensures r.Ok? <==> GroupAccepted(records, selectors, key)
    ensures r.Ok? ==> r.value.key == key && RowOf(records, selectors, r.value)
  {
    GroupReady(records, key, l, rank);
    hide SoundLinks, LinksOf, Ranked, GroupInputs, GroupIndex, Accepts, IsLineage, Group, FullDepth, HasDepths,
         SortByDepth, ViewOf;
    var selected, depth := Select(Group(records, key), key, Selector(selectors, key), l, rank);
    if selected.Err? {
      return Err(selected.error);
    }
    var currentView := ScoreView([selected.value.current]);
    var view := ScoreView(selected.value.lineage);
    return Ok(Row(key, selected.value, currentView, view));
  }

  /** Rows for exactly these keys, one each. */
  ghost predicate RowsFor(records: seq<Record>, selectors: map<Key, Node>, keys: set<Key>, rows: seq<Row>) {
    && DistinctKeys(rows)
    && (forall row :: row in rows ==> row.key in keys && RowOf(records, selectors, row))
    && (forall key :: key in keys ==> HasRow(rows, key))
  }

  ghost predicate HasRow(rows: seq<Row>, key: Key) {
    exists row :: row in rows && row.key == key
  }

  lemma {:induction false} RowsGrow(records: seq<Record>, selectors: map<Key, Node>, keys: set<Key>, rows: seq<Row>,
                                    row: Row)
    requires RowsFor(records, selectors, keys, rows) && row.key !in keys && RowOf(records, selectors, row)
    ensures RowsFor(records, selectors, keys + {row.key}, rows + [row])
  {
    hide RowOf;
    forall i | 0 <= i < |rows|
      ensures rows[i].key != row.key
    {
      assert rows[i] in rows;
    }
    forall key | key in keys + {row.key}
      ensures HasRow(rows + [row], key)
    {
      if key in keys {
        var r :| r in rows && r.key == key;
        assert r in rows + [row];
      } else {
        assert row in rows + [row];
      }
    }
  }

  method BuildRows(records: seq<Record>, selectors: map<Key, Node>, l: Links, ghost rank: map<Node, nat>)
    returns (r: Result<seq<Row>, LedgerError>)
    requires SoundLinks(records) && LinksOf(records, l) && Ranked(Preds(records), Preds(records).Keys, rank)
    ensures r.Ok? <==> forall key :: key in Keys(records) ==> GroupAccepted(records, selectors, key)
    ensures r.Ok? ==> RowsFor(records, selectors, Keys(records), r.value)
  {
    hide SoundLinks, LinksOf, Ranked, GroupAccepted, RowOf;
    var keys := Keys(records);
    var todo, rows := keys, [];
    assert keys - todo == {};
    while todo != {}
      invariant todo <= keys && RowsFor(records, selectors, keys - todo, rows)
      invariant forall key :: key in keys - todo ==> GroupAccepted(records, selectors, key)
      decreases todo
    {
      hide RowsFor;
      var key :| key in todo;
      var row := BuildRow(records, selectors, key, l, rank);
      if row.Err? {
        return Err(row.error);
      }
      RowsGrow(records, selectors, keys - todo, rows, row.value);
      assert keys - (todo - {key}) == (keys - todo) + {key};
      todo, rows := todo - {key}, rows + [row.value];
    }
    assert keys - todo == keys;
    return Ok(rows);
  }

  // ----- Pairs --------------------------------------------------------------

  /** Corrected views by key. */
  ghost predicate Views(rows: seq<Row>, views: map<Key, View>) {
    && (forall row :: row in rows ==> row.key in views && views[row.key] == row.view)
    && (forall key :: key in views ==> HasRow(rows, key))
  }

  method ViewsByKey(rows: seq<Row>) returns (views: map<Key, View>)
    requires DistinctKeys(rows)
    ensures Views(rows, views)
  {
    views := map[];
    for i := 0 to |rows|
      invariant Views(rows[..i], views)
    {
      var row := rows[i];
      assert rows[..i + 1] == rows[..i] + [row];
      assert forall r :: r in rows[..i] ==> r.key != row.key;
      views := views[row.key := row.view];
      forall key | key in views
        ensures HasRow(rows[..i + 1], key)
      {
        if key == row.key {
          assert row in rows[..i + 1];
        } else {
          var r :| r in rows[..i] && r.key == key;
          assert r in rows[..i + 1];
        }
      }
    }
    assert rows[..|rows|] == rows;
  }

  method PairScore(rows: seq<Row>, views: map<Key, View>, instance: string) returns (p: Pair)
    requires Views(rows, views) && forall row :: row in rows ==> |row.view.rounds| == 3
    ensures p.instance == instance && PairOf(rows, p)
  {
    var arms: map<Arm, View> := map[];
    var modes := [NoLspArm, WithLspArm];
    for i := 0 to |modes|
      invariant forall arm :: arm in arms <==> arm in modes[..i] && Key(instance, arm) in views
      invariant forall arm :: arm in arms ==> arms[arm] == views[Key(instance, arm)]
    {
      var key := Key(instance, modes[i]);
      if key in views {
        arms := arms[modes[i] := views[key]];
      }
      assert modes[..i + 1] == modes[..i] + [modes[i]];
    }
    assert modes[..|modes|] == modes && modes[0] == NoLspArm && modes[1] == WithLspArm;
    forall arm: Arm
      ensures arm in modes
    {
      match arm
      case NoLspArm =>
      case WithLspArm =>
    }
    forall arm | arm in arms
      ensures |arms[arm].rounds| == 3
    {
      assert HasRow(rows, Key(instance, arm));
    }
    var final := 0;
    if NoLspArm in arms {
      final := final + arms[NoLspArm].final;
    }
    if WithLspArm in arms {
      final := final + arms[WithLspArm].final;
    }
    var totals: seq<int> := [];
    for i := 0 to 3
      invariant |totals| == i
      invariant forall j :: 0 <= j < i ==>
                  totals[j] == ArmPart(arms, NoLspArm, j + 1) + ArmPart(arms, WithLspArm, j + 1)
    {
      var sum := 0;
      if NoLspArm in arms {
        sum := sum + arms[NoLspArm].rounds[i].score;
      }
      if WithLspArm in arms {
        sum := sum + arms[WithLspArm].rounds[i].score;
      }
      totals := totals + [sum];
    }
    p := Pair(instance, arms, arms.Keys == {NoLspArm, WithLspArm}, totals, final);
    PairShows(rows, views, p);
  }

  lemma {:induction false} PairShows(rows: seq<Row>, views: map<Key, View>, p: Pair)
    requires Views(rows, views) && |p.totals| == 3
    requires p.complete <==> p.arms.Keys == {NoLspArm, WithLspArm}
    requires forall arm :: arm in p.arms <==> Key(p.instance, arm) in views
    requires forall arm :: arm in p.arms ==> p.arms[arm] == views[Key(p.instance, arm)]
    requires forall i :: 0 <= i < 3 ==>
               p.totals[i] == ArmPart(p.arms, NoLspArm, i + 1) + ArmPart(p.arms, WithLspArm, i + 1)
    requires p.final == ArmPart(p.arms, NoLspArm, 0) + ArmPart(p.arms, WithLspArm, 0)
    ensures PairOf(rows, p)
  {
    hide ArmPart;
    forall arm
      ensures arm in p.arms <==> exists row :: row in rows && row.key == Key(p.instance, arm)
    {
      assert Key(p.instance, arm) in views ==> HasRow(rows, Key(p.instance, arm));
    }
    forall row | row in rows && row.key.instance == p.instance
      ensures row.key.arm in p.arms && p.arms[row.key.arm] == row.view
    {
      assert row.key == Key(p.instance, row.key.arm);
    }
    assert p.complete ==> NoLspArm in p.arms.Keys && WithLspArm in p.arms.Keys;
    forall arm | arm in p.arms.Keys
      ensures arm == NoLspArm || arm == WithLspArm
    {
      match arm
      case NoLspArm =>
      case WithLspArm =>
    }
  }

  function InstanceSet(records: seq<Record>): set<string> {
    set r | r in records :: r.key.instance
  }

  ghost predicate PairsFor(rows: seq<Row>, instances: set<string>, pairs: seq<Pair>) {
    && (forall p :: p in pairs ==> p.instance in instances && PairOf(rows, p))
    && Distinct(Instances(pairs))
    && (forall i :: i in instances ==> i in Instances(pairs))
  }

  lemma {:induction false} PairsGrow(rows: seq<Row>, instances: set<string>, pairs: seq<Pair>, p: Pair)
    requires PairsFor(rows, instances, pairs) && p.instance !in instances && PairOf(rows, p)
    ensures PairsFor(rows, instances + {p.instance}, pairs + [p])
  {
    hide PairOf;
    assert Instances(pairs + [p]) == Instances(pairs) + [p.instance];
    forall i | 0 <= i < |pairs|
      ensures Instances(pairs)[i] != p.instance
    {
      assert pairs[i] in pairs;
    }
  }

  method PairScores(records: seq<Record>, rows: seq<Row>) returns (pairs: seq<Pair>)
    requires DistinctKeys(rows) && forall row :: row in rows ==> |row.view.rounds| == 3
    ensures PairsFor(rows, InstanceSet(records), pairs)
  {
    hide DistinctKeys, PairOf, Views;
    var views := ViewsByKey(rows);
    var all := InstanceSet(records);
    var todo := all;
    pairs := [];
    assert all - todo == {};
    while todo != {}
      invariant todo <= all && PairsFor(rows, all - todo, pairs)
      decreases todo
    {
      hide PairsFor;
      var instance :| instance in todo;
      var p := PairScore(rows, views, instance);
      PairsGrow(rows, all - todo, pairs, p);
      assert all - (todo - {instance}) == (all - todo) + {instance};
      todo, pairs := todo - {instance}, pairs + [p];
    }
    assert all - todo == all;
  }

  // ----- The report ---------------------------------------------------------

  datatype Report = Report(rows: seq<Row>, pairs: seq<Pair>, correctedTotal: int, roundTotals: seq<int>)

  ghost predicate ReportOf(records: seq<Record>, selectors: map<Key, Node>, report: Report) {
    && RowsFor(records, selectors, Keys(records), report.rows)
    && PairsFor(report.rows, InstanceSet(records), report.pairs)
    && |report.roundTotals| == 3
    && report.correctedTotal == Total(report.rows, 0)
    && forall i :: 0 <= i < 3 ==> report.roundTotals[i] == Total(report.rows, i + 1)
  }

  /** Build the report; a declared hash must be the digest of what was supplied. */
  method Build(records: seq<Record>, selectors: map<Key, Node>, declared: Option<string>,
               digest: (seq<Record>, map<Key, Node>) -> string) returns (r: Result<Report, LedgerError>)
    ensures r.Ok? <==> Acceptable(records, selectors)
                       && (declared.Some? ==> declared.value == digest(records, selectors))
    ensures r.Ok? ==> ReportOf(records, selectors, r.value)
    ensures r.Ok? ==> forall row :: row in r.value.rows ==> PassPriced(row.view) && PassPriced(row.currentView)
  {
    hide LinksOf, Ranked, SoundLinks, GroupAccepted, RowOf, PairsFor, Total, PassPriced;
    if records == [] {
      return Err(NoRecords);
    }
    var links, rank := ValidateLinks(records);
    if links.Err? {
      return Err(links.error);
    }
    if declared.Some? && declared.value != digest(records, selectors) {
      return Err(HashDrifted);
    }
    if selectors != map[] && selectors.Keys != Keys(records) {
      return Err(SelectorMismatch);
    }
    var rows := BuildRows(records, selectors, links.value, rank);
    if rows.Err? {
      return Err(rows.error);
    }
    forall row | row in rows.value
      ensures |row.view.rounds| == 3 && PassPriced(row.view) && PassPriced(row.currentView)
    {
      RowIsPriced(records, selectors, row);
    }
    var pairs := PairScores(records, rows.value);
    var total, totals := SumRows(rows.value);
    return Ok(Report(rows.value, pairs, total, totals));
  }

  /** The final scores added up, and the scores up to each round. */
  method SumRows(rows: seq<Row>) returns (total: int, totals: seq<int>)
    requires forall row :: row in rows ==> |row.view.rounds| == 3
    ensures total == FinalSum(rows) == Total(rows, 0) && |totals| == 3
    ensures forall i :: 0 <= i < 3 ==> totals[i] == RoundSum(rows, i) == Total(rows, i + 1)
  {
    hide Total;
    total, totals := 0, [0, 0, 0];
    for n := 0 to |rows|
      invariant total == FinalSum(rows[..n]) && |totals| == 3
      invariant forall i :: 0 <= i < 3 ==> totals[i] == RoundSum(rows[..n], i)
    {
      var view := rows[n].view;
      assert rows[n] in rows && rows[..n + 1][..n] == rows[..n];
      total := total + view.final;
      totals := [totals[0] + view.rounds[0].score, totals[1] + view.rounds[1].score, totals[2] + view.rounds[2].score];
    }
    assert rows[..|rows|] == rows;
    forall i | 0 <= i < 3
      ensures Total(rows, 0) == FinalSum(rows) && Total(rows, i + 1) == RoundSum(rows, i)
    {
      TotalsAreSums(rows, i);
    }
    TotalsAreSums(rows, 0);
  }

  lemma {:induction false} RowIsPriced(records: seq<Record>, selectors: map<Key, Node>, row: Row)
    requires RowOf(records, selectors, row)
    ensures |row.view.rounds| == 3 && PassPriced(row.view) && PassPriced(row.currentView)
  {
    ViewsArePriced(row.selected.lineage, row.view);
    ViewsArePriced([row.selected.current], row.currentView);
  }

  /** In every report the pairs add up to the totals, and the third round totals are the final totals. */
  lemma {:induction false} TotalsConserved(records: seq<Record>, selectors: map<Key, Node>, report: Report)
    requires ReportOf(records, selectors, report)
    ensures PairsTotal(report.pairs, 0) == report.correctedTotal
    ensures forall i :: 0 <= i < 3 ==> PairsTotal(report.pairs, i + 1) == report.roundTotals[i]
    ensures report.roundTotals[2] == report.correctedTotal
  {
    hide RowOf, PairOf, Distinct, DistinctKeys;
    var rows, pairs := report.rows, report.pairs;
    forall row | row in rows
      ensures row.key.instance in Instances(pairs)
    {
      var r :| r in records && r.key == row.key;
      assert r.key.instance in InstanceSet(records);
    }
    PairsConserve(rows, pairs, 0);
    forall i | 0 <= i < 3
      ensures PairsTotal(pairs, i + 1) == report.roundTotals[i]
    {
      PairsConserve(rows, pairs, i + 1);
    }
    LastRoundIsFinal(records, selectors, rows);
  }

  lemma {:induction false} LastRoundIsFinal(records: seq<Record>, selectors: map<Key, Node>, rows: seq<Row>)
    requires forall row :: row in rows ==> RowOf(records, selectors, row)
    ensures Total(rows, 3) == Total(rows, 0)
  {
    if rows != [] {
      hide IsLineage, Accepts, ByDepth;
      var row := rows[|rows| - 1];
      assert row in rows && RowOf(records, selectors, row);
      RoundsAccumulate(row.selected.lineage, row.view);
      LastRoundIsFinal(records, selectors, rows[..|rows| - 1]);
    }
  }
}
