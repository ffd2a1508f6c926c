/**
  Score views, pair scores and totals of the corrected ledger
  (scripts/cross_file_corrected_ledger.py, lines 557-594 and 737-768).
 */
module LedgerTotals {
  import opened Wrappers
  import opened Sequences
  import opened QualityPoints
  import opened LedgerLinks
  import opened OrderedLineage
  import opened LineageOrder

  datatype RoundView = RoundView(attempt: Option<Record>, score: int)

  datatype View = View(firstPass: Option<int>, final: int, rounds: seq<RoundView>)

  /** What a score view says of a lineage: the latest record of each round, and the first-pass points from there on. */
  ghost predicate ViewOf(ordered: seq<Record>, v: View) {
    && v.firstPass == LedgerFirstPass(Entries(ordered)) && v.final == LedgerScore(Entries(ordered))
    && |v.rounds| == 3
    && forall i :: 0 <= i < 3 ==> RoundOf(ordered, v.firstPass, v.final, v.rounds, i)
  }

  ghost predicate RoundOf(ordered: seq<Record>, firstPass: Option<int>, final: int, rounds: seq<RoundView>, i: nat)
    requires i < |rounds|
  {
    && rounds[i].attempt == LatestFor(ordered, i + 1)
    && rounds[i].score == if firstPass.Some? && firstPass.value <= i + 1 then final else 0
  }

  /** The dictionary holds the latest record of every round. */
  ghost predicate Collected(records: seq<Record>, latest: map<int, Record>) {
    forall n :: LatestFor(records, n) == if n in latest then Some(latest[n]) else None
  }

  method CollectLatest(ordered: seq<Record>) returns (latest: map<int, Record>)
    ensures Collected(ordered, latest)
  {
    latest := map[];
    for i := 0 to |ordered|
      invariant Collected(ordered[..i], latest)
    {
      assert ordered[..i + 1][..i] == ordered[..i];
      if ordered[i].entry.round.Some? {
        latest := latest[ordered[i].entry.round.value := ordered[i]];
      }
    }
    assert ordered[..|ordered|] == ordered;
  }

  /** Thirteen less three for every round up to the first pass, and nothing without one. */
  ghost predicate PassPriced(v: View) {
    && (v.firstPass.Some? ==> 1 <= v.firstPass.value <= 3 && v.final == 13 - 3 * v.firstPass.value)
    && (v.firstPass.None? ==> v.final == 0)
  }

  method ScoreView(ordered: seq<Record>) returns (v: View)
    ensures ViewOf(ordered, v) && PassPriced(v)
  {
    hide LatestFor, Latest, Entries;
    var latest := CollectLatest(ordered);
    forall n
      ensures LatestPasses(Entries(ordered), n) <==> n in latest && latest[n].entry.passed
    {
      LatestEntry(ordered, n);
    }
    var firstPass := None;
    var number := 1;
    while number <= 3 && firstPass.None?
      invariant 1 <= number <= 4
      invariant firstPass.None? ==> forall n :: 1 <= n < number ==> !LatestPasses(Entries(ordered), n)
      invariant firstPass.Some? ==> firstPass == LedgerFirstPass(Entries(ordered))
    {
      if number in latest && latest[number].entry.passed {
        firstPass := Some(number);
      }
      number := number + 1;
    }
    var final := if firstPass.Some? then Points(firstPass.value) else 0;
    var rounds: seq<RoundView> := [];
    for n := 1 to 4
      invariant |rounds| == n - 1
      invariant forall i :: 0 <= i < n - 1 ==> RoundOf(ordered, firstPass, final, rounds, i)
    {
      var attempt := if n in latest then Some(latest[n]) else None;
      var score := if firstPass.Some? && firstPass.value <= n then final else 0;
      ghost var prior := rounds;
      rounds := rounds + [RoundView(attempt, score)];
      assert forall i :: 0 <= i < n - 1 ==> RoundOf(ordered, firstPass, final, prior, i) && rounds[i] == prior[i];
    }
    return View(firstPass, final, rounds);
  }

  lemma {:induction false} ViewsArePriced(ordered: seq<Record>, v: View)
    requires ViewOf(ordered, v)
    ensures PassPriced(v)
  {
    hide LatestPasses, RoundOf, Entries;
    if v.firstPass.Some? {
      PointsFall(v.firstPass.value);
    }
  }

  /** An earlier first pass always scores strictly more. */
  lemma {:induction false} EarlierPassScoresMore(a: seq<Record>, v: View, b: seq<Record>, w: View)
    requires ViewOf(a, v) && ViewOf(b, w)
    ensures v.final > w.final <==> v.firstPass.Some? && (w.firstPass.None? || v.firstPass.value < w.firstPass.value)
  {
    hide ViewOf;
    ViewsArePriced(a, v);
    ViewsArePriced(b, w);
  }

  /** The third round always shows the final score, and no round shows more than the next. */
  lemma {:induction false} RoundsAccumulate(ordered: seq<Record>, v: View)
    requires ViewOf(ordered, v)
    ensures v.rounds[2].score == v.final
    ensures 0 <= v.rounds[0].score <= v.rounds[1].score <= v.rounds[2].score
  {
    hide LatestPasses, LatestFor, Entries;
    var first, final, rounds := v.firstPass, v.final, v.rounds;
    assert RoundOf(ordered, first, final, rounds, 0) && RoundOf(ordered, first, final, rounds, 1)
        && RoundOf(ordered, first, final, rounds, 2);
  }

  // ----- Sums ---------------------------------------------------------------

  datatype Row = Row(key: Key, selected: Selected, currentView: View, view: View)

  /** The score of a round, or the final score for any other number. */
  function Part(v: View, k: nat): int {
    if 1 <= k <= |v.rounds| then v.rounds[k - 1].score else v.final
  }

  function Total(rows: seq<Row>, k: nat): int {
    if rows == [] then 0 else Total(rows[..|rows| - 1], k) + Part(rows[|rows| - 1].view, k)
  }

  /** The final scores of all rows, and their scores up to one round. */
  function FinalSum(rows: seq<Row>): int {
    if rows == [] then 0 else FinalSum(rows[..|rows| - 1]) + rows[|rows| - 1].view.final
  }

  function RoundSum(rows: seq<Row>, round: nat): int
    requires round < 3 && forall row :: row in rows ==> |row.view.rounds| == 3
  {
    if rows == [] then 0
    else RoundSum(rows[..|rows| - 1], round) + rows[|rows| - 1].view.rounds[round].score
  }

  lemma {:induction false} TotalsAreSums(rows: seq<Row>, round: nat)
    requires round < 3 && forall row :: row in rows ==> |row.view.rounds| == 3
    ensures Total(rows, 0) == FinalSum(rows) && Total(rows, round + 1) == RoundSum(rows, round)
  {
    if rows != [] {
      assert rows[|rows| - 1] in rows;
      TotalsAreSums(rows[..|rows| - 1], round);
    }
  }

  /** The rows of one key. */
  function KeyTotal(rows: seq<Row>, key: Key, k: nat): int {
    if rows == [] then 0
    else
      var row := rows[|rows| - 1];
      KeyTotal(rows[..|rows| - 1], key, k) + (if row.key == key then Part(row.view, k) else 0)
  }

  function InstanceTotal(rows: seq<Row>, instance: string, k: nat): int {
    KeyTotal(rows, Key(instance, NoLspArm), k) + KeyTotal(rows, Key(instance, WithLspArm), k)
  }

  function InstancesTotal(rows: seq<Row>, instances: seq<string>, k: nat): int {
    if instances == [] then 0
    else InstancesTotal(rows, instances[..|instances| - 1], k) + InstanceTotal(rows, instances[|instances| - 1], k)
  }

  ghost predicate DistinctKeys(rows: seq<Row>) {
    forall i, j :: 0 <= i < j < |rows| ==> rows[i].key != rows[j].key
  }

  /** A further row counts once, for its own instance. */
  lemma {:induction false} RowCountsOnce(rows: seq<Row>, instances: seq<string>, k: nat)
    requires rows != [] && Distinct(instances)
    ensures InstancesTotal(rows, instances, k) == InstancesTotal(rows[..|rows| - 1], instances, k)
              + (if rows[|rows| - 1].key.instance in instances then Part(rows[|rows| - 1].view, k) else 0)
  {
    if instances != [] {
      var n := |instances| - 1;
      RowCountsOnce(rows, instances[..n], k);
      assert instances == instances[..n] + [instances[n]];
      assert instances[n] !in instances[..n];
      InstanceCounts(rows, instances[n], k);
    }
  }

  lemma {:induction false} InstanceCounts(rows: seq<Row>, instance: string, k: nat)
    requires rows != []
    ensures InstanceTotal(rows, instance, k) == InstanceTotal(rows[..|rows| - 1], instance, k)
              + (if rows[|rows| - 1].key.instance == instance then Part(rows[|rows| - 1].view, k) else 0)
  {
    var key := rows[|rows| - 1].key;
    assert key == Key(key.instance, key.arm) && (key.arm == NoLspArm || key.arm == WithLspArm);
  }

  lemma {:induction false} InstancesPartition(rows: seq<Row>, instances: seq<string>, k: nat)
    requires Distinct(instances) && forall row :: row in rows ==> row.key.instance in instances
    ensures InstancesTotal(rows, instances, k) == Total(rows, k)
  {
    if rows == [] {
      NoRows(instances, k);
    } else {
      var n := |rows| - 1;
      assert rows[n] in rows;
      InstancesPartition(rows[..n], instances, k);
      RowCountsOnce(rows, instances, k);
    }
  }

  lemma {:induction false} NoRows(instances: seq<string>, k: nat)
    ensures InstancesTotal([], instances, k) == 0
  {
    if instances != [] {
      NoRows(instances[..|instances| - 1], k);
    }
  }

  lemma {:induction false} KeyAbsent(rows: seq<Row>, key: Key, k: nat)
    requires forall row :: row in rows ==> row.key != key
    ensures KeyTotal(rows, key, k) == 0
  {
    if rows != [] {
      KeyAbsent(rows[..|rows| - 1], key, k);
    }
  }

  lemma {:induction false} KeyPresent(rows: seq<Row>, row: Row, k: nat)
    requires DistinctKeys(rows) && row in rows
    ensures KeyTotal(rows, row.key, k) == Part(row.view, k)
  {
    var n := |rows| - 1;
    var i :| 0 <= i < |rows| && rows[i] == row;
    if i == n {
      assert forall r :: r in rows[..n] ==> r.key != row.key;
      KeyAbsent(rows[..n], row.key, k);
    } else {
      assert rows[..n][i] == row;
      KeyPresent(rows[..n], row, k);
    }
  }

  // ----- Pairs --------------------------------------------------------------

  datatype Pair = Pair(instance: string, arms: map<Arm, View>, complete: bool, totals: seq<int>, final: int)

  function ArmPart(arms: map<Arm, View>, arm: Arm, k: nat): int {
    if arm in arms then Part(arms[arm], k) else 0
  }

  function PairPart(p: Pair, k: nat): int {
    if 1 <= k <= |p.totals| then p.totals[k - 1] else p.final
  }

  function PairsTotal(pairs: seq<Pair>, k: nat): int {
    if pairs == [] then 0 else PairsTotal(pairs[..|pairs| - 1], k) + PairPart(pairs[|pairs| - 1], k)
  }

  function Instances(pairs: seq<Pair>): seq<string> {
    seq(|pairs|, i requires 0 <= i < |pairs| => pairs[i].instance)
  }

  /** A pair shows the rows of its instance. */
  ghost predicate PairOf(rows: seq<Row>, p: Pair) {
    && |p.totals| == 3
    && (p.complete <==> NoLspArm in p.arms && WithLspArm in p.arms)
    && (forall arm :: arm in p.arms <==> exists row :: row in rows && row.key == Key(p.instance, arm))
    && (forall row :: row in rows && row.key.instance == p.instance ==>
          row.key.arm in p.arms && p.arms[row.key.arm] == row.view)
    && (forall k :: 0 <= k <= 3 ==> PairPart(p, k) == ArmPart(p.arms, NoLspArm, k) + ArmPart(p.arms, WithLspArm, k))
  }

  lemma {:induction false} ArmPartIs(rows: seq<Row>, p: Pair, arm: Arm, k: nat)
    requires DistinctKeys(rows) && PairOf(rows, p)
    ensures ArmPart(p.arms, arm, k) == KeyTotal(rows, Key(p.instance, arm), k)
  {
    hide DistinctKeys, KeyTotal, Part;
    if arm in p.arms {
      var row :| row in rows && row.key == Key(p.instance, arm);
      assert row.key.instance == p.instance;
      KeyPresent(rows, row, k);
    } else {
      KeyAbsent(rows, Key(p.instance, arm), k);
    }
  }

  lemma {:induction false} PairsAreInstances(rows: seq<Row>, pairs: seq<Pair>, k: nat)
    requires k <= 3 && DistinctKeys(rows) && forall p :: p in pairs ==> PairOf(rows, p)
    ensures PairsTotal(pairs, k) == InstancesTotal(rows, Instances(pairs), k)
  {
    if pairs != [] {
      var n := |pairs| - 1;
      PairsAreInstances(rows, pairs[..n], k);
      assert Instances(pairs)[..n] == Instances(pairs[..n]);
      assert pairs[n] in pairs;
      ArmPartIs(rows, pairs[n], NoLspArm, k);
      ArmPartIs(rows, pairs[n], WithLspArm, k);
    }
  }

  /** The pairs' final scores and round totals add up to those of all rows. */
  lemma {:induction false} PairsConserve(rows: seq<Row>, pairs: seq<Pair>, k: nat)
    requires k <= 3 && DistinctKeys(rows) && (forall p :: p in pairs ==> PairOf(rows, p))
    requires Distinct(Instances(pairs)) && forall row :: row in rows ==> row.key.instance in Instances(pairs)
    ensures PairsTotal(pairs, k) == Total(rows, k)
  {
    hide PairOf, DistinctKeys, Distinct;
    PairsAreInstances(rows, pairs, k);
    InstancesPartition(rows, Instances(pairs), k);
  }
}
