/** The quality points 10, 7 and 4, and the first-pass score of ledger records
    (scripts/cross_file_corrected_ledger.py, lines 59 and 557-594). */
module QualityPoints {
  import opened Wrappers

  /** The points of a first pass in round 1, 2 or 3. */
  function Points(round: int): int {
    if round == 1 then 10 else if round == 2 then 7 else if round == 3 then 4 else 0
  }

  /** Three points less for every round that a pass takes longer, and nothing outside rounds 1 to 3. */
  lemma {:induction false} PointsFall(round: int)
    ensures 1 <= round <= 3 ==> Points(round) == 13 - 3 * round
    ensures !(1 <= round <= 3) ==> Points(round) == 0
  {
  }

  /** The quality round a ledger record reports, and whether its status is a pass. */
  datatype RoundEntry = RoundEntry(round: Option<int>, passed: bool)

  /** The last entry for a round wins. */
  function Latest(entries: seq<RoundEntry>, round: int): Option<RoundEntry> {
    if entries == [] then None
    else
      var n := |entries| - 1;
      if entries[n].round == Some(round) then Some(entries[n]) else Latest(entries[..n], round)
  }

  predicate LatestPasses(entries: seq<RoundEntry>, round: int) {
    Latest(entries, round).Some? && Latest(entries, round).value.passed
  }

  function LedgerFirstPass(entries: seq<RoundEntry>): Option<int> {
    if LatestPasses(entries, 1) then Some(1)
    else if LatestPasses(entries, 2) then Some(2)
    else if LatestPasses(entries, 3) then Some(3)
    else None
  }

  function LedgerScore(entries: seq<RoundEntry>): int {
    if LedgerFirstPass(entries).Some? then Points(LedgerFirstPass(entries).value) else 0
  }

  lemma {:induction false} LatestOfNumbered(entries: seq<RoundEntry>, round: int)
    requires forall k :: 0 <= k < |entries| ==> entries[k].round == Some(k + 1)
    ensures Latest(entries, round) == if 1 <= round <= |entries| then Some(entries[round - 1]) else None
  {
    if entries != [] && round != |entries| {
      LatestOfNumbered(entries[..|entries| - 1], round);
    }
  }

  lemma {:induction false} LedgerPassAt(entries: seq<RoundEntry>, last: bool)
    requires 0 < |entries| <= 3
    requires forall k :: 0 <= k < |entries| ==> entries[k].round == Some(k + 1)
    requires forall k :: 0 <= k < |entries| ==> (entries[k].passed <==> last && k == |entries| - 1)
    ensures LedgerFirstPass(entries) == if last then Some(|entries|) else None
  {
    hide Latest;
    LatestOfNumbered(entries, 1);
    LatestOfNumbered(entries, 2);
    LatestOfNumbered(entries, 3);
  }
}
