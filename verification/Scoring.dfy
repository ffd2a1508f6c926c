/**
  The three places that score an arm: from the runner events
  (scripts/cross_file_benchmark_runner.py, lines 386-397), from the round summary of the evidence
  adapter (scripts/cross_file_evidence_adapter.py, lines 353-373, scored at
  scripts/cross_file_ab_audit.py, lines 1786-1798) and from ledger records
  (scripts/cross_file_corrected_ledger.py, lines 557-594).
 */
module Scoring {
  import opened Wrappers
  import opened GuardSpec
  import opened RunnerSpec
  import opened RunnerInvariants
  import opened WholeRun
  import opened EventAcceptor
  import opened ProducerRefinement
  import opened RunTrace
  import opened QualityPoints

  // ----- Score from the events ----------------------------------------------

  predicate IsPass(e: Event) {
    e.kind == GraderResult && e.passed == Some(true)
  }

  /** The smallest round with a passing grader result. */
  function FirstPass(events: seq<Event>): Option<int> {
    if events == [] then None
    else
      var n := |events| - 1;
      var before := FirstPass(events[..n]);
      if !IsPass(events[n]) then before
      else if before.None? || events[n].round < before.value then Some(events[n].round)
      else before
  }

  lemma {:induction false} FirstPassIsLeast(events: seq<Event>)
    ensures FirstPass(events).Some? <==> exists i :: 0 <= i < |events| && IsPass(events[i])
    ensures FirstPass(events).Some? ==>
              && (exists i :: 0 <= i < |events| && IsPass(events[i]) && events[i].round == FirstPass(events).value)
              && (forall i :: 0 <= i < |events| && IsPass(events[i]) ==> FirstPass(events).value <= events[i].round)
  {
    if events != [] {
      FirstPassIsLeast(events[..|events| - 1]);
    }
  }

  function EventScore(events: seq<Event>): int {
    if FirstPass(events).Some? then Points(FirstPass(events).value) else 0
  }

  // ----- Score from the round summary ---------------------------------------

  datatype RoundSummary = RoundSummary(round: int, passed: bool)

  /** Whether the last result of the round is a pass. */
  predicate RoundPassed(events: seq<Event>, round: int) {
    var result := LastResult(events, round);
    result.Some? && result.value.passed == Some(true)
  }

  function Summary(events: seq<Event>): (s: seq<RoundSummary>)
    ensures |s| == |QualityEvents(events)|
  {
    var quality := QualityEvents(events);
    seq(|quality|,
        k requires 0 <= k < |quality| => RoundSummary(quality[k].round, RoundPassed(events, quality[k].round)))
  }

  method SummariseRounds(events: seq<Event>) returns (summary: seq<RoundSummary>)
    ensures summary == Summary(events)
  {
    summary := [];
    for i := 0 to |events|
      invariant |summary| == |QualityEvents(events[..i])|
      invariant forall k :: 0 <= k < |summary| ==>
                  summary[k] == RoundSummary(QualityEvents(events[..i])[k].round,
                                             RoundPassed(events, QualityEvents(events[..i])[k].round))
    {
      assert events[..i + 1] == events[..i] + [events[i]];
      QualityAppend(events[..i], events[i]);
      if events[i].kind == QualityRound {
        summary := summary + [RoundSummary(events[i].round, RoundPassed(events, events[i].round))];
      }
    }
    assert events[..|events|] == events;
  }

  datatype AuditError = NoQualityRound | OfficialPassUnseen | OfficialFailContradicted

  /** The first passing position of the summary, counted from one. */
  function FirstPassing(summary: seq<RoundSummary>, from: nat): Option<nat>
    requires from <= |summary|
    decreases |summary| - from
  {
    if from == |summary| then None
    else if summary[from].passed then Some(from + 1)
    else FirstPassing(summary, from + 1)
  }

  function AuditScore(summary: seq<RoundSummary>, officialPassed: bool): Result<int, AuditError> {
    var passing := FirstPassing(summary, 0);
    if summary == [] then Err(NoQualityRound)
    else if officialPassed && passing.None? then Err(OfficialPassUnseen)
    else if !officialPassed && passing.Some? then Err(OfficialFailContradicted)
    else Ok(if passing.Some? then Points(passing.value) else 0)
  }

  /** The audit refuses a log without quality rounds, and a verdict that contradicts the rounds; nothing else. */
  lemma {:induction false} AuditExact(summary: seq<RoundSummary>, official: bool)
    ensures AuditScore(summary, official).Ok? <==>
              summary != [] && (official <==> exists k :: 0 <= k < |summary| && summary[k].passed)
    ensures AuditScore(summary, official).Ok? && !official ==> AuditScore(summary, official) == Ok(0)
  {
    FirstPassingIs(summary, 0);
  }

  // ----- Score from ledger records ------------------------------------------

  /** The ledger entries that report the rounds of a log one by one. */
  function EntriesOf(summary: seq<RoundSummary>): (s: seq<RoundEntry>)
    ensures |s| == |summary|
    ensures forall k :: 0 <= k < |s| ==> s[k] == RoundEntry(Some(summary[k].round), summary[k].passed)
  {
    seq(|summary|, k requires 0 <= k < |summary| => RoundEntry(Some(summary[k].round), summary[k].passed))
  }

  // ----- Agreement ----------------------------------------------------------

  /** The one specification: thirteen less three for every round if the last one succeeded, else nothing. */
  function ArmScore(s: State): int {
    if s.status == Succeeded then 13 - 3 * s.lastRound else 0
  }

  /** In every run, accepted or not, the first pass is the round that succeeded. */
  lemma {:induction false} EventScoreAgrees(question: string, retries: int, limit: int, calls: seq<Call>)
    requires Started(question, retries)
    ensures var r := Run(Fresh(question, retries, limit), calls);
            && EventScore(r.events) == ArmScore(r.state)
            && FirstPass(r.events) == if r.state.status == Succeeded then Some(r.state.lastRound) else None
  {
    hide Run, Lossless, Inv, LogOk, Traced, FirstPass;
    RunLogs(question, retries, limit, calls);
    var r := Run(Fresh(question, retries, limit), calls);
    FirstPassIsLast(r);
    if r.state.status == Succeeded {
      SuccessRange(r);
    }
    PointsFall(r.state.lastRound);
  }

  lemma {:induction false} SuccessRange(r: Runner)
    requires RunnerInv(r) && r.state.status == Succeeded
    ensures 1 <= r.state.lastRound <= MAX_ROUNDS
  {
  }

  lemma {:induction false} FirstPassIsLast(r: Runner)
    requires RunnerInv(r) && LogOk(r.state, r.events, r.question)
    ensures FirstPass(r.events) == if r.state.status == Succeeded then Some(r.state.lastRound) else None
  {
    hide Ordered, RoundsShown, GradedEvent, FirstPass, LastResult;
    FirstPassIsLeast(r.events);
    Facts(r.state, r.retries);
    if r.state.status == Succeeded {
      var n := |r.state.rounds|;
      assert ResultOk(r.state, r.events, n - 1);
      PassHasEvent(r.events, n);
    }
  }

  lemma {:induction false} SummaryPasses(r: Runner, k: int)
    requires RunnerInv(r) && RunLog(r, true) && Scoreable(r.state.status) && Clean(r.events)
    requires 0 <= k < |r.state.rounds|
    ensures |QualityEvents(r.events)| == |r.state.rounds| && QualityEvents(r.events)[k].round == k + 1
    ensures RoundPassed(r.events, k + 1) <==> r.state.status == Succeeded && k == |r.state.rounds| - 1
  {
    hide Ordered, RoundsShown, GradedEvent, ActionsOk, PassesEnd, QualityEvents, LastResult, Clean;
    Judged(r);
    assert ResultOk(r.state, r.events, k);
    PassIsLast(r.state, r.retries, k);
  }

  lemma {:induction false} PassIsLast(s: State, retries: int, k: int)
    requires Inv(s, retries) && 0 <= k < |s.rounds| && s.rounds[k].passed.Some?
    ensures s.rounds[k].passed == Some(true) <==> s.status == Succeeded && k == |s.rounds| - 1
  {
    assert RecordOk(s.rounds[k], retries);
  }

  lemma {:induction false} FirstPassingAt(summary: seq<RoundSummary>, from: nat, last: bool)
    requires from <= |summary| && 0 < |summary|
    requires forall k :: 0 <= k < |summary| ==> (summary[k].passed <==> last && k == |summary| - 1)
    ensures FirstPassing(summary, from) == if last && from < |summary| then Some(|summary|) else None
    decreases |summary| - from
  {
    if from < |summary| && !summary[from].passed {
      FirstPassingAt(summary, from + 1, last);
    }
  }

  /**
    On every accepted log of a run the event score, the audit score and the ledger score are the arm
    score; the audit refuses the log exactly when the official verdict contradicts the run.
   */
  lemma {:induction false} ScoresAgree(question: string, retries: int, limit: int, calls: seq<Call>, x: Expected,
                                       official: bool)
    requires Started(question, retries) && Accepts(Run(Fresh(question, retries, limit), calls).events, x)
    ensures var r := Run(Fresh(question, retries, limit), calls);
            var summary := Summary(r.events);
            var score := ArmScore(r.state);
            && EventScore(r.events) == score
            && LedgerScore(EntriesOf(summary)) == score
            && (AuditScore(summary, official) == Ok(score) <==> official == (r.state.status == Succeeded))
            && (AuditScore(summary, official).Ok? <==> official == (r.state.status == Succeeded))
  {
    hide Run, Lossless, Accepts, RunLog, RunnerInv, Clean, FirstPass, LedgerFirstPass, RoundPassed, FirstPassing,
         QualityEvents;
    var start := Fresh(question, retries, limit);
    var r := Run(start, calls);
    RunLogs(question, retries, limit, calls);
    AcceptedClean(r, Lossless(start, calls), x);
    Judged(r);
    EventScoreAgrees(question, retries, limit, calls);
    var summary := Summary(r.events);
    var last := r.state.status == Succeeded;
    SummaryPasses(r, 0);
    forall k | 0 <= k < |summary|
      ensures summary[k] == RoundSummary(k + 1, last && k == |summary| - 1)
    {
      SummaryPasses(r, k);
    }
    FirstPassingAt(summary, 0, last);
    LedgerPassAt(EntriesOf(summary), last);
    Numbered(r);
    PointsFall(r.state.lastRound);
  }

  lemma {:induction false} Numbered(r: Runner)
    requires RunnerInv(r)
    ensures r.state.lastRound == |r.state.rounds| <= MAX_ROUNDS
  {
  }

  // ----- The acceptor alone does not fix the score --------------------------

  /** Two results for one round, first a pass and then a failure, in a log no run produces. */
  function ForgedLog(): seq<Event> {
    var who := Identity("arm", "session", "thread", "agent");
    [ Event(1, QualityRound, 1, 0, Active, who, "q", "p", Some(AllowGrader), false, None, None, false, false, None,
            false),
      Event(2, GraderResult, 1, 1, Active, who, "q", "p", Some(AllowGrader), true, Some(true), None, false, true,
            Some(1), false),
      Event(3, GraderResult, 1, 1, Succeeded, who, "q", "p", Some(AllowGrader), true, Some(false), None, false, true,
            Some(1), true) ]
  }

  lemma {:induction false} ForgedEvents()
    ensures QualityEvents(ForgedLog()) == [ForgedLog()[0]] && LastResult(ForgedLog(), 1) == Some(ForgedLog()[2])
  {
    var log := ForgedLog();
    assert QualityEvents([]) == [];
    hide QualityEvents, LastResult;
    assert [] + [log[0]] == [log[0]] && [log[0]] + [log[1]] == [log[0], log[1]] && [log[0], log[1]] + [log[2]] == log;
    QualityAppend([], log[0]);
    QualityAppend([log[0]], log[1]);
    QualityAppend([log[0], log[1]], log[2]);
    ResultAppend([log[0], log[1]], log[2], 1);
  }

  lemma {:induction false} ForgedAccepted()
    ensures Accepts(ForgedLog(), Expected(Identity("arm", "session", "thread", "agent"), "q", "p"))
  {
    hide QualityEvents, LastResult, ChildOk;
    ForgedEvents();
  }

  /** The acceptor takes it, yet the event score is 10 and the audit score of an official failure is 0. */
  lemma {:induction false} ForgedLogSplitsScores()
    ensures Accepts(ForgedLog(), Expected(Identity("arm", "session", "thread", "agent"), "q", "p"))
    ensures EventScore(ForgedLog()) == 10
    ensures AuditScore(Summary(ForgedLog()), false) == Ok(0)
  {
    hide QualityEvents, LastResult, Accepts, FirstPass;
    ForgedAccepted();
    ForgedEvents();
    var log := ForgedLog();
    FirstPassIsLeast(log);
    assert IsPass(log[1]);
    assert forall i :: 0 <= i < |log| ==> log[i].round == 1;
    assert Summary(log) == [RoundSummary(1, false)];
    FirstPassingAt(Summary(log), 0, false);
  }

  // ----- When the scores of an accepted log agree ---------------------------

  function AuditPoints(summary: seq<RoundSummary>): int {
    if FirstPassing(summary, 0).Some? then Points(FirstPassing(summary, 0).value) else 0
  }

  /** The least passing round, if it is worth points, is a quality round whose last verdict is still that pass. */
  predicate LeastPassStands(events: seq<Event>) {
    var p := FirstPass(events);
    p.Some? && p.value <= 3 ==> p.value <= |QualityEvents(events)| && RoundPassed(events, p.value)
  }

  lemma {:induction false} FirstPassingIs(summary: seq<RoundSummary>, from: nat)
    requires from <= |summary|
    ensures FirstPassing(summary, from).None? ==> forall k :: from <= k < |summary| ==> !summary[k].passed
    ensures FirstPassing(summary, from).Some? ==>
              var p := FirstPassing(summary, from).value;
              from < p <= |summary| && summary[p - 1].passed && forall k :: from <= k < p - 1 ==> !summary[k].passed
    decreases |summary| - from
  {
    if from < |summary| && !summary[from].passed {
      FirstPassingIs(summary, from + 1);
    }
  }

  lemma {:induction false} AcceptedSummary(events: seq<Event>, x: Expected)
    requires Accepts(events, x)
    ensures 1 <= |Summary(events)| <= 3
    ensures forall k :: 0 <= k < |Summary(events)| ==>
              Summary(events)[k] == RoundSummary(k + 1, RoundPassed(events, k + 1))
    ensures forall i :: 0 <= i < |events| ==> events[i].round >= 1
  {
    hide QualityEvents, LastResult, ChildOk, VerdictOk, RoundPassed, OwnedBy;
  }

  lemma {:induction false} PassHasEvent(events: seq<Event>, round: int)
    requires RoundPassed(events, round)
    ensures exists i :: 0 <= i < |events| && IsPass(events[i]) && events[i].round == round
  {
    hide LastResult;
    ResultIsEvent(events, round);
  }

  lemma {:induction false} LedgerFollowsAudit(summary: seq<RoundSummary>)
    requires 1 <= |summary| <= 3 && forall k :: 0 <= k < |summary| ==> summary[k].round == k + 1
    ensures LedgerScore(EntriesOf(summary)) == AuditPoints(summary)
  {
    hide Latest, FirstPassing;
    var entries := EntriesOf(summary);
    LatestOfNumbered(entries, 1);
    LatestOfNumbered(entries, 2);
    LatestOfNumbered(entries, 3);
    FirstPassingIs(summary, 0);
  }

  lemma {:induction false} EventFollowsAudit(events: seq<Event>, x: Expected)
    requires Accepts(events, x)
    ensures EventScore(events) == AuditPoints(Summary(events)) <==> LeastPassStands(events)
  {
    hide Accepts, QualityEvents, RoundPassed, FirstPass, FirstPassing, Summary;
    var summary := Summary(events);
    AcceptedSummary(events, x);
    FirstPassIsLeast(events);
    FirstPassingIs(summary, 0);
    var p, a := FirstPass(events), FirstPassing(summary, 0);
    forall k | 0 <= k < |summary| && summary[k].passed
      ensures p.Some? && 1 <= p.value <= k + 1
    {
      PassHasEvent(events, k + 1);
    }
    if p.Some? && p.value <= |summary| && RoundPassed(events, p.value) {
      assert summary[p.value - 1].passed;
    }
  }

  /**
    On every accepted log, whoever wrote it: the ledger score is the audit score, the audit refuses exactly a
    contradicting official verdict, and the event score agrees if and only if the least pass still stands.
   */
  lemma {:induction false} AcceptedScores(events: seq<Event>, x: Expected, official: bool)
    requires Accepts(events, x)
    ensures LedgerScore(EntriesOf(Summary(events))) == AuditPoints(Summary(events))
    ensures AuditScore(Summary(events), official).Ok? <==> official == FirstPassing(Summary(events), 0).Some?
    ensures AuditScore(Summary(events), official).Ok? ==>
              (AuditScore(Summary(events), official) == Ok(EventScore(events)) <==> LeastPassStands(events))
  {
    hide Accepts, QualityEvents, RoundPassed, FirstPassing, EventScore, LeastPassStands, LedgerScore, EntriesOf;
    AcceptedSummary(events, x);
    LedgerFollowsAudit(Summary(events));
    EventFollowsAudit(events, x);
  }
}
