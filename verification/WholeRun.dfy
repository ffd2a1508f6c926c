/**
  Theorems about every run of the runner: numbering and budget, absorption, frozen verdicts and
  the retry bound.
 */
module WholeRun {
  import opened Wrappers
  import opened Evidence
  import opened GuardSpec
  import opened RunnerSpec
  import opened RunnerInvariants

  /** The guard gradings that a log shows. */
  function GraderCount(events: seq<Event>): nat {
    if events == [] then 0
    else GraderCount(events[..|events| - 1]) + (if events[|events| - 1].kind == GraderResult then 1 else 0)
  }

  ghost predicate RunnerInv(r: Runner) {
    && r.retries >= 0 && r.question != ""
    && Inv(r.state, r.retries)
    && GraderCount(r.events) == TotalGradings(r.state.rounds)
  }

  lemma {:induction false} CountAppend(events: seq<Event>, e: Event)
    ensures GraderCount(events + [e]) == GraderCount(events) + (if e.kind == GraderResult then 1 else 0)
  {
    assert (events + [e])[..|events|] == events;
  }

  /** Earlier records, and any record with a verdict, are never touched again. */
  ghost predicate HistoryKept(s: State, t: State) {
    && |s.rounds| <= |t.rounds|
    && forall i :: 0 <= i < |s.rounds| && (i < |s.rounds| - 1 || s.rounds[i].passed.Some?) ==>
         t.rounds[i] == s.rounds[i]
  }

  ghost predicate Extends(r: Runner, t: Runner) {
    && r.events <= t.events && r.question == t.question && r.retries == t.retries
    && HistoryKept(r.state, t.state)
  }

  /** The consequences of the invariant that the calls use. */
  lemma {:induction false} Facts(s: State, retries: int)
    requires Inv(s, retries)
    ensures s.lastRound == |s.rounds|
    ensures forall i :: 0 <= i < |s.rounds| ==>
              s.rounds[i].number == i + 1 && (s.rounds[i].started <==> s.rounds[i].passed.Some?)
    ensures s.gate.Some? <==> s.status == EvidenceRecoveryRequired
    ensures s.gate.Some? ==> s.gate.value.round == s.lastRound + 1 <= MAX_ROUNDS
    ensures s.status == InfrastructureFailure ==>
              s.rounds != [] && Last(s).passed.None? && 0 <= Last(s).gradings <= retries
  {
  }

  lemma {:induction false} SameHistory(s: State, t: State)
    requires t.rounds == s.rounds
    ensures HistoryKept(s, t)
  {
  }

  lemma {:induction false} HistoryTransitive(s: State, t: State, u: State)
    requires HistoryKept(s, t) && HistoryKept(t, u)
    ensures HistoryKept(s, u)
  {
  }

  // ----- One grading --------------------------------------------------------

  lemma {:induction false} UnverifiedKeeps(s: State, source: Origin, retries: int)
    requires Core(s, retries)
    ensures var u := MarkUnverified(s, source);
            && (u.Ok? <==> s.status == Active || s.status == InfrastructureFailure)
            && (u.Ok? ==> Inv(u.value, retries) && u.value.rounds == s.rounds)
  {
  }

  lemma {:induction false} SettleKeeps(r: Runner, q: Request, g: Grading, grader: GraderOutcome, attempt: int)
    requires r.retries >= 0 && r.question != "" && Core(r.state, r.retries)
    requires GraderCount(r.events) == TotalGradings(r.state.rounds)
    requires Inconclusive(g) ==> r.state.status == InfrastructureFailure
    requires q.round >= 1 && q.who.Complete() && q.patch != "" && attempt >= 0
    ensures var (t, error) := Settle(r, q, g, grader, attempt);
            RunnerInv(t) && error.None? && Extends(r, t) && GraderCount(t.events) == GraderCount(r.events)
  {
    hide GraderCount, HistoryKept, RecordsOk, GateOk, IdentityOk;
    SameHistory(r.state, r.state);
    if Inconclusive(g) || Exhausted(r) {
      var source := if Inconclusive(g) then GraderFeedback else GraderInfrastructure;
      UnverifiedKeeps(r.state, source, r.retries);
      var closed := r.(state := MarkUnverified(r.state, source).value);
      SameHistory(r.state, closed.state);
      CountAppend(r.events,
        if Inconclusive(g) then MakeEvent(closed, q, Terminal, None, Some(grader), attempt, Some(|r.events|), false)
        else MakeEvent(closed, q, Terminal, None, None, Last(r.state).gradings, Some(|r.events|), false));
    }
  }

  lemma {:induction false} GradedHistory(s: State, o: Outcome, reply: GraderReply)
    requires s.rounds != [] && Last(s).passed.None?
    ensures HistoryKept(s, RunGrader(s, o, reply).0)
  {
  }

  lemma {:induction false} GradeKeeps(r: Runner, q: Request, o: Outcome, g: Grading, parent: int, attempt: int)
    requires RunnerInv(r) && Authorised(r.state, o, r.retries)
    requires q.round >= 1 && q.who.Complete() && q.patch != "" && attempt >= 0
    ensures var (t, result) := GradeRound(r, q, o, g, parent, attempt);
            && RunnerInv(t) && Extends(r, t)
            && (if g == GraderBreaksProtocol then result == Err(ProtocolFault)
                else result.Ok? && GraderCount(t.events) == GraderCount(r.events) + 1)
  {
    hide RunGrader, Settle, Core, HistoryKept, GraderCount;
    if g == GraderBreaksProtocol {
      SameHistory(r.state, r.state);
    } else {
      Facts(r.state, r.retries);
      GradedHistory(r.state, o, ReplyOf(g));
      RunGraderKeeps(r.state, o, ReplyOf(g), r.retries);
      var (s, grader) := RunGrader(r.state, o, ReplyOf(g));
      var graded := r.(state := s);
      var consumed := g.Feedback? && grader.value.failure != Some(Infrastructure);
      var e := MakeEvent(graded, q, GraderResult, Some(o), Some(grader.value), attempt, Some(parent), consumed);
      CountAppend(r.events, e);
      var logged := graded.(events := r.events + [e]);
      SettleKeeps(logged, q, g, grader.value, attempt);
      HistoryTransitive(r.state, s, Settle(logged, q, g, grader.value, attempt).0.state);
    }
  }

  // ----- One call -----------------------------------------------------------

  /** A state the guard moved to before anything is logged. */
  ghost predicate Evaluated(r: Runner, s: State) {
    RunnerInv(r) && Inv(s, r.retries) && HistoryKept(r.state, s)
      && TotalGradings(s.rounds) == TotalGradings(r.state.rounds)
  }

  lemma {:induction false} LogKeeps(r: Runner, s: State, q: Request, kind: EventKind, o: Outcome, g: Grading,
                                    attempt: int, gradeAttempt: int, consumed: bool, needsEvidence: bool,
                                    needsRetry: bool)
    requires Evaluated(r, s) && kind != GraderResult && gradeAttempt >= 0
    requires o.allowed ==> Authorised(s, o, r.retries) && q.round >= 1 && q.who.Complete() && q.patch != ""
    ensures var (t, result) :=
              LogAndGrade(r.(state := s), q, kind, o, g, attempt, gradeAttempt, consumed, needsEvidence, needsRetry);
            && RunnerInv(t) && Extends(r, t) && result != Err(BudgetExhausted)
            && (o.allowed && result.Ok? ==> GraderCount(t.events) == GraderCount(r.events) + 1)
            && (!o.allowed && result.Ok? ==> result.value.needsRetry == needsRetry)
  {
    hide Inv, GradeRound;
    var evaluated := r.(state := s);
    var e := MakeEvent(evaluated, q, kind, Some(o), None, attempt, None, consumed);
    CountAppend(r.events, e);
    if o.allowed {
      var logged := evaluated.(events := r.events + [e]);
      GradeKeeps(logged, q, o, g, |logged.events|, gradeAttempt);
    }
  }

  lemma {:induction false} AddedRecord(s: State, t: State, q: Request, decision: Decision)
    requires AddsRecord(s, t, q, decision)
    ensures TotalGradings(t.rounds) == TotalGradings(s.rounds) && HistoryKept(s, t)
  {
    assert t.rounds == s.rounds + [Last(t)];
    AppendRecord(s, Last(t));
  }

  /** An evaluation that raises leaves the records alone. */
  lemma {:induction false} RefusalKeeps(s: State, q: Request)
    ensures Evaluate(s, q).1.Err? ==> Evaluate(s, q).0.rounds == s.rounds
  {
    hide Observe, ContractErrors, LacksSemanticTools, RecordQuality, AnswerGate;
  }

  lemma {:induction false} QualityKeeps(r: Runner, q: Request, g: Grading)
    requires RunnerInv(r)
    ensures var (t, result) := SubmitQuality(r, q, g);
            RunnerInv(t) && Extends(r, t) && result != Err(BudgetExhausted)
  {
    hide Evaluate, LogAndGrade, Inv;
    Facts(r.state, r.retries);
    RefusalKeeps(r.state, q);
    if r.state.status == Active {
      EvaluateKeeps(r.state, q, r.retries);
      var (s, outcome) := Evaluate(r.state, q);
      if outcome.Ok? {
        var o := outcome.value;
        QualityMoves(r.state, q);
        if s.rounds != r.state.rounds {
          AddedRecord(r.state, s, q, o.decision);
        }
        LogKeeps(r, s, q, QualityRound, o, g, 0, 1, o.decision == NoProgress || o.decision == RejectContract,
                 o.decision == RequireEvidence,
                 o.decision != RequireEvidence && o.failure == Some(Infrastructure) && PendingRetry(s));
      }
    }
  }

  lemma {:induction false} RecoveryKeeps(r: Runner, q: Request, g: Grading)
    requires RunnerInv(r)
    ensures var (t, result) := SubmitRecovery(r, q, g);
            RunnerInv(t) && Extends(r, t) && result != Err(BudgetExhausted)
  {
    hide Evaluate, LogAndGrade, Inv;
    Facts(r.state, r.retries);
    if r.state.gate.Some? {
      var attempt := RecoveryAttempt(r.state, q);
      var asked := q.(action := EvidenceRecovery, attempt := Some(attempt));
      RefusalKeeps(r.state, asked);
      EvaluateKeeps(r.state, asked, r.retries);
      var (s, outcome) := Evaluate(r.state, asked);
      if outcome.Ok? {
        RecoveryMoves(r.state, asked);
        if outcome.value.recovered {
          AddedRecord(r.state, s, asked, outcome.value.decision);
        }
        LogKeeps(r, s, asked, Recovery, outcome.value, g, attempt, 1, false, s.gate.Some? && !Closed(s.status), false);
      }
    }
  }

  /** A retry leaves a state that may be logged, and an authorised one fits its last record. */
  lemma {:induction false} RetryEvaluated(r: Runner, q: Request)
    requires RunnerInv(r) && r.state.status == InfrastructureFailure
    ensures var (s, outcome) := Evaluate(r.state, q);
            && Evaluated(r, s)
            && (outcome.Ok? && outcome.value.allowed ==>
                  Authorised(s, outcome.value, r.retries) && q.round >= 1 && q.who.Complete() && q.patch != "")
  {
    hide Evaluate, Inv, GraderCount;
    Facts(r.state, r.retries);
    RefusalKeeps(r.state, q);
    EvaluateKeeps(r.state, q, r.retries);
    if Evaluate(r.state, q).1.Ok? {
      RetryMoves(r.state, q);
      ReplaceLast(r.state, Last(r.state).(allowed := true));
    }
  }

  lemma {:induction false} RetryKeepsRunner(r: Runner, q: Request, g: Grading)
    requires RunnerInv(r)
    ensures var (t, result) := RetryInfra(r, q, g);
            && RunnerInv(t) && Extends(r, t) && result != Err(BudgetExhausted)
            && (result.Ok? && result.value.needsRetry ==> GraderCount(t.events) == GraderCount(r.events) + 1)
  {
    hide Evaluate, LogAndGrade, Inv, GraderCount, HistoryKept, Authorised;
    Facts(r.state, r.retries);
    SameHistory(r.state, r.state);
    if r.state.status == InfrastructureFailure {
      var gradings := Last(r.state).gradings;
      var asked := q.(action := InfraRecovery);
      RetryEvaluated(r, asked);
      var (s, outcome) := Evaluate(r.state, asked);
      if outcome.Ok? {
        LogKeeps(r, s, asked, InfraRetry, outcome.value, g, gradings + 1, gradings + 1, false, false, false);
      }
    }
  }

  lemma {:induction false} NonQualityKeeps(r: Runner, q: Request, supportedKind: bool, message: string)
    requires RunnerInv(r)
    ensures var (t, result) := RecordNonQuality(r, q, supportedKind, message);
            RunnerInv(t) && Extends(r, t) && result != Err(BudgetExhausted)
  {
    hide GraderCount, HistoryKept, RecordsOk, GateOk, IdentityOk, StatusOk;
    UnverifiedKeeps(r.state, RunnerInfrastructure, r.retries);
    SameHistory(r.state, r.state);
    if supportedKind && (r.state.status == Active || r.state.status == InfrastructureFailure) && message != "" {
      var s := MarkUnverified(r.state, RunnerInfrastructure).value;
      SameHistory(r.state, s);
      CountAppend(r.events, MakeEvent(r.(state := s), q, Terminal, None, None, 0, None, false));
    }
  }

  /** Every call keeps the invariant, only extends the log, and never meets a spent retry budget. */
  lemma {:induction false} DoKeeps(r: Runner, c: Call)
    requires RunnerInv(r)
    ensures var (t, result) := Do(r, c); RunnerInv(t) && Extends(r, t) && result != Err(BudgetExhausted)
  {
    hide SubmitQuality, SubmitRecovery, RetryInfra, RecordNonQuality, RunnerInv, Extends;
    match c
    case Quality(q, g) => QualityKeeps(r, q, g);
    case Recover(q, g) => RecoveryKeeps(r, q, g);
    case Retry(q, g) => RetryKeepsRunner(r, q, g);
    case NonQuality(q, supportedKind, message) => NonQualityKeeps(r, q, supportedKind, message);
  }

  // ----- Every run ----------------------------------------------------------

  lemma {:induction false} GradingBound(r: Runner)
    requires RunnerInv(r)
    ensures GraderCount(r.events) <= MAX_ROUNDS * (1 + r.retries)
  {
    assert forall i :: 0 <= i < |r.state.rounds| ==> RecordOk(r.state.rounds[i], r.retries);
    GradingsAtMost(r.state.rounds, r.retries);
    assert |r.state.rounds| * (1 + r.retries) <= MAX_ROUNDS * (1 + r.retries);
  }

  ghost predicate Started(question: string, retries: int) {
    question != "" && retries >= 0
  }

  lemma {:induction false} FreshInv(question: string, retries: int, limit: int)
    requires Started(question, retries)
    ensures RunnerInv(Fresh(question, retries, limit))
  {
    EmptyInv(limit, retries);
  }

  lemma {:induction false} RunKeeps(r: Runner, calls: seq<Call>)
    requires RunnerInv(r)
    ensures RunnerInv(Run(r, calls)) && Extends(r, Run(r, calls))
    decreases |calls|
  {
    hide Do, Inv;
    SameHistory(r.state, r.state);
    if calls != [] {
      var before := Run(r, calls[..|calls| - 1]);
      RunKeeps(r, calls[..|calls| - 1]);
      DoKeeps(before, calls[|calls| - 1]);
      HistoryTransitive(r.state, before.state, Run(r, calls).state);
    }
  }

  lemma {:induction false} RunSplits(r: Runner, first: seq<Call>, rest: seq<Call>)
    ensures Run(r, first + rest) == Run(Run(r, first), rest)
    decreases |rest|
  {
    hide Do;
    if rest == [] {
      assert first + rest == first;
    } else {
      var n := |rest| - 1;
      RunSplits(r, first, rest[..n]);
      assert (first + rest)[..|first + rest| - 1] == first + rest[..n];
    }
  }

  lemma {:induction false} CostsAtMostOne(rounds: seq<RoundRecord>, retries: int)
    requires forall i :: 0 <= i < |rounds| ==> RecordOk(rounds[i], retries)
    ensures TotalCost(rounds) <= |rounds|
  {
    if rounds != [] {
      var n := |rounds| - 1;
      assert RecordOk(rounds[n], retries);
      CostsAtMostOne(rounds[..n], retries);
    }
  }

  lemma {:induction false} GradingsAtMost(rounds: seq<RoundRecord>, retries: int)
    requires forall i :: 0 <= i < |rounds| ==> RecordOk(rounds[i], retries)
    ensures TotalGradings(rounds) <= |rounds| * (1 + retries)
  {
    if rounds != [] {
      var n := |rounds| - 1;
      assert RecordOk(rounds[n], retries);
      GradingsAtMost(rounds[..n], retries);
      assert |rounds| * (1 + retries) == n * (1 + retries) + (1 + retries);
    }
  }

  /**
    After any calls with any graders: rounds are numbered 1..lastRound and number at most three, a gate
    is pending exactly in its own status and for the next round, and the budget is exactly the
    blocked rounds plus the verdicts.
   */
  lemma {:induction false} WholeRunInvariant(question: string, retries: int, limit: int, calls: seq<Call>)
    requires Started(question, retries)
    ensures var s := Run(Fresh(question, retries, limit), calls).state;
            && s.lastRound == |s.rounds| <= MAX_ROUNDS
            && (forall i :: 0 <= i < |s.rounds| ==> s.rounds[i].number == i + 1)
            && (s.gate.Some? <==> s.status == EvidenceRecoveryRequired)
            && (s.gate.Some? ==> s.gate.value.round == s.lastRound + 1)
            && s.used == TotalCost(s.rounds) <= s.lastRound
  {
    var r := Fresh(question, retries, limit);
    RunKeeps(r, calls);
    CostsAtMostOne(Run(r, calls).state.rounds, retries);
  }

  /** Success is exactly an accepted last record, and no earlier record is ever accepted. */
  lemma {:induction false} SuccessIsLastVerdict(question: string, retries: int, limit: int, calls: seq<Call>)
    requires Started(question, retries)
    ensures var s := Run(Fresh(question, retries, limit), calls).state;
            && (s.status == Succeeded <==> s.rounds != [] && Last(s).passed == Some(true))
            && (forall i :: 0 <= i < |s.rounds| ==> (s.rounds[i].accepted <==> s.rounds[i].passed == Some(true)))
            && (forall i :: 0 <= i < |s.rounds| - 1 ==> s.rounds[i].passed != Some(true))
  {
    hide Run;
    var r := Fresh(question, retries, limit);
    RunKeeps(r, calls);
    var s := Run(r, calls).state;
    assert forall i :: 0 <= i < |s.rounds| ==> RecordOk(s.rounds[i], retries);
  }

  /** A closed runner ignores every further call: neither its state nor its log moves again. */
  lemma {:induction false} ClosedAbsorbs(r: Runner, calls: seq<Call>)
    requires RunnerInv(r) && Closed(r.state.status)
    ensures Run(r, calls) == r
    decreases |calls|
  {
    if calls != [] {
      ClosedAbsorbs(r, calls[..|calls| - 1]);
      ClosedRefuses(r, calls[|calls| - 1]);
    }
  }

  lemma {:induction false} ClosedRefuses(r: Runner, c: Call)
    requires RunnerInv(r) && Closed(r.state.status)
    ensures Do(r, c).0 == r && Do(r, c).1.Err?
  {
    hide Evaluate, LogAndGrade;
  }

  /** Once a run is closed, continuing it changes nothing. */
  lemma {:induction false} TerminalAbsorption(question: string, retries: int, limit: int, calls: seq<Call>,
                                              more: seq<Call>)
    requires Started(question, retries)
    ensures var r := Fresh(question, retries, limit);
            Closed(Run(r, calls).state.status) ==> Run(r, calls + more) == Run(r, calls)
  {
    hide Do;
    var r := Fresh(question, retries, limit);
    RunKeeps(r, calls);
    RunSplits(r, calls, more);
    if Closed(Run(r, calls).state.status) {
      ClosedAbsorbs(Run(r, calls), more);
    }
  }

  /** However a run continues, its log is only extended and a verdict once given stays. */
  lemma {:induction false} VerdictsAreFinal(question: string, retries: int, limit: int, calls: seq<Call>,
                                            more: seq<Call>)
    requires Started(question, retries)
    ensures var before := Run(Fresh(question, retries, limit), calls);
            var after := Run(Fresh(question, retries, limit), calls + more);
            && before.events <= after.events
            && |before.state.rounds| <= |after.state.rounds|
            && forall i :: 0 <= i < |before.state.rounds| && before.state.rounds[i].passed.Some?
                           ==> after.state.rounds[i] == before.state.rounds[i]
  {
    hide Do;
    var r := Fresh(question, retries, limit);
    RunKeeps(r, calls);
    RunSplits(r, calls, more);
    RunKeeps(Run(r, calls), more);
  }

  /** A round is graded at most once plus its retries, and a whole run at most three times that. */
  lemma {:induction false} RetryBound(question: string, retries: int, limit: int, calls: seq<Call>)
    requires Started(question, retries)
    ensures var r := Run(Fresh(question, retries, limit), calls);
            && (forall i :: 0 <= i < |r.state.rounds| ==> r.state.rounds[i].gradings <= 1 + retries)
            && GraderCount(r.events) == TotalGradings(r.state.rounds) <= MAX_ROUNDS * (1 + retries)
            && (forall q, g :: RetryInfra(r, q, g).1 != Err(BudgetExhausted))
  {
    hide Run, RetryInfra;
    var start := Fresh(question, retries, limit);
    RunKeeps(start, calls);
    var r := Run(start, calls);
    assert forall i :: 0 <= i < |r.state.rounds| ==> RecordOk(r.state.rounds[i], retries);
    GradingBound(r);
    forall q, g
      ensures RetryInfra(r, q, g).1 != Err(BudgetExhausted)
    {
      RetryKeepsRunner(r, q, g);
    }
  }
}
