/**
  The log of a run against the acceptor.  For every run the acceptor takes the log exactly when the run ended in a
  scoreable status, no round was blocked for lack of progress, every evidence recovery succeeded and no call raised
  after it had logged an event or dropped the gate.
 */
module ProducerRefinement {
  import opened Wrappers
  import opened Evidence
  import opened GuardSpec
  import opened RunnerSpec
  import opened RunnerInvariants
  import opened WholeRun
  import opened EventAcceptor
  import opened RunTrace

  // ----- Calls --------------------------------------------------------------

  /** `kept` says that no call so far raised after logging an event or dropping the gate. */
  ghost predicate RunLog(r: Runner, kept: bool) {
    && LogOk(r.state, r.events, r.question)
    && (!Abandoned(r.state.status) ==> Traced(r.state, r.events, kept && Clean(r.events), false))
  }

  predicate CleanEvent(e: Event) {
    e.decision != Some(NoProgress) && (e.kind == Recovery ==> e.recovered)
  }

  lemma {:induction false} CleanAppend(events: seq<Event>, e: Event)
    ensures Clean(events + [e]) <==> Clean(events) && CleanEvent(e)
  {
    var after := events + [e];
    assert after[|events|] == e;
    if Clean(after) {
      forall i | 0 <= i < |events|
        ensures CleanEvent(events[i])
      {
        assert after[i] == events[i];
      }
    }
  }

  lemma {:induction false} SettleLogs(r: Runner, kept: bool, q: Request, g: Grading, grader: GraderOutcome,
                                      attempt: int)
    requires RunLog(r, kept) && r.events != [] && (Inconclusive(g) ==> r.state.status == InfrastructureFailure)
    requires Settle(r, q, g, grader, attempt).1.None?
    ensures RunLog(Settle(r, q, g, grader, attempt).0, kept)
  {
    hide LogOk, Traced;
    var t := Settle(r, q, g, grader, attempt).0;
    if t != r {
      LogGrows(r.state, r.events, r.question, t.state, t.events[|r.events|]);
      assert t.events == r.events + [t.events[|r.events|]];
    }
  }

  /** The state right after an authorised outcome was logged. */
  ghost predicate AwaitsGrading(r: Runner, kept: bool, q: Request, o: Outcome) {
    && RunnerInv(r) && LogOk(r.state, r.events, r.question) && Authorised(r.state, o, r.retries)
    && r.events != [] && r.events[|r.events| - 1].patch == q.patch == Last(r.state).patch
    && r.state.identity == Some(q.who) && q.who.Complete() && q.patch != "" && q.round == o.round
    && o.decision == Last(r.state).decision
    && Traced(r.state, r.events, kept && Clean(r.events), true)
  }

  lemma {:induction false} GraderMoves(s: State, o: Outcome, reply: GraderReply)
    requires s.rounds != [] && RunGrader(s, o, reply).1.Ok?
    ensures var (t, r) := RunGrader(s, o, reply);
            && t.rounds != [] && t.rounds == s.rounds[|s.rounds| - 1 := Last(t)]
            && Last(t).patch == Last(s).patch && Last(t).decision == Last(s).decision
            && t.gate == s.gate && t.identity == s.identity
            && r.value.passed == Last(t).passed
            && (r.value.passed.Some? ==> r.value.failure != Some(Infrastructure))
            && (r.value.passed.None? <==> t.status == InfrastructureFailure)
            && (r.value.passed == Some(true) ==> t.status == Succeeded)
            && !Abandoned(t.status)
  {
  }

  /** The grading of an authorised round is an event that fits the log. */
  lemma {:induction false} GradeNext(r: Runner, kept: bool, q: Request, o: Outcome, reply: GraderReply, e: Event)
    requires AwaitsGrading(r, kept, q, o) && RunGrader(r.state, o, reply).1.Ok?
    requires var (s, grader) := RunGrader(r.state, o, reply);
             && e.kind == GraderResult && e.sequence == |r.events| + 1 && e.status == s.status && e.round == o.round
             && e.who == q.who && e.question == r.question && e.patch == q.patch && e.parent == Some(|r.events|)
             && e.passed == grader.value.passed && e.failure == grader.value.failure && WellFormed(e)
    ensures NextEvent(r.state, r.events, r.question, RunGrader(r.state, o, reply).0, e)
  {
    hide RunGrader, Core, LogOk, Traced, GraderCount, Clean, WellFormed;
    Facts(r.state, r.retries);
    GraderMoves(r.state, o, reply);
  }

  lemma {:induction false} GradeTraced(r: Runner, kept: bool, q: Request, o: Outcome, reply: GraderReply, e: Event)
    requires AwaitsGrading(r, kept, q, o) && RunGrader(r.state, o, reply).1.Ok?
    requires e.kind == GraderResult && e.decision == Some(o.decision) && e.parent == Some(|r.events|)
    requires e.passed == RunGrader(r.state, o, reply).1.value.passed
    ensures Traced(RunGrader(r.state, o, reply).0, r.events + [e], kept && Clean(r.events + [e]), false)
  {
    hide RunGrader, Inv, LogOk, CleanOk, Damaged, GraderCount, Clean;
    GraderMoves(r.state, o, reply);
    CleanAppend(r.events, e);
    var s := RunGrader(r.state, o, reply).0;
    if kept && Clean(r.events) {
      CleanGrading(r.state, r.events, s, e);
    } else {
      DamageStays(r.state, r.events, s, e, true, false);
    }
  }

  lemma {:induction false} GradeLogs(r: Runner, kept: bool, q: Request, o: Outcome, g: Grading, attempt: int)
    requires AwaitsGrading(r, kept, q, o) && g != GraderBreaksProtocol && attempt >= 0
    ensures var (t, result) := GradeRound(r, q, o, g, |r.events|, attempt); result.Ok? && RunLog(t, kept)
  {
    hide RunGrader, Settle, Inv, LogOk, Traced, GraderCount, HistoryKept, Clean, NextEvent, Authorised;
    Facts(r.state, r.retries);
    OutcomeRound(r.state, o, r.retries);
    RunGraderKeeps(r.state, o, ReplyOf(g), r.retries);
    var (s, grader) := RunGrader(r.state, o, ReplyOf(g));
    var consumed := g.Feedback? && grader.value.failure != Some(Infrastructure);
    var graded := r.(state := s);
    var e := MakeEvent(graded, q, GraderResult, Some(o), Some(grader.value), attempt, Some(|r.events|), consumed);
    var logged := graded.(events := r.events + [e]);
    GradeNext(r, kept, q, o, ReplyOf(g), e);
    GradeTraced(r, kept, q, o, ReplyOf(g), e);
    LogGrows(r.state, r.events, r.question, s, e);
    GradeKeeps(r, q, o, g, |r.events|, attempt);
    SettleLogs(logged, kept, q, g, grader.value, attempt);
  }

  lemma {:induction false} OutcomeRound(s: State, o: Outcome, retries: int)
    requires Inv(s, retries) && Authorised(s, o, retries)
    ensures o.round == |s.rounds| >= 1
  {
  }

  /** A round that was authorised and never graded stays without a verdict. */
  lemma {:induction false} UngradedDamages(r: Runner, kept: bool, q: Request, o: Outcome)
    requires AwaitsGrading(r, kept, q, o)
    ensures RunLog(r, false)
  {
    hide LogOk, QualityEvents;
    Facts(r.state, r.retries);
  }

  /** The gate is dropped and the arm goes on without an event that says so. */
  ghost predicate DropsGate(s: State, t: State) {
    s.gate.Some? && s.status != InfrastructureFailure && t.gate.None? && t.status == Active && t.rounds == s.rounds
  }

  lemma {:induction false} DropDamages(s: State, events: seq<Event>, t: State, good: bool)
    requires Traced(s, events, good, false) && DropsGate(s, t)
    ensures Damaged(t, events, false)
  {
    hide QualityEvents, ActionsOk;
  }

  /** An outcome of the guard whose event fits the log, or refuses itself. */
  ghost predicate Loggable(r: Runner, kept: bool, s: State, q: Request, o: Outcome, e: Event) {
    && Evaluated(r, s) && RunLog(r, kept) && !Abandoned(r.state.status)
    && (if WellFormed(e) then
          && NextEvent(r.state, r.events, r.question, s, e) && e.patch == q.patch
          && (!Abandoned(s.status) ==> Traced(s, r.events + [e], kept && Clean(r.events + [e]), o.allowed))
        else Unlogged(r.state, s) && (!Abandoned(s.status) ==> DropsGate(r.state, s)))
    && (o.allowed ==> Authorised(s, o, r.retries) && q.patch == Last(s).patch && s.identity == Some(q.who)
                      && q.who.Complete() && q.patch != "" && q.round == o.round && o.decision == Last(s).decision)
  }

  /** A call that raises after it has logged an event or dropped the gate. */
  predicate Loses(r: Runner, t: Runner, raised: bool) {
    raised && (t.events != r.events || t.state.gate != r.state.gate)
  }

  lemma {:induction false} OutcomeLogs(r: Runner, kept: bool, s: State, q: Request, kind: EventKind, o: Outcome,
                                       g: Grading, attempt: int, gradeAttempt: int, consumed: bool,
                                       needsEvidence: bool, needsRetry: bool)
    requires kind != GraderResult && gradeAttempt >= 0
    requires Loggable(r, kept, s, q, o, MakeEvent(r.(state := s), q, kind, Some(o), None, attempt, None, consumed))
    ensures var (t, result) := LogAndGrade(r.(state := s), q, kind, o, g, attempt, gradeAttempt, consumed,
                                           needsEvidence, needsRetry);
            RunLog(t, kept && !Loses(r, t, result.Err?))
  {
    hide Inv, LogOk, Traced, Damaged, HistoryKept, Clean, NextEvent, GradeRound, WellFormed, Unlogged, GraderCount;
    var evaluated := r.(state := s);
    var e := MakeEvent(evaluated, q, kind, Some(o), None, attempt, None, consumed);
    if WellFormed(e) {
      var logged := evaluated.(events := r.events + [e]);
      LogGrows(r.state, r.events, r.question, s, e);
      CountAppend(r.events, e);
      if o.allowed {
        assert AwaitsGrading(logged, kept, q, o);
        if g == GraderBreaksProtocol {
          ProtocolRaises(logged, q, o, gradeAttempt);
          UngradedDamages(logged, kept, q, o);
        } else {
          GradeLogs(logged, kept, q, o, g, gradeAttempt);
        }
      }
    } else {
      LogStays(r.state, r.events, r.question, s);
      if !Abandoned(s.status) {
        DropLogs(r, kept, s);
      }
    }
  }

  lemma {:induction false} DropLogs(r: Runner, kept: bool, s: State)
    requires RunLog(r, kept) && !Abandoned(r.state.status) && LogOk(s, r.events, r.question) && DropsGate(r.state, s)
    ensures RunLog(r.(state := s), false)
  {
    hide LogOk, Traced, Damaged;
    DropDamages(r.state, r.events, s, kept && Clean(r.events));
    assert Traced(s, r.events, false, false) by { DamagedIsTraced(s, r.events); }
  }

  lemma {:induction false} DamagedIsTraced(s: State, events: seq<Event>)
    requires Damaged(s, events, false)
    ensures Traced(s, events, false, false)
  {
    hide Damaged;
  }

  lemma {:induction false} ProtocolRaises(r: Runner, q: Request, o: Outcome, attempt: int)
    ensures GradeRound(r, q, o, GraderBreaksProtocol, |r.events|, attempt) == (r, Err(ProtocolFault))
  {
  }

  lemma {:induction false} AddedCarries(s: State, t: State, q: Request, decision: Decision)
    requires AddsRecord(s, t, q, decision)
    ensures Carries(s, t)
  {
  }

  /** What a refused evaluation leaves behind: a contract failure, or at most a first identity. */
  ghost predicate RefusalMove(s: State, t: State) {
    && t.rounds == s.rounds
    && (t.status == ContractFailure
        || (t.gate == s.gate && t.status == s.status && (s.identity.Some? ==> t.identity == s.identity)))
  }

  lemma {:induction false} RefusalMoves(s: State, q: Request)
    requires Evaluate(s, q).1.Err?
    ensures RefusalMove(s, Evaluate(s, q).0)
  {
    hide Observe, ContractErrors, LacksSemanticTools, RecordQuality, AnswerGate;
  }

  lemma {:induction false} RefusalLogs(r: Runner, kept: bool, s: State)
    requires RunLog(r, kept) && !Closed(r.state.status) && RefusalMove(r.state, s)
    ensures RunLog(r.(state := s), kept && !Loses(r, r.(state := s), true))
  {
    hide LogOk, QualityEvents, ActionsOk, Clean;
    LogStays(r.state, r.events, r.question, s);
    if !Abandoned(s.status) && kept && Clean(r.events) {
      ActionsSame(r.state, r.events, s);
    }
  }

  lemma {:induction false} ActionsSame(s: State, events: seq<Event>, t: State)
    requires ActionsOk(s, events, false) && t.rounds == s.rounds
    ensures ActionsOk(t, events, false)
  {
    forall i | 0 <= i < |events| && events[i].kind in {Recovery, InfraRetry}
      ensures ActionOk(t, events, i, false)
    {
      assert ActionOk(s, events, i, false);
    }
  }

  // ----- Quality rounds -----------------------------------------------------

  lemma {:induction false} QualityNext(r: Runner, q: Request, s: State, o: Outcome, e: Event)
    requires RunnerInv(r) && r.state.gate.None? && r.state.status == Active
    requires Inv(s, r.retries) && Evaluate(r.state, q) == (s, Ok(o))
    requires e.kind == QualityRound && e.sequence == |r.events| + 1 && e.status == s.status && e.parent.None?
    requires e.who == q.who && e.question == r.question && e.round == q.round
    ensures Carries(r.state, s)
    ensures WellFormed(e) ==> NextEvent(r.state, r.events, r.question, s, e)
  {
    hide Evaluate, Core, GraderCount, WellFormed;
    Facts(r.state, r.retries);
    Facts(s, r.retries);
    QualityMoves(r.state, q);
    if s.rounds != r.state.rounds {
      AddedCarries(r.state, s, q, o.decision);
    }
  }

  /** Only a contract failure can refuse its own quality event. */
  lemma {:induction false} QualityRefusal(r: Runner, q: Request, s: State, o: Outcome, e: Event)
    requires RunnerInv(r) && r.state.gate.None? && r.state.status == Active
    requires Evaluate(r.state, q) == (s, Ok(o))
    requires e == MakeEvent(r.(state := s), q, QualityRound, Some(o), None, 0, None,
                            o.decision == NoProgress || o.decision == RejectContract)
    ensures !WellFormed(e) ==> s.status == ContractFailure
  {
    hide Evaluate, Core, GraderCount;
    Facts(r.state, r.retries);
    QualityMoves(r.state, q);
  }

  lemma {:induction false} QualityTraced(r: Runner, kept: bool, q: Request, s: State, o: Outcome, e: Event)
    requires RunnerInv(r) && RunLog(r, kept) && r.state.gate.None? && r.state.status == Active
    requires Inv(s, r.retries) && Evaluate(r.state, q) == (s, Ok(o)) && !Abandoned(s.status)
    requires e.kind == QualityRound && e.round == q.round && e.patch == q.patch && e.decision == Some(o.decision)
    ensures Traced(s, r.events + [e], kept && Clean(r.events + [e]), o.allowed)
  {
    hide Evaluate, RecordsOk, LogOk, CleanOk, Damaged, Clean, GraderCount;
    Facts(r.state, r.retries);
    Facts(s, r.retries);
    QualityMoves(r.state, q);
    CleanAppend(r.events, e);
    if kept && Clean(r.events + [e]) {
      CleanQuality(r.state, r.events, s, e, q, o.decision, o.allowed);
    } else {
      DamagedQuality(r.state, r.events, s, e, q, o.decision, o.allowed);
    }
  }

  lemma {:induction false} QualityLoggable(r: Runner, kept: bool, q: Request, s: State, o: Outcome, e: Event)
    requires RunnerInv(r) && RunLog(r, kept) && r.state.gate.None? && r.state.status == Active
    requires Evaluate(r.state, q) == (s, Ok(o))
    requires e == MakeEvent(r.(state := s), q, QualityRound, Some(o), None, 0, None,
                            o.decision == NoProgress || o.decision == RejectContract)
    ensures Loggable(r, kept, s, q, o, e)
  {
    hide Evaluate, Core, LogOk, Traced, HistoryKept, Clean, GraderCount, NextEvent, WellFormed, Carries;
    Facts(r.state, r.retries);
    EvaluateKeeps(r.state, q, r.retries);
    Facts(s, r.retries);
    QualityMoves(r.state, q);
    QualityNext(r, q, s, o, e);
    QualityRefusal(r, q, s, o, e);
    if s.rounds != r.state.rounds {
      AddedRecord(r.state, s, q, o.decision);
    } else {
      SameHistory(r.state, s);
    }
    if !Abandoned(s.status) {
      QualityTraced(r, kept, q, s, o, e);
    }
  }

  lemma {:induction false} QualityLogs(r: Runner, kept: bool, q: Request, g: Grading)
    requires RunnerInv(r) && RunLog(r, kept)
    ensures var (t, result) := SubmitQuality(r, q, g); RunLog(t, kept && !Loses(r, t, result.Err?))
  {
    hide Evaluate, LogAndGrade, Inv, RunLog, GraderCount, Loggable;
    Facts(r.state, r.retries);
    if r.state.status == Active {
      var (s, outcome) := Evaluate(r.state, q);
      if outcome.Err? {
        RefusalMoves(r.state, q);
        RefusalLogs(r, kept, s);
      } else {
        var o := outcome.value;
        var consumed := o.decision == NoProgress || o.decision == RejectContract;
        var needsRetry := o.decision != RequireEvidence && o.failure == Some(Infrastructure) && PendingRetry(s);
        QualityLoggable(r, kept, q, s, o, MakeEvent(r.(state := s), q, QualityRound, Some(o), None, 0, None, consumed));
        OutcomeLogs(r, kept, s, q, QualityRound, o, g, 0, 1, consumed, o.decision == RequireEvidence, needsRetry);
      }
    }
  }

  // ----- Evidence recoveries ------------------------------------------------

  lemma {:induction false} RecoveryNext(r: Runner, q: Request, s: State, o: Outcome, e: Event)
    requires RunnerInv(r) && r.state.gate.Some? && q.ExplicitRecovery()
    requires Inv(s, r.retries) && Evaluate(r.state, q) == (s, Ok(o))
    requires e.kind == Recovery && e.sequence == |r.events| + 1 && e.status == s.status && e.parent.None?
    requires e.who == q.who && e.question == r.question && e.round == q.round
    ensures Carries(r.state, s)
    ensures WellFormed(e) ==> NextEvent(r.state, r.events, r.question, s, e)
  {
    hide Evaluate, Core, GraderCount, WellFormed;
    Facts(r.state, r.retries);
    Facts(s, r.retries);
    RecoveryMoves(r.state, q);
    if o.recovered {
      AddedCarries(r.state, s, q, o.decision);
    }
  }

  /** Everything but a refusal has the round of the gate and its next attempt. */
  lemma {:induction false} RecoveryNumbers(s: State, q: Request)
    requires s.gate.Some? && q.ExplicitRecovery() && q.attempt.Some? && Evaluate(s, q).1.Ok?
    ensures Evaluate(s, q).1.value.decision != RejectContract ==>
              q.round == s.gate.value.round && q.attempt == Some(s.gate.value.attempts + 1)
    ensures Evaluate(s, q).1.value.decision == RejectContract ==>
              Evaluate(s, q).0.status in {Active, ContractFailure}
  {
    hide AnswerGate;
    var attempt := q.attempt.value;
    if RecoveryViolation(s.gate.value, q, attempt).None? {
      AnswerEnds(s, q, attempt);
    }
  }

  lemma {:induction false} AnswerEnds(s: State, q: Request, attempt: int)
    requires s.gate.Some?
    ensures AnswerGate(s, q, attempt).1.decision == RejectContract ==>
              AnswerGate(s, q, attempt).0.status in {Active, ContractFailure}
  {
    hide ObserveReceipts, LacksSemanticTools, HasForeignTool, SourceViolation;
  }

  /** A recovery event refuses itself only after a contract failure or a dropped gate. */
  lemma {:induction false} RecoveryRefusal(r: Runner, q: Request, s: State, o: Outcome, e: Event, attempt: int)
    requires RunnerInv(r) && r.state.gate.Some? && q.ExplicitRecovery() && q.attempt == Some(attempt)
    requires Evaluate(r.state, q) == (s, Ok(o))
    requires e == MakeEvent(r.(state := s), q, Recovery, Some(o), None, attempt, None, false)
    ensures !WellFormed(e) && !Abandoned(s.status) ==> DropsGate(r.state, s)
  {
    hide Evaluate, RecordsOk, GraderCount;
    Facts(r.state, r.retries);
    RecoveryMoves(r.state, q);
    RecoveryNumbers(r.state, q);
  }

  lemma {:induction false} RecoveryTraced(r: Runner, kept: bool, q: Request, s: State, o: Outcome, e: Event)
    requires RunnerInv(r) && RunLog(r, kept) && r.state.gate.Some? && q.ExplicitRecovery()
    requires Inv(s, r.retries) && Evaluate(r.state, q) == (s, Ok(o)) && !Abandoned(s.status)
    requires e.kind == Recovery && e.round == q.round && e.patch == q.patch && e.decision == Some(o.decision)
    requires e.recovered == o.recovered
    ensures Traced(s, r.events + [e], kept && Clean(r.events + [e]), o.allowed)
  {
    hide Evaluate, RecordsOk, LogOk, CleanOk, Clean, GraderCount, QualityEvents;
    Facts(r.state, r.retries);
    Facts(s, r.retries);
    RecoveryMoves(r.state, q);
    CleanAppend(r.events, e);
    if kept && Clean(r.events + [e]) {
      CleanAction(r.state, r.events, s, e);
    } else if !o.recovered {
      assert (r.events + [e])[|r.events|] == e;
    } else if o.allowed {
      AddedCarries(r.state, s, q, o.decision);
      DamageStays(r.state, r.events, s, e, false, true);
    }
  }

  lemma {:induction false} RecoveryLoggable(r: Runner, kept: bool, q: Request, s: State, o: Outcome, e: Event,
                                            attempt: int)
    requires RunnerInv(r) && RunLog(r, kept) && r.state.gate.Some? && q.ExplicitRecovery() && q.attempt == Some(attempt)
    requires Evaluate(r.state, q) == (s, Ok(o))
    requires e == MakeEvent(r.(state := s), q, Recovery, Some(o), None, attempt, None, false)
    ensures Loggable(r, kept, s, q, o, e)
  {
    hide Evaluate, Core, LogOk, Traced, HistoryKept, Clean, GraderCount, NextEvent, WellFormed, Carries;
    Facts(r.state, r.retries);
    EvaluateKeeps(r.state, q, r.retries);
    Facts(s, r.retries);
    RecoveryMoves(r.state, q);
    RecoveryNext(r, q, s, o, e);
    RecoveryRefusal(r, q, s, o, e, attempt);
    if o.recovered {
      AddedRecord(r.state, s, q, o.decision);
    } else {
      SameHistory(r.state, s);
    }
    if !Abandoned(s.status) {
      RecoveryTraced(r, kept, q, s, o, e);
    }
  }

  lemma {:induction false} RecoveryLogs(r: Runner, kept: bool, q: Request, g: Grading)
    requires RunnerInv(r) && RunLog(r, kept)
    ensures var (t, result) := SubmitRecovery(r, q, g); RunLog(t, kept && !Loses(r, t, result.Err?))
  {
    hide Evaluate, LogAndGrade, Inv, RunLog, GraderCount, Loggable;
    Facts(r.state, r.retries);
    if r.state.gate.Some? {
      var attempt := RecoveryAttempt(r.state, q);
      var asked := q.(action := EvidenceRecovery, attempt := Some(attempt));
      var (s, outcome) := Evaluate(r.state, asked);
      if outcome.Err? {
        RefusalMoves(r.state, asked);
        RefusalLogs(r, kept, s);
      } else {
        var o := outcome.value;
        RecoveryLoggable(r, kept, asked, s, o,
                         MakeEvent(r.(state := s), asked, Recovery, Some(o), None, attempt, None, false), attempt);
        OutcomeLogs(r, kept, s, asked, Recovery, o, g, attempt, 1, false, s.gate.Some? && !Closed(s.status), false);
      }
    }
  }

  // ----- Retries ------------------------------------------------------------

  lemma {:induction false} RetryNext(r: Runner, q: Request, s: State, o: Outcome, e: Event)
    requires RunnerInv(r) && r.state.status == InfrastructureFailure
    requires Inv(s, r.retries) && Evaluate(r.state, q) == (s, Ok(o))
    requires e.kind == InfraRetry && e.sequence == |r.events| + 1 && e.status == s.status && e.parent.None?
    requires e.who == q.who && e.question == r.question && e.round == q.round
    ensures Carries(r.state, s)
    ensures WellFormed(e) ==> NextEvent(r.state, r.events, r.question, s, e)
  {
    hide Evaluate, RecordsOk, GateOk, IdentityOk, GraderCount, WellFormed;
    Facts(r.state, r.retries);
    Facts(s, r.retries);
    RetryMoves(r.state, q);
  }

  lemma {:induction false} RetryTraced(r: Runner, kept: bool, q: Request, s: State, o: Outcome, e: Event)
    requires RunnerInv(r) && RunLog(r, kept) && r.state.status == InfrastructureFailure
    requires Evaluate(r.state, q) == (s, Ok(o)) && o.allowed
    requires e.kind == InfraRetry && e.round == q.round && e.patch == q.patch && e.decision == Some(o.decision)
    ensures Traced(s, r.events + [e], kept && Clean(r.events + [e]), true)
  {
    hide Evaluate, RecordsOk, GateOk, IdentityOk, LogOk, CleanOk, Damaged, Clean, GraderCount;
    Facts(r.state, r.retries);
    RetryMoves(r.state, q);
    CleanAppend(r.events, e);
    if kept && Clean(r.events) {
      CleanAction(r.state, r.events, s, e);
    } else {
      DamageStays(r.state, r.events, s, e, false, true);
    }
  }

  lemma {:induction false} RetryLoggable(r: Runner, kept: bool, q: Request, s: State, o: Outcome, e: Event,
                                         attempt: int)
    requires RunnerInv(r) && RunLog(r, kept) && r.state.status == InfrastructureFailure && attempt >= 0
    requires Evaluate(r.state, q) == (s, Ok(o))
    requires e == MakeEvent(r.(state := s), q, InfraRetry, Some(o), None, attempt, None, false)
    ensures Loggable(r, kept, s, q, o, e)
  {
    hide Evaluate, Inv, LogOk, Traced, HistoryKept, Clean, GraderCount, NextEvent, Carries;
    RetryEvaluated(r, q);
    Facts(r.state, r.retries);
    Facts(s, r.retries);
    RetryMoves(r.state, q);
    RetryNext(r, q, s, o, e);
    if o.allowed {
      RetryTraced(r, kept, q, s, o, e);
    }
  }

  lemma {:induction false} RetryLogs(r: Runner, kept: bool, q: Request, g: Grading)
    requires RunnerInv(r) && RunLog(r, kept)
    ensures var (t, result) := RetryInfra(r, q, g); RunLog(t, kept && !Loses(r, t, result.Err?))
  {
    hide Evaluate, LogAndGrade, Inv, RunLog, GraderCount, Loggable;
    Facts(r.state, r.retries);
    if r.state.status == InfrastructureFailure {
      var n := Last(r.state).gradings + 1;
      var asked := q.(action := InfraRecovery);
      var (s, outcome) := Evaluate(r.state, asked);
      if outcome.Err? {
        RefusalMoves(r.state, asked);
        RefusalLogs(r, kept, s);
      } else {
        var o := outcome.value;
        RetryLoggable(r, kept, asked, s, o, MakeEvent(r.(state := s), asked, InfraRetry, Some(o), None, n, None, false),
                      n);
        OutcomeLogs(r, kept, s, asked, InfraRetry, o, g, n, n, false, false, false);
      }
    }
  }

  lemma {:induction false} NonQualityLogs(r: Runner, kept: bool, q: Request, supportedKind: bool, message: string)
    requires RunLog(r, kept)
    ensures var (t, result) := RecordNonQuality(r, q, supportedKind, message);
            RunLog(t, kept && !Loses(r, t, result.Err?))
  {
    hide LogOk, Traced, WellFormed;
    var t := RecordNonQuality(r, q, supportedKind, message).0;
    if t.events != r.events {
      LogGrows(r.state, r.events, r.question, t.state, t.events[|r.events|]);
      assert t.events == r.events + [t.events[|r.events|]];
    } else if t != r {
      LogStays(r.state, r.events, r.question, t.state);
    }
  }

  ghost predicate Lossy(r: Runner, c: Call) {
    Loses(r, Do(r, c).0, Do(r, c).1.Err?)
  }

  /** Every call, whether it returns or raises, keeps the log good. */
  lemma {:induction false} CallLogs(r: Runner, kept: bool, c: Call)
    requires RunnerInv(r) && RunLog(r, kept)
    ensures RunLog(Do(r, c).0, kept && !Lossy(r, c))
  {
    hide SubmitQuality, SubmitRecovery, RetryInfra, RecordNonQuality, RunnerInv, RunLog, Loses;
    match c
    case Quality(q, g) => QualityLogs(r, kept, q, g);
    case Recover(q, g) => RecoveryLogs(r, kept, q, g);
    case Retry(q, g) => RetryLogs(r, kept, q, g);
    case NonQuality(q, supportedKind, message) => NonQualityLogs(r, kept, q, supportedKind, message);
  }

  // ----- Whole runs ---------------------------------------------------------

  /** No call of the run raised after it had logged an event or dropped the gate. */
  ghost predicate Lossless(r: Runner, calls: seq<Call>)
    decreases |calls|
  {
    calls == []
    || var init := calls[..|calls| - 1];
       Lossless(r, init) && !Lossy(Run(r, init), calls[|calls| - 1])
  }

  lemma {:induction false} RunLogs(question: string, retries: int, limit: int, calls: seq<Call>)
    requires Started(question, retries)
    ensures var start := Fresh(question, retries, limit);
            RunnerInv(Run(start, calls)) && RunLog(Run(start, calls), Lossless(start, calls))
    decreases |calls|
  {
    hide Do, Inv, Lossy, RunLog;
    var r := Fresh(question, retries, limit);
    FreshInv(question, retries, limit);
    RunKeeps(r, calls);
    if calls == [] {
      FreshLog(question, retries, limit);
    } else {
      var init := calls[..|calls| - 1];
      RunLogs(question, retries, limit, init);
      CallLogs(Run(r, init), Lossless(r, init), calls[|calls| - 1]);
    }
  }

  lemma {:induction false} FreshLog(question: string, retries: int, limit: int)
    ensures RunLog(Fresh(question, retries, limit), true)
  {
  }

  lemma {:induction false} ActionAccepted(r: Runner, i: int)
    requires LogOk(r.state, r.events, r.question) && CleanOk(r.state, r.events, false) && Clean(r.events)
    requires 0 <= i < |r.events| && r.events[i].kind in {Recovery, InfraRetry}
    ensures ChildOk(r.events, QualityEvents(r.events), i)
  {
    hide QualityEvents, LastResult, Ordered, RoundsShown, ResultsOk, PassesEnd;
    var quality := QualityEvents(r.events);
    assert ActionOk(r.state, r.events, i, false);
    assert quality[r.events[i].round - 1].round == r.events[i].round;
    forall j | 0 <= j < |r.events| && IsChild(r.events, j, i)
      ensures r.events[j].patch == r.events[i].patch
    {
      assert GradedEvent(r.state, r.events, j);
    }
  }

  lemma {:induction false} VerdictAccepted(r: Runner, k: int)
    requires LogOk(r.state, r.events, r.question) && CleanOk(r.state, r.events, false)
    requires 0 <= k < |r.state.rounds| && r.state.rounds[k].passed.Some?
    ensures VerdictOk(r.events, QualityEvents(r.events)[k])
  {
    hide QualityEvents, LastResult, Ordered, RoundsShown, PassesEnd, ActionsOk;
    assert ResultOk(r.state, r.events, k);
    ResultIsEvent(r.events, k + 1);
    var i :| 0 <= i < |r.events| && r.events[i] == LastResult(r.events, k + 1).value
             && r.events[i].kind == GraderResult && r.events[i].round == k + 1;
    assert GradedEvent(r.state, r.events, i);
  }

  lemma {:induction false} CleanAccepted(r: Runner)
    requires RunnerInv(r) && RunLog(r, true) && Scoreable(r.state.status) && Clean(r.events)
    ensures r.events != [] && r.state.identity.Some?
    ensures Accepts(r.events, Expected(r.state.identity.value, r.question, r.events[|r.events| - 1].patch))
  {
    hide QualityEvents, LastResult, Ordered, RoundsShown, ResultsOk, PassesEnd, ChildOk, VerdictOk, Clean, GradedEvent,
         ActionOk;
    Judged(r);
    var events := r.events;
    var quality := QualityEvents(events);
    forall i | 0 <= i < |events| && events[i].kind in {Recovery, InfraRetry}
      ensures ChildOk(events, quality, i)
    {
      ActionAccepted(r, i);
    }
    forall k | 0 <= k < |quality|
      ensures VerdictOk(events, quality[k])
    {
      VerdictAccepted(r, k);
    }
  }

  /** A scoreable clean run has at least one round, and a verdict on each. */
  lemma {:induction false} Judged(r: Runner)
    requires RunnerInv(r) && RunLog(r, true) && Scoreable(r.state.status) && Clean(r.events)
    ensures r.state.rounds != [] && r.state.gate.None? && r.events != []
    ensures forall k :: 0 <= k < |r.state.rounds| ==> r.state.rounds[k].passed.Some?
    ensures r.state.status == MaxRoundsReached ==> |r.state.rounds| == MAX_ROUNDS
    ensures |r.state.rounds| <= MAX_ROUNDS
  {
    hide QualityEvents, LastResult, Ordered, GradedEvent, ActionsOk, ResultsOk, PassesEnd, QualityOk;
    assert ShowsRound(r.events, |r.state.rounds|);
  }

  /** In an accepted log every round shown by a quality event has a verdict. */
  lemma {:induction false} ShownHasVerdict(events: seq<Event>, x: Expected, round: int)
    requires Accepts(events, x) && ShowsRound(events, round)
    ensures LastResult(events, round).Some? && LastResult(events, round).value.passed.Some?
  {
    hide QualityEvents, Ordered, ChildOk, LastResult, RoundsSequential, OwnedBy;
    var quality := QualityEvents(events);
    QualityMembers(events);
    var j :| 0 <= j < |events| && events[j].kind == QualityRound && events[j].round == round;
    assert events[j] in quality;
    var k :| 0 <= k < |quality| && quality[k] == events[j];
    assert VerdictOk(events, quality[k]);
  }

  /** The acceptor sees all damage. */
  lemma {:induction false} AcceptedUndamaged(r: Runner, x: Expected)
    requires LogOk(r.state, r.events, r.question) && Accepts(r.events, x) && !Abandoned(r.state.status)
    ensures |QualityEvents(r.events)| <= |r.state.rounds|
    ensures forall k :: 0 <= k < |r.state.rounds| ==> r.state.rounds[k].passed.Some?
    ensures forall i :: 0 <= i < |r.events| && r.events[i].kind == Recovery ==> r.events[i].recovered
  {
    hide QualityEvents, LastResult, Ordered, GradedEvent, PassesEnd, OwnedBy, ShowsRound;
    var quality, n := QualityEvents(r.events), |r.state.rounds|;
    if |quality| > n {
      assert VerdictOk(r.events, quality[n]);
      NoResultBeyond(r.state, r.events, n + 1);
    }
    forall k | 0 <= k < n
      ensures r.state.rounds[k].passed.Some?
    {
      ShownHasVerdict(r.events, x, k + 1);
      assert ResultOk(r.state, r.events, k);
    }
    forall i | 0 <= i < |r.events| && r.events[i].kind == Recovery
      ensures r.events[i].recovered
    {
      assert ChildOk(r.events, quality, i);
    }
  }

  lemma {:induction false} AcceptedClean(r: Runner, kept: bool, x: Expected)
    requires RunLog(r, kept) && Accepts(r.events, x)
    ensures Scoreable(r.state.status) && kept && Clean(r.events)
    ensures r.state.identity == Some(x.who) && r.question == x.question && r.events[|r.events| - 1].patch == x.patch
  {
    hide QualityEvents, LastResult, Ordered, GradedEvent, CleanOk, VerdictOk, RoundsSequential, RoundsShown, ResultsOk,
         PassesEnd, ChildOk, Clean;
    AcceptedUndamaged(r, x);
  }

  /**
    For every run: the acceptor takes the log if and only if the run ended in a scoreable status, its log is clean and
    no call raised after it had logged an event or dropped the gate.
   */
  lemma {:induction false} ProducerMeetsAcceptor(question: string, retries: int, limit: int, calls: seq<Call>,
                                                 x: Expected)
    requires Started(question, retries)
    ensures var r := Run(Fresh(question, retries, limit), calls);
            Accepts(r.events, x) <==>
              && Scoreable(r.state.status) && Clean(r.events) && Lossless(Fresh(question, retries, limit), calls)
              && r.events != [] && r.events[|r.events| - 1].patch == x.patch
              && r.state.identity == Some(x.who) && question == x.question
  {
    hide Run, Lossless, Inv, LogOk, Traced, Accepts, Clean;
    var start := Fresh(question, retries, limit);
    RunLogs(question, retries, limit, calls);
    FreshInv(question, retries, limit);
    RunKeeps(start, calls);
    var r := Run(start, calls);
    if Accepts(r.events, x) {
      AcceptedClean(r, Lossless(start, calls), x);
      AcceptedNonEmpty(r.events, x);
    }
    if Scoreable(r.state.status) && Clean(r.events) && Lossless(start, calls) {
      CleanAccepted(r);
    }
  }

  lemma {:induction false} AcceptedNonEmpty(events: seq<Event>, x: Expected)
    requires Accepts(events, x)
    ensures events != []
  {
  }
}
