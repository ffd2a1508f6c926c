/**
  Calls that raise after they have logged an event or dropped the gate
  (scripts/cross_file_five_round_runner.py, lines 813-1098), and a run that such a call takes from the acceptor.
 */
module LossyCalls {
  import opened Wrappers
  import opened Evidence
  import opened GuardSpec
  import opened RunnerSpec
  import opened RunnerInvariants
  import opened WholeRun
  import opened EventAcceptor
  import opened RunTrace
  import opened ProducerRefinement
  import opened GateSoundness
  import opened BudgetAudit
  import opened BudgetWitnesses

  // ----- Exactly which calls ------------------------------------------------

  ghost predicate Allows(s: State, q: Request) {
    Evaluate(s, q).1.Ok? && Evaluate(s, q).1.value.allowed
  }

  /** A recovery of another patch drops the gate, and its round or attempt number makes no event. */
  predicate DropsSilently(r: Runner, q: Request)
    requires r.state.gate.Some?
  {
    && CheckOwner(r.state, q).None? && q.patch != "" && q.patch != r.state.gate.value.patch
    && (q.round < 1 || RecoveryAttempt(r.state, q) < 0)
  }

  /** The guards, on state, request and grader, of a call that goes unreported. */
  ghost predicate Unreported(r: Runner, c: Call) {
    match c
    case Quality(q, g) => r.state.status == Active && g == GraderBreaksProtocol && Allows(r.state, q)
    case Recover(q, g) =>
      && r.state.gate.Some?
      && ((g == GraderBreaksProtocol && Allows(r.state, Asked(r, q))) || DropsSilently(r, q))
    case Retry(q, g) =>
      && r.state.status == InfrastructureFailure && g == GraderBreaksProtocol
      && Allows(r.state, q.(action := InfraRecovery))
    case NonQuality(q, supportedKind, message) => false
  }

  /** A logged outcome is lost exactly when its grader breaks the protocol. */
  lemma {:induction false} LoggedLoses(r: Runner, s: State, q: Request, kind: EventKind, o: Outcome, g: Grading,
                                       attempt: int, gradeAttempt: int, consumed: bool,
                                       needsEvidence: bool, needsRetry: bool)
    requires Evaluated(r, s) && kind != GraderResult && gradeAttempt >= 0
    requires o.allowed ==> Authorised(s, o, r.retries)
    requires WellFormed(MakeEvent(r.(state := s), q, kind, Some(o), None, attempt, None, consumed))
    ensures var (t, result) := LogAndGrade(r.(state := s), q, kind, o, g, attempt, gradeAttempt, consumed,
                                           needsEvidence, needsRetry);
            Loses(r, t, result.Err?) <==> o.allowed && g == GraderBreaksProtocol
  {
    hide Inv, GradeRound, GraderCount;
    var evaluated := r.(state := s);
    var e := MakeEvent(evaluated, q, kind, Some(o), None, attempt, None, consumed);
    var logged := evaluated.(events := r.events + [e]);
    CountAppend(r.events, e);
    if o.allowed {
      GradeKeeps(logged, q, o, g, |logged.events|, gradeAttempt);
      if g == GraderBreaksProtocol {
        ProtocolRaises(logged, q, o, gradeAttempt);
        assert |logged.events| == |r.events| + 1;
      }
    }
  }

  lemma {:induction false} QualityLoses(r: Runner, q: Request, g: Grading)
    requires RunnerInv(r) && !Abandoned(SubmitQuality(r, q, g).0.state.status)
    ensures Lossy(r, Quality(q, g)) <==> Unreported(r, Quality(q, g))
  {
    hide Evaluate, LogAndGrade, Inv, GraderCount, HistoryKept, Authorised, WellFormed;
    Facts(r.state, r.retries);
    if r.state.status == Active {
      var (s, outcome) := Evaluate(r.state, q);
      if outcome.Err? {
        RefusalMoves(r.state, q);
      } else {
        var o := outcome.value;
        var consumed := o.decision == NoProgress || o.decision == RejectContract;
        var e := MakeEvent(r.(state := s), q, QualityRound, Some(o), None, 0, None, consumed);
        QualityEvaluated(r, q, s, o);
        QualityRefusal(r, q, s, o, e);
        if WellFormed(e) {
          LoggedLoses(r, s, q, QualityRound, o, g, 0, 1, consumed, o.decision == RequireEvidence,
                      o.decision != RequireEvidence && o.failure == Some(Infrastructure) && PendingRetry(s));
        } else {
          Unlogs(r.(state := s), q, QualityRound, o, g, 0, 1, consumed, o.decision == RequireEvidence,
                 o.decision != RequireEvidence && o.failure == Some(Infrastructure) && PendingRetry(s));
        }
      }
    }
  }

  lemma {:induction false} Unlogs(r: Runner, q: Request, kind: EventKind, o: Outcome, g: Grading, attempt: int,
                                  gradeAttempt: int, consumed: bool, needsEvidence: bool, needsRetry: bool)
    requires !WellFormed(MakeEvent(r, q, kind, Some(o), None, attempt, None, consumed))
    ensures LogAndGrade(r, q, kind, o, g, attempt, gradeAttempt, consumed, needsEvidence, needsRetry)
         == (r, Err(BadEvent))
  {
    hide WellFormed;
  }

  lemma {:induction false} QualityEvaluated(r: Runner, q: Request, s: State, o: Outcome)
    requires RunnerInv(r) && r.state.status == Active && Evaluate(r.state, q) == (s, Ok(o))
    ensures Evaluated(r, s) && (o.allowed ==> Authorised(s, o, r.retries))
  {
    hide Evaluate, Inv, GraderCount, HistoryKept, Authorised;
    Facts(r.state, r.retries);
    EvaluateKeeps(r.state, q, r.retries);
    QualityMoves(r.state, q);
    if s.rounds != r.state.rounds {
      AddedRecord(r.state, s, q, o.decision);
    } else {
      SameHistory(r.state, s);
    }
  }

  lemma {:induction false} RecoveryEvaluated(r: Runner, q: Request, s: State, o: Outcome)
    requires RunnerInv(r) && r.state.gate.Some? && q.ExplicitRecovery() && Evaluate(r.state, q) == (s, Ok(o))
    ensures Evaluated(r, s) && (o.allowed ==> Authorised(s, o, r.retries))
  {
    hide Evaluate, Inv, GraderCount, HistoryKept, Authorised;
    Facts(r.state, r.retries);
    EvaluateKeeps(r.state, q, r.retries);
    RecoveryMoves(r.state, q);
    if o.recovered {
      AddedRecord(r.state, s, q, o.decision);
    } else {
      SameHistory(r.state, s);
    }
  }

  /** An evaluated recovery that leaves the arm open makes no event exactly when it drops the gate silently. */
  lemma {:induction false} SilentDrop(r: Runner, q: Request, s: State, o: Outcome, e: Event)
    requires RunnerInv(r) && r.state.gate.Some?
    requires Evaluate(r.state, Asked(r, q)) == (s, Ok(o)) && !Abandoned(s.status)
    requires e == MakeEvent(r.(state := s), Asked(r, q), Recovery, Some(o), None, RecoveryAttempt(r.state, q), None,
                            false)
    ensures !WellFormed(e) <==> DropsSilently(r, q)
    ensures !WellFormed(e) ==> !o.allowed && s.gate.None?
  {
    hide AnswerGate, RecordsOk, GraderCount;
    Facts(r.state, r.retries);
    RecoveryMoves(r.state, Asked(r, q));
    RecoveryNumbers(r.state, Asked(r, q));
  }

  lemma {:induction false} RecoveryLoses(r: Runner, q: Request, g: Grading)
    requires RunnerInv(r) && !Abandoned(SubmitRecovery(r, q, g).0.state.status)
    ensures Lossy(r, Recover(q, g)) <==> Unreported(r, Recover(q, g))
  {
    hide Evaluate, LogAndGrade, Inv, GraderCount, HistoryKept, Authorised, WellFormed, DropsSilently;
    Facts(r.state, r.retries);
    if r.state.gate.Some? {
      var attempt := RecoveryAttempt(r.state, q);
      var asked := Asked(r, q);
      var (s, outcome) := Evaluate(r.state, asked);
      if outcome.Err? {
        RefusalMoves(r.state, asked);
        RefusedKeepsGate(r, q);
      } else {
        var o := outcome.value;
        var e := MakeEvent(r.(state := s), asked, Recovery, Some(o), None, attempt, None, false);
        RecoveryEvaluated(r, asked, s, o);
        var needs := s.gate.Some? && !Closed(s.status);
        if WellFormed(e) {
          LoggedLoses(r, s, asked, Recovery, o, g, attempt, 1, false, needs, false);
          LoggedStaysOpen(r, s, asked, o, g, attempt, needs);
        } else {
          Unlogs(r.(state := s), asked, Recovery, o, g, attempt, 1, false, needs, false);
        }
        SilentDrop(r, q, s, o, e);
      }
    }
  }

  /** Grading an abandoned state is not possible, so an open result had an open evaluation. */
  lemma {:induction false} LoggedStaysOpen(r: Runner, s: State, q: Request, o: Outcome, g: Grading, attempt: int,
                                           needs: bool)
    requires o.allowed ==> Authorised(s, o, r.retries)
    requires !Abandoned(LogAndGrade(r.(state := s), q, Recovery, o, g, attempt, 1, false, needs, false).0.state.status)
    ensures !Abandoned(s.status)
  {
    hide GradeRound;
  }

  lemma {:induction false} RefusedKeepsGate(r: Runner, q: Request)
    requires r.state.gate.Some? && Evaluate(r.state, Asked(r, q)).1.Err?
    ensures !DropsSilently(r, q)
  {
    hide AnswerGate;
  }

  lemma {:induction false} RetryLoses(r: Runner, q: Request, g: Grading)
    requires RunnerInv(r) && !Abandoned(RetryInfra(r, q, g).0.state.status)
    ensures Lossy(r, Retry(q, g)) <==> Unreported(r, Retry(q, g))
  {
    hide Evaluate, LogAndGrade, Inv, GraderCount, HistoryKept, Authorised;
    Facts(r.state, r.retries);
    if r.state.status == InfrastructureFailure {
      var n := Last(r.state).gradings + 1;
      var asked := q.(action := InfraRecovery);
      var (s, outcome) := Evaluate(r.state, asked);
      RetryEvaluated(r, asked);
      if outcome.Err? {
        RefusalMoves(r.state, asked);
      } else {
        var o := outcome.value;
        RetryMoves(r.state, asked);
        var e := MakeEvent(r.(state := s), asked, InfraRetry, Some(o), None, n, None, false);
        if WellFormed(e) {
          LoggedLoses(r, s, asked, InfraRetry, o, g, n, n, false, false, false);
        } else {
          Unlogs(r.(state := s), asked, InfraRetry, o, g, n, n, false, false, false);
        }
      }
    }
  }

  /** A call that leaves the arm open is lossy exactly when its guard holds. */
  lemma {:induction false} LossyExact(r: Runner, c: Call)
    requires RunnerInv(r) && !Abandoned(Do(r, c).0.state.status)
    ensures Lossy(r, c) <==> Unreported(r, c)
  {
    hide SubmitQuality, SubmitRecovery, RetryInfra, RunnerInv, Unreported, Lossy;
    match c
    case Quality(q, g) => QualityLoses(r, q, g);
    case Recover(q, g) => RecoveryLoses(r, q, g);
    case Retry(q, g) => RetryLoses(r, q, g);
    case NonQuality(q, supportedKind, message) => NonQualityLoses(r, q, supportedKind, message);
  }

  lemma {:induction false} NonQualityLoses(r: Runner, q: Request, supportedKind: bool, message: string)
    requires !Abandoned(RecordNonQuality(r, q, supportedKind, message).0.state.status)
    ensures !Lossy(r, NonQuality(q, supportedKind, message)) && !Unreported(r, NonQuality(q, supportedKind, message))
  {
    hide WellFormed;
  }

  lemma {:induction false} StillOpen(r: Runner, c: Call)
    requires RunnerInv(r) && !Abandoned(Do(r, c).0.state.status)
    ensures !Abandoned(r.state.status)
  {
    hide Do, RunnerInv;
    if Closed(r.state.status) {
      ClosedRefuses(r, c);
    }
  }

  /** No call of the run met the guard of an unreported one. */
  ghost predicate Reported(r: Runner, calls: seq<Call>) {
    forall i :: 0 <= i < |calls| ==> !Unreported(Run(r, calls[..i]), calls[i])
  }

  lemma {:induction false} ReportedStep(r: Runner, calls: seq<Call>)
    requires calls != []
    ensures var n := |calls| - 1;
            Reported(r, calls) <==> Reported(r, calls[..n]) && !Unreported(Run(r, calls[..n]), calls[n])
  {
    hide Run, Unreported;
    var n := |calls| - 1;
    assert forall i :: 0 <= i < n ==> calls[..n][..i] == calls[..i] && calls[..n][i] == calls[i];
  }

  /** A run that ended open or judged is lossless exactly when no call met its guard. */
  lemma {:induction false} LosslessExact(question: string, retries: int, limit: int, calls: seq<Call>)
    requires Started(question, retries)
    requires !Abandoned(Run(Fresh(question, retries, limit), calls).state.status)
    ensures var start := Fresh(question, retries, limit); Lossless(start, calls) <==> Reported(start, calls)
    decreases |calls|
  {
    hide Do, RunnerInv, Unreported, Lossy;
    if calls != [] {
      hide Reported;
      var start, n := Fresh(question, retries, limit), |calls| - 1;
      var init := calls[..n];
      FreshInv(question, retries, limit);
      RunKeeps(start, init);
      StillOpen(Run(start, init), calls[n]);
      LossyExact(Run(start, init), calls[n]);
      LosslessExact(question, retries, limit, init);
      ReportedStep(start, calls);
    }
  }

  // ----- A passed run that the acceptor refuses -----------------------------

  /** The second round, with a new patch. */
  function NextRound(): Request {
    CoveringRound().(round := 2, resumes := true, action := Resume, patch := "q")
  }

  /** After a first round that was authorised and never graded. */
  ghost predicate Stalled(r: Runner) {
    && r.state.status == Active && r.state.gate.None? && r.state.identity == Some(Owner())
    && r.state.lastRound == 1 && |r.state.rounds| == 1 && r.state.lastQualityPatch == Some("p")
    && |r.events| == 1 && CleanEvent(r.events[0])
  }

  lemma {:induction false} FirstStalls(question: string, retries: int, limit: int)
    requires Started(question, retries)
    ensures var r := SubmitQuality(Fresh(question, retries, limit), CoveringRound(), GraderBreaksProtocol).0;
            Stalled(r) && r.question == question
    ensures Allows(Empty(limit), CoveringRound())
  {
    hide Evaluate, ProductionPaths;
    FirstEvaluation(limit);
  }

  lemma {:induction false} SecondEvaluation(r: Runner)
    requires Stalled(r)
    ensures var q := NextRound();
            var t := RecordQuality(r.state, q, {"a.py"}, {}, [], [], None, false);
            Evaluate(r.state, q) == (t.0, Ok(t.1)) && t.1.allowed && t.1.round == 2 && t.1.decision == AllowGrader
  {
    hide Observe, ContractErrors, LacksSemanticTools, ProductionPaths;
    SecondObservation();
    OneFile(NextRound());
  }

  lemma {:induction false} SecondObservation()
    ensures var q := NextRound();
            Observe(q) == Observation({"a.py"}, {}, None, false) && ContractErrors(q) == [] && !LacksSemanticTools(q)
  {
    hide RegistryAccepts, RequiredPaths, Effective, Align, DiagnosedPaths, Used, HasUnsupportedTool;
    OneFile(NextRound());
    FullCalls();
  }

  /** Grading with a pass logs one clean event. */
  lemma {:induction false} PassIsClean(r: Runner, q: Request, o: Outcome)
    requires r.state.rounds != [] && o.allowed && o.round == r.state.lastRound && !Last(r.state).started
    requires r.question != "" && q.round >= 1 && q.who.Complete() && q.patch != "" && o.decision == AllowGrader
    requires Clean(r.events)
    ensures var t := GradeRound(r, q, o, PASSING, |r.events|, 1).0; t.state.status == Succeeded && Clean(t.events)
  {
    hide Clean;
    var t := GradeRound(r, q, o, PASSING, |r.events|, 1).0;
    assert t.events == r.events + [t.events[|r.events|]];
    CleanAppend(r.events, t.events[|r.events|]);
  }

  lemma {:induction false} SecondPasses(r: Runner)
    requires Stalled(r) && r.question != ""
    ensures var t := SubmitQuality(r, NextRound(), PASSING).0; t.state.status == Succeeded && Clean(t.events)
  {
    hide Evaluate, ProductionPaths, GradeRound, Clean;
    SecondEvaluation(r);
    var q := NextRound();
    var (s, outcome) := Evaluate(r.state, q);
    var e := MakeEvent(r.(state := s), q, QualityRound, Some(outcome.value), None, 0, None, false);
    assert Clean(r.events) by { FirstIsClean(r); }
    CleanAppend(r.events, e);
    PassIsClean(r.(state := s, events := r.events + [e]), q, outcome.value);
  }

  lemma {:induction false} FirstIsClean(r: Runner)
    requires Stalled(r)
    ensures Clean(r.events)
  {
  }

  /** A grader breaks the protocol in round 1 and passes round 2: the run succeeded with a clean log nobody accepts. */
  lemma {:induction false} UngradedRoundIsRefused(question: string, retries: int, limit: int, x: Expected)
    requires Started(question, retries)
    ensures var calls := [Quality(CoveringRound(), GraderBreaksProtocol), Quality(NextRound(), PASSING)];
            var r := Run(Fresh(question, retries, limit), calls);
            r.state.status == Succeeded && Clean(r.events) && !Accepts(r.events, x)
  {
    hide SubmitQuality, CoveringRound, NextRound, Accepts, Clean, Allows, Lossy;
    var start := Fresh(question, retries, limit);
    var c0, c1 := Quality(CoveringRound(), GraderBreaksProtocol), Quality(NextRound(), PASSING);
    var calls := [c0, c1];
    assert calls[..1] == [c0] && [c0][..0] == [] && Run(start, []) == start;
    FirstStalls(question, retries, limit);
    SecondPasses(Run(start, [c0]));
    ProducerMeetsAcceptor(question, retries, limit, calls, x);
    FreshInv(question, retries, limit);
    LossyExact(start, c0);
  }
}
