/**
  The consumed flags of the event log against the quality budget of the guard
  (scripts/cross_file_five_round_runner.py, lines 957-966 and 1023-1029; scripts/cross_file_closed_loop_guard.py,
  lines 1514-1546 and 1650-1736).  The flags are right for every call but two kinds: a recovery of the last judged
  patch is charged without a flag, and a contract refusal without a record is flagged without a charge.
 */
module BudgetAudit {
  import opened Wrappers
  import opened Evidence
  import opened GuardSpec
  import opened RunnerSpec
  import opened RunnerInvariants
  import opened WholeRun
  import opened GateSoundness

  // ----- Counting -----------------------------------------------------------

  /** Events flagged as consuming a quality round, recoveries that were blocked, and refused quality rounds. */
  datatype Tally = Tally(consumed: int, blocked: int, refused: int)

  function Add(t: Tally, e: Event): Tally {
    Tally(t.consumed + (if e.consumed then 1 else 0),
          t.blocked + (if e.kind == Recovery && e.decision == Some(NoProgress) then 1 else 0),
          t.refused + (if e.kind == QualityRound && e.decision == Some(RejectContract) then 1 else 0))
  }

  function TallyOf(events: seq<Event>): Tally {
    if events == [] then Tally(0, 0, 0) else Add(TallyOf(events[..|events| - 1]), events[|events| - 1])
  }

  lemma {:induction false} TallyAppend(events: seq<Event>, e: Event)
    ensures TallyOf(events + [e]) == Add(TallyOf(events), e)
  {
    assert (events + [e])[..|events|] == events;
  }

  /** Records of broken contracts. */
  function Refusals(rounds: seq<RoundRecord>): nat {
    if rounds == [] then 0
    else Refusals(rounds[..|rounds| - 1]) + (if rounds[|rounds| - 1].decision == RejectContract then 1 else 0)
  }

  lemma {:induction false} RefusalAppend(rounds: seq<RoundRecord>, r: RoundRecord)
    ensures Refusals(rounds + [r]) == Refusals(rounds) + (if r.decision == RejectContract then 1 else 0)
  {
    assert (rounds + [r])[..|rounds|] == rounds;
  }

  lemma {:induction false} RefusalReplace(rounds: seq<RoundRecord>, r: RoundRecord)
    requires rounds != [] && r.decision == rounds[|rounds| - 1].decision
    ensures Refusals(rounds[|rounds| - 1 := r]) == Refusals(rounds)
  {
    var n := |rounds| - 1;
    assert rounds[n := r][..n] == rounds[..n];
  }

  // ----- The two guards -----------------------------------------------------

  /** What a logged event needs of its request. */
  predicate Addressed(q: Request) {
    q.round >= 1 && q.who.Complete() && q.patch != ""
  }

  /** A With-LSP round that names a receipt source, has no receipts yet, and no task to bind a gate to. */
  ghost predicate NoTaskForGate(q: Request) {
    && q.mode == WithLsp && q.Canonical() && q.Stream().NoReceipts? && q.isolation.None? && !q.HasTask()
    && q.generation != Some("") && !q.TransportDeclared()
    && RegistryAccepts(q.changes, q.exemptions, q.round) && RequiredPaths(Effective(q.changes, q.exemptions)) != {}
    && SeparatedChannels(q.failures, q.who.agent)
  }

  /** A quality call that is refused without a record: it claims to recover a gate that is not there, or needs one. */
  ghost predicate Unrecorded(s: State, q: Request) {
    if q.ExplicitRecovery() then Addressed(q)
    else InSequence(s, q) && CheckIdentity(s, q).Ok? && q.patch != "" && NoTaskForGate(q)
  }

  /** A recovery request that closes the gate. */
  ghost predicate ClosesGate(s: State, q: Request)
    requires s.gate.Some?
  {
    var g := s.gate.value;
    var attempt := if q.attempt.Some? then q.attempt.value else g.attempts + 1;
    && q.who.Complete() && s.identity == Some(q.who) && q.patch == g.patch && q.patch != ""
    && RecoveryViolation(g, q, attempt).None? && SameScope(g, q) && q.mode == WithLsp && SourceViolation(g, q).None?
    && SeparatedChannels(q.failures, q.who.agent)
    && (if q.Canonical() then
          var o := ObserveReceipts(q);
          !o.infra && o.violation.None? && g.required - (g.covered + o.covered) == {}
        else
          !HasForeignTool(q.trajectory) && !LacksSemanticTools(q)
          && g.required - (g.covered + Align(DiagnosedPaths(q.trajectory), g.required)) == {})
  }

  /** A quality call flagged as consumed although nothing is charged. */
  ghost predicate FlaggedFree(r: Runner, c: Call) {
    c.Quality? && r.state.status == Active && r.state.gate.None? && Unrecorded(r.state, c.q)
  }

  function Asked(r: Runner, q: Request): Request {
    if r.state.gate.Some? then q.(action := EvidenceRecovery, attempt := Some(RecoveryAttempt(r.state, q))) else q
  }

  /** A recovery charged although its event is not flagged: it closes the gate on the last judged patch. */
  ghost predicate ChargedUnflagged(r: Runner, c: Call) {
    && c.Recover? && r.state.gate.Some? && r.state.lastQualityPatch == Some(r.state.gate.value.patch)
    && ClosesGate(r.state, Asked(r, c.q))
  }

  // ----- Grading ------------------------------------------------------------

  /** The flags of the new events are the change of the budget, and nothing else is counted. */
  ghost predicate FlagsRight(r: Runner, t: Runner) {
    var before, after := TallyOf(r.events), TallyOf(t.events);
    && after.consumed - before.consumed == t.state.used - r.state.used
    && after.blocked == before.blocked && after.refused == before.refused
    && Refusals(t.state.rounds) == Refusals(r.state.rounds)
  }

  lemma {:induction false} SettleFlags(r: Runner, q: Request, g: Grading, grader: GraderOutcome, attempt: int)
    ensures FlagsRight(r, Settle(r, q, g, grader, attempt).0)
  {
    hide TallyOf, Refusals, WellFormed;
    var t := Settle(r, q, g, grader, attempt).0;
    if t.events != r.events {
      TallyAppend(r.events, t.events[|r.events|]);
    }
  }

  lemma {:induction false} GraderCharges(s: State, o: Outcome, g: Grading)
    requires g != GraderBreaksProtocol
    ensures var (t, r) := RunGrader(s, o, ReplyOf(g));
            && Refusals(t.rounds) == Refusals(s.rounds)
            && t.used == s.used + (if r.Ok? && g.Feedback? && r.value.failure != Some(Infrastructure) then 1 else 0)
  {
    var t := RunGrader(s, o, ReplyOf(g)).0;
    hide Refusals;
    if t.rounds != s.rounds {
      RefusalReplace(s.rounds, t.rounds[|s.rounds| - 1]);
    }
  }

  lemma {:induction false} FlagsCompose(r: Runner, m: Runner, t: Runner)
    requires FlagsRight(r, m) && FlagsRight(m, t)
    ensures FlagsRight(r, t)
  {
  }

  lemma {:induction false} GradeFlags(r: Runner, q: Request, o: Outcome, g: Grading, parent: int, attempt: int)
    requires Addressed(q) && r.question != "" && attempt >= 0
    ensures FlagsRight(r, GradeRound(r, q, o, g, parent, attempt).0)
  {
    hide RunGrader, Settle, TallyOf, Refusals;
    if g != GraderBreaksProtocol {
      GraderCharges(r.state, o, g);
      var (s, grader) := RunGrader(r.state, o, ReplyOf(g));
      if grader.Ok? {
        var graded := r.(state := s);
        var consumed := g.Feedback? && grader.value.failure != Some(Infrastructure);
        var e := MakeEvent(graded, q, GraderResult, Some(o), Some(grader.value), attempt, Some(parent), consumed);
        TallyAppend(r.events, e);
        var logged := graded.(events := r.events + [e]);
        SettleFlags(logged, q, g, grader.value, attempt);
        FlagsCompose(r, logged, Settle(logged, q, g, grader.value, attempt).0);
      } else {
        GraderRefuses(r.state, o, ReplyOf(g));
      }
    }
  }

  lemma {:induction false} GraderRefuses(s: State, o: Outcome, reply: GraderReply)
    ensures RunGrader(s, o, reply).1.Err? ==> RunGrader(s, o, reply).0 == s
  {
  }

  /** A call logs its outcome, if the event is well formed, and grades it. */
  lemma {:induction false} LogFlags(r: Runner, q: Request, kind: EventKind, o: Outcome, g: Grading, attempt: int,
                                    gradeAttempt: int, consumed: bool, needsEvidence: bool, needsRetry: bool)
    requires r.question != "" && gradeAttempt >= 0 && (o.allowed ==> Addressed(q))
    ensures var e := MakeEvent(r, q, kind, Some(o), None, attempt, None, consumed);
            var logged := if WellFormed(e) then r.(events := r.events + [e]) else r;
            FlagsRight(logged, LogAndGrade(r, q, kind, o, g, attempt, gradeAttempt, consumed, needsEvidence,
                                           needsRetry).0)
  {
    hide GradeRound, TallyOf, Refusals;
    var e := MakeEvent(r, q, kind, Some(o), None, attempt, None, consumed);
    if WellFormed(e) && o.allowed {
      GradeFlags(r.(events := r.events + [e]), q, o, g, |r.events| + 1, gradeAttempt);
    }
  }

  // ----- Evaluations --------------------------------------------------------

  /** A gate is only opened for files that need diagnostics. */
  lemma {:induction false} GateNeedsFiles(q: Request)
    requires q.mode == WithLsp && ContractErrors(q) == [] && (Observe(q).missing != {} || LacksSemanticTools(q))
    ensures RequiredPaths(Effective(q.changes, q.exemptions)) != {}
  {
    hide RequiredPaths, Effective, RegistryAccepts, Align, DiagnosedPaths, SeparatedChannels;
    assert Observe(q).violation.None?;
    assert Observe(q).missing == RequiredPaths(Effective(q.changes, q.exemptions)) - Observe(q).covered;
  }

  lemma {:induction false} TasklessGate(q: Request)
    requires q.mode == WithLsp && q.Canonical() && !q.HasTask()
    ensures ContractErrors(q) == [] && !Observe(q).infra && Observe(q).missing != {} <==> NoTaskForGate(q)
  {
    hide RequiredPaths, Effective, RegistryAccepts, SeparatedChannels;
  }

  /** Exactly when a quality call is refused with a loggable event and no record. */
  lemma {:induction false} UnrecordedExact(s: State, q: Request)
    requires s.gate.None? && s.status == Active
    ensures var (t, r) := Evaluate(s, q);
            r.Ok? && r.value.decision == RejectContract && t.rounds == s.rounds && Addressed(q) <==> Unrecorded(s, q)
  {
    hide Observe, ContractErrors, LacksSemanticTools, RecordQuality, RequiredPaths, Effective, NoTaskForGate,
         ProductionPaths, SeparatedChannels;
    if !q.ExplicitRecovery() && InSequence(s, q) && CheckIdentity(s, q).Ok? && q.patch != "" {
      var t := CheckIdentity(s, q).value;
      var o := Observe(q);
      var failures := if SeparatedChannels(q.failures, q.who.agent) then q.failures else [];
      RecordQualityMoves(t, q, o.covered, o.missing, ContractErrors(q), failures, None, false);
      if q.mode == WithLsp && ContractErrors(q) == [] && (o.missing != {} || LacksSemanticTools(q)) {
        GateNeedsFiles(q);
      }
      if q.mode == WithLsp && q.Canonical() && !q.HasTask() {
        TasklessGate(q);
      } else {
        NoTaskNeeds(q);
      }
    }
  }

  lemma {:induction false} NoTaskNeeds(q: Request)
    ensures NoTaskForGate(q) ==> q.mode == WithLsp && q.Canonical() && !q.HasTask()
  {
    hide RequiredPaths, Effective, RegistryAccepts, SeparatedChannels;
  }

  /** A quality evaluation that adds a record belongs to a complete request. */
  lemma {:induction false} RecordedIsAddressed(s: State, q: Request)
    requires s.gate.None? && s.status == Active
    ensures Evaluate(s, q).0.rounds != s.rounds ==> Addressed(q) && !IsRetry(s, q)
  {
    hide Observe, ContractErrors, LacksSemanticTools, RecordQuality, RequiredPaths, Effective, ProductionPaths,
         SeparatedChannels;
  }

  /** One more record costs what its decision says. */
  lemma {:induction false} AddedCharges(s: State, t: State, q: Request, decision: Decision, retries: int)
    requires Inv(s, retries) && Inv(t, retries) && AddsRecord(s, t, q, decision)
    ensures t.used == s.used + (if decision == NoProgress || decision == RejectContract then 1 else 0)
    ensures Refusals(t.rounds) == Refusals(s.rounds) + (if decision == RejectContract then 1 else 0)
  {
    hide Refusals;
    assert t.rounds == s.rounds + [Last(t)];
    AppendRecord(s, Last(t));
    RefusalAppend(s.rounds, Last(t));
  }

  lemma {:induction false} SameCharges(s: State, t: State, retries: int)
    requires Inv(s, retries) && Inv(t, retries) && t.rounds == s.rounds
    ensures t.used == s.used
  {
  }

  /** What one call does to the counts, with the flag that is too many and the charge that is unflagged. */
  ghost predicate Drifts(r: Runner, t: Runner, free: bool, unflagged: bool) {
    var before, after := TallyOf(r.events), TallyOf(t.events);
    && after.consumed - before.consumed
       == t.state.used - r.state.used + (if free then 1 else 0) - (if unflagged then 1 else 0)
    && after.blocked == before.blocked + (if unflagged then 1 else 0)
    && after.refused - before.refused == Refusals(t.state.rounds) - Refusals(r.state.rounds) + (if free then 1 else 0)
  }

  lemma {:induction false} DriftsOn(r: Runner, m: Runner, t: Runner, free: bool, unflagged: bool)
    requires Drifts(r, m, free, unflagged) && FlagsRight(m, t)
    ensures Drifts(r, t, free, unflagged)
  {
    hide TallyOf, Refusals;
  }

  lemma {:induction false} QualityDrifts(r: Runner, q: Request, g: Grading)
    requires RunnerInv(r)
    ensures Drifts(r, SubmitQuality(r, q, g).0, FlaggedFree(r, Quality(q, g)), false)
  {
    hide Evaluate, LogAndGrade, Inv, TallyOf, Refusals, GraderCount, Unrecorded;
    Facts(r.state, r.retries);
    if r.state.gate.None? && r.state.status == Active {
      var s := Evaluate(r.state, q).0;
      EvaluateKeeps(r.state, q, r.retries);
      UnrecordedExact(r.state, q);
      QualityLogDrifts(r, q);
      if Evaluate(r.state, q).1.Ok? {
        var o := Evaluate(r.state, q).1.value;
        QualityMoves(r.state, q);
        var consumed := o.decision == NoProgress || o.decision == RejectContract;
        var needs := o.decision != RequireEvidence && o.failure == Some(Infrastructure) && PendingRetry(s);
        var e := MakeEvent(r.(state := s), q, QualityRound, Some(o), None, 0, None, consumed);
        LogFlags(r.(state := s), q, QualityRound, o, g, 0, 1, consumed, o.decision == RequireEvidence, needs);
        var logged := if WellFormed(e) then r.(state := s, events := r.events + [e]) else r.(state := s);
        DriftsOn(r, logged, SubmitQuality(r, q, g).0, Unrecorded(r.state, q), false);
      }
    }
  }

  /** The drift of the quality event itself, before any grading. */
  lemma {:induction false} QualityLogDrifts(r: Runner, q: Request)
    requires RunnerInv(r) && r.state.gate.None? && r.state.status == Active
    ensures var (s, result) := Evaluate(r.state, q);
            if result.Err? then Drifts(r, r.(state := s), Unrecorded(r.state, q), false)
            else
              var o := result.value;
              var e := MakeEvent(r.(state := s), q, QualityRound, Some(o), None, 0, None,
                                 o.decision == NoProgress || o.decision == RejectContract);
              var logged := if WellFormed(e) then r.(state := s, events := r.events + [e]) else r.(state := s);
              Drifts(r, logged, Unrecorded(r.state, q), false) && (o.allowed ==> Addressed(q))
  {
    hide Evaluate, Inv, TallyOf, Refusals, GraderCount, Unrecorded;
    var (s, result) := Evaluate(r.state, q);
    EvaluateKeeps(r.state, q, r.retries);
    RefusalKeeps(r.state, q);
    UnrecordedExact(r.state, q);
    RecordedIsAddressed(r.state, q);
    if s.rounds == r.state.rounds {
      SameCharges(r.state, s, r.retries);
    }
    if result.Ok? {
      var o := result.value;
      QualityMoves(r.state, q);
      if s.rounds != r.state.rounds {
        AddedCharges(r.state, s, q, o.decision, r.retries);
      }
      TallyAppend(r.events, MakeEvent(r.(state := s), q, QualityRound, Some(o), None, 0, None,
                                      o.decision == NoProgress || o.decision == RejectContract));
    }
  }

  // ----- Recoveries ---------------------------------------------------------

  lemma {:induction false} CloseExact(s: State, q: Request, attempt: int, covered: set<string>)
    requires s.gate.Some?
    ensures CloseGate(s, q, attempt, covered).1.recovered
            <==> s.gate.value.required - covered == {} && SeparatedChannels(q.failures, q.who.agent)
  {
    hide SeparatedChannels, ProductionPaths;
  }

  lemma {:induction false} AnswerExact(s: State, q: Request, attempt: int)
    requires s.gate.Some?
    ensures var g := s.gate.value;
            AnswerGate(s, q, attempt).1.recovered <==>
              && q.mode == WithLsp && SourceViolation(g, q).None? && SeparatedChannels(q.failures, q.who.agent)
              && (if q.Canonical() then
                    var o := ObserveReceipts(q);
                    !o.infra && o.violation.None? && g.required - (g.covered + o.covered) == {}
                  else
                    !HasForeignTool(q.trajectory) && !LacksSemanticTools(q)
                    && g.required - (g.covered + Align(DiagnosedPaths(q.trajectory), g.required)) == {})
  {
    hide CloseGate, ObserveReceipts, SeparatedChannels, HasForeignTool, LacksSemanticTools, SourceViolation, Align,
         DiagnosedPaths;
    var g := s.gate.value;
    CloseExact(s, q, attempt, g.covered + ObserveReceipts(q).covered);
    CloseExact(s, q, attempt, g.covered + Align(DiagnosedPaths(q.trajectory), g.required));
  }

  /** Exactly when a recovery closes its gate with a record. */
  lemma {:induction false} ClosesExact(s: State, q: Request)
    requires s.gate.Some? && q.ExplicitRecovery()
    ensures Evaluate(s, q).1.Ok? && Evaluate(s, q).1.value.recovered <==> ClosesGate(s, q)
  {
    hide AnswerGate, ObserveReceipts, SeparatedChannels, HasForeignTool, LacksSemanticTools, SourceViolation, Align,
         DiagnosedPaths, SameScope, RegistryAccepts;
    AnswerExact(s, q, if q.attempt.Some? then q.attempt.value else s.gate.value.attempts + 1);
  }

  lemma {:induction false} ClosedAttempt(s: State, q: Request, retries: int)
    requires Inv(s, retries) && s.gate.Some? && ClosesGate(s, q) && q.attempt.Some?
    ensures q.attempt.value == 1 && Addressed(q) && q.patch == s.gate.value.patch
  {
    hide ObserveReceipts, SeparatedChannels, HasForeignTool, LacksSemanticTools, SourceViolation, Align, DiagnosedPaths,
         SameScope, RegistryAccepts;
  }

  /** The drift of the recovery event itself, before any grading. */
  lemma {:induction false} RecoveryLogDrifts(r: Runner, q: Request, attempt: int)
    requires RunnerInv(r) && r.state.gate.Some? && q.ExplicitRecovery() && q.attempt == Some(attempt)
    ensures var (s, result) := Evaluate(r.state, q);
            var unflagged := r.state.lastQualityPatch == Some(r.state.gate.value.patch) && ClosesGate(r.state, q);
            if result.Err? then Drifts(r, r.(state := s), false, unflagged)
            else
              var e := MakeEvent(r.(state := s), q, Recovery, Some(result.value), None, attempt, None, false);
              var logged := if WellFormed(e) then r.(state := s, events := r.events + [e]) else r.(state := s);
              Drifts(r, logged, false, unflagged) && (result.value.allowed ==> Addressed(q))
  {
    hide Evaluate, Inv, TallyOf, Refusals, GraderCount, ClosesGate;
    var (s, result) := Evaluate(r.state, q);
    Facts(r.state, r.retries);
    EvaluateKeeps(r.state, q, r.retries);
    RefusalKeeps(r.state, q);
    ClosesExact(r.state, q);
    if s.rounds == r.state.rounds {
      SameCharges(r.state, s, r.retries);
    }
    if result.Ok? {
      var o := result.value;
      RecoveryMoves(r.state, q);
      TallyAppend(r.events, MakeEvent(r.(state := s), q, Recovery, Some(o), None, attempt, None, false));
      if o.recovered {
        ClosedAttempt(r.state, q, r.retries);
        RecoveredDecision(r.state, q);
        FilesNonEmpty(r.state, r.retries);
        AddedCharges(r.state, s, q, o.decision, r.retries);
      }
    }
  }

  lemma {:induction false} RecoveryDrifts(r: Runner, q: Request, g: Grading)
    requires RunnerInv(r)
    ensures Drifts(r, SubmitRecovery(r, q, g).0, false, ChargedUnflagged(r, Recover(q, g)))
  {
    hide Evaluate, LogAndGrade, Inv, TallyOf, Refusals, GraderCount, ClosesGate;
    if r.state.gate.Some? {
      var attempt := RecoveryAttempt(r.state, q);
      var asked := Asked(r, q);
      var (s, result) := Evaluate(r.state, asked);
      RecoveryLogDrifts(r, asked, attempt);
      if result.Ok? {
        var o := result.value;
        var needs := s.gate.Some? && !Closed(s.status);
        var e := MakeEvent(r.(state := s), asked, Recovery, Some(o), None, attempt, None, false);
        LogFlags(r.(state := s), asked, Recovery, o, g, attempt, 1, false, needs, false);
        var logged := if WellFormed(e) then r.(state := s, events := r.events + [e]) else r.(state := s);
        DriftsOn(r, logged, SubmitRecovery(r, q, g).0, false, ChargedUnflagged(r, Recover(q, g)));
      }
    }
  }

  // ----- Retries and failures without a verdict -----------------------------

  lemma {:induction false} RetryCharges(s: State, q: Request)
    requires s.gate.None? && s.status == InfrastructureFailure && s.rounds != []
    ensures var (t, r) := Evaluate(s, q);
            t.used == s.used && Refusals(t.rounds) == Refusals(s.rounds) && (r.Ok? && r.value.allowed ==> Addressed(q))
  {
    hide Refusals;
    RefusalReplace(s.rounds, Last(s).(allowed := true));
  }

  lemma {:induction false} RetryDrifts(r: Runner, q: Request, g: Grading)
    requires RunnerInv(r)
    ensures FlagsRight(r, RetryInfra(r, q, g).0)
  {
    hide Evaluate, LogAndGrade, Inv, TallyOf, Refusals, GraderCount;
    Facts(r.state, r.retries);
    if r.state.status == InfrastructureFailure {
      var n := Last(r.state).gradings + 1;
      var asked := q.(action := InfraRecovery);
      var (s, result) := Evaluate(r.state, asked);
      RetryCharges(r.state, asked);
      if result.Ok? {
        var o := result.value;
        var e := MakeEvent(r.(state := s), asked, InfraRetry, Some(o), None, n, None, false);
        TallyAppend(r.events, e);
        LogFlags(r.(state := s), asked, InfraRetry, o, g, n, n, false, false, false);
        var logged := if WellFormed(e) then r.(state := s, events := r.events + [e]) else r.(state := s);
        assert FlagsRight(r, logged);
        FlagsCompose(r, logged, RetryInfra(r, q, g).0);
      }
    }
  }

  lemma {:induction false} NonQualityDrifts(r: Runner, q: Request, supportedKind: bool, message: string)
    ensures FlagsRight(r, RecordNonQuality(r, q, supportedKind, message).0)
  {
    hide TallyOf, Refusals, WellFormed;
    var t := RecordNonQuality(r, q, supportedKind, message).0;
    if t.events != r.events {
      TallyAppend(r.events, t.events[|r.events|]);
    }
  }

  // ----- Every call and every run -------------------------------------------

  lemma {:induction false} CallDrifts(r: Runner, c: Call)
    requires RunnerInv(r)
    ensures Drifts(r, Do(r, c).0, FlaggedFree(r, c), ChargedUnflagged(r, c))
  {
    hide SubmitQuality, SubmitRecovery, RetryInfra, RecordNonQuality, RunnerInv, TallyOf, Refusals, Unrecorded,
         ClosesGate;
    match c
    case Quality(q, g) => QualityDrifts(r, q, g);
    case Recover(q, g) => RecoveryDrifts(r, q, g);
    case Retry(q, g) => RetryDrifts(r, q, g);
    case NonQuality(q, supportedKind, message) => NonQualityDrifts(r, q, supportedKind, message);
  }

  lemma {:induction false} NeverBoth(r: Runner, c: Call)
    ensures !(FlaggedFree(r, c) && ChargedUnflagged(r, c))
  {
  }

  /**
    The consumed flags of a call's events match what the call charges if and only if it is neither a quality call
    refused without a record nor a recovery that closes the gate on the last judged patch.
   */
  lemma {:induction false} FlagsMatchBudget(r: Runner, c: Call)
    requires RunnerInv(r)
    ensures var t := Do(r, c).0;
            TallyOf(t.events).consumed - TallyOf(r.events).consumed == t.state.used - r.state.used
            <==> !FlaggedFree(r, c) && !ChargedUnflagged(r, c)
  {
    hide Do, RunnerInv, TallyOf, Refusals, FlaggedFree, ChargedUnflagged;
    CallDrifts(r, c);
    NeverBoth(r, c);
  }

  /**
    In every run the budget is the flagged events, plus the blocked recoveries, minus the refused quality rounds
    that left no record.
   */
  lemma {:induction false} BudgetEquation(question: string, retries: int, limit: int, calls: seq<Call>)
    requires Started(question, retries)
    ensures var r := Run(Fresh(question, retries, limit), calls);
            var tally := TallyOf(r.events);
            && r.state.used == tally.consumed + tally.blocked - (tally.refused - Refusals(r.state.rounds))
            && Refusals(r.state.rounds) <= tally.refused
    decreases |calls|
  {
    hide Do, RunnerInv, TallyOf, Refusals, FlaggedFree, ChargedUnflagged;
    var start := Fresh(question, retries, limit);
    if calls == [] {
      EmptyTally();
      assert Run(start, calls) == start;
    } else {
      var init, c := calls[..|calls| - 1], calls[|calls| - 1];
      BudgetEquation(question, retries, limit, init);
      FreshInv(question, retries, limit);
      RunKeeps(start, init);
      CallDrifts(Run(start, init), c);
      NeverBoth(Run(start, init), c);
    }
  }

  lemma {:induction false} EmptyTally()
    ensures TallyOf([]) == Tally(0, 0, 0) && Refusals([]) == 0
  {
  }
}
