/**
  Gate soundness over whole runs: every record goes back to the one call that made it, and what that
  call's request says decides exactly whether the record is covered.
 */
module GateHistory {
  import opened Wrappers
  import opened Evidence
  import opened GuardSpec
  import opened RunnerSpec
  import opened RunnerInvariants
  import opened WholeRun
  import opened GateSoundness
  import opened NamedEvidence

  /** The audited facts of a record, which no later step may rewrite. */
  ghost predicate SameAudit(a: RoundRecord, b: RoundRecord) {
    && a.number == b.number && a.patch == b.patch && a.production == b.production
    && a.covered == b.covered && a.decision == b.decision
  }

  ghost predicate AuditKept(s: State, t: State) {
    && |s.rounds| <= |t.rounds| <= |s.rounds| + 1
    && forall k :: 0 <= k < |s.rounds| ==> SameAudit(s.rounds[k], t.rounds[k])
  }

  /**
    What the request that made a record says of it; `answers` marks a recovery, which answers a gate.
    A gradeable With-LSP record is covered exactly if it answered a gate or its request left nothing missing.
   */
  ghost predicate Justifies(answers: bool, q: Request, r: RoundRecord) {
    && r.number == q.round && r.patch == q.patch && r.production == ProductionPaths(q.changes)
    && (Gradeable(r.decision) ==> RegistryAccepts(q.changes, q.exemptions, q.round))
    && (Gradeable(r.decision) && q.mode == WithLsp ==>
          (FullyCovered(q, r.covered) <==> answers || Observe(q).missing == {}))
    && (r.decision == AllowGrader ==> r.production != {} && (q.mode == WithLsp ==> FullyCovered(q, r.covered)))
    && (answers ==> q.mode == WithLsp && r.decision != RetryInfrastructure)
  }

  /** A new record is justified by the request that made it. */
  ghost predicate NewIsJustified(s: State, answers: bool, q: Request, t: State) {
    && AuditKept(s, t)
    && (|t.rounds| > |s.rounds| ==> Justifies(answers, q, Last(t)))
  }

  lemma {:induction false} RecordQualityAudit(s: State, q: Request, covered: set<string>, missing: set<string>,
                                              violations: seq<Violation>, failures: seq<FailureRecord>,
                                              attempt: Option<int>, recovered: bool)
    ensures var (t, o) := RecordQuality(s, q, covered, missing, violations, failures, attempt, recovered);
            && |t.rounds| == |s.rounds| + 1 && t.rounds[..|s.rounds|] == s.rounds
            && Last(t).number == q.round && Last(t).patch == q.patch && Last(t).production == ProductionPaths(q.changes)
            && Last(t).covered == covered
            && Last(t).decision == o.decision != RetryInfrastructure
            && (Last(t).decision == AllowGrader ==> violations == [] && ProductionPaths(q.changes) != {})
  {
    hide ProductionPaths;
    var t := RecordQuality(s, q, covered, missing, violations, failures, attempt, recovered).0;
    assert t.rounds[..|s.rounds|] == s.rounds;
  }

  lemma {:induction false} ObservedRegistry(q: Request)
    ensures ContractErrors(q) == [] ==> RegistryAccepts(q.changes, q.exemptions, q.round) && Observe(q).violation.None?
  {
    hide RegistryAccepts, RequiredPaths, Effective, Align, DiagnosedPaths;
  }

  /** A quality record that may be graded had nothing missing with LSP, or it would have opened a gate. */
  lemma {:induction false} QualityRecordJustified(s: State, q: Request, o: Observation)
    requires o == Observe(q) && s.gate.None?
    requires !(q.mode == WithLsp && ContractErrors(q) == [] && o.missing != {})
    ensures var failures := if SeparatedChannels(q.failures, q.who.agent) then q.failures else [];
            NewIsJustified(s, false, q,
                           RecordQuality(s, q, o.covered, o.missing, ContractErrors(q), failures, None, false).0)
  {
    hide RegistryAccepts, ProductionPaths, Observe, ContractErrors, FullyCovered, SeparatedChannels, RecordQuality;
    var failures := if SeparatedChannels(q.failures, q.who.agent) then q.failures else [];
    RecordQualityAudit(s, q, o.covered, o.missing, ContractErrors(q), failures, None, false);
    ObservedRegistry(q);
    if ContractErrors(q) == [] && q.mode == WithLsp {
      ObservationExact(q);
    }
  }

  lemma {:induction false} InfraRecordJustified(s: State, q: Request, o: Observation)
    requires o == Observe(q) && o.infra
    ensures NewIsJustified(s, false, q, RecordInfra(s, q, o.covered, o.missing).0)
  {
    hide RegistryAccepts, ProductionPaths, Observe, FullyCovered;
    InfraObservation(q);
    if q.mode == WithLsp {
      ObservationExact(q);
    }
  }

  lemma {:induction false} QualityAudit(s: State, q: Request)
    requires s.gate.None?
    ensures NewIsJustified(s, false, q, EvaluateQuality(s, q).0)
  {
    hide Observe, ContractErrors, SeparatedChannels, RecordQuality, RecordInfra, LacksSemanticTools, InSequence,
         Justifies, RequiredPaths, Effective, ProductionPaths;
    if InSequence(s, q) && !IsRetry(s, q) && CheckIdentity(s, q).Ok? && q.patch != "" {
      var t := CheckIdentity(s, q).value;
      var o := Observe(q);
      if o.infra {
        InfraRecordJustified(t, q, o);
      } else if !(q.mode == WithLsp && ContractErrors(q) == [] && o.missing != {}) {
        QualityRecordJustified(t, q, o);
      }
    }
  }

  lemma {:induction false} RecoveryAudit(s: State, q: Request)
    requires s.gate.Some?
    ensures NewIsJustified(s, true, q, EvaluateRecovery(s, q).0)
  {
    hide RegistryAccepts, ProductionPaths, RequiredPaths, Effective, FullyCovered, AnswerGate, Observe;
    var g := s.gate.value;
    var attempt := if q.attempt.Some? then q.attempt.value else g.attempts + 1;
    AnswerAudit(s, q, attempt);
    RequiredCovered(q, g.covered + ObserveReceipts(q).covered);
    RequiredCovered(q, g.covered + Align(DiagnosedPaths(q.trajectory), g.required));
  }

  lemma {:induction false} AnswerAudit(s: State, q: Request, attempt: int)
    requires s.gate.Some?
    ensures var g := s.gate.value;
            var t := AnswerGate(s, q, attempt).0;
            && AuditKept(s, t)
            && (|t.rounds| > |s.rounds| ==>
                  Last(t).number == q.round && Last(t).patch == q.patch
                    && Last(t).production == ProductionPaths(q.changes) && g.required <= Last(t).covered
                  && (Last(t).covered == g.covered + ObserveReceipts(q).covered
                      || Last(t).covered == g.covered + Align(DiagnosedPaths(q.trajectory), g.required))
                  && (Last(t).decision == AllowGrader ==> ProductionPaths(q.changes) != {})
                  && q.mode == WithLsp && Last(t).decision != RetryInfrastructure)
  {
    hide CloseGate, ObserveReceipts, ProductionPaths, Align, DiagnosedPaths, SameAudit;
    var g := s.gate.value;
    forall r: RoundRecord
      ensures SameAudit(r, r)
    {
      AuditReflexive(r);
    }
    CloseAudit(s, q, attempt, g.covered + ObserveReceipts(q).covered);
    CloseAudit(s, q, attempt, g.covered + Align(DiagnosedPaths(q.trajectory), g.required));
  }

  lemma {:induction false} AuditReflexive(r: RoundRecord)
    ensures SameAudit(r, r)
  {
  }

  lemma {:induction false} CloseAudit(s: State, q: Request, attempt: int, covered: set<string>)
    requires s.gate.Some?
    ensures var t := CloseGate(s, q, attempt, covered).0;
            && AuditKept(s, t)
            && (|t.rounds| > |s.rounds| ==>
                  Last(t).number == q.round && Last(t).patch == q.patch
                    && Last(t).production == ProductionPaths(q.changes)
                  && Last(t).covered == covered && s.gate.value.required <= covered
                  && (Last(t).decision == AllowGrader ==> ProductionPaths(q.changes) != {})
                  && Last(t).decision != RetryInfrastructure)
  {
    hide ProductionPaths, SeparatedChannels, RecordQuality;
    var missing := s.gate.value.required - covered;
    if missing == {} && SeparatedChannels(q.failures, q.who.agent) {
      NothingLeft(s.gate.value.required, covered);
      var who := if s.identity.Some? then s.identity.value else q.who;
      var note := EvidenceRecord(s.gate.value.round, attempt, who, q.patch, ProductionPaths(q.changes), covered,
                                 missing, true);
      RecordQualityAudit(s.(evidence := s.evidence + [note], gate := None), q, covered, {}, [], q.failures,
                         Some(attempt), true);
    }
  }

  // ----- Calls and runs -----------------------------------------------------

  lemma {:induction false} GraderAudit(s: State, o: Outcome, reply: GraderReply)
    ensures var t := RunGrader(s, o, reply).0; |t.rounds| == |s.rounds| && AuditKept(s, t)
  {
  }

  lemma {:induction false} SettleAudit(r: Runner, q: Request, g: Grading, grader: GraderOutcome, attempt: int)
    ensures Settle(r, q, g, grader, attempt).0.state.rounds == r.state.rounds
  {
  }

  lemma {:induction false} GradeAudit(r: Runner, q: Request, o: Outcome, g: Grading, parent: int, attempt: int)
    ensures var t := GradeRound(r, q, o, g, parent, attempt).0;
            |t.state.rounds| == |r.state.rounds| && AuditKept(r.state, t.state)
  {
    hide RunGrader, Settle, SameAudit;
    forall record: RoundRecord
      ensures SameAudit(record, record)
    {
      AuditReflexive(record);
    }
    if g != GraderBreaksProtocol {
      var (s, grader) := RunGrader(r.state, o, ReplyOf(g));
      GraderAudit(r.state, o, ReplyOf(g));
      if grader.Ok? {
        var graded := r.(state := s);
        var consumed := g.Feedback? && grader.value.failure != Some(Infrastructure);
        var e := MakeEvent(graded, q, GraderResult, Some(o), Some(grader.value), attempt, Some(parent), consumed);
        SettleAudit(graded.(events := r.events + [e]), q, g, grader.value, attempt);
      }
    }
  }

  lemma {:induction false} LogAudit(r: Runner, q: Request, kind: EventKind, o: Outcome, g: Grading, attempt: int,
                                    gradeAttempt: int, consumed: bool, needsEvidence: bool, needsRetry: bool)
    ensures var t := LogAndGrade(r, q, kind, o, g, attempt, gradeAttempt, consumed, needsEvidence, needsRetry).0;
            |t.state.rounds| == |r.state.rounds| && AuditKept(r.state, t.state)
  {
    hide GradeRound;
    var e := MakeEvent(r, q, kind, Some(o), None, attempt, None, consumed);
    GradeAudit(r.(events := r.events + [e]), q, o, g, |r.events| + 1, gradeAttempt);
  }

  lemma {:induction false} JustifiesStill(answers: bool, q: Request, asked: Request, a: RoundRecord, b: RoundRecord)
    requires Justifies(answers, asked, a) && SameAudit(a, b)
    requires asked == q.(action := asked.action, attempt := asked.attempt)
    ensures Justifies(answers, q, b)
  {
    hide Observe, RegistryAccepts, ProductionPaths, NeedsDiagnostics;
    SameObservation(q, asked.action, asked.attempt);
  }

  ghost predicate CallJustified(r: Runner, c: Call, t: State) {
    && AuditKept(r.state, t)
    && (|t.rounds| > |r.state.rounds| ==> !c.NonQuality? && Justifies(c.Recover?, c.q, Last(t)))
  }

  /** The state that a call leaves once the guard has moved to `s` and the outcome is logged and graded. */
  lemma {:induction false} LoggedJustified(r: Runner, c: Call, asked: Request, s: State, kind: EventKind, o: Outcome,
                                           g: Grading, attempt: int, gradeAttempt: int, consumed: bool,
                                           needsEvidence: bool, needsRetry: bool)
    requires !c.NonQuality? && NewIsJustified(r.state, c.Recover?, asked, s)
    requires asked == c.q.(action := asked.action, attempt := asked.attempt)
    ensures CallJustified(r, c, LogAndGrade(r.(state := s), asked, kind, o, g, attempt, gradeAttempt, consumed,
                                            needsEvidence, needsRetry).0.state)
    ensures CallJustified(r, c, s)
  {
    hide LogAndGrade, Justifies;
    LogAudit(r.(state := s), asked, kind, o, g, attempt, gradeAttempt, consumed, needsEvidence, needsRetry);
    var t := LogAndGrade(r.(state := s), asked, kind, o, g, attempt, gradeAttempt, consumed, needsEvidence,
                         needsRetry).0.state;
    if |s.rounds| > |r.state.rounds| {
      JustifiesStill(c.Recover?, c.q, asked, Last(s), Last(t));
      JustifiesStill(c.Recover?, c.q, asked, Last(s), Last(s));
    }
  }

  lemma {:induction false} EvaluateAudit(s: State, q: Request)
    requires q.ExplicitRecovery() || s.gate.None?
    ensures NewIsJustified(s, s.gate.Some?, q, Evaluate(s, q).0)
  {
    hide EvaluateQuality, AnswerGate, Justifies;
    if s.gate.Some? {
      RecoveryAudit(s, q);
    } else {
      QualityAudit(s, q);
    }
  }

  lemma {:induction false} CallAudit(r: Runner, c: Call)
    requires RunnerInv(r)
    ensures CallJustified(r, c, Do(r, c).0.state)
  {
    hide Evaluate, LogAndGrade, Justifies, NewIsJustified, RunnerInv;
    assert AuditKept(r.state, r.state);
    match c
    case Quality(q, g) =>
      var (s, outcome) := Evaluate(r.state, q);
      if r.state.gate.None? {
        EvaluateAudit(r.state, q);
        var o := if outcome.Ok? then outcome.value else Contract(s, 0, NoPendingGate, {}, {}, None).1;
        LoggedJustified(r, c, q, s, QualityRound, o, g, 0, 1, o.decision == NoProgress || o.decision == RejectContract,
                        o.decision == RequireEvidence,
                        o.decision != RequireEvidence && o.failure == Some(Infrastructure) && PendingRetry(s));
      }
    case Recover(q, g) =>
      if r.state.gate.Some? {
        var attempt := RecoveryAttempt(r.state, q);
        var asked := q.(action := EvidenceRecovery, attempt := Some(attempt));
        var (s, outcome) := Evaluate(r.state, asked);
        EvaluateAudit(r.state, asked);
        var o := if outcome.Ok? then outcome.value else Contract(s, 0, NoPendingGate, {}, {}, None).1;
        LoggedJustified(r, c, asked, s, Recovery, o, g, attempt, 1, false, s.gate.Some? && !Closed(s.status), false);
      }
    case Retry(q, g) =>
      if r.state.status == InfrastructureFailure && r.state.rounds != [] {
        assert r.state.gate.None? by { NoGateInFailure(r); }
        var n := Last(r.state).gradings + 1;
        var asked := q.(action := InfraRecovery);
        var (s, outcome) := Evaluate(r.state, asked);
        EvaluateAudit(r.state, asked);
        var o := if outcome.Ok? then outcome.value else Contract(s, 0, NoPendingGate, {}, {}, None).1;
        LoggedJustified(r, c, asked, s, InfraRetry, o, g, n, n, false, false, false);
      }
    case NonQuality(q, supportedKind, message) =>
  }

  lemma {:induction false} NoGateInFailure(r: Runner)
    requires RunnerInv(r) && r.state.status == InfrastructureFailure
    ensures r.state.gate.None?
  {
    Facts(r.state, r.retries);
  }

  /** Call `i` of the run made record `k`. */
  ghost predicate MakesRecord(r: Runner, calls: seq<Call>, i: int, k: int) {
    0 <= i < |calls| && |Run(r, calls[..i]).state.rounds| == k < |Run(r, calls[..i + 1]).state.rounds|
  }

  /** The call that made record `k` justifies it. */
  ghost predicate MadeBy(r: Runner, calls: seq<Call>, i: int, k: int, record: RoundRecord) {
    MakesRecord(r, calls, i, k) && !calls[i].NonQuality? && Justifies(calls[i].Recover?, calls[i].q, record)
  }

  ghost predicate HasMaker(r: Runner, calls: seq<Call>, k: int, record: RoundRecord) {
    exists i :: MadeBy(r, calls, i, k, record)
  }

  lemma {:induction false} MadeEarlier(r: Runner, calls: seq<Call>, c: Call, i: int, k: int, a: RoundRecord,
                                       b: RoundRecord)
    requires MadeBy(r, calls, i, k, a) && SameAudit(a, b)
    ensures MadeBy(r, calls + [c], i, k, b)
  {
    hide Justifies, Run;
    JustifiesStill(calls[i].Recover?, calls[i].q, calls[i].q, a, b);
    var longer := calls + [c];
    assert longer[i] == calls[i] && longer[..i] == calls[..i] && longer[..i + 1] == calls[..i + 1];
  }

  /** Every record of every run goes back to the call that made it, which decides its coverage. */
  lemma {:induction false} RecordsAreJustified(question: string, retries: int, limit: int, calls: seq<Call>)
    requires Started(question, retries)
    ensures var r := Fresh(question, retries, limit);
            var s := Run(r, calls).state;
            forall k :: 0 <= k < |s.rounds| ==> HasMaker(r, calls, k, s.rounds[k])
    decreases |calls|
  {
    hide Do, Justifies, RunnerInv;
    var r := Fresh(question, retries, limit);
    if calls == [] {
      assert Run(r, calls) == r;
    } else {
      var n := |calls| - 1;
      var init, c := calls[..n], calls[n];
      RecordsAreJustified(question, retries, limit, init);
      FreshInv(question, retries, limit);
      RunKeeps(r, init);
      var before := Run(r, init);
      CallAudit(before, c);
      var s := Run(r, calls).state;
      assert calls == init + [c] && calls[..n + 1] == calls;
      hide Run;
      forall k | 0 <= k < |s.rounds|
        ensures HasMaker(r, calls, k, s.rounds[k])
      {
        if k < |before.state.rounds| {
          assert HasMaker(r, init, k, before.state.rounds[k]);
          var i :| MadeBy(r, init, i, k, before.state.rounds[k]);
          assert SameAudit(before.state.rounds[k], s.rounds[k]);
          MadeEarlier(r, init, c, i, k, before.state.rounds[k], s.rounds[k]);
        } else {
          assert MadeBy(r, calls, n, k, s.rounds[k]);
        }
      }
    }
  }

  /** Only one call makes a given record. */
  lemma {:induction false} MadeOnce(r: Runner, calls: seq<Call>, i: int, j: int, k: int)
    requires RunnerInv(r) && MakesRecord(r, calls, i, k) && MakesRecord(r, calls, j, k)
    ensures i == j
  {
    hide Run, RunnerInv;
    if i < j {
      RecordsOnlyGrow(r, calls, i + 1, j);
    } else if j < i {
      RecordsOnlyGrow(r, calls, j + 1, i);
    }
  }

  lemma {:induction false} RecordsOnlyGrow(r: Runner, calls: seq<Call>, i: int, j: int)
    requires RunnerInv(r) && 0 <= i <= j <= |calls|
    ensures |Run(r, calls[..i]).state.rounds| <= |Run(r, calls[..j]).state.rounds|
  {
    hide Do;
    RunKeeps(r, calls[..i]);
    RunSplits(r, calls[..i], calls[i..j]);
    assert calls[..i] + calls[i..j] == calls[..j];
    RunKeeps(Run(r, calls[..i]), calls[i..j]);
  }

  // ----- The evidence behind a record ---------------------------------------

  lemma {:induction false} LogKeepsGate(r: Runner, q: Request, kind: EventKind, o: Outcome, g: Grading, attempt: int,
                                        gradeAttempt: int, consumed: bool, needsEvidence: bool, needsRetry: bool)
    ensures LogAndGrade(r, q, kind, o, g, attempt, gradeAttempt, consumed, needsEvidence, needsRetry).0.state.gate
            == r.state.gate
  {
    hide WellFormed, MakeEvent, GradeRound;
    var e := MakeEvent(r, q, kind, Some(o), None, attempt, None, consumed);
    GradeKeepsGate(r.(events := r.events + [e]), q, o, g, |r.events| + 1, gradeAttempt);
  }

  lemma {:induction false} GradeKeepsGate(r: Runner, q: Request, o: Outcome, g: Grading, parent: int, attempt: int)
    ensures GradeRound(r, q, o, g, parent, attempt).0.state.gate == r.state.gate
  {
    hide WellFormed, MakeEvent, RunGrader, Settle, NewSequences;
    var (s, grader) := RunGrader(r.state, o, ReplyOf(g));
    assert s.gate == r.state.gate by { GraderKeepsGate(r.state, o, ReplyOf(g)); }
    if grader.Ok? {
      var graded := r.(state := s);
      var consumed := g.Feedback? && grader.value.failure != Some(Infrastructure);
      var e := MakeEvent(graded, q, GraderResult, Some(o), Some(grader.value), attempt, Some(parent), consumed);
      SettleKeepsGate(graded.(events := r.events + [e]), q, g, grader.value, attempt);
    }
  }

  lemma {:induction false} GraderKeepsGate(s: State, o: Outcome, reply: GraderReply)
    ensures RunGrader(s, o, reply).0.gate == s.gate
  {
  }

  lemma {:induction false} SettleKeepsGate(r: Runner, q: Request, g: Grading, grader: GraderOutcome, attempt: int)
    ensures Settle(r, q, g, grader, attempt).0.state.gate == r.state.gate
  {
    hide WellFormed, MakeEvent;
  }

  /** What a call adds is named by its own request or by the gate it answers; a new gate is opened by it. */
  ghost predicate CallNamed(r: Runner, c: Call, t: State) {
    && (!c.NonQuality? ==> NewIsNamed(r.state, c.q, t))
    && (t.gate.Some? ==> t.gate == r.state.gate || (r.state.gate.None? && c.Quality? && Opened(c.q, t.gate.value)))
  }

  lemma {:induction false} NamedStill(s: State, q: Request, asked: Request, t: State, u: State)
    requires NewIsNamed(s, asked, t) && |t.rounds| == |u.rounds| && AuditKept(t, u)
    requires asked == q.(action := asked.action, attempt := asked.attempt)
    ensures NewIsNamed(s, q, u)
  {
    hide Names, NeedsDiagnostics;
    forall file
      ensures Names(asked, file) <==> Names(q, file)
    {
      SameNames(q, asked.action, asked.attempt, file);
    }
  }

  lemma {:induction false} LoggedNamed(r: Runner, c: Call, asked: Request, s: State, kind: EventKind, o: Outcome,
                                       g: Grading, attempt: int, gradeAttempt: int, consumed: bool,
                                       needsEvidence: bool, needsRetry: bool)
    requires !c.NonQuality? && NewIsNamed(r.state, asked, s)
    requires asked == c.q.(action := asked.action, attempt := asked.attempt)
    requires s.gate.Some? ==> s.gate == r.state.gate || (r.state.gate.None? && c.Quality? && Opened(c.q, s.gate.value))
    ensures CallNamed(r, c, LogAndGrade(r.(state := s), asked, kind, o, g, attempt, gradeAttempt, consumed,
                                        needsEvidence, needsRetry).0.state)
    ensures CallNamed(r, c, s)
  {
    hide LogAndGrade, NewIsNamed, Opened, SameAudit;
    LogAudit(r.(state := s), asked, kind, o, g, attempt, gradeAttempt, consumed, needsEvidence, needsRetry);
    LogKeepsGate(r.(state := s), asked, kind, o, g, attempt, gradeAttempt, consumed, needsEvidence, needsRetry);
    NamedStill(r.state, c.q, asked, s, LogAndGrade(r.(state := s), asked, kind, o, g, attempt, gradeAttempt, consumed,
                                                   needsEvidence, needsRetry).0.state);
    forall record: RoundRecord
      ensures SameAudit(record, record)
    {
      AuditReflexive(record);
    }
    NamedStill(r.state, c.q, asked, s, s);
  }

  lemma {:induction false} CallNames(r: Runner, c: Call)
    requires RunnerInv(r)
    ensures CallNamed(r, c, Do(r, c).0.state)
  {
    hide Evaluate, LogAndGrade, Opened, Inv, GraderCount, Names, NeedsDiagnostics;
    Facts(r.state, r.retries);
    match c
    case Quality(q, g) =>
      var (s, outcome) := Evaluate(r.state, q);
      if r.state.gate.None? {
        EvaluationNamed(r.state, q);
        var o := if outcome.Ok? then outcome.value else Contract(s, 0, NoPendingGate, {}, {}, None).1;
        LoggedNamed(r, c, q, s, QualityRound, o, g, 0, 1, o.decision == NoProgress || o.decision == RejectContract,
                    o.decision == RequireEvidence,
                    o.decision != RequireEvidence && o.failure == Some(Infrastructure) && PendingRetry(s));
      }
    case Recover(q, g) =>
      if r.state.gate.Some? {
        var attempt := RecoveryAttempt(r.state, q);
        var asked := q.(action := EvidenceRecovery, attempt := Some(attempt));
        var (s, outcome) := Evaluate(r.state, asked);
        EvaluationNamed(r.state, asked);
        var o := if outcome.Ok? then outcome.value else Contract(s, 0, NoPendingGate, {}, {}, None).1;
        LoggedNamed(r, c, asked, s, Recovery, o, g, attempt, 1, false, s.gate.Some? && !Closed(s.status), false);
      }
    case Retry(q, g) =>
      if r.state.status == InfrastructureFailure {
        RetryNames(r, q, g);
      }
    case NonQuality(q, supportedKind, message) =>
  }

  /** A retry neither makes a record nor opens a gate. */
  lemma {:induction false} RetryNames(r: Runner, q: Request, g: Grading)
    requires RunnerInv(r) && r.state.status == InfrastructureFailure
    ensures CallNamed(r, Retry(q, g), RetryInfra(r, q, g).0.state)
  {
    hide Evaluate, LogAndGrade, Opened, Inv, GraderCount, Names, NeedsDiagnostics;
    Facts(r.state, r.retries);
    var n := Last(r.state).gradings + 1;
    var asked := q.(action := InfraRecovery);
    var (s, outcome) := Evaluate(r.state, asked);
    RetryOpensNothing(r.state, asked);
    var o := if outcome.Ok? then outcome.value else Contract(s, 0, NoPendingGate, {}, {}, None).1;
    LogAudit(r.(state := s), asked, InfraRetry, o, g, n, n, false, false, false);
    LogKeepsGate(r.(state := s), asked, InfraRetry, o, g, n, n, false, false, false);
  }

  lemma {:induction false} RetryOpensNothing(s: State, q: Request)
    requires s.status == InfrastructureFailure && s.gate.None?
    ensures Evaluate(s, q).0.gate.None? && |Evaluate(s, q).0.rounds| == |s.rounds|
  {
    hide Observe, ContractErrors, RecordQuality, OpenGate, CheckIdentity;
  }

  /** Call `j` opened the gate that is pending before call `i`, and no call between them touched it. */
  ghost predicate OpensFor(r: Runner, calls: seq<Call>, j: int, i: int) {
    && 0 <= j < i <= |calls| && calls[j].Quality? && Run(r, calls[..j]).state.gate.None?
    && Run(r, calls[..i]).state.gate.Some? && Opened(calls[j].q, Run(r, calls[..i]).state.gate.value)
    && forall m :: j < m <= i ==> GateAt(r, calls, m) == GateAt(r, calls, i)
  }

  ghost function GateAt(r: Runner, calls: seq<Call>, m: int): Option<Gate>
    requires 0 <= m <= |calls|
  {
    Run(r, calls[..m]).state.gate
  }

  /** Every pending gate was opened by one earlier quality call. */
  lemma {:induction false} GateHasOpener(question: string, retries: int, limit: int, calls: seq<Call>, i: int)
    requires Started(question, retries) && 0 <= i <= |calls|
    requires Run(Fresh(question, retries, limit), calls[..i]).state.gate.Some?
    ensures exists j :: OpensFor(Fresh(question, retries, limit), calls, j, i)
    decreases i
  {
    hide Do, RunnerInv, Opened;
    var r := Fresh(question, retries, limit);
    assert calls[..0] == [] && Run(r, []) == r;
    if i > 0 {
      assert calls[..i][..i - 1] == calls[..i - 1];
      var before := Run(r, calls[..i - 1]);
      FreshInv(question, retries, limit);
      RunKeeps(r, calls[..i - 1]);
      CallNames(before, calls[i - 1]);
      assert Run(r, calls[..i]) == Do(before, calls[i - 1]).0;
      hide Run;
      if before.state.gate.Some? {
        GateHasOpener(question, retries, limit, calls, i - 1);
        var j :| OpensFor(r, calls, j, i - 1);
        assert GateAt(r, calls, i) == GateAt(r, calls, i - 1);
        assert OpensFor(r, calls, j, i);
      } else {
        assert OpensFor(r, calls, i - 1, i);
      }
    }
  }

  /** The request that opened the gate answered by call `i` names the file. */
  ghost predicate OpenerNames(r: Runner, calls: seq<Call>, i: int, file: string) {
    exists j :: OpensFor(r, calls, j, i) && Names(calls[j].q, file)
  }

  lemma {:induction false} OneOpener(r: Runner, calls: seq<Call>, j: int, k: int, i: int)
    requires OpensFor(r, calls, j, i) && OpensFor(r, calls, k, i)
    ensures j == k
  {
    hide Run, Opened;
    assert j < k ==> GateAt(r, calls, k) == GateAt(r, calls, i);
    assert k < j ==> GateAt(r, calls, j) == GateAt(r, calls, i);
  }

  lemma {:induction false} RunKeepsAudit(r: Runner, calls: seq<Call>, k: int)
    requires RunnerInv(r) && 0 <= k < |r.state.rounds|
    ensures k < |Run(r, calls).state.rounds| && SameAudit(r.state.rounds[k], Run(r, calls).state.rounds[k])
    decreases |calls|
  {
    hide Do, RunnerInv;
    if calls != [] {
      var n := |calls| - 1;
      RunKeepsAudit(r, calls[..n], k);
      RunKeeps(r, calls[..n]);
      CallAudit(Run(r, calls[..n]), calls[n]);
    }
  }

  /** Record `k` as the call that made it left it. */
  lemma {:induction false} RecordAsMade(r: Runner, calls: seq<Call>, i: int, k: int)
    requires RunnerInv(r) && MakesRecord(r, calls, i, k)
    ensures var before := Run(r, calls[..i]);
            var made := Do(before, calls[i]).0.state;
            && RunnerInv(before) && |before.state.rounds| == k && |made.rounds| == k + 1 <= |Run(r, calls).state.rounds|
            && SameAudit(Last(made), Run(r, calls).state.rounds[k])
  {
    hide Do, RunnerInv;
    assert calls[..i + 1][..i] == calls[..i];
    RunKeeps(r, calls[..i]);
    RunKeeps(r, calls[..i + 1]);
    CallAudit(Run(r, calls[..i]), calls[i]);
    RunSplits(r, calls[..i + 1], calls[i + 1..]);
    assert calls[..i + 1] + calls[i + 1..] == calls;
    RunKeepsAudit(Run(r, calls[..i + 1]), calls[i + 1..], k);
  }

  /** A pending gate covers exactly what the request that opened it names. */
  lemma {:induction false} GateNames(q: Request, g: Gate, asked: Request, file: string)
    requires Opened(q, g) && g.required == RequiredPaths(Effective(asked.changes, asked.exemptions))
    requires NeedsDiagnostics(asked.changes, asked.exemptions, file)
    ensures file in g.covered <==> Names(q, file)
  {
    hide RequiredPaths, Effective, NeedsDiagnostics, Observe, Names, ProductionPaths;
    RequiredIsNonExempt(asked.changes, asked.exemptions, file);
    RequiredIsNonExempt(q.changes, q.exemptions, file);
    CoverageExact(q, file);
  }

  /** A recovery that makes a record has the scope of the gate it answers. */
  lemma {:induction false} AnswersInScope(r: Runner, c: Call)
    requires RunnerInv(r) && r.state.gate.Some? && |Do(r, c).0.state.rounds| > |r.state.rounds|
    ensures c.Recover? && r.state.gate.value.required == RequiredPaths(Effective(c.q.changes, c.q.exemptions))
  {
    hide LogAndGrade, AnswerGate, Inv, GraderCount, RequiredPaths, Effective, ProductionPaths;
    Facts(r.state, r.retries);
    if c.Recover? {
      var attempt := RecoveryAttempt(r.state, c.q);
      var asked := c.q.(action := EvidenceRecovery, attempt := Some(attempt));
      var (s, outcome) := Evaluate(r.state, asked);
      var o := if outcome.Ok? then outcome.value else Contract(s, 0, NoPendingGate, {}, {}, None).1;
      LogAudit(r.(state := s), asked, Recovery, o, c.g, attempt, 1, false, s.gate.Some? && !Closed(s.status), false);
    }
  }

  /**
    In every run, a With-LSP record without a contract failure covers a required file if and only if a diagnostics
    call, or a validated receipt, of the request that made it names the file, or one of the request that opened the
    gate it answers does.
   */
  lemma {:induction false} RecordNames(question: string, retries: int, limit: int, calls: seq<Call>, i: int, k: int,
                                       file: string)
    requires Started(question, retries) && MakesRecord(Fresh(question, retries, limit), calls, i, k)
    requires var s := Run(Fresh(question, retries, limit), calls).state;
             k < |s.rounds| && s.rounds[k].decision != RejectContract
    requires !calls[i].NonQuality? && calls[i].q.mode == WithLsp
    requires NeedsDiagnostics(calls[i].q.changes, calls[i].q.exemptions, file)
    ensures var r := Fresh(question, retries, limit);
            file in Run(r, calls).state.rounds[k].covered <==>
              Names(calls[i].q, file) || OpenerNames(r, calls, i, file)
  {
    hide Run, RunnerInv, Names, NeedsDiagnostics, Do, Opened;
    var r, c := Fresh(question, retries, limit), calls[i];
    FreshInv(question, retries, limit);
    RecordAsMade(r, calls, i, k);
    var before := Run(r, calls[..i]);
    CallNames(before, c);
    if before.state.gate.Some? {
      GateHasOpener(question, retries, limit, calls, i);
      var j :| OpensFor(r, calls, j, i);
      AnswersInScope(before, c);
      GateNames(calls[j].q, before.state.gate.value, c.q, file);
      if OpenerNames(r, calls, i, file) {
        var m :| OpensFor(r, calls, m, i) && Names(calls[m].q, file);
        OneOpener(r, calls, j, m, i);
      }
    }
  }

  /**
    In every run, each record that authorised grading was made by a call whose request has the record's round,
    patch and production files, an accepted exemption registry and, in With-LSP mode, full diagnostics coverage:
    every non-exempt production file is named by a diagnostics call or receipt of that request, or of the request
    that opened the gate it answers.
   */
  lemma {:induction false} AuthorisedRoundsAreCovered(question: string, retries: int, limit: int, calls: seq<Call>,
                                                      i: int, k: int)
    requires Started(question, retries) && MakesRecord(Fresh(question, retries, limit), calls, i, k)
    requires var s := Run(Fresh(question, retries, limit), calls).state;
             k < |s.rounds| && s.rounds[k].decision == AllowGrader
    ensures var r := Fresh(question, retries, limit);
            var record := Run(r, calls).state.rounds[k];
            var c := calls[i];
            && !c.NonQuality? && record.number == c.q.round && record.patch == c.q.patch
            && record.production == ProductionPaths(c.q.changes) != {}
            && RegistryAccepts(c.q.changes, c.q.exemptions, c.q.round)
            && (c.q.mode == WithLsp ==>
                  && FullyCovered(c.q, record.covered)
                  && forall file :: NeedsDiagnostics(c.q.changes, c.q.exemptions, file) ==>
                       Names(c.q, file) || OpenerNames(r, calls, i, file))
  {
    hide Run, RunnerInv, RegistryAccepts, NeedsDiagnostics, ProductionPaths, Observe, Names, OpenerNames;
    var r := Fresh(question, retries, limit);
    FreshInv(question, retries, limit);
    RecordsAreJustified(question, retries, limit, calls);
    assert HasMaker(r, calls, k, Run(r, calls).state.rounds[k]);
    var j :| MadeBy(r, calls, j, k, Run(r, calls).state.rounds[k]);
    MadeOnce(r, calls, i, j, k);
    if calls[i].q.mode == WithLsp {
      forall file | NeedsDiagnostics(calls[i].q.changes, calls[i].q.exemptions, file)
        ensures Names(calls[i].q, file) || OpenerNames(r, calls, i, file)
      {
        RecordNames(question, retries, limit, calls, i, k, file);
      }
    }
  }

  /**
    In every run, a graded With-LSP round is covered if and only if it answered an evidence gate or the request
    that made it left nothing missing; in particular a round first recorded as a transport failure is graded
    whether or not it is covered.
   */
  lemma {:induction false} GradedRoundCoverage(question: string, retries: int, limit: int, calls: seq<Call>, i: int,
                                               k: int)
    requires Started(question, retries) && MakesRecord(Fresh(question, retries, limit), calls, i, k)
    requires var s := Run(Fresh(question, retries, limit), calls).state; k < |s.rounds| && s.rounds[k].gradings > 0
    requires calls[i].q.mode == WithLsp
    ensures var record := Run(Fresh(question, retries, limit), calls).state.rounds[k];
            FullyCovered(calls[i].q, record.covered) <==> calls[i].Recover? || Observe(calls[i].q).missing == {}
  {
    hide Run, RegistryAccepts, FullyCovered, ProductionPaths, Observe;
    var r := Fresh(question, retries, limit);
    FreshInv(question, retries, limit);
    RunKeeps(r, calls);
    RecordsAreJustified(question, retries, limit, calls);
    var s := Run(r, calls).state;
    assert RecordOk(s.rounds[k], retries);
    assert HasMaker(r, calls, k, s.rounds[k]);
    var j :| MadeBy(r, calls, j, k, s.rounds[k]);
    MadeOnce(r, calls, i, j, k);
  }
}
