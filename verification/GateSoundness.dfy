/**
  When grading is authorised: the With-LSP coverage gate, the binding of a recovery to the gate
  that opened it, and the retry path that skips the gate.
 */
module GateSoundness {
  import opened Wrappers
  import opened Evidence
  import opened GuardSpec
  import opened RunnerSpec
  import opened RunnerInvariants

  /** Every production file without an exemption is in the covered set. */
  ghost predicate FullyCovered(q: Request, covered: set<string>) {
    forall p :: NeedsDiagnostics(q.changes, q.exemptions, p) ==> p in covered
  }

  lemma {:induction false} RequiredCovered(q: Request, covered: set<string>)
    ensures RequiredPaths(Effective(q.changes, q.exemptions)) <= covered <==> FullyCovered(q, covered)
  {
    hide RequiredPaths, Effective, NeedsDiagnostics;
    forall p
      ensures NeedsDiagnostics(q.changes, q.exemptions, p) <==> p in RequiredPaths(Effective(q.changes, q.exemptions))
    {
      RequiredIsNonExempt(q.changes, q.exemptions, p);
    }
  }

  lemma {:induction false} NothingLeft(a: set<string>, b: set<string>)
    requires a - b == {}
    ensures a <= b
  {
    forall x | x in a
      ensures x in b
    {
      assert x !in a - b;
    }
  }

  /** The observation never calls a required file covered that it did not see. */
  lemma {:induction false} ObservationSound(q: Request)
    ensures var o := Observe(q);
            o.violation.None? && o.missing == {} && q.mode == WithLsp ==>
              RequiredPaths(Effective(q.changes, q.exemptions)) <= o.covered
  {
    hide RequiredPaths, Effective, RegistryAccepts, Align, DiagnosedPaths;
    var o := Observe(q);
    var required := RequiredPaths(Effective(q.changes, q.exemptions));
    if o.violation.None? && q.mode == WithLsp {
      assert o.missing == required - o.covered;
      if o.missing == {} {
        NothingLeft(required, o.covered);
      }
    }
  }

  /**
    A directly authorised With-LSP round: the registry holds, every non-exempt production file is
    covered, and on the trajectory source both semantic tools were used.
   */
  lemma {:induction false} AuthorisedIsCovered(s: State, q: Request)
    requires q.mode == WithLsp && !q.ExplicitRecovery() && !IsRetry(s, q)
    requires Evaluate(s, q).1.Ok? && s.gate.None?
    requires Evaluate(s, q).1.value.allowed
    ensures var (t, r) := Evaluate(s, q);
            && r.value.decision == AllowGrader
            && RegistryAccepts(q.changes, q.exemptions, q.round)
            && FullyCovered(q, r.value.covered)
            && t.rounds != [] && Last(t).covered == r.value.covered && Last(t).patch == q.patch
            && (!q.Canonical() && (exists p :: NeedsDiagnostics(q.changes, q.exemptions, p))
                ==> Used(q.trajectory, Structure) && Used(q.trajectory, Xref))
  {
    hide RequiredPaths, Effective, NeedsDiagnostics, FullyCovered, RegistryAccepts, Align, DiagnosedPaths,
         SeparatedChannels;
    ObservationSound(q);
    RequiredCovered(q, Observe(q).covered);
    if p :| NeedsDiagnostics(q.changes, q.exemptions, p) {
      RequiredIsNonExempt(q.changes, q.exemptions, p);
    }
  }

  /**
    A round authorised through recovery: same patch, owner, round and file scope as the gate, and every
    non-exempt production file covered by the gate and the recovery together.
   */
  lemma {:induction false} RecoveredIsCovered(s: State, q: Request)
    requires s.gate.Some? && q.ExplicitRecovery() && Evaluate(s, q).1.Ok? && Evaluate(s, q).1.value.allowed
    ensures var g := s.gate.value;
            var (t, r) := Evaluate(s, q);
            && r.value.decision == AllowGrader && r.value.recovered
            && q.patch == g.patch && q.round == g.round && s.identity == Some(q.who)
            && q.mode == WithLsp && ProductionPaths(q.changes) == g.files
            && FullyCovered(q, r.value.covered) && g.covered <= r.value.covered
            && t.rounds != [] && Last(t).covered == r.value.covered && Last(t).patch == g.patch
            && t.gate.None?
  {
    hide NeedsDiagnostics, FullyCovered, RegistryAccepts, Align, DiagnosedPaths, SeparatedChannels,
         RequiredPaths, Effective, AnswerGate, ProductionPaths;
    var attempt := if q.attempt.Some? then q.attempt.value else s.gate.value.attempts + 1;
    AnswerIsCovered(s, q, attempt);
    RequiredCovered(q, AnswerGate(s, q, attempt).1.covered);
  }

  lemma {:induction false} AnswerIsCovered(s: State, q: Request, attempt: int)
    requires s.gate.Some?
    ensures var (t, o) := AnswerGate(s, q, attempt);
            o.allowed ==>
              && o.decision == AllowGrader && o.recovered && q.mode == WithLsp
              && s.gate.value.required <= o.covered && s.gate.value.covered <= o.covered
              && t.rounds != [] && Last(t).covered == o.covered && Last(t).patch == q.patch && t.gate.None?
  {
    hide CloseGate, ObserveReceipts;
    var g := s.gate.value;
    if q.Canonical() {
      CloseIsCovered(s, q, attempt, g.covered + ObserveReceipts(q).covered);
    } else {
      CloseIsCovered(s, q, attempt, g.covered + Align(DiagnosedPaths(q.trajectory), g.required));
    }
  }

  lemma {:induction false} CloseIsCovered(s: State, q: Request, attempt: int, covered: set<string>)
    requires s.gate.Some?
    ensures var (t, o) := CloseGate(s, q, attempt, covered);
            o.allowed ==>
              && o.decision == AllowGrader && o.recovered && o.covered == covered && s.gate.value.required <= covered
              && t.rounds != [] && Last(t).covered == covered && Last(t).patch == q.patch && t.gate.None?
  {
    hide SeparatedChannels, ProductionPaths;
    if CloseGate(s, q, attempt, covered).1.allowed {
      NothingLeft(s.gate.value.required, covered);
    }
  }

  // ----- The budget of a recovered round ------------------------------------

  /**
    A recovered round whose patch is the last one judged is blocked and costs a quality round, while
    its event says that nothing was consumed; any other recovered round is authorised for free.
   */
  lemma {:induction false} RecoveredBudget(r: Runner, q: Request, g: Grading)
    requires r.state.gate.Some? && Inv(r.state, r.retries)
    requires var t := SubmitRecovery(r, q, g).0; |t.events| > |r.events| && t.events[|r.events|].recovered
    ensures var t := SubmitRecovery(r, q, g).0;
            var e := t.events[|r.events|];
            && e.kind == Recovery && !e.consumed
            && (r.state.lastQualityPatch == Some(r.state.gate.value.patch)
                <==> e.decision == Some(NoProgress))
            && (e.decision == Some(NoProgress) ==> t.state.used == r.state.used + 1)
            && (e.decision != Some(NoProgress) ==> e.decision == Some(AllowGrader))
  {
    hide Evaluate, GradeRound, Core;
    var attempt := RecoveryAttempt(r.state, q);
    var asked := q.(action := EvidenceRecovery, attempt := Some(attempt));
    RecoveryMoves(r.state, asked);
    RecoveredDecision(r.state, asked);
    FilesNonEmpty(r.state, r.retries);
    var (s, outcome) := Evaluate(r.state, asked);
    if outcome.value.allowed {
      var e := MakeEvent(r.(state := s), asked, Recovery, Some(outcome.value), None, attempt, None, false);
      GradeAppends(r.(state := s, events := r.events + [e]), asked, outcome.value, g, |r.events| + 1, 1);
    }
  }

  lemma {:induction false} FilesNonEmpty(s: State, retries: int)
    requires Inv(s, retries) && s.gate.Some?
    ensures s.gate.value.files != {}
  {
  }

  lemma {:induction false} GradeAppends(r: Runner, q: Request, o: Outcome, g: Grading, parent: int, attempt: int)
    ensures r.events <= GradeRound(r, q, o, g, parent, attempt).0.events
  {
    hide RunGrader, WellFormed, MarkUnverified;
  }

  lemma {:induction false} RecoveredDecision(s: State, q: Request)
    requires s.gate.Some? && q.ExplicitRecovery() && Evaluate(s, q).1.Ok? && Evaluate(s, q).1.value.recovered
    ensures var (t, r) := Evaluate(s, q);
            && ProductionPaths(q.changes) == s.gate.value.files && q.patch == s.gate.value.patch
            && (r.value.decision == NoProgress
                <==> ProductionPaths(q.changes) == {} || s.lastQualityPatch == Some(q.patch))
            && t.used == s.used + (if r.value.decision == NoProgress then 1 else 0)
  {
    hide RegistryAccepts, Align, DiagnosedPaths, SeparatedChannels, RequiredPaths, Effective, ProductionPaths,
         AnswerGate;
    AnswerDecision(s, q, if q.attempt.Some? then q.attempt.value else s.gate.value.attempts + 1);
  }

  lemma {:induction false} AnswerDecision(s: State, q: Request, attempt: int)
    requires s.gate.Some?
    ensures var (t, o) := AnswerGate(s, q, attempt);
            o.recovered ==>
              && (o.decision == NoProgress <==> ProductionPaths(q.changes) == {} || s.lastQualityPatch == Some(q.patch))
              && t.used == s.used + (if o.decision == NoProgress then 1 else 0)
  {
    hide CloseGate, Align, DiagnosedPaths, ObserveReceipts, LacksSemanticTools, HasForeignTool, SourceViolation,
         ProductionPaths;
    var g := s.gate.value;
    CloseDecision(s, q, attempt, g.covered + ObserveReceipts(q).covered);
    CloseDecision(s, q, attempt, g.covered + Align(DiagnosedPaths(q.trajectory), g.required));
  }

  lemma {:induction false} CloseDecision(s: State, q: Request, attempt: int, covered: set<string>)
    requires s.gate.Some?
    ensures var (t, o) := CloseGate(s, q, attempt, covered);
            o.recovered ==>
              && (o.decision == NoProgress <==> ProductionPaths(q.changes) == {} || s.lastQualityPatch == Some(q.patch))
              && t.used == s.used + (if o.decision == NoProgress then 1 else 0)
  {
    hide SeparatedChannels, ProductionPaths;
  }

  // ----- Exactly when a round is covered ------------------------------------

  /** The observation of a With-LSP round that breaks no contract: missing is what is required and not covered. */
  lemma {:induction false} ObservationExact(q: Request)
    requires q.mode == WithLsp && Observe(q).violation.None?
    ensures FullyCovered(q, Observe(q).covered) <==> Observe(q).missing == {}
  {
    hide RequiredPaths, Effective, RegistryAccepts, Align, DiagnosedPaths, FullyCovered;
    var o := Observe(q);
    var required := RequiredPaths(Effective(q.changes, q.exemptions));
    assert o.missing == required - o.covered;
    RequiredCovered(q, o.covered);
    if o.missing == {} {
      NothingLeft(required, o.covered);
    }
  }

  /** A declared transport failure is observed only on a round that breaks no contract. */
  lemma {:induction false} InfraObservation(q: Request)
    ensures Observe(q).infra ==> Observe(q).violation.None? && RegistryAccepts(q.changes, q.exemptions, q.round)
  {
    hide RequiredPaths, Effective, RegistryAccepts, Align, DiagnosedPaths;
  }

  /** The observation does not depend on what kind of action asks for it. */
  lemma {:induction false} SameObservation(q: Request, action: Action, attempt: Option<int>)
    ensures Observe(q.(action := action, attempt := attempt)) == Observe(q)
  {
    hide RequiredPaths, Effective, RegistryAccepts, Align, DiagnosedPaths;
  }

  // ----- A round without coverage -------------------------------------------

  function Owner(): Identity {
    Identity("arm", "session", "thread", "agent")
  }

  /** A With-LSP round of one source file with no tool call at all, whose transport failed. */
  function SilentRound(): Request {
    Request(1, Owner(), "p", [FileChange("a.py", true, None)], [], false, WithLsp, Start, false, [], [], None,
            None, None, None, None, true)
  }

  lemma {:induction false} SilentObservation()
    ensures var q := SilentRound();
            && Observe(q) == Observation({}, {"a.py"}, None, true)
            && NeedsDiagnostics(q.changes, q.exemptions, "a.py")
  {
    var q := SilentRound();
    assert q.changes[0] in q.changes;
    assert RegistryAccepts(q.changes, q.exemptions, 1);
    assert DiagnosedPaths(q.trajectory) == {};
    assert EffectiveChange(q.changes[0], []) == q.changes[0];
    assert Effective(q.changes, []) == [q.changes[0]];
    assert RequiredPaths([q.changes[0]]) == {"a.py"};
    assert Align({}, {"a.py"}) == {};
  }

  lemma {:induction false} SilentEvaluation(limit: int)
    ensures var q := SilentRound();
            var r := RecordInfra(Empty(limit).(identity := Some(Owner())), q, {}, {"a.py"});
            Evaluate(Empty(limit), q) == (r.0, Ok(r.1))
  {
    hide Observe, ContractErrors, ProductionPaths, LacksSemanticTools;
    SilentObservation();
  }

  lemma {:induction false} SilentRetry(limit: int)
    ensures var q := SilentRound();
            var s := Evaluate(Empty(limit), q).0;
            var (t, again) := Evaluate(s, q.(action := InfraRecovery));
            && s.status == InfrastructureFailure && |s.rounds| == 1 && Last(s).gradings == 0
            && again.Ok? && again.value.allowed && again.value.round == 1
            && t == s.(status := Active, rounds := [Last(s).(allowed := true)]) && Last(s).covered == {}
            && !Last(s).started
  {
    hide Observe, ContractErrors, ProductionPaths;
    SilentEvaluation(limit);
  }

  lemma {:induction false} SilentSubmit(start: Runner, limit: int, g: Grading)
    requires start.state == Empty(limit)
    ensures var r := SubmitQuality(start, SilentRound(), g).0;
            r.state == Evaluate(Empty(limit), SilentRound()).0 && r.question == start.question
              && r.retries == start.retries
  {
    hide Evaluate, ProductionPaths;
    SilentEvaluation(limit);
  }

  lemma {:induction false} PassingGrade(r: Runner, q: Request, o: Outcome, parent: int, attempt: int)
    requires |r.state.rounds| == 1 && o.allowed && o.round == r.state.lastRound && !Last(r.state).started
    requires Last(r.state).gradings == 0
    ensures var s := GradeRound(r, q, o, PASSING, parent, attempt).0.state;
            && s.status == Succeeded && |s.rounds| == 1 && s.rounds[0].gradings == 1 && s.rounds[0].passed == Some(true)
            && s.rounds[0].covered == Last(r.state).covered
  {
    hide WellFormed;
  }

  lemma {:induction false} SilentGrading(r: Runner, limit: int)
    requires r.state == Evaluate(Empty(limit), SilentRound()).0 && r.question != "" && r.retries >= 0
    ensures var s := RetryInfra(r, SilentRound(), PASSING).0.state;
            && s.status == Succeeded && |s.rounds| == 1 && s.rounds[0].gradings == 1 && s.rounds[0].passed == Some(true)
            && s.rounds[0].covered == {}
  {
    hide Evaluate, GradeRound, ProductionPaths;
    SilentEvaluation(limit);
    SilentRetry(limit);
    var asked := SilentRound().(action := InfraRecovery);
    var (t, again) := Evaluate(r.state, asked);
    var e := MakeEvent(r.(state := t), asked, InfraRetry, Some(again.value), None, 1, None, false);
    assert WellFormed(e);
    PassingGrade(r.(state := t, events := r.events + [e]), asked, again.value, |r.events| + 1, 1);
  }

  /**
    So grading does not imply coverage: a transport failure, its retry and a passing grading leave a succeeded
    With-LSP run whose graded round diagnosed nothing.
   */
  lemma {:induction false} RetrySkipsCoverage(question: string, retries: int, limit: int, g: Grading)
    requires question != "" && retries >= 0
    ensures var q := SilentRound();
            var s := Run(Fresh(question, retries, limit), [Quality(q, g), Retry(q, PASSING)]).state;
            && s.status == Succeeded && |s.rounds| == 1 && s.rounds[0].gradings == 1 && s.rounds[0].passed == Some(true)
            && !FullyCovered(q, s.rounds[0].covered)
  {
    hide Evaluate, SubmitQuality, RetryInfra, FullyCovered, SilentRound;
    var q, start := SilentRound(), Fresh(question, retries, limit);
    var calls := [Quality(q, g), Retry(q, PASSING)];
    assert calls[..1] == [Quality(q, g)] && calls[..1][..0] == [] && Run(start, []) == start;
    SilentSubmit(start, limit, g);
    SilentGrading(Run(start, calls[..1]), limit);
    SilentUncovered();
  }

  lemma {:induction false} SilentUncovered()
    ensures !FullyCovered(SilentRound(), {})
  {
    hide NeedsDiagnostics;
    SilentObservation();
    assert NeedsDiagnostics(SilentRound().changes, SilentRound().exemptions, "a.py");
  }
}
