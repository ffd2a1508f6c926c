/**
  Runs on which the consumed flags and the quality budget part
  (scripts/cross_file_five_round_runner.py, lines 957-966 and 1023-1029).
 */
module BudgetWitnesses {
  import opened Wrappers
  import opened Evidence
  import opened GuardSpec
  import opened RunnerSpec
  import opened RunnerInvariants
  import opened WholeRun
  import opened GateSoundness
  import opened BudgetAudit

  // ----- Flagged without a charge -------------------------------------------

  /** A first quality call refused without a record logs one consumed event and charges nothing. */
  lemma {:induction false} FirstRefusalIsFree(question: string, retries: int, limit: int, q: Request, g: Grading)
    requires Started(question, retries) && Unrecorded(Empty(limit), q)
    ensures var r := Run(Fresh(question, retries, limit), [Quality(q, g)]);
            |r.events| == 1 && r.events[0].consumed && r.state.used == 0 && r.state.rounds == []
  {
    hide Evaluate, Unrecorded, Inv, GradeRound;
    var start := Fresh(question, retries, limit);
    var calls := [Quality(q, g)];
    assert calls[..0] == [] && Run(start, []) == start;
    UnrecordedExact(Empty(limit), q);
    QualityMoves(Empty(limit), q);
    EmptyInv(limit, 0);
    EvaluateKeeps(Empty(limit), q, 0);
    SameCharges(Empty(limit), Evaluate(Empty(limit), q).0, 0);
  }

  /** A quality call that names a recovery attempt although no gate is pending. */
  function StrayRecovery(): Request {
    SilentRound().(attempt := Some(1))
  }

  /** A quality call on the receipt source without receipts and without a task. */
  function TasklessRound(): Request {
    SilentRound().(receipts := Some(NoReceipts), transportFailed := false)
  }

  lemma {:induction false} OneFile(q: Request)
    requires q.changes == [FileChange("a.py", true, None)] && q.exemptions == []
    ensures RegistryAccepts(q.changes, q.exemptions, q.round)
    ensures RequiredPaths(Effective(q.changes, q.exemptions)) == {"a.py"} && ProductionPaths(q.changes) == {"a.py"}
  {
    assert q.changes[0] in q.changes;
    assert EffectiveChange(q.changes[0], []) == q.changes[0];
    assert Effective(q.changes, []) == [q.changes[0]];
    assert RequiredPaths([q.changes[0]]) == {"a.py"};
  }

  lemma {:induction false} FlaggedFreeInputs(limit: int)
    ensures Unrecorded(Empty(limit), StrayRecovery()) && Unrecorded(Empty(limit), TasklessRound())
  {
    hide RegistryAccepts, RequiredPaths, Effective, ProductionPaths;
    OneFile(TasklessRound());
  }

  /** Both refusals are flagged as a consumed quality round that is never charged. */
  lemma {:induction false} RefusalFlaggedFree(question: string, retries: int, limit: int, q: Request, g: Grading)
    requires Started(question, retries) && q in {StrayRecovery(), TasklessRound()}
    ensures var r := Run(Fresh(question, retries, limit), [Quality(q, g)]);
            |r.events| == 1 && r.events[0].consumed && r.state.used == 0 && r.state.rounds == []
  {
    hide Run, Unrecorded, StrayRecovery, TasklessRound;
    FlaggedFreeInputs(limit);
    FirstRefusalIsFree(question, retries, limit, q, g);
  }

  // ----- Charged without a flag ---------------------------------------------

  function FullTrajectory(): seq<TraceEvent> {
    [TraceEvent(true, true, Structure, {}), TraceEvent(true, true, Xref, {}),
     TraceEvent(true, true, Diagnostics, {"a.py"})]
  }

  /** A round of one file with every tool call it needs. */
  function CoveringRound(): Request {
    SilentRound().(trajectory := FullTrajectory(), transportFailed := false)
  }

  /** The same patch again, without any tool call. */
  function UncoveredResubmission(): Request {
    SilentRound().(round := 2, resumes := true, action := Resume, transportFailed := false)
  }

  /** The recovery that supplies the missing calls. */
  function CoveringRecovery(): Request {
    CoveringRound().(round := 2, resumes := true, action := Resume)
  }

  lemma {:induction false} FullCalls()
    ensures var t := FullTrajectory();
            && Used(t, Structure) && Used(t, Xref) && !HasUnsupportedTool(t) && !HasForeignTool(t)
            && DiagnosedPaths(t) == {"a.py"} && Align({"a.py"}, {"a.py"}) == {"a.py"}
  {
    var t := FullTrajectory();
    assert t[0] in t && t[1] in t && t[2] in t;
    assert forall e :: e in t ==> e == t[0] || e == t[1] || e == t[2];
    assert DiagnosedPaths(t) == {"a.py"};
    AlignKeepsRequired("a.py", {"a.py"});
  }

  lemma {:induction false} CoveringObservation()
    ensures var q := CoveringRound();
            Observe(q) == Observation({"a.py"}, {}, None, false) && ContractErrors(q) == [] && !LacksSemanticTools(q)
  {
    hide RegistryAccepts, RequiredPaths, Effective, Align, DiagnosedPaths, Used, HasUnsupportedTool;
    OneFile(CoveringRound());
    FullCalls();
  }

  lemma {:induction false} UncoveredObservation()
    ensures var q := UncoveredResubmission();
            Observe(q) == Observation({}, {"a.py"}, None, false) && ContractErrors(q) == []
  {
    hide RegistryAccepts, RequiredPaths, Effective;
    var q := UncoveredResubmission();
    OneFile(q);
    assert DiagnosedPaths(q.trajectory) == {} && Align({}, {"a.py"}) == {};
  }

  ghost predicate JudgedOnce(s: State) {
    && s.status == Active && s.gate.None? && s.identity == Some(Owner()) && s.lastRound == 1 && |s.rounds| == 1
    && s.used == 1 && s.lastQualityPatch == Some("p")
  }

  ghost predicate GatedAgain(s: State) {
    && s.gate == Some(Gate(2, "p", {"a.py"}, {"a.py"}, {}, 0, Trajectory, None, None))
    && s.identity == Some(Owner()) && s.used == 1 && s.lastQualityPatch == Some("p")
  }

  lemma {:induction false} FirstEvaluation(limit: int)
    ensures var q := CoveringRound();
            var r := RecordQuality(Empty(limit).(identity := Some(Owner())), q, {"a.py"}, {}, [], [], None, false);
            Evaluate(Empty(limit), q) == (r.0, Ok(r.1)) && r.1.allowed && r.1.round == 1
  {
    hide Observe, ContractErrors, LacksSemanticTools, ProductionPaths;
    CoveringObservation();
    OneFile(CoveringRound());
  }

  lemma {:induction false} FirstFails(question: string, retries: int, limit: int)
    requires Started(question, retries)
    ensures JudgedOnce(SubmitQuality(Fresh(question, retries, limit), CoveringRound(), FAILING).0.state)
  {
    hide Evaluate, ProductionPaths, Settle;
    FirstEvaluation(limit);
    var q := CoveringRound();
    var (s, outcome) := Evaluate(Empty(limit), q);
    var r := Fresh(question, retries, limit).(state := s);
    var e := MakeEvent(r, q, QualityRound, Some(outcome.value), None, 0, None, false);
    FailingGrade(r.(events := [e]), q, outcome.value);
    assert r.events + [e] == [e];
  }

  lemma {:induction false} FailingGrade(r: Runner, q: Request, o: Outcome)
    requires |r.state.rounds| == 1 && r.state.rounds[0].number == 1 && o.allowed && o.round == r.state.lastRound == 1
    requires !r.state.rounds[0].started && r.state.rounds[0].patch == "p" && r.state.identity == Some(Owner())
    requires r.state.used == 0 && r.state.gate.None? && Addressed(q) && r.question != ""
    ensures JudgedOnce(GradeRound(r, q, o, FAILING, 1, 1).0.state)
  {
  }

  lemma {:induction false} ThenGated(r: Runner, g: Grading)
    requires JudgedOnce(r.state)
    ensures GatedAgain(SubmitQuality(r, UncoveredResubmission(), g).0.state)
  {
    hide Observe, ContractErrors, LacksSemanticTools, ProductionPaths, RequiredPaths, Effective, RecordQuality;
    UncoveredObservation();
    OneFile(UncoveredResubmission());
  }

  lemma {:induction false} ThenCharged(r: Runner, g: Grading)
    requires GatedAgain(r.state)
    ensures ChargedUnflagged(r, Recover(CoveringRecovery(), g))
  {
    hide RegistryAccepts, RequiredPaths, Effective, ProductionPaths, Align, DiagnosedPaths, HasForeignTool, Used;
    OneFile(CoveringRecovery());
    FullCalls();
  }

  /**
    Round 1 fails on a patch, round 2 resubmits it uncovered and opens a gate, and the covering recovery is blocked:
    two quality rounds are charged and one event is flagged.
   */
  lemma {:induction false} RecoveryChargedUnflagged(question: string, retries: int, limit: int, g: Grading, h: Grading)
    requires Started(question, retries)
    ensures var calls := [Quality(CoveringRound(), FAILING), Quality(UncoveredResubmission(), g),
                          Recover(CoveringRecovery(), h)];
            var r := Run(Fresh(question, retries, limit), calls);
            r.state.used == 2 && TallyOf(r.events).consumed == 1 && TallyOf(r.events).blocked == 1
  {
    hide SubmitQuality, SubmitRecovery, TallyOf, Refusals, RunnerInv, FlaggedFree, ChargedUnflagged, CoveringRound,
         UncoveredResubmission, CoveringRecovery;
    var start := Fresh(question, retries, limit);
    var c0, c1 := Quality(CoveringRound(), FAILING), Quality(UncoveredResubmission(), g);
    var c2 := Recover(CoveringRecovery(), h);
    var calls := [c0, c1, c2];
    assert calls[..2] == [c0, c1] && [c0, c1][..1] == [c0] && [c0][..0] == [] && Run(start, []) == start;
    var first, second := Run(start, [c0]), Run(start, [c0, c1]);
    FirstFails(question, retries, limit);
    ThenGated(first, g);
    ThenCharged(second, h);
    FreshInv(question, retries, limit);
    DoKeeps(start, c0);
    DoKeeps(first, c1);
    PlainCalls(start, first, g);
    CallDrifts(start, c0);
    CallDrifts(first, c1);
    CallDrifts(second, c2);
    NeverBoth(second, c2);
    UnflaggedCharges(second, CoveringRecovery(), h);
    EmptyTally();
  }

  lemma {:induction false} PlainCalls(start: Runner, first: Runner, g: Grading)
    ensures var c0, c1 := Quality(CoveringRound(), FAILING), Quality(UncoveredResubmission(), g);
            && !FlaggedFree(start, c0) && !ChargedUnflagged(start, c0)
            && !FlaggedFree(first, c1) && !ChargedUnflagged(first, c1)
  {
  }

  lemma {:induction false} UnflaggedCharges(r: Runner, q: Request, g: Grading)
    requires RunnerInv(r) && ChargedUnflagged(r, Recover(q, g))
    ensures SubmitRecovery(r, q, g).0.state.used == r.state.used + 1
  {
    hide Evaluate, ClosesGate, Inv, GradeRound, WellFormed;
    var asked := Asked(r, q);
    ClosesExact(r.state, asked);
    RecoveredDecision(r.state, asked);
    RecoveryMoves(r.state, asked);
  }
}
