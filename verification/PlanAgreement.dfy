/**
  The planner and the guard agree (scripts/cross_file_diagnostics_coverage.py, lines 1171-1229;
  scripts/cross_file_closed_loop_guard.py, lines 252-294, 467-483 and 553-594).
 */
module PlanAgreement {
  import opened Wrappers
  import opened Evidence
  import opened GuardSpec
  import opened HunkHeader
  import opened CoveragePlan
  import D = DiffParser

  /** Everything the agreement needs to know of an emitted plan. */
  ghost predicate Emitted(files: seq<D.DiffFile>, changes: seq<FileChange>, exemptions: seq<Exemption>, plan: Plan) {
    && DistinctChanges(changes) && DistinctPaths(exemptions)
    && (forall e :: e in exemptions ==> e.activeRound.None?)
    && PlanOf(files, MarkAll(changes, exemptions), exemptions, plan)
  }

  /** What `BuildCoverage` returns is such a plan. */
  lemma {:induction false} BuiltIsEmitted(files: seq<D.DiffFile>, supplied: Option<seq<FileChange>>,
                                          classify: string -> Support,
                                          exemptions: seq<Exemption>, changes: seq<FileChange>, plan: Plan)
    requires D.DistinctPaths(files) && Plannable(files, supplied, classify, Timeless(exemptions), changes)
    requires PlanOf(files, MarkAll(changes, Timeless(exemptions)), Timeless(exemptions), plan)
    ensures Emitted(files, changes, Timeless(exemptions), plan)
  {
    hide PlanOf, AllFit, Changes, DistinctPaths;
    ChangesAreSections(files, supplied, changes);
  }

  /** Only production files are exempted, among those that are live. */
  ghost predicate ExemptsProductionOnly(files: seq<D.DiffFile>, changes: seq<FileChange>, exemptions: seq<Exemption>) {
    forall c :: c in changes && LivePath(files, c.path) && !c.production ==> Registered(exemptions, c.path).None?
  }

  lemma {:induction false} SameEntry(exemptions: seq<Exemption>, a: Exemption, b: Exemption)
    requires DistinctPaths(exemptions) && a in exemptions && b in exemptions && a.path == b.path
    ensures a == b
  {
  }

  /** The emitted registry says of an emitted change what the full registry says. */
  lemma {:induction false} SameLookup(files: seq<D.DiffFile>, changes: seq<FileChange>, exemptions: seq<Exemption>,
                                      plan: Plan, path: string)
    requires Emitted(files, changes, exemptions, plan) && path in Paths(plan.changes)
    ensures Registered(plan.exemptions, path) == Registered(exemptions, path)
  {
    hide DistinctPaths, DistinctChanges, MarkAll;
    if Registered(exemptions, path).Some? {
      var e :| e in exemptions && e.path == path && e.kind == Registered(exemptions, path).value;
      assert e in plan.exemptions;
      var f :| f in plan.exemptions && f.path == path && f.kind == Registered(plan.exemptions, path).value;
      SameEntry(exemptions, e, f);
    }
  }

  /** An emitted change is a marked change, shown to the guard. */
  lemma {:induction false} EmittedChange(files: seq<D.DiffFile>, changes: seq<FileChange>, exemptions: seq<Exemption>,
                                         plan: Plan, c: FileChange)
    requires Emitted(files, changes, exemptions, plan) && c in plan.changes
    ensures exists d :: d in changes && c == Marked(d, exemptions)
    ensures c.exemption == Registered(plan.exemptions, c.path) == Registered(exemptions, c.path) && Shown(files, c)
  {
    hide DistinctPaths, DistinctChanges, Registered;
    var effective := MarkAll(changes, exemptions);
    var i :| 0 <= i < |effective| && effective[i] == c;
    assert changes[i] in changes;
    SameLookup(files, changes, exemptions, plan, c.path);
  }

  lemma {:induction false} SamePath(changes: seq<FileChange>, c: FileChange, d: FileChange)
    requires DistinctChanges(changes) && c in changes && d in changes && c.path == d.path
    ensures c == d
  {
  }

  lemma {:induction false} EntriesAreProduction(files: seq<D.DiffFile>, changes: seq<FileChange>,
                                                exemptions: seq<Exemption>, plan: Plan, e: Exemption)
    requires Emitted(files, changes, exemptions, plan) && ExemptsProductionOnly(files, changes, exemptions)
             && e in plan.exemptions
    ensures e.path in ProductionPaths(plan.changes)
  {
    hide DistinctPaths, DistinctChanges, Registered, LivePath;
    var c :| c in plan.changes && c.path == e.path;
    EmittedChange(files, changes, exemptions, plan, c);
    var d :| d in changes && c == Marked(d, exemptions);
    assert e in exemptions;
    RegisteredIs(exemptions, e);
    assert d.path == c.path && d.production == c.production;
  }

  lemma {:induction false} RegisteredIs(exemptions: seq<Exemption>, e: Exemption)
    requires e in exemptions
    ensures Registered(exemptions, e.path).Some?
  {
  }

  lemma {:induction false} AcceptedIsProductionOnly(files: seq<D.DiffFile>, changes: seq<FileChange>,
                                                    exemptions: seq<Exemption>, plan: Plan, round: int, d: FileChange)
    requires Emitted(files, changes, exemptions, plan) && RegistryAccepts(plan.changes, plan.exemptions, round)
    requires d in changes && LivePath(files, d.path) && Registered(exemptions, d.path).Some?
    ensures d.production
  {
    hide DistinctPaths, LivePath, Live;
    var effective := MarkAll(changes, exemptions);
    var i :| 0 <= i < |changes| && changes[i] == d;
    var c := effective[i];
    assert c in effective && c in plan.changes;
    var e :| e in exemptions && e.path == d.path;
    assert e in plan.exemptions;
    var p :| p in plan.changes && p.production && p.path == d.path;
    EmittedChange(files, changes, exemptions, plan, p);
    var b :| b in changes && p == Marked(b, exemptions);
    SamePath(changes, b, d);
  }

  /** The guard accepts the plan's registry exactly when no live file outside production is exempted. */
  lemma {:induction false} RegistryAgreement(files: seq<D.DiffFile>, changes: seq<FileChange>,
                                             exemptions: seq<Exemption>, plan: Plan, round: int)
    requires Emitted(files, changes, exemptions, plan)
    ensures RegistryAccepts(plan.changes, plan.exemptions, round) <==> ExemptsProductionOnly(files, changes, exemptions)
  {
    if ExemptsProductionOnly(files, changes, exemptions) {
      forall e | e in plan.exemptions
        ensures CurrentFor(e, round) && e.path in ProductionPaths(plan.changes)
      {
        EntriesAreProduction(files, changes, exemptions, plan, e);
        assert e in exemptions;
      }
      forall c | c in plan.changes
        ensures ChangeAllowed(c, plan.exemptions)
      {
        EmittedChange(files, changes, exemptions, plan, c);
      }
    }
    if RegistryAccepts(plan.changes, plan.exemptions, round) {
      forall d | d in changes && LivePath(files, d.path) && Registered(exemptions, d.path).Some?
        ensures d.production
      {
        AcceptedIsProductionOnly(files, changes, exemptions, plan, round, d);
      }
    }
  }

  lemma {:induction false} RequiredIsTarget(files: seq<D.DiffFile>, changes: seq<FileChange>,
                                            exemptions: seq<Exemption>, plan: Plan, path: string)
    requires Emitted(files, changes, exemptions, plan) && NeedsDiagnostics(plan.changes, plan.exemptions, path)
    ensures path in plan.targets
  {
    hide DistinctPaths, DistinctChanges, LivePath;
    var c :| c in plan.changes && c.path == path && c.production && c.exemption.None?
             && !(exists e :: e in plan.exemptions && e.path == path);
    assert c in MarkAll(changes, exemptions) && IsTarget(files, c);
  }

  lemma {:induction false} TargetIsRequired(files: seq<D.DiffFile>, changes: seq<FileChange>,
                                            exemptions: seq<Exemption>, plan: Plan, path: string)
    requires Emitted(files, changes, exemptions, plan) && path in plan.targets
    ensures NeedsDiagnostics(plan.changes, plan.exemptions, path)
  {
    hide DistinctPaths, DistinctChanges, LivePath;
    var c :| c in MarkAll(changes, exemptions) && c.path == path && IsTarget(files, c);
    assert c in plan.changes;
    EmittedChange(files, changes, exemptions, plan, c);
  }

  /** The files the guard demands diagnostics for are exactly the plan's targets. */
  lemma {:induction false} TargetsAgree(files: seq<D.DiffFile>, changes: seq<FileChange>, exemptions: seq<Exemption>,
                                        plan: Plan)
    requires Emitted(files, changes, exemptions, plan)
    ensures RequiredPaths(Effective(plan.changes, plan.exemptions)) == plan.targets.Keys
  {
    forall path
      ensures path in RequiredPaths(Effective(plan.changes, plan.exemptions)) <==> path in plan.targets
    {
      hide Emitted, NeedsDiagnostics;
      RequiredIsNonExempt(plan.changes, plan.exemptions, path);
      if NeedsDiagnostics(plan.changes, plan.exemptions, path) {
        RequiredIsTarget(files, changes, exemptions, plan, path);
      }
      if path in plan.targets {
        TargetIsRequired(files, changes, exemptions, plan, path);
      }
    }
  }

  // ----- A round that follows the plan --------------------------------------

  /** A With-LSP round with structure, xref and the planned diagnostics call, and no other MCP tool. */
  ghost predicate Follows(q: Request, plan: Plan) {
    && q.mode == WithLsp && !q.Canonical() && !q.ExplicitRecovery()
    && q.changes == plan.changes && q.exemptions == plan.exemptions
    && Used(q.trajectory, Structure) && Used(q.trajectory, Xref) && !HasUnsupportedTool(q.trajectory)
    && (exists e :: e in q.trajectory && e.mcp && e.tool == Diagnostics && e.paths == plan.targets.Keys)
    && !q.TransportDeclared() && SeparatedChannels(q.failures, q.who.agent)
  }

  lemma {:induction false} NothingMissing(q: Request, plan: Plan)
    requires Follows(q, plan) && RegistryAccepts(q.changes, q.exemptions, q.round)
    requires RequiredPaths(Effective(q.changes, q.exemptions)) == plan.targets.Keys
    ensures Observe(q).missing == {} && Observe(q).violation.None? && !Observe(q).infra
    ensures !LacksSemanticTools(q) && ContractErrors(q) == []
  {
    hide RegistryAccepts, RequiredPaths, Effective, Align, HasUnsupportedTool;
    var required := plan.targets.Keys;
    var e :| e in q.trajectory && e.mcp && e.tool == Diagnostics && e.paths == required;
    assert required <= DiagnosedPaths(q.trajectory);
    AlignCoversRequired(DiagnosedPaths(q.trajectory), required);
    assert DiagnosedPaths(q.trajectory) * required == required;
    assert required - Align(DiagnosedPaths(q.trajectory), required) == {};
  }

  /** A round that follows an accepted plan with a new patch is graded. */
  lemma {:induction false} PlannedRoundIsGraded(files: seq<D.DiffFile>, changes: seq<FileChange>,
                                                exemptions: seq<Exemption>, plan: Plan, s: State, q: Request)
    requires Emitted(files, changes, exemptions, plan) && ExemptsProductionOnly(files, changes, exemptions)
    requires Follows(q, plan)
    requires InSequence(s, q) && !IsRetry(s, q) && CheckIdentity(s, q).Ok? && s.gate.None?
    requires q.patch != "" && s.lastQualityPatch != Some(q.patch) && ProductionPaths(plan.changes) != {}
    ensures var r := Evaluate(s, q).1;
            r.Ok? && r.value.allowed && r.value.decision == AllowGrader && r.value.missing == {}
              && r.value.violations == []
  {
    RegistryAgreement(files, changes, exemptions, plan, q.round);
    TargetsAgree(files, changes, exemptions, plan);
    hide Emitted, ExemptsProductionOnly, RegistryAccepts, RequiredPaths, Effective;
    NothingMissing(q, plan);
    hide Observe, ContractErrors, LacksSemanticTools, InSequence, IsRetry;
  }

  // ----- A plan that the guard refuses --------------------------------------

  /** One added test file, named by the request as no production file, with a registry entry. */
  const TEST_FILES := [D.DiffFile("t", None, Some("t"), D.Added, [Hunk(0, 0, 1, 1)])]
  const TEST_CHANGES := [FileChange("t", false, None)]
  const TEST_ENTRIES := [Exemption("t", Generated, None)]
  const TEST_PLAN := Plan([FileChange("t", false, Some(Generated))], TEST_ENTRIES, map[])

  lemma {:induction false} TestFileIsLive()
    ensures SectionOf(TEST_FILES, "t") == Some(TEST_FILES[0]) && LivePath(TEST_FILES, "t")
    ensures Registered(TEST_ENTRIES, "t") == Some(Generated)
  {
    var f := TEST_FILES[0];
    assert f.hunks[0] in f.hunks && 1 in NewLines(f.hunks[0]);
    assert 1 in ChangedLines(f);
    assert TEST_ENTRIES[0] in TEST_ENTRIES;
  }

  lemma {:induction false} TestFileIsPlannable(classify: string -> Support)
    ensures D.DistinctPaths(TEST_FILES)
    ensures Plannable(TEST_FILES, Some(TEST_CHANGES), classify, TEST_ENTRIES, TEST_CHANGES)
  {
    TestFileIsLive();
    assert TEST_CHANGES[0] in TEST_CHANGES;
  }

  lemma {:induction false} TestPlanIsEmitted()
    ensures Emitted(TEST_FILES, TEST_CHANGES, TEST_ENTRIES, TEST_PLAN)
  {
    TestFileIsLive();
    var effective := MarkAll(TEST_CHANGES, TEST_ENTRIES);
    assert effective == TEST_PLAN.changes;
    assert TEST_PLAN.changes[0] in TEST_PLAN.changes;
    hide LivePath, SectionOf, MarkAll;
  }

  /** The case the agreement excludes: whatever the language registry says, this plan is emitted and refused. */
  lemma {:induction false} ExemptTestFileIsRefused(classify: string -> Support, round: int)
    ensures D.DistinctPaths(TEST_FILES)
    ensures Plannable(TEST_FILES, Some(TEST_CHANGES), classify, TEST_ENTRIES, TEST_CHANGES)
    ensures Emitted(TEST_FILES, TEST_CHANGES, TEST_ENTRIES, TEST_PLAN)
    ensures !RegistryAccepts(TEST_PLAN.changes, TEST_PLAN.exemptions, round)
  {
    hide Plannable, Emitted, RegistryAccepts, Registered, LivePath;
    TestFileIsLive();
    TestFileIsPlannable(classify);
    TestPlanIsEmitted();
    RegistryAgreement(TEST_FILES, TEST_CHANGES, TEST_ENTRIES, TEST_PLAN, round);
    assert TEST_CHANGES[0] in TEST_CHANGES;
  }
}
