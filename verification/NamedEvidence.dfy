/**
  Which files the evidence of a request names, read off its trajectory or receipts alone
  (scripts/cross_file_closed_loop_guard.py, lines 492-594 and 2147-2240).
 */
module NamedEvidence {
  import opened Wrappers
  import opened Evidence
  import opened GuardSpec
  import opened RunnerInvariants

  /** The text `path` ends in a slash and then `name`. */
  predicate EndsIn(path: string, name: string) {
    |path| > |name| && path[|path| - |name| - 1] == '/' && path[|path| - |name|..] == name
  }

  /** `path` is the required file itself, or an absolute path of this file and of no other required one. */
  ghost predicate PathNames(q: Request, path: string, file: string) {
    || path == file
    || (EndsIn(path, file)
        && forall other :: NeedsDiagnostics(q.changes, q.exemptions, other) && other != file ==>
             path != other && !EndsIn(path, other))
  }

  /** Event `i` of the trajectory is an MCP diagnostics call on the file. */
  ghost predicate CallNames(q: Request, i: int, path: string, file: string) {
    && 0 <= i < |q.trajectory| && q.trajectory[i].mcp && q.trajectory[i].tool == Diagnostics
    && path in q.trajectory[i].paths && PathNames(q, path, file)
  }

  /** A diagnostics call names the file; with receipts or isolation evidence, the validated receipt chain does. */
  ghost predicate Names(q: Request, file: string) {
    if q.Canonical() then
      && q.receipts.Some? && q.receipts.value.Receipts? && q.receipts.value.valid && !q.TransportDeclared()
      && q.receipts.value.chain.Covers? && file in q.receipts.value.chain.files
    else exists i, path :: CallNames(q, i, path, file)
  }

  // ----- One observation ----------------------------------------------------

  lemma {:induction false} SlashEnds(path: string, name: string)
    ensures EndsWith(path, "/" + name) <==> EndsIn(path, name)
  {
    var tail := "/" + name;
    if |path| > |name| {
      var k := |path| - |name| - 1;
      assert path[k..] == [path[k]] + path[k + 1..];
      assert tail[0] == '/' && tail[1..] == name;
    }
  }

  /** A required file stands for exactly the paths that name it. */
  lemma {:induction false} AlignedTo(q: Request, path: string, file: string)
    requires NeedsDiagnostics(q.changes, q.exemptions, file)
    ensures AlignPath(path, RequiredPaths(Effective(q.changes, q.exemptions))) == file <==> PathNames(q, path, file)
  {
    hide NeedsDiagnostics, RequiredPaths, Effective, EndsWith, EndsIn;
    var required := RequiredPaths(Effective(q.changes, q.exemptions));
    var matches := Matches(path, required);
    forall other
      ensures other in matches <==>
                NeedsDiagnostics(q.changes, q.exemptions, other) && (path == other || EndsIn(path, other))
    {
      RequiredIsNonExempt(q.changes, q.exemptions, other);
      SlashEnds(path, other);
    }
    if path == file {
      AlignKeepsRequired(path, required);
    } else if PathNames(q, path, file) {
      assert matches == {file};
    }
  }

  lemma {:induction false} AlignedNames(q: Request, file: string)
    requires NeedsDiagnostics(q.changes, q.exemptions, file)
    ensures file in Align(DiagnosedPaths(q.trajectory), RequiredPaths(Effective(q.changes, q.exemptions)))
            <==> exists i, path :: CallNames(q, i, path, file)
  {
    hide NeedsDiagnostics, RequiredPaths, Effective, AlignPath, PathNames;
    var required := RequiredPaths(Effective(q.changes, q.exemptions));
    if file in Align(DiagnosedPaths(q.trajectory), required) {
      var path :| path in DiagnosedPaths(q.trajectory) && AlignPath(path, required) == file;
      AlignedTo(q, path, file);
      var e :| e in q.trajectory && e.mcp && e.tool == Diagnostics && path in e.paths;
      var i :| 0 <= i < |q.trajectory| && q.trajectory[i] == e;
      assert CallNames(q, i, path, file);
    }
    if i, path :| CallNames(q, i, path, file) {
      AlignedTo(q, path, file);
      assert q.trajectory[i] in q.trajectory;
      assert path in DiagnosedPaths(q.trajectory);
    }
  }

  /** A With-LSP round that breaks no contract covers exactly the required files that its evidence names. */
  lemma {:induction false} CoverageExact(q: Request, file: string)
    requires q.mode == WithLsp && Observe(q).violation.None? && NeedsDiagnostics(q.changes, q.exemptions, file)
    ensures file in Observe(q).covered <==> Names(q, file)
  {
    hide NeedsDiagnostics, RequiredPaths, Effective, Align, DiagnosedPaths, RegistryAccepts, HasUnsupportedTool,
         CallNames;
    if !q.Canonical() {
      AlignedNames(q, file);
    }
  }

  /** What `Names` says does not depend on the action that asks. */
  lemma {:induction false} SameNames(q: Request, action: Action, attempt: Option<int>, file: string)
    ensures Names(q.(action := action, attempt := attempt), file) <==> Names(q, file)
  {
    hide NeedsDiagnostics;
    var asked := q.(action := action, attempt := attempt);
    if !q.Canonical() {
      forall i, path
        ensures CallNames(asked, i, path, file) <==> CallNames(q, i, path, file)
      {
      }
    }
  }

  // ----- One evaluation -----------------------------------------------------

  /** A record without a contract failure covers what its request names and what the gate it answers had. */
  ghost predicate NewIsNamed(s: State, q: Request, t: State) {
    |t.rounds| > |s.rounds| && Last(t).decision != RejectContract && q.mode == WithLsp ==>
      forall file :: NeedsDiagnostics(q.changes, q.exemptions, file) ==>
        (file in Last(t).covered <==> Names(q, file) || (s.gate.Some? && file in s.gate.value.covered))
  }

  /** The gate holds the round, patch, scope and observation of the request that opened it. */
  ghost predicate Opened(q: Request, g: Gate) {
    && q.mode == WithLsp && Observe(q).violation.None? && g.covered == Observe(q).covered
    && g.round == q.round && g.patch == q.patch && g.files == ProductionPaths(q.changes)
    && g.required == RequiredPaths(Effective(q.changes, q.exemptions))
  }

  lemma {:induction false} ErrorsAreViolations(q: Request)
    ensures ContractErrors(q) == [] ==> Observe(q).violation.None?
    ensures Observe(q).infra ==> Observe(q).violation.None?
  {
    hide RequiredPaths, Effective, RegistryAccepts, Align, DiagnosedPaths;
  }

  lemma {:induction false} RecordedAs(s: State, q: Request, covered: set<string>, missing: set<string>,
                                      violations: seq<Violation>, failures: seq<FailureRecord>,
                                      attempt: Option<int>, recovered: bool)
    ensures var t := RecordQuality(s, q, covered, missing, violations, failures, attempt, recovered).0;
            && |t.rounds| == |s.rounds| + 1 && Last(t).covered == covered && t.gate == s.gate
            && (Last(t).decision != RejectContract <==> violations == [])
  {
  }

  lemma {:induction false} QualityNamed(s: State, q: Request)
    requires s.gate.None?
    ensures var t := EvaluateQuality(s, q).0; NewIsNamed(s, q, t) && (t.gate.Some? ==> Opened(q, t.gate.value))
  {
    hide Observe, ContractErrors, RecordQuality, LacksSemanticTools, NeedsDiagnostics, RequiredPaths, Effective,
         ProductionPaths, Names, SeparatedChannels;
    ErrorsAreViolations(q);
    if q.mode == WithLsp && Observe(q).violation.None? {
      forall file | NeedsDiagnostics(q.changes, q.exemptions, file)
        ensures file in Observe(q).covered <==> Names(q, file)
      {
        CoverageExact(q, file);
      }
    }
    if InSequence(s, q) && !IsRetry(s, q) && CheckIdentity(s, q).Ok? {
      var failures := if SeparatedChannels(q.failures, q.who.agent) then q.failures else [];
      RecordedAs(CheckIdentity(s, q).value, q, Observe(q).covered, Observe(q).missing, ContractErrors(q), failures,
                 None, false);
    }
  }

  /** The evidence of a recovery itself. */
  ghost function Supplied(g: Gate, q: Request): set<string> {
    if q.Canonical() then ObserveReceipts(q).covered else Align(DiagnosedPaths(q.trajectory), g.required)
  }

  lemma {:induction false} CloseNamed(s: State, q: Request, attempt: int, covered: set<string>)
    requires s.gate.Some?
    ensures var t := CloseGate(s, q, attempt, covered).0;
            t.gate.None? && (|t.rounds| > |s.rounds| ==> Last(t).covered == covered)
  {
    hide RecordQuality, SeparatedChannels, ProductionPaths;
    var g := s.gate.value;
    var who := if s.identity.Some? then s.identity.value else q.who;
    var note := EvidenceRecord(g.round, attempt, who, q.patch, ProductionPaths(q.changes), covered,
                               g.required - covered, true);
    RecordedAs(s.(evidence := s.evidence + [note], gate := None), q, covered, {}, [], q.failures, Some(attempt), true);
  }

  lemma {:induction false} AnswerNamed(s: State, q: Request, attempt: int)
    requires s.gate.Some?
    ensures var t := AnswerGate(s, q, attempt).0;
            && (|t.rounds| > |s.rounds| ==>
                  && Last(t).covered == s.gate.value.covered + Supplied(s.gate.value, q) && q.mode == WithLsp
                  && (q.Canonical() ==> ObserveReceipts(q).violation.None?))
            && (t.gate.Some? ==> t.gate == s.gate)
  {
    hide CloseGate, ObserveReceipts, Align, DiagnosedPaths, LacksSemanticTools, HasForeignTool;
    CloseNamed(s, q, attempt, s.gate.value.covered + Supplied(s.gate.value, q));
  }

  lemma {:induction false} RecoveryNamed(s: State, q: Request)
    requires s.gate.Some?
    ensures var t := EvaluateRecovery(s, q).0; NewIsNamed(s, q, t) && (t.gate.Some? ==> t.gate == s.gate)
  {
    hide AnswerGate, RegistryAccepts, ProductionPaths, RequiredPaths, Effective, NeedsDiagnostics, Names, Supplied;
    var g := s.gate.value;
    AnswerNamed(s, q, if q.attempt.Some? then q.attempt.value else g.attempts + 1);
    if g.required == RequiredPaths(Effective(q.changes, q.exemptions)) && q.mode == WithLsp
       && (q.Canonical() ==> ObserveReceipts(q).violation.None?) {
      forall file | NeedsDiagnostics(q.changes, q.exemptions, file)
        ensures file in Supplied(g, q) <==> Names(q, file)
      {
        SuppliedNames(g, q, file);
      }
    }
  }

  lemma {:induction false} SuppliedNames(g: Gate, q: Request, file: string)
    requires g.required == RequiredPaths(Effective(q.changes, q.exemptions)) && q.mode == WithLsp
    requires NeedsDiagnostics(q.changes, q.exemptions, file)
    requires q.Canonical() ==> ObserveReceipts(q).violation.None?
    ensures file in Supplied(g, q) <==> Names(q, file)
  {
    hide RequiredPaths, Effective, NeedsDiagnostics, CallNames, Align, DiagnosedPaths;
    if q.Canonical() {
      hide ObserveReceipts;
      CoverageExact(q, file);
    } else {
      AlignedNames(q, file);
    }
  }

  /** What any evaluation does to records and gate. */
  lemma {:induction false} EvaluationNamed(s: State, q: Request)
    requires q.ExplicitRecovery() || s.gate.None?
    ensures var t := Evaluate(s, q).0;
            && NewIsNamed(s, q, t)
            && (t.gate.Some? ==> t.gate == s.gate || (s.gate.None? && Opened(q, t.gate.value)))
  {
    hide EvaluateQuality, AnswerGate, NewIsNamed, Opened;
    if s.gate.Some? {
      RecoveryNamed(s, q);
    } else if q.ExplicitRecovery() {
      NothingNamed(s, q);
    } else {
      QualityNamed(s, q);
    }
  }

  lemma {:induction false} NothingNamed(s: State, q: Request)
    requires s.gate.None?
    ensures var t := EvaluateRecovery(s, q).0; NewIsNamed(s, q, t) && t.gate.None?
  {
    hide Names, NeedsDiagnostics;
  }
}
