/**
  What every run of the runner keeps.  A run is any sequence of the four calls with any requests
  and any grader behaviour, including calls that raise part-way.
 */
module RunnerInvariants {
  import opened Wrappers
  import opened Evidence
  import opened GuardSpec

  // ----- The invariant ------------------------------------------------------

  function Last(s: State): RoundRecord
    requires s.rounds != []
  {
    s.rounds[|s.rounds| - 1]
  }

  /** Records that cost a quality round: blocked without progress, broken contracts and verdicts. */
  function Costs(r: RoundRecord): nat {
    (if r.decision == NoProgress || r.decision == RejectContract then 1 else 0) + (if r.passed.Some? then 1 else 0)
  }

  function TotalCost(rounds: seq<RoundRecord>): nat {
    if rounds == [] then 0 else TotalCost(rounds[..|rounds| - 1]) + Costs(rounds[|rounds| - 1])
  }

  function TotalGradings(rounds: seq<RoundRecord>): int {
    if rounds == [] then 0 else TotalGradings(rounds[..|rounds| - 1]) + rounds[|rounds| - 1].gradings
  }

  predicate Gradeable(d: Decision) {
    d == AllowGrader || d == RetryInfrastructure
  }

  ghost predicate RecordOk(r: RoundRecord, retries: int) {
    && r.patch != ""
    && (r.started <==> r.passed.Some?)
    && (r.accepted <==> r.passed == Some(true))
    && (r.gradings > 0 ==> Gradeable(r.decision))
    && (r.passed.Some? ==> r.gradings > 0)
    && 0 <= r.gradings <= 1 + retries
  }

  ghost predicate RecordsOk(s: State, retries: int) {
    && s.lastRound == |s.rounds| <= MAX_ROUNDS
    && (forall i :: 0 <= i < |s.rounds| ==> s.rounds[i].number == i + 1 && RecordOk(s.rounds[i], retries))
    && (forall i :: 0 <= i < |s.rounds| - 1 ==> !s.rounds[i].accepted)
    && s.used == TotalCost(s.rounds)
    && s.lastPatch == (if s.rounds == [] then None else Some(Last(s).patch))
    && (s.used > 0 ==> s.lastQualityPatch.Some?)
  }

  ghost predicate GateOk(g: Gate, s: State) {
    && g.round == s.lastRound + 1 <= MAX_ROUNDS
    && g.patch != "" && g.files != {} && g.required != {} && g.required <= g.files
    && g.attempts == 0
    && (g.source == ServerReceipts ==> g.task.Some? && g.task.value != "")
    && (g.source == Trajectory ==> g.generation.None?)
  }

  ghost predicate IdentityOk(s: State) {
    && (s.identity.Some? ==> s.identity.value.Complete())
    && (s.rounds != [] || s.gate.Some? ==> s.identity.Some?)
  }

  ghost predicate StatusOk(s: State) {
    && (s.gate.Some? <==> s.status == EvidenceRecoveryRequired)
    && (s.status == Succeeded <==> s.rounds != [] && Last(s).accepted)
    && (s.status == InfrastructureFailure ==> s.rounds != [] && !Last(s).started && Gradeable(Last(s).decision))
    && (s.status == MaxRoundsReached ==> s.lastRound == MAX_ROUNDS)
  }

  ghost predicate Core(s: State, retries: int) {
    RecordsOk(s, retries) && (s.gate.Some? ==> GateOk(s.gate.value, s)) && IdentityOk(s) && StatusOk(s)
  }

  /** A runner at rest in an infrastructure failure still has a retry left. */
  ghost predicate Inv(s: State, retries: int) {
    Core(s, retries) && (s.status == InfrastructureFailure ==> Last(s).gradings <= retries)
  }

  lemma {:induction false} EmptyInv(limit: int, retries: int)
    requires retries >= 0
    ensures Inv(Empty(limit), retries)
  {
  }

  // ----- Guard transitions --------------------------------------------------

  /** A state whose last round the guard has just authorised for grading with outcome `o`. */
  ghost predicate Authorised(s: State, o: Outcome, retries: int) {
    && s.status == Active && s.gate.None? && s.rounds != []
    && o.allowed && o.round == s.lastRound
    && !Last(s).started && Gradeable(Last(s).decision) && Last(s).gradings <= retries
  }

  lemma {:induction false} AppendRecord(s: State, r: RoundRecord)
    ensures TotalCost(s.rounds + [r]) == TotalCost(s.rounds) + Costs(r)
    ensures TotalGradings(s.rounds + [r]) == TotalGradings(s.rounds) + r.gradings
  {
    assert (s.rounds + [r])[..|s.rounds|] == s.rounds;
  }

  lemma {:induction false} ReplaceLast(s: State, r: RoundRecord)
    requires s.rounds != []
    ensures TotalCost(s.rounds[|s.rounds| - 1 := r]) == TotalCost(s.rounds) - Costs(Last(s)) + Costs(r)
    ensures TotalGradings(s.rounds[|s.rounds| - 1 := r]) == TotalGradings(s.rounds) - Last(s).gradings + r.gradings
  {
    var n := |s.rounds| - 1;
    assert s.rounds[n := r][..n] == s.rounds[..n];
  }

  lemma {:induction false} RecordsGrow(s: State, t: State, r: RoundRecord, retries: int)
    requires RecordsOk(s, retries) && (s.rounds == [] || !Last(s).accepted)
    requires t.rounds == s.rounds + [r] && t.lastRound == s.lastRound + 1 <= MAX_ROUNDS
    requires r.number == t.lastRound && RecordOk(r, retries)
    requires t.used == s.used + Costs(r) && t.lastPatch == Some(r.patch)
    requires t.used > 0 ==> t.lastQualityPatch.Some?
    ensures RecordsOk(t, retries) && Last(t) == r
  {
    AppendRecord(s, r);
  }

  lemma {:induction false} RecordQualityKeeps(s: State, q: Request, covered: set<string>, missing: set<string>,
                           violations: seq<Violation>, failures: seq<FailureRecord>,
                           attempt: Option<int>, recovered: bool, retries: int)
    requires retries >= 0
    requires RecordsOk(s, retries) && IdentityOk(s) && s.gate.None? && s.identity.Some?
    requires s.rounds == [] || !Last(s).accepted
    requires q.round == s.lastRound + 1 <= MAX_ROUNDS && q.patch != ""
    ensures var r := RecordQuality(s, q, covered, missing, violations, failures, attempt, recovered);
            Inv(r.0, retries) && (r.1.allowed ==> Authorised(r.0, r.1, retries))
  {
    var r := RecordQuality(s, q, covered, missing, violations, failures, attempt, recovered);
    assert Last(r.0).passed.None? && Last(r.0).gradings == 0;
    RecordsGrow(s, r.0, Last(r.0), retries);
  }

  lemma {:induction false} RecordInfraKeeps(s: State, q: Request, covered: set<string>, missing: set<string>,
                                            retries: int)
    requires retries >= 0
    requires RecordsOk(s, retries) && IdentityOk(s) && s.gate.None? && s.identity.Some?
    requires s.rounds == [] || !Last(s).accepted
    requires q.round == s.lastRound + 1 <= MAX_ROUNDS && q.patch != ""
    ensures Inv(RecordInfra(s, q, covered, missing).0, retries)
  {
    var t := RecordInfra(s, q, covered, missing).0;
    RecordsGrow(s, t, Last(t), retries);
  }

  /** Replacing the last record keeps the history, if the budget moves with it. */
  lemma {:induction false} RecordsReplaced(s: State, t: State, r: RoundRecord, retries: int)
    requires RecordsOk(s, retries) && s.rounds != []
    requires t.rounds == s.rounds[|s.rounds| - 1 := r] && t.lastRound == s.lastRound
    requires r.number == Last(s).number && r.patch == Last(s).patch && RecordOk(r, retries)
    requires t.used == s.used - Costs(Last(s)) + Costs(r) && t.lastPatch == s.lastPatch
    requires t.used > 0 ==> t.lastQualityPatch.Some?
    ensures RecordsOk(t, retries) && Last(t) == r
    ensures TotalGradings(t.rounds) == TotalGradings(s.rounds) - Last(s).gradings + r.gradings
  {
    ReplaceLast(s, r);
  }

  /** Closing a gate or failing a contract without a record. */
  lemma {:induction false} CloseKeeps(s: State, t: State, retries: int)
    requires Inv(s, retries) && !Closed(s.status)
    requires t == s.(gate := None, status := t.status, evidence := t.evidence, failures := t.failures)
    requires t.status == ContractFailure || t.status == Active
    ensures Inv(t, retries)
  {
  }

  lemma {:induction false} NotesKeep(s: State, evidence: seq<EvidenceRecord>, failures: seq<FailureRecord>,
                                     retries: int)
    requires RecordsOk(s, retries)
    ensures RecordsOk(s.(evidence := evidence, gate := None), retries)
    ensures Inv(s, retries) ==> Inv(s.(failures := failures), retries)
  {
  }

  lemma {:induction false} RetryKeeps(s: State, q: Request, retries: int)
    requires Inv(s, retries) && IsRetry(s, q)
    ensures var (t, r) := EvaluateQuality(s, q);
            Inv(t, retries) && (r.Ok? && r.value.allowed ==> Authorised(t, r.value, retries))
  {
    if InSequence(s, q) && CheckOwner(s, q).None? {
      RecordsReplaced(s, EvaluateQuality(s, q).0, Last(s).(allowed := true), retries);
    }
  }

  lemma {:induction false} OpenGateKeeps(s: State, q: Request, covered: set<string>, missing: set<string>, retries: int)
    requires Inv(s, retries) && s.status == Active && s.identity.Some?
    requires q.round == s.lastRound + 1 <= MAX_ROUNDS && q.patch != ""
    ensures Inv(OpenGate(s, q, covered, missing).0, retries) && !OpenGate(s, q, covered, missing).1.allowed
  {
    RequiredInProduction(q);
    if OpenGate(s, q, covered, missing).0.gate.None? {
      CloseKeeps(s, OpenGate(s, q, covered, missing).0, retries);
    }
  }

  lemma {:induction false} EvaluateQualityKeeps(s: State, q: Request, retries: int)
    requires retries >= 0 && Inv(s, retries) && !Closed(s.status)
    ensures var (t, r) := EvaluateQuality(s, q);
            Inv(t, retries) && (r.Ok? && r.value.allowed ==> Authorised(t, r.value, retries))
  {
    hide Observe, ContractErrors, OpenGate, RecordQuality;
    if IsRetry(s, q) {
      RetryKeeps(s, q, retries);
    } else if InSequence(s, q) && CheckIdentity(s, q).Ok? && q.patch != "" {
      var t := CheckIdentity(s, q).value;
      assert Inv(t, retries);
      var o := Observe(q);
      if o.infra {
        RecordInfraKeeps(t, q, o.covered, o.missing, retries);
      } else if q.mode == WithLsp && ContractErrors(q) == []
                && (o.missing != {} || (!q.Canonical() && LacksSemanticTools(q))) {
        OpenGateKeeps(t, q, o.covered, o.missing, retries);
      } else {
        RecordQualityKeeps(t, q, o.covered, o.missing, ContractErrors(q),
                           if SeparatedChannels(q.failures, q.who.agent) then q.failures else [], None, false, retries);
      }
    }
  }

  lemma {:induction false} RequiredInProduction(q: Request)
    ensures RequiredPaths(Effective(q.changes, q.exemptions)) <= ProductionPaths(q.changes)
  {
    forall p | p in RequiredPaths(Effective(q.changes, q.exemptions))
      ensures p in ProductionPaths(q.changes)
    {
      RequiredIsNonExempt(q.changes, q.exemptions, p);
    }
  }

  lemma {:induction false} CloseGateKeeps(s: State, q: Request, attempt: int, covered: set<string>, retries: int)
    requires retries >= 0 && Inv(s, retries) && s.gate.Some? && q.round == s.gate.value.round && q.patch != ""
    ensures var (t, o) := CloseGate(s, q, attempt, covered);
            Inv(t, retries) && (o.allowed ==> Authorised(t, o, retries))
  {
    hide RecordsOk, RecordQuality;
    var (t, o) := CloseGate(s, q, attempt, covered);
    NotesKeep(s, t.evidence, [], retries);
    if s.gate.value.required - covered != {} || !SeparatedChannels(q.failures, q.who.agent) {
      CloseKeeps(s, t, retries);
    } else {
      var who := if s.identity.Some? then s.identity.value else q.who;
      var note := EvidenceRecord(s.gate.value.round, attempt, who, q.patch, ProductionPaths(q.changes), covered,
                                 s.gate.value.required - covered, true);
      NotesKeep(s, s.evidence + [note], [], retries);
      RecordQualityKeeps(s.(evidence := s.evidence + [note], gate := None), q, covered, {}, [], q.failures,
                         Some(attempt), true, retries);
    }
  }

  lemma {:induction false} AnswerGateKeeps(s: State, q: Request, attempt: int, retries: int)
    requires retries >= 0 && Inv(s, retries) && s.gate.Some? && q.round == s.gate.value.round && q.patch != ""
    ensures var (t, o) := AnswerGate(s, q, attempt);
            Inv(t, retries) && (o.allowed ==> Authorised(t, o, retries))
  {
    hide CloseGate, RecordsOk, ObserveReceipts;
    var g := s.gate.value;
    NotesKeep(s, [], s.failures + [TransportFailure], retries);
    CloseKeeps(s, s.(gate := None, status := ContractFailure), retries);
    if q.Canonical() {
      CloseGateKeeps(s, q, attempt, g.covered + ObserveReceipts(q).covered, retries);
    } else {
      CloseGateKeeps(s, q, attempt, g.covered + Align(DiagnosedPaths(q.trajectory), g.required), retries);
    }
  }

  lemma {:induction false} EvaluateRecoveryKeeps(s: State, q: Request, retries: int)
    requires retries >= 0 && Inv(s, retries) && !Closed(s.status)
    ensures var (t, r) := EvaluateRecovery(s, q);
            Inv(t, retries) && (r.Ok? && r.value.allowed ==> Authorised(t, r.value, retries))
  {
    hide AnswerGate, RecordsOk, GateOk;
    CloseKeeps(s, s.(gate := None, status := ContractFailure), retries);
    CloseKeeps(s, s.(gate := None, status := Active), retries);
    if s.gate.Some? && q.round == s.gate.value.round && q.patch != "" {
      AnswerGateKeeps(s, q, if q.attempt.Some? then q.attempt.value else s.gate.value.attempts + 1, retries);
    }
  }

  lemma {:induction false} EvaluateKeeps(s: State, q: Request, retries: int)
    requires retries >= 0 && Inv(s, retries) && !Closed(s.status)
    ensures var (t, r) := Evaluate(s, q);
            Inv(t, retries) && (r.Ok? && r.value.allowed ==> Authorised(t, r.value, retries))
  {
    hide EvaluateRecovery, EvaluateQuality;
    EvaluateRecoveryKeeps(s, q, retries);
    EvaluateQualityKeeps(s, q, retries);
  }

  lemma {:induction false} RunGraderKeeps(s: State, o: Outcome, reply: GraderReply, retries: int)
    requires Inv(s, retries) && Authorised(s, o, retries)
    ensures var (t, r) := RunGrader(s, o, reply);
            && r.Ok? && Core(t, retries) && TotalGradings(t.rounds) == TotalGradings(s.rounds) + 1
            && Last(t).gradings == Last(s).gradings + 1
            && (t.status == InfrastructureFailure <==> InfraReply(reply))
  {
    var t := RunGrader(s, o, reply).0;
    RecordsReplaced(s, t, Last(t), retries);
  }

  // ----- What an evaluation does to the history -----------------------------

  ghost predicate AddsRecord(s: State, t: State, q: Request, decision: Decision) {
    && |t.rounds| == |s.rounds| + 1 && t.rounds[..|s.rounds|] == s.rounds
    && Last(t).gradings == 0 && Last(t).passed.None? && Last(t).decision == decision
    && Last(t).patch == q.patch && t.gate.None? && t.lastRound == q.round
  }

  /** An accepted quality submission: one new record, one new gate, or a contract failure without either. */
  ghost predicate QualityMove(s: State, q: Request, t: State, o: Outcome) {
    && (o.allowed <==> o.decision == AllowGrader)
    && (o.decision in {AllowGrader, NoProgress, RetryInfrastructure} ==> AddsRecord(s, t, q, o.decision))
    && (o.decision == RejectContract ==> t.status == ContractFailure
                                         && (t.rounds == s.rounds || AddsRecord(s, t, q, o.decision)))
    && (o.decision == RequireEvidence ==> t.rounds == s.rounds && t.gate.Some?
                                          && t.gate.value.patch == q.patch && t.gate.value.round == q.round)
    && (o.decision == RetryInfrastructure ==> t.status == InfrastructureFailure)
    && !o.recovered
  }

  lemma {:induction false} RecordQualityMoves(s: State, q: Request, covered: set<string>, missing: set<string>,
                                              violations: seq<Violation>, failures: seq<FailureRecord>,
                                              attempt: Option<int>, recovered: bool)
    requires s.gate.None?
    ensures var (t, o) := RecordQuality(s, q, covered, missing, violations, failures, attempt, recovered);
            && AddsRecord(s, t, q, o.decision) && (o.allowed <==> o.decision == AllowGrader)
            && o.decision in {AllowGrader, NoProgress, RejectContract} && o.recovered == recovered
            && (violations == [] ==> o.decision != RejectContract)
            && (o.decision == RejectContract ==> t.status == ContractFailure) && t.identity == s.identity
  {
    var t := RecordQuality(s, q, covered, missing, violations, failures, attempt, recovered).0;
    assert t.rounds == s.rounds + [Last(t)];
  }

  lemma {:induction false} QualityMoves(s: State, q: Request)
    requires s.gate.None? && s.status == Active
    requires Evaluate(s, q).1.Ok?
    ensures var (t, r) := Evaluate(s, q);
            var o := r.value;
            && QualityMove(s, q, t, o)
            && (o.decision != RejectContract ==> t.identity == Some(q.who) && q.who.Complete() && q.patch != ""
                                                 && q.round == s.lastRound + 1)
            && (s.identity.Some? ==> t.identity == s.identity)
  {
    hide Observe, ContractErrors, LacksSemanticTools, RecordQuality;
    if !q.ExplicitRecovery() {
      var t := CheckIdentity(s, q).value;
      var o := Observe(q);
      var failures := if SeparatedChannels(q.failures, q.who.agent) then q.failures else [];
      RecordQualityMoves(t, q, o.covered, o.missing, ContractErrors(q), failures, None, false);
      if o.infra {
        assert Evaluate(s, q).0.rounds[..|s.rounds|] == s.rounds;
      }
    }
  }

  /** What an evaluated recovery may do: record the round, keep the gate, or drop it without a record. */
  ghost predicate RecoveryMove(s: State, q: Request, t: State, o: Outcome) {
    && s.identity == t.identity
    && (o.allowed <==> o.decision == AllowGrader)
    && (o.recovered <==> o.decision in {AllowGrader, NoProgress})
    && (o.recovered ==> AddsRecord(s, t, q, o.decision))
    && (!o.recovered ==> t.rounds == s.rounds && t.lastRound == s.lastRound)
    && (o.decision == RejectContract ==> t.gate.None?)
    && (o.decision == RequireEvidence ==> t.gate == s.gate && t.status == s.status)
    && o.decision in {AllowGrader, NoProgress, RejectContract, RequireEvidence}
  }

  lemma {:induction false} CloseGateMoves(s: State, q: Request, attempt: int, covered: set<string>)
    requires s.gate.Some? && q.round == s.gate.value.round
    ensures var (t, o) := CloseGate(s, q, attempt, covered); RecoveryMove(s, q, t, o)
  {
    hide RecordQuality;
    if s.gate.value.required - covered == {} && SeparatedChannels(q.failures, q.who.agent) {
      var who := if s.identity.Some? then s.identity.value else q.who;
      var note := EvidenceRecord(s.gate.value.round, attempt, who, q.patch, ProductionPaths(q.changes), covered,
                                 s.gate.value.required - covered, true);
      RecordQualityMoves(s.(evidence := s.evidence + [note], gate := None), q, covered, {}, [], q.failures,
                         Some(attempt), true);
    }
  }

  lemma {:induction false} AnswerGateMoves(s: State, q: Request, attempt: int)
    requires s.gate.Some? && q.round == s.gate.value.round
    ensures var (t, o) := AnswerGate(s, q, attempt); RecoveryMove(s, q, t, o)
  {
    hide CloseGate, ObserveReceipts;
    var g := s.gate.value;
    if q.mode == WithLsp && SourceViolation(g, q).None? {
      if q.Canonical() {
        CloseGateMoves(s, q, attempt, g.covered + ObserveReceipts(q).covered);
      } else {
        CloseGateMoves(s, q, attempt, g.covered + Align(DiagnosedPaths(q.trajectory), g.required));
      }
    }
  }

  lemma {:induction false} RecoveryMoves(s: State, q: Request)
    requires s.gate.Some? && q.ExplicitRecovery()
    requires Evaluate(s, q).1.Ok?
    ensures var (t, r) := Evaluate(s, q);
            && RecoveryMove(s, q, t, r.value)
            && s.identity == Some(q.who) && q.who.Complete() && q.patch != ""
            && (r.value.recovered ==> q.round == s.gate.value.round && q.patch == s.gate.value.patch)
  {
    hide AnswerGate;
    if q.round == s.gate.value.round {
      AnswerGateMoves(s, q, if q.attempt.Some? then q.attempt.value else s.gate.value.attempts + 1);
    }
  }

  lemma {:induction false} RetryMoves(s: State, q: Request)
    requires s.gate.None? && s.status == InfrastructureFailure && s.rounds != []
    requires Evaluate(s, q).1.Ok?
    ensures var (t, r) := Evaluate(s, q);
            var o := r.value;
            && (o.allowed ==> s.identity == t.identity == Some(q.who) && q.who.Complete()
                              && q.patch == Last(s).patch && q.round == Last(s).number
                              && o.decision == Last(s).decision && q.patch != ""
                              && t == s.(status := Active,
                                         rounds := s.rounds[|s.rounds| - 1 := Last(s).(allowed := true)]))
            && (!o.allowed ==> t.status == ContractFailure && t.rounds == s.rounds && o.decision == RejectContract)
            && !o.recovered
  {
  }
}
