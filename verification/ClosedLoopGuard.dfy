/**
  The guard object: its methods rewrite the state field step by step, as the source does, and each
  is proved to reach exactly the state and answer of the transition functions in GuardSpec.  What an
  open guard keeps for a caller is its invariant, whatever retry budget the caller works with.
 */
module ClosedLoopGuard {
  import opened Wrappers
  import opened Evidence
  import opened GuardSpec
  import opened RunnerInvariants
  import opened WholeRun

  lemma {:induction false} RecordFor(s: State, t: State, q: Request, covered: set<string>, decision: Decision)
    requires s.identity == t.identity
    ensures NewRecord(s, q, covered, decision) == NewRecord(t, q, covered, decision)
  {
  }

  class Guard {
    var state: State

    /** Numbering, budget, gate, identity and status fit together, with at most `retries` retries per round. */
    ghost predicate Valid(retries: int)
      reads this
    {
      retries >= 0 && Inv(state, retries)
    }

    constructor (noProgressLimit: int)
      ensures state == Empty(noProgressLimit)
      ensures forall retries :: retries >= 0 ==> Valid(retries)
    {
      state := State(
        identity := None, noProgressLimit := noProgressLimit, lastRound := 0, lastPatch := None,
        lastQualityPatch := None, used := 0, streak := 0, status := Active, rounds := [], evidence := [],
        failures := [], gate := None);
      new;
      forall retries | retries >= 0
        ensures Valid(retries)
      {
        EmptyInv(noProgressLimit, retries);
      }
    }

    method ClearPendingEvidence()
      modifies this
      ensures state == old(state).(gate := None)
    {
      state := state.(gate := None);
    }

    method ContractOutcome(round: int, v: Violation, covered: set<string>, missing: set<string>, attempt: Option<int>)
      returns (o: Outcome)
      modifies this
      ensures (state, o) == Contract(old(state), round, v, covered, missing, attempt)
      ensures Closed(state.status) && !o.allowed && state.rounds == old(state).rounds
      ensures forall retries :: old(Valid(retries)) && !Closed(old(state).status) ==> Valid(retries)
    {
      forall retries | Valid(retries) && !Closed(state.status)
        ensures Inv(state.(gate := None, status := ContractFailure), retries)
      {
        CloseKeeps(state, state.(gate := None, status := ContractFailure), retries);
      }
      ClearPendingEvidence();
      state := state.(status := ContractFailure);
      o := Outcome(round, RejectContract, false, false, state.streak, true, covered, missing, [v], attempt, false,
                   None);
    }

    method PatchChangedDuringRecovery(round: int) returns (o: Outcome)
      modifies this
      ensures (state, o) == Reopen(old(state), round)
      ensures !Closed(state.status) && !o.allowed && state.rounds == old(state).rounds
      ensures forall retries :: old(Valid(retries)) && !Closed(old(state).status) ==> Valid(retries)
    {
      forall retries | Valid(retries) && !Closed(state.status)
        ensures Inv(state.(gate := None, status := Active), retries)
      {
        CloseKeeps(state, state.(gate := None, status := Active), retries);
      }
      ClearPendingEvidence();
      state := state.(status := Active);
      o := Outcome(round, RejectContract, false, false, state.streak, false, {}, {}, [PatchChanged], None, false, None);
    }

    method StartEvidenceRecovery(q: Request, covered: set<string>, missing: set<string>) returns (o: Outcome)
      modifies this
      ensures (state, o) == OpenGate(old(state), q, covered, missing)
    {
      if state.gate.Some? {
        o := ContractOutcome(q.round, AlreadyPending, covered, missing, None);
        return;
      }
      var required := RequiredPaths(Effective(q.changes, q.exemptions));
      if required == {} {
        o := ContractOutcome(q.round, NothingRequired, {}, {}, None);
        return;
      }
      var source := if q.Canonical() then ServerReceipts else Trajectory;
      state := state.(gate := Some(
        Gate(q.round, q.patch, ProductionPaths(q.changes), required, covered, 0, source, None, None)));
      if q.Canonical() && !q.HasTask() {
        ClearPendingEvidence();
        o := ContractOutcome(q.round, MissingTask, {}, {}, None);
        return;
      }
      var generation := None;
      if q.Canonical() {
        generation := q.generation;
        if generation.None? || generation.value == "" {
          generation := None;
          if q.receipts.Some? && q.receipts.value.Receipts? {
            generation := q.receipts.value.generation;
          }
        }
      }
      state := state.(gate := Some(state.gate.value.(task := q.task, generation := generation)));
      state := state.(status := EvidenceRecoveryRequired);
      o := Outcome(q.round, RequireEvidence, false, false, state.streak, false, covered, missing, [], Some(0), false,
                   None);
    }

    /** A fresh record of the arm's owner: allowed exactly by its decision, not started, never graded. */
    method MakeRecord(q: Request, covered: set<string>, decision: Decision) returns (record: RoundRecord)
      ensures record == NewRecord(state, q, covered, decision)
    {
      var who := q.who;
      if state.identity.Some? {
        who := state.identity.value;
      }
      return RoundRecord(
        number := q.round, arm := who.arm, session := who.session, thread := who.thread, patch := q.patch,
        production := ProductionPaths(q.changes), covered := covered, decision := decision,
        allowed := decision == AllowGrader, started := false, passed := None, failure := None, noProgress := false,
        streak := 0, violations := [], accepted := false, gradings := 0);
    }

    method RecordQualityRound(q: Request, covered: set<string>, missing: set<string>, violations: seq<Violation>,
                              failures: seq<FailureRecord>, attempt: Option<int>, recovered: bool)
      returns (o: Outcome)
      modifies this
      ensures (state, o) == RecordQuality(old(state), q, covered, missing, violations, failures, attempt, recovered)
    {
      hide ProductionPaths, NewRecord;
      var before := state;
      state := state.(failures := state.failures + failures);
      var noProgress := ProductionPaths(q.changes) == {} || state.lastQualityPatch == Some(q.patch);
      var nextStreak := if noProgress then state.streak + 1 else 0;
      var decision, terminal;
      if violations != [] {
        decision, terminal := RejectContract, true;
        state := state.(status := ContractFailure);
      } else if noProgress {
        decision, terminal := NoProgress, nextStreak >= state.noProgressLimit;
        state := state.(status := if terminal then RelocalizeRequired else Active);
      } else {
        decision, terminal := AllowGrader, false;
        state := state.(status := Active);
      }
      var record := MakeRecord(q, covered, decision);
      RecordFor(before, state, q, covered, decision);
      record := record.(noProgress := noProgress, streak := nextStreak, violations := violations);
      state := state.(rounds := state.rounds + [record], lastRound := q.round, lastPatch := Some(q.patch));
      state := state.(streak := nextStreak, lastQualityPatch := Some(q.patch));
      if decision != AllowGrader {
        state := state.(used := state.used + 1);
      }
      if q.round == MAX_ROUNDS && decision != AllowGrader {
        if !terminal {
          state := state.(status := MaxRoundsReached);
        }
        terminal := true;
      }
      o := Outcome(q.round, decision, decision == AllowGrader, noProgress, nextStreak, terminal,
                   covered, missing, violations, attempt, recovered, None);
    }

    method RecordInfrastructureRound(q: Request, covered: set<string>, missing: set<string>) returns (o: Outcome)
      modifies this
      ensures (state, o) == RecordInfra(old(state), q, covered, missing)
    {
      var record := MakeRecord(q, covered, RetryInfrastructure);
      record := record.(failure := Some(Infrastructure));
      state := state.(rounds := state.rounds + [record]);
      state := state.(lastRound := q.round, lastPatch := Some(q.patch));
      state := state.(status := InfrastructureFailure,
                      failures := state.failures + [FailureRecord(Infrastructure, McpTransport, None)]);
      o := Outcome(q.round, RetryInfrastructure, false, false, state.streak, false, covered, missing, [], None, false,
                   Some(Infrastructure));
    }

    /** A turn whose transport failed, or whose receipts or failure records say so. */
    method TransportFailureDeclared(q: Request) returns (declared: bool)
      ensures declared == q.TransportDeclared()
    {
      if q.transportFailed {
        return true;
      }
      if q.receipts.Some? && q.receipts.value.Receipts? && q.receipts.value.failedStatus {
        return true;
      }
      for i := 0 to |q.failures|
        invariant forall j :: 0 <= j < i ==> q.failures[j].kind != Infrastructure
      {
        if q.failures[i].kind == Infrastructure {
          assert q.failures[i] in q.failures;
          return true;
        }
      }
      return false;
    }

    method ObserveRound(q: Request) returns (o: Observation)
      ensures o == Observe(q)
    {
      hide Align, DiagnosedPaths, RegistryAccepts, RequiredPaths, Effective;
      var registry := ValidateExemptionRegistry(q.changes, q.exemptions, q.round);
      if q.receipts.Some? || q.isolation.Some? {
        o := ObserveCanonical(q);
        return;
      }
      if q.mode == OtherMode {
        return Observation({}, {}, Some(UnsupportedMode), false);
      }
      if registry.Err? {
        return Observation({}, {}, Some(BadRegistry), false);
      }
      var required := RequiredPaths(registry.value);
      var declared := TransportFailureDeclared(q);
      if q.mode == NoLsp {
        var events := McpEvents(q.trajectory);
        if events != [] {
          return Observation({}, {}, Some(McpInNoLsp), false);
        }
        return Observation({}, required, None, declared);
      }
      var unsupported := FindUnsupportedTool(q.trajectory);
      if unsupported {
        return Observation({}, {}, Some(UnsupportedTool), false);
      }
      var diagnosed := CollectDiagnostics(q.trajectory);
      var aligned := AlignDiagnosticsPaths(diagnosed, required);
      return Observation(aligned, required - aligned, None, declared);
    }

    method ObserveCanonical(q: Request) returns (o: Observation)
      ensures o == ObserveReceipts(q)
    {
      hide RegistryAccepts, RequiredPaths, Effective;
      var registry := ValidateExemptionRegistry(q.changes, q.exemptions, q.round);
      if registry.Err? {
        return Observation({}, {}, Some(BadRegistry), false);
      }
      var required := RequiredPaths(registry.value);
      if q.generation == Some("") {
        return Observation({}, required, Some(BadGeneration), false);
      }
      match q.mode {
        case NoLsp => o := ObserveIsolation(q, required);
        case WithLsp => o := ObserveStream(q, required);
        case OtherMode => o := Observation({}, required, Some(UnsupportedMode), false);
      }
    }

    /** No-LSP: a task, no receipts, no MCP event, and accepted isolation evidence. */
    method ObserveIsolation(q: Request, required: set<string>) returns (o: Observation)
      ensures o == ObserveNoLspReceipts(q, required)
    {
      var violation := None;
      var events := McpEvents(q.trajectory);
      if q.task.None? || q.task.value == "" {
        violation := Some(MissingTask);
      } else if q.receipts.Some? && q.receipts.value != NoReceipts {
        violation := Some(ReceiptsInNoLsp);
      } else if events != [] {
        violation := Some(McpInNoLsp);
      } else if q.isolation.None? {
        violation := Some(MissingIsolation);
      } else if !q.isolation.value {
        violation := Some(BadIsolation);
      }
      return Observation({}, if violation.Some? then required else {}, violation, false);
    }

    /** With-LSP: no isolation evidence, and a valid receipt stream whose chain covers only required files. */
    method ObserveStream(q: Request, required: set<string>) returns (o: Observation)
      ensures o == ObserveWithLspReceipts(q, required)
    {
      var declared := TransportFailureDeclared(q);
      if q.isolation.Some? {
        return Observation({}, required, Some(IsolationInWithLsp), false);
      }
      if q.receipts.None? || q.receipts.value == NoReceipts {
        return Observation({}, required, None, declared);
      }
      if q.task.None? || q.task.value == "" {
        return Observation({}, required, Some(MissingTask), false);
      }
      if declared {
        return Observation({}, required, None, true);
      }
      var stream := q.receipts.value;
      if !stream.valid {
        return Observation({}, required, Some(BadReceipts), false);
      }
      match stream.chain {
        case NoDiagnostics =>
          return Observation({}, required, None, false);
        case BrokenChain =>
          return Observation({}, required, Some(BadChain), false);
        case Covers(files) =>
          var extra := files - required;
          assert extra == {} <==> files <= required by {
            assert forall f :: f in files && f !in required ==> f in extra;
          }
          return Observation(files, required - files, if extra == {} then None else Some(ExtraFiles), false);
      }
    }

    method SemanticToolsMissing(q: Request) returns (b: bool)
      ensures b == LacksSemanticTools(q)
    {
      if q.mode != WithLsp {
        return false;
      }
      var registry := ValidateExemptionRegistry(q.changes, q.exemptions, q.round);
      if registry.Err? || RequiredPaths(registry.value) == {} {
        return false;
      }
      var tools := ToolsUsed(q.trajectory);
      return Structure !in tools || Xref !in tools;
    }

    method CompleteRecovery(q: Request, attempt: int, covered: set<string>) returns (o: Outcome)
      requires state.gate.Some?
      modifies this
      ensures (state, o) == CloseGate(old(state), q, attempt, covered)
    {
      var g := state.gate.value;
      var missing := g.required - covered;
      state := state.(gate := Some(g.(attempts := attempt)));
      var who := if state.identity.Some? then state.identity.value else q.who;
      var note := EvidenceRecord(g.round, attempt, who, q.patch, ProductionPaths(q.changes), covered, missing, false);
      if missing != {} {
        state := state.(evidence := state.evidence + [note]);
        o := ContractOutcome(g.round, StillMissing, covered, missing, Some(attempt));
        return;
      }
      var separated := ValidateFailureSeparation(q.failures, q.who.agent);
      if !separated {
        state := state.(evidence := state.evidence + [note]);
        o := ContractOutcome(g.round, MixedFailureChannels, covered, {}, Some(attempt));
        return;
      }
      state := state.(evidence := state.evidence + [note.(succeeded := true)]);
      ClearPendingEvidence();
      o := RecordQualityRound(q, covered, {}, [], q.failures, Some(attempt), true);
    }

    /** The gate's evidence source stays the same, and receipts name the gate's task and their own generation. */
    method CheckSource(q: Request) returns (v: Option<Violation>)
      requires state.gate.Some?
      ensures v == SourceViolation(state.gate.value, q)
    {
      var g := state.gate.value;
      var canonical := q.receipts.Some? || q.isolation.Some?;
      if g.source == ServerReceipts {
        if !canonical && !q.projected {
          return Some(NeedsReceipts);
        }
        if q.task != g.task {
          return Some(TaskChanged);
        }
        if canonical {
          if q.receipts.None? || q.receipts.value == NoReceipts || q.receipts.value.generation.None? {
            return Some(MissingGeneration);
          }
          if q.generation != q.receipts.value.generation {
            return Some(GenerationDrift);
          }
        }
      } else if canonical {
        return Some(SourceSwitched);
      }
      return None;
    }

    method AnswerPendingGate(q: Request, attempt: int) returns (o: Outcome)
      requires state.gate.Some?
      modifies this
      ensures (state, o) == AnswerGate(old(state), q, attempt)
    {
      var g := state.gate.value;
      if q.mode != WithLsp {
        o := ContractOutcome(g.round, ModeNotWithLsp, {}, {}, Some(attempt));
        return;
      }
      var refused := CheckSource(q);
      if refused.Some? {
        o := ContractOutcome(g.round, refused.value, {}, {}, Some(attempt));
        return;
      }
      if q.Canonical() {
        var seen := ObserveCanonical(q);
        if seen.infra {
          state := state.(failures := state.failures + [FailureRecord(Infrastructure, McpTransport, None)]);
          o := Outcome(g.round, RequireEvidence, false, false, state.streak, false, seen.covered, seen.missing, [],
                       Some(g.attempts), false, Some(Infrastructure));
        } else if seen.violation.Some? {
          o := ContractOutcome(g.round, seen.violation.value, seen.covered, seen.missing, Some(attempt));
        } else {
          o := CompleteRecovery(q, attempt, g.covered + seen.covered);
        }
        return;
      }
      var foreign := FindForeignTool(q.trajectory);
      if foreign {
        o := ContractOutcome(g.round, ForeignTool, {}, {}, Some(attempt));
        return;
      }
      var diagnosed := CollectDiagnostics(q.trajectory);
      var now := AlignDiagnosticsPaths(diagnosed, g.required);
      var covered := g.covered + now;
      var gap := SemanticToolsMissing(q);
      if gap {
        o := ContractOutcome(g.round, SemanticGap, covered, g.required - covered, Some(attempt));
      } else {
        o := CompleteRecovery(q, attempt, covered);
      }
    }

    method ValidateIdentity(q: Request) returns (e: Option<GuardError>)
      modifies this
      ensures match CheckIdentity(old(state), q)
              case Ok(s) => e.None? && state == s
              case Err(error) => e == Some(error) && state == old(state)
    {
      var who := q.who;
      if who.arm == "" || who.session == "" || who.thread == "" || who.agent == "" {
        return Some(MissingText);
      }
      if state.identity.None? {
        if q.round != 1 || q.resumes {
          return Some(IdentityError);
        }
        state := state.(identity := Some(who));
        return None;
      }
      var owner := state.identity.value;
      if who.arm != owner.arm {
        return Some(IdentityError);
      }
      if q.round == 1 && !(state.lastRound == 0 && q.resumes) {
        return Some(IdentityError);
      }
      if !q.resumes {
        return Some(IdentityError);
      }
      if who.session != owner.session || who.thread != owner.thread || who.agent != owner.agent {
        return Some(IdentityError);
      }
      return None;
    }

    /** The owner of a recovery or retry is the one the arm was started with. */
    method ValidateRecoveryIdentity(q: Request) returns (e: Option<GuardError>)
      ensures e == CheckOwner(state, q)
    {
      var who := q.who;
      if who.arm == "" || who.session == "" || who.thread == "" || who.agent == "" {
        return Some(MissingText);
      }
      if state.identity.None? {
        return Some(IdentityError);
      }
      var owner := state.identity.value;
      if who.arm != owner.arm || who.session != owner.session || who.thread != owner.thread
        || who.agent != owner.agent {
        return Some(IdentityError);
      }
      return None;
    }

    method IsInfrastructureRetry(q: Request) returns (b: bool)
      ensures b == IsRetry(state, q)
    {
      if state.status != InfrastructureFailure || state.rounds == [] {
        return false;
      }
      var record := state.rounds[|state.rounds| - 1];
      if record.started || record.passed.Some? || q.patch == "" {
        return false;
      }
      return q.round == record.number && q.patch == record.patch;
    }

    method ValidateSequence(q: Request) returns (b: bool)
      ensures b == InSequence(state, q)
    {
      if q.round < 1 || q.round > 3 {
        return false;
      }
      if state.status == InfrastructureFailure {
        b := IsInfrastructureRetry(q);
        return;
      }
      if q.round != state.lastRound + 1 {
        return false;
      }
      return state.status !in {Succeeded, Unverified, ContractFailure, EvidenceRecoveryRequired, RelocalizeRequired,
                               MaxRoundsReached};
    }

    method EvaluateEvidenceRecovery(q: Request) returns (r: Result<Outcome, GuardError>)
      modifies this
      ensures (state, r) == EvaluateRecovery(old(state), q)
    {
      var o;
      if state.gate.None? {
        o := ContractOutcome(q.round, NoPendingGate, {}, {}, None);
        return Ok(o);
      }
      var g := state.gate.value;
      var refused := ValidateRecoveryIdentity(q);
      if refused.Some? {
        if refused.value == IdentityError {
          state := state.(status := ContractFailure);
          ClearPendingEvidence();
        }
        return Err(refused.value);
      }
      if q.patch == "" {
        return Err(MissingText);
      }
      if q.patch != g.patch {
        o := PatchChangedDuringRecovery(g.round);
        return Ok(o);
      }
      if q.round != g.round {
        o := ContractOutcome(g.round, WrongRound, {}, {}, None);
        return Ok(o);
      }
      var attempt := if q.attempt.Some? then q.attempt.value else g.attempts + 1;
      if attempt != g.attempts + 1 || attempt > MAX_EVIDENCE_ATTEMPTS {
        o := ContractOutcome(g.round, AttemptLimit, {}, {}, Some(attempt));
        return Ok(o);
      }
      var registry := ValidateExemptionRegistry(q.changes, q.exemptions, q.round);
      if registry.Err? {
        o := ContractOutcome(g.round, BadRegistry, {}, {}, Some(attempt));
        return Ok(o);
      }
      if ProductionPaths(q.changes) != g.files || RequiredPaths(registry.value) != g.required {
        o := PatchChangedDuringRecovery(g.round);
        return Ok(o);
      }
      o := AnswerPendingGate(q, attempt);
      return Ok(o);
    }

    method RetrySameRound(q: Request) returns (r: Result<Outcome, GuardError>)
      requires IsRetry(state, q) && InSequence(state, q)
      modifies this
      ensures (state, r) == EvaluateQuality(old(state), q)
    {
      var refused := ValidateRecoveryIdentity(q);
      if refused.Some? {
        return Err(refused.value);
      }
      var n := |state.rounds| - 1;
      var record := state.rounds[n];
      state := state.(rounds := state.rounds[n := record.(allowed := true)]);
      state := state.(status := Active);
      return Ok(Outcome(record.number, record.decision, true, record.noProgress, record.streak, false,
                        record.covered, {}, record.violations, None, false, None));
    }

    method EvaluateQualityRound(q: Request) returns (r: Result<Outcome, GuardError>)
      modifies this
      ensures (state, r) == EvaluateQuality(old(state), q)
    {
      var inSequence := ValidateSequence(q);
      if !inSequence {
        return Err(SequenceError);
      }
      var again := IsInfrastructureRetry(q);
      if again {
        r := RetrySameRound(q);
        return;
      }
      var refused := ValidateIdentity(q);
      if refused.Some? {
        return Err(refused.value);
      }
      if q.patch == "" {
        return Err(MissingText);
      }
      var seen := ObserveRound(q);
      var o;
      if seen.infra {
        if state.rounds != [] && state.rounds[|state.rounds| - 1].number == q.round {
          return Err(SequenceError);
        }
        o := RecordInfrastructureRound(q, seen.covered, seen.missing);
        return Ok(o);
      }
      var errors := if seen.violation.Some? then [seen.violation.value] else [];
      var gap := false;
      if !q.Canonical() {
        gap := SemanticToolsMissing(q);
      }
      var failures := q.failures;
      var separated := ValidateFailureSeparation(q.failures, q.who.agent);
      if !separated {
        failures := [];
        errors := errors + [MixedFailureChannels];
      }
      assert errors == ContractErrors(q);
      if q.mode == WithLsp && (seen.missing != {} || gap) && errors == [] {
        o := StartEvidenceRecovery(q, seen.covered, seen.missing);
      } else {
        o := RecordQualityRound(q, seen.covered, seen.missing, errors, failures, None, false);
      }
      return Ok(o);
    }

    method EvaluateRound(q: Request) returns (r: Result<Outcome, GuardError>)
      modifies this
      ensures (state, r) == Evaluate(old(state), q)
      ensures forall retries :: old(Valid(retries)) && !Closed(old(state).status) ==>
                Valid(retries) && (r.Ok? && r.value.allowed ==> Authorised(state, r.value, retries))
    {
      hide EvaluateRecovery, EvaluateQuality, Inv;
      forall retries | Valid(retries) && !Closed(state.status)
        ensures Inv(Evaluate(state, q).0, retries)
        ensures Evaluate(state, q).1.Ok? && Evaluate(state, q).1.value.allowed ==>
                  Authorised(Evaluate(state, q).0, Evaluate(state, q).1.value, retries)
      {
        EvaluateKeeps(state, q, retries);
      }
      var pendingSameRound := state.gate.Some? && q.round == state.gate.value.round && q.action != Start;
      if q.attempt.Some? || q.action == EvidenceRecovery || pendingSameRound {
        r := EvaluateEvidenceRecovery(q);
      } else {
        r := EvaluateQualityRound(q);
      }
    }

    method Grade(o: Outcome, reply: GraderReply) returns (r: Result<GraderOutcome, GuardError>)
      modifies this
      ensures (state, r) == RunGrader(old(state), o, reply)
      ensures forall retries :: old(Valid(retries)) && Authorised(old(state), o, retries) ==>
                r.Ok? && Core(state, retries) && Last(state).gradings == Last(old(state)).gradings + 1
    {
      forall retries | Valid(retries) && Authorised(state, o, retries)
        ensures var (t, result) := RunGrader(state, o, reply);
                result.Ok? && Core(t, retries) && Last(t).gradings == Last(state).gradings + 1
      {
        RunGraderKeeps(state, o, reply, retries);
      }
      hide Core, Inv, Authorised;
      if !o.allowed || o.round != state.lastRound || state.rounds == [] {
        return Err(Blocked);
      }
      var n := |state.rounds| - 1;
      var record := state.rounds[n];
      if record.started {
        return Err(Blocked);
      }
      record := record.(started := true, gradings := record.gradings + 1);
      if InfraReply(reply) {
        record := record.(started := false, failure := Some(Infrastructure), passed := None);
        state := state.(rounds := state.rounds[n := record], status := InfrastructureFailure);
        state := state.(failures := state.failures + [FailureRecord(Infrastructure, GraderInfrastructure, None)]);
        return Ok(GraderOutcome(o.round, true, None, Some(Infrastructure), false, state.status));
      }
      state := state.(used := state.used + 1, lastQualityPatch := Some(record.patch));
      if reply.passed {
        record := record.(accepted := true, failure := None, passed := Some(true));
        state := state.(rounds := state.rounds[n := record], status := Succeeded);
        return Ok(GraderOutcome(o.round, true, Some(true), None, true, state.status));
      }
      record := record.(failure := Some(ModelQuality), passed := Some(false));
      state := state.(rounds := state.rounds[n := record],
                      status := if record.number == MAX_ROUNDS then MaxRoundsReached else Active);
      var target := if state.identity.Some? then Some(state.identity.value.agent) else None;
      state := state.(failures := state.failures + [FailureRecord(ModelQuality, GraderQuality, target)]);
      return Ok(GraderOutcome(o.round, true, Some(false), Some(ModelQuality), false, state.status));
    }

    method CloseUnverified(source: Origin) returns (r: Result<(), GuardError>)
      modifies this
      ensures match MarkUnverified(old(state), source)
              case Ok(s) => r == Ok(()) && state == s
              case Err(e) => r == Err(e) && state == old(state)
      ensures r.Ok? ==> Closed(state.status) && !Closed(old(state).status) && state.rounds == old(state).rounds
      ensures forall retries :: old(Valid(retries)) ==> Valid(retries)
    {
      forall retries | Valid(retries) && MarkUnverified(state, source).Ok?
        ensures Inv(MarkUnverified(state, source).value, retries)
      {
        UnverifiedKeeps(state, source, retries);
      }
      hide Inv;
      if state.status != InfrastructureFailure && state.status != Active {
        return Err(SequenceError);
      }
      state := state.(status := Unverified);
      state := state.(failures := state.failures + [FailureRecord(Infrastructure, source, None)]);
      return Ok(());
    }
  }
}
