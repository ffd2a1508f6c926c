/**
  The durable state of the closed-loop guard and its transitions as functions of a state value
  (scripts/cross_file_closed_loop_guard.py, lines 833-2411).  The class in ClosedLoopGuard.dfy
  performs the same transitions by updating its field and is proved against these functions.
 */
module GuardSpec {
  import opened Wrappers
  import opened Evidence

  const MAX_ROUNDS := 3
  const MAX_EVIDENCE_ATTEMPTS := 1

  // ----- Requests -----------------------------------------------------------

  datatype Identity = Identity(arm: string, session: string, thread: string, agent: string) {
    predicate Complete() {
      arm != "" && session != "" && thread != "" && agent != ""
    }
  }

  datatype Action = Start | Resume | EvidenceRecovery | InfraRecovery | OtherAction

  /** What the receipt validators say about a stream; they are arbitrary here. */
  datatype Chain = NoDiagnostics | BrokenChain | Covers(files: set<string>)
  datatype ReceiptStream =
    | NoReceipts
    | Receipts(failedStatus: bool, valid: bool, chain: Chain, generation: Option<string>)

  datatype Request = Request(
    round: int,
    who: Identity,
    patch: string,
    changes: seq<FileChange>,
    trajectory: seq<TraceEvent>,
    projected: bool,               // the trajectory is an executor-attested MCP projection
    mode: Mode,
    action: Action,
    resumes: bool,
    exemptions: seq<Exemption>,
    failures: seq<FailureRecord>,
    attempt: Option<int>,
    receipts: Option<ReceiptStream>,
    isolation: Option<bool>,       // isolation evidence, and whether its validator accepts it
    task: Option<string>,
    generation: Option<string>,
    transportFailed: bool
  ) {
    predicate ExplicitRecovery() {
      attempt.Some? || action == EvidenceRecovery
    }
    predicate Canonical() {
      receipts.Some? || isolation.Some?
    }
    function Stream(): ReceiptStream {
      if receipts.Some? then receipts.value else NoReceipts
    }
    predicate TransportDeclared() {
      || transportFailed
      || (Stream().Receipts? && Stream().failedStatus)
      || exists f :: f in failures && f.kind == Infrastructure
    }
    function StreamGeneration(): Option<string> {
      if Stream().Receipts? then Stream().generation else None
    }
    function OpeningGeneration(): Option<string> {
      if generation.Some? && generation.value != "" then generation else StreamGeneration()
    }
    predicate HasTask() {
      task.Some? && task.value != ""
    }
  }

  // ----- State --------------------------------------------------------------

  datatype Status =
    | Active | Succeeded | Unverified | EvidenceRecoveryRequired
    | RelocalizeRequired | ContractFailure | MaxRoundsReached | InfrastructureFailure

  datatype Decision = AllowGrader | RequireEvidence | NoProgress | RejectContract | RetryInfrastructure

  /** Why a round broke the contract; stands for the text of the error. */
  datatype Violation =
    | BadRegistry | UnsupportedMode | McpInNoLsp | UnsupportedTool
    | BadGeneration | MissingTask | ReceiptsInNoLsp | MissingIsolation | BadIsolation
    | IsolationInWithLsp | BadReceipts | BadChain | ExtraFiles | MixedFailureChannels
    | NoPendingGate | PatchChanged | WrongRound | AttemptLimit | ModeNotWithLsp
    | NeedsReceipts | TaskChanged | MissingGeneration | GenerationDrift | SourceSwitched
    | ForeignTool | SemanticGap | StillMissing | AlreadyPending | NothingRequired

  datatype RoundRecord = RoundRecord(
    number: int,
    arm: string, session: string, thread: string,
    patch: string,
    production: set<string>,
    covered: set<string>,
    decision: Decision,
    allowed: bool,
    started: bool,
    passed: Option<bool>,
    failure: Option<FailureKind>,
    noProgress: bool,
    streak: int,
    violations: seq<Violation>,
    accepted: bool,
    gradings: int                  // infra_attempts in the source: guard gradings of this round
  )

  datatype EvidenceRecord = EvidenceRecord(
    round: int, attempt: int, who: Identity, patch: string,
    production: set<string>, covered: set<string>, missing: set<string>, succeeded: bool)

  datatype Source = Trajectory | ServerReceipts

  /** A pending evidence gate: the nine pending_evidence fields, which are set and cleared together. */
  datatype Gate = Gate(
    round: int, patch: string, files: set<string>, required: set<string>, covered: set<string>,
    attempts: int, source: Source, task: Option<string>, generation: Option<string>)

  datatype State = State(
    identity: Option<Identity>,
    noProgressLimit: int,
    lastRound: int,
    lastPatch: Option<string>,
    lastQualityPatch: Option<string>,
    used: int,
    streak: int,
    status: Status,
    rounds: seq<RoundRecord>,
    evidence: seq<EvidenceRecord>,
    failures: seq<FailureRecord>,
    gate: Option<Gate>)

  function Empty(noProgressLimit: int): State {
    State(None, noProgressLimit, 0, None, None, 0, 0, Active, [], [], [], None)
  }

  predicate Closed(status: Status) {
    status in {Succeeded, Unverified, ContractFailure, RelocalizeRequired, MaxRoundsReached}
  }

  datatype Outcome = Outcome(
    round: int, decision: Decision, allowed: bool, noProgress: bool, streak: int, terminal: bool,
    covered: set<string>, missing: set<string>, violations: seq<Violation>,
    attempt: Option<int>, recovered: bool, failure: Option<FailureKind>)

  datatype GuardError = MissingText | IdentityError | SequenceError | Blocked

  // ----- Coverage observation -----------------------------------------------

  datatype Observation = Observation(
    covered: set<string>, missing: set<string>, violation: Option<Violation>, infra: bool)

  ghost function ObserveTrajectory(q: Request): Observation {
    if q.mode == OtherMode then Observation({}, {}, Some(UnsupportedMode), false)
    else if !RegistryAccepts(q.changes, q.exemptions, q.round) then Observation({}, {}, Some(BadRegistry), false)
    else
      var required := RequiredPaths(Effective(q.changes, q.exemptions));
      if q.mode == NoLsp then
        if HasMcp(q.trajectory) then Observation({}, {}, Some(McpInNoLsp), false)
        else Observation({}, required, None, false)
      else if HasUnsupportedTool(q.trajectory) then Observation({}, {}, Some(UnsupportedTool), false)
      else
        var aligned := Align(DiagnosedPaths(q.trajectory), required);
        Observation(aligned, required - aligned, None, false)
  }

  function ObserveNoLspReceipts(q: Request, required: set<string>): Observation {
    if !q.HasTask() then Observation({}, required, Some(MissingTask), false)
    else if q.Stream().Receipts? then Observation({}, required, Some(ReceiptsInNoLsp), false)
    else if HasMcp(q.trajectory) then Observation({}, required, Some(McpInNoLsp), false)
    else if q.isolation.None? then Observation({}, required, Some(MissingIsolation), false)
    else if !q.isolation.value then Observation({}, required, Some(BadIsolation), false)
    else Observation({}, {}, None, false)
  }

  function ObserveWithLspReceipts(q: Request, required: set<string>): Observation {
    if q.isolation.Some? then Observation({}, required, Some(IsolationInWithLsp), false)
    else if q.Stream().NoReceipts? then Observation({}, required, None, q.TransportDeclared())
    else if !q.HasTask() then Observation({}, required, Some(MissingTask), false)
    else if q.TransportDeclared() then Observation({}, required, None, true)
    else if !q.Stream().valid then Observation({}, required, Some(BadReceipts), false)
    else match q.Stream().chain
      case NoDiagnostics => Observation({}, required, None, false)
      case BrokenChain => Observation({}, required, Some(BadChain), false)
      case Covers(files) =>
        Observation(files, required - files, if files <= required then None else Some(ExtraFiles), false)
  }

  ghost function ObserveReceipts(q: Request): Observation {
    if !RegistryAccepts(q.changes, q.exemptions, q.round) then Observation({}, {}, Some(BadRegistry), false)
    else
      var required := RequiredPaths(Effective(q.changes, q.exemptions));
      if q.generation == Some("") then Observation({}, required, Some(BadGeneration), false)
      else match q.mode
        case NoLsp => ObserveNoLspReceipts(q, required)
        case WithLsp => ObserveWithLspReceipts(q, required)
        case OtherMode => Observation({}, required, Some(UnsupportedMode), false)
  }

  /** With-LSP production changes also need an observed structure and an observed xref call. */
  ghost predicate LacksSemanticTools(q: Request) {
    && q.mode == WithLsp
    && RegistryAccepts(q.changes, q.exemptions, q.round)
    && RequiredPaths(Effective(q.changes, q.exemptions)) != {}
    && !(Used(q.trajectory, Structure) && Used(q.trajectory, Xref))
  }

  ghost function Observe(q: Request): Observation {
    if q.Canonical() then ObserveReceipts(q)
    else
      var o := ObserveTrajectory(q);
      o.(infra := q.TransportDeclared() && o.violation.None?)
  }

  ghost function ContractErrors(q: Request): seq<Violation> {
    var o := Observe(q);
    (if o.violation.Some? then [o.violation.value] else [])
    + (if SeparatedChannels(q.failures, q.who.agent) then [] else [MixedFailureChannels])
  }

  // ----- Identity and sequence ----------------------------------------------

  function CheckIdentity(s: State, q: Request): Result<State, GuardError> {
    if !q.who.Complete() then Err(MissingText)
    else if s.identity.None? then
      if q.round != 1 || q.resumes then Err(IdentityError) else Ok(s.(identity := Some(q.who)))
    else if q.who != s.identity.value || !q.resumes || (q.round == 1 && s.lastRound != 0) then Err(IdentityError)
    else Ok(s)
  }

  function CheckOwner(s: State, q: Request): Option<GuardError> {
    if !q.who.Complete() then Some(MissingText)
    else if s.identity != Some(q.who) then Some(IdentityError)
    else None
  }

  predicate IsRetry(s: State, q: Request) {
    && s.status == InfrastructureFailure
    && s.rounds != []
    && var last := s.rounds[|s.rounds| - 1];
       !last.started && last.passed.None? && q.patch != "" && q.round == last.number && q.patch == last.patch
  }

  predicate InSequence(s: State, q: Request) {
    && 1 <= q.round <= MAX_ROUNDS
    && if s.status == InfrastructureFailure then IsRetry(s, q)
       else q.round == s.lastRound + 1 && !Closed(s.status) && s.status != EvidenceRecoveryRequired
  }

  // ----- Transitions --------------------------------------------------------

  /** The terminal recovery failure: no record, gate cleared, grader not authorised. */
  function Contract(s: State, round: int, v: Violation, covered: set<string>, missing: set<string>,
                    attempt: Option<int>): (State, Outcome)
  {
    (s.(gate := None, status := ContractFailure),
     Outcome(round, RejectContract, false, false, s.streak, true, covered, missing, [v], attempt, false, None))
  }

  /** A recovery whose patch or scope moved closes only the gate. */
  function Reopen(s: State, round: int): (State, Outcome) {
    (s.(gate := None, status := Active),
     Outcome(round, RejectContract, false, false, s.streak, false, {}, {}, [PatchChanged], None, false, None))
  }

  function NewRecord(s: State, q: Request, covered: set<string>, decision: Decision): RoundRecord {
    var who := if s.identity.Some? then s.identity.value else q.who;
    RoundRecord(q.round, who.arm, who.session, who.thread, q.patch, ProductionPaths(q.changes), covered,
                decision, decision == AllowGrader, false, None, None, false, 0, [], false, 0)
  }

  function QualityDecision(s: State, q: Request, violations: seq<Violation>): Decision {
    if violations != [] then RejectContract
    else if ProductionPaths(q.changes) == {} || s.lastQualityPatch == Some(q.patch) then NoProgress
    else AllowGrader
  }

  function RecordQuality(s: State, q: Request, covered: set<string>, missing: set<string>,
                         violations: seq<Violation>, failures: seq<FailureRecord>,
                         attempt: Option<int>, recovered: bool): (State, Outcome)
  {
    var noProgress := ProductionPaths(q.changes) == {} || s.lastQualityPatch == Some(q.patch);
    var streak := if noProgress then s.streak + 1 else 0;
    var decision := QualityDecision(s, q, violations);
    var stuck := decision == NoProgress && streak >= s.noProgressLimit;
    var atEnd := q.round == MAX_ROUNDS && decision != AllowGrader;
    var status :=
      if decision == RejectContract then ContractFailure
      else if stuck then RelocalizeRequired
      else if atEnd then MaxRoundsReached
      else Active;
    var record := NewRecord(s, q, covered, decision).(noProgress := noProgress, streak := streak,
                                                      violations := violations);
    (s.(rounds := s.rounds + [record], lastRound := q.round, lastPatch := Some(q.patch),
        lastQualityPatch := Some(q.patch), streak := streak, status := status,
        used := if decision == AllowGrader then s.used else s.used + 1,
        failures := s.failures + failures),
     Outcome(q.round, decision, decision == AllowGrader, noProgress, streak,
             decision == RejectContract || stuck || atEnd,
             covered, missing, violations, attempt, recovered, None))
  }

  const TransportFailure := FailureRecord(Infrastructure, McpTransport, None)
  const GraderFailure := FailureRecord(Infrastructure, GraderInfrastructure, None)

  /** A transport failure before grading opens a retryable slot and leaves budget and streak alone. */
  function RecordInfra(s: State, q: Request, covered: set<string>, missing: set<string>): (State, Outcome) {
    var record := NewRecord(s, q, covered, RetryInfrastructure).(failure := Some(Infrastructure));
    (s.(rounds := s.rounds + [record], lastRound := q.round, lastPatch := Some(q.patch),
        status := InfrastructureFailure, failures := s.failures + [TransportFailure]),
     Outcome(q.round, RetryInfrastructure, false, false, s.streak, false, covered, missing, [], None, false,
             Some(Infrastructure)))
  }

  ghost function OpenGate(s: State, q: Request, covered: set<string>, missing: set<string>): (State, Outcome) {
    var required := RequiredPaths(Effective(q.changes, q.exemptions));
    if s.gate.Some? then Contract(s, q.round, AlreadyPending, covered, missing, None)
    else if required == {} then Contract(s, q.round, NothingRequired, {}, {}, None)
    else if q.Canonical() && !q.HasTask() then Contract(s, q.round, MissingTask, {}, {}, None)
    else
      var gate := Gate(q.round, q.patch, ProductionPaths(q.changes), required, covered, 0,
                       if q.Canonical() then ServerReceipts else Trajectory,
                       q.task,
                       if q.Canonical() then q.OpeningGeneration() else None);
      (s.(gate := Some(gate), status := EvidenceRecoveryRequired),
       Outcome(q.round, RequireEvidence, false, false, s.streak, false, covered, missing, [], Some(0), false, None))
  }

  ghost function EvaluateQuality(s: State, q: Request): (State, Result<Outcome, GuardError>)
  {
    if !InSequence(s, q) then (s, Err(SequenceError))
    else if IsRetry(s, q) then
      if CheckOwner(s, q).Some? then (s, Err(CheckOwner(s, q).value))
      else
        var last := s.rounds[|s.rounds| - 1];
        (s.(rounds := s.rounds[|s.rounds| - 1 := last.(allowed := true)], status := Active),
         Ok(Outcome(last.number, last.decision, true, last.noProgress, last.streak, false,
                    last.covered, {}, last.violations, None, false, None)))
    else match CheckIdentity(s, q)
      case Err(e) => (s, Err(e))
      case Ok(s) =>
        if q.patch == "" then (s, Err(MissingText))
        else
          var o := Observe(q);
          var errors := ContractErrors(q);
          if o.infra && s.rounds != [] && s.rounds[|s.rounds| - 1].number == q.round then (s, Err(SequenceError))
          else var r :=
            if o.infra then RecordInfra(s, q, o.covered, o.missing)
            else if q.mode == WithLsp && errors == []
                    && (o.missing != {} || (!q.Canonical() && LacksSemanticTools(q))) then
              OpenGate(s, q, o.covered, o.missing)
            else
              RecordQuality(s, q, o.covered, o.missing, errors,
                            if SeparatedChannels(q.failures, q.who.agent) then q.failures else [], None, false);
          (r.0, Ok(r.1))
  }

  /** Whether the evidence source of a recovery may answer the gate; None if it may. */
  function SourceViolation(g: Gate, q: Request): Option<Violation> {
    if g.source == Trajectory then
      if q.Canonical() then Some(SourceSwitched) else None
    else if !q.Canonical() && !q.projected then Some(NeedsReceipts)
    else if q.task != g.task then Some(TaskChanged)
    else if !q.Canonical() then None
    else if q.StreamGeneration().None? then Some(MissingGeneration)
    else if q.generation != q.StreamGeneration() then Some(GenerationDrift)
    else None
  }

  /** The checks of a recovery up to its evidence. */
  ghost function RecoveryViolation(g: Gate, q: Request, attempt: int): Option<Violation> {
    if q.round != g.round then Some(WrongRound)
    else if attempt != g.attempts + 1 || attempt > MAX_EVIDENCE_ATTEMPTS then Some(AttemptLimit)
    else if !RegistryAccepts(q.changes, q.exemptions, q.round) then Some(BadRegistry)
    else None
  }

  predicate SameScope(g: Gate, q: Request) {
    && ProductionPaths(q.changes) == g.files
    && RequiredPaths(Effective(q.changes, q.exemptions)) == g.required
  }

  ghost function CloseGate(s: State, q: Request, attempt: int, covered: set<string>): (State, Outcome)
    requires s.gate.Some?
  {
    var g := s.gate.value;
    var missing := g.required - covered;
    var who := if s.identity.Some? then s.identity.value else q.who;
    var note := EvidenceRecord(g.round, attempt, who, q.patch, ProductionPaths(q.changes), covered, missing, false);
    if missing != {} then
      Contract(s.(evidence := s.evidence + [note]), g.round, StillMissing, covered, missing, Some(attempt))
    else if !SeparatedChannels(q.failures, q.who.agent) then
      Contract(s.(evidence := s.evidence + [note]), g.round, MixedFailureChannels, covered, {}, Some(attempt))
    else
      RecordQuality(s.(evidence := s.evidence + [note.(succeeded := true)], gate := None), q, covered, {}, [],
                    q.failures, Some(attempt), true)
  }

  ghost function AnswerGate(s: State, q: Request, attempt: int): (State, Outcome)
    requires s.gate.Some?
  {
    var g := s.gate.value;
    if q.mode != WithLsp then Contract(s, g.round, ModeNotWithLsp, {}, {}, Some(attempt))
    else if SourceViolation(g, q).Some? then Contract(s, g.round, SourceViolation(g, q).value, {}, {}, Some(attempt))
    else if q.Canonical() then
      var o := ObserveReceipts(q);
      if o.infra then
        (s.(failures := s.failures + [TransportFailure]),
         Outcome(g.round, RequireEvidence, false, false, s.streak, false, o.covered, o.missing, [],
                 Some(g.attempts), false, Some(Infrastructure)))
      else if o.violation.Some? then Contract(s, g.round, o.violation.value, o.covered, o.missing, Some(attempt))
      else CloseGate(s, q, attempt, g.covered + o.covered)
    else if HasForeignTool(q.trajectory) then Contract(s, g.round, ForeignTool, {}, {}, Some(attempt))
    else
      var covered := g.covered + Align(DiagnosedPaths(q.trajectory), g.required);
      if LacksSemanticTools(q) then Contract(s, g.round, SemanticGap, covered, g.required - covered, Some(attempt))
      else CloseGate(s, q, attempt, covered)
  }

  ghost function EvaluateRecovery(s: State, q: Request): (State, Result<Outcome, GuardError>) {
    if s.gate.None? then
      var r := Contract(s, q.round, NoPendingGate, {}, {}, None);
      (r.0, Ok(r.1))
    else
      var g := s.gate.value;
      var attempt := if q.attempt.Some? then q.attempt.value else g.attempts + 1;
      match CheckOwner(s, q)
      case Some(IdentityError) => (s.(gate := None, status := ContractFailure), Err(IdentityError))
      case Some(e) => (s, Err(e))
      case None =>
        if q.patch == "" then (s, Err(MissingText))
        else
          var r :=
            if q.patch != g.patch then Reopen(s, g.round)
            else if RecoveryViolation(g, q, attempt).Some? then
              Contract(s, g.round, RecoveryViolation(g, q, attempt).value, {}, {},
                       if q.round != g.round then None else Some(attempt))
            else if !SameScope(g, q) then Reopen(s, g.round)
            else AnswerGate(s, q, attempt);
          (r.0, Ok(r.1))
  }

  /** Gate one quality round, one evidence recovery or one same-round retry. */
  ghost function Evaluate(s: State, q: Request): (State, Result<Outcome, GuardError>) {
    if q.ExplicitRecovery() || (s.gate.Some? && q.round == s.gate.value.round && q.action != Start)
    then EvaluateRecovery(s, q)
    else EvaluateQuality(s, q)
  }

  // ----- Grading ------------------------------------------------------------

  datatype GraderReply = Throws | Malformed | Verdict(passed: bool, kind: Option<FailureKind>)

  datatype GraderOutcome = GraderOutcome(
    round: int, started: bool, passed: Option<bool>, failure: Option<FailureKind>, accepted: bool, status: Status)

  predicate InfraReply(r: GraderReply) {
    !r.Verdict? || r.kind == Some(Infrastructure)
  }

  function RunGrader(s: State, o: Outcome, r: GraderReply): (State, Result<GraderOutcome, GuardError>) {
    if !o.allowed || o.round != s.lastRound || s.rounds == [] || s.rounds[|s.rounds| - 1].started then (s, Err(Blocked))
    else
      var n := |s.rounds| - 1;
      var last := s.rounds[n].(gradings := s.rounds[n].gradings + 1);
      if InfraReply(r) then
        (s.(rounds := s.rounds[n := last.(started := false, passed := None, failure := Some(Infrastructure))],
            status := InfrastructureFailure, failures := s.failures + [GraderFailure]),
         Ok(GraderOutcome(o.round, true, None, Some(Infrastructure), false, InfrastructureFailure)))
      else if r.passed then
        (s.(rounds := s.rounds[n := last.(started := true, passed := Some(true), failure := None, accepted := true)],
            status := Succeeded, used := s.used + 1, lastQualityPatch := Some(last.patch)),
         Ok(GraderOutcome(o.round, true, Some(true), None, true, Succeeded)))
      else
        var status := if last.number == MAX_ROUNDS then MaxRoundsReached else Active;
        var target := if s.identity.Some? then Some(s.identity.value.agent) else None;
        (s.(rounds := s.rounds[n := last.(started := true, passed := Some(false), failure := Some(ModelQuality))],
            status := status, used := s.used + 1, lastQualityPatch := Some(last.patch),
            failures := s.failures + [FailureRecord(ModelQuality, GraderQuality, target)]),
         Ok(GraderOutcome(o.round, true, Some(false), Some(ModelQuality), false, status)))
  }

  function MarkUnverified(s: State, source: Origin): Result<State, GuardError> {
    if s.status != Active && s.status != InfrastructureFailure then Err(SequenceError)
    else Ok(s.(status := Unverified, failures := s.failures + [FailureRecord(Infrastructure, source, None)]))
  }
}
