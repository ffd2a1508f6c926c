/**
  The durable document of the guard and its decoder (scripts/cross_file_closed_loop_guard.py,
  lines 1171-1325): which states of a run survive being saved and loaded.
 */
module Persistence {
  import opened Wrappers
  import opened Evidence
  import opened GuardSpec
  import opened RunnerSpec
  import opened RunnerInvariants
  import opened WholeRun

  const SCHEMA_VERSION := 2

  /** The saved object: the pending gate is nine separate fields, the status a text. */
  datatype Document = Document(
    schema: int,
    identity: Option<Identity>,
    maxRounds: int,
    noProgressLimit: int,
    lastRound: int,
    lastPatch: Option<string>,
    lastQualityPatch: Option<string>,
    used: int,
    streak: int,
    status: string,
    rounds: seq<RoundRecord>,
    evidence: seq<EvidenceRecord>,
    failures: seq<FailureRecord>,
    pendingRound: Option<int>,
    pendingPatch: Option<string>,
    pendingFiles: set<string>,
    pendingRequired: set<string>,
    pendingCovered: set<string>,
    pendingAttempts: int,
    pendingSource: Option<Source>,
    pendingTask: Option<string>,
    pendingGeneration: Option<string>)

  datatype DecodeError =
    | WrongSchema | BadEvidence | BadConfiguration | BadCounters | OrphanedGate | BadGate | BadSource
    | HistoryMismatch | UnknownStatus | MissingIdentity | NotSequential | PatchMismatch | NotRetryable

  function StatusText(s: Status): string {
    match s
    case Active => "active"
    case Succeeded => "succeeded"
    case Unverified => "unverified"
    case EvidenceRecoveryRequired => "evidence_recovery_required"
    case RelocalizeRequired => "relocalize_required"
    case ContractFailure => "contract_failure"
    case MaxRoundsReached => "max_rounds_reached"
    case InfrastructureFailure => "infrastructure_failure"
  }

  function ParseStatus(text: string): Option<Status> {
    if text == StatusText(Active) then Some(Active)
    else if text == StatusText(Succeeded) then Some(Succeeded)
    else if text == StatusText(Unverified) then Some(Unverified)
    else if text == StatusText(EvidenceRecoveryRequired) then Some(EvidenceRecoveryRequired)
    else if text == StatusText(RelocalizeRequired) then Some(RelocalizeRequired)
    else if text == StatusText(ContractFailure) then Some(ContractFailure)
    else if text == StatusText(MaxRoundsReached) then Some(MaxRoundsReached)
    else if text == StatusText(InfrastructureFailure) then Some(InfrastructureFailure)
    else None
  }

  lemma {:induction false} StatusRoundTrip(s: Status)
    ensures ParseStatus(StatusText(s)) == Some(s)
  {
    assert StatusText(Active)[0] == 'a' && StatusText(Succeeded)[0] == 's' && StatusText(Unverified)[0] == 'u';
    assert StatusText(EvidenceRecoveryRequired)[0] == 'e' && StatusText(RelocalizeRequired)[0] == 'r';
    assert StatusText(ContractFailure)[0] == 'c' && StatusText(MaxRoundsReached)[0] == 'm';
    assert StatusText(InfrastructureFailure)[0] == 'i';
  }

  function Encode(s: State): Document {
    var g := s.gate;
    Document(
      SCHEMA_VERSION, s.identity, MAX_ROUNDS, s.noProgressLimit, s.lastRound, s.lastPatch, s.lastQualityPatch,
      s.used, s.streak, StatusText(s.status), s.rounds, s.evidence, s.failures,
      if g.Some? then Some(g.value.round) else None,
      if g.Some? then Some(g.value.patch) else None,
      if g.Some? then g.value.files else {},
      if g.Some? then g.value.required else {},
      if g.Some? then g.value.covered else {},
      if g.Some? then g.value.attempts else 0,
      if g.Some? then Some(g.value.source) else None,
      if g.Some? then g.value.task else None,
      if g.Some? then g.value.generation else None)
  }

  /** Python truth of an optional text: present and not empty. */
  predicate Given(text: Option<string>) {
    text.Some? && text.value != ""
  }

  predicate Identified(d: Document) {
    d.identity.Some? && d.identity.value.Complete()
  }

  /** The checks a state makes of itself when it is built. */
  function FieldError(d: Document, source: Option<Source>): Option<DecodeError> {
    if d.maxRounds != MAX_ROUNDS || d.noProgressLimit < 1 then Some(BadConfiguration)
    else if !(0 <= d.lastRound <= d.maxRounds) || !(0 <= d.used <= d.lastRound)
            || !(0 <= d.pendingAttempts <= MAX_EVIDENCE_ATTEMPTS) then Some(BadCounters)
    else if d.pendingRound.None? then
      if Given(d.pendingPatch) || d.pendingFiles != {} || d.pendingRequired != {} || d.pendingCovered != {}
         || d.pendingAttempts != 0 || source.Some? || Given(d.pendingTask) || Given(d.pendingGeneration)
      then Some(OrphanedGate) else None
    else if d.pendingRound.value != d.lastRound + 1 || !Identified(d) || !Given(d.pendingPatch)
            || d.pendingFiles == {} || d.pendingRequired == {}
            || d.status != StatusText(EvidenceRecoveryRequired) then Some(BadGate)
    else if source.None? then Some(BadSource)
    else if source.value == ServerReceipts then
      if !Given(d.pendingTask) then Some(BadSource) else None
    else if Given(d.pendingTask) || Given(d.pendingGeneration) then Some(BadSource)
    else None
  }

  /** The checks of the history against the counters. */
  function HistoryError(d: Document): Option<DecodeError> {
    if |d.rounds| != d.lastRound then Some(HistoryMismatch)
    else if ParseStatus(d.status).None? then Some(UnknownStatus)
    else if d.lastRound != 0 && !Identified(d) then Some(MissingIdentity)
    else if exists i :: 0 <= i < |d.rounds| && d.rounds[i].number != i + 1 then Some(NotSequential)
    else if d.lastRound != 0 && d.lastPatch != Some(d.rounds[|d.rounds| - 1].patch) then Some(PatchMismatch)
    else if d.lastRound != 0 && d.lastQualityPatch.None? && d.used != 0 then Some(PatchMismatch)
    else if ParseStatus(d.status) == Some(InfrastructureFailure)
            && (d.rounds == [] || d.rounds[|d.rounds| - 1].started) then Some(NotRetryable)
    else None
  }

  function Decode(d: Document): Result<State, DecodeError> {
    var source := if d.pendingRound.None? then None
                  else if d.pendingSource.Some? then d.pendingSource else Some(Trajectory);
    if d.schema != SCHEMA_VERSION then Err(WrongSchema)
    else if exists e :: e in d.evidence && !(e.who.Complete() && e.patch != "") then Err(BadEvidence)
    else if FieldError(d, source).Some? then Err(FieldError(d, source).value)
    else if HistoryError(d).Some? then Err(HistoryError(d).value)
    else if ParseStatus(d.status).None? then Err(UnknownStatus)
    else
      Ok(State(d.identity, d.noProgressLimit, d.lastRound, d.lastPatch, d.lastQualityPatch, d.used, d.streak,
               ParseStatus(d.status).value, d.rounds, d.evidence, d.failures,
               if d.pendingRound.None? then None
               else Some(Gate(d.pendingRound.value, if d.pendingPatch.Some? then d.pendingPatch.value else "",
                              d.pendingFiles, d.pendingRequired, d.pendingCovered, d.pendingAttempts,
                              if source.Some? then source.value else Trajectory, d.pendingTask, d.pendingGeneration))))
  }

  // ----- Which documents load -----------------------------------------------

  /** The gate fields are all absent, or all there and in step with the rest. */
  ghost predicate GateFieldsOk(d: Document) {
    if d.pendingRound.None? then
      && !Given(d.pendingPatch) && d.pendingFiles == {} && d.pendingRequired == {} && d.pendingCovered == {}
      && d.pendingAttempts == 0 && !Given(d.pendingTask) && !Given(d.pendingGeneration)
    else
      && d.pendingRound == Some(d.lastRound + 1) && d.status == "evidence_recovery_required"
      && d.identity.Some? && d.identity.value.Complete()
      && Given(d.pendingPatch) && d.pendingFiles != {} && d.pendingRequired != {}
      && (if d.pendingSource == Some(ServerReceipts) then Given(d.pendingTask)
          else !Given(d.pendingTask) && !Given(d.pendingGeneration))
  }

  /** The history agrees with the counters, the patches, the identity and the status. */
  ghost predicate HistoryFits(d: Document) {
    && |d.rounds| == d.lastRound && (forall i :: 0 <= i < |d.rounds| ==> d.rounds[i].number == i + 1)
    && (d.rounds != [] ==>
          && d.identity.Some? && d.identity.value.Complete()
          && d.lastPatch == Some(d.rounds[|d.rounds| - 1].patch)
          && (d.used > 0 ==> d.lastQualityPatch.Some?))
    && (d.status == "infrastructure_failure" ==> d.rounds != [] && !d.rounds[|d.rounds| - 1].started)
  }

  /** A document that loads, said without the order of the checks. */
  ghost predicate Loadable(d: Document) {
    && d.schema == 2 && d.maxRounds == 3 && d.noProgressLimit >= 1
    && 0 <= d.used <= d.lastRound <= 3 && 0 <= d.pendingAttempts <= 1
    && (forall e :: e in d.evidence ==> e.who.Complete() && e.patch != "")
    && GateFieldsOk(d) && HistoryFits(d)
    && d.status in {"active", "succeeded", "unverified", "evidence_recovery_required", "relocalize_required",
                    "contract_failure", "max_rounds_reached", "infrastructure_failure"}
  }

  /** The document without empty texts and with the default source of an old gate filled in. */
  function Resaved(d: Document): Document {
    if d.pendingRound.None?
    then d.(pendingPatch := None, pendingSource := None, pendingTask := None, pendingGeneration := None)
    else d.(pendingSource := if d.pendingSource.Some? then d.pendingSource else Some(Trajectory))
  }

  lemma {:induction false} StatusLoads(text: string)
    ensures ParseStatus(text).Some? <==>
              text in {"active", "succeeded", "unverified", "evidence_recovery_required", "relocalize_required",
                       "contract_failure", "max_rounds_reached", "infrastructure_failure"}
    ensures ParseStatus(text).Some? ==> StatusText(ParseStatus(text).value) == text
  {
  }

  lemma {:induction false} FieldsExact(d: Document)
    ensures var source := if d.pendingRound.None? then None
                          else if d.pendingSource.Some? then d.pendingSource else Some(Trajectory);
            FieldError(d, source).None? <==>
              && d.maxRounds == 3 && d.noProgressLimit >= 1
              && 0 <= d.used <= d.lastRound <= 3 && 0 <= d.pendingAttempts <= 1 && GateFieldsOk(d)
  {
    hide ParseStatus;
  }

  lemma {:induction false} HistoryExact(d: Document)
    requires 0 <= d.used <= d.lastRound
    ensures HistoryError(d).None? <==> HistoryFits(d) && ParseStatus(d.status).Some?
  {
    StatusLoads(d.status);
    hide ParseStatus;
    assert "infrastructure_failure" == StatusText(InfrastructureFailure);
    StatusRoundTrip(InfrastructureFailure);
  }

  /** The decoder loads exactly the consistent documents, and saving what it loaded gives the document back. */
  lemma {:induction false} DecodeExact(d: Document)
    ensures Decode(d).Ok? <==> Loadable(d)
    ensures Decode(d).Ok? ==> Encode(Decode(d).value) == Resaved(d)
  {
    hide FieldError, HistoryError, ParseStatus, StatusText, HistoryFits;
    FieldsExact(d);
    StatusLoads(d.status);
    if 0 <= d.used <= d.lastRound {
      HistoryExact(d);
    }
  }

  // ----- Which states survive -----------------------------------------------

  /** A trajectory-backed gate that stored a task id, which the decoder refuses. */
  predicate TaskOnTrajectory(s: State) {
    s.gate.Some? && s.gate.value.source == Trajectory && Given(s.gate.value.task)
  }

  ghost predicate EvidenceOk(s: State) {
    forall e :: e in s.evidence ==> e.who.Complete() && e.patch != ""
  }

  /** The round trip of one state: it holds exactly for a positive limit and no task on a trajectory gate. */
  lemma {:induction false} StateRoundTrip(s: State, retries: int)
    requires Inv(s, retries) && EvidenceOk(s)
    ensures Decode(Encode(s)) == Ok(s) <==> s.noProgressLimit >= 1 && !TaskOnTrajectory(s)
    ensures Decode(Encode(s)).Ok? <==> s.noProgressLimit >= 1 && !TaskOnTrajectory(s)
  {
    hide StatusText, ParseStatus, TotalCost;
    StatusRoundTrip(s.status);
    CostsAtMostOne(s.rounds, retries);
    assert |s.rounds| == s.lastRound;
    FieldsOk(s, retries);
    HistoryOk(s, retries);
  }

  lemma {:induction false} FieldsOk(s: State, retries: int)
    requires Inv(s, retries) && TotalCost(s.rounds) <= |s.rounds|
    ensures var source := if s.gate.Some? then Some(s.gate.value.source) else None;
            FieldError(Encode(s), source).None? <==> s.noProgressLimit >= 1 && !TaskOnTrajectory(s)
  {
    hide StatusText, ParseStatus, TotalCost, RecordOk;
  }

  lemma {:induction false} HistoryOk(s: State, retries: int)
    requires Inv(s, retries)
    ensures HistoryError(Encode(s)).None?
  {
    hide StatusText, ParseStatus, TotalCost;
    StatusRoundTrip(s.status);
  }

  // ----- Reachable states ---------------------------------------------------

  /** What a step may do to the durable side facts. */
  ghost predicate Carries(s: State, t: State, q: Request) {
    && t.noProgressLimit == s.noProgressLimit
    && (EvidenceOk(s) ==> EvidenceOk(t))
    && (TaskOnTrajectory(t) ==> TaskOnTrajectory(s) || (!q.Canonical() && q.HasTask()))
  }

  lemma {:induction false} QualityCarries(s: State, q: Request)
    ensures Carries(s, EvaluateQuality(s, q).0, q)
  {
    hide Observe, ContractErrors, LacksSemanticTools, SeparatedChannels, ProductionPaths, RequiredPaths, Effective;
  }

  lemma {:induction false} CloseCarries(s: State, q: Request, attempt: int, covered: set<string>)
    requires s.gate.Some? && s.identity.Some? && s.identity.value.Complete() && q.patch != ""
    ensures Carries(s, CloseGate(s, q, attempt, covered).0, q)
  {
    hide SeparatedChannels, ProductionPaths;
  }

  lemma {:induction false} AnswerCarries(s: State, q: Request, attempt: int)
    requires s.gate.Some? && s.identity.Some? && s.identity.value.Complete() && q.patch != ""
    ensures Carries(s, AnswerGate(s, q, attempt).0, q)
  {
    hide CloseGate, ObserveReceipts, Align, DiagnosedPaths;
    var g := s.gate.value;
    CloseCarries(s, q, attempt, g.covered + ObserveReceipts(q).covered);
    CloseCarries(s, q, attempt, g.covered + Align(DiagnosedPaths(q.trajectory), g.required));
  }

  lemma {:induction false} EvaluateCarries(s: State, q: Request)
    requires s.identity.Some? ==> s.identity.value.Complete()
    ensures Carries(s, Evaluate(s, q).0, q)
  {
    hide EvaluateQuality, AnswerGate, EvidenceOk, RegistryAccepts, RequiredPaths, Effective, ProductionPaths;
    QualityCarries(s, q);
    if s.gate.Some? && s.identity.Some? && q.patch != "" {
      AnswerCarries(s, q, if q.attempt.Some? then q.attempt.value else s.gate.value.attempts + 1);
    }
    SameEvidence(s, s.(gate := None));
  }

  lemma {:induction false} SameEvidence(s: State, t: State)
    requires t.evidence == s.evidence
    ensures EvidenceOk(s) ==> EvidenceOk(t)
    ensures forall status :: EvidenceOk(s) ==> EvidenceOk(s.(gate := None, status := status))
  {
  }

  lemma {:induction false} GradeCarries(r: Runner, q: Request, o: Outcome, g: Grading, parent: int, attempt: int)
    ensures var t := GradeRound(r, q, o, g, parent, attempt).0.state;
            t.noProgressLimit == r.state.noProgressLimit && t.evidence == r.state.evidence && t.gate == r.state.gate
  {
    hide RunGrader, WellFormed, Settle, MakeEvent, Append, NewSequences;
    GraderCarries(r.state, o, ReplyOf(g));
    if g != GraderBreaksProtocol {
      var (s, grader) := RunGrader(r.state, o, ReplyOf(g));
      var graded := r.(state := s);
      if grader.Ok? {
        var consumed := g.Feedback? && grader.value.failure != Some(Infrastructure);
        var e := MakeEvent(graded, q, GraderResult, Some(o), Some(grader.value), attempt, Some(parent), consumed);
        AppendCarries(graded, e);
        if Append(graded, e).Some? {
          SettleCarries(Append(graded, e).value, q, g, grader.value, attempt);
        }
      }
    }
  }

  lemma {:induction false} AppendCarries(r: Runner, e: Event)
    ensures Append(r, e).Some? ==> Append(r, e).value.state == r.state
  {
    hide WellFormed;
  }

  lemma {:induction false} SettleCarries(r: Runner, q: Request, g: Grading, grader: GraderOutcome, attempt: int)
    ensures var t := Settle(r, q, g, grader, attempt).0.state;
            t.noProgressLimit == r.state.noProgressLimit && t.evidence == r.state.evidence && t.gate == r.state.gate
  {
    hide WellFormed, MakeEvent;
  }

  lemma {:induction false} GraderCarries(s: State, o: Outcome, reply: GraderReply)
    ensures var t := RunGrader(s, o, reply).0;
            t.noProgressLimit == s.noProgressLimit && t.evidence == s.evidence && t.gate == s.gate
  {
  }

  lemma {:induction false} LogCarries(r: Runner, q: Request, kind: EventKind, o: Outcome, g: Grading, attempt: int,
                                      gradeAttempt: int, consumed: bool, needsEvidence: bool, needsRetry: bool)
    ensures var t := LogAndGrade(r, q, kind, o, g, attempt, gradeAttempt, consumed, needsEvidence, needsRetry).0.state;
            t.noProgressLimit == r.state.noProgressLimit && t.evidence == r.state.evidence && t.gate == r.state.gate
  {
    hide GradeRound;
    var e := MakeEvent(r, q, kind, Some(o), None, attempt, None, consumed);
    GradeCarries(r.(events := r.events + [e]), q, o, g, |r.events| + 1, gradeAttempt);
  }

  lemma {:induction false} CallCarries(r: Runner, c: Call)
    requires RunnerInv(r)
    ensures Carries(r.state, Do(r, c).0.state, c.q)
  {
    hide Evaluate, LogAndGrade, Core, EvidenceOk, GraderCount;
    assert r.state.identity.Some? ==> r.state.identity.value.Complete() by { Known(r.state, r.retries); }
    match c
    case Quality(q, g) =>
      var (s, outcome) := Evaluate(r.state, q);
      EvaluateCarries(r.state, q);
      if outcome.Ok? {
        var o := outcome.value;
        LogCarries(r.(state := s), q, QualityRound, o, g, 0, 1,
                   o.decision == NoProgress || o.decision == RejectContract, o.decision == RequireEvidence,
                   o.decision != RequireEvidence && o.failure == Some(Infrastructure) && PendingRetry(s));
      }
      SameFacts(s, Do(r, c).0.state);
    case Recover(q, g) =>
      if r.state.gate.Some? {
        var attempt := RecoveryAttempt(r.state, q);
        var asked := q.(action := EvidenceRecovery, attempt := Some(attempt));
        var (s, outcome) := Evaluate(r.state, asked);
        EvaluateCarries(r.state, asked);
        if outcome.Ok? {
          LogCarries(r.(state := s), asked, Recovery, outcome.value, g, attempt, 1, false,
                     s.gate.Some? && !Closed(s.status), false);
        }
        SameFacts(s, Do(r, c).0.state);
      }
    case Retry(q, g) =>
      if r.state.rounds != [] {
        var n := Last(r.state).gradings + 1;
        var asked := q.(action := InfraRecovery);
        var (s, outcome) := Evaluate(r.state, asked);
        EvaluateCarries(r.state, asked);
        if outcome.Ok? {
          LogCarries(r.(state := s), asked, InfraRetry, outcome.value, g, n, n, false, false, false);
        }
        SameFacts(s, Do(r, c).0.state);
      }
    case NonQuality(q, supportedKind, message) =>
      SameFacts(r.state, Do(r, c).0.state);
  }

  lemma {:induction false} SameFacts(s: State, t: State)
    ensures t.evidence == s.evidence ==> (EvidenceOk(s) ==> EvidenceOk(t))
  {
  }

  lemma {:induction false} Known(s: State, retries: int)
    requires Inv(s, retries)
    ensures s.identity.Some? ==> s.identity.value.Complete()
  {
  }

  lemma {:induction false} RunCarries(question: string, retries: int, limit: int, calls: seq<Call>)
    requires Started(question, retries)
    ensures var s := Run(Fresh(question, retries, limit), calls).state;
            && s.noProgressLimit == limit && EvidenceOk(s)
            && (TaskOnTrajectory(s) ==> exists i :: 0 <= i < |calls| && !calls[i].q.Canonical() && calls[i].q.HasTask())
    decreases |calls|
  {
    hide Do, RunnerInv;
    if calls != [] {
      var init, c := calls[..|calls| - 1], calls[|calls| - 1];
      RunCarries(question, retries, limit, init);
      FreshInv(question, retries, limit);
      RunKeeps(Fresh(question, retries, limit), init);
      CallCarries(Run(Fresh(question, retries, limit), init), c);
      assert calls[|calls| - 1] == c;
      assert forall i :: 0 <= i < |init| ==> init[i] == calls[i];
    }
  }

  /** Every state of a run loads back as itself exactly when the limit is positive and no gate misplaced a task. */
  lemma {:induction false} PersistenceRoundTrip(question: string, retries: int, limit: int, calls: seq<Call>)
    requires Started(question, retries)
    ensures var s := Run(Fresh(question, retries, limit), calls).state;
            && (Decode(Encode(s)) == Ok(s) <==> limit >= 1 && !TaskOnTrajectory(s))
            && (limit >= 1 && (forall i :: 0 <= i < |calls| && calls[i].q.HasTask() ==> calls[i].q.Canonical())
                ==> Decode(Encode(s)) == Ok(s))
  {
    hide Run, RunnerInv, Decode, Encode;
    var r := Fresh(question, retries, limit);
    FreshInv(question, retries, limit);
    RunKeeps(r, calls);
    RunCarries(question, retries, limit, calls);
    RunnerState(Run(r, calls));
    StateRoundTrip(Run(r, calls).state, retries);
  }

  lemma {:induction false} RunnerState(r: Runner)
    requires RunnerInv(r)
    ensures Inv(r.state, r.retries)
  {
  }

  /** A first round that leaves a task id on a trajectory-backed gate. */
  function TaskedRound(): Request {
    Request(1, Identity("arm", "session", "thread", "agent"), "p", [FileChange("a.py", true, None)], [], false, WithLsp,
            Start, false, [], [], None, None, None, Some("task"), None, false)
  }

  lemma {:induction false} TaskedObservation()
    ensures var q := TaskedRound();
            Observe(q) == Observation({}, {"a.py"}, None, false) && ContractErrors(q) == []
            && RequiredPaths(Effective(q.changes, q.exemptions)) == {"a.py"}
  {
    var q := TaskedRound();
    assert q.changes[0] in q.changes;
    assert RegistryAccepts(q.changes, q.exemptions, 1);
    assert DiagnosedPaths(q.trajectory) == {};
    assert EffectiveChange(q.changes[0], []) == q.changes[0];
    assert Effective(q.changes, []) == [q.changes[0]];
    assert RequiredPaths([q.changes[0]]) == {"a.py"};
    assert Align({}, {"a.py"}) == {};
  }

  /** The decoder refuses the state the guard saves after that round. */
  lemma {:induction false} TaskedGateIsRefused(limit: int)
    requires limit >= 1
    ensures var (s, r) := Evaluate(Empty(limit), TaskedRound());
            r.Ok? && s.gate.Some? && TaskOnTrajectory(s) && Decode(Encode(s)).Err?
  {
    hide Observe, ContractErrors, Decode, Encode, Core, RequiredPaths, Effective, ProductionPaths, LacksSemanticTools;
    var q := TaskedRound();
    TaskedObservation();
    EmptyInv(limit, 0);
    EvaluateKeeps(Empty(limit), q, 0);
    StateRoundTrip(Evaluate(Empty(limit), q).0, 0);
  }
}
