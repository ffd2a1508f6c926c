/**
  The runner around the guard: its append-only event log and its four calls as functions of a
  runner value (scripts/cross_file_five_round_runner.py, lines 361-1098).
 */
module RunnerSpec {
  import opened Wrappers
  import opened Evidence
  import opened GuardSpec

  datatype EventKind = QualityRound | Recovery | InfraRetry | GraderResult | Terminal

  datatype Event = Event(
    sequence: int, kind: EventKind, round: int, attempt: int, status: Status,
    who: Identity, question: string, patch: string,
    decision: Option<Decision>, started: bool, passed: Option<bool>, failure: Option<FailureKind>,
    recovered: bool, consumed: bool, parent: Option<int>, scoreable: bool)

  /** The checks an event makes of itself; an event that fails them is not appended. */
  predicate WellFormed(e: Event) {
    e.sequence >= 1 && e.round >= 1 && e.attempt >= 0 && e.who.Complete() && e.question != "" && e.patch != ""
  }

  datatype Runner = Runner(state: State, events: seq<Event>, question: string, retries: int)

  predicate Scoreable(status: Status) {
    status == Succeeded || status == MaxRoundsReached
  }

  datatype Step = Step(
    outcome: Option<Outcome>, grader: Option<GraderOutcome>, sequences: seq<int>,
    needsEvidence: bool, needsRetry: bool, terminal: bool, scoreable: bool)

  datatype RunnerError = PendingAction | BudgetExhausted | ProtocolFault | BadEvent | Refused(error: GuardError)

  /** What one grader callback does: it raises, breaks the protocol, or gives validated feedback. */
  datatype FeedbackKind = NoKind | ModelTestFailure | InfraKind | Unavailable
  datatype Grading =
    | GraderRaises
    | GraderBreaksProtocol
    | Feedback(kind: FeedbackKind, unresolved: bool, passed: bool)

  const PASSING := Feedback(NoKind, false, true)
  const FAILING := Feedback(ModelTestFailure, false, false)

  predicate Inconclusive(g: Grading) {
    g.Feedback? && (g.kind == Unavailable || g.unresolved)
  }

  /** The reply the runner hands to the guard for this feedback. */
  function ReplyOf(g: Grading): GraderReply {
    match g
    case GraderRaises => Throws
    case GraderBreaksProtocol => Malformed
    case Feedback(kind, unresolved, passed) =>
      if kind == InfraKind || kind == Unavailable || unresolved then Verdict(false, Some(Infrastructure))
      else Verdict(passed, if kind == ModelTestFailure then Some(ModelQuality) else None)
  }

  // ----- Event log ----------------------------------------------------------

  function MakeEvent(r: Runner, q: Request, kind: EventKind, o: Option<Outcome>, g: Option<GraderOutcome>,
                     attempt: int, parent: Option<int>, consumed: bool): Event
  {
    Event(|r.events| + 1, kind, q.round, attempt, r.state.status, q.who, r.question, q.patch,
          if o.Some? then Some(o.value.decision) else None,
          g.Some? && g.value.started,
          if g.Some? then g.value.passed else None,
          if g.Some? then g.value.failure
          else if o.Some? then o.value.failure
          else if kind == Terminal then Some(Infrastructure) else None,
          o.Some? && o.value.recovered,
          consumed, parent, Scoreable(r.state.status))
  }

  /** Append an event; None when the event refuses itself. */
  function Append(r: Runner, e: Event): Option<Runner> {
    if WellFormed(e) then Some(r.(events := r.events + [e])) else None
  }

  function Raise(r: Runner, e: RunnerError): (Runner, Result<Step, RunnerError>) {
    (r, Err(e))
  }

  /** The step a call returns, with the flags read off the new state. */
  function StepOf(r: Runner, o: Option<Outcome>, g: Option<GraderOutcome>, sequences: seq<int>,
                  needsEvidence: bool, needsRetry: bool): (Runner, Result<Step, RunnerError>)
  {
    (r, Ok(Step(o, g, sequences, needsEvidence, needsRetry, Closed(r.state.status), Scoreable(r.state.status))))
  }

  predicate PendingRetry(s: State) {
    s.gate.None? && s.status == InfrastructureFailure
  }

  // ----- Grading ------------------------------------------------------------

  predicate Exhausted(r: Runner) {
    && r.state.status == InfrastructureFailure
    && r.state.rounds != []
    && r.state.rounds[|r.state.rounds| - 1].gradings >= 1 + r.retries
  }

  /** Close the arm as unverified when the feedback is inconclusive or the retries are spent. */
  function Settle(r: Runner, q: Request, g: Grading, grader: GraderOutcome, attempt: int)
    : (Runner, Option<RunnerError>)
  {
    if Inconclusive(g) || Exhausted(r) then
      match MarkUnverified(r.state, if Inconclusive(g) then GraderFeedback else GraderInfrastructure)
      case Err(e) => (r, Some(Refused(e)))
      case Ok(s) =>
        var closed := r.(state := s);
        var last :=
          if Inconclusive(g) then MakeEvent(closed, q, Terminal, None, Some(grader), attempt, Some(|r.events|), false)
          else MakeEvent(closed, q, Terminal, None, None, r.state.rounds[|r.state.rounds| - 1].gradings,
                         Some(|r.events|), false);
        match Append(closed, last)
        case None => (closed, Some(BadEvent))
        case Some(logged) => (logged, None)
    else (r, None)
  }

  function GradeRound(r: Runner, q: Request, o: Outcome, g: Grading, parent: int, attempt: int)
    : (Runner, Result<Step, RunnerError>)
  {
    if g == GraderBreaksProtocol then Raise(r, ProtocolFault)
    else
      var (s, grader) := RunGrader(r.state, o, ReplyOf(g));
      var graded := r.(state := s);
      if grader.Err? then Raise(graded, Refused(grader.error))
      else
        var consumed := g.Feedback? && grader.value.failure != Some(Infrastructure);
        match Append(graded, MakeEvent(graded, q, GraderResult, Some(o), Some(grader.value), attempt, Some(parent),
                                       consumed))
        case None => Raise(graded, BadEvent)
        case Some(logged) =>
          var (final, error) := Settle(logged, q, g, grader.value, attempt);
          if error.Some? then Raise(final, error.value)
          else
            StepOf(final, Some(o), Some(grader.value), NewSequences(|graded.events|, |final.events|),
                   false, PendingRetry(final.state))
  }

  /** The sequence numbers of the events after the first `before`. */
  function NewSequences(before: int, now: int): seq<int> {
    seq(if before <= now then now - before else 0, i => before + 1 + i)
  }

  // ----- Calls --------------------------------------------------------------

  /** Log an evaluated outcome, and grade it when the guard authorised that. */
  function LogAndGrade(r: Runner, q: Request, kind: EventKind, o: Outcome, g: Grading, attempt: int, gradeAttempt: int,
                       consumed: bool, needsEvidence: bool, needsRetry: bool): (Runner, Result<Step, RunnerError>)
  {
    match Append(r, MakeEvent(r, q, kind, Some(o), None, attempt, None, consumed))
    case None => Raise(r, BadEvent)
    case Some(logged) =>
      if o.allowed then GradeRound(logged, q, o, g, |logged.events|, gradeAttempt)
      else StepOf(logged, Some(o), None, [|logged.events|], needsEvidence, needsRetry)
  }

  ghost function SubmitQuality(r: Runner, q: Request, g: Grading): (Runner, Result<Step, RunnerError>) {
    if r.state.gate.Some? || r.state.status == InfrastructureFailure || Closed(r.state.status)
    then Raise(r, PendingAction)
    else
      var (s, outcome) := Evaluate(r.state, q);
      match outcome
      case Err(e) => Raise(r.(state := s), Refused(e))
      case Ok(o) =>
        LogAndGrade(r.(state := s), q, QualityRound, o, g, 0, 1,
                    o.decision == NoProgress || o.decision == RejectContract, o.decision == RequireEvidence,
                    o.decision != RequireEvidence && o.failure == Some(Infrastructure) && PendingRetry(s))
  }

  function RecoveryAttempt(s: State, q: Request): int
    requires s.gate.Some?
  {
    if q.attempt.Some? && q.attempt.value != 0 then q.attempt.value else s.gate.value.attempts + 1
  }

  ghost function SubmitRecovery(r: Runner, q: Request, g: Grading): (Runner, Result<Step, RunnerError>) {
    if r.state.gate.None? then Raise(r, PendingAction)
    else
      var attempt := RecoveryAttempt(r.state, q);
      var asked := q.(action := EvidenceRecovery, attempt := Some(attempt));
      var (s, outcome) := Evaluate(r.state, asked);
      match outcome
      case Err(e) => Raise(r.(state := s), Refused(e))
      case Ok(o) =>
        LogAndGrade(r.(state := s), asked, Recovery, o, g, attempt, 1, false, s.gate.Some? && !Closed(s.status), false)
  }

  ghost function RetryInfra(r: Runner, q: Request, g: Grading): (Runner, Result<Step, RunnerError>) {
    if r.state.status != InfrastructureFailure || r.state.rounds == [] then Raise(r, PendingAction)
    else
      var gradings := r.state.rounds[|r.state.rounds| - 1].gradings;
      if gradings >= 1 + r.retries then Raise(r, BudgetExhausted)
      else
        var asked := q.(action := InfraRecovery);
        var (s, outcome) := Evaluate(r.state, asked);
        match outcome
        case Err(e) => Raise(r.(state := s), Refused(e))
        case Ok(o) =>
          LogAndGrade(r.(state := s), asked, InfraRetry, o, g, gradings + 1, gradings + 1, false, false, false)
  }

  /** An agent, collection or tooling failure before any verdict closes the arm as unverified. */
  function RecordNonQuality(r: Runner, q: Request, supportedKind: bool, message: string)
    : (Runner, Result<Step, RunnerError>)
  {
    if !supportedKind then Raise(r, ProtocolFault)
    else if r.state.status != Active && r.state.status != InfrastructureFailure then Raise(r, PendingAction)
    else if message == "" then Raise(r, BadEvent)
    else
      match MarkUnverified(r.state, RunnerInfrastructure)
      case Err(e) => Raise(r, Refused(e))
      case Ok(s) =>
        var closed := r.(state := s);
        match Append(closed, MakeEvent(closed, q, Terminal, None, None, 0, None, false))
        case None => Raise(closed, BadEvent)
        case Some(logged) => StepOf(logged, None, None, [|logged.events|], false, false)
  }

  datatype Call =
    | Quality(q: Request, g: Grading)
    | Recover(q: Request, g: Grading)
    | Retry(q: Request, g: Grading)
    | NonQuality(q: Request, supportedKind: bool, message: string)

  ghost function Do(r: Runner, c: Call): (Runner, Result<Step, RunnerError>) {
    match c
    case Quality(q, g) => SubmitQuality(r, q, g)
    case Recover(q, g) => SubmitRecovery(r, q, g)
    case Retry(q, g) => RetryInfra(r, q, g)
    case NonQuality(q, supportedKind, message) => RecordNonQuality(r, q, supportedKind, message)
  }

  /** A runner on a fresh guard. */
  function Fresh(question: string, retries: int, noProgressLimit: int): Runner {
    Runner(Empty(noProgressLimit), [], question, retries)
  }

  /** The runner after a sequence of calls; a call that raises still leaves its effects behind. */
  ghost function Run(r: Runner, calls: seq<Call>): Runner
    decreases |calls|
  {
    if calls == [] then r else Do(Run(r, calls[..|calls| - 1]), calls[|calls| - 1]).0
  }
}
