/**
  The runner object: it drives a guard object and appends to its event log.  Every call is proved
  to have exactly the effect and the answer of the functions in RunnerSpec.
 */
module FiveRoundRunner {
  import opened Wrappers
  import opened Evidence
  import opened GuardSpec
  import opened RunnerSpec
  import opened RunnerInvariants
  import opened ClosedLoopGuard
  import opened WholeRun
  import opened GradingOutcome

  /** A quality round asks for evidence or for a retry, never for both. */
  lemma {:induction false} OneActionAtATime(r: Runner, q: Request, g: Grading)
    ensures var result := SubmitQuality(r, q, g).1;
            result.Ok? && result.value.needsEvidence ==> !result.value.needsRetry
  {
    hide Evaluate, RunGrader, Settle;
  }

  /** What any call on a sound runner does: keep it sound, extend its log, and leave a closed runner alone. */
  lemma {:induction false} CallKeeps(r: Runner, c: Call)
    requires RunnerInv(r)
    ensures var (t, result) := Do(r, c);
            && RunnerInv(t) && Extends(r, t) && result != Err(BudgetExhausted)
            && (Closed(r.state.status) ==> t == r && result.Err?)
  {
    hide Do, RunnerInv, Extends;
    DoKeeps(r, c);
    if Closed(r.state.status) {
      ClosedRefuses(r, c);
    }
  }

  /** Events are numbered from one and well formed. */
  predicate Numbered(events: seq<Event>) {
    forall i :: 0 <= i < |events| ==> events[i].sequence == i + 1 && WellFormed(events[i])
  }

  lemma {:induction false} EventNumber(r: Runner, q: Request, kind: EventKind, o: Option<Outcome>,
                                       g: Option<GraderOutcome>, attempt: int, parent: Option<int>, consumed: bool)
    ensures MakeEvent(r, q, kind, o, g, attempt, parent, consumed).sequence == |r.events| + 1
  {
  }

  /** The statuses after which a runner takes no call. */
  predicate IsTerminal(status: Status) {
    status != Active && status != EvidenceRecoveryRequired && status != InfrastructureFailure
  }

  /** A grading logs its result and at most one closing event. */
  lemma {:induction false} SequencesAre(before: int, now: int)
    ensures now == before + 1 ==> NewSequences(before, now) == [before + 1]
    ensures now == before + 2 ==> NewSequences(before, now) == [before + 1, before + 2]
  {
  }

  lemma {:induction false} SettleLogsOne(r: Runner, q: Request, g: Grading, grader: GraderOutcome, attempt: int)
    ensures |r.events| <= |Settle(r, q, g, grader, attempt).0.events| <= |r.events| + 1
  {
    hide WellFormed, MakeEvent;
  }

  class ArmRunner {
    const guard: Guard
    const question: string
    const retries: int
    var events: seq<Event>

    ghost function View(): Runner
      reads this, guard
    {
      Runner(guard.state, events, question, retries)
    }

    /** A valid guard, and a log that shows as many gradings as the records count: the runner invariant. */
    ghost predicate Valid()
      reads this, guard
      ensures Valid() <==> RunnerInv(View())
    {
      && question != "" && guard.Valid(retries)
      && GraderCount(events) == TotalGradings(guard.state.rounds)
    }

    constructor (question: string, retries: int, noProgressLimit: int)
      requires question != "" && retries >= 0
      ensures Valid() && View() == Fresh(question, retries, noProgressLimit)
      ensures fresh(guard)
    {
      guard := new Guard(noProgressLimit);
      this.question := question;
      this.retries := retries;
      events := [];
      FreshInv(question, retries, noProgressLimit);
    }

    method BuildEvent(q: Request, kind: EventKind, o: Option<Outcome>, g: Option<GraderOutcome>,
                      attempt: int, parent: Option<int>, consumed: bool) returns (event: Event)
      ensures event == MakeEvent(View(), q, kind, o, g, attempt, parent, consumed)
    {
      var status := guard.state.status;
      var failure := None;
      if g.Some? {
        failure := g.value.failure;
      } else if o.Some? {
        failure := o.value.failure;
      } else if kind == Terminal {
        failure := Some(Infrastructure);
      }
      return Event(
        sequence := |events| + 1, kind := kind, round := q.round, attempt := attempt, status := status,
        who := q.who, question := question, patch := q.patch,
        decision := if o.Some? then Some(o.value.decision) else None,
        started := g.Some? && g.value.started, passed := if g.Some? then g.value.passed else None,
        failure := failure, recovered := o.Some? && o.value.recovered, consumed := consumed, parent := parent,
        scoreable := status == Succeeded || status == MaxRoundsReached);
    }

    /** The checks an event makes of itself. */
    method ValidEvent(event: Event) returns (ok: bool)
      ensures ok == WellFormed(event)
    {
      if event.sequence < 1 || event.round < 1 || event.attempt < 0 || event.question == "" || event.patch == "" {
        return false;
      }
      return !(event.who.arm == "" || event.who.session == "" || event.who.thread == "" || event.who.agent == "");
    }

    method AppendEvent(q: Request, kind: EventKind, o: Option<Outcome>, g: Option<GraderOutcome>,
                       attempt: int, parent: Option<int>, consumed: bool) returns (r: Result<int, RunnerError>)
      modifies this
      ensures match Append(old(View()), MakeEvent(old(View()), q, kind, o, g, attempt, parent, consumed))
              case Some(next) => View() == next && r == Ok(|events|)
              case None => View() == old(View()) && r == Err(BadEvent)
      ensures old(events) <= events && (old(Numbered(events)) ==> Numbered(events))
      ensures r.Ok? <==> |events| == |old(events)| + 1
    {
      hide MakeEvent, WellFormed;
      var event := BuildEvent(q, kind, o, g, attempt, parent, consumed);
      var ok := ValidEvent(event);
      if !ok {
        return Err(BadEvent);
      }
      EventNumber(View(), q, kind, o, g, attempt, parent, consumed);
      events := events + [event];
      return Ok(event.sequence);
    }

    /** Close the arm as unverified if this grading calls for it. */
    method SettleArm(q: Request, g: Grading, grader: GraderOutcome, attempt: int) returns (error: Option<RunnerError>)
      modifies this, guard
      ensures (View(), error) == Settle(old(View()), q, g, grader, attempt)
    {
      var parent := |events|;
      var marked, logged;
      if g.Feedback? && (g.kind == Unavailable || g.unresolved) {
        marked := guard.CloseUnverified(GraderFeedback);
        if marked.Err? {
          return Some(Refused(marked.error));
        }
        logged := AppendEvent(q, Terminal, None, Some(grader), attempt, Some(parent), false);
        return if logged.Ok? then None else Some(logged.error);
      }
      var rounds := guard.state.rounds;
      if guard.state.status != InfrastructureFailure || rounds == [] || rounds[|rounds| - 1].gradings < 1 + retries {
        return None;
      }
      marked := guard.CloseUnverified(GraderInfrastructure);
      assert marked.Ok?;
      logged := AppendEvent(q, Terminal, None, None, rounds[|rounds| - 1].gradings, Some(parent), false);
      return if logged.Ok? then None else Some(logged.error);
    }

    /** What the guard is told: a callback that raised, an infrastructure failure, or the verdict itself. */
    method ReplyFor(g: Grading) returns (reply: GraderReply)
      requires g != GraderBreaksProtocol
      ensures reply == ReplyOf(g)
    {
      if g == GraderRaises {
        return Throws;
      }
      if g.kind in {InfraKind, Unavailable} || g.unresolved {
        return Verdict(false, Some(Infrastructure));
      }
      return Verdict(g.passed, if g.kind == ModelTestFailure then Some(ModelQuality) else None);
    }

    /** The step a grading returns: the events it logged, and what the new state asks for. */
    method StepAfter(o: Outcome, grader: GraderOutcome, before: int) returns (step: Step)
      requires before < |events| <= before + 2
      ensures step == Step(Some(o), Some(grader), NewSequences(before, |events|), false, PendingRetry(guard.state),
                           Closed(guard.state.status), Scoreable(guard.state.status))
    {
      var sequences := [before + 1];
      if |events| == before + 2 {
        sequences := sequences + [|events|];
      }
      SequencesAre(before, |events|);
      var status := guard.state.status;
      return Step(Some(o), Some(grader), sequences, false, guard.state.gate.None? && status == InfrastructureFailure,
                  IsTerminal(status), status == Succeeded || status == MaxRoundsReached);
    }

    method Grade(q: Request, o: Outcome, g: Grading, parent: int, attempt: int) returns (r: Result<Step, RunnerError>)
      modifies this, guard
      ensures (View(), r) == GradeRound(old(View()), q, o, g, parent, attempt)
      ensures old(Valid()) && old(Authorised(guard.state, o, retries)) && g != GraderBreaksProtocol && attempt >= 0
              && q.round >= 1 && q.who.Complete() && q.patch != "" ==>
                r.Ok? && GradedAs(old(View()), g, View()) && GradingLogged(old(View()), g, View())
    {
      if RunnerInv(View()) && Authorised(guard.state, o, retries) && g != GraderBreaksProtocol && attempt >= 0
         && q.round >= 1 && q.who.Complete() && q.patch != "" {
        GradingExact(View(), q, o, g, parent, attempt);
      }
      hide GradedAs, GradingLogged, Authorised, RunnerInv, Inv, GraderCount, RunGrader, Settle, ReplyOf, MakeEvent,
           WellFormed, NewSequences, Numbered, Core, PendingRetry;
      if g == GraderBreaksProtocol {
        return Err(ProtocolFault);
      }
      var before := |events|;
      var reply := ReplyFor(g);
      var grader := guard.Grade(o, reply);
      if grader.Err? {
        return Err(Refused(grader.error));
      }
      var consumed := g.Feedback? && grader.value.failure != Some(Infrastructure);
      var logged := AppendEvent(q, GraderResult, Some(o), Some(grader.value), attempt, Some(parent), consumed);
      if logged.Err? {
        return Err(logged.error);
      }
      SettleLogsOne(View(), q, g, grader.value, attempt);
      var error := SettleArm(q, g, grader.value, attempt);
      if error.Some? {
        return Err(error.value);
      }
      var step := StepAfter(o, grader.value, before);
      return Ok(step);
    }

    /** Log an evaluated outcome, and grade it when the guard authorised that. */
    method LogOutcome(q: Request, kind: EventKind, o: Outcome, g: Grading, attempt: int, gradeAttempt: int,
                      consumed: bool, needsEvidence: bool, needsRetry: bool) returns (r: Result<Step, RunnerError>)
      modifies this, guard
      ensures (View(), r) ==
              LogAndGrade(old(View()), q, kind, o, g, attempt, gradeAttempt, consumed, needsEvidence, needsRetry)
    {
      hide GradeRound;
      var logged := AppendEvent(q, kind, Some(o), None, attempt, None, consumed);
      if logged.Err? {
        return Err(logged.error);
      }
      if o.allowed {
        r := Grade(q, o, g, logged.value, gradeAttempt);
        return;
      }
      var status := guard.state.status;
      return Ok(Step(Some(o), None, [logged.value], needsEvidence, needsRetry, IsTerminal(status),
                     status == Succeeded || status == MaxRoundsReached));
    }

    method SubmitQualityRound(q: Request, g: Grading) returns (r: Result<Step, RunnerError>)
      requires Valid()
      modifies this, guard
      ensures (View(), r) == SubmitQuality(old(View()), q, g)
      ensures Valid() && Extends(old(View()), View()) && r != Err(BudgetExhausted)
      ensures Closed(old(View()).state.status) ==> View() == old(View()) && r.Err?
    {
      hide Evaluate, LogAndGrade, RunnerInv, Extends;
      CallKeeps(View(), Quality(q, g));
      if guard.state.gate.Some? || guard.state.status == InfrastructureFailure || Closed(guard.state.status) {
        return Err(PendingAction);
      }
      var outcome := guard.EvaluateRound(q);
      if outcome.Err? {
        return Err(Refused(outcome.error));
      }
      var o := outcome.value;
      r := LogOutcome(q, QualityRound, o, g, 0, 1, o.decision == NoProgress || o.decision == RejectContract,
                      o.decision == RequireEvidence,
                      o.decision != RequireEvidence && o.failure == Some(Infrastructure) && PendingRetry(guard.state));
    }

    method SubmitEvidenceRecovery(q: Request, g: Grading) returns (r: Result<Step, RunnerError>)
      requires Valid()
      modifies this, guard
      ensures (View(), r) == SubmitRecovery(old(View()), q, g)
      ensures Valid() && Extends(old(View()), View()) && r != Err(BudgetExhausted)
      ensures Closed(old(View()).state.status) ==> View() == old(View()) && r.Err?
    {
      hide Evaluate, LogAndGrade, RunnerInv, Extends;
      CallKeeps(View(), Recover(q, g));
      if guard.state.gate.None? {
        return Err(PendingAction);
      }
      var attempt := guard.state.gate.value.attempts + 1;
      if q.attempt.Some? && q.attempt.value != 0 {
        attempt := q.attempt.value;
      }
      var asked := q.(action := EvidenceRecovery, attempt := Some(attempt));
      var outcome := guard.EvaluateRound(asked);
      if outcome.Err? {
        return Err(Refused(outcome.error));
      }
      var needsEvidence := guard.state.gate.Some? && !Closed(guard.state.status);
      r := LogOutcome(asked, Recovery, outcome.value, g, attempt, 1, false, needsEvidence, false);
    }

    method RetryInfrastructureRound(q: Request, g: Grading) returns (r: Result<Step, RunnerError>)
      requires Valid()
      modifies this, guard
      ensures (View(), r) == RetryInfra(old(View()), q, g)
      ensures Valid() && Extends(old(View()), View()) && r != Err(BudgetExhausted)
      ensures Closed(old(View()).state.status) ==> View() == old(View()) && r.Err?
    {
      hide Evaluate, LogAndGrade, RunnerInv, Extends;
      CallKeeps(View(), Retry(q, g));
      if guard.state.status != InfrastructureFailure || guard.state.rounds == [] {
        return Err(PendingAction);
      }
      var record := guard.state.rounds[|guard.state.rounds| - 1];
      if record.gradings >= 1 + retries {
        return Err(BudgetExhausted);
      }
      var asked := q.(action := InfraRecovery);
      var outcome := guard.EvaluateRound(asked);
      if outcome.Err? {
        return Err(Refused(outcome.error));
      }
      r := LogOutcome(asked, InfraRetry, outcome.value, g, record.gradings + 1, record.gradings + 1, false, false,
                      false);
    }

    method RecordNonQualityFailure(q: Request, supportedKind: bool, message: string)
      returns (r: Result<Step, RunnerError>)
      requires Valid()
      modifies this, guard
      ensures (View(), r) == RecordNonQuality(old(View()), q, supportedKind, message)
      ensures Valid() && Extends(old(View()), View()) && r != Err(BudgetExhausted)
      ensures Closed(old(View()).state.status) ==> View() == old(View()) && r.Err?
    {
      hide RunnerInv, Extends;
      CallKeeps(View(), NonQuality(q, supportedKind, message));
      if !supportedKind {
        return Err(ProtocolFault);
      }
      if guard.state.status != Active && guard.state.status != InfrastructureFailure {
        return Err(PendingAction);
      }
      if message == "" {
        return Err(BadEvent);
      }
      var marked := guard.CloseUnverified(RunnerInfrastructure);
      assert marked.Ok?;
      var logged := AppendEvent(q, Terminal, None, None, 0, None, false);
      if logged.Err? {
        return Err(logged.error);
      }
      return Ok(Step(None, None, [logged.value], false, false, true, false));
    }

    /**
      A round with the same-round actions the caller supplies.  The loop ends because every retry that
      leaves another retry to do is one more grading, and a run has at most three times `1 + retries`.
     */
    method ExecuteRound(q: Request, grader: nat -> Grading, recover: Option<Step -> Request>,
                        retry: Option<Step -> Request>)
      returns (r: Result<Step, RunnerError>, ghost calls: seq<Call>)
      requires Valid()
      modifies this, guard
      ensures View() == Run(old(View()), calls) && RoundScript(calls, q, grader(0))
      ensures Valid() && old(View().events) <= View().events
      ensures r.Ok? && retry.Some? ==> !r.value.needsRetry
      ensures GraderCount(events) <= MAX_ROUNDS * (1 + retries)
    {
      hide SubmitQuality, SubmitRecovery, RetryInfra, RunnerInv, Inv, GraderCount, Run, RoundScript;
      ghost var start := View();
      QualityKeeps(View(), q, grader(0));
      OneActionAtATime(View(), q, grader(0));
      r := SubmitQualityRound(q, grader(0));
      RunOne(start, Quality(q, grader(0)));
      ScriptStarts(q, grader(0));
      calls := [Quality(q, grader(0))];
      GradingBound(View());
      if r.Err? {
        return;
      }
      if r.value.needsEvidence {
        if recover.None? {
          return;
        }
        var answer := recover.value(r.value);
        RecoveryKeeps(View(), answer, grader(1));
        RunMore(start, calls, Recover(answer, grader(1)));
        ScriptRecovers(q, grader(0), Recover(answer, grader(1)));
        calls := calls + [Recover(answer, grader(1))];
        r := SubmitEvidenceRecovery(answer, grader(1));
        GradingBound(View());
      }
      var next: nat := 2;
      while r.Ok? && r.value.needsRetry
        invariant RunnerInv(View()) && old(View().events) <= View().events
        invariant View() == Run(start, calls) && RoundScript(calls, q, grader(0))
        invariant GraderCount(events) <= MAX_ROUNDS * (1 + retries)
        decreases if r.Ok? && r.value.needsRetry then MAX_ROUNDS * (1 + retries) + 1 - GraderCount(events) else 0
      {
        if retry.None? {
          return;
        }
        var again := retry.value(r.value);
        RetryKeepsRunner(View(), again, grader(next));
        RunMore(start, calls, Retry(again, grader(next)));
        ScriptRetries(calls, q, grader(0), Retry(again, grader(next)));
        calls := calls + [Retry(again, grader(next))];
        r := RetryInfrastructureRound(again, grader(next));
        GradingBound(View());
        next := next + 1;
      }
    }
  }

  /** One quality call, then at most one recovery, then only retries. */
  ghost predicate RoundScript(calls: seq<Call>, q: Request, g: Grading) {
    && calls != [] && calls[0] == Quality(q, g)
    && forall k :: 1 <= k < |calls| ==> calls[k].Retry? || (k == 1 && calls[k].Recover?)
  }

  lemma {:induction false} ScriptStarts(q: Request, g: Grading)
    ensures RoundScript([Quality(q, g)], q, g)
  {
  }

  lemma {:induction false} ScriptRecovers(q: Request, g: Grading, c: Call)
    requires c.Recover?
    ensures RoundScript([Quality(q, g)] + [c], q, g)
  {
  }

  lemma {:induction false} ScriptRetries(calls: seq<Call>, q: Request, g: Grading, c: Call)
    requires RoundScript(calls, q, g) && c.Retry?
    ensures RoundScript(calls + [c], q, g)
  {
  }

  lemma {:induction false} RunMore(r: Runner, calls: seq<Call>, c: Call)
    ensures Run(r, calls + [c]) == Do(Run(r, calls), c).0
  {
    hide Do;
    assert (calls + [c])[..|calls|] == calls;
  }

  lemma {:induction false} RunOne(r: Runner, c: Call)
    ensures Run(r, [c]) == Do(r, c).0
  {
    hide Do;
    assert [c][..0] == [] && Run(r, []) == r;
  }
}
