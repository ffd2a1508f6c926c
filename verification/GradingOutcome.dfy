/**
  What one grading leaves behind, read off the feedback alone
  (scripts/cross_file_five_round_runner.py, lines 72-81, 742-765 and 813-944).
 */
module GradingOutcome {
  import opened Wrappers
  import opened Evidence
  import opened GuardSpec
  import opened RunnerSpec
  import opened RunnerInvariants
  import opened WholeRun

  /** Resolved feedback that is no infrastructure failure. */
  predicate Conclusive(g: Grading) {
    g.Feedback? && g.kind in {NoKind, ModelTestFailure} && !g.unresolved
  }

  /** Feedback after which the arm cannot be verified at all. */
  predicate Hopeless(g: Grading) {
    g.Feedback? && (g.kind == Unavailable || g.unresolved)
  }

  /** The status after grading a round that was graded `before` times already. */
  function StatusAfter(g: Grading, round: int, before: int, retries: int): Status {
    if Conclusive(g) then (if g.passed then Succeeded else if round == 3 then MaxRoundsReached else Active)
    else if Hopeless(g) || before == retries then Unverified
    else InfrastructureFailure
  }

  /** The round is charged and judged exactly by conclusive feedback; anything else leaves a retry or closes the arm. */
  ghost predicate GradedAs(r: Runner, g: Grading, t: Runner) {
    && r.state.rounds != [] && |t.state.rounds| == |r.state.rounds|
    && Last(t.state).passed == (if Conclusive(g) then Some(g.passed) else None)
    && Last(t.state).gradings == Last(r.state).gradings + 1
    && t.state.used == r.state.used + (if Conclusive(g) then 1 else 0)
    && t.state.status == StatusAfter(g, |r.state.rounds|, Last(r.state).gradings, r.retries)
  }

  /** One event for the result, flagged exactly by conclusive feedback, and one more when the arm is closed. */
  ghost predicate GradingLogged(r: Runner, g: Grading, t: Runner) {
    var n := |r.events|;
    && |t.events| == n + (if t.state.status == Unverified then 2 else 1) && t.events[..n] == r.events
    && t.events[n].kind == GraderResult && t.events[n].consumed == Conclusive(g)
    && t.events[n].passed == (if Conclusive(g) then Some(g.passed) else None)
    && (t.events[n].failure == Some(Infrastructure) <==> !Conclusive(g))
    && (t.state.status == Unverified ==> t.events[n + 1].kind == Terminal && t.events[n + 1].parent == Some(n + 1))
  }

  /** What the guard makes of the reply. */
  lemma {:induction false} GuardGrades(s: State, o: Outcome, g: Grading, retries: int)
    requires Inv(s, retries) && Authorised(s, o, retries) && g != GraderBreaksProtocol
    ensures var (t, r) := RunGrader(s, o, ReplyOf(g));
            && r.Ok? && |t.rounds| == |s.rounds| && Last(t).gradings == Last(s).gradings + 1
            && Last(t).passed == r.value.passed == (if Conclusive(g) then Some(g.passed) else None)
            && (r.value.failure == Some(Infrastructure) <==> !Conclusive(g))
            && t.used == s.used + (if Conclusive(g) then 1 else 0)
            && t.status == (if Conclusive(g) then StatusAfter(g, |s.rounds|, 0, 1) else InfrastructureFailure)
  {
    Facts(s, retries);
  }

  lemma {:induction false} SettlesAs(r: Runner, q: Request, g: Grading, grader: GraderOutcome, attempt: int)
    requires r.state.rounds != [] && r.question != ""
    requires q.round >= 1 && q.who.Complete() && q.patch != "" && attempt >= 0 && Last(r.state).gradings >= 0
    requires Hopeless(g) ==> r.state.status == InfrastructureFailure
    ensures var (t, error) := Settle(r, q, g, grader, attempt);
            var closes := r.state.status == InfrastructureFailure
                          && (Hopeless(g) || Last(r.state).gradings >= 1 + r.retries);
            && error.None? && t.state.rounds == r.state.rounds && t.state.used == r.state.used
            && t.state.status == (if closes then Unverified else r.state.status)
            && |t.events| == |r.events| + (if closes then 1 else 0) && t.events[..|r.events|] == r.events
            && (closes ==> t.events[|r.events|].kind == Terminal && t.events[|r.events|].parent == Some(|r.events|))
  {
  }

  /** For every authorised round and every grading that keeps the protocol. */
  lemma {:induction false} GradingExact(r: Runner, q: Request, o: Outcome, g: Grading, parent: int, attempt: int)
    requires RunnerInv(r) && Authorised(r.state, o, r.retries) && g != GraderBreaksProtocol
    requires q.round >= 1 && q.who.Complete() && q.patch != "" && attempt >= 0
    ensures var (t, result) := GradeRound(r, q, o, g, parent, attempt);
            result.Ok? && GradedAs(r, g, t) && GradingLogged(r, g, t)
  {
    hide RunGrader, Settle, Core, GraderCount, ReplyOf;
    GuardGrades(r.state, o, g, r.retries);
    GradingsFit(r.state, r.retries);
    var (s, grader) := RunGrader(r.state, o, ReplyOf(g));
    var consumed := g.Feedback? && grader.value.failure != Some(Infrastructure);
    var graded := r.(state := s);
    var e := MakeEvent(graded, q, GraderResult, Some(o), Some(grader.value), attempt, Some(parent), consumed);
    SettlesAs(graded.(events := r.events + [e]), q, g, grader.value, attempt);
  }

  lemma {:induction false} GradingsFit(s: State, retries: int)
    requires Inv(s, retries) && s.rounds != []
    ensures 0 <= Last(s).gradings
  {
    assert RecordOk(Last(s), retries);
  }
}
