/**
  From plan to points: a first round that the guard authorises and that passes gives a log the adapter accepts and
  the full score (scripts/cross_file_five_round_runner.py, lines 813-1003).
 */
module CleanRun {
  import opened Wrappers
  import opened Evidence
  import opened GuardSpec
  import opened RunnerSpec
  import opened RunnerInvariants
  import opened WholeRun
  import opened EventAcceptor
  import opened ProducerRefinement
  import opened QualityPoints
  import opened Scoring
  import opened CoveragePlan
  import opened PlanAgreement
  import D = DiffParser

  /** The guard authorises this request as the first of a run. */
  ghost predicate Authorises(limit: int, q: Request) {
    Evaluate(Empty(limit), q).1.Ok? && Evaluate(Empty(limit), q).1.value.allowed
  }

  /** A runner whose only round passed: its identity, its status and its two events. */
  ghost predicate PassedFirst(r: Runner, q: Request) {
    && r.state.status == Succeeded && r.state.identity == Some(q.who) && r.state.lastRound == 1
    && |r.events| == 2 && r.events[0].kind == QualityRound && r.events[0].decision == Some(AllowGrader)
    && r.events[1].kind == GraderResult && r.events[1].decision == Some(AllowGrader) && r.events[1].patch == q.patch
  }

  lemma {:induction false} FirstEvaluation(limit: int, q: Request)
    requires Authorises(limit, q)
    ensures var (s, result) := Evaluate(Empty(limit), q);
            && result.Ok? && Authorised(s, result.value, 0) && result.value.decision == AllowGrader
            && s.identity == Some(q.who) && q.who.Complete() && q.patch != "" && q.round == 1
            && |s.rounds| == 1 && s.lastRound == 1 && Last(s).patch == q.patch
  {
    hide Evaluate;
    EmptyInv(limit, 0);
    EvaluateKeeps(Empty(limit), q, 0);
    QualityMoves(Empty(limit), q);
  }

  lemma {:induction false} FirstGrading(r: Runner, q: Request, o: Outcome)
    requires Authorised(r.state, o, 0) && r.state.lastRound == 1 && |r.events| == 1 && r.question != ""
    requires q.who.Complete() && q.patch != "" && q.round == 1
    ensures var (t, result) := GradeRound(r, q, o, PASSING, 1, 1);
            && result.Ok? && t.state.status == Succeeded && t.state.identity == r.state.identity
            && t.state.lastRound == 1
            && |t.events| == 2 && t.events[0] == r.events[0] && t.events[1].kind == GraderResult
            && t.events[1].decision == Some(o.decision) && t.events[1].patch == q.patch
  {
  }

  lemma {:induction false} FirstCallPasses(question: string, retries: int, limit: int, q: Request)
    requires Started(question, retries) && Authorises(limit, q)
    ensures var (r, result) := SubmitQuality(Fresh(question, retries, limit), q, PASSING);
            result.Ok? && PassedFirst(r, q)
  {
    hide Evaluate, Authorises, Authorised, GradeRound;
    FirstEvaluation(limit, q);
    var (s, result) := Evaluate(Empty(limit), q);
    var o := result.value;
    var r := Fresh(question, retries, limit).(state := s);
    var logged := r.(events := [MakeEvent(r, q, QualityRound, Some(o), None, 0, None, false)]);
    FirstGrading(logged, q, o);
    AuthorisedAllows(s, o);
    assert r.events + logged.events == logged.events;
  }

  lemma {:induction false} AuthorisedAllows(s: State, o: Outcome)
    requires Authorised(s, o, 0)
    ensures o.allowed
  {
  }

  /** A run of one authorised, passing round is accepted and worth the full ten points everywhere. */
  lemma {:induction false} FirstPassIsAccepted(question: string, retries: int, limit: int, q: Request)
    requires Started(question, retries) && Authorises(limit, q)
    ensures var r := Run(Fresh(question, retries, limit), [Quality(q, PASSING)]);
            && Accepts(r.events, Expected(q.who, question, q.patch))
            && EventScore(r.events) == 10 && AuditScore(Summary(r.events), true) == Ok(10)
            && LedgerScore(EntriesOf(Summary(r.events))) == 10
  {
    hide Evaluate, Authorises, SubmitQuality, Accepts, EventScore, AuditScore, LedgerScore, EntriesOf, Summary;
    var fresh_, calls := Fresh(question, retries, limit), [Quality(q, PASSING)];
    FirstCallPasses(question, retries, limit, q);
    assert calls[..0] == [] && Run(fresh_, []) == fresh_;
    assert Run(fresh_, calls) == SubmitQuality(fresh_, q, PASSING).0;
    assert Lossless(fresh_, calls);
    hide Run, Lossless;
    ProducerMeetsAcceptor(question, retries, limit, calls, Expected(q.who, question, q.patch));
    ScoresAgree(question, retries, limit, calls, Expected(q.who, question, q.patch), true);
  }

  /** So is a first round that follows an emitted plan and passes. */
  lemma {:induction false} PlannedPassIsAccepted(files: seq<D.DiffFile>, changes: seq<FileChange>,
                                                 exemptions: seq<Exemption>, plan: Plan,
                                                 question: string, retries: int, limit: int, q: Request)
    requires Started(question, retries) && Emitted(files, changes, exemptions, plan)
    requires ExemptsProductionOnly(files, changes, exemptions) && Follows(q, plan)
             && ProductionPaths(plan.changes) != {}
    requires q.round == 1 && !q.resumes && q.who.Complete() && q.patch != ""
    ensures var r := Run(Fresh(question, retries, limit), [Quality(q, PASSING)]);
            Accepts(r.events, Expected(q.who, question, q.patch)) && EventScore(r.events) == 10
  {
    hide Emitted, ExemptsProductionOnly, Follows, Evaluate, Accepts, EventScore, Run;
    PlannedRoundIsGraded(files, changes, exemptions, plan, Empty(limit), q);
    FirstPassIsAccepted(question, retries, limit, q);
  }
}
