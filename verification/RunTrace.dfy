/**
  What the event log of a run shows of its records, and what every logged or unlogged step keeps of it.  A log is
  traced as clean or as damaged: damage is what no later call repairs.
 */
module RunTrace {
  import opened Wrappers
  import opened Evidence
  import opened GuardSpec
  import opened RunnerSpec
  import opened RunnerInvariants
  import opened EventAcceptor

  /** Statuses after which an event may carry an identity the guard never checked. */
  predicate Abandoned(status: Status) {
    status == Unverified || status == ContractFailure
  }

  // ----- What every log shows -----------------------------------------------

  /** Records keep their decision and patch. */
  ghost predicate Stable(s: State, t: State) {
    && |s.rounds| <= |t.rounds|
    && forall k :: 0 <= k < |s.rounds| ==>
         t.rounds[k].decision == s.rounds[k].decision && t.rounds[k].patch == s.rounds[k].patch
  }

  /** Records keep their verdict as well, and a new one has none. */
  ghost predicate Carries(s: State, t: State) {
    && Stable(s, t)
    && forall k :: 0 <= k < |t.rounds| ==>
         t.rounds[k].passed == if k < |s.rounds| then s.rounds[k].passed else None
  }

  predicate ShowsRound(events: seq<Event>, round: int) {
    exists i :: 0 <= i < |events| && events[i].kind == QualityRound && events[i].round == round
  }

  /** Every record and the open gate go back to a quality event. */
  ghost predicate RoundsShown(s: State, events: seq<Event>) {
    && (forall round :: 1 <= round <= |s.rounds| ==> ShowsRound(events, round))
    && (s.gate.Some? ==> ShowsRound(events, s.gate.value.round))
  }

  /** A grader result belongs to a gradeable record and repeats the patch of its parent. */
  ghost predicate GradedEvent(s: State, events: seq<Event>, i: int)
    requires 0 <= i < |events|
  {
    var e := events[i];
    && 1 <= e.round <= |s.rounds|
    && Gradeable(s.rounds[e.round - 1].decision) && e.patch == s.rounds[e.round - 1].patch
    && e.parent.Some? && 1 <= e.parent.value <= i && events[e.parent.value - 1].patch == e.patch
  }

  /** The last result of a round is the verdict on its record. */
  ghost predicate ResultOk(s: State, events: seq<Event>, k: int)
    requires 0 <= k < |s.rounds|
  {
    var result := LastResult(events, k + 1);
    && s.rounds[k].passed == (if result.Some? then result.value.passed else None)
    && (s.rounds[k].passed.Some? ==> result.value.failure != Some(Infrastructure))
  }

  ghost predicate ResultsOk(s: State, events: seq<Event>) {
    forall k :: 0 <= k < |s.rounds| ==> ResultOk(s, events, k)
  }

  /** A passing verdict ends the run. */
  ghost predicate PassesEnd(s: State, events: seq<Event>) {
    forall i :: 0 <= i < |events| && events[i].kind == GraderResult && events[i].passed == Some(true) ==>
      s.status == Succeeded && events[i].round == |s.rounds|
  }

  ghost predicate LogOk(s: State, events: seq<Event>, question: string) {
    && Ordered(events)
    && (forall i :: 0 <= i < |events| && events[i].kind == Terminal ==> events[i].status == Unverified)
    && (!Abandoned(s.status) ==> forall i :: 0 <= i < |events| ==>
          s.identity == Some(events[i].who) && events[i].question == question)
    && (events != [] && (Closed(events[|events| - 1].status) || Scoreable(s.status)) ==>
          events[|events| - 1].status == s.status)
    && (forall i :: 0 <= i < |events| && events[i].kind == GraderResult ==> GradedEvent(s, events, i))
    && (!Abandoned(s.status) ==> RoundsShown(s, events))
    && ResultsOk(s, events) && PassesEnd(s, events)
  }

  /** A grader result gives the last record its verdict. */
  ghost predicate Judges(s: State, t: State, e: Event) {
    && Stable(s, t) && |t.rounds| == |s.rounds| == e.round
    && (forall k :: 0 <= k < |s.rounds| - 1 ==> t.rounds[k].passed == s.rounds[k].passed)
    && t.rounds != [] && e.passed == Last(t).passed
    && (e.passed.Some? ==> e.failure != Some(Infrastructure))
    && (e.passed == Some(true) ==> t.status == Succeeded)
  }

  /** What one appended event must satisfy for the log to stay good. */
  ghost predicate NextEvent(s: State, events: seq<Event>, question: string, t: State, e: Event) {
    && !Closed(s.status)
    && e.sequence == |events| + 1 && WellFormed(e) && e.status == t.status
    && (e.parent.Some? ==> 1 <= e.parent.value <= |events|)
    && (e.kind == Terminal ==> e.status == Unverified)
    && (!Abandoned(t.status) ==> t.identity == Some(e.who) && e.question == question
                                 && (s.identity.Some? ==> s.identity == t.identity))
    && (if e.kind == GraderResult then Judges(s, t, e) && GradedEvent(t, events + [e], |events|) else Carries(s, t))
    && |t.rounds| <= |s.rounds| + 1
    && (|s.rounds| < |t.rounds| ==> (e.kind == QualityRound && e.round == |t.rounds|)
                                    || (s.gate.Some? && s.gate.value.round == |t.rounds|))
    && (t.gate.Some? ==> (e.kind == QualityRound && e.round == t.gate.value.round)
                         || (s.gate.Some? && s.gate.value.round == t.gate.value.round))
  }

  lemma {:induction false} ShownStill(events: seq<Event>, e: Event, round: int)
    ensures ShowsRound(events, round) ==> ShowsRound(events + [e], round)
    ensures e.kind == QualityRound && e.round == round ==> ShowsRound(events + [e], round)
  {
    var after := events + [e];
    if ShowsRound(events, round) {
      var i :| 0 <= i < |events| && events[i].kind == QualityRound && events[i].round == round;
      assert after[i] == events[i];
    }
    assert after[|events|] == e;
  }

  lemma {:induction false} OrderGrows(s: State, events: seq<Event>, question: string, t: State, e: Event)
    requires LogOk(s, events, question) && NextEvent(s, events, question, t, e)
    ensures Ordered(events + [e])
  {
    hide GradedEvent, RoundsShown, WellFormed, Carries, Judges, ResultsOk, PassesEnd;
  }

  lemma {:induction false} GradedGrows(s: State, events: seq<Event>, t: State, e: Event, i: int)
    requires Stable(s, t) && 0 <= i < |events| && GradedEvent(s, events, i)
    ensures GradedEvent(t, events + [e], i)
  {
  }

  lemma {:induction false} ShownGrows(s: State, events: seq<Event>, question: string, t: State, e: Event)
    requires RoundsShown(s, events) && NextEvent(s, events, question, t, e)
    ensures RoundsShown(t, events + [e])
  {
    hide ShowsRound, GradedEvent, WellFormed, Carries, Judges;
    forall round | 1 <= round <= |t.rounds|
      ensures ShowsRound(events + [e], round)
    {
      ShownStill(events, e, round);
    }
    if t.gate.Some? {
      ShownStill(events, e, t.gate.value.round);
    }
  }

  /** No result names a round beyond the last record. */
  lemma {:induction false} NoResultBeyond(s: State, events: seq<Event>, round: int)
    requires forall i :: 0 <= i < |events| && events[i].kind == GraderResult ==> GradedEvent(s, events, i)
    requires round > |s.rounds|
    ensures LastResult(events, round).None?
  {
    ResultIsEvent(events, round);
  }

  lemma {:induction false} ResultsGrow(s: State, events: seq<Event>, t: State, e: Event)
    requires ResultsOk(s, events)
    requires forall i :: 0 <= i < |events| && events[i].kind == GraderResult ==> GradedEvent(s, events, i)
    requires if e.kind == GraderResult then Judges(s, t, e) else Carries(s, t)
    ensures ResultsOk(t, events + [e])
  {
    hide LastResult, GradedEvent, Stable;
    forall k | 0 <= k < |t.rounds|
      ensures ResultOk(t, events + [e], k)
    {
      ResultAppend(events, e, k + 1);
      if k < |s.rounds| {
        assert ResultOk(s, events, k);
      } else {
        NoResultBeyond(s, events, k + 1);
      }
    }
  }

  lemma {:induction false} LogGrows(s: State, events: seq<Event>, question: string, t: State, e: Event)
    requires LogOk(s, events, question) && NextEvent(s, events, question, t, e)
    ensures LogOk(t, events + [e], question)
  {
    hide GradedEvent, RoundsShown, Ordered, WellFormed, ResultsOk;
    OrderGrows(s, events, question, t, e);
    ResultsGrow(s, events, t, e);
    var after := events + [e];
    if !Abandoned(t.status) {
      ShownGrows(s, events, question, t, e);
    }
    forall i | 0 <= i < |after| && after[i].kind == GraderResult
      ensures GradedEvent(t, after, i)
    {
      if i < |events| {
        GradedGrows(s, events, t, e, i);
      }
    }
  }

  /** A call that appends nothing: it closes the arm, drops the gate, or binds the first identity. */
  ghost predicate Unlogged(s: State, t: State) {
    && !Closed(s.status) && !Scoreable(t.status)
    && Carries(s, t)
    && (!Abandoned(t.status) ==>
          && |t.rounds| == |s.rounds| && (t.gate.Some? ==> t.gate == s.gate)
          && (s.identity.Some? ==> t.identity == s.identity))
  }

  lemma {:induction false} LogStays(s: State, events: seq<Event>, question: string, t: State)
    requires LogOk(s, events, question) && Unlogged(s, t)
    ensures LogOk(t, events, question)
  {
    hide Ordered, LastResult, ShowsRound;
    forall k | 0 <= k < |t.rounds|
      ensures ResultOk(t, events, k)
    {
      if k < |s.rounds| {
        assert ResultOk(s, events, k);
      } else {
        NoResultBeyond(s, events, k + 1);
      }
    }
  }

  // ----- What a clean log shows ---------------------------------------------

  /** No round blocked for lack of progress, and every recovery recorded its round. */
  predicate Clean(events: seq<Event>) {
    forall i :: 0 <= i < |events| ==>
      events[i].decision != Some(NoProgress) && (events[i].kind == Recovery ==> events[i].recovered)
  }

  ghost predicate HasChild(events: seq<Event>, i: int) {
    exists j :: 0 <= j < |events| && IsChild(events, j, i)
  }

  /** The rounds a log has opened: its records and the pending gate. */
  function Opened(s: State): nat {
    |s.rounds| + (if s.gate.Some? then 1 else 0)
  }

  /** Quality events and records, the open gate last, agree in number, order and patch. */
  ghost predicate QualityOk(s: State, quality: seq<Event>) {
    && |quality| == Opened(s)
    && (forall k :: 0 <= k < |quality| ==> quality[k].round == k + 1)
    && (forall k :: 0 <= k < |s.rounds| ==> quality[k].patch == s.rounds[k].patch)
    && (s.gate.Some? ==> quality[|s.rounds|].patch == s.gate.value.patch)
  }

  ghost predicate ActionOk(s: State, events: seq<Event>, i: int, pending: bool)
    requires 0 <= i < |events|
  {
    && 1 <= events[i].round <= |s.rounds| && events[i].patch == s.rounds[events[i].round - 1].patch
    && ((pending && i == |events| - 1) || HasChild(events, i))
  }

  ghost predicate ActionsOk(s: State, events: seq<Event>, pending: bool) {
    forall i :: 0 <= i < |events| && events[i].kind in {Recovery, InfraRetry} ==> ActionOk(s, events, i, pending)
  }

  /** `pending` marks the moment between an authorised outcome and its grading. */
  ghost predicate CleanOk(s: State, events: seq<Event>, pending: bool) {
    && QualityOk(s, QualityEvents(events)) && ActionsOk(s, events, pending)
    && (forall k :: 0 <= k < |s.rounds| - 1 ==> s.rounds[k].passed.Some?)
    && (s.rounds != [] && Last(s).passed.None? ==> s.status == InfrastructureFailure || pending)
  }

  /** What no later call repairs: a quality event without its record, a round left unjudged, a failed recovery. */
  ghost predicate Damaged(s: State, events: seq<Event>, pending: bool) {
    || |QualityEvents(events)| > Opened(s)
    || (exists k :: 0 <= k < |s.rounds| - 1 && s.rounds[k].passed.None?)
    || (s.rounds != [] && Last(s).passed.None? && s.status != InfrastructureFailure && !pending)
    || (exists i :: 0 <= i < |events| && events[i].kind == Recovery && !events[i].recovered)
  }

  ghost predicate Traced(s: State, events: seq<Event>, good: bool, pending: bool) {
    if good then CleanOk(s, events, pending) else Damaged(s, events, pending)
  }

  lemma {:induction false} ChildStill(events: seq<Event>, e: Event, i: int)
    ensures HasChild(events, i) ==> HasChild(events + [e], i)
  {
    if HasChild(events, i) {
      var j :| 0 <= j < |events| && IsChild(events, j, i);
      assert IsChild(events + [e], j, i);
    }
  }

  lemma {:induction false} ActionsCarry(s: State, events: seq<Event>, t: State, e: Event, before: bool, pending: bool)
    requires ActionsOk(s, events, before)
    requires |s.rounds| <= |t.rounds| && forall k :: 0 <= k < |s.rounds| ==> t.rounds[k].patch == s.rounds[k].patch
    requires e.kind in {Recovery, InfraRetry} ==>
               pending && 1 <= e.round <= |t.rounds| && e.patch == t.rounds[e.round - 1].patch
    requires before ==> events != [] && IsChild(events + [e], |events|, |events| - 1)
    ensures ActionsOk(t, events + [e], pending)
  {
    var after := events + [e];
    forall i | 0 <= i < |after| && after[i].kind in {Recovery, InfraRetry}
      ensures ActionOk(t, after, i, pending)
    {
      ChildStill(events, e, i);
      if i < |events| {
        assert ActionOk(s, events, i, before);
      }
    }
  }

  /** Damage stays when one more event is logged. */
  lemma {:induction false} DamageStays(s: State, events: seq<Event>, t: State, e: Event, before: bool, pending: bool)
    requires Damaged(s, events, before) && |s.rounds| <= |t.rounds|
    requires Opened(t) <= Opened(s) + (if e.kind == QualityRound then 1 else 0)
    requires forall k :: 0 <= k < |s.rounds| - 1 ==> t.rounds[k].passed == s.rounds[k].passed
    requires s.rounds != [] && Last(s).passed.None? && s.status != InfrastructureFailure && !before ==>
               && t.rounds[|s.rounds| - 1].passed.None?
               && (|t.rounds| == |s.rounds| ==> t.status != InfrastructureFailure && !pending)
    ensures Damaged(t, events + [e], pending)
  {
    hide QualityEvents;
    QualityAppend(events, e);
    if i :| 0 <= i < |events| && events[i].kind == Recovery && !events[i].recovered {
      assert (events + [e])[i] == events[i];
    }
  }

  /** A quality event that opens a record or a gate. */
  lemma {:induction false} CleanQuality(s: State, events: seq<Event>, t: State, e: Event, q: Request,
                                        decision: Decision, pending: bool)
    requires CleanOk(s, events, false) && s.gate.None? && s.status == Active
    requires e.kind == QualityRound && e.round == |s.rounds| + 1 && e.patch == q.patch
    requires AddsRecord(s, t, q, decision)
             || (t.rounds == s.rounds && t.gate.Some? && t.gate.value.patch == q.patch)
    requires t.rounds != s.rounds ==> t.status == InfrastructureFailure || pending
    ensures CleanOk(t, events + [e], pending)
  {
    hide ActionsOk, QualityEvents;
    QualityAppend(events, e);
    assert forall k :: 0 <= k < |s.rounds| ==> t.rounds[k] == s.rounds[k];
    ActionsCarry(s, events, t, e, false, pending);
  }

  lemma {:induction false} DamagedQuality(s: State, events: seq<Event>, t: State, e: Event, q: Request,
                                          decision: Decision, pending: bool)
    requires s.gate.None? && s.status == Active && e.kind == QualityRound
    requires AddsRecord(s, t, q, decision)
             || (t.rounds == s.rounds && t.gate.Some? && t.status == EvidenceRecoveryRequired && !pending)
    requires Damaged(s, events, false)
             || (AddsRecord(s, t, q, decision) && t.status != InfrastructureFailure && !pending)
    ensures Damaged(t, events + [e], pending)
  {
    hide QualityEvents;
    if Damaged(s, events, false) {
      assert forall k :: 0 <= k < |s.rounds| ==> t.rounds[k] == s.rounds[k];
      DamageStays(s, events, t, e, false, pending);
    }
  }

  /** A recovery or a retry that authorises grading. */
  lemma {:induction false} CleanAction(s: State, events: seq<Event>, t: State, e: Event)
    requires CleanOk(s, events, false) && !Closed(s.status)
    requires e.kind in {Recovery, InfraRetry} && e.round == |t.rounds| && t.rounds != []
    requires e.patch == Last(t).patch && Last(t).passed.None? && t.gate.None?
    requires if s.gate.Some? then |t.rounds| == |s.rounds| + 1 && t.rounds[..|s.rounds|] == s.rounds
                                  && s.gate.value.patch == e.patch && s.status != InfrastructureFailure
             else s.rounds != [] && t.rounds == s.rounds[|s.rounds| - 1 := Last(t)] && Last(t).patch == Last(s).patch
    ensures CleanOk(t, events + [e], true)
  {
    hide ActionsOk, QualityEvents;
    QualityAppend(events, e);
    assert forall k :: 0 <= k < |t.rounds| - 1 ==> t.rounds[k] == s.rounds[k];
    ActionsCarry(s, events, t, e, false, true);
  }

  /** The grading of the authorised round. */
  lemma {:induction false} CleanGrading(s: State, events: seq<Event>, t: State, e: Event)
    requires CleanOk(s, events, true) && events != [] && s.gate.None? && t.gate.None?
    requires s.rounds != []
    requires t.rounds != [] && t.rounds == s.rounds[|s.rounds| - 1 := Last(t)] && Last(t).patch == Last(s).patch
    requires e.kind == GraderResult && e.parent == Some(|events|) && e.passed == Last(t).passed
    requires e.passed.None? ==> t.status == InfrastructureFailure
    ensures CleanOk(t, events + [e], false)
  {
    hide ActionsOk, QualityEvents;
    QualityAppend(events, e);
    assert IsChild(events + [e], |events|, |events| - 1);
    assert forall k :: 0 <= k < |t.rounds| - 1 ==> t.rounds[k] == s.rounds[k];
    ActionsCarry(s, events, t, e, true, false);
  }
}
