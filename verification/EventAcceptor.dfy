/**
  The independent acceptor of a runner log (scripts/cross_file_evidence_adapter.py, lines 233-350),
  as quantified checks over the decoded events.
 */
module EventAcceptor {
  import opened Wrappers
  import opened Evidence
  import opened GuardSpec
  import opened RunnerSpec

  /** The identity the log must belong to. */
  datatype Expected = Expected(who: Identity, question: string, patch: string)

  function QualityEvents(events: seq<Event>): seq<Event> {
    if events == [] then []
    else
      var n := |events| - 1;
      QualityEvents(events[..n]) + (if events[n].kind == QualityRound then [events[n]] else [])
  }

  /** The last grader result of a round, if there is one. */
  function LastResult(events: seq<Event>, round: int): Option<Event> {
    if events == [] then None
    else
      var n := |events| - 1;
      if events[n].kind == GraderResult && events[n].round == round then Some(events[n])
      else LastResult(events[..n], round)
  }

  predicate IsChild(events: seq<Event>, j: int, i: int)
    requires 0 <= j < |events|
  {
    events[j].kind == GraderResult && events[j].parent == Some(i + 1)
  }

  /** Contiguous numbering, earlier parents, and nothing after a terminal event or status. */
  predicate Ordered(events: seq<Event>) {
    && (forall i :: 0 <= i < |events| ==> events[i].sequence == i + 1 && WellFormed(events[i]))
    && (forall i :: 0 <= i < |events| && events[i].parent.Some? ==> 1 <= events[i].parent.value <= i)
    && (forall i :: 0 <= i < |events| - 1 ==> events[i].kind != Terminal && !Closed(events[i].status))
  }

  predicate OwnedBy(events: seq<Event>, who: Identity, question: string) {
    forall i :: 0 <= i < |events| ==> events[i].who == who && events[i].question == question
  }

  predicate RoundsSequential(quality: seq<Event>) {
    && 0 < |quality| <= MAX_ROUNDS
    && forall k :: 0 <= k < |quality| ==> quality[k].round == k + 1
  }

  /** A recovery or a retry keeps its round's patch and owns a grader result on that patch. */
  predicate ChildOk(events: seq<Event>, quality: seq<Event>, i: int)
    requires 0 <= i < |events|
  {
    var e := events[i];
    && (exists k :: 0 <= k < |quality| && quality[k].round == e.round && quality[k].patch == e.patch)
    && (exists j :: 0 <= j < |events| && IsChild(events, j, i))
    && (e.kind == Recovery ==> e.recovered)
    && (forall j :: 0 <= j < |events| && IsChild(events, j, i) ==> events[j].patch == e.patch)
  }

  predicate VerdictOk(events: seq<Event>, quality: Event) {
    var result := LastResult(events, quality.round);
    result.Some? && result.value.passed.Some? && result.value.patch == quality.patch
    && result.value.failure != Some(Infrastructure)
  }

  predicate Accepts(events: seq<Event>, x: Expected) {
    && events != []
    && Ordered(events)
    && OwnedBy(events, x.who, x.question)
    && var quality := QualityEvents(events);
       var last := events[|events| - 1];
       && RoundsSequential(quality)
       && Scoreable(last.status)
       && (last.status == MaxRoundsReached ==> |quality| == MAX_ROUNDS)
       && (forall i :: 0 <= i < |events| && events[i].kind in {Recovery, InfraRetry} ==> ChildOk(events, quality, i))
       && (forall k :: 0 <= k < |quality| ==> VerdictOk(events, quality[k]))
       && last.patch == x.patch
  }

  lemma {:induction false} QualityAppend(events: seq<Event>, e: Event)
    ensures QualityEvents(events + [e]) == QualityEvents(events) + (if e.kind == QualityRound then [e] else [])
  {
    assert (events + [e])[..|events|] == events;
  }

  lemma {:induction false} ResultAppend(events: seq<Event>, e: Event, round: int)
    ensures LastResult(events + [e], round) ==
            if e.kind == GraderResult && e.round == round then Some(e) else LastResult(events, round)
  {
    assert (events + [e])[..|events|] == events;
  }

  lemma {:induction false} QualityMembers(events: seq<Event>)
    ensures forall e :: e in QualityEvents(events) <==> e in events && e.kind == QualityRound
  {
    if events != [] {
      var n := |events| - 1;
      QualityMembers(events[..n]);
      assert events == events[..n] + [events[n]];
    }
  }

  lemma {:induction false} ResultIsEvent(events: seq<Event>, round: int)
    ensures LastResult(events, round).Some? ==>
              exists i :: 0 <= i < |events| && events[i] == LastResult(events, round).value
                          && events[i].kind == GraderResult && events[i].round == round
  {
    if events != [] {
      var n := |events| - 1;
      if !(events[n].kind == GraderResult && events[n].round == round) {
        ResultIsEvent(events[..n], round);
      }
    }
  }
}
