/**
  The evidence adapter's pass over the decoded events, check by check
  (scripts/cross_file_evidence_adapter.py, lines 233-350).
 */
module EventAdapter {
  import opened Wrappers
  import opened Evidence
  import opened GuardSpec
  import opened RunnerSpec
  import opened EventAcceptor

  /** Contiguous sequence numbers, parents that precede, and nothing after a terminal event or status. */
  method CheckOrder(events: seq<Event>) returns (ok: bool)
    ensures ok == Ordered(events)
  {
    for i := 0 to |events|
      invariant forall j :: 0 <= j < i ==> events[j].sequence == j + 1 && WellFormed(events[j])
      invariant forall j :: 0 <= j < i && events[j].parent.Some? ==> 1 <= events[j].parent.value <= j
      invariant forall j :: 0 <= j < i && j < |events| - 1 ==> events[j].kind != Terminal && !Closed(events[j].status)
    {
      var e := events[i];
      if e.sequence != i + 1 || e.round < 1 || e.attempt < 0 || e.question == "" || e.patch == "" {
        return false;
      }
      if e.who.arm == "" || e.who.session == "" || e.who.thread == "" || e.who.agent == "" {
        return false;
      }
      if e.parent.Some? && (e.parent.value < 1 || e.parent.value > |events| || e.parent.value >= e.sequence) {
        return false;
      }
      if e.kind == Terminal && e.sequence != |events| {
        return false;
      }
      var final := e.status in {Succeeded, Unverified, RelocalizeRequired, ContractFailure, MaxRoundsReached};
      if final && e.sequence != |events| {
        return false;
      }
    }
    return true;
  }

  method CheckOwner(events: seq<Event>, x: Expected) returns (ok: bool)
    ensures ok == OwnedBy(events, x.who, x.question)
  {
    for i := 0 to |events|
      invariant forall j :: 0 <= j < i ==> events[j].who == x.who && events[j].question == x.question
    {
      var who := events[i].who;
      if events[i].question != x.question || who.arm != x.who.arm || who.session != x.who.session {
        return false;
      }
      if who.thread != x.who.thread || who.agent != x.who.agent {
        return false;
      }
    }
    return true;
  }

  method CollectQuality(events: seq<Event>) returns (quality: seq<Event>)
    ensures quality == QualityEvents(events)
  {
    quality := [];
    for i := 0 to |events|
      invariant quality == QualityEvents(events[..i])
    {
      assert events[..i + 1] == events[..i] + [events[i]];
      QualityAppend(events[..i], events[i]);
      if events[i].kind == QualityRound {
        quality := quality + [events[i]];
      }
    }
    assert events[..|events|] == events;
  }

  method CheckRounds(quality: seq<Event>) returns (ok: bool)
    ensures ok == RoundsSequential(quality)
  {
    if quality == [] || |quality| > 3 {
      return false;
    }
    for k := 0 to |quality|
      invariant forall j :: 0 <= j < k ==> quality[j].round == j + 1
    {
      if quality[k].round != k + 1 {
        return false;
      }
    }
    return true;
  }

  /** Grader results that name event `i` as their parent: whether there are any, and all on its patch. */
  method Children(events: seq<Event>, i: nat) returns (found: bool, samePatch: bool)
    requires i < |events|
    ensures found <==> exists j :: 0 <= j < |events| && IsChild(events, j, i)
    ensures samePatch <==> forall j :: 0 <= j < |events| && IsChild(events, j, i) ==> events[j].patch == events[i].patch
  {
    found, samePatch := false, true;
    for n := 0 to |events|
      invariant found <==> exists j :: 0 <= j < n && IsChild(events, j, i)
      invariant samePatch <==> forall j :: 0 <= j < n && IsChild(events, j, i) ==> events[j].patch == events[i].patch
    {
      if events[n].kind == GraderResult && events[n].parent == Some(i + 1) {
        assert IsChild(events, n, i);
        found := true;
        if events[n].patch != events[i].patch {
          samePatch := false;
        }
      }
    }
  }

  /** A recovery or retry on the patch of its quality round, successful if a recovery, with a result of its own. */
  method CheckAction(events: seq<Event>, quality: seq<Event>, i: nat) returns (ok: bool)
    requires i < |events| && RoundsSequential(quality)
    ensures ok == ChildOk(events, quality, i)
  {
    var e := events[i];
    var found, samePatch := Children(events, i);
    if !found || !samePatch || (e.kind == Recovery && !e.recovered) {
      return false;
    }
    var k := e.round - 1;
    ok := 0 <= k < |quality| && quality[k].patch == e.patch;
    assert ok ==> quality[k].round == e.round;
  }

  /** The last grader result of the quality event's round. */
  method FinalResult(events: seq<Event>, round: int) returns (result: Option<Event>)
    ensures result == LastResult(events, round)
  {
    result := None;
    for i := 0 to |events|
      invariant result == LastResult(events[..i], round)
    {
      assert events[..i + 1] == events[..i] + [events[i]];
      ResultAppend(events[..i], events[i], round);
      if events[i].kind == GraderResult && events[i].round == round {
        result := Some(events[i]);
      }
    }
    assert events[..|events|] == events;
  }

  method CheckVerdict(events: seq<Event>, quality: Event) returns (ok: bool)
    ensures ok == VerdictOk(events, quality)
  {
    hide LastResult;
    var result := FinalResult(events, quality.round);
    if result.None? || result.value.passed.None? {
      return false;
    }
    return result.value.patch == quality.patch && result.value.failure != Some(Infrastructure);
  }

  /** The whole pass accepts exactly the logs of the acceptor. */
  method ValidateEvents(events: seq<Event>, x: Expected) returns (ok: bool)
    ensures ok == Accepts(events, x)
  {
    hide Ordered, OwnedBy, QualityEvents, RoundsSequential, ChildOk, VerdictOk;
    if events == [] {
      return false;
    }
    var ordered := CheckOrder(events);
    var owned := CheckOwner(events, x);
    var quality := CollectQuality(events);
    var sequential := CheckRounds(quality);
    if !ordered || !owned || !sequential {
      return false;
    }
    var last := events[|events| - 1];
    if last.status != Succeeded && last.status != MaxRoundsReached {
      return false;
    }
    if last.status == MaxRoundsReached && |quality| != 3 {
      return false;
    }
    for i := 0 to |events|
      invariant forall j :: 0 <= j < i && events[j].kind in {Recovery, InfraRetry} ==> ChildOk(events, quality, j)
    {
      if events[i].kind == Recovery || events[i].kind == InfraRetry {
        var fine := CheckAction(events, quality, i);
        if !fine {
          return false;
        }
      }
    }
    for k := 0 to |quality|
      invariant forall j :: 0 <= j < k ==> VerdictOk(events, quality[j])
    {
      var fine := CheckVerdict(events, quality[k]);
      if !fine {
        return false;
      }
    }
    return last.patch == x.patch;
  }
}
