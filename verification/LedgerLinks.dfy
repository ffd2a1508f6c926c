/**
  Ledger records and the validation of their correction links
  (scripts/cross_file_corrected_ledger.py, lines 195-230 and 429-506).
 */
module LedgerLinks {
  import opened Wrappers
  import opened QualityPoints
  import opened LedgerGraph

  datatype Arm = NoLspArm | WithLspArm

  datatype Key = Key(instance: string, arm: Arm)

  datatype Link = Link(from: Node, hash: string)

  datatype Record = Record(
    id: Node, parent: Option<Node>, supersedes: seq<Node>, key: Key, evidence: string, link: Option<Link>,
    entry: RoundEntry)

  datatype LedgerError =
    | DuplicateAttempt | BadLink | SelfSupersedes | UnknownAttempt | CrossesBoundary | EvidenceDrift | CorrectionCycle
    | NoRecords | HashDrifted | SelectorMismatch | AmbiguousRoot | BadSelector | AmbiguousSink | Unlinked

  function Targets(r: Record): set<Node> {
    set t | t in r.supersedes
  }

  ghost predicate DistinctIds(records: seq<Record>) {
    forall i, j :: 0 <= i < j < |records| ==> records[i].id != records[j].id
  }

  function Ids(records: seq<Record>): set<Node> {
    set r | r in records :: r.id
  }

  /** The shape of a root and of a correction. */
  predicate LinkShape(r: Record) {
    if r.parent.None? then r.supersedes == [] && r.link.None?
    else r.link.Some? && r.parent.value in r.supersedes && r.link.value.from == r.parent.value
  }

  /** A target is another attempt of the same instance and arm. */
  ghost predicate TargetOk(records: seq<Record>, r: Record, t: Node) {
    t != r.id && exists s :: s in records && s.id == t && s.key == r.key
  }

  /** The link's evidence digest is that of the attempt itself or of one it supersedes. */
  ghost predicate Bound(records: seq<Record>, r: Record) {
    r.link.Some? ==>
      || r.link.value.hash == r.evidence
      || exists s :: s in records && s.id in r.supersedes && s.evidence == r.link.value.hash
  }

  ghost predicate RecordOk(records: seq<Record>, r: Record) {
    LinkShape(r) && (forall t :: t in r.supersedes ==> TargetOk(records, r, t)) && Bound(records, r)
  }

  ghost predicate LinksOk(records: seq<Record>) {
    DistinctIds(records) && forall r :: r in records ==> RecordOk(records, r)
  }

  /** Every attempt with the attempts it supersedes. */
  function Preds(records: seq<Record>): map<Node, set<Node>> {
    if records == [] then map[]
    else
      var n := |records| - 1;
      Preds(records[..n])[records[n].id := Targets(records[n])]
  }

  lemma {:induction false} PredsAre(records: seq<Record>)
    requires DistinctIds(records)
    ensures Preds(records).Keys == Ids(records)
    ensures forall r :: r in records ==> Preds(records)[r.id] == Targets(r)
  {
    if records != [] {
      var n := |records| - 1;
      PredsAre(records[..n]);
      assert records == records[..n] + [records[n]];
    }
  }

  lemma {:induction false} LinksClosed(records: seq<Record>)
    requires LinksOk(records)
    ensures Closed(Preds(records))
  {
    PredsAre(records);
    forall v | v in Preds(records)
      ensures Preds(records)[v] <= Preds(records).Keys
    {
      var r :| r in records && r.id == v;
      forall t | t in Targets(r)
        ensures t in Ids(records)
      {
        assert TargetOk(records, r, t);
      }
    }
  }

  /** What the builder accepts before it looks at groups. */
  ghost predicate SoundLinks(records: seq<Record>) {
    LinksOk(records) && Closed(Preds(records)) && !HasCycle(Preds(records))
  }

  function ChildSet(records: seq<Record>, id: Node): set<Node> {
    set r | r in records && id in r.supersedes :: r.id
  }

  // ----- Validation ---------------------------------------------------------

  ghost predicate Indexes(records: seq<Record>, byId: map<Node, Record>) {
    && (forall r :: r in records ==> r.id in byId && byId[r.id] == r)
    && (forall id :: id in byId ==> byId[id] in records && byId[id].id == id)
  }

  method IndexById(records: seq<Record>) returns (r: Result<map<Node, Record>, LedgerError>)
    ensures r.Ok? <==> DistinctIds(records)
    ensures r.Ok? ==> Indexes(records, r.value)
  {
    var byId: map<Node, Record> := map[];
    for i := 0 to |records|
      invariant DistinctIds(records[..i]) && Indexes(records[..i], byId)
    {
      var record := records[i];
      if record.id in byId {
        ghost var k :| 0 <= k < i && records[k] == byId[record.id];
        return Err(DuplicateAttempt);
      }
      byId := byId[record.id := record];
      assert records[..i + 1] == records[..i] + [record];
    }
    assert records[..|records|] == records;
    return Ok(byId);
  }

  /** The checks of one record against the index. */
  method CheckRecord(ghost records: seq<Record>, byId: map<Node, Record>, record: Record)
    returns (e: Option<LedgerError>)
    requires Indexes(records, byId) && record in records
    ensures e.None? <==> RecordOk(records, record)
  {
    if record.parent.None? {
      if record.supersedes != [] || record.link.Some? {
        return Some(BadLink);
      }
    } else {
      if record.link.None? {
        return Some(BadLink);
      }
      if record.parent.value !in record.supersedes {
        return Some(BadLink);
      }
      if record.link.value.from != record.parent.value {
        return Some(BadLink);
      }
    }
    var hashes := {record.evidence};
    for i := 0 to |record.supersedes|
      invariant forall t :: t in record.supersedes[..i] ==> TargetOk(records, record, t)
      invariant forall h :: h in hashes <==>
                  (h == record.evidence
                   || exists s :: s in records && s.id in record.supersedes[..i] && s.evidence == h)
    {
      var target := record.supersedes[i];
      assert target in record.supersedes;
      if target == record.id {
        return Some(SelfSupersedes);
      }
      if target !in byId {
        return Some(UnknownAttempt);
      }
      var previous := byId[target];
      if previous.key != record.key {
        assert forall s :: s in records && s.id == target ==> s == previous;
        return Some(CrossesBoundary);
      }
      hashes := hashes + {previous.evidence};
      assert record.supersedes[..i + 1] == record.supersedes[..i] + [target];
      assert forall s :: s in records && s.id == target ==> s == previous;
    }
    assert record.supersedes[..|record.supersedes|] == record.supersedes;
    if record.link.Some? && record.link.value.hash !in hashes {
      return Some(EvidenceDrift);
    }
    return None;
  }

  method AddChild(children: map<Node, set<Node>>, record: Record) returns (result: map<Node, set<Node>>)
    ensures forall id :: Next(result, id) == Next(children, id) + (if id in record.supersedes then {record.id} else {})
  {
    result := children;
    for i := 0 to |record.supersedes|
      invariant forall id :: Next(result, id)
                  == Next(children, id) + (if id in record.supersedes[..i] then {record.id} else {})
    {
      var target := record.supersedes[i];
      result := result[target := Next(result, target) + {record.id}];
      assert record.supersedes[..i + 1] == record.supersedes[..i] + [target];
    }
    assert record.supersedes[..|record.supersedes|] == record.supersedes;
  }

  datatype Links = Links(byId: map<Node, Record>, children: map<Node, set<Node>>, preds: map<Node, set<Node>>)

  ghost predicate LinksOf(records: seq<Record>, l: Links) {
    Indexes(records, l.byId) && l.preds == Preds(records) && forall id :: Next(l.children, id) == ChildSet(records, id)
  }

  /** The second loop: check every record and collect the edges both ways. */
  method CollectEdges(records: seq<Record>, byId: map<Node, Record>)
    returns (e: Option<LedgerError>, children: map<Node, set<Node>>, preds: map<Node, set<Node>>)
    requires Indexes(records, byId)
    ensures e.None? <==> forall r :: r in records ==> RecordOk(records, r)
    ensures e.None? ==> preds == Preds(records) && forall id :: Next(children, id) == ChildSet(records, id)
  {
    hide RecordOk, Indexes, Targets;
    children, preds := map[], map[];
    for i := 0 to |records|
      invariant forall j :: 0 <= j < i ==> RecordOk(records, records[j])
      invariant preds == Preds(records[..i])
      invariant forall id :: Next(children, id) == ChildSet(records[..i], id)
    {
      e := CheckRecord(records, byId, records[i]);
      if e.Some? {
        return;
      }
      children := AddChild(children, records[i]);
      preds := preds[records[i].id := Targets(records[i])];
      assert records[..i + 1][..i] == records[..i];
      assert records[..i + 1] == records[..i] + [records[i]];
    }
    assert records[..|records|] == records;
    e := None;
  }

  method ValidateLinks(records: seq<Record>) returns (r: Result<Links, LedgerError>, ghost rank: map<Node, nat>)
    ensures r.Ok? <==> SoundLinks(records)
    ensures r.Ok? ==> LinksOf(records, r.value) && Ranked(Preds(records), Preds(records).Keys, rank)
  {
    hide RecordOk, Indexes, Preds, HasCycle, Ranked, DistinctIds, Closed;
    rank := map[];
    var index := IndexById(records);
    if index.Err? {
      return Err(index.error), rank;
    }
    var error, children, preds := CollectEdges(records, index.value);
    if error.Some? {
      return Err(error.value), rank;
    }
    LinksClosed(records);
    PredsAre(records);
    var order := seq(|records|, k requires 0 <= k < |records| => records[k].id);
    OrderCovers(records, order);
    var acyclic;
    acyclic, rank := DetectCycle(preds, order);
    if !acyclic {
      return Err(CorrectionCycle), rank;
    }
    return Ok(Links(index.value, children, preds)), rank;
  }

  lemma {:induction false} OrderCovers(records: seq<Record>, order: seq<Node>)
    requires |order| == |records| && forall k :: 0 <= k < |records| ==> order[k] == records[k].id
    ensures (set v | v in order) == Ids(records)
  {
    forall v | v in Ids(records)
      ensures v in order
    {
      var r :| r in records && r.id == v;
      var k :| 0 <= k < |records| && records[k] == r;
      assert order[k] == v;
    }
    forall v | v in order
      ensures v in Ids(records)
    {
      var k :| 0 <= k < |order| && order[k] == v;
      assert records[k] in records;
    }
  }
}
