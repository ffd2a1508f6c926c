/**
  The native receipt stream (scripts/cross_file_go_receipts.py, lines 32-87) and the head digest an executor
  attestation pins (scripts/cross_file_artifact_bridge.py, lines 562-570 and 784-791).
  The digest and the signature check are arbitrary functions of the signed material.
 */
module ReceiptChain {
  import opened Wrappers

  /** The canonical input and output of a tool call. */
  datatype Payload = Payload(arguments: string, result: string, other: string)

  /** What is hashed and signed; an absent previous digest is not the same text as an empty one. */
  datatype Material = Material(sequence: int, previous: Option<string>, payload: Payload, signer: string)

  /** One record as read from a line; missing fields are None, and `extra` says that it has fields of no meaning. */
  datatype Receipt = Receipt(
    schemaOk: bool, sequence: Option<int>, previous: Option<string>, signer: Option<string>, payload: Option<Payload>,
    digest: Option<string>, signature: string, extra: bool)

  datatype Line = Blank | NotAnObject | Record(receipt: Receipt)

  datatype ReceiptError =
    | BadLine | BadSchema | NotContiguous | PreviousDrifted | SignerDrifted | NoCanonicalIo | DigestDrifted
    | BadSignature | EmptyStream | BlankLine | UnknownField

  datatype Scheme = Scheme(hash: Material -> string, verify: (Material, string) -> bool, key: string)

  function PreviousText(r: Receipt): string {
    if r.previous.Some? then r.previous.value else ""
  }

  predicate HasMaterial(r: Receipt) {
    r.sequence.Some? && r.signer.Some? && r.payload.Some?
  }

  function MaterialOf(r: Receipt): Material
    requires HasMaterial(r)
  {
    Material(r.sequence.value, r.previous, r.payload.value, r.signer.value)
  }

  /** The record stands at its place in the chain, its digest is its own, and its signature verifies. */
  predicate Linked(c: Scheme, r: Receipt, sequence: int, previous: string) {
    && r.schemaOk && r.sequence == Some(sequence) && PreviousText(r) == previous
    && r.signer == Some(c.key) && r.payload.Some?
    && r.digest == Some(c.hash(MaterialOf(r)))
    && c.verify(MaterialOf(r), r.signature)
  }

  function DigestBefore(receipts: seq<Receipt>, i: nat): string
    requires i <= |receipts|
  {
    if i > 0 && receipts[i - 1].digest.Some? then receipts[i - 1].digest.value else ""
  }

  /** An accepted chain: numbered from 1, each record naming the digest of the one before. */
  ghost predicate Chain(c: Scheme, receipts: seq<Receipt>) {
    forall i :: 0 <= i < |receipts| ==> Linked(c, receipts[i], i + 1, DigestBefore(receipts, i))
  }

  /** The records of a stream without its blank lines. */
  function Records(lines: seq<Line>): seq<Receipt> {
    if lines == [] then []
    else
      var n := |lines| - 1;
      Records(lines[..n]) + (if lines[n].Record? then [lines[n].receipt] else [])
  }

  ghost predicate Accepts(c: Scheme, lines: seq<Line>) {
    (forall i :: 0 <= i < |lines| ==> !lines[i].NotAnObject?) && Chain(c, Records(lines)) && Records(lines) != []
  }

  lemma {:induction false} RecordsGrow(lines: seq<Line>, i: nat)
    requires i <= |lines|
    ensures Records(lines[..i]) <= Records(lines)
  {
    if i < |lines| {
      var n := |lines| - 1;
      assert lines[..n][..i] == lines[..i];
      RecordsGrow(lines[..n], i);
    } else {
      assert lines[..i] == lines;
    }
  }

  /** A prefix of a chain is a chain. */
  lemma {:induction false} ChainPrefix(c: Scheme, receipts: seq<Receipt>, n: nat)
    requires n <= |receipts| && Chain(c, receipts)
    ensures Chain(c, receipts[..n])
  {
    hide Linked;
    forall i | 0 <= i < n
      ensures Linked(c, receipts[..n][i], i + 1, DigestBefore(receipts[..n], i))
    {
      assert Linked(c, receipts[i], i + 1, DigestBefore(receipts, i));
    }
  }

  /** A chain goes on exactly while the next record links to it. */
  lemma {:induction false} ChainGrows(c: Scheme, receipts: seq<Receipt>, r: Receipt)
    requires Chain(c, receipts)
    ensures Chain(c, receipts + [r]) <==> Linked(c, r, |receipts| + 1, DigestBefore(receipts, |receipts|))
  {
    hide Linked;
    var all := receipts + [r];
    assert DigestBefore(all, |receipts|) == DigestBefore(receipts, |receipts|);
    assert all[|receipts|] == r;
    forall i | 0 <= i < |receipts|
      ensures Linked(c, all[i], i + 1, DigestBefore(all, i))
    {
      assert Linked(c, receipts[i], i + 1, DigestBefore(receipts, i));
    }
  }

  /** A broken record breaks every stream it is in. */
  lemma {:induction false} BrokenStays(c: Scheme, lines: seq<Line>, i: nat)
    requires i < |lines| && Chain(c, Records(lines[..i]))
    requires lines[i].Record?
             && !Linked(c, lines[i].receipt, |Records(lines[..i])| + 1,
                        DigestBefore(Records(lines[..i]), |Records(lines[..i])|))
    ensures !Accepts(c, lines)
  {
    hide Linked, Chain;
    var front := Records(lines[..i]);
    assert lines[..i + 1][..i] == lines[..i];
    assert Records(lines[..i + 1]) == front + [lines[i].receipt];
    ChainGrows(c, front, lines[i].receipt);
    RecordsGrow(lines, i + 1);
    assert Records(lines)[..|front| + 1] == front + [lines[i].receipt];
    if Chain(c, Records(lines)) {
      ChainPrefix(c, Records(lines), |front| + 1);
    }
  }

  method CheckRecord(c: Scheme, r: Receipt, expected: int, previous: string) returns (e: Option<ReceiptError>)
    ensures e.None? <==> Linked(c, r, expected, previous)
  {
    if !r.schemaOk {
      return Some(BadSchema);
    }
    if r.sequence != Some(expected) {
      return Some(NotContiguous);
    }
    if PreviousText(r) != previous {
      return Some(PreviousDrifted);
    }
    if r.signer != Some(c.key) {
      return Some(SignerDrifted);
    }
    if r.payload.None? {
      return Some(NoCanonicalIo);
    }
    if r.digest != Some(c.hash(MaterialOf(r))) {
      return Some(DigestDrifted);
    }
    if !c.verify(MaterialOf(r), r.signature) {
      return Some(BadSignature);
    }
    return None;
  }

  /** One pass over the lines. */
  method ValidateStream(c: Scheme, lines: seq<Line>) returns (r: Result<seq<Receipt>, ReceiptError>)
    ensures r.Ok? <==> Accepts(c, lines)
    ensures r.Ok? ==> r.value == Records(lines)
  {
    hide Linked, Chain;
    var expected, previous, result := 1, "", [];
    EmptyChain(c);
    for i := 0 to |lines|
      invariant forall j :: 0 <= j < i ==> !lines[j].NotAnObject?
      invariant result == Records(lines[..i]) && Chain(c, result)
      invariant expected == |result| + 1 && previous == DigestBefore(result, |result|)
    {
      assert lines[..i + 1][..i] == lines[..i];
      match lines[i] {
        case Blank =>
        case NotAnObject =>
          return Err(BadLine);
        case Record(record) =>
          var error := CheckRecord(c, record, expected, previous);
          if error.Some? {
            BrokenStays(c, lines, i);
            return Err(error.value);
          }
          ChainGrows(c, result, record);
          LinkedDigest(c, record, expected, previous);
          result := result + [record];
          previous := record.digest.value;
          expected := expected + 1;
      }
    }
    assert lines[..|lines|] == lines;
    if result == [] {
      return Err(EmptyStream);
    }
    return Ok(result);
  }

  lemma {:induction false} EmptyChain(c: Scheme)
    ensures Chain(c, [])
  {
  }

  lemma {:induction false} LinkedDigest(c: Scheme, r: Receipt, sequence: int, previous: string)
    requires Linked(c, r, sequence, previous)
    ensures HasMaterial(r) && r.digest == Some(c.hash(MaterialOf(r)))
    ensures MaterialOf(r).sequence == sequence && PreviousText(r) == previous
  {
  }

  // ----- Binding ------------------------------------------------------------

  ghost predicate Injective(hash: Material -> string) {
    forall a, b :: hash(a) == hash(b) ==> a == b
  }

  /** The head digest an attestation records. */
  function Head(receipts: seq<Receipt>): string {
    DigestBefore(receipts, |receipts|)
  }

  /** Same length, and the same signed material at every position. */
  ghost predicate SameMaterial(a: seq<Receipt>, b: seq<Receipt>) {
    |a| == |b| && forall i :: 0 <= i < |a| ==>
      HasMaterial(a[i]) && HasMaterial(b[i]) && MaterialOf(a[i]) == MaterialOf(b[i])
  }

  lemma {:induction false} LastLinked(c: Scheme, receipts: seq<Receipt>)
    requires Chain(c, receipts) && receipts != []
    ensures var r := receipts[|receipts| - 1];
            && HasMaterial(r) && MaterialOf(r).sequence == |receipts| && Head(receipts) == c.hash(MaterialOf(r))
            && PreviousText(r) == Head(receipts[..|receipts| - 1])
  {
    var n := |receipts| - 1;
    assert Linked(c, receipts[n], n + 1, DigestBefore(receipts, n));
    LinkedDigest(c, receipts[n], n + 1, DigestBefore(receipts, n));
  }

  /** Two accepted streams with the same head digest carry the same signed material throughout. */
  lemma {:induction false} HeadBindsStream(c: Scheme, a: seq<Receipt>, b: seq<Receipt>)
    requires Injective(c.hash) && Chain(c, a) && Chain(c, b) && a != [] && b != [] && Head(a) == Head(b)
    ensures SameMaterial(a, b)
    decreases |a|
  {
    hide Linked, Chain, Head;
    LastLinked(c, a);
    LastLinked(c, b);
    var n := |a| - 1;
    assert MaterialOf(a[n]) == MaterialOf(b[n]) && |b| == n + 1;
    if n > 0 {
      ChainPrefix(c, a, n);
      ChainPrefix(c, b, n);
      HeadBindsStream(c, a[..n], b[..n]);
      assert forall i :: 0 <= i < n ==> a[..n][i] == a[i] && b[..n][i] == b[i];
    }
  }

  /** What an executor attestation says of a receipt log. */
  datatype Attestation = Attestation(logDigest: string, count: int, head: string)

  ghost predicate AllBlank(lines: seq<Line>) {
    forall i :: 0 <= i < |lines| ==> lines[i].Blank?
  }

  /** A log without blank lines that is accepted and has no unknown field, or a log of blank lines only. */
  ghost predicate NativeLog(c: Scheme, lines: seq<Line>) {
    || AllBlank(lines)
    || (Accepts(c, lines) && (forall i :: 0 <= i < |lines| ==> !lines[i].Blank?)
        && forall r :: r in Records(lines) ==> !r.extra)
  }

  /** The log is native, and its digest, record count and head are those attested; a blank log has head "". */
  ghost predicate Attests(c: Scheme, logDigest: seq<Line> -> string, attested: Attestation, lines: seq<Line>) {
    && NativeLog(c, lines) && attested.logDigest == logDigest(lines)
    && attested.count == |Records(lines)| && attested.head == Head(Records(lines))
  }

  method ValidateNativeLog(c: Scheme, lines: seq<Line>) returns (r: Result<seq<Receipt>, ReceiptError>)
    ensures r.Ok? <==> NativeLog(c, lines)
    ensures r.Ok? ==> r.value == Records(lines)
  {
    hide Chain, Records;
    NonEmptyRecords(lines);
    if forall line :: line in lines ==> line.Blank? {
      return Ok([]);
    }
    if exists line :: line in lines && line.Blank? {
      return Err(BlankLine);
    }
    var records := ValidateStream(c, lines);
    if records.Err? {
      return Err(records.error);
    }
    for i := 0 to |records.value|
      invariant forall j :: 0 <= j < i ==> !records.value[j].extra
    {
      if records.value[i].extra {
        assert records.value[i] in Records(lines);
        return Err(UnknownField);
      }
    }
    return records;
  }

  method ValidateAttestedLog(c: Scheme, logDigest: seq<Line> -> string, attested: Attestation, lines: seq<Line>)
    returns (ok: bool)
    ensures ok <==> Attests(c, logDigest, attested, lines)
  {
    hide NativeLog;
    var records := ValidateNativeLog(c, lines);
    return records.Ok? && attested.logDigest == logDigest(lines) && attested.count == |records.value|
           && attested.head == Head(records.value);
  }

  /**
    Two logs that one attestation fits carry the same signed material throughout, even if the log digest collides;
    if it does not, they are the same log.
   */
  lemma {:induction false} AttestationPinsLog(c: Scheme, logDigest: seq<Line> -> string, attested: Attestation,
                                              a: seq<Line>, b: seq<Line>)
    requires Injective(c.hash) && Attests(c, logDigest, attested, a) && Attests(c, logDigest, attested, b)
    ensures SameMaterial(Records(a), Records(b))
    ensures (forall x, y :: logDigest(x) == logDigest(y) ==> x == y) ==> a == b
  {
    hide Chain, Head, Records;
    NonEmptyRecords(a);
    NonEmptyRecords(b);
    if Records(a) != [] {
      HeadBindsStream(c, Records(a), Records(b));
    }
  }

  /** A blank log is attested by count 0 and an empty head, and by nothing else. */
  lemma {:induction false} BlankLogAttested(c: Scheme, logDigest: seq<Line> -> string, attested: Attestation,
                                            lines: seq<Line>)
    requires AllBlank(lines)
    ensures Attests(c, logDigest, attested, lines) <==> attested == Attestation(logDigest(lines), 0, "")
  {
    hide Chain, Records;
    NonEmptyRecords(lines);
  }

  /** Cutting an accepted stream anywhere after its first record leaves an accepted stream. */
  lemma {:induction false} PrefixAccepted(c: Scheme, lines: seq<Line>, n: nat)
    requires Accepts(c, lines) && n <= |lines|
    ensures Accepts(c, lines[..n]) <==> exists i :: 0 <= i < n && lines[i].Record?
  {
    hide Linked, Chain;
    RecordsGrow(lines, n);
    var m := |Records(lines[..n])|;
    ChainPrefix(c, Records(lines), m);
    assert Records(lines)[..m] == Records(lines[..n]);
    NonEmptyRecords(lines[..n]);
    assert forall i :: 0 <= i < n ==> lines[..n][i] == lines[i];
  }

  lemma {:induction false} NonEmptyRecords(lines: seq<Line>)
    ensures Records(lines) != [] <==> exists i :: 0 <= i < |lines| && lines[i].Record?
  {
    if lines != [] {
      var n := |lines| - 1;
      NonEmptyRecords(lines[..n]);
      if Records(lines[..n]) != [] {
        var i :| 0 <= i < n && lines[..n][i].Record?;
        assert lines[i].Record?;
      }
      assert forall i :: 0 <= i < n && lines[i].Record? ==> lines[..n][i].Record?;
    }
  }
}
