/**
  The spelling of unquoted paths in a Git diff (scripts/cross_file_diagnostics_coverage.py, lines 365-405):
  the a/ and b/ prefixes, /dev/null, and a marker's optional timestamp after a tab.
 */
module PlainPaths {
  import opened Wrappers
  import opened HunkHeader
  import opened DiffParser
  import opened DiffRoundTrip

  /** The parts of a path between its slashes. */
  function Parts(p: string): (parts: seq<string>)
    ensures parts != []
  {
    if p == "" then [""]
    else if p[0] == '/' then [""] + Parts(p[1..])
    else
      var rest := Parts(p[1..]);
      [[p[0]] + rest[0]] + rest[1..]
  }

  /** A relative path without empty, dot or dot-dot parts, and without a drive or scheme. */
  predicate Normal(p: string) {
    ':' !in Parts(p)[0] && forall part :: part in Parts(p) ==> part != "" && part != "." && part != ".."
  }

  /** A path that needs no quoting and no normalisation. */
  predicate Plain(p: string) {
    p != "" && Normal(p) && forall c :: c in p ==> c !in {' ', '\t', '\r', '\n', '"', '\'', '\\', '\0'}
  }

  function Find(s: string, c: char): (k: nat)
    ensures k <= |s| && c !in s[..k] && (k < |s| ==> s[k] == c)
  {
    if s == "" || s[0] == c then 0 else 1 + Find(s[1..], c)
  }

  lemma {:induction false} FindFirst(front: string, c: char, rest: string)
    requires c !in front
    ensures Find(front + [c] + rest, c) == |front|
    ensures Find(front, c) == |front|
  {
    var s, k := front + [c] + rest, Find(front + [c] + rest, c);
    assert s[|front|] == c && forall i :: 0 <= i < |front| ==> s[i] == front[i] && front[i] in front;
    forall j | |front| < j <= |s|
      ensures c in s[..j]
    {
      assert s[..j][|front|] == c;
    }
  }

  /** A stretch of the text between slashes or its ends. */
  predicate Segment(p: string, a: int, b: int) {
    && 0 <= a <= b <= |p| && (a == 0 || p[a - 1] == '/') && (b == |p| || p[b] == '/')
    && forall i :: a <= i < b ==> p[i] != '/'
  }

  lemma {:induction false} FirstSegment(p: string)
    ensures Segment(p, 0, Find(p, '/'))
  {
    var k := Find(p, '/');
    assert forall i :: 0 <= i < k ==> p[i] in p[..k];
  }

  lemma {:induction false} FirstPart(p: string)
    ensures var k := Find(p, '/');
            && Segment(p, 0, k) && Parts(p)[0] == p[..k]
            && Parts(p)[1..] == if k == |p| then [] else Parts(p[k + 1..])
  {
    hide Segment;
    var k := Find(p, '/');
    FirstSegment(p);
    if p != "" && p[0] != '/' {
      FirstPart(p[1..]);
      assert p[..k] == [p[0]] + p[1..][..k - 1];
      assert k < |p| ==> p[1..][k - 1 + 1..] == p[k + 1..];
    }
  }

  ghost predicate HasSegment(p: string, part: string) {
    exists a, b :: Segment(p, a, b) && part == p[a..b]
  }

  lemma {:induction false} SegmentStarts(p: string, a: int, b: int, k: int)
    requires Segment(p, a, b) && Segment(p, 0, k) && a <= k
    ensures a == 0 && b == k
  {
  }

  /** Segments after a slash are those of the text after it. */
  lemma {:induction false} SegmentShifts(p: string, k: int, a: int, b: int)
    requires 0 <= k < |p| && p[k] == '/'
    ensures Segment(p[k + 1..], a, b) <==> a >= 0 && Segment(p, k + 1 + a, k + 1 + b)
    ensures Segment(p[k + 1..], a, b) ==> p[k + 1 + a..k + 1 + b] == p[k + 1..][a..b]
  {
    var rest := p[k + 1..];
    assert forall i :: 0 <= i < |rest| ==> rest[i] == p[k + 1 + i];
    if a >= 0 && Segment(p, k + 1 + a, k + 1 + b) {
      forall i | a <= i < b
        ensures rest[i] != '/'
      {
        assert p[k + 1 + i] != '/';
      }
    }
  }

  lemma {:induction false} SegmentsSplit(p: string, k: int, part: string)
    requires Segment(p, 0, k)
    ensures HasSegment(p, part) <==> part == p[..k] || (k < |p| && HasSegment(p[k + 1..], part))
  {
    assert p[0..k] == p[..k];
    if a, b :| Segment(p, a, b) && part == p[a..b] {
      hide Segment;
      if a <= k {
        SegmentStarts(p, a, b, k);
      } else {
        SegmentInside(p, a, b, k);
        SegmentShifts(p, k, a - k - 1, b - k - 1);
      }
    }
    if k < |p| && HasSegment(p[k + 1..], part) {
      var a, b :| Segment(p[k + 1..], a, b) && part == p[k + 1..][a..b];
      SegmentShifts(p, k, a, b);
    }
  }

  lemma {:induction false} SegmentInside(p: string, a: int, b: int, k: int)
    requires Segment(p, a, b) && Segment(p, 0, k) && k < a
    ensures k < |p| && p[k] == '/'
  {
  }

  /** The parts of a path are its segments. */
  lemma {:induction false} PartsAreSegments(p: string, part: string)
    ensures part in Parts(p) <==> HasSegment(p, part)
    decreases |p|
  {
    hide Parts, Segment, HasSegment;
    FirstPart(p);
    var k := Find(p, '/');
    var parts := Parts(p);
    assert parts == [parts[0]] + parts[1..];
    SegmentsSplit(p, k, part);
    if k < |p| {
      PartsAreSegments(p[k + 1..], part);
    }
  }

  /** A plain path, said by its characters: relative, without empty, dot or dot-dot segments, drive or quoting. */
  lemma {:induction false} PlainExact(p: string)
    ensures Plain(p) <==>
              && !HasSegment(p, "") && !HasSegment(p, ".") && !HasSegment(p, "..")
              && (forall i :: 0 <= i < |p| && p[i] == ':' ==> exists j :: 0 <= j < i && p[j] == '/')
              && (forall i :: 0 <= i < |p| ==> p[i] !in {' ', '\t', '\r', '\n', '"', '\'', '\\', '\0'})
  {
    hide Parts, HasSegment;
    PartsAreSegments(p, "");
    PartsAreSegments(p, ".");
    PartsAreSegments(p, "..");
    FirstPart(p);
    var k := Find(p, '/');
    assert p == "" ==> Parts(p)[0] == "" && Parts(p)[0] in Parts(p);
    assert forall i :: 0 <= i < k ==> p[..k][i] == p[i] && p[i] != '/';
    assert forall i :: 0 <= i < |p| ==> p[i] in p;
  }

  function ReadSide(prefix: string, text: string): Option<Side> {
    if text == "/dev/null" then Some(Null)
    else if Starts(text, prefix) && Plain(After(text, prefix)) then Some(Path(After(text, prefix)))
    else None
  }

  function ShowSide(prefix: string, side: Side): string {
    match side
    case Null => "/dev/null"
    case Path(p) => prefix + p
  }

  function ReadMark(prefix: string, text: string): Option<Side> {
    ReadSide(prefix, text[..Find(text, '\t')])
  }

  function ReadPair(text: string): Option<(Side, Side)> {
    var k := Find(text, ' ');
    if k == |text| then None
    else
      var left, right := ReadSide("a/", text[..k]), ReadSide("b/", text[k + 1..]);
      if left.Some? && right.Some? then Some((left.value, right.value)) else None
  }

  const PLAIN := Codec(
    ReadPair, (left: Side, right: Side) => ShowSide("a/", left) + " " + ShowSide("b/", right),
    (text: string) => ReadMark("a/", text), (side: Side) => ShowSide("a/", side),
    (text: string) => ReadMark("b/", text), (side: Side) => ShowSide("b/", side),
    (text: string) => if Plain(text) then Some(text) else None, (path: string) => path)

  predicate PlainSide(side: Side) {
    side.Path? ==> Plain(side.name)
  }

  lemma {:induction false} SideRoundTrip(prefix: string, side: Side)
    requires PlainSide(side) && (prefix == "a/" || prefix == "b/")
    ensures ReadSide(prefix, ShowSide(prefix, side)) == Some(side)
    ensures ' ' !in ShowSide(prefix, side) && '\t' !in ShowSide(prefix, side)
  {
    if side.Path? {
      StartsAfter(prefix, side.name);
      assert (prefix + side.name)[0] != "/dev/null"[0];
    }
  }

  lemma {:induction false} MarkRoundTrip(prefix: string, side: Side)
    requires PlainSide(side) && (prefix == "a/" || prefix == "b/")
    ensures ReadMark(prefix, ShowSide(prefix, side)) == Some(side)
  {
    hide ReadSide;
    var text := ShowSide(prefix, side);
    SideRoundTrip(prefix, side);
    FindFirst(text, '\t', "");
    assert text[..|text|] == text;
  }

  lemma {:induction false} PairRoundTrip(left: Side, right: Side)
    requires PlainSide(left) && PlainSide(right)
    ensures ReadPair(ShowSide("a/", left) + " " + ShowSide("b/", right)) == Some((left, right))
  {
    hide ReadSide;
    var l, r := ShowSide("a/", left), ShowSide("b/", right);
    SideRoundTrip("a/", left);
    SideRoundTrip("b/", right);
    FindFirst(l, ' ', r);
    var text := l + " " + r;
    assert text[..|l|] == l && text[|l| + 1..] == r;
  }

  /** Plain paths read back, so printed diffs over them are covered by the round trip. */
  lemma {:induction false} PlainReadsBack(change: Change)
    requires PlainSide(OldSide(change)) && PlainSide(NewSide(change))
    ensures CodecOk(PLAIN, change)
  {
    hide ReadPair, ReadMark, ShowSide;
    PairRoundTrip(OldSide(change), NewSide(change));
    MarkRoundTrip("a/", OldMarkOf(change));
    MarkRoundTrip("b/", NewMarkOf(change));
  }

  // ----- Diffs that do not read back ----------------------------------------

  const NOTES := Notes([], [], [], [], [])

  /** An added file without content: Git prints its mode and no markers. */
  const EMPTY_ADDED := FileDoc(Creation("t"), NOTES.(first := [NewFileMode("100644")]), [])

  /** An edit whose last line has no newline in either version. */
  const UNTERMINATED := FileDoc(Edit("t"), NOTES, [HunkDoc(1, 1, [Deletion("a"), Addition("b"), NoNewline], false, "")])

  lemma {:induction false} PlainLetter()
    ensures Plain("t")
  {
    assert "t"[1..] == "" && Parts("")[1..] == [];
    assert ['t'] + Parts("")[0] == "t";
    assert Parts("t") == ["t"];
  }

  lemma {:induction false} WitnessesAreDocs()
    ensures DocOk(PLAIN, EMPTY_ADDED) && DocOk(PLAIN, UNTERMINATED)
  {
    hide CodecOk, Plain, PLAIN;
    PlainLetter();
    PlainReadsBack(EMPTY_ADDED.change);
    PlainReadsBack(UNTERMINATED.change);
  }

  /** The empty added file is read as a modified one. */
  lemma {:induction false} EmptyAddedLooksModified()
    ensures Parse(PLAIN, ShowFiles(PLAIN, [EMPTY_ADDED])) == Ok([DiffFile("t", Some("t"), Some("t"), Modified, [])])
    ensures FilesOf([EMPTY_ADDED]) == [DiffFile("t", None, Some("t"), Added, [])]
  {
    hide ShowFiles, ReadFiles, DocOk, PLAIN;
    WitnessesAreDocs();
    AllFilesRead(PLAIN, [EMPTY_ADDED]);
    assert FilesRead([EMPTY_ADDED]) == [ReadAs(EMPTY_ADDED)];
  }

  /** The marker after a counted last line refuses the whole diff. */
  lemma {:induction false} NewlineMarkerIsRefused()
    ensures Parse(PLAIN, ShowFiles(PLAIN, [UNTERMINATED])).Err?
  {
    hide ShowFiles, ReadFiles, DocOk, PLAIN;
    WitnessesAreDocs();
    AllFilesRead(PLAIN, [UNTERMINATED]);
    assert UNTERMINATED in [UNTERMINATED] && UNTERMINATED.hunks[0] in UNTERMINATED.hunks;
  }
}
