/**
  Printed diffs and what the parser makes of them (scripts/cross_file_diagnostics_coverage.py, lines 443-631).
  Body text is arbitrary: it may itself look like a file marker, a hunk header or a new section.
 */
module DiffRoundTrip {
  import opened Wrappers
  import opened HunkHeader
  import opened HunkBody
  import opened DiffParser

  // ----- Soundness ----------------------------------------------------------

  /** At line `i` stands the hunk's header, and the next `k` lines have exactly its counts. */
  ghost predicate BackedAt(lines: seq<string>, h: Hunk, i: nat, k: nat) {
    i + 1 + k <= |lines| && ReadHeader(lines[i]) == Some(h)
    && Declared(lines[i + 1..i + 1 + k], h.oldCount, h.newCount, false)
  }

  /** A line that may stand outside a hunk: blank, a section start, a file marker, a rename or skipped metadata. */
  predicate Outside(line: string) {
    && (|| IsBlank(line) || Starts(line, "diff --git ")
        || Starts(line, "--- ") || Starts(line, "+++ ") || Starts(line, "rename from ") || Starts(line, "rename to ")
        || Starts(line, "index ") || Starts(line, "old mode ") || Starts(line, "new mode ")
        || Starts(line, "new file mode ") || Starts(line, "deleted file mode ")
        || Starts(line, "similarity index ") || Starts(line, "dissimilarity index ")
        || Starts(line, "copy from ") || Starts(line, "copy to "))
    && !Starts(line, "Binary files ") && line != "GIT binary patch"
  }

  ghost predicate AllOutside(lines: seq<string>, from: nat, to: nat) {
    to <= |lines| && forall m :: from <= m < to ==> Outside(lines[m])
  }

  lemma {:induction false} KindIsOutside(line: string)
    ensures KindOf(line) !in {Binary, HunkLine, Unknown} ==> Outside(line)
  {
    if Starts(line, DIFF_GIT) {
      assert line[0] == line[..|DIFF_GIT|][0] == 'd';
      FirstChar(line, 'd');
    }
  }

  lemma {:induction false} BlankIsOutside(line: string)
    requires IsBlank(line)
    ensures Outside(line)
  {
    if line != "" {
      FirstChar(line, line[0]);
    }
  }

  /** The hunks stand one after the other, without overlap, between two lines, and nothing else hides between them. */
  ghost predicate Placed(lines: seq<string>, from: nat, to: nat, hunks: seq<Hunk>)
    decreases |hunks|
  {
    if hunks == [] then from <= to && AllOutside(lines, from, to)
    else exists i: nat, k: nat :: PlacedFirst(lines, from, to, hunks, i, k)
  }

  ghost predicate PlacedFirst(lines: seq<string>, from: nat, to: nat, hunks: seq<Hunk>, i: nat, k: nat)
    requires hunks != []
    decreases |hunks|, 0
  {
    && from <= i && AllOutside(lines, from, i)
    && BackedAt(lines, hunks[0], i, k) && Placed(lines, i + 1 + k, to, hunks[1..])
  }

  lemma {:induction false} PlacedEarlier(lines: seq<string>, early: nat, from: nat, to: nat, hunks: seq<Hunk>)
    requires early <= from && AllOutside(lines, early, from) && Placed(lines, from, to, hunks)
    ensures Placed(lines, early, to, hunks)
  {
    hide BackedAt, Outside;
    if hunks != [] {
      var i: nat, k: nat :| PlacedFirst(lines, from, to, hunks, i, k);
      assert PlacedFirst(lines, early, to, hunks, i, k);
    }
  }

  lemma {:induction false} PlacedJoins(lines: seq<string>, from: nat, mid: nat, to: nat, a: seq<Hunk>, b: seq<Hunk>)
    requires Placed(lines, from, mid, a) && Placed(lines, mid, to, b)
    ensures Placed(lines, from, to, a + b)
    decreases |a|
  {
    hide BackedAt, Outside;
    if a == [] {
      assert a + b == b;
      PlacedEarlier(lines, from, mid, to, b);
    } else {
      var i: nat, k: nat :| PlacedFirst(lines, from, mid, a, i, k);
      PlacedJoins(lines, i + 1 + k, mid, to, a[1..], b);
      assert (a + b)[1..] == a[1..] + b;
      assert PlacedFirst(lines, from, to, a + b, i, k);
    }
  }

  lemma {:induction false} BackedLater(lines: seq<string>, n: nat, h: Hunk, i: nat, k: nat)
    requires n <= |lines| && BackedAt(lines[n..], h, i, k)
    ensures BackedAt(lines, h, n + i, k)
  {
    hide Declared, ReadHeader;
    assert lines[n..][i] == lines[n + i];
    assert lines[n..][i + 1..i + 1 + k] == lines[n + i + 1..n + i + 1 + k];
  }

  lemma {:induction false} OutsideLater(lines: seq<string>, n: nat, from: nat, to: nat)
    requires n <= |lines| && AllOutside(lines[n..], from, to)
    ensures AllOutside(lines, n + from, n + to)
  {
    forall m | n + from <= m < n + to
      ensures Outside(lines[m])
    {
      assert lines[n..][m - n] == lines[m];
    }
  }

  lemma {:induction false} PlacedLater(lines: seq<string>, n: nat, from: nat, to: nat, hunks: seq<Hunk>)
    requires n <= |lines| && Placed(lines[n..], from, to, hunks)
    ensures Placed(lines, n + from, n + to, hunks)
    decreases |hunks|
  {
    hide BackedAt, Outside;
    if hunks == [] {
      OutsideLater(lines, n, from, to);
    } else {
      var i: nat, k: nat :| PlacedFirst(lines[n..], from, to, hunks, i, k);
      BackedLater(lines, n, hunks[0], i, k);
      OutsideLater(lines, n, from, i);
      PlacedLater(lines, n, i + 1 + k, to, hunks[1..]);
      assert PlacedFirst(lines, n + from, n + to, hunks, n + i, k);
    }
  }

  lemma {:induction false} HunkBacked(rest: seq<string>, m: nat)
    requires IsHunk(rest, m)
    ensures BackedAt(rest, ReadHunk(rest), 0, m - 1)
  {
    hide Body, ReadHeader;
    var h := ReadHunk(rest);
    BodyExact(rest[1..], h.oldCount, h.newCount, false, m - 1);
    assert rest[1..][..m - 1] == rest[0 + 1..0 + 1 + (m - 1)];
  }

  /** A hunk at the first lines, if there is one, comes before those placed later. */
  lemma {:induction false} PlacedFromStart(rest: seq<string>, m: nat, to: nat, hunks: seq<Hunk>, before: seq<Hunk>,
                                           next: seq<Hunk>)
    requires next <= hunks && Placed(rest, m, to, hunks[|next|..])
    requires (next == before && m == 1 && rest != [] && Outside(rest[0]))
             || (next == before + [ReadHunk(rest)] && IsHunk(rest, m))
    ensures before <= hunks && Placed(rest, 0, to, hunks[|before|..])
  {
    hide Outside;
    if next == before {
      PlacedEarlier(rest, 0, m, to, hunks[|before|..]);
    } else {
      HunkBacked(rest, m);
      hide BackedAt, IsHunk, ReadHunk;
      var added := hunks[|before|..];
      assert added[0] == next[|before|] && added[1..] == hunks[|next|..];
      assert PlacedFirst(rest, 0, to, added, 0, m - 1);
    }
  }

  /** The hunks a section adds stand one after the other in the lines it consumes. */
  ghost predicate AddsPlaced(rest: seq<string>, before: seq<Hunk>, read: Read) {
    && |read.rest| <= |rest| && before <= read.section.hunks
    && Placed(rest, 0, |rest| - |read.rest|, read.section.hunks[|before|..])
  }

  lemma {:induction false} AddsNothing(c: Codec, rest: seq<string>, s: Section)
    requires rest == [] || KindOf(rest[0]) == DiffGit
    ensures ReadSection(c, rest, s) == Ok(Read(s, rest)) && AddsPlaced(rest, s.hunks, Read(s, rest))
  {
    hide KindOf;
    assert s.hunks[|s.hunks|..] == [];
  }

  lemma {:induction false} AddsMore(rest: seq<string>, m: nat, before: seq<Hunk>, next: seq<Hunk>, read: Read)
    requires m <= |rest| && AddsPlaced(rest[m..], next, read)
    requires (next == before && m == 1 && Outside(rest[0]))
             || (next == before + [ReadHunk(rest)] && IsHunk(rest, m))
    ensures AddsPlaced(rest, before, read)
  {
    hide Placed, IsHunk, ReadHunk, Outside;
    var to := |rest| - |read.rest|;
    PlacedLater(rest, m, 0, to - m, read.section.hunks[|next|..]);
    PlacedFromStart(rest, m, to, read.section.hunks, before, next);
  }

  lemma {:induction false} SectionPlaced(c: Codec, rest: seq<string>, s: Section)
    requires ReadSection(c, rest, s).Ok?
    ensures AddsPlaced(rest, s.hunks, ReadSection(c, rest, s).value)
    decreases |rest|
  {
    hide ReadSection, KindOf, AddsPlaced, IsHunk, ReadHunk, Outside;
    if rest == [] || KindOf(rest[0]) == DiffGit {
      AddsNothing(c, rest, s);
    } else {
      var m, next := SectionNext(c, rest, s);
      KindIsOutside(rest[0]);
      SectionPlaced(c, rest[m..], next);
      AddsMore(rest, m, s.hunks, next.hunks, ReadSection(c, rest, s).value);
    }
  }

  function AllHunks(files: seq<DiffFile>): seq<Hunk> {
    if files == [] then [] else files[0].hunks + AllHunks(files[1..])
  }

  /**
    The hunks of all accepted files, in order, stand one after the other in the text, each with its own header and a
    body of exactly its counts, and every other line is one that may stand outside a hunk: never a binary patch.
   */
  lemma {:induction false} HunksPlaced(c: Codec, lines: seq<string>)
    requires ReadFiles(c, lines).Ok?
    ensures Placed(lines, 0, |lines|, AllHunks(ReadFiles(c, lines).value))
    decreases |lines|
  {
    hide ReadSection, KindOf, IsBlank, BackedAt, Outside;
    if lines != [] {
      if IsBlank(lines[0]) {
        BlankIsOutside(lines[0]);
        HunksPlaced(c, lines[1..]);
        var hunks := AllHunks(ReadFiles(c, lines).value);
        PlacedLater(lines, 1, 0, |lines| - 1, hunks);
        PlacedEarlier(lines, 0, 1, |lines|, hunks);
      } else {
        FirstSectionPlaced(c, lines);
        var read := ReadSection(c, lines[1..], EMPTY).value;
        var mid := |lines| - |read.rest|;
        HunksPlaced(c, read.rest);
        var later := AllHunks(ReadFiles(c, read.rest).value);
        PlacedLater(lines, mid, 0, |read.rest|, later);
        var files := ReadFiles(c, lines).value;
        assert files[1..] == ReadFiles(c, read.rest).value;
        PlacedJoins(lines, 0, mid, |lines|, files[0].hunks, later);
      }
    }
  }

  lemma {:induction false} FirstSectionPlaced(c: Codec, lines: seq<string>)
    requires lines != [] && ReadFiles(c, lines).Ok? && !IsBlank(lines[0])
    ensures ReadSection(c, lines[1..], EMPTY).Ok?
    ensures var read := ReadSection(c, lines[1..], EMPTY).value;
            var files := ReadFiles(c, lines).value;
            && |read.rest| < |lines| && read.rest == lines[|lines| - |read.rest|..]
            && files != [] && Placed(lines, 0, |lines| - |read.rest|, files[0].hunks)
  {
    hide ReadSection, KindOf, IsBlank, BackedAt, Outside;
    KindIsOutside(lines[0]);
    var read := ReadSection(c, lines[1..], EMPTY).value;
    SectionShrinks(c, lines[1..], EMPTY);
    SectionPlaced(c, lines[1..], EMPTY);
    var to := |lines| - 1 - |read.rest|;
    assert read.section.hunks[0..] == read.section.hunks;
    PlacedLater(lines, 1, 0, to, read.section.hunks);
    PlacedEarlier(lines, 0, 1, 1 + to, read.section.hunks);
  }

  // ----- Printed hunks ------------------------------------------------------

  datatype BodyLine = Context(text: string) | Deletion(text: string) | Addition(text: string) | NoNewline

  function ShowLine(line: BodyLine): string {
    match line
    case Context(text) => " " + text
    case Deletion(text) => "-" + text
    case Addition(text) => "+" + text
    case NoNewline => "\\ No newline at end of file"
  }

  function ShowBody(lines: seq<BodyLine>): seq<string> {
    if lines == [] then [] else [ShowLine(lines[0])] + ShowBody(lines[1..])
  }

  function OldLines(lines: seq<BodyLine>): nat {
    if lines == [] then 0 else (if lines[0].Context? || lines[0].Deletion? then 1 else 0) + OldLines(lines[1..])
  }

  function NewLines(lines: seq<BodyLine>): nat {
    if lines == [] then 0 else (if lines[0].Context? || lines[0].Addition? then 1 else 0) + NewLines(lines[1..])
  }

  lemma {:induction false} ShowLineReads(line: BodyLine)
    ensures IsBody(ShowLine(line)) && (IsMarker(ShowLine(line)) <==> line.NoNewline?)
    ensures OldCost(ShowLine(line)) == if line.Context? || line.Deletion? then 1 else 0
    ensures NewCost(ShowLine(line)) == if line.Context? || line.Addition? then 1 else 0
  {
    assert NEWLINE_MARKER[0] == '\\';
    assert !line.NoNewline? ==> ShowLine(line)[0] != '\\';
  }

  lemma {:induction false} ShowBodyReads(lines: seq<BodyLine>)
    ensures |ShowBody(lines)| == |lines|
    ensures Olds(ShowBody(lines)) == OldLines(lines) && News(ShowBody(lines)) == NewLines(lines)
    ensures forall i :: 0 <= i < |lines| ==> ShowBody(lines)[i] == ShowLine(lines[i])
  {
    if lines != [] {
      hide ShowLine;
      ShowBodyReads(lines[1..]);
      ShowLineReads(lines[0]);
      assert ShowBody(lines)[1..] == ShowBody(lines[1..]);
    }
  }

  /** What is left of a body without the newline markers at its end. */
  function Core(lines: seq<BodyLine>): seq<BodyLine> {
    if lines != [] && lines[|lines| - 1].NoNewline? then Core(lines[..|lines| - 1]) else lines
  }

  predicate Clean(lines: seq<BodyLine>) {
    lines == [] || !lines[|lines| - 1].NoNewline?
  }

  lemma {:induction false} CoreIs(lines: seq<BodyLine>)
    ensures |Core(lines)| <= |lines| && Core(lines) == lines[..|Core(lines)|] && Clean(Core(lines))
    ensures |Core(lines)| < |lines| ==> lines[|Core(lines)|].NoNewline?
    ensures Clean(lines) <==> |Core(lines)| == |lines|
    ensures OldLines(Core(lines)) == OldLines(lines) && NewLines(Core(lines)) == NewLines(lines)
  {
    if !Clean(lines) {
      var n := |lines| - 1;
      CoreIs(lines[..n]);
      assert lines == lines[..n] + [NoNewline];
      LastCostsNothing(lines[..n]);
    }
  }

  lemma {:induction false} LastCostsNothing(lines: seq<BodyLine>)
    ensures OldLines(lines + [NoNewline]) == OldLines(lines) && NewLines(lines + [NoNewline]) == NewLines(lines)
  {
    if lines != [] {
      assert (lines + [NoNewline])[1..] == lines[1..] + [NoNewline];
      LastCostsNothing(lines[1..]);
    }
  }

  /** The reader takes the body up to its last counted line. */
  lemma {:induction false} BodyReadsCore(lines: seq<BodyLine>, rest: seq<string>)
    requires lines != [] ==> !lines[0].NoNewline?
    ensures Body(ShowBody(lines) + rest, OldLines(lines), NewLines(lines), false) == Ok(|Core(lines)|)
  {
    var k := |Core(lines)|;
    CoreIs(lines);
    ShowBodyReads(lines);
    ShowBodyReads(Core(lines));
    BodyExact(ShowBody(lines) + rest, OldLines(lines), NewLines(lines), false, k);
    assert (ShowBody(lines) + rest)[..k] == ShowBody(Core(lines));
    CoreDeclared(Core(lines));
  }

  lemma {:induction false} CoreDeclared(lines: seq<BodyLine>)
    requires Clean(lines) && (lines != [] ==> !lines[0].NoNewline?)
    ensures Declared(ShowBody(lines), OldLines(lines), NewLines(lines), false)
  {
    hide ShowLine, ShowBody, OldLines, NewLines, Olds, News, IsBody, IsMarker;
    ShowBodyReads(lines);
    var body := ShowBody(lines);
    forall i | 0 <= i < |lines|
      ensures body[i] == ShowLine(lines[i]) && IsBody(body[i]) && (IsMarker(body[i]) <==> lines[i].NoNewline?)
    {
      ShowLineReads(lines[i]);
    }
  }

  datatype HunkDoc = HunkDoc(oldStart: nat, newStart: nat, lines: seq<BodyLine>, brief: bool, tail: string)

  function HunkOf(h: HunkDoc): Hunk {
    Hunk(h.oldStart, OldLines(h.lines), h.newStart, NewLines(h.lines))
  }

  ghost predicate HunkDocOk(h: HunkDoc) {
    && (OldLines(h.lines) == 0 || h.oldStart >= 1) && (NewLines(h.lines) == 0 || h.newStart >= 1)
    && (h.lines != [] ==> !h.lines[0].NoNewline?)
  }

  function ShowHunk(h: HunkDoc): seq<string> {
    [ShowHeader(HunkOf(h), h.brief, h.tail)] + ShowBody(h.lines)
  }

  function ShowHunks(hunks: seq<HunkDoc>): seq<string> {
    if hunks == [] then [] else ShowHunk(hunks[0]) + ShowHunks(hunks[1..])
  }

  function HunksOf(hunks: seq<HunkDoc>): seq<Hunk> {
    if hunks == [] then [] else [HunkOf(hunks[0])] + HunksOf(hunks[1..])
  }

  predicate AllClean(hunks: seq<HunkDoc>) {
    forall h :: h in hunks ==> Clean(h.lines)
  }

  // ----- Kinds of printed lines ---------------------------------------------

  lemma {:induction false} NotStarts(line: string, word: string, k: nat)
    requires k < |word| && (k >= |line| || line[k] != word[k])
    ensures !Starts(line, word)
  {
  }

  /** The first character tells most kinds apart. */
  lemma {:induction false} FirstChar(line: string, c: char)
    requires line != "" && line[0] == c
    ensures c != 'd' ==> !Starts(line, DIFF_GIT)
    ensures c != 'B' ==> !Starts(line, "Binary files ")
    ensures c != 'G' ==> line != "GIT binary patch"
    ensures c != '@' ==> !Starts(line, "@@ ")
    ensures c != '-' ==> !Starts(line, OLD_MARK)
    ensures c != '+' ==> !Starts(line, NEW_MARK)
    ensures c != 'r' ==> !Starts(line, RENAME_FROM) && !Starts(line, RENAME_TO)
  {
    if c != 'd' { NotStarts(line, DIFF_GIT, 0); }
    if c != 'B' { NotStarts(line, "Binary files ", 0); }
    if c != '@' { NotStarts(line, "@@ ", 0); }
    if c != '-' { NotStarts(line, OLD_MARK, 0); }
    if c != '+' { NotStarts(line, NEW_MARK, 0); }
    if c != 'r' { NotStarts(line, RENAME_FROM, 0); NotStarts(line, RENAME_TO, 0); }
  }

  lemma {:induction false} MarkerIsUnknown()
    ensures KindOf(NEWLINE_MARKER) == Unknown
  {
    var line := NEWLINE_MARKER;
    assert line[0] == '\\';
    FirstChar(line, '\\');
    NotStarts(line, "index ", 0);
    NotStarts(line, "old mode ", 0);
    NotStarts(line, "new mode ", 0);
    NotStarts(line, "new file mode ", 0);
    NotStarts(line, "deleted file mode ", 0);
    NotStarts(line, "similarity index ", 0);
    NotStarts(line, "dissimilarity index ", 0);
    NotStarts(line, "copy from ", 0);
    NotStarts(line, "copy to ", 0);
    hide Starts;
  }

  lemma {:induction false} HeaderIsHunkLine(h: Hunk, brief: bool, tail: string)
    ensures KindOf(ShowHeader(h, brief, tail)) == HunkLine
  {
    hide ShowRange;
    var line := ShowHeader(h, brief, tail);
    assert line[..3] == "@@ ";
    FirstChar(line, '@');
  }

  lemma {:induction false} KindsOfNotes(text: string)
    ensures KindOf(DIFF_GIT + text) == DiffGit && After(DIFF_GIT + text, DIFF_GIT) == text
    ensures KindOf(OLD_MARK + text) == OldMark && After(OLD_MARK + text, OLD_MARK) == text
    ensures KindOf(NEW_MARK + text) == NewMark && After(NEW_MARK + text, NEW_MARK) == text
    ensures KindOf(RENAME_FROM + text) == RenameFrom && After(RENAME_FROM + text, RENAME_FROM) == text
    ensures KindOf(RENAME_TO + text) == RenameTo && After(RENAME_TO + text, RENAME_TO) == text
  {
    StartsAfter(DIFF_GIT, text);
    StartsAfter(OLD_MARK, text);
    StartsAfter(NEW_MARK, text);
    StartsAfter(RENAME_FROM, text);
    StartsAfter(RENAME_TO, text);
    FirstChar(OLD_MARK + text, '-');
    FirstChar(NEW_MARK + text, '+');
    FirstChar(RENAME_FROM + text, 'r');
    FirstChar(RENAME_TO + text, 'r');
    NotStarts(RENAME_TO + text, RENAME_FROM, 7);
    hide Starts, After;
  }

  // ----- Reading printed hunks ----------------------------------------------

  /** The section goes on right after the last counted line of the hunk. */
  lemma {:induction false} HunkReadsCore(c: Codec, h: HunkDoc, rest: seq<string>, s: Section)
    requires HunkDocOk(h)
    ensures |Core(h.lines)| <= |h.lines| == |ShowBody(h.lines)|
    ensures ReadSection(c, ShowHunk(h) + rest, s)
         == ReadSection(c, ShowBody(h.lines)[|Core(h.lines)|..] + rest, s.(hunks := s.hunks + [HunkOf(h)]))
  {
    hide KindOf, ReadHeader, ShowHeader, Body, OldLines, NewLines, Core, ShowBody, ReadSection, ShowHunk;
    var line, body, k := ShowHeader(HunkOf(h), h.brief, h.tail), ShowBody(h.lines), |Core(h.lines)|;
    HeaderIsHunkLine(HunkOf(h), h.brief, h.tail);
    HeaderRoundTrip(HunkOf(h), h.brief, h.tail);
    BodyReadsCore(h.lines, rest);
    CoreIs(h.lines);
    ShowBodyReads(h.lines);
    HunkSplits(h, rest, k);
    HunkStep(c, line, HunkOf(h), body + rest, k, s);
  }

  lemma {:induction false} HunkSplits(h: HunkDoc, rest: seq<string>, k: nat)
    requires k <= |ShowBody(h.lines)|
    ensures ShowHunk(h) + rest == [ShowHeader(HunkOf(h), h.brief, h.tail)] + (ShowBody(h.lines) + rest)
    ensures (ShowBody(h.lines) + rest)[k..] == ShowBody(h.lines)[k..] + rest
  {
    hide ShowHeader, ShowBody, HunkOf;
  }

  lemma {:induction false} HunkStep(c: Codec, line: string, h: Hunk, rest: seq<string>, k: nat, s: Section)
    requires KindOf(line) == HunkLine && ReadHeader(line) == Some(h) && k <= |rest|
    requires Body(rest, h.oldCount, h.newCount, false) == Ok(k)
    ensures ReadSection(c, [line] + rest, s) == ReadSection(c, rest[k..], s.(hunks := s.hunks + [h]))
  {
    hide KindOf, ReadHeader, Body;
    var all := [line] + rest;
    assert all[0] == line && all[1..] == rest && all[1 + k..] == rest[k..];
  }

  lemma {:induction false} HunkReads(c: Codec, h: HunkDoc, rest: seq<string>, s: Section)
    requires HunkDocOk(h)
    ensures Clean(h.lines) ==>
              ReadSection(c, ShowHunk(h) + rest, s) == ReadSection(c, rest, s.(hunks := s.hunks + [HunkOf(h)]))
    ensures !Clean(h.lines) ==> ReadSection(c, ShowHunk(h) + rest, s).Err?
  {
    hide KindOf, ReadSection, ShowHunk, HunkOf, Core, ShowBody;
    var k := |Core(h.lines)|;
    HunkReadsCore(c, h, rest, s);
    CoreIs(h.lines);
    ShowBodyReads(h.lines);
    var left := ShowBody(h.lines)[k..] + rest;
    if Clean(h.lines) {
      assert left == rest;
    } else {
      MarkerIsUnknown();
      assert left[0] == ShowBody(h.lines)[k] == NEWLINE_MARKER;
      UnknownFails(c, left, s.(hunks := s.hunks + [HunkOf(h)]));
    }
  }

  lemma {:induction false} UnknownFails(c: Codec, rest: seq<string>, s: Section)
    requires rest != [] && KindOf(rest[0]) == Unknown
    ensures ReadSection(c, rest, s).Err?
  {
    hide KindOf;
  }

  lemma {:induction false} HunksRead(c: Codec, hunks: seq<HunkDoc>, rest: seq<string>, s: Section)
    requires forall h :: h in hunks ==> HunkDocOk(h)
    ensures AllClean(hunks) ==>
              ReadSection(c, ShowHunks(hunks) + rest, s) == ReadSection(c, rest, s.(hunks := s.hunks + HunksOf(hunks)))
    ensures !AllClean(hunks) ==> ReadSection(c, ShowHunks(hunks) + rest, s).Err?
  {
    hide HunkDocOk, ShowHunk, ReadSection, HunkOf, Clean;
    if hunks == [] {
      assert ShowHunks(hunks) + rest == rest && s.hunks + HunksOf(hunks) == s.hunks;
    } else {
      var h := hunks[0];
      var next := s.(hunks := s.hunks + [HunkOf(h)]);
      assert hunks == [h] + hunks[1..];
      assert ShowHunks(hunks) + rest == ShowHunk(h) + (ShowHunks(hunks[1..]) + rest);
      HunkReads(c, h, ShowHunks(hunks[1..]) + rest, s);
      HunksRead(c, hunks[1..], rest, next);
      assert next.hunks + HunksOf(hunks[1..]) == s.hunks + HunksOf(hunks);
    }
  }

  // ----- Printed files ------------------------------------------------------

  datatype Change = Creation(path: string) | Removal(path: string) | Edit(path: string) | Move(from: string, to: string)

  /** An extended header line that says nothing about paths or lines. */
  datatype Meta =
    | EmptyLine | Index(text: string) | OldMode(text: string) | NewMode(text: string)
    | NewFileMode(text: string) | DeletedFileMode(text: string)
    | Similarity(text: string) | Dissimilarity(text: string) | CopyFrom(text: string) | CopyTo(text: string)

  function ShowMeta(m: Meta): string {
    match m
    case EmptyLine => ""
    case Index(text) => "index " + text
    case OldMode(text) => "old mode " + text
    case NewMode(text) => "new mode " + text
    case NewFileMode(text) => "new file mode " + text
    case DeletedFileMode(text) => "deleted file mode " + text
    case Similarity(text) => "similarity index " + text
    case Dissimilarity(text) => "dissimilarity index " + text
    case CopyFrom(text) => "copy from " + text
    case CopyTo(text) => "copy to " + text
  }

  function ShowMetas(metas: seq<Meta>): seq<string> {
    if metas == [] then [] else [ShowMeta(metas[0])] + ShowMetas(metas[1..])
  }

  /** Extended header lines at the start, around the rename lines and around the file markers. */
  datatype Notes = Notes(first: seq<Meta>, renamed: seq<Meta>, named: seq<Meta>, marked: seq<Meta>, last: seq<Meta>)

  /** A section with its extended header lines and its hunks. */
  datatype FileDoc = FileDoc(change: Change, notes: Notes, hunks: seq<HunkDoc>)

  function OldSide(change: Change): Side {
    match change
    case Move(from, _) => Path(from)
    case _ => Path(change.path)
  }

  function NewSide(change: Change): Side {
    match change
    case Move(_, to) => Path(to)
    case _ => Path(change.path)
  }

  function OldMarkOf(change: Change): Side {
    if change.Creation? then Null else OldSide(change)
  }

  function NewMarkOf(change: Change): Side {
    if change.Removal? then Null else NewSide(change)
  }

  function FromLine(c: Codec, change: Change): seq<string> {
    if change.Move? then ["rename from " + c.showRename(change.from)] else []
  }

  function ToLine(c: Codec, change: Change): seq<string> {
    if change.Move? then ["rename to " + c.showRename(change.to)] else []
  }

  /** File markers are printed only before hunks. */
  function OldLine(c: Codec, d: FileDoc): seq<string> {
    if d.hunks == [] then [] else ["--- " + c.showOld(OldMarkOf(d.change))]
  }

  function NewLine(c: Codec, d: FileDoc): seq<string> {
    if d.hunks == [] then [] else ["+++ " + c.showNew(NewMarkOf(d.change))]
  }

  function Renames(c: Codec, d: FileDoc): seq<string> {
    ShowMetas(d.notes.first) + FromLine(c, d.change) + ShowMetas(d.notes.renamed) + ToLine(c, d.change)
  }

  function Marks(c: Codec, d: FileDoc): seq<string> {
    ShowMetas(d.notes.named) + OldLine(c, d) + ShowMetas(d.notes.marked) + NewLine(c, d) + ShowMetas(d.notes.last)
  }

  function ShowSection(c: Codec, d: FileDoc): seq<string> {
    Renames(c, d) + Marks(c, d) + ShowHunks(d.hunks)
  }

  function ShowFile(c: Codec, d: FileDoc): seq<string> {
    ["diff --git " + c.showPair(OldSide(d.change), NewSide(d.change))] + ShowSection(c, d)
  }

  function ShowFiles(c: Codec, docs: seq<FileDoc>): seq<string> {
    if docs == [] then [] else ShowFile(c, docs[0]) + ShowFiles(c, docs[1..])
  }

  /** The paths of the section read back from the way they are printed. */
  ghost predicate CodecOk(c: Codec, change: Change) {
    && c.readPair(c.showPair(OldSide(change), NewSide(change))) == Some((OldSide(change), NewSide(change)))
    && c.readOld(c.showOld(OldMarkOf(change))) == Some(OldMarkOf(change))
    && c.readNew(c.showNew(NewMarkOf(change))) == Some(NewMarkOf(change))
    && (change.Move? ==> c.readRename(c.showRename(change.from)) == Some(change.from)
                         && c.readRename(c.showRename(change.to)) == Some(change.to))
  }

  ghost predicate DocOk(c: Codec, d: FileDoc) {
    && CodecOk(c, d.change)
    && (forall h :: h in d.hunks ==> HunkDocOk(h))
  }

  /** The file a section stands for. */
  function FileOf(d: FileDoc): DiffFile {
    var hunks := HunksOf(d.hunks);
    match d.change
    case Creation(p) => DiffFile(p, None, Some(p), Added, hunks)
    case Removal(p) => DiffFile(p, Some(p), None, Deleted, hunks)
    case Edit(p) => DiffFile(p, Some(p), Some(p), Modified, hunks)
    case Move(from, to) => DiffFile(to, Some(from), Some(to), if hunks == [] then Renamed else RenamedModified, hunks)
  }

  /** The file the parser reports: without hunks and markers an added or deleted file looks modified. */
  function ReadAs(d: FileDoc): DiffFile {
    if d.hunks == [] && (d.change.Creation? || d.change.Removal?)
    then DiffFile(d.change.path, Some(d.change.path), Some(d.change.path), Modified, [])
    else FileOf(d)
  }

  lemma {:induction false} NoteReads(c: Codec, line: string, rest: seq<string>, s: Section)
    requires KindOf(line) != DiffGit && KindOf(line) != HunkLine
    ensures ReadSection(c, [line] + rest, s) ==
              match Note(c, line, s) { case Err(e) => Err(e) case Ok(next) => ReadSection(c, rest, next) }
  {
    hide KindOf, Note;
    assert ([line] + rest)[1..] == rest;
  }

  lemma {:induction false} MetaIsSkipped(m: Meta)
    ensures KindOf(ShowMeta(m)) == Skipped
  {
    if !m.EmptyLine? {
      var line := ShowMeta(m);
      StartsAfter(line[..|line| - |m.text|], m.text);
      FirstChar(line, line[0]);
      if m.DeletedFileMode? {
        NotStarts(line, DIFF_GIT, 1);
      }
      if m.Dissimilarity? {
        NotStarts(line, DIFF_GIT, 2);
      }
    }
  }

  lemma {:induction false} MetaReads(c: Codec, metas: seq<Meta>, rest: seq<string>, s: Section)
    ensures ReadSection(c, ShowMetas(metas) + rest, s) == ReadSection(c, rest, s)
  {
    hide KindOf, ReadSection, ShowMeta;
    if metas == [] {
      assert ShowMetas(metas) + rest == rest;
    } else {
      assert ShowMetas(metas) + rest == [ShowMeta(metas[0])] + (ShowMetas(metas[1..]) + rest);
      MetaIsSkipped(metas[0]);
      NoteReads(c, ShowMeta(metas[0]), ShowMetas(metas[1..]) + rest, s);
      MetaReads(c, metas[1..], rest, s);
    }
  }

  function Noted(d: FileDoc): Section {
    Section(
      if d.hunks == [] then None else Some(OldMarkOf(d.change)),
      if d.hunks == [] then None else Some(NewMarkOf(d.change)),
      if d.change.Move? then Some(d.change.from) else None,
      if d.change.Move? then Some(d.change.to) else None, [])
  }

  lemma {:induction false} LinesRead(c: Codec, d: FileDoc, rest: seq<string>, s: Section)
    requires CodecOk(c, d.change)
    ensures s.from.None? ==>
              ReadSection(c, FromLine(c, d.change) + rest, s) == ReadSection(c, rest, s.(from := Noted(d).from))
    ensures s.to.None? ==>
              ReadSection(c, ToLine(c, d.change) + rest, s) == ReadSection(c, rest, s.(to := Noted(d).to))
    ensures s.oldMark.None? ==>
              ReadSection(c, OldLine(c, d) + rest, s) == ReadSection(c, rest, s.(oldMark := Noted(d).oldMark))
    ensures s.newMark.None? ==>
              ReadSection(c, NewLine(c, d) + rest, s) == ReadSection(c, rest, s.(newMark := Noted(d).newMark))
  {
    hide KindOf, ReadSection, After;
    if d.change.Move? {
      RenameKinds(c.showRename(d.change.from), c.showRename(d.change.to));
      NoteReads(c, FromLine(c, d.change)[0], rest, s);
      NoteReads(c, ToLine(c, d.change)[0], rest, s);
    } else {
      assert FromLine(c, d.change) + rest == rest && ToLine(c, d.change) + rest == rest;
    }
    if d.hunks != [] {
      KindsOfNotes(c.showOld(OldMarkOf(d.change)));
      KindsOfNotes(c.showNew(NewMarkOf(d.change)));
      NoteReads(c, OldLine(c, d)[0], rest, s);
      NoteReads(c, NewLine(c, d)[0], rest, s);
    } else {
      assert OldLine(c, d) + rest == rest && NewLine(c, d) + rest == rest;
    }
  }

  lemma {:induction false} RenameKinds(from: string, to: string)
    ensures KindOf(RENAME_FROM + from) == RenameFrom && After(RENAME_FROM + from, RENAME_FROM) == from
    ensures KindOf(RENAME_TO + to) == RenameTo && After(RENAME_TO + to, RENAME_TO) == to
  {
    hide KindOf, After;
    KindsOfNotes(from);
    KindsOfNotes(to);
  }

  lemma {:induction false} RenamesRead(c: Codec, d: FileDoc, rest: seq<string>)
    requires CodecOk(c, d.change)
    ensures ReadSection(c, Renames(c, d) + rest, EMPTY)
         == ReadSection(c, rest, EMPTY.(from := Noted(d).from, to := Noted(d).to))
  {
    hide ReadSection, CodecOk, ShowMetas, FromLine, ToLine;
    var first, renamed := ShowMetas(d.notes.first), ShowMetas(d.notes.renamed);
    var from, to := FromLine(c, d.change), ToLine(c, d.change);
    assert Renames(c, d) + rest == first + (from + (renamed + (to + rest)));
    MetaReads(c, d.notes.first, from + (renamed + (to + rest)), EMPTY);
    LinesRead(c, d, renamed + (to + rest), EMPTY);
    var named := EMPTY.(from := Noted(d).from);
    MetaReads(c, d.notes.renamed, to + rest, named);
    LinesRead(c, d, rest, named);
  }

  lemma {:induction false} MarksRead(c: Codec, d: FileDoc, rest: seq<string>, s: Section)
    requires CodecOk(c, d.change) && s.oldMark.None? && s.newMark.None?
    ensures ReadSection(c, Marks(c, d) + rest, s) ==
              ReadSection(c, rest, s.(oldMark := Noted(d).oldMark, newMark := Noted(d).newMark))
  {
    hide ReadSection, CodecOk, ShowMetas, OldLine, NewLine;
    var named, marked, last := ShowMetas(d.notes.named), ShowMetas(d.notes.marked), ShowMetas(d.notes.last);
    var left, right := OldLine(c, d), NewLine(c, d);
    assert Marks(c, d) + rest == named + (left + (marked + (right + (last + rest))));
    MetaReads(c, d.notes.named, left + (marked + (right + (last + rest))), s);
    LinesRead(c, d, marked + (right + (last + rest)), s);
    var half := s.(oldMark := Noted(d).oldMark);
    MetaReads(c, d.notes.marked, right + (last + rest), half);
    LinesRead(c, d, last + rest, half);
    MetaReads(c, d.notes.last, rest, half.(newMark := Noted(d).newMark));
  }

  lemma {:induction false} SectionReads(c: Codec, d: FileDoc, rest: seq<string>)
    requires DocOk(c, d) && (rest != [] ==> KindOf(rest[0]) == DiffGit)
    ensures AllClean(d.hunks) ==>
              ReadSection(c, ShowSection(c, d) + rest, EMPTY) == Ok(Read(Noted(d).(hunks := HunksOf(d.hunks)), rest))
    ensures !AllClean(d.hunks) ==> ReadSection(c, ShowSection(c, d) + rest, EMPTY).Err?
  {
    hide KindOf, CodecOk, HunkDocOk, AllClean, ShowHunks, Marks, Renames;
    var tail := ShowHunks(d.hunks) + rest;
    assert ShowSection(c, d) + rest == Renames(c, d) + (Marks(c, d) + tail);
    RenamesRead(c, d, Marks(c, d) + tail);
    MarksRead(c, d, tail, EMPTY.(from := Noted(d).from, to := Noted(d).to));
    HunksRead(c, d.hunks, rest, Noted(d));
    assert [] + HunksOf(d.hunks) == HunksOf(d.hunks);
  }

  lemma {:induction false} FinishReads(d: FileDoc)
    ensures Finish(Noted(d).(hunks := HunksOf(d.hunks)), OldSide(d.change), NewSide(d.change)) == Ok(ReadAs(d))
  {
  }

  lemma {:induction false} FileReads(c: Codec, d: FileDoc, rest: seq<string>)
    requires DocOk(c, d) && (rest != [] ==> KindOf(rest[0]) == DiffGit)
    ensures AllClean(d.hunks) ==> ReadFiles(c, ShowFile(c, d) + rest) == Prepend([ReadAs(d)], ReadFiles(c, rest))
    ensures !AllClean(d.hunks) ==> ReadFiles(c, ShowFile(c, d) + rest).Err?
  {
    hide KindOf, ReadSection, ShowSection, AllClean, Finish, HunksOf, After;
    var text := c.showPair(OldSide(d.change), NewSide(d.change));
    var all := ShowFile(c, d) + rest;
    KindsOfNotes(text);
    assert all[0] == DIFF_GIT + text && all[1..] == ShowSection(c, d) + rest;
    assert all[0][0] == 'd';
    SectionReads(c, d, rest);
    FinishReads(d);
  }

  lemma {:induction false} FilesStart(c: Codec, docs: seq<FileDoc>)
    ensures ShowFiles(c, docs) != [] ==> KindOf(ShowFiles(c, docs)[0]) == DiffGit
  {
    if docs != [] {
      KindsOfNotes(c.showPair(OldSide(docs[0].change), NewSide(docs[0].change)));
    }
  }

  function FilesOf(docs: seq<FileDoc>): seq<DiffFile> {
    if docs == [] then [] else [FileOf(docs[0])] + FilesOf(docs[1..])
  }

  function FilesRead(docs: seq<FileDoc>): seq<DiffFile> {
    if docs == [] then [] else [ReadAs(docs[0])] + FilesRead(docs[1..])
  }

  lemma {:induction false} AllFilesRead(c: Codec, docs: seq<FileDoc>)
    requires forall d :: d in docs ==> DocOk(c, d)
    ensures (forall d :: d in docs ==> AllClean(d.hunks)) ==> ReadFiles(c, ShowFiles(c, docs)) == Ok(FilesRead(docs))
    ensures (exists d :: d in docs && !AllClean(d.hunks)) ==> ReadFiles(c, ShowFiles(c, docs)).Err?
  {
    if docs != [] {
      hide DocOk, AllClean, ReadFiles, ShowFile, KindOf, ReadAs;
      assert docs == [docs[0]] + docs[1..];
      AllFilesRead(c, docs[1..]);
      FilesStart(c, docs[1..]);
      FileReads(c, docs[0], ShowFiles(c, docs[1..]));
    }
  }

  /** Every hunk ends in a counted line, and a file that is added or deleted has a hunk. */
  predicate Faithful(d: FileDoc) {
    AllClean(d.hunks) && (d.change.Creation? || d.change.Removal? ==> d.hunks != [])
  }

  lemma {:induction false} FilesAgree(docs: seq<FileDoc>)
    ensures FilesRead(docs) == FilesOf(docs) <==> forall d :: d in docs ==> ReadAs(d) == FileOf(d)
    ensures |FilesOf(docs)| == |FilesRead(docs)| == |docs|
  {
    if docs != [] {
      hide ReadAs, FileOf;
      FilesAgree(docs[1..]);
      assert docs == [docs[0]] + docs[1..];
      assert FilesRead(docs)[1..] == FilesRead(docs[1..]) && FilesOf(docs)[1..] == FilesOf(docs[1..]);
      assert FilesRead(docs)[0] == ReadAs(docs[0]) && FilesOf(docs)[0] == FileOf(docs[0]);
    }
  }

  lemma {:induction false} AgreesWhenFaithful(d: FileDoc)
    ensures ReadAs(d) == FileOf(d) <==> (d.change.Creation? || d.change.Removal? ==> d.hunks != [])
  {
  }

  /**
    Parsing a printed diff gives back its files and hunks exactly when the paths are distinct and every section is
    faithful. Otherwise it is refused, or reports an empty added or deleted file as modified.
   */
  lemma {:induction false} DiffRoundTrip(c: Codec, docs: seq<FileDoc>)
    requires forall d :: d in docs ==> DocOk(c, d)
    ensures Parse(c, ShowFiles(c, docs)) == Ok(FilesOf(docs)) <==>
              (forall d :: d in docs ==> Faithful(d)) && DistinctPaths(FilesOf(docs))
  {
    hide DocOk, AllClean, ReadFiles, ShowFiles, ReadAs, FileOf, DistinctPaths, FilesOf, FilesRead;
    AllFilesRead(c, docs);
    FilesAgree(docs);
    forall d | d in docs
      ensures ReadAs(d) == FileOf(d) <==> (d.change.Creation? || d.change.Removal? ==> d.hunks != [])
    {
      AgreesWhenFaithful(d);
    }
  }
}
