/**
  The unified-diff parser (scripts/cross_file_diagnostics_coverage.py, lines 496-631) over lists of lines.
  How a path is spelled in a header, marker or rename line is left to a `Codec`.
 */
module DiffParser {
  import opened Wrappers
  import opened Sequences
  import opened HunkHeader
  import opened HunkBody

  /** One side of a section: /dev/null or a normalised path. */
  datatype Side = Null | Path(name: string)

  /** Reading and writing of path texts. */
  datatype Codec = Codec(
    readPair: string -> Option<(Side, Side)>, showPair: (Side, Side) -> string,
    readOld: string -> Option<Side>, showOld: Side -> string,
    readNew: string -> Option<Side>, showNew: Side -> string,
    readRename: string -> Option<string>, showRename: string -> string)

  datatype Status = Added | Deleted | Modified | Renamed | RenamedModified

  datatype DiffFile = DiffFile(path: string, old_: Option<string>, new_: Option<string>, status: Status,
                               hunks: seq<Hunk>)

  // ----- Lines --------------------------------------------------------------

  datatype Kind = DiffGit | Binary | HunkLine | OldMark | NewMark | RenameFrom | RenameTo | Skipped | Unknown

  const DIFF_GIT := "diff --git "
  const OLD_MARK := "--- "
  const NEW_MARK := "+++ "
  const RENAME_FROM := "rename from "
  const RENAME_TO := "rename to "

  predicate IsMetadata(line: string) {
    || Starts(line, "index ") || Starts(line, "old mode ") || Starts(line, "new mode ")
    || Starts(line, "new file mode ") || Starts(line, "deleted file mode ")
    || Starts(line, "similarity index ") || Starts(line, "dissimilarity index ")
    || Starts(line, "copy from ") || Starts(line, "copy to ")
  }

  /** How a line reads outside a hunk body, in the order the parser asks. */
  function KindOf(line: string): Kind {
    if Starts(line, DIFF_GIT) then DiffGit
    else if Starts(line, "Binary files ") || line == "GIT binary patch" then Binary
    else if Starts(line, "@@ ") then HunkLine
    else if Starts(line, OLD_MARK) then OldMark
    else if Starts(line, NEW_MARK) then NewMark
    else if Starts(line, RENAME_FROM) then RenameFrom
    else if Starts(line, RENAME_TO) then RenameTo
    else if line == "" || IsMetadata(line) then Skipped
    else Unknown
  }

  predicate IsBlank(line: string) {
    forall i :: 0 <= i < |line| ==> line[i] == ' ' || line[i] == '\t'
  }

  // ----- Sections -----------------------------------------------------------

  datatype Section = Section(
    oldMark: Option<Side>, newMark: Option<Side>, from: Option<string>, to: Option<string>, hunks: seq<Hunk>)

  const EMPTY := Section(None, None, None, None, [])

  /** One line of a section that is not a hunk. */
  function Note(c: Codec, line: string, s: Section): Result<Section, DiffError> {
    match KindOf(line)
    case OldMark =>
      if s.oldMark.Some? then Err(DuplicateMarker)
      else (match c.readOld(After(line, OLD_MARK))
            case None => Err(BadPath)
            case Some(side) => Ok(s.(oldMark := Some(side))))
    case NewMark =>
      if s.newMark.Some? then Err(DuplicateMarker)
      else (match c.readNew(After(line, NEW_MARK))
            case None => Err(BadPath)
            case Some(side) => Ok(s.(newMark := Some(side))))
    case RenameFrom =>
      if s.from.Some? then Err(DuplicateMarker)
      else (match c.readRename(After(line, RENAME_FROM))
            case None => Err(BadPath)
            case Some(path) => Ok(s.(from := Some(path))))
    case RenameTo =>
      if s.to.Some? then Err(DuplicateMarker)
      else (match c.readRename(After(line, RENAME_TO))
            case None => Err(BadPath)
            case Some(path) => Ok(s.(to := Some(path))))
    case Skipped => Ok(s)
    case Binary => Err(BinaryPatch)
    case _ => Err(UnknownMetadata)
  }

  datatype Read = Read(section: Section, rest: seq<string>)

  /** The lines of a section up to the next `diff --git` line. */
  function ReadSection(c: Codec, rest: seq<string>, s: Section): Result<Read, DiffError>
    decreases |rest|
  {
    if rest == [] || KindOf(rest[0]) == DiffGit then Ok(Read(s, rest))
    else if KindOf(rest[0]) == HunkLine then
      match ReadHeader(rest[0])
      case None => Err(BadHunk)
      case Some(h) =>
        match Body(rest[1..], h.oldCount, h.newCount, false)
        case Err(e) => Err(e)
        case Ok(k) =>
          BodyFits(rest[1..], h.oldCount, h.newCount, false);
          ReadSection(c, rest[1 + k..], s.(hunks := s.hunks + [h]))
    else
      match Note(c, rest[0], s)
      case Err(e) => Err(e)
      case Ok(next) => ReadSection(c, rest[1..], next)
  }

  function SidePath(side: Side): Option<string> {
    match side
    case Null => None
    case Path(p) => Some(p)
  }

  predicate Disagrees(mark: Option<Side>, header: Side) {
    mark.Some? && mark.value != Null && mark.value != header
  }

  /** The file a section describes. */
  function Finish(s: Section, oldHeader: Side, newHeader: Side): Result<DiffFile, DiffError> {
    var oldSide := if s.oldMark.Some? then s.oldMark.value else oldHeader;
    var newSide := if s.newMark.Some? then s.newMark.value else newHeader;
    var oldPath := if s.from.Some? then s.from else SidePath(oldSide);
    var newPath := if s.to.Some? then s.to else SidePath(newSide);
    if Disagrees(s.oldMark, oldHeader) || Disagrees(s.newMark, newHeader) then Err(PathDisagrees)
    else if s.from.Some? != s.to.Some? then Err(HalfRename)
    else if oldPath.None? && newPath.None? then Err(NoPath)
    else
      var status := if s.from.Some? then (if s.hunks == [] then Renamed else RenamedModified)
                    else if oldPath.None? then Added else if newPath.None? then Deleted else Modified;
      var path := if newPath.Some? then newPath.value else oldPath.value;
      Ok(DiffFile(path, oldPath, newPath, status, s.hunks))
  }

  // ----- Files --------------------------------------------------------------

  /** A section goes on after a hunk or a single line. */
  lemma {:induction false} SectionNext(c: Codec, rest: seq<string>, s: Section) returns (m: nat, next: Section)
    requires ReadSection(c, rest, s).Ok? && rest != [] && KindOf(rest[0]) != DiffGit
    ensures 1 <= m <= |rest| && ReadSection(c, rest, s) == ReadSection(c, rest[m..], next)
    ensures (next.hunks == s.hunks && m == 1 && KindOf(rest[0]) !in {Binary, HunkLine, Unknown})
            || (next.hunks == s.hunks + [ReadHunk(rest)] && IsHunk(rest, m))
  {
    hide Note, Body, ReadHeader, KindOf;
    if KindOf(rest[0]) == HunkLine {
      var h := ReadHeader(rest[0]).value;
      var k := Body(rest[1..], h.oldCount, h.newCount, false).value;
      BodyFits(rest[1..], h.oldCount, h.newCount, false);
      m, next := 1 + k, s.(hunks := s.hunks + [h]);
    } else {
      NoteKeepsHunks(c, rest[0], s);
      NoteRefuses(c, rest[0], s);
      m, next := 1, Note(c, rest[0], s).value;
    }
  }

  /** The first `m` lines are a hunk header and its body. */
  ghost predicate IsHunk(rest: seq<string>, m: nat) {
    && 1 <= m <= |rest| && ReadHeader(rest[0]).Some?
    && Body(rest[1..], ReadHunk(rest).oldCount, ReadHunk(rest).newCount, false) == Ok(m - 1)
  }

  ghost function ReadHunk(rest: seq<string>): Hunk {
    if rest != [] && ReadHeader(rest[0]).Some? then ReadHeader(rest[0]).value else Hunk(0, 0, 0, 0)
  }

  lemma {:induction false} NoteKeepsHunks(c: Codec, line: string, s: Section)
    ensures Note(c, line, s).Ok? ==> Note(c, line, s).value.hunks == s.hunks
  {
  }

  lemma {:induction false} NoteRefuses(c: Codec, line: string, s: Section)
    ensures Note(c, line, s).Ok? ==> KindOf(line) !in {DiffGit, Binary, HunkLine, Unknown}
  {
    hide KindOf;
  }

  predicate IsSuffix(a: seq<string>, b: seq<string>) {
    |a| <= |b| && a == b[|b| - |a|..]
  }

  lemma {:induction false} SuffixOfTail(a: seq<string>, b: seq<string>, m: nat)
    requires m <= |b| && IsSuffix(a, b[m..])
    ensures IsSuffix(a, b)
  {
  }

  lemma {:induction false} SectionShrinks(c: Codec, rest: seq<string>, s: Section)
    ensures ReadSection(c, rest, s).Ok? ==> IsSuffix(ReadSection(c, rest, s).value.rest, rest)
    decreases |rest|
  {
    if ReadSection(c, rest, s).Ok? && rest != [] && KindOf(rest[0]) != DiffGit {
      hide ReadSection, KindOf, IsHunk, ReadHunk, IsSuffix;
      var m, next := SectionNext(c, rest, s);
      SectionShrinks(c, rest[m..], next);
      SuffixOfTail(ReadSection(c, rest, s).value.rest, rest, m);
    }
  }

  function ReadFiles(c: Codec, rest: seq<string>): Result<seq<DiffFile>, DiffError>
    decreases |rest|
  {
    if rest == [] then Ok([])
    else if IsBlank(rest[0]) then ReadFiles(c, rest[1..])
    else if KindOf(rest[0]) != DiffGit then Err(UnknownFormat)
    else
      match c.readPair(After(rest[0], DIFF_GIT))
      case None => Err(BadPath)
      case Some((oldHeader, newHeader)) =>
        match ReadSection(c, rest[1..], EMPTY)
        case Err(e) => Err(e)
        case Ok(read) =>
          match Finish(read.section, oldHeader, newHeader)
          case Err(e) => Err(e)
          case Ok(file) =>
            SectionShrinks(c, rest[1..], EMPTY);
            Prepend([file], ReadFiles(c, read.rest))
  }

  function Prepend(files: seq<DiffFile>, r: Result<seq<DiffFile>, DiffError>): Result<seq<DiffFile>, DiffError> {
    match r
    case Ok(more) => Ok(files + more)
    case Err(e) => Err(e)
  }

  lemma {:induction false} PrependChains(files: seq<DiffFile>, file: DiffFile, r: Result<seq<DiffFile>, DiffError>)
    ensures Prepend(files, Prepend([file], r)) == Prepend(files + [file], r)
  {
    if r.Ok? {
      assert files + ([file] + r.value) == files + [file] + r.value;
    }
  }

  lemma {:induction false} PrependEnds(files: seq<DiffFile>, r: Result<seq<DiffFile>, DiffError>)
    ensures Prepend([], r) == r && Prepend(files, Ok([])) == Ok(files)
  {
    assert r.Ok? ==> [] + r.value == r.value;
    assert files + [] == files;
  }

  predicate DistinctPaths(files: seq<DiffFile>) {
    forall i, j :: 0 <= i < j < |files| ==> files[i].path != files[j].path
  }

  /** All sections, each with a path of its own. */
  function Parse(c: Codec, lines: seq<string>): Result<seq<DiffFile>, DiffError> {
    match ReadFiles(c, lines)
    case Err(e) => Err(e)
    case Ok(files) => if DistinctPaths(files) then Ok(files) else Err(DuplicateSection)
  }

  // ----- The parser's loops -------------------------------------------------

  method ParseSection(c: Codec, lines: seq<string>, start: nat) returns (r: Result<Section, DiffError>, cursor: nat)
    requires start <= |lines|
    ensures start <= cursor <= |lines|
    ensures ReadSection(c, lines[start..], EMPTY)
            == (if r.Ok? then Ok(Read(r.value, lines[cursor..])) else Err(r.error))
  {
    hide KindOf, ReadHeader, Body, Note;
    cursor := start;
    var s := EMPTY;
    while cursor < |lines| && !Starts(lines[cursor], "diff --git ")
      invariant start <= cursor <= |lines|
      invariant ReadSection(c, lines[start..], EMPTY) == ReadSection(c, lines[cursor..], s)
      decreases |lines| - cursor
    {
      var line := lines[cursor];
      assert lines[cursor..][0] == line && lines[cursor..][1..] == lines[cursor + 1..];
      KindIs(line);
      if !Starts(line, "Binary files ") && line != "GIT binary patch" && Starts(line, "@@ ") {
        var hunk := ParseHunk(lines, cursor);
        if hunk.Err? {
          return Err(hunk.error), cursor;
        }
        BodyFits(lines[cursor + 1..], hunk.value.0.oldCount, hunk.value.0.newCount, false);
        assert lines[cursor..][hunk.value.1 - cursor..] == lines[hunk.value.1..];
        s, cursor := s.(hunks := s.hunks + [hunk.value.0]), hunk.value.1;
      } else {
        var next := ReadNote(c, line, s);
        if next.Err? {
          return Err(next.error), cursor;
        }
        s, cursor := next.value, cursor + 1;
      }
    }
    if cursor < |lines| {
      KindIs(lines[cursor]);
    }
    return Ok(s), cursor;
  }

  lemma {:induction false} KindIs(line: string)
    ensures KindOf(line) == DiffGit <==> Starts(line, "diff --git ")
    ensures KindOf(line) == HunkLine <==>
              !Starts(line, "diff --git ") && !Starts(line, "Binary files ") && line != "GIT binary patch"
              && Starts(line, "@@ ")
  {
    hide Starts;
  }

  const SKIPPED_PREFIXES := [
    "index ", "old mode ", "new mode ", "new file mode ", "deleted file mode ", "similarity index ",
    "dissimilarity index ", "rename from ", "rename to ", "copy from ", "copy to "]

  /** One line that is neither a section start nor a hunk. */
  method ReadNote(c: Codec, line: string, s: Section) returns (r: Result<Section, DiffError>)
    requires !Starts(line, "diff --git ")
    requires !Starts(line, "Binary files ") && line != "GIT binary patch" ==> !Starts(line, "@@ ")
    ensures r == Note(c, line, s)
  {
    if Starts(line, "Binary files ") || line == "GIT binary patch" {
      return Err(BinaryPatch);
    }
    if Starts(line, "--- ") {
      if s.oldMark.Some? {
        return Err(DuplicateMarker);
      }
      var side := c.readOld(line[|"--- "|..]);
      return if side.None? then Err(BadPath) else Ok(s.(oldMark := side));
    }
    if Starts(line, "+++ ") {
      if s.newMark.Some? {
        return Err(DuplicateMarker);
      }
      var side := c.readNew(line[|"+++ "|..]);
      return if side.None? then Err(BadPath) else Ok(s.(newMark := side));
    }
    if Starts(line, "rename from ") {
      if s.from.Some? {
        return Err(DuplicateMarker);
      }
      var path := c.readRename(line[|"rename from "|..]);
      return if path.None? then Err(BadPath) else Ok(s.(from := path));
    }
    if Starts(line, "rename to ") {
      if s.to.Some? {
        return Err(DuplicateMarker);
      }
      var path := c.readRename(line[|"rename to "|..]);
      return if path.None? then Err(BadPath) else Ok(s.(to := path));
    }
    if line == "" {
      return Ok(s);
    }
    for i := 0 to |SKIPPED_PREFIXES|
      invariant forall j :: 0 <= j < i ==> !Starts(line, SKIPPED_PREFIXES[j])
    {
      if Starts(line, SKIPPED_PREFIXES[i]) {
        return Ok(s);
      }
    }
    var p := SKIPPED_PREFIXES;
    assert p[0] == "index " && p[1] == "old mode " && p[2] == "new mode " && p[3] == "new file mode ";
    assert p[4] == "deleted file mode " && p[5] == "similarity index " && p[6] == "dissimilarity index ";
    assert p[9] == "copy from " && p[10] == "copy to ";
    return Err(UnknownMetadata);
  }

  /** The file a section describes, with the source's checks in order. */
  method FinishSection(s: Section, oldHeader: Side, newHeader: Side) returns (r: Result<DiffFile, DiffError>)
    ensures r == Finish(s, oldHeader, newHeader)
  {
    var oldSide := if s.oldMark.Some? then s.oldMark.value else oldHeader;
    var newSide := if s.newMark.Some? then s.newMark.value else newHeader;
    if s.from.Some? {
      oldSide := Path(s.from.value);
    }
    if s.to.Some? {
      newSide := Path(s.to.value);
    }
    var oldPath := if oldSide == Null then None else Some(oldSide.name);
    var newPath := if newSide == Null then None else Some(newSide.name);
    if s.oldMark.Some? && s.oldMark.value != Null && s.oldMark.value != oldHeader {
      return Err(PathDisagrees);
    }
    if s.newMark.Some? && s.newMark.value != Null && s.newMark.value != newHeader {
      return Err(PathDisagrees);
    }
    if s.from.None? != s.to.None? {
      return Err(HalfRename);
    }
    if oldPath.None? && newPath.None? {
      return Err(NoPath);
    }
    var status;
    if s.from.Some? {
      status := if s.hunks == [] then Renamed else RenamedModified;
    } else if oldPath.None? {
      status := Added;
    } else if newPath.None? {
      status := Deleted;
    } else {
      status := Modified;
    }
    return Ok(DiffFile(if newPath.Some? then newPath.value else oldPath.value, oldPath, newPath, status, s.hunks));
  }

  method ParseUnifiedDiff(c: Codec, lines: seq<string>) returns (r: Result<seq<DiffFile>, DiffError>)
    ensures r == Parse(c, lines)
  {
    hide KindOf, ReadSection, Finish, IsBlank;
    var files, cursor := [], 0;
    assert lines[0..] == lines;
    PrependEnds([], ReadFiles(c, lines));
    while cursor < |lines|
      invariant 0 <= cursor <= |lines|
      invariant ReadFiles(c, lines) == Prepend(files, ReadFiles(c, lines[cursor..]))
      decreases |lines| - cursor
    {
      var line := lines[cursor];
      assert lines[cursor..][0] == line && lines[cursor..][1..] == lines[cursor + 1..];
      BlankIs(line);
      KindIs(line);
      if forall x :: x in line ==> x in " \t" {
        cursor := cursor + 1;
        continue;
      }
      if !Starts(line, "diff --git ") {
        return Err(UnknownFormat);
      }
      var header := c.readPair(line[|"diff --git "|..]);
      if header.None? {
        return Err(BadPath);
      }
      var section, next := ParseSection(c, lines, cursor + 1);
      if section.Err? {
        return Err(section.error);
      }
      var file := FinishSection(section.value, header.value.0, header.value.1);
      if file.Err? {
        return Err(file.error);
      }
      PrependChains(files, file.value, ReadFiles(c, lines[next..]));
      files, cursor := files + [file.value], next;
    }
    PrependEnds(files, Ok([]));
    var distinct := PathsDistinct(files);
    return if distinct then Ok(files) else Err(DuplicateSection);
  }

  method PathsDistinct(files: seq<DiffFile>) returns (distinct: bool)
    ensures distinct == DistinctPaths(files)
  {
    var paths := seq(|files|, i requires 0 <= i < |files| => files[i].path);
    DistinctImage(files, (f: DiffFile) => f.path, paths);
    distinct := AllDistinct(paths);
  }

  lemma {:induction false} BlankIs(line: string)
    ensures IsBlank(line) <==> forall x :: x in line ==> x in " \t"
  {
    if forall x :: x in line ==> x in " \t" {
      assert forall i :: 0 <= i < |line| ==> line[i] in line;
    }
  }
}
