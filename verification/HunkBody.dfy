/**
  The count-driven hunk body reader (scripts/cross_file_diagnostics_coverage.py, lines 443-493).
 */
module HunkBody {
  import opened Wrappers
  import opened HunkHeader

  datatype DiffError =
    | BadHunk | UnknownFormat | BadPath | BinaryPatch | DuplicateMarker | UnknownMetadata | PathDisagrees
    | HalfRename | NoPath | DuplicateSection

  const NEWLINE_MARKER := "\\ No newline at end of file"

  predicate IsMarker(line: string) {
    line == NEWLINE_MARKER
  }

  predicate Prefixed(line: string, c: char) {
    line != "" && line[0] == c
  }

  /** How many old and new lines a body line stands for. */
  function OldCost(line: string): nat {
    if Prefixed(line, ' ') || Prefixed(line, '-') then 1 else 0
  }

  function NewCost(line: string): nat {
    if Prefixed(line, ' ') || Prefixed(line, '+') then 1 else 0
  }

  predicate IsBody(line: string) {
    IsMarker(line) || OldCost(line) + NewCost(line) > 0
  }

  /** The number of lines the loop consumes, or an error. */
  function Body(rest: seq<string>, olds: nat, news: nat, saw: bool): Result<nat, DiffError> {
    if olds == 0 && news == 0 then Ok(0)
    else if rest == [] then Err(BadHunk)
    else if IsMarker(rest[0]) then
      if saw then OneMore(Body(rest[1..], olds, news, true)) else Err(BadHunk)
    else if !IsBody(rest[0]) || OldCost(rest[0]) > olds || NewCost(rest[0]) > news then Err(BadHunk)
    else OneMore(Body(rest[1..], olds - OldCost(rest[0]), news - NewCost(rest[0]), true))
  }

  function OneMore(r: Result<nat, DiffError>): Result<nat, DiffError> {
    match r
    case Ok(n) => Ok(n + 1)
    case Err(e) => Err(e)
  }

  // ----- What an accepted body is -------------------------------------------

  function Olds(body: seq<string>): nat {
    if body == [] then 0 else OldCost(body[0]) + Olds(body[1..])
  }

  function News(body: seq<string>): nat {
    if body == [] then 0 else NewCost(body[0]) + News(body[1..])
  }

  /** Body lines only, with exactly the declared counts; a newline marker stands between counted lines only. */
  ghost predicate Declared(body: seq<string>, olds: nat, news: nat, saw: bool) {
    && (forall line :: line in body ==> IsBody(line))
    && Olds(body) == olds && News(body) == news
    && (body != [] ==> !IsMarker(body[|body| - 1]) && (IsMarker(body[0]) ==> saw))
  }

  lemma {:induction false} MarkerCost(line: string)
    ensures IsMarker(line) ==> OldCost(line) == 0 && NewCost(line) == 0
  {
  }

  lemma {:induction false} LastCounts(body: seq<string>)
    requires body != [] && IsBody(body[|body| - 1]) && !IsMarker(body[|body| - 1])
    ensures Olds(body) + News(body) > 0
  {
    if |body| > 1 {
      LastCounts(body[1..]);
    }
  }

  lemma {:induction false} DeclaredStep(body: seq<string>, olds: nat, news: nat, saw: bool)
    requires body != [] && olds + news > 0
    ensures Declared(body, olds, news, saw) <==>
              && IsBody(body[0]) && (IsMarker(body[0]) ==> saw) && OldCost(body[0]) <= olds && NewCost(body[0]) <= news
              && Declared(body[1..], olds - OldCost(body[0]), news - NewCost(body[0]), true)
  {
    MarkerCost(body[0]);
    assert body == [body[0]] + body[1..];
    assert body[1..] != [] ==> body[1..][|body[1..]| - 1] == body[|body| - 1];
  }

  /** A hunk body is accepted, and ends, exactly where its lines have the declared counts. */
  lemma {:induction false} BodyExact(rest: seq<string>, olds: nat, news: nat, saw: bool, k: nat)
    requires k <= |rest|
    ensures Body(rest, olds, news, saw) == Ok(k) <==> Declared(rest[..k], olds, news, saw)
  {
    if olds == 0 && news == 0 {
      if k > 0 && IsBody(rest[..k][k - 1]) && !IsMarker(rest[..k][k - 1]) {
        LastCounts(rest[..k]);
      }
    } else if k > 0 {
      hide Declared, IsBody, IsMarker, OldCost, NewCost;
      var line := rest[0];
      MarkerCost(line);
      DeclaredStep(rest[..k], olds, news, saw);
      assert rest[..k][1..] == rest[1..][..k - 1];
      if IsBody(line) && OldCost(line) <= olds && NewCost(line) <= news {
        BodyExact(rest[1..], olds - OldCost(line), news - NewCost(line), true, k - 1);
      }
      MarkersAreBody(line);
    }
  }

  lemma {:induction false} MarkersAreBody(line: string)
    ensures IsMarker(line) ==> IsBody(line)
  {
  }

  lemma {:induction false} BodyFits(rest: seq<string>, olds: nat, news: nat, saw: bool)
    ensures Body(rest, olds, news, saw).Ok? ==> Body(rest, olds, news, saw).value <= |rest|
  {
    if (olds > 0 || news > 0) && rest != [] {
      hide IsBody, IsMarker, OldCost, NewCost;
      MarkerCost(rest[0]);
      if OldCost(rest[0]) <= olds && NewCost(rest[0]) <= news {
        BodyFits(rest[1..], olds - OldCost(rest[0]), news - NewCost(rest[0]), true);
      }
    }
  }

  // ----- The reader ---------------------------------------------------------

  function Shift(r: Result<nat, DiffError>, n: nat): Result<nat, DiffError> {
    match r
    case Ok(k) => Ok(k + n)
    case Err(e) => Err(e)
  }

  /** What the body function says at a line, and where it goes on. */
  lemma {:induction false} BodyAt(lines: seq<string>, cursor: nat, olds: nat, news: nat, saw: bool)
    requires cursor < |lines| && olds + news > 0
    ensures var line := lines[cursor];
            Shift(Body(lines[cursor..], olds, news, saw), cursor) ==
            if IsMarker(line) then
              if saw then Shift(Body(lines[cursor + 1..], olds, news, true), cursor + 1) else Err(BadHunk)
            else if !IsBody(line) || OldCost(line) > olds || NewCost(line) > news then Err(BadHunk)
            else Shift(Body(lines[cursor + 1..], olds - OldCost(line), news - NewCost(line), true), cursor + 1)
  {
    hide IsBody, IsMarker, OldCost, NewCost;
    assert lines[cursor..][0] == lines[cursor] && lines[cursor..][1..] == lines[cursor + 1..];
  }

  /** Read one hunk: its header and then as many lines as the header declares. */
  method ParseHunk(lines: seq<string>, index: nat) returns (r: Result<(Hunk, nat), DiffError>)
    requires index < |lines|
    ensures r == (match ReadHeader(lines[index])
                  case None => Err(BadHunk)
                  case Some(h) =>
                    match Body(lines[index + 1..], h.oldCount, h.newCount, false)
                    case Ok(k) => Ok((h, index + 1 + k))
                    case Err(e) => Err(e))
  {
    hide ReadHeader, Body;
    var header := ReadHeader(lines[index]);
    if header.None? {
      return Err(BadHunk);
    }
    var h := header.value;
    var oldLeft, newLeft, cursor, saw := h.oldCount, h.newCount, index + 1, false;
    ghost var goal := Shift(Body(lines[index + 1..], h.oldCount, h.newCount, false), index + 1);
    while oldLeft > 0 || newLeft > 0
      invariant index + 1 <= cursor <= |lines|
      invariant goal == Shift(Body(lines[cursor..], oldLeft, newLeft, saw), cursor)
      decreases |lines| - cursor
    {
      if cursor >= |lines| {
        assert lines[cursor..] == [];
        BodyEnds(oldLeft, newLeft, saw);
        return Err(BadHunk);
      }
      var body := lines[cursor];
      BodyAt(lines, cursor, oldLeft, newLeft, saw);
      if body == NEWLINE_MARKER {
        if !saw {
          return Err(BadHunk);
        }
        cursor := cursor + 1;
        continue;
      }
      if body == "" {
        return Err(BadHunk);
      }
      if body[0] == ' ' {
        if oldLeft == 0 || newLeft == 0 {
          return Err(BadHunk);
        }
        oldLeft, newLeft := oldLeft - 1, newLeft - 1;
      } else if body[0] == '-' {
        if oldLeft == 0 {
          return Err(BadHunk);
        }
        oldLeft := oldLeft - 1;
      } else if body[0] == '+' {
        if newLeft == 0 {
          return Err(BadHunk);
        }
        newLeft := newLeft - 1;
      } else {
        return Err(BadHunk);
      }
      saw, cursor := true, cursor + 1;
    }
    BodyStops(lines[cursor..], saw);
    return Ok((h, cursor));
  }

  lemma {:induction false} BodyEnds(olds: nat, news: nat, saw: bool)
    requires olds + news > 0
    ensures Body([], olds, news, saw) == Err(BadHunk)
  {
  }

  lemma {:induction false} BodyStops(rest: seq<string>, saw: bool)
    ensures Body(rest, 0, 0, saw) == Ok(0)
  {
  }
}
