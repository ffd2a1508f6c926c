/**
  The line numbers of a plan's targets against the text of the diff
  (scripts/cross_file_diagnostics_coverage.py, lines 405-493 and 1171-1229).
 */
module TargetText {
  import opened HunkHeader
  import opened HunkBody
  import opened DiffParser
  import opened DiffRoundTrip
  import P = CoveragePlan

  /** A context or added line, which the new file has. */
  predicate OnNew(line: string) {
    line != "" && (line[0] == ' ' || line[0] == '+')
  }

  /** How many lines of the new file stand in this part of the text. */
  function NewBetween(lines: seq<string>, from: nat, to: nat): nat
    requires from <= to <= |lines|
  {
    if from == to then 0 else NewBetween(lines, from, to - 1) + (if OnNew(lines[to - 1]) then 1 else 0)
  }

  /** Text line `j`, in the body of the hunk at line `i`, is line `n` of the new file. */
  ghost predicate TextLine(lines: seq<string>, h: Hunk, i: nat, k: nat, j: nat, n: nat) {
    && BackedAt(lines, h, i, k) && i < j <= i + k && OnNew(lines[j])
    && n == h.newStart + NewBetween(lines, i + 1, j)
  }

  lemma {:induction false} NewsAppend(body: seq<string>, line: string)
    ensures News(body + [line]) == News(body) + NewCost(line)
  {
    if body == [] {
      assert body + [line] == [line];
    } else {
      assert (body + [line])[1..] == body[1..] + [line];
      NewsAppend(body[1..], line);
    }
  }

  lemma {:induction false} NewsAreBetween(lines: seq<string>, from: nat, to: nat)
    requires from <= to <= |lines|
    ensures News(lines[from..to]) == NewBetween(lines, from, to)
  {
    if from < to {
      NewsAreBetween(lines, from, to - 1);
      assert lines[from..to] == lines[from..to - 1] + [lines[to - 1]];
      NewsAppend(lines[from..to - 1], lines[to - 1]);
    }
  }

  lemma {:induction false} BetweenGrows(lines: seq<string>, from: nat, mid: nat, to: nat)
    requires from <= mid <= to <= |lines|
    ensures NewBetween(lines, from, mid) <= NewBetween(lines, from, to)
  {
    if mid < to {
      BetweenGrows(lines, from, mid, to - 1);
    }
  }

  /** Every smaller count is reached at a line of the new file. */
  lemma {:induction false} CountReached(lines: seq<string>, from: nat, to: nat, m: nat) returns (j: nat)
    requires from <= to <= |lines| && m < NewBetween(lines, from, to)
    ensures from <= j < to && OnNew(lines[j]) && NewBetween(lines, from, j) == m
  {
    if m < NewBetween(lines, from, to - 1) {
      j := CountReached(lines, from, to - 1, m);
    } else {
      j := to - 1;
    }
  }

  /** The k-th context or added line of a hunk has number `newStart + k`, and these are all its lines. */
  lemma {:induction false} HunkNumbersText(lines: seq<string>, h: Hunk, i: nat, k: nat, n: nat)
    requires BackedAt(lines, h, i, k)
    ensures h.newStart <= n < h.newStart + h.newCount <==> exists j: nat :: TextLine(lines, h, i, k, j, n)
  {
    hide ReadHeader;
    NewsAreBetween(lines, i + 1, i + 1 + k);
    if h.newStart <= n < h.newStart + h.newCount {
      var j := CountReached(lines, i + 1, i + 1 + k, n - h.newStart);
      assert TextLine(lines, h, i, k, j, n);
    }
    if j: nat :| TextLine(lines, h, i, k, j, n) {
      BetweenGrows(lines, i + 1, j + 1, i + 1 + k);
    }
  }

  lemma {:induction false} PlacedMember(lines: seq<string>, from: nat, to: nat, hunks: seq<Hunk>, h: Hunk)
    returns (i: nat, k: nat)
    requires Placed(lines, from, to, hunks) && h in hunks
    ensures BackedAt(lines, h, i, k)
    decreases |hunks|
  {
    hide BackedAt, AllOutside;
    i, k :| PlacedFirst(lines, from, to, hunks, i, k);
    if h != hunks[0] {
      i, k := PlacedMember(lines, i + 1 + k, to, hunks[1..], h);
    }
  }

  lemma {:induction false} HunksOfFile(files: seq<DiffFile>, f: DiffFile, h: Hunk)
    requires f in files && h in f.hunks
    ensures h in AllHunks(files)
  {
    if f != files[0] {
      HunksOfFile(files[1..], f, h);
    }
  }

  /**
    A planned target demands line `n` if and only if `n` is the number, in the new file, of a context or added line
    that stands in the text of the diff in a hunk of that file.
   */
  lemma {:induction false} TargetsAreText(c: Codec, lines: seq<string>, plan: P.Plan, path: string, n: nat)
    requires Parse(c, lines).Ok? && P.LinesDemanded(Parse(c, lines).value, plan) && path in plan.targets
    ensures var section := P.SectionOf(Parse(c, lines).value, path);
            && section.Some?
            && (n in plan.targets[path] <==>
                  exists h, i: nat, k: nat, j: nat :: h in section.value.hunks && TextLine(lines, h, i, k, j, n))
  {
    hide ReadFiles, BackedAt, DistinctPaths;
    var files := Parse(c, lines).value;
    assert P.SectionOf(files, path).Some?;
    var f := P.SectionOf(files, path).value;
    assert n in plan.targets[path] <==> P.HasLine(f, n);
    P.SectionOfIs(files, path);
    HunksPlaced(c, lines);
    if x, y :| P.IsLine(f, n, x, y) {
      var h := f.hunks[x];
      HunksOfFile(files, f, h);
      var i, k := PlacedMember(lines, 0, |lines|, AllHunks(files), h);
      HunkNumbersText(lines, h, i, k, n);
    }
    if h, i: nat, k: nat, j: nat :| h in f.hunks && TextLine(lines, h, i, k, j, n) {
      HunkNumbersText(lines, h, i, k, n);
      var x :| 0 <= x < |f.hunks| && f.hunks[x] == h;
      assert P.IsLine(f, n, x, n - h.newStart);
    }
  }
}
