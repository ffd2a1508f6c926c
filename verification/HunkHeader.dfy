/**
  Hunk headers of a unified diff: `@@ -start,count +start,count @@` with an optional count
  (scripts/cross_file_diagnostics_coverage.py, lines 48-50 and 443-457).
 */
module HunkHeader {
  import opened Wrappers

  datatype Hunk = Hunk(oldStart: nat, oldCount: nat, newStart: nat, newCount: nat)

  // ----- Decimal numbers ----------------------------------------------------

  predicate IsDigit(c: char) {
    '0' <= c <= '9'
  }

  function Digit(n: nat): char
    requires n < 10
  {
    '0' + n as char
  }

  function Show(n: nat): string {
    if n < 10 then [Digit(n)] else Show(n / 10) + [Digit(n % 10)]
  }

  /** The number of leading digits. */
  function Lead(s: string): nat
    ensures Lead(s) <= |s|
  {
    if s == "" || !IsDigit(s[0]) then 0 else 1 + Lead(s[1..])
  }

  predicate AllDigits(s: string) {
    forall i :: 0 <= i < |s| ==> IsDigit(s[i])
  }

  function Value(s: string): nat
    requires AllDigits(s)
  {
    if s == "" then 0 else 10 * Value(s[..|s| - 1]) + (s[|s| - 1] - '0') as nat
  }

  lemma {:induction false} LeadDigits(s: string)
    ensures AllDigits(s[..Lead(s)])
  {
    if s != "" && IsDigit(s[0]) {
      LeadDigits(s[1..]);
      assert s[..Lead(s)] == [s[0]] + s[1..][..Lead(s[1..])];
    }
  }

  /** One or more digits and what follows them. */
  function ReadNat(s: string): Option<(nat, string)> {
    LeadDigits(s);
    if Lead(s) == 0 then None else Some((Value(s[..Lead(s)]), s[Lead(s)..]))
  }

  lemma {:induction false} ShowDigits(n: nat)
    ensures Show(n) != "" && AllDigits(Show(n)) && Value(Show(n)) == n
  {
    if n >= 10 {
      ShowDigits(n / 10);
      assert Show(n)[..|Show(n)| - 1] == Show(n / 10);
    }
  }

  ghost predicate EndsNumber(rest: string) {
    rest == "" || !IsDigit(rest[0])
  }

  lemma {:induction false} LeadOf(digits: string, rest: string)
    requires AllDigits(digits) && EndsNumber(rest)
    ensures Lead(digits + rest) == |digits|
  {
    if digits == "" {
      assert digits + rest == rest;
    } else {
      assert (digits + rest)[1..] == digits[1..] + rest;
      LeadOf(digits[1..], rest);
    }
  }

  lemma {:induction false} ReadShow(n: nat, rest: string)
    requires EndsNumber(rest)
    ensures ReadNat(Show(n) + rest) == Some((n, rest))
  {
    ShowDigits(n);
    LeadOf(Show(n), rest);
    assert (Show(n) + rest)[..|Show(n)|] == Show(n) && (Show(n) + rest)[|Show(n)|..] == rest;
  }

  // ----- Ranges -------------------------------------------------------------

  datatype Range = Range(start: nat, count: nat, rest: string)

  /** A start and an optional count, which is 1 when left out. */
  function ReadRange(s: string): Option<Range> {
    match ReadNat(s)
    case None => None
    case Some((start, rest)) =>
      if rest != "" && rest[0] == ',' && ReadNat(rest[1..]).Some?
      then Some(Range(start, ReadNat(rest[1..]).value.0, ReadNat(rest[1..]).value.1))
      else Some(Range(start, 1, rest))
  }

  /** A count of 1 may be left out. */
  function ShowRange(start: nat, count: nat, brief: bool): string {
    if brief && count == 1 then Show(start) else Show(start) + "," + Show(count)
  }

  lemma {:induction false} RangeRoundTrip(start: nat, count: nat, brief: bool, rest: string)
    requires EndsNumber(rest) && (rest != "" ==> rest[0] != ',')
    ensures ReadRange(ShowRange(start, count, brief) + rest) == Some(Range(start, count, rest))
  {
    hide Show, ReadNat;
    if brief && count == 1 {
      ReadShow(start, rest);
    } else {
      var tail := "," + (Show(count) + rest);
      ReadShow(start, tail);
      ReadShow(count, rest);
      assert tail[1..] == Show(count) + rest;
      assert ShowRange(start, count, brief) + rest == Show(start) + tail;
    }
  }

  // ----- Headers ------------------------------------------------------------

  predicate Starts(line: string, word: string) {
    |word| <= |line| && line[..|word|] == word
  }

  function After(line: string, word: string): string
    requires Starts(line, word)
  {
    line[|word|..]
  }

  lemma {:induction false} StartsAfter(word: string, rest: string)
    ensures Starts(word + rest, word) && After(word + rest, word) == rest
  {
  }

  /** A non-empty side starts at line 1 or later. */
  predicate Grounded(h: Hunk) {
    (h.oldCount > 0 ==> h.oldStart >= 1) && (h.newCount > 0 ==> h.newStart >= 1)
  }

  function ReadHeader(line: string): Option<Hunk> {
    if !Starts(line, "@@ -") then None
    else
      match ReadRange(After(line, "@@ -"))
      case None => None
      case Some(left) =>
        if !Starts(left.rest, " +") then None
        else
          match ReadRange(After(left.rest, " +"))
          case None => None
          case Some(right) =>
            if !Starts(right.rest, " @@") then None
            else
              var h := Hunk(left.start, left.count, right.start, right.count);
              if Grounded(h) then Some(h) else None
  }

  function ShowHeader(h: Hunk, brief: bool, tail: string): string {
    "@@ -" + (ShowRange(h.oldStart, h.oldCount, brief)
              + (" +" + (ShowRange(h.newStart, h.newCount, brief) + (" @@" + tail))))
  }

  /** A printed header reads back exactly when no non-empty side starts at line 0; otherwise it is refused. */
  lemma {:induction false} HeaderRoundTrip(h: Hunk, brief: bool, tail: string)
    ensures var starts := (h.oldCount == 0 || h.oldStart >= 1) && (h.newCount == 0 || h.newStart >= 1);
            ReadHeader(ShowHeader(h, brief, tail)) == if starts then Some(h) else None
  {
    hide ReadRange, ShowRange, Starts, After;
    var last := " @@" + tail;
    var right := ShowRange(h.newStart, h.newCount, brief) + last;
    var middle := " +" + right;
    var left := ShowRange(h.oldStart, h.oldCount, brief) + middle;
    StartsAfter(" @@", tail);
    RangeRoundTrip(h.newStart, h.newCount, brief, last);
    StartsAfter(" +", right);
    RangeRoundTrip(h.oldStart, h.oldCount, brief, middle);
    StartsAfter("@@ -", left);
  }
}
