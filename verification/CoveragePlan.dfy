/**
  The diagnostics coverage planner (scripts/cross_file_diagnostics_coverage.py, lines 1037-1229) and its agreement
  with the guard that later checks the round.  The language registry is an arbitrary function of the path.
 */
module CoveragePlan {
  import opened Wrappers
  import opened Sequences
  import opened Evidence
  import opened HunkHeader
  import D = DiffParser
  import HunkBody

  datatype PlanError =
    | Unparsed(error: HunkBody.DiffError) | NoSection | DuplicateChange | MissingChange | ExemptionMismatch
    | DuplicateEntry | StaleEntry | MissingEntry

  /** What the language registry says of a path. */
  datatype Support = Support(supported: bool, generated: bool)

  // ----- Files --------------------------------------------------------------

  predicate OnNewSide(h: Hunk, n: nat) {
    h.newStart <= n < h.newStart + h.newCount
  }

  function NewLines(h: Hunk): set<nat> {
    set n: nat | n < h.newStart + h.newCount && OnNewSide(h, n)
  }

  function ChangedLines(f: D.DiffFile): set<nat> {
    set h, n | h in f.hunks && n in NewLines(h) :: n
  }

  /** A file with lines on its new side, which diagnostics can look at. */
  predicate Live(f: D.DiffFile) {
    f.new_.Some? && ChangedLines(f) != {}
  }

  /** Some hunk of the file has `n` as its k-th new line. */
  ghost predicate HasLine(f: D.DiffFile, n: nat) {
    exists i, k :: IsLine(f, n, i, k)
  }

  ghost predicate IsLine(f: D.DiffFile, n: nat, i: int, k: int) {
    0 <= i < |f.hunks| && 0 <= k < f.hunks[i].newCount && n == f.hunks[i].newStart + k
  }

  /** The changed lines are the consecutive new line numbers of the hunks, and a live file has at least one. */
  lemma {:induction false} LinesAreConsecutive(f: D.DiffFile)
    ensures forall n :: n in ChangedLines(f) <==> HasLine(f, n)
    ensures Live(f) <==> f.new_.Some? && exists h :: h in f.hunks && h.newCount > 0
  {
    forall n: nat
      ensures n in ChangedLines(f) <==> HasLine(f, n)
    {
      if n in ChangedLines(f) {
        var h :| h in f.hunks && n in NewLines(h);
        var i :| 0 <= i < |f.hunks| && f.hunks[i] == h;
        assert IsLine(f, n, i, n - h.newStart);
      }
      if i, k :| IsLine(f, n, i, k) {
        assert f.hunks[i] in f.hunks && n in NewLines(f.hunks[i]);
      }
    }
    if h :| h in f.hunks && h.newCount > 0 {
      var i :| 0 <= i < |f.hunks| && f.hunks[i] == h;
      assert IsLine(f, h.newStart, i, 0);
      assert h.newStart in ChangedLines(f);
    }
  }

  /** The line numbers of all hunks, one range after the other. */
  method CollectLines(f: D.DiffFile) returns (lines: set<nat>)
    ensures lines == ChangedLines(f)
  {
    lines := {};
    for i := 0 to |f.hunks|
      invariant forall n: nat :: n in lines <==> exists j, k :: j < i && IsLine(f, n, j, k)
    {
      var h := f.hunks[i];
      ghost var before := lines;
      for n := h.newStart to h.newStart + h.newCount
        invariant forall m: nat :: m in lines <==> m in before || h.newStart <= m < n
      {
        lines := lines + {n};
      }
      forall m: nat
        ensures m in lines <==> exists j, k :: j < i + 1 && IsLine(f, m, j, k)
      {
        if m in lines && m !in before {
          assert IsLine(f, m, i, m - h.newStart);
        }
      }
    }
    LinesAreConsecutive(f);
  }

  /** The section with this path. */
  function SectionOf(files: seq<D.DiffFile>, path: string): Option<D.DiffFile> {
    if files == [] then None else if files[0].path == path then Some(files[0]) else SectionOf(files[1..], path)
  }

  lemma {:induction false} SectionOfIs(files: seq<D.DiffFile>, path: string)
    ensures SectionOf(files, path).Some? ==>
              SectionOf(files, path).value in files && SectionOf(files, path).value.path == path
    ensures SectionOf(files, path).None? ==> forall f :: f in files ==> f.path != path
  {
    if files != [] {
      SectionOfIs(files[1..], path);
      assert files == [files[0]] + files[1..];
    }
  }

  // ----- Reconciliation -----------------------------------------------------

  function MovedFrom(files: seq<D.DiffFile>, path: string): seq<D.DiffFile> {
    if files == [] then []
    else (if files[0].old_ == Some(path) && files[0].new_.Some? then [files[0]] else []) + MovedFrom(files[1..], path)
  }

  lemma {:induction false} MovedFromIs(files: seq<D.DiffFile>, path: string)
    ensures forall f :: f in MovedFrom(files, path) <==> f in files && f.old_ == Some(path) && f.new_.Some?
  {
    if files != [] {
      MovedFromIs(files[1..], path);
      assert files == [files[0]] + files[1..];
    }
  }

  /** The path a supplied change stands for: its own section, or the only section renamed from it. */
  function Resolve(files: seq<D.DiffFile>, path: string): Option<string> {
    if SectionOf(files, path).Some? then Some(path)
    else if |MovedFrom(files, path)| == 1 then Some(MovedFrom(files, path)[0].path)
    else None
  }

  lemma {:induction false} ResolveIs(files: seq<D.DiffFile>, path: string)
    ensures Resolve(files, path).Some? ==> SectionOf(files, Resolve(files, path).value).Some?
  {
    MovedFromIs(files, path);
    if |MovedFrom(files, path)| == 1 {
      var f := MovedFrom(files, path)[0];
      assert f in files;
      SectionOfIs(files, f.path);
    }
  }

  ghost predicate DistinctChanges(changes: seq<FileChange>) {
    forall i, j :: 0 <= i < j < |changes| ==> changes[i].path != changes[j].path
  }

  ghost predicate Resolved(files: seq<D.DiffFile>, supplied: seq<FileChange>, changes: seq<FileChange>) {
    && |changes| == |supplied|
    && forall i :: 0 <= i < |supplied| ==>
         Resolve(files, supplied[i].path).Some?
           && changes[i] == supplied[i].(path := Resolve(files, supplied[i].path).value)
  }

  ghost predicate CoversSections(files: seq<D.DiffFile>, changes: seq<FileChange>) {
    forall f :: f in files ==> exists c :: c in changes && c.path == f.path
  }

  function Paths(changes: seq<FileChange>): set<string> {
    set c | c in changes :: c.path
  }

  /** Match supplied changes with the sections, one for one. */
  method Reconcile(files: seq<D.DiffFile>, supplied: seq<FileChange>) returns (r: Result<seq<FileChange>, PlanError>)
    ensures r.Ok? <==> DistinctChanges(supplied)
                       && exists changes ::
                            Resolved(files, supplied, changes) && DistinctChanges(changes)
                              && CoversSections(files, changes)
    ensures r.Ok? ==> Resolved(files, supplied, r.value) && DistinctChanges(r.value) && CoversSections(files, r.value)
  {
    hide Resolve;
    var paths := seq(|supplied|, i requires 0 <= i < |supplied| => supplied[i].path);
    DistinctImage(supplied, (c: FileChange) => c.path, paths);
    var distinct := AllDistinct(paths);
    if !distinct {
      return Err(DuplicateChange);
    }
    var changes: seq<FileChange> := [];
    var consumed: set<string> := {};
    for i := 0 to |supplied|
      invariant |changes| == i && DistinctChanges(changes)
      invariant forall j :: 0 <= j < i ==>
        Resolve(files, supplied[j].path).Some?
          && changes[j] == supplied[j].(path := Resolve(files, supplied[j].path).value)
      invariant consumed == Paths(changes)
    {
      var path := Resolve(files, supplied[i].path);
      if path.None? {
        return Err(NoSection);
      }
      if path.value in consumed {
        ghost var c :| c in changes && c.path == path.value;
        ghost var j :| 0 <= j < i && changes[j] == c;
        return Err(DuplicateChange);
      }
      assert forall j :: 0 <= j < i ==> changes[j] in changes && changes[j].path != path.value;
      changes := changes + [supplied[i].(path := path.value)];
      consumed := consumed + {path.value};
    }
    assert Resolved(files, supplied, changes);
    ResolvedOnce(files, supplied, changes);
    if exists f :: f in files && f.path !in consumed {
      return Err(MissingChange);
    }
    return Ok(changes);
  }

  lemma {:induction false} ResolvedOnce(files: seq<D.DiffFile>, supplied: seq<FileChange>, changes: seq<FileChange>)
    requires Resolved(files, supplied, changes)
    ensures forall other :: Resolved(files, supplied, other) ==> other == changes
  {
    hide Resolve;
  }

  // ----- Classification -----------------------------------------------------

  /** The registry entry agrees with the change's own mark and with its language. */
  predicate Fits(c: FileChange, entry: Option<ExemptionKind>, support: Support) {
    && (c.exemption.Some? ==> entry == c.exemption)
    && (c.production && support.generated ==> entry == Some(Generated))
    && (c.production && !support.supported ==> entry == Some(UnsupportedLanguage))
  }

  function Marked(c: FileChange, exemptions: seq<Exemption>): FileChange {
    c.(exemption := Registered(exemptions, c.path))
  }

  /** The kind of one change, step by step. */
  method ClassifyOne(c: FileChange, entry: Option<ExemptionKind>, support: Support)
    returns (r: Result<Option<ExemptionKind>, PlanError>)
    ensures r.Ok? && (r.value.Some? ==> entry.Some?) <==> Fits(c, entry, support)
    ensures r.Ok? && (r.value.Some? ==> entry.Some?) ==> r.value == entry
  {
    var kind := c.exemption;
    if entry.Some? {
      if kind.Some? && kind != entry {
        return Err(ExemptionMismatch);
      }
      kind := entry;
    }
    if c.production && support.generated {
      if kind.Some? && kind.value != Generated {
        return Err(ExemptionMismatch);
      }
      kind := Some(Generated);
    }
    if c.production && !support.supported {
      if kind.Some? && kind.value != UnsupportedLanguage {
        return Err(ExemptionMismatch);
      }
      kind := Some(UnsupportedLanguage);
    }
    return Ok(kind);
  }

  ghost predicate AllFit(changes: seq<FileChange>, exemptions: seq<Exemption>, classify: string -> Support) {
    forall c :: c in changes ==> Fits(c, Registered(exemptions, c.path), classify(c.path))
  }

  function MarkAll(changes: seq<FileChange>, exemptions: seq<Exemption>): (r: seq<FileChange>)
    ensures |r| == |changes| && forall i :: 0 <= i < |r| ==> r[i] == Marked(changes[i], exemptions)
  {
    seq(|changes|, i requires 0 <= i < |changes| => Marked(changes[i], exemptions))
  }

  /** Classify every change; whatever is marked must be registered, and whatever is registered must be a change. */
  method Classify(changes: seq<FileChange>, exemptions: seq<Exemption>, classify: string -> Support)
    returns (r: Result<seq<FileChange>, PlanError>)
    ensures r.Ok? <==> AllFit(changes, exemptions, classify) && forall e :: e in exemptions ==> e.path in Paths(changes)
    ensures r.Ok? ==> r.value == MarkAll(changes, exemptions)
  {
    hide Registered, Fits;
    var effective: seq<FileChange> := [];
    var unregistered := false;
    for i := 0 to |changes|
      invariant |effective| == i
      invariant !unregistered ==> forall j :: 0 <= j < i ==>
        effective[j] == Marked(changes[j], exemptions)
          && Fits(changes[j], Registered(exemptions, changes[j].path), classify(changes[j].path))
      invariant unregistered ==> exists c :: c in changes && !Fits(c, Registered(exemptions, c.path), classify(c.path))
    {
      var c := changes[i];
      assert c in changes;
      var entry := Registered(exemptions, c.path);
      var kind := ClassifyOne(c, entry, classify(c.path));
      if kind.Err? {
        return Err(kind.error);
      }
      if kind.value.Some? && entry.None? {
        unregistered := true;
      }
      effective := effective + [c.(exemption := kind.value)];
    }
    if exists e :: e in exemptions && e.path !in Paths(changes) {
      return Err(StaleEntry);
    }
    if unregistered {
      return Err(MissingEntry);
    }
    return Ok(effective);
  }

  // ----- The plan -----------------------------------------------------------

  datatype Plan = Plan(changes: seq<FileChange>, exemptions: seq<Exemption>, targets: map<string, set<nat>>)

  predicate LivePath(files: seq<D.DiffFile>, path: string) {
    SectionOf(files, path).Some? && Live(SectionOf(files, path).value)
  }

  /** A change the guard is told about: a live one, or an exempt production file. */
  predicate Shown(files: seq<D.DiffFile>, c: FileChange) {
    LivePath(files, c.path) || (c.production && c.exemption.Some?)
  }

  predicate IsTarget(files: seq<D.DiffFile>, c: FileChange) {
    LivePath(files, c.path) && c.production && c.exemption.None?
  }

  /** A target demands exactly the new line numbers of its section's hunks. */
  ghost predicate LinesDemanded(files: seq<D.DiffFile>, plan: Plan) {
    forall path :: path in plan.targets ==>
      && SectionOf(files, path).Some?
      && forall n: nat :: n in plan.targets[path] <==> HasLine(SectionOf(files, path).value, n)
  }

  lemma {:induction false} PlansDemandLines(files: seq<D.DiffFile>, effective: seq<FileChange>,
                                            exemptions: seq<Exemption>, plan: Plan)
    requires PlanOf(files, effective, exemptions, plan)
    ensures LinesDemanded(files, plan)
  {
    hide SectionOf, ChangedLines, DistinctPaths, HasLine, Shown, IsTarget;
    forall path | path in plan.targets
      ensures SectionOf(files, path).Some?
      ensures forall n: nat :: n in plan.targets[path] <==> HasLine(SectionOf(files, path).value, n)
    {
      LinesAreConsecutive(SectionOf(files, path).value);
    }
  }

  /** What the emitted plan holds. */
  ghost predicate PlanOf(files: seq<D.DiffFile>, effective: seq<FileChange>, exemptions: seq<Exemption>, plan: Plan) {
    && (forall c :: c in plan.changes <==> c in effective && Shown(files, c))
    && (forall e :: e in plan.exemptions <==> e in exemptions && e.path in Paths(plan.changes))
    && DistinctPaths(plan.exemptions)
    && (forall path :: path in plan.targets <==> exists c :: c in effective && c.path == path && IsTarget(files, c))
    && (forall path :: path in plan.targets ==> LivePath(files, path)
                                                && plan.targets[path] == ChangedLines(SectionOf(files, path).value))
  }

  method Emit(files: seq<D.DiffFile>, effective: seq<FileChange>, exemptions: seq<Exemption>) returns (plan: Plan)
    requires DistinctPaths(exemptions) && forall c :: c in effective ==> SectionOf(files, c.path).Some?
    ensures PlanOf(files, effective, exemptions, plan) && LinesDemanded(files, plan)
  {
    hide SectionOf, ChangedLines, DistinctPaths;
    var shown: seq<FileChange> := [];
    var targets: map<string, set<nat>> := map[];
    for i := 0 to |effective|
      invariant forall c :: c in shown <==> c in effective[..i] && Shown(files, c)
      invariant forall path :: path in targets <==>
                  exists c :: c in effective[..i] && c.path == path && IsTarget(files, c)
      invariant forall path :: path in targets ==>
                  LivePath(files, path) && targets[path] == ChangedLines(SectionOf(files, path).value)
    {
      var c := effective[i];
      assert c in effective && effective[..i + 1] == effective[..i] + [c];
      var section := SectionOf(files, c.path).value;
      ghost var prior := targets;
      var lines := CollectLines(section);
      if section.new_.None? || lines == {} {
        if c.production && c.exemption.Some? {
          shown := shown + [c];
        }
      } else {
        shown := shown + [c];
        if c.production && c.exemption.None? {
          targets := targets[c.path := lines];
        }
      }
      TargetsGrow(files, effective[..i], c, prior, targets);
    }
    assert effective[..|effective|] == effective;
    var kept := Keep(exemptions, Paths(shown));
    plan := Plan(shown, kept, targets);
    PlansDemandLines(files, effective, exemptions, plan);
  }

  lemma {:induction false} TargetsGrow(files: seq<D.DiffFile>, front: seq<FileChange>, c: FileChange,
                                       prior: map<string, set<nat>>, targets: map<string, set<nat>>)
    requires forall path :: path in prior <==> exists d :: d in front && d.path == path && IsTarget(files, d)
    requires targets.Keys == if IsTarget(files, c) then prior.Keys + {c.path} else prior.Keys
    ensures forall path :: path in targets <==> exists d :: d in front + [c] && d.path == path && IsTarget(files, d)
  {
    hide IsTarget;
    forall path
      ensures path in targets <==> exists d :: d in front + [c] && d.path == path && IsTarget(files, d)
    {
      if path in prior {
        var d :| d in front && d.path == path && IsTarget(files, d);
        assert d in front + [c];
      }
      assert c in front + [c];
    }
  }

  method Keep(exemptions: seq<Exemption>, paths: set<string>) returns (kept: seq<Exemption>)
    requires DistinctPaths(exemptions)
    ensures DistinctPaths(kept) && forall e :: e in kept <==> e in exemptions && e.path in paths
  {
    kept := [];
    for i := 0 to |exemptions|
      invariant DistinctPaths(kept)
      invariant forall e :: e in kept <==> e in exemptions[..i] && e.path in paths
    {
      var entry := exemptions[i];
      assert exemptions[..i + 1] == exemptions[..i] + [entry];
      if entry.path in paths {
        assert forall e :: e in exemptions[..i] ==> e.path != entry.path;
        assert forall j :: 0 <= j < |kept| ==> kept[j] in kept;
        kept := kept + [entry];
      }
    }
    assert exemptions[..|exemptions|] == exemptions;
  }

  function Sections(files: seq<D.DiffFile>): (r: seq<FileChange>)
    ensures |r| == |files| && forall i :: 0 <= i < |r| ==> r[i] == FileChange(files[i].path, true, None)
  {
    seq(|files|, i requires 0 <= i < |files| => FileChange(files[i].path, true, None))
  }

  /** Registry entries carry no round. */
  function Timeless(exemptions: seq<Exemption>): (r: seq<Exemption>)
    ensures |r| == |exemptions| && forall i :: 0 <= i < |r| ==> r[i] == exemptions[i].(activeRound := None)
  {
    seq(|exemptions|, i requires 0 <= i < |exemptions| => exemptions[i].(activeRound := None))
  }

  /** The changes the planner works with: the supplied ones matched with the sections, or one per section. */
  ghost predicate Changes(files: seq<D.DiffFile>, supplied: Option<seq<FileChange>>, changes: seq<FileChange>) {
    if supplied.None? then changes == Sections(files)
    else DistinctChanges(supplied.value) && Resolved(files, supplied.value, changes) && DistinctChanges(changes)
         && CoversSections(files, changes)
  }

  ghost predicate Plannable(files: seq<D.DiffFile>, supplied: Option<seq<FileChange>>, classify: string -> Support,
                            exemptions: seq<Exemption>, changes: seq<FileChange>)
  {
    && Changes(files, supplied, changes)
    && DistinctPaths(exemptions)
    && AllFit(changes, exemptions, classify)
    && (forall e :: e in exemptions ==> e.path in Paths(changes))
  }

  lemma {:induction false} ChangesAreSections(files: seq<D.DiffFile>, supplied: Option<seq<FileChange>>,
                                              changes: seq<FileChange>)
    requires D.DistinctPaths(files) && Changes(files, supplied, changes)
    ensures DistinctChanges(changes) && forall c :: c in changes ==> SectionOf(files, c.path).Some?
    ensures forall other :: Changes(files, supplied, other) ==> other == changes
  {
    hide SectionOf, Resolve;
    if supplied.None? {
      forall c | c in changes
        ensures SectionOf(files, c.path).Some?
      {
        var i :| 0 <= i < |changes| && changes[i] == c;
        assert files[i] in files;
        SectionOfIs(files, c.path);
      }
    } else {
      ResolvedOnce(files, supplied.value, changes);
      forall c | c in changes
        ensures SectionOf(files, c.path).Some?
      {
        var i :| 0 <= i < |changes| && changes[i] == c;
        ResolveIs(files, supplied.value[i].path);
      }
    }
  }

  method FindChanges(files: seq<D.DiffFile>, supplied: Option<seq<FileChange>>)
    returns (r: Result<seq<FileChange>, PlanError>)
    ensures r.Ok? <==> exists changes :: Changes(files, supplied, changes)
    ensures r.Ok? ==> Changes(files, supplied, r.value)
  {
    hide Resolved, DistinctChanges, CoversSections;
    if supplied.None? {
      assert Changes(files, supplied, Sections(files));
      return Ok(Sections(files));
    }
    r := Reconcile(files, supplied.value);
    if r.Ok? {
      assert Changes(files, supplied, r.value);
    }
  }

  /** From the lines of a diff to the changes, exemptions and diagnostics targets of a round. */
  method BuildCoverage(codec: D.Codec, lines: seq<string>, supplied: Option<seq<FileChange>>,
                       classify: string -> Support, exemptions: seq<Exemption>)
    returns (r: Result<Plan, PlanError>)
    ensures var parsed := D.Parse(codec, lines);
            r.Ok? <==>
              && parsed.Ok?
              && exists changes :: Plannable(parsed.value, supplied, classify, Timeless(exemptions), changes)
    ensures r.Ok? ==>
              exists changes ::
                && Plannable(D.Parse(codec, lines).value, supplied, classify, Timeless(exemptions), changes)
                && PlanOf(D.Parse(codec, lines).value, MarkAll(changes, Timeless(exemptions)), Timeless(exemptions),
                          r.value)
    ensures r.Ok? ==> LinesDemanded(D.Parse(codec, lines).value, r.value)
  {
    hide PlanOf, LinesDemanded, AllFit, Changes, DistinctChanges;
    var files := D.ParseUnifiedDiff(codec, lines);
    if files.Err? {
      return Err(Unparsed(files.error));
    }
    var changes := FindChanges(files.value, supplied);
    if changes.Err? {
      return Err(changes.error);
    }
    ChangesAreSections(files.value, supplied, changes.value);
    var entries := Timeless(exemptions);
    var paths := seq(|entries|, i requires 0 <= i < |entries| => entries[i].path);
    DistinctImage(entries, (e: Exemption) => e.path, paths);
    var distinct := AllDistinct(paths);
    assert distinct == DistinctPaths(entries);
    if !distinct {
      return Err(DuplicateEntry);
    }
    var effective := Classify(changes.value, entries, classify);
    if effective.Err? {
      return Err(effective.error);
    }
    MarkedSections(files.value, changes.value, entries);
    var plan := Emit(files.value, effective.value, entries);
    assert Plannable(files.value, supplied, classify, entries, changes.value);
    return Ok(plan);
  }

  lemma {:induction false} MarkedSections(files: seq<D.DiffFile>, changes: seq<FileChange>, exemptions: seq<Exemption>)
    requires forall c :: c in changes ==> SectionOf(files, c.path).Some?
    ensures forall c :: c in MarkAll(changes, exemptions) ==> SectionOf(files, c.path).Some?
  {
    var effective := MarkAll(changes, exemptions);
    forall c | c in effective
      ensures SectionOf(files, c.path).Some?
    {
      var i :| 0 <= i < |effective| && effective[i] == c;
      assert changes[i] in changes;
    }
  }
}
