/**
  Changed files, diagnostics exemptions and the tool trajectory of one round
  (scripts/cross_file_closed_loop_guard.py, lines 152-706).

  Paths are normalised texts; a sorted tuple of a set is modelled by the set.
 */
module Evidence {
  import opened Wrappers

  datatype ExemptionKind = Generated | UnsupportedLanguage

  datatype FileChange = FileChange(path: string, production: bool, exemption: Option<ExemptionKind>)

  datatype Exemption = Exemption(path: string, kind: ExemptionKind, activeRound: Option<int>)

  datatype Mode = NoLsp | WithLsp | OtherMode

  /** Why a registry was refused. */
  datatype RegistryError = DuplicateExemption | StaleRoundExemption | StaleExemption | MissingExemption | KindMismatch

  // ----- Exemption registry -------------------------------------------------

  /** The kind registered for a path, taking the first entry. */
  function Registered(exemptions: seq<Exemption>, path: string): (k: Option<ExemptionKind>)
    ensures k.Some? <==> exists e :: e in exemptions && e.path == path
    ensures k.Some? ==> exists e :: e in exemptions && e.path == path && e.kind == k.value
  {
    if exemptions == [] then None
    else if exemptions[0].path == path then
      assert exemptions[0] in exemptions;
      Some(exemptions[0].kind)
    else
      var k := Registered(exemptions[1..], path);
      assert forall e :: e in exemptions ==> e == exemptions[0] || e in exemptions[1..];
      k
  }

  ghost predicate DistinctPaths(exemptions: seq<Exemption>) {
    forall i, j :: 0 <= i < j < |exemptions| ==> exemptions[i].path != exemptions[j].path
  }

  function ProductionPaths(changes: seq<FileChange>): set<string> {
    set c | c in changes && c.production :: c.path
  }

  predicate CurrentFor(e: Exemption, round: int) {
    e.activeRound.None? || e.activeRound.value == round
  }

  /** A file marked exempt needs an entry of its own kind unless it is not a production file. */
  predicate ChangeAllowed(c: FileChange, exemptions: seq<Exemption>) {
    var k := Registered(exemptions, c.path);
    c.exemption.None? || (if k.None? then !c.production else k == c.exemption)
  }

  /** When the registry is accepted, said without the algorithm. */
  ghost predicate RegistryAccepts(changes: seq<FileChange>, exemptions: seq<Exemption>, round: int) {
    && DistinctPaths(exemptions)
    && (forall e :: e in exemptions ==> CurrentFor(e, round) && e.path in ProductionPaths(changes))
    && (forall c :: c in changes ==> ChangeAllowed(c, exemptions))
  }

  /** The classification a registry gives to one change. */
  function EffectiveChange(c: FileChange, exemptions: seq<Exemption>): FileChange {
    if c.exemption.None? then c.(exemption := Registered(exemptions, c.path)) else c
  }

  function Effective(changes: seq<FileChange>, exemptions: seq<Exemption>): (r: seq<FileChange>)
    ensures |r| == |changes|
    ensures forall i :: 0 <= i < |changes| ==> r[i] == EffectiveChange(changes[i], exemptions)
  {
    seq(|changes|, i requires 0 <= i < |changes| => EffectiveChange(changes[i], exemptions))
  }

  function RequiredPaths(effective: seq<FileChange>): set<string> {
    set c | c in effective && c.production && c.exemption.None? :: c.path
  }

  /** The non-exempt production files: production paths without a registry entry or own mark. */
  ghost predicate NeedsDiagnostics(changes: seq<FileChange>, exemptions: seq<Exemption>, path: string) {
    exists c :: c in changes && c.path == path && c.production && c.exemption.None?
                && !(exists e :: e in exemptions && e.path == path)
  }

  lemma RequiredIsNonExempt(changes: seq<FileChange>, exemptions: seq<Exemption>, path: string)
    ensures path in RequiredPaths(Effective(changes, exemptions)) <==> NeedsDiagnostics(changes, exemptions, path)
  {
    var eff := Effective(changes, exemptions);
    if NeedsDiagnostics(changes, exemptions, path) {
      var c :| c in changes && c.path == path && c.production && c.exemption.None?
               && !(exists e :: e in exemptions && e.path == path);
      var i :| 0 <= i < |changes| && changes[i] == c;
      assert eff[i] in eff;
    }
    if path in RequiredPaths(eff) {
      var d :| d in eff && d.path == path && d.production && d.exemption.None?;
      var i :| 0 <= i < |eff| && eff[i] == d;
      assert changes[i] in changes;
    }
  }

  /** The first loop: index the entries by path. */
  method IndexRegistry(exemptions: seq<Exemption>, round: int)
    returns (r: Result<map<string, ExemptionKind>, RegistryError>)
    ensures r.Ok? <==> DistinctPaths(exemptions) && forall e :: e in exemptions ==> CurrentFor(e, round)
    ensures r.Ok? ==> forall p :: Registered(exemptions, p) == if p in r.value then Some(r.value[p]) else None
    ensures r.Ok? ==> r.value.Keys == set e | e in exemptions :: e.path
  {
    hide Registered;
    var byPath: map<string, ExemptionKind> := map[];
    for i := 0 to |exemptions|
      invariant DistinctPaths(exemptions[..i])
      invariant forall e :: e in exemptions[..i] ==> CurrentFor(e, round)
      invariant forall p :: p in byPath ==> exists e :: e in exemptions[..i] && e.path == p
      invariant forall e :: e in exemptions[..i] ==> e.path in byPath && byPath[e.path] == e.kind
    {
      var entry := exemptions[i];
      assert entry in exemptions;
      if entry.path in byPath {
        var e :| e in exemptions[..i] && e.path == entry.path;
        var k :| 0 <= k < i && exemptions[k] == e;
        return Err(DuplicateExemption);
      }
      if entry.activeRound.Some? && entry.activeRound.value != round {
        return Err(StaleRoundExemption);
      }
      byPath := byPath[entry.path := entry.kind];
      assert exemptions[..i + 1] == exemptions[..i] + [entry];
    }
    assert exemptions[..|exemptions|] == exemptions;
    LookupAgrees(exemptions, byPath);
    return Ok(byPath);
  }

  /** The second loop: classify every change against the index. */
  method ClassifyChanges(changes: seq<FileChange>, exemptions: seq<Exemption>, byPath: map<string, ExemptionKind>)
    returns (r: Result<seq<FileChange>, RegistryError>)
    requires forall p :: Registered(exemptions, p) == if p in byPath then Some(byPath[p]) else None
    ensures r.Ok? <==> forall c :: c in changes ==> ChangeAllowed(c, exemptions)
    ensures r.Ok? ==> r.value == Effective(changes, exemptions)
  {
    var effective: seq<FileChange> := [];
    for i := 0 to |changes|
      invariant |effective| == i
      invariant forall k :: 0 <= k < i ==> effective[k] == EffectiveChange(changes[k], exemptions)
      invariant forall k :: 0 <= k < i ==> ChangeAllowed(changes[k], exemptions)
    {
      var change := changes[i];
      assert change in changes;
      if change.exemption.None? {
        if change.path in byPath {
          change := change.(exemption := Some(byPath[change.path]));
        }
      } else if change.path !in byPath {
        if change.production {
          return Err(MissingExemption);
        }
      } else if byPath[change.path] != change.exemption.value {
        return Err(KindMismatch);
      }
      effective := effective + [change];
    }
    return Ok(effective);
  }

  method ValidateExemptionRegistry(changes: seq<FileChange>, exemptions: seq<Exemption>, round: int)
    returns (r: Result<seq<FileChange>, RegistryError>)
    ensures r.Ok? <==> RegistryAccepts(changes, exemptions, round)
    ensures r.Ok? ==> r.value == Effective(changes, exemptions)
  {
    hide Effective, ChangeAllowed, Registered, ProductionPaths;
    var index := IndexRegistry(exemptions, round);
    if index.Err? {
      return Err(index.error);
    }
    var production := ProductionPaths(changes);
    if !(index.value.Keys <= production) {
      return Err(StaleExemption);
    }
    r := ClassifyChanges(changes, exemptions, index.value);
  }

  lemma LookupAgrees(exemptions: seq<Exemption>, byPath: map<string, ExemptionKind>)
    requires DistinctPaths(exemptions)
    requires forall p :: p in byPath ==> exists e :: e in exemptions && e.path == p
    requires forall e :: e in exemptions ==> e.path in byPath && byPath[e.path] == e.kind
    ensures forall p :: Registered(exemptions, p) == if p in byPath then Some(byPath[p]) else None
  {
  }

  /** Validating the effective classification again accepts it and changes nothing. */
  lemma RegistryIdempotent(changes: seq<FileChange>, exemptions: seq<Exemption>, round: int)
    requires RegistryAccepts(changes, exemptions, round)
    ensures RegistryAccepts(Effective(changes, exemptions), exemptions, round)
    ensures Effective(Effective(changes, exemptions), exemptions) == Effective(changes, exemptions)
    ensures ProductionPaths(Effective(changes, exemptions)) == ProductionPaths(changes)
  {
    var eff := Effective(changes, exemptions);
    forall p
      ensures p in ProductionPaths(eff) <==> p in ProductionPaths(changes)
    {
      if p in ProductionPaths(changes) {
        var c :| c in changes && c.production && c.path == p;
        var i :| 0 <= i < |changes| && changes[i] == c;
        assert eff[i] in eff;
      }
      if p in ProductionPaths(eff) {
        var c :| c in eff && c.production && c.path == p;
        var i :| 0 <= i < |eff| && eff[i] == c;
        assert changes[i] in changes;
      }
    }
    forall c | c in eff
      ensures ChangeAllowed(c, exemptions)
    {
      var i :| 0 <= i < |eff| && eff[i] == c;
      assert changes[i] in changes;
    }
  }

  // ----- Tool trajectory ----------------------------------------------------

  datatype Tool = Structure | Xref | Diagnostics | OtherTool

  /** One captured event: whether it is an MCP event, whether it names a tool, and its paths. */
  datatype TraceEvent = TraceEvent(mcp: bool, namesTool: bool, tool: Tool, paths: set<string>)

  predicate HasMcp(trajectory: seq<TraceEvent>) {
    exists e :: e in trajectory && e.mcp
  }

  predicate HasUnsupportedTool(trajectory: seq<TraceEvent>) {
    exists e :: e in trajectory && e.mcp && e.tool == OtherTool
  }

  /** In a recovery every tool call must be an MCP structure, xref or diagnostics call. */
  predicate HasForeignTool(trajectory: seq<TraceEvent>) {
    exists e :: e in trajectory && e.namesTool && !(e.mcp && e.tool != OtherTool)
  }

  predicate Used(trajectory: seq<TraceEvent>, tool: Tool) {
    exists e :: e in trajectory && e.mcp && e.tool == tool
  }

  function DiagnosedPaths(trajectory: seq<TraceEvent>): set<string> {
    set e, p | e in trajectory && e.mcp && e.tool == Diagnostics && p in e.paths :: p
  }

  // ----- Scans of the trajectory --------------------------------------------

  method McpEvents(trajectory: seq<TraceEvent>) returns (events: seq<TraceEvent>)
    ensures forall e :: e in events <==> e in trajectory && e.mcp
    ensures events != [] <==> HasMcp(trajectory)
  {
    events := [];
    for i := 0 to |trajectory|
      invariant forall e :: e in events <==> e in trajectory[..i] && e.mcp
    {
      assert trajectory[..i + 1] == trajectory[..i] + [trajectory[i]];
      if trajectory[i].mcp {
        events := events + [trajectory[i]];
      }
    }
    assert trajectory[..|trajectory|] == trajectory;
    if events != [] {
      assert events[0] in events;
    }
  }

  method FindUnsupportedTool(trajectory: seq<TraceEvent>) returns (found: bool)
    ensures found == HasUnsupportedTool(trajectory)
  {
    var events := McpEvents(trajectory);
    for i := 0 to |events|
      invariant forall j :: 0 <= j < i ==> events[j].tool != OtherTool
    {
      if events[i].tool !in {Structure, Xref, Diagnostics} {
        assert events[i] in events;
        return true;
      }
    }
    return false;
  }

  method FindForeignTool(trajectory: seq<TraceEvent>) returns (found: bool)
    ensures found == HasForeignTool(trajectory)
  {
    found := false;
    for i := 0 to |trajectory|
      invariant found <==> exists e :: e in trajectory[..i] && e.namesTool && !(e.mcp && e.tool != OtherTool)
    {
      var e := trajectory[i];
      assert trajectory[..i + 1] == trajectory[..i] + [e];
      var evidence := e.mcp && (e.tool == Structure || e.tool == Xref || e.tool == Diagnostics);
      if e.namesTool && !evidence {
        found := true;
      }
    }
    assert trajectory[..|trajectory|] == trajectory;
  }

  /** The tools of all MCP events. */
  method ToolsUsed(trajectory: seq<TraceEvent>) returns (tools: set<Tool>)
    ensures forall tool :: tool in tools <==> Used(trajectory, tool)
  {
    var events := McpEvents(trajectory);
    tools := {};
    for i := 0 to |events|
      invariant forall tool :: tool in tools <==> exists j :: 0 <= j < i && events[j].tool == tool
    {
      tools := tools + {events[i].tool};
    }
    forall tool
      ensures tool in tools <==> Used(trajectory, tool)
    {
      if tool in tools {
        var j :| 0 <= j < |events| && events[j].tool == tool;
        assert events[j] in events;
      }
      if e :| e in trajectory && e.mcp && e.tool == tool {
        assert e in events;
        var j :| 0 <= j < |events| && events[j] == e;
      }
    }
  }

  method CollectDiagnostics(trajectory: seq<TraceEvent>) returns (paths: set<string>)
    ensures paths == DiagnosedPaths(trajectory)
  {
    var events := McpEvents(trajectory);
    paths := {};
    for i := 0 to |events|
      invariant forall p :: p in paths <==>
                  exists j :: 0 <= j < i && events[j].tool == Diagnostics && p in events[j].paths
    {
      if events[i].tool == Diagnostics {
        paths := paths + events[i].paths;
      }
    }
    forall p
      ensures p in paths <==> p in DiagnosedPaths(trajectory)
    {
      if p in paths {
        var j :| 0 <= j < |events| && events[j].tool == Diagnostics && p in events[j].paths;
        assert events[j] in events;
      }
      if p in DiagnosedPaths(trajectory) {
        var e :| e in trajectory && e.mcp && e.tool == Diagnostics && p in e.paths;
        assert e in events;
        var j :| 0 <= j < |events| && events[j] == e;
      }
    }
  }

  // ----- Alignment ----------------------------------------------------------

  predicate EndsWith(text: string, suffix: string) {
    |suffix| <= |text| && text[|text| - |suffix|..] == suffix
  }

  function Matches(path: string, required: set<string>): set<string> {
    set c | c in required && (path == c || EndsWith(path, "/" + c))
  }

  /** A path that ends in exactly one required path stands for it; any other path for itself. */
  function AlignPath(path: string, required: set<string>): string {
    var matches := Matches(path, required);
    if exists c :: c in matches && matches == {c} then
      var c :| c in matches && matches == {c};
      c
    else path
  }

  function Align(covered: set<string>, required: set<string>): set<string> {
    set p | p in covered :: AlignPath(p, required)
  }

  /** Alignment never moves a required path, even when one is a suffix of another. */
  lemma AlignKeepsRequired(path: string, required: set<string>)
    requires path in required
    ensures AlignPath(path, required) == path
  {
    assert path in Matches(path, required);
  }

  lemma AlignCoversRequired(covered: set<string>, required: set<string>)
    ensures covered * required <= Align(covered, required)
  {
    forall p | p in covered * required
      ensures p in Align(covered, required)
    {
      AlignKeepsRequired(p, required);
    }
  }

  lemma MatchesAre(path: string, required: set<string>, matches: set<string>)
    requires matches == Matches(path, required)
    ensures |matches| != 1 ==> AlignPath(path, required) == path
    ensures |matches| == 1 ==> forall c :: c in matches ==> AlignPath(path, required) == c
  {
    if |matches| == 1 {
      forall c | c in matches
        ensures matches == {c}
      {
        OnlyMember(matches, c);
      }
    }
  }

  lemma OnlyMember(s: set<string>, c: string)
    requires |s| == 1 && c in s
    ensures s == {c}
  {
    assert |s - {c}| == 0;
    assert s == (s - {c}) + {c};
  }

  method AlignDiagnosticsPaths(covered: set<string>, required: set<string>) returns (aligned: set<string>)
    ensures aligned == Align(covered, required)
    ensures covered * required <= aligned
  {
    aligned := {};
    var todo := covered;
    while todo != {}
      invariant todo <= covered
      invariant aligned == Align(covered - todo, required)
      decreases todo
    {
      var path :| path in todo;
      todo := todo - {path};
      assert covered - todo == (covered - todo - {path}) + {path};
      var matches := set c | c in required && (path == c || EndsWith(path, "/" + c));
      MatchesAre(path, required, matches);
      if |matches| == 1 {
        var only :| only in matches;
        aligned := aligned + {only};
      } else {
        aligned := aligned + {path};
      }
    }
    assert covered - todo == covered;
    AlignCoversRequired(covered, required);
  }

  // ----- Failure channels ---------------------------------------------------

  datatype FailureKind = Infrastructure | ModelQuality

  /** Who reported a failure: a named agent, or one of the engine's own channels. */
  datatype Origin =
    | Agent(name: string)
    | McpTransport | GraderInfrastructure | GraderQuality | GraderFeedback | RunnerInfrastructure

  datatype FailureRecord = FailureRecord(kind: FailureKind, source: Origin, target: Option<string>)

  /** Infrastructure failures stay clear of the code agent, and no source reports both kinds. */
  ghost predicate SeparatedChannels(failures: seq<FailureRecord>, codeAgent: string) {
    && (forall f :: f in failures && f.kind == Infrastructure ==>
                    f.source != Agent(codeAgent) && f.target != Some(codeAgent))
    && (forall f, g :: f in failures && g in failures && f.source == g.source ==> f.kind == g.kind)
  }

  method ValidateFailureSeparation(failures: seq<FailureRecord>, codeAgent: string) returns (ok: bool)
    ensures ok <==> SeparatedChannels(failures, codeAgent)
  {
    var kindOf: map<Origin, FailureKind> := map[];
    var mixed := false;
    for i := 0 to |failures|
      invariant forall f :: f in failures[..i] && f.kind == Infrastructure ==>
                  f.source != Agent(codeAgent) && f.target != Some(codeAgent)
      invariant forall s :: s in kindOf ==> exists f :: f in failures[..i] && f.source == s && f.kind == kindOf[s]
      invariant forall f :: f in failures[..i] ==> f.source in kindOf
      invariant !mixed ==> forall f :: f in failures[..i] ==> kindOf[f.source] == f.kind
      invariant mixed ==> exists f, g :: f in failures && g in failures && f.source == g.source && f.kind != g.kind
    {
      var record := failures[i];
      assert record in failures;
      if record.source in kindOf && kindOf[record.source] != record.kind {
        var f :| f in failures[..i] && f.source == record.source && f.kind == kindOf[record.source];
        assert f in failures;
        mixed := true;
      } else {
        kindOf := kindOf[record.source := record.kind];
      }
      assert failures[..i + 1] == failures[..i] + [record];
      if record.kind == Infrastructure && (record.source == Agent(codeAgent) || record.target == Some(codeAgent)) {
        return false;
      }
    }
    assert failures[..|failures|] == failures;
    return !mixed;
  }
}
