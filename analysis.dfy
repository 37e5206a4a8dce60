/**
 * The analysis stage: digest the repository with the ingestion client, scan
 * its packages and entry points, note which dependency manifests it has,
 * optionally ask DeepWiki about it, and ask the generation service for a
 * structured analysis, falling back to a basic one built from the scans.
 */
module AnalysisStage {
  import opened Text
  import opened PipelineState
  import opened PackageScan
  import opened EntryPoints

  // The basic analysis

  /** The default risk: half feasible, low intrusiveness, simple. */
  const DefaultRisk: Risk := Risk(500, "low", "simple")

  /**
   * `_basic_analysis`: the analysis made from the scans alone.  Confidence
   * and feasibility are in thousandths.
   */
  function BasicAnalysis(packages: seq<string>, cli: seq<CliEntry>): (r: LlmAnalysis)
    ensures |r.coreModules| == (if packages == [] then 0 else 1)
    ensures packages != [] ==> r.coreModules[0].package == FewestDots(packages)
                               && r.coreModules[0].moduleName == r.coreModules[0].package
                               && r.coreModules[0].functions == ["main"] && r.coreModules[0].classes == []
    ensures r.cliCommands == cli && r.required == [] && r.optional == []
    ensures r.importStrategy.Some? && r.importStrategy.value.confidence == 500
    ensures r.importStrategy.value.primary == (if packages != [] then "import" else if cli != [] then "cli" else "blackbox")
    ensures r.importStrategy.value.fallback == (if cli != [] then "cli" else "blackbox")
    ensures r.riskAssessment == Some(if packages != [] then DefaultRisk else Risk(200, "medium", "simple"))
  {
    var core := if packages != [] then
                  var top := FewestDots(packages);
                  [CoreModule(top, top, ["main"], [], "Main function module", "medium")]
                else [];
    LlmAnalysis(core, cli,
                Some(ImportStrategy(if packages != [] then "import" else if cli != [] then "cli" else "blackbox",
                                    if cli != [] then "cli" else "blackbox", 500)),
                [], [],
                Some(if packages != [] then DefaultRisk else Risk(200, "medium", "simple")))
  }

  /** With packages found, the basic analysis names the least nested one as the core module. */
  lemma BasicAnalysisTopPackage(packages: seq<string>, cli: seq<CliEntry>)
    requires packages != []
    ensures var m := BasicAnalysis(packages, cli).coreModules[0];
            m.package in packages && forall p :: p in packages ==> Dots(m.package) <= Dots(p)
  {
    FewestDotsFirst(packages);
  }

  // The service's analysis

  /** Index of the first `c` in `s`, if any. */
  function Find(s: string, c: char): (r: Option<nat>)
    ensures r.Some? ==> r.value < |s| && s[r.value] == c && forall j :: 0 <= j < r.value ==> s[j] != c
    ensures r.None? ==> c !in s
  {
    if s == [] then None
    else if s[0] == c then Some(0)
    else
      var rest := Find(s[1..], c);
      if rest.Some? then Some(rest.value + 1) else None
  }

  /**
   * `re.search(r'\{.*\}', response, re.DOTALL)`: from the first "{" to the
   * last "}" after it.  (Were there no "}" after the first "{", there would
   * be none after a later one either.)
   */
  function BraceSpan(text: string): (r: Option<string>)
    ensures r.Some? ==> |r.value| >= 2 && r.value[0] == '{' && r.value[|r.value| - 1] == '}'
    ensures r.Some? ==> Contains(text, r.value)
    ensures r.None? ==> '{' !in text || forall j :: 0 <= j < |text| && text[j] == '}' ==> forall i :: 0 <= i < |text| && text[i] == '{' ==> j < i
  {
    match Find(text, '{')
    case None => None
    case Some(f) =>
      match LastIndex(text, f + 1, |text|, '}')
      case None => None
      case Some(l) =>
        SliceContained(text, f, l + 1);
        Some(text[f..l + 1])
  }

  /**
   * `_analyze_with_llm` with the service present: the reply (`None` when the
   * call raised), the span that looks like a JSON object, and `parse`, the
   * JSON decoder (`None` when it raises).  Any failure gives the basic
   * analysis.
   */
  function AnalyzeWithLlm(reply: Option<string>, parse: string -> Option<LlmAnalysis>,
                          packages: seq<string>, cli: seq<CliEntry>): (r: LlmAnalysis)
    ensures r == BasicAnalysis(packages, cli) ||
            (reply.Some? && BraceSpan(reply.value).Some? && parse(BraceSpan(reply.value).value) == Some(r))
    ensures reply.Some? && BraceSpan(reply.value).Some? && parse(BraceSpan(reply.value).value).Some?
            ==> r == parse(BraceSpan(reply.value).value).value
    ensures reply.None? || BraceSpan(reply.value).None? || parse(BraceSpan(reply.value).value).None?
            ==> r == BasicAnalysis(packages, cli)
  {
    if reply.None? then BasicAnalysis(packages, cli)
    else match BraceSpan(reply.value)
      case None => BasicAnalysis(packages, cli)
      case Some(span) =>
        match parse(span)
        case None => BasicAnalysis(packages, cli)
        case Some(a) => a
  }

  /** A reply without any "{" falls back to the basic analysis, whatever the decoder would say. */
  lemma NoObjectFallsBack(text: string, parse: string -> Option<LlmAnalysis>, packages: seq<string>, cli: seq<CliEntry>)
    requires '{' !in text
    ensures AnalyzeWithLlm(Some(text), parse, packages, cli) == BasicAnalysis(packages, cli)
  {
    assert Find(text, '{').None?;
  }

  /** A reply that is one JSON object is handed to the decoder whole. */
  lemma WholeObjectParsed(body: string, parse: string -> Option<LlmAnalysis>, packages: seq<string>, cli: seq<CliEntry>)
    requires '{' !in body && '}' !in body
    ensures var t := "{" + body + "}";
            AnalyzeWithLlm(Some(t), parse, packages, cli)
            == if parse(t).Some? then parse(t).value else BasicAnalysis(packages, cli)
  {
    var t := "{" + body + "}";
    assert forall j :: 0 < j < |t| - 1 ==> t[j] == body[j - 1];
    assert Find(t, '{') == Some(0);
    assert LastIndex(t, 1, |t|, '}') == Some(|t| - 1);
    assert t[0..|t|] == t;
    assert BraceSpan(t) == Some(t);
  }

  // Dependency manifests

  /** A manifest counts when it exists in the repository root or in its `source` directory. */
  predicate HasManifest(root: string, disk: Disk, file: string)
  {
    Exists(disk, Join(root, file)) || Exists(disk, Join(Join(root, "source"), file))
  }

  function DependencyFlagsOf(root: string, disk: Disk): (d: DependencyFlags)
    ensures d.environmentYml == HasManifest(root, disk, "environment.yml")
    ensures d.requirementsTxt == HasManifest(root, disk, "requirements.txt")
    ensures d.pyproject == HasManifest(root, disk, "pyproject.toml")
    ensures d.setupCfg == HasManifest(root, disk, "setup.cfg")
    ensures d.setupPy == HasManifest(root, disk, "setup.py")
  {
    DependencyFlags(HasManifest(root, disk, "environment.yml"), HasManifest(root, disk, "requirements.txt"),
                    HasManifest(root, disk, "pyproject.toml"), HasManifest(root, disk, "setup.cfg"),
                    HasManifest(root, disk, "setup.py"))
  }

  // The stage

  /** What the ingestion client did: returned a digest, returned nothing, or raised. */
  datatype IngestCall = IngestReturned(summary: IngestSummary) | IngestReturnedNone | IngestRaised(message: string)

  /** What asking DeepWiki did: the analysis came back (with its success flag), or building the client raised. */
  datatype DeepwikiCall = DeepwikiReturned(success: bool) | DeepwikiRaised(message: string)

  /**
   * The host as the stage sees it: the outcome of each outside call, the
   * directory walk (`None` when it raised), file contents (`None` when a file
   * cannot be read), the service's reply (`None` when the call raised), the
   * JSON decoder, and whether saving `analysis.json` raised.
   */
  datatype Host = Host(ingest: IngestCall, walk: Option<seq<Visit>>, read: string -> Option<string>,
                       deepwiki: DeepwikiCall, reply: Option<string>,
                       parse: string -> Option<LlmAnalysis>, saveError: Option<string>)

  /** The stage gives up unless the URL, the root and the root directory are all there. */
  predicate AnalysisAborts(s: State, disk: Disk)
  {
    !(Truthy(s.repository.url) && Truthy(RepoRoot(s.repository)) && RepoRoot(s.repository).value in disk.dirs)
  }

  /** The summary recorded and the warning, if any, for the ingestion outcome. */
  function IngestResult(c: IngestCall): (r: (IngestSummary, seq<string>))
    ensures c.IngestRaised? <==> r.1 != []
    ensures c.IngestRaised? ==> r == (NoSummary, ["gitingest preprocess failed: " + c.message])
    ensures c.IngestReturnedNone? ==> r.0 == IngestFailed("gitingest preprocess returned None")
    ensures c.IngestReturned? ==> r.0 == c.summary
  {
    match c
    case IngestReturned(summary) => (summary, [])
    case IngestReturnedNone => (IngestFailed("gitingest preprocess returned None"), [])
    case IngestRaised(m) => (NoSummary, ["gitingest preprocess failed: " + m])
  }

  /** DeepWiki's status and warning: skipped without a model, failed with a warning when it raised. */
  function DeepwikiResult(model: Option<string>, c: DeepwikiCall): (r: (DeepwikiStatus, seq<string>))
    ensures !Truthy(model) ==> r == (DeepwikiSkipped, [])
    ensures Truthy(model) && c.DeepwikiRaised? ==> r == (DeepwikiFailed(c.message), ["DeepWiki analysis failed: " + c.message])
    ensures Truthy(model) && c.DeepwikiReturned? ==> r == (DeepwikiDone(c.success), [])
  {
    if !Truthy(model) then (DeepwikiSkipped, [])
    else match c
      case DeepwikiReturned(ok) => (DeepwikiDone(ok), [])
      case DeepwikiRaised(m) => (DeepwikiFailed(m), ["DeepWiki analysis failed: " + m])
  }

  /** A manifest's text, when it exists and can be read. */
  function ReadIfExists(disk: Disk, read: string -> Option<string>, path: string): Option<string>
  {
    if Exists(disk, path) then read(path) else None
  }

  /** `llm_analysis.get("risk_assessment", default)` */
  function RiskOf(llm: LlmAnalysis): (r: Risk)
    ensures llm.riskAssessment.None? ==> r == DefaultRisk
  {
    if llm.riskAssessment.Some? then llm.riskAssessment.value else DefaultRisk
  }

  /** The analysis record the stage stores. */
  function AnalysisOf(s: State, disk: Disk, h: Host): Analysis
    requires !AnalysisAborts(s, disk)
  {
    var root := RepoRoot(s.repository).value;
    var packages := ScanPackages(h.walk, root);
    var cli := EntryPointsOf(ReadIfExists(disk, h.read, Join(root, "setup.py")),
                             ReadIfExists(disk, h.read, Join(root, "pyproject.toml")));
    var llm := AnalyzeWithLlm(h.reply, h.parse, packages, cli);
    Analysis(IngestResult(h.ingest).0, packages, DependencyFlagsOf(root, disk), cli, llm,
             DeepwikiResult(s.options.deepwikiModel, h.deepwiki).0, s.options.deepwikiModel,
             RiskOf(llm), None)
  }

  /** The warnings the stage appends, in the order it appends them. */
  function AnalysisWarnings(s: State, h: Host): seq<string>
  {
    IngestResult(h.ingest).1 + DeepwikiResult(s.options.deepwikiModel, h.deepwiki).1 +
    (if h.saveError.Some? then ["Failed to save analysis.json: " + h.saveError.value] else [])
  }

  /** `analysis_node` */
  function Analyze(s: State, disk: Disk, h: Host): State
  {
    if AnalysisAborts(s, disk) then AbortStage(s, "AnalysisNode", "Missing repo_url or repo_root path")
    else s.(analysis := Some(AnalysisOf(s, disk, h)), warnings := s.warnings + AnalysisWarnings(s, h),
            status := Running)
  }

  /**
   * The stage as the graph runs it: past the input check it calls
   * `get_llm_service()` outside any `try`, so without a configured service
   * (`serviceUp` false) it raises, which `None` stands for.
   */
  function AnalysisOrRaise(s: State, disk: Disk, h: Host, serviceUp: bool): (r: Option<State>)
    ensures r.None? <==> !AnalysisAborts(s, disk) && !serviceUp
    ensures r.Some? ==> r.value == Analyze(s, disk, h)
  {
    if !AnalysisAborts(s, disk) && !serviceUp then None else Some(Analyze(s, disk, h))
  }

  /** Without a URL or a repository directory the stage aborts and marks the run failed. */
  lemma AnalysisAbortRule(s: State, disk: Disk, h: Host)
    ensures AnalysisAborts(s, disk) ==>
              Analyze(s, disk, h) == AbortStage(s, "AnalysisNode", "Missing repo_url or repo_root path")
    ensures AnalysisAborts(s, disk) <==> Analyze(s, disk, h).status == Failed
  {
  }

  /**
   * Otherwise the stage records the analysis, appends at most three warnings
   * and no error, sets status "running", keeps `workflow_status`, and
   * changes nothing else.
   */
  lemma AnalysisOutcome(s: State, disk: Disk, h: Host)
    requires !AnalysisAborts(s, disk)
    ensures var t := Analyze(s, disk, h);
            t.analysis.Some? && t.status == Running && t.workflowStatus == s.workflowStatus &&
            t.errors == s.errors && s.warnings <= t.warnings && |t.warnings| <= |s.warnings| + 3 &&
            t == s.(analysis := t.analysis, warnings := t.warnings, status := Running)
  {
  }

  /** The recorded packages are the scan's: sorted, distinct, one per qualifying directory. */
  lemma AnalysisPackages(s: State, disk: Disk, h: Host)
    requires !AnalysisAborts(s, disk) && h.walk.Some?
    ensures var a := Analyze(s, disk, h).analysis.value;
            StrictlySorted(a.packages) &&
            forall p :: p in a.packages <==>
              exists k :: 0 <= k < |h.walk.value| && PackageOf(h.walk.value[k], RepoRoot(s.repository).value) == Some(p)
  {
    ScanPackagesExactly(h.walk.value, RepoRoot(s.repository).value);
  }

  /**
   * The recorded risk is the service's assessment when it gave one, else the
   * default; when the service's reply is unusable it is the basic
   * analysis's, which depends only on whether packages were found.
   */
  lemma AnalysisRisk(s: State, disk: Disk, h: Host)
    requires !AnalysisAborts(s, disk)
    ensures var a := Analyze(s, disk, h).analysis.value;
            a.risk == (if a.llm.riskAssessment.Some? then a.llm.riskAssessment.value else DefaultRisk)
    ensures h.reply.None? ==>
              var a := Analyze(s, disk, h).analysis.value;
              a.risk == (if a.packages != [] then DefaultRisk else Risk(200, "medium", "simple"))
  {
  }

  /** Without a DeepWiki model DeepWiki is skipped and adds no warning. */
  lemma DeepwikiSkippedWithoutModel(s: State, disk: Disk, h: Host)
    requires !AnalysisAborts(s, disk) && !Truthy(s.options.deepwikiModel)
    requires h.ingest.IngestReturned? && h.saveError.None?
    ensures Analyze(s, disk, h).analysis.value.deepwiki == DeepwikiSkipped
    ensures Analyze(s, disk, h).warnings == s.warnings
  {
  }

  /** The scans and the service's analysis, gathered into the record the stage stores. */
  method GatherAnalysis(s: State, disk: Disk, h: Host) returns (a: Analysis)
    requires !AnalysisAborts(s, disk)
    ensures a == AnalysisOf(s, disk, h)
  {
    var root := RepoRoot(s.repository).value;
    var summary := IngestResult(h.ingest).0;
    var packages := ScanPythonPackages(h.walk, root);
    var cli := ScanEntryPoints(ReadIfExists(disk, h.read, Join(root, "setup.py")),
                               ReadIfExists(disk, h.read, Join(root, "pyproject.toml")));
    var deps := DependencyFlagsOf(root, disk);
    var deepwiki := DeepwikiResult(s.options.deepwikiModel, h.deepwiki).0;
    var llm := AnalyzeWithLlm(h.reply, h.parse, packages, cli);
    a := Analysis(summary, packages, deps, cli, llm, deepwiki, s.options.deepwikiModel, RiskOf(llm), None);
  }

  /**
   * `analysis_node`: the two scans run as loops; everything else is the
   * outcome of an outside call.  Warnings are appended as they arise.
   * Without a service the stage raises (`None`): the scans run before it are lost with the state.
   */
  method AnalysisNode(s: State, disk: Disk, h: Host, serviceUp: bool) returns (r: Option<State>)
    ensures r == AnalysisOrRaise(s, disk, h, serviceUp)
  {
    if AnalysisAborts(s, disk) {
      return Some(AbortStage(s, "AnalysisNode", "Missing repo_url or repo_root path"));
    }
    if !serviceUp {
      return None;
    }
    var analysis := GatherAnalysis(s, disk, h);
    var ingestWarnings := IngestResult(h.ingest).1;
    var deepwikiWarnings := DeepwikiResult(s.options.deepwikiModel, h.deepwiki).1;
    var warnings := s.warnings + ingestWarnings + deepwikiWarnings;
    var saveWarnings: seq<string> := [];
    if h.saveError.Some? {
      saveWarnings := ["Failed to save analysis.json: " + h.saveError.value];
    }
    AssociateThree(ingestWarnings, deepwikiWarnings, saveWarnings);
    Associate(s.warnings, ingestWarnings, deepwikiWarnings, saveWarnings);
    assert warnings + saveWarnings == s.warnings + AnalysisWarnings(s, h);
    r := Some(s.(analysis := Some(analysis), warnings := warnings + saveWarnings, status := Running));
  }
}
