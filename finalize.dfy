/**
 * `finalize_node`: decide the outcome of the whole run from the service's
 * test, assemble the summary, pick the technical report (the generation
 * service's when it is long enough, a fixed template otherwise) and save
 * the reports below the repository root when that directory exists.
 * The replies of the generation service are parameters.
 */
module Finalize {
  import opened Text
  import opened PipelineState
  import Download
  import RunStage

  // ---------------------------------------------------------------------
  // Name and outcome

  /**
   * `repo_url.rstrip("/").split("/")[-1].replace(".git", "") if repo_url
   * else "unknown"`
   */
  function FinalName(url: Option<string>): (r: string)
    ensures !Truthy(url) ==> r == "unknown"
    ensures Truthy(url) ==> '/' !in r
  {
    if Truthy(url) then Download.NameFromUrl(url.value) else "unknown"
  }

  /**
   * For an address the download stage had to name itself, the summary uses
   * the same name.
   */
  lemma FinalNameAgreesWithDownload(url: string, given: Option<string>)
    requires url != "" && !Truthy(given)
    ensures FinalName(Some(url)) == Download.RepoName(url, given)
  {
  }

  /** Both statuses: success exactly when the service's test passed. */
  function Outcome(t: Tests): (r: Status)
    ensures r == Success <==> Passed(t.plugin)
    ensures r != Running
  {
    if Passed(t.plugin) then Success else Failed
  }

  // ---------------------------------------------------------------------
  // `_default_llm_analysis`

  /**
   * The assessment used when the generation service's summary is missing or
   * does not parse, for the recorded status and the service test's result.
   */
  function DefaultAssessment(status: Status, pluginPassed: bool): (a: Assessment)
    ensures (a.overall == "good") == (status == Success) && (a.overall == "poor") == (status != Success)
    ensures (|a.successFactors| > 0) == (status == Success)
    ensures (a.failureReasons == []) == pluginPassed && |a.failureReasons| <= 1
    ensures a.codeQuality == (if status == Success then 80 else 60)
    ensures a.architecture == (if status == Success then 75 else 50)
    ensures a.performance == 70 && a.maintainability == 75
  {
    var ok := status == Success;
    Assessment(if ok then ["Workflow execution completed"] else [],
               if !pluginPassed then ["Test failed"] else [],
               if ok then "good" else "poor",
               if ok then 80 else 60,
               if ok then 75 else 50,
               70, 75)
  }

  // ---------------------------------------------------------------------
  // `_default_technical_report`

  const ReportTitle: string := " FastMCP Service Technical Report\n\n## Project Overview\nThis project successfully converted "
  const ReportArchitecture: string := " to a FastMCP service.\n\n## Technical Architecture\n- Adapter Mode: "
  const ReportComponents: string := "\n- Service Entry Point: start_mcp.py\n- Core Components: mcp_plugin directory\n\n"
  const ReportOriginal: string := "## Test Results\n- Original Project Test: "
  const ReportService: string := "\n- MCP Service Test: "
  const ReportFooter: string := "\n\n---\n*This report was automatically generated by MCP-Agent*\n"

  function PassWord(passed: bool): (r: string)
    ensures |r| == 6
  {
    if passed then "Passed" else "Failed"
  }

  /** The part of the template before the two test results. */
  function ReportHead(name: string, mode: string): string
  {
    "# " + name + ReportTitle + name + ReportArchitecture + mode + ReportComponents + ReportOriginal
  }

  /** The template report, for the repository's name, the adapter mode and the two test results. */
  function DefaultTechnicalReport(name: string, mode: string, originalPassed: bool, pluginPassed: bool): (r: string)
    ensures "# " + name <= r
  {
    var head := ReportHead(name, mode);
    Associate("# " + name, ReportTitle + name + ReportArchitecture + mode + ReportComponents, ReportOriginal,
              PassWord(originalPassed) + ReportService + PassWord(pluginPassed) + ReportFooter);
    head + PassWord(originalPassed) + ReportService + PassWord(pluginPassed) + ReportFooter
  }

  /** Two texts built around the same fixed parts agree only where the variable parts agree. */
  lemma {:induction false} SameFrame(a: string, x: string, x': string, b: string, y: string, y': string, c: string)
    requires |x| == |x'| && |y| == |y'|
    requires a + x + b + y + c == a + x' + b + y' + c
    ensures x == x' && y == y'
  {
    var s, s' := a + x + b + y + c, a + x' + b + y' + c;
    assert x == s[|a|..|a| + |x|];
    assert x' == s'[|a|..|a| + |x|];
    var k := |a| + |x| + |b|;
    assert y == s[k..k + |y|];
    assert y' == s'[k..k + |y|];
  }

  /**
   * The template records both test results: for the same repository and
   * mode, two templates are equal only when both results are.
   */
  lemma DefaultReportRecordsTests(name: string, mode: string, o1: bool, p1: bool, o2: bool, p2: bool)
    ensures DefaultTechnicalReport(name, mode, o1, p1) == DefaultTechnicalReport(name, mode, o2, p2)
            <==> o1 == o2 && p1 == p2
  {
    if DefaultTechnicalReport(name, mode, o1, p1) == DefaultTechnicalReport(name, mode, o2, p2) {
      SameFrame(ReportHead(name, mode), PassWord(o1), PassWord(o2), ReportService, PassWord(p1), PassWord(p2),
                ReportFooter);
      assert PassWord(o1)[0] == PassWord(o2)[0];
      assert PassWord(p1)[0] == PassWord(p2)[0];
    }
  }

  /**
   * `_generate_technical_report`: the service's reply when its stripped text
   * is longer than 500 characters, otherwise (no reply, or a short one) the
   * template.
   */
  function ChosenReport(reply: Option<string>, template: string): (r: string)
    ensures reply.Some? && |Strip(reply.value)| > 500 ==> r == reply.value
    ensures !(reply.Some? && |Strip(reply.value)| > 500) ==> r == template
  {
    if reply.Some? && |Strip(reply.value)| > 500 then reply.value else template
  }

  /** A report the service chose is never short: whatever is stored is the template or over 500 characters. */
  lemma ChosenReportLong(reply: Option<string>, template: string)
    ensures var r := ChosenReport(reply, template);
            r == template || |r| > 500
  {
  }

  // ---------------------------------------------------------------------
  // The summary

  /** What the generation service answered: the parsed summary and the report, when there were any. */
  datatype Replies = Replies(assessment: Option<Assessment>, report: Option<string>)

  /** `plugin.get("adapter_mode", "unknown")` */
  function ModeOrUnknown(p: Option<Plugin>): string
  {
    if p.Some? then p.value.adapterMode else "unknown"
  }

  /** `list(plugin.get("files", {}).keys())` */
  function FilesCreated(p: Option<Plugin>): set<string>
  {
    if p.Some? then p.value.files.Keys else {}
  }

  /** The summary for a state whose statuses were already decided. */
  function Summary(s: State, replies: Replies): FinalSummary
  {
    var pluginPassed := Passed(s.tests.plugin);
    var url := if s.repository.url.Some? then s.repository.url.value else "";
    var root := RepoRoot(s.repository);
    var assessment := if replies.assessment.Some? then replies.assessment.value
                      else DefaultAssessment(s.status, pluginPassed);
    FinalSummary(FinalName(s.repository.url), url, if root.Some? then root.value else "",
                 s.status, s.workflowStatus, Passed(s.tests.original), pluginPassed,
                 RunStage.EnvTypeName(s.env), FilesCreated(s.plugin), s.errors, s.warnings, assessment)
  }

  /** The state `finalize_node` returns. */
  function FinalizeState(s: State, replies: Replies): State
  {
    var outcome := Outcome(s.tests);
    var decided := s.(status := outcome, workflowStatus := outcome);
    var summary := Summary(decided, replies);
    var template := DefaultTechnicalReport(NameOrUnknown(s.repository), ModeOrUnknown(s.plugin),
                                           summary.originalPassed, summary.pluginPassed);
    decided.(summary := Some(summary), technicalReport := Some(ChosenReport(replies.report, template)))
  }

  /**
   * Both statuses become "success" exactly when the service's test passed
   * and "failed" otherwise, whatever they were; the summary repeats them and
   * the test results; only the statuses, the summary and the report change.
   */
  lemma FinalizeOutcome(s: State, replies: Replies)
    ensures var t := FinalizeState(s, replies);
            && (t.status == Success <==> Passed(s.tests.plugin))
            && (t.status == Failed <==> !Passed(s.tests.plugin))
            && t.workflowStatus == t.status
            && t.summary.Some? && t.technicalReport.Some?
            && t.summary.value.status == t.status && t.summary.value.workflowStatus == t.status
            && t.summary.value.pluginPassed == Passed(s.tests.plugin)
            && t.summary.value.originalPassed == Passed(s.tests.original)
            && t.summary.value.errors == s.errors && t.summary.value.warnings == s.warnings
            && t == s.(status := t.status, workflowStatus := t.status, summary := t.summary,
                       technicalReport := t.technicalReport)
  {
  }

  /**
   * Without a usable summary from the service, the fallback assessment
   * lists a failure reason exactly when it judges the run "poor": the status
   * and the reason both follow the service's test.
   */
  lemma FallbackAssessmentConsistent(s: State, report: Option<string>)
    ensures var a := FinalizeState(s, Replies(None, report)).summary.value.assessment;
            && (a.failureReasons == [] <==> a.overall == "good")
            && (a.overall == "good" <==> Passed(s.tests.plugin))
  {
  }

  // ---------------------------------------------------------------------
  // `_save_final_reports`

  /** The reports are saved only below an existing repository root. */
  predicate SavesReports(d: Disk, root: Option<string>)
  {
    Truthy(root) && root.value in d.dirs
  }

  datatype ReportPaths = ReportPaths(out: string, summary: string, diff: string, readme: string)

  function ReportPathsOf(root: string): ReportPaths
  {
    var out := Join(root, "mcp_output");
    ReportPaths(out, Join(out, "workflow_summary.json"), Join(out, "diff_report.md"), Join(out, "README_MCP.md"))
  }

  /** The disk after `_save_final_reports`. */
  function SavedReports(d: Disk, root: Option<string>): Disk
  {
    if !SavesReports(d, root) then d
    else
      var p := ReportPathsOf(root.value);
      WithFile(WithFile(WithFile(Disk(d.dirs + {p.out}, d.files), p.summary), p.diff), p.readme)
  }

  /**
   * Nothing is written without an existing root; with one, the three
   * reports exist afterwards and nothing was removed.
   */
  lemma SavedReportsGuard(d: Disk, root: Option<string>)
    ensures !SavesReports(d, root) ==> SavedReports(d, root) == d
    ensures SavesReports(d, root) ==>
              var p := ReportPathsOf(root.value);
              var r := SavedReports(d, root);
              && {p.summary, p.diff, p.readme} <= r.files && d.files <= r.files && d.dirs <= r.dirs
  {
  }

  /** Writing a file a second time leaves the disk as the first write did. */
  lemma WithFileTwice(d: Disk, path: string)
    ensures WithFile(WithFile(d, path), path) == WithFile(d, path)
  {
  }

  // ---------------------------------------------------------------------
  // The stage as the code runs it

  /** The three writes of one `try` block of `_save_final_reports`. */
  method WriteReports(ws: Download.Workspace, p: ReportPaths)
    modifies ws
    ensures ws.Current() == WithFile(WithFile(WithFile(old(ws.Current()), p.summary), p.diff), p.readme)
  {
    ws.WriteFile(p.summary);
    ws.WriteFile(p.diff);
    ws.WriteFile(p.readme);
  }

  /** `_save_final_reports`, whose two identical `try` blocks write the same three files. */
  method SaveFinalReports(root: Option<string>, ws: Download.Workspace)
    modifies ws
    ensures ws.Current() == SavedReports(old(ws.Current()), root)
  {
    if !Truthy(root) || root.value !in ws.dirs {
      return;
    }
    var p := ReportPathsOf(root.value);
    ws.MakeDirs(p.out);
    ghost var d := ws.Current();
    WriteReports(ws, p);
    WriteReports(ws, p);
    SecondWriteKeeps(d, p);
  }

  lemma SecondWriteKeeps(d: Disk, p: ReportPaths)
    ensures var once := WithFile(WithFile(WithFile(d, p.summary), p.diff), p.readme);
            WithFile(WithFile(WithFile(once, p.summary), p.diff), p.readme) == once
  {
    var once := WithFile(WithFile(WithFile(d, p.summary), p.diff), p.readme);
    assert {p.summary, p.diff, p.readme} <= once.files;
    assert {DirName(p.summary), DirName(p.diff), DirName(p.readme)} <= once.dirs;
  }

  /** `finalize_node`: the state it returns, and the reports it saves. */
  method FinalizeNode(s: State, replies: Replies, ws: Download.Workspace) returns (t: State)
    modifies ws
    ensures t == FinalizeState(s, replies)
    ensures ws.Current() == SavedReports(old(ws.Current()), RepoRoot(s.repository))
  {
    var pluginOk := Passed(s.tests.plugin);
    t := s;
    if pluginOk {
      t := t.(status := Success, workflowStatus := Success);
    } else {
      t := t.(status := Failed, workflowStatus := Failed);
    }
    var summary := Summary(t, replies);
    var template := DefaultTechnicalReport(NameOrUnknown(s.repository), ModeOrUnknown(s.plugin),
                                           summary.originalPassed, summary.pluginPassed);
    var report := if replies.report.Some? && |Strip(replies.report.value)| > 500 then replies.report.value
                  else template;
    t := t.(summary := Some(summary), technicalReport := Some(report));
    SaveFinalReports(RepoRoot(s.repository), ws);
  }
}
