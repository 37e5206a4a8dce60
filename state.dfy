/**
 * The record every pipeline stage reads and writes.  In the system it is one
 * mutable dictionary handed from stage to stage; exactly one stage holds it at
 * a time, so here it is a value that each stage returns updated.  Absent keys
 * are `None`, empty collections or the default the code falls back to.
 */
module PipelineState {
  import opened Text

  datatype Option<T> = None | Some(value: T)

  /** The value an option holds, as a list of at most one element. */
  function Listed<T>(o: Option<T>): (r: seq<T>)
    ensures |r| <= 1 && (r == [] <==> o.None?)
  {
    if o.Some? then [o.value] else []
  }

  /** The list holds the option's value, or nothing. */
  lemma ListedValue<T>(o: Option<T>)
    ensures Listed(o) == if o.Some? then [o.value] else []
  {
  }

  /** Python truthiness of an optional string: present and non-empty. */
  predicate Truthy(o: Option<string>)
  {
    o.Some? && o.value != ""
  }

  datatype Status = Running | Success | Failed

  datatype Severity = Low | Medium | High | Critical

  /** The `action_taken` field of an error record. */
  datatype Action = Abort | Continue | ContinueWithEmpty | RecordOnly | NeedsRegeneration | SkipCondaCommands

  /** One entry of `state["errors"]`; `node` and `kind` carry the names the code writes. */
  datatype ErrorRecord = ErrorRecord(node: string, kind: string, severity: Option<Severity>,
                                     message: string, action: Action)

  datatype LocalPaths = LocalPaths(repoRoot: string, sourceRoot: string, mcpPlugin: string,
                                   testsMcp: string, mcpLogs: string)

  datatype Repository = Repository(url: Option<string>, name: Option<string>, paths: Option<LocalPaths>)

  /** `repository.local_paths.repo_root`, if recorded. */
  function RepoRoot(r: Repository): Option<string>
  {
    if r.paths.Some? then Some(r.paths.value.repoRoot) else None
  }

  /** `repo.get("name", "unknown")` */
  function NameOrUnknown(r: Repository): string
  {
    if r.name.Some? then r.name.value else "unknown"
  }

  /** `options`: the DeepWiki model and per-stage generation-service overrides. */
  datatype Options = Options(deepwikiModel: Option<string>, llmOverrides: map<string, map<string, string>>)

  /** Where and how the failing command ran. */
  datatype RunDetails = RunDetails(command: string, workingDirectory: string, environmentType: string)

  /** The failure part of a run result: `error_type`, `error` and `details`. */
  datatype RunFailure = RunFailure(errorType: string, error: string, details: RunDetails)

  datatype RunResult = RunResult(success: bool, testPassed: bool, exitCode: int,
                                 stdout: string, stderr: string, failure: Option<RunFailure>)

  /** `run_result.get("error", dflt)` */
  function RunError(r: RunResult, dflt: string): string
  {
    if r.failure.Some? then r.failure.value.error else dflt
  }

  /** `state.get("run_result", {}).get("success", False)` */
  function RunSucceeded(r: Option<RunResult>): bool
  {
    r.Some? && r.value.success
  }

  datatype TestOutcome = TestOutcome(passed: bool, stdout: string, stderr: string)

  /** `tests.original` (the project's own tests) and `tests.plugin` (the generated service). */
  datatype Tests = Tests(original: Option<TestOutcome>, plugin: Option<TestOutcome>)

  function Passed(t: Option<TestOutcome>): bool
  {
    t.Some? && t.value.passed
  }

  datatype EnvKind = Conda | Venv | NoEnv

  /** `state["env"]`; `files` maps a manifest kind to the file that was installed from. */
  datatype Environment = Environment(kind: EnvKind, name: string, path: Option<string>,
                                     files: map<string, string>, python: string, execPrefix: seq<string>)

  datatype Plugin = Plugin(files: map<string, string>, adapterMode: string, endpoints: seq<string>,
                           mcpDir: string, testsDir: string, mainEntry: string,
                           readmePath: string, requirements: seq<string>)

  /**
   * `state["error_analysis"]`.  `NoDiagnosis` is an absent or empty dictionary; a
   * non-empty one exposes the keys the routers read.  Confidence is in thousandths.
   */
  datatype Diagnosis =
    | NoDiagnosis
    | Diagnosis(nextAction: Option<string>, confidence: Option<int>, summary: Option<string>)

  datatype LoopSummary = LoopSummary(task: string, diagnosis: Diagnosis, rootCause: string,
                                     fixes: string, risks: seq<string>, nextFocus: string)

  datatype CodeReview = CodeReview(overallScore: int, issuesFound: int,
                                   recommendations: seq<string>, diagnosis: Diagnosis)

  datatype RetryReason = RetryReason(retryCount: nat, reason: string)

  /** A command-line entry point found in `setup.py` or `pyproject.toml`. */
  datatype CliEntry = CliEntry(name: string, target: string, kind: string)

  /** One of the analysis' `core_modules`; `confidence` is `import_confidence` ("medium" when absent). */
  datatype CoreModule = CoreModule(package: string, moduleName: string, functions: seq<string>,
                                   classes: seq<string>, description: string, confidence: string)

  /** `import_strategy`; confidence in thousandths. */
  datatype ImportStrategy = ImportStrategy(primary: string, fallback: string, confidence: int)

  /** `risk_assessment`; import feasibility in thousandths. */
  datatype Risk = Risk(importFeasibility: int, intrusivenessRisk: string, complexity: string)

  /** `llm_analysis` (parsed from the service's reply, or the basic analysis). */
  datatype LlmAnalysis = LlmAnalysis(coreModules: seq<CoreModule>, cliCommands: seq<CliEntry>,
                                     importStrategy: Option<ImportStrategy>,
                                     required: seq<string>, optional: seq<string>,
                                     riskAssessment: Option<Risk>)

  /** Which dependency manifests exist in the repository root or its `source` directory. */
  datatype DependencyFlags = DependencyFlags(environmentYml: bool, requirementsTxt: bool, pyproject: bool,
                                             setupCfg: bool, setupPy: bool)

  /**
   * `analysis.summary`: the ingestion client's digest reduced to its outcome,
   * the failure record written when the client returned nothing, or the empty
   * dictionary left when the client raised.
   */
  datatype IngestSummary = Ingested(success: bool, processedBy: string) | IngestFailed(error: string) | NoSummary

  datatype DeepwikiStatus = DeepwikiSkipped | DeepwikiFailed(error: string) | DeepwikiDone(success: bool)

  datatype Analysis = Analysis(summary: IngestSummary, packages: seq<string>, dependencies: DependencyFlags,
                               entryPoints: seq<CliEntry>, llm: LlmAnalysis, deepwiki: DeepwikiStatus,
                               deepwikiModel: Option<string>, risk: Risk,
                               repositoryName: Option<string>)

  /** The `execution_analysis` and `technical_quality` parts of the final summary. */
  datatype Assessment = Assessment(successFactors: seq<string>, failureReasons: seq<string>,
                                   overall: string, codeQuality: int, architecture: int,
                                   performance: int, maintainability: int)

  datatype FinalSummary = FinalSummary(repoName: string, url: string, localPath: string,
                                       status: Status, workflowStatus: Status,
                                       originalPassed: bool, pluginPassed: bool,
                                       environmentType: string, filesCreated: set<string>,
                                       errors: seq<ErrorRecord>, warnings: seq<string>,
                                       assessment: Assessment)

  datatype State = State(
    repository: Repository,
    options: Options,
    status: Status,
    workflowStatus: Status,
    errors: seq<ErrorRecord>,
    warnings: seq<string>,
    fixRetryCount: nat,
    generationRetryCount: nat,
    errorAnalysis: Diagnosis,
    fixApplied: bool,
    runResult: Option<RunResult>,
    previousRunResults: seq<RunResult>,
    retryReasons: seq<RetryReason>,
    loopSummary: Option<LoopSummary>,
    codeReview: Option<CodeReview>,
    tests: Tests,
    env: Option<Environment>,
    plugin: Option<Plugin>,
    analysis: Option<Analysis>,
    summary: Option<FinalSummary>,
    technicalReport: Option<string>)

  /** Either status reads "failed": the test every router makes first. */
  predicate IsFailed(s: State)
  {
    s.workflowStatus == Failed || s.status == Failed
  }

  /** The InvalidInput record a stage appends before giving up. */
  function InvalidInput(node: string, message: string): ErrorRecord
  {
    ErrorRecord(node, "InvalidInput", None, message, Abort)
  }

  /** A stage's abort: append the record and mark both statuses "failed". */
  function AbortStage(s: State, node: string, message: string): (t: State)
    ensures t.errors == s.errors + [InvalidInput(node, message)]
    ensures t.status == Failed && t.workflowStatus == Failed
    ensures t == s.(errors := t.errors, status := Failed, workflowStatus := Failed)
  {
    s.(errors := s.errors + [InvalidInput(node, message)], status := Failed, workflowStatus := Failed)
  }

  /**
   * Paths and the part of the host's disk the stages look at: which
   * directories and which files exist.
   */
  datatype Disk = Disk(dirs: set<string>, files: set<string>)

  predicate Exists(d: Disk, p: string) { p in d.dirs || p in d.files }

  /** `os.path.join(a, b)`: an absolute `b` replaces `a`; a separator is added only when `a` lacks one. */
  function Join(a: string, b: string): (r: string)
    ensures |b| > 0 && b[0] == '/' ==> r == b
    ensures !(|b| > 0 && b[0] == '/') ==> a <= r && EndsWith(r, b)
  {
    if |b| > 0 && b[0] == '/' then b
    else if a == "" || a[|a| - 1] == '/' then a + b
    else a + "/" + b
  }

  /**
   * `os.path.relpath(p, root)` for normalised absolute paths that start with
   * `root`: "." for the root itself, the remainder for a path inside it, and
   * a step up for a sibling that merely shares the prefix.  Other paths are
   * left as they are.
   */
  function RelPath(p: string, root: string): (r: string)
    ensures root + "/" <= p ==> p == root + "/" + r
  {
    if p == root then "."
    else if root + "/" <= p then p[|root| + 1..]
    else if root <= p then "../" + AfterLast(root, '/') + p[|root|..]
    else p
  }

  predicate AllSlashes(s: string)
  {
    forall i :: 0 <= i < |s| ==> s[i] == '/'
  }

  /**
   * `os.path.dirname`: everything up to the last "/", without the trailing
   * separators unless it consists of nothing else.
   */
  function DirName(p: string): (r: string)
    ensures r <= p
    ensures '/' !in p ==> r == ""
  {
    var head := p[..|p| - |AfterLast(p, '/')|];
    if head == "" || AllSlashes(head) then head else StripRight(head, {'/'})
  }

  /** `write_file(path, ...)`: the file's directory is made and the file exists afterwards. */
  function WithFile(d: Disk, path: string): (r: Disk)
    ensures r.files == d.files + {path} && d.dirs <= r.dirs
  {
    Disk(d.dirs + {DirName(path)}, d.files + {path})
  }

  /** The result of one subprocess as the code receives it. */
  datatype ExecResult = ExecResult(code: int, out: string, err: string)

  /** What the operating system did with a command: it ran, or starting it raised. */
  datatype Proc = Completed(code: int, out: string, err: string) | Raised(message: string)

  /**
   * `_run` in the download, env and run stages: a command that could not be
   * started or timed out is reported as exit code 1 with the exception text on
   * stderr, so the helper never raises.
   */
  function RunCommand(p: Proc): (r: ExecResult)
    ensures p.Raised? ==> r.code == 1 && r.out == "" && r.err == p.message
    ensures p.Completed? ==> r.code == p.code && r.out == p.out && r.err == p.err
  {
    match p
    case Completed(c, o, e) => ExecResult(c, o, e)
    case Raised(m) => ExecResult(1, "", m)
  }

  /** `text[-n:]`: the last `n` characters, or all of them. */
  function Tail(text: string, n: nat): (r: string)
    ensures |r| == if |text| <= n then |text| else n
    ensures EndsWith(text, r)
  {
    if |text| <= n then text else text[|text| - n..]
  }
}
