/**
 * The review stage: after a failing run it asks the generation service for
 * a complete replacement of the file the error points at, writes that file
 * through a temporary file and a rename, and updates the fix counters and
 * statuses the routers read.  The disk the repair writes to is a `FileStore`
 * object: a map from path to text and a set of directories.
 */
module Review {
  import opened Text
  import opened PipelineState
  import opened ResponseText
  import opened GenerationRetry

  /** The default `retries` of `_retry_generate_text`. */
  const RetryCount: nat := 2

  /** The review stage's own cap on failed fixes. */
  const MaxFixAttempts: nat := 5

  /** `state.get("run_result", {}).get("error", "")` */
  function FailureText(s: State): string
  {
    if s.runResult.Some? then RunError(s.runResult.value, "") else ""
  }

  /** `state.get("run_result", {}).get("stderr", "")` */
  function FailureStderr(s: State): string
  {
    if s.runResult.Some? then s.runResult.value.stderr else ""
  }

  // ---------------------------------------------------------------------------
  // The repair of one file
  // ---------------------------------------------------------------------------

  /** The file a repair replaces and its new text. */
  datatype Repair = Repair(path: string, text: string)

  /**
   * What `_fix_error_with_llm` decides to write, before touching the disk.
   * `first` and `second` are the service's replies to the repair request and
   * to the single re-request; `parses` stands for `ast.parse` succeeding.
   */
  function RepairPlan(errorMessage: string, stderr: string, repoRoot: string, disk: Disk,
                      globFirst: Option<string>, walk: seq<(string, string)>,
                      first: nat -> GenReply, second: nat -> GenReply, parses: string -> bool): (r: Option<Repair>)
    ensures r.Some? ==> RetriedText(first, 0, RetryCount) != ""
  {
    var target := InferErrorFilePath(errorMessage, stderr, repoRoot, disk, globFirst, walk);
    PlanFromReply(RetriedText(first, 0, RetryCount), target, repoRoot, second, parses)
  }

  /** `_extract_file_path(response) or target_path`, with "" for neither. */
  function ChosenPath(extracted: Option<string>, target: Option<string>): (p: string)
    ensures Truthy(extracted) ==> p == extracted.value
    ensures !Truthy(extracted) ==> (Truthy(target) <==> p != "") && (Truthy(target) ==> p == target.value)
  {
    if Truthy(extracted) then extracted.value else if Truthy(target) then target.value else ""
  }

  /**
   * The decision once the first reply is in: an empty reply or no path gives
   * up; the reply's own path wins over the inferred one.
   */
  function PlanFromReply(response: string, target: Option<string>, repoRoot: string,
                         second: nat -> GenReply, parses: string -> bool): (r: Option<Repair>)
    ensures r.Some? ==> response != ""
  {
    if response == "" then None
    else
      var filePath := ChosenPath(ExtractFilePath(response), target);
      if filePath == "" then None
      else PlanBody(Join(repoRoot, filePath), ExtractCodeOrPlain(response), second, parses)
  }

  /**
   * The text to write: the extracted body, sanitised; a `.py` target must
   * parse, and after a body that does not, a single re-request is accepted
   * only in the fenced shape.
   */
  function PlanBody(fullPath: string, body: Option<string>, second: nat -> GenReply, parses: string -> bool): (r: Option<Repair>)
    ensures body.None? ==> r.None?
    ensures r.Some? ==> r.value.path == fullPath
    ensures r.Some? ==> '\r' !in r.value.text && |r.value.text| > 0 && r.value.text[|r.value.text| - 1] == '\n'
    ensures r.Some? && EndsWith(fullPath, ".py") ==> parses(r.value.text)
    ensures r.Some? ==> r.value.text == SanitizePythonSource(body.value)
                        || (var fenced := ExtractCodeBlock(RetriedText(second, 0, RetryCount));
                            fenced.Some? && fenced.value != "" && r.value.text == SanitizePythonSource(fenced.value))
  {
    match body
    case None => None
    case Some(b) =>
      var text := SanitizePythonSource(b);
      if !EndsWith(fullPath, ".py") || parses(text) then Some(Repair(fullPath, text))
      else SecondAttempt(fullPath, second, parses)
  }

  /** The re-request after a body that does not parse. */
  function SecondAttempt(fullPath: string, second: nat -> GenReply, parses: string -> bool): (r: Option<Repair>)
    ensures r.Some? ==> r.value.path == fullPath && parses(r.value.text)
  {
    var again := RetriedText(second, 0, RetryCount);
    if again == "" then None
    else
      var fenced := ExtractCodeBlock(again);
      if fenced.None? || fenced.value == "" then None
      else
        var text := SanitizePythonSource(fenced.value);
        if parses(text) then Some(Repair(fullPath, text)) else None
  }

  /** Each of the ways the repair gives up yields no plan, so nothing is written. */
  lemma RepairRefusals(response: string, target: Option<string>, repoRoot: string,
                       second: nat -> GenReply, parses: string -> bool)
    ensures response == "" ==> PlanFromReply(response, target, repoRoot, second, parses).None?
    ensures !Truthy(ExtractFilePath(response)) && !Truthy(target) ==> PlanFromReply(response, target, repoRoot, second, parses).None?
    ensures ExtractCodeOrPlain(response).None? ==> PlanFromReply(response, target, repoRoot, second, parses).None?
    ensures (forall t :: !parses(t)) && EndsWith(Join(repoRoot, ChosenPath(ExtractFilePath(response), target)), ".py")
            ==> PlanFromReply(response, target, repoRoot, second, parses).None?
  {
  }

  /** A planned repair goes to the path the reply names, or else to the inferred one, under the repository. */
  lemma RepairTarget(response: string, target: Option<string>, repoRoot: string,
                     second: nat -> GenReply, parses: string -> bool)
    requires PlanFromReply(response, target, repoRoot, second, parses).Some?
    ensures var path := PlanFromReply(response, target, repoRoot, second, parses).value.path;
            && (Truthy(ExtractFilePath(response)) ==> path == Join(repoRoot, ExtractFilePath(response).value))
            && (!Truthy(ExtractFilePath(response)) ==> Truthy(target) && path == Join(repoRoot, target.value))
  {
  }

  /** `os.makedirs(d, exist_ok=True)` raises when `d` or one of its ancestors is a regular file. */
  predicate Blocked(files: map<string, string>, d: string)
  {
    exists f :: f in files && (f == d || f + "/" <= d)
  }

  /**
   * Whether the directory creation and the rename onto `path` go through:
   * `os.makedirs("")` raises, and `os.replace` onto a directory fails;
   * `refused` stands for the operating system rejecting the rename for a
   * reason the model does not track.
   */
  predicate WriteSucceeds(files: map<string, string>, dirs: set<string>, path: string, refused: bool)
  {
    var d := DirName(path);
    d != "" && !Blocked(files, d) && path !in dirs + {d} && !refused
  }

  /**
   * How a repair ends on a store holding `files0` and `dirs0`: it reports
   * success exactly when there is a plan and its write goes through, and
   * then only the target has changed; otherwise no file has changed.
   */
  predicate RepairOutcome(files0: map<string, string>, dirs0: set<string>, plan: Option<Repair>,
                          refused: bool, ok: bool, files: map<string, string>)
  {
    && (ok <==> plan.Some? && WriteSucceeds(files0, dirs0, plan.value.path, refused))
    && (ok ==> files == files0[plan.value.path := plan.value.text])
    && (!ok ==> files == files0)
  }

  /** The disk as the code's existence checks see it. */
  function DiskOf(files: map<string, string>, dirs: set<string>): (d: Disk)
    ensures d.dirs == dirs && d.files == files.Keys
  {
    Disk(dirs, files.Keys)
  }

  /** The files and directories the repair path reads and writes. */
  class FileStore {
    var files: map<string, string>
    var dirs: set<string>

    constructor (files0: map<string, string>, dirs0: set<string>)
      ensures files == files0 && dirs == dirs0
    {
      files := files0;
      dirs := dirs0;
    }

    /**
     * `_fix_error_with_llm`: decide what to write, then write it through a
     * temporary file and a rename.  The result is true only after a
     * successful rename, and then exactly the target has changed.
     */
    method FixErrorWithLlm(errorMessage: string, stderr: string, repoRoot: string,
                           globFirst: Option<string>, walk: seq<(string, string)>,
                           first: nat -> GenReply, second: nat -> GenReply, parses: string -> bool,
                           tmpBase: string, refused: bool) returns (ok: bool)
      modifies this
      requires tmpBase != "" && '/' !in tmpBase
      requires forall f :: f in files ==> AfterLast(f, '/') != tmpBase
      ensures var plan := RepairPlan(errorMessage, stderr, repoRoot, DiskOf(old(files), old(dirs)),
                                     globFirst, walk, first, second, parses);
              RepairOutcome(old(files), old(dirs), plan, refused, ok, files)
              && (plan.None? ==> dirs == old(dirs))
    {
      var plan := PlanRepair(errorMessage, stderr, repoRoot, DiskOf(files, dirs), globFirst, walk, first, second, parses);
      if plan.None? {
        return false;
      }
      ok := WriteAtomically(plan.value.path, plan.value.text, tmpBase, refused);
    }

    /**
     * The write: `os.makedirs` on the target's directory, the text into a
     * temporary file named `tmpBase` there, and `os.replace` onto the target;
     * when the rename fails the temporary file is removed.  The operating
     * system picks `tmpBase` so that no existing file has it as its name.
     */
    method WriteAtomically(path: string, text: string, tmpBase: string, refused: bool) returns (ok: bool)
      modifies this
      requires tmpBase != "" && '/' !in tmpBase
      requires forall f :: f in files ==> AfterLast(f, '/') != tmpBase
      ensures ok <==> WriteSucceeds(old(files), old(dirs), path, refused)
      ensures ok ==> files == old(files)[path := text]
      ensures !ok ==> files == old(files)
      ensures dirs == if DirName(path) != "" && !Blocked(old(files), DirName(path))
                      then old(dirs) + {DirName(path)} else old(dirs)
    {
      var dir := DirName(path);
      if dir == "" || Blocked(files, dir) {
        return false;
      }
      dirs := dirs + {dir};
      var tmp := Join(dir, tmpBase);
      TempNameIsFresh(dir, tmpBase, files);
      RenameOnto(files, tmp, path, text);
      files := files[tmp := text];
      if path in dirs || refused {
        files := files - {tmp};
        return false;
      }
      files := (files - {tmp})[path := text];
      ok := true;
    }

    /**
     * `_apply_incremental_fixes`: no repair without the service, without any
     * error text, or without a repository root.
     */
    method ApplyIncrementalFixes(s: State, serviceUp: bool,
                                 globFirst: Option<string>, walk: seq<(string, string)>,
                                 first: nat -> GenReply, second: nat -> GenReply, parses: string -> bool,
                                 tmpBase: string, refused: bool) returns (ok: bool)
      modifies this
      requires tmpBase != "" && '/' !in tmpBase
      requires forall f :: f in files ==> AfterLast(f, '/') != tmpBase
      ensures !FixAttempted(s, serviceUp) ==> !ok && files == old(files) && dirs == old(dirs)
      ensures FixAttempted(s, serviceUp) ==>
                RepairOutcome(old(files), old(dirs),
                              RepairPlan(FailureText(s), FailureStderr(s), RepoRoot(s.repository).value,
                                         DiskOf(old(files), old(dirs)), globFirst, walk, first, second, parses),
                              refused, ok, files)
    {
      if !FixAttempted(s, serviceUp) {
        return false;
      }
      ok := FixErrorWithLlm(FailureText(s), FailureStderr(s), RepoRoot(s.repository).value,
                            globFirst, walk, first, second, parses, tmpBase, refused);
    }

    /**
     * `review_node`: the stage's state update, with the repair it attempts
     * for a failing run carried out on this store.  `ensure_directory`
     * creates `mcp_output` first, so the repair's search sees it.
     */
    method ReviewNode(s: State, serviceUp: bool,
                      globFirst: Option<string>, walk: seq<(string, string)>,
                      first: nat -> GenReply, second: nat -> GenReply, parses: string -> bool,
                      tmpBase: string, refused: bool) returns (t: State, fixed: bool)
      modifies this
      requires tmpBase != "" && '/' !in tmpBase
      requires forall f :: f in files ==> AfterLast(f, '/') != tmpBase
      ensures t == ReviewStage(s, DiskOf(old(files), old(dirs)), serviceUp, fixed)
      ensures !RootIsDir(s, DiskOf(old(files), old(dirs))) ==> !fixed && files == old(files) && dirs == old(dirs)
      ensures RootIsDir(s, DiskOf(old(files), old(dirs))) && (RunSucceeded(s.runResult) || !FixAttempted(s, serviceUp))
              ==> !fixed && files == old(files)
      ensures RootIsDir(s, DiskOf(old(files), old(dirs))) && !RunSucceeded(s.runResult) && FixAttempted(s, serviceUp) ==>
                var dirs1 := old(dirs) + {Join(RepoRoot(s.repository).value, "mcp_output")};
                RepairOutcome(old(files), dirs1,
                              RepairPlan(FailureText(s), FailureStderr(s), RepoRoot(s.repository).value,
                                         DiskOf(old(files), dirs1), globFirst, walk, first, second, parses),
                              refused, fixed, files)
    {
      if !RootIsDir(s, DiskOf(files, dirs)) {
        return ReviewStage(s, DiskOf(files, dirs), serviceUp, false), false;
      }
      var disk0 := DiskOf(files, dirs);
      dirs := dirs + {Join(RepoRoot(s.repository).value, "mcp_output")};
      fixed := false;
      if !RunSucceeded(s.runResult) {
        fixed := ApplyIncrementalFixes(s, serviceUp, globFirst, walk, first, second, parses, tmpBase, refused);
      }
      t := ReviewStage(s, disk0, serviceUp, fixed);
    }
  }

  /**
   * The decision part of `_fix_error_with_llm`, with the two rounds of
   * requests made through the retry loop.
   */
  method PlanRepair(errorMessage: string, stderr: string, repoRoot: string, disk: Disk,
                    globFirst: Option<string>, walk: seq<(string, string)>,
                    first: nat -> GenReply, second: nat -> GenReply, parses: string -> bool)
    returns (plan: Option<Repair>)
    ensures plan == RepairPlan(errorMessage, stderr, repoRoot, disk, globFirst, walk, first, second, parses)
  {
    var target := InferErrorFilePath(errorMessage, stderr, repoRoot, disk, globFirst, walk);
    var response, _, _ := RetryGenerateText(first, RetryCount);
    if response == "" {
      return None;
    }
    var filePath := ChosenPath(ExtractFilePath(response), target);
    if filePath == "" {
      return None;
    }
    var fullPath := Join(repoRoot, filePath);
    var body := ExtractCodeOrPlain(response);
    if body.None? {
      return None;
    }
    var text := SanitizePythonSource(body.value);
    if !EndsWith(fullPath, ".py") || parses(text) {
      return Some(Repair(fullPath, text));
    }
    var again, _, _ := RetryGenerateText(second, RetryCount);
    if again == "" {
      return None;
    }
    var fenced := ExtractCodeBlock(again);
    if fenced.None? || fenced.value == "" {
      return None;
    }
    var retried := SanitizePythonSource(fenced.value);
    plan := if parses(retried) then Some(Repair(fullPath, retried)) else None;
  }

  /** Writing a fresh temporary entry and then removing it, or renaming it onto `path`. */
  lemma RenameOnto(m: map<string, string>, tmp: string, path: string, text: string)
    requires tmp !in m
    ensures m[tmp := text] - {tmp} == m
    ensures (m[tmp := text] - {tmp})[path := text] == m[path := text]
  {
    assert m[tmp := text] - {tmp} == m;
  }

  /** A temporary name no existing file carries is not yet a file in any directory. */
  lemma TempNameIsFresh(dir: string, tmpBase: string, files: map<string, string>)
    requires tmpBase != "" && '/' !in tmpBase
    requires forall f :: f in files ==> AfterLast(f, '/') != tmpBase
    ensures Join(dir, tmpBase) !in files
  {
    var t := Join(dir, tmpBase);
    if dir == "" || dir[|dir| - 1] == '/' {
      assert t == dir + tmpBase;
      AfterLastAppend(dir, tmpBase, '/');
    } else {
      assert t == (dir + "/") + tmpBase;
      AfterLastAppend(dir + "/", tmpBase, '/');
    }
    assert AfterLast(t, '/') == tmpBase;
  }

  // ---------------------------------------------------------------------------
  // The stage's state update
  // ---------------------------------------------------------------------------

  /** `repo_root` is recorded and names an existing directory. */
  predicate RootIsDir(s: State, disk: Disk)
  {
    Truthy(RepoRoot(s.repository)) && RepoRoot(s.repository).value in disk.dirs
  }

  /**
   * `_apply_incremental_fixes` gets as far as `_fix_error_with_llm`: the
   * service is there, the run left an error text or some stderr, and the
   * repository root is known.
   */
  predicate FixAttempted(s: State, serviceUp: bool)
  {
    serviceUp && (FailureText(s) != "" || FailureStderr(s) != "") && Truthy(RepoRoot(s.repository))
  }

  /**
   * `_intelligent_error_analysis`: the state it leaves and the analysis it
   * returns.  `serviceUp` says whether `get_llm_service()` succeeds; when it
   * raises the analysis is `{}`.  For a failing run it zeroes the fix counter,
   * marks both statuses "failed" and returns the state itself, which has none
   * of the keys the routers read.  Only a passing run would reach the
   * service, whose reply parses to `parsed`.
   */
  function IntelligentErrorAnalysis(s: State, serviceUp: bool, parsed: Diagnosis): (r: (State, Diagnosis))
    ensures !RunSucceeded(s.runResult) ==> (r.1 != Diagnosis(None, None, None) <==> !serviceUp)
  {
    if !serviceUp then (s, NoDiagnosis)
    else if !RunSucceeded(s.runResult) then
      (s.(fixRetryCount := 0, workflowStatus := Failed, status := Failed), Diagnosis(None, None, None))
    else (s, parsed)
  }

  /** For a failing run the analysis never depends on what the service would have said. */
  lemma FailingRunAnalysisIgnoresReply(s: State, serviceUp: bool, p: Diagnosis, q: Diagnosis)
    requires !RunSucceeded(s.runResult)
    ensures IntelligentErrorAnalysis(s, serviceUp, p) == IntelligentErrorAnalysis(s, serviceUp, q)
    ensures serviceUp ==> IsFailed(IntelligentErrorAnalysis(s, serviceUp, p).0)
  {
  }

  /** `error_analysis.get("summary", "")` */
  function RootCause(d: Diagnosis): string
  {
    if d.Diagnosis? && d.summary.Some? then d.summary.value else ""
  }

  /**
   * `review_node` once the repair has been tried; `fixed` is its outcome,
   * which counts only when the repair was attempted at all (`FixAttempted`):
   * otherwise `_apply_incremental_fixes` returns False before trying.
   * The analysis' reply is never consulted for a failing run (see
   * `FailingRunAnalysisIgnoresReply`), so it is passed as `{}`.
   */
  function ReviewStage(s: State, disk: Disk, serviceUp: bool, fixed: bool): (t: State)
  {
    if !RootIsDir(s, disk) then AbortStage(s, "ReviewNode", "repo_root path missing")
    else if RunSucceeded(s.runResult) then RuntimeOk(s)
    else
      var (u, diagnosis) := IntelligentErrorAnalysis(s, serviceUp, NoDiagnosis);
      if fixed && FixAttempted(s, serviceUp) then FixApplied(u, diagnosis) else FixFailed(u, diagnosis)
  }

  /**
   * A repair is counted as applied only when it was attempted: without the
   * service, an error text or a repository root the outcome reported for
   * the repair makes no difference.
   */
  lemma ReviewFixNeedsAttempt(s: State, disk: Disk, serviceUp: bool)
    requires !FixAttempted(s, serviceUp)
    ensures ReviewStage(s, disk, serviceUp, true) == ReviewStage(s, disk, serviceUp, false)
    ensures !ReviewStage(s, disk, serviceUp, true).fixApplied || s.fixApplied
  {
  }

  /** A passing run: the fix counter is reset and the summary points at the final stage. */
  function RuntimeOk(s: State): State
  {
    s.(fixRetryCount := 0,
       loopSummary := Some(LoopSummary("runtime_ok", NoDiagnosis, "", "none", [], "finalize")),
       status := Running)
  }

  /** A repair went through: the counter is reset and the run is to be repeated. */
  function FixApplied(u: State, diagnosis: Diagnosis): State
  {
    u.(errorAnalysis := diagnosis, fixRetryCount := 0, fixApplied := true,
       loopSummary := Some(LoopSummary("runtime_fix", diagnosis, RootCause(diagnosis), "applied", [], "re-run tests")),
       status := Running)
  }

  /**
   * No repair: one more attempt is counted; at the cap both statuses become
   * "failed", below it the run result moves to the history.
   */
  function FixFailed(u: State, diagnosis: Diagnosis): State
  {
    var count := u.fixRetryCount + 1;
    if count >= MaxFixAttempts then
      u.(errorAnalysis := diagnosis, fixRetryCount := count, workflowStatus := Failed, status := Failed)
    else
      u.(errorAnalysis := diagnosis, fixRetryCount := count,
         loopSummary := Some(LoopSummary("runtime_fix", diagnosis, RootCause(diagnosis), "failed",
                                         ["further regeneration may be needed"], "analyze generation or deps")),
         previousRunResults := u.previousRunResults + Listed(u.runResult),
         runResult := None,
         codeReview := Some(CodeReview(50, 1, ["Direct fix failed, automatic fix retry recorded"], diagnosis)),
         status := Running)
  }

  /** The stage never touches the generation counter and never drops a recorded error. */
  lemma ReviewKeepsHistory(s: State, disk: Disk, serviceUp: bool, fixed: bool)
    ensures var t := ReviewStage(s, disk, serviceUp, fixed);
            t.generationRetryCount == s.generationRetryCount && s.errors <= t.errors
  {
    var t := ReviewStage(s, disk, serviceUp, fixed);
    if !RootIsDir(s, disk) {
      assert t.errors == s.errors + [InvalidInput("ReviewNode", "repo_root path missing")];
    } else {
      assert t.errors == s.errors;
    }
  }

  /** Without a usable repository root the stage only records the abort. */
  lemma ReviewAborts(s: State, disk: Disk, serviceUp: bool, fixed: bool)
    requires !RootIsDir(s, disk)
    ensures var t := ReviewStage(s, disk, serviceUp, fixed);
            && t.errors == s.errors + [InvalidInput("ReviewNode", "repo_root path missing")]
            && t.status == Failed && t.workflowStatus == Failed
            && t.fixRetryCount == s.fixRetryCount && t.runResult == s.runResult
  {
  }

  /**
   * With the service available, a failing run always leaves the pipeline
   * failed, even when the repair went through: the analysis' early branch
   * has already marked both statuses and only `status` is set back.
   */
  lemma ReviewFailingRunStopsPipeline(s: State, disk: Disk, fixed: bool)
    requires RootIsDir(s, disk) && !RunSucceeded(s.runResult)
    ensures var t := ReviewStage(s, disk, true, fixed);
            && t.workflowStatus == Failed && t.status == Running
            && t.errorAnalysis == Diagnosis(None, None, None)
            && t.fixRetryCount == (if fixed && FixAttempted(s, true) then 0 else 1)
            && (fixed && FixAttempted(s, true) ==> t.fixApplied)
  {
  }

  /**
   * A failed fix counts one more attempt (always the first, when the
   * analysis zeroed the counter); at the cap both statuses become "failed",
   * below it the run result is moved to the history.
   */
  lemma ReviewFailedFixCounter(s: State, disk: Disk, serviceUp: bool)
    requires RootIsDir(s, disk) && !RunSucceeded(s.runResult)
    ensures var t := ReviewStage(s, disk, serviceUp, false);
            && t.fixRetryCount == (if serviceUp then 1 else s.fixRetryCount + 1)
            && (t.fixRetryCount >= MaxFixAttempts <==> t.status == Failed)
            && (t.fixRetryCount >= MaxFixAttempts ==> t.workflowStatus == Failed && t.runResult == s.runResult)
            && (t.fixRetryCount < MaxFixAttempts ==>
                  t.runResult.None? && t.previousRunResults == s.previousRunResults + Listed(s.runResult))
            && t.errors == s.errors
  {
  }

  /** With the service available the failed-fix cap is never reached. */
  lemma ReviewCapUnreachable(s: State, disk: Disk, fixed: bool)
    requires RootIsDir(s, disk) && !RunSucceeded(s.runResult)
    ensures ReviewStage(s, disk, true, fixed).fixRetryCount < MaxFixAttempts
  {
  }

  /** A passing run resets the fix counter and hands on to the next stage unchanged otherwise. */
  lemma ReviewPassingRun(s: State, disk: Disk, serviceUp: bool, fixed: bool)
    requires RootIsDir(s, disk) && RunSucceeded(s.runResult)
    ensures var t := ReviewStage(s, disk, serviceUp, fixed);
            && t.fixRetryCount == 0 && t.status == Running && t.workflowStatus == s.workflowStatus
            && t.errors == s.errors && t.errorAnalysis == s.errorAnalysis && t.runResult == s.runResult
            && t.loopSummary.Some? && t.loopSummary.value.task == "runtime_ok"
  {
  }
}
