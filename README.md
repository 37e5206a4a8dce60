# Code2MCP pipeline, modelled in Dafny

Code2MCP turns a code repository into a Model Context Protocol (MCP) service. A seven-stage graph
does the work:

1. **download** clones the repository.
2. **analysis** scans its packages and entry points, with the help of gitingest, DeepWiki and a
   generation service.
3. **env** provisions a conda or venv environment and installs the dependencies.
4. **generate** writes the MCP plugin.
5. **run** smoke-tests the plugin.
6. **review** diagnoses a failed run and lets the generation service patch the offending file.
7. **finalize** writes the summary and the reports.

Routers between the stages end the run once a stage has marked it failed. They send the run back
from review to run, to review again or to generate, within fixed retry budgets.

This project models that core:

- the routers of src/workflow.py;
- the predicates and retry loops of src/utils.py;
- the seven stages;
- the gitingest and DeepWiki clients;
- the command-line entry point (main.py).

It proves what the code promises about each of them.

How the model is built:

- **The workflow state** is a `PipelineState.State` value that each stage maps to a new one.
- **The disk** is a value (`Disk`) threaded through the stages.
- **Commands** go through a `Shell` object that logs them and reads their results from an oracle.
- **Outside calls** (generation-service replies, subprocess outcomes, the network and the clock)
  are parameters.
- **Imperative code** keeps its form: every loop in the source is a `method` with a `while` loop,
  proved equal to a specification function. The properties are proved about that function.
  This covers the retry loops, the greedy file selection, the zip extraction, the `.env` loader,
  the override assembly and the graph driver.

Scaled integers stand in for Python floats:

- confidences are in thousandths (the 0.3 floor is 300);
- token estimates are in tenths (`1.3 * len` becomes `13 * len` compared with `10 * max_tokens`);
- file scores are in thousandths (`priority + size / 1000` becomes `1000 * priority + size`).

Module layout (one file each):

| module | file | models |
|---|---|---|
| `Text` | text.dfy | Python string operations used throughout |
| `PipelineState` | state.dfy | the workflow state and disk |
| `Shell` | shell.dfy | the `_run` helpers' command log |
| `Utils` | utils.dfy | src/utils.py |
| `GenerationRetry` | generation_retry.dfy | `_retry_generate_text` |
| `ResponseText` | response_text.dfy | the review stage's text extraction |
| `Review` | review.dfy | review stage |
| `RunStage` | run.dfy | run stage |
| `EnvYml`, `EnvProvision`, `EnvStage` | env_yml.dfy, env_provision.dfy, env.dfy | env stage |
| `Download` | download.dfy | download stage |
| `PackageScan`, `EntryPoints`, `AnalysisStage` | package_scan.dfy, entry_points.dfy, analysis.dfy | analysis stage |
| `AnalysisPrune`, `GenerateStage` | prune.dfy, generate.dfy | generate stage |
| `Finalize` | finalize.dfy | finalize stage |
| `Workflow` | workflow.dfy | routers and graph driver |
| `Gitingest` | gitingest.dfy | gitingest client |
| `Deepwiki` | deepwiki.dfy | DeepWiki client |
| `Cli` | cli.dfy | main.py |

## Model

| member | source | states |
|---|---|---|
| Shell.Shell.Run | src/nodes/download_node.py:11-24 | `_run`: the command is appended to the log; its result is the completed process's code and output, or exit code 1, empty stdout and the exception text when it could not run |
| PipelineState.RunCommand | src/nodes/download_node.py:11-24 | a raised process gives code 1, empty stdout and the message on stderr; a completed one is passed through |
| PipelineState.AbortStage | src/nodes/analysis_node.py:241-252 | a stage abort appends exactly one error record and sets both statuses to "failed", changing nothing else |
| Utils.AnyCritical | src/utils.py:517-523 | the loop over `errors` is true iff some error is high/critical or mentions "No module named" or "ImportError" |
| Utils.HasCriticalErrors | src/utils.py:498-525 | a missing or failed run result is critical by itself; after a successful run the answer is whether some error is critical |
| Utils.ShouldRetryGeneration | src/utils.py:527-529 | retry only below the limit and with critical errors; below the limit, any failed run means retry |
| Utils.ShouldStopWorkflow | src/utils.py:531-543 | an empty analysis never stops; "environment_fix" stops first; otherwise the run stops iff the confidence (default 0.5) is below 0.3 |
| Utils.KeylessDiagnosisNeverStops | src/utils.py:531-543 | a diagnosis with none of the keys (the one the review stage stores) never stops the run |
| Utils.KeepIdentChars | src/utils.py:307 | the comprehension keeps only letters, digits and underscores, and never grows |
| Utils.SafeModuleStem | src/utils.py:308-311 | the stem is non-empty, made of identifier characters, and never starts with a digit |
| Utils.SafeModuleName | src/utils.py:306-312 | the result is a non-empty lower-case identifier not starting with a digit; it is "mcp_service" when nothing survives, else it ends with the kept characters lower-cased |
| Utils.SafeModuleNameIdempotent | src/utils.py:306-312 | applying `safe_module_name` to its own result changes nothing |
| Utils.TruncateTextAsWritten | src/utils.py:374-377 | `truncate_text` as written: a text that fits is unchanged; a longer one ends with the suffix |
| Utils.TruncateAsWrittenOverflows | src/utils.py:377 | with a limit below the suffix length the result ("abcdef", 2) is "abcde...", longer than the limit |
| Utils.TruncateText | src/utils.py:374-377 | the corrected truncation never exceeds the limit; with room for the suffix it is exactly the limit long, a prefix of the text plus the suffix |
| Utils.TruncateTextAgrees | src/utils.py:374-377 | wherever the limit leaves room for the suffix, the corrected and as-written versions agree |
| Utils.BackoffClosedForm | src/utils.py:407-417 | the j-th pause of `retry_async` is `delay * backoff^j` |
| Utils.RetryAsync | src/utils.py:401-421 | at most `max_retries + 1` calls, every call before the last failed; returns the first success iff one exists within the budget, else re-raises the last error; pauses follow the backoff |
| Utils.CourseFrom | src/utils.py:137-190 | the retry count only grows along the loop of `invoke` |
| Utils.ThrottlePauseBounded | src/utils.py:169-173 | a throttling pause (base 1 s doubling, capped at 60 s, plus up to 10% jitter) lies between 1 and 66 seconds |
| Utils.CourseBounds | src/utils.py:137-190 | at most `max_retries + 1` retries are counted; an answer comes after at most `max_retries`; each retry is preceded by exactly one pause, numbered in order |
| Utils.CourseFailureAccounting | src/utils.py:159-186 | with the AWS library an exhausted or non-retryable call counts one failure; an answered call none; without it (the `ClientError` name is unbound) the first failure escapes with nothing counted |
| Utils.ExhaustedRetriesRaise | src/utils.py:180-186 | when every request within the budget fails retryably, the call raises with `max_retries + 1` retries counted |
| Utils.LlmService.constructor | src/utils.py:74-85 | a new service starts with every counter at zero |
| Utils.LlmService.Invoke | src/utils.py:108-190 | `invoke` follows `CourseFrom`: one more call, the retries and failure it counts, and token totals that move only when an answer comes back |
| GenerationRetry.RetryDelayValues | src/nodes/generate_node.py:20-24 | the pauses are 1, 2 and then 4 seconds |
| GenerationRetry.RetriedTextIsFirstAnswer | src/nodes/generate_node.py:10-24 | the result is the first non-empty reply; when none comes, what the last attempt left ("" or the exception text) |
| GenerationRetry.RetryGenerateText | src/nodes/review_node.py:11-26 | `_retry_generate_text` (both copies): between 1 and `retries + 1` calls, stopping at the first answer; one pause per failed call except the last |
| Workflow.RouteOrEnd | src/workflow.py:17-20 | the end iff either status reads "failed", the given stage otherwise |
| Workflow.RouteAfterRun | src/workflow.py:34-52 | a failed state ends the run untouched; otherwise the review stage comes next, with exactly one "RunNode" error appended when the run failed and nothing changed when it succeeded |
| Workflow.MarkFailed | src/workflow.py:61-62 | both statuses read "failed" |
| Workflow.RouteAfterReviewCases | src/workflow.py:54-92 | after review: a failed state ends; a stopping diagnosis marks failure and ends; no diagnosis goes to finalize; back to run iff a fix was applied while running (clearing the diagnosis and the flag); review again below 10 fix retries; generate only with critical errors below 5 generation retries; every end is failed; never back to download, analysis or env |
| Workflow.RoutersStopOnFailure | src/workflow.py:17-95 | every router ends a failed run untouched; after finalize the run always ends; otherwise download→analysis→env→generate→run→review |
| Workflow.DownloadStep | src/workflow.py:109 | the download stage leaves the diagnosis and the analysis alone and never marks success |
| Workflow.AnalysisStep | src/nodes/analysis_node.py:316-318 | the analysis stage raises exactly when its inputs are there and no service is configured (`get_llm_service()` is outside any `try`); otherwise it leaves the diagnosis alone and never marks success |
| Workflow.AnalysisWithoutService | src/nodes/analysis_node.py:244-318 | without a configured service the analysis stage raises, or fails at its input check and records no analysis |
| Workflow.EnvStep | src/workflow.py:111 | the env stage leaves the diagnosis alone and never marks success |
| Workflow.GenerateStep | src/workflow.py:112 | the generate stage raises exactly when no repository root was recorded; otherwise it leaves the diagnosis alone and never marks success |
| Workflow.RunStep | src/workflow.py:113 | the run stage leaves the diagnosis alone and never marks success |
| Workflow.ReviewStep | src/workflow.py:114 | entered without a diagnosis, review leaves a failed state or still no diagnosis, and never marks success; a fix is newly marked applied only when the repair reported success and was attempted at all |
| Workflow.FinalizeStep | src/workflow.py:115 | finalize marks success only with a passing plugin test and a summary |
| Workflow.Drive | src/workflow.py:116-122 | the graph driver (one stage and one router per turn) computes `RunFrom` |
| Workflow.InitialNameSettled | src/workflow.py:126 | the name `run_workflow` derives from the address is replaced by the download stage's own derivation |
| Workflow.InitialState | src/workflow.py:127-140 | the initial state is running on both statuses, with empty lists, zero counters, no diagnosis, and the address |
| Workflow.RunWorkflow | src/workflow.py:124-151 | success iff the final `workflow_status` is "success"; an exception leaves no state and no success |
| Workflow.EarlyStageForward | src/workflow.py:116-122 | each stage before review is followed by a later stage or the end |
| Workflow.ReviewForward | src/workflow.py:54-92 | entered without a diagnosis, review is followed by finalize or the end |
| Workflow.NodeForward | src/workflow.py:105-122 | every stage is followed by a later one or the end, and what holds on entry holds again |
| Workflow.StagesGoForward | src/workflow.py:105-122 | in the assembled graph no stage is visited twice |
| Workflow.RunFromFinishes | src/workflow.py:105-122 | a run that goes forward ends or raises within the stages that remain |
| Workflow.PipelineRunsStraightThrough | src/workflow.py:124-151 | from the initial state the graph takes at most seven steps, so no step limit of seven or more is reached |
| Workflow.WithoutServiceNoPlugin | src/workflow.py:124-151 | without a configured service the graph raises in the analysis stage ("Workflow exception", no state) or ends failed before any analysis is recorded; it never reports success, and the review stage is never entered |
| Workflow.RunWorkflowMethod | src/workflow.py:124-151 | the driver loop as `run_workflow` uses it computes `RunWorkflow` |
| ResponseText.StripCodeFences | src/nodes/review_node.py:376-380 | `_clean_llm_output` never lengthens the text and leaves no whitespace at either end |
| ResponseText.StripCodeFencesPlain | src/nodes/review_node.py:376-380 | text without a backtick is only stripped |
| ResponseText.StripCodeFencesWrapped | src/nodes/review_node.py:376-380 | a body wrapped in a ```` ``` ```` or ```` ```python ```` fence comes back stripped: fence removal inverts fencing |
| ResponseText.ExtractFilePath | src/nodes/review_node.py:227-236 | a found path holds no line break, and the "File path:" label wins over a `+++` patch header |
| ResponseText.ExtractFilePathRoundTrip | src/nodes/review_node.py:227-236 | a reply whose first line is "File path: p" (p free of quotes, backticks and line breaks, not padded) yields exactly p |
| ResponseText.ExtractCodeBlock | src/nodes/review_node.py:241-246 | a block is found only in text holding a fence |
| ResponseText.NoBlockWithoutBacktick | src/nodes/review_node.py:241-246 | text without a backtick has no code block |
| ResponseText.ExtractCodeBlockRoundTrip | src/nodes/review_node.py:241-246 | a body with no fence line, fenced with or without the `python` tag, is extracted exactly |
| ResponseText.ExtractCodeOrPlain | src/nodes/review_node.py:249-258 | a fenced block wins; empty text gives nothing |
| ResponseText.ExtractPlainRoundTrip | src/nodes/review_node.py:249-258 | a "File path:" line followed by an unfenced body yields the body's lines joined by newlines |
| ResponseText.SanitizePythonSource | src/nodes/review_node.py:382-386 | the result has no carriage return and ends with exactly the newline it needs; "" becomes "\n" |
| ResponseText.SanitizeIdempotent | src/nodes/review_node.py:382-386 | sanitising twice is sanitising once, unless the text starts with two byte-order marks |
| ResponseText.SanitizeTwoMarks | src/nodes/review_node.py:382-386 | only one leading byte-order mark is dropped, so two marks make the function non-idempotent |
| ResponseText.MissingImportInfo | src/nodes/review_node.py:284-290 | a match has a non-empty name, module and path |
| ResponseText.MissingImportRoundTrip | src/nodes/review_node.py:284-290 | "cannot import name 'n' from 'm' (p)" yields (n, m, p) for quote-free n, m and a p without ')' |
| ResponseText.FirstPyPath | src/nodes/review_node.py:295-297 | the first match is a piece of the text ending in ".py" |
| ResponseText.FirstMentioning | src/nodes/review_node.py:336-349 | a hit is the path, relative to the root, of a walked ".py" file |
| ResponseText.InferErrorFilePath | src/nodes/review_node.py:292-351 | no ".py" mention in the error text means no target file |
| Review.ChosenPath | src/nodes/review_node.py:161-164 | the path named in the reply wins; else the inferred target; neither gives no path |
| Review.PlanBody | src/nodes/review_node.py:173-201 | a planned write targets the chosen path with sanitised text (no carriage return, newline-terminated); a ".py" target always parses, taken from the first reply or else from the fenced block of the protocol retry |
| Review.SecondAttempt | src/nodes/review_node.py:182-201 | the protocol retry yields a write only of text that parses, to the first path |
| Review.PlanFromReply | src/nodes/review_node.py:157-201 | a write is planned only from a non-empty reply |
| Review.RepairRefusals | src/nodes/review_node.py:157-201 | no plan from an empty reply, from a reply with neither a path nor an inferred target, from one with no extractable code, or for a ".py" target when nothing parses |
| Review.RepairTarget | src/nodes/review_node.py:161-165 | a planned write lands at the root joined with the reply's path, else with the inferred target |
| Review.RepairPlan | src/nodes/review_node.py:111-225 | a plan exists only when the first reply of `_retry_generate_text` was non-empty |
| Review.PlanRepair | src/nodes/review_node.py:111-201 | the planning half of `_fix_error_with_llm` computes `RepairPlan` |
| Review.TempNameIsFresh | src/nodes/review_node.py:204-208 | the temporary file never overwrites an existing one |
| Review.FileStore.constructor | src/nodes/review_node.py:202-219 | the store starts with the given files and directories |
| Review.FileStore.WriteAtomically | src/nodes/review_node.py:202-219 | the temp-file-then-replace write succeeds exactly when it is allowed; then only the target changes, else no file changes; the parent directory is created when it can be |
| Review.FileStore.FixErrorWithLlm | src/nodes/review_node.py:111-225 | true exactly when there is a plan and its write succeeds; then only the target file changes, otherwise no file does |
| Review.FileStore.ApplyIncrementalFixes | src/nodes/review_node.py:87-109 | without the service, an error text or a root nothing changes and false is returned; otherwise the outcome is that of the repair |
| Review.IntelligentErrorAnalysis | src/nodes/review_node.py:28-85 | for a failing run the analysis is keyless exactly when the service is reachable (the state itself, with none of the router's keys, is returned), and `{}` when it is not |
| Review.FailingRunAnalysisIgnoresReply | src/nodes/review_node.py:32-38 | for a failing run the service's reply is never consulted; with the service up the state comes back failed |
| Review.FileStore.ReviewNode | src/nodes/review_node.py:388-497 | the new state is `ReviewStage` of the old one; no repository root means nothing touched; a passing run or no attempted fix changes no file; otherwise the files change as the repair says, after `mcp_output` is created |
| Review.ReviewKeepsHistory | src/nodes/review_node.py:388-497 | review never drops an error record nor touches the generation counter |
| Review.ReviewAborts | src/nodes/review_node.py:392-402 | a missing root appends one "repo_root path missing" record and fails both statuses |
| Review.ReviewFailingRunStopsPipeline | src/nodes/review_node.py:411-497 | with the service up, a failing run leaves `workflow_status` "failed" (so the router ends the run), status "running", the keyless analysis and a fix counter of 0 (only after an attempted repair that went through) or 1 |
| Review.ReviewFailedFixCounter | src/nodes/review_node.py:445-466 | after a failed fix the counter is 1 (service up) or one more; it reaches 5 exactly when the stage fails; below 5 the run result moves to the history |
| Review.ReviewCapUnreachable | src/nodes/review_node.py:32-38 | with the service up the fix counter can never reach the cap of 5 |
| Review.ReviewPassingRun | src/nodes/review_node.py:482-497 | a passing run resets the fix counter, keeps the rest, and points the summary at finalize |
| RunStage.BaseCommand | src/nodes/run_node.py:48-79 | a conda environment runs its recorded interpreter when that file exists, falls back to "python" with a missing-conda flag only when no conda executable exists; a venv runs its exec prefix; anything else runs "python" |
| RunStage.SmokeCommands | src/nodes/run_node.py:146-154 | `script --help` always runs; the bare script runs as well exactly when `--help` exits non-zero |
| RunStage.ErrorKindOrder | src/nodes/run_node.py:167-179 | the error type is chosen in the order "No module named"/"ImportError", then "SyntaxError", then "RuntimeError", and the message keeps the whole failure text |
| RunStage.Outcome | src/nodes/run_node.py:156-186 | success, test_passed and the exit code follow the last command's code; the outputs are its last 1000 characters; an error is recorded exactly when it failed |
| RunStage.RunAbortsWithoutScript | src/nodes/run_node.py:37-46 | without a root or start script one "Missing start_mcp.py" record is appended, both statuses fail, and no command runs |
| RunStage.RunVerdict | src/nodes/run_node.py:146-219 | the run result and the plugin test agree with the last smoke command, outputs are bounded tails, status goes back to "running" |
| RunStage.RunErrorRecords | src/nodes/run_node.py:64-69 | the error list grows by the missing-conda record when applicable, plus one "PluginSmokeFailed" record exactly when the run failed |
| RunStage.RunStageSteps | src/nodes/run_node.py:84-154 | the commands are the fastmcp probe (and its installs), the basic test when present, then the smoke commands |
| RunStage.RunNode | src/nodes/run_node.py:31-219 | the new state is `RunStage` of the old and the shell's log grows by exactly `RunCommands` |
| RunStage.RunChecked | src/nodes/run_node.py:48-219 | past the input check, the state and the command log are those of `RunStage` |
| RunStage.RunAll | src/nodes/run_node.py:84-154 | runs the probe, the optional test and the smoke commands in order and returns the last result |
| RunStage.Probe | src/nodes/run_node.py:84-86 | the probe runs `import fastmcp`, and the two pip installs only when it fails |
| EnvYml.PipMatchAt | src/nodes/env_node.py:40 | a match of the `- pip:` pattern starts its block at a line start and runs to the first line with no indentation or the end of the text |
| EnvYml.PipMatchHeader | src/nodes/env_node.py:40 | the matched header is "-pip:" up to whitespace |
| EnvYml.PipSearch | src/nodes/env_node.py:40 | a search result is a match at a line start |
| EnvYml.PipSearchLeftmost | src/nodes/env_node.py:40 | the match found is the leftmost one, and none means no position matches |
| EnvYml.PipBlockShape | src/nodes/env_node.py:40-43 | the captured block is made of indented lines and ends at a newline or at the end of the file |
| EnvYml.LineItem | src/nodes/env_node.py:45-50 | a line yields at most one package |
| EnvYml.PipItemsRender | src/nodes/env_node.py:44-50 | rendering plain items as `  - x` lines and parsing the block gives the items back |
| EnvYml.PipInstallForms | src/nodes/env_node.py:53-58 | "-r x" and "--requirement x" install the requirements file x; any other item is installed by name |
| EnvYml.InstallCommands | src/nodes/env_node.py:53-58 | one install command per package |
| EnvYml.InstallCommandsAt | src/nodes/env_node.py:53-58 | the k-th command installs the k-th package |
| EnvYml.CollectStep | src/nodes/env_node.py:35-50 | a missing or empty path is skipped; an unreadable file aborts the collection; otherwise its packages come first |
| EnvYml.CollectPackages | src/nodes/env_node.py:34-50 | the loop over the yml paths computes `CollectPips` |
| EnvYml.BlockPackages | src/nodes/env_node.py:40-50 | the packages of one file's text are `TextItems` |
| EnvYml.LinesPackages | src/nodes/env_node.py:44-50 | the loop over the block's lines computes `LinesItems` |
| EnvYml.InstallAll | src/nodes/env_node.py:53-58 | the install loop logs exactly `InstallCommands` |
| EnvYml.InstallPipFromEnvYml | src/nodes/env_node.py:31-60 | the shell's log grows by exactly `PipInstallCommands`: nothing when the collection aborts or finds no package, otherwise one install per package |
| EnvProvision.Stamp | src/nodes/env_node.py:63 | the stamp is one to six decimal digits |
| EnvProvision.StampValue | src/nodes/env_node.py:63 | the stamp's value is the clock modulo 1000000: the last six digits of the time |
| EnvProvision.DecimalValue | src/nodes/env_node.py:63 | `str` of a natural number reads back as that number |
| EnvProvision.EnvName | src/nodes/env_node.py:62-64 | a conda name made for a repository is one its own cleanup recognises |
| EnvProvision.VenvName | src/nodes/env_node.py:274-275 | a venv name ends in "_venv", so no cleanup ever removes it |
| EnvProvision.OwnedEnvOfLongerName | src/nodes/env_node.py:82 | the cleanup of repository "r" also removes the environments of "r_x", since only the prefix "r_" and the suffix "_env" are checked |
| EnvProvision.RemovalsOwned | src/nodes/env_node.py:78-96 | every removal targets a listed environment the repository owns |
| EnvProvision.RemovalsComplete | src/nodes/env_node.py:78-96 | every listed environment the repository owns is removed |
| EnvProvision.RemoveOwned | src/nodes/env_node.py:78-96 | the removal loop logs exactly the owned environments' remove commands |
| EnvProvision.CleanupOldEnvs | src/nodes/env_node.py:67-105 | the cleanup logs exactly `CleanupCommands`: nothing without a conda executable, the listing, then the removals when it succeeds |
| EnvProvision.PickManifest | src/nodes/env_node.py:181-190 | the root's manifest wins over the one under "source/"; none exists exactly when neither file does |
| EnvProvision.Install | src/nodes/env_node.py:219-221 | one command; the manifest is recorded exactly when it exits 0 |
| EnvProvision.DependencyInstalls | src/nodes/env_node.py:236-237 | one install command per declared dependency |
| EnvProvision.InstalledManifests | src/nodes/env_node.py:219-257 | every recorded manifest file exists |
| EnvProvision.CondaCreateOutcome | src/nodes/env_node.py:168-269 | a conda environment is returned only with a conda executable; it carries the name, no exec prefix, and manifests that exist |
| EnvProvision.CondaFromEnvironmentFile | src/nodes/env_node.py:184-198 | creation from environment.yml happens exactly when it is declared, found and `conda env create` succeeds; it then runs one command and records only that file |
| EnvProvision.CreateCondaEnv | src/nodes/env_node.py:168-269 | returns `CondaCreate`'s environment and logs its commands |
| EnvProvision.CondaCreateFromOutcome | src/nodes/env_node.py:184-269 | from manifests that exist: any environment is conda, of the name asked, with no interpreter prefix and only existing manifests recorded; environment.yml is recorded exactly when it is given and `conda env create` succeeds, and then that one command is all that runs |
| EnvProvision.CreateCondaFrom | src/nodes/env_node.py:184-269 | once the conda executable and manifests are known, returns and logs what `CondaCreateFrom` says |
| EnvProvision.InstallIntoConda | src/nodes/env_node.py:203-266 | the installs after a base creation return and log what `CondaInstalls` says |
| EnvProvision.CondaInstallsEnv | src/nodes/env_node.py:204-266 | after a successful base creation the result is always a conda environment of that name, with no interpreter prefix, recording only existing manifests and never environment.yml |
| EnvProvision.CondaPyprojectStep | src/nodes/env_node.py:207-241 | the editable install, with one install per declared dependency when it fails, follows `CondaPyproject` |
| EnvProvision.RunInstall | src/nodes/env_node.py:213-260 | an editable or requirements install runs only with a manifest, and records it on success |
| EnvProvision.InstallEach | src/nodes/env_node.py:236-240 | the dependency loop logs exactly `DependencyInstalls` |
| EnvProvision.VenvCreateOutcome | src/nodes/env_node.py:273-317 | a venv comes back with its name, path, interpreter as exec prefix and existing manifests, after a pip upgrade; none exactly when the interpreter is absent and creating it fails |
| EnvProvision.CreateVenvEnv | src/nodes/env_node.py:273-317 | returns `VenvCreate`'s environment and logs its commands |
| EnvProvision.InstallIntoVenv | src/nodes/env_node.py:288-315 | the venv installs return and log what `VenvInstalls` says |
| EnvProvision.VenvPyprojectStep | src/nodes/env_node.py:293-300 | the venv editable install follows `VenvPyproject` |
| EnvProvision.ProvisionOrder | src/nodes/env_node.py:340-356 | conda is used when available and created; otherwise the venv result; a conda environment implies a conda executable; recorded manifests exist |
| EnvProvision.TryConda | src/nodes/env_node.py:343-351 | the conda attempt (cleanup then creation) returns and logs what `CondaAttempt` says |
| EnvProvision.ProvisionEnv | src/nodes/env_node.py:340-356 | returns `Provision`'s environment and logs its commands |
| EnvStage.Candidates | src/nodes/env_node.py:423 | exactly the packages whose lower-cased name holds no "tests" |
| Text.FewestDotsFirst | src/nodes/env_node.py:427 | `min` by dot count picks a listed package with the fewest dots, and every package before it has more (the same `min` is used by the analysis stage, src/nodes/analysis_node.py:206) |
| EnvStage.DropSourcePrefix | src/nodes/env_node.py:428-433 | a "source." package loses that prefix |
| EnvStage.SmokeTargetChoice | src/nodes/env_node.py:421-433 | a target is a non-test package with the fewest dots, or that package minus "source."; none exactly when no candidate is left or the name becomes empty |
| Text.NonEmpty | src/nodes/env_node.py:472 | exactly the non-empty names, no more of them than there were (also the path segments kept at src/tools/gitingest_client.py:240) |
| EnvStage.Dedupe | src/nodes/env_node.py:472 | `dict.fromkeys` keeps each name once and no other |
| EnvStage.DedupeOrder | src/nodes/env_node.py:472 | names stay in the order they first occur |
| EnvStage.DedupeHead | src/nodes/env_node.py:472 | the first name stays first |
| EnvStage.FallbacksShape | src/nodes/env_node.py:457-472 | the fallback list holds the target, no empty name and no repeat |
| EnvStage.FallbacksOrder | src/nodes/env_node.py:457-472 | the fallbacks keep the order in which they are proposed |
| EnvStage.FallbacksUnderSource | src/nodes/env_node.py:459-465 | for "source.x" the first fallback is x |
| EnvStage.PytestCommand | src/nodes/env_node.py:398-405 | pytest runs through `conda run -n <env>`, the venv's exec prefix, or plain python, always ending `-m pytest -q` |
| EnvStage.SmokeCommand | src/nodes/env_node.py:497-510 | the smoke script runs through conda, the venv's interpreter, or plain python, and is the last argument |
| EnvStage.ValidationVerdict | src/nodes/env_node.py:388-514 | the original tests pass iff the last command exits 0 and is pytest or prints "OK"; pytest runs iff a tests directory exists |
| EnvStage.RunValidation | src/nodes/env_node.py:388-514 | returns `Validate`'s verdict and logs its commands |
| EnvStage.EnvAbortsOnMissingInput | src/nodes/env_node.py:328-338 | a missing root or name appends one record, fails both statuses, keeps the environment and runs nothing |
| EnvStage.EnvOutcome | src/nodes/env_node.py:340-545 | the state gets the provisioned environment, or the "none" environment with one "EnvSetupFailed" record; the original tests are recorded; nothing else changes but the status |
| EnvStage.EnvStageSteps | src/nodes/env_node.py:340-514 | the stage provisions, then validates in that environment, and its commands are the two in order |
| EnvStage.EnvNode | src/nodes/env_node.py:325-545 | the new state is `EnvStage` of the old and the log grows by exactly `EnvCommands` |
| Download.NameFromUrl | src/nodes/download_node.py:41 | the derived name holds no '/' |
| Download.NameFromUrlCutsInside | src/nodes/download_node.py:41 | `.replace(".git", "")` removes ".git" anywhere in the last segment, not only at its end ("o/a.gitx" gives "ax") |
| Download.RepoName | src/nodes/download_node.py:39-41 | a non-empty given name wins; otherwise the name is derived from the address |
| Download.LayoutUnderRoot | src/nodes/download_node.py:43-58 | source, plugin, tests and logs directories all lie below the repository root, which lies below the workspace and ends with the name |
| Download.LayoutPrefixes | src/nodes/download_node.py:43-58 | the layout's paths are laid out under the repository root |
| Download.Removed | src/nodes/download_node.py:65 | `rmtree` removes exactly the paths inside the directory |
| Download.Moved | src/nodes/download_node.py:89-91 | `shutil.move` keeps every path outside the source and re-roots every path inside it |
| Download.WithLayout | src/nodes/download_node.py:47-58 | creating the layout's directories touches no file |
| Download.MoveEntries | src/nodes/download_node.py:85-93 | the move loop stops with an error iff some entry fails to move, and the error is that entry's |
| Download.FetchRecords | src/nodes/download_node.py:73-102 | a failed clone adds one warning and one "CloneFailed" record carrying stderr or stdout; a failed move one "FileMoveFailed" record; success nothing |
| Download.Fetch | src/nodes/download_node.py:60-104 | at most one error, always "continue_with_empty"; an existing clone changes nothing |
| Download.DownloadCommands | src/nodes/download_node.py:72 | the stage runs at most one command |
| Download.DownloadAbortsWithoutUrl | src/nodes/download_node.py:27-37 | without an address one "Missing repository.url" record is appended, both statuses fail, and nothing runs or changes on disk |
| Download.DownloadOutcome | src/nodes/download_node.py:39-120 | the repository gets the address, the name and the layout; status "running"; at most one new record, of kind "continue_with_empty"; nothing else changes |
| Download.DownloadSkipsExistingClone | src/nodes/download_node.py:60-104 | with a `.git` under the source directory nothing runs, nothing is recorded, and only the layout is created |
| Download.DownloadCloneFailure | src/nodes/download_node.py:73-81 | a failed clone records the warning "git clone failed: ..." and a "CloneFailed" error |
| Download.FetchRemovesTempClone | src/nodes/download_node.py:68-93 | after a failed clone or a complete move nothing is left under `temp_clone` |
| Download.RemoveTreeInside | src/nodes/download_node.py:65 | removing a directory inside the root changes nothing outside it |
| Download.MoveInside | src/nodes/download_node.py:89-91 | a move within the root changes nothing outside it |
| Download.MoveEntriesInside | src/nodes/download_node.py:85-93 | the move loop changes nothing outside the root |
| Download.LayoutInside | src/nodes/download_node.py:47-58 | creating the layout changes nothing outside the repository root |
| Download.DownloadStaysInWorkspace | src/nodes/download_node.py:26-120 | the download stage changes nothing on disk outside the repository's own directory |
| Download.Workspace.constructor | src/nodes/download_node.py:43 | the workspace starts as the given disk |
| Download.Workspace.MakeDirs | src/nodes/download_node.py:47-58 | `ensure_directory` adds the directory and touches no file |
| Download.Workspace.WriteFile | src/nodes/download_node.py:85-91 | writing adds the file (and its parents) to the disk |
| Download.Workspace.RemoveDir | src/nodes/download_node.py:64-70 | the disk loses exactly the tree under the directory |
| Download.Workspace.Clone | src/nodes/download_node.py:72 | the clone command is logged; on success the checkout appears under `temp_clone`, else nothing changes |
| Download.Workspace.MoveAll | src/nodes/download_node.py:85-93 | the move loop computes `MoveEntries` |
| Download.Workspace.MakeLayout | src/nodes/download_node.py:47-58 | the disk gains exactly the layout's directories |
| Download.Workspace.FetchSource | src/nodes/download_node.py:60-104 | the disk and the records are `Fetch`'s; the clone command is logged only when there was no `.git` |
| Download.Workspace.DownloadNode | src/nodes/download_node.py:26-120 | the new state, the disk and the log are `DownloadStage`, `DownloadDisk` and `DownloadCommands` of the old |
| PackageScan.StrLessIrreflexive | src/nodes/analysis_node.py:25 | the string order `sorted` uses is irreflexive |
| PackageScan.StrLessTotal | src/nodes/analysis_node.py:25 | the string order is total on distinct strings |
| PackageScan.StrLessTransitive | src/nodes/analysis_node.py:25 | the string order is transitive |
| PackageScan.Insert | src/nodes/analysis_node.py:25 | inserting into a strictly sorted list keeps it strictly sorted and adds exactly the new name |
| PackageScan.SortedUnique | src/nodes/analysis_node.py:25 | `sorted(list(set(...)))` is strictly sorted, holds exactly the input names, and is no longer |
| PackageScan.PackageOf | src/nodes/analysis_node.py:18-24 | a directory yields a package only if it holds `__init__.py`, is at most two levels below the root and is not the root; the name is non-empty and dotted |
| PackageScan.FoundExactly | src/nodes/analysis_node.py:17-24 | a name is collected iff some walked directory yields it |
| PackageScan.ScanPackages | src/nodes/analysis_node.py:26-31 | a failing walk gives the empty list |
| PackageScan.ScanPackagesExactly | src/nodes/analysis_node.py:13-25 | the result is strictly sorted and holds exactly the names some directory yields, each non-empty and free of '/' |
| PackageScan.TopLevelPackage | src/nodes/analysis_node.py:18-24 | a top-level directory with `__init__.py` is found under its own name |
| PackageScan.ScanPythonPackages | src/nodes/analysis_node.py:13-31 | the walk loop computes `ScanPackages` and returns a strictly sorted list |
| EntryPoints.ScriptAt | src/nodes/analysis_node.py:44 | a quoted `name=target` match has a non-empty name and target and spans exactly the quoted text |
| EntryPoints.ScriptsFrom | src/nodes/analysis_node.py:44 | every script found has a non-empty name and target |
| EntryPoints.ConsoleGroupAt | src/nodes/analysis_node.py:42 | a `console_scripts ... [ ... ]` group is the text between a '[' and the first ']' after it |
| EntryPoints.ConsoleGroupsFrom | src/nodes/analysis_node.py:42 | no group holds a ']' |
| EntryPoints.ConsoleEntries | src/nodes/analysis_node.py:45-53 | one "console_script" entry per pair, in order |
| EntryPoints.SetupEntriesShape | src/nodes/analysis_node.py:42-53 | every setup.py entry is a "console_script" with a non-empty name and target |
| EntryPoints.ConsoleScriptRoundTrip | src/nodes/analysis_node.py:36-53 | a setup.py with `console_scripts` and one quoted `name=target` yields exactly that entry |
| EntryPoints.SectionEnd | src/nodes/analysis_node.py:66-67 | a section ends at the first "\n[" or final newline after its start |
| EntryPoints.SectionAt | src/nodes/analysis_node.py:66-67 | a section lies inside the text, after its header |
| EntryPoints.PairAt | src/nodes/analysis_node.py:74 | a pair's name is non-empty and holds no '=' and its target is non-empty |
| EntryPoints.PyprojectEntries | src/nodes/analysis_node.py:82-86 | one "pyproject_script" entry per pair, in order |
| EntryPoints.PyprojectRoundTrip | src/nodes/analysis_node.py:55-86 | a `[project.scripts]` table with one `name = "target"` line yields exactly that entry, stripped |
| EntryPoints.NoHeaderNoSections | src/nodes/analysis_node.py:70-71 | without the header there is no section |
| EntryPoints.EntryPointsOf | src/nodes/analysis_node.py:33-91 | no setup.py and no pyproject.toml means no entry point |
| EntryPoints.AppendConsoleScripts | src/nodes/analysis_node.py:45-53 | the loop appends `ConsoleEntries` |
| EntryPoints.ScanSetupPy | src/nodes/analysis_node.py:42-53 | the nested loops compute the setup.py entries |
| EntryPoints.AppendTableScripts | src/nodes/analysis_node.py:76-86 | the loop appends `PyprojectEntries` |
| EntryPoints.ScanPyproject | src/nodes/analysis_node.py:65-86 | the nested loops over both tables compute the pyproject entries |
| EntryPoints.ScanEntryPoints | src/nodes/analysis_node.py:33-91 | the whole scan computes `EntryPointsOf`: setup.py entries, then pyproject ones |
| AnalysisStage.BasicAnalysis | src/nodes/analysis_node.py:203-232 | one core module (the fewest-dots package, function "main") iff there are packages; the entry points as CLI commands; strategy import/cli/blackbox with confidence 0.5; feasibility 0.5 or 0.2 |
| AnalysisStage.BasicAnalysisTopPackage | src/nodes/analysis_node.py:205-213 | the core module is a scanned package with no more dots than any other |
| AnalysisStage.BraceSpan | src/nodes/analysis_node.py:186 | the greedy `\{.*\}` match runs from the first '{' to the last '}'; none iff there is no '{' or every '}' comes before every '{' |
| AnalysisStage.AnalyzeWithLlm | src/nodes/analysis_node.py:94-200 | the reply's JSON object is used when it parses; without a service, an object or a parse the basic analysis is returned |
| AnalysisStage.NoObjectFallsBack | src/nodes/analysis_node.py:187-193 | a reply without '{' gives the basic analysis |
| AnalysisStage.WholeObjectParsed | src/nodes/analysis_node.py:185-196 | a reply that is one flat object is parsed whole |
| AnalysisStage.DependencyFlagsOf | src/nodes/analysis_node.py:277-298 | each flag says whether the manifest exists at the root or under "source/" |
| AnalysisStage.IngestResult | src/nodes/analysis_node.py:257-272 | a raised gitingest call leaves `{}` and one warning; a None result becomes the "returned None" failure; otherwise the summary is kept |
| AnalysisStage.DeepwikiResult | src/nodes/analysis_node.py:301-315 | no model means "skipped"; a raised call means "failed" with one warning; otherwise the client's answer |
| AnalysisStage.RiskOf | src/nodes/analysis_node.py:337-341 | without a risk assessment from the analysis the default (0.5, low, simple) is used |
| AnalysisStage.AnalysisAbortRule | src/nodes/analysis_node.py:245-255 | the stage fails iff the address or the root directory is missing, with one "Missing repo_url or repo_root path" record |
| AnalysisStage.AnalysisOutcome | src/nodes/analysis_node.py:257-358 | the stage records an analysis, adds at most three warnings and no error, and changes nothing else but the status |
| AnalysisStage.AnalysisPackages | src/nodes/analysis_node.py:274 | the recorded packages are strictly sorted and are exactly those the walk yields |
| AnalysisStage.AnalysisRisk | src/nodes/analysis_node.py:337-341 | the recorded risk is the analysis' own or the default; with no reply it is that of the basic analysis |
| AnalysisStage.DeepwikiSkippedWithoutModel | src/nodes/analysis_node.py:301-315 | without a DeepWiki model the client is never consulted and no warning is added |
| AnalysisStage.GatherAnalysis | src/nodes/analysis_node.py:257-342 | the gathering steps compute `AnalysisOf` |
| AnalysisStage.AnalysisOrRaise | src/nodes/analysis_node.py:316-318 | past the input check, the stage raises exactly when no service is configured; otherwise its state is `Analyze` of the old |
| AnalysisStage.AnalysisNode | src/nodes/analysis_node.py:234-358 | the stage computes `AnalysisOrRaise`: the abort, the exception without a service, or `Analyze` of the old state |
| AnalysisPrune.Public | src/nodes/generate_node.py:980-981 | exactly the names that do not start with '_' |
| AnalysisPrune.DefsOf | src/nodes/generate_node.py:976-983 | the public top-level functions and classes of a parsed file; none when it does not parse |
| AnalysisPrune.TargetFile | src/nodes/generate_node.py:969-972 | the chosen file (`rel.py`, else `rel/__init__.py` under "source/") exists |
| AnalysisPrune.Candidates | src/nodes/generate_node.py:984-985 | the candidates are no more than the names, none private, none ending in '*' |
| AnalysisPrune.Filtered | src/nodes/generate_node.py:986-987 | exactly the candidates defined in the file whose name mentions neither "test" nor "example" |
| AnalysisPrune.Cap | src/nodes/generate_node.py:988 | the per-module cap is 5 for "high", 3 for "medium", 1 otherwise |
| AnalysisPrune.Take | src/nodes/generate_node.py:989-990 | `xs[:n]` is a prefix of length min(n, len) |
| AnalysisPrune.Resolve | src/nodes/generate_node.py:965-992 | a module kept after resolution names at least one function or class |
| AnalysisPrune.ResolveResolves | src/nodes/generate_node.py:965-992 | a resolved module keeps the input's package and only names the file defines |
| AnalysisPrune.Fit | src/nodes/generate_node.py:993-1000 | a module that fits is kept whole; one that does not is trimmed to the remaining budget, functions first; processing halts iff the budget is already spent |
| AnalysisPrune.Resolved | src/nodes/generate_node.py:964-992 | one resolution per module, each non-empty |
| AnalysisPrune.PruneAnalysis | src/nodes/generate_node.py:1011-1016 | pruning replaces the core modules and leaves the rest of the analysis as it was |
| AnalysisPrune.BudgetedWithin | src/nodes/generate_node.py:993-1010 | the kept names never exceed the budget |
| AnalysisPrune.PruneAnalysisBudget | src/nodes/generate_node.py:959-1016 | at most 12 functions and classes are kept in all |
| AnalysisPrune.BudgetedFromResolved | src/nodes/generate_node.py:993-1010 | every kept module is non-empty and a trimming of some resolved module |
| AnalysisPrune.PrunedFromInput | src/nodes/generate_node.py:959-1016 | every kept module comes from an input module it resolves |
| AnalysisPrune.KeptNamesAreDefinitions | src/nodes/generate_node.py:976-990 | every kept name is an admissible public definition of the module's file |
| AnalysisPrune.TestPackagesDropped | src/nodes/generate_node.py:966-967 | no kept package mentions "tests" |
| AnalysisPrune.BudgetedKeep | src/nodes/generate_node.py:1001-1010 | after keeping a module the loop continues only below the budget |
| AnalysisPrune.BudgetedSkip | src/nodes/generate_node.py:966-992 | a module that does not resolve is skipped |
| AnalysisPrune.PruneForGeneration | src/nodes/generate_node.py:959-1016 | the loop computes `PruneAnalysis` |
| AnalysisPrune.PruneStep | src/nodes/generate_node.py:993-1010 | one pass of the budget loop: what is kept so far, followed by what the rest of the loop keeps unless it stopped, equals what `Budgeted` keeps from this module on |
| GenerateStage.Collected | src/nodes/generate_node.py:68-82 | collection never yields more reasons than inputs |
| GenerateStage.CollectedExactly | src/nodes/generate_node.py:68-82 | a reason is collected iff some input gives it |
| GenerateStage.ReasonsStartKnown | src/nodes/generate_node.py:68-82 | every reason starts with one of the fixed phrases |
| GenerateStage.RetryReasonUnknown | src/nodes/generate_node.py:64-84 | the reason is "Unknown error" iff no error gives a reason and every earlier run succeeded |
| GenerateStage.AnalyzeRetryReason | src/nodes/generate_node.py:64-84 | the two loops compute `RetryReasonText`: the reasons, errors first, joined by "; " |
| GenerateStage.ProjectType | src/nodes/generate_node.py:86-130 | the type is "C/C++", "Python" or "Unknown"; any package containing ".cpp", ".hpp", ".c" or ".h" makes it "C/C++"; "Python" needs a package containing ".py" |
| GenerateStage.DottedPackageCountsAsCpp | src/nodes/generate_node.py:98-99 | as written, the package "pkg.core" counts as C/C++ because it contains ".c" |
| GenerateStage.IntendedProjectType | src/nodes/generate_node.py:86-130 | the extension test applied to the end of the package name |
| GenerateStage.IntendedProjectTypeNarrows | src/nodes/generate_node.py:98-99 | whatever the corrected test calls C/C++ the code does too |
| GenerateStage.IntendedDottedPackage | src/nodes/generate_node.py:98-99 | the corrected test does not call "pkg.core" C/C++ |
| GenerateStage.SourceStripped | src/nodes/generate_node.py:346-347 | stripping "source." leaves a suffix of the package |
| GenerateStage.ImportPath | src/nodes/generate_node.py:345-352 | no package means no import; otherwise the stripped package, followed by the module name exactly when it is non-empty and does not already end the package |
| GenerateStage.GenerateRequirementsTxt | src/nodes/generate_node.py:848-870 | the string building computes `RequirementsText` |
| GenerateStage.AppendDeps | src/nodes/generate_node.py:858-868 | the loop appends one prefixed line per dependency |
| GenerateStage.DepLinesSplit | src/nodes/generate_node.py:858-868 | the appended text splits back into the prefixed dependencies |
| GenerateStage.OptionalBlockLines | src/nodes/generate_node.py:865-868 | the optional block is a blank line, the header and one commented line per dependency, or nothing |
| GenerateStage.RequirementsLines | src/nodes/generate_node.py:848-870 | requirements.txt reads: fastmcp, pydantic, the required dependencies, then the optional block |
| GenerateStage.LowerAll | src/nodes/generate_node.py:1220 | every class name is lower-cased, in order |
| GenerateStage.ModuleEndpointsExactly | src/nodes/generate_node.py:1216-1220 | a module's endpoints are its functions and its lower-cased classes |
| GenerateStage.EndpointsExactly | src/nodes/generate_node.py:1214-1220 | an endpoint is listed iff some module provides it |
| GenerateStage.EndpointsCount | src/nodes/generate_node.py:1214-1220 | there are exactly as many endpoints as functions and classes, repeats included |
| GenerateStage.Prepared | src/nodes/generate_node.py:1039-1048 | the recorded root becomes the working root |
| GenerateStage.WithMissingFile | src/nodes/generate_node.py:1066-1068 | writing a missing file only adds to the disk, and afterwards the file exists |
| GenerateStage.GenerateStage | src/nodes/generate_node.py:1018-1024 | the stage raises (in pruning) exactly when no repository root is recorded |
| GenerateStage.GeneratedStateOutcome | src/nodes/generate_node.py:1026-1233 | the plugin is recorded, the root is the working one, one default-root record is added only when the root was empty, one retry reason only on a retry; nothing else changes but the status |
| GenerateStage.GenerateOutcome | src/nodes/generate_node.py:1018-1233 | the same, about the whole stage |
| GenerateStage.PluginFilesWritten | src/nodes/generate_node.py:1082-1212 | every plugin file listed has been written |
| GenerateStage.PluginFilesKeys | src/nodes/generate_node.py:1082-1212 | requirements.txt is listed exactly when it was written; eight files then, seven otherwise; start_mcp.py is listed at its path |
| GenerateStage.AlwaysKeys | src/nodes/generate_node.py:1082-1212 | without requirements.txt seven files are listed |
| GenerateStage.GenerateWritesPlugin | src/nodes/generate_node.py:1082-1231 | all listed files exist; requirements.txt is listed iff it did not exist before |
| GenerateStage.GeneratePluginContents | src/nodes/generate_node.py:1050-1231 | the adapter mode is the strategy's primary (default "import"); the endpoints are exactly the modules' names; requirements and main entry are fixed |
| GenerateStage.WriteSourceInits | src/nodes/generate_node.py:1063-1080 | writes `source/__init__.py` and, for a "src." package, `source/src/__init__.py`, when missing |
| GenerateStage.WriteService | src/nodes/generate_node.py:1082-1165 | the plugin files before requirements.txt are written as `BeforeRequirements` says |
| GenerateStage.CollectEndpoints | src/nodes/generate_node.py:1214-1220 | the loop computes `Endpoints` |
| GenerateStage.PrepareState | src/nodes/generate_node.py:1026-1048 | the retry bookkeeping and default root compute `Prepared` |
| GenerateStage.GenerateNode | src/nodes/generate_node.py:1018-1233 | no state (an exception) iff no root is recorded, and then the disk is untouched; otherwise state and disk are `GenerateStage`'s |
| Finalize.FinalName | src/nodes/finalize_node.py:544 | an absent or empty url names the repository "unknown"; otherwise the name holds no '/' |
| Finalize.FinalNameAgreesWithDownload | src/nodes/finalize_node.py:544 | for a non-empty url with no explicit name, the final name is the one the download stage gave the clone |
| Finalize.Outcome | src/nodes/finalize_node.py:550-556 | the run is a success iff the plugin test passed, and is never left running |
| Finalize.DefaultAssessment | src/nodes/finalize_node.py:156-189 | overall "good" with success factors exactly on success, "poor" otherwise; one failure reason iff the plugin test failed; scores 80/60, 75/50, 70, 75 |
| Finalize.PassWord | src/nodes/finalize_node.py:261-262 | "Passed" and "Failed" have the same length, so the report template keeps its shape |
| Finalize.DefaultTechnicalReport | src/nodes/finalize_node.py:246-266 | the template report starts with "# " and the repository name |
| Finalize.DefaultReportRecordsTests | src/nodes/finalize_node.py:246-266 | two template reports for the same repository are equal iff both test verdicts agree: the report records both |
| Finalize.ChosenReport | src/nodes/finalize_node.py:233-244 | the model's report is kept iff its stripped text is longer than 500 characters; otherwise the template is used |
| Finalize.ChosenReportLong | src/nodes/finalize_node.py:233-244 | the chosen report is the template or more than 500 characters long |
| Finalize.FinalizeOutcome | src/nodes/finalize_node.py:537-669 | status and workflow status are success iff the plugin test passed, failed otherwise; the summary records both test verdicts, errors and warnings; a summary and a report are always set; nothing else in the state changes |
| Finalize.FallbackAssessmentConsistent | src/nodes/finalize_node.py:150-189 | without a model reply the assessment has no failure reasons iff it is "good", iff the plugin test passed |
| Finalize.SavedReportsGuard | src/nodes/finalize_node.py:692-733 | without an existing repository root the disk is untouched; otherwise the summary, diff report and README_MCP files exist afterwards and nothing is removed |
| Finalize.WithFileTwice | src/nodes/finalize_node.py:719-732 | writing the same file twice leaves the same disk as writing it once |
| Finalize.SecondWriteKeeps | src/nodes/finalize_node.py:702-732 | the duplicated second block of writes leaves the disk exactly as the first left it |
| Finalize.WriteReports | src/nodes/finalize_node.py:702-715 | the workspace gains the three report files in order, and nothing else |
| Finalize.SaveFinalReports | src/nodes/finalize_node.py:692-733 | the workspace ends as `SavedReports` of the start disk and repository root |
| Finalize.FinalizeNode | src/nodes/finalize_node.py:537-669 | the returned state is `FinalizeState` and the workspace ends as `SavedReports` |
| Gitingest.NetlocOf | src/tools/gitingest_client.py:66 | the network location taken from a url never contains '/' |
| Gitingest.PathOf | src/tools/gitingest_client.py:239 | the path taken from a url never holds the query or fragment |
| Gitingest.SplitUrl | src/tools/gitingest_client.py:66-67 | for `scheme://host/rest` the network location is the host and the path is `rest` up to any query or fragment |
| Gitingest.GithubUrlByHost | src/tools/gitingest_client.py:65-67 | a url is a GitHub url iff its host is exactly "github.com" or "www.github.com" |
| Gitingest.ParseOwnerRepo | src/tools/gitingest_client.py:238-243 | the owner is empty iff the path has fewer than two non-empty segments; a found owner holds no '/' |
| Gitingest.ParseOwnerRepoOfAddress | src/tools/gitingest_client.py:238-243 | for `scheme://host/owner/repo…` the pair is the owner and the repository name with every ".git" removed |
| Gitingest.IsTextLike | src/tools/gitingest_client.py:293-296 | a name is text-like iff its lower-cased form ends with one of the twelve listed extensions |
| Gitingest.BestScoreIsMaximum | src/tools/gitingest_client.py:357-362 | the priority is at least the score of every pattern the path contains, and is 0 or the score of one such pattern |
| Gitingest.CalculatePriority | src/tools/gitingest_client.py:357-362 | the loop computes the best matching pattern score `BestScore` |
| Gitingest.RankAll | src/tools/gitingest_client.py:315-325 | every file gets one ranking entry, in input order |
| Gitingest.SortByScoreOrders | src/tools/gitingest_client.py:327-331 | the ranking is by descending score, a permutation of the files, and stable: files of equal score keep their input order |
| Gitingest.Prefix | src/tools/gitingest_client.py:349 | a cut is a prefix of the content, of the requested length when that is shorter than the content |
| Gitingest.GreedyWithinBudget | src/tools/gitingest_client.py:336-352 | the estimated tokens of the selection never exceed the token budget |
| Gitingest.GreedyShape | src/tools/gitingest_client.py:336-352 | the selection takes files in ranking order, whole, except for at most one truncated file of priority at least 80 that ends the selection |
| Gitingest.GreedyKeepsOrder | src/tools/gitingest_client.py:336-352 | the selected files keep descending score order |
| Gitingest.GreedyTakesAllThatFits | src/tools/gitingest_client.py:336-352 | when all files fit the budget together, every file is selected whole |
| Gitingest.KeyFilesProperties | src/tools/gitingest_client.py:298-355 | the key-file selection stays within the budget, is drawn in order from the ranked files, and descends in score |
| Gitingest.ExtractKeyFiles | src/tools/gitingest_client.py:298-355 | the ranking and selection loops compute `KeyFiles` |
| Gitingest.LimitContent | src/tools/gitingest_client.py:130-143 | at most the first 50 files are kept under their own names; a text of up to 1000 characters is kept whole, a longer one as its first 1000 characters and "..."; no kept text exceeds 1003 characters |
| Gitingest.Sizes | src/tools/gitingest_client.py:264 | the file tree lists exactly the extracted files |
| Gitingest.ZipContentStep | src/tools/gitingest_client.py:252-270 | each archive entry adds its text under its path relative to the root folder when it is stored, and changes nothing otherwise |
| Gitingest.ZipContentComplete | src/tools/gitingest_client.py:252-270 | every stored entry appears in the extracted content |
| Gitingest.ZipContentSource | src/tools/gitingest_client.py:252-270 | every extracted path is non-empty, is no directory, and holds the text of the last stored entry with that path |
| Gitingest.SizesUpdate | src/tools/gitingest_client.py:263-264 | recording one file keeps the tree equal to the sizes of the content |
| Gitingest.ExtractZipContent | src/tools/gitingest_client.py:245-271 | the content is `ZipContent` under the first entry's root folder (empty for an empty archive) and the tree records each file's size |
| Gitingest.ArchiveUrls | src/tools/gitingest_client.py:194-199 | four archive urls are tried |
| Gitingest.FirstFetchFirst | src/tools/gitingest_client.py:200-214 | no archive is fetched iff every download fails; otherwise the data comes from the first url that did not fail |
| Gitingest.FetchArchive | src/tools/gitingest_client.py:200-214 | the download loop computes `FirstFetch` |
| Gitingest.FallbackViaZip | src/tools/gitingest_client.py:185-236 | the zip fallback computes `ZipFallback`: no owner, no download or a bad archive each give an error; otherwise a zip-fallback result |
| Gitingest.PreprocessByAttempts | src/tools/gitingest_client.py:81-169 | with gitingest available, a GitHub url is the first successful ingest attempt, or else the zip fallback |
| Gitingest.PreprocessRepository | src/tools/gitingest_client.py:69-172 | the retry loop computes `Preprocess`, result and pauses |
| Gitingest.AttemptsPause | src/tools/gitingest_client.py:83-159 | at most three attempts; the pause after failed attempt n is 5n seconds; when every remaining attempt raises, no result comes from ingesting |
| Gitingest.PreprocessAttempts | src/tools/gitingest_client.py:69-169 | a non-GitHub url gets the fallback result without pausing; the pauses are 5, 10, 15 seconds, at most three; when all three attempts raise, the zip fallback decides |
| Gitingest.IngestedContentLimited | src/tools/gitingest_client.py:130-152 | a result from gitingest holds at most 50 files of at most 1003 characters each |
| Gitingest.AttemptsLimited | src/tools/gitingest_client.py:83-159 | whatever result an ingest attempt returns is a library result of at most 50 files with at most 1003 characters each |
| Deepwiki.ClientTypeFor | src/tools/deepwiki_client.py:43-62 | a model naming "claude" gets the Anthropic client only when that library is installed (else OpenAI); otherwise "deepseek" gets the DeepSeek client; everything else OpenAI |
| Deepwiki.NewClient | src/tools/deepwiki_client.py:13-62 | the client keeps its model, talks to deepwiki.com with fallback on, takes an explicit key or else the provider's key variable, and the provider's base url or its default |
| Deepwiki.GetClient | src/tools/deepwiki_client.py:380-394 | an explicit model is used as given; without one, the provider's default model |
| Deepwiki.DefaultClientMatchesProvider | src/tools/deepwiki_client.py:380-394 | with no model variables set, the default model of each MODEL_PROVIDER value selects that provider's key and client type |
| Deepwiki.KeyAndClientOrderDiffer | src/tools/deepwiki_client.py:18-48 | a model naming both "deepseek" and "claude" takes DeepSeek's key but the Anthropic client |
| Deepwiki.FallbackAnalysis | src/tools/deepwiki_client.py:99-151 | success iff the chat call replies, then its text from source "fallback_llm"; otherwise "Fallback analysis failed: " and the message, with a suggestion |
| Deepwiki.MapErrorCases | src/tools/deepwiki_client.py:87-97 | an error reply is unsuccessful; "404"/"page not found" maps to unavailable, then rate limit/quota to quota exhausted, then authentication/unauthorized to authentication failed, each with a suggestion; any other message is kept and has no suggestion |
| Deepwiki.Query | src/tools/deepwiki_client.py:64-97 | every reply records the question and the model |
| Deepwiki.QueryOutcome | src/tools/deepwiki_client.py:64-97 | no key gives the fallback analysis; a keyed tool reply succeeds from source "deepwiki"; success iff the tool replied with a key or the chat replied when it was consulted; with fallback on, a failure is the fallback's |
| Deepwiki.DeepwikiLink | src/tools/deepwiki_client.py:269-270 | a link exists iff the url has an owner segment, i.e. holds a '/' |
| Deepwiki.AnalyzeRepository | src/tools/deepwiki_client.py:265-355 | url, name, model and source are recorded; success iff an analysis is present, iff no error, iff the url has an owner and the model replied |
| Deepwiki.Successes | src/tools/deepwiki_client.py:358 | the successful results are exactly those results marked successful |
| Text.Shorten | src/tools/deepwiki_client.py:375 | a text of at most n characters is kept whole; a longer one becomes its first n characters and "..." (n is 200 for insights, 1000 and 500 for the ingested values at src/tools/gitingest_client.py:134-141) |
| Deepwiki.InsightsFromOutputs | src/tools/deepwiki_client.py:370-377 | one insight per successful result with output text, each at most 203 characters, each from the source of such a result |
| Deepwiki.SummaryCounts | src/tools/deepwiki_client.py:357-378 | the summary fails iff no query succeeded; otherwise it counts all and successful queries, holds one bounded insight per output, and lists exactly the sources of the successful results |
| Deepwiki.WithOutputBounded | src/tools/deepwiki_client.py:370-372 | there are no more insights than results |
| Cli.Assignment | main.py:27-29 | a stripped line is an assignment iff it is non-empty, is no comment and holds '='; the key is the text before the first '=' and the value everything after it |
| Cli.LoadLinesAppend | main.py:26-30 | loading a file in two parts is loading the first part and then, when that went through, the second |
| Cli.SkippedLinesChangeNothing | main.py:28 | blank lines, comments and lines without '=' change no variable |
| Cli.UnsetKeyKept | main.py:26-30 | a variable no line sets keeps its presence and value |
| Cli.LastAssignmentWins | main.py:26-30 | a variable ends with the value of the last line that sets it |
| Cli.Environment.constructor | main.py:22-30 | the environment starts with the given variables |
| Cli.Environment.LoadEnvFile | main.py:22-30 | with no `.env` file nothing changes; otherwise the loop applies the lines as `LoadLines` does, stopping at a key that cannot be set |
| Cli.OverrideEntry | main.py:141-148 | a node's override holds "provider" iff the provider flag is given and "model" iff the model flag is given, with the given values |
| Cli.OverridesExactly | main.py:139-149 | exactly the nodes with a provider or model flag get an override, and it is their `OverrideEntry` |
| Cli.BuildOverrides | main.py:139-149 | the loop over the four nodes computes `Overrides` |
| Cli.BuildWorkflowOptions | main.py:158-162 | the options carry the DeepWiki model, and carry the overrides iff there are any |
| Cli.MainOptionsReachPipeline | main.py:99-162 | the pipeline sees the DeepWiki model and exactly the overrides given on the command line; without `--deepwiki-model` the model is the one the DeepWiki client would pick from the same environment |

## Where the code and its design differ

The model follows the code in each of these places:

- `_intelligent_error_analysis` (src/nodes/review_node.py:32-38) marks a failing run as failed before it asks the generation service anything. With the service configured, a failing run therefore always ends the pipeline after review (`Review.ReviewFailingRunStopsPipeline`, `Review.ReviewCapUnreachable`). Without it, the analysis stage raises before review is ever reached (`Workflow.WithoutServiceNoPlugin`); and even there the analysis `{}` has none of the router's keys, so the router would go straight to finalize. The repair loop of `route_after_review` (back to run, to review again, or to generate; src/workflow.py:65-92) is therefore unreachable in the assembled pipeline, whatever the service does: `Workflow.StagesGoForward` and `Workflow.PipelineRunsStraightThrough` prove that no stage is visited twice. The routers are still modelled in full (`Workflow.RouteAfterReviewCases`).
- For a failing run, that function returns the state itself as the diagnosis. That diagnosis has no `next_action` and no `confidence`, so `should_stop_workflow` never stops on it (`Utils.KeylessDiagnosisNeverStops`).
- In `has_critical_errors` (src/utils.py:503-515), the `error_analysis` checks are indented under a `return` and never run. The model leaves them out (`Utils.HasCriticalErrors`).
- `LLMService.invoke` catches `ClientError`. When the AWS libraries did not import, that name is undefined, so any failure raises at once and is never retried (`Utils.LlmService.Invoke`, with its `hasAws` flag).
- `DeepWikiClient.fallback_enabled` is always true. The error mapping of `query` is therefore reachable only for a client built with the flag off (`Deepwiki.QueryOutcome`).
- The DeepWiki client picks its key by testing "deepseek" first, but picks its client type by testing "claude" first (`Deepwiki.KeyAndClientOrderDiffer`).

## Left out

- Outside collaborators are parameters, not models: the generation service's replies, subprocess outcomes, network downloads, gitingest, the DeepWiki site and the clock. A stage consults each one once per visit, as a fixed function of its inputs.
- File contents are not modelled. The disk is a set of directories and a set of files. This leaves out:
  - the texts the generate stage writes;
  - the JSON reports the env, analysis and review stages save;
  - the diff report and README_MCP text of finalize.

  Only which files exist is tracked.
- Workflow.AnalysisStep, Workflow.EnvStep, Workflow.RunStep and Workflow.ReviewStep hand on the disk they were given. The files these stages create do not reach the disk the later stages see: analysis.json (src/nodes/analysis_node.py:344-349), the smoke script and env_info.json (src/nodes/env_node.py:414-533), run_log.json and llm_statistics.json (src/nodes/run_node.py:194-205) and, from review, error_analysis.json and a repaired file (src/nodes/review_node.py:405-417). No later stage reads any of them; the repair's own file changes are modelled by `Review.FileStore.ReviewNode`.
- Prompt text is left out, and so are the text of generation-service replies beyond what the code parses out of them. Exception messages are reduced to a fixed message or an oracle string.
- `cpp_info` handling is left out: the env stage's C/C++ build (src/nodes/env_node.py:367-387) and the run stage's C/C++ smoke test (src/nodes/run_node.py:87-112). The analysis stage never writes `cpp_info`, so these branches are dead in the pipeline.
- Windows-only branches are left out, and so are the platform-specific conda search paths. The probes of `_check_conda_available` are one host flag, and their commands are not in the command log.
- A failed file write is not modelled; writes are assumed to succeed.
- The env stage's pytest branch raises `NameError` when a conda environment exists but `CONDA_EXE` is unset. Its members require a conda executable whenever a conda environment is in use (`CondaReady`).
- The langgraph library is replaced by `Workflow.Drive`, a loop over the routers with the same edges.
- Floating point is replaced by scaled integers. The file score's fractional part and the `1.3` token factor become `1000 * priority + size` and tenths of tokens. `int((max_tokens - used) / 1.3)` becomes the remaining tenths divided by 13, truncated toward zero, which ignores floating-point rounding.
- Gitingest.NetlocOf: models `urlparse` only for `scheme://host/path?query#fragment`. The `;params` part of the path and the removal of some control characters and whitespace are not modelled.
- Gitingest.ArchiveUrls: the contract states only that four urls are tried. Their order (main, master under `refs/heads`, then main, master) is in the definition that `Gitingest.FirstFetchFirst` ranges over.
- Lower-casing is ASCII only (`str.lower` on other letters is not modelled). `str.isspace` is modelled by its character set.
- Dictionary order in the zip content and the file tree is not modelled: they are maps. `analysis_sources` of the DeepWiki summary is a set, as `list(set(...))` has no defined order.
- `_fallback_via_zip`'s "Failed to parse repository address" branch is not modelled, because `_parse_owner_repo` cannot raise on a string.
- The zip fallback result carries no `content` key. The model keeps the file tree only, as the code does.
- Several source functions are not part of this model:
  - `create_analysis_prompt`, `preprocess_github_repo` and `_extract_zip_tree` (src/tools/gitingest_client.py): none is used by the pipeline.
  - the DeepWiki page scraping (`_get_deepwiki_content*`): its result only changes prompt text.
  - `_has_unified_diff`, `_apply_unified_diff` and `_parse_and_overwrite_file` (src/nodes/review_node.py): the review stage does not call them.
- Finalize leaves out parts that carry no control flow:
  - the summary the generation service writes, and the `_generate_recommendations` list;
  - `_extract_*` feature lists, timestamps and `time.time()` durations.

  The fallback assessment and the report choice are modelled.
- From main.py, these are left out: `load_dotenv` (52-60), argument parsing, console output, and `--provider` (which changes nothing).
- The "Workflow exception" result of `run_workflow` is modelled without the exception text.

## Findings

| source | as written | input that shows it | evidently intended | confidence | as-written member | corrected member |
|---|---|---|---|---|---|---|
| src/utils.py:374-377 | `text[:max_length - len(suffix)] + suffix` | `truncate_text("abcdef", 2, "...")` gives "abcde...", 8 characters for a limit of 2 | the result never exceeds `max_length` | high (not executed) | Utils.TruncateTextAsWritten, Utils.TruncateAsWrittenOverflows | Utils.TruncateText, Utils.TruncateTextAgrees |
| src/nodes/generate_node.py:98-99 | `any(ext in package for ext in ['.cpp', '.hpp', '.c', '.h'])` tests for a substring | a core module with package "pkg.core" contains ".c", so the project is classified C/C++ | an extension test, which leaves a dotted Python package alone | medium (not executed) | GenerateStage.DottedPackageCountsAsCpp | GenerateStage.IntendedProjectType, GenerateStage.IntendedDottedPackage, GenerateStage.IntendedProjectTypeNarrows |
