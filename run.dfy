/**
 * The run stage: choose the interpreter of the provisioned environment,
 * make sure the service framework imports, run the generated tests if any,
 * then run the generated `start_mcp.py` (with `--help` first) and record the
 * outcome as `tests.plugin` and `run_result`.
 */
module RunStage {
  import opened Text
  import opened PipelineState
  import opened Shell

  /** How much of stdout and stderr the stage keeps. */
  const TailLength: nat := 1000

  /** `plugin.files["mcp_output/start_mcp.py"]`, or the default location under the repository. */
  function StartScript(s: State): string
  {
    var recorded := if s.plugin.Some? && "mcp_output/start_mcp.py" in s.plugin.value.files
                    then s.plugin.value.files["mcp_output/start_mcp.py"] else "";
    if recorded != "" then recorded
    else
      var root := if Truthy(RepoRoot(s.repository)) then RepoRoot(s.repository).value else "";
      Join(Join(root, "mcp_output"), "start_mcp.py")
  }

  /** The interpreter command and whether the conda executable was found missing. */
  datatype Base = Base(cmd: seq<string>, condaMissing: bool)

  /**
   * `base_cmd`: for a conda environment its recorded interpreter if that file
   * exists, else `conda run` in the environment, else plain "python"; for a
   * venv its `exec_prefix`; otherwise "python".  `condaExe` is `CONDA_EXE`
   * after the availability probe.
   */
  function BaseCommand(env: Option<Environment>, root: string, disk: Disk, condaExe: Option<string>): (b: Base)
    ensures |b.cmd| > 0
    ensures b.condaMissing ==> b.cmd == ["python"] && env.Some? && env.value.kind == Conda
    ensures env.Some? && env.value.kind == Conda && |env.value.execPrefix| > 0 && env.value.execPrefix[0] in disk.files
            ==> b.cmd == [env.value.execPrefix[0]]
    ensures env.Some? && env.value.kind == Venv && |env.value.execPrefix| > 0 ==> b.cmd == env.value.execPrefix
    ensures (env.None? || env.value.kind == NoEnv || (env.value.kind == Venv && env.value.execPrefix == []))
            ==> b == Base(["python"], false)
  {
    if env.Some? && env.value.kind == Conda then
      var prefix := env.value.execPrefix;
      if |prefix| > 0 && prefix[0] in disk.files then Base([prefix[0]], false)
      else if !Truthy(condaExe) || !Exists(disk, condaExe.value) then Base(["python"], true)
      else Base([condaExe.value, "run", "-n", env.value.name, "--cwd", root, "python"], false)
    else if env.Some? && env.value.kind == Venv && |env.value.execPrefix| > 0 then Base(env.value.execPrefix, false)
    else Base(["python"], false)
  }

  predicate IsConda(env: Option<Environment>)
  {
    env.Some? && env.value.kind == Conda
  }

  /** A script is passed relative to the repository under `conda run`, as it is otherwise. */
  function ScriptArg(env: Option<Environment>, script: string, root: string): string
  {
    if IsConda(env) then RelPath(script, root) else script
  }

  /** `env_info.get("type", "unknown")` */
  function EnvTypeName(env: Option<Environment>): string
  {
    if env.None? then "unknown"
    else match env.value.kind
      case Conda => "conda"
      case Venv => "venv"
      case NoEnv => "none"
  }

  /** The framework probe, followed by the two pip installs when it fails. */
  function ProbeCommands(base: seq<string>, exec: seq<string> -> Proc): seq<seq<string>>
  {
    var probe := base + ["-c", "import fastmcp; print('ok')"];
    if RunCommand(exec(probe)).code != 0 then
      [probe, base + ["-m", "pip", "install", "-U", "pip"], base + ["-m", "pip", "install", "fastmcp>=0.1.0"]]
    else [probe]
  }

  /** The generated basic test, when `tests_mcp` is recorded and the file exists. */
  function TestCommand(s: State, disk: Disk, base: seq<string>, root: string): Option<seq<string>>
  {
    var dir := if s.repository.paths.Some? then s.repository.paths.value.testsMcp else "";
    var test := Join(dir, "test_mcp_basic.py");
    if dir != "" && test in disk.files then Some(base + [ScriptArg(s.env, test, root)]) else None
  }

  /** `start_mcp.py --help`, and the script on its own only when that exits non-zero. */
  function SmokeCommands(base: seq<string>, arg: string, exec: seq<string> -> Proc): (cmds: seq<seq<string>>)
    ensures 1 <= |cmds| <= 2 && cmds[0] == base + [arg, "--help"]
    ensures |cmds| == 2 <==> RunCommand(exec(base + [arg, "--help"])).code != 0
    ensures |cmds| == 2 ==> cmds[1] == base + [arg]
  {
    var help := base + [arg, "--help"];
    if RunCommand(exec(help)).code != 0 then [help, base + [arg]] else [help]
  }

  /** The error type and message prefix for a failing run: the first pattern found wins. */
  function ErrorKind(message: string): (string, string)
  {
    if Contains(message, "No module named") then ("ImportError", "Module import failed: ")
    else if Contains(message, "ImportError") then ("ImportError", "Import error: ")
    else if Contains(message, "SyntaxError") then ("SyntaxError", "Syntax error: ")
    else ("RuntimeError", "Runtime error: ")
  }

  /** `err or out or "Unknown runtime error"` */
  function FailureMessage(out: string, err: string): string
  {
    if err != "" then err else if out != "" then out else "Unknown runtime error"
  }

  /** The classification reads the message in a fixed order and keeps the message after its prefix. */
  lemma ErrorKindOrder(message: string)
    ensures var (kind, prefix) := ErrorKind(message);
            && (kind == "ImportError" <==> Contains(message, "No module named") || Contains(message, "ImportError"))
            && (kind == "SyntaxError" <==> !Contains(message, "No module named") && !Contains(message, "ImportError")
                                           && Contains(message, "SyntaxError"))
            && (kind == "RuntimeError" <==> !Contains(message, "No module named") && !Contains(message, "ImportError")
                                            && !Contains(message, "SyntaxError"))
            && EndsWith(prefix + message, message)
  {
  }

  /** The condition under which the stage gives up before running anything. */
  predicate RunAborts(s: State, disk: Disk)
  {
    !(Truthy(RepoRoot(s.repository)) && StartScript(s) in disk.files)
  }

  /** The error the stage records for a failing service, with the message it stored. */
  function SmokeFailure(message: string): ErrorRecord
  {
    ErrorRecord("RunNode", "PluginSmokeFailed", Some(High), message, RecordOnly)
  }

  const CondaNotFound: ErrorRecord :=
    ErrorRecord("RunNode", "CondaNotFound", None, "Conda executable not available", SkipCondaCommands)

  /** The run result for the final command's exit code and output. */
  function Outcome(res: ExecResult, cmd: seq<string>, root: string, envType: string): (r: RunResult)
    ensures r.success == r.testPassed == (res.code == 0) && r.exitCode == res.code
    ensures r.stdout == Tail(res.out, TailLength) && r.stderr == Tail(res.err, TailLength)
    ensures r.success <==> r.failure.None?
    ensures !r.success ==> var message := FailureMessage(res.out, res.err);
                           r.failure.value.error == ErrorKind(message).1 + message
                           && r.failure.value.errorType == ErrorKind(message).0
  {
    var passed := res.code == 0;
    var message := FailureMessage(res.out, res.err);
    var (kind, prefix) := ErrorKind(message);
    var failure := if passed then None
                   else Some(RunFailure(kind, prefix + message, RunDetails(JoinWith(cmd, " "), root, envType)));
    RunResult(passed, passed, res.code, Tail(res.out, TailLength), Tail(res.err, TailLength), failure)
  }

  /** What the last command, the one the verdict is read from, returned. */
  function LastResult(base: seq<string>, arg: string, exec: seq<string> -> Proc): ExecResult
  {
    var smoke := SmokeCommands(base, arg, exec);
    RunCommand(exec(smoke[|smoke| - 1]))
  }

  /** The state update once the last command has returned `res`. */
  function AfterRun(s: State, base: Base, arg: string, root: string, res: ExecResult): State
  {
    var result := Outcome(res, base.cmd + [arg], root, EnvTypeName(s.env));
    var recorded := (if base.condaMissing then [CondaNotFound] else [])
                    + (if result.success then [] else [SmokeFailure(result.failure.value.error)]);
    s.(errors := s.errors + recorded,
       tests := s.tests.(plugin := Some(TestOutcome(result.success, result.stdout, result.stderr))),
       runResult := Some(result),
       status := Running)
  }

  /** `run_node`, given the host's disk, `CONDA_EXE` and what each command does. */
  function RunStage(s: State, disk: Disk, condaExe: Option<string>, exec: seq<string> -> Proc): State
  {
    if RunAborts(s, disk) then AbortStage(s, "RunNode", "Missing start_mcp.py")
    else
      var root := RepoRoot(s.repository).value;
      var base := BaseCommand(s.env, root, disk, condaExe);
      var arg := ScriptArg(s.env, StartScript(s), root);
      AfterRun(s, base, arg, root, LastResult(base.cmd, arg, exec))
  }

  /** The commands the stage runs, in order. */
  function RunCommands(s: State, disk: Disk, condaExe: Option<string>, exec: seq<string> -> Proc): seq<seq<string>>
  {
    if RunAborts(s, disk) then []
    else
      var root := RepoRoot(s.repository).value;
      var base := BaseCommand(s.env, root, disk, condaExe).cmd;
      ProbeCommands(base, exec) + Listed(TestCommand(s, disk, base, root))
      + SmokeCommands(base, ScriptArg(s.env, StartScript(s), root), exec)
  }

  /** Without a repository root or the start script the stage records the abort and runs nothing. */
  lemma RunAbortsWithoutScript(s: State, disk: Disk, condaExe: Option<string>, exec: seq<string> -> Proc)
    requires RunAborts(s, disk)
    ensures var t := RunStage(s, disk, condaExe, exec);
            && t.errors == s.errors + [InvalidInput("RunNode", "Missing start_mcp.py")]
            && t.status == Failed && t.workflowStatus == Failed && t.runResult == s.runResult
    ensures RunCommands(s, disk, condaExe, exec) == []
  {
  }

  /**
   * The verdict is the exit code of the last command: `tests.plugin.passed`,
   * `run_result.success` and `run_result.test_passed` agree with it, the
   * stored output is the tail of what the command printed, and the workflow
   * status is left as it was.
   */
  lemma RunVerdict(s: State, disk: Disk, condaExe: Option<string>, exec: seq<string> -> Proc)
    requires !RunAborts(s, disk)
    ensures var t := RunStage(s, disk, condaExe, exec);
            var cmds := RunCommands(s, disk, condaExe, exec);
            var last := RunCommand(exec(cmds[|cmds| - 1]));
            && t.runResult.Some? && t.tests.plugin.Some?
            && t.runResult.value.success == t.runResult.value.testPassed == t.tests.plugin.value.passed
               == (last.code == 0)
            && t.runResult.value.exitCode == last.code
            && |t.runResult.value.stdout| <= TailLength && EndsWith(last.out, t.runResult.value.stdout)
            && |t.runResult.value.stderr| <= TailLength && EndsWith(last.err, t.runResult.value.stderr)
            && t.status == Running && t.workflowStatus == s.workflowStatus
  {
  }

  /**
   * A failing service adds exactly one high-severity record carrying the
   * stored error; a passing one adds none (a missing conda executable is
   * recorded in either case).
   */
  lemma RunErrorRecords(s: State, base: Base, arg: string, root: string, res: ExecResult)
    ensures var t := AfterRun(s, base, arg, root, res);
            var conda := if base.condaMissing then [CondaNotFound] else [];
            var r := t.runResult.value;
            && t.runResult.Some?
            && (r.success ==> t.errors == s.errors + conda && r.failure.None?)
            && (!r.success ==> r.failure.Some? && t.errors == s.errors + conda + [SmokeFailure(r.failure.value.error)])
  {
  }

  /**
   * `run_node` as the code runs it: each command goes through `_run` in
   * order, and the state is updated as `RunStage` says.
   */
  method RunNode(s: State, disk: Disk, condaExe: Option<string>, sh: Shell) returns (t: State)
    modifies sh
    ensures t == RunStage(s, disk, condaExe, sh.exec)
    ensures sh.log == old(sh.log) + RunCommands(s, disk, condaExe, sh.exec)
  {
    if RunAborts(s, disk) {
      return AbortStage(s, "RunNode", "Missing start_mcp.py");
    }
    t := RunChecked(s, disk, condaExe, sh);
  }

  /** `run_node` past its input check. */
  method RunChecked(s: State, disk: Disk, condaExe: Option<string>, sh: Shell) returns (t: State)
    requires !RunAborts(s, disk)
    modifies sh
    ensures t == RunStage(s, disk, condaExe, sh.exec)
    ensures sh.log == old(sh.log) + RunCommands(s, disk, condaExe, sh.exec)
  {
    RunStageSteps(s, disk, condaExe, sh.exec);
    hide RunStage, RunCommands, AfterRun, BaseCommand, ScriptArg, TestCommand, StartScript;
    var root := RepoRoot(s.repository).value;
    var base := BaseCommand(s.env, root, disk, condaExe);
    var arg := ScriptArg(s.env, StartScript(s), root);
    var test := TestCommand(s, disk, base.cmd, root);
    Associate(old(sh.log), ProbeCommands(base.cmd, sh.exec), Listed(test), SmokeCommands(base.cmd, arg, sh.exec));
    var res := RunAll(sh, base.cmd, test, arg);
    t := AfterRun(s, base, arg, root, res);
  }

  /** The stage past its input check, step by step. */
  lemma RunStageSteps(s: State, disk: Disk, condaExe: Option<string>, exec: seq<string> -> Proc)
    requires !RunAborts(s, disk)
    ensures var root := RepoRoot(s.repository).value;
            var base := BaseCommand(s.env, root, disk, condaExe);
            var arg := ScriptArg(s.env, StartScript(s), root);
            && RunStage(s, disk, condaExe, exec) == AfterRun(s, base, arg, root, LastResult(base.cmd, arg, exec))
            && RunCommands(s, disk, condaExe, exec)
               == ProbeCommands(base.cmd, exec) + Listed(TestCommand(s, disk, base.cmd, root)) + SmokeCommands(base.cmd, arg, exec)
  {
  }

  /** The probe, the optional installs, the optional test and the start script, in order. */
  method RunAll(sh: Shell, base: seq<string>, test: Option<seq<string>>, arg: string) returns (res: ExecResult)
    modifies sh
    ensures sh.log == old(sh.log) + ProbeCommands(base, sh.exec) + Listed(test) + SmokeCommands(base, arg, sh.exec)
    ensures res == LastResult(base, arg, sh.exec)
  {
    Probe(sh, base);
    if test.Some? {
      var _ := sh.Run(test.value);
    }
    res := sh.Run(base + [arg, "--help"]);
    if res.code != 0 {
      res := sh.Run(base + [arg]);
    }
  }

  /** `import fastmcp` in the environment, and the two installs when it fails. */
  method Probe(sh: Shell, base: seq<string>)
    modifies sh
    ensures sh.log == old(sh.log) + ProbeCommands(base, sh.exec)
  {
    var probe := sh.Run(base + ["-c", "import fastmcp; print('ok')"]);
    if probe.code != 0 {
      var _ := sh.Run(base + ["-m", "pip", "install", "-U", "pip"]);
      var _ := sh.Run(base + ["-m", "pip", "install", "fastmcp>=0.1.0"]);
    }
  }
}
