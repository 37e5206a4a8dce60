/**
 * `env_node`: after the input check, provision an environment, then check
 * that the original project works in it, with its own test suite when it
 * has a `tests` directory and otherwise (or when that fails) with a smoke
 * script that imports the project's top-level package.
 */
module EnvStage {
  import opened Text
  import opened PipelineState
  import opened Shell
  import opened EnvProvision

  // ---------------------------------------------------------------------
  // The smoke script's import plan

  /** The packages that are not test packages (`"tests" not in p.lower()`), in order. */
  function Candidates(pkgs: seq<string>): (r: seq<string>)
    ensures forall p :: p in r <==> p in pkgs && !Contains(Lower(p), "tests")
  {
    if pkgs == [] then []
    else (if Contains(Lower(pkgs[0]), "tests") then [] else [pkgs[0]]) + Candidates(pkgs[1..])
  }

  /**
   * The "source." rule: a package under the copied `source` directory is
   * imported without that first component.
   */
  function DropSource(t: string): string
  {
    var parts := SplitOn(t, '.');
    if "source." <= t then
      if |parts| >= 3 then JoinWith(parts[1..], ".")
      else if |parts| == 2 then parts[1]
      else t
    else t
  }

  /** Both branches of the rule drop exactly the leading "source.". */
  lemma DropSourcePrefix(t: string)
    requires "source." <= t
    ensures DropSource(t) == t[7..]
  {
    var rest := t[7..];
    assert t == "source" + ['.'] + rest;
    SplitOnFirst("source", '.', rest);
    SplitJoin(rest, '.');
    var parts := SplitOn(t, '.');
    assert parts[1..] == SplitOn(rest, '.');
  }

  /** The package the smoke script imports: `None` writes the NO_PACKAGE script. */
  function SmokeTarget(pkgs: seq<string>): Option<string>
  {
    var c := Candidates(pkgs);
    if c == [] then None
    else
      var t := DropSource(FewestDots(c));
      if t == "" then None else Some(t)
  }

  /**
   * The target is a non-test package with the fewest dots, without its
   * "source." prefix; there is none only when every package is a test
   * package or the chosen one names nothing.
   */
  lemma SmokeTargetChoice(pkgs: seq<string>)
    ensures var t := SmokeTarget(pkgs);
            t.Some? ==> exists p :: p in pkgs && !Contains(Lower(p), "tests")
                                 && (forall q :: q in pkgs && !Contains(Lower(q), "tests") ==> Dots(p) <= Dots(q))
                                 && t.value != "" && (t.value == p || "source." + t.value == p)
    ensures SmokeTarget(pkgs).None? <==> Candidates(pkgs) == [] || DropSource(FewestDots(Candidates(pkgs))) == ""
  {
    hide Candidates, FewestDots, Contains, Lower, Dots;
    var c := Candidates(pkgs);
    if c != [] {
      var m := FewestDots(c);
      FewestDotsFirst(c);
      if "source." <= m {
        DropSourcePrefix(m);
        assert m == "source." + m[7..];
      }
      assert m in pkgs && !Contains(Lower(m), "tests");
    }
  }

  /** Names the fallbacks try before the target itself. */
  function FallbackNames(t: string): seq<string>
  {
    var parts := SplitOn(t, '.');
    if "source." <= t then
      if |parts| >= 3 then [JoinWith(parts[1..], "."), parts[|parts| - 1]]
      else if |parts| == 2 then [parts[1]]
      else []
    else if "src." <= t then [ReplaceAll(t, "src.", "")]
    else if '.' in t then [parts[|parts| - 1]]
    else []
  }

  /** `list(dict.fromkeys(xs))`: the first occurrence of each element, in order. */
  function Dedupe(xs: seq<string>): (r: seq<string>)
    ensures forall x :: x in r <==> x in xs
    ensures forall i, j :: 0 <= i < j < |r| ==> r[i] != r[j]
  {
    if xs == [] then []
    else
      var d := Dedupe(xs[..|xs| - 1]);
      if xs[|xs| - 1] in d then d else d + [xs[|xs| - 1]]
  }

  /** An element of a prefix is first found where the prefix has it. */
  lemma {:induction false} FirstIndexPrefix(xs: seq<string>, y: string, x: string)
    requires x in xs
    ensures FirstIndex(xs + [y], x) == FirstIndex(xs, x)
    decreases |xs|
  {
    if xs[0] != x {
      assert (xs + [y])[1..] == xs[1..] + [y];
      FirstIndexPrefix(xs[1..], y, x);
    }
  }

  /** `Dedupe` lists the elements in the order of their first occurrence. */
  lemma {:induction false} DedupeOrder(xs: seq<string>)
    ensures var r := Dedupe(xs);
            forall i, j :: 0 <= i < j < |r| ==> FirstIndex(xs, r[i]) < FirstIndex(xs, r[j])
    decreases |xs|
  {
    if xs != [] {
      var init := xs[..|xs| - 1];
      DedupeOrder(init);
      DedupeOrderStep(init, xs[|xs| - 1]);
      assert xs == init + [xs[|xs| - 1]];
    }
  }

  /** Appending one element keeps the order of first occurrences. */
  lemma DedupeOrderStep(init: seq<string>, last: string)
    requires var d := Dedupe(init);
             forall i, j :: 0 <= i < j < |d| ==> FirstIndex(init, d[i]) < FirstIndex(init, d[j])
    ensures var xs := init + [last];
            var r := Dedupe(xs);
            forall i, j :: 0 <= i < j < |r| ==> FirstIndex(xs, r[i]) < FirstIndex(xs, r[j])
  {
    var xs := init + [last];
    assert xs[..|xs| - 1] == init;
    var d := Dedupe(init);
    forall i | 0 <= i < |d|
      ensures FirstIndex(xs, d[i]) == FirstIndex(init, d[i]) < |init|
    {
      FirstIndexPrefix(init, last, d[i]);
    }
    if last !in d {
      DedupeAppendNew(init, last);
    }
  }

  /** A new last element goes after everything found before it. */
  lemma DedupeAppendNew(init: seq<string>, last: string)
    requires last !in Dedupe(init)
    requires var xs := init + [last];
             var d := Dedupe(init);
             forall i, j :: 0 <= i < j < |d| ==> FirstIndex(xs, d[i]) < FirstIndex(xs, d[j])
    requires var xs := init + [last];
             var d := Dedupe(init);
             forall i :: 0 <= i < |d| ==> FirstIndex(xs, d[i]) < |init|
    ensures var xs := init + [last];
            var r := Dedupe(xs);
            forall i, j :: 0 <= i < j < |r| ==> FirstIndex(xs, r[i]) < FirstIndex(xs, r[j])
  {
    var xs := init + [last];
    assert xs[..|xs| - 1] == init;
    var d := Dedupe(init);
    var r := Dedupe(xs);
    assert r == d + [last];
    assert FirstIndex(xs, last) == |init| by {
      assert last !in init;
      assert xs[|init|] == last;
    }
    forall i, j | 0 <= i < j < |r|
      ensures FirstIndex(xs, r[i]) < FirstIndex(xs, r[j])
    {
      assert r[i] == d[i];
      if j < |d| {
        assert r[j] == d[j];
      } else {
        assert r[j] == last;
      }
    }
  }

  /** The import attempts after the target fails, as the script lists them. */
  function Fallbacks(t: string): seq<string>
  {
    Dedupe(NonEmpty(FallbackNames(t) + [t]))
  }

  /** The fallback list ends up including the target, and holds no empty name and no name twice. */
  lemma FallbacksShape(t: string)
    requires t != ""
    ensures var r := Fallbacks(t);
            && t in r
            && (forall x :: x in r ==> x != "")
            && (forall i, j :: 0 <= i < j < |r| ==> r[i] != r[j])
  {
    assert t in FallbackNames(t) + [t];
  }

  /** The fallback list keeps the order in which the rules first proposed each name. */
  lemma FallbacksOrder(t: string)
    ensures var names := NonEmpty(FallbackNames(t) + [t]);
            var r := Fallbacks(t);
            forall i, j :: 0 <= i < j < |r| ==> FirstIndex(names, r[i]) < FirstIndex(names, r[j])
  {
    DedupeOrder(NonEmpty(FallbackNames(t) + [t]));
    assert Fallbacks(t) == Dedupe(NonEmpty(FallbackNames(t) + [t]));
  }

  /** For a target under "source." the first fallback is the target without it. */
  lemma FallbacksUnderSource(t: string)
    requires "source." <= t && t[7..] != ""
    ensures Fallbacks(t) != [] && Fallbacks(t)[0] == t[7..]
  {
    DropSourcePrefix(t);
    var names := FallbackNames(t);
    assert names[0] == DropSource(t);
    assert NonEmpty(names + [t])[0] == t[7..];
    DedupeHead(NonEmpty(names + [t]));
  }

  /** The first element survives deduplication in front. */
  lemma {:induction false} DedupeHead(xs: seq<string>)
    requires xs != []
    ensures Dedupe(xs) != [] && Dedupe(xs)[0] == xs[0]
    decreases |xs|
  {
    if |xs| > 1 {
      var init := xs[..|xs| - 1];
      DedupeHead(init);
      assert init[0] == xs[0];
    }
  }

  /** What the smoke script tries: nothing, or the target and then the fallbacks. */
  datatype SmokePlan = NoPackage | Imports(target: string, fallbacks: seq<string>)

  function SmokePlanOf(pkgs: seq<string>): SmokePlan
  {
    var t := SmokeTarget(pkgs);
    if t.None? then NoPackage else Imports(t.value, Fallbacks(t.value))
  }

  // ---------------------------------------------------------------------
  // Validation commands

  /** The pytest run in the environment. */
  function PytestCommand(env: Environment, h: Host): (cmd: seq<string>)
    requires env.kind == Conda ==> CondaReady(h)
    ensures env.kind == Conda ==> |cmd| >= 4 && cmd[..4] == [h.condaExe.value, "run", "-n", env.name]
    ensures env.kind == Venv && env.execPrefix != [] ==> env.execPrefix <= cmd
    ensures |cmd| >= 3 && cmd[|cmd| - 3..] == ["-m", "pytest", "-q"]
  {
    if env.kind == Conda then [h.condaExe.value, "run", "-n", env.name, "python", "-m", "pytest", "-q"]
    else if env.kind == Venv && env.execPrefix != [] then env.execPrefix + ["-m", "pytest", "-q"]
    else ["python", "-m", "pytest", "-q"]
  }

  /** `<repo>/mcp_output/tests_smoke/test_smoke.py` */
  function SmokeScript(root: string): string
  {
    Join(Join(Join(root, "mcp_output"), "tests_smoke"), "test_smoke.py")
  }

  /** The smoke script run with the environment's interpreter. */
  function SmokeCommand(env: Environment, h: Host, script: string): (cmd: seq<string>)
    requires env.kind == Conda ==> CondaReady(h)
    ensures |cmd| >= 2 && cmd[|cmd| - 1] == script
    ensures env.kind == Conda ==> |cmd| >= 4 && cmd[..4] == [h.condaExe.value, "run", "-n", env.name]
    ensures env.kind == Venv && env.execPrefix != [] ==> cmd[0] == env.execPrefix[0]
  {
    if env.kind == Conda then [h.condaExe.value, "run", "-n", env.name, "python", script]
    else if env.kind == Venv && env.execPrefix != [] then [env.execPrefix[0], script]
    else ["python", script]
  }

  /** Whether the original project passed, and the commands that decided it. */
  datatype Validation = Validation(passed: bool, cmds: seq<seq<string>>)

  /** The pytest run when a `tests` directory exists, then the smoke script unless pytest passed. */
  function Validate(env: Environment, root: string, h: Host, exec: seq<string> -> Proc): Validation
    requires env.kind == Conda ==> CondaReady(h)
  {
    var pytest := PytestCommand(env, h);
    var hasTests := Join(root, "tests") in h.disk.dirs;
    if hasTests && RunCommand(exec(pytest)).code == 0 then Validation(true, [pytest])
    else
      var smoke := SmokeCommand(env, h, SmokeScript(root));
      var res := RunCommand(exec(smoke));
      Validation(res.code == 0 && Contains(res.out, "OK"), (if hasTests then [pytest] else []) + [smoke])
  }

  /**
   * The verdict is the last command's: pytest passing settles it, and
   * otherwise the smoke script must exit 0 and print "OK"; pytest runs
   * exactly when the `tests` directory exists.
   */
  lemma ValidationVerdict(env: Environment, root: string, h: Host, exec: seq<string> -> Proc)
    requires env.kind == Conda ==> CondaReady(h)
    ensures var v := Validate(env, root, h, exec);
            var last := v.cmds[|v.cmds| - 1];
            var res := RunCommand(exec(last));
            && v.cmds != []
            && (v.passed <==> res.code == 0 && (last == PytestCommand(env, h) || Contains(res.out, "OK")))
            && (PytestCommand(env, h) in v.cmds <==> Join(root, "tests") in h.disk.dirs)
  {
    hide PytestCommand, SmokeCommand, SmokeScript, Contains, Join;
    SmokeIsNotPytest(env, root, h);
  }

  /** The smoke run is never the test run: it ends with its script, not with "-q". */
  lemma SmokeIsNotPytest(env: Environment, root: string, h: Host)
    requires env.kind == Conda ==> CondaReady(h)
    ensures SmokeCommand(env, h, SmokeScript(root)) != PytestCommand(env, h)
  {
    hide PytestCommand, SmokeCommand;
    var pytest := PytestCommand(env, h);
    var smoke := SmokeCommand(env, h, SmokeScript(root));
    assert pytest[|pytest| - 1] == "-q";
  }

  method RunValidation(sh: Shell, env: Environment, root: string, h: Host) returns (passed: bool)
    requires env.kind == Conda ==> CondaReady(h)
    modifies sh
    ensures passed == Validate(env, root, h, sh.exec).passed
    ensures sh.log == old(sh.log) + Validate(env, root, h, sh.exec).cmds
  {
    hide PytestCommand, SmokeCommand, SmokeScript, Contains, Join;
    passed := false;
    var pytest := PytestCommand(env, h);
    var smoke := SmokeCommand(env, h, SmokeScript(root));
    if Join(root, "tests") in h.disk.dirs {
      var res := sh.Run(pytest);
      passed := res.code == 0;
    }
    if !passed {
      AssociateThree(old(sh.log), if Join(root, "tests") in h.disk.dirs then [pytest] else [], [smoke]);
      var res := sh.Run(smoke);
      passed := res.code == 0 && Contains(res.out, "OK");
    }
  }

  // ---------------------------------------------------------------------
  // The stage

  /** The input check: a repository root that is a directory, and a repository name. */
  predicate EnvAborts(s: State, disk: Disk)
  {
    !(Truthy(RepoRoot(s.repository)) && RepoRoot(s.repository).value in disk.dirs && Truthy(s.repository.name))
  }

  /** `(state.get("analysis") or {}).get("dependencies", {})` */
  function Dependencies(s: State): DependencyFlags
  {
    if s.analysis.Some? then s.analysis.value.dependencies else DependencyFlags(false, false, false, false, false)
  }

  /** `(state.get("analysis") or {}).get("structure", {}).get("packages", [])` */
  function Packages(s: State): seq<string>
  {
    if s.analysis.Some? then s.analysis.value.packages else []
  }

  /** The placeholder recorded when no environment could be made. */
  const NoEnvironment := Environment(NoEnv, "none", None, map[], "3.10", [])

  const SetupFailed := ErrorRecord("EnvNode", "EnvSetupFailed", None, "Unable to create any type of environment", Continue)

  function EnvOrNone(env: Option<Environment>): Environment
  {
    if env.Some? then env.value else NoEnvironment
  }

  /** The state writes after provisioning and validation. */
  function AfterEnv(s: State, env: Option<Environment>, passed: bool): State
  {
    s.(errors := s.errors + (if env.Some? then [] else [SetupFailed]),
       env := Some(EnvOrNone(env)),
       tests := s.tests.(original := Some(TestOutcome(passed, "", ""))),
       status := Running)
  }

  /** `env_node`, given the host and what each command does. */
  function EnvStage(s: State, h: Host, exec: seq<string> -> Proc): State
  {
    if EnvAborts(s, h.disk) then AbortStage(s, "EnvNode", "Missing repo_root path or repo_name")
    else
      var root := RepoRoot(s.repository).value;
      var p := Provision(s.repository.name.value, root, Dependencies(s), h, exec);
      ProvisionOrder(s.repository.name.value, root, Dependencies(s), h, exec);
      AfterEnv(s, p.env, Validate(EnvOrNone(p.env), root, h, exec).passed)
  }

  /** The commands the stage runs, in order. */
  function EnvCommands(s: State, h: Host, exec: seq<string> -> Proc): seq<seq<string>>
  {
    if EnvAborts(s, h.disk) then []
    else
      var root := RepoRoot(s.repository).value;
      var p := Provision(s.repository.name.value, root, Dependencies(s), h, exec);
      ProvisionOrder(s.repository.name.value, root, Dependencies(s), h, exec);
      p.cmds + Validate(EnvOrNone(p.env), root, h, exec).cmds
  }

  /** Without a usable repository root or name the stage records the abort and runs nothing. */
  lemma EnvAbortsOnMissingInput(s: State, h: Host, exec: seq<string> -> Proc)
    requires EnvAborts(s, h.disk)
    ensures var t := EnvStage(s, h, exec);
            && t.errors == s.errors + [InvalidInput("EnvNode", "Missing repo_root path or repo_name")]
            && t.status == Failed && t.workflowStatus == Failed && t.env == s.env
    ensures EnvCommands(s, h, exec) == []
  {
  }

  /**
   * Past the input check the stage always leaves an environment behind (the
   * "none" placeholder exactly when provisioning failed, with one
   * EnvSetupFailed record), records the validation verdict as the original
   * tests' outcome, sets the status to running, keeps the workflow status
   * and changes nothing else.
   */
  lemma EnvOutcome(s: State, h: Host, exec: seq<string> -> Proc)
    requires !EnvAborts(s, h.disk)
    ensures var t := EnvStage(s, h, exec);
            var root := RepoRoot(s.repository).value;
            var p := Provision(s.repository.name.value, root, Dependencies(s), h, exec);
            && t.env.Some?
            && (t.env.value.kind == NoEnv <==> p.env.None?)
            && (p.env.None? ==> t.env == Some(NoEnvironment) && t.errors == s.errors + [SetupFailed])
            && (p.env.Some? ==> t.env == p.env && t.errors == s.errors)
            && t.tests.original.Some? && t.tests.plugin == s.tests.plugin
            && t.status == Running && t.workflowStatus == s.workflowStatus
            && t == s.(errors := t.errors, env := t.env, tests := t.tests, status := Running)
  {
    var root := RepoRoot(s.repository).value;
    ProvisionOrder(s.repository.name.value, root, Dependencies(s), h, exec);
    CondaCreateOutcome(EnvName(s.repository.name.value, h.condaClock), root, Dependencies(s), h, exec);
    VenvCreateOutcome(root, s.repository.name.value, Dependencies(s), h, exec);
  }

  /** The stage past its input check, step by step. */
  lemma EnvStageSteps(s: State, h: Host, exec: seq<string> -> Proc)
    requires !EnvAborts(s, h.disk)
    ensures var root := RepoRoot(s.repository).value;
            var p := Provision(s.repository.name.value, root, Dependencies(s), h, exec);
            (p.env.Some? && p.env.value.kind == Conda ==> CondaReady(h))
            && EnvStage(s, h, exec) == AfterEnv(s, p.env, Validate(EnvOrNone(p.env), root, h, exec).passed)
            && EnvCommands(s, h, exec) == p.cmds + Validate(EnvOrNone(p.env), root, h, exec).cmds
  {
    ProvisionOrder(s.repository.name.value, RepoRoot(s.repository).value, Dependencies(s), h, exec);
  }

  /**
   * `env_node` as the code runs it: each command goes through `_run` in
   * order, and the state is updated as `EnvStage` says.
   */
  method EnvNode(s: State, h: Host, sh: Shell) returns (t: State)
    modifies sh
    ensures t == EnvStage(s, h, sh.exec)
    ensures sh.log == old(sh.log) + EnvCommands(s, h, sh.exec)
  {
    if EnvAborts(s, h.disk) {
      return AbortStage(s, "EnvNode", "Missing repo_root path or repo_name");
    }
    var root := RepoRoot(s.repository).value;
    var repo := s.repository.name.value;
    var env := ProvisionEnv(sh, repo, root, Dependencies(s), h);
    ProvisionOrder(repo, root, Dependencies(s), h, sh.exec);
    var passed := RunValidation(sh, EnvOrNone(env), root, h);
    t := AfterEnv(s, env, passed);
    EnvStageSteps(s, h, sh.exec);
    AssociateThree(old(sh.log), Provision(repo, root, Dependencies(s), h, sh.exec).cmds,
                   Validate(EnvOrNone(env), root, h, sh.exec).cmds);
  }
}
