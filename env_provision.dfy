/**
 * How the env stage provisions an isolated environment for the downloaded
 * repository: a fresh conda environment when conda is available (after
 * removing the repository's older ones), otherwise a virtualenv inside the
 * repository, each followed by the installs the repository's dependency
 * manifests call for.
 */
module EnvProvision {
  import opened Text
  import opened PipelineState
  import opened Shell
  import opened EnvYml

  /**
   * What the stage learns from the host besides command results: the disk,
   * whether the conda probe succeeds, `CONDA_EXE`, `sys.executable`, the
   * clock when each environment name is made, whether `python -m venv`
   * leaves an interpreter behind, file contents, the `[project].dependencies`
   * of a pyproject file, and the environment paths in what
   * `conda env list --json` printed (`None` when it is not JSON).
   */
  datatype Host = Host(disk: Disk, condaAvailable: bool, condaExe: Option<string>, python: string,
                       condaClock: nat, venvClock: nat, venvBuilt: bool,
                       read: string -> Option<string>, tomlDeps: string -> seq<string>,
                       envList: string -> Option<seq<string>>)

  /** `CONDA_EXE` is set and names an existing path. */
  predicate CondaReady(h: Host)
  {
    Truthy(h.condaExe) && Exists(h.disk, h.condaExe.value)
  }

  // ---------------------------------------------------------------------
  // Environment names

  function DigitChar(d: nat): (c: char)
    requires d < 10
    ensures IsDigit(c)
  {
    (48 + d) as char
  }

  function DigitValue(c: char): nat
  {
    if IsDigit(c) then c as int - 48 else 0
  }

  /** `str(n)` */
  function Decimal(n: nat): (r: string)
    ensures |r| >= 1 && forall i :: 0 <= i < |r| ==> IsDigit(r[i])
    decreases n
  {
    if n < 10 then [DigitChar(n)] else Decimal(n / 10) + [DigitChar(n % 10)]
  }

  /** The number a string of decimal digits denotes. */
  function DigitsValue(s: string): nat
  {
    if s == [] then 0 else 10 * DigitsValue(s[..|s| - 1]) + DigitValue(s[|s| - 1])
  }

  /** `Decimal` writes the number it is given. */
  lemma {:induction false} DecimalValue(n: nat)
    ensures DigitsValue(Decimal(n)) == n
    decreases n
  {
    if n >= 10 {
      var d := Decimal(n);
      assert d[..|d| - 1] == Decimal(n / 10);
      DecimalValue(n / 10);
    }
  }

  function Pow10(k: nat): (p: nat)
    ensures p >= 1 && (k >= 1 ==> p >= 10)
  {
    if k == 0 then 1 else 10 * Pow10(k - 1)
  }

  lemma MulAtLeast(d: int, x: int)
    requires d > 0 && x >= 1
    ensures d * x >= d
  {
  }

  /** Division with remainder has one answer. */
  lemma ModUnique(n: int, d: int, q: int, r: int)
    requires d > 0 && 0 <= r < d && n == d * q + r
    ensures n % d == r
  {
    var q', r' := n / d, n % d;
    assert d * (q - q') == r' - r;
    if q - q' >= 1 {
      MulAtLeast(d, q - q');
    } else if q' - q >= 1 {
      MulAtLeast(d, q' - q);
    }
  }

  /** Cutting off the last decimal digit: `n % 10m` from `(n / 10) % m`. */
  lemma ModTen(n: nat, m: nat)
    requires m >= 1
    ensures n % (10 * m) == 10 * ((n / 10) % m) + n % 10
  {
    var q, r := n / 10, n % 10;
    var a, b := q / m, q % m;
    assert q == m * a + b;
    assert n == 10 * q + r;
    assert n == (10 * m) * a + (10 * b + r) by {
      assert 10 * q == 10 * (m * a) + 10 * b;
      assert 10 * (m * a) == (10 * m) * a;
    }
    assert 10 * b + r < 10 * m;
    ModUnique(n, 10 * m, a, 10 * b + r);
  }

  /** A digit character denotes its digit. */
  lemma DigitCharValue(d: nat)
    requires d < 10
    ensures DigitValue(DigitChar(d)) == d
  {
  }

  /** Dropping the last digit from the tail of a longer number. */
  lemma TailInit(e: string, c: char, k: nat)
    requires k >= 1
    ensures var t := Tail(e + [c], k);
            |t| >= 1 && t[..|t| - 1] == Tail(e, k - 1) && t[|t| - 1] == c
  {
    var d := e + [c];
    var t := Tail(d, k);
    if |d| <= k {
      assert t[..|t| - 1] == e;
    } else {
      assert t[..|t| - 1] == e[|e| - (k - 1)..];
    }
  }

  /** The last `k` digits of `str(n)` denote `n` modulo `10^k`. */
  lemma {:induction false} TailValue(n: nat, k: nat)
    ensures DigitsValue(Tail(Decimal(n), k)) == n % Pow10(k)
    decreases n
  {
    hide *;
    if k == 0 {
      TailValueZero(n);
    } else if n < 10 {
      TailValueOneDigit(n, k);
    } else {
      TailValue(n / 10, k - 1);
      TailValueStep(n, k);
    }
  }

  lemma TailValueZero(n: nat)
    ensures DigitsValue(Tail(Decimal(n), 0)) == n % Pow10(0)
  {
    assert Tail(Decimal(n), 0) == [];
  }

  lemma TailValueOneDigit(n: nat, k: nat)
    requires n < 10 && k >= 1
    ensures DigitsValue(Tail(Decimal(n), k)) == n % Pow10(k)
  {
    var d := Decimal(n);
    assert Tail(d, k) == d == [DigitChar(n)];
    DigitCharValue(n);
    assert DigitsValue(d) == n;
    ModUnique(n, Pow10(k), 0, n);
  }

  /** The tail of a number with one more digit: the shorter tail, shifted, plus that digit. */
  lemma TailSnocValue(e: string, c: char, k: nat)
    requires k >= 1
    ensures DigitsValue(Tail(e + [c], k)) == 10 * DigitsValue(Tail(e, k - 1)) + DigitValue(c)
  {
    TailInit(e, c, k);
  }

  /** One more decimal digit of `n` below the last `k - 1` digits of `n / 10`. */
  lemma TailValueStep(n: nat, k: nat)
    requires n >= 10 && k >= 1
    requires DigitsValue(Tail(Decimal(n / 10), k - 1)) == (n / 10) % Pow10(k - 1)
    ensures DigitsValue(Tail(Decimal(n), k)) == n % Pow10(k)
  {
    var e := Decimal(n / 10);
    var c := DigitChar(n % 10);
    assert Decimal(n) == e + [c];
    TailSnocValue(e, c, k);
    DigitCharValue(n % 10);
    hide DigitsValue, Decimal, Tail, DigitChar, DigitValue;
    ModTen(n, Pow10(k - 1));
  }

  /** `str(int(time.time()))[-6:]`: the last six digits of the clock. */
  function Stamp(clock: nat): (r: string)
    ensures 1 <= |r| <= 6 && forall i :: 0 <= i < |r| ==> IsDigit(r[i])
  {
    Tail(Decimal(clock), 6)
  }

  /** The stamp denotes the clock modulo one million. */
  lemma StampValue(clock: nat)
    ensures DigitsValue(Stamp(clock)) == clock % 1000000
  {
    TailValue(clock, 6);
    assert Pow10(6) == 1000000;
  }

  /** The cleanup's test: `name` starts with the repository name and "_" and ends with "_env". */
  predicate OwnedEnv(repo: string, name: string)
  {
    repo + "_" <= name && EndsWith(name, "_env")
  }

  /** `_env_name`: the conda environment's name, which the cleanup of later runs recognises. */
  function EnvName(repo: string, clock: nat): (r: string)
    ensures OwnedEnv(repo, r)
  {
    var r := repo + "_" + Stamp(clock) + "_env";
    assert r == (repo + "_") + (Stamp(clock) + "_env");
    assert r[|r| - 4..] == "_env";
    r
  }

  /** The virtualenv's name, which no cleanup ever matches. */
  function VenvName(repo: string, clock: nat): (r: string)
    ensures forall other :: !OwnedEnv(other, r)
  {
    var r := repo + "_" + Stamp(clock) + "_venv";
    assert r[|r| - 4..] == "venv";
    r
  }

  /**
   * The cleanup's test is a prefix test, so it also matches the conda
   * environments made for any repository whose name extends `repo` with "_".
   */
  lemma OwnedEnvOfLongerName(repo: string, more: string, clock: nat)
    ensures OwnedEnv(repo, EnvName(repo + "_" + more, clock))
  {
    var n := EnvName(repo + "_" + more, clock);
    assert n[..|repo| + 1] == repo + "_";
  }

  // ---------------------------------------------------------------------
  // `_cleanup_old_envs`

  function ListCommand(conda: string): seq<string>
  {
    [conda, "env", "list", "--json"]
  }

  function RemoveCommand(conda: string, name: string): seq<string>
  {
    [conda, "env", "remove", "-n", name, "--yes"]
  }

  /** One removal per listed path whose last component the cleanup owns, in list order. */
  function Removals(conda: string, repo: string, paths: seq<string>): seq<seq<string>>
  {
    if paths == [] then []
    else
      var base := AfterLast(paths[|paths| - 1], '/');
      Removals(conda, repo, paths[..|paths| - 1]) + (if OwnedEnv(repo, base) then [RemoveCommand(conda, base)] else [])
  }

  /** `c` is the removal of the environment at path `p`, which the cleanup owns. */
  predicate RemovalOf(conda: string, repo: string, p: string, c: seq<string>)
  {
    OwnedEnv(repo, AfterLast(p, '/')) && c == RemoveCommand(conda, AfterLast(p, '/'))
  }

  /** Every removal the cleanup runs is of a listed environment it owns. */
  lemma {:induction false} RemovalsOwned(conda: string, repo: string, paths: seq<string>)
    ensures forall c :: c in Removals(conda, repo, paths) ==> exists p :: p in paths && RemovalOf(conda, repo, p, c)
    decreases |paths|
  {
    if paths != [] {
      var init := paths[..|paths| - 1];
      RemovalsOwned(conda, repo, init);
      forall c | c in Removals(conda, repo, paths)
        ensures exists p :: p in paths && RemovalOf(conda, repo, p, c)
      {
        if c in Removals(conda, repo, init) {
          var p :| p in init && RemovalOf(conda, repo, p, c);
          assert p in paths;
        } else {
          assert RemovalOf(conda, repo, paths[|paths| - 1], c);
        }
      }
    }
  }

  /** Every listed environment the cleanup owns is removed. */
  lemma {:induction false} RemovalsComplete(conda: string, repo: string, paths: seq<string>)
    ensures forall p :: p in paths && OwnedEnv(repo, AfterLast(p, '/')) ==>
              RemoveCommand(conda, AfterLast(p, '/')) in Removals(conda, repo, paths)
    decreases |paths|
  {
    if paths != [] {
      var init := paths[..|paths| - 1];
      RemovalsComplete(conda, repo, init);
      forall p | p in paths && OwnedEnv(repo, AfterLast(p, '/'))
        ensures RemoveCommand(conda, AfterLast(p, '/')) in Removals(conda, repo, paths)
      {
        if p != paths[|paths| - 1] {
          assert p in init;
        }
      }
    }
  }

  /** `_cleanup_old_envs(repo)`: the commands it runs. */
  function CleanupCommands(repo: string, h: Host, exec: seq<string> -> Proc): seq<seq<string>>
  {
    if !CondaReady(h) then []
    else
      var conda := h.condaExe.value;
      var res := RunCommand(exec(ListCommand(conda)));
      var paths := h.envList(res.out);
      [ListCommand(conda)] + (if res.code == 0 && paths.Some? then Removals(conda, repo, paths.value) else [])
  }

  method CleanupOldEnvs(sh: Shell, repo: string, h: Host)
    modifies sh
    ensures sh.log == old(sh.log) + CleanupCommands(repo, h, sh.exec)
  {
    if !CondaReady(h) {
      return;
    }
    var conda := h.condaExe.value;
    var res := sh.Run(ListCommand(conda));
    var paths := h.envList(res.out);
    if res.code != 0 || paths.None? {
      return;
    }
    RemoveOwned(sh, conda, repo, paths.value);
    AssociateThree(old(sh.log), [ListCommand(conda)], Removals(conda, repo, paths.value));
  }

  /** The loop over the listed environment paths. */
  /** The removals of one more path: those before it, then its own when the cleanup owns it. */
  lemma RemovalsStep(conda: string, repo: string, paths: seq<string>, i: nat)
    requires i < |paths|
    ensures Removals(conda, repo, paths[..i + 1])
            == Removals(conda, repo, paths[..i])
               + (if OwnedEnv(repo, AfterLast(paths[i], '/')) then [RemoveCommand(conda, AfterLast(paths[i], '/'))] else [])
  {
    assert paths[..i + 1][..i] == paths[..i];
  }

  method RemoveOwned(sh: Shell, conda: string, repo: string, paths: seq<string>)
    modifies sh
    ensures sh.log == old(sh.log) + Removals(conda, repo, paths)
  {
    var i := 0;
    while i < |paths|
      invariant 0 <= i <= |paths|
      invariant sh.log == old(sh.log) + Removals(conda, repo, paths[..i])
    {
      hide Removals, OwnedEnv, AfterLast;
      var base := AfterLast(paths[i], '/');
      ghost var step := if OwnedEnv(repo, base) then [RemoveCommand(conda, base)] else [];
      RemovalsStep(conda, repo, paths, i);
      if OwnedEnv(repo, base) {
        var _ := sh.Run(RemoveCommand(conda, base));
      }
      AssociateThree(old(sh.log), Removals(conda, repo, paths[..i]), step);
      i := i + 1;
    }
    assert paths[..|paths|] == paths;
  }

  // ---------------------------------------------------------------------
  // Manifests and install steps

  /** The first of `root/file` and `root/source/file` that exists. */
  function PickManifest(root: string, file: string, disk: Disk): (r: Option<string>)
    ensures r.Some? ==> Exists(disk, r.value)
    ensures Exists(disk, Join(root, file)) ==> r == Some(Join(root, file))
    ensures r.None? <==> !Exists(disk, Join(root, file)) && !Exists(disk, Join(Join(root, "source"), file))
  {
    if Exists(disk, Join(root, file)) then Some(Join(root, file))
    else if Exists(disk, Join(Join(root, "source"), file)) then Some(Join(Join(root, "source"), file))
    else None
  }

  /** The manifest to install from, when the analysis flagged its kind. */
  function Wanted(flag: bool, root: string, file: string, disk: Disk): Option<string>
  {
    if flag then PickManifest(root, file, disk) else None
  }

  /** What an install step ran, and the manifest it records on success. */
  datatype Step = Step(cmds: seq<seq<string>>, recorded: Option<string>)

  /** Run one install command; the manifest is recorded when it exits 0. */
  function Install(cmd: seq<string>, manifest: string, exec: seq<string> -> Proc): (s: Step)
    ensures s.cmds == [cmd]
    ensures s.recorded.Some? <==> RunCommand(exec(cmd)).code == 0
    ensures s.recorded.Some? ==> s.recorded.value == manifest
  {
    if RunCommand(exec(cmd)).code == 0 then Step([cmd], Some(manifest)) else Step([cmd], None)
  }

  /** `pip install -r` of the requirements file, if one is wanted. */
  function Requirements(pip: seq<string>, manifest: Option<string>, exec: seq<string> -> Proc): Step
  {
    if manifest.None? then Step([], None) else Install(pip + ["-r", manifest.value], manifest.value, exec)
  }

  /** One `pip install dep` per declared dependency. */
  function DependencyInstalls(pip: seq<string>, deps: seq<string>): (r: seq<seq<string>>)
    ensures |r| == |deps|
  {
    if deps == [] then [] else DependencyInstalls(pip, deps[..|deps| - 1]) + [pip + [deps[|deps| - 1]]]
  }

  /**
   * The pyproject step in a conda environment: an editable install of the
   * manifest's directory and, when that fails, one install per dependency
   * the manifest declares (nothing is recorded then).
   */
  function CondaPyproject(pip: seq<string>, manifest: Option<string>, h: Host, exec: seq<string> -> Proc): Step
  {
    if manifest.None? then Step([], None)
    else
      var s := Install(pip + ["-e", DirName(manifest.value)], manifest.value, exec);
      if s.recorded.Some? then s else Step(s.cmds + DependencyInstalls(pip, h.tomlDeps(manifest.value)), None)
  }

  /** The pyproject step in a virtualenv: "-e" and the directory travel as a single argument. */
  function VenvPyproject(pip: seq<string>, manifest: Option<string>, exec: seq<string> -> Proc): Step
  {
    if manifest.None? then Step([], None) else Install(pip + ["-e " + DirName(manifest.value)], manifest.value, exec)
  }

  /** `env_info["files"][key] = manifest` after a successful step. */
  function Record(files: map<string, string>, key: string, s: Step): map<string, string>
  {
    if s.recorded.Some? then files[key := s.recorded.value] else files
  }

  /** The pyproject and requirements manifests a run recorded. */
  function Installed(py: Step, rq: Step): map<string, string>
  {
    Record(Record(map[], "pyproject_toml", py), "requirements_txt", rq)
  }

  /** The two places a conda environment file may be. */
  function YmlPaths(root: string): seq<string>
  {
    [Join(root, "environment.yml"), Join(Join(root, "source"), "environment.yml")]
  }

  /** What provisioning left behind: the environment, if any, and the commands it ran. */
  datatype Provisioned = Provisioned(env: Option<Environment>, cmds: seq<seq<string>>)

  /** The recorded files are existing manifests under the three known keys. */
  predicate RecordsManifests(files: map<string, string>, disk: Disk)
  {
    forall k :: k in files ==> k in {"environment_yml", "pyproject_toml", "requirements_txt"} && Exists(disk, files[k])
  }

  lemma InstalledManifests(py: Step, rq: Step, disk: Disk)
    requires py.recorded.Some? ==> Exists(disk, py.recorded.value)
    requires rq.recorded.Some? ==> Exists(disk, rq.recorded.value)
    ensures RecordsManifests(Installed(py, rq), disk)
  {
  }

  // ---------------------------------------------------------------------
  // `_create_conda_env`

  function YmlCreate(conda: string, name: string, yml: string): seq<string>
  {
    [conda, "env", "create", "-n", name, "-f", yml]
  }

  function BaseCreate(conda: string, name: string): seq<string>
  {
    [conda, "create", "-n", name, "python=3.10", "--yes"]
  }

  function CondaEnvironment(name: string, files: map<string, string>): Environment
  {
    Environment(Conda, name, None, files, "3.10", [])
  }

  /** `pip install` and `python` inside the named conda environment. */
  function CondaPip(conda: string, name: string): seq<string>
  {
    [conda, "run", "-n", name, "pip", "install"]
  }

  function CondaPython(conda: string, name: string): seq<string>
  {
    [conda, "run", "-n", name, "python"]
  }

  /**
   * The installs into a freshly created base environment, given the wanted
   * pyproject and requirements manifests and the environment files to read.
   */
  function CondaInstalls(conda: string, name: string, pyproject: Option<string>, requirements: Option<string>,
                         ymls: seq<string>, h: Host, exec: seq<string> -> Proc): Provisioned
  {
    var py := CondaPyproject(CondaPip(conda, name), pyproject, h, exec);
    var rq := Requirements(CondaPip(conda, name), requirements, exec);
    Provisioned(Some(CondaEnvironment(name, Installed(py, rq))),
                py.cmds + rq.cmds + PipInstallCommands(CondaPython(conda, name), ymls, h.disk, h.read))
  }

  /**
   * `_create_conda_env(name, root, deps)`: from the environment file when
   * one is flagged and `conda env create` succeeds; otherwise a base
   * environment with Python 3.10 and the installs; `None` without a conda
   * executable or when the base environment cannot be created.
   */
  function CondaCreate(name: string, root: string, deps: DependencyFlags, h: Host, exec: seq<string> -> Proc): Provisioned
  {
    if !CondaReady(h) then Provisioned(None, [])
    else
      CondaCreateFrom(h.condaExe.value, name, Wanted(deps.environmentYml, root, "environment.yml", h.disk),
                      Wanted(deps.pyproject, root, "pyproject.toml", h.disk),
                      Wanted(deps.requirementsTxt, root, "requirements.txt", h.disk), YmlPaths(root), h, exec)
  }

  /** `_create_conda_env` once the conda executable and the wanted manifests are known. */
  function CondaCreateFrom(conda: string, name: string, yml: Option<string>, pyproject: Option<string>,
                           requirements: Option<string>, ymls: seq<string>, h: Host, exec: seq<string> -> Proc): Provisioned
  {
    var fromYml := if yml.Some? then [YmlCreate(conda, name, yml.value)] else [];
    if yml.Some? && RunCommand(exec(YmlCreate(conda, name, yml.value))).code == 0 then
      Provisioned(Some(CondaEnvironment(name, map["environment_yml" := yml.value])), fromYml)
    else if RunCommand(exec(BaseCreate(conda, name))).code != 0 then
      Provisioned(None, fromYml + [BaseCreate(conda, name)])
    else
      var rest := CondaInstalls(conda, name, pyproject, requirements, ymls, h, exec);
      Provisioned(rest.env, fromYml + [BaseCreate(conda, name)] + rest.cmds)
  }

  /**
   * The installs into a fresh conda environment always give an environment
   * of that name, with no interpreter prefix, recording only manifests that
   * exist and never the environment file.
   */
  lemma CondaInstallsEnv(conda: string, name: string, pyproject: Option<string>, requirements: Option<string>,
                         ymls: seq<string>, h: Host, exec: seq<string> -> Proc)
    requires pyproject.Some? ==> Exists(h.disk, pyproject.value)
    requires requirements.Some? ==> Exists(h.disk, requirements.value)
    ensures var p := CondaInstalls(conda, name, pyproject, requirements, ymls, h, exec);
            && p.env.Some? && p.env.value.kind == Conda && p.env.value.name == name && p.env.value.execPrefix == []
            && RecordsManifests(p.env.value.files, h.disk) && "environment_yml" !in p.env.value.files
  {
    var py := CondaPyproject(CondaPip(conda, name), pyproject, h, exec);
    var rq := Requirements(CondaPip(conda, name), requirements, exec);
    InstalledManifests(py, rq, h.disk);
    assert "environment_yml" !in Installed(py, rq);
  }

  /**
   * From known manifests that exist: any environment is a conda environment
   * of the name asked for, with no interpreter prefix, recording only
   * manifests that exist; the environment file is recorded exactly when it
   * is there and `conda env create` succeeds, and then that one command is
   * all that runs and the only file recorded.
   */
  lemma CondaCreateFromOutcome(conda: string, name: string, yml: Option<string>, pyproject: Option<string>,
                               requirements: Option<string>, ymls: seq<string>, h: Host, exec: seq<string> -> Proc)
    requires yml.Some? ==> Exists(h.disk, yml.value)
    requires pyproject.Some? ==> Exists(h.disk, pyproject.value)
    requires requirements.Some? ==> Exists(h.disk, requirements.value)
    ensures var p := CondaCreateFrom(conda, name, yml, pyproject, requirements, ymls, h, exec);
            && (p.env.Some? ==> p.env.value.kind == Conda && p.env.value.name == name && p.env.value.execPrefix == []
                                && RecordsManifests(p.env.value.files, h.disk))
            && (yml.Some? && RunCommand(exec(YmlCreate(conda, name, yml.value))).code == 0
                <==> p.env.Some? && "environment_yml" in p.env.value.files)
            && (p.env.Some? && "environment_yml" in p.env.value.files ==> |p.cmds| == 1 && p.env.value.files.Keys == {"environment_yml"})
  {
    if yml.Some? {
      YmlRecords(yml.value, h.disk);
    }
    CondaInstallsEnv(conda, name, pyproject, requirements, ymls, h, exec);
  }

  /** A manifest that is wanted exists. */
  lemma WantedExists(flag: bool, root: string, file: string, disk: Disk)
    ensures Wanted(flag, root, file, disk).Some? ==> Exists(disk, Wanted(flag, root, file, disk).value)
  {
  }

  /** Recording just an existing environment file records only manifests that exist. */
  lemma YmlRecords(yml: string, disk: Disk)
    requires Exists(disk, yml)
    ensures RecordsManifests(map["environment_yml" := yml], disk)
  {
  }

  /** Every wanted manifest exists, and the conda creation from them has `CondaCreateFromOutcome`'s shape. */
  lemma CondaCreateFacts(name: string, root: string, deps: DependencyFlags, h: Host, exec: seq<string> -> Proc)
    requires CondaReady(h)
    ensures var p := CondaCreate(name, root, deps, h, exec);
            var conda := h.condaExe.value;
            var yml := Wanted(deps.environmentYml, root, "environment.yml", h.disk);
            && (p.env.Some? ==> p.env.value.kind == Conda && p.env.value.name == name && p.env.value.execPrefix == []
                                && RecordsManifests(p.env.value.files, h.disk))
            && (yml.Some? && RunCommand(exec(YmlCreate(conda, name, yml.value))).code == 0
                <==> p.env.Some? && "environment_yml" in p.env.value.files)
            && (p.env.Some? && "environment_yml" in p.env.value.files ==> |p.cmds| == 1 && p.env.value.files.Keys == {"environment_yml"})
  {
    WantedExists(deps.environmentYml, root, "environment.yml", h.disk);
    WantedExists(deps.pyproject, root, "pyproject.toml", h.disk);
    WantedExists(deps.requirementsTxt, root, "requirements.txt", h.disk);
    hide CondaCreateFrom, Wanted, PickManifest, YmlPaths, RecordsManifests;
    CondaCreateFromOutcome(h.condaExe.value, name, Wanted(deps.environmentYml, root, "environment.yml", h.disk),
                           Wanted(deps.pyproject, root, "pyproject.toml", h.disk),
                           Wanted(deps.requirementsTxt, root, "requirements.txt", h.disk), YmlPaths(root), h, exec);
  }

  /**
   * A conda environment needs the conda executable; it carries the name it
   * was asked for, no interpreter prefix, and records only manifests that
   * exist.
   */
  lemma CondaCreateOutcome(name: string, root: string, deps: DependencyFlags, h: Host, exec: seq<string> -> Proc)
    ensures var p := CondaCreate(name, root, deps, h, exec);
            p.env.Some? ==> CondaReady(h) && p.env.value.kind == Conda && p.env.value.name == name
                            && p.env.value.execPrefix == [] && RecordsManifests(p.env.value.files, h.disk)
  {
    if CondaReady(h) {
      CondaCreateFacts(name, root, deps, h, exec);
    }
  }

  /**
   * The environment file wins: it is used exactly when it is flagged, found
   * and `conda env create` succeeds, and then that one command is all that
   * runs and the only file recorded.
   */
  lemma CondaFromEnvironmentFile(name: string, root: string, deps: DependencyFlags, h: Host, exec: seq<string> -> Proc)
    ensures var p := CondaCreate(name, root, deps, h, exec);
            var yml := Wanted(deps.environmentYml, root, "environment.yml", h.disk);
            CondaReady(h) && yml.Some? && RunCommand(exec(YmlCreate(h.condaExe.value, name, yml.value))).code == 0
            <==> p.env.Some? && "environment_yml" in p.env.value.files
    ensures var p := CondaCreate(name, root, deps, h, exec);
            p.env.Some? && "environment_yml" in p.env.value.files ==> |p.cmds| == 1 && p.env.value.files.Keys == {"environment_yml"}
  {
    if CondaReady(h) {
      CondaCreateFacts(name, root, deps, h, exec);
    }
  }

  method CreateCondaEnv(sh: Shell, name: string, root: string, deps: DependencyFlags, h: Host)
    returns (env: Option<Environment>)
    modifies sh
    ensures env == CondaCreate(name, root, deps, h, sh.exec).env
    ensures sh.log == old(sh.log) + CondaCreate(name, root, deps, h, sh.exec).cmds
  {
    if !CondaReady(h) {
      return None;
    }
    hide CondaCreateFrom, Wanted, YmlPaths;
    env := CreateCondaFrom(sh, h.condaExe.value, name, Wanted(deps.environmentYml, root, "environment.yml", h.disk),
                           Wanted(deps.pyproject, root, "pyproject.toml", h.disk),
                           Wanted(deps.requirementsTxt, root, "requirements.txt", h.disk), YmlPaths(root), h);
  }

  /** The body of `_create_conda_env` once the conda executable and the wanted manifests are known. */
  method CreateCondaFrom(sh: Shell, conda: string, name: string, yml: Option<string>, pyproject: Option<string>,
                         requirements: Option<string>, ymls: seq<string>, h: Host)
    returns (env: Option<Environment>)
    modifies sh
    ensures env == CondaCreateFrom(conda, name, yml, pyproject, requirements, ymls, h, sh.exec).env
    ensures sh.log == old(sh.log) + CondaCreateFrom(conda, name, yml, pyproject, requirements, ymls, h, sh.exec).cmds
  {
    if yml.Some? {
      var res := sh.Run(YmlCreate(conda, name, yml.value));
      if res.code == 0 {
        return Some(CondaEnvironment(name, map["environment_yml" := yml.value]));
      }
    }
    var base := sh.Run(BaseCreate(conda, name));
    if base.code != 0 {
      return None;
    }
    ghost var before := sh.log;
    env := InstallIntoConda(sh, conda, name, pyproject, requirements, ymls, h);
    ghost var rest := CondaInstalls(conda, name, pyproject, requirements, ymls, h, sh.exec);
    ghost var fromYml := if yml.Some? then [YmlCreate(conda, name, yml.value)] else [];
    assert before == old(sh.log) + fromYml + [BaseCreate(conda, name)];
    Associate(old(sh.log), fromYml, [BaseCreate(conda, name)], rest.cmds);
  }

  method InstallIntoConda(sh: Shell, conda: string, name: string, pyproject: Option<string>,
                          requirements: Option<string>, ymls: seq<string>, h: Host)
    returns (env: Option<Environment>)
    modifies sh
    ensures env == CondaInstalls(conda, name, pyproject, requirements, ymls, h, sh.exec).env
    ensures sh.log == old(sh.log) + CondaInstalls(conda, name, pyproject, requirements, ymls, h, sh.exec).cmds
  {
    var py := CondaPyprojectStep(sh, CondaPip(conda, name), pyproject, h);
    var rq := RunInstall(sh, CondaPip(conda, name), "-r", requirements);
    InstallPipFromEnvYml(sh, CondaPython(conda, name), ymls, h.disk, h.read);
    Associate(old(sh.log), py.cmds, rq.cmds, PipInstallCommands(CondaPython(conda, name), ymls, h.disk, h.read));
    env := Some(CondaEnvironment(name, Installed(py, rq)));
  }

  method CondaPyprojectStep(sh: Shell, pip: seq<string>, manifest: Option<string>, h: Host) returns (s: Step)
    modifies sh
    ensures s == CondaPyproject(pip, manifest, h, sh.exec)
    ensures sh.log == old(sh.log) + s.cmds
  {
    if manifest.None? {
      return Step([], None);
    }
    s := RunInstall(sh, pip, "-e", manifest);
    if s.recorded.None? {
      var deps := h.tomlDeps(manifest.value);
      InstallEach(sh, pip, deps);
      s := Step(s.cmds + DependencyInstalls(pip, deps), None);
    }
  }

  /** `pip install <flag> <dir or file>` for a wanted manifest: "-e" installs its directory. */
  method RunInstall(sh: Shell, pip: seq<string>, flag: string, manifest: Option<string>) returns (s: Step)
    requires flag == "-e" || flag == "-r"
    modifies sh
    ensures flag == "-r" ==> s == Requirements(pip, manifest, sh.exec)
    ensures flag == "-e" && manifest.Some? ==> s == Install(pip + ["-e", DirName(manifest.value)], manifest.value, sh.exec)
    ensures manifest.None? ==> s == Step([], None)
    ensures sh.log == old(sh.log) + s.cmds
  {
    if manifest.None? {
      return Step([], None);
    }
    var arg := if flag == "-e" then DirName(manifest.value) else manifest.value;
    var res := sh.Run(pip + [flag, arg]);
    s := if res.code == 0 then Step([pip + [flag, arg]], manifest) else Step([pip + [flag, arg]], None);
  }

  method InstallEach(sh: Shell, pip: seq<string>, deps: seq<string>)
    modifies sh
    ensures sh.log == old(sh.log) + DependencyInstalls(pip, deps)
  {
    var i := 0;
    while i < |deps|
      invariant 0 <= i <= |deps|
      invariant sh.log == old(sh.log) + DependencyInstalls(pip, deps[..i])
    {
      assert deps[..i + 1][..i] == deps[..i];
      var _ := sh.Run(pip + [deps[i]]);
      i := i + 1;
    }
    assert deps[..|deps|] == deps;
  }

  // ---------------------------------------------------------------------
  // `_create_venv_env`

  /** `_venv_python_path` on POSIX hosts. */
  function VenvPython(envPath: string): string
  {
    Join(Join(envPath, "bin"), "python")
  }

  function VenvCreateCommand(h: Host, path: string): seq<string>
  {
    [h.python, "-m", "venv", path]
  }

  /**
   * The installs into a virtualenv whose interpreter exists, given the
   * wanted pyproject and requirements manifests and the environment files
   * to read: pip is upgraded first.
   */
  function VenvInstalls(name: string, path: string, pyproject: Option<string>, requirements: Option<string>,
                        ymls: seq<string>, h: Host, exec: seq<string> -> Proc): Provisioned
  {
    var pip := VenvPip(path);
    var pp := VenvPyproject(pip, pyproject, exec);
    var rq := Requirements(pip, requirements, exec);
    Provisioned(Some(Environment(Venv, name, Some(path), Installed(pp, rq), "3.10", [VenvPython(path)])),
                [pip + ["-U", "pip"]] + pp.cmds + rq.cmds + PipInstallCommands([VenvPython(path)], ymls, h.disk, h.read))
  }

  function VenvPip(path: string): seq<string>
  {
    [VenvPython(path), "-m", "pip", "install"]
  }

  /**
   * `_create_venv_env(root, repo, deps)`: reuse the interpreter if it is
   * already there, otherwise run `python -m venv`; `None` when that fails or
   * leaves no interpreter.
   */
  function VenvCreate(root: string, repo: string, deps: DependencyFlags, h: Host, exec: seq<string> -> Proc): Provisioned
  {
    var name := VenvName(repo, h.venvClock);
    var path := Join(root, name);
    var rest := VenvInstalls(name, path, Wanted(deps.pyproject, root, "pyproject.toml", h.disk),
                             Wanted(deps.requirementsTxt, root, "requirements.txt", h.disk), YmlPaths(root), h, exec);
    if VenvPython(path) in h.disk.files then rest
    else if RunCommand(exec(VenvCreateCommand(h, path))).code != 0 || !h.venvBuilt then
      Provisioned(None, [VenvCreateCommand(h, path)])
    else Provisioned(rest.env, [VenvCreateCommand(h, path)] + rest.cmds)
  }

  /**
   * A virtualenv lives in the repository root under the venv name, runs its
   * own interpreter, records only manifests that exist, and upgrades pip
   * before anything else is installed; it is missing only when the
   * interpreter had to be created and was not.
   */
  lemma VenvCreateOutcome(root: string, repo: string, deps: DependencyFlags, h: Host, exec: seq<string> -> Proc)
    ensures var p := VenvCreate(root, repo, deps, h, exec);
            var path := Join(root, VenvName(repo, h.venvClock));
            p.env.Some? ==> && p.env.value.kind == Venv && p.env.value.name == VenvName(repo, h.venvClock)
                            && p.env.value.path == Some(path) && p.env.value.execPrefix == [VenvPython(path)]
                            && RecordsManifests(p.env.value.files, h.disk)
                            && VenvPip(path) + ["-U", "pip"] in p.cmds
    ensures var p := VenvCreate(root, repo, deps, h, exec);
            var path := Join(root, VenvName(repo, h.venvClock));
            p.env.None? <==> VenvPython(path) !in h.disk.files
                             && (RunCommand(exec(VenvCreateCommand(h, path))).code != 0 || !h.venvBuilt)
  {
    var path := Join(root, VenvName(repo, h.venvClock));
    var pip := VenvPip(path);
    var pp := VenvPyproject(pip, Wanted(deps.pyproject, root, "pyproject.toml", h.disk), exec);
    var rq := Requirements(pip, Wanted(deps.requirementsTxt, root, "requirements.txt", h.disk), exec);
    InstalledManifests(pp, rq, h.disk);
    var rest := VenvInstalls(VenvName(repo, h.venvClock), path, Wanted(deps.pyproject, root, "pyproject.toml", h.disk),
                             Wanted(deps.requirementsTxt, root, "requirements.txt", h.disk), YmlPaths(root), h, exec);
    assert rest.cmds[0] == pip + ["-U", "pip"];
    assert ([VenvCreateCommand(h, path)] + rest.cmds)[1] == rest.cmds[0];
  }

  method CreateVenvEnv(sh: Shell, root: string, repo: string, deps: DependencyFlags, h: Host)
    returns (env: Option<Environment>)
    modifies sh
    ensures env == VenvCreate(root, repo, deps, h, sh.exec).env
    ensures sh.log == old(sh.log) + VenvCreate(root, repo, deps, h, sh.exec).cmds
  {
    var name := VenvName(repo, h.venvClock);
    var path := Join(root, name);
    if VenvPython(path) !in h.disk.files {
      var res := sh.Run(VenvCreateCommand(h, path));
      if res.code != 0 || !h.venvBuilt {
        return None;
      }
    }
    ghost var before := sh.log;
    env := InstallIntoVenv(sh, name, path, Wanted(deps.pyproject, root, "pyproject.toml", h.disk),
                           Wanted(deps.requirementsTxt, root, "requirements.txt", h.disk), YmlPaths(root), h);
    ghost var rest := VenvInstalls(name, path, Wanted(deps.pyproject, root, "pyproject.toml", h.disk),
                                   Wanted(deps.requirementsTxt, root, "requirements.txt", h.disk), YmlPaths(root), h, sh.exec);
    if VenvPython(path) !in h.disk.files {
      AssociateThree(old(sh.log), [VenvCreateCommand(h, path)], rest.cmds);
    }
  }

  method InstallIntoVenv(sh: Shell, name: string, path: string, pyproject: Option<string>,
                         requirements: Option<string>, ymls: seq<string>, h: Host)
    returns (env: Option<Environment>)
    modifies sh
    ensures env == VenvInstalls(name, path, pyproject, requirements, ymls, h, sh.exec).env
    ensures sh.log == old(sh.log) + VenvInstalls(name, path, pyproject, requirements, ymls, h, sh.exec).cmds
  {
    var pip := VenvPip(path);
    var _ := sh.Run(pip + ["-U", "pip"]);
    ghost var upgraded := sh.log;
    var pp := VenvPyprojectStep(sh, pip, pyproject);
    var rq := RunInstall(sh, pip, "-r", requirements);
    InstallPipFromEnvYml(sh, [VenvPython(path)], ymls, h.disk, h.read);
    ghost var yml := PipInstallCommands([VenvPython(path)], ymls, h.disk, h.read);
    Associate(upgraded, pp.cmds, rq.cmds, yml);
    AssociateThree(old(sh.log), [pip + ["-U", "pip"]], pp.cmds + rq.cmds + yml);
    Associate([pip + ["-U", "pip"]], pp.cmds, rq.cmds, yml);
    env := Some(Environment(Venv, name, Some(path), Installed(pp, rq), "3.10", [VenvPython(path)]));
  }

  method VenvPyprojectStep(sh: Shell, pip: seq<string>, manifest: Option<string>) returns (s: Step)
    modifies sh
    ensures s == VenvPyproject(pip, manifest, sh.exec)
    ensures sh.log == old(sh.log) + s.cmds
  {
    if manifest.None? {
      return Step([], None);
    }
    var cmd := pip + ["-e " + DirName(manifest.value)];
    var res := sh.Run(cmd);
    s := if res.code == 0 then Step([cmd], manifest) else Step([cmd], None);
  }

  // ---------------------------------------------------------------------
  // Conda first, then a virtualenv

  /** When conda is available: clean up, then try a conda environment. */
  function CondaAttempt(repo: string, root: string, deps: DependencyFlags, h: Host, exec: seq<string> -> Proc): Provisioned
  {
    if !h.condaAvailable then Provisioned(None, [])
    else
      var conda := CondaCreate(EnvName(repo, h.condaClock), root, deps, h, exec);
      Provisioned(conda.env, CleanupCommands(repo, h, exec) + conda.cmds)
  }

  /** The provisioning part of `env_node`: conda first, then a virtualenv. */
  function Provision(repo: string, root: string, deps: DependencyFlags, h: Host, exec: seq<string> -> Proc): Provisioned
  {
    var conda := CondaAttempt(repo, root, deps, h, exec);
    if conda.env.Some? then conda
    else
      var venv := VenvCreate(root, repo, deps, h, exec);
      Provisioned(venv.env, conda.cmds + venv.cmds)
  }

  /**
   * Conda wins when it is available and its environment is created; a
   * virtualenv is tried exactly otherwise; a conda environment implies the
   * conda executable is there.
   */
  lemma ProvisionOrder(repo: string, root: string, deps: DependencyFlags, h: Host, exec: seq<string> -> Proc)
    ensures var p := Provision(repo, root, deps, h, exec);
            var conda := CondaCreate(EnvName(repo, h.condaClock), root, deps, h, exec);
            && (h.condaAvailable && conda.env.Some? ==> p.env == conda.env)
            && (!(h.condaAvailable && conda.env.Some?) ==> p.env == VenvCreate(root, repo, deps, h, exec).env)
            && (p.env.Some? && p.env.value.kind == Conda ==> CondaReady(h) && h.condaAvailable)
            && (p.env.Some? ==> RecordsManifests(p.env.value.files, h.disk))
  {
    CondaCreateOutcome(EnvName(repo, h.condaClock), root, deps, h, exec);
    VenvCreateOutcome(root, repo, deps, h, exec);
  }

  method TryConda(sh: Shell, repo: string, root: string, deps: DependencyFlags, h: Host)
    returns (env: Option<Environment>)
    modifies sh
    ensures env == CondaAttempt(repo, root, deps, h, sh.exec).env
    ensures sh.log == old(sh.log) + CondaAttempt(repo, root, deps, h, sh.exec).cmds
  {
    if !h.condaAvailable {
      return None;
    }
    CleanupOldEnvs(sh, repo, h);
    env := CreateCondaEnv(sh, EnvName(repo, h.condaClock), root, deps, h);
    AssociateThree(old(sh.log), CleanupCommands(repo, h, sh.exec), CondaCreate(EnvName(repo, h.condaClock), root, deps, h, sh.exec).cmds);
  }

  method ProvisionEnv(sh: Shell, repo: string, root: string, deps: DependencyFlags, h: Host)
    returns (env: Option<Environment>)
    modifies sh
    ensures env == Provision(repo, root, deps, h, sh.exec).env
    ensures sh.log == old(sh.log) + Provision(repo, root, deps, h, sh.exec).cmds
  {
    env := TryConda(sh, repo, root, deps, h);
    if env.None? {
      env := CreateVenvEnv(sh, root, repo, deps, h);
      AssociateThree(old(sh.log), CondaAttempt(repo, root, deps, h, sh.exec).cmds, VenvCreate(root, repo, deps, h, sh.exec).cmds);
    }
  }
}
