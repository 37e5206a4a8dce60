/**
 * The generation stage: it prunes the analysis to what the service may be
 * built from, records why a regeneration happens, falls back to a default
 * repository root, writes the service files below `mcp_output` and records
 * the plugin in the state.  The text of the generated files comes from the
 * generation service or fixed templates and is not part of this model; what
 * is modelled is which files are written, which keys the plugin lists and
 * the small decisions that shape the text (project type, import path,
 * requirements).
 */
module GenerateStage {
  import opened Text
  import opened PipelineState
  import opened AnalysisPrune
  import Download

  // ---------------------------------------------------------------------
  // `_analyze_retry_reason`

  /** The reason one earlier error gives: the first of four tests that matches. */
  function ErrorReason(e: ErrorRecord): Option<string>
  {
    if Contains(e.message, "No module named") then Some("Module import failed")
    else if Contains(e.message, "ImportError") then Some("Import error")
    else if Contains(e.message, "SyntaxError") then Some("Syntax error")
    else if e.severity == Some(High) then Some("High severity error: " + e.kind)
    else None
  }

  /** `result.get("error_type", "Unknown")` */
  function ErrorType(r: RunResult): string
  {
    if r.failure.Some? then r.failure.value.errorType else "Unknown"
  }

  /** The reason an earlier run gives: only an unsuccessful one gives any. */
  function RunReason(r: RunResult): Option<string>
  {
    if r.success then None else Some("Execution failed: " + ErrorType(r))
  }

  /** What `f` gives for each element, in order, where it gives anything. */
  function Collected<T>(xs: seq<T>, f: T -> Option<string>): (r: seq<string>)
    ensures |r| <= |xs|
  {
    if xs == [] then [] else Collected(xs[..|xs| - 1], f) + Listed(f(xs[|xs| - 1]))
  }

  /** Nothing is collected from nothing; otherwise the last element's contribution comes last. */
  lemma CollectedLast<T>(xs: seq<T>, f: T -> Option<string>)
    ensures xs == [] ==> Collected(xs, f) == []
    ensures xs != [] ==> Collected(xs, f) == Collected(xs[..|xs| - 1], f) + Listed(f(xs[|xs| - 1]))
  {
  }

  /** A string is collected exactly when `f` gives it for some element. */
  lemma {:induction false} CollectedExactly<T>(xs: seq<T>, f: T -> Option<string>, x: string)
    ensures x in Collected(xs, f) <==> exists i :: 0 <= i < |xs| && f(xs[i]) == Some(x)
    decreases |xs|
  {
    hide Collected;
    CollectedLast(xs, f);
    if xs != [] {
      var n := |xs| - 1;
      CollectedExactly(xs[..n], f, x);
      if exists i :: 0 <= i < n && f(xs[..n][i]) == Some(x) {
        var i :| 0 <= i < n && f(xs[..n][i]) == Some(x);
        assert xs[i] == xs[..n][i];
      }
      if exists i :: 0 <= i < |xs| && f(xs[i]) == Some(x) {
        var i :| 0 <= i < |xs| && f(xs[i]) == Some(x);
        if i < n {
          assert xs[..n][i] == xs[i];
        }
      }
    }
  }

  /** The reasons in the order the code collects them: errors first, then runs. */
  function Reasons(errors: seq<ErrorRecord>, runs: seq<RunResult>): seq<string>
  {
    Collected(errors, ErrorReason) + Collected(runs, RunReason)
  }

  /** `_analyze_retry_reason`: the reasons joined by "; ", or "Unknown error". */
  function RetryReasonText(errors: seq<ErrorRecord>, runs: seq<RunResult>): string
  {
    var reasons := Reasons(errors, runs);
    if reasons == [] then "Unknown error" else JoinWith(reasons, "; ")
  }

  /** The first character of every reason the code can give. */
  predicate ReasonHead(c: char)
  {
    c == 'M' || c == 'I' || c == 'S' || c == 'H' || c == 'E'
  }

  lemma ReasonsStartKnown(errors: seq<ErrorRecord>, runs: seq<RunResult>)
    ensures forall x :: x in Reasons(errors, runs) ==> |x| > 0 && ReasonHead(x[0])
  {
    hide Collected, ErrorReason, RunReason, ReasonHead;
    forall x | x in Reasons(errors, runs)
      ensures |x| > 0 && ReasonHead(x[0])
    {
      if x in Collected(errors, ErrorReason) {
        CollectedExactly(errors, ErrorReason, x);
        var i :| 0 <= i < |errors| && ErrorReason(errors[i]) == Some(x);
        ErrorReasonHead(errors[i]);
      } else {
        CollectedExactly(runs, RunReason, x);
        var i :| 0 <= i < |runs| && RunReason(runs[i]) == Some(x);
        RunReasonHead(runs[i]);
      }
    }
  }

  /** Each reason an earlier error gives starts with a known character. */
  lemma ErrorReasonHead(e: ErrorRecord)
    ensures ErrorReason(e).Some? ==> |ErrorReason(e).value| > 0 && ReasonHead(ErrorReason(e).value[0])
  {
  }

  /** Each reason an earlier run gives starts with a known character. */
  lemma RunReasonHead(r: RunResult)
    ensures RunReason(r).Some? ==> |RunReason(r).value| > 0 && ReasonHead(RunReason(r).value[0])
  {
  }

  /** A join starts with its first part. */
  lemma JoinWithHead(parts: seq<string>, sep: string)
    requires parts != [] && |parts[0]| > 0
    ensures |JoinWith(parts, sep)| > 0 && JoinWith(parts, sep)[0] == parts[0][0]
  {
  }

  /**
   * The text is "Unknown error" exactly when no earlier error matches any
   * test and every earlier run succeeded.
   */
  lemma RetryReasonUnknown(errors: seq<ErrorRecord>, runs: seq<RunResult>)
    ensures RetryReasonText(errors, runs) == "Unknown error" <==>
            (forall i :: 0 <= i < |errors| ==> ErrorReason(errors[i]).None?) &&
            (forall i :: 0 <= i < |runs| ==> runs[i].success)
  {
    var reasons := Reasons(errors, runs);
    if reasons != [] {
      ReasonsStartKnown(errors, runs);
      JoinWithHead(reasons, "; ");
      assert reasons[0] in reasons;
      assert RetryReasonText(errors, runs)[0] != "Unknown error"[0];
      if reasons[0] in Collected(errors, ErrorReason) {
        CollectedExactly(errors, ErrorReason, reasons[0]);
      } else {
        CollectedExactly(runs, RunReason, reasons[0]);
      }
    } else {
      forall i | 0 <= i < |errors|
        ensures ErrorReason(errors[i]).None?
      {
        if ErrorReason(errors[i]).Some? {
          CollectedExactly(errors, ErrorReason, ErrorReason(errors[i]).value);
        }
      }
      forall i | 0 <= i < |runs|
        ensures runs[i].success
      {
        if RunReason(runs[i]).Some? {
          CollectedExactly(runs, RunReason, RunReason(runs[i]).value);
        }
      }
    }
  }

  /** The two loops of `_analyze_retry_reason` and the final join. */
  method AnalyzeRetryReason(errors: seq<ErrorRecord>, runs: seq<RunResult>) returns (reason: string)
    ensures reason == RetryReasonText(errors, runs)
  {
    hide Collected, ErrorReason, RunReason, JoinWith, Listed;
    var reasons: seq<string> := [];
    CollectedLast(errors[..0], ErrorReason);
    for i := 0 to |errors|
      invariant reasons == Collected(errors[..i], ErrorReason)
    {
      CollectedLast(errors[..i + 1], ErrorReason);
      assert errors[..i + 1][..i] == errors[..i];
      var r := ErrorReason(errors[i]);
      if r.Some? {
        reasons := reasons + [r.value];
      }
      assert reasons == Collected(errors[..i], ErrorReason) + Listed(r) by { ListedValue(r); }
    }
    assert errors[..|errors|] == errors;
    CollectedLast(runs[..0], RunReason);
    assert reasons == reasons + [];
    for j := 0 to |runs|
      invariant reasons == Collected(errors, ErrorReason) + Collected(runs[..j], RunReason)
    {
      CollectedLast(runs[..j + 1], RunReason);
      assert runs[..j + 1][..j] == runs[..j];
      AssociateThree(Collected(errors, ErrorReason), Collected(runs[..j], RunReason), Listed(RunReason(runs[j])));
      var r := RunReason(runs[j]);
      ListedValue(r);
      if r.Some? {
        reasons := reasons + [r.value];
      }
    }
    assert runs[..|runs|] == runs;
    reason := if reasons != [] then JoinWith(reasons, "; ") else "Unknown error";
  }

  // ---------------------------------------------------------------------
  // `_detect_project_type`

  /** The package name holds one of the four C/C++ extensions anywhere. */
  predicate CppNamed(pkg: string)
  {
    Contains(pkg, ".cpp") || Contains(pkg, ".hpp") || Contains(pkg, ".c") || Contains(pkg, ".h")
  }

  const BuildFiles: seq<string> := ["CMakeLists.txt", "Makefile", "configure", "build.sh", "Cargo.toml"]

  /**
   * A build file in `workspace/<repository_name>/source`, relative to the
   * working directory; looked for only when the analysis carries a name.
   */
  predicate HasBuildFile(repoName: Option<string>, d: Disk)
  {
    Truthy(repoName) &&
    var dir := "workspace/" + repoName.value + "/source";
    Exists(d, dir) && exists b :: b in BuildFiles && Exists(d, Join(dir, b))
  }

  /**
   * `_detect_project_type` (the `cpp_info` test is left out: the analysis
   * never carries one): "C/C++" when a package is C/C++-named or a build
   * file exists, else "Python" when a package holds ".py", else "Unknown".
   */
  function ProjectType(mods: seq<CoreModule>, repoName: Option<string>, d: Disk): (r: string)
    ensures r == "C/C++" || r == "Python" || r == "Unknown"
    ensures (exists m :: m in mods && CppNamed(m.package)) ==> r == "C/C++"
    ensures r == "Python" ==> exists m :: m in mods && Contains(m.package, ".py")
  {
    if (exists m :: m in mods && CppNamed(m.package)) || HasBuildFile(repoName, d) then "C/C++"
    else if exists m :: m in mods && Contains(m.package, ".py") then "Python"
    else "Unknown"
  }

  /** The module `core` of a package: "pkg.core". */
  const CoreOfPkg: CoreModule := CoreModule("pkg.core", "core", ["run"], [], "", "high")

  /** A package path with a module called `core` makes the project C/C++. */
  lemma DottedPackageCountsAsCpp(d: Disk)
    ensures ProjectType([CoreOfPkg], None, d) == "C/C++"
  {
    assert "pkg.core"[3..5] == ".c";
    assert CppNamed(CoreOfPkg.package);
    assert CoreOfPkg in [CoreOfPkg];
  }

  /** The package name ends with one of the four C/C++ extensions. */
  predicate CppSuffixed(pkg: string)
  {
    EndsWith(pkg, ".cpp") || EndsWith(pkg, ".hpp") || EndsWith(pkg, ".c") || EndsWith(pkg, ".h")
  }

  /** The classification with the extension test made a suffix test. */
  function IntendedProjectType(mods: seq<CoreModule>, repoName: Option<string>, d: Disk): (r: string)
    ensures r == "C/C++" || r == "Python" || r == "Unknown"
  {
    if (exists m :: m in mods && CppSuffixed(m.package)) || HasBuildFile(repoName, d) then "C/C++"
    else if exists m :: m in mods && Contains(m.package, ".py") then "Python"
    else "Unknown"
  }

  /** A suffix occurs in the text. */
  lemma {:induction false} EndsWithContains(s: string, suffix: string)
    requires EndsWith(s, suffix)
    ensures Contains(s, suffix)
    decreases |s|
  {
    if |s| > |suffix| {
      assert s[1..][|s| - 1 - |suffix|..] == s[|s| - |suffix|..];
      EndsWithContains(s[1..], suffix);
    } else {
      assert s == suffix;
    }
  }

  /** The suffix test only narrows the C/C++ verdict. */
  lemma IntendedProjectTypeNarrows(mods: seq<CoreModule>, repoName: Option<string>, d: Disk)
    ensures IntendedProjectType(mods, repoName, d) == "C/C++" ==> ProjectType(mods, repoName, d) == "C/C++"
  {
    if exists m :: m in mods && CppSuffixed(m.package) {
      var m :| m in mods && CppSuffixed(m.package);
      if EndsWith(m.package, ".cpp") { EndsWithContains(m.package, ".cpp"); }
      else if EndsWith(m.package, ".hpp") { EndsWithContains(m.package, ".hpp"); }
      else if EndsWith(m.package, ".c") { EndsWithContains(m.package, ".c"); }
      else { EndsWithContains(m.package, ".h"); }
    }
  }

  /** Under the suffix test a dotted Python package such as "pkg.core" no longer makes a C/C++ project. */
  lemma IntendedDottedPackage(d: Disk)
    ensures IntendedProjectType([CoreOfPkg], None, d) != "C/C++"
  {
    assert !CppSuffixed("pkg.core") by {
      assert "pkg.core"[6..] == "re";
      assert "pkg.core"[5..] == "ore";
      assert "pkg.core"[4..] == "core";
    }
    assert forall m :: m in [CoreOfPkg] ==> m == CoreOfPkg;
  }

  // ---------------------------------------------------------------------
  // The import path of the fallback generators

  /** The package with a leading "source." removed. */
  function SourceStripped(pkg: string): (r: string)
    ensures EndsWith(pkg, r)
  {
    if "source." <= pkg then pkg[7..] else pkg
  }

  /**
   * The module a fallback generator imports from: nothing for a module
   * without a package; otherwise the stripped package, followed by the
   * module name unless that is empty or already ends the package.
   */
  function ImportPath(m: CoreModule): (r: Option<string>)
    ensures r.None? <==> m.package == ""
    ensures r.Some? ==> SourceStripped(m.package) <= r.value && EndsWith(r.value, m.moduleName)
    ensures r.Some? ==> (r.value == SourceStripped(m.package) <==>
                         m.moduleName == "" || EndsWith(SourceStripped(m.package), m.moduleName))
  {
    if m.package == "" then None
    else
      var p := SourceStripped(m.package);
      if m.moduleName != "" && m.moduleName != p && !EndsWith(p, m.moduleName) then
        var q := p + "." + m.moduleName;
        assert q[|q| - |m.moduleName|..] == m.moduleName;
        Some(q)
      else
        assert m.moduleName == "" ==> p[|p|..] == m.moduleName;
        Some(p)
  }

  // ---------------------------------------------------------------------
  // `_generate_requirements_txt`

  /** The two requirements every generated service has. */
  const Fastmcp: string := "fastmcp>=0.1.0"
  const Pydantic: string := "pydantic>=2.0.0"
  const OptionalHeader: string := "# Optional Dependencies"

  /** One line `prefix + dep` per non-empty dependency, in order. */
  function DepLines(deps: seq<string>, prefix: string): string
  {
    if deps == [] then ""
    else DepLines(deps[..|deps| - 1], prefix) + DepLine(deps[|deps| - 1], prefix)
  }

  function DepLine(dep: string, prefix: string): string
  {
    if dep != "" then prefix + dep + "\n" else ""
  }

  /** The optional part: nothing, or a blank line, the header and the commented-out dependencies. */
  function OptionalBlock(optional: seq<string>): string
  {
    if optional != [] then "\n" + OptionalHeader + "\n" + DepLines(optional, "# ") else ""
  }

  /** `requirements.txt` as the stage writes it. */
  function RequirementsText(llm: LlmAnalysis): string
  {
    Fastmcp + "\n" + Pydantic + "\n" + DepLines(llm.required, "") + OptionalBlock(llm.optional)
  }

  /** The loops of `_generate_requirements_txt`. */
  method GenerateRequirementsTxt(llm: LlmAnalysis) returns (content: string)
    ensures content == RequirementsText(llm)
  {
    content := Fastmcp + "\n" + Pydantic + "\n";
    content := AppendDeps(content, llm.required, "");
    var opt := llm.optional;
    if opt != [] {
      var extra := AppendDeps("\n" + OptionalHeader + "\n", opt, "# ");
      content := content + extra;
    }
  }

  /** `for dep in deps: if dep: text += prefix + dep + "\n"` */
  method AppendDeps(text: string, deps: seq<string>, prefix: string) returns (r: string)
    ensures r == text + DepLines(deps, prefix)
  {
    r := text;
    for i := 0 to |deps|
      invariant r == text + DepLines(deps[..i], prefix)
    {
      assert deps[..i + 1][..i] == deps[..i];
      AssociateThree(text, DepLines(deps[..i], prefix), DepLine(deps[i], prefix));
      if deps[i] != "" {
        r := r + (prefix + deps[i] + "\n");
      }
    }
    assert deps[..|deps|] == deps;
  }

  /** The non-empty dependencies, each behind `prefix`. */
  function Prefixed(deps: seq<string>, prefix: string): (r: seq<string>)
  {
    if deps == [] then []
    else Prefixed(deps[..|deps| - 1], prefix) + (if deps[|deps| - 1] != "" then [prefix + deps[|deps| - 1]] else [])
  }

  predicate NoBreaks(s: string)
  {
    forall c :: c in s ==> c !in LineBreaks
  }

  /** Printable ASCII text holds no line boundary. */
  lemma PrintableNoBreaks(s: string)
    requires forall i :: 0 <= i < |s| ==> ' ' <= s[i] <= '~'
    ensures NoBreaks(s)
  {
  }

  lemma FixedLinesPlain()
    ensures NoBreaks(Fastmcp) && NoBreaks(Pydantic) && NoBreaks(OptionalHeader) && NoBreaks("# ") && NoBreaks("")
  {
    HeaderPlain();
    PrintableNoBreaks(Fastmcp);
    PrintableNoBreaks(Pydantic);
    PrintableNoBreaks("# ");
  }

  lemma HeaderPlain()
    ensures NoBreaks(OptionalHeader)
  {
    PrintableNoBreaks(OptionalHeader);
  }

  /** Splitting the dependency lines off the front of a text gives them back one by one. */
  lemma {:induction false} DepLinesSplit(deps: seq<string>, prefix: string, rest: string)
    requires NoBreaks(prefix) && forall d :: d in deps ==> NoBreaks(d)
    ensures SplitLines(DepLines(deps, prefix) + rest) == Prefixed(deps, prefix) + SplitLines(rest)
    decreases |deps|
  {
    hide DepLines, Prefixed, SplitLines;
    DepLinesUnfold(deps, prefix);
    if deps != [] {
      var n := |deps| - 1;
      var last := deps[n];
      var tailText := DepLine(last, prefix) + rest;
      AssociateThree(DepLines(deps[..n], prefix), DepLine(last, prefix), rest);
      assert last in deps;
      assert forall d :: d in deps[..n] ==> d in deps;
      DepLinesSplit(deps[..n], prefix, tailText);
      if last != "" {
        assert tailText == (prefix + last) + "\n" + rest;
        assert NoBreaks(prefix + last);
        SplitLinesFirst(prefix + last, rest);
        AssociateThree(Prefixed(deps[..n], prefix), [prefix + last], SplitLines(rest));
      } else {
        assert tailText == rest;
      }
    } else {
      assert "" + rest == rest;
    }
  }

  /** The lines of no dependencies, and of some: those of all but the last, then the last's. */
  lemma DepLinesUnfold(deps: seq<string>, prefix: string)
    ensures deps == [] ==> DepLines(deps, prefix) == "" && Prefixed(deps, prefix) == []
    ensures deps != [] ==>
              var last := deps[|deps| - 1];
              && DepLines(deps, prefix) == DepLines(deps[..|deps| - 1], prefix) + DepLine(last, prefix)
              && Prefixed(deps, prefix) == Prefixed(deps[..|deps| - 1], prefix) + (if last != "" then [prefix + last] else [])
  {
  }

  /** Two plain lines ahead of a text come back first. */
  lemma TwoLines(a: string, b: string, rest: string)
    requires NoBreaks(a) && NoBreaks(b)
    ensures SplitLines(a + "\n" + b + "\n" + rest) == [a, b] + SplitLines(rest)
  {
    hide SplitLines;
    Associate(a + "\n", b, "\n", rest);
    SplitLinesFirst(b, rest);
    SplitLinesFirst(a, b + "\n" + rest);
  }

  /** The optional block is empty without optional dependencies, else a blank line, the header and their lines. */
  lemma OptionalBlockShape(optional: seq<string>)
    ensures optional == [] ==> OptionalBlock(optional) == ""
    ensures optional != [] ==> OptionalBlock(optional) == "" + "\n" + OptionalHeader + "\n" + DepLines(optional, "# ")
  {
    hide DepLines;
    assert "" + "\n" + OptionalHeader == "\n" + OptionalHeader;
  }

  lemma OptionalBlockLines(optional: seq<string>)
    requires forall d :: d in optional ==> NoBreaks(d)
    ensures SplitLines(OptionalBlock(optional))
            == if optional != [] then ["", OptionalHeader] + Prefixed(optional, "# ") else []
  {
    hide OptionalBlock;
    OptionalBlockShape(optional);
    if optional != [] {
      var deps := DepLines(optional, "# ");
      assert deps + "" == deps;
      FixedLinesPlain();
      DepLinesSplit(optional, "# ", "");
      TwoLines("", OptionalHeader, deps);
    }
  }

  /**
   * Read back line by line, the file lists the two fixed requirements, each
   * non-empty required dependency, and then, when optional ones are given, a
   * blank line, the header and each non-empty one commented out.
   */
  lemma RequirementsLines(llm: LlmAnalysis)
    requires forall d :: d in llm.required ==> NoBreaks(d)
    requires forall d :: d in llm.optional ==> NoBreaks(d)
    ensures SplitLines(RequirementsText(llm))
            == [Fastmcp, Pydantic] + Prefixed(llm.required, "")
               + (if llm.optional != [] then ["", OptionalHeader] + Prefixed(llm.optional, "# ") else [])
  {
    var tail := OptionalBlock(llm.optional);
    var body := DepLines(llm.required, "") + tail;
    assert RequirementsText(llm) == Fastmcp + "\n" + Pydantic + "\n" + body;
    FixedLinesPlain();
    OptionalBlockLines(llm.optional);
    DepLinesSplit(llm.required, "", tail);
    TwoLines(Fastmcp, Pydantic, body);
  }

  // ---------------------------------------------------------------------
  // Endpoints

  function LowerAll(names: seq<string>): (r: seq<string>)
    ensures |r| == |names| && forall i :: 0 <= i < |names| ==> r[i] == Lower(names[i])
  {
    if names == [] then [] else LowerAll(names[..|names| - 1]) + [Lower(names[|names| - 1])]
  }

  /** The endpoints one module contributes: its functions, then its classes lower-cased. */
  function ModuleEndpoints(m: CoreModule): seq<string>
  {
    m.functions + LowerAll(m.classes)
  }

  /** `endpoints`, module by module. */
  function Endpoints(mods: seq<CoreModule>): seq<string>
  {
    if mods == [] then [] else Endpoints(mods[..|mods| - 1]) + ModuleEndpoints(mods[|mods| - 1])
  }

  /** An endpoint is a function of some module or the lower-cased name of one of its classes. */
  predicate EndpointOf(x: string, m: CoreModule)
  {
    x in m.functions || exists c :: c in m.classes && x == Lower(c)
  }

  lemma ModuleEndpointsExactly(m: CoreModule, x: string)
    ensures x in ModuleEndpoints(m) <==> EndpointOf(x, m)
  {
    var lc := LowerAll(m.classes);
    if x in lc {
      var i :| 0 <= i < |lc| && lc[i] == x;
      assert m.classes[i] in m.classes;
    }
    if exists c :: c in m.classes && x == Lower(c) {
      var c :| c in m.classes && x == Lower(c);
      var i :| 0 <= i < |m.classes| && m.classes[i] == c;
      assert lc[i] == x;
    }
  }

  /** The endpoints are exactly the functions and lower-cased classes of the modules. */
  lemma {:induction false} EndpointsExactly(mods: seq<CoreModule>, x: string)
    ensures x in Endpoints(mods) <==> exists m :: m in mods && EndpointOf(x, m)
    decreases |mods|
  {
    if mods != [] {
      var n := |mods| - 1;
      EndpointsExactly(mods[..n], x);
      ModuleEndpointsExactly(mods[n], x);
      assert forall m :: m in mods <==> m in mods[..n] || m == mods[n] by {
        assert mods == mods[..n] + [mods[n]];
      }
    }
  }

  /** Every endpoint of the modules is counted once per module that lists it. */
  lemma {:induction false} EndpointsCount(mods: seq<CoreModule>)
    ensures |Endpoints(mods)| == TotalSize(mods)
    decreases |mods|
  {
    if mods != [] {
      EndpointsCount(mods[..|mods| - 1]);
    }
  }

  /** The names the modules list, functions and classes together. */
  function TotalSize(mods: seq<CoreModule>): nat
  {
    if mods == [] then 0 else TotalSize(mods[..|mods| - 1]) + Size(mods[|mods| - 1])
  }

  // ---------------------------------------------------------------------
  // The stage

  /** `state.get("analysis", {}).get("llm_analysis", {})` */
  function LlmOf(a: Option<Analysis>): LlmAnalysis
  {
    if a.Some? then a.value.llm else LlmAnalysis([], [], None, [], [], None)
  }

  /** `import_strategy.get("primary", "import")` */
  function AdapterMode(llm: LlmAnalysis): string
  {
    if llm.importStrategy.Some? then llm.importStrategy.value.primary else "import"
  }

  const DefaultRootRecord: ErrorRecord :=
    ErrorRecord("GenerateNode", "InvalidInput", None, "repo_root path missing, attempting to use default path", Continue)

  /** The root the stage works in: the recorded one, or `workspace/<name>` when that is empty. */
  function WorkingRoot(s: State, root0: string): string
  {
    if root0 != "" then root0 else Join("workspace", NameOrUnknown(s.repository))
  }

  /**
   * The state before any file is written: a retry reason when this is a
   * regeneration, and the default root (with its record) when the recorded
   * one is empty.
   */
  function Prepared(s: State, root0: string): (t: State)
    requires RepoRoot(s.repository) == Some(root0)
    ensures RepoRoot(t.repository) == Some(WorkingRoot(s, root0))
  {
    var s1 := if s.generationRetryCount > 0
              then s.(retryReasons := s.retryReasons + [RetryReason(s.generationRetryCount, RetryReasonText(s.errors, s.previousRunResults))])
              else s;
    if root0 != "" then s1
    else
      s1.(errors := s1.errors + [DefaultRootRecord],
          repository := s.repository.(paths := Some(s.repository.paths.value.(repoRoot := WorkingRoot(s, root0)))))
  }

  /** The paths the stage writes below its root. */
  datatype Paths = Paths(sourceInit: string, srcInit: string, out: string, plugin: string, tests: string,
                         start: string, pluginInit: string, service: string, adapter: string, main: string,
                         requirements: string, readme: string, testBasic: string)

  function PathsOf(root: string): Paths
  {
    var source := Join(root, "source");
    var out := Join(root, "mcp_output");
    var plugin := Join(out, "mcp_plugin");
    var tests := Join(out, "tests_mcp");
    Paths(Join(source, "__init__.py"), Join(Join(source, "src"), "__init__.py"), out, plugin, tests,
          Join(out, "start_mcp.py"), Join(plugin, "__init__.py"), Join(plugin, "mcp_service.py"),
          Join(plugin, "adapter.py"), Join(plugin, "main.py"), Join(out, "requirements.txt"),
          Join(out, "README_MCP.md"), Join(tests, "test_mcp_basic.py"))
  }

  /** A package that makes `source/src` need an `__init__.py`. */
  predicate MentionsSrc(pkg: string)
  {
    pkg != "" && Contains(pkg, "src.")
  }

  predicate NeedsSrcInit(mods: seq<CoreModule>)
  {
    exists m :: m in mods && MentionsSrc(m.package)
  }

  /** `write_file` unless the path exists already. */
  function WithMissingFile(d: Disk, path: string): (r: Disk)
    ensures d.files <= r.files && d.dirs <= r.dirs
    ensures path in r.files || path in d.dirs
  {
    if Exists(d, path) then d else WithFile(d, path)
  }

  /** The package markers written below `source`, each only when missing. */
  function SourceInits(d: Disk, p: Paths, mods: seq<CoreModule>): Disk
  {
    var d1 := WithMissingFile(d, p.sourceInit);
    if NeedsSrcInit(mods) then WithMissingFile(d1, p.srcInit) else d1
  }

  /** The three output directories. */
  function OutputDirs(d: Disk, p: Paths): Disk
  {
    Disk(d.dirs + {p.out, p.plugin, p.tests}, d.files)
  }

  /** The five files always written before `requirements.txt`. */
  function ServiceFiles(d: Disk, p: Paths): Disk
  {
    WithFile(WithFile(WithFile(WithFile(WithFile(d, p.start), p.pluginInit), p.service), p.adapter), p.main)
  }

  /** The disk once the stage has written everything up to `requirements.txt`. */
  function BeforeRequirements(d: Disk, p: Paths, mods: seq<CoreModule>): Disk
  {
    ServiceFiles(SourceInits(OutputDirs(d, p), p, mods), p)
  }

  /** The disk the stage leaves. */
  function FinalDisk(d: Disk, p: Paths, mods: seq<CoreModule>): Disk
  {
    WithFile(WithFile(WithMissingFile(BeforeRequirements(d, p, mods), p.requirements), p.readme), p.testBasic)
  }

  /** `files`: what the stage wrote, by path below the root; `requirements.txt` only when it wrote it. */
  function PluginFiles(p: Paths, requirements: bool): map<string, string>
  {
    var always := map["mcp_output/start_mcp.py" := p.start,
                      "mcp_output/mcp_plugin/__init__.py" := p.pluginInit,
                      "mcp_output/mcp_plugin/mcp_service.py" := p.service,
                      "mcp_output/mcp_plugin/adapter.py" := p.adapter,
                      "mcp_output/mcp_plugin/main.py" := p.main,
                      "mcp_output/README_MCP.md" := p.readme,
                      "mcp_output/tests_mcp/test_mcp_basic.py" := p.testBasic];
    if requirements then always["mcp_output/requirements.txt" := p.requirements] else always
  }

  /** The plugin record the stage stores. */
  function PluginRecord(p: Paths, mode: string, mods: seq<CoreModule>, requirements: bool): Plugin
  {
    Plugin(PluginFiles(p, requirements), mode, Endpoints(mods), p.plugin, p.tests,
           "start_mcp.py", p.readme, [Fastmcp, Pydantic])
  }

  /** `analysis["repository_name"] = repo.get("name", "unknown")`, lost when there is no analysis. */
  function NamedAnalysis(s: State): Option<Analysis>
  {
    if s.analysis.Some? then Some(s.analysis.value.(repositoryName := Some(NameOrUnknown(s.repository)))) else None
  }

  /** The state the stage returns, given the plugin's paths, adapter mode and whether it wrote `requirements.txt`. */
  function GeneratedState(s: State, root0: string, p: Paths, mode: string, requirements: bool): State
    requires RepoRoot(s.repository) == Some(root0)
  {
    Prepared(s, root0).(plugin := Some(PluginRecord(p, mode, LlmOf(s.analysis).coreModules, requirements)),
                        analysis := NamedAnalysis(s), status := Running)
  }

  /** What a completed stage leaves: the new state and the disk. */
  datatype Generated = Generated(state: State, disk: Disk)

  /**
   * `generate_node`, given the disk it starts on and the parser of the
   * package files.  Without any recorded root the pruning step raises
   * (`None`).
   */
  function GenerateStage(s: State, d: Disk, parse: string -> Option<TopLevel>): (r: Option<Generated>)
    ensures r.None? <==> RepoRoot(s.repository).None?
  {
    match RepoRoot(s.repository)
    case None => None
    case Some(root0) =>
      var llm := LlmOf(s.analysis);
      var mode := AdapterMode(PruneAnalysis(llm, root0, AnalysisPrune.Host(d, parse)));
      var p := PathsOf(WorkingRoot(s, root0));
      var requirements := !Exists(BeforeRequirements(d, p, llm.coreModules), p.requirements);
      Some(Generated(GeneratedState(s, root0, p, mode, requirements), FinalDisk(d, p, llm.coreModules)))
  }

  // ---------------------------------------------------------------------
  // What the stage promises

  /**
   * The state a completed stage returns is marked "running", keeps the
   * workflow status, and differs only in the repository root, the records,
   * the retry reasons, the plugin and the analysis' repository name.
   */
  lemma GeneratedStateOutcome(s: State, root0: string, p: Paths, mode: string, requirements: bool)
    requires RepoRoot(s.repository) == Some(root0)
    ensures var t := GeneratedState(s, root0, p, mode, requirements);
            && t.status == Running && t.workflowStatus == s.workflowStatus
            && t.plugin.Some? && t.analysis.Some? == s.analysis.Some?
            && t == s.(repository := t.repository, errors := t.errors, retryReasons := t.retryReasons,
                       plugin := t.plugin, analysis := t.analysis, status := Running)
            && t.repository.url == s.repository.url && t.repository.name == s.repository.name
            && RepoRoot(t.repository) == Some(WorkingRoot(s, root0))
            && t.errors == s.errors + (if root0 == "" then [DefaultRootRecord] else [])
            && t.retryReasons == s.retryReasons +
                 (if s.generationRetryCount > 0
                  then [RetryReason(s.generationRetryCount, RetryReasonText(s.errors, s.previousRunResults))] else [])
  {
    PreparedOutcome(s, root0);
    hide Prepared, RetryReasonText, WorkingRoot, PluginRecord;
  }

  /** Preparing changes only the repository root, the records and the retry reasons. */
  lemma PreparedOutcome(s: State, root0: string)
    requires RepoRoot(s.repository) == Some(root0)
    ensures var t := Prepared(s, root0);
            && t == s.(repository := t.repository, errors := t.errors, retryReasons := t.retryReasons)
            && t.repository.url == s.repository.url && t.repository.name == s.repository.name
            && t.errors == s.errors + (if root0 == "" then [DefaultRootRecord] else [])
            && t.retryReasons == s.retryReasons +
                 (if s.generationRetryCount > 0
                  then [RetryReason(s.generationRetryCount, RetryReasonText(s.errors, s.previousRunResults))] else [])
  {
    hide RetryReasonText, WorkingRoot;
  }

  lemma GenerateOutcome(s: State, d: Disk, parse: string -> Option<TopLevel>)
    requires RepoRoot(s.repository).Some?
    ensures var t := GenerateStage(s, d, parse).value.state;
            var root0 := RepoRoot(s.repository).value;
            && t.status == Running && t.workflowStatus == s.workflowStatus
            && t.plugin.Some? && t.analysis.Some? == s.analysis.Some?
            && t == s.(repository := t.repository, errors := t.errors, retryReasons := t.retryReasons,
                       plugin := t.plugin, analysis := t.analysis, status := Running)
            && t.repository.url == s.repository.url && t.repository.name == s.repository.name
            && RepoRoot(t.repository) == Some(WorkingRoot(s, root0))
            && t.errors == s.errors + (if root0 == "" then [DefaultRootRecord] else [])
            && t.retryReasons == s.retryReasons +
                 (if s.generationRetryCount > 0
                  then [RetryReason(s.generationRetryCount, RetryReasonText(s.errors, s.previousRunResults))] else [])
  {
    var root0 := RepoRoot(s.repository).value;
    var llm := LlmOf(s.analysis);
    var d0 := d;
    var mode := AdapterMode(PruneAnalysis(llm, root0, AnalysisPrune.Host(d, parse)));
    var p := PathsOf(WorkingRoot(s, root0));
    var requirements := !Exists(BeforeRequirements(d, p, llm.coreModules), p.requirements);
    assert GenerateStage(s, d, parse).value.state == GeneratedState(s, root0, p, mode, requirements);
    GeneratedStateOutcome(s, root0, p, mode, requirements);
  }

  /** Every file the plugin lists is on the disk the stage leaves. */
  lemma PluginFilesWritten(d: Disk, p: Paths, mods: seq<CoreModule>, requirements: bool)
    requires requirements == !Exists(BeforeRequirements(d, p, mods), p.requirements)
    ensures forall k :: k in PluginFiles(p, requirements) ==> PluginFiles(p, requirements)[k] in FinalDisk(d, p, mods).files
  {
    var d1 := BeforeRequirements(d, p, mods);
    assert {p.start, p.pluginInit, p.service, p.adapter, p.main} <= d1.files;
    var d2 := WithMissingFile(d1, p.requirements);
    assert d1.files <= d2.files && d2.files <= FinalDisk(d, p, mods).files;
  }

  /** The plugin lists seven files, and `requirements.txt` as an eighth exactly when it was written. */
  lemma PluginFilesKeys(p: Paths, requirements: bool)
    ensures ("mcp_output/requirements.txt" in PluginFiles(p, requirements)) == requirements
    ensures |PluginFiles(p, requirements).Keys| == if requirements then 8 else 7
    ensures PluginFiles(p, requirements)["mcp_output/start_mcp.py"] == p.start
  {
    AlwaysKeys(p);
  }

  lemma AlwaysKeys(p: Paths)
    ensures "mcp_output/requirements.txt" !in PluginFiles(p, false)
    ensures |PluginFiles(p, false).Keys| == 7
  {
    var keys := {"mcp_output/start_mcp.py", "mcp_output/mcp_plugin/__init__.py", "mcp_output/mcp_plugin/mcp_service.py",
                 "mcp_output/mcp_plugin/adapter.py", "mcp_output/mcp_plugin/main.py", "mcp_output/README_MCP.md",
                 "mcp_output/tests_mcp/test_mcp_basic.py"};
    assert PluginFiles(p, false).Keys == keys;
  }

  /**
   * The service's start script is recorded at `<root>/mcp_output/start_mcp.py`
   * for the root the stage worked in, and exists on the disk it leaves;
   * `requirements.txt` is recorded exactly when the stage wrote it.
   */
  lemma GenerateWritesPlugin(s: State, d: Disk, parse: string -> Option<TopLevel>)
    requires RepoRoot(s.repository).Some?
    ensures var g := GenerateStage(s, d, parse).value;
            var root := WorkingRoot(s, RepoRoot(s.repository).value);
            var p := PathsOf(root);
            var files := g.state.plugin.value.files;
            && RepoRoot(g.state.repository) == Some(root)
            && files["mcp_output/start_mcp.py"] == Join(Join(root, "mcp_output"), "start_mcp.py")
            && (forall k :: k in files ==> files[k] in g.disk.files)
            && ("mcp_output/requirements.txt" in files <==>
                  !Exists(BeforeRequirements(d, p, LlmOf(s.analysis).coreModules), p.requirements))
            && |files.Keys| == (if "mcp_output/requirements.txt" in files then 8 else 7)
  {
    var root0 := RepoRoot(s.repository).value;
    var llm := LlmOf(s.analysis);
    var mode := AdapterMode(PruneAnalysis(llm, root0, AnalysisPrune.Host(d, parse)));
    var p := PathsOf(WorkingRoot(s, root0));
    var requirements := !Exists(BeforeRequirements(d, p, llm.coreModules), p.requirements);
    assert GenerateStage(s, d, parse).value
           == Generated(GeneratedState(s, root0, p, mode, requirements), FinalDisk(d, p, llm.coreModules));
    GeneratedStateOutcome(s, root0, p, mode, requirements);
    PluginFilesKeys(p, requirements);
    PluginFilesWritten(d, p, llm.coreModules, requirements);
  }

  /**
   * The adapter mode is the unpruned analysis' primary strategy, "import"
   * when there is none, and the endpoints are exactly the functions and
   * lower-cased classes of the unpruned modules.
   */
  lemma GeneratePluginContents(s: State, d: Disk, parse: string -> Option<TopLevel>, x: string)
    requires RepoRoot(s.repository).Some?
    ensures var p := GenerateStage(s, d, parse).value.state.plugin.value;
            var llm := LlmOf(s.analysis);
            && p.adapterMode == (if llm.importStrategy.Some? then llm.importStrategy.value.primary else "import")
            && (x in p.endpoints <==> exists m :: m in llm.coreModules && EndpointOf(x, m))
            && |p.endpoints| == TotalSize(llm.coreModules)
            && p.requirements == [Fastmcp, Pydantic] && p.mainEntry == "start_mcp.py"
  {
    var llm := LlmOf(s.analysis);
    EndpointsExactly(llm.coreModules, x);
    EndpointsCount(llm.coreModules);
  }

  // ---------------------------------------------------------------------
  // The stage as the code runs it

  /** The two package markers below `source`, each written only when missing. */
  method WriteSourceInits(ws: Download.Workspace, p: Paths, mods: seq<CoreModule>)
    modifies ws
    ensures ws.Current() == SourceInits(old(ws.Current()), p, mods)
  {
    if !Exists(ws.Current(), p.sourceInit) {
      ws.WriteFile(p.sourceInit);
    }
    ghost var d1 := ws.Current();
    var i := 0;
    while i < |mods|
      invariant 0 <= i <= |mods|
      invariant forall j :: 0 <= j < i ==> !MentionsSrc(mods[j].package)
      invariant ws.Current() == d1
    {
      if MentionsSrc(mods[i].package) {
        if !Exists(ws.Current(), p.srcInit) {
          ws.WriteFile(p.srcInit);
        }
        assert mods[i] in mods;
        return;
      }
      i := i + 1;
    }
  }

  /** The directories and the five files written before `requirements.txt`. */
  method WriteService(ws: Download.Workspace, p: Paths, mods: seq<CoreModule>)
    modifies ws
    ensures ws.Current() == BeforeRequirements(old(ws.Current()), p, mods)
  {
    ws.MakeDirs(p.out);
    ws.MakeDirs(p.plugin);
    ws.MakeDirs(p.tests);
    assert ws.Current() == OutputDirs(old(ws.Current()), p);
    WriteSourceInits(ws, p, mods);
    ws.WriteFile(p.start);
    ws.WriteFile(p.pluginInit);
    ws.WriteFile(p.service);
    ws.WriteFile(p.adapter);
    ws.WriteFile(p.main);
  }

  /** The endpoint loop. */
  method CollectEndpoints(mods: seq<CoreModule>) returns (endpoints: seq<string>)
    ensures endpoints == Endpoints(mods)
  {
    endpoints := [];
    for i := 0 to |mods|
      invariant endpoints == Endpoints(mods[..i])
    {
      assert mods[..i + 1][..i] == mods[..i];
      endpoints := endpoints + mods[i].functions + LowerAll(mods[i].classes);
    }
    assert mods[..|mods|] == mods;
  }

  /** The updates ahead of the writes: the retry reason and the default root. */
  method PrepareState(s: State, root0: string) returns (t: State)
    requires RepoRoot(s.repository) == Some(root0)
    ensures t == Prepared(s, root0)
  {
    t := s;
    if s.generationRetryCount > 0 {
      var reason := AnalyzeRetryReason(s.errors, s.previousRunResults);
      t := t.(retryReasons := t.retryReasons + [RetryReason(s.generationRetryCount, reason)]);
    }
    if root0 == "" {
      var root := Join("workspace", NameOrUnknown(s.repository));
      t := t.(errors := t.errors + [DefaultRootRecord],
              repository := t.repository.(paths := Some(t.repository.paths.value.(repoRoot := root))));
    }
  }

  /** `generate_node`: the state it returns and the disk it leaves; `None` when it raises. */
  method GenerateNode(s: State, parse: string -> Option<TopLevel>, ws: Download.Workspace) returns (t: Option<State>)
    modifies ws
    ensures t.None? <==> RepoRoot(s.repository).None?
    ensures t.Some? ==> Generated(t.value, ws.Current()) == GenerateStage(s, old(ws.Current()), parse).value
    ensures t.None? ==> ws.Current() == old(ws.Current())
  {
    if RepoRoot(s.repository).None? {
      return None;
    }
    var root0 := RepoRoot(s.repository).value;
    var llm := LlmOf(s.analysis);
    var pruned := PruneForGeneration(llm, root0, AnalysisPrune.Host(ws.Current(), parse));
    var prepared := PrepareState(s, root0);
    var p := PathsOf(RepoRoot(prepared.repository).value);
    var mods := llm.coreModules;
    WriteService(ws, p, mods);
    var requirements := !Exists(ws.Current(), p.requirements);
    if requirements {
      ws.WriteFile(p.requirements);
    }
    ws.WriteFile(p.readme);
    ws.WriteFile(p.testBasic);
    var endpoints := CollectEndpoints(mods);
    var plugin := Plugin(PluginFiles(p, requirements), AdapterMode(pruned), endpoints, p.plugin, p.tests,
                         "start_mcp.py", p.readme, [Fastmcp, Pydantic]);
    t := Some(prepared.(plugin := Some(plugin), analysis := NamedAnalysis(s), status := Running));
  }
}
