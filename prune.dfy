/**
 * `_prune_analysis_for_generation`: before the service and adapter are
 * generated, the analysis' core modules are cut down to names that really
 * are public top-level definitions of the module's file, a few per module
 * (by the module's import confidence) and at most `MaxTotal` overall.
 */
module AnalysisPrune {
  import opened Text
  import opened PipelineState

  /** The global budget of kept names (the `max_total` default). */
  const MaxTotal: int := 12

  /** The names `ast` lists at the top level of a file: function and class definitions. */
  datatype TopLevel = TopLevel(functions: set<string>, classes: set<string>)

  /**
   * What the stage sees of the repository: which files exist, and the
   * top-level definitions of a file, or `None` when reading or parsing it
   * raised.
   */
  datatype Host = Host(disk: Disk, parse: string -> Option<TopLevel>)

  predicate Private(name: string)
  {
    |name| > 0 && name[0] == '_'
  }

  /** The names that do not start with an underscore. */
  function Public(names: set<string>): (r: set<string>)
    ensures forall x :: x in r <==> x in names && !Private(x)
  {
    set x | x in names && !Private(x)
  }

  /** The public definitions of a parsed file; nothing when parsing raised. */
  function DefsOf(p: Option<TopLevel>): (d: TopLevel)
    ensures p.None? ==> d.functions == {} && d.classes == {}
    ensures p.Some? ==> d.functions == Public(p.value.functions) && d.classes == Public(p.value.classes)
  {
    if p.None? then TopLevel({}, {}) else TopLevel(Public(p.value.functions), Public(p.value.classes))
  }

  /** The module path below `source/`: a leading "source." dropped, dots turned into separators. */
  function ModulePath(pkg: string): string
  {
    var p := if "source." <= pkg then pkg[7..] else pkg;
    ReplaceAll(p, ".", "/")
  }

  /** `source/<path>.py` if that file exists, else `source/<path>/__init__.py` if that one does. */
  function TargetFile(root: string, pkg: string, disk: Disk): (r: Option<string>)
    ensures r.Some? ==> r.value in disk.files
  {
    var src := Join(root, "source");
    var rel := ModulePath(pkg);
    var modFile := Join(src, rel + ".py");
    var initFile := Join(Join(src, rel), "__init__.py");
    if modFile in disk.files then Some(modFile)
    else if initFile in disk.files then Some(initFile)
    else None
  }

  /** Names a generated tool must not be built from. */
  predicate Excluded(name: string)
  {
    Contains(Lower(name), "test") || Contains(Lower(name), "example")
  }

  /** `[x.rstrip("*") for x in names if x and not x.startswith("_")]` */
  function Candidates(names: seq<string>): (r: seq<string>)
    ensures |r| <= |names|
    ensures forall x :: x in r ==> !Private(x) && (|x| > 0 ==> x[|x| - 1] != '*')
  {
    if names == [] then []
    else
      var x := names[0];
      var rest := Candidates(names[1..]);
      if x != "" && x[0] != '_' then
        var y := StripRight(x, {'*'});
        assert |y| > 0 ==> y[0] == x[0];
        [y] + rest
      else rest
  }

  /** `[x for x in cands if x in defs and not excluded]`, order kept. */
  function Filtered(cands: seq<string>, defs: set<string>): (r: seq<string>)
    ensures |r| <= |cands|
    ensures forall x :: x in r <==> x in cands && x in defs && !Excluded(x)
  {
    if cands == [] then []
    else
      var rest := Filtered(cands[1..], defs);
      if cands[0] in defs && !Excluded(cands[0]) then [cands[0]] + rest else rest
  }

  /** The names of a module that may be kept, before any cap. */
  function Eligible(names: seq<string>, defs: set<string>): seq<string>
  {
    Filtered(Candidates(names), defs)
  }

  /** Per-module cap by import confidence. */
  function Cap(confidence: string): (n: nat)
    ensures 1 <= n <= 5
  {
    if confidence == "high" then 5 else if confidence == "medium" then 3 else 1
  }

  /** `xs[:n]` for `n >= 0`. */
  function Take<T>(xs: seq<T>, n: int): (r: seq<T>)
    requires n >= 0
    ensures r <= xs && |r| == if n < |xs| then n else |xs|
  {
    if n < |xs| then xs[..n] else xs
  }

  function Min(a: int, b: int): int { if a < b then a else b }

  /** Number of names a kept module contributes to the budget. */
  function Size(m: CoreModule): nat
  {
    |m.functions| + |m.classes|
  }

  /** One module's names once filtered against its file and capped. */
  function Capped(m: CoreModule, file: string, h: Host): (r: (seq<string>, seq<string>))
  {
    var defs := DefsOf(h.parse(file));
    var cap := Cap(m.confidence);
    (Take(Eligible(m.functions, defs.functions), cap), Take(Eligible(m.classes, defs.classes), cap))
  }

  /**
   * `k` is module `m` with its names filtered against its file and capped,
   * possibly cut shorter, and still naming something.
   */
  predicate Resolves(k: CoreModule, m: CoreModule, root: string, h: Host)
  {
    && k == m.(functions := k.functions, classes := k.classes)
    && 0 < Size(k)
    && |k.functions| <= Cap(m.confidence) && |k.classes| <= Cap(m.confidence)
    && m.package != "" && !Contains(Lower(m.package), "tests")
    && TargetFile(root, m.package, h.disk).Some?
    && k.functions <= Eligible(m.functions, DefsOf(h.parse(TargetFile(root, m.package, h.disk).value)).functions)
    && k.classes <= Eligible(m.classes, DefsOf(h.parse(TargetFile(root, m.package, h.disk).value)).classes)
  }

  /**
   * The budget-independent part of the loop body: a test package, an
   * unresolvable module or one with no name left is skipped (`None`);
   * otherwise the module with its capped names.
   */
  function Resolve(m: CoreModule, root: string, h: Host): (r: Option<CoreModule>)
    ensures r.Some? ==> 0 < Size(r.value)
  {
    if m.package == "" || Contains(Lower(m.package), "tests") then None
    else
      var file := TargetFile(root, m.package, h.disk);
      if file.None? then None
      else
        var (fs, cs) := Capped(m, file.value, h);
        if fs == [] && cs == [] then None
        else Some(m.(functions := fs, classes := cs))
  }

  /** A module that resolves is kept from its capped, eligible names. */
  lemma ResolveResolves(m: CoreModule, root: string, h: Host)
    ensures var r := Resolve(m, root, h); r.Some? ==> Resolves(r.value, m, root, h)
  {
  }

  /** What the budget does with one resolved module, given the names kept so far. */
  datatype Choice = Halt | Keep(kept: CoreModule)

  /** `k` is `c` with each of its name lists cut to a prefix. */
  predicate TrimOf(k: CoreModule, c: CoreModule)
  {
    && k == c.(functions := k.functions, classes := k.classes)
    && k.functions <= c.functions && k.classes <= c.classes
  }

  /**
   * The budget part of the loop body: keep the module whole when it fits;
   * when it overflows, stop if nothing remains of the budget, else keep its
   * functions first and classes with what is left.
   */
  function Fit(c: CoreModule, total: int, maxTotal: int): (r: Choice)
    ensures r.Keep? ==> TrimOf(r.kept, c) && total + Size(r.kept) <= maxTotal
    ensures r.Keep? && 0 < Size(c) ==> 0 < Size(r.kept)
    ensures total + Size(c) <= maxTotal ==> r == Keep(c)
    ensures r.Halt? <==> total + Size(c) > maxTotal && total >= maxTotal
  {
    var fs, cs := c.functions, c.classes;
    if total + |fs| + |cs| > maxTotal then
      var remain := maxTotal - total;
      if remain <= 0 then Halt
      else
        var tf := Min(|fs|, remain);
        Keep(c.(functions := fs[..tf], classes := Take(cs, remain - tf)))
    else Keep(c)
  }

  /** Every resolved module names something. */
  predicate AllNonEmpty(rs: seq<Option<CoreModule>>)
  {
    forall i :: 0 <= i < |rs| ==> rs[i].Some? ==> 0 < Size(rs[i].value)
  }

  /** The modules kept from the resolved ones, with `total` names already kept. */
  function Budgeted(rs: seq<Option<CoreModule>>, total: int, maxTotal: int): seq<CoreModule>
    decreases |rs|
  {
    if rs == [] then []
    else if rs[0].None? then Budgeted(rs[1..], total, maxTotal)
    else
      match Fit(rs[0].value, total, maxTotal)
      case Halt => []
      case Keep(k) =>
        var t := total + Size(k);
        [k] + (if t >= maxTotal then [] else Budgeted(rs[1..], t, maxTotal))
  }

  /** Every module resolved on its own. */
  function Resolved(mods: seq<CoreModule>, root: string, h: Host): (rs: seq<Option<CoreModule>>)
    ensures |rs| == |mods|
    ensures AllNonEmpty(rs)
  {
    seq(|mods|, i requires 0 <= i < |mods| => Resolve(mods[i], root, h))
  }

  /** The `i`th module resolved. */
  lemma ResolvedAt(mods: seq<CoreModule>, root: string, h: Host, i: nat)
    requires i < |mods|
    ensures Resolved(mods, root, h)[i] == Resolve(mods[i], root, h)
  {
  }

  /** The modules the loop keeps. */
  function Pruned(mods: seq<CoreModule>, root: string, h: Host): seq<CoreModule>
  {
    Budgeted(Resolved(mods, root, h), 0, MaxTotal)
  }

  /** Names kept over a list of modules. */
  function Names(ks: seq<CoreModule>): nat
  {
    if ks == [] then 0 else Size(ks[0]) + Names(ks[1..])
  }

  /** `_prune_analysis_for_generation` on the analysis record: only the core modules change. */
  function PruneAnalysis(a: LlmAnalysis, root: string, h: Host): (r: LlmAnalysis)
    ensures r == a.(coreModules := r.coreModules)
  {
    a.(coreModules := Pruned(a.coreModules, root, h))
  }

  /** The kept names never exceed the budget. */
  lemma {:induction false} BudgetedWithin(rs: seq<Option<CoreModule>>, total: int, maxTotal: int)
    requires total <= maxTotal
    ensures total + Names(Budgeted(rs, total, maxTotal)) <= maxTotal
    decreases |rs|
  {
    if rs != [] {
      if rs[0].None? {
        BudgetedWithin(rs[1..], total, maxTotal);
      } else {
        match Fit(rs[0].value, total, maxTotal)
        case Halt =>
        case Keep(k) =>
          var t := total + Size(k);
          var rest := if t >= maxTotal then [] else Budgeted(rs[1..], t, maxTotal);
          assert ([k] + rest)[1..] == rest;
          if t < maxTotal {
            BudgetedWithin(rs[1..], t, maxTotal);
          }
      }
    }
  }

  /** Over a whole analysis: at most twelve names survive. */
  lemma PruneAnalysisBudget(a: LlmAnalysis, root: string, h: Host)
    ensures Names(PruneAnalysis(a, root, h).coreModules) <= MaxTotal
  {
    BudgetedWithin(Resolved(a.coreModules, root, h), 0, MaxTotal);
  }

  /** `k` is a trimmed copy of one of the resolved modules. */
  predicate TrimmedFrom(k: CoreModule, rs: seq<Option<CoreModule>>)
  {
    exists j :: 0 <= j < |rs| && rs[j].Some? && TrimOf(k, rs[j].value)
  }

  lemma TrimmedFromTail(k: CoreModule, rs: seq<Option<CoreModule>>)
    requires rs != [] && TrimmedFrom(k, rs[1..])
    ensures TrimmedFrom(k, rs)
  {
    var j :| 0 <= j < |rs[1..]| && rs[1..][j].Some? && TrimOf(k, rs[1..][j].value);
    assert rs[1..][j] == rs[j + 1];
  }

  /** Every kept module is a trimmed copy of a resolved one and names something. */
  lemma {:induction false} BudgetedFromResolved(rs: seq<Option<CoreModule>>, total: int, maxTotal: int)
    requires AllNonEmpty(rs)
    ensures forall k :: k in Budgeted(rs, total, maxTotal) ==> 0 < Size(k) && TrimmedFrom(k, rs)
    decreases |rs|
  {
    var ks := Budgeted(rs, total, maxTotal);
    if rs != [] {
      var tail := rs[1..];
      assert AllNonEmpty(tail) by {
        forall i | 0 <= i < |tail| ensures tail[i] == rs[i + 1] { }
      }
      if rs[0].None? {
        BudgetedFromResolved(tail, total, maxTotal);
        forall k | k in ks
          ensures 0 < Size(k) && TrimmedFrom(k, rs)
        {
          TrimmedFromTail(k, rs);
        }
      } else {
        match Fit(rs[0].value, total, maxTotal)
        case Halt =>
        case Keep(k0) =>
          var t := total + Size(k0);
          var rest := if t >= maxTotal then [] else Budgeted(tail, t, maxTotal);
          assert ks == [k0] + rest;
          if t < maxTotal {
            BudgetedFromResolved(tail, t, maxTotal);
          }
          forall k | k in ks
            ensures 0 < Size(k) && TrimmedFrom(k, rs)
          {
            if k == k0 {
              assert TrimOf(k0, rs[0].value);
            } else {
              assert k in rest;
              TrimmedFromTail(k, rs);
            }
          }
      }
    }
  }

  /** Cutting a resolved module's lists shorter keeps it resolved from the same input. */
  lemma TrimResolves(k: CoreModule, c: CoreModule, m: CoreModule, root: string, h: Host)
    requires Resolves(c, m, root, h) && TrimOf(k, c) && 0 < Size(k)
    ensures Resolves(k, m, root, h)
  {
    var file := TargetFile(root, m.package, h.disk).value;
    var defs := DefsOf(h.parse(file));
    PrefixTransitive(k.functions, c.functions, Eligible(m.functions, defs.functions));
    PrefixTransitive(k.classes, c.classes, Eligible(m.classes, defs.classes));
  }

  /**
   * Every kept module comes from an input module: same package, module,
   * description and confidence, names capped by that confidence and taken
   * from the front of its eligible names, at least one of them.
   */
  lemma PrunedFromInput(mods: seq<CoreModule>, root: string, h: Host)
    ensures forall k :: k in Pruned(mods, root, h) ==> exists j :: 0 <= j < |mods| && Resolves(k, mods[j], root, h)
  {
    var rs := Resolved(mods, root, h);
    BudgetedFromResolved(rs, 0, MaxTotal);
    forall k | k in Pruned(mods, root, h)
      ensures exists j :: 0 <= j < |mods| && Resolves(k, mods[j], root, h)
    {
      var j :| 0 <= j < |rs| && rs[j].Some? && TrimOf(k, rs[j].value);
      ResolveResolves(mods[j], root, h);
      TrimResolves(k, rs[j].value, mods[j], root, h);
    }
  }

  /**
   * What a kept name is: a public top-level definition of the module's file,
   * with no trailing "*", naming neither a test nor an example.
   */
  lemma KeptNamesAreDefinitions(k: CoreModule, m: CoreModule, root: string, h: Host)
    requires Resolves(k, m, root, h)
    ensures var file := TargetFile(root, m.package, h.disk).value;
            var parsed := h.parse(file);
            && file in h.disk.files
            && (forall x :: x in k.functions ==> parsed.Some? && x in parsed.value.functions && Admissible(x))
            && (forall x :: x in k.classes ==> parsed.Some? && x in parsed.value.classes && Admissible(x))
  {
    var file := TargetFile(root, m.package, h.disk).value;
    var defs := DefsOf(h.parse(file));
    PrefixOfEligible(k.functions, m.functions, defs.functions);
    PrefixOfEligible(k.classes, m.classes, defs.classes);
  }

  /** A name the generated tools may be built from. */
  predicate Admissible(x: string)
  {
    !Private(x) && !Excluded(x) && (|x| > 0 ==> x[|x| - 1] != '*')
  }

  /** Every name of a prefix of the eligible list is defined and admissible. */
  lemma PrefixOfEligible(kept: seq<string>, names: seq<string>, defs: set<string>)
    requires kept <= Eligible(names, defs)
    ensures forall x :: x in kept ==> x in defs && Admissible(x)
  {
    var e := Eligible(names, defs);
    forall x | x in kept
      ensures x in defs && Admissible(x)
    {
      var i :| 0 <= i < |kept| && kept[i] == x;
      assert e[i] == x;
    }
  }

  /** A test package never survives, whatever its file holds. */
  lemma TestPackagesDropped(mods: seq<CoreModule>, root: string, h: Host)
    ensures forall k :: k in Pruned(mods, root, h) ==> !Contains(Lower(k.package), "tests")
  {
    PrunedFromInput(mods, root, h);
    forall k | k in Pruned(mods, root, h)
      ensures !Contains(Lower(k.package), "tests")
    {
      var j :| 0 <= j < |mods| && Resolves(k, mods[j], root, h);
    }
  }

  /** One step of `Budgeted` on a module that is kept. */
  lemma BudgetedKeep(rs: seq<Option<CoreModule>>, total: int, maxTotal: int, k: CoreModule)
    requires rs != [] && rs[0].Some? && Fit(rs[0].value, total, maxTotal) == Keep(k)
    ensures Budgeted(rs, total, maxTotal)
            == [k] + (if total + Size(k) >= maxTotal then [] else Budgeted(rs[1..], total + Size(k), maxTotal))
  {
  }

  /** One step of `Budgeted` on a module that overflows an exhausted budget. */
  lemma BudgetedHalt(rs: seq<Option<CoreModule>>, total: int, maxTotal: int)
    requires rs != [] && rs[0].Some? && Fit(rs[0].value, total, maxTotal).Halt?
    ensures Budgeted(rs, total, maxTotal) == []
  {
  }

  /** One step of `Budgeted` on a module that is skipped. */
  lemma BudgetedSkip(rs: seq<Option<CoreModule>>, total: int, maxTotal: int)
    requires rs != [] && rs[0].None?
    ensures Budgeted(rs, total, maxTotal) == Budgeted(rs[1..], total, maxTotal)
  {
  }

  /**
   * One pass of the loop body of `_prune_analysis_for_generation` on module
   * `m`, with `kept` and `total` so far: `stop` is the loop's `break`, and
   * what is kept now followed by what the rest of the modules would add is
   * what the module and the rest add to the old `kept`.
   */
  method PruneStep(m: CoreModule, root: string, h: Host, kept: seq<CoreModule>, total: int,
                   ghost tail: seq<Option<CoreModule>>)
    returns (kept': seq<CoreModule>, total': int, stop: bool)
    ensures kept' + (if stop then [] else Budgeted(tail, total', MaxTotal))
            == kept + Budgeted([Resolve(m, root, h)] + tail, total, MaxTotal)
  {
    ghost var rs := [Resolve(m, root, h)] + tail;
    assert rs[1..] == tail;
    var resolved := Resolve(m, root, h);
    kept', total', stop := kept, total, false;
    if resolved.Some? {
      var choice := Fit(resolved.value, total, MaxTotal);
      if choice.Halt? {
        BudgetedHalt(rs, total, MaxTotal);
        stop := true;
        return;
      }
      var next := total + Size(choice.kept);
      BudgetedKeep(rs, total, MaxTotal, choice.kept);
      ghost var rest := if next >= MaxTotal then [] else Budgeted(tail, next, MaxTotal);
      AssociateThree(kept, [choice.kept], rest);
      kept', total' := kept + [choice.kept], next;
      stop := next >= MaxTotal;
    } else {
      BudgetedSkip(rs, total, MaxTotal);
    }
  }

  /**
   * The loop of `_prune_analysis_for_generation`, with its running total and
   * its two early exits.
   */
  method PruneForGeneration(a: LlmAnalysis, root: string, h: Host) returns (r: LlmAnalysis)
    ensures r == PruneAnalysis(a, root, h)
  {
    var mods := a.coreModules;
    ghost var rs := Resolved(mods, root, h);
    var kept: seq<CoreModule> := [];
    var total := 0;
    var i := 0;
    while i < |mods|
      invariant 0 <= i <= |mods|
      invariant kept + Budgeted(rs[i..], total, MaxTotal) == Budgeted(rs, 0, MaxTotal)
    {
      hide Budgeted, Resolve, Fit, Capped, TargetFile, Resolved;
      ResolvedAt(mods, root, h, i);
      SliceHead(rs, i);
      var stop;
      kept, total, stop := PruneStep(mods[i], root, h, kept, total, rs[i + 1..]);
      if stop {
        assert kept + [] == kept;
        break;
      }
      i := i + 1;
    }
    assert i == |mods| ==> kept + [] == kept;
    r := a.(coreModules := kept);
  }
}
