/**
 * `_scan_python_packages`: walk the repository and list, as dotted paths, the
 * directories below the root that hold an `__init__.py` and lie at most three
 * levels deep; the list comes back sorted and without duplicates.
 */
module PackageScan {
  import opened Text
  import opened PipelineState

  // Ordering of strings

  /** Python's `<` on strings: code point by code point, a proper prefix first. */
  predicate StrLess(a: string, b: string)
    decreases |a|
  {
    if a == [] then b != []
    else if b == [] then false
    else if a[0] != b[0] then a[0] < b[0]
    else StrLess(a[1..], b[1..])
  }

  /** No string precedes itself. */
  lemma {:induction false} StrLessIrreflexive(a: string)
    ensures !StrLess(a, a)
    decreases |a|
  {
    if a != [] {
      StrLessIrreflexive(a[1..]);
    }
  }

  /** Of two different strings one precedes the other. */
  lemma {:induction false} StrLessTotal(a: string, b: string)
    requires a != b
    ensures StrLess(a, b) || StrLess(b, a)
    decreases |a|
  {
    if a != [] && b != [] && a[0] == b[0] {
      assert a == [a[0]] + a[1..] && b == [b[0]] + b[1..];
      StrLessTotal(a[1..], b[1..]);
    }
  }

  /** Each element precedes every later one: sorted, and so without duplicates. */
  predicate StrictlySorted(s: seq<string>)
  {
    forall i, j :: 0 <= i < j < |s| ==> StrLess(s[i], s[j])
  }

  /** A strictly sorted list holds each string once. */
  lemma SortedDistinct(s: seq<string>)
    requires StrictlySorted(s)
    ensures forall i, j :: 0 <= i < j < |s| ==> s[i] != s[j]
  {
    forall i, j | 0 <= i < j < |s|
      ensures s[i] != s[j]
    {
      StrLessIrreflexive(s[i]);
    }
  }

  /** Put `x` in its place in a sorted list, unless it is there already. */
  function Insert(s: seq<string>, x: string): (r: seq<string>)
    requires StrictlySorted(s)
    ensures StrictlySorted(r)
    ensures forall y :: y in r <==> y in s || y == x
    ensures |r| > 0 && (r[0] == x || (|s| > 0 && r[0] == s[0]))
  {
    if s == [] then [x]
    else if x == s[0] then s
    else if StrLess(x, s[0]) then
      assert forall j :: 0 < j < |s| ==> StrLess(s[0], s[j]);
      StrLessTransitiveFrom(x, s);
      [x] + s
    else
      StrLessTotal(x, s[0]);
      var rest := Insert(s[1..], x);
      assert forall y :: y in rest ==> StrLess(s[0], y) by {
        forall y | y in rest
          ensures StrLess(s[0], y)
        {
          if y != x {
            var j :| 0 <= j < |s[1..]| && s[1..][j] == y;
            assert s[j + 1] == y;
          }
        }
      }
      [s[0]] + rest
  }

  /** A string preceding the head of a sorted list precedes all of it. */
  lemma StrLessTransitiveFrom(x: string, s: seq<string>)
    requires StrictlySorted(s) && |s| > 0 && StrLess(x, s[0])
    ensures forall j :: 0 <= j < |s| ==> StrLess(x, s[j])
  {
    forall j | 0 < j < |s|
      ensures StrLess(x, s[j])
    {
      StrLessTransitive(x, s[0], s[j]);
    }
  }

  lemma {:induction false} StrLessTransitive(a: string, b: string, c: string)
    requires StrLess(a, b) && StrLess(b, c)
    ensures StrLess(a, c)
    decreases |a|
  {
    if a != [] && b != [] && c != [] && a[0] == b[0] && b[0] == c[0] {
      StrLessTransitive(a[1..], b[1..], c[1..]);
    }
  }

  /** `sorted(list(set(xs)))` */
  function SortedUnique(xs: seq<string>): (r: seq<string>)
    ensures StrictlySorted(r)
    ensures forall y :: y in r <==> y in xs
    ensures |r| <= |xs|
  {
    if xs == [] then []
    else
      var front := SortedUnique(xs[..|xs| - 1]);
      assert forall y :: y in xs <==> y in xs[..|xs| - 1] || y == xs[|xs| - 1] by {
        assert xs == xs[..|xs| - 1] + [xs[|xs| - 1]];
      }
      InsertLength(front, xs[|xs| - 1]);
      Insert(front, xs[|xs| - 1])
  }

  lemma InsertLength(s: seq<string>, x: string)
    requires StrictlySorted(s)
    ensures |Insert(s, x)| <= |s| + 1
  {
    if s != [] && x != s[0] && !StrLess(x, s[0]) {
      InsertLength(s[1..], x);
    }
  }

  // The walk

  /** One directory the walk visits: its path and the names of the files in it. */
  datatype Visit = Visit(dirPath: string, fileNames: seq<string>)

  /**
   * The package a visited directory contributes: its path relative to the
   * root with separators turned into dots, when it lies at most two
   * separators deep, is not the root itself and holds `__init__.py`.
   */
  function PackageOf(v: Visit, root: string): (r: Option<string>)
    ensures r.Some? ==> r.value != "" && '/' !in r.value
    ensures r.Some? ==> "__init__.py" in v.fileNames
    ensures r.Some? ==> Occurrences(RelPath(v.dirPath, root), '/') <= 2 && RelPath(v.dirPath, root) != "."
  {
    var rel := RelPath(v.dirPath, root);
    if Occurrences(rel, '/') > 2 then None
    else if "__init__.py" !in v.fileNames then None
    else
      var pkg := if rel != "." then ReplaceAll(rel, "/", ".") else "";
      ReplaceCharRemovesIt(rel, '/', '.');
      if pkg != "" then Some(pkg) else None
  }

  /** The packages the visits contribute, in walk order and with repeats. */
  function Found(walk: seq<Visit>, root: string): (r: seq<string>)
  {
    if walk == [] then []
    else
      var last := PackageOf(walk[|walk| - 1], root);
      Found(walk[..|walk| - 1], root) + (if last.Some? then [last.value] else [])
  }

  /** Every package found comes from some visited directory. */
  lemma {:induction false} FoundFromVisit(walk: seq<Visit>, root: string, p: string)
    requires p in Found(walk, root)
    ensures exists k :: 0 <= k < |walk| && PackageOf(walk[k], root) == Some(p)
    decreases |walk|
  {
    var n := |walk| - 1;
    var front := walk[..n];
    var last := PackageOf(walk[n], root);
    if p in Found(front, root) {
      FoundFromVisit(front, root, p);
      var k :| 0 <= k < |front| && PackageOf(front[k], root) == Some(p);
      assert front[k] == walk[k];
    } else {
      assert last == Some(p);
    }
  }

  /** Every package a visited directory contributes is found. */
  lemma {:induction false} VisitFound(walk: seq<Visit>, root: string, k: nat, p: string)
    requires k < |walk| && PackageOf(walk[k], root) == Some(p)
    ensures p in Found(walk, root)
    decreases |walk|
  {
    hide *;
    var n := |walk| - 1;
    var front := walk[..n];
    FoundLast(walk, root);
    var last := PackageOf(walk[n], root);
    var extra := if last.Some? then [last.value] else [];
    assert Found(walk, root) == Found(front, root) + extra;
    if k < n {
      assert front[k] == walk[k];
      VisitFound(front, root, k, p);
      InLeft(p, Found(front, root), extra);
    } else {
      assert extra == [p];
      InRight(p, Found(front, root), extra);
    }
  }

  lemma InLeft(p: string, a: seq<string>, b: seq<string>)
    requires p in a
    ensures p in a + b
  {
    var i :| 0 <= i < |a| && a[i] == p;
    assert (a + b)[i] == p;
  }

  lemma InRight(p: string, a: seq<string>, b: seq<string>)
    requires p in b
    ensures p in a + b
  {
    var i :| 0 <= i < |b| && b[i] == p;
    assert (a + b)[|a| + i] == p;
  }

  /** The packages of a walk are those before its last visit, then the last visit's own. */
  lemma FoundLast(walk: seq<Visit>, root: string)
    requires walk != []
    ensures var last := PackageOf(walk[|walk| - 1], root);
            Found(walk, root) == Found(walk[..|walk| - 1], root) + (if last.Some? then [last.value] else [])
  {
  }

  /** A package is found exactly when some visited directory contributes it. */
  lemma FoundExactly(walk: seq<Visit>, root: string, p: string)
    ensures p in Found(walk, root) <==> exists k :: 0 <= k < |walk| && PackageOf(walk[k], root) == Some(p)
  {
    if p in Found(walk, root) {
      FoundFromVisit(walk, root, p);
    }
    if exists k :: 0 <= k < |walk| && PackageOf(walk[k], root) == Some(p) {
      var k :| 0 <= k < |walk| && PackageOf(walk[k], root) == Some(p);
      VisitFound(walk, root, k, p);
    }
  }

  /**
   * The scan's result: the sorted distinct packages, or nothing when walking
   * the tree raised (`walk` is `None`).
   */
  function ScanPackages(walk: Option<seq<Visit>>, root: string): (r: seq<string>)
    ensures walk.None? ==> r == []
  {
    if walk.None? then [] else SortedUnique(Found(walk.value, root))
  }

  /**
   * What the scan promises: a sorted list without duplicates holding exactly
   * the dotted paths of the qualifying directories.
   */
  lemma ScanPackagesExactly(walk: seq<Visit>, root: string)
    ensures StrictlySorted(ScanPackages(Some(walk), root))
    ensures forall p :: p in ScanPackages(Some(walk), root) <==>
                        exists k :: 0 <= k < |walk| && PackageOf(walk[k], root) == Some(p)
    ensures forall p :: p in ScanPackages(Some(walk), root) ==> p != "" && '/' !in p
  {
    forall p
      ensures p in ScanPackages(Some(walk), root) <==>
              exists k :: 0 <= k < |walk| && PackageOf(walk[k], root) == Some(p)
    {
      FoundExactly(walk, root, p);
    }
  }

  /**
   * A directory directly below the root that holds `__init__.py` is listed
   * under its own name.
   */
  lemma TopLevelPackage(root: string, name: string, files: seq<string>)
    requires name != "" && name != "." && '/' !in name && "__init__.py" in files
    ensures name in ScanPackages(Some([Visit(root + "/" + name, files)]), root)
  {
    var v := Visit(root + "/" + name, files);
    assert root + "/" <= v.dirPath;
    assert RelPath(v.dirPath, root) == name;
    assert Occurrences(name, '/') == 0;
    ReplaceAbsent(name, "/", ".") by {
      NoCharNoContains(name, '/');
    }
    assert PackageOf(v, root) == Some(name);
    ScanPackagesExactly([v], root);
  }

  lemma {:induction false} NoCharNoContains(s: string, c: char)
    requires c !in s
    ensures !Contains(s, [c])
    decreases |s|
  {
    if s != [] {
      assert s[0] in s;
      NoCharNoContains(s[1..], c);
    }
  }

  /**
   * The loop of `_scan_python_packages`: visit each directory, append what it
   * contributes, then sort the distinct names.
   */
  method ScanPythonPackages(walk: Option<seq<Visit>>, root: string) returns (packages: seq<string>)
    ensures packages == ScanPackages(walk, root)
    ensures StrictlySorted(packages)
  {
    if walk.None? {
      return [];
    }
    var visits := walk.value;
    var found: seq<string> := [];
    for i := 0 to |visits|
      invariant found == Found(visits[..i], root)
    {
      assert visits[..i + 1][..i] == visits[..i];
      var pkg := PackageOf(visits[i], root);
      if pkg.Some? {
        found := found + [pkg.value];
      }
    }
    assert visits[..|visits|] == visits;
    packages := SortedUnique(found);
  }
}
