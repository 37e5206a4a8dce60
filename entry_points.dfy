/**
 * `_scan_entry_points`: the command-line scripts a repository declares, read
 * from the `console_scripts` list of `setup.py` and from the
 * `[project.scripts]` and `[tool.poetry.scripts]` tables of `pyproject.toml`.
 * Each regular expression is written out as the positions where it matches,
 * with the backtracking the engine does made explicit.
 */
module EntryPoints {
  import opened Text
  import opened PipelineState
  import opened ResponseText

  const Quotes: set<char> := {'"', '\''}

  /** The greatest `k` in `[lo, end)` with `s[k] == c`. */
  function LastIndex(s: string, lo: nat, end: nat, c: char): (r: Option<nat>)
    requires end <= |s|
    ensures r.Some? ==> lo <= r.value < end && s[r.value] == c
    ensures r.Some? ==> forall q :: r.value < q < end ==> s[q] != c
    ensures r.None? ==> forall q :: lo <= q < end ==> s[q] != c
    decreases end
  {
    if end <= lo then None
    else if s[end - 1] == c then Some(end - 1)
    else LastIndex(s, lo, end - 1, c)
  }

  // setup.py

  /**
   * `["']([^"']+)=([^"']+)["']` tried at `i`: the run of non-quote characters
   * after the opening quote must be closed by a quote and split at its last
   * "=" that leaves both sides non-empty.  Yields the two groups and where the
   * search resumes.
   */
  function ScriptAt(g: string, i: nat): (r: Option<(string, string, nat)>)
    requires i < |g|
    ensures r.Some? ==> i < r.value.2 <= |g|
    ensures r.Some? ==> r.value.0 != "" && r.value.1 != ""
    ensures r.Some? ==> g[i] in Quotes && g[r.value.2 - 1] in Quotes
    ensures r.Some? ==> g[i..r.value.2] == [g[i]] + r.value.0 + "=" + r.value.1 + [g[r.value.2 - 1]]
  {
    if g[i] !in Quotes then None
    else
      var e := RunEnd(g, i + 1, Quotes);
      if e == |g| || e < 1 then None
      else match LastIndex(g, i + 2, e - 1, '=')
        case None => None
        case Some(k) =>
          QuotedAssignment(g, i, k, e);
          Some((g[i + 1..k], g[k + 1..e], e + 1))
  }

  /** A quoted `name=module` read back from its quote, its "=" and its closing quote. */
  lemma QuotedAssignment(g: string, i: nat, k: nat, e: nat)
    requires i < k < e < |g| && g[k] == '='
    ensures g[i..e + 1] == [g[i]] + g[i + 1..k] + "=" + g[k + 1..e] + [g[e]]
  {
    assert g[i..e + 1] == [g[i]] + g[i + 1..k] + [g[k]] + g[k + 1..e] + [g[e]];
  }

  /** `re.findall` of the script pattern from `i` on: the (name, module) pairs. */
  function ScriptsFrom(g: string, i: nat): (r: seq<(string, string)>)
    requires i <= |g|
    ensures forall k :: 0 <= k < |r| ==> r[k].0 != "" && r[k].1 != ""
    decreases |g| - i
  {
    if i == |g| then []
    else match ScriptAt(g, i)
      case Some((name, target, j)) => [(name, target)] + ScriptsFrom(g, j)
      case None => ScriptsFrom(g, i + 1)
  }

  const ConsoleScripts: string := "console_scripts"

  /**
   * `console_scripts.*?\[(.*?)\]` tried at `i`: from the keyword, the first
   * "[" and the first "]" after it delimit the group.  (Were there no "]"
   * after the first "[", there would be none after a later one either.)
   */
  function ConsoleGroupAt(c: string, i: nat): (r: Option<(nat, nat)>)
    requires i <= |c|
    ensures r.Some? ==> i < r.value.0 <= r.value.1 < |c|
    ensures r.Some? ==> c[r.value.0 - 1] == '[' && c[r.value.1] == ']' && ']' !in c[r.value.0..r.value.1]
  {
    if !(ConsoleScripts <= c[i..]) then None
    else
      var b := RunEnd(c, i + |ConsoleScripts|, {'['});
      if b == |c| then None
      else
        var e := RunEnd(c, b + 1, {']'});
        if e == |c| then None else Some((b + 1, e))
  }

  /** `re.findall(r'console_scripts.*?\[(.*?)\]', content, re.DOTALL)` from `i` on. */
  function ConsoleGroupsFrom(c: string, i: nat): (r: seq<string>)
    requires i <= |c|
    ensures forall k :: 0 <= k < |r| ==> ']' !in r[k]
    decreases |c| - i
  {
    if i == |c| then []
    else match ConsoleGroupAt(c, i)
      case Some((b, e)) => [c[b..e]] + ConsoleGroupsFrom(c, e + 1)
      case None => ConsoleGroupsFrom(c, i + 1)
  }

  function ConsoleEntry(p: (string, string)): CliEntry
  {
    CliEntry(p.0, p.1, "console_script")
  }

  /** The console-script entries of a list of (name, module) pairs, in order. */
  function ConsoleEntries(pairs: seq<(string, string)>): (r: seq<CliEntry>)
    ensures |r| == |pairs|
    ensures forall k :: 0 <= k < |r| ==> r[k] == ConsoleEntry(pairs[k])
  {
    if pairs == [] then [] else ConsoleEntries(pairs[..|pairs| - 1]) + [ConsoleEntry(pairs[|pairs| - 1])]
  }

  /** The entries of every `console_scripts` group, group after group. */
  function SetupEntries(groups: seq<string>): seq<CliEntry>
  {
    if groups == [] then []
    else SetupEntries(groups[..|groups| - 1]) + ConsoleEntries(ScriptsFrom(groups[|groups| - 1], 0))
  }

  // pyproject.toml

  const ProjectScripts: string := "[project.scripts]"
  const PoetryScripts: string := "[tool.poetry.scripts]"

  /**
   * Where `(?=\n\[|\n$)` holds: a newline followed by "[", or a newline that
   * ends the text or is followed only by a final newline.
   */
  predicate SectionEndsAt(c: string, p: nat)
  {
    p < |c| && c[p] == '\n' &&
    ((p + 1 < |c| && c[p + 1] == '[') || p + 1 == |c| || (p + 2 == |c| && c[p + 1] == '\n'))
  }

  /** The first `p >= g` where the section ends, if any. */
  function SectionEnd(c: string, g: nat): (r: Option<nat>)
    requires g <= |c|
    ensures r.Some? ==> g <= r.value < |c| && SectionEndsAt(c, r.value)
    ensures r.Some? ==> forall q :: g <= q < r.value ==> !SectionEndsAt(c, q)
    ensures r.None? ==> forall q :: g <= q < |c| ==> !SectionEndsAt(c, q)
    decreases |c| - g
  {
    if g == |c| then None
    else if SectionEndsAt(c, g) then Some(g)
    else SectionEnd(c, g + 1)
  }

  /**
   * `<header>\s*\n(.*?)(?=\n\[|\n$)` tried at `i`.  The greedy `\s*` gives
   * back characters until the newline it must be followed by, so the group
   * starts after the last newline of the whitespace run; the lazy group then
   * ends at the first place the lookahead holds.  (When there is none, the
   * engine may still settle on an earlier newline of the whitespace run, but
   * the group is then blank and holds no script.)
   */
  function SectionAt(c: string, i: nat, header: string): (r: Option<(nat, nat)>)
    requires i <= |c| && |header| > 0
    ensures r.Some? ==> i < r.value.0 <= r.value.1 < |c|
  {
    if !(header <= c[i..]) then None
    else
      var w := SkipWhitespace(c, i + |header|);
      match LastIndex(c, i + |header|, w, '\n')
      case None => None
      case Some(n) =>
        match SectionEnd(c, n + 1)
        case None => None
        case Some(p) => Some((n + 1, p))
  }

  /** `re.findall(pattern, content, re.DOTALL)` for one section header from `i` on. */
  function SectionsFrom(c: string, i: nat, header: string): (r: seq<string>)
    requires i <= |c| && |header| > 0
    decreases |c| - i
  {
    if i == |c| then []
    else match SectionAt(c, i, header)
      case Some((g, p)) => [c[g..p]] + SectionsFrom(c, p, header)
      case None => SectionsFrom(c, i + 1, header)
  }

  /**
   * `([^=]+)\s*=\s*["']([^"']+)["']` tried at `i`: everything up to the first
   * "=" is the name; after optional whitespace a quote must open a non-empty
   * run of non-quote characters closed by a quote.
   */
  function PairAt(m: string, i: nat): (r: Option<(string, string, nat)>)
    requires i < |m|
    ensures r.Some? ==> i < r.value.2 <= |m|
    ensures r.Some? ==> r.value.0 != "" && '=' !in r.value.0 && r.value.1 != ""
  {
    var eq := RunEnd(m, i, {'='});
    if eq == i || eq == |m| then None
    else
      var q := SkipWhitespace(m, eq + 1);
      if q == |m| || m[q] !in Quotes then None
      else
        var e := RunEnd(m, q + 1, Quotes);
        if e == q + 1 || e == |m| then None
        else
          assert forall c :: c in m[i..eq] ==> c != '=';
          Some((m[i..eq], m[q + 1..e], e + 1))
  }

  /** `re.findall` of the table-entry pattern from `i` on. */
  function PairsFrom(m: string, i: nat): (r: seq<(string, string)>)
    requires i <= |m|
    decreases |m| - i
  {
    if i == |m| then []
    else match PairAt(m, i)
      case Some((name, target, j)) => [(name, target)] + PairsFrom(m, j)
      case None => PairsFrom(m, i + 1)
  }

  /** A table entry, with name and module stripped. */
  function PyprojectEntry(p: (string, string)): CliEntry
  {
    CliEntry(Strip(p.0), Strip(p.1), "pyproject_script")
  }

  function PyprojectEntries(pairs: seq<(string, string)>): (r: seq<CliEntry>)
    ensures |r| == |pairs|
    ensures forall k :: 0 <= k < |r| ==> r[k] == PyprojectEntry(pairs[k])
  {
    if pairs == [] then [] else PyprojectEntries(pairs[..|pairs| - 1]) + [PyprojectEntry(pairs[|pairs| - 1])]
  }

  /** The `[project.scripts]` sections, then the `[tool.poetry.scripts]` ones. */
  function PyprojectSections(c: string): seq<string>
  {
    SectionsFrom(c, 0, ProjectScripts) + SectionsFrom(c, 0, PoetryScripts)
  }

  function TableEntries(sections: seq<string>): seq<CliEntry>
  {
    if sections == [] then []
    else TableEntries(sections[..|sections| - 1]) + PyprojectEntries(PairsFrom(sections[|sections| - 1], 0))
  }

  // The scan

  /**
   * `entry_points["cli"]`: the `setup.py` entries, then the `pyproject.toml`
   * ones.  A file is `None` when it is missing or could not be read, and then
   * contributes nothing.
   */
  function EntryPointsOf(setupPy: Option<string>, pyproject: Option<string>): (r: seq<CliEntry>)
    ensures setupPy.None? && pyproject.None? ==> r == []
  {
    (if setupPy.Some? then SetupEntries(ConsoleGroupsFrom(setupPy.value, 0)) else []) +
    (if pyproject.Some? then TableEntries(PyprojectSections(pyproject.value)) else [])
  }

  /** Every `setup.py` entry is a console script with a name and a module; the module has no "=". */
  lemma {:induction false} SetupEntriesShape(groups: seq<string>)
    ensures forall e :: e in SetupEntries(groups) ==> e.kind == "console_script" && e.name != "" && e.target != ""
    decreases |groups|
  {
    if groups != [] {
      SetupEntriesShape(groups[..|groups| - 1]);
      var pairs := ScriptsFrom(groups[|groups| - 1], 0);
      forall e | e in ConsoleEntries(pairs)
        ensures e.kind == "console_script" && e.name != "" && e.target != ""
      {
        var k :| 0 <= k < |ConsoleEntries(pairs)| && ConsoleEntries(pairs)[k] == e;
      }
    }
  }

  /** A quoted `name=module` item is read back as that pair. */
  lemma QuotedScript(q: char, name: string, target: string, r: char)
    requires q in Quotes && r in Quotes
    requires name != "" && target != ""
    requires forall c :: c in name ==> c !in Quotes
    requires forall c :: c in target ==> c !in Quotes && c != '='
    ensures ScriptsFrom([q] + name + "=" + target + [r], 0) == [(name, target)]
  {
    var g := [q] + name + "=" + target + [r];
    var e := |g| - 1;
    var k := |name| + 1;
    assert g[1..k] == name && g[k] == '=' && g[k + 1..e] == target;
    assert forall j :: 1 <= j < k ==> g[j] == name[j - 1];
    assert forall j :: k < j < e ==> g[j] == target[j - k - 1];
    QuotedScriptAt(g, e, k);
  }

  /**
   * A text that is one quoted run of non-quote characters, whose last "="
   * leaves both sides non-empty, is read as the pair either side of it.
   */
  lemma QuotedScriptAt(g: string, e: nat, k: nat)
    requires e + 1 == |g| && g[0] in Quotes && g[e] in Quotes
    requires forall j :: 1 <= j < e ==> g[j] !in Quotes
    requires 2 <= k < e - 1 && g[k] == '='
    requires forall j :: k < j < e ==> g[j] != '='
    ensures ScriptsFrom(g, 0) == [(g[1..k], g[k + 1..e])]
  {
    assert RunEnd(g, 1, Quotes) == e;
    assert LastIndex(g, 2, e - 1, '=') == Some(k);
    ScriptAtSplit(g, 0, e, k);
  }

  /** Where the closing quote and the splitting "=" are known, the match is known. */
  lemma ScriptAtSplit(g: string, i: nat, e: nat, k: nat)
    requires i < e < |g| && g[i] in Quotes
    requires RunEnd(g, i + 1, Quotes) == e
    requires LastIndex(g, i + 2, e - 1, '=') == Some(k)
    ensures ScriptAt(g, i) == Some((g[i + 1..k], g[k + 1..e], e + 1))
    ensures e + 1 == |g| ==> ScriptsFrom(g, i) == [(g[i + 1..k], g[k + 1..e])]
  {
  }

  /** A `console_scripts` keyword followed by one bracketed list yields that list's text. */
  lemma ConsoleGroupOne(mid: string, g: string)
    requires '[' !in mid && ']' !in g
    ensures ConsoleGroupsFrom(ConsoleScripts + mid + "[" + g + "]", 0) == [g]
  {
    var c := ConsoleScripts + mid + "[" + g + "]";
    var b := |ConsoleScripts| + |mid|;
    assert forall j :: |ConsoleScripts| <= j < b ==> c[j] == mid[j - |ConsoleScripts|];
    assert forall j :: b < j < |c| - 1 ==> c[j] == g[j - b - 1];
    assert c[..|ConsoleScripts|] == ConsoleScripts && c[b] == '[' && c[|c| - 1] == ']';
    assert c[b + 1..|c| - 1] == g;
    ConsoleGroupAtIndices(c, b, |c| - 1);
  }

  /** The keyword at the start, the first "[" at `b` and the first "]" after it at the end. */
  lemma ConsoleGroupAtIndices(c: string, b: nat, e: nat)
    requires |ConsoleScripts| <= b < e && e + 1 == |c|
    requires c[..|ConsoleScripts|] == ConsoleScripts
    requires forall j :: |ConsoleScripts| <= j < b ==> c[j] != '['
    requires c[b] == '[' && c[e] == ']'
    requires forall j :: b < j < e ==> c[j] != ']'
    ensures ConsoleGroupsFrom(c, 0) == [c[b + 1..e]]
  {
    assert ConsoleScripts <= c[0..];
    assert RunEnd(c, |ConsoleScripts|, {'['}) == b;
    assert RunEnd(c, b + 1, {']'}) == e;
    assert ConsoleGroupAt(c, 0) == Some((b + 1, e));
  }

  /** A `console_scripts` list holding one item yields exactly that entry. */
  lemma ConsoleScriptRoundTrip(mid: string, q: char, name: string, target: string, r: char)
    requires '[' !in mid
    requires q in Quotes && r in Quotes
    requires name != "" && target != ""
    requires forall c :: c in name ==> c !in Quotes && c != ']'
    requires forall c :: c in target ==> c !in Quotes && c != '=' && c != ']'
    ensures SetupEntries(ConsoleGroupsFrom(ConsoleScripts + mid + "[" + ([q] + name + "=" + target + [r]) + "]", 0))
            == [CliEntry(name, target, "console_script")]
  {
    var g := [q] + name + "=" + target + [r];
    assert ']' !in g;
    ConsoleGroupOne(mid, g);
    QuotedScript(q, name, target, r);
    assert SetupEntries([g]) == SetupEntries([]) + ConsoleEntries([(name, target)]);
  }

  /** A `name = "module"` entry is read as that pair, its name not yet stripped. */
  lemma TableEntryPair(name: string, ws: string, q: char, target: string, r: char)
    requires name != "" && '=' !in name
    requires forall c :: c in ws ==> c in Whitespace
    requires q in Quotes && r in Quotes
    requires target != "" && forall c :: c in target ==> c !in Quotes
    ensures PairsFrom(name + "=" + ws + [q] + target + [r], 0) == [(name, target)]
  {
    var m := name + "=" + ws + [q] + target + [r];
    var eq := |name|;
    var qp := eq + 1 + |ws|;
    var e := |m| - 1;
    assert forall j :: 0 <= j < eq ==> m[j] == name[j];
    assert forall j :: eq < j < qp ==> m[j] == ws[j - eq - 1];
    assert forall j :: qp < j < e ==> m[j] == target[j - qp - 1];
    assert m[..eq] == name && m[eq] == '=' && m[qp] == q && m[qp + 1..e] == target && m[e] == r;
    PairAtIndices(m, eq, qp, e);
  }

  /** The first "=" at `eq`, the opening quote at `qp`, the closing one ending the text. */
  lemma PairAtIndices(m: string, eq: nat, qp: nat, e: nat)
    requires 0 < eq < qp && qp + 1 < e && e + 1 == |m|
    requires forall j :: 0 <= j < eq ==> m[j] != '='
    requires m[eq] == '=' && forall j :: eq < j < qp ==> m[j] in Whitespace
    requires m[qp] in Quotes && m[e] in Quotes
    requires forall j :: qp < j < e ==> m[j] !in Quotes
    ensures PairsFrom(m, 0) == [(m[..eq], m[qp + 1..e])]
  {
    PairFound(m, eq, qp, e);
    hide PairAt;
    assert PairsFrom(m, e + 1) == [];
  }

  /** The same indices read as one table entry that ends the text. */
  lemma PairFound(m: string, eq: nat, qp: nat, e: nat)
    requires 0 < eq < qp && qp + 1 < e && e + 1 == |m|
    requires forall j :: 0 <= j < eq ==> m[j] != '='
    requires m[eq] == '=' && forall j :: eq < j < qp ==> m[j] in Whitespace
    requires m[qp] in Quotes && m[e] in Quotes
    requires forall j :: qp < j < e ==> m[j] !in Quotes
    ensures PairAt(m, 0) == Some((m[..eq], m[qp + 1..e], e + 1))
  {
    RunEndAt(m, 0, {'='}, eq);
    SkipWhitespaceAt(m, eq + 1, qp);
    RunEndAt(m, qp + 1, Quotes, e);
    hide RunEnd, SkipWhitespace;
    assert m[0..eq] == m[..eq];
  }

  /** A header that occurs nowhere from `i` on yields no section. */
  lemma {:induction false} NoHeaderNoSections(c: string, i: nat, header: string)
    requires i <= |c| && |header| > 0
    requires forall j :: i <= j <= |c| ==> !(header <= c[j..])
    ensures SectionsFrom(c, i, header) == []
    decreases |c| - i
  {
    if i < |c| {
      NoHeaderNoSections(c, i + 1, header);
    }
  }

  /**
   * `[project.scripts]` on its own line, followed by one line that ends the
   * file, yields that line as the section.
   */
  lemma OneLineSection(body: string)
    requires body != "" && body[0] !in Whitespace && '\n' !in body
    ensures SectionsFrom(ProjectScripts + "\n" + body + "\n", 0, ProjectScripts) == [body]
  {
    var c := ProjectScripts + "\n" + body + "\n";
    var h := |ProjectScripts|;
    assert forall j :: h < j < |c| - 1 ==> c[j] == body[j - h - 1];
    assert c[..h] == ProjectScripts && c[h] == '\n' && c[h + 1] == body[0];
    assert c[h + 1..|c| - 1] == body && c[|c| - 1] == '\n';
    SectionAtIndices(c, h, |c| - 1);
  }

  lemma SectionAtIndices(c: string, h: nat, p: nat)
    requires h == |ProjectScripts| && h + 1 < p && p + 1 == |c|
    requires c[..h] == ProjectScripts && c[h] == '\n' && c[h + 1] !in Whitespace
    requires forall j :: h < j < p ==> c[j] != '\n'
    requires c[p] == '\n'
    ensures SectionsFrom(c, 0, ProjectScripts) == [c[h + 1..p]]
  {
    assert ProjectScripts <= c[0..];
    assert '\n' in Whitespace;
    assert SkipWhitespace(c, h) == h + 1;
    assert LastIndex(c, h, h + 1, '\n') == Some(h);
    assert SectionEndsAt(c, p);
    assert SectionEnd(c, h + 1) == Some(p);
    assert SectionAt(c, 0, ProjectScripts) == Some((h + 1, p));
    assert !(ProjectScripts <= c[p..]);
    assert SectionsFrom(c, p, ProjectScripts) == [];
  }

  /** Where "[" opens only the `[project.scripts]` header, no poetry table is found. */
  lemma NoPoetryTable(body: string)
    requires '[' !in body
    ensures SectionsFrom(ProjectScripts + "\n" + body + "\n", 0, PoetryScripts) == []
  {
    var c := ProjectScripts + "\n" + body + "\n";
    var h := |ProjectScripts|;
    assert forall j :: h < j < |c| - 1 ==> c[j] == body[j - h - 1];
    assert forall j :: 0 < j < |c| ==> c[j] != '[';
    assert c[1] == 'p';
    NoHeaderAfterStart(c);
  }

  lemma NoHeaderAfterStart(c: string)
    requires |c| > 1 && c[1] == 'p'
    requires forall j :: 0 < j < |c| ==> c[j] != '['
    ensures SectionsFrom(c, 0, PoetryScripts) == []
  {
    forall j | 0 <= j <= |c|
      ensures !(PoetryScripts <= c[j..])
    {
      if j == 0 {
        assert c[j..][1] != PoetryScripts[1];
      } else if j < |c| {
        assert c[j..][0] != PoetryScripts[0];
      }
    }
    NoHeaderNoSections(c, 0, PoetryScripts);
  }

  /**
   * A `pyproject.toml` holding only a `[project.scripts]` table with one
   * quoted entry yields that entry, name and module stripped.
   */
  lemma PyprojectRoundTrip(name: string, ws: string, q: char, target: string, r: char)
    requires name != "" && name[0] !in Whitespace
    requires forall c :: c in name ==> c != '=' && c != '\n' && c != '['
    requires forall c :: c in ws ==> c in Whitespace && c != '\n'
    requires q in Quotes && r in Quotes
    requires target != "" && forall c :: c in target ==> c !in Quotes && c != '\n' && c != '['
    ensures TableEntries(PyprojectSections(ProjectScripts + "\n" + (name + "=" + ws + [q] + target + [r]) + "\n"))
            == [CliEntry(Strip(name), Strip(target), "pyproject_script")]
  {
    var body := name + "=" + ws + [q] + target + [r];
    assert '\n' !in body && '[' !in body;
    OneLineSection(body);
    NoPoetryTable(body);
    TableEntryPair(name, ws, q, target, r);
    assert PyprojectSections(ProjectScripts + "\n" + body + "\n") == [body];
    assert TableEntries([body]) == TableEntries([]) + PyprojectEntries([(name, target)]);
  }

  /** The inner loop over one list's scripts: append a console-script entry for each. */
  method AppendConsoleScripts(cli: seq<CliEntry>, scripts: seq<(string, string)>) returns (out: seq<CliEntry>)
    ensures out == cli + ConsoleEntries(scripts)
  {
    out := cli;
    for j := 0 to |scripts|
      invariant out == cli + ConsoleEntries(scripts[..j])
    {
      assert scripts[..j + 1][..j] == scripts[..j];
      out := out + [ConsoleEntry(scripts[j])];
    }
    assert scripts[..|scripts|] == scripts;
  }

  /**
   * The loops of `_scan_entry_points` over `setup.py`: for each
   * `console_scripts` list, for each script in it, append an entry.
   */
  method ScanSetupPy(content: string) returns (cli: seq<CliEntry>)
    ensures cli == SetupEntries(ConsoleGroupsFrom(content, 0))
  {
    cli := [];
    var groups := ConsoleGroupsFrom(content, 0);
    for i := 0 to |groups|
      invariant cli == SetupEntries(groups[..i])
    {
      cli := AppendConsoleScripts(cli, ScriptsFrom(groups[i], 0));
      assert groups[..i + 1][..i] == groups[..i];
    }
    assert groups[..|groups|] == groups;
  }

  /** The inner loop over one table's entries: append a stripped entry for each. */
  method AppendTableScripts(cli: seq<CliEntry>, scripts: seq<(string, string)>) returns (out: seq<CliEntry>)
    ensures out == cli + PyprojectEntries(scripts)
  {
    out := cli;
    for j := 0 to |scripts|
      invariant out == cli + PyprojectEntries(scripts[..j])
    {
      assert scripts[..j + 1][..j] == scripts[..j];
      out := out + [PyprojectEntry(scripts[j])];
    }
    assert scripts[..|scripts|] == scripts;
  }

  /**
   * The loops over `pyproject.toml`: for each section pattern, for each
   * match, for each table entry in it, append a stripped entry.
   */
  method ScanPyproject(content: string) returns (cli: seq<CliEntry>)
    ensures cli == TableEntries(PyprojectSections(content))
  {
    cli := [];
    var sections := PyprojectSections(content);
    for i := 0 to |sections|
      invariant cli == TableEntries(sections[..i])
    {
      cli := AppendTableScripts(cli, PairsFrom(sections[i], 0));
      assert sections[..i + 1][..i] == sections[..i];
    }
    assert sections[..|sections|] == sections;
  }

  /** `_scan_entry_points`: each file that exists and can be read is scanned. */
  method ScanEntryPoints(setupPy: Option<string>, pyproject: Option<string>) returns (cli: seq<CliEntry>)
    ensures cli == EntryPointsOf(setupPy, pyproject)
  {
    var fromSetup: seq<CliEntry> := [];
    if setupPy.Some? {
      fromSetup := ScanSetupPy(setupPy.value);
    }
    var fromPyproject: seq<CliEntry> := [];
    if pyproject.Some? {
      fromPyproject := ScanPyproject(pyproject.value);
    }
    cli := fromSetup + fromPyproject;
  }
}
