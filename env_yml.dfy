/**
 * `_install_pip_from_env_yml`: the env stage reads the `- pip:` block of
 * each `environment.yml` it can find and installs every listed item with
 * the environment's interpreter, in order.  The block is what the pattern
 * `(?m)^\s*-\s*pip\s*:\s*\n([\s\S]*?)(?=^\S|\Z)` captures at its leftmost
 * match; the pattern is written out here as a scan over positions.
 */
module EnvYml {
  import opened Text
  import opened PipelineState
  import opened Shell

  /** A line that starts at `k` with a non-blank character: what `^\S` matches. */
  predicate MarginAt(t: string, k: nat)
    requires k < |t|
  {
    AtLineStart(t, k) && !IsSpace(t[k])
  }

  /** The end of the run of whitespace (`\s*`, greedy) that starts at `i`. */
  function SkipSpace(t: string, i: nat): (j: nat)
    requires i <= |t|
    ensures i <= j <= |t|
    ensures forall k :: i <= k < j ==> IsSpace(t[k])
    ensures j < |t| ==> !IsSpace(t[j])
    decreases |t| - i
  {
    if i < |t| && IsSpace(t[i]) then SkipSpace(t, i + 1) else i
  }

  /** The last newline in `t[i..j]`: where `\s*\n` stops after backtracking. */
  function LastNewline(t: string, i: nat, j: nat): (r: Option<nat>)
    requires i <= j <= |t|
    ensures r.Some? ==> i <= r.value < j && t[r.value] == '\n' && forall k :: r.value < k < j ==> t[k] != '\n'
    ensures r.None? ==> forall k :: i <= k < j ==> t[k] != '\n'
    decreases j - i
  {
    if j == i then None
    else if t[j - 1] == '\n' then Some(j - 1)
    else LastNewline(t, i, j - 1)
  }

  /** The first position at or after `i` where `(?=^\S|\Z)` holds. */
  function BlockEnd(t: string, i: nat): (q: nat)
    requires i <= |t|
    ensures i <= q <= |t|
    ensures q < |t| ==> MarginAt(t, q)
    ensures forall k :: i <= k < q ==> !MarginAt(t, k)
    decreases |t| - i
  {
    if i == |t| || MarginAt(t, i) then i else BlockEnd(t, i + 1)
  }

  /** A match of the pattern: where it starts, and the captured block `t[start..end]`. */
  datatype PipMatch = PipMatch(at: nat, start: nat, end: nat)

  /**
   * Where the header `\s*-\s*pip\s*:\s*\n` that starts at `p` ends, if it
   * matches there: optional whitespace and "-", then the rest of the header.
   */
  function HeaderEnd(t: string, p: nat): (h: Option<nat>)
    requires p <= |t|
    ensures h.Some? ==> p < h.value <= |t| && t[h.value - 1] == '\n'
  {
    var i := SkipSpace(t, p);
    if i < |t| && t[i] == '-' then AfterDash(t, i + 1) else None
  }

  /** `\s*pip` and the rest of the header. */
  function AfterDash(t: string, q: nat): (h: Option<nat>)
    requires q <= |t|
    ensures h.Some? ==> q < h.value <= |t| && t[h.value - 1] == '\n'
  {
    var j := SkipSpace(t, q);
    if j + 3 <= |t| && t[j..j + 3] == "pip" then AfterPip(t, j + 3) else None
  }

  /**
   * `\s*:` and then `\s*\n`: the whitespace after the colon up to and
   * including the last newline of that run.
   */
  function AfterPip(t: string, q: nat): (h: Option<nat>)
    requires q <= |t|
    ensures h.Some? ==> q < h.value <= |t| && t[h.value - 1] == '\n'
  {
    var k := SkipSpace(t, q);
    if k < |t| && t[k] == ':' then
      var n := LastNewline(t, k + 1, SkipSpace(t, k + 1));
      if n.Some? then Some(n.value + 1) else None
    else None
  }

  /**
   * The match of the pattern that starts at `p`, if any: the header, then
   * the lazily captured block, which stops at the first line that starts
   * with a non-blank character or at the end of the text.
   */
  function PipMatchAt(t: string, p: nat): (m: Option<PipMatch>)
    requires p <= |t|
    ensures m.Some? ==> m.value.at == p && p < m.value.start <= m.value.end <= |t|
    ensures m.Some? ==> AtLineStart(t, m.value.start)
    ensures m.Some? ==> forall k :: m.value.start <= k < m.value.end ==> !MarginAt(t, k)
    ensures m.Some? ==> m.value.end == |t| || MarginAt(t, m.value.end)
  {
    var h := HeaderEnd(t, p);
    if h.Some? then Some(PipMatch(p, h.value, BlockEnd(t, h.value))) else None
  }

  /** The pattern does not match at `q`: not a line start, or the text there does not fit. */
  predicate NoMatchAt(t: string, q: nat)
    requires q <= |t|
  {
    !AtLineStart(t, q) || HeaderEnd(t, q).None?
  }

  /** `re.search` from position `p`: the match at the first line start that has one. */
  function PipSearch(t: string, p: nat): (m: Option<PipMatch>)
    requires p <= |t|
    ensures m.Some? ==> p <= m.value.at <= |t| && AtLineStart(t, m.value.at) && PipMatchAt(t, m.value.at) == m
    decreases |t| - p
  {
    if AtLineStart(t, p) && PipMatchAt(t, p).Some? then PipMatchAt(t, p)
    else if p == |t| then None
    else PipSearch(t, p + 1)
  }

  /**
   * The search finds the leftmost match: the pattern matches at no line
   * start before the one found, and at none at all when nothing is found.
   */
  lemma {:induction false} PipSearchLeftmost(t: string, p: nat)
    requires p <= |t|
    ensures var m := PipSearch(t, p);
            && (m.Some? ==> forall q :: p <= q < m.value.at ==> NoMatchAt(t, q))
            && (m.None? ==> forall q :: p <= q <= |t| ==> NoMatchAt(t, q))
    decreases |t| - p
  {
    hide PipSearch, PipMatchAt, HeaderEnd;
    PipSearchStep(t, p);
    if NoMatchAt(t, p) && p < |t| {
      PipSearchLeftmost(t, p + 1);
    }
  }

  /** The search tries `p` first and moves on when the pattern does not match there. */
  lemma PipSearchStep(t: string, p: nat)
    requires p <= |t|
    ensures !NoMatchAt(t, p) ==> PipSearch(t, p).Some? && PipSearch(t, p).value.at == p
    ensures NoMatchAt(t, p) && p == |t| ==> PipSearch(t, p).None?
    ensures NoMatchAt(t, p) && p < |t| ==> PipSearch(t, p) == PipSearch(t, p + 1)
  {
  }

  /** `m.group(1)` of the leftmost match, if the text has one. */
  function PipBlock(t: string): Option<string>
  {
    var m := PipSearch(t, 0);
    if m.Some? then Some(t[m.value.start..m.value.end]) else None
  }

  /** The characters of `s` that are not whitespace. */
  function NonSpace(s: string): (r: string)
    ensures |r| <= |s|
  {
    if s == [] then [] else (if IsSpace(s[0]) then [] else [s[0]]) + NonSpace(s[1..])
  }

  lemma {:induction false} NonSpaceAppend(a: string, b: string)
    ensures NonSpace(a + b) == NonSpace(a) + NonSpace(b)
    decreases |a|
  {
    if a == [] {
      assert a + b == b;
    } else {
      assert (a + b)[0] == a[0] && (a + b)[1..] == a[1..] + b;
      NonSpaceAppend(a[1..], b);
    }
  }

  lemma {:induction false} NonSpaceBlank(s: string)
    requires forall k :: 0 <= k < |s| ==> IsSpace(s[k])
    ensures NonSpace(s) == ""
    decreases |s|
  {
    if s != [] {
      NonSpaceBlank(s[1..]);
    }
  }

  lemma {:induction false} NonSpaceSolid(s: string)
    requires forall k :: 0 <= k < |s| ==> !IsSpace(s[k])
    ensures NonSpace(s) == s
    decreases |s|
  {
    if s != [] {
      NonSpaceSolid(s[1..]);
    }
  }

  lemma NonSpaceSplit(t: string, a: nat, b: nat, c: nat)
    requires a <= b <= c <= |t|
    ensures NonSpace(t[a..c]) == NonSpace(t[a..b]) + NonSpace(t[b..c])
  {
    assert t[a..c] == t[a..b] + t[b..c];
    NonSpaceAppend(t[a..b], t[b..c]);
  }

  /** Whitespace, one non-blank character, whitespace. */
  lemma NonSpaceAround(t: string, i: nat, j: nat, c: char)
    requires i <= j < |t| && t[j] == c && !IsSpace(c)
    requires forall k :: i <= k < j ==> IsSpace(t[k])
    ensures NonSpace(t[i..j + 1]) == [c]
  {
    NonSpaceBlank(t[i..j]);
    NonSpaceAppend(t[i..j], [c]);
    assert t[i..j + 1] == t[i..j] + [c];
  }

  /** The non-blank characters of a matched header spell "-pip:". */
  lemma PipMatchHeader(t: string, p: nat)
    requires p <= |t| && HeaderEnd(t, p).Some?
    ensures NonSpace(t[p..HeaderEnd(t, p).value]) == "-pip:"
  {
    hide NonSpace, HeaderEnd, AfterDash, AfterPip, SkipSpace;
    DashOpens(t, p);
    var i := SkipSpace(t, p);
    AfterDashHeader(t, i + 1);
    JoinHeader(t, p, i + 1, HeaderEnd(t, p).value);
  }

  /** The dash and the rest of a header, together. */
  lemma JoinHeader(t: string, p: nat, j: nat, h: nat)
    requires p <= j <= h <= |t| && NonSpace(t[p..j]) == "-" && NonSpace(t[j..h]) == "pip:"
    ensures NonSpace(t[p..h]) == "-pip:"
  {
    NonSpaceSplit(t, p, j, h);
  }

  /** A header opens with blanks and a dash; what follows the dash ends where the header does. */
  lemma DashOpens(t: string, p: nat)
    requires p <= |t| && HeaderEnd(t, p).Some?
    ensures var i := SkipSpace(t, p);
            i < |t| && NonSpace(t[p..i + 1]) == "-" && AfterDash(t, i + 1) == HeaderEnd(t, p)
  {
    var i := SkipSpace(t, p);
    NonSpaceAround(t, p, i, '-');
  }

  lemma AfterDashHeader(t: string, q: nat)
    requires q <= |t| && AfterDash(t, q).Some?
    ensures NonSpace(t[q..AfterDash(t, q).value]) == "pip:"
  {
    hide NonSpace;
    var j := SkipSpace(t, q);
    assert AfterDash(t, q) == AfterPip(t, j + 3);
    hide AfterDash, AfterPip;
    var h := AfterPip(t, j + 3).value;
    NonSpaceBlank(t[q..j]);
    PipWord(t, j);
    AfterPipHeader(t, j + 3);
    NonSpaceSplit(t, j, j + 3, h);
    NonSpaceSplit(t, q, j, h);
    assert AfterDash(t, q).value == h;
    assert NonSpace(t[q..h]) == "" + "pip" + ":";
  }

  lemma PipWord(t: string, j: nat)
    requires j + 3 <= |t| && t[j..j + 3] == "pip"
    ensures NonSpace(t[j..j + 3]) == "pip"
  {
    NonSpaceSolid("pip");
  }

  lemma AfterPipHeader(t: string, q: nat)
    requires q <= |t| && AfterPip(t, q).Some?
    ensures NonSpace(t[q..AfterPip(t, q).value]) == ":"
  {
    hide NonSpace;
    var k := SkipSpace(t, q);
    var n := LastNewline(t, k + 1, SkipSpace(t, k + 1)).value;
    NonSpaceAround(t, q, k, ':');
    NonSpaceBlank(t[k + 1..n + 1]);
    NonSpaceSplit(t, q, k + 1, n + 1);
  }

  /** Every line of `b` starts with a blank character. */
  predicate IndentedLines(b: string)
  {
    forall k :: 0 <= k < |b| && AtLineStart(b, k) ==> IsSpace(b[k])
  }

  /**
   * The captured block: every line in it starts with whitespace, and it runs
   * to the end of the text or to the next line that starts at the margin.
   */
  lemma PipBlockShape(t: string)
    requires PipBlock(t).Some?
    ensures var b := PipBlock(t).value;
            IndentedLines(b) && (b == [] || b[|b| - 1] == '\n' || EndsWith(t, b))
  {
    var m := PipSearch(t, 0).value;
    BlockLines(t, m.start, m.end);
  }

  lemma BlockLines(t: string, start: nat, end: nat)
    requires 0 < start <= end <= |t| && AtLineStart(t, start)
    requires forall k :: start <= k < end ==> !MarginAt(t, k)
    requires end == |t| || MarginAt(t, end)
    ensures var b := t[start..end];
            IndentedLines(b) && (b == [] || b[|b| - 1] == '\n' || EndsWith(t, b))
  {
    var b := t[start..end];
    forall k | 0 <= k < |b| && AtLineStart(b, k)
      ensures IsSpace(b[k])
    {
      assert b[k] == t[start + k];
      if k > 0 {
        assert b[k - 1] == t[start + k - 1];
      }
      assert AtLineStart(t, start + k) && !MarginAt(t, start + k);
    }
    assert IndentedLines(b);
    if b != [] && end < |t| {
      assert b[|b| - 1] == t[end - 1];
    }
  }

  /** One line of the block: "- item" gives `item` with its dashes and blanks removed. */
  function LineItem(line: string): (r: seq<string>)
    ensures |r| <= 1
  {
    var s := Strip(line);
    if |s| > 0 && s[0] == '-' then
      var pkg := Strip(StripLeft(s, {'-'}));
      if pkg != "" then [pkg] else []
    else []
  }

  /** The items of a sequence of lines, in order. */
  function LinesItems(lines: seq<string>): seq<string>
  {
    if lines == [] then [] else LineItem(lines[0]) + LinesItems(lines[1..])
  }

  /** The packages the block of one file lists. */
  function PipItems(block: string): seq<string>
  {
    LinesItems(SplitOn(block, '\n'))
  }

  /** An item a hand-written block would list: non-empty, unpadded, one line, no leading dash. */
  predicate PlainItem(x: string)
  {
    x != "" && !IsSpace(x[0]) && !IsSpace(x[|x| - 1]) && '\n' !in x && x[0] != '-'
  }

  /** The block `  - x` per item, one per line. */
  function RenderItems(items: seq<string>): string
  {
    if items == [] then "" else "  - " + items[0] + "\n" + RenderItems(items[1..])
  }

  /** A rendered line gives back its item. */
  lemma PlainLineItem(x: string)
    requires PlainItem(x)
    ensures LineItem("  - " + x) == [x]
  {
    StripRendered(x);
    DashRemoved(x);
    BlankRemoved(x);
  }

  lemma StripRendered(x: string)
    requires PlainItem(x)
    ensures Strip("  - " + x) == "- " + x
  {
    var y := "- " + x;
    assert "  - " + x == "  " + y;
    assert y[0] !in Whitespace;
    StripLeftBlanks("  ", y);
    assert y[|y| - 1] == x[|x| - 1];
    assert y[|y| - 1] !in Whitespace;
  }

  /** Leading blanks before a non-blank character are all that `lstrip` removes. */
  lemma {:induction false} StripLeftBlanks(a: string, y: string)
    requires forall k :: 0 <= k < |a| ==> a[k] in Whitespace
    requires y != [] && y[0] !in Whitespace
    ensures StripLeft(a + y, Whitespace) == y
    decreases |a|
  {
    if a == [] {
      assert a + y == y;
    } else {
      assert (a + y)[0] == a[0] && (a + y)[1..] == a[1..] + y;
      StripLeftBlanks(a[1..], y);
    }
  }

  lemma DashRemoved(x: string)
    requires PlainItem(x)
    ensures StripLeft("- " + x, {'-'}) == " " + x
  {
    assert ("- " + x)[1..] == " " + x;
  }

  lemma BlankRemoved(x: string)
    requires PlainItem(x)
    ensures Strip(" " + x) == x
  {
    assert x[0] !in Whitespace;
    StripLeftBlanks(" ", x);
    assert x[|x| - 1] !in Whitespace;
  }

  /** Reading a rendered block lists its items again, in order. */
  lemma {:induction false} PipItemsRender(items: seq<string>)
    requires forall x :: x in items ==> PlainItem(x)
    ensures PipItems(RenderItems(items)) == items
    decreases |items|
  {
    if items == [] {
      assert SplitOn("", '\n') == [""];
      assert LineItem("") == [] by {
        assert Strip("") == "";
      }
    } else {
      var x := items[0];
      assert PlainItem(x) by {
        assert x in items;
      }
      PipItemsRender(items[1..]);
      assert RenderItems(items) == ("  - " + x) + "\n" + RenderItems(items[1..]);
      hide RenderItems, PlainItem;
      RenderedLineFirst(x, RenderItems(items[1..]));
    }
  }

  /** A rendered line in front of a block adds its item in front of the block's. */
  lemma RenderedLineFirst(x: string, rest: string)
    requires PlainItem(x)
    ensures PipItems(("  - " + x) + "\n" + rest) == [x] + PipItems(rest)
  {
    assert '\n' !in "  - " + x;
    PlainLineItem(x);
    hide LineItem, Strip, PlainItem;
    SplitOnFirst("  - " + x, '\n', rest);
    LinesItemsCons("  - " + x, SplitOn(rest, '\n'));
  }

  /** The items of a line followed by more lines. */
  lemma LinesItemsCons(line: string, lines: seq<string>)
    ensures LinesItems([line] + lines) == LineItem(line) + LinesItems(lines)
  {
    assert ([line] + lines)[1..] == lines;
  }

  /** The packages the pip block of one file's text lists (none without a block). */
  function TextItems(text: string): seq<string>
  {
    var b := PipBlock(text);
    if b.Some? then PipItems(b.value) else []
  }

  /**
   * The packages of every existing file, in order; `None` when reading a file
   * fails, which abandons the whole function.  `read(y)` is the text of `y`,
   * or `None` when opening or decoding it raises.
   */
  function CollectPips(paths: seq<string>, disk: Disk, read: string -> Option<string>): Option<seq<string>>
  {
    if paths == [] then Some([])
    else
      var y := paths[0];
      var rest := CollectPips(paths[1..], disk, read);
      if y == "" || y !in disk.files then rest
      else if read(y).None? || rest.None? then None
      else Some(TextItems(read(y).value) + rest.value)
  }

  /** `python -m pip install ...` for one item; "-r X" and "--requirement X" install a requirements file. */
  function PipInstall(python: seq<string>, p: string): seq<string>
  {
    if "-r " <= p then python + ["-m", "pip", "install", "-r", Strip(p[2..])]
    else if "--requirement " <= p then python + ["-m", "pip", "install", "-r", Strip(p[13..])]
    else python + ["-m", "pip", "install", p]
  }

  /** A requirements reference, written either way, installs that file; anything else installs itself. */
  lemma PipInstallForms(python: seq<string>, x: string)
    requires x != "" && !IsSpace(x[0]) && Strip(x) == x
    ensures PipInstall(python, "-r " + x) == python + ["-m", "pip", "install", "-r", x]
    ensures PipInstall(python, "--requirement " + x) == python + ["-m", "pip", "install", "-r", x]
    ensures !("-r " <= x) && !("--requirement " <= x) ==> PipInstall(python, x) == python + ["-m", "pip", "install", x]
  {
    hide Strip, StripChars, StripLeft, StripRight, PipInstall;
    StripBlankPrefixed(x);
    ShortRequirement(python, x);
    LongRequirement(python, x);
    if !("-r " <= x) && !("--requirement " <= x) {
      PlainInstall(python, x);
    }
  }

  lemma PlainInstall(python: seq<string>, x: string)
    requires !("-r " <= x) && !("--requirement " <= x)
    ensures PipInstall(python, x) == python + ["-m", "pip", "install", x]
  {
  }

  lemma ShortRequirement(python: seq<string>, x: string)
    ensures PipInstall(python, "-r " + x) == python + ["-m", "pip", "install", "-r", Strip(" " + x)]
  {
    hide Strip;
    assert ("-r " + x)[2..] == " " + x;
  }

  lemma LongRequirement(python: seq<string>, x: string)
    ensures PipInstall(python, "--requirement " + x) == python + ["-m", "pip", "install", "-r", Strip(" " + x)]
  {
    hide Strip;
    var q := "--requirement " + x;
    assert !("-r " <= q) by {
      assert q[1] == '-';
    }
    assert q[13..] == " " + x;
  }

  /** A blank before a word changes nothing `strip` leaves. */
  lemma StripBlankPrefixed(x: string)
    requires x != "" && !IsSpace(x[0])
    ensures Strip(" " + x) == Strip(x)
  {
    StripLeftUnchanged(x);
    StripLeftBlanks(" ", x);
  }

  lemma StripLeftUnchanged(x: string)
    requires x != "" && !IsSpace(x[0])
    ensures StripLeft(x, Whitespace) == x
  {
    assert x[0] !in Whitespace;
  }

  /** One install per item, in order. */
  function InstallCommands(python: seq<string>, pkgs: seq<string>): (r: seq<seq<string>>)
    ensures |r| == |pkgs|
  {
    if pkgs == [] then [] else InstallCommands(python, pkgs[..|pkgs| - 1]) + [PipInstall(python, pkgs[|pkgs| - 1])]
  }

  /** The k-th install is the k-th item's. */
  lemma {:induction false} InstallCommandsAt(python: seq<string>, pkgs: seq<string>, k: nat)
    requires k < |pkgs|
    ensures InstallCommands(python, pkgs)[k] == PipInstall(python, pkgs[k])
    decreases |pkgs|
  {
    if k < |pkgs| - 1 {
      InstallCommandsAt(python, pkgs[..|pkgs| - 1], k);
    }
  }

  /** What the function runs: nothing when a read failed or nothing was listed. */
  function PipInstallCommands(python: seq<string>, paths: seq<string>, disk: Disk,
                              read: string -> Option<string>): seq<seq<string>>
  {
    var pkgs := CollectPips(paths, disk, read);
    if pkgs.Some? then InstallCommands(python, pkgs.value) else []
  }

  /**
   * `_install_pip_from_env_yml(python_cmd, yml_paths, cwd)`: it collects the
   * items of every file, then installs them one by one; any failure is
   * swallowed, so it always returns.
   */
  method InstallPipFromEnvYml(sh: Shell, python: seq<string>, paths: seq<string>, disk: Disk,
                              read: string -> Option<string>)
    modifies sh
    ensures sh.log == old(sh.log) + PipInstallCommands(python, paths, disk, read)
  {
    var pkgs := CollectPackages(paths, disk, read);
    if pkgs.Some? {
      InstallAll(sh, python, pkgs.value);
    } else {
      assert sh.log == old(sh.log) + [];
    }
  }

  /** The second loop: one install per item, in order. */
  method InstallAll(sh: Shell, python: seq<string>, items: seq<string>)
    modifies sh
    ensures sh.log == old(sh.log) + InstallCommands(python, items)
  {
    hide InstallCommands, PipInstall;
    var j := 0;
    InstallCommandsStep(python, items, 0);
    while j < |items|
      invariant j <= |items|
      invariant sh.log == old(sh.log) + InstallCommands(python, items[..j])
    {
      InstallCommandsStep(python, items, j + 1);
      var _ := sh.Run(PipInstall(python, items[j]));
      j := j + 1;
    }
    assert items[..j] == items;
  }

  /** The installs for the first `j` items: none for none, otherwise those before the last, then its own. */
  lemma InstallCommandsStep(python: seq<string>, items: seq<string>, j: nat)
    requires j <= |items|
    ensures j == 0 ==> InstallCommands(python, items[..j]) == []
    ensures j > 0 ==> InstallCommands(python, items[..j]) == InstallCommands(python, items[..j - 1]) + [PipInstall(python, items[j - 1])]
  {
    hide PipInstall;
    assert j > 0 ==> items[..j][..j - 1] == items[..j - 1];
  }

  /** The first loop: the items of every existing file, or `None` once a read fails. */
  method CollectPackages(paths: seq<string>, disk: Disk, read: string -> Option<string>)
    returns (pkgs: Option<seq<string>>)
    ensures pkgs == CollectPips(paths, disk, read)
  {
    var found: seq<string> := [];
    var i := 0;
    PrependNothing(CollectPips(paths, disk, read));
    assert paths[0..] == paths;
    while i < |paths|
      invariant i <= |paths|
      invariant CollectPips(paths, disk, read) == Prepend(found, CollectPips(paths[i..], disk, read))
    {
      hide CollectPips, TextItems;
      CollectStep(paths, i, disk, read);
      var y := paths[i];
      if y != "" && y in disk.files {
        var text := read(y);
        if text.None? {
          return None;
        }
        var items := BlockPackages(text.value);
        PrependTwice(found, items, CollectPips(paths[i + 1..], disk, read));
        found := found + items;
      }
      i := i + 1;
    }
    assert paths[i..] == [] && found + [] == found;
    return Some(found);
  }

  /** One file of `CollectPips`, from position `i` on. */
  lemma CollectStep(paths: seq<string>, i: nat, disk: Disk, read: string -> Option<string>)
    requires i < |paths|
    ensures var y := paths[i];
            var rest := CollectPips(paths[i + 1..], disk, read);
            CollectPips(paths[i..], disk, read)
            == if y == "" || y !in disk.files then rest
               else if read(y).None? || rest.None? then None
               else Some(TextItems(read(y).value) + rest.value)
  {
    assert paths[i..][0] == paths[i] && paths[i..][1..] == paths[i + 1..];
  }

  lemma PrependNothing(o: Option<seq<string>>)
    ensures Prepend([], o) == o
  {
    if o.Some? {
      assert [] + o.value == o.value;
    }
  }

  lemma PrependTwice(a: seq<string>, b: seq<string>, o: Option<seq<string>>)
    ensures Prepend(a + b, o) == Prepend(a, if o.Some? then Some(b + o.value) else None)
  {
    if o.Some? {
      assert a + b + o.value == a + (b + o.value);
    }
  }

  /** `prefix + rest`, when there is a rest. */
  function Prepend(prefix: seq<string>, rest: Option<seq<string>>): Option<seq<string>>
  {
    if rest.Some? then Some(prefix + rest.value) else None
  }

  /** The items of the pip block of one file's text. */
  method BlockPackages(text: string) returns (pkgs: seq<string>)
    ensures pkgs == TextItems(text)
  {
    var b := PipBlock(text);
    if b.None? {
      return [];
    }
    pkgs := LinesPackages(SplitOn(b.value, '\n'));
  }

  /** The inner loop: an item for every "- item" line, in order. */
  method LinesPackages(lines: seq<string>) returns (pkgs: seq<string>)
    ensures pkgs == LinesItems(lines)
  {
    assert LinesItems([]) == [];
    hide LinesItems, LineItem;
    pkgs := [];
    var i := 0;
    assert lines[0..] == lines;
    while i < |lines|
      invariant i <= |lines|
      invariant pkgs + LinesItems(lines[i..]) == LinesItems(lines)
    {
      LinesStep(lines, i, pkgs);
      pkgs := pkgs + LineItem(lines[i]);
      i := i + 1;
    }
    assert lines[i..] == [] && pkgs + [] == pkgs;
  }

  /** Taking one more line's item keeps the items collected so far followed by the rest. */
  lemma LinesStep(lines: seq<string>, i: nat, pkgs: seq<string>)
    requires i < |lines|
    ensures (pkgs + LineItem(lines[i])) + LinesItems(lines[i + 1..]) == pkgs + LinesItems(lines[i..])
  {
    hide LinesItems, LineItem;
    SliceHead(lines, i);
    LinesItemsCons(lines[i], lines[i + 1..]);
    AssociateThree(pkgs, LineItem(lines[i]), LinesItems(lines[i + 1..]));
  }
}
