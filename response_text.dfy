/**
 * Reading the generation service's replies on the repair path: fence
 * stripping, the file path and the new file body a reply names, source
 * sanitising, the "cannot import name" message, and the first `.py` path in
 * an error text.  Each regular expression is modelled with Python's matching
 * rules: leftmost match, greedy or lazy repetition with backtracking, `^`
 * and `$` at line boundaries under MULTILINE, and `\s` matching any
 * whitespace including newlines.
 */
module ResponseText {
  import opened Text
  import opened PipelineState

  const Fence: string := "```"

  // ---------------------------------------------------------------------------
  // Fence stripping
  // ---------------------------------------------------------------------------

  /** `re.sub(r'^```(?:python)?\s*\n?', '', s)`: an opening fence, its tag and the blank run after it. */
  function RemoveLeadingFence(s: string): (r: string)
    ensures !(Fence <= s) ==> r == s
    ensures Fence <= s ==> |r| <= |s| - 3 && (|r| > 0 ==> r[0] !in Whitespace)
  {
    if Fence <= s then
      var t := s[3..];
      StripLeft(if "python" <= t then t[6..] else t, Whitespace)
    else s
  }

  /** `re.sub(r'\n?\s*```\s*$', '', s)`: a closing fence with the blank runs around it. */
  function RemoveTrailingFence(s: string): (r: string)
    ensures r <= s
  {
    var u := StripRight(s, Whitespace);
    if EndsWith(u, Fence) then StripRight(u[..|u| - 3], Whitespace) else s
  }

  /**
   * `_strip_code_fences` (and the identical `_clean_llm_output`): at most one
   * opening and one closing fence removed, then the ends trimmed.
   */
  function StripCodeFences(content: string): (r: string)
    ensures |r| <= |content|
    ensures |r| > 0 ==> r[0] !in Whitespace && r[|r| - 1] !in Whitespace
  {
    Strip(RemoveTrailingFence(RemoveLeadingFence(content)))
  }

  /** A text without backticks is only trimmed. */
  lemma StripCodeFencesPlain(s: string)
    requires '`' !in s
    ensures StripCodeFences(s) == Strip(s)
  {
    var u := StripRight(s, Whitespace);
    assert |u| > 0 ==> u[|u| - 1] == s[|u| - 1] && u[|u| - 1] in s;
  }

  /** Everything after an opening fence, as the leading pattern sees it. */
  lemma AfterFence(x: string)
    ensures RemoveLeadingFence(Fence + x) == StripLeft(if "python" <= x then x[6..] else x, Whitespace)
  {
    assert (Fence + x)[3..] == x;
  }

  lemma PythonTag(v: string)
    ensures "python" <= "python" + v && ("python" + v)[6..] == v
  {
  }

  lemma NoTag(w: string)
    ensures !("python" <= "\n" + w)
  {
    assert ("\n" + w)[0] == '\n';
  }

  lemma LeadingPythonFence(w: string)
    ensures RemoveLeadingFence(Fence + ("python" + ("\n" + w))) == StripLeft(w, Whitespace)
  {
    var v := "\n" + w;
    AfterFence("python" + v);
    PythonTag(v);
    StripLeftOne(v, w);
  }

  lemma LeadingBareFence(w: string)
    ensures RemoveLeadingFence(Fence + ("" + ("\n" + w))) == StripLeft(w, Whitespace)
  {
    var v := "\n" + w;
    assert "" + v == v;
    AfterFence(v);
    NoTag(w);
    StripLeftOne(v, w);
  }

  lemma Wrapped(body: string, tag: string)
    ensures Fence + tag + "\n" + body + "\n" + Fence == Fence + (tag + ("\n" + (body + ("\n" + Fence))))
  {
  }

  /** The opening fence and the newline after it go, with the body's leading blanks. */
  lemma LeadingFenceOfWrapped(body: string, tag: string)
    requires tag == "python" || tag == ""
    ensures RemoveLeadingFence(Fence + tag + "\n" + body + "\n" + Fence)
            == StripLeft(body + ("\n" + Fence), Whitespace)
  {
    Wrapped(body, tag);
    if tag == "python" {
      LeadingPythonFence(body + ("\n" + Fence));
    } else {
      LeadingBareFence(body + ("\n" + Fence));
    }
  }

  /** A leading blank goes with the rest of the blank run. */
  lemma StripLeftOne(v: string, w: string)
    requires v == "\n" + w
    ensures StripLeft(v, Whitespace) == StripLeft(w, Whitespace)
  {
    assert v[0] in Whitespace;
    assert v[1..] == w;
  }

  /** A text that does not end in a blank is its own right strip. */
  lemma StripRightKept(x: string)
    requires |x| > 0 && x[|x| - 1] !in Whitespace
    ensures StripRight(x, Whitespace) == x
  {
  }

  /** The closing fence, and only it, is what a text ending in a fence loses. */
  lemma DropFence(l: string)
    ensures (l + "\n" + Fence)[..|l + "\n" + Fence| - 3] == l + "\n"
    ensures EndsWith(l + "\n" + Fence, Fence)
  {
    var x := l + "\n" + Fence;
    assert x[|x| - 3..] == Fence;
  }

  /** A lone newline strips to nothing. */
  lemma StripNewline()
    ensures StripRight("\n", Whitespace) == ""
  {
    assert "\n"[..0] == "";
  }

  /** A fence on its own leaves nothing. */
  lemma BareFence()
    ensures RemoveTrailingFence(Fence) == ""
  {
    StripRightKept(Fence);
    assert Fence[..0] == "";
  }

  /** A closing fence after a trimmed text goes, with the blanks before it. */
  lemma TrailingFenceAfter(l: string)
    ensures RemoveTrailingFence(l + "\n" + Fence) == StripRight(l, Whitespace)
  {
    var x := l + "\n" + Fence;
    assert x[|x| - 1] == '`';
    StripRightKept(x);
    DropFence(l);
    StripRightAppend(l, "\n", Whitespace);
    StripNewline();
  }

  /** A body wrapped in a ```python (or bare ```) fence comes back trimmed. */
  lemma StripCodeFencesWrapped(body: string, tag: string)
    requires tag == "python" || tag == ""
    ensures StripCodeFences(Fence + tag + "\n" + body + "\n" + Fence) == Strip(body)
  {
    LeadingFenceOfWrapped(body, tag);
    StripLeftAppend(body, "\n" + Fence, Whitespace);
    var l := StripLeft(body, Whitespace);
    if l != "" {
      assert l + ("\n" + Fence) == l + "\n" + Fence;
      TrailingFenceAfter(l);
    } else {
      StripLeftOne("\n" + Fence, Fence);
      assert StripLeft(Fence, Whitespace) == Fence;
      BareFence();
    }
  }

  // ---------------------------------------------------------------------------
  // Scanning helpers
  // ---------------------------------------------------------------------------

  /** End of the whitespace run starting at `i`. */
  function SkipWhitespace(s: string, i: nat): (k: nat)
    requires i <= |s|
    ensures i <= k <= |s|
    ensures forall j :: i <= j < k ==> s[j] in Whitespace
    ensures k < |s| ==> s[k] !in Whitespace
    decreases |s| - i
  {
    if i < |s| && s[i] in Whitespace then SkipWhitespace(s, i + 1) else i
  }

  /** First index at or after `i` holding one of `stops`, or `|s|`. */
  function RunEnd(s: string, i: nat, stops: set<char>): (k: nat)
    requires i <= |s|
    ensures i <= k <= |s|
    ensures forall j :: i <= j < k ==> s[j] !in stops
    ensures k < |s| ==> s[k] in stops
    decreases |s| - i
  {
    if i < |s| && s[i] !in stops then RunEnd(s, i + 1, stops) else i
  }

  /** The run ends at the first stop character, wherever the caller knows it to be. */
  lemma RunEndAt(s: string, i: nat, stops: set<char>, k: nat)
    requires i <= k <= |s|
    requires forall j :: i <= j < k ==> s[j] !in stops
    requires k < |s| ==> s[k] in stops
    ensures RunEnd(s, i, stops) == k
  {
    hide RunEnd;
  }

  /** The same for a run of whitespace. */
  lemma SkipWhitespaceAt(s: string, i: nat, k: nat)
    requires i <= k <= |s|
    requires forall j :: i <= j < k ==> s[j] in Whitespace
    requires k < |s| ==> s[k] !in Whitespace
    ensures SkipWhitespace(s, i) == k
  {
    hide SkipWhitespace;
  }

  /**
   * The largest `p` in `[lo, hi]` where a character outside `stops` stands:
   * where a greedy `\s*` gives back characters until a `[^stops]+` group can
   * start.
   */
  function LastAllowed(s: string, lo: nat, hi: nat, stops: set<char>): (r: Option<nat>)
    requires lo <= hi <= |s|
    ensures r.Some? ==> lo <= r.value <= hi && r.value < |s| && s[r.value] !in stops
    ensures r.Some? ==> forall q :: r.value < q <= hi && q < |s| ==> s[q] in stops
    ensures r.None? ==> forall q :: lo <= q <= hi && q < |s| ==> s[q] in stops
    decreases hi
  {
    if hi < |s| && s[hi] !in stops then Some(hi)
    else if hi == lo then None
    else LastAllowed(s, lo, hi - 1, stops)
  }

  // ---------------------------------------------------------------------------
  // File path
  // ---------------------------------------------------------------------------

  const FilePathLabel: string := "File path:"

  /** Characters a labelled path may not contain: `[^\n`"']`. */
  const PathStops: set<char> := {'\n', '`', '"', '\''}

  /** `File path:\s*([^\n`"']+)` tried at a label at `i`, the group trimmed. */
  function LabelledPathAt(s: string, i: nat): (r: Option<string>)
    requires i + |FilePathLabel| <= |s| && s[i..i + |FilePathLabel|] == FilePathLabel
    ensures r.Some? ==> forall c :: c in r.value ==> c !in PathStops
  {
    var a := i + |FilePathLabel|;
    var e := SkipWhitespace(s, a);
    match LastAllowed(s, a, e, PathStops)
    case None => None
    case Some(p) =>
      var g := s[p..RunEnd(s, p, PathStops)];
      StripKeepsChars(g);
      Some(Strip(g))
  }

  /** The leftmost label from `i` on at which the first pattern matches. */
  function SearchLabelledPath(s: string, i: nat): (r: Option<string>)
    requires i <= |s|
    ensures r.Some? ==> forall c :: c in r.value ==> c !in PathStops
    decreases |s| - i
  {
    if i + |FilePathLabel| <= |s| && s[i..i + |FilePathLabel|] == FilePathLabel
       && LabelledPathAt(s, i).Some?
    then LabelledPathAt(s, i)
    else if i == |s| then None
    else SearchLabelledPath(s, i + 1)
  }

  /**
   * `^\+\+\+\s+([ab]/)?([^\n]+)$` tried at a line start holding "+++":
   * where group 2 starts.  The `a/` or `b/` prefix is taken only when the
   * whitespace run is kept whole and something follows the prefix on the line.
   */
  function PatchGroupStart(s: string, i: nat): (r: Option<nat>)
    requires i + 3 <= |s| && s[i..i + 3] == "+++"
    ensures r.Some? ==> r.value < |s| && s[r.value] != '\n'
  {
    var a := i + 3;
    var e := SkipWhitespace(s, a);
    if e == a then None
    else
      match LastAllowed(s, a + 1, e, {'\n'})
      case None => None
      case Some(p) =>
        if p == e && e + 2 < |s| && (s[e] == 'a' || s[e] == 'b') && s[e + 1] == '/' && s[e + 2] != '\n'
        then Some(e + 2) else Some(p)
  }

  /** Group 2 of the patch header, trimmed. */
  function PatchPathAt(s: string, i: nat): (r: Option<string>)
    requires i + 3 <= |s| && s[i..i + 3] == "+++"
    ensures r.Some? ==> '\n' !in r.value
  {
    match PatchGroupStart(s, i)
    case None => None
    case Some(start) =>
      var g := s[start..RunEnd(s, start, {'\n'})];
      StripKeepsChars(g);
      Some(Strip(g))
  }

  function SearchPatchPath(s: string, i: nat): (r: Option<string>)
    requires i <= |s|
    ensures r.Some? ==> '\n' !in r.value
    decreases |s| - i
  {
    if AtLineStart(s, i) && i + 3 <= |s| && s[i..i + 3] == "+++" && PatchPathAt(s, i).Some?
    then PatchPathAt(s, i)
    else if i == |s| then None
    else SearchPatchPath(s, i + 1)
  }

  /**
   * `_extract_file_path`: the trimmed text after the first usable
   * "File path:" label, else the path of the first usable "+++" line, else
   * nothing.  The path never spans a line.
   */
  function ExtractFilePath(text: string): (r: Option<string>)
    ensures r.Some? ==> '\n' !in r.value
    ensures SearchLabelledPath(text, 0).Some? ==> r == SearchLabelledPath(text, 0)
  {
    var labelled := SearchLabelledPath(text, 0);
    if labelled.Some? then labelled else SearchPatchPath(text, 0)
  }

  /** The protocol's first line gives back the path written on it. */
  lemma ExtractFilePathRoundTrip(path: string, body: string)
    requires |path| > 0 && path[0] !in Whitespace && path[|path| - 1] !in Whitespace
    requires forall c :: c in path ==> c !in PathStops
    ensures ExtractFilePath(FilePathLabel + " " + path + "\n" + body) == Some(path)
  {
    var s := FilePathLabel + " " + path + "\n" + body;
    var a := |FilePathLabel|;
    assert s[..a] == FilePathLabel;
    assert s[a] == ' ' && s[a + 1] == path[0];
    assert SkipWhitespace(s, a + 1) == a + 1;
    assert SkipWhitespace(s, a) == a + 1;
    assert LastAllowed(s, a, a + 1, PathStops) == Some(a + 1);
    var end := a + 1 + |path|;
    assert forall j :: a + 1 <= j < end ==> s[j] == path[j - a - 1];
    assert s[end] == '\n';
    var k := RunEnd(s, a + 1, PathStops);
    assert k == end;
    assert s[a + 1..k] == path;
    StripUnchanged(path);
    assert LabelledPathAt(s, 0) == Some(path);
  }

  // ---------------------------------------------------------------------------
  // Code block
  // ---------------------------------------------------------------------------

  /** `\s*$` under MULTILINE from `j`: only blanks up to a line end or the end of the text. */
  predicate RestOfLineBlank(s: string, j: nat)
    requires j <= |s|
    decreases |s| - j
  {
    j == |s| || s[j] == '\n' || (s[j] in Whitespace && RestOfLineBlank(s, j + 1))
  }

  /** Where the body starts after an opening fence at `i`: "```python\n" or "```\n". */
  function BodyStart(s: string, i: nat): (b: Option<nat>)
    requires i + 3 <= |s|
    ensures b.Some? ==> b.value <= |s|
  {
    if i + 10 <= |s| && s[i + 3..i + 10] == "python\n" then Some(i + 10)
    else if i + 4 <= |s| && s[i + 3] == '\n' then Some(i + 4)
    else None
  }

  predicate ClosesAt(s: string, k: nat)
  {
    k + 4 <= |s| && s[k..k + 4] == "\n```" && RestOfLineBlank(s, k + 4)
  }

  /** The lazy body: the first `k >= b` where "\n```" and a blank rest of line follow. */
  function CloseFrom(s: string, k: nat): (r: Option<nat>)
    requires k <= |s|
    ensures r.Some? ==> k <= r.value && ClosesAt(s, r.value)
    ensures r.Some? ==> forall j :: k <= j < r.value ==> !ClosesAt(s, j)
    decreases |s| - k
  {
    if ClosesAt(s, k) then Some(k)
    else if k == |s| then None
    else CloseFrom(s, k + 1)
  }

  function CodeBlockAt(s: string, i: nat): Option<string>
    requires i <= |s|
  {
    if AtLineStart(s, i) && i + 3 <= |s| && s[i..i + 3] == Fence then
      match BodyStart(s, i)
      case None => None
      case Some(b) =>
        match CloseFrom(s, b)
        case None => None
        case Some(k) => Some(s[b..k])
    else None
  }

  function CodeBlockFrom(s: string, i: nat): Option<string>
    requires i <= |s|
    decreases |s| - i
  {
    if CodeBlockAt(s, i).Some? then CodeBlockAt(s, i)
    else if i == |s| then None
    else CodeBlockFrom(s, i + 1)
  }

  /** `_extract_code_block`: `^```(?:python)?\n([\s\S]*?)\n```\s*$` under MULTILINE. */
  function ExtractCodeBlock(text: string): (r: Option<string>)
    ensures r.Some? ==> Contains(text, Fence)
  {
    var r := CodeBlockFrom(text, 0);
    if r.Some? then BlockHasFence(text, 0); r else r
  }

  lemma {:induction false} BlockHasFence(s: string, i: nat)
    requires i <= |s| && CodeBlockFrom(s, i).Some?
    ensures Contains(s, Fence)
    decreases |s| - i
  {
    if CodeBlockAt(s, i).Some? {
      SliceContained(s, i, i + 3);
    } else {
      BlockHasFence(s, i + 1);
    }
  }

  /** No line of the body starts with a backtick. */
  predicate NoFenceLine(body: string)
  {
    forall j :: 0 <= j < |body| - 1 && body[j] == '\n' ==> body[j + 1] != '`'
  }

  lemma {:induction false} FirstCloseIsEnd(s: string, b: nat, k: nat, e: nat)
    requires b <= k <= e && e + 4 == |s| && s[e..] == "\n```"
    requires forall j :: b <= j < e ==> !ClosesAt(s, j)
    ensures CloseFrom(s, k) == Some(e)
    decreases e - k
  {
    assert ClosesAt(s, e);
    if k < e {
      FirstCloseIsEnd(s, b, k + 1, e);
    }
  }

  /** Inside a body with no line starting with a backtick, no closing fence is found. */
  lemma NoCloseInside(s: string, b: nat, body: string, j: nat)
    requires b <= |s| && s[b..] == body + "\n" + Fence
    requires NoFenceLine(body)
    requires b <= j < b + |body|
    ensures !ClosesAt(s, j)
  {
    var t := body + "\n" + Fence;
    assert s[j] == t[j - b] && s[j + 1] == t[j + 1 - b];
    if j + 1 < b + |body| {
      assert t[j + 1 - b] == body[j + 1 - b];
    }
  }

  /** The lazy body stops at the closing fence that ends the text. */
  lemma CloseAtEnd(s: string, b: nat, body: string)
    requires b <= |s| && s[b..] == body + "\n" + Fence
    requires NoFenceLine(body)
    ensures CloseFrom(s, b) == Some(b + |body|)
  {
    var e := b + |body|;
    assert s[e..] == "\n```";
    forall j | b <= j < e
      ensures !ClosesAt(s, j)
    {
      NoCloseInside(s, b, body, j);
    }
    FirstCloseIsEnd(s, b, b, e);
  }

  /** Once the body starts at `b` and the text ends with its closing fence, the block is the body. */
  lemma BlockAtStart(s: string, b: nat, body: string)
    requires 3 <= b <= |s| && s[..3] == Fence && BodyStart(s, 0) == Some(b)
    requires s[b..] == body + "\n" + Fence
    requires NoFenceLine(body)
    ensures CodeBlockFrom(s, 0) == Some(body)
  {
    CloseAtEnd(s, b, body);
    assert s[b..b + |body|] == body;
    assert CodeBlockAt(s, 0) == Some(body);
  }

  lemma PythonBlock(body: string)
    requires NoFenceLine(body)
    ensures ExtractCodeBlock(Fence + ("python" + ("\n" + (body + ("\n" + Fence))))) == Some(body)
  {
    var s := Fence + ("python" + ("\n" + (body + ("\n" + Fence))));
    assert s[3..10] == "python\n";
    assert s[10..] == body + "\n" + Fence;
    BlockAtStart(s, 10, body);
  }

  lemma BareBlock(body: string)
    requires NoFenceLine(body)
    ensures ExtractCodeBlock(Fence + ("" + ("\n" + (body + ("\n" + Fence))))) == Some(body)
  {
    var s := Fence + ("" + ("\n" + (body + ("\n" + Fence))));
    assert |s| == 8 + |body|;
    assert s[3] == '\n';
    assert |s| >= 10 ==> s[3..10][0] == '\n';
    assert s[4..] == body + "\n" + Fence;
    BlockAtStart(s, 4, body);
  }

  /** A fenced body, with no line inside it starting with a backtick, comes back unchanged. */
  lemma ExtractCodeBlockRoundTrip(body: string, tag: string)
    requires tag == "python" || tag == ""
    requires NoFenceLine(body)
    ensures ExtractCodeBlock(Fence + tag + "\n" + body + "\n" + Fence) == Some(body)
  {
    Wrapped(body, tag);
    if tag == "python" {
      PythonBlock(body);
    } else {
      BareBlock(body);
    }
  }

  /**
   * `_extract_code_or_plain`: the fenced block if there is one; otherwise,
   * when the first line starts (after trimming) with "File path:", all the
   * lines after it joined by "\n"; otherwise nothing.
   */
  function ExtractCodeOrPlain(text: string): (r: Option<string>)
    ensures ExtractCodeBlock(text).Some? ==> r == ExtractCodeBlock(text)
    ensures text == "" ==> r.None?
  {
    var code := ExtractCodeBlock(text);
    if code.Some? then code
    else
      var lines := SplitLines(text);
      if |lines| == 0 then None
      else if FilePathLabel <= Strip(lines[0]) then Some(JoinWith(lines[1..], "\n"))
      else None
  }

  /** A label line keeps its label when trimmed. */
  lemma LabelSurvivesStrip(path: string)
    ensures FilePathLabel <= Strip(FilePathLabel + " " + path)
  {
    var first := FilePathLabel + " " + path;
    assert first[0] == 'F' && first[9] == ':';
    assert StripLeft(first, Whitespace) == first;
    var st := StripRight(first, Whitespace);
    assert |st| > 9;
    assert st[..10] == first[..10];
  }

  /** The unfenced protocol: a "File path:" line, then the file's lines. */
  lemma ExtractPlainRoundTrip(path: string, body: string)
    requires forall c :: c in path ==> c !in LineBreaks && c != '`'
    requires '`' !in body
    ensures ExtractCodeOrPlain(FilePathLabel + " " + path + "\n" + body)
            == Some(JoinWith(SplitLines(body), "\n"))
  {
    var first := FilePathLabel + " " + path;
    LabelLineChars(path);
    NoBacktickJoined(first, body);
    NoBlockWithoutBacktick(first + "\n" + body);
    SplitLinesFirst(first, body);
    LabelSurvivesStrip(path);
  }

  /** The label line holds neither a line break nor a backtick. */
  lemma LabelLineChars(path: string)
    requires forall c :: c in path ==> c !in LineBreaks && c != '`'
    ensures forall c :: c in FilePathLabel + " " + path ==> c !in LineBreaks && c != '`'
  {
    assert forall c :: c in FilePathLabel + " " ==> c !in LineBreaks && c != '`';
  }

  lemma NoBacktickJoined(first: string, body: string)
    requires '`' !in first && '`' !in body
    ensures '`' !in first + "\n" + body
  {
  }

  /** Without a backtick there is no fenced block. */
  lemma NoBlockWithoutBacktick(s: string)
    requires '`' !in s
    ensures ExtractCodeBlock(s).None?
  {
    AbsentHeadNotContained(s, Fence);
  }

  // ---------------------------------------------------------------------------
  // Source sanitising
  // ---------------------------------------------------------------------------

  const Bom: char := '﻿'

  function DropBom(s: string): (r: string)
  {
    if |s| > 0 && s[0] == Bom then s[1..] else s
  }

  function NormalizeNewlines(s: string): (r: string)
    ensures '\r' !in r
  {
    var t := ReplaceAll(s, "\r\n", "\n");
    ReplaceCharRemovesIt(t, '\r', '\n');
    ReplaceAll(t, "\r", "\n")
  }

  /**
   * `_sanitize_python_source`: one leading byte-order mark dropped, every
   * "\r\n" and lone "\r" turned into "\n", and a final newline ensured.
   */
  function SanitizePythonSource(src: string): (r: string)
    ensures '\r' !in r
    ensures |r| > 0 && r[|r| - 1] == '\n'
    ensures src == "" ==> r == "\n"
  {
    var t := NormalizeNewlines(DropBom(src));
    if EndsWith(t, "\n") then t else t + "\n"
  }

  lemma NormalizeHead(s: string)
    requires |s| > 0
    ensures |NormalizeNewlines(s)| > 0
    ensures NormalizeNewlines(s)[0] == if s[0] == '\r' then '\n' else s[0]
  {
    var t := ReplaceAll(s, "\r\n", "\n");
    assert |t| > 0 && t[0] == (if "\r\n" <= s then '\n' else s[0]);
  }

  lemma NormalizeNoCr(s: string)
    requires '\r' !in s
    ensures NormalizeNewlines(s) == s
  {
    AbsentHeadNotContained(s, "\r\n");
    ReplaceAbsent(s, "\r\n", "\n");
    AbsentHeadNotContained(s, "\r");
    ReplaceAbsent(s, "\r", "\n");
  }

  /** Sanitising twice is sanitising once, unless the text began with two marks. */
  lemma SanitizeIdempotent(src: string)
    requires !(|src| >= 2 && src[0] == Bom && src[1] == Bom)
    ensures SanitizePythonSource(SanitizePythonSource(src)) == SanitizePythonSource(src)
  {
    var d := DropBom(src);
    var r := SanitizePythonSource(src);
    if |d| > 0 {
      NormalizeHead(d);
      assert d[0] != Bom;
    }
    assert r[0] != Bom;
    assert DropBom(r) == r;
    NormalizeNoCr(r);
  }

  /** With two leading marks the second survives the first pass and goes in the second. */
  lemma SanitizeTwoMarks()
    ensures SanitizePythonSource([Bom, Bom]) == [Bom, '\n']
    ensures SanitizePythonSource(SanitizePythonSource([Bom, Bom])) == "\n"
  {
    assert DropBom([Bom, Bom]) == [Bom];
    assert NormalizeNewlines([Bom]) == [Bom] by {
      NormalizeNoCr([Bom]);
    }
    assert NormalizeNewlines("\n") == "\n" by {
      NormalizeNoCr("\n");
    }
  }

  // ---------------------------------------------------------------------------
  // Missing-import message
  // ---------------------------------------------------------------------------

  const ImportNameLabel: string := "cannot import name "
  const Quotes: set<char> := {'\'', '"'}

  datatype ImportInfo = ImportInfo(name: string, moduleName: string, path: string)

  /**
   * `['"]([^'"]+)['"]` at `q`: where the closing quote stands, when there is
   * one and the run between the quotes is not empty.
   */
  function QuotedAt(s: string, q: nat): (j: Option<nat>)
    requires q <= |s|
    ensures j.Some? ==> q + 1 < j.value < |s| && s[j.value] in Quotes
  {
    if q < |s| && s[q] in Quotes then
      var j := RunEnd(s, q + 1, Quotes);
      if j == q + 1 || j == |s| then None else Some(j)
    else None
  }

  /** `\(([^)]+)\)` after the blank at `m + 1`: where the closing parenthesis stands. */
  function ParenthesisedAt(s: string, m: nat): (e: Option<nat>)
    requires m < |s|
    ensures e.Some? ==> m + 3 < e.value < |s|
  {
    if !(" (" <= s[m + 1..]) then None
    else
      var e := RunEnd(s, m + 3, {')'});
      if e == m + 3 || e == |s| then None else Some(e)
  }

  /** ` from ['"]([^'"]+)['"] \(([^)]+)\)` after the closing quote at `j`: the module's closing quote and the path's closing parenthesis. */
  function ImportSourceAt(s: string, j: nat): (r: Option<(nat, nat)>)
    requires j < |s|
    ensures r.Some? ==> j + 8 < r.value.0 && r.value.0 + 3 < r.value.1 < |s|
  {
    if !(" from " <= s[j + 1..]) then None
    else match QuotedAt(s, j + 7)
      case None => None
      case Some(m) =>
        match ParenthesisedAt(s, m)
        case None => None
        case Some(e) => Some((m, e))
  }

  /** `cannot import name ['"]([^'"]+)['"] from ['"]([^'"]+)['"] \(([^)]+)\)` tried at `i`. */
  function ImportInfoAt(s: string, i: nat): (r: Option<ImportInfo>)
    requires i <= |s|
    ensures r.Some? ==> r.value.name != "" && r.value.moduleName != "" && r.value.path != ""
  {
    var q1 := i + |ImportNameLabel|;
    if !(q1 <= |s| && s[i..q1] == ImportNameLabel) then None
    else match QuotedAt(s, q1)
      case None => None
      case Some(j) =>
        match ImportSourceAt(s, j)
        case None => None
        case Some((m, e)) => Some(ImportInfo(s[q1 + 1..j], s[j + 8..m], s[m + 3..e]))
  }

  function SearchImportInfo(s: string, i: nat): (r: Option<ImportInfo>)
    requires i <= |s|
    ensures r.Some? ==> r.value.name != "" && r.value.moduleName != "" && r.value.path != ""
    decreases |s| - i
  {
    if ImportInfoAt(s, i).Some? then ImportInfoAt(s, i)
    else if i == |s| then None
    else SearchImportInfo(s, i + 1)
  }

  /**
   * `_extract_missing_import_info`: searched in the error message and stderr
   * joined by a newline; the name, module and path come together or not at all.
   */
  function MissingImportInfo(errorMessage: string, stderr: string): (r: Option<ImportInfo>)
    ensures r.Some? ==> r.value.name != "" && r.value.moduleName != "" && r.value.path != ""
  {
    SearchImportInfo(errorMessage + "\n" + stderr, 0)
  }

  /** A run of non-stop characters ended by a stop character ends where it should. */
  lemma RunEndOver(s: string, i: nat, w: string, stops: set<char>)
    requires i + |w| < |s| && s[i..i + |w|] == w && s[i + |w|] in stops
    requires forall c :: c in w ==> c !in stops
    ensures RunEnd(s, i, stops) == i + |w|
  {
    assert forall j :: i <= j < i + |w| ==> s[j] == w[j - i] && s[j] !in stops;
  }

  /** Reading a known piece off the text at `k` leaves the rest at `k + |a|`. */
  lemma Drop(s: string, k: nat, a: string, b: string)
    requires k <= |s| && s[k..] == a + b
    ensures k + |a| <= |s| && s[k + |a|..] == b && s[k..k + |a|] == a
    ensures |a| > 0 ==> s[k] == a[0]
  {
    assert s[k..][..|a|] == a;
  }

  /** The interpreter's message, nested to the right. */
  function ImportMessage(name: string, moduleName: string, path: string, rest: string): string
  {
    ImportNameLabel + ("'" + (name + ("'" + (" from " + ("'" + (moduleName + ("'" + (" (" + (path + (")" + rest))))))))))
  }

  lemma ImportMessageShape(name: string, moduleName: string, path: string, stderr: string)
    ensures ImportNameLabel + "'" + name + "' from '" + moduleName + "' (" + path + ")" + "\n" + stderr
            == ImportMessage(name, moduleName, path, "\n" + stderr)
  {
  }

  /** A quoted run with no quote inside is read up to its closing quote. */
  lemma QuotedRun(s: string, q: nat, w: string, rest: string)
    requires q <= |s| && s[q..] == "'" + (w + ("'" + rest))
    requires w != "" && forall c :: c in w ==> c !in Quotes
    ensures QuotedAt(s, q) == Some(q + 1 + |w|)
    ensures s[q + 1..q + 1 + |w|] == w && s[q + 2 + |w|..] == rest
  {
    Drop(s, q, "'", w + ("'" + rest));
    Drop(s, q + 1, w, "'" + rest);
    Drop(s, q + 1 + |w|, "'", rest);
    RunEndOver(s, q + 1, w, Quotes);
  }

  /** A parenthesised path with no closing parenthesis inside is read whole. */
  lemma ParenthesisedRun(s: string, m: nat, path: string, rest: string)
    requires m < |s| && s[m + 1..] == " (" + (path + (")" + rest))
    requires path != "" && ')' !in path
    ensures ParenthesisedAt(s, m) == Some(m + 3 + |path|)
    ensures s[m + 3..m + 3 + |path|] == path
  {
    Drop(s, m + 1, " (", path + (")" + rest));
    Drop(s, m + 3, path, ")" + rest);
    RunEndOver(s, m + 3, path, {')'});
  }

  lemma ImportSourceRun(s: string, j: nat, moduleName: string, tail: string, e: nat)
    requires j < |s| && s[j + 1..] == " from " + ("'" + (moduleName + ("'" + tail)))
    requires moduleName != "" && forall c :: c in moduleName ==> c !in Quotes
    requires j + 8 + |moduleName| < |s| && ParenthesisedAt(s, j + 8 + |moduleName|) == Some(e)
    ensures ImportSourceAt(s, j) == Some((j + 8 + |moduleName|, e))
    ensures s[j + 8..j + 8 + |moduleName|] == moduleName
  {
    hide QuotedAt, ParenthesisedAt, RunEnd;
    Drop(s, j + 1, " from ", "'" + (moduleName + ("'" + tail)));
    QuotedRun(s, j + 7, moduleName, tail);
  }

  /** The pattern matches the message at its start. */
  lemma ImportMessageParts(name: string, moduleName: string, path: string, rest: string)
    requires name != "" && moduleName != "" && path != ""
    requires forall c :: c in name ==> c !in Quotes
    requires forall c :: c in moduleName ==> c !in Quotes
    requires ')' !in path
    ensures ImportInfoAt(ImportMessage(name, moduleName, path, rest), 0) == Some(ImportInfo(name, moduleName, path))
  {
    var s := ImportMessage(name, moduleName, path, rest);
    var tail := " (" + (path + (")" + rest));
    var after := " from " + ("'" + (moduleName + ("'" + tail)));
    Drop(s, 0, ImportNameLabel, "'" + (name + ("'" + after)));
    ImportChain(s, name, moduleName, path, rest, after, tail);
  }

  /** The same, with the message known only through the pieces it is cut into. */
  lemma ImportChain(s: string, name: string, moduleName: string, path: string, rest: string,
                    after: string, tail: string)
    requires name != "" && moduleName != "" && path != ""
    requires forall c :: c in name ==> c !in Quotes
    requires forall c :: c in moduleName ==> c !in Quotes
    requires ')' !in path
    requires |ImportNameLabel| <= |s| && s[0..|ImportNameLabel|] == ImportNameLabel
    requires s[|ImportNameLabel|..] == "'" + (name + ("'" + after))
    requires after == " from " + ("'" + (moduleName + ("'" + tail)))
    requires tail == " (" + (path + (")" + rest))
    ensures ImportInfoAt(s, 0) == Some(ImportInfo(name, moduleName, path))
  {
    hide ImportInfoAt, ImportSourceAt, QuotedAt, ParenthesisedAt, RunEnd;
    var q1 := |ImportNameLabel|;
    var j := q1 + 1 + |name|;
    QuotedRun(s, q1, name, after);
    ImportSourceChain(s, j, moduleName, path, rest, tail);
    ImportAtStart(s, name, moduleName, path, j, j + 8 + |moduleName|, j + 8 + |moduleName| + 3 + |path|);
  }

  /** The part after the name: the module in quotes and the path in parentheses. */
  lemma ImportSourceChain(s: string, j: nat, moduleName: string, path: string, rest: string, tail: string)
    requires moduleName != "" && forall c :: c in moduleName ==> c !in Quotes
    requires path != "" && ')' !in path
    requires j < |s| && s[j + 1..] == " from " + ("'" + (moduleName + ("'" + tail)))
    requires tail == " (" + (path + (")" + rest))
    ensures j + 8 + |moduleName| + 3 + |path| <= |s|
    ensures ImportSourceAt(s, j) == Some((j + 8 + |moduleName|, j + 8 + |moduleName| + 3 + |path|))
    ensures s[j + 8..j + 8 + |moduleName|] == moduleName
    ensures s[j + 8 + |moduleName| + 3..j + 8 + |moduleName| + 3 + |path|] == path
  {
    hide ImportSourceAt, QuotedAt, ParenthesisedAt, RunEnd;
    var m := j + 8 + |moduleName|;
    SuffixAfterModule(s, j, moduleName, tail);
    ParenthesisedRun(s, m, path, rest);
    ImportSourceRun(s, j, moduleName, tail, m + 3 + |path|);
  }

  /** Where the label, the quoted name and the source stand decides the three groups. */
  lemma ImportAtStart(s: string, name: string, moduleName: string, path: string, j: nat, m: nat, e: nat)
    requires |ImportNameLabel| <= |s| && s[0..|ImportNameLabel|] == ImportNameLabel
    requires QuotedAt(s, |ImportNameLabel|) == Some(j) && s[|ImportNameLabel| + 1..j] == name
    requires ImportSourceAt(s, j) == Some((m, e)) && s[j + 8..m] == moduleName && s[m + 3..e] == path
    ensures ImportInfoAt(s, 0) == Some(ImportInfo(name, moduleName, path))
  {
    hide QuotedAt, ImportSourceAt, ParenthesisedAt, RunEnd;
  }

  lemma SuffixAfterModule(s: string, j: nat, moduleName: string, tail: string)
    requires j < |s| && s[j + 1..] == " from " + ("'" + (moduleName + ("'" + tail)))
    ensures j + 8 + |moduleName| < |s| && s[j + 8 + |moduleName| + 1..] == tail
  {
    assert s[j + 1..][8 + |moduleName|..] == tail;
  }

  /** The interpreter's message gives back its three parts. */
  lemma MissingImportRoundTrip(name: string, moduleName: string, path: string, stderr: string)
    requires name != "" && moduleName != "" && path != ""
    requires forall c :: c in name ==> c !in Quotes
    requires forall c :: c in moduleName ==> c !in Quotes
    requires ')' !in path
    ensures MissingImportInfo(ImportNameLabel + "'" + name + "' from '" + moduleName + "' (" + path + ")", stderr)
            == Some(ImportInfo(name, moduleName, path))
  {
    ImportMessageShape(name, moduleName, path, stderr);
    ImportMessageParts(name, moduleName, path, "\n" + stderr);
  }

  // ---------------------------------------------------------------------------
  // The first `.py` path in an error text
  // ---------------------------------------------------------------------------

  /** `[\w\-_/\\.]` (the word characters of the ASCII range). */
  predicate PathChar(c: char)
  {
    IsAlnum(c) || c == '_' || c == '-' || c == '/' || c == '\\' || c == '.'
  }

  function PathRunEnd(s: string, i: nat): (k: nat)
    requires i <= |s|
    ensures i <= k <= |s|
    ensures forall j :: i <= j < k ==> PathChar(s[j])
    ensures k < |s| ==> !PathChar(s[k])
    decreases |s| - i
  {
    if i < |s| && PathChar(s[i]) then PathRunEnd(s, i + 1) else i
  }

  /** The largest `t` in `[lo, hi]` at which `pat` occurs. */
  function LastOccurrence(s: string, lo: nat, hi: nat, pat: string): (r: Option<nat>)
    requires lo <= hi
    ensures r.Some? ==> lo <= r.value <= hi && r.value + |pat| <= |s| && s[r.value..r.value + |pat|] == pat
    decreases hi
  {
    if hi + |pat| <= |s| && s[hi..hi + |pat|] == pat then Some(hi)
    else if hi == lo then None
    else LastOccurrence(s, lo, hi - 1, pat)
  }

  /** `[A-Za-z]:\\` at `i` */
  predicate DriveAt(s: string, i: nat)
  {
    i + 3 <= |s| && IsAsciiLetter(s[i]) && s[i + 1] == ':' && s[i + 2] == '\\'
  }

  /**
   * `([A-Za-z]:\\|/)?<class>*` followed by `tail`, tried at `i`: the optional
   * prefix first, then without it; the class run gives back characters until
   * `tail` follows.  The result is where `tail` starts.
   */
  function PathMatchEnd(s: string, i: nat, tail: string, withPrefix: bool): (t: Option<nat>)
    requires i <= |s|
    ensures t.Some? ==> i <= t.value && t.value + |tail| <= |s| && s[t.value..t.value + |tail|] == tail
  {
    var g := if withPrefix && DriveAt(s, i) then i + 3
             else if withPrefix && i < |s| && s[i] == '/' then i + 1
             else i;
    var first := LastOccurrence(s, g, PathRunEnd(s, g), tail);
    if first.Some? then first
    else if g != i then LastOccurrence(s, i, PathRunEnd(s, i), tail)
    else None
  }

  /** The text of the match tried at `i`. */
  function PathMatchAt(s: string, i: nat, tail: string, withPrefix: bool): (r: Option<string>)
    requires i <= |s|
    ensures r.Some? ==> EndsWith(r.value, tail)
    ensures r.Some? ==> Contains(s, r.value)
  {
    match PathMatchEnd(s, i, tail, withPrefix)
    case None => None
    case Some(t) =>
      TailEnds(s, i, t, tail);
      SliceContained(s, i, t + |tail|);
      Some(s[i..t + |tail|])
  }

  /** A slice that stops right after an occurrence of `tail` ends with it. */
  lemma TailEnds(s: string, i: nat, t: nat, tail: string)
    requires i <= t && t + |tail| <= |s| && s[t..t + |tail|] == tail
    ensures EndsWith(s[i..t + |tail|], tail)
  {
    var m := s[i..t + |tail|];
    assert m[|m| - |tail|..] == s[t..t + |tail|];
  }

  function SearchPath(s: string, i: nat, tail: string, withPrefix: bool): (r: Option<string>)
    requires i <= |s|
    ensures r.Some? ==> EndsWith(r.value, tail) && Contains(s, r.value)
    decreases |s| - i
  {
    if PathMatchAt(s, i, tail, withPrefix).Some? then PathMatchAt(s, i, tail, withPrefix)
    else if i == |s| then None
    else SearchPath(s, i + 1, tail, withPrefix)
  }

  /** `re.search(r"([A-Za-z]:\\|/)?[\w\-_/\\.]*\.py", text).group(0)` */
  function FirstPyPath(text: string): (r: Option<string>)
    ensures r.Some? ==> EndsWith(r.value, ".py") && Contains(text, r.value)
  {
    SearchPath(text, 0, ".py", true)
  }

  /** The file under the repository that a path found in the error text names, if it is usable. */
  function ResolveFoundPath(found: string, repoRoot: string, disk: Disk): Option<string>
  {
    var p := ReplaceAll(found, "\\", "/");
    if |p| > 0 && p[0] == '/' then
      if ReplaceAll(repoRoot, "\\", "/") <= p then Some(RelPath(p, repoRoot)) else None
    else if Exists(disk, Join(repoRoot, p)) then Some(p)
    else None
  }

  /** The first `.py` file, in walk order, whose text mentions one of the patterns. */
  function FirstMentioning(walk: seq<(string, string)>, patterns: seq<string>, repoRoot: string): (r: Option<string>)
    ensures r.Some? ==> exists k :: 0 <= k < |walk| && r.value == RelPath(walk[k].0, repoRoot)
                                    && EndsWith(walk[k].0, ".py")
  {
    if |walk| == 0 then None
    else if EndsWith(walk[0].0, ".py") && exists q :: q in patterns && Contains(walk[0].1, q)
    then Some(RelPath(walk[0].0, repoRoot))
    else
      var rest := FirstMentioning(walk[1..], patterns, repoRoot);
      if rest.Some? then
        var k :| 0 <= k < |walk[1..]| && rest.value == RelPath(walk[1..][k].0, repoRoot) && EndsWith(walk[1..][k].0, ".py");
        assert walk[1..][k] == walk[k + 1];
        rest
      else None
  }

  /**
   * `_infer_error_file_path`.  `globFirst` is the first hit of the recursive
   * glob for the file name under the repository; `walk` lists the readable
   * files under `mcp_output` as (path, text) in walk order.
   */
  function InferErrorFilePath(errorMessage: string, stderr: string, repoRoot: string, disk: Disk,
                              globFirst: Option<string>, walk: seq<(string, string)>): (r: Option<string>)
    ensures FirstPyPath(errorMessage + "\n" + stderr).None? ==> r.None?
  {
    var text := errorMessage + "\n" + stderr;
    match FirstPyPath(text)
    case None => None
    case Some(m) =>
      var filename := AfterLast(m, '/');
      var byPrefix := SearchPath(text, 0, filename, true);
      var byName := SearchPath(text, 0, filename, false);
      var first := if byPrefix.Some? then ResolveFoundPath(byPrefix.value, repoRoot, disk) else None;
      var second := if first.None? && byName.Some? then ResolveFoundPath(byName.value, repoRoot, disk) else None;
      if first.Some? then first
      else if second.Some? then second
      else if globFirst.Some? && "mcp_output/" <= RelPath(globFirst.value, repoRoot) then
        Some(RelPath(globFirst.value, repoRoot))
      else
        var info := MissingImportInfo(errorMessage, stderr);
        if info.Some? && Join(repoRoot, "mcp_output") in disk.dirs then
          var n := info.value.name;
          var mod := info.value.moduleName;
          FirstMentioning(walk, ["from " + mod + " import " + n, mod + "." + n], repoRoot)
        else None
  }
}
