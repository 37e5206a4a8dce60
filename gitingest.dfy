/**
 * The repository preprocessing client (`GitingestClient`): recognising
 * GitHub addresses, ranking and greedily selecting the key files of a
 * repository within a token budget, the archive download used when the
 * ingestion library is missing or keeps failing, and the retrying call into
 * that library.
 *
 * Token estimates are `1.3 * len`; the model keeps them in tenths of a
 * token (`13 * len`), and a file's `score` (`priority + size / 1000`) in
 * thousandths (`1000 * priority + size`).
 */
module Gitingest {
  import opened Text
  import opened PipelineState
  import EnvProvision

  // ---------------------------------------------------------------------
  // Addresses (`urllib.parse.urlparse`)

  /** A character `urlparse` accepts in a scheme. */
  predicate IsSchemeChar(c: char)
  {
    IsAlnum(c) || c == '+' || c == '-' || c == '.'
  }

  /** The longest prefix of `s` holding none of `stops`. */
  function Before(s: string, stops: set<char>): (r: string)
    ensures r <= s
    ensures forall i :: 0 <= i < |r| ==> r[i] !in stops
    ensures |r| < |s| ==> s[|r|] in stops
  {
    if |s| == 0 || s[0] in stops then "" else [s[0]] + Before(s[1..], stops)
  }

  /** A scheme `urlparse` recognises before the first ':'. */
  predicate IsScheme(s: string)
  {
    |s| > 0 && IsAsciiLetter(s[0]) && forall i :: 0 <= i < |s| ==> IsSchemeChar(s[i])
  }

  /** What follows the scheme and its ':', or the whole address when it has no scheme. */
  function AfterScheme(url: string): string
  {
    var i := IndexOf(url, ':');
    if 0 < i < |url| && IsScheme(url[..i]) then url[i + 1..] else url
  }

  /** `urlparse(url).netloc`: after "//", up to the first '/', '?' or '#'. */
  function NetlocOf(url: string): (r: string)
    ensures '/' !in r
  {
    var rest := AfterScheme(url);
    if |rest| >= 2 && rest[..2] == "//" then Before(rest[2..], {'/', '?', '#'}) else ""
  }

  /** `urlparse(url).path`: what follows the netloc, up to the first '?' or '#'. */
  function PathOf(url: string): (r: string)
    ensures '?' !in r && '#' !in r
  {
    var rest := AfterScheme(url);
    var afterNetloc := if |rest| >= 2 && rest[..2] == "//" then rest[2 + |NetlocOf(url)|..] else rest;
    Before(afterNetloc, {'?', '#'})
  }

  /** `is_github_url` */
  predicate IsGithubUrl(url: string)
  {
    NetlocOf(url) == "github.com" || NetlocOf(url) == "www.github.com"
  }

  /** Text free of '/', '?' and '#': a host name or one path segment. */
  predicate Plain(s: string)
  {
    forall i :: 0 <= i < |s| ==> s[i] != '/' && s[i] != '?' && s[i] != '#'
  }

  /** After a recognised scheme and its ':' comes the rest of the address. */
  lemma AfterSchemeOf(scheme: string, rest: string)
    requires IsScheme(scheme)
    ensures AfterScheme(scheme + ":" + rest) == rest
  {
    assert ':' !in scheme by {
      forall i | 0 <= i < |scheme| ensures scheme[i] != ':' { assert IsSchemeChar(scheme[i]); }
    }
    IndexOfAfter(scheme, ':', rest);
    assert (scheme + ":" + rest)[..|scheme|] == scheme;
    assert (scheme + ":" + rest)[|scheme| + 1..] == rest;
  }

  /** "//host/rest" parts at the end of the host. */
  lemma SplitNetloc(host: string, rest: string)
    requires Plain(host)
    requires rest == "" || rest[0] == '/' || rest[0] == '?' || rest[0] == '#'
    ensures var after := "//" + host + rest;
            |after| >= 2 && after[..2] == "//" && Before(after[2..], {'/', '?', '#'}) == host && after[2 + |host|..] == rest
  {
    var after := "//" + host + rest;
    assert after[2..] == host + rest;
    BeforeAppend(host, rest, {'/', '?', '#'});
  }

  /** "scheme://host/rest" read as the scheme, ':' and "//host/rest". */
  lemma UrlShape(scheme: string, host: string, rest: string)
    ensures scheme + "://" + host + rest == scheme + ":" + ("//" + host + rest)
  {
  }

  /** After the scheme, "//host" gives the netloc, and the rest up to a query or fragment the path. */
  lemma SplitUrlParts(scheme: string, host: string, rest: string)
    requires IsScheme(scheme) && Plain(host)
    requires rest == "" || rest[0] == '/' || rest[0] == '?' || rest[0] == '#'
    ensures NetlocOf(scheme + ":" + ("//" + host + rest)) == host
    ensures PathOf(scheme + ":" + ("//" + host + rest)) == Before(rest, {'?', '#'})
  {
    AfterSchemeOf(scheme, "//" + host + rest);
    SplitNetloc(host, rest);
  }

  /** An address "scheme://host/rest" has that host as its netloc and the rest, up to a query or fragment, as its path. */
  lemma SplitUrl(scheme: string, host: string, rest: string)
    requires IsScheme(scheme) && Plain(host)
    requires rest == "" || rest[0] == '/' || rest[0] == '?' || rest[0] == '#'
    ensures NetlocOf(scheme + "://" + host + rest) == host
    ensures PathOf(scheme + "://" + host + rest) == Before(rest, {'?', '#'})
  {
    UrlShape(scheme, host, rest);
    SplitUrlParts(scheme, host, rest);
  }

  /** A prefix free of stops followed by a stop (or nothing) is cut exactly there. */
  lemma {:induction false} BeforeAppend(a: string, b: string, stops: set<char>)
    requires forall i :: 0 <= i < |a| ==> a[i] !in stops
    requires b == "" || b[0] in stops
    ensures Before(a + b, stops) == a
    decreases |a|
  {
    if |a| > 0 {
      assert (a + b)[1..] == a[1..] + b;
      BeforeAppend(a[1..], b, stops);
      assert a == [a[0]] + a[1..];
    }
  }

  /** An address with a scheme and a host is a GitHub address exactly when its host is "github.com" or "www.github.com". */
  lemma GithubUrlByHost(scheme: string, host: string, rest: string)
    requires IsScheme(scheme) && Plain(host)
    requires rest == "" || rest[0] == '/' || rest[0] == '?' || rest[0] == '#'
    ensures IsGithubUrl(scheme + "://" + host + rest) <==> host == "github.com" || host == "www.github.com"
  {
    SplitUrl(scheme, host, rest);
  }

  /**
   * `_parse_owner_repo`: the first two non-empty path segments, with every
   * ".git" removed from the second; ("", "") when there are fewer than two.
   */
  function ParseOwnerRepo(url: string): (r: (string, string))
    ensures r.0 == "" <==> |NonEmpty(SplitOn(PathOf(url), '/'))| < 2
    ensures r.0 != "" ==> '/' !in r.0
  {
    var parts := NonEmpty(SplitOn(PathOf(url), '/'));
    if |parts| >= 2 then
      assert parts[0] in parts;
      (parts[0], ReplaceAll(parts[1], ".git", ""))
    else ("", "")
  }

  /** The segments of "/owner/repo/..." begin with the owner and the repository. */
  lemma OwnerRepoSegments(owner: string, repo: string, tail: string)
    requires owner != "" && repo != "" && '/' !in owner && '/' !in repo
    requires tail == "" || tail[0] == '/'
    ensures var parts := NonEmpty(SplitOn("/" + owner + "/" + repo + tail, '/'));
            |parts| >= 2 && parts[0] == owner && parts[1] == repo
  {
    var rest := OwnerRepoSplit(owner, repo, tail);
    hide SplitOn;
    NonEmptyFront(owner, repo, rest);
  }

  /** Splitting "/owner/repo..." on "/" gives an empty piece, the owner, the repository and the rest. */
  lemma OwnerRepoSplit(owner: string, repo: string, tail: string) returns (rest: seq<string>)
    requires '/' !in owner && '/' !in repo
    requires tail == "" || tail[0] == '/'
    ensures SplitOn("/" + owner + "/" + repo + tail, '/') == [""] + ([owner] + ([repo] + rest))
  {
    var p := "/" + owner + "/" + repo + tail;
    assert p == "" + ['/'] + (owner + "/" + repo + tail);
    SplitOnFirst("", '/', owner + "/" + repo + tail);
    assert owner + "/" + repo + tail == owner + ['/'] + (repo + tail);
    SplitOnFirst(owner, '/', repo + tail);
    if tail == "" {
      assert repo + tail == repo;
      SplitOnAbsent(repo, '/');
      rest := [];
    } else {
      assert repo + tail == repo + ['/'] + tail[1..];
      SplitOnFirst(repo, '/', tail[1..]);
      rest := SplitOn(tail[1..], '/');
    }
  }

  /** Dropping the empty pieces keeps a non-empty owner and repository in front. */
  lemma NonEmptyFront(owner: string, repo: string, rest: seq<string>)
    requires owner != "" && repo != ""
    ensures var parts := NonEmpty([""] + ([owner] + ([repo] + rest)));
            |parts| >= 2 && parts[0] == owner && parts[1] == repo
  {
    assert NonEmpty([""] + ([owner] + ([repo] + rest))) == NonEmpty([owner] + ([repo] + rest));
    assert NonEmpty([owner] + ([repo] + rest)) == [owner] + NonEmpty([repo] + rest);
    assert NonEmpty([repo] + rest) == [repo] + NonEmpty(rest);
  }

  /**
   * For "scheme://host/owner/repo..." the parse gives the owner and the
   * repository name without ".git", whatever follows them.
   */
  lemma ParseOwnerRepoOfAddress(scheme: string, host: string, owner: string, repo: string, tail: string)
    requires IsScheme(scheme) && Plain(host) && Plain(owner) && Plain(repo) && owner != "" && repo != ""
    requires tail == "" || tail[0] == '/' || tail[0] == '?' || tail[0] == '#'
    ensures ParseOwnerRepo(scheme + "://" + host + ("/" + owner + "/" + repo + tail)) == (owner, ReplaceAll(repo, ".git", ""))
  {
    var segments := "/" + owner + "/" + repo;
    SplitUrl(scheme, host, segments + tail);
    var stops: set<char> := {'?', '#'};
    SegmentsPlain(owner, repo);
    BeforeSplit(segments, tail, stops);
    var t := Before(tail, stops);
    assert t == "" || t[0] == '/' by {
      if t != "" { assert t[0] == tail[0]; }
    }
    PlainHasNoSlash(owner);
    PlainHasNoSlash(repo);
    OwnerRepoSegments(owner, repo, t);
  }

  /** Plain text holds no '/'. */
  lemma PlainHasNoSlash(s: string)
    requires Plain(s)
    ensures '/' !in s
  {
    assert forall i :: 0 <= i < |s| ==> s[i] != '/';
  }

  /** "/owner/repo" holds no '?' or '#'. */
  lemma SegmentsPlain(owner: string, repo: string)
    requires Plain(owner) && Plain(repo)
    ensures var s := "/" + owner + "/" + repo; forall i :: 0 <= i < |s| ==> s[i] != '?' && s[i] != '#'
  {
    var s := "/" + owner + "/" + repo;
    forall i | 0 <= i < |s| ensures s[i] != '?' && s[i] != '#'
    {
      if 1 <= i < 1 + |owner| { assert s[i] == owner[i - 1]; }
      else if 2 + |owner| <= i { assert s[i] == repo[i - 2 - |owner|]; }
    }
  }

  /** Cutting after a prefix free of stops cuts the rest. */
  lemma {:induction false} BeforeSplit(a: string, b: string, stops: set<char>)
    requires forall i :: 0 <= i < |a| ==> a[i] !in stops
    ensures Before(a + b, stops) == a + Before(b, stops)
    decreases |a|
  {
    if |a| > 0 {
      assert (a + b)[0] == a[0] && (a + b)[1..] == a[1..] + b;
      assert Before(a + b, stops) == [a[0]] + Before(a[1..] + b, stops);
      BeforeSplit(a[1..], b, stops);
      AssociateThree([a[0]], a[1..], Before(b, stops));
      assert a == [a[0]] + a[1..];
    } else {
      assert a + b == b;
    }
  }

  // ---------------------------------------------------------------------
  // Text files

  const TextExtensions: seq<string> :=
    [".py", ".md", ".txt", ".json", ".yml", ".yaml", ".toml", ".ini", ".cfg", ".java", ".js", ".ts"]

  /** `s.endswith(tuple(exts))` */
  predicate EndsWithAny(s: string, exts: seq<string>)
  {
    |exts| > 0 && (EndsWith(s, exts[0]) || EndsWithAny(s, exts[1..]))
  }

  lemma {:induction false} EndsWithAnyExists(s: string, exts: seq<string>)
    ensures EndsWithAny(s, exts) <==> exists i :: 0 <= i < |exts| && EndsWith(s, exts[i])
  {
    if |exts| > 0 {
      EndsWithAnyExists(s, exts[1..]);
      assert forall i :: 1 <= i < |exts| ==> exts[i] == exts[1..][i - 1];
    }
  }

  /** `_is_text_like`: the lower-cased name ends with one of the twelve text extensions. */
  function IsTextLike(name: string): (r: bool)
    ensures r <==> exists i :: 0 <= i < |TextExtensions| && EndsWith(Lower(name), TextExtensions[i])
  {
    EndsWithAnyExists(Lower(name), TextExtensions);
    EndsWithAny(Lower(name), TextExtensions)
  }

  // ---------------------------------------------------------------------
  // Ranking files

  /** A substring and the priority it gives a path that contains it. */
  datatype Pattern = Pattern(text: string, score: nat)

  const PriorityPatterns: seq<Pattern> := [
    Pattern("main.py", 100), Pattern("app.py", 100), Pattern("server.py", 100), Pattern("index.py", 100),
    Pattern("run.py", 100), Pattern("requirements.txt", 90), Pattern("pyproject.toml", 90),
    Pattern("setup.py", 90), Pattern("package.json", 90), Pattern("README.md", 85), Pattern("README.txt", 85),
    Pattern("docs/", 80), Pattern("src/", 70), Pattern("lib/", 70), Pattern("core/", 70), Pattern("api/", 70),
    Pattern("app/", 70), Pattern("test/", 60), Pattern("tests/", 60), Pattern("spec/", 60),
    Pattern(".py", 50), Pattern(".js", 50), Pattern(".ts", 50), Pattern(".java", 50), Pattern(".go", 50)]

  /** The priority after the patterns in `pats`, taken in order: the running maximum of the matching scores. */
  function BestScore(path: string, pats: seq<Pattern>): nat
  {
    if |pats| == 0 then 0
    else
      var before := BestScore(path, pats[..|pats| - 1]);
      var p := pats[|pats| - 1];
      if Contains(path, p.text) && p.score > before then p.score else before
  }

  /**
   * The priority is the largest score among the patterns the path
   * contains, and 0 when it contains none.
   */
  lemma {:induction false} BestScoreIsMaximum(path: string, pats: seq<Pattern>)
    ensures var r := BestScore(path, pats);
            && (forall i :: 0 <= i < |pats| && Contains(path, pats[i].text) ==> pats[i].score <= r)
            && (r == 0 || exists i :: 0 <= i < |pats| && Contains(path, pats[i].text) && pats[i].score == r)
  {
    if |pats| > 0 {
      var init := pats[..|pats| - 1];
      BestScoreIsMaximum(path, init);
      assert forall i :: 0 <= i < |init| ==> init[i] == pats[i];
    }
  }

  /** `_calculate_priority` */
  method CalculatePriority(path: string, patterns: seq<Pattern>) returns (priority: nat)
    ensures priority == BestScore(path, patterns)
  {
    priority := 0;
    var i := 0;
    while i < |patterns|
      invariant 0 <= i <= |patterns|
      invariant priority == BestScore(path, patterns[..i])
    {
      assert patterns[..i + 1][..i] == patterns[..i];
      if Contains(path, patterns[i].text) && patterns[i].score > priority {
        priority := patterns[i].score;
      }
      i := i + 1;
    }
    assert patterns[..i] == patterns;
  }

  // ---------------------------------------------------------------------
  // Selecting key files (`extract_key_files`)

  /** A file with its ranking: `size` is its length, `score` is `1000 * priority + size`. */
  datatype FileInfo = FileInfo(path: string, content: string, size: nat, priority: nat, score: nat)

  /** The ranking of one file. */
  function Ranked(path: string, content: string): FileInfo
  {
    var priority := BestScore(path, PriorityPatterns);
    FileInfo(path, content, |content|, priority, 1000 * priority + |content|)
  }

  /** `file_scores`, in the order of the content dictionary. */
  function RankAll(content: seq<(string, string)>): (r: seq<FileInfo>)
    ensures |r| == |content|
    ensures forall i :: 0 <= i < |r| ==> r[i] == Ranked(content[i].0, content[i].1)
  {
    if |content| == 0 then [] else RankAll(content[..|content| - 1]) + [Ranked(content[|content| - 1].0, content[|content| - 1].1)]
  }

  /** Puts `f` before the first file whose score is not higher than its own. */
  function Insert(f: FileInfo, sorted: seq<FileInfo>): seq<FileInfo>
  {
    if |sorted| == 0 || sorted[0].score <= f.score then [f] + sorted
    else [sorted[0]] + Insert(f, sorted[1..])
  }

  /** `sorted(file_scores.items(), key=score, reverse=True)` */
  function SortByScore(files: seq<FileInfo>): seq<FileInfo>
  {
    if |files| == 0 then [] else Insert(files[0], SortByScore(files[1..]))
  }

  /** Highest score first. */
  predicate Descending(s: seq<FileInfo>)
  {
    forall i, j :: 0 <= i < j < |s| ==> s[i].score >= s[j].score
  }

  /** The files with score `k`, in order. */
  function WithScore(s: seq<FileInfo>, k: nat): seq<FileInfo>
  {
    if |s| == 0 then [] else (if s[0].score == k then [s[0]] else []) + WithScore(s[1..], k)
  }

  /** Inserting adds exactly `f`. */
  lemma {:induction false} InsertAdds(f: FileInfo, t: seq<FileInfo>)
    ensures multiset(Insert(f, t)) == multiset(t) + multiset{f}
    decreases |t|
  {
    if |t| > 0 && t[0].score > f.score {
      InsertAdds(f, t[1..]);
      assert t == [t[0]] + t[1..];
    }
  }

  /** A bound on every score survives insertion of a file within it. */
  lemma {:induction false} InsertBounded(f: FileInfo, t: seq<FileInfo>, bound: nat)
    requires f.score <= bound && forall i :: 0 <= i < |t| ==> t[i].score <= bound
    ensures forall i :: 0 <= i < |Insert(f, t)| ==> Insert(f, t)[i].score <= bound
    decreases |t|
  {
    if |t| > 0 && t[0].score > f.score {
      InsertBounded(f, t[1..], bound);
    }
  }

  /** Inserting into a highest-first sequence keeps it highest first. */
  lemma {:induction false} InsertKeepsOrder(f: FileInfo, t: seq<FileInfo>)
    requires Descending(t)
    ensures Descending(Insert(f, t))
    decreases |t|
  {
    if |t| > 0 && t[0].score > f.score {
      var rest := Insert(f, t[1..]);
      InsertKeepsOrder(f, t[1..]);
      InsertBounded(f, t[1..], t[0].score);
      var u := [t[0]] + rest;
      forall i, j | 0 <= i < j < |u| ensures u[i].score >= u[j].score
      {
        if i > 0 { assert u[i] == rest[i - 1]; }
        assert u[j] == rest[j - 1];
      }
    }
  }

  /** Inserting puts `f` before the files of its own score. */
  lemma {:induction false} InsertBeforeTies(f: FileInfo, t: seq<FileInfo>, k: nat)
    ensures WithScore(Insert(f, t), k) == (if f.score == k then [f] else []) + WithScore(t, k)
    decreases |t|
  {
    if |t| > 0 && t[0].score > f.score {
      InsertBeforeTies(f, t[1..], k);
    }
  }

  /**
   * The sort is a stable, highest-first reordering: the same files, score
   * never rising, and files of equal score in their original order.
   */
  lemma {:induction false} SortByScoreOrders(files: seq<FileInfo>, k: nat)
    ensures Descending(SortByScore(files))
    ensures multiset(SortByScore(files)) == multiset(files)
    ensures WithScore(SortByScore(files), k) == WithScore(files, k)
  {
    hide SortByScore, Insert, WithScore, Descending;
    SortByScoreUnfold(files, k);
    if |files| > 0 {
      var rest := SortByScore(files[1..]);
      SortByScoreOrders(files[1..], k);
      InsertAdds(files[0], rest);
      InsertKeepsOrder(files[0], rest);
      InsertBeforeTies(files[0], rest, k);
      assert files == [files[0]] + files[1..];
    }
  }

  /** The sort and the score filter, one file at a time. */
  lemma SortByScoreUnfold(files: seq<FileInfo>, k: nat)
    ensures |files| == 0 ==> SortByScore(files) == [] && WithScore(files, k) == [] && Descending([])
    ensures |files| > 0 ==> SortByScore(files) == Insert(files[0], SortByScore(files[1..]))
    ensures |files| > 0 ==> WithScore(files, k) == (if files[0].score == k then [files[0]] else []) + WithScore(files[1..], k)
  {
  }

  /** A selected file: its ranking, the content kept, and whether it was cut. */
  datatype Selected = Selected(info: FileInfo, content: string, truncated: bool)

  /** `int(x / 1.3)` for a budget of `tenths` tenths of a token: the quotient truncated toward zero. */
  function CharsFor(tenths: int): int
  {
    if tenths >= 0 then tenths / 13 else -((-tenths) / 13)
  }

  /** `s[:k]` */
  function Prefix(s: string, k: int): (r: string)
    ensures r <= s
    ensures 0 <= k ==> |r| == if k < |s| then k else |s|
  {
    if k >= 0 then (if k < |s| then s[..k] else s)
    else if -k < |s| then s[..|s| + k] else ""
  }

  /**
   * The greedy loop of `extract_key_files` over files in ranked order, with
   * `used` tenths of a token already spent: a file that fits is taken whole;
   * the first one that does not fit but has priority 80 or more is cut to
   * the remaining budget, if that leaves more than `minChars` characters,
   * and ends the selection; any other file is skipped.
   */
  function Greedy(files: seq<FileInfo>, maxTokens: int, minChars: int, used: int): seq<Selected>
    decreases |files|
  {
    if |files| == 0 then []
    else
      var f := files[0];
      var estimate := 13 * |f.content|;
      if used + estimate <= 10 * maxTokens then
        [Selected(f, f.content, false)] + Greedy(files[1..], maxTokens, minChars, used + estimate)
      else if f.priority >= 80 && CharsFor(10 * maxTokens - used) > minChars then
        [Selected(f, Prefix(f.content, CharsFor(10 * maxTokens - used)), true)]
      else Greedy(files[1..], maxTokens, minChars, used)
  }

  /** The estimated tokens of a selection, in tenths. */
  function Spent(r: seq<Selected>): nat
  {
    if |r| == 0 then 0 else 13 * |r[0].content| + Spent(r[1..])
  }

  /** Starting within a non-negative budget, the selection never spends more than it. */
  lemma {:induction false} GreedyWithinBudget(files: seq<FileInfo>, maxTokens: int, minChars: int, used: int)
    requires 0 <= used <= 10 * maxTokens
    ensures used + Spent(Greedy(files, maxTokens, minChars, used)) <= 10 * maxTokens
    decreases |files|
  {
    if |files| > 0 {
      var f := files[0];
      var estimate := 13 * |f.content|;
      var r := Greedy(files, maxTokens, minChars, used);
      if used + estimate <= 10 * maxTokens {
        GreedyWithinBudget(files[1..], maxTokens, minChars, used + estimate);
        assert r[1..] == Greedy(files[1..], maxTokens, minChars, used + estimate);
      } else if f.priority >= 80 && CharsFor(10 * maxTokens - used) > minChars {
        var k := CharsFor(10 * maxTokens - used);
        assert 13 * k <= 10 * maxTokens - used;
        assert r[1..] == [];
      } else {
        GreedyWithinBudget(files[1..], maxTokens, minChars, used);
      }
    }
  }

  /**
   * Every selected file is one of the ranked files, kept whole unless it is
   * the one cut; only the last selected file can be cut, and only when its
   * priority is 80 or more.
   */
  predicate WellFormedSelection(r: seq<Selected>, files: seq<FileInfo>)
  {
    forall i :: 0 <= i < |r| ==>
      && r[i].info in files
      && r[i].content <= r[i].info.content
      && (r[i].truncated ==> i == |r| - 1 && r[i].info.priority >= 80)
      && (!r[i].truncated ==> r[i].content == r[i].info.content)
  }

  /** Selected files come highest score first. */
  predicate SelectionDescends(r: seq<Selected>)
  {
    forall i, j :: 0 <= i < j < |r| ==> r[i].info.score >= r[j].info.score
  }

  lemma {:induction false} GreedyShape(files: seq<FileInfo>, maxTokens: int, minChars: int, used: int)
    ensures WellFormedSelection(Greedy(files, maxTokens, minChars, used), files)
    decreases |files|
  {
    if |files| > 0 {
      var f := files[0];
      var estimate := 13 * |f.content|;
      if used + estimate <= 10 * maxTokens {
        var tail := Greedy(files[1..], maxTokens, minChars, used + estimate);
        GreedyShape(files[1..], maxTokens, minChars, used + estimate);
        var r := [Selected(f, f.content, false)] + tail;
        forall i | 1 <= i < |r| ensures r[i] == tail[i - 1] && tail[i - 1].info in files
        {
          assert tail[i - 1].info in files[1..];
        }
      } else if !(f.priority >= 80 && CharsFor(10 * maxTokens - used) > minChars) {
        GreedyShape(files[1..], maxTokens, minChars, used);
        forall x | x in files[1..] ensures x in files { }
      }
    }
  }

  /** Files visited highest score first are selected highest score first. */
  lemma {:induction false} GreedyKeepsOrder(files: seq<FileInfo>, maxTokens: int, minChars: int, used: int)
    requires Descending(files)
    ensures SelectionDescends(Greedy(files, maxTokens, minChars, used))
    decreases |files|
  {
    if |files| > 0 {
      var f := files[0];
      var estimate := 13 * |f.content|;
      var rest := files[1..];
      if used + estimate <= 10 * maxTokens {
        var tail := Greedy(rest, maxTokens, minChars, used + estimate);
        GreedyKeepsOrder(rest, maxTokens, minChars, used + estimate);
        GreedyShape(rest, maxTokens, minChars, used + estimate);
        var r := [Selected(f, f.content, false)] + tail;
        forall i, j | 0 <= i < j < |r| ensures r[i].info.score >= r[j].info.score
        {
          assert r[j] == tail[j - 1];
          if i == 0 {
            assert tail[j - 1].info in rest;
          } else {
            assert r[i] == tail[i - 1];
          }
        }
      } else if !(f.priority >= 80 && CharsFor(10 * maxTokens - used) > minChars) {
        GreedyKeepsOrder(rest, maxTokens, minChars, used);
      }
    }
  }

  /** When all the files fit, all of them are selected, whole and in order. */
  lemma {:induction false} GreedyTakesAllThatFits(files: seq<FileInfo>, maxTokens: int, minChars: int, used: int)
    requires used + Spent(seq(|files|, i requires 0 <= i < |files| => Selected(files[i], files[i].content, false))) <= 10 * maxTokens
    ensures Greedy(files, maxTokens, minChars, used) == seq(|files|, i requires 0 <= i < |files| => Selected(files[i], files[i].content, false))
    decreases |files|
  {
    if |files| > 0 {
      var all := seq(|files|, i requires 0 <= i < |files| => Selected(files[i], files[i].content, false));
      var rest := files[1..];
      var restAll := seq(|rest|, i requires 0 <= i < |rest| => Selected(rest[i], rest[i].content, false));
      assert all[1..] == restAll;
      GreedyTakesAllThatFits(rest, maxTokens, minChars, used + 13 * |files[0].content|);
    }
  }

  /** `extract_key_files`: nothing for no content; otherwise the greedy selection over the files ranked highest first. */
  function KeyFiles(content: seq<(string, string)>, maxTokens: int, minChars: int): seq<Selected>
  {
    if |content| == 0 then [] else Greedy(SortByScore(RankAll(content)), maxTokens, minChars, 0)
  }

  /** With a non-negative budget the key files stay within it; only the last can be cut, and they come highest score first. */
  lemma KeyFilesProperties(content: seq<(string, string)>, maxTokens: int, minChars: int)
    requires maxTokens >= 0
    ensures Spent(KeyFiles(content, maxTokens, minChars)) <= 10 * maxTokens
    ensures WellFormedSelection(KeyFiles(content, maxTokens, minChars), SortByScore(RankAll(content)))
    ensures SelectionDescends(KeyFiles(content, maxTokens, minChars))
  {
    if |content| > 0 {
      var sorted := SortByScore(RankAll(content));
      SortByScoreOrders(RankAll(content), 0);
      GreedyWithinBudget(sorted, maxTokens, minChars, 0);
      GreedyShape(sorted, maxTokens, minChars, 0);
      GreedyKeepsOrder(sorted, maxTokens, minChars, 0);
    }
  }

  /** `extract_key_files` */
  method ExtractKeyFiles(content: seq<(string, string)>, maxTokens: int, minChars: int) returns (selected: seq<Selected>)
    ensures selected == KeyFiles(content, maxTokens, minChars)
  {
    if |content| == 0 {
      return [];
    }
    var scored: seq<FileInfo> := [];
    var i := 0;
    while i < |content|
      invariant 0 <= i <= |content|
      invariant scored == RankAll(content[..i])
    {
      var priority := CalculatePriority(content[i].0, PriorityPatterns);
      scored := scored + [FileInfo(content[i].0, content[i].1, |content[i].1|, priority, 1000 * priority + |content[i].1|)];
      assert content[..i + 1][..i] == content[..i];
      i := i + 1;
    }
    assert content[..i] == content;
    var sorted := SortByScore(scored);
    selected := [];
    var used := 0;
    var j := 0;
    while j < |sorted|
      invariant 0 <= j <= |sorted|
      invariant selected + Greedy(sorted[j..], maxTokens, minChars, used) == Greedy(sorted, maxTokens, minChars, 0)
    {
      var f := sorted[j];
      assert sorted[j..][0] == f && sorted[j..][1..] == sorted[j + 1..];
      var estimate := 13 * |f.content|;
      if used + estimate <= 10 * maxTokens {
        AssociateThree(selected, [Selected(f, f.content, false)], Greedy(sorted[j + 1..], maxTokens, minChars, used + estimate));
        selected := selected + [Selected(f, f.content, false)];
        used := used + estimate;
      } else if f.priority >= 80 {
        var maxLength := CharsFor(10 * maxTokens - used);
        if maxLength > minChars {
          selected := selected + [Selected(f, Prefix(f.content, maxLength), true)];
          return;
        }
      }
      j := j + 1;
    }
    assert sorted[j..] == [];
  }

  // ---------------------------------------------------------------------
  // Limiting ingested content

  /** A value of the ingested content dictionary: a string, or anything else by its `str()`. */
  datatype Value = StrValue(text: string) | OtherValue(repr: string)

  /** A string value keeps its first 1000 characters, anything else the first 500 of its `str()`. */
  function LimitValue(v: Value): string
  {
    match v
    case StrValue(t) => Shorten(t, 1000)
    case OtherValue(r) => Shorten(r, 500)
  }

  /**
   * The content limiting of `preprocess_repository_sync`: at most the first
   * 50 entries, under their own keys, each value at most 1003 characters
   * long, a string of up to 1000 characters kept whole and a longer one cut
   * to its first 1000 characters followed by "...".
   */
  function LimitContent(c: seq<(string, Value)>): (r: seq<(string, string)>)
    ensures |r| <= 50 && |r| <= |c| && (|c| <= 50 ==> |r| == |c|)
    ensures forall i :: 0 <= i < |r| ==> r[i].0 == c[i].0 && |r[i].1| <= 1003
    ensures forall i :: 0 <= i < |r| && c[i].1.StrValue? && |c[i].1.text| <= 1000 ==> r[i].1 == c[i].1.text
    ensures forall i :: 0 <= i < |r| && c[i].1.StrValue? && |c[i].1.text| > 1000 ==>
              |r[i].1| == 1003 && r[i].1[..1000] == c[i].1.text[..1000] && r[i].1[1000..] == "..."
  {
    var n := if |c| < 50 then |c| else 50;
    seq(n, i requires 0 <= i < n => (c[i].0, LimitValue(c[i].1)))
  }

  // ---------------------------------------------------------------------
  // The archive fallback (`_fallback_via_zip`, `_extract_zip_content`)

  const MaxFileBytes: nat := 512 * 1024
  const TruncationMarker: string := "\n[File content truncated]"

  /** One member of the archive: its name, its bytes, and whether it can be opened and read. */
  datatype ZipEntry = ZipEntry(name: string, data: seq<bv8>, readable: bool)

  /** `name.split('/')[0]` of the first member. */
  function RootPrefix(entries: seq<ZipEntry>): string
    requires |entries| > 0
  {
    SplitOn(entries[0].name, '/')[0]
  }

  /** `name[len(root_prefix):].lstrip('/')`, or the name itself when the root prefix is empty. */
  function Relative(name: string, root: string): string
  {
    if root != "" then StripLeft(name[(if |root| < |name| then |root| else |name|)..], {'/'}) else name
  }

  /** The text stored for a member: its bytes decoded, cut at 512 KiB and marked when longer. */
  function EntryText(e: ZipEntry, decode: seq<bv8> -> string): string
  {
    if |e.data| > MaxFileBytes then decode(e.data[..MaxFileBytes]) + TruncationMarker else decode(e.data)
  }

  /** A member is stored when its relative name is a file name, its own name is text-like, and it can be read. */
  predicate Stored(e: ZipEntry, root: string)
  {
    Relative(e.name, root) != "" && !EndsWith(Relative(e.name, root), "/") && IsTextLike(e.name) && e.readable
  }

  /** The content map after the members in `entries`: later members overwrite earlier ones. */
  function ZipContent(entries: seq<ZipEntry>, root: string, decode: seq<bv8> -> string): map<string, string>
  {
    if |entries| == 0 then map[]
    else
      var before := ZipContent(entries[..|entries| - 1], root, decode);
      var e := entries[|entries| - 1];
      if Stored(e, root) then before[Relative(e.name, root) := EntryText(e, decode)] else before
  }

  /** `tree`: each stored name with the length of its stored text. */
  function Sizes(content: map<string, string>): (r: map<string, nat>)
    ensures r.Keys == content.Keys
  {
    map k | k in content :: |content[k]|
  }

  /** The content after one more member: its text under its relative name when it is stored. */
  lemma ZipContentStep(entries: seq<ZipEntry>, i: nat, root: string, decode: seq<bv8> -> string)
    requires i < |entries|
    ensures ZipContent(entries[..0], root, decode) == map[]
    ensures ZipContent(entries[..i + 1], root, decode) ==
              if Stored(entries[i], root) then ZipContent(entries[..i], root, decode)[Relative(entries[i].name, root) := EntryText(entries[i], decode)]
              else ZipContent(entries[..i], root, decode)
  {
    assert entries[..i + 1][..i] == entries[..i];
  }

  /** The content of no members, and of members with one more at the end. */
  lemma ZipContentLast(entries: seq<ZipEntry>, root: string, decode: seq<bv8> -> string)
    ensures |entries| == 0 ==> ZipContent(entries, root, decode) == map[]
    ensures |entries| > 0 ==>
              var e := entries[|entries| - 1];
              var before := ZipContent(entries[..|entries| - 1], root, decode);
              ZipContent(entries, root, decode)
              == if Stored(e, root) then before[Relative(e.name, root) := EntryText(e, decode)] else before
  {
  }

  /** Every stored member's relative name is in the content. */
  lemma {:induction false} ZipContentComplete(entries: seq<ZipEntry>, root: string, decode: seq<bv8> -> string)
    ensures forall i :: 0 <= i < |entries| && Stored(entries[i], root) ==>
              Relative(entries[i].name, root) in ZipContent(entries, root, decode)
  {
    hide Relative, EntryText, IsTextLike, EndsWith, Stored;
    if |entries| > 0 {
      var n := |entries| - 1;
      var init := entries[..n];
      ZipContentComplete(init, root, decode);
      ZipContentLast(entries, root, decode);
      hide ZipContent;
      forall i | 0 <= i < |entries| && Stored(entries[i], root)
        ensures Relative(entries[i].name, root) in ZipContent(entries, root, decode)
      {
        if i < n {
          assert init[i] == entries[i];
        }
      }
    }
  }

  /**
   * Every name in the content is a file name that is the relative name of a
   * stored member, and holds the text of the last such member.
   */
  lemma {:induction false} ZipContentSource(entries: seq<ZipEntry>, root: string, decode: seq<bv8> -> string, k: string)
    requires k in ZipContent(entries, root, decode)
    ensures k != "" && !EndsWith(k, "/")
    ensures exists i :: 0 <= i < |entries| && Stored(entries[i], root) && Relative(entries[i].name, root) == k
                        && ZipContent(entries, root, decode)[k] == EntryText(entries[i], decode)
                        && forall j :: i < j < |entries| && Stored(entries[j], root) ==> Relative(entries[j].name, root) != k
  {
    ZipContentLast(entries, root, decode);
    hide Relative, EntryText, IsTextLike, EndsWith, ZipContent;
    var n := |entries| - 1;
    var e := entries[n];
    if Stored(e, root) && Relative(e.name, root) == k {
      assert Stored(entries[n], root) && Relative(entries[n].name, root) == k;
    } else {
      var init := entries[..n];
      ZipContentSource(init, root, decode, k);
      var i :| 0 <= i < |init| && Stored(init[i], root) && Relative(init[i].name, root) == k
               && ZipContent(init, root, decode)[k] == EntryText(init[i], decode)
               && forall j :: i < j < |init| && Stored(init[j], root) ==> Relative(init[j].name, root) != k;
      SourceBeforeLast(entries, root, decode, k, i);
    }
  }

  /** A source found before the last member stays the source when the last member does not overwrite it. */
  lemma SourceBeforeLast(entries: seq<ZipEntry>, root: string, decode: seq<bv8> -> string, k: string, i: nat)
    requires |entries| > 0 && i < |entries| - 1
    requires var e := entries[|entries| - 1]; !(Stored(e, root) && Relative(e.name, root) == k)
    requires var init := entries[..|entries| - 1];
             && Stored(init[i], root) && Relative(init[i].name, root) == k && k in ZipContent(init, root, decode)
             && ZipContent(init, root, decode)[k] == EntryText(init[i], decode)
             && forall j :: i < j < |init| && Stored(init[j], root) ==> Relative(init[j].name, root) != k
    ensures Stored(entries[i], root) && Relative(entries[i].name, root) == k
    ensures k in ZipContent(entries, root, decode) && ZipContent(entries, root, decode)[k] == EntryText(entries[i], decode)
    ensures forall j :: i < j < |entries| && Stored(entries[j], root) ==> Relative(entries[j].name, root) != k
  {
    hide Relative, EntryText, IsTextLike, EndsWith, ZipContent, Stored;
    ZipContentLast(entries, root, decode);
    var n := |entries| - 1;
    var init := entries[..n];
    assert init[i] == entries[i];
    forall j | i < j < |entries| && Stored(entries[j], root)
      ensures Relative(entries[j].name, root) != k
    {
      if j < n {
        assert init[j] == entries[j];
      }
    }
  }

  /** Storing one more text adds its length to the sizes. */
  lemma SizesUpdate(content: map<string, string>, k: string, text: string)
    ensures Sizes(content)[k := |text|] == Sizes(content[k := text])
  {
  }

  /** `_extract_zip_content`: the stored texts and their sizes. */
  method ExtractZipContent(entries: seq<ZipEntry>, decode: seq<bv8> -> string)
    returns (content: map<string, string>, tree: map<string, nat>)
    ensures |entries| > 0 ==> content == ZipContent(entries, RootPrefix(entries), decode)
    ensures |entries| == 0 ==> content == map[]
    ensures tree == Sizes(content)
  {
    hide ZipContent, Sizes, Relative, EntryText, IsTextLike, EndsWith;
    content := map[];
    tree := map[];
    var root: Option<string> := None;
    var i := 0;
    while i < |entries|
      invariant 0 <= i <= |entries|
      invariant i == 0 <==> root.None?
      invariant i > 0 ==> root == Some(RootPrefix(entries)) && content == ZipContent(entries[..i], root.value, decode)
      invariant i == 0 ==> content == map[]
      invariant tree == Sizes(content)
    {
      var name := entries[i].name;
      if root.None? {
        root := Some(SplitOn(name, '/')[0]);
      }
      ZipContentStep(entries, i, root.value, decode);
      var rel := Relative(name, root.value);
      if rel != "" && !EndsWith(rel, "/") && IsTextLike(name) && entries[i].readable {
        var text := EntryText(entries[i], decode);
        SizesUpdate(content, rel, text);
        content := content[rel := text];
        tree := tree[rel := |text|];
      }
      i := i + 1;
    }
    if |entries| > 0 {
      assert entries[..i] == entries;
    }
  }

  /** What fetching one address gives: the bytes read, or the exception's message. */
  datatype Fetch = Fetched(data: seq<bv8>) | FetchFailed(message: string)

  /** What opening the bytes as an archive gives: its members, or the exception's message. */
  datatype Unzipped = Archive(entries: seq<ZipEntry>) | BadArchive(message: string)

  /** The four archive addresses tried, in order. */
  function ArchiveUrls(owner: string, repo: string): (r: seq<string>)
    ensures |r| == 4
  {
    var base := "https://github.com/" + owner + "/" + repo + "/archive/";
    [base + "refs/heads/main.zip", base + "refs/heads/master.zip", base + "main.zip", base + "master.zip"]
  }

  /** The first bytes fetched from `urls`, and the message of the last failure before them. */
  function FirstFetch(urls: seq<string>, fetch: string -> Fetch, lastError: Option<string>): (Option<seq<bv8>>, Option<string>)
  {
    if |urls| == 0 then (None, lastError)
    else match fetch(urls[0])
      case Fetched(data) => (Some(data), lastError)
      case FetchFailed(m) => FirstFetch(urls[1..], fetch, Some(m))
  }

  /** The bytes come from the first address that answered, and none comes back when every address failed. */
  lemma {:induction false} FirstFetchFirst(urls: seq<string>, fetch: string -> Fetch, lastError: Option<string>)
    ensures var (data, _) := FirstFetch(urls, fetch, lastError);
            && (data.None? <==> forall i :: 0 <= i < |urls| ==> fetch(urls[i]).FetchFailed?)
            && (data.Some? ==> exists i :: 0 <= i < |urls| && fetch(urls[i]) == Fetched(data.value)
                                 && forall j :: 0 <= j < i ==> fetch(urls[j]).FetchFailed?)
  {
    if |urls| > 0 && fetch(urls[0]).FetchFailed? {
      FirstFetchFirst(urls[1..], fetch, Some(fetch(urls[0]).message));
      var (data, _) := FirstFetch(urls[1..], fetch, Some(fetch(urls[0]).message));
      if data.Some? {
        var i :| 0 <= i < |urls[1..]| && fetch(urls[1..][i]) == Fetched(data.value)
                 && forall j :: 0 <= j < i ==> fetch(urls[1..][j]).FetchFailed?;
        assert fetch(urls[i + 1]) == Fetched(data.value);
        assert forall j :: 0 <= j < i + 1 ==> fetch(urls[j]).FetchFailed? by {
          forall j | 0 <= j < i + 1 ensures fetch(urls[j]).FetchFailed? {
            if j > 0 { assert urls[j] == urls[1..][j - 1]; }
          }
        }
      } else {
        forall i | 0 <= i < |urls| ensures fetch(urls[i]).FetchFailed? {
          if i > 0 { assert urls[i] == urls[1..][i - 1]; }
        }
      }
    }
  }

  /** The download loop of `_fallback_via_zip`. */
  method FetchArchive(urls: seq<string>, fetch: string -> Fetch) returns (data: Option<seq<bv8>>, lastError: Option<string>)
    ensures (data, lastError) == FirstFetch(urls, fetch, None)
  {
    data := None;
    lastError := None;
    var i := 0;
    while i < |urls|
      invariant 0 <= i <= |urls|
      invariant FirstFetch(urls[i..], fetch, lastError) == FirstFetch(urls, fetch, None)
    {
      assert urls[i..][0] == urls[i] && urls[i..][1..] == urls[i + 1..];
      match fetch(urls[i])
      case Fetched(bytes) =>
        data := Some(bytes);
        return;
      case FetchFailed(m) =>
        lastError := Some(m);
      i := i + 1;
    }
  }

  /** What the archive fallback gives: the summary and sizes, or an error message. */
  datatype ZipOutcome = ZipImported(summary: string, tree: map<string, nat>) | ZipFailed(error: string)

  /** `str(last_err)` */
  function ErrorText(e: Option<string>): string
  {
    if e.Some? then e.value else "None"
  }

  /** `_fallback_via_zip` */
  function ZipFallback(url: string, fetch: string -> Fetch, unzip: seq<bv8> -> Unzipped,
                       decode: seq<bv8> -> string): ZipOutcome
  {
    var (owner, repo) := ParseOwnerRepo(url);
    if owner == "" then ZipFailed("Unable to parse GitHub repository address")
    else
      var (data, lastError) := FirstFetch(ArchiveUrls(owner, repo), fetch, None);
      if data.None? || data.value == [] then ZipFailed("zip download failed: " + ErrorText(lastError))
      else match unzip(data.value)
        case BadArchive(m) => ZipFailed("Failed to extract zip content: " + m)
        case Archive(entries) =>
          var content := if |entries| > 0 then ZipContent(entries, RootPrefix(entries), decode) else map[];
          ZipImported("Imported via zip fallback, file count: " + EnvProvision.Decimal(|content|), Sizes(content))
  }

  /** `_fallback_via_zip`, step by step. */
  method FallbackViaZip(url: string, fetch: string -> Fetch, unzip: seq<bv8> -> Unzipped,
                        decode: seq<bv8> -> string) returns (r: ZipOutcome)
    ensures r == ZipFallback(url, fetch, unzip, decode)
  {
    var (owner, repo) := ParseOwnerRepo(url);
    if owner == "" {
      return ZipFailed("Unable to parse GitHub repository address");
    }
    var data, lastError := FetchArchive(ArchiveUrls(owner, repo), fetch);
    if data.None? || data.value == [] {
      return ZipFailed("zip download failed: " + ErrorText(lastError));
    }
    match unzip(data.value)
    case BadArchive(m) =>
      r := ZipFailed("Failed to extract zip content: " + m);
    case Archive(entries) =>
      var content, tree := ExtractZipContent(entries, decode);
      r := ZipImported("Imported via zip fallback, file count: " + EnvProvision.Decimal(|content|), tree);
  }

  // ---------------------------------------------------------------------
  // Preprocessing (`preprocess_repository_sync`)

  /** An object the ingestion library returned: a plain value, or a dictionary of entries in order. */
  datatype Item = Scalar(value: Value) | Dict(entries: seq<(string, Value)>)

  /** What `ingest` returned: a tuple of objects, or a single object by its `str()` and truthiness. */
  datatype IngestData = Tuple(items: seq<Item>) | Single(text: string, truthy: bool)

  /** One call of `ingest`: what it returned, or the exception's message. */
  datatype IngestReply = Returned(data: IngestData) | IngestRaised(message: string)

  /**
   * The preprocessing result: processed by the ingestion library (summary,
   * tree, limited content), by the archive fallback (summary and sizes, no
   * content), or not at all (the error, if any).
   */
  datatype Preprocessed =
    | Library(repositoryUrl: string, summary: Item, fileTree: Item, content: seq<(string, string)>)
    | Archived(repositoryUrl: string, zipSummary: string, sizes: map<string, nat>)
    | Unprocessed(repositoryUrl: string, error: Option<string>)

  /** `result["success"]` */
  predicate Succeeded(p: Preprocessed)
  {
    !p.Unprocessed?
  }

  /** `result["processed_by"]` */
  function ProcessedBy(p: Preprocessed): string
  {
    match p
    case Library(_, _, _, _) => "gitingest"
    case Archived(_, _, _) => "zip_fallback"
    case Unprocessed(_, _) => "fallback"
  }

  const DefaultSummary: string := "gitingest processing result"

  /** The summary, tree and content unpacked from what `ingest` returned. */
  function Unpack(d: IngestData): (Item, Item, Item)
  {
    match d
    case Tuple(items) =>
      if |items| >= 3 then (items[0], items[1], items[2])
      else if |items| == 2 then (items[0], items[1], Dict([]))
      else if |items| == 1 then (items[0], Dict([]), Dict([]))
      else (Scalar(StrValue(DefaultSummary)), Dict([]), Dict([]))
    case Single(text, truthy) => (Scalar(StrValue(if truthy then text else DefaultSummary)), Dict([]), Dict([]))
  }

  /** The result of an `ingest` call that returned: its content limited when it is a dictionary, empty otherwise. */
  function FromIngest(url: string, d: IngestData): Preprocessed
  {
    var (summary, tree, content) := Unpack(d);
    Library(url, summary, tree, if content.Dict? then LimitContent(content.entries) else [])
  }

  /** The pause after failed attempt `n`: `min(60, 5 * n)` seconds. */
  function Backoff(n: nat): nat
  {
    if 5 * n < 60 then 5 * n else 60
  }

  /** The attempts after the first `done`: the result of the first that returned, and the pauses before it. */
  function Attempts(url: string, ingest: nat -> IngestReply, done: nat): (Option<Preprocessed>, seq<nat>)
    decreases 3 - done
  {
    if done >= 3 then (None, [])
    else match ingest(done + 1)
      case Returned(d) => (Some(FromIngest(url, d)), [])
      case IngestRaised(_) =>
        var (r, pauses) := Attempts(url, ingest, done + 1);
        (r, [Backoff(done + 1)] + pauses)
  }

  /** The archive fallback's result as a preprocessing result. */
  function FromZip(url: string, z: ZipOutcome): Preprocessed
  {
    match z
    case ZipImported(summary, tree) => Archived(url, summary, tree)
    case ZipFailed(e) => Unprocessed(url, Some(e))
  }

  /**
   * `preprocess_repository_sync`, with whether the library imported, what
   * each attempt of `ingest` does, and the archive download as parameters;
   * also the pauses taken between attempts.
   */
  function Preprocess(url: string, available: bool, ingest: nat -> IngestReply, fetch: string -> Fetch,
                      unzip: seq<bv8> -> Unzipped, decode: seq<bv8> -> string): (Preprocessed, seq<nat>)
  {
    if !IsGithubUrl(url) then (Unprocessed(url, None), [])
    else if !available then (FromZip(url, ZipFallback(url, fetch, unzip, decode)), [])
    else
      var (r, pauses) := Attempts(url, ingest, 0);
      if r.Some? then (r.value, pauses) else (FromZip(url, ZipFallback(url, fetch, unzip, decode)), pauses)
  }

  /** For a GitHub address with the library present, the attempts decide, then the archive fallback. */
  lemma PreprocessByAttempts(url: string, available: bool, ingest: nat -> IngestReply, fetch: string -> Fetch,
                             unzip: seq<bv8> -> Unzipped, decode: seq<bv8> -> string)
    requires IsGithubUrl(url) && available
    ensures Preprocess(url, available, ingest, fetch, unzip, decode) ==
              if Attempts(url, ingest, 0).0.Some? then (Attempts(url, ingest, 0).0.value, Attempts(url, ingest, 0).1)
              else (FromZip(url, ZipFallback(url, fetch, unzip, decode)), Attempts(url, ingest, 0).1)
  {
  }

  /** `preprocess_repository_sync`, step by step. */
  method PreprocessRepository(url: string, available: bool, ingest: nat -> IngestReply, fetch: string -> Fetch,
                              unzip: seq<bv8> -> Unzipped, decode: seq<bv8> -> string)
    returns (r: Preprocessed, pauses: seq<nat>)
    ensures (r, pauses) == Preprocess(url, available, ingest, fetch, unzip, decode)
  {
    hide FromIngest, FromZip, ZipFallback;
    pauses := [];
    if !IsGithubUrl(url) {
      return Unprocessed(url, None), [];
    }
    if !available {
      var z := FallbackViaZip(url, fetch, unzip, decode);
      return FromZip(url, z), [];
    }
    PreprocessByAttempts(url, available, ingest, fetch, unzip, decode);
    hide Preprocess;
    var attempts := 0;
    while attempts < 3
      invariant 0 <= attempts <= 3
      invariant Attempts(url, ingest, 0).0 == Attempts(url, ingest, attempts).0
      invariant Attempts(url, ingest, 0).1 == pauses + Attempts(url, ingest, attempts).1
    {
      hide Attempts, Backoff;
      AttemptsStep(url, ingest, attempts);
      match ingest(attempts + 1)
      case Returned(d) =>
        assert pauses + [] == pauses;
        return FromIngest(url, d), pauses;
      case IngestRaised(_) =>
        AssociateThree(pauses, [Backoff(attempts + 1)], Attempts(url, ingest, attempts + 1).1);
        pauses := pauses + [Backoff(attempts + 1)];
      attempts := attempts + 1;
    }
    assert pauses + Attempts(url, ingest, 3).1 == pauses;
    var z := FallbackViaZip(url, fetch, unzip, decode);
    r := FromZip(url, z);
  }

  /** One attempt: the result when it returns, otherwise its pause and the attempts after it. */
  lemma AttemptsStep(url: string, ingest: nat -> IngestReply, done: nat)
    requires done < 3
    ensures ingest(done + 1).Returned? ==>
              Attempts(url, ingest, done) == (Some(FromIngest(url, ingest(done + 1).data)), [])
    ensures ingest(done + 1).IngestRaised? ==>
              Attempts(url, ingest, done) ==
                (Attempts(url, ingest, done + 1).0, [Backoff(done + 1)] + Attempts(url, ingest, done + 1).1)
  {
  }

  /** The attempts after the first `done` pause at most once per attempt left, 5 seconds more each time. */
  lemma {:induction false} AttemptsPause(url: string, ingest: nat -> IngestReply, done: nat)
    requires done <= 3
    ensures |Attempts(url, ingest, done).1| <= 3 - done
    ensures forall i :: 0 <= i < |Attempts(url, ingest, done).1| ==> Attempts(url, ingest, done).1[i] == 5 * (done + i + 1)
    ensures (forall n :: done < n <= 3 ==> ingest(n).IngestRaised?) ==> Attempts(url, ingest, done).0.None?
    decreases 3 - done
  {
    hide FromIngest;
    if done < 3 && ingest(done + 1).IngestRaised? {
      AttemptsPause(url, ingest, done + 1);
    }
  }

  /**
   * A non-GitHub address is not processed and nothing is tried; the library
   * is tried at most three times, pausing 5, 10 and 15 seconds after the
   * failures, and when all three fail the archive fallback decides.
   */
  lemma PreprocessAttempts(url: string, available: bool, ingest: nat -> IngestReply, fetch: string -> Fetch,
                           unzip: seq<bv8> -> Unzipped, decode: seq<bv8> -> string)
    ensures var (r, pauses) := Preprocess(url, available, ingest, fetch, unzip, decode);
            && (!IsGithubUrl(url) ==> r == Unprocessed(url, None) && pauses == [])
            && |pauses| <= 3
            && (forall i :: 0 <= i < |pauses| ==> pauses[i] == 5 * (i + 1))
            && (IsGithubUrl(url) && available && (forall n :: 1 <= n <= 3 ==> ingest(n).IngestRaised?) ==>
                  |pauses| == 3 && r == FromZip(url, ZipFallback(url, fetch, unzip, decode)))
  {
    hide FromIngest, FromZip, ZipFallback, IsGithubUrl;
    AttemptsPause(url, ingest, 0);
    if IsGithubUrl(url) && available && (forall n :: 1 <= n <= 3 ==> ingest(n).IngestRaised?) {
      assert ingest(1).IngestRaised? && ingest(2).IngestRaised? && ingest(3).IngestRaised?;
    }
  }

  /** A result from the library holds at most 50 entries of content. */
  lemma IngestedContentLimited(url: string, available: bool, ingest: nat -> IngestReply, fetch: string -> Fetch,
                               unzip: seq<bv8> -> Unzipped, decode: seq<bv8> -> string)
    ensures var (r, _) := Preprocess(url, available, ingest, fetch, unzip, decode);
            r.Library? ==> Limited(r)
  {
    AttemptsLimited(url, ingest, 0);
    hide Attempts, ZipFallback, IsGithubUrl;
  }

  /** A library result holds at most 50 entries of content, each of at most 1003 characters. */
  predicate Limited(r: Preprocessed)
    requires r.Library?
  {
    |r.content| <= 50 && forall i :: 0 <= i < |r.content| ==> |r.content[i].1| <= 1003
  }

  /** Whatever result an attempt returns is a library result within the limits. */
  lemma {:induction false} AttemptsLimited(url: string, ingest: nat -> IngestReply, done: nat)
    ensures var r := Attempts(url, ingest, done).0;
            r.Some? ==> r.value.Library? && Limited(r.value)
    decreases 3 - done
  {
    if done < 3 && ingest(done + 1).IngestRaised? {
      AttemptsLimited(url, ingest, done + 1);
    }
  }
}
