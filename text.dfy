/**
 * String helpers shared by the model: the small part of Python's `str`
 * behaviour that the pipeline relies on (`in`, `startswith`, `endswith`,
 * `strip`, `split`, `replace`, `lower`, `isalnum`, `splitlines`).
 * Strings are sequences of characters; case mapping and `isalnum` cover
 * the ASCII range only.
 */
module Text {

  /** Python's `str.isspace` (and `\s` in a `str` regex). */
  predicate IsSpace(c: char)
  {
    c == ' ' || '\t' <= c <= '\r' || '\U{1C}' <= c <= '\U{1F}' || c == '\U{85}' || c == '\U{A0}'
    || c == '\U{1680}' || '\U{2000}' <= c <= '\U{200A}' || c == '\U{2028}' || c == '\U{2029}'
    || c == '\U{202F}' || c == '\U{205F}' || c == '\U{3000}'
  }

  /** The characters `IsSpace` accepts. */
  const Whitespace: set<char> := set c: char | '\t' <= c <= '\U{3000}' && IsSpace(c)

  /** The characters `str.splitlines` treats as line boundaries. */
  const LineBreaks: set<char> :=
    {'\n', '\r', '\U{0B}', '\U{0C}', '\U{1C}', '\U{1D}', '\U{1E}', '\U{85}', '\U{2028}', '\U{2029}'}

  /** `sub in s` */
  predicate Contains(s: string, sub: string)
    decreases |s|
  {
    sub <= s || (|s| > 0 && Contains(s[1..], sub))
  }

  /** `s.endswith(suffix)` */
  predicate EndsWith(s: string, suffix: string)
  {
    |suffix| <= |s| && s[|s| - |suffix|..] == suffix
  }

  predicate IsDigit(c: char) { '0' <= c <= '9' }

  predicate IsAsciiLetter(c: char) { 'a' <= c <= 'z' || 'A' <= c <= 'Z' }

  predicate IsAlnum(c: char) { IsDigit(c) || IsAsciiLetter(c) }

  function LowerChar(c: char): (r: char)
    ensures !('A' <= r <= 'Z')
  {
    if 'A' <= c <= 'Z' then (c as int + 32) as char else c
  }

  /** `s.lower()` on the ASCII range */
  function Lower(s: string): (r: string)
    ensures |r| == |s|
    ensures forall i :: 0 <= i < |s| ==> r[i] == LowerChar(s[i])
  {
    if |s| == 0 then "" else [LowerChar(s[0])] + Lower(s[1..])
  }

  /** Text without upper-case letters is its own lower case. */
  lemma LowerUnchanged(s: string)
    requires forall i :: 0 <= i < |s| ==> !('A' <= s[i] <= 'Z')
    ensures Lower(s) == s
  {
  }

  /** `s.lstrip(chars)` */
  function StripLeft(s: string, chars: set<char>): (r: string)
    ensures |r| <= |s|
    ensures |r| > 0 ==> r[0] !in chars
    ensures forall i :: 0 <= i < |s| - |r| ==> s[i] in chars
  {
    if |s| > 0 && s[0] in chars then StripLeft(s[1..], chars) else s
  }

  /** What `lstrip` leaves is a suffix of the text. */
  lemma {:induction false} StripLeftSuffix(s: string, chars: set<char>)
    ensures var r := StripLeft(s, chars); r == s[|s| - |r|..]
    decreases |s|
  {
    if |s| > 0 && s[0] in chars {
      StripLeftSuffix(s[1..], chars);
    }
  }

  /** `s.rstrip(chars)` */
  function StripRight(s: string, chars: set<char>): (r: string)
    ensures r <= s
    ensures |r| > 0 ==> r[|r| - 1] !in chars
    ensures forall i :: |r| <= i < |s| ==> s[i] in chars
  {
    if |s| > 0 && s[|s| - 1] in chars then StripRight(s[..|s| - 1], chars) else s
  }

  /** `s.strip(chars)` */
  function StripChars(s: string, chars: set<char>): (r: string)
    ensures |r| <= |s|
    ensures |r| > 0 ==> r[0] !in chars && r[|r| - 1] !in chars
  {
    StripRight(StripLeft(s, chars), chars)
  }

  /** `s.strip()` */
  function Strip(s: string): (r: string)
    ensures |r| <= |s|
    ensures |r| > 0 ==> r[0] !in Whitespace && r[|r| - 1] !in Whitespace
  {
    StripChars(s, Whitespace)
  }

  /** `s.split(c)[-1]`: the text after the last `c`, or all of `s`. */
  function AfterLast(s: string, c: char): (r: string)
    ensures c !in r
    ensures |r| <= |s| && r == s[|s| - |r|..]
    ensures |r| < |s| ==> s[|s| - |r| - 1] == c
  {
    if |s| == 0 then ""
    else if s[|s| - 1] == c then ""
    else AfterLast(s[..|s| - 1], c) + [s[|s| - 1]]
  }

  /** What follows a final separator is the part after the last one. */
  lemma AfterLastAppend(a: string, b: string, c: char)
    requires a == "" || a[|a| - 1] == c
    requires c !in b
    ensures AfterLast(a + b, c) == b
  {
    hide AfterLast;
    var s := a + b;
    var r := AfterLast(s, c);
    assert s[|s| - |b|..] == b;
  }

  /** `s.split(c)` for a one-character separator. */
  function SplitOn(s: string, c: char): (r: seq<string>)
    ensures |r| >= 1
    ensures forall i :: 0 <= i < |r| ==> c !in r[i]
  {
    if |s| == 0 then [""]
    else
      var rest := SplitOn(s[1..], c);
      assert s == [s[0]] + s[1..];
      if s[0] == c then [""] + rest
      else [[s[0]] + rest[0]] + rest[1..]
  }

  /** The text before the first separator is the first piece; the rest is split alike. */
  lemma {:induction false} SplitOnFirst(a: string, c: char, rest: string)
    requires c !in a
    ensures SplitOn(a + [c] + rest, c) == [a] + SplitOn(rest, c)
    decreases |a|
  {
    if a == [] {
      assert a + [c] + rest == [c] + rest;
      assert ([c] + rest)[1..] == rest;
    } else {
      var s := a + [c] + rest;
      assert s[0] == a[0] && s[1..] == a[1..] + [c] + rest;
      SplitOnFirst(a[1..], c, rest);
      assert a == [a[0]] + a[1..];
    }
  }

  /** Regrouping a concatenation of three sequences. */
  lemma AssociateThree<T>(a: seq<T>, b: seq<T>, c: seq<T>)
    ensures a + b + c == a + (b + c)
  {
  }

  /** A suffix of a sequence is its first element followed by the rest. */
  lemma SliceHead<T>(s: seq<T>, i: nat)
    requires i < |s|
    ensures s[i..] == [s[i]] + s[i + 1..]
  {
  }

  /** Regrouping a concatenation of four sequences. */
  lemma Associate<T>(a: seq<T>, b: seq<T>, c: seq<T>, d: seq<T>)
    ensures a + b + c + d == a + (b + c + d)
  {
  }

  /** `sep.join(parts)` */
  function JoinWith(parts: seq<string>, sep: string): string
  {
    if |parts| == 0 then ""
    else if |parts| == 1 then parts[0]
    else parts[0] + sep + JoinWith(parts[1..], sep)
  }

  /** Joining what `SplitOn` cut gives back the original text. */
  lemma {:induction false} SplitJoin(s: string, c: char)
    ensures JoinWith(SplitOn(s, c), [c]) == s
    decreases |s|
  {
    if |s| > 0 {
      var rest := SplitOn(s[1..], c);
      SplitJoin(s[1..], c);
      if s[0] != c {
        if |rest| > 1 {
          assert JoinWith(rest, [c]) == rest[0] + [c] + JoinWith(rest[1..], [c]);
        }
      }
    }
  }

  /** `s.replace(pat, rep)`: non-overlapping occurrences, left to right. */
  function ReplaceAll(s: string, pat: string, rep: string): (r: string)
    requires |pat| > 0
    decreases |s|
  {
    if |s| == 0 then ""
    else if pat <= s then rep + ReplaceAll(s[|pat|..], pat, rep)
    else [s[0]] + ReplaceAll(s[1..], pat, rep)
  }

  /** Replacing a pattern that never occurs changes nothing. */
  lemma {:induction false} ReplaceAbsent(s: string, pat: string, rep: string)
    requires |pat| > 0 && !Contains(s, pat)
    ensures ReplaceAll(s, pat, rep) == s
    decreases |s|
  {
    if |s| > 0 {
      ReplaceAbsent(s[1..], pat, rep);
    }
  }

  /** A replacement by a single character of a single character leaves no occurrence behind. */
  lemma {:induction false} ReplaceCharRemovesIt(s: string, a: char, b: char)
    requires a != b
    ensures a !in ReplaceAll(s, [a], [b])
    ensures |ReplaceAll(s, [a], [b])| == |s|
    decreases |s|
  {
    if |s| > 0 {
      ReplaceCharRemovesIt(s[1..], a, b);
    }
  }

  /** `s.splitlines()` */
  function SplitLines(s: string): (r: seq<string>)
    ensures forall i :: 0 <= i < |r| ==> forall c :: c in r[i] ==> c !in LineBreaks
    decreases |s|
  {
    if |s| == 0 then []
    else
      var k := LineEnd(s, 0);
      var next := if k < |s| && s[k] == '\r' && k + 1 < |s| && s[k + 1] == '\n' then k + 2
                  else if k < |s| then k + 1 else k;
      [s[..k]] + SplitLines(s[next..])
  }

  /** Index of the first line boundary at or after `i`, or `|s|`. */
  function LineEnd(s: string, i: nat): (k: nat)
    requires i <= |s|
    ensures i <= k <= |s|
    ensures k < |s| ==> s[k] in LineBreaks
    ensures forall j :: i <= j < k ==> s[j] !in LineBreaks
    decreases |s| - i
  {
    if i == |s| || s[i] in LineBreaks then i else LineEnd(s, i + 1)
  }

  /** Text without a line boundary comes back from `splitlines` as one line. */
  lemma SplitLinesSingle(s: string)
    requires |s| > 0 && forall c :: c in s ==> c !in LineBreaks
    ensures SplitLines(s) == [s]
  {
    assert forall j :: 0 <= j < |s| ==> s[j] !in LineBreaks;
    var k := LineEnd(s, 0);
    assert s[..k] == s;
    assert SplitLines(s[k..]) == [];
  }

  /** Stripping from the left distributes over a concatenation. */
  lemma {:induction false} StripLeftAppend(a: string, b: string, chars: set<char>)
    ensures StripLeft(a, chars) != "" ==> StripLeft(a + b, chars) == StripLeft(a, chars) + b
    ensures StripLeft(a, chars) == "" ==> StripLeft(a + b, chars) == StripLeft(b, chars)
    decreases |a|
  {
    if |a| > 0 {
      assert (a + b)[0] == a[0];
      if a[0] in chars {
        assert (a + b)[1..] == a[1..] + b;
        StripLeftAppend(a[1..], b, chars);
      }
    } else {
      assert a + b == b;
    }
  }

  /** Stripping from the right distributes over a concatenation. */
  lemma {:induction false} StripRightAppend(a: string, b: string, chars: set<char>)
    ensures StripRight(b, chars) != "" ==> StripRight(a + b, chars) == a + StripRight(b, chars)
    ensures StripRight(b, chars) == "" ==> StripRight(a + b, chars) == StripRight(a, chars)
    decreases |b|
  {
    if |b| > 0 {
      assert (a + b)[|a + b| - 1] == b[|b| - 1];
      if b[|b| - 1] in chars {
        assert (a + b)[..|a + b| - 1] == a + b[..|b| - 1];
        StripRightAppend(a, b[..|b| - 1], chars);
      }
    } else {
      assert a + b == a;
    }
  }

  /** A text whose ends are not blank is its own strip. */
  lemma StripUnchanged(s: string)
    requires |s| > 0 ==> s[0] !in Whitespace && s[|s| - 1] !in Whitespace
    ensures Strip(s) == s
  {
  }

  /** `strip` is idempotent. */
  lemma StripIdempotent(s: string)
    ensures Strip(Strip(s)) == Strip(s)
  {
    StripUnchanged(Strip(s));
  }

  /** Every character of a stripped text comes from the text. */
  lemma StripKeepsChars(s: string)
    ensures forall c :: c in Strip(s) ==> c in s
  {
    var l := StripLeft(s, Whitespace);
    var r := StripRight(l, Whitespace);
    StripLeftSuffix(s, Whitespace);
    assert forall k :: 0 <= k < |r| ==> r[k] == l[k] == s[|s| - |l| + k];
  }

  /** A pattern whose first character never occurs is never contained. */
  lemma {:induction false} AbsentHeadNotContained(s: string, sub: string)
    requires |sub| > 0 && sub[0] !in s
    ensures !Contains(s, sub)
    decreases |s|
  {
    if |s| > 0 {
      assert s[0] in s;
      assert forall c :: c in s[1..] ==> c in s;
      AbsentHeadNotContained(s[1..], sub);
    }
  }

  /** Splitting text without the separator gives it back whole. */
  lemma {:induction false} SplitOnAbsent(a: string, c: char)
    requires c !in a
    ensures SplitOn(a, c) == [a]
    decreases |a|
  {
    if |a| > 0 {
      SplitOnAbsent(a[1..], c);
      assert a == [a[0]] + a[1..];
    }
  }

  /** The index of the first `c` in `s`, or `|s|`. */
  function IndexOf(s: string, c: char): (i: nat)
    ensures i <= |s|
    ensures i < |s| ==> s[i] == c
    ensures forall j :: 0 <= j < i ==> s[j] != c
  {
    if |s| == 0 then 0 else if s[0] == c then 0 else 1 + IndexOf(s[1..], c)
  }

  /** The first separator after text that does not hold it is found right there. */
  lemma {:induction false} IndexOfAfter(a: string, c: char, b: string)
    requires c !in a
    ensures IndexOf(a + [c] + b, c) == |a|
    decreases |a|
  {
    if |a| > 0 {
      assert (a + [c] + b)[1..] == a[1..] + [c] + b;
      IndexOfAfter(a[1..], c, b);
    }
  }

  /** A text contains each of its prefixes. */
  lemma PrefixContained(s: string, sub: string)
    requires sub <= s
    ensures Contains(s, sub)
  {
  }

  /** A pattern with a character that never occurs in the text is not contained in it. */
  lemma {:induction false} MissingCharNotContained(s: string, sub: string, j: nat)
    requires j < |sub| && sub[j] !in s
    ensures !Contains(s, sub)
    decreases |s|
  {
    if |s| > 0 {
      assert forall c :: c in s[1..] ==> c in s;
      MissingCharNotContained(s[1..], sub, j);
    }
  }

  /** Every slice of a text is contained in it. */
  lemma {:induction false} SliceContained(s: string, i: nat, k: nat)
    requires i <= k <= |s|
    ensures Contains(s, s[i..k])
    decreases i
  {
    if i > 0 {
      SliceContained(s[1..], i - 1, k - 1);
      assert s[1..][i - 1..k - 1] == s[i..k];
    }
  }

  /** A line followed by a newline comes back first from `splitlines`, then the rest. */
  lemma SplitLinesFirst(line: string, rest: string)
    requires forall c :: c in line ==> c !in LineBreaks
    ensures SplitLines(line + "\n" + rest) == [line] + SplitLines(rest)
  {
    var s := line + "\n" + rest;
    assert forall j :: 0 <= j < |line| ==> s[j] == line[j] && s[j] !in LineBreaks;
    var k := LineEnd(s, 0);
    assert k == |line| by {
      assert s[|line|] == '\n';
    }
    assert s[..k] == line;
    assert s[k + 1..] == rest;
  }

  /** `s.count(c)` */
  function Occurrences(s: string, c: char): (n: nat)
    ensures n <= |s|
    ensures n == 0 <==> c !in s
  {
    if s == [] then 0 else (if s[0] == c then 1 else 0) + Occurrences(s[1..], c)
  }

  /** `p.count(".")` */
  function Dots(p: string): nat
  {
    Occurrences(p, '.')
  }

  /**
   * `min(pkgs, key=lambda p: p.count("."))`: with `min`'s tie rule, the
   * first name with the fewest dots.
   */
  function FewestDots(pkgs: seq<string>): (r: string)
    requires pkgs != []
    ensures r in pkgs
  {
    if |pkgs| == 1 then pkgs[0]
    else
      var rest := FewestDots(pkgs[1..]);
      if Dots(pkgs[0]) <= Dots(rest) then pkgs[0] else rest
  }

  /** The index of the first occurrence of `x`. */
  function FirstIndex<T(==)>(xs: seq<T>, x: T): (i: nat)
    requires x in xs
    ensures i < |xs| && xs[i] == x && x !in xs[..i]
  {
    if xs[0] == x then 0 else 1 + FirstIndex(xs[1..], x)
  }

  /**
   * `min` keeps the first package with the fewest dots: it is listed, no
   * package has fewer dots, and every package before it has more.
   */
  lemma {:induction false} FewestDotsFirst(pkgs: seq<string>)
    requires pkgs != []
    ensures var r := FewestDots(pkgs);
            && r in pkgs
            && (forall p :: p in pkgs ==> Dots(r) <= Dots(p))
            && (forall j :: 0 <= j < FirstIndex(pkgs, r) ==> Dots(pkgs[j]) > Dots(r))
    decreases |pkgs|
  {
    if |pkgs| > 1 {
      var rest := FewestDots(pkgs[1..]);
      FewestDotsFirst(pkgs[1..]);
      var r := FewestDots(pkgs);
      if r != pkgs[0] {
        assert r == rest;
        assert FirstIndex(pkgs, r) == 1 + FirstIndex(pkgs[1..], r);
        forall j | 0 <= j < FirstIndex(pkgs, r)
          ensures Dots(pkgs[j]) > Dots(r)
        {
          if j > 0 {
            assert pkgs[j] == pkgs[1..][j - 1];
          }
        }
      }
      forall p | p in pkgs
        ensures Dots(r) <= Dots(p)
      {
        if p != pkgs[0] {
          assert p in pkgs[1..];
        }
      }
    }
  }

  /** `[x for x in xs if x]`: the non-empty strings, in order. */
  function NonEmpty(xs: seq<string>): (r: seq<string>)
    ensures |r| <= |xs|
    ensures forall x :: x in r <==> x in xs && x != ""
  {
    if xs == [] then [] else (if xs[0] == "" then [] else [xs[0]]) + NonEmpty(xs[1..])
  }

  /** `s[:n] + "..."` when `s` is longer than `n`, else `s`: at most `n` characters kept, then the ellipsis. */
  function Shorten(s: string, n: nat): (r: string)
    ensures |r| <= n + 3
    ensures |s| <= n ==> r == s
    ensures |s| > n ==> |r| == n + 3 && r[..n] == s[..n] && r[n..] == "..."
  {
    if |s| > n then s[..n] + "..." else s
  }

  /** Being a prefix is transitive. */
  lemma PrefixTransitive<T>(a: seq<T>, b: seq<T>, c: seq<T>)
    requires a <= b && b <= c
    ensures a <= c
  {
    assert c[..|a|] == b[..|a|];
  }

  /** Where `^` holds in a multi-line regular expression: the start of the text or just after a newline. */
  predicate AtLineStart(t: string, p: nat)
    requires p <= |t|
  {
    p == 0 || t[p - 1] == '\n'
  }
}
