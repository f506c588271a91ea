/** The Python `str` operations that the workflow's text handling relies on,
    each stated with the semantics CPython gives it. */
module PyStrings {

  // ---------------------------------------------------------------------------
  // Prefixes and substrings
  // ---------------------------------------------------------------------------

  /** `s.startswith(prefix)`. */
  predicate StartsWith(s: string, prefix: string) {
    |prefix| <= |s| && s[..|prefix|] == prefix
  }

  /** `p in s`: p occurs in s as a contiguous substring. */
  predicate Contains(s: string, p: string)
    decreases |s|
  {
    StartsWith(s, p) || (|s| > 0 && Contains(s[1..], p))
  }

  /** Number of positions at which p starts in s (overlapping occurrences counted). */
  function Occurrences(s: string, p: string): nat
    requires |p| > 0
    decreases |s|
  {
    if |s| < |p| then 0
    else (if s[..|p|] == p then 1 else 0) + Occurrences(s[1..], p)
  }

  lemma {:induction false} ContainsIffOccurs(s: string, p: string)
    requires |p| > 0
    ensures Contains(s, p) <==> Occurrences(s, p) > 0
    decreases |s|
  {
    if |s| > 0 {
      ContainsIffOccurs(s[1..], p);
    }
  }

  lemma {:induction false} ShortNotContains(s: string, p: string)
    requires |s| < |p|
    ensures !Contains(s, p)
    decreases |s|
  {
    if |s| > 0 {
      ShortNotContains(s[1..], p);
    }
  }

  /** A one-character pattern occurs exactly when the character is an element. */
  lemma {:induction false} ContainsChar(s: string, c: char)
    ensures Contains(s, [c]) <==> c in s
    decreases |s|
  {
    if |s| > 0 {
      ContainsChar(s[1..], c);
      assert s == [s[0]] + s[1..];
    }
  }

  /** Whatever stands between two strings is contained in their concatenation. */
  lemma {:induction false} ContainsInfix(a: string, b: string, c: string)
    ensures Contains(a + b + c, b)
    decreases |a|
  {
    if a == [] {
      assert a + b + c == b + c;
      assert (b + c)[..|b|] == b;
    } else {
      assert (a + b + c)[1..] == a[1..] + b + c;
      ContainsInfix(a[1..], b, c);
    }
  }

  /** Prepending text that lacks p's first character adds no occurrence of p. */
  lemma {:induction false} OccurrencesAfterPlain(a: string, b: string, p: string)
    requires |p| > 0 && p[0] !in a
    ensures Occurrences(a + b, p) == Occurrences(b, p)
    decreases |a|
  {
    if a == [] {
      assert a + b == b;
    } else {
      assert a[0] in a;
      assert forall c :: c in a[1..] ==> c in a;
      assert (a + b)[1..] == a[1..] + b;
      if |a + b| >= |p| {
        assert (a + b)[..|p|][0] == a[0];
      }
      OccurrencesAfterPlain(a[1..], b, p);
    }
  }

  /** Prepending a tag `<x...` whose second character differs from p's, and
      that has no further `p[0]`, adds no occurrence of p. */
  lemma OccurrencesAfterTag(a: string, b: string, p: string)
    requires |p| >= 2 && |a| >= 2 && a[1] != p[1] && p[0] !in a[1..]
    ensures Occurrences(a + b, p) == Occurrences(b, p)
  {
    assert (a + b)[1..] == a[1..] + b;
    if |a + b| >= |p| {
      assert (a + b)[..|p|][1] == a[1];
    }
    OccurrencesAfterPlain(a[1..], b, p);
  }

  /** Prepending text that starts with p and has no further `p[0]` adds exactly one. */
  lemma OccurrencesAfterOpener(a: string, b: string, p: string)
    requires |p| > 0 && StartsWith(a, p) && p[0] !in a[1..]
    ensures Occurrences(a + b, p) == 1 + Occurrences(b, p)
  {
    assert (a + b)[..|p|] == a[..|p|];
    assert (a + b)[1..] == a[1..] + b;
    OccurrencesAfterPlain(a[1..], b, p);
  }

  /** No occurrence straddles a boundary after which the next character cannot
      continue p, so occurrences add up. */
  lemma {:induction false} OccurrencesConcat(a: string, b: string, p: string)
    requires |p| > 0
    requires b == [] || b[0] !in p[1..]
    ensures Occurrences(a + b, p) == Occurrences(a, p) + Occurrences(b, p)
    decreases |a|
  {
    if a == [] {
      assert a + b == b;
    } else {
      assert (a + b)[1..] == a[1..] + b;
      OccurrencesConcat(a[1..], b, p);
      if |a| >= |p| {
        assert (a + b)[..|p|] == a[..|p|];
      } else if |a + b| >= |p| {
        assert p[|a|] == p[1..][|a| - 1];
        assert (a + b)[..|p|][|a|] == b[0];
      }
    }
  }

  /** Every p[0] in a is followed, inside a, by a character other than p[1]:
      no occurrence of p can start in a. */
  predicate NoOpenerIn(a: string, p: string)
    requires |p| >= 2
    decreases |a|
  {
    |a| == 0 || ((a[0] != p[0] || (|a| >= 2 && a[1] != p[1])) && NoOpenerIn(a[1..], p))
  }

  /** Prepending text in which no occurrence of p can start adds none. */
  lemma {:induction false} OccurrencesAfterNoOpener(a: string, b: string, p: string)
    requires |p| >= 2 && NoOpenerIn(a, p)
    ensures Occurrences(a + b, p) == Occurrences(b, p)
    decreases |a|
  {
    if a == [] {
      assert a + b == b;
    } else {
      assert (a + b)[1..] == a[1..] + b;
      if |a + b| >= |p| && a[0] == p[0] {
        assert (a + b)[..|p|][1] == a[1];
      }
      OccurrencesAfterNoOpener(a[1..], b, p);
    }
  }

  // ---------------------------------------------------------------------------
  // join and split
  // ---------------------------------------------------------------------------

  /** `sep.join(xs)`. */
  function Join(xs: seq<string>, sep: string): string
    decreases |xs|
  {
    if |xs| == 0 then "" else if |xs| == 1 then xs[0] else xs[0] + sep + Join(xs[1..], sep)
  }

  /** `"".join(xs)`. */
  function Concat(xs: seq<string>): string
    decreases |xs|
  {
    if xs == [] then "" else xs[0] + Concat(xs[1..])
  }

  /** Joining keeps list order: the join of two non-empty lists is the first
      join, the separator, then the second join. */
  lemma {:induction false} JoinAppend(xs: seq<string>, ys: seq<string>, sep: string)
    requires xs != [] && ys != []
    ensures Join(xs + ys, sep) == Join(xs, sep) + sep + Join(ys, sep)
    decreases |xs|
  {
    if |xs| == 1 {
      assert (xs + ys)[1..] == ys;
    } else {
      assert (xs + ys)[1..] == xs[1..] + ys;
      JoinAppend(xs[1..], ys, sep);
    }
  }

  /** Joining pieces that each hold p once, with a separator in which no
      occurrence of p can start or straddle into the next piece, gives
      exactly one occurrence per piece. */
  lemma {:induction false} OccurrencesOfJoin(xs: seq<string>, sep: string, p: string)
    requires |p| >= 2 && |sep| > 0 && sep[0] !in p[1..] && NoOpenerIn(sep, p)
    requires forall i :: 0 <= i < |xs| ==> Occurrences(xs[i], p) == 1
    ensures Occurrences(Join(xs, sep), p) == |xs|
    decreases |xs|
  {
    if |xs| >= 2 {
      var rest := Join(xs[1..], sep);
      OccurrencesOfJoin(xs[1..], sep, p);
      assert xs[0] + sep + rest == xs[0] + (sep + rest);
      OccurrencesConcat(xs[0], sep + rest, p);
      OccurrencesAfterNoOpener(sep, rest, p);
    }
  }

  /** `s.split(sep)` for a non-empty separator: s is cut at its leftmost,
      non-overlapping occurrences of sep. Joining the parts gives s back, and no
      part contains the separator. */
  function Split(s: string, sep: string): (parts: seq<string>)
    requires |sep| > 0
    ensures |parts| >= 1
    ensures StartsWith(s, parts[0])
    ensures Join(parts, sep) == s
    ensures forall i :: 0 <= i < |parts| ==> !Contains(parts[i], sep)
    decreases |s|
  {
    if |s| < |sep| then
      ShortNotContains(s, sep);
      [s]
    else if s[..|sep|] == sep then
      var rest := Split(s[|sep|..], sep);
      assert s == sep + s[|sep|..];
      [""] + rest
    else
      var rest := Split(s[1..], sep);
      var first := [s[0]] + rest[0];
      assert first[1..] == rest[0];
      assert first == s[..|first|];
      assert !StartsWith(first, sep);
      assert s == [s[0]] + s[1..];
      [first] + rest[1..]
  }

  /** No occurrence of sep starts inside `part`, even one running on into a
      separator placed right after it. */
  predicate CutAtFirst(part: string, sep: string)
    requires |sep| > 0
  {
    !Contains(part + sep[..|sep| - 1], sep)
  }

  /** The cuts are the leftmost ones: every part but the last, followed by
      all of the separator but its last character, still holds no separator,
      so no occurrence starts inside a part and the separator after it is the
      first one found from there. */
  lemma {:induction false} SplitLeftmost(s: string, sep: string)
    requires |sep| > 0
    ensures forall i :: 0 <= i < |Split(s, sep)| - 1 ==> CutAtFirst(Split(s, sep)[i], sep)
    decreases |s|
  {
    var parts := Split(s, sep);
    var short := sep[..|sep| - 1];
    if |s| < |sep| {
    } else if s[..|sep|] == sep {
      var rest := Split(s[|sep|..], sep);
      SplitLeftmost(s[|sep|..], sep);
      assert parts == [""] + rest;
      assert "" + short == short;
      ShortNotContains(short, sep);
      forall i | 0 <= i < |parts| - 1
        ensures CutAtFirst(parts[i], sep)
      {
        if i > 0 {
          assert parts[i] == rest[i - 1] && 0 <= i - 1 < |rest| - 1;
          assert CutAtFirst(rest[i - 1], sep);
        } else {
          assert parts[i] + short == short;
        }
      }
    } else {
      var rest := Split(s[1..], sep);
      SplitLeftmost(s[1..], sep);
      var first := [s[0]] + rest[0];
      assert parts == [first] + rest[1..];
      if |rest| >= 2 {
        var x := first + short;
        assert Join(rest, sep) == rest[0] + sep + Join(rest[1..], sep);
        assert s == [s[0]] + (rest[0] + sep + Join(rest[1..], sep));
        assert s[..|x|] == x;
        assert !StartsWith(x, sep);
      }
      forall i | 0 <= i < |parts| - 1
        ensures CutAtFirst(parts[i], sep)
      {
        if i > 0 {
          assert parts[i] == rest[i] && 0 <= i < |rest| - 1;
          assert CutAtFirst(rest[i], sep);
        } else {
          var x := first + short;
          assert parts[i] + short == x;
          assert x[1..] == rest[0] + short;
          assert CutAtFirst(rest[0], sep);
        }
      }
    }
  }

  /** A match at any position is an occurrence. */
  lemma {:induction false} ContainsAt(t: string, p: string, k: nat)
    requires k + |p| <= |t| && t[k..k + |p|] == p
    ensures Contains(t, p)
    decreases k
  {
    if k > 0 {
      assert t[1..][k - 1..k - 1 + |p|] == t[k..k + |p|];
      ContainsAt(t[1..], p, k - 1);
    }
  }

  /** A separator at position |a| lies inside any longer part followed by the
      separator's first |sep| - 1 characters. */
  lemma EarlierSeparator(s: string, sep: string, a: string, b: string, a2: string)
    requires |sep| > 0 && s == a + sep + b && |a| < |a2|
    requires StartsWith(s, a2 + sep[..|sep| - 1])
    ensures !CutAtFirst(a2, sep)
  {
    var t := a2 + sep[..|sep| - 1];
    assert t == s[..|t|];
    assert s[|a|..|a| + |sep|] == sep;
    assert t[|a|..|a| + |sep|] == sep;
    ContainsAt(t, sep, |a|);
  }

  /** A string has at most one cut at a first separator: two ways of writing
      it as part, separator, rest with the part cut at the first separator
      are the same. */
  lemma FirstCutUnique(s: string, sep: string, a: string, b: string, a2: string, b2: string)
    requires |sep| > 0
    requires s == a + sep + b && s == a2 + sep + b2
    requires CutAtFirst(a, sep) && CutAtFirst(a2, sep)
    ensures a == a2 && b == b2
  {
    assert StartsWith(s, a + sep[..|sep| - 1]) by {
      assert s[..|a| + |sep| - 1] == a + sep[..|sep| - 1];
    }
    assert StartsWith(s, a2 + sep[..|sep| - 1]) by {
      assert s[..|a2| + |sep| - 1] == a2 + sep[..|sep| - 1];
    }
    if |a| < |a2| {
      EarlierSeparator(s, sep, a, b, a2);
    } else if |a2| < |a| {
      EarlierSeparator(s, sep, a2, b2, a);
    } else {
      assert a == s[..|a|] && a2 == s[..|a2|];
      assert b == s[|a| + |sep|..] && b2 == s[|a2| + |sep|..];
    }
  }

  /** A string without the separator splits into itself alone. */
  lemma {:induction false} SplitWithout(s: string, sep: string)
    requires |sep| > 0 && !Contains(s, sep)
    ensures Split(s, sep) == [s]
    decreases |s|
  {
    if |s| >= |sep| {
      SplitWithout(s[1..], sep);
      assert s == [s[0]] + s[1..];
    }
  }

  /** `s.count(sep)`: occurrences found scanning left to right, each search
      resuming after the previous match, so overlapping matches count once. */
  function Count(s: string, sep: string): nat
    requires |sep| > 0
    decreases |s|
  {
    if |s| < |sep| then 0
    else if s[..|sep|] == sep then 1 + Count(s[|sep|..], sep)
    else Count(s[1..], sep)
  }

  /** `split` cuts at exactly the matches `count` finds: one more part than
      there are separators. */
  lemma {:induction false} SplitCount(s: string, sep: string)
    requires |sep| > 0
    ensures |Split(s, sep)| == Count(s, sep) + 1
    decreases |s|
  {
    if |s| < |sep| {
    } else if s[..|sep|] == sep {
      SplitCount(s[|sep|..], sep);
    } else {
      SplitCount(s[1..], sep);
    }
  }

  /** `s.split(sep, 1)`: at most one cut, at the leftmost occurrence. */
  function SplitOnce(s: string, sep: string): (parts: seq<string>)
    requires |sep| > 0
    ensures |parts| == 1 || |parts| == 2
    ensures |parts| == 1 <==> !Contains(s, sep)
    ensures |parts| == 1 ==> parts[0] == s
    ensures |parts| == 2 ==> s == parts[0] + sep + parts[1] && !Contains(parts[0], sep)
  {
    var all := Split(s, sep);
    if |all| == 1 then
      [s]
    else
      assert Contains(s, sep) by {
        if !Contains(s, sep) {
          SplitWithout(s, sep);
        }
      }
      [all[0], Join(all[1..], sep)]
  }

  /** Splitting at a first separator character: the part before it is returned
      as it stands, and the rest keeps any further separators. */
  lemma {:induction false} SplitAtFirstChar(a: string, c: char, b: string)
    requires c !in a
    ensures Split(a + [c] + b, [c]) == [a] + Split(b, [c])
    decreases |a|
  {
    if a == [] {
      assert (a + [c] + b)[1..] == b;
      assert [] + [c] + b == [c] + b;
    } else {
      var s := a + [c] + b;
      assert s[1..] == a[1..] + [c] + b;
      assert s[0] == a[0] && a[0] in a;
      assert s[..1] != [c];
      assert forall x :: x in a[1..] ==> x in a;
      SplitAtFirstChar(a[1..], c, b);
      assert [s[0]] + a[1..] == a;
    }
  }

  /** `s.replace(target, replacement)` for a non-empty target. */
  function Replace(s: string, target: string, replacement: string): string
    requires |target| > 0
  {
    Join(Split(s, target), replacement)
  }

  // ---------------------------------------------------------------------------
  // strip(chars)
  // ---------------------------------------------------------------------------

  /** The set of characters of a `chars` argument. */
  function CharSet(s: string): set<char> {
    set c | c in s
  }

  /** `s.lstrip(chars)`: drop the longest prefix made of characters of cs. */
  function StripLeft(s: string, cs: set<char>): (r: string)
    ensures |r| <= |s| && r == s[|s| - |r|..]
    ensures forall i :: 0 <= i < |s| - |r| ==> s[i] in cs
    ensures r == [] || r[0] !in cs
    decreases |s|
  {
    if s == [] || s[0] !in cs then s else StripLeft(s[1..], cs)
  }

  /** `s.rstrip(chars)`: drop the longest suffix made of characters of cs. */
  function StripRight(s: string, cs: set<char>): (r: string)
    ensures |r| <= |s| && r == s[..|r|]
    ensures forall i :: |r| <= i < |s| ==> s[i] in cs
    ensures r == [] || r[|r| - 1] !in cs
    decreases |s|
  {
    if s == [] || s[|s| - 1] !in cs then s else StripRight(s[..|s| - 1], cs)
  }

  /** `s.strip(chars)`: a character-set strip from both ends, not a prefix or
      suffix removal. The result is the slice left after removing the longest
      runs of cs-characters at either end. */
  function Strip(s: string, cs: set<char>): (r: string)
    ensures r == [] || (r[0] !in cs && r[|r| - 1] !in cs)
    ensures var k := |s| - |StripLeft(s, cs)|;
      k + |r| <= |s| && r == s[k..k + |r|]
      && (forall i :: 0 <= i < k ==> s[i] in cs)
      && (forall i :: k + |r| <= i < |s| ==> s[i] in cs)
  {
    var left := StripLeft(s, cs);
    var r := StripRight(left, cs);
    assert forall i :: |r| <= i < |left| ==> left[i] in cs;
    r
  }

  /** Leading characters of the strip set are dropped one by one. */
  lemma {:induction false} StripLeftPrefix(a: string, b: string, cs: set<char>)
    requires forall i :: 0 <= i < |a| ==> a[i] in cs
    ensures StripLeft(a + b, cs) == StripLeft(b, cs)
    decreases |a|
  {
    if a == [] {
      assert a + b == b;
    } else {
      assert (a + b)[1..] == a[1..] + b;
      StripLeftPrefix(a[1..], b, cs);
    }
  }

  // ---------------------------------------------------------------------------
  // split() with no argument, and whitespace
  // ---------------------------------------------------------------------------

  /** The characters CPython's `str.isspace` accepts, which `split()` and
      `strip()` without arguments treat as whitespace. */
  const Whitespace: set<char> := {
    '\t', '\n', '\U{000B}', '\U{000C}', '\r',
    '\U{001C}', '\U{001D}', '\U{001E}', '\U{001F}', ' ',
    '\U{0085}', '\U{00A0}', '\U{1680}',
    '\U{2000}', '\U{2001}', '\U{2002}', '\U{2003}', '\U{2004}', '\U{2005}',
    '\U{2006}', '\U{2007}', '\U{2008}', '\U{2009}', '\U{200A}',
    '\U{2028}', '\U{2029}', '\U{202F}', '\U{205F}', '\U{3000}'
  }

  predicate IsSpace(c: char) {
    c in Whitespace
  }

  predicate NoSpace(w: string) {
    forall j :: 0 <= j < |w| ==> !IsSpace(w[j])
  }

  /** The non-whitespace characters of s, in order. */
  function NonSpace(s: string): string
    decreases |s|
  {
    if s == [] then "" else (if IsSpace(s[0]) then "" else [s[0]]) + NonSpace(s[1..])
  }

  lemma {:induction false} NonSpaceAppend(a: string, b: string)
    ensures NonSpace(a + b) == NonSpace(a) + NonSpace(b)
    decreases |a|
  {
    if a == [] {
      assert a + b == b;
    } else {
      assert (a + b)[1..] == a[1..] + b;
      NonSpaceAppend(a[1..], b);
    }
  }

  lemma {:induction false} NonSpaceOfWord(w: string)
    requires NoSpace(w)
    ensures NonSpace(w) == w
    decreases |w|
  {
    if w != [] {
      NonSpaceOfWord(w[1..]);
    }
  }

  /** Length of the leading run of non-whitespace characters. */
  function WordLength(s: string): (k: nat)
    ensures k <= |s|
    ensures NoSpace(s[..k])
    ensures k == |s| || IsSpace(s[k])
    decreases |s|
  {
    if s == [] || IsSpace(s[0]) then 0 else 1 + WordLength(s[1..])
  }

  /** `s.split()`: the maximal runs of non-whitespace characters. Every word
      is non-empty and free of whitespace. */
  function Words(s: string): (ws: seq<string>)
    ensures forall i :: 0 <= i < |ws| ==> ws[i] != [] && NoSpace(ws[i])
    decreases |s|
  {
    if s == [] then []
    else if IsSpace(s[0]) then Words(s[1..])
    else
      var k := WordLength(s);
      [s[..k]] + Words(s[k..])
  }

  /** Splitting into words loses only whitespace. */
  lemma {:induction false} WordsKeepText(s: string)
    ensures Concat(Words(s)) == NonSpace(s)
    decreases |s|
  {
    if s == [] {
    } else if IsSpace(s[0]) {
      WordsKeepText(s[1..]);
    } else {
      var k := WordLength(s);
      WordsKeepText(s[k..]);
      assert s == s[..k] + s[k..];
      NonSpaceAppend(s[..k], s[k..]);
      NonSpaceOfWord(s[..k]);
      assert ([s[..k]] + Words(s[k..]))[1..] == Words(s[k..]);
    }
  }

  /** Text whose only whitespace is single spaces between non-space characters. */
  predicate Collapsed(r: string) {
    && (r == [] || (!IsSpace(r[0]) && !IsSpace(r[|r| - 1])))
    && (forall i :: 0 <= i < |r| && IsSpace(r[i]) ==> r[i] == ' ')
    && (forall i :: 0 <= i < |r| - 1 && IsSpace(r[i]) ==> !IsSpace(r[i + 1]))
  }

  lemma CollapsedConcat(w: string, rest: string)
    requires w != [] && NoSpace(w) && rest != [] && Collapsed(rest)
    ensures Collapsed(w + " " + rest)
  {
    var r := w + " " + rest;
    assert ' ' in Whitespace;
    forall i | 0 <= i < |r| - 1 && IsSpace(r[i])
      ensures !IsSpace(r[i + 1])
    {
      if i == |w| {
        assert r[i + 1] == rest[0];
      } else {
        assert r[i] == rest[i - |w| - 1] && r[i + 1] == rest[i - |w|];
      }
    }
    forall i | 0 <= i < |r| && IsSpace(r[i])
      ensures r[i] == ' '
    {
      if i > |w| {
        assert r[i] == rest[i - |w| - 1];
      }
    }
    assert r[0] == w[0];
    assert r[|r| - 1] == rest[|rest| - 1];
  }

  /** Joining whitespace-free, non-empty words with single spaces gives
      collapsed text that keeps every non-space character. */
  lemma {:induction false} JoinWordsCollapsed(ws: seq<string>)
    requires forall i :: 0 <= i < |ws| ==> ws[i] != [] && NoSpace(ws[i])
    ensures Collapsed(Join(ws, " "))
    ensures NonSpace(Join(ws, " ")) == Concat(ws)
    decreases |ws|
  {
    if |ws| == 0 {
    } else if |ws| == 1 {
      NonSpaceOfWord(ws[0]);
      assert Concat(ws[1..]) == "";
    } else {
      JoinWordsCollapsed(ws[1..]);
      var rest := Join(ws[1..], " ");
      assert rest != [] by {
        assert |ws[1..]| >= 1;
        if |ws[1..]| == 1 {
          assert rest == ws[1];
        } else {
          assert rest == ws[1] + " " + Join(ws[2..], " ");
        }
      }
      CollapsedConcat(ws[0], rest);
      NonSpaceAppend(ws[0] + " ", rest);
      NonSpaceAppend(ws[0], " ");
      NonSpaceOfWord(ws[0]);
      assert ' ' in Whitespace;
      assert NonSpace(" ") == "";
    }
  }

  /** A word followed by nothing or by whitespace is read whole. */
  lemma {:induction false} WordLengthOfWord(w: string, t: string)
    requires NoSpace(w) && (t == [] || IsSpace(t[0]))
    ensures WordLength(w + t) == |w|
    decreases |w|
  {
    if w == [] {
      assert w + t == t;
    } else {
      assert (w + t)[1..] == w[1..] + t;
      WordLengthOfWord(w[1..], t);
    }
  }

  /** Splitting words joined by single spaces gives back the same words:
      joining never merges two words and never splits one. */
  lemma {:induction false} WordsOfJoin(ws: seq<string>)
    requires forall i :: 0 <= i < |ws| ==> ws[i] != [] && NoSpace(ws[i])
    ensures Words(Join(ws, " ")) == ws
    decreases |ws|
  {
    if |ws| == 1 {
      var w := ws[0];
      WordLengthOfWord(w, []);
      assert w + [] == w;
      assert w[..|w|] == w && w[|w|..] == [];
    } else if |ws| >= 2 {
      var w := ws[0];
      var rest := Join(ws[1..], " ");
      var s := w + (" " + rest);
      assert Join(ws, " ") == s;
      assert ' ' in Whitespace;
      WordLengthOfWord(w, " " + rest);
      assert s[..|w|] == w && s[|w|..] == " " + rest;
      assert (" " + rest)[1..] == rest;
      WordsOfJoin(ws[1..]);
    }
  }

  /** `" ".join(s.split())`: every whitespace run becomes one space and the
      ends lose their whitespace. The result has the words of s, in order,
      and its only whitespace is one space between neighbouring words. */
  function CollapseWhitespace(s: string): (r: string)
    ensures Collapsed(r)
    ensures Words(r) == Words(s)
    ensures NonSpace(r) == NonSpace(s)
  {
    var ws := Words(s);
    JoinWordsCollapsed(ws);
    WordsKeepText(s);
    WordsOfJoin(ws);
    Join(ws, " ")
  }

  /** `strip()` leaves collapsed text unchanged. */
  lemma StripCollapsed(r: string)
    requires Collapsed(r)
    ensures Strip(r, Whitespace) == r
  {
  }

  // ---------------------------------------------------------------------------
  // Slicing
  // ---------------------------------------------------------------------------

  /** `s[:n]`, with Python's reading of a negative bound as counted from the end. */
  function SliceTo(s: string, n: int): (r: string)
    ensures StartsWith(s, r)
    ensures |r| == if n >= 0 then (if n <= |s| then n else |s|)
                   else (if |s| + n >= 0 then |s| + n else 0)
  {
    if n >= 0 then (if n <= |s| then s[..n] else s)
    else (if |s| + n >= 0 then s[..|s| + n] else "")
  }
}
