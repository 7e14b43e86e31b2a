/**
 * The handful of Rust string operations the bridge uses (`str::replace`,
 * `trim_matches`, `trim_end_matches`, `splitn(2, _)`, `strip_prefix`,
 * `contains`, ASCII case mapping), over `string` = `seq<char>`.
 */
module Text {
  import opened Wrappers

  /** `s.replace(c, with)`: every occurrence of the character `c` replaced by `with`. */
  function ReplaceChar(s: string, c: char, with: string): string
    decreases |s|
  {
    if s == [] then [] else (if s[0] == c then with else [s[0]]) + ReplaceChar(s[1..], c, with)
  }

  /** No character survives a replacement except the others of `s` and those of `with`. */
  lemma {:induction false} ReplaceCharSpec(s: string, c: char, with: string)
    ensures forall x :: x in ReplaceChar(s, c, with) ==> (x in s && x != c) || x in with
    decreases |s|
  {
    if s != [] {
      ReplaceCharSpec(s[1..], c, with);
      assert forall x :: x in s[1..] ==> x in s;
    }
  }

  /** `s.replace(c, "")`. */
  function DeleteChar(s: string, c: char): string {
    ReplaceChar(s, c, "")
  }

  lemma {:induction false} ReplaceCharAppend(a: string, b: string, c: char, with: string)
    ensures ReplaceChar(a + b, c, with) == ReplaceChar(a, c, with) + ReplaceChar(b, c, with)
    decreases |a|
  {
    if a == [] {
      assert a + b == b;
    } else {
      assert (a + b)[0] == a[0];
      assert (a + b)[1..] == a[1..] + b;
      ReplaceCharAppend(a[1..], b, c, with);
    }
  }

  lemma ReplaceCharHead(x: char, t: string, c: char, with: string)
    ensures ReplaceChar([x] + t, c, with) == (if x == c then with else [x]) + ReplaceChar(t, c, with)
  {
    assert ([x] + t)[1..] == t;
  }

  /** Replacing a character that does not occur changes nothing. */
  lemma {:induction false} ReplaceCharAbsent(s: string, c: char, with: string)
    requires c !in s
    ensures ReplaceChar(s, c, with) == s
    decreases |s|
  {
    if s != [] {
      assert s[0] != c;
      ReplaceCharAbsent(s[1..], c, with);
    }
  }

  /** Replacements of two different characters, neither inserting the other, commute. */
  lemma {:induction false} ReplaceCharCommute(s: string, c1: char, w1: string, c2: char, w2: string)
    requires c1 != c2 && c1 !in w2 && c2 !in w1
    ensures ReplaceChar(ReplaceChar(s, c1, w1), c2, w2) == ReplaceChar(ReplaceChar(s, c2, w2), c1, w1)
    decreases |s|
  {
    if s != [] {
      var x, t := s[0], s[1..];
      assert s == [x] + t;
      var h1 := if x == c1 then w1 else [x];
      var h2 := if x == c2 then w2 else [x];
      ReplaceCharHead(x, t, c1, w1);
      ReplaceCharHead(x, t, c2, w2);
      ReplaceCharAppend(h1, ReplaceChar(t, c1, w1), c2, w2);
      ReplaceCharAppend(h2, ReplaceChar(t, c2, w2), c1, w1);
      if x == c1 {
        ReplaceCharAbsent(w1, c2, w2);
        ReplaceCharHead(x, [], c1, w1);
      } else if x == c2 {
        ReplaceCharAbsent(w2, c1, w1);
        ReplaceCharHead(x, [], c2, w2);
      } else {
        ReplaceCharHead(x, [], c1, w1);
        ReplaceCharHead(x, [], c2, w2);
      }
      ReplaceCharCommute(t, c1, w1, c2, w2);
    }
  }

  /** `s.trim_end_matches(c)`: every trailing `c` removed. */
  function TrimEnd(s: string, c: char): string
    decreases |s|
  {
    if s != [] && s[|s| - 1] == c then TrimEnd(s[..|s| - 1], c) else s
  }

  /** What is left is a prefix of `s` not ending in `c`, and everything cut off is `c`. */
  lemma {:induction false} TrimEndSpec(s: string, c: char)
    ensures var r := TrimEnd(s, c);
            && r <= s
            && (r == [] || r[|r| - 1] != c)
            && (forall i :: |r| <= i < |s| ==> s[i] == c)
    decreases |s|
  {
    if s != [] && s[|s| - 1] == c {
      TrimEndSpec(s[..|s| - 1], c);
    }
  }

  /** `s.trim_start_matches(c)`: every leading `c` removed. */
  function TrimStart(s: string, c: char): string
    decreases |s|
  {
    if s != [] && s[0] == c then TrimStart(s[1..], c) else s
  }

  /** What is left is a suffix of `s` not starting with `c`, and everything cut off is `c`. */
  lemma {:induction false} TrimStartSpec(s: string, c: char)
    ensures var r := TrimStart(s, c);
            && |r| <= |s| && r == s[|s| - |r|..]
            && (r == [] || r[0] != c)
            && (forall i :: 0 <= i < |s| - |r| ==> s[i] == c)
    decreases |s|
  {
    if s != [] && s[0] == c {
      TrimStartSpec(s[1..], c);
    }
  }

  /** `s.trim_matches(c)`: every leading and trailing `c` removed. */
  function TrimMatches(s: string, c: char): string {
    TrimStart(TrimEnd(s, c), c)
  }

  /**
   * The result is the middle `s[i..j]` of `s`: it neither starts nor ends
   * with `c`, and everything before `i` and from `j` on is `c`.
   */
  lemma TrimMatchesSpec(s: string, c: char)
    ensures var r := TrimMatches(s, c);
            && (r == [] || (r[0] != c && r[|r| - 1] != c))
            && exists i, j :: 0 <= i <= j <= |s| && r == s[i..j]
                              && (forall k :: 0 <= k < i ==> s[k] == c)
                              && (forall k :: j <= k < |s| ==> s[k] == c)
  {
    var e := TrimEnd(s, c);
    var r := TrimStart(e, c);
    TrimEndSpec(s, c);
    TrimStartSpec(e, c);
    var i, j := |e| - |r|, |e|;
    assert r == s[i..j];
    assert forall k :: 0 <= k < i ==> s[k] == e[k];
  }

  /** `s.strip_prefix(prefix)`. */
  function StripPrefix(s: string, prefix: string): (r: Option<string>)
    ensures r.Some? <==> prefix <= s
    ensures r.Some? ==> s == prefix + r.value
  {
    if prefix <= s then Some(s[|prefix|..]) else None
  }

  /**
   * `s.splitn(2, c)` when it yields two parts: the text before the first
   * `c` and the text after it; `None` when `s` has no `c` (one part).
   */
  function SplitOnce(s: string, c: char): (r: Option<(string, string)>)
    ensures r.None? <==> c !in s
    ensures r.Some? ==> s == r.value.0 + [c] + r.value.1 && c !in r.value.0
    decreases |s|
  {
    if s == [] then None
    else if s[0] == c then Some(([], s[1..]))
    else match SplitOnce(s[1..], c)
      case None => None
      case Some(parts) => Some(([s[0]] + parts.0, parts.1))
  }

  /** The split is at the first `c`: a prefix free of `c` is recovered exactly. */
  lemma {:induction false} SplitOnceAt(a: string, b: string, c: char)
    requires c !in a
    ensures SplitOnce(a + [c] + b, c) == Some((a, b))
    decreases |a|
  {
    var s := a + [c] + b;
    if a == [] {
      assert s[0] == c && s[1..] == b;
    } else {
      assert s[0] == a[0] && s[1..] == a[1..] + [c] + b;
      SplitOnceAt(a[1..], b, c);
      assert [a[0]] + a[1..] == a;
    }
  }

  /** `s.contains(pat)`. */
  predicate Contains(s: string, pat: string)
    decreases |s|
  {
    |pat| <= |s| && (s[..|pat|] == pat || (s != [] && Contains(s[1..], pat)))
  }

  /** `pat` occurs in `s` starting at index `i`. */
  predicate OccursAt(s: string, pat: string, i: int) {
    0 <= i <= |s| - |pat| && s[i..i + |pat|] == pat
  }

  /** Contains agrees with the index-based reading: `pat` occurs at some position of `s`. */
  lemma {:induction false} ContainsAt(s: string, pat: string)
    ensures Contains(s, pat) <==> exists i :: OccursAt(s, pat, i)
    decreases |s|
  {
    if |pat| <= |s| && s != [] {
      ContainsAt(s[1..], pat);
      if s[..|pat|] == pat {
        assert OccursAt(s, pat, 0);
      } else if Contains(s[1..], pat) {
        var i :| OccursAt(s[1..], pat, i);
        assert s[i + 1..i + 1 + |pat|] == s[1..][i..i + |pat|];
        assert OccursAt(s, pat, i + 1);
      }
      if exists i :: OccursAt(s, pat, i) {
        var i :| OccursAt(s, pat, i);
        if i > 0 {
          assert s[1..][i - 1..i - 1 + |pat|] == s[i..i + |pat|];
          assert OccursAt(s[1..], pat, i - 1);
        }
      }
    } else if |pat| <= |s| {
      assert OccursAt(s, pat, 0);
    }
  }

  /**
   * `s.replace(pat, rep)`: the non-overlapping occurrences of `pat`, found
   * left to right, replaced by `rep`.
   */
  function Replace(s: string, pat: string, rep: string): (r: string)
    requires pat != []
    ensures !Contains(s, pat) ==> r == s
    decreases |s|
  {
    if |s| < |pat| then s
    else if s[..|pat|] == pat then rep + Replace(s[|pat|..], pat, rep)
    else [s[0]] + Replace(s[1..], pat, rep)
  }

  /** A character other than the pattern's first is copied and the scan moves on by one. */
  lemma ReplaceSkipOne(x: char, t: string, pat: string, rep: string)
    requires pat != [] && pat[0] != x
    ensures Replace([x] + t, pat, rep) == [x] + Replace(t, pat, rep)
  {
    var s := [x] + t;
    assert s[1..] == t;
    if |s| >= |pat| {
      assert s[..|pat|][0] == x;
    }
  }

  /** An occurrence of the pattern at the front is replaced and the scan resumes after it. */
  lemma ReplaceHead(t: string, pat: string, rep: string)
    requires pat != []
    ensures Replace(pat + t, pat, rep) == rep + Replace(t, pat, rep)
  {
    var s := pat + t;
    assert s[..|pat|] == pat && s[|pat|..] == t;
  }

  /** Where the pattern does not occur at the front, the first character is copied. */
  lemma ReplaceNoMatch(s: string, pat: string, rep: string)
    requires pat != [] && s != []
    requires |pat| <= |s| ==> s[..|pat|] != pat
    ensures Replace(s, pat, rep) == [s[0]] + Replace(s[1..], pat, rep)
  {
    if |s| < |pat| {
      assert Replace(s[1..], pat, rep) == s[1..];
    }
  }

  /** A prefix free of the pattern's first character passes through `Replace` untouched. */
  lemma {:induction false} ReplaceSkips(a: string, rest: string, pat: string, rep: string)
    requires pat != [] && pat[0] !in a
    ensures Replace(a + rest, pat, rep) == a + Replace(rest, pat, rep)
    decreases |a|
  {
    if a == [] {
      assert a + rest == rest;
    } else {
      assert a + rest == [a[0]] + (a[1..] + rest);
      ReplaceSkipOne(a[0], a[1..] + rest, pat, rep);
      ReplaceSkips(a[1..], rest, pat, rep);
      assert a == [a[0]] + a[1..];
    }
  }

  /** A prefix free of the pattern's first character adds no occurrence of it. */
  lemma {:induction false} ContainsSkips(a: string, rest: string, pat: string)
    requires pat != [] && pat[0] !in a
    ensures Contains(a + rest, pat) == Contains(rest, pat)
    decreases |a|
  {
    if a != [] {
      var s := a + rest;
      assert s[0] == a[0];
      assert s[1..] == a[1..] + rest;
      ContainsSkips(a[1..], rest, pat);
      if |pat| <= |s| {
        assert s[..|pat|][0] == a[0];
      } else {
        ContainsAt(rest, pat);
      }
    } else {
      assert a + rest == rest;
    }
  }

  function LowerChar(ch: char): char {
    if 'A' <= ch <= 'Z' then (ch as int + 32) as char else ch
  }

  function UpperChar(ch: char): char {
    if 'a' <= ch <= 'z' then (ch as int - 32) as char else ch
  }

  /** `s.to_lowercase()` on ASCII letters. */
  function Lower(s: string): string {
    seq(|s|, i requires 0 <= i < |s| => LowerChar(s[i]))
  }

  /** Lower-casing creates no `_`. */
  lemma LowerKeepsUnderscore(s: string)
    ensures '_' !in s ==> '_' !in Lower(s)
  {
    if '_' in Lower(s) {
      var i :| 0 <= i < |s| && Lower(s)[i] == '_';
      assert LowerChar(s[i]) == '_';
    }
  }

  /** `s.to_uppercase()` on ASCII letters. */
  function Upper(s: string): string {
    seq(|s|, i requires 0 <= i < |s| => UpperChar(s[i]))
  }
}
