/**
 * The Python string operations the tools rely on, stated over `seq<char>`:
 * character classes, `in`, `str.replace`, `str.count`, `str.strip`,
 * `str.join`, `str(int)` and prefix slicing.
 */
module Text {

  /** Python's `str.isspace`, which is also the class `\s` and what `str.strip()` removes. */
  predicate IsSpace(c: char) {
    || ('\t' <= c <= '\r')
    || ('\U{1C}' <= c <= ' ')
    || c == '\U{85}' || c == '\U{A0}' || c == '\U{1680}'
    || ('\U{2000}' <= c <= '\U{200A}')
    || c == '\U{2028}' || c == '\U{2029}' || c == '\U{202F}' || c == '\U{205F}' || c == '\U{3000}'
  }

  /** The regex class `\w`, restricted to ASCII: letters, digits and underscore. */
  predicate IsWord(c: char) {
    ('a' <= c <= 'z') || ('A' <= c <= 'Z') || ('0' <= c <= '9') || c == '_'
  }

  // ---------------------------------------------------------------------------
  // Substrings

  /** `t` occurs in `s` starting at index `i`. */
  predicate OccursAt(s: string, i: int, t: string) {
    0 <= i && i + |t| <= |s| && s[i..i + |t|] == t
  }

  /** Python's `t in s`. */
  predicate Contains(s: string, t: string) {
    exists i | 0 <= i <= |s| - |t| :: OccursAt(s, i, t)
  }

  lemma ContainsInfix(a: string, t: string, b: string)
    ensures Contains(a + t + b, t)
  {
    var s := a + t + b;
    assert s[|a|..|a| + |t|] == t;
    assert OccursAt(s, |a|, t);
  }

  /** The left part of a concatenation is a prefix of it. */
  lemma PrefixOfAppend(a: string, b: string)
    ensures a <= a + b
  {
    assert (a + b)[..|a|] == a;
  }

  /** A concatenation contains its left part. */
  lemma ContainsStart(t: string, b: string)
    ensures Contains(t + b, t)
  {
    assert (t + b)[..|t|] == t;
    assert OccursAt(t + b, 0, t);
  }

  /** What the left part of a concatenation contains, the whole contains. */
  lemma ContainsInLeft(a: string, b: string, t: string)
    requires Contains(a, t)
    ensures Contains(a + b, t)
  {
    var i :| 0 <= i <= |a| - |t| && OccursAt(a, i, t);
    assert (a + b)[i..i + |t|] == a[i..i + |t|];
    assert OccursAt(a + b, i, t);
  }

  /** What the right part of a concatenation contains, the whole contains. */
  lemma ContainsInRight(a: string, b: string, t: string)
    requires Contains(b, t)
    ensures Contains(a + b, t)
  {
    var i :| 0 <= i <= |b| - |t| && OccursAt(b, i, t);
    assert (a + b)[|a| + i..|a| + i + |t|] == b[i..i + |t|];
    assert OccursAt(a + b, |a| + i, t);
  }

  /**
   * When the first character of `t` does not occur in `a`, every occurrence
   * of `t` in `a + b` lies in `b`.
   */
  lemma ContainsPastFree(a: string, b: string, t: string)
    requires |t| > 0 && t[0] !in a && Contains(a + b, t)
    ensures Contains(b, t)
  {
    var i :| 0 <= i <= |a + b| - |t| && OccursAt(a + b, i, t);
    assert (a + b)[i] == t[0];
    assert i >= |a|;
    assert b[i - |a|..i - |a| + |t|] == (a + b)[i..i + |t|];
    assert OccursAt(b, i - |a|, t);
  }

  /** A concatenation ending in `t1 + t2` contains `t1 + t2`. */
  lemma ContainsEnding(a: string, t1: string, t2: string)
    ensures Contains(a + t1 + t2, t1 + t2)
  {
    ContainsInfix(a, t1 + t2, []);
    assert a + (t1 + t2) + [] == a + t1 + t2;
  }

  lemma ContainsTransitive(s: string, t: string, u: string)
    requires Contains(s, t) && Contains(t, u)
    ensures Contains(s, u)
  {
    var i :| 0 <= i <= |s| - |t| && OccursAt(s, i, t);
    var j :| 0 <= j <= |t| - |u| && OccursAt(t, j, u);
    forall k | 0 <= k < |u|
      ensures s[i + j + k] == u[k]
    {
      assert s[i + j + k] == s[i..i + |t|][j + k];
      assert t[j + k] == t[j..j + |u|][k];
    }
    assert s[i + j..i + j + |u|] == u;
    assert OccursAt(s, i + j, u);
  }

  lemma ContainsOfTail(s: string, t: string)
    requires |s| > 0 && Contains(s[1..], t)
    ensures Contains(s, t)
  {
    var i :| 0 <= i <= |s[1..]| - |t| && OccursAt(s[1..], i, t);
    assert s[i + 1..i + 1 + |t|] == s[1..][i..i + |t|];
    assert OccursAt(s, i + 1, t);
  }

  lemma TailContains(s: string, t: string)
    requires Contains(s, t) && !OccursAt(s, 0, t)
    ensures |s| > 0 && Contains(s[1..], t)
  {
    var i :| 0 <= i <= |s| - |t| && OccursAt(s, i, t);
    assert i > 0;
    assert s[1..][i - 1..i - 1 + |t|] == s[i..i + |t|];
    assert OccursAt(s[1..], i - 1, t);
  }

  // ---------------------------------------------------------------------------
  // str.replace and str.count

  /**
   * Python's `s.replace(pat, rep)`: every non-overlapping occurrence of `pat`,
   * found scanning left to right, is replaced by `rep`.
   */
  function ReplaceAll(s: string, pat: string, rep: string): string
    requires |pat| > 0
    decreases |s|
  {
    if |s| < |pat| then s
    else if s[..|pat|] == pat then rep + ReplaceAll(s[|pat|..], pat, rep)
    else [s[0]] + ReplaceAll(s[1..], pat, rep)
  }

  /**
   * The number of non-overlapping occurrences of `pat` found scanning left
   * to right: Python's `s.count(pat)`, and `len(re.findall(pat, s))` when
   * `pat` has no special characters.
   */
  function Count(s: string, pat: string): nat
    requires |pat| > 0
    decreases |s|
  {
    if |s| < |pat| then 0
    else if s[..|pat|] == pat then 1 + Count(s[|pat|..], pat)
    else Count(s[1..], pat)
  }

  /** Replacing a pattern that does not occur is the identity. */
  lemma {:induction false} ReplaceAbsent(s: string, pat: string, rep: string)
    requires |pat| > 0 && !Contains(s, pat)
    ensures ReplaceAll(s, pat, rep) == s
    decreases |s|
  {
    if |s| >= |pat| {
      assert !OccursAt(s, 0, pat);
      if Contains(s[1..], pat) {
        ContainsOfTail(s, pat);
      }
      ReplaceAbsent(s[1..], pat, rep);
      assert s == [s[0]] + s[1..];
    }
  }

  /** When the pattern occurs, the replacement text appears in the result. */
  lemma {:induction false} ReplacePresent(s: string, pat: string, rep: string)
    requires |pat| > 0 && Contains(s, pat)
    ensures Contains(ReplaceAll(s, pat, rep), rep)
    decreases |s|
  {
    var i :| 0 <= i <= |s| - |pat| && OccursAt(s, i, pat);
    if s[..|pat|] == pat {
      var rest := ReplaceAll(s[|pat|..], pat, rep);
      ContainsInfix([], rep, rest);
      assert [] + rep + rest == rep + rest;
    } else {
      assert !OccursAt(s, 0, pat);
      TailContains(s, pat);
      ReplacePresent(s[1..], pat, rep);
      var r := [s[0]] + ReplaceAll(s[1..], pat, rep);
      assert r[1..] == ReplaceAll(s[1..], pat, rep);
      ContainsOfTail(r, rep);
    }
  }

  /** Each replacement changes the length by `|rep| - |pat|`. */
  lemma MulSucc(c: int, d: int)
    ensures (1 + c) * d == d + c * d
  {
  }

  lemma {:induction false} ReplaceLength(s: string, pat: string, rep: string)
    requires |pat| > 0
    ensures |ReplaceAll(s, pat, rep)| == |s| + Count(s, pat) * (|rep| - |pat|)
    decreases |s|
  {
    if |s| < |pat| {
    } else if s[..|pat|] == pat {
      var t := s[|pat|..];
      ReplaceLength(t, pat, rep);
      var c, d := Count(t, pat), |rep| - |pat|;
      assert Count(s, pat) == 1 + c;
      assert |ReplaceAll(s, pat, rep)| == |rep| + |ReplaceAll(t, pat, rep)|;
      MulSucc(c, d);
    } else {
      ReplaceLength(s[1..], pat, rep);
    }
  }

  /** The occurrence count is zero exactly when the pattern does not occur. */
  lemma {:induction false} CountZeroIffAbsent(s: string, pat: string)
    requires |pat| > 0
    ensures Count(s, pat) == 0 <==> !Contains(s, pat)
    decreases |s|
  {
    if |s| < |pat| {
    } else if s[..|pat|] == pat {
      assert OccursAt(s, 0, pat);
    } else {
      assert !OccursAt(s, 0, pat);
      CountZeroIffAbsent(s[1..], pat);
      if Contains(s, pat) {
        TailContains(s, pat);
      }
      if Contains(s[1..], pat) {
        ContainsOfTail(s, pat);
      }
    }
  }

  /** Replacing a single character maps every position independently. */
  lemma {:induction false} ReplaceChar(s: string, a: char, b: char)
    ensures |ReplaceAll(s, [a], [b])| == |s|
    ensures forall i :: 0 <= i < |s| ==>
      ReplaceAll(s, [a], [b])[i] == (if s[i] == a then b else s[i])
    decreases |s|
  {
    if |s| > 0 {
      ReplaceChar(s[1..], a, b);
      var r := ReplaceAll(s, [a], [b]);
      var rest := ReplaceAll(s[1..], [a], [b]);
      assert s[..1] == [a] <==> s[0] == a;
      assert s[1..] == s[|[a]|..];
      assert r == [if s[0] == a then b else s[0]] + rest;
      forall i | 0 < i < |s|
        ensures r[i] == (if s[i] == a then b else s[i])
      {
        assert r[i] == rest[i - 1];
        assert s[1..][i - 1] == s[i];
      }
    }
  }

  // ---------------------------------------------------------------------------
  // str.strip

  /** The number of leading whitespace characters of `s`. */
  function LeadingSpaces(s: string): (n: nat)
    ensures n <= |s|
    ensures forall i :: 0 <= i < n ==> IsSpace(s[i])
    ensures n < |s| ==> !IsSpace(s[n])
  {
    if |s| > 0 && IsSpace(s[0]) then 1 + LeadingSpaces(s[1..]) else 0
  }

  /** The number of trailing whitespace characters of `s`. */
  function TrailingSpaces(s: string): (n: nat)
    ensures n <= |s|
    ensures forall i :: |s| - n <= i < |s| ==> IsSpace(s[i])
    ensures n < |s| ==> !IsSpace(s[|s| - n - 1])
  {
    if |s| > 0 && IsSpace(s[|s| - 1]) then 1 + TrailingSpaces(s[..|s| - 1]) else 0
  }

  /**
   * Python's `s.strip()`: the slice of `s` left after dropping its leading
   * and trailing whitespace.
   */
  function Strip(s: string): (r: string)
    ensures LeadingSpaces(s) + |r| <= |s|
    ensures r == s[LeadingSpaces(s)..LeadingSpaces(s) + |r|]
    ensures forall i :: LeadingSpaces(s) + |r| <= i < |s| ==> IsSpace(s[i])
    ensures r == [] || (!IsSpace(r[0]) && !IsSpace(r[|r| - 1]))
  {
    var t := s[LeadingSpaces(s)..];
    t[..|t| - TrailingSpaces(t)]
  }

  /** A leading whitespace character makes no difference to `strip`. */
  lemma StripLeadingSpace(c: char, t: string)
    requires IsSpace(c)
    ensures Strip([c] + t) == Strip(t)
  {
    var s := [c] + t;
    assert s[1..] == t;
    assert LeadingSpaces(s) == 1 + LeadingSpaces(t);
    assert s[LeadingSpaces(s)..] == t[LeadingSpaces(t)..];
  }

  // ---------------------------------------------------------------------------
  // Other string builders

  /** Python's `sep.join(parts)`. */
  function Join(parts: seq<string>, sep: string): string
  {
    if |parts| == 0 then ""
    else if |parts| == 1 then parts[0]
    else parts[0] + sep + Join(parts[1..], sep)
  }

  /** A character found in neither the separator nor any part is not in the join. */
  lemma {:induction false} JoinAvoids(parts: seq<string>, sep: string, c: char)
    requires c !in sep
    requires forall k :: 0 <= k < |parts| ==> c !in parts[k]
    ensures c !in Join(parts, sep)
  {
    if |parts| > 1 {
      JoinAvoids(parts[1..], sep, c);
      assert parts[1..][0] == parts[1];
    }
  }

  /** Python's `c * n` for a one-character string `c`. */
  function Repeat(c: char, n: nat): (r: string)
    ensures |r| == n
    ensures forall i :: 0 <= i < n ==> r[i] == c
  {
    seq(n, _ => c)
  }

  /** The `'=' * 60` rule that frames every tool report. */
  function Rule(): string {
    Repeat('=', 60)
  }

  function DigitChar(d: nat): (c: char)
    requires d < 10
    ensures '0' <= c <= '9'
  {
    ('0' as int + d) as char
  }

  /** Python's `str(n)` for a non-negative integer: decimal digits, no leading zero. */
  function NatToString(n: nat): (r: string)
    ensures |r| > 0
    ensures forall i :: 0 <= i < |r| ==> '0' <= r[i] <= '9'
    ensures |r| > 1 ==> r[0] != '0'
    decreases n
  {
    if n < 10 then [DigitChar(n)] else NatToString(n / 10) + [DigitChar(n % 10)]
  }

  /** The number a string of decimal digits denotes. */
  function DigitsValue(s: string): int
  {
    if |s| == 0 then 0 else 10 * DigitsValue(s[..|s| - 1]) + (s[|s| - 1] as int - '0' as int)
  }

  /** Reading back the decimal rendering gives the number. */
  lemma {:induction false} NatToStringRoundTrip(n: nat)
    ensures DigitsValue(NatToString(n)) == n
    decreases n
  {
    if n >= 10 {
      NatToStringRoundTrip(n / 10);
      var r := NatToString(n);
      assert r[..|r| - 1] == NatToString(n / 10);
    }
  }

  /** Python's `str(i)` for any integer. */
  function IntToString(i: int): (r: string)
    ensures |r| > 0 && '\n' !in r && ' ' !in r
    ensures i >= 0 ==> r == NatToString(i)
    ensures i < 0 ==> r == "-" + NatToString(-i)
  {
    if i < 0 then "-" + NatToString(-i) else NatToString(i)
  }

  /** Python's slice `s[:n]`; a negative `n` drops `-n` characters from the end. */
  function PyPrefix(s: string, n: int): (r: string)
    ensures r <= s
    ensures 0 <= n ==> |r| == (if n < |s| then n else |s|)
    ensures n < 0 ==> |r| == (if -n < |s| then |s| + n else 0)
  {
    if 0 <= n then s[..if n < |s| then n else |s|]
    else s[..if -n < |s| then |s| + n else 0]
  }

  // ---------------------------------------------------------------------------
  // Scanning

  /** The index of the first newline at or after `i`, or `|s|` when there is none. */
  function LineEnd(s: string, i: nat): (e: nat)
    requires i <= |s|
    ensures i <= e <= |s|
    ensures forall k :: i <= k < e ==> s[k] != '\n'
    ensures e < |s| ==> s[e] == '\n'
    decreases |s| - i
  {
    if i == |s| || s[i] == '\n' then i else LineEnd(s, i + 1)
  }

  /** The length of the longest run of whitespace starting at `i`. */
  function SpaceRun(s: string, i: nat): (n: nat)
    requires i <= |s|
    ensures i + n <= |s|
    ensures forall k :: i <= k < i + n ==> IsSpace(s[k])
    ensures i + n < |s| ==> !IsSpace(s[i + n])
    decreases |s| - i
  {
    if i < |s| && IsSpace(s[i]) then 1 + SpaceRun(s, i + 1) else 0
  }

  // ---------------------------------------------------------------------------
  // Subsequences

  /** `a` can be obtained from `b` by deleting characters. */
  predicate IsSubsequence(a: string, b: string)
    decreases |b|
  {
    if |a| == 0 then true
    else if |b| == 0 then false
    else (a[0] == b[0] && IsSubsequence(a[1..], b[1..])) || IsSubsequence(a, b[1..])
  }

  lemma {:induction false} SubsequenceRefl(a: string)
    ensures IsSubsequence(a, a)
    decreases |a|
  {
    if |a| > 0 {
      SubsequenceRefl(a[1..]);
    }
  }

  lemma {:induction false} SubsequenceTrans(a: string, b: string, c: string)
    requires IsSubsequence(a, b) && IsSubsequence(b, c)
    ensures IsSubsequence(a, c)
    decreases |c|
  {
    if |a| > 0 {
      assert |b| > 0 && |c| > 0;
      if b[0] == c[0] && IsSubsequence(b[1..], c[1..]) {
        if a[0] == b[0] && IsSubsequence(a[1..], b[1..]) {
          SubsequenceTrans(a[1..], b[1..], c[1..]);
        } else {
          SubsequenceTrans(a, b[1..], c[1..]);
        }
      } else {
        SubsequenceTrans(a, b, c[1..]);
      }
    }
  }

  /** Every prefix of `s` is a subsequence of `s`. */
  lemma {:induction false} PrefixIsSubsequence(a: string, s: string)
    requires a <= s
    ensures IsSubsequence(a, s)
    decreases |s|
  {
    if |a| > 0 {
      assert a[1..] <= s[1..];
      PrefixIsSubsequence(a[1..], s[1..]);
    }
  }

  /** Stripping whitespace keeps a subsequence of the original. */
  lemma StripKeepsOrder(s: string)
    ensures IsSubsequence(Strip(s), s)
  {
    var a := LeadingSpaces(s);
    SliceIsSubsequence(s, a, a + |Strip(s)|);
  }

  /** Every slice of `s` is a subsequence of `s`. */
  lemma {:induction false} SliceIsSubsequence(s: string, i: nat, j: nat)
    requires i <= j <= |s|
    ensures IsSubsequence(s[i..j], s)
    decreases i
  {
    if i == 0 {
      PrefixIsSubsequence(s[..j], s);
    } else {
      SliceIsSubsequence(s[1..], i - 1, j - 1);
      assert s[1..][i - 1..j - 1] == s[i..j];
      var a := s[i..j];
      if |a| > 0 {
        assert IsSubsequence(a, s[1..]);
      }
    }
  }
}
