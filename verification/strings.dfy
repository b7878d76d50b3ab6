/**
 * The JavaScript string operations the core uses: `includes`, the first match
 * of a fixed text (`indexOf`), `trim` over an ASCII whitespace set, the last
 * piece of `split(sep)`, and the line terminators a regular-expression `.`
 * does not match.
 */
module Strings {
  import opened Wrappers

  /** True when `p` occurs in `s` starting at index `i`. */
  predicate OccursAt(s: string, p: string, i: int) {
    0 <= i && i + |p| <= |s| && s[i..i + |p|] == p
  }

  /** Index of the first occurrence of `p` in `s` (`s.indexOf(p)`, None for -1). */
  function IndexOf(s: string, p: string): (r: Option<nat>)
    ensures r.Some? ==> r.value + |p| <= |s|
    decreases |s|
  {
    if |p| > |s| then None
    else if p <= s then Some(0)
    else match IndexOf(s[1..], p)
      case None => None
      case Some(i) => Some(i + 1)
  }

  /** `s.includes(p)`. */
  predicate Contains(s: string, p: string) {
    IndexOf(s, p).Some?
  }

  lemma {:induction false} IndexOfIsFirstOccurrence(s: string, p: string)
    ensures IndexOf(s, p).Some? ==>
      OccursAt(s, p, IndexOf(s, p).value) &&
      forall j :: 0 <= j < IndexOf(s, p).value ==> !OccursAt(s, p, j)
    ensures IndexOf(s, p).None? ==> forall j :: !OccursAt(s, p, j)
    decreases |s|
  {
    if |p| > |s| {
    } else if p <= s {
      assert s[0..|p|] == p;
    } else {
      assert !OccursAt(s, p, 0);
      IndexOfIsFirstOccurrence(s[1..], p);
      forall j | 1 <= j
        ensures OccursAt(s, p, j) <==> OccursAt(s[1..], p, j - 1)
      {
        OccursDrop(s, p, 1, j);
      }
    }
  }

  /** An occurrence at `j >= d` is an occurrence at `j - d` once the first `d` characters are dropped. */
  lemma OccursDrop(s: string, p: string, d: nat, j: int)
    requires d <= |s| && d <= j
    ensures OccursAt(s, p, j) <==> OccursAt(s[d..], p, j - d)
  {
    if j + |p| <= |s| {
      var u, v := s[j..j + |p|], s[d..][j - d..j - d + |p|];
      forall t | 0 <= t < |p| ensures u[t] == v[t] {
        assert u[t] == s[j + t] && v[t] == s[d..][j - d + t];
      }
      assert u == v;
    }
  }

  /** `includes` holds exactly when the text occurs somewhere. */
  lemma ContainsIffOccurs(s: string, p: string)
    ensures Contains(s, p) <==> exists i :: OccursAt(s, p, i)
  {
    IndexOfIsFirstOccurrence(s, p);
  }

  /** A text found in a suffix is found in the whole string. */
  lemma ContainsInSuffix(s: string, k: nat, p: string)
    requires k <= |s| && Contains(s[k..], p)
    ensures Contains(s, p)
  {
    ContainsIffOccurs(s[k..], p);
    var i :| OccursAt(s[k..], p, i);
    assert s[k..][i..i + |p|] == s[k + i..k + i + |p|];
    assert OccursAt(s, p, k + i);
    ContainsIffOccurs(s, p);
  }

  /** The characters a regular-expression `.` does not match. */
  predicate IsLineTerminator(c: char) {
    c == '\n' || c == '\r' || c == '\U{2028}' || c == '\U{2029}'
  }

  predicate HasLineTerminator(s: string) {
    exists i :: 0 <= i < |s| && IsLineTerminator(s[i])
  }

  lemma {:induction false} NoLineTerminatorConcat(x: string, y: string)
    requires !HasLineTerminator(x) && !HasLineTerminator(y)
    ensures !HasLineTerminator(x + y)
  {
    forall i | 0 <= i < |x + y| ensures !IsLineTerminator((x + y)[i]) {
      if i < |x| { assert (x + y)[i] == x[i]; } else { assert (x + y)[i] == y[i - |x|]; }
    }
  }

  /** What `.+` or `.*` can consume from the start of `s`: everything before the first line terminator. */
  function FirstLine(s: string): (r: string)
    ensures r <= s && !HasLineTerminator(r)
    ensures |r| < |s| ==> IsLineTerminator(s[|r|])
  {
    if |s| == 0 || IsLineTerminator(s[0]) then []
    else
      var rest := FirstLine(s[1..]);
      assert !HasLineTerminator([s[0]] + rest) by {
        forall i | 0 <= i < |[s[0]] + rest| ensures !IsLineTerminator(([s[0]] + rest)[i]) {
          if i > 0 { assert ([s[0]] + rest)[i] == rest[i - 1]; }
        }
      }
      [s[0]] + rest
  }

  /** The whitespace `trim` removes (ASCII subset of JavaScript's set). */
  predicate IsWhitespace(c: char) {
    c == ' ' || c == '\t' || c == '\n' || c == '\r' || c == 11 as char || c == 12 as char
  }

  function TrimStart(s: string): (r: string)
    ensures |r| <= |s|
    decreases |s|
  {
    if |s| > 0 && IsWhitespace(s[0]) then TrimStart(s[1..]) else s
  }

  function TrimEnd(s: string): (r: string)
    ensures |r| <= |s|
    decreases |s|
  {
    if |s| > 0 && IsWhitespace(s[|s| - 1]) then TrimEnd(s[..|s| - 1]) else s
  }

  /** `s.trim()`. */
  function Trim(s: string): string {
    TrimEnd(TrimStart(s))
  }

  /** `r` is a contiguous piece of `s`. */
  ghost predicate IsSlice(r: string, s: string) {
    exists i, j :: 0 <= i <= j <= |s| && r == s[i..j]
  }

  lemma {:induction false} TrimStartDropsLeadingBlanks(s: string)
    ensures var r := TrimStart(s);
      |r| <= |s| && r == s[|s| - |r|..] &&
      (forall k :: 0 <= k < |s| - |r| ==> IsWhitespace(s[k])) &&
      (r != [] ==> !IsWhitespace(r[0]))
    decreases |s|
  {
    if |s| > 0 && IsWhitespace(s[0]) {
      TrimStartDropsLeadingBlanks(s[1..]);
    }
  }

  lemma {:induction false} TrimEndDropsTrailingBlanks(s: string)
    ensures var r := TrimEnd(s);
      |r| <= |s| && r == s[..|r|] &&
      (forall k :: |r| <= k < |s| ==> IsWhitespace(s[k])) &&
      (r != [] ==> !IsWhitespace(r[|r| - 1]))
    decreases |s|
  {
    if |s| > 0 && IsWhitespace(s[|s| - 1]) {
      TrimEndDropsTrailingBlanks(s[..|s| - 1]);
    }
  }

  /** How many leading characters `trim` removes. */
  function LeadingBlanks(s: string): nat {
    |s| - |TrimStart(s)|
  }

  /**
   * `trim` keeps a contiguous piece of the input, drops only whitespace around
   * it, and the piece neither starts nor ends with whitespace.
   */
  lemma TrimIsInnerSlice(s: string)
    ensures LeadingBlanks(s) + |Trim(s)| <= |s|
    ensures Trim(s) == s[LeadingBlanks(s)..LeadingBlanks(s) + |Trim(s)|]
    ensures forall k :: 0 <= k < LeadingBlanks(s) ==> IsWhitespace(s[k])
    ensures forall k :: LeadingBlanks(s) + |Trim(s)| <= k < |s| ==> IsWhitespace(s[k])
    ensures Trim(s) != [] ==> !IsWhitespace(Trim(s)[0]) && !IsWhitespace(Trim(s)[|Trim(s)| - 1])
  {
    var t := TrimStart(s);
    TrimStartDropsLeadingBlanks(s);
    TrimEndDropsTrailingBlanks(t);
    var r := TrimEnd(t);
    var i := |s| - |t|;
    assert t == s[i..];
    assert r == t[..|r|];
    forall k | i + |r| <= k < |s| ensures IsWhitespace(s[k]) {
      assert s[k] == t[k - i];
    }
    if r != [] {
      assert r[0] == t[0];
    }
  }

  /** The last element of `s.split(sep)`: everything after the last `sep`. */
  function AfterLast(s: string, sep: char): (r: string)
    ensures |r| <= |s|
    decreases |s|
  {
    if |s| == 0 then s
    else if s[|s| - 1] == sep then []
    else AfterLast(s[..|s| - 1], sep) + [s[|s| - 1]]
  }

  /**
   * The last piece of a split is a suffix free of the separator, preceded by
   * the separator whenever it is not the whole string.
   */
  lemma {:induction false} AfterLastIsFinalPiece(s: string, sep: char)
    ensures |AfterLast(s, sep)| <= |s|
    ensures AfterLast(s, sep) == s[|s| - |AfterLast(s, sep)|..]
    ensures sep !in AfterLast(s, sep)
    ensures |AfterLast(s, sep)| < |s| ==> s[|s| - |AfterLast(s, sep)| - 1] == sep
  {
    AfterLastIsSuffix(s, sep);
    AfterLastHasNoSeparator(s, sep);
    AfterLastFollowsSeparator(s, sep);
  }

  lemma {:induction false} AfterLastIsSuffix(s: string, sep: char)
    ensures AfterLast(s, sep) == s[|s| - |AfterLast(s, sep)|..]
    decreases |s|
  {
    if |s| > 0 && s[|s| - 1] != sep {
      var init := s[..|s| - 1];
      AfterLastIsSuffix(init, sep);
      var k := |init| - |AfterLast(init, sep)|;
      assert s == init + [s[|s| - 1]];
      assert s[k..] == init[k..] + [s[|s| - 1]];
    }
  }

  lemma {:induction false} AfterLastHasNoSeparator(s: string, sep: char)
    ensures sep !in AfterLast(s, sep)
    decreases |s|
  {
    if |s| > 0 && s[|s| - 1] != sep {
      AfterLastHasNoSeparator(s[..|s| - 1], sep);
    }
  }

  lemma {:induction false} AfterLastFollowsSeparator(s: string, sep: char)
    ensures |AfterLast(s, sep)| < |s| ==> s[|s| - |AfterLast(s, sep)| - 1] == sep
    decreases |s|
  {
    if |s| > 0 && s[|s| - 1] != sep {
      var init := s[..|s| - 1];
      AfterLastFollowsSeparator(init, sep);
      var k := |init| - |AfterLast(init, sep)|;
      if k > 0 {
        assert s[k - 1] == init[k - 1];
      }
    }
  }

  /** Without a separator the single piece of the split is the whole string. */
  lemma {:induction false} AfterLastWithoutSeparator(s: string, sep: char)
    requires sep !in s
    ensures AfterLast(s, sep) == s
    decreases |s|
  {
    if |s| > 0 {
      AfterLastWithoutSeparator(s[..|s| - 1], sep);
      assert s[..|s| - 1] + [s[|s| - 1]] == s;
    }
  }
}
