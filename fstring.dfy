/**
 * The parts of Unreal's FString that the asset-naming code relies on:
 * FString::ReplaceInline (replace every occurrence of a search text) and
 * FString::FromInt / Printf("%d") (decimal rendering of an integer).
 *
 * ReplaceInline compares characters either exactly or ignoring case; the mode
 * is the explicit parameter `mode` here. Case folding is ASCII only.
 */
module FString {

  /** ESearchCase: how ReplaceInline compares the search text with the string. */
  datatype SearchCase = CaseSensitive | IgnoreCase

  /** ASCII lower-casing; every other character is left as it is. */
  function ToLower(c: char): char
  {
    if 'A' <= c <= 'Z' then (c as int + 32) as char else c
  }

  /** A character lower-cases to a non-letter only if it is that very character. */
  lemma ToLowerNonLetter(c: char, d: char)
    requires !('a' <= d <= 'z') && !('A' <= d <= 'Z')
    ensures ToLower(c) == d <==> c == d
  {
    if 'A' <= c <= 'Z' {
      assert 'a' as int <= ToLower(c) as int <= 'z' as int;
    }
  }

  function ToLowerString(s: string): (r: string)
    ensures |r| == |s|
    ensures forall k :: 0 <= k < |s| ==> r[k] == ToLower(s[k])
  {
    seq(|s|, k requires 0 <= k < |s| => ToLower(s[k]))
  }

  predicate CharsEqual(a: char, b: char, mode: SearchCase)
  {
    if mode == IgnoreCase then ToLower(a) == ToLower(b) else a == b
  }

  /** Whether `s` begins with `pat`, comparing characters as `mode` says. */
  predicate StartsWith(s: string, pat: string, mode: SearchCase)
  {
    |pat| <= |s| && forall k :: 0 <= k < |pat| ==> CharsEqual(s[k], pat[k], mode)
  }

  /**
   * The result of replacing every occurrence of `pat` in `s` by `rep`:
   * occurrences are taken left to right, they do not overlap, and the text of
   * a replacement is never searched again. An empty search text changes nothing.
   */
  function ReplaceAll(s: string, pat: string, rep: string, mode: SearchCase): string
    decreases |s|
  {
    if |pat| == 0 || |s| == 0 then s
    else if StartsWith(s, pat, mode) then rep + ReplaceAll(s[|pat|..], pat, rep, mode)
    else [s[0]] + ReplaceAll(s[1..], pat, rep, mode)
  }

  /**
   * Strstr / Stristr: the first position at or after `from` where `pat`
   * occurs, or -1 when there is none.
   */
  function Find(s: string, pat: string, from: nat, mode: SearchCase): (r: int)
    requires from <= |s|
    ensures r == -1 || from <= r <= |s|
    decreases |s| - from
  {
    if StartsWith(s[from..], pat, mode) then from
    else if from == |s| then -1
    else Find(s, pat, from + 1, mode)
  }

  /** Find gives an occurrence, and no earlier one exists at or after `from`. */
  lemma {:induction false} FindFirst(s: string, pat: string, from: nat, mode: SearchCase)
    requires from <= |s|
    ensures var r := Find(s, pat, from, mode);
      r == -1 || StartsWith(s[r..], pat, mode)
    ensures var r := Find(s, pat, from, mode);
      forall i :: from <= i <= |s| && (r == -1 || i < r) ==> !StartsWith(s[i..], pat, mode)
    decreases |s| - from
  {
    if !StartsWith(s[from..], pat, mode) && from < |s| {
      FindFirst(s, pat, from + 1, mode);
    }
  }

  /** Text before the next occurrence is copied unchanged. */
  lemma {:induction false} SkipUnmatched(s: string, pat: string, rep: string, mode: SearchCase, w: nat, p: nat)
    requires |pat| > 0 && w <= p <= |s|
    requires forall i {:trigger StartsWith(s[i..], pat, mode)} :: w <= i < p ==> !StartsWith(s[i..], pat, mode)
    ensures ReplaceAll(s[w..], pat, rep, mode) == s[w..p] + ReplaceAll(s[p..], pat, rep, mode)
    decreases p - w
  {
    if w < p {
      NoMatchAt(s, pat, rep, mode, w);
      SkipUnmatched(s, pat, rep, mode, w + 1, p);
      ConsSlice(s, w, p, ReplaceAll(s[p..], pat, rep, mode));
    }
  }

  lemma ConsSlice(s: string, w: nat, p: nat, r: string)
    requires w < p <= |s|
    ensures [s[w]] + (s[w + 1..p] + r) == s[w..p] + r
  {
    assert s[w..p] == [s[w]] + s[w + 1..p];
  }

  /** Where no occurrence starts, the character there is kept. */
  lemma NoMatchAt(s: string, pat: string, rep: string, mode: SearchCase, w: nat)
    requires |pat| > 0 && w < |s| && !StartsWith(s[w..], pat, mode)
    ensures ReplaceAll(s[w..], pat, rep, mode) == [s[w]] + ReplaceAll(s[w + 1..], pat, rep, mode)
  {
    assert s[w..][1..] == s[w + 1..];
  }

  /** An occurrence is replaced and the scan resumes right after it. */
  lemma AtMatch(s: string, pat: string, rep: string, mode: SearchCase, p: nat)
    requires |pat| > 0 && p <= |s| && StartsWith(s[p..], pat, mode)
    ensures p + |pat| <= |s|
    ensures ReplaceAll(s[p..], pat, rep, mode) == rep + ReplaceAll(s[p + |pat|..], pat, rep, mode)
  {
    assert s[p..][|pat|..] == s[p + |pat|..];
  }

  lemma Regroup(a: string, b: string, c: string, d: string)
    ensures (a + b + c) + d == a + (b + (c + d))
  {
  }

  /**
   * At the next occurrence, the text before it and the replacement are
   * emitted and the scan resumes after it; `done` is what was emitted so far.
   */
  lemma ReplaceNext(s: string, pat: string, rep: string, mode: SearchCase, done: string, w: nat, p: int, next: string, after: int)
    requires |pat| > 0 && w <= |s|
    requires p == Find(s, pat, w, mode) && p != -1
    requires done + ReplaceAll(s[w..], pat, rep, mode) == ReplaceAll(s, pat, rep, mode)
    requires next == done + s[w..p] + rep && after == p + |pat|
    ensures w < after <= |s|
    ensures next + ReplaceAll(s[after..], pat, rep, mode) == ReplaceAll(s, pat, rep, mode)
  {
    FindFirst(s, pat, w, mode);
    SkipUnmatched(s, pat, rep, mode, w, p);
    AtMatch(s, pat, rep, mode, p);
    Regroup(done, s[w..p], rep, ReplaceAll(s[p + |pat|..], pat, rep, mode));
  }

  /** With no occurrence left, the rest of the text is copied unchanged. */
  lemma ReplaceRest(s: string, pat: string, rep: string, mode: SearchCase, w: nat)
    requires |pat| > 0 && w <= |s|
    requires Find(s, pat, w, mode) == -1
    ensures ReplaceAll(s[w..], pat, rep, mode) == s[w..]
  {
    FindFirst(s, pat, w, mode);
    SkipUnmatched(s, pat, rep, mode, w, |s|);
    assert s[|s|..] == [];
    assert s[w..|s|] == s[w..];
  }

  /** Replacing a text by itself, comparing exactly, is the identity. */
  lemma {:induction false} ReplaceBySelf(s: string, pat: string)
    ensures ReplaceAll(s, pat, pat, CaseSensitive) == s
    decreases |s|
  {
    if |pat| == 0 || |s| == 0 {
    } else if StartsWith(s, pat, CaseSensitive) {
      ReplaceBySelf(s[|pat|..], pat);
      assert s[..|pat|] == pat;
      assert s == s[..|pat|] + s[|pat|..];
    } else {
      ReplaceBySelf(s[1..], pat);
      assert s == [s[0]] + s[1..];
    }
  }

  /**
   * FString::ReplaceInline. Like the engine, it returns at once when the
   * string or the search text is empty, or when an exact-case search would put
   * back the same text; otherwise it scans for the next occurrence, copies the
   * text before it and the replacement, and resumes after the occurrence.
   * (The engine overwrites in place when both texts have the same length; the
   * result is the same.)
   */
  method ReplaceInline(s: string, pat: string, rep: string, mode: SearchCase) returns (r: string)
    ensures r == ReplaceAll(s, pat, rep, mode)
  {
    if |s| == 0 || |pat| == 0 || (mode == CaseSensitive && pat == rep) {
      if mode == CaseSensitive && pat == rep {
        ReplaceBySelf(s, pat);
      }
      return s;
    }
    r := [];
    var write := 0;
    var pos := Find(s, pat, 0, mode);
    assert s[0..] == s;
    while pos != -1
      invariant 0 <= write <= |s|
      invariant pos == Find(s, pat, write, mode)
      invariant r + ReplaceAll(s[write..], pat, rep, mode) == ReplaceAll(s, pat, rep, mode)
      decreases |s| - write
    {
      var next, after := r + s[write..pos] + rep, pos + |pat|;
      ReplaceNext(s, pat, rep, mode, r, write, pos, next, after);
      r, write := next, after;
      pos := Find(s, pat, write, mode);
    }
    ReplaceRest(s, pat, rep, mode, write);
    r := r + s[write..];
  }

  /** A text in which `pat` occurs nowhere is left unchanged. */
  lemma {:induction false} ReplaceAllAbsent(s: string, pat: string, rep: string, mode: SearchCase)
    requires forall i :: 0 <= i < |s| ==> !StartsWith(s[i..], pat, mode)
    ensures ReplaceAll(s, pat, rep, mode) == s
    decreases |s|
  {
    if |pat| != 0 && |s| != 0 {
      assert s[0..] == s;
      forall i | 0 <= i < |s[1..]| ensures !StartsWith(s[1..][i..], pat, mode) {
        assert s[1..][i..] == s[i + 1..];
      }
      ReplaceAllAbsent(s[1..], pat, rep, mode);
      assert s == [s[0]] + s[1..];
    }
  }

  /**
   * A prefix none of whose characters matches the first character of `pat`
   * is copied unchanged and does not affect what follows.
   */
  lemma {:induction false} ReplaceAllAfterPrefix(a: string, t: string, pat: string, rep: string, mode: SearchCase)
    requires |pat| > 0
    requires forall k :: 0 <= k < |a| ==> !CharsEqual(a[k], pat[0], mode)
    ensures ReplaceAll(a + t, pat, rep, mode) == a + ReplaceAll(t, pat, rep, mode)
    decreases |a|
  {
    if |a| == 0 {
      assert a + t == t;
    } else {
      assert (a + t)[0] == a[0];
      assert (a + t)[1..] == a[1..] + t;
      ReplaceAllAfterPrefix(a[1..], t, pat, rep, mode);
      assert a == [a[0]] + a[1..];
    }
  }

  /** The decimal digit character for 0 <= d < 10. */
  function DigitChar(d: nat): (c: char)
    requires d < 10
    ensures '0' <= c <= '9'
  {
    (('0' as int) + d) as char
  }

  predicate IsDigit(c: char)
  {
    '0' <= c <= '9'
  }

  /** Unpadded decimal rendering of a natural number. */
  function NatToString(n: nat): string
    decreases n
  {
    if n < 10 then [DigitChar(n)] else NatToString(n / 10) + [DigitChar(n % 10)]
  }

  /** FString::FromInt, and equally Printf("%d"): a minus sign for negative numbers, then the digits. */
  function FromInt(n: int): string
  {
    if n < 0 then "-" + NatToString(-n) else NatToString(n)
  }

  /** The value of a string of decimal digits. */
  function ParseDecimal(s: string): int
    decreases |s|
  {
    if |s| == 0 then 0
    else ParseDecimal(s[..|s| - 1]) * 10 + (s[|s| - 1] as int - '0' as int)
  }

  /** For n >= 0, FromInt gives digits only, without leading zeros, and reading them back gives n. */
  lemma {:induction false} FromIntDecimal(n: nat)
    ensures |FromInt(n)| >= 1
    ensures forall k :: 0 <= k < |FromInt(n)| ==> IsDigit(FromInt(n)[k])
    ensures |FromInt(n)| > 1 ==> FromInt(n)[0] != '0'
    ensures ParseDecimal(FromInt(n)) == n
    decreases n
  {
    if n >= 10 {
      FromIntDecimal(n / 10);
      var s := NatToString(n / 10);
      var t := s + [DigitChar(n % 10)];
      assert t[..|t| - 1] == s;
      assert t[0] == s[0];
    }
  }
}
