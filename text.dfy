/**
 * The Python string operations the kiosk uses to read the output of `lpstat`,
 * `lp` and `lsusb` and to build URLs: `in`, `strip()`, `split()`,
 * `split(sep)`, `splitlines()`, `lower()`, `replace()` and `str(int)`.
 * Each is stated for Dafny strings (sequences of Unicode scalar values).
 */
module Text {
  import opened Common

  /** Python's str.isspace for one character. */
  predicate IsSpace(c: char)
  {
    || c == ' ' || c == '\t' || c == '\n' || c == '\r' || c == '\U{000B}' || c == '\U{000C}'
    || ('\U{001C}' <= c <= '\U{001F}') || c == '\U{0085}' || c == '\U{00A0}' || c == '\U{1680}'
    || ('\U{2000}' <= c <= '\U{200A}') || c == '\U{2028}' || c == '\U{2029}' || c == '\U{202F}'
    || c == '\U{205F}' || c == '\U{3000}'
  }

  /** The line boundaries recognised by Python's str.splitlines. */
  predicate IsLineBreak(c: char)
  {
    || c == '\n' || c == '\r' || c == '\U{000B}' || c == '\U{000C}'
    || ('\U{001C}' <= c <= '\U{001E}') || c == '\U{0085}' || c == '\U{2028}' || c == '\U{2029}'
  }

  predicate NoSpace(s: string)
  {
    forall i :: 0 <= i < |s| ==> !IsSpace(s[i])
  }

  predicate NoLineBreak(s: string)
  {
    forall i :: 0 <= i < |s| ==> !IsLineBreak(s[i])
  }

  /** Neither end of s is white space: what strip() leaves. */
  predicate Stripped(s: string)
  {
    s == [] || (!IsSpace(s[0]) && !IsSpace(s[|s| - 1]))
  }

  predicate IsPrefix(p: string, s: string)
  {
    |p| <= |s| && s[..|p|] == p
  }

  predicate OccursAt(s: string, p: string, i: nat)
  {
    i + |p| <= |s| && s[i..i + |p|] == p
  }

  /** Python's `p in s` for two strings. */
  predicate Contains(s: string, p: string)
  {
    exists i: nat :: i <= |s| && OccursAt(s, p, i)
  }

  // ---------------------------------------------------------------- strip()

  function TrimStart(s: string): (r: string)
    ensures |r| <= |s| && r == s[|s| - |r|..]
    ensures forall i :: 0 <= i < |s| - |r| ==> IsSpace(s[i])
    ensures r != [] ==> !IsSpace(r[0])
  {
    if s != [] && IsSpace(s[0]) then TrimStart(s[1..]) else s
  }

  function TrimEnd(s: string): (r: string)
    ensures |r| <= |s| && r == s[..|r|]
    ensures forall i :: |r| <= i < |s| ==> IsSpace(s[i])
    ensures r != [] ==> !IsSpace(r[|r| - 1])
  {
    if s != [] && IsSpace(s[|s| - 1]) then TrimEnd(s[..|s| - 1]) else s
  }

  /** Python's str.strip() with no argument. */
  function Strip(s: string): (r: string)
    ensures Stripped(r)
  {
    var t := TrimStart(s);
    var r := TrimEnd(t);
    assert r != [] ==> t != [] && r[0] == t[..|r|][0] == t[0];
    r
  }

  /** A string with no white space at either end is left alone by strip(). */
  lemma StripKeepsStripped(s: string)
    requires Stripped(s)
    ensures Strip(s) == s
  {
  }

  /** strip() is idempotent. */
  lemma StripIdempotent(s: string)
    ensures Strip(Strip(s)) == Strip(s)
  {
    StripKeepsStripped(Strip(s));
  }

  /** Leading white space in front of a non-space character is what lstrip() drops. */
  lemma {:induction false} TrimStartSkips(ws: string, u: string)
    requires forall i :: 0 <= i < |ws| ==> IsSpace(ws[i])
    requires u == [] || !IsSpace(u[0])
    ensures TrimStart(ws + u) == u
    decreases |ws|
  {
    if ws == [] {
      assert ws + u == u;
    } else {
      assert (ws + u)[1..] == ws[1..] + u;
      TrimStartSkips(ws[1..], u);
    }
  }

  // ---------------------------------------------------------------- split()

  /** The length of the leading run of non-space characters. */
  function WordLength(s: string): (n: nat)
    ensures n <= |s| && NoSpace(s[..n]) && (n < |s| ==> IsSpace(s[n]))
  {
    if s == [] || IsSpace(s[0]) then 0 else 1 + WordLength(s[1..])
  }

  /** A word followed by white space or by nothing is the leading run. */
  lemma {:induction false} WordLengthOf(w: string, rest: string)
    requires NoSpace(w)
    requires rest == [] || IsSpace(rest[0])
    ensures WordLength(w + rest) == |w|
    decreases |w|
  {
    if w == [] {
      assert w + rest == rest;
    } else {
      assert (w + rest)[1..] == w[1..] + rest;
      WordLengthOf(w[1..], rest);
    }
  }

  /** The first word split() returns is the leading run after the white space. */
  lemma FirstWord(ws: string, w: string, rest: string)
    requires forall i :: 0 <= i < |ws| ==> IsSpace(ws[i])
    requires w != [] && NoSpace(w)
    requires rest == [] || IsSpace(rest[0])
    ensures SplitWs(ws + w + rest) != [] && SplitWs(ws + w + rest)[0] == w
  {
    assert ws + w + rest == ws + (w + rest);
    TrimStartSkips(ws, w + rest);
    WordLengthOf(w, rest);
    assert (w + rest)[..|w|] == w;
  }

  /** White space alone splits into no words. */
  lemma NoWords(ws: string)
    requires forall i :: 0 <= i < |ws| ==> IsSpace(ws[i])
    ensures SplitWs(ws) == []
  {
    TrimStartSkips(ws, []);
    assert ws + [] == ws;
  }

  /** Python's str.split() with no argument: the maximal runs of non-space characters. */
  function SplitWs(s: string): seq<string>
    decreases |s|
  {
    var t := TrimStart(s);
    if t == [] then []
    else
      var n := WordLength(t);
      assert n > 0;
      [t[..n]] + SplitWs(t[n..])
  }

  /** Non-empty strings without white space. */
  predicate AllWords(r: seq<string>)
  {
    forall i :: 0 <= i < |r| ==> r[i] != [] && NoSpace(r[i])
  }

  /** Every word split() returns is non-empty and free of white space. */
  lemma {:induction false} SplitWsWords(s: string)
    ensures AllWords(SplitWs(s))
    decreases |s|
  {
    var t := TrimStart(s);
    if t != [] {
      var n := WordLength(t);
      SplitWsWords(t[n..]);
      ConsWords(t[..n], SplitWs(t[n..]));
    }
  }

  lemma ConsWords(w: string, rest: seq<string>)
    requires w != [] && NoSpace(w) && AllWords(rest)
    ensures AllWords([w] + rest)
  {
    forall i | 1 <= i < |[w] + rest| ensures ([w] + rest)[i] == rest[i - 1] {
    }
  }

  // ---------------------------------------------------------------- split(sep)

  /** Python's str.split(sep) for a one-character separator. */
  function Split(s: string, sep: char): (r: seq<string>)
    ensures |r| >= 1
    ensures forall i :: 0 <= i < |r| ==> sep !in r[i]
  {
    if s == [] then [""]
    else if s[0] == sep then [""] + Split(s[1..], sep)
    else
      var rest := Split(s[1..], sep);
      [[s[0]] + rest[0]] + rest[1..]
  }

  function Last<T>(s: seq<T>): T
    requires s != []
  {
    s[|s| - 1]
  }

  /** split(sep) yields the whole string as its only piece exactly when sep does not occur. */
  lemma {:induction false} SplitWithoutSeparator(s: string, sep: char)
    ensures sep !in s <==> Split(s, sep) == [s]
    ensures |Split(s, sep)| == 1 ==> sep !in s
  {
    if s != [] {
      SplitWithoutSeparator(s[1..], sep);
      assert s == [s[0]] + s[1..];
      if s[0] != sep {
        var rest := Split(s[1..], sep);
        assert Split(s, sep) == [[s[0]] + rest[0]] + rest[1..];
        assert |Split(s, sep)| == |rest|;
        if Split(s, sep) == [s] {
          assert [s[0]] + rest[0] == s;
          assert rest == [s[1..]];
        }
      }
    }
  }

  /**
   * The last piece of split(sep) is the text after the last separator:
   * a suffix of s, preceded by sep when it is shorter than s.
   */
  lemma {:induction false} SplitLastIsSuffix(s: string, sep: char)
    ensures var l := Last(Split(s, sep));
      |l| <= |s| && l == s[|s| - |l|..] && (|l| < |s| ==> s[|s| - |l| - 1] == sep)
  {
    if s != [] {
      var t := s[1..];
      var rest := Split(t, sep);
      var l := Last(rest);
      SplitLastIsSuffix(t, sep);
      SplitWithoutSeparator(t, sep);
      assert s == [s[0]] + t;
      if s[0] == sep {
        assert Split(s, sep) == [""] + rest;
        assert Last(Split(s, sep)) == l;
        assert t[|t| - |l|..] == s[|s| - |l|..];
        if |l| < |t| {
          assert t[|t| - |l| - 1] == s[|s| - |l| - 1];
        }
      } else if |rest| > 1 {
        assert Split(s, sep) == [[s[0]] + rest[0]] + rest[1..];
        assert Last(Split(s, sep)) == l;
        assert t[|t| - |l|..] == s[|s| - |l|..];
        assert t[|t| - |l| - 1] == s[|s| - |l| - 1];
      } else {
        assert Split(s, sep) == [[s[0]] + rest[0]];
        assert rest == [t];
      }
    }
  }

  // ---------------------------------------------------------------- splitlines()

  function BreakIndex(s: string): (k: nat)
    ensures k <= |s| && NoLineBreak(s[..k]) && (k < |s| ==> IsLineBreak(s[k]))
  {
    if s == [] || IsLineBreak(s[0]) then 0 else 1 + BreakIndex(s[1..])
  }

  /** The width of the line boundary at s[k]: two for "\r\n", one otherwise. */
  function BreakWidth(s: string, k: nat): (w: nat)
    requires k < |s| && IsLineBreak(s[k])
    ensures 1 <= w <= 2 && k + w <= |s|
    ensures forall j :: k <= j < k + w ==> IsLineBreak(s[j])
  {
    if s[k] == '\r' && k + 1 < |s| && s[k + 1] == '\n' then 2 else 1
  }

  /** Python's str.splitlines() without keepends. */
  function SplitLines(s: string): (r: seq<string>)
    ensures forall i :: 0 <= i < |r| ==> NoLineBreak(r[i])
    decreases |s|
  {
    if s == [] then []
    else
      var k := BreakIndex(s);
      if k == |s| then [s] else [s[..k]] + SplitLines(s[k + BreakWidth(s, k)..])
  }

  /** A pattern without line breaks occurs across a run of line breaks only by occurring on one side. */
  lemma ContainsAcrossBreak(s: string, p: string, k: nat, w: nat)
    requires p != [] && NoLineBreak(p)
    requires 0 < w && k + w <= |s|
    requires forall j :: k <= j < k + w ==> IsLineBreak(s[j])
    ensures Contains(s, p) <==> Contains(s[..k], p) || Contains(s[k + w..], p)
  {
    if Contains(s[..k], p) {
      var i: nat :| i <= k && OccursAt(s[..k], p, i);
      OccursInPrefix(s, p, k, i);
    }
    if Contains(s[k + w..], p) {
      var i: nat :| i <= |s[k + w..]| && OccursAt(s[k + w..], p, i);
      OccursInSuffix(s, p, k + w, i);
    }
    if Contains(s, p) {
      var i: nat :| i <= |s| && OccursAt(s, p, i);
      if i + |p| <= k {
        OccursInPrefix(s, p, k, i);
      } else if i >= k + w {
        OccursInSuffix(s, p, k + w, i - k - w);
      } else {
        var j := if i <= k then k else i;
        assert IsLineBreak(s[j]);
        assert s[i..i + |p|][j - i] == s[j];
      }
    }
  }

  /** Without an occurrence at 0, p occurs in s exactly when it occurs in s[1..]. */
  lemma ContainsPastFirst(s: string, p: string)
    requires s != [] && !OccursAt(s, p, 0)
    ensures Contains(s, p) <==> Contains(s[1..], p)
  {
    if Contains(s, p) {
      var i: nat :| i <= |s| && OccursAt(s, p, i);
      OccursInSuffix(s, p, 1, i - 1);
      assert OccursAt(s[1..], p, i - 1);
    }
    if Contains(s[1..], p) {
      var i: nat :| i <= |s[1..]| && OccursAt(s[1..], p, i);
      OccursInSuffix(s, p, 1, i);
      assert OccursAt(s, p, 1 + i);
    }
  }

  /** An occurrence that ends by k is one in the first k characters. */
  lemma OccursInPrefix(s: string, p: string, k: nat, i: nat)
    requires i + |p| <= k <= |s|
    ensures OccursAt(s, p, i) <==> OccursAt(s[..k], p, i)
  {
    assert s[..k][i..i + |p|] == s[i..i + |p|];
  }

  /** An occurrence at m + a is one at a in what follows position m. */
  lemma OccursInSuffix(s: string, p: string, m: nat, a: nat)
    requires m <= |s|
    ensures OccursAt(s, p, m + a) <==> OccursAt(s[m..], p, a)
  {
    if m + a + |p| <= |s| {
      assert s[m..][a..a + |p|] == s[m + a..m + a + |p|];
    }
  }

  /** Some string of the list contains p. */
  predicate AnyContains(lines: seq<string>, p: string)
  {
    exists i :: 0 <= i < |lines| && Contains(lines[i], p)
  }

  lemma AnyContainsCons(line: string, lines: seq<string>, p: string)
    ensures AnyContains([line] + lines, p) <==> Contains(line, p) || AnyContains(lines, p)
  {
    var all := [line] + lines;
    if AnyContains(all, p) {
      var i :| 0 <= i < |all| && Contains(all[i], p);
      if i > 0 {
        assert all[i] == lines[i - 1];
      }
    }
    if AnyContains(lines, p) {
      var i :| 0 <= i < |lines| && Contains(lines[i], p);
      assert all[i + 1] == lines[i];
    }
    if Contains(line, p) {
      assert all[0] == line;
    }
  }

  /**
   * A pattern without line breaks occurs on some line of s exactly when it
   * occurs in s: searching line by line finds what searching the whole text finds.
   */
  lemma {:induction false} SomeLineContains(s: string, p: string)
    requires p != [] && NoLineBreak(p)
    ensures AnyContains(SplitLines(s), p) <==> Contains(s, p)
    decreases |s|
  {
    if s == [] {
      assert !Contains(s, p);
    } else {
      var k := BreakIndex(s);
      if k == |s| {
        AnyContainsCons(s, [], p);
        assert SplitLines(s) == [s] + [];
      } else {
        var w := BreakWidth(s, k);
        var rest := s[k + w..];
        SomeLineContains(rest, p);
        ContainsAcrossBreak(s, p, k, w);
        AnyContainsCons(s[..k], SplitLines(rest), p);
      }
    }
  }

  // ---------------------------------------------------------------- lower(), replace(), find

  function LowerChar(c: char): char
  {
    if 'A' <= c <= 'Z' then (c as int + 32) as char else c
  }

  /** str.lower() on the ASCII letters; every other character is kept. */
  function Lower(s: string): (r: string)
    ensures |r| == |s| && forall i :: 0 <= i < |s| ==> r[i] == LowerChar(s[i])
  {
    seq(|s|, i requires 0 <= i < |s| => LowerChar(s[i]))
  }

  /** Python's str.replace(pat, rep) for a non-empty pattern: left to right, without overlaps. */
  function ReplaceAll(s: string, pat: string, rep: string): string
    requires pat != []
    decreases |s|
  {
    if |s| < |pat| then s
    else if s[..|pat|] == pat then rep + ReplaceAll(s[|pat|..], pat, rep)
    else [s[0]] + ReplaceAll(s[1..], pat, rep)
  }

  /** replace() changes nothing when the pattern does not occur. */
  lemma {:induction false} ReplaceAbsent(s: string, pat: string, rep: string)
    requires pat != [] && !Contains(s, pat)
    ensures ReplaceAll(s, pat, rep) == s
    decreases |s|
  {
    if |s| >= |pat| {
      assert !OccursAt(s, pat, 0);
      if Contains(s[1..], pat) {
        var i: nat :| i <= |s[1..]| && OccursAt(s[1..], pat, i);
        assert s[1..][i..i + |pat|] == s[i + 1..i + 1 + |pat|];
        assert OccursAt(s, pat, i + 1);
      }
      ReplaceAbsent(s[1..], pat, rep);
    }
  }

  /** Python's str.find: the first position where p occurs in s. */
  function FindFirst(s: string, p: string): (r: Option<nat>)
    ensures r.Some? ==> r.value <= |s| && OccursAt(s, p, r.value)
    decreases |s|
  {
    if |s| < |p| then None
    else if s[..|p|] == p then Some(0)
    else
      match FindFirst(s[1..], p)
      case None => None
      case Some(k) =>
        assert s[1..][k..k + |p|] == s[k + 1..k + 1 + |p|];
        Some(k + 1)
  }

  /** find() reports the first occurrence, and reports none exactly when there is none. */
  lemma {:induction false} FindFirstIsFirst(s: string, p: string)
    ensures var r := FindFirst(s, p);
      && (r.Some? ==> forall j: nat :: j < r.value ==> !OccursAt(s, p, j))
      && (r.None? <==> !Contains(s, p))
    decreases |s|
  {
    if |s| >= |p| && s[..|p|] != p {
      FindFirstIsFirst(s[1..], p);
      var r := FindFirst(s, p);
      assert !OccursAt(s, p, 0);
      if r.Some? {
        forall j: nat | j < r.value ensures !OccursAt(s, p, j) {
          if j > 0 {
            OccursInSuffix(s, p, 1, j - 1);
          }
        }
      }
      ContainsPastFirst(s, p);
    } else if |s| >= |p| {
      assert OccursAt(s, p, 0);
    }
  }

  /** Python's s.split(p)[1] when p occurs in s: the text after the first p, up to the next p. */
  function PieceAfterFirst(s: string, p: string): (r: string)
    requires p != [] && Contains(s, p)
  {
    FindFirstIsFirst(s, p);
    var i := FindFirst(s, p).value;
    var t := s[i + |p|..];
    match FindFirst(t, p)
    case None => t
    case Some(j) => t[..j]
  }

  // ---------------------------------------------------------------- str(int)

  function Digit(d: nat): char
    requires d < 10
  {
    "0123456789"[d]
  }

  predicate IsDecimal(s: string)
  {
    s != [] && forall i :: 0 <= i < |s| ==> '0' <= s[i] <= '9'
  }

  /** The number a string of decimal digits denotes, read left to right. */
  function DigitsValue(s: string): nat
    requires forall i :: 0 <= i < |s| ==> '0' <= s[i] <= '9'
  {
    if s == [] then 0 else DigitsValue(s[..|s| - 1]) * 10 + (s[|s| - 1] as int - '0' as int)
  }

  function NatToString(n: nat): (r: string)
    ensures IsDecimal(r)
  {
    if n < 10 then [Digit(n)] else NatToString(n / 10) + [Digit(n % 10)]
  }

  /** str(n) reads back as n, and has no leading zero. */
  lemma {:induction false} NatToStringValue(n: nat)
    ensures DigitsValue(NatToString(n)) == n
    ensures NatToString(n)[0] == '0' ==> n == 0
  {
    var r := NatToString(n);
    if n < 10 {
      assert r == [Digit(n)] && r[..0] == [];
    } else {
      var h := NatToString(n / 10);
      NatToStringValue(n / 10);
      assert r == h + [Digit(n % 10)] && r[..|r| - 1] == h && r[0] == h[0];
    }
  }

  /** Python's str() of an int: an optional minus sign, then the magnitude's digits. */
  function IntToString(i: int): (t: string)
    ensures i < 0 ==> |t| > 1 && t[0] == '-' && IsDecimal(t[1..]) && DigitsValue(t[1..]) == -i
    ensures i >= 0 ==> IsDecimal(t) && DigitsValue(t) == i
    ensures t[0] == '0' ==> t == "0"
  {
    NatToStringValue(if i < 0 then -i else i);
    if i < 0 then
      assert ("-" + NatToString(-i))[1..] == NatToString(-i);
      "-" + NatToString(-i)
    else NatToString(i)
  }
}
