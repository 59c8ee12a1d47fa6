/** The string operations of the JavaScript runtime that the modelled code relies on. */
module Strings {

  predicate IsPrefix(p: string, s: string) {
    |p| <= |s| && s[..|p|] == p
  }

  predicate IsSuffix(p: string, s: string) {
    |p| <= |s| && s[|s| - |p|..] == p
  }

  /** `sub` occurs in `s` starting at index `i`. */
  predicate OccursAt(s: string, sub: string, i: int) {
    0 <= i <= |s| - |sub| && s[i..i + |sub|] == sub
  }

  /** `s.includes(sub)`. */
  predicate Contains(s: string, sub: string) {
    exists i | 0 <= i <= |s| :: OccursAt(s, sub, i)
  }

  lemma ContainsInfix(a: string, b: string, c: string)
    ensures Contains(a + b + c, b)
  {
    var s := a + b + c;
    assert OccursAt(s, b, |a|);
  }

  lemma ContainsItself(s: string)
    ensures Contains(s, s)
  {
    assert OccursAt(s, s, 0);
  }

  lemma ContainsGrows(s: string, sub: string, a: string, c: string)
    requires Contains(s, sub)
    ensures Contains(a + s + c, sub)
  {
    var i :| 0 <= i <= |s| && OccursAt(s, sub, i);
    var t := a + s + c;
    assert t[|a| + i..|a| + i + |sub|] == s[i..i + |sub|];
    assert OccursAt(t, sub, |a| + i);
  }

  /** Whitespace as `String.prototype.trim` and the regular-expression class `\s` see it. */
  predicate IsWhitespace(c: char) {
    c == ' ' || c == '\t' || c == '\n' || c == '\r' || c == '\U{B}' || c == '\U{C}'
    || c == '\U{A0}' || c == '\U{1680}' || ('\U{2000}' <= c <= '\U{200A}')
    || c == '\U{2028}' || c == '\U{2029}' || c == '\U{202F}' || c == '\U{205F}'
    || c == '\U{3000}' || c == '\U{FEFF}'
  }

  function TrimStart(s: string): (r: string)
    ensures IsSuffix(r, s)
    ensures r == [] || !IsWhitespace(r[0])
    ensures forall k :: 0 <= k < |s| - |r| ==> IsWhitespace(s[k])
  {
    if s == [] || !IsWhitespace(s[0]) then s else TrimStart(s[1..])
  }

  function TrimEnd(s: string): (r: string)
    ensures IsPrefix(r, s)
    ensures r == [] || !IsWhitespace(r[|r| - 1])
    ensures forall k :: |r| <= k < |s| ==> IsWhitespace(s[k])
  {
    if s == [] || !IsWhitespace(s[|s| - 1]) then s else TrimEnd(s[..|s| - 1])
  }

  /** `s.trim()`. */
  function Trim(s: string): (r: string)
    ensures r == [] || (!IsWhitespace(r[0]) && !IsWhitespace(r[|r| - 1]))
  {
    TrimEnd(TrimStart(s))
  }

  /** True when `s` holds nothing but whitespace: `s.trim().length === 0`. */
  predicate IsBlank(s: string) {
    Trim(s) == []
  }

  /** `s.replace(/c/g, d)` for one character `c`. */
  function ReplaceChar(s: string, c: char, d: char): (r: string)
    ensures |r| == |s|
    ensures forall k :: 0 <= k < |s| ==> r[k] == if s[k] == c then d else s[k]
  {
    if s == [] then [] else [if s[0] == c then d else s[0]] + ReplaceChar(s[1..], c, d)
  }

  /** `s.replace(/[...]/g, '')`: every character of `drop` removed. */
  function RemoveChars(s: string, drop: set<char>): (r: string)
    ensures |r| <= |s|
    ensures forall k :: 0 <= k < |r| ==> r[k] !in drop
    ensures forall c :: c in r ==> c in s
  {
    if s == [] then []
    else if s[0] in drop then RemoveChars(s[1..], drop)
    else [s[0]] + RemoveChars(s[1..], drop)
  }

  /** Removing characters a text does not hold leaves it as it is. */
  lemma {:induction false} RemoveNothing(s: string, drop: set<char>)
    requires forall k :: 0 <= k < |s| ==> s[k] !in drop
    ensures RemoveChars(s, drop) == s
    decreases |s|
  {
    if s != [] {
      RemoveNothing(s[1..], drop);
    }
  }

  /** `s.replace(/c+$/, '')`: the run of `c` at the end removed. */
  function StripTrailing(s: string, c: char): (r: string)
    ensures IsPrefix(r, s)
    ensures r == [] || r[|r| - 1] != c
    ensures forall k :: |r| <= k < |s| ==> s[k] == c
  {
    if s == [] || s[|s| - 1] != c then s else StripTrailing(s[..|s| - 1], c)
  }

  /** `c.repeat(n)`. */
  function Repeat(c: char, n: nat): (r: string)
    ensures |r| == n
    ensures forall k :: 0 <= k < n ==> r[k] == c
  {
    if n == 0 then [] else [c] + Repeat(c, n - 1)
  }

  /**
   * The replacement text `s.replace` inserts for a string pattern: `$$` is
   * one `$`, `$&` the matched text, `` $` `` the text before the match and
   * `$'` the text after it; any other `$` is kept as it is (a string
   * pattern has no groups).
   */
  function Substitute(replacement: string, matched: string, before: string, after: string): (r: string)
    ensures '$' !in replacement ==> r == replacement
    decreases |replacement|
  {
    if replacement == [] then []
    else if replacement[0] == '$' && |replacement| >= 2 && replacement[1] in {'$', '&', '`', '\''} then
      (match replacement[1]
       case '$' => "$"
       case '&' => matched
       case '`' => before
       case _ => after)
      + Substitute(replacement[2..], matched, before, after)
    else [replacement[0]] + Substitute(replacement[1..], matched, before, after)
  }

  /** `s.replace(pattern, replacement)` with a string pattern: only the first occurrence, found from index `i` on. */
  function ReplaceFrom(s: string, i: nat, pattern: string, replacement: string): string
    requires pattern != [] && i <= |s|
    decreases |s| - i
  {
    if |s| - i < |pattern| then s
    else if s[i..i + |pattern|] == pattern then
      s[..i] + Substitute(replacement, pattern, s[..i], s[i + |pattern|..]) + s[i + |pattern|..]
    else ReplaceFrom(s, i + 1, pattern, replacement)
  }

  /** `s.replace(pattern, replacement)` with a string pattern. */
  function ReplaceFirst(s: string, pattern: string, replacement: string): string
    requires pattern != []
  {
    ReplaceFrom(s, 0, pattern, replacement)
  }

  /** The search stops at the first occurrence from `i` on. */
  lemma {:induction false} ReplaceFromFirst(s: string, i: nat, pattern: string, replacement: string, k: nat)
    requires pattern != [] && i <= k && OccursAt(s, pattern, k)
    requires forall j :: i <= j < k ==> !OccursAt(s, pattern, j)
    ensures ReplaceFrom(s, i, pattern, replacement)
            == s[..k] + Substitute(replacement, pattern, s[..k], s[k + |pattern|..]) + s[k + |pattern|..]
    decreases k - i
  {
    if i < k {
      assert !OccursAt(s, pattern, i);
      ReplaceFromFirst(s, i + 1, pattern, replacement, k);
    }
  }

  /** Without an occurrence from `i` on, nothing is replaced. */
  lemma {:induction false} ReplaceFromAbsent(s: string, i: nat, pattern: string, replacement: string)
    requires pattern != [] && i <= |s|
    requires forall j :: i <= j <= |s| ==> !OccursAt(s, pattern, j)
    ensures ReplaceFrom(s, i, pattern, replacement) == s
    decreases |s| - i
  {
    if |s| - i >= |pattern| {
      assert !OccursAt(s, pattern, i);
      ReplaceFromAbsent(s, i + 1, pattern, replacement);
    }
  }

  /** Only the first occurrence is replaced: what follows it is kept as it is, later occurrences included. */
  lemma ReplaceFirstAtFirst(a: string, pattern: string, b: string, replacement: string)
    requires pattern != []
    requires forall i :: 0 <= i < |a| ==> !OccursAt(a + pattern + b, pattern, i)
    ensures ReplaceFirst(a + pattern + b, pattern, replacement) == a + Substitute(replacement, pattern, a, b) + b
  {
    var s := a + pattern + b;
    assert OccursAt(s, pattern, |a|);
    ReplaceFromFirst(s, 0, pattern, replacement, |a|);
    assert s[..|a|] == a && s[|a| + |pattern|..] == b;
  }

  /** Replacing the first occurrence of a pattern that occurs leaves the expanded replacement in the text. */
  lemma ReplaceFirstInserts(s: string, pattern: string, replacement: string)
    requires pattern != []
    requires Contains(s, pattern)
    ensures exists k ::
      && 0 <= k <= |s| - |pattern| && OccursAt(s, pattern, k)
      && ReplaceFirst(s, pattern, replacement)
         == s[..k] + Substitute(replacement, pattern, s[..k], s[k + |pattern|..]) + s[k + |pattern|..]
  {
    var j :| 0 <= j <= |s| && OccursAt(s, pattern, j);
    var k := FirstOccurrence(s, pattern, j);
    ReplaceFromFirst(s, 0, pattern, replacement, k);
    assert 0 <= k <= |s| - |pattern| && OccursAt(s, pattern, k);
  }

  /** The earliest occurrence of a pattern that occurs at `j`. */
  lemma {:induction false} FirstOccurrence(s: string, pattern: string, j: nat) returns (k: nat)
    requires OccursAt(s, pattern, j)
    ensures k <= j && OccursAt(s, pattern, k)
    ensures forall m :: 0 <= m < k ==> !OccursAt(s, pattern, m)
    decreases j
  {
    if exists m :: 0 <= m < j && OccursAt(s, pattern, m) {
      var m :| 0 <= m < j && OccursAt(s, pattern, m);
      k := FirstOccurrence(s, pattern, m);
    } else {
      k := j;
    }
  }

  /** Without an occurrence of the pattern, nothing is replaced. */
  lemma ReplaceFirstAbsent(s: string, pattern: string, replacement: string)
    requires pattern != []
    requires !Contains(s, pattern)
    ensures ReplaceFirst(s, pattern, replacement) == s
  {
    ReplaceFromAbsent(s, 0, pattern, replacement);
  }

  /** U+FFFD, which `TextEncoder` writes for a lone surrogate. */
  const ReplacementCharacter: char := '\U{FFFD}'

  /** The number of UTF-16 code units of a character: two outside the Basic Multilingual Plane. */
  function CodeUnits(c: char): nat {
    if c as int >= 0x1_0000 then 2 else 1
  }

  /** `s.length`: the UTF-16 code units of the text. */
  function Utf16Length(s: string): (n: nat)
    ensures |s| <= n <= 2 * |s|
    ensures (forall k :: 0 <= k < |s| ==> s[k] as int < 0x1_0000) ==> n == |s|
    decreases |s|
  {
    if s == [] then 0 else CodeUnits(s[0]) + Utf16Length(s[1..])
  }

  /** A text whose every character lies outside the Basic Multilingual Plane takes two code units a character. */
  lemma {:induction false} AllAstralLength(s: string)
    requires forall k :: 0 <= k < |s| ==> s[k] as int >= 0x1_0000
    ensures Utf16Length(s) == 2 * |s|
    decreases |s|
  {
    if s != [] {
      AllAstralLength(s[1..]);
    }
  }

  /**
   * `s.slice(0, n)` as `TextEncoder` then encodes it: the first `n` UTF-16
   * code units, where a surrogate pair cut in half leaves a lone high
   * surrogate that the encoder writes as U+FFFD.
   */
  function Utf16Prefix(s: string, n: nat): (r: string)
    ensures Utf16Length(r) == if Utf16Length(s) <= n then Utf16Length(s) else n
    ensures Utf16Length(s) <= n ==> r == s
    ensures forall c :: c in r ==> c in s || c == ReplacementCharacter
    decreases |s|
  {
    if s == [] || n == 0 then []
    else if CodeUnits(s[0]) <= n then [s[0]] + Utf16Prefix(s[1..], n - CodeUnits(s[0]))
    else [ReplacementCharacter]
  }

  /** A cut one code unit past a text within the Basic Multilingual Plane splits the pair that follows it. */
  lemma {:induction false} Utf16PrefixSplitsPair(s: string, c: char)
    requires forall k :: 0 <= k < |s| ==> s[k] as int < 0x1_0000
    requires c as int >= 0x1_0000
    ensures Utf16Prefix(s + [c], |s| + 1) == s + [ReplacementCharacter]
    decreases |s|
  {
    var t := s + [c];
    if s == [] {
      assert t == [c] && CodeUnits(c) == 2;
    } else {
      assert t[0] == s[0] && CodeUnits(s[0]) == 1;
      assert t[1..] == s[1..] + [c];
      assert forall k :: 0 <= k < |s[1..]| ==> s[1..][k] == s[k + 1];
      Utf16PrefixSplitsPair(s[1..], c);
      assert Utf16Prefix(t, |s| + 1) == [t[0]] + Utf16Prefix(t[1..], |s|);
    }
  }

  /** Within the Basic Multilingual Plane the code-unit prefix is the plain one. */
  lemma {:induction false} Utf16PrefixOfBmp(s: string, n: nat)
    requires forall k :: 0 <= k < |s| ==> s[k] as int < 0x1_0000
    ensures Utf16Prefix(s, n) == if |s| <= n then s else s[..n]
    decreases |s|
  {
    if s != [] && n != 0 {
      Utf16PrefixOfBmp(s[1..], n - 1);
      if |s| > n {
        assert [s[0]] + s[1..][..n - 1] == s[..n];
      }
    }
  }

  /** `xs.join(sep)`. */
  function Join(xs: seq<string>, sep: string): string {
    if xs == [] then "" else if |xs| == 1 then xs[0] else xs[0] + sep + Join(xs[1..], sep)
  }

  /** `s.split(c)` for one character `c`: always at least one part. */
  function Split(s: string, c: char): (r: seq<string>)
    ensures |r| >= 1
  {
    if s == [] then [""]
    else
      var rest := Split(s[1..], c);
      if s[0] == c then [""] + rest else [[s[0]] + rest[0]] + rest[1..]
  }

  lemma {:induction false} SplitWithout(s: string, c: char)
    requires c !in s
    ensures Split(s, c) == [s]
  {
    if s != [] {
      SplitWithout(s[1..], c);
      assert [s[0]] + s[1..] == s;
    }
  }

  /** Splitting `p + [c] + rest`, with `c` absent from `p`, cuts at that `c`. */
  lemma {:induction false} SplitAtFirst(p: string, c: char, rest: string)
    requires c !in p
    ensures Split(p + [c] + rest, c) == [p] + Split(rest, c)
  {
    if p == [] {
      assert p + [c] + rest == [c] + rest;
      assert ([c] + rest)[1..] == rest;
    } else {
      assert (p + [c] + rest)[1..] == p[1..] + [c] + rest;
      SplitAtFirst(p[1..], c, rest);
      assert [p[0]] + p[1..] == p;
    }
  }

  /** The parts of `p + Join(ys, [c] + t)` split on `c`, when neither `p`, `t` nor any `ys` holds `c`. */
  lemma {:induction false} SplitJoinGeneral(p: string, ys: seq<string>, c: char, t: string)
    requires |ys| >= 1
    requires c !in p && c !in t
    requires forall k :: 0 <= k < |ys| ==> c !in ys[k]
    ensures Split(p + Join(ys, [c] + t), c)
            == [p + ys[0]] + seq(|ys| - 1, k requires 0 <= k < |ys| - 1 => t + ys[k + 1])
    decreases |ys|
  {
    if |ys| == 1 {
      SplitWithout(p + ys[0], c);
    } else {
      var sep := [c] + t;
      assert p + Join(ys, sep) == (p + ys[0]) + [c] + (t + Join(ys[1..], sep));
      SplitAtFirst(p + ys[0], c, t + Join(ys[1..], sep));
      SplitJoinGeneral(t, ys[1..], c, t);
    }
  }

  /** Splitting a join on a one-character separator gives the parts back. */
  lemma {:induction false} SplitJoin(xs: seq<string>, c: char)
    requires |xs| >= 1
    requires forall k :: 0 <= k < |xs| ==> c !in xs[k]
    ensures Split(Join(xs, [c]), c) == xs
    decreases |xs|
  {
    if |xs| == 1 {
      SplitWithout(xs[0], c);
    } else {
      assert Join(xs, [c]) == xs[0] + [c] + Join(xs[1..], [c]);
      SplitAtFirst(xs[0], c, Join(xs[1..], [c]));
      SplitJoin(xs[1..], c);
      assert [xs[0]] + xs[1..] == xs;
    }
  }

  lemma {:induction false} JoinContainsPart(xs: seq<string>, sep: string, k: nat)
    requires k < |xs|
    ensures Contains(Join(xs, sep), xs[k])
  {
    if |xs| == 1 {
      ContainsItself(xs[0]);
    } else if k == 0 {
      ContainsInfix([], xs[0], sep + Join(xs[1..], sep));
      assert [] + xs[0] + (sep + Join(xs[1..], sep)) == Join(xs, sep);
    } else {
      JoinContainsPart(xs[1..], sep, k - 1);
      ContainsGrows(Join(xs[1..], sep), xs[k], xs[0] + sep, []);
      assert xs[0] + sep + Join(xs[1..], sep) + [] == Join(xs, sep);
    }
  }

  function DigitChar(d: nat): char
    requires d < 10
  {
    "0123456789"[d]
  }

  predicate IsDigit(c: char) { '0' <= c <= '9' }

  predicate AllDigits(s: string) {
    forall k :: 0 <= k < |s| ==> IsDigit(s[k])
  }

  /** `String(n)` for a non-negative integer: its decimal digits, without leading zeros. */
  function NatToString(n: nat): (r: string)
    ensures |r| >= 1 && AllDigits(r)
    ensures '.' !in r && '-' !in r
  {
    if n < 10 then [DigitChar(n)] else NatToString(n / 10) + [DigitChar(n % 10)]
  }

  /** `String(i)` for an integer. */
  function IntToString(i: int): (r: string)
    ensures |r| >= 1
  {
    if i < 0 then "-" + NatToString(-i) else NatToString(i)
  }

  /** The value of a string of decimal digits. */
  function DecimalValue(s: string): nat
    requires AllDigits(s)
  {
    if s == [] then 0 else DecimalValue(s[..|s| - 1]) * 10 + (s[|s| - 1] as int - '0' as int)
  }

  /** Reading back the decimal rendering of a number gives the number. */
  lemma {:induction false} DecimalRoundTrip(n: nat)
    ensures DecimalValue(NatToString(n)) == n
  {
    if n >= 10 {
      DecimalRoundTrip(n / 10);
      var s := NatToString(n);
      assert s[..|s| - 1] == NatToString(n / 10);
    }
  }

  /** A character in none of the parts and not in the separator is not in the join. */
  lemma {:induction false} JoinAvoids(xs: seq<string>, sep: string, c: char)
    requires c !in sep
    requires forall k :: 0 <= k < |xs| ==> c !in xs[k]
    ensures c !in Join(xs, sep)
    decreases |xs|
  {
    if |xs| > 1 {
      JoinAvoids(xs[1..], sep, c);
    }
  }

  /** Trimming the front of `s + t` when `t` starts with a visible character keeps all of `t`. */
  lemma {:induction false} TrimStartAppend(s: string, t: string)
    requires t == [] || !IsWhitespace(t[0])
    ensures TrimStart(s + t) == TrimStart(s) + t
    decreases |s|
  {
    if s != [] && IsWhitespace(s[0]) {
      assert (s + t)[1..] == s[1..] + t;
      TrimStartAppend(s[1..], t);
    } else if s == [] {
      assert s + t == t;
    }
  }

  lemma TrimStartIdempotent(s: string)
    ensures TrimStart(TrimStart(s)) == TrimStart(s)
  {
  }

  /** `c.toLowerCase()` for ASCII letters; other characters unchanged. */
  function LowerAscii(c: char): char {
    if 'A' <= c <= 'Z' then (c as int + 32) as char else c
  }

  /** Equality ignoring the case of ASCII letters, as a case-insensitive regular expression compares them. */
  predicate EqualsIgnoringAsciiCase(s: string, t: string) {
    |s| == |t| && forall k :: 0 <= k < |s| ==> LowerAscii(s[k]) == LowerAscii(t[k])
  }

  /** Two texts cut at a separator that neither head contains: equal texts have equal heads. */
  lemma SeparatedHeads(x: string, y: string, restX: string, restY: string, c: char)
    requires c !in x && c !in y
    requires x + [c] + restX == y + [c] + restY
    ensures x == y
  {
    var s := x + [c] + restX;
    assert s[|x|] == c;
    assert s[|y|] == c;
    assert |x| == |y|;
    assert x == s[..|x|];
  }

  /** Equal texts with a common head have equal tails. */
  lemma CommonHead(p: string, a: string, b: string)
    requires p + a == p + b
    ensures a == b
  {
    assert a == (p + a)[|p|..];
  }

  /** A text only contains what starts with one of its characters. */
  lemma ContainsStartChar(s: string, sub: string)
    requires |sub| > 0
    ensures Contains(s, sub) ==> sub[0] in s
  {
    if Contains(s, sub) {
      var i :| 0 <= i <= |s| && OccursAt(s, sub, i);
      assert s[i] == sub[0];
    }
  }

  /** Different numbers have different decimal renderings. */
  lemma NatToStringInjective(a: nat, b: nat)
    requires NatToString(a) == NatToString(b)
    ensures a == b
  {
    DecimalRoundTrip(a);
    DecimalRoundTrip(b);
  }
}
