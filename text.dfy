/**
 * The handful of Python string primitives the backend relies on, stated over
 * `string` (= `seq<char>`, one element per Unicode code point, as Python's
 * `str`): `str.split()`, `str.split(sep)`, `str.strip()`, `str.lower()`,
 * `sub in s`, slicing `s[:n]` / `s[n:]` and `s.endswith(t)`.
 */
module Text {

  datatype Option<+T> = None | Some(value: T)

  /** `c.isspace()`: the characters Python's argument-less `split()` and `strip()` treat as whitespace. */
  predicate IsSpace(c: char) {
    || ('\U{9}' <= c <= '\U{D}')
    || ('\U{1C}' <= c <= '\U{20}')
    || c == '\U{85}' || c == '\U{A0}' || c == '\U{1680}'
    || ('\U{2000}' <= c <= '\U{200A}')
    || c == '\U{2028}' || c == '\U{2029}' || c == '\U{202F}' || c == '\U{205F}' || c == '\U{3000}'
  }

  /** Lower-casing of one character (ASCII letters only, see README). */
  function LowerChar(c: char): (d: char)
    ensures 'A' <= c <= 'Z' ==> 'a' <= d <= 'z'
    ensures !('A' <= c <= 'Z') ==> d == c
  {
    if 'A' <= c <= 'Z' then (c as int + 32) as char else c
  }

  /** `s.lower()` */
  function Lower(s: string): (t: string)
    ensures |t| == |s|
    ensures forall i :: 0 <= i < |s| ==> t[i] == LowerChar(s[i])
  {
    seq(|s|, i requires 0 <= i < |s| => LowerChar(s[i]))
  }

  /** `s.startswith(prefix)` */
  predicate StartsWith(s: string, prefix: string) {
    |prefix| <= |s| && s[..|prefix|] == prefix
  }

  /** `s.endswith(suffix)` */
  predicate EndsWith(s: string, suffix: string) {
    |suffix| <= |s| && s[|s| - |suffix|..] == suffix
  }

  /** `sub in s` */
  predicate Contains(s: string, sub: string)
    decreases |s|
  {
    StartsWith(s, sub) || (|s| > 0 && Contains(s[1..], sub))
  }

  /** An occurrence of `sub` at position `i` of `s` makes `sub in s` true. */
  lemma {:induction false} ContainsAt(s: string, sub: string, i: nat)
    requires i + |sub| <= |s| && s[i..i + |sub|] == sub
    ensures Contains(s, sub)
    decreases i
  {
    if i > 0 {
      assert s[1..][i - 1..i - 1 + |sub|] == s[i..i + |sub|];
      ContainsAt(s[1..], sub, i - 1);
    }
  }

  lemma AppendAssoc(a: string, b: string, c: string)
    ensures a + b + c == a + (b + c)
  {
  }

  lemma StartsWithAppend(a: string, b: string)
    ensures StartsWith(a + b, a)
  {
    assert (a + b)[..|a|] == a;
  }

  /** `b in a + b + c` */
  lemma ContainsMiddle(a: string, b: string, c: string)
    ensures Contains(a + b + c, b)
  {
    assert (a + b + c)[|a|..|a| + |b|] == b;
    ContainsAt(a + b + c, b, |a|);
  }

  /** A character of `sub` that never occurs in `s` rules out `sub in s`. */
  lemma {:induction false} AbsentCharNotContained(s: string, sub: string, c: char)
    requires c in sub && c !in s
    ensures !Contains(s, sub)
    decreases |s|
  {
    if |s| > 0 {
      assert forall j :: 0 <= j < |s| - 1 ==> s[1..][j] == s[j + 1];
      AbsentCharNotContained(s[1..], sub, c);
    }
  }

  /** `s[:n]` for a non-negative `n` */
  function Take(s: string, n: nat): (t: string)
    ensures |t| == if n < |s| then n else |s|
    ensures StartsWith(s, t)
  {
    if n < |s| then s[..n] else s
  }

  /** `s[n:]` for a non-negative `n` */
  function Drop(s: string, n: nat): (t: string)
    ensures |t| == if n < |s| then |s| - n else 0
    ensures EndsWith(s, t)
  {
    if n < |s| then s[n..] else []
  }

  /** Length of the leading run of non-whitespace characters. */
  function WordLength(s: string): (n: nat)
    ensures n <= |s|
    ensures forall i :: 0 <= i < n ==> !IsSpace(s[i])
    ensures n < |s| ==> IsSpace(s[n])
  {
    if |s| == 0 || IsSpace(s[0]) then 0 else 1 + WordLength(s[1..])
  }

  /** `s.split()`: the maximal runs of non-whitespace characters, in order. */
  function Words(s: string): (ws: seq<string>)
    ensures forall w :: w in ws ==> |w| > 0 && forall i :: 0 <= i < |w| ==> !IsSpace(w[i])
    decreases |s|
  {
    if |s| == 0 then []
    else if IsSpace(s[0]) then Words(s[1..])
    else
      var n := WordLength(s);
      [s[..n]] + Words(s[n..])
  }

  /** A string made only of whitespace has no words. */
  lemma {:induction false} BlankHasNoWords(s: string)
    requires forall i :: 0 <= i < |s| ==> IsSpace(s[i])
    ensures Words(s) == []
    decreases |s|
  {
    if |s| > 0 {
      BlankHasNoWords(s[1..]);
    }
  }

  /** A non-blank string has at least one word. */
  lemma {:induction false} NonBlankHasWords(s: string, i: nat)
    requires i < |s| && !IsSpace(s[i])
    ensures |Words(s)| > 0
    decreases |s|
  {
    if IsSpace(s[0]) {
      NonBlankHasWords(s[1..], i - 1);
    }
  }

  /** A single run of non-whitespace is exactly one word. */
  lemma SingleWord(w: string)
    requires |w| > 0 && forall i :: 0 <= i < |w| ==> !IsSpace(w[i])
    ensures Words(w) == [w]
  {
    assert WordLength(w) == |w|;
    assert w[..|w|] == w && w[|w|..] == [];
    assert Words(w) == [w[..|w|]] + Words(w[|w|..]);
  }

  /** Number of occurrences of `c` in `s`. */
  function Count(s: string, c: char): nat {
    if |s| == 0 then 0 else (if s[0] == c then 1 else 0) + Count(s[1..], c)
  }

  /** Occurrences add up over a concatenation. */
  lemma {:induction false} CountAppend(a: string, b: string, c: char)
    ensures Count(a + b, c) == Count(a, c) + Count(b, c)
    decreases |a|
  {
    if |a| > 0 {
      CountAppend(a[1..], b, c);
      assert (a + b)[1..] == a[1..] + b;
    } else {
      assert a + b == b;
    }
  }

  /** `s.split(sep)` for a one-character separator. */
  function SplitOn(s: string, sep: char): (parts: seq<string>)
    ensures |parts| == Count(s, sep) + 1
    ensures forall p :: p in parts ==> sep !in p
    decreases |s|
  {
    if |s| == 0 then [[]]
    else
      var rest := SplitOn(s[1..], sep);
      if s[0] == sep then [[]] + rest
      else [[s[0]] + rest[0]] + rest[1..]
  }

  /** `sep not in s` is exactly when `s.split(sep)` has a single part. */
  lemma {:induction false} CountZeroIff(s: string, c: char)
    ensures Count(s, c) == 0 <==> c !in s
    decreases |s|
  {
    if |s| > 0 {
      CountZeroIff(s[1..], c);
      assert s == [s[0]] + s[1..];
    }
  }

  /** `s.lstrip()` */
  function TrimStart(s: string): (t: string)
    ensures EndsWith(s, t)
    ensures |t| > 0 ==> !IsSpace(t[0])
    ensures forall i :: 0 <= i < |s| - |t| ==> IsSpace(s[i])
    decreases |s|
  {
    if |s| > 0 && IsSpace(s[0]) then TrimStart(s[1..]) else s
  }

  /** `s.rstrip()` */
  function TrimEnd(s: string): (t: string)
    ensures StartsWith(s, t)
    ensures |t| > 0 ==> !IsSpace(t[|t| - 1])
    ensures forall i :: |t| <= i < |s| ==> IsSpace(s[i])
    decreases |s|
  {
    if |s| > 0 && IsSpace(s[|s| - 1]) then TrimEnd(s[..|s| - 1]) else s
  }

  /** `s.strip()` */
  function Strip(s: string): (t: string) {
    TrimEnd(TrimStart(s))
  }

  /** `s.strip()` is empty exactly when `s` is all whitespace. */
  lemma StripEmptyIff(s: string)
    ensures Strip(s) == [] <==> forall i :: 0 <= i < |s| ==> IsSpace(s[i])
  {
    var a := TrimStart(s);
    if Strip(s) == [] {
    } else {
      var t := Strip(s);
      assert a[0] == t[0];
      assert s[|s| - |a|] == a[0];
    }
  }
}
