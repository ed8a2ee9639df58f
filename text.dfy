/**
  * The parts of Python's `str` that the modelled code relies on: `strip`,
  * `lower`, `startswith`, `in`, `find`, `split`, decimal rendering of
  * integers and the code-point order of `<=`.
  */
module Text {

  /** Python's `str.isspace()`: the characters `strip()` removes when given no argument. */
  predicate IsSpace(c: char)
  {
    c == ' ' || ('\t' <= c <= '\r') || ('\U{1C}' <= c <= '\U{1F}') || c == '\U{85}' || c == '\U{A0}'
    || c == '\U{1680}' || ('\U{2000}' <= c <= '\U{200A}') || c == '\U{2028}' || c == '\U{2029}'
    || c == '\U{202F}' || c == '\U{205F}' || c == '\U{3000}'
  }

  /** The characters a strip removes: whitespace, or the characters of an explicit argument. */
  datatype Strippable = Spaces | Chars(cs: set<char>)

  predicate Strips(k: Strippable, c: char)
  {
    match k
    case Spaces => IsSpace(c)
    case Chars(cs) => c in cs
  }

  /** `s` with every leading character of `k` removed. */
  function TrimStart(s: string, k: Strippable): (r: string)
    ensures |r| <= |s|
  {
    if s != [] && Strips(k, s[0]) then TrimStart(s[1..], k) else s
  }

  /** `s` with every trailing character of `k` removed. */
  function TrimEnd(s: string, k: Strippable): (r: string)
    ensures |r| <= |s|
  {
    if s != [] && Strips(k, s[|s| - 1]) then TrimEnd(s[..|s| - 1], k) else s
  }

  /** Trimming the start keeps a suffix, removes only stripped characters, and stops at a kept one. */
  lemma {:induction false} TrimStartFacts(s: string, k: Strippable)
    ensures var r := TrimStart(s, k); r == s[|s| - |r|..]
    ensures var r := TrimStart(s, k); r == [] || !Strips(k, r[0])
    ensures var r := TrimStart(s, k); forall i :: 0 <= i < |s| - |r| ==> Strips(k, s[i])
    decreases |s|
  {
    if s != [] && Strips(k, s[0]) {
      TrimStartFacts(s[1..], k);
      var r := TrimStart(s, k);
      forall i | 0 <= i < |s| - |r| ensures Strips(k, s[i]) {
        if i > 0 {
          assert s[i] == s[1..][i - 1];
        }
      }
    }
  }

  /** Trimming the end keeps a prefix, removes only stripped characters, and stops at a kept one. */
  lemma {:induction false} TrimEndFacts(s: string, k: Strippable)
    ensures var r := TrimEnd(s, k); r == s[..|r|]
    ensures var r := TrimEnd(s, k); r == [] || !Strips(k, r[|r| - 1])
    ensures var r := TrimEnd(s, k); forall i :: |r| <= i < |s| ==> Strips(k, s[i])
    decreases |s|
  {
    if s != [] && Strips(k, s[|s| - 1]) {
      TrimEndFacts(s[..|s| - 1], k);
      var r := TrimEnd(s, k);
      forall i | |r| <= i < |s| ensures Strips(k, s[i]) {
        if i < |s| - 1 {
          assert s[i] == s[..|s| - 1][i];
        }
      }
    }
  }

  /** Python's `s.strip(chars)` (`k` is `Chars(chars)`) and `s.strip()` (`k` is `Spaces`). */
  function StripChars(s: string, k: Strippable): string
  {
    TrimEnd(TrimStart(s, k), k)
  }

  /** Python's `s.strip()`. */
  function Strip(s: string): string
  {
    StripChars(s, Spaces)
  }

  /** Stripping leaves nothing exactly when every character is one of those stripped. */
  lemma StripEmptyIff(s: string, k: Strippable)
    ensures StripChars(s, k) == [] <==> forall i :: 0 <= i < |s| ==> Strips(k, s[i])
  {
    var t := TrimStart(s, k);
    TrimStartFacts(s, k);
    TrimEndFacts(t, k);
    if t != [] {
      assert !Strips(k, t[0]) && t[0] == s[|s| - |t|];
      assert Strips(k, t[0]) || TrimEnd(t, k) != [];
    }
  }

  /** A stripped string neither starts nor ends with a stripped character. */
  lemma StripEnds(s: string, k: Strippable)
    ensures var r := StripChars(s, k); r == [] || (!Strips(k, r[0]) && !Strips(k, r[|r| - 1]))
  {
    var t := TrimStart(s, k);
    var r := TrimEnd(t, k);
    TrimStartFacts(s, k);
    TrimEndFacts(t, k);
    if r != [] {
      assert r[0] == t[0];
    }
  }

  /** Stripping changes nothing when the text neither starts nor ends with whitespace. */
  lemma StripUnspaced(s: string)
    requires s != [] && !IsSpace(s[0]) && !IsSpace(s[|s| - 1])
    ensures Strip(s) == s
  {
  }

  /** Leading stripped characters are all removed, up to a kept one. */
  lemma {:induction false} TrimStartPadding(pad: string, u: string, k: Strippable)
    requires forall i :: 0 <= i < |pad| ==> Strips(k, pad[i])
    requires u == [] || !Strips(k, u[0])
    ensures TrimStart(pad + u, k) == u
    decreases |pad|
  {
    if pad == [] {
      assert pad + u == u;
    } else {
      assert (pad + u)[1..] == pad[1..] + u;
      TrimStartPadding(pad[1..], u, k);
    }
  }

  /** Trailing stripped characters are all removed, back to a kept one. */
  lemma {:induction false} TrimEndPadding(u: string, pad: string, k: Strippable)
    requires forall i :: 0 <= i < |pad| ==> Strips(k, pad[i])
    requires u == [] || !Strips(k, u[|u| - 1])
    ensures TrimEnd(u + pad, k) == u
    decreases |pad|
  {
    if pad == [] {
      assert u + pad == u;
    } else {
      assert (u + pad)[..|u + pad| - 1] == u + pad[..|pad| - 1];
      TrimEndPadding(u, pad[..|pad| - 1], k);
    }
  }

  /** Stripping text padded on both sides by stripped characters gives the text back. */
  lemma StripPadded(before: string, s: string, after: string, k: Strippable)
    requires forall i :: 0 <= i < |before| ==> Strips(k, before[i])
    requires forall i :: 0 <= i < |after| ==> Strips(k, after[i])
    requires s != [] && !Strips(k, s[0]) && !Strips(k, s[|s| - 1])
    ensures StripChars(before + s + after, k) == s
  {
    assert before + s + after == before + (s + after);
    TrimStartPadding(before, s + after, k);
    TrimEndPadding(s, after, k);
  }

  /** Python's `str.lower()` on one character; only ASCII letters are mapped. */
  function LowerChar(c: char): char
  {
    if 'A' <= c <= 'Z' then (c as int - 'A' as int + 'a' as int) as char else c
  }

  /** Python's `s.lower()`, character by character. */
  function Lower(s: string): (r: string)
    ensures |r| == |s|
    ensures forall i :: 0 <= i < |s| ==> r[i] == LowerChar(s[i])
  {
    seq(|s|, i requires 0 <= i < |s| => LowerChar(s[i]))
  }

  /** A string is lower case when lowering does not change it. */
  predicate IsLower(s: string)
  {
    forall i :: 0 <= i < |s| ==> LowerChar(s[i]) == s[i]
  }

  lemma LowerIsLower(s: string)
    ensures IsLower(Lower(s)) && Lower(Lower(s)) == Lower(s)
  {
  }

  lemma LowerOfLower(s: string)
    requires IsLower(s)
    ensures Lower(s) == s
  {
  }

  lemma LowerSlice(s: string, i: int, j: int)
    requires 0 <= i <= j <= |s|
    ensures Lower(s[i..j]) == Lower(s)[i..j]
  {
  }

  lemma LowerConcat(a: string, b: string)
    ensures Lower(a + b) == Lower(a) + Lower(b)
  {
  }

  /** Python's `s.startswith(p)`. */
  predicate StartsWith(s: string, p: string)
  {
    |p| <= |s| && s[..|p|] == p
  }

  /** `t` occurs in `s` at offset `i`. */
  predicate OccursAt(s: string, t: string, i: int)
  {
    0 <= i && i + |t| <= |s| && s[i..i + |t|] == t
  }

  /** Python's `t in s`. */
  predicate Contains(s: string, t: string)
  {
    exists i :: 0 <= i <= |s| && OccursAt(s, t, i)
  }

  /** Python's `s.find(t)`: the first offset at which `t` occurs, or -1. */
  function Find(s: string, t: string): (r: int)
    ensures -1 <= r <= |s|
    ensures r == -1 <==> !Contains(s, t)
    ensures r >= 0 ==> OccursAt(s, t, r) && forall j :: 0 <= j < r ==> !OccursAt(s, t, j)
  {
    FindFrom(s, t, 0)
  }

  function FindFrom(s: string, t: string, k: nat): (r: int)
    requires k <= |s|
    ensures r == -1 || k <= r <= |s|
    ensures r == -1 ==> forall j :: k <= j ==> !OccursAt(s, t, j)
    ensures r >= 0 ==> OccursAt(s, t, r) && forall j :: k <= j < r ==> !OccursAt(s, t, j)
    decreases |s| - k
  {
    if k + |t| > |s| then -1
    else if s[k..k + |t|] == t then k
    else FindFrom(s, t, k + 1)
  }

  /** The first offset of character `c` in `s`, or `|s|` when there is none. */
  function IndexOfChar(s: string, c: char): (r: nat)
    ensures r <= |s|
    ensures r < |s| ==> s[r] == c
    ensures forall j :: 0 <= j < r ==> s[j] != c
  {
    if s == [] || s[0] == c then 0 else 1 + IndexOfChar(s[1..], c)
  }

  /** Python's `s.split(sep)` for a one-character separator. */
  function SplitOn(s: string, sep: char): (r: seq<string>)
    ensures |r| >= 1
    decreases |s|
  {
    var i := IndexOfChar(s, sep);
    if i == |s| then [s] else [s[..i]] + SplitOn(s[i + 1..], sep)
  }

  /** Python's `sep.join(parts)`. */
  function Join(parts: seq<string>, sep: string): string
  {
    if parts == [] then []
    else if |parts| == 1 then parts[0]
    else parts[0] + sep + Join(parts[1..], sep)
  }

  /** No part of a split holds the separator. */
  lemma {:induction false} SplitOnParts(s: string, sep: char)
    ensures forall p :: p in SplitOn(s, sep) ==> sep !in p
    decreases |s|
  {
    var i := IndexOfChar(s, sep);
    if i < |s| {
      SplitOnParts(s[i + 1..], sep);
      assert forall j :: 0 <= j < |s[..i]| ==> s[..i][j] != sep;
    } else {
      assert forall j :: 0 <= j < |s| ==> s[j] != sep;
    }
  }

  /** Splitting and joining again with the same separator gives the text back. */
  lemma {:induction false} SplitJoin(s: string, sep: char)
    ensures Join(SplitOn(s, sep), [sep]) == s
    decreases |s|
  {
    var i := IndexOfChar(s, sep);
    if i < |s| {
      var rest := SplitOn(s[i + 1..], sep);
      SplitJoin(s[i + 1..], sep);
      assert SplitOn(s, sep) == [s[..i]] + rest;
      assert s == s[..i] + [sep] + s[i + 1..];
    }
  }

  const Digits: string := "0123456789"

  /** Python's `str(n)` for a natural number. */
  function NatToString(n: nat): (r: string)
    ensures |r| >= 1
    ensures forall i :: 0 <= i < |r| ==> r[i] in Digits
    decreases n
  {
    if n < 10 then [Digits[n]] else NatToString(n / 10) + [Digits[n % 10]]
  }

  /** The value of a digit character. */
  function DigitValue(c: char): (d: nat)
    requires c in Digits
    ensures d < 10 && Digits[d] == c
  {
    if c == '0' then 0 else if c == '1' then 1 else if c == '2' then 2
    else if c == '3' then 3 else if c == '4' then 4 else if c == '5' then 5
    else if c == '6' then 6 else if c == '7' then 7 else if c == '8' then 8 else 9
  }

  /** The number a non-empty run of decimal digits denotes. */
  function DigitsValue(s: string): nat
    requires forall i :: 0 <= i < |s| ==> s[i] in Digits
    decreases |s|
  {
    if s == [] then 0 else 10 * DigitsValue(s[..|s| - 1]) + DigitValue(s[|s| - 1])
  }

  /** Rendering a number and reading it back gives the number. */
  lemma {:induction false} NatToStringRoundTrip(n: nat)
    ensures DigitsValue(NatToString(n)) == n
    decreases n
  {
    var s := NatToString(n);
    if n >= 10 {
      NatToStringRoundTrip(n / 10);
      assert s[..|s| - 1] == NatToString(n / 10);
      assert DigitValue(s[|s| - 1]) == n % 10;
    } else {
      assert DigitValue(s[0]) == n;
    }
  }

  /** Two different numbers never render alike. */
  lemma NatToStringInjective(m: nat, n: nat)
    requires NatToString(m) == NatToString(n)
    ensures m == n
  {
    NatToStringRoundTrip(m);
    NatToStringRoundTrip(n);
  }

  /** Python's `a <= b` on strings: code-point order, a prefix before its extensions. */
  predicate LexLe(a: string, b: string)
    decreases |a|
  {
    a == [] || (b != [] && (a[0] < b[0] || (a[0] == b[0] && LexLe(a[1..], b[1..]))))
  }

  lemma {:induction false} LexLeTotal(a: string, b: string)
    ensures LexLe(a, b) || LexLe(b, a)
    decreases |a|
  {
    if a != [] && b != [] && a[0] == b[0] {
      LexLeTotal(a[1..], b[1..]);
    }
  }

  lemma {:induction false} LexLeAntisymmetric(a: string, b: string)
    requires LexLe(a, b) && LexLe(b, a)
    ensures a == b
    decreases |a|
  {
    if a != [] {
      LexLeAntisymmetric(a[1..], b[1..]);
      assert a == [a[0]] + a[1..] && b == [b[0]] + b[1..];
    }
  }

  lemma {:induction false} LexLeTransitive(a: string, b: string, c: string)
    requires LexLe(a, b) && LexLe(b, c)
    ensures LexLe(a, c)
    decreases |a|
  {
    if a != [] && a[0] == b[0] && b[0] == c[0] {
      LexLeTransitive(a[1..], b[1..], c[1..]);
    }
  }

  lemma {:induction false} LexLeReflexive(a: string)
    ensures LexLe(a, a)
    decreases |a|
  {
    if a != [] {
      LexLeReflexive(a[1..]);
    }
  }

  /** A sequence whose neighbours are in order is in order throughout. */
  lemma {:induction false} ChainAscending(l: seq<string>)
    requires forall k :: 0 <= k < |l| - 1 ==> LexLe(l[k], l[k + 1])
    ensures forall i, j :: 0 <= i <= j < |l| ==> LexLe(l[i], l[j])
    decreases |l|
  {
    if |l| > 1 {
      ChainAscending(l[1..]);
      forall i, j | 0 <= i <= j < |l| ensures LexLe(l[i], l[j]) {
        if i == j {
          LexLeReflexive(l[i]);
        } else if i == 0 {
          assert LexLe(l[1..][0], l[1..][j - 1]);
          LexLeTransitive(l[0], l[1], l[j]);
        } else {
          assert LexLe(l[1..][i - 1], l[1..][j - 1]);
        }
      }
    } else if |l| == 1 {
      LexLeReflexive(l[0]);
    }
  }
}
