/**
  * The two text checks of the core's security helpers: recognising a
  * destructive shell command and redacting API-key-shaped substrings
  * before anything reaches the audit log.
  */
module Security {
  import opened Wrappers
  import opened Text

  /** The substrings that mark a command as destructive. */
  const DestructiveMarkers: seq<string> := ["rm -rf", "shutdown", "reboot", "mkfs", "dd if="]

  /** Some term of `terms` occurs in `s` (Python's `any(t in s for t in terms)`). */
  function AnyContained(s: string, terms: seq<string>): (r: bool)
    ensures r <==> exists k :: 0 <= k < |terms| && Contains(s, terms[k])
  {
    if terms == [] then false
    else Contains(s, terms[0]) || AnyContained(s, terms[1..])
  }

  /** True when the lower-cased text contains one of the destructive markers. */
  function IsDestructiveCommand(text: string): (r: bool)
    ensures r <==> exists k :: 0 <= k < |DestructiveMarkers| && Contains(Lower(text), DestructiveMarkers[k])
  {
    AnyContained(Lower(text), DestructiveMarkers)
  }

  /** The check ignores case: a text and its lower-cased form are judged alike. */
  lemma DestructiveIgnoresCase(text: string)
    ensures IsDestructiveCommand(text) == IsDestructiveCommand(Lower(text))
  {
    LowerIsLower(text);
  }

  /** Any text holding a marker is destructive, whatever surrounds it. */
  lemma {:induction false} DestructiveWhenMarkerInside(before: string, k: nat, after: string)
    requires k < |DestructiveMarkers|
    ensures IsDestructiveCommand(before + DestructiveMarkers[k] + after)
  {
    var m := DestructiveMarkers[k];
    var text := before + m + after;
    LowerConcat(before + m, after);
    LowerConcat(before, m);
    assert Lower(m) == m;
    assert OccursAt(Lower(text), m, |before|) by {
      assert Lower(text)[|before|..|before| + |m|] == m;
    }
  }

  /** ASCII letters and digits, the `[A-Za-z0-9]` character class. */
  predicate IsAsciiAlnum(c: char)
  {
    ('a' <= c <= 'z') || ('A' <= c <= 'Z') || ('0' <= c <= '9')
  }

  /**
    * A secret pattern `prefix[class]{minRun,}`: a literal prefix followed by
    * at least `minRun` characters of a class, `[A-Za-z0-9]` or, when
    * `dashUnderscore` holds, `[A-Za-z0-9_-]`.
    */
  datatype SecretPattern = SecretPattern(prefix: string, dashUnderscore: bool, minRun: nat)

  type Pattern = p: SecretPattern | p.prefix != [] witness SecretPattern("x", false, 0)

  predicate InClass(p: SecretPattern, c: char)
  {
    IsAsciiAlnum(c) || (p.dashUnderscore && (c == '_' || c == '-'))
  }

  /** The three patterns, in the order they are applied. */
  const SecretPatterns: seq<Pattern> := [
    SecretPattern("sk-", true, 10),
    SecretPattern("ghp_", false, 20),
    SecretPattern("AIza", true, 10)
  ]

  const Redacted: string := "[REDACTED]"

  /** The number of class characters at the start of `s`. */
  function RunLength(p: SecretPattern, s: string): (n: nat)
    ensures n <= |s|
    ensures forall i :: 0 <= i < n ==> InClass(p, s[i])
    ensures n < |s| ==> !InClass(p, s[n])
  {
    if s != [] && InClass(p, s[0]) then 1 + RunLength(p, s[1..]) else 0
  }

  /** The length of the (greedy) match of `p` at the very start of `s`, if there is one. */
  function MatchAt(p: Pattern, s: string): (m: Option<nat>)
    ensures m.Some? ==> |p.prefix| + p.minRun <= m.value <= |s| && StartsWith(s, p.prefix)
  {
    if StartsWith(s, p.prefix) && RunLength(p, s[|p.prefix|..]) >= p.minRun
    then Some(|p.prefix| + RunLength(p, s[|p.prefix|..]))
    else None
  }

  /** Python's `pattern.sub("[REDACTED]", s)`: leftmost matches, left to right, never overlapping. */
  function Substitute(p: Pattern, s: string): string
    decreases |s|
  {
    if s == [] then []
    else match MatchAt(p, s)
      case Some(n) => Redacted + Substitute(p, s[n..])
      case None => [s[0]] + Substitute(p, s[1..])
  }

  /** No match of `p` starts anywhere in `s`. */
  predicate FreeOf(p: Pattern, s: string)
  {
    forall i :: 0 <= i < |s| ==> MatchAt(p, s[i..]).None?
  }

  /**
    * `redact_secrets`: the three substitutions applied in fixed order. A
    * text too short to hold any secret (every match is at least 13
    * characters long) is never changed.
    */
  function RedactSecrets(text: string): (r: string)
    ensures |text| < 13 ==> r == text
  {
    ShortTextKept(text);
    Substitute(SecretPatterns[2], Substitute(SecretPatterns[1], Substitute(SecretPatterns[0], text)))
  }

  /** Where a pattern never matches, substitution changes nothing. */
  lemma {:induction false} SubstituteFreeUnchanged(p: Pattern, s: string)
    requires FreeOf(p, s)
    ensures Substitute(p, s) == s
    decreases |s|
  {
    if s != [] {
      assert MatchAt(p, s[0..]).None? && s[0..] == s;
      assert FreeOf(p, s[1..]) by {
        forall i | 0 <= i < |s[1..]| ensures MatchAt(p, s[1..][i..]).None? {
          assert s[1..][i..] == s[i + 1..];
        }
      }
      SubstituteFreeUnchanged(p, s[1..]);
    }
  }

  /** A text free of all three patterns passes redaction unchanged. */
  lemma RedactFreeUnchanged(text: string)
    requires forall k :: 0 <= k < 3 ==> FreeOf(SecretPatterns[k], text)
    ensures RedactSecrets(text) == text
  {
    SubstituteFreeUnchanged(SecretPatterns[0], text);
    SubstituteFreeUnchanged(SecretPatterns[1], text);
    SubstituteFreeUnchanged(SecretPatterns[2], text);
  }

  /** No pattern fits in a text shorter than 13 characters, so no substitution changes it. */
  lemma ShortTextKept(text: string)
    ensures |text| < 13 ==> forall k :: 0 <= k < 3 ==> Substitute(SecretPatterns[k], text) == text
  {
    if |text| < 13 {
      forall k | 0 <= k < 3 ensures Substitute(SecretPatterns[k], text) == text {
        var p := SecretPatterns[k];
        assert |p.prefix| + p.minRun >= 13;
        assert FreeOf(p, text);
        SubstituteFreeUnchanged(p, text);
      }
    }
  }

  /**
    * A key made of `sk-` and a run of at least ten class characters, ended by
    * the end of text or a character outside the class, is replaced whole by
    * one `[REDACTED]`.
    */
  lemma {:induction false} SkKeyReplacedWhole(key: string, rest: string)
    requires |key| >= 10 && forall i :: 0 <= i < |key| ==> InClass(SecretPatterns[0], key[i])
    requires rest == [] || !InClass(SecretPatterns[0], rest[0])
    ensures Substitute(SecretPatterns[0], "sk-" + key + rest) == Redacted + Substitute(SecretPatterns[0], rest)
  {
    var p := SecretPatterns[0];
    var s := "sk-" + key + rest;
    assert s[..3] == "sk-";
    assert s[3..] == key + rest;
    RunOfKey(p, key, rest);
    assert s[3 + |key|..] == rest;
  }

  lemma {:induction false} RunOfKey(p: SecretPattern, key: string, rest: string)
    requires forall i :: 0 <= i < |key| ==> InClass(p, key[i])
    requires rest == [] || !InClass(p, rest[0])
    ensures RunLength(p, key + rest) == |key|
    decreases |key|
  {
    if key != [] {
      assert (key + rest)[1..] == key[1..] + rest;
      RunOfKey(p, key[1..], rest);
    } else {
      assert key + rest == rest;
    }
  }

  /** Up to the first offset where a match starts, substitution copies the text. */
  lemma {:induction false} SubstituteKeepsUnmatched(p: Pattern, s: string, k: nat)
    requires k <= |s|
    requires forall j :: 0 <= j < k ==> MatchAt(p, s[j..]).None?
    ensures Substitute(p, s) == s[..k] + Substitute(p, s[k..])
  {
    if k > 0 {
      assert MatchAt(p, s[0..]).None? && s[0..] == s;
      forall j | 0 <= j < k - 1 ensures MatchAt(p, s[1..][j..]).None? {
        assert s[1..][j..] == s[j + 1..];
      }
      SubstituteKeepsUnmatched(p, s[1..], k - 1);
      assert s[1..][k - 1..] == s[k..];
      assert s[..k] == [s[0]] + s[1..][..k - 1];
    }
  }

  /** An `sk-` run shorter than ten class characters is not a secret: its `sk-` is kept. */
  lemma {:induction false} SkShortRunKept(key: string, rest: string)
    requires |key| < 10 && forall i :: 0 <= i < |key| ==> InClass(SecretPatterns[0], key[i])
    requires rest == [] || !InClass(SecretPatterns[0], rest[0])
    ensures MatchAt(SecretPatterns[0], "sk-" + key + rest).None?
    ensures Substitute(SecretPatterns[0], "sk-" + key + rest) == "sk-" + Substitute(SecretPatterns[0], key + rest)
  {
    var p := SecretPatterns[0];
    var s := "sk-" + key + rest;
    assert p.prefix == "sk-";
    assert s[3..] == key + rest;
    RunOfKey(p, key, rest);
    assert MatchAt(p, s[0..]).None? by { assert s[0..] == s; }
    assert s[1..][0] == 'k' && s[2..][0] == '-';
    SubstituteKeepsUnmatched(p, s, 3);
    assert s[..3] == "sk-";
  }

  /**
    * A match depends only on its window: the prefix followed by `minRun`
    * class characters. What follows the window does not matter.
    */
  lemma MatchWindow(p: Pattern, t: string)
    ensures MatchAt(p, t).Some? <==>
      |p.prefix| + p.minRun <= |t| && t[..|p.prefix|] == p.prefix
      && forall m :: |p.prefix| <= m < |p.prefix| + p.minRun ==> InClass(p, t[m])
  {
  }

  /** The first offset at which `p` matches, or the length of `s` when it matches nowhere. */
  lemma {:induction false} FirstMatchAt(p: Pattern, s: string) returns (k: nat)
    ensures k <= |s|
    ensures forall j :: 0 <= j < k ==> MatchAt(p, s[j..]).None?
    ensures k < |s| ==> MatchAt(p, s[k..]).Some?
    decreases |s|
  {
    if s == [] || MatchAt(p, s).Some? {
      k := 0;
      assert s[0..] == s;
    } else {
      var k' := FirstMatchAt(p, s[1..]);
      k := k' + 1;
      forall j | 0 <= j < k ensures MatchAt(p, s[j..]).None? {
        if j == 0 {
          assert s[0..] == s;
        } else {
          assert s[1..][j - 1..] == s[j..];
        }
      }
      assert s[1..][k'..] == s[k..];
    }
  }

  /** What is left of a text free of `p`, after any prefix, is free of `p`. */
  lemma FreeOfSuffix(p: Pattern, s: string, m: nat)
    requires m <= |s| && FreeOf(p, s)
    ensures FreeOf(p, s[m..])
  {
    forall j | 0 <= j < |s[m..]| ensures MatchAt(p, s[m..][j..]).None? {
      assert s[m..][j..] == s[m + j..];
    }
  }

  /** No match of a secret pattern starts inside `[REDACTED]`, whatever follows it. */
  lemma RedactedStartsNoMatch(k: nat, r: nat, rest: string)
    requires k < 3 && r < |Redacted|
    ensures MatchAt(SecretPatterns[k], Redacted[r..] + rest).None?
  {
    var p := SecretPatterns[k];
    var t := Redacted[r..] + rest;
    assert t[0] == Redacted[r];
    if r + 1 < |Redacted| {
      assert t[1] == Redacted[r + 1];
    }
    assert r == 0 || r == 1 || r == 2 || r == 3 || r == 4 || r == 5 || r == 6 || r == 7 || r == 8 || r == 9;
    assert t[0] != p.prefix[0] || t[1] != p.prefix[1];
    if |p.prefix| <= |t| {
      assert t[..|p.prefix|][0] == t[0] && t[..|p.prefix|][1] == t[1];
    }
    MatchWindow(p, t);
  }

  /**
    * A window starting in copied text and reaching a `[` is no match, so a
    * match there is a match of the original text.
    */
  lemma CopiedStartsNoMatch(p: Pattern, s: string, c: nat, j: nat, tail: string)
    requires j < c <= |s| && tail != [] && tail[0] == '[' && '[' !in p.prefix
    requires MatchAt(p, s[j..]).None?
    ensures MatchAt(p, (s[..c] + tail)[j..]).None?
  {
    var u := (s[..c] + tail)[j..];
    var w := |p.prefix| + p.minRun;
    assert u[c - j] == '[';
    MatchWindow(p, s[j..]);
    MatchWindow(p, u);
    if |u| < w {
    } else if c < j + w {
      if c - j < |p.prefix| {
        assert u[..|p.prefix|][c - j] == '[';
        assert u[..|p.prefix|] != p.prefix;
      } else {
        assert !InClass(p, u[c - j]);
      }
    } else {
      assert u[..|p.prefix|] == s[j..][..|p.prefix|];
      assert forall m :: |p.prefix| <= m < w ==> u[m] == s[j..][m];
    }
  }

  /**
    * Copying text in which `p` matches nowhere before offset `c`, then
    * `[REDACTED]`, then text free of `p`, gives text free of `p`.
    */
  lemma JoinFree(k: nat, s: string, c: nat, rest: string)
    requires k < 3 && c <= |s|
    requires forall j :: 0 <= j < c ==> MatchAt(SecretPatterns[k], s[j..]).None?
    requires FreeOf(SecretPatterns[k], rest)
    ensures FreeOf(SecretPatterns[k], s[..c] + (Redacted + rest))
  {
    var p := SecretPatterns[k];
    var out := s[..c] + (Redacted + rest);
    assert '[' !in p.prefix;
    forall j | 0 <= j < |out| ensures MatchAt(p, out[j..]).None? {
      if j < c {
        CopiedStartsNoMatch(p, s, c, j, Redacted + rest);
      } else if j < c + |Redacted| {
        assert out[j..] == Redacted[j - c..] + rest;
        RedactedStartsNoMatch(k, j - c, rest);
      } else {
        assert out[j..] == rest[j - c - |Redacted|..];
      }
    }
  }

  /** After a substitution no match of the substituted pattern is left. */
  lemma {:induction false} SubstituteLeavesNoMatch(k: nat, s: string)
    requires k < 3
    ensures FreeOf(SecretPatterns[k], Substitute(SecretPatterns[k], s))
    decreases |s|
  {
    var p := SecretPatterns[k];
    var c := FirstMatchAt(p, s);
    SubstituteKeepsUnmatched(p, s, c);
    if c == |s| {
      assert s[..c] == s && Substitute(p, s[c..]) == [];
      assert Substitute(p, s) == s;
    } else {
      var t := s[c..];
      var n := MatchAt(p, t).value;
      assert Substitute(p, t) == Redacted + Substitute(p, t[n..]);
      SubstituteLeavesNoMatch(k, t[n..]);
      JoinFree(k, s, c, Substitute(p, t[n..]));
      assert Substitute(p, s) == s[..c] + (Redacted + Substitute(p, t[n..]));
    }
  }

  /** A substitution of any pattern keeps a text free of a secret pattern it was free of. */
  lemma {:induction false} SubstituteKeepsFree(k: nat, q: Pattern, s: string)
    requires k < 3 && FreeOf(SecretPatterns[k], s)
    ensures FreeOf(SecretPatterns[k], Substitute(q, s))
    decreases |s|
  {
    var p := SecretPatterns[k];
    var c := FirstMatchAt(q, s);
    SubstituteKeepsUnmatched(q, s, c);
    if c == |s| {
      assert s[..c] == s && Substitute(q, s[c..]) == [];
      assert Substitute(q, s) == s;
    } else {
      var t := s[c..];
      var n := MatchAt(q, t).value;
      assert Substitute(q, t) == Redacted + Substitute(q, t[n..]);
      FreeOfSuffix(p, s, c + n);
      assert t[n..] == s[c + n..];
      SubstituteKeepsFree(k, q, t[n..]);
      JoinFree(k, s, c, Substitute(q, t[n..]));
      assert Substitute(q, s) == s[..c] + (Redacted + Substitute(q, t[n..]));
    }
  }

  /** Redacted text holds no `sk-`, `ghp_` or `AIza` secret. */
  lemma RedactedIsFree(text: string)
    ensures forall k :: 0 <= k < 3 ==> FreeOf(SecretPatterns[k], RedactSecrets(text))
  {
    var s1 := Substitute(SecretPatterns[0], text);
    var s2 := Substitute(SecretPatterns[1], s1);
    SubstituteLeavesNoMatch(0, text);
    SubstituteLeavesNoMatch(1, s1);
    SubstituteLeavesNoMatch(2, s2);
    SubstituteKeepsFree(0, SecretPatterns[1], s1);
    SubstituteKeepsFree(0, SecretPatterns[2], s2);
    SubstituteKeepsFree(1, SecretPatterns[2], s2);
  }
}
