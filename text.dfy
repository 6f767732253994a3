/**
 * Text helpers shared by the session service, the agents and the schema
 * validators: Python's `str.strip`, the two whitespace-collapsing regular
 * expression substitutions of `_sanitize_text`, quote stripping, ASCII
 * lower-casing and substring search.
 */
module Text {

  /** Python's `str.isspace`: the characters `str.strip()` and the regex class `\s` match. */
  predicate IsSpace(c: char) {
    || c == ' ' || ('\t' <= c <= '\r') || ('\U{1C}' <= c <= '\U{1F}')
    || c == '\U{85}' || c == '\U{A0}' || c == '\U{1680}' || ('\U{2000}' <= c <= '\U{200A}')
    || c == '\U{2028}' || c == '\U{2029}' || c == '\U{202F}' || c == '\U{205F}' || c == '\U{3000}'
  }

  /** Number of leading whitespace characters of `s`. */
  function LeadSpaces(s: string): (n: nat)
    ensures n <= |s|
    ensures forall i :: 0 <= i < n ==> IsSpace(s[i])
    ensures n < |s| ==> !IsSpace(s[n])
  {
    if s == [] || !IsSpace(s[0]) then 0 else 1 + LeadSpaces(s[1..])
  }

  /** Python's `s.strip()`: drop leading, then trailing, whitespace. */
  function Strip(s: string): string
    decreases |s|
  {
    if s != [] && IsSpace(s[0]) then Strip(s[1..])
    else if s != [] && IsSpace(s[|s| - 1]) then Strip(s[..|s| - 1])
    else s
  }

  /** Python's `s.strip(c)` for a single character `c`. */
  function StripChar(s: string, c: char): string
    decreases |s|
  {
    if s != [] && s[0] == c then StripChar(s[1..], c)
    else if s != [] && s[|s| - 1] == c then StripChar(s[..|s| - 1], c)
    else s
  }

  /** `Strip(s)` is the slice `s[a..b]`, and everything cut off is whitespace. */
  lemma {:induction false} StripSlice(s: string) returns (a: nat, b: nat)
    ensures a <= b <= |s| && Strip(s) == s[a..b]
    ensures forall i :: 0 <= i < a ==> IsSpace(s[i])
    ensures forall i :: b <= i < |s| ==> IsSpace(s[i])
    decreases |s|
  {
    if s != [] && IsSpace(s[0]) {
      var a', b' := StripSlice(s[1..]);
      a, b := a' + 1, b' + 1;
      assert s[1..][a'..b'] == s[a..b];
      forall i | 0 < i < a ensures IsSpace(s[i]) { assert s[i] == s[1..][i - 1]; }
      forall i | b <= i < |s| ensures IsSpace(s[i]) { assert s[i] == s[1..][i - 1]; }
    } else if s != [] && IsSpace(s[|s| - 1]) {
      var p := s[..|s| - 1];
      a, b := StripSlice(p);
      assert p[a..b] == s[a..b];
      forall i | b <= i < |s| - 1 ensures IsSpace(s[i]) { assert s[i] == p[i]; }
    } else {
      a, b := 0, |s|;
    }
  }

  lemma {:induction false} StripEnds(s: string)
    ensures var r := Strip(s); r == [] || (!IsSpace(r[0]) && !IsSpace(r[|r| - 1]))
    decreases |s|
  {
    if s != [] && IsSpace(s[0]) {
      StripEnds(s[1..]);
    } else if s != [] && IsSpace(s[|s| - 1]) {
      StripEnds(s[..|s| - 1]);
    }
  }

  /** `Strip(s)` is a slice of `s` with no whitespace at either end, empty only when `s` is all whitespace. */
  lemma StripShape(s: string)
    ensures var r := Strip(s);
      && |r| <= |s|
      && (exists a, b :: 0 <= a <= b <= |s| && r == s[a..b])
      && (r == [] || (!IsSpace(r[0]) && !IsSpace(r[|r| - 1])))
      && (r == [] <==> forall i :: 0 <= i < |s| ==> IsSpace(s[i]))
      && (s == [] || (!IsSpace(s[0]) && !IsSpace(s[|s| - 1])) ==> r == s)
  {
    var a, b := StripSlice(s);
    StripEnds(s);
    if Strip(s) == [] {
      assert forall i :: 0 <= i < |s| ==> IsSpace(s[i]) by {
        forall i | 0 <= i < |s| ensures IsSpace(s[i]) {
          if i >= a { assert b <= i; }
        }
      }
    } else {
      assert Strip(s)[0] == s[a];
    }
  }

  /** A non-empty `StripChar(s, c)` neither starts nor ends with `c`. */
  lemma {:induction false} StripChars(s: string, c: char)
    requires StripChar(s, c) != []
    ensures var r := StripChar(s, c); |r| <= |s| && r[0] != c && r[|r| - 1] != c
    decreases |s|
  {
    if s != [] && s[0] == c {
      StripChars(s[1..], c);
    } else if s != [] && s[|s| - 1] == c {
      StripChars(s[..|s| - 1], c);
    }
  }

  lemma {:induction false} StripCharShorter(s: string, c: char)
    ensures |StripChar(s, c)| <= |s|
    ensures s == [] || (s[0] != c && s[|s| - 1] != c) ==> StripChar(s, c) == s
    decreases |s|
  {
    if s != [] && s[0] == c {
      StripCharShorter(s[1..], c);
    } else if s != [] && s[|s| - 1] == c {
      StripCharShorter(s[..|s| - 1], c);
    }
  }

  /** `content.strip().strip('"').strip("'")`, applied to every generated question. */
  function StripQuotes(s: string): string {
    StripChar(StripChar(Strip(s), '"'), '\'')
  }

  lemma StripQuotesShape(s: string)
    ensures |StripQuotes(s)| <= |s|
    ensures var r := StripQuotes(s); r == [] || (r[0] != '\'' && r[|r| - 1] != '\'')
    ensures (s == [] || (!IsSpace(s[0]) && !IsSpace(s[|s| - 1]) && s[0] !in "\"'" && s[|s| - 1] !in "\"'"))
              ==> StripQuotes(s) == s
  {
    StripShape(s);
    var t := Strip(s);
    StripCharShorter(t, '"');
    var u := StripChar(t, '"');
    StripCharShorter(u, '\'');
    if StripQuotes(s) != [] {
      StripChars(u, '\'');
    }
  }

  /** Length of the run of `c` that starts `s`. */
  function LeadRun(s: string, c: char): nat {
    if s != [] && s[0] == c then 1 + LeadRun(s[1..], c) else 0
  }

  /** No run of `c` in `s` is longer than `cap`. */
  predicate NoLongRun(s: string, c: char, cap: nat) {
    forall i :: 0 <= i < |s| ==> LeadRun(s[i..], c) <= cap
  }

  lemma NoLongRunCons(x: char, rest: string, c: char, cap: nat)
    ensures NoLongRun([x] + rest, c, cap) <==> LeadRun([x] + rest, c) <= cap && NoLongRun(rest, c, cap)
  {
    var s := [x] + rest;
    assert s[0..] == s;
    assert forall i :: 1 <= i < |s| ==> s[i..] == rest[i - 1..];
    if LeadRun(s, c) <= cap && NoLongRun(rest, c, cap) {
      forall i | 0 <= i < |s| ensures LeadRun(s[i..], c) <= cap {
        if i > 0 { assert s[i..] == rest[i - 1..]; }
      }
    }
    if NoLongRun(s, c, cap) {
      forall i | 0 <= i < |rest| ensures LeadRun(rest[i..], c) <= cap {
        assert s[i + 1..] == rest[i..];
      }
    }
  }

  /**
   * Replace every maximal run of `c` longer than `cap` by `cap` copies of `c`,
   * scanning left to right; `run` is the length of the run already emitted.
   * `re.sub(r"\n{3,}", "\n\n", s)` is `Squeeze(s, '\n', 2)` and
   * `re.sub(r" {2,}", " ", s)` is `Squeeze(s, ' ', 1)`.
   */
  function SqueezeFrom(s: string, c: char, cap: nat, run: nat): string
    decreases |s|
  {
    if s == [] then []
    else if s[0] == c then
      if run < cap then [c] + SqueezeFrom(s[1..], c, cap, run + 1) else SqueezeFrom(s[1..], c, cap, run)
    else [s[0]] + SqueezeFrom(s[1..], c, cap, 0)
  }

  function Squeeze(s: string, c: char, cap: nat): string {
    SqueezeFrom(s, c, cap, 0)
  }

  lemma {:induction false} SqueezeShorter(s: string, c: char, cap: nat, run: nat)
    ensures |SqueezeFrom(s, c, cap, run)| <= |s|
    decreases |s|
  {
    if s != [] {
      SqueezeShorter(s[1..], c, cap, if s[0] == c && run < cap then run + 1 else if s[0] == c then run else 0);
    }
  }

  lemma {:induction false} SqueezeBounded(s: string, c: char, cap: nat, run: nat)
    requires run <= cap
    ensures LeadRun(SqueezeFrom(s, c, cap, run), c) <= cap - run
    ensures NoLongRun(SqueezeFrom(s, c, cap, run), c, cap)
    decreases |s|
  {
    if s == [] {
    } else if s[0] == c {
      if run < cap {
        SqueezeBounded(s[1..], c, cap, run + 1);
        NoLongRunCons(c, SqueezeFrom(s[1..], c, cap, run + 1), c, cap);
      } else {
        SqueezeBounded(s[1..], c, cap, run);
      }
    } else {
      SqueezeBounded(s[1..], c, cap, 0);
      NoLongRunCons(s[0], SqueezeFrom(s[1..], c, cap, 0), c, cap);
    }
  }

  lemma {:induction false} SqueezeKeeps(s: string, c: char, cap: nat, run: nat)
    requires run <= cap && LeadRun(s, c) <= cap - run && NoLongRun(s, c, cap)
    ensures SqueezeFrom(s, c, cap, run) == s
    decreases |s|
  {
    if s != [] {
      assert s == [s[0]] + s[1..];
      NoLongRunCons(s[0], s[1..], c, cap);
      if s[0] == c {
        SqueezeKeeps(s[1..], c, cap, run + 1);
      } else {
        if s[1..] != [] { assert s[1..][0..] == s[1..]; }
        SqueezeKeeps(s[1..], c, cap, 0);
      }
    }
  }

  /** Squeezing one character does not change where runs of another character start. */
  lemma {:induction false} SqueezeLeadOther(s: string, c: char, d: char, cap: nat)
    requires c != d && cap >= 1
    ensures LeadRun(SqueezeFrom(s, d, cap, 0), c) == LeadRun(s, c)
    decreases |s|
  {
    if s != [] {
      SqueezeLeadOther(s[1..], c, d, cap);
    }
  }

  /** Squeezing runs of `d` never lengthens a run of another character `c`. */
  lemma {:induction false} SqueezeKeepsOtherRuns(s: string, c: char, d: char, cap: nat, k: nat, run: nat)
    requires c != d && cap >= 1 && NoLongRun(s, c, k)
    ensures NoLongRun(SqueezeFrom(s, d, cap, run), c, k)
    decreases |s|
  {
    if s != [] {
      assert s == [s[0]] + s[1..];
      NoLongRunCons(s[0], s[1..], c, k);
      if s[0] == d {
        var next := if run < cap then run + 1 else run;
        SqueezeKeepsOtherRuns(s[1..], c, d, cap, k, next);
        if run < cap { NoLongRunCons(d, SqueezeFrom(s[1..], d, cap, next), c, k); }
      } else {
        SqueezeKeepsOtherRuns(s[1..], c, d, cap, k, 0);
        SqueezeLeadOther(s[1..], c, d, cap);
        NoLongRunCons(s[0], SqueezeFrom(s[1..], d, cap, 0), c, k);
      }
    }
  }

  lemma {:induction false} SqueezeLast(s: string, c: char, cap: nat, run: nat)
    requires s != [] && s[|s| - 1] != c
    ensures var r := SqueezeFrom(s, c, cap, run); r != [] && r[|r| - 1] == s[|s| - 1]
    decreases |s|
  {
    if |s| > 1 {
      SqueezeLast(s[1..], c, cap, if s[0] == c && run < cap then run + 1 else if s[0] == c then run else 0);
    }
  }

  lemma SqueezeEnds(s: string, c: char, cap: nat, run: nat)
    requires s != [] && s[0] != c && s[|s| - 1] != c
    ensures var r := SqueezeFrom(s, c, cap, run); r != [] && r[0] == s[0] && r[|r| - 1] == s[|s| - 1]
  {
    SqueezeLast(s, c, cap, run);
  }

  /** `_sanitize_text` (and the `sanitize_text`/`sanitize_answer` schema validators). */
  function Sanitize(s: string): string {
    Squeeze(Squeeze(Strip(s), '\n', 2), ' ', 1)
  }

  lemma SanitizeShape(s: string)
    ensures var r := Sanitize(s);
      && |r| <= |s|
      && (r == [] || (!IsSpace(r[0]) && !IsSpace(r[|r| - 1])))
      && NoLongRun(r, '\n', 2)
      && NoLongRun(r, ' ', 1)
      && (r == [] <==> forall i :: 0 <= i < |s| ==> IsSpace(s[i]))
  {
    StripShape(s);
    var t := Strip(s);
    var u := Squeeze(t, '\n', 2);
    SqueezeShorter(t, '\n', 2, 0);
    SqueezeShorter(u, ' ', 1, 0);
    SqueezeBounded(t, '\n', 2, 0);
    SqueezeBounded(u, ' ', 1, 0);
    SqueezeKeepsOtherRuns(u, '\n', ' ', 1, 2, 0);
    if t != [] {
      SqueezeEnds(t, '\n', 2, 0);
      SqueezeEnds(u, ' ', 1, 0);
    }
  }

  lemma SanitizeIdempotent(s: string)
    ensures Sanitize(Sanitize(s)) == Sanitize(s)
  {
    var r := Sanitize(s);
    SanitizeShape(s);
    StripShape(r);
    if r != [] { assert r[0..] == r; }
    SqueezeKeeps(r, '\n', 2, 0);
    SqueezeKeeps(r, ' ', 1, 0);
  }

  function LowerChar(c: char): char {
    if 'A' <= c <= 'Z' then (c as int + 32) as char else c
  }

  /** `str.lower()`, restricted to ASCII letters. */
  function Lower(s: string): (r: string)
    ensures |r| == |s|
    ensures forall i :: 0 <= i < |s| ==> r[i] == LowerChar(s[i])
  {
    seq(|s|, i requires 0 <= i < |s| => LowerChar(s[i]))
  }

  predicate IsPrefix(p: string, s: string) {
    |p| <= |s| && s[..|p|] == p
  }

  /** Python's `sub in s`. */
  predicate Contains(s: string, sub: string)
    decreases |s|
  {
    IsPrefix(sub, s) || (s != [] && Contains(s[1..], sub))
  }

  lemma {:induction false} ContainsAt(s: string, sub: string, i: nat)
    requires i + |sub| <= |s| && s[i..i + |sub|] == sub
    ensures Contains(s, sub)
    decreases i
  {
    if i > 0 {
      assert s[1..][i - 1..i - 1 + |sub|] == s[i..i + |sub|];
      ContainsAt(s[1..], sub, i - 1);
    }
  }

  /** A text lacking some character of `sub` does not contain `sub`. */
  lemma {:induction false} NotContainsWithout(s: string, sub: string, k: nat)
    requires k < |sub| && forall i :: 0 <= i < |s| ==> s[i] != sub[k]
    ensures !Contains(s, sub)
    decreases |s|
  {
    if |sub| <= |s| {
      assert s[..|sub|][k] == s[k];
    }
    if s != [] {
      NotContainsWithout(s[1..], sub, k);
    }
  }

  /** `c` occurs nowhere in `s`, checked one character at a time. */
  predicate Lacks(s: string, c: char) {
    s == [] || (s[0] != c && Lacks(s[1..], c))
  }

  lemma {:induction false} LacksNowhere(s: string, c: char)
    requires Lacks(s, c)
    ensures forall i :: 0 <= i < |s| ==> s[i] != c
  {
    if s != [] {
      LacksNowhere(s[1..], c);
      assert forall i :: 1 <= i < |s| ==> s[i] == s[1..][i - 1];
    }
  }
}
