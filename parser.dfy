/**
 * The response parser (`normalize_unicode`, `extract_json`): typographic
 * punctuation is mapped to ASCII, then the whole text, the first fenced code
 * block and the widest brace window are offered, in that order, to the JSON
 * decoder. The decoder itself (`json.loads`) is a parameter `parse`: any
 * partial function from text to a value.
 */
module Parser {
  import opened Wrappers
  import Text

  /** The replacement table of `normalize_unicode`, in its iteration order. */
  const REPLACEMENTS: seq<(char, char)> := [
    ('\U{2011}', '-'), ('\U{2010}', '-'), ('\U{2012}', '-'), ('\U{2013}', '-'), ('\U{2014}', '-'),
    ('\U{201C}', '"'), ('\U{201D}', '"'), ('\U{2018}', '\''), ('\U{2019}', '\''), ('\U{A0}', ' ')]

  predicate InSources(t: seq<(char, char)>, c: char) {
    exists j :: 0 <= j < |t| && t[j].0 == c
  }

  /** The replacement the first matching entry of `t` gives `c`, or `c` itself. */
  function LookupIn(t: seq<(char, char)>, c: char): char {
    if t == [] then c else if t[0].0 == c then t[0].1 else LookupIn(t[1..], c)
  }

  predicate AsciiTargets(t: seq<(char, char)>) {
    forall j :: 0 <= j < |t| ==> t[j].1 as int < 128 <= t[j].0 as int
  }

  lemma TableIsAscii()
    ensures AsciiTargets(REPLACEMENTS)
  {
  }

  lemma {:induction false} LookupCases(t: seq<(char, char)>, c: char)
    requires AsciiTargets(t)
    ensures !InSources(t, c) ==> LookupIn(t, c) == c
    ensures InSources(t, c) ==> LookupIn(t, c) as int < 128
    ensures InSources(t, c) ==> exists j :: 0 <= j < |t| && t[j].0 == c && LookupIn(t, c) == t[j].1
  {
    if t != [] {
      LookupCases(t[1..], c);
      if t[0].0 != c && InSources(t[1..], c) {
        var j :| 0 <= j < |t[1..]| && t[1..][j].0 == c && LookupIn(t[1..], c) == t[1..][j].1;
        assert t[j + 1].0 == c && LookupIn(t, c) == t[j + 1].1;
      }
      if t[0].0 != c {
        assert InSources(t, c) ==> InSources(t[1..], c) by {
          if InSources(t, c) {
            var j :| 0 <= j < |t| && t[j].0 == c;
            assert t[1..][j - 1].0 == c;
          }
        }
        assert InSources(t[1..], c) ==> InSources(t, c) by {
          if InSources(t[1..], c) {
            var j :| 0 <= j < |t[1..]| && t[1..][j].0 == c;
            assert t[j + 1].0 == c;
          }
        }
      }
    }
  }

  lemma {:induction false} LookupSnoc(t: seq<(char, char)>, e: (char, char), c: char)
    ensures LookupIn(t + [e], c) == if InSources(t, c) then LookupIn(t, c) else if e.0 == c then e.1 else c
  {
    if t == [] {
      assert [e][1..] == [];
    } else {
      assert (t + [e])[1..] == t[1..] + [e];
      LookupSnoc(t[1..], e, c);
      if t[0].0 != c {
        assert InSources(t, c) <==> InSources(t[1..], c) by {
          if InSources(t, c) {
            var j :| 0 <= j < |t| && t[j].0 == c;
            assert t[1..][j - 1].0 == c;
          }
          if InSources(t[1..], c) {
            var j :| 0 <= j < |t[1..]| && t[1..][j].0 == c;
            assert t[j + 1].0 == c;
          }
        }
      }
    }
  }

  /** The character `normalize_unicode` puts in place of `c`. */
  function NormalizeChar(c: char): char {
    LookupIn(REPLACEMENTS, c)
  }

  /** The text `normalize_unicode` returns, one character at a time. */
  function Normalized(s: string): (r: string)
    ensures |r| == |s|
    ensures forall i :: 0 <= i < |s| ==> r[i] == NormalizeChar(s[i])
  {
    seq(|s|, i requires 0 <= i < |s| => NormalizeChar(s[i]))
  }

  /** `text.replace(old, new)` for single characters. */
  function ReplaceChar(s: string, from: char, to: char): (r: string)
    ensures |r| == |s|
    ensures forall i :: 0 <= i < |s| ==> r[i] == if s[i] == from then to else s[i]
  {
    seq(|s|, i requires 0 <= i < |s| => if s[i] == from then to else s[i])
  }

  /** `normalize_unicode`: one `replace` per table entry, in table order. */
  method NormalizeUnicode(text: string) returns (r: string)
    ensures r == Normalized(text)
  {
    TableIsAscii();
    r := text;
    var i := 0;
    while i < |REPLACEMENTS|
      invariant 0 <= i <= |REPLACEMENTS|
      invariant |r| == |text|
      invariant forall k :: 0 <= k < |r| ==> r[k] == LookupIn(REPLACEMENTS[..i], text[k])
    {
      var (from, to) := REPLACEMENTS[i];
      forall k | 0 <= k < |r|
        ensures (if r[k] == from then to else r[k]) == LookupIn(REPLACEMENTS[..i + 1], text[k])
      {
        assert REPLACEMENTS[..i + 1] == REPLACEMENTS[..i] + [REPLACEMENTS[i]];
        LookupSnoc(REPLACEMENTS[..i], REPLACEMENTS[i], text[k]);
        LookupCases(REPLACEMENTS[..i], text[k]);
      }
      r := ReplaceChar(r, from, to);
      i := i + 1;
    }
    assert REPLACEMENTS[..i] == REPLACEMENTS;
  }

  predicate DistinctSources(t: seq<(char, char)>) {
    forall a, b :: 0 <= a < b < |t| ==> t[a].0 != t[b].0
  }

  lemma TableIsDistinct()
    ensures DistinctSources(REPLACEMENTS)
  {
  }

  lemma {:induction false} LookupAt(t: seq<(char, char)>, j: nat)
    requires DistinctSources(t) && j < |t|
    ensures LookupIn(t, t[j].0) == t[j].1
  {
    if j > 0 {
      assert t[1..][j - 1] == t[j];
      LookupAt(t[1..], j - 1);
    }
  }

  /** Each of the ten characters becomes its ASCII stand-in; every other character is kept. */
  lemma NormalizeCharTable(c: char)
    ensures forall j :: 0 <= j < |REPLACEMENTS| ==> NormalizeChar(REPLACEMENTS[j].0) == REPLACEMENTS[j].1
    ensures !InSources(REPLACEMENTS, c) ==> NormalizeChar(c) == c
  {
    TableIsAscii();
    LookupCases(REPLACEMENTS, c);
    TableIsDistinct();
    forall j | 0 <= j < |REPLACEMENTS| ensures NormalizeChar(REPLACEMENTS[j].0) == REPLACEMENTS[j].1 {
      LookupAt(REPLACEMENTS, j);
    }
  }

  /** None of the ten characters survives, and normalising twice is normalising once. */
  lemma NormalizedIdempotent(s: string)
    ensures forall i, j :: 0 <= i < |s| && 0 <= j < |REPLACEMENTS| ==> Normalized(s)[i] != REPLACEMENTS[j].0
    ensures Normalized(Normalized(s)) == Normalized(s)
  {
    TableIsAscii();
    forall i | 0 <= i < |s|
      ensures !InSources(REPLACEMENTS, Normalized(s)[i])
      ensures NormalizeChar(Normalized(s)[i]) == Normalized(s)[i]
    {
      LookupCases(REPLACEMENTS, s[i]);
      LookupCases(REPLACEMENTS, Normalized(s)[i]);
    }
  }

  // ---------------------------------------------------------------- candidate substrings

  predicate OccursAt(s: string, sub: string, i: nat) {
    i + |sub| <= |s| && s[i..i + |sub|] == sub
  }

  /** The first index at or after `from` where `sub` occurs in `s`. */
  function FindFrom(s: string, sub: string, from: nat): (r: Option<nat>)
    ensures r.Some? ==> from <= r.value && OccursAt(s, sub, r.value)
    ensures r.Some? ==> forall i :: from <= i < r.value ==> !OccursAt(s, sub, i)
    ensures r.None? ==> forall i :: from <= i ==> !OccursAt(s, sub, i)
    decreases |s| - from
  {
    if from + |sub| > |s| then None
    else if OccursAt(s, sub, from) then Some(from)
    else FindFrom(s, sub, from + 1)
  }

  /** `u` is whitespace followed by a closing fence: what `\n?\s*```` accepts. */
  predicate ClosesFence(u: string) {
    Text.IsPrefix("```", u[Text.LeadSpaces(u)..])
  }

  /** The least `e >= from` at which a closing fence begins. */
  function FenceEnd(t: string, from: nat): (e: Option<nat>)
    requires from <= |t|
    ensures e.Some? ==> from <= e.value <= |t| && ClosesFence(t[e.value..])
    ensures e.Some? ==> forall k :: from <= k < e.value ==> !ClosesFence(t[k..])
    ensures e.None? ==> forall k :: from <= k <= |t| ==> !ClosesFence(t[k..])
    decreases |t| - from
  {
    if ClosesFence(t[from..]) then Some(from)
    else if from == |t| then None
    else FenceEnd(t, from + 1)
  }

  /**
   * Group 1 of the first match of r"```(?:json)?\s*\n?(.*?)\n?\s*```" (DOTALL):
   * after the first fence and an optional `json` tag, skip whitespace and take
   * the shortest text that is followed by whitespace and a closing fence.
   */
  function FencedBody(t: string): (r: Option<string>)
  {
    match FindFrom(t, "```", 0)
    case None => None
    case Some(p) => BodyFrom(t, PayloadStart(t, p))
  }

  /** Where the payload of the fence opening at `p` starts: after the tag and the whitespace. */
  function PayloadStart(t: string, p: nat): (s: nat)
    requires p + 3 <= |t|
    ensures p + 3 <= s <= |t|
  {
    var s0 := if Text.IsPrefix("json", t[p + 3..]) then p + 7 else p + 3;
    s0 + Text.LeadSpaces(t[s0..])
  }

  /** The payload from `s` up to the first closing fence, if there is one. */
  function BodyFrom(t: string, s: nat): Option<string>
    requires s <= |t|
  {
    match FenceEnd(t, s)
    case None => None
    case Some(e) => Some(t[s..e])
  }

  function FirstIndex(s: string, c: char): (r: Option<nat>)
    ensures r.Some? ==> r.value < |s| && s[r.value] == c && forall i :: 0 <= i < r.value ==> s[i] != c
    ensures r.None? ==> forall i :: 0 <= i < |s| ==> s[i] != c
  {
    if s == [] then None
    else if s[0] == c then Some(0)
    else match FirstIndex(s[1..], c)
      case None => None
      case Some(i) => Some(i + 1)
  }

  function LastIndex(s: string, c: char): (r: Option<nat>)
    ensures r.Some? ==> r.value < |s| && s[r.value] == c && forall i :: r.value < i < |s| ==> s[i] != c
    ensures r.None? ==> forall i :: 0 <= i < |s| ==> s[i] != c
  {
    if s == [] then None
    else if s[|s| - 1] == c then Some(|s| - 1)
    else LastIndex(s[..|s| - 1], c)
  }

  /** The match of r"\{.*\}" (DOTALL): from the first `{` to the last `}`, when that `}` comes later. */
  function BraceWindow(t: string): (r: Option<string>)
    ensures r.Some? ==> |r.value| >= 2 && r.value[0] == '{' && r.value[|r.value| - 1] == '}'
    ensures r.Some? <==> FirstIndex(t, '{').Some? && LastIndex(t, '}').Some?
                         && FirstIndex(t, '{').value < LastIndex(t, '}').value
    ensures r.Some? ==> r.value == t[FirstIndex(t, '{').value..LastIndex(t, '}').value + 1]
  {
    match (FirstIndex(t, '{'), LastIndex(t, '}'))
    case (Some(a), Some(b)) => if a < b then Some(t[a..b + 1]) else None
    case _ => None
  }

  const EXTRACT_FAILURE_PREFIX: string := "Could not extract valid JSON from LLM response: "

  /** `text[:200]` */
  function Excerpt(t: string): (r: string)
    ensures |r| <= 200 && Text.IsPrefix(r, t)
    ensures |t| <= 200 ==> r == t
  {
    if |t| <= 200 then t else t[..200]
  }

  /** Whether `parse` accepts the optional candidate. */
  function TryParse<J>(candidate: Option<string>, parse: string -> Option<J>): Option<J> {
    match candidate
    case None => None
    case Some(c) => parse(c)
  }

  /** `extract_json`: the first candidate `parse` accepts wins; otherwise a `ValueError` message. */
  function ExtractJson<J>(text: string, parse: string -> Option<J>): (r: Result<J, string>)
    ensures var t := Normalized(text);
      && (parse(t).Some? ==> r == Ok(parse(t).value))
      && (parse(t).None? && TryParse(FencedBody(t), parse).Some? ==> r == Ok(TryParse(FencedBody(t), parse).value))
      && (parse(t).None? && TryParse(FencedBody(t), parse).None? ==> r == match TryParse(BraceWindow(t), parse)
            case Some(v) => Ok(v)
            case None => Err(EXTRACT_FAILURE_PREFIX + Excerpt(t)))
  {
    var t := Normalized(text);
    match parse(t)
    case Some(v) => Ok(v)
    case None =>
      match TryParse(FencedBody(t), parse)
      case Some(v) => Ok(v)
      case None =>
        match TryParse(BraceWindow(t), parse)
        case Some(v) => Ok(v)
        case None => Err(EXTRACT_FAILURE_PREFIX + Excerpt(t))
  }

  /** Text made only of ASCII characters is left as it is by normalisation. */
  lemma NormalizedKeepsAscii(s: string)
    requires forall i :: 0 <= i < |s| ==> s[i] as int < 128
    ensures Normalized(s) == s
  {
    TableIsAscii();
    forall i | 0 <= i < |s| ensures NormalizeChar(s[i]) == s[i] {
      LookupCases(REPLACEMENTS, s[i]);
    }
  }

  /** With no `{` in the reply and neither the whole text nor a fence decoding, extraction fails. */
  lemma NoBraceFails<J>(text: string, parse: string -> Option<J>)
    requires forall i :: 0 <= i < |text| ==> text[i] != '{'
    requires parse(Normalized(text)) == None && TryParse(FencedBody(Normalized(text)), parse) == None
    ensures ExtractJson(text, parse) == Err(EXTRACT_FAILURE_PREFIX + Excerpt(Normalized(text)))
  {
    TableIsAscii();
    assert forall j :: 0 <= j < |REPLACEMENTS| ==> REPLACEMENTS[j].1 != '{';
    var t := Normalized(text);
    forall i | 0 <= i < |t| ensures t[i] != '{' {
      LookupCases(REPLACEMENTS, text[i]);
    }
    assert FirstIndex(t, '{').None?;
    assert TryParse(BraceWindow(t), parse) == None;
  }
}
