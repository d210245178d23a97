/**
 The quoting layer that the prompt and work-order files share: scalars and flow arrays,
 each escaped by two replacements and unescaped by two more, quote first.
 */
module Escaping {
  import opened Wrappers
  import opened Strings

  const QUOTE := "\""
  const BACKSLASH := "\\"

  function Escape(v: string): string {
    ReplaceAll(ReplaceAll(v, BACKSLASH, "\\\\"), QUOTE, "\\\"")
  }

  /** First `\"` to `"`, then `\\` to `\`. */
  function Unescape(v: string): string {
    ReplaceAll(ReplaceAll(v, "\\\"", QUOTE), "\\\\", BACKSLASH)
  }

  predicate IsLetter(c: char) {
    'A' <= c <= 'Z' || 'a' <= c <= 'z'
  }

  /** `/^[A-Za-z][A-Za-z0-9_-]*$/` */
  predicate IsBareWord(v: string) {
    && v != ""
    && IsLetter(v[0])
    && forall i :: 0 <= i < |v| ==> IsLetter(v[i]) || IsDigit(v[i]) || v[i] == '_' || v[i] == '-'
  }

  function YamlScalar(v: string): string {
    if IsBareWord(v) then v else QUOTE + Escape(v) + QUOTE
  }

  /** `v.slice(1, -1)` */
  function Inside(v: string): string {
    if |v| < 2 then "" else v[1..|v| - 1]
  }

  function Unquote(v: string): string {
    if StartsWith(v, QUOTE) && EndsWith(v, QUOTE) then Unescape(Inside(v)) else v
  }

  // ---- the two passes, character by character ---------------------------------------------

  function EscapedChar(c: char): string {
    if c == '\\' then "\\\\" else if c == '"' then "\\\"" else [c]
  }

  /** `ReplaceAll` of a one-character pattern, one character at a time. */
  lemma ReplaceCons(c: char, v: string, pattern: char, replacement: string)
    ensures ReplaceAll([c] + v, [pattern], replacement)
         == (if c == pattern then replacement else [c]) + ReplaceAll(v, [pattern], replacement)
  {
    assert ([c] + v)[1..] == v;
    assert ([c] + v)[0] == c && [pattern][0] == pattern;
  }

  lemma EscapeCons(c: char, v: string)
    ensures Escape([c] + v) == EscapedChar(c) + Escape(v)
  {
    var rest := ReplaceAll(v, BACKSLASH, "\\\\");
    assert BACKSLASH == ['\\'] && QUOTE == ['"'];
    ReplaceCons(c, v, '\\', "\\\\");
    if c == '\\' {
      assert "\\\\" + rest == [c] + ([c] + rest);
      ReplaceCons(c, [c] + rest, '"', "\\\"");
      ReplaceCons(c, rest, '"', "\\\"");
      assert [c] + ([c] + Escape(v)) == "\\\\" + Escape(v);
    } else {
      ReplaceCons(c, rest, '"', "\\\"");
    }
  }

  /** The text between the two unescaping passes: quotes bare, backslashes still doubled. */
  function Doubled(v: string): string {
    ReplaceAll(v, BACKSLASH, "\\\\")
  }

  lemma DoubledCons(c: char, v: string)
    ensures Doubled([c] + v) == (if c == '\\' then "\\\\" else [c]) + Doubled(v)
  {
    assert BACKSLASH == ['\\'];
    ReplaceCons(c, v, '\\', "\\\\");
  }

  lemma EscapeNeverStartsWithQuote(v: string)
    ensures Escape(v) == "" || Escape(v)[0] != '"'
  {
    if v != "" {
      assert v == [v[0]] + v[1..];
      EscapeCons(v[0], v[1..]);
    }
  }

  /** Although `\"` is undone first, no backslash of an escaped text is taken for one that
      protects a quote: after the first pass only the doubling is left. */
  lemma {:induction false} FirstPass(v: string)
    ensures ReplaceAll(Escape(v), "\\\"", QUOTE) == Doubled(v)
  {
    if v != "" {
      var c, rest := v[0], v[1..];
      assert v == [c] + rest;
      EscapeCons(c, rest);
      DoubledCons(c, rest);
      FirstPass(rest);
      var e := Escape(rest);
      if c == '\\' {
        EscapeNeverStartsWithQuote(rest);
        assert ("\\\\" + e)[1..] == "\\" + e;
        assert ("\\" + e)[1..] == e;
        assert !("\\\"" <= "\\\\" + e) && !("\\\"" <= "\\" + e);
      } else if c == '"' {
        assert ("\\\"" + e)[2..] == e;
      } else {
        assert ([c] + e)[1..] == e;
      }
    }
  }

  lemma {:induction false} SecondPass(v: string)
    ensures ReplaceAll(Doubled(v), "\\\\", BACKSLASH) == v
  {
    if v != "" {
      var c, rest := v[0], v[1..];
      assert v == [c] + rest;
      DoubledCons(c, rest);
      SecondPass(rest);
      var d := Doubled(rest);
      if c == '\\' {
        assert ("\\\\" + d)[2..] == d;
      } else {
        assert ([c] + d)[1..] == d;
      }
    }
  }

  /** Escaping is undone by the two passes for every string. */
  lemma UnescapeEscape(v: string)
    ensures Unescape(Escape(v)) == v
  {
    FirstPass(v);
    SecondPass(v);
  }

  /** A scalar reads back as itself, whatever it holds. */
  lemma UnquoteScalar(v: string)
    ensures Unquote(YamlScalar(v)) == v
  {
    if IsBareWord(v) {
      assert v[0] != '"';
    } else {
      assert Inside(QUOTE + Escape(v) + QUOTE) == Escape(v);
      UnescapeEscape(v);
    }
  }

  lemma {:induction false} EscapeKeepsOut(v: string, c: char)
    requires c !in v && c != '\\' && c != '"'
    ensures c !in Escape(v)
  {
    if v != "" {
      assert v == [v[0]] + v[1..];
      EscapeCons(v[0], v[1..]);
      EscapeKeepsOut(v[1..], c);
    }
  }

  /** A scalar is never empty, needs no trimming, and adds no character but `"` and `\`. */
  lemma ScalarShape(v: string, c: char)
    requires c !in v && c != '\\' && c != '"'
    ensures YamlScalar(v) != "" && Trimmed(YamlScalar(v))
    ensures c !in YamlScalar(v)
  {
    EscapeKeepsOut(v, c);
  }

  // ---- flow arrays ------------------------------------------------------------------------

  function Quoted(v: string): string {
    QUOTE + Escape(v) + QUOTE
  }

  function QuotedAll(vs: seq<string>): seq<string> {
    if vs == [] then [] else [Quoted(vs[0])] + QuotedAll(vs[1..])
  }

  function YamlFlowArray(vs: seq<string>): string {
    "[" + Join(QuotedAll(vs), ", ") + "]"
  }

  /** The length of what `(?:\\.|[^"\\])*` takes from `s`, if a `"` follows it. */
  function BodyLength(s: string): (r: Option<nat>)
    ensures r.Some? ==> r.value < |s| && s[r.value] == '"'
  {
    if s == "" then None
    else if s[0] == '"' then Some(0)
    else
      var taken := if s[0] == '\\' then 2 else 1;
      if taken == 2 && (|s| < 2 || IsLineTerminator(s[1])) then None
      else
        match BodyLength(s[taken..])
        case None => None
        case Some(n) => Some(n + taken)
  }

  /** Every match of the quoted-string pattern in `s`, left to right, unescaped. */
  function Tokens(s: string): seq<string> {
    if s == "" then []
    else if s[0] == '"' && BodyLength(s[1..]).Some? then
      var n := BodyLength(s[1..]).value;
      [Unescape(s[1..n + 1])] + Tokens(s[n + 2..])
    else
      Tokens(s[1..])
  }

  function WithoutOpening(t: string): string {
    if StartsWith(t, "[") then t[1..] else t
  }

  function WithoutClosing(t: string): string {
    if EndsWith(t, "]") then t[..|t| - 1] else t
  }

  function WithoutBrackets(raw: string): string {
    Trim(WithoutClosing(WithoutOpening(Trim(raw))))
  }

  /** The loop over the pattern's matches; `rest` is what it has not searched yet. */
  method CollectTokens(inner: string) returns (out: seq<string>)
    ensures out == Tokens(inner)
  {
    out := [];
    var rest := inner;
    while rest != ""
      invariant Tokens(inner) == out + Tokens(rest)
      decreases |rest|
    {
      var body := BodyLength(rest[1..]);
      if rest[0] == '"' && body.Some? {
        out := out + [Unescape(rest[1..body.value + 1])];
        rest := rest[body.value + 2..];
      } else {
        rest := rest[1..];
      }
    }
  }

  method ParseYamlFlowArray(raw: string) returns (out: seq<string>)
    ensures out == Tokens(WithoutBrackets(raw))
  {
    var inner := WithoutBrackets(raw);
    if inner == "" {
      return [];
    }
    out := CollectTokens(inner);
  }

  lemma {:induction false} BodyOfEscaped(v: string, after: string)
    ensures BodyLength(Escape(v) + QUOTE + after) == Some(|Escape(v)|)
  {
    if v != "" {
      var c, rest := v[0], v[1..];
      assert v == [c] + rest;
      EscapeCons(c, rest);
      BodyOfEscaped(rest, after);
      var s := Escape(v) + QUOTE + after;
      assert s[|EscapedChar(c)|..] == Escape(rest) + QUOTE + after;
    }
  }

  lemma QuotedParts(body: string, after: string)
    ensures var s := QUOTE + body + QUOTE + after;
            && s[0] == '"' && s[1..] == body + QUOTE + after
            && s[1..|body| + 1] == body && s[|body| + 2..] == after
  {
  }

  lemma TokensOfQuoted(v: string, after: string)
    ensures Tokens(Quoted(v) + after) == [v] + Tokens(after)
  {
    BodyOfEscaped(v, after);
    QuotedParts(Escape(v), after);
    UnescapeEscape(v);
  }

  lemma SkipSeparator(more: string)
    ensures Tokens(", " + more) == Tokens(more)
  {
    assert (", " + more)[1..] == " " + more && (" " + more)[1..] == more;
  }

  lemma {:induction false} TokensOfJoin(vs: seq<string>)
    ensures Tokens(Join(QuotedAll(vs), ", ")) == vs
  {
    if |vs| == 1 {
      TokensOfQuoted(vs[0], "");
      assert Quoted(vs[0]) + "" == Quoted(vs[0]);
      assert QuotedAll(vs) == [Quoted(vs[0])];
    } else if |vs| > 1 {
      var q, more := QuotedAll(vs), Join(QuotedAll(vs[1..]), ", ");
      assert q[0] == Quoted(vs[0]) && q[1..] == QuotedAll(vs[1..]);
      assert Join(q, ", ") == Quoted(vs[0]) + (", " + more);
      TokensOfQuoted(vs[0], ", " + more);
      SkipSeparator(more);
      TokensOfJoin(vs[1..]);
    }
  }

  lemma {:induction false} JoinQuotedEnds(vs: seq<string>)
    requires vs != []
    ensures var j := Join(QuotedAll(vs), ", "); j != "" && j[0] == '"' && j[|j| - 1] == '"'
  {
    var q := QuotedAll(vs);
    assert q[0] == Quoted(vs[0]) && q[1..] == QuotedAll(vs[1..]);
    if |vs| > 1 {
      JoinQuotedEnds(vs[1..]);
    }
  }

  lemma BracketsOff(j: string)
    ensures WithoutClosing(WithoutOpening("[" + j + "]")) == j
  {
    assert ("[" + j + "]")[1..] == j + "]";
    assert (j + "]")[..|j|] == j;
  }

  lemma WithoutBracketsOf(j: string)
    requires Trimmed(j)
    ensures WithoutBrackets("[" + j + "]") == j
  {
    TrimTrimmed("[" + j + "]");
    BracketsOff(j);
    TrimTrimmed(j);
  }

  /** A flow array reads back as the same list: empty strings, quotes, backslashes, commas,
      brackets and line feeds included. */
  lemma FlowArrayRoundTrip(vs: seq<string>)
    ensures Tokens(WithoutBrackets(YamlFlowArray(vs))) == vs
  {
    if vs != [] {
      JoinQuotedEnds(vs);
    }
    WithoutBracketsOf(Join(QuotedAll(vs), ", "));
    TokensOfJoin(vs);
  }
}
