/**
 The texts the bracket scanner is meant for: brackets nest, and a string in single or double
 quotes, with backslash escapes, hides whatever brackets and commas it holds.
 */
module BalancedText {

  /** Which characters open a group and which close one. */
  datatype Brackets = Brackets(opens: set<char>, closes: set<char>)

  /** One symbol of a string literal. */
  datatype Symbol = Raw(c: char) | Escaped(c: char)

  datatype Balanced =
    | End
    | Plain(c: char, rest: Balanced)
    | Quoted(quote: char, body: seq<Symbol>, rest: Balanced)
    | Group(open: char, inner: Balanced, close: char, rest: Balanced)

  predicate IsQuote(c: char) {
    c == '"' || c == '\''
  }

  predicate AreProper(k: Brackets) {
    k.opens !! k.closes && forall c :: c in k.opens + k.closes ==> !IsQuote(c)
  }

  predicate FitsIn(s: Symbol, quote: char) {
    s.Raw? ==> s.c != quote && s.c != '\\'
  }

  predicate IsWellFormed(b: Balanced, k: Brackets) {
    match b
    case End => true
    case Plain(c, rest) => !IsQuote(c) && c !in k.opens && c !in k.closes && IsWellFormed(rest, k)
    case Quoted(quote, body, rest) =>
      IsQuote(quote) && (forall s :: s in body ==> FitsIn(s, quote)) && IsWellFormed(rest, k)
    case Group(open, inner, close, rest) =>
      open in k.opens && close in k.closes && IsWellFormed(inner, k) && IsWellFormed(rest, k)
  }

  /** No comma outside the groups and the strings. */
  predicate HasNoTopComma(b: Balanced) {
    match b
    case End => true
    case Plain(c, rest) => c != ',' && HasNoTopComma(rest)
    case Quoted(_, _, rest) => HasNoTopComma(rest)
    case Group(_, _, _, rest) => HasNoTopComma(rest)
  }

  function ShowSymbol(s: Symbol): string {
    match s
    case Raw(c) => [c]
    case Escaped(c) => ['\\', c]
  }

  function ShowBody(body: seq<Symbol>): string {
    if body == [] then "" else ShowSymbol(body[0]) + ShowBody(body[1..])
  }

  function Show(b: Balanced): string {
    match b
    case End => ""
    case Plain(c, rest) => [c] + Show(rest)
    case Quoted(quote, body, rest) => [quote] + ShowBody(body) + [quote] + Show(rest)
    case Group(open, inner, close, rest) => [open] + Show(inner) + [close] + Show(rest)
  }

  /** `part` stands in `t` at index `i`. */
  predicate StandsAt(t: string, i: nat, part: string) {
    i + |part| <= |t| && t[i..i + |part|] == part
  }

  lemma StandsSplit(t: string, i: nat, a: string, b: string)
    ensures StandsAt(t, i, a + b) <==> StandsAt(t, i, a) && StandsAt(t, i + |a|, b)
  {
    if i + |a| + |b| <= |t| {
      var whole := t[i..i + |a + b|];
      assert whole[..|a|] == t[i..i + |a|] && whole[|a|..] == t[i + |a|..i + |a| + |b|];
      assert (a + b)[..|a|] == a && (a + b)[|a|..] == b;
      assert whole == whole[..|a|] + whole[|a|..];
    }
  }

  lemma StandsOne(t: string, i: nat, c: char)
    ensures StandsAt(t, i, [c]) <==> i < |t| && t[i] == c
  {
  }

  /** The first character, string or group. */
  function HeadOf(b: Balanced): string
    requires !b.End?
  {
    match b
    case Plain(c, _) => [c]
    case Quoted(quote, body, _) => [quote] + ShowBody(body) + [quote]
    case Group(open, inner, close, _) => [open] + Show(inner) + [close]
  }

  lemma ShowHead(b: Balanced)
    requires !b.End?
    ensures Show(b) == HeadOf(b) + Show(b.rest)
  {
  }

  lemma StandsBetween(t: string, i: nat, a: char, s: string, b: char)
    requires StandsAt(t, i, [a] + s + [b])
    ensures i + 1 + |s| < |t| && t[i] == a && t[i + 1 + |s|] == b && StandsAt(t, i + 1, s)
  {
    StandsSplit(t, i, [a] + s, [b]);
    StandsSplit(t, i, [a], s);
    StandsOne(t, i, a);
    StandsOne(t, i + 1 + |s|, b);
  }
}
