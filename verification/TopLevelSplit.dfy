/** Splitting a parameter list on its top-level commas. */
module TopLevelSplit {
  import opened Wrappers
  import opened Strings
  import opened BalancedText

  const ANY := Brackets({'(', '[', '{', '<'}, {')', ']', '}', '>'})

  function DepthAfter(depth: int, c: char, k: Brackets): int {
    if c in k.opens then depth + 1 else if c in k.closes then depth - 1 else depth
  }

  /** The pieces between the commas at depth 0, from index `i` on. */
  function Pieces(t: string, i: nat, depth: int, inString: Option<char>, current: string, k: Brackets): seq<string>
    decreases |t| - i
  {
    if i >= |t| then [current]
    else if inString.Some? then
      if t[i] == '\\' then
        Pieces(t, i + 2, depth, inString, current + [t[i]] + if i + 1 < |t| then [t[i + 1]] else "", k)
      else Pieces(t, i + 1, depth, if t[i] == inString.value then None else inString, current + [t[i]], k)
    else if IsQuote(t[i]) then Pieces(t, i + 1, depth, Some(t[i]), current + [t[i]], k)
    else
      var after := DepthAfter(depth, t[i], k);
      if t[i] == ',' && after == 0 then [current] + Pieces(t, i + 1, after, None, "", k)
      else Pieces(t, i + 1, after, None, current + [t[i]], k)
  }

  /** Trimmed, and without the blank ones. */
  function Cleaned(parts: seq<string>): seq<string> {
    if parts == [] then []
    else (if Trim(parts[0]) == "" then [] else [Trim(parts[0])]) + Cleaned(parts[1..])
  }

  function SplitParts(t: string): seq<string> {
    Cleaned(Pieces(t, 0, 0, None, "", ANY))
  }

  lemma {:induction false} CleanedConcat(a: seq<string>, b: seq<string>)
    ensures Cleaned(a + b) == Cleaned(a) + Cleaned(b)
  {
    if a == [] {
      assert a + b == b;
    } else {
      assert (a + b)[1..] == a[1..] + b;
      CleanedConcat(a[1..], b);
    }
  }

  lemma CleanedOne(s: string)
    ensures Cleaned([s]) == if IsBlank(s) then [] else [Trim(s)]
  {
    assert [s][1..] == [];
    BlankIff(s);
  }

  method SplitTopLevel(text: string) returns (result: seq<string>)
    ensures result == SplitParts(text)
  {
    ghost var answer := Pieces(text, 0, 0, None, "", ANY);
    var parts: seq<string>, depth, inString: Option<char>, current := [], 0, None, "";
    var i := 0;
    while i < |text|
      invariant 0 <= i && parts + Pieces(text, i, depth, inString, current, ANY) == answer
      decreases |text| - i
    {
      var ch := text[i];
      if inString.Some? {
        current := current + [ch];
        if ch == '\\' {
          i := i + 1;
          current := current + if i < |text| then [text[i]] else "";
        } else if ch == inString.value {
          inString := None;
        }
      } else if IsQuote(ch) {
        inString := Some(ch);
        current := current + [ch];
      } else {
        depth := DepthAfter(depth, ch, ANY);
        if ch == ',' && depth == 0 {
          parts := parts + [current];
          current := "";
        } else {
          current := current + [ch];
        }
      }
      i := i + 1;
    }
    CleanedConcat(parts, [current]);
    CleanedOne(current);
    if !IsBlank(current) {
      parts := parts + [current];
    }
    result := Cleaned(parts);
  }

  // ---- balanced pieces --------------------------------------------------------------------

  lemma {:induction false} PiecesOverBody(t: string, i: nat, body: seq<Symbol>, quote: char, depth: int, current: string, k: Brackets)
    requires StandsAt(t, i, ShowBody(body)) && IsQuote(quote)
    requires forall s :: s in body ==> FitsIn(s, quote)
    ensures Pieces(t, i, depth, Some(quote), current, k)
         == Pieces(t, i + |ShowBody(body)|, depth, Some(quote), current + ShowBody(body), k)
    decreases |body|
  {
    if body == [] {
      assert current + ShowBody(body) == current;
    } else {
      var symbol, rest := ShowSymbol(body[0]), ShowBody(body[1..]);
      StandsSplit(t, i, symbol, rest);
      assert body[0] in body && FitsIn(body[0], quote);
      SymbolStep(t, i, body[0], quote, depth, current, k);
      var next := current + symbol;
      PiecesOverBody(t, i + |symbol|, body[1..], quote, depth, next, k);
      Append(current, symbol, rest);
    }
  }

  lemma Append(a: string, b: string, c: string)
    ensures a + b + c == a + (b + c)
  {
  }

  lemma SymbolStep(t: string, i: nat, s: Symbol, quote: char, depth: int, current: string, k: Brackets)
    requires StandsAt(t, i, ShowSymbol(s)) && FitsIn(s, quote) && IsQuote(quote)
    ensures Pieces(t, i, depth, Some(quote), current, k)
         == Pieces(t, i + |ShowSymbol(s)|, depth, Some(quote), current + ShowSymbol(s), k)
  {
    assert t[i] == ShowSymbol(s)[0];
    if s.Escaped? {
      assert t[i + 1] == s.c;
      assert current + [t[i]] + [t[i + 1]] == current + ShowSymbol(s);
    }
  }

  lemma PiecesOverString(t: string, i: nat, body: seq<Symbol>, quote: char, depth: int, current: string, k: Brackets)
    requires i + 1 + |ShowBody(body)| < |t| && t[i] == quote && t[i + 1 + |ShowBody(body)|] == quote
    requires StandsAt(t, i + 1, ShowBody(body)) && IsQuote(quote)
    requires forall s :: s in body ==> FitsIn(s, quote)
    ensures Pieces(t, i, depth, None, current, k)
         == Pieces(t, i + 2 + |ShowBody(body)|, depth, None, current + ([quote] + ShowBody(body) + [quote]), k)
  {
    PiecesOverBody(t, i + 1, body, quote, depth, current + [quote], k);
    AppendThree(current, [quote], ShowBody(body), [quote]);
  }

  /** The brackets do not overlap, and neither quotes nor the comma are among them. */
  predicate SplitsAt(k: Brackets) {
    AreProper(k) && ',' !in k.opens && ',' !in k.closes
  }

  lemma BracketStep(t: string, i: nat, depth: nat, current: string, k: Brackets)
    requires i < |t| && SplitsAt(k)
    ensures t[i] in k.opens ==>
              Pieces(t, i, depth, None, current, k) == Pieces(t, i + 1, depth + 1, None, current + [t[i]], k)
    ensures t[i] in k.closes ==>
              Pieces(t, i, depth + 1, None, current, k) == Pieces(t, i + 1, depth, None, current + [t[i]], k)
  {
  }

  lemma PlainStep(t: string, i: nat, depth: nat, current: string, k: Brackets)
    requires i < |t| && !IsQuote(t[i]) && t[i] !in k.opens && t[i] !in k.closes
    requires depth > 0 || t[i] != ','
    ensures Pieces(t, i, depth, None, current, k) == Pieces(t, i + 1, depth, None, current + [t[i]], k)
  {
  }

  /** Balanced text without a top-level comma stays in one piece. */
  lemma {:induction false} PiecesOver(t: string, i: nat, b: Balanced, depth: nat, current: string, k: Brackets)
    requires StandsAt(t, i, Show(b)) && IsWellFormed(b, k) && SplitsAt(k)
    requires depth > 0 || HasNoTopComma(b)
    ensures Pieces(t, i, depth, None, current, k) == Pieces(t, i + |Show(b)|, depth, None, current + Show(b), k)
    decreases b, 1
  {
    if b.End? {
      assert current + Show(b) == current;
    } else {
      var head := HeadOf(b);
      ShowHead(b);
      StandsSplit(t, i, head, Show(b.rest));
      PiecesOverHead(t, i, b, depth, current, k);
      PiecesOver(t, i + |head|, b.rest, depth, current + head, k);
      Append(current, head, Show(b.rest));
    }
  }

  lemma {:induction false} PiecesOverHead(t: string, i: nat, b: Balanced, depth: nat, current: string, k: Brackets)
    requires !b.End? && StandsAt(t, i, HeadOf(b)) && IsWellFormed(b, k) && SplitsAt(k)
    requires depth > 0 || HasNoTopComma(b)
    ensures Pieces(t, i, depth, None, current, k)
         == Pieces(t, i + |HeadOf(b)|, depth, None, current + HeadOf(b), k)
    decreases b, 0
  {
    match b
    case Plain(c, rest) =>
      StandsOne(t, i, c);
      PlainStep(t, i, depth, current, k);
    case Quoted(quote, body, rest) =>
      StandsBetween(t, i, quote, ShowBody(body), quote);
      PiecesOverString(t, i, body, quote, depth, current, k);
    case Group(open, inner, close, rest) =>
      StandsBetween(t, i, open, Show(inner), close);
      PiecesOverGroup(t, i, open, inner, close, depth, current, k);
  }

  lemma AppendThree(a: string, b: string, c: string, d: string)
    ensures a + b + c + d == a + (b + c + d)
  {
  }

  lemma {:induction false} PiecesOverGroup(t: string, i: nat, open: char, inner: Balanced, close: char,
                                           depth: nat, current: string, k: Brackets)
    requires i + 1 + |Show(inner)| < |t| && t[i] == open && t[i + 1 + |Show(inner)|] == close
    requires open in k.opens && close in k.closes && SplitsAt(k)
    requires StandsAt(t, i + 1, Show(inner)) && IsWellFormed(inner, k)
    ensures Pieces(t, i, depth, None, current, k)
         == Pieces(t, i + 2 + |Show(inner)|, depth, None, current + ([open] + Show(inner) + [close]), k)
    decreases inner, 2
  {
    BracketStep(t, i, depth, current, k);
    var begun := current + [open];
    PiecesOver(t, i + 1, inner, depth + 1, begun, k);
    BracketStep(t, i + 1 + |Show(inner)|, depth, begun + Show(inner), k);
    AppendThree(current, [open], Show(inner), [close]);
  }

  predicate IsSegment(b: Balanced) {
    IsWellFormed(b, ANY) && HasNoTopComma(b)
  }

  function Shown(segments: seq<Balanced>): seq<string> {
    if segments == [] then [] else [Show(segments[0])] + Shown(segments[1..])
  }

  lemma {:induction false} PiecesOfSegments(t: string, i: nat, segments: seq<Balanced>)
    requires segments != [] && forall b :: b in segments ==> IsSegment(b)
    requires StandsAt(t, i, Join(Shown(segments), ",")) && i + |Join(Shown(segments), ",")| == |t|
    ensures Pieces(t, i, 0, None, "", ANY) == Shown(segments)
    decreases |segments|
  {
    var b, rest := segments[0], Shown(segments[1..]);
    assert b in segments && IsSegment(b);
    assert "" + Show(b) == Show(b);
    if |segments| == 1 {
      assert rest == [] && Join([Show(b)], ",") == Show(b);
      PiecesOver(t, i, b, 0, "", ANY);
    } else {
      assert rest != [] && ([Show(b)] + rest)[1..] == rest;
      StandsSplit(t, i, Show(b) + ",", Join(rest, ","));
      StandsSplit(t, i, Show(b), ",");
      StandsOne(t, i + |Show(b)|, ',');
      PiecesOver(t, i, b, 0, "", ANY);
      PiecesOfSegments(t, i + |Show(b)| + 1, segments[1..]);
    }
  }

  /** A list of balanced segments, joined by commas, splits into just these, trimmed. */
  lemma SplitSegments(segments: seq<Balanced>)
    requires segments != [] && forall b :: b in segments ==> IsSegment(b)
    ensures SplitParts(Join(Shown(segments), ",")) == Cleaned(Shown(segments))
  {
    var t := Join(Shown(segments), ",");
    assert t[0..|t|] == t;
    PiecesOfSegments(t, 0, segments);
  }

  // ---- a list as it is written ------------------------------------------------------------

  /** The parts after the first, each behind a space. */
  function Spaced(parts: seq<Balanced>): seq<Balanced> {
    if parts == [] then [] else [Plain(' ', parts[0])] + Spaced(parts[1..])
  }

  lemma {:induction false} JoinSpaced(first: string, parts: seq<Balanced>)
    ensures Join([first] + Shown(parts), ", ") == Join([first] + Shown(Spaced(parts)), ",")
    decreases |parts|
  {
    if parts == [] {
      assert [first] + Shown(parts) == [first] == [first] + Shown(Spaced(parts));
    } else {
      var p, more := parts[0], parts[1..];
      JoinSpaced(Show(p), more);
      JoinSpaced(" " + Show(p), more);
      assert ([first] + Shown(parts))[1..] == [Show(p)] + Shown(more);
      assert ([first] + Shown(Spaced(parts)))[1..] == [" " + Show(p)] + Shown(Spaced(more));
      JoinHead(" ", Show(p), Shown(more), ", ");
      assert first + ", " + Join([Show(p)] + Shown(more), ", ") ==
             first + "," + (" " + Join([Show(p)] + Shown(more), ", "));
    }
  }

  lemma JoinHead(a: string, b: string, rest: seq<string>, sep: string)
    ensures Join([a + b] + rest, sep) == a + Join([b] + rest, sep)
  {
    if rest == [] {
      assert [a + b] + rest == [a + b] && [b] + rest == [b];
    } else {
      assert ([a + b] + rest)[1..] == rest && ([b] + rest)[1..] == rest;
    }
  }

  lemma {:induction false} SpacedSegments(parts: seq<Balanced>)
    requires forall b :: b in parts ==> IsSegment(b)
    ensures forall b :: b in Spaced(parts) ==> IsSegment(b)
  {
    if parts != [] {
      SpacedSegments(parts[1..]);
      assert IsSegment(parts[0]);
    }
  }

  lemma TrimSpaced(s: string)
    requires Trimmed(s)
    ensures Trim(" " + s) == s
  {
    TrimPadded(" ", s, "");
    assert " " + s + "" == " " + s;
  }

  lemma {:induction false} CleanedSpaced(parts: seq<Balanced>)
    requires forall b :: b in parts ==> Trimmed(Show(b)) && Show(b) != ""
    ensures Cleaned(Shown(Spaced(parts))) == Shown(parts)
  {
    if parts != [] {
      assert parts[0] in parts;
      TrimSpaced(Show(parts[0]));
      assert Shown(Spaced(parts))[1..] == Shown(Spaced(parts[1..]));
      CleanedSpaced(parts[1..]);
    }
  }

  /**
   Splitting undoes joining with ", ", for trimmed parts that are not empty, are balanced and
   have no comma outside their brackets and strings.
   */
  lemma SplitJoined(parts: seq<Balanced>)
    requires forall b :: b in parts ==> IsSegment(b) && Trimmed(Show(b)) && Show(b) != ""
    ensures SplitParts(Join(Shown(parts), ", ")) == Shown(parts)
  {
    if parts != [] {
      var first, more := parts[0], parts[1..];
      var segments := [first] + Spaced(more);
      JoinSpaced(Show(first), more);
      SpacedSegments(more);
      assert segments[1..] == Spaced(more);
      SplitSegments(segments);
      CleanedSpaced(more);
      TrimTrimmed(Show(first));
      assert Shown(segments)[1..] == Shown(Spaced(more));
    } else {
      CleanedOne("");
    }
  }
}
