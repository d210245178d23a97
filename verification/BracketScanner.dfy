/** The bracket scanner of the C# fallback tier, against the grammar of balanced text. */
module BracketScanner {
  import opened Wrappers
  import opened BalancedText

  // ---- the matching bracket ---------------------------------------------------------------

  /** From index `i`, at this depth and inside this string: where the depth gets back to 0. */
  function Scan(t: string, i: nat, depth: int, inString: Option<char>, k: Brackets): Option<nat>
    decreases |t| - i
  {
    if i >= |t| then None
    else if inString.Some? then
      if t[i] == '\\' then Scan(t, i + 2, depth, inString, k)
      else Scan(t, i + 1, depth, if t[i] == inString.value then None else inString, k)
    else if IsQuote(t[i]) then Scan(t, i + 1, depth, Some(t[i]), k)
    else if t[i] in k.opens then Scan(t, i + 1, depth + 1, None, k)
    else if t[i] in k.closes then if depth == 1 then Some(i) else Scan(t, i + 1, depth - 1, None, k)
    else Scan(t, i + 1, depth, None, k)
  }

  function Between(open: char, close: char): Brackets {
    Brackets({open}, {close})
  }

  method FindMatchingBracket(text: string, openIndex: nat, openChar: char, closeChar: char) returns (r: int)
    ensures r == match Scan(text, openIndex, 0, None, Between(openChar, closeChar)) case None => -1 case Some(i) => i
  {
    ghost var k := Between(openChar, closeChar);
    ghost var answer := Scan(text, openIndex, 0, None, k);
    var depth := 0;
    var inString: Option<char> := None;
    var i := openIndex;
    while i < |text|
      invariant Scan(text, i, depth, inString, k) == answer
      decreases |text| - i
    {
      var ch := text[i];
      if inString.Some? {
        if ch == '\\' {
          i := i + 1;
        } else if ch == inString.value {
          inString := None;
        }
      } else if IsQuote(ch) {
        inString := Some(ch);
      } else if ch == openChar {
        depth := depth + 1;
      } else if ch == closeChar {
        depth := depth - 1;
        if depth == 0 {
          return i;
        }
      }
      i := i + 1;
    }
    return -1;
  }

  // ---- a balanced group is found ----------------------------------------------------------

  lemma {:induction false} ScanOverBody(t: string, i: nat, body: seq<Symbol>, quote: char, depth: int, k: Brackets)
    requires StandsAt(t, i, ShowBody(body)) && IsQuote(quote)
    requires forall s :: s in body ==> FitsIn(s, quote)
    ensures Scan(t, i, depth, Some(quote), k) == Scan(t, i + |ShowBody(body)|, depth, Some(quote), k)
    decreases |body|
  {
    if body != [] {
      StandsSplit(t, i, ShowSymbol(body[0]), ShowBody(body[1..]));
      assert body[0] in body && FitsIn(body[0], quote);
      assert t[i] == ShowSymbol(body[0])[0];
      ScanOverBody(t, i + |ShowSymbol(body[0])|, body[1..], quote, depth, k);
    }
  }

  lemma ScanOverString(t: string, i: nat, body: seq<Symbol>, quote: char, depth: int, k: Brackets)
    requires i + 1 + |ShowBody(body)| < |t| && t[i] == quote && t[i + 1 + |ShowBody(body)|] == quote
    requires StandsAt(t, i + 1, ShowBody(body)) && IsQuote(quote)
    requires forall s :: s in body ==> FitsIn(s, quote)
    ensures Scan(t, i, depth, None, k) == Scan(t, i + 2 + |ShowBody(body)|, depth, None, k)
  {
    ScanOverBody(t, i + 1, body, quote, depth, k);
  }

  lemma ScanPlain(t: string, i: nat, depth: int, k: Brackets)
    requires i < |t| && !IsQuote(t[i]) && t[i] !in k.opens && t[i] !in k.closes
    ensures Scan(t, i, depth, None, k) == Scan(t, i + 1, depth, None, k)
  {
  }

  lemma ScanBracket(t: string, i: nat, depth: int, k: Brackets)
    requires i < |t| && AreProper(k) && depth > 0
    ensures t[i] in k.opens ==> Scan(t, i, depth, None, k) == Scan(t, i + 1, depth + 1, None, k)
    ensures t[i] in k.closes ==> Scan(t, i, depth + 1, None, k) == Scan(t, i + 1, depth, None, k)
  {
  }

  /** Inside a group, scanning passes over any balanced text. */
  lemma {:induction false} ScanOver(t: string, i: nat, b: Balanced, depth: int, k: Brackets)
    requires StandsAt(t, i, Show(b)) && IsWellFormed(b, k) && AreProper(k) && depth > 0
    ensures Scan(t, i, depth, None, k) == Scan(t, i + |Show(b)|, depth, None, k)
    decreases b, 1
  {
    if !b.End? {
      ShowHead(b);
      StandsSplit(t, i, HeadOf(b), Show(b.rest));
      ScanOverHead(t, i, b, depth, k);
      ScanOver(t, i + |HeadOf(b)|, b.rest, depth, k);
    }
  }

  lemma {:induction false} ScanOverHead(t: string, i: nat, b: Balanced, depth: int, k: Brackets)
    requires !b.End? && StandsAt(t, i, HeadOf(b)) && IsWellFormed(b, k) && AreProper(k) && depth > 0
    ensures Scan(t, i, depth, None, k) == Scan(t, i + |HeadOf(b)|, depth, None, k)
    decreases b, 0
  {
    match b
    case Plain(c, rest) =>
      StandsOne(t, i, c);
      ScanPlain(t, i, depth, k);
    case Quoted(quote, body, rest) =>
      StandsBetween(t, i, quote, ShowBody(body), quote);
      ScanOverString(t, i, body, quote, depth, k);
    case Group(open, inner, close, rest) =>
      StandsBetween(t, i, open, Show(inner), close);
      ScanOverGroup(t, i, open, inner, close, depth, k);
  }

  lemma {:induction false} ScanOverGroup(t: string, i: nat, open: char, inner: Balanced, close: char, depth: int, k: Brackets)
    requires i + 1 + |Show(inner)| < |t| && t[i] == open && t[i + 1 + |Show(inner)|] == close
    requires open in k.opens && close in k.closes && AreProper(k) && depth > 0
    requires StandsAt(t, i + 1, Show(inner)) && IsWellFormed(inner, k)
    ensures Scan(t, i, depth, None, k) == Scan(t, i + 2 + |Show(inner)|, depth, None, k)
    decreases inner, 2
  {
    ScanBracket(t, i, depth, k);
    ScanOver(t, i + 1, inner, depth + 1, k);
    ScanBracket(t, i + 1 + |Show(inner)|, depth, k);
  }

  /** A group standing at `i` ends at `r`. */
  ghost predicate GroupAt(t: string, i: nat, inner: Balanced, open: char, close: char, r: nat) {
    && IsWellFormed(inner, Between(open, close))
    && StandsAt(t, i, Show(Group(open, inner, close, End)))
    && r == i + 1 + |Show(inner)|
  }

  lemma GroupIsFound(t: string, i: nat, inner: Balanced, open: char, close: char, r: nat)
    requires AreProper(Between(open, close)) && GroupAt(t, i, inner, open, close, r)
    ensures Scan(t, i, 0, None, Between(open, close)) == Some(r)
  {
    var k := Between(open, close);
    ShowHead(Group(open, inner, close, End));
    assert Show(Group(open, inner, close, End)) == [open] + Show(inner) + [close];
    StandsBetween(t, i, open, Show(inner), close);
    assert open in k.opens && close in k.closes;
    ScanOver(t, i + 1, inner, 1, k);
    assert close !in k.opens;
  }

  // ---- what is found is a balanced group --------------------------------------------------

  lemma {:induction false} StringEnds(t: string, i: nat, depth: int, quote: char, k: Brackets, r: nat)
    returns (body: seq<Symbol>)
    requires Scan(t, i, depth, Some(quote), k) == Some(r) && IsQuote(quote)
    ensures forall s :: s in body ==> FitsIn(s, quote)
    ensures var j := i + |ShowBody(body)|;
            && StandsAt(t, i, ShowBody(body)) && j < |t| && t[j] == quote
            && Scan(t, j + 1, depth, None, k) == Some(r)
    decreases |t| - i
  {
    if t[i] == quote {
      return [];
    }
    var s := if t[i] == '\\' then Escaped(t[i + 1]) else Raw(t[i]);
    var rest := StringEnds(t, i + |ShowSymbol(s)|, depth, quote, k, r);
    body := [s] + rest;
    assert body[1..] == rest;
    assert StandsAt(t, i, ShowSymbol(s));
    StandsSplit(t, i, ShowSymbol(s), ShowBody(rest));
  }

  /** Balanced texts, each followed by a closing bracket. */
  datatype Levels = Ground | Level(inner: Balanced, close: char, outer: Levels)

  function Height(l: Levels): nat {
    match l
    case Ground => 0
    case Level(_, _, outer) => 1 + Height(outer)
  }

  function ShowLevels(l: Levels): string {
    match l
    case Ground => ""
    case Level(inner, close, outer) => Show(inner) + [close] + ShowLevels(outer)
  }

  predicate AreLevels(l: Levels, k: Brackets) {
    match l
    case Ground => true
    case Level(inner, close, outer) => IsWellFormed(inner, k) && close in k.closes && AreLevels(outer, k)
  }

  /** `l` is what stands in `t` from `i` up to the answer `r`, one level for each open group. */
  ghost predicate AreScanned(t: string, i: nat, depth: nat, k: Brackets, r: nat, l: Levels) {
    && Height(l) == depth && AreLevels(l, k)
    && StandsAt(t, i, ShowLevels(l)) && r + 1 == i + |ShowLevels(l)|
  }

  /** What was scanned up to the answer is one balanced text for every open group. */
  lemma {:induction false} ScannedLevels(t: string, i: nat, depth: nat, k: Brackets, r: nat) returns (l: Levels)
    requires Scan(t, i, depth, None, k) == Some(r) && depth > 0 && AreProper(k)
    ensures AreScanned(t, i, depth, k, r, l)
    decreases |t| - i
  {
    var c := t[i];
    if IsQuote(c) {
      var body := StringEnds(t, i + 1, depth, c, k, r);
      var m := ScannedLevels(t, i + 2 + |ShowBody(body)|, depth, k, r);
      l := PrependQuoted(t, i, depth, k, r, c, body, m);
    } else if c in k.opens {
      var m := ScannedLevels(t, i + 1, depth + 1, k, r);
      l := PrependGroup(t, i, depth, k, r, c, m);
    } else if c in k.closes {
      if depth == 1 {
        l := Level(End, c, Ground);
        StandsOne(t, i, c);
      } else {
        var m := ScannedLevels(t, i + 1, depth - 1, k, r);
        l := PrependClose(t, i, depth, k, r, c, m);
      }
    } else {
      var m := ScannedLevels(t, i + 1, depth, k, r);
      l := PrependPlain(t, i, depth, k, r, c, m);
    }
  }

  lemma HeightOf(l: Levels)
    ensures Height(l) == 0 <==> l.Ground?
    ensures l.Level? ==> Height(l) == 1 + Height(l.outer)
  {
  }

  lemma PrependOne(t: string, i: nat, c: char, shown: string)
    requires i < |t| && t[i] == c && StandsAt(t, i + 1, shown)
    ensures StandsAt(t, i, [c] + shown)
  {
    StandsOne(t, i, c);
    StandsSplit(t, i, [c], shown);
  }

  lemma PrependClose(t: string, i: nat, depth: nat, k: Brackets, r: nat, c: char, m: Levels) returns (l: Levels)
    requires i < |t| && t[i] == c && c in k.closes && depth > 0
    requires AreScanned(t, i + 1, depth - 1, k, r, m)
    ensures AreScanned(t, i, depth, k, r, l)
  {
    l := Level(End, c, m);
    assert ShowLevels(l) == [c] + ShowLevels(m);
    PrependOne(t, i, c, ShowLevels(m));
  }

  lemma PrependPlain(t: string, i: nat, depth: nat, k: Brackets, r: nat, c: char, m: Levels) returns (l: Levels)
    requires i < |t| && t[i] == c && !IsQuote(c) && c !in k.opens && c !in k.closes && depth > 0
    requires AreScanned(t, i + 1, depth, k, r, m)
    ensures AreScanned(t, i, depth, k, r, l)
  {
    l := m.(inner := Plain(c, m.inner));
    assert ShowLevels(l) == [c] + ShowLevels(m);
    PrependOne(t, i, c, ShowLevels(m));
  }

  lemma GroupShown(c: char, inner: Balanced, close: char, outer: Levels)
    requires outer.Level?
    ensures ShowLevels(Level(Group(c, inner, close, outer.inner), outer.close, outer.outer))
         == [c] + ShowLevels(Level(inner, close, outer))
  {
    Associate([c] + Show(inner) + [close], Show(outer.inner), [outer.close], ShowLevels(outer.outer));
    assert Show(Group(c, inner, close, outer.inner)) == [c] + Show(inner) + [close] + Show(outer.inner);
    assert ShowLevels(Level(inner, close, outer)) == Show(inner) + [close] + ShowLevels(outer);
  }

  lemma PrependGroup(t: string, i: nat, depth: nat, k: Brackets, r: nat, c: char, m: Levels) returns (l: Levels)
    requires i < |t| && t[i] == c && c in k.opens && depth > 0
    requires AreScanned(t, i + 1, depth + 1, k, r, m)
    ensures AreScanned(t, i, depth, k, r, l)
  {
    HeightOf(m);
    HeightOf(m.outer);
    var outer := m.outer;
    assert AreLevels(outer, k);
    l := Level(Group(c, m.inner, m.close, outer.inner), outer.close, outer.outer);
    HeightOf(l);
    GroupShown(c, m.inner, m.close, outer);
    PrependOne(t, i, c, ShowLevels(m));
  }

  lemma PrependQuoted(t: string, i: nat, depth: nat, k: Brackets, r: nat, c: char, body: seq<Symbol>, m: Levels)
    returns (l: Levels)
    requires IsQuote(c) && (forall s :: s in body ==> FitsIn(s, c)) && depth > 0
    requires i + 1 + |ShowBody(body)| < |t| && t[i] == c && t[i + 1 + |ShowBody(body)|] == c
    requires StandsAt(t, i + 1, ShowBody(body))
    requires AreScanned(t, i + 2 + |ShowBody(body)|, depth, k, r, m)
    ensures AreScanned(t, i, depth, k, r, l)
  {
    l := m.(inner := Quoted(c, body, m.inner));
    ShowLiteral(c, body, m);
    StandsLiteral(t, i, c, ShowBody(body));
    StandsSplit(t, i, [c] + ShowBody(body) + [c], ShowLevels(m));
  }

  lemma StandsLiteral(t: string, i: nat, c: char, body: string)
    requires i + 1 + |body| < |t| && t[i] == c && t[i + 1 + |body|] == c && StandsAt(t, i + 1, body)
    ensures StandsAt(t, i, [c] + body + [c])
  {
    StandsOne(t, i, c);
    StandsOne(t, i + 1 + |body|, c);
    StandsSplit(t, i, [c], body);
    StandsSplit(t, i, [c] + body, [c]);
  }

  lemma ShowLiteral(c: char, body: seq<Symbol>, m: Levels)
    requires m.Level?
    ensures ShowLevels(m.(inner := Quoted(c, body, m.inner))) == [c] + ShowBody(body) + [c] + ShowLevels(m)
  {
    var literal := [c] + ShowBody(body) + [c];
    Associate(literal, Show(m.inner), [m.close], ShowLevels(m.outer));
    assert Show(Quoted(c, body, m.inner)) == literal + Show(m.inner);
  }

  lemma Associate(a: string, b: string, c: string, d: string)
    ensures a + b + c + d == a + (b + c + d)
  {
  }

  /**
   For a text with the opening bracket at `i`: the scanner's answer is the end of the balanced
   group that starts there, and there is none exactly when it answers -1.
   */
  lemma MatchingBracketIff(t: string, i: nat, open: char, close: char, r: nat)
    requires AreProper(Between(open, close)) && i < |t| && t[i] == open
    ensures Scan(t, i, 0, None, Between(open, close)) == Some(r) <==>
            exists inner :: GroupAt(t, i, inner, open, close, r)
  {
    var k := Between(open, close);
    if inner :| GroupAt(t, i, inner, open, close, r) {
      GroupIsFound(t, i, inner, open, close, r);
    }
    assert open in k.opens && open !in k.closes;
    if Scan(t, i, 0, None, k) == Some(r) {
      var l := ScannedLevels(t, i + 1, 1, k, r);
      HeightOf(l);
      HeightOf(l.outer);
      assert l.close == close;
      assert ShowLevels(l) == Show(l.inner) + [close];
      assert Show(Group(open, l.inner, close, End)) == [open] + ShowLevels(l);
      StandsOne(t, i, open);
      StandsSplit(t, i, [open], ShowLevels(l));
      assert GroupAt(t, i, l.inner, open, close, r);
    }
  }
}
