/** Stripping leading `[...]` annotations off a parameter's text. */
module AttributeStripper {
  import opened Wrappers
  import opened Strings
  import opened BalancedText
  import opened BracketScanner

  lemma {:induction false} FoundInText(t: string, i: nat, depth: int, inString: Option<char>, k: Brackets)
    ensures var r := Scan(t, i, depth, inString, k); r.Some? ==> i <= r.value < |t|
    decreases |t| - i
  {
    if i < |t| {
      if inString.Some? {
        if t[i] == '\\' {
          FoundInText(t, i + 2, depth, inString, k);
        } else {
          FoundInText(t, i + 1, depth, if t[i] == inString.value then None else inString, k);
        }
      } else if IsQuote(t[i]) {
        FoundInText(t, i + 1, depth, Some(t[i]), k);
      } else if t[i] in k.opens {
        FoundInText(t, i + 1, depth + 1, None, k);
      } else if t[i] in k.closes {
        FoundInText(t, i + 1, depth - 1, None, k);
      } else {
        FoundInText(t, i + 1, depth, None, k);
      }
    }
  }

  function Closing(s: string): (r: Option<nat>)
    ensures r.Some? ==> r.value < |s|
  {
    FoundInText(s, 0, 0, None, Between('[', ']'));
    Scan(s, 0, 0, None, Between('[', ']'))
  }

  function StripFrom(s: string): string
    decreases |s|
  {
    if s == "" || s[0] != '[' || Closing(s).None? then s
    else StripFrom(TrimLeft(s[Closing(s).value + 1..]))
  }

  function Stripped(text: string): string {
    StripFrom(TrimLeft(text))
  }

  method StripLeadingAttributes(text: string) returns (s: string)
    ensures s == Stripped(text)
  {
    s := TrimLeft(text);
    while StartsWith(s, "[")
      invariant StripFrom(s) == Stripped(text)
      decreases |s|
    {
      assert s[0] == '[';
      var close := FindMatchingBracket(s, 0, '[', ']');
      assert Closing(s) == if close == -1 then None else Some(close);
      if close == -1 {
        break;
      }
      s := TrimLeft(s[close + 1..]);
    }
  }

  // ---- exactly the annotations ------------------------------------------------------------

  /** White space and annotations, as they stand before a declaration. */
  datatype Attributes = Space(ws: string) | Attribute(ws: string, inner: Balanced, more: Attributes)

  function ShowAttributes(a: Attributes): string {
    match a
    case Space(ws) => ws
    case Attribute(ws, inner, more) => ws + "[" + Show(inner) + "]" + ShowAttributes(more)
  }

  predicate AreAttributes(a: Attributes) {
    match a
    case Space(ws) => AllSpace(ws)
    case Attribute(ws, inner, more) =>
      AllSpace(ws) && IsWellFormed(inner, Between('[', ']')) && AreAttributes(more)
  }

  /** Nothing left to strip: no white space in front, and no balanced annotation. */
  ghost predicate IsBare(s: string) {
    && (s != "" ==> !IsSpace(s[0]))
    && forall inner, r: nat :: !GroupAt(s, 0, inner, '[', ']', r)
  }

  lemma StripStep(ws: string, inner: Balanced, after: string)
    requires AllSpace(ws) && IsWellFormed(inner, Between('[', ']'))
    ensures Stripped(ws + "[" + Show(inner) + "]" + after) == Stripped(after)
  {
    var group := "[" + Show(inner) + "]";
    var s := group + after;
    var r := 1 + |Show(inner)|;
    assert ws + "[" + Show(inner) + "]" + after == ws + s;
    TrimLeftPadded(ws, s);
    ShowOneGroup(inner);
    assert s[0..|group|] == group;
    assert GroupAt(s, 0, inner, '[', ']', r);
    GroupIsFound(s, 0, inner, '[', ']', r);
    assert s[r + 1..] == after;
  }

  lemma ShowOneGroup(inner: Balanced)
    ensures Show(Group('[', inner, ']', End)) == "[" + Show(inner) + "]"
  {
  }

  /** A text that is not stripped further has no annotation in front, and the reverse. */
  lemma BareIff(s: string)
    requires s != "" ==> !IsSpace(s[0])
    ensures IsBare(s) <==> s == "" || s[0] != '[' || Closing(s).None?
  {
    if s != "" && s[0] == '[' {
      if Closing(s).Some? {
        MatchingBracketIff(s, 0, '[', ']', Closing(s).value);
      } else {
        forall inner, r: nat
          ensures !GroupAt(s, 0, inner, '[', ']', r)
        {
          MatchingBracketIff(s, 0, '[', ']', r);
        }
      }
    } else {
      forall inner, r: nat
        ensures !GroupAt(s, 0, inner, '[', ']', r)
      {
        ShowOneGroup(inner);
        assert ("[" + Show(inner) + "]")[0] == '[';
      }
    }
  }

  lemma {:induction false} StripsAttributes(a: Attributes, rest: string)
    requires AreAttributes(a) && IsBare(rest)
    ensures Stripped(ShowAttributes(a) + rest) == rest
  {
    match a
    case Space(ws) =>
      TrimLeftPadded(ws, rest);
      BareIff(rest);
    case Attribute(ws, inner, more) =>
      assert ShowAttributes(a) + rest == ws + "[" + Show(inner) + "]" + (ShowAttributes(more) + rest);
      StripStep(ws, inner, ShowAttributes(more) + rest);
      StripsAttributes(more, rest);
  }

  lemma {:induction false} LeadingSpace(s: string) returns (ws: string)
    ensures AllSpace(ws) && s == ws + TrimLeft(s)
  {
    if s != "" && IsSpace(s[0]) {
      var more := LeadingSpace(s[1..]);
      ws := [s[0]] + more;
      assert s == [s[0]] + s[1..];
    } else {
      ws := "";
    }
  }

  lemma {:induction false} StrippedText(text: string) returns (a: Attributes)
    ensures AreAttributes(a) && text == ShowAttributes(a) + Stripped(text) && IsBare(Stripped(text))
    decreases |text|
  {
    var ws := LeadingSpace(text);
    var s := TrimLeft(text);
    BareIff(s);
    if s == "" || s[0] != '[' || Closing(s).None? {
      return Space(ws);
    }
    var r := Closing(s).value;
    MatchingBracketIff(s, 0, '[', ']', r);
    var inner :| GroupAt(s, 0, inner, '[', ']', r);
    ShowOneGroup(inner);
    var more := StrippedText(s[r + 1..]);
    a := Attribute(ws, inner, more);
    assert s == s[..r + 1] + s[r + 1..];
    Reassemble(ws, inner, ShowAttributes(more), Stripped(s[r + 1..]));
  }

  lemma Reassemble(ws: string, inner: Balanced, more: string, rest: string)
    ensures ws + ("[" + Show(inner) + "]" + (more + rest)) == ws + "[" + Show(inner) + "]" + more + rest
  {
  }

  /**
   What is left is the text without its leading annotations: exactly when the text is
   annotations and white space followed by `rest`, and `rest` starts with neither.
   */
  lemma StrippedIff(text: string, rest: string)
    ensures Stripped(text) == rest <==>
            IsBare(rest) && exists a :: AreAttributes(a) && text == ShowAttributes(a) + rest
  {
    var a := StrippedText(text);
    if IsBare(rest) {
      forall b | AreAttributes(b) && text == ShowAttributes(b) + rest
        ensures Stripped(text) == rest
      {
        StripsAttributes(b, rest);
      }
    }
  }
}
