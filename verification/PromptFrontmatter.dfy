/** The frontmatter of a prompt file: what is written between the fences is read back. */
module PromptFrontmatter {
  import opened Wrappers
  import opened Strings
  import opened Escaping
  import opened PromptFile

  // ---- the fences -------------------------------------------------------------------------

  lemma {:induction false} FenceNotIn(line: string, tail: string)
    requires '\n' !in line && ClosingFence(tail).Some?
    ensures ClosingFence(line + tail) == Some(|line| + ClosingFence(tail).value)
  {
    if line == "" {
      assert line + tail == tail;
    } else {
      assert (line + tail)[1..] == line[1..] + tail;
      assert (line + tail)[0] == line[0] && "\n---"[0] == '\n';
      FenceNotIn(line[1..], tail);
    }
  }

  /** A line that the frontmatter may hold: it cannot be taken for the closing fence. */
  predicate IsFieldLine(line: string) {
    line != "" && line[0] != '-' && '\n' !in line
  }

  /** A line feed is no closing fence unless a dash follows. */
  lemma FenceBehind(rest: string)
    requires rest != "" && rest[0] != '-' && ClosingFence(rest).Some?
    ensures ClosingFence("\n" + rest) == Some(1 + ClosingFence(rest).value)
  {
    var tail := "\n" + rest;
    assert tail[1..] == rest;
    assert tail[1] != "\n---"[1];
  }

  lemma FenceStep(line: string, rest: string, tail: string, n: nat)
    requires tail == "\n" + rest
    requires '\n' !in line && rest != "" && rest[0] != '-' && ClosingFence(rest) == Some(n)
    ensures ClosingFence(line + tail) == Some(|line| + 1 + n)
  {
    FenceBehind(rest);
    FenceMoved(line, tail, n + 1);
  }

  lemma FenceMoved(line: string, tail: string, n: nat)
    requires '\n' !in line && ClosingFence(tail) == Some(n)
    ensures ClosingFence(line + tail) == Some(|line| + n)
  {
    FenceNotIn(line, tail);
  }

  lemma {:induction false} FenceAfter(lines: seq<string>, after: string)
    requires lines != [] && forall l :: l in lines ==> IsFieldLine(l)
    ensures ClosingFence(Join(lines, "\n") + ("\n---" + after)) == Some(|Join(lines, "\n")|)
  {
    var close := "\n---" + after;
    assert lines[0] in lines;
    if |lines| == 1 {
      assert ClosingFence(close) == Some(0);
      FenceNotIn(lines[0], close);
    } else {
      var more := Join(lines[1..], "\n");
      FenceAfter(lines[1..], after);
      assert lines[1] in lines;
      assert more[0] == lines[1][0];
      FenceStep(lines[0], more + close, "\n" + (more + close), |more|);
      assert Join(lines, "\n") + close == lines[0] + ("\n" + (more + close));
    }
  }

  /** A fenced block followed by a body is split at exactly those places. */
  lemma SplitFenced(fields: seq<string>, body: seq<string>)
    requires fields != [] && body != [] && forall l :: l in fields ==> IsFieldLine(l)
    ensures SplitFrontmatter(Join(["---"] + fields + ["---"] + body, "\n"))
         == Some((Join(fields, "\n"), Join(body, "\n")))
  {
    var f, b := Join(fields, "\n"), Join(body, "\n");
    JoinConcat(["---"] + fields + ["---"], body, "\n");
    JoinConcat(["---"] + fields, ["---"], "\n");
    JoinConcat(["---"], fields, "\n");
    var text := Join(["---"] + fields + ["---"] + body, "\n");
    assert text == "---\n" + (f + ("\n---" + ("\n" + b)));
    FenceAfter(fields, "\n" + b);
    FencedText(f, b);
  }

  lemma FencedText(f: string, b: string)
    requires ClosingFence(f + ("\n---" + ("\n" + b))) == Some(|f|)
    ensures SplitFrontmatter("---\n" + (f + ("\n---" + ("\n" + b)))) == Some((f, b))
  {
    var rest := f + ("\n---" + ("\n" + b));
    var text := "---\n" + rest;
    assert text[4..] == rest;
    assert rest[..|f|] == f;
    assert rest[|f| + 4..] == "\n" + b;
    assert ("\n" + b)[1..] == b;
  }

  // ---- the fields -------------------------------------------------------------------------

  lemma KeyValueSplit(line: string, key: string, gap: string, value: string)
    requires key != "" && ':' !in key && Trimmed(key) && AllSpace(gap) && Trimmed(value)
    requires line == key + [':'] + (gap + value)
    ensures KeyValue(line) == Some((key, value))
  {
    IndexOfFirst(key, ':', gap + value);
    assert line[..|key|] == key;
    assert line[|key| + 1..] == gap + value + "";
    TrimTrimmed(key);
    TrimPadded(gap, value, "");
    assert line[0] == key[0];
    BlankIff(line);
  }

  lemma KeyValueOf(key: string, value: string)
    requires key != "" && ':' !in key && Trimmed(key) && Trimmed(value)
    ensures KeyValue(FieldLine(key, value)) == Some((key, value))
  {
    assert FieldLine(key, value) == key + [':'] + (" " + value);
    KeyValueSplit(FieldLine(key, value), key, " ", value);
  }

  function PairMap(pairs: Pairs): map<string, string> {
    if pairs == [] then map[] else PairMap(pairs[..|pairs| - 1])[pairs[|pairs| - 1].0 := pairs[|pairs| - 1].1]
  }

  lemma {:induction false} FieldLinesAt(pairs: Pairs)
    ensures |FieldLines(pairs)| == |pairs|
    ensures forall i :: 0 <= i < |pairs| ==> FieldLines(pairs)[i] == FieldLine(pairs[i].0, pairs[i].1)
  {
    if pairs != [] {
      FieldLinesAt(pairs[1..]);
    }
  }

  lemma {:induction false} FieldMapOf(pairs: Pairs)
    requires GoodPairs(pairs)
    ensures FieldMap(FieldLines(pairs)) == PairMap(pairs)
  {
    FieldLinesAt(pairs);
    if pairs != [] {
      var lines, last, before := FieldLines(pairs), pairs[|pairs| - 1], pairs[..|pairs| - 1];
      FieldMapOf(before);
      FieldLinesAt(before);
      LettersOnly(last.0);
      KeyValueOf(last.0, last.1);
      assert lines[..|lines| - 1] == FieldLines(before);
    }
  }

  lemma {:induction false} PairMapAt(pairs: Pairs, i: nat)
    requires i < |pairs| && forall j :: i < j < |pairs| ==> pairs[j].0 != pairs[i].0
    ensures pairs[i].0 in PairMap(pairs) && PairMap(pairs)[pairs[i].0] == pairs[i].1
  {
    if i < |pairs| - 1 {
      PairMapAt(pairs[..|pairs| - 1], i);
    }
  }

  lemma {:induction false} PairMapWithout(pairs: Pairs, key: string)
    requires forall j :: 0 <= j < |pairs| ==> pairs[j].0 != key
    ensures key !in PairMap(pairs)
  {
    if pairs != [] {
      PairMapWithout(pairs[..|pairs| - 1], key);
    }
  }

  /** One line, with nothing in it that the reader normalises. */
  predicate PlainLine(s: string) {
    '\n' !in s && '\r' !in s
  }

  /** What a prompt's frontmatter must be for the file to hold it. */
  predicate GoodHeader(p: Prompt) {
    && IsPromptId(p.id)
    && PlainLine(p.slug) && PlainLine(p.createdAt) && PlainLine(p.updatedAt)
    && p.target != "" && Trimmed(p.target) && PlainLine(p.target)
  }

  lemma StateScalar(s: State)
    ensures PlainLine(StateText(s)) && StateText(s) != ""
    ensures StateOf(StateText(s)) == Some(s)
  {
  }

  /** What the text of a value must be: trimmed, on one line. */
  predicate GoodValue(v: string) {
    Trimmed(v) && PlainLine(v)
  }

  lemma ScalarGood(v: string)
    requires PlainLine(v)
    ensures GoodValue(YamlScalar(v))
  {
    ScalarShape(v, '\n');
    ScalarShape(v, '\r');
  }

  lemma DigitsGood(v: string)
    requires AllDigits(v)
    ensures GoodValue(v) && GoodValue(QUOTE + v + QUOTE)
  {
  }

  predicate GoodKey(key: string) {
    key != "" && forall i :: 0 <= i < |key| ==> IsLetter(key[i])
  }

  lemma KeysGood()
    ensures GoodKey("jigFormat") && GoodKey("id") && GoodKey("slug") && GoodKey("state") && GoodKey("target")
    ensures GoodKey("createdAt") && GoodKey("updatedAt") && GoodKey("scrappedFrom")
  {
  }

  lemma LettersOnly(key: string)
    requires GoodKey(key)
    ensures key[0] != '-' && ':' !in key && Trimmed(key) && PlainLine(key)
  {
  }

  predicate GoodPairs(pairs: Pairs) {
    forall i :: 0 <= i < |pairs| ==> GoodKey(pairs[i].0) && GoodValue(pairs[i].1)
  }

  lemma HeaderPairsGood(id: string, slug: string, state: string, target: string,
                        createdAt: string, updatedAt: string, scrappedFrom: seq<string>)
    requires GoodValue(id) && GoodValue(slug) && GoodValue(state) && GoodValue(target)
    requires GoodValue(createdAt) && GoodValue(updatedAt)
    requires |scrappedFrom| <= 1 && forall v :: v in scrappedFrom ==> GoodValue(v)
    ensures GoodPairs(HeaderPairs(id, slug, state, target, createdAt, updatedAt, scrappedFrom))
  {
    KeysGood();
    DigitsGood(NatText(JIG_FORMAT));
  }

  lemma PairsGood(p: Prompt)
    requires GoodHeader(p)
    ensures GoodPairs(PairsOf(p))
  {
    DigitsGood(p.id);
    ScalarGood(p.slug);
    StateScalar(p.state);
    ScalarGood(StateText(p.state));
    ScalarGood(p.createdAt);
    ScalarGood(p.updatedAt);
    if p.scrappedFrom.Some? {
      StateScalar(p.scrappedFrom.value);
      ScalarGood(StateText(p.scrappedFrom.value));
    }
    HeaderPairsGood(QUOTE + p.id + QUOTE, YamlScalar(p.slug), YamlScalar(StateText(p.state)), p.target,
                    YamlScalar(p.createdAt), YamlScalar(p.updatedAt), ScrappedScalar(p));
  }

  lemma FieldLinesGood(pairs: Pairs)
    requires GoodPairs(pairs)
    ensures forall l :: l in FieldLines(pairs) ==> IsFieldLine(l) && '\r' !in l
  {
    FieldLinesAt(pairs);
    forall l | l in FieldLines(pairs)
      ensures IsFieldLine(l) && '\r' !in l
    {
      var i :| 0 <= i < |pairs| && FieldLines(pairs)[i] == l;
      assert l == FieldLine(pairs[i].0, pairs[i].1);
      LettersOnly(pairs[i].0);
      assert l[0] == pairs[i].0[0];
    }
  }

  lemma HeaderLookups(pairs: Pairs, id: string, slug: string, state: string, target: string,
                      createdAt: string, updatedAt: string, scrappedFrom: seq<string>)
    requires |scrappedFrom| <= 1
    requires pairs == HeaderPairs(id, slug, state, target, createdAt, updatedAt, scrappedFrom)
    ensures var fm := PairMap(pairs);
      && Lookup(fm, "jigFormat") == NatText(JIG_FORMAT)
      && Lookup(fm, "id") == id
      && Lookup(fm, "slug") == slug
      && Lookup(fm, "state") == state
      && Lookup(fm, "target") == target
      && Lookup(fm, "createdAt") == createdAt
      && Lookup(fm, "updatedAt") == updatedAt
      && Lookup(fm, "scrappedFrom") == (if scrappedFrom != [] then scrappedFrom[0] else "")
  {
    assert "jigFormat"[0] != "createdAt"[0] && "jigFormat"[0] != "updatedAt"[0] && "createdAt"[0] != "updatedAt"[0];
    PairMapAt(pairs, 0);
    PairMapAt(pairs, 1);
    PairMapAt(pairs, 2);
    PairMapAt(pairs, 3);
    PairMapAt(pairs, 4);
    PairMapAt(pairs, 5);
    PairMapAt(pairs, 6);
    if scrappedFrom != [] {
      PairMapAt(pairs, 7);
    } else {
      PairMapWithout(pairs, "scrappedFrom");
    }
  }

  lemma {:induction false} LeadingDigitsAll(s: string)
    requires AllDigits(s)
    ensures LeadingDigits(s) == s
  {
    if s != "" {
      LeadingDigitsAll(s[1..]);
      assert [s[0]] + s[1..] == s;
    }
  }

  lemma ParseIntOf(n: nat)
    ensures ParseInt(NatText(n)) == Some(n)
  {
    var t := NatText(n);
    assert IsDigit(t[0]);
    LeadingDigitsAll(t);
    NatRoundTrip(n);
  }

  lemma UnquoteId(id: string)
    requires IsPromptId(id)
    ensures Unquote(QUOTE + id + QUOTE) == id
  {
    assert Inside(QUOTE + id + QUOTE) == id;
    assert '\\' !in id;
    ReplaceNothing(id, "\\\"", QUOTE);
    ReplaceNothing(id, "\\\\", BACKSLASH);
  }

  /** Every header field is read back as written. */
  predicate ReadsHeader(fm: map<string, string>, p: Prompt) {
    && ParseInt(Lookup(fm, "jigFormat")) == Some(JIG_FORMAT)
    && Unquote(Lookup(fm, "id")) == p.id
    && Unquote(Lookup(fm, "slug")) == p.slug
    && Unquote(Lookup(fm, "state")) == StateText(p.state)
    && Lookup(fm, "target") == p.target
    && Unquote(Lookup(fm, "createdAt")) == p.createdAt
    && Unquote(Lookup(fm, "updatedAt")) == p.updatedAt
    && Unquote(Lookup(fm, "scrappedFrom")) == (if p.scrappedFrom.Some? then StateText(p.scrappedFrom.value) else "")
  }

  lemma HeaderRoundTrip(p: Prompt)
    requires GoodHeader(p)
    ensures ReadsHeader(FieldMap(FieldLines(PairsOf(p))), p)
  {
    PairsGood(p);
    FieldMapOf(PairsOf(p));
    HeaderLookups(PairsOf(p), QUOTE + p.id + QUOTE, YamlScalar(p.slug), YamlScalar(StateText(p.state)), p.target,
                  YamlScalar(p.createdAt), YamlScalar(p.updatedAt), ScrappedScalar(p));
    ParseIntOf(JIG_FORMAT);
    UnquoteId(p.id);
    UnquoteScalar(p.slug);
    UnquoteScalar(StateText(p.state));
    UnquoteScalar(p.createdAt);
    UnquoteScalar(p.updatedAt);
    if p.scrappedFrom.Some? {
      UnquoteScalar(StateText(p.scrappedFrom.value));
    }
  }
}
