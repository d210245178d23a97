/**
 The keyword ranker: the index over tokenised chunks, BM25 over the reals with any logarithm,
 and the order of the answers.
 */
module Ranking {
  import opened DocChunks
  import opened StableSort

  // ---- what the index counts --------------------------------------------------------------

  type Tokens = seq<string>

  /** The first `n` documents that contain a term, counted. */
  function DocsWith(docs: seq<Tokens>, n: nat, term: string): (r: nat)
    requires n <= |docs|
    ensures r <= n
    ensures r == 0 <==> forall d :: 0 <= d < n ==> term !in docs[d]
  {
    if n == 0 then 0 else DocsWith(docs, n - 1, term) + (if term in docs[n - 1] then 1 else 0)
  }

  function TotalLength(docs: seq<Tokens>, n: nat): nat
    requires n <= |docs|
  {
    if n == 0 then 0 else TotalLength(docs, n - 1) + |docs[n - 1]|
  }

  function AverageLength(docs: seq<Tokens>): (r: real)
    ensures r >= 0.0
  {
    if |docs| == 0 then 0.0 else TotalLength(docs, |docs|) as real / |docs| as real
  }

  datatype Index = Index(
    chunks: seq<Chunk>,
    docLengths: seq<nat>,
    avgDocLength: real,
    termDocFreq: map<string, nat>,
    termFreqByDoc: seq<map<string, nat>>
  )

  /** The map holds exactly the terms of the document, each as often as it occurs. */
  ghost predicate IsRecount(freq: map<string, nat>, tokens: Tokens) {
    && (forall t :: t in freq <==> t in tokens)
    && forall t :: t in freq ==> freq[t] == multiset(tokens)[t]
  }

  /** The map holds exactly the terms of the documents, each with its number of documents. */
  ghost predicate IsDocRecount(freq: map<string, nat>, docs: seq<Tokens>, n: nat)
    requires n <= |docs|
  {
    && (forall t :: t in freq <==> DocsWith(docs, n, t) > 0)
    && forall t :: t in freq ==> freq[t] == DocsWith(docs, n, t)
  }

  ghost predicate AreRecounts(freqs: seq<map<string, nat>>, docs: seq<Tokens>, n: nat)
    requires n <= |docs| == |freqs|
  {
    n == 0 || (AreRecounts(freqs, docs, n - 1) && IsRecount(freqs[n - 1], docs[n - 1]))
  }

  lemma {:induction false} AreRecountsIff(freqs: seq<map<string, nat>>, docs: seq<Tokens>, n: nat)
    requires n <= |docs| == |freqs|
    ensures AreRecounts(freqs, docs, n) <==> forall d :: 0 <= d < n ==> IsRecount(freqs[d], docs[d])
  {
    if n > 0 {
      AreRecountsIff(freqs, docs, n - 1);
    }
  }

  ghost predicate IsIndex(index: Index, chunks: seq<Chunk>, docs: seq<Tokens>) {
    && index.chunks == chunks && |docs| == |chunks| == |index.docLengths| == |index.termFreqByDoc|
    && (forall d :: 0 <= d < |docs| ==> index.docLengths[d] == |docs[d]|)
    && AreRecounts(index.termFreqByDoc, docs, |docs|)
    && index.avgDocLength == AverageLength(docs)
    && IsDocRecount(index.termDocFreq, docs, |docs|)
  }

  // ---- building it ------------------------------------------------------------------------

  method CountTerms(tokens: Tokens) returns (freq: map<string, nat>)
    ensures IsRecount(freq, tokens)
  {
    freq := map[];
    var i := 0;
    while i < |tokens|
      invariant 0 <= i <= |tokens|
      invariant IsRecount(freq, tokens[..i])
    {
      var t := tokens[i];
      assert tokens[..i + 1] == tokens[..i] + [t];
      freq := freq[t := (if t in freq then freq[t] else 0) + 1];
      i := i + 1;
    }
    assert tokens[..i] == tokens;
  }

  /** What the map holds for a term. */
  function Count(freq: map<string, nat>, term: string): nat {
    if term in freq then freq[term] else 0
  }

  ghost predicate AllPositive(freq: map<string, nat>) {
    forall t :: t in freq ==> freq[t] > 0
  }

  lemma DocRecountIff(freq: map<string, nat>, docs: seq<Tokens>, n: nat)
    requires n <= |docs|
    ensures IsDocRecount(freq, docs, n) <==>
            AllPositive(freq) && forall t :: Count(freq, t) == DocsWith(docs, n, t)
  {
    assert IsDocRecount(freq, docs, n) ==> forall t :: Count(freq, t) == DocsWith(docs, n, t);
    assert (forall t :: Count(freq, t) == DocsWith(docs, n, t)) ==>
        forall t :: t in freq ==> freq[t] == DocsWith(docs, n, t);
    if AllPositive(freq) && forall t :: Count(freq, t) == DocsWith(docs, n, t) {
      forall t
        ensures t in freq <==> DocsWith(docs, n, t) > 0
      {
        assert Count(freq, t) == DocsWith(docs, n, t);
      }
    }
  }

  /** One more for each of the terms. */
  method CountKeys(before: map<string, nat>, keys: set<string>) returns (after: map<string, nat>)
    requires AllPositive(before)
    ensures AllPositive(after)
    ensures forall t :: Count(after, t) == Count(before, t) + if t in keys then 1 else 0
  {
    after := before;
    var left := keys;
    while left != {}
      invariant left <= keys && AllPositive(after)
      invariant forall t :: Count(after, t) == Count(before, t) + if t in keys && t !in left then 1 else 0
      decreases |left|
    {
      var term :| term in left;
      after := after[term := Count(after, term) + 1];
      left := left - {term};
    }
  }

  method CountDocuments(freqs: seq<map<string, nat>>, ghost docs: seq<Tokens>) returns (docFreq: map<string, nat>)
    requires |freqs| == |docs|
    requires forall d, t :: 0 <= d < |docs| ==> (t in freqs[d].Keys <==> t in docs[d])
    ensures IsDocRecount(docFreq, docs, |docs|)
  {
    docFreq := map[];
    var d := 0;
    while d < |freqs|
      invariant 0 <= d <= |freqs| && AllPositive(docFreq)
      invariant forall t :: Count(docFreq, t) == DocsWith(docs, d, t)
    {
      docFreq := CountKeys(docFreq, freqs[d].Keys);
      d := d + 1;
    }
    DocRecountIff(docFreq, docs, d);
  }

  method BuildIndex(chunks: seq<Chunk>, docs: seq<Tokens>) returns (index: Index)
    requires |docs| == |chunks|
    ensures IsIndex(index, chunks, docs)
  {
    var freqs: seq<map<string, nat>>, lengths: seq<nat>, total: nat := [], [], 0;
    var d := 0;
    while d < |docs|
      invariant 0 <= d <= |docs| && |freqs| == |lengths| == d
      invariant forall e :: 0 <= e < d ==> IsRecount(freqs[e], docs[e]) && lengths[e] == |docs[e]|
      invariant total == TotalLength(docs, d)
    {
      var freq := CountTerms(docs[d]);
      freqs, lengths, total := freqs + [freq], lengths + [|docs[d]|], total + |docs[d]|;
      d := d + 1;
    }
    var average := if |docs| == 0 then 0.0 else total as real / |docs| as real;
    AreRecountsIff(freqs, docs, |docs|);
    var docFreq := CountDocuments(freqs, docs);
    index := Index(chunks, lengths, average, docFreq, freqs);
  }

  // ---- scores -----------------------------------------------------------------------------

  /** A logarithm: increasing, and 0 at 1. */
  ghost predicate IsLog(ln: real -> real) {
    ln(1.0) == 0.0 && forall x, y :: 0.0 < x < y ==> ln(x) < ln(y)
  }

  const K1 := 1.5
  const B := 0.75

  /** How much a term tells, given the number of documents and how many of them have it. */
  function Idf(n: nat, df: nat, ln: real -> real): real {
    ln(1.0 + (n as real - df as real + 0.5) / (df as real + 0.5))
  }

  /** The average length, or 1 when it is 0. */
  function Scale(average: real): (r: real)
    requires average >= 0.0
    ensures r > 0.0
  {
    if average == 0.0 then 1.0 else average
  }

  /** What a document's length weighs against its terms. */
  function Norm(length: nat, average: real): real
    requires average >= 0.0
  {
    K1 * (1.0 - B + B * length as real / Scale(average))
  }

  lemma QuotientOrder(a: real, b: real, k: real)
    requires a < b && k > 0.0
    ensures a / k < b / k
  {
    var x, y := a / k, b / k;
    assert x * k == a && y * k == b;
    assert x >= y ==> x * k >= y * k;
  }

  lemma NormGrows(length: nat, more: nat, average: real)
    requires average >= 0.0 && length < more
    ensures Norm(length, average) < Norm(more, average)
  {
    QuotientOrder(B * length as real, B * more as real, Scale(average));
  }

  lemma NormPositive(length: nat, average: real)
    requires average >= 0.0
    ensures Norm(length, average) > 0.0
  {
    assert B * length as real / Scale(average) >= 0.0;
  }

  function Saturation(tf: nat, length: nat, average: real): real
    requires tf > 0 && average >= 0.0
  {
    NormPositive(length, average);
    tf as real * (K1 + 1.0) / (tf as real + Norm(length, average))
  }

  /** A term that occurs at all counts for something, but always for less than 2.5 times. */
  lemma SaturationBounds(tf: nat, length: nat, average: real)
    requires tf > 0 && average >= 0.0
    ensures 0.0 < Saturation(tf, length, average) < K1 + 1.0
  {
    NormPositive(length, average);
    QuotientBounds(tf as real, tf as real + Norm(length, average), K1 + 1.0);
  }

  lemma QuotientBounds(a: real, b: real, c: real)
    requires 0.0 < a < b && c > 0.0
    ensures 0.0 < a * c / b < c
  {
    var q := a * c / b;
    assert q * b == a * c;
    assert c * b > c * a > 0.0;
    assert q >= c ==> q * b >= c * b;
    assert q <= 0.0 ==> q * b <= 0.0;
  }

  /** What a term adds to a document's score, `tf` being how often it occurs there. */
  function Bm25(n: nat, df: nat, tf: nat, length: nat, average: real, ln: real -> real): real
    requires average >= 0.0
  {
    if tf == 0 then 0.0 else Idf(n, df, ln) * Saturation(tf, length, average)
  }

  lemma QuotientGrows(a: real, b: real, d: real, c: real)
    requires 0.0 < a < b && d > 0.0 && c > 0.0
    ensures a * c / (a + d) < b * c / (b + d)
  {
    var p, q := a * c / (a + d), b * c / (b + d);
    assert p * (a + d) == a * c && q * (b + d) == b * c;
    QuotientBounds(b, b + d, c);
    assert q < c;
    assert q * (a + d) == q * (b + d) - q * (b - a);
    Scaled(q, c, b - a);
    assert q * (a + d) > a * c;
    assert p >= q ==> p * (a + d) >= q * (a + d);
  }

  lemma Scaled(x: real, y: real, k: real)
    requires x < y && k > 0.0
    ensures x * k < y * k
  {
  }

  lemma QuotientFalls(a: real, d: real, e: real)
    requires a > 0.0 && 0.0 < d < e
    ensures a / d > a / e
  {
    var p, q := a / d, a / e;
    assert p * d == a && q * e == a;
    assert p <= q ==> p * d <= q * d;
    assert q > 0.0 by {
      assert q <= 0.0 ==> q * e <= 0.0;
    }
    Scaled(d, e, q);
  }

  /** A term that occurs more often counts for more. */
  lemma OftenCountsMore(tf: nat, more: nat, length: nat, average: real)
    requires 0 < tf < more && average >= 0.0
    ensures Saturation(tf, length, average) < Saturation(more, length, average)
  {
    NormPositive(length, average);
    QuotientGrows(tf as real, more as real, Norm(length, average), K1 + 1.0);
  }

  /** A term counts for less in a longer document. */
  lemma LongerCountsLess(tf: nat, length: nat, more: nat, average: real)
    requires tf > 0 && length < more && average >= 0.0
    ensures Saturation(tf, length, average) > Saturation(tf, more, average)
  {
    NormPositive(length, average);
    NormGrows(length, more, average);
    QuotientFalls(tf as real * (K1 + 1.0), tf as real + Norm(length, average), tf as real + Norm(more, average));
  }

  /** A term that fewer documents have tells more. */
  lemma RareTellsMore(n: nat, df: nat, more: nat, ln: real -> real)
    requires IsLog(ln) && df < more <= n
    ensures Idf(n, df, ln) > Idf(n, more, ln)
  {
    var p, q := n as real - df as real + 0.5, n as real - more as real + 0.5;
    var d, e := df as real + 0.5, more as real + 0.5;
    QuotientFalls(p, d, e);
    QuotientOrder(q, p, e);
    assert q / e > 0.0;
  }

  function TermScore(docs: seq<Tokens>, term: string, d: nat, ln: real -> real): real
    requires d < |docs|
  {
    Bm25(|docs|, DocsWith(docs, |docs|, term), multiset(docs[d])[term], |docs[d]|, AverageLength(docs), ln)
  }

  /** The score of document `d` from the first `i` query terms. */
  function Score(docs: seq<Tokens>, terms: seq<string>, i: nat, d: nat, ln: real -> real): real
    requires i <= |terms| && d < |docs|
  {
    if i == 0 then 0.0 else Score(docs, terms, i - 1, d, ln) + TermScore(docs, terms[i - 1], d, ln)
  }

  /** The idf of those of the first `i` terms that document `d` contains, added up. */
  function MatchingIdf(docs: seq<Tokens>, terms: seq<string>, i: nat, d: nat, ln: real -> real): real
    requires i <= |terms| && d < |docs|
  {
    if i == 0 then 0.0
    else
      MatchingIdf(docs, terms, i - 1, d, ln) +
      if terms[i - 1] in docs[d] then Idf(|docs|, DocsWith(docs, |docs|, terms[i - 1]), ln) else 0.0
  }

  lemma IdfPositive(n: nat, df: nat, ln: real -> real)
    requires IsLog(ln) && df <= n
    ensures Idf(n, df, ln) > 0.0
  {
    var x := (n as real - df as real + 0.5) / (df as real + 0.5);
    assert x > 0.0;
  }

  lemma Times(a: real, x: real, c: real)
    requires a > 0.0 && 0.0 < x < c
    ensures 0.0 < a * x < c * a
  {
  }

  lemma Bm25Bounds(n: nat, df: nat, tf: nat, length: nat, average: real, ln: real -> real)
    requires IsLog(ln) && df <= n && tf > 0 && average >= 0.0
    ensures 0.0 < Bm25(n, df, tf, length, average, ln) < (K1 + 1.0) * Idf(n, df, ln)
  {
    SaturationBounds(tf, length, average);
    IdfPositive(n, df, ln);
    Times(Idf(n, df, ln), Saturation(tf, length, average), K1 + 1.0);
  }

  lemma TermScoreBounds(docs: seq<Tokens>, term: string, d: nat, ln: real -> real)
    requires IsLog(ln) && d < |docs| && term in docs[d]
    ensures 0.0 < TermScore(docs, term, d, ln)
              < (K1 + 1.0) * Idf(|docs|, DocsWith(docs, |docs|, term), ln)
  {
    Bm25Bounds(|docs|, DocsWith(docs, |docs|, term), multiset(docs[d])[term], |docs[d]|, AverageLength(docs), ln);
  }

  /**
   A score is never negative, is 0 exactly for a document with none of the query's terms, and
   otherwise stays below 2.5 times the idf of the terms that match.
   */
  lemma {:induction false} ScoreBounds(docs: seq<Tokens>, terms: seq<string>, i: nat, d: nat, ln: real -> real)
    requires IsLog(ln) && i <= |terms| && d < |docs|
    ensures Score(docs, terms, i, d, ln) >= 0.0
    ensures Score(docs, terms, i, d, ln) == 0.0 <==> forall k :: 0 <= k < i ==> terms[k] !in docs[d]
    ensures Score(docs, terms, i, d, ln) > 0.0 ==>
              Score(docs, terms, i, d, ln) < (K1 + 1.0) * MatchingIdf(docs, terms, i, d, ln)
    ensures Score(docs, terms, i, d, ln) == 0.0 ==> MatchingIdf(docs, terms, i, d, ln) == 0.0
  {
    if i > 0 {
      ScoreBounds(docs, terms, i - 1, d, ln);
      if terms[i - 1] in docs[d] {
        TermScoreBounds(docs, terms[i - 1], d, ln);
      }
    }
  }

  // ---- answering --------------------------------------------------------------------------

  datatype Ranked = Ranked(chunk: Chunk, score: real)

  /** `localeCompare`, of which only its sign matters. */
  type Collation = (string, string) -> int

  ghost predicate IsCollation(compare: Collation) {
    && (forall a, b :: compare(a, b) > 0 <==> compare(b, a) < 0)
    && (forall a, b, c :: compare(a, b) <= 0 && compare(b, c) <= 0 ==> compare(a, c) <= 0)
  }

  /** Better score first, then by file, then by line. */
  function RanksBefore(compare: Collation): (Ranked, Ranked) -> bool {
    (a: Ranked, b: Ranked) =>
      if a.score != b.score then a.score > b.score
      else if compare(a.chunk.file, b.chunk.file) != 0 then compare(a.chunk.file, b.chunk.file) < 0
      else a.chunk.startLine <= b.chunk.startLine
  }

  /** The comparator is one a sort can use. */
  lemma RanksBeforeIsTotalPreorder(compare: Collation)
    requires IsCollation(compare)
    ensures IsTotalPreorder(RanksBefore(compare))
  {
    var le := RanksBefore(compare);
    forall a, b
      ensures le(a, b) || le(b, a)
    {
      var x, y := a.chunk.file, b.chunk.file;
      assert compare(x, y) > 0 <==> compare(y, x) < 0;
      assert compare(y, x) > 0 <==> compare(x, y) < 0;
    }
    forall a, b, c | le(a, b) && le(b, c)
      ensures le(a, c)
    {
      RanksBeforeIsTransitive(compare, a, b, c);
    }
  }

  lemma RanksBeforeIsTransitive(compare: Collation, a: Ranked, b: Ranked, c: Ranked)
    requires IsCollation(compare) && RanksBefore(compare)(a, b) && RanksBefore(compare)(b, c)
    ensures RanksBefore(compare)(a, c)
  {
    if a.score == b.score == c.score {
      SignsChain(compare, a.chunk.file, b.chunk.file, c.chunk.file);
    }
  }

  lemma SignsChain(compare: Collation, a: string, b: string, c: string)
    requires IsCollation(compare) && compare(a, b) <= 0 && compare(b, c) <= 0
    ensures compare(a, c) <= 0
    ensures compare(a, c) == 0 ==> compare(a, b) == 0 && compare(b, c) == 0
  {
    if compare(a, c) == 0 {
      assert compare(c, a) <= 0;
      assert compare(c, b) <= 0 && compare(b, a) <= 0;
    }
  }

  /** `Array.prototype.slice(0, k)` */
  function FirstOf<T>(s: seq<T>, k: int): seq<T> {
    if k >= |s| then s
    else if k >= 0 then s[..k]
    else if |s| + k >= 0 then s[..|s| + k]
    else []
  }

  /** The terms of a query, each once, in order of their first occurrence. */
  function Distinct(terms: seq<string>): (r: seq<string>)
    ensures forall t :: t in r <==> t in terms
    ensures forall i, j :: 0 <= i < j < |r| ==> r[i] != r[j]
  {
    if terms == [] then []
    else
      var before, last := Distinct(terms[..|terms| - 1]), terms[|terms| - 1];
      if last in before then before else before + [last]
  }

  function Rankings(chunks: seq<Chunk>, docs: seq<Tokens>, query: Tokens, ln: real -> real): (r: seq<Ranked>)
    requires |docs| == |chunks|
    ensures |r| == |chunks|
  {
    var terms := Distinct(query);
    seq(|chunks|, d requires 0 <= d < |chunks| => Ranked(chunks[d], Score(docs, terms, |terms|, d, ln)))
  }

  lemma IndexFacts(index: Index, chunks: seq<Chunk>, docs: seq<Tokens>, term: string, d: nat)
    requires IsIndex(index, chunks, docs) && d < |docs|
    ensures term in index.termFreqByDoc[d] <==> term in docs[d]
    ensures term in docs[d] ==> term in index.termDocFreq
    ensures term in docs[d] ==> index.termDocFreq[term] == DocsWith(docs, |docs|, term)
    ensures term in docs[d] ==> index.termFreqByDoc[d][term] == multiset(docs[d])[term] > 0
    ensures index.docLengths[d] == |docs[d]| && index.avgDocLength == AverageLength(docs)
  {
    AreRecountsIff(index.termFreqByDoc, docs, |docs|);
    assert IsRecount(index.termFreqByDoc[d], docs[d]);
  }

  method TermPart(index: Index, ghost chunks: seq<Chunk>, ghost docs: seq<Tokens>,
                  term: string, df: nat, d: nat, ln: real -> real)
    returns (part: real)
    requires IsIndex(index, chunks, docs) && d < |docs|
    requires df == DocsWith(docs, |docs|, term)
    ensures part == TermScore(docs, term, d, ln)
  {
    IndexFacts(index, chunks, docs, term, d);
    if term !in index.termFreqByDoc[d] {
      return 0.0;
    }
    var tf, length := index.termFreqByDoc[d][term], index.docLengths[d];
    part := Bm25(|index.chunks|, df, tf, length, index.avgDocLength, ln);
  }

  /** What one term adds to every score. */
  function TermScores(docs: seq<Tokens>, term: string, ln: real -> real): (r: seq<real>)
    ensures |r| == |docs|
  {
    seq(|docs|, d requires 0 <= d < |docs| => TermScore(docs, term, d, ln))
  }

  lemma ScoresAfter(docs: seq<Tokens>, terms: seq<string>, i: nat, ln: real -> real, before: seq<real>, after: seq<real>)
    requires i < |terms| && |before| == |after| == |docs|
    requires forall d :: 0 <= d < |docs| ==> before[d] == Score(docs, terms, i, d, ln)
    requires forall d :: 0 <= d < |docs| ==> after[d] == before[d] + TermScores(docs, terms[i], ln)[d]
    ensures forall d :: 0 <= d < |docs| ==> after[d] == Score(docs, terms, i + 1, d, ln)
  {
  }

  lemma AbsentTerm(docs: seq<Tokens>, term: string, ln: real -> real)
    requires DocsWith(docs, |docs|, term) == 0
    ensures forall d :: 0 <= d < |docs| ==> TermScores(docs, term, ln)[d] == 0.0
  {
  }

  method AddTerm(index: Index, ghost chunks: seq<Chunk>, ghost docs: seq<Tokens>,
                 term: string, ln: real -> real, scores: array<real>)
    requires IsIndex(index, chunks, docs) && scores.Length == |docs|
    modifies scores
    ensures forall d :: 0 <= d < |docs| ==> scores[d] == old(scores[d]) + TermScores(docs, term, ln)[d]
  {
    ghost var parts := TermScores(docs, term, ln);
    if term !in index.termDocFreq {
      AbsentTerm(docs, term, ln);
      return;
    }
    var n, df := |index.chunks|, index.termDocFreq[term];
    var d := 0;
    while d < n
      invariant 0 <= d <= n
      invariant forall e :: 0 <= e < d ==> scores[e] == old(scores[e]) + parts[e]
      invariant forall e :: d <= e < n ==> scores[e] == old(scores[e])
    {
      var part := TermPart(index, chunks, docs, term, df, d, ln);
      scores[d] := scores[d] + part;
      d := d + 1;
    }
  }

  method Retrieve(index: Index, ghost chunks: seq<Chunk>, ghost docs: seq<Tokens>,
                  query: Tokens, k: int, ln: real -> real, compare: Collation)
    returns (answer: seq<Ranked>)
    requires IsIndex(index, chunks, docs)
    ensures answer == if query == [] then []
                      else FirstOf(SortedBy(Rankings(chunks, docs, query, ln), RanksBefore(compare)), k)
  {
    var n := |index.chunks|;
    if n == 0 {
      assert Rankings(chunks, docs, query, ln) == [];
      return [];
    }
    if query == [] {
      return [];
    }
    var terms := Distinct(query);
    var scores := new real[n](_ => 0.0);
    var i := 0;
    while i < |terms|
      invariant 0 <= i <= |terms|
      invariant forall d :: 0 <= d < n ==> scores[d] == Score(docs, terms, i, d, ln)
    {
      ghost var before := scores[..];
      AddTerm(index, chunks, docs, terms[i], ln, scores);
      ScoresAfter(docs, terms, i, ln, before, scores[..]);
      i := i + 1;
    }
    var ranked := [];
    var d := 0;
    while d < n
      invariant 0 <= d <= n
      invariant ranked == Rankings(chunks, docs, query, ln)[..d]
    {
      ranked := ranked + [Ranked(index.chunks[d], scores[d])];
      d := d + 1;
    }
    assert ranked == Rankings(chunks, docs, query, ln);
    answer := FirstOf(SortedBy(ranked, RanksBefore(compare)), k);
  }

  /**
   For `k >= 0` the answer to a query with terms is the first `k` of a sorted arrangement of
   all the scored chunks, or all of it; and nothing left out ranks before anything in it.
   */
  lemma AnswerIsBest(chunks: seq<Chunk>, docs: seq<Tokens>, query: Tokens, k: nat, ln: real -> real, compare: Collation)
    requires |docs| == |chunks| && IsCollation(compare)
    ensures var all := Rankings(chunks, docs, query, ln);
            var best := SortedBy(all, RanksBefore(compare));
            && multiset(best) == multiset(all) && |best| == |chunks|
            && |FirstOf(best, k)| == (if k < |chunks| then k else |chunks|)
            && FirstOf(best, k) <= best
            && forall i, j :: 0 <= i < |FirstOf(best, k)| <= j < |best| ==> RanksBefore(compare)(best[i], best[j])
  {
    var all := Rankings(chunks, docs, query, ln);
    RanksBeforeIsTotalPreorder(compare);
    SortedByIsSorted(all, RanksBefore(compare));
    var best := SortedBy(all, RanksBefore(compare));
    assert |multiset(best)| == |best| && |multiset(all)| == |all|;
  }

  /** Better scores come first; ties are ordered by file and then by line. */
  lemma BestComeFirst(chunks: seq<Chunk>, docs: seq<Tokens>, query: Tokens, ln: real -> real, compare: Collation,
                      i: nat, j: nat)
    requires |docs| == |chunks| && IsCollation(compare)
    requires i < j < |SortedBy(Rankings(chunks, docs, query, ln), RanksBefore(compare))|
    ensures var best := SortedBy(Rankings(chunks, docs, query, ln), RanksBefore(compare));
            var a, b := best[i], best[j];
            && a.score >= b.score
            && (a.score == b.score ==> compare(a.chunk.file, b.chunk.file) <= 0)
            && (a.score == b.score && compare(a.chunk.file, b.chunk.file) == 0 ==>
                  a.chunk.startLine <= b.chunk.startLine)
  {
    RanksBeforeIsTotalPreorder(compare);
    SortedByIsSorted(Rankings(chunks, docs, query, ln), RanksBefore(compare));
    var best := SortedBy(Rankings(chunks, docs, query, ln), RanksBefore(compare));
    assert RanksBefore(compare)(best[i], best[j]);
  }

  /**
   When no two chunks share a file and a first line, the order is the only sorted one: it
   depends neither on the sorting algorithm nor on the order the chunks were indexed in.
   */
  lemma AnswerIsUnique(chunks: seq<Chunk>, docs: seq<Tokens>, query: Tokens, ln: real -> real, compare: Collation,
                       other: seq<Ranked>)
    requires |docs| == |chunks| && IsCollation(compare)
    requires forall i, j :: 0 <= i < j < |chunks| ==>
               compare(chunks[i].file, chunks[j].file) != 0 || chunks[i].startLine != chunks[j].startLine
    requires multiset(other) == multiset(Rankings(chunks, docs, query, ln)) && IsSorted(other, RanksBefore(compare))
    ensures other == SortedBy(Rankings(chunks, docs, query, ln), RanksBefore(compare))
  {
    var all, le := Rankings(chunks, docs, query, ln), RanksBefore(compare);
    RanksBeforeIsTotalPreorder(compare);
    SortedByIsSorted(all, le);
    forall x, y | x in multiset(all) && y in multiset(all) && le(x, y) && le(y, x)
      ensures x == y
    {
      var i :| 0 <= i < |all| && all[i] == x;
      var j :| 0 <= j < |all| && all[j] == y;
      assert compare(chunks[i].file, chunks[j].file) == 0 && compare(chunks[j].file, chunks[i].file) == 0;
    }
    SortedIsUnique(other, SortedBy(all, le), le);
  }

  /** Chunks that tie in score, file and line are answered in the order they were indexed in. */
  lemma TiesKeepIndexOrder(chunks: seq<Chunk>, docs: seq<Tokens>, query: Tokens, ln: real -> real, compare: Collation,
                           c: Ranked)
    requires |docs| == |chunks| && IsCollation(compare)
    ensures var all, le := Rankings(chunks, docs, query, ln), RanksBefore(compare);
            Ties(SortedBy(all, le), c, le) == Ties(all, c, le)
  {
    RanksBeforeIsTotalPreorder(compare);
    SortedByIsStable(Rankings(chunks, docs, query, ln), c, RanksBefore(compare));
  }
}
