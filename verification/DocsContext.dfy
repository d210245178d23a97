/** The drafter's context: the ranked chunks that fit a budget of words. */
module DocsContext {
  import opened Strings
  import opened DocChunks
  import opened StableSort
  import opened Ranking

  datatype ContextChunk = ContextChunk(
    file: string,
    headingPath: seq<string>,
    startLine: nat,
    endLine: nat,
    text: string,
    score: real,
    provenance: string
  )

  function ProvenanceLine(c: Chunk): string {
    var breadcrumb := if |c.headingPath| > 0 then " > " + Join(c.headingPath, " > ") else "";
    c.file + breadcrumb + " (lines " + NatText(c.startLine) + "-" + NatText(c.endLine) + ")"
  }

  function ToContext(r: Ranked): ContextChunk {
    ContextChunk(r.chunk.file, r.chunk.headingPath, r.chunk.startLine, r.chunk.endLine,
                 r.chunk.text, r.score, ProvenanceLine(r.chunk))
  }

  // ---- selections -------------------------------------------------------------------------

  /** Which of the ranked chunks are taken. */
  type Selection = seq<bool>

  /** The words of the first `n` chunks that are taken. */
  function Words(ranked: seq<Ranked>, taken: Selection, n: nat): nat
    requires n <= |ranked| == |taken|
  {
    if n == 0 then 0 else Words(ranked, taken, n - 1) + if taken[n - 1] then ranked[n - 1].chunk.words else 0
  }

  function Taken(ranked: seq<Ranked>, taken: Selection, n: nat): seq<ContextChunk>
    requires n <= |ranked| == |taken|
  {
    if n == 0 then []
    else Taken(ranked, taken, n - 1) + if taken[n - 1] then [ToContext(ranked[n - 1])] else []
  }

  /** Each chunk is taken exactly when it still fits behind the ones taken before it. */
  ghost predicate IsGreedy(ranked: seq<Ranked>, taken: Selection, budget: int) {
    && |taken| == |ranked|
    && forall i :: 0 <= i < |ranked| ==> (taken[i] <==> Words(ranked, taken, i) + ranked[i].chunk.words <= budget)
  }

  lemma {:induction false} WordsOfPrefix(ranked: seq<Ranked>, a: Selection, b: Selection, n: nat)
    requires n <= |ranked| == |a| == |b|
    requires forall i :: 0 <= i < n ==> a[i] == b[i]
    ensures Words(ranked, a, n) == Words(ranked, b, n)
    ensures Taken(ranked, a, n) == Taken(ranked, b, n)
  {
    if n > 0 {
      WordsOfPrefix(ranked, a, b, n - 1);
    }
  }

  lemma {:induction false} WordsGrow(ranked: seq<Ranked>, taken: Selection, m: nat, n: nat)
    requires m <= n <= |ranked| == |taken|
    ensures Words(ranked, taken, m) <= Words(ranked, taken, n)
  {
    if m < n {
      WordsGrow(ranked, taken, m, n - 1);
    }
  }

  // ---- the loop ---------------------------------------------------------------------------

  /** The loop has decided on the first `n` chunks as greedy would. */
  ghost predicate Decided(ranked: seq<Ranked>, taken: Selection, budget: int, n: nat)
    requires n <= |ranked| == |taken|
  {
    n == 0 ||
    (Decided(ranked, taken, budget, n - 1) &&
     (taken[n - 1] <==> Words(ranked, taken, n - 1) + ranked[n - 1].chunk.words <= budget))
  }

  lemma {:induction false} DecidedAt(ranked: seq<Ranked>, taken: Selection, budget: int, n: nat, i: nat)
    requires i < n <= |ranked| == |taken| && Decided(ranked, taken, budget, n)
    ensures taken[i] <==> Words(ranked, taken, i) + ranked[i].chunk.words <= budget
  {
    if i < n - 1 {
      DecidedAt(ranked, taken, budget, n - 1, i);
    }
  }

  lemma {:induction false} DecidedPrefix(ranked: seq<Ranked>, a: Selection, b: Selection, budget: int, n: nat)
    requires n <= |ranked| == |a| == |b| && Decided(ranked, a, budget, n)
    requires forall i :: 0 <= i < n ==> a[i] == b[i]
    ensures Decided(ranked, b, budget, n)
  {
    if n > 0 {
      DecidedPrefix(ranked, a, b, budget, n - 1);
      WordsOfPrefix(ranked, a, b, n - 1);
    }
  }

  lemma DecideNext(ranked: seq<Ranked>, taken: Selection, budget: int, n: nat, fits: bool)
    requires n < |ranked| == |taken| && Decided(ranked, taken, budget, n)
    requires fits <==> Words(ranked, taken, n) + ranked[n].chunk.words <= budget
    ensures Decided(ranked, taken[n := fits], budget, n + 1)
    ensures Words(ranked, taken[n := fits], n) == Words(ranked, taken, n)
    ensures Taken(ranked, taken[n := fits], n) == Taken(ranked, taken, n)
  {
    DecidedPrefix(ranked, taken, taken[n := fits], budget, n);
    WordsOfPrefix(ranked, taken, taken[n := fits], n);
  }

  /** The variables of the loop after `n` chunks. */
  ghost predicate Selecting(ranked: seq<Ranked>, taken: Selection, budget: int, n: nat,
                            chunks: seq<ContextChunk>, total: nat)
    requires n <= |ranked|
  {
    && |taken| == |ranked| && Decided(ranked, taken, budget, n)
    && chunks == Taken(ranked, taken, n) && total == Words(ranked, taken, n)
  }

  lemma SelectNext(ranked: seq<Ranked>, taken: Selection, budget: int, n: nat,
                   chunks: seq<ContextChunk>, total: nat, fits: bool)
    requires n < |ranked| && Selecting(ranked, taken, budget, n, chunks, total)
    requires fits <==> total + ranked[n].chunk.words <= budget
    ensures Selecting(ranked, taken[n := fits], budget, n + 1,
                      chunks + (if fits then [ToContext(ranked[n])] else []),
                      total + if fits then ranked[n].chunk.words else 0)
  {
    DecideNext(ranked, taken, budget, n, fits);
  }

  /** The chunks and the words of the greedy selection. */
  ghost predicate IsSelection(ranked: seq<Ranked>, budget: int, chunks: seq<ContextChunk>, total: nat) {
    exists taken ::
      && IsGreedy(ranked, taken, budget)
      && chunks == Taken(ranked, taken, |ranked|) && total == Words(ranked, taken, |ranked|)
  }

  lemma SelectEnds(ranked: seq<Ranked>, taken: Selection, budget: int, chunks: seq<ContextChunk>, total: nat)
    requires Selecting(ranked, taken, budget, |ranked|, chunks, total)
    ensures IsSelection(ranked, budget, chunks, total)
  {
    forall i | 0 <= i < |ranked|
      ensures taken[i] <==> Words(ranked, taken, i) + ranked[i].chunk.words <= budget
    {
      DecidedAt(ranked, taken, budget, |ranked|, i);
    }
    assert IsGreedy(ranked, taken, budget);
  }

  method SelectWithin(ranked: seq<Ranked>, budgetWords: int)
    returns (chunks: seq<ContextChunk>, totalWords: nat)
    ensures IsSelection(ranked, budgetWords, chunks, totalWords)
  {
    chunks, totalWords := [], 0;
    ghost var taken := seq(|ranked|, _ => false);
    var i := 0;
    while i < |ranked|
      invariant 0 <= i <= |ranked|
      invariant Selecting(ranked, taken, budgetWords, i, chunks, totalWords)
    {
      var r := ranked[i];
      var fits := totalWords + r.chunk.words <= budgetWords;
      SelectNext(ranked, taken, budgetWords, i, chunks, totalWords, fits);
      taken := taken[i := fits];
      if fits {
        chunks := chunks + [ToContext(r)];
        totalWords := totalWords + r.chunk.words;
      }
      i := i + 1;
    }
    SelectEnds(ranked, taken, budgetWords, chunks, totalWords);
  }

  // ---- what greedy means ------------------------------------------------------------------

  lemma NextWithinBudget(ranked: seq<Ranked>, taken: Selection, budget: nat, n: nat)
    requires IsGreedy(ranked, taken, budget) && n < |ranked| && Words(ranked, taken, n) <= budget
    ensures Words(ranked, taken, n + 1) <= budget
  {
    assert taken[n] ==> Words(ranked, taken, n) + ranked[n].chunk.words <= budget;
  }

  /** The selection stays within a budget that is not negative. */
  lemma {:induction false} WithinBudget(ranked: seq<Ranked>, taken: Selection, budget: nat, n: nat)
    requires IsGreedy(ranked, taken, budget) && n <= |ranked|
    ensures Words(ranked, taken, n) <= budget
  {
    if n > 0 {
      WithinBudget(ranked, taken, budget, n - 1);
      NextWithinBudget(ranked, taken, budget, n - 1);
    }
  }

  /** No chunk that was passed over could still be added to the whole selection. */
  lemma NothingMoreFits(ranked: seq<Ranked>, taken: Selection, budget: int, i: nat)
    requires IsGreedy(ranked, taken, budget) && i < |ranked| && !taken[i]
    ensures Words(ranked, taken, |ranked|) + ranked[i].chunk.words > budget
  {
    WordsGrow(ranked, taken, i, |ranked|);
  }

  /** `a` is `b`, or takes the first chunk on which they differ. */
  ghost predicate AtLeast(a: Selection, b: Selection)
    requires |a| == |b|
  {
    a == b || exists i :: 0 <= i < |a| && a[i] && !b[i] && forall k :: 0 <= k < i ==> a[k] == b[k]
  }

  /** Among all selections within the budget, greedy is the greatest in rank order. */
  lemma GreedyIsGreatest(ranked: seq<Ranked>, taken: Selection, budget: int, other: Selection)
    requires IsGreedy(ranked, taken, budget)
    requires |other| == |ranked| && Words(ranked, other, |ranked|) <= budget
    ensures AtLeast(taken, other)
  {
    if taken != other {
      var i := FirstDifference(taken, other);
      WordsOfPrefix(ranked, taken, other, i);
      WordsGrow(ranked, other, i + 1, |ranked|);
      assert taken[i];
    }
  }

  lemma FirstDifference(a: Selection, b: Selection) returns (i: nat)
    requires |a| == |b| && a != b
    ensures i < |a| && a[i] != b[i] && forall k :: 0 <= k < i ==> a[k] == b[k]
  {
    i := 0;
    while i < |a| && a[i] == b[i]
      invariant i <= |a| && forall k :: 0 <= k < i ==> a[k] == b[k]
    {
      i := i + 1;
    }
  }

  // ---- the whole call ---------------------------------------------------------------------

  /** All chunks in rank order, or none when the query has no terms. */
  function RankedFor(chunks: seq<Chunk>, docs: seq<Tokens>, query: Tokens, ln: real -> real, compare: Collation)
    : seq<Ranked>
    requires |docs| == |chunks|
  {
    if query == [] then [] else SortedBy(Rankings(chunks, docs, query, ln), RanksBefore(compare))
  }

  /** Nothing for a budget that is not positive, else the greedy selection. */
  ghost predicate IsContext(ranked: seq<Ranked>, budget: int, chunks: seq<ContextChunk>, total: nat) {
    if budget <= 0 then chunks == [] && total == 0 else IsSelection(ranked, budget, chunks, total)
  }

  lemma {:induction false} LengthOfInserted<T>(x: T, s: seq<T>, le: (T, T) -> bool)
    ensures |Inserted(x, s, le)| == |s| + 1
  {
    if s != [] && !le(x, s[0]) {
      LengthOfInserted(x, s[1..], le);
    }
  }

  lemma {:induction false} LengthOfSorted<T>(s: seq<T>, le: (T, T) -> bool)
    ensures |SortedBy(s, le)| == |s|
  {
    if s != [] {
      LengthOfSorted(s[1..], le);
      LengthOfInserted(s[0], SortedBy(s[1..], le), le);
    }
  }

  method ContextForPrompt(indexed: seq<Chunk>, docs: seq<Tokens>, query: Tokens, budgetWords: int,
                          ln: real -> real, compare: Collation)
    returns (chunks: seq<ContextChunk>, totalWords: nat)
    requires |docs| == |indexed|
    ensures IsContext(RankedFor(indexed, docs, query, ln, compare), budgetWords, chunks, totalWords)
  {
    if |indexed| == 0 || budgetWords <= 0 {
      LengthOfSorted(Rankings(indexed, docs, query, ln), RanksBefore(compare));
      ghost var ranked := RankedFor(indexed, docs, query, ln, compare);
      assert budgetWords > 0 ==> ranked == [] && IsGreedy(ranked, [], budgetWords);
      return [], 0;
    }
    var index := BuildIndex(indexed, docs);
    var ranked := Retrieve(index, indexed, docs, query, |indexed|, ln, compare);
    LengthOfSorted(Rankings(indexed, docs, query, ln), RanksBefore(compare));
    assert ranked == RankedFor(indexed, docs, query, ln, compare);
    chunks, totalWords := SelectWithin(ranked, budgetWords);
  }
}
