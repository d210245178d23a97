/** Paragraphs by their line numbers: the maximal runs of lines that are not blank. */
module TextRuns {

  /** The lines `start <= i < end`, counted from 0. */
  datatype Run = Run(start: nat, end: nat)

  /** Where the run of text lines that ends before line `n` starts; `n` if there is none. */
  function RunStart(blank: seq<bool>, n: nat): (r: nat)
    requires n <= |blank|
    ensures r <= n
    ensures forall i :: r <= i < n ==> !blank[i]
    ensures r > 0 ==> blank[r - 1]
  {
    if n == 0 || blank[n - 1] then n else RunStart(blank, n - 1)
  }

  function OpenRun(blank: seq<bool>, n: nat): seq<Run>
    requires n <= |blank|
  {
    if RunStart(blank, n) < n then [Run(RunStart(blank, n), n)] else []
  }

  /** The runs ended by a blank line among the first `n` lines. */
  function EndedRuns(blank: seq<bool>, n: nat): seq<Run>
    requires n <= |blank|
  {
    if n == 0 then []
    else if blank[n - 1] then EndedRuns(blank, n - 1) + OpenRun(blank, n - 1)
    else EndedRuns(blank, n - 1)
  }

  function Runs(blank: seq<bool>): seq<Run> {
    EndedRuns(blank, |blank|) + OpenRun(blank, |blank|)
  }

  ghost predicate IsMaximal(blank: seq<bool>, r: Run) {
    && r.start < r.end <= |blank|
    && (forall i :: r.start <= i < r.end ==> !blank[i])
    && (r.start > 0 ==> blank[r.start - 1])
    && (r.end < |blank| ==> blank[r.end])
  }

  ghost predicate InOrder(runs: seq<Run>) {
    forall i, j :: 0 <= i < j < |runs| ==> runs[i].end < runs[j].start
  }

  lemma {:induction false} EndedRunsAreMaximal(blank: seq<bool>, n: nat)
    requires n <= |blank|
    ensures forall r :: r in EndedRuns(blank, n) ==> IsMaximal(blank, r) && r.end < RunStart(blank, n)
  {
    if n > 0 {
      EndedRunsAreMaximal(blank, n - 1);
    }
  }

  lemma StillInOrder(runs: seq<Run>, next: seq<Run>)
    requires InOrder(runs) && |next| <= 1
    requires forall r :: r in runs ==> forall o :: o in next ==> r.end < o.start
    ensures InOrder(runs + next)
  {
    assert forall i :: 0 <= i < |runs| ==> runs[i] in runs;
  }

  lemma {:induction false} EndedRunsInOrder(blank: seq<bool>, n: nat)
    requires n <= |blank|
    ensures InOrder(EndedRuns(blank, n)) && InOrder(EndedRuns(blank, n) + OpenRun(blank, n))
  {
    if n > 0 {
      EndedRunsInOrder(blank, n - 1);
    }
    EndedRunsAreMaximal(blank, n);
    StillInOrder(EndedRuns(blank, n), OpenRun(blank, n));
  }

  lemma RunsAreMaximal(blank: seq<bool>)
    ensures forall r :: r in Runs(blank) ==> IsMaximal(blank, r)
    ensures InOrder(Runs(blank))
  {
    EndedRunsAreMaximal(blank, |blank|);
    EndedRunsInOrder(blank, |blank|);
  }

  lemma {:induction false} EndedRunsCover(blank: seq<bool>, n: nat, i: nat)
    requires n <= |blank| && i < RunStart(blank, n) && !blank[i]
    ensures exists r :: r in EndedRuns(blank, n) && r.start <= i < r.end
  {
    if !blank[n - 1] || i < RunStart(blank, n - 1) {
      EndedRunsCover(blank, n - 1, i);
      var r :| r in EndedRuns(blank, n - 1) && r.start <= i < r.end;
      assert r in EndedRuns(blank, n);
    } else {
      assert Run(RunStart(blank, n - 1), n - 1) in EndedRuns(blank, n);
    }
  }

  /** Every line with text is in some run. */
  lemma RunsCover(blank: seq<bool>, i: nat)
    requires i < |blank| && !blank[i]
    ensures exists r :: r in Runs(blank) && r.start <= i < r.end
  {
    var n := |blank|;
    if i < RunStart(blank, n) {
      EndedRunsCover(blank, n, i);
      var r :| r in EndedRuns(blank, n) && r.start <= i < r.end;
      assert r in Runs(blank);
    } else {
      assert Run(RunStart(blank, n), n) in Runs(blank);
    }
  }
}
