/** The list of recently clamped repos: at most ten, most recent first. */
module RecentBenches {
  import opened Wrappers

  datatype Entry = Entry(
    repoRoot: string,
    clampedAt: string,
    lastUsedTargetUrl: Option<string>,
    docsFolder: Option<string>
  )

  /** The fields a bench learns after its clamp; None leaves the entry's own. */
  datatype Patch = Patch(lastUsedTargetUrl: Option<string>, docsFolder: Option<string>)

  const MAX_RECENT := 10

  function First<T>(n: nat, s: seq<T>): seq<T> {
    if |s| <= n then s else s[..n]
  }

  predicate Has(list: seq<Entry>, repoRoot: string) {
    exists i :: 0 <= i < |list| && list[i].repoRoot == repoRoot
  }

  function Without(list: seq<Entry>, repoRoot: string): seq<Entry> {
    if list == [] then []
    else (if list[0].repoRoot == repoRoot then [] else [list[0]]) + Without(list[1..], repoRoot)
  }

  function PatchedEntry(e: Entry, patch: Patch): Entry {
    e.(lastUsedTargetUrl := if patch.lastUsedTargetUrl.Some? then patch.lastUsedTargetUrl else e.lastUsedTargetUrl,
       docsFolder := if patch.docsFolder.Some? then patch.docsFolder else e.docsFolder)
  }

  function Patched(list: seq<Entry>, repoRoot: string, patch: Patch): (r: seq<Entry>)
    ensures |r| == |list|
    ensures forall i :: 0 <= i < |list| ==>
              r[i] == if list[i].repoRoot == repoRoot then PatchedEntry(list[i], patch) else list[i]
  {
    seq(|list|, i requires 0 <= i < |list| =>
      if list[i].repoRoot == repoRoot then PatchedEntry(list[i], patch) else list[i])
  }

  // ---- the file ---------------------------------------------------------------------------

  datatype Call = Record(entry: Entry) | Update(repoRoot: string, patch: Patch)

  function AfterCall(file: seq<Entry>, call: Call): seq<Entry> {
    match call
    case Record(entry) => First(MAX_RECENT, [entry] + Without(file, entry.repoRoot))
    case Update(repoRoot, patch) => if Has(file, repoRoot) then Patched(file, repoRoot, patch) else file
  }

  function FileAfter(calls: seq<Call>, n: nat): seq<Entry>
    requires n <= |calls|
  {
    if n == 0 then [] else AfterCall(FileAfter(calls, n - 1), calls[n - 1])
  }

  lemma WithoutFrom(all: seq<Entry>, others: seq<Entry>, list: seq<Entry>, i: nat, repoRoot: string)
    requires i < |list| && all == others + Without(list[i..], repoRoot)
    ensures all == others + (if list[i].repoRoot == repoRoot then [] else [list[i]]) + Without(list[i + 1..], repoRoot)
  {
    assert list[i..][0] == list[i] && list[i..][1..] == list[i + 1..];
  }

  /** The file is the state: every call reads all of it and overwrites all of it. */
  class RecentFile {
    var entries: seq<Entry>

    constructor ()
      ensures entries == []
    {
      entries := [];
    }

    method RecordRecentBench(entry: Entry) returns (next: seq<Entry>)
      modifies this
      ensures next == entries == AfterCall(old(entries), Record(entry))
    {
      var existing := entries;
      var others := [];
      ghost var all := Without(existing, entry.repoRoot);
      assert existing[0..] == existing;
      var i := 0;
      while i < |existing|
        invariant 0 <= i <= |existing|
        invariant all == others + Without(existing[i..], entry.repoRoot)
      {
        WithoutFrom(all, others, existing, i, entry.repoRoot);
        if existing[i].repoRoot != entry.repoRoot {
          others := others + [existing[i]];
        }
        i := i + 1;
      }
      assert existing[i..] == [] && others == all;
      next := First(MAX_RECENT, [entry] + others);
      entries := next;
    }

    method UpdateRecentBench(repoRoot: string, patch: Patch) returns (next: seq<Entry>)
      modifies this
      ensures next == entries == AfterCall(old(entries), Update(repoRoot, patch))
    {
      if !Has(entries, repoRoot) {
        return entries;
      }
      next := Patched(entries, repoRoot, patch);
      entries := next;
    }
  }

  // ---- the untruncated history ------------------------------------------------------------

  function HistoryAfter(calls: seq<Call>, n: nat): seq<Entry>
    requires n <= |calls|
  {
    if n == 0 then []
    else
      var before := HistoryAfter(calls, n - 1);
      match calls[n - 1]
      case Record(entry) => [entry] + Without(before, entry.repoRoot)
      case Update(repoRoot, patch) => Patched(before, repoRoot, patch)
  }

  ghost predicate IsDistinct(list: seq<Entry>) {
    forall i, j :: 0 <= i < j < |list| ==> list[i].repoRoot != list[j].repoRoot
  }

  lemma {:induction false} WithoutAbsent(list: seq<Entry>, repoRoot: string)
    requires forall i :: 0 <= i < |list| ==> list[i].repoRoot != repoRoot
    ensures Without(list, repoRoot) == list
  {
    if list != [] {
      WithoutAbsent(list[1..], repoRoot);
    }
  }

  lemma {:induction false} WithoutIsDistinct(list: seq<Entry>, repoRoot: string)
    requires IsDistinct(list)
    ensures IsDistinct(Without(list, repoRoot))
    ensures forall e :: e in Without(list, repoRoot) <==> e in list && e.repoRoot != repoRoot
  {
    if list != [] {
      WithoutIsDistinct(list[1..], repoRoot);
      assert list == [list[0]] + list[1..];
      var rest := Without(list[1..], repoRoot);
      assert forall i :: 0 <= i < |rest| ==> rest[i] in list[1..];
    }
  }

  lemma DistinctFront(entry: Entry, before: seq<Entry>)
    requires IsDistinct(before)
    ensures IsDistinct([entry] + Without(before, entry.repoRoot))
  {
    var rest := Without(before, entry.repoRoot);
    WithoutIsDistinct(before, entry.repoRoot);
    assert forall i :: 0 <= i < |rest| ==> rest[i] in rest;
  }

  lemma {:induction false} HistoryIsDistinct(calls: seq<Call>, n: nat)
    requires n <= |calls|
    ensures IsDistinct(HistoryAfter(calls, n))
  {
    if n > 0 {
      HistoryIsDistinct(calls, n - 1);
      if calls[n - 1].Record? {
        DistinctFront(calls[n - 1].entry, HistoryAfter(calls, n - 1));
      }
    }
  }

  /** Taking one entry out of a list without duplicates needs only one entry more. */
  lemma {:induction false} TruncateFirst(m: nat, list: seq<Entry>, repoRoot: string)
    requires IsDistinct(list)
    ensures First(m, Without(First(m + 1, list), repoRoot)) == First(m, Without(list, repoRoot))
    decreases |list|
  {
    if |list| > m + 1 {
      var tail := list[1..];
      assert list[..m + 1][1..] == tail[..m];
      if list[0].repoRoot == repoRoot {
        WithoutAbsent(tail, repoRoot);
        WithoutAbsent(tail[..m], repoRoot);
      } else if m > 0 {
        TruncateFirst(m - 1, tail, repoRoot);
        FirstOfMore(m - 1, list[0], Without(tail[..m], repoRoot));
        FirstOfMore(m - 1, list[0], Without(tail, repoRoot));
      }
    }
  }

  lemma FirstOfMore<T>(m: nat, x: T, s: seq<T>)
    ensures First(m + 1, [x] + s) == [x] + First(m, s)
  {
  }

  lemma RecordTruncated(before: seq<Entry>, entry: Entry)
    requires IsDistinct(before)
    ensures AfterCall(First(MAX_RECENT, before), Record(entry)) ==
            First(MAX_RECENT, [entry] + Without(before, entry.repoRoot))
  {
    var file := First(MAX_RECENT, before);
    TruncateFirst(MAX_RECENT - 1, before, entry.repoRoot);
    FirstOfMore(MAX_RECENT - 1, entry, Without(before, entry.repoRoot));
    FirstOfMore(MAX_RECENT - 1, entry, Without(file, entry.repoRoot));
  }

  lemma UpdateTruncated(before: seq<Entry>, repoRoot: string, patch: Patch)
    ensures AfterCall(First(MAX_RECENT, before), Update(repoRoot, patch)) ==
            First(MAX_RECENT, Patched(before, repoRoot, patch))
  {
    var file := First(MAX_RECENT, before);
    assert Patched(file, repoRoot, patch) == First(MAX_RECENT, Patched(before, repoRoot, patch));
    if !Has(file, repoRoot) {
      assert Patched(file, repoRoot, patch) == file;
    }
  }

  /**
   Truncating at every call loses nothing: the file is the first ten entries of the history
   that never forgets, entry for entry.
   */
  lemma {:induction false} FileIsRecentHistory(calls: seq<Call>, n: nat)
    requires n <= |calls|
    ensures FileAfter(calls, n) == First(MAX_RECENT, HistoryAfter(calls, n))
  {
    if n > 0 {
      FileIsRecentHistory(calls, n - 1);
      HistoryIsDistinct(calls, n - 1);
      match calls[n - 1]
      case Record(entry) => RecordTruncated(HistoryAfter(calls, n - 1), entry);
      case Update(repoRoot, patch) => UpdateTruncated(HistoryAfter(calls, n - 1), repoRoot, patch);
    }
  }

  // ---- what the history is ----------------------------------------------------------------

  /** The last of the first `n` calls that recorded this repo, counted from 1; 0 if none did. */
  function LastRecorded(calls: seq<Call>, n: nat, repoRoot: string): (r: nat)
    requires n <= |calls|
    ensures r <= n
  {
    if n == 0 then 0
    else if calls[n - 1].Record? && calls[n - 1].entry.repoRoot == repoRoot then n
    else LastRecorded(calls, n - 1, repoRoot)
  }

  /** The entry last recorded for a repo, with the updates made since. */
  function LatestEntry(calls: seq<Call>, n: nat, repoRoot: string): (r: Entry)
    requires n <= |calls| && LastRecorded(calls, n, repoRoot) > 0
    ensures r.repoRoot == repoRoot
  {
    match calls[n - 1]
    case Record(entry) => if entry.repoRoot == repoRoot then entry else LatestEntry(calls, n - 1, repoRoot)
    case Update(root, patch) =>
      var before := LatestEntry(calls, n - 1, repoRoot);
      if root == repoRoot then PatchedEntry(before, patch) else before
  }

  ghost predicate IsLatest(calls: seq<Call>, n: nat, e: Entry)
    requires n <= |calls|
  {
    LastRecorded(calls, n, e.repoRoot) > 0 && e == LatestEntry(calls, n, e.repoRoot)
  }

  lemma LatestAfterRecord(calls: seq<Call>, n: nat, before: seq<Entry>)
    requires n < |calls| && calls[n].Record? && IsDistinct(before)
    requires forall e :: e in before ==> IsLatest(calls, n, e)
    ensures forall e :: e in [calls[n].entry] + Without(before, calls[n].entry.repoRoot) ==> IsLatest(calls, n + 1, e)
  {
    WithoutIsDistinct(before, calls[n].entry.repoRoot);
  }

  lemma LatestAfterUpdate(calls: seq<Call>, n: nat, before: seq<Entry>)
    requires n < |calls| && calls[n].Update?
    requires forall e :: e in before ==> IsLatest(calls, n, e)
    ensures forall e :: e in Patched(before, calls[n].repoRoot, calls[n].patch) ==> IsLatest(calls, n + 1, e)
  {
    var after := Patched(before, calls[n].repoRoot, calls[n].patch);
    forall e | e in after
      ensures IsLatest(calls, n + 1, e)
    {
      var i :| 0 <= i < |after| && after[i] == e;
      assert before[i] in before && IsLatest(calls, n, before[i]);
    }
  }

  lemma {:induction false} HistoryHoldsLatest(calls: seq<Call>, n: nat)
    requires n <= |calls|
    ensures forall e :: e in HistoryAfter(calls, n) ==> IsLatest(calls, n, e)
  {
    if n > 0 {
      HistoryHoldsLatest(calls, n - 1);
      if calls[n - 1].Record? {
        HistoryIsDistinct(calls, n - 1);
        LatestAfterRecord(calls, n - 1, HistoryAfter(calls, n - 1));
      } else {
        LatestAfterUpdate(calls, n - 1, HistoryAfter(calls, n - 1));
      }
    }
  }

  lemma {:induction false} HistoryForgetsNothing(calls: seq<Call>, n: nat, repoRoot: string)
    requires n <= |calls| && LastRecorded(calls, n, repoRoot) > 0
    ensures LatestEntry(calls, n, repoRoot) in HistoryAfter(calls, n)
  {
    var before, after := HistoryAfter(calls, n - 1), HistoryAfter(calls, n);
    HistoryIsDistinct(calls, n - 1);
    match calls[n - 1]
    case Record(entry) =>
      if entry.repoRoot != repoRoot {
        HistoryForgetsNothing(calls, n - 1, repoRoot);
        WithoutIsDistinct(before, entry.repoRoot);
      }
    case Update(root, patch) =>
      HistoryForgetsNothing(calls, n - 1, repoRoot);
      var i :| 0 <= i < |before| && before[i] == LatestEntry(calls, n - 1, repoRoot);
      assert after[i] == LatestEntry(calls, n, repoRoot);
  }

  ghost predicate ByRecency(calls: seq<Call>, n: nat, list: seq<Entry>)
    requires n <= |calls|
  {
    forall i, j :: 0 <= i < j < |list| ==>
      LastRecorded(calls, n, list[i].repoRoot) > LastRecorded(calls, n, list[j].repoRoot)
  }

  lemma RecentFirst(calls: seq<Call>, n: nat, first: Entry, tail: seq<Entry>, rest: seq<Entry>)
    requires n <= |calls| && ByRecency(calls, n, [first] + tail) && ByRecency(calls, n, rest)
    requires forall e :: e in rest ==> e in tail
    ensures ByRecency(calls, n, [first] + rest)
  {
    var list := [first] + tail;
    forall i | 0 <= i < |rest|
      ensures LastRecorded(calls, n, first.repoRoot) > LastRecorded(calls, n, rest[i].repoRoot)
    {
      assert rest[i] in tail;
      var k :| 0 <= k < |tail| && tail[k] == rest[i];
      assert list[0] == first && list[k + 1] == rest[i];
    }
  }

  lemma RecentTail(calls: seq<Call>, n: nat, list: seq<Entry>)
    requires n <= |calls| && list != [] && ByRecency(calls, n, list)
    ensures ByRecency(calls, n, list[1..]) && list == [list[0]] + list[1..]
  {
  }

  lemma {:induction false} WithoutKeepsOrder(calls: seq<Call>, n: nat, list: seq<Entry>, repoRoot: string)
    requires n <= |calls| && ByRecency(calls, n, list)
    ensures ByRecency(calls, n, Without(list, repoRoot))
    ensures forall e :: e in Without(list, repoRoot) ==> e in list
  {
    if list != [] {
      RecentTail(calls, n, list);
      WithoutKeepsOrder(calls, n, list[1..], repoRoot);
      RecentFirst(calls, n, list[0], list[1..], Without(list[1..], repoRoot));
    }
  }

  lemma RecencyFront(calls: seq<Call>, n: nat, before: seq<Entry>)
    requires n < |calls| && calls[n].Record? && IsDistinct(before) && ByRecency(calls, n, before)
    ensures ByRecency(calls, n + 1, [calls[n].entry] + Without(before, calls[n].entry.repoRoot))
  {
    var rest := Without(before, calls[n].entry.repoRoot);
    WithoutIsDistinct(before, calls[n].entry.repoRoot);
    WithoutKeepsOrder(calls, n, before, calls[n].entry.repoRoot);
    assert forall i :: 0 <= i < |rest| ==> rest[i] in rest;
  }

  lemma RecencyPatched(calls: seq<Call>, n: nat, before: seq<Entry>)
    requires n < |calls| && calls[n].Update? && ByRecency(calls, n, before)
    ensures ByRecency(calls, n + 1, Patched(before, calls[n].repoRoot, calls[n].patch))
  {
  }

  lemma RecencyNext(calls: seq<Call>, n: nat)
    requires n < |calls| && ByRecency(calls, n, HistoryAfter(calls, n))
    ensures ByRecency(calls, n + 1, HistoryAfter(calls, n + 1))
  {
    if calls[n].Record? {
      HistoryIsDistinct(calls, n);
      RecencyFront(calls, n, HistoryAfter(calls, n));
    } else {
      RecencyPatched(calls, n, HistoryAfter(calls, n));
    }
  }

  /** The history lists every repo ever recorded once, the most recently recorded first. */
  lemma {:induction false} HistoryIsByRecency(calls: seq<Call>, n: nat)
    requires n <= |calls|
    ensures ByRecency(calls, n, HistoryAfter(calls, n))
  {
    if n > 0 {
      HistoryIsByRecency(calls, n - 1);
      RecencyNext(calls, n - 1);
    }
  }

  /**
   What the file holds after any calls: at most ten repos, each once and with its latest
   entry, the most recently recorded first.
   */
  lemma FileHoldsLatest(calls: seq<Call>, n: nat)
    requires n <= |calls|
    ensures |FileAfter(calls, n)| <= MAX_RECENT
    ensures IsDistinct(FileAfter(calls, n)) && ByRecency(calls, n, FileAfter(calls, n))
    ensures forall e :: e in FileAfter(calls, n) ==> IsLatest(calls, n, e)
  {
    FileIsRecentHistory(calls, n);
    HistoryIsDistinct(calls, n);
    HistoryIsByRecency(calls, n);
    HistoryHoldsLatest(calls, n);
  }

  /** A recorded repo is missing only from a full file of repos recorded more recently. */
  lemma NoneLeftOut(calls: seq<Call>, n: nat, repoRoot: string)
    requires n <= |calls| && LastRecorded(calls, n, repoRoot) > 0 && !Has(FileAfter(calls, n), repoRoot)
    ensures |FileAfter(calls, n)| == MAX_RECENT
    ensures forall e :: e in FileAfter(calls, n) ==>
              LastRecorded(calls, n, e.repoRoot) > LastRecorded(calls, n, repoRoot)
  {
    var file, history := FileAfter(calls, n), HistoryAfter(calls, n);
    FileIsRecentHistory(calls, n);
    HistoryIsByRecency(calls, n);
    HistoryForgetsNothing(calls, n, repoRoot);
    var k :| 0 <= k < |history| && history[k] == LatestEntry(calls, n, repoRoot);
    assert forall i :: 0 <= i < |file| ==> file[i] == history[i] && history[i].repoRoot != repoRoot;
  }

  /** The same repos, in the same order, clamped at the same times. */
  ghost predicate SameOrder(a: seq<Entry>, b: seq<Entry>) {
    && |a| == |b|
    && forall i :: 0 <= i < |a| ==> a[i].repoRoot == b[i].repoRoot && a[i].clampedAt == b[i].clampedAt
  }

  /** However many updates come between two clamps, they keep the repos and their order. */
  lemma {:induction false} UpdatesNeverReorder(calls: seq<Call>, m: nat, n: nat)
    requires m <= n <= |calls| && forall i :: m <= i < n ==> calls[i].Update?
    ensures SameOrder(FileAfter(calls, m), FileAfter(calls, n))
  {
    if m < n {
      UpdatesNeverReorder(calls, m, n - 1);
      assert calls[n - 1].Update?;
    }
  }
}
