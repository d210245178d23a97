/**
 The guarantees of the bench host, and exactly where the code as written loses them.
 */
module HostTheorems {
  import opened Wrappers
  import opened HostProtocol
  import opened HostInvariants

  // ---- Over all interleavings -----------------------------------------------------------

  /** Router and bench are set and cleared together and name the same bench, no bench is
      closed twice or closed while current, and the current bench's own runner is the one
      the host holds, made with the current number. */
  lemma Ownership(mode: Mode, steps: seq<Step>)
    requires ValidRun(mode, INITIAL, steps)
    ensures var s := Exec(mode, INITIAL, steps);
      && s.router == s.current
      && NoDuplicates(s.closeCalls)
      && (s.current.Some? ==>
           && s.current.value !in s.closeCalls
           && |s.runners| > 0
           && s.runners[|s.runners| - 1] == Runner(s.generation, s.current))
  {
    BasicRun(mode, INITIAL, steps);
  }

  // ---- Under the guard ------------------------------------------------------------------

  /** The current bench's plate started on `url`, and its recent entry told so. */
  function Wired(s: Host, url: string): Host {
    if s.current.Some? && s.current.value < |s.repos| then
      s.(plates := s.plates[s.current.value := url],
         patches := s.patches + [(s.repos[s.current.value], url)])
    else s
  }

  /** In a guarded state a report of `up` writes a plate and a recent entry if and only if
      the bench its runner was made for is the current one, and then writes that bench's. */
  lemma GuardedCallback(mode: Mode, s: Host, r: nat, url: string)
    requires Guarded(mode, s) && r < |s.runners|
    ensures Next(mode, s, StateChange(r, Some(url))) ==
      if s.runners[r].bench.Some? && s.runners[r].bench == s.current then Wired(s, url) else s
  {
  }

  lemma GuardedLogLine(mode: Mode, s: Host, r: nat)
    requires Guarded(mode, s) && r < |s.runners|
    ensures Next(mode, s, LogLine(r)) != s ==> s.runners[r].bench == s.current
  {
  }

  /** Isolation: over every guarded run, from the empty host, no runner's report reaches a
      bench it was not made for, the current bench's own runner is obeyed, and no log line
      of a bench that is gone is broadcast. Only clamps need to keep out of a clamp's window:
      an unclamp may begin at any time. */
  lemma Isolation(mode: Mode, steps: seq<Step>, r: nat, url: string)
    requires Guards(mode) && ValidRun(mode, INITIAL, steps)
    requires r < |Exec(mode, INITIAL, steps).runners|
    ensures var s := Exec(mode, INITIAL, steps);
      && Next(mode, s, StateChange(r, Some(url))) ==
           (if s.runners[r].bench.Some? && s.runners[r].bench == s.current then Wired(s, url) else s)
      && (Next(mode, s, LogLine(r)) != s ==> s.runners[r].bench == s.current)
  {
    GuardedRun(mode, INITIAL, steps);
    GuardedCallback(mode, Exec(mode, INITIAL, steps), r, url);
    GuardedLogLine(mode, Exec(mode, INITIAL, steps), r);
  }

  /** Nothing leaks: over every guarded run each bench ever created is the current one, has
      been handed to close(), or is still held by the one request about to do either. */
  lemma NothingLeaks(mode: Mode, steps: seq<Step>, b: BenchId)
    requires Guards(mode) && ValidRun(mode, INITIAL, steps)
    requires b < |Exec(mode, INITIAL, steps).repos|
    ensures var s := Exec(mode, INITIAL, steps);
      || (s.current == Some(b) && b !in s.closeCalls && !Held(s, b))
      || (s.current != Some(b) && b in s.closeCalls && !Held(s, b))
      || (s.current != Some(b) && b !in s.closeCalls && Held(s, b))
  {
    GuardedRun(mode, INITIAL, steps);
    OwnedRun(mode, INITIAL, steps, b);
  }

  /** What the host holds once no request is pending. */
  ghost predicate LastRequestHolds(s: Host) {
    && (s.tasks == [] ==> s.current == None)
    && (s.tasks != [] ==>
         var last := s.tasks[|s.tasks| - 1];
         if last.Installs().Some? then
           var b := last.Installs().value;
           s.current == Some(b) && b < |s.repos| && last.request == Clamp(s.repos[b])
         else
           s.current == None && last.pc != Finished(Superseded))
    && (forall b: BenchId :: b < |s.repos| && s.current != Some(b) ==> b in s.closeCalls)
  }

  lemma QuiescentAnswer(mode: Mode, s: Host)
    requires Answering(mode, s) && Accounted(s)
    requires forall t :: t in s.tasks ==> t.pc.Finished?
    ensures LastRequestHolds(s)
  {
    forall b: BenchId | b < |s.repos| && s.current != Some(b)
      ensures b in s.closeCalls
    {
      assert Owned(s, b) && !Held(s, b);
    }
  }

  /** The last request wins: once no request is pending, the host holds the bench of the
      last request if that was a clamp that succeeded, and no bench otherwise; the last
      request is never turned away as superseded, and every other bench has been closed. */
  lemma LastRequestWins(mode: Mode, steps: seq<Step>)
    requires Answers(mode) && ValidRun(mode, INITIAL, steps)
    requires forall t :: t in Exec(mode, INITIAL, steps).tasks ==> t.pc.Finished?
    ensures LastRequestHolds(Exec(mode, INITIAL, steps))
  {
    var s := Exec(mode, INITIAL, steps);
    AnsweringRun(mode, INITIAL, steps);
    forall b: BenchId | b < |s.repos|
      ensures Owned(s, b)
    {
      OwnedRun(mode, INITIAL, steps, b);
    }
    QuiescentAnswer(mode, Exec(mode, INITIAL, steps));
  }

  // ---- Necessity: what an overlap can do --------------------------------------------------

  /** How many awaits a request is from leaving its window. */
  function Distance(pc: Pc): nat {
    match pc
    case StoppingRunner(Some(_)) => 3
    case StoppingRunner(None) => 2
    case ClosingBench => 2
    case CloseReturned => 1
    case _ => 0
  }

  /** The host after request `i` has been driven out of its window on its own. */
  function OutOfWindow(s: Host, i: nat): Host
    requires At(s, i)
  {
    var held := s.tasks[i].Holds();
    Goto(s, i, if s.tasks[i].request.Unclamp? then Finished(Unclamped) else Creating(s.generation))
    .(closeCalls := s.closeCalls + if held.Some? then [held.value] else [])
  }

  lemma {:induction false} DriveOutOfWindow(s: Host, i: nat) returns (steps: seq<Step>)
    requires At(s, i) && s.tasks[i].InWindow()
    ensures NoBegin(steps) && ValidRun(AS_WRITTEN, s, steps)
    ensures Exec(AS_WRITTEN, s, steps) == OutOfWindow(s, i)
    decreases Distance(s.tasks[i].pc)
  {
    var step := match s.tasks[i].pc
      case StoppingRunner(_) => RunnerStopped(i)
      case ClosingBench => BenchClosed(i, true)
      case _ => Resume(i);
    var s1 := Next(AS_WRITTEN, s, step);
    var rest := [];
    if !step.Resume? {
      rest := DriveOutOfWindow(s1, i);
    }
    steps := [step] + rest;
    assert steps[1..] == rest;
    assert Exec(AS_WRITTEN, s1, rest) == OutOfWindow(s, i);
  }

  /** The host after clamp `i` has been driven, on its own, until it installed its bench. */
  function AfterInstall(s: Host, i: nat): Host
    requires At(s, i) && s.tasks[i].request.Clamp?
  {
    var b := |s.repos|;
    Goto(OutOfWindow(s, i), i, Settling(b))
    .(repos := s.repos + [s.tasks[i].request.repoRoot], current := Some(b), router := Some(b),
      runners := s.runners + [Runner(s.generation, Some(b))])
  }

  lemma DriveToInstall(s: Host, i: nat) returns (steps: seq<Step>)
    requires At(s, i) && s.tasks[i].InWindow() && s.tasks[i].request.Clamp?
    ensures NoBegin(steps) && ValidRun(AS_WRITTEN, s, steps)
    ensures Exec(AS_WRITTEN, s, steps) == AfterInstall(s, i)
  {
    var out := DriveOutOfWindow(s, i);
    var s1 := OutOfWindow(s, i);
    var s2 := Next(AS_WRITTEN, s1, BenchCreated(i, true));
    assert s2.tasks[i].pc == Created(s.generation, |s.repos|);
    assert AfterInstall(s, i) == Next(AS_WRITTEN, s2, Check(i));
    ExecAppend(AS_WRITTEN, s1, [BenchCreated(i, true)], [Check(i)]);
    ExecAppend(AS_WRITTEN, s, out, [BenchCreated(i, true)] + [Check(i)]);
    steps := out + ([BenchCreated(i, true)] + [Check(i)]);
  }

  /** A runner made for `lost` passes the generation check while another bench is current,
      so its next `up` is written to that other bench; and nothing will ever close `lost`. */
  ghost predicate Crossed(s: Host, lost: BenchId) {
    && lost < |s.repos| && lost !in s.closeCalls && !Held(s, lost)
    && s.current.Some? && s.current.value != lost && s.current.value < |s.repos|
    && exists r :: 0 <= r < |s.runners| && s.runners[r] == Runner(s.generation, Some(lost))
         && forall url :: Next(AS_WRITTEN, s, StateChange(r, Some(url))) == Wired(s, url)
  }

  /** Wherever two clamps are in their windows together, a schedule with no further request
      makes both read one number: the second install overwrites the first bench, which is
      never closed, and whose runner is from then on obeyed on the second bench. */
  lemma OverlapCrosses(s: Host, i: nat, j: nat) returns (steps: seq<Step>)
    requires Basic(s) && At(s, i) && At(s, j) && i != j
    requires s.tasks[i].InWindow() && s.tasks[i].request.Clamp?
    requires s.tasks[j].InWindow() && s.tasks[j].request.Clamp?
    ensures NoBegin(steps) && ValidRun(AS_WRITTEN, s, steps)
    ensures Crossed(Exec(AS_WRITTEN, s, steps), |s.repos|)
    ensures !Isolated(Exec(AS_WRITTEN, s, steps))
  {
    var first := DriveToInstall(s, i);
    var s1 := AfterInstall(s, i);
    var second := DriveToInstall(s1, j);
    var s2 := AfterInstall(s1, j);
    ExecAppend(AS_WRITTEN, s, first, second);
    steps := first + second;
    assert s2.runners[|s.runners|] == Runner(s.generation, Some(|s.repos|));
    assert s2.current == Some(|s.repos| + 1);
  }

  /** An unclamp that begins inside a clamp's window, and is the last request, is undone: with
      both answered the host holds the clamp's bench although it was told to hold none. */
  lemma UnclampUndone(s: Host, i: nat) returns (steps: seq<Step>)
    requires At(s, i) && s.tasks[i].InWindow() && s.tasks[i].request.Clamp?
    requires var last := s.tasks[|s.tasks| - 1]; last.request.Unclamp? && last.InWindow()
    ensures NoBegin(steps) && ValidRun(AS_WRITTEN, s, steps)
    ensures var s' := Exec(AS_WRITTEN, s, steps);
      && s'.tasks == s.tasks[|s.tasks| - 1 := s.tasks[|s.tasks| - 1].(pc := Finished(Unclamped))]
                            [i := s.tasks[i].(pc := Finished(Installed(|s.repos|, true)))]
      && s'.current == Some(|s.repos|) && s'.repos == s.repos + [s.tasks[i].request.repoRoot]
  {
    var j := |s.tasks| - 1;
    var first := DriveOutOfWindow(s, j);
    var s1 := OutOfWindow(s, j);
    var second := DriveToInstall(s1, i);
    var s2 := AfterInstall(s1, i);
    ExecAppend(AS_WRITTEN, s, first, second);
    ExecAppend(AS_WRITTEN, s, first + second, [Settled(i, true)]);
    steps := first + second + [Settled(i, true)];
  }

  /** The code as written does reach the crossed state, with two clamps and nothing else. */
  lemma TwoClampsCross(first: string, second: string) returns (steps: seq<Step>)
    ensures ValidRun(AS_WRITTEN, INITIAL, steps)
    ensures Crossed(Exec(AS_WRITTEN, INITIAL, steps), 0)
  {
    var begun := [Begin(Clamp(first)), Begin(Clamp(second))];
    var s1 := Next(AS_WRITTEN, INITIAL, begun[0]);
    var s2 := Next(AS_WRITTEN, s1, begun[1]);
    var more := begun[1..];
    assert more == [begun[1]] && more[1..] == [];
    assert ValidRun(AS_WRITTEN, s2, []) && Exec(AS_WRITTEN, s2, []) == s2;
    assert ValidRun(AS_WRITTEN, s1, more) && Exec(AS_WRITTEN, s1, more) == s2;
    BasicRun(AS_WRITTEN, INITIAL, begun);
    var rest := OverlapCrosses(s2, 0, 1);
    ExecAppend(AS_WRITTEN, INITIAL, begun, rest);
    steps := begun + rest;
  }

  /** The same for an unclamp: a clamp, then an unclamp begun while the old bench still closes,
      and nothing else, end with the clamp's bench current and both requests answered. */
  lemma ClampThenUnclampUndone(repoRoot: string) returns (steps: seq<Step>)
    ensures ValidRun(AS_WRITTEN, INITIAL, steps)
    ensures var s := Exec(AS_WRITTEN, INITIAL, steps);
      && s.current == Some(0) && s.repos == [repoRoot] && |s.tasks| == 2
      && s.tasks[0].pc == Finished(Installed(0, true)) && s.tasks[1].request.Unclamp?
      && s.tasks[1].pc == Finished(Unclamped)
  {
    var begun := [Begin(Clamp(repoRoot)), Begin(Unclamp)];
    var s1 := Next(AS_WRITTEN, INITIAL, begun[0]);
    var s2 := Next(AS_WRITTEN, s1, begun[1]);
    var more := begun[1..];
    assert more == [begun[1]] && more[1..] == [];
    assert ValidRun(AS_WRITTEN, s2, []) && Exec(AS_WRITTEN, s2, []) == s2;
    assert ValidRun(AS_WRITTEN, s1, more) && Exec(AS_WRITTEN, s1, more) == s2;
    var rest := UnclampUndone(s2, 0);
    ExecAppend(AS_WRITTEN, INITIAL, begun, rest);
    steps := begun + rest;
  }

  // ---- The exact condition --------------------------------------------------------------

  /** From `s`, whatever happens before the next request begins, isolation holds... */
  ghost predicate StaysIsolated(s: Host) {
    forall steps :: NoBegin(steps) && ValidRun(AS_WRITTEN, s, steps) ==> Isolated(Exec(AS_WRITTEN, s, steps))
  }

  /** ...the last request is answered as asked... */
  ghost predicate StaysAnswered(s: Host) {
    forall steps :: NoBegin(steps) && ValidRun(AS_WRITTEN, s, steps) ==> LastAnswered(Exec(AS_WRITTEN, s, steps))
  }

  /** ...and no further bench is lost: one that has an owner, or is yet to be created, has one
      at the end. */
  ghost predicate KeepsOwner(s: Host, steps: seq<Step>, b: BenchId)
    requires ValidRun(AS_WRITTEN, s, steps)
  {
    var end := Exec(AS_WRITTEN, s, steps);
    b < |end.repos| && (b < |s.repos| ==> Owned(s, b)) ==> Owned(end, b)
  }

  ghost predicate LosesNoMore(s: Host) {
    forall steps, b: BenchId :: NoBegin(steps) && ValidRun(AS_WRITTEN, s, steps) ==> KeepsOwner(s, steps, b)
  }

  lemma SafeAfterBegin(s: Host, request: Request)
    requires Basic(s) && NoClampInWindow(s)
    ensures var s' := Next(AS_WRITTEN, s, Begin(request));
      StaysIsolated(s') && StaysAnswered(s') && LosesNoMore(s')
  {
    var s' := Next(AS_WRITTEN, s, Begin(request));
    BeginGuarded(AS_WRITTEN, s, request);
    BeginAnswering(AS_WRITTEN, s, request);
    forall steps | NoBegin(steps) && ValidRun(AS_WRITTEN, s', steps)
      ensures Isolated(Exec(AS_WRITTEN, s', steps)) && LastAnswered(Exec(AS_WRITTEN, s', steps))
    {
      GuardedRun(AS_WRITTEN, s', steps);
      AnsweringRun(AS_WRITTEN, s', steps);
    }
    forall steps, b: BenchId | NoBegin(steps) && ValidRun(AS_WRITTEN, s', steps)
      ensures KeepsOwner(s', steps, b)
    {
      if b < |Exec(AS_WRITTEN, s', steps).repos| && (b < |s'.repos| ==> Owned(s', b)) {
        OwnedRun(AS_WRITTEN, s', steps, b);
      }
    }
  }

  lemma OverlapAfterBegin(s: Host, repoRoot: string) returns (steps: seq<Step>)
    requires Basic(s) && !NoClampInWindow(s)
    ensures var s' := Next(AS_WRITTEN, s, Begin(Clamp(repoRoot)));
      && NoBegin(steps) && ValidRun(AS_WRITTEN, s', steps)
      && !Isolated(Exec(AS_WRITTEN, s', steps)) && Crossed(Exec(AS_WRITTEN, s', steps), |s.repos|)
  {
    var s' := Next(AS_WRITTEN, s, Begin(Clamp(repoRoot)));
    var i :| 0 <= i < |s.tasks| && s.tasks[i].request.Clamp? && s.tasks[i].InWindow();
    BasicStep(AS_WRITTEN, s, Begin(Clamp(repoRoot)));
    assert s'.tasks[i] == s.tasks[i];
    steps := OverlapCrosses(s', i, |s.tasks|);
  }

  /** From every state that a run can reach, whatever went wrong before: beginning a clamp
      keeps isolation until the next request begins if and only if no clamp is between its
      bump and the capture of its number. */
  lemma ClampIsSafeIff(s: Host, repoRoot: string)
    requires Basic(s)
    ensures StaysIsolated(Next(AS_WRITTEN, s, Begin(Clamp(repoRoot)))) <==> NoClampInWindow(s)
  {
    if NoClampInWindow(s) {
      SafeAfterBegin(s, Clamp(repoRoot));
    } else {
      var steps := OverlapAfterBegin(s, repoRoot);
    }
  }

  /** From every such state, whatever was lost before: beginning a clamp loses no further bench
      until the next request begins if and only if the same holds. */
  lemma ClampLosesNothingIff(s: Host, repoRoot: string)
    requires Basic(s)
    ensures LosesNoMore(Next(AS_WRITTEN, s, Begin(Clamp(repoRoot)))) <==> NoClampInWindow(s)
  {
    if NoClampInWindow(s) {
      SafeAfterBegin(s, Clamp(repoRoot));
    } else {
      var steps := OverlapAfterBegin(s, repoRoot);
      var s' := Next(AS_WRITTEN, s, Begin(Clamp(repoRoot)));
      assert !KeepsOwner(s', steps, |s.repos|);
    }
  }

  /** From every such state, beginning any request leaves the host's answer to it intact until
      the next request begins if and only if the same holds. */
  lemma RequestIsAnsweredIff(s: Host, request: Request)
    requires Basic(s)
    ensures StaysAnswered(Next(AS_WRITTEN, s, Begin(request))) <==> NoClampInWindow(s)
  {
    if NoClampInWindow(s) {
      SafeAfterBegin(s, request);
    } else {
      var s' := Next(AS_WRITTEN, s, Begin(request));
      var i :| 0 <= i < |s.tasks| && s.tasks[i].request.Clamp? && s.tasks[i].InWindow();
      assert s'.tasks[i] == s.tasks[i];
      var steps := DriveToInstall(s', i);
      assert !LastAnswered(AfterInstall(s', i));
    }
  }
}
