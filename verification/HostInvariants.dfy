/**
 What every step of the host keeps, over all interleavings, and what it keeps when no
 request begins inside a clamp's window or when the number is taken at the bump.
 */
module HostInvariants {
  import opened Wrappers
  import opened HostProtocol

  /** Numbers never run ahead of the counter... */
  ghost predicate NumbersInRange(s: Host) {
    && |s.runners| > 0
    && (forall r :: r in s.runners ==> r.generation <= s.generation)
    && (forall i :: 0 <= i < |s.tasks| ==>
          var t := s.tasks[i];
          t.bumped <= s.generation && (t.pc.Creating? || t.pc.Created? ==> t.pc.mine <= s.generation))
  }

  /** ...and bench names denote created benches. */
  ghost predicate BenchesInRange(s: Host) {
    && (s.current.Some? ==> s.current.value < |s.repos|)
    && (forall b :: b in s.closeCalls ==> b < |s.repos|)
    && (forall i :: 0 <= i < |s.tasks| && s.tasks[i].Holds().Some? ==> s.tasks[i].Holds().value < |s.repos|)
    && (forall i :: 0 <= i < |s.tasks| && s.tasks[i].Installs().Some? ==> s.tasks[i].Installs().value < |s.repos|)
  }

  ghost predicate InRange(s: Host) {
    NumbersInRange(s) && BenchesInRange(s)
  }

  ghost predicate NoDuplicates(q: seq<BenchId>) {
    forall i, j :: 0 <= i < j < |q| ==> q[i] != q[j]
  }

  /** Each bench is in at most one of: current, held by one request, handed to close(). */
  ghost predicate OwnedOnce(s: Host) {
    && NoDuplicates(s.closeCalls)
    && (s.current.Some? ==> s.current.value !in s.closeCalls)
    && (forall i :: 0 <= i < |s.tasks| && s.tasks[i].Holds().Some? ==>
         s.tasks[i].Holds().value !in s.closeCalls && s.current != s.tasks[i].Holds())
    && (forall i, j :: 0 <= i < j < |s.tasks| && s.tasks[i].Holds().Some? ==>
         s.tasks[i].Holds() != s.tasks[j].Holds())
  }

  /** Router and bench name the same bench, and the current bench's own runner is heard. */
  ghost predicate RouterFollowsBench(s: Host) {
    && |s.runners| > 0
    && s.router == s.current
    && (s.current.Some? ==> s.runners[|s.runners| - 1] == Runner(s.generation, s.current))
  }

  /** Only a clamp gets past the close, and its bench is a bench of the repo it asked for. */
  ghost predicate RightRepoAt(s: Host, t: Task) {
    && (t.pc.Creating? || t.pc.Created? || t.Installs().Some? ==> t.request.Clamp?)
    && (t.pc.Created? ==> t.pc.bench < |s.repos| && s.repos[t.pc.bench] == t.request.repoRoot)
    && (t.Installs().Some? ==> t.Installs().value < |s.repos| && s.repos[t.Installs().value] == t.request.repoRoot)
  }

  ghost predicate RightRepo(s: Host) {
    forall i :: 0 <= i < |s.tasks| ==> RightRepoAt(s, s.tasks[i])
  }

  /** A bench gets its runner when it is installed, and only then. */
  ghost predicate OneRunnerEach(s: Host) {
    forall r :: 0 <= r < |s.runners| && s.runners[r].bench.Some? ==>
      && s.runners[r].bench.value < |s.repos|
      && (s.current == s.runners[r].bench ==> s.runners[r].generation == s.generation)
      && (forall i :: 0 <= i < |s.tasks| && s.tasks[i].pc.Created? ==> s.runners[r].bench.value != s.tasks[i].pc.bench)
  }

  ghost predicate Basic(s: Host) {
    && InRange(s)
    && OneRunnerEach(s)
    && RightRepo(s)
    && RouterFollowsBench(s)
    && OwnedOnce(s)
  }

  /** The request may yet install a bench under the current number. */
  predicate Claims(mode: Mode, s: Host, i: nat)
    requires At(s, i)
  {
    var t := s.tasks[i];
    if t.pc.Creating? || t.pc.Created? then t.pc.mine == s.generation
    else t.request.Clamp? && t.InWindow() && (mode.numberAtBump ==> t.bumped == s.generation)
  }

  /** At most one request does, and while one does no bench and no runner has the number. */
  ghost predicate OneClaim(mode: Mode, s: Host) {
    && (forall i, j :: 0 <= i < j < |s.tasks| ==> !(Claims(mode, s, i) && Claims(mode, s, j)))
    && (forall i :: 0 <= i < |s.tasks| && Claims(mode, s, i) ==>
          s.current == None && forall r :: 0 <= r < |s.runners| ==> s.runners[r].generation != s.generation)
  }

  /** A runner that passes its own generation check was made for the current bench. */
  ghost predicate Isolated(s: Host) {
    forall r :: 0 <= r < |s.runners| && s.runners[r].generation == s.generation ==>
      s.runners[r].bench == s.current
  }

  ghost predicate Held(s: Host, b: BenchId) {
    exists i :: 0 <= i < |s.tasks| && s.tasks[i].Holds() == Some(b)
  }

  /** The bench is current, handed to close(), or about to be checked or closed. */
  ghost predicate Owned(s: Host, b: BenchId) {
    s.current == Some(b) || b in s.closeCalls || Held(s, b)
  }

  ghost predicate Accounted(s: Host) {
    forall b: BenchId :: b < |s.repos| ==> Owned(s, b)
  }

  ghost predicate Guarded(mode: Mode, s: Host) {
    Basic(s) && OneClaim(mode, s) && Isolated(s)
  }

  /** The current bench is what the last request has installed so far, if anything. */
  ghost predicate LastAnswered(s: Host) {
    && (s.tasks == [] ==> s.current == None)
    && (s.tasks != [] ==> s.current == s.tasks[|s.tasks| - 1].Installs())
    && (s.tasks != [] ==> !s.tasks[|s.tasks| - 1].pc.ClosingOwn? && s.tasks[|s.tasks| - 1].pc != Finished(Superseded))
  }

  /** The last request's clamp claims the number until it installs, and no other does. */
  ghost predicate LastClaims(mode: Mode, s: Host) {
    && (forall i :: 0 <= i < |s.tasks| - 1 ==> !Claims(mode, s, i))
    && (s.tasks != [] ==>
          var last := s.tasks[|s.tasks| - 1];
          last.request.Clamp? && last.PreInstall() ==> Claims(mode, s, |s.tasks| - 1))
  }

  ghost predicate Answering(mode: Mode, s: Host) {
    Basic(s) && LastClaims(mode, s) && LastAnswered(s)
  }

  // ---- Basic: every interleaving -------------------------------------------------------

  lemma NumbersInRangeStep(mode: Mode, s: Host, step: Step)
    requires NumbersInRange(s) && Enabled(mode, s, step)
    ensures NumbersInRange(Next(mode, s, step))
  {
  }

  /** The steps that move a bench: begun, stopped, created, checked. */
  predicate MovesBench(step: Step) {
    step.Begin? || step.RunnerStopped? || step.BenchCreated? || step.Check?
  }

  /** No bench changes hands. */
  ghost predicate SameOwners(s: Host, s': Host) {
    && |s'.tasks| == |s.tasks| && s'.current == s.current
    && s'.closeCalls == s.closeCalls && s'.repos == s.repos
    && forall i :: 0 <= i < |s.tasks| ==> s'.tasks[i].Holds() == s.tasks[i].Holds()
  }

  lemma OwnersStay(mode: Mode, s: Host, step: Step)
    requires Enabled(mode, s, step) && !MovesBench(step)
    ensures SameOwners(s, Next(mode, s, step))
  {
  }

  lemma InstallsStay(mode: Mode, s: Host, step: Step, i: nat)
    requires Enabled(mode, s, step) && !MovesBench(step) && At(s, i)
    ensures At(Next(mode, s, step), i) && Next(mode, s, step).tasks[i].Installs() == s.tasks[i].Installs()
  {
  }

  lemma BenchesInRangeStay(mode: Mode, s: Host, step: Step)
    requires BenchesInRange(s) && Enabled(mode, s, step) && !MovesBench(step)
    ensures BenchesInRange(Next(mode, s, step))
  {
    OwnersStay(mode, s, step);
    forall i | 0 <= i < |s.tasks|
      ensures Next(mode, s, step).tasks[i].Installs() == s.tasks[i].Installs()
    {
      InstallsStay(mode, s, step, i);
    }
  }

  lemma BenchesInRangeStep(mode: Mode, s: Host, step: Step)
    requires BenchesInRange(s) && Enabled(mode, s, step)
    ensures BenchesInRange(Next(mode, s, step))
  {
    if !MovesBench(step) {
      BenchesInRangeStay(mode, s, step);
    }
  }

  lemma InRangeStep(mode: Mode, s: Host, step: Step)
    requires InRange(s) && Enabled(mode, s, step)
    ensures InRange(Next(mode, s, step))
  {
    NumbersInRangeStep(mode, s, step);
    BenchesInRangeStep(mode, s, step);
  }

  lemma ReposStay(mode: Mode, s: Host, step: Step)
    requires Enabled(mode, s, step)
    ensures s.repos <= Next(mode, s, step).repos
    ensures forall t: Task :: RightRepoAt(s, t) ==> RightRepoAt(Next(mode, s, step), t)
  {
  }

  lemma RightRepoStep(mode: Mode, s: Host, step: Step)
    requires RightRepo(s) && Enabled(mode, s, step)
    ensures RightRepo(Next(mode, s, step))
  {
    var s' := Next(mode, s, step);
    ReposStay(mode, s, step);
    forall i | 0 <= i < |s'.tasks|
      ensures RightRepoAt(s', s'.tasks[i])
    {
      if i < |s.tasks| {
        assert RightRepoAt(s, s.tasks[i]);
      }
    }
  }

  lemma RouterStep(mode: Mode, s: Host, step: Step)
    requires RouterFollowsBench(s) && Enabled(mode, s, step)
    ensures RouterFollowsBench(Next(mode, s, step))
  {
  }

  lemma OwnedOnceHandOver(mode: Mode, s: Host, step: Step)
    requires InRange(s) && OwnedOnce(s) && Enabled(mode, s, step) && (step.RunnerStopped? || step.Begin?)
    ensures OwnedOnce(Next(mode, s, step))
  {
  }

  lemma OwnedOnceCreate(mode: Mode, s: Host, step: Step)
    requires InRange(s) && OwnedOnce(s) && Enabled(mode, s, step) && step.BenchCreated?
    ensures OwnedOnce(Next(mode, s, step))
  {
  }

  lemma OwnedOnceCheck(mode: Mode, s: Host, step: Step)
    requires InRange(s) && OwnedOnce(s) && Enabled(mode, s, step) && step.Check?
    ensures OwnedOnce(Next(mode, s, step))
  {
  }

  lemma OwnedOncePlain(mode: Mode, s: Host, step: Step)
    requires OwnedOnce(s) && Enabled(mode, s, step) && !MovesBench(step)
    ensures OwnedOnce(Next(mode, s, step))
  {
    OwnersStay(mode, s, step);
    SameOwnersOwnOnce(s, Next(mode, s, step));
  }

  lemma SameOwnersOwnOnce(s: Host, s': Host)
    requires OwnedOnce(s) && SameOwners(s, s')
    ensures OwnedOnce(s')
  {
  }

  lemma OwnedOnceStep(mode: Mode, s: Host, step: Step)
    requires InRange(s) && OwnedOnce(s) && Enabled(mode, s, step)
    ensures OwnedOnce(Next(mode, s, step))
  {
    match step
    case Begin(_) => OwnedOnceHandOver(mode, s, step);
    case RunnerStopped(_) => OwnedOnceHandOver(mode, s, step);
    case BenchCreated(_, _) => OwnedOnceCreate(mode, s, step);
    case Check(_) => OwnedOnceCheck(mode, s, step);
    case _ => OwnedOncePlain(mode, s, step);
  }

  lemma OneRunnerEachInstalled(mode: Mode, s: Host, step: Step)
    requires InRange(s) && OwnedOnce(s) && OneRunnerEach(s) && Enabled(mode, s, step) && step.Check?
    ensures OneRunnerEach(Next(mode, s, step))
  {
  }

  lemma OneRunnerEachStep(mode: Mode, s: Host, step: Step)
    requires InRange(s) && OwnedOnce(s) && OneRunnerEach(s) && Enabled(mode, s, step)
    ensures OneRunnerEach(Next(mode, s, step))
  {
    if step.Check? {
      OneRunnerEachInstalled(mode, s, step);
    }
  }

  lemma BasicStep(mode: Mode, s: Host, step: Step)
    requires Basic(s) && Enabled(mode, s, step)
    ensures Basic(Next(mode, s, step))
  {
    InRangeStep(mode, s, step);
    RightRepoStep(mode, s, step);
    RouterStep(mode, s, step);
    OwnedOnceStep(mode, s, step);
    OneRunnerEachStep(mode, s, step);
  }

  lemma {:induction false} BasicRun(mode: Mode, s: Host, steps: seq<Step>)
    requires Basic(s) && ValidRun(mode, s, steps)
    ensures Basic(Exec(mode, s, steps))
    decreases |steps|
  {
    if steps != [] {
      BasicStep(mode, s, steps[0]);
      BasicRun(mode, Next(mode, s, steps[0]), steps[1..]);
    }
  }

  // ---- Guarded: the number at the bump, or no clamp inside another clamp's window ---------

  predicate Guards(mode: Mode) {
    mode.numberAtBump || !mode.waiting.NoRequest?
  }

  /** A clamp begun outside every clamp's window claims the new number alone, whatever was
      before; an unclamp leaves at most the clamp that was in its window. */
  lemma BeginGuarded(mode: Mode, s: Host, request: Request)
    requires Basic(s)
    requires mode.numberAtBump || NoClampInWindow(s) || (request.Unclamp? && OneClaim(mode, s))
    requires Enabled(mode, s, Begin(request))
    ensures Guarded(mode, Next(mode, s, Begin(request)))
  {
    BasicStep(mode, s, Begin(request));
    BeginClaims(mode, s, request);
  }

  lemma BeginClaims(mode: Mode, s: Host, request: Request)
    requires NumbersInRange(s)
    requires mode.numberAtBump || NoClampInWindow(s) || (request.Unclamp? && OneClaim(mode, s))
    requires Enabled(mode, s, Begin(request))
    ensures OneClaim(mode, Next(mode, s, Begin(request))) && Isolated(Next(mode, s, Begin(request)))
  {
    var s' := Next(mode, s, Begin(request));
    assert forall r :: 0 <= r < |s.runners| ==> s.runners[r] in s.runners;
    assert forall i :: 0 <= i < |s.tasks| ==> s'.tasks[i] == s.tasks[i];
    forall i | 0 <= i < |s.tasks| && Claims(mode, s', i)
      ensures request.Unclamp? && !mode.numberAtBump && Claims(mode, s, i)
    {
      assert !(s.tasks[i].pc.Creating? || s.tasks[i].pc.Created?);
    }
  }

  /** Between requests no new claim arises. */
  lemma ClaimsShrink(mode: Mode, s: Host, step: Step, i: nat)
    requires RightRepo(s) && Enabled(mode, s, step) && !step.Begin? && At(s, i)
    ensures var s' := Next(mode, s, step);
            |s'.tasks| == |s.tasks| && s'.generation == s.generation && (Claims(mode, s', i) ==> Claims(mode, s, i))
  {
  }

  lemma OneClaimStep(mode: Mode, s: Host, step: Step)
    requires RightRepo(s) && OneClaim(mode, s) && Enabled(mode, s, step) && !step.Begin?
    ensures OneClaim(mode, Next(mode, s, step))
  {
    var s' := Next(mode, s, step);
    forall i | 0 <= i < |s.tasks|
      ensures |s'.tasks| == |s.tasks| && (Claims(mode, s', i) ==> Claims(mode, s, i))
    {
      ClaimsShrink(mode, s, step, i);
    }
    if step.Check? && s.tasks[step.task].pc.mine == s.generation {
      assert Claims(mode, s, step.task) && !Claims(mode, s', step.task);
    }
  }

  lemma IsolatedStep(mode: Mode, s: Host, step: Step)
    requires OneClaim(mode, s) && Isolated(s) && Enabled(mode, s, step) && !step.Begin?
    ensures Isolated(Next(mode, s, step))
  {
    if step.Check? && s.tasks[step.task].pc.mine == s.generation {
      assert Claims(mode, s, step.task);
    }
  }

  lemma GuardedStep(mode: Mode, s: Host, step: Step)
    requires Guarded(mode, s) && Enabled(mode, s, step) && (step.Begin? ==> Guards(mode))
    ensures Guarded(mode, Next(mode, s, step))
  {
    if step.Begin? {
      BeginGuarded(mode, s, step.request);
    } else {
      BasicStep(mode, s, step);
      OneClaimStep(mode, s, step);
      IsolatedStep(mode, s, step);
    }
  }

  lemma ClaimOfCreated(mode: Mode, s: Host, t: nat)
    requires At(s, t) && s.tasks[t].pc.Created?
    ensures Claims(mode, s, t) <==> s.tasks[t].pc.mine == s.generation
  {
  }

  /** While no overlap has been begun, only a request lets the current bench go. */
  lemma CurrentStays(mode: Mode, s: Host, step: Step)
    requires OneClaim(mode, s) && s.current.Some? && Enabled(mode, s, step) && !step.Begin?
    ensures Next(mode, s, step).current == s.current
  {
    if step.Check? {
      ClaimOfCreated(mode, s, step.task);
    }
  }

  lemma StillOwned(mode: Mode, s: Host, step: Step, b: BenchId)
    requires OneClaim(mode, s) && Enabled(mode, s, step) && !step.Begin? && Owned(s, b)
    ensures Owned(Next(mode, s, step), b)
  {
    var s' := Next(mode, s, step);
    if Held(s, b) {
      var i :| 0 <= i < |s.tasks| && s.tasks[i].Holds() == Some(b);
      assert s'.tasks[i].Holds() == Some(b) || s'.current == Some(b) || b in s'.closeCalls;
    } else if s.current == Some(b) {
      CurrentStays(mode, s, step);
    }
  }

  /** A begun request takes the current bench over. */
  lemma OwnedAtBegin(mode: Mode, s: Host, request: Request, b: BenchId)
    requires Enabled(mode, s, Begin(request)) && Owned(s, b)
    ensures Owned(Next(mode, s, Begin(request)), b)
  {
    var s' := Next(mode, s, Begin(request));
    if Held(s, b) {
      var i :| 0 <= i < |s.tasks| && s.tasks[i].Holds() == Some(b);
      assert s'.tasks[i].Holds() == Some(b);
    } else if s.current == Some(b) {
      assert s'.tasks[|s.tasks|].Holds() == Some(b);
    }
  }

  /** A step loses no bench: what had an owner has one, and so does what it creates. */
  lemma OwnedStep(mode: Mode, s: Host, step: Step, b: BenchId)
    requires OneClaim(mode, s) && Enabled(mode, s, step)
    requires b < |Next(mode, s, step).repos| && (b < |s.repos| ==> Owned(s, b))
    ensures Owned(Next(mode, s, step), b)
  {
    if b == |s.repos| {
      assert Next(mode, s, step).tasks[step.task].Holds() == Some(b);
    } else if step.Begin? {
      OwnedAtBegin(mode, s, step.request, b);
    } else {
      StillOwned(mode, s, step, b);
    }
  }

  lemma ReposGrow(mode: Mode, s: Host, step: Step)
    requires Enabled(mode, s, step)
    ensures |s.repos| <= |Next(mode, s, step).repos| <= |s.repos| + 1
  {
  }

  lemma {:induction false} GuardedRun(mode: Mode, s: Host, steps: seq<Step>)
    requires Guarded(mode, s) && ValidRun(mode, s, steps)
    requires Guards(mode) || NoBegin(steps)
    ensures Guarded(mode, Exec(mode, s, steps))
    decreases |steps|
  {
    if steps != [] {
      NoBeginRest(steps);
      GuardedStep(mode, s, steps[0]);
      GuardedRun(mode, Next(mode, s, steps[0]), steps[1..]);
    }
  }

  /** A guarded run loses no bench, whatever was lost before it. */
  lemma {:induction false} OwnedRun(mode: Mode, s: Host, steps: seq<Step>, b: BenchId)
    requires Guarded(mode, s) && ValidRun(mode, s, steps)
    requires Guards(mode) || NoBegin(steps)
    requires b < |Exec(mode, s, steps).repos| && (b < |s.repos| ==> Owned(s, b))
    ensures Owned(Exec(mode, s, steps), b)
    decreases |steps|
  {
    if steps != [] {
      var s' := Next(mode, s, steps[0]);
      NoBeginRest(steps);
      GuardedStep(mode, s, steps[0]);
      ReposGrow(mode, s, steps[0]);
      if b < |s'.repos| {
        OwnedStep(mode, s, steps[0], b);
      }
      OwnedRun(mode, s', steps[1..], b);
    }
  }

  predicate NoBegin(steps: seq<Step>) {
    forall i :: 0 <= i < |steps| ==> !steps[i].Begin?
  }

  lemma NoBeginRest(steps: seq<Step>)
    requires steps != []
    ensures NoBegin(steps) ==> !steps[0].Begin? && NoBegin(steps[1..])
  {
  }

  // ---- Answering: the number at the bump, or no request inside a clamp's window -----------

  predicate Answers(mode: Mode) {
    mode.numberAtBump || mode.waiting.EveryRequest?
  }

  /** A request begun outside every clamp's window is the only one that can be answered. */
  lemma BeginAnswering(mode: Mode, s: Host, request: Request)
    requires Basic(s) && Enabled(mode, s, Begin(request))
    requires mode.numberAtBump || NoClampInWindow(s)
    ensures Answering(mode, Next(mode, s, Begin(request)))
  {
    BasicStep(mode, s, Begin(request));
    var s' := Next(mode, s, Begin(request));
    assert forall i :: 0 <= i < |s.tasks| ==> s'.tasks[i] == s.tasks[i];
  }

  lemma LastClaimsStep(mode: Mode, s: Host, step: Step)
    requires RightRepo(s) && LastClaims(mode, s) && Enabled(mode, s, step) && !step.Begin?
    ensures LastClaims(mode, Next(mode, s, step))
  {
    var s' := Next(mode, s, step);
    forall i | 0 <= i < |s.tasks|
      ensures |s'.tasks| == |s.tasks| && (Claims(mode, s', i) ==> Claims(mode, s, i))
    {
      ClaimsShrink(mode, s, step, i);
    }
  }

  lemma LastAnsweredStep(mode: Mode, s: Host, step: Step)
    requires RightRepo(s) && LastClaims(mode, s) && LastAnswered(s) && Enabled(mode, s, step) && !step.Begin?
    ensures LastAnswered(Next(mode, s, step))
  {
    if step.Check? {
      var last := |s.tasks| - 1;
      assert s.tasks[step.task].request.Clamp?;
      assert step.task != last ==> !Claims(mode, s, step.task);
      assert step.task == last ==> Claims(mode, s, last);
    }
  }

  lemma {:induction false} AnsweringRun(mode: Mode, s: Host, steps: seq<Step>)
    requires Answering(mode, s) && ValidRun(mode, s, steps)
    requires Answers(mode) || NoBegin(steps)
    ensures Answering(mode, Exec(mode, s, steps))
    decreases |steps|
  {
    if steps != [] {
      var step := steps[0];
      NoBeginRest(steps);
      if step.Begin? {
        BeginAnswering(mode, s, step.request);
      } else {
        BasicStep(mode, s, step);
        LastClaimsStep(mode, s, step);
        LastAnsweredStep(mode, s, step);
      }
      AnsweringRun(mode, Next(mode, s, step), steps[1..]);
    }
  }
}
