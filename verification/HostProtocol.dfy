/**
 The bench host: zero or one current bench, and any number of clamp and unclamp requests
 suspended at their awaits. One `Step` is the code a request runs between two awaits, or
 one callback of a target runner. `Next` is the transition function; the class in
 HostObject.dfy performs the same steps on mutable fields.
 */
module HostProtocol {
  import opened Wrappers

  /** A bench is named by the position of its creation. */
  type BenchId = nat

  /** A target runner, with the number it was made with and the bench it was made for. */
  datatype Runner = Runner(generation: nat, bench: Option<BenchId>)

  datatype Request = Clamp(repoRoot: string) | Unclamp

  datatype Outcome =
    | Unclamped
    | Installed(bench: BenchId, recorded: bool)  // `recorded` is false when survey, docs or recent threw
    | Superseded
    | Failed                                     // the old bench's close or createBench threw

  /** The await at which a request is suspended. */
  datatype Pc =
    | StoppingRunner(letGo: Option<BenchId>)     // runner.stop(), the old bench still to close
    | ClosingBench                               // the old bench's close() has been called
    | CloseReturned                              // closeCurrentBench resolved, caller not yet resumed
    | Creating(mine: nat)                        // createBench
    | Created(mine: nat, bench: BenchId)         // createBench resolved, clampTo not yet resumed
    | ClosingOwn                                 // overtaken: its own bench's close() has been called
    | Settling(bench: BenchId)                   // survey, reload, docs, recent
    | Finished(outcome: Outcome)

  /** `bumped` is the generation this request's own bump produced. */
  datatype Task = Task(request: Request, bumped: nat, pc: Pc)
  {
    /** Between the bump and the moment clampTo reads its number. */
    predicate InWindow() {
      pc.StoppingRunner? || pc.ClosingBench? || pc.CloseReturned?
    }

    predicate PreInstall() {
      InWindow() || pc.Creating? || pc.Created?
    }

    /** The bench this request alone still refers to, not yet handed to close(). */
    function Holds(): Option<BenchId> {
      match pc
      case StoppingRunner(b) => b
      case Created(_, b) => Some(b)
      case _ => None
    }

    /** The bench this request installed. */
    function Installs(): Option<BenchId> {
      match pc
      case Settling(b) => Some(b)
      case Finished(Installed(b, _)) => Some(b)
      case _ => None
    }
  }

  datatype Host = Host(
    generation: nat,
    current: Option<BenchId>,
    router: Option<BenchId>,            // the bench whose loop router is mounted
    runners: seq<Runner>,               // every runner made; the last one is `targetRunner`
    repos: seq<string>,                 // the repo of every bench created, by BenchId
    closeCalls: seq<BenchId>,           // every bench.close() call, in order
    tasks: seq<Task>,                   // every request begun, in order
    plates: map<BenchId, string>,       // the target URL each bench's plate was last started with
    patches: seq<(string, string)>,     // updateRecentBench calls: (repo, URL)
    log: seq<nat>                       // the runner of every target-log line broadcast
  )

  /** Which requests wait while a clamp is in its window. */
  datatype Waiting = NoRequest | ClampsOnly | EveryRequest

  /** `numberAtBump` takes clampTo's number when it bumps instead of after the close. */
  datatype Mode = Mode(numberAtBump: bool, waiting: Waiting)

  const AS_WRITTEN := Mode(false, NoRequest)

  const INITIAL := Host(0, None, None, [Runner(0, None)], [], [], [], map[], [], [])

  datatype Step =
    | Begin(request: Request)
    | RunnerStopped(task: nat)
    | BenchClosed(task: nat, ok: bool)
    | Resume(task: nat)
    | BenchCreated(task: nat, ok: bool)
    | Check(task: nat)
    | OwnBenchClosed(task: nat)
    | Settled(task: nat, ok: bool)
    | LogLine(runner: nat)
    | StateChange(runner: nat, up: Option<string>)   // `up` carries the URL of status 'up'

  predicate At(s: Host, t: nat) {
    t < |s.tasks|
  }

  /** No clamp is between its bump and the capture of its number. */
  predicate NoClampInWindow(s: Host) {
    forall i :: 0 <= i < |s.tasks| ==> !(s.tasks[i].request.Clamp? && s.tasks[i].InWindow())
  }

  predicate Waits(mode: Mode, request: Request) {
    mode.waiting.EveryRequest? || (mode.waiting.ClampsOnly? && request.Clamp?)
  }

  predicate Enabled(mode: Mode, s: Host, step: Step) {
    match step
    case Begin(request) => Waits(mode, request) ==> NoClampInWindow(s)
    case RunnerStopped(t) => At(s, t) && s.tasks[t].pc.StoppingRunner?
    case BenchClosed(t, _) => At(s, t) && s.tasks[t].pc.ClosingBench?
    case Resume(t) => At(s, t) && s.tasks[t].pc.CloseReturned?
    case BenchCreated(t, _) => At(s, t) && s.tasks[t].pc.Creating? && s.tasks[t].request.Clamp?
    case Check(t) => At(s, t) && s.tasks[t].pc.Created?
    case OwnBenchClosed(t) => At(s, t) && s.tasks[t].pc.ClosingOwn?
    case Settled(t, _) => At(s, t) && s.tasks[t].pc.Settling?
    case LogLine(r) => r < |s.runners|
    case StateChange(r, _) => r < |s.runners|
  }

  function Goto(s: Host, t: nat, pc: Pc): Host
    requires At(s, t)
  {
    s.(tasks := s.tasks[t := s.tasks[t].(pc := pc)])
  }

  function Next(mode: Mode, s: Host, step: Step): Host
    requires Enabled(mode, s, step)
  {
    match step
    case Begin(request) =>
      s.(generation := s.generation + 1, router := None, current := None,
         tasks := s.tasks + [Task(request, s.generation + 1, StoppingRunner(s.current))])
    case RunnerStopped(t) =>
      (match s.tasks[t].pc.letGo
       case Some(b) => Goto(s, t, ClosingBench).(closeCalls := s.closeCalls + [b])
       case None => Goto(s, t, CloseReturned))
    case BenchClosed(t, ok) =>
      Goto(s, t, if ok then CloseReturned else Finished(Failed))
    case Resume(t) =>
      Goto(s, t, if s.tasks[t].request.Unclamp? then Finished(Unclamped)
                 else Creating(if mode.numberAtBump then s.tasks[t].bumped else s.generation))
    case BenchCreated(t, ok) =>
      if ok then
        Goto(s, t, Created(s.tasks[t].pc.mine, |s.repos|)).(repos := s.repos + [s.tasks[t].request.repoRoot])
      else
        Goto(s, t, Finished(Failed))
    case Check(t) =>
      var Created(mine, b) := s.tasks[t].pc;
      if s.generation != mine then
        Goto(s, t, ClosingOwn).(closeCalls := s.closeCalls + [b])
      else
        Goto(s, t, Settling(b)).(current := Some(b), router := Some(b), runners := s.runners + [Runner(mine, Some(b))])
    case OwnBenchClosed(t) =>
      Goto(s, t, Finished(Superseded))
    case Settled(t, ok) =>
      Goto(s, t, Finished(Installed(s.tasks[t].pc.bench, ok)))
    case LogLine(r) =>
      if s.runners[r].generation != s.generation then s else s.(log := s.log + [r])
    case StateChange(r, up) =>
      if s.runners[r].generation != s.generation then s
      else if up.Some? && s.current.Some? && s.current.value < |s.repos| then
        s.(plates := s.plates[s.current.value := up.value],
           patches := s.patches + [(s.repos[s.current.value], up.value)])
      else s
  }

  /** `steps` can be taken one after the other from `s`. */
  ghost predicate ValidRun(mode: Mode, s: Host, steps: seq<Step>)
    decreases |steps|
  {
    steps == [] || (Enabled(mode, s, steps[0]) && ValidRun(mode, Next(mode, s, steps[0]), steps[1..]))
  }

  ghost function Exec(mode: Mode, s: Host, steps: seq<Step>): Host
    requires ValidRun(mode, s, steps)
    decreases |steps|
  {
    if steps == [] then s else Exec(mode, Next(mode, s, steps[0]), steps[1..])
  }

  lemma {:induction false} ExecAppend(mode: Mode, s: Host, first: seq<Step>, second: seq<Step>)
    requires ValidRun(mode, s, first)
    requires ValidRun(mode, Exec(mode, s, first), second)
    ensures ValidRun(mode, s, first + second)
    ensures Exec(mode, s, first + second) == Exec(mode, Exec(mode, s, first), second)
    decreases |first|
  {
    if first == [] {
      assert first + second == second;
    } else {
      ExecAppend(mode, Next(mode, s, first[0]), first[1..], second);
      assert (first + second)[1..] == first[1..] + second;
    }
  }
}
