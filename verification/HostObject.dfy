/**
 The bench host as the source holds it: variables that `closeCurrentBench`, `clampTo` and
 the runner callbacks reassign. Each method is the code between two awaits, and does what
 `HostProtocol.Next` says of the step it is named after.
 */
module HostObject {
  import opened Wrappers
  import opened HostProtocol
  import opened HostInvariants

  class BenchHost {
    var currentBench: Option<BenchId>
    var currentRouter: Option<BenchId>
    var generation: nat
    var runners: seq<Runner>          // the last one is targetRunner
    var repos: seq<string>
    var closeCalls: seq<BenchId>
    var tasks: seq<Task>              // the suspended frames of the async functions
    var plates: map<BenchId, string>
    var patches: seq<(string, string)>
    var log: seq<nat>

    function State(): Host
      reads this
    {
      Host(generation, currentBench, currentRouter, runners, repos, closeCalls, tasks, plates, patches, log)
    }

    /** What every interleaving keeps. */
    ghost predicate Valid()
      reads this
    {
      Basic(State())
    }

    constructor ()
      ensures Valid() && State() == INITIAL
    {
      generation := 0;
      currentBench, currentRouter := None, None;
      runners := [Runner(0, None)];
      repos, closeCalls, tasks := [], [], [];
      plates, patches, log := map[], [], [];
    }

    /** The request suspends at its next await. */
    method Suspend(t: nat, pc: Pc)
      requires t < |tasks|
      modifies this`tasks
      ensures State() == Goto(old(State()), t, pc)
    {
      tasks := tasks[t := tasks[t].(pc := pc)];
    }

    /** closeCurrentBench, up to `await runner.stop()`. */
    method BeginRequest(request: Request) returns (t: nat)
      requires Valid()
      modifies this
      ensures Valid()
      ensures State() == Next(AS_WRITTEN, old(State()), Begin(request))
      ensures t == |old(tasks)|
    {
      ghost var before := State();
      BasicStep(AS_WRITTEN, before, Begin(request));
      generation := generation + 1;
      currentRouter := None;
      var bench := currentBench;
      currentBench := None;
      t := |tasks|;
      tasks := tasks + [Task(request, generation, StoppingRunner(bench))];
      assert State() == Next(AS_WRITTEN, before, Begin(request));
    }

    /** closeCurrentBench, after `await runner.stop()`. */
    method OnRunnerStopped(t: nat)
      requires Enabled(AS_WRITTEN, State(), RunnerStopped(t))
      requires Valid()
      modifies this
      ensures Valid()
      ensures State() == Next(AS_WRITTEN, old(State()), RunnerStopped(t))
    {
      BasicStep(AS_WRITTEN, State(), RunnerStopped(t));
      var bench := tasks[t].pc.letGo;
      if bench.Some? {
        closeCalls := closeCalls + [bench.value];
        Suspend(t, ClosingBench);
      } else {
        Suspend(t, CloseReturned);
      }
    }

    /** closeCurrentBench, after `await bench.close()`; `ok` is false when it threw. */
    method OnBenchClosed(t: nat, ok: bool)
      requires Enabled(AS_WRITTEN, State(), BenchClosed(t, ok))
      requires Valid()
      modifies this
      ensures Valid()
      ensures State() == Next(AS_WRITTEN, old(State()), BenchClosed(t, ok))
    {
      BasicStep(AS_WRITTEN, State(), BenchClosed(t, ok));
      if ok {
        Suspend(t, CloseReturned);
      } else {
        Suspend(t, Finished(Failed));
      }
    }

    /** clampTo or the unclamp handler, after `await closeCurrentBench()`. */
    method OnCloseReturned(t: nat)
      requires Enabled(AS_WRITTEN, State(), Resume(t))
      requires Valid()
      modifies this
      ensures Valid()
      ensures State() == Next(AS_WRITTEN, old(State()), Resume(t))
    {
      BasicStep(AS_WRITTEN, State(), Resume(t));
      if tasks[t].request.Unclamp? {
        Suspend(t, Finished(Unclamped));
      } else {
        var myGeneration := generation;
        Suspend(t, Creating(myGeneration));
      }
    }

    /** createBench resolving, or throwing when `ok` is false. */
    method OnBenchCreated(t: nat, ok: bool)
      requires Enabled(AS_WRITTEN, State(), BenchCreated(t, ok))
      requires Valid()
      modifies this
      ensures Valid()
      ensures State() == Next(AS_WRITTEN, old(State()), BenchCreated(t, ok))
    {
      BasicStep(AS_WRITTEN, State(), BenchCreated(t, ok));
      if ok {
        var bench := |repos|;
        repos := repos + [tasks[t].request.repoRoot];
        Suspend(t, Created(tasks[t].pc.mine, bench));
      } else {
        Suspend(t, Finished(Failed));
      }
    }

    /** clampTo, after `await createBench(...)`. */
    method CheckGeneration(t: nat)
      requires Enabled(AS_WRITTEN, State(), Check(t))
      requires Valid()
      modifies this
      ensures Valid()
      ensures State() == Next(AS_WRITTEN, old(State()), Check(t))
      ensures OneClaim(AS_WRITTEN, old(State())) && old(currentBench).Some? ==> currentBench == old(currentBench)
    {
      BasicStep(AS_WRITTEN, State(), Check(t));
      if OneClaim(AS_WRITTEN, State()) && currentBench.Some? {
        CurrentStays(AS_WRITTEN, State(), Check(t));
      }
      var myGeneration, bench := tasks[t].pc.mine, tasks[t].pc.bench;
      if generation != myGeneration {
        closeCalls := closeCalls + [bench];
        Suspend(t, ClosingOwn);
        return;
      }
      currentBench := Some(bench);
      currentRouter := Some(bench);
      runners := runners + [Runner(myGeneration, Some(bench))];
      Suspend(t, Settling(bench));
    }

    /** clampTo, after the `await bench.close()` of an overtaken clamp. */
    method OnOwnBenchClosed(t: nat)
      requires Enabled(AS_WRITTEN, State(), OwnBenchClosed(t))
      requires Valid()
      modifies this
      ensures Valid()
      ensures State() == Next(AS_WRITTEN, old(State()), OwnBenchClosed(t))
    {
      BasicStep(AS_WRITTEN, State(), OwnBenchClosed(t));
      Suspend(t, Finished(Superseded));
    }

    /** clampTo, after the survey, the docs and the recent list. */
    method OnSettled(t: nat, ok: bool)
      requires Enabled(AS_WRITTEN, State(), Settled(t, ok))
      requires Valid()
      modifies this
      ensures Valid()
      ensures State() == Next(AS_WRITTEN, old(State()), Settled(t, ok))
    {
      BasicStep(AS_WRITTEN, State(), Settled(t, ok));
      Suspend(t, Finished(Installed(tasks[t].pc.bench, ok)));
    }

    /** The `onLog` callback of runner `r`. */
    method OnLog(r: nat)
      requires Enabled(AS_WRITTEN, State(), LogLine(r))
      requires Valid()
      modifies this
      ensures Valid()
      ensures State() == Next(AS_WRITTEN, old(State()), LogLine(r))
      ensures Isolated(old(State())) && old(runners)[r].bench != old(currentBench) ==> State() == old(State())
    {
      BasicStep(AS_WRITTEN, State(), LogLine(r));
      if runners[r].generation != generation {
        return;
      }
      log := log + [r];
    }

    /** The `onStateChange` callback of runner `r`; `up` is the URL of status 'up'. */
    method OnStateChange(r: nat, up: Option<string>)
      requires Enabled(AS_WRITTEN, State(), StateChange(r, up))
      requires Valid()
      modifies this
      ensures Valid()
      ensures State() == Next(AS_WRITTEN, old(State()), StateChange(r, up))
      ensures Isolated(old(State())) && old(runners)[r].bench != old(currentBench) ==> State() == old(State())
    {
      BasicStep(AS_WRITTEN, State(), StateChange(r, up));
      if runners[r].generation != generation {
        return;
      }
      if up.Some? && currentBench.Some? {
        var bench := currentBench.value;
        plates := plates[bench := up.value];
        patches := patches + [(repos[bench], up.value)];
      }
    }
  }
}
