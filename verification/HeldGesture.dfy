/**
 The Ready button's held gesture: the hook's refs, the browser's timers and clock, and the
 callbacks made. One `Step` is one event handler, one timer callback, or time going by.
 */
module HeldGesture {
  import opened Wrappers

  type Time = nat

  datatype Callback =
    | Start(at: Time, oath: Time)
    | Complete(at: Time)
    | Cancel(at: Time, elapsed: int, oath: Time)

  datatype Hold = Hold(
    holding: bool,
    startedAt: Time,
    total: Time,
    timerRef: Option<nat>,
    captured: bool,                     // pointerRef holds a captured pointer
    timers: map<nat, Time>,             // the browser's pending timers, with their due time
    made: nat,                          // how many timers were ever set
    now: Time,
    calls: seq<Callback>                // onStart, onComplete and onCancel, in order
  )

  /** `clears` says whether clearTimeout always removes the timer. */
  datatype Mode = Mode(clears: bool)

  const INITIAL := Hold(false, 0, 0, None, false, map[], 0, 0, [])

  datatype Step =
    | Elapse(ms: Time)
    | Press(enabled: bool, capture: bool, oath: Time)   // pointer or key down; a key captures nothing
    | Release                                           // pointer up, pointer cancel, key up
    | Leave
    | Blur(inside: bool)                                // whether focus stayed in the button
    | Fire(timer: nat)

  predicate Enabled(s: Hold, step: Step) {
    step.Fire? ==> step.timer in s.timers && s.timers[step.timer] <= s.now
  }

  function Started(s: Hold, capture: bool, oath: Time): Hold {
    s.(holding := true, startedAt := s.now, total := oath, captured := capture,
       timerRef := Some(s.made), timers := s.timers[s.made := s.now + oath], made := s.made + 1,
       calls := s.calls + [Start(s.now, oath)])
  }

  function Cancelled(mode: Mode, s: Hold): Hold {
    if !s.holding then s
    else
      s.(holding := false, captured := false,
         timers := if s.timerRef.Some? && mode.clears then s.timers - {s.timerRef.value} else s.timers,
         timerRef := None,
         calls := s.calls + [Cancel(s.now, s.now - s.startedAt, s.total)])
  }

  function Fired(s: Hold, timer: nat): Hold {
    var rest := s.(timers := s.timers - {timer});
    if !s.holding then rest
    else rest.(holding := false, captured := false, calls := s.calls + [Complete(s.now)])
  }

  function Next(mode: Mode, s: Hold, step: Step): Hold
    requires Enabled(s, step)
  {
    match step
    case Elapse(ms) => s.(now := s.now + ms)
    case Press(enabled, capture, oath) => if !enabled || s.holding then s else Started(s, capture, oath)
    case Release => Cancelled(mode, s)
    case Leave => if s.captured then s else Cancelled(mode, s)
    case Blur(inside) => if s.captured || inside then s else Cancelled(mode, s)
    case Fire(timer) => Fired(s, timer)
  }

  ghost predicate ValidRun(mode: Mode, s: Hold, steps: seq<Step>)
    decreases |steps|
  {
    steps == [] || (Enabled(s, steps[0]) && ValidRun(mode, Next(mode, s, steps[0]), steps[1..]))
  }

  ghost function Exec(mode: Mode, s: Hold, steps: seq<Step>): Hold
    requires ValidRun(mode, s, steps)
    decreases |steps|
  {
    if steps == [] then s else Exec(mode, Next(mode, s, steps[0]), steps[1..])
  }

  // ---- in any mode ------------------------------------------------------------------------

  /** The last callback was a start, with no end yet. */
  predicate IsOpen(calls: seq<Callback>) {
    calls != [] && calls[|calls| - 1].Start?
  }

  /** Which callback may come after the ones made: an end tells of the start just before it. */
  predicate Follows(calls: seq<Callback>, c: Callback) {
    if !IsOpen(calls) then c.Start?
    else
      var start := calls[|calls| - 1];
      match c
      case Start(_, _) => false
      case Complete(at) => at >= start.at
      case Cancel(at, elapsed, oath) => start.at + elapsed == at && oath == start.oath
  }

  /** Starts and ends take turns. */
  predicate TakeTurns(calls: seq<Callback>) {
    calls == [] ||
    (TakeTurns(calls[..|calls| - 1]) && Follows(calls[..|calls| - 1], calls[|calls| - 1]))
  }

  predicate CallsMatch(s: Hold) {
    && TakeTurns(s.calls) && (s.holding <==> IsOpen(s.calls))
    && (s.holding ==> s.calls[|s.calls| - 1] == Start(s.startedAt, s.total) && s.startedAt <= s.now)
  }

  predicate TimersMatch(s: Hold) {
    && (s.captured ==> s.holding)
    && (forall t :: t in s.timers ==> t < s.made)
    && (s.holding ==> s.timerRef.Some? && s.timerRef.value in s.timers)
    && (s.holding ==> s.timers[s.timerRef.value] == s.startedAt + s.total)
  }

  predicate Consistent(s: Hold) {
    CallsMatch(s) && TimersMatch(s)
  }

  /** Holding, exactly the hold's own timer is pending; not holding, none is. */
  predicate OneTimer(s: Hold) {
    s.timers.Keys == if s.holding && s.timerRef.Some? then {s.timerRef.value} else {}
  }

  /** Every completed hold lasted its full duration. */
  predicate InFull(calls: seq<Callback>) {
    forall i :: 0 < i < |calls| && calls[i].Complete? && calls[i - 1].Start? ==>
      calls[i].at >= calls[i - 1].at + calls[i - 1].oath
  }

  /** A timer of an earlier hold that was released. */
  predicate IsStale(s: Hold, timer: nat) {
    s.timerRef != Some(timer)
  }

  predicate FiresStale(s: Hold, step: Step) {
    step.Fire? && s.holding && IsStale(s, step.timer)
  }

  lemma TurnsGoOn(calls: seq<Callback>, c: Callback)
    requires TakeTurns(calls) && Follows(calls, c)
    ensures TakeTurns(calls + [c])
  {
    assert (calls + [c])[..|calls|] == calls;
  }

  lemma CallsStep(mode: Mode, s: Hold, step: Step)
    requires CallsMatch(s) && Enabled(s, step)
    ensures CallsMatch(Next(mode, s, step))
  {
    match step
    case Elapse(ms) =>
    case Press(enabled, capture, oath) =>
      if enabled && !s.holding {
        TurnsGoOn(s.calls, Start(s.now, oath));
      }
    case Fire(timer) =>
      if s.holding {
        TurnsGoOn(s.calls, Complete(s.now));
      }
    case _ =>
      if s.holding {
        TurnsGoOn(s.calls, Cancel(s.now, s.now - s.startedAt, s.total));
      }
  }

  lemma TimersStep(mode: Mode, s: Hold, step: Step)
    requires TimersMatch(s) && Enabled(s, step)
    ensures TimersMatch(Next(mode, s, step))
  {
  }

  lemma ConsistentStep(mode: Mode, s: Hold, step: Step)
    requires Consistent(s) && Enabled(s, step)
    ensures Consistent(Next(mode, s, step))
  {
    CallsStep(mode, s, step);
    TimersStep(mode, s, step);
  }

  /**
   Whether or not clearTimeout works: starts and ends take turns, so each started hold gets at
   most one of complete and cancel, and a cancel reports the time since its own start and the
   duration that start was measured against.
   */
  lemma {:induction false} ConsistentRun(mode: Mode, s: Hold, steps: seq<Step>)
    requires Consistent(s) && ValidRun(mode, s, steps)
    ensures Consistent(Exec(mode, s, steps))
    decreases |steps|
  {
    if steps != [] {
      ConsistentStep(mode, s, steps[0]);
      ConsistentRun(mode, Next(mode, s, steps[0]), steps[1..]);
    }
  }

  predicate HoldsOn(step: Step) {
    !step.Release? && !step.Fire?
  }

  /** With the pointer captured, whatever happens short of a release or the timer, leaving the
      button and losing focus included, the hold stays on and no callback is made. */
  lemma {:induction false} CapturedRun(mode: Mode, s: Hold, steps: seq<Step>)
    requires Consistent(s) && s.captured && ValidRun(mode, s, steps)
    requires forall i :: 0 <= i < |steps| ==> HoldsOn(steps[i])
    ensures Exec(mode, s, steps) == s.(now := Exec(mode, s, steps).now) && s.holding
    decreases |steps|
  {
    if steps != [] {
      assert HoldsOn(steps[0]);
      ConsistentStep(mode, s, steps[0]);
      CapturedRun(mode, Next(mode, s, steps[0]), steps[1..]);
    }
  }

  /** Letting go: a release, or leaving or losing focus with no pointer captured. */
  predicate LetsGo(s: Hold, step: Step) {
    step.Release? || (!s.captured && (step.Leave? || (step.Blur? && !step.inside)))
  }

  /** Letting go ends the hold at once, with the time it lasted, and leaves no timer. */
  lemma LettingGoCancels(mode: Mode, s: Hold, step: Step)
    requires Consistent(s) && OneTimer(s) && s.holding && mode.clears && LetsGo(s, step)
    ensures var after := Next(mode, s, step);
            && !after.holding && !after.captured && after.timers == map[]
            && after.calls == s.calls + [Cancel(s.now, s.now - s.startedAt, s.total)]
  {
    var after := Next(mode, s, step);
    assert after.timers.Keys == {};
  }

  // ---- completing only in full ------------------------------------------------------------

  lemma TimerKept(mode: Mode, s: Hold, step: Step)
    requires mode.clears && Consistent(s) && OneTimer(s) && Enabled(s, step)
    ensures OneTimer(Next(mode, s, step)) && !FiresStale(s, step)
  {
  }

  /** A hold completed by its own timer lasted in full. */
  lemma FullStep(mode: Mode, s: Hold, step: Step)
    requires Consistent(s) && Enabled(s, step) && InFull(s.calls) && !FiresStale(s, step)
    ensures InFull(Next(mode, s, step).calls)
  {
  }

  ghost predicate Safe(s: Hold) {
    Consistent(s) && OneTimer(s) && InFull(s.calls)
  }

  /**
   When clearTimeout works: a timer is pending exactly while holding, never two, and a hold
   completes only after its full duration with no cancel between.
   */
  lemma {:induction false} SafeRun(mode: Mode, s: Hold, steps: seq<Step>)
    requires mode.clears && Safe(s) && ValidRun(mode, s, steps)
    ensures Safe(Exec(mode, s, steps))
    decreases |steps|
  {
    if steps != [] {
      ConsistentStep(mode, s, steps[0]);
      TimerKept(mode, s, steps[0]);
      FullStep(mode, s, steps[0]);
      SafeRun(mode, Next(mode, s, steps[0]), steps[1..]);
    }
  }

  /** A hold that is kept up completes, and its timer is then gone. */
  lemma KeptUpCompletes(mode: Mode, s: Hold)
    requires Safe(s) && s.holding
    ensures var waited := Next(mode, s, Elapse(s.total));
            && Enabled(waited, Fire(s.timerRef.value))
            && Next(mode, waited, Fire(s.timerRef.value)).calls == s.calls + [Complete(s.now + s.total)]
            && Next(mode, waited, Fire(s.timerRef.value)).timers == map[]
  {
    var waited := Next(mode, s, Elapse(s.total));
    assert waited.timers.Keys == {s.timerRef.value};
    var done := Next(mode, waited, Fire(s.timerRef.value));
    assert done.timers.Keys == {};
  }

  // ---- what the hold relies on ------------------------------------------------------------

  lemma {:induction false} OneMore(mode: Mode, s: Hold, steps: seq<Step>, step: Step)
    requires ValidRun(mode, s, steps) && Enabled(Exec(mode, s, steps), step)
    ensures ValidRun(mode, s, steps + [step])
    ensures Exec(mode, s, steps + [step]) == Next(mode, Exec(mode, s, steps), step)
    decreases |steps|
  {
    if steps == [] {
      assert [] + [step] == [step] && [step][1..] == [];
      assert ValidRun(mode, Next(mode, s, step), []);
    } else {
      assert (steps + [step])[1..] == steps[1..] + [step];
      OneMore(mode, Next(mode, s, steps[0]), steps[1..], step);
    }
  }

  /** Without it, a hold released and begun anew completes when the first one's time is up. */
  lemma UnclearedTimerCompletesEarly(oath: Time, waited: Time) returns (steps: seq<Step>)
    requires 0 < waited <= oath
    ensures ValidRun(Mode(false), INITIAL, steps)
    ensures Exec(Mode(false), INITIAL, steps).calls ==
            [Start(0, oath), Cancel(waited, waited, oath), Start(waited, oath), Complete(oath)]
  {
    var m := Mode(false);
    var press := Press(true, false, oath);
    OneMore(m, INITIAL, [], press);
    var s1 := [] + [press];
    OneMore(m, INITIAL, s1, Elapse(waited));
    var s2 := s1 + [Elapse(waited)];
    OneMore(m, INITIAL, s2, Release);
    var s3 := s2 + [Release];
    OneMore(m, INITIAL, s3, press);
    var s4 := s3 + [press];
    OneMore(m, INITIAL, s4, Elapse(oath - waited));
    var s5 := s4 + [Elapse(oath - waited)];
    assert Exec(m, INITIAL, s5).timers[0] == oath;
    OneMore(m, INITIAL, s5, Fire(0));
    steps := s5 + [Fire(0)];
  }

  /** Every hold that completes, in any run, lasts its full duration: exactly when clearTimeout
      removes the timer it is given. */
  lemma InFullIffClears(mode: Mode)
    ensures (forall steps :: ValidRun(mode, INITIAL, steps) ==> InFull(Exec(mode, INITIAL, steps).calls))
       <==> mode.clears
  {
    if mode.clears {
      forall steps | ValidRun(mode, INITIAL, steps)
        ensures InFull(Exec(mode, INITIAL, steps).calls)
      {
        SafeRun(mode, INITIAL, steps);
      }
    } else {
      var steps := UnclearedTimerCompletesEarly(2, 1);
      var calls := Exec(mode, INITIAL, steps).calls;
      assert calls[2] == Start(1, 2) && calls[3] == Complete(2);
    }
  }
}
