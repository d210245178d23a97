/**
 The hook as the source holds it: refs that the handlers and the timer callback reassign. Each
 method does what `HeldGesture.Next` says of the step.
 */
module ReadyHold {
  import opened Wrappers
  import opened HeldGesture

  lemma StaysValid(mode: Mode, s: Hold, step: Step)
    requires Consistent(s) && (mode.clears ==> Safe(s)) && Enabled(s, step)
    ensures Consistent(Next(mode, s, step)) && (mode.clears ==> Safe(Next(mode, s, step)))
  {
    ConsistentStep(mode, s, step);
    if mode.clears {
      TimerKept(mode, s, step);
      FullStep(mode, s, step);
    }
  }

  class ReadyButton {
    const mode: Mode
    var holdingRef: bool
    var startedAtRef: Time
    var totalRef: Time
    var timerRef: Option<nat>
    var pointerRef: bool                // whether a captured pointer is held
    var timers: map<nat, Time>          // the browser's side
    var made: nat
    var now: Time
    var calls: seq<Callback>

    function State(): Hold
      reads this
    {
      Hold(holdingRef, startedAtRef, totalRef, timerRef, pointerRef, timers, made, now, calls)
    }

    /** What every run keeps, with a clear that works and without. */
    ghost predicate Valid()
      reads this
    {
      Consistent(State()) && (mode.clears ==> Safe(State()))
    }

    constructor (mode: Mode)
      ensures Valid() && State() == INITIAL && this.mode == mode
    {
      this.mode := mode;
      holdingRef, startedAtRef, totalRef, timerRef, pointerRef := false, 0, 0, None, false;
      timers, made, now, calls := map[], 0, 0, [];
    }

    method SetTimeout(ms: Time) returns (timer: nat)
      modifies this`timers, this`made
      ensures timer == old(made) && made == old(made) + 1
      ensures timers == old(timers)[old(made) := now + ms]
    {
      timer := made;
      timers := timers[made := now + ms];
      made := made + 1;
    }

    method ClearTimeout(timer: nat)
      modifies this`timers
      ensures timers == if mode.clears then old(timers) - {timer} else old(timers)
    {
      if mode.clears {
        timers := timers - {timer};
      }
    }

    method StartHold(enabled: bool, capture: bool, oath: Time)
      requires Valid()
      modifies this
      ensures Valid()
      ensures State() == Next(mode, old(State()), Press(enabled, capture, oath))
    {
      StaysValid(mode, State(), Press(enabled, capture, oath));
      if enabled && !holdingRef {
        TakeHold(capture, oath);
      }
    }

    /** What a press does that is not ignored. */
    method TakeHold(capture: bool, oath: Time)
      modifies this
      ensures State() == Started(old(State()), capture, oath)
    {
      holdingRef := true;
      startedAtRef := now;
      pointerRef := capture;
      calls := calls + [Start(now, oath)];
      totalRef := oath;
      var timer := SetTimeout(oath);
      timerRef := Some(timer);
    }

    method CancelHold()
      requires Valid()
      modifies this
      ensures Valid()
      ensures State() == Next(mode, old(State()), Release)
    {
      StaysValid(mode, State(), Release);
      if !holdingRef {
        return;
      }
      holdingRef := false;
      pointerRef := false;
      if timerRef.Some? {
        ClearTimeout(timerRef.value);
        timerRef := None;
      }
      calls := calls + [Cancel(now, now - startedAtRef, totalRef)];
    }

    /** The timer's callback: a timer that was cleared does not get here. */
    method OnTimer(timer: nat)
      requires Enabled(State(), Fire(timer))
      requires Valid()
      modifies this
      ensures Valid()
      ensures State() == Next(mode, old(State()), Fire(timer))
    {
      StaysValid(mode, State(), Fire(timer));
      timers := timers - {timer};
      if !holdingRef {
        return;
      }
      holdingRef := false;
      pointerRef := false;
      calls := calls + [Complete(now)];
    }

    method OnPointerLeave()
      requires Valid()
      modifies this
      ensures Valid()
      ensures State() == Next(mode, old(State()), Leave)
    {
      StaysValid(mode, State(), Leave);
      if pointerRef {
        return;
      }
      CancelHold();
    }

    method OnBlur(focusStayedInside: bool)
      requires Valid()
      modifies this
      ensures Valid()
      ensures State() == Next(mode, old(State()), Blur(focusStayedInside))
    {
      StaysValid(mode, State(), Blur(focusStayedInside));
      if pointerRef {
        return;
      }
      if focusStayedInside {
        return;
      }
      CancelHold();
    }
  }
}
