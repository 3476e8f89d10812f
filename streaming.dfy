/**
 * The start/stop control shared by the two detection viewers: an
 * `is_streaming` flag, the `disabled` flags of the Start and Stop buttons and
 * the interval event that drives frame updates.
 */
module Streaming {
  import opened Clock

  class StreamControls {
    var isStreaming: bool
    var startDisabled: bool
    var stopDisabled: bool
    /** The clock's registry, as far as this app's callback is concerned. */
    var timers: seq<Timer>
    /** The callback `start_streaming` schedules. */
    const callback: Callback
    /** Calls per second requested by `start_streaming`. */
    const rate: int

    /** The buttons mirror the flag, and one update event runs exactly while streaming. */
    ghost predicate Valid()
      reads this
    {
      && startDisabled == isStreaming
      && stopDisabled == !isStreaming
      && Count(timers, callback) == (if isStreaming then 1 else 0)
      && (isStreaming ==> Timer(callback, rate) in timers)
    }

    /** The state `build` leaves: idle, Start enabled, Stop disabled, nothing scheduled. */
    constructor (callback: Callback, rate: int)
      ensures Valid()
      ensures !isStreaming && !startDisabled && stopDisabled && timers == []
      ensures this.callback == callback && this.rate == rate
    {
      this.callback := callback;
      this.rate := rate;
      isStreaming := false;
      startDisabled := false;
      stopDisabled := true;
      timers := [];
    }

    /** `start_streaming`: a no-op while streaming; otherwise sets the flag, swaps the buttons, schedules one event. */
    method StartStreaming()
      requires Valid()
      modifies this
      ensures Valid()
      ensures isStreaming
      ensures old(isStreaming) ==> unchanged(this)
      ensures !old(isStreaming) ==> timers == ScheduleInterval(old(timers), callback, rate)
      ensures Count(timers, callback) == 1 && Timer(callback, rate) in timers
    {
      if !isStreaming {
        isStreaming := true;
        startDisabled := true;
        stopDisabled := false;
        timers := ScheduleInterval(timers, callback, rate);
      }
    }

    /** `stop_streaming`: a no-op while idle; otherwise clears the flag, swaps the buttons back, unschedules. */
    method StopStreaming()
      requires Valid()
      modifies this
      ensures Valid()
      ensures !isStreaming
      ensures !old(isStreaming) ==> unchanged(this)
      ensures old(isStreaming) ==> timers == Unschedule(old(timers), callback)
      ensures Count(timers, callback) == 0
      ensures forall t :: t in timers ==> t.callback != callback
    {
      if isStreaming {
        isStreaming := false;
        startDisabled := false;
        stopDisabled := true;
        timers := Unschedule(timers, callback);
      }
      CountPositive(timers, callback);
    }
  }

  /** A button press on the control surface. */
  datatype Press = PressStart | PressStop

  /** The streaming flag after a run of presses from `build`: the last press decides. */
  function StreamingAfter(presses: seq<Press>): bool
  {
    presses != [] && presses[|presses| - 1] == PressStart
  }

  /**
   * Replays presses on a freshly built control, reporting whether it ends up
   * streaming and how many update events are then scheduled: repeated
   * presses of one button change nothing, and never is more than one event
   * scheduled.
   */
  method Replay(callback: Callback, rate: int, presses: seq<Press>) returns (streaming: bool, scheduled: nat)
    ensures streaming == StreamingAfter(presses)
    ensures scheduled == (if streaming then 1 else 0)
  {
    var controls := new StreamControls(callback, rate);
    var i := 0;
    while i < |presses|
      invariant 0 <= i <= |presses|
      invariant controls.Valid() && controls.callback == callback
      invariant controls.isStreaming == StreamingAfter(presses[..i])
    {
      if presses[i] == PressStart {
        controls.StartStreaming();
      } else {
        controls.StopStreaming();
      }
      i := i + 1;
    }
    assert presses[..|presses|] == presses;
    streaming := controls.isStreaming;
    scheduled := Count(controls.timers, callback);
  }
}
