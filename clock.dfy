/**
 * Kivy's `Clock`, reduced to what the apps rely on: a registry of interval
 * events, each a callback and the number of times per second it fires.
 * `Clock.schedule_interval(cb, 1.0 / rate)` appends one event;
 * `Clock.unschedule(cb)` removes every event whose callback is `cb`
 * (Kivy's default `all=True`).
 */
module Clock {
  /** The callbacks the apps hand to the clock. */
  datatype Callback = UpdateStream | UpdateImage

  /** One interval event: `callback` runs `rate` times per second. */
  datatype Timer = Timer(callback: Callback, rate: int)

  /** Number of scheduled events whose callback is `cb`. */
  function Count(reg: seq<Timer>, cb: Callback): nat
  {
    if reg == [] then 0
    else Count(reg[..|reg| - 1], cb) + (if reg[|reg| - 1].callback == cb then 1 else 0)
  }

  /** `Clock.schedule_interval`: one more event for `cb`, nothing else changes. */
  function ScheduleInterval(reg: seq<Timer>, cb: Callback, rate: int): (r: seq<Timer>)
    ensures Count(r, cb) == Count(reg, cb) + 1
    ensures forall c :: c != cb ==> Count(r, c) == Count(reg, c)
    ensures forall t :: t in r <==> t in reg || t == Timer(cb, rate)
  {
    var r := reg + [Timer(cb, rate)];
    assert r[..|r| - 1] == reg;
    r
  }

  /** `Clock.unschedule`: every event of `cb` is gone, every other event stays. */
  function Unschedule(reg: seq<Timer>, cb: Callback): (r: seq<Timer>)
    ensures Count(r, cb) == 0
    ensures forall c :: c != cb ==> Count(r, c) == Count(reg, c)
    ensures forall t :: t in r <==> t in reg && t.callback != cb
  {
    if reg == [] then []
    else
      var init := reg[..|reg| - 1];
      var last := reg[|reg| - 1];
      assert reg == init + [last];
      var rest := Unschedule(init, cb);
      if last.callback == cb then rest
      else
        assert (rest + [last])[..|rest|] == rest;
        rest + [last]
  }

  /** A callback has an event exactly when its count is positive. */
  lemma {:induction false} CountPositive(reg: seq<Timer>, cb: Callback)
    ensures Count(reg, cb) > 0 <==> exists t :: t in reg && t.callback == cb
  {
    if reg != [] {
      var init := reg[..|reg| - 1];
      assert reg == init + [reg[|reg| - 1]];
      CountPositive(init, cb);
    }
  }

  /**
   * Cancelling and then rescheduling leaves exactly one event for `cb`,
   * the one at the new rate, whatever was scheduled before.
   */
  lemma Reschedule(reg: seq<Timer>, cb: Callback, rate: int)
    ensures var r := ScheduleInterval(Unschedule(reg, cb), cb, rate);
      Count(r, cb) == 1 && forall t :: t in r && t.callback == cb ==> t.rate == rate
  {
  }

  /**
   * Two slider moves in a row, each a cancel-and-reschedule as in
   * `update_frame_rate`, leave one event, at the second rate, never two.
   */
  lemma TwoRateChanges(reg: seq<Timer>, cb: Callback, first: int, second: int)
    ensures var r1 := ScheduleInterval(Unschedule(reg, cb), cb, first);
      var r2 := ScheduleInterval(Unschedule(r1, cb), cb, second);
      Count(r2, cb) == 1 && Timer(cb, second) in r2 && (first != second ==> Timer(cb, first) !in r2)
  {
  }
}
