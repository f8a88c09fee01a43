/**
 * The round countdown (src/components/Timer.tsx): a local `time` reset from the
 * `timeLeft` prop, lowered once a second while it is positive, and shown as
 * "low" from ten seconds down.
 *
 * Seconds are explicit calls: `Tick` is one firing of the interval, `Elapse(k)`
 * is k seconds of wall-clock time.
 */
module Countdown {

  /** One interval firing: `Math.max(0, prev - 1)`. */
  function TickValue(t: int): (r: int)
    ensures r >= 0
    ensures t >= 1 ==> r == t - 1
    ensures t <= 1 ==> r == 0
  {
    if t - 1 > 0 then t - 1 else 0
  }

  /** The time after k seconds: no interval is set up while the time is zero or below, so it then stays put. */
  function After(t: int, k: nat): (r: int)
    ensures r <= t
    ensures t <= 0 ==> r == t
    ensures t >= 0 ==> 0 <= r && t - k <= r
    decreases k
  {
    if k == 0 || t <= 0 then t else After(TickValue(t), k - 1)
  }

  /** From a non-negative start the clock reads `max(0, t - k)` after k seconds, so it never goes negative. */
  lemma {:induction false} AfterFromNonNegative(t: int, k: nat)
    requires t >= 0
    ensures After(t, k) == if t - k > 0 then t - k else 0
    decreases k
  {
    if k > 0 && t > 0 {
      AfterFromNonNegative(TickValue(t), k - 1);
    }
  }

  /** A negative prop is shown as it is: no countdown starts. */
  lemma NegativeStaysPut(t: int, k: nat)
    requires t <= 0
    ensures After(t, k) == t
  {
  }

  /** Waiting a seconds and then b seconds is waiting a + b seconds. */
  lemma {:induction false} AfterAdds(t: int, a: nat, b: nat)
    ensures After(After(t, a), b) == After(t, a + b)
    decreases a
  {
    if a > 0 && t > 0 {
      AfterAdds(TickValue(t), a - 1, b);
    }
  }

  /** The red, pulsing display. */
  predicate IsLowTime(t: int) {
    t <= 10
  }

  /** Once low, the display stays low as time passes. */
  lemma {:induction false} LowTimeStaysLow(t: int, k: nat)
    requires IsLowTime(t)
    ensures IsLowTime(After(t, k))
    decreases k
  {
    if k > 0 && t > 0 {
      LowTimeStaysLow(TickValue(t), k - 1);
    }
  }

  class Timer {
    var time: int

    constructor (timeLeft: int)
      ensures time == timeLeft
    {
      time := timeLeft;
    }

    /** A new `timeLeft` prop replaces the local time. */
    method SetTimeLeft(timeLeft: int)
      modifies this
      ensures time == timeLeft
    {
      time := timeLeft;
    }

    /** One firing of the interval, which exists only while the time is positive. */
    method Tick()
      modifies this
      ensures time == After(old(time), 1)
    {
      if time > 0 {
        time := if time - 1 > 0 then time - 1 else 0;
      }
    }

    /** k seconds pass. */
    method Elapse(k: nat)
      modifies this
      ensures time == After(old(time), k)
    {
      var i := 0;
      while i < k && time > 0
        invariant 0 <= i <= k
        invariant After(old(time), k) == After(time, k - i)
      {
        AfterAdds(time, 1, k - i - 1);
        Tick();
        i := i + 1;
      }
    }
  }
}
