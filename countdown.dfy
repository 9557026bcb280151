/** The quarter countdown of `startNextQuarter` (main.js:297, 305-321): a counter that starts at
    `QuarterSeconds` and drops by one each time the interval fires; the interval is cleared on
    the firing that takes it below zero. */
module Countdown {
  import opened Constants

  /** The firing at which the counter is `seconds` (before the decrement) is the last one. */
  predicate ExpiresOnTick(seconds: int) {
    seconds - 1 < 0
  }

  /** A countdown whose counter is `seconds` has expired within the next `ticks` firings. */
  predicate ExpiredWithin(seconds: int, ticks: nat)
    decreases ticks
  {
    ticks > 0 && (ExpiresOnTick(seconds) || ExpiredWithin(seconds - 1, ticks - 1))
  }

  /** From a counter of `seconds`, the countdown expires on firing number `seconds + 1`
      and not before. */
  lemma {:induction false} ExpiryTick(seconds: nat, ticks: nat)
    ensures ExpiredWithin(seconds, ticks) <==> ticks > seconds
    decreases ticks
  {
    if ticks > 0 && seconds > 0 {
      ExpiryTick(seconds - 1, ticks - 1);
    }
  }

  /** A quarter's countdown survives twelve firings and ends on the thirteenth. */
  lemma QuarterLastsThirteenTicks()
    ensures !ExpiredWithin(QuarterSeconds, QuarterSeconds)
    ensures ExpiredWithin(QuarterSeconds, QuarterSeconds + 1)
  {
    ExpiryTick(QuarterSeconds, QuarterSeconds);
    ExpiryTick(QuarterSeconds, QuarterSeconds + 1);
  }
}
