/**
 * Timeouts and periodic delays (tasks.c): a block time is reduced call by call
 * by the 32-bit time that has passed, and a periodic task computes its next
 * wake time from the last one.  Both are compared with the absolute time.
 */
module Timeouts {
  import opened Ticks

  /** The low 32 bits of an absolute time, and of the number of wraps before it. */
  function Low(n: nat): Tick { n % WORD }

  function Wraps(n: nat): Tick { n / WORD % WORD }

  lemma Split(n: nat)
    ensures n == Instant(n / WORD, Low(n))
  {
  }

  // ---------------------------------------------------------------------------
  // Timeouts
  // ---------------------------------------------------------------------------

  /** TimeOut_t: xOverflowCount and xTimeOnEntering. */
  datatype TimeOut = TimeOut(overflows: Tick, entering: Tick)

  /** vTaskInternalSetTimeOutState at the absolute time `now`. */
  function SetAt(now: nat): TimeOut { TimeOut(Wraps(now), Low(now)) }

  datatype Outcome = Expired | Remaining(ticks: Tick, timeOut: TimeOut)

  /** xTaskCheckForTimeOut at the absolute time `now`. */
  function Check(timeOut: TimeOut, ticksToWait: Tick, now: nat): Outcome {
    var elapsed := Minus(Low(now), timeOut.entering);
    if Wraps(now) != timeOut.overflows && Low(now) >= timeOut.entering then Expired
    else if elapsed < ticksToWait then Remaining(ticksToWait - elapsed, SetAt(now))
    else Expired
  }

  /** The 32-bit difference is the elapsed time less whole turns of the count. */
  lemma MinusIs(s: nat, now: nat)
    requires s <= now
    ensures Minus(Low(now), Low(s)) == (now - s) % WORD
  {
    var es, en, a, b := s / WORD, now / WORD, Low(s), Low(now);
    Split(s);
    Split(now);
    if a <= b {
      ModIs(now - s, en - es, b - a);
    } else {
      ModIs(now - s, en - es - 1, b - a + WORD);
    }
  }

  lemma ModIs(n: nat, q: int, r: int)
    requires n == q * WORD + r && 0 <= r < WORD
    ensures n % WORD == r && n / WORD == q
  {
  }

  /** Two times less than 2^32 wraps apart have the same wrap count only within one turn of the tick count. */
  lemma WrapsDiffer(s: nat, now: nat)
    requires s <= now && now / WORD - s / WORD < WORD
    ensures Wraps(now) == Wraps(s) <==> now / WORD == s / WORD
  {
    var es, en := s / WORD, now / WORD;
    if Wraps(now) == Wraps(s) {
      var qs, qn := es / WORD, en / WORD;
      assert es == qs * WORD + es % WORD && en == qn * WORD + en % WORD;
      assert en - es == (qn - qs) * WORD;
    }
  }

  /**
   * A check against a timestamp of time `s` reports expiry exactly when the
   * budget has elapsed, unless more than a turn of the tick count has gone by
   * and the count shows a value before the timestamp's, less than the budget
   * after it: then it misses the expiry, and only then is it wrong.
   */
  lemma CheckRight(s: nat, now: nat, ticks: Tick)
    requires s <= now && now / WORD - s / WORD < WORD
    ensures (Check(SetAt(s), ticks, now).Expired? <==> now - s >= ticks)
            <==> !(now - s >= WORD && Low(now) < Low(s) && (now - s) % WORD < ticks)
  {
    MinusIs(s, now);
    WrapsDiffer(s, now);
    Split(s);
    Split(now);
    if now - s < WORD { ModIs(now - s, 0, now - s); }
  }

  /**
   * With at most one wrap since the timestamp the check is exact, and what
   * remains is the budget less the elapsed time.
   */
  lemma CheckExact(s: nat, now: nat, ticks: Tick)
    requires s <= now && now / WORD <= s / WORD + 1
    ensures Check(SetAt(s), ticks, now) == if now - s >= ticks then Expired
            else Remaining(ticks - (now - s), SetAt(now))
  {
    CheckRight(s, now, ticks);
    MinusIs(s, now);
    Split(s);
    Split(now);
    if now - s < WORD { ModIs(now - s, 0, now - s); }
  }

  /** A missed expiry: two turns and a tick less after the timestamp, a budget of nearly a turn. */
  lemma MissedExpiry()
    ensures Check(SetAt(5), MAX_DELAY, 2 * WORD + 3).Remaining? && 2 * WORD + 3 - 5 >= MAX_DELAY
  {
  }

  /** The calls are in order, from `s` on, with at most one wrap between consecutive ones. */
  predicate Spaced(s: nat, times: seq<nat>)
    decreases |times|
  {
    times == [] || (s <= times[0] && times[0] / WORD <= s / WORD + 1 && Spaced(times[0], times[1..]))
  }

  /** The calls that go by before one reports expiry, and what remains then of the budget. */
  function Waited(timeOut: TimeOut, ticks: Tick, times: seq<nat>): (r: (nat, Tick))
    ensures r.0 <= |times|
    decreases |times|
  {
    if times == [] then (0, ticks)
    else
      match Check(timeOut, ticks, times[0])
      case Expired => (0, ticks)
      case Remaining(left, next) => var (n, rest) := Waited(next, left, times[1..]); (n + 1, rest)
  }

  /** The calls before the absolute time `deadline`. */
  function CallsBefore(times: seq<nat>, deadline: nat): (n: nat)
    ensures n <= |times|
    ensures forall i :: 0 <= i < n ==> times[i] < deadline
    ensures n < |times| ==> times[n] >= deadline
    decreases |times|
  {
    if times == [] || times[0] >= deadline then 0 else 1 + CallsBefore(times[1..], deadline)
  }

  /**
   * Timeouts telescope: over any chain of checks with at most one wrap between
   * consecutive ones, the first to report expiry is the first at or after the
   * start plus the original budget; until then what remains is the budget less
   * all the time that has passed.
   */
  lemma {:induction false} Telescopes(s: nat, ticks: Tick, times: seq<nat>)
    requires Spaced(s, times)
    ensures var (n, left) := Waited(SetAt(s), ticks, times);
            && n == CallsBefore(times, s + ticks)
            && left == (if n == 0 then ticks else s + ticks - times[n - 1])
    decreases |times|
  {
    if times != [] {
      CheckExact(s, times[0], ticks);
      if times[0] - s < ticks { Telescopes(times[0], ticks - (times[0] - s), times[1..]); }
    }
  }

  // ---------------------------------------------------------------------------
  // Periodic delays
  // ---------------------------------------------------------------------------

  /** xTaskDelayUntil: the next wake time and for how many ticks the task sleeps, if it does. */
  datatype Period = Period(wakeTime: Tick, sleeps: bool, ticks: Tick)

  function DelayUntil(previous: Tick, increment: Tick, now: Tick): Period {
    var wake := Plus(previous, increment);
    var should :=
      if now < previous then wake < previous && wake > now
      else wake < previous || wake > now;
    Period(wake, should, Minus(wake, now))
  }

  /**
   * The task sleeps exactly when its next wake time is in the future, unless
   * the call comes a whole turn of the count or more after the previous wake
   * time and shows less than the increment after it.
   */
  lemma DelayUntilRight(p: nat, increment: Tick, n: nat)
    requires p <= n && increment > 0
    ensures (DelayUntil(Low(p), increment, Low(n)).sleeps <==> p + increment > n)
            <==> !(n - p >= WORD && (n - p) % WORD < increment)
    ensures DelayUntil(Low(p), increment, Low(n)).sleeps <==> (n - p) % WORD < increment
  {
    MinusIs(p, n);
    PlusIsLater(p / WORD, Low(p), increment);
    if n - p < WORD { ModIs(n - p, 0, n - p); }
  }

  /** A wake time long past that is slept for: the call comes a turn and two ticks after the previous wake time. */
  lemma MissedDelay()
    ensures DelayUntil(Low(5), 10, Low(WORD + 7)) == Period(15, true, 8) && 5 + 10 <= WORD + 7
  {
  }

  /** Called less than a turn after the previous wake time, it sleeps until exactly one increment after that. */
  lemma DelayUntilExact(p: nat, increment: Tick, n: nat)
    requires p <= n < p + WORD && increment > 0
    ensures var r := DelayUntil(Low(p), increment, Low(n));
            && r.wakeTime == Low(p + increment) && (r.sleeps <==> p + increment > n)
            && (r.sleeps ==> r.ticks > 0 && n + r.ticks == p + increment)
  {
    DelayUntilRight(p, increment, n);
    Split(p);
    PlusIsLater(p / WORD, Low(p), increment);
    var key := Plus(Low(p), increment);
    ModIs(p + increment, if key < Low(p) then p / WORD + 1 else p / WORD, key);
    ModIs(n - p, 0, n - p);
    if p + increment > n {
      MinusIs(n, p + increment);
      ModIs(p + increment - n, 0, p + increment - n);
    }
  }

  /** When the calls of a periodic task sleep, and until which absolute time: `None` for a call that does not sleep. */
  datatype Sleep = Awake | Until(time: nat)

  /** What the calls at the absolute times do, starting from the stored wake time. */
  function Sleeps(previous: Tick, increment: Tick, calls: seq<nat>): (r: seq<Sleep>)
    ensures |r| == |calls|
    decreases |calls|
  {
    if calls == [] then []
    else
      var r := DelayUntil(previous, increment, Low(calls[0]));
      [if r.sleeps then Until(calls[0] + r.ticks) else Awake] + Sleeps(r.wakeTime, increment, calls[1..])
  }

  /** The k-th wake time. */
  function Nth(start: nat, k: nat, increment: Tick): nat { start + k * increment }

  /** Each call comes after the wake time before it, and less than a turn of the count after. */
  ghost predicate Prompt(start: nat, increment: Tick, calls: seq<nat>) {
    forall k :: 0 <= k < |calls| ==> Nth(start, k, increment) <= calls[k] < Nth(start, k, increment) + WORD
  }

  /**
   * A periodic task never drifts: its k-th call sleeps exactly when start +
   * (k + 1) * increment is in the future, and then until exactly that time.
   */
  lemma {:induction false} NoDrift(start: nat, increment: Tick, calls: seq<nat>, k: nat)
    requires increment > 0 && Prompt(start, increment, calls) && k < |calls|
    ensures Sleeps(Low(start), increment, calls)[k]
         == if Nth(start, k + 1, increment) > calls[k] then Until(Nth(start, k + 1, increment)) else Awake
    decreases |calls|
  {
    hide Nth, DelayUntil, Low;
    NthFirst(start, increment);
    DelayUntilExact(start, increment, calls[0]);
    if k > 0 {
      LaterPrompt(start, increment, calls);
      NoDrift(start + increment, increment, calls[1..], k - 1);
      NthShift(start, k, increment);
    }
  }

  /** The later calls are prompt with respect to the later wake times. */
  lemma LaterPrompt(start: nat, increment: Tick, calls: seq<nat>)
    requires Prompt(start, increment, calls) && calls != []
    ensures Prompt(start + increment, increment, calls[1..])
  {
    hide Nth;
    forall j | 0 <= j < |calls| - 1
      ensures Nth(start + increment, j, increment) <= calls[1..][j] < Nth(start + increment, j, increment) + WORD
    {
      NthShift(start, j, increment);
      assert calls[1..][j] == calls[j + 1];
    }
  }

  lemma NthFirst(start: nat, increment: Tick)
    ensures Nth(start, 0, increment) == start && Nth(start, 1, increment) == start + increment
  {
  }

  lemma NthShift(start: nat, k: nat, increment: Tick)
    ensures Nth(start + increment, k, increment) == Nth(start, k + 1, increment)
  {
  }

  // ---------------------------------------------------------------------------
  // As the kernel runs them
  // ---------------------------------------------------------------------------

  class TimeOutState {
    var overflowCount: Tick
    var timeOnEntering: Tick

    ghost function View(): TimeOut
      reads this
    {
      TimeOut(overflowCount, timeOnEntering)
    }

    /** vTaskInternalSetTimeOutState */
    method SetState(numOfOverflows: Tick, tickCount: Tick)
      modifies this
      ensures View() == TimeOut(numOfOverflows, tickCount)
    {
      overflowCount, timeOnEntering := numOfOverflows, tickCount;
    }

    /**
     * xTaskCheckForTimeOut at the absolute time `now`, for a timestamp of time
     * `s`: expiry is reported exactly when the budget has elapsed; otherwise
     * the timestamp moves to now and the budget shrinks by what has elapsed.
     */
    method CheckForTimeOut(numOfOverflows: Tick, tickCount: Tick, ticksToWait: Tick, ghost s: nat, ghost now: nat)
        returns (expired: bool, remaining: Tick)
      requires numOfOverflows == Wraps(now) && tickCount == Low(now)
      requires View() == SetAt(s) && s <= now && now / WORD <= s / WORD + 1
      modifies this
      ensures expired <==> now - s >= ticksToWait
      ensures expired ==> remaining == 0 && View() == old(View())
      ensures !expired ==> remaining == ticksToWait - (now - s) && View() == SetAt(now)
    {
      CheckExact(s, now, ticksToWait);
      var elapsed := Minus(tickCount, timeOnEntering);
      if numOfOverflows != overflowCount && tickCount >= timeOnEntering {
        expired, remaining := true, 0;
      } else if elapsed < ticksToWait {
        remaining := ticksToWait - elapsed;
        SetState(numOfOverflows, tickCount);
        expired := false;
      } else {
        expired, remaining := true, 0;
      }
    }
  }
}
