/**
 * Delayed tasks (tasks.c): two lists of wake times that swap roles whenever the
 * 32-bit tick count wraps, and a cached time before which the scan is skipped.
 */
module Delays {
  import opened Ticks
  import opened Lists

  /**
   * xTickCount, pxDelayedTaskList, pxOverflowDelayedTaskList,
   * xNextTaskUnblockTime, and the number of wraps so far.
   */
  datatype Clock = Clock(tick: Tick, delayed: seq<Entry<Task>>, overflowed: seq<Entry<Task>>, nextUnblock: Tick,
      epoch: nat) {

    /** The absolute time. */
    function Now(): nat { Instant(epoch, tick) }

    ghost predicate Holds(t: Task) { Has(delayed, t) || Has(overflowed, t) }

    /** prvAddCurrentTaskToDelayedList */
    function Add(t: Task, d: Tick): Clock {
      var wake := Plus(tick, d);
      if wake < tick then
        this.(overflowed := InsertOrdered(overflowed, Entry(wake, t)))
      else
        this.(delayed := InsertOrdered(delayed, Entry(wake, t)),
              nextUnblock := if wake < nextUnblock then wake else nextUnblock)
    }

    /** The removal of a task's state item from whichever list it is on. */
    function Remove(t: Task): Clock {
      this.(delayed := Drop(delayed, t), overflowed := Drop(overflowed, t))
    }

    /** prvResetNextTaskUnblockTime */
    function ResetNextUnblock(): Clock {
      this.(nextUnblock := FirstKey(delayed))
    }

    /** taskSWITCH_DELAYED_LISTS */
    function Switch(): Clock {
      this.(delayed := overflowed, overflowed := delayed, epoch := epoch + 1).ResetNextUnblock()
    }

    /** The time part of xTaskIncrementTick, up to the scan of the delayed list. */
    function Tock(): Clock {
      var c := this.(tick := Plus(tick, 1));
      if c.tick == 0 then c.Switch() else c
    }

    /** The scan: the tasks that are due, in list order, and what remains. */
    function Scan(): (Clock, seq<Task>) {
      if tick < nextUnblock then (this, [])
      else (this.(delayed := Rest(delayed, tick)).ResetNextUnblock(), Due(delayed, tick))
    }

    /** One processed tick. */
    function Advance(): (Clock, seq<Task>) { Tock().Scan() }
  }

  predicate Has(s: seq<Entry<Task>>, t: Task) {
    s != [] && (s[0].owner == t || Has(s[1..], t))
  }

  function Drop(s: seq<Entry<Task>>, t: Task): seq<Entry<Task>> {
    if s == [] then [] else if s[0].owner == t then s[1..] else [s[0]] + Drop(s[1..], t)
  }

  function FirstKey(s: seq<Entry<Task>>): Tick {
    if s == [] then MAX_DELAY else s[0].key
  }

  function Due(s: seq<Entry<Task>>, now: Tick): seq<Task> {
    if s == [] || now < s[0].key then [] else [s[0].owner] + Due(s[1..], now)
  }

  function Rest(s: seq<Entry<Task>>, now: Tick): seq<Entry<Task>> {
    if s == [] || now < s[0].key then s else Rest(s[1..], now)
  }

  /** The wake-up recorded for `t` is the instant `n`. */
  ghost predicate WakesAt(wake: map<Task, nat>, t: Task, n: nat) { t in wake && wake[t] == n }

  /**
   * The list is in wake order, every key is above `after`, and each key shows
   * the absolute instant recorded for its owner, which lies in `epoch`.
   */
  ghost predicate OnTime(s: seq<Entry<Task>>, epoch: nat, after: int, wake: map<Task, nat>) {
    s == [] ||
    (&& s[0].key > after
     && s[0].owner in wake && wake[s[0].owner] == Instant(epoch, s[0].key)
     && OnTime(s[1..], epoch, s[0].key - 1, wake))
  }

  /**
   * The clock agrees with the absolute wake times: the current list holds
   * wake-ups of this epoch that are still ahead, the other list those of the
   * next epoch, and the cached time is not later than the first wake-up.
   */
  ghost predicate Agrees(c: Clock, wake: map<Task, nat>) {
    && OnTime(c.delayed, c.epoch, c.tick, wake)
    && OnTime(c.overflowed, c.epoch + 1, -1, wake)
    && (c.delayed != [] ==> c.nextUnblock <= c.delayed[0].key)
  }

  lemma {:induction false} OnTimeWeaken(s: seq<Entry<Task>>, epoch: nat, after: int, before: int, wake: map<Task, nat>)
    requires OnTime(s, epoch, after, wake) && before <= after
    ensures OnTime(s, epoch, before, wake)
  {
  }

  lemma {:induction false} OnTimeOther(s: seq<Entry<Task>>, epoch: nat, after: int, wake: map<Task, nat>, t: Task,
      w: nat)
    requires OnTime(s, epoch, after, wake) && !Has(s, t)
    ensures OnTime(s, epoch, after, wake[t := w])
  {
    if s != [] { OnTimeOther(s[1..], epoch, s[0].key - 1, wake, t, w); }
  }

  lemma {:induction false} OnTimeInsert(s: seq<Entry<Task>>, epoch: nat, after: int, wake: map<Task, nat>,
      e: Entry<Task>)
    requires OnTime(s, epoch, after, wake) && e.key > after
    requires e.owner in wake && wake[e.owner] == Instant(epoch, e.key)
    ensures OnTime(InsertOrdered(s, e), epoch, after, wake)
  {
    if s == [] || s[0].key > e.key {
      assert ([e] + s)[1..] == s;
      if s != [] { assert OnTime(s, epoch, e.key - 1, wake); }
    } else {
      OnTimeInsert(s[1..], epoch, s[0].key - 1, wake, e);
      assert InsertOrdered(s, e)[1..] == InsertOrdered(s[1..], e);
    }
  }

  lemma {:induction false} OnTimeDrop(s: seq<Entry<Task>>, epoch: nat, after: int, wake: map<Task, nat>, t: Task)
    requires OnTime(s, epoch, after, wake)
    ensures OnTime(Drop(s, t), epoch, after, wake)
    ensures Drop(s, t) != [] ==> s != [] && s[0].key <= Drop(s, t)[0].key
  {
    if s != [] {
      if s[0].owner == t {
        OnTimeWeaken(s[1..], epoch, s[0].key - 1, after, wake);
      } else {
        OnTimeDrop(s[1..], epoch, s[0].key - 1, wake, t);
        assert Drop(s, t)[1..] == Drop(s[1..], t);
      }
    }
  }

  /** When nothing is overdue, the due tasks are those whose instant is exactly now. */
  lemma {:induction false} DueExactly(s: seq<Entry<Task>>, epoch: nat, now: Tick, wake: map<Task, nat>, t: Task)
    requires OnTime(s, epoch, now - 1, wake)
    ensures t in Due(s, now) <==> Has(s, t) && WakesAt(wake, t, Instant(epoch, now))
    ensures Has(Rest(s, now), t) <==> Has(s, t) && !WakesAt(wake, t, Instant(epoch, now))
    ensures OnTime(Rest(s, now), epoch, now, wake)
  {
    if s != [] {
      if now < s[0].key {
        LaterThan(s, epoch, now, wake, t);
        OnTimeWeaken(s, epoch, s[0].key - 1, now, wake);
      } else {
        DueExactly(s[1..], epoch, now, wake, t);
      }
    }
  }

  lemma {:induction false} LaterThan(s: seq<Entry<Task>>, epoch: nat, after: int, wake: map<Task, nat>, t: Task)
    requires OnTime(s, epoch, after, wake)
    ensures Has(s, t) ==> t in wake && wake[t] > epoch * WORD + after
  {
    if s != [] { LaterThan(s[1..], epoch, s[0].key - 1, wake, t); }
  }

  lemma {:induction false} HasInsert(s: seq<Entry<Task>>, e: Entry<Task>, t: Task)
    ensures Has(InsertOrdered(s, e), t) <==> t == e.owner || Has(s, t)
  {
    if s == [] || s[0].key > e.key {
      assert ([e] + s)[1..] == s;
    } else {
      HasInsert(s[1..], e, t);
      assert InsertOrdered(s, e)[1..] == InsertOrdered(s[1..], e);
    }
  }

  /** Delaying for `d` ticks records the instant `d` ticks from now. */
  lemma AddAgrees(c: Clock, t: Task, d: Tick, wake: map<Task, nat>)
    requires Agrees(c, wake) && !c.Holds(t) && d > 0
    ensures Agrees(c.Add(t, d), wake[t := c.Now() + d])
    ensures forall x :: c.Add(t, d).Holds(x) <==> x == t || c.Holds(x)
    ensures c.Add(t, d).Now() == c.Now()
  {
    var key, wake' := Plus(c.tick, d), wake[t := c.Now() + d];
    OnTimeOther(c.delayed, c.epoch, c.tick, wake, t, c.Now() + d);
    OnTimeOther(c.overflowed, c.epoch + 1, -1, wake, t, c.Now() + d);
    if key < c.tick {
      OnTimeInsert(c.overflowed, c.epoch + 1, -1, wake', Entry(key, t));
    } else {
      OnTimeInsert(c.delayed, c.epoch, c.tick, wake', Entry(key, t));
      assert InsertOrdered(c.delayed, Entry(key, t))[0] == Entry(key, t)
          || InsertOrdered(c.delayed, Entry(key, t))[0] == c.delayed[0];
    }
    forall x ensures c.Add(t, d).Holds(x) <==> x == t || c.Holds(x) {
      HasInsert(c.delayed, Entry(key, t), x);
      HasInsert(c.overflowed, Entry(key, t), x);
    }
  }

  lemma RemoveAgrees(c: Clock, t: Task, wake: map<Task, nat>)
    requires Agrees(c, wake)
    ensures Agrees(c.Remove(t), wake)
  {
    OnTimeDrop(c.delayed, c.epoch, c.tick, wake, t);
    OnTimeDrop(c.overflowed, c.epoch + 1, -1, wake, t);
  }

  /** The current list is empty whenever the lists are about to be swapped. */
  lemma EmptyAtWrap(c: Clock, wake: map<Task, nat>)
    requires Agrees(c, wake) && Plus(c.tick, 1) == 0
    ensures c.delayed == []
  {
  }

  /** After the tick count has moved, nothing is overdue and the lists are those of the new epoch. */
  lemma TockAgrees(c: Clock, wake: map<Task, nat>)
    requires Agrees(c, wake)
    ensures var c1 := c.Tock();
            && c1.Now() == c.Now() + 1
            && OnTime(c1.delayed, c1.epoch, c1.tick - 1, wake)
            && OnTime(c1.overflowed, c1.epoch + 1, -1, wake)
            && (c1.delayed != [] ==> c1.nextUnblock <= c1.delayed[0].key)
            && forall t :: c1.Holds(t) <==> c.Holds(t)
  {
    if Plus(c.tick, 1) == 0 {
      EmptyAtWrap(c, wake);
    }
  }

  /**
   * One tick moves time by exactly one and wakes exactly the tasks whose
   * absolute wake time it reaches, whether or not the count wraps and whether
   * or not the cached time lets the scan be skipped.
   */
  lemma AdvanceExact(c: Clock, wake: map<Task, nat>)
    requires Agrees(c, wake)
    ensures var (c', due) := c.Advance();
            && Agrees(c', wake) && c'.Now() == c.Now() + 1
            && (forall t :: t in due <==> c.Holds(t) && WakesAt(wake, t, c.Now() + 1))
            && (forall t :: c'.Holds(t) <==> c.Holds(t) && !WakesAt(wake, t, c.Now() + 1))
  {
    TockAgrees(c, wake);
    var c1 := c.Tock();
    var (c', due) := c1.Scan();
    var scan := c1.tick >= c1.nextUnblock;
    forall t
      ensures t in due <==> c.Holds(t) && WakesAt(wake, t, c1.Now())
      ensures c'.Holds(t) <==> c.Holds(t) && !WakesAt(wake, t, c1.Now())
    {
      LaterThan(c1.overflowed, c1.epoch + 1, -1, wake, t);
      DueExactly(c1.delayed, c1.epoch, c1.tick, wake, t);
      if !scan && c1.delayed != [] {
        OnTimeWeaken(c1.delayed, c1.epoch, c1.delayed[0].key - 1, c1.tick, wake);
        LaterThan(c1.delayed, c1.epoch, c1.tick, wake, t);
      }
    }
    DueExactly(c1.delayed, c1.epoch, c1.tick, wake, 0);
    if !scan && c1.delayed != [] {
      OnTimeWeaken(c1.delayed, c1.epoch, c1.delayed[0].key - 1, c1.tick, wake);
    }
  }
}
