/**
 * Software timers (timers.c): a daemon keeps active timers on two lists by
 * 32-bit expiry time, classifies each expiry against the time it samples, and
 * catches up on everything that was missed.
 */
module Timers {
  import opened Ticks
  import opened Lists
  import opened Delays
  import S = Scheduler

  type TimerId = nat

  /** xTimerPeriodInTicks is never zero. */
  type Period = p: int | 1 <= p < WORD witness 1

  /**
   * A timer, with its history: the absolute time it was last (re)started at and
   * the number of callbacks since.
   */
  datatype Timer = Timer(period: Period, autoReload: bool, active: bool, started: nat, callbacks: nat)

  /**
   * xLastTime, pxCurrentTimerList, pxOverflowTimerList and the timers; `epoch`
   * is how often the tick count had wrapped when it was last sampled.
   */
  datatype Daemon = Daemon(lastTime: Tick, current: seq<Entry<TimerId>>, overflow: seq<Entry<TimerId>>,
      timers: map<TimerId, Timer>, epoch: nat) {
    function Now(): nat { Instant(epoch, lastTime) }

    /** The record of a timer; a handle that was never created counts as a stopped one. */
    function Get(t: TimerId): Timer { if t in timers then timers[t] else Timer(1, false, false, 0, 0) }

    function Put(t: TimerId, timer: Timer): Daemon { this.(timers := timers[t := timer]) }

    /** The timer's callback runs. */
    function Fire(t: TimerId): Daemon { Put(t, Get(t).(callbacks := Get(t).callbacks + 1)) }

    function Unlist(t: TimerId): Daemon { this.(current := Drop(current, t), overflow := Drop(overflow, t)) }
  }

  // ---------------------------------------------------------------------------
  // The operations
  // ---------------------------------------------------------------------------

  /** Where prvInsertTimerInActiveList puts an expiry. */
  datatype Verdict = ProcessNow | OnCurrent | OnOverflow

  function Classify(next: Tick, now: Tick, command: Tick, period: Period): Verdict {
    if next <= now then
      if Minus(now, command) >= period then ProcessNow else OnOverflow
    else if now < command && next >= command then ProcessNow
    else OnCurrent
  }

  function Insert(d: Daemon, t: TimerId, next: Tick, verdict: Verdict): Daemon {
    match verdict
    case ProcessNow => d
    case OnCurrent => d.(current := InsertOrdered(d.current, Entry(next, t)))
    case OnOverflow => d.(overflow := InsertOrdered(d.overflow, Entry(next, t)))
  }

  /** An expiry is in the past exactly when at least a period has gone by since the command. */
  lemma ProcessNowMeans(now: Tick, command: Tick, period: Period)
    ensures Classify(Plus(command, period), now, command, period) == ProcessNow <==> Minus(now, command) >= period
  {
  }

  /** prvReloadTimer */
  function Reload(d: Daemon, t: TimerId, expired: Tick, now: Tick): Daemon
    decreases Minus(now, expired)
  {
    var p := d.Get(t).period;
    var next := Plus(expired, p);
    var verdict := Classify(next, now, expired, p);
    ProcessNowMeans(now, expired, p);
    if verdict == ProcessNow then Reload(d.Fire(t), t, next, now) else Insert(d, t, next, verdict)
  }

  /** prvProcessExpiredTimer */
  function ProcessExpired(d: Daemon, now: Tick): Daemon
    requires d.current != []
  {
    var t, key := d.current[0].owner, d.current[0].key;
    var d1 := d.(current := d.current[1..]);
    var d2 := if d.Get(t).autoReload then Reload(d1, t, key, now) else d1.Put(t, d.Get(t).(active := false));
    d2.Fire(t)
  }

  /** At the largest time before an overflow nothing is put back on the current list. */
  lemma {:induction false} ReloadAtMax(d: Daemon, t: TimerId, expired: Tick)
    ensures Reload(d, t, expired, MAX_DELAY).current == d.current
    decreases Minus(MAX_DELAY, expired)
  {
    var p := d.Get(t).period;
    ProcessNowMeans(MAX_DELAY, expired, p);
    if Classify(Plus(expired, p), MAX_DELAY, expired, p) == ProcessNow {
      ReloadAtMax(d.Fire(t), t, Plus(expired, p));
    }
  }

  /** The loop of prvSwitchTimerLists, which ends because the current list only shrinks. */
  function DrainCurrent(d: Daemon): (d': Daemon)
    ensures d'.current == []
    decreases |d.current|
  {
    if d.current == [] then d
    else
      ReloadAtMax(d.(current := d.current[1..]), d.current[0].owner, d.current[0].key);
      DrainCurrent(ProcessExpired(d, MAX_DELAY))
  }

  /** prvSwitchTimerLists */
  function SwitchLists(d: Daemon): Daemon {
    var d1 := DrainCurrent(d);
    d1.(current := d1.overflow, overflow := d1.current)
  }

  /** prvSampleTimeNow at the absolute time `now`, of which the daemon sees the low 32 bits. */
  function Sample(d: Daemon, now: nat): (Daemon, bool) {
    var switched := TickOf(now) < d.lastTime;
    ((if switched then SwitchLists(d) else d).(lastTime := TickOf(now), epoch := now / WORD), switched)
  }

  /** prvProcessTimerOrBlockTask: the new state, and whether the daemon blocks. */
  function Poll(d: Daemon, now: nat): (Daemon, bool) {
    var (d1, switched) := Sample(d, now);
    if switched then (d1, false)
    else if d.current != [] && d.current[0].key <= TickOf(now) then (ProcessExpired(d1, TickOf(now)), false)
    else (d1, true)
  }

  /** How long the daemon blocks for: until the head of the current list, or until the count wraps. */
  function BlockTime(d: Daemon): Tick { Minus(if d.current == [] then 0 else d.current[0].key, d.lastTime) }

  /** A command starts at `issued`, its command time, which started timers count from. */
  datatype Command = Start(issued: nat) | Stop | ChangePeriod(period: Period)

  function TickOf(n: nat): Tick { n % WORD }

  /** The switch of prvProcessReceivedCommands, once the timer is off its list and the time is sampled. */
  function Obey(d: Daemon, t: TimerId, c: Command): Daemon {
    match c
    case Start(issued) =>
      var timer := d.Get(t).(active := true, started := issued, callbacks := 0);
      var d1 := d.Put(t, timer);
      var next := Plus(TickOf(issued), timer.period);
      var verdict := Classify(next, d.lastTime, TickOf(issued), timer.period);
      if verdict != ProcessNow then Insert(d1, t, next, verdict)
      else if timer.autoReload then Reload(d1, t, next, d.lastTime).Fire(t)
      else d1.Put(t, timer.(active := false)).Fire(t)
    case Stop => d.Put(t, d.Get(t).(active := false))
    case ChangePeriod(p) =>
      var timer := d.Get(t).(active := true, period := p, started := d.Now(), callbacks := 0);
      var next := Plus(d.lastTime, p);
      Insert(d.Put(t, timer), t, next, Classify(next, d.lastTime, d.lastTime, p))
  }

  function ProcessCommand(d: Daemon, t: TimerId, c: Command, now: nat): Daemon {
    Obey(Sample(d.Unlist(t), now).0, t, c)
  }

  // ---------------------------------------------------------------------------
  // Classification is exact
  // ---------------------------------------------------------------------------

  /** The verdict in absolute time: process what is past, else pick the list of the expiry's epoch. */
  lemma ClassifyExact(ec: nat, command: Tick, en: nat, now: Tick, period: Period)
    requires Instant(ec, command) <= Instant(en, now) < Instant(ec, command) + WORD
    ensures var expiry := Instant(ec, command) + period;
            var next := Plus(command, period);
            match Classify(next, now, command, period)
            case ProcessNow => expiry <= Instant(en, now)
            case OnCurrent => Instant(en, now) < expiry && expiry == Instant(en, next)
            case OnOverflow => Instant(en, now) < expiry && expiry == Instant(en + 1, next)
  {
    assert en == ec || en == ec + 1;
  }

  // ---------------------------------------------------------------------------
  // The invariant
  // ---------------------------------------------------------------------------

  /** The instant of the n-th expiry. */
  function Nth(started: nat, n: nat, period: nat): nat { started + n * period }

  lemma NthNext(started: nat, n: nat, period: nat)
    ensures Nth(started, n + 1, period) == Nth(started, n, period) + period
  {
  }

  /** A timer is on a list exactly once if it is active and not set aside, and on none otherwise. */
  ghost predicate Placed(c: seq<Entry<TimerId>>, o: seq<Entry<TimerId>>, timers: map<TimerId, Timer>,
      aside: set<TimerId>, t: TimerId) {
    S.OccEntries(c, t) + S.OccEntries(o, t) == if t in timers && timers[t].active && t !in aside then 1 else 0
  }

  ghost predicate AllPlaced(d: Daemon, aside: set<TimerId>) {
    forall t :: Placed(d.current, d.overflow, d.timers, aside, t)
  }

  /** Every callback so far was due by `now`, and the timer is listed for the next expiry after them. */
  ghost predicate OnPlan(timer: Timer, expiry: nat, now: nat) {
    && expiry == Nth(timer.started, timer.callbacks + 1, timer.period)
    && Nth(timer.started, timer.callbacks, timer.period) <= now
    && (!timer.autoReload ==> timer.callbacks == 0)
  }

  ghost predicate AllOnPlan(timers: map<TimerId, Timer>, expiry: map<TimerId, nat>, now: nat, aside: set<TimerId>) {
    forall t :: t in timers && timers[t].active && t !in aside ==> t in expiry && OnPlan(timers[t], expiry[t], now)
  }

  /** The lists hold the absolute expiries of the daemon's epoch and of the next. */
  ghost predicate ListsAgree(d: Daemon, expiry: map<TimerId, nat>) {
    OnTime(d.current, d.epoch, -1, expiry) && OnTime(d.overflow, d.epoch + 1, -1, expiry)
  }

  ghost predicate Good(d: Daemon, expiry: map<TimerId, nat>, now: nat, aside: set<TimerId>) {
    ListsAgree(d, expiry) && AllPlaced(d, aside) && AllOnPlan(d.timers, expiry, now, aside)
  }

  // ---------------------------------------------------------------------------
  // Each operation keeps it
  // ---------------------------------------------------------------------------

  lemma PlacedAt(d: Daemon, aside: set<TimerId>, t: TimerId)
    requires AllPlaced(d, aside)
    ensures Placed(d.current, d.overflow, d.timers, aside, t)
  {
  }

  /** Listing a timer that was set aside, on the list of its expiry's epoch. */
  lemma InsertGood(d: Daemon, t: TimerId, next: Tick, verdict: Verdict, expiry: map<TimerId, nat>, at: nat,
      aside: set<TimerId>)
    requires ListsAgree(d, expiry) && AllPlaced(d, aside + {t}) && t !in aside && t in d.timers && d.timers[t].active
    requires verdict != ProcessNow && at == Instant(if verdict == OnCurrent then d.epoch else d.epoch + 1, next)
    ensures var d' := Insert(d, t, next, verdict);
            ListsAgree(d', expiry[t := at]) && AllPlaced(d', aside) && d' == d
                .(current := d'.current, overflow := d'.overflow)
  {
    var d', e := Insert(d, t, next, verdict), Entry(next, t);
    PlacedAt(d, aside + {t}, t);
    OnTimeOther(d.current, d.epoch, -1, expiry, t, at);
    OnTimeOther(d.overflow, d.epoch + 1, -1, expiry, t, at);
    if verdict == OnCurrent {
      OnTimeInsert(d.current, d.epoch, -1, expiry[t := at], e);
    } else {
      OnTimeInsert(d.overflow, d.epoch + 1, -1, expiry[t := at], e);
    }
    forall x ensures Placed(d'.current, d'.overflow, d'.timers, aside, x) {
      PlacedAt(d, aside + {t}, x);
      S.InsertOcc(d.current, e, x);
      S.InsertOcc(d.overflow, e, x);
    }
  }

  /** A record that stays active, or is set aside, can change without any list changing. */
  lemma PutPlaced(d: Daemon, t: TimerId, timer: Timer, aside: set<TimerId>)
    requires AllPlaced(d, aside)
    requires t in aside || (t in d.timers && d.timers[t].active == timer.active)
    ensures AllPlaced(d.Put(t, timer), aside)
  {
    var d' := d.Put(t, timer);
    forall x ensures Placed(d'.current, d'.overflow, d'.timers, aside, x) { PlacedAt(d, aside, x); }
  }

  /** The state after a reload: `k` callbacks were made up and the next expiry is listed, one callback still to come. */
  ghost predicate Reloaded(d: Daemon, d': Daemon, t: TimerId, expiry: map<TimerId, nat>, now: nat, k: nat,
      aside: set<TimerId>)
    requires t in d.timers
  {
    var timer := d.timers[t];
    var timer' := timer.(callbacks := timer.callbacks + k);
    && d' == d.(current := d'.current, overflow := d'.overflow, timers := d.timers[t := timer'])
    && Nth(timer.started, timer'.callbacks + 1, timer.period) <= now < Nth(timer.started, timer'.callbacks + 2,
        timer.period)
    && ListsAgree(d', expiry[t := Nth(timer.started, timer'.callbacks + 2, timer.period)])
    && AllPlaced(d', aside)
  }

  /**
   * Catching up: a timer that expired at the absolute time `e` is advanced over
   * every expiry up to now, with one callback for each, and listed for the
   * first expiry after now.
   */
  lemma {:induction false} ReloadExact(d: Daemon, t: TimerId, ee: nat, expired: Tick, now: Tick, expiry: map<TimerId,
      nat>, aside: set<TimerId>) returns (k: nat)
    requires ListsAgree(d, expiry) && AllPlaced(d, aside + {t}) && t !in aside && t in d.timers && d.timers[t].active
    requires Instant(ee, expired) <= Instant(d.epoch, now) < Instant(ee, expired) + WORD
    requires Instant(ee, expired) == Nth(d.timers[t].started, d.timers[t].callbacks + 1, d.timers[t].period)
    ensures Reloaded(d, Reload(d, t, expired, now), t, expiry, Instant(d.epoch, now), k, aside)
    decreases Minus(now, expired)
  {
    var timer := d.timers[t];
    var p := timer.period;
    var next := Plus(expired, p);
    var verdict := Classify(next, now, expired, p);
    ProcessNowMeans(now, expired, p);
    ClassifyExact(ee, expired, d.epoch, now, p);
    PlusIsLater(ee, expired, p);
    NthNext(timer.started, timer.callbacks + 1, p);
    if verdict == ProcessNow {
      PutPlaced(d, t, timer.(callbacks := timer.callbacks + 1), aside + {t});
      k := ReloadExact(d.Fire(t), t, if next < expired then ee + 1 else ee, next, now, expiry, aside);
      ReloadedMore(d, Reload(d, t, expired, now), t, expiry, Instant(d.epoch, now), k, aside);
      k := k + 1;
    } else {
      k := 0;
      ReloadedLast(d, t, next, verdict, expiry, Instant(d.epoch, now), aside);
    }
  }

  lemma ReloadedLast(d: Daemon, t: TimerId, next: Tick, verdict: Verdict, expiry: map<TimerId, nat>, now: nat,
      aside: set<TimerId>)
    requires ListsAgree(d, expiry) && AllPlaced(d, aside + {t}) && t !in aside && t in d.timers && d.timers[t].active
    requires var timer := d.timers[t];
             && Nth(timer.started, timer.callbacks + 1, timer.period) <= now < Nth(timer.started,
                 timer.callbacks + 2, timer.period)
             && verdict != ProcessNow
             && Nth(timer.started, timer.callbacks + 2, timer.period)
                 == Instant(if verdict == OnCurrent then d.epoch else d.epoch + 1, next)
    ensures Reloaded(d, Insert(d, t, next, verdict), t, expiry, now, 0, aside)
  {
    var timer := d.timers[t];
    InsertGood(d, t, next, verdict, expiry, Nth(timer.started, timer.callbacks + 2, timer.period), aside);
    assert d.timers[t := timer.(callbacks := timer.callbacks + 0)] == d.timers;
  }

  lemma ReloadedMore(d: Daemon, d': Daemon, t: TimerId, expiry: map<TimerId, nat>, now: nat, k: nat,
      aside: set<TimerId>)
    requires t in d.timers && Reloaded(d.Fire(t), d', t, expiry, now, k, aside)
    ensures Reloaded(d, d', t, expiry, now, k + 1, aside)
  {
    var timer := d.timers[t];
    var timer' := timer.(callbacks := timer.callbacks + (k + 1));
    assert d.Fire(t).timers[t := timer'] == d.timers[t := timer'];
  }

  /** The callback that was still to come completes a reload. */
  lemma FireReloaded(d: Daemon, d': Daemon, t: TimerId, expiry: map<TimerId, nat>, now: nat, k: nat,
      aside: set<TimerId>) returns (expiry': map<TimerId, nat>)
    requires t in d.timers && d.timers[t].active && d.timers[t].autoReload
    requires Reloaded(d, d', t, expiry, now, k, aside) && AllOnPlan(d.timers, expiry, now, aside + {t})
    ensures Good(d'.Fire(t), expiry', now, aside)
    ensures d'.Fire(t) == d'.(timers := d.timers[t := d.timers[t].(callbacks := d.timers[t].callbacks + k + 1)])
  {
    var timer := d.timers[t];
    expiry' := expiry[t := Nth(timer.started, timer.callbacks + k + 2, timer.period)];
    var timer' := timer.(callbacks := timer.callbacks + k + 1);
    PutPlaced(d', t, timer', aside);
    assert d'.Fire(t).timers == d.timers[t := timer'];
  }

  /** Only the record of `t` and the lists differ, and `t` keeps its plan. */
  ghost predicate OnlyFired(d: Daemon, d': Daemon, t: TimerId) {
    && d' == d.(current := d'.current, overflow := d'.overflow, timers := d'.timers)
    && t in d.timers && t in d'.timers && d'.timers == d.timers[t := d'.timers[t]]
    && SamePlan(d.timers[t], d'.timers[t])
  }

  ghost predicate SamePlan(a: Timer, b: Timer) {
    a.started == b.started && a.period == b.period && a.autoReload == b.autoReload && a.callbacks <= b.callbacks
        && (a.autoReload ==> a.active == b.active)
  }

  lemma HeadGood(d: Daemon, now: nat, expiry: map<TimerId, nat>, aside: set<TimerId>)
    requires Good(d, expiry, now, aside) && d.current != []
    ensures var t, d1 := d.current[0].owner, d.(current := d.current[1..]);
            && t !in aside && t in d.timers && d.timers[t].active && t in expiry
                && expiry[t] == Instant(d.epoch, d.current[0].key)
            && OnPlan(d.timers[t], expiry[t], now)
            && ListsAgree(d1, expiry) && AllPlaced(d1, aside + {t})
  {
    var t, d1 := d.current[0].owner, d.(current := d.current[1..]);
    PlacedAt(d, aside, t);
    OnTimeWeaken(d.current[1..], d.epoch, d.current[0].key - 1, -1, expiry);
    forall x ensures Placed(d1.current, d1.overflow, d1.timers, aside + {t}, x) { PlacedAt(d, aside, x); }
  }

  /** Processing the head of the current list when its time has come. */
  lemma ProcessExpiredGood(d: Daemon, now: Tick, expiry: map<TimerId, nat>, aside: set<TimerId>)
      returns (expiry': map<TimerId, nat>)
    requires d.current != [] && d.current[0].key <= now && Good(d, expiry, Instant(d.epoch, now), aside)
    ensures Good(ProcessExpired(d, now), expiry', Instant(d.epoch, now), aside)
    ensures OnlyFired(d, ProcessExpired(d, now), d.current[0].owner)
  {
    var N := Instant(d.epoch, now);
    HeadGood(d, N, expiry, aside);
    var t, key, d1 := d.current[0].owner, d.current[0].key, d.(current := d.current[1..]);
    if d.timers[t].autoReload {
      var k := ReloadExact(d1, t, d.epoch, key, now, expiry, aside);
      expiry' := FireReloaded(d1, Reload(d1, t, key, now), t, expiry, N, k, aside);
    } else {
      expiry' := expiry;
      OneShotGood(d1, t, expiry, N, aside);
    }
  }

  /** A one-shot timer that has fired is stopped. */
  lemma OneShotGood(d: Daemon, t: TimerId, expiry: map<TimerId, nat>, now: nat, aside: set<TimerId>)
    requires ListsAgree(d, expiry) && AllPlaced(d, aside + {t}) && AllOnPlan(d.timers, expiry, now, aside + {t})
    ensures Good(d.Put(t, d.Get(t).(active := false)).Fire(t), expiry, now, aside)
  {
    var d' := d.Put(t, d.Get(t).(active := false)).Fire(t);
    forall x ensures Placed(d'.current, d'.overflow, d'.timers, aside, x) { PlacedAt(d, aside + {t}, x); }
  }

  lemma OnPlanLater(timers: map<TimerId, Timer>, expiry: map<TimerId, nat>, now: nat, later: nat, aside: set<TimerId>)
    requires AllOnPlan(timers, expiry, now, aside) && now <= later
    ensures AllOnPlan(timers, expiry, later, aside)
  {
  }

  /** Nobody's plan has changed. */
  ghost predicate AllSamePlan(d: Daemon, d': Daemon) {
    && d'.timers.Keys == d.timers.Keys
    && forall t :: t in d.timers ==> t in d'.timers && SamePlan(d.timers[t], d'.timers[t])
  }

  lemma {:induction false} DrainGood(d: Daemon, expiry: map<TimerId, nat>, aside: set<TimerId>)
      returns (expiry': map<TimerId, nat>)
    requires Good(d, expiry, Instant(d.epoch, MAX_DELAY), aside)
    ensures Good(DrainCurrent(d), expiry', Instant(d.epoch, MAX_DELAY), aside)
    ensures DrainCurrent(d).epoch == d.epoch && AllSamePlan(d, DrainCurrent(d))
    decreases |d.current|
  {
    if d.current == [] {
      expiry' := expiry;
    } else {
      expiry' := ProcessExpiredGood(d, MAX_DELAY, expiry, aside);
      ReloadAtMax(d.(current := d.current[1..]), d.current[0].owner, d.current[0].key);
      expiry' := DrainGood(ProcessExpired(d, MAX_DELAY), expiry', aside);
    }
  }

  /** Switching the lists at a wrap leaves the lists of the new epoch, with nothing overdue lost. */
  lemma SwitchGood(d: Daemon, expiry: map<TimerId, nat>, aside: set<TimerId>) returns (expiry': map<TimerId, nat>)
    requires Good(d, expiry, Instant(d.epoch, MAX_DELAY), aside)
    ensures Good(SwitchLists(d).(epoch := d.epoch + 1), expiry', Instant(d.epoch, MAX_DELAY), aside)
    ensures AllSamePlan(d, SwitchLists(d))
  {
    expiry' := DrainGood(d, expiry, aside);
    var d1, d' := DrainCurrent(d), SwitchLists(d).(epoch := d.epoch + 1);
    forall x ensures Placed(d'.current, d'.overflow, d'.timers, aside, x) { PlacedAt(d1, aside, x); }
  }

  /** Some timer is active, and not set aside. */
  ghost predicate AnyActive(d: Daemon, aside: set<TimerId>) {
    exists t :: t in d.timers && d.timers[t].active && t !in aside
  }

  /** Without an active timer both lists are empty, and any time will do. */
  lemma IdleGood(d: Daemon, now: nat, later: nat, expiry: map<TimerId, nat>, aside: set<TimerId>)
    requires Good(d, expiry, now, aside) && !AnyActive(d, aside)
    ensures d.current == [] && d.overflow == []
    ensures Good(Sample(d, later).0, expiry, later, aside)
  {
    if d.current != [] { PlacedAt(d, aside, d.current[0].owner); }
    if d.overflow != [] { PlacedAt(d, aside, d.overflow[0].owner); }
    var d' := Sample(d, later).0;
    forall x ensures Placed(d'.current, d'.overflow, d'.timers, aside, x) { PlacedAt(d, aside, x); }
  }

  lemma SplitNow(now: nat)
    ensures now == Instant(now / WORD, TickOf(now))
  {
  }

  /** Sampling the time; while a timer is active, less than one turn of the count later. */
  lemma SampleGood(d: Daemon, now: nat, expiry: map<TimerId, nat>, aside: set<TimerId>)
      returns (expiry': map<TimerId, nat>)
    requires Good(d, expiry, d.Now(), aside) && d.Now() <= now && (AnyActive(d, aside) ==> now < d.Now() + WORD)
    ensures var d' := Sample(d, now).0;
            Good(d', expiry', now, aside) && d'.Now() == now && AllSamePlan(d, d')
    ensures !Sample(d, now).1 ==> expiry' == expiry && Sample(d, now).0 == d
            .(lastTime := TickOf(now), epoch := now / WORD)
  {
    SplitNow(now);
    if !AnyActive(d, aside) {
      expiry' := expiry;
      IdleGood(d, d.Now(), now, expiry, aside);
    } else {
      assert now / WORD == d.epoch || now / WORD == d.epoch + 1;
      if TickOf(now) < d.lastTime {
        OnPlanLater(d.timers, expiry, d.Now(), Instant(d.epoch, MAX_DELAY), aside);
        expiry' := SwitchGood(d, expiry, aside);
        OnPlanLater(SwitchLists(d).timers, expiry', Instant(d.epoch, MAX_DELAY), now, aside);
        assert Sample(d, now).0 == SwitchLists(d).(epoch := d.epoch + 1).(lastTime := TickOf(now));
      } else {
        expiry' := expiry;
        OnPlanLater(d.timers, expiry, d.Now(), now, aside);
        assert Sample(d, now).0 == d.(lastTime := TickOf(now));
      }
    }
  }

  // ---------------------------------------------------------------------------
  // Whole runs
  // ---------------------------------------------------------------------------

  datatype Event = PollAt(now: nat) | CommandAt(t: TimerId, c: Command, now: nat)

  function Step(d: Daemon, e: Event): Daemon {
    match e
    case PollAt(now) => Poll(d, now).0
    case CommandAt(t, c, now) => ProcessCommand(d, t, c, now)
  }

  /**
   * While a timer is active the time is sampled before the tick count has gone
   * round once, and a command to start a timer is less than that old.
   */
  ghost predicate Enabled(d: Daemon, e: Event) {
    && d.Now() <= e.now && (AnyActive(d, {}) ==> e.now < d.Now() + WORD)
    && (e.CommandAt? ==> e.t in d.timers && (e.c.Start? ==> e.c.issued <= e.now < e.c.issued + WORD))
  }

  ghost predicate Inv(d: Daemon, expiry: map<TimerId, nat>) { Good(d, expiry, d.Now(), {}) }

  lemma PollGood(d: Daemon, now: nat, expiry: map<TimerId, nat>) returns (expiry': map<TimerId, nat>)
    requires Inv(d, expiry) && Enabled(d, PollAt(now))
    ensures var d' := Step(d, PollAt(now));
            Inv(d', expiry') && d'.Now() == now && AllSamePlan(d, d')
  {
    expiry' := SampleGood(d, now, expiry, {});
    var (d1, switched) := Sample(d, now);
    if !switched && d.current != [] && d.current[0].key <= TickOf(now) {
      expiry' := ProcessExpiredGood(d1, TickOf(now), expiry', {});
    }
  }

  lemma UnlistGood(d: Daemon, t: TimerId, expiry: map<TimerId, nat>)
    requires Inv(d, expiry)
    ensures Good(d.Unlist(t), expiry, d.Now(), {t})
  {
    var d' := d.Unlist(t);
    OnTimeDrop(d.current, d.epoch, -1, expiry, t);
    OnTimeDrop(d.overflow, d.epoch + 1, -1, expiry, t);
    forall x ensures Placed(d'.current, d'.overflow, d'.timers, {t}, x) {
      PlacedAt(d, {}, x);
      S.DropOcc(d.current, t, x);
      S.DropOcc(d.overflow, t, x);
    }
  }

  lemma PutOnPlan(d: Daemon, t: TimerId, timer: Timer, expiry: map<TimerId, nat>, at: nat, now: nat)
    requires AllOnPlan(d.timers, expiry, now, {t}) && (timer.active ==> OnPlan(timer, at, now))
    ensures AllOnPlan(d.Put(t, timer).timers, expiry[t := at], now, {})
  {
  }

  lemma StartGood(d: Daemon, t: TimerId, issued: nat, expiry: map<TimerId, nat>) returns (expiry': map<TimerId, nat>)
    requires Good(d, expiry, d.Now(), {t}) && t in d.timers && issued <= d.Now() < issued + WORD
    ensures Inv(Obey(d, t, Start(issued)), expiry')
  {
    var timer := d.Get(t).(active := true, started := issued, callbacks := 0);
    var d1, p, c := d.Put(t, timer), timer.period, TickOf(issued);
    var ec := issued / WORD;
    assert issued == Instant(ec, c);
    var next := Plus(c, p);
    var verdict := Classify(next, d.lastTime, c, p);
    ClassifyExact(ec, c, d.epoch, d.lastTime, p);
    PutPlaced(d, t, timer, {t});
    assert {} + {t} == {t};
    assert Nth(issued, 1, p) == issued + p;
    if verdict != ProcessNow {
      InsertGood(d1, t, next, verdict, expiry, issued + p, {});
      expiry' := expiry[t := issued + p];
      PutOnPlan(d, t, timer, expiry, issued + p, d.Now());
    } else if timer.autoReload {
      PlusIsLater(ec, c, p);
      var k := ReloadExact(d1, t, if next < c then ec + 1 else ec, next, d.lastTime, expiry, {});
      expiry' := FireReloaded(d1, Reload(d1, t, next, d.lastTime), t, expiry, d.Now(), k, {});
    } else {
      expiry' := expiry;
      OneShotGood(d1, t, expiry, d.Now(), {});
    }
  }

  lemma ObeyGood(d: Daemon, t: TimerId, c: Command, expiry: map<TimerId, nat>) returns (expiry': map<TimerId, nat>)
    requires Good(d, expiry, d.Now(), {t}) && t in d.timers && (c.Start? ==> c.issued <= d.Now() < c.issued + WORD)
    ensures Inv(Obey(d, t, c), expiry') && Obey(d, t, c).Now() == d.Now()
  {
    match c
    case Start(issued) => expiry' := StartGood(d, t, issued, expiry); StartNow(d, t, issued);
    case Stop =>
      var timer := d.Get(t).(active := false);
      expiry' := expiry;
      var d' := d.Put(t, timer);
      forall x ensures Placed(d'.current, d'.overflow, d'.timers, {}, x) { PlacedAt(d, {t}, x); }
    case ChangePeriod(p) =>
      var timer := d.Get(t).(active := true, period := p, started := d.Now(), callbacks := 0);
      var next := Plus(d.lastTime, p);
      ClassifyExact(d.epoch, d.lastTime, d.epoch, d.lastTime, p);
      PutPlaced(d, t, timer, {t});
      assert {} + {t} == {t};
      InsertGood(d.Put(t, timer), t, next, Classify(next, d.lastTime, d.lastTime, p), expiry, d.Now() + p, {});
      expiry' := expiry[t := d.Now() + p];
      PutOnPlan(d, t, timer, expiry, d.Now() + p, d.Now());
  }

  lemma {:induction false} ReloadNow(d: Daemon, t: TimerId, expired: Tick, now: Tick)
    ensures Reload(d, t, expired, now).lastTime == d.lastTime && Reload(d, t, expired, now).epoch == d.epoch
    decreases Minus(now, expired)
  {
    var p := d.Get(t).period;
    ProcessNowMeans(now, expired, p);
    if Classify(Plus(expired, p), now, expired, p) == ProcessNow { ReloadNow(d.Fire(t), t, Plus(expired, p), now); }
  }

  lemma StartNow(d: Daemon, t: TimerId, issued: nat)
    ensures Obey(d, t, Start(issued)).Now() == d.Now()
  {
    var timer := d.Get(t).(active := true, started := issued, callbacks := 0);
    ReloadNow(d.Put(t, timer), t, Plus(TickOf(issued), timer.period), d.lastTime);
  }

  /** Every event keeps each active timer on exactly the list and at exactly the key of its next expiry. */
  lemma StepGood(d: Daemon, e: Event, expiry: map<TimerId, nat>) returns (expiry': map<TimerId, nat>)
    requires Inv(d, expiry) && Enabled(d, e)
    ensures Inv(Step(d, e), expiry') && Step(d, e).Now() == e.now
  {
    match e
    case PollAt(now) => expiry' := PollGood(d, now, expiry);
    case CommandAt(t, c, now) =>
      UnlistGood(d, t, expiry);
      expiry' := SampleGood(d.Unlist(t), now, expiry, {t});
      expiry' := ObeyGood(Sample(d.Unlist(t), now).0, t, c, expiry');
  }

  /** A timer's next expiry is ahead, and beyond the time to block for, when the head of the current list is not due. */
  lemma AheadOf(d: Daemon, now: nat, t: TimerId, expiry: map<TimerId, nat>)
    requires Inv(d, expiry) && d.Now() == now && (d.current != [] ==> d.current[0].key > d.lastTime) && t in d.timers
             && d.timers[t].active
    ensures t in expiry && now + BlockTime(d) <= expiry[t] && now < expiry[t]
  {
    PlacedAt(d, {}, t);
    LaterThan(d.overflow, d.epoch + 1, -1, expiry, t);
    if d.current != [] {
      OnTimeWeaken(d.current, d.epoch, d.current[0].key - 1, d.current[0].key - 1, expiry);
      LaterThan(d.current, d.epoch, d.current[0].key - 1, expiry, t);
    }
  }

  /** When the daemon decides to block, nothing listed is due. */
  lemma BlockedMeans(d: Daemon, now: nat, t: TimerId, expiry: map<TimerId, nat>) returns (expiry': map<TimerId, nat>)
    requires Inv(d, expiry) && Enabled(d, PollAt(now)) && Poll(d, now).1
    ensures var d' := Step(d, PollAt(now));
            && Inv(d', expiry') && d'.Now() == now
            && (t in d'.timers && d'.timers[t].active ==>
                  t in expiry' && now + BlockTime(d') <= expiry'[t] && now < expiry'[t])
  {
    expiry' := SampleGood(d, now, expiry, {});
    var d' := Step(d, PollAt(now));
    if t in d'.timers && d'.timers[t].active { AheadOf(d', now, t, expiry'); }
  }

  lemma MultipleGap(a: nat, b: nat, p: nat)
    requires a < b
    ensures a * p + p <= b * p
  {
    assert a * p + p == (a + 1) * p <= b * p;
  }

  lemma QuotientIs(n: nat, p: nat, q: nat)
    requires p > 0 && q * p <= n < q * p + p
    ensures n / p == q
  {
    var a := n / p;
    assert a * p <= n < a * p + p;
    if a > q { MultipleGap(q, a, p); }
    if a < q { MultipleGap(a, q, p); }
  }

  /** Time and commands on other timers leave a timer's plan alone. */
  lemma StepSamePlan(d: Daemon, e: Event, t: TimerId, expiry: map<TimerId, nat>)
    requires Inv(d, expiry) && Enabled(d, e) && t in d.timers && (e.CommandAt? ==> e.t != t)
    ensures t in Step(d, e).timers && SamePlan(d.timers[t], Step(d, e).timers[t])
  {
    match e
    case PollAt(now) => var _ := PollGood(d, now, expiry);
    case CommandAt(x, c, now) =>
      UnlistGood(d, x, expiry);
      var _ := SampleGood(d.Unlist(x), now, expiry, {x});
      ObeyOthers(Sample(d.Unlist(x), now).0, x, c, t);
  }

  lemma {:induction false} ReloadOthers(d: Daemon, x: TimerId, expired: Tick, now: Tick, t: TimerId)
    requires t != x && t in d.timers
    ensures var d' := Reload(d, x, expired, now); t in d'.timers && d'.timers[t] == d.timers[t]
    decreases Minus(now, expired)
  {
    var p := d.Get(x).period;
    ProcessNowMeans(now, expired, p);
    if Classify(Plus(expired, p), now, expired, p) == ProcessNow {
      ReloadOthers(d.Fire(x), x, Plus(expired, p), now, t);
    }
  }

  lemma ObeyOthers(d: Daemon, x: TimerId, c: Command, t: TimerId)
    requires t != x && t in d.timers
    ensures t in Obey(d, x, c).timers && Obey(d, x, c).timers[t] == d.timers[t]
  {
    if c.Start? {
      var timer := d.Get(x).(active := true, started := c.issued, callbacks := 0);
      ReloadOthers(d.Put(x, timer), x, Plus(TickOf(c.issued), timer.period), d.lastTime, t);
    }
  }

  ghost predicate IsRun(d: Daemon, es: seq<Event>)
    decreases |es|
  {
    es == [] || (Enabled(d, es[0]) && IsRun(Step(d, es[0]), es[1..]))
  }

  function After(d: Daemon, es: seq<Event>): Daemon
    decreases |es|
  {
    if es == [] then d else After(Step(d, es[0]), es[1..])
  }

  lemma {:induction false} RunGood(d: Daemon, es: seq<Event>, t: TimerId, expiry: map<TimerId, nat>)
      returns (expiry': map<TimerId, nat>)
    requires Inv(d, expiry) && IsRun(d, es) && t in d.timers
    requires forall e :: e in es && e.CommandAt? ==> e.t != t
    ensures Inv(After(d, es), expiry') && t in After(d, es).timers && SamePlan(d.timers[t], After(d, es).timers[t])
    decreases |es|
  {
    if es == [] {
      expiry' := expiry;
    } else {
      StepSamePlan(d, es[0], t, expiry);
      expiry' := StepGood(d, es[0], expiry);
      expiry' := RunGood(Step(d, es[0]), es[1..], t, expiry');
    }
  }

  /** The number of callbacks of a timer that is not due at `now`. */
  lemma NotDueCallbacks(timer: Timer, at: nat, now: nat)
    requires OnPlan(timer, at, now) && now < at
    ensures timer.started <= now && at <= now + timer.period
    ensures timer.callbacks == (now - timer.started) / timer.period
  {
    NthNext(timer.started, timer.callbacks, timer.period);
    QuotientIs(now - timer.started, timer.period, timer.callbacks);
  }

  /**
   * Exact catch-up: an auto-reload timer started at the absolute time C with
   * period p and left alone over any run has had floor((now - C) / p) callbacks
   * whenever the daemon has processed everything due and blocks at `now`.  It
   * is then listed for an expiry in (now, now + p], and the daemon does not
   * block beyond that.
   */
  lemma CatchUpExact(d: Daemon, es: seq<Event>, now: nat, t: TimerId, expiry: map<TimerId, nat>)
      returns (expiry': map<TimerId, nat>)
    requires Inv(d, expiry) && t in d.timers && d.timers[t].active && d.timers[t].autoReload
    requires IsRun(d, es) && forall e :: e in es && e.CommandAt? ==> e.t != t
    requires Enabled(After(d, es), PollAt(now)) && Poll(After(d, es), now).1
    ensures var d', C, p := Step(After(d, es), PollAt(now)), d.timers[t].started, d.timers[t].period;
            && Inv(d', expiry') && C <= now
            && t in d'.timers && d'.timers[t].active && d'.timers[t].callbacks == (now - C) / p
            && t in expiry' && now < expiry'[t] <= now + p && now + BlockTime(d') <= expiry'[t]
            && (Has(d'.current, t) || Has(d'.overflow, t))
  {
    expiry' := RunGood(d, es, t, expiry);
    var d1 := After(d, es);
    var d' := Step(d1, PollAt(now));
    assert d' == d1.(lastTime := TickOf(now), epoch := now / WORD);
    expiry' := BlockedMeans(d1, now, t, expiry');
    PlacedAt(d', {}, t);
    NotDueCallbacks(d'.timers[t], expiry'[t], now);
  }

  function Started(timers: map<TimerId, Timer>): Daemon { Daemon(0, [], [], timers, 0) }

  /** A daemon that has just started has no active timers. */
  lemma StartedGood(timers: map<TimerId, Timer>)
    requires forall t :: t in timers ==> !timers[t].active
    ensures Inv(Started(timers), map[])
  {
    var d := Started(timers);
    forall x ensures Placed(d.current, d.overflow, d.timers, {}, x) {}
  }

  /** The invariant holds throughout any run of polls and commands. */
  lemma {:induction false} RunInv(d: Daemon, es: seq<Event>, expiry: map<TimerId, nat>)
      returns (expiry': map<TimerId, nat>)
    requires Inv(d, expiry) && IsRun(d, es)
    ensures Inv(After(d, es), expiry')
    decreases |es|
  {
    if es == [] {
      expiry' := expiry;
    } else {
      expiry' := StepGood(d, es[0], expiry);
      expiry' := RunInv(Step(d, es[0]), es[1..], expiry');
    }
  }

  lemma {:induction false} ReloadSelf(d: Daemon, t: TimerId, expired: Tick, now: Tick)
    requires t in d.timers
    ensures t in Reload(d, t, expired, now).timers && SamePlan(d.timers[t], Reload(d, t, expired, now).timers[t])
    decreases Minus(now, expired)
  {
    var p := d.Get(t).period;
    ProcessNowMeans(now, expired, p);
    if Classify(Plus(expired, p), now, expired, p) == ProcessNow { ReloadSelf(d.Fire(t), t, Plus(expired, p), now); }
  }

  /** A start command makes an auto-reload timer active, counting from the command time. */
  lemma StartPlan(d: Daemon, t: TimerId, issued: nat)
    requires t in d.timers && d.timers[t].autoReload
    ensures var d' := Obey(d, t, Start(issued));
            && t in d'.timers && d'.timers[t].active && d'.timers[t].autoReload
            && d'.timers[t].started == issued && d'.timers[t].period == d.timers[t].period
  {
    var timer := d.Get(t).(active := true, started := issued, callbacks := 0);
    ReloadSelf(d.Put(t, timer), t, Plus(TickOf(issued), timer.period), d.lastTime);
  }

  lemma CommandPlan(d: Daemon, t: TimerId, issued: nat, now: nat, expiry: map<TimerId, nat>)
    requires Inv(d, expiry) && Enabled(d, CommandAt(t, Start(issued), now)) && d.timers[t].autoReload
    ensures var d' := Step(d, CommandAt(t, Start(issued), now));
            && t in d'.timers && d'.timers[t].active && d'.timers[t].autoReload
            && d'.timers[t].started == issued && d'.timers[t].period == d.timers[t].period
  {
    UnlistGood(d, t, expiry);
    var _ := SampleGood(d.Unlist(t), now, expiry, {t});
    StartPlan(Sample(d.Unlist(t), now).0, t, issued);
  }

  /**
   * From the start of the daemon: after any run of polls and commands, an
   * auto-reload timer that a command issued at the absolute time C starts, and
   * that is then left alone over any further run, has had floor((now - C) / p)
   * callbacks whenever the daemon blocks at `now`.
   */
  lemma CatchUpFromStart(timers: map<TimerId, Timer>, before: seq<Event>, t: TimerId, issued: nat, at: nat,
      after: seq<Event>, now: nat)
    requires (forall x :: x in timers ==> !timers[x].active) && IsRun(Started(timers), before)
    requires var d := After(Started(timers), before);
             && Enabled(d, CommandAt(t, Start(issued), at)) && d.timers[t].autoReload
             && var d1 := Step(d, CommandAt(t, Start(issued), at));
                && IsRun(d1, after) && (forall e :: e in after && e.CommandAt? ==> e.t != t)
                && Enabled(After(d1, after), PollAt(now)) && Poll(After(d1, after), now).1
    ensures var d := After(Started(timers), before);
            var d' := Step(After(Step(d, CommandAt(t, Start(issued), at)), after), PollAt(now));
            issued <= now && t in d'.timers && d'.timers[t].active
                && d'.timers[t].callbacks == (now - issued) / d.timers[t].period
  {
    StartedGood(timers);
    var expiry := RunInv(Started(timers), before, map[]);
    var d := After(Started(timers), before);
    CommandPlan(d, t, issued, at, expiry);
    expiry := StepGood(d, CommandAt(t, Start(issued), at), expiry);
    var _ := CatchUpExact(Step(d, CommandAt(t, Start(issued), at)), after, now, t, expiry);
  }

  // ---------------------------------------------------------------------------
  // The daemon as the kernel runs it
  // ---------------------------------------------------------------------------

  class TimerService {
    var lastTime: Tick
    var currentTimerList: seq<Entry<TimerId>>
    var overflowTimerList: seq<Entry<TimerId>>
    var timers: map<TimerId, Timer>
    ghost var epoch: nat
    /** The absolute next expiry of each active timer. */
    ghost var expiry: map<TimerId, nat>

    ghost function View(): Daemon
      reads this
    {
      Daemon(lastTime, currentTimerList, overflowTimerList, timers, epoch)
    }

    ghost predicate Valid()
      reads this
    {
      Inv(View(), expiry)
    }

    /** The timer's callback. */
    method Callback(t: TimerId)
      modifies this`timers
      ensures View() == old(View()).Fire(t)
    {
      var timer := GetTimer(t);
      timers := timers[t := timer.(callbacks := timer.callbacks + 1)];
    }

    function GetTimer(t: TimerId): (timer: Timer)
      reads this
      ensures timer == View().Get(t)
    {
      if t in timers then timers[t] else Timer(1, false, false, 0, 0)
    }

    /** prvInsertTimerInActiveList */
    method InsertTimerInActiveList(t: TimerId, nextExpiry: Tick, now: Tick, command: Tick) returns (processNow: bool)
      modifies this`currentTimerList, this`overflowTimerList
      ensures var verdict := Classify(nextExpiry, now, command, old(View()).Get(t).period);
              View() == Insert(old(View()), t, nextExpiry, verdict) && (processNow <==> verdict == ProcessNow)
    {
      processNow := false;
      if nextExpiry <= now {
        if Minus(now, command) >= GetTimer(t).period {
          processNow := true;
        } else {
          overflowTimerList := InsertOrdered(overflowTimerList, Entry(nextExpiry, t));
        }
      } else if now < command && nextExpiry >= command {
        processNow := true;
      } else {
        currentTimerList := InsertOrdered(currentTimerList, Entry(nextExpiry, t));
      }
    }

    /** prvReloadTimer: one callback for every expiry that has passed, until the next one is still to come. */
    method ReloadTimer(t: TimerId, expiredTime: Tick, now: Tick)
      modifies this`currentTimerList, this`overflowTimerList, this`timers
      ensures View() == Reload(old(View()), t, expiredTime, now)
    {
      var expired := expiredTime;
      ghost var goal := Reload(View(), t, expiredTime, now);
      ProcessNowMeans(now, expired, GetTimer(t).period);
      var processNow := InsertTimerInActiveList(t, Plus(expired, GetTimer(t).period), now, expired);
      while processNow
        invariant processNow
                  <==> Classify(Plus(expired, View().Get(t).period), now, expired, View().Get(t).period) == ProcessNow
        invariant if processNow then Reload(View(), t, expired, now) == goal else View() == goal
        decreases processNow, Minus(now, expired)
      {
        ProcessNowMeans(now, expired, GetTimer(t).period);
        expired := Plus(expired, GetTimer(t).period);
        Callback(t);
        ProcessNowMeans(now, expired, GetTimer(t).period);
        processNow := InsertTimerInActiveList(t, Plus(expired, GetTimer(t).period), now, expired);
      }
    }

    /** prvProcessExpiredTimer */
    method ProcessExpiredTimer(now: Tick)
      requires currentTimerList != []
      modifies this`currentTimerList, this`overflowTimerList, this`timers
      ensures View() == ProcessExpired(old(View()), now)
    {
      var t, key := currentTimerList[0].owner, currentTimerList[0].key;
      var timer := GetTimer(t);
      currentTimerList := currentTimerList[1..];
      if timer.autoReload {
        ReloadTimer(t, key, now);
      } else {
        timers := timers[t := timer.(active := false)];
      }
      Callback(t);
    }

    /** prvSwitchTimerLists */
    method SwitchTimerLists()
      modifies this`currentTimerList, this`overflowTimerList, this`timers
      ensures View() == SwitchLists(old(View()))
    {
      ghost var goal := DrainCurrent(View());
      while currentTimerList != []
        invariant DrainCurrent(View()) == goal
        decreases |currentTimerList|
      {
        ReloadAtMax(View().(current := currentTimerList[1..]), currentTimerList[0].owner, currentTimerList[0].key);
        ProcessExpiredTimer(MAX_DELAY);
      }
      currentTimerList, overflowTimerList := overflowTimerList, currentTimerList;
    }

    /** prvSampleTimeNow at the absolute time `now`, of which xTaskGetTickCount returns the low 32 bits. */
    method SampleTimeNow(now: nat) returns (switched: bool)
      modifies this`lastTime, this`currentTimerList, this`overflowTimerList, this`timers, this`epoch
      ensures (View(), switched) == Sample(old(View()), now) && View().Now() == now
    {
      var tick := TickOf(now);
      switched := tick < lastTime;
      if switched { SwitchTimerLists(); }
      lastTime := tick;
      epoch := now / WORD;
    }

    /**
     * prvProcessTimerOrBlockTask.  When the daemon blocks, every active timer's
     * next expiry is still ahead, and it does not block beyond any of them.
     */
    method ProcessTimerOrBlockTask(now: nat) returns (blocks: bool, blockTime: Tick)
      requires Valid() && Enabled(View(), PollAt(now))
      modifies this
      ensures Valid() && View() == Step(old(View()), PollAt(now)) && View().Now() == now
      ensures blocks ==>
                forall t :: t in timers && timers[t].active ==>
                  t in expiry && now < expiry[t] && now + blockTime <= expiry[t]
    {
      ghost var expiry' := PollGood(View(), now, expiry);
      var nextExpire := if currentTimerList == [] then 0 else currentTimerList[0].key;
      var wasEmpty := currentTimerList == [];
      blocks, blockTime := false, 0;
      ghost var d := View();
      var switched := SampleTimeNow(now);
      if !switched {
        if !wasEmpty && nextExpire <= lastTime {
          ProcessExpiredTimer(lastTime);
        } else {
          blocks, blockTime := true, Minus(nextExpire, lastTime);
          assert Poll(d, now).1 && View() == Poll(d, now).0;
          expiry' := AllBlocked(d, now, expiry);
        }
      }
      expiry := expiry';
    }

    /** One command of prvProcessReceivedCommands: the timer leaves its list, then the command is obeyed. */
    method ProcessReceivedCommand(t: TimerId, c: Command, now: nat)
      requires Valid() && Enabled(View(), CommandAt(t, c, now))
      modifies this
      ensures Valid() && View() == Step(old(View()), CommandAt(t, c, now)) && View().Now() == now
    {
      hide Obey, Sample, Inv;
      ghost var expiry' := StepGood(View(), CommandAt(t, c, now), expiry);
      currentTimerList, overflowTimerList := Drop(currentTimerList, t), Drop(overflowTimerList, t);
      var _ := SampleTimeNow(now);
      ObeyCommand(t, c, now);
      expiry := expiry';
    }

    /** A command, once the timer is off its list and the time sampled. */
    method ObeyCommand(t: TimerId, c: Command, now: nat)
      requires View().Now() == now
      modifies this`currentTimerList, this`overflowTimerList, this`timers
      ensures View() == Obey(old(View()), t, c)
    {
      match c {
        case Start(issued) => StartTimer(t, issued);
        case Stop => timers := timers[t := GetTimer(t).(active := false)];
        case ChangePeriod(p) =>
          timers := timers[t := GetTimer(t).(active := true, period := p, started := now, callbacks := 0)];
          var _ := InsertTimerInActiveList(t, Plus(lastTime, p), lastTime, lastTime);
      }
    }

    /** The start commands, with the time sampled. */
    method StartTimer(t: TimerId, issued: nat)
      modifies this`currentTimerList, this`overflowTimerList, this`timers
      ensures View() == Obey(old(View()), t, Start(issued))
    {
      var command := TickOf(issued);
      timers := timers[t := GetTimer(t).(active := true, started := issued, callbacks := 0)];
      var expired := InsertTimerInActiveList(t, Plus(command, GetTimer(t).period), lastTime, command);
      if expired {
        if GetTimer(t).autoReload {
          ReloadTimer(t, Plus(command, GetTimer(t).period), lastTime);
        } else {
          timers := timers[t := GetTimer(t).(active := false)];
        }
        Callback(t);
      }
    }
  }

  /** When the daemon blocks, the recorded expiries are all ahead. */
  lemma AllBlocked(d: Daemon, now: nat, expiry: map<TimerId, nat>) returns (expiry': map<TimerId, nat>)
    requires Inv(d, expiry) && Enabled(d, PollAt(now)) && Poll(d, now).1
    ensures var d' := Step(d, PollAt(now));
            && Inv(d', expiry')
            && forall t :: t in d'.timers && d'.timers[t].active ==>
                 t in expiry' && now + BlockTime(d') <= expiry'[t] && now < expiry'[t]
  {
    expiry' := SampleGood(d, now, expiry, {});
    forall t | t in Poll(d, now).0.timers && Poll(d, now).0.timers[t].active
      ensures t in expiry' && now + BlockTime(Poll(d, now).0) <= expiry'[t] && now < expiry'[t]
    {
      AheadOf(Poll(d, now).0, now, t, expiry');
    }
  }
}
