/**
 * Whole runs of the scheduler: any interleaving of tick interrupts, nested
 * suspensions, blocking, waking, switching, priority changes, priority
 * inheritance, creation and deletion keeps every task placed and keeps time
 * exact.  The running task is ready unless it owes a yield, and no ready task
 * is above it unless a yield is pending; two calls can lose that, and exactly
 * when they do is proved.
 */
module SchedulerRuns {
  import opened Basics
  import opened Ticks
  import opened Lists
  import opened Delays
  import opened ReadyLists
  import opened Scheduler

  datatype Event =
    | TickInterrupt
    | Suspend
    | Resume
    | Block(ticks: Tick, onEvent: bool)
    | Unblock(t: Task)
    | UnblockUnordered(t: Task)
    | Notify(t: Task)
    | Yield
    | Prioritise(t: Task, p: nat)
    | Spawn(t: Task, p: nat)
    | Kill(t: Task)
    | Reclaim
    | InheritPriority(holder: Task)
    | Give(last: bool)
    | GiveTo(t: Task, last: bool)
    | RestorePriority(holder: Task, highestWaiting: nat, onlyOne: bool)

  /**
   * What the kernel asserts or demands of its callers.  A task that owes a
   * yield does nothing else before it, apart from what ends its suspension of
   * the scheduler; interrupts may still arrive.
   */
  ghost predicate Enabled(k: Kernel, e: Event) {
    match e
    case TickInterrupt => true
    case Suspend => !k.owed
    case Resume => k.suspended > 0
    case Block(ticks, onEvent) =>
      k.suspended > 0 && ticks > 0 && k.current != IDLE && !k.owed && (onEvent ==> k.current !in k.pending)
    case Unblock(t) => t in k.waiting && t in k.prio
    case UnblockUnordered(t) => t in k.waiting && t in k.prio && k.suspended > 0
    case Notify(t) =>
        t in k.prio && t !in k.waiting && t !in k.pending
        && (k.clock.Holds(t) || (t == k.current && k.suspended > 0 && !k.owed))
    case Yield => true
    case Prioritise(t, _) => t in k.prio && !k.owed
    case Spawn(t, _) => t !in k.prio && !k.owed
    case Kill(t) => t in k.prio && t != IDLE && t !in k.terminated && !k.owed && (t == k.current ==> k.suspended == 0)
    case Reclaim => k.terminated != [] && !k.owed
    case InheritPriority(holder) => holder in k.prio && k.suspended > 0 && !k.owed
    case Give(_) => !k.owed
    case GiveTo(t, _) => t in k.waiting && t in k.prio && !k.owed
    case RestorePriority(holder, p, _) => holder in k.prio && holder != k.current && p < MAX_PRIORITIES && !k.owed
  }

  /** A task that can be woken is live. */
  lemma WokenIsLive(k: Kernel, t: Task)
    requires Sound(k, []) && k.current !in k.terminated && (k.clock.Holds(t) || t == k.current)
    ensures t in k.prio && t !in k.terminated
  {
    OnceMeans(k, [], t);
  }

  lemma EventMeans(k: Kernel, e: Event)
    requires WellPlaced(k) && EventsOk(k) && Enabled(k, e)
    ensures e.Unblock? || e.UnblockUnordered? || e.Notify? || e.GiveTo? ==>
              e.t in k.prio && e.t !in k.terminated && e.t !in k.pending
  {
    if e.Unblock? || e.UnblockUnordered? || e.Notify? || e.GiveTo? {
      EventItemAt(k, e.t);
      WokenIsLive(k, e.t);
    }
  }

  function SwitchIf(k: Kernel, asked: bool): Kernel
    requires k.ready.Ok()
  {
    if asked then SwitchContext(k) else k
  }

  /** One event; a requested switch is taken at the end of the call that requests it. */
  ghost function Step(k: Kernel, e: Event): Kernel
    requires Basic(k) && Enabled(k, e)
  {
    match e
    case TickInterrupt => SwitchIf(IncrementTick(k).0, IncrementTick(k).1)
    case Suspend => SuspendAll(k)
    case Resume => SwitchIf(ResumeAll(k), k.suspended == 1 && ResumeAll(k).yieldPending)
    case Block(ticks, onEvent) => Sleep(k, ticks, onEvent)
    case Unblock(t) => Wake(k, t)
    case UnblockUnordered(t) => WakeUnordered(k, t)
    case Notify(t) => Wake(k, t)
    case Yield => SwitchContext(k)
    case Prioritise(t, p) => SwitchIf(SetPriority(k, t, p).0, SetPriority(k, t, p).1)
    case Spawn(t, p) => SwitchIf(Create(k, t, p).0, Create(k, t, p).1)
    case Kill(t) => SwitchIf(Delete(k, t), t == k.current)
    case Reclaim => Reap(k)
    case InheritPriority(holder) => Inherit(k, holder)
    case Give(last) => SwitchIf(Disinherit(k, last).0, Disinherit(k, last).1)
    case GiveTo(t, last) => SwitchIf(Given(k, t, last), k.prio[t] > Given(k, t, last).prio[k.current])
    case RestorePriority(holder, p, onlyOne) => Restore(k, holder, p, onlyOne)
  }

  /** Giving a mutex that `t` waits for, up to the yield. */
  function Given(k: Kernel, t: Task, last: bool): (k': Kernel)
    requires Basic(k) && t in k.prio
    ensures Basic(k')
  {
    Wake(Disinherit(k, last).0, t)
  }

  // ---------------------------------------------------------------------------
  // Catching up after a suspension
  // ---------------------------------------------------------------------------

  /** What no part of catching up touches. */
  ghost predicate SameTable(k: Kernel, k': Kernel) {
    && k'.prio == k.prio && k'.base == k.base && k'.terminated == k.terminated && k'.numberOfTasks == k.numberOfTasks
    && k'.suspended == k.suspended && k'.current == k.current && k'.owed == k.owed
  }

  /** `t` is delayed and nothing but time will wake it. */
  ghost predicate Asleep(k: Kernel, t: Task) { k.clock.Holds(t) && t !in k.pending }

  lemma HoldsDrop(c: Clock, x: Task, t: Task)
    requires t != x
    ensures c.Remove(x).Holds(t) <==> c.Holds(t)
  {
    DropOcc(c.delayed, x, t);
    DropOcc(c.overflowed, x, t);
  }

  /** Taking one task off its list leaves the clock right and the other tasks asleep. */
  lemma TakeOffTime(k: Kernel, x: Task, t: Task, wake: map<Task, nat>)
    requires Basic(k) && Agrees(k.clock, wake)
    ensures var c := TakeOff(k, x).clock;
            Agrees(c, wake) && c.Now() == k.clock.Now() && c.tick == k.clock.tick
                && (t != x ==> (c.Holds(t) <==> k.clock.Holds(t)))
  {
    RemoveAgrees(k.clock, x, wake);
    if t != x { HoldsDrop(k.clock, x, t); }
  }

  lemma ReadyPendingTime(k: Kernel, t: Task, wake: map<Task, nat>)
    requires Basic(k) && Agrees(k.clock, wake) && k.pending != []
    ensures var k' := ReadyPending(k);
            && SameTable(k, k') && k'.pended == k.pended && Agrees(k'.clock, wake) && k'.clock.Now() == k.clock.Now()
            && (t != k.pending[0] ==> (k'.clock.Holds(t) <==> k.clock.Holds(t)))
  {
    TakeOffTime(k.(pending := k.pending[1..]), k.pending[0], t, wake);
  }

  lemma {:induction false} DrainTime(k: Kernel, t: Task, wake: map<Task, nat>)
    requires Basic(k) && Agrees(k.clock, wake)
    ensures var k' := DrainPending(k);
            && SameTable(k, k') && k'.pended == k.pended && Agrees(k'.clock, wake) && k'.clock.Now() == k.clock.Now()
            && (t !in k.pending ==> (k'.clock.Holds(t) <==> k.clock.Holds(t)))
    decreases |k.pending|
  {
    if k.pending != [] {
      ReadyPendingTime(k, t, wake);
      DrainTime(ReadyPending(k), t, wake);
    }
  }

  lemma ReadyPendingWakes(k: Kernel, t: Task)
    requires Sound(k, []) && k.pending != []
    ensures ReadyPending(k).clock.Holds(t) ==> k.clock.Holds(t) && t != k.pending[0]
  {
    var k0 := k.(pending := k.pending[1..]);
    assert k.pending[0] in k.pending;
    SoundFrame(k, k0, []);
    TakeOffSound(k0, k.pending[0]);
  }

  /** No pending task is left on a delayed list. */
  lemma {:induction false} DrainWakes(k: Kernel, t: Task)
    requires Sound(k, []) && (t in k.pending || !k.clock.Holds(t))
    ensures !DrainPending(k).clock.Holds(t)
    decreases |k.pending|
  {
    if k.pending != [] {
      ReadyPendingSound(k);
      ReadyPendingWakes(k, t);
      DrainWakes(ReadyPending(k), t);
    }
  }

  lemma ReadyPendingHighest(k: Kernel)
    requires Sound(k, []) && k.pending != [] && RunsHighest(k)
    ensures RunsHighest(ReadyPending(k))
  {
    hide EachOnce, TakeOff, MakeReady, Lengths;
    var x, k0 := k.pending[0], k.(pending := k.pending[1..]);
    assert x in k.pending;
    SoundFrame(k, k0, []);
    TakeOffSound(k0, x);
    TakeOffNoneAbove(k0, x, k.prio[k.current]);
    AddNoneAbove(TakeOff(k0, x), x, k.prio[k.current]);
  }

  lemma {:induction false} DrainHighest(k: Kernel)
    requires Sound(k, []) && RunsHighest(k)
    ensures RunsHighest(DrainPending(k))
    decreases |k.pending|
  {
    hide EachOnce, ByPriority, TakeOff, MakeReady;
    if k.pending != [] {
      ReadyPendingSound(k);
      ReadyPendingHighest(k);
      DrainHighest(ReadyPending(k));
    }
  }

  /** One processed tick, in absolute time. */
  lemma TickTime(k: Kernel, t: Task, wake: map<Task, nat>)
    requires Basic(k) && Agrees(k.clock, wake) && k.suspended == 0
    ensures var k' := IncrementTick(k).0;
            && SameTable(k, k') && k'.pended == k.pended && k'.pending == k.pending && k'.yieldPending == k.yieldPending
            && Agrees(k'.clock, wake) && k'.clock.Now() == k.clock.Now() + 1 && k'.clock.tick == Plus(k.clock.tick, 1)
            && (k'.clock.Holds(t) <==> k.clock.Holds(t) && !WakesAt(wake, t, k.clock.Now() + 1))
  {
    AdvanceExact(k.clock, wake);
  }

  lemma ReplayTickTime(k: Kernel, t: Task, wake: map<Task, nat>)
    requires Basic(k) && Agrees(k.clock, wake) && k.suspended == 0
    ensures var k' := ReplayTick(k);
            && SameTable(k, k') && k'.pended == k.pended && k'.pending == k.pending
            && Agrees(k'.clock, wake) && k'.clock.Now() == k.clock.Now() + 1
            && (k'.clock.Holds(t) <==> k.clock.Holds(t) && !WakesAt(wake, t, k.clock.Now() + 1))
  {
    TickTime(k, t, wake);
  }

  lemma {:induction false} ReplayTime(k: Kernel, n: nat, t: Task, wake: map<Task, nat>)
    requires Basic(k) && Agrees(k.clock, wake) && k.suspended == 0
    ensures var k' := Replay(k, n);
            && SameTable(k, k') && k'.pended == k.pended && k'.pending == k.pending
            && Agrees(k'.clock, wake) && k'.clock.Now() == k.clock.Now() + n
            && (k'.clock.Holds(t) ==> k.clock.Holds(t))
            && (k.clock.Holds(t) && t in wake && wake[t] > k'.clock.Now() ==> k'.clock.Holds(t))
    decreases n
  {
    hide Sound, ReplayTick, OnTime;
    if n > 0 {
      var k1 := ReplayTick(k);
      ReplayTickTime(k, t, wake);
      ReplayTime(k1, n - 1, t, wake);
      ReplayNext(k, k1, n - 1);
    }
  }

  lemma RecomputeTime(k: Kernel, needed: bool, t: Task, wake: map<Task, nat>)
    requires Agrees(k.clock, wake)
    ensures var k' := Recompute(k, needed);
            && SameTable(k, k') && k'.pended == k.pended && k'.pending == k.pending && k'.ready == k.ready
            && Agrees(k'.clock, wake) && k'.clock.Now() == k.clock.Now() && (k'.clock.Holds(t) <==> k.clock.Holds(t))
  {
  }

  lemma {:induction false} ReplayHighest(k: Kernel, n: nat)
    requires Sound(k, []) && RunsHighest(k)
    ensures RunsHighest(Replay(k, n))
    decreases n
  {
    if n > 0 {
      TickSound(k);
      ReplayTickSound(k);
      ReplayHighest(ReplayTick(k), n - 1);
    }
  }

  /**
   * Catching up moves time by the number of pended ticks, leaves nothing
   * pending and wakes exactly the tasks whose time has come, besides those
   * that were pending.
   */
  lemma CatchupTime(k: Kernel, t: Task, wake: map<Task, nat>)
    requires Basic(k) && Agrees(k.clock, wake) && k.suspended == 0
    ensures var k' := Catchup(k);
            && SameTable(k, k') && k'.pended == 0 && k'.pending == []
            && Agrees(k'.clock, wake) && k'.clock.Now() == k.clock.Now() + k.pended
            && (t !in k.pending && k'.clock.Holds(t) ==> k.clock.Holds(t))
            && (Asleep(k, t) && t in wake && wake[t] > k'.clock.Now() ==> k'.clock.Holds(t))
  {
    DrainTime(k, t, wake);
    var k2 := Recompute(DrainPending(k), k.pending != []);
    RecomputeTime(DrainPending(k), k.pending != [], t, wake);
    ReplayTime(k2, k2.pended, t, wake);
  }

  /** Every task that was made pending under suspension is ready after the outermost resume. */
  lemma CatchupReadies(k: Kernel, t: Task, wake: map<Task, nat>)
    requires Sound(k, []) && Agrees(k.clock, wake) && k.suspended == 0 && t in k.pending
    ensures t in k.prio && t in Catchup(k).ready.lists[k.prio[t]].items && !Catchup(k).clock.Holds(t)
  {
    hide EachOnce, ByPriority, OnTime, TakeOff, MakeReady, Lengths, ReplayTick;
    DrainWakes(k, t);
    DrainTime(k, t, wake);
    var k2 := Recompute(DrainPending(k), k.pending != []);
    RecomputeTime(DrainPending(k), k.pending != [], t, wake);
    ReplayTime(k2, k2.pended, t, wake);
    CatchupSound(k);
    OnItsReadyList(Catchup(k), t);
  }

  lemma CatchupHighest(k: Kernel)
    requires Sound(k, []) && RunsHighest(k)
    ensures RunsHighest(Catchup(k))
  {
    DrainSound(k);
    DrainHighest(k);
    var k2 := Recompute(DrainPending(k), k.pending != []);
    SoundFrame(DrainPending(k), k2, []);
    ReplayHighest(k2, k2.pended);
  }

  // ---------------------------------------------------------------------------
  // One event
  // ---------------------------------------------------------------------------

  /** The scheduler's invariant; `wake` records the absolute time each delayed task sleeps until. */
  ghost predicate Inv(k: Kernel, wake: map<Task, nat>) {
    WellPlaced(k) && EventsOk(k) && Agrees(k.clock, wake)
  }

  /** Going to sleep records the time to sleep until. */
  ghost function NextWake(k: Kernel, wake: map<Task, nat>, e: Event): map<Task, nat> {
    if e.Block? then wake[k.current := k.clock.Now() + e.ticks] else wake
  }

  /** The state in which the scheduler starts: the idle task runs and nothing else exists. */
  function Booted(): Kernel {
    Kernel(
      Clock(0, [], [], MAX_DELAY, 0),
      Ready([Ring([IDLE], 0), Ring([], 0), Ring([], 0), Ring([], 0), Ring([], 0), Ring([], 0), Ring([], 0)], 0),
      IDLE, false, false, 0, 0, [], {}, map[IDLE := 0], map[IDLE := 0], [], 1)
  }

  lemma BootedOnce(t: Task)
    ensures var k := Booted(); Once(k.ready.lists, k.clock.delayed, k.clock.overflowed, k.terminated, [],
            k.prio.Keys, t)
    ensures Total(Booted().ready.lists) == 1
  {
    var lists := Booted().ready.lists;
    assert lists[1..] == [Ring([], 0), Ring([], 0), Ring([], 0), Ring([], 0), Ring([], 0), Ring([], 0)];
    EmptyLists(lists[1..], t);
  }

  lemma BootedSound()
    ensures Sound(Booted(), [])
  {
    hide OccAll, Total;
    var k := Booted();
    forall t ensures Once(k.ready.lists, k.clock.delayed, k.clock.overflowed, k.terminated, [], k.prio.Keys, t) {
      BootedOnce(t);
    }
    BootedOnce(IDLE);
    assert k.prio.Keys == {IDLE};
  }

  lemma BootedInv()
    ensures Inv(Booted(), map[]) && RunsHighest(Booted())
  {
    hide EachOnce, ByPriority, Lengths;
    BootedSound();
    var k := Booted();
    forall t ensures EventItem(k.waiting, k.pending, k.clock, t) {}
  }

  lemma {:induction false} EmptyLists(lists: seq<Ring<Task>>, t: Task)
    requires forall p :: 0 <= p < |lists| ==> lists[p].items == []
    ensures OccAll(lists, t) == 0 && Total(lists) == 0
  {
    if lists != [] { EmptyLists(lists[1..], t); }
  }

  lemma SwitchIfInv(k: Kernel, asked: bool)
    requires Sound(k, [])
    requires k.suspended == 0 ==> k.pending == [] && k.pended == 0
    requires k.current in k.terminated || (!k.owed && k.clock.Holds(k.current)) ==> asked && k.suspended == 0
    ensures WellPlaced(SwitchIf(k, asked)) && OnlySwitched(k, SwitchIf(k, asked))
    ensures asked || RunsHighest(k) <==> RunsHighest(SwitchIf(k, asked))
    ensures asked && k.suspended == 0 ==> !SwitchIf(k, asked).owed
  {
    if asked {
      SwitchSound(k);
      var k' := SwitchContext(k);
      if k.suspended == 0 {
        OnceMeans(k', [], k'.current);
        OccAllIs(k'.ready.lists, k'.current, k'.prio[k'.current]);
      }
    }
  }

  lemma ResumeAllSound(k: Kernel)
    requires Sound(k, []) && k.suspended > 0
    ensures Sound(ResumeAll(k), [])
    ensures RunsHighest(k) ==> RunsHighest(ResumeAll(k))
  {
    var k1 := k.(suspended := k.suspended - 1);
    SoundFrame(k, k1, []);
    if k1.suspended == 0 {
      CatchupSound(k1);
      if RunsHighest(k) { CatchupHighest(k1); }
    }
  }

  lemma ResumeAllTime(k: Kernel, t: Task, wake: map<Task, nat>)
    requires Basic(k) && Agrees(k.clock, wake) && k.suspended > 0
    ensures var k' := ResumeAll(k);
            && Agrees(k'.clock, wake) && k'.current == k.current && k'.terminated == k.terminated
                && k'.suspended == k.suspended - 1
            && k'.owed == k.owed
            && k'.clock.Now() == k.clock.Now() + (if k.suspended == 1 then k.pended else 0)
            && k'.pended == (if k.suspended == 1 then 0 else k.pended)
            && (k.suspended == 1 ==> k'.pending == [])
            && (t !in k.pending && k'.clock.Holds(t) ==> k.clock.Holds(t))
            && (Asleep(k, t) && t in wake && wake[t] > k'.clock.Now() ==> Asleep(k', t))
  {
    var k1 := k.(suspended := k.suspended - 1);
    if k1.suspended == 0 { CatchupTime(k1, t, wake); }
  }

  /** Resuming wakes nobody's sleep into being. */
  lemma ResumeWakesOnly(k: Kernel, t: Task, wake: map<Task, nat>)
    requires Sound(k, []) && Agrees(k.clock, wake) && k.suspended > 0
    ensures ResumeAll(k).clock.Holds(t) ==> k.clock.Holds(t)
  {
    hide EachOnce, ByPriority, TakeOff, MakeReady;
    var k1 := k.(suspended := k.suspended - 1);
    SoundFrame(k, k1, []);
    ResumeAllTime(k, t, wake);
    if k1.suspended == 0 && t in k.pending {
      CatchupReadies(k1, t, wake);
    }
  }

  lemma ResumePlaced(k: Kernel, wake: map<Task, nat>)
    requires Inv(k, wake) && k.suspended > 0
    ensures WellPlaced(Step(k, Resume)) && (RunsHighest(k) ==> RunsHighest(Step(k, Resume)))
    ensures OnlySwitched(ResumeAll(k), Step(k, Resume))
  {
    ResumeAllSound(k);
    ResumeAllTime(k, 0, wake);
    ResumeWakesOnly(k, k.current, wake);
    SwitchIfInv(ResumeAll(k), k.suspended == 1 && ResumeAll(k).yieldPending);
  }

  lemma TickPlaced(k: Kernel, wake: map<Task, nat>)
    requires Inv(k, wake)
    ensures WellPlaced(Step(k, TickInterrupt)) && (RunsHighest(k) ==> RunsHighest(Step(k, TickInterrupt)))
    ensures OnlySwitched(IncrementTick(k).0, Step(k, TickInterrupt))
  {
    TickSound(k);
    if k.suspended == 0 { TickTime(k, k.current, wake); }
    SwitchIfInv(IncrementTick(k).0, IncrementTick(k).1);
  }

  lemma KillPlaced(k: Kernel, t: Task)
    requires WellPlaced(k) && EventsOk(k) && Enabled(k, Kill(t))
    ensures WellPlaced(Step(k, Kill(t))) && (RunsHighest(k) ==> RunsHighest(Step(k, Kill(t))))
    ensures OnlySwitched(Delete(k, t), Step(k, Kill(t)))
  {
    hide EachOnce, ByPriority, TakeOff, MakeReady, Lengths;
    DeleteSound(k, t);
    SoundFrame(k, k.(waiting := k.waiting - {t}, pending := Without(k.pending, t)), []);
    TakeOffSound(k.(waiting := k.waiting - {t}, pending := Without(k.pending, t)), t);
    if t != k.current && RunsHighest(k) { DeleteHighest(k, t); }
    SwitchIfInv(Delete(k, t), t == k.current);
  }

  lemma SpawnPlaced(k: Kernel, e: Event)
    requires WellPlaced(k) && EventsOk(k) && Enabled(k, e) && e.Spawn?
    ensures WellPlaced(Step(k, e)) && OnlySwitched(Create(k, e.t, e.p).0, Step(k, e))
    ensures RunsHighest(k) ==> RunsHighest(Step(k, e))
  {
    CreateSound(k, e.t, e.p);
    SwitchIfInv(Create(k, e.t, e.p).0, Create(k, e.t, e.p).1);
  }

  lemma PrioritisePlaced(k: Kernel, e: Event)
    requires WellPlaced(k) && EventsOk(k) && Enabled(k, e) && e.Prioritise?
    ensures WellPlaced(Step(k, e)) && OnlySwitched(SetPriority(k, e.t, e.p).0, Step(k, e))
    ensures RunsHighest(k) ==> RunsHighest(Step(k, e))
  {
    SetPrioritySound(k, e.t, e.p);
    if RunsHighest(k) { SetPriorityHighest(k, e.t, e.p); }
    SwitchIfInv(SetPriority(k, e.t, e.p).0, SetPriority(k, e.t, e.p).1);
  }

  /** Waking a task leaves the running one as it is. */
  lemma WakeUnorderedPlaced(k: Kernel, t: Task)
    requires WellPlaced(k) && t in k.prio && t !in k.terminated
    ensures WellPlaced(WakeUnordered(k, t)) && (RunsHighest(k) ==> RunsHighest(WakeUnordered(k, t)))
  {
    hide EachOnce, ByPriority, TakeOff, MakeReady;
    WakeUnorderedSound(k, t);
    var k0 := k.(waiting := k.waiting - {t}, yieldPending := k.yieldPending || k.prio[t] > k.prio[k.current]);
    SoundFrame(k, k0, []);
    TakeOffSound(k0, t);
  }

  lemma WakePlaced(k: Kernel, t: Task)
    requires WellPlaced(k) && t in k.prio && t !in k.terminated
    ensures WellPlaced(Wake(k, t)) && (RunsHighest(k) ==> RunsHighest(Wake(k, t)))
  {
    hide EachOnce, ByPriority, TakeOff, MakeReady;
    WakeSound(k, t);
    if k.suspended == 0 { WakeUnorderedPlaced(k, t); }
  }

  lemma BlockPlaced(k: Kernel, e: Event)
    requires WellPlaced(k) && EventsOk(k) && Enabled(k, e) && e.Block?
    ensures WellPlaced(Step(k, e)) && (RunsHighest(k) ==> RunsHighest(Step(k, e)))
  {
    SleepSound(k, e.ticks, e.onEvent);
  }

  lemma ReclaimPlaced(k: Kernel)
    requires WellPlaced(k) && EventsOk(k) && Enabled(k, Reclaim)
    ensures WellPlaced(Step(k, Reclaim)) && (RunsHighest(k) ==> RunsHighest(Step(k, Reclaim)))
  {
    ReapSound(k);
  }

  lemma SuspendPlaced(k: Kernel)
    requires WellPlaced(k) && EventsOk(k) && Enabled(k, Suspend)
    ensures WellPlaced(Step(k, Suspend)) && (RunsHighest(k) ==> RunsHighest(Step(k, Suspend)))
  {
    SoundFrame(k, SuspendAll(k), []);
  }

  lemma GivePlaced(k: Kernel, last: bool)
    requires WellPlaced(k) && EventsOk(k) && Enabled(k, Give(last))
    ensures WellPlaced(Step(k, Give(last))) && OnlySwitched(Disinherit(k, last).0, Step(k, Give(last)))
    ensures RunsHighest(k) ==> RunsHighest(Step(k, Give(last)))
  {
    DisinheritSound(k, last);
    SwitchIfInv(Disinherit(k, last).0, Disinherit(k, last).1);
  }

  lemma GiveToPlaced(k: Kernel, t: Task, last: bool)
    requires WellPlaced(k) && EventsOk(k) && Enabled(k, GiveTo(t, last))
    ensures t in k.prio && WellPlaced(Step(k, GiveTo(t, last)))
            && OnlySwitched(Given(k, t, last), Step(k, GiveTo(t, last)))
  {
    hide EachOnce, ByPriority, TakeOff, MakeReady, Reprice, Lengths;
    EventMeans(k, GiveTo(t, last));
    DisinheritSound(k, last);
    WakePlaced(Disinherit(k, last).0, t);
    SwitchIfInv(Given(k, t, last), k.prio[t] > Given(k, t, last).prio[k.current]);
  }

  lemma StepPlaced(k: Kernel, e: Event, wake: map<Task, nat>)
    requires Inv(k, wake) && Enabled(k, e)
    ensures WellPlaced(Step(k, e))
  {
    EventMeans(k, e);
    match e
    case TickInterrupt => TickPlaced(k, wake);
    case Suspend => SuspendPlaced(k);
    case Resume => ResumePlaced(k, wake);
    case Block(_, _) => BlockPlaced(k, e);
    case Unblock(t) => WakePlaced(k, t);
    case UnblockUnordered(t) => WakeUnorderedPlaced(k, t);
    case Notify(t) => WakePlaced(k, t);
    case Yield => SwitchIfInv(k, true);
    case Prioritise(_, _) => PrioritisePlaced(k, e);
    case Spawn(_, _) => SpawnPlaced(k, e);
    case Kill(t) => KillPlaced(k, t);
    case Reclaim => ReclaimPlaced(k);
    case InheritPriority(holder) => InheritSound(k, holder);
    case Give(last) => GivePlaced(k, last);
    case GiveTo(t, last) => GiveToPlaced(k, t, last);
    case RestorePriority(holder, p, onlyOne) => RestoreSound(k, holder, p, onlyOne);
  }

  // ---------------------------------------------------------------------------
  // The highest ready task runs
  // ---------------------------------------------------------------------------

  /**
   * The two calls that can leave a ready task above the running one without
   * asking for a yield: giving back the last of several mutexes to a waiter
   * that is not above the giver's base priority, while another ready task is;
   * and setting a ready holder's priority, after a timeout, above the running
   * task's.
   */
  ghost predicate LosesYield(k: Kernel, e: Event)
    requires Basic(k)
  {
    match e
    case GiveTo(t, last) =>
      && last && k.prio[k.current] != k.base[k.current] && !k.yieldPending
      && t in k.prio && k.prio[t] <= k.base[k.current] && OtherAbove(k, k.current, k.base[k.current])
    case RestorePriority(holder, p, onlyOne) =>
      holder in k.prio && onlyOne && !k.yieldPending && IsReady(k, holder) && Restored(k, holder, p) > k.prio[k.current]
    case _ => false
  }

  lemma WakeKeepsHighest(k: Kernel, t: Task)
    requires Sound(k, []) && t in k.prio && t !in k.terminated && k.prio[t] <= k.prio[k.current]
    ensures RunsHighest(Wake(k, t)) <==> RunsHighest(k)
  {
    hide EachOnce, ByPriority, TakeOff, MakeReady;
    if RunsHighest(k) {
      WakeSound(k, t);
    } else if k.suspended == 0 {
      var q :| k.prio[k.current] < q < MAX_PRIORITIES && k.ready.lists[q].items != [];
      var k0 := k.(waiting := k.waiting - {t});
      assert Wake(k, t) == MakeReady(TakeOff(k0, t), t);
      MoveElsewhere(k0, t, q);
    }
  }

  /** Moving a task to its ready list leaves the ready lists of other priorities alone. */
  lemma MoveElsewhere(k: Kernel, t: Task, q: nat)
    requires Basic(k) && t in k.prio && q < MAX_PRIORITIES && q != k.prio[t]
    ensures MakeReady(TakeOff(k, t), t).ready.lists[q] == k.ready.lists[q]
  {
  }

  /**
   * Before the yield, exactly the bad case has left a ready task above the
   * giver, unless the woken task is above it.
   */
  lemma GivenHighest(k: Kernel, t: Task, last: bool)
    requires WellPlaced(k) && t in k.prio && t !in k.terminated && t != k.current && !k.owed && RunsHighest(k)
    ensures var k' := Given(k, t, last);
            k.prio[t] <= k'.prio[k.current] ==> (RunsHighest(k') <==> !LosesYield(k, GiveTo(t, last)))
    ensures k.prio[t] > Given(k, t, last).prio[k.current] ==> !LosesYield(k, GiveTo(t, last))
  {
    hide EachOnce, ByPriority, TakeOff, MakeReady, Reprice, Lengths;
    var (k1, lowered) := Disinherit(k, last);
    DisinheritSound(k, last);
    if k.prio[t] <= k1.prio[k.current] { WakeKeepsHighest(k1, t); }
    if lowered {
      RunningIsReady(k);
      RepriceNoneAbove(k, k.current, k.base[k.current], k.base[k.current], k.base[k.current]);
    }
  }

  lemma GiveToHighest(k: Kernel, t: Task, last: bool)
    requires WellPlaced(k) && EventsOk(k) && Enabled(k, GiveTo(t, last)) && RunsHighest(k)
    ensures RunsHighest(Step(k, GiveTo(t, last))) <==> !LosesYield(k, GiveTo(t, last))
  {
    hide EachOnce, ByPriority, TakeOff, MakeReady, Reprice, SwitchContext, Lengths;
    EventMeans(k, GiveTo(t, last));
    EventItemAt(k, t);
    DisinheritSound(k, last);
    WakePlaced(Disinherit(k, last).0, t);
    GivenHighest(k, t, last);
    SwitchIfInv(Given(k, t, last), k.prio[t] > Given(k, t, last).prio[k.current]);
  }

  /**
   * Every event but the two calls in their bad case leaves no ready task above
   * the running one, or a yield pending; in the bad case neither holds.
   */
  lemma StepHighest(k: Kernel, e: Event, wake: map<Task, nat>)
    requires Inv(k, wake) && Enabled(k, e) && RunsHighest(k)
    ensures WellPlaced(Step(k, e))
    ensures RunsHighest(Step(k, e)) <==> !LosesYield(k, e)
  {
    hide EachOnce, ByPriority, Lengths, OnTime;
    StepPlaced(k, e, wake);
    EventMeans(k, e);
    match e
    case TickInterrupt => TickPlaced(k, wake);
    case Suspend => SuspendPlaced(k);
    case Resume => ResumePlaced(k, wake);
    case Block(_, _) => BlockPlaced(k, e);
    case Unblock(t) => WakePlaced(k, t);
    case UnblockUnordered(t) => WakeUnorderedPlaced(k, t);
    case Notify(t) => WakePlaced(k, t);
    case Yield => SwitchIfInv(k, true);
    case Prioritise(_, _) => PrioritisePlaced(k, e);
    case Spawn(_, _) => SpawnPlaced(k, e);
    case Kill(t) => KillPlaced(k, t);
    case Reclaim => ReclaimPlaced(k);
    case InheritPriority(holder) => InheritSound(k, holder);
    case Give(last) => GivePlaced(k, last);
    case GiveTo(t, last) => GiveToHighest(k, t, last);
    case RestorePriority(holder, p, onlyOne) => RestoreSound(k, holder, p, onlyOne);
  }

  /** Events that wake, delete or re-create `t` by other means than time. */
  predicate Touches(e: Event, t: Task) {
    (e.Unblock? || e.UnblockUnordered? || e.Notify? || e.GiveTo? || e.Kill? || e.Spawn?) && e.t == t
  }

  /** Time stands still, and `t` sleeps on if it was asleep and is not touched. */
  ghost predicate Undisturbed(k: Kernel, k': Kernel, e: Event, t: Task, wake: map<Task, nat>) {
    && Agrees(k'.clock, wake) && k'.clock.Now() == k.clock.Now() && k'.clock.tick == k.clock.tick
        && k'.pended == k.pended
    && (Asleep(k, t) && !Touches(e, t) ==> Asleep(k', t))
  }

  lemma UnblockUnorderedTime(k: Kernel, x: Task, t: Task, wake: map<Task, nat>)
    requires Basic(k) && Agrees(k.clock, wake) && x in k.prio
    ensures Undisturbed(k, WakeUnordered(k, x), Unblock(x), t, wake)
  {
    TakeOffTime(k
        .(waiting := k.waiting - {x}, yieldPending := k.yieldPending || k.prio[x] > k.prio[k.current]), x, t, wake);
  }

  lemma UnblockTime(k: Kernel, x: Task, t: Task, wake: map<Task, nat>)
    requires Basic(k) && Agrees(k.clock, wake) && x in k.prio
    ensures Undisturbed(k, Wake(k, x), Unblock(x), t, wake)
  {
    if k.suspended == 0 { UnblockUnorderedTime(k, x, t, wake); }
  }

  lemma PrioritiseTime(k: Kernel, e: Event, t: Task, wake: map<Task, nat>)
    requires Inv(k, wake) && Enabled(k, e) && e.Prioritise?
    ensures Undisturbed(k, Step(k, e), e, t, wake)
  {
    PrioritisePlaced(k, e);
    SetPrioritySound(k, e.t, e.p);
  }

  lemma GiveToTime(k: Kernel, x: Task, last: bool, t: Task, wake: map<Task, nat>)
    requires Inv(k, wake) && Enabled(k, GiveTo(x, last))
    ensures Undisturbed(k, Step(k, GiveTo(x, last)), GiveTo(x, last), t, wake)
  {
    GiveToPlaced(k, x, last);
    DisinheritSound(k, last);
    UnblockTime(Disinherit(k, last).0, x, t, wake);
  }

  lemma DeleteClock(k: Kernel, x: Task)
    requires Sound(k, []) && Enabled(k, Kill(x))
    ensures var k1, k' := TakeOff(k.(waiting := k.waiting - {x}, pending := Without(k.pending, x)), x), Delete(k, x);
            && k'.pending == k1.pending == Without(k.pending, x) && k'.pended == k1.pended == k.pended
                && k1.clock.tick == k.clock.tick
            && k'.clock == if x == k.current then k1.clock else k1.clock.ResetNextUnblock()
  {
  }

  lemma DeleteTime(k: Kernel, x: Task, t: Task, wake: map<Task, nat>)
    requires Sound(k, []) && Agrees(k.clock, wake) && Enabled(k, Kill(x))
    ensures Undisturbed(k, Delete(k, x), Kill(x), t, wake)
  {
    DeleteClock(k, x);
    TakeOffTime(k.(waiting := k.waiting - {x}, pending := Without(k.pending, x)), x, t, wake);
  }

  /** The clock after an event, apart from ticks and blocking, is as before with at most one task removed. */
  lemma OtherClocks(k: Kernel, e: Event, t: Task, wake: map<Task, nat>)
    requires Inv(k, wake) && Enabled(k, e) && !e.TickInterrupt? && !e.Resume? && !e.Block?
    ensures Undisturbed(k, Step(k, e), e, t, wake)
  {
    hide EachOnce, ByPriority, Lengths, OnTime;
    EventMeans(k, e);
    match e
    case Suspend =>
    case Notify(x) => UnblockTime(k, x, t, wake);
    case InheritPriority(holder) => InheritSound(k, holder);
    case Give(last) => GivePlaced(k, last); DisinheritSound(k, last);
    case GiveTo(x, last) => GiveToTime(k, x, last, t, wake);
    case RestorePriority(holder, p, onlyOne) => RestoreSound(k, holder, p, onlyOne);
    case Unblock(x) => UnblockTime(k, x, t, wake);
    case UnblockUnordered(x) => UnblockUnorderedTime(k, x, t, wake);
    case Yield => SwitchIfInv(k, true);
    case Prioritise(_, _) => PrioritiseTime(k, e, t, wake);
    case Spawn(_, _) => SpawnPlaced(k, e);
    case Kill(x) => DeleteTime(k, x, t, wake); KillPlaced(k, x);
    case Reclaim =>
  }

  lemma BlockTime(k: Kernel, ticks: Tick, onEvent: bool, t: Task, wake: map<Task, nat>)
    requires Inv(k, wake) && Enabled(k, Block(ticks, onEvent))
    ensures var k' := Sleep(k, ticks, onEvent);
            && Agrees(k'.clock, NextWake(k, wake, Block(ticks, onEvent))) && k'.clock.Now() == k.clock.Now()
                && k'.clock.tick == k.clock.tick
            && (Asleep(k, t) ==> Asleep(k', t) && t != k.current)
            && k'.clock.Holds(k.current)
  {
    assert Sleep(k, ticks, onEvent).clock == k.clock.Add(k.current, ticks);
    AddAgrees(k.clock, k.current, ticks, wake);
  }

  lemma ResumeTime(k: Kernel, t: Task, wake: map<Task, nat>)
    requires Inv(k, wake) && k.suspended > 0
    ensures var k' := Step(k, Resume);
            && Agrees(k'.clock, wake)
            && k'.clock.Now() == k.clock.Now() + (if k.suspended == 1 then k.pended else 0)
            && k'.pended == (if k.suspended == 1 then 0 else k.pended)
            && (Asleep(k, t) && t in wake && wake[t] > k'.clock.Now() ==> Asleep(k', t))
  {
    ResumePlaced(k, wake);
    ResumeAllTime(k, t, wake);
  }

  /** What time does in one event. */
  lemma StepTime(k: Kernel, e: Event, t: Task, wake: map<Task, nat>)
    requires Inv(k, wake) && Enabled(k, e)
    ensures var k', wake' := Step(k, e), NextWake(k, wake, e);
            && Agrees(k'.clock, wake') && k'.clock.Now() >= k.clock.Now()
            && (Asleep(k, t) && !Touches(e, t) && t in wake && wake[t] > k'.clock.Now() ==>
                  Asleep(k', t) && t in wake' && wake'[t] == wake[t])
  {
    hide EachOnce, ByPriority, Lengths, OnTime;
    match e
    case TickInterrupt =>
      TickPlaced(k, wake);
      TickSound(k);
      if k.suspended == 0 { TickTime(k, t, wake); }
    case Resume => ResumeTime(k, t, wake);
    case Block(ticks, onEvent) => BlockTime(k, ticks, onEvent, t, wake);
    case _ => OtherClocks(k, e, t, wake);
  }

  // ---------------------------------------------------------------------------
  // Event items
  // ---------------------------------------------------------------------------

  /** One fewer task is on an event list or pending, and only that task may have left its delayed list. */
  ghost predicate OneWoken(k: Kernel, k': Kernel, x: Task) {
    && k'.waiting == k.waiting - {x}
    && (forall t :: Occ(k'.pending, t) <= Occ(k.pending, t) + if t == x
        && x in k.waiting + {x} - (set y | y in k.pending) then 1 else 0)
    && (forall t :: t != x && k.clock.Holds(t) ==> k'.clock.Holds(t))
  }

  lemma OneWokenEvents(k: Kernel, k': Kernel, x: Task)
    requires EventsOk(k) && OneWoken(k, k', x)
    ensures EventsOk(k')
  {
    forall t ensures EventItem(k'.waiting, k'.pending, k'.clock, t) { EventItemAt(k, t); }
  }

  lemma WakeUnorderedEvents(k: Kernel, x: Task)
    requires Sound(k, []) && EventsOk(k) && x in k.prio && x !in k.terminated
    ensures EventsOk(WakeUnordered(k, x))
  {
    hide EachOnce, ByPriority, TakeOff, MakeReady;
    var k0 := k.(waiting := k.waiting - {x}, yieldPending := k.yieldPending || k.prio[x] > k.prio[k.current]);
    SoundFrame(k, k0, []);
    TakeOffSound(k0, x);
    OneWokenEvents(k, WakeUnordered(k, x), x);
  }

  lemma WakeEvents(k: Kernel, x: Task)
    requires Sound(k, []) && EventsOk(k) && x in k.prio && x !in k.terminated && x !in k.pending
    ensures EventsOk(Wake(k, x))
  {
    hide EachOnce, ByPriority, TakeOff, MakeReady;
    if k.suspended == 0 {
      WakeUnorderedEvents(k, x);
    } else {
      forall t ensures Occ(k.pending + [x], t) == Occ(k.pending, t) + if t == x then 1 else 0 {
        OccConcat(k.pending, [x], t);
        assert [x][1..] == [];
      }
      OneWokenEvents(k, Wake(k, x), x);
    }
  }

  lemma {:induction false} WithoutOcc(s: seq<Task>, x: Task, t: Task)
    ensures Occ(Without(s, x), t) == if t == x then 0 else Occ(s, t)
  {
    if s != [] {
      WithoutOcc(s[1..], x, t);
      OccConcat(if s[0] == x then [] else [s[0]], Without(s[1..], x), t);
    }
  }

  lemma KillEvents(k: Kernel, x: Task)
    requires Sound(k, []) && EventsOk(k) && Enabled(k, Kill(x))
    ensures EventsOk(Delete(k, x))
  {
    hide EachOnce, ByPriority, TakeOff, MakeReady;
    var k0 := k.(waiting := k.waiting - {x}, pending := Without(k.pending, x));
    SoundFrame(k, k0, []);
    TakeOffSound(k0, x);
    DeleteClock(k, x);
    forall t ensures Occ(Without(k.pending, x), t) <= Occ(k.pending, t) { WithoutOcc(k.pending, x, t); }
    OneWokenEvents(k, Delete(k, x), x);
  }

  lemma BlockEvents(k: Kernel, ticks: Tick, onEvent: bool, wake: map<Task, nat>)
    requires Inv(k, wake) && Enabled(k, Block(ticks, onEvent))
    ensures EventsOk(Sleep(k, ticks, onEvent))
  {
    var k' := Sleep(k, ticks, onEvent);
    forall t ensures EventItem(k'.waiting, k'.pending, k'.clock, t) {
      EventItemAt(k, t);
      AddAgrees(k.clock, k.current, ticks, wake);
    }
  }

  lemma ReadyPendingEvents(k: Kernel)
    requires Sound(k, []) && EventsOk(k) && k.pending != []
    ensures EventsOk(ReadyPending(k))
  {
    var x, k0, k' := k.pending[0], k.(pending := k.pending[1..]), ReadyPending(k);
    assert x in k.pending;
    SoundFrame(k, k0, []);
    TakeOffSound(k0, x);
    forall t ensures EventItem(k'.waiting, k'.pending, k'.clock, t) { EventItemAt(k, t); }
  }

  lemma {:induction false} DrainEvents(k: Kernel)
    requires Sound(k, []) && EventsOk(k)
    ensures EventsOk(DrainPending(k))
    decreases |k.pending|
  {
    if k.pending != [] {
      ReadyPendingSound(k);
      ReadyPendingEvents(k);
      DrainEvents(ReadyPending(k));
    }
  }

  lemma TickEvents(k: Kernel, wake: map<Task, nat>)
    requires Basic(k) && EventsOk(k) && Agrees(k.clock, wake)
    ensures EventsOk(IncrementTick(k).0) && EventsOk(ReplayTick(k))
  {
    var k' := IncrementTick(k).0;
    if k.suspended == 0 {
      AdvanceExact(k.clock, wake);
      forall t ensures EventItem(k'.waiting, k'.pending, k'.clock, t) { EventItemAt(k, t); }
    }
  }

  lemma {:induction false} ReplayEvents(k: Kernel, n: nat, wake: map<Task, nat>)
    requires Basic(k) && EventsOk(k) && Agrees(k.clock, wake) && k.suspended == 0
    ensures EventsOk(Replay(k, n))
    decreases n
  {
    if n > 0 {
      TickEvents(k, wake);
      ReplayTickTime(k, 0, wake);
      ReplayEvents(ReplayTick(k), n - 1, wake);
    }
  }

  lemma RecomputeEvents(k: Kernel, needed: bool)
    requires EventsOk(k)
    ensures EventsOk(Recompute(k, needed))
  {
    var k' := Recompute(k, needed);
    forall t ensures EventItem(k'.waiting, k'.pending, k'.clock, t) { EventItemAt(k, t); }
  }

  lemma ResumeEvents(k: Kernel, wake: map<Task, nat>)
    requires Sound(k, []) && EventsOk(k) && Agrees(k.clock, wake) && k.suspended > 0
    ensures EventsOk(ResumeAll(k))
  {
    hide EachOnce, ByPriority, TakeOff, MakeReady;
    var k1 := k.(suspended := k.suspended - 1);
    if k1.suspended == 0 {
      SoundFrame(k, k1, []);
      DrainEvents(k1);
      DrainTime(k1, 0, wake);
      var k2 := Recompute(DrainPending(k1), k1.pending != []);
      RecomputeTime(DrainPending(k1), k1.pending != [], 0, wake);
      RecomputeEvents(DrainPending(k1), k1.pending != []);
      ReplayEvents(k2, k2.pended, wake);
    }
  }

  /** Every event keeps each task's event item on at most one list, and each waiting task asleep. */
  lemma StepEvents(k: Kernel, e: Event, wake: map<Task, nat>)
    requires Inv(k, wake) && Enabled(k, e)
    ensures EventsOk(Step(k, e))
  {
    hide EachOnce, ByPriority, Lengths, OnTime;
    EventMeans(k, e);
    match e
    case TickInterrupt => TickEvents(k, wake); TickPlaced(k, wake);
    case Suspend =>
    case Resume => ResumeEvents(k, wake); ResumePlaced(k, wake);
    case Block(ticks, onEvent) => BlockEvents(k, ticks, onEvent, wake);
    case Unblock(t) => WakeEvents(k, t);
    case UnblockUnordered(t) => WakeUnorderedEvents(k, t);
    case Notify(t) => WakeEvents(k, t);
    case Yield => SwitchIfInv(k, true);
    case Prioritise(t, p) => PrioritisePlaced(k, e); SetPrioritySound(k, t, p);
    case Spawn(_, _) => SpawnPlaced(k, e);
    case Kill(t) => KillEvents(k, t); KillPlaced(k, t);
    case Reclaim =>
    case InheritPriority(holder) => InheritSound(k, holder);
    case Give(last) => GivePlaced(k, last); DisinheritSound(k, last);
    case GiveTo(t, last) =>
      DisinheritSound(k, last);
      WakeEvents(Disinherit(k, last).0, t);
      GiveToPlaced(k, t, last);
    case RestorePriority(holder, p, onlyOne) => RestoreSound(k, holder, p, onlyOne);
  }

  /**
   * Every event keeps every live task on exactly one list, its event item on
   * at most one, and the absolute wake times right.
   */
  lemma StepInv(k: Kernel, e: Event, wake: map<Task, nat>)
    requires Inv(k, wake) && Enabled(k, e)
    ensures Inv(Step(k, e), NextWake(k, wake, e))
  {
    StepPlaced(k, e, wake);
    StepEvents(k, e, wake);
    StepTime(k, e, 0, wake);
  }

  // ---------------------------------------------------------------------------
  // Calls that may be followed by a switch, before it
  // ---------------------------------------------------------------------------

  lemma TickInv(k: Kernel, wake: map<Task, nat>)
    requires Inv(k, wake)
    ensures Inv(IncrementTick(k).0, wake)
  {
    hide EachOnce, ByPriority, Lengths, OnTime;
    TickSound(k);
    TickEvents(k, wake);
    if k.suspended == 0 { TickTime(k, k.current, wake); }
  }

  lemma ResumeInv(k: Kernel, wake: map<Task, nat>)
    requires Inv(k, wake) && k.suspended > 0
    ensures Inv(ResumeAll(k), wake)
  {
    hide EachOnce, ByPriority, Lengths, OnTime;
    ResumeAllSound(k);
    ResumeAllTime(k, k.current, wake);
    ResumeWakesOnly(k, k.current, wake);
    ResumeEvents(k, wake);
  }

  // ---------------------------------------------------------------------------
  // Whole runs
  // ---------------------------------------------------------------------------

  ghost predicate IsRun(k: Kernel, es: seq<Event>, wake: map<Task, nat>)
    requires Inv(k, wake)
    decreases es
  {
    es == []
        || (Enabled(k, es[0]) && (StepInv(k, es[0], wake); IsRun(Step(k, es[0]), es[1..], NextWake(k, wake, es[0]))))
  }

  /** The state after a run, with the recorded wake times. */
  ghost function After(k: Kernel, es: seq<Event>, wake: map<Task, nat>): (r: (Kernel, map<Task, nat>))
    requires Inv(k, wake) && IsRun(k, es, wake)
    ensures Inv(r.0, r.1)
    decreases es
  {
    if es == [] then (k, wake) else StepInv(k, es[0], wake); After(Step(k, es[0]), es[1..], NextWake(k, wake, es[0]))
  }

  /** No step of the run is one of the two calls in their bad case. */
  ghost predicate KeepsYields(k: Kernel, es: seq<Event>, wake: map<Task, nat>)
    requires Inv(k, wake) && IsRun(k, es, wake)
    decreases es
  {
    es == []
        || (!LosesYield(k, es[0])
        && (StepInv(k, es[0], wake); KeepsYields(Step(k, es[0]), es[1..], NextWake(k, wake, es[0]))))
  }

  /** Every state of the run has no ready task above the running one, or a yield pending. */
  ghost predicate AlwaysHighest(k: Kernel, es: seq<Event>, wake: map<Task, nat>)
    requires Inv(k, wake) && IsRun(k, es, wake)
    decreases es
  {
    RunsHighest(k)
        && (es == [] || (StepInv(k, es[0], wake); AlwaysHighest(Step(k, es[0]), es[1..], NextWake(k, wake, es[0]))))
  }

  /**
   * Throughout a run no ready task is above the running one without a yield
   * pending, if and only if no step is a mutex give or a restore in its bad
   * case.  In the state reached, the running task owes a yield or is ready and,
   * unless a yield is pending, among the highest.
   */
  lemma {:induction false} HighestRuns(k: Kernel, es: seq<Event>, wake: map<Task, nat>)
    requires Inv(k, wake) && IsRun(k, es, wake) && RunsHighest(k)
    ensures AlwaysHighest(k, es, wake) <==> KeepsYields(k, es, wake)
    ensures var k' := After(k, es, wake).0;
            && (k'.owed || IsReady(k', k'.current))
            && (KeepsYields(k, es, wake) && !k'.yieldPending ==>
                  forall q, x :: 0 <= q < MAX_PRIORITIES && x in k'.ready.lists[q].items ==> q <= k'.prio[k'.current])
    decreases es
  {
    var k' := After(k, es, wake).0;
    if !k'.owed { RunningIsReady(k'); }
    if es != [] {
      StepInv(k, es[0], wake);
      StepHighest(k, es[0], wake);
      if !LosesYield(k, es[0]) { HighestRuns(Step(k, es[0]), es[1..], NextWake(k, wake, es[0])); }
    }
  }

  /**
   * Once the scheduler is not suspended, a yield leaves the running task ready,
   * among the highest, and owing nothing.
   */
  lemma YieldSelects(k: Kernel, wake: map<Task, nat>)
    requires Inv(k, wake) && k.suspended == 0
    ensures var k' := Step(k, Yield);
            && !k'.owed && !k'.yieldPending && IsReady(k', k'.current)
            && forall q, x :: 0 <= q < MAX_PRIORITIES && x in k'.ready.lists[q].items ==> q <= k'.prio[k'.current]
  {
    SwitchSound(k);
  }

  lemma {:induction false} TimeNeverRecedes(k: Kernel, es: seq<Event>, wake: map<Task, nat>)
    requires Inv(k, wake) && IsRun(k, es, wake)
    ensures After(k, es, wake).0.clock.Now() >= k.clock.Now()
    decreases es
  {
    if es != [] {
      StepInv(k, es[0], wake);
      StepTime(k, es[0], 0, wake);
      TimeNeverRecedes(Step(k, es[0]), es[1..], NextWake(k, wake, es[0]));
    }
  }

  /**
   * Exact wake time: over any run that does not touch `t` by other means, a
   * task that sleeps until the absolute time wake[t] is still in that sleep
   * exactly while the clock has not reached that time, however often the
   * 32-bit count has wrapped and however often ticks were pended.
   */
  lemma {:induction false} ExactWake(k: Kernel, es: seq<Event>, wake: map<Task, nat>, t: Task)
    requires Inv(k, wake) && IsRun(k, es, wake)
    requires Asleep(k, t) && forall e :: e in es ==> !Touches(e, t)
    ensures t in wake
    ensures var (k', wake') := After(k, es, wake);
            k'.clock.Now() < wake[t] <==> k'.clock.Holds(t) && WakesAt(wake', t, wake[t])
    decreases es
  {
    NothingOverdue(k, wake, t);
    if es != [] {
      StepInv(k, es[0], wake);
      StepTime(k, es[0], t, wake);
      var k1, wake1 := Step(k, es[0]), NextWake(k, wake, es[0]);
      if wake[t] > k1.clock.Now() {
        ExactWake(k1, es[1..], wake1, t);
      } else {
        TimeNeverRecedes(k1, es[1..], wake1);
        var (k', wake') := After(k, es, wake);
        NothingOverdue(k', wake', t);
      }
    }
  }

  /** In every reachable state, each delayed task sleeps until a time still ahead. */
  lemma NothingOverdue(k: Kernel, wake: map<Task, nat>, t: Task)
    requires Inv(k, wake)
    ensures k.clock.Holds(t) ==> t in wake && wake[t] > k.clock.Now()
  {
    LaterThan(k.clock.delayed, k.clock.epoch, k.clock.tick, wake, t);
    LaterThan(k.clock.overflowed, k.clock.epoch + 1, -1, wake, t);
  }

  // ---------------------------------------------------------------------------
  // No tick is lost
  // ---------------------------------------------------------------------------

  /** xTickCount + xPendedTicks, in 32 bits. */
  function Shown(k: Kernel): Tick { Plus(k.clock.tick, k.pended) }

  function TickInterrupts(es: seq<Event>): nat {
    if es == [] then 0 else (if es[0].TickInterrupt? then 1 else 0) + TickInterrupts(es[1..])
  }

  lemma ResumeShown(k: Kernel, wake: map<Task, nat>)
    requires Inv(k, wake) && k.suspended > 0
    ensures Shown(Step(k, Resume)) == Shown(k)
  {
    ResumeTime(k, 0, wake);
    var c, c' := k.clock, Step(k, Resume).clock;
    PlusIsLater(c.epoch, c.tick, k.pended);
    var later := if Plus(c.tick, k.pended) < c.tick then c.epoch + 1 else c.epoch;
    if k.suspended == 1 {
      InstantInjective(c'.epoch, c'.tick, later, Plus(c.tick, k.pended));
    } else {
      InstantInjective(c'.epoch, c'.tick, c.epoch, c.tick);
    }
  }

  lemma TickShown(k: Kernel, wake: map<Task, nat>)
    requires Inv(k, wake)
    ensures Shown(Step(k, TickInterrupt)) == Plus(Shown(k), 1)
  {
    TickPlaced(k, wake);
    TickSound(k);
    if k.suspended == 0 { TickTime(k, 0, wake); }
  }

  /** Only a tick interrupt changes what is shown, and it adds one. */
  lemma StepShown(k: Kernel, e: Event, wake: map<Task, nat>)
    requires Inv(k, wake) && Enabled(k, e)
    ensures Shown(Step(k, e)) == if e.TickInterrupt? then Plus(Shown(k), 1) else Shown(k)
  {
    match e
    case TickInterrupt => TickShown(k, wake);
    case Resume => ResumeShown(k, wake);
    case Block(ticks, onEvent) => BlockTime(k, ticks, onEvent, 0, wake);
    case _ => OtherClocks(k, e, 0, wake);
  }

  /** What a 32-bit counter shows after `n` increments. */
  function Counted(a: Tick, n: nat): Tick
    decreases n
  {
    if n == 0 then a else Counted(Plus(a, 1), n - 1)
  }

  lemma {:induction false} CountedMod(a: Tick, n: nat)
    ensures Counted(a, n) == (a + n) % WORD
    decreases n
  {
    if n > 0 { CountedMod(Plus(a, 1), n - 1); }
  }

  lemma {:induction false} ShownCounts(k: Kernel, es: seq<Event>, wake: map<Task, nat>)
    requires Inv(k, wake) && IsRun(k, es, wake)
    ensures Shown(After(k, es, wake).0) == Counted(Shown(k), TickInterrupts(es))
    decreases es
  {
    hide Step, EventsOk, Agrees, EachOnce, ByPriority, Lengths, Shown;
    if es != [] {
      var k', wake' := Step(k, es[0]), NextWake(k, wake, es[0]);
      StepInv(k, es[0], wake);
      StepShown(k, es[0], wake);
      ShownCounts(k', es[1..], wake');
      assert After(k, es, wake) == After(k', es[1..], wake');
    }
  }

  /**
   * The tick count and the pended ticks together rise by exactly one, in 32
   * bits, per tick interrupt, through any nesting of suspensions.
   */
  lemma NoTickLost(k: Kernel, es: seq<Event>, wake: map<Task, nat>)
    requires Inv(k, wake) && IsRun(k, es, wake)
    ensures Shown(After(k, es, wake).0) == (Shown(k) + TickInterrupts(es)) % WORD
  {
    hide *;
    ShownCounts(k, es, wake);
    CountedMod(Shown(k), TickInterrupts(es));
  }
}
