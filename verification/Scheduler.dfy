/**
 * The scheduler's state and its operations (tasks.c): every live task's state
 * item is on one ready or delayed list, interrupts may ready tasks while the
 * scheduler is suspended, and ticks that arrive meanwhile are kept for later.
 */
module Scheduler {
  import opened Basics
  import opened Ticks
  import opened Lists
  import opened Delays
  import opened ReadyLists

  /** The idle task never blocks and is never deleted. */
  const IDLE: Task := 0

  /**
   * `waiting` are the tasks whose event item is on some event list, `pending`
   * is xPendingReadyList, `pended` is xPendedTicks, `suspended` is
   * uxSchedulerSuspended and `terminated` is xTasksWaitingTermination.  `owed`
   * says that the running task has put itself to sleep and has not yielded yet,
   * which it does as soon as the scheduler is resumed.
   */
  datatype Kernel = Kernel(
    clock: Clock, ready: Ready, current: Task, yieldPending: bool, owed: bool,
    suspended: nat, pended: Tick, pending: seq<Task>, waiting: set<Task>,
    prio: map<Task, nat>, base: map<Task, nat>,
    terminated: seq<Task>, numberOfTasks: nat)

  // ---------------------------------------------------------------------------
  // Where the tasks are
  // ---------------------------------------------------------------------------

  function OccEntries(s: seq<Entry<Task>>, t: Task): (n: nat)
    ensures n > 0 <==> Has(s, t)
  {
    if s == [] then 0 else (if s[0].owner == t then 1 else 0) + OccEntries(s[1..], t)
  }

  /** On how many state lists, counted with multiplicity, the task's state item is. */
  function Placements(k: Kernel, t: Task): nat {
    OccAll(k.ready.lists, t) + OccEntries(k.clock.delayed, t) + OccEntries(k.clock.overflowed, t) + Occ(k.terminated, t)
  }

  /** `t` is on exactly one of the lists or in flight if it is live, and nowhere otherwise. */
  ghost predicate Once(r: seq<Ring<Task>>, d: seq<Entry<Task>>, o: seq<Entry<Task>>, z: seq<Task>, flight: seq<Task>,
      live: set<Task>, t: Task) {
    OccAll(r, t) + OccEntries(d, t) + OccEntries(o, t) + Occ(z, t) + Occ(flight, t) == if t in live then 1 else 0
  }

  ghost predicate EachOnce(k: Kernel, flight: seq<Task>) {
    forall t :: Once(k.ready.lists, k.clock.delayed, k.clock.overflowed, k.terminated, flight, k.prio.Keys, t)
  }

  /** What being on exactly one list means for one task. */
  lemma OnceMeans(k: Kernel, flight: seq<Task>, t: Task)
    requires EachOnce(k, flight)
    ensures Placements(k, t) + Occ(flight, t) == if t in k.prio then 1 else 0
  {
    assert Once(k.ready.lists, k.clock.delayed, k.clock.overflowed, k.terminated, flight, k.prio.Keys, t);
  }

  lemma OnceFrom(k: Kernel, flight: seq<Task>, t: Task)
    requires Placements(k, t) + Occ(flight, t) == if t in k.prio then 1 else 0
    ensures Once(k.ready.lists, k.clock.delayed, k.clock.overflowed, k.terminated, flight, k.prio.Keys, t)
  {
  }

  /** The lengths of all state lists together. */
  function Lengths(k: Kernel): nat {
    Total(k.ready.lists) + |k.clock.delayed| + |k.clock.overflowed| + |k.terminated|
  }

  ghost predicate Basic(k: Kernel) {
    && k.ready.Ok() && k.prio.Keys == k.base.Keys && k.current in k.prio
    && (forall t :: t in k.prio ==> k.base[t] <= k.prio[t] < MAX_PRIORITIES)
  }

  /** Every live task is on exactly one state list, or in `flight` between two of them. */
  ghost predicate Sound(k: Kernel, flight: seq<Task>) {
    && Basic(k) && ByPriority(k.ready, k.prio)
    && EachOnce(k, flight)
    && Lengths(k) + |flight| == |k.prio| == k.numberOfTasks
    && IDLE in k.prio && !k.clock.Holds(IDLE) && IDLE !in k.terminated
    && (forall t :: t in k.pending ==> t in k.prio && t !in k.terminated)
  }

  /**
   * Every live task is on exactly one state list, ready tasks are on the list
   * of their current priority, the list lengths add up to the task count, tasks
   * and ticks are kept for later only under suspension, and the running task
   * sleeps only while it owes a yield.
   */
  ghost predicate WellPlaced(k: Kernel) {
    && Sound(k, []) && k.current !in k.terminated
    && (k.suspended == 0 ==> k.pending == [] && k.pended == 0)
    && (!k.owed ==> !k.clock.Holds(k.current))
  }

  /**
   * A task's event item is on at most one list, an event list or the list of
   * pending tasks, and a task on an event list is asleep.
   */
  ghost predicate EventItem(waiting: set<Task>, pending: seq<Task>, clock: Clock, t: Task) {
    && (if t in waiting then 1 else 0) + Occ(pending, t) <= 1
    && (t in waiting ==> clock.Holds(t))
  }

  ghost predicate EventsOk(k: Kernel) {
    forall t :: EventItem(k.waiting, k.pending, k.clock, t)
  }

  lemma EventItemAt(k: Kernel, t: Task)
    requires EventsOk(k)
    ensures EventItem(k.waiting, k.pending, k.clock, t)
  {
  }

  /** No ready task is above the running one, unless a yield is already pending. */
  ghost predicate RunsHighest(k: Kernel) {
    k.yieldPending || (k.current in k.prio && NoneAbove(k.ready, k.prio[k.current]))
  }

  ghost predicate NoneAbove(r: Ready, p: nat) {
    forall q :: p < q < |r.lists| ==> r.lists[q].items == []
  }

  /** The two states agree on everything that placement is about; fewer tasks may be pending. */
  ghost predicate SameTasks(k: Kernel, k': Kernel) {
    && k'.ready == k.ready && k'.clock.delayed == k.clock.delayed && k'.clock.overflowed == k.clock.overflowed
    && k'.terminated == k.terminated && k'.prio == k.prio && k'.base == k.base && k'.numberOfTasks == k.numberOfTasks
    && k'.current == k.current && forall t :: t in k'.pending ==> t in k.pending
  }

  lemma SoundFrame(k: Kernel, k': Kernel, flight: seq<Task>)
    requires Sound(k, flight) && SameTasks(k, k')
    ensures Sound(k', flight)
  {
  }

  // ---------------------------------------------------------------------------
  // Moving one task
  // ---------------------------------------------------------------------------

  /** listREMOVE_ITEM on the task's state item, wherever it is. */
  function TakeOff(k: Kernel, t: Task): (k': Kernel)
    requires Basic(k)
    ensures Basic(k') && k' == k.(clock := k'.clock, ready := k'.ready)
  {
    if Has(k.clock.delayed, t) || Has(k.clock.overflowed, t) then k.(clock := k.clock.Remove(t))
    else if t in k.prio && t in k.ready.lists[k.prio[t]].items then k.(ready := k.ready.Remove(t, k.prio[t]))
    else k
  }

  /** prvAddTaskToReadyList; there is nothing to add for a handle that is not live. */
  function MakeReady(k: Kernel, t: Task): (k': Kernel)
    requires Basic(k)
    ensures Basic(k') && k' == k.(ready := k'.ready)
  {
    if t in k.prio then k.(ready := k.ready.Add(t, k.prio[t])) else k
  }

  lemma {:induction false} DropOcc(s: seq<Entry<Task>>, x: Task, t: Task)
    ensures OccEntries(Drop(s, x), t) == OccEntries(s, t) - if x == t && Has(s, x) then 1 else 0
    ensures |Drop(s, x)| == |s| - if Has(s, x) then 1 else 0
  {
    if s != [] && s[0].owner != x {
      DropOcc(s[1..], x, t);
      assert Drop(s, x)[1..] == Drop(s[1..], x);
    }
  }

  lemma {:induction false} InsertOcc(s: seq<Entry<Task>>, e: Entry<Task>, t: Task)
    ensures OccEntries(InsertOrdered(s, e), t) == OccEntries(s, t) + if e.owner == t then 1 else 0
    ensures |InsertOrdered(s, e)| == |s| + 1
  {
    if s == [] || s[0].key > e.key {
      assert ([e] + s)[1..] == s;
    } else {
      InsertOcc(s[1..], e, t);
      assert InsertOrdered(s, e)[1..] == InsertOrdered(s[1..], e);
    }
  }

  lemma {:induction false} DueOcc(s: seq<Entry<Task>>, now: Tick, t: Task)
    ensures Occ(Due(s, now), t) + OccEntries(Rest(s, now), t) == OccEntries(s, t)
    ensures |Due(s, now)| + |Rest(s, now)| == |s|
  {
    if s != [] && s[0].key <= now {
      DueOcc(s[1..], now, t);
      assert Due(s, now)[1..] == Due(s[1..], now);
    }
  }

  /** A task that is on no delayed or termination list is on the ready list of its priority. */
  lemma OnItsReadyList(k: Kernel, x: Task)
    requires Sound(k, []) && x in k.prio && !k.clock.Holds(x) && x !in k.terminated
    ensures x in k.ready.lists[k.prio[x]].items
  {
    OnceMeans(k, [], x);
    var p := OccAllSome(k.ready.lists, x);
  }

  /** The running task, unless it owes a yield, is on the ready list of its priority. */
  lemma RunningIsReady(k: Kernel)
    requires WellPlaced(k) && !k.owed
    ensures k.current in k.ready.lists[k.prio[k.current]].items
  {
    OnItsReadyList(k, k.current);
  }

  lemma TakeOffSound(k: Kernel, x: Task)
    requires Sound(k, []) && x in k.prio && x !in k.terminated
    ensures Sound(TakeOff(k, x), [x])
    ensures k.clock.Holds(x) ==> TakeOff(k, x).ready == k.ready
    ensures forall t :: TakeOff(k, x).clock.Holds(t) ==> k.clock.Holds(t)
    ensures forall t :: t != x && k.clock.Holds(t) ==> TakeOff(k, x).clock.Holds(t)
    ensures !TakeOff(k, x).clock.Holds(x)
  {
    var k' := TakeOff(k, x);
    OnceMeans(k, [], x);
    if !k.clock.Holds(x) {
      OnItsReadyList(k, x);
      RemoveByPriority(k.ready, x, k.prio);
      RemoveCounts(k.ready, x, k.prio[x], x);
    }
    forall t
      ensures Once(k'.ready.lists, k'.clock.delayed, k'.clock.overflowed, k'.terminated, [x], k'.prio.Keys, t)
      ensures k'.clock.Holds(t) <==> k.clock.Holds(t) && t != x
    {
      OnceMeans(k, [], t);
      DropOcc(k.clock.delayed, x, t);
      DropOcc(k.clock.overflowed, x, t);
      if !k.clock.Holds(x) { RemoveCounts(k.ready, x, k.prio[x], t); }
      OnceFrom(k', [x], t);
    }
    DropOcc(k.clock.delayed, x, x);
    DropOcc(k.clock.overflowed, x, x);
  }

  lemma MakeReadySound(k: Kernel, flight: seq<Task>)
    requires flight != [] && flight[0] in k.prio && Sound(k, flight)
    ensures Sound(MakeReady(k, flight[0]), flight[1..])
  {
    var x := flight[0];
    var k' := MakeReady(k, x);
    AddByPriority(k.ready, x, k.prio);
    AddCounts(k.ready, x, k.prio[x], x);
    var on := flight[1..];
    forall t
      ensures Once(k'.ready.lists, k'.clock.delayed, k'.clock.overflowed, k'.terminated, on, k'.prio.Keys, t)
    {
      OnceMeans(k, flight, t);
      AddCounts(k.ready, x, k.prio[x], t);
      OnceFrom(k', flight[1..], t);
    }
  }

  lemma AddNoneAbove(k: Kernel, t: Task, p: nat)
    requires Basic(k) && t in k.prio && ByPriority(k.ready, k.prio)
    ensures NoneAbove(k.ready, p) && k.prio[t] <= p ==> NoneAbove(MakeReady(k, t).ready, p)
  {
  }

  lemma TakeOffNoneAbove(k: Kernel, t: Task, p: nat)
    requires Basic(k)
    ensures NoneAbove(k.ready, p) ==> NoneAbove(TakeOff(k, t).ready, p)
  {
  }

  // ---------------------------------------------------------------------------
  // The tick
  // ---------------------------------------------------------------------------

  function ReadyAll(k: Kernel, ts: seq<Task>): (k': Kernel)
    requires Basic(k)
    ensures Basic(k') && k' == k.(ready := k'.ready)
    decreases ts
  {
    if ts == [] then k else ReadyAll(MakeReady(k, ts[0]), ts[1..])
  }

  predicate Above(t: Task, prio: map<Task, nat>, p: nat) { t in prio && prio[t] > p }

  predicate AnyAbove(ts: seq<Task>, prio: map<Task, nat>, p: nat) {
    ts != [] && (Above(ts[0], prio, p) || AnyAbove(ts[1..], prio, p))
  }

  /** Swapping the lists moves no task. */
  lemma TockSound(k: Kernel)
    requires Sound(k, [])
    ensures Sound(k.(clock := k.clock.Tock()), [])
  {
    var k' := k.(clock := k.clock.Tock());
    forall t
      ensures Once(k'.ready.lists, k'.clock.delayed, k'.clock.overflowed, k'.terminated, [], k'.prio.Keys, t)
    {
      OnceMeans(k, [], t);
      OnceFrom(k', [], t);
    }
  }

  lemma ScanSound(k: Kernel)
    requires Sound(k, [])
    ensures Sound(k.(clock := k.clock.Scan().0), k.clock.Scan().1)
    ensures forall t :: t in k.clock.Scan().1 ==> t in k.prio
  {
    var (c, due) := k.clock.Scan();
    var k' := k.(clock := c);
    forall t
      ensures Once(k'.ready.lists, k'.clock.delayed, k'.clock.overflowed, k'.terminated, due, k'.prio.Keys, t)
      ensures c.Holds(t) ==> k.clock.Holds(t)
      ensures t in due ==> t in k.prio
    {
      OnceMeans(k, [], t);
      DueOcc(k.clock.delayed, k.clock.tick, t);
      OnceFrom(k', due, t);
    }
    DueOcc(k.clock.delayed, k.clock.tick, 0);
  }

  /** A tick's effect before the due tasks are readied. */
  function Ticked(k: Kernel): Kernel {
    k.(clock := k.clock.Advance().0, waiting := k.waiting - set t | t in k.clock.Advance().1)
  }

  /** The tasks a tick readies are tasks of this kernel, each just taken off the delayed list. */
  lemma AdvanceSound(k: Kernel)
    requires Sound(k, [])
    ensures Sound(Ticked(k), k.clock.Advance().1)
    ensures forall t :: t in k.clock.Advance().1 ==> t in k.prio
  {
    TockSound(k);
    var k1 := k.(clock := k.clock.Tock());
    ScanSound(k1);
    SoundFrame(k1.(clock := k1.clock.Scan().0), Ticked(k), k.clock.Advance().1);
  }

  lemma {:induction false} ReadyAllSound(k: Kernel, ts: seq<Task>)
    requires Sound(k, ts) && forall t :: t in ts ==> t in k.prio
    ensures Sound(ReadyAll(k, ts), [])
    decreases ts
  {
    if ts != [] {
      MakeReadySound(k, ts);
      ReadyAllSound(MakeReady(k, ts[0]), ts[1..]);
    }
  }

  lemma {:induction false} ReadyAllNoneAbove(k: Kernel, ts: seq<Task>, p: nat)
    requires Basic(k)
    requires NoneAbove(k.ready, p) && !AnyAbove(ts, k.prio, p)
    ensures NoneAbove(ReadyAll(k, ts).ready, p)
    decreases ts
  {
    if ts != [] { ReadyAllNoneAbove(MakeReady(k, ts[0]), ts[1..], p); }
  }

  /** xTaskIncrementTick: the new state and whether a context switch is required. */
  function IncrementTick(k: Kernel): (r: (Kernel, bool))
    requires Basic(k)
    ensures Basic(r.0)
  {
    if k.suspended > 0 then (k.(pended := Plus(k.pended, 1)), false)
    else
      var due := k.clock.Advance().1;
      var k1 := ReadyAll(Ticked(k), due);
      (k1, || AnyAbove(due, k.prio, k.prio[k.current])
           || |k1.ready.lists[k.prio[k.current]].items| > 1
           || k.yieldPending)
  }

  /** A tick keeps every task placed, and asks for a switch whenever it readies a higher task. */
  lemma TickSound(k: Kernel)
    requires Sound(k, [])
    ensures var (k', switch) := IncrementTick(k);
            && Sound(k', []) && k' == k
                .(clock := k'.clock, ready := k'.ready, waiting := k'.waiting, pended := k'.pended)
            && (RunsHighest(k) ==> switch || RunsHighest(k'))
            && k'.clock == (if k.suspended > 0 then k.clock else k.clock.Advance().0)
  {
    if k.suspended == 0 {
      AdvanceSound(k);
      var due := k.clock.Advance().1;
      ReadyAllSound(Ticked(k), due);
      if RunsHighest(k) && !IncrementTick(k).1 {
        ReadyAllNoneAbove(Ticked(k), due, k.prio[k.current]);
      }
    }
  }

  // ---------------------------------------------------------------------------
  // Suspending and resuming the scheduler
  // ---------------------------------------------------------------------------

  /** vTaskSuspendAll */
  function SuspendAll(k: Kernel): Kernel { k.(suspended := k.suspended + 1) }

  /** One round of the drain of xPendingReadyList in xTaskResumeAll. */
  function ReadyPending(k: Kernel): (k': Kernel)
    requires Basic(k) && k.pending != []
    ensures Basic(k') && k'.pending == k.pending[1..]
  {
    var t := k.pending[0];
    var k1 := MakeReady(TakeOff(k.(pending := k.pending[1..]), t), t);
    k1.(yieldPending := k1.yieldPending || Above(t, k.prio, k.prio[k.current]))
  }

  lemma ReadyPendingSound(k: Kernel)
    requires Sound(k, []) && k.pending != []
    ensures k.pending[0] in k.prio && Sound(ReadyPending(k), [])
  {
    var t := k.pending[0];
    assert t in k.pending;
    var k0 := k.(pending := k.pending[1..]);
    SoundFrame(k, k0, []);
    TakeOffSound(k0, t);
    MakeReadySound(TakeOff(k0, t), [t]);
    var k1 := MakeReady(TakeOff(k0, t), t);
    assert [t][1..] == [];
    SoundFrame(k1, ReadyPending(k), []);
  }

  function DrainPending(k: Kernel): (k': Kernel)
    requires Basic(k)
    ensures Basic(k') && k'.pending == []
    decreases |k.pending|
  {
    if k.pending == [] then k else DrainPending(ReadyPending(k))
  }

  lemma {:induction false} DrainSound(k: Kernel)
    requires Sound(k, [])
    ensures Sound(DrainPending(k), [])
    decreases |k.pending|
  {
    if k.pending != [] {
      ReadyPendingSound(k);
      DrainSound(ReadyPending(k));
    }
  }

  /** One round of the replay of pended ticks in xTaskResumeAll. */
  function ReplayTick(k: Kernel): (k': Kernel)
    requires Basic(k)
    ensures Basic(k')
  {
    var (k1, switch) := IncrementTick(k);
    k1.(yieldPending := k1.yieldPending || switch)
  }

  function Replay(k: Kernel, n: nat): (k': Kernel)
    requires Basic(k)
    ensures Basic(k')
    decreases n
  {
    if n == 0 then k else Replay(ReplayTick(k), n - 1)
  }

  lemma ReplayNext(k: Kernel, k': Kernel, n: nat)
    requires Basic(k) && k' == ReplayTick(k)
    ensures Replay(k, n + 1) == Replay(k', n)
  {
  }

  lemma ReplayTickSound(k: Kernel)
    requires Sound(k, [])
    ensures Sound(ReplayTick(k), [])
  {
    TickSound(k);
    SoundFrame(IncrementTick(k).0, ReplayTick(k), []);
  }

  lemma {:induction false} ReplaySound(k: Kernel, n: nat)
    requires Sound(k, [])
    ensures Sound(Replay(k, n), [])
    decreases n
  {
    if n > 0 {
      ReplayTickSound(k);
      ReplaySound(ReplayTick(k), n - 1);
    }
  }

  /** prvResetNextTaskUnblockTime, needed when a pending task left the delayed list. */
  function Recompute(k: Kernel, needed: bool): Kernel {
    if needed then k.(clock := k.clock.ResetNextUnblock()) else k
  }

  /** xTaskResumeAll once the nesting count has dropped to zero. */
  function Catchup(k: Kernel): (k': Kernel)
    requires Basic(k)
    ensures Basic(k')
  {
    var k2 := Recompute(DrainPending(k), k.pending != []);
    Replay(k2, k2.pended).(pended := 0)
  }

  lemma CatchupSound(k: Kernel)
    requires Sound(k, [])
    ensures Sound(Catchup(k), [])
  {
    DrainSound(k);
    var k2 := Recompute(DrainPending(k), k.pending != []);
    SoundFrame(DrainPending(k), k2, []);
    ReplaySound(k2, k2.pended);
    SoundFrame(Replay(k2, k2.pended), Catchup(k), []);
  }

  /** xTaskResumeAll; the caller yields when it leaves a yield pending. */
  function ResumeAll(k: Kernel): (k': Kernel)
    requires Basic(k) && k.suspended > 0
    ensures Basic(k')
  {
    var k1 := k.(suspended := k.suspended - 1);
    if k1.suspended > 0 then k1 else Catchup(k1)
  }

  // ---------------------------------------------------------------------------
  // Blocking, waking and switching
  // ---------------------------------------------------------------------------

  /** prvAddCurrentTaskToDelayedList, optionally after the event item went onto an event list. */
  function Sleep(k: Kernel, ticks: Tick, onEvent: bool): (k': Kernel)
    requires Basic(k)
    ensures Basic(k')
  {
    var k1 := TakeOff(k, k.current);
    k1.(clock := k1.clock.Add(k.current, ticks),
        waiting := if onEvent then k.waiting + {k.current} else k.waiting,
        owed := true)
  }

  /** xTaskRemoveFromEventList and the wake-up of vTaskGenericNotifyGiveFromISR. */
  function Wake(k: Kernel, t: Task): (k': Kernel)
    requires Basic(k) && t in k.prio
    ensures Basic(k')
  {
    var k0 := k.(waiting := k.waiting - {t}, yieldPending := k.yieldPending || k.prio[t] > k.prio[k.current]);
    if k.suspended == 0 then MakeReady(TakeOff(k0, t), t) else k0.(pending := k.pending + [t])
  }

  /** vTaskRemoveFromUnorderedEventList, which works on the ready lists directly. */
  function WakeUnordered(k: Kernel, t: Task): (k': Kernel)
    requires Basic(k) && t in k.prio
    ensures Basic(k')
  {
    var k0 := k.(waiting := k.waiting - {t}, yieldPending := k.yieldPending || k.prio[t] > k.prio[k.current]);
    MakeReady(TakeOff(k0, t), t)
  }

  /** The search for a ready list ends on a non-empty one: the idle task is always ready. */
  lemma HighestExists(k: Kernel)
    requires Sound(k, [])
    ensures k.ready.lists[k.ready.Highest(k.ready.top)].items != []
    ensures NoneAbove(k.ready, k.ready.Highest(k.ready.top))
  {
    OnItsReadyList(k, IDLE);
  }

  /** vTaskSwitchContext; the kernel asserts that some task is ready. */
  function SwitchContext(k: Kernel): (k': Kernel)
    requires k.ready.Ok()
  {
    var h := k.ready.Highest(k.ready.top);
    var ring := k.ready.lists[h];
    if k.suspended > 0 then k.(yieldPending := true)
    else if ring.items == [] then k
    else
      k.(current := ring.Visited(), yieldPending := false, owed := false,
          ready := Ready(k.ready.lists[h := ring.Next()], h))
  }

  /** Moving the index of one ready list moves no task. */
  lemma RotateSound(k: Kernel, h: nat)
    requires Sound(k, []) && h < MAX_PRIORITIES && k.ready.lists[h].items != [] && NoneAbove(k.ready, h)
    ensures Sound(k.(ready := Ready(k.ready.lists[h := k.ready.lists[h].Next()], h)), [])
  {
    var ring := k.ready.lists[h];
    var k' := k.(ready := Ready(k.ready.lists[h := ring.Next()], h));
    assert k'.ready.Ok();
    forall t ensures Once(k'.ready.lists, k'.clock.delayed, k'.clock.overflowed, k'.terminated, [], k'.prio.Keys, t) {
      OnceMeans(k, [], t);
      UpdateCounts(k.ready.lists, h, ring.Next(), t);
      OnceFrom(k', [], t);
    }
    UpdateCounts(k.ready.lists, h, ring.Next(), 0);
  }

  /** Only the running task and the indices of the ready lists have changed. */
  ghost predicate OnlySwitched(k: Kernel, k': Kernel) {
    k' == k.(current := k'.current, ready := k'.ready, yieldPending := k'.yieldPending, owed := k'.owed)
  }

  /** Selection leaves the highest ready task running, and moves no task. */
  lemma SwitchSound(k: Kernel)
    requires Sound(k, [])
    ensures var k' := SwitchContext(k);
            && Sound(k', []) && RunsHighest(k') && OnlySwitched(k, k')
            && (k.suspended == 0 ==>
                  !k'.yieldPending && !k'.owed && k'.current in k'.ready.lists[k'.prio[k'.current]].items)
            && (k.suspended > 0 ==> k' == k.(yieldPending := true))
  {
    if k.suspended > 0 {
      SoundFrame(k, SwitchContext(k), []);
    } else {
      HighestExists(k);
      var h := k.ready.Highest(k.ready.top);
      var ring := k.ready.lists[h];
      assert ring.Visited() in ring.items;
      RotateSound(k, h);
      var k1 := k.(ready := Ready(k.ready.lists[h := ring.Next()], h));
      CurrentFrame(k1, k1.(current := ring.Visited(), yieldPending := false, owed := false));
    }
  }

  lemma CurrentFrame(k: Kernel, k': Kernel)
    requires Sound(k, []) && k' == k
             .(current := k'.current, yieldPending := k'.yieldPending, owed := k'.owed) && k'.current in k.prio
    ensures Sound(k', [])
  {
  }

  lemma SleepSound(k: Kernel, ticks: Tick, onEvent: bool)
    requires Sound(k, []) && k.current != IDLE && k.current !in k.terminated && !k.clock.Holds(k.current)
    ensures Sound(Sleep(k, ticks, onEvent), [])
    ensures RunsHighest(k) ==> RunsHighest(Sleep(k, ticks, onEvent))
  {
    var x := k.current;
    var k1, k' := TakeOff(k, x), Sleep(k, ticks, onEvent);
    TakeOffSound(k, x);
    var e := Entry(Plus(k.clock.tick, ticks), x);
    forall t
      ensures Once(k'.ready.lists, k'.clock.delayed, k'.clock.overflowed, k'.terminated, [], k'.prio.Keys, t)
      ensures k'.clock.Holds(t) ==> t == x || k1.clock.Holds(t)
    {
      OnceMeans(k1, [x], t);
      InsertOcc(k1.clock.delayed, e, t);
      InsertOcc(k1.clock.overflowed, e, t);
      OnceFrom(k', [], t);
    }
    InsertOcc(k1.clock.delayed, e, x);
    InsertOcc(k1.clock.overflowed, e, x);
  }

  lemma PendSound(k: Kernel, k': Kernel, t: Task)
    requires Sound(k, []) && t in k.prio && t !in k.terminated
    requires k' == k.(waiting := k'.waiting, yieldPending := k'.yieldPending, pending := k.pending + [t])
    ensures Sound(k', [])
  {
  }

  lemma ReplaceSound(k: Kernel, t: Task)
    requires Sound(k, []) && t in k.prio && t !in k.terminated
    ensures Sound(MakeReady(TakeOff(k, t), t), [])
    ensures k.prio[t] <= k.prio[k.current] && NoneAbove(k.ready, k.prio[k.current])
            ==> NoneAbove(MakeReady(TakeOff(k, t), t).ready, k.prio[k.current])
  {
    TakeOffSound(k, t);
    MakeReadySound(TakeOff(k, t), [t]);
    assert [t][1..] == [];
    TakeOffNoneAbove(k, t, k.prio[k.current]);
    AddNoneAbove(TakeOff(k, t), t, k.prio[k.current]);
  }

  /** A task that is woken, with a yield pending if it is above the running one. */
  ghost predicate Woken(k: Kernel, k': Kernel, t: Task)
    requires Basic(k) && t in k.prio
  {
    && k' == k
        .(clock := k'.clock, ready := k'.ready, pending := k'.pending, waiting := k.waiting - {t},
        yieldPending := k'.yieldPending)
    && (k'.yieldPending <==> k.yieldPending || k.prio[t] > k.prio[k.current])
  }

  /** The task is on the ready list of its priority and asleep no more. */
  ghost predicate Readied(k: Kernel, t: Task)
    requires Basic(k)
  {
    t in k.prio && IsReady(k, t) && !k.clock.Holds(t)
  }

  /** The wake-up from an event group readies the task at once, whether or not the scheduler is suspended. */
  lemma WakeUnorderedSound(k: Kernel, t: Task)
    requires Sound(k, []) && t in k.prio && t !in k.terminated
    ensures var k' := WakeUnordered(k, t);
            Sound(k', []) && Woken(k, k', t) && Readied(k', t) && k'.pending == k.pending
    ensures RunsHighest(k) ==> RunsHighest(WakeUnordered(k, t))
  {
    var k0 := k.(waiting := k.waiting - {t}, yieldPending := k.yieldPending || k.prio[t] > k.prio[k.current]);
    SoundFrame(k, k0, []);
    ReplaceSound(k0, t);
    TakeOffSound(k0, t);
    OnItsReadyList(WakeUnordered(k, t), t);
  }

  /** A wake-up readies the task, or keeps it for later under suspension, when no list moves. */
  lemma WakeSound(k: Kernel, t: Task)
    requires Sound(k, []) && t in k.prio && t !in k.terminated
    ensures var k' := Wake(k, t);
            && Sound(k', []) && Woken(k, k', t)
            && if k.suspended == 0 then Readied(k', t) && k'.pending == k.pending
               else k'.pending == k.pending + [t] && k'.ready == k.ready && k'.clock == k.clock
    ensures RunsHighest(k) ==> RunsHighest(Wake(k, t))
  {
    if k.suspended == 0 {
      WakeUnorderedSound(k, t);
    } else {
      PendSound(k, Wake(k, t), t);
    }
  }

  // ---------------------------------------------------------------------------
  // Priorities, creation and deletion
  // ---------------------------------------------------------------------------

  function Clip(p: nat): (r: nat)
    ensures r < MAX_PRIORITIES
  {
    if p >= MAX_PRIORITIES then MAX_PRIORITIES - 1 else p
  }

  /** The task's current and base priority, changed where it is. */
  function Priced(k: Kernel, t: Task, prio': nat, base': nat): (k': Kernel)
    requires Basic(k) && t in k.prio && base' <= prio' < MAX_PRIORITIES
    ensures Basic(k')
  {
    k.(prio := k.prio[t := prio'], base := k.base[t := base'])
  }

  predicate IsReady(k: Kernel, t: Task)
    requires Basic(k) && t in k.prio
  {
    t in k.ready.lists[k.prio[t]].items
  }

  /** A change of priorities, which takes a ready task to another ready list. */
  function Reprice(k: Kernel, t: Task, prio': nat, base': nat): (k': Kernel)
    requires Basic(k) && t in k.prio && base' <= prio' < MAX_PRIORITIES
    ensures Basic(k')
  {
    if IsReady(k, t) then MakeReady(Priced(TakeOff(k, t), t, prio', base'), t) else Priced(k, t, prio', base')
  }

  /** vTaskPrioritySet: the new state and whether the caller must yield. */
  function SetPriority(k: Kernel, t: Task, newPriority: nat): (r: (Kernel, bool))
    requires Basic(k) && t in k.prio
    ensures Basic(r.0)
  {
    var p := Clip(newPriority);
    if p == k.base[t] then (k, false)
    else
      var switch := if p > k.base[t] then t != k.current && p > k.prio[k.current] else t == k.current;
      (Reprice(k, t, if k.base[t] == k.prio[t] || p > k.prio[t] then p else k.prio[t], p), switch)
  }

  /** xTaskPriorityInherit, by the running task, which is about to block on a mutex that `holder` holds. */
  function Inherit(k: Kernel, holder: Task): (k': Kernel)
    requires Basic(k) && holder in k.prio
    ensures Basic(k')
  {
    if k.prio[holder] < k.prio[k.current] then Reprice(k, holder, k.prio[k.current], k.base[holder]) else k
  }

  /** xTaskPriorityDisinherit, by the running task, which gives a mutex; `last` says that it holds no other. */
  function Disinherit(k: Kernel, last: bool): (r: (Kernel, bool))
    requires Basic(k)
    ensures Basic(r.0)
  {
    if k.prio[k.current] != k.base[k.current] && last
        then (Reprice(k, k.current, k.base[k.current], k.base[k.current]), true)
    else (k, false)
  }

  /** The priority vTaskPriorityDisinheritAfterTimeout leaves the holder with. */
  function Restored(k: Kernel, holder: Task, highestWaiting: nat): nat
    requires Basic(k) && holder in k.prio
  {
    if k.base[holder] < highestWaiting then highestWaiting else k.base[holder]
  }

  /** vTaskPriorityDisinheritAfterTimeout; `onlyOne` says that the holder holds no other mutex. */
  function Restore(k: Kernel, holder: Task, highestWaiting: nat, onlyOne: bool): (k': Kernel)
    requires Basic(k) && holder in k.prio && highestWaiting < MAX_PRIORITIES
    ensures Basic(k')
  {
    var p := Restored(k, holder, highestWaiting);
    if k.prio[holder] != p && onlyOne then Reprice(k, holder, p, k.base[holder]) else k
  }

  /** A task that is on no ready list may change its priority where it is. */
  lemma PricedElsewhere(k: Kernel, t: Task, prio': nat, base': nat, flight: seq<Task>)
    requires Sound(k, flight) && t in k.prio && base' <= prio' < MAX_PRIORITIES
    requires IsReady(k, t) ==> t in flight
    ensures Sound(Priced(k, t, prio', base'), flight)
  {
    var k' := Priced(k, t, prio', base');
    assert k'.prio.Keys == k.prio.Keys && k'.base.Keys == k.base.Keys;
    OnceMeans(k, flight, t);
    forall q, x | 0 <= q < |k.ready.lists| && x in k.ready.lists[q].items ensures k'.prio[x] == q {
      OccAllIs(k.ready.lists, t, q);
    }
    assert |k'.prio| == |k'.prio.Keys| == |k.prio|;
  }

  /** A ready task is on no other list. */
  lemma ReadyIsElsewhere(k: Kernel, t: Task)
    requires Sound(k, []) && t in k.prio && IsReady(k, t)
    ensures !k.clock.Holds(t) && t !in k.terminated
  {
    OnceMeans(k, [], t);
    OccAllIs(k.ready.lists, t, k.prio[t]);
  }

  /** Every other task stays on the ready list it is on. */
  ghost predicate OthersStay(k: Kernel, k': Kernel, t: Task)
    requires k.ready.Ok() && k'.ready.Ok()
  {
    forall q, x :: 0 <= q < MAX_PRIORITIES && x != t ==> (x in k'.ready.lists[q].items <==> x in k.ready.lists[q].items)
  }

  lemma RepriceOthers(k: Kernel, t: Task, prio': nat, base': nat)
    requires Sound(k, []) && t in k.prio && base' <= prio' < MAX_PRIORITIES
    ensures OthersStay(k, Reprice(k, t, prio', base'), t)
  {
    hide EachOnce, ByPriority, Lengths, TakeOff, MakeReady;
    if IsReady(k, t) {
      forall q, x | 0 <= q < MAX_PRIORITIES && x != t
        ensures x in Reprice(k, t, prio', base').ready.lists[q].items <==> x in k.ready.lists[q].items
      {
        RepriceMembers(k, t, prio', base', q, x);
      }
    }
  }

  /** What a change of priorities leaves alone. */
  lemma RepriceSound(k: Kernel, t: Task, prio': nat, base': nat)
    requires Sound(k, []) && t in k.prio && base' <= prio' < MAX_PRIORITIES
    ensures var k' := Reprice(k, t, prio', base');
            && Sound(k', []) && k' == k.(ready := k'.ready, prio := k'.prio, base := k'.base)
            && k'.prio == k.prio[t := prio'] && k'.base == k.base[t := base']
            && OthersStay(k, k', t)
  {
    RepriceOthers(k, t, prio', base');
    if IsReady(k, t) {
      ReadyIsElsewhere(k, t);
      TakeOffSound(k, t);
      PricedElsewhere(TakeOff(k, t), t, prio', base', [t]);
      MakeReadySound(Priced(TakeOff(k, t), t, prio', base'), [t]);
      assert [t][1..] == [];
    } else {
      PricedElsewhere(k, t, prio', base', []);
    }
  }

  /** Some other task than `t` is ready above priority `p`. */
  ghost predicate OtherAbove(k: Kernel, t: Task, p: nat)
    requires Basic(k)
  {
    exists q, x :: p < q < MAX_PRIORITIES && x in k.ready.lists[q].items && x != t
  }

  /** Which tasks are on which ready list after a ready task's priorities change. */
  lemma RepriceMembers(k: Kernel, t: Task, prio': nat, base': nat, q: nat, x: Task)
    requires Sound(k, []) && t in k.prio && base' <= prio' < MAX_PRIORITIES && IsReady(k, t) && q < MAX_PRIORITIES
    ensures x in Reprice(k, t, prio', base').ready.lists[q].items <==>
            (x != t && x in k.ready.lists[q].items) || (x == t && q == prio')
  {
    hide Lengths, EachOnce;
    ReadyIsElsewhere(k, t);
    var k1 := TakeOff(k, t);
    TakeOffSound(k, t);
    OnceMeans(k1, [t], t);
    RemoveByPriority(k.ready, t, k.prio);
    PricedElsewhere(k1, t, prio', base', [t]);
    AddByPriority(k1.ready, t, Priced(k1, t, prio', base').prio);
    OccAllIs(k1.ready.lists, t, q);
  }

  lemma NotReadyAnywhere(k: Kernel, t: Task, q: nat)
    requires Sound(k, []) && t in k.prio && !IsReady(k, t) && q < MAX_PRIORITIES
    ensures t !in k.ready.lists[q].items
  {
  }

  /** After a change of priorities nothing is above `p` unless something else is, or the task itself is and is ready. */
  lemma RepriceNoneAbove(k: Kernel, t: Task, prio': nat, base': nat, p: nat)
    requires Sound(k, []) && t in k.prio && base' <= prio' < MAX_PRIORITIES
    ensures NoneAbove(Reprice(k, t, prio', base').ready, p) <==> !OtherAbove(k, t, p) && (IsReady(k, t) ==> prio' <= p)
  {
    hide EachOnce, ByPriority, Lengths, TakeOff, MakeReady;
    var r' := Reprice(k, t, prio', base').ready;
    forall q, x | 0 <= q < MAX_PRIORITIES
      ensures x in r'.lists[q].items <==>
              (x != t && x in k.ready.lists[q].items) || (IsReady(k, t) && x == t && q == prio')
    {
      if IsReady(k, t) { RepriceMembers(k, t, prio', base', q, x); } else { NotReadyAnywhere(k, t, q); }
    }
    if !NoneAbove(r', p) {
      var q :| p < q < MAX_PRIORITIES && r'.lists[q].items != [];
      assert r'.lists[q].items[0] in r'.lists[q].items;
    }
    if OtherAbove(k, t, p) {
      var q, x :| p < q < MAX_PRIORITIES && x in k.ready.lists[q].items && x != t;
      assert x in r'.lists[q].items;
    }
    if IsReady(k, t) { assert t in r'.lists[prio'].items; }
  }

  /** The base priority is the one asked for, clipped; an inherited higher priority stays. */
  lemma SetPrioritySound(k: Kernel, t: Task, p: nat)
    requires Sound(k, []) && t in k.prio
    ensures var k' := SetPriority(k, t, p).0;
            && Sound(k', []) && k' == k.(ready := k'.ready, prio := k'.prio, base := k'.base) && OthersStay(k, k', t)
            && k'.base == k.base[t := Clip(p)]
            && k'.prio == k.prio[t := if k.prio[t] == k.base[t] then Clip(p) else Max(k.prio[t], Clip(p))]
  {
    var c := Clip(p);
    if c != k.base[t] {
      RepriceSound(k, t, if k.base[t] == k.prio[t] || c > k.prio[t] then c else k.prio[t], c);
    } else {
      assert k.base == k.base[t := c] && k.prio == k.prio[t := k.prio[t]];
    }
  }

  /** A priority change that could put a ready task above the running one asks for a yield. */
  lemma SetPriorityHighest(k: Kernel, t: Task, p: nat)
    requires Sound(k, []) && t in k.prio && RunsHighest(k)
    ensures SetPriority(k, t, p).1 || RunsHighest(SetPriority(k, t, p).0)
  {
    SetPrioritySound(k, t, p);
    var (k', switch) := SetPriority(k, t, p);
    if !switch && !k.yieldPending && Clip(p) != k.base[t] {
      RepriceNoneAbove(k, t, k'.prio[t], Clip(p), k'.prio[k.current]);
      NoOtherAbove(k, t, k'.prio[k.current]);
    }
  }

  lemma NoOtherAbove(k: Kernel, t: Task, p: nat)
    requires Basic(k) && NoneAbove(k.ready, k.prio[k.current]) && k.prio[k.current] <= p
    ensures !OtherAbove(k, t, p)
  {
  }

  lemma InheritSound(k: Kernel, holder: Task)
    requires Sound(k, []) && holder in k.prio
    ensures var k' := Inherit(k, holder);
            && Sound(k', []) && k' == k.(ready := k'.ready, prio := k'.prio) && k'.prio[k.current] == k.prio[k.current]
            && k'.prio[holder] >= k.prio[k.current] && OthersStay(k, k', holder)
            && (RunsHighest(k) ==> RunsHighest(k'))
  {
    hide EachOnce, ByPriority, Lengths;
    if k.prio[holder] < k.prio[k.current] {
      RepriceSound(k, holder, k.prio[k.current], k.base[holder]);
      hide Reprice;
      if RunsHighest(k) && !k.yieldPending {
        RepriceNoneAbove(k, holder, k.prio[k.current], k.base[holder], k.prio[k.current]);
        NoOtherAbove(k, holder, k.prio[k.current]);
      }
    }
  }

  lemma DisinheritSound(k: Kernel, last: bool)
    requires Sound(k, [])
    ensures var k' := Disinherit(k, last).0;
            && Sound(k', []) && k' == k.(ready := k'.ready, prio := k'.prio)
            && (last ==> k'.prio == k.prio[k.current := k.base[k.current]]) && OthersStay(k, k', k.current)
            && (!Disinherit(k, last).1 ==> k' == k)
  {
    if Disinherit(k, last).1 {
      RepriceSound(k, k.current, k.base[k.current], k.base[k.current]);
    } else if last {
      assert k.prio == k.prio[k.current := k.base[k.current]];
    }
  }

  lemma RestoreSound(k: Kernel, holder: Task, highestWaiting: nat, onlyOne: bool)
    requires Sound(k, []) && holder in k.prio && highestWaiting < MAX_PRIORITIES && holder != k.current
    ensures var k' := Restore(k, holder, highestWaiting, onlyOne);
            && Sound(k', []) && k' == k.(ready := k'.ready, prio := k'.prio) && OthersStay(k, k', holder)
            && k'.prio == k.prio[holder := if onlyOne then Max(k.base[holder], highestWaiting) else k.prio[holder]]
            && (RunsHighest(k) ==>
                 (RunsHighest(k') <==>
                    !(&& onlyOne && !k.yieldPending && IsReady(k, holder)
                      && Restored(k, holder, highestWaiting) > k.prio[k.current])))
  {
    var p, top := Restored(k, holder, highestWaiting), k.prio[k.current];
    if k.prio[holder] != p && onlyOne {
      RepriceSound(k, holder, p, k.base[holder]);
      RepriceNoneAbove(k, holder, p, k.base[holder], top);
      if RunsHighest(k) && !k.yieldPending { NoOtherAbove(k, holder, top); }
    } else {
      assert k.prio == k.prio[holder := k.prio[holder]];
    }
    if k.prio[holder] == p && IsReady(k, holder) && RunsHighest(k) && !k.yieldPending {
      assert k.prio[holder] <= top;
    }
  }

  /** xTaskCreate once the new task is initialised: the new state and whether to yield. */
  function Create(k: Kernel, t: Task, newPriority: nat): (r: (Kernel, bool))
    requires Basic(k)
    ensures Basic(r.0)
  {
    var p := Clip(newPriority);
    var k1 := k.(prio := k.prio[t := p], base := k.base[t := p], numberOfTasks := k.numberOfTasks + 1);
    (MakeReady(k1, t), k.prio[k.current] < p)
  }

  /** The new task, and no other, is added, ready at its clipped priority. */
  lemma CreateSound(k: Kernel, t: Task, p: nat)
    requires Sound(k, []) && t !in k.prio
    ensures var (k', switch) := Create(k, t, p);
            && Sound(k', []) && k' == k
                .(ready := k'.ready, prio := k'.prio, base := k'.base, numberOfTasks := k.numberOfTasks + 1)
            && k'.prio == k.prio[t := Clip(p)] && k'.base == k.base[t := Clip(p)] && Readied(k', t)
            && (switch <==> Clip(p) > k.prio[k.current])
    ensures RunsHighest(k) ==> Create(k, t, p).1 || RunsHighest(Create(k, t, p).0)
  {
    var c := Clip(p);
    var k1 := k.(prio := k.prio[t := c], base := k.base[t := c], numberOfTasks := k.numberOfTasks + 1);
    NewSound(k, k1, t);
    MakeReadySound(k1, [t]);
    assert [t][1..] == [];
    OnceMeans(k, [], t);
    OnItsReadyList(Create(k, t, p).0, t);
  }

  lemma NewSound(k: Kernel, k1: Kernel, t: Task)
    requires Sound(k, []) && t !in k.prio && k1.base.Keys == k1.prio.Keys
    requires k1 == k.(prio := k1.prio, base := k1.base, numberOfTasks := k.numberOfTasks + 1)
    requires t in k1.prio && k1.prio == k.prio[t := k1.prio[t]] && k1.base == k.base[t := k1.prio[t]]
             && k1.prio[t] < MAX_PRIORITIES
    ensures Sound(k1, [t])
  {
    forall x ensures Once(k1.ready.lists, k1.clock.delayed, k1.clock.overflowed, k1.terminated, [t], k1.prio.Keys, x) {
      OnceMeans(k, [], x);
      OnceFrom(k1, [t], x);
    }
  }

  function Without(s: seq<Task>, t: Task): (r: seq<Task>)
    ensures forall x :: x in r <==> x in s && x != t
  {
    if s == [] then [] else (if s[0] == t then [] else [s[0]]) + Without(s[1..], t)
  }

  /** A live task that is in flight is forgotten. */
  function Forget(k: Kernel, t: Task): Kernel {
    k.(prio := k.prio - {t}, base := k.base - {t},
       numberOfTasks := if k.numberOfTasks > 0 then k.numberOfTasks - 1 else 0)
  }

  lemma ForgetSound(k: Kernel, t: Task)
    requires Sound(k, [t]) && t in k.prio && t != k.current && t != IDLE && t !in k.pending
    ensures Sound(Forget(k, t), [])
  {
    var k' := Forget(k, t);
    assert k'.prio.Keys == k.prio.Keys - {t} && k'.base.Keys == k'.prio.Keys;
    assert |k.prio| == |k.prio.Keys| && |k'.prio| == |k'.prio.Keys|;
    forall x ensures Once(k'.ready.lists, k'.clock.delayed, k'.clock.overflowed, k'.terminated, [], k'.prio.Keys, x) {
      OnceMeans(k, [t], x);
      OnceFrom(k', [], x);
    }
    forall q, x | 0 <= q < |k.ready.lists| && x in k.ready.lists[q].items ensures x in k'.prio && k'.prio[x] == q {
      OnceMeans(k, [t], x);
      OccAllIs(k.ready.lists, x, q);
    }
  }

  /** vTaskDelete: a task that deletes itself is left to the idle task. */
  function Delete(k: Kernel, t: Task): (k': Kernel)
    requires Basic(k) && t in k.prio
    ensures k'.ready.Ok()
  {
    var k1 := TakeOff(k.(waiting := k.waiting - {t}, pending := Without(k.pending, t)), t);
    if t == k.current then k1.(terminated := k1.terminated + [t])
    else
      var k2 := Forget(k1, t);
      k2.(clock := k2.clock.ResetNextUnblock())
  }

  /**
   * The task has left every list; a task that deleted itself is kept, for the
   * idle task, on the list of terminated ones.
   */
  ghost predicate Deleted(k: Kernel, k': Kernel, t: Task) {
    && k'.waiting == k.waiting - {t} && t !in k'.pending && !k'.clock.Holds(t) && OccAll(k'.ready.lists, t) == 0
    && (if t == k.current then k'.prio == k.prio && k'.terminated == k.terminated + [t]
        else k'.prio == k.prio - {t} && k'.terminated == k.terminated)
  }

  lemma DeleteSound(k: Kernel, t: Task)
    requires Sound(k, []) && t in k.prio && t != IDLE && t !in k.terminated
    ensures Sound(Delete(k, t), []) && Deleted(k, Delete(k, t), t)
  {
    var k0 := k.(waiting := k.waiting - {t}, pending := Without(k.pending, t));
    SoundFrame(k, k0, []);
    TakeOffSound(k0, t);
    var k1 := TakeOff(k0, t);
    if t == k.current {
      TerminatedSound(k1, t);
      OccConcat(k1.terminated, [t], t);
    } else {
      ForgetSound(k1, t);
      SoundFrame(Forget(k1, t), Delete(k, t), []);
    }
    OnceMeans(Delete(k, t), [], t);
  }

  lemma DeleteHighest(k: Kernel, t: Task)
    requires Sound(k, []) && t in k.prio && t != IDLE && t !in k.terminated && t != k.current && RunsHighest(k)
    ensures Basic(Delete(k, t)) && RunsHighest(Delete(k, t))
  {
    DeleteSound(k, t);
    TakeOffNoneAbove(k.(waiting := k.waiting - {t}, pending := Without(k.pending, t)), t, k.prio[k.current]);
  }

  lemma TerminatedSound(k: Kernel, t: Task)
    requires Sound(k, [t]) && t != IDLE && t !in k.pending
    ensures Sound(k.(terminated := k.terminated + [t]), [])
  {
    var k' := k.(terminated := k.terminated + [t]);
    forall x ensures Once(k'.ready.lists, k'.clock.delayed, k'.clock.overflowed, k'.terminated, [], k'.prio.Keys, x) {
      OnceMeans(k, [t], x);
      OccConcat(k.terminated, [t], x);
      OnceFrom(k', [], x);
    }
  }

  /** One round of prvCheckTasksWaitingTermination in the idle task. */
  function Reap(k: Kernel): Kernel
    requires k.terminated != []
  {
    Forget(k.(terminated := k.terminated[1..]), k.terminated[0])
  }

  /** The task that has waited longest is forgotten, and is on no list. */
  lemma ReapSound(k: Kernel)
    requires Sound(k, []) && k.terminated != [] && k.current !in k.terminated
    ensures var t, k' := k.terminated[0], Reap(k);
            && Sound(k', []) && Placements(k', t) == 0
            && k' == k.(prio := k.prio - {t}, base := k.base - {t}, terminated := k.terminated[1..],
                        numberOfTasks := k.numberOfTasks - 1)
    ensures RunsHighest(k) ==> RunsHighest(Reap(k))
  {
    var t := k.terminated[0];
    assert t in k.terminated;
    var k1 := k.(terminated := k.terminated[1..]);
    forall x ensures Once(k1.ready.lists, k1.clock.delayed, k1.clock.overflowed, k1.terminated, [t], k1.prio.Keys, x) {
      OnceMeans(k, [], x);
      OnceFrom(k1, [t], x);
    }
    OnceMeans(k, [], t);
    ForgetSound(k1, t);
    OnceMeans(Reap(k), [], t);
    hide EachOnce, Once, ByPriority;
  }
}
