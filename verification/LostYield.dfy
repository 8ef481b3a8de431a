/**
 * A run of the scheduler, from its start, in which giving a mutex leaves a
 * higher task ready with no yield asked for (queue.c, prvCopyDataToQueue and
 * xQueueGenericSend).
 */
module LostYield {
  import opened Basics
  import opened Lists
  import opened Delays
  import opened ReadyLists
  import opened Scheduler
  import opened SchedulerRuns

  // ---------------------------------------------------------------------------
  // Runs from the start
  // ---------------------------------------------------------------------------

  ghost predicate Reaches(es: seq<Event>, k: Kernel, wake: map<Task, nat>) {
    BootedInv(); IsRun(Booted(), es, map[]) && After(Booted(), es, map[]) == (k, wake)
  }

  lemma {:induction false} RunThen(k: Kernel, es: seq<Event>, wake: map<Task, nat>, e: Event)
    requires Inv(k, wake) && IsRun(k, es, wake) && Enabled(After(k, es, wake).0, e)
    ensures IsRun(k, es + [e], wake)
    ensures var (k', wake') := After(k, es, wake);
            After(k, es + [e], wake) == (Step(k', e), NextWake(k', wake', e))
    decreases es
  {
    hide Enabled, Step, NextWake, EachOnce, ByPriority, Lengths, Agrees, EventsOk;
    if es == [] {
      StepInv(k, e, wake);
      assert [] + [e] == [e] && [e][1..] == [];
    } else {
      StepInv(k, es[0], wake);
      RunThen(Step(k, es[0]), es[1..], NextWake(k, wake, es[0]), e);
      assert (es + [e])[0] == es[0] && (es + [e])[1..] == es[1..] + [e];
    }
  }

  lemma Then(es: seq<Event>, k: Kernel, wake: map<Task, nat>, e: Event, k': Kernel)
    requires Reaches(es, k, wake) && Enabled(k, e) && Basic(k) && Step(k, e) == k'
    ensures Reaches(es + [e], k', NextWake(k, wake, e))
  {
    hide Inv, Enabled, Step, NextWake, Basic;
    BootedInv();
    RunThen(Booted(), es, map[], e);
  }

  lemma ReachedInv(es: seq<Event>, k: Kernel, wake: map<Task, nat>)
    requires Reaches(es, k, wake)
    ensures Inv(k, wake) && Basic(k)
  {
  }

  // ---------------------------------------------------------------------------
  // The states passed
  // ---------------------------------------------------------------------------

  const NO_TASKS: Ring<Task> := Ring([], 0)

  /** Ready lists on which only the idle task and tasks of priority 1 or 3 are ready. */
  function ReadyOf(low: Ring<Task>, high: Ring<Task>, top: nat): Ready {
    Ready([Ring([IDLE], 0), low, NO_TASKS, high, NO_TASKS, NO_TASKS, NO_TASKS], top)
  }

  /** At tick zero, with the given tasks asleep on an event list. */
  function Scene(current: Task, owed: bool, suspended: nat, sleepers: seq<Entry<Task>>, waiting: set<Task>,
                 prio: map<Task, nat>, base: map<Task, nat>, ready: Ready, count: nat): Kernel {
    Kernel(Clock(0, sleepers, [], FirstKey(sleepers), 0), ready, current, false, owed, suspended, 0, [], waiting,
        prio, base, [], count)
  }

  lemma ReadyOfOk(low: Ring<Task>, high: Ring<Task>, top: nat)
    requires low.Ok() && high.Ok() && top < MAX_PRIORITIES && (top < 3 ==> high.items == [])
             && (top < 1 ==> low.items == [])
    ensures ReadyOf(low, high, top).Ok()
  {
  }

  lemma SetLow(low: Ring<Task>, high: Ring<Task>, top: nat, r: Ring<Task>)
    ensures ReadyOf(low, high, top).lists[1 := r] == ReadyOf(r, high, top).lists
  {
  }

  lemma LowOps(low: Ring<Task>, high: Ring<Task>, top: nat, t: Task)
    requires ReadyOf(low, high, top).Ok()
    ensures ReadyOf(low, high, top).Add(t, 1) == ReadyOf(low.InsertEnd(t), high, Max(top, 1))
    ensures t in low.items
            ==> ReadyOf(low, high, top).Remove(t, 1) == ReadyOf(low.RemoveAt(IndexOf(low.items, t)), high, top)
  {
    SetLow(low, high, top, low.InsertEnd(t));
    if t in low.items { SetLow(low, high, top, low.RemoveAt(IndexOf(low.items, t))); }
    hide IndexOf, Ready.Ok;
  }

  lemma SetHigh(low: Ring<Task>, high: Ring<Task>, top: nat, r: Ring<Task>)
    ensures ReadyOf(low, high, top).lists[3 := r] == ReadyOf(low, r, top).lists
  {
  }

  lemma HighOps(low: Ring<Task>, high: Ring<Task>, top: nat, t: Task)
    requires ReadyOf(low, high, top).Ok()
    ensures ReadyOf(low, high, top).Add(t, 3) == ReadyOf(low, high.InsertEnd(t), Max(top, 3))
    ensures t in high.items
            ==> ReadyOf(low, high, top).Remove(t, 3) == ReadyOf(low, high.RemoveAt(IndexOf(high.items, t)), top)
  {
    SetHigh(low, high, top, high.InsertEnd(t));
    if t in high.items { SetHigh(low, high, top, high.RemoveAt(IndexOf(high.items, t))); }
    hide IndexOf, Ready.Ok;
  }

  /** A switch goes on in the list of the highest priority. */
  lemma Switched(k: Kernel, low: Ring<Task>, high: Ring<Task>, top: nat)
    requires k.ready == ReadyOf(low, high, top) && k.ready.Ok() && k.suspended == 0
    requires (top == 1 && low.items != []) || (top == 3 && high.items != [])
    ensures top == 1 ==>
              SwitchContext(k) == k.(current := low.Visited(), yieldPending := false, owed := false,
                                     ready := ReadyOf(low.Next(), high, 1))
    ensures top == 3 ==>
              SwitchContext(k) == k.(current := high.Visited(), yieldPending := false, owed := false,
                                     ready := ReadyOf(low, high.Next(), 3))
  {
  }

  /** Task 1, of priority 1, is created and runs. */
  function First(): Kernel {
    Scene(1, false, 0, [], {}, map[IDLE := 0, 1 := 1], map[IDLE := 0, 1 := 1], ReadyOf(Ring([1], 1), NO_TASKS, 1), 2)
  }

  lemma NothingReached()
    ensures Reaches([], Booted(), map[]) && Basic(Booted())
  {
    BootedInv();
  }

  lemma FirstReached()
    ensures Reaches([Spawn(1, 1)], First(), map[])
  {
    NothingReached();
    hide Reaches;
    var k := Booted();
    assert k.ready == ReadyOf(NO_TASKS, NO_TASKS, 0);
    assert k.prio[1 := 1] == map[IDLE := 0, 1 := 1] && k.base[1 := 1] == map[IDLE := 0, 1 := 1];
    LowOps(NO_TASKS, NO_TASKS, 0, 1);
    assert NO_TASKS.InsertEnd(1) == Ring([1], 0);
    var k1 := Create(k, 1, 1).0;
    Switched(k1, Ring([1], 0), NO_TASKS, 1);
    assert Step(k, Spawn(1, 1)) == First();
    Then([], k, map[], Spawn(1, 1), First());
    assert [] + [Spawn(1, 1)] == [Spawn(1, 1)];
  }

  /** Task 3, of priority 1 too, is created and runs. */
  function Second(): Kernel {
    Scene(3, false, 0, [], {}, map[IDLE := 0, 1 := 1, 3 := 1], map[IDLE := 0, 1 := 1, 3 := 1],
        ReadyOf(Ring([3, 1], 1), NO_TASKS, 1), 3)
  }

  function ToSecond(): seq<Event> { [Spawn(1, 1)] + [Spawn(3, 1)] + [Yield] }

  lemma SecondReached()
    ensures Reaches(ToSecond(), Second(), map[])
  {
    FirstReached();
    hide Reaches;
    var k := First();
    ReadyOfOk(Ring([1], 1), NO_TASKS, 1);
    assert k.prio[3 := 1] == map[IDLE := 0, 1 := 1, 3 := 1] && k.base[3 := 1] == map[IDLE := 0, 1 := 1, 3 := 1];
    LowOps(Ring([1], 1), NO_TASKS, 1, 3);
    assert Ring([1], 1).InsertEnd(3) == Ring([3, 1], 2);
    var k1 := Second().(current := 1, ready := ReadyOf(Ring([3, 1], 2), NO_TASKS, 1));
    assert Step(k, Spawn(3, 1)) == k1;
    Then([Spawn(1, 1)], k, map[], Spawn(3, 1), k1);
    ReadyOfOk(Ring([3, 1], 2), NO_TASKS, 1);
    Switched(k1, Ring([3, 1], 2), NO_TASKS, 1);
    assert Step(k1, Yield) == Second();
    Then([Spawn(1, 1)] + [Spawn(3, 1)], k1, map[], Yield, Second());
  }

  /** With nothing pending, the outermost resume changes nothing else. */
  lemma ResumedQuietly(k: Kernel)
    requires Basic(k) && k.suspended == 1 && k.pending == [] && k.pended == 0 && !k.yieldPending
    ensures Step(k, Resume) == k.(suspended := 0)
  {
  }

  /** The running task goes to sleep on an event list: suspend, block, resume and yield. */
  function Sleeps(): seq<Event> { [Block(100, true), Resume, Yield] }

  /** Under suspension, the running task blocks; the scheduler is resumed and yields. */
  lemma SleepsReached(es: seq<Event>, k: Kernel, wake: map<Task, nat>, k1: Kernel, k2: Kernel)
    requires Reaches(es, k, wake) && Basic(k) && Enabled(k, Block(100, true))
    requires k.suspended == 1 && k.pending == [] && k.pended == 0 && !k.yieldPending && k.clock.Now() == 0
    requires Basic(k1) && Step(k, Block(100, true)) == k1
    requires Step(k1.(suspended := 0), Yield) == k2
    ensures Reaches(es + Sleeps(), k2, wake[k.current := 100])
  {
    hide Reaches, Basic, SwitchContext;
    Then(es, k, wake, Block(100, true), k1);
    assert k1.suspended == 1 && k1.pending == [] && k1.pended == 0 && !k1.yieldPending;
    ResumedQuietly(k1);
    hide Step;
    Then(es + [Block(100, true)], k1, wake[k.current := 100], Resume, k1.(suspended := 0));
    ReachedInv(es + [Block(100, true)] + [Resume], k1.(suspended := 0), wake[k.current := 100]);
    Then(es + [Block(100, true)] + [Resume], k1.(suspended := 0), wake[k.current := 100], Yield, k2);
    assert es + [Block(100, true)] + [Resume] + [Yield] == es + Sleeps();
  }

  /** A ready task's state item is taken off the ready list of its priority. */
  lemma TakenOff(k: Kernel, t: Task)
    requires Basic(k) && t in k.prio && IsReady(k, t) && !k.clock.Holds(t)
    ensures TakeOff(k, t) == k.(ready := k.ready.Remove(t, k.prio[t]))
  {
  }

  /** What blocking does at tick zero. */
  lemma Blocks(k: Kernel, sleepers: seq<Entry<Task>>, ready: Ready)
    requires Basic(k) && Enabled(k, Block(100, true)) && IsReady(k, k.current)
    requires k.clock == Clock(0, sleepers, [], FirstKey(sleepers), 0) && !Has(sleepers, k.current)
    requires sleepers == [] || sleepers[0].key == 100
    requires ready == k.ready.Remove(k.current, k.prio[k.current])
    ensures var sleepers' := InsertOrdered(sleepers, Entry(100, k.current));
            Step(k, Block(100, true)) == k.(clock := Clock(0, sleepers', [], FirstKey(sleepers'), 0), ready := ready,
                                            waiting := k.waiting + {k.current}, owed := true)
  {
    TakenOff(k, k.current);
  }

  /** Task 3 sleeps, waiting for a mutex that task 1 holds, and task 1 runs. */
  function Third(): Kernel {
    Scene(1, false, 0, [Entry(100, 3)], {3}, map[IDLE := 0, 1 := 1, 3 := 1], map[IDLE := 0, 1 := 1, 3 := 1],
          ReadyOf(Ring([1], 1), NO_TASKS, 1), 3)
  }

  lemma SecondFacts()
    ensures Basic(Second()) && Second().ready.Remove(3, 1) == ReadyOf(Ring([1], 0), NO_TASKS, 1)
    ensures ReadyOf(Ring([1], 0), NO_TASKS, 1).Ok()
  {
    ReadyOfOk(Ring([3, 1], 1), NO_TASKS, 1);
    ReadyOfOk(Ring([1], 0), NO_TASKS, 1);
    LowOps(Ring([3, 1], 1), NO_TASKS, 1, 3);
    assert Ring([3, 1], 1).RemoveAt(0) == Ring([1], 0) && IndexOf([3, 1], 3) == 0;
  }

  lemma ThirdReached()
    ensures Reaches(ToSecond() + [Suspend] + Sleeps(), Third(), map[3 := 100])
  {
    SecondReached();
    SecondFacts();
    hide Reaches, ToSecond, Sleeps, Sleep;
    var k := Second().(suspended := 1);
    Then(ToSecond(), Second(), map[], Suspend, k);
    var ready := ReadyOf(Ring([1], 0), NO_TASKS, 1);
    var k1 := k.(clock := Clock(0, [Entry(100, 3)], [], 100, 0), waiting := {3}, owed := true, ready := ready);
    Blocks(k, [], ready);
    assert InsertOrdered([], Entry(100, 3)) == [Entry(100, 3)];
    Switched(k1.(suspended := 0), Ring([1], 0), NO_TASKS, 1);
    SleepsReached(ToSecond() + [Suspend], k, map[], k1, Third());
  }

  /** Task 2, of priority 3, is created, runs, and lends its priority to task 1. */
  function Fourth(): Kernel {
    Scene(2, false, 1, [Entry(100, 3)], {3}, map[IDLE := 0, 1 := 3, 2 := 3, 3 := 1],
        map[IDLE := 0, 1 := 1, 2 := 3, 3 := 1],
          ReadyOf(NO_TASKS, Ring([1, 2], 2), 3), 4)
  }

  function ToFourth(): seq<Event> {
    ToSecond() + [Suspend] + Sleeps() + [Spawn(2, 3)] + [Suspend] + [InheritPriority(1)]
  }

  /** As `Fourth`, before the priority is lent. */
  function BeforeLending(): Kernel {
    var prio := map[IDLE := 0, 1 := 1, 2 := 3, 3 := 1];
    Scene(2, false, 1, [Entry(100, 3)], {3}, prio, prio, ReadyOf(Ring([1], 1), Ring([2], 1), 3), 4)
  }

  lemma SpawnsSecond()
    ensures Basic(Third())
    ensures Enabled(Third(), Spawn(2, 3)) && Step(Third(), Spawn(2, 3)) == BeforeLending().(suspended := 0)
  {
    var k, prio := Third(), map[IDLE := 0, 1 := 1, 2 := 3, 3 := 1];
    ReadyOfOk(Ring([1], 1), NO_TASKS, 1);
    assert k.prio[2 := 3] == prio && k.base[2 := 3] == prio;
    HighOps(Ring([1], 1), NO_TASKS, 1, 2);
    assert NO_TASKS.InsertEnd(2) == Ring([2], 0);
    ReadyOfOk(Ring([1], 1), Ring([2], 0), 3);
    Switched(Create(k, 2, 3).0, Ring([1], 1), Ring([2], 0), 3);
  }

  /** A ready task goes from one ready list to another. */
  lemma Repriced(k: Kernel, t: Task, p: nat)
    requires Basic(k) && t in k.prio && k.base[t] <= p < MAX_PRIORITIES && IsReady(k, t) && !k.clock.Holds(t)
    ensures Reprice(k, t, p, k.base[t]) == k.(ready := k.ready.Remove(t, k.prio[t]).Add(t, p), prio := k.prio[t := p])
  {
    TakenOff(k, t);
    assert k.base[t := k.base[t]] == k.base;
  }

  lemma LentReady()
    ensures var r := ReadyOf(Ring([1], 1), Ring([2], 1), 3);
            r.Ok() && r.Remove(1, 1).Add(1, 3) == ReadyOf(NO_TASKS, Ring([1, 2], 2), 3)
  {
    var low, high := Ring([1], 1), Ring([2], 1);
    ReadyOfOk(low, high, 3);
    LowOps(low, high, 3, 1);
    assert IndexOf(low.items, 1) == 0 && low.RemoveAt(0) == NO_TASKS;
    ReadyOfOk(NO_TASKS, high, 3);
    HighOps(NO_TASKS, high, 3, 1);
    assert high.InsertEnd(1) == Ring([1, 2], 2);
  }

  lemma LendingBasic()
    ensures Basic(BeforeLending()) && IsReady(BeforeLending(), 1)
  {
    hide IndexOf;
    ReadyOfOk(Ring([1], 1), Ring([2], 1), 3);
    assert BeforeLending().prio.Keys == BeforeLending().base.Keys;
  }

  lemma LendingFacts()
    ensures !BeforeLending().clock.Holds(1) && BeforeLending().prio[1 := 3] == Fourth().prio
  {
  }

  lemma LendsPriority()
    ensures Basic(BeforeLending()) && Enabled(BeforeLending(), InheritPriority(1))
    ensures Step(BeforeLending(), InheritPriority(1)) == Fourth()
  {
    hide Reprice, Basic, IsReady, Clock.Holds, IndexOf;
    LentReady();
    LendingBasic();
    LendingFacts();
    Repriced(BeforeLending(), 1, 3);
  }

  lemma FourthReached()
    ensures Reaches(ToFourth(), Fourth(), map[3 := 100])
  {
    ThirdReached();
    SpawnsSecond();
    LendsPriority();
    hide Reaches, ToSecond, Sleeps, Create, Inherit;
    var es := ToSecond() + [Suspend] + Sleeps();
    var k := BeforeLending().(suspended := 0);
    Then(es, Third(), map[3 := 100], Spawn(2, 3), k);
    ReachedInv(es + [Spawn(2, 3)], k, map[3 := 100]);
    Then(es + [Spawn(2, 3)], k, map[3 := 100], Suspend, k.(suspended := 1));
    Then(es + [Spawn(2, 3)] + [Suspend], k.(suspended := 1), map[3 := 100], InheritPriority(1), Fourth());
  }

  /**
   * Task 1 has base priority 1 and holds two mutexes.  It inherited priority 3
   * from task 2, to which it has just given the first one; task 3, of priority
   * 1, waits for the other.
   */
  function LateGive(): Kernel {
    Scene(1, false, 0, [Entry(100, 3)], {3}, map[IDLE := 0, 1 := 3, 2 := 3, 3 := 1],
        map[IDLE := 0, 1 := 1, 2 := 3, 3 := 1],
          ReadyOf(NO_TASKS, Ring([2, 1], 2), 3), 4)
  }

  function ToLateGive(): seq<Event> { ToFourth() + Sleeps() + [GiveTo(2, false)] }

  /** Task 2 sleeps, waiting for the first mutex, and task 1 runs. */
  function BeforeGive(): Kernel {
    LateGive()
        .(clock := Clock(0, [Entry(100, 3), Entry(100, 2)], [], 100, 0), waiting := {2, 3},
        ready := ReadyOf(NO_TASKS, Ring([1], 1), 3))
  }

  function Blocked(): Kernel { BeforeGive().(current := 2, owed := true, suspended := 1) }

  lemma FourthFacts()
    ensures Basic(Fourth()) && Enabled(Fourth(), Block(100, true)) && IsReady(Fourth(), 2)
  {
    ReadyOfOk(NO_TASKS, Ring([1, 2], 2), 3);
  }

  lemma BlockedFacts()
    ensures Basic(Fourth()) && Basic(Blocked()) && Fourth().ready.Remove(2, 3) == Blocked().ready
  {
    ReadyOfOk(NO_TASKS, Ring([1], 1), 3);
    ReadyOfOk(NO_TASKS, Ring([1, 2], 2), 3);
    HighOps(NO_TASKS, Ring([1, 2], 2), 3, 2);
    assert Ring([1, 2], 2).RemoveAt(1) == Ring([1], 1) && IndexOf([1, 2], 2) == 1;
  }

  lemma SecondBlocks()
    ensures Basic(Fourth()) && Basic(Blocked()) && Enabled(Fourth(), Block(100, true))
            && Step(Fourth(), Block(100, true)) == Blocked()
  {
    hide Step, Enabled, TakeOff, Basic, IsReady;
    FourthFacts();
    BlockedFacts();
    Blocks(Fourth(), [Entry(100, 3)], Blocked().ready);
    assert InsertOrdered([Entry(100, 3)], Entry(100, 2)) == [Entry(100, 3), Entry(100, 2)];
    assert {3} + {2} == {2, 3};
  }

  lemma FirstSelected()
    ensures Basic(Blocked().(suspended := 0)) && Step(Blocked().(suspended := 0), Yield) == BeforeGive()
  {
    ReadyOfOk(NO_TASKS, Ring([1], 1), 3);
    Switched(Blocked().(suspended := 0), NO_TASKS, Ring([1], 1), 3);
  }

  lemma BeforeGiveReached()
    ensures Reaches(ToFourth() + Sleeps(), BeforeGive(), map[2 := 100, 3 := 100])
  {
    FourthReached();
    hide Reaches, ToFourth, Sleeps, Step, Enabled, Basic;
    SecondBlocks();
    FirstSelected();
    SleepsReached(ToFourth(), Fourth(), map[3 := 100], Blocked(), BeforeGive());
    assert map[3 := 100][2 := 100] == map[2 := 100, 3 := 100];
  }

  lemma LateGiveReached()
    ensures Reaches(ToLateGive(), LateGive(), map[2 := 100, 3 := 100])
  {
    BeforeGiveReached();
    hide Reaches, ToFourth, Sleeps;
    var k := BeforeGive();
    ReadyOfOk(NO_TASKS, Ring([1], 1), 3);
    HighOps(NO_TASKS, Ring([1], 1), 3, 2);
    assert Ring([1], 1).InsertEnd(2) == Ring([2, 1], 2);
    assert Drop(k.clock.delayed, 2) == [Entry(100, 3)];
    assert {2, 3} - {2} == {3};
    assert Step(k, GiveTo(2, false)) == LateGive();
    Then(ToFourth() + Sleeps(), k, map[2 := 100, 3 := 100], GiveTo(2, false), LateGive());
  }

  lemma LateGiveLoses()
    requires Basic(LateGive())
    ensures Enabled(LateGive(), GiveTo(3, true)) && RunsHighest(LateGive()) && LosesYield(LateGive(), GiveTo(3, true))
  {
    hide Basic;
    assert 2 in LateGive().ready.lists[3].items;
  }

  /**
   * In a state reached from the start, giving the last mutex leaves task 2, of
   * priority 3, ready below task 1, now of priority 1, with no yield asked for.
   */
  lemma LateGiveExample()
    ensures Reaches(ToLateGive(), LateGive(), map[2 := 100, 3 := 100]) && RunsHighest(LateGive())
    ensures Enabled(LateGive(), GiveTo(3, true)) && LosesYield(LateGive(), GiveTo(3, true))
    ensures !RunsHighest(Step(LateGive(), GiveTo(3, true)))
  {
    hide Reaches, Step, Enabled, LosesYield, RunsHighest, LateGive, ToLateGive, EachOnce, ByPriority, OnTime, Lengths;
    LateGiveReached();
    ReachedInv(ToLateGive(), LateGive(), map[2 := 100, 3 := 100]);
    LateGiveLoses();
    GiveToHighest(LateGive(), 3, true);
  }
}
