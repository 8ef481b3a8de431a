/**
 * The scheduler as the kernel runs it (tasks.c): file-scope state updated in
 * place by loops.  The state is valid when the scheduler's invariant holds of
 * it, with the absolute wake times kept in a ghost field; every entry point
 * keeps that and says what its caller can see.
 */
module Tasks {
  import opened Basics
  import opened Ticks
  import opened Lists
  import opened Delays
  import opened ReadyLists
  import S = Scheduler
  import R = SchedulerRuns

  class KernelState {
    var tickCount: Tick
    var delayedList: seq<Entry<Task>>
    var overflowDelayedList: seq<Entry<Task>>
    var nextTaskUnblockTime: Tick
    var readyLists: seq<Ring<Task>>
    var topReadyPriority: nat
    var currentTask: Task
    var yieldPending: bool
    var schedulerSuspended: nat
    var pendedTicks: Tick
    var pendingReadyList: seq<Task>
    var waitingOnEvent: set<Task>
    var priority: map<Task, nat>
    var basePriority: map<Task, nat>
    var waitingTermination: seq<Task>
    var currentNumberOfTasks: nat
    /** How often the tick count has wrapped. */
    ghost var epoch: nat
    /** Whether the running task still owes the yield that follows its going to sleep. */
    ghost var owed: bool
    /** The absolute time each delayed task sleeps until. */
    ghost var wake: map<Task, nat>

    ghost function View(): S.Kernel
      reads this
    {
      S.Kernel(
        Clock(tickCount, delayedList, overflowDelayedList, nextTaskUnblockTime, epoch),
        Ready(readyLists, topReadyPriority), currentTask, yieldPending, owed, schedulerSuspended, pendedTicks,
        pendingReadyList, waitingOnEvent, priority, basePriority, waitingTermination, currentNumberOfTasks)
    }

    ghost predicate Valid()
      reads this
    {
      R.Inv(View(), wake)
    }

    /** What holds even between the steps of one call. */
    ghost predicate WellFormed()
      reads this
    {
      S.Basic(View())
    }

    /** The absolute time. */
    ghost function Now(): nat
      reads this
    {
      View().clock.Now()
    }

    ghost predicate Delayed(t: Task)
      reads this
    {
      View().clock.Holds(t)
    }

    predicate IsReady(t: Task)
      reads this
    {
      t in priority && priority[t] < |readyLists| && t in readyLists[priority[t]].items
    }

    // -------------------------------------------------------------------------
    // Steps
    // -------------------------------------------------------------------------

    /** prvAddTaskToReadyList */
    method AddTaskToReadyList(t: Task)
      requires WellFormed()
      modifies this`readyLists, this`topReadyPriority
      ensures View() == S.MakeReady(old(View()), t)
    {
      if t in priority {
        var p := priority[t];
        if p > topReadyPriority { topReadyPriority := p; }
        readyLists := readyLists[p := readyLists[p].InsertEnd(t)];
      }
    }

    /** Whether `t` should run instead of the current task. */
    predicate IsAboveCurrent(t: Task)
      requires WellFormed()
      reads this
    {
      t in priority && priority[t] > priority[currentTask]
    }

    /** prvResetNextTaskUnblockTime */
    method ResetNextTaskUnblockTime()
      modifies this`nextTaskUnblockTime
      ensures View() == old(View()).(clock := old(View()).clock.ResetNextUnblock())
    {
      if delayedList == [] {
        nextTaskUnblockTime := MAX_DELAY;
      } else {
        nextTaskUnblockTime := delayedList[0].key;
      }
    }

    /** taskSWITCH_DELAYED_LISTS */
    method SwitchDelayedLists()
      modifies this`delayedList, this`overflowDelayedList, this`nextTaskUnblockTime, this`epoch
      ensures View() == old(View()).(clock := old(View()).clock.Switch())
    {
      delayedList, overflowDelayedList := overflowDelayedList, delayedList;
      epoch := epoch + 1;
      ResetNextTaskUnblockTime();
    }

    /** The removal of the first delayed task from all its lists in xTaskIncrementTick. */
    method UnblockFirst() returns (above: bool)
      requires WellFormed() && delayedList != []
      modifies this`delayedList, this`readyLists, this`topReadyPriority, this`waitingOnEvent
      ensures above == S.Above(old(delayedList)[0].owner, priority, priority[currentTask])
      ensures View() == FirstUnblocked(old(View()))
    {
      var t := delayedList[0].owner;
      above := IsAboveCurrent(t);
      delayedList := delayedList[1..];
      waitingOnEvent := waitingOnEvent - {t};
      AddTaskToReadyList(t);
    }

    /**
     * The loop of xTaskIncrementTick that readies every due task: together it
     * takes the due tasks off the delayed list and readies them.
     */
    method UnblockDueTasks() returns (switchRequired: bool)
      requires WellFormed()
      modifies this`delayedList, this`nextTaskUnblockTime, this`readyLists, this`topReadyPriority, this`waitingOnEvent
      ensures (View(), switchRequired) == Unblocked(old(View()), false)
    {
      switchRequired := false;
      ghost var goal := Unblocked(View(), false);
      while delayedList != [] && delayedList[0].key <= tickCount
        invariant WellFormed() && Unblocked(View(), switchRequired) == goal
        decreases |delayedList|
      {
        var above := UnblockFirst();
        if above { switchRequired := true; }
      }
      ResetNextTaskUnblockTime();
    }

    method MoveTime()
      modifies this`tickCount, this`delayedList, this`overflowDelayedList, this`nextTaskUnblockTime, this`epoch
      ensures View() == old(View()).(clock := old(View()).clock.Tock())
    {
      tickCount := Plus(tickCount, 1);
      if tickCount == 0 { SwitchDelayedLists(); }
    }

    /** The body of xTaskIncrementTick. */
    method Tick() returns (switchRequired: bool)
      requires WellFormed()
      modifies this`tickCount, this`delayedList, this`overflowDelayedList, this`nextTaskUnblockTime, this`epoch,
               this`readyLists, this`topReadyPriority, this`waitingOnEvent, this`pendedTicks
      ensures (View(), switchRequired) == S.IncrementTick(old(View()))
    {
      switchRequired := false;
      if schedulerSuspended == 0 {
        TickUnblocks(View());
        MoveTime();
        if tickCount >= nextTaskUnblockTime {
          switchRequired := UnblockDueTasks();
        }
        if |readyLists[priority[currentTask]].items| > 1 { switchRequired := true; }
        if yieldPending { switchRequired := true; }
      } else {
        pendedTicks := Plus(pendedTicks, 1);
      }
    }

    /** listREMOVE_ITEM on a task's state item. */
    method RemoveStateItem(t: Task)
      requires WellFormed()
      modifies this`delayedList, this`overflowDelayedList, this`readyLists
      ensures View() == S.TakeOff(old(View()), t)
    {
      if Has(delayedList, t) || Has(overflowDelayedList, t) {
        delayedList, overflowDelayedList := Drop(delayedList, t), Drop(overflowDelayedList, t);
      } else if t in priority && t in readyLists[priority[t]].items {
        var p := priority[t];
        readyLists := readyLists[p := readyLists[p].RemoveAt(IndexOf(readyLists[p].items, t))];
      }
    }

    method MoveToReadyList(t: Task)
      requires WellFormed()
      modifies this`delayedList, this`overflowDelayedList, this`readyLists, this`topReadyPriority
      ensures View() == S.MakeReady(S.TakeOff(old(View()), t), t)
    {
      RemoveStateItem(t);
      AddTaskToReadyList(t);
    }

    /** One round of the drain of xPendingReadyList. */
    method ReadyFirstPending()
      requires WellFormed() && pendingReadyList != []
      modifies this`pendingReadyList, this`delayedList, this`overflowDelayedList, this`readyLists,
          this`topReadyPriority, this`yieldPending
      ensures View() == S.ReadyPending(old(View()))
    {
      var t := pendingReadyList[0];
      pendingReadyList := pendingReadyList[1..];
      MoveToReadyList(t);
      if IsAboveCurrent(t) { yieldPending := true; }
    }

    method DrainPendingReadyList()
      requires WellFormed()
      modifies this`pendingReadyList, this`delayedList, this`overflowDelayedList, this`readyLists,
          this`topReadyPriority, this`yieldPending
      ensures View() == S.DrainPending(old(View()))
    {
      ghost var goal := S.DrainPending(View());
      while pendingReadyList != []
        invariant WellFormed() && S.DrainPending(View()) == goal
        decreases |pendingReadyList|
      {
        ReadyFirstPending();
      }
    }

    method ReplayOneTick()
      requires WellFormed()
      modifies this`tickCount, this`delayedList, this`overflowDelayedList, this`nextTaskUnblockTime, this`epoch,
               this`readyLists, this`topReadyPriority, this`waitingOnEvent, this`pendedTicks, this`yieldPending
      ensures View() == S.ReplayTick(old(View()))
    {
      var switchRequired := Tick();
      if switchRequired { yieldPending := true; }
    }

    /** The replay of the ticks that arrived under suspension. */
    method ReplayPendedTicks()
      requires WellFormed()
      modifies this`tickCount, this`delayedList, this`overflowDelayedList, this`nextTaskUnblockTime, this`epoch,
               this`readyLists, this`topReadyPriority, this`waitingOnEvent, this`pendedTicks, this`yieldPending
      ensures View() == S.Replay(old(View()), old(pendedTicks)).(pended := 0)
    {
      var pendedCounts := pendedTicks;
      ghost var goal := S.Replay(View(), pendedTicks);
      while pendedCounts > 0
        invariant 0 <= pendedCounts < WORD && WellFormed() && S.Replay(View(), pendedCounts) == goal
        decreases pendedCounts
      {
        ghost var before := View();
        ReplayOneTick();
        pendedCounts := pendedCounts - 1;
        S.ReplayNext(before, View(), pendedCounts);
      }
      pendedTicks := 0;
    }

    /** The body of xTaskResumeAll. */
    method Resume()
      requires WellFormed() && schedulerSuspended > 0
      modifies this
      ensures View() == S.ResumeAll(old(View())) && wake == old(wake)
    {
      ghost var lowered := View().(suspended := View().suspended - 1);
      schedulerSuspended := schedulerSuspended - 1;
      if schedulerSuspended == 0 {
        assert View() == lowered;
        CatchUp();
      }
    }

    /** What xTaskResumeAll does once the nesting count has dropped to zero. */
    method CatchUp()
      requires WellFormed()
      modifies this
      ensures View() == S.Catchup(old(View())) && wake == old(wake)
    {
      hide S.Replay, S.DrainPending;
      ghost var k := View();
      var anyPending := pendingReadyList != [];
      DrainPendingReadyList();
      if anyPending { ResetNextTaskUnblockTime(); }
      assert View() == S.Recompute(S.DrainPending(k), k.pending != []);
      ReplayPendedTicks();
    }

    /** The search of taskSELECT_HIGHEST_PRIORITY_TASK, which asserts that it never runs past priority zero. */
    method HighestReadyPriority() returns (topPriority: nat)
      requires View().ready.Ok() && readyLists[View().ready.Highest(topReadyPriority)].items != []
      ensures topPriority == View().ready.Highest(topReadyPriority)
    {
      topPriority := topReadyPriority;
      while readyLists[topPriority].items == []
        invariant topPriority < MAX_PRIORITIES
                  && View().ready.Highest(topPriority) == View().ready.Highest(topReadyPriority)
        decreases topPriority
      {
        assert topPriority > 0;
        topPriority := topPriority - 1;
      }
    }

    /** taskSELECT_HIGHEST_PRIORITY_TASK */
    method SelectHighestPriorityTask()
      requires View().ready.Ok() && readyLists[View().ready.Highest(topReadyPriority)].items != []
      modifies this`currentTask, this`readyLists, this`topReadyPriority
      ensures topReadyPriority == old(View().ready.Highest(topReadyPriority))
      ensures currentTask == old(readyLists)[topReadyPriority].Visited()
      ensures readyLists == old(readyLists)[topReadyPriority := old(readyLists)[topReadyPriority].Next()]
    {
      var topPriority := HighestReadyPriority();
      var list := readyLists[topPriority].Next();
      currentTask := list.items[list.index - 1];
      readyLists := readyLists[topPriority := list];
      topReadyPriority := topPriority;
    }

    method Switch()
      requires View().ready.Ok() && readyLists[View().ready.Highest(topReadyPriority)].items != []
      modifies this`yieldPending, this`currentTask, this`readyLists, this`topReadyPriority, this`owed
      ensures View() == S.SwitchContext(old(View()))
    {
      if schedulerSuspended > 0 {
        yieldPending := true;
      } else {
        yieldPending, owed := false, false;
        SelectHighestPriorityTask();
      }
    }

    method Sleep(ticksToWait: Tick)
      requires WellFormed()
      modifies this`delayedList, this`overflowDelayedList, this`nextTaskUnblockTime, this`readyLists, this`owed
      ensures View() == S.Sleep(old(View()), ticksToWait, false)
    {
      RemoveStateItem(currentTask);
      var timeToWake := Plus(tickCount, ticksToWait);
      if timeToWake < tickCount {
        overflowDelayedList := InsertOrdered(overflowDelayedList, Entry(timeToWake, currentTask));
      } else {
        delayedList := InsertOrdered(delayedList, Entry(timeToWake, currentTask));
        if timeToWake < nextTaskUnblockTime { nextTaskUnblockTime := timeToWake; }
      }
      owed := true;
    }

    method WakeTask(t: Task) returns (higher: bool)
      requires WellFormed() && t in priority
      modifies this`waitingOnEvent, this`pendingReadyList, this`delayedList, this`overflowDelayedList,
          this`readyLists, this`topReadyPriority, this`yieldPending
      ensures View() == S.Wake(old(View()), t)
      ensures higher <==> priority[t] > priority[currentTask]
    {
      waitingOnEvent := waitingOnEvent - {t};
      higher := IsAboveCurrent(t);
      if higher { yieldPending := true; }
      if schedulerSuspended == 0 {
        MoveToReadyList(t);
      } else {
        pendingReadyList := pendingReadyList + [t];
      }
    }

    /** One round of prvCheckTasksWaitingTermination. */
    method ReapFirst()
      requires waitingTermination != [] && currentNumberOfTasks > 0
      modifies this`waitingTermination, this`priority, this`basePriority, this`currentNumberOfTasks
      ensures View() == S.Reap(old(View()))
    {
      var t := waitingTermination[0];
      waitingTermination := waitingTermination[1..];
      priority, basePriority := priority - {t}, basePriority - {t};
      currentNumberOfTasks := currentNumberOfTasks - 1;
    }

    // -------------------------------------------------------------------------
    // Entry points
    // -------------------------------------------------------------------------

    /**
     * xTaskIncrementTick.  An unsuspended tick moves the time by exactly one and
     * takes off the delayed lists exactly the tasks whose time has come; a
     * suspended one is kept for later.  Either way tick count and pended ticks
     * together have risen by one.
     */
    method IncrementTick() returns (switchRequired: bool)
      requires Valid()
      modifies this`tickCount, this`delayedList, this`overflowDelayedList, this`nextTaskUnblockTime, this`epoch,
               this`readyLists, this`topReadyPriority, this`waitingOnEvent, this`pendedTicks
      ensures Valid() && (View(), switchRequired) == S.IncrementTick(old(View()))
      ensures Now() == old(Now()) + if schedulerSuspended == 0 then 1 else 0
      ensures schedulerSuspended == 0 ==> forall t :: Delayed(t) <==> old(Delayed(t)) && !WakesAt(wake, t, Now())
      ensures schedulerSuspended == 0 ==> forall t :: old(Delayed(t)) && WakesAt(wake, t, Now()) ==> IsReady(t)
      ensures Plus(tickCount, pendedTicks) == Plus(Plus(old(tickCount), old(pendedTicks)), 1)
      ensures old(S.RunsHighest(View())) ==> switchRequired || S.RunsHighest(View())
    {
      ghost var k := View();
      R.TickInv(k, wake);
      S.TickSound(k);
      switchRequired := Tick();
      if schedulerSuspended == 0 {
        ghost var k' := View();
        forall t
          ensures k'.clock.Holds(t) <==> k.clock.Holds(t) && !WakesAt(wake, t, k'.clock.Now())
          ensures k.clock.Holds(t) && WakesAt(wake, t, k'.clock.Now()) ==> IsReady(t)
        {
          R.TickTime(k, t, wake);
          if k.clock.Holds(t) && WakesAt(wake, t, k'.clock.Now()) { AwakeIsReady(k, k', t); }
        }
        R.TickTime(k, currentTask, wake);
      }
    }

    /**
     * xTaskResumeAll.  When the last suspension ends nothing is left pending:
     * the time has caught up with every tick, every task that was woken
     * meanwhile is ready, and no task is delayed whose time has come.
     */
    method ResumeAll() returns (mustYield: bool)
      requires Valid() && schedulerSuspended > 0
      modifies this
      ensures wake == old(wake)
      ensures Valid() && View() == S.ResumeAll(old(View())) && schedulerSuspended == old(schedulerSuspended) - 1
      ensures schedulerSuspended == 0 ==>
                pendingReadyList == [] && pendedTicks == 0 && Now() == old(Now()) + old(pendedTicks)
      ensures schedulerSuspended == 0 ==> forall t :: t in old(pendingReadyList) ==> IsReady(t)
      ensures forall t :: Delayed(t) ==> old(Delayed(t)) && t in wake && wake[t] > Now()
      ensures mustYield <==> schedulerSuspended == 0 && yieldPending
      ensures old(S.RunsHighest(View())) ==> S.RunsHighest(View())
    {
      ghost var k := View();
      R.ResumeInv(k, wake);
      R.ResumeAllSound(k);
      R.ResumeAllTime(k, currentTask, wake);
      Resume();
      mustYield := schedulerSuspended == 0 && yieldPending;
      forall t
        ensures Delayed(t) ==> k.clock.Holds(t) && t in wake && wake[t] > Now()
        ensures schedulerSuspended == 0 && t in k.pending ==> IsReady(t)
      {
        R.NothingOverdue(View(), wake, t);
        R.ResumeWakesOnly(k, t, wake);
        if schedulerSuspended == 0 && t in k.pending { ResumeReadies(k, t, wake); }
      }
    }

    /**
     * vTaskSwitchContext.  Unless the scheduler is suspended, which only leaves
     * a yield pending, the next task of the highest non-empty ready list runs.
     */
    method SwitchContext()
      requires Valid()
      modifies this`yieldPending, this`currentTask, this`readyLists, this`topReadyPriority, this`owed
      ensures Valid() && View() == S.SwitchContext(old(View())) && S.RunsHighest(View())
      ensures schedulerSuspended > 0 ==> yieldPending && currentTask == old(currentTask)
      ensures schedulerSuspended == 0 ==> !yieldPending && IsReady(currentTask) && IsNextOf(old(View()), currentTask)
      ensures schedulerSuspended == 0 ==> forall t :: IsReady(t) ==> priority[t] <= priority[currentTask]
    {
      hide S.EachOnce, ByPriority, OnTime, S.Lengths, S.SwitchContext;
      ghost var k := View();
      S.HighestExists(k);
      S.SwitchSound(k);
      SwitchSelects(k, wake);
      Switch();
    }

    /**
     * prvAddCurrentTaskToDelayedList, with the scheduler suspended: the task
     * sleeps until exactly `ticksToWait` ticks from now.
     */
    method AddCurrentTaskToDelayedList(ticksToWait: Tick)
      requires Valid() && R.Enabled(View(), R.Block(ticksToWait, false))
      modifies this`delayedList, this`overflowDelayedList, this`nextTaskUnblockTime, this`readyLists, this`owed,
          this`wake
      ensures Valid() && View() == S.Sleep(old(View()), ticksToWait, false) && Now() == old(Now())
      ensures wake == old(wake)[currentTask := Now() + ticksToWait]
      ensures forall t :: Delayed(t) <==> t == currentTask || old(Delayed(t))
    {
      hide S.EachOnce, ByPriority, OnTime, S.Lengths, S.TakeOff, S.EventsOk;
      ghost var k := View();
      R.StepInv(k, R.Block(ticksToWait, false), wake);
      forall t ensures S.Sleep(k, ticksToWait, false).clock.Holds(t) <==> t == k.current || k.clock.Holds(t) {
        SleepHolds(k, ticksToWait, t, wake);
      }
      R.BlockTime(k, ticksToWait, false, currentTask, wake);
      Sleep(ticksToWait);
      wake := wake[currentTask := k.clock.Now() + ticksToWait];
    }

    /**
     * xTaskRemoveFromEventList, given the task at the head of the event list: it
     * leaves the event list and is ready, or pending while the scheduler is
     * suspended.  The caller learns whether it is above the running task, in
     * which case a yield is pending.
     */
    method RemoveFromEventList(t: Task) returns (higher: bool)
      requires Valid() && t in waitingOnEvent
      modifies this`waitingOnEvent, this`pendingReadyList, this`delayedList, this`overflowDelayedList,
          this`readyLists, this`topReadyPriority, this`yieldPending
      ensures Valid() && t in priority && View() == S.Wake(old(View()), t)
      ensures waitingOnEvent == old(waitingOnEvent) - {t}
      ensures if schedulerSuspended == 0 then IsReady(t) && !Delayed(t)
              else pendingReadyList == old(pendingReadyList) + [t]
      ensures higher <==> priority[t] > priority[currentTask]
      ensures yieldPending <==> old(yieldPending) || higher
      ensures old(S.RunsHighest(View())) ==> S.RunsHighest(View())
    {
      hide S.EachOnce, ByPriority, OnTime, S.Lengths, S.TakeOff, S.MakeReady, S.EventsOk, Agrees;
      ghost var k := View();
      S.EventItemAt(k, t);
      R.WokenIsLive(k, t);
      R.StepInv(k, R.Unblock(t), wake);
      R.WakePlaced(k, t);
      if schedulerSuspended == 0 { WokenIsReady(k, t); }
      higher := WakeTask(t);
    }

    /**
     * prvCheckTasksWaitingTermination: every task that deleted itself is
     * forgotten, all others stay where they are, and the count is right.
     */
    method CheckTasksWaitingTermination()
      requires Valid()
      modifies this`waitingTermination, this`priority, this`basePriority, this`currentNumberOfTasks
      ensures Valid() && waitingTermination == []
      ensures priority == Less(old(priority), Members(old(waitingTermination)))
      ensures basePriority == Less(old(basePriority), Members(old(waitingTermination)))
      ensures currentNumberOfTasks == |priority|
    {
      hide R.Inv, Members, Less;
      LessNone(priority);
      LessNone(basePriority);
      ghost var gone: set<Task> := {};
      while waitingTermination != []
        invariant Valid()
        invariant gone + Members(waitingTermination) == Members(old(waitingTermination))
        invariant priority == Less(old(priority), gone) && basePriority == Less(old(basePriority), gone)
        decreases |waitingTermination|
      {
        ghost var t := waitingTermination[0];
        LessMore(old(priority), gone, t);
        LessMore(old(basePriority), gone, t);
        MembersSplit(waitingTermination);
        ReapOne();
        gone := gone + {t};
      }
      MembersSplit([]);
      NumberIsRight();
    }

    method ReapOne()
      requires Valid() && waitingTermination != []
      modifies this`waitingTermination, this`priority, this`basePriority, this`currentNumberOfTasks
      ensures Valid() && waitingTermination == old(waitingTermination)[1..]
      ensures priority == Less(old(priority), {old(waitingTermination)[0]})
      ensures basePriority == Less(old(basePriority), {old(waitingTermination)[0]})
    {
      hide R.Inv, S.Reap;
      ReapInv(View(), wake);
      ReapFirst();
    }

    lemma NumberIsRight()
      requires Valid()
      ensures currentNumberOfTasks == |priority|
    {
    }
  }

  ghost function Members(s: seq<Task>): set<Task> { set t | t in s }

  lemma MembersSplit(s: seq<Task>)
    ensures if s == [] then Members(s) == {} else Members(s) == {s[0]} + Members(s[1..])
  {
  }

  /** The map without the priorities of the tasks that are gone. */
  ghost function Less(m: map<Task, nat>, gone: set<Task>): map<Task, nat> { m - gone }

  lemma LessNone(m: map<Task, nat>)
    ensures Less(m, {}) == m
  {
  }

  lemma LessMore(m: map<Task, nat>, gone: set<Task>, t: Task)
    ensures Less(Less(m, gone), {t}) == Less(m, gone + {t})
  {
  }

  /** A task that has left the delayed lists without being deleted is ready. */
  lemma AwakeIsReady(k: S.Kernel, k': S.Kernel, t: Task)
    requires S.Sound(k, []) && S.Sound(k', []) && k.clock.Holds(t) && !k'.clock.Holds(t)
    requires k'.prio == k.prio && k'.terminated == k.terminated
    ensures t in k'.prio && t in k'.ready.lists[k'.prio[t]].items
  {
    S.OnceMeans(k, [], t);
    S.OnItsReadyList(k', t);
  }

  lemma ResumeReadies(k: S.Kernel, t: Task, wake: map<Task, nat>)
    requires R.Inv(k, wake) && k.suspended == 1 && t in k.pending
    ensures t in k.prio && S.ResumeAll(k).prio == k.prio && t in S.ResumeAll(k).ready.lists[k.prio[t]].items
  {
    var k1 := k.(suspended := 0);
    S.SoundFrame(k, k1, []);
    R.CatchupReadies(k1, t, wake);
    R.CatchupTime(k1, t, wake);
  }

  /** The task is the next one of the highest non-empty ready list. */
  ghost predicate IsNextOf(k: S.Kernel, t: Task) {
    && k.ready.Ok()
    && var ring := k.ready.lists[k.ready.Highest(k.ready.top)];
       ring.items != [] && t == ring.Visited()
  }

  /** A switch selects the next task of the highest non-empty ready list, and keeps the invariant. */
  lemma SwitchSelects(k: S.Kernel, wake: map<Task, nat>)
    requires R.Inv(k, wake)
    ensures var k' := S.SwitchContext(k);
            && R.Inv(k', wake)
            && (k.suspended == 0 ==>
                  && IsNextOf(k, k'.current)
                  && (forall q, t :: 0 <= q < |k'.ready.lists| && t in k'.ready.lists[q].items ==>
                        q <= k'.prio[k'.current]))
  {
    R.StepInv(k, R.Yield, wake);
    S.HighestExists(k);
    S.SwitchSound(k);
  }

  lemma SleepHolds(k: S.Kernel, ticks: Tick, t: Task, wake: map<Task, nat>)
    requires R.Inv(k, wake) && R.Enabled(k, R.Block(ticks, false))
    ensures S.Sleep(k, ticks, false).clock.Holds(t) <==> t == k.current || k.clock.Holds(t)
  {
    AddAgrees(k.clock, k.current, ticks, wake);
  }

  lemma WokenIsReady(k: S.Kernel, t: Task)
    requires S.Sound(k, []) && t in k.prio && t !in k.terminated && k.suspended == 0
    ensures var k' := S.Wake(k, t); k'.prio == k.prio && t in k'.ready.lists[k'.prio[t]].items && !k'.clock.Holds(t)
  {
    var k0 := k.(waiting := k.waiting - {t}, yieldPending := k.yieldPending || k.prio[t] > k.prio[k.current]);
    S.SoundFrame(k, k0, []);
    S.TakeOffSound(k0, t);
    S.WakeSound(k, t);
    S.OnItsReadyList(S.Wake(k, t), t);
  }

  lemma ReapInv(k: S.Kernel, wake: map<Task, nat>)
    requires R.Inv(k, wake) && k.terminated != []
    ensures R.Inv(S.Reap(k), wake) && k.numberOfTasks > 0
    ensures S.Reap(k).prio == k.prio - {k.terminated[0]} && S.Reap(k).base == k.base - {k.terminated[0]}
    ensures S.Reap(k).terminated == k.terminated[1..]
  {
    S.ReapSound(k);
    S.OnceMeans(k, [], k.terminated[0]);
    var k' := S.Reap(k);
    forall t ensures S.EventItem(k'.waiting, k'.pending, k'.clock, t) { S.EventItemAt(k, t); }
  }

  function FirstUnblocked(k: S.Kernel): (k': S.Kernel)
    requires S.Basic(k) && k.clock.delayed != []
    ensures S.Basic(k') && k'.clock.delayed == k.clock.delayed[1..]
  {
    var t := k.clock.delayed[0].owner;
    S.MakeReady(k.(clock := k.clock.(delayed := k.clock.delayed[1..]), waiting := k.waiting - {t}), t)
  }

  /** What the scan of the delayed list computes, task by task. */
  function Unblocked(k: S.Kernel, switch: bool): (S.Kernel, bool)
    requires S.Basic(k)
    decreases |k.clock.delayed|
  {
    if k.clock.delayed == [] || k.clock.delayed[0].key > k.clock.tick
        then (k.(clock := k.clock.ResetNextUnblock()), switch)
    else Unblocked(FirstUnblocked(k), switch || S.Above(k.clock.delayed[0].owner, k.prio, k.prio[k.current]))
  }

  /** What the scan leaves of the delayed list and of the event lists. */
  ghost function Scanned(k: S.Kernel): S.Kernel {
    k.(clock := k.clock.(delayed := Rest(k.clock.delayed, k.clock.tick)).ResetNextUnblock(),
       waiting := k.waiting - set t | t in Due(k.clock.delayed, k.clock.tick))
  }

  /** Readying the due tasks one by one is taking them off together and then readying them all. */
  lemma {:induction false} UnblockedIs(k: S.Kernel, switch: bool)
    requires S.Basic(k)
    ensures var due := Due(k.clock.delayed, k.clock.tick);
            Unblocked(k, switch) == (S.ReadyAll(Scanned(k), due), switch || S.AnyAbove(due, k.prio, k.prio[k.current]))
    decreases |k.clock.delayed|
  {
    var due := Due(k.clock.delayed, k.clock.tick);
    if due == [] {
      assert k.waiting - (set t | t in due) == k.waiting;
    } else {
      var t, k' := due[0], FirstUnblocked(k);
      assert due[1..] == Due(k'.clock.delayed, k.clock.tick);
      UnblockedIs(k', switch || S.Above(t, k.prio, k.prio[k.current]));
      assert k'.waiting - (set x | x in due[1..]) == k.waiting - set x | x in due;
      assert Scanned(k') == S.MakeReady(Scanned(k), t);
    }
  }

  /** A tick is the move of the count followed by the scan, unless the cached time lets it be skipped. */
  lemma TickUnblocks(k: S.Kernel)
    requires S.Basic(k)
    ensures var k1 := k.(clock := k.clock.Tock());
            && S.Basic(k1)
            && (S.ReadyAll(S.Ticked(k), k.clock.Advance().1),
                S.AnyAbove(k.clock.Advance().1, k.prio, k.prio[k.current]))
               == if k1.clock.tick >= k1.clock.nextUnblock then Unblocked(k1, false) else (k1, false)
  {
    var k1 := k.(clock := k.clock.Tock());
    UnblockedIs(k1, false);
    if k1.clock.tick < k1.clock.nextUnblock {
      assert k.waiting - (set t | t in k.clock.Advance().1) == k.waiting;
    }
  }
}
