/**
 * Task notifications used as counting semaphores (tasks.c): a take that may
 * block, interrupted at any of its steps by gives, from tasks and interrupts.
 */
module Notifications {
  import opened Basics
  import opened Ticks
  import opened Lists

  /** ucNotifyState */
  datatype NotifyState = NotWaiting | WaitingFor | Received

  /** Where a task is in ulTaskGenericNotifyTake. */
  datatype Phase =
    | Idle
    | Entered(clear: bool)              // the count was zero; about to suspend the scheduler
    | Alone(clear: bool)                // the scheduler is suspended; about to check again
    | Chosen(clear: bool, block: bool)  // has decided whether to block
    | Placed(clear: bool)               // on the delayed list; about to resume the scheduler
    | Blocked(clear: bool)              // goes on when it is ready again
    | Finishing(clear: bool)            // about to read the count

  /**
   * ulNotifiedValue and ucNotifyState of one index, whether the state item is on
   * a ready list (else on a delayed list), and whether the event item is on the
   * pending ready list.  `gives` and `taken` count what was given and taken.
   */
  datatype Note = Note(count: Tick, state: NotifyState, ready: bool, pending: bool, phase: Phase, gives: nat,
      taken: nat)

  /** `locker` has the scheduler suspended, `depth` times. */
  datatype System = System(notes: map<Task, Note>, locker: Option<Task>, depth: nat)

  datatype Event =
    | Take(task: Task, clear: bool, wait: bool)
    | Go(task: Task)                    // the next step of a take
    | GiveFromISR(receiver: Task)
    | Give(giver: Task, receiver: Task)
    | TimeOut(task: Task)               // the tick readies a delayed task
    | SuspendAll(task: Task)
    | ResumeAll(task: Task)

  // ---------------------------------------------------------------------------
  // Steps
  // ---------------------------------------------------------------------------

  /** The task can be running: while the scheduler is suspended only the task that did so runs. */
  predicate MayRun(s: System, t: Task) {
    t in s.notes && if s.locker.None? then s.notes[t].ready else s.locker == Some(t)
  }

  predicate Enabled(s: System, e: Event) {
    match e
    case Take(t, clear, wait) => MayRun(s, t) && s.notes[t].phase.Idle? && (wait ==> s.locker.None?)
    case Go(t) => MayRun(s, t) && !s.notes[t].phase.Idle?
    case GiveFromISR(t) => t in s.notes
    case Give(u, t) => MayRun(s, u) && s.notes[u].phase.Idle? && t in s.notes
    case TimeOut(t) => t in s.notes && !s.notes[t].ready && s.locker.None?
    case SuspendAll(t) => MayRun(s, t) && s.notes[t].phase.Idle?
    case ResumeAll(t) => MayRun(s, t) && s.notes[t].phase.Idle? && s.locker == Some(t) && s.depth > 0
  }

  /** A give: the count goes up, and a task that waits becomes ready, or pending while the lists must not be touched. */
  function Given(n: Note, pends: bool): Note {
    var m := n.(count := Plus(n.count, 1), state := Received, gives := n.gives + 1);
    if !n.state.WaitingFor? then m else if pends then m.(pending := true) else m.(ready := true)
  }

  /** The end of a take: the count is cleared or goes down by one, if it is not zero. */
  function Finished(n: Note, clear: bool): Note {
    var took := if n.count == 0 then 0 else if clear then n.count else 1;
    n.(count := n.count - took, taken := n.taken + took, state := NotWaiting, phase := Idle)
  }

  /** The outermost resume readies the pending tasks. */
  function Resumed(s: System): System {
    if s.depth > 1 then s.(depth := s.depth - 1)
    else System(map t | t in s.notes :: s.notes[t]
        .(ready := s.notes[t].ready || s.notes[t].pending, pending := false), None, 0)
  }

  function SetNote(s: System, t: Task, n: Note): System { s.(notes := s.notes[t := n]) }

  function Suspended(s: System, t: Task): System { s.(locker := Some(t), depth := s.depth + 1) }

  /** The next step of a take. */
  function Next(s: System, t: Task): System
    requires t in s.notes && !s.notes[t].phase.Idle?
  {
    var n := s.notes[t];
    match n.phase
    case Entered(clear) => SetNote(Suspended(s, t), t, n.(phase := Alone(clear)))
    case Alone(clear) =>
      if n.count == 0 then SetNote(s, t, n.(state := WaitingFor, phase := Chosen(clear, true)))
      else SetNote(s, t, n.(phase := Chosen(clear, false)))
    case Chosen(clear, block) =>
      if block then SetNote(s, t, n.(ready := false, phase := Placed(clear)))
      else Resumed(SetNote(s, t, n.(phase := Finishing(clear))))
    case Placed(clear) => Resumed(SetNote(s, t, n.(phase := Blocked(clear))))
    case Blocked(clear) => SetNote(s, t, Finished(n, clear))
    case Finishing(clear) => SetNote(s, t, Finished(n, clear))
  }

  function Step(s: System, e: Event): System
    requires Enabled(s, e)
  {
    match e
    case Take(t, clear, wait) =>
      var n := s.notes[t];
      SetNote(s, t, n.(phase := if n.count == 0 && wait then Entered(clear) else Finishing(clear)))
    case Go(t) => Next(s, t)
    case GiveFromISR(t) => SetNote(s, t, Given(s.notes[t], s.locker.Some?))
    case Give(u, t) => SetNote(s, t, Given(s.notes[t], false))
    case TimeOut(t) => SetNote(s, t, s.notes[t].(ready := true))
    case SuspendAll(t) => Suspended(s, t)
    case ResumeAll(t) => Resumed(s)
  }

  // ---------------------------------------------------------------------------
  // The invariant
  // ---------------------------------------------------------------------------

  /** The task has suspended the scheduler in the middle of a take. */
  predicate MidTake(p: Phase) { p.Alone? || p.Chosen? || p.Placed? }

  /** The task has marked itself as waiting, or did so and was notified since. */
  predicate Waits(p: Phase) { (p.Chosen? && p.block) || p.Placed? || p.Blocked? }

  /** What was given is what was taken and what is left, in 32 bits. */
  predicate Balanced(n: Note) { (n.taken + n.count) % WORD == n.gives % WORD }

  predicate NoteOk(s: System, t: Task)
    requires t in s.notes
  {
    var n := s.notes[t];
    && Balanced(n)
    && (MidTake(n.phase) ==> s.locker == Some(t) && s.depth == 1)
    && (n.phase.Entered? ==> s.locker != Some(t))
    && (n.phase.Blocked? ==> s.locker != Some(t))
    && (n.state.WaitingFor? ==> n.count == 0 && Waits(n.phase))
    && (Waits(n.phase) && !n.state.WaitingFor? ==> n.pending || (n.phase.Blocked? && n.ready))
    && (n.pending ==> Waits(n.phase) && s.locker.Some?)
    && (!n.ready ==> n.phase.Placed? || n.phase.Blocked?)
  }

  ghost predicate Inv(s: System) {
    && (s.locker.Some? <==> s.depth > 0)
    && (forall t :: t in s.notes ==> NoteOk(s, t))
  }

  /** Counting on in 32 bits. */
  lemma BalancedGive(n: Note, pends: bool)
    requires Balanced(n)
    ensures Balanced(Given(n, pends))
  {
    var total := n.taken + n.count;
    assert (total + 1) % WORD == (n.gives + 1) % WORD by {
      assert total % WORD == n.gives % WORD;
      assert total == total / WORD * WORD + total % WORD && n.gives == n.gives / WORD * WORD + n.gives % WORD;
      OneMore(total, n.gives);
    }
    if n.count + 1 == WORD {
      assert n.taken + 0 == total + 1 - WORD;
      assert (total + 1 - WORD) % WORD == (total + 1) % WORD;
    }
  }

  lemma OneMore(a: nat, b: nat)
    requires a % WORD == b % WORD
    ensures (a + 1) % WORD == (b + 1) % WORD
  {
    var k := a / WORD - b / WORD;
    assert a + 1 == b + 1 + k * WORD;
  }

  lemma GivenInv(s: System, t: Task, pends: bool)
    requires Inv(s) && t in s.notes && (pends <==> s.locker.Some?)
    ensures Inv(SetNote(s, t, Given(s.notes[t], pends)))
  {
    hide Balanced;
    var r := SetNote(s, t, Given(s.notes[t], pends));
    assert NoteOk(s, t);
    BalancedGive(s.notes[t], pends);
    forall u | u in r.notes ensures NoteOk(r, u) { assert NoteOk(s, u); }
  }

  /** A give by a task readies the receiver at once: the giver runs, so nobody else is in the middle of a take. */
  lemma GiveInv(s: System, u: Task, t: Task)
    requires Inv(s) && Enabled(s, Give(u, t))
    ensures Inv(Step(s, Give(u, t)))
  {
    hide Balanced;
    var r := Step(s, Give(u, t));
    assert NoteOk(s, t) && NoteOk(s, u);
    BalancedGive(s.notes[t], false);
    forall v | v in r.notes ensures NoteOk(r, v) { assert NoteOk(s, v); }
  }

  lemma SameBalance(n: Note, m: Note)
    requires n.count == m.count && n.gives == m.gives && n.taken == m.taken
    ensures Balanced(n) == Balanced(m)
  {
  }

  /** Resuming the scheduler, at the end of a take or by a task that is not in one. */
  lemma ResumedInv(s: System, t: Task, n: Note)
    requires Inv(s) && t in s.notes && s.locker == Some(t)
    requires n.count == s.notes[t].count && n.gives == s.notes[t].gives && n.taken == s.notes[t].taken
             && n.state == s.notes[t].state
    requires n.phase.Idle? || n.phase.Finishing? || (n.phase.Blocked? && s.depth == 1)
    requires n.phase.Blocked? || n.ready
    requires if n.phase.Blocked? then n.pending == s.notes[t].pending && Waits(s.notes[t].phase)
             else !n.pending && !n.state.WaitingFor?
    requires s.depth == 1 || n == s.notes[t]
    ensures Inv(Resumed(SetNote(s, t, n)))
  {
    hide Balanced;
    var r := Resumed(SetNote(s, t, n));
    assert NoteOk(s, t);
    forall u | u in r.notes ensures NoteOk(r, u) {
      assert NoteOk(s, u);
      SameBalance(s.notes[u], r.notes[u]);
    }
  }

  lemma FinishedInv(s: System, t: Task, clear: bool)
    requires Inv(s) && t in s.notes && (s.notes[t].phase.Blocked? || s.notes[t].phase.Finishing?) && MayRun(s, t)
    ensures Inv(SetNote(s, t, Finished(s.notes[t], clear)))
  {
    var r := SetNote(s, t, Finished(s.notes[t], clear));
    assert NoteOk(s, t);
    forall u | u in r.notes ensures NoteOk(r, u) { assert NoteOk(s, u); }
  }

  /** The task suspends the scheduler: nobody else is in the middle of a take. */
  lemma SuspendedInv(s: System, t: Task, n: Note)
    requires Inv(s) && MayRun(s, t)
    requires if n.phase.Idle? then n == s.notes[t]
             else s.notes[t].phase.Entered? && n == s.notes[t].(phase := Alone(s.notes[t].phase.clear))
    ensures Inv(SetNote(Suspended(s, t), t, n))
  {
    hide Balanced;
    var r := SetNote(Suspended(s, t), t, n);
    assert NoteOk(s, t);
    SameBalance(s.notes[t], n);
    forall u | u in r.notes ensures NoteOk(r, u) { assert NoteOk(s, u); }
  }

  lemma NextInv(s: System, t: Task)
    requires Inv(s) && Enabled(s, Go(t))
    ensures Inv(Next(s, t))
  {
    var n, r := s.notes[t], Next(s, t);
    assert NoteOk(s, t);
    hide Balanced;
    match n.phase
    case Entered(clear) => SuspendedInv(s, t, n.(phase := Alone(clear)));
    case Alone(clear) =>
      SameBalance(n, r.notes[t]);
      forall u | u in r.notes ensures NoteOk(r, u) { assert NoteOk(s, u); }
    case Chosen(clear, block) =>
      if block {
        SameBalance(n, r.notes[t]);
        forall u | u in r.notes ensures NoteOk(r, u) { assert NoteOk(s, u); }
      } else {
        ResumedInv(s, t, n.(phase := Finishing(clear)));
      }
    case Placed(clear) => ResumedInv(s, t, n.(phase := Blocked(clear)));
    case Blocked(clear) => FinishedInv(s, t, clear);
    case Finishing(clear) => FinishedInv(s, t, clear);
  }

  lemma StepInv(s: System, e: Event)
    requires Inv(s) && Enabled(s, e)
    ensures Inv(Step(s, e))
  {
    match e
    case Take(t, clear, wait) =>
      hide Balanced;
      var r := Step(s, e);
      SameBalance(s.notes[t], r.notes[t]);
      forall u | u in r.notes ensures NoteOk(r, u) { assert NoteOk(s, u); }
    case Go(t) => NextInv(s, t);
    case GiveFromISR(t) => GivenInv(s, t, s.locker.Some?);
    case Give(u, t) => GiveInv(s, u, t);
    case TimeOut(t) =>
      hide Balanced;
      var r := Step(s, e);
      SameBalance(s.notes[t], r.notes[t]);
      forall u | u in r.notes ensures NoteOk(r, u) { assert NoteOk(s, u); }
    case SuspendAll(t) =>
      SuspendedInv(s, t, s.notes[t]);
      assert SetNote(Suspended(s, t), t, s.notes[t]) == Suspended(s, t);
    case ResumeAll(t) =>
      assert NoteOk(s, t);
      ResumedInv(s, t, s.notes[t]);
      assert SetNote(s, t, s.notes[t]) == s;
  }

  // ---------------------------------------------------------------------------
  // Every run
  // ---------------------------------------------------------------------------

  /** Tasks that have not been notified and are in no take. */
  function Created(tasks: set<Task>): (s: System)
    ensures Inv(s)
  {
    System(map t | t in tasks :: Note(0, NotWaiting, true, false, Idle, 0, 0), None, 0)
  }

  predicate RunEnabled(s: System, es: seq<Event>)
    decreases |es|
  {
    es == [] || (Enabled(s, es[0]) && RunEnabled(Step(s, es[0]), es[1..]))
  }

  function Run(s: System, es: seq<Event>): System
    requires RunEnabled(s, es)
    decreases |es|
  {
    if es == [] then s else Run(Step(s, es[0]), es[1..])
  }

  lemma {:induction false} RunInv(s: System, es: seq<Event>)
    requires Inv(s) && RunEnabled(s, es)
    ensures Inv(Run(s, es))
    decreases |es|
  {
    if es != [] {
      StepInv(s, es[0]);
      RunInv(Step(s, es[0]), es[1..]);
    }
  }

  /**
   * No notification is lost: in every reachable state a task that waits and is
   * neither ready nor pending has nothing to take, also when it is still on its
   * way to the delayed list; once the scheduler is not suspended nobody is pending.
   */
  lemma NoLostNotification(tasks: set<Task>, es: seq<Event>, t: Task)
    requires RunEnabled(Created(tasks), es)
    ensures var s := Run(Created(tasks), es);
            t in s.notes ==>
              var n := s.notes[t];
              && (n.phase.Blocked? && !n.ready && !n.pending ==> n.count == 0 && n.state.WaitingFor?)
              && (Waits(n.phase) && !n.phase.Blocked? && !n.pending ==> n.count == 0 && n.state.WaitingFor?)
              && (s.locker.None? ==> !n.pending)
  {
    hide Balanced;
    RunInv(Created(tasks), es);
    var s := Run(Created(tasks), es);
    if t in s.notes { assert NoteOk(s, t); }
  }

  predicate GivesToTask(e: Event, t: Task) { e == GiveFromISR(t) || (e.Give? && e.receiver == t) }

  /** How many events give to the task. */
  function GivesTo(es: seq<Event>, t: Task): nat
    decreases |es|
  {
    if es == [] then 0 else (if GivesToTask(es[0], t) then 1 else 0) + GivesTo(es[1..], t)
  }

  lemma GiveCounted(s: System, e: Event, t: Task)
    requires Enabled(s, e) && t in s.notes
    ensures t in Step(s, e).notes && Step(s, e).notes[t].gives == s.notes[t].gives + if GivesToTask(e, t) then 1 else 0
  {
  }

  lemma {:induction false} GivesCounted(s: System, es: seq<Event>, t: Task)
    requires RunEnabled(s, es) && t in s.notes
    ensures t in Run(s, es).notes && Run(s, es).notes[t].gives == s.notes[t].gives + GivesTo(es, t)
    decreases |es|
  {
    hide Step, Enabled, GivesToTask;
    if es != [] {
      GiveCounted(s, es[0], t);
      GivesCounted(Step(s, es[0]), es[1..], t);
    }
  }

  /**
   * The gives of a run are what its successful takes took, one each or what
   * they cleared, and what is left, in 32 bits.
   */
  lemma GivesAreTaken(tasks: set<Task>, es: seq<Event>, t: Task)
    requires RunEnabled(Created(tasks), es) && t in tasks
    ensures var s := Run(Created(tasks), es);
            t in s.notes && GivesTo(es, t) % WORD == (s.notes[t].taken + s.notes[t].count) % WORD
  {
    RunInv(Created(tasks), es);
    GivesCounted(Created(tasks), es, t);
    assert NoteOk(Run(Created(tasks), es), t);
  }

  // ---------------------------------------------------------------------------
  // As the kernel runs them
  // ---------------------------------------------------------------------------

  /** The notification fields of a task's control block, and where its list items are. */
  class TaskNotification {
    var notifiedValue: Tick
    var notifyState: NotifyState
    var onReadyList: bool
    var onPendingList: bool

    /** A task marked as waiting has nothing to take. */
    ghost predicate Valid()
      reads this
    {
      notifyState.WaitingFor? ==> notifiedValue == 0
    }

    ghost function View(phase: Phase, gives: nat, taken: nat): Note
      reads this
    {
      Note(notifiedValue, notifyState, onReadyList, onPendingList, phase, gives, taken)
    }

    constructor ()
      ensures Valid() && View(Idle, 0, 0) == Note(0, NotWaiting, true, false, Idle, 0, 0)
    {
      notifiedValue, notifyState, onReadyList, onPendingList := 0, NotWaiting, true, false;
    }

    /** The critical section that checks again and marks the task as waiting. */
    method CheckAndMark() returns (shouldBlock: bool)
      requires Valid()
      modifies this`notifyState
      ensures Valid() && (shouldBlock <==> notifiedValue == 0)
      ensures notifyState == if shouldBlock then WaitingFor else old(notifyState)
    {
      shouldBlock := false;
      if notifiedValue == 0 {
        notifyState := WaitingFor;
        shouldBlock := true;
      }
    }

    /**
     * vTaskGenericNotifyGiveFromISR: a waiting task becomes ready, or pending
     * while the scheduler is suspended.  `higherWoken` is what the interrupt is
     * told and what is marked as a pending yield, each of which stays set if it
     * was.
     */
    method GiveFromISR(suspended: bool, priority: Priority, currentPriority: Priority, ghost phase: Phase,
        ghost gives: nat, ghost taken: nat)
      returns (higherWoken: bool)
      requires Valid()
      modifies this
      ensures Valid() && View(phase, gives + 1, taken) == Given(old(View(phase, gives, taken)), suspended)
      ensures old(notifyState).WaitingFor? ==> if suspended then onPendingList else onReadyList
      ensures higherWoken <==> old(notifyState).WaitingFor? && priority > currentPriority
    {
      higherWoken := false;
      var original := notifyState;
      notifyState := Received;
      notifiedValue := Plus(notifiedValue, 1);
      if original == WaitingFor {
        if suspended {
          onPendingList := true;
        } else {
          onReadyList := true;
        }
        if priority > currentPriority {
          higherWoken := true;
        }
      }
    }

    /** The last critical section of ulTaskGenericNotifyTake: it returns the count found, and takes all of it or one. */
    method FinishTake(clear: bool, ghost gives: nat, ghost taken: nat) returns (value: Tick)
      requires Valid()
      modifies this`notifiedValue, this`notifyState
      ensures Valid() && value == old(notifiedValue)
      ensures View(Idle, gives, taken + if value == 0 then 0 else if clear then value else 1)
           == Finished(old(View(Finishing(clear), gives, taken)), clear)
    {
      value := notifiedValue;
      if value != 0 {
        if clear {
          notifiedValue := 0;
        } else {
          notifiedValue := value - 1;
        }
      }
      notifyState := NotWaiting;
    }
  }
}
