/**
 * The blocking protocol of queues and semaphores (queue.c): tasks block with
 * the scheduler suspended and the queue locked, while interrupts may still
 * post to it and receive from it.  Interrupts leave the event lists of a locked
 * queue alone and count their posts and receives in the lock counts, which the
 * unlocking task settles.
 *
 * Steps are the critical sections; everything between two of them may be
 * interleaved with interrupts, and with other tasks unless the scheduler is
 * suspended.
 */
module QueueProtocol {
  import Basics
  import opened Lists
  import opened Delays
  import opened Scheduler

  /** queueUNLOCKED, queueLOCKED_UNMODIFIED and queueINT8_MAX */
  const UNLOCKED := -1
  const LOCKED_UNMODIFIED := 0
  const INT8_MAX := 127

  /** uxMessagesWaiting, uxLength, whether uxItemSize is not zero, cTxLock, cRxLock and the two event lists. */
  datatype Queue = Queue(messages: nat, length: nat, hasData: bool, txLock: int, rxLock: int,
      toReceive: seq<Entry<Task>>, toSend: seq<Entry<Task>>)

  datatype Side = Receiving | Sending

  /** What the task that has locked the queue is about to do. */
  datatype Phase = Checking | Placing | UnlockingTx | UnlockingRx

  datatype Locker = Nobody | Locker(t: Task, side: Side, phase: Phase)

  /**
   * The queue, the live tasks, the tasks that were taken off an event list by a
   * post or a receive and have not retried yet, the locking task, and the
   * priority each task had when it last blocked.
   */
  datatype System = System(
    q: Queue, tasks: set<Task>, wokenReceivers: set<Task>, wokenSenders: set<Task>, locker: Locker,
    blockedAt: map<Task, Basics.Priority>)

  datatype Event =
    | TrySend(t: Task, overwrite: bool)
    | TryReceive(t: Task)
    | TryPeek(t: Task)
    | Lock(t: Task, side: Side)
    | GiveUp
    | Check
    | Place(prio: Basics.Priority)
    | UnlockTx
    | UnlockRx
    | Timeout(t: Task)
    | SendFromISR(overwrite: bool)
    | ReceiveFromISR
    | NewTask(t: Task)

  // ---------------------------------------------------------------------------
  // The operations
  // ---------------------------------------------------------------------------

  function Min(a: int, b: int): int { if a <= b then a else b }
  function Max(a: int, b: int): int { if a >= b then a else b }

  /** Wake up to `n` receivers (senders), the head of the list first. */
  function WakeReceivers(s: System, n: nat): System
    decreases n
  {
    if n == 0 || s.q.toReceive == [] then s
    else WakeReceivers(
      s.(q := s.q.(toReceive := s.q.toReceive[1..]), wokenReceivers := s.wokenReceivers + {s.q.toReceive[0].owner}),
          n - 1)
  }

  function WakeSenders(s: System, n: nat): System
    decreases n
  {
    if n == 0 || s.q.toSend == [] then s
    else WakeSenders(
      s.(q := s.q.(toSend := s.q.toSend[1..]), wokenSenders := s.wokenSenders + {s.q.toSend[0].owner}), n - 1)
  }

  /**
   * The message count after prvCopyDataToQueue: an overwrite replaces a message
   * that is there, but only in a queue that holds data.
   */
  function Posted(q: Queue, overwrite: bool): Queue {
    q.(messages := if q.hasData && overwrite && q.messages > 0 then q.messages else q.messages + 1)
  }

  predicate CanPost(q: Queue, overwrite: bool) { q.messages < q.length || overwrite }

  /** prvIncrementQueueTxLock and prvIncrementQueueRxLock, capped at the number of tasks. */
  function Counted(lock: int, tasks: nat): int { if lock < tasks then lock + 1 else lock }

  function Step(s: System, e: Event): System
    requires Enabled(s, e)
  {
    match e
    case TrySend(t, overwrite) =>
      var s1 := s.(wokenSenders := s.wokenSenders - {t});
      if CanPost(s.q, overwrite) then WakeReceivers(s1.(q := Posted(s.q, overwrite)), 1) else s1
    case TryReceive(t) =>
      var s1 := s.(wokenReceivers := s.wokenReceivers - {t});
      if s.q.messages > 0 then WakeSenders(s1.(q := s.q.(messages := s.q.messages - 1)), 1) else s1
    case TryPeek(t) =>
      var s1 := s.(wokenReceivers := s.wokenReceivers - {t});
      if s.q.messages > 0 then WakeReceivers(s1, 1) else s1
    case Lock(t, side) =>
      s.(q := s.q.(txLock := Max(s.q.txLock, LOCKED_UNMODIFIED), rxLock := Max(s.q.rxLock, LOCKED_UNMODIFIED)),
         locker := Locker(t, side, Checking))
    case GiveUp => s.(locker := s.locker.(phase := UnlockingTx))
    case Check =>
      var blocked := if s.locker.side == Receiving then s.q.messages == 0 else s.q.messages == s.q.length;
      s.(locker := s.locker.(phase := if blocked then Placing else UnlockingTx))
    case Place(prio) =>
      var entry := Entry(Basics.ItemValue(prio), s.locker.t);
      s.(q := if s.locker.side == Receiving then s.q.(toReceive := InsertOrdered(s.q.toReceive, entry))
              else s.q.(toSend := InsertOrdered(s.q.toSend, entry)),
         locker := s.locker.(phase := UnlockingTx), blockedAt := s.blockedAt[s.locker.t := prio])
    case UnlockTx =>
      var s1 := WakeReceivers(s, Max(s.q.txLock, 0));
      s1.(q := s1.q.(txLock := UNLOCKED), locker := s.locker.(phase := UnlockingRx))
    case UnlockRx =>
      var s1 := WakeSenders(s, Max(s.q.rxLock, 0));
      s1.(q := s1.q.(rxLock := UNLOCKED), locker := Nobody)
    case Timeout(t) => s.(q := s.q.(toReceive := Drop(s.q.toReceive, t), toSend := Drop(s.q.toSend, t)))
    case SendFromISR(overwrite) =>
      if !CanPost(s.q, overwrite) then s
      else if s.q.txLock == UNLOCKED then WakeReceivers(s.(q := Posted(s.q, overwrite)), 1)
      else s.(q := Posted(s.q, overwrite).(txLock := Counted(s.q.txLock, |s.tasks|)))
    case ReceiveFromISR =>
      if s.q.messages == 0 then s
      else
        var q1 := s.q.(messages := s.q.messages - 1);
        if s.q.rxLock == UNLOCKED then WakeSenders(s.(q := q1), 1)
        else s.(q := q1.(rxLock := Counted(s.q.rxLock, |s.tasks|)))
    case NewTask(t) => s.(tasks := s.tasks + {t})
  }

  predicate Listed(s: System, t: Task) { Has(s.q.toReceive, t) || Has(s.q.toSend, t) }

  predicate Woken(s: System, t: Task) { t in s.wokenReceivers || t in s.wokenSenders }

  /**
   * Tasks run only while the scheduler is not suspended, that is while nobody
   * holds the lock, and only when they are not blocked; a task that was woken
   * retries the operation it was blocked in before anything else.
   */
  predicate Enabled(s: System, e: Event) {
    match e
    case TrySend(t, overwrite) =>
      s.locker.Nobody? && t in s.tasks && !Listed(s, t) && t !in s.wokenReceivers && (overwrite ==> s.q.length == 1)
    case TryReceive(t) => s.locker.Nobody? && t in s.tasks && !Listed(s, t) && t !in s.wokenSenders
    case TryPeek(t) => s.locker.Nobody? && t in s.tasks && !Listed(s, t) && t !in s.wokenSenders
    case Lock(t, _) => s.locker.Nobody? && t in s.tasks && !Listed(s, t) && !Woken(s, t)
    case GiveUp => s.locker.Locker? && s.locker.phase == Checking
    case Check => s.locker.Locker? && s.locker.phase == Checking
    case Place(_) => s.locker.Locker? && s.locker.phase == Placing
    case UnlockTx => s.locker.Locker? && s.locker.phase == UnlockingTx
    case UnlockRx => s.locker.Locker? && s.locker.phase == UnlockingRx
    case Timeout(_) => s.locker.Nobody?
    case SendFromISR(overwrite) => overwrite ==> s.q.length == 1
    case ReceiveFromISR => true
    case NewTask(t) => s.locker.Nobody? && t !in s.tasks && |s.tasks| < INT8_MAX
  }

  // ---------------------------------------------------------------------------
  // The invariant
  // ---------------------------------------------------------------------------

  /** Each task is at most once on an event list or among the woken. */
  ghost predicate Apart(r: seq<Entry<Task>>, w: seq<Entry<Task>>, wr: set<Task>, ws: set<Task>, tasks: set<Task>,
      t: Task) {
    OccEntries(r, t) + OccEntries(w, t) + (if t in wr then 1 else 0) + (if t in ws then 1 else 0)
      <= if t in tasks then 1 else 0
  }

  ghost predicate AllApart(s: System) {
    forall t :: Apart(s.q.toReceive, s.q.toSend, s.wokenReceivers, s.wokenSenders, s.tasks, t)
  }

  /** The lock counts match the locker's phase and stay in range. */
  ghost predicate LocksOk(s: System) {
    && UNLOCKED <= s.q.txLock <= |s.tasks| && UNLOCKED <= s.q.rxLock <= |s.tasks|
    && match s.locker
       case Nobody => s.q.txLock == UNLOCKED && s.q.rxLock == UNLOCKED
       case Locker(t, side, phase) =>
         && t in s.tasks && s.q.rxLock >= 0 && (phase == UnlockingRx <==> s.q.txLock == UNLOCKED)
         && (phase == Checking || phase == Placing ==> !Listed(s, t) && !Woken(s, t))
  }

  /**
   * `units` of what the waiting tasks want are there: each is already promised
   * to a woken task, or recorded in the lock count, unless that has hit its cap.
   */
  predicate Covered(units: int, lock: int, woken: int, tasks: int) {
    units <= woken + Max(lock, 0) || lock >= tasks
  }

  function Slots(q: Queue): int { q.length - q.messages }

  /** No wakeup is lost, on either side. */
  ghost predicate NoneLost(s: System) {
    && (s.q.toReceive != [] ==> Covered(s.q.messages, s.q.txLock, |s.wokenReceivers|, |s.tasks|))
    && (s.q.toSend != [] ==> Covered(Slots(s.q), s.q.rxLock, |s.wokenSenders|, |s.tasks|))
  }

  /** Since the locking task saw the queue empty (full), every message (free slot) is in the lock count. */
  ghost predicate SeenBlocked(s: System) {
    s.locker.Locker? && s.locker.phase == Placing ==>
      if s.locker.side == Receiving then Covered(s.q.messages, s.q.txLock, 0, |s.tasks|)
      else Covered(Slots(s.q), s.q.rxLock, 0, |s.tasks|)
  }

  ghost predicate Inv(s: System) {
    && |s.tasks| <= INT8_MAX && s.q.length > 0 && (s.q.hasData ==> s.q.messages <= s.q.length)
    && AllApart(s) && LocksOk(s) && NoneLost(s) && SeenBlocked(s)
  }

  // ---------------------------------------------------------------------------
  // Waking
  // ---------------------------------------------------------------------------

  lemma ApartAt(s: System, t: Task)
    requires AllApart(s)
    ensures Apart(s.q.toReceive, s.q.toSend, s.wokenReceivers, s.wokenSenders, s.tasks, t)
  {
  }

  /** Waking moves up to `n` receivers from the list to the woken ones and touches nothing else. */
  lemma {:induction false} WakeReceiversEffect(s: System, n: nat)
    requires AllApart(s)
    ensures var s', k := WakeReceivers(s, n), Min(n, |s.q.toReceive|);
            && s' == s.(q := s.q.(toReceive := s'.q.toReceive), wokenReceivers := s'.wokenReceivers)
            && |s'.q.toReceive| == |s.q.toReceive| - k && |s'.wokenReceivers| == |s.wokenReceivers| + k
            && AllApart(s')
            && (forall t :: Listed(s', t) || Woken(s', t) ==> Listed(s, t) || Woken(s, t))
    decreases n
  {
    if n > 0 && s.q.toReceive != [] {
      var x := s.q.toReceive[0].owner;
      var s1 := s.(q := s.q.(toReceive := s.q.toReceive[1..]), wokenReceivers := s.wokenReceivers + {x});
      ApartAt(s, x);
      forall t ensures Apart(s1.q.toReceive, s1.q.toSend, s1.wokenReceivers, s1.wokenSenders, s1.tasks, t) {
        ApartAt(s, t);
      }
      WakeReceiversEffect(s1, n - 1);
    }
  }

  lemma {:induction false} WakeSendersEffect(s: System, n: nat)
    requires AllApart(s)
    ensures var s', k := WakeSenders(s, n), Min(n, |s.q.toSend|);
            && s' == s.(q := s.q.(toSend := s'.q.toSend), wokenSenders := s'.wokenSenders)
            && |s'.q.toSend| == |s.q.toSend| - k && |s'.wokenSenders| == |s.wokenSenders| + k
            && AllApart(s')
            && (forall t :: Listed(s', t) || Woken(s', t) ==> Listed(s, t) || Woken(s, t))
    decreases n
  {
    if n > 0 && s.q.toSend != [] {
      var x := s.q.toSend[0].owner;
      var s1 := s.(q := s.q.(toSend := s.q.toSend[1..]), wokenSenders := s.wokenSenders + {x});
      ApartAt(s, x);
      forall t ensures Apart(s1.q.toReceive, s1.q.toSend, s1.wokenReceivers, s1.wokenSenders, s1.tasks, t) {
        ApartAt(s, t);
      }
      WakeSendersEffect(s1, n - 1);
    }
  }

  /** Distinct tasks on a list are no more than the tasks there are. */
  lemma {:induction false} ListFits(s: seq<Entry<Task>>, tasks: set<Task>)
    requires forall t :: OccEntries(s, t) <= if t in tasks then 1 else 0
    ensures |s| <= |tasks|
  {
    if s != [] {
      var x := s[0].owner;
      assert OccEntries(s, x) >= 1;
      forall t ensures OccEntries(s[1..], t) <= if t in tasks - {x} then 1 else 0 {
        assert OccEntries(s, t) == (if s[0].owner == t then 1 else 0) + OccEntries(s[1..], t);
      }
      ListFits(s[1..], tasks - {x});
    }
  }

  lemma ListsFit(s: System)
    requires AllApart(s)
    ensures |s.q.toReceive| <= |s.tasks| && |s.q.toSend| <= |s.tasks|
  {
    forall t
      ensures OccEntries(s.q.toReceive, t) <= if t in s.tasks then 1 else 0
      ensures OccEntries(s.q.toSend, t) <= if t in s.tasks then 1 else 0
    {
      ApartAt(s, t);
    }
    ListFits(s.q.toReceive, s.tasks);
    ListFits(s.q.toSend, s.tasks);
  }

  lemma UnwokenApart(s: System, t: Task)
    requires AllApart(s)
    ensures AllApart(s.(wokenReceivers := s.wokenReceivers - {t})) && AllApart(s.(wokenSenders := s.wokenSenders - {t}))
  {
    forall x
      ensures Apart(s.q.toReceive, s.q.toSend, s.wokenReceivers - {t}, s.wokenSenders, s.tasks, x)
      ensures Apart(s.q.toReceive, s.q.toSend, s.wokenReceivers, s.wokenSenders - {t}, s.tasks, x)
    {
      ApartAt(s, x);
    }
  }

  // ---------------------------------------------------------------------------
  // Every step keeps the invariant
  // ---------------------------------------------------------------------------

  lemma SendKeeps(s: System, t: Task, overwrite: bool)
    requires Inv(s) && Enabled(s, TrySend(t, overwrite))
    ensures Inv(Step(s, TrySend(t, overwrite)))
  {
    UnwokenApart(s, t);
    var s1 := s.(wokenSenders := s.wokenSenders - {t});
    if CanPost(s.q, overwrite) { WakeReceiversEffect(s1.(q := Posted(s.q, overwrite)), 1); }
  }

  lemma ReceiveKeeps(s: System, t: Task)
    requires Inv(s) && Enabled(s, TryReceive(t))
    ensures Inv(Step(s, TryReceive(t)))
  {
    UnwokenApart(s, t);
    var s1 := s.(wokenReceivers := s.wokenReceivers - {t});
    if s.q.messages > 0 { WakeSendersEffect(s1.(q := s.q.(messages := s.q.messages - 1)), 1); }
  }

  lemma PeekKeeps(s: System, t: Task)
    requires Inv(s) && Enabled(s, TryPeek(t))
    ensures Inv(Step(s, TryPeek(t)))
  {
    UnwokenApart(s, t);
    var s1 := s.(wokenReceivers := s.wokenReceivers - {t});
    if s.q.messages > 0 { WakeReceiversEffect(s1, 1); }
  }

  lemma PlaceKeeps(s: System, prio: Basics.Priority)
    requires Inv(s) && Enabled(s, Place(prio))
    ensures Inv(Step(s, Place(prio)))
  {
    var s', e := Step(s, Place(prio)), Entry(Basics.ItemValue(prio), s.locker.t);
    forall x ensures Apart(s'.q.toReceive, s'.q.toSend, s'.wokenReceivers, s'.wokenSenders, s'.tasks, x) {
      ApartAt(s, x);
      InsertOcc(s.q.toReceive, e, x);
      InsertOcc(s.q.toSend, e, x);
    }
  }

  lemma TimeoutKeeps(s: System, t: Task)
    requires Inv(s) && Enabled(s, Timeout(t))
    ensures Inv(Step(s, Timeout(t)))
  {
    var s' := Step(s, Timeout(t));
    forall x ensures Apart(s'.q.toReceive, s'.q.toSend, s'.wokenReceivers, s'.wokenSenders, s'.tasks, x) {
      ApartAt(s, x);
      DropOcc(s.q.toReceive, t, x);
      DropOcc(s.q.toSend, t, x);
    }
    DropOcc(s.q.toReceive, t, t);
    DropOcc(s.q.toSend, t, t);
  }

  /** Unlocking settles every post and every receive that was only counted. */
  lemma UnlockTxKeeps(s: System)
    requires Inv(s) && Enabled(s, UnlockTx)
    ensures Inv(Step(s, UnlockTx))
  {
    ListsFit(s);
    WakeReceiversEffect(s, Max(s.q.txLock, 0));
  }

  lemma UnlockRxKeeps(s: System)
    requires Inv(s) && Enabled(s, UnlockRx)
    ensures Inv(Step(s, UnlockRx))
  {
    ListsFit(s);
    WakeSendersEffect(s, Max(s.q.rxLock, 0));
  }

  lemma SendFromISRKeeps(s: System, overwrite: bool)
    requires Inv(s) && Enabled(s, SendFromISR(overwrite))
    ensures Inv(Step(s, SendFromISR(overwrite)))
  {
    if CanPost(s.q, overwrite) && s.q.txLock == UNLOCKED {
      var s1 := s.(q := Posted(s.q, overwrite));
      assert AllApart(s1);
      WakeReceiversEffect(s1, 1);
    }
  }

  lemma ReceiveFromISRKeeps(s: System)
    requires Inv(s)
    ensures Inv(Step(s, ReceiveFromISR))
  {
    if s.q.messages > 0 && s.q.rxLock == UNLOCKED {
      var s1 := s.(q := s.q.(messages := s.q.messages - 1));
      assert AllApart(s1);
      WakeSendersEffect(s1, 1);
    }
  }

  lemma NewTaskKeeps(s: System, t: Task)
    requires Inv(s) && Enabled(s, NewTask(t))
    ensures Inv(Step(s, NewTask(t)))
  {
    var s' := Step(s, NewTask(t));
    forall x ensures Apart(s'.q.toReceive, s'.q.toSend, s'.wokenReceivers, s'.wokenSenders, s'.tasks, x) {
      ApartAt(s, x);
    }
  }

  /** No step of a task, an interrupt or the clock loses a wakeup. */
  lemma StepKeeps(s: System, e: Event)
    requires Inv(s) && Enabled(s, e)
    ensures Inv(Step(s, e))
  {
    match e
    case TrySend(t, overwrite) => SendKeeps(s, t, overwrite);
    case TryReceive(t) => ReceiveKeeps(s, t);
    case TryPeek(t) => PeekKeeps(s, t);
    case Lock(t, side) =>
    case GiveUp =>
    case Check =>
    case Place(prio) => PlaceKeeps(s, prio);
    case UnlockTx => UnlockTxKeeps(s);
    case UnlockRx => UnlockRxKeeps(s);
    case Timeout(t) => TimeoutKeeps(s, t);
    case SendFromISR(overwrite) => SendFromISRKeeps(s, overwrite);
    case ReceiveFromISR => ReceiveFromISRKeeps(s);
    case NewTask(t) => NewTaskKeeps(s, t);
  }

  // ---------------------------------------------------------------------------
  // Whole runs
  // ---------------------------------------------------------------------------

  predicate IsRun(s: System, es: seq<Event>)
    decreases |es|
  {
    es == [] || (Enabled(s, es[0]) && IsRun(Step(s, es[0]), es[1..]))
  }

  function After(s: System, es: seq<Event>): System
    requires IsRun(s, es)
    decreases |es|
  {
    if es == [] then s else After(Step(s, es[0]), es[1..])
  }

  /** A queue just created: empty (or, for a semaphore, with an initial count), unlocked and without waiters. */
  function Created(length: nat, count: nat, hasData: bool, tasks: set<Task>): System {
    System(Queue(count, length, hasData, UNLOCKED, UNLOCKED, [], []), tasks, {}, {}, Nobody, map[])
  }

  lemma CreatedInv(length: nat, count: nat, hasData: bool, tasks: set<Task>)
    requires 0 < length && count <= length && |tasks| <= INT8_MAX
    ensures Inv(Created(length, count, hasData, tasks)) && Ordered(Created(length, count, hasData, tasks))
  {
    var s := Created(length, count, hasData, tasks);
    forall t ensures Apart(s.q.toReceive, s.q.toSend, s.wokenReceivers, s.wokenSenders, s.tasks, t) {}
  }

  lemma {:induction false} RunKeeps(s: System, es: seq<Event>)
    requires Inv(s) && IsRun(s, es)
    ensures Inv(After(s, es))
    decreases |es|
  {
    if es != [] {
      StepKeeps(s, es[0]);
      RunKeeps(Step(s, es[0]), es[1..]);
    }
  }

  /** The step overwrites a queue without data while it is full. */
  predicate Overfills(s: System, e: Event) {
    (e.TrySend? || e.SendFromISR?) && e.overwrite && !s.q.hasData && s.q.messages >= s.q.length
  }

  /** Some step of the run does so. */
  predicate EverOverfills(s: System, es: seq<Event>)
    requires IsRun(s, es)
    decreases |es|
  {
    es != [] && (Overfills(s, es[0]) || EverOverfills(Step(s, es[0]), es[1..]))
  }

  /** The message count is within the length in every state of the run. */
  predicate StaysWithin(s: System, es: seq<Event>)
    requires IsRun(s, es)
    decreases |es|
  {
    s.q.messages <= s.q.length && (es == [] || StaysWithin(Step(s, es[0]), es[1..]))
  }

  lemma {:induction false} WakesKeepCount(s: System, n: nat)
    ensures WakeReceivers(s, n).q.messages == s.q.messages && WakeReceivers(s, n).q.length == s.q.length
    ensures WakeSenders(s, n).q.messages == s.q.messages && WakeSenders(s, n).q.length == s.q.length
    decreases n
  {
    if n > 0 {
      if s.q.toReceive != [] {
        WakesKeepCount(
          s.(q := s.q.(toReceive := s.q.toReceive[1..]), wokenReceivers := s.wokenReceivers + {s.q.toReceive[0].owner}),
          n - 1);
      }
      if s.q.toSend != [] {
        WakesKeepCount(
          s.(q := s.q.(toSend := s.q.toSend[1..]), wokenSenders := s.wokenSenders + {s.q.toSend[0].owner}),
          n - 1);
      }
    }
  }

  /** One step takes the count beyond the length exactly when it overfills. */
  lemma StepWithin(s: System, e: Event)
    requires Enabled(s, e) && s.q.messages <= s.q.length
    ensures Step(s, e).q.length == s.q.length
    ensures Step(s, e).q.messages <= s.q.length <==> !Overfills(s, e)
  {
    match e
    case TrySend(t, overwrite) =>
        WakesKeepCount(s.(wokenSenders := s.wokenSenders - {t}, q := Posted(s.q, overwrite)), 1);
    case TryReceive(t) =>
      if s.q.messages > 0 {
        WakesKeepCount(s.(wokenReceivers := s.wokenReceivers - {t}, q := s.q.(messages := s.q.messages - 1)), 1);
      }
    case TryPeek(t) => WakesKeepCount(s.(wokenReceivers := s.wokenReceivers - {t}), 1);
    case UnlockTx => WakesKeepCount(s, Max(s.q.txLock, 0));
    case UnlockRx => WakesKeepCount(s, Max(s.q.rxLock, 0));
    case SendFromISR(overwrite) => WakesKeepCount(s.(q := Posted(s.q, overwrite)), 1);
    case ReceiveFromISR => if s.q.messages > 0 { WakesKeepCount(s.(q := s.q.(messages := s.q.messages - 1)), 1); }
    case _ =>
  }

  /**
   * The message count stays within the length throughout a run if and only if
   * no step of it overwrites a queue without data while that queue is full.
   */
  lemma {:induction false} WithinIff(s: System, es: seq<Event>)
    requires IsRun(s, es) && s.q.messages <= s.q.length
    ensures StaysWithin(s, es) <==> !EverOverfills(s, es)
    ensures StaysWithin(s, es) ==> After(s, es).q.messages <= After(s, es).q.length
    decreases |es|
  {
    if es != [] {
      StepWithin(s, es[0]);
      if !Overfills(s, es[0]) { WithinIff(Step(s, es[0]), es[1..]); }
    }
  }

  lemma ConsRun(s: System, e: Event, rest: seq<Event>)
    requires Enabled(s, e) && IsRun(Step(s, e), rest)
    ensures IsRun(s, [e] + rest) && After(s, [e] + rest) == After(Step(s, e), rest)
    ensures EverOverfills(s, [e] + rest) <==> Overfills(s, e) || EverOverfills(Step(s, e), rest)
  {
    assert ([e] + rest)[0] == e && ([e] + rest)[1..] == rest;
  }

  /** A semaphore of length one that is available, with task 1, of priority 2, blocked giving it. */
  function BlockedGiver(): System {
    Created(1, 1, false, {1})
        .(q := Queue(1, 1, false, UNLOCKED, UNLOCKED, [], [Entry(Basics.ItemValue(2), 1)]), blockedAt := map[1 := 2])
  }

  /** The steps by which task 1 blocks. */
  function GiverBlocks(): seq<Event> {
    [Lock(1, Sending)] + ([Check] + ([Place(2)] + ([UnlockTx] + ([UnlockRx] + []))))
  }

  lemma BlockedGiverReachable()
    ensures IsRun(Created(1, 1, false, {1}), GiverBlocks())
    ensures After(Created(1, 1, false, {1}), GiverBlocks()) == BlockedGiver()
  {
    var s0 := Created(1, 1, false, {1});
    var s1 := Step(s0, Lock(1, Sending));
    var s2 := Step(s1, Check);
    var s3 := Step(s2, Place(2));
    assert s3.q.toSend == [Entry(Basics.ItemValue(2), 1)] && s3.q.toReceive == [];
    var s4 := Step(s3, UnlockTx);
    assert Step(s4, UnlockRx) == BlockedGiver();
    ConsRun(s4, UnlockRx, []);
    ConsRun(s3, UnlockTx, [UnlockRx] + []);
    ConsRun(s2, Place(2), [UnlockTx] + ([UnlockRx] + []));
    ConsRun(s1, Check, [Place(2)] + ([UnlockTx] + ([UnlockRx] + [])));
    ConsRun(s0, Lock(1, Sending), [Check] + ([Place(2)] + ([UnlockTx] + ([UnlockRx] + []))));
  }

  /**
   * Overwriting a semaphore that is already available makes its count two, and
   * leaves a task that is blocked giving it blocked on a queue that is not full.
   */
  lemma OverfillExample()
    ensures IsRun(BlockedGiver(), [SendFromISR(true)]) && EverOverfills(BlockedGiver(), [SendFromISR(true)])
    ensures var s := After(BlockedGiver(), [SendFromISR(true)]);
            s.locker == Nobody && s.wokenSenders == {} && s.q.toSend == [Entry(Basics.ItemValue(2), 1)]
                && s.q.messages == 2 && s.q.length == 1
  {
    ConsRun(BlockedGiver(), SendFromISR(true), []);
    assert [SendFromISR(true)] + [] == [SendFromISR(true)];
  }

  /**
   * In every run from creation: a task waits to receive only while every
   * message is spoken for by a woken receiver or a counted post (or the count
   * is at its cap), and dually for senders and free slots.  Once nobody holds
   * the lock and every woken task has retried, receivers wait only on an empty
   * queue and senders only on one without a free slot; that it is then exactly
   * full holds when no step has overfilled it.
   */
  lemma NoLostWakeup(length: nat, count: nat, hasData: bool, tasks: set<Task>, es: seq<Event>)
    requires 0 < length && count <= length && |tasks| <= INT8_MAX
    requires IsRun(Created(length, count, hasData, tasks), es)
    ensures var s := After(Created(length, count, hasData, tasks), es);
            && NoneLost(s)
            && (s.locker.Nobody? && s.wokenReceivers == {} && s.q.toReceive != [] ==> s.q.messages == 0)
            && (s.locker.Nobody? && s.wokenSenders == {} && s.q.toSend != [] ==>
                  && s.q.messages >= s.q.length
                  && (!EverOverfills(Created(length, count, hasData, tasks), es) ==> s.q.messages == s.q.length))
  {
    var s0 := Created(length, count, hasData, tasks);
    CreatedInv(length, count, hasData, tasks);
    RunKeeps(s0, es);
    WithinIff(s0, es);
    ListsFit(After(s0, es));
  }

  /** A lock count that is about to rise is never at the 8-bit limit, as the kernel asserts. */
  lemma LockNeverOverflows(s: System)
    requires Inv(s)
    ensures s.q.txLock < |s.tasks| ==> s.q.txLock != INT8_MAX
    ensures s.q.rxLock < |s.tasks| ==> s.q.rxLock != INT8_MAX
  {
  }

  // ---------------------------------------------------------------------------
  // Priority order
  // ---------------------------------------------------------------------------

  /** Every entry was placed by its owner's priority at that time. */
  ghost predicate Keyed(ws: seq<Entry<Task>>, blockedAt: map<Task, Basics.Priority>) {
    forall i :: 0 <= i < |ws| ==> ws[i].owner in blockedAt && ws[i].key == Basics.ItemValue(blockedAt[ws[i].owner])
  }

  ghost predicate Ordered(s: System) {
    Sorted(s.q.toReceive) && Sorted(s.q.toSend) && Keyed(s.q.toReceive, s.blockedAt) && Keyed(s.q.toSend, s.blockedAt)
  }

  lemma {:induction false} HasAt(ws: seq<Entry<Task>>, i: nat)
    requires i < |ws|
    ensures Has(ws, ws[i].owner)
  {
    if i > 0 { HasAt(ws[1..], i - 1); }
  }

  /** Placing a task that is on neither list keeps both keyed. */
  lemma PlaceKeyed(ws: seq<Entry<Task>>, blockedAt: map<Task, Basics.Priority>, t: Task, prio: Basics.Priority)
    requires Keyed(ws, blockedAt) && !Has(ws, t)
    ensures Keyed(ws, blockedAt[t := prio])
    ensures Keyed(InsertOrdered(ws, Entry(Basics.ItemValue(prio), t)), blockedAt[t := prio])
  {
    var e := Entry(Basics.ItemValue(prio), t);
    forall i | 0 <= i < |ws| ensures ws[i].owner != t { HasAt(ws, i); }
    InsertOrderedSplits(ws, e);
    var us, n := InsertOrdered(ws, e), Rank(ws, e.key);
    hide InsertOrdered, Rank;
    forall j | 0 <= j < |us| ensures us[j] == e || (j < n && us[j] == ws[j]) || (j > n && us[j] == ws[j - 1]) {}
  }

  lemma {:induction false} DropRemoves(s: seq<Entry<Task>>, t: Task) returns (i: nat)
    requires Has(s, t)
    ensures i < |s| && s[i].owner == t && Drop(s, t) == s[..i] + s[i + 1..]
  {
    if s[0].owner == t {
      i := 0;
    } else {
      i := DropRemoves(s[1..], t);
      assert s == [s[0]] + s[1..];
      i := i + 1;
      assert s[..i] == [s[0]] + s[1..][..i - 1];
    }
  }

  lemma {:induction false} DropNothing(s: seq<Entry<Task>>, t: Task)
    requires !Has(s, t)
    ensures Drop(s, t) == s
  {
    if s != [] { DropNothing(s[1..], t); }
  }

  lemma DropSorted(s: seq<Entry<Task>>, t: Task, blockedAt: map<Task, Basics.Priority>)
    requires Sorted(s) && Keyed(s, blockedAt)
    ensures Sorted(Drop(s, t)) && Keyed(Drop(s, t), blockedAt)
  {
    if Has(s, t) {
      var i := DropRemoves(s, t);
    } else {
      DropNothing(s, t);
    }
  }

  lemma {:induction false} WakeOrdered(s: System, n: nat)
    requires Ordered(s)
    ensures Ordered(WakeReceivers(s, n)) && Ordered(WakeSenders(s, n))
    decreases n
  {
    if n > 0 {
      if s.q.toReceive != [] {
        WakeOrdered(
          s.(q := s.q.(toReceive := s.q.toReceive[1..]), wokenReceivers := s.wokenReceivers + {s.q.toReceive[0].owner}),
          n - 1);
      }
      if s.q.toSend != [] {
        WakeOrdered(
          s.(q := s.q.(toSend := s.q.toSend[1..]), wokenSenders := s.wokenSenders + {s.q.toSend[0].owner}),
          n - 1);
      }
    }
  }

  /** The event lists stay in the order of the keys the tasks were placed with. */
  lemma StepOrdered(s: System, e: Event)
    requires Inv(s) && Ordered(s) && Enabled(s, e)
    ensures Ordered(Step(s, e))
  {
    match e
    case TrySend(t, overwrite) => WakeOrdered(s.(wokenSenders := s.wokenSenders - {t}, q := Posted(s.q, overwrite)), 1);
    case TryReceive(t) =>
      if s.q.messages > 0 {
        WakeOrdered(s.(wokenReceivers := s.wokenReceivers - {t}, q := s.q.(messages := s.q.messages - 1)), 1);
      }
    case TryPeek(t) => WakeOrdered(s.(wokenReceivers := s.wokenReceivers - {t}), 1);
    case Place(prio) =>
      InsertOrderedSorted(s.q.toReceive, Entry(Basics.ItemValue(prio), s.locker.t));
      InsertOrderedSorted(s.q.toSend, Entry(Basics.ItemValue(prio), s.locker.t));
      PlaceKeyed(s.q.toReceive, s.blockedAt, s.locker.t, prio);
      PlaceKeyed(s.q.toSend, s.blockedAt, s.locker.t, prio);
    case UnlockTx => WakeOrdered(s, Max(s.q.txLock, 0));
    case UnlockRx => WakeOrdered(s, Max(s.q.rxLock, 0));
    case Timeout(t) => DropSorted(s.q.toReceive, t, s.blockedAt); DropSorted(s.q.toSend, t, s.blockedAt);
    case SendFromISR(overwrite) => WakeOrdered(s.(q := Posted(s.q, overwrite)), 1);
    case ReceiveFromISR => if s.q.messages > 0 { WakeOrdered(s.(q := s.q.(messages := s.q.messages - 1)), 1); }
    case _ =>
  }

  lemma {:induction false} RunOrders(s: System, es: seq<Event>)
    requires Inv(s) && Ordered(s) && IsRun(s, es)
    ensures Ordered(After(s, es))
    decreases |es|
  {
    if es != [] {
      StepOrdered(s, es[0]);
      StepKeeps(s, es[0]);
      RunOrders(Step(s, es[0]), es[1..]);
    }
  }

  /** No task on the list had a higher priority when it blocked than the first. */
  ghost predicate FirstHighest(ws: seq<Entry<Task>>, blockedAt: map<Task, Basics.Priority>) {
    forall i :: 0 <= i < |ws| ==>
      ws[0].owner in blockedAt && ws[i].owner in blockedAt && blockedAt[ws[i].owner] <= blockedAt[ws[0].owner]
  }

  lemma OrderedFirst(ws: seq<Entry<Task>>, blockedAt: map<Task, Basics.Priority>)
    requires Sorted(ws) && Keyed(ws, blockedAt)
    ensures FirstHighest(ws, blockedAt)
  {
    forall i | 0 <= i < |ws|
      ensures ws[0].owner in blockedAt && ws[i].owner in blockedAt && blockedAt[ws[i].owner] <= blockedAt[ws[0].owner]
    {
      if i > 0 { assert ws[0].key <= ws[i].key; }
    }
  }

  /**
   * In every run from creation the task that a post (receive) would wake had
   * the highest priority, when it blocked, of all that wait.
   */
  lemma RunOrdered(length: nat, count: nat, hasData: bool, tasks: set<Task>, es: seq<Event>)
    requires 0 < length && count <= length && |tasks| <= INT8_MAX
    requires IsRun(Created(length, count, hasData, tasks), es)
    ensures var s := After(Created(length, count, hasData, tasks), es);
            FirstHighest(s.q.toReceive, s.blockedAt) && FirstHighest(s.q.toSend, s.blockedAt)
  {
    CreatedInv(length, count, hasData, tasks);
    RunOrders(Created(length, count, hasData, tasks), es);
    var s := After(Created(length, count, hasData, tasks), es);
    OrderedFirst(s.q.toReceive, s.blockedAt);
    OrderedFirst(s.q.toSend, s.blockedAt);
  }

  // ---------------------------------------------------------------------------
  // The queue as the kernel updates it
  // ---------------------------------------------------------------------------

  /**
   * The fields of Queue_t that the protocol is about.  The ghost `system` holds
   * what is not stored in the queue: who is live, woken and locking.
   */
  class QueueState {
    var messagesWaiting: nat
    const length: nat
    const hasData: bool
    var txLock: int
    var rxLock: int
    var tasksWaitingToReceive: seq<Entry<Task>>
    var tasksWaitingToSend: seq<Entry<Task>>
    var numberOfTasks: nat
    ghost var system: System

    ghost function View(): System
      reads this
    {
      system.(q := Queue(messagesWaiting, length, hasData, txLock, rxLock, tasksWaitingToReceive, tasksWaitingToSend))
    }

    ghost predicate Valid()
      reads this
    {
      Inv(View()) && numberOfTasks == |system.tasks|
    }

    /** The queue xQueueGenericCreate and xQueueCreateCountingSemaphore leave behind. */
    constructor (length: nat, count: nat, hasData: bool, ghost tasks: set<Task>, numberOfTasks: nat)
      requires 0 < length && count <= length && |tasks| <= INT8_MAX && numberOfTasks == |tasks|
      ensures Valid() && View() == Created(length, count, hasData, tasks)
    {
      this.length, this.hasData, messagesWaiting, this.numberOfTasks := length, hasData, count, numberOfTasks;
      txLock, rxLock := UNLOCKED, UNLOCKED;
      tasksWaitingToReceive, tasksWaitingToSend := [], [];
      system := Created(length, count, hasData, tasks);
      new;
      CreatedInv(length, count, hasData, tasks);
    }

    /** xTaskRemoveFromEventList on the list of waiting receivers (senders). */
    method RemoveFirstReceiver()
      requires tasksWaitingToReceive != []
      modifies this`tasksWaitingToReceive, this`system
      ensures View() == WakeReceivers(old(View()), 1) && system.locker == old(system.locker)
              && system.tasks == old(system.tasks)
    {
      system := system.(wokenReceivers := system.wokenReceivers + {tasksWaitingToReceive[0].owner});
      tasksWaitingToReceive := tasksWaitingToReceive[1..];
    }

    method RemoveFirstSender()
      requires tasksWaitingToSend != []
      modifies this`tasksWaitingToSend, this`system
      ensures View() == WakeSenders(old(View()), 1) && system.locker == old(system.locker)
              && system.tasks == old(system.tasks)
    {
      system := system.(wokenSenders := system.wokenSenders + {tasksWaitingToSend[0].owner});
      tasksWaitingToSend := tasksWaitingToSend[1..];
    }

    /** The first critical section of a send by task `t`. */
    method TryToSend(ghost t: Task, overwrite: bool) returns (sent: bool)
      requires Valid() && Enabled(View(), TrySend(t, overwrite))
      modifies this`messagesWaiting, this`tasksWaitingToReceive, this`system
      ensures Valid() && View() == Step(old(View()), TrySend(t, overwrite))
      ensures sent <==> old(messagesWaiting) < length || overwrite
    {
      SendKeeps(View(), t, overwrite);
      system := system.(wokenSenders := system.wokenSenders - {t});
      sent := messagesWaiting < length || overwrite;
      if sent {
        CountPost(overwrite);
        if tasksWaitingToReceive != [] { RemoveFirstReceiver(); }
      }
    }

    /** The first critical section of a receive by task `t`. */
    method TryToReceive(ghost t: Task) returns (received: bool)
      requires Valid() && Enabled(View(), TryReceive(t))
      modifies this`messagesWaiting, this`tasksWaitingToSend, this`system
      ensures Valid() && View() == Step(old(View()), TryReceive(t))
      ensures received <==> old(messagesWaiting) > 0
    {
      ReceiveKeeps(View(), t);
      system := system.(wokenReceivers := system.wokenReceivers - {t});
      received := messagesWaiting > 0;
      if received {
        messagesWaiting := messagesWaiting - 1;
        if tasksWaitingToSend != [] { RemoveFirstSender(); }
      }
    }

    /** What prvCopyDataToQueue does to the count. */
    method CountPost(overwrite: bool)
      modifies this`messagesWaiting
      ensures View() == old(View()).(q := Posted(old(View()).q, overwrite))
    {
      if !(hasData && overwrite && messagesWaiting > 0) { messagesWaiting := messagesWaiting + 1; }
    }

    /** prvLockQueue */
    method LockQueue(ghost t: Task, ghost side: Side)
      requires Valid() && Enabled(View(), Lock(t, side))
      modifies this`txLock, this`rxLock, this`system
      ensures Valid() && View() == Step(old(View()), Lock(t, side))
    {
      StepKeeps(View(), Lock(t, side));
      if rxLock == UNLOCKED { rxLock := LOCKED_UNMODIFIED; }
      if txLock == UNLOCKED { txLock := LOCKED_UNMODIFIED; }
      system := system.(locker := Locker(t, side, Checking));
    }

    /** The first critical section of prvUnlockQueue. */
    method UnlockTxSide()
      requires Valid() && Enabled(View(), UnlockTx)
      modifies this`tasksWaitingToReceive, this`txLock, this`system
      ensures Valid() && View() == Step(old(View()), UnlockTx)
    {
      UnlockTxKeeps(View());
      var count := txLock;
      ghost var goal := WakeReceivers(View(), Max(txLock, 0));
      while count > LOCKED_UNMODIFIED && tasksWaitingToReceive != []
        invariant WakeReceivers(View(), Max(count, 0)) == goal
        invariant system.locker == old(system.locker) && system.tasks == old(system.tasks)
        decreases count
      {
        WakeOneMore(View(), count);
        RemoveFirstReceiver();
        count := count - 1;
      }
      txLock := UNLOCKED;
      system := system.(locker := system.locker.(phase := UnlockingRx));
    }

    /** The second critical section of prvUnlockQueue. */
    method UnlockRxSide()
      requires Valid() && Enabled(View(), UnlockRx)
      modifies this`tasksWaitingToSend, this`rxLock, this`system
      ensures Valid() && View() == Step(old(View()), UnlockRx)
    {
      UnlockRxKeeps(View());
      var count := rxLock;
      ghost var goal := WakeSenders(View(), Max(rxLock, 0));
      while count > LOCKED_UNMODIFIED && tasksWaitingToSend != []
        invariant WakeSenders(View(), Max(count, 0)) == goal
        invariant system.locker == old(system.locker) && system.tasks == old(system.tasks)
        decreases count
      {
        WakeOneMore(View(), count);
        RemoveFirstSender();
        count := count - 1;
      }
      rxLock := UNLOCKED;
      system := system.(locker := Nobody);
    }

    /** xQueueGenericSendFromISR and xQueueGiveFromISR, apart from the data. */
    method PostFromISR(overwrite: bool) returns (accepted: bool)
      requires Valid() && Enabled(View(), SendFromISR(overwrite))
      modifies this`messagesWaiting, this`txLock, this`tasksWaitingToReceive, this`system
      ensures Valid() && View() == Step(old(View()), SendFromISR(overwrite))
      ensures accepted <==> CanPost(old(View()).q, overwrite)
    {
      LockNeverOverflows(View());
      SendFromISRKeeps(View(), overwrite);
      accepted := messagesWaiting < length || overwrite;
      if accepted {
        CountPost(overwrite);
        if txLock == UNLOCKED {
          if tasksWaitingToReceive != [] { RemoveFirstReceiver(); }
        } else if txLock < numberOfTasks {
          assert txLock != INT8_MAX;
          txLock := txLock + 1;
        }
      }
    }

    /** xQueueReceiveFromISR, apart from the data. */
    method TakeFromISR() returns (taken: bool)
      requires Valid()
      modifies this`messagesWaiting, this`rxLock, this`tasksWaitingToSend, this`system
      ensures Valid() && View() == Step(old(View()), ReceiveFromISR)
      ensures taken <==> old(messagesWaiting) > 0
    {
      LockNeverOverflows(View());
      ReceiveFromISRKeeps(View());
      taken := messagesWaiting > 0;
      if taken {
        messagesWaiting := messagesWaiting - 1;
        if rxLock == UNLOCKED {
          if tasksWaitingToSend != [] { RemoveFirstSender(); }
        } else if rxLock < numberOfTasks {
          assert rxLock != INT8_MAX;
          rxLock := rxLock + 1;
        }
      }
    }
  }

  /** Waking n + 1 tasks is waking one and then n. */
  lemma WakeOneMore(s: System, n: nat)
    requires n > 0
    ensures WakeReceivers(s, n) == WakeReceivers(WakeReceivers(s, 1), n - 1)
    ensures WakeSenders(s, n) == WakeSenders(WakeSenders(s, 1), n - 1)
  {
  }
}
