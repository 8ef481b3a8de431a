/**
 * Mutexes (queue.c, tasks.c): who holds them, how often, and the priority a
 * holder inherits from the tasks that wait.  The steps of a take are those
 * between which other tasks may run.
 */
module Mutexes {
  import opened Basics
  import opened Ticks
  import opened Lists

  type Id = nat

  // ---------------------------------------------------------------------------
  // Tasks and mutexes
  // ---------------------------------------------------------------------------

  /** Where a task is in taking the mutex `m`; `inherited` is xInheritanceOccurred. */
  datatype Phase =
    | Idle
    | Trying(m: Id, inherited: bool)    // about to look at the count
    | Checked(m: Id, inherited: bool)   // the count was zero; about to suspend the scheduler
    | Waiting(m: Id, inherited: bool)   // on the mutex's list
    | Expired(m: Id, inherited: bool)   // its time is up; about to look at the count again
    | Failing(m: Id, inherited: bool)   // the count was zero still; about to return
    | Counting(m: Id)                   // has a recursive mutex; about to count the call

  /** uxPriority, uxBasePriority, uxMutexesHeld, and the value of xEventListItem */
  datatype Tcb = Tcb(prio: Priority, base: Priority, held: nat, item: Tick, phase: Phase)

  /** uxMessagesWaiting, xMutexHolder, uxRecursiveCallCount, xTasksWaitingToReceive */
  datatype Mutex = Mutex(recursive: bool, count: nat, holder: Option<Task>, calls: nat, waiters: seq<Entry<Task>>)

  datatype System = System(tasks: map<Task, Tcb>, mutexes: map<Id, Mutex>)

  /** prvGetHighestPriorityOfWaitToReceiveList */
  function HighestWaiting(ws: seq<Entry<Task>>): Priority {
    if ws != [] && ws[0].key <= MAX_PRIORITIES && ws[0].key > 0 then MAX_PRIORITIES - ws[0].key else 0
  }

  /** xTaskPriorityInherit: what it does to the holder. */
  function Inherited(t: Tcb, p: Priority): Tcb {
    if t.prio < p then t.(prio := p, item := ItemValue(p)) else t
  }

  /** xTaskPriorityDisinherit: an inherited priority lasts until the last mutex is given. */
  function Disinherited(t: Tcb): Tcb
    requires t.held > 0
  {
    var g := t.(held := t.held - 1);
    if t.held == 1 && t.prio != t.base then g.(prio := t.base, item := ItemValue(t.base)) else g
  }

  /** vTaskPriorityDisinheritAfterTimeout */
  function AfterTimeout(t: Tcb, waiting: Priority): Tcb {
    var p := Max(t.base, waiting);
    if t.prio != p && t.held == 1 then t.(prio := p, item := ItemValue(p)) else t
  }

  /** vTaskPrioritySet; the item value follows the new base priority even while a higher one is inherited. */
  function Reset(t: Tcb, p: Priority): Tcb {
    if p == t.base then t
    else t.(prio := if t.base == t.prio || p > t.prio then p else t.prio, base := p, item := ItemValue(p))
  }

  // ---------------------------------------------------------------------------
  // Steps
  // ---------------------------------------------------------------------------

  datatype Event =
    | Take(task: Task, m: Id)             // xQueueSemaphoreTake, or a recursive take by a task that does not hold it
    | Look(task: Task)                    // one pass of the first critical section
    | GiveUp(task: Task)                  // no block time is left there
    | BlockOrRetry(task: Task)            // not timed out: block if the count is still zero
    | TimeUp(task: Task)                  // timed out
    | TimeOut(task: Task)                 // the kernel takes the task off the list
    | LookAgain(task: Task)
    | Fail(task: Task)
    | Count(task: Task)
    | TakeAgain(task: Task, m: Id)        // a recursive take by the holder
    | Give(task: Task, m: Id)
    | GiveRecursive(task: Task, m: Id)
    | SetPriority(task: Task, p: Priority)

  predicate Is(s: System, t: Task, m: Id) { t in s.tasks && m in s.mutexes }

  function PhaseOf(s: System, t: Task): Phase { if t in s.tasks then s.tasks[t].phase else Idle }

  predicate Holds(s: System, t: Task, m: Id) { m in s.mutexes && s.mutexes[m].holder == Some(t) }

  /** A task that fails to take a mutex it holds itself must not lose an inherited priority by that (asserted). */
  predicate KeepsPriority(s: System, t: Task)
    requires t in s.tasks && !s.tasks[t].phase.Idle? && s.tasks[t].phase.m in s.mutexes
  {
    s.tasks[t].phase.Failing? && s.tasks[t].phase.inherited ==>
      AfterTimeout(s.tasks[t], HighestWaiting(s.mutexes[s.tasks[t].phase.m].waiters)) == s.tasks[t]
  }

  /** What the source asserts, and that only holders give. */
  predicate Enabled(s: System, e: Event) {
    match e
    case Take(t, m) => Is(s, t, m) && s.tasks[t].phase.Idle? && (s.mutexes[m].recursive ==> !Holds(s, t, m))
    case Look(t) => PhaseOf(s, t).Trying?
    case GiveUp(t) =>
        PhaseOf(s, t).Trying? && s.tasks[t].phase.m in s.mutexes && s.mutexes[s.tasks[t].phase.m].count == 0
    case BlockOrRetry(t) => PhaseOf(s, t).Checked?
    case TimeUp(t) => PhaseOf(s, t).Checked?
    case TimeOut(t) => PhaseOf(s, t).Waiting?
    case LookAgain(t) => PhaseOf(s, t).Expired?
    case Fail(t) =>
        PhaseOf(s, t).Failing?
        && (s.tasks[t].phase.m in s.mutexes && Holds(s, t, s.tasks[t].phase.m) ==> KeepsPriority(s, t))
    case Count(t) => PhaseOf(s, t).Counting?
    case TakeAgain(t, m) =>
        Is(s, t, m) && s.tasks[t].phase.Idle? && s.mutexes[m].recursive && Holds(s, t, m)
        && s.mutexes[m].calls + 1 < WORD
    case Give(t, m) =>
        Is(s, t, m) && s.tasks[t].phase.Idle? && !s.mutexes[m].recursive
        && (s.mutexes[m].count == 0 ==> Holds(s, t, m))
    case GiveRecursive(t, m) => Is(s, t, m) && s.tasks[t].phase.Idle? && s.mutexes[m].recursive
    case SetPriority(t, p) => t in s.tasks
  }

  function Goes(s: System, t: Task, p: Phase): System
    requires t in s.tasks
  {
    s.(tasks := s.tasks[t := s.tasks[t].(phase := p)])
  }

  /** A successful take. */
  function Taken(s: System, t: Task, m: Id): System
    requires Is(s, t, m) && s.mutexes[m].count > 0
  {
    var x := s.mutexes[m];
    s.(mutexes := s.mutexes[m := x.(count := x.count - 1, holder := Some(t))],
       tasks := s.tasks[t := s.tasks[t]
           .(held := s.tasks[t].held + 1, phase := if x.recursive then Counting(m) else Idle)])
  }

  /** vTaskPlaceOnEventList: the task goes on the list, behind those of its priority. */
  function Listed(s: System, t: Task, m: Id, inherited: bool): System
    requires Is(s, t, m)
  {
    var x := s.mutexes[m];
    Goes(s, t, Waiting(m, inherited))
        .(mutexes := s.mutexes[m := x.(waiters := InsertOrdered(x.waiters, Entry(s.tasks[t].item, t)))])
  }

  /** A change of priority rewrites the task's event item and does not sort the list again. */
  function Revalued(ws: seq<Entry<Task>>, t: Task, value: Tick): (r: seq<Entry<Task>>)
    ensures |r| == |ws|
    ensures forall i :: 0 <= i < |ws| ==> r[i].owner == ws[i].owner
  {
    seq(|ws|, i requires 0 <= i < |ws| => if ws[i].owner == t then Entry(value, t) else ws[i])
  }

  /** A task's priorities and item value change, wherever the item is. */
  function Repriced(s: System, t: Task, x: Tcb): (r: System)
    requires t in s.tasks
    ensures r.mutexes.Keys == s.mutexes.Keys && r.tasks == s.tasks[t := x]
  {
    System(s.tasks[t := x], map m | m in s.mutexes :: s.mutexes[m]
        .(waiters := Revalued(s.mutexes[m].waiters, t, x.item)))
  }

  /** The holder inherits and the task goes on the list. */
  function Blocked(s: System, t: Task, m: Id): System
    requires Is(s, t, m) && s.mutexes[m].holder.Some? && s.mutexes[m].holder.value in s.tasks
  {
    var h := s.mutexes[m].holder.value;
    Listed(Repriced(s, h, Inherited(s.tasks[h], s.tasks[t].prio)), t, m, s.tasks[h].base < s.tasks[t].prio)
  }

  /** The place of a task on a list. */
  function Place(ws: seq<Entry<Task>>, t: Task): (i: nat)
    requires exists i :: 0 <= i < |ws| && ws[i].owner == t
    ensures i < |ws| && ws[i].owner == t
  {
    if ws[|ws| - 1].owner == t then |ws| - 1 else Place(ws[..|ws| - 1], t)
  }

  predicate On(ws: seq<Entry<Task>>, t: Task) {
    exists i :: 0 <= i < |ws| && ws[i].owner == t
  }

  /** Off the list, to try again. */
  function Off(s: System, m: Id, i: nat): System
    requires m in s.mutexes && i < |s.mutexes[m].waiters|
    requires var t := s.mutexes[m].waiters[i].owner; t in s.tasks && s.tasks[t].phase.Waiting?
  {
    var x := s.mutexes[m];
    var t := x.waiters[i].owner;
    Goes(s, t, Trying(m, s.tasks[t].phase.inherited))
        .(mutexes := s.mutexes[m := x.(waiters := x.waiters[..i] + x.waiters[i + 1..])])
  }

  /** The holder gives: it disinherits, the count goes up and the first waiter is woken. */
  function Given(s: System, t: Task, m: Id): System
    requires Inv(s) && Is(s, t, m) && Holds(s, t, m)
  {
    HeldPositive(s, t, m);
    var x := s.mutexes[m];
    var r := s.(mutexes := s.mutexes[m := x.(count := x.count + 1, holder := None, calls := 0)],
                tasks := s.tasks[t := Disinherited(s.tasks[t])]);
    if x.waiters == [] then r else (FirstWaits(s, t, m); Off(r, m, 0))
  }

  function Step(s: System, e: Event): System
    requires Inv(s) && Enabled(s, e)
  {
    match e
    case Take(t, m) => Goes(s, t, Trying(m, false))
    case Look(t) =>
      var p := s.tasks[t].phase;
      if s.mutexes[p.m].count > 0 then Taken(s, t, p.m) else Goes(s, t, Checked(p.m, p.inherited))
    case GiveUp(t) => Goes(s, t, Idle)
    case BlockOrRetry(t) =>
      var p := s.tasks[t].phase;
      if s.mutexes[p.m].count == 0 then Blocked(s, t, p.m) else Goes(s, t, Trying(p.m, p.inherited))
    case TimeUp(t) => Goes(s, t, Expired(s.tasks[t].phase.m, s.tasks[t].phase.inherited))
    case TimeOut(t) => Off(s, s.tasks[t].phase.m, Place(s.mutexes[s.tasks[t].phase.m].waiters, t))
    case LookAgain(t) =>
      var p := s.tasks[t].phase;
      Goes(s, t, if s.mutexes[p.m].count == 0 then Failing(p.m, p.inherited) else Trying(p.m, p.inherited))
    case Fail(t) =>
      var p := s.tasks[t].phase;
      var x := s.mutexes[p.m];
      var r := Goes(s, t, Idle);
      if p.inherited && x.holder.Some? then
        Repriced(r, x.holder.value, AfterTimeout(r.tasks[x.holder.value], HighestWaiting(x.waiters)))
      else r
    case Count(t) =>
      var m := s.tasks[t].phase.m;
      Goes(s, t, Idle).(mutexes := s.mutexes[m := s.mutexes[m].(calls := s.mutexes[m].calls + 1)])
    case TakeAgain(t, m) => s.(mutexes := s.mutexes[m := s.mutexes[m].(calls := s.mutexes[m].calls + 1)])
    case Give(t, m) => if s.mutexes[m].count > 0 then s else Given(s, t, m)
    case GiveRecursive(t, m) =>
      if !Holds(s, t, m) then s
      else if s.mutexes[m].calls > 1 then s.(mutexes := s.mutexes[m := s.mutexes[m].(calls := s.mutexes[m].calls - 1)])
      else Given(s, t, m)
    case SetPriority(t, p) => Repriced(s, t, Reset(s.tasks[t], p))
  }

  // ---------------------------------------------------------------------------
  // Accounting
  // ---------------------------------------------------------------------------

  /** The mutexes that name the task as their holder. */
  function HeldBy(mutexes: map<Id, Mutex>, t: Task): set<Id> {
    set m | m in mutexes && mutexes[m].holder == Some(t)
  }

  /** A mutex's count is one exactly when nobody holds it; a recursive one has open calls exactly while it is held. */
  predicate MutexOk(s: System, m: Id)
    requires m in s.mutexes
  {
    var x := s.mutexes[m];
    && x.count <= 1 && (x.count == 1 <==> x.holder.None?)
    && (x.holder.Some? ==> x.holder.value in s.tasks)
    && (x.calls > 0 ==> x.recursive && x.holder.Some?)
    && (x.recursive && x.holder.Some? && x.calls == 0 ==> s.tasks[x.holder.value].phase == Counting(m))
  }

  /** A task's count is the number of mutexes naming it; its priority is above its base only while it holds one. */
  predicate TaskOk(s: System, t: Task)
    requires t in s.tasks
  {
    var x := s.tasks[t];
    && x.held == |HeldBy(s.mutexes, t)|
    && x.base <= x.prio && (x.prio != x.base ==> x.held > 0)
    && (!x.phase.Idle? ==> x.phase.m in s.mutexes)
    && (x.phase.Counting? ==>
          s.mutexes[x.phase.m].holder == Some(t) && s.mutexes[x.phase.m].calls == 0 && s.mutexes[x.phase.m].recursive)
    && (x.phase.Waiting? ==> On(s.mutexes[x.phase.m].waiters, t))
    && (!x.phase.Idle? && !x.phase.Counting? && s.mutexes[x.phase.m].recursive
        ==> s.mutexes[x.phase.m].holder != Some(t))
  }

  /** No task is on the list twice. */
  predicate Once(ws: seq<Entry<Task>>) {
    forall i, j :: 0 <= i < j < |ws| ==> ws[i].owner != ws[j].owner
  }

  predicate ListOk(s: System, m: Id)
    requires m in s.mutexes
  {
    var ws := s.mutexes[m].waiters;
    && (forall i :: 0 <= i < |ws| ==>
          && ws[i].owner in s.tasks && s.tasks[ws[i].owner].phase.Waiting? && s.tasks[ws[i].owner].phase.m == m
          && ws[i].key == s.tasks[ws[i].owner].item)
    && Once(ws)
  }

  ghost predicate Inv(s: System) {
    && (forall m :: m in s.mutexes ==> MutexOk(s, m) && ListOk(s, m))
    && (forall t :: t in s.tasks ==> TaskOk(s, t))
  }

  lemma HeldPositive(s: System, t: Task, m: Id)
    requires t in s.tasks && TaskOk(s, t) && Holds(s, t, m)
    ensures s.tasks[t].held > 0
  {
    assert m in HeldBy(s.mutexes, t);
  }

  lemma FirstWaits(s: System, t: Task, m: Id)
    requires Inv(s) && Is(s, t, m) && s.mutexes[m].waiters != []
    ensures var w := s.mutexes[m].waiters[0].owner; w in s.tasks && s.tasks[w].phase.Waiting?
  {
  }

  // ---------------------------------------------------------------------------
  // Every step keeps the accounts
  // ---------------------------------------------------------------------------

  predicate SameHolders(a: map<Id, Mutex>, b: map<Id, Mutex>) {
    a.Keys == b.Keys && forall m :: m in a ==> a[m].holder == b[m].holder
  }

  lemma HeldSame(a: map<Id, Mutex>, b: map<Id, Mutex>, t: Task)
    requires SameHolders(a, b)
    ensures HeldBy(a, t) == HeldBy(b, t)
  {
  }

  /** A mutex that changes hands moves from one task's count to another's. */
  lemma HeldChanges(a: map<Id, Mutex>, m: Id, x: Mutex, t: Task)
    requires m in a
    ensures |HeldBy(a[m := x], t)| == |HeldBy(a, t)|
                                      - (if a[m].holder == Some(t) then 1 else 0)
                                          + (if x.holder == Some(t) then 1 else 0)
  {
    var rest := HeldBy(a, t) - {m};
    assert m in HeldBy(a, t) <==> a[m].holder == Some(t);
    assert m in HeldBy(a[m := x], t) <==> x.holder == Some(t);
    assert HeldBy(a, t) == if a[m].holder == Some(t) then rest + {m} else rest;
    assert HeldBy(a[m := x], t) == if x.holder == Some(t) then rest + {m} else rest;
  }

  /** A task may go into a phase outside the lists if that phase names a mutex it may wait for. */
  predicate MayGo(s: System, t: Task, p: Phase) {
    && !p.Waiting? && !p.Counting?
    && (!p.Idle? ==> p.m in s.mutexes && (s.mutexes[p.m].recursive ==> s.mutexes[p.m].holder != Some(t)))
  }

  lemma GoesInv(s: System, t: Task, p: Phase)
    requires Inv(s) && t in s.tasks && !s.tasks[t].phase.Waiting? && !s.tasks[t].phase.Counting? && MayGo(s, t, p)
    ensures Inv(Goes(s, t, p))
  {
    hide HeldBy, On;
    var r := Goes(s, t, p);
    forall m | m in r.mutexes ensures MutexOk(r, m) && ListOk(r, m) {
      assert MutexOk(s, m) && ListOk(s, m);
    }
    forall u | u in r.tasks ensures TaskOk(r, u) {
      assert TaskOk(s, u);
    }
  }

  lemma TakenInv(s: System, t: Task, m: Id)
    requires Inv(s) && Is(s, t, m) && s.mutexes[m].count > 0 && s.tasks[t].phase.Trying?
    ensures Inv(Taken(s, t, m))
  {
    hide HeldBy, On;
    var r := Taken(s, t, m);
    assert MutexOk(s, m);
    forall k | k in r.mutexes ensures MutexOk(r, k) && ListOk(r, k) {
      assert MutexOk(s, k) && ListOk(s, k);
    }
    forall u | u in r.tasks ensures TaskOk(r, u) {
      assert TaskOk(s, u);
      HeldChanges(s.mutexes, m, r.mutexes[m], u);
    }
  }

  /** Insertion into a list: the task is on it, the others still are, and nobody else. */
  lemma Inserted(ws: seq<Entry<Task>>, e: Entry<Task>)
    ensures var r := InsertOrdered(ws, e);
            && |r| == |ws| + 1
            && On(r, e.owner)
            && (forall u :: On(ws, u) ==> On(r, u))
            && (forall i :: 0 <= i < |r| ==> r[i] == e || r[i] in ws)
  {
    InsertOrderedSplits(ws, e);
    var r, n := InsertOrdered(ws, e), Rank(ws, e.key);
    hide InsertOrdered, Rank;
    assert r[n] == e;
    forall u | On(ws, u) ensures On(r, u) {
      var i :| 0 <= i < |ws| && ws[i].owner == u;
      assert r[if i < n then i else i + 1] == ws[i];
    }
  }

  lemma InsertedOnce(ws: seq<Entry<Task>>, e: Entry<Task>)
    requires Once(ws) && !On(ws, e.owner)
    ensures Once(InsertOrdered(ws, e))
  {
    InsertOrderedSplits(ws, e);
    var r, n := InsertOrdered(ws, e), Rank(ws, e.key);
    hide InsertOrdered, Rank;
    assert forall i :: 0 <= i < |r| ==> r[i] == if i < n then ws[i] else if i == n then e else ws[i - 1];
  }

  lemma ListedListOk(s: System, t: Task, m: Id, inherited: bool, k: Id)
    requires Inv(s) && Is(s, t, m) && s.tasks[t].phase.Checked? && k in s.mutexes
    ensures MutexOk(Listed(s, t, m, inherited), k) && ListOk(Listed(s, t, m, inherited), k)
  {
    hide HeldBy, On, ItemValue, TaskOk;
    var e := Entry(s.tasks[t].item, t);
    assert MutexOk(s, k) && ListOk(s, k) && ListOk(s, m);
    NotOn(s, t, m);
    Inserted(s.mutexes[m].waiters, e);
    InsertedOnce(s.mutexes[m].waiters, e);
  }

  lemma ListedInv(s: System, t: Task, m: Id, inherited: bool)
    requires Inv(s) && Is(s, t, m) && s.tasks[t].phase.Checked?
    requires s.mutexes[m].recursive ==> s.mutexes[m].holder != Some(t)
    ensures Inv(Listed(s, t, m, inherited))
  {
    hide HeldBy, On, ItemValue, MutexOk, ListOk;
    var r := Listed(s, t, m, inherited);
    forall k | k in r.mutexes ensures MutexOk(r, k) && ListOk(r, k) { ListedListOk(s, t, m, inherited, k); }
    Inserted(s.mutexes[m].waiters, Entry(s.tasks[t].item, t));
    forall u | u in r.tasks ensures TaskOk(r, u) {
      assert TaskOk(s, u);
      HeldSame(s.mutexes, r.mutexes, u);
    }
  }

  lemma BlockedInv(s: System, t: Task, m: Id)
    requires Inv(s) && Is(s, t, m) && s.mutexes[m].count == 0
    requires s.tasks[t].phase.Checked? && s.tasks[t].phase.m == m
    ensures s.mutexes[m].holder.Some? && s.mutexes[m].holder.value in s.tasks && Inv(Blocked(s, t, m))
  {
    assert MutexOk(s, m) && TaskOk(s, t);
    var h := s.mutexes[m].holder.value;
    assert TaskOk(s, h);
    HeldPositive(s, h, m);
    RepricedInv(s, h, Inherited(s.tasks[h], s.tasks[t].prio));
    hide Inv;
    ListedInv(Repriced(s, h, Inherited(s.tasks[h], s.tasks[t].prio)), t, m, s.tasks[h].base < s.tasks[t].prio);
  }

  lemma NotOn(s: System, t: Task, m: Id)
    requires m in s.mutexes && ListOk(s, m) && t in s.tasks && !s.tasks[t].phase.Waiting?
    ensures !On(s.mutexes[m].waiters, t)
  {
  }

  lemma OffListOk(s: System, m: Id, i: nat, k: Id)
    requires m in s.mutexes && ListOk(s, m) && i < |s.mutexes[m].waiters|
    requires k in s.mutexes && MutexOk(s, k) && ListOk(s, k)
    ensures MutexOk(Off(s, m, i), k) && ListOk(Off(s, m, i), k)
  {
  }

  lemma ListedWaits(s: System, m: Id, i: nat)
    requires m in s.mutexes && ListOk(s, m) && i < |s.mutexes[m].waiters|
    ensures var t := s.mutexes[m].waiters[i].owner; t in s.tasks && s.tasks[t].phase.Waiting? && s.tasks[t].phase.m == m
  {
  }

  lemma OffInv(s: System, m: Id, i: nat)
    requires Inv(s) && m in s.mutexes && i < |s.mutexes[m].waiters|
    ensures var t := s.mutexes[m].waiters[i].owner; t in s.tasks && s.tasks[t].phase.Waiting? && Inv(Off(s, m, i))
  {
    hide HeldBy, On, MutexOk, ListOk;
    ListedWaits(s, m, i);
    var ws := s.mutexes[m].waiters;
    var t, r := ws[i].owner, Off(s, m, i);
    forall k | k in r.mutexes ensures MutexOk(r, k) && ListOk(r, k) { OffListOk(s, m, i, k); }
    forall u | u in r.tasks ensures TaskOk(r, u) {
      assert TaskOk(s, u);
      HeldSame(s.mutexes, r.mutexes, u);
      if u != t && On(ws, u) { OthersStay(ws, i, u); }
    }
  }

  lemma OthersStay(ws: seq<Entry<Task>>, i: nat, u: Task)
    requires i < |ws| && On(ws, u) && ws[i].owner != u
    ensures On(ws[..i] + ws[i + 1..], u)
  {
    var j :| 0 <= j < |ws| && ws[j].owner == u;
    assert (ws[..i] + ws[i + 1..])[if j < i then j else j - 1] == ws[j];
  }

  /** The give itself, before anybody is woken. */
  function Released(s: System, t: Task, m: Id): System
    requires Is(s, t, m) && s.tasks[t].held > 0
  {
    var x := s.mutexes[m];
    s.(mutexes := s.mutexes[m := x.(count := x.count + 1, holder := None, calls := 0)],
       tasks := s.tasks[t := Disinherited(s.tasks[t])])
  }

  lemma ReleasedInv(s: System, t: Task, m: Id)
    requires Inv(s) && Is(s, t, m) && Holds(s, t, m) && s.tasks[t].phase.Idle?
    ensures s.tasks[t].held > 0 && Inv(Released(s, t, m))
  {
    hide HeldBy, On;
    assert MutexOk(s, m) && TaskOk(s, t);
    HeldPositive(s, t, m);
    var r := Released(s, t, m);
    forall k | k in r.mutexes ensures MutexOk(r, k) && ListOk(r, k) {
      assert MutexOk(s, k) && ListOk(s, k);
    }
    forall u | u in r.tasks ensures TaskOk(r, u) {
      assert TaskOk(s, u);
      HeldChanges(s.mutexes, m, r.mutexes[m], u);
    }
  }

  lemma GivenInv(s: System, t: Task, m: Id)
    requires Inv(s) && Is(s, t, m) && Holds(s, t, m) && s.tasks[t].phase.Idle?
    ensures Inv(Given(s, t, m))
  {
    ReleasedInv(s, t, m);
    var r := Released(s, t, m);
    hide Inv;
    if r.mutexes[m].waiters != [] { OffInv(r, m, 0); }
  }

  lemma StillOn(ws: seq<Entry<Task>>, h: Task, value: Tick, u: Task)
    requires On(ws, u)
    ensures On(Revalued(ws, h, value), u)
  {
    var i :| 0 <= i < |ws| && ws[i].owner == u;
    assert Revalued(ws, h, value)[i].owner == u;
  }

  lemma RepricedListOk(s: System, h: Task, x: Tcb, m: Id)
    requires h in s.tasks && x.phase == s.tasks[h].phase && m in s.mutexes && MutexOk(s, m) && ListOk(s, m)
    ensures MutexOk(Repriced(s, h, x), m) && ListOk(Repriced(s, h, x), m)
  {
  }

  /** A change of one task's priorities: never below its base, and equal to it unless the task holds a mutex. */
  lemma RepricedInv(s: System, h: Task, x: Tcb)
    requires Inv(s) && h in s.tasks && x.held == s.tasks[h].held && x.phase == s.tasks[h].phase
    requires x.base <= x.prio && (x.prio != x.base ==> x.held > 0)
    ensures Inv(Repriced(s, h, x))
  {
    hide HeldBy, ItemValue;
    var r := Repriced(s, h, x);
    forall m | m in r.mutexes ensures MutexOk(r, m) && ListOk(r, m) {
      hide TaskOk;
      RepricedListOk(s, h, x, m);
    }
    hide MutexOk, ListOk;
    forall u | u in r.tasks ensures TaskOk(r, u) {
      assert TaskOk(s, u);
      HeldSame(s.mutexes, r.mutexes, u);
      if s.tasks[u].phase.Waiting? { StillOn(s.mutexes[s.tasks[u].phase.m].waiters, h, x.item, u); }
      hide On, Inv;
    }
  }

  lemma FailInv(s: System, t: Task)
    requires Inv(s) && Enabled(s, Fail(t))
    ensures Inv(Step(s, Fail(t)))
  {
    assert TaskOk(s, t);
    var p := s.tasks[t].phase;
    var x, r := s.mutexes[p.m], Goes(s, t, Idle);
    assert MutexOk(s, p.m);
    GoesInv(s, t, Idle);
    if p.inherited && x.holder.Some? {
      var h := x.holder.value;
      hide HighestWaiting;
      RepricedInv(r, h, AfterTimeout(r.tasks[h], HighestWaiting(x.waiters)));
    }
  }

  /** The number of open calls of a recursive mutex changes and nothing else. */
  lemma CallsInv(s: System, m: Id, calls: nat)
    requires Inv(s) && m in s.mutexes && s.mutexes[m].recursive && s.mutexes[m].holder.Some?
    requires s.mutexes[m].calls > 0 && calls > 0
    ensures Inv(s.(mutexes := s.mutexes[m := s.mutexes[m].(calls := calls)]))
  {
    hide HeldBy, On;
    var r := s.(mutexes := s.mutexes[m := s.mutexes[m].(calls := calls)]);
    forall k | k in r.mutexes ensures MutexOk(r, k) && ListOk(r, k) {
      assert MutexOk(s, k) && ListOk(s, k);
    }
    forall u | u in r.tasks ensures TaskOk(r, u) {
      assert TaskOk(s, u);
      HeldSame(s.mutexes, r.mutexes, u);
    }
  }

  lemma CountInv(s: System, t: Task)
    requires Inv(s) && Enabled(s, Count(t))
    ensures Inv(Step(s, Count(t)))
  {
    hide HeldBy, On;
    assert TaskOk(s, t);
    var r, m := Step(s, Count(t)), s.tasks[t].phase.m;
    assert MutexOk(s, m);
    forall k | k in r.mutexes ensures MutexOk(r, k) && ListOk(r, k) {
      assert MutexOk(s, k) && ListOk(s, k);
    }
    forall u | u in r.tasks ensures TaskOk(r, u) {
      assert TaskOk(s, u);
      HeldSame(s.mutexes, r.mutexes, u);
    }
  }

  lemma SetPriorityInv(s: System, t: Task, p: Priority)
    requires Inv(s) && t in s.tasks
    ensures Inv(Step(s, SetPriority(t, p)))
  {
    assert TaskOk(s, t);
    RepricedInv(s, t, Reset(s.tasks[t], p));
  }

  /** A task in the middle of a take names a mutex that exists, and one it may wait for. */
  lemma MidTake(s: System, t: Task)
    requires Inv(s) && t in s.tasks && !s.tasks[t].phase.Idle?
    ensures s.tasks[t].phase.m in s.mutexes && TaskOk(s, t) && MutexOk(s, s.tasks[t].phase.m)
            && ListOk(s, s.tasks[t].phase.m)
  {
  }

  lemma StepInv(s: System, e: Event)
    requires Inv(s) && Enabled(s, e)
    ensures Inv(Step(s, e))
  {
    match e
    case Take(t, m) => GoesInv(s, t, Trying(m, false));
    case Look(t) =>
      MidTake(s, t);
      hide Inv;
      var p := s.tasks[t].phase;
      if s.mutexes[p.m].count > 0 { TakenInv(s, t, p.m); } else { GoesInv(s, t, Checked(p.m, p.inherited)); }
    case GiveUp(t) => GoesInv(s, t, Idle);
    case BlockOrRetry(t) =>
      MidTake(s, t);
      hide Inv;
      var p := s.tasks[t].phase;
      if s.mutexes[p.m].count == 0 { BlockedInv(s, t, p.m); } else { GoesInv(s, t, Trying(p.m, p.inherited)); }
    case TimeUp(t) =>
      MidTake(s, t);
      hide Inv;
      GoesInv(s, t, Expired(s.tasks[t].phase.m, s.tasks[t].phase.inherited));
    case TimeOut(t) =>
      MidTake(s, t);
      hide Inv;
      OffInv(s, s.tasks[t].phase.m, Place(s.mutexes[s.tasks[t].phase.m].waiters, t));
    case LookAgain(t) =>
      MidTake(s, t);
      hide Inv;
      var p := s.tasks[t].phase;
      GoesInv(s, t, if s.mutexes[p.m].count == 0 then Failing(p.m, p.inherited) else Trying(p.m, p.inherited));
    case Fail(t) => FailInv(s, t);
    case Count(t) => CountInv(s, t);
    case TakeAgain(t, m) => AgainInv(s, t, m);
    case Give(t, m) => GiveInv(s, t, m);
    case GiveRecursive(t, m) => GiveRecursiveInv(s, t, m);
    case SetPriority(t, p) => SetPriorityInv(s, t, p);
  }

  lemma AgainInv(s: System, t: Task, m: Id)
    requires Inv(s) && Enabled(s, TakeAgain(t, m))
    ensures Inv(Step(s, TakeAgain(t, m))) && s.mutexes[m].calls > 0
  {
    hide HeldBy, On, ListOk;
    assert MutexOk(s, m);
    CallsInv(s, m, s.mutexes[m].calls + 1);
  }

  lemma GiveInv(s: System, t: Task, m: Id)
    requires Inv(s) && Enabled(s, Give(t, m))
    ensures Inv(Step(s, Give(t, m)))
  {
    assert MutexOk(s, m);
    if s.mutexes[m].count == 0 { GivenInv(s, t, m); }
  }

  lemma GiveRecursiveInv(s: System, t: Task, m: Id)
    requires Inv(s) && Enabled(s, GiveRecursive(t, m))
    ensures Inv(Step(s, GiveRecursive(t, m))) && (Holds(s, t, m) ==> s.mutexes[m].calls > 0)
  {
    assert MutexOk(s, m);
    if Holds(s, t, m) {
      if s.mutexes[m].calls > 1 { CallsInv(s, m, s.mutexes[m].calls - 1); } else { GivenInv(s, t, m); }
    }
  }

  // ---------------------------------------------------------------------------
  // Every run
  // ---------------------------------------------------------------------------

  /** After creation a mutex is available, whether it is recursive or not. */
  function Created(tasks: map<Task, Priority>, mutexes: map<Id, bool>): (s: System)
    ensures Inv(s)
  {
    var s := System(map t | t in tasks :: Tcb(tasks[t], tasks[t], 0, ItemValue(tasks[t]), Idle),
                    map m | m in mutexes :: Mutex(mutexes[m], 1, None, 0, []));
    assert forall t :: HeldBy(s.mutexes, t) == {};
    s
  }

  ghost predicate RunEnabled(s: System, es: seq<Event>)
    requires Inv(s)
    decreases |es|
  {
    es == [] || (Enabled(s, es[0]) && (StepInv(s, es[0]); RunEnabled(Step(s, es[0]), es[1..])))
  }

  ghost function Run(s: System, es: seq<Event>): (r: System)
    requires Inv(s) && RunEnabled(s, es)
    ensures Inv(r)
    decreases |es|
  {
    if es == [] then s else (StepInv(s, es[0]); Run(Step(s, es[0]), es[1..]))
  }

  /**
   * The accounts balance in every reachable state: a mutex can be taken exactly
   * when nobody holds it, a task's count is the number of mutexes it holds, and
   * a task is above its base priority only while it holds one.
   */
  lemma Accounted(tasks: map<Task, Priority>, mutexes: map<Id, bool>, es: seq<Event>)
    requires RunEnabled(Created(tasks, mutexes), es)
    ensures var s := Run(Created(tasks, mutexes), es);
            && (forall m :: m in s.mutexes ==>
                  s.mutexes[m].count <= 1 && (s.mutexes[m].count == 1 <==> s.mutexes[m].holder.None?))
            && (forall t :: t in s.tasks ==> s.tasks[t].held == |HeldBy(s.mutexes, t)|)
            && (forall t :: t in s.tasks ==>
                  s.tasks[t].base <= s.tasks[t].prio && (s.tasks[t].prio != s.tasks[t].base ==> s.tasks[t].held > 0))
  {
    hide HeldBy, On;
    var s := Run(Created(tasks, mutexes), es);
    forall m | m in s.mutexes ensures MutexOk(s, m) {
    }
    forall t | t in s.tasks ensures TaskOk(s, t) {
    }
  }

  // ---------------------------------------------------------------------------
  // Recursive takes and gives
  // ---------------------------------------------------------------------------

  function Change(e: Event, t: Task, m: Id): int {
    if e == TakeAgain(t, m) then 1 else if e == GiveRecursive(t, m) then -1 else 0
  }

  function Balance(es: seq<Event>, t: Task, m: Id): int
    decreases |es|
  {
    if es == [] then 0 else Change(es[0], t, m) + Balance(es[1..], t, m)
  }

  /** Before its last event, the events leave calls open. */
  predicate StaysOpen(calls: int, es: seq<Event>, t: Task, m: Id)
    decreases |es|
  {
    |es| <= 1 || (calls + Change(es[0], t, m) > 0 && StaysOpen(calls + Change(es[0], t, m), es[1..], t, m))
  }

  /** The mutex is held by the task with that many open calls. */
  predicate OpenBy(s: System, t: Task, m: Id, calls: int) {
    m in s.mutexes && s.mutexes[m].recursive && s.mutexes[m].holder == Some(t) && s.mutexes[m].calls == calls > 0
  }

  predicate Available(s: System, m: Id) {
    m in s.mutexes && s.mutexes[m].holder.None? && s.mutexes[m].count == 1 && s.mutexes[m].calls == 0
  }

  /** What a give of the mutex `k` does to the mutex `m`. */
  lemma OpenGiven(s: System, t: Task, k: Id, m: Id)
    requires Inv(s) && Is(s, t, k) && Holds(s, t, k) && m in s.mutexes
    ensures var r := Given(s, t, k);
            if k == m then m in r.mutexes && r.mutexes[m].holder == None
                && r.mutexes[m].count == s.mutexes[m].count + 1 && r.mutexes[m].calls == 0
            else m in r.mutexes && r.mutexes[m] == s.mutexes[m]
  {
    HeldPositive(s, t, k);
    if s.mutexes[k].waiters != [] { FirstWaits(s, t, k); }
    hide Inv;
  }

  lemma OpenFacts(s: System, t: Task, m: Id, calls: int)
    requires Inv(s) && OpenBy(s, t, m, calls)
    ensures s.mutexes[m].count == 0
  {
    assert MutexOk(s, m);
  }

  /** The steps of another mutex's take, or of another task's, leave it open. */
  lemma OpenMid(s: System, e: Event, t: Task, m: Id, calls: int)
    requires Inv(s) && Enabled(s, e) && OpenBy(s, t, m, calls)
    requires e.Look? || e.BlockOrRetry? || e.TimeOut? || e.Fail? || e.SetPriority?
    ensures OpenBy(Step(s, e), t, m, calls)
  {
    hide HeldBy, On, HighestWaiting, InsertOrdered, ItemValue, Inv, ListOk, TaskOk, MutexOk, Inherited, AfterTimeout;
    OpenFacts(s, t, m, calls);
    match e
    case Look(u) => MidTake(s, u);
    case BlockOrRetry(u) => MidTake(s, u);
    case TimeOut(u) => MidTake(s, u);
    case Fail(u) => MidTake(s, u);
    case SetPriority(_, _) =>
  }

  lemma OpenCount(s: System, u: Task, t: Task, m: Id, calls: int)
    requires Inv(s) && Enabled(s, Count(u)) && OpenBy(s, t, m, calls)
    ensures OpenBy(Step(s, Count(u)), t, m, calls)
  {
    hide HeldBy, On, ListOk;
    MidTake(s, u);
    hide Inv;
  }

  lemma OpenGive(s: System, e: Event, t: Task, m: Id, calls: int)
    requires Inv(s) && Enabled(s, e) && OpenBy(s, t, m, calls) && (e.Give? || e.GiveRecursive?)
    ensures if calls + Change(e, t, m) > 0 then OpenBy(Step(s, e), t, m, calls + Change(e, t, m))
            else Available(Step(s, e), m)
  {
    hide Given, Inv, HeldBy, On, ListOk, TaskOk, MutexOk;
    OpenFacts(s, t, m, calls);
    match e
    case Give(u, k) => if s.mutexes[k].count == 0 { OpenGiven(s, u, k, m); }
    case GiveRecursive(u, k) => if Holds(s, u, k) && s.mutexes[k].calls <= 1 { OpenGiven(s, u, k, m); }
  }

  lemma OpenStep(s: System, e: Event, t: Task, m: Id, calls: int)
    requires Inv(s) && Enabled(s, e) && OpenBy(s, t, m, calls)
    ensures if calls + Change(e, t, m) > 0 then OpenBy(Step(s, e), t, m, calls + Change(e, t, m))
            else Available(Step(s, e), m)
  {
    hide HeldBy, On, Inv, ListOk, Given, Taken, Blocked, Off, HighestWaiting, AfterTimeout, Inherited, ItemValue,
        TaskOk, MutexOk, Repriced;
    match e
    case Look(_) => OpenMid(s, e, t, m, calls);
    case BlockOrRetry(_) => OpenMid(s, e, t, m, calls);
    case TimeOut(_) => OpenMid(s, e, t, m, calls);
    case Fail(_) => OpenMid(s, e, t, m, calls);
    case SetPriority(_, _) => OpenMid(s, e, t, m, calls);
    case Count(u) => OpenCount(s, u, t, m, calls);
    case Give(_, _) => OpenGive(s, e, t, m, calls);
    case GiveRecursive(_, _) => OpenGive(s, e, t, m, calls);
    case _ =>
  }

  lemma OpenPositive(s: System, t: Task, m: Id, calls: int)
    requires OpenBy(s, t, m, calls)
    ensures calls > 0
  {
  }

  /**
   * A recursive mutex is held until the gives equal the takes, whatever other
   * tasks do: with `calls` open calls it is still held, by as many calls as
   * takes exceed gives, and it is released by exactly the give that evens them.
   */
  lemma {:induction false} TakesNeedGives(s: System, es: seq<Event>, t: Task, m: Id, calls: int)
    requires Inv(s) && RunEnabled(s, es) && OpenBy(s, t, m, calls) && StaysOpen(calls, es, t, m)
    ensures var n := calls + Balance(es, t, m);
            if n > 0 then OpenBy(Run(s, es), t, m, n) else Available(Run(s, es), m)
    decreases |es|
  {
    hide Step, Inv, Enabled, Change, OpenBy, Available;
    OpenPositive(s, t, m, calls);
    if es != [] {
      StepInv(s, es[0]);
      OpenStep(s, es[0], t, m, calls);
      if |es| > 1 {
        TakesNeedGives(Step(s, es[0]), es[1..], t, m, calls + Change(es[0], t, m));
      }
    }
  }

  // ---------------------------------------------------------------------------
  // The holder and its waiters
  // ---------------------------------------------------------------------------

  /**
   * A task holds at most one mutex, takes none while it holds one, and its
   * event item value is that of its priority.
   */
  predicate Modest(s: System) {
    forall t :: t in s.tasks ==>
      && s.tasks[t].held <= 1 && (s.tasks[t].phase.Idle? || s.tasks[t].phase.Counting? || s.tasks[t].held == 0)
      && s.tasks[t].item == ItemValue(s.tasks[t].prio)
  }

  /** A waiter's place is that of its priority, which is not above the holder's. */
  predicate WaiterOk(s: System, m: Id, e: Entry<Task>)
    requires m in s.mutexes
  {
    && e.owner in s.tasks && e.key == ItemValue(s.tasks[e.owner].prio)
    && (s.mutexes[m].holder.Some? && s.mutexes[m].holder.value in s.tasks ==>
          s.tasks[e.owner].prio <= s.tasks[s.mutexes[m].holder.value].prio)
  }

  ghost predicate Ranked(s: System, m: Id)
    requires m in s.mutexes
  {
    var ws := s.mutexes[m].waiters;
    Sorted(ws) && forall i :: 0 <= i < |ws| ==> WaiterOk(s, m, ws[i])
  }

  ghost predicate Orderly(s: System) {
    Inv(s) && Modest(s) && forall m :: m in s.mutexes ==> Ranked(s, m)
  }

  /** Nobody on the list is above the task. */
  predicate AtLeastWaiters(s: System, t: Task, m: Id)
    requires Is(s, t, m)
  {
    forall i :: 0 <= i < |s.mutexes[m].waiters| ==>
      s.mutexes[m].waiters[i].owner in s.tasks && s.tasks[s.mutexes[m].waiters[i].owner].prio <= s.tasks[t].prio
  }

  /**
   * Tasks hold at most one mutex and do not wait for another while they do, no
   * priority is set explicitly, and a mutex is acquired only by a task at least
   * as high as those that still wait for it.
   */
  predicate Restricted(s: System, e: Event)
    requires Inv(s) && Enabled(s, e)
  {
    match e
    case Take(t, m) => s.tasks[t].held == 0
    case Look(t) => s.mutexes[s.tasks[t].phase.m].count > 0 ==> AtLeastWaiters(s, t, s.tasks[t].phase.m)
    case SetPriority(_, _) => false
    case _ => true
  }

  lemma OnlyOne(s: System, t: Task, m: Id, k: Id)
    requires Orderly(s) && t in s.tasks && Holds(s, t, m) && Holds(s, t, k)
    ensures m == k
  {
    assert TaskOk(s, t);
    HoldsOne(s, t, m, k);
  }

  lemma HoldsOne(s: System, t: Task, m: Id, k: Id)
    requires t in s.tasks && TaskOk(s, t) && s.tasks[t].held <= 1 && Holds(s, t, m) && Holds(s, t, k)
    ensures m == k
  {
    if m != k {
      assert {m, k} <= HeldBy(s.mutexes, t);
      SubsetSize({m, k}, HeldBy(s.mutexes, t));
    }
  }

  lemma SubsetSize(a: set<Id>, b: set<Id>)
    requires a <= b
    ensures |a| <= |b|
  {
    if a != {} {
      var x :| x in a;
      SubsetSize(a - {x}, b - {x});
    }
  }

  /** A holder is on no list. */
  lemma HolderNotWaiting(s: System, h: Task, m: Id, k: Id, i: nat)
    requires Orderly(s) && h in s.tasks && Holds(s, h, m) && k in s.mutexes && i < |s.mutexes[k].waiters|
    ensures s.mutexes[k].waiters[i].owner != h
  {
    assert ListOk(s, k) && TaskOk(s, h);
    HeldPositive(s, h, m);
  }

  /** Lists, holders and priorities as they were: the order is too. */
  lemma RankedSame(s: System, r: System, k: Id)
    requires k in s.mutexes && k in r.mutexes && Ranked(s, k)
    requires r.mutexes[k].waiters == s.mutexes[k].waiters && r.mutexes[k].holder == s.mutexes[k].holder
    requires r.tasks.Keys == s.tasks.Keys && forall t :: t in s.tasks ==> r.tasks[t].prio == s.tasks[t].prio
    ensures Ranked(r, k)
  {
    hide Sorted, ItemValue;
  }

  lemma GoesOrderly(s: System, t: Task, p: Phase)
    requires Orderly(s) && t in s.tasks && Inv(Goes(s, t, p)) && (!p.Idle? && !p.Counting? ==> s.tasks[t].held == 0)
    ensures Orderly(Goes(s, t, p))
  {
    var r := Goes(s, t, p);
    hide Inv, Ranked;
    forall m | m in r.mutexes ensures Ranked(r, m) { RankedSame(s, r, m); }
  }

  lemma CallsOrderly(s: System, m: Id, calls: nat)
    requires Orderly(s) && m in s.mutexes && Inv(s.(mutexes := s.mutexes[m := s.mutexes[m].(calls := calls)]))
    ensures Orderly(s.(mutexes := s.mutexes[m := s.mutexes[m].(calls := calls)]))
  {
    var r := s.(mutexes := s.mutexes[m := s.mutexes[m].(calls := calls)]);
    hide Inv, Ranked;
    forall k | k in r.mutexes ensures Ranked(r, k) { RankedSame(s, r, k); }
  }

  lemma TakenRanked(s: System, t: Task, m: Id)
    requires Orderly(s) && Is(s, t, m) && s.mutexes[m].count > 0
    ensures Ranked(Taken(s, t, m), m) <==> AtLeastWaiters(s, t, m)
  {
    var r, ws := Taken(s, t, m), s.mutexes[m].waiters;
    assert Ranked(s, m);
    hide Inv, Sorted, ItemValue;
    if AtLeastWaiters(s, t, m) {
      forall i | 0 <= i < |ws| ensures WaiterOk(r, m, ws[i]) { assert WaiterOk(s, m, ws[i]); }
    }
    if Ranked(r, m) {
      forall i | 0 <= i < |ws| ensures ws[i].owner in s.tasks && s.tasks[ws[i].owner].prio <= s.tasks[t].prio {
        assert WaiterOk(r, m, ws[i]);
      }
    }
  }

  lemma TakenModest(s: System, t: Task, m: Id)
    requires Modest(s) && Is(s, t, m) && s.mutexes[m].count > 0 && s.tasks[t].phase.Trying?
    ensures Modest(Taken(s, t, m))
  {
  }

  /** Taking a mutex keeps the order exactly when nobody who still waits is above the taker. */
  lemma TakenOrderly(s: System, t: Task, m: Id)
    requires Orderly(s) && Is(s, t, m) && s.mutexes[m].count > 0 && s.tasks[t].phase.Trying?
    ensures Inv(Taken(s, t, m)) && (Orderly(Taken(s, t, m)) <==> AtLeastWaiters(s, t, m))
  {
    TakenInv(s, t, m);
    TakenRanked(s, t, m);
    TakenModest(s, t, m);
    var r := Taken(s, t, m);
    hide Inv, Ranked, Modest, AtLeastWaiters;
    forall k | k in r.mutexes && k != m ensures Ranked(r, k) { RankedSame(s, r, k); }
  }

  lemma OffRanked(s: System, m: Id, i: nat, k: Id)
    requires k in s.mutexes && Ranked(s, k) && m in s.mutexes && i < |s.mutexes[m].waiters| && k in s.mutexes
    requires var t := s.mutexes[m].waiters[i].owner; t in s.tasks && s.tasks[t].phase.Waiting?
    ensures Ranked(Off(s, m, i), k)
  {
    var r, ws := Off(s, m, i), s.mutexes[m].waiters;
    if k != m {
      hide Inv, Ranked;
      RankedSame(s, r, k);
    } else {
      hide Inv, ItemValue;
      var us := r.mutexes[m].waiters;
      forall j | 0 <= j < |us| ensures us[j] == ws[if j < i then j else j + 1] && WaiterOk(r, m, us[j]) {
        assert WaiterOk(s, m, ws[if j < i then j else j + 1]);
      }
    }
  }

  lemma OffOrderly(s: System, m: Id, i: nat)
    requires Orderly(s) && m in s.mutexes && i < |s.mutexes[m].waiters|
    ensures var t := s.mutexes[m].waiters[i].owner; t in s.tasks && s.tasks[t].phase.Waiting? && Orderly(Off(s, m, i))
  {
    OffInv(s, m, i);
    var t, r := s.mutexes[m].waiters[i].owner, Off(s, m, i);
    assert Modest(r) by { hide Inv, Ranked; }
    forall k | k in r.mutexes ensures Ranked(r, k) { OffRanked(s, m, i, k); }
    hide Inv, Ranked, Modest;
  }

  /** A task that gives the one mutex it holds falls back to its base priority, and holds nothing any more. */
  lemma ReleasedOrderly(s: System, t: Task, m: Id)
    requires Orderly(s) && Is(s, t, m) && Holds(s, t, m) && s.tasks[t].phase.Idle?
    ensures s.tasks[t].held > 0 && Orderly(Released(s, t, m))
  {
    ReleasedInv(s, t, m);
    var r := Released(s, t, m);
    forall k | k in r.mutexes ensures Ranked(r, k) {
      var ws := s.mutexes[k].waiters;
      if Holds(s, t, k) { OnlyOne(s, t, m, k); }
      assert Ranked(s, k);
      forall j | 0 <= j < |ws| ensures WaiterOk(r, k, ws[j]) {
        HolderNotWaiting(s, t, m, k, j);
        hide Inv, Sorted, ItemValue;
        assert WaiterOk(s, k, ws[j]);
      }
      hide Inv, Sorted, WaiterOk;
    }
    hide Inv, Ranked;
  }

  lemma GivenOrderly(s: System, t: Task, m: Id)
    requires Orderly(s) && Is(s, t, m) && Holds(s, t, m) && s.tasks[t].phase.Idle?
    ensures Orderly(Given(s, t, m))
  {
    ReleasedOrderly(s, t, m);
    var r := Released(s, t, m);
    hide Orderly;
    if r.mutexes[m].waiters != [] { OffOrderly(r, m, 0); }
  }

  /** The change of a task that is on no list changes no list. */
  lemma RepricedElsewhere(s: System, h: Task, x: Tcb)
    requires h in s.tasks
    requires forall k, i :: k in s.mutexes && 0 <= i < |s.mutexes[k].waiters| ==> s.mutexes[k].waiters[i].owner != h
    ensures Repriced(s, h, x) == s.(tasks := s.tasks[h := x])
  {
    forall k | k in s.mutexes ensures Repriced(s, h, x).mutexes[k] == s.mutexes[k] {
      assert Revalued(s.mutexes[k].waiters, h, x.item) == s.mutexes[k].waiters;
    }
  }

  /** The holder of a mutex gets a priority that is not below those of its waiters. */
  lemma RepricedOrderly(s: System, h: Task, m: Id, x: Tcb)
    requires Orderly(s) && h in s.tasks && m in s.mutexes && Holds(s, h, m)
    requires x.base <= x.prio && x.held == s.tasks[h].held && x.phase == s.tasks[h].phase && x.item == ItemValue(x.prio)
    requires forall i :: 0 <= i < |s.mutexes[m].waiters| ==>
               s.mutexes[m].waiters[i].owner in s.tasks && s.tasks[s.mutexes[m].waiters[i].owner].prio <= x.prio
    ensures Orderly(Repriced(s, h, x))
  {
    HeldPositive(s, h, m);
    RepricedInv(s, h, x);
    forall k, i | k in s.mutexes && 0 <= i < |s.mutexes[k].waiters| ensures s.mutexes[k].waiters[i].owner != h {
      HolderNotWaiting(s, h, m, k, i);
    }
    RepricedElsewhere(s, h, x);
    var r := s.(tasks := s.tasks[h := x]);
    forall k | k in r.mutexes ensures Ranked(r, k) { RetunedRanked(s, h, m, x, k); }
    assert Modest(r);
    hide Inv, Ranked, Modest, Repriced;
  }

  lemma RetunedRanked(s: System, h: Task, m: Id, x: Tcb, k: Id)
    requires Orderly(s) && h in s.tasks && m in s.mutexes && Holds(s, h, m) && k in s.mutexes
    requires forall i :: 0 <= i < |s.mutexes[m].waiters| ==>
               s.mutexes[m].waiters[i].owner in s.tasks && s.tasks[s.mutexes[m].waiters[i].owner].prio <= x.prio
    requires forall i :: 0 <= i < |s.mutexes[k].waiters| ==> s.mutexes[k].waiters[i].owner != h
    ensures Ranked(s.(tasks := s.tasks[h := x]), k)
  {
    hide Inv, Sorted, ItemValue;
    var r, ws := s.(tasks := s.tasks[h := x]), s.mutexes[k].waiters;
    if Holds(s, h, k) { OnlyOne(s, h, m, k); }
    assert Ranked(s, k);
    forall j | 0 <= j < |ws| ensures WaiterOk(r, k, ws[j]) { assert WaiterOk(s, k, ws[j]); }
  }

  lemma ListedRanked(s: System, t: Task, m: Id, inherited: bool, k: Id)
    requires Is(s, t, m) && k in s.mutexes && Ranked(s, k) && s.tasks[t].item == ItemValue(s.tasks[t].prio)
    requires s.mutexes[m].holder.Some? && s.mutexes[m].holder.value in s.tasks
    requires s.tasks[t].prio <= s.tasks[s.mutexes[m].holder.value].prio
    ensures Ranked(Listed(s, t, m, inherited), k)
  {
    var r, ws, e := Listed(s, t, m, inherited), s.mutexes[m].waiters, Entry(s.tasks[t].item, t);
    if k != m {
      hide Inv, Ranked, InsertOrdered;
      RankedSame(s, r, k);
    } else {
      InsertOrderedSorted(ws, e);
      Inserted(ws, e);
      hide Inv, ItemValue, On, Sorted, InsertOrdered;
      var us := InsertOrdered(ws, e);
      forall j | 0 <= j < |us| ensures WaiterOk(r, m, us[j]) {
        if us[j] != e {
          var i :| 0 <= i < |ws| && ws[i] == us[j];
          assert WaiterOk(s, m, ws[i]);
        }
      }
    }
  }

  lemma ListedOrderly(s: System, t: Task, m: Id, inherited: bool)
    requires Orderly(s) && Is(s, t, m) && s.tasks[t].phase.Checked?
    requires s.mutexes[m].recursive ==> s.mutexes[m].holder != Some(t)
    requires s.mutexes[m].holder.Some? && s.mutexes[m].holder.value in s.tasks
    requires s.tasks[t].prio <= s.tasks[s.mutexes[m].holder.value].prio
    ensures Orderly(Listed(s, t, m, inherited))
  {
    ListedInv(s, t, m, inherited);
    var r := Listed(s, t, m, inherited);
    assert Modest(r) by { hide Inv, Ranked, InsertOrdered; }
    forall k | k in r.mutexes ensures Ranked(r, k) { ListedRanked(s, t, m, inherited, k); }
    hide Inv, Ranked, Modest;
  }

  lemma BlockedOrderly(s: System, t: Task, m: Id)
    requires Orderly(s) && Is(s, t, m) && s.mutexes[m].count == 0 && s.tasks[t].phase.Checked?
             && s.tasks[t].phase.m == m
    ensures s.mutexes[m].holder.Some? && s.mutexes[m].holder.value in s.tasks && Orderly(Blocked(s, t, m))
  {
    assert MutexOk(s, m) && TaskOk(s, t) && Ranked(s, m);
    var h, ws := s.mutexes[m].holder.value, s.mutexes[m].waiters;
    assert TaskOk(s, h);
    HeldPositive(s, h, m);
    forall i | 0 <= i < |ws| ensures ws[i].owner in s.tasks && s.tasks[ws[i].owner].prio <= s.tasks[h].prio {
      assert WaiterOk(s, m, ws[i]);
    }
    hide Inv, Ranked, On, HeldBy;
    RepricedOrderly(s, h, m, Inherited(s.tasks[h], s.tasks[t].prio));
    var r := Repriced(s, h, Inherited(s.tasks[h], s.tasks[t].prio));
    assert r.mutexes[m].holder == s.mutexes[m].holder && r.mutexes[m].recursive == s.mutexes[m].recursive;
    hide Orderly, Repriced;
    ListedOrderly(r, t, m, s.tasks[h].base < s.tasks[t].prio);
  }

  /** The first of the list has the highest priority on it. */
  lemma HighestIs(s: System, m: Id)
    requires m in s.mutexes && Ranked(s, m)
    ensures forall i :: 0 <= i < |s.mutexes[m].waiters| ==>
              s.mutexes[m].waiters[i].owner in s.tasks
              && s.tasks[s.mutexes[m].waiters[i].owner].prio <= HighestWaiting(s.mutexes[m].waiters)
  {
    var ws := s.mutexes[m].waiters;
    forall i | 0 <= i < |ws| ensures ws[i].owner in s.tasks && s.tasks[ws[i].owner].prio <= HighestWaiting(ws) {
      assert WaiterOk(s, m, ws[i]) && WaiterOk(s, m, ws[0]);
      if i > 0 { assert ws[0].key <= ws[i].key; }
    }
  }

  lemma FailOrderly(s: System, t: Task)
    requires Orderly(s) && Enabled(s, Fail(t))
    ensures Orderly(Step(s, Fail(t)))
  {
    hide Inv, HighestWaiting, HeldBy, On, ListOk, TaskOk, Ranked, Modest;
    MidTake(s, t);
    GoesInv(s, t, Idle);
    GoesOrderly(s, t, Idle);
    var p := s.tasks[t].phase;
    var x, r := s.mutexes[p.m], Goes(s, t, Idle);
    if p.inherited && x.holder.Some? {
      HolderCounts(r, x.holder.value, p.m);
      HighestIs(r, p.m);
      RepricedOrderly(r, x.holder.value, p.m, AfterTimeout(r.tasks[x.holder.value], HighestWaiting(x.waiters)));
    }
  }

  /** A holder of a mutex has it on its account. */
  lemma HolderCounts(s: System, h: Task, m: Id)
    requires Orderly(s) && Holds(s, h, m)
    ensures h in s.tasks && s.tasks[h].held == 1 && s.tasks[h].base <= s.tasks[h].prio
    ensures s.tasks[h].item == ItemValue(s.tasks[h].prio)
  {
    assert MutexOk(s, m) && TaskOk(s, h);
    HeldPositive(s, h, m);
  }

  lemma CountOrderly(s: System, t: Task)
    requires Orderly(s) && Enabled(s, Count(t))
    ensures Orderly(Step(s, Count(t)))
  {
    MidTake(s, t);
    CountInv(s, t);
    hide Inv, Ranked, HeldBy, On, TaskOk, MutexOk, ListOk;
    var r := Step(s, Count(t));
    assert Modest(r);
    hide Modest;
    forall k | k in r.mutexes ensures Ranked(r, k) { RankedSame(s, r, k); }
    hide Step, Enabled;
  }

  lemma LookOrderly(s: System, t: Task)
    requires Orderly(s) && Enabled(s, Look(t)) && Restricted(s, Look(t))
    ensures Orderly(Step(s, Look(t)))
  {
    MidTake(s, t);
    StepInv(s, Look(t));
    hide Inv, Ranked;
    var p := s.tasks[t].phase;
    if s.mutexes[p.m].count > 0 { TakenOrderly(s, t, p.m); } else { GoesOrderly(s, t, Checked(p.m, p.inherited)); }
  }

  lemma BlockOrRetryOrderly(s: System, t: Task)
    requires Orderly(s) && Enabled(s, BlockOrRetry(t))
    ensures Orderly(Step(s, BlockOrRetry(t)))
  {
    MidTake(s, t);
    StepInv(s, BlockOrRetry(t));
    hide Inv, Ranked;
    var p := s.tasks[t].phase;
    if s.mutexes[p.m].count == 0 { BlockedOrderly(s, t, p.m); } else { GoesOrderly(s, t, Trying(p.m, p.inherited)); }
  }

  lemma GiveOrderly(s: System, t: Task, m: Id)
    requires Orderly(s) && Enabled(s, Give(t, m))
    ensures Orderly(Step(s, Give(t, m)))
  {
    assert MutexOk(s, m);
    hide Inv, Ranked;
    if s.mutexes[m].count == 0 { GivenOrderly(s, t, m); }
  }

  lemma GiveRecursiveOrderly(s: System, t: Task, m: Id)
    requires Orderly(s) && Enabled(s, GiveRecursive(t, m))
    ensures Orderly(Step(s, GiveRecursive(t, m)))
  {
    GiveRecursiveInv(s, t, m);
    hide Inv, Ranked;
    if Holds(s, t, m) {
      if s.mutexes[m].calls > 1 { CallsOrderly(s, m, s.mutexes[m].calls - 1); } else { GivenOrderly(s, t, m); }
    }
  }

  lemma StepOrderly(s: System, e: Event)
    requires Orderly(s) && Enabled(s, e) && Restricted(s, e)
    ensures Orderly(Step(s, e))
  {
    hide Inv, Ranked, Taken, Blocked, Off, Given, HighestWaiting, AtLeastWaiters;
    StepInv(s, e);
    match e
    case Take(t, m) => GoesOrderly(s, t, Trying(m, false));
    case Look(t) => LookOrderly(s, t);
    case GiveUp(t) => GoesOrderly(s, t, Idle);
    case BlockOrRetry(t) => BlockOrRetryOrderly(s, t);
    case TimeUp(t) => GoesOrderly(s, t, Expired(s.tasks[t].phase.m, s.tasks[t].phase.inherited));
    case TimeOut(t) =>
      MidTake(s, t);
      OffOrderly(s, s.tasks[t].phase.m, Place(s.mutexes[s.tasks[t].phase.m].waiters, t));
    case LookAgain(t) =>
      MidTake(s, t);
      var p := s.tasks[t].phase;
      GoesOrderly(s, t, if s.mutexes[p.m].count == 0 then Failing(p.m, p.inherited) else Trying(p.m, p.inherited));
    case Fail(t) => FailOrderly(s, t);
    case Count(t) => CountOrderly(s, t);
    case TakeAgain(t, m) => CallsOrderly(s, m, s.mutexes[m].calls + 1);
    case Give(t, m) => GiveOrderly(s, t, m);
    case GiveRecursive(t, m) => GiveRecursiveOrderly(s, t, m);
  }

  ghost predicate RunRestricted(s: System, es: seq<Event>)
    requires Inv(s) && RunEnabled(s, es)
    decreases |es|
  {
    es == [] || (Restricted(s, es[0]) && (StepInv(s, es[0]); RunRestricted(Step(s, es[0]), es[1..])))
  }

  lemma {:induction false} RunOrderly(s: System, es: seq<Event>)
    requires Orderly(s) && RunEnabled(s, es) && RunRestricted(s, es)
    ensures Orderly(Run(s, es))
    decreases |es|
  {
    if es != [] {
      StepInv(s, es[0]);
      StepOrderly(s, es[0]);
      hide Step, Orderly, Inv, Restricted, Enabled;
      RunOrderly(Step(s, es[0]), es[1..]);
    }
  }

  /** In every restricted run the holder of a mutex is never below a task that waits for it, timeouts included. */
  lemma HolderNeverBelow(tasks: map<Task, Priority>, mutexes: map<Id, bool>, es: seq<Event>, m: Id, i: nat)
    requires RunEnabled(Created(tasks, mutexes), es) && RunRestricted(Created(tasks, mutexes), es)
    ensures var s := Run(Created(tasks, mutexes), es);
            m in s.mutexes && i < |s.mutexes[m].waiters| && s.mutexes[m].holder.Some? ==>
              var h, w := s.mutexes[m].holder.value, s.mutexes[m].waiters[i].owner;
              h in s.tasks && w in s.tasks && s.tasks[w].prio <= s.tasks[h].prio
  {
    RunOrderly(Created(tasks, mutexes), es);
    var s := Run(Created(tasks, mutexes), es);
    if m in s.mutexes && i < |s.mutexes[m].waiters| {
      assert MutexOk(s, m) && Ranked(s, m);
      assert WaiterOk(s, m, s.mutexes[m].waiters[i]);
    }
  }

  // ---------------------------------------------------------------------------
  // When a holder gets below a waiter, without restrictions
  // ---------------------------------------------------------------------------

  predicate NotAbove(s: System, w: Task, m: Id)
    requires m in s.mutexes
  {
    s.mutexes[m].holder.Some? && s.mutexes[m].holder.value in s.tasks && w in s.tasks ==>
      s.tasks[w].prio <= s.tasks[s.mutexes[m].holder.value].prio
  }

  /** No holder is below a task that waits for its mutex. */
  predicate HoldersHigh(s: System) {
    forall m, i :: m in s.mutexes && 0 <= i < |s.mutexes[m].waiters| ==> NotAbove(s, s.mutexes[m].waiters[i].owner, m)
  }

  /**
   * Priority `p` suits the task: nobody else waiting for a mutex it holds is
   * above it, and no other holder of a mutex it waits for is below it.
   */
  predicate Suits(s: System, t: Task, p: Priority) {
    forall m, i :: m in s.mutexes && 0 <= i < |s.mutexes[m].waiters|
        ==> SuitsAt(s, t, p, m, s.mutexes[m].waiters[i].owner)
  }

  predicate SuitsAt(s: System, t: Task, p: Priority, m: Id, w: Task)
    requires m in s.mutexes
  {
    var h := s.mutexes[m].holder;
    && (h == Some(t) && w != t && w in s.tasks ==> s.tasks[w].prio <= p)
    && (w == t && h.Some? && h != Some(t) && h.value in s.tasks ==> p <= s.tasks[h.value].prio)
  }

  /**
   * What a step must find: an acquirer that is not below those who still wait,
   * and where a task's priority changes, through inheritance, after a timeout
   * or explicitly, a new one that suits it.
   */
  predicate Guarded(s: System, e: Event)
    requires Inv(s) && Enabled(s, e)
  {
    match e
    case Look(t) => s.mutexes[s.tasks[t].phase.m].count > 0 ==> AtLeastWaiters(s, t, s.tasks[t].phase.m)
    case BlockOrRetry(t) =>
      var h := s.mutexes[s.tasks[t].phase.m].holder;
      h.Some? && h.value in s.tasks ==> Suits(s, h.value, Inherited(s.tasks[h.value], s.tasks[t].prio).prio)
    case Fail(t) =>
      var x := s.mutexes[s.tasks[t].phase.m];
      s.tasks[t].phase.inherited && x.holder.Some? && x.holder.value in s.tasks ==>
        Suits(s, x.holder.value, AfterTimeout(s.tasks[x.holder.value], HighestWaiting(x.waiters)).prio)
    case SetPriority(t, p) => Suits(s, t, Reset(s.tasks[t], p).prio)
    case _ => true
  }

  lemma RepricedHigh(s: System, t: Task, x: Tcb)
    requires HoldersHigh(s) && t in s.tasks
    ensures HoldersHigh(Repriced(s, t, x)) <==> Suits(s, t, x.prio)
  {
    var r := Repriced(s, t, x);
    forall m, i | m in s.mutexes && 0 <= i < |s.mutexes[m].waiters|
      ensures |r.mutexes[m].waiters| == |s.mutexes[m].waiters|
              && r.mutexes[m].waiters[i].owner == s.mutexes[m].waiters[i].owner
      ensures NotAbove(r, s.mutexes[m].waiters[i].owner, m) <==> SuitsAt(s, t, x.prio, m, s.mutexes[m].waiters[i].owner)
    {
      assert NotAbove(s, s.mutexes[m].waiters[i].owner, m);
    }
    if HoldersHigh(r) {
      forall m, i | m in s.mutexes && 0 <= i < |s.mutexes[m].waiters|
        ensures SuitsAt(s, t, x.prio, m, s.mutexes[m].waiters[i].owner)
      {
        assert NotAbove(r, r.mutexes[m].waiters[i].owner, m);
      }
    }
  }

  /** Lists, holders and priorities as they were. */
  lemma SameHigh(s: System, r: System)
    requires r.mutexes.Keys == s.mutexes.Keys && r.tasks.Keys == s.tasks.Keys
    requires forall t :: t in s.tasks ==> r.tasks[t].prio == s.tasks[t].prio
    requires forall m :: m in s.mutexes ==>
               r.mutexes[m].waiters == s.mutexes[m].waiters && r.mutexes[m].holder == s.mutexes[m].holder
    ensures HoldersHigh(r) <==> HoldersHigh(s)
  {
    forall m, i | m in s.mutexes && 0 <= i < |s.mutexes[m].waiters|
      ensures NotAbove(r, s.mutexes[m].waiters[i].owner, m) <==> NotAbove(s, s.mutexes[m].waiters[i].owner, m)
    {
    }
    if HoldersHigh(r) {
      forall m, i | m in s.mutexes && 0 <= i < |s.mutexes[m].waiters|
          ensures NotAbove(s, s.mutexes[m].waiters[i].owner, m) {
        assert NotAbove(r, r.mutexes[m].waiters[i].owner, m);
      }
    }
  }

  lemma TakenHigh(s: System, t: Task, m: Id)
    requires HoldersHigh(s) && Is(s, t, m) && s.mutexes[m].count > 0 && ListOk(s, m)
    ensures HoldersHigh(Taken(s, t, m)) <==> AtLeastWaiters(s, t, m)
  {
    var r := Taken(s, t, m);
    if AtLeastWaiters(s, t, m) {
      forall k, i | k in r.mutexes && 0 <= i < |r.mutexes[k].waiters|
          ensures NotAbove(r, r.mutexes[k].waiters[i].owner, k) {
        assert NotAbove(s, s.mutexes[k].waiters[i].owner, k);
      }
    }
    if HoldersHigh(r) {
      forall i | 0 <= i < |s.mutexes[m].waiters|
        ensures s.mutexes[m].waiters[i].owner in s.tasks
                && s.tasks[s.mutexes[m].waiters[i].owner].prio <= s.tasks[t].prio
      {
        assert NotAbove(r, r.mutexes[m].waiters[i].owner, m);
      }
    }
  }

  /** What insertion puts where. */
  lemma InsertedAt(ws: seq<Entry<Task>>, e: Entry<Task>) returns (us: seq<Entry<Task>>, n: nat)
    ensures us == InsertOrdered(ws, e) && n <= |ws| && |us| == |ws| + 1 && us[n] == e
    ensures forall j {:trigger us[j]} :: 0 <= j < |us| && j != n ==> us[j] == ws[if j < n then j else j - 1]
  {
    InsertOrderedSplits(ws, e);
    us, n := InsertOrdered(ws, e), Rank(ws, e.key);
    assert us == ws[..n] + [e] + ws[n..];
    hide *;
  }

  lemma ListedHigh(s: System, t: Task, m: Id, inherited: bool)
    requires Is(s, t, m) && NotAbove(s, t, m)
    ensures HoldersHigh(Listed(s, t, m, inherited)) <==> HoldersHigh(s)
  {
    var r, ws := Listed(s, t, m, inherited), s.mutexes[m].waiters;
    var us, n := InsertedAt(ws, Entry(s.tasks[t].item, t));
    assert r.mutexes[m].waiters == us;
    hide InsertOrdered, NotAbove, Listed;
    forall k, w | k in s.mutexes ensures NotAbove(r, w, k) <==> NotAbove(s, w, k) {
      ListedNotAbove(s, t, m, inherited, k, w);
    }
    if HoldersHigh(s) {
      forall k, j | k in r.mutexes && 0 <= j < |r.mutexes[k].waiters|
          ensures NotAbove(s, r.mutexes[k].waiters[j].owner, k) {
        if k != m {
          assert r.mutexes[k].waiters[j] == s.mutexes[k].waiters[j];
        } else if j != n {
          assert us[j] == ws[if j < n then j else j - 1];
        }
      }
    }
    if HoldersHigh(r) {
      forall k, i | k in s.mutexes && 0 <= i < |s.mutexes[k].waiters|
          ensures NotAbove(r, s.mutexes[k].waiters[i].owner, k) {
        var j := if k == m && i >= n then i + 1 else i;
        assert if k == m then us[j] == ws[i] else r.mutexes[k].waiters[j] == s.mutexes[k].waiters[i];
        assert NotAbove(r, r.mutexes[k].waiters[j].owner, k);
      }
    }
  }

  lemma ListedNotAbove(s: System, t: Task, m: Id, inherited: bool, k: Id, w: Task)
    requires Is(s, t, m) && k in s.mutexes
    ensures NotAbove(Listed(s, t, m, inherited), w, k) <==> NotAbove(s, w, k)
  {
    hide InsertOrdered;
  }

  lemma OffHigh(s: System, m: Id, i: nat)
    requires HoldersHigh(s) && m in s.mutexes && i < |s.mutexes[m].waiters|
    requires var t := s.mutexes[m].waiters[i].owner; t in s.tasks && s.tasks[t].phase.Waiting?
    ensures HoldersHigh(Off(s, m, i))
  {
    var r := Off(s, m, i);
    forall k, j | k in r.mutexes && 0 <= j < |r.mutexes[k].waiters|
        ensures NotAbove(r, r.mutexes[k].waiters[j].owner, k) {
      var l := if k == m && j >= i then j + 1 else j;
      assert r.mutexes[k].waiters[j] == s.mutexes[k].waiters[l];
      assert NotAbove(s, s.mutexes[k].waiters[l].owner, k);
    }
  }

  /** A task that gives is on no list, and when it falls back to its base priority it holds nothing else. */
  lemma ReleasedHigh(s: System, t: Task, m: Id)
    requires Inv(s) && HoldersHigh(s) && Is(s, t, m) && Holds(s, t, m) && s.tasks[t].phase.Idle?
    ensures s.tasks[t].held > 0 && HoldersHigh(Released(s, t, m))
  {
    HeldPositive(s, t, m);
    assert TaskOk(s, t);
    var r := Released(s, t, m);
    forall k, i | k in r.mutexes && 0 <= i < |r.mutexes[k].waiters|
        ensures NotAbove(r, r.mutexes[k].waiters[i].owner, k) {
      assert NotAbove(s, s.mutexes[k].waiters[i].owner, k) && ListOk(s, k);
      if Holds(s, t, k) && s.tasks[t].held <= 1 { HoldsOne(s, t, m, k); }
      hide Inv, HeldBy, On;
    }
  }

  lemma GivenHigh(s: System, t: Task, m: Id)
    requires Inv(s) && HoldersHigh(s) && Is(s, t, m) && Holds(s, t, m) && s.tasks[t].phase.Idle?
    ensures HoldersHigh(Given(s, t, m))
  {
    hide Inv, HoldersHigh, HeldBy, Disinherited, TaskOk, MutexOk, ListOk;
    ReleasedHigh(s, t, m);
    var r := Released(s, t, m);
    if r.mutexes[m].waiters != [] {
      FirstWaits(s, t, m);
      OffHigh(r, m, 0);
    }
  }

  lemma BlockOrRetryHigh(s: System, t: Task)
    requires Inv(s) && HoldersHigh(s) && Enabled(s, BlockOrRetry(t))
    ensures HoldersHigh(Step(s, BlockOrRetry(t))) <==> Guarded(s, BlockOrRetry(t))
  {
    MidTake(s, t);
    var p := s.tasks[t].phase;
    var r := Goes(s, t, Trying(p.m, p.inherited));
    if s.mutexes[p.m].count == 0 {
      var h := s.mutexes[p.m].holder.value;
      var x := Inherited(s.tasks[h], s.tasks[t].prio);
      RepricedHigh(s, h, x);
      hide Inv, HoldersHigh, Suits, Listed;
      ListedHigh(Repriced(s, h, x), t, p.m, s.tasks[h].base < s.tasks[t].prio);
    } else {
      hide Inv, HoldersHigh;
      SameHigh(s, r);
    }
  }

  lemma FailHigh(s: System, t: Task)
    requires Inv(s) && HoldersHigh(s) && Enabled(s, Fail(t))
    ensures HoldersHigh(Step(s, Fail(t))) <==> Guarded(s, Fail(t))
  {
    MidTake(s, t);
    GoesInv(s, t, Idle);
    var p, r := s.tasks[t].phase, Goes(s, t, Idle);
    SameHigh(s, r);
    var h := s.mutexes[p.m].holder;
    if p.inherited && h.Some? {
      var x := AfterTimeout(r.tasks[h.value], HighestWaiting(s.mutexes[p.m].waiters));
      RepricedHigh(r, h.value, x);
      SameSuits(s, r, h.value, x.prio);
      hide Inv, HoldersHigh, Suits, HighestWaiting;
    }
  }

  lemma SameSuits(s: System, r: System, t: Task, p: Priority)
    requires r.mutexes == s.mutexes && r.tasks.Keys == s.tasks.Keys
    requires forall u :: u in s.tasks ==> r.tasks[u].prio == s.tasks[u].prio
    ensures Suits(r, t, p) <==> Suits(s, t, p)
  {
    forall m, i | m in s.mutexes && 0 <= i < |s.mutexes[m].waiters|
      ensures SuitsAt(r, t, p, m, s.mutexes[m].waiters[i].owner) <==> SuitsAt(s, t, p, m, s.mutexes[m].waiters[i].owner)
    {
    }
  }

  lemma LookHigh(s: System, t: Task)
    requires Inv(s) && HoldersHigh(s) && Enabled(s, Look(t))
    ensures HoldersHigh(Step(s, Look(t))) <==> Guarded(s, Look(t))
  {
    MidTake(s, t);
    var p := s.tasks[t].phase;
    hide Inv, HoldersHigh, AtLeastWaiters, Taken, HeldBy, On;
    if s.mutexes[p.m].count > 0 { TakenHigh(s, t, p.m); } else { SameHigh(s, Goes(s, t, Checked(p.m, p.inherited))); }
  }

  lemma TimeOutHigh(s: System, t: Task)
    requires Inv(s) && HoldersHigh(s) && Enabled(s, TimeOut(t))
    ensures HoldersHigh(Step(s, TimeOut(t)))
  {
    MidTake(s, t);
    hide Inv, HoldersHigh, HeldBy;
    OffHigh(s, s.tasks[t].phase.m, Place(s.mutexes[s.tasks[t].phase.m].waiters, t));
  }

  lemma GiveHigh(s: System, t: Task, m: Id)
    requires Inv(s) && HoldersHigh(s) && Enabled(s, Give(t, m))
    ensures HoldersHigh(Step(s, Give(t, m)))
  {
    assert MutexOk(s, m);
    hide Inv, HoldersHigh;
    if s.mutexes[m].count == 0 { GivenHigh(s, t, m); }
  }

  lemma GiveRecursiveHigh(s: System, t: Task, m: Id)
    requires Inv(s) && HoldersHigh(s) && Enabled(s, GiveRecursive(t, m))
    ensures HoldersHigh(Step(s, GiveRecursive(t, m)))
  {
    GiveRecursiveInv(s, t, m);
    hide Inv, HoldersHigh, Given;
    if Holds(s, t, m) && s.mutexes[m].calls <= 1 {
      GivenHigh(s, t, m);
    } else {
      SameHigh(s, Step(s, GiveRecursive(t, m)));
    }
  }

  lemma CountHigh(s: System, t: Task)
    requires Inv(s) && HoldersHigh(s) && Enabled(s, Count(t))
    ensures HoldersHigh(Step(s, Count(t)))
  {
    MidTake(s, t);
    hide Inv, HoldersHigh;
    SameHigh(s, Step(s, Count(t)));
  }

  /** A step keeps every holder at least as high as its waiters if and only if it is guarded. */
  lemma StepHigh(s: System, e: Event)
    requires Inv(s) && HoldersHigh(s) && Enabled(s, e)
    ensures HoldersHigh(Step(s, e)) <==> Guarded(s, e)
  {
    hide HoldersHigh, Suits, AtLeastWaiters, HighestWaiting, HeldBy, Taken, Blocked, Off, Given, Repriced;
    match e
    case Look(t) => LookHigh(s, t);
    case BlockOrRetry(t) => BlockOrRetryHigh(s, t);
    case TimeOut(t) => TimeOutHigh(s, t);
    case Fail(t) => FailHigh(s, t);
    case Give(t, m) => GiveHigh(s, t, m);
    case GiveRecursive(t, m) => GiveRecursiveHigh(s, t, m);
    case SetPriority(t, p) => RepricedHigh(s, t, Reset(s.tasks[t], p));
    case Count(t) => CountHigh(s, t);
    case _ =>
      hide Inv;
      SameHigh(s, Step(s, e));
  }

  /** No mutex that the task waits for is held by another task below `p`. */
  predicate WaitsForNoneBelow(s: System, h: Task, p: Priority) {
    forall m, i :: m in s.mutexes && 0 <= i < |s.mutexes[m].waiters| && s.mutexes[m].waiters[i].owner == h ==>
      NotBelow(s, h, m, p)
  }

  predicate NotBelow(s: System, h: Task, m: Id, p: Priority)
    requires m in s.mutexes
  {
    var u := s.mutexes[m].holder;
    u.Some? && u.value != h && u.value in s.tasks ==> p <= s.tasks[u.value].prio
  }

  /**
   * For blocking, the guard is that the holder, once raised, is not above the
   * holder of a mutex it waits for itself.
   */
  lemma BlockGuard(s: System, t: Task)
    requires Inv(s) && HoldersHigh(s) && Enabled(s, BlockOrRetry(t))
    ensures Guarded(s, BlockOrRetry(t)) <==>
            var h := s.mutexes[s.tasks[t].phase.m].holder;
            h.Some? && h.value in s.tasks ==> WaitsForNoneBelow(s, h.value, Max(s.tasks[h.value].prio, s.tasks[t].prio))
  {
    MidTake(s, t);
    var h := s.mutexes[s.tasks[t].phase.m].holder;
    if h.Some? {
      var p := Inherited(s.tasks[h.value], s.tasks[t].prio).prio;
      assert p == Max(s.tasks[h.value].prio, s.tasks[t].prio);
      hide Inv;
      forall m, i | m in s.mutexes && 0 <= i < |s.mutexes[m].waiters|
        ensures SuitsAt(s, h.value, p, m, s.mutexes[m].waiters[i].owner)
                <==> (s.mutexes[m].waiters[i].owner == h.value ==> NotBelow(s, h.value, m, p))
      {
        assert NotAbove(s, s.mutexes[m].waiters[i].owner, m);
      }
    }
  }

  ghost predicate AlwaysHigh(s: System, es: seq<Event>)
    requires Inv(s) && RunEnabled(s, es)
    decreases |es|
  {
    HoldersHigh(s) && (es == [] || (StepInv(s, es[0]); AlwaysHigh(Step(s, es[0]), es[1..])))
  }

  ghost predicate AlwaysGuarded(s: System, es: seq<Event>)
    requires Inv(s) && RunEnabled(s, es)
    decreases |es|
  {
    es == [] || (Guarded(s, es[0]) && (StepInv(s, es[0]); AlwaysGuarded(Step(s, es[0]), es[1..])))
  }

  /**
   * In any run, with nested mutexes and explicit priority changes, every holder
   * stays at least as high as its waiters if and only if every step is guarded.
   */
  lemma {:induction false} HighIff(s: System, es: seq<Event>)
    requires Inv(s) && RunEnabled(s, es) && HoldersHigh(s)
    ensures AlwaysHigh(s, es) <==> AlwaysGuarded(s, es)
    decreases |es|
  {
    hide Step, Inv, Enabled, Guarded, HoldersHigh;
    if es != [] {
      StepInv(s, es[0]);
      StepHigh(s, es[0]);
      if Guarded(s, es[0]) { HighIff(Step(s, es[0]), es[1..]); }
      else { NotHigh(Step(s, es[0]), es[1..]); }
    }
  }

  lemma NotHigh(s: System, es: seq<Event>)
    requires Inv(s) && RunEnabled(s, es) && !HoldersHigh(s)
    ensures !AlwaysHigh(s, es)
  {
  }

  /** After a timeout the holder is never raised, in the states that restricted runs reach. */
  lemma FailNeverRaises(s: System, t: Task)
    requires Orderly(s) && Enabled(s, Fail(t))
    ensures s.tasks[t].phase.m in s.mutexes
    ensures var h := s.mutexes[s.tasks[t].phase.m].holder;
            h.Some? && h.value in s.tasks ==>
              h.value in Step(s, Fail(t)).tasks && Step(s, Fail(t)).tasks[h.value].prio <= s.tasks[h.value].prio
  {
    MidTake(s, t);
    var m := s.tasks[t].phase.m;
    var h, ws := s.mutexes[m].holder, s.mutexes[m].waiters;
    assert Ranked(s, m);
    if h.Some? {
      assert TaskOk(s, h.value);
      if ws != [] { assert WaiterOk(s, m, ws[0]); }
      assert HighestWaiting(ws) <= s.tasks[h.value].prio;
      hide Inv, Ranked, HighestWaiting;
    }
  }

  // ---------------------------------------------------------------------------
  // The three ways in which it happens
  // ---------------------------------------------------------------------------

  /** Three tasks of priorities 1, 2 and 3, and two mutexes. */
  function Shop(): (s: System)
    ensures Inv(s)
  {
    Created(map[1 := 1, 2 := 2, 3 := 3], map[0 := false, 1 := false])
  }

  function Trio(t1: Tcb, t2: Tcb, t3: Tcb, x0: Mutex, x1: Mutex): System {
    System(map[1 := t1, 2 := t2, 3 := t3], map[0 := x0, 1 := x1])
  }

  lemma TrioIs(s: System, t1: Tcb, t2: Tcb, t3: Tcb, x0: Mutex, x1: Mutex)
    requires s.tasks.Keys == {1, 2, 3} && s.tasks[1] == t1 && s.tasks[2] == t2 && s.tasks[3] == t3
    requires s.mutexes.Keys == {0, 1} && s.mutexes[0] == x0 && s.mutexes[1] == x1
    ensures s == Trio(t1, t2, t3, x0, x1)
  {
    assert s.tasks == map[1 := t1, 2 := t2, 3 := t3];
    assert s.mutexes == map[0 := x0, 1 := x1];
  }

  /** A task whose priority is the first number and whose base priority is the second. */
  function T(prio: Priority, base: Priority, held: nat, phase: Phase): Tcb {
    Tcb(prio, base, held, ItemValue(prio), phase)
  }

  function Free(): Mutex { Mutex(false, 1, None, 0, []) }

  function HeldOf(t: Task, ws: seq<Entry<Task>>): Mutex { Mutex(false, 0, Some(t), 0, ws) }

  ghost predicate Reaches(es: seq<Event>, s: System) {
    RunEnabled(Shop(), es) && Run(Shop(), es) == s
  }

  lemma ShopIs()
    ensures Reaches([], Trio(T(1, 1, 0, Idle), T(2, 2, 0, Idle), T(3, 3, 0, Idle), Free(), Free()))
  {
    assert Shop() == Trio(T(1, 1, 0, Idle), T(2, 2, 0, Idle), T(3, 3, 0, Idle), Free(), Free());
  }

  lemma {:induction false} RunThen(s: System, es: seq<Event>, e: Event)
    requires Inv(s) && RunEnabled(s, es) && Enabled(Run(s, es), e)
    ensures RunEnabled(s, es + [e]) && Run(s, es + [e]) == Step(Run(s, es), e)
    decreases |es|
  {
    hide Inv, Enabled, Step;
    if es == [] {
      StepInv(s, e);
      assert [] + [e] == [e] && [e][1..] == [];
    } else {
      StepInv(s, es[0]);
      RunThen(Step(s, es[0]), es[1..], e);
      assert (es + [e])[0] == es[0] && (es + [e])[1..] == es[1..] + [e];
    }
  }

  lemma Then(es: seq<Event>, s: System, e: Event, r: System)
    requires Reaches(es, s) && Enabled(s, e) && Step(s, e) == r
    ensures Reaches(es + [e], r)
  {
    hide Step, Enabled, Inv;
    RunThen(Shop(), es, e);
  }

  lemma ReachedInv(es: seq<Event>, s: System)
    requires Reaches(es, s)
    ensures Inv(s)
  {
  }

  lemma Tries(es: seq<Event>, s: System, t: Task, m: Id)
    requires Reaches(es, s) && Is(s, t, m) && s.tasks[t].phase.Idle? && !s.mutexes[m].recursive
    ensures Reaches(es + [Take(t, m)], Goes(s, t, Trying(m, false)))
  {
    hide Inv, Reaches;
    Then(es, s, Take(t, m), Goes(s, t, Trying(m, false)));
  }

  /** Two steps take a mutex that is available. */
  lemma TakesFree(es: seq<Event>, s: System, t: Task, m: Id)
    requires Reaches(es, s) && Is(s, t, m) && s.tasks[t].phase.Idle? && !s.mutexes[m].recursive
             && s.mutexes[m].count > 0
    ensures Reaches(es + [Take(t, m), Look(t)], Taken(Goes(s, t, Trying(m, false)), t, m))
  {
    hide Inv, Reaches, Taken;
    var r := Goes(s, t, Trying(m, false));
    Tries(es, s, t, m);
    Then(es + [Take(t, m)], r, Look(t), Taken(r, t, m));
    assert es + [Take(t, m)] + [Look(t)] == es + [Take(t, m), Look(t)];
  }

  /** Two steps find a mutex held. */
  lemma FindsHeld(es: seq<Event>, s: System, t: Task, m: Id)
    requires Reaches(es, s) && Is(s, t, m) && s.tasks[t].phase.Idle? && !s.mutexes[m].recursive
             && s.mutexes[m].count == 0
    ensures Reaches(es + [Take(t, m), Look(t)], Goes(s, t, Checked(m, false)))
  {
    hide Inv, Reaches;
    var r := Goes(s, t, Trying(m, false));
    Tries(es, s, t, m);
    assert Goes(r, t, Checked(m, false)) == Goes(s, t, Checked(m, false));
    Then(es + [Take(t, m)], r, Look(t), Goes(s, t, Checked(m, false)));
    assert es + [Take(t, m)] + [Look(t)] == es + [Take(t, m), Look(t)];
  }

  /** Task 1 holds mutex 0 and task 2 waits for it. */
  function OneWaits(): System {
    Trio(T(2, 1, 1, Idle), T(2, 2, 0, Waiting(0, true)), T(3, 3, 0, Idle), HeldOf(1, [Entry(ItemValue(2), 2)]), Free())
  }

  function ToOneWaits(): seq<Event> { [Take(1, 0), Look(1), Take(2, 0), Look(2), BlockOrRetry(2)] }

  lemma TakenByOne()
    ensures Reaches([Take(1, 0), Look(1)],
            Trio(T(1, 1, 1, Idle), T(2, 2, 0, Idle), T(3, 3, 0, Idle), HeldOf(1, []), Free()))
  {
    ShopIs();
    hide Reaches;
    var s := Trio(T(1, 1, 0, Idle), T(2, 2, 0, Idle), T(3, 3, 0, Idle), Free(), Free());
    TakesFree([], s, 1, 0);
    TrioIs(Taken(Goes(s, 1, Trying(0, false)), 1, 0), T(1, 1, 1, Idle), T(2, 2, 0, Idle), T(3, 3, 0, Idle),
        HeldOf(1, []), Free());
    assert [] + [Take(1, 0), Look(1)] == [Take(1, 0), Look(1)];
  }

  /** What blocking does when the holder itself is on no list. */
  lemma BlockedIs(s: System, t: Task, m: Id, h: Task)
    requires Inv(s) && Is(s, t, m) && Enabled(s, BlockOrRetry(t)) && s.tasks[t].phase.m == m
    requires s.mutexes[m].count == 0 && s.mutexes[m].holder == Some(h) && h in s.tasks && h != t
    requires forall k, i :: k in s.mutexes && 0 <= i < |s.mutexes[k].waiters| ==> s.mutexes[k].waiters[i].owner != h
    ensures var waits := s.tasks[t].(phase := Waiting(m, s.tasks[h].base < s.tasks[t].prio));
            var ws := InsertOrdered(s.mutexes[m].waiters, Entry(s.tasks[t].item, t));
            Step(s, BlockOrRetry(t))
            == System(s.tasks[h := Inherited(s.tasks[h], s.tasks[t].prio)][t := waits],
                s.mutexes[m := s.mutexes[m].(waiters := ws)])
  {
    RepricedElsewhere(s, h, Inherited(s.tasks[h], s.tasks[t].prio));
    hide Repriced, Inherited, InsertOrdered, Inv;
  }

  /** What a give does when somebody waits. */
  lemma GivenIs(s: System, t: Task, m: Id)
    requires Inv(s) && Enabled(s, Give(t, m)) && s.mutexes[m].count == 0 && s.mutexes[m].waiters != []
    requires s.mutexes[m].waiters[0].owner in s.tasks && s.mutexes[m].waiters[0].owner != t
    requires s.tasks[s.mutexes[m].waiters[0].owner].phase.Waiting? && s.tasks[t].held > 0
    ensures var ws := s.mutexes[m].waiters;
            var w := s.tasks[ws[0].owner];
            Step(s, Give(t, m))
            == System(s.tasks[t := Disinherited(s.tasks[t])][ws[0].owner := w.(phase := Trying(m, w.phase.inherited))],
                      s.mutexes[m := Mutex(s.mutexes[m].recursive, 1, None, 0, ws[1..])])
  {
    hide Inv;
    assert s.mutexes[m].waiters[..0] + s.mutexes[m].waiters[1..] == s.mutexes[m].waiters[1..];
  }

  /** Task 2 blocks behind task 1. */
  lemma SecondBehindFirst(held: nat, x1: Mutex)
    requires x1.waiters == []
    requires Inv(Trio(T(1, 1, 1, Idle), T(2, 2, held, Checked(0, false)), T(3, 3, 0, Idle), HeldOf(1, []), x1))
    ensures var s := Trio(T(1, 1, 1, Idle), T(2, 2, held, Checked(0, false)), T(3, 3, 0, Idle), HeldOf(1, []), x1);
            Enabled(s, BlockOrRetry(2))
            && Step(s, BlockOrRetry(2)) == Trio(T(2, 1, 1, Idle), T(2, 2, held, Waiting(0, true)), T(3, 3, 0, Idle),
                                                HeldOf(1, [Entry(ItemValue(2), 2)]), x1)
  {
    hide Step, Inv;
    var s := Trio(T(1, 1, 1, Idle), T(2, 2, held, Checked(0, false)), T(3, 3, 0, Idle), HeldOf(1, []), x1);
    BlockedIs(s, 2, 0, 1);
    TrioIs(Step(s, BlockOrRetry(2)), T(2, 1, 1, Idle), T(2, 2, held, Waiting(0, true)), T(3, 3, 0, Idle),
           HeldOf(1, [Entry(ItemValue(2), 2)]), x1);
  }

  /** Task 3 blocks behind task 1, ahead of task 2. */
  lemma ThirdBehindFirst()
    requires Inv(Goes(OneWaits(), 3, Checked(0, false)))
    ensures var s := Goes(OneWaits(), 3, Checked(0, false));
            Enabled(s, BlockOrRetry(3)) && Step(s, BlockOrRetry(3)) == TwoWait()
  {
    hide Step, Inv;
    var s := Goes(OneWaits(), 3, Checked(0, false));
    BlockedIs(s, 3, 0, 1);
    var ws := [Entry(ItemValue(3), 3), Entry(ItemValue(2), 2)];
    assert InsertOrdered([Entry(ItemValue(2), 2)], Entry(ItemValue(3), 3)) == ws;
    TrioIs(Step(s, BlockOrRetry(3)), T(3, 1, 1, Idle), T(2, 2, 0, Waiting(0, true)), T(3, 3, 0, Waiting(0, true)),
        HeldOf(1, ws), Free());
  }

  /** Task 1 gives, and task 3 is woken. */
  lemma FirstGives()
    requires Inv(TwoWait())
    ensures Enabled(TwoWait(), Give(1, 0)) && Step(TwoWait(), Give(1, 0)) == GivenUp()
  {
    hide Step, Inv;
    GivenIs(TwoWait(), 1, 0);
    TrioIs(Step(TwoWait(), Give(1, 0)), T(1, 1, 0, Idle), T(2, 2, 0, Waiting(0, true)), T(3, 3, 0, Trying(0, true)),
           Mutex(false, 1, None, 0, [Entry(ItemValue(2), 2)]), Free());
  }

  lemma SecondBlocks()
    ensures Reaches(ToOneWaits(), OneWaits())
  {
    TakenByOne();
    hide Reaches, Step, Enabled;
    var es, s := [Take(1, 0), Look(1)],
        Trio(T(1, 1, 1, Idle), T(2, 2, 0, Idle), T(3, 3, 0, Idle), HeldOf(1, []), Free());
    FindsHeld(es, s, 2, 0);
    var r := Trio(T(1, 1, 1, Idle), T(2, 2, 0, Checked(0, false)), T(3, 3, 0, Idle), HeldOf(1, []), Free());
    TrioIs(Goes(s, 2, Checked(0, false)), T(1, 1, 1, Idle), T(2, 2, 0, Checked(0, false)), T(3, 3, 0, Idle),
        HeldOf(1, []), Free());
    ReachedInv(es + [Take(2, 0), Look(2)], r);
    SecondBehindFirst(0, Free());
    Then(es + [Take(2, 0), Look(2)], r, BlockOrRetry(2), OneWaits());
    assert es + [Take(2, 0), Look(2)] + [BlockOrRetry(2)] == ToOneWaits();
  }

  /**
   * An explicit change of priority does not reach the holder: task 2 is raised
   * while it waits, and the holder stays below it.
   */
  lemma RaisedWhileWaiting()
    ensures Reaches(ToOneWaits(), OneWaits()) && HoldersHigh(OneWaits()) && Enabled(OneWaits(), SetPriority(2, 3))
    ensures !Guarded(OneWaits(), SetPriority(2, 3)) && !HoldersHigh(Step(OneWaits(), SetPriority(2, 3)))
  {
    hide Reaches, Inv, Step, Enabled, Guarded, HoldersHigh, OneWaits, ToOneWaits;
    SecondBlocks();
    ReachedInv(ToOneWaits(), OneWaits());
    RaiseUnguarded();
    StepHigh(OneWaits(), SetPriority(2, 3));
  }

  lemma RaiseUnguarded()
    requires Inv(OneWaits())
    ensures HoldersHigh(OneWaits()) && Enabled(OneWaits(), SetPriority(2, 3)) && !Guarded(OneWaits(), SetPriority(2, 3))
  {
    hide Inv;
    var s := OneWaits();
    assert s.mutexes[0].waiters[0].owner == 2;
    assert !SuitsAt(s, 2, 3, 0, s.mutexes[0].waiters[0].owner);
  }

  /** As `OneWaits`, with task 3 before task 2 on the list. */
  function TwoWait(): System {
    Trio(T(3, 1, 1, Idle), T(2, 2, 0, Waiting(0, true)), T(3, 3, 0, Waiting(0, true)),
         HeldOf(1, [Entry(ItemValue(3), 3), Entry(ItemValue(2), 2)]), Free())
  }

  lemma ThirdBlocks()
    ensures Reaches(ToOneWaits() + [Take(3, 0), Look(3), BlockOrRetry(3)], TwoWait())
  {
    SecondBlocks();
    hide Reaches, Step, Enabled, ToOneWaits;
    var es, s := ToOneWaits(), OneWaits();
    FindsHeld(es, s, 3, 0);
    var r := Goes(s, 3, Checked(0, false));
    ReachedInv(es + [Take(3, 0), Look(3)], r);
    ThirdBehindFirst();
    Then(es + [Take(3, 0), Look(3)], r, BlockOrRetry(3), TwoWait());
    assert es + [Take(3, 0), Look(3)] + [BlockOrRetry(3)] == es + [Take(3, 0), Look(3), BlockOrRetry(3)];
  }

  /** Task 1 gave the mutex, task 3 was woken for it, and task 1 is about to take it again. */
  function Regrabbed(): System {
    Trio(T(1, 1, 0, Trying(0, false)), T(2, 2, 0, Waiting(0, true)), T(3, 3, 0, Trying(0, true)),
         Mutex(false, 1, None, 0, [Entry(ItemValue(2), 2)]), Free())
  }

  function ToRegrabbed(): seq<Event> {
    ToOneWaits() + [Take(3, 0), Look(3), BlockOrRetry(3)] + [Give(1, 0)] + [Take(1, 0)]
  }

  /** As `Regrabbed`, before task 1 tries again. */
  function GivenUp(): System { Regrabbed().(tasks := Regrabbed().tasks[1 := T(1, 1, 0, Idle)]) }

  lemma TriesAgain()
    ensures Is(GivenUp(), 1, 0) && GivenUp().tasks[1].phase.Idle? && !GivenUp().mutexes[0].recursive
    ensures Goes(GivenUp(), 1, Trying(0, false)) == Regrabbed()
  {
  }

  lemma RegrabbedReached()
    ensures Reaches(ToRegrabbed(), Regrabbed())
  {
    hide Reaches, ToOneWaits, Step, Enabled, Regrabbed, TwoWait, GivenUp, Inv;
    ThirdBlocks();
    var es := ToOneWaits() + [Take(3, 0), Look(3), BlockOrRetry(3)];
    ReachedInv(es, TwoWait());
    FirstGives();
    Then(es, TwoWait(), Give(1, 0), GivenUp());
    TriesAgain();
    Tries(es + [Give(1, 0)], GivenUp(), 1, 0);
  }

  lemma RegrabbedOrderly()
    requires Inv(Regrabbed())
    ensures Orderly(Regrabbed()) && HoldersHigh(Regrabbed()) && !AtLeastWaiters(Regrabbed(), 1, 0)
  {
    hide Inv;
    var r := Regrabbed();
    assert r.mutexes[0].waiters[0].owner == 2;
  }

  /**
   * A take ahead of those who wait: the holder gives and takes the mutex again
   * before the task that was woken runs, and is below the one that still waits.
   */
  lemma TakenWhileOneWaits()
    ensures Reaches(ToRegrabbed(), Regrabbed()) && Orderly(Regrabbed()) && Enabled(Regrabbed(), Look(1))
    ensures !AtLeastWaiters(Regrabbed(), 1, 0)
    ensures !Orderly(Step(Regrabbed(), Look(1))) && !HoldersHigh(Step(Regrabbed(), Look(1)))
  {
    RegrabbedReached();
    ReachedInv(ToRegrabbed(), Regrabbed());
    RegrabbedOrderly();
    TakenOrderly(Regrabbed(), 1, 0);
    StepHigh(Regrabbed(), Look(1));
    hide Reaches, Orderly, HoldersHigh, Taken, AtLeastWaiters, Inv;
  }

  /** Task 2 holds mutex 1 and waits for mutex 0, which task 1 holds; task 3 is about to wait for mutex 1. */
  function Nested(): System {
    Trio(T(2, 1, 1, Idle), T(2, 2, 1, Waiting(0, true)), T(3, 3, 0, Checked(1, false)),
         HeldOf(1, [Entry(ItemValue(2), 2)]), HeldOf(2, []))
  }

  function ToNested(): seq<Event> {
    [Take(1, 0), Look(1), Take(2, 1), Look(2), Take(2, 0), Look(2), BlockOrRetry(2), Take(3, 1), Look(3)]
  }

  lemma SecondHolds()
    ensures Reaches([Take(1, 0), Look(1), Take(2, 1), Look(2)],
                    Trio(T(1, 1, 1, Idle), T(2, 2, 1, Idle), T(3, 3, 0, Idle), HeldOf(1, []), HeldOf(2, [])))
  {
    TakenByOne();
    hide Reaches;
    var es, s := [Take(1, 0), Look(1)],
        Trio(T(1, 1, 1, Idle), T(2, 2, 0, Idle), T(3, 3, 0, Idle), HeldOf(1, []), Free());
    TakesFree(es, s, 2, 1);
    TrioIs(Taken(Goes(s, 2, Trying(1, false)), 2, 1), T(1, 1, 1, Idle), T(2, 2, 1, Idle), T(3, 3, 0, Idle),
        HeldOf(1, []), HeldOf(2, []));
    assert es + [Take(2, 1), Look(2)] == [Take(1, 0), Look(1), Take(2, 1), Look(2)];
  }

  lemma SecondWaits()
    ensures Reaches([Take(1, 0), Look(1), Take(2, 1), Look(2), Take(2, 0), Look(2), BlockOrRetry(2)],
                    Trio(T(2, 1, 1, Idle), T(2, 2, 1, Waiting(0, true)), T(3, 3, 0, Idle),
                        HeldOf(1, [Entry(ItemValue(2), 2)]), HeldOf(2, [])))
  {
    SecondHolds();
    hide Reaches, Step, Enabled;
    var es := [Take(1, 0), Look(1), Take(2, 1), Look(2)];
    var s := Trio(T(1, 1, 1, Idle), T(2, 2, 1, Idle), T(3, 3, 0, Idle), HeldOf(1, []), HeldOf(2, []));
    FindsHeld(es, s, 2, 0);
    var r := Trio(T(1, 1, 1, Idle), T(2, 2, 1, Checked(0, false)), T(3, 3, 0, Idle), HeldOf(1, []), HeldOf(2, []));
    TrioIs(Goes(s, 2, Checked(0, false)), T(1, 1, 1, Idle), T(2, 2, 1, Checked(0, false)), T(3, 3, 0, Idle),
        HeldOf(1, []), HeldOf(2, []));
    ReachedInv(es + [Take(2, 0), Look(2)], r);
    SecondBehindFirst(1, HeldOf(2, []));
    Then(es + [Take(2, 0), Look(2)], r, BlockOrRetry(2), Step(r, BlockOrRetry(2)));
    assert es + [Take(2, 0), Look(2)] + [BlockOrRetry(2)]
        == [Take(1, 0), Look(1), Take(2, 1), Look(2), Take(2, 0), Look(2), BlockOrRetry(2)];
  }

  lemma NestedReached()
    ensures Reaches(ToNested(), Nested())
  {
    SecondWaits();
    hide Reaches;
    var es := [Take(1, 0), Look(1), Take(2, 1), Look(2), Take(2, 0), Look(2), BlockOrRetry(2)];
    var t1, t2, x0 := T(2, 1, 1, Idle), T(2, 2, 1, Waiting(0, true)), HeldOf(1, [Entry(ItemValue(2), 2)]);
    var s := Trio(t1, t2, T(3, 3, 0, Idle), x0, HeldOf(2, []));
    FindsHeld(es, s, 3, 1);
    TrioIs(Goes(s, 3, Checked(1, false)), t1, t2, T(3, 3, 0, Checked(1, false)), x0, HeldOf(2, []));
    assert es + [Take(3, 1), Look(3)] == ToNested();
  }

  lemma NestedUnguarded()
    requires Inv(Nested())
    ensures HoldersHigh(Nested()) && Enabled(Nested(), BlockOrRetry(3)) && !Guarded(Nested(), BlockOrRetry(3))
  {
    hide Inv;
    var r := Nested();
    assert r.mutexes[0].waiters[0].owner == 2;
    assert !SuitsAt(r, 2, 3, 0, r.mutexes[0].waiters[0].owner);
  }

  /**
   * Inheritance goes one holder far: task 3 lends its priority to task 2, which
   * waits for task 1, and task 1 stays below task 2.
   */
  lemma NestedWait()
    ensures Reaches(ToNested(), Nested()) && HoldersHigh(Nested()) && Enabled(Nested(), BlockOrRetry(3))
    ensures !Guarded(Nested(), BlockOrRetry(3)) && !HoldersHigh(Step(Nested(), BlockOrRetry(3)))
  {
    hide Reaches, Inv, Step, Enabled, Guarded, HoldersHigh, Nested, ToNested;
    NestedReached();
    ReachedInv(ToNested(), Nested());
    NestedUnguarded();
    StepHigh(Nested(), BlockOrRetry(3));
  }

  // ---------------------------------------------------------------------------
  // As the kernel runs them
  // ---------------------------------------------------------------------------

  /** uxPriority, uxBasePriority, uxMutexesHeld and the event item value of a task's control block. */
  class TaskControl {
    const task: Task
    var priority: Priority
    var basePriority: Priority
    var mutexesHeld: nat
    var eventItemValue: Tick

    constructor (task: Task, priority: Priority)
      ensures Valid() && this.task == task && View(Idle) == Tcb(priority, priority, 0, ItemValue(priority), Idle)
    {
      this.task, this.priority, basePriority, mutexesHeld := task, priority, priority, 0;
      eventItemValue := ItemValue(priority);
    }

    /** Above its base priority only while it holds a mutex. */
    ghost predicate Valid()
      reads this
    {
      basePriority <= priority && (priority != basePriority ==> mutexesHeld > 0)
    }

    ghost function View(phase: Phase): Tcb
      reads this
    {
      Tcb(priority, basePriority, mutexesHeld, eventItemValue, phase)
    }
  }

  /**
   * xTaskPriorityInherit: the holder gets at least the priority of the running
   * task; inheritance is reported exactly when its base priority is lower.
   */
  method PriorityInherit(holder: TaskControl?, current: TaskControl) returns (occurred: bool)
    requires holder != null ==> holder.Valid()
    modifies if holder == null then {} else {holder}
    ensures holder != null ==> holder.View(Idle) == Inherited(old(holder.View(Idle)), old(current.priority))
    ensures occurred <==> holder != null && holder.basePriority < old(current.priority)
  {
    occurred := false;
    if holder != null {
      if holder.priority < current.priority {
        holder.eventItemValue := MAX_PRIORITIES - current.priority;
        holder.priority := current.priority;
        occurred := true;
      } else if holder.basePriority < current.priority {
        occurred := true;
      }
    }
  }

  /**
   * xTaskPriorityDisinherit: the running task gives one of its mutexes; with
   * the last one it falls back to its base priority.
   */
  method PriorityDisinherit(holder: TaskControl) returns (switchRequired: bool)
    requires holder.Valid() && holder.mutexesHeld > 0
    modifies holder
    ensures holder.Valid() && holder.View(Idle) == Disinherited(old(holder.View(Idle)))
    ensures switchRequired <==> holder.priority != old(holder.priority)
  {
    switchRequired := false;
    holder.mutexesHeld := holder.mutexesHeld - 1;
    if holder.priority != holder.basePriority {
      if holder.mutexesHeld == 0 {
        holder.priority := holder.basePriority;
        holder.eventItemValue := MAX_PRIORITIES - holder.priority;
        switchRequired := true;
      }
    }
  }

  /**
   * vTaskPriorityDisinheritAfterTimeout: a holder of one mutex falls to its
   * base priority or to the highest that still waits.
   */
  method PriorityDisinheritAfterTimeout(holder: TaskControl?, highest: Priority)
    requires holder != null ==> holder.Valid() && holder.mutexesHeld > 0
    modifies if holder == null then {} else {holder}
    ensures holder != null ==> holder.Valid() && holder.View(Idle) == AfterTimeout(old(holder.View(Idle)), highest)
  {
    if holder != null {
      var toUse := if holder.basePriority < highest then highest else holder.basePriority;
      if holder.priority != toUse {
        if holder.mutexesHeld == 1 {
          holder.priority := toUse;
          holder.eventItemValue := MAX_PRIORITIES - toUse;
        }
      }
    }
  }

  /** The fields of Queue_t that a mutex uses. */
  class MutexState {
    const recursive: bool
    var count: nat
    var holder: TaskControl?
    var calls: nat
    var waiting: seq<Entry<Task>>

    /** Available exactly when nobody holds it; a holder's account includes it. */
    ghost predicate Valid()
      reads this, if holder == null then {} else {holder}
    {
      && count <= 1 && (count == 1 <==> holder == null)
      && (holder != null ==> holder.Valid() && holder.mutexesHeld > 0)
      && (calls > 0 ==> recursive && holder != null)
    }

    /** xQueueCreateMutex: created empty, then given once. */
    constructor (recursive: bool)
      ensures Valid() && count == 1 && this.recursive == recursive && waiting == []
    {
      this.recursive := recursive;
      count, holder, calls, waiting := 0, null, 0, [];
      new;
      count := count + 1;
    }

    /** The first critical section of xQueueSemaphoreTake. */
    method TryTake(current: TaskControl) returns (taken: bool)
      requires Valid() && current.Valid()
      modifies this`count, this`holder, current`mutexesHeld
      ensures Valid() && (taken <==> old(holder) == null)
      ensures taken ==> holder == current && current.mutexesHeld == old(current.mutexesHeld) + 1
      ensures !taken ==> holder == old(holder) && current.mutexesHeld == old(current.mutexesHeld)
    {
      taken := count > 0;
      if taken {
        count := count - 1;
        current.mutexesHeld := current.mutexesHeld + 1;
        holder := current;
      }
    }

    /** The part of xQueueSemaphoreTake in which the task goes on the list, if the mutex is still held. */
    method Block(current: TaskControl) returns (blocked: bool, inherited: bool)
      requires Valid() && current.Valid()
      modifies this`waiting, if holder == null then {} else {holder}
      ensures Valid() && holder == old(holder) && (blocked <==> holder != null)
      ensures blocked ==>
                && waiting == InsertOrdered(old(waiting), Entry(old(current.eventItemValue), current.task))
                && holder.priority == Max(old(holder.priority), current.priority)
                && (inherited <==> holder.basePriority < current.priority)
      ensures !blocked ==> waiting == old(waiting)
      ensures old(Sorted(waiting)) ==> Sorted(waiting)
    {
      blocked, inherited := count == 0, false;
      if blocked {
        inherited := PriorityInherit(holder, current);
        if Sorted(waiting) { InsertOrderedSorted(waiting, Entry(current.eventItemValue, current.task)); }
        waiting := InsertOrdered(waiting, Entry(current.eventItemValue, current.task));
      }
    }

    /** A take that timed out with the mutex still held. */
    method Fail(inherited: bool)
      requires Valid() && (forall i :: 0 <= i < |waiting| ==> 0 < waiting[i].key <= MAX_PRIORITIES)
      modifies if holder == null then {} else {holder}
      ensures Valid() && holder == old(holder)
      ensures holder != null && inherited && old(holder.mutexesHeld) == 1 && Sorted(waiting) ==>
                && holder.basePriority <= holder.priority
                && (forall i :: 0 <= i < |waiting| ==> MAX_PRIORITIES - waiting[i].key <= holder.priority)
                && (holder.priority == holder.basePriority ||
                    exists i :: 0 <= i < |waiting| && holder.priority == MAX_PRIORITIES - waiting[i].key)
      ensures holder != null && (!inherited || old(holder.mutexesHeld) > 1) ==> holder.priority == old(holder.priority)
    {
      if inherited {
        var highest: Priority := 0;
        if waiting != [] {
          highest := MAX_PRIORITIES - waiting[0].key;
        }
        PriorityDisinheritAfterTimeout(holder, highest);
        if Sorted(waiting) {
          forall i | 0 <= i < |waiting| ensures waiting[0].key <= waiting[i].key {
            if i > 0 { assert waiting[0].key <= waiting[i].key; }
          }
        }
      }
    }

    /** A give by the holder: it is available again, and the first task of the list is to be woken. */
    method Give(current: TaskControl) returns (given: bool, woken: Option<Task>)
      requires Valid() && (holder != null ==> holder == current)
      modifies this`count, this`holder, this`calls, this`waiting, current
      ensures Valid() && (given <==> old(holder) != null) && holder == null
      ensures given ==>
                && current.View(Idle) == Disinherited(old(current.View(Idle)))
                && woken == (if old(waiting) == [] then None else Some(old(waiting)[0].owner))
                && waiting == if old(waiting) == [] then [] else old(waiting)[1..]
      ensures !given ==> woken == None && waiting == old(waiting) && current.View(Idle) == old(current.View(Idle))
    {
      given, woken := count < 1, None;
      if given {
        var _ := PriorityDisinherit(current);
        holder, calls := null, 0;
        count := count + 1;
        if waiting != [] {
          woken, waiting := Some(waiting[0].owner), waiting[1..];
        }
      }
    }

    /** xQueueTakeMutexRecursive, when it does not wait. */
    method TakeRecursive(current: TaskControl) returns (taken: bool)
      requires Valid() && current.Valid() && recursive && calls + 1 < WORD
      modifies this`count, this`holder, this`calls, current`mutexesHeld
      ensures Valid() && (taken <==> old(holder) == null || old(holder) == current)
      ensures taken ==> holder == current && calls == old(calls) + 1
      ensures taken ==> current.mutexesHeld == old(current.mutexesHeld) + if old(holder) == null then 1 else 0
      ensures !taken ==> holder == old(holder) && calls == old(calls) && current.mutexesHeld == old(current.mutexesHeld)
    {
      if holder == current {
        calls := calls + 1;
        taken := true;
      } else {
        taken := TryTake(current);
        if taken {
          calls := calls + 1;
        }
      }
    }

    /** xQueueGiveMutexRecursive: only the give that closes the last open call releases the mutex. */
    method GiveRecursive(current: TaskControl) returns (given: bool, woken: Option<Task>)
      requires Valid() && recursive && (holder == current ==> calls > 0)
      modifies this`count, this`holder, this`calls, this`waiting, current
      ensures Valid() && (given <==> old(holder) == current)
      ensures given && old(calls) > 1 ==> holder == current && calls == old(calls) - 1 && waiting == old(waiting)
                                          && current.View(Idle) == old(current.View(Idle))
      ensures given && old(calls) == 1 ==> holder == null && calls == 0 && count == 1
                                           && current.View(Idle) == Disinherited(old(current.View(Idle)))
      ensures !given ==> holder == old(holder) && calls == old(calls) && current.View(Idle) == old(current.View(Idle))
    {
      given, woken := holder == current, None;
      if given {
        calls := calls - 1;
        if calls == 0 {
          var _, w := Give(current);
          woken := w;
        }
      }
    }
  }
}
