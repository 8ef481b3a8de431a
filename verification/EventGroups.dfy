/**
 * Event groups (event_groups.c): tasks wait for bits, all or any of them, and a
 * set releases those that are satisfied in one walk over the waiting list.
 */
module EventGroups {
  import opened Ticks
  import opened Lists
  import H = HeapLists

  type Word = bv32

  const CLEAR_ON_EXIT: Word := 0x0100_0000
  const UNBLOCKED_BY_SET: Word := 0x0200_0000
  const WAIT_FOR_ALL: Word := 0x0400_0000
  const IN_USE: Word := 0x8000_0000
  /** eventEVENT_BITS_CONTROL_BYTES: the part of a word that holds no event bits. */
  const CONTROL: Word := 0xff00_0000

  function Or(a: Word, b: Word): Word { a | b }

  function Without(a: Word, b: Word): Word { a & !b }

  function And(a: Word, b: Word): Word { a & b }

  /** prvTestWaitCondition */
  predicate Met(bits: Word, wanted: Word, all: bool) {
    if all then bits & wanted == wanted else bits & wanted != 0
  }

  // ---------------------------------------------------------------------------
  // What a waiting task's event item says
  // ---------------------------------------------------------------------------

  /** What a task asked for. */
  datatype Call = Call(wanted: Word, clear: bool, all: bool)

  predicate IsBits(w: Word) { w & CONTROL == 0 }

  /** The value stored in the event item of a task that blocks. */
  function ItemValue(c: Call): Word {
    c.wanted | (if c.clear then CLEAR_ON_EXIT else 0) | (if c.all then WAIT_FOR_ALL else 0) | IN_USE
  }

  function Wanted(value: Word): Word { value & !CONTROL }

  predicate Clears(value: Word) { value & CLEAR_ON_EXIT != 0 }

  /** The test in the loop of a set, on the value of an item. */
  predicate Matches(bits: Word, value: Word) {
    Met(bits, Wanted(value), value & WAIT_FOR_ALL != 0)
  }

  /** What was asked can be read back from the item; the mark of a release is not in it. */
  lemma ItemValueSplits(c: Call)
    requires IsBits(c.wanted)
    ensures Wanted(ItemValue(c)) == c.wanted && Clears(ItemValue(c)) == c.clear
    ensures (ItemValue(c) & WAIT_FOR_ALL != 0) == c.all && ItemValue(c) & UNBLOCKED_BY_SET == 0
    ensures forall bits: Word :: Matches(bits, ItemValue(c)) == Met(bits, c.wanted, c.all)
  {
  }

  /** The value with which a released task leaves the list. */
  function ReleaseValue(bits: Word): Word { bits | UNBLOCKED_BY_SET | IN_USE }

  lemma ReleaseValueSplits(bits: Word)
    requires IsBits(bits)
    ensures Wanted(ReleaseValue(bits)) == bits && ReleaseValue(bits) & UNBLOCKED_BY_SET != 0
  {
  }

  /** Fewer bits satisfy no more. */
  lemma MetMonotone(bits: Word, cleared: Word, wanted: Word, all: bool)
    requires Met(Without(bits, cleared), wanted, all)
    ensures Met(bits, wanted, all)
  {
  }

  // ---------------------------------------------------------------------------
  // A set
  // ---------------------------------------------------------------------------

  datatype Waiter = Waiter(task: Task, value: Word)

  /** The waiters a set that makes the bits `bits` leaves on the list. */
  function Kept(ws: seq<Waiter>, bits: Word): (r: seq<Waiter>)
    ensures |r| <= |ws|
  {
    if ws == [] then [] else
      var last := ws[|ws| - 1];
      Kept(ws[..|ws| - 1], bits) + if Matches(bits, last.value) then [] else [last]
  }

  /** The bits that a waiter asks to be cleared, if the set releases it. */
  function Asked(bits: Word, value: Word): Word {
    if Matches(bits, value) && Clears(value) then Wanted(value) else 0
  }

  /** The bits that the released waiters ask to be cleared. */
  function ToClear(ws: seq<Waiter>, bits: Word): Word {
    if ws == [] then 0 else Or(ToClear(ws[..|ws| - 1], bits), Asked(bits, ws[|ws| - 1].value))
  }

  predicate Releases(ws: seq<Waiter>, bits: Word, t: Task) {
    exists i :: 0 <= i < |ws| && ws[i].task == t && Matches(bits, ws[i].value)
  }

  /** The list keeps exactly the waiters that are not satisfied. */
  lemma {:induction false} KeptExactly(ws: seq<Waiter>, bits: Word)
    ensures forall w :: w in Kept(ws, bits) <==> w in ws && !Matches(bits, w.value)
  {
    if ws != [] {
      hide Matches;
      var front := ws[..|ws| - 1];
      KeptExactly(front, bits);
      assert ws == front + [ws[|ws| - 1]];
    }
  }

  /** `m` has exactly one bit. */
  predicate IsBit(m: Word) { m != 0 && m & (m - 1) == 0 }

  predicate Has(w: Word, m: Word) { And(w, m) != 0 }

  lemma HasOr(x: Word, y: Word, m: Word)
    ensures Has(Or(x, y), m) <==> Has(x, m) || Has(y, m)
  {
    hide And, Or;
    OrMasked(x, y, m);
    OrNone(And(x, m), And(y, m));
  }

  lemma OrMasked(x: Word, y: Word, m: Word)
    ensures And(Or(x, y), m) == Or(And(x, m), And(y, m))
  {
  }

  lemma OrNone(x: Word, y: Word)
    ensures Or(x, y) == 0 <==> x == 0 && y == 0
  {
  }

  lemma HasWithout(x: Word, y: Word, m: Word)
    requires IsBit(m)
    ensures Has(Without(x, y), m) <==> Has(x, m) && !Has(y, m)
  {
    hide IsBit, And, Without;
    OneBit(y, m);
    if And(y, m) == 0 { MaskedIn(x, y, m); } else { MaskedOut(x, y, m); }
  }

  lemma OneBit(y: Word, m: Word)
    requires IsBit(m)
    ensures m != 0 && (And(y, m) == 0 || And(y, m) == m)
  {
  }

  lemma MaskedIn(x: Word, y: Word, m: Word)
    requires And(y, m) == 0
    ensures And(Without(x, y), m) == And(x, m)
  {
  }

  lemma MaskedOut(x: Word, y: Word, m: Word)
    requires And(y, m) == m
    ensures And(Without(x, y), m) == 0
  {
  }

  lemma HasAsked(bits: Word, value: Word, m: Word)
    ensures Has(Asked(bits, value), m) <==> Matches(bits, value) && Clears(value) && Has(Wanted(value), m)
  {
    HasNone(m);
    hide Matches, Clears, Wanted, Has;
  }

  lemma HasNone(m: Word)
    ensures !Has(0, m)
  {
  }

  /** A bit is to be cleared exactly when some released waiter wanted it and asked for clearing. */
  lemma {:induction false} ClearsExactly(ws: seq<Waiter>, bits: Word, m: Word)
    ensures Has(ToClear(ws, bits), m) <==> exists i :: 0 <= i < |ws| && Has(Asked(bits, ws[i].value), m)
  {
    hide Asked, Has, Or;
    if ws == [] {
      HasNone(m);
    } else {
      var front, v := ws[..|ws| - 1], ws[|ws| - 1].value;
      ClearsExactly(front, bits, m);
      HasOr(ToClear(front, bits), Asked(bits, v), m);
      assert forall i :: 0 <= i < |front| ==> ws[i] == front[i];
    }
  }

  // ---------------------------------------------------------------------------
  // The group
  // ---------------------------------------------------------------------------

  /** `woken`: the event item values of tasks that left the list and have not run yet. */
  datatype Group = Group(bits: Word, waiting: seq<Waiter>, woken: map<Task, Word>, calls: map<Task, Call>)

  datatype Event =
    | Set(added: Word)
    | Clear(clear: Word)
    | Wait(task: Task, call: Call, block: bool)
    | Sync(task: Task, added: Word, wanted: Word, block: bool)
    | TimeOut(task: Task)   // the kernel takes the task off the list
    | Resume(task: Task)    // a task that left the list runs again

  /** xEventGroupSetBits */
  function SetBits(g: Group, added: Word): Group {
    var all := Or(g.bits, added);
    Group(Without(all, ToClear(g.waiting, all)),
          Kept(g.waiting, all),
          map t | t in g.calls && (t in g.woken || Releases(g.waiting, all, t)) ::
            if Releases(g.waiting, all, t) then ReleaseValue(all) else g.woken[t],
          g.calls)
  }

  function Block(g: Group, t: Task, c: Call): Group {
    g.(waiting := g.waiting + [Waiter(t, ItemValue(c))], calls := g.calls[t := c])
  }

  /** xEventGroupWaitBits, until it returns or blocks. */
  function WaitBits(g: Group, t: Task, c: Call, block: bool): Group {
    if Met(g.bits, c.wanted, c.all) then
      if c.clear then g.(bits := Without(g.bits, c.wanted)) else g
    else if !block then g
    else Block(g, t, c)
  }

  /** xEventGroupSync, until it returns or blocks. */
  function SyncBits(g: Group, t: Task, added: Word, wanted: Word, block: bool): Group {
    var s := SetBits(g, added);
    if Met(Or(g.bits, added), wanted, true) then s.(bits := Without(s.bits, wanted))
    else if block then Block(s, t, Call(wanted, true, true))
    else s
  }

  function Place(ws: seq<Waiter>, t: Task): (i: nat)
    requires exists i :: 0 <= i < |ws| && ws[i].task == t
    ensures i < |ws| && ws[i].task == t
  {
    if ws[|ws| - 1].task == t then |ws| - 1 else Place(ws[..|ws| - 1], t)
  }

  predicate IsWaiting(g: Group, t: Task) {
    exists i :: 0 <= i < |g.waiting| && g.waiting[i].task == t
  }

  /** A timeout takes the task off the list and leaves the value of its event item alone. */
  function TimedOut(g: Group, t: Task): Group
    requires IsWaiting(g, t)
  {
    var i := Place(g.waiting, t);
    g.(waiting := g.waiting[..i] + g.waiting[i + 1..], woken := g.woken[t := g.waiting[i].value])
  }

  /** The value the blocked call returns. */
  function Returned(g: Group, t: Task): Word
    requires t in g.woken
  {
    Wanted(if g.woken[t] & UNBLOCKED_BY_SET != 0 then g.woken[t] else g.bits)
  }

  /** The end of a call that blocked: after a timeout the bits are looked at once more. */
  function Resumed(g: Group, t: Task): Group
    requires t in g.woken && t in g.calls
  {
    var c := g.calls[t];
    var late := g.woken[t] & UNBLOCKED_BY_SET == 0 && Met(g.bits, c.wanted, c.all) && c.clear;
    g.(bits := if late then Without(g.bits, c.wanted) else g.bits, woken := g.woken - {t}, calls := g.calls - {t})
  }

  predicate Enabled(g: Group, e: Event) {
    match e
    case Set(added) => IsBits(added)
    case Clear(clear) => IsBits(clear)
    case Wait(t, c, _) => t !in g.calls && IsBits(c.wanted) && c.wanted != 0
    case Sync(t, added, wanted, _) => t !in g.calls && IsBits(added) && IsBits(wanted) && wanted != 0
    case TimeOut(t) => IsWaiting(g, t)
    case Resume(t) => t in g.woken && t in g.calls
  }

  function Step(g: Group, e: Event): Group
    requires Enabled(g, e)
  {
    match e
    case Set(added) => SetBits(g, added)
    case Clear(clear) => g.(bits := Without(g.bits, clear))
    case Wait(t, c, block) => WaitBits(g, t, c, block)
    case Sync(t, added, wanted, block) => SyncBits(g, t, added, wanted, block)
    case TimeOut(t) => TimedOut(g, t)
    case Resume(t) => Resumed(g, t)
  }

  // ---------------------------------------------------------------------------
  // The invariant
  // ---------------------------------------------------------------------------

  predicate Distinct(ws: seq<Waiter>) {
    forall i, j :: 0 <= i < j < |ws| ==> ws[i].task != ws[j].task
  }

  /** A waiter on the list: its item says what it asked for, and that is not satisfied. */
  predicate WaiterOk(g: Group, w: Waiter) {
    && w.task in g.calls && w.task !in g.woken
    && w.value == ItemValue(g.calls[w.task])
    && !Met(g.bits, g.calls[w.task].wanted, g.calls[w.task].all)
  }

  /** A task that left the list: released with bits that satisfy it, or timed out with its item as it was. */
  predicate WokenOk(value: Word, c: Call) {
    if value & UNBLOCKED_BY_SET != 0 then IsBits(c.wanted) && Met(Wanted(value), c.wanted, c.all)
    else value == ItemValue(c)
  }

  ghost predicate Sound(g: Group) {
    && IsBits(g.bits)
    && Distinct(g.waiting)
    && (forall w :: w in g.waiting ==> WaiterOk(g, w))
    && (forall t :: t in g.woken ==> t in g.calls && WokenOk(g.woken[t], g.calls[t]))
    && (forall t :: t in g.calls ==> IsBits(g.calls[t].wanted) && g.calls[t].wanted != 0)
  }

  /** No task that blocked is lost: it is on the list, or it left the list and will run. */
  ghost predicate Tracked(g: Group) {
    forall t :: t in g.calls ==> IsWaiting(g, t) || t in g.woken
  }

  ghost predicate Inv(g: Group) { Sound(g) && Tracked(g) }

  lemma {:induction false} KeptDistinct(ws: seq<Waiter>, bits: Word)
    requires Distinct(ws)
    ensures Distinct(Kept(ws, bits))
  {
    if ws != [] {
      hide Matches;
      var front := ws[..|ws| - 1];
      KeptDistinct(front, bits);
      KeptExactly(front, bits);
      forall i | 0 <= i < |Kept(front, bits)| ensures Kept(front, bits)[i].task != ws[|ws| - 1].task {
        assert Kept(front, bits)[i] in front;
      }
    }
  }

  lemma WaiterAt(g: Group, t: Task) returns (w: Waiter)
    requires IsWaiting(g, t)
    ensures w in g.waiting && w.task == t
  {
    var i :| 0 <= i < |g.waiting| && g.waiting[i].task == t;
    w := g.waiting[i];
  }

  lemma WaitsFor(g: Group, w: Waiter)
    requires w in g.waiting
    ensures IsWaiting(g, w.task)
  {
    var i :| 0 <= i < |g.waiting| && g.waiting[i] == w;
  }

  /** Whether a set releases a task is whether it satisfies what the task asked for. */
  lemma ReleasesSatisfied(g: Group, all: Word, w: Waiter)
    requires Sound(g) && w in g.waiting
    ensures Matches(all, w.value) == Met(all, g.calls[w.task].wanted, g.calls[w.task].all)
    ensures Releases(g.waiting, all, w.task) == Matches(all, w.value)
  {
    hide Met, ItemValue, Wanted, IsBits;
    assert WaiterOk(g, w);
    ItemValueSplits(g.calls[w.task]);
    hide Matches;
    var i :| 0 <= i < |g.waiting| && g.waiting[i] == w;
    if Releases(g.waiting, all, w.task) {
      var j :| 0 <= j < |g.waiting| && g.waiting[j].task == w.task && Matches(all, g.waiting[j].value);
      assert i == j;
    }
  }

  lemma ReleasesWaiter(g: Group, all: Word, t: Task) returns (w: Waiter)
    requires Releases(g.waiting, all, t)
    ensures w in g.waiting && w.task == t && Matches(all, w.value)
  {
    var i :| 0 <= i < |g.waiting| && g.waiting[i].task == t && Matches(all, g.waiting[i].value);
    w := g.waiting[i];
  }

  /**
   * A set releases exactly the waiters that the old bits with the new ones
   * satisfy: they leave the list, each with the same pre-clear bits in its
   * event item; the others stay, in order.
   */
  lemma SetReleases(g: Group, added: Word, w: Waiter)
    requires Sound(g) && w in g.waiting
    ensures var all, s := Or(g.bits, added), SetBits(g, added);
            if Met(all, g.calls[w.task].wanted, g.calls[w.task].all)
            then !IsWaiting(s, w.task) && w.task in s.woken && s.woken[w.task] == ReleaseValue(all)
            else w in s.waiting && w.task !in s.woken
  {
    hide Or, Without, Met, ReleaseValue, ToClear, ItemValue, Wanted, IsBits, Matches, Kept;
    var all, s := Or(g.bits, added), SetBits(g, added);
    KeptExactly(g.waiting, all);
    ReleasesSatisfied(g, all, w);
    assert WaiterOk(g, w);
    if Met(all, g.calls[w.task].wanted, g.calls[w.task].all) && IsWaiting(s, w.task) {
      var v := WaiterAt(s, w.task);
      SameWaiter(g.waiting, v, w);
      assert false;
    }
  }

  /** A task that had left the list keeps its value; only waiting tasks are woken. */
  lemma SetWakes(g: Group, added: Word, t: Task)
    requires Sound(g)
    ensures var s := SetBits(g, added);
            && (t in g.woken ==> t in s.woken && s.woken[t] == g.woken[t])
            && (t in s.woken && t !in g.woken ==>
                  && IsWaiting(g, t) && t in g.calls
                  && s.woken[t] == ReleaseValue(Or(g.bits, added))
                  && Met(Or(g.bits, added), g.calls[t].wanted, g.calls[t].all))
  {
    hide Or, Without, Met, ReleaseValue, ToClear, ItemValue, Wanted, IsBits, Matches, Kept;
    var all := Or(g.bits, added);
    if Releases(g.waiting, all, t) {
      var w := ReleasesWaiter(g, all, t);
      assert WaiterOk(g, w);
      WaitsFor(g, w);
      ReleasesSatisfied(g, all, w);
    }
  }

  lemma SameWaiter(ws: seq<Waiter>, v: Waiter, w: Waiter)
    requires Distinct(ws) && v in ws && w in ws && v.task == w.task
    ensures v == w
  {
  }

  /** The set releases the waiter, which asked for the bits of `m` and for clearing. */
  predicate ReleasedToClear(g: Group, all: Word, m: Word, w: Waiter) {
    w.task in g.calls && Met(all, g.calls[w.task].wanted, g.calls[w.task].all)
    && g.calls[w.task].clear && Has(g.calls[w.task].wanted, m)
  }

  /** After a set, a bit is present exactly when it was or is set and no released waiter had it cleared. */
  lemma SetLeaves(g: Group, added: Word, m: Word)
    requires Sound(g) && IsBit(m)
    ensures Has(SetBits(g, added).bits, m) <==>
              (Has(g.bits, m) || Has(added, m))
              && !exists w :: w in g.waiting && ReleasedToClear(g, Or(g.bits, added), m, w)
  {
    hide Or, Without, Met, ToClear, ItemValue, Asked, IsBit, IsBits, Kept, Has, Sound, ReleasedToClear, Releases,
        ReleaseValue;
    var all := Or(g.bits, added);
    assert SetBits(g, added).bits == Without(all, ToClear(g.waiting, all));
    hide SetBits;
    HasOr(g.bits, added, m);
    HasWithout(all, ToClear(g.waiting, all), m);
    ClearsExactly(g.waiting, all, m);
    forall i | 0 <= i < |g.waiting|
      ensures Has(Asked(all, g.waiting[i].value), m) == ReleasedToClear(g, all, m, g.waiting[i])
    {
      AskedByWaiter(g, all, m, g.waiting[i]);
    }
  }

  lemma AskedByWaiter(g: Group, all: Word, m: Word, w: Waiter)
    requires Sound(g) && w in g.waiting
    ensures Has(Asked(all, w.value), m) == ReleasedToClear(g, all, m, w)
  {
    hide Met, ItemValue, Asked, IsBits, Has, Matches, Clears, Wanted;
    assert WaiterOk(g, w);
    ItemValueSplits(g.calls[w.task]);
    HasAsked(all, w.value, m);
  }

  /** Clearing event bits leaves event bits. */
  lemma BitsStay(a: Word, b: Word)
    requires IsBits(a)
    ensures IsBits(Without(a, b)) && (IsBits(b) ==> IsBits(Or(a, b)))
  {
  }

  lemma SetSound(g: Group, added: Word)
    requires Sound(g) && IsBits(added)
    ensures Sound(SetBits(g, added))
  {
    hide Or, Without, Met, ItemValue, Wanted, ReleaseValue, Kept, ToClear, Releases, IsBits;
    var all, s := Or(g.bits, added), SetBits(g, added);
    BitsStay(g.bits, added);
    BitsStay(all, ToClear(g.waiting, all));
    ReleaseValueSplits(all);
    KeptDistinct(g.waiting, all);
    KeptExactly(g.waiting, all);
    forall w | w in s.waiting ensures WaiterOk(s, w) {
      assert WaiterOk(g, w);
      SetReleases(g, added, w);
      var c := g.calls[w.task];
      ReleasesSatisfied(g, all, w);
      if Met(s.bits, c.wanted, c.all) { MetMonotone(all, ToClear(g.waiting, all), c.wanted, c.all); }
    }
    forall t | t in s.woken ensures t in s.calls && WokenOk(s.woken[t], s.calls[t]) {
      SetWakes(g, added, t);
    }
  }

  lemma SetTracked(g: Group, added: Word)
    requires Inv(g)
    ensures Tracked(SetBits(g, added))
  {
    var s := SetBits(g, added);
    hide SetBits, Or, Without, Met, ItemValue, Wanted, ReleaseValue, Kept, ToClear, Releases, IsBits;
    assert s.calls == g.calls by { SetCalls(g, added); }
    forall t | t in s.calls ensures IsWaiting(s, t) || t in s.woken {
      if t in g.woken {
        SetWakes(g, added, t);
      } else {
        var w := WaiterAt(g, t);
        SetReleases(g, added, w);
        if w in s.waiting { WaitsFor(s, w); }
      }
    }
  }

  lemma SetCalls(g: Group, added: Word)
    ensures SetBits(g, added).calls == g.calls
  {
  }

  /** Clearing bits satisfies nobody. */
  lemma ClearInv(g: Group, clear: Word)
    requires Inv(g)
    ensures Inv(g.(bits := Without(g.bits, clear)))
  {
    hide Or, Without, Met, ItemValue, Wanted, IsBits;
    var c := g.(bits := Without(g.bits, clear));
    BitsStay(g.bits, clear);
    forall w | w in c.waiting ensures WaiterOk(c, w) {
      assert WaiterOk(g, w);
      if Met(c.bits, g.calls[w.task].wanted, g.calls[w.task].all) {
        MetMonotone(g.bits, clear, g.calls[w.task].wanted, g.calls[w.task].all);
      }
    }
    forall t | t in c.calls ensures IsWaiting(c, t) || t in c.woken {
      if IsWaiting(g, t) {
        var w := WaiterAt(g, t);
        WaitsFor(c, w);
      }
    }
  }

  lemma BlockSound(g: Group, t: Task, c: Call)
    requires Sound(g) && t !in g.calls && IsBits(c.wanted) && c.wanted != 0 && !Met(g.bits, c.wanted, c.all)
    ensures Sound(Block(g, t, c))
  {
    hide Met, ItemValue, Wanted, IsBits;
    var b := Block(g, t, c);
    forall i | 0 <= i < |g.waiting| ensures g.waiting[i].task != t {
      assert WaiterOk(g, g.waiting[i]);
    }
    forall w | w in b.waiting ensures WaiterOk(b, w) {
      if w in g.waiting { assert WaiterOk(g, w); }
    }
  }

  lemma BlockTracked(g: Group, t: Task, c: Call)
    requires Tracked(g)
    ensures Tracked(Block(g, t, c))
  {
    hide ItemValue;
    var b := Block(g, t, c);
    forall u | u in b.calls ensures IsWaiting(b, u) || u in b.woken {
      if u == t {
        WaitsFor(b, Waiter(t, ItemValue(c)));
      } else if u !in g.woken {
        var w := WaiterAt(g, u);
        WaitsFor(b, w);
      }
    }
  }

  lemma TimedOutSound(g: Group, t: Task)
    requires Sound(g) && IsWaiting(g, t)
    ensures Sound(TimedOut(g, t)) && !IsWaiting(TimedOut(g, t), t)
  {
    hide Met, ItemValue, Wanted, IsBits, Place;
    var i, h := Place(g.waiting, t), TimedOut(g, t);
    var gone := g.waiting[i];
    assert gone in g.waiting && WaiterOk(g, gone);
    ItemValueSplits(g.calls[t]);
    forall w | w in h.waiting ensures WaiterOk(h, w) && w.task != t {
      assert WaiterOk(g, w);
    }
    if IsWaiting(h, t) {
      var w := WaiterAt(h, t);
      assert false;
    }
  }

  lemma TimedOutTracked(g: Group, t: Task)
    requires Tracked(g) && IsWaiting(g, t)
    ensures Tracked(TimedOut(g, t))
  {
    var i, h := Place(g.waiting, t), TimedOut(g, t);
    hide Place;
    forall u | u in h.calls ensures IsWaiting(h, u) || u in h.woken {
      if u !in h.woken {
        var w := WaiterAt(g, u);
        assert w in h.waiting;
        WaitsFor(h, w);
      }
    }
  }

  lemma ResumedInv(g: Group, t: Task)
    requires Inv(g) && t in g.woken
    ensures Inv(Resumed(g, t))
  {
    hide Met, ItemValue, Wanted, IsBits, Without;
    var c, r := g.calls[t], Resumed(g, t);
    var h := g.(bits := r.bits);
    ClearInv(g, c.wanted);
    forall w | w in r.waiting ensures WaiterOk(r, w) {
      assert WaiterOk(h, w);
    }
    forall u | u in r.calls ensures IsWaiting(r, u) || u in r.woken {
      if u !in r.woken {
        var w := WaiterAt(h, u);
        WaitsFor(r, w);
      }
    }
  }

  lemma SyncInv(g: Group, t: Task, added: Word, wanted: Word, block: bool)
    requires Inv(g) && Enabled(g, Sync(t, added, wanted, block))
    ensures Inv(SyncBits(g, t, added, wanted, block))
  {
    var s, all := SetBits(g, added), Or(g.bits, added);
    SetCalls(g, added);
    SetSound(g, added);
    SetTracked(g, added);
    ClearInv(s, wanted);
    if Met(s.bits, wanted, true) {
      MetMonotone(all, ToClear(g.waiting, all), wanted, true);
    }
    hide Met, Kept, ToClear, Releases, Or, Without, ReleaseValue, IsBits, SetBits, Sound, Tracked;
    if !Met(all, wanted, true) && block {
      BlockSound(s, t, Call(wanted, true, true));
      BlockTracked(s, t, Call(wanted, true, true));
    }
  }

  lemma StepInv(g: Group, e: Event)
    requires Inv(g) && Enabled(g, e)
    ensures Inv(Step(g, e))
  {
    match e
    case Set(added) => SetSound(g, added); SetTracked(g, added);
    case Clear(clear) => ClearInv(g, clear);
    case Wait(t, c, block) =>
      ClearInv(g, c.wanted);
      hide Met, Without, IsBits;
      if !Met(g.bits, c.wanted, c.all) && block { BlockSound(g, t, c); BlockTracked(g, t, c); }
    case Sync(t, added, wanted, block) => SyncInv(g, t, added, wanted, block);
    case TimeOut(t) => TimedOutSound(g, t); TimedOutTracked(g, t);
    case Resume(t) => ResumedInv(g, t);
  }

  // ---------------------------------------------------------------------------
  // Every run
  // ---------------------------------------------------------------------------

  /** xEventGroupCreate */
  function Created(): (g: Group)
    ensures Inv(g)
  {
    Group(0, [], map[], map[])
  }

  predicate RunEnabled(g: Group, es: seq<Event>)
    decreases |es|
  {
    es == [] || (Enabled(g, es[0]) && RunEnabled(Step(g, es[0]), es[1..]))
  }

  function Run(g: Group, es: seq<Event>): Group
    requires RunEnabled(g, es)
    decreases |es|
  {
    if es == [] then g else Run(Step(g, es[0]), es[1..])
  }

  lemma {:induction false} RunInv(g: Group, es: seq<Event>)
    requires Inv(g) && RunEnabled(g, es)
    ensures Inv(Run(g, es))
    decreases |es|
  {
    if es != [] {
      StepInv(g, es[0]);
      RunInv(Step(g, es[0]), es[1..]);
    }
  }

  /** In every reachable state no blocked waiter's condition is satisfied by the bits, and none waits twice. */
  lemma NobodyMissed(es: seq<Event>)
    requires RunEnabled(Created(), es)
    ensures var g := Run(Created(), es);
            && (forall w :: w in g.waiting ==>
                  w.task in g.calls && !Met(g.bits, g.calls[w.task].wanted, g.calls[w.task].all))
            && Distinct(g.waiting)
  {
    RunInv(Created(), es);
  }

  /** In every reachable state a call released by a set returns bits that satisfy what it asked for. */
  lemma ReleasedSatisfied(es: seq<Event>, t: Task)
    requires RunEnabled(Created(), es)
    ensures var g := Run(Created(), es);
            t in g.woken ==>
              && t in g.calls
              && (g.woken[t] & UNBLOCKED_BY_SET != 0 ==> Met(Returned(g, t), g.calls[t].wanted, g.calls[t].all))
  {
    hide Met, Wanted, ItemValue;
    RunInv(Created(), es);
  }

  /** All tasks that one set releases see the same bits: the old ones with the new ones, before any clearing. */
  lemma SameBitsSeen(g: Group, added: Word, t: Task)
    requires Inv(g) && IsBits(added) && IsWaiting(g, t) && !IsWaiting(SetBits(g, added), t)
    ensures var s := SetBits(g, added); t in s.woken && Returned(s, t) == Or(g.bits, added)
  {
    var w := WaiterAt(g, t);
    SetReleases(g, added, w);
    BitsStay(g.bits, added);
    ReleaseValueSplits(Or(g.bits, added));
    var s := SetBits(g, added);
    hide SetBits, Or, Without, Met, Wanted, ReleaseValue, ItemValue, IsBits;
    if w in s.waiting { WaitsFor(s, w); }
  }

  /**
   * A rendezvous: the sync that completes the bits releases everyone who waits
   * for them and leaves none of them set.
   */
  lemma RendezvousCompletes(g: Group, t: Task, added: Word, wanted: Word, block: bool, u: Task)
    requires Inv(g) && Enabled(g, Sync(t, added, wanted, block)) && Met(Or(g.bits, added), wanted, true)
    ensures var s := Step(g, Sync(t, added, wanted, block));
            && !Has(s.bits, wanted)
            && (IsWaiting(g, u) && u in g.calls && g.calls[u] == Call(wanted, true, true) ==>
                  !IsWaiting(s, u) && u in s.woken)
            && t !in s.calls
  {
    var s, r := SetBits(g, added), SyncBits(g, t, added, wanted, block);
    hide SetBits, Or, Without, Met, Wanted, ReleaseValue, ItemValue, IsBits, Tracked, Has;
    SetCalls(g, added);
    NoneLeft(s.bits, wanted);
    if IsWaiting(g, u) {
      var w := WaiterAt(g, u);
      SetReleases(g, added, w);
      SameWaiters(s, r, u);
    }
  }

  lemma SameWaiters(g: Group, h: Group, u: Task)
    requires g.waiting == h.waiting
    ensures IsWaiting(g, u) == IsWaiting(h, u)
  {
  }

  /**
   * A call that asks for clearing and returns because its bits are there, at
   * once or on a last look after a timeout, leaves none of them set; any other
   * such return leaves the bits as they are.
   */
  lemma ReturnConsumes(g: Group, t: Task, c: Call)
    requires Inv(g) && IsBits(c.wanted)
    ensures Met(g.bits, c.wanted, c.all) ==>
              var w := WaitBits(g, t, c, true);
              w.waiting == g.waiting && (if c.clear then !Has(w.bits, c.wanted) else w.bits == g.bits)
    ensures t in g.woken && g.woken[t] & UNBLOCKED_BY_SET == 0 ==>
              var r := Resumed(g, t);
              if Met(g.bits, g.calls[t].wanted, g.calls[t].all) && g.calls[t].clear
              then !Has(r.bits, g.calls[t].wanted) else r.bits == g.bits
    ensures t in g.woken && g.woken[t] & UNBLOCKED_BY_SET != 0 ==> Resumed(g, t).bits == g.bits
  {
    hide Met, Has, Without, IsBits;
    NoneLeft(g.bits, c.wanted);
    if t in g.woken { NoneLeft(g.bits, g.calls[t].wanted); }
  }

  lemma NoneLeft(bits: Word, wanted: Word)
    ensures !Has(Without(bits, wanted), wanted)
  {
  }

  // ---------------------------------------------------------------------------
  // The group on the heap
  // ---------------------------------------------------------------------------

  /** A word as the value of a list item, and back. */
  function AsKey(w: Word): Tick { w as int }

  function AsWord(k: Tick): Word { k as bv32 }

  lemma KeyRoundTrip(w: Word)
    ensures AsWord(AsKey(w)) == w
  {
  }

  ghost function AsWaiter(x: H.Item): Waiter
    reads x`key
  {
    Waiter(x.owner, AsWord(x.key))
  }

  /** EventGroup_t: the bits, and the linked list of the event items of the waiting tasks. */
  class EventGroup {
    var bits: Word
    const list: H.List

    /** The list is well formed, its index has not moved, and no waiter on it is satisfied. */
    ghost predicate Valid()
      reads this, list, list.ring
    {
      && list.Valid() && list.at == 0 && IsBits(bits)
      && forall i :: 0 <= i < |Waiters()| ==> !Matches(bits, Waiters()[i].value)
    }

    ghost function Items(): seq<H.Item>
      requires list.Valid()
      reads list, list.ring
    {
      list.View().items
    }

    ghost function Waiters(): (r: seq<Waiter>)
      requires list.Valid()
      reads list, list.ring
      ensures |r| == |Items()|
    {
      seq(|Items()|, i requires list.Valid() && 0 <= i < |Items()| reads list, list.ring => AsWaiter(Items()[i]))
    }

    /** xEventGroupCreate */
    constructor ()
      ensures Valid() && fresh(list) && bits == 0 && Waiters() == []
    {
      bits := 0;
      list := new H.List();
    }

    /** All items on the list are among those of the ring `r`. */
    ghost predicate InRing(r: seq<H.Item>)
      reads list
    {
      forall i :: 0 <= i < |list.ring| ==> list.ring[i] in r
    }

    /** vTaskRemoveFromUnorderedEventList on the item at place `k`. */
    method Release(item: H.Item, value: Word, ghost k: nat, ghost r: seq<H.Item>)
      requires list.Valid() && list.at == 0 && k < |Items()| && Items()[k] == item && InRing(r)
      modifies item`key, list`index, list`count, list`ring, list`at, r`next, r`prev, item`container
      ensures list.Valid() && list.at == 0 && Items() == old(Items())[..k] + old(Items())[k + 1..]
      ensures item.container == null && item.key == AsKey(value) && InRing(r)
    {
      hide H.Linked, H.Owned, H.Distinct, AsKey;
      ghost var items, was := Items(), list.ring;
      assert was[k + 1] == item;
      H.AtUnique(was, k + 1, 0);
      item.key := AsKey(value);
      var _ := list.Remove(item, k);
      assert Items() == items[..k] + items[k + 1..];
      forall i | 0 <= i < |list.ring| ensures list.ring[i] in r {
        if i > 0 { assert list.ring[i] == Items()[i - 1] == was[if i - 1 < k then i else i + 1]; }
        else { assert list.ring[0] == was[0]; }
      }
    }

    /** Where the walk of a set stands: the first `j` items are done, those in `kept` still on the list. */
    ghost predicate Walked(items: seq<H.Item>, before: seq<Waiter>, all: Word, j: nat, kept: seq<H.Item>)
      reads this, list, list.ring, items, kept
    {
      && list.Valid() && list.at == 0
      && |before| == |items| && j <= |items| && Items() == kept + items[j..]
      && |kept| == |Kept(before[..j], all)|
      && (forall i :: 0 <= i < |kept| ==> AsWaiter(kept[i]) == Kept(before[..j], all)[i])
      && (forall i :: j <= i < |items| ==> AsWaiter(items[i]) == before[i])
      && (forall i :: 0 <= i < j && Matches(all, before[i].value) ==> IsReleased(items[i], all))
    }

    /** The item the walk stands on, and the one after it. */
    lemma WalkAt(items: seq<H.Item>, before: seq<Waiter>, all: Word, j: nat, kept: seq<H.Item>)
      requires Walked(items, before, all, j, kept) && j < |items|
      ensures Items()[|kept|] == items[j] && items[j] != list.end && items[j] in list.ring
              && AsWaiter(items[j]) == before[j]
      ensures items[j].next == if j + 1 < |items| then items[j + 1] else list.end
    {
      hide Kept, Matches, H.Owned, AsWord, AsKey, IsReleased, AsWaiter;
      var k := |kept|;
      assert Items()[k] == items[j..][0] == items[j];
      assert list.ring[k + 1] == items[j];
      assert list.ring[k + 1].next == list.ring[H.After(k + 1, |list.ring|)];
      if j + 1 < |items| {
        assert Items()[k + 1] == items[j..][1] == items[j + 1];
      }
    }

    lemma WalkStarts()
      requires list.Valid() && list.at == 0
      ensures Walked(Items(), Waiters(), bits, 0, []) && InRing(list.ring)
      ensures list.end.next == if Items() != [] then Items()[0] else list.end
    {
      assert list.ring[0].next == list.ring[H.After(0, |list.ring|)];
    }

    lemma WalkKeeps(items: seq<H.Item>, before: seq<Waiter>, all: Word, j: nat, kept: seq<H.Item>)
      requires Walked(items, before, all, j, kept) && j < |items| && !Matches(all, before[j].value)
      ensures Walked(items, before, all, j + 1, kept + [items[j]])
    {
      hide Matches, H.Owned, H.Linked, AsWord, AsKey, IsReleased, AsWaiter;
      assert before[..j + 1][..j] == before[..j];
    }

    /** The current item is none of the others, and where the list is cut when it leaves. */
    lemma WalkApart(items: seq<H.Item>, before: seq<Waiter>, all: Word, j: nat, kept: seq<H.Item>)
      requires Walked(items, before, all, j, kept) && j < |items|
      ensures forall i :: 0 <= i < |kept| ==> kept[i] != items[j]
      ensures forall i :: j < i < |items| ==> items[i] != items[j]
      ensures forall i :: 0 <= i < j && Matches(all, before[i].value) ==> items[i] != items[j]
      ensures |kept| < |Items()| && Items()[..|kept|] + Items()[|kept| + 1..] == kept + items[j + 1..]
    {
      hide Matches, H.Linked, AsWord, AsKey, Kept, ReleaseValue;
      var k := |kept|;
      assert forall i :: 0 <= i < |Items()| ==> Items()[i] == list.ring[i + 1];
      assert Items()[k] == items[j];
      forall i | 0 <= i < k ensures kept[i] != items[j] {
        assert Items()[i] == kept[i];
      }
      forall i | j < i < |items| ensures items[i] != items[j] {
        assert Items()[k + i - j] == items[j..][i - j] == items[i];
      }
      assert items[j].container == list;
      assert Items()[..k] == kept && Items()[k + 1..] == items[j..][1..];
      assert items[j..][1..] == items[j + 1..];
    }

    method WalkReleases(item: H.Item, ghost items: seq<H.Item>, ghost before: seq<Waiter>, ghost j: nat,
        ghost kept: seq<H.Item>, ghost r: seq<H.Item>)
      requires InRing(r) && Walked(items, before, bits, j, kept) && j < |items| && items[j] == item
               && Matches(bits, before[j].value)
      modifies item`key, list`index, list`count, list`ring, list`at, r`next, r`prev, item`container
      ensures Walked(items, before, bits, j + 1, kept) && InRing(r)
    {
      hide Matches, H.List.Valid, AsWord, AsKey, ReleaseValue, H.List.View, InRing, Items;
      WalkAt(items, before, bits, j, kept);
      WalkApart(items, before, bits, j, kept);
      assert before[..j + 1][..j] == before[..j];
      Release(item, ReleaseValue(bits), |kept|, r);
      assert Items() == kept + items[j + 1..];
    }

    lemma WalkedParts(items: seq<H.Item>, before: seq<Waiter>, all: Word, j: nat, kept: seq<H.Item>)
      requires Walked(items, before, all, j, kept)
      ensures list.Valid() && list.at == 0
    {
    }

    lemma WalkEnds(items: seq<H.Item>, before: seq<Waiter>, all: Word, kept: seq<H.Item>)
      requires Walked(items, before, all, |items|, kept)
      ensures Waiters() == Kept(before, all)
      ensures forall i :: 0 <= i < |items| && Matches(all, before[i].value) ==> IsReleased(items[i], all)
    {
      hide Matches, H.Owned, H.Linked, AsWaiter, IsReleased;
      assert before[..|items|] == before;
      assert Items() == kept;
    }

    /** One turn of the walk: the item after the current one is taken before the current one is unlinked. */
    method WalkOn(item: H.Item, toClear: Word, ghost items: seq<H.Item>, ghost before: seq<Waiter>, ghost j: nat,
        ghost kept: seq<H.Item>, ghost r: seq<H.Item>)
      returns (next: H.Item?, clear: Word, ghost still: seq<H.Item>)
      requires InRing(r) && Walked(items, before, bits, j, kept) && j < |items| && items[j] == item
      requires toClear == ToClear(before[..j], bits)
      modifies item`key, list`index, list`count, list`ring, list`at, r`next, r`prev, item`container
      ensures j < |before| && Walked(items, before, bits, j + 1, still) && InRing(r)
      ensures clear == ToClear(before[..j + 1], bits)
      ensures next == if j + 1 < |items| then items[j + 1] else list.end
    {
      hide Or, Matches, Asked, ReleaseValue, AsKey, AsWord, H.Owned, H.Linked, H.Distinct, IsReleased;
      WalkAt(items, before, bits, j, kept);
      assert before[..j + 1][..j] == before[..j];
      next := item.next;
      clear, still := toClear, kept;
      var value := AsWord(item.key);
      AskedCases(bits, value, toClear);
      hide Clears, Wanted;
      if Matches(bits, value) {
        if Clears(value) {
          clear := Or(clear, Wanted(value));
        }
        hide Walked;
        WalkReleases(item, items, before, j, kept, r);
      } else {
        WalkKeeps(items, before, bits, j, kept);
        still := kept + [item];
      }
    }

    method Walk() returns (toClear: Word, ghost kept: seq<H.Item>)
      requires list.Valid() && list.at == 0
      modifies list`index, list`count, list`ring, list`at
      modifies list.ring`next, list.ring`prev, list.ring`container, list.ring`key
      ensures Walked(old(Items()), old(Waiters()), bits, |old(Items())|, kept) && InRing(old(list.ring))
      ensures toClear == ToClear(old(Waiters()), bits)
    {
      hide Walked, ToClear, Kept, Matches, Asked, AsWaiter, H.List.Valid, H.List.View, Items, IsReleased, Or;
      WalkStarts();
      ghost var items, before, j, r := Items(), Waiters(), 0, list.ring;
      kept, toClear := [], 0;
      NothingToClear(before, bits);
      var item: H.Item? := list.end.next;
      while item != list.end
        invariant j <= |items| && Walked(items, before, bits, j, kept) && InRing(r)
        invariant item == if j < |items| then items[j] else list.end
        invariant toClear == ToClear(before[..j], bits)
        decreases |items| - j
      {
        WalkAt(items, before, bits, j, kept);
        assert item in r;
        item, toClear, kept := WalkOn(item, toClear, items, before, j, kept, r);
        j := j + 1;
      }
      if j < |items| {
        WalkAt(items, before, bits, j, kept);
      }
      assert before[..j] == before;
    }

    /**
     * xEventGroupSetBits releases exactly the waiters that the old bits with
     * the new ones satisfy; the bits are cleared when the walk is over.
     */
    method SetBits(added: Word) returns (result: Word)
      requires Valid() && IsBits(added)
      modifies this`bits, list`index, list`count, list`ring, list`at
      modifies list.ring`next, list.ring`prev, list.ring`container, list.ring`key
      ensures Valid() && result == bits && InRing(old(list.ring))
      ensures var all := Or(old(bits), added);
              && bits == Without(all, ToClear(old(Waiters()), all))
              && Waiters() == Kept(old(Waiters()), all)
              && forall i :: 0 <= i < |old(Items())| && Matches(all, old(Waiters())[i].value)
                  ==> IsReleased(old(Items())[i], all)
    {
      hide Or, Without, Matches, Asked, ToClear, AsKey, AsWord, H.Owned, H.Linked, H.Distinct, H.List.View, IsBits,
          IsReleased, Kept, Waiters, Items, Walked;
      BitsStay(bits, added);
      ghost var items, before := Items(), Waiters();
      bits := Or(bits, added);
      ghost var all := bits;
      var toClear, kept := Walk();
      assert all == Or(old(bits), added);
      WalkEnds(items, before, all, kept);
      WalkedParts(items, before, all, |items|, kept);
      NoneLeftMatching(before, all, toClear);
      BitsStay(all, toClear);
      bits := Without(bits, toClear);
      result := bits;
    }

    /** xEventGroupClearBits */
    method ClearBits(toClear: Word) returns (was: Word)
      requires Valid() && IsBits(toClear)
      modifies this`bits
      ensures Valid() && was == old(bits) && bits == Without(old(bits), toClear)
    {
      hide Without, Met, Wanted, IsBits, H.List.Valid, AsWaiter;
      BitsStay(bits, toClear);
      was := bits;
      bits := Without(bits, toClear);
      forall i | 0 <= i < |Waiters()| ensures !Matches(bits, Waiters()[i].value) {
        var v := Waiters()[i].value;
        if Matches(bits, v) { MetMonotone(was, toClear, Wanted(v), v & WAIT_FOR_ALL != 0); }
      }
    }

    /** vTaskPlaceOnUnorderedEventList */
    method PlaceOnList(item: H.Item, call: Call)
      requires Valid() && item.container == null && item !in list.ring
      requires IsBits(call.wanted) && !Met(bits, call.wanted, call.all)
      modifies list`count, list`ring, list`at, list.ring`next, list.ring`prev, item
      ensures Valid() && Waiters() == old(Waiters()) + [Waiter(item.owner, ItemValue(call))]
    {
      hide Met, AsKey, AsWord, ItemValue, H.Owned, H.Linked, H.Distinct, IsBits;
      ghost var before := Waiters();
      ItemValueSplits(call);
      KeyRoundTrip(ItemValue(call));
      item.key := AsKey(ItemValue(call));
      list.InsertEnd(item);
      assert Items() == old(Items()) + [item];
      assert Waiters() == before + [Waiter(item.owner, ItemValue(call))];
    }

    /** xEventGroupWaitBits, until it returns or the task, of which `item` is the event item, blocks. */
    method WaitBits(item: H.Item, call: Call, block: bool) returns (result: Word, blocked: bool)
      requires Valid() && item.container == null && item !in list.ring && IsBits(call.wanted)
      modifies this`bits, list`count, list`ring, list`at, list.ring`next, list.ring`prev, item
      ensures Valid() && (blocked <==> block && !Met(old(bits), call.wanted, call.all))
      ensures bits == if Met(old(bits), call.wanted, call.all) && call.clear then Without(old(bits), call.wanted)
              else old(bits)
      ensures Waiters() == old(Waiters()) + if blocked then [Waiter(item.owner, ItemValue(call))] else []
      ensures !blocked ==> result == old(bits)
    {
      hide Met, Without, IsBits, Matches, Waiters, Items, H.List.Valid;
      result, blocked := bits, false;
      if Met(bits, call.wanted, call.all) {
        if call.clear {
          var _ := ClearBits(call.wanted);
        }
      } else if block {
        PlaceOnList(item, call);
        blocked, result := true, 0;
      }
    }

    /** xEventGroupSync, until it returns or the task blocks. */
    method Sync(item: H.Item, added: Word, wanted: Word, block: bool) returns (result: Word, blocked: bool)
      requires Valid() && item.container == null && item !in list.ring && IsBits(added) && IsBits(wanted)
      modifies this`bits, list`index, list`count, list`ring, list`at
      modifies list.ring`next, list.ring`prev, list.ring`container, list.ring`key, item
      ensures Valid()
      ensures var all := Or(old(bits), added);
              var kept, left := Kept(old(Waiters()), all), Without(all, ToClear(old(Waiters()), all));
              if Met(all, wanted, true) then
                !blocked && result == all && bits == Without(left, wanted) && Waiters() == kept
              else if block then
                blocked && bits == left && Waiters() == kept + [Waiter(item.owner, ItemValue(Call(wanted, true, true)))]
              else
                !blocked && result == left && bits == left && Waiters() == kept
    {
      hide Met, Or, Without, IsBits, Matches, Waiters, Items, H.List.Valid, Kept, ToClear, IsReleased;
      var original := bits;
      var _ := SetBits(added);
      blocked, result := false, 0;
      if Met(Or(original, added), wanted, true) {
        result := Or(original, added);
        var _ := ClearBits(wanted);
      } else if block {
        NotMet(Or(original, added), bits, wanted, ToClear(old(Waiters()), Or(original, added)));
        PlaceOnList(item, Call(wanted, true, true));
        blocked := true;
      } else {
        result := bits;
      }
    }

    /** A timeout takes the item at place `k` off the list and leaves its value alone. */
    method TimeOut(item: H.Item, ghost k: nat)
      requires Valid() && k < |Items()| && Items()[k] == item
      modifies list`index, list`count, list`ring, list`at, list.ring`next, list.ring`prev, item`container
      ensures Valid() && item.container == null && bits == old(bits) && item.key == old(item.key)
      ensures Waiters() == old(Waiters())[..k] + old(Waiters())[k + 1..]
    {
      hide Matches, H.Linked, H.Owned, AsWord;
      ghost var before := Waiters();
      var _ := list.Remove(item, k);
      assert Waiters() == before[..k] + before[k + 1..];
    }

    /**
     * The end of a call that blocked, when its task runs again: a task that a
     * set released returns the bits it saw, a task that timed out the bits of
     * now, which it clears if they satisfy it after all.
     */
    method Resume(item: H.Item, call: Call, reset: Tick) returns (result: Word)
      requires Valid() && item.container == null && item !in list.ring && IsBits(call.wanted)
      modifies this`bits, item`key
      ensures Valid() && item.key == reset && Waiters() == old(Waiters())
      ensures var value := AsWord(old(item.key));
              if value & UNBLOCKED_BY_SET != 0 then result == Wanted(value) && bits == old(bits)
              else
                && result == Wanted(old(bits))
                && bits == (if Met(old(bits), call.wanted, call.all) && call.clear
                    then Without(old(bits), call.wanted) else old(bits))
    {
      hide Met, Without, IsBits, Matches, Wanted, AsWord, H.List.Valid;
      result := AsWord(item.key);
      item.key := reset;
      if result & UNBLOCKED_BY_SET == 0 {
        result := bits;
        if Met(result, call.wanted, call.all) && call.clear {
          var _ := ClearBits(call.wanted);
        }
      }
      result := Wanted(result);
    }
  }

  /** Bits that did not satisfy a call before some were cleared do not satisfy it after. */
  lemma NotMet(all: Word, left: Word, wanted: Word, cleared: Word)
    requires left == Without(all, cleared) && !Met(all, wanted, true)
    ensures !Met(left, wanted, true)
  {
    if Met(left, wanted, true) { MetMonotone(all, cleared, wanted, true); }
  }

  lemma AskedCases(bits: Word, value: Word, x: Word)
    ensures Or(x, Asked(bits, value)) == if Matches(bits, value) && Clears(value) then Or(x, Wanted(value)) else x
  {
    hide Matches, Clears, Wanted;
  }

  lemma NothingToClear(ws: seq<Waiter>, bits: Word)
    ensures ToClear(ws[..0], bits) == 0
  {
  }

  /** What stays on the list is not satisfied, also once bits are cleared. */
  lemma NoneLeftMatching(ws: seq<Waiter>, all: Word, cleared: Word)
    ensures forall i :: 0 <= i < |Kept(ws, all)| ==> !Matches(Without(all, cleared), Kept(ws, all)[i].value)
  {
    KeptExactly(ws, all);
    hide Kept, Met, Without, Wanted;
    forall i | 0 <= i < |Kept(ws, all)| ensures !Matches(Without(all, cleared), Kept(ws, all)[i].value) {
      var w := Kept(ws, all)[i];
      assert w in Kept(ws, all);
      if Matches(Without(all, cleared), w.value) {
        MetMonotone(all, cleared, Wanted(w.value), w.value & WAIT_FOR_ALL != 0);
      }
    }
  }

  /** What a set leaves in the event item of a task it releases. */
  ghost predicate IsReleased(x: H.Item, bits: Word)
    reads x`container, x`key
  {
    x.container == null && x.key == AsKey(ReleaseValue(bits))
  }
}
