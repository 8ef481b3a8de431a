/**
 * The ready lists (tasks.c): one ring of tasks per priority, and an upper bound
 * on the highest non-empty one.
 */
module ReadyLists {
  import opened Basics
  import opened Lists

  /** pxReadyTasksLists and uxTopReadyPriority */
  datatype Ready = Ready(lists: seq<Ring<Task>>, top: nat) {

    ghost predicate Ok() {
      && |lists| == MAX_PRIORITIES && top < MAX_PRIORITIES
      && (forall p :: 0 <= p < |lists| ==> lists[p].Ok())
      && (forall p :: top < p < |lists| ==> lists[p].items == [])
    }

    /** prvAddTaskToReadyList */
    function Add(t: Task, p: nat): (r: Ready)
      requires Ok() && p < MAX_PRIORITIES
      ensures r.Ok()
    {
      Ready(lists[p := lists[p].InsertEnd(t)], if p > top then p else top)
    }

    /** uxListRemove on a ready list */
    function Remove(t: Task, p: nat): (r: Ready)
      requires Ok() && p < MAX_PRIORITIES && t in lists[p].items
      ensures r.Ok()
    {
      this.(lists := lists[p := lists[p].RemoveAt(IndexOf(lists[p].items, t))])
    }

    /** The highest priority at or below `p` that has a ready task. */
    function Highest(p: nat): (h: nat)
      requires Ok() && p < MAX_PRIORITIES
      ensures h <= p
      ensures forall q :: h < q <= p ==> lists[q].items == []
      ensures lists[h].items != [] || h == 0
    {
      if lists[p].items != [] || p == 0 then p else Highest(p - 1)
    }
  }

  function IndexOf(s: seq<Task>, t: Task): (i: nat)
    requires t in s
    ensures i < |s| && s[i] == t
  {
    if s[0] == t then 0 else 1 + IndexOf(s[1..], t)
  }

  /** How often `t` occurs. */
  function Occ(s: seq<Task>, t: Task): (n: nat)
    ensures n > 0 <==> t in s
  {
    if s == [] then 0 else (if s[0] == t then 1 else 0) + Occ(s[1..], t)
  }

  lemma {:induction false} OccConcat(a: seq<Task>, b: seq<Task>, t: Task)
    ensures Occ(a + b, t) == Occ(a, t) + Occ(b, t)
  {
    if a == [] {
      assert a + b == b;
    } else {
      assert (a + b)[1..] == a[1..] + b;
      OccConcat(a[1..], b, t);
    }
  }

  /** How often `t` occurs on the ready lists, and how long they are together. */
  function OccAll(lists: seq<Ring<Task>>, t: Task): nat {
    if lists == [] then 0 else Occ(lists[0].items, t) + OccAll(lists[1..], t)
  }

  function Total(lists: seq<Ring<Task>>): nat {
    if lists == [] then 0 else |lists[0].items| + Total(lists[1..])
  }

  lemma {:induction false} UpdateCounts(lists: seq<Ring<Task>>, p: nat, r: Ring<Task>, t: Task)
    requires p < |lists|
    ensures OccAll(lists[p := r], t) == OccAll(lists, t) - Occ(lists[p].items, t) + Occ(r.items, t)
    ensures Total(lists[p := r]) == Total(lists) - |lists[p].items| + |r.items|
  {
    if p == 0 {
      assert lists[p := r][1..] == lists[1..];
    } else {
      assert lists[p := r][1..] == lists[1..][p - 1 := r];
      UpdateCounts(lists[1..], p - 1, r, t);
    }
  }

  lemma {:induction false} OccAllIs(lists: seq<Ring<Task>>, t: Task, p: nat)
    requires p < |lists|
    ensures Occ(lists[p].items, t) <= OccAll(lists, t)
  {
    if p > 0 { OccAllIs(lists[1..], t, p - 1); }
  }

  lemma {:induction false} OccAllSome(lists: seq<Ring<Task>>, t: Task) returns (p: nat)
    requires OccAll(lists, t) > 0
    ensures p < |lists| && t in lists[p].items
  {
    if Occ(lists[0].items, t) > 0 {
      p := 0;
    } else {
      p := OccAllSome(lists[1..], t);
      p := p + 1;
    }
  }

  lemma InsertEndOcc(r: Ring<Task>, x: Task, t: Task)
    requires r.Ok()
    ensures Occ(r.InsertEnd(x).items, t) == Occ(r.items, t) + if x == t then 1 else 0
    ensures |r.InsertEnd(x).items| == |r.items| + 1
  {
    var (a, b) := if r.index == 0 then (r.items, []) else (r.items[..r.index - 1], r.items[r.index - 1..]);
    assert r.items == a + b && r.InsertEnd(x).items == a + ([x] + b);
    OccConcat(a, b, t);
    OccConcat(a, [x] + b, t);
    assert ([x] + b)[1..] == b;
  }

  lemma RemoveAtOcc(r: Ring<Task>, i: nat, t: Task)
    requires r.Ok() && i < |r.items|
    ensures Occ(r.RemoveAt(i).items, t) == Occ(r.items, t) - if r.items[i] == t then 1 else 0
    ensures |r.RemoveAt(i).items| == |r.items| - 1
  {
    var a, x, b := r.items[..i], r.items[i], r.items[i + 1..];
    assert r.items == a + ([x] + b) && r.RemoveAt(i).items == a + b;
    OccConcat(a, b, t);
    OccConcat(a, [x] + b, t);
    assert ([x] + b)[1..] == b;
  }

  lemma AddCounts(r: Ready, x: Task, p: nat, t: Task)
    requires r.Ok() && p < MAX_PRIORITIES
    ensures OccAll(r.Add(x, p).lists, t) == OccAll(r.lists, t) + if x == t then 1 else 0
    ensures Total(r.Add(x, p).lists) == Total(r.lists) + 1
  {
    UpdateCounts(r.lists, p, r.lists[p].InsertEnd(x), t);
    InsertEndOcc(r.lists[p], x, t);
  }

  lemma RemoveCounts(r: Ready, x: Task, p: nat, t: Task)
    requires r.Ok() && p < MAX_PRIORITIES && x in r.lists[p].items
    ensures OccAll(r.Remove(x, p).lists, t) == OccAll(r.lists, t) - if x == t then 1 else 0
    ensures Total(r.Remove(x, p).lists) == Total(r.lists) - 1
  {
    var i := IndexOf(r.lists[p].items, x);
    UpdateCounts(r.lists, p, r.lists[p].RemoveAt(i), t);
    RemoveAtOcc(r.lists[p], i, t);
  }

  /** Every ready task is on the list of its current priority. */
  ghost predicate ByPriority(r: Ready, prio: map<Task, nat>) {
    forall p, t :: 0 <= p < |r.lists| && t in r.lists[p].items ==> t in prio && prio[t] == p
  }

  lemma AddByPriority(r: Ready, t: Task, prio: map<Task, nat>)
    requires r.Ok() && ByPriority(r, prio) && t in prio && prio[t] < MAX_PRIORITIES
    ensures ByPriority(r.Add(t, prio[t]), prio)
    ensures forall p, x :: 0 <= p < MAX_PRIORITIES ==>
              (x in r.Add(t, prio[t]).lists[p].items <==> x in r.lists[p].items || (x == t && p == prio[t]))
  {
    var q := prio[t];
    forall x ensures x in r.lists[q].InsertEnd(t).items <==> x in r.lists[q].items || x == t {
      InsertEndOcc(r.lists[q], t, x);
    }
  }

  lemma RemoveByPriority(r: Ready, t: Task, prio: map<Task, nat>)
    requires r.Ok() && ByPriority(r, prio) && t in prio && prio[t] < MAX_PRIORITIES && t in r.lists[prio[t]].items
    ensures ByPriority(r.Remove(t, prio[t]), prio)
    ensures forall p, x :: 0 <= p < MAX_PRIORITIES && x != t ==>
              (x in r.Remove(t, prio[t]).lists[p].items <==> x in r.lists[p].items)
  {
    var q := prio[t];
    var r' := r.lists[q].RemoveAt(IndexOf(r.lists[q].items, t));
    forall x ensures x in r'.items ==> x in r.lists[q].items
             ensures x != t && x in r.lists[q].items ==> x in r'.items {
      RemoveAtOcc(r.lists[q], IndexOf(r.lists[q].items, t), x);
    }
  }
}
