/**
 * The kernel's lists (list.c) as values: items in order, sorted insertion, and
 * an index that walks round the items.  The linked structure on the heap, in
 * `HeapLists`, is proved to behave like this.
 */
module Lists {
  import opened Ticks

  // ---------------------------------------------------------------------------
  // Ordered insertion
  // ---------------------------------------------------------------------------

  /** A task handle; tasks own most list items. */
  type Task = nat

  /** A list item seen as a value: the key it is sorted by and its owner. */
  datatype Entry<T> = Entry(key: Tick, owner: T)

  ghost predicate Sorted<T>(s: seq<Entry<T>>) {
    forall i, j :: 0 <= i < j < |s| ==> s[i].key <= s[j].key
  }

  /** Insert before the first entry with a larger key, hence after every equal key. */
  function InsertOrdered<T>(s: seq<Entry<T>>, e: Entry<T>): seq<Entry<T>> {
    if s == [] || s[0].key > e.key then [e] + s else [s[0]] + InsertOrdered(s[1..], e)
  }

  /** How many leading entries have a key not above `k`. */
  function Rank<T>(s: seq<Entry<T>>, k: Tick): nat
    ensures Rank(s, k) <= |s|
  {
    if s == [] || s[0].key > k then 0 else 1 + Rank(s[1..], k)
  }

  /** Ordered insertion splits the sequence at the rank of the new key. */
  lemma {:induction false} InsertOrderedSplits<T>(s: seq<Entry<T>>, e: Entry<T>)
    ensures InsertOrdered(s, e) == s[..Rank(s, e.key)] + [e] + s[Rank(s, e.key)..]
    ensures forall i :: 0 <= i < Rank(s, e.key) ==> s[i].key <= e.key
    ensures Rank(s, e.key) < |s| ==> s[Rank(s, e.key)].key > e.key
  {
    if s != [] && s[0].key <= e.key {
      InsertOrderedSplits(s[1..], e);
      var n := Rank(s[1..], e.key);
      assert s == [s[0]] + s[1..];
      assert s[..n + 1] == [s[0]] + s[1..][..n];
    }
  }

  /** The rank is the only split point with this property. */
  lemma {:induction false} RankIsUnique<T>(s: seq<Entry<T>>, k: Tick, n: nat)
    requires n <= |s|
    requires forall i :: 0 <= i < n ==> s[i].key <= k
    requires n < |s| ==> s[n].key > k
    ensures Rank(s, k) == n
  {
    if n != 0 {
      RankIsUnique(s[1..], k, n - 1);
    }
  }

  /**
   * Insertion into a sorted list keeps it sorted, and puts the new entry behind
   * exactly the entries that are not larger.
   */
  lemma InsertOrderedSorted<T>(s: seq<Entry<T>>, e: Entry<T>)
    requires Sorted(s)
    ensures Sorted(InsertOrdered(s, e))
    ensures forall i :: 0 <= i < |s| ==> (i < Rank(s, e.key) <==> s[i].key <= e.key)
  {
    InsertOrderedSplits(s, e);
    var n := Rank(s, e.key);
    forall i | n <= i < |s| ensures s[i].key > e.key {
      if n < i { assert s[n].key <= s[i].key; }
    }
  }

  // ---------------------------------------------------------------------------
  // The walking index
  // ---------------------------------------------------------------------------

  /**
   * The items from the head, and where the index stands: 0 is the end marker,
   * k is items[k - 1].
   */
  datatype Ring<T> = Ring(items: seq<T>, index: nat) {
    predicate Ok() { index <= |items| }

    /** vListInsertEnd: immediately before the index. */
    function InsertEnd(x: T): (r: Ring<T>)
      requires Ok()
      ensures r.Ok()
    {
      if index == 0 then Ring(items + [x], 0)
      else Ring(items[..index - 1] + [x] + items[index - 1..], index + 1)
    }

    /** uxListRemove: an index on the removed item steps back to its predecessor. */
    function RemoveAt(i: nat): (r: Ring<T>)
      requires Ok() && i < |items|
      ensures r.Ok()
    {
      Ring(items[..i] + items[i + 1..], if i < index then index - 1 else index)
    }

    /** listGET_OWNER_OF_NEXT_ENTRY: advance, skipping the end marker. */
    function Next(): (r: Ring<T>)
      requires Ok() && items != []
      ensures r.Ok() && r.index > 0
    {
      Ring(items, if index == |items| then 1 else index + 1)
    }

    /** The item the index stands on after `Next`. */
    function Visited(): T
      requires Ok() && items != []
    {
      items[Next().index - 1]
    }

    /** The items in the order in which successive advances reach them. */
    function Upcoming(): seq<T>
      requires Ok()
    {
      items[index..] + items[..index]
    }
  }

  datatype ListOp<T> = Advance | AddEnd(x: T) | Unlist(pos: nat)

  function Apply<T>(r: Ring<T>, op: ListOp<T>): (r': Ring<T>)
    requires r.Ok()
    ensures r'.Ok()
  {
    match op
    case Advance => if r.items == [] then r else r.Next()
    case AddEnd(x) => r.InsertEnd(x)
    case Unlist(i) => if i < |r.items| then r.RemoveAt(i) else r
  }

  /** The items visited by the advances of a run, in order. */
  function Visits<T>(r: Ring<T>, ops: seq<ListOp<T>>): seq<T>
    requires r.Ok()
    decreases |ops|
  {
    if ops == [] then [] else
    (if ops[0].Advance? && r.items != [] then [r.Visited()] else [])
    + Visits(Apply(r, ops[0]), ops[1..])
  }

  /** No operation of the run inserts or removes a member of `stay`. */
  ghost predicate Keeps<T>(r: Ring<T>, ops: seq<ListOp<T>>, stay: set<T>)
    requires r.Ok()
    decreases |ops|
  {
    ops == [] ||
    (&& (ops[0].AddEnd? ==> ops[0].x !in stay)
     && (ops[0].Unlist? && ops[0].pos < |r.items| ==> r.items[ops[0].pos] !in stay)
     && Keeps(Apply(r, ops[0]), ops[1..], stay))
  }

  ghost function Only<T>(s: seq<T>, keep: set<T>): seq<T> {
    if s == [] then [] else (if s[0] in keep then [s[0]] else []) + Only(s[1..], keep)
  }

  function Rotate<T>(s: seq<T>): seq<T>
    requires s != []
  {
    s[1..] + [s[0]]
  }

  /** The first `n` elements of s, s, s, ... */
  function Cycle<T>(s: seq<T>, n: nat): (r: seq<T>)
    requires s != [] || n == 0
    ensures |r| == n
    decreases n
  {
    if n == 0 then [] else [s[0]] + Cycle(Rotate(s), n - 1)
  }

  /** The first round is the sequence itself; every later element repeats the one a round before. */
  lemma {:induction false} CycleRepeats<T>(s: seq<T>, n: nat, k: nat)
    requires s != [] && k < n
    ensures Cycle(s, n)[k] == if k < |s| then s[k] else Cycle(s, n)[k - |s|]
    decreases n
  {
    if k > 0 {
      CycleRepeats(Rotate(s), n - 1, k - 1);
    }
  }

  lemma OnlySingle<T>(x: T, keep: set<T>)
    ensures Only([x], keep) == if x in keep then [x] else []
  {
    assert [x][1..] == [];
  }

  lemma {:induction false} OnlyConcat<T>(a: seq<T>, b: seq<T>, keep: set<T>)
    ensures Only(a + b, keep) == Only(a, keep) + Only(b, keep)
  {
    if a == [] {
      assert a + b == b;
    } else {
      var first := if a[0] in keep then [a[0]] else [];
      calc {
        Only(a + b, keep);
        { assert (a + b)[0] == a[0] && (a + b)[1..] == a[1..] + b; }
        first + Only(a[1..] + b, keep);
        { OnlyConcat(a[1..], b, keep); }
        first + (Only(a[1..], keep) + Only(b, keep));
        first + Only(a[1..], keep) + Only(b, keep);
      }
    }
  }

  /** Advancing rotates what is upcoming. */
  lemma AdvanceRotates<T>(r: Ring<T>)
    requires r.Ok() && r.items != []
    ensures r.Upcoming() != [] && r.Visited() == r.Upcoming()[0]
    ensures r.Next().Upcoming() == Rotate(r.Upcoming())
  {
    if r.index == |r.items| {
      assert r.Upcoming() == r.items;
    }
  }

  /** A member outside `stay` may come or go anywhere. */
  lemma OnlyIgnores<T>(a: seq<T>, x: T, b: seq<T>, stay: set<T>)
    requires x !in stay
    ensures Only(a + [x] + b, stay) == Only(a + b, stay)
  {
    OnlyConcat(a, b, stay);
    OnlyConcat(a + [x], b, stay);
    OnlyConcat(a, [x], stay);
    OnlySingle(x, stay);
  }

  /** Every other operation leaves the relative order of the staying items alone. */
  lemma AddEndKeepsOrder<T>(r: Ring<T>, x: T, stay: set<T>)
    requires r.Ok() && x !in stay
    ensures Only(r.InsertEnd(x).Upcoming(), stay) == Only(r.Upcoming(), stay)
  {
    var it, k := r.items, r.index;
    if k == 0 {
      OnlyIgnores(it, x, [], stay);
      assert r.Upcoming() == it + [] && r.InsertEnd(x).Upcoming() == it + [x] + [];
    } else {
      var a, b := it[k..] + it[..k - 1], [it[k - 1]];
      OnlyIgnores(a, x, b, stay);
      assert it[..k] == it[..k - 1] + b;
      assert r.Upcoming() == a + b;
      var r' := r.InsertEnd(x);
      assert r'.items[k + 1..] == it[k..] && r'.items[..k + 1] == it[..k - 1] + [x] + b;
      assert r'.Upcoming() == a + [x] + b;
    }
  }

  lemma DropKeepsOrder<T>(r: Ring<T>, i: nat, stay: set<T>)
    requires r.Ok() && i < |r.items| && r.items[i] !in stay
    ensures Only(r.RemoveAt(i).Upcoming(), stay) == Only(r.Upcoming(), stay)
  {
    var it, k, r' := r.items, r.index, r.RemoveAt(i);
    if i < k {
      var a, b := it[k..] + it[..i], it[i + 1..k];
      assert r.Upcoming() == a + [it[i]] + b by {
        assert it[..k] == it[..i] + [it[i]] + b;
      }
      assert r'.Upcoming() == a + b by {
        assert r'.items[k - 1..] == it[k..] && r'.items[..k - 1] == it[..i] + b;
      }
      OnlyIgnores(a, it[i], b, stay);
    } else {
      var a, b := it[k..i], it[i + 1..] + it[..k];
      assert r.Upcoming() == a + [it[i]] + b by {
        assert it[k..] == a + [it[i]] + it[i + 1..];
      }
      assert r'.Upcoming() == a + b by {
        assert r'.items[k..] == a + it[i + 1..] && r'.items[..k] == it[..k];
      }
      OnlyIgnores(a, it[i], b, stay);
    }
  }

  /** An advance to a staying item rotates the staying items; any other advance leaves them alone. */
  lemma AdvanceOnly<T>(r: Ring<T>, stay: set<T>)
    requires r.Ok() && r.items != []
    ensures var order, order' := Only(r.Upcoming(), stay), Only(r.Next().Upcoming(), stay);
            if r.Visited() in stay then order != [] && order[0] == r.Visited() && order' == Rotate(order)
            else order' == order
  {
    AdvanceRotates(r);
    var u := r.Upcoming();
    assert u == [u[0]] + u[1..];
    OnlyConcat([u[0]], u[1..], stay);
    OnlyConcat(u[1..], [u[0]], stay);
    OnlySingle(u[0], stay);
  }

  lemma OtherOpsOnly<T>(r: Ring<T>, op: ListOp<T>, stay: set<T>)
    requires r.Ok() && Keeps(r, [op], stay) && (op.Advance? ==> r.items == [])
    ensures Only(Apply(r, op).Upcoming(), stay) == Only(r.Upcoming(), stay)
  {
    match op
    case Advance =>
    case AddEnd(x) => AddEndKeepsOrder(r, x, stay);
    case Unlist(i) => if i < |r.items| { DropKeepsOrder(r, i, stay); }
  }

  /** The staying items among the visits of a run follow `order`, over and over. */
  ghost predicate Follows<T>(seen: seq<T>, order: seq<T>) {
    if order == [] then seen == [] else seen == Cycle(order, |seen|)
  }

  lemma FollowsStep<T>(x: T, seen: seq<T>, order: seq<T>)
    requires order != [] && order[0] == x && Follows(seen, Rotate(order))
    ensures Follows([x] + seen, order)
  {
    assert Cycle(order, |seen| + 1) == [order[0]] + Cycle(Rotate(order), |seen|);
  }

  /**
   * Round robin: whatever else is inserted or removed, including the item the
   * index stands on, the visits to the items that stay are exactly the initial
   * upcoming order of those items repeated over and over.
   */
  lemma {:induction false} RoundRobin<T>(r: Ring<T>, ops: seq<ListOp<T>>, stay: set<T>)
    requires r.Ok() && Keeps(r, ops, stay)
    ensures Follows(Only(Visits(r, ops), stay), Only(r.Upcoming(), stay))
    decreases |ops|
  {
    if ops != [] {
      var r', rest := Apply(r, ops[0]), ops[1..];
      RoundRobin(r', rest, stay);
      if ops[0].Advance? && r.items != [] {
        AdvanceOnly(r, stay);
        assert Visits(r, ops) == [r.Visited()] + Visits(r', rest);
        OnlyConcat([r.Visited()], Visits(r', rest), stay);
        OnlySingle(r.Visited(), stay);
        if r.Visited() in stay {
          FollowsStep(r.Visited(), Only(Visits(r', rest), stay), Only(r.Upcoming(), stay));
        } else {
          assert Only(Visits(r, ops), stay) == Only(Visits(r', rest), stay);
        }
      } else {
        assert Visits(r, ops) == Visits(r', rest);
        OtherOpsOnly(r, ops[0], stay);
      }
    }
  }

  /** The first visits follow the order, and every later one repeats the visit a round before. */
  ghost predicate Cyclic<T>(seen: seq<T>, order: seq<T>) {
    && (order == [] ==> seen == [])
    && (forall k :: 0 <= k < |seen| && k < |order| ==> seen[k] == order[k])
    && (forall k :: |order| <= k < |seen| ==> seen[k] == seen[k - |order|])
  }

  /**
   * The staying items are visited in strict cyclic order: first once each, in
   * the order in which they are upcoming, and from then on every visit is to
   * the item that was visited as many visits before as there are staying items.
   */
  lemma StrictCycle<T>(r: Ring<T>, ops: seq<ListOp<T>>, stay: set<T>)
    requires r.Ok() && Keeps(r, ops, stay)
    ensures Cyclic(Only(Visits(r, ops), stay), Only(r.Upcoming(), stay))
  {
    RoundRobin(r, ops, stay);
    var seen, order := Only(Visits(r, ops), stay), Only(r.Upcoming(), stay);
    if order != [] {
      forall k | 0 <= k < |seen|
        ensures k < |order| ==> seen[k] == order[k]
        ensures k >= |order| ==> seen[k] == seen[k - |order|]
      {
        CycleRepeats(order, |seen|, k);
      }
    }
  }
}
