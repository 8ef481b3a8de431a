/**
 * The kernel's lists on the heap (list.c): items linked both ways into a ring
 * that an end marker closes, each item knowing the list it is on.  Every
 * operation is proved to act on the ring as the value operations of `Lists` do.
 */
module HeapLists {
  import opened Ticks
  import opened Lists

  /** xItemValue, pvOwner, pxNext, pxPrevious and pxContainer */
  class Item {
    var key: Tick
    const owner: Task
    var next: Item?
    var prev: Item?
    var container: List?

    /** vListInitialiseItem, with the value set */
    constructor (key: Tick, owner: Task)
      ensures this.key == key && this.owner == owner && container == null
    {
      this.key, this.owner, next, prev, container := key, owner, null, null, null;
    }
  }

  // ---------------------------------------------------------------------------
  // Rings of items
  // ---------------------------------------------------------------------------

  /** The position after `i` in a ring of `n`. */
  function After(i: nat, n: nat): nat { if i + 1 < n then i + 1 else 0 }

  /** Following the links leads round the sequence, both ways. */
  ghost predicate Linked(r: seq<Item>)
    reads r`next, r`prev
  {
    && (forall i :: 0 <= i < |r| ==> r[i].next == r[After(i, |r|)])
    && (forall i :: 0 <= i < |r| ==> r[After(i, |r|)].prev == r[i])
  }

  /** Every item after the marker is recorded as being on the list. */
  ghost predicate Owned(r: seq<Item>, list: List)
    reads r`container
  {
    forall i :: 1 <= i < |r| ==> r[i].container == list
  }

  ghost predicate Distinct(r: seq<Item>) {
    forall i, j :: 0 <= i < |r| && 0 <= j < |r| && r[i] == r[j] ==> i == j
  }

  /** The sequence with `x` inserted at position `k`. */
  ghost function Inserted<T>(s: seq<T>, k: nat, x: T): (r: seq<T>)
    requires k <= |s|
    ensures |r| == |s| + 1
  {
    seq(|s| + 1, i requires 0 <= i <= |s| => if i < k then s[i] else if i == k then x else s[i - 1])
  }

  /** The sequence without position `k`. */
  ghost function Deleted<T>(s: seq<T>, k: nat): (r: seq<T>)
    requires k < |s|
    ensures |r| == |s| - 1
  {
    seq(|s| - 1, i requires 0 <= i < |s| - 1 => if i < k then s[i] else s[i + 1])
  }

  /** The links are those of the ring `r`, except that `x` sits between position `k` and the next. */
  ghost predicate Spliced(r: seq<Item>, k: nat, x: Item)
    requires k < |r|
    reads r`next, r`prev, x`next, x`prev
  {
    var n := |r|;
    && r[k].next == x && x.next == r[After(k, n)] && x.prev == r[k] && r[After(k, n)].prev == x
    && (forall i :: 0 <= i < n && i != k ==> r[i].next == r[After(i, n)])
    && (forall i :: 0 <= i < n && i != k ==> r[After(i, n)].prev == r[i])
  }

  lemma SplicedLinks(r: seq<Item>, k: nat, x: Item)
    requires k < |r| && Spliced(r, k, x)
    ensures Linked(Inserted(r, k + 1, x))
  {
    var n, r' := |r|, Inserted(r, k + 1, x);
    forall j | 0 <= j < n + 1
      ensures r'[j].next == r'[After(j, n + 1)] && r'[After(j, n + 1)].prev == r'[j]
    {
      if j < k {
        assert r'[j] == r[j] && r'[j + 1] == r[After(j, n)];
      } else if j > k + 1 {
        assert r'[j] == r[j - 1] && r'[After(j, n + 1)] == r[After(j - 1, n)];
      } else if j == k + 1 {
        assert r'[j] == x && r'[After(j, n + 1)] == r[After(k, n)];
      }
    }
  }

  lemma InsertedDistinct(r: seq<Item>, k: nat, x: Item)
    requires k <= |r| && Distinct(r) && x !in r
    ensures Distinct(Inserted(r, k, x))
  {
  }

  lemma InsertedOwned(r: seq<Item>, k: nat, x: Item, list: List)
    requires k < |r| && Owned(r, list) && x.container == list
    ensures Owned(Inserted(r, k + 1, x), list)
  {
  }

  lemma InsertedAt(r: seq<Item>, k: nat, x: Item, at: nat)
    requires k < |r| && at < |r|
    ensures var r' := Inserted(r, k + 1, x); r'[0] == r[0] && r'[if k < at then at + 1 else at] == r[at]
  {
  }

  /** The links are those of the ring `r` without position `k`. */
  ghost predicate Bypassed(r: seq<Item>, k: nat)
    requires 0 < k < |r|
    reads r`next, r`prev
  {
    var n := |r|;
    && r[k - 1].next == r[After(k, n)] && r[After(k, n)].prev == r[k - 1]
    && (forall i :: 0 <= i < n && i != k - 1 ==> r[i].next == r[After(i, n)])
    && (forall i :: 0 <= i < n && i != k ==> r[After(i, n)].prev == r[i])
  }

  lemma BypassedLinks(r: seq<Item>, k: nat)
    requires 0 < k < |r| && Bypassed(r, k)
    ensures Linked(Deleted(r, k))
  {
    var n, r' := |r|, Deleted(r, k);
    forall j | 0 <= j < n - 1
      ensures r'[j].next == r'[After(j, n - 1)] && r'[After(j, n - 1)].prev == r'[j]
    {
      if j < k - 1 {
        assert r'[j] == r[j] && r'[j + 1] == r[After(j, n)];
      } else if j == k - 1 {
        assert r'[j] == r[k - 1] && r'[After(j, n - 1)] == r[After(k, n)];
      } else {
        assert r'[j] == r[j + 1] && r'[After(j, n - 1)] == r[After(j + 1, n)];
      }
    }
  }

  lemma DeletedDistinct(r: seq<Item>, k: nat)
    requires k < |r| && Distinct(r)
    ensures Distinct(Deleted(r, k)) && r[k] !in Deleted(r, k)
  {
  }

  lemma AtUnique(r: seq<Item>, k: nat, at: nat)
    requires Distinct(r) && k < |r| && at < |r|
    ensures r[at] == r[k] <==> at == k
  {
  }

  lemma Before(r: seq<Item>, k: nat)
    requires Linked(r) && 0 < k < |r|
    ensures r[k].prev == r[k - 1] && r[k].next == r[After(k, |r|)]
  {
    assert r[After(k - 1, |r|)].prev == r[k - 1];
  }

  lemma OwnedDeleted(r: seq<Item>, k: nat, list: List)
    requires 0 < k < |r| && forall i :: 1 <= i < |r| && i != k ==> r[i].container == list
    ensures Owned(Deleted(r, k), list)
  {
  }

  lemma OthersDiffer(r: seq<Item>, k: nat)
    requires k < |r| && Distinct(r)
    ensures forall i :: 0 <= i < |r| && i != k ==> r[i] != r[k]
  {
  }

  /** The index after a removal, which steps back when it stands on the removed item. */
  lemma DeletedAt(r: seq<Item>, k: nat, at: nat)
    requires 0 < k < |r| && at < |r|
    ensures var r' := Deleted(r, k);
            r'[0] == r[0] && r'[if k <= at then at - 1 else at] == if at == k then r[k - 1] else r[at]
  {
  }

  // ---------------------------------------------------------------------------
  // Lists
  // ---------------------------------------------------------------------------

  /** xListEnd, pxIndex and uxNumberOfItems; the ghost `ring` is the end marker followed by the items in order. */
  class List {
    const end: Item
    var index: Item
    var count: nat
    ghost var ring: seq<Item>
    /** The position of the index in the ring. */
    ghost var at: nat

    /** Following the links from the end marker passes every item once and comes back. */
    ghost predicate Valid()
      reads this, ring
    {
      && |ring| == count + 1 && ring[0] == end && end.key == MAX_DELAY && end.container == null
      && at < |ring| && ring[at] == index
      && Distinct(ring) && Linked(ring) && Owned(ring, this)
    }

    /** vListInitialise */
    constructor ()
      ensures Valid() && count == 0 && at == 0 && fresh(end)
    {
      var e := new Item(MAX_DELAY, 0);
      end, index, count := e, e, 0;
      ring, at := [e], 0;
      new;
      end.next, end.prev := end, end;
    }

    /** The items in order, and where the index stands among them. */
    ghost function View(): (v: Ring<Item>)
      requires Valid()
      reads this, ring
      ensures v.Ok() && |v.items| == count
    {
      Ring(ring[1..], at)
    }

    /** The link updates with which both insertions put `x` behind `it`. */
    method Splice(it: Item, x: Item, ghost r: seq<Item>, ghost k: nat)
      requires Linked(r) && Distinct(r) && k < |r| && r[k] == it && x !in r
      modifies r`next, r`prev, x`next, x`prev
      ensures Spliced(r, k, x)
    {
      var succ := it.next;
      x.next := succ;
      x.prev := it;
      succ.prev := x;
      it.next := x;
    }

    method LinkAfter(it: Item, x: Item, ghost k: nat)
      requires Valid() && k < |ring| && ring[k] == it && x !in ring
      modifies this`count, this`ring, this`at, ring`next, ring`prev, x`next, x`prev, x`container
      ensures Valid() && ring == Inserted(old(ring), k + 1, x) && x.container == this
      ensures at == if k < old(at) then old(at) + 1 else old(at)
    {
      hide Linked, Distinct, Owned, Spliced, Inserted;
      Splice(it, x, ring, k);
      x.container := this;
      SplicedLinks(ring, k, x);
      InsertedDistinct(ring, k + 1, x);
      InsertedOwned(ring, k, x, this);
      InsertedAt(ring, k, x, at);
      count := count + 1;
      at := if k < at then at + 1 else at;
      ring := Inserted(ring, k + 1, x);
    }

    /** vListInsertEnd */
    method InsertEnd(x: Item)
      requires Valid() && x.container == null && x !in ring
      modifies this`count, this`ring, this`at, ring`next, ring`prev, x`next, x`prev, x`container
      ensures Valid() && x.container == this && View() == old(View()).InsertEnd(x)
    {
      ghost var k := if at == 0 then |ring| - 1 else at - 1;
      assert ring[After(k, |ring|)] == index;
      InsertedView(ring, k, at, x);
      LinkAfter(index.prev, x, k);
    }

    /**
     * The search of vListInsert.  It cannot run past the end marker, whose
     * value is above every value that is searched for; the largest value itself
     * goes to the end without a search.
     */
    method Search(key: Tick) returns (place: Item)
      requires Valid()
      ensures place == ring[Rank(Entries(View().items), key)]
    {
      place := end;
      ghost var entries, k := Entries(View().items), 0;
      if key == MAX_DELAY {
        k := |ring| - 1;
        assert ring[After(k, |ring|)] == end;
        place := end.prev;
      } else {
        while place.next.key <= key
          invariant k < |ring| && ring[k] == place && place.next == ring[After(k, |ring|)]
          invariant forall i :: 0 <= i < k ==> entries[i].key <= key
          decreases |ring| - k
        {
          assert ring[After(k, |ring|)] != end;
          assert entries[k].key == ring[k + 1].key;
          place := place.next;
          k := k + 1;
        }
      }
      RankIsUnique(entries, key, k);
    }

    /** vListInsert */
    method Insert(x: Item)
      requires Valid() && x.container == null && x !in ring
      modifies this`count, this`ring, this`at, ring`next, ring`prev, x`next, x`prev, x`container
      ensures Valid() && x.container == this
      ensures Entries(View().items) == InsertOrdered(old(Entries(View().items)), Entry(x.key, x))
      ensures old(Sorted(Entries(View().items))) ==>
                Sorted(Entries(View().items)) && BehindNotLarger(old(Entries(View().items)), x.key)
      ensures View().index == old(at) + if Rank(old(Entries(View().items)), x.key) < old(at) then 1 else 0
    {
      hide Linked, Distinct, Owned;
      ghost var entries := Entries(View().items);
      var place := Search(x.key);
      ghost var k := Rank(entries, x.key);
      InsertOrderedSplits(entries, Entry(x.key, x));
      if Sorted(entries) { InsertOrderedSorted(entries, Entry(x.key, x)); }
      hide Sorted, InsertOrdered, Rank;
      ghost var before := ring;
      LinkAfter(place, x, k);
      InsertedEntries(before, k, x, entries);
    }

    /** The link updates of uxListRemove. */
    method Bypass(x: Item, ghost r: seq<Item>, ghost k: nat)
      requires Linked(r) && Distinct(r) && 0 < k < |r| && r[k] == x
      modifies r`next, r`prev
      ensures Bypassed(r, k) && x.prev == r[k - 1]
    {
      assert r[After(k - 1, |r|)].prev == r[k - 1];
      x.next.prev := x.prev;
      x.prev.next := x.next;
    }

    method Unlink(x: Item, ghost k: nat)
      requires Valid() && 0 < k < |ring| && ring[k] == x
      modifies this`index, this`count, this`ring, this`at, ring`next, ring`prev, x`container
      ensures Valid() && x.container == null && ring == Deleted(old(ring), k)
      ensures at == if k <= old(at) then old(at) - 1 else old(at)
    {
      hide Linked, Distinct, Bypassed, Deleted;
      ghost var r := ring;
      Before(r, k);
      DeletedDistinct(r, k);
      DeletedAt(r, k, at);
      OthersDiffer(r, k);
      AtUnique(r, k, at);
      Bypass(x, r, k);
      BypassedLinks(r, k);
      if index == x {
        index := x.prev;
      }
      x.container := null;
      OwnedDeleted(r, k, this);
      count := count - 1;
      at := if k <= at then at - 1 else at;
      ring := Deleted(r, k);
    }

    /** uxListRemove */
    method Remove(x: Item, ghost i: nat) returns (remaining: nat)
      requires Valid() && i < |View().items| && View().items[i] == x
      modifies this`index, this`count, this`ring, this`at, ring`next, ring`prev, x`container
      ensures Valid() && x.container == null && x !in ring && View() == old(View()).RemoveAt(i) && remaining == count
    {
      DeletedView(ring, i, at);
      DeletedDistinct(ring, i + 1);
      Unlink(x, i + 1);
      remaining := count;
    }

    /** listGET_OWNER_OF_NEXT_ENTRY: the index moves on, over the end marker. */
    method OwnerOfNext() returns (owner: Task)
      requires Valid() && count > 0
      modifies this`index, this`at
      ensures Valid() && View() == old(View()).Next() && owner == old(View()).Visited().owner
    {
      assert ring[at].next == ring[After(at, |ring|)];
      index := index.next;
      at := After(at, |ring|);
      if index == end {
        assert ring[0].next == ring[After(0, |ring|)];
        index := index.next;
        at := 1;
      }
      owner := index.owner;
    }
  }

  /** The rank of the key separates the entries that are not larger from the others. */
  ghost predicate BehindNotLarger(s: seq<Entry<Item>>, key: Tick) {
    forall i :: 0 <= i < |s| ==> (i < Rank(s, key) <==> s[i].key <= key)
  }

  /** The items as values. */
  ghost function Entries(s: seq<Item>): (r: seq<Entry<Item>>)
    reads s
    ensures |r| == |s|
  {
    seq(|s|, i requires 0 <= i < |s| reads s => Entry(s[i].key, s[i]))
  }

  /** Insertion before the index, in terms of the items. */
  lemma InsertedView(r: seq<Item>, k: nat, at: nat, x: Item)
    requires at < |r| && k == if at == 0 then |r| - 1 else at - 1
    ensures Inserted(r, k + 1, x)[1..] == Ring(r[1..], at).InsertEnd(x).items
  {
  }

  lemma DeletedView(r: seq<Item>, i: nat, at: nat)
    requires i + 1 < |r| && at < |r|
    ensures Ring(Deleted(r, i + 1)[1..], if i < at then at - 1 else at) == Ring(r[1..], at).RemoveAt(i)
  {
    assert Deleted(r, i + 1)[1..] == r[1..][..i] + r[1..][i + 1..];
  }

  lemma InsertedEntries(r: seq<Item>, k: nat, x: Item, before: seq<Entry<Item>>)
    requires 0 <= k < |r| && |before| == |r| - 1
    requires forall i :: 0 <= i < |before| ==> before[i] == Entry(r[i + 1].key, r[i + 1])
    ensures Entries(Inserted(r, k + 1, x)[1..]) == before[..k] + [Entry(x.key, x)] + before[k..]
  {
  }
}
