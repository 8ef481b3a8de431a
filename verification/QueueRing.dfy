/**
 * The storage of a queue (queue.c): a byte array used as a ring of fixed-size
 * items, with a write position and a read position that trails by one item.
 * It behaves as a bounded double-ended queue of items.
 */
module QueueRing {

  type Byte = bv8

  type Item = seq<Byte>

  /** queueSEND_TO_BACK, queueSEND_TO_FRONT and queueOVERWRITE */
  datatype Position = Back | Front | Overwrite

  // ---------------------------------------------------------------------------
  // Items in the bytes
  // ---------------------------------------------------------------------------

  lemma SlotBounds(slot: nat, length: nat, size: nat)
    requires slot < length
    ensures 0 <= slot * size && slot * size + size <= length * size
  {
    assert slot * size + size == (slot + 1) * size;
    assert (slot + 1) * size <= length * size;
  }

  /** Different slots do not overlap. */
  lemma SlotsApart(a: nat, b: nat, size: nat)
    requires a < b
    ensures a * size + size <= b * size
  {
    SlotBounds(a, b, size);
  }

  /** The wrap test on byte positions is the wrap test on slots. */
  lemma SlotOrder(a: nat, b: nat, size: nat)
    requires size > 0
    ensures a * size >= b * size <==> a >= b
  {
    if a < b { SlotsApart(a, b, size); }
    if b < a { SlotsApart(b, a, size); }
  }

  function SlotAt(bytes: seq<Byte>, length: nat, size: nat, slot: nat): (r: Item)
    requires slot < length && |bytes| == length * size
    ensures |r| == size
  {
    SlotBounds(slot, length, size);
    bytes[slot * size..slot * size + size]
  }

  /** The slot `k` places after `first`. */
  function SlotAfter(first: nat, k: nat, length: nat): (r: nat)
    requires first < length && k <= length
    ensures r < length
  {
    if first + k < length then first + k else first + k - length
  }

  /** The `count` items from slot `first` on. */
  function Window(bytes: seq<Byte>, length: nat, size: nat, first: nat, count: nat): (r: seq<Item>)
    requires first < length && |bytes| == length * size && count <= length
    ensures |r| == count
    ensures forall k :: 0 <= k < count ==> r[k] == SlotAt(bytes, length, size, SlotAfter(first, k, length))
  {
    seq(count, k requires 0 <= k < count => SlotAt(bytes, length, size, SlotAfter(first, k, length)))
  }

  /** The bytes with one slot rewritten, which changes that slot and no other. */
  function Written(bytes: seq<Byte>, length: nat, size: nat, slot: nat, item: Item): (r: seq<Byte>)
    requires slot < length && |bytes| == length * size && |item| == size
    ensures |r| == |bytes|
    ensures SlotAt(r, length, size, slot) == item
  {
    SlotBounds(slot, length, size);
    bytes[..slot * size] + item + bytes[slot * size + size..]
  }

  lemma WrittenElsewhere(bytes: seq<Byte>, length: nat, size: nat, slot: nat, item: Item, other: nat)
    requires slot < length && |bytes| == length * size && |item| == size && other < length && other != slot
    ensures SlotAt(Written(bytes, length, size, slot, item), length, size, other) == SlotAt(bytes, length, size, other)
  {
    SlotBounds(slot, length, size);
    SlotBounds(other, length, size);
    if other < slot { SlotsApart(other, slot, size); } else { SlotsApart(slot, other, size); }
    var w := Written(bytes, length, size, slot, item);
    forall i | other * size <= i < other * size + size ensures w[i] == bytes[i] {
      if other > slot {
        assert w[i] == bytes[slot * size + size..][i - (slot * size + size)];
      }
    }
  }

  /** A slot outside a window can be rewritten without changing the window. */
  lemma WindowUnchanged(bytes: seq<Byte>, length: nat, size: nat, first: nat, count: nat, slot: nat, item: Item)
    requires first < length && |bytes| == length * size && count <= length && slot < length && |item| == size
    requires forall k :: 0 <= k < count ==> SlotAfter(first, k, length) != slot
    ensures Window(Written(bytes, length, size, slot, item), length, size, first, count)
            == Window(bytes, length, size, first, count)
  {
    forall k | 0 <= k < count
      ensures Window(Written(bytes, length, size, slot, item), length, size, first, count)[k]
              == Window(bytes, length, size, first, count)[k]
    {
      WrittenElsewhere(bytes, length, size, slot, item, SlotAfter(first, k, length));
    }
  }

  /** Writing the slot behind a window that is not full appends. */
  lemma WindowAppend(bytes: seq<Byte>, length: nat, size: nat, first: nat, count: nat, item: Item)
    requires first < length && |bytes| == length * size && count < length && |item| == size
    ensures Window(Written(bytes, length, size, SlotAfter(first, count, length), item), length, size, first, count + 1)
         == Window(bytes, length, size, first, count) + [item]
  {
    var slot := SlotAfter(first, count, length);
    WindowUnchanged(bytes, length, size, first, count, slot, item);
    var bytes' := Written(bytes, length, size, slot, item);
    assert Window(bytes', length, size, first, count + 1) == Window(bytes', length, size, first, count) + [item];
  }

  /** Writing the slot before a window that is not full prepends. */
  lemma WindowPrepend(bytes: seq<Byte>, length: nat, size: nat, slot: nat, count: nat, item: Item)
    requires slot < length && |bytes| == length * size && count < length && |item| == size
    ensures Window(Written(bytes, length, size, slot, item), length, size, slot, count + 1)
         == [item] + Window(bytes, length, size, SlotAfter(slot, 1, length), count)
  {
    var first := SlotAfter(slot, 1, length);
    WindowUnchanged(bytes, length, size, first, count, slot, item);
    WindowSplit(Written(bytes, length, size, slot, item), length, size, slot, count + 1);
  }

  /** The first item of a window and the rest. */
  lemma WindowSplit(bytes: seq<Byte>, length: nat, size: nat, first: nat, count: nat)
    requires first < length && |bytes| == length * size && 0 < count <= length
    ensures Window(bytes, length, size, first, count)
         == [SlotAt(bytes, length, size, first)] + Window(bytes, length, size, SlotAfter(first, 1, length), count - 1)
  {
    forall k | 0 < k < count
      ensures SlotAfter(first, k, length) == SlotAfter(SlotAfter(first, 1, length), k - 1, length)
    {
    }
  }

  // ---------------------------------------------------------------------------
  // The ring
  // ---------------------------------------------------------------------------

  class QueueStorage {
    const length: nat
    const itemSize: nat
    const storage: array<Byte>
    /** pcWriteTo and pcReadFrom, as distances from pcHead. */
    var writeTo: nat
    var readFrom: nat
    var messagesWaiting: nat
    /** The slots the two positions stand on. */
    ghost var writeSlot: nat
    ghost var readSlot: nat

    ghost predicate Valid()
      reads this, storage
    {
      && length >= 1 && storage.Length == length * itemSize
      && messagesWaiting <= length && writeSlot < length && readSlot < length
      && writeTo == writeSlot * itemSize && readFrom == readSlot * itemSize
      && (itemSize > 0 ==> writeSlot == SlotAfter(SlotAfter(readSlot, 1, length), messagesWaiting, length))
    }

    /** The queue as a sequence, the next item to be received first. */
    ghost function Items(): (r: seq<Item>)
      requires Valid()
      reads this, storage
      ensures |r| == messagesWaiting
    {
      Window(storage[..], length, itemSize, SlotAfter(readSlot, 1, length), messagesWaiting)
    }

    /** The positions xQueueGenericReset sets on a new queue. */
    constructor (length: nat, itemSize: nat)
      requires length >= 1
      ensures Valid() && Items() == [] && this.length == length && this.itemSize == itemSize && fresh(storage)
    {
      this.length, this.itemSize := length, itemSize;
      storage := new Byte[length * itemSize](_ => 0);
      writeTo, messagesWaiting := 0, 0;
      readFrom := (length - 1) * itemSize;
      writeSlot, readSlot := 0, length - 1;
    }

    /** memcpy into the slot at byte position `at`. */
    method CopyIn(at: nat, ghost slot: nat, item: Item)
      requires slot < length && storage.Length == length * itemSize && at == slot * itemSize && |item| == itemSize
      modifies storage
      ensures storage[..] == Written(old(storage[..]), length, itemSize, slot, item)
    {
      SlotBounds(slot, length, itemSize);
      var i := 0;
      while i < itemSize
        invariant i <= itemSize
        invariant storage[..] == old(storage[..])[..at] + item[..i] + old(storage[..])[at + i..]
      {
        storage[at + i] := item[i];
        i := i + 1;
      }
    }

    /**
     * prvCopyDataToQueue, once the caller has found room or is overwriting a
     * queue of length one.  The count stays within the length unless a queue
     * without data is overwritten while full.
     */
    method CopyDataToQueue(item: Item, position: Position)
      requires Valid() && |item| == itemSize
      requires if position == Overwrite then length == 1 else messagesWaiting < length
      modifies this`writeTo, this`readFrom, this`messagesWaiting, this`writeSlot, this`readSlot, storage
      ensures Valid() <==> !(itemSize == 0 && position == Overwrite && old(messagesWaiting) == 1)
      ensures messagesWaiting == if itemSize > 0 && position == Overwrite && old(messagesWaiting) == 1 then 1
              else old(messagesWaiting) + 1
      ensures Valid() && position == Back ==> Items() == old(Items()) + [item]
      ensures Valid() && position == Front ==> Items() == [item] + old(Items())
      ensures Valid() && position == Overwrite ==> Items() == [item]
    {
      if itemSize == 0 {
        messagesWaiting := messagesWaiting + 1;
      } else if position == Back {
        ghost var bytes, first, count := storage[..], SlotAfter(readSlot, 1, length), messagesWaiting;
        CopyIn(writeTo, writeSlot, item);
        AdvanceWrite();
        WindowAppend(bytes, length, itemSize, first, count, item);
        messagesWaiting := messagesWaiting + 1;
      } else {
        ghost var bytes, slot, count := storage[..], readSlot, messagesWaiting;
        CopyIn(readFrom, readSlot, item);
        RetreatRead();
        var messages := messagesWaiting;
        if position == Overwrite && messages > 0 { messages := messages - 1; }
        WindowPrepend(bytes, length, itemSize, slot, messages, item);
        messagesWaiting := messages + 1;
      }
    }

    /**
     * A zero-size queue that is overwritten while full: the count exceeds the
     * length and the queue is no longer well formed.
     */
    method OverwriteFullSemaphore()
      requires Valid() && length == 1 && itemSize == 0 && messagesWaiting == 1
      modifies this`writeTo, this`readFrom, this`messagesWaiting, this`writeSlot, this`readSlot, storage
      ensures messagesWaiting == 2 && !Valid()
    {
      CopyDataToQueue([], Overwrite);
    }

    method AdvanceWrite()
      requires itemSize > 0 && writeSlot < length && writeTo == writeSlot * itemSize
      modifies this`writeTo, this`writeSlot
      ensures writeSlot == SlotAfter(old(writeSlot), 1, length) && writeTo == writeSlot * itemSize
    {
      SlotOrder(writeSlot + 1, length, itemSize);
      assert (writeSlot + 1) * itemSize == writeTo + itemSize;
      writeSlot := SlotAfter(writeSlot, 1, length);
      writeTo := writeTo + itemSize;
      if writeTo >= length * itemSize { writeTo := 0; }
    }

    method RetreatRead()
      requires itemSize > 0 && readSlot < length && readFrom == readSlot * itemSize
      modifies this`readFrom, this`readSlot
      ensures readSlot < length && SlotAfter(readSlot, 1, length) == old(readSlot) && readFrom == readSlot * itemSize
    {
      SlotOrder(readSlot, 1, itemSize);
      if readFrom < itemSize {
        readFrom := length * itemSize - itemSize;
        readSlot := length - 1;
      } else {
        readFrom := readFrom - itemSize;
        readSlot := readSlot - 1;
      }
    }

    /** prvCopyDataFromQueue */
    method CopyDataFromQueue() returns (item: Item)
      requires Valid() && messagesWaiting > 0
      modifies this`readFrom, this`readSlot
      ensures item == old(Items())[0] && readSlot < length && readFrom == readSlot * itemSize
      ensures readSlot == if itemSize == 0 then old(readSlot) else SlotAfter(old(readSlot), 1, length)
    {
      item := [];
      if itemSize != 0 {
        AdvanceRead();
        SlotBounds(readSlot, length, itemSize);
        item := storage[readFrom..readFrom + itemSize];
        assert item == SlotAt(storage[..], length, itemSize, readSlot);
      } else {
        assert |old(Items())[0]| == 0;
      }
    }

    method AdvanceRead()
      requires itemSize > 0 && readSlot < length && readFrom == readSlot * itemSize
      modifies this`readFrom, this`readSlot
      ensures readSlot == SlotAfter(old(readSlot), 1, length) && readFrom == readSlot * itemSize
    {
      SlotOrder(readSlot + 1, length, itemSize);
      assert (readSlot + 1) * itemSize == readFrom + itemSize;
      readSlot := SlotAfter(readSlot, 1, length);
      readFrom := readFrom + itemSize;
      if readFrom >= length * itemSize { readFrom := 0; }
    }

    /** The data part of xQueueReceive. */
    method Receive() returns (item: Item)
      requires Valid() && messagesWaiting > 0
      modifies this`readFrom, this`readSlot, this`messagesWaiting
      ensures Valid() && old(Items()) == [item] + Items()
    {
      WindowSplit(storage[..], length, itemSize, SlotAfter(readSlot, 1, length), messagesWaiting);
      item := CopyDataFromQueue();
      messagesWaiting := messagesWaiting - 1;
    }

    /** The data part of xQueuePeek, which puts the read position back. */
    method Peek() returns (item: Item)
      requires Valid() && messagesWaiting > 0
      modifies this`readFrom, this`readSlot
      ensures Valid() && Items() == old(Items()) && item == Items()[0]
    {
      var originalReadPosition := readFrom;
      ghost var originalSlot := readSlot;
      item := CopyDataFromQueue();
      readFrom := originalReadPosition;
      readSlot := originalSlot;
    }
  }
}
