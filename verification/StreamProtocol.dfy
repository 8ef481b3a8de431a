/**
 * One writer and one reader of a stream or message buffer, with no lock between
 * them (stream_buffer.c).  A step is a single read or write of an index, or of
 * one byte of the ring, or a critical section in which one side decides to
 * sleep or notifies the other; the two sides may be interleaved in any way.
 */
module StreamProtocol {
  import opened Basics
  import opened Ticks
  import opened StreamBuffers

  datatype Mode = Stream | Batching | Messages

  /** Where the writer is in a send. */
  datatype Writer =
    | Resting
    | Checking(data: seq<Byte>)                                   // about to look for space, else to sleep
    | WriterSleeps(data: seq<Byte>, space: nat)
    | WriterWoken(data: seq<Byte>, space: nat, expired: bool)     // about to clear xTaskWaitingToSend
    | TakesTail(data: seq<Byte>)                                  // about to read xTail
    | AddsTail(data: seq<Byte>, original: nat)                    // about to read it again, for the sum
    | SubtractsHead(data: seq<Byte>, original: nat, sum: nat)     // about to read xHead
    | ChecksTail(data: seq<Byte>, original: nat, difference: int) // about to compare xTail
    | HasSpace(data: seq<Byte>, space: nat)
    | Writing(data: seq<Byte>, plan: seq<Byte>, done: nat)        // `done` bytes of the plan are in the ring
    | Counting                                                    // has moved xHead; about to count the bytes there
    | Notifying                                                   // about to notify a waiting reader

  /** Where the reader is in a receive. */
  datatype Reader =
    | Idle
    | Awaiting(room: nat, threshold: nat)                         // about to look for bytes, else to sleep
    | ReaderSleeps(room: nat, threshold: nat)
    | ReaderWoken(room: nat, threshold: nat)                      // about to clear xTaskWaitingToReceive
    | TakesHead(room: nat, threshold: nat)                        // about to read xHead
    | HasCount(room: nat, threshold: nat, available: nat)
    | ReadingLength(room: nat, available: nat, word: seq<Byte>)
    | Reading(header: seq<Byte>, wanted: nat, bytes: seq<Byte>)
    | Completing                                                  // has moved xTail; about to notify a waiting writer

  /**
   * Whether xTaskWaitingToReceive (xTaskWaitingToSend) names the task, and
   * whether it has been notified since it went to sleep.
   */
  datatype Wait = Wait(registered: bool, notified: bool)

  /** The buffer, its two users, and the pieces accepted and delivered so far. */
  datatype Buffer = Buffer(
    mode: Mode, trigger: nat, ring: seq<Byte>, head: nat, tail: nat, writer: Writer, reader: Reader,
    toReceive: Wait, toSend: Wait, sent: seq<seq<Byte>>, got: seq<seq<Byte>>)

  datatype Event =
    | Send(data: seq<Byte>, wait: bool)
    | WriterStep
    | WakeWriter(expired: bool)            // the wait for a notification ends
    | Receive(room: nat, wait: bool)
    | ReceiveFromISR(room: nat)
    | ReaderStep
    | WakeReader
    | SetTrigger(level: nat)

  // ---------------------------------------------------------------------------
  // Steps
  // ---------------------------------------------------------------------------

  /** The space a writer waits for. */
  function Required(b: Buffer, data: seq<Byte>): int {
    if b.mode.Messages? then |data| + HEADER
    else if |data| > |b.ring| - 1 then |b.ring| - 1
    else |data|
  }

  /** A 32-bit length, to which a message buffer asserts that it can add the length word. */
  predicate MaySend(mode: Mode, data: seq<Byte>) {
    |data| < WORD && (mode.Messages? ==> |data| + HEADER < WORD)
  }

  predicate InRange(b: Buffer) {
    2 <= |b.ring| <= LONGEST && b.head < |b.ring| && b.tail < |b.ring|
  }

  predicate Enabled(b: Buffer, e: Event) {
    match e
    case Send(data, _) => b.writer.Resting? && MaySend(b.mode, data)
    case WriterStep => WriterRuns(b)
    case WakeWriter(_) => b.writer.WriterSleeps?
    case Receive(_, _) => b.reader.Idle?
    case ReceiveFromISR(_) => b.reader.Idle?
    case ReaderStep => ReaderRuns(b)
    case WakeReader => b.reader.ReaderSleeps?
    case SetTrigger(_) => true
  }

  predicate WriterRuns(b: Buffer) { !b.writer.Resting? && !b.writer.WriterSleeps? }

  predicate ReaderRuns(b: Buffer) { !b.reader.Idle? && !b.reader.ReaderSleeps? }

  /** The free space there is. */
  function Free(b: Buffer): (r: nat)
    requires InRange(b)
  {
    |b.ring| - 1 - |Bytes(b)|
  }

  /** A waiting task is notified, and waits no more. */
  function Notified(w: Wait): Wait { if w.registered then Wait(false, true) else w }

  /** The writer's next access. */
  function WriterNext(b: Buffer): Buffer
    requires Inv(b) && WriterRuns(b)
  {
    var n := |b.ring|;
    match b.writer
    case Checking(data) =>
      if Free(b) < Required(b, data) then b.(writer := WriterSleeps(data, Free(b)), toSend := Wait(true, false))
      else b.(writer := if Free(b) == 0 then TakesTail(data) else HasSpace(data, Free(b)))
    case WriterWoken(data, space, expired) =>
      b.(toSend := b.toSend.(registered := false),
         writer := if !expired then Checking(data) else if space == 0 then TakesTail(data) else HasSpace(data, space))
    case TakesTail(data) => b.(writer := AddsTail(data, b.tail))
    case AddsTail(data, original) => b.(writer := SubtractsHead(data, original, n + b.tail))
    case SubtractsHead(data, original, sum) => b.(writer := ChecksTail(data, original, sum - b.head))
    case ChecksTail(data, original, difference) =>
      b.(writer := if original != b.tail then TakesTail(data) else HasSpace(data, SpaceIn(n, difference)))
    case HasSpace(data, space) => b.(writer := Plan(b.mode, data, space))
    case Writing(data, plan, done) =>
      if done < |plan| then
        b.(ring := b.ring[Idx(n, b.head, done) := plan[done]], writer := Writing(data, plan, done + 1))
      else if data == [] then b.(writer := Resting)
      else b.(head := Idx(n, b.head, |plan|), sent := b.sent + [data], writer := Counting)
    case Counting => b.(writer := if Dist(n, b.tail, b.head) >= b.trigger then Notifying else Resting)
    case Notifying => b.(toReceive := Notified(b.toReceive), writer := Resting)
  }

  /** The end of xStreamBufferSpacesAvailable. */
  function SpaceIn(n: nat, difference: int): int {
    if difference - 1 >= n then difference - 1 - n else difference - 1
  }

  /** prvWriteMessageToBuffer: a message goes in whole or not at all, a stream takes the bytes that fit. */
  function Plan(mode: Mode, data: seq<Byte>, space: nat): Writer
    requires MaySend(mode, data)
  {
    if mode.Messages? then
      if space >= |data| + HEADER then Writing(data, Frame(data), 0) else Resting
    else
      var taken := if |data| < space then data else data[..space];
      if taken == [] then Resting else Writing(taken, taken, 0)
  }

  /** The reader's next access. */
  function ReaderNext(b: Buffer): Buffer
    requires Inv(b) && ReaderRuns(b)
  {
    var n := |b.ring|;
    match b.reader
    case Awaiting(room, threshold) =>
      if |Bytes(b)| <= threshold then b.(reader := ReaderSleeps(room, threshold), toReceive := Wait(true, false))
      else b.(reader := HasCount(room, threshold, |Bytes(b)|))
    case ReaderWoken(room, threshold) =>
      b.(toReceive := b.toReceive.(registered := false), reader := TakesHead(room, threshold))
    case TakesHead(room, threshold) => b.(reader := HasCount(room, threshold, Dist(n, b.tail, b.head)))
    case HasCount(room, threshold, available) => b.(reader := Begin(b.mode, room, threshold, available))
    case ReadingLength(room, available, word) =>
      b.(reader := if |word| < HEADER then ReadingLength(room, available, word + [b.ring[Idx(n, b.tail, |word|)]])
                   else Measure(room, available, word))
    case Reading(header, wanted, bytes) =>
      if |bytes| < wanted then
        b.(reader := Reading(header, wanted, bytes + [b.ring[Idx(n, b.tail, |header| + |bytes|)]]))
      else b.(tail := Idx(n, b.tail, |header| + wanted), got := b.got + [bytes], reader := Completing)
    case Completing => b.(toSend := Notified(b.toSend), reader := Idle)
  }

  /** The bytes a receive leaves alone: a length word, or what a batching buffer collects. */
  function Threshold(b: Buffer): nat {
    match b.mode
    case Stream => 0
    case Batching => b.trigger
    case Messages => HEADER
  }

  /** A level of zero stands for one, and one that the buffer cannot reach is refused. */
  function NewTrigger(b: Buffer, level: nat): nat {
    var l := if level == 0 then 1 else level;
    if l < |b.ring| then l else b.trigger
  }

  /** The reader goes ahead when more bytes are there than the threshold. */
  function Begin(mode: Mode, room: nat, threshold: nat, available: nat): Reader {
    if available <= threshold then Idle
    else if mode.Messages? then ReadingLength(room, available, [])
    else
      var count := if room < available then room else available;
      if count == 0 then Idle else Reading([], count, [])
  }

  /** The length word is known: a message too long for the room is left where it is. */
  function Measure(room: nat, available: nat, word: seq<Byte>): Reader
    requires |word| == HEADER
  {
    var wanted := if LengthOf(word) > room then 0 else LengthOf(word);
    var count := if wanted < available - HEADER then wanted else available - HEADER;
    if count <= 0 then Idle else Reading(word, count, [])
  }

  function Step(b: Buffer, e: Event): Buffer
    requires Inv(b) && Enabled(b, e)
  {
    match e
    case Send(data, wait) =>
      // a message that can never fit is not waited for
      var waits := wait && !(b.mode.Messages? && Required(b, data) > |b.ring| - 1);
      b.(writer := if waits then Checking(data) else TakesTail(data))
    case WriterStep => WriterNext(b)
    case WakeWriter(expired) => b.(writer := WriterWoken(b.writer.data, b.writer.space, expired))
    case Receive(room, wait) =>
      b.(reader := if wait then Awaiting(room, Threshold(b)) else TakesHead(room, Threshold(b)))
    case ReceiveFromISR(room) => b.(reader := TakesHead(room, if b.mode.Messages? then HEADER else 0))
    case ReaderStep => ReaderNext(b)
    case WakeReader => b.(reader := ReaderWoken(b.reader.room, b.reader.threshold))
    case SetTrigger(level) => b.(trigger := NewTrigger(b, level))
  }

  // ---------------------------------------------------------------------------
  // The invariant
  // ---------------------------------------------------------------------------

  function Bytes(b: Buffer): seq<Byte>
    requires InRange(b)
  {
    Unread(b.ring, b.tail, b.head)
  }

  function Flatten(pieces: seq<seq<Byte>>): seq<Byte> {
    if pieces == [] then [] else Flatten(pieces[..|pieces| - 1]) + pieces[|pieces| - 1]
  }

  /** What is unread is what was accepted and not yet delivered. */
  predicate InOrder(b: Buffer)
    requires InRange(b)
  {
    if b.mode.Messages? then
      && AllMessages(b.sent)
      && |b.got| <= |b.sent| && b.got == b.sent[..|b.got|]
      && Bytes(b) == Encode(b.sent[|b.got|..])
    else Flatten(b.sent) == Flatten(b.got) + Bytes(b)
  }

  /** `t` was the tail at some moment since which the head has not moved. */
  predicate Stale(b: Buffer, t: int)
    requires InRange(b)
  {
    0 <= t < |b.ring| && Dist(|b.ring|, t, b.tail) + |Bytes(b)| < |b.ring|
  }

  predicate WriterOk(b: Buffer)
    requires InRange(b)
  {
    var n := |b.ring|;
    match b.writer
    case Resting => true
    case Checking(data) => MaySend(b.mode, data) && (b.mode.Messages? ==> Required(b, data) < n)
    case WriterSleeps(data, space) =>
      MaySend(b.mode, data) && (b.mode.Messages? ==> Required(b, data) < n) && space + |Bytes(b)| < n
    case WriterWoken(data, space, expired) =>
      MaySend(b.mode, data) && (b.mode.Messages? ==> Required(b, data) < n) && space + |Bytes(b)| < n
    case TakesTail(data) => MaySend(b.mode, data)
    case AddsTail(data, original) => MaySend(b.mode, data) && Stale(b, original)
    case SubtractsHead(data, original, sum) =>
      MaySend(b.mode, data) && Stale(b, original) && Stale(b, sum - n)
      && Dist(n, sum - n, b.tail) <= Dist(n, original, b.tail)
    case ChecksTail(data, original, difference) =>
      MaySend(b.mode, data) && Stale(b, original) && Stale(b, difference + b.head - n)
      && Dist(n, difference + b.head - n, b.tail) <= Dist(n, original, b.tail)
    case HasSpace(data, space) => MaySend(b.mode, data) && space + |Bytes(b)| < n
    case Writing(data, plan, done) =>
      && MaySend(b.mode, data)
      && plan == (if b.mode.Messages? then Frame(data) else data)
      && (!b.mode.Messages? ==> data != [])
      && |plan| + |Bytes(b)| < n && done <= |plan|
      && Slice(b.ring, b.head, done) == plan[..done]
    case Counting => true
    case Notifying => true
  }

  /** `k` bytes are a number of whole frames. */
  predicate Boundary(ms: seq<seq<Byte>>, k: int) {
    k == 0 || (ms != [] && Boundary(ms[1..], k - HEADER - |ms[0]|))
  }

  predicate ReaderOk(b: Buffer)
    requires InRange(b)
  {
    match b.reader
    case Idle => true
    case Awaiting(room, threshold) => (b.mode.Messages? ==> threshold == HEADER) && (b.mode.Stream? ==> threshold == 0)
    case ReaderSleeps(room, threshold) => b.mode.Messages? ==> threshold == HEADER
    case ReaderWoken(room, threshold) => b.mode.Messages? ==> threshold == HEADER
    case TakesHead(room, threshold) => b.mode.Messages? ==> threshold == HEADER
    case HasCount(room, threshold, available) =>
      && available <= |Bytes(b)|
      && (b.mode.Messages? ==> threshold == HEADER && |b.got| <= |b.sent| && Boundary(b.sent[|b.got|..], available))
    case ReadingLength(room, available, word) =>
      && b.mode.Messages? && HEADER < available <= |Bytes(b)|
      && |b.got| <= |b.sent| && Boundary(b.sent[|b.got|..], available)
      && |word| <= HEADER && word == Bytes(b)[..|word|]
    case Reading(header, wanted, bytes) =>
      && 0 < wanted && |bytes| <= wanted
      && |header| + wanted <= |Bytes(b)|
      && bytes == Bytes(b)[|header|..|header| + |bytes|]
      && if b.mode.Messages? then |header| == HEADER && |b.got| < |b.sent| && wanted == |b.sent[|b.got|]|
         else header == []
    case Completing => true
  }

  /**
   * A task is registered as waiting only while it waits, and from the moment it
   * goes to sleep until it is notified.  A sleeping writer lacks the space it
   * needs, unless it has been notified or the reader is about to do so.
   */
  predicate WaitsOk(b: Buffer)
    requires InRange(b)
  {
    && (b.toReceive.registered ==> b.reader.ReaderSleeps? || b.reader.ReaderWoken?)
    && (b.reader.ReaderSleeps? && !b.toReceive.notified ==> b.toReceive.registered)
    && (b.toSend.registered ==> b.writer.WriterSleeps? || b.writer.WriterWoken?)
    && (b.writer.WriterSleeps? && !b.toSend.notified ==>
          b.toSend.registered && (b.reader.Completing? || Free(b) < Required(b, b.writer.data)))
  }

  predicate Inv(b: Buffer) {
    InRange(b) && b.trigger > 0 && InOrder(b) && WriterOk(b) && ReaderOk(b) && WaitsOk(b)
  }

  /** What creation asserts: a message buffer can hold more than a length word, and the trigger level can be reached. */
  predicate MayCreate(mode: Mode, size: nat, trigger: nat) {
    1 <= size < LONGEST && (mode.Messages? ==> size > HEADER) && trigger <= size
  }

  /** A new buffer of `size` bytes. */
  function Created(mode: Mode, size: nat, trigger: nat): (b: Buffer)
    requires MayCreate(mode, size, trigger)
    ensures Inv(b) && Bytes(b) == []
  {
    Buffer(mode, if trigger == 0 then 1 else trigger, seq(size + 1, i => 0), 0, 0, Resting, Idle,
           Wait(false, false), Wait(false, false), [], [])
  }

  // ---------------------------------------------------------------------------
  // The writer's steps
  // ---------------------------------------------------------------------------

  /** Space computed from a tail read earlier is at most the space there is; from the present tail, exactly that. */
  lemma SpaceBound(b: Buffer, difference: int)
    requires InRange(b) && Stale(b, difference + b.head - |b.ring|)
    ensures 0 <= SpaceIn(|b.ring|, difference) < |b.ring| - |Bytes(b)|
    ensures difference + b.head - |b.ring| == b.tail ==> SpaceIn(|b.ring|, difference) == |b.ring| - 1 - |Bytes(b)|
  {
  }

  /** One byte written into free space: what is unread stays. */
  lemma ByteWritten(b: Buffer)
    requires Inv(b) && b.writer.Writing? && b.writer.done < |b.writer.plan|
    ensures Inv(WriterNext(b)) && Bytes(WriterNext(b)) == Bytes(b)
  {
    hide Encode, Flatten, Boundary, Frame;
    var c, done, n := WriterNext(b), b.writer.done, |b.ring|;
    assert Bytes(c) == Bytes(b);
    hide Unread;
    assert forall i :: 0 <= i < done ==> Slice(b.ring, b.head, done)[i] == b.ring[Idx(n, b.head, i)];
    assert Slice(c.ring, b.head, done + 1) == b.writer.plan[..done + 1];
  }

  lemma {:induction false} BoundaryExtends(ms: seq<seq<Byte>>, m: seq<Byte>, k: int)
    requires Boundary(ms, k)
    ensures Boundary(ms + [m], k)
  {
    if k != 0 {
      BoundaryExtends(ms[1..], m, k - HEADER - |ms[0]|);
      assert (ms + [m])[1..] == ms[1..] + [m];
    }
  }

  /** All that is unread is whole frames. */
  lemma {:induction false} BoundaryAll(ms: seq<seq<Byte>>)
    requires AllMessages(ms)
    ensures Boundary(ms, |Encode(ms)|)
  {
    if ms != [] {
      BoundaryAll(ms[1..]);
    }
  }

  /** The head moves over the bytes written: they are unread from then on, after those that were. */
  lemma Published(b: Buffer)
    requires Inv(b) && b.writer.Writing? && b.writer.done == |b.writer.plan| && b.writer.data != []
    ensures InRange(WriterNext(b)) && Bytes(WriterNext(b)) == Bytes(b) + b.writer.plan
  {
    hide Encode, Flatten, Boundary, InOrder, ReaderOk, WaitsOk;
    var c, plan, n := WriterNext(b), b.writer.plan, |b.ring|;
    forall i | 0 <= i < |Bytes(b)| + |plan|
      ensures Bytes(c)[i] == (Bytes(b) + plan)[i]
    {
      if i >= |Bytes(b)| {
        var j := i - |Bytes(b)|;
        assert plan[j] == plan[..|plan|][j] == Slice(b.ring, b.head, |plan|)[j];
        assert Idx(n, b.head, j) == Idx(n, b.tail, i);
      }
    }
  }

  lemma PublishedOrder(b: Buffer)
    requires Inv(b) && b.writer.Writing? && b.writer.done == |b.writer.plan| && b.writer.data != []
    ensures InRange(WriterNext(b)) && InOrder(WriterNext(b))
  {
    hide Encode, Unread, Slice, ReaderOk, WaitsOk;
    var c, data := WriterNext(b), b.writer.data;
    Published(b);
    if b.mode.Messages? {
      var ms := b.sent[|b.got|..];
      EncodeAppend(ms, data);
      assert c.sent[|c.got|..] == ms + [data];
      assert c.sent[..|c.got|] == b.sent[..|b.got|];
    } else {
      assert c.sent[..|c.sent| - 1] == b.sent;
      assert Flatten(b.got) + Bytes(b) + data == Flatten(b.got) + (Bytes(b) + data);
    }
  }

  lemma PublishedReader(b: Buffer)
    requires Inv(b) && b.writer.Writing? && b.writer.done == |b.writer.plan| && b.writer.data != []
    ensures InRange(WriterNext(b)) && ReaderOk(WriterNext(b))
  {
    hide Encode, Flatten, Unread, Slice, WaitsOk;
    var c, data := WriterNext(b), b.writer.data;
    Published(b);
    if b.mode.Messages? {
      var ms := b.sent[|b.got|..];
      assert c.sent[|c.got|..] == ms + [data];
      if b.reader.HasCount? || b.reader.ReadingLength? {
        BoundaryExtends(ms, data, b.reader.available);
      }
    }
  }

  lemma PublishedInv(b: Buffer)
    requires Inv(b) && b.writer.Writing? && b.writer.done == |b.writer.plan| && b.writer.data != []
    ensures Inv(WriterNext(b))
  {
    hide InOrder, ReaderOk, Unread, Slice, Encode;
    PublishedOrder(b);
    PublishedReader(b);
  }

  /** What the writer does without moving the head leaves the contents and the reader's view alone. */
  lemma WriterFrame(b: Buffer, c: Buffer)
    requires Inv(b) && c == b.(writer := c.writer, toReceive := c.toReceive, toSend := c.toSend)
    ensures InRange(c) && Bytes(c) == Bytes(b) && InOrder(c) && ReaderOk(c)
  {
    hide Encode, Flatten, Boundary, Unread, WriterOk, WaitsOk;
  }

  /** The steps in which the writer reads the indexes to find the space. */
  lemma WriterLooks(b: Buffer)
    requires Inv(b) && WriterRuns(b) && !b.writer.Writing? && !WriterIsWaiting(b)
    ensures Inv(WriterNext(b)) && Bytes(WriterNext(b)) == Bytes(b)
  {
    hide Encode, Flatten, Boundary, Unread, Slice, InOrder, ReaderOk;
    WriterFrame(b, WriterNext(b));
    match b.writer
    case ChecksTail(data, original, difference) => SpaceBound(b, difference);
    case HasSpace(data, space) => NothingWritten(b.ring, b.head);
    case _ =>
  }

  predicate WriterIsWaiting(b: Buffer) {
    b.writer.Checking? || b.writer.WriterWoken? || b.writer.Counting? || b.writer.Notifying?
  }

  /** The steps in which the writer sleeps, wakes and notifies. */
  lemma WriterWaits(b: Buffer)
    requires Inv(b) && WriterIsWaiting(b)
    ensures Inv(WriterNext(b)) && Bytes(WriterNext(b)) == Bytes(b)
  {
    hide Encode, Flatten, Boundary, Unread, Slice, InOrder, ReaderOk;
    WriterFrame(b, WriterNext(b));
  }

  lemma WriterInv(b: Buffer)
    requires Inv(b) && WriterRuns(b)
    ensures Inv(WriterNext(b)) && Bytes(b) <= Bytes(WriterNext(b))
  {
    hide Encode, Flatten, Boundary, Unread, Slice, InOrder, ReaderOk;
    if WriterIsWaiting(b) {
      WriterWaits(b);
    } else if !b.writer.Writing? {
      WriterLooks(b);
    } else if b.writer.done < |b.writer.plan| {
      ByteWritten(b);
    } else if b.writer.data != [] {
      Published(b);
      PublishedInv(b);
    } else {
      WriterFrame(b, WriterNext(b));
    }
  }

  lemma NothingWritten(ring: seq<Byte>, head: nat)
    requires head < |ring|
    ensures Slice(ring, head, 0) == []
  {
  }

  // ---------------------------------------------------------------------------
  // The reader's steps
  // ---------------------------------------------------------------------------

  /** A byte read from the ring is the unread byte in that place. */
  lemma ByteRead(b: Buffer, k: nat)
    requires InRange(b) && k < |Bytes(b)|
    ensures b.ring[Idx(|b.ring|, b.tail, k)] == Bytes(b)[k]
  {
  }

  /**
   * The length word read at a frame's start is that of the next message, and
   * the whole message is among the bytes counted.
   */
  lemma NextMessage(b: Buffer)
    requires Inv(b) && b.reader.ReadingLength? && |b.reader.word| == HEADER
    ensures |b.got| < |b.sent| && LengthOf(b.reader.word) == |b.sent[|b.got|]| <= b.reader.available - HEADER
  {
    hide Unread, Slice;
    var ms := b.sent[|b.got|..];
    assert ms != [];
    FirstFrame(ms);
    BoundaryPositive(ms[1..], b.reader.available - HEADER - |ms[0]|);
  }

  lemma BoundaryPositive(ms: seq<seq<Byte>>, k: int)
    requires Boundary(ms, k)
    ensures k >= 0
  {
  }

  lemma TailMoved(b: Buffer)
    requires Inv(b) && b.reader.Reading? && |b.reader.bytes| == b.reader.wanted
    ensures var c, k := ReaderNext(b), |b.reader.header| + b.reader.wanted;
            && InRange(c) && k <= |Bytes(b)| && Bytes(c) == Bytes(b)[k..]
            && c == b.(tail := Idx(|b.ring|, b.tail, k), got := c.got, reader := Completing)
  {
    hide Encode, Flatten, Boundary, InOrder, WriterOk, WaitsOk, Unread;
    UnreadDrop(b.ring, b.tail, b.head, |b.reader.header| + b.reader.wanted);
  }

  /** The tail moves over the bytes read: the writer's view of the space stays a lower bound. */
  lemma Consumed(b: Buffer)
    requires Inv(b) && b.reader.Reading? && |b.reader.bytes| == b.reader.wanted
    ensures var c, k := ReaderNext(b), |b.reader.header| + b.reader.wanted;
            && InRange(c) && k <= |Bytes(b)| && Bytes(c) == Bytes(b)[k..] && WriterOk(c)
  {
    hide Encode, Flatten, Boundary, InOrder, ReaderOk, WaitsOk, ReaderNext, Slice, Unread, Stale, Dist, Idx;
    TailMoved(b);
    var c, k, n := ReaderNext(b), |b.reader.header| + b.reader.wanted, |b.ring|;
    match b.writer
    case AddsTail(_, original) => TailStale(b, c, k, original);
    case SubtractsHead(_, original, sum) =>
      TailStale(b, c, k, original);
      TailStale(b, c, k, sum - n);
    case ChecksTail(_, original, difference) =>
      TailStale(b, c, k, original);
      TailStale(b, c, k, difference + b.head - n);
    case _ =>
  }

  /** A tail read earlier falls further behind. */
  lemma TailStale(b: Buffer, c: Buffer, k: nat, t: int)
    requires InRange(b) && InRange(c) && c.ring == b.ring && c.head == b.head && k <= |Bytes(b)|
    requires c.tail == Idx(|b.ring|, b.tail, k) && |Bytes(c)| == |Bytes(b)| - k && Stale(b, t)
    ensures Stale(c, t) && Dist(|b.ring|, t, c.tail) == Dist(|b.ring|, t, b.tail) + k
  {
  }

  /** What was read is what was delivered next. */
  lemma ConsumedOrder(b: Buffer)
    requires Inv(b) && b.reader.Reading? && |b.reader.bytes| == b.reader.wanted
    ensures InRange(ReaderNext(b)) && InOrder(ReaderNext(b))
  {
    hide Unread, Slice, WriterOk, WaitsOk;
    var c := ReaderNext(b);
    Consumed(b);
    if b.mode.Messages? {
      var ms := b.sent[|b.got|..];
      FirstFrame(ms);
      assert ms[1..] == b.sent[|c.got|..];
      assert ms[0] == b.sent[|b.got|];
      assert b.sent[..|c.got|] == b.sent[..|b.got|] + [b.sent[|b.got|]];
    } else {
      assert c.got[..|c.got| - 1] == b.got;
      var k := b.reader.wanted;
      assert b.reader.bytes == Bytes(b)[..k];
      assert Flatten(b.got) + Bytes(b) == Flatten(b.got) + Bytes(b)[..k] + Bytes(b)[k..];
    }
  }

  lemma ConsumedInv(b: Buffer)
    requires Inv(b) && b.reader.Reading? && |b.reader.bytes| == b.reader.wanted
    ensures Inv(ReaderNext(b))
  {
    hide Unread, Slice, InOrder, WriterOk, Encode, Flatten, Boundary;
    Consumed(b);
    ConsumedOrder(b);
  }

  lemma HeadTaken(b: Buffer)
    requires Inv(b) && b.reader.TakesHead?
    ensures Inv(ReaderNext(b))
  {
    hide Encode, Flatten, Boundary, Slice;
    if b.mode.Messages? { BoundaryAll(b.sent[|b.got|..]); }
  }

  lemma LengthReadOn(b: Buffer)
    requires Inv(b) && b.reader.ReadingLength?
    ensures Inv(ReaderNext(b))
  {
    hide Encode, Flatten, Boundary, Unread, Slice, LengthOf;
    if |b.reader.word| < HEADER {
      ByteRead(b, |b.reader.word|);
    } else {
      NextMessage(b);
    }
  }

  lemma BytesReadOn(b: Buffer)
    requires Inv(b) && b.reader.Reading? && |b.reader.bytes| < b.reader.wanted
    ensures Inv(ReaderNext(b))
  {
    hide Encode, Flatten, Boundary, Unread, Slice;
    ByteRead(b, |b.reader.header| + |b.reader.bytes|);
  }

  /** What the reader does without moving the tail leaves the contents and the writer's view alone. */
  lemma ReaderFrame(b: Buffer, c: Buffer)
    requires Inv(b) && c == b.(reader := c.reader, toReceive := c.toReceive, toSend := c.toSend)
    ensures InRange(c) && Bytes(c) == Bytes(b) && InOrder(c) && WriterOk(c)
  {
    hide Encode, Flatten, Boundary, Unread, Slice, ReaderOk, WaitsOk;
  }

  /** The steps in which the reader sleeps, wakes and notifies. */
  lemma ReaderWaits(b: Buffer)
    requires Inv(b) && (b.reader.Awaiting? || b.reader.ReaderWoken? || b.reader.HasCount? || b.reader.Completing?)
    ensures Inv(ReaderNext(b))
  {
    hide Encode, Flatten, Boundary, Unread, Slice, WriterOk, LengthOf;
    ReaderFrame(b, ReaderNext(b));
    if b.reader.Awaiting? && b.mode.Messages? { BoundaryAll(b.sent[|b.got|..]); }
  }

  lemma ReaderInv(b: Buffer)
    requires Inv(b) && ReaderRuns(b)
    ensures Inv(ReaderNext(b))
  {
    hide Inv, WriterOk, InOrder, WaitsOk, ReaderNext, Bytes;
    match b.reader
    case TakesHead(room, threshold) => HeadTaken(b);
    case ReadingLength(room, available, word) => LengthReadOn(b);
    case Reading(header, wanted, bytes) => ReadsOn(b);
    case _ => ReaderWaits(b);
  }

  lemma ReadsOn(b: Buffer)
    requires Inv(b) && b.reader.Reading?
    ensures Inv(ReaderNext(b))
  {
    assert |b.reader.bytes| <= b.reader.wanted by { hide InOrder, WriterOk, WaitsOk; }
    hide Inv;
    if |b.reader.bytes| < b.reader.wanted { BytesReadOn(b); } else { ConsumedInv(b); }
  }

  // ---------------------------------------------------------------------------
  // Every interleaving
  // ---------------------------------------------------------------------------

  lemma StepInv(b: Buffer, e: Event)
    requires Inv(b) && Enabled(b, e)
    ensures Inv(Step(b, e))
  {
    hide Encode, Flatten, Boundary, Unread, Slice, InOrder;
    match e
    case Send(_, _) => WriterFrame(b, Step(b, e));
    case WriterStep => WriterInv(b);
    case WakeWriter(_) => WriterFrame(b, Step(b, e));
    case ReaderStep => ReaderInv(b);
    case SetTrigger(level) => TriggerInv(b, level);
    case _ => ReaderFrame(b, Step(b, e));
  }

  lemma TriggerInv(b: Buffer, level: nat)
    requires Inv(b)
    ensures Inv(Step(b, SetTrigger(level))) && Bytes(Step(b, SetTrigger(level))) == Bytes(b)
  {
    hide Encode, Flatten, Boundary, Unread, Slice;
  }

  ghost predicate RunEnabled(b: Buffer, es: seq<Event>)
    requires Inv(b)
    decreases |es|
  {
    es == [] || (Enabled(b, es[0]) && (StepInv(b, es[0]); RunEnabled(Step(b, es[0]), es[1..])))
  }

  ghost function Run(b: Buffer, es: seq<Event>): (r: Buffer)
    requires Inv(b) && RunEnabled(b, es)
    ensures Inv(r)
    decreases |es|
  {
    if es == [] then b else (StepInv(b, es[0]); Run(Step(b, es[0]), es[1..]))
  }

  /** Unread bytes are never overwritten: a step takes some from the front and adds some at the end. */
  lemma NothingOverwritten(b: Buffer, e: Event)
    requires Inv(b) && Enabled(b, e)
    ensures var c := Step(b, e);
            && InRange(c)
            && (Bytes(b) <= Bytes(c) || exists k :: 0 <= k <= |Bytes(b)| && Bytes(c) == Bytes(b)[k..])
            && (Bytes(c) != Bytes(b) ==> c.sent != b.sent || c.got != b.got)
  {
    hide Encode, Flatten, Boundary, Unread, Slice, InOrder, WriterOk, WaitsOk, Measure, Begin, Plan;
    match e
    case WriterStep =>
      WriterInv(b);
      if b.writer.Writing? && b.writer.done < |b.writer.plan| { ByteWritten(b); }
    case ReaderStep =>
      if b.reader.Reading? && |b.reader.bytes| == b.reader.wanted { Consumed(b); }
    case _ =>
  }

  /**
   * What each side believes is safe: the writer's space is at most what is
   * free, the reader's count at most what is there, and a writer that leaves
   * the loop over the tail has found exactly what is free.
   */
  lemma BeliefsAreSafe(b: Buffer, es: seq<Event>)
    requires Inv(b) && RunEnabled(b, es)
    ensures var c := Run(b, es);
            && (c.writer.HasSpace? ==> c.writer.space <= |c.ring| - 1 - |Bytes(c)|)
            && (c.writer.ChecksTail? && c.writer.original == c.tail ==>
                  WriterNext(c).writer == HasSpace(c.writer.data, |c.ring| - 1 - |Bytes(c)|))
            && (c.reader.HasCount? || c.reader.ReadingLength? ==> c.reader.available <= |Bytes(c)|)
  {
    hide Encode, Flatten, Boundary, Unread, Slice;
    var c := Run(b, es);
    if c.writer.ChecksTail? {
      SpaceBound(c, c.writer.difference);
    }
  }

  // ---------------------------------------------------------------------------
  // Nobody sleeps on
  // ---------------------------------------------------------------------------

  /** The reader sleeps and nobody has notified it or is about to find out whether to. */
  predicate Unroused(b: Buffer) {
    b.reader.ReaderSleeps? && !b.toReceive.notified && !b.writer.Counting? && !b.writer.Notifying?
  }

  /** A reader that sleeps on has fewer bytes to read than the trigger level. */
  predicate Roused(b: Buffer)
    requires InRange(b)
  {
    Unroused(b) ==> |Bytes(b)| < b.trigger
  }

  /**
   * The two ways to let a reader sleep on what it waits for: a batching reader
   * goes to sleep although exactly the trigger level is there, and the level is
   * lowered to what is there.
   */
  predicate Misses(b: Buffer, e: Event)
    requires InRange(b)
  {
    match e
    case ReaderStep =>
      && b.reader.Awaiting? && b.trigger <= |Bytes(b)| <= b.reader.threshold && !b.writer.Counting?
          && !b.writer.Notifying?
    case SetTrigger(level) => Unroused(b) && NewTrigger(b, level) <= |Bytes(b)|
    case _ => false
  }

  /** A step leaves no reader asleep over the trigger level, if and only if it is not one of the two. */
  lemma StepRouses(b: Buffer, e: Event)
    requires Inv(b) && Enabled(b, e) && Roused(b)
    ensures Inv(Step(b, e)) && (Roused(Step(b, e)) <==> !Misses(b, e))
  {
    hide Encode, Flatten, Boundary, Unread, Slice, InOrder, WriterOk, ReaderOk;
    StepInv(b, e);
    match e
    case WriterStep => WriterRouses(b);
    case ReaderStep => ReaderRouses(b);
    case SetTrigger(level) => TriggerInv(b, level);
    case _ =>
  }

  lemma WriterRouses(b: Buffer)
    requires Inv(b) && WriterRuns(b) && Roused(b)
    ensures Inv(WriterNext(b)) && Roused(WriterNext(b))
  {
    hide Encode, Flatten, Boundary, Unread, Slice, InOrder, WriterOk, ReaderOk, Plan;
    WriterInv(b);
    if WriterIsWaiting(b) {
      WriterWaits(b);
    } else if !b.writer.Writing? {
      WriterLooks(b);
    } else if b.writer.done < |b.writer.plan| {
      ByteWritten(b);
    }
  }

  lemma ReaderRouses(b: Buffer)
    requires Inv(b) && ReaderRuns(b) && Roused(b)
    ensures Inv(ReaderNext(b)) && (Roused(ReaderNext(b)) <==> !Misses(b, ReaderStep))
  {
    hide Encode, Flatten, Boundary, Unread, Slice, InOrder, WriterOk, ReaderOk, Measure, Begin;
    ReaderInv(b);
  }

  /** A step misses only in a batching buffer, or by lowering the trigger level. */
  lemma MissesRarely(b: Buffer, e: Event)
    requires Inv(b) && Enabled(b, e) && Misses(b, e)
    ensures b.mode.Batching? || e.SetTrigger?
  {
    hide Flatten, Boundary, Unread, Slice, WriterOk, WaitsOk;
    if b.mode.Messages? && b.sent[|b.got|..] != [] { FirstFrame(b.sent[|b.got|..]); }
  }

  ghost predicate AlwaysRoused(b: Buffer, es: seq<Event>)
    requires Inv(b) && RunEnabled(b, es)
    decreases |es|
  {
    Roused(b) && (es == [] || (StepInv(b, es[0]); AlwaysRoused(Step(b, es[0]), es[1..])))
  }

  ghost predicate EverMisses(b: Buffer, es: seq<Event>)
    requires Inv(b) && RunEnabled(b, es)
    decreases |es|
  {
    es != [] && (Misses(b, es[0]) || (StepInv(b, es[0]); EverMisses(Step(b, es[0]), es[1..])))
  }

  /**
   * Throughout a run a reader asleep with at least the trigger level unread has
   * been notified, or the writer is about to do so, if and only if no step of
   * the run is one of the two that miss it.
   */
  lemma {:induction false} RousedIff(b: Buffer, es: seq<Event>)
    requires Inv(b) && RunEnabled(b, es) && Roused(b)
    ensures AlwaysRoused(b, es) <==> !EverMisses(b, es)
    decreases |es|
  {
    hide InOrder, WriterOk, ReaderOk, WaitsOk, Enabled, Step, Roused, Misses;
    if es != [] {
      StepInv(b, es[0]);
      StepRouses(b, es[0]);
      if !Misses(b, es[0]) { RousedIff(Step(b, es[0]), es[1..]); } else { NotRoused(Step(b, es[0]), es[1..]); }
    }
  }

  lemma NotRoused(b: Buffer, es: seq<Event>)
    requires Inv(b) && RunEnabled(b, es) && !Roused(b)
    ensures !AlwaysRoused(b, es)
  {
  }

  /**
   * In every run from creation of a stream or message buffer whose trigger
   * level is left alone, a reader asleep with at least the trigger level unread
   * has been notified or is about to be.
   */
  lemma ReaderIsNotified(mode: Mode, size: nat, trigger: nat, es: seq<Event>)
    requires MayCreate(mode, size, trigger) && !mode.Batching? && RunEnabled(Created(mode, size, trigger), es)
    requires forall e :: e in es ==> !e.SetTrigger?
    ensures Roused(Run(Created(mode, size, trigger), es))
  {
    RunRouses(Created(mode, size, trigger), es);
  }

  lemma {:induction false} RunRouses(b: Buffer, es: seq<Event>)
    requires Inv(b) && RunEnabled(b, es) && Roused(b) && !b.mode.Batching? && forall e :: e in es ==> !e.SetTrigger?
    ensures Roused(Run(b, es))
    decreases |es|
  {
    hide InOrder, WriterOk, ReaderOk, WaitsOk, Enabled, Roused, Misses;
    if es != [] {
      StepInv(b, es[0]);
      StepRouses(b, es[0]);
      if Misses(b, es[0]) { MissesRarely(b, es[0]); }
      StepMode(b, es[0]);
      hide Step;
      RunRouses(Step(b, es[0]), es[1..]);
    }
  }

  lemma StepMode(b: Buffer, e: Event)
    requires Inv(b) && Enabled(b, e)
    ensures Step(b, e).mode == b.mode && |Step(b, e).ring| == |b.ring|
  {
    hide Encode, Flatten, Boundary, Unread, Slice, InOrder, WriterOk, ReaderOk, WaitsOk;
  }

  /**
   * In every reachable state a writer asleep with the space it needs has been
   * notified, or the reader is about to do so.
   */
  lemma WriterIsNotified(mode: Mode, size: nat, trigger: nat, es: seq<Event>)
    requires MayCreate(mode, size, trigger) && RunEnabled(Created(mode, size, trigger), es)
    ensures var b := Run(Created(mode, size, trigger), es);
            b.writer.WriterSleeps? && Free(b) >= Required(b, b.writer.data) ==>
              b.toSend.notified || b.reader.Completing?
  {
    hide Encode, Flatten, Boundary, Unread, Slice, InOrder, WriterOk, ReaderOk;
  }

  /**
   * Both sides sleep on only if the writer wants more than the buffer holds
   * beside what the reader does not yet wake for.
   */
  lemma BothAsleep(b: Buffer)
    requires Inv(b) && Roused(b) && Unroused(b) && b.writer.WriterSleeps? && !b.toSend.notified
    ensures b.trigger > 1 && Required(b, b.writer.data) + b.trigger > |b.ring|
  {
    hide Encode, Flatten, Boundary, Unread, Slice, InOrder, ReaderOk;
  }

  ghost predicate Reaches(mode: Mode, size: nat, trigger: nat, es: seq<Event>, b: Buffer) {
    MayCreate(mode, size, trigger) && RunEnabled(Created(mode, size, trigger), es)
        && Run(Created(mode, size, trigger), es) == b
  }

  lemma {:induction false} RunThen(b: Buffer, es: seq<Event>, e: Event)
    requires Inv(b) && RunEnabled(b, es) && Enabled(Run(b, es), e)
    ensures RunEnabled(b, es + [e]) && Run(b, es + [e]) == Step(Run(b, es), e)
    decreases |es|
  {
    hide Inv, Enabled, Step;
    if es == [] {
      StepInv(b, e);
      assert [] + [e] == [e] && [e][1..] == [];
    } else {
      StepInv(b, es[0]);
      RunThen(Step(b, es[0]), es[1..], e);
      assert (es + [e])[0] == es[0] && (es + [e])[1..] == es[1..] + [e];
    }
  }

  lemma Then(mode: Mode, size: nat, trigger: nat, es: seq<Event>, b: Buffer, e: Event, c: Buffer)
    requires Reaches(mode, size, trigger, es, b) && Enabled(b, e) && Step(b, e) == c
    ensures Reaches(mode, size, trigger, es + [e], c)
  {
    hide Step, Enabled, Inv;
    RunThen(Created(mode, size, trigger), es, e);
  }

  lemma ReachedInv(mode: Mode, size: nat, trigger: nat, es: seq<Event>, b: Buffer)
    requires Reaches(mode, size, trigger, es, b)
    ensures Inv(b)
  {
  }

  /** The steps in which one byte is sent. */
  function SendOne(a: Byte): seq<Event> { [Send([a], true), WriterStep, WriterStep, WriterStep, WriterStep] }

  /** One byte is in the buffer, and the writer is about to count. */
  function WithOne(b: Buffer, a: Byte): Buffer
    requires InRange(b)
  {
    b.(ring := b.ring[b.head := a], head := Idx(|b.ring|, b.head, 1), sent := b.sent + [[a]], writer := Counting)
  }

  lemma SendsOne(mode: Mode, size: nat, trigger: nat, es: seq<Event>, b: Buffer, a: Byte)
    requires Reaches(mode, size, trigger, es, b) && !b.mode.Messages? && b.writer.Resting? && Free(b) > 0
    ensures Reaches(mode, size, trigger, es + SendOne(a), WithOne(b, a))
  {
    hide Reaches, Unread, InOrder, WriterOk, ReaderOk, WaitsOk;
    ReachedInv(mode, size, trigger, es, b);
    var data := [a];
    assert data[..1] == data;
    var b1, b2, b3 := b.(writer := Checking(data)), b.(writer := HasSpace(data, Free(b))), b
        .(writer := Writing(data, data, 0));
    Then(mode, size, trigger, es, b, Send(data, true), b1);
    Then(mode, size, trigger, es + [Send(data, true)], b1, WriterStep, b2);
    Then(mode, size, trigger, es + [Send(data, true)] + [WriterStep], b2, WriterStep, b3);
    var b4 := b3.(ring := b.ring[b.head := a], writer := Writing(data, data, 1));
    Then(mode, size, trigger, es + [Send(data, true)] + [WriterStep] + [WriterStep], b3, WriterStep, b4);
    Then(mode, size, trigger, es + [Send(data, true)] + [WriterStep] + [WriterStep] + [WriterStep], b4, WriterStep,
        WithOne(b, a));
    assert es + [Send(data, true)] + [WriterStep] + [WriterStep] + [WriterStep] + [WriterStep] == es + SendOne(a);
  }

  /**
   * A stream of two bytes with trigger level two: the reader sleeps, the writer
   * puts one byte in, which does not wake it, and then sleeps for room for two.
   */
  lemma MutualSleep()
    ensures exists es, b ::
              Reaches(Stream, 2, 2, es, b) && Unroused(b) && b.writer.WriterSleeps? && !b.toSend.notified
                  && Free(b) == |Bytes(b)| == 1
  {
    hide Reaches, Inv, Unread;
    var es, b2 := ReaderAsleep();
    SendsOne(Stream, 2, 2, es, b2, 1);
    var b3 := WithOne(b2, 1);
    var b4 := b3.(writer := Resting);
    Then(Stream, 2, 2, es + SendOne(1), b3, WriterStep, b4);
    var b5 := b4.(writer := Checking([1, 2]));
    Then(Stream, 2, 2, es + SendOne(1) + [WriterStep], b4, Send([1, 2], true), b5);
    BytesOf(b5, 1);
    var b6 := b5.(writer := WriterSleeps([1, 2], 1), toSend := Wait(true, false));
    Then(Stream, 2, 2, es + SendOne(1) + [WriterStep] + [Send([1, 2], true)], b5, WriterStep, b6);
    BytesOf(b6, 1);
  }

  lemma ReaderAsleep() returns (es: seq<Event>, b: Buffer)
    ensures Reaches(Stream, 2, 2, es, b) && InRange(b) && Free(b) == 2
    ensures b
            == Buffer(Stream, 2, [0, 0, 0], 0, 0, Resting, ReaderSleeps(1, 0), Wait(true, false), Wait(false, false),
            [], [])
  {
    var b0 := Created(Stream, 2, 2);
    assert b0.ring == [0, 0, 0];
    hide Inv, Unread;
    assert Reaches(Stream, 2, 2, [], b0);
    hide Reaches;
    var b1 := b0.(reader := Awaiting(1, 0));
    b := b0.(reader := ReaderSleeps(1, 0), toReceive := Wait(true, false));
    es := [] + [Receive(1, true)] + [ReaderStep];
    Then(Stream, 2, 2, [], b0, Receive(1, true), b1);
    BytesOf(b1, 0);
    Then(Stream, 2, 2, [] + [Receive(1, true)], b1, ReaderStep, b);
    BytesOf(b, 0);
  }

  lemma BytesOf(b: Buffer, k: nat)
    requires InRange(b) && Dist(|b.ring|, b.tail, b.head) == k
    ensures |Bytes(b)| == k
  {
  }

  /** A batching buffer with exactly the trigger level in it: the reader goes to sleep, and nobody notifies it. */
  lemma BatchMissed()
    ensures exists es, b :: Reaches(Batching, 2, 1, es, b) && Enabled(b, ReaderStep) && Misses(b, ReaderStep)
  {
    var b0 := Created(Batching, 2, 1);
    assert b0.ring == [0, 0, 0];
    hide Inv, Unread;
    assert Reaches(Batching, 2, 1, [], b0);
    hide Reaches;
    BytesOf(b0, 0);
    SendsOne(Batching, 2, 1, [], b0, 1);
    var b1 := WithOne(b0, 1);
    var b2 := b1.(writer := Notifying);
    Then(Batching, 2, 1, [] + SendOne(1), b1, WriterStep, b2);
    var b3 := b1.(writer := Resting);
    Then(Batching, 2, 1, [] + SendOne(1) + [WriterStep], b2, WriterStep, b3);
    var b4 := b3.(reader := Awaiting(1, 1));
    Then(Batching, 2, 1, [] + SendOne(1) + [WriterStep] + [WriterStep], b3, Receive(1, true), b4);
    BytesOf(b4, 1);
  }

  lemma {:induction false} FlattenPrefix(pieces: seq<seq<Byte>>, k: nat)
    requires k <= |pieces|
    ensures Flatten(pieces[..k]) <= Flatten(pieces)
  {
    if k < |pieces| {
      var front := pieces[..|pieces| - 1];
      FlattenPrefix(front, k);
      assert front[..k] == pieces[..k];
    } else {
      assert pieces[..k] == pieces;
    }
  }

  /**
   * For every interleaving from creation: the bytes delivered are a prefix of
   * the bytes accepted, and of a message buffer the messages delivered are the
   * first ones accepted, each intact; when nothing is unread, all have been delivered.
   */
  lemma DeliveredInOrder(mode: Mode, size: nat, trigger: nat, es: seq<Event>)
    requires MayCreate(mode, size, trigger) && RunEnabled(Created(mode, size, trigger), es)
    ensures var b := Run(Created(mode, size, trigger), es);
            && Flatten(b.got) <= Flatten(b.sent)
            && (b.mode.Messages? ==> b.got <= b.sent)
            && (b.head == b.tail ==> Flatten(b.got) == Flatten(b.sent) && (b.mode.Messages? ==> b.got == b.sent))
  {
    var b := Run(Created(mode, size, trigger), es);
    if b.mode.Messages? {
      FlattenPrefix(b.sent, |b.got|);
      if |b.got| < |b.sent| {
        FirstFrame(b.sent[|b.got|..]);
      } else {
        assert b.sent[..|b.got|] == b.sent;
      }
    }
  }

  /**
   * A receive that has read the length word takes exactly the next message if
   * the room is large enough, and otherwise ends with nothing changed.
   */
  lemma RoomDecides(b: Buffer)
    requires Inv(b) && b.reader.ReadingLength? && |b.reader.word| == HEADER
    ensures |b.got| < |b.sent|
    ensures var m, c := b.sent[|b.got|], ReaderNext(b);
            c == b.(reader := if |m| <= b.reader.room then Reading(b.reader.word, |m|, []) else Idle)
  {
    NextMessage(b);
    assert b.sent[|b.got|] in b.sent;
  }

  /** A message that does not fit the space found changes nothing, and one that fits goes in whole. */
  lemma {:induction false} SpaceDecides(b: Buffer, es: seq<Event>)
    requires Inv(b) && b.mode.Messages? && b.writer.HasSpace? && b.writer.data != []
    requires |es| == (if b.writer.space >= |b.writer.data| + HEADER then |b.writer.data| + HEADER + 2 else 1)
    requires forall i :: 0 <= i < |es| ==> es[i] == WriterStep
    ensures RunEnabled(b, es)
    ensures var c := Run(b, es);
            if b.writer.space >= |b.writer.data| + HEADER
            then c.sent == b.sent + [b.writer.data] && Bytes(c) == Bytes(b) + Frame(b.writer.data) && c.writer.Counting?
            else c == b.(writer := Resting)
  {
    hide Encode, Flatten, Boundary, Unread, Slice;
    var c := Step(b, es[0]);
    StepInv(b, es[0]);
    if c.writer.Writing? {
      WritesOut(c, es[1..]);
    }
  }

  lemma {:induction false} WritesOut(b: Buffer, es: seq<Event>)
    requires Inv(b) && b.writer.Writing? && b.writer.data != []
    requires |es| == |b.writer.plan| - b.writer.done + 1
    requires forall i :: 0 <= i < |es| ==> es[i] == WriterStep
    ensures RunEnabled(b, es)
    ensures var c := Run(b, es);
            c.sent == b.sent + [b.writer.data] && Bytes(c) == Bytes(b) + b.writer.plan && c.writer.Counting?
    decreases |es|
  {
    hide Encode, Flatten, Boundary, Unread, Slice;
    var c := Step(b, es[0]);
    StepInv(b, es[0]);
    if b.writer.done < |b.writer.plan| {
      ByteWritten(b);
      WritesOut(c, es[1..]);
    } else {
      Published(b);
    }
  }
}
