/**
 * The byte ring of a stream or message buffer (stream_buffer.c): what it holds,
 * how messages are framed in it, and the copying code proved against that.
 */
module StreamBuffers {
  import opened Basics
  import opened Ticks

  type Byte = b: int | 0 <= b < 256

  /** sbBYTES_TO_STORE_MESSAGE_LENGTH: the length type is a 32-bit size_t. */
  const HEADER: nat := 4

  /** Buffers longer than this would overflow the 32-bit sums of length and index. */
  const LONGEST: nat := 0x8000_0000

  // ---------------------------------------------------------------------------
  // The ring
  // ---------------------------------------------------------------------------

  /** `k` bytes of the ring from `start` on. */
  function Slice(ring: seq<Byte>, start: nat, k: nat): (r: seq<Byte>)
    requires start < |ring| && k <= |ring|
    ensures |r| == k
  {
    seq(k, i requires 0 <= i < k => ring[Idx(|ring|, start, i)])
  }

  /** The unread bytes, oldest first. */
  function Unread(ring: seq<Byte>, tail: nat, head: nat): (r: seq<Byte>)
    requires tail < |ring| && head < |ring|
    ensures |r| == Dist(|ring|, tail, head)
  {
    Slice(ring, tail, Dist(|ring|, tail, head))
  }

  /** The ring with `data` written from `start` on, wrapping at its end. */
  function Written(ring: seq<Byte>, start: nat, data: seq<Byte>): (r: seq<Byte>)
    requires start < |ring| && |data| <= |ring|
    ensures |r| == |ring|
  {
    seq(|ring|, i requires 0 <= i < |ring| =>
      if Dist(|ring|, start, i) < |data| then data[Dist(|ring|, start, i)] else ring[i])
  }

  /** Bytes written at the head, into space that is free, are read after all the unread ones. */
  lemma UnreadWritten(ring: seq<Byte>, tail: nat, head: nat, data: seq<Byte>)
    requires tail < |ring| && head < |ring|
    requires Dist(|ring|, tail, head) + |data| < |ring|
    ensures Unread(Written(ring, head, data), tail, Idx(|ring|, head, |data|)) == Unread(ring, tail, head) + data
    ensures Unread(Written(ring, head, data), tail, head) == Unread(ring, tail, head)
  {
  }

  /** Moving the tail drops bytes from the front. */
  lemma UnreadDrop(ring: seq<Byte>, tail: nat, head: nat, k: nat)
    requires tail < |ring| && head < |ring|
    requires k <= Dist(|ring|, tail, head)
    ensures Slice(ring, tail, k) == Unread(ring, tail, head)[..k]
    ensures Unread(ring, Idx(|ring|, tail, k), head) == Unread(ring, tail, head)[k..]
  {
  }

  /** A header and its data, written one after the other, are read together after the unread bytes. */
  lemma UnreadFrame(ring: seq<Byte>, tail: nat, head: nat, header: seq<Byte>, data: seq<Byte>)
    requires tail < |ring| && head < |ring|
    requires Dist(|ring|, tail, head) + |header| + |data| < |ring|
    ensures var n, next := |ring|, Idx(|ring|, head, |header|);
            Unread(Written(Written(ring, head, header), next, data), tail, Idx(n, next, |data|))
            == Unread(ring, tail, head) + (header + data)
    ensures header == [] ==> Written(ring, head, header) == ring
  {
    var next := Idx(|ring|, head, |header|);
    UnreadWritten(ring, tail, head, header);
    UnreadWritten(Written(ring, head, header), tail, next, data);
    assert Unread(ring, tail, head) + header + data == Unread(ring, tail, head) + (header + data);
  }

  // ---------------------------------------------------------------------------
  // Frames
  // ---------------------------------------------------------------------------

  /** The length word as it lies in memory. */
  function LengthBytes(n: Tick): (b: seq<Byte>)
    ensures |b| == HEADER
  {
    [n % 256, n / 256 % 256, n / 65536 % 256, n / 16777216]
  }

  function LengthOf(b: seq<Byte>): Tick
    requires |b| == HEADER
  {
    var b0: int, b1: int, b2: int, b3: int := b[0], b[1], b[2], b[3];
    b0 + 256 * b1 + 65536 * b2 + 16777216 * b3
  }

  /** The length word read back is the one written. */
  lemma LengthRoundTrip(n: Tick)
    ensures LengthOf(LengthBytes(n)) == n
  {
    assert n / 65536 == n / 256 / 256 && n / 16777216 == n / 65536 / 256;
  }

  /** A message that can be sent: not empty, and length plus header still a 32-bit number. */
  predicate IsMessage(m: seq<Byte>) { 0 < |m| && |m| + HEADER < WORD }

  predicate AllMessages(ms: seq<seq<Byte>>) { forall i :: 0 <= i < |ms| ==> IsMessage(ms[i]) }

  function Frame(m: seq<Byte>): (f: seq<Byte>)
    requires |m| < WORD
    ensures |f| == HEADER + |m|
  {
    LengthBytes(|m|) + m
  }

  /** What a message buffer holds: whole frames one after the other. */
  function Encode(ms: seq<seq<Byte>>): seq<Byte>
    requires AllMessages(ms)
  {
    if ms == [] then [] else Frame(ms[0]) + Encode(ms[1..])
  }

  /** Cut bytes into frames by their length words; `None` when they are not whole non-empty frames. */
  function Decode(bytes: seq<Byte>): Option<seq<seq<Byte>>>
    decreases |bytes|
  {
    if bytes == [] then Some([])
    else if |bytes| < HEADER then None
    else
      var n := LengthOf(bytes[..HEADER]);
      if n == 0 || HEADER + n > |bytes| then None
      else
        match Decode(bytes[HEADER + n..])
        case None => None
        case Some(rest) => Some([bytes[HEADER..HEADER + n]] + rest)
  }

  /** The frames determine the messages: cutting what was put together gives back every message. */
  lemma {:induction false} FramesRoundTrip(ms: seq<seq<Byte>>)
    requires AllMessages(ms)
    ensures Decode(Encode(ms)) == Some(ms)
  {
    if ms != [] {
      var bytes := Encode(ms);
      FirstFrame(ms);
      FramesRoundTrip(ms[1..]);
      assert ms == [ms[0]] + ms[1..];
    }
  }

  /** The first frame of what a message buffer holds. */
  lemma FirstFrame(ms: seq<seq<Byte>>)
    requires AllMessages(ms) && ms != []
    ensures var bytes, m := Encode(ms), ms[0];
            && |bytes| >= HEADER + |m|
            && bytes[..HEADER] == LengthBytes(|m|) && LengthOf(bytes[..HEADER]) == |m|
            && bytes[HEADER..HEADER + |m|] == m
            && bytes[HEADER + |m|..] == Encode(ms[1..])
  {
    LengthRoundTrip(|ms[0]|);
  }

  lemma {:induction false} EncodeAppend(ms: seq<seq<Byte>>, m: seq<Byte>)
    requires AllMessages(ms) && IsMessage(m)
    ensures Encode(ms + [m]) == Encode(ms) + Frame(m)
  {
    hide Frame;
    if ms == [] {
      assert ms + [m] == [m] && [m][1..] == [];
    } else {
      EncodeAppend(ms[1..], m);
      assert (ms + [m])[0] == ms[0] && (ms + [m])[1..] == ms[1..] + [m];
    }
  }

  // ---------------------------------------------------------------------------
  // The buffer
  // ---------------------------------------------------------------------------

  class StreamBuffer {
    const isMessageBuffer: bool
    const buffer: array<Byte>
    var head: nat
    var tail: nat
    ghost var pending: seq<seq<Byte>> // the messages sent and not yet received

    ghost predicate InRange()
      reads this
    {
      2 <= buffer.Length <= LONGEST && head < buffer.Length && tail < buffer.Length
    }

    /** The unread bytes. */
    ghost function Contents(): seq<Byte>
      requires InRange()
      reads this, buffer
    {
      Unread(buffer[..], tail, head)
    }

    /** The bytes that can still be written; one place of the ring always stays empty. */
    ghost function Free(): int
      requires InRange()
      reads this, buffer
    {
      buffer.Length - 1 - |Contents()|
    }

    /** A message buffer holds whole frames, those of the pending messages. */
    ghost predicate Valid()
      reads this, buffer
    {
      && InRange()
      && (isMessageBuffer ==> AllMessages(pending) && Contents() == Encode(pending))
    }

    /** prvInitialiseNewStreamBuffer for a buffer of `size` bytes, to which creation adds one. */
    constructor (size: nat, message: bool)
      requires 1 <= size < LONGEST && (message ==> size > HEADER)
      ensures Valid() && fresh(buffer) && isMessageBuffer == message
      ensures Contents() == [] && Free() == size && pending == []
    {
      isMessageBuffer := message;
      buffer := new Byte[size + 1];
      head, tail := 0, 0;
      pending := [];
    }

    /** prvWriteBytesToBuffer: the bytes are written from `at` on, wrapping; the next index to write is returned. */
    method WriteBytes(data: seq<Byte>, at: nat) returns (next: nat)
      requires InRange() && at < buffer.Length && 0 < |data| <= buffer.Length
      modifies buffer
      ensures buffer[..] == Written(old(buffer[..]), at, data)
      ensures next == Idx(buffer.Length, at, |data|)
    {
      var n := buffer.Length;
      var first := if n - at < |data| then n - at else |data|;
      CopyIn(data, 0, first, at);
      if |data| > first {
        CopyIn(data, first, |data| - first, 0);
      }
      next := at + |data|;
      if next >= n {
        next := next - n;
      }
    }

    /** memcpy into the ring: `count` bytes of `data` from `from` on go to the places from `at` on. */
    method CopyIn(data: seq<Byte>, from: nat, count: nat, at: nat)
      requires from + count <= |data| && at + count <= buffer.Length
      modifies buffer
      ensures forall j :: 0 <= j < buffer.Length ==>
                buffer[j] == if at <= j < at + count then data[from + j - at] else old(buffer[j])
    {
      var i := 0;
      while i < count
        invariant i <= count
        invariant forall j :: 0 <= j < buffer.Length ==>
                    buffer[j] == if at <= j < at + i then data[from + j - at] else old(buffer[j])
      {
        buffer[at + i] := data[from + i];
        i := i + 1;
      }
    }

    /** prvReadBytesFromBuffer: the first `count` places of `out` receive the bytes of the ring from `at` on. */
    method ReadBytes(out: array<Byte>, count: nat, at: nat) returns (next: nat)
      requires InRange() && at < buffer.Length && out != buffer
      requires 0 < count < buffer.Length && count <= out.Length
      modifies out
      ensures out[..count] == Slice(buffer[..], at, count)
      ensures forall j :: count <= j < out.Length ==> out[j] == old(out[j])
      ensures next == Idx(buffer.Length, at, count)
    {
      var n := buffer.Length;
      var first := if n - at < count then n - at else count;
      CopyOut(out, 0, first, at);
      if count > first {
        CopyOut(out, first, count - first, 0);
      }
      next := at + count;
      if next >= n {
        next := next - n;
      }
    }

    /** memcpy out of the ring: `count` bytes from place `at` on go to `out` from `to` on. */
    method CopyOut(out: array<Byte>, to: nat, count: nat, at: nat)
      requires to + count <= out.Length && at + count <= buffer.Length && out != buffer
      modifies out
      ensures forall j :: 0 <= j < out.Length ==>
                out[j] == if to <= j < to + count then buffer[at + j - to] else old(out[j])
    {
      var i := 0;
      while i < count
        invariant i <= count
        invariant forall j :: 0 <= j < out.Length ==>
                    out[j] == if to <= j < to + i then buffer[at + j - to] else old(out[j])
      {
        out[to + i] := buffer[at + i];
        i := i + 1;
      }
    }

    /** prvBytesInBuffer */
    method BytesInBuffer() returns (count: nat)
      requires InRange()
      ensures count == |Contents()|
    {
      count := buffer.Length + head - tail;
      if count >= buffer.Length {
        count := count - buffer.Length;
      }
    }

    /** xStreamBufferSpacesAvailable, with nobody else at work: one pass of its loop. */
    method SpacesAvailable() returns (space: nat)
      requires InRange()
      ensures space == Free()
    {
      var stable := false;
      var sum := 0;
      while !stable
        invariant stable ==> sum == buffer.Length + tail - head
        decreases !stable
      {
        var originalTail := tail;
        sum := buffer.Length + tail;
        sum := sum - head;
        stable := originalTail == tail;
      }
      space := sum - 1;
      if space >= buffer.Length {
        space := space - buffer.Length;
      }
    }

    /** prvWriteMessageToBuffer, given the space that was found. */
    method WriteMessage(data: seq<Byte>, space: nat, required: nat) returns (written: nat)
      requires Valid() && space <= Free()
      requires isMessageBuffer ==> required == |data| + HEADER < WORD
      modifies this, buffer
      ensures Valid() && tail == old(tail)
      ensures isMessageBuffer ==>
                if space >= required && data != []
                then written == |data| && pending == old(pending) + [data]
                else written == 0 && pending == old(pending) && Contents() == old(Contents())
      ensures !isMessageBuffer ==>
                && written == (if |data| < space then |data| else space)
                && Contents() == old(Contents()) + data[..written]
    {
      hide Written, Unread, Slice, Encode;
      var next := head;
      ghost var ring := buffer[..];
      written := |data|;
      if isMessageBuffer {
        if space >= required {
          next := WriteBytes(LengthBytes(|data|), next);
          UnreadWritten(ring, tail, head, LengthBytes(|data|));
        } else {
          written := 0;
        }
      } else {
        written := if |data| < space then |data| else space;
      }
      if written != 0 {
        UnreadFrame(ring, tail, head, if isMessageBuffer then LengthBytes(|data|) else [], data[..written]);
        next := WriteBytes(data[..written], next);
        head := next;
        if isMessageBuffer {
          assert data[..written] == data;
          EncodeAppend(pending, data);
          pending := pending + [data];
        } else {
          assert [] + data[..written] == data[..written];
        }
      }
    }

    /**
     * xStreamBufferSendFromISR, and xStreamBufferSend when it does not wait: a
     * message goes in whole or not at all, a stream takes the bytes that fit.
     */
    method Send(data: seq<Byte>) returns (written: nat)
      requires Valid() && |data| < WORD && (isMessageBuffer ==> |data| + HEADER < WORD)
      modifies this, buffer
      ensures Valid()
      ensures isMessageBuffer ==>
                if old(Free()) >= |data| + HEADER && data != []
                then written == |data| && pending == old(pending) + [data]
                else written == 0 && pending == old(pending) && Contents() == old(Contents())
      ensures !isMessageBuffer ==>
                && written == (if |data| < old(Free()) then |data| else old(Free()))
                && Contents() == old(Contents()) + data[..written]
    {
      var required := |data|;
      if isMessageBuffer {
        required := required + HEADER;
      }
      var space := SpacesAvailable();
      written := WriteMessage(data, space, required);
    }

    /** prvReadMessageFromBuffer, given the number of bytes that were found. */
    method ReadMessage(out: array<Byte>, available: nat) returns (count: nat)
      requires Valid() && out != buffer && available == |Contents()|
      requires isMessageBuffer ==> available > HEADER
      modifies this, out
      ensures Valid() && head == old(head)
      ensures isMessageBuffer ==>
                && old(pending) != []
                && if |old(pending)[0]| <= out.Length
                   then count == |old(pending)[0]| && out[..count] == old(pending)[0] && pending == old(pending)[1..]
                   else
                     && count == 0 && pending == old(pending) && Contents() == old(Contents())
                     && out[..] == old(out[..])
      ensures !isMessageBuffer ==>
                && count == (if out.Length < available then out.Length else available)
                && out[..count] == old(Contents())[..count] && Contents() == old(Contents())[count..]
      ensures buffer[..] == old(buffer[..])
    {
      hide Slice, Unread;
      var next := tail;
      var left := available;
      var wanted := out.Length;
      ghost var ring, bytes := buffer[..], Contents();
      if isMessageBuffer {
        assert pending != [];
        FirstFrame(pending);
        var word := new Byte[HEADER];
        next := ReadBytes(word, HEADER, next);
        UnreadDrop(ring, tail, head, HEADER);
        assert word[..] == word[..HEADER] == bytes[..HEADER];
        wanted := LengthOf(word[..]);
        left := left - HEADER;
        if wanted > out.Length {
          wanted := 0;
        }
      }
      count := if wanted < left then wanted else left;
      if count != 0 {
        ghost var skipped := if isMessageBuffer then HEADER else 0;
        UnreadDrop(ring, tail, head, skipped);
        UnreadDrop(ring, next, head, count);
        tail := ReadBytes(out, count, next);
        assert bytes[skipped..][count..] == bytes[skipped + count..];
        assert bytes[skipped..][..count] == bytes[skipped..skipped + count];
        if isMessageBuffer {
          pending := pending[1..];
        }
      }
    }

    /**
     * xStreamBufferReceiveFromISR, and xStreamBufferReceive when it does not
     * wait; `trigger` is the level of a batching buffer, otherwise zero.  A
     * message comes out whole or, into too small an array, not at all.
     */
    method Receive(out: array<Byte>, trigger: nat) returns (count: nat)
      requires Valid() && out != buffer
      modifies this, out
      ensures Valid()
      ensures isMessageBuffer ==>
                if old(pending) != [] && |old(pending)[0]| <= out.Length
                then count == |old(pending)[0]| && out[..count] == old(pending)[0] && pending == old(pending)[1..]
                else count == 0 && pending == old(pending) && Contents() == old(Contents()) && out[..] == old(out[..])
      ensures !isMessageBuffer ==>
                && count == (if |old(Contents())| <= trigger then 0
                             else if out.Length < |old(Contents())| then out.Length else |old(Contents())|)
                && out[..count] == old(Contents())[..count] && Contents() == old(Contents())[count..]
    {
      var threshold := if isMessageBuffer then HEADER else trigger;
      var available := BytesInBuffer();
      count := 0;
      if isMessageBuffer && pending != [] {
        FirstFrame(pending);
      }
      if available > threshold {
        count := ReadMessage(out, available);
      }
    }

    /** xStreamBufferNextMessageLengthBytes; the source's assertion that nothing but whole frames is there is proved. */
    method NextMessageLength() returns (length: nat)
      requires Valid()
      ensures length == if isMessageBuffer && pending != [] then |pending[0]| else 0
    {
      if isMessageBuffer {
        if pending != [] {
          FirstFrame(pending);
        }
        var available := BytesInBuffer();
        if available > HEADER {
          var word := new Byte[HEADER];
          var _ := ReadBytes(word, HEADER, tail);
          UnreadDrop(buffer[..], tail, head, HEADER);
          assert word[..] == word[..HEADER];
          length := LengthOf(word[..]);
        } else {
          assert available == 0;
          length := 0;
        }
      } else {
        length := 0;
      }
    }
  }
}
