/**
 * The descriptor rings of the Ethernet driver (x_emacpsif_dma.c): which buffers
 * the DMA owns, while a send, the clean-up after transmissions and the DMA
 * itself go on at the same time.
 */
module DmaRings {
  import opened Basics

  /** A network buffer. */
  type Buffer = nat

  /** The increment with which the driver moves an index. */
  function Inc(n: nat, i: nat): (r: nat)
    requires i < n
    ensures r < n
  {
    if i + 1 == n then 0 else i + 1
  }

  // ---------------------------------------------------------------------------
  // Transmission
  // ---------------------------------------------------------------------------

  /** Where emacps_send_message is; `head` is the index it read first. */
  datatype Sender =
    | Resting
    | Wants(buffer: Buffer, head: nat)   // about to take the semaphore
    | Took(buffer: Buffer, head: nat)    // has it; the slot is untouched
    | Stored(buffer: Buffer, head: nat)  // the buffer is in the slot
    | Armed(buffer: Buffer, head: nat)   // the descriptor is the DMA's; about to move txHead

  /** Where emacps_check_tx is; `tail` and `head` are the indexes it read, `count` the slots it may free. */
  datatype Checker =
    | Off
    | HasHead(tail: nat, head: nat)      // about to read the semaphore
    | Looping(tail: nat, head: nat, count: int)

  /**
   * `used` and `address`: the USED bit and the buffer of each descriptor;
   * `slots`: pxDMA_tx_buffers; `free`: the semaphore count.  The last five
   * record the buffers handed to the driver and what happened to them.
   */
  datatype Tx = Tx(used: seq<bool>, address: seq<Option<Buffer>>, slots: seq<Option<Buffer>>,
                   head: nat, tail: nat, free: int, sender: Sender, checker: Checker,
                   handed: seq<Buffer>, accepted: seq<Buffer>, transmitted: seq<Buffer>,
                   released: seq<Buffer>, refused: seq<Buffer>)

  datatype TxEvent =
    | Send(buffer: Buffer, valid: bool)
    | SendOn            // the next step of the send
    | SendTimeOut       // no descriptor became free in time
    | Check
    | CheckOn           // the next step of the check: one turn of its loop
    | Transmitted(i: nat)

  function Content(b: Option<Buffer>): seq<Buffer> { if b.Some? then [b.value] else [] }

  predicate InRing(t: Tx) {
    2 <= |t.slots| == |t.used| == |t.address| && t.head < |t.slots| && t.tail < |t.slots|
  }

  /** Whether a send has a descriptor and has not moved the head. */
  function Partial(t: Tx): nat { if t.sender.Took? || t.sender.Stored? || t.sender.Armed? then 1 else 0 }

  /** How many slots lie between the tail and the head. */
  function InUse(t: Tx): int { |t.slots| - t.free - Partial(t) }

  predicate Ready(t: Tx) {
    && InRing(t)
    && (!t.sender.Resting? ==> t.sender.head < |t.slots|)
    && (!t.checker.Off? ==> t.checker.tail < |t.slots|)
  }

  predicate Enabled(t: Tx, e: TxEvent) {
    match e
    case Send(_, _) => t.sender.Resting?
    case SendOn => !t.sender.Resting? && (t.sender.Wants? ==> t.free > 0)
    case SendTimeOut => t.sender.Wants? && t.free == 0
    case Check => t.checker.Off?
    case CheckOn => !t.checker.Off?
    case Transmitted(i) => i < |t.used| && !t.used[i]
  }

  /** One step of emacps_send_message. */
  function SendNext(t: Tx): Tx
    requires Ready(t)
  {
    match t.sender
    case Resting => t
    case Wants(b, h) => t.(free := t.free - 1, sender := Took(b, h))
    case Took(b, h) => t.(slots := t.slots[h := Some(b)], sender := Stored(b, h))
    case Stored(b, h) => t.(address := t.address[h := t.slots[h]], used := t.used[h := false], sender := Armed(b, h))
    case Armed(b, h) => t.(head := Inc(|t.slots|, h), sender := Resting, accepted := t.accepted + [b])
  }

  /** A turn of the loop of emacps_check_tx that frees the slot at the tail. */
  function Freed(t: Tx): Tx
    requires InRing(t) && t.checker.Looping? && t.checker.tail < |t.slots|
  {
    var i, next := t.checker.tail, Inc(|t.slots|, t.checker.tail);
    t.(slots := t.slots[i := None], used := t.used[i := true], free := t.free + 1, tail := next,
       checker := Looping(next, t.checker.head, t.checker.count - 1),
       released := t.released + Content(t.slots[i]))
  }

  /** The loop's condition and the test for an empty ring. */
  predicate GoesOn(t: Tx)
    requires InRing(t) && t.checker.Looping? && t.checker.tail < |t.slots|
  {
    t.checker.count > 0 && t.used[t.checker.tail]
    && (t.checker.tail == t.checker.head ==> t.checker.count == |t.slots|)
  }

  function CheckNext(t: Tx): Tx
    requires Ready(t) && !t.checker.Off?
  {
    match t.checker
    case HasHead(tail, head) => t.(checker := Looping(tail, head, |t.slots| - t.free))
    case Looping(_, _, _) => if GoesOn(t) then Freed(t) else t.(checker := Off)
    case Off => t
  }

  function Step(t: Tx, e: TxEvent): (r: Tx)
    requires Ready(t) && Enabled(t, e)
    ensures Ready(r)
  {
    match e
    case Send(b, valid) =>
      var h := t.(handed := t.handed + [b]);
      if valid then h.(sender := Wants(b, t.head)) else h.(refused := t.refused + [b])
    case SendOn => SendNext(t)
    case SendTimeOut => t.(sender := Resting, refused := t.refused + [t.sender.buffer])
    case Check => t.(checker := HasHead(t.tail, t.head))
    case CheckOn => CheckNext(t)
    case Transmitted(i) => t.(used := t.used[i := true], transmitted := t.transmitted + Content(t.address[i]))
  }

  // ---------------------------------------------------------------------------
  // What every step keeps
  // ---------------------------------------------------------------------------

  /** The buffers accepted and not yet released, oldest first. */
  function InFlight(t: Tx): seq<Buffer>
    requires |t.released| <= |t.accepted|
  {
    t.accepted[|t.released|..]
  }

  /** The indexes and the semaphore agree. */
  predicate Counted(t: Tx)
    requires InRing(t)
  {
    && 0 <= InUse(t) && t.free >= 0
    && t.head == Idx(|t.slots|, t.tail, InUse(t))
    && (!t.sender.Resting? ==> t.sender.head == t.head)
  }

  /** A slot that holds no accepted buffer: empty, but at the head what the send has done so far. */
  predicate FreeSlot(t: Tx, i: nat)
    requires InRing(t) && i < |t.slots|
  {
    if i == t.head && t.sender.Stored? then t.slots[i] == Some(t.sender.buffer) && t.used[i]
    else if i == t.head && t.sender.Armed? then t.slots[i] == Some(t.sender.buffer)
    else t.slots[i].None? && t.used[i]
  }

  /** The slots from the tail on hold the buffers in flight, in order; the others hold none. */
  predicate SlotOk(t: Tx, i: nat)
    requires InRing(t) && i < |t.slots| && |t.released| <= |t.accepted| && |InFlight(t)| == InUse(t)
  {
    var k := Dist(|t.slots|, t.tail, i);
    if k < InUse(t) then t.slots[i] == Some(InFlight(t)[k]) else FreeSlot(t, i)
  }

  predicate Owned(t: Tx)
    requires InRing(t)
  {
    && |t.released| <= |t.accepted| && t.released == t.accepted[..|t.released|]
    && |InFlight(t)| == InUse(t)
    && forall i :: 0 <= i < |t.slots| ==> SlotOk(t, i)
  }

  /** Indexes, semaphore, slots and buffers agree. */
  predicate Agreed(t: Tx) { Ready(t) && Counted(t) && Owned(t) }

  /** The check works at the tail and frees no more than the semaphore has given out. */
  predicate CheckerOk(t: Tx)
    requires InRing(t)
  {
    match t.checker
    case Off => true
    case HasHead(tail, head) => tail == t.tail && head < |t.slots|
    case Looping(tail, head, count) => tail == t.tail && head < |t.slots| && count <= |t.slots| - t.free
  }

  predicate Inv(t: Tx) { Agreed(t) && CheckerOk(t) }

  /** A turn of the check that goes on although only the descriptor of an unfinished send is taken. */
  predicate Premature(t: Tx, e: TxEvent)
    requires Ready(t)
  {
    e.CheckOn? && t.checker.Looping? && GoesOn(t) && InUse(t) == 0
  }

  /** clean_dma_txdescs and the new semaphore */
  function Created(n: nat): (t: Tx)
    requires n >= 2
    ensures Inv(t)
  {
    Tx(seq(n, i => true), seq(n, i => None), seq(n, i => None), 0, 0, n, Resting, Off, [], [], [], [], [])
  }

  lemma ArmedInv(t: Tx)
    requires Inv(t) && t.sender.Armed?
    ensures Inv(SendNext(t))
  {
    var r := SendNext(t);
    assert InFlight(r) == InFlight(t) + [t.sender.buffer];
    assert r.accepted[..|r.released|] == t.accepted[..|t.released|];
    forall i | 0 <= i < |r.slots| ensures SlotOk(r, i) { assert SlotOk(t, i); }
  }

  lemma SendInv(t: Tx)
    requires Inv(t) && Enabled(t, SendOn)
    ensures Inv(SendNext(t))
  {
    var r := SendNext(t);
    if t.sender.Armed? {
      ArmedInv(t);
    } else {
      hide InFlight;
      SameFlight(t, r);
      forall i | 0 <= i < |r.slots| ensures SlotOk(r, i) { assert SlotOk(t, i); }
    }
  }

  lemma SameFlight(t: Tx, r: Tx)
    requires t.accepted == r.accepted && t.released == r.released && |t.released| <= |t.accepted|
    ensures InFlight(t) == InFlight(r)
  {
  }

  lemma FreedOwned(t: Tx)
    requires Inv(t) && t.checker.Looping? && GoesOn(t) && InUse(t) > 0
    ensures InFlight(t) != [] && t.slots[t.tail] == Some(InFlight(t)[0])
    ensures var r := Freed(t); InRing(r) && Owned(r) && r.released == t.released + [InFlight(t)[0]]
  {
    var r := Freed(t);
    assert t.checker.tail == t.tail && SlotOk(t, t.tail);
    hide CheckerOk;
    assert r.released == t.released + [InFlight(t)[0]];
    assert InFlight(r) == InFlight(t)[1..];
    hide InFlight, Counted;
    forall i | 0 <= i < |r.slots| ensures SlotOk(r, i) { assert SlotOk(t, i); }
  }

  /** A turn that goes on while a slot is in use frees the oldest one. */
  lemma FreedInv(t: Tx)
    requires Inv(t) && t.checker.Looping? && GoesOn(t) && InUse(t) > 0
    ensures Inv(Freed(t)) && InUse(Freed(t)) == InUse(t) - 1
    ensures InFlight(t) != [] && t.slots[t.tail] == Some(InFlight(t)[0])
            && Freed(t).released == t.released + [InFlight(t)[0]]
  {
    FreedOwned(t);
    hide Owned;
  }

  /** A step keeps all this exactly when it is not a premature turn of the check, which breaks the agreement. */
  lemma StepInv(t: Tx, e: TxEvent)
    requires Inv(t) && Enabled(t, e)
    ensures Inv(Step(t, e)) <==> !Premature(t, e)
    ensures Agreed(Step(t, e)) <==> !Premature(t, e)
  {
    hide InFlight;
    var r := Step(t, e);
    if e.SendOn? {
      SendInv(t);
    } else if e.CheckOn? && t.checker.Looping? && GoesOn(t) {
      hide Owned;
      if InUse(t) > 0 { FreedInv(t); }
    } else {
      SameFlight(t, r);
      forall i | 0 <= i < |r.slots| ensures SlotOk(r, i) { assert SlotOk(t, i); }
    }
  }

  predicate RunEnabled(t: Tx, es: seq<TxEvent>)
    requires Ready(t)
    decreases |es|
  {
    es == [] || (Enabled(t, es[0]) && RunEnabled(Step(t, es[0]), es[1..]))
  }

  function Run(t: Tx, es: seq<TxEvent>): (r: Tx)
    requires Ready(t) && RunEnabled(t, es)
    ensures Ready(r)
    decreases |es|
  {
    if es == [] then t else Run(Step(t, es[0]), es[1..])
  }

  /** Some turn of the check in the run is premature. */
  predicate EverPremature(t: Tx, es: seq<TxEvent>)
    requires Ready(t) && RunEnabled(t, es)
    decreases |es|
  {
    es != [] && (Premature(t, es[0]) || EverPremature(Step(t, es[0]), es[1..]))
  }

  /** In every state of the run indexes, semaphore, slots and buffers agree. */
  predicate AlwaysAgreed(t: Tx, es: seq<TxEvent>)
    requires Ready(t) && RunEnabled(t, es)
    decreases |es|
  {
    Agreed(t) && (es == [] || AlwaysAgreed(Step(t, es[0]), es[1..]))
  }

  /** They agree throughout a run if and only if no turn of the check in it is premature. */
  lemma {:induction false} AgreedIff(t: Tx, es: seq<TxEvent>)
    requires Inv(t) && RunEnabled(t, es)
    ensures AlwaysAgreed(t, es) <==> !EverPremature(t, es)
    ensures !EverPremature(t, es) ==> Inv(Run(t, es))
    decreases |es|
  {
    InvAgreed(t);
    if es != [] {
      StepInv(t, es[0]);
      hide Step, Inv, Agreed, Enabled, Premature;
      if Premature(t, es[0]) {
        NotAgreed(Step(t, es[0]), es[1..]);
      } else {
        AgreedIff(Step(t, es[0]), es[1..]);
      }
    }
  }

  lemma InvAgreed(t: Tx)
    requires Inv(t)
    ensures Agreed(t)
  {
  }

  lemma NotAgreed(t: Tx, es: seq<TxEvent>)
    requires Ready(t) && RunEnabled(t, es) && !Agreed(t)
    ensures !AlwaysAgreed(t, es)
  {
  }

  /**
   * In every such run the head is the tail plus the slots in use, which with a
   * started send are those the semaphore does not count; exactly the slots in
   * use hold a buffer; and the buffers released are the first ones accepted,
   * each once and in order.
   */
  lemma RingOwnership(n: nat, es: seq<TxEvent>, k: nat)
    requires n >= 2 && RunEnabled(Created(n), es) && !EverPremature(Created(n), es) && k < n
    ensures var t := Run(Created(n), es);
            && |t.slots| == n && 0 <= InUse(t) <= n && t.free + InUse(t) + Partial(t) == n
            && t.head == Idx(n, t.tail, InUse(t))
            && t.released <= t.accepted && |t.accepted| - |t.released| == InUse(t)
            && (k < InUse(t) ==> t.slots[Idx(n, t.tail, k)] == Some(t.accepted[|t.released| + k]))
            && (k >= InUse(t) && t.sender.Resting? ==> t.slots[Idx(n, t.tail, k)].None?)
  {
    hide Inv, Step, Enabled, Premature;
    AgreedIff(Created(n), es);
    RunSize(Created(n), es);
    var t := Run(Created(n), es);
    OwnedParts(t, k);
  }

  lemma OwnedParts(t: Tx, k: nat)
    requires Inv(t) && k < |t.slots|
    ensures InUse(t) >= 0 && t.free >= 0 && t.head == Idx(|t.slots|, t.tail, InUse(t))
    ensures t.released <= t.accepted && |t.accepted| - |t.released| == InUse(t)
    ensures k < InUse(t) ==> t.slots[Idx(|t.slots|, t.tail, k)] == Some(t.accepted[|t.released| + k])
    ensures k >= InUse(t) && t.sender.Resting? ==> t.slots[Idx(|t.slots|, t.tail, k)].None?
  {
    assert SlotOk(t, Idx(|t.slots|, t.tail, k));
  }

  lemma {:induction false} RunSize(t: Tx, es: seq<TxEvent>)
    requires Ready(t) && RunEnabled(t, es)
    ensures |Run(t, es).slots| == |t.slots|
    decreases |es|
  {
    if es != [] {
      RunSize(Step(t, es[0]), es[1..]);
    }
  }

  // ---------------------------------------------------------------------------
  // A check that reads head and semaphore close together
  // ---------------------------------------------------------------------------

  /** The check stops at or before the head. */
  predicate StopsAtHead(t: Tx)
    requires Ready(t)
  {
    var n := |t.slots|;
    match t.checker
    case Off => true
    case HasHead(tail, head) => tail < n && head < n && Dist(n, tail, head) <= InUse(t)
    case Looping(tail, head, count) =>
      tail < n && head < n && Dist(n, tail, head) <= InUse(t) && (tail == head && count == n ==> InUse(t) == n)
  }

  /** Between the two reads, sends have not filled the whole ring but for one that is not finished. */
  predicate Steady(t: Tx, e: TxEvent)
    requires InRing(t)
  {
    e.CheckOn? && t.checker.HasHead? && t.checker.tail == t.checker.head && t.free == 0 ==> Partial(t) == 0
  }

  lemma SteadyStep(t: Tx, e: TxEvent)
    requires Inv(t) && StopsAtHead(t) && Enabled(t, e) && Steady(t, e)
    ensures !Premature(t, e) && StopsAtHead(Step(t, e))
  {
    hide Owned;
    if e.CheckOn? && t.checker.Looping? && GoesOn(t) {
      assert InUse(t) > 0;
      assert InUse(Freed(t)) == InUse(t) - 1;
    }
  }

  predicate RunSteady(t: Tx, es: seq<TxEvent>)
    requires Ready(t) && RunEnabled(t, es)
    decreases |es|
  {
    es == [] || (Steady(t, es[0]) && RunSteady(Step(t, es[0]), es[1..]))
  }

  /** That suffices: no turn of the check is premature then. */
  lemma {:induction false} SteadySuffices(t: Tx, es: seq<TxEvent>)
    requires Inv(t) && StopsAtHead(t) && RunEnabled(t, es) && RunSteady(t, es)
    ensures !EverPremature(t, es)
    decreases |es|
  {
    if es != [] {
      SteadyStep(t, es[0]);
      StepInv(t, es[0]);
      hide Step, Inv, StopsAtHead, Enabled, Premature, Steady;
      SteadySuffices(Step(t, es[0]), es[1..]);
    }
  }

  // ---------------------------------------------------------------------------
  // What is released has been transmitted
  // ---------------------------------------------------------------------------

  /** Every released buffer was transmitted before; buffers are told apart by their handing in. */
  predicate AllTransmitted(t: Tx) { forall b :: b in t.released ==> b in t.transmitted }

  /** A turn of the check frees the slot in which a send has put its buffer, without having armed the descriptor. */
  predicate Early(t: Tx, e: TxEvent)
    requires Ready(t)
  {
    e.CheckOn? && t.checker.Looping? && GoesOn(t) && t.sender.Stored? && t.sender.head == t.checker.tail
  }

  /** The send has put its buffer in slot `i`, and the descriptor is still that of an earlier buffer. */
  predicate Unarmed(t: Tx, i: nat) { t.sender.Stored? && t.sender.head == i }

  /** A used descriptor's buffer was transmitted; a descriptor of the DMA's is that of its slot. */
  predicate SlotSent(t: Tx, i: nat)
    requires Ready(t) && i < |t.slots|
  {
    && (t.slots[i].Some? ==> t.slots[i].value in t.handed)
    && (t.address[i].Some? ==> t.address[i].value in t.handed)
    && (t.slots[i].Some? && t.used[i] && !Unarmed(t, i) ==> t.slots[i].value in t.transmitted)
    && (!t.used[i] && !Unarmed(t, i) ==> t.slots[i] == t.address[i])
  }

  /** The buffer of a send that has not armed its descriptor is nowhere else. */
  predicate NotYetSent(t: Tx)
    requires Ready(t)
  {
    && (!t.sender.Resting? ==> t.sender.buffer in t.handed)
    && (t.sender.Stored? ==> t.slots[t.sender.head] == Some(t.sender.buffer))
    && (t.sender.Wants? || t.sender.Took? || t.sender.Stored? ==>
          && t.sender.buffer !in t.transmitted
          && (forall i :: 0 <= i < |t.slots| ==> t.address[i] != Some(t.sender.buffer))
          && (forall i :: 0 <= i < |t.slots| && !Unarmed(t, i) ==> t.slots[i] != Some(t.sender.buffer)))
  }

  predicate SentOk(t: Tx) {
    && Ready(t) && AllTransmitted(t) && NotYetSent(t)
    && (forall b :: b in t.transmitted ==> b in t.handed)
    && (forall i :: 0 <= i < |t.slots| ==> SlotSent(t, i))
  }

  /** A buffer that is handed in is told apart from those handed in before. */
  predicate Apart(t: Tx, e: TxEvent) { e.Send? ==> e.buffer !in t.handed }

  lemma CheckSent(t: Tx)
    requires SentOk(t) && t.checker.Looping? && GoesOn(t) && !Early(t, CheckOn)
    ensures SentOk(Freed(t))
  {
    var r := Freed(t);
    assert SlotSent(t, t.checker.tail);
    forall i | 0 <= i < |r.slots| ensures SlotSent(r, i) { assert SlotSent(t, i); }
  }

  lemma TransmittedSent(t: Tx, i: nat)
    requires SentOk(t) && Enabled(t, Transmitted(i))
    ensures SentOk(Step(t, Transmitted(i)))
  {
    var r := Step(t, Transmitted(i));
    assert SlotSent(t, i);
    forall k | 0 <= k < |r.slots| ensures SlotSent(r, k) { assert SlotSent(t, k); }
  }

  lemma SendSent(t: Tx)
    requires SentOk(t) && Enabled(t, SendOn)
    ensures SentOk(SendNext(t))
  {
    var r := SendNext(t);
    assert SlotSent(t, t.sender.head);
    forall k | 0 <= k < |r.slots| ensures SlotSent(r, k) { assert SlotSent(t, k); }
  }

  /** From a state in which all is well, a step releases a buffer that was not transmitted exactly when it is early. */
  lemma StepSent(t: Tx, e: TxEvent)
    requires SentOk(t) && Enabled(t, e) && Apart(t, e)
    ensures SentOk(Step(t, e)) <==> !Early(t, e)
    ensures AllTransmitted(Step(t, e)) <==> !Early(t, e)
  {
    var r := Step(t, e);
    if e.SendOn? {
      SendSent(t);
    } else if e.Transmitted? {
      TransmittedSent(t, e.i);
    } else if e.CheckOn? && t.checker.Looping? && GoesOn(t) {
      if Early(t, e) { assert t.sender.buffer in r.released; } else { CheckSent(t); }
    } else {
      forall k | 0 <= k < |r.slots|
        ensures SlotSent(r, k)
        ensures e.Send? ==> r.slots[k] != Some(e.buffer) && r.address[k] != Some(e.buffer)
      {
        assert SlotSent(t, k);
      }
    }
  }

  predicate AllApart(t: Tx, es: seq<TxEvent>)
    requires Ready(t) && RunEnabled(t, es)
    decreases |es|
  {
    es == [] || (Apart(t, es[0]) && AllApart(Step(t, es[0]), es[1..]))
  }

  predicate EverEarly(t: Tx, es: seq<TxEvent>)
    requires Ready(t) && RunEnabled(t, es)
    decreases |es|
  {
    es != [] && (Early(t, es[0]) || EverEarly(Step(t, es[0]), es[1..]))
  }

  /** In every state of the run each released buffer was transmitted before. */
  predicate AlwaysTransmitted(t: Tx, es: seq<TxEvent>)
    requires Ready(t) && RunEnabled(t, es)
    decreases |es|
  {
    AllTransmitted(t) && (es == [] || AlwaysTransmitted(Step(t, es[0]), es[1..]))
  }

  /**
   * In any run at all, premature turns of the check included, every buffer is
   * released only after it was transmitted if and only if no turn is early.
   */
  lemma {:induction false} TransmittedIff(t: Tx, es: seq<TxEvent>)
    requires SentOk(t) && RunEnabled(t, es) && AllApart(t, es)
    ensures AlwaysTransmitted(t, es) <==> !EverEarly(t, es)
    decreases |es|
  {
    if es != [] {
      StepSent(t, es[0]);
      hide Step, Enabled, Early, AllTransmitted, NotYetSent, SlotSent;
      if Early(t, es[0]) {
        NotTransmitted(Step(t, es[0]), es[1..]);
      } else {
        TransmittedIff(Step(t, es[0]), es[1..]);
      }
    }
  }

  lemma NotTransmitted(t: Tx, es: seq<TxEvent>)
    requires Ready(t) && RunEnabled(t, es) && !AllTransmitted(t)
    ensures !AlwaysTransmitted(t, es)
  {
  }

  /** An early turn is premature, so a run without premature turns releases only what was transmitted. */
  lemma {:induction false} AgreedTransmits(t: Tx, es: seq<TxEvent>)
    requires Inv(t) && SentOk(t) && RunEnabled(t, es) && AllApart(t, es) && !EverPremature(t, es)
    ensures AlwaysTransmitted(t, es)
    decreases |es|
  {
    if es != [] {
      if Early(t, es[0]) { EarlyIsPremature(t, es[0]); }
      StepInv(t, es[0]);
      StepSent(t, es[0]);
      hide Step, Enabled, Early, Premature, Inv, AllTransmitted, NotYetSent, SlotSent;
      AgreedTransmits(Step(t, es[0]), es[1..]);
    }
  }

  lemma EarlyIsPremature(t: Tx, e: TxEvent)
    requires Inv(t) && Early(t, e)
    ensures Premature(t, e)
  {
    hide Owned;
  }

  /** The buffers handed to the driver. */
  function HandedIn(es: seq<TxEvent>): multiset<Buffer>
    decreases |es|
  {
    if es == [] then multiset{} else (if es[0].Send? then multiset{es[0].buffer} else multiset{}) + HandedIn(es[1..])
  }

  /** The buffers the driver has dealt with, and the one a send is busy with. */
  function Accounted(t: Tx): multiset<Buffer> {
    multiset(t.accepted) + multiset(t.refused) + if t.sender.Resting? then multiset{} else multiset{t.sender.buffer}
  }

  lemma StepAccounted(t: Tx, e: TxEvent)
    requires Ready(t) && Enabled(t, e)
    ensures Accounted(Step(t, e)) == Accounted(t) + if e.Send? then multiset{e.buffer} else multiset{}
  {
    if e.CheckOn? { CheckKeeps(t); }
    hide CheckNext, InRing, Inc;
  }

  lemma CheckKeeps(t: Tx)
    requires Ready(t) && !t.checker.Off?
    ensures var r := CheckNext(t); r.accepted == t.accepted && r.refused == t.refused && r.sender == t.sender
  {
  }

  /** Every buffer handed in is accepted once or refused, and released at once, once; none is lost. */
  lemma {:induction false} NoBufferLost(t: Tx, es: seq<TxEvent>)
    requires Ready(t) && RunEnabled(t, es)
    ensures Accounted(Run(t, es)) == Accounted(t) + HandedIn(es)
    decreases |es|
  {
    if es != [] {
      StepAccounted(t, es[0]);
      NoBufferLost(Step(t, es[0]), es[1..]);
    }
  }

  // ---------------------------------------------------------------------------
  // Where the check can go wrong
  // ---------------------------------------------------------------------------

  lemma {:induction false} RunConcat(t: Tx, a: seq<TxEvent>, b: seq<TxEvent>)
    requires Ready(t) && RunEnabled(t, a) && RunEnabled(Run(t, a), b)
    ensures RunEnabled(t, a + b) && Run(t, a + b) == Run(Run(t, a), b)
    ensures EverPremature(Run(t, a), b) ==> EverPremature(t, a + b)
    ensures EverEarly(Run(t, a), b) ==> EverEarly(t, a + b)
    ensures AllApart(t, a) && AllApart(Run(t, a), b) ==> AllApart(t, a + b)
    decreases |a|
  {
    hide Step, Enabled, Ready, Premature, Early, Apart;
    if a == [] {
      assert a + b == b;
    } else {
      assert (a + b)[0] == a[0] && (a + b)[1..] == a[1..] + b;
      RunConcat(Step(t, a[0]), a[1..], b);
    }
  }

  /** The buffers 0, 1, ... up to `k`. */
  function Upto(k: nat): seq<Buffer> { seq(k, i => i) }

  /** While the check is between its two reads, `k` buffers were sent and transmitted. */
  function SentAll(n: nat, k: nat): (t: Tx)
    requires 2 <= n && k < n
    ensures Ready(t)
  {
    Tx(seq(n, i => true), seq(n, i => if i < k then Some(i) else None), seq(n, i => if i < k then Some(i) else None),
       k, 0, n - k, Resting, HasHead(0, 0), Upto(k), Upto(k), Upto(k), [], [])
  }

  /** The last slot is taken by a send that has not armed its descriptor; the check has freed `j` slots. */
  function FreedAll(n: nat, j: nat): Tx
    requires j < n && 2 <= n
  {
    Tx(seq(n, i => true), seq(n, i => if i < n - 1 then Some(i) else None),
        seq(n, i => if i < j then None else Some(i)),
       n - 1, j, j, Stored(n - 1, n - 1), Looping(j, 0, n - j), Upto(n), Upto(n - 1), Upto(n - 1), Upto(j), [])
  }

  function OneSend(k: nat): seq<TxEvent> { [Send(k, true), SendOn, SendOn, SendOn, SendOn, Transmitted(k)] }

  function Sends(k: nat): seq<TxEvent> { if k == 0 then [] else Sends(k - 1) + OneSend(k - 1) }

  function Turns(k: nat): seq<TxEvent> { seq(k, i => CheckOn) }

  function LastSend(n: nat): seq<TxEvent>
    requires n >= 1
  {
    [Send(n - 1, true), SendOn, SendOn, CheckOn]
  }

  /** The check begins, all slots but one are sent and transmitted, a send takes the last one, and the check goes on. */
  function StaleRun(n: nat): seq<TxEvent>
    requires n >= 2
  {
    ([Check] + Sends(n - 1)) + (LastSend(n) + Turns(n))
  }

  /** One send, begun when `k` buffers are in the ring, with its transmission. */
  lemma OneSendReaches(n: nat, k: nat)
    requires 2 <= n && k + 1 < n
    ensures RunEnabled(SentAll(n, k), OneSend(k)) && Run(SentAll(n, k), OneSend(k)) == SentAll(n, k + 1)
    ensures AllApart(SentAll(n, k), OneSend(k))
  {
    var t, es := SentAll(n, k), OneSend(k);
    var u := t.(handed := Upto(k + 1));
    var took := u.(free := n - k - 1, sender := Took(k, k));
    var stored := took.(slots := t.slots[k := Some(k)], sender := Stored(k, k));
    var armed := stored.(address := t.address[k := Some(k)], used := t.used[k := false], sender := Armed(k, k));
    var done := armed.(head := k + 1, sender := Resting, accepted := Upto(k + 1));
    assert Upto(k) + [k] == Upto(k + 1);
    assert done.slots == SentAll(n, k + 1).slots && done.address == SentAll(n, k + 1).address;
    assert done.used[k := true] == t.used;
    OneStep(t, es, u.(sender := Wants(k, k)));
    OneStep(u.(sender := Wants(k, k)), es[1..], took);
    OneStep(took, es[1..][1..], stored);
    OneStep(stored, es[1..][1..][1..], armed);
    OneStep(armed, es[1..][1..][1..][1..], done);
    OneStep(done, es[1..][1..][1..][1..][1..], SentAll(n, k + 1));
  }

  /** The first event of a run, once its effect is known. */
  lemma OneStep(t: Tx, es: seq<TxEvent>, r: Tx)
    requires es != [] && Ready(t) && Enabled(t, es[0]) && Apart(t, es[0]) && Step(t, es[0]) == r
    ensures RunEnabled(r, es[1..]) ==> RunEnabled(t, es) && Run(t, es) == Run(r, es[1..])
    ensures RunEnabled(r, es[1..]) && AllApart(r, es[1..]) ==> AllApart(t, es)
  {
  }

  lemma {:induction false} SendsReach(n: nat, k: nat)
    requires 2 <= n && k < n
    ensures RunEnabled(SentAll(n, 0), Sends(k)) && Run(SentAll(n, 0), Sends(k)) == SentAll(n, k)
    ensures AllApart(SentAll(n, 0), Sends(k))
  {
    hide SentAll, OneSend, Step, Enabled, Ready, Apart, Premature, Early;
    if k > 0 {
      SendsReach(n, k - 1);
      OneSendReaches(n, k - 1);
      RunConcat(SentAll(n, 0), Sends(k - 1), OneSend(k - 1));
    }
  }

  /** A send takes the last slot, and only then the check reads the semaphore. */
  lemma LastSendReaches(n: nat)
    requires 2 <= n
    ensures var es := LastSend(n);
            && RunEnabled(SentAll(n, n - 1), es) && Run(SentAll(n, n - 1), es) == FreedAll(n, 0)
            && AllApart(SentAll(n, n - 1), es)
  {
    var t, es := SentAll(n, n - 1), LastSend(n);
    var u := t.(handed := Upto(n));
    var took := u.(free := 0, sender := Took(n - 1, n - 1));
    var stored := took.(slots := t.slots[n - 1 := Some(n - 1)], sender := Stored(n - 1, n - 1));
    assert Upto(n - 1) + [n - 1] == Upto(n) && Upto(0) == [];
    assert stored.slots == FreedAll(n, 0).slots;
    OneStep(t, es, u.(sender := Wants(n - 1, n - 1)));
    OneStep(u.(sender := Wants(n - 1, n - 1)), es[1..], took);
    OneStep(took, es[1..][1..], stored);
    OneStep(stored, es[1..][1..][1..], FreedAll(n, 0));
  }

  lemma TurnFrees(n: nat, j: nat)
    requires 2 <= n && j + 1 < n
    ensures Step(FreedAll(n, j), CheckOn) == FreedAll(n, j + 1)
  {
    var r := Step(FreedAll(n, j), CheckOn);
    assert Upto(j) + [j] == Upto(j + 1);
    assert r.slots == FreedAll(n, j + 1).slots && r.used == FreedAll(n, j).used;
  }

  /** The turns of the check from there on: it does not see that the last slot is not ready to be freed. */
  lemma {:induction false} TurnsFree(n: nat, j: nat)
    requires 2 <= n && j < n
    ensures var t, es := FreedAll(n, j), Turns(n - j);
            && RunEnabled(t, es) && AllApart(t, es) && EverPremature(t, es) && EverEarly(t, es)
            && Run(t, es).released == Upto(n) && Run(t, es).transmitted == Upto(n - 1) == Run(t, es).accepted
            && Run(t, es).sender == Stored(n - 1, n - 1)
    decreases n - j
  {
    var t, es := FreedAll(n, j), Turns(n - j);
    assert es[1..] == Turns(n - j - 1);
    if j + 1 < n {
      TurnFrees(n, j);
      TurnsFree(n, j + 1);
      hide FreedAll, Turns, Step, Premature, Early, Upto;
    } else {
      assert Upto(n - 1) + [n - 1] == Upto(n) && es[1..] == [];
    }
  }

  lemma StaleFills(n: nat)
    requires n >= 2
    ensures var es := [Check] + Sends(n - 1);
            RunEnabled(Created(n), es) && Run(Created(n), es) == SentAll(n, n - 1) && AllApart(Created(n), es)
  {
    hide Created, SentAll, Sends, Step, Enabled, Ready, Premature, Early;
    CheckReaches(n);
    SendsReach(n, n - 1);
    RunConcat(Created(n), [Check], Sends(n - 1));
  }

  lemma StaleFrees(n: nat)
    requires n >= 2
    ensures var t, es := SentAll(n, n - 1), LastSend(n) + Turns(n);
            && RunEnabled(t, es) && AllApart(t, es) && EverPremature(t, es) && EverEarly(t, es)
            && Run(t, es).released == Upto(n) && Run(t, es).transmitted == Upto(n - 1) == Run(t, es).accepted
            && Run(t, es).sender == Stored(n - 1, n - 1)
  {
    hide SentAll, FreedAll, LastSend, Turns, Step, Enabled, Ready, Premature, Early;
    LastSendReaches(n);
    TurnsFree(n, 0);
    RunConcat(SentAll(n, n - 1), LastSend(n), Turns(n));
  }

  /**
   * On every ring: the check reads the head while the ring is empty, then all
   * descriptors but one are sent and transmitted and a send has taken the last
   * one, and only then it reads the semaphore.  It frees the slot of that send,
   * whose buffer is released although it was neither transmitted nor accepted.
   */
  lemma StaleHead(n: nat)
    requires n >= 2
    ensures RunEnabled(Created(n), StaleRun(n)) && AllApart(Created(n), StaleRun(n))
    ensures EverPremature(Created(n), StaleRun(n)) && EverEarly(Created(n), StaleRun(n))
            && !RunSteady(Created(n), StaleRun(n))
    ensures var t := Run(Created(n), StaleRun(n));
            && n - 1 in t.released && n - 1 !in t.transmitted && n - 1 !in t.accepted
                && t.sender == Stored(n - 1, n - 1)
  {
    hide Created, SentAll, Sends, LastSend, Turns, Step, Enabled, Ready, Premature, Early, Steady, Inv, StopsAtHead,
        SentOk;
    CreatedStops(n);
    StaleFills(n);
    StaleFrees(n);
    RunConcat(Created(n), [Check] + Sends(n - 1), LastSend(n) + Turns(n));
    assert Upto(n)[n - 1] == n - 1;
    if RunSteady(Created(n), StaleRun(n)) { SteadySuffices(Created(n), StaleRun(n)); }
  }

  lemma CheckReaches(n: nat)
    requires n >= 2
    ensures RunEnabled(Created(n), [Check]) && Run(Created(n), [Check]) == SentAll(n, 0)
            && AllApart(Created(n), [Check])
  {
    var t := Created(n);
    assert Upto(0) == [] && SentAll(n, 0).slots == t.slots && SentAll(n, 0).address == t.address;
    OneStep(t, [Check], SentAll(n, 0));
  }

  lemma CreatedStops(n: nat)
    requires n >= 2
    ensures Ready(Created(n)) && Inv(Created(n)) && StopsAtHead(Created(n)) && SentOk(Created(n))
  {
  }

  // ---------------------------------------------------------------------------
  // Reception
  // ---------------------------------------------------------------------------

  type Frame = nat

  /** A frame and the buffer the DMA wrote it to. */
  datatype Delivery = Delivery(buffer: Buffer, frame: Frame)

  /**
   * `slots`: pxDMA_rx_buffers; `full`: the NEW bit of each descriptor; `frames`:
   * what the DMA wrote; `dma`: the descriptor it writes next.  While a check is
   * under way, `chain` links the buffers to be handed up at its end.  `received`,
   * `kept` (whether each frame looked at was accepted) and `handed` are history.
   */
  datatype Rx = Rx(slots: seq<Option<Buffer>>, full: seq<bool>, frames: seq<Frame>, head: nat, dma: nat,
                   checking: bool, chain: seq<Delivery>,
                   received: seq<Delivery>, kept: seq<bool>, handed: seq<Delivery>)

  datatype RxEvent =
    | Receive(frame: Frame)
    | CheckRx
    | LookAt(accept: bool, spare: Option<Buffer>)   // what xMayAcceptPacket and the allocator say
    | HandUp

  predicate RxInRing(x: Rx) {
    0 < |x.slots| == |x.full| == |x.frames| && x.head < |x.slots| && x.dma < |x.slots|
  }

  /** The test at the top of the loop of emacps_check_rx. */
  predicate HasFrame(x: Rx)
    requires RxInRing(x)
  {
    x.full[x.head] && x.slots[x.head].Some?
  }

  /** The allocator hands out a buffer that nobody else has. */
  predicate Spare(x: Rx, b: Buffer) {
    Some(b) !in x.slots && forall d :: d in x.chain ==> d.buffer != b
  }

  predicate RxEnabled(x: Rx, e: RxEvent)
    requires RxInRing(x)
  {
    match e
    case Receive(_) => !x.full[x.dma] && x.slots[x.dma].Some?
    case CheckRx => !x.checking
    case LookAt(_, spare) => x.checking && HasFrame(x) && (spare.Some? ==> Spare(x, spare.value))
    case HandUp => x.checking && !HasFrame(x)
  }

  /**
   * A frame that is accepted, with a spare buffer to take its place, is linked
   * to the chain; any other stays and is dropped.
   */
  function LookedAt(x: Rx, accept: bool, spare: Option<Buffer>): Rx
    requires RxInRing(x) && HasFrame(x)
  {
    var i, keeps := x.head, accept && spare.Some?;
    x.(slots := if keeps then x.slots[i := spare] else x.slots,
       full := x.full[i := false],
       head := Inc(|x.slots|, i),
       chain := x.chain + if keeps then [Delivery(x.slots[i].value, x.frames[i])] else [],
       kept := x.kept + [keeps])
  }

  function RxStep(x: Rx, e: RxEvent): (r: Rx)
    requires RxInRing(x) && RxEnabled(x, e)
    ensures RxInRing(r)
  {
    match e
    case Receive(f) =>
      x.(full := x.full[x.dma := true], frames := x.frames[x.dma := f], dma := Inc(|x.slots|, x.dma),
         received := x.received + [Delivery(x.slots[x.dma].value, f)])
    case CheckRx => x.(checking := true, chain := [])
    case LookAt(accept, spare) => LookedAt(x, accept, spare)
    case HandUp => x.(checking := false, handed := x.handed + x.chain, chain := [])
  }

  /** The deliveries that were kept, in order. */
  function Chosen(received: seq<Delivery>, kept: seq<bool>): seq<Delivery>
    requires |kept| <= |received|
  {
    if kept == [] then []
    else
      var last := |kept| - 1;
      Chosen(received, kept[..last]) + if kept[last] then [received[last]] else []
  }

  /** Frames received and not yet looked at. */
  function Backlog(x: Rx): int { |x.received| - |x.kept| }

  /** A slot holds a buffer, and up to the DMA's place a frame that was received into it. */
  predicate RxSlotOk(x: Rx, i: nat)
    requires RxInRing(x) && i < |x.slots| && 0 <= Backlog(x)
  {
    var k := Dist(|x.slots|, x.head, i);
    && x.slots[i].Some?
    && (x.full[i] <==> k < Backlog(x))
    && (k < Backlog(x) ==> x.received[|x.kept| + k] == Delivery(x.slots[i].value, x.frames[i]))
  }

  predicate OneEach(x: Rx) {
    && (forall i, j :: 0 <= i < j < |x.slots| ==> x.slots[i] != x.slots[j])
    && (forall d :: d in x.chain ==> Some(d.buffer) !in x.slots)
    && (forall i, j :: 0 <= i < j < |x.chain| ==> x.chain[i].buffer != x.chain[j].buffer)
  }

  predicate RxInv(x: Rx) {
    && RxInRing(x)
    && 0 <= Backlog(x) <= |x.slots| && x.dma == Idx(|x.slots|, x.head, Backlog(x))
    && (forall i :: 0 <= i < |x.slots| ==> RxSlotOk(x, i))
    && OneEach(x)
    && Chosen(x.received, x.kept) == x.handed + x.chain
    && (!x.checking ==> x.chain == [])
  }

  lemma {:induction false} ChosenSame(received: seq<Delivery>, more: seq<Delivery>, kept: seq<bool>)
    requires |kept| <= |received| && received <= more
    ensures Chosen(more, kept) == Chosen(received, kept)
  {
    if kept != [] {
      ChosenSame(received, more, kept[..|kept| - 1]);
    }
  }

  lemma ReceiveInv(x: Rx, f: Frame)
    requires RxInv(x) && RxEnabled(x, Receive(f))
    ensures RxInv(RxStep(x, Receive(f)))
  {
    var r := RxStep(x, Receive(f));
    assert RxSlotOk(x, x.dma);
    ChosenSame(x.received, r.received, x.kept);
    hide Chosen;
    forall i | 0 <= i < |r.slots| ensures RxSlotOk(r, i) { assert RxSlotOk(x, i); }
  }

  lemma LookedAtInv(x: Rx, accept: bool, spare: Option<Buffer>)
    requires RxInv(x) && RxEnabled(x, LookAt(accept, spare))
    ensures RxInv(LookedAt(x, accept, spare)) && Backlog(x) > 0
    ensures LookedAt(x, accept, spare).chain == x.chain + if accept && spare.Some? then [x.received[|x.kept|]] else []
  {
    var r, i := LookedAt(x, accept, spare), x.head;
    assert RxSlotOk(x, i);
    assert r.kept[..|x.kept|] == x.kept;
    assert Chosen(r.received, r.kept) == r.handed + r.chain;
    hide Chosen;
    forall j | 0 <= j < |r.slots| ensures RxSlotOk(r, j) { assert RxSlotOk(x, j); }
    LookedAtOneEach(x, accept, spare);
    hide OneEach;
  }

  lemma LookedAtOneEach(x: Rx, accept: bool, spare: Option<Buffer>)
    requires RxInRing(x) && OneEach(x) && RxEnabled(x, LookAt(accept, spare))
    ensures OneEach(LookedAt(x, accept, spare))
  {
    var r := LookedAt(x, accept, spare);
    forall d | d in r.chain ensures Some(d.buffer) !in r.slots {
      if d in x.chain { assert Some(d.buffer) !in x.slots; }
    }
    forall i, j | 0 <= i < j < |r.chain| ensures r.chain[i].buffer != r.chain[j].buffer {
      assert x.chain[i] in x.chain;
    }
  }

  lemma RxStepInv(x: Rx, e: RxEvent)
    requires RxInv(x) && RxEnabled(x, e)
    ensures RxInv(RxStep(x, e))
  {
    match e
    case Receive(f) => ReceiveInv(x, f);
    case LookAt(accept, spare) => LookedAtInv(x, accept, spare);
    case CheckRx =>
      var r := RxStep(x, e);
      forall i | 0 <= i < |r.slots| ensures RxSlotOk(r, i) { assert RxSlotOk(x, i); }
    case HandUp =>
      var r := RxStep(x, e);
      hide Chosen;
      forall i | 0 <= i < |r.slots| ensures RxSlotOk(r, i) { assert RxSlotOk(x, i); }
  }

  /** The ring as init_dma leaves it: a buffer of its own in every slot. */
  function Filled(buffers: seq<Buffer>): (x: Rx)
    requires |buffers| > 0 && forall i, j :: 0 <= i < j < |buffers| ==> buffers[i] != buffers[j]
    ensures RxInv(x)
  {
    var n := |buffers|;
    Rx(seq(n, i requires 0 <= i < n => Some(buffers[i])), seq(n, i => false), seq(n, i => 0), 0, 0, false, [], [],
        [], [])
  }

  ghost predicate RxRunEnabled(x: Rx, es: seq<RxEvent>)
    requires RxInRing(x)
    decreases |es|
  {
    es == [] || (RxEnabled(x, es[0]) && RxRunEnabled(RxStep(x, es[0]), es[1..]))
  }

  ghost function RxRun(x: Rx, es: seq<RxEvent>): (r: Rx)
    requires RxInRing(x) && RxRunEnabled(x, es)
    ensures RxInRing(r)
    decreases |es|
  {
    if es == [] then x else RxRun(RxStep(x, es[0]), es[1..])
  }

  lemma {:induction false} RxRunInv(x: Rx, es: seq<RxEvent>)
    requires RxInv(x) && RxRunEnabled(x, es)
    ensures RxInv(RxRun(x, es))
    decreases |es|
  {
    if es != [] {
      RxStepInv(x, es[0]);
      hide RxStep, RxInv, RxEnabled;
      RxRunInv(RxStep(x, es[0]), es[1..]);
    }
  }

  /**
   * In every run every slot holds a buffer, no two the same; and when no check
   * is under way, what was handed up is exactly the accepted ones of the frames
   * looked at, once and in order, each with the buffer it was received into.
   */
  lemma FramesHandedUpOnce(buffers: seq<Buffer>, es: seq<RxEvent>)
    requires |buffers| > 0 && forall i, j :: 0 <= i < j < |buffers| ==> buffers[i] != buffers[j]
    requires RxRunEnabled(Filled(buffers), es)
    ensures var x := RxRun(Filled(buffers), es);
            && (forall i :: 0 <= i < |x.slots| ==> x.slots[i].Some?)
            && (forall i, j :: 0 <= i < j < |x.slots| ==> x.slots[i] != x.slots[j])
            && |x.kept| <= |x.received|
            && (!x.checking ==> x.handed == Chosen(x.received, x.kept))
  {
    RxRunInv(Filled(buffers), es);
    var x := RxRun(Filled(buffers), es);
    forall i | 0 <= i < |x.slots| ensures x.slots[i].Some? { assert RxSlotOk(x, i); }
  }

  // ---------------------------------------------------------------------------
  // As the driver runs them
  // ---------------------------------------------------------------------------

  /** The transmit side of xemacpsif_s, with pxDMA_tx_buffers and the count of the semaphore. */
  class TxRing {
    const segmentUsed: array<bool>
    const segmentAddress: array<Option<Buffer>>
    const buffers: array<Option<Buffer>>
    var head: nat
    var tail: nat
    var semaphore: int
    ghost var handed: seq<Buffer>
    ghost var accepted: seq<Buffer>
    ghost var transmitted: seq<Buffer>
    ghost var released: seq<Buffer>
    ghost var refused: seq<Buffer>

    ghost function View(sender: Sender, checker: Checker): Tx
      reads this, segmentUsed, segmentAddress, buffers
    {
      Tx(segmentUsed[..], segmentAddress[..], buffers[..], head, tail, semaphore, sender, checker,
         handed, accepted, transmitted, released, refused)
    }

    ghost predicate Valid()
      reads this, segmentUsed, segmentAddress, buffers
    {
      segmentAddress != buffers && Inv(View(Resting, Off))
    }

    constructor (n: nat)
      requires n >= 2
      ensures Valid() && fresh(segmentUsed) && fresh(segmentAddress) && fresh(buffers)
              && View(Resting, Off) == Created(n)
    {
      segmentUsed := new bool[n](_ => true);
      segmentAddress := new Option<Buffer>[n](_ => None);
      buffers := new Option<Buffer>[n](_ => None);
      head, tail, semaphore := 0, 0, n;
      handed, accepted, transmitted, released, refused := [], [], [], [], [];
      new;
      assert View(Resting, Off) == Created(n);
    }

    /** clean_dma_txdescs, before anything was sent. */
    method CleanDescriptors()
      requires segmentUsed.Length == segmentAddress.Length == buffers.Length >= 2 && segmentAddress != buffers
      requires head == tail && head < buffers.Length && semaphore == buffers.Length && released == accepted
      modifies segmentUsed, segmentAddress, buffers
      ensures Valid()
    {
      var i := 0;
      while i < buffers.Length
        invariant i <= buffers.Length
        invariant forall j :: 0 <= j < i ==> segmentUsed[j] && segmentAddress[j] == buffers[j] == None
      {
        segmentAddress[i] := None;
        segmentUsed[i] := true;
        buffers[i] := None;
        i := i + 1;
      }
    }

    /**
     * emacps_send_message, when it need not wait: a buffer of a valid length
     * goes to the DMA if a descriptor is free; any other is released at once.
     */
    method SendMessage(buffer: Buffer, valid: bool) returns (sent: bool)
      requires Valid()
      modifies this`head, this`semaphore, this`handed, this`accepted, this`refused, segmentUsed, segmentAddress, buffers
      ensures Valid() && tail == old(tail) && released == old(released)
      ensures handed == old(handed) + [buffer] && (sent <==> valid && old(semaphore) > 0)
      ensures sent ==>
                accepted == old(accepted) + [buffer] && refused == old(refused) && semaphore == old(semaphore) - 1
      ensures !sent ==> accepted == old(accepted) && refused == old(refused) + [buffer] && semaphore == old(semaphore)
    {
      hide Owned, Counted, CheckerOk;
      var h := head;
      sent := false;
      ghost var t := View(Resting, Off);
      if valid && semaphore > 0 {
        ghost var t1 := t.(handed := handed + [buffer], sender := Wants(buffer, h));
        StepInv(t, Send(buffer, true));
        handed := handed + [buffer];
        semaphore := semaphore - 1;
        SendInv(t1);
        ghost var t2 := SendNext(t1);
        buffers[h] := Some(buffer);
        SendInv(t2);
        ghost var t3 := SendNext(t2);
        segmentAddress[h] := buffers[h];
        segmentUsed[h] := false;
        SendInv(t3);
        ghost var t4 := SendNext(t3);
        sent := true;
        h := h + 1;
        if h == buffers.Length {
          h := 0;
        }
        head := h;
        accepted := accepted + [buffer];
        SendInv(t4);
        assert View(Resting, Off) == SendNext(t4);
      } else {
        StepInv(t, Send(buffer, false));
        handed := handed + [buffer];
        refused := refused + [buffer];
        assert View(Resting, Off) == Step(t, Send(buffer, false));
      }
    }

    /** One turn of the loop of emacps_check_tx: the slot at the tail is freed and its descriptor given back. */
    method FreeSlot(i: nat, ghost h: nat, ghost count: int) returns (next: nat)
      requires InRing(View(Resting, Looping(i, h, count))) && i == tail && buffers[i].Some? && segmentAddress != buffers
      modifies this`tail, this`semaphore, this`released, segmentUsed, buffers
      ensures View(Resting, Looping(next, h, count - 1)) == old(Freed(View(Resting, Looping(i, h, count))))
              && next == tail
    {
      if buffers[i].Some? {
        released := released + [buffers[i].value];
        buffers[i] := None;
      }
      segmentUsed[i] := true;
      semaphore := semaphore + 1;
      next := i + 1;
      if next == buffers.Length {
        next := 0;
      }
      tail := next;
    }

    /**
     * emacps_check_tx, with nobody else at work: it releases the oldest buffers
     * in flight, in order, as far as they have been transmitted, and no others.
     */
    method CheckTx()
      requires Valid()
      modifies this`tail, this`semaphore, this`released, segmentUsed, buffers
      ensures Valid() && head == old(head) && accepted == old(accepted) && refused == old(refused)
      ensures old(released) <= released
      ensures var k, t := |released| - |old(released)|, old(View(Resting, Off));
              && k <= InUse(t) && semaphore == old(semaphore) + k
              && (forall j :: 0 <= j < k ==> t.used[Idx(|t.slots|, t.tail, j)])
              && (k < InUse(t) ==> !t.used[Idx(|t.slots|, t.tail, k)])
    {
      hide Progress, Inv, Freed;
      var n := buffers.Length;
      var i: nat, h: nat, count: int := tail, head, n - semaphore;
      ghost var t0, k := View(Resting, Off), 0;
      ghost var t := View(Resting, Looping(i, h, count));
      ProgressStarts(t0, t);
      while count > 0 && segmentUsed[i] && (i == h ==> count == n)
        invariant InRing(t) && i == tail && t == View(Resting, Looping(i, h, count)) && Progress(t0, t, k)
        decreases count
      {
        ProgressOn(t0, t, k);
        i := FreeSlot(i, h, count);
        count := count - 1;
        k := k + 1;
        t := View(Resting, Looping(i, h, count));
      }
      ProgressEnds(t0, t, k);
    }
  }

  /** After `k` turns of the check's loop: the oldest `k` buffers are released, which had all been transmitted. */
  predicate Progress(t0: Tx, t: Tx, k: nat) {
    && Inv(t0) && Inv(t) && t.checker.Looping? && t0.sender.Resting? && t.sender.Resting?
    && |t.slots| == |t0.slots| && k <= InUse(t0) && t.free == t0.free + k
    && t.tail == Idx(|t0.slots|, t0.tail, k) && t.head == t0.head == t.checker.head
    && t.checker.count == InUse(t)
    && t.accepted == t0.accepted && t.refused == t0.refused && t0.released <= t.released
        && |t.released| == |t0.released| + k
    && (forall j :: 0 <= j < k ==> t0.used[Idx(|t0.slots|, t0.tail, j)])
    && (forall j :: k <= j < InUse(t0) ==> t.used[Idx(|t0.slots|, t0.tail, j)] == t0.used[Idx(|t0.slots|, t0.tail, j)])
  }

  lemma ProgressStarts(t0: Tx, t: Tx)
    requires Inv(t0) && t0.sender.Resting? && t0.checker.Off?
    requires t == t0.(checker := Looping(t0.tail, t0.head, |t0.slots| - t0.free))
    ensures Progress(t0, t, 0) && InRing(t)
  {
    SameFlight(t0, t);
    hide InFlight;
    forall i | 0 <= i < |t.slots| ensures SlotOk(t, i) { assert SlotOk(t0, i); }
  }

  lemma ProgressOn(t0: Tx, t: Tx, k: nat)
    requires InRing(t) && t.checker.Looping? && t.checker.tail < |t.slots| && Progress(t0, t, k) && GoesOn(t)
    ensures Progress(t0, Freed(t), k + 1) && InRing(Freed(t))
    ensures t.slots[t.tail].Some? && t.tail == t.checker.tail
  {
    FreedInv(t);
    hide Owned, SlotOk, InFlight;
    var r, n := Freed(t), |t.slots|;
    forall j | k < j < InUse(t0) ensures r.used[Idx(n, t0.tail, j)] == t0.used[Idx(n, t0.tail, j)] {
      assert Idx(n, t0.tail, j) != t.tail;
    }
  }

  lemma ProgressEnds(t0: Tx, t: Tx, k: nat)
    requires InRing(t) && t.checker.Looping? && t.checker.tail < |t.slots| && Progress(t0, t, k) && !GoesOn(t)
    ensures Inv(t.(checker := Off)) && t0.released <= t.released
            && |t.released| == |t0.released| + k <= |t0.released| + InUse(t0)
    ensures t.free == t0.free + k && t.head == t0.head && t.accepted == t0.accepted && t.refused == t0.refused
    ensures k < InUse(t0) ==> !t0.used[Idx(|t0.slots|, t0.tail, k)]
    ensures forall j :: 0 <= j < k ==> t0.used[Idx(|t0.slots|, t0.tail, j)]
  {
    var r := t.(checker := Off);
    SameFlight(t, r);
    hide InFlight;
    forall i | 0 <= i < |r.slots| ensures SlotOk(r, i) { assert SlotOk(t, i); }
  }

  /** The receive side of xemacpsif_s, with pxDMA_rx_buffers, and the buffers the allocator has. */
  class RxRing {
    const segmentNew: array<bool>
    const frames: array<Frame>
    const buffers: array<Option<Buffer>>
    var head: nat
    var pool: seq<Buffer>
    ghost var dma: nat
    ghost var received: seq<Delivery>
    ghost var kept: seq<bool>
    ghost var handed: seq<Delivery>

    ghost function View(checking: bool, chain: seq<Delivery>): Rx
      reads this, segmentNew, frames, buffers
    {
      Rx(buffers[..], segmentNew[..], frames[..], head, dma, checking, chain, received, kept, handed)
    }

    /** No buffer of the pool is in the ring. */
    ghost predicate Valid()
      reads this, segmentNew, frames, buffers
    {
      && RxInv(View(false, []))
      && (forall i, j :: 0 <= i < j < |pool| ==> pool[i] != pool[j])
      && (forall i :: 0 <= i < |pool| ==> Some(pool[i]) !in buffers[..])
    }

    /** One turn of the loop of emacps_check_rx. */
    method TakeFrame(i: nat, accepted: bool, chain: seq<Delivery>) returns (next: nat, more: seq<Delivery>)
      requires var x := View(true, chain); RxInRing(x) && HasFrame(x) && i == head
      modifies this`head, this`pool, this`kept, segmentNew, buffers
      ensures View(true, more) == old(LookedAt(View(true, chain), accepted, if pool == [] then None else Some(pool[0])))
      ensures pool == if accepted && old(pool) != [] then old(pool)[1..] else old(pool)
      ensures next == head
    {
      more := chain;
      kept := kept + [accepted && pool != []];
      if accepted && pool != [] {
        more := chain + [Delivery(buffers[i].value, frames[i])];
        buffers[i] := Some(pool[0]);
        pool := pool[1..];
      }
      segmentNew[i] := false;
      next := i + 1;
      if next == buffers.Length {
        next := 0;
      }
      head := next;
    }

    /**
     * emacps_check_rx: all frames that have been received are looked at, in
     * order; those that may be accepted and for which there is a spare buffer
     * are handed up, each with the buffer it was received into.
     */
    method CheckRx(mayAccept: Frame -> bool) returns (chain: seq<Delivery>)
      requires Valid()
      modifies this`head, this`pool, this`kept, this`handed, segmentNew, buffers
      ensures Valid() && received == old(received) && |kept| == |received| && old(kept) <= kept
      ensures handed == old(handed) + chain && handed == Chosen(received, kept)
      ensures forall i :: |old(kept)| <= i < |kept| && kept[i] ==> mayAccept(received[i].frame)
      ensures forall i :: |old(kept)| <= i < |kept| && !kept[i] && mayAccept(received[i].frame) ==> pool == []
    {
      hide RxSlotOk, OneEach, Chosen, RxInv, PoolApart, LookedAt;
      chain := [];
      var i := head;
      ghost var x, was := View(true, chain), kept;
      CheckRxStarts(View(false, []), pool);
      while segmentNew[i] && buffers[i].Some?
        invariant x == View(true, chain) && RxInRing(x) && RxInv(x) && i == head && PoolApart(x, pool)
        invariant Judged(x, |was|, mayAccept, pool == []) && was <= kept
        invariant received == old(received) && handed == old(handed)
        decreases |received| - |kept|
      {
        FrameAtHead(x);
        var accepted := mayAccept(frames[i]);
        TakenInv(x, accepted, pool, |was|, mayAccept);
        i, chain := TakeFrame(i, accepted, chain);
        x := View(true, chain);
      }
      CheckRxEnds(x, pool);
      handed := handed + chain;
    }
  }

  /**
   * Of the frames looked at since `from_`, those kept may be accepted, and
   * those that may be were kept unless the pool ran out.
   */
  ghost predicate Judged(x: Rx, from_: nat, mayAccept: Frame -> bool, ranOut: bool) {
    && |x.kept| <= |x.received|
    && (forall i :: from_ <= i < |x.kept| && x.kept[i] ==> mayAccept(x.received[i].frame))
    && (forall i :: from_ <= i < |x.kept| && !x.kept[i] && mayAccept(x.received[i].frame) ==> ranOut)
  }

  lemma CheckRxStarts(x: Rx, pool: seq<Buffer>)
    requires RxInv(x) && !x.checking && x.chain == []
    requires (forall i, j :: 0 <= i < j < |pool| ==> pool[i] != pool[j])
             && (forall i :: 0 <= i < |pool| ==> Some(pool[i]) !in x.slots)
    ensures var r := x.(checking := true); RxInRing(r) && RxInv(r) && PoolApart(r, pool) && |r.kept| <= |r.received|
  {
    RxStepInv(x, CheckRx);
  }

  lemma TakenInv(x: Rx, accept: bool, pool: seq<Buffer>, from_: nat, mayAccept: Frame -> bool)
    requires RxInv(x) && x.checking && HasFrame(x) && PoolApart(x, pool) && Judged(x, from_, mayAccept, pool == [])
    requires accept == mayAccept(x.frames[x.head])
    ensures var r := LookedAt(x, accept, if pool == [] then None else Some(pool[0]));
            var rest := if accept && pool != [] then pool[1..] else pool;
            && RxInRing(r) && RxInv(r) && PoolApart(r, rest) && Judged(r, from_, mayAccept, rest == [])
            && |r.kept| == |x.kept| + 1 && x.kept <= r.kept && r.received == x.received && r.handed == x.handed
  {
    hide OneEach, Chosen;
    FrameAtHead(x);
    PoolStaysApart(x, pool, accept);
    hide RxSlotOk;
    LookedAtInv(x, accept, if pool == [] then None else Some(pool[0]));
    hide RxInv, PoolApart;
  }

  lemma CheckRxEnds(x: Rx, pool: seq<Buffer>)
    requires RxInv(x) && x.checking && !HasFrame(x) && PoolApart(x, pool)
    ensures var r := x.(checking := false, handed := x.handed + x.chain, chain := []);
            RxInv(r) && r.handed == Chosen(r.received, r.kept) && |r.kept| == |r.received|
    ensures (forall i, j :: 0 <= i < j < |pool| ==> pool[i] != pool[j])
            && (forall i :: 0 <= i < |pool| ==> Some(pool[i]) !in x.slots)
  {
    RxStepInv(x, HandUp);
    assert RxSlotOk(x, x.head);
  }

  /** The buffers of the pool are nobody else's. */
  predicate PoolApart(x: Rx, pool: seq<Buffer>) {
    && (forall i, j :: 0 <= i < j < |pool| ==> pool[i] != pool[j])
    && (forall i :: 0 <= i < |pool| ==> Spare(x, pool[i]))
  }

  lemma PoolStaysApart(x: Rx, pool: seq<Buffer>, accept: bool)
    requires RxInv(x) && HasFrame(x) && PoolApart(x, pool)
    ensures var spare := if pool == [] then None else Some(pool[0]);
            PoolApart(LookedAt(x, accept, spare), if accept && pool != [] then pool[1..] else pool)
  {
    var spare := if pool == [] then None else Some(pool[0]);
    var r, rest := LookedAt(x, accept, spare), if accept && pool != [] then pool[1..] else pool;
    forall i | 0 <= i < |rest| ensures Spare(r, rest[i]) {
      var b := if accept && pool != [] then pool[i + 1] else pool[i];
      assert rest[i] == b && Spare(x, b);
      assert x.slots[x.head] in x.slots;
    }
  }

  lemma FrameAtHead(x: Rx)
    requires RxInv(x) && HasFrame(x)
    ensures Backlog(x) > 0 && x.received[|x.kept|] == Delivery(x.slots[x.head].value, x.frames[x.head])
  {
    assert RxSlotOk(x, x.head);
  }
}
