/** The reply-handle table of the SPI link to the modem (c_modules/modem/src/modem_spi.c).

    `HandleTable` follows the source's functions.  `System`, `Op` and `Apply` interleave any number
    of requesters, the wire, the modem and the receive handler over the same table. */
module ModemHandles {
  type Bytes = seq<bv8>

  const MAX_MODEM_HANDLES: nat := 32
  const ASYNC_HANDLE: nat := 255
  const SPIM_RX_BUFF_SIZE: nat := 3072
  const EADDRNOTAVAIL: int := 125
  const ENOMEM: int := 12
  const NRF9160_NOT_READY: bv8 := 0xcc
  const NRF9160_UNKNOWN: bv8 := 0xfe

  /** The reply pointer of a slot; `Freed` points to memory that has been given back. */
  datatype Pointer = Null | Block(bytes: Bytes) | Freed

  datatype Slot = Slot(used: bool, data: Pointer)

  const EMPTY_SLOT := Slot(false, Null)

  /** The first unused slot from `i` on, or MAX_MODEM_HANDLES. */
  function FirstFree(slots: seq<Slot>, i: nat): (h: nat)
    requires |slots| == MAX_MODEM_HANDLES && i <= |slots|
    ensures i <= h <= MAX_MODEM_HANDLES
    ensures h < MAX_MODEM_HANDLES ==> !slots[h].used
    ensures forall j :: i <= j < h ==> slots[j].used
    decreases |slots| - i
  {
    if i == |slots| || !slots[i].used then i else FirstFree(slots, i + 1)
  }

  function Marked(slots: seq<Slot>, h: nat): seq<Slot>
    requires h < |slots|
  {
    slots[h := slots[h].(used := true)]
  }

  /** A reply to a handle in use is kept; any other reply is thrown away. */
  function Stored(slots: seq<Slot>, h: nat, bytes: Bytes): seq<Slot> {
    if h < |slots| && slots[h].used then slots[h := slots[h].(data := Block(bytes))] else slots
  }

  function Forgotten(slots: seq<Slot>, h: nat): seq<Slot> {
    if h < |slots| && slots[h].used then slots[h := slots[h].(data := Null)] else slots
  }

  function Unmarked(slots: seq<Slot>, h: nat): seq<Slot>
    requires h < |slots|
  {
    slots[h := slots[h].(used := false)]
  }

  function Cleared(slots: seq<Slot>, h: nat): seq<Slot>
    requires h < |slots|
  {
    slots[h := slots[h].(data := Null)]
  }

  datatype MessageType = NO_OP | NULL_MESSAGE | DEVICE_INFO | DEVICE_STATUS | COMMAND_RESP_VERSION | OTHER

  datatype Message = Message(handle: nat, messageType: MessageType, bytes: Bytes)

  predicate Peeked(m: Message) {
    m.messageType == DEVICE_INFO || m.messageType == DEVICE_STATUS || m.messageType == COMMAND_RESP_VERSION
  }

  predicate Garbled(bytes: Bytes) {
    |bytes| >= 2 && bytes[0] == bytes[1] && (bytes[0] == NRF9160_NOT_READY || bytes[0] == NRF9160_UNKNOWN)
  }

  /** The receive handler passes the message on to the table.  `consumed` says that the async
      dispatcher took it. */
  predicate ReachesTable(m: Message, poweredOn: bool, consumed: bool) {
    && poweredOn
    && (m.handle == ASYNC_HANDLE || Peeked(m) ==> !consumed)
    && !Garbled(m.bytes)
    && |m.bytes| <= SPIM_RX_BUFF_SIZE
    && m.handle < MAX_MODEM_HANDLES
  }

  /** The table after the receive handler has looked at a message; the lock or the allocation of the
      copy may fail. */
  function Received(slots: seq<Slot>, m: Message, poweredOn: bool, consumed: bool, lockOk: bool, mallocOk: bool)
    : seq<Slot>
  {
    if !ReachesTable(m, poweredOn, consumed) || !lockOk then slots
    else if mallocOk then Stored(slots, m.handle, m.bytes)
    else Forgotten(slots, m.handle)
  }

  class HandleTable {
    const slots: array<Slot>

    ghost predicate Valid()
      reads this
    {
      slots.Length == MAX_MODEM_HANDLES
    }

    constructor ()
      ensures Valid() && fresh(slots)
      ensures forall h :: 0 <= h < MAX_MODEM_HANDLES ==> slots[h] == EMPTY_SLOT
    {
      slots := new Slot[MAX_MODEM_HANDLES](i => EMPTY_SLOT);
    }

    /** Slot 0 is never handed out. */
    method GetNextHandleId() returns (ret: int)
      requires Valid()
      modifies slots
      ensures var h := FirstFree(old(slots[..]), 1);
              if h < MAX_MODEM_HANDLES then ret == h && slots[..] == Marked(old(slots[..]), h)
              else ret == -125 && slots[..] == old(slots[..])
    {
      for i := 1 to MAX_MODEM_HANDLES
        invariant forall j :: 1 <= j < i ==> slots[j].used
        invariant slots[..] == old(slots[..])
      {
        if !slots[i].used {
          slots[i] := slots[i].(used := true);
          assert FirstFree(old(slots[..]), 1) == i;
          return i;
        }
      }
      return -EADDRNOTAVAIL;
    }

    /** `failure` is the error of an allocation that fails after the handle has been taken, or 0. */
    method SendCommand(replyRequested: bool, failure: int) returns (ret: int)
      requires Valid() && failure <= 0
      modifies slots
      ensures var h := FirstFree(old(slots[..]), 1);
              if !replyRequested then ret == failure && slots[..] == old(slots[..])
              else if h == MAX_MODEM_HANDLES then ret == 125 && slots[..] == old(slots[..])
              else ret == (if failure < 0 then failure else h) && slots[..] == Marked(old(slots[..]), h)
    {
      var newHandle: int := ASYNC_HANDLE;
      if replyRequested {
        newHandle := GetNextHandleId();
        if newHandle < 0 {
          return -newHandle;
        }
      }
      if failure < 0 {
        return failure;
      }
      if replyRequested {
        return newHandle;
      }
      return 0;
    }

    /** spim_recv_action_work_handler, from the first check to the end. */
    method ReceiveMessage(m: Message, poweredOn: bool, consumed: bool, lockOk: bool, mallocOk: bool)
      requires Valid()
      modifies slots
      ensures slots[..] == Received(old(slots[..]), m, poweredOn, consumed, lockOk, mallocOk)
    {
      if m.handle == ASYNC_HANDLE && (m.messageType == NO_OP || m.messageType == NULL_MESSAGE) {
        return;
      }
      if !poweredOn {
        return;
      }
      if m.handle == ASYNC_HANDLE {
        if consumed {
          return;
        }
      } else if m.messageType == DEVICE_INFO || m.messageType == DEVICE_STATUS
                || m.messageType == COMMAND_RESP_VERSION {
        if consumed {
          return;
        }
      }
      if |m.bytes| >= 2 && m.bytes[0] == NRF9160_NOT_READY && m.bytes[1] == NRF9160_NOT_READY {
        return;
      }
      if |m.bytes| >= 2 && m.bytes[0] == NRF9160_UNKNOWN && m.bytes[1] == NRF9160_UNKNOWN {
        return;
      }
      if |m.bytes| > SPIM_RX_BUFF_SIZE || m.handle >= MAX_MODEM_HANDLES || !lockOk {
        return;
      }
      for i := 0 to MAX_MODEM_HANDLES
        invariant slots[..] == old(slots[..])
        invariant i > m.handle ==> !slots[m.handle].used
      {
        if slots[i].used && i == m.handle {
          slots[i] := slots[i].(data := if mallocOk then Block(m.bytes) else Null);
          return;
        }
      }
    }

    /** One look at the slot by modem_spi_recv_resp; it looks again until its time is up. */
    method ReceiveResponse(handle: nat, maxlen: nat) returns (ret: int, data: Bytes)
      requires Valid() && handle < MAX_MODEM_HANDLES
      requires slots[handle].data != Freed
      ensures slots[handle].data == Null ==> ret == -1 && data == []
      ensures slots[handle].data.Block? ==>
                if |slots[handle].data.bytes| <= maxlen then ret == 0 && data == slots[handle].data.bytes
                else ret == -12 && data == []
    {
      if slots[handle].data != Null {
        if maxlen < |slots[handle].data.bytes| {
          return -ENOMEM, [];
        }
        return 0, slots[handle].data.bytes;
      }
      return -1, [];
    }

    method FreeReplyData(handle: nat) returns (ret: int)
      requires Valid()
      modifies slots
      ensures handle < MAX_MODEM_HANDLES ==>
                ret == 0 && slots[..] == old(slots[..])[handle := EMPTY_SLOT]
      ensures handle >= MAX_MODEM_HANDLES ==> ret == -1 && slots[..] == old(slots[..])
    {
      if handle < MAX_MODEM_HANDLES {
        slots[handle] := slots[handle].(used := false);
        if slots[handle].data != Null {
          slots[handle] := slots[handle].(data := Null);
        }
        return 0;
      }
      return -1;
    }

    /** The pointer is not cleared. */
    method StopWaiting(handle: nat) returns (ret: int)
      requires Valid()
      modifies slots
      ensures handle >= MAX_MODEM_HANDLES ==> ret == -1 && slots[..] == old(slots[..])
      ensures handle < MAX_MODEM_HANDLES ==>
                && ret == 0
                && slots[..] == if old(slots[handle]).used then Stopped(old(slots[..]), handle)
                                else old(slots[..])
    {
      if handle >= MAX_MODEM_HANDLES {
        return -1;
      }
      if slots[handle].used {
        if slots[handle].data != Null {
          slots[handle] := slots[handle].(data := Freed);
        }
        slots[handle] := slots[handle].(used := false);
      }
      return 0;
    }
  }

  function Stopped(slots: seq<Slot>, h: nat): seq<Slot>
    requires h < |slots|
  {
    slots[h := Slot(false, if slots[h].data == Null then Null else Freed)]
  }

  // ----- The system -----

  /** Where a requester is in send, receive and free.  `Looking(i)` is about to test slot `i`;
      `Found(i)` has seen it unused and not yet marked it. */
  datatype Phase =
    | Looking(at: nat)
    | Found(at: nat)
    | NoHandle
    | Leaked(handle: nat)     // sending failed after the handle was taken
    | Waiting(handle: nat)
    | Done(handle: nat)       // modem_spi_recv_resp has returned 0
    | Freeing(handle: nat)    // handle_used is cleared, the data is not
    | Finished

  /** A request on its way to the modem, or the modem's reply on its way back. */
  datatype Flight = Sent(handle: nat) | Reply(handle: nat, bytes: Bytes)

  datatype Owner = Nobody | Owner(q: nat)

  /** Three fields record the history: `owner` who took a slot last and has not given it back,
      `answers` what the modem answered to each request, `results` what the requester's receive
      call returned. */
  datatype System = System(
    slots: seq<Slot>,
    owner: seq<Owner>,
    phase: map<nat, Phase>,
    flight: map<nat, Flight>,
    answers: map<nat, Bytes>,
    results: map<nat, Bytes>)

  datatype Op =
    | Start(q: nat)
    | Look(q: nat)                   // get_next_handle_id tests one slot
    | Mark(q: nat)                   // ... and marks the one it found
    | Claim(q: nat)                  // both at once, as under a lock
    | FailSend(q: nat)
    | Answer(q: nat, bytes: Bytes)   // the modem answers, in any order
    | Lose(q: nat)                   // the message or its reply is dropped
    | Deliver(q: nat)                // the receive handler stores the reply
    | Receive(q: nat)
    | GiveUp(q: nat)                 // the receive call times out
    | Unmark(q: nat)                 // modem_spi_free_reply_data clears the flag
    | Clear(q: nat)                  // ... and then the pointer
    | Release(q: nat)                // both at once, as under a lock

  predicate In(s: System, q: nat) {
    q in s.phase
  }

  /** The handle a requester has taken and not given back, or 0. */
  function HandleOf(p: Phase): nat {
    match p
    case Leaked(h) => h
    case Waiting(h) => h
    case Done(h) => h
    case Freeing(h) => h
    case _ => 0
  }

  ghost predicate Enabled(s: System, op: Op) {
    match op
    case Start(q) => q !in s.phase
    case Look(q) => q in s.phase && s.phase[q].Looking?
    case Mark(q) => q in s.phase && s.phase[q].Found?
    case Claim(q) => q in s.phase && s.phase[q].Looking?
    case FailSend(q) => q in s.flight && s.flight[q].Sent?
    case Answer(q, _) => q in s.flight && s.flight[q].Sent?
    case Lose(q) => q in s.flight
    case Deliver(q) => q in s.flight && s.flight[q].Reply?
    case Receive(q) => q in s.phase && s.phase[q].Waiting? && s.phase[q].handle < |s.slots|
                       && s.slots[s.phase[q].handle].data.Block?
    case GiveUp(q) => q in s.phase && s.phase[q].Waiting?
    case Unmark(q) => q in s.phase && s.phase[q].Done? && s.phase[q].handle < |s.slots|
    case Clear(q) => q in s.phase && s.phase[q].Freeing? && s.phase[q].handle < |s.slots|
    case Release(q) => q in s.phase && s.phase[q].Done? && s.phase[q].handle < |s.slots|
  }

  function Taken(s: System, q: nat, h: nat): System
    requires h < |s.slots| == |s.owner|
  {
    s.(slots := Marked(s.slots, h), owner := s.owner[h := Owner(q)],
       phase := s.phase[q := Waiting(h)], flight := s.flight[q := Sent(h)])
  }

  ghost function Apply(s: System, op: Op): System
    requires |s.slots| == |s.owner| == MAX_MODEM_HANDLES && Enabled(s, op)
  {
    match op
    case Start(q) => s.(phase := s.phase[q := Looking(1)])
    case Look(q) =>
      var i := s.phase[q].at;
      s.(phase := s.phase[q := if i >= MAX_MODEM_HANDLES then NoHandle
                               else if s.slots[i].used then Looking(i + 1) else Found(i)])
    case Mark(q) =>
      if s.phase[q].at < MAX_MODEM_HANDLES then Taken(s, q, s.phase[q].at) else s
    case Claim(q) =>
      var h := FirstFree(s.slots, 1);
      if h < MAX_MODEM_HANDLES then Taken(s, q, h) else s.(phase := s.phase[q := NoHandle])
    case FailSend(q) => s.(phase := s.phase[q := Leaked(s.flight[q].handle)], flight := s.flight - {q})
    case Answer(q, bytes) =>
      s.(flight := s.flight[q := Reply(s.flight[q].handle, bytes)], answers := s.answers[q := bytes])
    case Lose(q) => s.(flight := s.flight - {q})
    case Deliver(q) =>
      s.(slots := Stored(s.slots, s.flight[q].handle, s.flight[q].bytes), flight := s.flight - {q})
    case Receive(q) =>
      s.(phase := s.phase[q := Done(s.phase[q].handle)],
         results := s.results[q := s.slots[s.phase[q].handle].data.bytes])
    case GiveUp(q) => s.(phase := s.phase[q := Done(s.phase[q].handle)])
    case Unmark(q) =>
      s.(slots := Unmarked(s.slots, s.phase[q].handle), phase := s.phase[q := Freeing(s.phase[q].handle)])
    case Clear(q) =>
      s.(slots := Cleared(s.slots, s.phase[q].handle), owner := s.owner[s.phase[q].handle := Nobody],
         phase := s.phase[q := Finished])
    case Release(q) =>
      s.(slots := s.slots[s.phase[q].handle := EMPTY_SLOT], owner := s.owner[s.phase[q].handle := Nobody],
         phase := s.phase[q := Finished])
  }

  // ----- The invariant -----

  ghost predicate Sized(s: System) {
    |s.slots| == |s.owner| == MAX_MODEM_HANDLES
  }

  ghost predicate Filled(s: System, q: nat, h: nat)
    requires h < |s.slots|
  {
    s.slots[h].data == Null || (q in s.answers && s.slots[h].data == Block(s.answers[q]))
  }

  /** What one requester's slot looks like in each phase. */
  ghost predicate Mine(s: System, q: nat)
    requires Sized(s) && In(s, q)
  {
    match s.phase[q]
    case Looking(at) => 1 <= at <= MAX_MODEM_HANDLES
    case Found(at) => 1 <= at < MAX_MODEM_HANDLES
    case NoHandle => true
    case Finished => true
    case Leaked(h) => Owns(s, q, h) && s.slots[h] == Slot(true, Null)
    case Waiting(h) => Owns(s, q, h) && s.slots[h].used && Filled(s, q, h)
    case Done(h) => Owns(s, q, h) && s.slots[h].used && Filled(s, q, h)
    case Freeing(h) => Owns(s, q, h) && !s.slots[h].used
  }

  ghost predicate Owns(s: System, q: nat, h: nat)
    requires Sized(s)
  {
    1 <= h < MAX_MODEM_HANDLES && s.owner[h] == Owner(q)
  }

  /** A message in flight belongs to a requester that still waits for it, and is not answered
      twice. */
  ghost predicate Aloft(s: System, q: nat)
    requires Sized(s) && q in s.flight
  {
    && In(s, q) && s.phase[q] == Waiting(s.flight[q].handle)
    && s.flight[q].handle < MAX_MODEM_HANDLES && s.slots[s.flight[q].handle].data == Null
    && (s.flight[q].Reply? ==> q in s.answers && s.answers[q] == s.flight[q].bytes)
    && (s.flight[q].Sent? ==> q !in s.answers)
  }

  ghost predicate Local(s: System, q: nat)
    requires Sized(s)
  {
    && (In(s, q) ==> Mine(s, q))
    && (q in s.flight ==> Aloft(s, q))
    && (q in s.answers ==> In(s, q))
    && (In(s, q) && (s.phase[q].Looking? || s.phase[q].Found?) ==> q !in s.answers)
    && (q in s.results ==> q in s.answers && s.results[q] == s.answers[q])
  }

  ghost predicate SlotOk(s: System, h: nat)
    requires Sized(s) && h < MAX_MODEM_HANDLES
  {
    match s.owner[h]
    case Nobody => s.slots[h] == EMPTY_SLOT
    case Owner(q) => h > 0 && In(s, q) && HandleOf(s.phase[q]) == h
  }

  ghost predicate Inv(s: System) {
    && Sized(s)
    && (forall q :: Local(s, q))
    && (forall h :: 0 <= h < MAX_MODEM_HANDLES ==> SlotOk(s, h))
  }

  // ----- What the invariant means -----

  ghost predicate Unheld(s: System, h: nat) {
    forall q :: In(s, q) ==> HandleOf(s.phase[q]) != h
  }

  /** Outstanding handles are in 1..31 and pairwise distinct, a slot nobody holds is unused and
      holds no data, and every receive call has returned the modem's answer to its own request. */
  lemma InvMeans(s: System)
    requires Inv(s)
    ensures forall q :: In(s, q) ==> HandleOf(s.phase[q]) < MAX_MODEM_HANDLES
    ensures forall q, p :: In(s, q) && In(s, p) && q != p && HandleOf(s.phase[q]) > 0 ==>
              HandleOf(s.phase[q]) != HandleOf(s.phase[p])
    ensures forall h :: 0 <= h < MAX_MODEM_HANDLES && (h == 0 || Unheld(s, h)) ==> s.slots[h] == EMPTY_SLOT
    ensures forall q :: q in s.results ==> q in s.answers && s.results[q] == s.answers[q]
  {
    forall q | In(s, q)
      ensures HandleOf(s.phase[q]) < MAX_MODEM_HANDLES
      ensures HandleOf(s.phase[q]) > 0 ==> s.owner[HandleOf(s.phase[q])] == Owner(q)
    {
      assert Local(s, q);
    }
    forall h | 0 <= h < MAX_MODEM_HANDLES && (h == 0 || Unheld(s, h))
      ensures s.slots[h] == EMPTY_SLOT
    {
      assert SlotOk(s, h);
    }
    forall q | q in s.results
      ensures q in s.answers && s.results[q] == s.answers[q]
    {
      assert Local(s, q);
    }
  }

  // ----- Every step -----

  /** `t` differs from `s` at most in requester `q` and slot `h`. */
  ghost predicate Agree(s: System, t: System, q: nat, h: nat)
    requires Sized(s) && Sized(t)
  {
    && (forall p :: p != q ==> (In(s, p) <==> In(t, p)) && (In(s, p) ==> s.phase[p] == t.phase[p]))
    && (forall p :: p != q ==> (p in s.flight <==> p in t.flight) && (p in s.flight ==> s.flight[p] == t.flight[p]))
    && (forall p :: p != q ==> (p in s.answers <==> p in t.answers) && (p in s.answers ==> s.answers[p] == t.answers[p]))
    && (forall p :: p != q ==> (p in s.results <==> p in t.results) && (p in s.results ==> s.results[p] == t.results[p]))
    && (forall k :: 0 <= k < MAX_MODEM_HANDLES && k != h ==> s.slots[k] == t.slots[k] && s.owner[k] == t.owner[k])
  }

  /** The invariant only has to be looked at where the step acts. */
  lemma Frame(s: System, t: System, q: nat, h: nat)
    requires Inv(s) && Sized(t) && Agree(s, t, q, h) && h < MAX_MODEM_HANDLES
    requires s.owner[h] == Nobody || s.owner[h] == Owner(q)
    requires In(s, q) && HandleOf(s.phase[q]) != 0 ==> HandleOf(s.phase[q]) == h
    requires Local(t, q) && SlotOk(t, h)
    ensures Inv(t)
  {
    forall p: nat
      ensures Local(t, p)
    {
      if p != q {
        hide Local, Agree;
        assert Local(s, p);
      }
    }
    forall k | 0 <= k < MAX_MODEM_HANDLES
      ensures SlotOk(t, k)
    {
      if k != h {
        assert SlotOk(s, k);
        hide Local, Agree;
      }
    }
  }

  lemma StartKeeps(s: System, q: nat)
    requires Inv(s) && Enabled(s, Start(q))
    ensures Inv(Apply(s, Start(q)))
  {
    assert Local(s, q) && SlotOk(s, 0);
    Frame(s, Apply(s, Start(q)), q, 0);
  }

  lemma LookKeeps(s: System, q: nat)
    requires Inv(s) && Enabled(s, Look(q))
    ensures Inv(Apply(s, Look(q)))
  {
    assert Local(s, q) && SlotOk(s, 0);
    Frame(s, Apply(s, Look(q)), q, 0);
  }

  lemma ReceiveKeeps(s: System, q: nat)
    requires Inv(s) && Enabled(s, Receive(q))
    ensures Inv(Apply(s, Receive(q)))
  {
    var h := s.phase[q].handle;
    assert Local(s, q) && SlotOk(s, h);
    Frame(s, Apply(s, Receive(q)), q, h);
  }

  lemma AnswerKeeps(s: System, q: nat, bytes: Bytes)
    requires Inv(s) && Enabled(s, Answer(q, bytes))
    ensures Inv(Apply(s, Answer(q, bytes)))
  {
    assert Local(s, q);
    var h := s.phase[q].handle;
    assert SlotOk(s, h);
    Frame(s, Apply(s, Answer(q, bytes)), q, h);
  }

  lemma LoseKeeps(s: System, q: nat)
    requires Inv(s) && Enabled(s, Lose(q))
    ensures Inv(Apply(s, Lose(q)))
  {
    assert Local(s, q);
    var h := s.phase[q].handle;
    assert SlotOk(s, h);
    Frame(s, Apply(s, Lose(q)), q, h);
  }

  lemma FailSendKeeps(s: System, q: nat)
    requires Inv(s) && Enabled(s, FailSend(q))
    ensures Inv(Apply(s, FailSend(q)))
  {
    assert Local(s, q);
    var h := s.phase[q].handle;
    assert SlotOk(s, h);
    Frame(s, Apply(s, FailSend(q)), q, h);
  }

  lemma DeliverKeeps(s: System, q: nat)
    requires Inv(s) && Enabled(s, Deliver(q))
    ensures Inv(Apply(s, Deliver(q)))
  {
    assert Local(s, q);
    var h := s.phase[q].handle;
    assert SlotOk(s, h);
    Frame(s, Apply(s, Deliver(q)), q, h);
  }

  lemma UnmarkKeeps(s: System, q: nat)
    requires Inv(s) && Enabled(s, Unmark(q))
    ensures Inv(Apply(s, Unmark(q)))
  {
    assert Local(s, q);
    var h := s.phase[q].handle;
    assert SlotOk(s, h);
    Frame(s, Apply(s, Unmark(q)), q, h);
  }

  lemma ClearKeeps(s: System, q: nat)
    requires Inv(s) && Enabled(s, Clear(q))
    ensures Inv(Apply(s, Clear(q)))
  {
    assert Local(s, q);
    var h := s.phase[q].handle;
    assert SlotOk(s, h);
    Frame(s, Apply(s, Clear(q)), q, h);
  }

  lemma ReleaseKeeps(s: System, q: nat)
    requires Inv(s) && Enabled(s, Release(q))
    ensures Inv(Apply(s, Release(q)))
  {
    assert Local(s, q);
    var h := s.phase[q].handle;
    assert SlotOk(s, h);
    Frame(s, Apply(s, Release(q)), q, h);
  }

  lemma TakenKeeps(s: System, q: nat, h: nat)
    requires Inv(s) && In(s, q) && (s.phase[q].Looking? || s.phase[q].Found?)
    requires 1 <= h < MAX_MODEM_HANDLES && s.owner[h] == Nobody
    ensures Inv(Taken(s, q, h))
  {
    assert Local(s, q) && SlotOk(s, h);
    Frame(s, Taken(s, q, h), q, h);
  }

  /** A requester may stop waiting exactly when nothing of its request is under way any more. */
  lemma GiveUpKeeps(s: System, q: nat)
    requires Inv(s) && Enabled(s, GiveUp(q))
    ensures Inv(Apply(s, GiveUp(q))) <==> q !in s.flight
  {
    var t, h := Apply(s, GiveUp(q)), s.phase[q].handle;
    assert Local(s, q) && SlotOk(s, h);
    if q in s.flight {
      assert !Local(t, q);
    } else {
      Frame(s, t, q, h);
    }
  }

  lemma UnheldIsNobody(s: System, h: nat)
    requires Inv(s) && 1 <= h < MAX_MODEM_HANDLES
    ensures Unheld(s, h) <==> s.owner[h] == Nobody
  {
    assert SlotOk(s, h);
    forall q | In(s, q) && HandleOf(s.phase[q]) == h
      ensures s.owner[h] == Owner(q)
    {
      assert Local(s, q);
    }
  }

  /** Marking the slot found is safe exactly when nobody holds it by then. */
  lemma MarkKeeps(s: System, q: nat)
    requires Inv(s) && Enabled(s, Mark(q))
    ensures Inv(Apply(s, Mark(q))) <==> Unheld(s, s.phase[q].at)
  {
    var h := s.phase[q].at;
    assert Local(s, q) && SlotOk(s, h);
    UnheldIsNobody(s, h);
    if s.owner[h] == Nobody {
      TakenKeeps(s, q, h);
    } else {
      var t, p := Taken(s, q, h), s.owner[h].q;
      assert HandleOf(t.phase[p]) == h && t.owner[h] == Owner(q);
      assert !Local(t, p);
    }
  }

  /** The code's own guard, an unused slot, is enough exactly while no free of that slot is half
      done. */
  lemma GuardOfMark(s: System, h: nat)
    requires Inv(s) && 1 <= h < MAX_MODEM_HANDLES && !s.slots[h].used
    ensures Unheld(s, h) <==> forall q :: In(s, q) ==> s.phase[q] != Freeing(h)
  {
    UnheldIsNobody(s, h);
    assert SlotOk(s, h);
    forall q | In(s, q) && HandleOf(s.phase[q]) == h
      ensures s.phase[q] == Freeing(h)
    {
      assert Local(s, q);
    }
  }

  // ----- Runs -----

  /** What a run has to respect for replies to match: a slot is marked only while nobody holds
      it, and no wait is abandoned while its request or reply is under way. */
  ghost predicate Safe(s: System, op: Op) {
    match op
    case Mark(q) => In(s, q) && s.phase[q].Found? && Unheld(s, s.phase[q].at)
    case Claim(q) => NoneFreeing(s)
    case GiveUp(q) => q !in s.flight
    case _ => true
  }

  ghost predicate NoneFreeing(s: System) {
    forall q :: In(s, q) ==> !s.phase[q].Freeing?
  }

  lemma ClaimKeeps(s: System, q: nat)
    requires Inv(s) && Enabled(s, Claim(q)) && NoneFreeing(s)
    ensures Inv(Apply(s, Claim(q)))
    ensures Apply(s, Claim(q)).phase[q] == NoHandle <==>
              forall h :: 1 <= h < MAX_MODEM_HANDLES ==> s.slots[h].used
  {
    var h := FirstFree(s.slots, 1);
    assert Local(s, q) && SlotOk(s, 0);
    if h < MAX_MODEM_HANDLES {
      GuardOfMark(s, h);
      UnheldIsNobody(s, h);
      TakenKeeps(s, q, h);
    } else {
      Frame(s, Apply(s, Claim(q)), q, 0);
    }
  }

  lemma StepKeeps(s: System, op: Op)
    requires Inv(s) && Enabled(s, op) && Safe(s, op)
    ensures Inv(Apply(s, op))
  {
    hide Inv, Apply, Unheld;
    match op {
      case Start(q) => StartKeeps(s, q);
      case Look(q) => LookKeeps(s, q);
      case Mark(q) => MarkKeeps(s, q);
      case Claim(q) => ClaimKeeps(s, q);
      case FailSend(q) => FailSendKeeps(s, q);
      case Answer(q, bytes) => AnswerKeeps(s, q, bytes);
      case Lose(q) => LoseKeeps(s, q);
      case Deliver(q) => DeliverKeeps(s, q);
      case Receive(q) => ReceiveKeeps(s, q);
      case GiveUp(q) => GiveUpKeeps(s, q);
      case Unmark(q) => UnmarkKeeps(s, q);
      case Clear(q) => ClearKeeps(s, q);
      case Release(q) => ReleaseKeeps(s, q);
    }
  }

  ghost predicate Run(s: System, ops: seq<Op>, t: System)
    decreases |ops|
  {
    if ops == [] then s == t
    else Sized(s) && Enabled(s, ops[0]) && Run(Apply(s, ops[0]), ops[1..], t)
  }

  ghost predicate SafeRun(s: System, ops: seq<Op>, t: System)
    decreases |ops|
  {
    if ops == [] then s == t
    else Sized(s) && Enabled(s, ops[0]) && Safe(s, ops[0]) && SafeRun(Apply(s, ops[0]), ops[1..], t)
  }

  function Slots(n: nat): (s: seq<Slot>)
    ensures |s| == n && forall k :: 0 <= k < n ==> s[k] == EMPTY_SLOT
  {
    if n == 0 then [] else [EMPTY_SLOT] + Slots(n - 1)
  }

  function Nobodies(n: nat): (s: seq<Owner>)
    ensures |s| == n && forall k :: 0 <= k < n ==> s[k] == Nobody
  {
    if n == 0 then [] else [Nobody] + Nobodies(n - 1)
  }

  function Initial(): System {
    System(Slots(MAX_MODEM_HANDLES), Nobodies(MAX_MODEM_HANDLES), map[], map[], map[], map[])
  }

  lemma {:induction false} SafeRunKeeps(s: System, ops: seq<Op>, t: System)
    requires Inv(s) && SafeRun(s, ops, t)
    ensures Inv(t)
    decreases |ops|
  {
    if ops != [] {
      StepKeeps(s, ops[0]);
      hide Inv, Apply, Enabled, Safe;
      SafeRunKeeps(Apply(s, ops[0]), ops[1..], t);
    }
  }

  /** In every interleaving of that kind each receive call returns the reply to its own request,
      outstanding handles are distinct and in 1..31, and free slots hold no data. */
  lemma RepliesMatch(ops: seq<Op>, t: System)
    requires SafeRun(Initial(), ops, t)
    ensures forall q :: q in t.results ==> q in t.answers && t.results[q] == t.answers[q]
    ensures forall q, p :: In(t, q) && In(t, p) && q != p && HandleOf(t.phase[q]) > 0 ==>
              HandleOf(t.phase[q]) != HandleOf(t.phase[p])
    ensures |t.slots| == MAX_MODEM_HANDLES
    ensures forall q :: In(t, q) ==> HandleOf(t.phase[q]) < MAX_MODEM_HANDLES
    ensures forall h :: 0 <= h < MAX_MODEM_HANDLES && (h == 0 || Unheld(t, h)) ==> t.slots[h] == EMPTY_SLOT
  {
    assert Inv(Initial());
    SafeRunKeeps(Initial(), ops, t);
    InvMeans(t);
  }

  // ----- Undisturbed, the code's steps are the locked ones -----

  /** The loop of get_next_handle_id from slot `i` on, and the mark. */
  ghost function ClaimSteps(s: System, q: nat, i: nat): seq<Op>
    requires Sized(s) && 1 <= i <= 32
    decreases 32 - i
  {
    if i == 32 then [Look(q)]
    else if s.slots[i].used then [Look(q)] + ClaimSteps(s, q, i + 1)
    else [Look(q), Mark(q)]
  }

  lemma RunCons(s: System, op: Op, ops: seq<Op>, t: System)
    requires Sized(s) && Enabled(s, op) && Run(Apply(s, op), ops, t)
    ensures Run(s, [op] + ops, t)
  {
    hide Apply, Enabled, Sized;
    assert ([op] + ops)[1..] == ops;
  }

  lemma {:induction false} ClaimStepsRun(s: System, q: nat, i: nat)
    requires Sized(s) && q in s.phase && s.phase[q] == Looking(i) && 1 <= i <= 32
    ensures var h := FirstFree(s.slots, i);
            Run(s, ClaimSteps(s, q, i), if h < 32 then Taken(s, q, h) else s.(phase := s.phase[q := NoHandle]))
    decreases 32 - i
  {
    LookStep(s, q, i);
    hide Apply, Enabled, Sized, Marked;
    var s1 := Apply(s, Look(q));
    if i == 32 {
      RunCons(s, Look(q), [], s1);
    } else if s.slots[i].used {
      ClaimStepsRun(s1, q, i + 1);
      SameSteps(s, s1, q, i + 1);
      TakenLater(s, q, i);
      var h := FirstFree(s.slots, i + 1);
      RunCons(s, Look(q), ClaimSteps(s, q, i + 1),
              if h < 32 then Taken(s, q, h) else s.(phase := s.phase[q := NoHandle]));
    } else {
      var s2 := Apply(s1, Mark(q));
      RunCons(s1, Mark(q), [], s2);
      RunCons(s, Look(q), [Mark(q)], s2);
      assert [Look(q)] + [Mark(q)] == [Look(q), Mark(q)];
    }
  }

  lemma LookStep(s: System, q: nat, i: nat)
    requires Sized(s) && q in s.phase && s.phase[q] == Looking(i) && 1 <= i <= 32
    ensures Enabled(s, Look(q)) && Sized(Apply(s, Look(q)))
    ensures Apply(s, Look(q)) == s.(phase := s.phase[q := if i == 32 then NoHandle
                                                         else if s.slots[i].used then Looking(i + 1) else Found(i)])
    ensures i < 32 && !s.slots[i].used ==>
              Enabled(Apply(s, Look(q)), Mark(q)) && Apply(Apply(s, Look(q)), Mark(q)) == Taken(s, q, i)
  {
    if i < 32 && !s.slots[i].used {
      assert s.phase[q := Found(i)][q := Waiting(i)] == s.phase[q := Waiting(i)];
    }
  }

  lemma TakenLater(s: System, q: nat, i: nat)
    requires Sized(s)
    ensures var s1 := s.(phase := s.phase[q := Looking(i + 1)]);
            && (forall h: nat :: h < 32 ==> Taken(s1, q, h) == Taken(s, q, h))
            && s1.(phase := s1.phase[q := NoHandle]) == s.(phase := s.phase[q := NoHandle])
  {
    assert s.phase[q := Looking(i + 1)][q := NoHandle] == s.phase[q := NoHandle];
    forall h: nat | h < 32
      ensures Taken(s.(phase := s.phase[q := Looking(i + 1)]), q, h) == Taken(s, q, h)
    {
      assert s.phase[q := Looking(i + 1)][q := Waiting(h)] == s.phase[q := Waiting(h)];
    }
  }

  lemma {:induction false} SameSteps(s: System, t: System, q: nat, i: nat)
    requires Sized(s) && Sized(t) && s.slots == t.slots && 1 <= i <= 32
    ensures ClaimSteps(s, q, i) == ClaimSteps(t, q, i)
    decreases 32 - i
  {
    if i < 32 {
      SameSteps(s, t, q, i + 1);
    }
  }

  /** Nothing coming between, testing the slots one by one and marking the first unused one is a claim
      under a lock, and clearing flag and pointer a release under a lock. */
  lemma UndisturbedIsLocked(s: System, q: nat)
    requires Sized(s) && q in s.phase
    ensures s.phase[q] == Looking(1) ==> Run(s, ClaimSteps(s, q, 1), Apply(s, Claim(q)))
    ensures Enabled(s, Unmark(q)) ==> Run(s, [Unmark(q), Clear(q)], Apply(s, Release(q)))
  {
    if s.phase[q] == Looking(1) {
      ClaimStepsRun(s, q, 1);
      ClaimIs(s, q);
    }
    if Enabled(s, Unmark(q)) {
      UnmarkThenClear(s, q);
      hide Apply, Enabled, Sized;
      RunCons(Apply(s, Unmark(q)), Clear(q), [], Apply(s, Release(q)));
      RunCons(s, Unmark(q), [Clear(q)], Apply(s, Release(q)));
      assert [Unmark(q)] + [Clear(q)] == [Unmark(q), Clear(q)];
    }
  }

  lemma ClaimIs(s: System, q: nat)
    requires Sized(s) && q in s.phase && s.phase[q] == Looking(1)
    ensures Enabled(s, Claim(q))
    ensures var h := FirstFree(s.slots, 1);
            Apply(s, Claim(q)) == if h < 32 then Taken(s, q, h) else s.(phase := s.phase[q := NoHandle])
  {
    hide Taken;
  }

  lemma UnmarkThenClear(s: System, q: nat)
    requires Sized(s) && Enabled(s, Unmark(q))
    ensures Sized(Apply(s, Unmark(q))) && Enabled(Apply(s, Unmark(q)), Clear(q)) && Enabled(s, Release(q))
    ensures Apply(Apply(s, Unmark(q)), Clear(q)) == Apply(s, Release(q))
  {
    var h := s.phase[q].handle;
    assert s.phase[q := Freeing(h)][q := Finished] == s.phase[q := Finished];
  }

  // ----- The receive handler is the system's delivery -----

  /** The message is a reply the handler keeps: the modem is on, the slot is one of the table's and in
      use, the message has the size of the receive buffer at most and does not start with the bytes
      of a busy or overread link, and if the dispatcher took it, it is none of the three kinds that
      are peeked at. */
  predicate Keepable(slots: seq<Slot>, m: Message, poweredOn: bool, consumed: bool)
    requires |slots| == 32
  {
    && poweredOn
    && 0 <= m.handle < 32 && slots[m.handle].used
    && |m.bytes| <= 3072
    && !(|m.bytes| >= 2 && m.bytes[0] == 0xCC && m.bytes[1] == 0xCC)
    && !(|m.bytes| >= 2 && m.bytes[0] == 0xFE && m.bytes[1] == 0xFE)
    && (consumed ==> !m.messageType.DEVICE_INFO? && !m.messageType.DEVICE_STATUS?
                     && !m.messageType.COMMAND_RESP_VERSION?)
  }

  /** Exactly those replies end up in their slot, byte for byte, if the lock and memory are to be had;
      no other slot changes, and any other message changes nothing. */
  lemma ReplyKeptIff(slots: seq<Slot>, m: Message, poweredOn: bool, consumed: bool, lockOk: bool, mallocOk: bool)
    requires |slots| == 32
    ensures var t := Received(slots, m, poweredOn, consumed, lockOk, mallocOk);
            && |t| == 32
            && (forall h :: 0 <= h < 32 && h != m.handle ==> t[h] == slots[h])
            && (Keepable(slots, m, poweredOn, consumed) && lockOk ==>
                  t[m.handle].used && t[m.handle].data == if mallocOk then Block(m.bytes) else Null)
            && (!(Keepable(slots, m, poweredOn, consumed) && lockOk) ==> t == slots)
  {
  }

  /** So on a reply under way the handler does what the system's step does: it delivers a reply it can
      keep, and loses any other. */
  lemma HandlerIsDeliver(s: System, q: nat, m: Message, poweredOn: bool, consumed: bool, lockOk: bool, mallocOk: bool)
    requires Inv(s) && q in s.flight && s.flight[q] == Reply(m.handle, m.bytes)
    ensures Enabled(s, Deliver(q)) && Enabled(s, Lose(q)) && |s.slots| == 32
    ensures Received(s.slots, m, poweredOn, consumed, lockOk, mallocOk) ==
              Apply(s, if Keepable(s.slots, m, poweredOn, consumed) && lockOk && mallocOk
                       then Deliver(q) else Lose(q)).slots
  {
    assert Local(s, q);
    ReplyKeptIff(s.slots, m, poweredOn, consumed, lockOk, mallocOk);
    hide Received, Keepable;
  }

  // ----- Claiming and releasing under a lock -----

  /** Steps in which get_next_handle_id and modem_spi_free_reply_data run undisturbed. */
  ghost predicate Locked(s: System, op: Op) {
    !op.Look? && !op.Mark? && !op.Unmark? && !op.Clear? && (op.GiveUp? ==> op.q !in s.flight)
  }

  ghost predicate LockedRun(s: System, ops: seq<Op>, t: System)
    decreases |ops|
  {
    if ops == [] then s == t
    else Sized(s) && Enabled(s, ops[0]) && Locked(s, ops[0]) && LockedRun(Apply(s, ops[0]), ops[1..], t)
  }

  lemma {:induction false} LockedRunIsSafe(s: System, ops: seq<Op>, t: System)
    requires NoneFreeing(s) && LockedRun(s, ops, t)
    ensures SafeRun(s, ops, t) && NoneFreeing(t)
    decreases |ops|
  {
    if ops != [] {
      LockedRunIsSafe(Apply(s, ops[0]), ops[1..], t);
    }
  }

  /** With both under a lock no side condition on claims is left: every such interleaving is safe,
      and an unused slot never holds data. */
  lemma LockedRepliesMatch(ops: seq<Op>, t: System)
    requires LockedRun(Initial(), ops, t)
    ensures SafeRun(Initial(), ops, t)
    ensures |t.slots| == MAX_MODEM_HANDLES
    ensures forall h :: 0 <= h < MAX_MODEM_HANDLES && !t.slots[h].used ==> t.slots[h].data == Null
  {
    LockedRunIsSafe(Initial(), ops, t);
    assert Inv(Initial());
    SafeRunKeeps(Initial(), ops, t);
    InvMeans(t);
    forall h | 1 <= h < MAX_MODEM_HANDLES && !t.slots[h].used
      ensures Unheld(t, h)
    {
      GuardOfMark(t, h);
    }
  }

  // ----- Runs that are not safe -----

  lemma RunStep(s: System, op: Op, ops: seq<Op>, t: System)
    requires Sized(s) && Enabled(s, op) && Run(Apply(s, op), ops, t)
    ensures Run(s, [op] + ops, t)
  {
    hide Apply, Enabled;
    assert ([op] + ops)[1..] == ops;
  }

  lemma RunThree(s: System, a: Op, b: Op, c: Op, t: System)
    requires Sized(s) && Enabled(s, a)
    requires var s1 := Apply(s, a); Sized(s1) && Enabled(s1, b)
    requires var s2 := Apply(Apply(s, a), b); Sized(s2) && Enabled(s2, c) && Apply(s2, c) == t
    ensures Run(s, [a, b, c], t)
  {
    hide Apply, Enabled;
    var s1 := Apply(s, a);
    var s2 := Apply(s1, b);
    RunStep(s2, c, [], t);
    RunStep(s1, b, [c], t);
    RunStep(s, a, [b] + [c], t);
    assert [a] + ([b] + [c]) == [a, b, c];
  }

  /** A reply sent to `q` lands in the slot it shares with `p`, whose receive call then returns it. */
  lemma WrongReply(s: System, q: nat, p: nat, h: nat, bytes: Bytes) returns (t: System)
    requires Sized(s) && q != p && h < MAX_MODEM_HANDLES
    requires q in s.flight && s.flight[q] == Sent(h)
    requires In(s, p) && s.phase[p] == Waiting(h) && s.slots[h].used && p !in s.answers
    ensures Run(s, [Answer(q, bytes), Deliver(q), Receive(p)], t)
    ensures p in t.results && t.results[p] == bytes && p !in t.answers
  {
    var s1 := Apply(s, Answer(q, bytes));
    var s2 := Apply(s1, Deliver(q));
    t := Apply(s2, Receive(p));
    RunThree(s, Answer(q, bytes), Deliver(q), Receive(p), t);
  }

  lemma {:induction false} RunThen(s: System, ops: seq<Op>, m: System, more: seq<Op>, t: System)
    requires Run(s, ops, m) && Run(m, more, t)
    ensures Run(s, ops + more, t)
    decreases |ops|
  {
    if ops == [] {
      assert ops + more == more;
    } else {
      RunThen(Apply(s, ops[0]), ops[1..], m, more, t);
      assert ops + more == [ops[0]] + (ops[1..] + more);
      RunStep(s, ops[0], ops[1..] + more, t);
    }
  }

  /** get_next_handle_id takes no lock: two requesters that both see slot `h` unused before either
      marks it share the handle, and the second one gets the answer to the first one's request. */
  lemma ClaimRace(s: System, q: nat, p: nat, h: nat, bytes: Bytes) returns (t: System)
    requires Inv(s) && q != p && In(s, q) && In(s, p)
    requires s.phase[q] == Found(h) && s.phase[p] == Found(h)
    ensures Run(s, [Mark(q), Mark(p)] + [Answer(q, bytes), Deliver(q), Receive(p)], t)
    ensures p in t.results && t.results[p] == bytes && p !in t.answers
  {
    assert Local(s, q) && Local(s, p);
    var s1 := Taken(s, q, h);
    var s2 := Taken(s1, p, h);
    assert s1 == Apply(s, Mark(q)) && s2 == Apply(s1, Mark(p));
    RunStep(s1, Mark(p), [], s2);
    RunStep(s, Mark(q), [Mark(p)], s2);
    assert [Mark(q)] + [Mark(p)] == [Mark(q), Mark(p)];
    t := WrongReply(s2, q, p, h, bytes);
    RunThen(s, [Mark(q), Mark(p)], s2, [Answer(q, bytes), Deliver(q), Receive(p)], t);
  }

  /** A wait given up while its request is under way: the handle is released and claimed again,
      and the late answer goes to the new holder. */
  lemma LateReply(s: System, q: nat, p: nat, bytes: Bytes) returns (t: System)
    requires Inv(s) && NoneFreeing(s) && q != p && q in s.flight && s.flight[q].Sent?
    requires In(s, p) && s.phase[p].Looking?
    requires forall k :: 1 <= k < s.flight[q].handle && k < MAX_MODEM_HANDLES ==> s.slots[k].used
    ensures Run(s, [GiveUp(q), Release(q), Claim(p)] + [Answer(q, bytes), Deliver(q), Receive(p)], t)
    ensures p in t.results && t.results[p] == bytes && p !in t.answers
  {
    assert Local(s, q) && Local(s, p);
    var h := s.flight[q].handle;
    var s1 := Apply(s, GiveUp(q));
    var s2 := Apply(s1, Release(q));
    assert FirstFree(s2.slots, 1) == h by {
      assert s2.slots[h] == EMPTY_SLOT;
      assert forall k :: 1 <= k < h ==> s2.slots[k] == s.slots[k];
    }
    var s3 := Taken(s2, p, h);
    RunThree(s, GiveUp(q), Release(q), Claim(p), s3);
    t := WrongReply(s3, q, p, h, bytes);
    RunThen(s, [GiveUp(q), Release(q), Claim(p)], s3, [Answer(q, bytes), Deliver(q), Receive(p)], t);
  }

  /** Both happen from power-up. */
  lemma ClaimRaceHappens(q: nat, p: nat, bytes: Bytes) returns (ops: seq<Op>, t: System)
    requires q != p
    ensures ops == [Start(q), Start(p), Look(q), Look(p)]
                   + ([Mark(q), Mark(p)] + [Answer(q, bytes), Deliver(q), Receive(p)])
    ensures Run(Initial(), ops, t)
    ensures p in t.results && t.results[p] == bytes && p !in t.answers
  {
    var s0 := Initial();
    var s1 := Apply(s0, Start(q));
    var s2 := Apply(s1, Start(p));
    var s3 := Apply(s2, Look(q));
    var s4 := Apply(s3, Look(p));
    assert s4 == s0.(phase := map[q := Found(1), p := Found(1)]);
    hide Apply, Inv;
    assert Inv(s4) by {
      InitialInv();
      StepKeeps(s0, Start(q));
      StepKeeps(s1, Start(p));
      StepKeeps(s2, Look(q));
      StepKeeps(s3, Look(p));
    }
    t := ClaimRace(s4, q, p, 1, bytes);
    var race := [Mark(q), Mark(p)] + [Answer(q, bytes), Deliver(q), Receive(p)];
    RunStep(s3, Look(p), race, t);
    RunStep(s2, Look(q), [Look(p)] + race, t);
    RunStep(s1, Start(p), [Look(q)] + ([Look(p)] + race), t);
    RunStep(s0, Start(q), [Start(p)] + ([Look(q)] + ([Look(p)] + race)), t);
    ops := [Start(q), Start(p), Look(q), Look(p)] + race;
    assert ops == [Start(q)] + ([Start(p)] + ([Look(q)] + ([Look(p)] + race)));
  }

  lemma LateReplyHappens(q: nat, p: nat, bytes: Bytes) returns (ops: seq<Op>, t: System)
    requires q != p
    ensures ops == [Start(q), Claim(q), Start(p)]
                   + ([GiveUp(q), Release(q), Claim(p)] + [Answer(q, bytes), Deliver(q), Receive(p)])
    ensures Run(Initial(), ops, t)
    ensures p in t.results && t.results[p] == bytes && p !in t.answers
  {
    var s0 := Initial();
    var s1 := Apply(s0, Start(q));
    var s2 := Apply(s1, Claim(q));
    var s3 := Apply(s2, Start(p));
    assert s2.flight[q] == Sent(1) && s3.flight == s2.flight && s3.phase[p] == Looking(1);
    assert NoneFreeing(s0) && NoneFreeing(s1) && NoneFreeing(s3);
    hide Apply, Inv;
    assert Inv(s3) by {
      InitialInv();
      StepKeeps(s0, Start(q));
      ClaimKeeps(s1, q);
      StepKeeps(s2, Start(p));
    }
    t := LateReply(s3, q, p, bytes);
    var late := [GiveUp(q), Release(q), Claim(p)] + [Answer(q, bytes), Deliver(q), Receive(p)];
    RunStep(s2, Start(p), late, t);
    RunStep(s1, Claim(q), [Start(p)] + late, t);
    RunStep(s0, Start(q), [Claim(q)] + ([Start(p)] + late), t);
    ops := [Start(q), Claim(q), Start(p)] + late;
    assert ops == [Start(q)] + ([Claim(q)] + ([Start(p)] + late));
  }

  lemma InitialInv()
    ensures Inv(Initial())
  {
  }

  function StoppedWaiting(s: System, q: nat, h: nat): System
    requires h < |s.slots| == |s.owner|
  {
    s.(slots := Stopped(s.slots, h), owner := s.owner[h := Nobody], phase := s.phase[q := Finished])
  }

  /** modem_spi_stop_waiting_for_resp leaves the table in order exactly when the request has come
      to an end and no reply had been stored: the pointer to a stored reply is not cleared. */
  lemma StopWaitingKeeps(s: System, q: nat)
    requires Inv(s) && In(s, q) && s.phase[q].Waiting?
    ensures s.phase[q].handle < MAX_MODEM_HANDLES == |s.slots|
    ensures Inv(StoppedWaiting(s, q, s.phase[q].handle)) <==>
              q !in s.flight && s.slots[s.phase[q].handle].data == Null
  {
    assert Local(s, q);
    var h := s.phase[q].handle;
    assert SlotOk(s, h);
    var t := StoppedWaiting(s, q, h);
    if q in s.flight {
      assert !Local(t, q);
    } else if s.slots[h].data != Null {
      assert !SlotOk(t, h);
    } else {
      Frame(s, t, q, h);
    }
  }
}
