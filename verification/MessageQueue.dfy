/** kernel/message_queue.c: the ring buffer and its byte copies. */
module MessageQueue {
  import opened RoundRobin
  import opened TaskMask
  import opened Task
  import opened Scheduling
  import opened Waiters
  import opened Semaphore
  import opened Mutex

  type Byte = b: nat | b < 256
  type Message = seq<Byte>

  datatype QueueStatus =
    | QueueOk
    | QueueNullPointer
    | QueueInvalidConfig
    | QueueNotInitialized
    | QueueSyncOperation

  /** `slots[i]` is the stretch of `storage` that starts at `i * message_size`. */
  datatype Ring = Ring(head: nat, tail: nat, slots: seq<Message>)

  predicate RingShape(r: Ring, messageSize: nat) {
    && r.head < |r.slots|
    && r.tail < |r.slots|
    && forall i :: 0 <= i < |r.slots| ==> |r.slots[i]| == messageSize
  }

  /** The index after `i`, as both `os_message_queue_send` and `_receive` compute it. */
  function Successor(i: nat, capacity: nat): (next: nat)
    requires 0 < capacity
    ensures next < capacity
  {
    if i + 1 >= capacity then 0 else i + 1
  }

  function WriteByte(r: Ring, i: nat, b: Byte): Ring
    requires r.tail < |r.slots| && i < |r.slots[r.tail]|
  {
    var slot: Message := r.slots[r.tail][i := b];
    r.(slots := r.slots[r.tail := slot])
  }

  function ReadByte(r: Ring, i: nat): Byte
    requires r.head < |r.slots| && i < |r.slots[r.head]|
  {
    r.slots[r.head][i]
  }

  // ---------------------------------------------------------------------------
  // A whole call, as long as nothing comes between its critical sections
  // ---------------------------------------------------------------------------

  datatype Parts = Parts(ring: Ring, mutex: Mtx, items: Sem, spaces: Sem)

  /** No status means that the caller blocked in its wait or its lock. */
  datatype QueueStep = QueueStep(parts: Parts, k: Sched, status: Option<QueueStatus>)

  predicate PartsShape(p: Parts, tasks: nat) {
    && p.ring.head < |p.ring.slots| && p.ring.tail < |p.ring.slots|
    && p.items.last < tasks && p.spaces.last < tasks
  }

  function StoreMessage(r: Ring, message: Message): Ring
    requires r.tail < |r.slots|
  {
    r.(slots := r.slots[r.tail := message], tail := Successor(r.tail, |r.slots|))
  }

  function FetchMessage(r: Ring): Ring
    requires 0 < |r.slots|
  {
    r.(head := Successor(r.head, |r.slots|))
  }

  /** The outcome of the part of a call before, or after, its copy. */
  datatype PassStep = PassStep(mutex: Mtx, units: Sem, k: Sched, status: Option<QueueStatus>)

  /** Both calls up to their copy: take a unit, then the lock; a failed lock gives the unit back. */
  function EnterQueue(mutex: Mtx, units: Sem, k: Sched, exceptionNumber: nat): (e: PassStep)
    requires k.current < |k.tasks| && units.last < |k.tasks|
    ensures |e.k.tasks| == |k.tasks| && e.k.current == k.current && e.units.last < |k.tasks|
    ensures e.status == Some(QueueOk) ==> IsTaskContext(e.k, exceptionNumber)
  {
    if !IsTaskContext(k, exceptionNumber) then PassStep(mutex, units, k, Some(QueueSyncOperation))
    else
      var w := WaitPass(units, k);
      if w.status.None? then PassStep(mutex, w.sem, w.k, None)
      else if w.status.value != SemOk then PassStep(mutex, w.sem, w.k, Some(QueueSyncOperation))
      else
        var l := LockPass(mutex, w.k);
        if l.status.None? then PassStep(l.mutex, w.sem, l.k, None)
        else if l.status.value != MutexOk then
          var back := PostPass(w.sem, l.k);
          PassStep(l.mutex, back.sem, back.k, Some(QueueSyncOperation))
        else PassStep(l.mutex, w.sem, l.k, Some(QueueOk))
  }

  /** Both calls after their copy: release the lock, then post a unit to the other side. */
  function LeaveQueue(mutex: Mtx, units: Sem, k: Sched): (l: PassStep)
    requires k.current < |k.tasks| && units.last < |k.tasks|
    ensures |l.k.tasks| == |k.tasks| && l.units.last < |k.tasks|
  {
    var u := UnlockPass(mutex, k);
    if u.status != Some(MutexOk) then PassStep(u.mutex, units, u.k, Some(QueueSyncOperation))
    else
      var post := PostPass(units, u.k);
      PassStep(u.mutex, post.sem, post.k, Some(if post.status == Some(SemOk) then QueueOk else QueueSyncOperation))
  }

  /** `os_message_queue_send` on an initialized queue. */
  function SendCall(p: Parts, message: Message, k: Sched, exceptionNumber: nat): QueueStep
    requires k.current < |k.tasks| && PartsShape(p, |k.tasks|)
  {
    var e := EnterQueue(p.mutex, p.spaces, k, exceptionNumber);
    if e.status != Some(QueueOk) then QueueStep(p.(mutex := e.mutex, spaces := e.units), e.k, e.status)
    else
      var l := LeaveQueue(e.mutex, p.items, e.k);
      var ring := StoreMessage(p.ring, message);
      QueueStep(Parts(ring, l.mutex, l.units, e.units), l.k, l.status)
  }

  /** `os_message_queue_receive` on an initialized queue, and whether it copied a message out. */
  function ReceiveCall(p: Parts, k: Sched, exceptionNumber: nat): (QueueStep, bool)
    requires k.current < |k.tasks| && PartsShape(p, |k.tasks|)
  {
    var e := EnterQueue(p.mutex, p.items, k, exceptionNumber);
    if e.status != Some(QueueOk) then (QueueStep(p.(mutex := e.mutex, items := e.units), e.k, e.status), false)
    else
      var l := LeaveQueue(e.mutex, p.spaces, e.k);
      var ring := FetchMessage(p.ring);
      (QueueStep(Parts(ring, l.mutex, e.units, l.units), l.k, l.status), true)
  }

  /** A semaphore as its own operations keep it, seen by a running task that is not engaged in it. */
  ghost predicate Orderly(q: Sem, k: Sched) {
    && q.count <= q.maximum && q.last < |k.tasks|
    && (q.count > 0 ==> q.waiting == {}) && q.waiting !! q.granted
    && (forall c :: c in q.waiting ==> IDLE < c < |k.tasks| && k.tasks[c].state == Blocked)
    && k.current < |k.tasks| && k.tasks[k.current].state == Running && k.current !in q.granted
  }

  /** The queue's mutex, seen by a running task that is not engaged in it. */
  ghost predicate Free(m: Mtx, k: Sched) {
    (m.locked ==> m.owner != k.current) && (!m.locked ==> m.owner == NO_OWNER && m.waiting == {})
  }

  lemma PostGivesOneUnit(q: Sem, k: Sched)
    requires Orderly(q, k)
    ensures var post := PostPass(q, k);
      && (post.status == Some(SemOk) <==> q.count < q.maximum || q.waiting != {})
      && (post.status == Some(SemOk) ==> post.sem.count + |post.sem.granted| == q.count + |q.granted| + 1)
      && (q.waiting == {} && q.count < q.maximum ==> post == SemStep(q.(count := q.count + 1), k, Some(SemOk)))
  {
    NothingIsStale(q.waiting, k.tasks, q.last);
    assert q.waiting - {} == q.waiting;
    var winner := Winner(q.waiting, k.tasks, q.last);
    assert winner != IDLE ==> winner in q.waiting;
  }

  /** Nobody waits for a lock that was free: taking and releasing it leaves no trace. */
  lemma LockAndUnlockLeaveNoTrace(m: Mtx, k: Sched)
    requires Free(m, k) && !m.locked && k.current < |k.tasks|
    ensures LockPass(m, k).status == Some(MutexOk)
    ensures UnlockPass(LockPass(m, k).mutex, k) == MutexStep(m, k, Some(MutexOk))
  {
  }

  /**
   Both calls up to their copy: they get in exactly when there is a unit and the lock is free,
   and then hold one unit and the lock; with interrupts disabled they otherwise fail without a
   trace; with interrupts enabled they otherwise block, marked in the one object they wait for.
   */
  lemma EnteringIsExact(mutex: Mtx, units: Sem, k: Sched)
    requires Orderly(units, k) && Free(mutex, k) && IsTaskContext(k, 0)
    ensures var e, in_, t := EnterQueue(mutex, units, k, 0), units.count > 0 && !mutex.locked, k.current;
      && (e.status == Some(QueueOk) <==> in_)
      && (e.status == None <==> !in_ && !k.masked)
      && (in_ ==> e == PassStep(Mtx(true, t, {}), units.(count := units.count - 1), k, Some(QueueOk)))
      && (!in_ && k.masked ==> e == PassStep(mutex, units, k, Some(QueueSyncOperation)))
      && (!in_ && !k.masked ==> e.k == k.(tasks := k.tasks[t := Tcb(Blocked, 0)], pending := true))
      && (units.count == 0 && !k.masked ==>
            e.mutex == mutex && e.units == units.(waiting := units.waiting + {t}))
      && (units.count > 0 && mutex.locked && !k.masked ==>
            e.mutex == mutex.(waiting := mutex.waiting + {t}) && e.units == units.(count := units.count - 1))
  {
    if units.count > 0 {
      TakenAndGivenBack(units, k);
    }
  }

  /** `after` is `before` with `message` in the slot the tail named, and the tail at the next slot around the ring. */
  ghost predicate HasStored(before: Ring, after: Ring, message: Message) {
    && before.tail < |before.slots| == |after.slots|
    && after.tail == (before.tail + 1) % |before.slots|
    && after.head == before.head
    && forall i :: 0 <= i < |before.slots| ==> after.slots[i] == if i == before.tail then message else before.slots[i]
  }

  /** `after` is `before` with the head at the next slot around the ring. */
  ghost predicate HasFetched(before: Ring, after: Ring) {
    && 0 < |before.slots|
    && after.head == (before.head + 1) % |before.slots|
    && after.tail == before.tail && after.slots == before.slots
  }

  /** One unit more on the other side: handed to the closest waiter, which becomes READY, or free if nobody waits. */
  ghost predicate HasPosted(q: Sem, k: Sched, q': Sem, k': Sched) {
    if q.waiting == {} then q' == q.(count := q.count + 1) && k' == k
    else
      var w := q'.last;
      && w in q.waiting && IDLE < w < |k.tasks| && q.last < |k.tasks|
      && (forall c :: c in q.waiting && IDLE < c < |k.tasks| ==>
            Distance(q.last, |k.tasks|, w) <= Distance(q.last, |k.tasks|, c))
      && q' == q.(waiting := q.waiting - {w}, granted := q.granted + {w}, last := w)
      && k' == k.(tasks := k.tasks[w := Tcb(Ready, 0)])
  }

  lemma PostIsExact(q: Sem, k: Sched)
    requires Orderly(q, k)
    ensures var post := PostPass(q, k);
      if q.waiting != {} || q.count < q.maximum then post.status == Some(SemOk) && HasPosted(q, k, post.sem, post.k)
      else post == SemStep(q, k, Some(SemOverflow))
  {
    NothingIsStale(q.waiting, k.tasks, q.last);
    assert q.waiting - {} == q.waiting;
    if q.waiting != {} {
      var w := Winner(q.waiting, k.tasks, q.last);
      assert w in q.waiting;
    }
  }

  /** How a call that got past its wait and its lock ends: mutex as before, one unit more on the other side. */
  ghost predicate HasLeft(p: Parts, units: Sem, k: Sched, r: QueueStep, units': Sem) {
    && r.parts.mutex == p.mutex
    && (if units.waiting != {} || units.count < units.maximum
        then r.status == Some(QueueOk) && HasPosted(units, k, units', r.k)
        else r.status == Some(QueueSyncOperation) && units' == units && r.k == k)
  }

  /** How a call ends, or stops, that does not get past its wait and its lock: with the ring untouched. */
  ghost predicate HasStayedOut(p: Parts, units: Sem, k: Sched, r: QueueStep, units': Sem) {
    && r.parts.ring == p.ring
    && (if k.masked then r.status == Some(QueueSyncOperation) && r.parts == p && r.k == k
        else
          && r.status == None
          && k.current < |k.tasks|
          && r.k == k.(tasks := k.tasks[k.current := Tcb(Blocked, 0)], pending := true)
          && (if units.count == 0
              then units' == units.(waiting := units.waiting + {k.current}) && r.parts.mutex == p.mutex
              else units' == units.(count := units.count - 1)
                   && r.parts.mutex == p.mutex.(waiting := p.mutex.waiting + {k.current})))
  }

  /** Which parts of the queue the halves of a send work on. */
  lemma SendInHalves(p: Parts, message: Message, k: Sched, e: PassStep)
    requires k.current < |k.tasks| && PartsShape(p, |k.tasks|) && e == EnterQueue(p.mutex, p.spaces, k, 0)
    ensures e.status != Some(QueueOk) ==>
      SendCall(p, message, k, 0) == QueueStep(p.(mutex := e.mutex, spaces := e.units), e.k, e.status)
    ensures e.status == Some(QueueOk) ==>
      var l := LeaveQueue(e.mutex, p.items, e.k);
      SendCall(p, message, k, 0)
      == QueueStep(Parts(StoreMessage(p.ring, message), l.mutex, l.units, e.units), l.k, l.status)
  {
  }

  lemma ReceiveInHalves(p: Parts, k: Sched, e: PassStep)
    requires k.current < |k.tasks| && PartsShape(p, |k.tasks|) && e == EnterQueue(p.mutex, p.items, k, 0)
    ensures e.status != Some(QueueOk) ==>
      ReceiveCall(p, k, 0) == (QueueStep(p.(mutex := e.mutex, items := e.units), e.k, e.status), false)
    ensures e.status == Some(QueueOk) ==>
      var l := LeaveQueue(e.mutex, p.spaces, e.k);
      ReceiveCall(p, k, 0) == (QueueStep(Parts(FetchMessage(p.ring), l.mutex, e.units, l.units), l.k, l.status), true)
  {
  }

  lemma StoringIsExact(r: Ring, message: Message)
    requires r.head < |r.slots| && r.tail < |r.slots|
    ensures HasStored(r, StoreMessage(r, message), message) && HasFetched(r, FetchMessage(r))
  {
  }

  /**
   A send, whether interrupts are enabled or not. With a free slot and a free lock the message is in
   the ring, the mutex is free again, one slot less is free and the other side has one unit more.
   Without them the call blocks, or with interrupts disabled fails, and the rollback leaves no trace.
   */
  lemma SendIsExact(p: Parts, message: Message, k: Sched, r: QueueStep)
    requires Orderly(p.spaces, k) && Orderly(p.items, k) && Free(p.mutex, k)
    requires PartsShape(p, |k.tasks|) && IsTaskContext(k, 0) && r == SendCall(p, message, k, 0)
    ensures if p.spaces.count > 0 && !p.mutex.locked then
        && HasStored(p.ring, r.parts.ring, message)
        && r.parts.spaces == p.spaces.(count := p.spaces.count - 1)
        && HasLeft(p, p.items, k, r, r.parts.items)
      else
        HasStayedOut(p, p.spaces, k, r, r.parts.spaces) && r.parts.items == p.items
  {
    var e := EnterQueue(p.mutex, p.spaces, k, 0);
    EnteringIsExact(p.mutex, p.spaces, k);
    SendInHalves(p, message, k, e);
    LeavingIsExact(p.items, k);
    StoringIsExact(p.ring, message);
  }

  /** The receiver's twin of `SendIsExact`; a message is copied out exactly when there was one and the lock was free. */
  lemma ReceiveIsExact(p: Parts, k: Sched, r: QueueStep, copied: bool)
    requires Orderly(p.spaces, k) && Orderly(p.items, k) && Free(p.mutex, k)
    requires PartsShape(p, |k.tasks|) && IsTaskContext(k, 0) && (r, copied) == ReceiveCall(p, k, 0)
    ensures copied <==> p.items.count > 0 && !p.mutex.locked
    ensures if copied then
        && HasFetched(p.ring, r.parts.ring)
        && r.parts.items == p.items.(count := p.items.count - 1)
        && HasLeft(p, p.spaces, k, r, r.parts.spaces)
      else
        HasStayedOut(p, p.items, k, r, r.parts.items) && r.parts.spaces == p.spaces
  {
    var e := EnterQueue(p.mutex, p.items, k, 0);
    EnteringIsExact(p.mutex, p.items, k);
    ReceiveInHalves(p, k, e);
    LeavingIsExact(p.spaces, k);
    StoringIsExact(p.ring, []);
  }

  /** Both calls after their copy, by the task that took a free lock. */
  lemma LeavingIsExact(units: Sem, k: Sched)
    requires Orderly(units, k)
    ensures var l := LeaveQueue(Mtx(true, k.current, {}), units, k);
      && l.mutex == Mtx(false, NO_OWNER, {})
      && (if units.waiting != {} || units.count < units.maximum
          then l.status == Some(QueueOk) && HasPosted(units, k, l.units, l.k)
          else l.status == Some(QueueSyncOperation) && l.units == units && l.k == k)
  {
    PostIsExact(units, k);
    LockAndUnlockLeaveNoTrace(Mtx(false, NO_OWNER, {}), k);
  }

  /** If the caller did not own the lock the call would fail there, and post nothing. */
  lemma LeavingNeedsTheLock(mutex: Mtx, units: Sem, k: Sched)
    requires k.current < |k.tasks| && units.last < |k.tasks|
    requires !mutex.locked || mutex.owner != k.current
    ensures LeaveQueue(mutex, units, k) == PassStep(mutex, units, k, Some(QueueSyncOperation))
  {
    UnlockPassIsExact(mutex, k);
  }

  /** Outside a task, or before the first task was started, both calls fail and change nothing. */
  lemma ContextIsChecked(p: Parts, message: Message, k: Sched, exceptionNumber: nat)
    requires k.current < |k.tasks| && PartsShape(p, |k.tasks|)
    requires exceptionNumber != 0 || !k.running || !k.started || k.current == IDLE
    ensures SendCall(p, message, k, exceptionNumber) == QueueStep(p, k, Some(QueueSyncOperation))
    ensures ReceiveCall(p, k, exceptionNumber) == (QueueStep(p, k, Some(QueueSyncOperation)), false)
  {
  }

  /** Taking a free unit and posting it again restores the semaphore. */
  lemma TakenAndGivenBack(q: Sem, k: Sched)
    requires Orderly(q, k) && q.count > 0
    ensures WaitPass(q, k) == SemStep(q.(count := q.count - 1), k, Some(SemOk))
    ensures PostPass(WaitPass(q, k).sem, k) == SemStep(q, k, Some(SemOk))
  {
  }

  // ---------------------------------------------------------------------------
  // Address arithmetic
  // ---------------------------------------------------------------------------

  lemma SlotEndsBefore(i: nat, j: nat, size: nat)
    requires i < j
    ensures i * size + size <= j * size
  {
    assert j * size == (i + 1) * size + (j - i - 1) * size;
  }

  /** `message_queue_slot_address` separates the slots: a write into one leaves the others alone. */
  lemma OneByteChangesOneSlot(before: seq<Byte>, after: seq<Byte>, size: nat, capacity: nat, slot: nat, i: nat, b: Byte)
    requires 0 < size && slot < capacity && i < size
    requires |before| >= capacity * size
    requires slot * size + i < |before| && after == before[slot * size + i := b]
    ensures forall k :: 0 <= k < capacity ==> k * size + size <= |before|
    ensures forall k :: 0 <= k < capacity ==>
      after[k * size..k * size + size]
      == if k == slot then before[k * size..k * size + size][i := b] else before[k * size..k * size + size]
  {
    forall k | 0 <= k < capacity
      ensures k * size + size <= |before|
      ensures after[k * size..k * size + size]
              == if k == slot then before[k * size..k * size + size][i := b] else before[k * size..k * size + size]
    {
      SlotEndsBefore(k, capacity, size);
      if k < slot {
        SlotEndsBefore(k, slot, size);
      } else if slot < k {
        SlotEndsBefore(slot, k, size);
      }
    }
  }

  lemma SlotsFit(length: nat, size: nat, capacity: nat)
    requires capacity * size <= length
    ensures forall k :: 0 <= k < capacity ==> 0 <= k * size && k * size + size <= length
  {
    forall k | 0 <= k < capacity ensures k * size + size <= length {
      SlotEndsBefore(k, capacity, size);
    }
  }

  ghost function SlotsOf(bytes: seq<Byte>, size: nat, capacity: nat): (slots: seq<Message>)
    requires capacity * size <= |bytes|
    ensures |slots| == capacity
    ensures forall k :: 0 <= k < capacity ==> k * size + size <= |bytes| && slots[k] == bytes[k * size..k * size + size]
  {
    SlotsFit(|bytes|, size, capacity);
    seq(capacity, k requires 0 <= k < capacity => SlotEndsBefore(k, capacity, size); bytes[k * size..k * size + size])
  }

  class QueueObject {
    var storage: array<Byte>
    var messageSize: nat
    var capacity: nat
    var head: nat
    var tail: nat
    const accessMutex: MutexObject
    const availableItems: SemaphoreObject
    const availableSpaces: SemaphoreObject
    var isInitialized: bool

    ghost predicate Valid()
      reads this
    {
      && 0 < messageSize && 0 < capacity
      && capacity * messageSize <= storage.Length
      && head < capacity && tail < capacity
      && availableItems != availableSpaces
    }

    ghost function Abs(): (r: Ring)
      requires Valid()
      reads this, storage
      ensures RingShape(r, messageSize) && |r.slots| == capacity
    {
      Ring(head, tail, SlotsOf(storage[..], messageSize, capacity))
    }

    /** A queue structure and its parts before `os_message_queue_init`. */
    constructor (placeholder: array<Byte>)
      ensures !isInitialized && availableItems != availableSpaces
      ensures fresh(accessMutex) && fresh(availableItems) && fresh(availableSpaces)
    {
      storage := placeholder;
      messageSize, capacity, head, tail := 0, 0, 0, 0;
      isInitialized := false;
      var items := new SemaphoreObject();
      var spaces := new SemaphoreObject();
      accessMutex := new MutexObject();
      availableItems := items;
      availableSpaces := spaces;
    }

    /** `os_message_queue_init`; the caller's buffer holds at least `slots * size` bytes. */
    method Init(buffer: array?<Byte>, size: nat, slots: nat) returns (status: QueueStatus)
      requires availableItems != availableSpaces
      requires buffer != null ==> slots * size <= buffer.Length
      modifies this, accessMutex, availableItems, availableSpaces
      ensures status == if buffer == null then QueueNullPointer
                        else if size == 0 || slots == 0 then QueueInvalidConfig
                        else QueueOk
      ensures status != QueueOk ==> unchanged(this, accessMutex, availableItems, availableSpaces)
      ensures status == QueueOk ==>
        && Valid() && isInitialized && storage == buffer && messageSize == size && capacity == slots
        && head == 0 && tail == 0
        && accessMutex.isInitialized && accessMutex.Abs() == Mtx(false, NO_OWNER, {})
        && availableItems.isInitialized && availableItems.Abs() == Sem(0, slots, {}, {}, 0)
        && availableSpaces.isInitialized && availableSpaces.Abs() == Sem(slots, slots, {}, {}, 0)
    {
      if buffer == null {
        return QueueNullPointer;
      }
      if size == 0 || slots == 0 {
        return QueueInvalidConfig;
      }
      storage := buffer;
      messageSize := size;
      capacity := slots;
      head, tail := 0, 0;
      isInitialized := false;
      var mutexStatus := accessMutex.Init();
      if mutexStatus != MutexOk {
        assert false;
      }
      var itemsStatus := availableItems.Init(0, capacity);
      if itemsStatus != SemOk {
        assert false;
      }
      var spacesStatus := availableSpaces.Init(capacity, capacity);
      if spacesStatus != SemOk {
        assert false;
      }
      isInitialized := true;
      status := QueueOk;
    }

    /** One iteration of the copy loop of `os_message_queue_send`. */
    method CopyByteIn(message: array<Byte>, i: nat)
      requires Valid() && i < messageSize <= message.Length && message != storage
      modifies storage
      ensures Abs() == WriteByte(old(Abs()), i, message[i])
    {
      ghost var before := storage[..];
      SlotEndsBefore(tail, capacity, messageSize);
      storage[tail * messageSize + i] := message[i];
      assert storage[..] == before[tail * messageSize + i := message[i]];
      OneByteChangesOneSlot(before, storage[..], messageSize, capacity, tail, i, message[i]);
    }

    /** One iteration of the copy loop of `os_message_queue_receive`. */
    method CopyByteOut(message: array<Byte>, i: nat)
      requires Valid() && i < messageSize <= message.Length && message != storage
      modifies message
      ensures message[..] == old(message[..])[i := ReadByte(Abs(), i)]
    {
      SlotEndsBefore(head, capacity, messageSize);
      ghost var before := message[..];
      var b := storage[head * messageSize + i];
      assert b == ReadByte(Abs(), i);
      message[i] := b;
      assert message[..] == before[i := b];
    }

    /** The whole of `message_queue_copy_bytes` in `os_message_queue_send`, when nobody else writes. */
    method CopyIn(message: array<Byte>)
      requires Valid() && messageSize <= message.Length && message != storage
      modifies storage
      ensures Abs() == old(Abs()).(slots := old(Abs()).slots[tail := message[..messageSize]])
    {
      ghost var before := Abs();
      var index := 0;
      while index < messageSize
        invariant 0 <= index <= messageSize
        invariant Abs() == before.(slots := before.slots[tail := Abs().slots[tail]])
        invariant Abs().slots[tail][..index] == message[..index]
      {
        CopyByteIn(message, index);
        index := index + 1;
      }
      assert Abs().slots[tail] == message[..messageSize];
    }

    /** The whole of `message_queue_copy_bytes` in `os_message_queue_receive`, when nobody else writes. */
    method CopyOut(message: array<Byte>)
      requires Valid() && messageSize <= message.Length && message != storage
      modifies message
      ensures message[..] == Abs().slots[head] + old(message[..])[messageSize..]
    {
      var index := 0;
      while index < messageSize
        invariant 0 <= index <= messageSize
        invariant message[..index] == Abs().slots[head][..index]
        invariant message[messageSize..] == old(message[..])[messageSize..]
      {
        CopyByteOut(message, index);
        index := index + 1;
      }
    }

    /** The index update of `os_message_queue_send`. */
    method AdvanceTail()
      requires Valid()
      modifies `tail
      ensures Valid() && Abs() == old(Abs()).(tail := Successor(old(tail), capacity))
    {
      var nextTail := tail + 1;
      if nextTail >= capacity {
        nextTail := 0;
      }
      tail := nextTail;
    }

    /** The index update of `os_message_queue_receive`. */
    method AdvanceHead()
      requires Valid()
      modifies `head
      ensures Valid() && Abs() == old(Abs()).(head := Successor(old(head), capacity))
    {
      var nextHead := head + 1;
      if nextHead >= capacity {
        nextHead := 0;
      }
      head := nextHead;
    }

    method StoreNext(message: array<Byte>)
      requires Valid() && messageSize <= message.Length && message != storage
      modifies storage, `tail
      ensures Valid() && Abs() == StoreMessage(old(Abs()), message[..messageSize])
    {
      CopyIn(message);
      AdvanceTail();
    }

    method FetchNext(message: array<Byte>)
      requires Valid() && messageSize <= message.Length && message != storage
      modifies message, `head
      ensures Valid() && Abs() == FetchMessage(old(Abs()))
      ensures message[..] == old(Abs()).slots[old(head)] + old(message[..])[messageSize..]
    {
      CopyOut(message);
      AdvanceHead();
    }

    /** The queue as `os_message_queue_init` leaves it, and as it stays. */
    ghost predicate Usable(sched: Scheduler)
      reads this, accessMutex, availableItems, availableSpaces, sched, sched.table
    {
      && Valid() && sched.Valid() && sched.table.count <= MAX_TASKS
      && accessMutex.isInitialized && availableItems.isInitialized && availableSpaces.isInitialized
      && availableItems.lastGrantedTaskId < sched.table.count && availableSpaces.lastGrantedTaskId < sched.table.count
    }

    ghost function PartsAbs(): (p: Parts)
      requires Valid()
      reads this, storage, accessMutex, availableItems, availableSpaces
    {
      Parts(Abs(), accessMutex.Abs(), availableItems.Abs(), availableSpaces.Abs())
    }

    /** The wait and the lock at the start of both calls. */
    method Enter(units: SemaphoreObject, sched: Scheduler, exceptionNumber: nat) returns (status: Option<QueueStatus>)
      requires sched.Valid() && sched.table.count <= MAX_TASKS && accessMutex.isInitialized && units.isInitialized
      requires units.lastGrantedTaskId < sched.table.count
      modifies accessMutex, units, sched`masked, sched`pending, sched.table.entries
      ensures sched.Valid() && accessMutex.isInitialized && units.isInitialized
      ensures PassStep(accessMutex.Abs(), units.Abs(), sched.Abs(), status)
              == EnterQueue(old(accessMutex.Abs()), old(units.Abs()), old(sched.Abs()), exceptionNumber)
    {
      var waitStatus := units.Wait(sched, exceptionNumber);
      if waitStatus == None {
        return None;
      }
      if waitStatus != Some(SemOk) {
        return Some(QueueSyncOperation);
      }
      var mutexStatus := accessMutex.Lock(sched);
      if mutexStatus == None {
        return None;
      }
      if mutexStatus != Some(MutexOk) {
        var _ := units.Post(sched, exceptionNumber);
        return Some(QueueSyncOperation);
      }
      status := Some(QueueOk);
    }

    /** The unlock and the post at the end of both calls. */
    method Leave(units: SemaphoreObject, sched: Scheduler, exceptionNumber: nat) returns (status: Option<QueueStatus>)
      requires sched.Valid() && sched.table.count <= MAX_TASKS && accessMutex.isInitialized && units.isInitialized
      requires units.lastGrantedTaskId < sched.table.count && IsTaskContext(sched.Abs(), exceptionNumber)
      modifies accessMutex, units, sched`masked, sched.table.entries
      ensures sched.Valid() && accessMutex.isInitialized && units.isInitialized
      ensures PassStep(accessMutex.Abs(), units.Abs(), sched.Abs(), status)
              == LeaveQueue(old(accessMutex.Abs()), old(units.Abs()), old(sched.Abs()))
    {
      var unlockStatus := accessMutex.Unlock(sched);
      if unlockStatus != MutexOk {
        return Some(QueueSyncOperation);
      }
      var postStatus := units.Post(sched, exceptionNumber);
      if postStatus != SemOk {
        return Some(QueueSyncOperation);
      }
      status := Some(QueueOk);
    }

    /** `os_message_queue_send` up to its return, or up to the point where it blocks. */
    method Send(sched: Scheduler, message: array?<Byte>, exceptionNumber: nat) returns (status: Option<QueueStatus>)
      requires isInitialized ==> Usable(sched)
      requires message != null && isInitialized ==> messageSize <= message.Length && message != storage
      modifies storage, `tail, accessMutex, availableItems, availableSpaces
      modifies sched`masked, sched`pending, sched.table.entries
      ensures message == null ==> status == Some(QueueNullPointer)
      ensures message != null && !isInitialized ==> status == Some(QueueNotInitialized)
      ensures message == null || !isInitialized ==>
        unchanged(storage, this, accessMutex, availableItems, availableSpaces, sched, sched.table.entries)
      ensures message != null && isInitialized ==>
        Usable(sched) && QueueStep(PartsAbs(), sched.Abs(), status)
                         == SendCall(old(PartsAbs()), message[..messageSize], old(sched.Abs()), exceptionNumber)
    {
      if message == null {
        return Some(QueueNullPointer);
      }
      if !isInitialized {
        return Some(QueueNotInitialized);
      }
      status := Enter(availableSpaces, sched, exceptionNumber);
      if status != Some(QueueOk) {
        return;
      }
      StoreNext(message);
      status := Leave(availableItems, sched, exceptionNumber);
    }

    /** `os_message_queue_receive` up to its return, or up to the point where it blocks. */
    method Receive(sched: Scheduler, message: array?<Byte>, exceptionNumber: nat) returns (status: Option<QueueStatus>)
      requires isInitialized ==> Usable(sched)
      requires message != null && isInitialized ==> messageSize <= message.Length && message != storage
      modifies `head, accessMutex, availableItems, availableSpaces
      modifies sched`masked, sched`pending, sched.table.entries
      modifies if message == null then {} else {message}
      ensures message == null ==> status == Some(QueueNullPointer)
      ensures message != null && !isInitialized ==> status == Some(QueueNotInitialized)
      ensures message == null || !isInitialized ==>
        unchanged(this, accessMutex, availableItems, availableSpaces, sched, sched.table.entries)
      ensures message != null && isInitialized ==>
        Usable(sched) && QueueStep(PartsAbs(), sched.Abs(), status)
                         == ReceiveCall(old(PartsAbs()), old(sched.Abs()), exceptionNumber).0
      ensures message != null && isInitialized ==>
        message[..] == if ReceiveCall(old(PartsAbs()), old(sched.Abs()), exceptionNumber).1
                       then old(Abs()).slots[old(head)] + old(message[..])[messageSize..]
                       else old(message[..])
    {
      if message == null {
        return Some(QueueNullPointer);
      }
      if !isInitialized {
        return Some(QueueNotInitialized);
      }
      status := Enter(availableItems, sched, exceptionNumber);
      if status != Some(QueueOk) {
        return;
      }
      FetchNext(message);
      status := Leave(availableSpaces, sched, exceptionNumber);
    }
  }
}
