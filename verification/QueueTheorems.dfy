/** Theorems about the message queue: an abstract FIFO, conservation, no internal deadlock. */
module QueueTheorems {
  import opened RoundRobin
  import opened Waiters
  import opened Task
  import opened Scheduling
  import opened Mutex
  import opened MessageQueue
  import opened System
  import opened CoreInvariant
  import opened QueueInvariant
  import opened RunFacts

  // ---------------------------------------------------------------------------
  // The queue is a FIFO
  // ---------------------------------------------------------------------------

  /** The abstract queue: messages that are in and not yet out. */
  ghost function Contents(s: State): seq<Message> {
    if |s.read| <= |s.written| then s.written[|s.read|..] else []
  }

  /** What the ring itself says: `length` slots from `head` on, around the end of the storage. */
  ghost function Unrolled(r: Ring, length: nat): (m: seq<Message>)
    requires 0 < |r.slots|
    ensures |m| == length
    ensures forall j :: 0 <= j < length ==> m[j] == r.slots[(r.head + j) % |r.slots|]
  {
    seq(length, j requires 0 <= j < length => r.slots[(r.head + j) % |r.slots|])
  }

  /** The abstract contents are stored in the ring, in order, and end where `tail` points. */
  lemma RingStoresContents(s: State)
    requires QueueInv(s)
    ensures |Contents(s)| <= s.cfg.capacity
    ensures Contents(s) == Unrolled(s.ring, |Contents(s)|)
    ensures s.ring.tail == (s.ring.head + |Contents(s)|) % s.cfg.capacity
  {
    var r, n := |s.read|, s.cfg.capacity;
    OffsetInRing(r, |Contents(s)|, n);
    forall j | 0 <= j < |Contents(s)| ensures Contents(s)[j] == Unrolled(s.ring, |Contents(s)|)[j] {
      OffsetInRing(r, j, n);
      assert s.ring.slots[(r + j) % n] == s.written[r + j];
    }
  }

  lemma OffsetInRing(r: nat, j: nat, n: nat)
    requires 0 < n
    ensures (r % n + j) % n == (r + j) % n
  {
    var x := r % n + j;
    assert r + j == n * (r / n) + x;
    assert x == n * (x / n) + x % n;
    assert n * (r / n) + n * (x / n) == n * (r / n + x / n);
    UniqueRemainder(r + j, n, r / n + x / n, x % n);
  }

  /** The current task finishes copying its message into, or out of, the ring. */
  ghost predicate Finishes(s: State, l: Label, who: Caller) {
    Continues(s, l) && s.pcs[s.os.current] == CopyPc(who, s.cfg.messageSize)
  }

  /**
   Every step of the machine is an enqueue of the sender's message at the back, a dequeue of
   the front message into the receiver's buffer, or leaves the abstract queue alone.
   */
  lemma StepRefinesFifo(s: State, l: Label)
    requires QueueInv(s) && Enabled(s, l)
    ensures Finishes(s, l, Sender) ==>
      |Contents(s)| < s.cfg.capacity && Contents(Apply(s, l)) == Contents(s) + [s.buffers[s.os.current]]
    ensures Finishes(s, l, Receiver) ==>
      |Contents(s)| > 0 && s.buffers[s.os.current] == Contents(s)[0] && Contents(Apply(s, l)) == Contents(s)[1..]
    ensures !Finishes(s, l, Sender) && !Finishes(s, l, Receiver) ==> Contents(Apply(s, l)) == Contents(s)
  {
    if Finishes(s, l, Sender) {
      FinishedSendEnqueues(s);
    } else if Finishes(s, l, Receiver) {
      FinishedReceiveDequeues(s);
    } else {
      HistoryStays(s, l);
    }
  }

  lemma FinishedSendEnqueues(s: State)
    requires QueueInv(s) && Runs(s) && s.pcs[s.os.current] == CopyPc(Sender, s.cfg.messageSize)
    ensures |Contents(s)| < s.cfg.capacity && Contents(Proceed(s)) == Contents(s) + [s.buffers[s.os.current]]
  {
    CopierHasRoom(s);
  }

  lemma FinishedReceiveDequeues(s: State)
    requires QueueInv(s) && Runs(s) && s.pcs[s.os.current] == CopyPc(Receiver, s.cfg.messageSize)
    ensures |Contents(s)| > 0 && s.buffers[s.os.current] == Contents(s)[0] && Contents(Proceed(s)) == Contents(s)[1..]
  {
    CopierHasRoom(s);
    FinishReceiveKeepsRing(s, s.cfg.messageSize);
  }

  lemma HistoryStays(s: State, l: Label)
    requires Shape(s) && Enabled(s, l) && !Finishes(s, l, Sender) && !Finishes(s, l, Receiver)
    ensures Apply(s, l).written == s.written && Apply(s, l).read == s.read
  {
  }

  /** Histories only grow, so what was written or read once stays where it is. */
  lemma HistoryGrows(s: State, l: Label)
    requires Shape(s) && Enabled(s, l)
    ensures s.written <= Apply(s, l).written && s.read <= Apply(s, l).read
  {
  }

  lemma HistoryStepOfRun(states: seq<State>, labels: seq<Label>, i: nat)
    requires Execution(states, labels) && i < |labels|
    ensures states[i].written <= states[i + 1].written && states[i].read <= states[i + 1].read
  {
    StateOfRun(states, labels, i);
    HistoryGrows(states[i], labels[i]);
  }

  /** The k-th message read at any time equals the k-th message written, byte for byte. */
  lemma {:induction false} KthReadIsKthWritten(states: seq<State>, labels: seq<Label>, i: nat, j: nat, k: nat)
    requires Execution(states, labels) && i <= j < |states| && k < |states[i].read|
    ensures k < |states[j].written| && k < |states[j].read|
    ensures states[j].written[k] == states[i].read[k] == states[j].read[k]
    decreases j
  {
    if i == j {
      EveryStateIsGood(states, labels, i);
    } else {
      KthReadIsKthWritten(states, labels, i, j - 1, k);
      HistoryStepOfRun(states, labels, j - 1);
    }
  }

  // ---------------------------------------------------------------------------
  // From the caller of send to the caller of receive
  // ---------------------------------------------------------------------------

  /** Inside `os_message_queue_send`. */
  predicate InSend(pc: Pc) {
    !pc.App? && !pc.SleepPc? && pc.who == Sender
  }

  /** Inside `os_message_queue_receive`, after the copy out of the ring. */
  predicate AfterCopyOut(pc: Pc) {
    (pc.UnlockPc? && pc.who == Receiver) || pc == PostPc(SPACES, Receiver)
  }

  lemma SendKeepsItsMessage(s: State, l: Label, t: nat)
    requires Shape(s) && Enabled(s, l) && t < |s.pcs| && (InSend(s.pcs[t]) || AfterCopyOut(s.pcs[t]))
    ensures t < |Apply(s, l).buffers| && Apply(s, l).buffers[t] == s.buffers[t]
  {
  }

  lemma BufferStepOfRun(states: seq<State>, labels: seq<Label>, t: nat, i: nat)
    requires Execution(states, labels) && i < |labels|
    requires t < |states[i].pcs| && (InSend(states[i].pcs[t]) || AfterCopyOut(states[i].pcs[t]))
    ensures t < |states[i].buffers| && t < |states[i + 1].buffers|
    ensures states[i + 1].buffers[t] == states[i].buffers[t]
  {
    StateOfRun(states, labels, i);
    SendKeepsItsMessage(states[i], labels[i], t);
  }

  lemma {:induction false} BufferStays(states: seq<State>, labels: seq<Label>, t: nat, a: nat, b: nat)
    requires Execution(states, labels) && a <= b < |states|
    requires forall i :: a <= i <= b ==> t < |states[i].pcs| == |states[i].buffers|
    requires forall i :: a <= i < b ==> InSend(states[i].pcs[t]) || AfterCopyOut(states[i].pcs[t])
    ensures states[b].buffers[t] == states[a].buffers[t]
    decreases b
  {
    if a == b {
    } else {
      BufferStays(states, labels, t, a, b - 1);
      BufferStepOfRun(states, labels, t, b - 1);
    }
  }

  /**
   A message handed to send at step `a` is, when that call finishes its copy at step `b`, the
   next entry of the written history.
   */
  lemma SentMessageIsWritten(states: seq<State>, labels: seq<Label>, t: nat, message: Message, a: nat, b: nat)
    requires Execution(states, labels) && a < b < |labels|
    requires IsStepOf(states[a], labels[a], t) && labels[a] == TaskStep(CallSend(message))
    requires forall i :: a <= i <= b ==> t < |states[i].pcs| == |states[i].buffers|
    requires forall i :: a < i < b ==> InSend(states[i].pcs[t])
    requires IsStepOf(states[b], labels[b], t) && Finishes(states[b], labels[b], Sender)
    ensures states[b + 1].written == states[b].written + [message]
  {
    SendStepOfRun(states, labels, t, message, a, a + 1);
    BufferStays(states, labels, t, a + 1, b);
    FinishStepOfRun(states, labels, t, b, b + 1);
  }

  lemma SendStepOfRun(states: seq<State>, labels: seq<Label>, t: nat, message: Message, i: nat, next: nat)
    requires Execution(states, labels) && i < |labels| && next == i + 1 && t < |states[i].buffers|
    requires IsStepOf(states[i], labels[i], t) && labels[i] == TaskStep(CallSend(message))
    ensures t < |states[next].buffers| && states[next].buffers[t] == message
  {
    StateOfRun(states, labels, i);
  }

  /** The end of a copy adds the task's buffer to the history of its side. */
  lemma FinishStepOfRun(states: seq<State>, labels: seq<Label>, t: nat, i: nat, next: nat)
    requires Execution(states, labels) && i < |labels| && next == i + 1 && t < |states[i].buffers|
    requires IsStepOf(states[i], labels[i], t)
    ensures Finishes(states[i], labels[i], Sender) ==>
      states[next].written == states[i].written + [states[i].buffers[t]]
    ensures Finishes(states[i], labels[i], Receiver) ==>
      && states[next].read == states[i].read + [states[i].buffers[t]]
      && t < |states[next].buffers| && states[next].buffers[t] == states[i].buffers[t]
  {
    StateOfRun(states, labels, i);
    assert PcShape(states[i].pcs[t], |states[i].sems|, |states[i].mutexes|, states[i].cfg.messageSize);
  }

  /**
   A receive that finishes its copy at step `a` still holds, when it posts the freed slot at
   step `b` and returns, the message written in the place it read.
   */
  lemma ReceivedMessageIsTheWrittenOne(states: seq<State>, labels: seq<Label>, t: nat, a: nat, b: nat)
    requires Execution(states, labels) && a < b < |labels|
    requires IsStepOf(states[a], labels[a], t) && Finishes(states[a], labels[a], Receiver)
    requires forall i :: a <= i <= b ==> t < |states[i].pcs| == |states[i].buffers|
    requires forall i :: a < i <= b ==> AfterCopyOut(states[i].pcs[t])
    ensures |states[a].read| < |states[b].written|
    ensures states[b].buffers[t] == states[b].written[|states[a].read|]
  {
    FinishStepOfRun(states, labels, t, a, a + 1);
    BufferStays(states, labels, t, a + 1, b);
    KthReadIsKthWritten(states, labels, a + 1, b, |states[a].read|);
  }

  // ---------------------------------------------------------------------------
  // Conservation of slots
  // ---------------------------------------------------------------------------

  /** The tasks between a successful wait and the matching post inside the queue. */
  ghost function TasksHoldingUnits(s: State): set<nat> {
    set t | 0 <= t < |s.pcs| && Carries(s.pcs[t]).Some?
  }

  /** Free units, handed-over units and units in the hands of running calls always make up the capacity. */
  lemma SlotConservation(s: State)
    requires QueueInv(s)
    ensures s.sems[SPACES].count + |s.sems[SPACES].granted| + s.sems[ITEMS].count + |s.sems[ITEMS].granted|
            + |TasksHoldingUnits(s)| == s.cfg.capacity
  {
    HoldersSplit(s.pcs, TasksHoldingUnits(s));
  }

  lemma HoldersSplit(pcs: seq<Pc>, holders: set<nat>)
    requires holders == set t | 0 <= t < |pcs| && Carries(pcs[t]).Some?
    ensures |holders| == |Carriers(pcs, ITEMS)| + |Carriers(pcs, SPACES)|
  {
    var items, spaces := Carriers(pcs, ITEMS), Carriers(pcs, SPACES);
    forall t | t in holders ensures t in items + spaces {
      assert Carries(pcs[t]) in {Some(ITEMS), Some(SPACES)};
    }
    assert holders == items + spaces;
    assert items !! spaces;
  }

  // ---------------------------------------------------------------------------
  // When a call on the queue fails
  // ---------------------------------------------------------------------------

  /** Only a caller that disabled interrupts gives its unit back. */
  ghost predicate RollbackInv(s: State) {
    forall t :: 0 <= t < |s.pcs| && s.pcs[t].PostPc? && IsRollback(s.pcs[t].sem, s.pcs[t].who) ==>
      s.os.masked && t == s.os.current
  }

  lemma StepKeepsRollback(s: State, l: Label)
    requires CoreInv(s) && Enabled(s, l) && RollbackInv(s)
    ensures RollbackInv(Apply(s, l))
  {
    var s' := Apply(s, l);
    StepKeepsSizes(s, l);
    forall t | 0 <= t < |s'.pcs| && s'.pcs[t].PostPc? && IsRollback(s'.pcs[t].sem, s'.pcs[t].who)
      ensures s'.os.masked && t == s'.os.current
    {
      if IsStepOf(s, l, t) {
        assert PcShape(s.pcs[t], |s.sems|, |s.mutexes|, s.cfg.messageSize);
        LockInQueueFailsOnlyMasked(s);
      } else {
        OthersStay(s, l, t);
      }
    }
  }

  /** The lock inside the queue never reports RECURSIVE_LOCK or TASK_OPERATION. */
  lemma LockInQueueFailsOnlyMasked(s: State)
    requires CoreInv(s)
    ensures s.pcs[s.os.current].LockPc? && s.pcs[s.os.current].mutex == QUEUE_MUTEX && Runs(s) ==>
      LockPass(s.mutexes[QUEUE_MUTEX], s.os).status in {None, Some(MutexOk), Some(MutexInterruptsDisabled)}
  {
  }

  lemma RollbackStepOfRun(states: seq<State>, labels: seq<Label>, i: nat)
    requires Execution(states, labels) && i < |labels| && RollbackInv(states[i])
    ensures RollbackInv(states[i + 1])
  {
    StateOfRun(states, labels, i);
    StepKeepsRollback(states[i], labels[i]);
  }

  lemma {:induction false} RollbackAlwaysMasked(states: seq<State>, labels: seq<Label>, i: nat)
    requires Execution(states, labels) && i < |states|
    ensures RollbackInv(states[i])
  {
    if i == 0 {
    } else {
      RollbackAlwaysMasked(states, labels, i - 1);
      RollbackStepOfRun(states, labels, i - 1);
    }
  }

  /**
   A send or a receive fails only when its caller had disabled interrupts. Called with
   interrupts enabled it blocks as long as it must and then succeeds; in particular a send
   never fails after it has written its message.
   */
  lemma FailuresAreMasked(states: seq<State>, labels: seq<Label>, i: nat, who: Caller)
    requires Execution(states, labels) && i < |labels| && labels[i] == TaskStep(Continue)
    requires Shape(states[i]) && Returns(states[i]) == Some(QueueResult(who, QueueSyncOperation))
    ensures states[i].os.masked
    ensures !InCriticalSection(states[i].pcs[states[i].os.current])
    ensures states[i].pcs[states[i].os.current] in
      {WaitPc(SPACES, Sender), WaitPc(ITEMS, Receiver), PostPc(SPACES, Sender), PostPc(ITEMS, Receiver)}
  {
    StateOfRun(states, labels, i);
    EveryStateIsGood(states, labels, i);
    RollbackAlwaysMasked(states, labels, i);
    OnlyWaitsAndRollbacksFail(states[i], who);
  }

  lemma OnlyWaitsAndRollbacksFail(s: State, who: Caller)
    requires QueueInv(s) && Runs(s) && RollbackInv(s)
    requires Returns(s) == Some(QueueResult(who, QueueSyncOperation))
    ensures s.os.masked && !InCriticalSection(s.pcs[s.os.current])
    ensures s.pcs[s.os.current] in
      {WaitPc(SPACES, Sender), WaitPc(ITEMS, Receiver), PostPc(SPACES, Sender), PostPc(ITEMS, Receiver)}
  {
    var pc := s.pcs[s.os.current];
    assert PcShape(pc, |s.sems|, |s.mutexes|, s.cfg.messageSize);
    if pc.PostPc? {
      PostInQueueSucceeds(s, pc.sem, pc.who);
    } else if pc.UnlockPc? {
      UnlockInQueueSucceeds(s, pc.who);
    }
  }

  /** A send returns OK exactly from its post of an item, a receive from its post of a space. */
  lemma SuccessIsTheLastPost(s: State)
    requires QueueInv(s) && Runs(s)
    ensures Returns(s) == Some(QueueResult(Sender, QueueOk)) <==> s.pcs[s.os.current] == PostPc(ITEMS, Sender)
    ensures Returns(s) == Some(QueueResult(Receiver, QueueOk)) <==> s.pcs[s.os.current] == PostPc(SPACES, Receiver)
  {
    var pc := s.pcs[s.os.current];
    assert PcShape(pc, |s.sems|, |s.mutexes|, s.cfg.messageSize);
    if pc.PostPc? && pc.sem <= SPACES {
      PostInQueueSucceeds(s, pc.sem, pc.who);
    }
  }

  // ---------------------------------------------------------------------------
  // A call copies once if it succeeds and not at all if it fails
  // ---------------------------------------------------------------------------

  /** Task `t` is inside send, or inside receive. */
  ghost predicate InCallAt(s: State, t: nat, who: Caller) {
    && t < |s.pcs| == |s.buffers|
    && !s.pcs[t].App? && !s.pcs[t].SleepPc? && s.pcs[t].who == who && who != User
  }

  /** The program points between the end of the copy and the return. */
  predicate HasCopied(pc: Pc, who: Caller) {
    pc == UnlockPc(QUEUE_MUTEX, who) || pc == PostPc(if who == Sender then ITEMS else SPACES, who)
  }

  /** This step of `t` finishes a copy, and so adds one entry to the history of its side. */
  ghost predicate CopiesNow(s: State, l: Label, t: nat, who: Caller) {
    IsStepOf(s, l, t) && Finishes(s, l, who)
  }

  ghost function CopiesBetween(states: seq<State>, labels: seq<Label>, t: nat, who: Caller, a: nat, b: nat): nat
    requires a <= b <= |labels| && b <= |states|
  {
    if a == b then 0
    else CopiesBetween(states, labels, t, who, a, b - 1) + One(CopiesNow(states[b - 1], labels[b - 1], t, who))
  }

  lemma CopyIsNoted(s: State, l: Label, t: nat, who: Caller)
    requires CoreInv(s) && Enabled(s, l) && InCallAt(s, t, who) && InCallAt(Apply(s, l), t, who)
    ensures One(HasCopied(Apply(s, l).pcs[t], who)) == One(HasCopied(s.pcs[t], who)) + One(CopiesNow(s, l, t, who))
  {
    if IsStepOf(s, l, t) {
      assert PcShape(s.pcs[t], |s.sems|, |s.mutexes|, s.cfg.messageSize);
      ProceedFollows(s);
    } else {
      OthersStay(s, l, t);
    }
  }

  lemma CopyStepOfRun(states: seq<State>, labels: seq<Label>, t: nat, who: Caller, i: nat, next: nat)
    requires Execution(states, labels) && i < |labels| && next == i + 1
    requires InCallAt(states[i], t, who) && InCallAt(states[next], t, who)
    ensures One(HasCopied(states[next].pcs[t], who))
         == One(HasCopied(states[i].pcs[t], who)) + One(CopiesNow(states[i], labels[i], t, who))
  {
    StateOfRun(states, labels, i);
    CopyIsNoted(states[i], labels[i], t, who);
  }

  lemma {:induction false} CopiesAreNoted(states: seq<State>, labels: seq<Label>, t: nat, who: Caller, a: nat, b: nat)
    requires Execution(states, labels) && a <= b < |states|
    requires InCallAt(states[a], t, who) && InCallAt(states[b], t, who)
    requires forall i :: a <= i <= b ==> InCallAt(states[i], t, who)
    ensures One(HasCopied(states[b].pcs[t], who))
         == One(HasCopied(states[a].pcs[t], who)) + CopiesBetween(states, labels, t, who, a, b)
    decreases b
  {
    if a == b {
    } else {
      CopiesAreNoted(states, labels, t, who, a, b - 1);
      CopyStepOfRun(states, labels, t, who, b - 1, b);
    }
  }

  /** At step `a` task `t` calls send or receive, and at step `b` this call returns with `status`. */
  ghost predicate CallReturns(
      states: seq<State>, labels: seq<Label>, t: nat, who: Caller, a: nat, b: nat, status: QueueStatus) {
    && a < b < |labels| && |states| == |labels| + 1
    && IsStepOf(states[a], labels[a], t) && labels[a].TaskStep?
    && (match who
        case Sender => labels[a].op.CallSend?
        case Receiver => labels[a].op.CallReceive?
        case User => false)
    && (forall i :: a < i <= b ==> InCallAt(states[i], t, who))
    && IsStepOf(states[b], labels[b], t)
    && Shape(states[b]) && Returns(states[b]) == Some(QueueResult(who, status))
  }

  /** The call starts with nothing copied. */
  lemma CallStartsAtWait(states: seq<State>, labels: seq<Label>, t: nat, who: Caller, a: nat, next: nat)
    requires Execution(states, labels) && a < |labels| && next == a + 1
    requires IsStepOf(states[a], labels[a], t) && (labels[a].op.CallSend? || labels[a].op.CallReceive?)
    ensures t < |states[next].pcs| && !HasCopied(states[next].pcs[t], who) && !CopiesNow(states[a], labels[a], t, who)
  {
    StateOfRun(states, labels, a);
  }

  /** It returns OK exactly when it has copied. */
  lemma ReturnTellsTheCopy(states: seq<State>, labels: seq<Label>, t: nat, who: Caller, b: nat, status: QueueStatus)
    requires Execution(states, labels) && b < |labels| && IsStepOf(states[b], labels[b], t)
    requires InCallAt(states[b], t, who)
    requires Shape(states[b]) && Returns(states[b]) == Some(QueueResult(who, status))
    ensures HasCopied(states[b].pcs[t], who) <==> status == QueueOk
    ensures !CopiesNow(states[b], labels[b], t, who)
  {
    StateOfRun(states, labels, b);
    EveryStateIsGood(states, labels, b);
    SuccessIsTheLastPost(states[b]);
    if status != QueueOk {
      FailuresAreMasked(states, labels, b, who);
    }
  }

  /** Over a whole call, the task adds exactly one entry to the history if it returns OK, and none if it fails. */
  lemma CallCopiesOnce(
      states: seq<State>, labels: seq<Label>, t: nat, who: Caller, a: nat, b: nat, status: QueueStatus)
    requires Execution(states, labels) && CallReturns(states, labels, t, who, a, b, status)
    ensures CopiesBetween(states, labels, t, who, a, b + 1) == One(status == QueueOk)
  {
    CallStartsAtWait(states, labels, t, who, a, a + 1);
    CopiesAreNoted(states, labels, t, who, a + 1, b);
    ReturnTellsTheCopy(states, labels, t, who, b, status);
    CopiesFromCall(states, labels, t, who, a, b);
  }

  /** The call itself copies nothing, so counting may start behind it. */
  lemma {:induction false} CopiesFromCall(
      states: seq<State>, labels: seq<Label>, t: nat, who: Caller, a: nat, b: nat)
    requires a < b <= |labels| && b <= |states| && !CopiesNow(states[a], labels[a], t, who)
    ensures CopiesBetween(states, labels, t, who, a, b) == CopiesBetween(states, labels, t, who, a + 1, b)
    decreases b
  {
    if a + 1 == b {
      assert CopiesBetween(states, labels, t, who, a, a) == 0;
    } else {
      CopiesFromCall(states, labels, t, who, a, b - 1);
    }
  }

  /** The one entry that a successful send adds is its message, whatever other tasks do meanwhile. */
  lemma SendAddsItsMessageOnce(
      states: seq<State>, labels: seq<Label>, t: nat, message: Message, a: nat, b: nat, status: QueueStatus)
    requires Execution(states, labels) && CallReturns(states, labels, t, Sender, a, b, status)
    requires labels[a] == TaskStep(CallSend(message))
    ensures CopiesBetween(states, labels, t, Sender, a, b + 1) == One(status == QueueOk)
    ensures forall j :: a < j < b && CopiesNow(states[j], labels[j], t, Sender) ==>
      states[j + 1].written == states[j].written + [message]
  {
    CallCopiesOnce(states, labels, t, Sender, a, b, status);
    forall j | a < j < b && CopiesNow(states[j], labels[j], t, Sender)
      ensures states[j + 1].written == states[j].written + [message]
    {
      CopiedEntryIsMessage(states, labels, t, message, a, j);
    }
  }

  lemma CopiedEntryIsMessage(states: seq<State>, labels: seq<Label>, t: nat, message: Message, a: nat, j: nat)
    requires Execution(states, labels) && a < j < |labels|
    requires IsStepOf(states[a], labels[a], t) && labels[a] == TaskStep(CallSend(message))
    requires forall i :: a < i <= j ==> InCallAt(states[i], t, Sender)
    requires CopiesNow(states[j], labels[j], t, Sender)
    ensures states[j + 1].written == states[j].written + [message]
  {
    StateOfRun(states, labels, a);
    SentMessageIsWritten(states, labels, t, message, a, j);
  }

  // ---------------------------------------------------------------------------
  // No internal deadlock
  // ---------------------------------------------------------------------------

  predicate InQueueCall(pc: Pc) {
    !pc.App? && !pc.SleepPc? && pc.who != User
  }

  /** Every application task is inside send or receive. */
  ghost predicate OnlyQueueCalls(s: State) {
    |s.pcs| >= 2 && forall t :: 0 < t < |s.pcs| ==> InQueueCall(s.pcs[t])
  }

  ghost predicate AllBlocked(s: State) {
    forall t :: 0 < t < |s.pcs| ==> t < |s.os.tasks| && s.os.tasks[t].state == Blocked
  }

  /** Nobody is blocked on the queue's mutex forever: its owner is never blocked itself. */
  lemma RingOwnerIsNotBlocked(s: State)
    requires CoreInv(s) && s.mutexes[QUEUE_MUTEX].locked
    ensures IDLE < s.mutexes[QUEUE_MUTEX].owner < |s.os.tasks|
    ensures s.os.tasks[s.mutexes[QUEUE_MUTEX].owner].state != Blocked
  {
  }

  lemma BlockedTasksWaitForUnits(s: State, t: nat)
    requires CoreInv(s) && OnlyQueueCalls(s) && AllBlocked(s) && 0 < t < |s.pcs|
    ensures s.pcs[t] == WaitPc(SPACES, Sender) || s.pcs[t] == WaitPc(ITEMS, Receiver)
    ensures t in s.sems[s.pcs[t].sem].waiting
  {
  }

  /** When all are blocked, a semaphore with a waiter has no units at all. */
  lemma WaitedSemaphoreIsDry(s: State, t: nat)
    requires QueueInv(s) && OnlyQueueCalls(s) && AllBlocked(s) && 0 < t < |s.pcs|
    ensures s.pcs[t].WaitPc? && s.pcs[t].sem <= SPACES
    ensures Units(s.sems[s.pcs[t].sem], s.pcs, s.pcs[t].sem) == 0
  {
  }

  /**
   If all application tasks are inside send or receive and all are blocked, they all wait on
   the same semaphore: senders in front of a full queue or receivers in front of an empty one.
   */
  lemma NoInternalDeadlock(s: State)
    requires QueueInv(s) && OnlyQueueCalls(s) && AllBlocked(s)
    ensures (|Contents(s)| == s.cfg.capacity && forall t :: 0 < t < |s.pcs| ==> s.pcs[t] == WaitPc(SPACES, Sender))
         || (|Contents(s)| == 0 && forall t :: 0 < t < |s.pcs| ==> s.pcs[t] == WaitPc(ITEMS, Receiver))
  {
    WaitedSemaphoreIsDry(s, 1);
    forall t | 0 < t < |s.pcs| ensures s.pcs[t] == s.pcs[1] {
      WaitedSemaphoreIsDry(s, t);
      BlockedTasksWaitForUnits(s, t);
      BlockedTasksWaitForUnits(s, 1);
    }
    BlockedTasksWaitForUnits(s, 1);
  }

  /** Otherwise an undisturbed call of the scheduler finds an application task to run. */
  lemma SomeoneCanRun(s: State)
    requires CoreInv(s) && s.handler.Inactive? && OnlyQueueCalls(s)
    ensures !AllBlocked(s) <==> Dispatch(s.os).current != IDLE
  {
    var requeued := Requeue(s.os.tasks, s.os.current);
    forall t | 0 < t < |s.pcs| ensures t in ReadyIds(requeued) <==> s.os.tasks[t].state != Blocked {
      assert TaskInv(t, s.os.tasks[t].state, s.pcs[t], s.sems, s.mutexes);
      assert InQueueCall(s.pcs[t]);
    }
    var next := Next(s.os.current, |requeued|, ReadyIds(requeued));
    if t :| 0 < t < |s.pcs| && s.os.tasks[t].state != Blocked {
      PassingOverShortens(s.os.current, |requeued|, ReadyIds(requeued), t);
    }
  }

  /** A sender and a receiver are never all blocked together, so the scheduler does not fall back to idle. */
  lemma MixedCallersKeepRunning(s: State, sender: nat, receiver: nat)
    requires QueueInv(s) && s.handler.Inactive? && OnlyQueueCalls(s)
    requires 0 < sender < |s.pcs| && s.pcs[sender].who == Sender
    requires 0 < receiver < |s.pcs| && s.pcs[receiver].who == Receiver
    ensures Dispatch(s.os).current != IDLE
  {
    SomeoneCanRun(s);
    if AllBlocked(s) {
      NoInternalDeadlock(s);
    }
  }
}
