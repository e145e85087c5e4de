/**
 What every step keeps about the message queue: units of the two semaphores are conserved,
 and the ring holds exactly the messages that are written and not yet read.
 */
module QueueInvariant {
  import opened Waiters
  import opened Scheduling
  import opened Semaphore
  import opened Mutex
  import opened MessageQueue
  import opened System
  import opened CoreInvariant

  // ---------------------------------------------------------------------------
  // Units
  // ---------------------------------------------------------------------------

  /** The queue semaphore of which a task at `pc` has taken a unit, or owes one. */
  function Carries(pc: Pc): Option<nat> {
    match pc
    case LockPc(_, who) => Taken(who)
    case CopyPc(who, _) => Taken(who)
    case UnlockPc(_, who) => Owed(who)
    case PostPc(k, _) => if k <= SPACES then Some(k) else None
    case _ => None
  }

  function Taken(who: Caller): Option<nat> {
    match who
    case User => None
    case Sender => Some(SPACES)
    case Receiver => Some(ITEMS)
  }

  function Owed(who: Caller): Option<nat> {
    match who
    case User => None
    case Sender => Some(ITEMS)
    case Receiver => Some(SPACES)
  }

  ghost function Carriers(pcs: seq<Pc>, k: nat): set<nat> {
    set t | 0 <= t < |pcs| && Carries(pcs[t]) == Some(k)
  }

  /** All units of queue semaphore `k`: free, handed over, and in the hands of running calls. */
  ghost function Units(q: Sem, pcs: seq<Pc>, k: nat): nat {
    q.count + |q.granted| + |Carriers(pcs, k)|
  }

  ghost predicate UnitsInv(s: State)
    requires Shape(s)
  {
    && s.sems[ITEMS].maximum == s.cfg.capacity == s.sems[SPACES].maximum
    && Units(s.sems[ITEMS], s.pcs, ITEMS) == |s.written| - |s.read|
    && Units(s.sems[SPACES], s.pcs, SPACES) == s.cfg.capacity - (|s.written| - |s.read|)
  }

  function One(b: bool): nat {
    if b then 1 else 0
  }

  lemma CarriersAfterMove(pcs: seq<Pc>, t: nat, pc: Pc, k: nat)
    requires t < |pcs|
    ensures |Carriers(pcs[t := pc], k)| + One(Carries(pcs[t]) == Some(k))
         == |Carriers(pcs, k)| + One(Carries(pc) == Some(k))
  {
    var before, after := Carriers(pcs, k), Carriers(pcs[t := pc], k);
    assert after - {t} == before - {t};
    SizeWithout(before, t);
    SizeWithout(after, t);
    assert t in before <==> Carries(pcs[t]) == Some(k);
    assert t in after <==> Carries(pc) == Some(k);
  }

  lemma SizeWithout(ids: set<nat>, t: nat)
    ensures |ids| == |ids - {t}| + One(t in ids)
  {
  }

  /** A carrier proves that its semaphore has units. */
  lemma CarrierCounts(pcs: seq<Pc>, t: nat, k: nat)
    requires t < |pcs| && Carries(pcs[t]) == Some(k)
    ensures |Carriers(pcs, k)| >= 1
  {
    assert t in Carriers(pcs, k);
  }

  // ---------------------------------------------------------------------------
  // The ring
  // ---------------------------------------------------------------------------

  ghost predicate RingInv(s: State)
    requires Shape(s)
  {
    var w, r, n := |s.written|, |s.read|, s.cfg.capacity;
    && r <= w <= r + n
    && s.ring.tail == w % n && s.ring.head == r % n
    && s.read == s.written[..r]
    && (forall j :: r <= j < w ==> s.ring.slots[j % n] == s.written[j])
    && (forall t :: 0 <= t < |s.pcs| && s.pcs[t].CopyPc? ==> Copied(s.pcs[t], s.buffers[t], s.ring))
  }

  /** The part of the message that the copy loop has moved. */
  ghost predicate Copied(pc: Pc, buffer: Message, ring: Ring)
    requires pc.CopyPc? && ring.head < |ring.slots| && ring.tail < |ring.slots|
  {
    var slot := ring.slots[if pc.who == Sender then ring.tail else ring.head];
    && pc.index <= |buffer| == |slot|
    && slot[..pc.index] == buffer[..pc.index]
  }

  ghost predicate QueueInv(s: State) {
    CoreInv(s) && UnitsInv(s) && RingInv(s)
  }

  lemma DifferentSlots(j: nat, k: nat, n: nat)
    requires j < k < j + n
    ensures j % n != k % n
  {
    if j % n == k % n {
      MultipleIsFar(n, k / n - j / n, k - j);
    }
  }

  lemma MultipleIsFar(n: int, d: int, x: int)
    requires 0 < n && -n < x < n && x == n * d
    ensures d == 0
  {
  }

  lemma SuccessorIsNext(j: nat, n: nat)
    requires 0 < n
    ensures Successor(j % n, n) == (j + 1) % n
  {
    if j % n + 1 < n {
      assert j + 1 == n * (j / n) + (j % n + 1);
      UniqueRemainder(j + 1, n, j / n, j % n + 1);
    } else {
      assert j + 1 == n * (j / n + 1);
      UniqueRemainder(j + 1, n, j / n + 1, 0);
    }
  }

  lemma UniqueRemainder(x: nat, n: nat, q: nat, r: nat)
    requires 0 < n && r < n && x == n * q + r
    ensures x % n == r
  {
    assert n * (x / n - q) == n * (x / n) - n * q;
    MultipleIsFar(n, x / n - q, r - x % n);
  }

  // ---------------------------------------------------------------------------
  // Steps that leave the queue alone
  // ---------------------------------------------------------------------------

  lemma InitIsGoodQueue(s: State)
    requires Init(s)
    ensures QueueInv(s)
  {
  }

  /** A move between two program points that carry the same unit and do not copy. */
  lemma QuietMoveKeepsUnits(s: State, s': State, pc: Pc)
    requires Shape(s) && Shape(s') && UnitsInv(s)
    requires s'.cfg == s.cfg && s'.written == s.written && s'.read == s.read
    requires s'.sems[ITEMS] == s.sems[ITEMS] && s'.sems[SPACES] == s.sems[SPACES]
    requires s'.pcs == s.pcs[s.os.current := pc] && Carries(pc) == Carries(s.pcs[s.os.current])
    ensures UnitsInv(s')
  {
    CarriersAfterMove(s.pcs, s.os.current, pc, ITEMS);
    CarriersAfterMove(s.pcs, s.os.current, pc, SPACES);
  }

  lemma QuietMoveKeepsRing(s: State, s': State, pc: Pc)
    requires Shape(s) && Shape(s') && RingInv(s)
    requires s'.cfg == s.cfg && s'.written == s.written && s'.read == s.read && s'.ring == s.ring
    requires s'.pcs == s.pcs[s.os.current := pc]
    requires forall t :: 0 <= t < |s.pcs| && t != s.os.current ==> s'.buffers[t] == s.buffers[t]
    requires pc.CopyPc? ==> pc.index == 0
    ensures RingInv(s')
  {
  }

  lemma InterruptKeepsQueue(s: State, l: Label)
    requires QueueInv(s) && Enabled(s, l) && !l.TaskStep?
    ensures QueueInv(Apply(s, l))
  {
    StepKeepsCore(s, l);
    InterruptMovesNobody(s, l);
    QueueIgnoresScheduler(s, Apply(s, l));
  }

  lemma QueueIgnoresScheduler(s: State, s': State)
    requires Shape(s) && Shape(s') && s' == s.(os := s'.os, handler := s'.handler, overlooked := s'.overlooked)
    requires UnitsInv(s) && RingInv(s)
    ensures UnitsInv(s') && RingInv(s')
  {
  }

  lemma CallKeepsQueue(s: State, op: Op)
    requires QueueInv(s) && Runs(s) && OpShape(s, op) && s.pcs[s.os.current] == App
    ensures QueueInv(Call(s, op))
  {
    CallKeepsCore(s, op);
    var pc := Call(s, op).pcs[s.os.current];
    CallIsQuiet(s, op);
    QuietMoveKeepsUnits(s, Call(s, op), pc);
    QuietMoveKeepsRing(s, Call(s, op), pc);
  }

  /** No call takes a unit, copies, or touches another task's buffer. */
  lemma CallIsQuiet(s: State, op: Op)
    requires Shape(s) && OpShape(s, op) && s.pcs[s.os.current] == App
    ensures var t, s' := s.os.current, Call(s, op);
      && t < |s'.pcs| && s'.pcs == s.pcs[t := s'.pcs[t]] && Carries(s'.pcs[t]) == None && !s'.pcs[t].CopyPc?
      && |s'.buffers| == |s.buffers|
      && (forall u :: 0 <= u < |s.buffers| && u != t ==> s'.buffers[u] == s.buffers[u])
      && s'.cfg == s.cfg && s'.sems == s.sems && s'.ring == s.ring && s'.written == s.written && s'.read == s.read
  {
  }

  lemma SleepKeepsQueue(s: State, wakeup: nat)
    requires QueueInv(s) && Runs(s) && s.pcs[s.os.current] == SleepPc(wakeup)
    ensures QueueInv(Proceed(s))
  {
    SleepKeepsCore(s, wakeup);
    QuietMoveKeepsUnits(s, Proceed(s), App);
    QuietMoveKeepsRing(s, Proceed(s), App);
  }

  // ---------------------------------------------------------------------------
  // Semaphore steps
  // ---------------------------------------------------------------------------

  lemma WaitPassUnits(q: Sem, os: Sched)
    ensures var r := WaitPass(q, os);
            && r.sem.count + |r.sem.granted| + One(r.status == Some(SemOk)) == q.count + |q.granted|
            && r.sem.maximum == q.maximum
  {
  }

  lemma WaitKeepsUnits(s: State, k: nat, who: Caller)
    requires QueueInv(s) && Runs(s) && s.pcs[s.os.current] == WaitPc(k, who)
    requires Shape(WaitStep(s, k, who))
    ensures UnitsInv(WaitStep(s, k, who))
  {
    WaitMoves(s, k, who);
    var t := s.os.current;
    var pc := WaitStep(s, k, who).pcs[t];
    CarriersAfterMove(s.pcs, t, pc, ITEMS);
    CarriersAfterMove(s.pcs, t, pc, SPACES);
  }

  /** A pass of a wait moves only the current task, which then carries the unit it took, if any. */
  lemma WaitMoves(s: State, k: nat, who: Caller)
    requires CoreInv(s) && s.pcs[s.os.current] == WaitPc(k, who)
    ensures k < |s.sems|
    ensures var t, s', r := s.os.current, WaitStep(s, k, who), WaitPass(s.sems[k], s.os);
      && t < |s'.pcs| && s'.pcs == s.pcs[t := s'.pcs[t]] && s'.sems == s.sems[k := r.sem]
      && r.sem.count + |r.sem.granted| + One(r.status == Some(SemOk)) == s.sems[k].count + |s.sems[k].granted|
      && r.sem.maximum == s.sems[k].maximum
      && (Carries(s'.pcs[t]) == if k <= SPACES && r.status == Some(SemOk) then Some(k) else Carries(s.pcs[t]))
  {
    WaitPassUnits(s.sems[k], s.os);
    assert PcShape(s.pcs[s.os.current], |s.sems|, |s.mutexes|, s.cfg.messageSize);
  }

  lemma WaitKeepsQueue(s: State, k: nat, who: Caller)
    requires QueueInv(s) && Runs(s) && s.pcs[s.os.current] == WaitPc(k, who)
    ensures QueueInv(WaitStep(s, k, who))
  {
    WaitKeepsCore(s, k, who);
    WaitKeepsUnits(s, k, who);
    var pc := WaitStep(s, k, who).pcs[s.os.current];
    assert WaitStep(s, k, who).pcs == s.pcs[s.os.current := pc];
    QuietMoveKeepsRing(s, WaitStep(s, k, who), pc);
  }

  lemma PostPassUnits(q: Sem, os: Sched)
    requires q.last < |os.tasks| && q.waiting !! q.granted
    ensures var r := PostPass(q, os);
            && r.sem.count + |r.sem.granted| == q.count + |q.granted| + One(r.status == Some(SemOk))
            && r.sem.maximum == q.maximum
            && r.status.Some?
  {
  }

  /** The caller's own unit is missing from the count, so the count is below its maximum. */
  lemma PostInQueueSucceeds(s: State, k: nat, who: Caller)
    requires QueueInv(s) && s.pcs[s.os.current] == PostPc(k, who) && k <= SPACES
    ensures PostPass(s.sems[k], s.os).status == Some(SemOk)
  {
    CarrierCounts(s.pcs, s.os.current, k);
  }

  lemma PostKeepsQueue(s: State, k: nat, who: Caller)
    requires QueueInv(s) && Runs(s) && s.pcs[s.os.current] == PostPc(k, who)
    ensures QueueInv(PostStep(s, k))
  {
    PostKeepsCore(s, k, who);
    assert SemInv(k, s.sems[k], s.pcs);
    PostPassUnits(s.sems[k], s.os);
    if k <= SPACES {
      PostInQueueSucceeds(s, k, who);
    }
    var s' := PostStep(s, k);
    CarriersAfterMove(s.pcs, s.os.current, App, ITEMS);
    CarriersAfterMove(s.pcs, s.os.current, App, SPACES);
    QuietMoveKeepsRing(s, s', App);
  }

  // ---------------------------------------------------------------------------
  // Mutex steps
  // ---------------------------------------------------------------------------

  lemma LockKeepsUnits(s: State, m: nat, who: Caller)
    requires QueueInv(s) && Runs(s) && s.pcs[s.os.current] == LockPc(m, who)
    requires Shape(LockStep(s, m, who))
    ensures UnitsInv(LockStep(s, m, who))
  {
    var s' := LockStep(s, m, who);
    var pc := s'.pcs[s.os.current];
    assert PcShape(s.pcs[s.os.current], |s.sems|, |s.mutexes|, s.cfg.messageSize);
    assert s'.pcs == s.pcs[s.os.current := pc];
    QuietMoveKeepsUnits(s, s', pc);
  }

  lemma LockKeepsQueue(s: State, m: nat, who: Caller)
    requires QueueInv(s) && Runs(s) && s.pcs[s.os.current] == LockPc(m, who)
    ensures QueueInv(LockStep(s, m, who))
  {
    LockKeepsCore(s, m, who);
    LockKeepsUnits(s, m, who);
    var pc := LockStep(s, m, who).pcs[s.os.current];
    assert LockStep(s, m, who).pcs == s.pcs[s.os.current := pc];
    QuietMoveKeepsRing(s, LockStep(s, m, who), pc);
  }

  /** Inside the queue only the owner unlocks, so the unlock cannot fail. */
  lemma UnlockInQueueSucceeds(s: State, who: Caller)
    requires CoreInv(s) && s.pcs[s.os.current] == UnlockPc(QUEUE_MUTEX, who)
    ensures UnlockPass(s.mutexes[QUEUE_MUTEX], s.os).status == Some(MutexOk)
  {
  }

  lemma UnlockKeepsQueue(s: State, m: nat, who: Caller)
    requires QueueInv(s) && Runs(s) && s.pcs[s.os.current] == UnlockPc(m, who)
    ensures QueueInv(UnlockStep(s, m, who))
  {
    UnlockKeepsCore(s, m, who);
    assert PcShape(s.pcs[s.os.current], |s.sems|, |s.mutexes|, s.cfg.messageSize);
    if m == QUEUE_MUTEX {
      UnlockInQueueSucceeds(s, who);
    }
    var s' := UnlockStep(s, m, who);
    var pc := s'.pcs[s.os.current];
    QuietMoveKeepsUnits(s, s', pc);
    QuietMoveKeepsRing(s, s', pc);
  }

  // ---------------------------------------------------------------------------
  // Copy steps
  // ---------------------------------------------------------------------------

  /** A task that copies is alone in doing so. */
  lemma OnlyOneCopies(s: State, t: nat)
    requires CoreInv(s) && t < |s.pcs| && InCriticalSection(s.pcs[t])
    ensures forall u :: 0 <= u < |s.pcs| && InCriticalSection(s.pcs[u]) ==> u == t
  {
  }

  /** The unit the sender took is a free slot, the unit the receiver took is a message. */
  lemma CopierHasRoom(s: State)
    requires QueueInv(s) && s.pcs[s.os.current].CopyPc?
    ensures s.pcs[s.os.current].who == Sender ==> |s.written| < |s.read| + s.cfg.capacity
    ensures s.pcs[s.os.current].who == Receiver ==> |s.read| < |s.written|
  {
    var pc := s.pcs[s.os.current];
    if pc.who == Sender {
      CarrierCounts(s.pcs, s.os.current, SPACES);
    } else if pc.who == Receiver {
      CarrierCounts(s.pcs, s.os.current, ITEMS);
    }
  }

  lemma CopyKeepsUnits(s: State, who: Caller, i: nat)
    requires QueueInv(s) && Runs(s) && s.pcs[s.os.current] == CopyPc(who, i) && who != User
    ensures Shape(CopyStep(s, who, i)) && UnitsInv(CopyStep(s, who, i))
  {
    CopyKeepsCore(s, who, i);
    var pc := CopyStep(s, who, i).pcs[s.os.current];
    assert CopyStep(s, who, i).pcs == s.pcs[s.os.current := pc];
    CarriersAfterMove(s.pcs, s.os.current, pc, ITEMS);
    CarriersAfterMove(s.pcs, s.os.current, pc, SPACES);
  }

  /** The byte goes to the tail slot, which holds no live message. */
  lemma SendByteKeepsRing(s: State, i: nat)
    requires QueueInv(s) && Runs(s) && s.pcs[s.os.current] == CopyPc(Sender, i) && i < s.cfg.messageSize
    requires Shape(CopyStep(s, Sender, i))
    ensures RingInv(CopyStep(s, Sender, i))
  {
    CopierHasRoom(s);
    OnlyOneCopies(s, s.os.current);
    var s' := CopyStep(s, Sender, i);
    var w, r, n := |s.written|, |s.read|, s.cfg.capacity;
    assert Copied(s.pcs[s.os.current], s.buffers[s.os.current], s.ring);
    forall j | r <= j < w ensures s'.ring.slots[j % n] == s'.written[j] {
      DifferentSlots(j, w, n);
    }
  }

  lemma ReceiveByteKeepsRing(s: State, i: nat)
    requires QueueInv(s) && Runs(s) && s.pcs[s.os.current] == CopyPc(Receiver, i) && i < s.cfg.messageSize
    requires Shape(CopyStep(s, Receiver, i))
    ensures RingInv(CopyStep(s, Receiver, i))
  {
  }

  lemma FinishSendKeepsRing(s: State, i: nat)
    requires QueueInv(s) && Runs(s) && s.pcs[s.os.current] == CopyPc(Sender, i) && i == s.cfg.messageSize
    ensures Shape(CopyStep(s, Sender, i)) && RingInv(CopyStep(s, Sender, i))
  {
    CopyKeepsCore(s, Sender, i);
    CopierHasRoom(s);
    OnlyOneCopies(s, s.os.current);
    var s' := CopyStep(s, Sender, i);
    var w, r, n := |s.written|, |s.read|, s.cfg.capacity;
    assert Copied(s.pcs[s.os.current], s.buffers[s.os.current], s.ring);
    assert s.ring.slots[s.ring.tail] == s.buffers[s.os.current];
    SuccessorIsNext(w, n);
    forall j | r <= j < w + 1 ensures s'.ring.slots[j % n] == s'.written[j] {
      if j < w {
        DifferentSlots(j, w, n);
      }
    }
  }

  lemma FinishReceiveKeepsRing(s: State, i: nat)
    requires QueueInv(s) && Runs(s) && s.pcs[s.os.current] == CopyPc(Receiver, i) && i == s.cfg.messageSize
    ensures Shape(CopyStep(s, Receiver, i)) && RingInv(CopyStep(s, Receiver, i))
    ensures s.buffers[s.os.current] == s.written[|s.read|]
  {
    CopyKeepsCore(s, Receiver, i);
    CopierHasRoom(s);
    OnlyOneCopies(s, s.os.current);
    assert Copied(s.pcs[s.os.current], s.buffers[s.os.current], s.ring);
    assert s.ring.slots[s.ring.head] == s.buffers[s.os.current];
    SuccessorIsNext(|s.read|, s.cfg.capacity);
  }

  lemma CopyKeepsQueue(s: State, who: Caller, i: nat)
    requires QueueInv(s) && Runs(s) && s.pcs[s.os.current] == CopyPc(who, i)
    ensures QueueInv(Proceed(s))
  {
    assert PcShape(s.pcs[s.os.current], |s.sems|, |s.mutexes|, s.cfg.messageSize);
    CopyKeepsCore(s, who, i);
    CopyKeepsUnits(s, who, i);
    if i < s.cfg.messageSize {
      if who == Sender {
        SendByteKeepsRing(s, i);
      } else {
        ReceiveByteKeepsRing(s, i);
      }
    } else if who == Sender {
      FinishSendKeepsRing(s, i);
    } else {
      FinishReceiveKeepsRing(s, i);
    }
  }

  // ---------------------------------------------------------------------------
  // Every step, every run
  // ---------------------------------------------------------------------------

  lemma ProceedKeepsQueue(s: State)
    requires QueueInv(s) && Runs(s) && s.pcs[s.os.current] != App
    ensures QueueInv(Proceed(s))
  {
    match s.pcs[s.os.current] {
      case WaitPc(k, who) => WaitKeepsQueue(s, k, who);
      case PostPc(k, who) => PostKeepsQueue(s, k, who);
      case LockPc(m, who) => LockKeepsQueue(s, m, who);
      case UnlockPc(m, who) => UnlockKeepsQueue(s, m, who);
      case CopyPc(who, i) => CopyKeepsQueue(s, who, i);
      case SleepPc(w) => SleepKeepsQueue(s, w);
    }
  }

  lemma StepKeepsQueue(s: State, l: Label)
    requires QueueInv(s) && Enabled(s, l)
    ensures QueueInv(Apply(s, l))
  {
    if !l.TaskStep? {
      InterruptKeepsQueue(s, l);
    } else if l.op == Continue {
      ProceedKeepsQueue(s);
    } else {
      CallKeepsQueue(s, l.op);
    }
  }

  lemma StepOfRunKeepsQueue(states: seq<State>, labels: seq<Label>, i: nat, next: nat)
    requires IsRun(states, labels) && i < |labels| && next == i + 1 && QueueInv(states[i])
    ensures QueueInv(states[next])
  {
    assert StepAt(states, labels, i);
    StepKeepsQueue(states[i], labels[i]);
  }

  /** The invariant holds in every state of every run. */
  lemma {:induction false} EveryStateIsGood(states: seq<State>, labels: seq<Label>, i: nat)
    requires IsRun(states, labels) && Init(states[0]) && i < |states|
    ensures QueueInv(states[i])
  {
    if i == 0 {
      InitIsGoodQueue(states[0]);
    } else {
      EveryStateIsGood(states, labels, i - 1);
      StepOfRunKeepsQueue(states, labels, i - 1, i);
    }
  }
}
