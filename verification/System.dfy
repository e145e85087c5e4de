/**
 The kernel as one step machine. Every region between `os_irq_save` and `os_irq_restore`
 is one step; between two steps of a task any number of SysTick interrupts, PendSV
 switches and steps of other tasks may happen. The queue's copy loops advance one byte
 per step. PendSV_Handler has the lowest priority and leaves interrupts enabled, so its
 search for the next task advances one id per step, with ticks between.

 A task may use any number of semaphores and mutexes of its own beside one message queue.
 Semaphores 0 and 1 and mutex 0 are the parts of that queue and are reached only through
 `os_message_queue_send` and `os_message_queue_receive`.
 */
module System {
  import opened RoundRobin
  import opened TaskMask
  import opened Waiters
  import opened Task
  import opened Scheduling
  import opened Semaphore
  import opened Mutex
  import opened MessageQueue

  const ITEMS: nat := 0
  const SPACES: nat := 1
  const QUEUE_MUTEX: nat := 0

  /** On whose behalf a task is inside a semaphore or mutex call. */
  datatype Caller = User | Sender | Receiver

  /** Where a task is: in its own code, or about to run the named critical section. */
  datatype Pc =
    | App
    | WaitPc(sem: nat, who: Caller)
    | PostPc(sem: nat, who: Caller)
    | LockPc(mutex: nat, who: Caller)
    | UnlockPc(mutex: nat, who: Caller)
    | CopyPc(who: Caller, index: nat)
    | SleepPc(wakeup: nat)

  /** What a task does next. Only `Continue` is possible inside a call. */
  datatype Op =
    | Continue
    | CallWait(sem: nat)
    | CallPost(sem: nat)
    | CallLock(mutex: nat)
    | CallUnlock(mutex: nat)
    | CallSend(message: Message)
    | CallReceive(buffer: Message)
    | CallSleep(milliseconds: nat)
    | CallYield
    | SetMask(on: bool)
    | SetPreemption(enabled: bool)

  /** `PendSvIrq` enters PendSV_Handler, `PendSvCode` is a step of its code. */
  datatype Label = SvcStart | SysTickIrq | PendSvIrq | PendSvCode | TaskStep(op: Op)

  datatype Config = Config(messageSize: nat, capacity: nat, slice: nat)

  /**
   `buffers[t]` is the message the task is sending, or the one it is receiving into.
   `written` and `read` record the messages whose copy into, or out of, the ring is complete.
   `overlooked` records the tasks that a tick woke, during the last switch, behind its search.
   */
  datatype State = State(
    cfg: Config,
    os: Sched,
    handler: Handler,
    overlooked: set<nat>,
    sems: seq<Sem>,
    mutexes: seq<Mtx>,
    ring: Ring,
    pcs: seq<Pc>,
    buffers: seq<Message>,
    written: seq<Message>,
    read: seq<Message>)

  // ---------------------------------------------------------------------------
  // Well-formed states
  // ---------------------------------------------------------------------------

  /** The queue's own objects are used by the queue, and only by it. */
  predicate PcShape(pc: Pc, sems: nat, mutexes: nat, messageSize: nat) {
    match pc
    case App => true
    case WaitPc(k, who) =>
      k < sems && (match who case User => k > SPACES case Sender => k == SPACES case Receiver => k == ITEMS)
    case PostPc(k, who) => k < sems && (who == User <==> k > SPACES)
    case LockPc(m, who) => m < mutexes && (who == User <==> m > QUEUE_MUTEX)
    case UnlockPc(m, who) => m < mutexes && (who == User <==> m > QUEUE_MUTEX)
    case CopyPc(who, i) => who != User && i <= messageSize
    case SleepPc(w) => w < U32
  }

  ghost predicate Shape(s: State) {
    && 0 < s.cfg.messageSize && 0 < s.cfg.capacity && 0 < s.cfg.slice
    && 1 <= |s.os.tasks| <= MAX_TASKS
    && s.os.current < |s.os.tasks|
    && |s.pcs| == |s.os.tasks| == |s.buffers|
    && 2 <= |s.sems| && 1 <= |s.mutexes|
    && |s.ring.slots| == s.cfg.capacity && RingShape(s.ring, s.cfg.messageSize)
    && (forall t :: 0 <= t < |s.pcs| ==> PcShape(s.pcs[t], |s.sems|, |s.mutexes|, s.cfg.messageSize))
    && (forall t :: 0 <= t < |s.buffers| ==> |s.buffers[t]| == s.cfg.messageSize)
    && (forall k :: 0 <= k < |s.sems| ==> s.sems[k].last < |s.os.tasks|)
  }

  // ---------------------------------------------------------------------------
  // Steps
  // ---------------------------------------------------------------------------

  predicate OpShape(s: State, op: Op) {
    match op
    case CallWait(k) => SPACES < k < |s.sems|
    case CallPost(k) => SPACES < k < |s.sems|
    case CallLock(m) => QUEUE_MUTEX < m < |s.mutexes|
    case CallUnlock(m) => QUEUE_MUTEX < m < |s.mutexes|
    case CallSend(message) => |message| == s.cfg.messageSize
    case CallReceive(buffer) => |buffer| == s.cfg.messageSize
    case CallSleep(ms) => ms < U32 && !s.os.masked
    case _ => true
  }

  /**
   A task runs only after the first dispatch, and with interrupts enabled only while no
   PendSV is pending or active: the exception is taken before the next instruction of the
   task. The idle task only loops.
   */
  ghost predicate Enabled(s: State, l: Label)
    requires Shape(s)
  {
    match l
    case SvcStart => !s.os.started
    case SysTickIrq => !s.os.masked
    case PendSvIrq => s.os.pending && !s.os.masked && s.handler.Inactive?
    case PendSvCode => !s.handler.Inactive?
    case TaskStep(op) =>
      && s.os.started
      && s.os.current != IDLE
      && s.handler.Inactive?
      && (!s.os.pending || s.os.masked)
      && (s.pcs[s.os.current].App? <==> op != Continue)
      && OpShape(s, op)
  }

  function At(s: State, pc: Pc): State
    requires s.os.current < |s.pcs|
  {
    s.(pcs := s.pcs[s.os.current := pc])
  }

  function AfterWait(who: Caller, status: SemStatus): Pc {
    if status == SemOk && who != User then LockPc(QUEUE_MUTEX, who) else App
  }

  /** A failed lock inside the queue gives the unit back. */
  function AfterLock(who: Caller, status: MutexStatus): Pc {
    match who
    case User => App
    case Sender => if status == MutexOk then CopyPc(Sender, 0) else PostPc(SPACES, Sender)
    case Receiver => if status == MutexOk then CopyPc(Receiver, 0) else PostPc(ITEMS, Receiver)
  }

  function AfterUnlock(who: Caller, status: MutexStatus): Pc {
    if status != MutexOk then App
    else match who
      case User => App
      case Sender => PostPc(ITEMS, Sender)
      case Receiver => PostPc(SPACES, Receiver)
  }

  ghost function WaitStep(s: State, k: nat, who: Caller): State
    requires Shape(s) && k < |s.sems|
  {
    var r := WaitPass(s.sems[k], s.os);
    var s' := s.(sems := s.sems[k := r.sem], os := r.k);
    if r.status.None? then s' else At(s', AfterWait(who, r.status.value))
  }

  ghost function PostStep(s: State, k: nat): State
    requires Shape(s) && k < |s.sems|
  {
    var r := PostPass(s.sems[k], s.os);
    At(s.(sems := s.sems[k := r.sem], os := r.k), App)
  }

  ghost function LockStep(s: State, m: nat, who: Caller): State
    requires Shape(s) && m < |s.mutexes|
  {
    var r := LockPass(s.mutexes[m], s.os);
    var s' := s.(mutexes := s.mutexes[m := r.mutex], os := r.k);
    if r.status.None? then s' else At(s', AfterLock(who, r.status.value))
  }

  ghost function UnlockStep(s: State, m: nat, who: Caller): State
    requires Shape(s) && m < |s.mutexes|
  {
    var r := UnlockPass(s.mutexes[m], s.os);
    At(s.(mutexes := s.mutexes[m := r.mutex], os := r.k), AfterUnlock(who, r.status.value))
  }

  /**
   One byte of a copy, or its end. The slot is that of `ring.tail` or `ring.head` at this step; nobody
   else moves them during the copy (`QueueInvariant.OnlyOneCopies`), so it is the slot at the start.
   */
  ghost function CopyStep(s: State, who: Caller, i: nat): State
    requires Shape(s) && who != User && i <= s.cfg.messageSize
  {
    var t := s.os.current;
    if who == Sender then
      if i < s.cfg.messageSize then
        At(s.(ring := WriteByte(s.ring, i, s.buffers[t][i])), CopyPc(Sender, i + 1))
      else
        At(s.(ring := s.ring.(tail := Successor(s.ring.tail, s.cfg.capacity)), written := s.written + [s.buffers[t]]),
           UnlockPc(QUEUE_MUTEX, Sender))
    else
      if i < s.cfg.messageSize then
        var buffer: Message := s.buffers[t][i := ReadByte(s.ring, i)];
        At(s.(buffers := s.buffers[t := buffer]), CopyPc(Receiver, i + 1))
      else
        At(s.(ring := s.ring.(head := Successor(s.ring.head, s.cfg.capacity)), read := s.read + [s.buffers[t]]),
           UnlockPc(QUEUE_MUTEX, Receiver))
  }

  /** A step inside a call. */
  ghost function Proceed(s: State): State
    requires Shape(s)
  {
    match s.pcs[s.os.current]
    case App => s
    case WaitPc(k, who) => WaitStep(s, k, who)
    case PostPc(k, _) => PostStep(s, k)
    case LockPc(m, who) => LockStep(s, m, who)
    case UnlockPc(m, who) => UnlockStep(s, m, who)
    case CopyPc(who, i) => CopyStep(s, who, i)
    case SleepPc(w) => At(s.(os := EnterSleep(s.os, w)), App)
  }

  /** A step of the task's own code, up to the first critical section of the call it makes. */
  ghost function Call(s: State, op: Op): State
    requires Shape(s) && OpShape(s, op)
  {
    match op
    case Continue => s
    case CallWait(k) => At(s, WaitPc(k, User))
    case CallPost(k) => At(s, PostPc(k, User))
    case CallLock(m) => At(s, LockPc(m, User))
    case CallUnlock(m) => At(s, UnlockPc(m, User))
    case CallSend(message) => At(s.(buffers := s.buffers[s.os.current := message]), WaitPc(SPACES, Sender))
    case CallReceive(buffer) => At(s.(buffers := s.buffers[s.os.current := buffer]), WaitPc(ITEMS, Receiver))
    case CallSleep(ms) =>
      if ms == 0 then s.(os := s.os.(pending := true)) else At(s, SleepPc(WakeupTick(s.os, ms)))
    case CallYield => s.(os := s.os.(pending := true))
    case SetMask(on) => s.(os := s.os.(masked := on))
    case SetPreemption(enabled) => s.(os := s.os.(preemption := enabled, tickCount := 0))
  }

  /** The application tasks the search has already passed. */
  predicate Passed(current: nat, n: nat, h: Handler, t: nat) {
    match h
    case Inactive => false
    case Searching(offset) => Offset(current, n, t) < offset
    case Chosen(_) => true
  }

  ghost function PassedAndDue(os: Sched, h: Handler, now: nat): set<nat> {
    set t | IDLE < t < |os.tasks| && Passed(os.current, |os.tasks|, h, t) && IsDue(os.tasks[t], now)
  }

  ghost function SwitchStep(s: State): State
    requires s.os.current < |s.os.tasks|
  {
    match s.handler
    case Inactive => s
    case Searching(offset) =>
      var (os, h) := Look(s.os, offset);
      s.(os := os, handler := h)
    case Chosen(next) => s.(os := s.os.(current := next), handler := Inactive)
  }

  ghost function Apply(s: State, l: Label): State
    requires Shape(s) && Enabled(s, l)
  {
    match l
    case SvcStart => s.(os := s.os.(started := true))
    case SysTickIrq =>
      s.(os := Tick(s.os, s.cfg.slice),
         overlooked := s.overlooked + PassedAndDue(s.os, s.handler, (s.os.ticks + 1) % U32))
    case PendSvIrq => s.(os := BeginSwitch(s.os), handler := Searching(1), overlooked := {})
    case PendSvCode => SwitchStep(s)
    case TaskStep(op) => if op == Continue then Proceed(s) else Call(s, op)
  }

  // ---------------------------------------------------------------------------
  // Results of calls
  // ---------------------------------------------------------------------------

  datatype Result =
    | SemResult(sem: nat, semStatus: SemStatus)
    | MutexResult(mutex: nat, mutexStatus: MutexStatus)
    | QueueResult(who: Caller, queueStatus: QueueStatus)

  /** The status with which this step returns from the call the task made, if it does. */
  ghost function Returns(s: State): Option<Result>
    requires Shape(s)
  {
    match s.pcs[s.os.current]
    case WaitPc(k, who) =>
      (match WaitPass(s.sems[k], s.os).status
       case None => None
       case Some(st) =>
         if who == User then Some(SemResult(k, st))
         else if st == SemOk then None
         else Some(QueueResult(who, QueueSyncOperation)))
    case PostPc(k, who) =>
      var st := PostPass(s.sems[k], s.os).status.value;
      if who == User then Some(SemResult(k, st))
      else if IsRollback(k, who) || st != SemOk then Some(QueueResult(who, QueueSyncOperation))
      else Some(QueueResult(who, QueueOk))
    case LockPc(m, who) =>
      (match LockPass(s.mutexes[m], s.os).status
       case None => None
       case Some(st) => if who == User then Some(MutexResult(m, st)) else None)
    case UnlockPc(m, who) =>
      var st := UnlockPass(s.mutexes[m], s.os).status.value;
      if who == User then Some(MutexResult(m, st))
      else if st == MutexOk then None
      else Some(QueueResult(who, QueueSyncOperation))
    case _ => None
  }

  /** The post that returns the unit after a failed lock. */
  predicate IsRollback(k: nat, who: Caller) {
    (who == Sender && k == SPACES) || (who == Receiver && k == ITEMS)
  }

  // ---------------------------------------------------------------------------
  // Runs
  // ---------------------------------------------------------------------------

  /** Between `os_scheduler_start` and the first SVC: everything is idle and one task has been chosen. */
  ghost predicate Init(s: State) {
    && Shape(s)
    && (forall t :: 0 <= t < |s.pcs| ==> s.pcs[t] == App)
    && (exists os: Sched ::
         && os.current == IDLE && |os.tasks| == |s.os.tasks|
         && (forall t :: 0 <= t < |os.tasks| ==> os.tasks[t] == Tcb(Ready, 0))
         && os.running && !os.started && !os.pending && !os.masked && os.tickCount == 0
         && s.os == Dispatch(os))
    && s.handler == Inactive && s.overlooked == {}
    && s.ring.head == 0 && s.ring.tail == 0
    && s.sems[ITEMS] == Sem(0, s.cfg.capacity, {}, {}, IDLE)
    && s.sems[SPACES] == Sem(s.cfg.capacity, s.cfg.capacity, {}, {}, IDLE)
    && (forall k :: 0 <= k < |s.sems| ==>
         s.sems[k] == Sem(s.sems[k].count, s.sems[k].maximum, {}, {}, IDLE) && s.sems[k].count <= s.sems[k].maximum)
    && (forall m :: 0 <= m < |s.mutexes| ==> s.mutexes[m] == Mtx(false, NO_OWNER, {}))
    && s.written == [] && s.read == []
  }

  ghost predicate IsRun(states: seq<State>, labels: seq<Label>) {
    && |states| == |labels| + 1
    && forall i :: 0 <= i < |labels| ==> StepAt(states, labels, i)
  }

  /** `states[i + 1]` follows `states[i]` by `labels[i]`. */
  ghost predicate StepAt(states: seq<State>, labels: seq<Label>, i: nat) {
    i < |labels| && i + 1 < |states| && IsStep(states[i], labels[i], states[i + 1])
  }

  ghost predicate IsStep(s: State, l: Label, s': State) {
    Shape(s) && Enabled(s, l) && s' == Apply(s, l)
  }
}
