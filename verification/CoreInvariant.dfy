/**
 What every step keeps: task states, waiting masks, granted masks and owners tell one
 consistent story. The queue's contents are the subject of QueueInvariant.
 */
module CoreInvariant {
  import opened RoundRobin
  import opened Waiters
  import opened Task
  import opened Scheduling
  import opened Semaphore
  import opened Mutex
  import opened MessageQueue
  import opened System

  // ---------------------------------------------------------------------------
  // The invariant
  // ---------------------------------------------------------------------------

  /**
   Outside PendSV_Handler only the current task can be RUNNING, and it is whenever it can
   execute; inside, no task is until one is chosen.
   */
  ghost predicate SchedulerInv(os: Sched, h: Handler, slice: nat) {
    && os.current < |os.tasks|
    && (forall t :: 0 <= t < |os.tasks| ==> os.tasks[t].state in {Ready, Running, Blocked, Sleeping})
    && os.tasks[IDLE].state in {Ready, Running}
    && os.running && os.tickCount < slice
    && (!os.started ==> !os.pending && !os.masked && h.Inactive?)
    && (os.masked ==> h.Inactive?)
    && match h
       case Inactive =>
         && (forall t :: 0 <= t < |os.tasks| && t != os.current ==> os.tasks[t].state != Running)
         && (os.masked || !os.pending ==> os.tasks[os.current].state == Running)
       case Searching(offset) =>
         && 1 <= offset <= |os.tasks| + 1
         && (forall t :: 0 <= t < |os.tasks| ==> os.tasks[t].state != Running)
       case Chosen(next) =>
         && next < |os.tasks|
         && (forall t :: 0 <= t < |os.tasks| ==> (os.tasks[t].state == Running <==> t == next))
  }

  /** The object inside which a task at `pc` is blocked holds its waiting marker. */
  ghost predicate Waits(t: nat, pc: Pc, sems: seq<Sem>, mutexes: seq<Mtx>) {
    match pc
    case WaitPc(k, _) => k < |sems| && t in sems[k].waiting
    case LockPc(m, _) => m < |mutexes| && t in mutexes[m].waiting && mutexes[m].owner != t
    case _ => false
  }

  ghost predicate TaskInv(t: nat, state: TaskState, pc: Pc, sems: seq<Sem>, mutexes: seq<Mtx>) {
    && (state == Blocked <==> Waits(t, pc, sems, mutexes))
    && (state == Sleeping ==> pc == App)
  }

  /** Task `t` is inside a wait on semaphore `k`. */
  ghost predicate InWait(pcs: seq<Pc>, t: nat, k: nat) {
    t < |pcs| && pcs[t].WaitPc? && pcs[t].sem == k
  }

  /** Task `t` is inside a lock of mutex `m`. */
  ghost predicate InLock(pcs: seq<Pc>, t: nat, m: nat) {
    t < |pcs| && pcs[t].LockPc? && pcs[t].mutex == m
  }

  ghost predicate SemInv(k: nat, q: Sem, pcs: seq<Pc>) {
    && q.count <= q.maximum
    && (q.count > 0 ==> q.waiting == {})
    && q.waiting !! q.granted
    && (forall t :: t in q.waiting || t in q.granted ==> InWait(pcs, t, k))
  }

  ghost predicate MutexInv(m: nat, x: Mtx, pcs: seq<Pc>) {
    && (x.locked <==> x.owner != NO_OWNER)
    && (x.locked ==> IDLE < x.owner < |pcs|)
    && (!x.locked ==> x.waiting == {})
    && (forall t :: t in x.waiting ==> InLock(pcs, t, m))
  }

  /** The program points at which a task works on the ring. */
  predicate InCriticalSection(pc: Pc) {
    pc.CopyPc? || (pc.UnlockPc? && pc.mutex == QUEUE_MUTEX)
  }

  /** Exactly the owner works on the ring, unless it was handed the mutex and has yet to resume. */
  ghost predicate RingOwnerInv(x: Mtx, pcs: seq<Pc>) {
    && (forall t :: 0 <= t < |pcs| && InCriticalSection(pcs[t]) ==> x.locked && x.owner == t)
    && (x.locked && x.owner < |pcs| ==>
          InCriticalSection(pcs[x.owner]) || (InLock(pcs, x.owner, QUEUE_MUTEX) && x.owner in x.waiting))
  }

  ghost predicate AllTasks(s: State) {
    |s.pcs| <= |s.os.tasks|
    && forall t :: 0 <= t < |s.pcs| ==> TaskInv(t, s.os.tasks[t].state, s.pcs[t], s.sems, s.mutexes)
  }

  ghost predicate AllSems(sems: seq<Sem>, pcs: seq<Pc>) {
    forall k :: 0 <= k < |sems| ==> SemInv(k, sems[k], pcs)
  }

  ghost predicate AllMutexes(mutexes: seq<Mtx>, pcs: seq<Pc>) {
    forall m :: 0 <= m < |mutexes| ==> MutexInv(m, mutexes[m], pcs)
  }

  ghost predicate CoreInv(s: State) {
    && Shape(s)
    && SchedulerInv(s.os, s.handler, s.cfg.slice)
    && s.pcs[IDLE] == App
    && (s.os.masked ==> !s.pcs[s.os.current].SleepPc?)
    && AllTasks(s)
    && AllSems(s.sems, s.pcs)
    && AllMutexes(s.mutexes, s.pcs)
    && RingOwnerInv(s.mutexes[QUEUE_MUTEX], s.pcs)
  }

  // ---------------------------------------------------------------------------
  // Interrupts
  // ---------------------------------------------------------------------------

  lemma InterruptMovesNobody(s: State, l: Label)
    requires Shape(s) && Enabled(s, l) && !l.TaskStep?
    ensures var s' := Apply(s, l);
      s' == s.(os := s'.os, handler := s'.handler, overlooked := s'.overlooked)
  {
  }

  lemma InitIsGood(s: State)
    requires Init(s)
    ensures CoreInv(s)
  {
  }

  lemma TickKeepsCore(s: State)
    requires CoreInv(s) && !s.os.masked
    ensures CoreInv(Apply(s, SysTickIrq))
  {
    TickKeepsScheduler(s.os, s.handler, s.cfg.slice);
    TickKeepsTasks(s);
  }

  /** A tick only makes sleepers READY. */
  lemma TickKeepsScheduler(os: Sched, h: Handler, slice: nat)
    requires SchedulerInv(os, h, slice) && !os.masked
    ensures SchedulerInv(Tick(os, slice), h, slice)
    ensures |Tick(os, slice).tasks| == |os.tasks|
    ensures Tick(os, slice).current == os.current && !Tick(os, slice).masked
  {
  }

  lemma TickKeepsTasks(s: State)
    requires CoreInv(s) && !s.os.masked
    ensures AllTasks(s.(os := Tick(s.os, s.cfg.slice)))
  {
  }

  lemma SwitchBeginsGood(s: State)
    requires CoreInv(s) && Enabled(s, PendSvIrq)
    ensures CoreInv(Apply(s, PendSvIrq))
  {
  }

  /** A round of the search, or its conclusion, whatever ticks came before it. */
  lemma SwitchKeepsCore(s: State)
    requires CoreInv(s) && !s.handler.Inactive?
    ensures CoreInv(SwitchStep(s))
  {
  }

  // ---------------------------------------------------------------------------
  // A task between two calls
  // ---------------------------------------------------------------------------

  /** The current task can execute. */
  ghost predicate Runs(s: State) {
    && Shape(s) && s.os.started && s.os.current != IDLE && s.handler.Inactive? && (!s.os.pending || s.os.masked)
  }

  /** A task in no waiting mask and no granted mask may move freely outside critical sections. */
  lemma MoveKeepsCore(s: State, pc: Pc)
    requires CoreInv(s) && Runs(s)
    requires PcShape(pc, |s.sems|, |s.mutexes|, s.cfg.messageSize)
    requires !s.pcs[s.os.current].WaitPc? && !s.pcs[s.os.current].LockPc?
    requires InCriticalSection(pc) <==> InCriticalSection(s.pcs[s.os.current])
    requires pc.SleepPc? ==> !s.os.masked
    ensures CoreInv(At(s, pc))
  {
  }

  /** Calls change, beside the program point, only flags that keep a RUNNING task running. */
  lemma CallKeepsCore(s: State, op: Op)
    requires CoreInv(s) && Runs(s) && OpShape(s, op) && s.pcs[s.os.current] == App
    ensures CoreInv(Call(s, op))
  {
    match op {
      case CallSend(message) =>
        var filled := s.(buffers := s.buffers[s.os.current := message]);
        MoveKeepsCore(filled, WaitPc(SPACES, Sender));
      case CallReceive(buffer) =>
        var filled := s.(buffers := s.buffers[s.os.current := buffer]);
        MoveKeepsCore(filled, WaitPc(ITEMS, Receiver));
      case CallSleep(ms) =>
        if ms != 0 {
          MoveKeepsCore(s, SleepPc(WakeupTick(s.os, ms)));
        }
      case CallWait(k) => MoveKeepsCore(s, WaitPc(k, User));
      case CallPost(k) => MoveKeepsCore(s, PostPc(k, User));
      case CallLock(m) => MoveKeepsCore(s, LockPc(m, User));
      case CallUnlock(m) => MoveKeepsCore(s, UnlockPc(m, User));
      case _ =>
    }
  }

  lemma SleepKeepsCore(s: State, wakeup: nat)
    requires CoreInv(s) && Runs(s) && s.pcs[s.os.current] == SleepPc(wakeup)
    ensures CoreInv(At(s.(os := EnterSleep(s.os, wakeup)), App))
  {
  }

  lemma CopyKeepsCore(s: State, who: Caller, i: nat)
    requires CoreInv(s) && Runs(s) && s.pcs[s.os.current] == CopyPc(who, i)
    ensures CoreInv(CopyStep(s, who, i))
  {
    assert PcShape(s.pcs[s.os.current], |s.sems|, |s.mutexes|, s.cfg.messageSize);
    var t, size := s.os.current, s.cfg.messageSize;
    if i < size {
      if who == Sender {
        MoveKeepsCore(s.(ring := WriteByte(s.ring, i, s.buffers[t][i])), CopyPc(Sender, i + 1));
      } else {
        var buffer: Message := s.buffers[t][i := ReadByte(s.ring, i)];
        MoveKeepsCore(s.(buffers := s.buffers[t := buffer]), CopyPc(Receiver, i + 1));
      }
    } else if who == Sender {
      var moved := s.ring.(tail := Successor(s.ring.tail, s.cfg.capacity));
      MoveKeepsCore(s.(ring := moved, written := s.written + [s.buffers[t]]), UnlockPc(QUEUE_MUTEX, Sender));
    } else {
      var moved := s.ring.(head := Successor(s.ring.head, s.cfg.capacity));
      MoveKeepsCore(s.(ring := moved, read := s.read + [s.buffers[t]]), UnlockPc(QUEUE_MUTEX, Receiver));
    }
  }

  // ---------------------------------------------------------------------------
  // Semaphores
  // ---------------------------------------------------------------------------

  lemma WaitPassKeepsScheduler(q: Sem, os: Sched, slice: nat)
    requires SchedulerInv(os, Inactive, slice) && os.started && os.current != IDLE
    ensures SchedulerInv(WaitPass(q, os).k, Inactive, slice)
    ensures |WaitPass(q, os).k.tasks| == |os.tasks| && WaitPass(q, os).k.masked == os.masked
    ensures WaitPass(q, os).k.current == os.current && WaitPass(q, os).sem.last == q.last
  {
  }

  lemma WaitKeepsShape(s: State, k: nat, who: Caller)
    requires Shape(s) && k < |s.sems| && s.pcs[s.os.current] == WaitPc(k, who)
    ensures Shape(WaitStep(s, k, who))
  {
    assert PcShape(s.pcs[s.os.current], |s.sems|, |s.mutexes|, s.cfg.messageSize);
  }

  /** Neither inside the wait nor after it does the caller work on the ring. */
  lemma WaitKeepsOwner(s: State, k: nat, who: Caller)
    requires CoreInv(s) && s.pcs[s.os.current] == WaitPc(k, who) && k < |s.sems|
    ensures var s' := WaitStep(s, k, who);
      && s'.mutexes == s.mutexes && RingOwnerInv(s'.mutexes[QUEUE_MUTEX], s'.pcs)
  {
  }

  lemma WaitKeepsTasks(s: State, k: nat, who: Caller)
    requires CoreInv(s) && Runs(s) && s.pcs[s.os.current] == WaitPc(k, who)
    ensures AllTasks(WaitStep(s, k, who))
  {
  }

  lemma WaitKeepsSems(s: State, k: nat, who: Caller)
    requires CoreInv(s) && Runs(s) && s.pcs[s.os.current] == WaitPc(k, who)
    ensures AllSems(WaitStep(s, k, who).sems, WaitStep(s, k, who).pcs)
  {
  }

  lemma WaitKeepsMutexes(s: State, k: nat, who: Caller)
    requires CoreInv(s) && Runs(s) && s.pcs[s.os.current] == WaitPc(k, who)
    ensures AllMutexes(WaitStep(s, k, who).mutexes, WaitStep(s, k, who).pcs)
  {
  }

  lemma WaitKeepsCore(s: State, k: nat, who: Caller)
    requires CoreInv(s) && Runs(s) && s.pcs[s.os.current] == WaitPc(k, who)
    ensures CoreInv(WaitStep(s, k, who))
  {
    WaitPassKeepsScheduler(s.sems[k], s.os, s.cfg.slice);
    WaitKeepsShape(s, k, who);
    WaitKeepsOwner(s, k, who);
    WaitKeepsTasks(s, k, who);
    WaitKeepsSems(s, k, who);
    WaitKeepsMutexes(s, k, who);
  }

  /** In a good state every marker is genuine: nothing is stale. */
  lemma WaitersAreBlocked(s: State, k: nat)
    requires CoreInv(s) && k < |s.sems|
    ensures forall t :: t in s.sems[k].waiting ==> IDLE < t < |s.os.tasks| && s.os.tasks[t].state == Blocked
  {
  }

  /** A post can only make a BLOCKED task READY. */
  lemma PostPassKeepsScheduler(q: Sem, os: Sched, slice: nat)
    requires SchedulerInv(os, Inactive, slice) && q.last < |os.tasks|
    ensures SchedulerInv(PostPass(q, os).k, Inactive, slice)
    ensures PostPass(q, os).k == os.(tasks := PostPass(q, os).k.tasks)
    ensures |PostPass(q, os).k.tasks| == |os.tasks| && PostPass(q, os).sem.last < |os.tasks|
  {
  }

  lemma PostKeepsTasks(s: State, k: nat, who: Caller)
    requires CoreInv(s) && Runs(s) && s.pcs[s.os.current] == PostPc(k, who)
    ensures AllTasks(PostStep(s, k))
  {
  }

  lemma PostKeepsSems(s: State, k: nat, who: Caller)
    requires CoreInv(s) && Runs(s) && s.pcs[s.os.current] == PostPc(k, who)
    ensures AllSems(PostStep(s, k).sems, PostStep(s, k).pcs)
  {
    var s' := PostStep(s, k);
    WaitersAreBlocked(s, k);
    PostPassKeepsSem(k, s.sems[k], s.os, s.pcs);
    forall j | 0 <= j < |s.sems| ensures SemInv(j, s'.sems[j], s'.pcs) {
      assert SemInv(j, s.sems[j], s.pcs);
    }
  }

  lemma PostPassKeepsSem(k: nat, q: Sem, os: Sched, pcs: seq<Pc>)
    requires q.last < |os.tasks| && os.current < |pcs| && pcs[os.current].PostPc? && SemInv(k, q, pcs)
    requires forall t :: t in q.waiting ==> IDLE < t < |os.tasks| && os.tasks[t].state == Blocked
    ensures SemInv(k, PostPass(q, os).sem, pcs[os.current := App])
  {
    NothingIsStale(q.waiting, os.tasks, q.last);
  }

  lemma PostKeepsMutexes(s: State, k: nat, who: Caller)
    requires CoreInv(s) && Runs(s) && s.pcs[s.os.current] == PostPc(k, who)
    ensures AllMutexes(PostStep(s, k).mutexes, PostStep(s, k).pcs)
  {
  }

  lemma PostKeepsCore(s: State, k: nat, who: Caller)
    requires CoreInv(s) && Runs(s) && s.pcs[s.os.current] == PostPc(k, who)
    ensures CoreInv(PostStep(s, k))
  {
    PostPassKeepsScheduler(s.sems[k], s.os, s.cfg.slice);
    PostKeepsTasks(s, k, who);
    PostKeepsSems(s, k, who);
    PostKeepsMutexes(s, k, who);
    WaitersAreBlocked(s, k);
    NothingIsStale(s.sems[k].waiting, s.os.tasks, s.sems[k].last);
  }

  // ---------------------------------------------------------------------------
  // Mutexes
  // ---------------------------------------------------------------------------

  lemma LockKeepsTasks(s: State, m: nat, who: Caller)
    requires CoreInv(s) && Runs(s) && s.pcs[s.os.current] == LockPc(m, who)
    ensures AllTasks(LockStep(s, m, who))
  {
    LockPassChangesCaller(s.mutexes[m], s.os);
    LockKeepsTasksParts(s, m, LockStep(s, m, who));
  }

  const BLOCKED_TASK: Tcb := Tcb(Blocked, 0)

  /** A pass changes the caller's state and marker only, and blocks it exactly when it does not return. */
  lemma LockPassChangesCaller(x: Mtx, os: Sched)
    requires os.current < |os.tasks| && os.tasks[os.current].state == Running && os.current != IDLE
    ensures var t, r := os.current, LockPass(x, os);
      && r.k.tasks == (if r.status == None then os.tasks[t := BLOCKED_TASK] else os.tasks)
      && (r.status == None <==> x.locked && x.owner != t && !os.masked)
      && r.mutex.waiting == (if r.status == None then x.waiting + {t}
                             else if r.status == Some(MutexOk) then x.waiting - {t} else x.waiting)
      && r.mutex.owner == (if !x.locked then t else x.owner)
  {
  }

  lemma LockKeepsTasksParts(s: State, m: nat, s': State)
    requires AllTasks(s) && s.os.current < |s.pcs| && m < |s.mutexes| == |s'.mutexes|
    requires s.pcs[s.os.current].LockPc? && s.pcs[s.os.current].mutex == m
    requires s.os.current < |s.os.tasks| && s.os.tasks[s.os.current].state == Running
    requires s'.sems == s.sems && |s'.os.tasks| == |s.os.tasks| && |s'.pcs| == |s.pcs|
    requires forall u :: 0 <= u < |s.pcs| && u != s.os.current ==>
      s'.pcs[u] == s.pcs[u] && s'.os.tasks[u] == s.os.tasks[u]
    requires forall n :: 0 <= n < |s.mutexes| && n != m ==> s'.mutexes[n] == s.mutexes[n]
    requires forall u :: u != s.os.current ==> (u in s'.mutexes[m].waiting <==> u in s.mutexes[m].waiting)
    requires s.mutexes[m].locked ==> s'.mutexes[m].owner == s.mutexes[m].owner
    requires !s.mutexes[m].locked ==> s.mutexes[m].waiting == {}
    requires TaskInv(s.os.current, s'.os.tasks[s.os.current].state, s'.pcs[s.os.current], s'.sems, s'.mutexes)
    ensures AllTasks(s')
  {
    forall u | 0 <= u < |s.pcs| ensures TaskInv(u, s'.os.tasks[u].state, s'.pcs[u], s'.sems, s'.mutexes) {
      assert TaskInv(u, s.os.tasks[u].state, s.pcs[u], s.sems, s.mutexes);
    }
  }

  lemma LockKeepsSems(s: State, m: nat, who: Caller)
    requires CoreInv(s) && Runs(s) && s.pcs[s.os.current] == LockPc(m, who)
    ensures AllSems(LockStep(s, m, who).sems, LockStep(s, m, who).pcs)
  {
  }

  lemma LockKeepsMutexes(s: State, m: nat, who: Caller)
    requires CoreInv(s) && Runs(s) && s.pcs[s.os.current] == LockPc(m, who)
    ensures AllMutexes(LockStep(s, m, who).mutexes, LockStep(s, m, who).pcs)
  {
  }

  lemma LockKeepsOwner(s: State, m: nat, who: Caller)
    requires CoreInv(s) && Runs(s) && s.pcs[s.os.current] == LockPc(m, who)
    ensures RingOwnerInv(LockStep(s, m, who).mutexes[QUEUE_MUTEX], LockStep(s, m, who).pcs)
  {
  }

  lemma LockPassKeepsScheduler(x: Mtx, os: Sched, slice: nat)
    requires SchedulerInv(os, Inactive, slice) && os.started && os.current != IDLE
    ensures SchedulerInv(LockPass(x, os).k, Inactive, slice)
    ensures |LockPass(x, os).k.tasks| == |os.tasks| && LockPass(x, os).k.masked == os.masked
  {
  }

  lemma LockKeepsShape(s: State, m: nat, who: Caller)
    requires Shape(s) && m < |s.mutexes| && s.pcs[s.os.current] == LockPc(m, who)
    ensures Shape(LockStep(s, m, who))
  {
    assert PcShape(s.pcs[s.os.current], |s.sems|, |s.mutexes|, s.cfg.messageSize);
  }

  lemma LockKeepsScheduler(s: State, m: nat, who: Caller)
    requires CoreInv(s) && Runs(s) && s.pcs[s.os.current] == LockPc(m, who)
    ensures Shape(LockStep(s, m, who)) && SchedulerInv(LockStep(s, m, who).os, s.handler, s.cfg.slice)
  {
    LockPassKeepsScheduler(s.mutexes[m], s.os, s.cfg.slice);
    LockKeepsShape(s, m, who);
  }

  lemma LockKeepsCore(s: State, m: nat, who: Caller)
    requires CoreInv(s) && Runs(s) && s.pcs[s.os.current] == LockPc(m, who)
    ensures CoreInv(LockStep(s, m, who))
  {
    LockKeepsTasks(s, m, who);
    LockKeepsSems(s, m, who);
    LockKeepsMutexes(s, m, who);
    LockKeepsOwner(s, m, who);
    LockKeepsScheduler(s, m, who);
  }

  /**
   Every marker but the owner's is genuine. The owner is marked only between its handoff and
   its return from the lock.
   */
  lemma LockersAreBlocked(s: State, m: nat)
    requires CoreInv(s) && m < |s.mutexes|
    ensures forall t :: t in s.mutexes[m].waiting && t != s.mutexes[m].owner ==>
      IDLE < t < |s.os.tasks| && s.os.tasks[t].state == Blocked
    ensures s.mutexes[m].owner in s.mutexes[m].waiting ==> InLock(s.pcs, s.mutexes[m].owner, m)
  {
    assert MutexInv(m, s.mutexes[m], s.pcs);
    forall t | t in s.mutexes[m].waiting && t != s.mutexes[m].owner
      ensures IDLE < t < |s.os.tasks| && s.os.tasks[t].state == Blocked
    {
      assert InLock(s.pcs, t, m);
      assert TaskInv(t, s.os.tasks[t].state, s.pcs[t], s.sems, s.mutexes);
    }
  }

  lemma UnlockKeepsTasks(s: State, m: nat, who: Caller)
    requires CoreInv(s) && Runs(s) && s.pcs[s.os.current] == UnlockPc(m, who)
    ensures AllTasks(UnlockStep(s, m, who))
  {
    UnlockKeepsSizes(s, m, who);
    EveryTaskIsGood(s, UnlockStep(s, m, who), m, who);
  }

  lemma EveryTaskIsGood(s: State, s': State, m: nat, who: Caller)
    requires CoreInv(s) && Runs(s) && s.pcs[s.os.current] == UnlockPc(m, who) && s' == UnlockStep(s, m, who)
    requires |s'.pcs| == |s.pcs| == |s'.os.tasks|
    ensures AllTasks(s')
  {
    forall u | 0 <= u < |s'.pcs| ensures TaskInv(u, s'.os.tasks[u].state, s'.pcs[u], s'.sems, s'.mutexes) {
      UnlockKeepsTask(s, m, who, u);
    }
  }

  lemma UnlockKeepsSizes(s: State, m: nat, who: Caller)
    requires Shape(s) && m < |s.mutexes|
    ensures |UnlockStep(s, m, who).pcs| == |s.pcs| == |UnlockStep(s, m, who).os.tasks|
  {
  }

  ghost predicate TaskIsGood(s: State, u: nat) {
    u < |s.pcs| && u < |s.os.tasks| && TaskInv(u, s.os.tasks[u].state, s.pcs[u], s.sems, s.mutexes)
  }

  lemma UnlockKeepsTask(s: State, m: nat, who: Caller, u: nat)
    requires CoreInv(s) && Runs(s) && s.pcs[s.os.current] == UnlockPc(m, who) && u < |s.pcs|
    ensures TaskIsGood(UnlockStep(s, m, who), u)
  {
  }

  lemma UnlockKeepsSems(s: State, m: nat, who: Caller)
    requires CoreInv(s) && Runs(s) && s.pcs[s.os.current] == UnlockPc(m, who)
    ensures AllSems(UnlockStep(s, m, who).sems, UnlockStep(s, m, who).pcs)
  {
  }

  lemma UnlockKeepsMutexes(s: State, m: nat, who: Caller)
    requires CoreInv(s) && Runs(s) && s.pcs[s.os.current] == UnlockPc(m, who)
    ensures AllMutexes(UnlockStep(s, m, who).mutexes, UnlockStep(s, m, who).pcs)
  {
    var s' := UnlockStep(s, m, who);
    var x := s.mutexes[m];
    if x.locked && x.owner == s.os.current {
      LockersAreBlocked(s, m);
      NothingIsStale(x.waiting, s.os.tasks, s.os.current);
    }
    forall n | 0 <= n < |s.mutexes| ensures MutexInv(n, s'.mutexes[n], s'.pcs) {
      assert MutexInv(n, s.mutexes[n], s.pcs);
    }
  }

  lemma UnlockKeepsOwner(s: State, m: nat, who: Caller)
    requires CoreInv(s) && Runs(s) && s.pcs[s.os.current] == UnlockPc(m, who)
    ensures RingOwnerInv(UnlockStep(s, m, who).mutexes[QUEUE_MUTEX], UnlockStep(s, m, who).pcs)
  {
  }

  /** Unlocking can only make a BLOCKED task READY. */
  lemma UnlockKeepsScheduler(x: Mtx, os: Sched, h: Handler, slice: nat)
    requires SchedulerInv(os, h, slice)
    ensures SchedulerInv(UnlockPass(x, os).k, h, slice)
    ensures |UnlockPass(x, os).k.tasks| == |os.tasks|
    ensures UnlockPass(x, os).k == os.(tasks := UnlockPass(x, os).k.tasks)
  {
  }

  lemma UnlockKeepsCore(s: State, m: nat, who: Caller)
    requires CoreInv(s) && Runs(s) && s.pcs[s.os.current] == UnlockPc(m, who)
    ensures CoreInv(UnlockStep(s, m, who))
  {
    UnlockKeepsTasks(s, m, who);
    UnlockKeepsSems(s, m, who);
    UnlockKeepsMutexes(s, m, who);
    UnlockKeepsOwner(s, m, who);
    UnlockKeepsScheduler(s.mutexes[m], s.os, s.handler, s.cfg.slice);
  }

  // ---------------------------------------------------------------------------
  // Every step
  // ---------------------------------------------------------------------------

  lemma ProceedKeepsCore(s: State)
    requires CoreInv(s) && Runs(s) && s.pcs[s.os.current] != App
    ensures CoreInv(Proceed(s))
  {
    match s.pcs[s.os.current] {
      case WaitPc(k, who) => WaitKeepsCore(s, k, who);
      case PostPc(k, who) => PostKeepsCore(s, k, who);
      case LockPc(m, who) => LockKeepsCore(s, m, who);
      case UnlockPc(m, who) => UnlockKeepsCore(s, m, who);
      case CopyPc(who, i) => CopyKeepsCore(s, who, i);
      case SleepPc(w) => SleepKeepsCore(s, w);
    }
  }

  lemma StepKeepsCore(s: State, l: Label)
    requires CoreInv(s) && Enabled(s, l)
    ensures CoreInv(Apply(s, l))
  {
    match l {
      case SvcStart =>
        assert AllTasks(s);
      case SysTickIrq => TickKeepsCore(s);
      case PendSvIrq => SwitchBeginsGood(s);
      case PendSvCode => SwitchKeepsCore(s);
      case TaskStep(op) =>
        if op == Continue {
          ProceedKeepsCore(s);
        } else {
          CallKeepsCore(s, op);
        }
    }
  }
}
