/** Facts about single steps that the theorems over runs share. */
module RunFacts {
  import opened Task
  import opened Scheduling
  import opened Semaphore
  import opened Mutex
  import opened System
  import opened CoreInvariant
  import opened QueueInvariant

  /** A run from an initial state; every theorem about runs is about these. */
  ghost predicate Execution(states: seq<State>, labels: seq<Label>) {
    IsRun(states, labels) && Init(states[0])
  }

  ghost predicate IsStepOf(s: State, l: Label, t: nat) {
    l.TaskStep? && s.os.current == t
  }

  /** The next critical section of the current task. */
  ghost predicate Continues(s: State, l: Label) {
    l == TaskStep(Continue) && s.os.current < |s.pcs|
  }

  predicate UsesSemaphore(pc: Pc, k: nat) {
    (pc.WaitPc? || pc.PostPc?) && pc.sem == k
  }

  predicate UsesMutex(pc: Pc, m: nat) {
    (pc.LockPc? || pc.UnlockPc?) && pc.mutex == m
  }

  lemma StateOfRun(states: seq<State>, labels: seq<Label>, i: nat)
    requires Execution(states, labels) && i < |labels|
    ensures CoreInv(states[i]) && CoreInv(states[i + 1])
    ensures IsStep(states[i], labels[i], states[i + 1])
    ensures |states[i].pcs| == |states[i + 1].pcs| && states[i].cfg == states[i + 1].cfg
    ensures |states[i].sems| == |states[i + 1].sems| && |states[i].mutexes| == |states[i + 1].mutexes|
  {
    CoreOfRun(states, labels, i);
    CoreOfRun(states, labels, i + 1);
    StepOfRun(states, labels, i, i + 1);
  }

  lemma CoreOfRun(states: seq<State>, labels: seq<Label>, i: nat)
    requires Execution(states, labels) && i < |states|
    ensures CoreInv(states[i])
  {
    EveryStateIsGood(states, labels, i);
  }

  lemma StepOfRun(states: seq<State>, labels: seq<Label>, i: nat, next: nat)
    requires IsRun(states, labels) && i < |labels| && next == i + 1
    ensures IsStep(states[i], labels[i], states[next])
    ensures |states[i].pcs| == |states[next].pcs| && states[i].cfg == states[next].cfg
    ensures |states[i].sems| == |states[next].sems| && |states[i].mutexes| == |states[next].mutexes|
  {
    assert StepAt(states, labels, i);
    StepKeepsSizes(states[i], labels[i]);
  }

  // ---------------------------------------------------------------------------
  // What a step leaves alone
  // ---------------------------------------------------------------------------

  /** The step changes no task's place and buffer but those of `t`. */
  ghost predicate OnlyMoves(s: State, s': State, t: nat) {
    && s'.cfg == s.cfg && |s'.sems| == |s.sems| && |s'.mutexes| == |s.mutexes|
    && |s'.pcs| == |s.pcs| == |s'.buffers| == |s.buffers|
    && forall u :: 0 <= u < |s.pcs| && u != t ==> s'.pcs[u] == s.pcs[u] && s'.buffers[u] == s.buffers[u]
  }

  lemma CallOnlyMoves(s: State, op: Op)
    requires Shape(s) && OpShape(s, op)
    ensures OnlyMoves(s, Call(s, op), s.os.current)
  {
  }

  lemma CallLeavesTable(s: State, op: Op)
    requires Shape(s) && OpShape(s, op)
    ensures Call(s, op).os.tasks == s.os.tasks && Call(s, op).os.current == s.os.current
    ensures Call(s, op).handler == s.handler && Call(s, op).os.ticks == s.os.ticks
  {
  }

  lemma SyncOnlyMoves(s: State, k: nat, m: nat, who: Caller)
    requires Shape(s)
    ensures k < |s.sems| ==>
      OnlyMoves(s, WaitStep(s, k, who), s.os.current) && OnlyMoves(s, PostStep(s, k), s.os.current)
    ensures m < |s.mutexes| ==>
      OnlyMoves(s, LockStep(s, m, who), s.os.current) && OnlyMoves(s, UnlockStep(s, m, who), s.os.current)
  {
  }

  lemma CopyOnlyMoves(s: State, who: Caller, i: nat)
    requires Shape(s) && who != User && i <= s.cfg.messageSize
    ensures OnlyMoves(s, CopyStep(s, who, i), s.os.current)
  {
  }

  lemma ProceedOnlyMoves(s: State)
    requires Shape(s)
    ensures OnlyMoves(s, Proceed(s), s.os.current)
  {
    assert PcShape(s.pcs[s.os.current], |s.sems|, |s.mutexes|, s.cfg.messageSize);
    match s.pcs[s.os.current] {
      case WaitPc(k, who) => SyncOnlyMoves(s, k, 0, who);
      case PostPc(k, who) => SyncOnlyMoves(s, k, 0, who);
      case LockPc(m, who) => SyncOnlyMoves(s, 0, m, who);
      case UnlockPc(m, who) => SyncOnlyMoves(s, 0, m, who);
      case CopyPc(who, i) => CopyOnlyMoves(s, who, i);
      case _ =>
    }
  }

  lemma StepOnlyMoves(s: State, l: Label)
    requires Shape(s) && Enabled(s, l)
    ensures OnlyMoves(s, Apply(s, l), s.os.current)
    ensures !l.TaskStep? ==> Apply(s, l).pcs == s.pcs && Apply(s, l).buffers == s.buffers
  {
    match l {
      case TaskStep(op) =>
        if op == Continue {
          ProceedOnlyMoves(s);
        } else {
          CallOnlyMoves(s, op);
        }
      case _ => InterruptMovesNobody(s, l);
    }
  }

  lemma StepKeepsSizes(s: State, l: Label)
    requires Shape(s) && Enabled(s, l)
    ensures |Apply(s, l).pcs| == |s.pcs| && Apply(s, l).cfg == s.cfg
    ensures |Apply(s, l).sems| == |s.sems| && |Apply(s, l).mutexes| == |s.mutexes|
  {
    StepOnlyMoves(s, l);
  }

  /** Only a task's own steps change where it is and what it has in its buffer. */
  lemma OthersStay(s: State, l: Label, t: nat)
    requires Shape(s) && Enabled(s, l) && t < |s.pcs| && !IsStepOf(s, l, t)
    ensures t < |Apply(s, l).pcs| && Apply(s, l).pcs[t] == s.pcs[t]
    ensures t < |Apply(s, l).buffers| && Apply(s, l).buffers[t] == s.buffers[t]
  {
    StepOnlyMoves(s, l);
  }

  /** A pass on a semaphore or a mutex changes task states and may request a switch, nothing else. */
  ghost predicate OnlySchedules(k: Sched, k': Sched) {
    && k' == k.(tasks := k'.tasks, pending := k'.pending)
    && |k'.tasks| == |k.tasks|
    && (k.pending ==> k'.pending)
  }

  lemma WaitOnlySchedules(q: Sem, k: Sched)
    ensures OnlySchedules(k, WaitPass(q, k).k)
  {
  }

  lemma PostOnlySchedules(q: Sem, k: Sched)
    requires q.last < |k.tasks|
    ensures OnlySchedules(k, PostPass(q, k).k)
  {
  }

  lemma LockOnlySchedules(m: Mtx, k: Sched)
    ensures OnlySchedules(k, LockPass(m, k).k)
  {
  }

  lemma UnlockOnlySchedules(m: Mtx, k: Sched)
    requires k.current < |k.tasks|
    ensures OnlySchedules(k, UnlockPass(m, k).k)
  {
  }

  lemma ProceedKeepsHandler(s: State)
    requires Shape(s)
    ensures Proceed(s).handler == s.handler && Proceed(s).overlooked == s.overlooked
  {
  }

  /** No pass touches a task that is neither blocked nor the caller. */
  ghost predicate Leaves(k: Sched, k': Sched, t: nat) {
    t < |k.tasks| && t < |k'.tasks| && k'.tasks[t] == k.tasks[t]
  }

  lemma SemaphorePassesLeave(k: Sched, q: Sem, t: nat)
    requires k.current < |k.tasks| && q.last < |k.tasks|
    requires t < |k.tasks| && t != k.current && k.tasks[t].state != Blocked
    ensures Leaves(k, WaitPass(q, k).k, t) && Leaves(k, PostPass(q, k).k, t)
  {
  }

  lemma MutexPassesLeave(k: Sched, m: Mtx, t: nat)
    requires k.current < |k.tasks|
    requires t < |k.tasks| && t != k.current && k.tasks[t].state != Blocked
    ensures Leaves(k, LockPass(m, k).k, t) && Leaves(k, UnlockPass(m, k).k, t)
  {
  }

  lemma ProceedLeaves(s: State, t: nat)
    requires Shape(s) && t < |s.os.tasks| && t != s.os.current && s.os.tasks[t].state != Blocked
    ensures Leaves(s.os, Proceed(s).os, t)
  {
    assert PcShape(s.pcs[s.os.current], |s.sems|, |s.mutexes|, s.cfg.messageSize);
    match s.pcs[s.os.current] {
      case WaitPc(k, _) => SemaphorePassesLeave(s.os, s.sems[k], t);
      case PostPc(k, _) => SemaphorePassesLeave(s.os, s.sems[k], t);
      case LockPc(m, _) => MutexPassesLeave(s.os, s.mutexes[m], t);
      case UnlockPc(m, _) => MutexPassesLeave(s.os, s.mutexes[m], t);
      case _ =>
    }
  }

  /** Inside a call only the entry into a sleep changes more of the scheduler than task states. */
  lemma ProceedOnlySchedules(s: State)
    requires Shape(s) && !s.pcs[s.os.current].SleepPc?
    ensures OnlySchedules(s.os, Proceed(s).os)
  {
    assert PcShape(s.pcs[s.os.current], |s.sems|, |s.mutexes|, s.cfg.messageSize);
    match s.pcs[s.os.current] {
      case WaitPc(k, _) => WaitOnlySchedules(s.sems[k], s.os);
      case PostPc(k, _) => PostOnlySchedules(s.sems[k], s.os);
      case LockPc(m, _) => LockOnlySchedules(s.mutexes[m], s.os);
      case UnlockPc(m, _) => UnlockOnlySchedules(s.mutexes[m], s.os);
      case _ =>
    }
  }

  /** No step inside a call moves the clock, the current task or the flags other than PENDSVSET. */
  ghost predicate KeepsFlags(k: Sched, k': Sched) {
    && k'.ticks == k.ticks && k'.current == k.current && |k'.tasks| == |k.tasks|
    && k'.running == k.running && k'.started == k.started && k'.preemption == k.preemption && k'.masked == k.masked
    && (k.pending ==> k'.pending)
    && (k'.tickCount == k.tickCount || (k'.tickCount == 0 && k'.pending))
  }

  lemma ProceedKeepsFlags(s: State)
    requires Shape(s)
    ensures KeepsFlags(s.os, Proceed(s).os)
  {
    if !s.pcs[s.os.current].SleepPc? {
      ProceedOnlySchedules(s);
    }
  }

  lemma StepKeepsClock(s: State, l: Label)
    requires Shape(s) && Enabled(s, l)
    ensures Apply(s, l).os.ticks == s.os.ticks + One(l == SysTickIrq)
    ensures |Apply(s, l).os.tasks| == |s.os.tasks|
    ensures l != PendSvCode ==> Apply(s, l).os.current == s.os.current
  {
    match l {
      case TaskStep(op) =>
        if op == Continue {
          ProceedKeepsFlags(s);
        } else {
          CallLeavesTable(s, op);
        }
      case _ => InterruptKeepsClock(s, l);
    }
  }

  lemma InterruptKeepsClock(s: State, l: Label)
    requires Shape(s) && Enabled(s, l) && !l.TaskStep?
    ensures Apply(s, l).os.ticks == s.os.ticks + One(l == SysTickIrq)
    ensures |Apply(s, l).os.tasks| == |s.os.tasks|
    ensures l != PendSvCode ==> Apply(s, l).os.current == s.os.current
  {
  }

  /** A semaphore changes only in a wait or a post on it. */
  lemma SemaphoresStay(s: State, l: Label, k: nat)
    requires Shape(s) && Enabled(s, l) && k < |s.sems|
    requires !(Continues(s, l) && UsesSemaphore(s.pcs[s.os.current], k))
    ensures k < |Apply(s, l).sems| && Apply(s, l).sems[k] == s.sems[k]
  {
  }

  /** A mutex changes only in a lock or an unlock of it. */
  lemma MutexesStay(s: State, l: Label, m: nat)
    requires Shape(s) && Enabled(s, l) && m < |s.mutexes|
    requires !(Continues(s, l) && UsesMutex(s.pcs[s.os.current], m))
    ensures m < |Apply(s, l).mutexes| && Apply(s, l).mutexes[m] == s.mutexes[m]
  {
  }

  // ---------------------------------------------------------------------------
  // The control flow of the calls
  // ---------------------------------------------------------------------------

  /** Where a task at `pc` can be after its next step inside the call. */
  predicate Follows(pc: Pc, pc': Pc, messageSize: nat) {
    match pc
    case App => false
    case SleepPc(_) => pc' == App
    case WaitPc(_, who) => pc' == pc || pc' == App || (who != User && pc' == LockPc(QUEUE_MUTEX, who))
    case PostPc(_, _) => pc' == App
    case LockPc(_, who) =>
      pc' == pc
      || (if who == User then pc' == App
          else pc' == CopyPc(who, 0) || pc' == PostPc(if who == Sender then SPACES else ITEMS, who))
    case CopyPc(who, i) => pc' == if i < messageSize then CopyPc(who, i + 1) else UnlockPc(QUEUE_MUTEX, who)
    case UnlockPc(_, who) =>
      pc' == if who == User then App else PostPc(if who == Sender then ITEMS else SPACES, who)
  }

  /** Once past its wait and its lock, a send or a receive goes straight through to its post. */
  lemma ProceedFollows(s: State)
    requires CoreInv(s) && Runs(s) && s.pcs[s.os.current] != App
    ensures |Proceed(s).pcs| == |s.pcs|
    ensures Follows(s.pcs[s.os.current], Proceed(s).pcs[s.os.current], s.cfg.messageSize)
  {
  }
}
