/**
 When a task loses the processor: every request of a switch has one of six causes, and a time
 slice, once begun, is granted in full.
 */
module Preemption {
  import opened RoundRobin
  import opened Waiters
  import opened Scheduling
  import opened Semaphore
  import opened Mutex
  import opened System
  import opened CoreInvariant
  import opened QueueInvariant
  import opened RunFacts
  import opened SchedulerTheorems

  // ---------------------------------------------------------------------------
  // Why a switch is requested
  // ---------------------------------------------------------------------------

  /** The step leaves PendSV pending that was not pending before. */
  ghost predicate Requests(s: State, l: Label)
    requires Shape(s) && Enabled(s, l)
  {
    !s.os.pending && Apply(s, l).os.pending
  }

  /** The current task gives up the processor: it yields, sleeps, or blocks in a wait or a lock. */
  ghost predicate GivesUp(s: State, l: Label)
    requires Shape(s)
  {
    l.TaskStep? && match l.op
      case CallYield => true
      case CallSleep(milliseconds) => milliseconds == 0
      case Continue =>
        (match s.pcs[s.os.current]
         case SleepPc(_) => true
         case WaitPc(k, _) => k < |s.sems| && WaitPass(s.sems[k], s.os).status == None
         case LockPc(m, _) => m < |s.mutexes| && LockPass(s.mutexes[m], s.os).status == None
         case _ => false)
      case _ => false
  }

  /** A tick takes the processor away: it wakes somebody beside idle, or fills a slice. */
  ghost predicate TakesAway(s: State, l: Label) {
    l == SysTickIrq && s.os.started && (WakesBesideIdle(s.os) || FillsSlice(s.os, s.cfg.slice))
  }

  lemma RequestsHaveCauses(s: State, l: Label)
    requires CoreInv(s) && Enabled(s, l)
    ensures Requests(s, l) <==> !s.os.pending && (GivesUp(s, l) || TakesAway(s, l))
  {
    match l {
      case SysTickIrq => TickIsExact(s.os, s.cfg.slice);
      case TaskStep(op) =>
        if op == Continue {
          PassRequestsExactly(s);
        }
      case _ =>
    }
  }

  lemma PassRequestsExactly(s: State)
    requires CoreInv(s) && Runs(s) && s.pcs[s.os.current] != App
    ensures Proceed(s).os.pending <==> s.os.pending || GivesUp(s, TaskStep(Continue))
  {
    assert PcShape(s.pcs[s.os.current], |s.sems|, |s.mutexes|, s.cfg.messageSize);
    match s.pcs[s.os.current] {
      case WaitPc(k, _) => WaitPassIsExact(s.sems[k], s.os);
      case PostPc(k, _) => PostPassKeepsScheduler(s.sems[k], s.os, s.cfg.slice);
      case LockPc(m, _) => LockPassIsExact(s.mutexes[m], s.os);
      case UnlockPc(m, _) => UnlockPassIsExact(s.mutexes[m], s.os);
      case SleepPc(_) =>
      case _ =>
    }
  }

  ghost predicate FlagsFollow(os: Sched, l: Label, os': Sched) {
    && os'.masked == (if l.TaskStep? && l.op.SetMask? then l.op.on else os.masked)
    && os'.preemption == (if l.TaskStep? && l.op.SetPreemption? then l.op.enabled else os.preemption)
    && os'.started == (os.started || l == SvcStart)
    && os'.running == os.running
  }

  lemma InterruptsKeepFlags(s: State, l: Label)
    requires Shape(s) && Enabled(s, l) && !l.TaskStep?
    ensures FlagsFollow(s.os, l, Apply(s, l).os)
  {
  }

  /** The flags of the scheduler belong to one call each: no critical section, tick or switch leaves them changed. */
  lemma FlagsFollowTheirCalls(s: State, l: Label)
    requires Shape(s) && Enabled(s, l)
    ensures FlagsFollow(s.os, l, Apply(s, l).os)
  {
    if !l.TaskStep? {
      InterruptsKeepFlags(s, l);
    } else if l.op == Continue {
      ProceedKeepsFlags(s);
    }
  }

  // ---------------------------------------------------------------------------
  // The time slice is granted
  // ---------------------------------------------------------------------------

  /** A slice begins with every request by a tick, every sleep and every change of preemption, and nowhere else. */
  ghost predicate BeginsSlice(s: State, l: Label) {
    || TakesAway(s, l)
    || (l.TaskStep? && l.op.SetPreemption?)
    || (l == TaskStep(Continue) && s.os.current < |s.pcs| && s.pcs[s.os.current].SleepPc?)
  }

  lemma SliceIsCounted(s: State, l: Label)
    requires CoreInv(s) && Enabled(s, l)
    ensures BeginsSlice(s, l) ==> Apply(s, l).os.tickCount == 0
    ensures !BeginsSlice(s, l) ==>
      Apply(s, l).os.tickCount == s.os.tickCount + One(l == SysTickIrq && s.os.started && s.os.preemption)
  {
    match l {
      case SysTickIrq => TickIsExact(s.os, s.cfg.slice);
      case TaskStep(op) =>
        if op == Continue && !s.pcs[s.os.current].SleepPc? {
          ProceedOnlySchedules(s);
        }
      case _ =>
    }
  }

  lemma SliceIsCountedInRun(states: seq<State>, labels: seq<Label>, i: nat, next: nat)
    requires Execution(states, labels) && i < |labels| && next == i + 1
    ensures states[next].os.tickCount <= states[i].os.tickCount + One(labels[i] == SysTickIrq)
    ensures BeginsSlice(states[i], labels[i]) ==> states[next].os.tickCount == 0
    ensures states[next].cfg == states[i].cfg
  {
    StateOfRun(states, labels, i);
    SliceIsCounted(states[i], labels[i]);
  }

  lemma {:induction false} CountComesFromTicks(states: seq<State>, labels: seq<Label>, a: nat, b: nat)
    requires Execution(states, labels) && a <= b < |states|
    ensures states[b].os.tickCount <= states[a].os.tickCount + TicksBetween(labels, a, b)
    ensures states[b].cfg == states[a].cfg
    decreases b
  {
    if a == b {
    } else {
      CountComesFromTicks(states, labels, a, b - 1);
      SliceIsCountedInRun(states, labels, b - 1, b);
    }
  }

  /** A slice of which some ticks are used at state `a` is filled when the others have passed, not earlier. */
  lemma FullSlice(states: seq<State>, labels: seq<Label>, a: nat, b: nat)
    requires Execution(states, labels) && a <= b < |labels|
    requires labels[b] == SysTickIrq && FillsSlice(states[b].os, states[b].cfg.slice)
    ensures states[a].os.tickCount + TicksBetween(labels, a, b + 1) >= states[a].cfg.slice
  {
    CountComesFromTicks(states, labels, a, b);
  }

  /**
   Time slices are granted in full: between the beginning of a slice, at step `a`, and a tick that
   requests a switch for any other reason than a wakeup beside idle, preemption is on and at least
   `slice` ticks pass.
   */
  lemma SlicesAreApart(states: seq<State>, labels: seq<Label>, a: nat, b: nat)
    requires Execution(states, labels) && a < b < |labels| && BeginsSlice(states[a], labels[a])
    requires labels[b] == SysTickIrq && !states[b].os.pending && states[b + 1].os.pending
    requires !WakesBesideIdle(states[b].os)
    ensures states[b].os.preemption
    ensures TicksBetween(labels, a + 1, b + 1) >= states[b].cfg.slice
  {
    SliceIsCountedInRun(states, labels, a, a + 1);
    StateOfRun(states, labels, b);
    TickIsExact(states[b].os, states[b].cfg.slice);
    FullSlice(states, labels, a + 1, b);
    CountComesFromTicks(states, labels, a + 1, b);
  }

  // ---------------------------------------------------------------------------
  // Who keeps the processor
  // ---------------------------------------------------------------------------

  /** Application task `t` executes and no switch is requested. */
  ghost predicate Executes(s: State, t: nat) {
    s.os.started && s.os.current == t && t != IDLE && !UnderWay(s)
  }

  lemma ExecutingStays(s: State, l: Label, t: nat)
    requires CoreInv(s) && Enabled(s, l) && Executes(s, t)
    ensures Executes(Apply(s, l), t)
            || GivesUp(s, l)
            || (l == SysTickIrq && FillsSlice(s.os, s.cfg.slice))
    ensures GivesUp(s, l) ==> IsStepOf(s, l, t)
  {
    RequestsHaveCauses(s, l);
    StepKeepsClock(s, l);
    if l == TaskStep(Continue) {
      ProceedKeepsHandler(s);
      ProceedKeepsFlags(s);
    }
  }

  /** At step `i` the task itself gives up the processor, or with preemption on its slice is over. */
  ghost predicate Ends(states: seq<State>, labels: seq<Label>, t: nat, a: nat, i: nat) {
    && a <= i < |labels| && i < |states| && Shape(states[i])
    && ((IsStepOf(states[i], labels[i], t) && GivesUp(states[i], labels[i]))
        || (labels[i] == SysTickIrq && states[i].os.preemption
            && states[a].os.tickCount + TicksBetween(labels, a, i + 1) >= states[a].cfg.slice))
  }

  lemma ExecutingStepOfRun(states: seq<State>, labels: seq<Label>, t: nat, a: nat, i: nat, next: nat)
    requires Execution(states, labels) && a <= i < |labels| && next == i + 1 && Executes(states[i], t)
    ensures Executes(states[next], t) || Ends(states, labels, t, a, i)
  {
    StateOfRun(states, labels, i);
    ExecutingStays(states[i], labels[i], t);
    if labels[i] == SysTickIrq && FillsSlice(states[i].os, states[i].cfg.slice) {
      FullSlice(states, labels, a, i);
    }
  }

  /**
   A task that executes keeps the processor until it gives it up itself, or until preemption is on
   and the ticks left of the slice have passed. With preemption off it is never taken away.
   */
  lemma {:induction false} KeepsTheProcessor(states: seq<State>, labels: seq<Label>, t: nat, a: nat, b: nat)
    requires Execution(states, labels) && a <= b < |states| && Executes(states[a], t)
    ensures Executes(states[b], t) || exists i: nat :: i < b && Ends(states, labels, t, a, i)
    decreases b
  {
    if a == b {
    } else {
      KeepsTheProcessor(states, labels, t, a, b - 1);
      if Executes(states[b - 1], t) {
        ExecutingStepOfRun(states, labels, t, a, b - 1, b);
      }
    }
  }
}
