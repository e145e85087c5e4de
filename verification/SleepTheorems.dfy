/** Theorems about os_sleep: when exactly the wrapping 32-bit comparison wakes a task. */
module SleepTheorems {
  import opened RoundRobin
  import opened Task
  import opened Scheduling
  import opened System
  import opened CoreInvariant
  import opened QueueInvariant
  import opened RunFacts
  import opened SchedulerTheorems

  // ---------------------------------------------------------------------------
  // Arithmetic of the wrapping tick
  // ---------------------------------------------------------------------------

  /** The tick at which a sleep of `ms` read at tick `t0` and entered at tick `r` should end. */
  function Target(t0: nat, ms: nat, r: nat): nat {
    if t0 + ms > r + 1 then t0 + ms else r + 1
  }

  /**
   The first tick examined, `r + 1`, is at most 2^31 before the wakeup tick, or lies after it
   in the half of the 32-bit circle that counts as "expired".
   */
  predicate OnTime(t0: nat, ms: nat, r: nat) {
    if r + 1 < t0 + ms then t0 + ms - (r + 1) <= HALF_U32
    else (r + 1 - (t0 + ms)) % U32 < HALF_U32
  }

  /** The stored 32-bit wakeup tick stands for the unbounded one. */
  lemma ExpiredUnwrapped(now: nat, t0: nat, ms: nat)
    ensures Expired(now % U32, (t0 % U32 + ms) % U32) <==> (now - (t0 + ms)) % U32 < HALF_U32
  {
  }

  /** Between the first examined tick and the target no tick counts as expired; the target does. */
  lemma ExpiresOnTime(t0: nat, ms: nat, r: nat, now: nat)
    requires t0 <= r < now <= Target(t0, ms, r) && ms < U32 && OnTime(t0, ms, r)
    ensures Expired(now % U32, (t0 % U32 + ms) % U32) <==> now == Target(t0, ms, r)
  {
    ExpiredUnwrapped(now, t0, ms);
  }

  /** Outside that range the very first examined tick already goes wrong. */
  lemma ExpiresOffTime(t0: nat, ms: nat, r: nat)
    requires t0 <= r && ms < U32 && !OnTime(t0, ms, r)
    ensures Expired((r + 1) % U32, (t0 % U32 + ms) % U32) <==> r + 1 != Target(t0, ms, r)
  {
    ExpiredUnwrapped(r + 1, t0, ms);
  }

  /** Sleeps of up to 2^31 ticks entered within 2^31 ticks of the reading are always in range. */
  lemma OrdinarySleepsAreOnTime(t0: nat, ms: nat, r: nat)
    requires t0 <= r && 1 <= ms <= HALF_U32 && r - t0 < HALF_U32
    ensures OnTime(t0, ms, r)
  {
  }

  /** An entry without delay is in range exactly for sleeps of at most 2^31 + 1 ticks. */
  lemma LongestExactSleep(t0: nat, ms: nat)
    requires 1 <= ms < U32
    ensures OnTime(t0, ms, t0) <==> ms <= HALF_U32 + 1
  {
  }

  // ---------------------------------------------------------------------------
  // One task asleep
  // ---------------------------------------------------------------------------

  ghost predicate Asleep(s: State, t: nat, wakeup: nat) {
    t < |s.os.tasks| && s.os.tasks[t] == Tcb(Sleeping, wakeup)
  }

  ghost predicate Awake(s: State, t: nat) {
    t < |s.os.tasks| && s.os.tasks[t] == Tcb(Ready, 0)
  }

  lemma TicksStepOfRun(states: seq<State>, labels: seq<Label>, i: nat)
    requires Execution(states, labels) && i < |labels|
    ensures states[i + 1].os.ticks == states[i].os.ticks + One(labels[i] == SysTickIrq)
  {
    StateOfRun(states, labels, i);
    StepKeepsClock(states[i], labels[i]);
  }

  /** Only the tick that finds it expired ends a sleep; a sleeping task makes no step itself. */
  lemma SleepStep(s: State, l: Label, t: nat, wakeup: nat)
    requires CoreInv(s) && Enabled(s, l) && Asleep(s, t, wakeup)
    ensures !IsStepOf(s, l, t)
    ensures if l == SysTickIrq && Expired((s.os.ticks + 1) % U32, wakeup)
            then Awake(Apply(s, l), t) else Asleep(Apply(s, l), t, wakeup)
  {
    assert t != s.os.current || !Runs(s);
    if l == TaskStep(Continue) {
      ProceedLeaves(s, t);
    } else if l.TaskStep? {
      CallLeavesTable(s, l.op);
    }
  }

  lemma SleepStepOfRun(states: seq<State>, labels: seq<Label>, t: nat, wakeup: nat, i: nat)
    requires Execution(states, labels) && i < |labels| && Asleep(states[i], t, wakeup)
    ensures !IsStepOf(states[i], labels[i], t)
    ensures states[i + 1].os.ticks == states[i].os.ticks + One(labels[i] == SysTickIrq)
    ensures if labels[i] == SysTickIrq && Expired(states[i + 1].os.ticks % U32, wakeup)
            then Awake(states[i + 1], t) else Asleep(states[i + 1], t, wakeup)
  {
    TicksStepOfRun(states, labels, i);
    StateOfRun(states, labels, i);
    SleepStep(states[i], labels[i], t, wakeup);
  }

  // ---------------------------------------------------------------------------
  // From the call of os_sleep to the wakeup
  // ---------------------------------------------------------------------------

  /** At step `c` task `t` calls `os_sleep(ms)`, and at step `e`, its next one, it enters the sleep. */
  ghost predicate SleepsAt(states: seq<State>, labels: seq<Label>, t: nat, ms: nat, c: nat, e: nat) {
    && c < e < |labels| && |states| == |labels| + 1
    && 0 < ms < U32
    && IsStepOf(states[c], labels[c], t) && labels[c] == TaskStep(CallSleep(ms))
    && IsStepOf(states[e], labels[e], t)
    && forall i :: c < i < e ==> !IsStepOf(states[i], labels[i], t)
  }

  /** The 32-bit wakeup tick of that sleep. */
  ghost function Stored(states: seq<State>, ms: nat, c: nat): nat
    requires c < |states|
  {
    WakeupTick(states[c].os, ms)
  }

  lemma PlaceStepOfRun(states: seq<State>, labels: seq<Label>, t: nat, i: nat)
    requires Execution(states, labels) && i < |labels| && t < |states[i].pcs| && !IsStepOf(states[i], labels[i], t)
    ensures t < |states[i + 1].pcs| && states[i + 1].pcs[t] == states[i].pcs[t]
    ensures states[i].os.ticks <= states[i + 1].os.ticks
  {
    StateOfRun(states, labels, i);
    OthersStay(states[i], labels[i], t);
    TicksStepOfRun(states, labels, i);
  }

  lemma {:induction false} PlaceStays(states: seq<State>, labels: seq<Label>, t: nat, a: nat, b: nat)
    requires Execution(states, labels) && a <= b < |states| && t < |states[a].pcs|
    requires forall i :: a <= i < b ==> !IsStepOf(states[i], labels[i], t)
    ensures t < |states[b].pcs| && states[b].pcs[t] == states[a].pcs[t]
    ensures states[a].os.ticks <= states[b].os.ticks
    decreases b
  {
    if a == b {
    } else {
      PlaceStays(states, labels, t, a, b - 1);
      PlaceStepOfRun(states, labels, t, b - 1);
    }
  }

  /** The task is asleep right after step `e`, whatever happened between the call and the entry. */
  lemma SleepIsEntered(states: seq<State>, labels: seq<Label>, t: nat, ms: nat, c: nat, e: nat)
    requires Execution(states, labels) && SleepsAt(states, labels, t, ms, c, e)
    ensures Asleep(states[e + 1], t, Stored(states, ms, c))
    ensures states[c].os.ticks <= states[e].os.ticks == states[e + 1].os.ticks
  {
    SleepCallOfRun(states, labels, t, ms, c, c + 1);
    PlaceStays(states, labels, t, c + 1, e);
    SleepEntryOfRun(states, labels, t, Stored(states, ms, c), e, e + 1);
  }

  lemma SleepCallOfRun(states: seq<State>, labels: seq<Label>, t: nat, ms: nat, c: nat, next: nat)
    requires Execution(states, labels) && c < |labels| && next == c + 1 && 0 < ms
    requires IsStepOf(states[c], labels[c], t) && labels[c] == TaskStep(CallSleep(ms))
    ensures t < |states[next].pcs| && states[next].pcs[t] == SleepPc(Stored(states, ms, c))
    ensures states[next].os.ticks == states[c].os.ticks
  {
    StateOfRun(states, labels, c);
  }

  lemma SleepEntryOfRun(states: seq<State>, labels: seq<Label>, t: nat, wakeup: nat, e: nat, next: nat)
    requires Execution(states, labels) && e < |labels| && next == e + 1
    requires IsStepOf(states[e], labels[e], t) && t < |states[e].pcs| && states[e].pcs[t] == SleepPc(wakeup)
    ensures Asleep(states[next], t, wakeup) && states[next].os.ticks == states[e].os.ticks
  {
    StateOfRun(states, labels, e);
  }

  /** Before its target tick the task sleeps on and makes no step. */
  lemma {:induction false} SleepsUntilTarget(
      states: seq<State>, labels: seq<Label>, t: nat, ms: nat, c: nat, e: nat, i: nat)
    requires Execution(states, labels) && SleepsAt(states, labels, t, ms, c, e)
    requires OnTime(states[c].os.ticks, ms, states[e].os.ticks)
    requires e < i < |states| && states[i].os.ticks < Target(states[c].os.ticks, ms, states[e].os.ticks)
    ensures Asleep(states[i], t, Stored(states, ms, c)) && states[e].os.ticks <= states[i].os.ticks
    ensures i < |labels| ==> !IsStepOf(states[i], labels[i], t)
    decreases i
  {
    SleepIsEntered(states, labels, t, ms, c, e);
    if i > e + 1 {
      TicksStepOfRun(states, labels, i - 1);
      SleepsUntilTarget(states, labels, t, ms, c, e, i - 1);
      SleepStepOfRun(states, labels, t, Stored(states, ms, c), i - 1);
      if labels[i - 1] == SysTickIrq {
        ExpiresOnTime(states[c].os.ticks, ms, states[e].os.ticks, states[i].os.ticks);
      }
    }
    if i < |labels| {
      SleepStepOfRun(states, labels, t, Stored(states, ms, c), i);
    }
  }

  /** The tick that reaches the target makes the task READY. */
  lemma WakesAtTarget(states: seq<State>, labels: seq<Label>, t: nat, ms: nat, c: nat, e: nat, i: nat)
    requires Execution(states, labels) && SleepsAt(states, labels, t, ms, c, e)
    requires OnTime(states[c].os.ticks, ms, states[e].os.ticks)
    requires e < i < |labels| && labels[i] == SysTickIrq
    requires states[i].os.ticks + 1 == Target(states[c].os.ticks, ms, states[e].os.ticks)
    ensures Awake(states[i + 1], t)
  {
    SleepIsEntered(states, labels, t, ms, c, e);
    SleepsUntilTarget(states, labels, t, ms, c, e, i);
    SleepStepOfRun(states, labels, t, Stored(states, ms, c), i);
    ExpiresOnTime(states[c].os.ticks, ms, states[e].os.ticks, states[i + 1].os.ticks);
  }

  /** Out of range, the first tick after the entry either wakes the task too early or misses its target. */
  lemma OffTimeSleepsGoWrong(states: seq<State>, labels: seq<Label>, t: nat, ms: nat, c: nat, e: nat, i: nat)
    requires Execution(states, labels) && SleepsAt(states, labels, t, ms, c, e)
    requires !OnTime(states[c].os.ticks, ms, states[e].os.ticks)
    requires e < i < |labels| && labels[i] == SysTickIrq && states[i].os.ticks == states[e].os.ticks
    ensures if states[i + 1].os.ticks < Target(states[c].os.ticks, ms, states[e].os.ticks)
            then Awake(states[i + 1], t) else Asleep(states[i + 1], t, Stored(states, ms, c))
  {
    SleepIsEntered(states, labels, t, ms, c, e);
    SleepsThroughFirstTick(states, labels, t, ms, c, e, i);
    SleepStepOfRun(states, labels, t, Stored(states, ms, c), i);
    ExpiresOffTime(states[c].os.ticks, ms, states[e].os.ticks);
  }

  lemma {:induction false} SleepsThroughFirstTick(
      states: seq<State>, labels: seq<Label>, t: nat, ms: nat, c: nat, e: nat, i: nat)
    requires Execution(states, labels) && SleepsAt(states, labels, t, ms, c, e)
    requires e < i < |states| && states[i].os.ticks == states[e].os.ticks
    ensures Asleep(states[i], t, Stored(states, ms, c))
    decreases i
  {
    SleepIsEntered(states, labels, t, ms, c, e);
    if i > e + 1 {
      TicksStepOfRun(states, labels, i - 1);
      TicksOnlyGrow(states, labels, e + 1, i - 1);
      SleepsThroughFirstTick(states, labels, t, ms, c, e, i - 1);
      SleepStepOfRun(states, labels, t, Stored(states, ms, c), i - 1);
    }
  }

  lemma {:induction false} TicksOnlyGrow(states: seq<State>, labels: seq<Label>, a: nat, b: nat)
    requires Execution(states, labels) && a <= b < |states|
    ensures states[a].os.ticks <= states[b].os.ticks
    decreases b
  {
    if a == b {
    } else {
      TicksOnlyGrow(states, labels, a, b - 1);
      TicksStepOfRun(states, labels, b - 1);
    }
  }

  // ---------------------------------------------------------------------------
  // End to end
  // ---------------------------------------------------------------------------

  /**
   The tick at step `i` is the target of the sleep. The task did not run since it went to
   sleep, and with preemption on it runs again before slice * (N - 1) + 1 further open ticks.
   */
  lemma EndToEndSleep(states: seq<State>, labels: seq<Label>, t: nat, ms: nat, c: nat, e: nat, i: nat, b: nat)
    requires Execution(states, labels) && SleepsAt(states, labels, t, ms, c, e)
    requires OnTime(states[c].os.ticks, ms, states[e].os.ticks)
    requires e < i < |labels| && labels[i] == SysTickIrq
    requires states[i].os.ticks + 1 == Target(states[c].os.ticks, ms, states[e].os.ticks)
    requires Preemptive(states, labels, i + 1, b)
    requires OpenTicksBetween(states, labels, i + 1, b) > states[i + 1].cfg.slice * (|states[i + 1].os.tasks| - 1)
    ensures states[i + 1].os.ticks >= states[c].os.ticks + ms
    ensures forall j :: e < j <= i ==> !IsStepOf(states[j], labels[j], t)
    ensures exists j :: i + 1 < j <= b && IsDispatched(states[j], t)
  {
    RestsUntilTarget(states, labels, t, ms, c, e, i);
    WokenIsReady(states, labels, t, ms, c, e, i, i + 1);
    DispatchedWithinTicks(states, labels, t, i + 1, b);
  }

  lemma RestsUntilTarget(states: seq<State>, labels: seq<Label>, t: nat, ms: nat, c: nat, e: nat, i: nat)
    requires Execution(states, labels) && SleepsAt(states, labels, t, ms, c, e)
    requires OnTime(states[c].os.ticks, ms, states[e].os.ticks)
    requires e < i < |labels| && states[i].os.ticks + 1 == Target(states[c].os.ticks, ms, states[e].os.ticks)
    ensures forall j :: e < j <= i ==> !IsStepOf(states[j], labels[j], t)
  {
    forall j | e < j <= i ensures !IsStepOf(states[j], labels[j], t) {
      TicksOnlyGrow(states, labels, j, i);
      SleepsUntilTarget(states, labels, t, ms, c, e, j);
    }
  }

  lemma WokenIsReady(states: seq<State>, labels: seq<Label>, t: nat, ms: nat, c: nat, e: nat, i: nat, next: nat)
    requires Execution(states, labels) && SleepsAt(states, labels, t, ms, c, e)
    requires OnTime(states[c].os.ticks, ms, states[e].os.ticks)
    requires e < i < |labels| && labels[i] == SysTickIrq && next == i + 1
    requires states[i].os.ticks + 1 == Target(states[c].os.ticks, ms, states[e].os.ticks)
    ensures IsReady(states[next], t) && states[next].os.ticks >= states[c].os.ticks + ms
  {
    TicksStepOfRun(states, labels, i);
    WakesAtTarget(states, labels, t, ms, c, e, i);
    SleeperIsNotIdle(states, labels, t, ms, c, e, next);
  }

  lemma SleeperIsNotIdle(states: seq<State>, labels: seq<Label>, t: nat, ms: nat, c: nat, e: nat, i: nat)
    requires Execution(states, labels) && SleepsAt(states, labels, t, ms, c, e) && i < |states|
    ensures t != IDLE && states[i].os.current < |states[i].os.tasks|
  {
    StateOfRun(states, labels, c);
    EveryStateIsGood(states, labels, i);
  }
}
