/**
 kernel/task_scheduler.c, together with the globals of drivers/systick.c and
 kernel/context_switch.c that it reads and writes.
 */
module Scheduling {
  import opened RoundRobin
  import opened Task

  /**
   `tasks`       the created entries of `g_task_table`
   `current`     `g_current_task_id`
   `running`     `g_scheduler_state == SCHEDULER_STATE_RUNNING`
   `preemption`  `g_preemption_enabled`
   `tickCount`   `g_scheduler_tick_count`
   `started`     `g_context_switch_started`
   `pending`     the PENDSVSET bit
   `masked`      PRIMASK
   `ticks`       the number of SysTick interrupts taken; `g_os_ticks` is its low 32 bits
   */
  datatype Sched = Sched(
    tasks: seq<Tcb>,
    current: nat,
    running: bool,
    preemption: bool,
    tickCount: nat,
    started: bool,
    pending: bool,
    masked: bool,
    ticks: nat)

  /** `SCHEDULER_INVALID_TASK_ID` */
  const INVALID_TASK: nat := 0xFFFF_FFFF

  /**
   How far PendSV_Handler is in `os_schedule_next`: it looks at the id `offset` places behind
   the current one next, or it has made task `next` RUNNING and is about to store its id.
   */
  datatype Handler = Inactive | Searching(offset: nat) | Chosen(next: nat)

  // ---------------------------------------------------------------------------
  // What each operation does
  // ---------------------------------------------------------------------------

  function ReadyIds(tasks: seq<Tcb>): set<nat> {
    set i: nat | i < |tasks| && tasks[i].state == Ready
  }

  /** A task that was still RUNNING goes back to READY; BLOCKED and SLEEPING are kept. */
  function Requeue(tasks: seq<Tcb>, current: nat): (requeued: seq<Tcb>)
    requires current < |tasks|
    ensures |requeued| == |tasks|
  {
    if tasks[current].state == Running then tasks[current := tasks[current].(state := Ready)] else tasks
  }

  /** `os_schedule_next`, when no tick falls into it */
  function Dispatch(k: Sched): (d: Sched)
    requires k.current < |k.tasks|
    ensures |d.tasks| == |k.tasks| && d.current < |d.tasks|
  {
    var tasks := Requeue(k.tasks, k.current);
    var next := Next(k.current, |tasks|, ReadyIds(tasks));
    k.(tasks := tasks[next := tasks[next].(state := Running)], current := next)
  }

  /** PendSV_Handler up to the start of the search in `os_schedule_next`. */
  function BeginSwitch(k: Sched): Sched
    requires k.current < |k.tasks|
  {
    k.(tasks := Requeue(k.tasks, k.current), pending := false)
  }

  /** One round of the search; after the last one idle is chosen. */
  function Look(k: Sched, offset: nat): (r: (Sched, Handler))
    requires k.current < |k.tasks|
    ensures |r.0.tasks| == |k.tasks| && r.0.current == k.current
  {
    var c := if offset > |k.tasks| then IDLE else (k.current + offset) % |k.tasks|;
    if offset > |k.tasks| || (c != IDLE && k.tasks[c].state == Ready) then
      (k.(tasks := k.tasks[c := k.tasks[c].(state := Running)]), Chosen(c))
    else (k, Searching(offset + 1))
  }

  /** `systick_handler`: advance the tick, then `os_scheduler_tick`. */
  function Tick(k: Sched, slice: nat): Sched
    requires k.current < |k.tasks|
  {
    var now := k.ticks + 1;
    var woken := AnyDue(k.tasks, now % U32);
    var k' := k.(ticks := now, tasks := WakeExpired(k.tasks, now % U32));
    if !k.running then k.(ticks := now)
    else if !k.started then k'
    else if woken && k.current == IDLE then k'.(tickCount := 0, pending := true)
    else if !k.preemption then k'
    else if k.tickCount + 1 >= slice then k'.(tickCount := 0, pending := true)
    else k'.(tickCount := k.tickCount + 1)
  }

  /** A sleeper became due while idle executes. */
  predicate WakesBesideIdle(k: Sched) {
    k.current == IDLE && AnyDue(k.tasks, (k.ticks + 1) % U32)
  }

  /** With preemption on, the tick that fills the slice. */
  predicate FillsSlice(k: Sched, slice: nat) {
    k.preemption && k.tickCount + 1 >= slice
  }

  /**
   A tick requests a switch for these two reasons only, and only once the first task was started;
   each time it starts a new slice. Below the slice it counts, with preemption off it does not.
   */
  lemma TickIsExact(k: Sched, slice: nat)
    requires k.current < |k.tasks|
    ensures var k', counts := Tick(k, slice), k.running && k.started;
      && k' == k.(ticks := k.ticks + 1, tasks := k'.tasks, tickCount := k'.tickCount, pending := k'.pending)
      && (k'.pending <==> k.pending || (counts && (WakesBesideIdle(k) || FillsSlice(k, slice))))
      && (counts && (WakesBesideIdle(k) || FillsSlice(k, slice)) ==> k'.tickCount == 0)
      && (counts && !WakesBesideIdle(k) && !FillsSlice(k, slice) ==>
            k'.tickCount == if k.preemption then k.tickCount + 1 else k.tickCount)
      && (!counts ==> k'.tickCount == k.tickCount)
      && (!k.running ==> k'.tasks == k.tasks)
      && (k.running ==> !AnyDue(k'.tasks, k'.ticks % U32))
  {
    NobodyOversleeps(k.tasks, (k.ticks + 1) % U32);
  }

  /** The tick `os_sleep` computes before it enters its critical section. */
  function WakeupTick(k: Sched, milliseconds: nat): nat {
    (k.ticks % U32 + milliseconds) % U32
  }

  /** The critical section of `os_sleep`. */
  function EnterSleep(k: Sched, wakeup: nat): (s: Sched)
    ensures |s.tasks| == |k.tasks|
  {
    var (tasks, status) := SleepUntil(k.tasks, k.current, wakeup);
    if status == TaskOk then k.(tasks := tasks, tickCount := 0, pending := true) else k
  }

  // ---------------------------------------------------------------------------
  // The globals themselves, updated in place
  // ---------------------------------------------------------------------------

  class Scheduler {
    const table: TaskTable
    const slice: nat
    var current: nat
    var running: bool
    var preemption: bool
    var tickCount: nat
    var started: bool
    var pending: bool
    var masked: bool
    var osTicks: nat
    /** How many ticks were taken; `osTicks` is what 32 bits can hold of it. */
    ghost var elapsed: nat

    ghost predicate Valid()
      reads this, table
    {
      && table.Valid()
      && current < table.count
      && osTicks == elapsed % U32
    }

    ghost function Abs(): (k: Sched)
      requires Valid()
      reads this, table, table.entries
      ensures |k.tasks| == table.count && k.current == current
    {
      Sched(table.Tasks(), current, running, preemption, tickCount, started, pending, masked, elapsed)
    }

    /** `os_scheduler_init` and `os_context_switch_init` over a table that already holds idle. */
    constructor (table: TaskTable, slice: nat)
      requires table.Valid()
      ensures Valid() && this.table == table && this.slice == slice
      ensures Abs() == Sched(table.Tasks(), IDLE, false, false, 0, false, false, false, 0)
    {
      this.table := table;
      this.slice := slice;
      current, running, preemption, tickCount := IDLE, false, false, 0;
      started, pending, masked := false, false, false;
      osTicks, elapsed := 0, 0;
    }

    /** `os_irq_save` */
    method IrqSave() returns (irqState: bool)
      modifies `masked
      ensures masked && irqState == old(masked)
    {
      irqState := masked;
      masked := true;
    }

    /** `os_irq_restore` */
    method IrqRestore(irqState: bool)
      modifies `masked
      ensures masked == irqState
    {
      masked := irqState;
    }

    /** `os_trigger_context_switch` */
    method TriggerContextSwitch()
      modifies `pending
      ensures pending
    {
      pending := true;
    }

    /** The round-robin search of `os_schedule_next`; IDLE when no application task is READY. */
    method FindReady() returns (next: nat)
      requires Valid()
      ensures next == Next(current, table.count, ReadyIds(table.Tasks()))
    {
      var taskCount := table.count;
      ghost var ready := ReadyIds(table.Tasks());
      var offset := 1;
      while offset <= taskCount
        invariant 1 <= offset <= taskCount + 1
        invariant forall c :: c in ready ==> IDLE < c < taskCount ==> offset <= Offset(current, taskCount, c)
      {
        var candidate := (current + offset) % taskCount;
        OffsetOfVisited(current, taskCount, offset);
        if candidate != IDLE {
          assert table.entries[candidate] == table.Tasks()[candidate];
          if table.entries[candidate].state == Ready {
            NextIsUnique(current, taskCount, ready, candidate);
            return candidate;
          }
        }
        offset := offset + 1;
      }
      assert forall c :: IDLE < c < taskCount ==> Offset(current, taskCount, c) < offset;
      NextIsUnique(current, taskCount, ready, IDLE);
      next := IDLE;
    }

    /** `os_scheduler_start` after `os_scheduler_init`; it fails when no task can be chosen. */
    method Start() returns (ok: bool)
      requires Valid() && table.count < INVALID_TASK
      modifies `current, `running, table.entries
      ensures running && ok == (!old(IdleIsUnusable()) || old(AnyReady()))
      ensures ok ==> Valid() && Abs() == Dispatch(old(Abs()).(running := true))
    {
      running := true;
      var next := ScheduleNext();
      ok := next != INVALID_TASK;
    }

    ghost predicate IdleIsUnusable()
      requires Valid()
      reads this, table, table.entries
    {
      table.Tasks()[IDLE].state == Unused
    }

    /** An application task is READY or can be put back to READY. */
    ghost predicate AnyReady()
      requires Valid()
      reads this, table, table.entries
    {
      Dispatch(Abs()).current != IDLE
    }

    /** `os_schedule_next`; it answers the invalid id when idle is needed and its entry is unusable. */
    method ScheduleNext() returns (next: nat)
      requires Valid()
      modifies `current, table.entries
      ensures next == current
      ensures !old(IdleIsUnusable()) || old(AnyReady()) ==> Valid() && Abs() == Dispatch(old(Abs()))
      ensures old(IdleIsUnusable()) && !old(AnyReady()) ==>
        next == INVALID_TASK && table.Valid() && table.Tasks() == Requeue(old(table.Tasks()), old(current))
    {
      ghost var before := table.Tasks();
      if table.entries[current].state == Running {
        var _ := table.SetState(current, Ready);
      }
      assert table.Tasks() == Requeue(before, current);
      next := FindReady();
      if next == IDLE && table.entries[IDLE].state == Unused {
        next := INVALID_TASK;
        current := next;
        return;
      }
      var _ := table.SetState(next, Running);
      current := next;
    }

    /** `systick_handler` */
    method SysTick()
      requires Valid()
      modifies `osTicks, `elapsed, `tickCount, `pending, table.entries
      ensures Valid() && Abs() == Tick(old(Abs()), slice)
    {
      TickWraps(elapsed);
      osTicks := (osTicks + 1) % U32;
      elapsed := elapsed + 1;
      if !running {
        return;
      }
      var woken := table.WakeExpiredTasks(osTicks);
      if !started {
        return;
      }
      if woken > 0 && current == IDLE {
        tickCount := 0;
        TriggerContextSwitch();
        return;
      }
      if !preemption {
        return;
      }
      tickCount := tickCount + 1;
      if tickCount >= slice {
        tickCount := 0;
        TriggerContextSwitch();
      }
    }

    /** `os_yield` */
    method Yield()
      requires Valid()
      modifies `pending
      ensures Valid() && Abs() == if running && started then old(Abs()).(pending := true) else old(Abs())
    {
      if !running {
        return;
      }
      if !started {
        return;
      }
      TriggerContextSwitch();
    }

    /** The part of `os_sleep` that runs with interrupts enabled. */
    method ReadWakeupTick(milliseconds: nat) returns (wakeup: nat)
      requires Valid()
      ensures wakeup == WakeupTick(Abs(), milliseconds)
    {
      wakeup := (osTicks + milliseconds) % U32;
    }

    /** The critical section of `os_sleep`. */
    method SleepCritical(wakeup: nat)
      requires Valid()
      modifies `masked, `tickCount, `pending, table.entries
      ensures Valid() && Abs() == EnterSleep(old(Abs()), wakeup)
    {
      var irqState := IrqSave();
      var status := table.SleepTaskUntil(current, wakeup);
      if status == TaskOk {
        tickCount := 0;
        TriggerContextSwitch();
      }
      IrqRestore(irqState);
    }

    /** `os_scheduler_enable_preemption` and `os_scheduler_disable_preemption` */
    method SetPreemption(enabled: bool)
      requires Valid()
      modifies `preemption, `tickCount
      ensures Valid() && Abs() == old(Abs()).(preemption := enabled, tickCount := 0)
    {
      tickCount := 0;
      preemption := enabled;
    }
  }

  lemma TickWraps(ticks: nat)
    ensures (ticks % U32 + 1) % U32 == (ticks + 1) % U32
  {
  }
}
