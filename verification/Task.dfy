/** kernel/task.c: the task table and the task state transitions. */
module Task {
  import opened RoundRobin

  const U32: nat := 0x1_0000_0000
  const HALF_U32: nat := 0x8000_0000

  datatype TaskState = Unused | Ready | Running | Blocked | Sleeping | Suspended

  /** `wakeup` is the 32-bit kernel tick at which a sleeping task is to be woken. */
  datatype Tcb = Tcb(state: TaskState, wakeup: nat)

  datatype TaskStatus =
    | TaskOk
    | TaskErrorNullEntry
    | TaskErrorNoSpace
    | TaskErrorInvalidId
    | TaskErrorInvalidState
    | TaskErrorIdleOperation
    | TaskErrorInvalidStack

  // ---------------------------------------------------------------------------
  // What each transition does to the table
  // ---------------------------------------------------------------------------

  /** `(uint32_t)(current_tick - wakeup_tick) < 0x80000000U` */
  predicate Expired(now: nat, wakeup: nat) {
    (now - wakeup) % U32 < HALF_U32
  }

  function Block(tasks: seq<Tcb>, id: nat): (seq<Tcb>, TaskStatus) {
    if id >= |tasks| then (tasks, TaskErrorInvalidId)
    else if id == IDLE then (tasks, TaskErrorIdleOperation)
    else if tasks[id].state != Running then (tasks, TaskErrorInvalidState)
    else (tasks[id := Tcb(Blocked, 0)], TaskOk)
  }

  function Unblock(tasks: seq<Tcb>, id: nat): (seq<Tcb>, TaskStatus) {
    if id >= |tasks| then (tasks, TaskErrorInvalidId)
    else if id == IDLE then (tasks, TaskErrorIdleOperation)
    else if tasks[id].state != Blocked then (tasks, TaskErrorInvalidState)
    else (tasks[id := Tcb(Ready, 0)], TaskOk)
  }

  function SleepUntil(tasks: seq<Tcb>, id: nat, wakeup: nat): (seq<Tcb>, TaskStatus) {
    if id >= |tasks| then (tasks, TaskErrorInvalidId)
    else if id == IDLE then (tasks, TaskErrorInvalidState)
    else if tasks[id].state != Running && tasks[id].state != Ready then (tasks, TaskErrorInvalidState)
    else (tasks[id := Tcb(Sleeping, wakeup)], TaskOk)
  }

  predicate IsDue(task: Tcb, now: nat) {
    task.state == Sleeping && Expired(now, task.wakeup)
  }

  function WakeExpired(tasks: seq<Tcb>, now: nat): (woken: seq<Tcb>)
    ensures |woken| == |tasks|
    ensures forall i :: 0 <= i < |tasks| ==>
      woken[i] == if IsDue(tasks[i], now) then Tcb(Ready, 0) else tasks[i]
  {
    seq(|tasks|, i requires 0 <= i < |tasks| => if IsDue(tasks[i], now) then Tcb(Ready, 0) else tasks[i])
  }

  predicate AnyDue(tasks: seq<Tcb>, now: nat) {
    exists i :: 0 <= i < |tasks| && IsDue(tasks[i], now)
  }

  /**
   After the wakeup nobody oversleeps, a task is asleep exactly if it was asleep and not due,
   nobody else was touched, and a second wakeup at the same tick finds nothing to do.
   */
  lemma NobodyOversleeps(tasks: seq<Tcb>, now: nat)
    ensures !AnyDue(WakeExpired(tasks, now), now)
    ensures WakeExpired(WakeExpired(tasks, now), now) == WakeExpired(tasks, now)
    ensures forall i :: 0 <= i < |tasks| ==>
      (WakeExpired(tasks, now)[i].state == Sleeping <==> tasks[i].state == Sleeping && !Expired(now, tasks[i].wakeup))
    ensures forall i :: 0 <= i < |tasks| && tasks[i].state != Sleeping ==> WakeExpired(tasks, now)[i] == tasks[i]
  {
    var woken := WakeExpired(tasks, now);
    assert forall i :: 0 <= i < |woken| ==> !IsDue(woken[i], now);
  }

  /** `id` names an application task whose state is in `from`: then it becomes `to`, else nothing changes. */
  ghost predicate MovesOnly(
      tasks: seq<Tcb>, id: nat, from: set<TaskState>, to: Tcb, after: seq<Tcb>, status: TaskStatus) {
    && (status == TaskOk <==> IDLE < id < |tasks| && tasks[id].state in from)
    && (status == TaskErrorInvalidId <==> id >= |tasks|)
    && |after| == |tasks|
    && forall i :: 0 <= i < |tasks| ==> after[i] == if status == TaskOk && i == id then to else tasks[i]
  }

  /** Which transitions the three operations allow, and how they refuse all others. */
  lemma TransitionsAreExact(tasks: seq<Tcb>, id: nat, wakeup: nat)
    ensures var (after, status) := Block(tasks, id); MovesOnly(tasks, id, {Running}, Tcb(Blocked, 0), after, status)
    ensures var (after, status) := Unblock(tasks, id); MovesOnly(tasks, id, {Blocked}, Tcb(Ready, 0), after, status)
    ensures var (after, status) := SleepUntil(tasks, id, wakeup);
      MovesOnly(tasks, id, {Running, Ready}, Tcb(Sleeping, wakeup), after, status)
    ensures id == IDLE < |tasks| ==>
      && Block(tasks, id).1 == Unblock(tasks, id).1 == TaskErrorIdleOperation
      && SleepUntil(tasks, id, wakeup).1 == TaskErrorInvalidState
    ensures IDLE < id < |tasks| && tasks[id].state != Running ==> Block(tasks, id).1 == TaskErrorInvalidState
    ensures IDLE < id < |tasks| && tasks[id].state != Blocked ==> Unblock(tasks, id).1 == TaskErrorInvalidState
    ensures IDLE < id < |tasks| && tasks[id].state !in {Running, Ready} ==>
      SleepUntil(tasks, id, wakeup).1 == TaskErrorInvalidState
  {
  }

  // ---------------------------------------------------------------------------
  // The table itself, updated in place
  // ---------------------------------------------------------------------------

  class TaskTable {
    const entries: array<Tcb>
    var count: nat

    ghost predicate Valid()
      reads this
    {
      1 <= count <= entries.Length
    }

    /** The created tasks. */
    ghost function Tasks(): (tasks: seq<Tcb>)
      requires Valid()
      reads this, entries
      ensures |tasks| == count
    {
      entries[..count]
    }

    /** `task_system_init`: every slot unused, then the idle task in slot 0. */
    constructor (maxTasks: nat)
      requires 0 < maxTasks
      ensures Valid() && fresh(entries) && entries.Length == maxTasks
      ensures Tasks() == [Tcb(Ready, 0)]
    {
      entries := new Tcb[maxTasks](_ => Tcb(Unused, 0));
      count := 0;
      new;
      entries[0] := Tcb(Ready, 0);
      count := 1;
    }

    /** `task_create`; the entry function itself is only compared with null here. */
    method Create(hasEntry: bool) returns (id: nat, status: TaskStatus)
      requires Valid()
      modifies this, entries
      ensures Valid()
      ensures !hasEntry ==> status == TaskErrorNullEntry
      ensures hasEntry && old(count) == entries.Length ==> status == TaskErrorNoSpace
      ensures hasEntry && old(count) < entries.Length ==> status == TaskOk
      ensures if status == TaskOk
              then id == old(count) && Tasks() == old(Tasks()) + [Tcb(Ready, 0)]
              else Tasks() == old(Tasks())
    {
      id := 0;
      if !hasEntry {
        return id, TaskErrorNullEntry;
      }
      if count >= entries.Length {
        return id, TaskErrorNoSpace;
      }
      id := count;
      entries[id] := Tcb(Ready, 0);
      count := count + 1;
      status := TaskOk;
    }

    method SetState(id: nat, state: TaskState) returns (status: TaskStatus)
      requires Valid()
      modifies entries
      ensures status == if id < count then TaskOk else TaskErrorInvalidId
      ensures Tasks() == if id < count then old(Tasks())[id := old(Tasks())[id].(state := state)] else old(Tasks())
    {
      if id >= count {
        return TaskErrorInvalidId;
      }
      entries[id] := entries[id].(state := state);
      status := TaskOk;
    }

    method BlockTask(id: nat) returns (status: TaskStatus)
      requires Valid()
      modifies entries
      ensures Tasks() == Block(old(Tasks()), id).0
      ensures status == Block(old(Tasks()), id).1
    {
      if id >= count {
        return TaskErrorInvalidId;
      }
      if id == IDLE {
        return TaskErrorIdleOperation;
      }
      if entries[id].state != Running {
        return TaskErrorInvalidState;
      }
      entries[id] := entries[id].(wakeup := 0);
      entries[id] := entries[id].(state := Blocked);
      status := TaskOk;
    }

    method UnblockTask(id: nat) returns (status: TaskStatus)
      requires Valid()
      modifies entries
      ensures Tasks() == Unblock(old(Tasks()), id).0
      ensures status == Unblock(old(Tasks()), id).1
    {
      if id >= count {
        return TaskErrorInvalidId;
      }
      if id == IDLE {
        return TaskErrorIdleOperation;
      }
      if entries[id].state != Blocked {
        return TaskErrorInvalidState;
      }
      entries[id] := entries[id].(wakeup := 0);
      entries[id] := entries[id].(state := Ready);
      status := TaskOk;
    }

    method SleepTaskUntil(id: nat, wakeup: nat) returns (status: TaskStatus)
      requires Valid()
      modifies entries
      ensures Tasks() == SleepUntil(old(Tasks()), id, wakeup).0
      ensures status == SleepUntil(old(Tasks()), id, wakeup).1
    {
      if id >= count {
        return TaskErrorInvalidId;
      }
      if id == IDLE {
        return TaskErrorInvalidState;
      }
      if entries[id].state != Running && entries[id].state != Ready {
        return TaskErrorInvalidState;
      }
      entries[id] := entries[id].(wakeup := wakeup);
      entries[id] := entries[id].(state := Sleeping);
      status := TaskOk;
    }

    /** `task_wake_expired_sleeping_tasks` */
    method WakeExpiredTasks(now: nat) returns (woken: nat)
      requires Valid()
      modifies entries
      ensures Tasks() == WakeExpired(old(Tasks()), now)
      ensures woken > 0 <==> AnyDue(old(Tasks()), now)
    {
      woken := 0;
      var i := 0;
      while i < count
        invariant 0 <= i <= count
        invariant forall j :: 0 <= j < i ==>
          entries[j] == if IsDue(old(entries[j]), now) then Tcb(Ready, 0) else old(entries[j])
        invariant forall j :: i <= j < entries.Length ==> entries[j] == old(entries[j])
        invariant woken > 0 <==> exists j :: 0 <= j < i && IsDue(old(Tasks())[j], now)
      {
        assert entries[i] == old(Tasks())[i];
        if entries[i].state == Sleeping {
          if Expired(now, entries[i].wakeup) {
            entries[i] := entries[i].(wakeup := 0);
            entries[i] := entries[i].(state := Ready);
            woken := woken + 1;
          }
        }
        i := i + 1;
      }
    }
  }
}
