/** kernel/mutex.c: the non-recursive mutex with direct handoff of ownership. */
module Mutex {
  import opened RoundRobin
  import opened TaskMask
  import opened Task
  import opened Scheduling
  import opened Waiters

  /** `OS_MUTEX_INVALID_OWNER_ID` */
  const NO_OWNER: nat := 0xFFFF_FFFF

  datatype MutexStatus =
    | MutexOk
    | MutexNotInitialized
    | MutexInvalidContext
    | MutexRecursiveLock
    | MutexNotOwner
    | MutexTaskOperation
    | MutexInterruptsDisabled

  /** `waiting` is the task mask as a set of ids. */
  datatype Mtx = Mtx(locked: bool, owner: nat, waiting: set<nat>)

  /** The outcome of one critical section; no status means the caller blocked and will retry. */
  datatype MutexStep = MutexStep(mutex: Mtx, k: Sched, status: Option<MutexStatus>)

  /** One pass of the loop in `os_mutex_lock`, by the current task. */
  function LockPass(m: Mtx, k: Sched): MutexStep {
    var t := k.current;
    if !m.locked then
      MutexStep(Mtx(true, t, m.waiting - {t}), k, Some(MutexOk))
    else if m.owner == t then
      if t in m.waiting then
        MutexStep(m.(waiting := m.waiting - {t}), k, Some(MutexOk))
      else
        MutexStep(m, k, Some(MutexRecursiveLock))
    else if k.masked then
      MutexStep(m, k, Some(MutexInterruptsDisabled))
    else
      var (tasks, status) := Block(k.tasks, t);
      if status != TaskOk then
        MutexStep(m.(waiting := m.waiting - {t}), k, Some(MutexTaskOperation))
      else
        MutexStep(m.(waiting := m.waiting + {t}), k.(tasks := tasks, pending := true), None)
  }

  /** The critical section of `os_mutex_unlock`. */
  function UnlockPass(m: Mtx, k: Sched): MutexStep
    requires k.current < |k.tasks|
  {
    var t := k.current;
    if !m.locked || m.owner != t then
      MutexStep(m, k, Some(MutexNotOwner))
    else
      var winner := Winner(m.waiting, k.tasks, t);
      var waiting := m.waiting - Stale(m.waiting, k.tasks, t);
      if winner == IDLE then
        MutexStep(Mtx(false, NO_OWNER, waiting), k, Some(MutexOk))
      else
        var (tasks, _) := Unblock(k.tasks, winner);
        MutexStep(Mtx(true, winner, waiting), k.(tasks := tasks), Some(MutexOk))
  }

  /**
   What a pass of the lock loop answers and leaves behind, in any state of the mutex. A caller that
   owns the mutex gets OK only if its marker says that ownership was handed to it.
   */
  lemma LockPassIsExact(m: Mtx, k: Sched)
    ensures var r, t := LockPass(m, k), k.current;
      && (r.status == Some(MutexOk) <==> !m.locked || (m.owner == t && t in m.waiting))
      && (r.status == Some(MutexRecursiveLock) <==> m.locked && m.owner == t && t !in m.waiting)
      && (r.status == Some(MutexInterruptsDisabled) <==> m.locked && m.owner != t && k.masked)
      && (r.status == None <==>
            m.locked && m.owner != t && !k.masked && IDLE < t < |k.tasks| && k.tasks[t].state == Running)
      && (r.status.Some? ==>
            r.status.value in {MutexOk, MutexRecursiveLock, MutexInterruptsDisabled, MutexTaskOperation})
      && r.mutex.locked && r.mutex.owner == (if m.locked then m.owner else t)
      && (t in r.mutex.waiting <==>
            r.status == None || (r.status == Some(MutexInterruptsDisabled) && t in m.waiting))
      && (forall c :: c != t ==> (c in r.mutex.waiting <==> c in m.waiting))
      && (r.status in {Some(MutexRecursiveLock), Some(MutexInterruptsDisabled)} ==> r.mutex == m)
      && (r.status != None ==> r.k == k)
      && (r.status == None ==> t < |k.tasks| && r.k == k.(tasks := k.tasks[t := Tcb(Blocked, 0)], pending := true))
  {
  }

  /** An unlock succeeds exactly for the owner; for anyone else it answers NOT_OWNER and changes nothing. */
  lemma UnlockPassIsExact(m: Mtx, k: Sched)
    requires k.current < |k.tasks|
    ensures var r := UnlockPass(m, k);
      && (r.status == Some(MutexOk) <==> m.locked && m.owner == k.current)
      && (r.status != Some(MutexOk) ==> r == MutexStep(m, k, Some(MutexNotOwner)))
      && (r.status == Some(MutexOk) && !r.mutex.locked ==> r.k == k && r.mutex.owner == NO_OWNER)
      && (r.status == Some(MutexOk) && r.mutex.locked ==>
            && IDLE < r.mutex.owner < |k.tasks|
            && r.mutex.owner in m.waiting && r.mutex.owner in r.mutex.waiting
            && k.tasks[r.mutex.owner].state == Blocked
            && r.k == k.(tasks := k.tasks[r.mutex.owner := Tcb(Ready, 0)]))
  {
    var winner := Winner(m.waiting, k.tasks, k.current);
    if winner != IDLE {
      assert winner in Eligible(m.waiting, k.tasks);
      SearchCleansUp(m.waiting, k.tasks, k.current, winner);
    }
  }

  /** `mutex_is_valid_task_context` */
  predicate IsTaskCaller(k: Sched) {
    k.running && k.started && k.current != IDLE
  }

  class MutexObject {
    var isInitialized: bool
    var isLocked: bool
    var ownerTaskId: nat
    var waitingTaskMask: bv32

    ghost function Abs(): Mtx
      reads this
    {
      Mtx(isLocked, ownerTaskId, Members(waitingTaskMask))
    }

    /** Storage that `os_mutex_init` has not been called on. */
    constructor ()
      ensures !isInitialized
    {
      isInitialized := false;
    }

    /** `os_mutex_init` */
    method Init() returns (status: MutexStatus)
      modifies this
      ensures status == MutexOk && isInitialized
      ensures Abs() == Mtx(false, NO_OWNER, {})
    {
      isLocked := false;
      ownerTaskId := NO_OWNER;
      waitingTaskMask := 0;
      isInitialized := true;
      ZeroIsEmpty();
      status := MutexOk;
    }

    /** The checks both calls make before their critical section. */
    method CheckCaller(sched: Scheduler) returns (status: MutexStatus)
      requires sched.Valid()
      ensures status == MutexNotInitialized <==> !isInitialized
      ensures status == MutexInvalidContext <==>
        isInitialized && (!sched.running || !sched.started || sched.current == IDLE)
      ensures status == MutexOk <==> isInitialized && IsTaskCaller(sched.Abs())
    {
      if !isInitialized {
        return MutexNotInitialized;
      }
      if !sched.running {
        return MutexInvalidContext;
      }
      if !sched.started {
        return MutexInvalidContext;
      }
      if sched.current == IDLE || sched.current >= sched.table.count {
        return MutexInvalidContext;
      }
      status := MutexOk;
    }

    /** One pass of the loop in `os_mutex_lock`. */
    method LockCritical(sched: Scheduler) returns (status: Option<MutexStatus>)
      requires sched.Valid() && sched.table.count <= MAX_TASKS
      modifies this, sched`masked, sched`pending, sched.table.entries
      ensures sched.Valid()
      ensures isInitialized == old(isInitialized)
      ensures old(isInitialized) ==> Abs() == LockPass(old(Abs()), old(sched.Abs())).mutex
      ensures old(isInitialized) ==> sched.Abs() == LockPass(old(Abs()), old(sched.Abs())).k
      ensures old(isInitialized) ==> status == LockPass(old(Abs()), old(sched.Abs())).status
      ensures !old(isInitialized) ==>
        status == Some(MutexNotInitialized) && Abs() == old(Abs()) && sched.Abs() == old(sched.Abs())
    {
      var irqState := sched.IrqSave();
      if !isInitialized {
        sched.IrqRestore(irqState);
        return Some(MutexNotInitialized);
      }
      if !isLocked {
        isLocked := true;
        ownerTaskId := sched.current;
        waitingTaskMask := Without(waitingTaskMask, sched.current);
        sched.IrqRestore(irqState);
        return Some(MutexOk);
      }
      if ownerTaskId == sched.current {
        var handedOver := Test(waitingTaskMask, sched.current);
        if handedOver {
          waitingTaskMask := Without(waitingTaskMask, sched.current);
          sched.IrqRestore(irqState);
          return Some(MutexOk);
        }
        sched.IrqRestore(irqState);
        return Some(MutexRecursiveLock);
      }
      if irqState {
        sched.IrqRestore(irqState);
        return Some(MutexInterruptsDisabled);
      }
      status := BlockCaller(sched);
      sched.IrqRestore(irqState);
    }

    /** The end of that pass, inside its critical section: mark the caller and block it. */
    method BlockCaller(sched: Scheduler) returns (status: Option<MutexStatus>)
      requires sched.Valid() && sched.table.count <= MAX_TASKS
      modifies `waitingTaskMask, sched`pending, sched.table.entries
      ensures sched.Valid()
      ensures var (tasks, taskStatus) := Block(old(sched.table.Tasks()), sched.current);
        && sched.table.Tasks() == tasks
        && status == (if taskStatus == TaskOk then None else Some(MutexTaskOperation))
        && sched.pending == (taskStatus == TaskOk || old(sched.pending))
        && Members(waitingTaskMask)
           == (if taskStatus == TaskOk then old(Members(waitingTaskMask)) + {sched.current}
               else old(Members(waitingTaskMask)) - {sched.current})
    {
      waitingTaskMask := With(waitingTaskMask, sched.current);
      var taskStatus := sched.table.BlockTask(sched.current);
      if taskStatus != TaskOk {
        waitingTaskMask := Without(waitingTaskMask, sched.current);
        return Some(MutexTaskOperation);
      }
      sched.TriggerContextSwitch();
      status := None;
    }

    /** The critical section of `os_mutex_unlock`. */
    method UnlockCritical(sched: Scheduler) returns (status: MutexStatus)
      requires sched.Valid() && sched.table.count <= MAX_TASKS
      modifies this, sched`masked, sched.table.entries
      ensures sched.Valid()
      ensures isInitialized == old(isInitialized)
      ensures MutexStep(Abs(), sched.Abs(), Some(status)) == UnlockPass(old(Abs()), old(sched.Abs()))
    {
      var irqState := sched.IrqSave();
      if !isLocked || ownerTaskId != sched.current {
        sched.IrqRestore(irqState);
        return MutexNotOwner;
      }
      var nextOwner, cleaned := FindNextWaitingTask(waitingTaskMask, sched.current, sched.table);
      waitingTaskMask := cleaned;
      if nextOwner == IDLE {
        isLocked := false;
        ownerTaskId := NO_OWNER;
        sched.IrqRestore(irqState);
        return MutexOk;
      }
      var taskStatus := sched.table.UnblockTask(nextOwner);
      if taskStatus != TaskOk {
        assert false;
      }
      ownerTaskId := nextOwner;
      isLocked := true;
      sched.IrqRestore(irqState);
      status := MutexOk;
    }

    /** `os_mutex_lock` up to its return, or up to the point where it blocks. */
    method Lock(sched: Scheduler) returns (status: Option<MutexStatus>)
      requires sched.Valid() && sched.table.count <= MAX_TASKS
      modifies this, sched`masked, sched`pending, sched.table.entries
      ensures sched.Valid() && isInitialized == old(isInitialized)
      ensures MutexStep(Abs(), sched.Abs(), status)
              == if !isInitialized then MutexStep(old(Abs()), old(sched.Abs()), Some(MutexNotInitialized))
                 else if IsTaskCaller(old(sched.Abs())) then LockPass(old(Abs()), old(sched.Abs()))
                 else MutexStep(old(Abs()), old(sched.Abs()), Some(MutexInvalidContext))
    {
      var check := CheckCaller(sched);
      if check != MutexOk {
        return Some(check);
      }
      status := LockCritical(sched);
    }

    /** `os_mutex_unlock` */
    method Unlock(sched: Scheduler) returns (status: MutexStatus)
      requires sched.Valid() && sched.table.count <= MAX_TASKS
      modifies this, sched`masked, sched.table.entries
      ensures sched.Valid() && isInitialized == old(isInitialized)
      ensures MutexStep(Abs(), sched.Abs(), Some(status))
              == if !isInitialized then MutexStep(old(Abs()), old(sched.Abs()), Some(MutexNotInitialized))
                 else if IsTaskCaller(old(sched.Abs())) then UnlockPass(old(Abs()), old(sched.Abs()))
                 else MutexStep(old(Abs()), old(sched.Abs()), Some(MutexInvalidContext))
    {
      var check := CheckCaller(sched);
      if check != MutexOk {
        return check;
      }
      status := UnlockCritical(sched);
    }
  }
}
