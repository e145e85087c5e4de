/** kernel/semaphore.c: the counting semaphore with direct handoff of units. */
module Semaphore {
  import opened RoundRobin
  import opened TaskMask
  import opened Task
  import opened Scheduling
  import opened Waiters

  datatype SemStatus =
    | SemOk
    | SemNotInitialized
    | SemInvalidCount
    | SemInvalidContext
    | SemTaskOperation
    | SemInterruptsDisabled
    | SemOverflow

  /**
   `waiting` and `granted` are the two task masks as sets of ids, `last` is
   `last_granted_task_id`.
   */
  datatype Sem = Sem(count: nat, maximum: nat, waiting: set<nat>, granted: set<nat>, last: nat)

  /** The outcome of one critical section; no status means the caller blocked and will retry. */
  datatype SemStep = SemStep(sem: Sem, k: Sched, status: Option<SemStatus>)

  /** One pass of the loop in `os_semaphore_wait`, by the current task. */
  function WaitPass(q: Sem, k: Sched): SemStep {
    var t := k.current;
    if t in q.granted then
      SemStep(q.(granted := q.granted - {t}, waiting := q.waiting - {t}), k, Some(SemOk))
    else if q.count > 0 then
      SemStep(q.(count := q.count - 1, waiting := q.waiting - {t}), k, Some(SemOk))
    else if k.masked then
      SemStep(q, k, Some(SemInterruptsDisabled))
    else
      var (tasks, status) := Block(k.tasks, t);
      if status != TaskOk then
        SemStep(q.(waiting := q.waiting - {t}), k, Some(SemTaskOperation))
      else
        SemStep(q.(waiting := q.waiting + {t}), k.(tasks := tasks, pending := true), None)
  }

  /** Neither mask tells the two apart for any task but `t`. */
  ghost predicate SameForOthers(a: set<nat>, b: set<nat>, t: nat) {
    forall c :: c != t ==> (c in a <==> c in b)
  }

  /**
   What a pass answers and what it leaves behind, in any state of the semaphore: a unit handed
   over is preferred to a free one, and a pass that returns OK leaves no marker of its caller.
   */
  lemma WaitPassIsExact(q: Sem, k: Sched)
    ensures var r, t, served := WaitPass(q, k), k.current, k.current in q.granted || q.count > 0;
      && (r.status == Some(SemOk) <==> served)
      && (r.status == Some(SemInterruptsDisabled) <==> !served && k.masked)
      && (r.status == None <==>
            !served && !k.masked && IDLE < t < |k.tasks| && k.tasks[t].state == Running)
      && (r.status.Some? ==> r.status.value in {SemOk, SemInterruptsDisabled, SemTaskOperation})
      && r.sem.count == (if served && t !in q.granted then q.count - 1 else q.count)
      && r.sem.maximum == q.maximum && r.sem.last == q.last
      && t !in r.sem.granted
      && (t in r.sem.waiting <==>
            r.status == None || (r.status == Some(SemInterruptsDisabled) && t in q.waiting))
      && SameForOthers(r.sem.waiting, q.waiting, t) && SameForOthers(r.sem.granted, q.granted, t)
      && (r.status != None ==> r.k == k)
      && (r.status == None ==> t < |k.tasks| && r.k == k.(tasks := k.tasks[t := Tcb(Blocked, 0)], pending := true))
  {
  }

  /** The critical section of `os_semaphore_post`. */
  function PostPass(q: Sem, k: Sched): SemStep
    requires q.last < |k.tasks|
  {
    var winner := Winner(q.waiting, k.tasks, q.last);
    var waiting := q.waiting - Stale(q.waiting, k.tasks, q.last);
    if winner != IDLE then
      var (tasks, _) := Unblock(k.tasks, winner);
      SemStep(q.(waiting := waiting - {winner}, granted := q.granted + {winner}, last := winner),
              k.(tasks := tasks), Some(SemOk))
    else if q.count >= q.maximum then
      SemStep(q.(waiting := waiting), k, Some(SemOverflow))
    else
      SemStep(q.(waiting := waiting, count := q.count + 1), k, Some(SemOk))
  }

  /** `semaphore_is_valid_task_context` */
  predicate IsTaskContext(k: Sched, exceptionNumber: nat) {
    exceptionNumber == 0 && k.running && k.started && k.current != IDLE
  }

  class SemaphoreObject {
    var isInitialized: bool
    var count: nat
    var maximumCount: nat
    var waitingTaskMask: bv32
    var grantedTaskMask: bv32
    var lastGrantedTaskId: nat

    ghost function Abs(): Sem
      reads this
    {
      Sem(count, maximumCount, Members(waitingTaskMask), Members(grantedTaskMask), lastGrantedTaskId)
    }

    /** Storage that `os_semaphore_init` has not been called on. */
    constructor ()
      ensures !isInitialized
    {
      isInitialized := false;
    }

    /** `os_semaphore_init` */
    method Init(initialCount: nat, maximum: nat) returns (status: SemStatus)
      modifies this
      ensures status == if maximum == 0 || initialCount > maximum then SemInvalidCount else SemOk
      ensures status == SemOk ==> isInitialized && Abs() == Sem(initialCount, maximum, {}, {}, IDLE)
      ensures status != SemOk ==> unchanged(this)
    {
      if maximum == 0 || initialCount > maximum {
        return SemInvalidCount;
      }
      count, maximumCount := initialCount, maximum;
      waitingTaskMask, grantedTaskMask := 0, 0;
      lastGrantedTaskId := IDLE;
      isInitialized := true;
      ZeroIsEmpty();
      status := SemOk;
    }

    /** The checks both calls make before their critical section. */
    method CheckCaller(sched: Scheduler, exceptionNumber: nat) returns (status: SemStatus)
      requires sched.Valid()
      ensures status == SemNotInitialized <==> !isInitialized
      ensures status == SemInvalidContext <==>
        isInitialized && (exceptionNumber != 0 || !sched.running || !sched.started || sched.current == IDLE)
      ensures status == SemOk <==> isInitialized && IsTaskContext(sched.Abs(), exceptionNumber)
    {
      if !isInitialized {
        return SemNotInitialized;
      }
      if exceptionNumber != 0 {
        return SemInvalidContext;
      }
      if !sched.running {
        return SemInvalidContext;
      }
      if !sched.started {
        return SemInvalidContext;
      }
      if sched.current == IDLE || sched.current >= sched.table.count {
        return SemInvalidContext;
      }
      status := SemOk;
    }

    /** One pass of the loop in `os_semaphore_wait`. */
    method WaitCritical(sched: Scheduler) returns (status: Option<SemStatus>)
      requires sched.Valid() && sched.table.count <= MAX_TASKS
      modifies this, sched`masked, sched`pending, sched.table.entries
      ensures sched.Valid()
      ensures isInitialized == old(isInitialized)
      ensures old(isInitialized) ==> Abs() == WaitPass(old(Abs()), old(sched.Abs())).sem
      ensures old(isInitialized) ==> sched.Abs() == WaitPass(old(Abs()), old(sched.Abs())).k
      ensures old(isInitialized) ==> status == WaitPass(old(Abs()), old(sched.Abs())).status
      ensures !old(isInitialized) ==>
        status == Some(SemNotInitialized) && Abs() == old(Abs()) && sched.Abs() == old(sched.Abs())
    {
      var irqState := sched.IrqSave();
      if !isInitialized {
        sched.IrqRestore(irqState);
        return Some(SemNotInitialized);
      }
      var granted := Test(grantedTaskMask, sched.current);
      if granted {
        grantedTaskMask := Without(grantedTaskMask, sched.current);
        waitingTaskMask := Without(waitingTaskMask, sched.current);
        sched.IrqRestore(irqState);
        return Some(SemOk);
      }
      if count > 0 {
        count := count - 1;
        waitingTaskMask := Without(waitingTaskMask, sched.current);
        sched.IrqRestore(irqState);
        return Some(SemOk);
      }
      if irqState {
        sched.IrqRestore(irqState);
        return Some(SemInterruptsDisabled);
      }
      status := BlockCaller(sched);
      sched.IrqRestore(irqState);
    }

    /** The end of that pass, inside its critical section: mark the caller and block it. */
    method BlockCaller(sched: Scheduler) returns (status: Option<SemStatus>)
      requires sched.Valid() && sched.table.count <= MAX_TASKS
      modifies `waitingTaskMask, sched`pending, sched.table.entries
      ensures sched.Valid()
      ensures var (tasks, taskStatus) := Block(old(sched.table.Tasks()), sched.current);
        && sched.table.Tasks() == tasks
        && status == (if taskStatus == TaskOk then None else Some(SemTaskOperation))
        && sched.pending == (taskStatus == TaskOk || old(sched.pending))
        && Members(waitingTaskMask)
           == (if taskStatus == TaskOk then old(Members(waitingTaskMask)) + {sched.current}
               else old(Members(waitingTaskMask)) - {sched.current})
    {
      waitingTaskMask := With(waitingTaskMask, sched.current);
      var taskStatus := sched.table.BlockTask(sched.current);
      if taskStatus != TaskOk {
        waitingTaskMask := Without(waitingTaskMask, sched.current);
        return Some(SemTaskOperation);
      }
      sched.TriggerContextSwitch();
      status := None;
    }

    /** The critical section of `os_semaphore_post`. */
    method PostCritical(sched: Scheduler) returns (status: SemStatus)
      requires sched.Valid() && sched.table.count <= MAX_TASKS && lastGrantedTaskId < sched.table.count
      modifies this, sched`masked, sched.table.entries
      ensures sched.Valid()
      ensures isInitialized == old(isInitialized)
      ensures SemStep(Abs(), sched.Abs(), Some(status)) == PostPass(old(Abs()), old(sched.Abs()))
    {
      var irqState := sched.IrqSave();
      var grantedTaskId, cleaned := FindNextWaitingTask(waitingTaskMask, lastGrantedTaskId, sched.table);
      waitingTaskMask := cleaned;
      if grantedTaskId != IDLE {
        HandOver(grantedTaskId, sched);
        sched.IrqRestore(irqState);
        return SemOk;
      }
      if count >= maximumCount {
        sched.IrqRestore(irqState);
        return SemOverflow;
      }
      count := count + 1;
      sched.IrqRestore(irqState);
      status := SemOk;
    }

    /** The direct handoff inside that critical section; the unblocking cannot fail. */
    method HandOver(winner: nat, sched: Scheduler)
      requires sched.Valid() && sched.table.count <= MAX_TASKS
      requires IDLE < winner < sched.table.count && sched.table.Tasks()[winner].state == Blocked
      modifies `waitingTaskMask, `grantedTaskMask, `lastGrantedTaskId, sched.table.entries
      ensures sched.Valid() && sched.table.Tasks() == Unblock(old(sched.table.Tasks()), winner).0
      ensures lastGrantedTaskId == winner
      ensures Members(waitingTaskMask) == old(Members(waitingTaskMask)) - {winner}
      ensures Members(grantedTaskMask) == old(Members(grantedTaskMask)) + {winner}
    {
      waitingTaskMask := Without(waitingTaskMask, winner);
      grantedTaskMask := With(grantedTaskMask, winner);
      lastGrantedTaskId := winner;
      var taskStatus := sched.table.UnblockTask(winner);
      if taskStatus != TaskOk {
        assert false;
      }
    }

    /** `os_semaphore_wait` up to its return, or up to the point where it blocks. */
    method Wait(sched: Scheduler, exceptionNumber: nat) returns (status: Option<SemStatus>)
      requires sched.Valid() && sched.table.count <= MAX_TASKS
      modifies this, sched`masked, sched`pending, sched.table.entries
      ensures sched.Valid() && isInitialized == old(isInitialized)
      ensures SemStep(Abs(), sched.Abs(), status)
              == if !isInitialized then SemStep(old(Abs()), old(sched.Abs()), Some(SemNotInitialized))
                 else if IsTaskContext(old(sched.Abs()), exceptionNumber) then WaitPass(old(Abs()), old(sched.Abs()))
                 else SemStep(old(Abs()), old(sched.Abs()), Some(SemInvalidContext))
    {
      var check := CheckCaller(sched, exceptionNumber);
      if check != SemOk {
        return Some(check);
      }
      status := WaitCritical(sched);
    }

    /** `os_semaphore_post` */
    method Post(sched: Scheduler, exceptionNumber: nat) returns (status: SemStatus)
      requires sched.Valid() && sched.table.count <= MAX_TASKS
      requires isInitialized ==> lastGrantedTaskId < sched.table.count
      modifies this, sched`masked, sched.table.entries
      ensures sched.Valid() && isInitialized == old(isInitialized)
      ensures SemStep(Abs(), sched.Abs(), Some(status))
              == if !isInitialized then SemStep(old(Abs()), old(sched.Abs()), Some(SemNotInitialized))
                 else if IsTaskContext(old(sched.Abs()), exceptionNumber) then PostPass(old(Abs()), old(sched.Abs()))
                 else SemStep(old(Abs()), old(sched.Abs()), Some(SemInvalidContext))
    {
      var check := CheckCaller(sched, exceptionNumber);
      if check != SemOk {
        return check;
      }
      status := PostCritical(sched);
    }
  }
}
