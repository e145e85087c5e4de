/**
 Concrete runs, each on every configuration of the queue: a lost wakeup, a semaphore with more
 units handed over than its maximum, and a sleep that ends 2^31 ticks too early.
 */
module Instances {
  import opened RoundRobin
  import opened Waiters
  import opened Task
  import opened Scheduling
  import opened Semaphore
  import opened System
  import opened RunFacts
  import opened SleepTheorems
  import opened WorkConservation
  import opened Boot

  // ---------------------------------------------------------------------------
  // Building a run step by step
  // ---------------------------------------------------------------------------

  /** The states of the run that takes the given steps from `s`. */
  ghost function StatesFrom(s: State, labels: seq<Label>): (states: seq<State>)
    requires CanTake(s, labels)
    ensures |states| == |labels| + 1 && states[0] == s
    decreases |labels|
  {
    if labels == [] then [s] else [s] + StatesFrom(Apply(s, labels[0]), labels[1..])
  }

  ghost predicate CanTake(s: State, labels: seq<Label>)
    decreases |labels|
  {
    labels == [] || (Shape(s) && Enabled(s, labels[0]) && CanTake(Apply(s, labels[0]), labels[1..]))
  }

  lemma {:induction false} StatesAreRun(s: State, labels: seq<Label>)
    requires CanTake(s, labels)
    ensures IsRun(StatesFrom(s, labels), labels)
    decreases |labels|
  {
    if labels == [] {
    } else {
      var rest := StatesFrom(Apply(s, labels[0]), labels[1..]);
      StatesAreRun(Apply(s, labels[0]), labels[1..]);
      forall i | 0 <= i < |labels| ensures StepAt(StatesFrom(s, labels), labels, i) {
        if i > 0 {
          assert StepAt(rest, labels[1..], i - 1);
        }
      }
    }
  }

  /** The steps lead from `s` to `last`. */
  ghost predicate Leads(s: State, labels: seq<Label>, last: State)
    decreases |labels|
  {
    if labels == [] then s == last
    else Shape(s) && Enabled(s, labels[0]) && Leads(Apply(s, labels[0]), labels[1..], last)
  }

  lemma {:induction false} LeadsToLast(s: State, labels: seq<Label>, last: State)
    requires Leads(s, labels, last)
    ensures CanTake(s, labels) && StatesFrom(s, labels)[|labels|] == last
    decreases |labels|
  {
    if labels == [] {
    } else {
      LeadsToLast(Apply(s, labels[0]), labels[1..], last);
    }
  }

  lemma StepLeads(s: State, l: Label, s': State)
    requires IsStep(s, l, s')
    ensures Leads(s, [l], s')
  {
    assert [l][1..] == [];
  }

  lemma {:induction false} LeadsOn(s: State, first: seq<Label>, mid: State, next: seq<Label>, last: State)
    requires Leads(s, first, mid) && Leads(mid, next, last)
    ensures Leads(s, first + next, last)
    decreases |first|
  {
    if first == [] {
      assert first + next == next;
    } else {
      assert (first + next)[1..] == first[1..] + next;
      LeadsOn(Apply(s, first[0]), first[1..], mid, next, last);
    }
  }

  lemma ThreeStepsLead(s0: State, l0: Label, s1: State, l1: Label, s2: State, l2: Label, s3: State)
    requires IsStep(s0, l0, s1) && IsStep(s1, l1, s2) && IsStep(s2, l2, s3)
    ensures Leads(s0, [l0, l1, l2], s3)
  {
    StepLeads(s0, l0, s1);
    StepLeads(s1, l1, s2);
    StepLeads(s2, l2, s3);
    LeadsOn(s0, [l0], s1, [l1], s2);
    LeadsOn(s0, [l0] + [l1], s2, [l2], s3);
    assert [l0] + [l1] + [l2] == [l0, l1, l2];
  }

  lemma PartsLead(s0: State, p0: seq<Label>, s1: State, p1: seq<Label>, s2: State, p2: seq<Label>, s3: State)
    requires Leads(s0, p0, s1) && Leads(s1, p1, s2) && Leads(s2, p2, s3)
    ensures Leads(s0, p0 + p1 + p2, s3)
  {
    LeadsOn(s0, p0, s1, p1, s2);
    LeadsOn(s0, p0 + p1, s2, p2, s3);
  }

  // ---------------------------------------------------------------------------
  // Snapshots of a small system
  // ---------------------------------------------------------------------------

  const RESOURCE: nat := 2
  const WAITING: Pc := WaitPc(RESOURCE, User)
  const POSTING: Pc := PostPc(RESOURCE, User)

  const RD: Tcb := Tcb(Ready, 0)
  const RUN: Tcb := Tcb(Running, 0)
  const BLK: Tcb := Tcb(Blocked, 0)

  predicate IsQueueConfig(cfg: Config) {
    0 < cfg.messageSize && 0 < cfg.capacity && 0 < cfg.slice
  }

  /** The scheduler after `ticks` ticks, without preemption and with interrupts enabled. */
  ghost function Kernel(tasks: seq<Tcb>, current: nat, started: bool, pending: bool, ticks: nat): Sched {
    Sched(tasks, current, true, false, 0, started, pending, false, ticks)
  }

  /** Idle and the given tasks, with one empty semaphore of their own beside the queue. */
  ghost function Snap(cfg: Config, k: Sched, h: Handler, overlooked: set<nat>, pcs: seq<Pc>, q: Sem): State
    requires IsQueueConfig(cfg) && 1 <= |pcs| <= 4
  {
    var boot := BootState(cfg, |pcs|, [Counts(0, 1)], 0);
    boot.(os := k, handler := h, overlooked := overlooked, pcs := pcs, sems := boot.sems[RESOURCE := q])
  }

  lemma FirstTaskIsChosen(tasks: nat)
    requires 2 <= tasks
    ensures Dispatch(BeforeStart(tasks)) == Kernel(BeforeStart(tasks).tasks[1 := RUN], 1, false, false, 0)
  {
    NextIsUnique(IDLE, tasks, ReadyIds(BeforeStart(tasks).tasks), 1);
  }

  // ---------------------------------------------------------------------------
  // A lost wakeup
  // ---------------------------------------------------------------------------

  const NAP: Tcb := Tcb(Sleeping, 1)
  const DRY: Sem := Sem(0, 1, {}, {}, IDLE)
  const WANTED: Sem := Sem(0, 1, {2}, {}, IDLE)

  /** Idle and two tasks, after the start. */
  ghost function Duo(cfg: Config, tasks: seq<Tcb>, current: nat, pending: bool, ticks: nat,
                     h: Handler, overlooked: set<nat>, pc1: Pc, pc2: Pc, q: Sem): State
    requires IsQueueConfig(cfg)
  {
    Snap(cfg, Kernel(tasks, current, true, pending, ticks), h, overlooked, [App, pc1, pc2], q)
  }

  lemma DuoStarts(cfg: Config)
    requires IsQueueConfig(cfg)
    ensures Leads(BootState(cfg, 3, [Counts(0, 1)], 0), [SvcStart],
                  Duo(cfg, [RD, RUN, RD], 1, false, 0, Inactive, {}, App, App, DRY))
  {
    FirstTaskIsChosen(3);
    var boot := BootState(cfg, 3, [Counts(0, 1)], 0);
    assert BeforeStart(3).tasks[1 := RUN] == [RD, RUN, RD];
    assert boot.sems[RESOURCE] == DRY && boot.pcs == [App, App, App];
    StepLeads(boot, SvcStart, Duo(cfg, [RD, RUN, RD], 1, false, 0, Inactive, {}, App, App, DRY));
  }

  lemma SleepIsStep(cfg: Config)
    requires IsQueueConfig(cfg)
    ensures IsStep(Duo(cfg, [RD, RUN, RD], 1, false, 0, Inactive, {}, SleepPc(1), App, DRY), TaskStep(Continue),
                   Duo(cfg, [RD, NAP, RD], 1, true, 0, Inactive, {}, App, App, DRY))
  {
  }

  /** Task 1 goes to sleep for one tick. */
  lemma FirstTaskSleeps(cfg: Config)
    requires IsQueueConfig(cfg)
    ensures Leads(Duo(cfg, [RD, RUN, RD], 1, false, 0, Inactive, {}, App, App, DRY),
                  [TaskStep(CallSleep(1)), TaskStep(Continue), PendSvIrq],
                  Duo(cfg, [RD, NAP, RD], 1, false, 0, Searching(1), {}, App, App, DRY))
  {
    SleepIsStep(cfg);
    ThreeStepsLead(Duo(cfg, [RD, RUN, RD], 1, false, 0, Inactive, {}, App, App, DRY), TaskStep(CallSleep(1)),
                   Duo(cfg, [RD, RUN, RD], 1, false, 0, Inactive, {}, SleepPc(1), App, DRY), TaskStep(Continue),
                   Duo(cfg, [RD, NAP, RD], 1, true, 0, Inactive, {}, App, App, DRY), PendSvIrq,
                   Duo(cfg, [RD, NAP, RD], 1, false, 0, Searching(1), {}, App, App, DRY));
  }

  /** Task 2 runs and waits for a unit. */
  lemma SecondTaskWaits(cfg: Config)
    requires IsQueueConfig(cfg)
    ensures Leads(Duo(cfg, [RD, NAP, RD], 1, false, 0, Searching(1), {}, App, App, DRY),
                  [PendSvCode, PendSvCode, TaskStep(CallWait(RESOURCE))],
                  Duo(cfg, [RD, NAP, RUN], 2, false, 0, Inactive, {}, App, WAITING, DRY))
  {
    ThreeStepsLead(Duo(cfg, [RD, NAP, RD], 1, false, 0, Searching(1), {}, App, App, DRY), PendSvCode,
                   Duo(cfg, [RD, NAP, RUN], 1, false, 0, Chosen(2), {}, App, App, DRY), PendSvCode,
                   Duo(cfg, [RD, NAP, RUN], 2, false, 0, Inactive, {}, App, App, DRY), TaskStep(CallWait(RESOURCE)),
                   Duo(cfg, [RD, NAP, RUN], 2, false, 0, Inactive, {}, App, WAITING, DRY));
  }

  lemma BlockIsStep(cfg: Config)
    requires IsQueueConfig(cfg)
    ensures IsStep(Duo(cfg, [RD, NAP, RUN], 2, false, 0, Inactive, {}, App, WAITING, DRY), TaskStep(Continue),
                   Duo(cfg, [RD, NAP, BLK], 2, true, 0, Inactive, {}, App, WAITING, WANTED))
  {
    assert DRY.waiting + {2} == WANTED.waiting;
  }

  /** It blocks, and the search for the next task begins. */
  lemma SecondTaskBlocks(cfg: Config)
    requires IsQueueConfig(cfg)
    ensures Leads(Duo(cfg, [RD, NAP, RUN], 2, false, 0, Inactive, {}, App, WAITING, DRY),
                  [TaskStep(Continue), PendSvIrq, PendSvCode],
                  Duo(cfg, [RD, NAP, BLK], 2, false, 0, Searching(2), {}, App, WAITING, WANTED))
  {
    BlockIsStep(cfg);
    ThreeStepsLead(Duo(cfg, [RD, NAP, RUN], 2, false, 0, Inactive, {}, App, WAITING, DRY), TaskStep(Continue),
                   Duo(cfg, [RD, NAP, BLK], 2, true, 0, Inactive, {}, App, WAITING, WANTED), PendSvIrq,
                   Duo(cfg, [RD, NAP, BLK], 2, false, 0, Searching(1), {}, App, WAITING, WANTED), PendSvCode,
                   Duo(cfg, [RD, NAP, BLK], 2, false, 0, Searching(2), {}, App, WAITING, WANTED));
  }

  /** The search passes task 1, and only then the tick wakes it. */
  lemma TickComesTooLate(cfg: Config)
    requires IsQueueConfig(cfg)
    ensures Leads(Duo(cfg, [RD, NAP, BLK], 2, false, 0, Searching(2), {}, App, WAITING, WANTED),
                  [PendSvCode, SysTickIrq, PendSvCode],
                  Duo(cfg, [RD, RD, BLK], 2, false, 1, Searching(4), {1}, App, WAITING, WANTED))
  {
    var s1 := Duo(cfg, [RD, NAP, BLK], 2, false, 0, Searching(3), {}, App, WAITING, WANTED);
    var s2 := Duo(cfg, [RD, RD, BLK], 2, false, 1, Searching(3), {1}, App, WAITING, WANTED);
    assert WakeExpired([RD, NAP, BLK], 1) == [RD, RD, BLK];
    assert PassedAndDue(s1.os, s1.handler, 1) == {1};
    ThreeStepsLead(Duo(cfg, [RD, NAP, BLK], 2, false, 0, Searching(2), {}, App, WAITING, WANTED), PendSvCode,
                   s1, SysTickIrq, s2, PendSvCode,
                   Duo(cfg, [RD, RD, BLK], 2, false, 1, Searching(4), {1}, App, WAITING, WANTED));
  }

  lemma IdleIsChosen(cfg: Config)
    requires IsQueueConfig(cfg)
    ensures Leads(Duo(cfg, [RD, RD, BLK], 2, false, 1, Searching(4), {1}, App, WAITING, WANTED),
                  [PendSvCode] + [PendSvCode],
                  Duo(cfg, [RUN, RD, BLK], 0, false, 1, Inactive, {1}, App, WAITING, WANTED))
  {
    var s0 := Duo(cfg, [RD, RD, BLK], 2, false, 1, Searching(4), {1}, App, WAITING, WANTED);
    var s1 := Duo(cfg, [RUN, RD, BLK], 2, false, 1, Chosen(IDLE), {1}, App, WAITING, WANTED);
    var s2 := Duo(cfg, [RUN, RD, BLK], 0, false, 1, Inactive, {1}, App, WAITING, WANTED);
    StepLeads(s0, PendSvCode, s1);
    StepLeads(s1, PendSvCode, s2);
    LeadsOn(s0, [PendSvCode], s1, [PendSvCode], s2);
  }

  lemma FirstHalf(cfg: Config) returns (path: seq<Label>)
    requires IsQueueConfig(cfg)
    ensures Leads(BootState(cfg, 3, [Counts(0, 1)], 0), path,
                  Duo(cfg, [RD, NAP, RUN], 2, false, 0, Inactive, {}, App, WAITING, DRY))
  {
    DuoStarts(cfg);
    FirstTaskSleeps(cfg);
    SecondTaskWaits(cfg);
    PartsLead(BootState(cfg, 3, [Counts(0, 1)], 0), [SvcStart],
              Duo(cfg, [RD, RUN, RD], 1, false, 0, Inactive, {}, App, App, DRY),
              [TaskStep(CallSleep(1)), TaskStep(Continue), PendSvIrq],
              Duo(cfg, [RD, NAP, RD], 1, false, 0, Searching(1), {}, App, App, DRY),
              [PendSvCode, PendSvCode, TaskStep(CallWait(RESOURCE))],
              Duo(cfg, [RD, NAP, RUN], 2, false, 0, Inactive, {}, App, WAITING, DRY));
    path := [SvcStart]
            + [TaskStep(CallSleep(1)), TaskStep(Continue), PendSvIrq]
            + [PendSvCode, PendSvCode, TaskStep(CallWait(RESOURCE))];
  }

  lemma SecondHalf(cfg: Config) returns (path: seq<Label>)
    requires IsQueueConfig(cfg)
    ensures Leads(Duo(cfg, [RD, NAP, RUN], 2, false, 0, Inactive, {}, App, WAITING, DRY), path,
                  Duo(cfg, [RUN, RD, BLK], 0, false, 1, Inactive, {1}, App, WAITING, WANTED))
  {
    SecondTaskBlocks(cfg);
    TickComesTooLate(cfg);
    IdleIsChosen(cfg);
    PartsLead(Duo(cfg, [RD, NAP, RUN], 2, false, 0, Inactive, {}, App, WAITING, DRY),
              [TaskStep(Continue), PendSvIrq, PendSvCode],
              Duo(cfg, [RD, NAP, BLK], 2, false, 0, Searching(2), {}, App, WAITING, WANTED),
              [PendSvCode, SysTickIrq, PendSvCode],
              Duo(cfg, [RD, RD, BLK], 2, false, 1, Searching(4), {1}, App, WAITING, WANTED),
              [PendSvCode] + [PendSvCode],
              Duo(cfg, [RUN, RD, BLK], 0, false, 1, Inactive, {1}, App, WAITING, WANTED));
    path := [TaskStep(Continue), PendSvIrq, PendSvCode]
            + [PendSvCode, SysTickIrq, PendSvCode]
            + ([PendSvCode] + [PendSvCode]);
  }

  /** A run from boot through a state in between. */
  lemma BootLeads(cfg: Config, tasks: nat, first: seq<Label>, mid: State, next: seq<Label>, last: State)
    returns (states: seq<State>, labels: seq<Label>)
    requires IsQueueConfig(cfg) && 1 <= tasks <= 4
    requires Leads(BootState(cfg, tasks, [Counts(0, 1)], 0), first, mid) && Leads(mid, next, last)
    ensures Execution(states, labels) && states[|labels|] == last
  {
    var boot := BootState(cfg, tasks, [Counts(0, 1)], 0);
    BootIsInit(cfg, tasks, [Counts(0, 1)], 0);
    LeadsOn(boot, first, mid, next, last);
    labels := first + next;
    LeadsToLast(boot, labels, last);
    StatesAreRun(boot, labels);
    states := StatesFrom(boot, labels);
  }

  /**
   Task 1 sleeps, task 2 waits for a unit, and the tick that wakes task 1 falls into the search
   that has just passed it: idle runs, and `StrandedForEver` says that it keeps running.
   */
  lemma LostWakeup(cfg: Config) returns (states: seq<State>, labels: seq<Label>)
    requires IsQueueConfig(cfg)
    ensures Execution(states, labels) && Stranded(states[|labels|], 1)
  {
    var first := FirstHalf(cfg);
    var second := SecondHalf(cfg);
    states, labels := BootLeads(cfg, 3, first,
                                Duo(cfg, [RD, NAP, RUN], 2, false, 0, Inactive, {}, App, WAITING, DRY),
                                second,
                                Duo(cfg, [RUN, RD, BLK], 0, false, 1, Inactive, {1}, App, WAITING, WANTED));
  }

  // ---------------------------------------------------------------------------
  // More units handed over than the maximum
  // ---------------------------------------------------------------------------

  /** Idle and three tasks, after the start; nobody sleeps. */
  ghost function Trio(cfg: Config, tasks: seq<Tcb>, current: nat, pending: bool, h: Handler,
                      pcs: seq<Pc>, q: Sem): State
    requires IsQueueConfig(cfg) && |pcs| == 4
  {
    Snap(cfg, Kernel(tasks, current, true, pending, 0), h, {}, pcs, q)
  }

  const FIRST: Sem := Sem(0, 1, {1}, {}, IDLE)
  const BOTH: Sem := Sem(0, 1, {1, 2}, {}, IDLE)
  const ONE_GRANTED: Sem := Sem(0, 1, {2}, {1}, 1)
  const TWO_GRANTED: Sem := Sem(0, 1, {}, {1, 2}, 2)

  lemma TrioStarts(cfg: Config)
    requires IsQueueConfig(cfg)
    ensures Leads(BootState(cfg, 4, [Counts(0, 1)], 0), [SvcStart],
                  Trio(cfg, [RD, RUN, RD, RD], 1, false, Inactive, [App, App, App, App], DRY))
  {
    FirstTaskIsChosen(4);
    var boot := BootState(cfg, 4, [Counts(0, 1)], 0);
    assert BeforeStart(4).tasks[1 := RUN] == [RD, RUN, RD, RD];
    assert boot.sems[RESOURCE] == DRY && boot.pcs == [App, App, App, App];
    StepLeads(boot, SvcStart, Trio(cfg, [RD, RUN, RD, RD], 1, false, Inactive, [App, App, App, App], DRY));
  }

  lemma FirstBlockIsStep(cfg: Config)
    requires IsQueueConfig(cfg)
    ensures IsStep(Trio(cfg, [RD, RUN, RD, RD], 1, false, Inactive, [App, WAITING, App, App], DRY), TaskStep(Continue),
                   Trio(cfg, [RD, BLK, RD, RD], 1, true, Inactive, [App, WAITING, App, App], FIRST))
  {
    assert DRY.waiting + {1} == FIRST.waiting;
  }

  lemma FirstWaits(cfg: Config)
    requires IsQueueConfig(cfg)
    ensures Leads(Trio(cfg, [RD, RUN, RD, RD], 1, false, Inactive, [App, App, App, App], DRY),
                  [TaskStep(CallWait(RESOURCE)), TaskStep(Continue), PendSvIrq],
                  Trio(cfg, [RD, BLK, RD, RD], 1, false, Searching(1), [App, WAITING, App, App], FIRST))
  {
    FirstBlockIsStep(cfg);
    ThreeStepsLead(Trio(cfg, [RD, RUN, RD, RD], 1, false, Inactive, [App, App, App, App], DRY),
                   TaskStep(CallWait(RESOURCE)),
                   Trio(cfg, [RD, RUN, RD, RD], 1, false, Inactive, [App, WAITING, App, App], DRY), TaskStep(Continue),
                   Trio(cfg, [RD, BLK, RD, RD], 1, true, Inactive, [App, WAITING, App, App], FIRST), PendSvIrq,
                   Trio(cfg, [RD, BLK, RD, RD], 1, false, Searching(1), [App, WAITING, App, App], FIRST));
  }

  lemma SecondWaits(cfg: Config)
    requires IsQueueConfig(cfg)
    ensures Leads(Trio(cfg, [RD, BLK, RD, RD], 1, false, Searching(1), [App, WAITING, App, App], FIRST),
                  [PendSvCode, PendSvCode, TaskStep(CallWait(RESOURCE))],
                  Trio(cfg, [RD, BLK, RUN, RD], 2, false, Inactive, [App, WAITING, WAITING, App], FIRST))
  {
    ThreeStepsLead(Trio(cfg, [RD, BLK, RD, RD], 1, false, Searching(1), [App, WAITING, App, App], FIRST), PendSvCode,
                   Trio(cfg, [RD, BLK, RUN, RD], 1, false, Chosen(2), [App, WAITING, App, App], FIRST), PendSvCode,
                   Trio(cfg, [RD, BLK, RUN, RD], 2, false, Inactive, [App, WAITING, App, App], FIRST),
                   TaskStep(CallWait(RESOURCE)),
                   Trio(cfg, [RD, BLK, RUN, RD], 2, false, Inactive, [App, WAITING, WAITING, App], FIRST));
  }

  lemma SecondBlockIsStep(cfg: Config)
    requires IsQueueConfig(cfg)
    ensures IsStep(Trio(cfg, [RD, BLK, RUN, RD], 2, false, Inactive, [App, WAITING, WAITING, App], FIRST),
                   TaskStep(Continue),
                   Trio(cfg, [RD, BLK, BLK, RD], 2, true, Inactive, [App, WAITING, WAITING, App], BOTH))
  {
    assert FIRST.waiting + {2} == BOTH.waiting;
  }

  lemma SecondBlocks(cfg: Config)
    requires IsQueueConfig(cfg)
    ensures Leads(Trio(cfg, [RD, BLK, RUN, RD], 2, false, Inactive, [App, WAITING, WAITING, App], FIRST),
                  [TaskStep(Continue), PendSvIrq, PendSvCode],
                  Trio(cfg, [RD, BLK, BLK, RUN], 2, false, Chosen(3), [App, WAITING, WAITING, App], BOTH))
  {
    SecondBlockIsStep(cfg);
    ThreeStepsLead(Trio(cfg, [RD, BLK, RUN, RD], 2, false, Inactive, [App, WAITING, WAITING, App], FIRST),
                   TaskStep(Continue),
                   Trio(cfg, [RD, BLK, BLK, RD], 2, true, Inactive, [App, WAITING, WAITING, App], BOTH), PendSvIrq,
                   Trio(cfg, [RD, BLK, BLK, RD], 2, false, Searching(1), [App, WAITING, WAITING, App], BOTH),
                   PendSvCode,
                   Trio(cfg, [RD, BLK, BLK, RUN], 2, false, Chosen(3), [App, WAITING, WAITING, App], BOTH));
  }

  lemma PostServes(q: Sem, k: Sched, winner: nat, q': Sem)
    requires q.last < |k.tasks| && IDLE < winner < |k.tasks| && winner in q.waiting
    requires forall c :: c in q.waiting ==> IDLE < c < |k.tasks| && k.tasks[c].state == Blocked
    requires IsNext(q.last, |k.tasks|, q.waiting, winner)
    requires q' == q.(waiting := q.waiting - {winner}, granted := q.granted + {winner}, last := winner)
    ensures PostPass(q, k) == SemStep(q', k.(tasks := k.tasks[winner := RD]), Some(SemOk))
  {
    NothingIsStale(q.waiting, k.tasks, q.last);
    NextIsUnique(q.last, |k.tasks|, q.waiting, winner);
    assert q.waiting - {} == q.waiting;
  }

  /** The post of task 3 serves `winner`. */
  lemma PostIsStep(cfg: Config, tasks: seq<Tcb>, pcs: seq<Pc>, q: Sem, winner: nat, q': Sem)
    requires IsQueueConfig(cfg) && |tasks| == |pcs| == 4 && pcs[3] == POSTING && q.last < 4
    requires forall t :: 0 <= t < 3 ==> pcs[t] in {App, WAITING}
    requires IDLE < winner < 4 && PostPass(q, Kernel(tasks, 3, true, false, 0))
             == SemStep(q', Kernel(tasks[winner := RD], 3, true, false, 0), Some(SemOk))
    ensures IsStep(Trio(cfg, tasks, 3, false, Inactive, pcs, q), TaskStep(Continue),
                   Trio(cfg, tasks[winner := RD], 3, false, Inactive, pcs[3 := App], q'))
  {
  }

  lemma FirstPostIsStep(cfg: Config)
    requires IsQueueConfig(cfg)
    ensures IsStep(Trio(cfg, [RD, BLK, BLK, RUN], 3, false, Inactive, [App, WAITING, WAITING, POSTING], BOTH),
                   TaskStep(Continue),
                   Trio(cfg, [RD, RD, BLK, RUN], 3, false, Inactive, [App, WAITING, WAITING, App], ONE_GRANTED))
  {
    var tasks := [RD, BLK, BLK, RUN];
    assert BOTH.waiting - {1} == ONE_GRANTED.waiting && BOTH.granted + {1} == ONE_GRANTED.granted;
    PostServes(BOTH, Kernel(tasks, 3, true, false, 0), 1, ONE_GRANTED);
    PostIsStep(cfg, tasks, [App, WAITING, WAITING, POSTING], BOTH, 1, ONE_GRANTED);
    assert tasks[1 := RD] == [RD, RD, BLK, RUN];
    assert [App, WAITING, WAITING, POSTING][3 := App] == [App, WAITING, WAITING, App];
  }

  lemma SecondPostIsStep(cfg: Config)
    requires IsQueueConfig(cfg)
    ensures IsStep(Trio(cfg, [RD, RD, BLK, RUN], 3, false, Inactive, [App, WAITING, WAITING, POSTING], ONE_GRANTED),
                   TaskStep(Continue),
                   Trio(cfg, [RD, RD, RD, RUN], 3, false, Inactive, [App, WAITING, WAITING, App], TWO_GRANTED))
  {
    var tasks := [RD, RD, BLK, RUN];
    assert ONE_GRANTED.waiting - {2} == TWO_GRANTED.waiting && ONE_GRANTED.granted + {2} == TWO_GRANTED.granted;
    PostServes(ONE_GRANTED, Kernel(tasks, 3, true, false, 0), 2, TWO_GRANTED);
    PostIsStep(cfg, tasks, [App, WAITING, WAITING, POSTING], ONE_GRANTED, 2, TWO_GRANTED);
    assert tasks[2 := RD] == [RD, RD, RD, RUN];
    assert [App, WAITING, WAITING, POSTING][3 := App] == [App, WAITING, WAITING, App];
  }

  lemma ThirdPosts(cfg: Config)
    requires IsQueueConfig(cfg)
    ensures Leads(Trio(cfg, [RD, BLK, BLK, RUN], 2, false, Chosen(3), [App, WAITING, WAITING, App], BOTH),
                  [PendSvCode, TaskStep(CallPost(RESOURCE)), TaskStep(Continue)],
                  Trio(cfg, [RD, RD, BLK, RUN], 3, false, Inactive, [App, WAITING, WAITING, App], ONE_GRANTED))
  {
    FirstPostIsStep(cfg);
    ThreeStepsLead(Trio(cfg, [RD, BLK, BLK, RUN], 2, false, Chosen(3), [App, WAITING, WAITING, App], BOTH), PendSvCode,
                   Trio(cfg, [RD, BLK, BLK, RUN], 3, false, Inactive, [App, WAITING, WAITING, App], BOTH),
                   TaskStep(CallPost(RESOURCE)),
                   Trio(cfg, [RD, BLK, BLK, RUN], 3, false, Inactive, [App, WAITING, WAITING, POSTING], BOTH),
                   TaskStep(Continue),
                   Trio(cfg, [RD, RD, BLK, RUN], 3, false, Inactive, [App, WAITING, WAITING, App], ONE_GRANTED));
  }

  lemma ThirdPostsAgain(cfg: Config)
    requires IsQueueConfig(cfg)
    ensures Leads(Trio(cfg, [RD, RD, BLK, RUN], 3, false, Inactive, [App, WAITING, WAITING, App], ONE_GRANTED),
                  [TaskStep(CallPost(RESOURCE))] + [TaskStep(Continue)],
                  Trio(cfg, [RD, RD, RD, RUN], 3, false, Inactive, [App, WAITING, WAITING, App], TWO_GRANTED))
  {
    var s0 := Trio(cfg, [RD, RD, BLK, RUN], 3, false, Inactive, [App, WAITING, WAITING, App], ONE_GRANTED);
    var s1 := Trio(cfg, [RD, RD, BLK, RUN], 3, false, Inactive, [App, WAITING, WAITING, POSTING], ONE_GRANTED);
    var s2 := Trio(cfg, [RD, RD, RD, RUN], 3, false, Inactive, [App, WAITING, WAITING, App], TWO_GRANTED);
    SecondPostIsStep(cfg);
    StepLeads(s0, TaskStep(CallPost(RESOURCE)), s1);
    StepLeads(s1, TaskStep(Continue), s2);
    LeadsOn(s0, [TaskStep(CallPost(RESOURCE))], s1, [TaskStep(Continue)], s2);
  }

  lemma BothWait(cfg: Config) returns (path: seq<Label>)
    requires IsQueueConfig(cfg)
    ensures Leads(BootState(cfg, 4, [Counts(0, 1)], 0), path,
                  Trio(cfg, [RD, BLK, RUN, RD], 2, false, Inactive, [App, WAITING, WAITING, App], FIRST))
  {
    TrioStarts(cfg);
    FirstWaits(cfg);
    SecondWaits(cfg);
    PartsLead(BootState(cfg, 4, [Counts(0, 1)], 0), [SvcStart],
              Trio(cfg, [RD, RUN, RD, RD], 1, false, Inactive, [App, App, App, App], DRY),
              [TaskStep(CallWait(RESOURCE)), TaskStep(Continue), PendSvIrq],
              Trio(cfg, [RD, BLK, RD, RD], 1, false, Searching(1), [App, WAITING, App, App], FIRST),
              [PendSvCode, PendSvCode, TaskStep(CallWait(RESOURCE))],
              Trio(cfg, [RD, BLK, RUN, RD], 2, false, Inactive, [App, WAITING, WAITING, App], FIRST));
    path := [SvcStart]
            + [TaskStep(CallWait(RESOURCE)), TaskStep(Continue), PendSvIrq]
            + [PendSvCode, PendSvCode, TaskStep(CallWait(RESOURCE))];
  }

  lemma BothAreServed(cfg: Config) returns (path: seq<Label>)
    requires IsQueueConfig(cfg)
    ensures Leads(Trio(cfg, [RD, BLK, RUN, RD], 2, false, Inactive, [App, WAITING, WAITING, App], FIRST),
                  path,
                  Trio(cfg, [RD, RD, RD, RUN], 3, false, Inactive, [App, WAITING, WAITING, App], TWO_GRANTED))
  {
    SecondBlocks(cfg);
    ThirdPosts(cfg);
    ThirdPostsAgain(cfg);
    PartsLead(Trio(cfg, [RD, BLK, RUN, RD], 2, false, Inactive, [App, WAITING, WAITING, App], FIRST),
              [TaskStep(Continue), PendSvIrq, PendSvCode],
              Trio(cfg, [RD, BLK, BLK, RUN], 2, false, Chosen(3), [App, WAITING, WAITING, App], BOTH),
              [PendSvCode, TaskStep(CallPost(RESOURCE)), TaskStep(Continue)],
              Trio(cfg, [RD, RD, BLK, RUN], 3, false, Inactive, [App, WAITING, WAITING, App], ONE_GRANTED),
              [TaskStep(CallPost(RESOURCE))] + [TaskStep(Continue)],
              Trio(cfg, [RD, RD, RD, RUN], 3, false, Inactive, [App, WAITING, WAITING, App], TWO_GRANTED));
    path := [TaskStep(Continue), PendSvIrq, PendSvCode]
            + [PendSvCode, TaskStep(CallPost(RESOURCE)), TaskStep(Continue)]
            + ([TaskStep(CallPost(RESOURCE))] + [TaskStep(Continue)]);
  }

  /** Two tasks wait on a semaphore made for one unit, and a third posts twice: two units are handed over. */
  lemma HandoffExceedsMaximum(cfg: Config) returns (states: seq<State>, labels: seq<Label>)
    requires IsQueueConfig(cfg)
    ensures Execution(states, labels) && RESOURCE < |states[|labels|].sems|
    ensures var q := states[|labels|].sems[RESOURCE];
      q.maximum == 1 && q.count + |q.granted| == 2
  {
    var first := BothWait(cfg);
    var second := BothAreServed(cfg);
    states, labels := BootLeads(cfg, 4, first,
                                Trio(cfg, [RD, BLK, RUN, RD], 2, false, Inactive, [App, WAITING, WAITING, App], FIRST),
                                second,
                                Trio(cfg, [RD, RD, RD, RUN], 3, false, Inactive, [App, WAITING, WAITING, App],
                                     TWO_GRANTED));
  }

  // ---------------------------------------------------------------------------
  // A sleep that ends too early
  // ---------------------------------------------------------------------------

  const TOO_LONG: nat := HALF_U32 + 2

  /** Idle and one task, after the start. */
  ghost function Solo(cfg: Config, task: Tcb, pending: bool, ticks: nat, pc: Pc): State
    requires IsQueueConfig(cfg)
  {
    Snap(cfg, Kernel([RD, task], 1, true, pending, ticks), Inactive, {}, [App, pc], DRY)
  }

  lemma SoloStarts(cfg: Config)
    requires IsQueueConfig(cfg)
    ensures Leads(BootState(cfg, 2, [Counts(0, 1)], 0), [SvcStart], Solo(cfg, RUN, false, 0, App))
  {
    FirstTaskIsChosen(2);
    var boot := BootState(cfg, 2, [Counts(0, 1)], 0);
    assert BeforeStart(2).tasks[1 := RUN] == [RD, RUN];
    assert boot.sems[RESOURCE] == DRY && boot.pcs == [App, App];
    StepLeads(boot, SvcStart, Solo(cfg, RUN, false, 0, App));
  }

  lemma SoloSleepIsStep(cfg: Config)
    requires IsQueueConfig(cfg)
    ensures IsStep(Solo(cfg, RUN, false, 0, SleepPc(TOO_LONG)), TaskStep(Continue),
                   Solo(cfg, Tcb(Sleeping, TOO_LONG), true, 0, App))
  {
  }

  lemma SoloTickIsStep(cfg: Config)
    requires IsQueueConfig(cfg)
    ensures IsStep(Solo(cfg, Tcb(Sleeping, TOO_LONG), true, 0, App), SysTickIrq, Solo(cfg, RD, true, 1, App))
  {
    assert WakeExpired([RD, Tcb(Sleeping, TOO_LONG)], 1) == [RD, RD];
  }

  lemma SoloSleeps(cfg: Config)
    requires IsQueueConfig(cfg)
    ensures Leads(Solo(cfg, RUN, false, 0, App), [TaskStep(CallSleep(TOO_LONG)), TaskStep(Continue), SysTickIrq],
                  Solo(cfg, RD, true, 1, App))
  {
    SoloSleepIsStep(cfg);
    SoloTickIsStep(cfg);
    ThreeStepsLead(Solo(cfg, RUN, false, 0, App), TaskStep(CallSleep(TOO_LONG)),
                   Solo(cfg, RUN, false, 0, SleepPc(TOO_LONG)), TaskStep(Continue),
                   Solo(cfg, Tcb(Sleeping, TOO_LONG), true, 0, App), SysTickIrq,
                   Solo(cfg, RD, true, 1, App));
  }

  /** `os_sleep(2^31 + 2)` called at tick 0 is over at tick 1. */
  lemma SleepEndsTooEarly(cfg: Config) returns (states: seq<State>, labels: seq<Label>)
    requires IsQueueConfig(cfg)
    ensures Execution(states, labels) && Awake(states[|labels|], 1)
    ensures states[|labels|].os.ticks == 1 < TOO_LONG && !OnTime(0, TOO_LONG, 0)
  {
    SoloStarts(cfg);
    SoloSleeps(cfg);
    states, labels := BootLeads(cfg, 2, [SvcStart], Solo(cfg, RUN, false, 0, App),
                                [TaskStep(CallSleep(TOO_LONG)), TaskStep(Continue), SysTickIrq],
                                Solo(cfg, RD, true, 1, App));
  }
}
