/**
 When idle runs although a task could: PendSV_Handler searches with interrupts enabled, so a
 tick can wake a task the search has already passed. The theorems say that this is the only
 way, what it costs, and that everything else is chosen in round-robin order.
 */
module WorkConservation {
  import opened RoundRobin
  import opened Task
  import opened Scheduling
  import opened System
  import opened CoreInvariant
  import opened QueueInvariant
  import opened QueueTheorems
  import opened RunFacts
  import opened SchedulerTheorems

  /** Idle is executing and no switch is requested. */
  ghost predicate Idles(s: State) {
    s.handler.Inactive? && s.os.current == IDLE && !s.os.pending
  }

  ghost predicate NobodySleeps(tasks: seq<Tcb>) {
    forall t :: 0 <= t < |tasks| ==> tasks[t].state != Sleeping
  }

  /** An overlooked task is READY and between two calls. */
  ghost predicate OverlookedInv(s: State) {
    forall t :: t in s.overlooked ==> IsReady(s, t) && t < |s.pcs| && s.pcs[t] == App
  }

  /** Among the READY tasks, the search has passed, or left behind, exactly the overlooked ones. */
  ghost predicate SearchInv(os: Sched, h: Handler, overlooked: set<nat>) {
    match h
    case Inactive =>
      os.current == IDLE && !os.pending ==>
        forall t :: IDLE < t < |os.tasks| && os.tasks[t].state == Ready ==> t in overlooked
    case Searching(offset) =>
      forall t :: IDLE < t < |os.tasks| && os.tasks[t].state == Ready ==>
        (t in overlooked <==> Offset(os.current, |os.tasks|, t) < offset)
    case Chosen(next) =>
      forall t :: IDLE < t < |os.tasks| && os.tasks[t].state == Ready && t !in overlooked ==>
        next != IDLE && Offset(os.current, |os.tasks|, next) < Offset(os.current, |os.tasks|, t)
  }

  ghost predicate Watched(s: State) {
    && OverlookedInv(s)
    && SearchInv(s.os, s.handler, s.overlooked)
    && (!s.os.started ==> s.overlooked == {} && NobodySleeps(s.os.tasks))
  }

  // ---------------------------------------------------------------------------
  // Every step
  // ---------------------------------------------------------------------------

  lemma InitIsWatched(s: State)
    requires Init(s)
    ensures Watched(s)
  {
    InitIsGood(s);
    var os: Sched :| && os.current == IDLE && |os.tasks| == |s.os.tasks| && s.os == Dispatch(os)
                     && (forall t :: 0 <= t < |os.tasks| ==> os.tasks[t] == Tcb(Ready, 0));
    DispatchChoosesClosest(os);
    DispatchMarksChoice(os);
    if |os.tasks| > 1 {
      assert Runnable(os, 1);
    }
  }

  lemma TickKeepsSearch(os: Sched, h: Handler, slice: nat, overlooked: set<nat>)
    requires SchedulerInv(os, h, slice) && SearchInv(os, h, overlooked) && (!os.started ==> NobodySleeps(os.tasks))
    requires forall t :: t in overlooked && t < |os.tasks| ==> os.tasks[t].state == Ready
    ensures SearchInv(Tick(os, slice), h, overlooked + PassedAndDue(os, h, (os.ticks + 1) % U32))
  {
    var now := (os.ticks + 1) % U32;
    if h.Inactive? && os.current == IDLE {
      forall t | IDLE < t < |os.tasks| && IsDue(os.tasks[t], now) ensures Tick(os, slice).pending {
        assert AnyDue(os.tasks, now);
      }
    }
  }

  lemma TickKeepsOverlooked(s: State)
    requires CoreInv(s) && Enabled(s, SysTickIrq) && OverlookedInv(s)
    ensures OverlookedInv(Apply(s, SysTickIrq))
  {
    var s' := Apply(s, SysTickIrq);
    forall t | t in s'.overlooked ensures IsReady(s', t) && t < |s'.pcs| && s'.pcs[t] == App {
      if t !in s.overlooked {
        assert TaskInv(t, s.os.tasks[t].state, s.pcs[t], s.sems, s.mutexes);
      }
    }
  }

  lemma TickKeepsWatched(s: State)
    requires CoreInv(s) && Enabled(s, SysTickIrq) && Watched(s)
    ensures Watched(Apply(s, SysTickIrq))
  {
    TickKeepsOverlooked(s);
    TickKeepsParts(s, Apply(s, SysTickIrq));
  }

  lemma TickKeepsParts(s: State, s': State)
    requires SchedulerInv(s.os, s.handler, s.cfg.slice) && Watched(s) && OverlookedInv(s')
    requires s'.os == Tick(s.os, s.cfg.slice) && s'.handler == s.handler
    requires s'.overlooked == s.overlooked + PassedAndDue(s.os, s.handler, (s.os.ticks + 1) % U32)
    ensures Watched(s')
  {
    TickKeepsSearch(s.os, s.handler, s.cfg.slice, s.overlooked);
    TickBeforeStart(s.os, s.handler, s.cfg.slice);
  }

  lemma TickBeforeStart(os: Sched, h: Handler, slice: nat)
    requires os.current < |os.tasks|
    ensures NobodySleeps(os.tasks) ==>
      NobodySleeps(Tick(os, slice).tasks) && PassedAndDue(os, h, (os.ticks + 1) % U32) == {}
    ensures Tick(os, slice).started == os.started
  {
  }

  lemma LookKeepsSearch(os: Sched, offset: nat, slice: nat, overlooked: set<nat>)
    requires SchedulerInv(os, Searching(offset), slice) && SearchInv(os, Searching(offset), overlooked)
    ensures var (os', h') := Look(os, offset); SearchInv(os', h', overlooked)
    ensures var (os', h') := Look(os, offset);
      forall t :: t in overlooked && IDLE < t < |os.tasks| && os.tasks[t].state == Ready ==> os'.tasks[t] == os.tasks[t]
  {
    if offset <= |os.tasks| {
      OffsetOfVisited(os.current, |os.tasks|, offset);
    }
  }

  lemma SwitchKeepsWatched(s: State)
    requires CoreInv(s) && Enabled(s, PendSvCode) && Watched(s)
    ensures Watched(Apply(s, PendSvCode))
  {
    if s.handler.Searching? {
      LookKeepsSearch(s.os, s.handler.offset, s.cfg.slice, s.overlooked);
    }
  }

  lemma TaskStepKeepsWatched(s: State, op: Op)
    requires CoreInv(s) && Enabled(s, TaskStep(op)) && Watched(s)
    ensures Watched(Apply(s, TaskStep(op)))
  {
    var s' := Apply(s, TaskStep(op));
    StepOnlyMoves(s, TaskStep(op));
    forall t | t in s.overlooked ensures IsReady(s', t) && t < |s'.pcs| && s'.pcs[t] == App {
      assert IsReady(s, t);
      ReadyStays(s, TaskStep(op), t);
    }
    TaskStepStaysAway(s, op);
  }

  /** A step of a task leaves idle out of it. */
  lemma TaskStepStaysAway(s: State, op: Op)
    requires Shape(s) && Enabled(s, TaskStep(op))
    ensures var s' := Apply(s, TaskStep(op));
      s'.handler.Inactive? && s'.os.current != IDLE && s'.os.started && s'.overlooked == s.overlooked
  {
    if op == Continue {
      ProceedKeepsFlags(s);
      ProceedKeepsHandler(s);
    }
  }

  lemma StepKeepsWatched(s: State, l: Label)
    requires CoreInv(s) && Enabled(s, l) && Watched(s)
    ensures Watched(Apply(s, l))
  {
    match l {
      case SvcStart =>
      case SysTickIrq => TickKeepsWatched(s);
      case PendSvIrq =>
      case PendSvCode => SwitchKeepsWatched(s);
      case TaskStep(op) => TaskStepKeepsWatched(s, op);
    }
  }

  lemma WatchedStepOfRun(states: seq<State>, labels: seq<Label>, i: nat, next: nat)
    requires Execution(states, labels) && i < |labels| && next == i + 1 && Watched(states[i])
    ensures Watched(states[next])
  {
    StateOfRun(states, labels, i);
    StepKeepsWatched(states[i], labels[i]);
  }

  lemma {:induction false} EveryStateIsWatched(states: seq<State>, labels: seq<Label>, i: nat)
    requires Execution(states, labels) && i < |states|
    ensures Watched(states[i])
  {
    if i == 0 {
      InitIsWatched(states[0]);
    } else {
      EveryStateIsWatched(states, labels, i - 1);
      WatchedStepOfRun(states, labels, i - 1, i);
    }
  }

  // ---------------------------------------------------------------------------
  // What a switch chooses
  // ---------------------------------------------------------------------------

  /**
   When a switch concludes, every READY task it did not overlook stands behind the chosen one
   in round-robin order; in particular idle is chosen only if all READY tasks were overlooked.
   */
  lemma SwitchChoosesClosest(states: seq<State>, labels: seq<Label>, i: nat, t: nat)
    requires Execution(states, labels) && i < |labels| && Commits(states[i], labels[i])
    requires IsReady(states[i + 1], t) && t !in states[i + 1].overlooked
    ensures states[i + 1].os.current != IDLE
    ensures states[i].os.current < |states[i].os.tasks| && IDLE < states[i + 1].os.current < |states[i].os.tasks|
    ensures |states[i + 1].os.tasks| == |states[i].os.tasks|
    ensures Distance(states[i].os.current, |states[i].os.tasks|, states[i + 1].os.current)
            < Distance(states[i].os.current, |states[i].os.tasks|, t)
  {
    StateOfRun(states, labels, i);
    EveryStateIsWatched(states, labels, i);
    EarlierIsNearer(states[i].os.current, |states[i].os.tasks|, states[i].handler.next, t);
  }

  /** Work is conserved up to overlooked tasks: while idle executes, exactly these are READY. */
  lemma IdleMeansOverlooked(states: seq<State>, labels: seq<Label>, i: nat, t: nat)
    requires Execution(states, labels) && i < |states| && Idles(states[i])
    requires IDLE < t < |states[i].os.tasks|
    ensures states[i].os.tasks[t].state == Ready <==> t in states[i].overlooked
  {
    EveryStateIsWatched(states, labels, i);
  }

  /** Step `j` of the run is a tick that wakes `t` behind the search of a switch. */
  ghost predicate Overlooks(s: State, l: Label, t: nat) {
    l == SysTickIrq && t in PassedAndDue(s.os, s.handler, (s.os.ticks + 1) % U32)
  }

  /** A task is overlooked exactly when a tick woke it behind the search of the last switch. */
  lemma {:induction false} OverlookedByTick(states: seq<State>, labels: seq<Label>, i: nat, t: nat)
    requires Execution(states, labels) && i < |states|
    ensures t in states[i].overlooked
            <==> exists j :: 0 <= j < i && Overlooks(states[j], labels[j], t)
                             && forall k :: j < k < i ==> labels[k] != PendSvIrq
  {
    if i == 0 {
    } else {
      OverlookedByTick(states, labels, i - 1, t);
      assert StepAt(states, labels, i - 1);
      OverlookedStep(states[i - 1], labels[i - 1], t);
      if labels[i - 1] != PendSvIrq && Overlooks(states[i - 1], labels[i - 1], t) {
        assert t in states[i].overlooked;
      }
    }
  }

  lemma OverlookedStep(s: State, l: Label, t: nat)
    requires Shape(s) && Enabled(s, l)
    ensures t in Apply(s, l).overlooked <==> Overlooks(s, l, t) || (l != PendSvIrq && t in s.overlooked)
  {
    if l == TaskStep(Continue) {
      ProceedKeepsHandler(s);
    }
  }

  /** While idle executes, a task is READY exactly if a tick woke it behind the last search. */
  lemma IdleBesideReady(states: seq<State>, labels: seq<Label>, i: nat, t: nat)
    requires Execution(states, labels) && i < |states| && Idles(states[i]) && IDLE < t < |states[i].os.tasks|
    ensures states[i].os.tasks[t].state == Ready
            <==> exists j :: 0 <= j < i && Overlooks(states[j], labels[j], t)
                             && forall k :: j < k < i ==> labels[k] != PendSvIrq
  {
    IdleMeansOverlooked(states, labels, i, t);
    OverlookedByTick(states, labels, i, t);
  }

  /** The last switch before state `i` was entered at step `p` and no tick fell into it. */
  ghost predicate LastSwitchUndisturbed(states: seq<State>, labels: seq<Label>, p: nat, i: nat) {
    && p < i < |states| && i <= |labels| && labels[p] == PendSvIrq
    && (forall k :: p < k < i ==> labels[k] != PendSvIrq)
    && (forall k :: p < k < i && labels[k] == SysTickIrq ==> states[k].handler.Inactive?)
  }

  /** Then work is conserved: idle executes only if nobody is READY. */
  lemma UndisturbedSwitchConservesWork(states: seq<State>, labels: seq<Label>, p: nat, i: nat, t: nat)
    requires Execution(states, labels) && LastSwitchUndisturbed(states, labels, p, i)
    requires Idles(states[i]) && IDLE < t < |states[i].os.tasks|
    ensures states[i].os.tasks[t].state != Ready
  {
    IdleBesideReady(states, labels, i, t);
  }

  // ---------------------------------------------------------------------------
  // What an overlooked task loses
  // ---------------------------------------------------------------------------

  /** Without preemption, a tick helps a task that waits beside idle exactly if it wakes another one. */
  lemma IdleTickRequestsExactly(s: State)
    requires CoreInv(s) && Enabled(s, SysTickIrq) && Idles(s) && s.os.started && !s.os.preemption
    ensures Apply(s, SysTickIrq).os.pending <==> AnyDue(s.os.tasks, (s.os.ticks + 1) % U32)
  {
  }

  /** While it wakes nobody, idle goes on and the task keeps waiting. */
  lemma IdleTickKeepsWaiting(s: State, t: nat)
    requires CoreInv(s) && Enabled(s, SysTickIrq) && Idles(s) && s.os.started && !s.os.preemption && IsReady(s, t)
    ensures IsReady(Apply(s, SysTickIrq), t)
    ensures Idles(Apply(s, SysTickIrq)) <==> !AnyDue(s.os.tasks, (s.os.ticks + 1) % U32)
  {
  }

  /** Idle executes, `t` is READY, and nothing is left that could request a switch. */
  ghost predicate Stranded(s: State, t: nat) {
    Idles(s) && s.os.started && !s.os.preemption && IsReady(s, t) && NobodySleeps(s.os.tasks)
  }

  lemma StrandedStep(s: State, l: Label, t: nat)
    requires Shape(s) && Enabled(s, l) && Stranded(s, t)
    ensures Stranded(Apply(s, l), t)
  {
  }

  /** Without preemption such a task is never dispatched again: idle runs for ever beside it. */
  lemma {:induction false} StrandedForEver(states: seq<State>, labels: seq<Label>, a: nat, b: nat, t: nat)
    requires Execution(states, labels) && a <= b < |states| && Stranded(states[a], t)
    ensures Stranded(states[b], t)
    decreases b
  {
    if a == b {
    } else {
      StrandedForEver(states, labels, a, b - 1, t);
      assert StepAt(states, labels, b - 1);
      StrandedStep(states[b - 1], labels[b - 1], t);
    }
  }

  // ---------------------------------------------------------------------------
  // The queue's callers
  // ---------------------------------------------------------------------------

  /**
   With all application tasks inside send or receive, idle executes only if all of them are
   blocked, whatever ticks fell into the switch.
   */
  lemma IdleMeansAllBlocked(states: seq<State>, labels: seq<Label>, i: nat)
    requires Execution(states, labels) && i < |states| && Idles(states[i]) && OnlyQueueCalls(states[i])
    ensures AllBlocked(states[i])
  {
    CoreOfRun(states, labels, i);
    EveryStateIsWatched(states, labels, i);
    var s := states[i];
    forall t | 0 < t < |s.pcs| ensures s.os.tasks[t].state == Blocked {
      assert TaskInv(t, s.os.tasks[t].state, s.pcs[t], s.sems, s.mutexes);
      assert InQueueCall(s.pcs[t]);
    }
  }

  /** With a sender and a receiver among them, the scheduler never falls back to idle. */
  lemma MixedCallersNeverIdle(states: seq<State>, labels: seq<Label>, i: nat, sender: nat, receiver: nat)
    requires Execution(states, labels) && i < |states| && OnlyQueueCalls(states[i])
    requires 0 < sender < |states[i].pcs| && states[i].pcs[sender].who == Sender
    requires 0 < receiver < |states[i].pcs| && states[i].pcs[receiver].who == Receiver
    ensures !Idles(states[i])
  {
    if Idles(states[i]) {
      IdleMeansAllBlocked(states, labels, i);
      EveryStateIsGood(states, labels, i);
      NoInternalDeadlock(states[i]);
    }
  }
}
