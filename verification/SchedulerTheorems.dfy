/** Theorems about the scheduler: who runs, and how soon a READY task is dispatched. */
module SchedulerTheorems {
  import opened RoundRobin
  import opened Task
  import opened Scheduling
  import opened System
  import opened CoreInvariant
  import opened QueueInvariant
  import opened RunFacts

  // ---------------------------------------------------------------------------
  // What one undisturbed call of os_schedule_next does
  // ---------------------------------------------------------------------------

  /** A task the scheduler may choose: READY, or RUNNING and about to be put back. */
  predicate Runnable(os: Sched, t: nat)
    requires os.current < |os.tasks|
  {
    t < |os.tasks| && (os.tasks[t].state == Ready || (t == os.current && os.tasks[t].state == Running))
  }

  /**
   When no tick falls into it: afterwards exactly the current task is RUNNING; idle is current
   exactly when no application task was runnable; the choice is the runnable task closest
   behind the old current one; and BLOCKED and SLEEPING tasks are untouched.
   */
  lemma DispatchIsRight(os: Sched, slice: nat)
    requires SchedulerInv(os, Inactive, slice)
    ensures var d := Dispatch(os);
      && (forall t :: 0 <= t < |os.tasks| ==> (d.tasks[t].state == Running <==> t == d.current))
      && (d.current == IDLE <==> forall t :: IDLE < t < |os.tasks| ==> !Runnable(os, t))
      && (forall t :: IDLE < t < |os.tasks| && Runnable(os, t) ==>
            d.current != IDLE
            && Distance(os.current, |os.tasks|, d.current) <= Distance(os.current, |os.tasks|, t))
      && (d.current != IDLE ==> Runnable(os, d.current))
      && (forall t :: 0 <= t < |os.tasks| && os.tasks[t].state in {Blocked, Sleeping} ==> d.tasks[t] == os.tasks[t])
      && (forall t :: 0 <= t < |os.tasks| && Runnable(os, t) && t != d.current ==> d.tasks[t].state == Ready)
  {
    DispatchChoosesClosest(os);
    DispatchMarksChoice(os);
  }

  lemma DispatchChoosesClosest(os: Sched)
    requires os.current < |os.tasks|
    ensures Dispatch(os).current != IDLE ==> Runnable(os, Dispatch(os).current)
    ensures forall t :: IDLE < t < |os.tasks| && Runnable(os, t) ==>
      Dispatch(os).current != IDLE
      && Distance(os.current, |os.tasks|, Dispatch(os).current) <= Distance(os.current, |os.tasks|, t)
  {
    var ready := ReadyIds(Requeue(os.tasks, os.current));
    forall t | IDLE < t < |os.tasks| && Runnable(os, t)
      ensures Dispatch(os).current != IDLE
              && Distance(os.current, |os.tasks|, Dispatch(os).current) <= Distance(os.current, |os.tasks|, t)
    {
      assert t in ready;
      PassingOverShortens(os.current, |os.tasks|, ready, t);
    }
  }

  lemma DispatchMarksChoice(os: Sched)
    requires os.current < |os.tasks|
    ensures forall t :: 0 <= t < |os.tasks| ==>
      Dispatch(os).tasks[t]
      == if t == Dispatch(os).current then os.tasks[t].(state := Running)
         else if t == os.current && os.tasks[t].state == Running then os.tasks[t].(state := Ready)
         else os.tasks[t]
  {
  }

  /** The steps of PendSV_Handler from round `offset` of the search on, without ticks between. */
  function SearchFrom(k: Sched, offset: nat): Sched
    requires k.current < |k.tasks|
    decreases |k.tasks| + 1 - offset
  {
    var (k', h) := Look(k, offset);
    match h
    case Searching(later) => SearchFrom(k', later)
    case Chosen(next) => k'.(current := next)
    case Inactive => k'
  }

  lemma {:induction false} SearchFromIsSearch(k: Sched, offset: nat)
    requires k.current < |k.tasks| && 1 <= offset <= |k.tasks| + 1
    requires forall c :: c in ReadyIds(k.tasks) ==> IDLE < c < |k.tasks| ==> offset <= Offset(k.current, |k.tasks|, c)
    ensures var r := Search(k.current, |k.tasks|, ReadyIds(k.tasks), offset);
      && r < |k.tasks|
      && SearchFrom(k, offset) == k.(tasks := k.tasks[r := k.tasks[r].(state := Running)], current := r)
    decreases |k.tasks| + 1 - offset
  {
    if offset <= |k.tasks| {
      OffsetOfVisited(k.current, |k.tasks|, offset);
      if Look(k, offset).1.Searching? {
        SearchFromIsSearch(k, offset + 1);
      }
    }
  }

  /** Without ticks the steps of the handler add up to one call of `os_schedule_next`. */
  lemma UndisturbedSwitchIsDispatch(k: Sched)
    requires k.current < |k.tasks|
    ensures SearchFrom(BeginSwitch(k), 1) == Dispatch(k).(pending := false)
  {
    SearchFromIsSearch(BeginSwitch(k), 1);
  }

  /** Whenever no switch is under way, or interrupts are off, the executing task is the one that is RUNNING. */
  lemma ExecutingTaskIsRunning(states: seq<State>, labels: seq<Label>, i: nat, t: nat)
    requires Execution(states, labels) && i < |states| && t < |states[i].os.tasks|
    requires states[i].os.masked || (states[i].handler.Inactive? && !states[i].os.pending)
    ensures states[i].os.tasks[t].state == Running <==> t == states[i].os.current
  {
    CoreOfRun(states, labels, i);
  }

  /** After every switch exactly one task is RUNNING, and it is the current one. */
  lemma SwitchLeavesOneRunning(states: seq<State>, labels: seq<Label>, i: nat, t: nat)
    requires Execution(states, labels) && i < |labels| && Commits(states[i], labels[i]) && t < |states[i + 1].os.tasks|
    ensures states[i + 1].os.tasks[t].state == Running <==> t == states[i + 1].os.current
  {
    StateOfRun(states, labels, i);
  }

  /** No switch is requested, and no task or PendSV executes, before the first task was started. */
  lemma NoSwitchBeforeFirstTask(states: seq<State>, labels: seq<Label>, i: nat)
    requires Execution(states, labels) && i < |labels|
    ensures !states[i].os.started ==> !states[i].os.pending && labels[i] in {SvcStart, SysTickIrq}
    ensures states[i].os.current < |states[i].os.tasks|
    ensures labels[i] == SvcStart ==> states[i].os.tasks[states[i].os.current].state == Running
  {
    StateOfRun(states, labels, i);
  }

  // ---------------------------------------------------------------------------
  // Round-robin progress, counted in switches
  // ---------------------------------------------------------------------------

  ghost predicate IsReady(s: State, t: nat) {
    IDLE < t < |s.os.tasks| && s.os.tasks[t].state == Ready && s.os.current < |s.os.tasks|
  }

  /** READY, or already chosen by the switch under way. */
  ghost predicate IsLinedUp(s: State, t: nat) {
    IsReady(s, t) || (IDLE < t < |s.os.tasks| && s.os.current < |s.os.tasks| && s.handler == Chosen(t))
  }

  ghost predicate IsDispatched(s: State, t: nat) {
    s.handler.Inactive? && s.os.current == t && t < |s.os.tasks| && s.os.tasks[t].state == Running
  }

  /** This step concludes a switch. */
  ghost predicate Commits(s: State, l: Label) {
    l == PendSvCode && s.handler.Chosen?
  }

  /** How many switches, the one under way included, `t` waits for at most. */
  ghost function Hops(s: State, t: nat): int {
    if !IsLinedUp(s, t) then 0
    else match s.handler
      case Inactive => Distance(s.os.current, |s.os.tasks|, t)
      case Searching(offset) =>
        if Passed(s.os.current, |s.os.tasks|, s.handler, t) then |s.os.tasks|
        else Distance(s.os.current, |s.os.tasks|, t)
      case Chosen(next) =>
        if next == t then 1
        else if next < |s.os.tasks| then 1 + Distance(next, |s.os.tasks|, t)
        else 0
  }

  /** Only a task that became READY behind the search under way can need an N-th switch. */
  lemma HopsBound(s: State, t: nat)
    requires IsLinedUp(s, t) && |s.os.tasks| > 0
    ensures Hops(s, t) <= |s.os.tasks|
    ensures !Passed(s.os.current, |s.os.tasks|, s.handler, t) ==> Hops(s, t) <= |s.os.tasks| - 1
  {
  }

  ghost function SwitchesBetween(states: seq<State>, labels: seq<Label>, a: nat, b: nat): nat
    requires a <= b <= |labels| && b <= |states|
  {
    if a == b then 0 else SwitchesBetween(states, labels, a, b - 1) + One(Commits(states[b - 1], labels[b - 1]))
  }

  lemma BeginKeepsHops(s: State, t: nat)
    requires CoreInv(s) && Enabled(s, PendSvIrq) && IsLinedUp(s, t)
    ensures IsLinedUp(Apply(s, PendSvIrq), t) && Hops(Apply(s, PendSvIrq), t) <= Hops(s, t)
  {
  }

  /** A round of the search does not move it away from a READY task; the conclusion moves it closer. */
  lemma SwitchApproaches(s: State, t: nat)
    requires CoreInv(s) && !s.handler.Inactive? && IsLinedUp(s, t)
    ensures |SwitchStep(s).os.tasks| == |s.os.tasks|
    ensures IsDispatched(SwitchStep(s), t)
            || (IsLinedUp(SwitchStep(s), t) && Hops(SwitchStep(s), t) + One(s.handler.Chosen?) <= Hops(s, t))
  {
    var n := |s.os.tasks|;
    match s.handler {
      case Searching(offset) =>
        if offset <= n {
          OffsetOfVisited(s.os.current, n, offset);
          var c := (s.os.current + offset) % n;
          if c != IDLE && c != t {
            EarlierIsNearer(s.os.current, n, c, t);
          }
        }
      case Chosen(next) =>
    }
  }

  /** Nothing else takes READY away, or moves the scheduler. */
  lemma ReadyStays(s: State, l: Label, t: nat)
    requires CoreInv(s) && Enabled(s, l) && IsLinedUp(s, t) && l != PendSvIrq && l != PendSvCode
    ensures IsLinedUp(Apply(s, l), t) && Hops(Apply(s, l), t) == Hops(s, t)
    ensures |Apply(s, l).os.tasks| == |s.os.tasks|
  {
    StepLeavesLinedUp(s, l, t);
    SameViewSameHops(s, Apply(s, l), t);
  }

  /** What `Hops` depends on. */
  ghost predicate SameView(s: State, s': State, t: nat) {
    && s'.handler == s.handler && s'.os.current == s.os.current && |s'.os.tasks| == |s.os.tasks|
    && t < |s.os.tasks| && s'.os.tasks[t].state == s.os.tasks[t].state
  }

  lemma SameViewSameHops(s: State, s': State, t: nat)
    requires SameView(s, s', t)
    ensures IsLinedUp(s', t) == IsLinedUp(s, t) && Hops(s', t) == Hops(s, t)
  {
  }

  lemma StepLeavesLinedUp(s: State, l: Label, t: nat)
    requires CoreInv(s) && Enabled(s, l) && IsLinedUp(s, t) && l != PendSvIrq && l != PendSvCode
    ensures SameView(s, Apply(s, l), t)
  {
    match l {
      case SvcStart =>
      case SysTickIrq =>
      case TaskStep(op) =>
        assert t != s.os.current;
        if op == Continue {
          ProceedLeaves(s, t);
          ProceedKeepsFlags(s);
          ProceedKeepsHandler(s);
        } else {
          CallLeavesTable(s, op);
        }
    }
  }

  lemma ReadyStep(s: State, l: Label, t: nat)
    requires CoreInv(s) && Enabled(s, l) && IsLinedUp(s, t) && !IsDispatched(Apply(s, l), t)
    ensures IsLinedUp(Apply(s, l), t) && |Apply(s, l).os.tasks| == |s.os.tasks|
    ensures Hops(Apply(s, l), t) + One(Commits(s, l)) <= Hops(s, t)
  {
    if l == PendSvIrq {
      BeginKeepsHops(s, t);
    } else if l == PendSvCode {
      SwitchApproaches(s, t);
    } else {
      ReadyStays(s, l, t);
    }
  }

  lemma ReadyStepOfRun(states: seq<State>, labels: seq<Label>, t: nat, i: nat)
    requires Execution(states, labels) && i < |labels|
    requires IsLinedUp(states[i], t) && !IsDispatched(states[i + 1], t)
    ensures IsLinedUp(states[i + 1], t) && |states[i + 1].os.tasks| == |states[i].os.tasks|
    ensures Hops(states[i + 1], t) + One(Commits(states[i], labels[i])) <= Hops(states[i], t)
  {
    StateOfRun(states, labels, i);
    ReadyStep(states[i], labels[i], t);
  }

  lemma {:induction false} SwitchesApproach(states: seq<State>, labels: seq<Label>, t: nat, a: nat, b: nat)
    requires Execution(states, labels) && a <= b < |states| && IsLinedUp(states[a], t)
    requires forall i :: a < i <= b ==> !IsDispatched(states[i], t)
    ensures IsLinedUp(states[b], t) && |states[b].os.tasks| == |states[a].os.tasks|
    ensures SwitchesBetween(states, labels, a, b) + Hops(states[b], t) <= Hops(states[a], t)
    decreases b
  {
    if a == b {
    } else {
      SwitchesApproach(states, labels, t, a, b - 1);
      ReadyStepOfRun(states, labels, t, b - 1);
    }
  }

  lemma HopsArePositive(s: State, t: nat)
    requires CoreInv(s) && IsLinedUp(s, t)
    ensures Hops(s, t) >= 1
  {
  }

  /**
   A READY application task is dispatched by the (N - 1)-th switch at the latest; the switch
   under way does not count when its search has already passed the task.
   */
  lemma DispatchedWithinSwitches(states: seq<State>, labels: seq<Label>, t: nat, a: nat, b: nat)
    requires Execution(states, labels) && a <= b < |states| && IsReady(states[a], t)
    requires SwitchesBetween(states, labels, a, b)
             >= |states[a].os.tasks| - 1 + One(Passed(states[a].os.current, |states[a].os.tasks|, states[a].handler, t))
    ensures exists i :: a < i <= b && IsDispatched(states[i], t)
  {
    if forall i :: a < i <= b ==> !IsDispatched(states[i], t) {
      SwitchesApproach(states, labels, t, a, b);
      HopsBound(states[a], t);
      CoreOfRun(states, labels, b);
      HopsArePositive(states[b], t);
    }
  }

  // ---------------------------------------------------------------------------
  // Round-robin progress, counted in ticks
  // ---------------------------------------------------------------------------

  ghost function TicksBetween(labels: seq<Label>, a: nat, b: nat): nat
    requires a <= b <= |labels|
  {
    if a == b then 0 else TicksBetween(labels, a, b - 1) + One(labels[b - 1] == SysTickIrq)
  }

  /** A switch is requested or has begun. */
  predicate UnderWay(s: State) {
    s.os.pending || !s.handler.Inactive?
  }

  /** A tick taken while no switch is under way; the others cannot bring a switch closer. */
  predicate OpenTick(s: State, l: Label) {
    l == SysTickIrq && !UnderWay(s)
  }

  ghost function OpenTicksBetween(states: seq<State>, labels: seq<Label>, a: nat, b: nat): nat
    requires a <= b <= |labels| && b <= |states|
  {
    if a == b then 0 else OpenTicksBetween(states, labels, a, b - 1) + One(OpenTick(states[b - 1], labels[b - 1]))
  }

  /** Where every PendSV is served to its end before the next tick, all ticks are open. */
  lemma {:induction false} PromptSwitchesOpenAllTicks(states: seq<State>, labels: seq<Label>, a: nat, b: nat)
    requires a <= b <= |labels| && b <= |states|
    requires forall i :: a <= i < b && labels[i] == SysTickIrq ==> !UnderWay(states[i])
    ensures OpenTicksBetween(states, labels, a, b) == TicksBetween(labels, a, b)
    decreases b
  {
    if a == b {
    } else {
      PromptSwitchesOpenAllTicks(states, labels, a, b - 1);
    }
  }

  /** From state `a` to state `b` preemption is on and nobody calls the functions that switch it. */
  ghost predicate Preemptive(states: seq<State>, labels: seq<Label>, a: nat, b: nat) {
    && a <= b < |states| && |states| == |labels| + 1
    && forall i :: a <= i < b ==> PreemptiveStep(states[i], labels[i])
  }

  ghost predicate PreemptiveStep(s: State, l: Label) {
    && s.os.preemption && s.os.started
    && !(l.TaskStep? && l.op.SetPreemption?)
  }

  /** An upper bound on the open ticks a READY task still has to wait. */
  ghost function Patience(s: State, t: nat): nat {
    Remaining(Hops(s, t) - One(UnderWay(s)), s.cfg.slice, Used(s))
  }

  /** The part of the slice that counts towards the next request. */
  function Used(s: State): nat {
    if UnderWay(s) then 0 else s.os.tickCount
  }

  /** The ticks left of `slices` time slices of which the first has already used `used`. */
  function Remaining(slices: int, slice: nat, used: nat): nat {
    if slices * slice < used then 0 else slices * slice - used
  }

  lemma RemainingGrows(x: int, y: int, slice: nat, used: nat)
    requires x <= y
    ensures Remaining(x, slice, used) <= Remaining(y, slice, used)
    ensures 0 <= y ==> Remaining(x, slice, used) <= slice * y
  {
    assert x * slice <= y * slice;
  }

  lemma RemainingShrinks(x: int, slice: nat, used: nat)
    requires 1 <= x && used < slice
    ensures Remaining(x, slice, used + 1) + 1 == Remaining(x, slice, used)
    ensures Remaining(x - 1, slice, 0) + 1 <= Remaining(x, slice, used)
  {
    assert x * slice == (x - 1) * slice + slice;
    assert (x - 1) * slice >= 0;
  }

  /** A switch under way has used nothing of a slice yet; what is used later only shortens the rest. */
  lemma RemainingCompares(x: int, y: int, slice: nat, used: nat)
    requires x <= y
    ensures Remaining(x, slice, used) <= Remaining(y, slice, 0)
  {
    RemainingGrows(x, y, slice, used);
  }

  lemma SwitchKeepsPatience(s: State, l: Label, t: nat)
    requires CoreInv(s) && Enabled(s, l) && IsLinedUp(s, t) && l in {PendSvIrq, PendSvCode}
    requires !IsDispatched(Apply(s, l), t)
    ensures Patience(Apply(s, l), t) <= Patience(s, t)
  {
    var s' := Apply(s, l);
    ReadyStep(s, l, t);
    RemainingCompares(Hops(s', t) - One(UnderWay(s')), Hops(s, t) - One(UnderWay(s)), s.cfg.slice, Used(s'));
  }

  lemma TickUsesPatience(s: State, t: nat)
    requires CoreInv(s) && Enabled(s, SysTickIrq) && IsLinedUp(s, t) && PreemptiveStep(s, SysTickIrq)
    ensures Patience(Apply(s, SysTickIrq), t) + One(OpenTick(s, SysTickIrq)) <= Patience(s, t)
  {
    ReadyStays(s, SysTickIrq, t);
    if OpenTick(s, SysTickIrq) {
      HopsArePositive(s, t);
      RemainingShrinks(Hops(s, t), s.cfg.slice, s.os.tickCount);
    }
  }

  lemma TaskStepKeepsPatience(s: State, op: Op, t: nat)
    requires CoreInv(s) && Enabled(s, TaskStep(op)) && IsLinedUp(s, t) && PreemptiveStep(s, TaskStep(op))
    ensures Patience(Apply(s, TaskStep(op)), t) <= Patience(s, t)
  {
    ReadyStays(s, TaskStep(op), t);
    StepKeepsSizes(s, TaskStep(op));
    TaskStepFlags(s, op);
    HopsArePositive(s, t);
    RequestKeepsRemaining(Hops(s, t), s.cfg.slice, s.os.tickCount);
  }

  lemma RequestKeepsRemaining(hops: int, slice: nat, used: nat)
    requires 1 <= hops && used < slice
    ensures Remaining(hops - 1, slice, used) <= Remaining(hops, slice, used)
    ensures Remaining(hops - 1, slice, 0) <= Remaining(hops, slice, used)
  {
    RemainingShrinks(hops, slice, used);
    RemainingGrows(hops - 1, hops, slice, used);
  }

  lemma PatienceShrinks(s: State, l: Label, t: nat)
    requires CoreInv(s) && Enabled(s, l) && IsLinedUp(s, t) && PreemptiveStep(s, l)
    requires !IsDispatched(Apply(s, l), t)
    ensures Patience(Apply(s, l), t) + One(OpenTick(s, l)) <= Patience(s, t)
  {
    match l {
      case SvcStart =>
      case SysTickIrq => TickUsesPatience(s, t);
      case TaskStep(op) => TaskStepKeepsPatience(s, op, t);
      case _ => SwitchKeepsPatience(s, l, t);
    }
  }

  /** A step of a task never takes a requested switch back, and resets the slice only to request one. */
  lemma TaskStepFlags(s: State, op: Op)
    requires CoreInv(s) && Enabled(s, TaskStep(op)) && !op.SetPreemption?
    ensures s.os.pending ==> Apply(s, TaskStep(op)).os.pending
    ensures var s' := Apply(s, TaskStep(op));
      s'.os.tickCount == s.os.tickCount || (s'.os.tickCount == 0 && !s.os.pending && s'.os.pending)
  {
    if op == Continue {
      ProceedKeepsFlags(s);
      SleepsOnlyUnpended(s);
    }
  }

  /** Interrupts are enabled around the sleep, so no switch is pending when it starts. */
  lemma SleepsOnlyUnpended(s: State)
    requires CoreInv(s) && Runs(s)
    ensures Proceed(s).os.tickCount != s.os.tickCount ==> !s.os.pending
  {
    if !s.pcs[s.os.current].SleepPc? {
      ProceedOnlySchedules(s);
    }
  }

  lemma PatienceStepOfRun(states: seq<State>, labels: seq<Label>, t: nat, i: nat)
    requires Execution(states, labels) && i < |labels|
    requires IsLinedUp(states[i], t) && !IsDispatched(states[i + 1], t) && PreemptiveStep(states[i], labels[i])
    ensures IsLinedUp(states[i + 1], t)
    ensures Patience(states[i + 1], t) + One(OpenTick(states[i], labels[i])) <= Patience(states[i], t)
  {
    ReadyStepOfRun(states, labels, t, i);
    StateOfRun(states, labels, i);
    PatienceShrinks(states[i], labels[i], t);
  }

  lemma {:induction false} TicksRunOut(states: seq<State>, labels: seq<Label>, t: nat, a: nat, b: nat)
    requires Execution(states, labels) && Preemptive(states, labels, a, b) && IsLinedUp(states[a], t)
    requires forall i :: a < i <= b ==> !IsDispatched(states[i], t)
    ensures IsLinedUp(states[b], t)
    ensures OpenTicksBetween(states, labels, a, b) + Patience(states[b], t) <= Patience(states[a], t)
    decreases b
  {
    if a == b {
    } else {
      TicksRunOut(states, labels, t, a, b - 1);
      PatienceStepOfRun(states, labels, t, b - 1);
    }
  }

  lemma PatienceBound(s: State, t: nat)
    requires IsLinedUp(s, t) && |s.os.tasks| > 0
    ensures Patience(s, t) <= s.cfg.slice * (|s.os.tasks| - 1)
  {
    HopsBound(s, t);
    RemainingGrows(Hops(s, t) - One(UnderWay(s)), |s.os.tasks| - 1, s.cfg.slice, Used(s));
  }

  /** With preemption on, a READY task is dispatched before open tick slice * (N - 1) + 1. */
  lemma DispatchedWithinTicks(states: seq<State>, labels: seq<Label>, t: nat, a: nat, b: nat)
    requires Execution(states, labels) && Preemptive(states, labels, a, b) && IsReady(states[a], t)
    requires OpenTicksBetween(states, labels, a, b) > states[a].cfg.slice * (|states[a].os.tasks| - 1)
    ensures exists i :: a < i <= b && IsDispatched(states[i], t)
  {
    if forall i :: a < i <= b ==> !IsDispatched(states[i], t) {
      TicksRunOut(states, labels, t, a, b);
      PatienceBound(states[a], t);
    }
  }

  /** The same in ticks of the clock, where every PendSV is served to its end before the next tick. */
  lemma DispatchedWithinClockTicks(states: seq<State>, labels: seq<Label>, t: nat, a: nat, b: nat)
    requires Execution(states, labels) && Preemptive(states, labels, a, b) && IsReady(states[a], t)
    requires forall i :: a <= i < b && labels[i] == SysTickIrq ==> !UnderWay(states[i])
    requires TicksBetween(labels, a, b) > states[a].cfg.slice * (|states[a].os.tasks| - 1)
    ensures exists i :: a < i <= b && IsDispatched(states[i], t)
  {
    PromptSwitchesOpenAllTicks(states, labels, a, b);
    DispatchedWithinTicks(states, labels, t, a, b);
  }

  // ---------------------------------------------------------------------------
  // The time slice
  // ---------------------------------------------------------------------------

  lemma SliceStep(s: State, l: Label)
    requires CoreInv(s) && Enabled(s, l) && PreemptiveStep(s, l)
    requires !s.os.pending && !Apply(s, l).os.pending
    ensures Apply(s, l).os.tickCount == s.os.tickCount + One(l == SysTickIrq)
  {
    if l.TaskStep? {
      TaskStepFlags(s, l.op);
    }
  }

  lemma SliceStepOfRun(states: seq<State>, labels: seq<Label>, i: nat)
    requires Execution(states, labels) && i < |labels| && PreemptiveStep(states[i], labels[i])
    requires !states[i].os.pending && !states[i + 1].os.pending
    ensures states[i + 1].os.tickCount == states[i].os.tickCount + One(labels[i] == SysTickIrq)
  {
    StateOfRun(states, labels, i);
    SliceStep(states[i], labels[i]);
  }

  lemma {:induction false} QuietTicksAreCounted(states: seq<State>, labels: seq<Label>, a: nat, b: nat)
    requires Execution(states, labels) && Preemptive(states, labels, a, b)
    requires forall i :: a <= i <= b ==> !states[i].os.pending
    ensures states[b].os.tickCount == states[a].os.tickCount + TicksBetween(labels, a, b)
    decreases b
  {
    if a == b {
    } else {
      QuietTicksAreCounted(states, labels, a, b - 1);
      SliceStepOfRun(states, labels, b - 1);
    }
  }

  /** With preemption on, any slice-length run of ticks requests at least one switch. */
  lemma EverySliceRequestsASwitch(states: seq<State>, labels: seq<Label>, a: nat, b: nat)
    requires Execution(states, labels) && Preemptive(states, labels, a, b)
    requires TicksBetween(labels, a, b) >= states[b].cfg.slice
    ensures exists i :: a <= i <= b && states[i].os.pending
  {
    if forall i :: a <= i <= b ==> !states[i].os.pending {
      QuietTicksAreCounted(states, labels, a, b);
      CoreOfRun(states, labels, b);
    }
  }
}
