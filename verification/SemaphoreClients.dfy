/**
 kernel/kernel.c: worker tasks that share the units of one counting semaphore, and the
 run-time check that never more users are active than there are units. Between the steps
 shown here a worker may do anything else: print under the console mutex, sleep, yield.
 */
module SemaphoreClients {
  import opened Task
  import opened Scheduling
  import opened Semaphore
  import opened System
  import opened CoreInvariant
  import opened QueueInvariant
  import opened RunFacts
  import opened Ledger

  // ---------------------------------------------------------------------------
  // kernel_record_semaphore_enter and kernel_record_semaphore_exit
  // ---------------------------------------------------------------------------

  datatype Usage = Usage(active: nat, maximum: nat, entered: nat, violations: nat)

  function Enter(u: Usage, capacity: nat): Usage {
    var active := (u.active + 1) % U32;
    Usage(active, if active > u.maximum then active else u.maximum, (u.entered + 1) % U32,
          if active > capacity then (u.violations + 1) % U32 else u.violations)
  }

  function Exit(u: Usage): Usage {
    if u.active == 0 then u.(violations := (u.violations + 1) % U32) else u.(active := u.active - 1)
  }

  /** The check on entering is not vacuous: it counts a violation exactly when one user too many is active. */
  lemma EnterDetects(u: Usage, capacity: nat)
    requires u.active + 1 < U32 && u.violations < U32
    ensures var u' := Enter(u, capacity);
      && u'.active == u.active + 1
      && u'.violations == (u.violations + One(u.active + 1 > capacity)) % U32
      && u'.entered == (u.entered + 1) % U32
      && u.maximum <= u'.maximum && u'.active <= u'.maximum && u'.maximum in {u.maximum, u'.active}
  {
  }

  /** The check on leaving counts a violation exactly when nobody was active, and then lets nobody leave. */
  lemma ExitDetects(u: Usage)
    requires u.violations < U32
    ensures var u' := Exit(u);
      && u'.violations == (u.violations + One(u.active == 0)) % U32
      && u'.active == u.active - One(u.active > 0)
      && u'.maximum == u.maximum && u'.entered == u.entered
  {
  }

  class UsageMonitor {
    var activeUsers: nat
    var maxActiveUsers: nat
    var waitSuccessCount: nat
    var violationCount: nat

    function Abs(): Usage
      reads this
    {
      Usage(activeUsers, maxActiveUsers, waitSuccessCount, violationCount)
    }

    constructor ()
      ensures Abs() == Usage(0, 0, 0, 0)
    {
      activeUsers, maxActiveUsers, waitSuccessCount, violationCount := 0, 0, 0, 0;
    }

    method RecordEnter(capacity: nat)
      modifies this
      ensures Abs() == Enter(old(Abs()), capacity)
    {
      activeUsers := (activeUsers + 1) % U32;
      waitSuccessCount := (waitSuccessCount + 1) % U32;
      if activeUsers > maxActiveUsers {
        maxActiveUsers := activeUsers;
      }
      if activeUsers > capacity {
        violationCount := (violationCount + 1) % U32;
      }
    }

    method RecordExit()
      modifies this
      ensures Abs() == Exit(old(Abs()))
    {
      if activeUsers == 0 {
        violationCount := (violationCount + 1) % U32;
      } else {
        activeUsers := activeUsers - 1;
      }
    }
  }

  // ---------------------------------------------------------------------------
  // kernel_run_semaphore_worker
  // ---------------------------------------------------------------------------

  /** Where a worker is in its loop, as far as the shared resource goes. */
  datatype Phase = Outside | Acquired | Inside | Leaving

  /** `resource` is the semaphore, `capacity` its initial count. */
  datatype Workers = Workers(sys: State, resource: nat, capacity: nat, phases: seq<Phase>, usage: Usage)

  datatype WorkerLabel = Kernel(step: Label) | DoEnter | DoExit

  ghost predicate WorkerShape(w: Workers) {
    && Shape(w.sys) && SPACES < w.resource < |w.sys.sems| && |w.phases| == |w.sys.pcs| && w.capacity < U32
  }

  /** A worker waits only from outside, and posts exactly once after it has left. */
  ghost predicate WorkerEnabled(w: Workers, l: WorkerLabel)
    requires WorkerShape(w)
  {
    var t := w.sys.os.current;
    match l
    case Kernel(step) =>
      && Enabled(w.sys, step)
      && (step == TaskStep(CallWait(w.resource)) ==> w.phases[t] == Outside)
      && (step == TaskStep(CallPost(w.resource)) ==> w.phases[t] == Leaving)
    case DoEnter => Runs(w.sys) && w.sys.pcs[t] == App && w.phases[t] == Acquired
    case DoExit => Runs(w.sys) && w.sys.pcs[t] == App && w.phases[t] == Inside
  }

  /** The post of the resource returns; the worker ignores its status. */
  ghost predicate PostReturns(s: State, l: Label, k: nat) {
    Continues(s, l) && s.pcs[s.os.current] == PostPc(k, User)
  }

  ghost function WorkerApply(w: Workers, l: WorkerLabel): Workers
    requires WorkerShape(w) && WorkerEnabled(w, l)
  {
    var t := w.sys.os.current;
    match l
    case Kernel(step) =>
      w.(sys := Apply(w.sys, step),
         phases := if Takes(w.sys, step, w.resource) then w.phases[t := Acquired]
                   else if PostReturns(w.sys, step, w.resource) then w.phases[t := Outside]
                   else w.phases)
    case DoEnter => w.(phases := w.phases[t := Inside], usage := Enter(w.usage, w.capacity))
    case DoExit => w.(phases := w.phases[t := Leaving], usage := Exit(w.usage))
  }

  // ---------------------------------------------------------------------------
  // The invariant
  // ---------------------------------------------------------------------------

  ghost function Holders(phases: seq<Phase>): set<nat> {
    set t | 0 <= t < |phases| && phases[t] != Outside
  }

  ghost function Active(phases: seq<Phase>): set<nat> {
    set t | 0 <= t < |phases| && phases[t] == Inside
  }

  lemma HoldersAfterMove(phases: seq<Phase>, t: nat, p: Phase)
    requires t < |phases|
    ensures |Holders(phases[t := p])| + One(phases[t] != Outside) == |Holders(phases)| + One(p != Outside)
  {
    var before, after := Holders(phases), Holders(phases[t := p]);
    assert after - {t} == before - {t};
    SizeWithout(before, t);
    SizeWithout(after, t);
    assert t in before <==> phases[t] != Outside;
    assert t in after <==> p != Outside;
  }

  lemma ActiveAfterMove(phases: seq<Phase>, t: nat, p: Phase)
    requires t < |phases|
    ensures |Active(phases[t := p])| + One(phases[t] == Inside) == |Active(phases)| + One(p == Inside)
  {
    var before, after := Active(phases), Active(phases[t := p]);
    assert after - {t} == before - {t};
    SizeWithout(before, t);
    SizeWithout(after, t);
    assert t in before <==> phases[t] == Inside;
    assert t in after <==> p == Inside;
  }

  lemma ActiveAreHolders(phases: seq<Phase>)
    ensures |Active(phases)| <= |Holders(phases)|
  {
    SubsetIsSmaller(Active(phases), Holders(phases));
  }

  lemma SubsetIsSmaller(a: set<nat>, b: set<nat>)
    requires a <= b
    ensures |a| <= |b|
  {
    assert b == a + (b - a);
  }

  ghost predicate PhasesFit(w: Workers) {
    forall t :: 0 <= t < |w.phases| && t < |w.sys.pcs| ==> PhaseFits(w.sys.pcs[t], w.phases[t], w.resource)
  }

  /** A worker inside a call on the resource is in the phase that allows the call. */
  predicate PhaseFits(pc: Pc, phase: Phase, resource: nat) {
    && (pc == WaitPc(resource, User) ==> phase == Outside)
    && (pc == PostPc(resource, User) ==> phase == Leaving)
  }

  /** Every unit is free, handed over, or with exactly one worker. */
  ghost predicate UnitsFit(q: Sem, phases: seq<Phase>, capacity: nat) {
    && q.count + |q.granted| + |Holders(phases)| == capacity
    && capacity <= q.maximum
  }

  ghost predicate UsageFits(u: Usage, phases: seq<Phase>, capacity: nat) {
    && u.active == |Active(phases)|
    && u.maximum <= capacity
    && u.violations == 0
  }

  ghost predicate WorkerInv(w: Workers) {
    && WorkerShape(w) && QueueInv(w.sys)
    && PhasesFit(w)
    && UnitsFit(w.sys.sems[w.resource], w.phases, w.capacity)
    && UsageFits(w.usage, w.phases, w.capacity)
  }

  // ---------------------------------------------------------------------------
  // Every step
  // ---------------------------------------------------------------------------

  /** The worker's own unit is out, so its post finds the count below the maximum. */
  lemma WorkerPostSucceeds(w: Workers, l: Label)
    requires WorkerShape(w) && CoreInv(w.sys) && PhasesFit(w) && UnitsFit(w.sys.sems[w.resource], w.phases, w.capacity)
    requires PostReturns(w.sys, l, w.resource)
    ensures Gives(w.sys, l, w.resource)
  {
    var t := w.sys.os.current;
    assert t in Holders(w.phases);
    OverflowExactly(w.sys, w.resource);
  }

  lemma KernelKeepsUnits(w: Workers, l: Label)
    requires WorkerInv(w) && WorkerEnabled(w, Kernel(l))
    ensures var w' := WorkerApply(w, Kernel(l));
      w.resource < |w'.sys.sems| && UnitsFit(w'.sys.sems[w.resource], w'.phases, w.capacity)
  {
    var t := w.sys.os.current;
    StepBalances(w.sys, l, w.resource);
    if Takes(w.sys, l, w.resource) {
      assert PcShape(w.sys.pcs[t], |w.sys.sems|, |w.sys.mutexes|, w.sys.cfg.messageSize);
      HoldersAfterMove(w.phases, t, Acquired);
    } else if PostReturns(w.sys, l, w.resource) {
      WorkerPostSucceeds(w, l);
      HoldersAfterMove(w.phases, t, Outside);
    } else if Continues(w.sys, l) {
      assert PcShape(w.sys.pcs[t], |w.sys.sems|, |w.sys.mutexes|, w.sys.cfg.messageSize);
    }
  }

  lemma KernelKeepsUsage(w: Workers, l: Label)
    requires WorkerShape(w) && WorkerEnabled(w, Kernel(l)) && PhasesFit(w) && UsageFits(w.usage, w.phases, w.capacity)
    ensures UsageFits(w.usage, WorkerApply(w, Kernel(l)).phases, w.capacity)
  {
    var t := w.sys.os.current;
    if Takes(w.sys, l, w.resource) {
      assert PcShape(w.sys.pcs[t], |w.sys.sems|, |w.sys.mutexes|, w.sys.cfg.messageSize);
      ActiveAfterMove(w.phases, t, Acquired);
    } else if PostReturns(w.sys, l, w.resource) {
      ActiveAfterMove(w.phases, t, Outside);
    }
  }

  ghost predicate FitsAt(w: Workers, t: nat) {
    t < |w.sys.pcs| && t < |w.phases| && PhaseFits(w.sys.pcs[t], w.phases[t], w.resource)
  }

  lemma OthersKeepPhase(w: Workers, l: Label, t: nat)
    requires WorkerShape(w) && WorkerEnabled(w, Kernel(l)) && FitsAt(w, t) && !IsStepOf(w.sys, l, t)
    ensures FitsAt(WorkerApply(w, Kernel(l)), t)
  {
    OthersStay(w.sys, l, t);
  }

  lemma CallKeepsPhase(w: Workers, op: Op, t: nat)
    requires WorkerShape(w) && WorkerEnabled(w, Kernel(TaskStep(op))) && op != Continue
    requires FitsAt(w, t) && t == w.sys.os.current
    ensures FitsAt(WorkerApply(w, Kernel(TaskStep(op))), t)
  {
  }

  lemma PassKeepsPhase(w: Workers, t: nat)
    requires WorkerShape(w) && CoreInv(w.sys) && WorkerEnabled(w, Kernel(TaskStep(Continue)))
    requires FitsAt(w, t) && t == w.sys.os.current
    ensures FitsAt(WorkerApply(w, Kernel(TaskStep(Continue))), t)
  {
    ProceedFollows(w.sys);
    if Takes(w.sys, TaskStep(Continue), w.resource) {
      WaitThatTakesLeaves(w.sys, w.resource);
    }
  }

  lemma PhaseStaysFit(w: Workers, l: Label, t: nat)
    requires WorkerShape(w) && CoreInv(w.sys) && WorkerEnabled(w, Kernel(l)) && FitsAt(w, t)
    ensures FitsAt(WorkerApply(w, Kernel(l)), t)
  {
    if !IsStepOf(w.sys, l, t) {
      OthersKeepPhase(w, l, t);
    } else if l.op == Continue {
      PassKeepsPhase(w, t);
    } else {
      CallKeepsPhase(w, l.op, t);
    }
  }

  lemma KernelKeepsPhases(w: Workers, l: Label, w': Workers)
    requires WorkerShape(w) && CoreInv(w.sys) && WorkerEnabled(w, Kernel(l)) && PhasesFit(w)
    requires w' == WorkerApply(w, Kernel(l))
    ensures PhasesFit(w')
  {
    forall t | 0 <= t < |w'.phases| && t < |w'.sys.pcs| ensures PhaseFits(w'.sys.pcs[t], w'.phases[t], w'.resource) {
      StepKeepsSizes(w.sys, l);
      PhaseStaysFit(w, l, t);
      assert FitsAt(w', t);
    }
  }

  /** A pass that takes a unit leaves the wait. */
  lemma WaitThatTakesLeaves(s: State, k: nat)
    requires Shape(s) && Takes(s, TaskStep(Continue), k)
    ensures s.os.current < |Proceed(s).pcs| && Proceed(s).pcs[s.os.current] != s.pcs[s.os.current]
  {
  }

  lemma EnterKeepsUsage(u: Usage, q: Sem, phases: seq<Phase>, capacity: nat, t: nat)
    requires UnitsFit(q, phases, capacity) && UsageFits(u, phases, capacity)
    requires t < |phases| && phases[t] == Acquired && capacity < U32
    ensures UnitsFit(q, phases[t := Inside], capacity) && UsageFits(Enter(u, capacity), phases[t := Inside], capacity)
  {
    HoldersAfterMove(phases, t, Inside);
    ActiveAfterMove(phases, t, Inside);
    ActiveAreHolders(phases[t := Inside]);
  }

  lemma ExitKeepsUsage(u: Usage, q: Sem, phases: seq<Phase>, capacity: nat, t: nat)
    requires UnitsFit(q, phases, capacity) && UsageFits(u, phases, capacity)
    requires t < |phases| && phases[t] == Inside
    ensures UnitsFit(q, phases[t := Leaving], capacity) && UsageFits(Exit(u), phases[t := Leaving], capacity)
  {
    HoldersAfterMove(phases, t, Leaving);
    ActiveAfterMove(phases, t, Leaving);
  }

  lemma StepKeepsWorkers(w: Workers, l: WorkerLabel)
    requires WorkerInv(w) && WorkerEnabled(w, l)
    ensures WorkerInv(WorkerApply(w, l))
  {
    match l {
      case Kernel(step) =>
        StepKeepsQueue(w.sys, step);
        StepKeepsSizes(w.sys, step);
        KernelKeepsUnits(w, step);
        KernelKeepsUsage(w, step);
        KernelKeepsPhases(w, step, WorkerApply(w, l));
      case DoEnter => EnterKeepsUsage(w.usage, w.sys.sems[w.resource], w.phases, w.capacity, w.sys.os.current);
      case DoExit => ExitKeepsUsage(w.usage, w.sys.sems[w.resource], w.phases, w.capacity, w.sys.os.current);
    }
  }

  // ---------------------------------------------------------------------------
  // Every run
  // ---------------------------------------------------------------------------

  ghost predicate WorkerInit(w: Workers) {
    && WorkerShape(w) && Init(w.sys)
    && w.capacity == w.sys.sems[w.resource].count
    && w.phases == seq(|w.sys.pcs|, _ => Outside)
    && w.usage == Usage(0, 0, 0, 0)
  }

  ghost predicate WorkerRun(run: seq<Workers>, labels: seq<WorkerLabel>) {
    && |run| == |labels| + 1 && WorkerInit(run[0])
    && forall i :: 0 <= i < |labels| ==> WorkerStepAt(run, labels, i)
  }

  ghost predicate WorkerStepAt(run: seq<Workers>, labels: seq<WorkerLabel>, i: nat) {
    && i < |labels| && i + 1 < |run|
    && WorkerShape(run[i]) && WorkerEnabled(run[i], labels[i]) && run[i + 1] == WorkerApply(run[i], labels[i])
  }

  lemma FirstWorkersAreGood(run: seq<Workers>, labels: seq<WorkerLabel>)
    requires WorkerRun(run, labels)
    ensures WorkerInv(run[0])
  {
  }

  lemma WorkerStepOfRun(run: seq<Workers>, labels: seq<WorkerLabel>, i: nat, next: nat)
    requires WorkerRun(run, labels) && i < |labels| && next == i + 1 && WorkerInv(run[i])
    ensures WorkerInv(run[next]) && run[next].capacity == run[i].capacity
  {
    assert WorkerStepAt(run, labels, i);
    StepKeepsWorkers(run[i], labels[i]);
  }

  lemma {:induction false} WorkersStayGood(run: seq<Workers>, labels: seq<WorkerLabel>, i: nat)
    requires WorkerRun(run, labels) && i < |run|
    ensures WorkerInv(run[i]) && run[i].capacity == run[0].capacity
  {
    if i == 0 {
      FirstWorkersAreGood(run, labels);
    } else {
      WorkersStayGood(run, labels, i - 1);
      WorkerStepOfRun(run, labels, i - 1, i);
    }
  }

  /** How many workers have entered in the first `i` steps. */
  ghost function EntersBefore(labels: seq<WorkerLabel>, i: nat): nat
    requires i <= |labels|
  {
    if i == 0 then 0 else EntersBefore(labels, i - 1) + One(labels[i - 1] == DoEnter)
  }

  lemma CounterWraps(n: nat, entered: bool)
    ensures (n + One(entered)) % U32 == if entered then (n % U32 + 1) % U32 else n % U32
  {
    TickWraps(n);
  }

  lemma OnlyRecordsChangeUsage(w: Workers, l: WorkerLabel)
    requires WorkerShape(w) && WorkerEnabled(w, l)
    ensures WorkerApply(w, l).usage
            == if l == DoEnter then Enter(w.usage, w.capacity) else if l == DoExit then Exit(w.usage) else w.usage
  {
  }

  /** One step of the record: `u` before, `u'` after it. */
  ghost predicate Recorded(u: Usage, u': Usage, l: WorkerLabel) {
    && u'.entered == (if l == DoEnter then (u.entered + 1) % U32 else u.entered)
    && (u.active <= u.maximum ==> u'.maximum == if u'.active > u.maximum then u'.active else u.maximum)
  }

  lemma UsageStepOfRun(run: seq<Workers>, labels: seq<WorkerLabel>, i: nat, next: nat)
    requires WorkerRun(run, labels) && i < |labels| && next == i + 1
    ensures Recorded(run[i].usage, run[next].usage, labels[i])
    ensures run[next].usage.active == |Active(run[next].phases)|
  {
    WorkersStayGood(run, labels, next);
    assert WorkerStepAt(run, labels, i);
    OnlyRecordsChangeUsage(run[i], labels[i]);
  }

  ghost predicate ActiveAtMost(w: Workers, n: nat) {
    |Active(w.phases)| <= n
  }

  /** `maximum` is the largest number of workers active in any of the first `i + 1` states. */
  ghost predicate IsPeak(run: seq<Workers>, i: nat, maximum: nat)
    requires i < |run|
  {
    && (forall j :: 0 <= j <= i ==> ActiveAtMost(run[j], maximum))
    && (exists j :: 0 <= j <= i && |Active(run[j].phases)| == maximum)
  }

  lemma PeakGrows(run: seq<Workers>, i: nat, next: nat, maximum: nat, active: nat)
    requires next == i + 1 < |run| && IsPeak(run, i, maximum) && |Active(run[next].phases)| == active
    ensures IsPeak(run, next, if active > maximum then active else maximum)
  {
    var j :| 0 <= j <= i && |Active(run[j].phases)| == maximum;
    var at := if active > maximum then next else j;
    assert |Active(run[at].phases)| == if active > maximum then active else maximum;
    forall k | 0 <= k <= next ensures ActiveAtMost(run[k], if active > maximum then active else maximum) {
      assert k <= i ==> ActiveAtMost(run[k], maximum);
    }
  }

  lemma FirstPeak(run: seq<Workers>, labels: seq<WorkerLabel>)
    requires WorkerRun(run, labels)
    ensures |Active(run[0].phases)| == 0 && run[0].usage == Usage(0, 0, 0, 0) && IsPeak(run, 0, 0)
  {
    assert Active(run[0].phases) == {};
    assert |Active(run[0].phases)| == 0;
  }

  lemma PeakStepOfRun(run: seq<Workers>, labels: seq<WorkerLabel>, i: nat, next: nat)
    requires WorkerRun(run, labels) && i < |labels| && next == i + 1
    requires run[i].usage.active == |Active(run[i].phases)| && IsPeak(run, i, run[i].usage.maximum)
    ensures run[next].usage.active == |Active(run[next].phases)| && IsPeak(run, next, run[next].usage.maximum)
    ensures run[next].usage.entered
            == if labels[i] == DoEnter then (run[i].usage.entered + 1) % U32 else run[i].usage.entered
  {
    assert ActiveAtMost(run[i], run[i].usage.maximum);
    UsageStepOfRun(run, labels, i, next);
    PeakGrows(run, i, next, run[i].usage.maximum, run[next].usage.active);
  }

  /** The counters tell the history: how often workers have entered, and the most that were ever active at once. */
  lemma {:induction false} UsageIsRecorded(run: seq<Workers>, labels: seq<WorkerLabel>, i: nat)
    requires WorkerRun(run, labels) && i < |run|
    ensures run[i].usage.active == |Active(run[i].phases)|
    ensures run[i].usage.entered == EntersBefore(labels, i) % U32
    ensures IsPeak(run, i, run[i].usage.maximum)
  {
    if i == 0 {
      FirstPeak(run, labels);
    } else {
      UsageIsRecorded(run, labels, i - 1);
      CounterWraps(EntersBefore(labels, i - 1), labels[i - 1] == DoEnter);
      PeakStepOfRun(run, labels, i - 1, i);
    }
  }

  /** Never more users are active than the semaphore had units, and the violation counter stays 0. */
  lemma NoUsageViolations(run: seq<Workers>, labels: seq<WorkerLabel>, i: nat)
    requires WorkerRun(run, labels) && i < |run|
    ensures run[i].usage.violations == 0
    ensures run[i].usage.active == |Active(run[i].phases)| <= run[0].capacity
    ensures run[i].usage.maximum <= run[0].capacity
  {
    WorkersStayGood(run, labels, i);
    ActiveAreHolders(run[i].phases);
  }
}
