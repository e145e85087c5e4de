/** From a handoff to the return of the call that waited for it. */
module Service {
  import opened Waiters
  import opened Semaphore
  import opened Mutex
  import opened System
  import opened CoreInvariant
  import opened RunFacts
  import opened SchedulerTheorems
  import opened SyncTheorems

  /** The first dispatch of `t` after state `a`. */
  ghost predicate FirstDispatch(states: seq<State>, a: nat, j: nat, t: nat) {
    && a < j < |states| && IsDispatched(states[j], t)
    && forall i :: a < i < j ==> !IsDispatched(states[i], t)
  }

  lemma {:induction false} SomeDispatchIsFirst(states: seq<State>, a: nat, i: nat, t: nat) returns (j: nat)
    requires a < i < |states| && IsDispatched(states[i], t)
    ensures j <= i && FirstDispatch(states, a, j, t)
    decreases i
  {
    if k :| a < k < i && IsDispatched(states[k], t) {
      j := SomeDispatchIsFirst(states, a, k, t);
    } else {
      j := i;
    }
  }

  /** Until then the task executes nothing. */
  lemma RestsUntilDispatch(states: seq<State>, labels: seq<Label>, t: nat, i: nat)
    requires Execution(states, labels) && i < |labels|
    requires IsReady(states[i], t) || !IsDispatched(states[i], t)
    ensures !IsStepOf(states[i], labels[i], t)
  {
    StateOfRun(states, labels, i);
    if IsStepOf(states[i], labels[i], t) {
      OnlyDispatchedStep(states[i], labels[i], t);
    }
  }

  lemma OnlyDispatchedStep(s: State, l: Label, t: nat)
    requires CoreInv(s) && Enabled(s, l) && IsStepOf(s, l, t)
    ensures IsDispatched(s, t)
  {
  }

  /** The first dispatch comes within slice * (N - 1) open ticks, and until then the task rests. */
  lemma FirstDispatchInTime(states: seq<State>, labels: seq<Label>, a: nat, b: nat, t: nat) returns (j: nat)
    requires Execution(states, labels) && Preemptive(states, labels, a, b) && IsReady(states[a], t)
    requires OpenTicksBetween(states, labels, a, b) > states[a].cfg.slice * (|states[a].os.tasks| - 1)
    ensures a < j <= b && FirstDispatch(states, a, j, t)
    ensures forall i :: a <= i < j ==> !IsStepOf(states[i], labels[i], t)
  {
    DispatchedWithinTicks(states, labels, t, a, b);
    var i :| a < i <= b && IsDispatched(states[i], t);
    j := SomeDispatchIsFirst(states, a, i, t);
    forall k | a <= k < j ensures !IsStepOf(states[k], labels[k], t) {
      RestsUntilDispatch(states, labels, t, k);
    }
  }

  /**
   A task that was handed a unit is dispatched within slice * (N - 1) open ticks of the handoff, and
   the pass it then makes through its wait returns OK.
   */
  lemma HandedUnitIsTaken(states: seq<State>, labels: seq<Label>, a: nat, b: nat, t: nat, k: nat)
    requires Execution(states, labels) && Preemptive(states, labels, a, b) && IsReady(states[a], t)
    requires k < |states[a].sems| && t in states[a].sems[k].granted
    requires OpenTicksBetween(states, labels, a, b) > states[a].cfg.slice * (|states[a].os.tasks| - 1)
    ensures exists j :: a < j <= b && IsDispatched(states[j], t) && TakesNext(states[j], t, k)
  {
    CoreOfRun(states, labels, a);
    assert SemInv(k, states[a].sems[k], states[a].pcs);
    var j := FirstDispatchInTime(states, labels, a, b, t);
    WaitEngagedUntil(states, labels, a, j, t, k);
    CoreOfRun(states, labels, j);
    EngagedTakesNext(states[j], t, k);
  }

  /** The next pass of `t` through its wait on `k` returns OK. */
  ghost predicate TakesNext(s: State, t: nat, k: nat) {
    InWait(s.pcs, t, k) && k < |s.sems| && WaitPass(s.sems[k], s.os.(current := t)).status == Some(SemOk)
  }

  lemma EngagedTakesNext(s: State, t: nat, k: nat)
    requires CoreInv(s) && WaitEngaged(s, t, k) && IsDispatched(s, t)
    ensures TakesNext(s, t, k)
  {
    assert SemInv(k, s.sems[k], s.pcs);
    assert TaskInv(t, s.os.tasks[t].state, s.pcs[t], s.sems, s.mutexes);
  }

  /** The same for a task that was handed a mutex. */
  lemma HandedMutexIsTaken(states: seq<State>, labels: seq<Label>, a: nat, b: nat, t: nat, m: nat)
    requires Execution(states, labels) && Preemptive(states, labels, a, b) && IsReady(states[a], t)
    requires m < |states[a].mutexes| && t in states[a].mutexes[m].waiting && states[a].mutexes[m].owner == t
    requires OpenTicksBetween(states, labels, a, b) > states[a].cfg.slice * (|states[a].os.tasks| - 1)
    ensures exists j :: a < j <= b && IsDispatched(states[j], t) && LocksNext(states[j], t, m)
  {
    CoreOfRun(states, labels, a);
    assert MutexInv(m, states[a].mutexes[m], states[a].pcs);
    var j := FirstDispatchInTime(states, labels, a, b, t);
    LockEngagedUntil(states, labels, a, j, t, m);
    CoreOfRun(states, labels, j);
    EngagedLocksNext(states[j], t, m);
  }

  /** The next pass of `t` through its lock of `m` returns OK. */
  ghost predicate LocksNext(s: State, t: nat, m: nat) {
    InLock(s.pcs, t, m) && m < |s.mutexes| && LockPass(s.mutexes[m], s.os.(current := t)).status == Some(MutexOk)
  }

  lemma EngagedLocksNext(s: State, t: nat, m: nat)
    requires CoreInv(s) && LockEngaged(s, t, m) && IsDispatched(s, t)
    ensures LocksNext(s, t, m)
  {
    assert MutexInv(m, s.mutexes[m], s.pcs);
    assert TaskInv(t, s.os.tasks[t].state, s.pcs[t], s.sems, s.mutexes);
  }
}
