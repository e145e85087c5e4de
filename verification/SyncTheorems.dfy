/** Theorems about the semaphores and the mutexes, over states and over whole runs. */
module SyncTheorems {
  import opened Waiters
  import opened Task
  import opened Semaphore
  import opened Mutex
  import opened System
  import opened CoreInvariant
  import opened RunFacts

  // ---------------------------------------------------------------------------
  // No lost wakeup
  // ---------------------------------------------------------------------------

  /** Something that will wake a blocked task: a semaphore, or a mutex another task owns. */
  datatype Waker = BySemaphore(k: nat) | ByMutex(m: nat)

  ghost predicate IsMarkedIn(s: State, t: nat, w: Waker) {
    match w
    case BySemaphore(k) => k < |s.sems| && t in s.sems[k].waiting
    case ByMutex(m) => m < |s.mutexes| && t in s.mutexes[m].waiting && s.mutexes[m].owner != t
  }

  /** A task is BLOCKED exactly when it is marked in some object, and then in one object only. */
  lemma BlockedMeansMarkedOnce(s: State, t: nat)
    requires CoreInv(s) && t < |s.os.tasks|
    ensures s.os.tasks[t].state == Blocked <==> exists w :: IsMarkedIn(s, t, w)
    ensures forall v, w :: IsMarkedIn(s, t, v) && IsMarkedIn(s, t, w) ==> v == w
  {
    assert TaskInv(t, s.os.tasks[t].state, s.pcs[t], s.sems, s.mutexes);
    var pc := s.pcs[t];
    forall w | IsMarkedIn(s, t, w) ensures pc.WaitPc? || pc.LockPc?
                                   ensures w == if pc.WaitPc? then BySemaphore(pc.sem) else ByMutex(pc.mutex) {
      match w {
        case BySemaphore(k) =>
          assert SemInv(k, s.sems[k], s.pcs);
          assert InWait(s.pcs, t, k);
        case ByMutex(m) =>
          assert MutexInv(m, s.mutexes[m], s.pcs);
          assert InLock(s.pcs, t, m);
      }
    }
    if s.os.tasks[t].state == Blocked {
      assert IsMarkedIn(s, t, if pc.WaitPc? then BySemaphore(pc.sem) else ByMutex(pc.mutex));
    }
  }

  /** The branches that drop a stale waiting marker are never taken. */
  lemma CleanupNeverFires(s: State)
    requires CoreInv(s)
    ensures forall k :: 0 <= k < |s.sems| ==> Stale(s.sems[k].waiting, s.os.tasks, s.sems[k].last) == {}
    ensures forall m :: 0 <= m < |s.mutexes| && s.mutexes[m].owner == s.os.current && s.pcs[s.os.current].UnlockPc? ==>
              Stale(s.mutexes[m].waiting, s.os.tasks, s.os.current) == {}
  {
  }

  /** `task_block` cannot refuse: a pass of the wait or lock loop never reports TASK_OPERATION. */
  lemma BlockingNeverFails(s: State, q: Sem, m: Mtx)
    requires CoreInv(s) && Runs(s)
    ensures WaitPass(q, s.os).status != Some(SemTaskOperation)
    ensures LockPass(m, s.os).status != Some(MutexTaskOperation)
  {
  }

  // ---------------------------------------------------------------------------
  // The retry loops run at most twice
  // ---------------------------------------------------------------------------

  /** `t` is inside a wait on `k` and is marked as waiting, or already has its unit. */
  ghost predicate WaitEngaged(s: State, t: nat, k: nat) {
    InWait(s.pcs, t, k) && k < |s.sems| && (t in s.sems[k].waiting || t in s.sems[k].granted)
  }

  /** `t` is inside a lock of `m` with its waiting marker set. */
  ghost predicate LockEngaged(s: State, t: nat, m: nat) {
    InLock(s.pcs, t, m) && m < |s.mutexes| && t in s.mutexes[m].waiting
  }

  /** Nothing but its own next pass takes a waiter out of the masks. */
  lemma WaitEngagementStays(s: State, l: Label, t: nat, k: nat)
    requires CoreInv(s) && Enabled(s, l) && WaitEngaged(s, t, k) && !IsStepOf(s, l, t)
    ensures WaitEngaged(Apply(s, l), t, k)
  {
    OthersStay(s, l, t);
    if Continues(s, l) && UsesSemaphore(s.pcs[s.os.current], k) {
      WaitersAreBlocked(s, k);
      NothingIsStale(s.sems[k].waiting, s.os.tasks, s.sems[k].last);
    } else {
      SemaphoresStay(s, l, k);
    }
  }

  lemma LockEngagementStays(s: State, l: Label, t: nat, m: nat)
    requires CoreInv(s) && Enabled(s, l) && LockEngaged(s, t, m) && !IsStepOf(s, l, t)
    ensures LockEngaged(Apply(s, l), t, m)
  {
    OthersStay(s, l, t);
    if Continues(s, l) && UsesMutex(s.pcs[s.os.current], m) {
      assert MutexInv(m, s.mutexes[m], s.pcs);
      if s.pcs[s.os.current].UnlockPc? && s.mutexes[m].owner == s.os.current {
        LockersAreBlocked(s, m);
        NothingIsStale(s.mutexes[m].waiting, s.os.tasks, s.os.current);
      }
    } else {
      MutexesStay(s, l, m);
    }
  }

  /**
   A wait that blocked at step `a` and runs again at step `b` returns OK there: it was
   given a unit in between.
   */
  lemma WaitBlocksAtMostOnce(states: seq<State>, labels: seq<Label>, a: nat, b: nat, t: nat, k: nat)
    requires Execution(states, labels) && a < b < |labels|
    requires IsStepOf(states[a], labels[a], t) && InWait(states[a].pcs, t, k) && k < |states[a].sems|
    requires WaitPass(states[a].sems[k], states[a].os).status == None
    requires forall i :: a < i < b ==> !IsStepOf(states[i], labels[i], t)
    requires IsStepOf(states[b], labels[b], t)
    ensures InWait(states[b].pcs, t, k) && k < |states[b].sems| && t in states[b].sems[k].granted
    ensures WaitPass(states[b].sems[k], states[b].os).status == Some(SemOk)
  {
    StateOfRun(states, labels, a);
    assert WaitEngaged(states[a + 1], t, k);
    WaitEngagedUntil(states, labels, a + 1, b, t, k);
    StateOfRun(states, labels, b);
    var s := states[b];
    assert SemInv(k, s.sems[k], s.pcs);
    assert TaskInv(t, s.os.tasks[t].state, s.pcs[t], s.sems, s.mutexes);
  }

  lemma {:induction false} WaitEngagedUntil(states: seq<State>, labels: seq<Label>, a: nat, b: nat, t: nat, k: nat)
    requires Execution(states, labels) && a <= b < |states|
    requires WaitEngaged(states[a], t, k)
    requires forall i :: a <= i < b ==> !IsStepOf(states[i], labels[i], t)
    ensures WaitEngaged(states[b], t, k)
    decreases b
  {
    if a == b {
    } else {
      WaitEngagedUntil(states, labels, a, b - 1, t, k);
      WaitEngagedStep(states, labels, b - 1, b, t, k);
    }
  }

  lemma WaitEngagedStep(states: seq<State>, labels: seq<Label>, i: nat, next: nat, t: nat, k: nat)
    requires Execution(states, labels) && i < |labels| && next == i + 1
    requires WaitEngaged(states[i], t, k) && !IsStepOf(states[i], labels[i], t)
    ensures WaitEngaged(states[next], t, k)
  {
    StateOfRun(states, labels, i);
    WaitEngagementStays(states[i], labels[i], t, k);
  }

  /**
   A lock that blocked at step `a` and runs again at step `b` finds itself the owner and
   returns OK there, never RECURSIVE_LOCK.
   */
  lemma LockBlocksAtMostOnce(states: seq<State>, labels: seq<Label>, a: nat, b: nat, t: nat, m: nat)
    requires Execution(states, labels) && a < b < |labels|
    requires IsStepOf(states[a], labels[a], t) && InLock(states[a].pcs, t, m) && m < |states[a].mutexes|
    requires LockPass(states[a].mutexes[m], states[a].os).status == None
    requires forall i :: a < i < b ==> !IsStepOf(states[i], labels[i], t)
    requires IsStepOf(states[b], labels[b], t)
    ensures InLock(states[b].pcs, t, m) && m < |states[b].mutexes|
    ensures states[b].mutexes[m].owner == t && t in states[b].mutexes[m].waiting
    ensures LockPass(states[b].mutexes[m], states[b].os).status == Some(MutexOk)
  {
    StateOfRun(states, labels, a);
    assert LockEngaged(states[a + 1], t, m);
    LockEngagedUntil(states, labels, a + 1, b, t, m);
    StateOfRun(states, labels, b);
    var s := states[b];
    assert MutexInv(m, s.mutexes[m], s.pcs);
    assert TaskInv(t, s.os.tasks[t].state, s.pcs[t], s.sems, s.mutexes);
  }

  lemma {:induction false} LockEngagedUntil(states: seq<State>, labels: seq<Label>, a: nat, b: nat, t: nat, m: nat)
    requires Execution(states, labels) && a <= b < |states|
    requires LockEngaged(states[a], t, m)
    requires forall i :: a <= i < b ==> !IsStepOf(states[i], labels[i], t)
    ensures LockEngaged(states[b], t, m)
    decreases b
  {
    if a == b {
    } else {
      LockEngagedUntil(states, labels, a, b - 1, t, m);
      LockEngagedStep(states, labels, b - 1, b, t, m);
    }
  }

  lemma LockEngagedStep(states: seq<State>, labels: seq<Label>, i: nat, next: nat, t: nat, m: nat)
    requires Execution(states, labels) && i < |labels| && next == i + 1
    requires LockEngaged(states[i], t, m) && !IsStepOf(states[i], labels[i], t)
    ensures LockEngaged(states[next], t, m)
  {
    StateOfRun(states, labels, i);
    LockEngagementStays(states[i], labels[i], t, m);
  }
}
