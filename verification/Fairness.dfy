/** Bounded bypass: how often a waiting task can be passed over. */
module Fairness {
  import opened RoundRobin
  import opened Waiters
  import opened System
  import opened CoreInvariant
  import opened QueueInvariant
  import opened RunFacts
  import opened Exclusion

  // ---------------------------------------------------------------------------
  // Semaphores
  // ---------------------------------------------------------------------------

  /** A post hands a unit of `k` to a waiting task. */
  ghost predicate Grants(s: State, l: Label, k: nat) {
    && Continues(s, l) && k < |s.sems| && s.sems[k].waiting != {}
    && s.pcs[s.os.current].PostPc? && s.pcs[s.os.current].sem == k
  }

  ghost function GrantsBetween(states: seq<State>, labels: seq<Label>, k: nat, a: nat, b: nat): nat
    requires a <= b <= |labels| && b <= |states|
  {
    if a == b then 0 else GrantsBetween(states, labels, k, a, b - 1) + One(Grants(states[b - 1], labels[b - 1], k))
  }

  ghost predicate WaitsForGrant(s: State, c: nat, k: nat) {
    k < |s.sems| && c in s.sems[k].waiting
  }

  /** How many application tasks the next grants of `k` may prefer to `c`, counting `c` itself. */
  ghost function GrantDistance(s: State, k: nat, c: nat): int {
    if k < |s.sems| && s.sems[k].last < |s.os.tasks| && IDLE < c < |s.os.tasks|
    then Distance(s.sems[k].last, |s.os.tasks|, c) else 0
  }

  lemma GrantDistanceBounds(s: State, k: nat, c: nat)
    requires CoreInv(s) && WaitsForGrant(s, c, k)
    ensures 1 <= GrantDistance(s, k, c) <= |s.os.tasks| - 1
  {
  }

  lemma GrantGetsCloser(s: State, l: Label, k: nat, c: nat)
    requires CoreInv(s) && Enabled(s, l) && WaitsForGrant(s, c, k)
    requires CoreInv(Apply(s, l)) && WaitsForGrant(Apply(s, l), c, k)
    ensures |Apply(s, l).os.tasks| == |s.os.tasks|
    ensures GrantDistance(Apply(s, l), k, c) + One(Grants(s, l, k)) <= GrantDistance(s, k, c)
  {
    WaitersAreBlocked(s, k);
    StepKeepsSizes(s, l);
    if Continues(s, l) && UsesSemaphore(s.pcs[s.os.current], k) {
      NothingIsStale(s.sems[k].waiting, s.os.tasks, s.sems[k].last);
      PassingOverShortens(s.sems[k].last, |s.os.tasks|, s.sems[k].waiting, c);
    } else {
      SemaphoresStay(s, l, k);
    }
  }

  lemma GrantStepOfRun(states: seq<State>, labels: seq<Label>, k: nat, c: nat, i: nat)
    requires Execution(states, labels) && i < |labels|
    requires WaitsForGrant(states[i], c, k) && WaitsForGrant(states[i + 1], c, k)
    ensures |states[i + 1].os.tasks| == |states[i].os.tasks|
    ensures GrantDistance(states[i + 1], k, c) + One(Grants(states[i], labels[i], k)) <= GrantDistance(states[i], k, c)
  {
    StateOfRun(states, labels, i);
    GrantGetsCloser(states[i], labels[i], k, c);
  }

  lemma {:induction false} GrantsApproach(states: seq<State>, labels: seq<Label>, k: nat, c: nat, a: nat, b: nat)
    requires Execution(states, labels) && a <= b < |states|
    requires forall i :: a <= i <= b ==> WaitsForGrant(states[i], c, k)
    ensures |states[a].os.tasks| == |states[b].os.tasks|
    ensures GrantsBetween(states, labels, k, a, b) + GrantDistance(states[b], k, c) <= GrantDistance(states[a], k, c)
    decreases b
  {
    if a == b {
    } else {
      GrantsApproach(states, labels, k, c, a, b - 1);
      GrantStepOfRun(states, labels, k, c, b - 1);
    }
  }

  /** While `c` waits on `k`, at most N - 2 grants go to others. */
  lemma BoundedBypassOfWaiters(states: seq<State>, labels: seq<Label>, k: nat, c: nat, a: nat, b: nat)
    requires Execution(states, labels) && a <= b < |states|
    requires forall i :: a <= i <= b ==> WaitsForGrant(states[i], c, k)
    ensures GrantsBetween(states, labels, k, a, b) <= |states[a].os.tasks| - 2
  {
    GrantsApproach(states, labels, k, c, a, b);
    EveryStateIsGood(states, labels, a);
    EveryStateIsGood(states, labels, b);
    GrantDistanceBounds(states[a], k, c);
    GrantDistanceBounds(states[b], k, c);
  }

  // ---------------------------------------------------------------------------
  // Mutexes
  // ---------------------------------------------------------------------------

  ghost predicate Unlocks(s: State, l: Label, m: nat) {
    Releases(s, l, s.os.current, m)
  }

  ghost function UnlocksBetween(states: seq<State>, labels: seq<Label>, m: nat, a: nat, b: nat): nat
    requires a <= b <= |labels| && b <= |states|
  {
    if a == b then 0 else UnlocksBetween(states, labels, m, a, b - 1) + One(Unlocks(states[b - 1], labels[b - 1], m))
  }

  /** `c` waits for `m` and has not been given it. */
  ghost predicate WaitsForMutex(s: State, c: nat, m: nat) {
    m < |s.mutexes| && c in s.mutexes[m].waiting && s.mutexes[m].owner != c
  }

  ghost function OwnerDistance(s: State, m: nat, c: nat): int {
    if m < |s.mutexes| && s.mutexes[m].owner < |s.os.tasks| && IDLE < c < |s.os.tasks|
    then Distance(s.mutexes[m].owner, |s.os.tasks|, c) else 0
  }

  lemma OwnerDistanceBounds(s: State, m: nat, c: nat)
    requires CoreInv(s) && WaitsForMutex(s, c, m)
    ensures 1 <= OwnerDistance(s, m, c) <= |s.os.tasks| - 2
  {
  }

  lemma UnlockGetsCloser(s: State, l: Label, m: nat, c: nat)
    requires CoreInv(s) && Enabled(s, l) && WaitsForMutex(s, c, m)
    requires CoreInv(Apply(s, l)) && WaitsForMutex(Apply(s, l), c, m)
    ensures |Apply(s, l).os.tasks| == |s.os.tasks|
    ensures OwnerDistance(Apply(s, l), m, c) + One(Unlocks(s, l, m)) <= OwnerDistance(s, m, c)
  {
    StepKeepsSizes(s, l);
    OwnerDistanceBounds(s, m, c);
    assert MutexInv(m, s.mutexes[m], s.pcs);
    if Unlocks(s, l, m) {
      LockersAreBlocked(s, m);
      NothingIsStale(s.mutexes[m].waiting, s.os.tasks, s.os.current);
      PassingOverShortens(s.os.current, |s.os.tasks|, s.mutexes[m].waiting, c);
    } else {
      OwnershipStays(s, l, s.mutexes[m].owner, m);
    }
  }

  lemma UnlockStepOfRun(states: seq<State>, labels: seq<Label>, m: nat, c: nat, i: nat)
    requires Execution(states, labels) && i < |labels|
    requires WaitsForMutex(states[i], c, m) && WaitsForMutex(states[i + 1], c, m)
    ensures |states[i + 1].os.tasks| == |states[i].os.tasks|
    ensures OwnerDistance(states[i + 1], m, c) + One(Unlocks(states[i], labels[i], m)) <= OwnerDistance(states[i], m, c)
  {
    StateOfRun(states, labels, i);
    UnlockGetsCloser(states[i], labels[i], m, c);
  }

  lemma {:induction false} UnlocksApproach(states: seq<State>, labels: seq<Label>, m: nat, c: nat, a: nat, b: nat)
    requires Execution(states, labels) && a <= b < |states|
    requires forall i :: a <= i <= b ==> WaitsForMutex(states[i], c, m)
    ensures |states[a].os.tasks| == |states[b].os.tasks|
    ensures UnlocksBetween(states, labels, m, a, b) + OwnerDistance(states[b], m, c) <= OwnerDistance(states[a], m, c)
    decreases b
  {
    if a == b {
    } else {
      UnlocksApproach(states, labels, m, c, a, b - 1);
      UnlockStepOfRun(states, labels, m, c, b - 1);
    }
  }

  /** While `c` waits for `m`, fewer than N - 2 unlocks pass it over: the (N - 2)-th makes it the owner. */
  lemma BoundedBypassOfLockers(states: seq<State>, labels: seq<Label>, m: nat, c: nat, a: nat, b: nat)
    requires Execution(states, labels) && a <= b < |states|
    requires forall i :: a <= i <= b ==> WaitsForMutex(states[i], c, m)
    ensures UnlocksBetween(states, labels, m, a, b) < |states[a].os.tasks| - 2
  {
    UnlocksApproach(states, labels, m, c, a, b);
    EveryStateIsGood(states, labels, a);
    EveryStateIsGood(states, labels, b);
    OwnerDistanceBounds(states[a], m, c);
    OwnerDistanceBounds(states[b], m, c);
  }
}
