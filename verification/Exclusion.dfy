/** Mutual exclusion, direct handoff and non-recursion of the mutex, over whole runs. */
module Exclusion {
  import opened RoundRobin
  import opened Waiters
  import opened Mutex
  import opened System
  import opened CoreInvariant
  import opened RunFacts

  /** Task `t` returns successfully from the lock of `m`. */
  ghost predicate Acquires(s: State, l: Label, t: nat, m: nat) {
    && Continues(s, l) && s.os.current == t && m < |s.mutexes|
    && s.pcs[t].LockPc? && s.pcs[t].mutex == m
    && LockPass(s.mutexes[m], s.os).status == Some(MutexOk)
  }

  /** Task `t` returns successfully from the unlock of `m`. */
  ghost predicate Releases(s: State, l: Label, t: nat, m: nat) {
    && Continues(s, l) && s.os.current == t && m < |s.mutexes| && t < |s.os.tasks|
    && s.pcs[t].UnlockPc? && s.pcs[t].mutex == m
    && UnlockPass(s.mutexes[m], s.os).status == Some(MutexOk)
  }

  ghost predicate Owns(s: State, t: nat, m: nat) {
    m < |s.mutexes| && s.mutexes[m].locked && s.mutexes[m].owner == t
  }

  /** Before state `i`, `t` locked `m` at step `a` and has not unlocked it since. */
  ghost predicate HoldsSince(states: seq<State>, labels: seq<Label>, t: nat, m: nat, a: nat, i: nat) {
    && IsRun(states, labels) && a < i < |states|
    && Acquires(states[a], labels[a], t, m)
    && forall j :: a < j < i ==> !Releases(states[j], labels[j], t, m)
  }

  /** Ownership moves only by the owner's own successful unlock, and until then nobody else acquires. */
  lemma OwnershipStays(s: State, l: Label, t: nat, m: nat)
    requires CoreInv(s) && Enabled(s, l) && Owns(s, t, m) && !Releases(s, l, t, m)
    ensures Owns(Apply(s, l), t, m)
    ensures forall u :: u != t ==> !Acquires(s, l, u, m)
  {
  }

  lemma AcquiringMakesOwner(s: State, l: Label, t: nat, m: nat)
    requires CoreInv(s) && Enabled(s, l) && Acquires(s, l, t, m)
    ensures Owns(Apply(s, l), t, m)
  {
  }

  lemma {:induction false} OwnsUntil(states: seq<State>, labels: seq<Label>, t: nat, m: nat, a: nat, i: nat)
    requires Execution(states, labels) && a <= i < |states| && Owns(states[a], t, m)
    requires forall j :: a <= j < i ==> !Releases(states[j], labels[j], t, m)
    ensures Owns(states[i], t, m)
    decreases i
  {
    if a == i {
    } else {
      OwnsUntil(states, labels, t, m, a, i - 1);
      StateOfRun(states, labels, i - 1);
      OwnershipStays(states[i - 1], labels[i - 1], t, m);
    }
  }

  lemma HolderOwns(states: seq<State>, labels: seq<Label>, t: nat, m: nat, a: nat, i: nat)
    requires Execution(states, labels) && HoldsSince(states, labels, t, m, a, i)
    ensures Owns(states[i], t, m)
  {
    StateOfRun(states, labels, a);
    AcquiringMakesOwner(states[a], labels[a], t, m);
    OwnsUntil(states, labels, t, m, a + 1, i);
  }

  /** At most one task is between its successful lock and its unlock. */
  lemma MutualExclusion(states: seq<State>, labels: seq<Label>, m: nat, t: nat, a: nat, u: nat, b: nat, i: nat)
    requires Execution(states, labels)
    requires HoldsSince(states, labels, t, m, a, i) && HoldsSince(states, labels, u, m, b, i)
    ensures t == u
  {
    HolderOwns(states, labels, t, m, a, i);
    HolderOwns(states, labels, u, m, b, i);
  }

  /**
   Once the ownership of `m` went to `t`, by lock or by handoff, no other task's lock succeeds
   until `t` itself has unlocked.
   */
  lemma NobodyOvertakesTheOwner(states: seq<State>, labels: seq<Label>, t: nat, m: nat, a: nat, i: nat)
    requires Execution(states, labels) && a <= i < |labels| && Owns(states[a], t, m)
    requires forall j :: a <= j <= i ==> !Releases(states[j], labels[j], t, m)
    ensures Owns(states[i + 1], t, m)
    ensures forall u :: u != t ==> !Acquires(states[i], labels[i], u, m)
  {
    OwnsUntil(states, labels, t, m, a, i);
    StateOfRun(states, labels, i);
    OwnershipStays(states[i], labels[i], t, m);
  }

  /** A mutex is locked exactly when a created application task owns it. */
  lemma LockedMeansOwned(s: State, m: nat)
    requires CoreInv(s) && m < |s.mutexes|
    ensures s.mutexes[m].locked <==> IDLE < s.mutexes[m].owner < |s.os.tasks|
  {
  }

  /** A successful unlock frees the mutex when nobody waits and else hands it to the closest waiter. */
  lemma UnlockHandsToClosest(s: State, l: Label, t: nat, m: nat)
    requires CoreInv(s) && Enabled(s, l) && Releases(s, l, t, m)
    ensures m < |Apply(s, l).mutexes|
    ensures s.mutexes[m].waiting == {} ==> !Apply(s, l).mutexes[m].locked
    ensures s.mutexes[m].waiting != {} ==>
              && Apply(s, l).mutexes[m].owner in s.mutexes[m].waiting
              && forall c :: c in s.mutexes[m].waiting ==>
                   && IDLE < c < |s.os.tasks|
                   && Distance(t, |s.os.tasks|, Apply(s, l).mutexes[m].owner) <= Distance(t, |s.os.tasks|, c)
    ensures Apply(s, l).mutexes[m].waiting == s.mutexes[m].waiting
  {
    assert MutexInv(m, s.mutexes[m], s.pcs);
    LockersAreBlocked(s, m);
    NothingIsStale(s.mutexes[m].waiting, s.os.tasks, t);
  }

  // ---------------------------------------------------------------------------
  // Not recursive
  // ---------------------------------------------------------------------------

  /** `t` owns `m` and has returned from the lock: no handoff to it is still to be consumed. */
  ghost predicate Holds(s: State, t: nat, m: nat) {
    Owns(s, t, m) && t !in s.mutexes[m].waiting
  }

  lemma HoldingStays(s: State, l: Label, t: nat, m: nat)
    requires CoreInv(s) && Enabled(s, l) && Holds(s, t, m) && !Releases(s, l, t, m)
    ensures Holds(Apply(s, l), t, m)
  {
    OwnershipStays(s, l, t, m);
    if Continues(s, l) && UsesMutex(s.pcs[s.os.current], m) {
      LockPassIsExact(s.mutexes[m], s.os);
      UnlockPassIsExact(s.mutexes[m], s.os);
    } else {
      MutexesStay(s, l, m);
    }
  }

  /** A task comes to hold a mutex in no other way than by a lock that returns OK. */
  lemma HoldingBegins(s: State, l: Label, t: nat, m: nat)
    requires CoreInv(s) && Enabled(s, l) && m < |s.mutexes| && Holds(Apply(s, l), t, m)
    ensures Acquires(s, l, t, m) || (Holds(s, t, m) && !Releases(s, l, t, m))
  {
    if Continues(s, l) && UsesMutex(s.pcs[s.os.current], m) {
      assert PcShape(s.pcs[s.os.current], |s.sems|, |s.mutexes|, s.cfg.messageSize);
      LockPassIsExact(s.mutexes[m], s.os);
      UnlockPassIsExact(s.mutexes[m], s.os);
    } else {
      MutexesStay(s, l, m);
    }
  }

  lemma HoldingStepOfRun(states: seq<State>, labels: seq<Label>, t: nat, m: nat, i: nat, next: nat)
    requires Execution(states, labels) && i < |labels| && next == i + 1 && m < |states[i].mutexes|
    ensures Holds(states[i], t, m) && !Releases(states[i], labels[i], t, m) ==> Holds(states[next], t, m)
    ensures Acquires(states[i], labels[i], t, m) ==> Holds(states[next], t, m)
    ensures Holds(states[next], t, m) ==>
      Acquires(states[i], labels[i], t, m)
      || (Holds(states[i], t, m) && !Releases(states[i], labels[i], t, m))
  {
    StateOfRun(states, labels, i);
    HoldingStep(states[i], labels[i], t, m);
  }

  lemma HoldingStep(s: State, l: Label, t: nat, m: nat)
    requires CoreInv(s) && Enabled(s, l) && m < |s.mutexes|
    ensures Holds(s, t, m) && !Releases(s, l, t, m) ==> Holds(Apply(s, l), t, m)
    ensures Acquires(s, l, t, m) ==> Holds(Apply(s, l), t, m)
    ensures Holds(Apply(s, l), t, m) ==> Acquires(s, l, t, m) || (Holds(s, t, m) && !Releases(s, l, t, m))
  {
    if Holds(s, t, m) && !Releases(s, l, t, m) {
      HoldingStays(s, l, t, m);
    }
    if Acquires(s, l, t, m) {
      AcquiringMakesOwner(s, l, t, m);
      LockPassIsExact(s.mutexes[m], s.os);
    }
    if Holds(Apply(s, l), t, m) {
      HoldingBegins(s, l, t, m);
    }
  }

  lemma {:induction false} HolderHolds(states: seq<State>, labels: seq<Label>, t: nat, m: nat, a: nat, i: nat)
    requires Execution(states, labels) && HoldsSince(states, labels, t, m, a, i)
    ensures Holds(states[i], t, m)
    decreases i
  {
    if i == a + 1 {
      HoldingStepOfRun(states, labels, t, m, a, i);
    } else {
      HolderHolds(states, labels, t, m, a, i - 1);
      HoldingStepOfRun(states, labels, t, m, i - 1, i);
    }
  }

  lemma MutexCountStays(states: seq<State>, labels: seq<Label>, i: nat, next: nat)
    requires IsRun(states, labels) && i < |labels| && next == i + 1
    ensures |states[i].mutexes| == |states[next].mutexes|
  {
    StepOfRun(states, labels, i, next);
  }

  lemma {:induction false} HoldingHasABeginning(states: seq<State>, labels: seq<Label>, t: nat, m: nat, i: nat)
    returns (a: nat)
    requires Execution(states, labels) && i < |states| && Holds(states[i], t, m)
    ensures HoldsSince(states, labels, t, m, a, i)
  {
    if i == 0 {
      assert false;
    } else {
      MutexCountStays(states, labels, i - 1, i);
      HoldingStepOfRun(states, labels, t, m, i - 1, i);
      if Acquires(states[i - 1], labels[i - 1], t, m) {
        a := i - 1;
      } else {
        a := HoldingHasABeginning(states, labels, t, m, i - 1);
      }
    }
  }

  /** The fields of a mutex say who holds it: who locked it successfully and has not unlocked it since. */
  lemma HoldsExactly(states: seq<State>, labels: seq<Label>, t: nat, m: nat, i: nat)
    requires Execution(states, labels) && i < |states|
    ensures Holds(states[i], t, m) <==> exists a :: HoldsSince(states, labels, t, m, a, i)
  {
    if Holds(states[i], t, m) {
      var a := HoldingHasABeginning(states, labels, t, m, i);
    }
    forall a | HoldsSince(states, labels, t, m, a, i) ensures Holds(states[i], t, m) {
      HolderHolds(states, labels, t, m, a, i);
    }
  }

  /** Step `i` is a pass of task `t` in the lock of `m`. */
  ghost predicate LocksAt(states: seq<State>, labels: seq<Label>, t: nat, m: nat, i: nat) {
    && i < |labels| && i < |states| && Continues(states[i], labels[i]) && states[i].os.current == t
    && InLock(states[i].pcs, t, m) && m < |states[i].mutexes|
  }

  /** Step `i` is the critical section of task `t` in the unlock of `m`. */
  ghost predicate UnlocksAt(states: seq<State>, labels: seq<Label>, t: nat, m: nat, i: nat) {
    && i < |labels| && i < |states| && Continues(states[i], labels[i]) && states[i].os.current == t
    && t < |states[i].pcs| && states[i].pcs[t].UnlockPc? && states[i].pcs[t].mutex == m
    && m < |states[i].mutexes| && t < |states[i].os.tasks|
  }

  ghost predicate NothingChanged(s: State, s': State) {
    s'.os == s.os && s'.mutexes == s.mutexes && s'.sems == s.sems
  }

  /**
   The mutex is not recursive: over whole runs a lock answers RECURSIVE_LOCK exactly to the task that
   holds the mutex, and then changes nothing; so it succeeds only for a task that does not hold it.
   */
  lemma RecursiveLockIsRefused(states: seq<State>, labels: seq<Label>, t: nat, m: nat, i: nat)
    requires Execution(states, labels) && LocksAt(states, labels, t, m, i)
    ensures var status := LockPass(states[i].mutexes[m], states[i].os).status;
      && (status == Some(MutexRecursiveLock) <==> exists a :: HoldsSince(states, labels, t, m, a, i))
      && (status == Some(MutexRecursiveLock) ==> NothingChanged(states[i], states[i + 1]))
      && (status == Some(MutexOk) ==> forall a :: !HoldsSince(states, labels, t, m, a, i))
  {
    StateOfRun(states, labels, i);
    HoldsExactly(states, labels, t, m, i);
    LockPassIsExact(states[i].mutexes[m], states[i].os);
  }

  /** Otherwise the lock succeeds, or somebody else owns the mutex: then it blocks, or fails with interrupts off. */
  lemma LockAnswersExactly(states: seq<State>, labels: seq<Label>, t: nat, m: nat, i: nat)
    requires Execution(states, labels) && LocksAt(states, labels, t, m, i)
    requires forall a :: !HoldsSince(states, labels, t, m, a, i)
    ensures var s, status := states[i], LockPass(states[i].mutexes[m], states[i].os).status;
      && (status == Some(MutexOk) <==> forall u :: u != t ==> !Owns(s, u, m))
      && (status == None <==> (exists u :: u != t && Owns(s, u, m)) && !s.os.masked)
      && (status == Some(MutexInterruptsDisabled) <==> (exists u :: u != t && Owns(s, u, m)) && s.os.masked)
      && (status == Some(MutexInterruptsDisabled) ==> NothingChanged(s, states[i + 1]))
  {
    StateOfRun(states, labels, i);
    HoldsExactly(states, labels, t, m, i);
    var s := states[i];
    LockPassIsExact(s.mutexes[m], s.os);
    assert s.mutexes[m].locked ==> Owns(s, s.mutexes[m].owner, m);
  }

  /** An unlock succeeds exactly for the task that holds the mutex; to anyone else it answers NOT_OWNER. */
  lemma UnlockIsForTheHolder(states: seq<State>, labels: seq<Label>, t: nat, m: nat, i: nat)
    requires Execution(states, labels) && UnlocksAt(states, labels, t, m, i)
    ensures var status := UnlockPass(states[i].mutexes[m], states[i].os).status;
      && (status == Some(MutexOk) <==> exists a :: HoldsSince(states, labels, t, m, a, i))
      && (status != Some(MutexOk) ==> status == Some(MutexNotOwner) && NothingChanged(states[i], states[i + 1]))
  {
    StateOfRun(states, labels, i);
    var s := states[i];
    assert MutexInv(m, s.mutexes[m], s.pcs);
    HoldsExactly(states, labels, t, m, i);
    UnlockPassIsExact(s.mutexes[m], s.os);
  }
}
