/** The books of a counting semaphore, over whole runs. */
module Ledger {
  import opened Waiters
  import opened Scheduling
  import opened Semaphore
  import opened MessageQueue
  import opened System
  import opened CoreInvariant
  import opened QueueInvariant
  import opened RunFacts

  /** A wait on `k` completes successfully. */
  ghost predicate Takes(s: State, l: Label, k: nat) {
    && Continues(s, l) && k < |s.sems|
    && s.pcs[s.os.current].WaitPc? && s.pcs[s.os.current].sem == k
    && WaitPass(s.sems[k], s.os).status == Some(SemOk)
  }

  /** A post on `k` succeeds. */
  ghost predicate Gives(s: State, l: Label, k: nat) {
    && Continues(s, l) && k < |s.sems| && s.sems[k].last < |s.os.tasks|
    && s.pcs[s.os.current].PostPc? && s.pcs[s.os.current].sem == k
    && PostPass(s.sems[k], s.os).status == Some(SemOk)
  }

  ghost function TakesBefore(states: seq<State>, labels: seq<Label>, k: nat, i: nat): nat
    requires i <= |labels| && i <= |states|
  {
    if i == 0 then 0 else TakesBefore(states, labels, k, i - 1) + One(Takes(states[i - 1], labels[i - 1], k))
  }

  ghost function GivesBefore(states: seq<State>, labels: seq<Label>, k: nat, i: nat): nat
    requires i <= |labels| && i <= |states|
  {
    if i == 0 then 0 else GivesBefore(states, labels, k, i - 1) + One(Gives(states[i - 1], labels[i - 1], k))
  }

  lemma StepBalances(s: State, l: Label, k: nat)
    requires CoreInv(s) && Enabled(s, l) && k < |s.sems|
    ensures k < |Apply(s, l).sems|
    ensures Apply(s, l).sems[k].count + |Apply(s, l).sems[k].granted| + One(Takes(s, l, k))
         == s.sems[k].count + |s.sems[k].granted| + One(Gives(s, l, k))
    ensures Apply(s, l).sems[k].maximum == s.sems[k].maximum
  {
    if Continues(s, l) && UsesSemaphore(s.pcs[s.os.current], k) {
      assert SemInv(k, s.sems[k], s.pcs);
      WaitPassUnits(s.sems[k], s.os);
      PostPassUnits(s.sems[k], s.os);
    } else {
      SemaphoresStay(s, l, k);
    }
  }

  lemma BalanceStepOfRun(states: seq<State>, labels: seq<Label>, k: nat, i: nat)
    requires Execution(states, labels) && i < |labels| && k < |states[i].sems|
    ensures k < |states[i + 1].sems|
    ensures states[i + 1].sems[k].count + |states[i + 1].sems[k].granted| + One(Takes(states[i], labels[i], k))
         == states[i].sems[k].count + |states[i].sems[k].granted| + One(Gives(states[i], labels[i], k))
    ensures states[i + 1].sems[k].maximum == states[i].sems[k].maximum
  {
    StateOfRun(states, labels, i);
    StepBalances(states[i], labels[i], k);
  }

  /** Initial units plus successful posts minus completed waits are the free and the handed-over units. */
  lemma {:induction false} LedgerBalances(states: seq<State>, labels: seq<Label>, k: nat, i: nat)
    requires Execution(states, labels) && i < |states| && k < |states[0].sems|
    ensures k < |states[i].sems|
    ensures states[0].sems[k].count + GivesBefore(states, labels, k, i) - TakesBefore(states, labels, k, i)
         == states[i].sems[k].count + |states[i].sems[k].granted|
    ensures states[i].sems[k].maximum == states[0].sems[k].maximum
  {
    if i == 0 {
    } else {
      LedgerBalances(states, labels, k, i - 1);
      BalanceStepOfRun(states, labels, k, i - 1);
    }
  }

  /** The free units never exceed the maximum the semaphore was made with. */
  lemma CountIsBounded(states: seq<State>, labels: seq<Label>, k: nat, i: nat)
    requires Execution(states, labels) && i < |states| && k < |states[0].sems|
    ensures k < |states[i].sems| && states[i].sems[k].count <= states[0].sems[k].maximum
  {
    LedgerBalances(states, labels, k, i);
    EveryStateIsGood(states, labels, i);
    assert SemInv(k, states[i].sems[k], states[i].pcs);
  }

  /** Over whole runs the masks never overlap, and while units are free nobody is made to wait. */
  lemma NobodyWaitsBesideFreeUnits(states: seq<State>, labels: seq<Label>, i: nat, k: nat)
    requires Execution(states, labels) && i < |states| && k < |states[i].sems|
    ensures states[i].sems[k].waiting !! states[i].sems[k].granted
    ensures states[i].sems[k].count > 0 ==> states[i].sems[k].waiting == {}
  {
    CoreOfRun(states, labels, i);
    assert SemInv(k, states[i].sems[k], states[i].pcs);
  }

  /**
   A newcomer cannot overtake: whenever in a run a task is marked as waiting on `k`, a wait
   succeeds only for a task to which a unit was handed over.
   */
  lemma NewcomersDoNotOvertake(states: seq<State>, labels: seq<Label>, i: nat, k: nat)
    requires Execution(states, labels) && i < |labels|
    requires Takes(states[i], labels[i], k) && states[i].sems[k].waiting != {}
    ensures states[i].os.current in states[i].sems[k].granted
  {
    NobodyWaitsBesideFreeUnits(states, labels, i, k);
  }

  /** A post reports OVERFLOW exactly when the count is at its maximum and nobody waits; then nothing changes. */
  lemma OverflowExactly(s: State, k: nat)
    requires CoreInv(s) && k < |s.sems|
    ensures PostPass(s.sems[k], s.os).status == Some(SemOverflow)
            <==> s.sems[k].count == s.sems[k].maximum && s.sems[k].waiting == {}
    ensures PostPass(s.sems[k], s.os).status == Some(SemOverflow) ==>
              PostPass(s.sems[k], s.os).sem == s.sems[k] && PostPass(s.sems[k], s.os).k == s.os
  {
    assert SemInv(k, s.sems[k], s.pcs);
    WaitersAreBlocked(s, k);
    NothingIsStale(s.sems[k].waiting, s.os.tasks, s.sems[k].last);
  }

  /**
   Free units and handed-over units together are not bounded by the maximum: a post keeps that
   bound exactly when there was room below it, or the post overflows.
   */
  lemma SumBoundExactly(q: Sem, k: Sched)
    requires Orderly(q, k) && q.count + |q.granted| <= q.maximum
    ensures PostPass(q, k).sem.count + |PostPass(q, k).sem.granted| <= q.maximum
            <==> q.count + |q.granted| < q.maximum || (q.count == q.maximum && q.waiting == {})
  {
    PostGivesOneUnit(q, k);
    NothingIsStale(q.waiting, k.tasks, q.last);
  }
}
