/**
 The choice of the next waiting task, which kernel/semaphore.c and kernel/mutex.c
 write out identically: a cyclic search over the waiting mask that grants only to a
 BLOCKED task and drops the stale markers it meets on the way.
 */
module Waiters {
  import opened RoundRobin
  import opened TaskMask
  import opened Task

  datatype Option<+T> = None | Some(value: T)

  /** Marked as waiting and really BLOCKED. */
  function Eligible(waiting: set<nat>, tasks: seq<Tcb>): set<nat> {
    set c | c in waiting && IDLE < c < |tasks| && tasks[c].state == Blocked
  }

  /** The waiter to serve, or IDLE when there is none. */
  function Winner(waiting: set<nat>, tasks: seq<Tcb>, base: nat): nat
    requires base < |tasks|
  {
    Next(base, |tasks|, Eligible(waiting, tasks))
  }

  /** The markers of tasks that are not BLOCKED and that the search meets before the winner. */
  function Stale(waiting: set<nat>, tasks: seq<Tcb>, base: nat): set<nat>
    requires base < |tasks|
  {
    var winner := Winner(waiting, tasks, base);
    set c | c in waiting && IDLE < c < |tasks| && tasks[c].state != Blocked
            && (winner == IDLE || Offset(base, |tasks|, c) < Offset(base, |tasks|, winner))
  }

  /** When every marker belongs to a BLOCKED application task the search only picks the closest one. */
  lemma NothingIsStale(waiting: set<nat>, tasks: seq<Tcb>, base: nat)
    requires base < |tasks|
    requires forall c :: c in waiting ==> IDLE < c < |tasks| && tasks[c].state == Blocked
    ensures Stale(waiting, tasks, base) == {}
    ensures Winner(waiting, tasks, base) == Next(base, |tasks|, waiting)
    ensures Winner(waiting, tasks, base) == IDLE <==> waiting == {}
  {
    assert Eligible(waiting, tasks) == waiting;
    if waiting != {} {
      var c :| c in waiting;
      PassingOverShortens(base, |tasks|, waiting, c);
    }
  }

  /**
   The search drops only markers of tasks that are not BLOCKED, and none of these is left that it
   has passed: after a search without result no application task is marked.
   */
  lemma SearchCleansUp(waiting: set<nat>, tasks: seq<Tcb>, base: nat, c: nat)
    requires base < |tasks| && IDLE < c < |tasks| && c in waiting
    ensures var winner, left := Winner(waiting, tasks, base), waiting - Stale(waiting, tasks, base);
      && (tasks[c].state == Blocked ==> c in left && winner != IDLE)
      && (tasks[c].state != Blocked ==>
            (c in left <==> winner != IDLE && Distance(base, |tasks|, winner) < Distance(base, |tasks|, c)))
      && (winner != IDLE ==> winner < |tasks| && winner in left && tasks[winner].state == Blocked)
  {
    var winner := Winner(waiting, tasks, base);
    if tasks[c].state == Blocked {
      assert c in Eligible(waiting, tasks);
    }
    if winner != IDLE {
      assert winner in Eligible(waiting, tasks);
      EarlierIsNearer(base, |tasks|, c, winner);
      EarlierIsNearer(base, |tasks|, winner, c);
    }
  }

  method FindNextWaitingTask(mask: bv32, base: nat, table: TaskTable) returns (winner: nat, mask': bv32)
    requires table.Valid() && table.count <= MAX_TASKS && base < table.count
    ensures winner == Winner(Members(mask), table.Tasks(), base)
    ensures Members(mask') == Members(mask) - Stale(Members(mask), table.Tasks(), base)
  {
    var taskCount := table.count;
    ghost var waiting, tasks := Members(mask), table.Tasks();
    ghost var dropped: set<nat> := {};
    mask' := mask;
    var offset := 1;
    while offset <= taskCount
      invariant 1 <= offset <= taskCount + 1
      invariant Members(mask') == waiting - dropped
      invariant forall c :: c in dropped <==>
        c in waiting && IDLE < c < taskCount && tasks[c].state != Blocked && Offset(base, taskCount, c) < offset
      invariant forall c :: c in Eligible(waiting, tasks) ==> offset <= Offset(base, taskCount, c)
    {
      var candidate := (base + offset) % taskCount;
      OffsetOfVisited(base, taskCount, offset);
      var marked := Test(mask', candidate);
      if candidate != IDLE && marked {
        assert candidate in Members(mask');
        assert table.entries[candidate] == tasks[candidate];
        if table.entries[candidate].state == Blocked {
          NextIsUnique(base, taskCount, Eligible(waiting, tasks), candidate);
          winner := candidate;
          assert dropped == Stale(waiting, tasks, base);
          return;
        }

        mask' := Without(mask', candidate);
        dropped := dropped + {candidate};
      } else if candidate != IDLE {
        assert candidate !in Members(mask');
      }
      offset := offset + 1;
    }
    assert forall c :: IDLE < c < taskCount ==> Offset(base, taskCount, c) < offset;
    NextIsUnique(base, taskCount, Eligible(waiting, tasks), IDLE);
    assert dropped == Stale(waiting, tasks, base);
    winner := IDLE;
  }
}
