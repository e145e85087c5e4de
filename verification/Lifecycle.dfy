/** The life of a task: which steps change its state, and between which states. */
module Lifecycle {
  import opened RoundRobin
  import opened Task
  import opened Scheduling
  import opened Semaphore
  import opened Mutex
  import opened MessageQueue
  import opened System
  import opened CoreInvariant
  import opened RunFacts

  /** The current task's post or unlock gives a unit or a mutex to `t`, which waited for it. */
  ghost predicate HandsOver(s: State, l: Label, t: nat)
    requires Shape(s) && Enabled(s, l)
  {
    && Continues(s, l)
    && match s.pcs[s.os.current]
       case PostPc(k, _) =>
         k < |s.sems| && k < |Apply(s, l).sems| && t in s.sems[k].waiting && t in Apply(s, l).sems[k].granted
       case UnlockPc(m, _) =>
         && m < |s.mutexes| && m < |Apply(s, l).mutexes|
         && t in s.mutexes[m].waiting && Apply(s, l).mutexes[m].locked && Apply(s, l).mutexes[m].owner == t
         && s.mutexes[m].owner == s.os.current
       case _ => false
  }

  /** The six ways in which a task can change its state, each with the step that does it. */
  ghost predicate Transition(s: State, l: Label, t: nat, before: Tcb, after: Tcb)
    requires Shape(s) && Enabled(s, l)
  {
    match (before.state, after.state)
    case (Ready, Running) => l == PendSvCode && Apply(s, l).handler == Chosen(t)
    case (Running, Ready) => l == PendSvIrq && t == s.os.current
    case (Running, Blocked) =>
      IsStepOf(s, l, t) && t < |s.pcs| && (s.pcs[t].WaitPc? || s.pcs[t].LockPc?) && after.wakeup == 0
    case (Running, Sleeping) => IsStepOf(s, l, t) && t < |s.pcs| && s.pcs[t] == SleepPc(after.wakeup)
    case (Blocked, Ready) => HandsOver(s, l, t) && t != s.os.current && after.wakeup == 0
    case (Sleeping, Ready) => l == SysTickIrq && Expired((s.os.ticks + 1) % U32, before.wakeup) && after.wakeup == 0
    case _ => false
  }

  /** The task stays as it is, or makes one of the transitions. */
  ghost predicate FollowsLifecycle(s: State, l: Label, t: nat)
    requires Shape(s) && Enabled(s, l) && t < |s.os.tasks|
  {
    && t < |Apply(s, l).os.tasks|
    && (Apply(s, l).os.tasks[t] == s.os.tasks[t] || Transition(s, l, t, s.os.tasks[t], Apply(s, l).os.tasks[t]))
  }

  lemma InterruptFollows(s: State, l: Label, t: nat)
    requires CoreInv(s) && Enabled(s, l) && IDLE < t < |s.os.tasks| && !l.TaskStep?
    ensures FollowsLifecycle(s, l, t)
  {
  }

  /** A wait, a lock or the entry into a sleep changes the state of its caller only. */
  lemma CallerFollows(s: State, l: Label, t: nat)
    requires CoreInv(s) && Enabled(s, l) && IDLE < t < |s.os.tasks| && l == TaskStep(Continue)
    requires !s.pcs[s.os.current].PostPc? && !s.pcs[s.os.current].UnlockPc?
    ensures FollowsLifecycle(s, l, t)
  {
    assert PcShape(s.pcs[s.os.current], |s.sems|, |s.mutexes|, s.cfg.messageSize);
    match s.pcs[s.os.current] {
      case WaitPc(k, _) => WaitPassIsExact(s.sems[k], s.os);
      case LockPc(m, _) => LockPassIsExact(s.mutexes[m], s.os);
      case _ =>
    }
  }

  /** The current task is at a post on `k`. */
  lemma PosterIsOrderly(s: State, k: nat)
    requires CoreInv(s) && Runs(s) && s.pcs[s.os.current].PostPc? && k < |s.sems|
    ensures Orderly(s.sems[k], s.os)
  {
    WaitersAreBlocked(s, k);
    assert SemInv(k, s.sems[k], s.pcs);
  }

  lemma PostFollows(s: State, l: Label, t: nat, k: nat, who: Caller)
    requires CoreInv(s) && Enabled(s, l) && IDLE < t < |s.os.tasks| && l == TaskStep(Continue)
    requires s.pcs[s.os.current] == PostPc(k, who)
    ensures FollowsLifecycle(s, l, t)
  {
    assert PcShape(s.pcs[s.os.current], |s.sems|, |s.mutexes|, s.cfg.messageSize);
    PosterIsOrderly(s, k);
    PostIsExact(s.sems[k], s.os);
  }

  lemma UnlockFollows(s: State, l: Label, t: nat, m: nat, who: Caller)
    requires CoreInv(s) && Enabled(s, l) && IDLE < t < |s.os.tasks| && l == TaskStep(Continue)
    requires s.pcs[s.os.current] == UnlockPc(m, who)
    ensures FollowsLifecycle(s, l, t)
  {
    assert PcShape(s.pcs[s.os.current], |s.sems|, |s.mutexes|, s.cfg.messageSize);
    UnlockPassIsExact(s.mutexes[m], s.os);
  }

  /** Every step of the kernel follows the life cycle: no other transition happens to an application task. */
  lemma LifecycleIsKept(s: State, l: Label, t: nat)
    requires CoreInv(s) && Enabled(s, l) && IDLE < t < |s.os.tasks|
    ensures FollowsLifecycle(s, l, t)
  {
    if !l.TaskStep? {
      InterruptFollows(s, l, t);
    } else if l.op != Continue {
      CallLeavesTable(s, l.op);
    } else {
      match s.pcs[s.os.current] {
        case PostPc(k, who) => PostFollows(s, l, t, k, who);
        case UnlockPc(m, who) => UnlockFollows(s, l, t, m, who);
        case _ => CallerFollows(s, l, t);
      }
    }
  }

  /** A handoff is what makes a BLOCKED task READY, at once and whoever hands over. */
  lemma HandoffWakes(s: State, l: Label, t: nat)
    requires CoreInv(s) && Enabled(s, l) && IDLE < t < |s.os.tasks| && HandsOver(s, l, t)
    ensures s.os.tasks[t].state == Blocked
    ensures t < |Apply(s, l).os.tasks| && Apply(s, l).os.tasks[t] == Tcb(Ready, 0)
  {
    match s.pcs[s.os.current] {
      case PostPc(k, _) =>
        PosterIsOrderly(s, k);
        PostIsExact(s.sems[k], s.os);
      case UnlockPc(m, _) =>
        LockersAreBlocked(s, m);
        UnlockPassIsExact(s.mutexes[m], s.os);
    }
  }

  /** Step `i` of the run hands something over to `t`. */
  ghost predicate HandsOverAt(states: seq<State>, labels: seq<Label>, t: nat, i: nat) {
    && i < |labels| && i < |states| && Shape(states[i]) && Enabled(states[i], labels[i])
    && HandsOver(states[i], labels[i], t)
  }

  lemma BlockedStepOfRun(states: seq<State>, labels: seq<Label>, t: nat, i: nat, next: nat)
    requires Execution(states, labels) && i < |labels| && next == i + 1 && IDLE < t < |states[i].os.tasks|
    requires states[i].os.tasks[t].state == Blocked
    ensures t < |states[next].os.tasks|
    ensures states[next].os.tasks[t].state == (if HandsOverAt(states, labels, t, i) then Ready else Blocked)
    ensures !IsStepOf(states[i], labels[i], t)
  {
    StateOfRun(states, labels, i);
    LifecycleIsKept(states[i], labels[i], t);
    if HandsOver(states[i], labels[i], t) {
      HandoffWakes(states[i], labels[i], t);
    }
  }

  /** A task that blocked executes nothing and stays BLOCKED until somebody hands over what it waits for. */
  lemma {:induction false} BlockedUntilHandover(states: seq<State>, labels: seq<Label>, t: nat, a: nat, b: nat)
    requires Execution(states, labels) && a <= b < |states| && IDLE < t < |states[a].os.tasks|
    requires states[a].os.tasks[t].state == Blocked
    requires forall i :: a <= i < b ==> !HandsOverAt(states, labels, t, i)
    ensures t < |states[b].os.tasks| && states[b].os.tasks[t].state == Blocked
    ensures forall i :: a <= i < b ==> !IsStepOf(states[i], labels[i], t)
    decreases b
  {
    if a == b {
    } else {
      BlockedUntilHandover(states, labels, t, a, b - 1);
      BlockedStepOfRun(states, labels, t, b - 1, b);
    }
  }
}
