/**
 kernel/kernel.c and os_scheduler_start: the states from which runs begin. Every configuration
 has one, and no run ever gets stuck, so the theorems about runs speak of something.
 */
module Boot {
  import opened RoundRobin
  import opened Task
  import opened TaskMask
  import opened Scheduling
  import opened Semaphore
  import opened Mutex
  import opened MessageQueue
  import opened System
  import opened CoreInvariant
  import opened RunFacts
  import Clients = QueueClients
  import Workers = SemaphoreClients

  /** The counts `os_semaphore_init` is given. */
  datatype Counts = Counts(initial: nat, maximum: nat)

  ghost predicate IsConfig(cfg: Config, tasks: nat, users: seq<Counts>) {
    && 0 < cfg.messageSize && 0 < cfg.capacity && 0 < cfg.slice
    && 1 <= tasks <= MAX_TASKS
    && forall i :: 0 <= i < |users| ==> users[i].initial <= users[i].maximum
  }

  /** All tasks created, the scheduler initialised. */
  ghost function BeforeStart(tasks: nat): (k: Sched)
    requires 0 < tasks
    ensures k.current < |k.tasks| == tasks
  {
    Sched(seq(tasks, _ => Tcb(Ready, 0)), IDLE, true, false, 0, false, false, false, 0)
  }

  ghost function Fresh(c: Counts): Sem {
    Sem(c.initial, c.maximum, {}, {}, IDLE)
  }

  ghost function BootState(cfg: Config, tasks: nat, users: seq<Counts>, locks: nat): State
    requires IsConfig(cfg, tasks, users)
  {
    var message: Message := seq(cfg.messageSize, _ => 0);
    State(cfg, Dispatch(BeforeStart(tasks)), Inactive, {},
          [Fresh(Counts(0, cfg.capacity)), Fresh(Counts(cfg.capacity, cfg.capacity))]
          + seq(|users|, i requires 0 <= i < |users| => Fresh(users[i])),
          seq(locks + 1, _ => Mtx(false, NO_OWNER, {})),
          Ring(0, 0, seq(cfg.capacity, _ => message)),
          seq(tasks, _ => App), seq(tasks, _ => message), [], [])
  }

  /** Every configuration has an initial state. */
  lemma BootIsInit(cfg: Config, tasks: nat, users: seq<Counts>, locks: nat)
    requires IsConfig(cfg, tasks, users)
    ensures Init(BootState(cfg, tasks, users, locks))
  {
    var s, os := BootState(cfg, tasks, users, locks), BeforeStart(tasks);
    assert s.os == Dispatch(os) && os.current == IDLE;
    forall k | 0 <= k < |s.sems|
      ensures s.sems[k] == Fresh(Counts(s.sems[k].count, s.sems[k].maximum)) && s.sems[k].count <= s.sems[k].maximum
    {
      if k > SPACES {
        assert s.sems[k] == Fresh(users[k - 2]);
      }
    }
  }

  /** The producers and the consumer can start on every queue for their messages. */
  lemma ClientsCanStart(cfg: Config, tasks: nat, users: seq<Counts>, locks: nat)
    requires IsConfig(cfg, tasks, users) && tasks > Clients.CONSUMER && cfg.messageSize == Clients.MESSAGE_BYTES
    ensures Clients.ClientInit(Clients.Clients(BootState(cfg, tasks, users, locks), [0, 0, 0], [false, false, false],
                                               false, 0, Clients.Monitor(0, 0, 0, 0)))
  {
    BootIsInit(cfg, tasks, users, locks);
  }

  /** The workers can start on every semaphore. */
  lemma WorkersCanStart(cfg: Config, tasks: nat, users: seq<Counts>, locks: nat)
    requires IsConfig(cfg, tasks, users) && |users| > 0 && users[0].initial < U32
    ensures Workers.WorkerInit(Workers.Workers(BootState(cfg, tasks, users, locks), 2, users[0].initial,
                                               seq(tasks, _ => Workers.Outside), Workers.Usage(0, 0, 0, 0)))
  {
    BootIsInit(cfg, tasks, users, locks);
  }

  // ---------------------------------------------------------------------------
  // No run gets stuck
  // ---------------------------------------------------------------------------

  /** Only application tasks disable interrupts, and no switch happens while they are disabled. */
  ghost predicate MaskedByTask(s: State) {
    s.os.masked ==> s.os.current != IDLE
  }

  lemma StepKeepsMasker(s: State, l: Label)
    requires CoreInv(s) && Enabled(s, l) && MaskedByTask(s)
    ensures MaskedByTask(Apply(s, l))
  {
    if l == TaskStep(Continue) {
      ProceedKeepsFlags(s);
    }
  }

  lemma MaskerStepOfRun(states: seq<State>, labels: seq<Label>, i: nat)
    requires Execution(states, labels) && i < |labels| && MaskedByTask(states[i])
    ensures MaskedByTask(states[i + 1])
  {
    StateOfRun(states, labels, i);
    StepKeepsMasker(states[i], labels[i]);
  }

  lemma {:induction false} MaskerIsTask(states: seq<State>, labels: seq<Label>, i: nat)
    requires Execution(states, labels) && i < |states|
    ensures MaskedByTask(states[i])
  {
    if i == 0 {
    } else {
      MaskerIsTask(states, labels, i - 1);
      MaskerStepOfRun(states, labels, i - 1);
    }
  }

  /** Something can happen in every state of every run; while interrupts are off it is the current task's next step. */
  lemma NoRunGetsStuck(states: seq<State>, labels: seq<Label>, i: nat)
    requires Execution(states, labels) && i < |states|
    ensures Shape(states[i]) && exists l :: Enabled(states[i], l)
    ensures states[i].os.masked ==> exists op :: Enabled(states[i], TaskStep(op))
  {
    CoreOfRun(states, labels, i);
    MaskerIsTask(states, labels, i);
    var s := states[i];
    var l := if !s.os.started then SvcStart
             else if !s.os.masked then SysTickIrq
             else if s.pcs[s.os.current] == App then TaskStep(CallYield)
             else TaskStep(Continue);
    assert Enabled(s, l);
  }
}
