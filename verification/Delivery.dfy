/**
 A run in which a message goes through the queue, on every configuration and for every
 message: one task sends it and then receives it.
 */
module Delivery {
  import opened Waiters
  import opened Semaphore
  import opened Mutex
  import opened MessageQueue
  import opened System
  import opened RunFacts
  import opened Boot
  import opened Instances

  // ---------------------------------------------------------------------------
  // One running task and the queue
  // ---------------------------------------------------------------------------

  const FREE: Mtx := Mtx(false, NO_OWNER, {})
  const HELD: Mtx := Mtx(true, 1, {})

  /** What has passed through the queue so far, and how much of it was taken out again. */
  datatype Past = Past(written: seq<Message>, read: seq<Message>)

  /** `items` and `spaces` are the free units of the two semaphores. */
  ghost function Alone(
      cfg: Config, pc: Pc, buffer: Message, ring: Ring, items: nat, spaces: nat, m: Mtx, past: Past): State
    requires IsQueueConfig(cfg)
  {
    var boot := BootState(cfg, 2, [Counts(0, 1)], 0);
    boot.(os := Kernel([RD, RUN], 1, true, false, 0), pcs := [App, pc], buffers := boot.buffers[1 := buffer],
          ring := ring, mutexes := [m], written := past.written, read := past.read,
          sems := [Units(cfg, items), Units(cfg, spaces), DRY])
  }

  ghost function Units(cfg: Config, count: nat): Sem {
    Sem(count, cfg.capacity, {}, {}, 0)
  }

  /** A message, a buffer or a slot of the right size. */
  ghost predicate Fits(cfg: Config, m: Message) {
    IsQueueConfig(cfg) && |m| == cfg.messageSize
  }

  ghost predicate RingFits(cfg: Config, r: Ring) {
    IsQueueConfig(cfg) && |r.slots| == cfg.capacity && RingShape(r, cfg.messageSize)
  }

  /** The first `i` bytes of `m` over those of `was`. */
  function Partly(m: Message, was: Message, i: nat): (p: Message)
    requires i <= |m| == |was|
    ensures |p| == |m|
  {
    m[..i] + was[i..]
  }

  lemma PartlyGrows(m: Message, was: Message, i: nat)
    requires i < |m| == |was|
    ensures Partly(m, was, i)[i := m[i]] == Partly(m, was, i + 1)
  {
  }

  lemma PartlyEnds(m: Message, was: Message)
    requires |m| == |was|
    ensures Partly(m, was, 0) == was && Partly(m, was, |m|) == m
  {
  }

  lemma AloneStarts(cfg: Config)
    requires IsQueueConfig(cfg)
    ensures var boot := BootState(cfg, 2, [Counts(0, 1)], 0);
      && RingFits(cfg, boot.ring) && |boot.buffers| == 2 && Fits(cfg, boot.buffers[1])
      && Leads(boot, [SvcStart], Alone(cfg, App, boot.buffers[1], boot.ring, 0, cfg.capacity, FREE, Past([], [])))
  {
    FirstTaskIsChosen(2);
    var boot := BootState(cfg, 2, [Counts(0, 1)], 0);
    assert BeforeStart(2).tasks[1 := RUN] == [RD, RUN];
    assert boot.pcs == [App, App] && boot.mutexes == [FREE];
    assert boot.sems == [Units(cfg, 0), Units(cfg, cfg.capacity), DRY];
    assert boot.buffers[1 := boot.buffers[1]] == boot.buffers;
    StepLeads(boot, SvcStart, Alone(cfg, App, boot.buffers[1], boot.ring, 0, cfg.capacity, FREE, Past([], [])));
  }

  // ---------------------------------------------------------------------------
  // The critical sections of a call that meets no resistance
  // ---------------------------------------------------------------------------

  lemma CallIsStep(cfg: Config, m: Message, was: Message, r: Ring, items: nat, spaces: nat, past: Past)
    requires Fits(cfg, m) && Fits(cfg, was) && RingFits(cfg, r)
    ensures IsStep(Alone(cfg, App, was, r, items, spaces, FREE, past), TaskStep(CallSend(m)),
                   Alone(cfg, WaitPc(SPACES, Sender), m, r, items, spaces, FREE, past))
    ensures IsStep(Alone(cfg, App, was, r, items, spaces, FREE, past), TaskStep(CallReceive(m)),
                   Alone(cfg, WaitPc(ITEMS, Receiver), m, r, items, spaces, FREE, past))
  {
  }

  lemma WaitIsStep(cfg: Config, m: Message, r: Ring, items: nat, spaces: nat, past: Past)
    requires Fits(cfg, m) && RingFits(cfg, r)
    ensures spaces > 0 ==>
      IsStep(Alone(cfg, WaitPc(SPACES, Sender), m, r, items, spaces, FREE, past), TaskStep(Continue),
             Alone(cfg, LockPc(QUEUE_MUTEX, Sender), m, r, items, spaces - 1, FREE, past))
    ensures items > 0 ==>
      IsStep(Alone(cfg, WaitPc(ITEMS, Receiver), m, r, items, spaces, FREE, past), TaskStep(Continue),
             Alone(cfg, LockPc(QUEUE_MUTEX, Receiver), m, r, items - 1, spaces, FREE, past))
  {
    var nobody: set<nat> := {};
    assert nobody - {1} == {};
  }

  lemma LockIsStep(cfg: Config, who: Caller, m: Message, r: Ring, items: nat, spaces: nat, past: Past)
    requires Fits(cfg, m) && RingFits(cfg, r) && who != User
    ensures IsStep(Alone(cfg, LockPc(QUEUE_MUTEX, who), m, r, items, spaces, FREE, past), TaskStep(Continue),
                   Alone(cfg, CopyPc(who, 0), m, r, items, spaces, HELD, past))
  {
    assert FREE.waiting - {1} == {};
  }

  lemma UnlockIsStep(cfg: Config, who: Caller, m: Message, r: Ring, items: nat, spaces: nat, past: Past)
    requires Fits(cfg, m) && RingFits(cfg, r) && who != User
    ensures IsStep(Alone(cfg, UnlockPc(QUEUE_MUTEX, who), m, r, items, spaces, HELD, past), TaskStep(Continue),
                   Alone(cfg, PostPc(if who == Sender then ITEMS else SPACES, who), m, r, items, spaces, FREE, past))
  {
    var nobody: set<nat> := {};
    NothingIsStale(nobody, [RD, RUN], 1);
    assert nobody - {} == {};
  }

  lemma PostIsStep(cfg: Config, who: Caller, m: Message, r: Ring, items: nat, spaces: nat, past: Past)
    requires Fits(cfg, m) && RingFits(cfg, r) && who != User
    requires if who == Sender then items < cfg.capacity else spaces < cfg.capacity
    ensures IsStep(
      Alone(cfg, PostPc(if who == Sender then ITEMS else SPACES, who), m, r, items, spaces, FREE, past),
      TaskStep(Continue),
      Alone(cfg, App, m, r, if who == Sender then items + 1 else items, if who == Sender then spaces else spaces + 1,
            FREE, past))
  {
    var nobody: set<nat> := {};
    NothingIsStale(nobody, [RD, RUN], 0);
    assert nobody - {} == {};
  }

  // ---------------------------------------------------------------------------
  // The copies
  // ---------------------------------------------------------------------------

  /** The ring while the sender has copied `i` bytes into its slot. */
  function RingPartly(r: Ring, m: Message, i: nat): Ring
    requires r.tail < |r.slots| && i <= |m| == |r.slots[r.tail]|
  {
    r.(slots := r.slots[r.tail := Partly(m, r.slots[r.tail], i)])
  }

  lemma CopyInIsStep(cfg: Config, m: Message, r: Ring, i: nat, items: nat, spaces: nat, past: Past)
    requires Fits(cfg, m) && RingFits(cfg, r) && i < |m|
    ensures IsStep(Alone(cfg, CopyPc(Sender, i), m, RingPartly(r, m, i), items, spaces, HELD, past), TaskStep(Continue),
                   Alone(cfg, CopyPc(Sender, i + 1), m, RingPartly(r, m, i + 1), items, spaces, HELD, past))
  {
    PartlyGrows(m, r.slots[r.tail], i);
    assert WriteByte(RingPartly(r, m, i), i, m[i]) == RingPartly(r, m, i + 1);
  }

  lemma CopyOutIsStep(cfg: Config, m: Message, was: Message, r: Ring, i: nat, items: nat, spaces: nat, past: Past)
    requires Fits(cfg, m) && Fits(cfg, was) && RingFits(cfg, r) && i < |m| && r.slots[r.head] == m
    ensures IsStep(Alone(cfg, CopyPc(Receiver, i), Partly(m, was, i), r, items, spaces, HELD, past), TaskStep(Continue),
                   Alone(cfg, CopyPc(Receiver, i + 1), Partly(m, was, i + 1), r, items, spaces, HELD, past))
  {
    PartlyGrows(m, was, i);
  }

  lemma FinishIsStep(cfg: Config, m: Message, r: Ring, items: nat, spaces: nat, past: Past)
    requires Fits(cfg, m) && RingFits(cfg, r)
    ensures IsStep(Alone(cfg, CopyPc(Sender, |m|), m, r, items, spaces, HELD, past), TaskStep(Continue),
                   Alone(cfg, UnlockPc(QUEUE_MUTEX, Sender), m, r.(tail := Successor(r.tail, cfg.capacity)),
                         items, spaces, HELD, past.(written := past.written + [m])))
    ensures IsStep(Alone(cfg, CopyPc(Receiver, |m|), m, r, items, spaces, HELD, past), TaskStep(Continue),
                   Alone(cfg, UnlockPc(QUEUE_MUTEX, Receiver), m, r.(head := Successor(r.head, cfg.capacity)),
                         items, spaces, HELD, past.(read := past.read + [m])))
  {
  }

  // ---------------------------------------------------------------------------
  // Whole calls
  // ---------------------------------------------------------------------------

  ghost predicate Reaches(s: State, s': State) {
    exists labels :: Leads(s, labels, s')
  }

  lemma StepReaches(s: State, l: Label, s': State)
    requires IsStep(s, l, s')
    ensures Reaches(s, s')
  {
    StepLeads(s, l, s');
  }

  lemma ReachesOn(s: State, mid: State, last: State)
    requires Reaches(s, mid) && Reaches(mid, last)
    ensures Reaches(s, last)
  {
    var first :| Leads(s, first, mid);
    var next :| Leads(mid, next, last);
    LeadsOn(s, first, mid, next, last);
  }

  lemma ThreeReach(s0: State, l0: Label, s1: State, l1: Label, s2: State, l2: Label, s3: State)
    requires IsStep(s0, l0, s1) && IsStep(s1, l1, s2) && IsStep(s2, l2, s3)
    ensures Reaches(s0, s3)
  {
    ThreeStepsLead(s0, l0, s1, l1, s2, l2, s3);
  }

  /** Send up to its copy. */
  lemma SendEnters(cfg: Config, m: Message, was: Message, r: Ring, items: nat, spaces: nat, past: Past)
    requires Fits(cfg, m) && Fits(cfg, was) && RingFits(cfg, r) && spaces > 0
    ensures Reaches(Alone(cfg, App, was, r, items, spaces, FREE, past),
                    Alone(cfg, CopyPc(Sender, 0), m, RingPartly(r, m, 0), items, spaces - 1, HELD, past))
  {
    CallIsStep(cfg, m, was, r, items, spaces, past);
    WaitIsStep(cfg, m, r, items, spaces, past);
    LockIsStep(cfg, Sender, m, r, items, spaces - 1, past);
    PartlyEnds(m, r.slots[r.tail]);
    assert RingPartly(r, m, 0) == r;
    ThreeReach(Alone(cfg, App, was, r, items, spaces, FREE, past), TaskStep(CallSend(m)),
               Alone(cfg, WaitPc(SPACES, Sender), m, r, items, spaces, FREE, past), TaskStep(Continue),
               Alone(cfg, LockPc(QUEUE_MUTEX, Sender), m, r, items, spaces - 1, FREE, past), TaskStep(Continue),
               Alone(cfg, CopyPc(Sender, 0), m, r, items, spaces - 1, HELD, past));
  }

  lemma {:induction false} SendCopies(cfg: Config, m: Message, r: Ring, i: nat, items: nat, spaces: nat, past: Past)
    requires Fits(cfg, m) && RingFits(cfg, r) && i <= |m|
    ensures Reaches(Alone(cfg, CopyPc(Sender, 0), m, RingPartly(r, m, 0), items, spaces, HELD, past),
                    Alone(cfg, CopyPc(Sender, i), m, RingPartly(r, m, i), items, spaces, HELD, past))
  {
    var start := Alone(cfg, CopyPc(Sender, 0), m, RingPartly(r, m, 0), items, spaces, HELD, past);
    if i == 0 {
      assert Leads(start, [], start);
    } else {
      SendCopies(cfg, m, r, i - 1, items, spaces, past);
      CopyInIsStep(cfg, m, r, i - 1, items, spaces, past);
      StepReaches(Alone(cfg, CopyPc(Sender, i - 1), m, RingPartly(r, m, i - 1), items, spaces, HELD, past),
                  TaskStep(Continue), Alone(cfg, CopyPc(Sender, i), m, RingPartly(r, m, i), items, spaces, HELD, past));
      ReachesOn(start, Alone(cfg, CopyPc(Sender, i - 1), m, RingPartly(r, m, i - 1), items, spaces, HELD, past),
                Alone(cfg, CopyPc(Sender, i), m, RingPartly(r, m, i), items, spaces, HELD, past));
    }
  }

  /** Send from the end of its copy on. */
  lemma SendLeaves(cfg: Config, m: Message, r: Ring, items: nat, spaces: nat, past: Past)
    requires Fits(cfg, m) && RingFits(cfg, r) && items < cfg.capacity
    ensures Reaches(Alone(cfg, CopyPc(Sender, |m|), m, RingPartly(r, m, |m|), items, spaces, HELD, past),
                    Alone(cfg, App, m, StoreMessage(r, m), items + 1, spaces, FREE,
                          past.(written := past.written + [m])))
  {
    var copied, after := RingPartly(r, m, |m|), past.(written := past.written + [m]);
    PartlyEnds(m, r.slots[r.tail]);
    assert copied.(tail := Successor(r.tail, cfg.capacity)) == StoreMessage(r, m);
    FinishIsStep(cfg, m, copied, items, spaces, past);
    UnlockIsStep(cfg, Sender, m, StoreMessage(r, m), items, spaces, after);
    PostIsStep(cfg, Sender, m, StoreMessage(r, m), items, spaces, after);
    ThreeReach(Alone(cfg, CopyPc(Sender, |m|), m, copied, items, spaces, HELD, past), TaskStep(Continue),
               Alone(cfg, UnlockPc(QUEUE_MUTEX, Sender), m, StoreMessage(r, m), items, spaces, HELD, after),
               TaskStep(Continue),
               Alone(cfg, PostPc(ITEMS, Sender), m, StoreMessage(r, m), items, spaces, FREE, after), TaskStep(Continue),
               Alone(cfg, App, m, StoreMessage(r, m), items + 1, spaces, FREE, after));
  }

  /** A send without resistance stores its message. */
  lemma SendRuns(cfg: Config, m: Message, was: Message, r: Ring, items: nat, spaces: nat, past: Past)
    requires Fits(cfg, m) && Fits(cfg, was) && RingFits(cfg, r) && spaces > 0 && items < cfg.capacity
    ensures Reaches(Alone(cfg, App, was, r, items, spaces, FREE, past),
                    Alone(cfg, App, m, StoreMessage(r, m), items + 1, spaces - 1, FREE,
                          past.(written := past.written + [m])))
  {
    var start, end := Alone(cfg, App, was, r, items, spaces, FREE, past),
      Alone(cfg, App, m, StoreMessage(r, m), items + 1, spaces - 1, FREE, past.(written := past.written + [m]));
    var first := Alone(cfg, CopyPc(Sender, 0), m, RingPartly(r, m, 0), items, spaces - 1, HELD, past);
    var last := Alone(cfg, CopyPc(Sender, |m|), m, RingPartly(r, m, |m|), items, spaces - 1, HELD, past);
    SendEnters(cfg, m, was, r, items, spaces, past);
    SendCopies(cfg, m, r, |m|, items, spaces - 1, past);
    SendLeaves(cfg, m, r, items, spaces - 1, past);
    ReachesOn(start, first, last);
    ReachesOn(start, last, end);
  }

  lemma ReceiveEnters(cfg: Config, m: Message, was: Message, r: Ring, items: nat, spaces: nat, past: Past)
    requires Fits(cfg, m) && Fits(cfg, was) && RingFits(cfg, r) && items > 0
    ensures Reaches(Alone(cfg, App, m, r, items, spaces, FREE, past),
                    Alone(cfg, CopyPc(Receiver, 0), was, r, items - 1, spaces, HELD, past))
  {
    CallIsStep(cfg, was, m, r, items, spaces, past);
    WaitIsStep(cfg, was, r, items, spaces, past);
    LockIsStep(cfg, Receiver, was, r, items - 1, spaces, past);
    ThreeReach(Alone(cfg, App, m, r, items, spaces, FREE, past), TaskStep(CallReceive(was)),
               Alone(cfg, WaitPc(ITEMS, Receiver), was, r, items, spaces, FREE, past), TaskStep(Continue),
               Alone(cfg, LockPc(QUEUE_MUTEX, Receiver), was, r, items - 1, spaces, FREE, past), TaskStep(Continue),
               Alone(cfg, CopyPc(Receiver, 0), was, r, items - 1, spaces, HELD, past));
  }

  lemma {:induction false} ReceiveCopies(
      cfg: Config, m: Message, was: Message, r: Ring, i: nat, items: nat, spaces: nat, past: Past)
    requires Fits(cfg, m) && Fits(cfg, was) && RingFits(cfg, r) && i <= |m| && r.slots[r.head] == m
    ensures Reaches(Alone(cfg, CopyPc(Receiver, 0), was, r, items, spaces, HELD, past),
                    Alone(cfg, CopyPc(Receiver, i), Partly(m, was, i), r, items, spaces, HELD, past))
  {
    var start := Alone(cfg, CopyPc(Receiver, 0), was, r, items, spaces, HELD, past);
    PartlyEnds(m, was);
    if i == 0 {
      assert Leads(start, [], start);
    } else {
      ReceiveCopies(cfg, m, was, r, i - 1, items, spaces, past);
      CopyOutIsStep(cfg, m, was, r, i - 1, items, spaces, past);
      StepReaches(Alone(cfg, CopyPc(Receiver, i - 1), Partly(m, was, i - 1), r, items, spaces, HELD, past),
                  TaskStep(Continue), Alone(cfg, CopyPc(Receiver, i), Partly(m, was, i), r, items, spaces, HELD, past));
      ReachesOn(start, Alone(cfg, CopyPc(Receiver, i - 1), Partly(m, was, i - 1), r, items, spaces, HELD, past),
                Alone(cfg, CopyPc(Receiver, i), Partly(m, was, i), r, items, spaces, HELD, past));
    }
  }

  lemma ReceiveLeaves(cfg: Config, m: Message, r: Ring, items: nat, spaces: nat, past: Past)
    requires Fits(cfg, m) && RingFits(cfg, r) && spaces < cfg.capacity
    ensures Reaches(Alone(cfg, CopyPc(Receiver, |m|), m, r, items, spaces, HELD, past),
                    Alone(cfg, App, m, FetchMessage(r), items, spaces + 1, FREE, past.(read := past.read + [m])))
  {
    var after := past.(read := past.read + [m]);
    FinishIsStep(cfg, m, r, items, spaces, past);
    UnlockIsStep(cfg, Receiver, m, FetchMessage(r), items, spaces, after);
    PostIsStep(cfg, Receiver, m, FetchMessage(r), items, spaces, after);
    ThreeReach(Alone(cfg, CopyPc(Receiver, |m|), m, r, items, spaces, HELD, past), TaskStep(Continue),
               Alone(cfg, UnlockPc(QUEUE_MUTEX, Receiver), m, FetchMessage(r), items, spaces, HELD, after),
               TaskStep(Continue),
               Alone(cfg, PostPc(SPACES, Receiver), m, FetchMessage(r), items, spaces, FREE, after), TaskStep(Continue),
               Alone(cfg, App, m, FetchMessage(r), items, spaces + 1, FREE, after));
  }

  /** A receive without resistance fetches the message at the head. */
  lemma ReceiveRuns(cfg: Config, m: Message, was: Message, r: Ring, items: nat, spaces: nat, past: Past)
    requires Fits(cfg, m) && Fits(cfg, was) && RingFits(cfg, r) && r.slots[r.head] == m
    requires items > 0 && spaces < cfg.capacity
    ensures Reaches(Alone(cfg, App, m, r, items, spaces, FREE, past),
                    Alone(cfg, App, m, FetchMessage(r), items - 1, spaces + 1, FREE, past.(read := past.read + [m])))
  {
    var start, end := Alone(cfg, App, m, r, items, spaces, FREE, past),
      Alone(cfg, App, m, FetchMessage(r), items - 1, spaces + 1, FREE, past.(read := past.read + [m]));
    var first := Alone(cfg, CopyPc(Receiver, 0), was, r, items - 1, spaces, HELD, past);
    var last := Alone(cfg, CopyPc(Receiver, |m|), m, r, items - 1, spaces, HELD, past);
    ReceiveEnters(cfg, m, was, r, items, spaces, past);
    ReceiveCopies(cfg, m, was, r, |m|, items - 1, spaces, past);
    PartlyEnds(m, was);
    ReceiveLeaves(cfg, m, r, items - 1, spaces, past);
    ReachesOn(start, first, last);
    ReachesOn(start, last, end);
  }

  // ---------------------------------------------------------------------------
  // From boot
  // ---------------------------------------------------------------------------

  lemma ReachedByRun(cfg: Config, mid: State, last: State) returns (states: seq<State>, labels: seq<Label>)
    requires IsQueueConfig(cfg) && Reaches(BootState(cfg, 2, [Counts(0, 1)], 0), mid) && Reaches(mid, last)
    ensures Execution(states, labels) && states[|labels|] == last
  {
    var first :| Leads(BootState(cfg, 2, [Counts(0, 1)], 0), first, mid);
    var next :| Leads(mid, next, last);
    states, labels := BootLeads(cfg, 2, first, mid, next, last);
  }

  /** A run that stops in the middle of the copy of a message, after any number of its bytes. */
  lemma SenderCanBeCopying(cfg: Config, m: Message, i: nat) returns (states: seq<State>, labels: seq<Label>)
    requires Fits(cfg, m) && i <= |m|
    ensures Execution(states, labels) && |states[|labels|].pcs| == 2 && states[|labels|].pcs[1] == CopyPc(Sender, i)
  {
    var boot := BootState(cfg, 2, [Counts(0, 1)], 0);
    var none := Past([], []);
    AloneStarts(cfg);
    SendEnters(cfg, m, boot.buffers[1], boot.ring, 0, cfg.capacity, none);
    SendCopies(cfg, m, boot.ring, i, 0, cfg.capacity - 1, none);
    var start := Alone(cfg, App, boot.buffers[1], boot.ring, 0, cfg.capacity, FREE, none);
    var first := Alone(cfg, CopyPc(Sender, 0), m, RingPartly(boot.ring, m, 0), 0, cfg.capacity - 1, HELD, none);
    var last := Alone(cfg, CopyPc(Sender, i), m, RingPartly(boot.ring, m, i), 0, cfg.capacity - 1, HELD, none);
    ReachesOn(start, first, last);
    states, labels := ReachedByRun(cfg, start, last);
  }

  /** A run in which the message is sent, received, and arrives in the receiver's buffer. */
  lemma MessageGoesThrough(cfg: Config, m: Message) returns (states: seq<State>, labels: seq<Label>)
    requires Fits(cfg, m)
    ensures Execution(states, labels)
    ensures states[|labels|].written == states[|labels|].read == [m]
    ensures |states[|labels|].buffers| == 2 && states[|labels|].buffers[1] == m
  {
    var boot := BootState(cfg, 2, [Counts(0, 1)], 0);
    var none, half, all := Past([], []), Past([m], []), Past([m], [m]);
    AloneStarts(cfg);
    var start := Alone(cfg, App, boot.buffers[1], boot.ring, 0, cfg.capacity, FREE, none);
    var sent := Alone(cfg, App, m, StoreMessage(boot.ring, m), 1, cfg.capacity - 1, FREE, half);
    var received := Alone(cfg, App, m, FetchMessage(StoreMessage(boot.ring, m)), 0, cfg.capacity, FREE, all);
    SendRuns(cfg, m, boot.buffers[1], boot.ring, 0, cfg.capacity, none);
    assert none.(written := none.written + [m]) == half && half.(read := half.read + [m]) == all;
    ReceiveRuns(cfg, m, boot.buffers[1], StoreMessage(boot.ring, m), 1, cfg.capacity - 1, half);
    ReachesOn(start, sent, received);
    states, labels := ReachedByRun(cfg, start, received);
  }
}
