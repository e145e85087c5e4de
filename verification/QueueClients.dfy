/**
 kernel/kernel.c: two producers and one consumer around one message queue, and the run-time
 check of the sequence numbers. Beside send and receive the tasks may do anything: print
 under the console mutex, sleep, yield.
 */
module QueueClients {
  import opened Waiters
  import opened Task
  import opened MessageQueue
  import opened System
  import opened CoreInvariant
  import opened QueueInvariant
  import opened RunFacts
  import opened QueueTheorems

  // ---------------------------------------------------------------------------
  // kernel_queue_message_t
  // ---------------------------------------------------------------------------

  const MESSAGE_BYTES: nat := 12
  const CONSUMER: nat := 3

  /** The little-endian 32-bit word at byte `at`. */
  function Word(m: Message, at: nat): nat
    requires at + 4 <= |m|
  {
    var b0: int, b1: int, b2: int, b3: int := m[at], m[at + 1], m[at + 2], m[at + 3];
    b0 + 0x100 * b1 + 0x1_0000 * b2 + 0x100_0000 * b3
  }

  function WordBytes(w: nat): (m: Message)
    requires w < U32
    ensures |m| == 4
  {
    [w % 0x100, w / 0x100 % 0x100, w / 0x1_0000 % 0x100, w / 0x100_0000]
  }

  function Encode(producer: nat, sequence: nat, tick: nat): (m: Message)
    requires producer < U32 && sequence < U32 && tick < U32
    ensures |m| == MESSAGE_BYTES
  {
    WordBytes(producer) + WordBytes(sequence) + WordBytes(tick)
  }

  function Producer(m: Message): nat {
    if |m| == MESSAGE_BYTES then Word(m, 0) else 0
  }

  function Sequence(m: Message): nat {
    if |m| == MESSAGE_BYTES then Word(m, 4) else 0
  }

  lemma WordRoundTrip(w: nat)
    requires w < U32
    ensures Word(WordBytes(w), 0) == w
  {
    var a, b := w / 0x100, w / 0x1_0000;
    assert w == 0x100 * a + w % 0x100;
    assert a == 0x100 * (a / 0x100) + a % 0x100;
    assert a / 0x100 == b;
    assert b == 0x100 * (b / 0x100) + b % 0x100;
    assert b / 0x100 == w / 0x100_0000;
  }

  /** The receiver decodes what the producer stored, for every identifier and number. */
  lemma MessageRoundTrip(producer: nat, sequence: nat, tick: nat)
    requires producer < U32 && sequence < U32 && tick < U32
    ensures Producer(Encode(producer, sequence, tick)) == producer
    ensures Sequence(Encode(producer, sequence, tick)) == sequence
    ensures Word(Encode(producer, sequence, tick), 8) == tick
  {
    WordRoundTrip(producer);
    WordRoundTrip(sequence);
    WordRoundTrip(tick);
    var m := Encode(producer, sequence, tick);
    assert m[4] == WordBytes(sequence)[0] && m[5] == WordBytes(sequence)[1];
    assert m[6] == WordBytes(sequence)[2] && m[7] == WordBytes(sequence)[3];
    assert m[8] == WordBytes(tick)[0] && m[9] == WordBytes(tick)[1];
    assert m[10] == WordBytes(tick)[2] && m[11] == WordBytes(tick)[3];
  }

  // ---------------------------------------------------------------------------
  // kernel_record_message_queue_receive_success
  // ---------------------------------------------------------------------------

  datatype Monitor = Monitor(received: nat, expected1: nat, expected2: nat, errors: nat)

  function Record(m: Monitor, producer: nat, sequence: nat): Monitor {
    var counted := m.(received := (m.received + 1) % U32);
    var flagged := counted.(errors := (counted.errors + 1) % U32);
    if producer == 1 then
      (if sequence != m.expected1 then flagged else counted).(expected1 := (sequence + 1) % U32)
    else if producer == 2 then
      (if sequence != m.expected2 then flagged else counted).(expected2 := (sequence + 1) % U32)
    else flagged
  }

  /** The check is not vacuous: it counts an error exactly for an unknown producer or an unexpected number. */
  lemma RecordDetects(m: Monitor, producer: nat, sequence: nat)
    requires m.errors < U32
    ensures Record(m, producer, sequence).errors == m.errors
            <==> (producer == 1 && sequence == m.expected1) || (producer == 2 && sequence == m.expected2)
  {
  }

  /** A message as the monitor sees it. */
  datatype Receipt = Receipt(producer: nat, sequence: nat)

  /** The monitor after recording all of `receipts` in order. */
  function RecordAll(receipts: seq<Receipt>): Monitor {
    if receipts == [] then Monitor(0, 0, 0, 0)
    else
      var last := receipts[|receipts| - 1];
      Record(RecordAll(receipts[..|receipts| - 1]), last.producer, last.sequence)
  }

  /** The number after that of the last message of producer `p`, or 0 before its first one. */
  function Expected(receipts: seq<Receipt>, p: nat): nat {
    if receipts == [] then 0
    else if receipts[|receipts| - 1].producer == p then Next32(receipts[|receipts| - 1].sequence)
    else Expected(receipts[..|receipts| - 1], p)
  }

  /** The message is from nobody known, or does not continue the numbers of its producer. */
  predicate OutOfStep(receipts: seq<Receipt>, last: Receipt) {
    !IsProducer(last.producer) || last.sequence != Expected(receipts, last.producer)
  }

  function ErrorsIn(receipts: seq<Receipt>): nat {
    if receipts == [] then 0
    else
      var before := receipts[..|receipts| - 1];
      ErrorsIn(before) + One(OutOfStep(before, receipts[|receipts| - 1]))
  }

  /**
   For whatever messages arrive, good or bad: the monitor counts exactly those that are out of step
   with the message before them from the same producer, so one gap is one error.
   */
  lemma {:induction false} MonitorCountsGaps(receipts: seq<Receipt>)
    ensures var m := RecordAll(receipts);
      && m.received == |receipts| % U32
      && m.errors == ErrorsIn(receipts) % U32
      && m.expected1 == Expected(receipts, 1) && m.expected2 == Expected(receipts, 2)
  {
    if receipts == [] {
    } else {
      var before := receipts[..|receipts| - 1];
      MonitorCountsGaps(before);
      SuccessorModulo(ErrorsIn(before));
      SuccessorModulo(|before|);
    }
  }

  class QueueMonitor {
    var receiveSuccessCount: nat
    var producer1ExpectedSequence: nat
    var producer2ExpectedSequence: nat
    var sequenceErrorCount: nat

    function Abs(): Monitor
      reads this
    {
      Monitor(receiveSuccessCount, producer1ExpectedSequence, producer2ExpectedSequence, sequenceErrorCount)
    }

    constructor ()
      ensures Abs() == Monitor(0, 0, 0, 0)
    {
      receiveSuccessCount, sequenceErrorCount := 0, 0;
      producer1ExpectedSequence, producer2ExpectedSequence := 0, 0;
    }

    method RecordReceiveSuccess(producer: nat, sequence: nat)
      modifies this
      ensures Abs() == Record(old(Abs()), producer, sequence)
    {
      receiveSuccessCount := (receiveSuccessCount + 1) % U32;
      if producer == 1 {
        var expected := producer1ExpectedSequence;
        if sequence != expected {
          sequenceErrorCount := (sequenceErrorCount + 1) % U32;
        }
        producer1ExpectedSequence := (sequence + 1) % U32;
      } else if producer == 2 {
        var expected := producer2ExpectedSequence;
        if sequence != expected {
          sequenceErrorCount := (sequenceErrorCount + 1) % U32;
        }
        producer2ExpectedSequence := (sequence + 1) % U32;
      } else {
        sequenceErrorCount := (sequenceErrorCount + 1) % U32;
      }
    }
  }

  // ---------------------------------------------------------------------------
  // The three tasks
  // ---------------------------------------------------------------------------

  /**
   `sequence[p]` is the local variable of producer `p`; `sent[p]` says that its last send
   returned OK and `sequence` was not yet advanced; `arrived` says that the last receive
   returned OK and was not yet recorded; `recorded` counts the recorded messages.
   */
  datatype Clients = Clients(
    sys: State,
    sequence: seq<nat>,
    sent: seq<bool>,
    arrived: bool,
    recorded: nat,
    monitor: Monitor)

  datatype ClientLabel = Kernel(step: Label) | AdvanceSequence | RecordReceipt

  predicate IsProducer(t: nat) {
    t == 1 || t == 2
  }

  ghost predicate ClientShape(c: Clients) {
    && Shape(c.sys) && c.sys.cfg.messageSize == MESSAGE_BYTES && |c.sys.pcs| > CONSUMER
    && |c.sequence| == |c.sent| == CONSUMER
  }

  /** What the loops of `kernel_run_queue_producer` and `kernel_run_queue_consumer` allow. */
  ghost predicate ClientEnabled(c: Clients, l: ClientLabel)
    requires ClientShape(c)
  {
    var t := c.sys.os.current;
    match l
    case Kernel(step) =>
      && Enabled(c.sys, step)
      && (step.TaskStep? && step.op.CallSend? ==>
            IsProducer(t) && !c.sent[t] && c.sequence[t] < U32
            && exists tick :: 0 <= tick < U32 && step.op.message == Encode(t, c.sequence[t], tick))
      && (step.TaskStep? && step.op.CallReceive? ==> t == CONSUMER && !c.arrived)
    case AdvanceSequence => Runs(c.sys) && c.sys.pcs[t] == App && IsProducer(t) && c.sent[t]
    case RecordReceipt => Runs(c.sys) && c.sys.pcs[t] == App && t == CONSUMER && c.arrived
  }

  /** This step returns OK from a send or a receive. */
  ghost predicate Succeeds(s: State, l: Label, who: Caller)
    requires Shape(s)
  {
    Continues(s, l) && Returns(s) == Some(QueueResult(who, QueueOk))
  }

  ghost function ClientApply(c: Clients, l: ClientLabel): Clients
    requires ClientShape(c) && ClientEnabled(c, l)
  {
    var t := c.sys.os.current;
    match l
    case Kernel(step) =>
      c.(sys := Apply(c.sys, step),
         sent := if Succeeds(c.sys, step, Sender) && IsProducer(t) then c.sent[t := true] else c.sent,
         arrived := c.arrived || Succeeds(c.sys, step, Receiver))
    case AdvanceSequence =>
      c.(sequence := c.sequence[t := Next32(c.sequence[t])], sent := c.sent[t := false])
    case RecordReceipt =>
      var m := c.sys.buffers[t];
      c.(arrived := false, recorded := c.recorded + 1, monitor := Record(c.monitor, Producer(m), Sequence(m)))
  }

  // ---------------------------------------------------------------------------
  // The invariant
  // ---------------------------------------------------------------------------

  /** How many messages of producer `p` a history holds. */
  function Count(history: seq<Message>, p: nat): nat {
    if history == [] then 0
    else Count(history[..|history| - 1], p) + One(Producer(history[|history| - 1]) == p)
  }

  /** Every producer's messages stand in the history in the order of its numbers. */
  ghost predicate InOrder(history: seq<Message>) {
    forall i :: 0 <= i < |history| ==> EntryInOrder(history, i)
  }

  ghost predicate EntryInOrder(history: seq<Message>, i: nat)
    requires i < |history|
  {
    && IsProducer(Producer(history[i]))
    && Sequence(history[i]) == Count(history[..i], Producer(history[i])) % U32
  }

  /** `x + 1U` */
  function Next32(x: nat): nat {
    (x + 1) % U32
  }

  /** The producer's message is in the queue, its sequence variable not yet advanced. */
  predicate Ahead(pc: Pc, sent: bool) {
    sent || pc == UnlockPc(QUEUE_MUTEX, Sender) || pc == PostPc(ITEMS, Sender)
  }

  ghost predicate ProducerInv(p: nat, pc: Pc, buffer: Message, sequence: nat, sent: bool, written: seq<Message>) {
    && sequence < U32
    && (sent ==> !InSend(pc))
    && (InSend(pc) ==> Producer(buffer) == p && Sequence(buffer) == sequence)
    && (if Ahead(pc, sent) then Next32(sequence) else sequence) == Count(written, p) % U32
  }

  predicate InReceive(pc: Pc) {
    !pc.App? && !pc.SleepPc? && pc.who == Receiver
  }

  ghost predicate ConsumerInv(pc: Pc, buffer: Message, arrived: bool, recorded: nat, read: seq<Message>) {
    && (arrived ==> !InReceive(pc))
    && recorded + One(arrived || AfterCopyOut(pc)) == |read|
    && (arrived || AfterCopyOut(pc) ==> buffer == read[recorded])
  }

  ghost predicate MonitorInv(m: Monitor, recorded: nat, written: seq<Message>) {
    && recorded <= |written|
    && m.expected1 == Count(written[..recorded], 1) % U32
    && m.expected2 == Count(written[..recorded], 2) % U32
    && m.errors == 0
    && m.received == recorded % U32
  }

  ghost predicate OnlyClientsUseQueue(pcs: seq<Pc>) {
    && (forall t :: 0 <= t < |pcs| && InSend(pcs[t]) ==> IsProducer(t))
    && (forall t :: 0 <= t < |pcs| && InReceive(pcs[t]) ==> t == CONSUMER)
  }

  /** The part of the invariant that speaks of the three tasks. */
  ghost predicate LocalInv(c: Clients) {
    && |c.sys.buffers| == |c.sys.pcs| > CONSUMER
    && |c.sequence| == |c.sent| == CONSUMER
    && OnlyClientsUseQueue(c.sys.pcs)
    && InOrder(c.sys.written)
    && (forall p :: 1 <= p < CONSUMER ==>
          ProducerInv(p, c.sys.pcs[p], c.sys.buffers[p], c.sequence[p], c.sent[p], c.sys.written))
    && ConsumerInv(c.sys.pcs[CONSUMER], c.sys.buffers[CONSUMER], c.arrived, c.recorded, c.sys.read)
    && MonitorInv(c.monitor, c.recorded, c.sys.written)
  }

  ghost predicate ClientInv(c: Clients) {
    ClientShape(c) && QueueInv(c.sys) && LocalInv(c)
  }

  // ---------------------------------------------------------------------------
  // Counting
  // ---------------------------------------------------------------------------

  lemma CountAppend(history: seq<Message>, m: Message, p: nat)
    ensures Count(history + [m], p) == Count(history, p) + One(Producer(m) == p)
  {
  }

  lemma OrderAppend(history: seq<Message>, m: Message)
    requires InOrder(history) && IsProducer(Producer(m))
    requires Sequence(m) == Count(history, Producer(m)) % U32
    ensures InOrder(history + [m])
  {
    var longer := history + [m];
    forall i | 0 <= i < |longer| ensures EntryInOrder(longer, i) {
      if i < |history| {
        assert EntryInOrder(history, i);
        assert longer[..i] == history[..i];
      } else {
        assert longer[..i] == history;
      }
    }
  }

  // ---------------------------------------------------------------------------
  // What a step of the kernel does to one task and to the histories
  // ---------------------------------------------------------------------------

  /** Task `t` goes on inside its call. */
  ghost predicate Continued(s: State, s': State, t: nat) {
    && t < |s.pcs| && t < |s'.pcs| && t < |s.buffers| && t < |s'.buffers|
    && PcShape(s.pcs[t], |s.sems|, |s.mutexes|, s.cfg.messageSize)
    && Follows(s.pcs[t], s'.pcs[t], s.cfg.messageSize)
    && s'.written == (if s.pcs[t] == CopyPc(Sender, s.cfg.messageSize) then s.written + [s.buffers[t]] else s.written)
    && s'.read == (if s.pcs[t] == CopyPc(Receiver, s.cfg.messageSize) then s.read + [s.buffers[t]] else s.read)
    && (!(s.pcs[t].CopyPc? && s.pcs[t].who == Receiver && s.pcs[t].index < s.cfg.messageSize) ==>
          s'.buffers[t] == s.buffers[t])
  }

  lemma ContinueSummary(s: State)
    requires CoreInv(s) && Runs(s) && s.pcs[s.os.current] != App
    ensures Continued(s, Proceed(s), s.os.current)
  {
  }

  /** Task `t` does not take part in this step. */
  ghost predicate SatOut(s: State, s': State, t: nat) {
    && t < |s.pcs| && t < |s'.pcs| && t < |s.buffers| && t < |s'.buffers|
    && s'.pcs[t] == s.pcs[t] && s'.buffers[t] == s.buffers[t]
  }

  // ---------------------------------------------------------------------------
  // One producer
  // ---------------------------------------------------------------------------

  /** Another producer's message does not disturb this one's numbering. */
  lemma ProducerSitsOut(p: nat, s: State, s': State, sequence: nat, sent: bool, m: Message)
    requires SatOut(s, s', p) && ProducerInv(p, s.pcs[p], s.buffers[p], sequence, sent, s.written)
    requires s'.written == s.written || (s'.written == s.written + [m] && Producer(m) != p)
    ensures ProducerInv(p, s'.pcs[p], s'.buffers[p], sequence, sent, s'.written)
  {
  }

  lemma ProducerContinues(p: nat, s: State, s': State, sequence: nat, sent: bool, sent': bool)
    requires Continued(s, s', p) && ProducerInv(p, s.pcs[p], s.buffers[p], sequence, sent, s.written)
    requires sent' == (sent || s.pcs[p] == PostPc(ITEMS, Sender))
    ensures ProducerInv(p, s'.pcs[p], s'.buffers[p], sequence, sent', s'.written)
  {
    var pc, size := s.pcs[p], s.cfg.messageSize;
    AheadAfter(pc, s'.pcs[p], sent, size);
    if pc == CopyPc(Sender, size) {
      CountAppend(s.written, s.buffers[p], p);
      SuccessorModulo(Count(s.written, p));
    }
  }

  /** The producer gets ahead with the end of its copy and stays so until `sequence++`. */
  lemma AheadAfter(pc: Pc, pc': Pc, sent: bool, size: nat)
    requires Follows(pc, pc', size) && (sent ==> !InSend(pc)) && (pc.PostPc? && pc.who == Sender ==> pc.sem <= SPACES)
    requires pc.UnlockPc? && pc.who == Sender ==> pc.mutex == QUEUE_MUTEX
    requires pc.CopyPc? ==> pc.index <= size
    ensures Ahead(pc', sent || pc == PostPc(ITEMS, Sender)) == (Ahead(pc, sent) || pc == CopyPc(Sender, size))
    ensures pc == CopyPc(Sender, size) ==> !Ahead(pc, sent)
    ensures InSend(pc') ==> InSend(pc)
  {
  }

  /** A call of send starts with the next number; other calls leave the producer where it was. */
  lemma ProducerCalls(p: nat, s: State, op: Op, sequence: nat, sent: bool)
    requires Shape(s) && OpShape(s, op) && op != Continue && s.os.current == p && s.pcs[p] == App
    requires ProducerInv(p, s.pcs[p], s.buffers[p], sequence, sent, s.written)
    requires op.CallSend? ==> !sent && exists tick :: 0 <= tick < U32 && op.message == Encode(p, sequence, tick)
    requires p < U32
    ensures p < |Call(s, op).pcs| && p < |Call(s, op).buffers|
    ensures ProducerInv(p, Call(s, op).pcs[p], Call(s, op).buffers[p], sequence, sent, Call(s, op).written)
  {
    if op.CallSend? {
      var tick :| 0 <= tick < U32 && op.message == Encode(p, sequence, tick);
      MessageRoundTrip(p, sequence, tick);
    }
  }

  // ---------------------------------------------------------------------------
  // The consumer
  // ---------------------------------------------------------------------------

  lemma ConsumerContinues(s: State, s': State, arrived: bool, arrived': bool, recorded: nat)
    requires Continued(s, s', CONSUMER)
    requires ConsumerInv(s.pcs[CONSUMER], s.buffers[CONSUMER], arrived, recorded, s.read)
    requires arrived' == (arrived || s.pcs[CONSUMER] == PostPc(SPACES, Receiver))
    ensures ConsumerInv(s'.pcs[CONSUMER], s'.buffers[CONSUMER], arrived', recorded, s'.read)
  {
  }

  lemma ConsumerCalls(s: State, op: Op, arrived: bool, recorded: nat)
    requires Shape(s) && OpShape(s, op) && op != Continue && s.os.current == CONSUMER && s.pcs[CONSUMER] == App
    requires ConsumerInv(s.pcs[CONSUMER], s.buffers[CONSUMER], arrived, recorded, s.read)
    requires op.CallReceive? ==> !arrived
    requires !op.CallSend?
    ensures CONSUMER < |Call(s, op).pcs| && CONSUMER < |Call(s, op).buffers|
    ensures ConsumerInv(Call(s, op).pcs[CONSUMER], Call(s, op).buffers[CONSUMER], arrived, recorded, Call(s, op).read)
  {
  }

  // ---------------------------------------------------------------------------
  // The record
  // ---------------------------------------------------------------------------

  /** A message recorded in its turn carries exactly the number the monitor expects. */
  lemma RecordKeepsMonitor(m: Monitor, recorded: nat, written: seq<Message>)
    requires MonitorInv(m, recorded, written) && InOrder(written) && recorded < |written|
    ensures MonitorInv(Record(m, Producer(written[recorded]), Sequence(written[recorded])), recorded + 1, written)
  {
    var message := written[recorded];
    assert EntryInOrder(written, recorded);
    assert written[..recorded + 1] == written[..recorded] + [message];
    CountAppend(written[..recorded], message, 1);
    CountAppend(written[..recorded], message, 2);
    SuccessorModulo(recorded);
    SuccessorModulo(Count(written[..recorded], Producer(message)));
  }

  lemma SuccessorModulo(x: nat)
    ensures (x % U32 + 1) % U32 == (x + 1) % U32
  {
  }

  // ---------------------------------------------------------------------------
  // Every step
  // ---------------------------------------------------------------------------

  /** The fields a step of the kernel cannot change. */
  ghost predicate SameClients(c: Clients, c': Clients) {
    && |c'.sys.pcs| == |c.sys.pcs| == |c'.sys.buffers|
    && c'.sequence == c.sequence && c'.recorded == c.recorded && c'.monitor == c.monitor
  }

  ghost predicate OthersSatOut(s: State, s': State, t: nat) {
    forall u :: 0 <= u < |s.pcs| && u != t ==> SatOut(s, s', u)
  }

  /** A step inside a call of task `t`, seen by the clients. */
  ghost predicate ContinueStep(c: Clients, c': Clients, t: nat) {
    && SameClients(c, c') && c.sys.cfg.messageSize == MESSAGE_BYTES
    && Continued(c.sys, c'.sys, t) && OthersSatOut(c.sys, c'.sys, t) && t < |c.sys.pcs|
    && (t < |c.sent| ==> c'.sent == if c.sys.pcs[t] == PostPc(ITEMS, Sender) then c.sent[t := true] else c.sent)
    && (t >= |c.sent| ==> c'.sent == c.sent)
    && c'.arrived == (c.arrived || c.sys.pcs[t] == PostPc(SPACES, Receiver))
  }

  lemma ContinueKeepsHistory(c: Clients, c': Clients, t: nat)
    requires LocalInv(c) && ContinueStep(c, c', t)
    ensures InOrder(c'.sys.written) && MonitorInv(c'.monitor, c'.recorded, c'.sys.written)
    ensures c'.sys.written == c.sys.written
            || (IsProducer(t) && Producer(c.sys.buffers[t]) == t
                && c'.sys.written == c.sys.written + [c.sys.buffers[t]])
  {
    var s, m := c.sys, c.sys.buffers[t];
    if s.pcs[t] == CopyPc(Sender, s.cfg.messageSize) {
      assert InSend(s.pcs[t]);
      assert ProducerInv(t, s.pcs[t], m, c.sequence[t], c.sent[t], s.written);
      OrderAppend(s.written, m);
    }
    assert c'.sys.written[..c.recorded] == s.written[..c.recorded];
  }

  lemma ContinueKeepsProducer(c: Clients, c': Clients, t: nat, p: nat)
    requires LocalInv(c) && ContinueStep(c, c', t) && IsProducer(p)
    ensures |c'.sent| == CONSUMER
    ensures ProducerInv(p, c'.sys.pcs[p], c'.sys.buffers[p], c'.sequence[p], c'.sent[p], c'.sys.written)
  {
    var s, s' := c.sys, c'.sys;
    ContinueKeepsHistory(c, c', t);
    assert ProducerInv(p, s.pcs[p], s.buffers[p], c.sequence[p], c.sent[p], s.written);
    if p == t {
      ProducerContinues(p, s, s', c.sequence[p], c.sent[p], c'.sent[p]);
    } else {
      assert SatOut(s, s', p);
      ProducerSitsOut(p, s, s', c.sequence[p], c.sent[p], s.buffers[t]);
    }
  }

  lemma ContinueKeepsConsumer(c: Clients, c': Clients, t: nat)
    requires LocalInv(c) && ContinueStep(c, c', t)
    ensures ConsumerInv(c'.sys.pcs[CONSUMER], c'.sys.buffers[CONSUMER], c'.arrived, c'.recorded, c'.sys.read)
  {
    if t == CONSUMER {
      ConsumerContinues(c.sys, c'.sys, c.arrived, c'.arrived, c.recorded);
    } else {
      assert SatOut(c.sys, c'.sys, CONSUMER);
      assert !InReceive(c.sys.pcs[t]);
    }
  }

  lemma ContinueKeepsRoles(c: Clients, c': Clients, t: nat)
    requires LocalInv(c) && ContinueStep(c, c', t)
    ensures OnlyClientsUseQueue(c'.sys.pcs)
  {
    forall u | 0 <= u < |c'.sys.pcs|
      ensures InSend(c'.sys.pcs[u]) ==> IsProducer(u)
      ensures InReceive(c'.sys.pcs[u]) ==> u == CONSUMER
    {
      if u != t {
        assert SatOut(c.sys, c'.sys, u);
      }
    }
  }

  lemma LocalContinue(c: Clients, c': Clients, t: nat)
    requires LocalInv(c) && ContinueStep(c, c', t)
    ensures LocalInv(c')
  {
    ContinueKeepsHistory(c, c', t);
    ContinueKeepsConsumer(c, c', t);
    ContinueKeepsRoles(c, c', t);
    ContinueKeepsProducer(c, c', t, 1);
    ContinueKeepsProducer(c, c', t, 2);
  }

  /** A call, or an interrupt: the histories stay, and a task enters a call of the queue only in its role. */
  lemma LocalOther(c: Clients, c': Clients, t: nat)
    requires LocalInv(c) && SameClients(c, c') && c'.sent == c.sent && c'.arrived == c.arrived
    requires c'.sys.written == c.sys.written && c'.sys.read == c.sys.read
    requires OthersSatOut(c.sys, c'.sys, t)
    requires t < |c.sys.pcs|
    requires 1 <= t < CONSUMER ==>
      ProducerInv(t, c'.sys.pcs[t], c'.sys.buffers[t], c.sequence[t], c.sent[t], c'.sys.written)
    requires t == CONSUMER ==>
      ConsumerInv(c'.sys.pcs[t], c'.sys.buffers[t], c.arrived, c.recorded, c'.sys.read)
    requires InSend(c'.sys.pcs[t]) ==> IsProducer(t)
    requires InReceive(c'.sys.pcs[t]) ==> t == CONSUMER
    ensures LocalInv(c')
  {
    var s, s' := c.sys, c'.sys;
    forall p | 1 <= p < CONSUMER
      ensures ProducerInv(p, s'.pcs[p], s'.buffers[p], c'.sequence[p], c'.sent[p], s'.written)
    {
      assert ProducerInv(p, s.pcs[p], s.buffers[p], c.sequence[p], c.sent[p], s.written);
      if p != t {
        assert SatOut(s, s', p);
      }
    }
    if t != CONSUMER {
      assert SatOut(s, s', CONSUMER);
    }
    forall u | 0 <= u < |s'.pcs|
      ensures InSend(s'.pcs[u]) ==> IsProducer(u)
      ensures InReceive(s'.pcs[u]) ==> u == CONSUMER
    {
      if u != t {
        assert SatOut(s, s', u);
      }
    }
  }

  lemma OthersSitOut(s: State, l: Label)
    requires Shape(s) && Enabled(s, l)
    ensures OthersSatOut(s, Apply(s, l), s.os.current)
    ensures |Apply(s, l).pcs| == |s.pcs| == |Apply(s, l).buffers|
    ensures !l.TaskStep? ==> SatOut(s, Apply(s, l), s.os.current)
  {
    StepKeepsSizes(s, l);
    forall u | 0 <= u < |s.pcs| && !IsStepOf(s, l, u) ensures SatOut(s, Apply(s, l), u) {
      OthersStay(s, l, u);
    }
  }

  lemma ContinueKeepsClients(c: Clients)
    requires ClientInv(c) && ClientEnabled(c, Kernel(TaskStep(Continue)))
    ensures LocalInv(ClientApply(c, Kernel(TaskStep(Continue))))
  {
    ContinueIsStep(c, ClientApply(c, Kernel(TaskStep(Continue))), c.sys.os.current);
    LocalContinue(c, ClientApply(c, Kernel(TaskStep(Continue))), c.sys.os.current);
  }

  lemma ContinueIsStep(c: Clients, c': Clients, t: nat)
    requires ClientInv(c) && ClientEnabled(c, Kernel(TaskStep(Continue))) && t == c.sys.os.current
    requires c' == ClientApply(c, Kernel(TaskStep(Continue)))
    ensures ContinueStep(c, c', t)
  {
    ContinueSummary(c.sys);
    OthersSitOut(c.sys, TaskStep(Continue));
    SuccessIsTheLastPost(c.sys);
    assert InSend(c.sys.pcs[t]) ==> IsProducer(t);
  }

  /** A call leaves the histories alone and returns from nothing. */
  lemma CallSummary(c: Clients, op: Op)
    requires ClientShape(c) && ClientEnabled(c, Kernel(TaskStep(op))) && op != Continue
    ensures var c' := ClientApply(c, Kernel(TaskStep(op)));
      && c'.sent == c.sent && c'.arrived == c.arrived
      && c'.sequence == c.sequence && c'.recorded == c.recorded && c'.monitor == c.monitor
      && c'.sys == Call(c.sys, op)
      && c'.sys.written == c.sys.written && c'.sys.read == c.sys.read
      && c.sys.os.current < |c'.sys.pcs|
      && (InSend(c'.sys.pcs[c.sys.os.current]) ==> IsProducer(c.sys.os.current))
      && (InReceive(c'.sys.pcs[c.sys.os.current]) ==> c.sys.os.current == CONSUMER)
  {
  }

  lemma CallKeepsRole(c: Clients, op: Op)
    requires ClientShape(c) && LocalInv(c) && ClientEnabled(c, Kernel(TaskStep(op))) && op != Continue
    ensures var t, s' := c.sys.os.current, Call(c.sys, op);
      && t < |s'.pcs| && t < |s'.buffers|
      && (1 <= t < CONSUMER ==> ProducerInv(t, s'.pcs[t], s'.buffers[t], c.sequence[t], c.sent[t], s'.written))
      && (t == CONSUMER ==> ConsumerInv(s'.pcs[t], s'.buffers[t], c.arrived, c.recorded, s'.read))
  {
    var t := c.sys.os.current;
    StepKeepsSizes(c.sys, TaskStep(op));
    if 1 <= t < CONSUMER {
      assert ProducerInv(t, c.sys.pcs[t], c.sys.buffers[t], c.sequence[t], c.sent[t], c.sys.written);
      ProducerCalls(t, c.sys, op, c.sequence[t], c.sent[t]);
    } else if t == CONSUMER {
      ConsumerCalls(c.sys, op, c.arrived, c.recorded);
    }
  }

  lemma CallKeepsClients(c: Clients, op: Op)
    requires ClientShape(c) && LocalInv(c) && ClientEnabled(c, Kernel(TaskStep(op))) && op != Continue
    ensures LocalInv(ClientApply(c, Kernel(TaskStep(op))))
  {
    OthersSitOut(c.sys, TaskStep(op));
    CallSummary(c, op);
    CallKeepsRole(c, op);
    LocalOther(c, ClientApply(c, Kernel(TaskStep(op))), c.sys.os.current);
  }

  lemma InterruptKeepsClients(c: Clients, l: Label)
    requires ClientInv(c) && ClientEnabled(c, Kernel(l)) && !l.TaskStep?
    ensures LocalInv(ClientApply(c, Kernel(l)))
  {
  }

  /** `sequence++` catches up with the message that is already counted. */
  lemma AdvanceKeepsClients(c: Clients, t: nat)
    requires LocalInv(c) && IsProducer(t) && c.sys.pcs[t] == App && c.sent[t]
    ensures LocalInv(c.(sequence := c.sequence[t := Next32(c.sequence[t])], sent := c.sent[t := false]))
  {
  }

  lemma RecordKeepsClients(c: Clients)
    requires LocalInv(c) && c.sys.pcs[CONSUMER] == App && c.arrived
    requires |c.sys.read| <= |c.sys.written| && c.sys.read == c.sys.written[..|c.sys.read|]
    ensures var m := c.sys.buffers[CONSUMER];
      LocalInv(c.(arrived := false, recorded := c.recorded + 1, monitor := Record(c.monitor, Producer(m), Sequence(m))))
  {
    assert c.sys.buffers[CONSUMER] == c.sys.read[c.recorded] == c.sys.written[c.recorded];
    RecordKeepsMonitor(c.monitor, c.recorded, c.sys.written);
  }

  lemma KernelKeepsClients(c: Clients, step: Label)
    requires ClientInv(c) && ClientEnabled(c, Kernel(step))
    ensures LocalInv(ClientApply(c, Kernel(step)))
  {
    if !step.TaskStep? {
      InterruptKeepsClients(c, step);
    } else if step.op == Continue {
      ContinueKeepsClients(c);
    } else {
      CallKeepsClients(c, step.op);
    }
  }

  lemma StepKeepsClients(c: Clients, l: ClientLabel)
    requires ClientInv(c) && ClientEnabled(c, l)
    ensures ClientInv(ClientApply(c, l))
  {
    match l {
      case AdvanceSequence => AdvanceKeepsClients(c, c.sys.os.current);
      case RecordReceipt => RecordKeepsClients(c);
      case Kernel(step) =>
        StepKeepsQueue(c.sys, step);
        StepKeepsSizes(c.sys, step);
        KernelKeepsClients(c, step);
    }
  }

  // ---------------------------------------------------------------------------
  // Every run
  // ---------------------------------------------------------------------------

  ghost predicate ClientInit(c: Clients) {
    && ClientShape(c) && Init(c.sys)
    && c.sequence == [0, 0, 0] && c.sent == [false, false, false]
    && !c.arrived && c.recorded == 0 && c.monitor == Monitor(0, 0, 0, 0)
  }

  ghost predicate ClientRun(run: seq<Clients>, labels: seq<ClientLabel>) {
    ClientSteps(run, labels) && ClientInit(run[0])
  }

  ghost predicate ClientSteps(run: seq<Clients>, labels: seq<ClientLabel>) {
    && |run| == |labels| + 1
    && forall i :: 0 <= i < |labels| ==> ClientStepAt(run, labels, i)
  }

  ghost predicate ClientStepAt(run: seq<Clients>, labels: seq<ClientLabel>, i: nat) {
    && i < |labels| && i + 1 < |run|
    && ClientShape(run[i]) && ClientEnabled(run[i], labels[i]) && run[i + 1] == ClientApply(run[i], labels[i])
  }

  lemma ClientsStartGood(c: Clients)
    requires ClientInit(c)
    ensures ClientInv(c)
  {
    InitIsGoodQueue(c.sys);
    ClientsStartLocal(c);
  }

  lemma ClientsStartLocal(c: Clients)
    requires ClientShape(c) && c.sys.written == [] && c.sys.read == []
    requires forall t :: 0 <= t < |c.sys.pcs| ==> c.sys.pcs[t] == App
    requires c.sequence == [0, 0, 0] && c.sent == [false, false, false]
    requires !c.arrived && c.recorded == 0 && c.monitor == Monitor(0, 0, 0, 0)
    ensures LocalInv(c)
  {
  }

  lemma ClientStepOfRun(run: seq<Clients>, labels: seq<ClientLabel>, i: nat, next: nat)
    requires ClientSteps(run, labels) && i < |labels| && next == i + 1 && GoodClientsAt(run, i)
    ensures GoodClientsAt(run, next)
  {
    assert ClientStepAt(run, labels, i);
    StepKeepsClients(run[i], labels[i]);
  }

  lemma FirstClientsAreGood(run: seq<Clients>, labels: seq<ClientLabel>)
    requires ClientRun(run, labels)
    ensures GoodClientsAt(run, 0)
  {
    ClientsStartGood(run[0]);
  }

  lemma {:induction false} ClientsStayGood(run: seq<Clients>, labels: seq<ClientLabel>, i: nat)
    requires ClientSteps(run, labels) && i < |run| && GoodClientsAt(run, 0)
    ensures GoodClientsAt(run, i)
  {
    if i == 0 {
    } else {
      ClientsStayGood(run, labels, i - 1);
      ClientStepOfRun(run, labels, i - 1, i);
    }
  }

  ghost predicate GoodClientsAt(run: seq<Clients>, i: nat) {
    i < |run| && ClientInv(run[i])
  }

  /**
   The sequence-error counter stays 0 for runs of any length, across the wraparound of the numbers,
   while every recorded message is counted.
   */
  lemma NoSequenceErrors(run: seq<Clients>, labels: seq<ClientLabel>, i: nat)
    requires ClientRun(run, labels) && i < |run|
    ensures run[i].monitor.errors == 0 && run[i].monitor.received == run[i].recorded % U32
  {
    FirstClientsAreGood(run, labels);
    ClientsStayGood(run, labels, i);
  }
}
