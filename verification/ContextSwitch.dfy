/**
 kernel/context_switch_asm.asm, kernel/context_switch.c and the stack set-up of kernel/task.c:
 how the registers of a task are put on its stack and taken back.

 Memory is an array of 32-bit words and a pointer is the index of its word, a quarter of
 the byte address. The hardware's part of an exception follows sections B1.5.6 (entry) and
 B1.5.8 (return) of the ARMv7-M Architecture Reference Manual with the basic frame.
 */
module ContextSwitch {
  import opened Task
  import opened Scheduling

  type Word = w: nat | w < U32

  /** The size of the hardware frame, and of the block R4-R11 that the handlers save. */
  const BLOCK: nat := 8

  /** `g_task_stacks`: `tasks` stacks of `size` words, the first one starting at `origin`. */
  datatype Layout = Layout(origin: nat, tasks: nat, size: nat)

  /**
   `callee` holds R4-R11; `caller` holds R0, R1, R2, R3, R12, LR, PC and xPSR. `saved` are the
   `stack_pointer` fields of the task table.
   */
  datatype Machine = Machine(
    callee: seq<Word>,
    caller: seq<Word>,
    psp: nat,
    mem: seq<Word>,
    saved: seq<nat>,
    current: nat,
    started: bool)

  /** Row `t` of the array begins where row `t - 1` ends. */
  function Base(l: Layout, t: nat): nat {
    if t == 0 then l.origin else Base(l, t - 1) + l.size
  }

  function Top(l: Layout, t: nat): nat {
    Base(l, t) + l.size
  }

  /** The stacks are real memory, not at address 0, and have room for a first frame. */
  predicate Sound(l: Layout, words: nat) {
    0 < l.origin && 2 * BLOCK < l.size && Base(l, l.tasks) <= words
  }

  lemma {:induction false} StacksAreApart(l: Layout, t: nat, u: nat)
    requires t < u
    ensures Top(l, t) <= Base(l, u)
  {
    if t + 1 < u {
      StacksAreApart(l, t, u - 1);
    }
  }

  /** `words` written to consecutive addresses from `at`. */
  function Written(mem: seq<Word>, at: nat, words: seq<Word>): (mem': seq<Word>)
    requires at + |words| <= |mem|
    ensures |mem'| == |mem|
  {
    mem[..at] + words + mem[at + |words|..]
  }

  lemma WritesJoin(mem: seq<Word>, at: nat, a: seq<Word>, b: seq<Word>)
    requires at + |a| + |b| <= |mem|
    ensures Written(Written(mem, at + |a|, b), at, a) == Written(mem, at, a + b)
  {
  }

  // ---------------------------------------------------------------------------
  // The steps of an exception
  // ---------------------------------------------------------------------------

  /** Exception entry from thread mode. */
  function PushFrame(m: Machine): Machine
    requires BLOCK <= m.psp <= |m.mem| && |m.caller| == BLOCK
  {
    m.(mem := Written(m.mem, m.psp - BLOCK, m.caller), psp := m.psp - BLOCK)
  }

  /** Exception return to thread mode. */
  function PopFrame(m: Machine): Machine
    requires m.psp + BLOCK <= |m.mem|
  {
    m.(caller := m.mem[m.psp..m.psp + BLOCK], psp := m.psp + BLOCK)
  }

  /** `task_set_stack_pointer` */
  function StoredPointer(l: Layout, saved: seq<nat>, t: nat, sp: nat): (seq<nat>, TaskStatus) {
    if t >= |saved| then (saved, TaskErrorInvalidId)
    else if sp == 0 then (saved, TaskErrorInvalidStack)
    else if sp < Base(l, t) || sp > Top(l, t) then (saved, TaskErrorInvalidStack)
    else (saved[t := sp], TaskOk)
  }

  /**
   The stored pointer is accepted exactly when it lies in the task's own stack, both ends included;
   otherwise nothing changes, and no other task's pointer ever does.
   */
  lemma StoredPointerIsExact(l: Layout, saved: seq<nat>, t: nat, sp: nat)
    ensures var (after, status) := StoredPointer(l, saved, t, sp);
      && (status == TaskOk <==> t < |saved| && sp != 0 && Base(l, t) <= sp <= Top(l, t))
      && (status == TaskErrorInvalidId <==> t >= |saved|)
      && (status != TaskOk && t < |saved| ==> status == TaskErrorInvalidStack)
      && |after| == |saved|
      && forall u :: 0 <= u < |saved| ==> after[u] == if status == TaskOk && u == t then sp else saved[u]
  {
  }

  /** PendSV_Handler up to the choice of the next task. */
  function SaveCurrent(l: Layout, m: Machine): Machine
    requires BLOCK <= m.psp <= |m.mem| && |m.callee| == BLOCK
  {
    m.(mem := Written(m.mem, m.psp - BLOCK, m.callee),
       saved := StoredPointer(l, m.saved, m.current, m.psp - BLOCK).0)
  }

  /** The common end of PendSV_Handler and SVC_Handler: load R4-R11 and PSP of task `t`. */
  function Restore(m: Machine, t: nat): Machine
    requires t < |m.saved| && m.saved[t] + BLOCK <= |m.mem|
  {
    m.(callee := m.mem[m.saved[t]..m.saved[t] + BLOCK], psp := m.saved[t] + BLOCK, current := t)
  }

  // ---------------------------------------------------------------------------
  // The context of a task
  // ---------------------------------------------------------------------------

  /** What a task can observe: its registers, its stack pointer and its stack above that. */
  datatype Context = Context(callee: seq<Word>, caller: seq<Word>, psp: nat, stack: seq<Word>)

  /** The task has its frame and its saved registers on its own stack. */
  predicate IsParked(l: Layout, saved: seq<nat>, t: nat) {
    t < |saved| && Base(l, t) <= saved[t] && saved[t] + 2 * BLOCK <= Top(l, t)
  }

  predicate Shape(l: Layout, m: Machine) {
    && Sound(l, |m.mem|)
    && |m.callee| == BLOCK && |m.caller| == BLOCK
    && |m.saved| == l.tasks && m.current < l.tasks
  }

  ghost predicate Good(l: Layout, m: Machine) {
    && Shape(l, m)
    && (m.started ==> Base(l, m.current) <= m.psp <= Top(l, m.current))
    && (forall t :: 0 <= t < l.tasks && (m.started ==> t != m.current) ==> IsParked(l, m.saved, t))
  }

  /** The context with which a parked task would resume. */
  ghost function Parked(l: Layout, m: Machine, t: nat): Context
    requires Shape(l, m) && t < l.tasks && IsParked(l, m.saved, t)
  {
    StackIsMemory(l, m, t);
    var sp := m.saved[t];
    Context(m.mem[sp..sp + BLOCK], m.mem[sp + BLOCK..sp + 2 * BLOCK], sp + 2 * BLOCK, m.mem[sp + 2 * BLOCK..Top(l, t)])
  }

  ghost function ContextOf(l: Layout, m: Machine, t: nat): Context
    requires Good(l, m) && t < l.tasks
  {
    StackIsMemory(l, m, t);
    if m.started && t == m.current then Context(m.callee, m.caller, m.psp, m.mem[m.psp..Top(l, t)])
    else Parked(l, m, t)
  }

  lemma StackIsMemory(l: Layout, m: Machine, t: nat)
    requires Shape(l, m) && t < l.tasks
    ensures Top(l, t) <= |m.mem|
  {
    StacksAreApart(l, t, l.tasks);
  }

  // ---------------------------------------------------------------------------
  // Events
  // ---------------------------------------------------------------------------

  datatype Event = FirstSvc | TaskRuns | PendSvTo(next: nat)

  ghost predicate InStack(l: Layout, t: nat, a: nat) {
    Base(l, t) <= a < Top(l, t)
  }

  /**
   Any stretch of code of the current task: it may change all its registers, its own stack,
   and memory that is in no stack; its stack pointer stays in its stack.
   */
  ghost predicate Executes(l: Layout, m: Machine, m': Machine) {
    && m.started && Shape(l, m')
    && m'.saved == m.saved && m'.current == m.current && m'.started
    && |m'.mem| == |m.mem|
    && Base(l, m.current) <= m'.psp <= Top(l, m.current)
    && (forall t: nat, a: nat :: t < l.tasks && t != m.current && InStack(l, t, a) && a < |m.mem| ==>
          m'.mem[a] == m.mem[a])
  }

  /** PendSV needs 16 free words on the stack of the task it interrupts. */
  predicate HasHeadroom(l: Layout, m: Machine) {
    Base(l, m.current) + 2 * BLOCK <= m.psp
  }

  /** PendSV, with `next` the answer of `os_schedule_next`. */
  ghost function Switch(l: Layout, m: Machine, next: nat): Machine
    requires Good(l, m) && m.started && HasHeadroom(l, m) && next < l.tasks
  {
    StackIsMemory(l, m, m.current);
    var m1 := SaveCurrent(l, PushFrame(m));
    SavingParks(l, m);
    StackIsMemory(l, m, next);
    assert IsParked(l, m1.saved, next);
    PopFrame(Restore(m1, next))
  }

  /** SVC: the first dispatch. The frame of the SVC itself goes to the main stack and is abandoned. */
  ghost function Start(l: Layout, m: Machine): Machine
    requires Good(l, m) && !m.started
  {
    StackIsMemory(l, m, m.current);
    assert IsParked(l, m.saved, m.current);
    PopFrame(Restore(m, m.current)).(started := true)
  }

  ghost predicate Step(l: Layout, m: Machine, e: Event, m': Machine) {
    && Good(l, m)
    && match e
       case FirstSvc => !m.started && m' == Start(l, m)
       case TaskRuns => Executes(l, m, m')
       case PendSvTo(next) => m.started && HasHeadroom(l, m) && next < l.tasks && m' == Switch(l, m, next)
  }

  // ---------------------------------------------------------------------------
  // Saving and restoring
  // ---------------------------------------------------------------------------

  /** Saving writes the sixteen words under the stack pointer and nothing else. */
  lemma SavingWritesSixteenWords(l: Layout, m: Machine)
    requires Good(l, m) && m.started && HasHeadroom(l, m)
    ensures m.psp <= |m.mem|
    ensures var mem := SaveCurrent(l, PushFrame(m)).mem;
      && |mem| == |m.mem|
      && mem[m.psp - 2 * BLOCK..m.psp - BLOCK] == m.callee
      && mem[m.psp - BLOCK..m.psp] == m.caller
      && forall a :: 0 <= a < |mem| && !(m.psp - 2 * BLOCK <= a < m.psp) ==> mem[a] == m.mem[a]
  {
    StackIsMemory(l, m, m.current);
    var m1 := PushFrame(m);
    assert SaveCurrent(l, m1).mem[m.psp - BLOCK..m.psp] == m1.mem[m.psp - BLOCK..m.psp];
  }

  /** The range check of `task_set_stack_pointer` accepts the pointer, so the current task is parked too. */
  lemma SavingParks(l: Layout, m: Machine)
    requires Good(l, m) && m.started && HasHeadroom(l, m)
    ensures m.psp <= |m.mem|
    ensures var m1 := SaveCurrent(l, PushFrame(m));
      && Shape(l, m1) && m1.saved == m.saved[m.current := m.psp - 2 * BLOCK]
      && forall t :: 0 <= t < l.tasks ==> IsParked(l, m1.saved, t)
  {
    SavingWritesSixteenWords(l, m);
    var m1 := SaveCurrent(l, PushFrame(m));
    forall t | 0 <= t < l.tasks ensures IsParked(l, m1.saved, t) {
      if t != m.current {
        assert IsParked(l, m.saved, t);
      }
    }
  }

  /** No stack of another task is written. */
  lemma SavingSparesOthers(l: Layout, m: Machine, t: nat, a: nat)
    requires Good(l, m) && m.started && HasHeadroom(l, m) && t < l.tasks && t != m.current && InStack(l, t, a)
    ensures a < |m.mem| && m.psp <= |m.mem|
    ensures var mem := SaveCurrent(l, PushFrame(m)).mem; a < |mem| && mem[a] == m.mem[a]
  {
    StackIsMemory(l, m, t);
    SavingWritesSixteenWords(l, m);
    if t < m.current {
      StacksAreApart(l, t, m.current);
    } else {
      StacksAreApart(l, m.current, t);
    }
  }

  /** Two machines that agree on a stack and on the saved pointer agree on the parked context. */
  lemma SameStackSameContext(l: Layout, m: Machine, m': Machine, t: nat)
    requires Shape(l, m) && Shape(l, m') && |m'.mem| == |m.mem| && t < l.tasks
    requires IsParked(l, m.saved, t) && m'.saved[t] == m.saved[t]
    requires forall a: nat :: InStack(l, t, a) && a < |m.mem| ==> m'.mem[a] == m.mem[a]
    ensures Parked(l, m', t) == Parked(l, m, t)
  {
    StackIsMemory(l, m, t);
    var sp, top := m.saved[t], Top(l, t);
    forall a | sp <= a < top ensures m'.mem[a] == m.mem[a] {
      assert InStack(l, t, a);
    }
    assert m'.mem[sp..sp + BLOCK] == m.mem[sp..sp + BLOCK];
    assert m'.mem[sp + BLOCK..sp + 2 * BLOCK] == m.mem[sp + BLOCK..sp + 2 * BLOCK];
    assert m'.mem[sp + 2 * BLOCK..top] == m.mem[sp + 2 * BLOCK..top];
  }

  /** Once the current task is saved, every task is parked with exactly its context. */
  lemma SavingKeepsContexts(l: Layout, m: Machine, t: nat)
    requires Good(l, m) && m.started && HasHeadroom(l, m) && t < l.tasks
    ensures m.psp <= |m.mem|
    ensures var m1 := SaveCurrent(l, PushFrame(m));
      Shape(l, m1) && IsParked(l, m1.saved, t) && Parked(l, m1, t) == ContextOf(l, m, t)
  {
    SavingParks(l, m);
    var m1 := SaveCurrent(l, PushFrame(m));
    if t == m.current {
      SavingWritesSixteenWords(l, m);
      StackIsMemory(l, m, t);
      assert m1.mem[m.psp..Top(l, t)] == m.mem[m.psp..Top(l, t)];
    } else {
      forall a: nat | InStack(l, t, a) && a < |m.mem| ensures m1.mem[a] == m.mem[a] {
        SavingSparesOthers(l, m, t, a);
      }
      SameStackSameContext(l, m, m1, t);
    }
  }

  /** Loading R4-R11 and then the frame gives a parked task its context and disturbs no other. */
  lemma RestoringGivesContext(l: Layout, m: Machine, next: nat, t: nat)
    requires Shape(l, m) && next < l.tasks && t < l.tasks
    requires forall u :: 0 <= u < l.tasks ==> IsParked(l, m.saved, u)
    ensures m.saved[next] + 2 * BLOCK <= |m.mem|
    ensures var m' := PopFrame(Restore(m, next)).(started := true);
      Good(l, m') && ContextOf(l, m', t) == Parked(l, m, t)
  {
    StackIsMemory(l, m, next);
    assert IsParked(l, m.saved, next);
    var m' := PopFrame(Restore(m, next)).(started := true);
    if t != next {
      SameStackSameContext(l, m, m', t);
    }
  }

  /** A switch changes nobody's context: neither of the task it stops, nor of the one it resumes, nor of any other. */
  lemma SwitchKeepsEveryContext(l: Layout, m: Machine, next: nat, t: nat)
    requires Good(l, m) && m.started && HasHeadroom(l, m) && next < l.tasks && t < l.tasks
    ensures Good(l, Switch(l, m, next)) && Switch(l, m, next).current == next
    ensures ContextOf(l, Switch(l, m, next), t) == ContextOf(l, m, t)
  {
    SavingParks(l, m);
    SavingKeepsContexts(l, m, t);
    RestoringGivesContext(l, SaveCurrent(l, PushFrame(m)), next, t);
  }

  lemma StartKeepsEveryContext(l: Layout, m: Machine, t: nat)
    requires Good(l, m) && !m.started && t < l.tasks
    ensures Good(l, Start(l, m)) && Start(l, m).current == m.current
    ensures ContextOf(l, Start(l, m), t) == ContextOf(l, m, t)
  {
    RestoringGivesContext(l, m, m.current, t);
  }

  /** A running task cannot disturb the context of another one. */
  lemma ExecutionKeepsOthers(l: Layout, m: Machine, m': Machine, t: nat)
    requires Good(l, m) && Executes(l, m, m') && t < l.tasks && t != m.current
    ensures Good(l, m') && ContextOf(l, m', t) == ContextOf(l, m, t)
  {
    SameStackSameContext(l, m, m', t);
  }

  // ---------------------------------------------------------------------------
  // Whole runs
  // ---------------------------------------------------------------------------

  ghost predicate StepAt(l: Layout, run: seq<Machine>, events: seq<Event>, i: nat) {
    i < |events| && i + 1 < |run| && Step(l, run[i], events[i], run[i + 1])
  }

  ghost predicate IsRun(l: Layout, run: seq<Machine>, events: seq<Event>) {
    && |run| == |events| + 1 && Good(l, run[0])
    && forall i :: 0 <= i < |events| ==> StepAt(l, run, events, i)
  }

  /** Task `t` executes no instruction in this step. */
  ghost predicate Rests(m: Machine, e: Event, t: nat) {
    e == TaskRuns ==> m.current != t
  }

  ghost predicate RestsBetween(run: seq<Machine>, events: seq<Event>, t: nat, i: nat, j: nat) {
    forall k :: i <= k < j && k < |events| && k < |run| ==> Rests(run[k], events[k], t)
  }

  lemma StepKeepsContext(l: Layout, m: Machine, e: Event, m': Machine, t: nat)
    requires Step(l, m, e, m') && t < l.tasks
    ensures Good(l, m')
    ensures Rests(m, e, t) ==> ContextOf(l, m', t) == ContextOf(l, m, t)
  {
    match e {
      case FirstSvc => StartKeepsEveryContext(l, m, t);
      case TaskRuns => if t != m.current { ExecutionKeepsOthers(l, m, m', t); }
      case PendSvTo(next) => SwitchKeepsEveryContext(l, m, next, t);
    }
  }

  lemma {:induction false} RunStaysGood(l: Layout, run: seq<Machine>, events: seq<Event>, i: nat)
    requires IsRun(l, run, events) && i < |run|
    ensures Good(l, run[i])
  {
    if i == 0 {
    } else {
      assert StepAt(l, run, events, i - 1);
      StepKeepsContext(l, run[i - 1], events[i - 1], run[i], 0);
    }
  }

  /** Until it executes again, nothing that happens changes a task's context. */
  lemma {:induction false} RestingKeepsContext(l: Layout, run: seq<Machine>, events: seq<Event>, t: nat, i: nat, j: nat)
    requires IsRun(l, run, events) && i <= j < |run| && t < l.tasks
    requires RestsBetween(run, events, t, i, j)
    ensures Good(l, run[i]) && Good(l, run[j]) && ContextOf(l, run[j], t) == ContextOf(l, run[i], t)
    decreases j - i
  {
    RunStaysGood(l, run, events, i);
    if i < j {
      assert StepAt(l, run, events, i);
      StepKeepsContext(l, run[i], events[i], run[i + 1], t);
      assert Rests(run[i], events[i], t);
      RestingKeepsContext(l, run, events, t, i + 1, j);
    }
  }

  /**
   Context fidelity: a task that is stopped at `i` and is current again at `j` finds R4-R11,
   the eight registers of the hardware frame, PSP and its stack as it left them, whatever
   switches and whatever execution of other tasks lie between.
   */
  lemma ResumesWhereItStopped(l: Layout, run: seq<Machine>, events: seq<Event>, t: nat, i: nat, j: nat)
    requires IsRun(l, run, events) && i <= j < |run| && t < l.tasks
    requires run[i].started && run[i].current == t && run[j].started && run[j].current == t
    requires RestsBetween(run, events, t, i, j)
    ensures run[j].callee == run[i].callee && run[j].caller == run[i].caller && run[j].psp == run[i].psp
    ensures run[j].psp <= Top(l, t) <= |run[j].mem| && Top(l, t) <= |run[i].mem|
    ensures run[j].mem[run[j].psp..Top(l, t)] == run[i].mem[run[i].psp..Top(l, t)]
  {
    RestingKeepsContext(l, run, events, t, i, j);
    StackIsMemory(l, run[i], t);
    StackIsMemory(l, run[j], t);
  }

  /** The range check catches an overflow of the saved context exactly when the headroom is missing. */
  lemma HeadroomIsExact(l: Layout, m: Machine)
    requires Shape(l, m) && Base(l, m.current) <= m.psp <= Top(l, m.current) && 2 * BLOCK <= m.psp
    ensures StoredPointer(l, m.saved, m.current, m.psp - 2 * BLOCK).1 == TaskOk <==> HasHeadroom(l, m)
  {
  }

  lemma {:induction false} BaseIsNotNull(l: Layout, t: nat)
    ensures l.origin <= Base(l, t)
  {
    if t == 0 {
    } else {
      BaseIsNotNull(l, t - 1);
    }
  }

  // ---------------------------------------------------------------------------
  // The first dispatch
  // ---------------------------------------------------------------------------

  /** What `task_create` was given for a task. */
  datatype Entry = Entry(pc: Word, argument: Word)

  /** The stack top rounded down to 8 bytes, which are two words. */
  function AlignedTop(l: Layout, t: nat): nat {
    Top(l, t) / 2 * 2
  }

  function InitialCallee(): seq<Word> {
    [0x0404_0404, 0x0505_0505, 0x0606_0606, 0x0707_0707, 0x0808_0808, 0x0909_0909, 0x1010_1010, 0x1111_1111]
  }

  /** `trap` is the address of `task_exit_trap`. */
  function InitialCaller(entry: Entry, trap: Word): seq<Word> {
    [entry.argument, 0x0101_0101, 0x0202_0202, 0x0303_0303, 0x1212_1212, trap, entry.pc, 0x0100_0000]
  }

  /**
   In a hardware frame R0 comes first, and LR, PC and xPSR last: the argument, the exit trap, the entry
   point and the Thumb bit stand there. The other registers hold patterns that tell them apart.
   */
  lemma FirstFrameRegisters(entry: Entry, trap: Word)
    ensures |InitialCaller(entry, trap)| == BLOCK && |InitialCallee()| == BLOCK
    ensures var frame := InitialCaller(entry, trap);
      frame[0] == entry.argument && frame[5] == trap && frame[6] == entry.pc && frame[7] == 0x0100_0000
    ensures InitialCaller(entry, trap)[1..5] == [0x0101_0101, 0x0202_0202, 0x0303_0303, 0x1212_1212]
    ensures InitialCallee()[..4] == [0x0404_0404, 0x0505_0505, 0x0606_0606, 0x0707_0707]
    ensures InitialCallee()[4..] == [0x0808_0808, 0x0909_0909, 0x1010_1010, 0x1111_1111]
  {
  }

  /** The task is parked as `task_create` leaves it. */
  ghost predicate IsFresh(l: Layout, m: Machine, t: nat, entry: Entry, trap: Word) {
    && Shape(l, m) && t < l.tasks
    && m.saved[t] == AlignedTop(l, t) - 2 * BLOCK
    && IsParked(l, m.saved, t)
    && Parked(l, m, t).callee == InitialCallee()
    && Parked(l, m, t).caller == InitialCaller(entry, trap)
  }

  /** `task_prepare_initial_stack` and the store of its result in the task table. */
  ghost function Prepare(l: Layout, m: Machine, t: nat, entry: Entry, trap: Word): Machine
    requires Shape(l, m) && t < l.tasks
  {
    StackIsMemory(l, m, t);
    var sp := AlignedTop(l, t) - 2 * BLOCK;
    m.(mem := Written(m.mem, sp, InitialCallee() + InitialCaller(entry, trap)), saved := m.saved[t := sp])
  }

  /** Preparing a stack writes the first context at the aligned top: the last four words say where the task starts. */
  lemma PrepareIsFresh(l: Layout, m: Machine, t: nat, entry: Entry, trap: Word)
    requires Shape(l, m) && t < l.tasks
    ensures IsFresh(l, Prepare(l, m, t, entry, trap), t, entry, trap)
    ensures var m', top := Prepare(l, m, t, entry, trap), AlignedTop(l, t);
      && 2 * BLOCK <= top <= |m'.mem| && m'.saved[t] == top - 2 * BLOCK
      && m'.mem[top - 8] == entry.argument
      && m'.mem[top - 3] == trap && m'.mem[top - 2] == entry.pc && m'.mem[top - 1] == 0x0100_0000
  {
    StackIsMemory(l, m, t);
    var m', sp := Prepare(l, m, t, entry, trap), AlignedTop(l, t) - 2 * BLOCK;
    assert m'.mem[sp..sp + BLOCK] == InitialCallee();
    assert m'.mem[sp + BLOCK..sp + 2 * BLOCK] == InitialCaller(entry, trap);
  }

  /** Creating a task leaves the tasks created before it as they were. */
  lemma PrepareSparesOthers(l: Layout, m: Machine, t: nat, entry: Entry, trap: Word, u: nat, other: Entry)
    requires Shape(l, m) && t < l.tasks && u != t && IsFresh(l, m, u, other, trap)
    ensures IsFresh(l, Prepare(l, m, t, entry, trap), u, other, trap)
  {
    var m' := Prepare(l, m, t, entry, trap);
    StackIsMemory(l, m, t);
    if t < u {
      StacksAreApart(l, t, u);
    } else {
      StacksAreApart(l, u, t);
    }
    SameStackSameContext(l, m, m', u);
  }

  /** The table after `task_create` for the first `k` entries, in order. */
  ghost function Created(l: Layout, m: Machine, entries: seq<Entry>, trap: Word, k: nat): (m': Machine)
    requires Shape(l, m) && k <= |entries| == l.tasks
    ensures Shape(l, m') && m'.started == m.started && m'.current == m.current
  {
    if k == 0 then m
    else
      StackIsMemory(l, m, k - 1);
      Prepare(l, Created(l, m, entries, trap, k - 1), k - 1, entries[k - 1], trap)
  }

  lemma {:induction false} CreatedTasksAreFresh(l: Layout, m: Machine, entries: seq<Entry>, trap: Word, k: nat, t: nat)
    requires Shape(l, m) && t < k <= |entries| == l.tasks
    ensures IsFresh(l, Created(l, m, entries, trap, k), t, entries[t], trap)
  {
    var before := Created(l, m, entries, trap, k - 1);
    if t == k - 1 {
      PrepareIsFresh(l, before, t, entries[t], trap);
    } else {
      CreatedTasksAreFresh(l, m, entries, trap, k - 1, t);
      PrepareSparesOthers(l, before, k - 1, entries[k - 1], trap, t, entries[t]);
    }
  }

  /** With all tasks created and nothing started, the machine is ready for its first dispatch. */
  lemma CreationIsGood(l: Layout, m: Machine, entries: seq<Entry>, trap: Word)
    requires Shape(l, m) && !m.started && |entries| == l.tasks
    ensures Good(l, Created(l, m, entries, trap, l.tasks))
  {
    forall t | 0 <= t < l.tasks ensures IsParked(l, Created(l, m, entries, trap, l.tasks).saved, t) {
      CreatedTasksAreFresh(l, m, entries, trap, l.tasks, t);
    }
  }

  /** A byte address divisible by 8, at most one word below the top. */
  lemma AlignedTopIsAligned(l: Layout, t: nat)
    ensures 4 * AlignedTop(l, t) % 8 == 0 && Top(l, t) - 1 <= AlignedTop(l, t) <= Top(l, t)
  {
  }

  lemma FreshContext(l: Layout, m: Machine, t: nat, entry: Entry, trap: Word)
    requires Good(l, m) && !m.started && IsFresh(l, m, t, entry, trap)
    ensures ContextOf(l, m, t).caller == InitialCaller(entry, trap) && ContextOf(l, m, t).callee == InitialCallee()
    ensures ContextOf(l, m, t).psp == AlignedTop(l, t)
  {
  }

  lemma FreshTaskStartsAtEntry(
      l: Layout, entry: Entry, trap: Word, run: seq<Machine>, events: seq<Event>, t: nat, j: nat)
    requires IsRun(l, run, events) && j < |run| && t < l.tasks
    requires !run[0].started && IsFresh(l, run[0], t, entry, trap)
    requires run[j].started && run[j].current == t && RestsBetween(run, events, t, 0, j)
    ensures run[j].caller == InitialCaller(entry, trap) && run[j].callee == InitialCallee()
    ensures run[j].psp == AlignedTop(l, t)
  {
    RestingKeepsContext(l, run, events, t, 0, j);
    FreshContext(l, run[0], t, entry, trap);
  }

  /**
   First dispatch: whenever a task that has not executed yet becomes current, be it through SVC
   or through PendSV, it starts at its entry point with its argument in R0, the exit trap in
   LR, the Thumb bit set and PSP at the 8-byte aligned top of its stack.
   */
  lemma FirstDispatchStartsAtEntry(
      l: Layout, m: Machine, entries: seq<Entry>, trap: Word, run: seq<Machine>, events: seq<Event>, t: nat, j: nat)
    requires Shape(l, m) && !m.started && |entries| == l.tasks
    requires |run| > 0 && run[0] == Created(l, m, entries, trap, l.tasks)
    requires IsRun(l, run, events) && j < |run| && t < l.tasks
    requires run[j].started && run[j].current == t && RestsBetween(run, events, t, 0, j)
    ensures |run[j].caller| == BLOCK && |run[j].callee| == BLOCK
    ensures run[j].caller[6] == entries[t].pc && run[j].caller[0] == entries[t].argument
    ensures run[j].caller[5] == trap && run[j].caller[7] == 0x0100_0000
    ensures run[j].caller == InitialCaller(entries[t], trap) && run[j].callee == InitialCallee()
    ensures run[j].psp == AlignedTop(l, t)
  {
    CreatedTasksAreFresh(l, m, entries, trap, l.tasks, t);
    FreshTaskStartsAtEntry(l, entries[t], trap, run, events, t, j);
    FirstFrameRegisters(entries[t], trap);
  }

  lemma SwitchInTwoHalves(l: Layout, m: Machine, m2: Machine, next: nat)
    requires Good(l, m) && m.started && HasHeadroom(l, m) && next < l.tasks
    requires m.psp <= |m.mem| && m2 == SaveCurrent(l, PushFrame(m)).(current := next)
    ensures next < |m2.saved| && m2.saved[next] + 2 * BLOCK <= |m2.mem|
    ensures PopFrame(Restore(m2, next)) == Switch(l, m, next)
  {
    SavingParks(l, m);
    assert IsParked(l, m2.saved, next);
    StackIsMemory(l, m, next);
  }

  lemma DispatchIgnoresPending(k: Sched)
    requires k.current < |k.tasks|
    ensures Dispatch(k.(pending := false)) == Dispatch(k).(pending := false)
  {
  }

  // ---------------------------------------------------------------------------
  // The handlers themselves, over registers and memory updated in place
  // ---------------------------------------------------------------------------

  class Processor {
    const layout: Layout
    const mem: array<Word>
    /** The `stack_pointer` fields of the task table. */
    const saved: array<nat>
    const sched: Scheduler
    var callee: seq<Word>
    var caller: seq<Word>
    var psp: nat

    ghost predicate Valid()
      reads this, sched, sched.table
    {
      && sched.Valid()
      && sched.table.count == saved.Length == layout.tasks
      && |callee| == |caller| == BLOCK
      && Sound(layout, mem.Length)
    }

    ghost function Abs(): (m: Machine)
      requires Valid()
      reads this, mem, saved, sched, sched.table
      ensures Shape(layout, m)
    {
      Machine(callee, caller, psp, mem[..], saved[..], sched.current, sched.started)
    }

    /** The processor at reset, over its memory and a table of `layout.tasks` tasks. */
    constructor (layout: Layout, mem: array<Word>, saved: array<nat>, sched: Scheduler)
      requires sched.Valid() && sched.table.count == saved.Length == layout.tasks && Sound(layout, mem.Length)
      ensures Valid() && this.layout == layout && this.mem == mem && this.saved == saved && this.sched == sched
      ensures psp == 0
    {
      this.layout, this.mem, this.saved, this.sched := layout, mem, saved, sched;
      callee, caller := seq(BLOCK, _ => 0), seq(BLOCK, _ => 0);
      psp := 0;
    }

    /** A descending store: STMDB, the hardware's push, and the pushes of `task_prepare_initial_stack`. */
    method StoreDescending(top: nat, words: seq<Word>) returns (sp: nat)
      requires |words| <= top <= mem.Length
      modifies mem
      ensures sp == top - |words| && mem[..] == Written(old(mem[..]), sp, words)
    {
      sp := top;
      var i := |words|;
      while i > 0
        invariant 0 <= i <= |words| && sp == top - |words| + i
        invariant mem[sp..top] == words[i..]
        invariant mem[..sp] == old(mem[..sp]) && mem[top..] == old(mem[top..])
      {
        i, sp := i - 1, sp - 1;
        mem[sp] := words[i];
        assert mem[sp..top] == [mem[sp]] + mem[sp + 1..top];
        assert words[i..] == [words[i]] + words[i + 1..];
      }
    }

    /** `task_set_stack_pointer` */
    method SetStackPointer(t: nat, sp: nat) returns (status: TaskStatus)
      requires saved.Length == layout.tasks
      modifies saved
      ensures (saved[..], status) == StoredPointer(layout, old(saved[..]), t, sp)
    {
      if t >= saved.Length {
        return TaskErrorInvalidId;
      }
      if sp == 0 {
        return TaskErrorInvalidStack;
      }
      if sp < Base(layout, t) || sp > Top(layout, t) {
        return TaskErrorInvalidStack;
      }
      saved[t] := sp;
      status := TaskOk;
    }

    /** Exception entry */
    method EnterException()
      requires Valid() && 2 * BLOCK < psp <= mem.Length
      modifies mem, `psp
      ensures Valid() && psp == old(psp) - BLOCK && Abs() == PushFrame(old(Abs()))
    {
      psp := StoreDescending(psp, caller);
    }

    /** PendSV_Handler up to the choice of the next task; with PSP still 0 there is nothing to save. */
    method SaveRegisters()
      requires Valid() && (psp == 0 || BLOCK <= psp <= mem.Length)
      modifies mem, saved
      ensures Valid() && Abs() == if psp == 0 then old(Abs()) else SaveCurrent(layout, old(Abs()))
    {
      var r0 := psp;
      if r0 != 0 {
        r0 := StoreDescending(r0, callee);
        var _ := SetStackPointer(sched.current, r0);
      }
    }

    /** The end of both handlers: load the context of the current task; `fault` is their endless fault loop. */
    method Resume() returns (fault: bool)
      requires Valid() && (saved[sched.current] == 0 || IsParked(layout, saved[..], sched.current))
      modifies `callee, `caller, `psp
      ensures Valid() && fault == (saved[sched.current] == 0)
      ensures fault ==> Abs() == old(Abs())
      ensures !fault ==>
        saved[sched.current] + 2 * BLOCK <= mem.Length && Abs() == PopFrame(Restore(old(Abs()), sched.current))
    {
      var r0 := saved[sched.current];
      if r0 == 0 {
        return true;
      }
      StackIsMemory(layout, Abs(), sched.current);
      callee := mem[r0..r0 + BLOCK];
      psp := r0 + BLOCK;
      caller := mem[psp..psp + BLOCK];
      psp := psp + BLOCK;
      fault := false;
    }

    /** PendSV_Handler */
    method PendSv() returns (fault: bool)
      requires Valid() && Good(layout, Abs()) && sched.started && HasHeadroom(layout, Abs())
      requires sched.table.Tasks()[0].state != Unused
      modifies mem, saved, `callee, `caller, `psp, sched`current, sched`pending, sched.table.entries
      ensures !fault && Valid()
      ensures Abs() == Switch(layout, old(Abs()), Dispatch(old(sched.Abs())).current)
      ensures sched.Abs() == Dispatch(old(sched.Abs())).(pending := false)
    {
      ghost var m := Abs();
      SaveAndChoose();
      BaseIsNotNull(layout, sched.current);
      ghost var m2 := Abs();
      fault := Resume();
      SwitchInTwoHalves(layout, m, m2, sched.current);
    }

    /** Exception entry and PendSV_Handler up to the answer of `os_schedule_next`. */
    method SaveAndChoose()
      requires Valid() && Good(layout, Abs()) && sched.started && HasHeadroom(layout, Abs())
      requires sched.table.Tasks()[0].state != Unused
      modifies mem, saved, `psp, sched`current, sched`pending, sched.table.entries
      ensures Valid() && old(psp) <= mem.Length && BLOCK <= old(psp) - BLOCK
      ensures Abs() == SaveCurrent(layout, PushFrame(old(Abs()))).(current := sched.current)
      ensures sched.Abs() == Dispatch(old(sched.Abs())).(pending := false)
      ensures IsParked(layout, saved[..], sched.current)
    {
      ghost var k := sched.Abs();
      sched.pending := false;
      SaveInterrupted();
      ghost var m1 := Abs();
      var next := sched.ScheduleNext();
      DispatchIgnoresPending(k);
      assert IsParked(layout, m1.saved, next);
    }

    /** Exception entry and the saving half of PendSV_Handler. */
    method SaveInterrupted()
      requires Valid() && Good(layout, Abs()) && sched.started && HasHeadroom(layout, Abs())
      modifies mem, saved, `psp
      ensures Valid() && old(psp) <= mem.Length && BLOCK <= old(psp) - BLOCK
      ensures Abs() == SaveCurrent(layout, PushFrame(old(Abs())))
      ensures forall t :: 0 <= t < layout.tasks ==> IsParked(layout, Abs().saved, t)
    {
      SavingParks(layout, Abs());
      BaseIsNotNull(layout, sched.current);
      EnterException();
      SaveRegisters();
    }

    /** SVC_Handler */
    method SvcHandler() returns (fault: bool)
      requires Valid() && Good(layout, Abs()) && !sched.started
      modifies `callee, `caller, `psp, sched`started
      ensures !fault && Valid()
      ensures Abs() == Start(layout, old(Abs()))
    {
      assert IsParked(layout, Abs().saved, sched.current);
      BaseIsNotNull(layout, sched.current);
      fault := Resume();
      sched.started := true;
    }

    /** `task_prepare_initial_stack`, and the store of its result by `task_create`. */
    method PrepareInitialStack(t: nat, entry: Entry, trap: Word)
      requires Valid() && t < layout.tasks
      modifies mem, saved
      ensures Valid() && Abs() == Prepare(layout, old(Abs()), t, entry, trap)
      ensures var top := AlignedTop(layout, t);
        && 2 * BLOCK <= top <= mem.Length && saved[t] == top - 2 * BLOCK
        && mem[top - 8] == entry.argument
        && mem[top - 3] == trap && mem[top - 2] == entry.pc && mem[top - 1] == 0x0100_0000
    {
      StackIsMemory(layout, Abs(), t);
      PrepareIsFresh(layout, Abs(), t, entry, trap);
      var sp := StoreTwoBlocks(AlignedTop(layout, t), InitialCallee(), InitialCaller(entry, trap));
      saved[t] := sp;
    }

    method StoreTwoBlocks(top: nat, lower: seq<Word>, upper: seq<Word>) returns (sp: nat)
      requires |lower| + |upper| <= top <= mem.Length
      modifies mem
      ensures sp == top - |lower| - |upper| && mem[..] == Written(old(mem[..]), sp, lower + upper)
    {
      sp := StoreDescending(top, upper);
      sp := StoreDescending(sp, lower);
      WritesJoin(old(mem[..]), sp, lower, upper);
    }
  }
}
