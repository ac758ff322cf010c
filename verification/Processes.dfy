/** The life of processes: scheduling, traps, faults and interrupts, and the calls that create, end and
    collect processes, as a machine in which any process may make any call. */
module Processes {
  import opened Base
  import opened ProcessTree
  import opened UserMemory

  /** Kernel code with the scheduler to come, a user program, or `noop`. */
  datatype Cpu = InKernel | InUser | InNoop

  datatype Halt = No | ByScheduler | ByProgram

  /** `curr` may dangle while the kernel runs, as in the program. The kernel threads are the calls in
      progress, each with the process it works for, and the threads of `finish_fork`. */
  datatype State = State(tree: Tree, memory: Memory, readyq: seq<Proc>, curr: Option<Proc>, isNoop: bool,
                         cpu: Cpu, halted: Halt,
                         calls: multiset<Proc>, finishing: multiset<Proc>, faulted: multiset<Proc>)

  datatype Event =
    | Schedule                                                // scheduler()
    | Execute(regs: seq<int>, bytes: seq<Byte>)               // user instructions
    | Trap                                                    // a system call
    | AskHalt                                                 // system call 0, or an unknown one
    | Fault                                                   // any other exception
    | Interrupt
    | Return(proc: Proc, value: int, bytes: seq<Byte>)        // a call ends in syscall_return
    | DoFork(proc: Proc)
    | FinishFork(proc: Proc)
    | DoExit(proc: Proc)
    | DoWait(proc: Proc)                                      // do_wait, once it has its permit

  // ---------------------------------------------------------------- the invariant

  function OnCpu(s: State): multiset<Proc> {
    if s.cpu.InUser? && s.curr.Some? then multiset{s.curr.value} else multiset{}
  }

  /** Every place a process can be in. */
  function Whereabouts(s: State): multiset<Proc> {
    OnCpu(s) + multiset(s.readyq) + s.calls + s.finishing + s.faulted
  }

  ghost predicate Inv(s: State) {
    && TreeInv(s.tree) && MemoryInv(s.memory, s.tree.live)
    && Whereabouts(s) == multiset(s.tree.live)
    && (s.cpu.InUser? ==> s.curr.Some? && !s.isNoop) && (s.cpu.InNoop? ==> s.isNoop)
  }

  /** Each live process is in exactly one place, once; nobody else is anywhere. */
  lemma ExactlyOnePlace(s: State, p: Proc)
    requires Inv(s)
    ensures OnCpu(s)[p] + multiset(s.readyq)[p] + s.calls[p] + s.finishing[p] + s.faulted[p]
         == if p in s.tree.live then 1 else 0
  {
    assert Whereabouts(s)[p] == multiset(s.tree.live)[p];
  }

  lemma LiveIf(s: State, p: Proc)
    requires Inv(s) && (p in OnCpu(s) || p in s.readyq || p in s.calls || p in s.finishing || p in s.faulted)
    ensures p in s.tree.live && Placed(s.memory, p) && p in s.tree.fam
  {
    ExactlyOnePlace(s, p);
    PlacedIn(s.memory, s.tree.live, p);
  }

  // ---------------------------------------------------------------- the steps

  predicate Enabled(s: State, e: Event) {
    s.halted.No? &&
    match e
    case Schedule => s.cpu.InKernel?
    case Execute(regs, bytes) => s.cpu.InUser? && |regs| == REGISTERS && |bytes| == CHUNK
    case Trap => s.cpu.InUser?
    case AskHalt => s.cpu.InUser?
    case Fault => s.cpu.InUser?
    case Interrupt => !s.cpu.InKernel?
    case Return(p, _, bytes) => p in s.calls && |bytes| == CHUNK
    case DoFork(p) => p in s.calls
    case FinishFork(c) => c in s.finishing
    case DoExit(p) => p in s.calls
    case DoWait(p) => p in s.calls && p in s.tree.fam && s.tree.fam[p].sem > 0
  }

  function ScheduleStep(s: State): State
    requires INIT in s.tree.fam
  {
    if s.readyq == [] then
      if s.tree.fam[INIT].children == map[] then s.(curr := None, halted := ByScheduler)
      else s.(curr := None, isNoop := true, cpu := InNoop)
    else
      s.(curr := Some(s.readyq[0]), readyq := s.readyq[1..], isNoop := false, cpu := InUser)
  }

  function InterruptStep(s: State): State
    requires !s.isNoop ==> s.curr.Some?
  {
    s.(readyq := if s.isNoop then s.readyq else s.readyq + [s.curr.value], cpu := InKernel)
  }

  /** The memory after `syscall_return` of a call that has left `bytes` in the caller's region. */
  function Answer(m: Memory, p: Proc, value: int, bytes: seq<Byte>): Memory
    requires Placed(m, p) && |bytes| == CHUNK
  {
    Write(m, p, Returned(m.image[p].regs, value), bytes)
  }

  function ReturnStep(s: State, p: Proc, value: int, bytes: seq<Byte>): State
    requires Placed(s.memory, p) && |bytes| == CHUNK
  {
    s.(memory := Answer(s.memory, p, value, bytes), readyq := s.readyq + [p], calls := s.calls - multiset{p})
  }

  predicate ForkReady(s: State, p: Proc) {
    && p in s.tree.fam && Placed(s.memory, p) && |s.memory.chunks| == CHUNKS && |s.memory.mem| == MEMORY
  }

  function ForkMemoryOf(s: State, p: Proc): Memory
    requires ForkReady(s, p) && FreeChunk(s.memory.chunks, 0) < CHUNKS
  {
    MemoryFork(s.memory, p, s.tree.next, FreeChunk(s.memory.chunks, 0))
  }

  /** `do_fork`: without a chunk the caller gets an error; with one, a child thread is started on
      `finish_fork` and the caller gets the child's identifier. */
  function ForkStep(s: State, p: Proc): State
    requires ForkReady(s, p)
  {
    if FreeChunk(s.memory.chunks, 0) == CHUNKS then
      ReturnStep(s, p, -EAGAIN, Region(s.memory, p))
    else
      var m := ForkMemoryOf(s, p);
      s.(tree := TreeFork(s.tree, p),
         memory := if Placed(m, p) then Answer(m, p, NewPid(s.tree) % PIDS, Region(m, p)) else m,
         readyq := s.readyq + [p], calls := s.calls - multiset{p}, finishing := s.finishing + multiset{s.tree.next})
  }

  function FinishForkStep(s: State, c: Proc): State
    requires Placed(s.memory, c)
  {
    s.(memory := Answer(s.memory, c, 0, Region(s.memory, c)), readyq := s.readyq + [c],
       finishing := s.finishing - multiset{c})
  }

  function ExitStep(s: State, p: Proc): State
    requires p in s.tree.fam && s.tree.fam[p].parent in s.tree.fam && Placed(s.memory, p)
  {
    s.(tree := TreeExit(s.tree, p), memory := MemoryExit(s.memory, p), calls := s.calls - multiset{p})
  }

  function WaitStep(s: State, p: Proc): State
    requires p in s.tree.fam && s.tree.fam[p].waiters != [] && s.tree.fam[p].waiters[0] in s.tree.fam
    requires s.tree.fam[p].sem > 0 && s.tree.fam[p].waiters[0] != p && Placed(s.memory, p)
  {
    ReturnStep(s, p, s.tree.fam[s.tree.fam[p].waiters[0]].pid, Region(s.memory, p)).(tree := TreeWait(s.tree, p))
  }

  /** What a step's function needs, which the invariant gives. */
  lemma Ready(s: State, e: Event)
    requires Inv(s) && Enabled(s, e)
    ensures INIT in s.tree.fam
    ensures e.Interrupt? ==> (!s.isNoop ==> s.curr.Some?)
    ensures e.Execute? || e.Trap? || e.Fault? ==>
              s.curr.Some? && Placed(s.memory, s.curr.value) && s.curr.value in s.tree.live
    ensures e.Return? || e.DoFork? || e.FinishFork? || e.DoExit? || e.DoWait? ==>
              e.proc in s.tree.live && Placed(s.memory, e.proc) && e.proc in s.tree.fam && ForkReady(s, e.proc)
    ensures e.DoExit? ==> s.tree.fam[e.proc].parent in s.tree.fam
    ensures e.DoWait? ==> s.tree.fam[e.proc].waiters != [] && s.tree.fam[e.proc].waiters[0] in s.tree.fam
                          && s.tree.fam[e.proc].waiters[0] != e.proc
  {
    if e.Execute? || e.Trap? || e.Fault? { LiveIf(s, s.curr.value); }
    if e.Return? || e.DoFork? || e.FinishFork? || e.DoExit? || e.DoWait? { LiveIf(s, e.proc); }
    if e.DoExit? { FreedIff(s.tree, e.proc); }
    if e.DoWait? { WaitFinds(s.tree, e.proc); }
  }

  /** A step that may not happen changes nothing. */
  ghost function Step(s: State, e: Event): State {
    if !Inv(s) || !Enabled(s, e) then s
    else
      Ready(s, e);
      match e
      case Schedule => ScheduleStep(s)
      case Execute(regs, bytes) => s.(memory := Write(s.memory, s.curr.value, regs, bytes))
      case Trap => s.(calls := s.calls + multiset{s.curr.value}, cpu := InKernel)
      case AskHalt => s.(halted := ByProgram)
      case Fault => s.(faulted := s.faulted + multiset{s.curr.value}, cpu := InKernel)
      case Interrupt => InterruptStep(s)
      case Return(p, value, bytes) => ReturnStep(s, p, value, bytes)
      case DoFork(p) => ForkStep(s, p)
      case FinishFork(c) => FinishForkStep(s, c)
      case DoExit(p) => ExitStep(s, p)
      case DoWait(p) => WaitStep(s, p)
  }

  /** A fork that finds a chunk needs an identifier below 65536. */
  predicate Regular(s: State, e: Event) {
    e.DoFork? && FreeChunk(s.memory.chunks, 0) < |s.memory.chunks| ==> |s.tree.rbtree| < PIDS
  }

  // ---------------------------------------------------------------- every step keeps the invariant

  lemma AnswerInv(m: Memory, live: set<Proc>, p: Proc, value: int, bytes: seq<Byte>)
    requires MemoryInv(m, live) && p in live && |bytes| == CHUNK
    ensures Placed(m, p) && MemoryInv(Answer(m, p, value, bytes), live)
  {
    PlacedIn(m, live, p);
    WriteMemory(m, live, p, Returned(m.image[p].regs, value), bytes);
  }

  lemma ScheduleInv(s: State)
    requires Inv(s) && Enabled(s, Schedule)
    ensures INIT in s.tree.fam && Inv(ScheduleStep(s))
  {
    if s.readyq != [] {
      QueueHead(s.readyq);
      assert Whereabouts(ScheduleStep(s)) == Whereabouts(s);
    }
  }

  lemma QueueHead(q: seq<Proc>)
    requires q != []
    ensures multiset(q) == multiset{q[0]} + multiset(q[1..])
  {
    assert q == [q[0]] + q[1..];
  }

  lemma QueueAppend(q: seq<Proc>, p: Proc)
    ensures multiset(q + [p]) == multiset(q) + multiset{p}
  {
  }

  lemma SetPlus(live: set<Proc>, c: Proc)
    requires c !in live
    ensures multiset(live + {c}) == multiset(live) + multiset{c}
  {
  }

  lemma SetMinus(live: set<Proc>, p: Proc)
    requires p in live
    ensures multiset(live - {p}) == multiset(live) - multiset{p}
  {
  }

  lemma InterruptInv(s: State)
    requires Inv(s) && Enabled(s, Interrupt)
    ensures Inv(InterruptStep(s))
  {
    if !s.isNoop { QueueAppend(s.readyq, s.curr.value); }
  }

  lemma ReturnInv(s: State, p: Proc, value: int, bytes: seq<Byte>)
    requires Inv(s) && p in s.calls && |bytes| == CHUNK
    ensures Placed(s.memory, p) && Inv(ReturnStep(s, p, value, bytes))
  {
    LiveIf(s, p);
    AnswerInv(s.memory, s.tree.live, p, value, bytes);
    QueueAppend(s.readyq, p);
    assert Whereabouts(ReturnStep(s, p, value, bytes)) == Whereabouts(s);
  }

  lemma FinishForkInv(s: State, c: Proc)
    requires Inv(s) && c in s.finishing
    ensures Placed(s.memory, c) && Inv(FinishForkStep(s, c))
  {
    LiveIf(s, c);
    AnswerInv(s.memory, s.tree.live, c, 0, Region(s.memory, c));
    QueueAppend(s.readyq, c);
  }

  lemma ExitInv(s: State, p: Proc)
    requires Inv(s) && p in s.calls
    ensures p in s.tree.fam && s.tree.fam[p].parent in s.tree.fam && Placed(s.memory, p) && Inv(ExitStep(s, p))
  {
    LiveIf(s, p);
    ExitTree(s.tree, p);
    ExitMemory(s.memory, s.tree.live, p);
    SetMinus(s.tree.live, p);
    assert Whereabouts(ExitStep(s, p)) == Whereabouts(s) - multiset{p};
  }

  lemma WaitInv(s: State, p: Proc)
    requires Inv(s) && Enabled(s, DoWait(p))
    ensures Inv(Step(s, DoWait(p)))
  {
    LiveIf(s, p);
    WaitTree(s.tree, p);
    ReturnInv(s, p, s.tree.fam[s.tree.fam[p].waiters[0]].pid, Region(s.memory, p));
  }

  /** The parts of a successful fork. */
  lemma ForkParts(s: State, p: Proc)
    requires Inv(s) && p in s.calls && FreeChunk(s.memory.chunks, 0) < CHUNKS
    ensures ForkReady(s, p) && s.tree.next !in s.tree.live && CanFork(s.memory, s.tree.live, p, s.tree.next)
    ensures var m := ForkMemoryOf(s, p);
            && Placed(m, p) && MemoryInv(m, s.tree.live + {s.tree.next})
            && MemoryInv(ForkStep(s, p).memory, s.tree.live + {s.tree.next})
            && ForkStep(s, p).memory == Answer(m, p, NewPid(s.tree) % PIDS, Region(m, p))
  {
    LiveIf(s, p);
    NextIsNew(s.tree);
    ForkMemory(s.memory, s.tree.live, p, s.tree.next);
    var m := ForkMemoryOf(s, p);
    PlacedIn(m, s.tree.live + {s.tree.next}, p);
    AnswerInv(m, s.tree.live + {s.tree.next}, p, NewPid(s.tree) % PIDS, Region(m, p));
  }

  lemma ForkParting(s: State, p: Proc)
    requires ForkReady(s, p) && FreeChunk(s.memory.chunks, 0) < CHUNKS
    ensures var s' := ForkStep(s, p);
      && OnCpu(s') == OnCpu(s) && s'.readyq == s.readyq + [p] && s'.calls == s.calls - multiset{p}
      && s'.finishing == s.finishing + multiset{s.tree.next} && s'.faulted == s.faulted
      && s'.tree.live == s.tree.live + {s.tree.next}
  {
  }

  lemma ForkPlaces(s: State, p: Proc)
    requires Inv(s) && p in s.calls && ForkReady(s, p) && FreeChunk(s.memory.chunks, 0) < CHUNKS
    ensures Whereabouts(ForkStep(s, p)) == multiset(ForkStep(s, p).tree.live)
  {
    NextIsNew(s.tree);
    ForkParting(s, p);
    SetPlus(s.tree.live, s.tree.next);
    Forked(OnCpu(s), s.readyq, s.calls, s.finishing, s.faulted, p, s.tree.next);
  }

  lemma Forked(cpu: multiset<Proc>, q: seq<Proc>, calls: multiset<Proc>, finishing: multiset<Proc>,
               faulted: multiset<Proc>, p: Proc, c: Proc)
    requires p in calls
    ensures cpu + multiset(q + [p]) + (calls - multiset{p}) + (finishing + multiset{c}) + faulted
         == cpu + multiset(q) + calls + finishing + faulted + multiset{c}
  {
  }

  lemma ForkInvIff(s: State, p: Proc)
    requires Inv(s) && p in s.calls
    ensures ForkReady(s, p) && (Inv(ForkStep(s, p)) <==> Regular(s, DoFork(p)))
  {
    LiveIf(s, p);
    if FreeChunk(s.memory.chunks, 0) == CHUNKS {
      ReturnInv(s, p, -EAGAIN, Region(s.memory, p));
    } else {
      ForkParts(s, p);
      ForkTreeIff(s.tree, p);
      ForkPlaces(s, p);
    }
  }

  lemma UserInv(s: State, e: Event)
    requires Inv(s) && Enabled(s, e) && (e.Execute? || e.Trap? || e.AskHalt? || e.Fault?)
    ensures Inv(Step(s, e))
  {
    Ready(s, e);
    if e.Execute? { WriteMemory(s.memory, s.tree.live, s.curr.value, e.regs, e.bytes); }
  }

  lemma HandlerInv(s: State, e: Event)
    requires Inv(s) && Enabled(s, e) && (e.Schedule? || e.Interrupt?)
    ensures Inv(Step(s, e))
  {
    Ready(s, e);
    if e.Schedule? { ScheduleInv(s); } else { InterruptInv(s); }
  }

  lemma CallInvIff(s: State, e: Event)
    requires Inv(s) && Enabled(s, e) && (e.Return? || e.DoFork? || e.FinishFork? || e.DoExit? || e.DoWait?)
    ensures Inv(Step(s, e)) <==> Regular(s, e)
  {
    Ready(s, e);
    match e
    case Return(p, value, bytes) => ReturnInv(s, p, value, bytes);
    case DoFork(p) => ForkInvIff(s, p);
    case FinishFork(c) => FinishForkInv(s, c);
    case DoExit(p) => ExitInv(s, p);
    case DoWait(p) => WaitInv(s, p);
  }

  /** A step keeps the tree, the memory and the whereabouts in order exactly when it is regular. */
  lemma StepInvIff(s: State, e: Event)
    requires Inv(s) && Enabled(s, e)
    ensures Inv(Step(s, e)) <==> Regular(s, e)
  {
    if e.Execute? || e.Trap? || e.AskHalt? || e.Fault? {
      UserInv(s, e);
    } else if e.Schedule? || e.Interrupt? {
      HandlerInv(s, e);
    } else {
      CallInvIff(s, e);
    }
  }

  // ---------------------------------------------------------------- runs

  /** The state `initialize_user_process` leaves: init, and the first process in the ready queue. */
  ghost predicate Boot(s: State) {
    && s.tree == TreeBoot()
    && |s.memory.mem| == MEMORY && s.memory.chunks == [1, 0, 0, 0, 0, 0, 0, 0]
    && 1 in s.memory.image && s.memory.image[1].memoryNum == 0 && s.memory.image[1].base == 0
    && s.memory.image[1].limit == CHUNK && |s.memory.image[1].regs| == REGISTERS
    && s.readyq == [1] && s.curr == None && s.isNoop && s.cpu.InKernel? && s.halted.No?
    && s.calls == multiset{} && s.finishing == multiset{} && s.faulted == multiset{}
  }

  lemma BootInv(s: State)
    requires Boot(s)
    ensures Inv(s)
  {
    TreeBootInv();
    assert Owns(s.memory, s.tree.live, 1, 0);
    assert Placed(s.memory, 1);
  }

  /** Any interleaving of steps whose forks find an identifier. */
  ghost predicate Run(s: State, es: seq<Event>)
    decreases |es|
  {
    Inv(s) && (es == [] || (Enabled(s, es[0]) && Regular(s, es[0]) && Run(Step(s, es[0]), es[1..])))
  }

  ghost function After(s: State, es: seq<Event>): State
    decreases |es|
  {
    if es == [] then s else After(Step(s, es[0]), es[1..])
  }

  lemma {:induction false} RunInv(s: State, es: seq<Event>)
    requires Run(s, es)
    ensures Inv(After(s, es))
    decreases |es|
  {
    if es != [] { RunInv(Step(s, es[0]), es[1..]); }
  }
}
