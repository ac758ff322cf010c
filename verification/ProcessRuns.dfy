/** What holds of processes over every run: when the kernel halts, who is dispatched when, what a fork
    copies, and who collects whom. */
module ProcessRuns {
  import opened Base
  import opened ProcessTree
  import opened UserMemory
  import opened Processes

  // ---------------------------------------------------------------- halting

  /** The scheduler halts exactly when nothing is alive. */
  lemma SchedulerHaltsIff(s: State)
    requires Inv(s) && Enabled(s, Schedule)
    ensures Step(s, Schedule).halted.ByScheduler? <==> s.tree.live == {}
  {
    ChildlessIff(s.tree);
    if s.tree.live == {} && s.readyq != [] {
      ExactlyOnePlace(s, s.readyq[0]);
    }
  }

  lemma HaltedStep(s: State, e: Event)
    requires Inv(s) && Enabled(s, e) && Regular(s, e)
    ensures Step(s, e).halted.ByScheduler? ==> Step(s, e).tree.live == {}
  {
    if e.Schedule? { SchedulerHaltsIff(s); }
  }

  /** So at the end of a run that the scheduler has ended, nothing is. */
  lemma {:induction false} HaltsOnlyWhenDead(s: State, es: seq<Event>)
    requires Inv(s) && Run(s, es) && s.halted.No?
    ensures After(s, es).halted.ByScheduler? ==> After(s, es).tree.live == {}
    decreases |es|
  {
    if es != [] {
      StepInvIff(s, es[0]);
      HaltedStep(s, es[0]);
      if Step(s, es[0]).halted.No? {
        HaltsOnlyWhenDead(Step(s, es[0]), es[1..]);
      } else {
        assert es[1..] == [];
      }
    }
  }

  /** A process stopped by a fault stays stopped and alive, and keeps the scheduler from halting. */
  lemma {:induction false} FaultForever(s: State, es: seq<Event>, p: Proc)
    requires Inv(s) && Run(s, es) && p in s.faulted && s.halted.No?
    ensures p in After(s, es).faulted && p in After(s, es).tree.live && !After(s, es).halted.ByScheduler?
    decreases |es|
  {
    LiveIf(s, p);
    if es != [] {
      var s1 := Step(s, es[0]);
      StepInvIff(s, es[0]);
      HaltedStep(s, es[0]);
      FaultedStay(s, es[0], p);
      LiveIf(s1, p);
      if s1.halted.No? {
        FaultForever(s1, es[1..], p);
      } else {
        assert es[1..] == [];
      }
    }
  }

  /** A fault takes its process off the processor and puts it nowhere else: no queue, no call. Memory, tree
      and everybody else stay as they are, and the scheduler comes next. */
  lemma FaultStops(s: State)
    requires Inv(s) && Enabled(s, Fault) && s.curr.Some?
    ensures var s', p := Step(s, Fault), s.curr.value;
      && p in s'.faulted && p !in s'.readyq && p !in s'.calls && p !in s'.finishing && s'.cpu.InKernel?
      && s'.readyq == s.readyq && s'.calls == s.calls && s'.finishing == s.finishing
      && s'.tree == s.tree && s'.memory == s.memory && s'.halted.No?
  {
    ExactlyOnePlace(s, s.curr.value);
  }

  /** From the fault on it is never dispatched again, at no point of any run, and the scheduler never
      halts the kernel. */
  lemma FaultStopsForGood(s: State, es: seq<Event>)
    requires Inv(s) && Enabled(s, Fault) && s.curr.Some? && Inv(Step(s, Fault)) && Run(Step(s, Fault), es)
    ensures var s', p := After(Step(s, Fault), es), s.curr.value;
      && p in s'.faulted && p !in OnCpu(s') && p !in s'.readyq && p !in s'.calls && p !in s'.finishing
      && p in s'.tree.live && !s'.halted.ByScheduler?
  {
    FaultStops(s);
    FaultForever(Step(s, Fault), es, s.curr.value);
    RunInv(Step(s, Fault), es);
    ExactlyOnePlace(After(Step(s, Fault), es), s.curr.value);
  }

  /** System call 0, and an unknown one, halt the kernel at once: nothing happens any more. */
  lemma AskedHalt(s: State, e: Event)
    requires Inv(s) && Enabled(s, AskHalt)
    ensures Step(s, AskHalt).halted.ByProgram? && Step(s, AskHalt) == s.(halted := ByProgram)
    ensures !Enabled(Step(s, AskHalt), e)
  {
  }

  lemma FaultedStay(s: State, e: Event, p: Proc)
    requires Inv(s) && Enabled(s, e) && p in s.faulted
    ensures p in Step(s, e).faulted
  {
  }

  // ---------------------------------------------------------------- the ready queue

  /** The scheduler takes the head of the queue; everything else only appends. */
  lemma QueueStep(s: State, e: Event)
    requires Inv(s) && Enabled(s, e) && s.readyq != []
    ensures e.Schedule? ==> Step(s, e).readyq == s.readyq[1..] && Step(s, e).curr == Some(s.readyq[0])
                            && Step(s, e).cpu.InUser?
    ensures !e.Schedule? ==> s.readyq <= Step(s, e).readyq
  {
  }

  function Dispatch(e: Event): int { if e.Schedule? then 1 else 0 }

  function Dispatches(es: seq<Event>): (d: int)
    ensures d >= 0
  {
    if es == [] then 0 else Dispatch(es[0]) + Dispatches(es[1..])
  }

  /** `p` is at place `k` of the ready queue. */
  predicate Waits(s: State, p: Proc, k: int) { 0 <= k < |s.readyq| && s.readyq[k] == p }

  lemma WaitsStep(s: State, e: Event, p: Proc, k: int) returns (j: int)
    requires Inv(s) && Enabled(s, e) && Regular(s, e) && Waits(s, p, k) && Dispatch(e) <= k
    ensures Inv(Step(s, e)) && j == k - Dispatch(e) && Waits(Step(s, e), p, j)
  {
    StepInvIff(s, e);
    QueueStep(s, e);
    j := k - Dispatch(e);
  }

  lemma DispatchesTail(es: seq<Event>)
    requires es != []
    ensures Dispatches(es) == Dispatch(es[0]) + Dispatches(es[1..]) && Dispatches(es[1..]) >= 0
  {
  }

  /** Those in the ready queue move up one place at each dispatch and at nothing else, whatever calls
      and interrupts come between. */
  lemma {:induction false} WaitsRun(s: State, es: seq<Event>, p: Proc, k: int) returns (j: int)
    requires Run(s, es) && Waits(s, p, k) && Dispatches(es) <= k
    ensures j == k - Dispatches(es) && Waits(After(s, es), p, j)
    decreases |es|
  {
    j := k;
    if es != [] {
      DispatchesTail(es);
      j := WaitsStep(s, es[0], p, k);
      j := WaitsRun(Step(s, es[0]), es[1..], p, j);
    }
  }

  /** So it runs at the dispatch after `k` others: no sooner and no later. */
  lemma BoundedWaiting(s: State, es: seq<Event>, k: nat)
    requires Inv(s) && Run(s, es) && k < |s.readyq| && Dispatches(es) == k && Enabled(After(s, es), Schedule)
    ensures var s' := Step(After(s, es), Schedule); s'.curr == Some(s.readyq[k]) && s'.cpu.InUser?
  {
    var j := WaitsRun(s, es, s.readyq[k], k);
    RunInv(s, es);
    QueueStep(After(s, es), Schedule);
  }

  // ---------------------------------------------------------------- isolation and fork

  /** The process a step works for. */
  function Actor(s: State, e: Event): Option<Proc> {
    match e
    case Execute(_, _) => s.curr
    case Return(p, _, _) => Some(p)
    case DoFork(p) => Some(p)
    case FinishFork(p) => Some(p)
    case DoExit(p) => Some(p)
    case DoWait(p) => Some(p)
    case _ => None
  }

  lemma SameUntouched(m: Memory, live: set<Proc>, q: Proc)
    requires MemoryInv(m, live) && q in live
    ensures Untouched(m, m, q)
  {
  }

  lemma UntouchedThen(m: Memory, m': Memory, m'': Memory, q: Proc)
    requires Untouched(m, m', q) && Untouched(m', m'', q)
    ensures Untouched(m, m'', q)
  {
  }

  lemma FailedForkElsewhere(s: State, p: Proc, q: Proc)
    requires Inv(s) && p in s.calls && q in s.tree.live && q != p && FreeChunk(s.memory.chunks, 0) == CHUNKS
    ensures ForkReady(s, p) && Untouched(s.memory, ForkStep(s, p).memory, q)
  {
    LiveIf(s, p);
    WriteElsewhere(s.memory, s.tree.live, p, Returned(s.memory.image[p].regs, -EAGAIN), Region(s.memory, p), q);
  }

  lemma MadeForkElsewhere(s: State, p: Proc, q: Proc)
    requires Inv(s) && p in s.calls && q in s.tree.live && q != p && FreeChunk(s.memory.chunks, 0) < CHUNKS
    ensures ForkReady(s, p) && Untouched(s.memory, ForkStep(s, p).memory, q)
  {
    ForkParts(s, p);
    LiveIf(s, p);
    var m := ForkMemoryOf(s, p);
    ForkElsewhere(s.memory, s.tree.live, p, s.tree.next, q);
    WriteElsewhere(m, s.tree.live + {s.tree.next}, p, Returned(m.image[p].regs, NewPid(s.tree) % PIDS),
                   Region(m, p), q);
    UntouchedThen(s.memory, m, ForkStep(s, p).memory, q);
  }

  lemma ForkElsewhereToo(s: State, p: Proc, q: Proc)
    requires Inv(s) && p in s.calls && q in s.tree.live && q != p
    ensures ForkReady(s, p) && Untouched(s.memory, ForkStep(s, p).memory, q)
  {
    if FreeChunk(s.memory.chunks, 0) < CHUNKS { MadeForkElsewhere(s, p, q); } else { FailedForkElsewhere(s, p, q); }
  }

  lemma CallElsewhere(s: State, e: Event, q: Proc)
    requires Inv(s) && Enabled(s, e) && Regular(s, e) && q in s.tree.live && Actor(s, e) != Some(q)
    requires e.Return? || e.FinishFork? || e.DoFork? || e.DoExit? || e.DoWait?
    ensures Untouched(s.memory, Step(s, e).memory, q)
  {
    Ready(s, e);
    match e
    case Return(p, value, bytes) =>
      WriteElsewhere(s.memory, s.tree.live, p, Returned(s.memory.image[p].regs, value), bytes, q);
    case DoFork(p) => ForkElsewhereToo(s, p, q);
    case FinishFork(c) =>
      WriteElsewhere(s.memory, s.tree.live, c, Returned(s.memory.image[c].regs, 0), Region(s.memory, c), q);
    case DoExit(p) => ExitElsewhere(s.memory, s.tree.live, p, q);
    case DoWait(p) =>
      WriteElsewhere(s.memory, s.tree.live, p,
                     Returned(s.memory.image[p].regs, s.tree.fam[s.tree.fam[p].waiters[0]].pid),
                     Region(s.memory, p), q);
  }

  lemma SameTree(s: State, e: Event)
    requires Inv(s) && Enabled(s, e) && !e.DoFork? && !e.DoExit? && !e.DoWait?
    ensures Step(s, e).tree == s.tree
  {
  }

  lemma ForkStaysLive(s: State, p: Proc, q: Proc)
    requires Inv(s) && Enabled(s, DoFork(p)) && q in s.tree.live
    ensures q in Step(s, DoFork(p)).tree.live
  {
    Ready(s, DoFork(p));
  }

  lemma StaysLive(s: State, e: Event, q: Proc)
    requires Inv(s) && Enabled(s, e) && q in s.tree.live && Actor(s, e) != Some(q)
    ensures q in Step(s, e).tree.live
  {
    if e.DoFork? {
      ForkStaysLive(s, e.proc, q);
    } else if e.DoExit? || e.DoWait? {
      Ready(s, e);
    } else {
      SameTree(s, e);
    }
  }

  /** No step changes the registers or the bytes of a live process it does not work for. */
  lemma Isolation(s: State, e: Event, q: Proc)
    requires Inv(s) && Enabled(s, e) && Regular(s, e) && q in s.tree.live && Actor(s, e) != Some(q)
    ensures q in Step(s, e).tree.live && Untouched(s.memory, Step(s, e).memory, q)
  {
    StaysLive(s, e, q);
    if e.Return? || e.FinishFork? || e.DoFork? || e.DoExit? || e.DoWait? {
      CallElsewhere(s, e, q);
    } else if e.Execute? {
      Ready(s, e);
      WriteElsewhere(s.memory, s.tree.live, s.curr.value, e.regs, e.bytes, q);
    } else {
      SameUntouched(s.memory, s.tree.live, q);
      assert Step(s, e).memory == s.memory;
    }
  }

  /** The instruction after the trap comes next, the value is in register 2, and every other register is
      as it was. */
  predicate GoesOn(regs: seq<int>, regs': seq<int>, value: int) {
    && |regs| == REGISTERS && |regs'| == REGISTERS
    && regs'[PC] == regs[NEXT_PC] && regs'[RESULT] == value
    && forall i | 0 <= i < REGISTERS && i != PC && i != RESULT :: regs'[i] == regs[i]
  }

  lemma ReturnedGoesOn(regs: seq<int>, value: int)
    requires |regs| == REGISTERS
    ensures GoesOn(regs, Returned(regs, value), value)
  {
  }

  lemma ReturnQueues(s: State, p: Proc, value: int, bytes: seq<Byte>)
    requires Inv(s) && Enabled(s, Return(p, value, bytes))
    ensures Placed(s.memory, p) && Step(s, Return(p, value, bytes)) == ReturnStep(s, p, value, bytes)
    ensures p !in Step(s, Return(p, value, bytes)).calls
  {
    LiveIf(s, p);
    ExactlyOnePlace(s, p);
  }

  /** Process `p` is back in the ready queue with the value in register 2, in no call, and nobody else
      has noticed. */
  predicate Resumed(s: State, s': State, p: Proc, value: int) {
    && s'.readyq == s.readyq + [p] && p !in s'.calls && Placed(s.memory, p) && Placed(s'.memory, p)
    && GoesOn(s.memory.image[p].regs, s'.memory.image[p].regs, value)
    && forall q | q in s.tree.live && q != p :: Untouched(s.memory, s'.memory, q)
  }

  /** A call that returns leaves its process last in the ready queue, to go on after the trap with the
      value and with the bytes the call has left; the registers and bytes of every other live process are
      as they were. */
  lemma ReturnResumes(s: State, p: Proc, value: int, bytes: seq<Byte>)
    requires Inv(s) && Enabled(s, Return(p, value, bytes))
    ensures var s' := Step(s, Return(p, value, bytes)); Resumed(s, s', p, value) && Region(s'.memory, p) == bytes
  {
    var e := Return(p, value, bytes);
    ReturnQueues(s, p, value, bytes);
    ReturnedGoesOn(s.memory.image[p].regs, value);
    WriteThere(s.memory, p, Returned(s.memory.image[p].regs, value), bytes);
    forall q | q in s.tree.live && q != p ensures Untouched(s.memory, Step(s, e).memory, q) {
      Isolation(s, e, q);
    }
  }

  /** A process whose `finish_fork` thread has not run yet is only touched by that thread. */
  lemma Unborn(s: State, e: Event, c: Proc)
    requires Inv(s) && Enabled(s, e) && Regular(s, e) && c in s.finishing && e != FinishFork(c)
    ensures Actor(s, e) != Some(c) || e.Execute?
    ensures e.Execute? ==> s.curr != Some(c)
    ensures c in Step(s, e).finishing
  {
    ExactlyOnePlace(s, c);
  }

  lemma {:induction false} UnbornRun(s: State, es: seq<Event>, c: Proc)
    requires Inv(s) && Run(s, es) && c in s.finishing && FinishFork(c) !in es
    ensures c in After(s, es).finishing && Untouched(s.memory, After(s, es).memory, c)
    decreases |es|
  {
    LiveIf(s, c);
    if es == [] {
      SameUntouched(s.memory, s.tree.live, c);
    } else {
      StepInvIff(s, es[0]);
      Unborn(s, es[0], c);
      Isolation(s, es[0], c);
      UnbornRun(Step(s, es[0]), es[1..], c);
      UntouchedThen(s.memory, Step(s, es[0]).memory, After(s, es).memory, c);
    }
  }

  /** `q` in `m'` has the registers and bytes that `p` has in `m`, but for the return with `value`. */
  predicate ReturnsWith(m: Memory, p: Proc, m': Memory, q: Proc, value: int) {
    && Placed(m, p) && Placed(m', q)
    && m'.image[q].regs == Returned(m.image[p].regs, value) && Region(m', q) == Region(m, p)
  }

  /** A fork returns twice with the same program state. The parent goes on with its own registers and
      bytes and the child's identifier in register 2; and whenever the child returns, after any run of
      anything else, it has the registers and bytes the parent had, with 0 in register 2. */
  lemma ForkCopies(s: State, p: Proc, es: seq<Event>)
    requires Inv(s) && Enabled(s, DoFork(p)) && |s.memory.chunks| == CHUNKS && FreeChunk(s.memory.chunks, 0) < CHUNKS
    requires |s.tree.rbtree| < PIDS
    requires Run(Step(s, DoFork(p)), es) && FinishFork(s.tree.next) !in es
    requires After(Step(s, DoFork(p)), es).halted.No?
    ensures var c, s1 := s.tree.next, Step(s, DoFork(p));
            var s2 := After(s1, es);
      && Enabled(s2, FinishFork(c)) && c in s1.tree.fam
      && ReturnsWith(s.memory, p, s1.memory, p, s1.tree.fam[c].pid)
      && ReturnsWith(s.memory, p, Step(s2, FinishFork(c)).memory, c, 0)
  {
    var c := s.tree.next;
    var s1 := Step(s, DoFork(p));
    ForkedMemory(s, p);
    UnbornRun(s1, es, c);
    RunInv(s1, es);
    FinishThere(After(s1, es), c);
    assert ReturnsWith(s.memory, p, s1.memory, p, s1.tree.fam[c].pid);
  }

  /** The child returns with 0 in register 2, and all else as it is. */
  lemma FinishThere(s: State, c: Proc)
    requires Inv(s) && Enabled(s, FinishFork(c))
    ensures ReturnsWith(s.memory, c, Step(s, FinishFork(c)).memory, c, 0)
    ensures Step(s, FinishFork(c)).readyq == s.readyq + [c]
  {
    LiveIf(s, c);
    WriteThere(s.memory, c, Returned(s.memory.image[c].regs, 0), Region(s.memory, c));
  }

  lemma ForkedMemory(s: State, p: Proc)
    requires Inv(s) && Enabled(s, DoFork(p)) && |s.memory.chunks| == CHUNKS && FreeChunk(s.memory.chunks, 0) < CHUNKS
    ensures var c := s.tree.next;
            var s1 := Step(s, DoFork(p));
      && Placed(s.memory, p) && Placed(s1.memory, p) && Placed(s1.memory, c)
      && s1.memory.image[p].regs == Returned(s.memory.image[p].regs, NewPid(s.tree) % PIDS)
      && Region(s1.memory, p) == Region(s.memory, p)
      && s1.memory.image[c].regs == s.memory.image[p].regs && Region(s1.memory, c) == Region(s.memory, p)
  {
    var c := s.tree.next;
    ForkParts(s, p);
    var m := ForkMemoryOf(s, p);
    ForkDuplicates(s.memory, s.tree.live, p, c);
    ForkElsewhereSelf(s, p);
    var regs := Returned(m.image[p].regs, NewPid(s.tree) % PIDS);
    WriteThere(m, p, regs, Region(m, p));
    WriteElsewhere(m, s.tree.live + {c}, p, regs, Region(m, p), c);
  }

  lemma ForkElsewhereSelf(s: State, p: Proc)
    requires Inv(s) && p in s.calls && FreeChunk(s.memory.chunks, 0) < CHUNKS
    ensures ForkReady(s, p) && Untouched(s.memory, ForkMemoryOf(s, p), p)
  {
    ForkParts(s, p);
    ForkElsewhere(s.memory, s.tree.live, p, s.tree.next, p);
  }

  /** A fork fails exactly when eight processes are live. */
  lemma ForkFailsIff(s: State, p: Proc)
    requires Inv(s) && Enabled(s, DoFork(p))
    ensures Step(s, DoFork(p)).tree == s.tree <==> |s.tree.live| == CHUNKS
    ensures |s.tree.live| == CHUNKS ==>
              Placed(s.memory, p) && Step(s, DoFork(p)) == ReturnStep(s, p, -EAGAIN, Region(s.memory, p))
  {
    Ready(s, DoFork(p));
    FullIff(s.memory, s.tree.live);
  }

  // ---------------------------------------------------------------- wait

  /** A wait that gets its permit returns the identifier of the next exited child in exit order, whose
      control block and identifier are then free. */
  lemma WaitCollectsNext(s: State, p: Proc)
    requires Inv(s) && Enabled(s, DoWait(p))
    ensures p in s.tree.fam && |s.tree.fam[p].reaped| < |s.tree.fam[p].exited|
    ensures var f := s.tree.fam[p];
            var z := f.exited[|f.reaped|];
            var s' := Step(s, DoWait(p));
      && z in s.tree.fam && z !in s'.tree.fam && s.tree.fam[z].pid !in s'.tree.rbtree
      && p in s'.tree.fam && s'.tree.fam[p].reaped == f.reaped + [z] && s'.tree.fam[p].exited == f.exited
      && p in s'.memory.image && |s'.memory.image[p].regs| == REGISTERS
      && s'.memory.image[p].regs[RESULT] == s.tree.fam[z].pid
  {
    Ready(s, DoWait(p));
    assert Well(s.tree, p);
    var f := s.tree.fam[p];
    assert (f.reaped + f.waiters)[|f.reaped|] == f.waiters[0];
  }

  /** It then goes on after its trap with that identifier, last in the ready queue; its bytes, and the
      registers and bytes of every other live process, are as they were. */
  lemma WaitResumes(s: State, p: Proc)
    requires Inv(s) && Enabled(s, DoWait(p))
    ensures p in s.tree.fam && s.tree.fam[p].waiters != [] && s.tree.fam[p].waiters[0] in s.tree.fam
    ensures Resumed(s, Step(s, DoWait(p)), p, s.tree.fam[s.tree.fam[p].waiters[0]].pid)
    ensures Placed(s.memory, p) && Placed(Step(s, DoWait(p)).memory, p)
    ensures Region(Step(s, DoWait(p)).memory, p) == Region(s.memory, p)
  {
    Ready(s, DoWait(p));
    var pid := s.tree.fam[s.tree.fam[p].waiters[0]].pid;
    ReturnedGoesOn(s.memory.image[p].regs, pid);
    WriteThere(s.memory, p, Returned(s.memory.image[p].regs, pid), Region(s.memory, p));
    OutOfCalls(s, p);
    forall q | q in s.tree.live && q != p ensures Untouched(s.memory, Step(s, DoWait(p)).memory, q) {
      Isolation(s, DoWait(p), q);
    }
  }

  lemma OutOfCalls(s: State, p: Proc)
    requires Inv(s) && p in s.calls
    ensures p !in s.calls - multiset{p}
  {
    ExactlyOnePlace(s, p);
  }

  lemma ForkFailsResumes(s: State, p: Proc)
    requires Inv(s) && Enabled(s, DoFork(p)) && |s.tree.live| == CHUNKS
    ensures Resumed(s, Step(s, DoFork(p)), p, -EAGAIN) && Step(s, DoFork(p)).finishing == s.finishing
  {
    LiveIf(s, p);
    ForkFailsIff(s, p);
    ReturnResumes(s, p, -EAGAIN, Region(s.memory, p));
    ReturnQueues(s, p, -EAGAIN, Region(s.memory, p));
  }

  lemma ForkMakesResumes(s: State, p: Proc)
    requires Inv(s) && Enabled(s, DoFork(p)) && |s.tree.live| != CHUNKS
    ensures var s' := Step(s, DoFork(p));
            Resumed(s, s', p, NewPid(s.tree) % PIDS) && s'.finishing == s.finishing + multiset{s.tree.next}
  {
    Ready(s, DoFork(p));
    FullIff(s.memory, s.tree.live);
    OutOfCalls(s, p);
    ForkedMemory(s, p);
    forall q | q in s.tree.live && q != p ensures Untouched(s.memory, Step(s, DoFork(p)).memory, q) {
      ForkElsewhereToo(s, p, q);
    }
  }

  /** So does the parent of a fork, with the child's identifier or the error; the child has yet to finish. */
  lemma ForkResumes(s: State, p: Proc)
    requires Inv(s) && Enabled(s, DoFork(p))
    ensures var s' := Step(s, DoFork(p));
            if |s.tree.live| == CHUNKS then Resumed(s, s', p, -EAGAIN) && s'.finishing == s.finishing
            else Resumed(s, s', p, NewPid(s.tree) % PIDS) && s'.finishing == s.finishing + multiset{s.tree.next}
  {
    if |s.tree.live| == CHUNKS { ForkFailsResumes(s, p); } else { ForkMakesResumes(s, p); }
  }

  lemma OnwardSame(t: Tree, p: Proc)
    ensures Onward(t, t, p)
  {
  }

  lemma OnwardStep(s: State, e: Event, p: Proc)
    requires Inv(s) && Enabled(s, e)
    ensures Onward(s.tree, Step(s, e).tree, p)
  {
    Ready(s, e);
    if e.DoFork? {
      OnwardSame(s.tree, p);
      ForkOnward(s.tree, e.proc, p);
    } else if e.DoExit? {
      ExitOnward(s.tree, e.proc, p);
    } else if e.DoWait? {
      WaitOnward(s.tree, e.proc, p);
    } else {
      OnwardSame(s.tree, p);
      SameTree(s, e);
    }
  }

  lemma {:induction false} StaysGone(s: State, es: seq<Event>, p: Proc)
    requires Inv(s) && Run(s, es) && p !in s.tree.live && p < s.tree.next
    ensures p !in After(s, es).tree.live
    decreases |es|
  {
    if es != [] {
      StepInvIff(s, es[0]);
      OnwardStep(s, es[0], p);
      StaysGone(Step(s, es[0]), es[1..], p);
    }
  }

  /** While a process lives, neither list ever loses a child. */
  lemma {:induction false} ListsGrow(s: State, es: seq<Event>, p: Proc)
    requires Inv(s) && Run(s, es) && p in s.tree.live && p in After(s, es).tree.live
    ensures p in s.tree.fam && p in After(s, es).tree.fam
    ensures s.tree.fam[p].exited <= After(s, es).tree.fam[p].exited
    ensures s.tree.fam[p].reaped <= After(s, es).tree.fam[p].reaped
    decreases |es|
  {
    if es != [] {
      var s1 := Step(s, es[0]);
      StepInvIff(s, es[0]);
      OnwardStep(s, es[0], p);
      assert Well(s.tree, p);
      if p !in s1.tree.live { StaysGone(s1, es[1..], p); }
      ListsGrow(s1, es[1..], p);
    }
  }

  /** The children a process has collected are, in order, the first of those that exited, all
      different, at every point of every run. */
  lemma ExitOrder(s: State, es: seq<Event>, p: Proc)
    requires Inv(s) && Run(s, es) && p in s.tree.live && p in After(s, es).tree.live
    ensures p in s.tree.fam && p in After(s, es).tree.fam
    ensures var f, f' := s.tree.fam[p], After(s, es).tree.fam[p];
      f'.reaped <= f'.exited && NoRepeats(f'.exited) && f.exited <= f'.exited && f.reaped <= f'.reaped
  {
    ListsGrow(s, es, p);
    RunInv(s, es);
    assert Well(After(s, es).tree, p);
  }

  // ---------------------------------------------------------------- zombies nobody waits for

  /** An exited process that its parent `p` has not waited for. */
  predicate LeftTo(t: Tree, z: Proc, p: Proc) {
    Zombie(t, z) && t.fam[z].parent == p
  }

  /** One whose parent exited too, so that it is left to init. */
  predicate Abandoned(t: Tree, z: Proc) { LeftTo(t, z, INIT) }

  lemma ForkLeaves(t: Tree, a: Proc, z: Proc, p: Proc)
    requires TreeInv(t) && a in t.fam && LeftTo(t, z, p)
    ensures LeftTo(TreeFork(t, a), z, p) && TreeFork(t, a).fam[z].pid == t.fam[z].pid
  {
    NextIsNew(t);
  }

  lemma ExitLeaves(t: Tree, a: Proc, z: Proc, p: Proc)
    requires TreeInv(t) && a in t.live && a in t.fam && LeftTo(t, z, p) && a != p
    ensures t.fam[a].parent in t.fam
    ensures LeftTo(TreeExit(t, a), z, p) && TreeExit(t, a).fam[z].pid == t.fam[z].pid
  {
    AfterExitParent(t, a, z);
  }

  lemma WaitLeaves(t: Tree, a: Proc, z: Proc, p: Proc)
    requires TreeInv(t) && a in t.live && a in t.fam && t.fam[a].sem > 0 && LeftTo(t, z, p) && a != p
    ensures t.fam[a].waiters != [] && t.fam[a].waiters[0] in t.fam && t.fam[a].waiters[0] != a
    ensures LeftTo(TreeWait(t, a), z, p) && TreeWait(t, a).fam[z].pid == t.fam[z].pid
  {
    WaitFinds(t, a);
  }

  /** Only a wait or an exit of its parent can change that. */
  lemma LeftStep(s: State, e: Event, z: Proc, p: Proc)
    requires Inv(s) && Enabled(s, e) && LeftTo(s.tree, z, p) && (e.DoExit? || e.DoWait? ==> e.proc != p)
    ensures LeftTo(Step(s, e).tree, z, p) && Step(s, e).tree.fam[z].pid == s.tree.fam[z].pid
  {
    Ready(s, e);
    if e.DoFork? {
      ForkLeaves(s.tree, e.proc, z, p);
    } else if e.DoExit? {
      ExitLeaves(s.tree, e.proc, z, p);
    } else if e.DoWait? {
      WaitLeaves(s.tree, e.proc, z, p);
    } else {
      SameTree(s, e);
    }
  }

  /** The parent will never run again: it is init, which never does, or it was stopped by a fault. */
  predicate Silent(s: State, p: Proc) { p == INIT || p in s.faulted }

  lemma SilentStep(s: State, e: Event, p: Proc)
    requires Inv(s) && Enabled(s, e) && Silent(s, p)
    ensures e.DoExit? || e.DoWait? ==> e.proc != p
    ensures Silent(Step(s, e), p)
  {
    Ready(s, e);
    if p in s.faulted {
      ExactlyOnePlace(s, p);
      FaultedStay(s, e, p);
    }
  }

  /** A zombie left to such a parent is never freed, nor is its identifier. */
  lemma {:induction false} NeverCollected(s: State, es: seq<Event>, z: Proc, p: Proc)
    requires Inv(s) && Run(s, es) && LeftTo(s.tree, z, p) && Silent(s, p)
    ensures LeftTo(After(s, es).tree, z, p) && s.tree.fam[z].pid in After(s, es).tree.rbtree
    decreases |es|
  {
    if es == [] {
      PidInUse(s.tree, z);
    } else {
      StepInvIff(s, es[0]);
      SilentStep(s, es[0], p);
      LeftStep(s, es[0], z, p);
      NeverCollected(Step(s, es[0]), es[1..], z, p);
    }
  }

  /** Init takes exited processes over but never waits: they and their identifiers are never freed. */
  lemma AbandonedForever(s: State, es: seq<Event>, z: Proc)
    requires Inv(s) && Run(s, es) && Abandoned(s.tree, z)
    ensures Abandoned(After(s, es).tree, z) && s.tree.fam[z].pid in After(s, es).tree.rbtree
  {
    NeverCollected(s, es, z, INIT);
  }
}
