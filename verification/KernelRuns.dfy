/** Runs of the whole kernel: any number of processes running, trapping, calling, blocking in pipes,
    forking and exiting in any order. */
module KernelRuns {
  import opened Base
  import opened Kernel
  import P = PipeProtocol
  import F = PipeFifo
  import D = Descriptors
  import C = DescriptorCalls
  import R = DescriptorRuns
  import Results = DescriptorResults
  import T = ProcessTree
  import M = UserMemory
  import L = Processes
  import Runs = ProcessRuns

  ghost predicate Run(k: State, es: seq<Event>)
    decreases |es|
  {
    Inv(k) && (es == [] || (Regular(k, es[0]) && Run(Step(k, es[0]), es[1..])))
  }

  ghost function After(k: State, es: seq<Event>): (k': State)
    ensures Run(k, es) ==> Inv(k')
    decreases |es|
  {
    if es == [] then k else After(Step(k, es[0]), es[1..])
  }

  /** The first process in the ready queue, with its table. */
  ghost predicate Boot(k: State) { L.Boot(k.procs) && k.sys == R.Boot() }

  lemma BootInv(k: State)
    requires Boot(k)
    ensures Inv(k)
  {
    L.BootInv(k.procs);
    R.BootInv();
  }

  /** Whatever program has been loaded, there is such a state. */
  lemma BootPossible(mem: seq<Byte>, regs: seq<int>)
    requires |mem| == M.MEMORY && |regs| == M.REGISTERS
    ensures exists k :: Boot(k) && Inv(k) && k.procs.memory.mem == mem && k.procs.memory.image[1].regs == regs
  {
    var m := M.Memory(map[1 := M.Image(0, 0, M.CHUNK, 0, regs, 0)], [1, 0, 0, 0, 0, 0, 0, 0], mem);
    var s := L.State(T.TreeBoot(), m, [1], None, true, L.InKernel, L.No, multiset{}, multiset{}, multiset{});
    var k := State(s, R.Boot());
    assert L.Boot(s) && Boot(k);
    BootInv(k);
  }

  // ---------------------------------------------------------------- the two halves of a run

  /** What a step is for the processes. */
  ghost function ProcsOf(k: State, e: Event): seq<L.Event> {
    if !Sane(k) || !Enabled(k, e) then []
    else
      match e
      case Only(step) => [step]
      case Call(p, kind) =>
        if kind.Fork? then [L.DoFork(p)] else if kind.Exit? then [L.DoExit(p)]
        else
          var m := k.procs.memory;
          Delivered(p, R.Effect(k.sys, MakeOf(k, p, kind)).reply,
                    AfterCall(k.sys, p, kind, m.image[p].regs, M.Region(m, p)))
      case Resume(q, step) =>
        TakerBusy(k, q, step);
        ProcsOfOutcome(k, q, step.proc, P.Apply(k.sys.pipes[q], step))
  }

  function ProcsOfOutcome(k: State, q: PipeId, a: Proc, o: P.Outcome): seq<L.Event>
    requires M.Placed(k.procs.memory, a)
  {
    Delivered(a, C.FromOutcome(k.sys, q, o).reply, AfterRead(k.procs.memory, a, o))
  }

  function Delivered(p: Proc, reply: C.Reply, bytes: seq<Byte>): seq<L.Event> {
    if reply.Value? then [L.Return(p, reply.value, bytes)] else []
  }

  /** What it is for the descriptors. */
  ghost function SysOf(k: State, e: Event): seq<R.SysEvent> {
    if !Sane(k) || !Enabled(k, e) then []
    else
      match e
      case Only(step) => []
      case Call(p, kind) => if kind.Fork? && !ForkSucceeds(k.procs) then [] else [MakeOf(k, p, kind)]
      case Resume(q, step) => [R.Resume(q, step)]
  }

  ghost function ProcsTrace(k: State, es: seq<Event>): seq<L.Event>
    decreases |es|
  {
    if es == [] then [] else ProcsOf(k, es[0]) + ProcsTrace(Step(k, es[0]), es[1..])
  }

  ghost function SysTrace(k: State, es: seq<Event>): seq<R.SysEvent>
    decreases |es|
  {
    if es == [] then [] else SysOf(k, es[0]) + SysTrace(Step(k, es[0]), es[1..])
  }

  /** One step of a half, or none. */
  ghost predicate ProcsMoved(s: L.State, f: seq<L.Event>, s': L.State)
    requires L.Inv(s)
  {
    (f == [] && s' == s) || (|f| == 1 && L.Enabled(s, f[0]) && L.Regular(s, f[0]) && s' == L.Step(s, f[0]))
  }

  lemma ResumedMoves(k: State, q: PipeId, a: Proc, o: P.Outcome)
    requires Sane(k) && k.procs.halted.No? && a in k.procs.calls && M.Placed(k.procs.memory, a)
    ensures ProcsMoved(k.procs, ProcsOfOutcome(k, q, a, o), Resumed(k, q, a, o).procs)
  {
  }

  lemma ResumeMoves(k: State, q: PipeId, step: P.Event)
    requires Sane(k) && Enabled(k, Resume(q, step))
    ensures ProcsMoved(k.procs, ProcsOf(k, Resume(q, step)), Step(k, Resume(q, step)).procs)
  {
    TakerBusy(k, q, step);
    ResumedMoves(k, q, step.proc, P.Apply(k.sys.pipes[q], step));
  }

  lemma CallMoves(k: State, p: Proc, kind: Kind)
    requires Sane(k) && Enabled(k, Call(p, kind)) && Regular(k, Call(p, kind))
    ensures ProcsMoved(k.procs, ProcsOf(k, Call(p, kind)), Step(k, Call(p, kind)).procs)
  {
  }

  lemma ProcsMove(k: State, e: Event)
    requires Sane(k) && Enabled(k, e) && Regular(k, e)
    ensures ProcsMoved(k.procs, ProcsOf(k, e), Step(k, e).procs)
  {
    match e
    case Only(step) =>
    case Call(p, kind) => CallMoves(k, p, kind);
    case Resume(q, step) => ResumeMoves(k, q, step);
  }

  lemma ProcsPrepend(s: L.State, f: seq<L.Event>, s': L.State, es: seq<L.Event>)
    requires L.Inv(s) && L.Inv(s') && ProcsMoved(s, f, s') && L.Run(s', es)
    ensures L.Run(s, f + es) && L.After(s, f + es) == L.After(s', es)
  {
    if f == [] {
      assert f + es == es;
    } else {
      assert (f + es)[0] == f[0] && (f + es)[1..] == es;
      L.StepInvIff(s, f[0]);
    }
  }

  /** A step is one of the descriptors' steps, or none. */
  lemma SysMoves(k: State, e: Event)
    requires Sane(k) && Enabled(k, e) && Regular(k, e)
    ensures SysOf(k, e) == [] ==> Step(k, e).sys == k.sys
    ensures SysOf(k, e) != [] ==>
              && |SysOf(k, e)| == 1 && R.Possible(k.sys, SysOf(k, e)[0]) && R.Regular(k.sys, SysOf(k, e)[0])
              && Step(k, e).sys == R.Effect(k.sys, SysOf(k, e)[0]).sys
  {
    if e.Resume? { ResumeSys(k, e.q, e.step); }
  }

  lemma SysPrepend(s: D.Sys, f: R.SysEvent, es: seq<R.SysEvent>)
    requires R.Possible(s, f) && R.Regular(s, f) && R.SysRun(R.Effect(s, f).sys, es)
    ensures R.SysRun(s, [f] + es) && R.SysAfter(s, [f] + es) == R.SysAfter(R.Effect(s, f).sys, es)
  {
    assert ([f] + es)[0] == f && ([f] + es)[1..] == es;
  }

  lemma OneSysStep(k: State, e: Event, es: seq<R.SysEvent>)
    requires Sane(k) && Enabled(k, e) && Regular(k, e)
    requires R.SysRun(Step(k, e).sys, es)
    ensures R.SysRun(k.sys, SysOf(k, e) + es)
    ensures R.SysAfter(k.sys, SysOf(k, e) + es) == R.SysAfter(Step(k, e).sys, es)
  {
    SysMoves(k, e);
    var f := SysOf(k, e);
    if f == [] {
      assert f + es == es;
    } else {
      SysPrepend(k.sys, f[0], es);
      assert f == [f[0]];
    }
  }

  /** A run of the kernel is a run of its processes and a run of its descriptors, step for step: what
      holds of every run of either holds here. */
  lemma {:induction false} Projects(k: State, es: seq<Event>)
    requires Inv(k) && Run(k, es)
    ensures L.Run(k.procs, ProcsTrace(k, es)) && L.After(k.procs, ProcsTrace(k, es)) == After(k, es).procs
    ensures R.SysRun(k.sys, SysTrace(k, es)) && R.SysAfter(k.sys, SysTrace(k, es)) == After(k, es).sys
    decreases |es|
  {
    if es != [] {
      StepInvIff(k, es[0]);
      var k1 := Step(k, es[0]);
      Projects(k1, es[1..]);
      ProcsMove(k, es[0]);
      ProcsPrepend(k.procs, ProcsOf(k, es[0]), k1.procs, ProcsTrace(k1, es[1..]));
      OneSysStep(k, es[0], SysTrace(k1, es[1..]));
    }
  }

  // ---------------------------------------------------------------- blocked processes

  /** A process blocked in a pipe read or write is alive, in its call and nowhere else, inside that pipe
      only; the pipe is allocated and the process has an open descriptor for it. */
  lemma BlockedIsAlive(k: State, q: PipeId, p: Proc)
    requires Inv(k) && q in k.sys.pipes && P.Inside(k.sys.pipes[q], p)
    ensures p in k.procs.tree.live && k.procs.calls[p] == 1
    ensures p !in L.OnCpu(k.procs) && p !in k.procs.readyq && p !in k.procs.finishing && p !in k.procs.faulted
    ensures forall q' | q' in k.sys.pipes && P.Inside(k.sys.pipes[q'], p) :: q' == q
    ensures exists f, isRead :: f in k.sys.fds && D.Uses(k.sys.fds, p, f, q, isRead)
  {
    BusyAt(k, q, p);
    L.LiveIf(k.procs, p);
    L.ExactlyOnePlace(k.procs, p);
    var r := k.sys.pipes[q];
    assert D.CallsInv(k.sys.fds, r, q);
    if p in r.w.calls {
      assert D.Uses(k.sys.fds, p, r.w.calls[p].fd, q, false);
    } else {
      assert D.Uses(k.sys.fds, p, r.r.calls[p].fd, q, true);
    }
  }

  // ---------------------------------------------------------------- the end

  /** `dup` has been called on the pipe, and that is all its counts still count. */
  predicate OnlyDupped(p: P.Pipe) {
    p.r.count == p.r.dups && p.w.count == p.w.dups && p.r.dups + p.w.dups > 0
  }

  lemma LeftDupped(s: D.Sys, q: PipeId)
    requires D.SysInv(s) && s.tables.Keys == {} && q in s.pipes
    ensures OnlyDupped(s.pipes[q])
  {
  }

  /** When the scheduler halts the kernel, nobody is alive, and every pipe on which `dup` was never
      called has been freed. */
  lemma HaltLeavesOnlyDupped(k: State, es: seq<Event>)
    requires Inv(k) && Run(k, es) && k.procs.halted.No? && After(k, es).procs.halted.ByScheduler?
    ensures After(k, es).procs.tree.live == {}
    ensures forall q | q in After(k, es).sys.pipes :: OnlyDupped(After(k, es).sys.pipes[q])
  {
    Projects(k, es);
    Runs.HaltsOnlyWhenDead(k.procs, ProcsTrace(k, es));
    var s := After(k, es).sys;
    forall q | q in s.pipes ensures OnlyDupped(s.pipes[q]) {
      LeftDupped(s, q);
    }
  }

  /** Every pipe is a queue at every point of a run of clean steps, whatever the processes do. */
  lemma EveryPipeFifo(k: State, es: seq<Event>)
    requires Boot(k) && Inv(k) && Run(k, es)
    requires R.SysRun(k.sys, SysTrace(k, es)) && R.AllStepsClean(k.sys, SysTrace(k, es))
    ensures forall q | q in After(k, es).sys.pipes ::
              P.PipeInv(After(k, es).sys.pipes[q]) && F.Sound(After(k, es).sys.pipes[q])
  {
    Projects(k, es);
    R.AllPipesFifo(k.sys, SysTrace(k, es));
  }

  // ---------------------------------------------------------------- from memory to memory

  lemma ResumeSys(k: State, q: PipeId, step: P.Event)
    requires Sane(k) && Enabled(k, Resume(q, step))
    ensures Step(k, Resume(q, step)).sys == k.sys.(pipes := k.sys.pipes[q := P.Apply(k.sys.pipes[q], step).pipe])
  {
  }

  /** The byte a blocked writer announces when its space permit comes is the one now in its memory. */
  lemma WriteAnnounces(k: State, q: PipeId, a: Proc)
    requires Sane(k) && Enabled(k, Resume(q, P.TakeSpace(a))) && k.sys.pipes[q].r.count != 0
    ensures var r := k.sys.pipes[q];
      && Busy(k.procs, r, a) && a in r.w.calls && r.w.calls[a].WaitSpace?
      && r.w.calls[a].i < |Buffer(k.procs.memory, a)|
      && q in Step(k, Resume(q, P.TakeSpace(a))).sys.pipes
      && Step(k, Resume(q, P.TakeSpace(a))).sys.pipes[q].w.stored
         == r.w.stored + [Buffer(k.procs.memory, a)[r.w.calls[a].i]]
  {
    BusyAt(k, q, a);
    ResumeSys(k, q, P.TakeSpace(a));
    AnnouncedOnly(k.sys.pipes[q], a);
  }

  lemma AnnouncedOnly(r: P.Pipe, a: Proc)
    requires P.CanTakeSpace(r, a) && r.r.count != 0
    ensures P.TakeSpaceSegment(r, a).pipe.w.stored == r.w.stored + [r.w.calls[a].data[r.w.calls[a].i]]
  {
  }

  lemma ReadLength(r: P.Pipe, a: Proc, wild: Byte)
    requires P.PipeInv(r) && P.CanTakeElement(r, a)
    ensures var o := P.TakeElementSegment(r, a, wild); o.Returned? ==> |o.bytes| <= r.r.calls[a].n
  {
  }

  /** Process `a` is back in the ready queue with `bytes` at the address in register 6 and their number
      in register 2; nothing else of its memory has changed, and nothing of anybody else's. */
  predicate Answered(s: L.State, s': L.State, a: Proc, bytes: seq<Byte>) {
    && M.Placed(s.memory, a) && M.Placed(s'.memory, a)
    && (var m, m' := s.memory, s'.memory;
        && 0 <= m.image[a].regs[6] && m.image[a].regs[6] + |bytes| <= |M.Region(m, a)|
        && M.Region(m', a) == M.Region(m, a)[..m.image[a].regs[6]] + bytes
                              + M.Region(m, a)[m.image[a].regs[6] + |bytes|..]
        && m'.image[a].regs == M.Returned(m.image[a].regs, |bytes|))
    && s'.readyq == s.readyq + [a]
    && forall b | b in s.tree.live && b != a :: M.Untouched(s.memory, s'.memory, b)
  }

  lemma ReturnAnswers(s: L.State, a: Proc, bytes: seq<Byte>)
    requires L.Inv(s) && a in s.calls && M.Placed(s.memory, a)
    requires 0 <= s.memory.image[a].regs[6] && s.memory.image[a].regs[6] + |bytes| <= |M.Region(s.memory, a)|
    ensures Answered(s, L.ReturnStep(s, a, |bytes|, Splice(M.Region(s.memory, a), s.memory.image[a].regs[6], bytes)),
                     a, bytes)
  {
    L.LiveIf(s, a);
    var m := s.memory;
    var region := Splice(M.Region(m, a), m.image[a].regs[6], bytes);
    var regs := M.Returned(m.image[a].regs, |bytes|);
    M.WriteThere(m, a, regs, region);
    forall b | b in s.tree.live && b != a ensures M.Untouched(m, M.Write(m, a, regs, region), b) {
      M.WriteElsewhere(m, s.tree.live, a, regs, region, b);
    }
  }

  lemma ResumedReturns(k: State, q: PipeId, a: Proc, o: P.Outcome)
    requires Sane(k) && k.procs.halted.No? && a in k.procs.calls && M.Placed(k.procs.memory, a) && o.Returned?
    ensures Resumed(k, q, a, o).procs
         == L.ReturnStep(k.procs, a, o.value,
                         Splice(M.Region(k.procs.memory, a), k.procs.memory.image[a].regs[6], o.bytes))
  {
    L.Ready(k.procs, L.Return(a, o.value, AfterRead(k.procs.memory, a, o)));
  }

  lemma OutcomeAnswers(k: State, q: PipeId, a: Proc, o: P.Outcome)
    requires Sane(k) && k.procs.halted.No? && q in k.sys.pipes && Busy(k.procs, k.sys.pipes[q], a)
    requires o.Returned? && o.value == |o.bytes| <= k.procs.memory.image[a].regs[7]
    ensures Answered(k.procs, Resumed(k, q, a, o).procs, a, o.bytes)
  {
    ResumedReturns(k, q, a, o);
    ReturnAnswers(k.procs, a, o.bytes);
  }

  lemma ReadResumed(k: State, q: PipeId, a: Proc, wild: Byte)
    requires Sane(k) && k.procs.halted.No? && R.Possible(k.sys, R.Resume(q, P.TakeElement(a, wild)))
    requires P.CanTakeElement(k.sys.pipes[q], a)
    ensures Busy(k.procs, k.sys.pipes[q], a)
    ensures ResumeSide(k, q, P.TakeElement(a, wild)) == Resumed(k, q, a, P.TakeElementSegment(k.sys.pipes[q], a, wild))
  {
    TakerBusy(k, q, P.TakeElement(a, wild));
  }

  lemma ReadOutcome(r: P.Pipe, a: Proc, wild: Byte)
    requires P.PipeInv(r) && F.Sound(r) && P.CanTakeElement(r, a) && F.Clean(r, P.TakeElement(a, wild))
    requires P.TakeElementSegment(r, a, wild).Returned?
    ensures var o := P.TakeElementSegment(r, a, wild);
      && o.value == |o.bytes| <= r.r.calls[a].n && F.Segment(o.bytes, o.pipe.r.delivered, o.pipe.w.stored)
  {
    F.ReadIsNext(r, a, wild);
    ReadLength(r, a, wild);
  }

  /** A read that returns from a clean step on a sound pipe has put in its process's memory, at the
      address it was given, the announced bytes that come next. */
  lemma ReadDelivers(k: State, q: PipeId, a: Proc, wild: Byte)
    requires Sane(k) && Enabled(k, Resume(q, P.TakeElement(a, wild))) && P.CanTakeElement(k.sys.pipes[q], a)
    requires P.PipeInv(k.sys.pipes[q]) && F.Sound(k.sys.pipes[q])
    requires F.Clean(k.sys.pipes[q], P.TakeElement(a, wild))
    requires P.TakeElementSegment(k.sys.pipes[q], a, wild).Returned?
    ensures var o := P.TakeElementSegment(k.sys.pipes[q], a, wild);
      && F.Segment(o.bytes, o.pipe.r.delivered, o.pipe.w.stored)
      && Answered(k.procs, Step(k, Resume(q, P.TakeElement(a, wild))).procs, a, o.bytes)
  {
    ReadOutcome(k.sys.pipes[q], a, wild);
    ReadResumed(k, q, a, wild);
    OutcomeAnswers(k, q, a, P.TakeElementSegment(k.sys.pipes[q], a, wild));
  }

  /** A descriptor call that answers, or the segment with which a blocked call returns, leaves its process
      last in the ready queue, to go on with the answer in register 2; nobody else notices. */
  lemma AnswerTells(k: State, p: Proc, kind: Kind)
    requires Inv(k) && Enabled(k, Call(p, kind)) && !kind.Fork? && !kind.Exit?
    requires R.Effect(k.sys, MakeOf(k, p, kind)).reply.Value?
    ensures Runs.Resumed(k.procs, Step(k, Call(p, kind)).procs, p, R.Effect(k.sys, MakeOf(k, p, kind)).reply.value)
  {
    var m := k.procs.memory;
    DeliverTells(k.procs, p, R.Effect(k.sys, MakeOf(k, p, kind)).reply,
                 AfterCall(k.sys, p, kind, m.image[p].regs, M.Region(m, p)));
  }

  lemma CallEffect(k: State, p: Proc, kind: Kind)
    requires Inv(k) && Enabled(k, Call(p, kind)) && !kind.Fork? && !kind.Exit?
    ensures Step(k, Call(p, kind)).sys == R.Effect(k.sys, MakeOf(k, p, kind)).sys
  {
  }

  /** `close` closes the slot that register 5 names. */
  lemma CloseObeys(k: State, p: Proc)
    requires Inv(k) && Enabled(k, Call(p, Close)) && C.Open(k.sys, p, k.procs.memory.image[p].regs[5])
    requires !C.Object(k.sys, p, k.procs.memory.image[p].regs[5]).console
    ensures var s', f := Step(k, Call(p, Close)).sys, k.sys.tables[p][k.procs.memory.image[p].regs[5]];
            f in s'.fds && !s'.fds[f].open
  {
    CallEffect(k, p, Close);
    Results.CloseDrops(k.sys, p, k.procs.memory.image[p].regs[5]);
  }

  lemma Dup2Called(k: State, p: Proc)
    requires CanCall(k, p, Dup2)
    ensures C.HasTable(k.sys, p)
    ensures R.Effect(k.sys, MakeOf(k, p, Dup2))
         == C.Dup2(k.sys, p, k.procs.memory.image[p].regs[5], k.procs.memory.image[p].regs[6])
  {
  }

  /** The slot `to` of process `p` shows what its slot `from` showed. */
  predicate Shows(s: D.Sys, s': D.Sys, p: Proc, from: int, to: int) {
    && p in s.tables && p in s'.tables && 0 <= from < |s.tables[p]| && 0 <= to < |s'.tables[p]|
    && s'.tables[p][to] == s.tables[p][from]
  }

  lemma Dup2Shows(s: D.Sys, p: Proc, source: int, slot: int)
    requires D.SysInv(s) && p in s.tables && C.HasTable(s, p) && C.Open(s, p, source) && 0 <= slot < |s.tables[p]|
    ensures Shows(s, C.Dup2(s, p, source, slot).sys, p, source, slot)
  {
    Results.Dup2Shares(s, p, source, slot);
  }

  /** `dup2` makes the slot that register 6 names show what the slot that register 5 names shows. */
  lemma Dup2Obeys(k: State, p: Proc)
    requires Inv(k) && Enabled(k, Call(p, Dup2)) && C.Open(k.sys, p, k.procs.memory.image[p].regs[5])
    requires 0 <= k.procs.memory.image[p].regs[6] < |k.sys.tables[p]|
    ensures var r := k.procs.memory.image[p].regs; Shows(k.sys, Step(k, Call(p, Dup2)).sys, p, r[5], r[6])
  {
    CallEffect(k, p, Dup2);
    Dup2Called(k, p);
    Dup2Shows(k.sys, p, k.procs.memory.image[p].regs[5], k.procs.memory.image[p].regs[6]);
  }

  lemma ReturnTells(k: State, q: PipeId, step: P.Event)
    requires Inv(k) && Enabled(k, Resume(q, step)) && P.Apply(k.sys.pipes[q], step).Returned?
    ensures Runs.Resumed(k.procs, Step(k, Resume(q, step)).procs, step.proc, P.Apply(k.sys.pipes[q], step).value)
  {
    ResumeIs(k, q, step);
    ResumedTells(k, q, step.proc, P.Apply(k.sys.pipes[q], step));
  }

  lemma ResumeIs(k: State, q: PipeId, step: P.Event)
    requires Sane(k) && Enabled(k, Resume(q, step))
    ensures step.proc in k.procs.calls && M.Placed(k.procs.memory, step.proc)
    ensures Step(k, Resume(q, step)) == Resumed(k, q, step.proc, P.Apply(k.sys.pipes[q], step))
  {
    TakerBusy(k, q, step);
  }

  lemma ResumedTells(k: State, q: PipeId, a: Proc, o: P.Outcome)
    requires Inv(k) && k.procs.halted.No? && a in k.procs.calls && M.Placed(k.procs.memory, a) && o.Returned?
    ensures Runs.Resumed(k.procs, Resumed(k, q, a, o).procs, a, o.value)
  {
    DeliverTells(k.procs, a, C.FromOutcome(k.sys, q, o).reply, AfterRead(k.procs.memory, a, o));
  }

  lemma DeliverTells(s: L.State, p: Proc, reply: C.Reply, bytes: seq<Byte>)
    requires L.Inv(s) && s.halted.No? && p in s.calls && |bytes| == M.CHUNK && reply.Value?
    ensures Runs.Resumed(s, Deliver(s, p, reply, bytes), p, reply.value)
  {
    Runs.ReturnResumes(s, p, reply.value, bytes);
  }

  /** The two words at an address of a region. */
  predicate Words(region: seq<Byte>, at: int, r: nat, w: nat) {
    && 0 <= at && at + 8 <= |region|
    && region[at..at + 8] == [r, 0, 0, 0, w, 0, 0, 0]
  }

  lemma SpliceWords(region: seq<Byte>, at: int, r: nat, w: nat)
    requires r < D.SLOTS && w < D.SLOTS && 0 <= at && at + 8 <= |region|
    ensures Words(Splice(region, at, Word(r) + Word(w)), at, r, w)
    ensures Splice(region, at, Word(r) + Word(w))[..at] == region[..at]
    ensures Splice(region, at, Word(r) + Word(w))[at + 8..] == region[at + 8..]
  {
  }

  lemma CallReturns(s: L.State, p: Proc, value: int, bytes: seq<Byte>)
    requires L.Inv(s) && s.halted.No? && p in s.calls && |bytes| == M.CHUNK
    ensures var s' := Deliver(s, p, C.Value(value), bytes);
      && M.Placed(s.memory, p) && M.Placed(s'.memory, p) && M.Region(s'.memory, p) == bytes
      && s'.memory.image[p].regs == M.Returned(s.memory.image[p].regs, value)
  {
    L.Ready(s, L.Return(p, value, bytes));
    M.WriteThere(s.memory, p, M.Returned(s.memory.image[p].regs, value), bytes);
  }

  /** The two words at the address in register 5. */
  function WithWords(m: M.Memory, p: Proc, r: nat, w: nat): seq<Byte>
    requires M.Placed(m, p) && r < D.SLOTS && w < D.SLOTS
  {
    Splice(M.Region(m, p), m.image[p].regs[5], Word(r) + Word(w))
  }

  lemma PipeSlotsFound(k: State, p: Proc)
    requires Inv(k) && CanCall(k, p, Pipe) && Results.TwoClosed(k.sys, p)
    ensures C.HasTable(k.sys, p) && |k.sys.tables[p]| <= D.SLOTS && ReadSlot(k.sys, p) < |k.sys.tables[p]|
    ensures WriteSlot(k.sys, p) < |k.sys.tables[p]| && |M.Region(k.procs.memory, p)| == M.CHUNK
  {
    FirstIsClosed(k.sys, p);
    Results.SecondClosed(k.sys, p);
  }

  lemma PipeSide(k: State, p: Proc)
    requires Inv(k) && CanCall(k, p, Pipe) && Results.TwoClosed(k.sys, p)
    ensures C.HasTable(k.sys, p) && |k.sys.tables[p]| <= D.SLOTS && ReadSlot(k.sys, p) < |k.sys.tables[p]|
    ensures WriteSlot(k.sys, p) < |k.sys.tables[p]| && |M.Region(k.procs.memory, p)| == M.CHUNK
    ensures CallSide(k, p, Pipe)
         == State(Deliver(k.procs, p, C.Value(0),
                          WithWords(k.procs.memory, p, ReadSlot(k.sys, p), WriteSlot(k.sys, p))),
                  C.PipeCall(k.sys, p).sys)
  {
    PipeSlotsFound(k, p);
    Results.PipeOpens(k.sys, p);
  }

  lemma PipeShows(s: D.Sys, p: Proc)
    requires D.SysInv(s) && p in s.tables && C.HasTable(s, p)
    requires ReadSlot(s, p) < |s.tables[p]| && WriteSlot(s, p) < |s.tables[p]|
    ensures var s' := C.PipeCall(s, p).sys;
      && C.HasTable(s', p) && Results.ShowsEnd(s', p, ReadSlot(s, p), s.nextPipe, true)
      && Results.ShowsEnd(s', p, WriteSlot(s, p), s.nextPipe, false)
  {
    Results.SecondSlot(s, p, ReadSlot(s, p), WriteSlot(s, p));
  }

  /** The two words stand at `at`, 0 is in register 2, and the rest of the program's state is as it was. */
  predicate WordsAdded(m: M.Memory, m': M.Memory, p: Proc, at: nat, r: nat, w: nat)
    requires M.Placed(m, p) && M.Placed(m', p) && at + 8 <= M.CHUNK
  {
    var region, region' := M.Region(m, p), M.Region(m', p);
    && m'.image[p].regs == M.Returned(m.image[p].regs, 0)
    && region'[..at] == region[..at] && region'[at + 8..] == region[at + 8..] && Words(region', at, r, w)
  }

  /** What `pipe` puts in its caller's memory are the slots of the two ends it has opened, the read end
      first; register 2 is 0 and no other byte of the region changes. */
  lemma PipeTells(k: State, p: Proc) returns (r: nat, w: nat)
    requires Inv(k) && CanCall(k, p, Pipe) && Results.TwoClosed(k.sys, p)
    requires 0 <= k.procs.memory.image[p].regs[5] <= M.CHUNK - 8
    ensures var k', at := CallSide(k, p, Pipe), k.procs.memory.image[p].regs[5];
      && M.Placed(k'.procs.memory, p) && C.HasTable(k'.sys, p)
      && WordsAdded(k.procs.memory, k'.procs.memory, p, at, r, w)
      && Results.ShowsEnd(k'.sys, p, r, k.sys.nextPipe, true) && Results.ShowsEnd(k'.sys, p, w, k.sys.nextPipe, false)
  {
    PipeSide(k, p);
    r, w := ReadSlot(k.sys, p), WriteSlot(k.sys, p);
    PipeShows(k.sys, p);
    SpliceWords(M.Region(k.procs.memory, p), k.procs.memory.image[p].regs[5], r, w);
    CallReturns(k.procs, p, 0, WithWords(k.procs.memory, p, r, w));
  }

  lemma FirstIsClosed(s: D.Sys, p: Proc)
    requires C.HasTable(s, p) && Results.TwoClosed(s, p)
    ensures ReadSlot(s, p) < |s.tables[p]|
  {
  }

  // ---------------------------------------------------------------- fork

  /** A process that has not returned from the fork that made it makes no call. */
  lemma UnbornKeeps(k: State, e: Event, c: Proc)
    requires Inv(k) && Enabled(k, e) && Regular(k, e) && c in k.procs.finishing && e != Only(L.FinishFork(c))
    ensures c in Step(k, e).procs.finishing && R.Kept(k.sys, Step(k, e).sys, c)
  {
    L.ExactlyOnePlace(k.procs, c);
    if e.Resume? { TakerBusy(k, e.q, e.step); }
    FinishingStays(k, e, c);
    var f := SysOf(k, e);
    if f != [] { R.OthersKept(k.sys, f[0], c); }
  }

  lemma NotFinishing(k: State, e: Event, c: Proc)
    requires Sane(k) && Enabled(k, e) && e != Only(L.FinishFork(c))
    ensures L.FinishFork(c) !in ProcsOf(k, e)
  {
  }

  lemma FinishingStays(k: State, e: Event, c: Proc)
    requires Inv(k) && Enabled(k, e) && Regular(k, e) && c in k.procs.finishing && e != Only(L.FinishFork(c))
    ensures c in Step(k, e).procs.finishing && L.FinishFork(c) !in ProcsOf(k, e)
  {
    NotFinishing(k, e, c);
    ProcsMove(k, e);
    MovedStays(k.procs, ProcsOf(k, e), Step(k, e).procs, c);
  }

  lemma MovedStays(s: L.State, f: seq<L.Event>, s': L.State, c: Proc)
    requires L.Inv(s) && ProcsMoved(s, f, s') && c in s.finishing && L.FinishFork(c) !in f
    ensures c in s'.finishing
  {
    if f != [] { Runs.Unborn(s, f[0], c); }
  }

  lemma {:induction false} UnbornRun(k: State, es: seq<Event>, c: Proc)
    requires Inv(k) && Run(k, es) && c in k.procs.finishing && Only(L.FinishFork(c)) !in es
    ensures c in After(k, es).procs.finishing && R.Kept(k.sys, After(k, es).sys, c)
    ensures L.FinishFork(c) !in ProcsTrace(k, es)
    decreases |es|
  {
    if es != [] {
      var k1 := Step(k, es[0]);
      StepInvIff(k, es[0]);
      UnbornKeeps(k, es[0], c);
      FinishingStays(k, es[0], c);
      UnbornRun(k1, es[1..], c);
      R.KeptThen(k.sys, k1.sys, After(k, es).sys, c);
      assert ProcsTrace(k, es) == ProcsOf(k, es[0]) + ProcsTrace(k1, es[1..]);
    }
  }

  /** Slot `i` of the child holds its own object, which says what the parent's said. */
  predicate SameSlot(s: D.Sys, p: Proc, s': D.Sys, c: Proc, i: nat)
    requires C.HasTable(s, p) && c in s'.tables && |s'.tables[c]| == |s.tables[p]| && i < |s.tables[p]|
  {
    var g := s'.tables[c][i];
    g !in s.fds && g in s'.fds && s'.fds[g] == s.fds[s.tables[p][i]].(owner := c)
  }

  /** The table of `c` in `s'` shows, in objects of its own, what that of `p` shows in `s`. */
  predicate SameTable(s: D.Sys, p: Proc, s': D.Sys, c: Proc) {
    && C.HasTable(s, p) && c in s'.tables && |s'.tables[c]| == |s.tables[p]|
    && forall i | 0 <= i < |s.tables[p]| :: SameSlot(s, p, s', c, i)
  }

  /** Fork duplicates: when the child goes on its way, after whatever else has happened since, its
      registers are those its parent had but for 0 in register 2, its memory holds the bytes its
      parent's held, and its table shows, in objects of its own, what its parent's showed. */
  lemma ForkDuplicates(k: State, p: Proc, es: seq<Event>)
    requires Inv(k) && Regular(k, Call(p, Fork)) && ForkSucceeds(k.procs)
    requires Run(Step(k, Call(p, Fork)), es) && After(Step(k, Call(p, Fork)), es).procs.halted.No?
    requires Only(L.FinishFork(k.procs.tree.next)) !in es
    ensures var c := k.procs.tree.next;
            var k2 := After(Step(k, Call(p, Fork)), es);
      && Enabled(k2, Only(L.FinishFork(c)))
      && Runs.ReturnsWith(k.procs.memory, p, Step(k2, Only(L.FinishFork(c))).procs.memory, c, 0)
      && SameTable(k.sys, p, k2.sys, c)
  {
    ForkedTable(k, p, es);
    ForkedProgram(k, p, es);
  }

  lemma ForkedTable(k: State, p: Proc, es: seq<Event>)
    requires Inv(k) && Regular(k, Call(p, Fork)) && ForkSucceeds(k.procs)
    requires Run(Step(k, Call(p, Fork)), es) && Only(L.FinishFork(k.procs.tree.next)) !in es
    ensures SameTable(k.sys, p, After(Step(k, Call(p, Fork)), es).sys, k.procs.tree.next)
  {
    var k1 := Step(k, Call(p, Fork));
    BornIntoFinish(k, p);
    UnbornRun(k1, es, k.procs.tree.next);
    ForkSys(k, p);
    ForkSlotsSame(k.sys, p, After(k1, es).sys);
  }

  lemma ForkedProgram(k: State, p: Proc, es: seq<Event>)
    requires Inv(k) && Regular(k, Call(p, Fork)) && ForkSucceeds(k.procs)
    requires Run(Step(k, Call(p, Fork)), es) && After(Step(k, Call(p, Fork)), es).procs.halted.No?
    requires Only(L.FinishFork(k.procs.tree.next)) !in es
    ensures var c, k2 := k.procs.tree.next, After(Step(k, Call(p, Fork)), es);
      && Enabled(k2, Only(L.FinishFork(c)))
      && Runs.ReturnsWith(k.procs.memory, p, Step(k2, Only(L.FinishFork(c))).procs.memory, c, 0)
  {
    var c, k1 := k.procs.tree.next, Step(k, Call(p, Fork));
    BornIntoFinish(k, p);
    UnbornRun(k1, es, c);
    Projects(k1, es);
    Duplicated(k.procs, p, k1.procs, ProcsTrace(k1, es));
    FinishIs(After(k1, es), c);
  }

  lemma FinishIs(k: State, c: Proc)
    requires Inv(k) && L.Enabled(k.procs, L.FinishFork(c))
    ensures Enabled(k, Only(L.FinishFork(c)))
    ensures Step(k, Only(L.FinishFork(c))).procs == L.Step(k.procs, L.FinishFork(c))
  {
  }

  lemma Duplicated(s: L.State, p: Proc, s1: L.State, es: seq<L.Event>)
    requires L.Inv(s) && L.Enabled(s, L.DoFork(p)) && s1 == L.Step(s, L.DoFork(p)) && L.Inv(s1) && L.Run(s1, es)
    requires |s.memory.chunks| == M.CHUNKS && ForkSucceeds(s) && |s.tree.rbtree| < T.PIDS
    requires L.FinishFork(s.tree.next) !in es && L.After(s1, es).halted.No?
    ensures var s2, e := L.After(s1, es), L.FinishFork(s.tree.next);
            L.Inv(s2) && L.Enabled(s2, e) && Runs.ReturnsWith(s.memory, p, L.Step(s2, e).memory, s.tree.next, 0)
  {
    L.RunInv(s1, es);
    Runs.ForkCopies(s, p, es);
  }

  lemma BornIntoFinish(k: State, p: Proc)
    requires Inv(k) && Regular(k, Call(p, Fork)) && ForkSucceeds(k.procs)
    ensures Inv(Step(k, Call(p, Fork))) && Step(k, Call(p, Fork)).procs == L.Step(k.procs, L.DoFork(p))
    ensures k.procs.tree.next in Step(k, Call(p, Fork)).procs.finishing && |k.procs.tree.rbtree| < T.PIDS
    ensures |k.procs.memory.chunks| == M.CHUNKS
  {
    L.Ready(k.procs, L.DoFork(p));
    StepInvIff(k, Call(p, Fork));
  }

  lemma SlotSame(s: D.Sys, p: Proc, s1: D.Sys, s2: D.Sys, c: Proc, i: nat)
    requires C.HasTable(s, p) && c in s1.tables && |s1.tables[c]| == |s.tables[p]| && i < |s.tables[p]|
    requires C.Copied(s, s.tables[p], s1, c, 0, i) && s1.tables[c][i] !in s.fds && R.Kept(s1, s2, c)
    ensures c in s2.tables && |s2.tables[c]| == |s.tables[p]| && SameSlot(s, p, s2, c, i)
  {
  }

  lemma ForkSlotsSame(s: D.Sys, p: Proc, s2: D.Sys)
    requires D.SysInv(s) && p in s.tables && C.HasTable(s, p) && s.nextProc !in s.tables
    requires R.Kept(C.Fork(s, p, s.nextProc), s2, s.nextProc)
    ensures SameTable(s, p, s2, s.nextProc)
  {
    var c := s.nextProc;
    C.ForkCopies(s, p);
    var s1 := C.Fork(s, p, c);
    forall i | 0 <= i < |s.tables[p]| ensures SameSlot(s, p, s2, c, i) {
      SlotSame(s, p, s1, s2, c, i);
    }
  }
}
