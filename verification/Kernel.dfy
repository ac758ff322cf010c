/** Processes and descriptors together: every call is made by the one kernel thread its process has,
    with the arguments in that process's registers and memory. */
module Kernel {
  import opened Base
  import P = PipeProtocol
  import F = PipeFifo
  import D = Descriptors
  import C = DescriptorCalls
  import R = DescriptorRuns
  import T = ProcessTree
  import M = UserMemory
  import L = Processes
  import Runs = ProcessRuns

  datatype State = State(procs: L.State, sys: D.Sys)

  datatype Kind = Pipe | Close | Dup | Dup2 | Write | Read | Fork | Exit

  /** A step of processes alone (user code, scheduling, `finish_fork`, `do_wait`, and calls that touch no
      pipe descriptor), a descriptor call, or a blocked call going on. */
  datatype Event =
    | Only(what: L.Event)
    | Call(proc: Proc, kind: Kind)
    | Resume(q: PipeId, step: P.Event)

  // ---------------------------------------------------------------- arguments and results

  /** The buffer of a read or write lies in the caller's region. */
  predicate InRegion(regs: seq<int>, region: seq<Byte>)
    requires |regs| == M.REGISTERS
  {
    0 <= regs[6] && 0 <= regs[7] && regs[6] + regs[7] <= |region|
  }

  /** The call a process makes, from its registers and, for a write, its bytes. */
  function CallOf(kind: Kind, regs: seq<int>, region: seq<Byte>): R.SysCall
    requires |regs| == M.REGISTERS && ((kind.Write? || kind.Read?) ==> InRegion(regs, region))
  {
    match kind
    case Pipe => R.CallPipe
    case Close => R.CallClose(regs[5])
    case Dup => R.CallDup(regs[5])
    case Dup2 => R.CallDup2(regs[5], regs[6])
    case Write => R.CallWrite(regs[5], region[regs[6]..regs[6] + regs[7]])
    case Read => R.CallRead(regs[5], regs[7])
    case Fork => R.CallFork
    case Exit => R.CallExit
  }

  /** The number in register 4 that asks for it. */
  function Number(kind: Kind): int {
    match kind
    case Pipe => SYS_PIPE
    case Close => SYS_CLOSE
    case Dup => SYS_DUP
    case Dup2 => SYS_DUP2
    case Write => SYS_WRITE
    case Read => SYS_READ
    case Fork => SYS_FORK
    case Exit => SYS_EXIT
  }

  predicate Known(number: int) {
    number == SYS_WAIT || number in OTHER_CALLS || exists kind: Kind :: Number(kind) == number
  }

  /** Calls that go nowhere near a pipe: those not modelled, and reads and writes of the console or of a
      buffer outside the region. */
  predicate AnswersElsewhere(s: D.Sys, p: Proc, regs: seq<int>, region: seq<Byte>)
    requires |regs| == M.REGISTERS
  {
    || regs[M.TYPE] in OTHER_CALLS
    || ((regs[M.TYPE] == SYS_READ || regs[M.TYPE] == SYS_WRITE)
        && (!InRegion(regs, region)
            || (C.HasTable(s, p) && C.Open(s, p, regs[5]) && C.Object(s, p, regs[5]).console)))
  }

  /** The bytes put at an address of the region (addresses that leave it are not modelled). */
  function Splice(region: seq<Byte>, at: int, bytes: seq<Byte>): (r: seq<Byte>)
    ensures |r| == |region|
  {
    if 0 <= at && at + |bytes| <= |region| then region[..at] + bytes + region[at + |bytes|..] else region
  }

  /** A slot number as the four bytes of an `int`, least significant first. */
  function Word(slot: nat): (w: seq<Byte>)
    requires slot < D.SLOTS
    ensures |w| == 4 && w[0] == slot
  {
    [slot, 0, 0, 0]
  }

  /** The two slots `do_pipe` opens. */
  function ReadSlot(s: D.Sys, p: Proc): nat
    requires C.HasTable(s, p)
  {
    C.FirstClosed(s.tables[p], s.fds)
  }

  function WriteSlot(s: D.Sys, p: Proc): nat
    requires C.HasTable(s, p) && ReadSlot(s, p) < |s.tables[p]|
  {
    var f := s.tables[p][ReadSlot(s, p)];
    C.FirstClosed(s.tables[p], s.fds[f := s.fds[f].(open := true)])
  }

  /** What is in the caller's region when a call returns at once: only `do_pipe` puts anything there. */
  function AfterCall(s: D.Sys, p: Proc, kind: Kind, regs: seq<int>, region: seq<Byte>): (r: seq<Byte>)
    requires C.HasTable(s, p) && |s.tables[p]| <= D.SLOTS && |regs| == M.REGISTERS
    ensures |r| == |region|
  {
    if kind.Pipe? && ReadSlot(s, p) < |s.tables[p]| && WriteSlot(s, p) < |s.tables[p]| then
      Splice(region, regs[5], Word(ReadSlot(s, p)) + Word(WriteSlot(s, p)))
    else region
  }

  // ---------------------------------------------------------------- the invariant

  /** A process inside a pipe is still the caller, and its registers and memory still hold the arguments
      its call was made with. */
  predicate Busy(s: L.State, p: P.Pipe, a: Proc) {
    && a in s.calls && M.Placed(s.memory, a) && InRegion(s.memory.image[a].regs, M.Region(s.memory, a))
    && (a in p.w.calls ==> p.w.calls[a].data == Buffer(s.memory, a))
    && (a in p.r.calls ==> p.r.calls[a].n == s.memory.image[a].regs[7])
  }

  /** The bytes that registers 6 and 7 describe. */
  function Buffer(m: M.Memory, a: Proc): seq<Byte>
    requires M.Placed(m, a) && InRegion(m.image[a].regs, M.Region(m, a))
  {
    M.Region(m, a)[m.image[a].regs[6]..m.image[a].regs[6] + m.image[a].regs[7]]
  }

  ghost predicate Coupled(s: L.State, pipes: map<PipeId, P.Pipe>) {
    forall q, p | q in pipes && P.Inside(pipes[q], p) :: Busy(s, pipes[q], p)
  }

  ghost predicate Inv(k: State) {
    && L.Inv(k.procs) && D.SysInv(k.sys)
    && k.sys.tables.Keys == k.procs.tree.live && k.sys.nextProc == k.procs.tree.next
    && Coupled(k.procs, k.sys.pipes)
  }

  /** As much of it as a step needs. */
  ghost predicate Sane(k: State) {
    L.Inv(k.procs) && Coupled(k.procs, k.sys.pipes) && D.TablesInv(k.sys.tables, k.sys.fds, k.sys.nextProc)
  }

  // ---------------------------------------------------------------- the steps

  /** A process step that ends a call is not for one blocked in a pipe; fork and exit touch descriptors. */
  predicate Alone(pipes: map<PipeId, P.Pipe>, e: L.Event) {
    match e
    case Return(p, _, _) => D.Idle(pipes, p)
    case DoWait(p) => D.Idle(pipes, p)
    case DoFork(_) => false
    case DoExit(_) => false
    case _ => true
  }

  predicate Running(k: State) { k.procs.curr.Some? && M.Placed(k.procs.memory, k.procs.curr.value) }

  /** What a trap does, and which call goes on, is decided by register 4 of the process. */
  predicate Asked(k: State, e: L.Event) {
    var m := k.procs.memory;
    match e
    case Trap => Running(k) && Known(m.image[k.procs.curr.value].regs[M.TYPE])
    case AskHalt => Running(k) && !Known(m.image[k.procs.curr.value].regs[M.TYPE])
    case Return(p, _, _) => M.Placed(m, p) && AnswersElsewhere(k.sys, p, m.image[p].regs, M.Region(m, p))
    case DoWait(p) => M.Placed(m, p) && m.image[p].regs[M.TYPE] == SYS_WAIT
    case _ => true
  }

  predicate CanCall(k: State, p: Proc, kind: Kind) {
    && p in k.procs.calls && k.procs.halted.No? && M.Placed(k.procs.memory, p)
    && k.procs.memory.image[p].regs[M.TYPE] == Number(kind)
    && ((kind.Write? || kind.Read?) ==> InRegion(k.procs.memory.image[p].regs, M.Region(k.procs.memory, p)))
    && R.Possible(k.sys, R.Make(p, CallOf(kind, k.procs.memory.image[p].regs, M.Region(k.procs.memory, p))))
  }

  function MakeOf(k: State, p: Proc, kind: Kind): R.SysEvent
    requires CanCall(k, p, kind)
  {
    R.Make(p, CallOf(kind, k.procs.memory.image[p].regs, M.Region(k.procs.memory, p)))
  }

  predicate Enabled(k: State, e: Event) {
    match e
    case Only(step) => L.Enabled(k.procs, step) && Alone(k.sys.pipes, step) && Asked(k, step)
    case Call(p, kind) => CanCall(k, p, kind)
    case Resume(q, step) => k.procs.halted.No? && R.Possible(k.sys, R.Resume(q, step))
  }

  /** The fork has a memory chunk to give the child. */
  predicate ForkSucceeds(s: L.State) {
    M.FreeChunk(s.memory.chunks, 0) < |s.memory.chunks|
  }

  /** The caller's side of a reply; `bytes` is its region as the call leaves it. */
  ghost function Deliver(s: L.State, p: Proc, reply: C.Reply, bytes: seq<Byte>): L.State
    requires L.Inv(s) && s.halted.No? && p in s.calls && |bytes| == M.CHUNK
  {
    if reply.Value? then L.Step(s, L.Return(p, reply.value, bytes)) else s
  }

  lemma TakerBusy(k: State, q: PipeId, step: P.Event)
    requires Sane(k) && R.Possible(k.sys, R.Resume(q, step))
    ensures P.Inside(k.sys.pipes[q], step.proc) && Busy(k.procs, k.sys.pipes[q], step.proc)
  {
    R.TakerInside(k.sys.pipes[q], step);
  }

  ghost function ForkSide(k: State, p: Proc): State
    requires Sane(k) && CanCall(k, p, Fork)
  {
    State(L.Step(k.procs, L.DoFork(p)),
          if ForkSucceeds(k.procs) then R.Effect(k.sys, MakeOf(k, p, Fork)).sys else k.sys)
  }

  ghost function ExitSide(k: State, p: Proc): State
    requires Sane(k) && CanCall(k, p, Exit)
  {
    State(L.Step(k.procs, L.DoExit(p)), R.Effect(k.sys, MakeOf(k, p, Exit)).sys)
  }

  ghost function CallSide(k: State, p: Proc, kind: Kind): State
    requires Sane(k) && CanCall(k, p, kind)
  {
    var r := R.Effect(k.sys, MakeOf(k, p, kind));
    var m := k.procs.memory;
    State(Deliver(k.procs, p, r.reply, AfterCall(k.sys, p, kind, m.image[p].regs, M.Region(m, p))), r.sys)
  }

  /** A segment of `a`'s call on pipe `q` has ended; a read that returns has put its bytes at the address
      in register 6. */
  ghost function Resumed(k: State, q: PipeId, a: Proc, o: P.Outcome): State
    requires L.Inv(k.procs) && k.procs.halted.No? && a in k.procs.calls && M.Placed(k.procs.memory, a)
  {
    State(Deliver(k.procs, a, C.FromOutcome(k.sys, q, o).reply, AfterRead(k.procs.memory, a, o)),
          C.FromOutcome(k.sys, q, o).sys)
  }

  function AfterRead(m: M.Memory, a: Proc, o: P.Outcome): (r: seq<Byte>)
    requires M.Placed(m, a)
    ensures |r| == M.CHUNK
  {
    Splice(M.Region(m, a), m.image[a].regs[6], if o.Returned? then o.bytes else [])
  }

  ghost function ResumeSide(k: State, q: PipeId, step: P.Event): State
    requires Sane(k) && k.procs.halted.No? && R.Possible(k.sys, R.Resume(q, step))
  {
    TakerBusy(k, q, step);
    Resumed(k, q, step.proc, P.Apply(k.sys.pipes[q], step))
  }

  ghost function CallStep(k: State, p: Proc, kind: Kind): State
    requires Sane(k) && CanCall(k, p, kind)
  {
    if kind.Fork? then ForkSide(k, p) else if kind.Exit? then ExitSide(k, p) else CallSide(k, p, kind)
  }

  /** A step that may not happen changes nothing. */
  ghost function Step(k: State, e: Event): State {
    if !Sane(k) || !Enabled(k, e) then k
    else
      match e
      case Only(step) => k.(procs := L.Step(k.procs, step))
      case Call(p, kind) => CallStep(k, p, kind)
      case Resume(q, step) => ResumeSide(k, q, step)
  }

  /** The calls that go wrong: those of DescriptorRuns, and a fork that finds no identifier. */
  predicate CallRegular(k: State, p: Proc, kind: Kind)
    requires CanCall(k, p, kind)
  {
    R.Regular(k.sys, MakeOf(k, p, kind)) && (kind.Fork? ==> L.Regular(k.procs, L.DoFork(p)))
  }

  predicate Regular(k: State, e: Event) {
    Enabled(k, e) && (e.Call? ==> CallRegular(k, e.proc, e.kind))
  }

  // ---------------------------------------------------------------- every step keeps the invariant

  lemma BusyAt(k: State, q: PipeId, a: Proc)
    requires Sane(k) && q in k.sys.pipes && P.Inside(k.sys.pipes[q], a)
    ensures Busy(k.procs, k.sys.pipes[q], a) && !D.Idle(k.sys.pipes, a)
  {
  }

  /** Nothing that happens to others disturbs the arguments of a blocked call. */
  lemma BusyStays(s: L.State, s': L.State, p: P.Pipe, p': P.Pipe, a: Proc)
    requires Busy(s, p, a) && C.Carried(p, p', a) && a in s'.calls && M.Untouched(s.memory, s'.memory, a)
    ensures Busy(s', p', a)
  {
  }

  /** A caller for whom a step does not work is a caller after it, with its registers and bytes. */
  lemma CallerStays(s: L.State, e: L.Event, a: Proc)
    requires L.Inv(s) && L.Enabled(s, e) && L.Regular(s, e) && a in s.calls
    requires (e.Return? || e.DoWait? || e.DoFork? || e.DoExit?) ==> e.proc != a
    ensures a in L.Step(s, e).calls && M.Untouched(s.memory, L.Step(s, e).memory, a)
  {
    L.LiveIf(s, a);
    L.ExactlyOnePlace(s, a);
    Runs.Isolation(s, e, a);
    CallsStep(s, e, a);
  }

  lemma CallsStep(s: L.State, e: L.Event, a: Proc)
    requires L.Inv(s) && L.Enabled(s, e) && a in s.calls
    requires (e.Return? || e.DoWait? || e.DoFork? || e.DoExit?) ==> e.proc != a
    ensures a in L.Step(s, e).calls
  {
    L.Ready(s, e);
    if !e.DoExit? && !e.DoFork? && !e.DoWait? { OthersCallsStep(s, e, a); }
  }

  lemma OthersCallsStep(s: L.State, e: L.Event, a: Proc)
    requires L.Inv(s) && L.Enabled(s, e) && a in s.calls && !e.DoExit? && !e.DoFork? && !e.DoWait?
    requires e.Return? ==> e.proc != a
    ensures a in L.Step(s, e).calls
  {
  }

  lemma OnlyInv(k: State, step: L.Event)
    requires Inv(k) && Enabled(k, Only(step))
    ensures Inv(Step(k, Only(step)))
  {
    L.StepInvIff(k.procs, step);
    SameTree(k.procs, step);
    var s' := L.Step(k.procs, step);
    forall q, a | q in k.sys.pipes && P.Inside(k.sys.pipes[q], a) ensures Busy(s', k.sys.pipes[q], a) {
      OnlyBusy(k, step, q, a);
    }
  }

  lemma OnlyBusy(k: State, step: L.Event, q: PipeId, a: Proc)
    requires Inv(k) && Enabled(k, Only(step)) && q in k.sys.pipes && P.Inside(k.sys.pipes[q], a)
    ensures Busy(L.Step(k.procs, step), k.sys.pipes[q], a)
  {
    BusyAt(k, q, a);
    CallerStays(k.procs, step, a);
    BusyStays(k.procs, L.Step(k.procs, step), k.sys.pipes[q], k.sys.pipes[q], a);
  }

  lemma SameTree(s: L.State, step: L.Event)
    requires L.Inv(s) && L.Enabled(s, step) && !step.DoFork? && !step.DoExit?
    ensures L.Step(s, step).tree.live == s.tree.live && L.Step(s, step).tree.next == s.tree.next
  {
    L.Ready(s, step);
    match step
    case Schedule =>
    case Execute(_, _) =>
    case Trap =>
    case AskHalt =>
    case Fault =>
    case Interrupt =>
    case Return(_, _, _) =>
    case FinishFork(_) =>
    case DoWait(_) =>
  }

  lemma DeliverInv(s: L.State, p: Proc, reply: C.Reply, bytes: seq<Byte>)
    requires L.Inv(s) && s.halted.No? && p in s.calls && |bytes| == M.CHUNK
    ensures L.Inv(Deliver(s, p, reply, bytes)) && Deliver(s, p, reply, bytes).tree == s.tree
  {
    if reply.Value? {
      L.Ready(s, L.Return(p, reply.value, bytes));
      L.ReturnInv(s, p, reply.value, bytes);
    }
  }

  lemma DeliverBusy(s: L.State, p: Proc, reply: C.Reply, bytes: seq<Byte>, r: P.Pipe, r': P.Pipe, a: Proc)
    requires L.Inv(s) && s.halted.No? && p in s.calls && |bytes| == M.CHUNK
    requires Busy(s, r, a) && C.Carried(r, r', a) && (reply.Value? ==> a != p)
    ensures Busy(Deliver(s, p, reply, bytes), r', a)
  {
    if reply.Value? {
      CallerStays(s, L.Return(p, reply.value, bytes), a);
    } else {
      L.LiveIf(s, a);
      Runs.SameUntouched(s.memory, s.tree.live, a);
    }
    BusyStays(s, Deliver(s, p, reply, bytes), r, r', a);
  }

  /** The newcomer finds the arguments its call was made with. */
  lemma NewcomerBusy(k: State, p: Proc, kind: Kind, q: PipeId)
    requires Inv(k) && CanCall(k, p, kind) && (kind.Write? || kind.Read?)
    requires q in R.Effect(k.sys, MakeOf(k, p, kind)).sys.pipes
    ensures Busy(k.procs, R.Effect(k.sys, MakeOf(k, p, kind)).sys.pipes[q], p)
  {
    R.CallBegins(k.sys, p, MakeOf(k, p, kind).call, q);
  }

  lemma ArrivedBusy(k: State, p: Proc, kind: Kind, q: PipeId)
    requires Inv(k) && CanCall(k, p, kind) && R.Regular(k.sys, MakeOf(k, p, kind))
    requires var r := R.Effect(k.sys, MakeOf(k, p, kind)); r.reply.Pending? && q in r.sys.pipes
    ensures Busy(k.procs, R.Effect(k.sys, MakeOf(k, p, kind)).sys.pipes[q], p)
  {
    R.PendingOnly(k.sys, p, MakeOf(k, p, kind).call);
    NewcomerBusy(k, p, kind, q);
  }

  /** One that was inside already keeps its place and its arguments. */
  lemma StayedBusy(k: State, p: Proc, reply: C.Reply, pipes: map<PipeId, P.Pipe>, q: PipeId, a: Proc, bytes: seq<Byte>)
    requires Inv(k) && k.procs.halted.No? && p in k.procs.calls && |bytes| == M.CHUNK && D.Idle(k.sys.pipes, p)
    requires q in pipes && q in k.sys.pipes && P.Inside(k.sys.pipes[q], a) && C.Carried(k.sys.pipes[q], pipes[q], a)
    ensures Busy(Deliver(k.procs, p, reply, bytes), pipes[q], a)
  {
    BusyAt(k, q, a);
    DeliverBusy(k.procs, p, reply, bytes, k.sys.pipes[q], pipes[q], a);
  }

  lemma CallBusy(k: State, p: Proc, kind: Kind, q: PipeId, a: Proc, bytes: seq<Byte>)
    requires Inv(k) && CanCall(k, p, kind) && !kind.Fork? && !kind.Exit? && |bytes| == M.CHUNK
    requires R.Regular(k.sys, MakeOf(k, p, kind))
    requires var r := R.Effect(k.sys, MakeOf(k, p, kind)); q in r.sys.pipes && P.Inside(r.sys.pipes[q], a)
    ensures var r := R.Effect(k.sys, MakeOf(k, p, kind)); Busy(Deliver(k.procs, p, r.reply, bytes), r.sys.pipes[q], a)
  {
    var r := R.Effect(k.sys, MakeOf(k, p, kind));
    R.CallFramed(k.sys, p, MakeOf(k, p, kind).call);
    assert R.Stayed(k.sys.pipes, r.sys.pipes, q, a, R.Newcomer(r, p));
    if R.Newcomer(r, p) == Some(a) {
      ArrivedBusy(k, p, kind, q);
    } else {
      StayedBusy(k, p, r.reply, r.sys.pipes, q, a, bytes);
    }
  }

  lemma CallInv(k: State, p: Proc, kind: Kind)
    requires Inv(k) && CanCall(k, p, kind) && !kind.Fork? && !kind.Exit? && R.Regular(k.sys, MakeOf(k, p, kind))
    ensures Inv(CallSide(k, p, kind))
  {
    var r := R.Effect(k.sys, MakeOf(k, p, kind));
    var m := k.procs.memory;
    var bytes := AfterCall(k.sys, p, kind, m.image[p].regs, M.Region(m, p));
    R.StepInvIff(k.sys, MakeOf(k, p, kind));
    R.CallFramed(k.sys, p, MakeOf(k, p, kind).call);
    DeliverInv(k.procs, p, r.reply, bytes);
    forall q, a | q in r.sys.pipes && P.Inside(r.sys.pipes[q], a)
      ensures Busy(Deliver(k.procs, p, r.reply, bytes), r.sys.pipes[q], a)
    {
      CallBusy(k, p, kind, q, a, bytes);
    }
  }

  lemma ResumedInv(k: State, q: PipeId, a: Proc, o: P.Outcome)
    requires Inv(k) && k.procs.halted.No? && a in k.procs.calls && M.Placed(k.procs.memory, a)
    requires var s' := C.FromOutcome(k.sys, q, o).sys;
             D.SysInv(s') && R.Framed(k.sys, s', None) && (o.Returned? ==> D.Idle(s'.pipes, a))
    ensures Inv(Resumed(k, q, a, o))
  {
    var r := C.FromOutcome(k.sys, q, o);
    var bytes := AfterRead(k.procs.memory, a, o);
    DeliverInv(k.procs, a, r.reply, bytes);
    forall q', b | q' in r.sys.pipes && P.Inside(r.sys.pipes[q'], b)
      ensures Busy(Deliver(k.procs, a, r.reply, bytes), r.sys.pipes[q'], b)
    {
      assert R.Stayed(k.sys.pipes, r.sys.pipes, q', b, None);
      BusyAt(k, q', b);
      DeliverBusy(k.procs, a, r.reply, bytes, k.sys.pipes[q'], r.sys.pipes[q'], b);
    }
  }

  lemma ResumeInv(k: State, q: PipeId, step: P.Event)
    requires Inv(k) && k.procs.halted.No? && R.Possible(k.sys, R.Resume(q, step))
    ensures Inv(ResumeSide(k, q, step))
  {
    TakerBusy(k, q, step);
    R.StepInvIff(k.sys, R.Resume(q, step));
    R.ResumeFramed(k.sys, q, step);
    ResumedInv(k, q, step.proc, P.Apply(k.sys.pipes[q], step));
  }

  /** Fork and exit are calls of a process that is inside no pipe, and leave who is inside alone. */
  lemma FamilyBusy(k: State, e: L.Event, pipes': map<PipeId, P.Pipe>, q: PipeId, a: Proc)
    requires Sane(k) && L.Enabled(k.procs, e) && L.Regular(k.procs, e) && (e.DoFork? || e.DoExit?)
    requires D.Idle(k.sys.pipes, e.proc) && D.SameInside(k.sys.pipes, pipes') && q in pipes' && P.Inside(pipes'[q], a)
    ensures Busy(L.Step(k.procs, e), pipes'[q], a)
  {
    BusyAt(k, q, a);
    CallerStays(k.procs, e, a);
    BusyStays(k.procs, L.Step(k.procs, e), k.sys.pipes[q], pipes'[q], a);
  }

  lemma ForkLive(s: L.State, p: Proc)
    requires L.Inv(s) && L.Enabled(s, L.DoFork(p))
    ensures var t := L.Step(s, L.DoFork(p)).tree;
            if ForkSucceeds(s) then t.live == s.tree.live + {s.tree.next} && t.next == s.tree.next + 1 else t == s.tree
  {
  }

  lemma ForkTables(s: D.Sys, p: Proc)
    requires D.SysInv(s) && p in s.tables
    ensures C.HasTable(s, p) && s.nextProc !in s.tables
    ensures var s' := C.Fork(s, p, s.nextProc);
            && D.SysInv(s') && D.SameInside(s.pipes, s'.pipes)
            && s'.tables.Keys == s.tables.Keys + {s.nextProc} && s'.nextProc == s.nextProc + 1
  {
    C.ForkInv(s, p);
    C.ForkCopies(s, p);
  }

  lemma ForkSys(k: State, p: Proc)
    requires Sane(k) && CanCall(k, p, Fork)
    ensures ForkSide(k, p).procs == L.Step(k.procs, L.DoFork(p))
    ensures C.HasTable(k.sys, p) && k.sys.nextProc !in k.sys.tables
    ensures ForkSide(k, p).sys == if ForkSucceeds(k.procs) then C.Fork(k.sys, p, k.sys.nextProc) else k.sys
  {
  }

  lemma NobodyMoves(pipes: map<PipeId, P.Pipe>)
    ensures D.SameInside(pipes, pipes)
  {
  }

  lemma ForkPipes(k: State, p: Proc)
    requires Inv(k) && CanCall(k, p, Fork)
    ensures D.SysInv(ForkSide(k, p).sys) && D.SameInside(k.sys.pipes, ForkSide(k, p).sys.pipes)
  {
    ForkSys(k, p);
    NobodyMoves(k.sys.pipes);
    ForkTables(k.sys, p);
  }

  lemma ForkKeys(k: State, p: Proc)
    requires Inv(k) && CanCall(k, p, Fork)
    ensures ForkSide(k, p).sys.tables.Keys == ForkSide(k, p).procs.tree.live
    ensures ForkSide(k, p).sys.nextProc == ForkSide(k, p).procs.tree.next
  {
    ForkSys(k, p);
    ForkLive(k.procs, p);
    ForkTables(k.sys, p);
  }

  lemma ForkInv(k: State, p: Proc)
    requires Inv(k) && CanCall(k, p, Fork) && L.Regular(k.procs, L.DoFork(p))
    ensures Inv(ForkSide(k, p))
  {
    var k' := ForkSide(k, p);
    L.StepInvIff(k.procs, L.DoFork(p));
    ForkKeys(k, p);
    ForkPipes(k, p);
    forall q, a | q in k'.sys.pipes && P.Inside(k'.sys.pipes[q], a) ensures Busy(k'.procs, k'.sys.pipes[q], a) {
      FamilyBusy(k, L.DoFork(p), k'.sys.pipes, q, a);
    }
  }

  lemma ExitLive(s: L.State, p: Proc)
    requires L.Inv(s) && L.Enabled(s, L.DoExit(p))
    ensures L.Step(s, L.DoExit(p)).tree.live == s.tree.live - {p} && L.Step(s, L.DoExit(p)).tree.next == s.tree.next
  {
    L.Ready(s, L.DoExit(p));
  }

  lemma ExitKeys(k: State, p: Proc)
    requires Inv(k) && CanCall(k, p, Exit)
    ensures ExitSide(k, p).sys.tables.Keys == ExitSide(k, p).procs.tree.live
    ensures ExitSide(k, p).sys.nextProc == ExitSide(k, p).procs.tree.next
    ensures D.SysInv(ExitSide(k, p).sys) && D.SameInside(k.sys.pipes, ExitSide(k, p).sys.pipes)
  {
    ExitLive(k.procs, p);
    C.ExitInv(k.sys, p);
  }

  lemma ExitInv(k: State, p: Proc)
    requires Inv(k) && CanCall(k, p, Exit)
    ensures Inv(ExitSide(k, p))
  {
    var k' := ExitSide(k, p);
    L.StepInvIff(k.procs, L.DoExit(p));
    ExitKeys(k, p);
    forall q, a | q in k'.sys.pipes && P.Inside(k'.sys.pipes[q], a) ensures Busy(k'.procs, k'.sys.pipes[q], a) {
      FamilyBusy(k, L.DoExit(p), k'.sys.pipes, q, a);
    }
  }

  lemma ForkInvIff(k: State, p: Proc)
    requires Inv(k) && CanCall(k, p, Fork)
    ensures Inv(ForkSide(k, p)) <==> L.Regular(k.procs, L.DoFork(p))
  {
    if L.Regular(k.procs, L.DoFork(p)) { ForkInv(k, p); } else { L.StepInvIff(k.procs, L.DoFork(p)); }
  }

  lemma CallInvIff(k: State, p: Proc, kind: Kind)
    requires Inv(k) && CanCall(k, p, kind) && !kind.Fork? && !kind.Exit?
    ensures Inv(CallSide(k, p, kind)) <==> R.Regular(k.sys, MakeOf(k, p, kind))
  {
    if R.Regular(k.sys, MakeOf(k, p, kind)) { CallInv(k, p, kind); } else { R.StepInvIff(k.sys, MakeOf(k, p, kind)); }
  }

  lemma FamilyRegular(k: State, p: Proc, kind: Kind)
    requires CanCall(k, p, kind) && (kind.Fork? || kind.Exit?)
    ensures CallRegular(k, p, kind) <==> (kind.Fork? ==> L.Regular(k.procs, L.DoFork(p)))
  {
  }

  lemma CallStepInvIff(k: State, p: Proc, kind: Kind)
    requires Inv(k) && CanCall(k, p, kind)
    ensures Inv(CallStep(k, p, kind)) <==> CallRegular(k, p, kind)
  {
    if kind.Fork? {
      FamilyRegular(k, p, kind);
      ForkInvIff(k, p);
    } else if kind.Exit? {
      FamilyRegular(k, p, kind);
      ExitInv(k, p);
    } else {
      CallInvIff(k, p, kind);
    }
  }

  /** A step keeps everything in order exactly when it is regular. */
  lemma StepInvIff(k: State, e: Event)
    requires Inv(k) && Enabled(k, e)
    ensures Inv(Step(k, e)) <==> Regular(k, e)
  {
    match e
    case Only(step) => OnlyInv(k, step);
    case Call(p, kind) => CallStepInvIff(k, p, kind);
    case Resume(q, step) => ResumeInv(k, q, step);
  }
}
