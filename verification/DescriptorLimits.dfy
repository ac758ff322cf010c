/** Runs from boot into the descriptor calls that go wrong, and into a pipe that a reader never leaves. */
module DescriptorLimits {
  import opened Base
  import opened PipeProtocol
  import opened Descriptors
  import opened DescriptorCalls
  import opened DescriptorRuns
  import opened DescriptorResults
  import opened PipeStranded
  import DescriptorRelease

  /** Some regular run from boot ends in `s`. */
  ghost predicate SysReachable(s: Sys) {
    exists es :: SysRun(Boot(), es) && SysAfter(Boot(), es) == s
  }

  lemma {:induction false} SysRunThen(s: Sys, es: seq<SysEvent>, e: SysEvent)
    requires SysRun(s, es) && Possible(SysAfter(s, es), e) && Regular(SysAfter(s, es), e)
    ensures SysRun(s, es + [e]) && SysAfter(s, es + [e]) == Effect(SysAfter(s, es), e).sys
    decreases |es|
  {
    if es == [] {
      assert es + [e] == [e] && [e][1..] == [];
      assert SysAfter(Effect(s, e).sys, []) == Effect(s, e).sys;
    } else {
      assert (es + [e])[0] == es[0] && (es + [e])[1..] == es[1..] + [e];
      SysRunThen(Effect(s, es[0]).sys, es[1..], e);
    }
  }

  lemma SysReachNext(s: Sys, e: SysEvent)
    requires SysReachable(s) && Possible(s, e) && Regular(s, e)
    ensures SysReachable(Effect(s, e).sys)
  {
    var es :| SysRun(Boot(), es) && SysAfter(Boot(), es) == s;
    SysRunThen(Boot(), es, e);
    assert SysRun(Boot(), es + [e]) && SysAfter(Boot(), es + [e]) == Effect(s, e).sys;
  }

  lemma SysReachableInv(s: Sys)
    requires SysReachable(s)
    ensures SysInv(s)
  {
    var es :| SysRun(Boot(), es) && SysAfter(Boot(), es) == s;
    BootInv();
    SysRunInv(Boot(), es);
  }

  // ---------------------------------------------------------------- calling pipe again and again

  /** What the first process's slot `i` shows after `k` calls of `pipe`. */
  function PipedFd(k: nat, i: nat): Fd {
    if i < 3 || i >= 3 + 2 * k then BootFd(i) else Fd(false, true, (i - 3) % 2 == 0, Some((i - 3) / 2), 1)
  }

  /** The first process has called `pipe` `k` times and nothing else has happened. */
  predicate Piped(s: Sys, k: nat) {
    && s.tables == map[1 := seq(SLOTS, i => i)] && s.nextPipe == k && s.nextProc == 2
    && s.fds.Keys == Boot().fds.Keys && (forall i: nat | i < SLOTS :: s.fds[i] == PipedFd(k, i))
    && (forall q | q in s.pipes :: s.pipes[q] == NewPipe()) && (forall q: nat | q < k :: q in s.pipes)
  }

  lemma PipedSlots(s: Sys, k: nat)
    requires Piped(s, k) && 3 + 2 * k < SLOTS
    ensures HasTable(s, 1) && |s.tables[1]| == SLOTS && Idle(s.pipes, 1)
    ensures forall i: nat | i < SLOTS :: s.tables[1][i] == i
    ensures FirstClosed(s.tables[1], s.fds) == 3 + 2 * k
  {
    var t := s.tables[1];
    assert !s.fds[t[3 + 2 * k]].open;
    assert forall i: nat | i < 3 + 2 * k :: s.fds[t[i]].open;
  }

  lemma NextSlot(s: Sys, k: nat)
    requires Piped(s, k) && 3 + 2 * k < SLOTS
    ensures HasTable(s, 1) && |s.tables[1]| == SLOTS
    ensures var f := 3 + 2 * k;
            FirstClosed(s.tables[1], s.fds[f := s.fds[f].(open := true)]) == f + 1
  {
    PipedSlots(s, k);
    var t, f := s.tables[1], 3 + 2 * k;
    var fds := s.fds[f := s.fds[f].(open := true)];
    assert f + 1 < SLOTS ==> !fds[t[f + 1]].open;
    assert forall i: nat | i < f + 1 :: fds[t[i]].open;
  }

  /** What the call then does. */
  lemma PipeCallIs(s: Sys, k: nat)
    requires Piped(s, k) && k < 30
    ensures HasTable(s, 1) && PipeRegular(s, 1)
    ensures var f := 3 + 2 * k;
            PipeCall(s, 1).sys
            == s.(fds := s.fds[f := s.fds[f].(open := true)]
                              [f := Opened(s.fds[f].(open := true), true, k)]
                              [f + 1 := Opened(s.fds[f + 1], false, k)],
                  pipes := s.pipes[k := NewPipe()], nextPipe := k + 1)
  {
    PipedSlots(s, k);
    NextSlot(s, k);
  }

  lemma PipedFdNext(k: nat, i: nat)
    requires k < 30 && i < SLOTS
    ensures var f := 3 + 2 * k;
            PipedFd(k + 1, i)
            == if i == f then Opened(PipedFd(k, f).(open := true), true, k)
               else if i == f + 1 then Opened(PipedFd(k, f + 1), false, k) else PipedFd(k, i)
  {
  }

  lemma PipedAgain(s: Sys, k: nat)
    requires Piped(s, k) && k < 30
    ensures HasTable(s, 1) && Piped(PipeCall(s, 1).sys, k + 1)
  {
    PipeCallIs(s, k);
    forall i: nat | i < SLOTS ensures PipeCall(s, 1).sys.fds[i] == PipedFd(k + 1, i) {
      PipedAgainAt(s, k, i);
    }
  }

  lemma PipedAgainAt(s: Sys, k: nat, i: nat)
    requires Piped(s, k) && k < 30 && i < SLOTS
    ensures HasTable(s, 1) && i in PipeCall(s, 1).sys.fds && PipeCall(s, 1).sys.fds[i] == PipedFd(k + 1, i)
  {
    PipeCallIs(s, k);
    PipedFdNext(k, i);
    assert s.fds[i] == PipedFd(k, i);
  }

  lemma PipedNext(s: Sys, k: nat)
    requires Piped(s, k) && k < 30 && SysReachable(s)
    ensures HasTable(s, 1) && Piped(PipeCall(s, 1).sys, k + 1) && SysReachable(PipeCall(s, 1).sys)
  {
    PipedSlots(s, k);
    PipeCallIs(s, k);
    PipedAgain(s, k);
    SysReachNext(s, Make(1, CallPipe));
  }

  lemma BootPiped()
    ensures Piped(Boot(), 0)
  {
    assert Boot().tables == map[1 := seq(SLOTS, i => i)];
  }

  lemma {:induction false} Pipes(k: nat) returns (s: Sys)
    requires k <= 30
    ensures Piped(s, k) && SysReachable(s)
  {
    if k == 0 {
      s := Boot();
      assert SysRun(Boot(), []) && SysAfter(Boot(), []) == s;
      BootPiped();
    } else {
      var s0 := Pipes(k - 1);
      PipedNext(s0, k - 1);
      s := PipeCall(s0, 1).sys;
    }
  }

  /** After thirty calls of `pipe` one closed object is left: the next call fails and half opens its slot,
      and a write to that dereferences a null pointer. */
  lemma ThirtyPipes(data: seq<Byte>) returns (s: Sys)
    ensures SysReachable(s) && HasTable(s, 1)
    ensures Possible(s, Make(1, CallPipe)) && !Regular(s, Make(1, CallPipe))
    ensures var r := Effect(s, Make(1, CallPipe));
            && r.reply == Value(-EMFILE) && HasTable(r.sys, 1) && Open(r.sys, 1, 63)
            && Write(r.sys, 1, 63, data).sys.crashed
  {
    s := Pipes(30);
    PipedSlots(s, 30);
    NextSlot(s, 30);
    SysReachableInv(s);
    assert s.fds[63] == PipedFd(30, 63);
    HalfOpenedCrashes(s, 1, data);
  }

  lemma OnePipeSlots(s: Sys)
    requires Piped(s, 1)
    ensures HasTable(s, 1) && Idle(s.pipes, 1) && |s.tables[1]| == SLOTS && 0 in s.pipes && s.pipes[0] == NewPipe()
    ensures s.tables[1][3] == 3 && s.tables[1][4] == 4 && s.fds[3] == PipedFd(1, 3) && s.fds[4] == PipedFd(1, 4)
  {
    PipedSlots(s, 1);
  }

  lemma OnePipeMiscounts(s: Sys)
    requires SysInv(s) && Piped(s, 1)
    ensures HasTable(s, 1)
    ensures var s' := Dup2(s, 1, 3, 4).sys;
            0 in s'.pipes && s'.pipes[0].r.count == 1 && s'.pipes[0].w.count == 0 && Short(s'.fds, s'.pipes[0], 0, true)
  {
    OnePipeSlots(s);
    Dup2Miscounts(s, 1, 3, 4, 0);
  }

  lemma OnePipeIrregular(s: Sys)
    requires Piped(s, 1)
    ensures Possible(s, Make(1, CallDup2(3, 4))) && !Regular(s, Make(1, CallDup2(3, 4)))
  {
    OnePipeSlots(s);
  }

  /** After one call, `dup2` of its read end onto the slot of its write end is not regular: the read count
      is then one short of the open descriptors and `dup` calls it stands for. */
  lemma OnePipe() returns (s: Sys)
    ensures SysReachable(s) && HasTable(s, 1)
    ensures Possible(s, Make(1, CallDup2(3, 4))) && !Regular(s, Make(1, CallDup2(3, 4)))
    ensures var s' := Dup2(s, 1, 3, 4).sys;
            0 in s'.pipes && s'.pipes[0].r.count == 1 && s'.pipes[0].w.count == 0 && Short(s'.fds, s'.pipes[0], 0, true)
  {
    s := Pipes(1);
    SysReachableInv(s);
    OnePipeIrregular(s);
    OnePipeMiscounts(s);
  }

  // ---------------------------------------------------------------- a reader gets stranded

  // Process 1 calls `pipe`, writes a byte and reads it back, forks, closes its write end and reads; its
  // child, which had the other write end, exits.

  // ---------------------------------------------------------------- the pipe

  /** Nobody is inside, the byte written has been read, and `writer_in_use` still counts it. */
  predicate Drained(p: Pipe) {
    && p.nelement == 0 && p.w.inUse == 1 && p.w.calls == map[] && p.r.calls == map[] && p.r.mutex == 1 && p.w.dups == 0
  }

  /** A byte is in the pipe and nobody inside. */
  predicate Holding(p: Pipe) {
    && p.nelement == 1 && p.w.inUse == 1 && p.w.calls == map[] && p.r.calls == map[] && p.r.mutex == 1
    && p.w.dups == 0 && p.w.count == 1 && p.r.count == 1 && p.r.head == 0 && p.buffer != [] && p.buffer[0] != END
  }

  function Entered(p: Pipe, f: FdId, b: Byte): Pipe { p.(w := p.w.(calls := p.w.calls[1 := WaitWrite(f, [b])])) }

  lemma WriteOne(f: FdId, b: Byte)
    requires b != END
    ensures var p1 := Entered(NewPipe(), f, b);
      && BeginWriteSegment(NewPipe(), 1, f, [b]) == Blocked(p1)
      && CanTakeWrite(p1, 1) && TakeWriteSegment(p1, 1).Blocked?
      && (var p2 := TakeWriteSegment(p1, 1).pipe;
          CanTakeSpace(p2, 1) && TakeSpaceSegment(p2, 1).Returned? && Holding(TakeSpaceSegment(p2, 1).pipe))
  {
    var p1 := Entered(NewPipe(), f, b);
    var p2 := TakeWriteSegment(p1, 1).pipe;
    assert (p2.w.calls - {1}) == map[];
  }

  function Reads(p: Pipe, f: FdId): Pipe { p.(r := p.r.(calls := p.r.calls[1 := WaitRead(f, 1)])) }

  lemma ReadOne(p: Pipe, f: FdId)
    requires Holding(p)
    ensures var p1 := Reads(p, f);
      && CanTakeRead(p1, 1) && TakeReadSegment(p1, 1).Blocked?
      && (var p2 := TakeReadSegment(p1, 1).pipe;
          && CanTakeElement(p2, 1) && TakeElementSegment(p2, 1, 0).Returned?
          && Drained(TakeElementSegment(p2, 1, 0).pipe))
  {
    var p1 := Reads(p, f);
    var p2 := TakeReadSegment(p1, 1).pipe;
    assert p2.r.calls - {1} == map[];
  }

  /** The next read blocks, as there is a writer and `writer_in_use` is not 0. */
  lemma ReadBlocks(p: Pipe, f: FdId)
    requires Drained(p) && p.w.count != 0
    ensures var p1 := Reads(p, f);
      && CanTakeRead(p1, 1) && TakeReadSegment(p1, 1).Blocked?
      && (var p2 := TakeReadSegment(p1, 1).pipe;
          p2.nelement == 0 && p2.r.calls == map[1 := p2.r.calls[1]] && p2.r.calls[1].WaitElement?
          && p2.w.calls == map[] && p2.w.dups == 0)
  {
  }

  // ---------------------------------------------------------------- pipes that only change in their counts

  predicate SameBut(p: Pipe, p': Pipe) {
    p' == p.(r := p.r.(count := p'.r.count), w := p.w.(count := p'.w.count))
  }

  lemma {:induction false} ForkSlotsCount(s: Sys, src: seq<FdId>, k: nat, c: Proc, q: PipeId)
    requires SysInv(s) && c in s.tables && k <= |src| <= SLOTS && |s.tables[c]| == k && q in s.pipes
    requires forall i | 0 <= i < |src| :: src[i] in s.fds
    ensures q in ForkSlots(s, src, k, c).pipes && SameBut(s.pipes[q], ForkSlots(s, src, k, c).pipes[q])
    decreases |src| - k
  {
    if k < |src| {
      ForkSlotAt(s, src[k], c, q);
      ForkSlotInv(s, src[k], c);
      ForkSlotsCount(ForkSlot(s, src[k], c), src, k + 1, c, q);
    }
  }

  lemma ForkCounts(s: Sys, p: Proc, q: PipeId)
    requires SysInv(s) && HasTable(s, p) && s.nextProc !in s.tables && q in s.pipes
    ensures q in Fork(s, p, s.nextProc).pipes && SameBut(s.pipes[q], Fork(s, p, s.nextProc).pipes[q])
  {
    EmptyTableInv(s, s.nextProc);
    CopyCounts(s.(tables := s.tables[s.nextProc := []], nextProc := s.nextProc + 1), p, s.nextProc, q);
  }

  lemma CopyCounts(s: Sys, p: Proc, c: Proc, q: PipeId)
    requires SysInv(s) && p in s.tables && c in s.tables && s.tables[c] == [] && q in s.pipes
    ensures HasTable(s, p) && q in ForkSlots(s, s.tables[p], 0, c).pipes
    ensures SameBut(s.pipes[q], ForkSlots(s, s.tables[p], 0, c).pipes[q])
  {
    ForkSlotsCount(s, s.tables[p], 0, c, q);
  }

  lemma ReleaseCounts(s: Sys, f: FdId, byClose: bool, q: PipeId)
    requires f in s.fds && Valid(s, s.fds[f]) && q in Release(s, f, byClose).pipes
    requires s.fds[f].isRead ==> !byClose
    ensures q in s.pipes && SameBut(s.pipes[q], Release(s, f, byClose).pipes[q])
  {
    ReleasePipesAt(s, f, byClose, q);
  }

  lemma ExitSlotCounts(s: Sys, f: FdId, q: PipeId)
    requires SysInv(s) && f in s.fds && Idle(s.pipes, s.fds[f].owner) && q in ExitSlot(s, f).pipes
    ensures q in s.pipes && SameBut(s.pipes[q], ExitSlot(s, f).pipes[q])
  {
    if !Shut(s.fds[f]) {
      ReleaseRoom(s, f);
      ReleaseCounts(s, f, false, q);
    }
  }

  lemma {:induction false} ExitSlotsCount(s: Sys, t: seq<FdId>, k: nat, p: Proc, q: PipeId)
    requires SysInv(s) && k <= |t| && Idle(s.pipes, p)
    requires forall i | 0 <= i < |t| :: t[i] in s.fds && s.fds[t[i]].owner == p
    requires q in ExitSlots(s, t, k).pipes
    ensures q in s.pipes && SameBut(s.pipes[q], ExitSlots(s, t, k).pipes[q])
    decreases |t| - k
  {
    if k < |t| {
      var s1 := ExitSlot(s, t[k]);
      ExitSlotInv(s, t[k]);
      SameInsideIdle(s.pipes, s1.pipes, p);
      ExitSlotsCount(s1, t, k + 1, p, q);
      ExitSlotCounts(s, t[k], q);
    }
  }

  lemma ExitCounts(s: Sys, p: Proc, q: PipeId)
    requires SysInv(s) && p in s.tables && HasTable(s, p) && Idle(s.pipes, p) && q in Exit(s, p).pipes
    ensures q in s.pipes && SameBut(s.pipes[q], Exit(s, p).pipes[q])
  {
    ExitSlotsCount(s, s.tables[p], 0, p, q);
  }

  // ---------------------------------------------------------------- the tables

  /** Slot `i` of process 1, with its write end open or not. */
  function FirstFd(i: nat, writing: bool): Fd {
    if i == 4 then PipedFd(1, 4).(open := writing) else PipedFd(1, i)
  }

  predicate FirstTable(s: Sys, writing: bool) {
    && 1 in s.tables && s.tables[1] == seq(SLOTS, i => i)
    && forall i: nat | i < SLOTS :: i in s.fds && s.fds[i] == FirstFd(i, writing)
  }

  lemma FirstSlots(s: Sys, writing: bool)
    requires FirstTable(s, writing)
    ensures HasTable(s, 1) && Open(s, 1, 3) && Object(s, 1, 3) == s.fds[3]
    ensures s.fds[3] == Fd(false, true, true, Some(0), 1)
    ensures |s.tables[1]| == SLOTS && Object(s, 1, 4) == s.fds[4] && s.fds[4] == Fd(false, writing, false, Some(0), 1)
  {
    assert s.tables[1][3] == 3 && s.tables[1][4] == 4;
    assert FirstFd(3, writing) == Fd(false, true, true, Some(0), 1);
    assert FirstFd(4, writing) == Fd(false, writing, false, Some(0), 1);
  }

  /** Process 1 is alone, with a pipe that nobody is inside. */
  ghost predicate HasPipe(s: Sys) { SysInv(s) && OwnPipe(s) }

  predicate OwnPipe(s: Sys) {
    FirstTable(s, true) && s.tables.Keys == {1} && s.nextProc == 2 && 0 in s.pipes && Idle(s.pipes, 1)
  }

  lemma PipedHas(s: Sys)
    requires SysInv(s) && Piped(s, 1)
    ensures HasPipe(s) && s.pipes[0] == NewPipe()
  {
    forall i: nat | i < SLOTS ensures i in s.fds && s.fds[i] == FirstFd(i, true) {
      assert s.fds[i] == PipedFd(1, i);
    }
  }

  /** Another pipe in place of its pipe, with nobody inside. */
  lemma StillHas(s: Sys, s': Sys)
    requires OwnPipe(s) && 0 in s'.pipes && s' == s.(pipes := s.pipes[0 := s'.pipes[0]])
    requires s'.pipes[0].w.calls == map[] && s'.pipes[0].r.calls == map[]
    ensures OwnPipe(s')
  {
  }

  lemma WriteCall(s: Sys, b: Byte)
    requires HasPipe(s) && s.pipes[0].r.count > 0
    ensures var e := Make(1, CallWrite(4, [b]));
      && Possible(s, e) && Regular(s, e)
      && Effect(s, e) == Result(s.(pipes := s.pipes[0 := Entered(s.pipes[0], 4, b)]), Pending)
  {
    FirstSlots(s, true);
  }

  lemma ReadCall(s: Sys, writing: bool)
    requires FirstTable(s, writing) && 0 in s.pipes && Idle(s.pipes, 1)
    ensures var e := Make(1, CallRead(3, 1));
      && Possible(s, e) && Regular(s, e)
      && Effect(s, e) == Result(s.(pipes := s.pipes[0 := Reads(s.pipes[0], 3)]), Pending)
  {
    FirstSlots(s, writing);
  }

  /** Process 1 is alone, with a pipe that it has used. */
  ghost predicate UsedPipe(s: Sys) { HasPipe(s) && Drained(s.pipes[0]) }

  /** Object `g` is the child's open write end. */
  predicate ChildWrites(s: Sys, g: FdId) { g in s.fds && s.fds[g] == Fd(false, true, false, Some(0), 2) }

  /** The child has the other ends. */
  ghost predicate TwoHave(s: Sys, writing: bool) {
    SysInv(s) && TwoTables(s, writing)
  }

  ghost predicate TwoTables(s: Sys, writing: bool) {
    && FirstTable(s, writing) && s.tables.Keys == {1, 2} && 0 in s.pipes
    && Idle(s.pipes, 2) && exists g :: ChildWrites(s, g)
  }

  lemma ForkedHave(s: Sys)
    requires UsedPipe(s)
    ensures HasTable(s, 1) && 2 !in s.tables && Possible(s, Make(1, CallFork))
    ensures var s' := Fork(s, 1, 2); TwoHave(s', true) && Drained(s'.pipes[0]) && Idle(s'.pipes, 1)
  {
    ForkInv(s, 1);
    ForkCounts(s, 1, 0);
    FirstSlots(s, true);
    NobodyThere(s);
    var s' := Fork(s, 1, 2);
    SameInsideIdle(s.pipes, s'.pipes, 1);
    SameInsideIdle(s.pipes, s'.pipes, 2);
    ForkedTables(s);
  }

  lemma ForkedTables(s: Sys)
    requires UsedPipe(s)
    ensures HasTable(s, 1) && 2 !in s.tables
    ensures var s' := Fork(s, 1, 2);
            FirstTable(s', true) && s'.tables.Keys == {1, 2} && exists g :: ChildWrites(s', g)
  {
    ForkCopies(s, 1);
    FirstSlots(s, true);
    var s' := Fork(s, 1, 2);
    assert Copied(s, s.tables[1], s', 2, 0, 4);
    assert ChildWrites(s', s'.tables[2][4]);
  }

  /** Whoever is inside a pipe has a table. */
  lemma InsiderHasTable(s: Sys, q: PipeId, a: Proc)
    requires SysInv(s) && q in s.pipes && Inside(s.pipes[q], a)
    ensures a in s.tables
  {
    assert CallsInv(s.fds, s.pipes[q], q);
    var f := if a in s.pipes[q].w.calls then s.pipes[q].w.calls[a].fd else s.pipes[q].r.calls[a].fd;
    assert Uses(s.fds, a, f, q, a !in s.pipes[q].w.calls);
    assert Installed(s.fds[f], f, s.tables, s.pipes);
  }

  lemma NobodyThere(s: Sys)
    requires SysInv(s) && 2 !in s.tables
    ensures Idle(s.pipes, 2)
  {
    forall q | q in s.pipes ensures !Inside(s.pipes[q], 2) {
      if Inside(s.pipes[q], 2) { InsiderHasTable(s, q, 2); }
    }
  }

  /** An open write end counts. */
  lemma WriterCounts(s: Sys, g: FdId)
    requires SysInv(s) && ChildWrites(s, g)
    ensures 0 in s.pipes && s.pipes[0].w.count > 0
  {
    assert Installed(s.fds[g], g, s.tables, s.pipes);
    assert Accounted(s.fds, s.pipes[0], 0, false);
    CountPositive(s.fds, s.pipes[0], 0, g);
  }

  lemma ClosedHave(s: Sys)
    requires TwoHave(s, true) && Drained(s.pipes[0]) && Idle(s.pipes, 1)
    ensures HasTable(s, 1) && Close(s, 1, 4).reply == Value(0)
    ensures var s' := Close(s, 1, 4).sys; TwoHave(s', false) && Drained(s'.pipes[0]) && Idle(s'.pipes, 1)
  {
    FirstSlots(s, true);
    CloseInv(s, 1, 4);
    var s' := Close(s, 1, 4).sys;
    var g :| ChildWrites(s, g);
    assert g != 4 && s.tables[1][4] == 4 && ChildWrites(s', g);
    WriterCounts(s', g);
    ReleaseRoom(s, 4);
    ReleaseCounts(s, 4, true, 0);
    CloseIdle(s, s');
  }

  lemma CloseIdle(s: Sys, s': Sys)
    requires FirstTable(s, true) && HasTable(s, 1) && s' == Close(s, 1, 4).sys && Idle(s.pipes, 1) && Idle(s.pipes, 2)
    ensures Idle(s'.pipes, 1) && Idle(s'.pipes, 2)
  {
  }

  /** Process 1 waits for an element. */
  predicate ReaderWaits(p: Pipe) {
    && p.nelement == 0 && p.r.calls.Keys == {1} && p.r.calls[1].WaitElement? && p.w.calls == map[] && p.w.dups == 0
  }

  lemma KeepsFirst(s: Sys, s': Sys)
    requires FirstTable(s, false) && s'.tables == s.tables - {2}
    requires forall g | g in s.fds && s.fds[g].owner != 2 :: g in s'.fds && s'.fds[g] == s.fds[g]
    ensures FirstTable(s', false)
  {
    forall i: nat | i < SLOTS ensures i in s'.fds && s'.fds[i] == FirstFd(i, false) {
      assert s.fds[i] == FirstFd(i, false);
    }
  }

  lemma ExitKeepsFirst(s: Sys)
    requires TwoHave(s, false)
    ensures HasTable(s, 2) && SysInv(Exit(s, 2)) && FirstTable(Exit(s, 2), false) && Exit(s, 2).tables.Keys == {1}
  {
    ExitInv(s, 2);
    KeepsFirst(s, Exit(s, 2));
  }

  lemma ExitKeepsPipe(s: Sys)
    requires TwoHave(s, false) && ReaderWaits(s.pipes[0])
    ensures HasTable(s, 2) && Possible(s, Make(2, CallExit))
    ensures 0 in Exit(s, 2).pipes && SameBut(s.pipes[0], Exit(s, 2).pipes[0])
  {
    ExitInv(s, 2);
    DescriptorRelease.InsiderKeepsPipe(s, Make(2, CallExit), 0, 1);
    ExitCounts(s, 2, 0);
  }

  lemma TwoCount(s: Sys, writing: bool)
    requires TwoHave(s, writing)
    ensures s.pipes[0].w.count > 0
  {
    var g :| ChildWrites(s, g);
    WriterCounts(s, g);
  }

  /** Process 1 inside its pipe, and nothing else changed. */
  lemma StillTwo(s: Sys, s': Sys)
    requires TwoTables(s, false) && 0 in s'.pipes && s' == s.(pipes := s.pipes[0 := s'.pipes[0]])
    requires ReaderWaits(s'.pipes[0])
    ensures TwoTables(s', false)
  {
    var g :| ChildWrites(s, g);
    assert ChildWrites(s', g);
  }

  /** When the child has exited too, nobody has the write end, and process 1 is stranded. */
  lemma ExitStrands(s: Sys)
    requires TwoHave(s, false) && ReaderWaits(s.pipes[0])
    ensures HasTable(s, 2) && Possible(s, Make(2, CallExit))
    ensures var s' := Exit(s, 2); 0 in s'.pipes && Stranded(s'.pipes[0], 1)
  {
    ExitKeepsFirst(s);
    ExitKeepsPipe(s);
    NoWriteEnd(Exit(s, 2));
    assert 1 in Reading(Exit(s, 2).pipes[0].r.calls);
  }

  /** With process 1 alone, every open pipe descriptor is in its table. */
  lemma InFirstTable(s: Sys, f: FdId)
    requires FirstTable(s, false) && s.tables.Keys == {1} && f in s.fds && Installed(s.fds[f], f, s.tables, s.pipes)
    requires s.fds[f].open && !s.fds[f].console
    ensures f < SLOTS && s.fds[f] == FirstFd(f, false)
  {
    var i :| 0 <= i < SLOTS && s.tables[1][i] == f;
  }

  lemma NoWriteEnds(s: Sys)
    requires FirstTable(s, false) && s.tables.Keys == {1}
    requires forall f | f in s.fds :: Installed(s.fds[f], f, s.tables, s.pipes)
    ensures Ends(s.fds, 0, false) == {}
  {
    forall f | f in s.fds ensures !Counted(s.fds[f], 0, false) {
      if s.fds[f].open && !s.fds[f].console { InFirstTable(s, f); }
    }
  }

  lemma NoWriteEnd(s: Sys)
    requires SysInv(s) && FirstTable(s, false) && s.tables.Keys == {1} && 0 in s.pipes && s.pipes[0].w.dups == 0
    ensures s.pipes[0].w.count == 0
  {
    NoWriteEnds(s);
    assert Accounted(s.fds, s.pipes[0], 0, false);
  }

  // ---------------------------------------------------------------- the run

  /** One more call, or segment, of a run from boot. */
  lemma Next(s: Sys, e: SysEvent) returns (s': Sys)
    requires SysReachable(s) && Possible(s, e) && Regular(s, e)
    ensures s' == Effect(s, e).sys && SysReachable(s') && SysInv(s')
  {
    SysReachNext(s, e);
    s' := Effect(s, e).sys;
    SysReachableInv(s');
  }

  /** `s'` is `s` but for pipe 0. */
  predicate PipeOnly(s: Sys, s': Sys) { 0 in s'.pipes && s' == s.(pipes := s.pipes[0 := s'.pipes[0]]) }

  lemma PipeOnlyThen(s: Sys, s1: Sys, s2: Sys)
    requires PipeOnly(s, s1) && PipeOnly(s1, s2)
    ensures PipeOnly(s, s2)
  {
  }

  lemma NextSegment(s0: Sys, s: Sys, e: PipeProtocol.Event) returns (s': Sys)
    requires SysReachable(s) && PipeOnly(s0, s) && Takes(e) && PipeProtocol.Enabled(s.pipes[0], e)
    ensures SysReachable(s') && SysInv(s')
    ensures PipeOnly(s0, s') && s'.pipes[0] == Apply(s.pipes[0], e).pipe
  {
    s' := Next(s, Resume(0, e));
    PipeOnlyThen(s0, s, s');
  }

  lemma PipedFirst() returns (s: Sys)
    ensures SysReachable(s) && HasPipe(s) && s.pipes[0] == NewPipe()
  {
    s := Pipes(1);
    SysReachableInv(s);
    PipedHas(s);
  }

  lemma Writes(s0: Sys) returns (s: Sys)
    requires SysReachable(s0) && HasPipe(s0) && s0.pipes[0] == NewPipe()
    ensures SysReachable(s) && PipeOnly(s0, s) && s.pipes[0] == Entered(NewPipe(), 4, 0)
  {
    WriteCall(s0, 0);
    s := Next(s0, Make(1, CallWrite(4, [0])));
  }

  lemma Written(s0: Sys) returns (s: Sys)
    requires SysReachable(s0) && HasPipe(s0) && s0.pipes[0] == NewPipe()
    ensures SysReachable(s) && HasPipe(s) && Holding(s.pipes[0])
  {
    WriteOne(4, 0);
    s := Writes(s0);
    s := NextSegment(s0, s, TakeWrite(1));
    s := NextSegment(s0, s, TakeSpace(1));
    StillHas(s0, s);
  }

  lemma ReadsNext(s0: Sys, writing: bool) returns (s: Sys)
    requires SysReachable(s0) && FirstTable(s0, writing) && 0 in s0.pipes && Idle(s0.pipes, 1)
    ensures SysReachable(s) && PipeOnly(s0, s) && s.pipes[0] == Reads(s0.pipes[0], 3)
  {
    ReadCall(s0, writing);
    s := Next(s0, Make(1, CallRead(3, 1)));
  }

  lemma Used(s0: Sys) returns (s: Sys)
    requires SysReachable(s0) && HasPipe(s0) && Holding(s0.pipes[0])
    ensures SysReachable(s) && UsedPipe(s)
  {
    ReadOne(s0.pipes[0], 3);
    s := ReadsNext(s0, true);
    s := NextSegment(s0, s, TakeRead(1));
    s := NextSegment(s0, s, TakeElement(1, 0));
    StillHas(s0, s);
  }

  lemma Shared(s0: Sys) returns (s: Sys)
    requires SysReachable(s0) && UsedPipe(s0)
    ensures SysReachable(s) && TwoHave(s, false) && Drained(s.pipes[0]) && Idle(s.pipes, 1)
  {
    ForkedHave(s0);
    var s1 := Next(s0, Make(1, CallFork));
    ClosedHave(s1);
    s := Next(s1, Make(1, CallClose(4)));
  }

  lemma WaitsInside(s0: Sys) returns (s: Sys)
    requires SysReachable(s0) && FirstTable(s0, false) && 0 in s0.pipes && Idle(s0.pipes, 1)
    requires Drained(s0.pipes[0]) && s0.pipes[0].w.count != 0
    ensures SysReachable(s) && SysInv(s) && PipeOnly(s0, s) && ReaderWaits(s.pipes[0])
  {
    ReadBlocks(s0.pipes[0], 3);
    s := ReadsNext(s0, false);
    s := NextSegment(s0, s, TakeRead(1));
  }

  lemma Waits(s0: Sys) returns (s: Sys)
    requires SysReachable(s0) && TwoHave(s0, false) && Drained(s0.pipes[0]) && Idle(s0.pipes, 1)
    ensures SysReachable(s) && TwoHave(s, false) && ReaderWaits(s.pipes[0])
  {
    TwoCount(s0, false);
    s := WaitsInside(s0);
    StillTwo(s0, s);
  }

  /** From boot: process 1 writes a byte into a pipe and reads it back, forks, closes its write end and reads
      again; its child exits. Process 1 is then stranded, and nothing that happens later gets it out. */
  lemma StrandedFromBoot(es: seq<SysEvent>) returns (s: Sys)
    ensures SysReachable(s) && SysInv(s) && s.tables.Keys == {1}
    ensures 0 in s.pipes && Stranded(s.pipes[0], 1)
    ensures SysRun(s, es) ==> 0 in SysAfter(s, es).pipes && Stranded(SysAfter(s, es).pipes[0], 1)
  {
    s := PipedFirst();
    s := Written(s);
    s := Used(s);
    s := Shared(s);
    s := Waits(s);
    ExitStrands(s);
    ExitKeepsFirst(s);
    s := Next(s, Make(2, CallExit));
    if SysRun(s, es) { StrandedLater(s, es, 0, 1); }
  }

  lemma {:induction false} StrandedLater(s: Sys, es: seq<SysEvent>, q: PipeId, a: Proc)
    requires SysInv(s) && SysRun(s, es) && q in s.pipes && Stranded(s.pipes[q], a)
    ensures q in SysAfter(s, es).pipes && Stranded(SysAfter(s, es).pipes[q], a)
    decreases |es|
  {
    if es != [] {
      DescriptorRelease.StrandedStays(s, es[0], q, a);
      StrandedLater(Effect(s, es[0]).sys, es[1..], q, a);
    }
  }
}
