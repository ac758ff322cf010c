/** Runs of the whole descriptor state, over any number of processes: what holds at every point of
    every run, and what each pipe goes through on the way. */
module DescriptorRuns {
  import opened Base
  import opened PipeProtocol
  import opened PipeFifo
  import opened Descriptors
  import opened DescriptorCalls

  datatype SysCall =
    | CallPipe
    | CallClose(slot: int)
    | CallDup(source: int)
    | CallDup2(source: int, slot: int)
    | CallWrite(slot: int, data: seq<Byte>)
    | CallRead(slot: int, n: nat)
    | CallFork
    | CallExit

  /** A process makes a call, or one blocked inside pipe `q` goes on. */
  datatype SysEvent = Make(proc: Proc, call: SysCall) | Resume(q: PipeId, step: PipeProtocol.Event)

  /** Standard input, output and error on the console; the other slots closed. */
  function BootFd(slot: FdId): Fd {
    Fd(slot < 3, slot < 3, slot == 0, None, 1)
  }

  /** The first process and its table. */
  function Boot(): Sys {
    Sys(map[1 := seq(SLOTS, i => i)], map f: FdId | f < SLOTS :: BootFd(f), map[], 2, SLOTS, 0, false)
  }

  /** An idle live process makes a call (reads and writes of the console are not pipe calls), or a step
      of a call in progress has its permit. */
  predicate Possible(s: Sys, e: SysEvent) {
    match e
    case Make(p, c) =>
      && HasTable(s, p) && Idle(s.pipes, p)
      && (c.CallWrite? && Open(s, p, c.slot) ==> !Object(s, p, c.slot).console)
      && (c.CallRead? && Open(s, p, c.slot) ==> !Object(s, p, c.slot).console)
      && (c.CallFork? ==> s.nextProc !in s.tables)
    case Resume(q, step) => q in s.pipes && Takes(step) && Enabled(s.pipes[q], step)
  }

  /** What is not possible does not happen. */
  function Effect(s: Sys, e: SysEvent): Result {
    if !Possible(s, e) then Result(s, Gone)
    else
      match e
      case Make(p, c) => (
        match c
        case CallPipe => PipeCall(s, p)
        case CallClose(slot) => Close(s, p, slot)
        case CallDup(source) => Dup(s, p, source)
        case CallDup2(source, slot) => Dup2(s, p, source, slot)
        case CallWrite(slot, data) => Write(s, p, slot, data)
        case CallRead(slot, n) => Read(s, p, slot, n)
        case CallFork => Result(Fork(s, p, s.nextProc), Value(s.nextProc))
        case CallExit => Result(Exit(s, p), Gone))
      case Resume(q, step) => FromOutcome(s, q, Apply(s.pipes[q], step))
  }

  /** The calls whose code goes wrong: `dup` of the console, `dup2` of the console or onto an open slot,
      and `pipe` with exactly one closed object in the table. */
  predicate Regular(s: Sys, e: SysEvent) {
    && Possible(s, e)
    && match e
       case Make(p, c) => (
         match c
         case CallPipe => PipeRegular(s, p)
         case CallDup(source) => DupRegular(s, p, source)
         case CallDup2(source, slot) => Dup2Regular(s, p, source, slot)
         case _ => true)
       case Resume(_, _) => true
  }

  lemma BootInv()
    ensures SysInv(Boot())
  {
  }

  /** A step keeps the reference counts exact, and dereferences no null and no freed pipe, exactly when
      it is regular. */
  lemma StepInvIff(s: Sys, e: SysEvent)
    requires SysInv(s) && Possible(s, e)
    ensures SysInv(Effect(s, e).sys) <==> Regular(s, e)
  {
    match e
    case Make(p, c) => CallInvIff(s, p, c);
    case Resume(q, step) => StepInv(s, q, step);
  }

  lemma CallInvIff(s: Sys, p: Proc, c: SysCall)
    requires SysInv(s) && Possible(s, Make(p, c))
    ensures SysInv(Effect(s, Make(p, c)).sys) <==> Regular(s, Make(p, c))
  {
    match c
    case CallPipe => PipeCallInvIff(s, p);
    case CallClose(slot) => CloseInv(s, p, slot);
    case CallDup(source) => DupInvIff(s, p, source);
    case CallDup2(source, slot) => Dup2InvIff(s, p, source, slot);
    case CallWrite(slot, data) => WriteInvs(s, p, slot, data);
    case CallRead(slot, n) => ReadInvs(s, p, slot, n);
    case CallFork => ForkInv(s, p);
    case CallExit => ExitInv(s, p);
  }

  predicate SysRun(s: Sys, es: seq<SysEvent>)
    decreases |es|
  {
    es == [] || (Possible(s, es[0]) && Regular(s, es[0]) && SysRun(Effect(s, es[0]).sys, es[1..]))
  }

  function SysAfter(s: Sys, es: seq<SysEvent>): Sys
    decreases |es|
  {
    if es == [] then s else SysAfter(Effect(s, es[0]).sys, es[1..])
  }

  lemma {:induction false} SysRunInv(s: Sys, es: seq<SysEvent>)
    requires SysInv(s) && SysRun(s, es)
    ensures SysInv(SysAfter(s, es))
    decreases |es|
  {
    if es != [] {
      StepInvIff(s, es[0]);
      SysRunInv(Effect(s, es[0]).sys, es[1..]);
    }
  }

  /** At every point of every run each count is the number of distinct open descriptors of its end over
      all processes plus the `dup` calls made on it; no null or freed pipe has been dereferenced; an
      open pipe descriptor refers to an allocated pipe; and whoever is inside a pipe call has one. */
  lemma CountsExact(es: seq<SysEvent>)
    requires SysRun(Boot(), es)
    ensures var s := SysAfter(Boot(), es);
      && !s.crashed
      && (forall q | q in s.pipes ::
            && s.pipes[q].r.count == |Ends(s.fds, q, true)| + s.pipes[q].r.dups
            && s.pipes[q].w.count == |Ends(s.fds, q, false)| + s.pipes[q].w.dups)
      && (forall f | f in s.fds && s.fds[f].open && !s.fds[f].console ::
            s.fds[f].pipe.Some? && s.fds[f].pipe.value in s.pipes)
      && (forall q, a | q in s.pipes && Inside(s.pipes[q], a) ::
            exists f :: f in s.fds && s.fds[f].owner == a && s.fds[f].open && s.fds[f].pipe == Some(q))
  {
    BootInv();
    SysRunInv(Boot(), es);
    var s := SysAfter(Boot(), es);
    forall q | q in s.pipes
      ensures s.pipes[q].r.count == |Ends(s.fds, q, true)| + s.pipes[q].r.dups
      ensures s.pipes[q].w.count == |Ends(s.fds, q, false)| + s.pipes[q].w.dups
    {
      assert Accounted(s.fds, s.pipes[q], q, true) && Accounted(s.fds, s.pipes[q], q, false);
    }
    forall f | f in s.fds && s.fds[f].open && !s.fds[f].console
      ensures s.fds[f].pipe.Some? && s.fds[f].pipe.value in s.pipes
    {
      assert Installed(s.fds[f], f, s.tables, s.pipes);
    }
    forall q, a | q in s.pipes && Inside(s.pipes[q], a)
      ensures exists f :: f in s.fds && s.fds[f].owner == a && s.fds[f].open && s.fds[f].pipe == Some(q)
    {
      var p := s.pipes[q];
      assert CallsInv(s.fds, p, q);
      var f := if a in p.w.calls then p.w.calls[a].fd else p.r.calls[a].fd;
      assert Uses(s.fds, a, f, q, a !in p.w.calls);
    }
  }

  // ---------------------------------------------------------------- what a pipe goes through

  /** `p` becomes `p'` by steps of the pipe machine, all of them clean if `clean`. */
  ghost predicate Evolves(p: Pipe, p': Pipe, clean: bool) {
    exists es :: Run(p, es) && After(p, es) == p' && (clean ==> AllClean(p, es))
  }

  lemma EvolvesNot(p: Pipe, clean: bool)
    ensures Evolves(p, p, clean)
  {
    assert Run(p, []) && After(p, []) == p && AllClean(p, []);
  }

  lemma EvolvesOnce(p: Pipe, e: PipeProtocol.Event)
    requires Enabled(p, e)
    ensures Evolves(p, Apply(p, e).pipe, Clean(p, e))
  {
    var q := Apply(p, e).pipe;
    assert [e][0] == e && [e][1..] == [];
    assert Run(q, []) && After(q, []) == q && AllClean(q, []);
    assert Run(p, [e]) && After(p, [e]) == q && (Clean(p, e) ==> AllClean(p, [e]));
  }

  lemma {:induction false} CleanThen(p: Pipe, es: seq<PipeProtocol.Event>, fs: seq<PipeProtocol.Event>)
    requires Run(p, es) && AllClean(p, es) && Run(After(p, es), fs) && AllClean(After(p, es), fs)
    requires Run(p, es + fs)
    ensures AllClean(p, es + fs)
    decreases |es|
  {
    if es == [] {
      assert es + fs == fs;
    } else {
      assert (es + fs)[0] == es[0] && (es + fs)[1..] == es[1..] + fs;
      CleanThen(Apply(p, es[0]).pipe, es[1..], fs);
    }
  }

  lemma EvolvesThen(p: Pipe, p': Pipe, p'': Pipe, clean: bool)
    requires Evolves(p, p', clean) && Evolves(p', p'', clean)
    ensures Evolves(p, p'', clean)
  {
    var es :| Run(p, es) && After(p, es) == p' && (clean ==> AllClean(p, es));
    var fs :| Run(p', fs) && After(p', fs) == p'' && (clean ==> AllClean(p', fs));
    RunThen(p, es, fs);
    if clean { CleanThen(p, es, fs); }
    assert Run(p, es + fs) && After(p, es + fs) == p'' && (clean ==> AllClean(p, es + fs));
  }

  lemma ReleasePipesAt(s: Sys, f: FdId, byClose: bool, q: PipeId)
    requires f in s.fds && Valid(s, s.fds[f]) && q in Release(s, f, byClose).pipes
    ensures q in s.pipes
    ensures Release(s, f, byClose).pipes[q]
         == if s.fds[f].pipe == Some(q) then Dropped(s.pipes[q], s.fds[f].isRead, byClose) else s.pipes[q]
  {
  }

  lemma ReleaseEvolves(s: Sys, f: FdId, byClose: bool, q: PipeId)
    requires SysInv(s) && CanRelease(s, f) && q in Release(s, f, byClose).pipes
    ensures q in s.pipes && Evolves(s.pipes[q], Release(s, f, byClose).pipes[q], true)
  {
    ReleaseRoom(s, f);
    ReleasePipesAt(s, f, byClose, q);
    if s.fds[f].pipe == Some(q) {
      DroppedEvolves(s.pipes[q], s.fds[f].isRead, byClose);
    } else {
      EvolvesNot(s.pipes[q], true);
    }
  }

  lemma DroppedEvolves(p: Pipe, isRead: bool, byClose: bool)
    requires if isRead then |p.r.calls| < p.r.count else |p.w.calls| < p.w.count
    ensures Evolves(p, Dropped(p, isRead, byClose), true)
  {
    EvolvesOnce(p, if !isRead then DropWriter else if byClose then CloseReader else ExitReader);
  }

  lemma RaiseEvolves(s: Sys, f: FdId, dup: bool, q: PipeId)
    requires SysInv(s) && f in s.fds && s.fds[f].open && !s.fds[f].console && q in s.pipes
    ensures Valid(s, s.fds[f])
    ensures Evolves(s.pipes[q], Raise(s, s.fds[f], dup).pipes[q], true)
  {
    var d, p := s.fds[f], s.pipes[q];
    assert Installed(d, f, s.tables, s.pipes);
    if q == d.pipe.value {
      assert Accounted(s.fds, p, q, true) && Accounted(s.fds, p, q, false);
      CountPositive(s.fds, p, q, f);
      EvolvesOnce(p, if d.isRead then AddReader(dup) else AddWriter(dup));
    } else {
      EvolvesNot(p, true);
    }
  }

  lemma {:induction false} ExitEvolves(s: Sys, t: seq<FdId>, k: nat, p: Proc, q: PipeId)
    requires SysInv(s) && k <= |t| && Idle(s.pipes, p)
    requires forall i | 0 <= i < |t| :: t[i] in s.fds && s.fds[t[i]].owner == p
    requires q in ExitSlots(s, t, k).pipes
    ensures q in s.pipes && Evolves(s.pipes[q], ExitSlots(s, t, k).pipes[q], true)
    decreases |t| - k
  {
    if k == |t| {
      EvolvesNot(s.pipes[q], true);
    } else {
      var s1 := ExitSlot(s, t[k]);
      ExitSlotInv(s, t[k]);
      SameInsideIdle(s.pipes, s1.pipes, p);
      ExitEvolves(s1, t, k + 1, p, q);
      if Shut(s.fds[t[k]]) {
        EvolvesNot(s.pipes[q], true);
      } else {
        ReleaseEvolves(s, t[k], false, q);
      }
      EvolvesThen(s.pipes[q], s1.pipes[q], ExitSlots(s, t, k).pipes[q], true);
    }
  }

  lemma {:induction false} ForkEvolves(s: Sys, src: seq<FdId>, k: nat, c: Proc, q: PipeId)
    requires SysInv(s) && c in s.tables && k <= |src| <= SLOTS && |s.tables[c]| == k
    requires forall i | 0 <= i < |src| :: src[i] in s.fds
    requires q in s.pipes
    ensures q in ForkSlots(s, src, k, c).pipes
    ensures Evolves(s.pipes[q], ForkSlots(s, src, k, c).pipes[q], true)
    decreases |src| - k
  {
    if k == |src| {
      EvolvesNot(s.pipes[q], true);
    } else {
      var s1 := ForkSlot(s, src[k], c);
      ForkSlotInv(s, src[k], c);
      ForkSlotAt(s, src[k], c, q);
      ForkEvolves(s1, src, k + 1, c, q);
      if Counted(s.fds[src[k]], q, s.fds[src[k]].isRead) {
        RaiseEvolves(s, src[k], false, q);
      } else {
        EvolvesNot(s.pipes[q], true);
      }
      EvolvesThen(s.pipes[q], s1.pipes[q], ForkSlots(s, src, k, c).pipes[q], true);
    }
  }

  /** A step is clean unless it resumes a pipe call with a step that is not. */
  predicate StepClean(s: Sys, e: SysEvent) {
    Possible(s, e) && (e.Resume? ==> Clean(s.pipes[e.q], e.step))
  }

  lemma WriteEvolves(s: Sys, p: Proc, slot: int, data: seq<Byte>, q: PipeId)
    requires SysInv(s) && HasTable(s, p) && Idle(s.pipes, p) && q in s.pipes
    requires Open(s, p, slot) ==> !Object(s, p, slot).console
    ensures q in Write(s, p, slot, data).sys.pipes
    ensures Evolves(s.pipes[q], Write(s, p, slot, data).sys.pipes[q], true)
  {
    EvolvesNot(s.pipes[q], true);
    if Open(s, p, slot) && !Object(s, p, slot).isRead {
      BeginLegal(s, p, slot);
      if q == Object(s, p, slot).pipe.value {
        EvolvesOnce(s.pipes[q], BeginWrite(p, s.tables[p][slot], data));
      }
    }
  }

  lemma ReadEvolves(s: Sys, p: Proc, slot: int, n: nat, q: PipeId)
    requires SysInv(s) && HasTable(s, p) && Idle(s.pipes, p) && q in s.pipes
    requires Open(s, p, slot) ==> !Object(s, p, slot).console
    ensures q in Read(s, p, slot, n).sys.pipes
    ensures Evolves(s.pipes[q], Read(s, p, slot, n).sys.pipes[q], true)
  {
    EvolvesNot(s.pipes[q], true);
    if Open(s, p, slot) && Object(s, p, slot).isRead {
      BeginLegal(s, p, slot);
      if q == Object(s, p, slot).pipe.value {
        EvolvesOnce(s.pipes[q], BeginRead(p, s.tables[p][slot], n));
      }
    }
  }

  lemma DupEvolves(s: Sys, p: Proc, source: int, q: PipeId)
    requires SysInv(s) && HasTable(s, p) && DupRegular(s, p, source) && q in s.pipes
    ensures q in Dup(s, p, source).sys.pipes && Evolves(s.pipes[q], Dup(s, p, source).sys.pipes[q], true)
  {
    EvolvesNot(s.pipes[q], true);
    if Open(s, p, source) && FirstClosed(s.tables[p], s.fds) < |s.tables[p]| {
      RaiseEvolves(s, s.tables[p][source], true, q);
    }
  }

  lemma Dup2Evolves(s: Sys, p: Proc, source: int, slot: int, q: PipeId)
    requires SysInv(s) && HasTable(s, p) && Dup2Regular(s, p, source, slot) && q in s.pipes
    ensures q in Dup2(s, p, source, slot).sys.pipes
    ensures Evolves(s.pipes[q], Dup2(s, p, source, slot).sys.pipes[q], true)
  {
    EvolvesNot(s.pipes[q], true);
    if Open(s, p, source) && 0 <= slot < |s.tables[p]| {
      RaiseEvolves(s, s.tables[p][source], true, q);
    }
  }

  lemma CloseEvolves(s: Sys, p: Proc, slot: int, q: PipeId)
    requires SysInv(s) && HasTable(s, p) && Idle(s.pipes, p) && q in Close(s, p, slot).sys.pipes
    ensures q in s.pipes && Evolves(s.pipes[q], Close(s, p, slot).sys.pipes[q], true)
  {
    if Open(s, p, slot) && !Object(s, p, slot).console {
      ReleaseEvolves(s, s.tables[p][slot], true, q);
    } else {
      EvolvesNot(s.pipes[q], true);
    }
  }

  lemma ForkCallEvolves(s: Sys, p: Proc, q: PipeId)
    requires SysInv(s) && HasTable(s, p) && s.nextProc !in s.tables && q in Fork(s, p, s.nextProc).pipes
    ensures q in s.pipes && Evolves(s.pipes[q], Fork(s, p, s.nextProc).pipes[q], true)
  {
    EmptyTableInv(s, s.nextProc);
    var s0 := s.(tables := s.tables[s.nextProc := []], nextProc := s.nextProc + 1);
    ForkSlotsInv(s0, s.tables[p], 0, s.nextProc);
    ForkEvolves(s0, s.tables[p], 0, s.nextProc, q);
  }

  lemma PipeCallEvolves(s: Sys, p: Proc, q: PipeId)
    requires SysInv(s) && HasTable(s, p) && q in PipeCall(s, p).sys.pipes
    ensures q !in s.pipes ==> q == s.nextPipe && PipeCall(s, p).sys.pipes[q] == NewPipe()
    ensures q in s.pipes ==> Evolves(s.pipes[q], PipeCall(s, p).sys.pipes[q], true)
  {
    if q in s.pipes { EvolvesNot(s.pipes[q], true); }
  }

  /** Whatever a regular step does to a pipe is a sequence of steps of the pipe machine; a pipe that
      was not there is new. */
  lemma StepEvolves(s: Sys, e: SysEvent, q: PipeId)
    requires SysInv(s) && Possible(s, e) && Regular(s, e) && q in Effect(s, e).sys.pipes
    ensures q !in s.pipes ==> q == s.nextPipe && Effect(s, e).sys.pipes[q] == NewPipe()
    ensures q in s.pipes ==> Evolves(s.pipes[q], Effect(s, e).sys.pipes[q], StepClean(s, e))
  {
    match e
    case Resume(q', step) =>
      if q == q' { EvolvesOnce(s.pipes[q], step); } else { EvolvesNot(s.pipes[q], StepClean(s, e)); }
    case Make(p, c) => CallEvolves(s, p, c, q);
  }

  lemma EndingCallEvolves(s: Sys, p: Proc, c: SysCall, q: PipeId)
    requires SysInv(s) && Possible(s, Make(p, c)) && Regular(s, Make(p, c)) && q in Effect(s, Make(p, c)).sys.pipes
    requires c.CallClose? || c.CallFork? || c.CallExit?
    ensures q in s.pipes && Evolves(s.pipes[q], Effect(s, Make(p, c)).sys.pipes[q], true)
  {
    match c
    case CallClose(slot) => CloseEvolves(s, p, slot, q);
    case CallFork => ForkCallEvolves(s, p, q);
    case CallExit => ExitEvolves(s, s.tables[p], 0, p, q);
  }

  lemma KeepingCallEvolves(s: Sys, p: Proc, c: SysCall, q: PipeId)
    requires SysInv(s) && Possible(s, Make(p, c)) && Regular(s, Make(p, c)) && q in s.pipes
    requires c.CallDup? || c.CallDup2? || c.CallWrite? || c.CallRead?
    ensures q in Effect(s, Make(p, c)).sys.pipes && Evolves(s.pipes[q], Effect(s, Make(p, c)).sys.pipes[q], true)
  {
    match c
    case CallDup(source) => DupEvolves(s, p, source, q);
    case CallDup2(source, slot) => Dup2Evolves(s, p, source, slot, q);
    case CallWrite(slot, data) => WriteEvolves(s, p, slot, data, q);
    case CallRead(slot, n) => ReadEvolves(s, p, slot, n, q);
  }

  lemma KeepingCallKeys(s: Sys, p: Proc, c: SysCall, q: PipeId)
    requires SysInv(s) && Possible(s, Make(p, c)) && Regular(s, Make(p, c)) && q in Effect(s, Make(p, c)).sys.pipes
    requires c.CallDup? || c.CallDup2? || c.CallWrite? || c.CallRead?
    ensures q in s.pipes
  {
  }

  lemma CallEvolves(s: Sys, p: Proc, c: SysCall, q: PipeId)
    requires SysInv(s) && Possible(s, Make(p, c)) && Regular(s, Make(p, c)) && q in Effect(s, Make(p, c)).sys.pipes
    ensures q !in s.pipes ==> q == s.nextPipe && Effect(s, Make(p, c)).sys.pipes[q] == NewPipe()
    ensures q in s.pipes ==> Evolves(s.pipes[q], Effect(s, Make(p, c)).sys.pipes[q], true)
  {
    if c.CallPipe? {
      PipeCallEvolves(s, p, q);
    } else if c.CallClose? || c.CallFork? || c.CallExit? {
      EndingCallEvolves(s, p, c, q);
    } else {
      KeepingCallKeys(s, p, c, q);
      KeepingCallEvolves(s, p, c, q);
    }
  }

  // ---------------------------------------------------------------- what every run keeps of a pipe

  predicate AllStepsClean(s: Sys, es: seq<SysEvent>)
    decreases |es|
  {
    es == [] || (StepClean(s, es[0]) && AllStepsClean(Effect(s, es[0]).sys, es[1..]))
  }

  /** A pipe name below `nextPipe` with no pipe is one that has been freed. It stays freed. */
  lemma {:induction false} FreedForGood(s: Sys, es: seq<SysEvent>, q: PipeId)
    requires SysInv(s) && SysRun(s, es) && q < s.nextPipe && q !in s.pipes
    ensures q < SysAfter(s, es).nextPipe && q !in SysAfter(s, es).pipes
    ensures Ends(SysAfter(s, es).fds, q, true) == {} && Ends(SysAfter(s, es).fds, q, false) == {}
    decreases |es|
  {
    if es == [] {
      forall f | f in s.fds ensures !Counted(s.fds[f], q, true) && !Counted(s.fds[f], q, false) {
        assert Installed(s.fds[f], f, s.tables, s.pipes);
      }
    } else {
      var s1 := Effect(s, es[0]).sys;
      StepInvIff(s, es[0]);
      NextPipeGrows(s, es[0]);
      if q in s1.pipes { StepEvolves(s, es[0], q); }
      FreedForGood(s1, es[1..], q);
    }
  }

  lemma CloseNextPipe(s: Sys, p: Proc, slot: int)
    requires HasTable(s, p)
    ensures Close(s, p, slot).sys.nextPipe == s.nextPipe
  {
  }

  lemma DupNextPipe(s: Sys, p: Proc, source: int, slot: int)
    requires HasTable(s, p)
    ensures Dup(s, p, source).sys.nextPipe == s.nextPipe && Dup2(s, p, source, slot).sys.nextPipe == s.nextPipe
  {
  }

  lemma BeginNextPipe(s: Sys, p: Proc, slot: int, data: seq<Byte>, n: nat)
    requires HasTable(s, p)
    ensures Write(s, p, slot, data).sys.nextPipe == s.nextPipe && Read(s, p, slot, n).sys.nextPipe == s.nextPipe
  {
  }

  lemma NextPipeGrows(s: Sys, e: SysEvent)
    requires SysInv(s) && Possible(s, e) && Regular(s, e)
    ensures s.nextPipe <= Effect(s, e).sys.nextPipe
  {
    match e
    case Resume(_, _) =>
    case Make(p, c) =>
      match c
      case CallPipe => assert PipeCall(s, p).sys.nextPipe >= s.nextPipe;
      case CallClose(slot) => CloseNextPipe(s, p, slot);
      case CallDup(source) => DupNextPipe(s, p, source, 0);
      case CallDup2(source, slot) => DupNextPipe(s, p, source, slot);
      case CallWrite(slot, data) => BeginNextPipe(s, p, slot, data, 0);
      case CallRead(slot, n) => BeginNextPipe(s, p, slot, [], n);
      case CallFork => ForkNextPipe(s, p);
      case CallExit => ExitSlotsInv(s, s.tables[p], 0, p);
  }

  lemma {:induction false} ForkSlotsNextPipe(s: Sys, src: seq<FdId>, k: nat, c: Proc)
    requires c in s.tables && k <= |src| && forall i | 0 <= i < |src| :: src[i] in s.fds
    ensures ForkSlots(s, src, k, c).nextPipe == s.nextPipe
    decreases |src| - k
  {
    if k < |src| { ForkSlotsNextPipe(ForkSlot(s, src[k], c), src, k + 1, c); }
  }

  lemma ForkNextPipe(s: Sys, p: Proc)
    requires HasTable(s, p) && s.nextProc !in s.tables
    ensures Fork(s, p, s.nextProc).nextPipe == s.nextPipe
  {
    ForkSlotsNextPipe(s.(tables := s.tables[s.nextProc := []], nextProc := s.nextProc + 1), s.tables[p], 0, s.nextProc);
  }

  /** From any point of a run to a later one, a pipe goes through steps of the pipe machine only. */
  lemma {:induction false} RunEvolves(s: Sys, es: seq<SysEvent>, q: PipeId)
    requires SysInv(s) && SysRun(s, es) && q in s.pipes && q in SysAfter(s, es).pipes
    ensures Evolves(s.pipes[q], SysAfter(s, es).pipes[q], AllStepsClean(s, es))
    decreases |es|
  {
    var clean := AllStepsClean(s, es);
    if es == [] {
      EvolvesNot(s.pipes[q], clean);
    } else {
      var s1 := Effect(s, es[0]).sys;
      StepInvIff(s, es[0]);
      NextPipeGrows(s, es[0]);
      assert q < s.nextPipe;
      if q !in s1.pipes {
        FreedForGood(s1, es[1..], q);
      }
      StepEvolves(s, es[0], q);
      RunEvolves(s1, es[1..], q);
      Weaken(s.pipes[q], s1.pipes[q], StepClean(s, es[0]), clean);
      Weaken(s1.pipes[q], SysAfter(s, es).pipes[q], AllStepsClean(s1, es[1..]), clean);
      EvolvesThen(s.pipes[q], s1.pipes[q], SysAfter(s, es).pipes[q], clean);
    }
  }

  lemma Weaken(p: Pipe, p': Pipe, clean: bool, clean': bool)
    requires Evolves(p, p', clean) && (clean' ==> clean)
    ensures Evolves(p, p', clean')
  {
  }

  /** Every pipe at any point of a run of clean steps is a queue. */
  lemma {:induction false} AllPipesFifo(s: Sys, es: seq<SysEvent>)
    requires SysInv(s) && SysRun(s, es) && AllStepsClean(s, es)
    requires forall q | q in s.pipes :: Sound(s.pipes[q])
    ensures SysInv(SysAfter(s, es))
    ensures forall q | q in SysAfter(s, es).pipes ::
              && Sound(SysAfter(s, es).pipes[q])
              && SysAfter(s, es).pipes[q].r.delivered <= SysAfter(s, es).pipes[q].w.stored
    decreases |es|
  {
    if es != [] {
      var s1 := Effect(s, es[0]).sys;
      StepInvIff(s, es[0]);
      forall q | q in s1.pipes ensures Sound(s1.pipes[q]) {
        StepEvolves(s, es[0], q);
        if q in s.pipes {
          EvolvesSound(s.pipes[q], s1.pipes[q]);
        } else {
          NewPipeInv();
        }
      }
      AllPipesFifo(s1, es[1..]);
    }
  }

  lemma EvolvesSound(p: Pipe, p': Pipe)
    requires PipeInv(p) && Sound(p) && Evolves(p, p', true)
    ensures PipeInv(p') && Sound(p')
  {
    var es :| Run(p, es) && After(p, es) == p' && (true ==> AllClean(p, es));
    SoundRun(p, es);
  }

  /** Once an end's count is zero, it is for as long as the pipe is allocated. */
  lemma ZeroStays(s: Sys, es: seq<SysEvent>, q: PipeId)
    requires SysInv(s) && SysRun(s, es) && q in s.pipes && q in SysAfter(s, es).pipes
    ensures s.pipes[q].r.count == 0 ==> SysAfter(s, es).pipes[q].r.count == 0
    ensures s.pipes[q].w.count == 0 ==> SysAfter(s, es).pipes[q].w.count == 0
  {
    RunEvolves(s, es, q);
    var fs :| Run(s.pipes[q], fs) && After(s.pipes[q], fs) == SysAfter(s, es).pipes[q];
    ZeroRun(s.pipes[q], fs);
  }

  lemma {:induction false} ZeroRun(p: Pipe, es: seq<PipeProtocol.Event>)
    requires Run(p, es) && PipeInv(p)
    ensures p.r.count == 0 ==> After(p, es).r.count == 0
    ensures p.w.count == 0 ==> After(p, es).w.count == 0
    decreases |es|
  {
    if es != [] {
      InvStep(p, es[0]);
      if Takes(es[0]) { TakesFrame(p, es[0]); }
      ZeroRun(Apply(p, es[0]).pipe, es[1..]);
    }
  }

  // ---------------------------------------------------------------- who is inside after a step

  /** Whoever is inside pipe `q` was there before, but perhaps a newcomer. */
  predicate Stayed(pipes: map<PipeId, Pipe>, pipes': map<PipeId, Pipe>, q: PipeId, a: Proc, came: Option<Proc>)
    requires q in pipes'
  {
    Inside(pipes'[q], a) ==>
      (q in pipes && Inside(pipes[q], a) && Carried(pipes[q], pipes'[q], a)) || came == Some(a)
  }

  /** The same processes have tables, and at most one is inside a pipe that was not. */
  ghost predicate Framed(s: Sys, s': Sys, came: Option<Proc>) {
    && s'.tables.Keys == s.tables.Keys && s'.nextProc == s.nextProc
    && forall q, a | q in s'.pipes :: Stayed(s.pipes, s'.pipes, q, a, came)
  }

  /** A call that leaves its process waiting has brought it in. */
  function Newcomer(r: Result, p: Proc): Option<Proc> { if r.reply.Pending? then Some(p) else None }

  lemma SameInsideFramed(s: Sys, r: Result, p: Proc)
    requires r.sys.tables.Keys == s.tables.Keys && r.sys.nextProc == s.nextProc
    requires SameInside(s.pipes, r.sys.pipes)
    ensures Framed(s, r.sys, Newcomer(r, p))
  {
  }

  lemma PipeCallFramed(s: Sys, p: Proc)
    requires HasTable(s, p)
    ensures Framed(s, PipeCall(s, p).sys, Newcomer(PipeCall(s, p), p))
  {
  }

  lemma CloseFramed(s: Sys, p: Proc, slot: int)
    requires SysInv(s) && HasTable(s, p) && Idle(s.pipes, p)
    ensures Framed(s, Close(s, p, slot).sys, Newcomer(Close(s, p, slot), p))
  {
    if Open(s, p, slot) && !Object(s, p, slot).console {
      ReleaseInv(s, s.tables[p][slot], true);
    }
    SameInsideFramed(s, Close(s, p, slot), p);
  }

  lemma ShareFramed(s: Sys, p: Proc, slot: int, f: FdId)
    requires p in s.tables && 0 <= slot < |s.tables[p]| && f in s.fds && Valid(s, s.fds[f])
    ensures Framed(s, Share(s, p, slot, f), None)
  {
  }

  lemma DupFramed(s: Sys, p: Proc, source: int)
    requires SysInv(s) && HasTable(s, p) && DupRegular(s, p, source)
    ensures Framed(s, Dup(s, p, source).sys, Newcomer(Dup(s, p, source), p))
  {
    if Open(s, p, source) && FirstClosed(s.tables[p], s.fds) < |s.tables[p]| {
      assert Installed(s.fds[s.tables[p][source]], s.tables[p][source], s.tables, s.pipes);
      ShareFramed(s, p, FirstClosed(s.tables[p], s.fds), s.tables[p][source]);
    }
  }

  lemma Dup2Framed(s: Sys, p: Proc, source: int, slot: int)
    requires SysInv(s) && HasTable(s, p) && Dup2Regular(s, p, source, slot)
    ensures Framed(s, Dup2(s, p, source, slot).sys, Newcomer(Dup2(s, p, source, slot), p))
  {
    if Open(s, p, source) && 0 <= slot < |s.tables[p]| {
      assert Installed(s.fds[s.tables[p][source]], s.tables[p][source], s.tables, s.pipes);
      ShareFramed(s, p, slot, s.tables[p][source]);
    }
  }

  lemma WriteFramed(s: Sys, p: Proc, slot: int, data: seq<Byte>)
    requires HasTable(s, p)
    ensures Framed(s, Write(s, p, slot, data).sys, Newcomer(Write(s, p, slot, data), p))
  {
  }

  lemma ReadFramed(s: Sys, p: Proc, slot: int, n: nat)
    requires HasTable(s, p)
    ensures Framed(s, Read(s, p, slot, n).sys, Newcomer(Read(s, p, slot, n), p))
  {
  }

  lemma CallFramed(s: Sys, p: Proc, c: SysCall)
    requires SysInv(s) && Possible(s, Make(p, c)) && Regular(s, Make(p, c)) && !c.CallFork? && !c.CallExit?
    ensures Framed(s, Effect(s, Make(p, c)).sys, Newcomer(Effect(s, Make(p, c)), p))
  {
    match c
    case CallPipe => PipeCallFramed(s, p);
    case CallClose(slot) => CloseFramed(s, p, slot);
    case CallDup(source) => DupFramed(s, p, source);
    case CallDup2(source, slot) => Dup2Framed(s, p, source, slot);
    case CallWrite(slot, data) => WriteFramed(s, p, slot, data);
    case CallRead(slot, n) => ReadFramed(s, p, slot, n);
  }

  /** A call that returns is over: its process is inside no pipe. */
  lemma ReturnedIsOut(p: Pipe, e: PipeProtocol.Event)
    requires PipeInv(p) && Enabled(p, e) && Takes(e) && Apply(p, e).Returned?
    ensures !Inside(Apply(p, e).pipe, e.proc)
  {
    assert e.TakeWrite? || e.TakeSpace? ==> e.proc in p.w.calls.Keys;
    assert e.TakeRead? || e.TakeElement? ==> e.proc in p.r.calls.Keys;
  }

  lemma SwappedFramed(s: Sys, q: PipeId, p': Pipe)
    requires q in s.pipes && NobodyNew(s.pipes[q], p')
    ensures Framed(s, s.(pipes := s.pipes[q := p']), None)
  {
    var pipes' := s.pipes[q := p'];
    forall q', a | q' in pipes' ensures Stayed(s.pipes, pipes', q', a, None) {
      if q' == q { assert Carried(s.pipes[q], p', a); }
    }
  }

  lemma OutEverywhere(pipes: map<PipeId, Pipe>, q: PipeId, p': Pipe, a: Proc)
    requires OneCall(pipes) && q in pipes && Inside(pipes[q], a) && !Inside(p', a)
    ensures Idle(pipes[q := p'], a)
  {
  }

  lemma TakerInside(p: Pipe, e: PipeProtocol.Event)
    requires Takes(e) && Enabled(p, e)
    ensures Inside(p, e.proc)
  {
  }

  lemma ResumeFramed(s: Sys, q: PipeId, step: PipeProtocol.Event)
    requires SysInv(s) && Possible(s, Resume(q, step))
    ensures Framed(s, Effect(s, Resume(q, step)).sys, None)
    ensures Effect(s, Resume(q, step)).reply.Value? ==> Idle(Effect(s, Resume(q, step)).sys.pipes, step.proc)
  {
    var o := Apply(s.pipes[q], step);
    TakesFrame(s.pipes[q], step);
    SwappedFramed(s, q, o.pipe);
    TakerInside(s.pipes[q], step);
    if o.Returned? {
      ReturnedIsOut(s.pipes[q], step);
      OutEverywhere(s.pipes, q, o.pipe, step.proc);
    }
  }

  /** A process that a call has brought into a pipe is there with the arguments of the call. */
  predicate Began(p: Pipe, a: Proc, c: SysCall) {
    && (a in p.w.calls ==> c.CallWrite? && p.w.calls[a].data == c.data)
    && (a in p.r.calls ==> c.CallRead? && p.r.calls[a].n == c.n)
  }

  lemma WriteBegan(s: Sys, p: Proc, slot: int, data: seq<Byte>, q: PipeId)
    requires HasTable(s, p) && q in Write(s, p, slot, data).sys.pipes && (q in s.pipes ==> !Inside(s.pipes[q], p))
    ensures Began(Write(s, p, slot, data).sys.pipes[q], p, CallWrite(slot, data))
  {
  }

  lemma ReadBegan(s: Sys, p: Proc, slot: int, n: nat, q: PipeId)
    requires HasTable(s, p) && q in Read(s, p, slot, n).sys.pipes && (q in s.pipes ==> !Inside(s.pipes[q], p))
    ensures Began(Read(s, p, slot, n).sys.pipes[q], p, CallRead(slot, n))
  {
  }

  lemma CallBegins(s: Sys, p: Proc, c: SysCall, q: PipeId)
    requires SysInv(s) && Possible(s, Make(p, c)) && (c.CallWrite? || c.CallRead?)
    requires q in Effect(s, Make(p, c)).sys.pipes
    ensures Began(Effect(s, Make(p, c)).sys.pipes[q], p, c)
  {
    assert q in s.pipes ==> !Inside(s.pipes[q], p);
    if c.CallWrite? { WriteBegan(s, p, c.slot, c.data, q); } else { ReadBegan(s, p, c.slot, c.n, q); }
  }

  lemma PendingOnly(s: Sys, p: Proc, c: SysCall)
    requires SysInv(s) && Possible(s, Make(p, c)) && Regular(s, Make(p, c)) && Effect(s, Make(p, c)).reply.Pending?
    ensures c.CallWrite? || c.CallRead?
  {
  }

  // ---------------------------------------------------------------- whose descriptors a step changes

  /** The table of process `a` and every object made for it are as they were. */
  predicate Kept(s: Sys, s': Sys, a: Proc) {
    && (a in s.tables ==> a in s'.tables && s'.tables[a] == s.tables[a])
    && (forall g | g in s.fds && s.fds[g].owner == a :: g in s'.fds && s'.fds[g] == s.fds[g])
  }

  lemma KeptThen(s: Sys, s': Sys, s'': Sys, a: Proc)
    requires Kept(s, s', a) && Kept(s', s'', a)
    ensures Kept(s, s'', a)
  {
  }

  lemma OwnSlot(s: Sys, p: Proc, slot: int)
    requires SysInv(s) && p in s.tables && 0 <= slot < |s.tables[p]|
    ensures s.tables[p][slot] in s.fds && s.fds[s.tables[p][slot]].owner == p
  {
  }

  lemma PipeCallKeeps(s: Sys, p: Proc, a: Proc)
    requires SysInv(s) && HasTable(s, p) && a != p
    ensures Kept(s, PipeCall(s, p).sys, a)
  {
  }

  lemma CloseKeeps(s: Sys, p: Proc, slot: int, a: Proc)
    requires SysInv(s) && HasTable(s, p) && a != p
    ensures Kept(s, Close(s, p, slot).sys, a)
  {
    if Open(s, p, slot) { OwnSlot(s, p, slot); }
  }

  lemma ShareKeeps(s: Sys, p: Proc, slot: int, f: FdId, a: Proc)
    requires p in s.tables && 0 <= slot < |s.tables[p]| && f in s.fds && a != p
    ensures Kept(s, Share(s, p, slot, f), a)
  {
  }

  lemma DetachKeeps(s: Sys, f: FdId, a: Proc)
    requires f in s.fds && s.fds[f].owner != a
    ensures Kept(s, Detach(s, f), a) && Detach(s, f).fds.Keys == s.fds.Keys && Detach(s, f).tables == s.tables
  {
  }

  lemma DupKeeps(s: Sys, p: Proc, source: int, a: Proc)
    requires HasTable(s, p) && a != p
    ensures Kept(s, Dup(s, p, source).sys, a)
  {
  }

  lemma Dup2Keeps(s: Sys, p: Proc, source: int, slot: int, a: Proc)
    requires SysInv(s) && HasTable(s, p) && a != p
    ensures Kept(s, Dup2(s, p, source, slot).sys, a)
  {
    if Open(s, p, source) && 0 <= slot < |s.tables[p]| {
      var f, g := s.tables[p][slot], s.tables[p][source];
      OwnSlot(s, p, slot);
      if Open(s, p, slot) {
        DetachKeeps(s, f, a);
        ShareKeeps(Detach(s, f), p, slot, g, a);
        KeptThen(s, Detach(s, f), Share(Detach(s, f), p, slot, g), a);
      } else {
        ShareKeeps(s, p, slot, g, a);
      }
    }
  }

  lemma BeginKeeps(s: Sys, p: Proc, slot: int, data: seq<Byte>, n: nat, a: Proc)
    requires HasTable(s, p)
    ensures Kept(s, Write(s, p, slot, data).sys, a) && Kept(s, Read(s, p, slot, n).sys, a)
  {
  }

  /** No step changes the descriptors of a process that does not make it. */
  lemma OthersKept(s: Sys, e: SysEvent, a: Proc)
    requires SysInv(s) && Possible(s, e) && (e.Make? ==> e.proc != a)
    ensures Kept(s, Effect(s, e).sys, a)
  {
    if e.Make? {
      var p, c := e.proc, e.call;
      match c
      case CallPipe => PipeCallKeeps(s, p, a);
      case CallClose(slot) => CloseKeeps(s, p, slot, a);
      case CallDup(source) => DupKeeps(s, p, source, a);
      case CallDup2(source, slot) => Dup2Keeps(s, p, source, slot, a);
      case CallWrite(slot, data) => BeginKeeps(s, p, slot, data, 0, a);
      case CallRead(slot, n) => BeginKeeps(s, p, slot, [], n, a);
      case CallFork => ForkCopies(s, p);
      case CallExit => ExitInv(s, p);
    }
  }
}
