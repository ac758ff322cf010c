/** What the descriptor calls promise their callers, slot by slot. */
module DescriptorResults {
  import opened Base
  import opened PipeProtocol
  import opened PipeFifo
  import opened Descriptors
  import opened DescriptorCalls
  import opened DescriptorRuns

  /** Slot `i` is the lowest whose object is not open. */
  predicate LowestClosed(s: Sys, p: Proc, i: nat)
    requires HasTable(s, p)
  {
    i < |s.tables[p]| && !Open(s, p, i) && forall j: nat | j < i :: Open(s, p, j)
  }

  predicate AllOpen(s: Sys, p: Proc)
    requires HasTable(s, p)
  {
    forall i: nat | i < |s.tables[p]| :: Open(s, p, i)
  }

  /** `dup` fails exactly when its source is not open or no slot is closed, and then changes nothing;
      else the lowest closed slot shows the source's own object, and every other slot and every object
      is as it was. */
  lemma DupShares(s: Sys, p: Proc, source: int)
    requires SysInv(s) && p in s.tables && HasTable(s, p) && DupRegular(s, p, source)
    ensures var r := Dup(s, p, source);
      if !Open(s, p, source) || AllOpen(s, p) then r == Result(s, Value(-EBADF))
      else
        && r.reply.Value? && r.reply.value >= 0 && LowestClosed(s, p, r.reply.value)
        && r.sys.tables == s.tables[p := s.tables[p][r.reply.value := s.tables[p][source]]] && r.sys.fds == s.fds
        && OneMore(s.pipes, r.sys.pipes, Object(s, p, source))
  {
    var slot := FirstClosed(s.tables[p], s.fds);
    ShownIsValid(s, p, source);
    if Open(s, p, source) && slot < |s.tables[p]| {
      assert !Open(s, p, slot);
      ShareMore(s, p, slot, s.tables[p][source]);
    }
  }

  /** The pipe with its counts and `dup` histories changed by these amounts, and nothing else. */
  predicate Recounted(p: Pipe, p': Pipe, readers: int, writers: int, readDups: int, writeDups: int) {
    && p'.r.count == p.r.count + readers && p'.w.count == p.w.count + writers
    && p'.r.dups == p.r.dups + readDups && p'.w.dups == p.w.dups + writeDups
    && p' == p.(r := p.r.(count := p'.r.count, dups := p'.r.dups), w := p.w.(count := p'.w.count, dups := p'.w.dups))
  }

  /** The end that `d` is of has one more descriptor, recorded as a `dup`; no other pipe has changed. */
  predicate OneMore(pipes: map<PipeId, Pipe>, pipes': map<PipeId, Pipe>, d: Fd) {
    && pipes'.Keys == pipes.Keys
    && forall q | q in pipes ::
         var r, w := if d.pipe == Some(q) && d.isRead then 1 else 0, if d.pipe == Some(q) && !d.isRead then 1 else 0;
         Recounted(pipes[q], pipes'[q], r, w, r, w)
  }

  lemma ShownIsValid(s: Sys, p: Proc, slot: int)
    requires SysInv(s) && p in s.tables && HasTable(s, p)
    ensures Open(s, p, slot) && !Object(s, p, slot).console ==> Valid(s, Object(s, p, slot))
  {
    if Open(s, p, slot) { assert Installed(Object(s, p, slot), s.tables[p][slot], s.tables, s.pipes); }
  }

  lemma ShareMore(s: Sys, p: Proc, slot: int, g: FdId)
    requires p in s.tables && 0 <= slot < |s.tables[p]| && g in s.fds
    ensures var s', table: seq<FdId> := Share(s, p, slot, g), s.tables[p][slot := g];
      && s'.tables == s.tables[p := table] && s'.fds == s.fds
      && (if Valid(s, s.fds[g]) then
            s' == s.(tables := s'.tables, pipes := s'.pipes) && OneMore(s.pipes, s'.pipes, s.fds[g])
          else s'.crashed)
  {
  }

  /** `dup2` fails exactly when its source is closed or its target out of range, and then changes nothing.
      Else it answers with its target, which shows the source's own object. With a closed target and a
      pipe source nothing else changes but the count of the source's end, one up. */
  lemma Dup2Shares(s: Sys, p: Proc, source: int, slot: int)
    requires SysInv(s) && p in s.tables && HasTable(s, p)
    ensures var r := Dup2(s, p, source, slot);
      if !Open(s, p, source) || slot < 0 || slot >= |s.tables[p]| then r == Result(s, Value(-EBADF))
      else
        && r.reply == Value(slot) && r.sys.tables == s.tables[p := s.tables[p][slot := s.tables[p][source]]]
        && (Object(s, p, source).console ==> r.sys.crashed)
        && (!Open(s, p, slot) && !Object(s, p, source).console ==>
              && r.sys == s.(tables := r.sys.tables, pipes := r.sys.pipes)
              && OneMore(s.pipes, r.sys.pipes, Object(s, p, source)))
  {
    if Open(s, p, source) && 0 <= slot < |s.tables[p]| {
      ShownIsValid(s, p, source);
      if Open(s, p, slot) {
        DetachLess(s, s.tables[p][slot]);
        ShareMore(Detach(s, s.tables[p][slot]), p, slot, s.tables[p][source]);
      } else {
        ShareMore(s, p, slot, s.tables[p][source]);
      }
    }
  }

  /** One descriptor less at both ends of the pipe of `target`. */
  predicate OneLess(pipes: map<PipeId, Pipe>, pipes': map<PipeId, Pipe>, target: Fd) {
    && pipes'.Keys == pipes.Keys
    && forall q | q in pipes ::
         var gone := if target.pipe == Some(q) then -1 else 0;
         Recounted(pipes[q], pipes'[q], gone, gone, 0, 0)
  }

  lemma DetachLess(s: Sys, f: FdId)
    requires f in s.fds
    ensures var s' := Detach(s, f);
      && s'.tables == s.tables
      && (if Valid(s, s.fds[f]) then
            && s' == s.(fds := s.fds[f := s.fds[f].(console := false, open := false, pipe := None)], pipes := s'.pipes)
            && OneLess(s.pipes, s'.pipes, s.fds[f])
          else s' == s.(crashed := true))
  {
  }

  /** What `dup2` makes of the pipe of an open target: both counts go down, whichever end it was, and the
      source's end goes up. */
  predicate Retargeted(pipes: map<PipeId, Pipe>, pipes': map<PipeId, Pipe>, target: Fd, d: Fd) {
    && pipes'.Keys == pipes.Keys
    && forall q | q in pipes ::
         var r, w := if d.pipe == Some(q) && d.isRead then 1 else 0, if d.pipe == Some(q) && !d.isRead then 1 else 0;
         var gone := if target.pipe == Some(q) then 1 else 0;
         Recounted(pipes[q], pipes'[q], r - gone, w - gone, r, w)
  }

  /** A console target, a console source, or a source that shows the target's own object, is dereferenced
      without a pipe. */
  lemma Dup2Crashes(s: Sys, p: Proc, source: int, slot: int)
    requires SysInv(s) && p in s.tables && HasTable(s, p) && Open(s, p, source) && Open(s, p, slot)
    requires Object(s, p, slot).console || Object(s, p, source).console || s.tables[p][slot] == s.tables[p][source]
    ensures Dup2(s, p, source, slot).sys.crashed
  {
    DetachLess(s, s.tables[p][slot]);
    ShareMore(Detach(s, s.tables[p][slot]), p, slot, s.tables[p][source]);
  }

  /** Any other open target loses its object, which is closed and has no pipe from then on. */
  lemma Dup2Retargets(s: Sys, p: Proc, source: int, slot: int)
    requires SysInv(s) && p in s.tables && HasTable(s, p) && Open(s, p, source) && Open(s, p, slot)
    requires !Object(s, p, slot).console && !Object(s, p, source).console && s.tables[p][slot] != s.tables[p][source]
    ensures var s', f := Dup2(s, p, source, slot).sys, s.tables[p][slot];
      && s' == s.(tables := s'.tables, fds := s'.fds, pipes := s'.pipes)
      && s'.fds == s.fds[f := s.fds[f].(console := false, open := false, pipe := None)]
      && Retargeted(s.pipes, s'.pipes, s.fds[f], Object(s, p, source))
  {
    var f, g := s.tables[p][slot], s.tables[p][source];
    ShownIsValid(s, p, source);
    ShownIsValid(s, p, slot);
    DetachLess(s, f);
    ShareMore(Detach(s, f), p, slot, g);
    LessThenMore(s.pipes, Detach(s, f).pipes, Dup2(s, p, source, slot).sys.pipes, s.fds[f], s.fds[g]);
  }

  lemma LessThenMore(p0: map<PipeId, Pipe>, p1: map<PipeId, Pipe>, p2: map<PipeId, Pipe>, target: Fd, d: Fd)
    requires OneLess(p0, p1, target) && OneMore(p1, p2, d)
    ensures Retargeted(p0, p2, target, d)
  {
  }

  /** `close` makes closed every slot of the caller that shows the same object, and no other; console
      descriptors stay open. */
  lemma CloseCloses(s: Sys, p: Proc, slot: int, i: nat)
    requires SysInv(s) && p in s.tables && HasTable(s, p) && Idle(s.pipes, p) && i < |s.tables[p]|
    requires Open(s, p, slot)
    ensures Close(s, p, slot).reply == Value(0) && HasTable(Close(s, p, slot).sys, p)
    ensures Open(Close(s, p, slot).sys, p, i)
       <==> Open(s, p, i) && (Object(s, p, slot).console || s.tables[p][i] != s.tables[p][slot])
  {
  }

  /** The last reader to close posts a permit for every counted writer. */
  function Posted(p: Pipe, isRead: bool): int {
    if isRead && p.r.count == 1 && p.w.count > 0 then p.w.count else 0
  }

  /** `close` of a pipe descriptor lowers the count of its end by one and posts permits only when that was
      the last reader; the pipe is freed exactly when that was its last descriptor. */
  lemma CloseDrops(s: Sys, p: Proc, slot: int)
    requires SysInv(s) && p in s.tables && HasTable(s, p) && Open(s, p, slot) && !Object(s, p, slot).console
    ensures var s', f, d := Close(s, p, slot).sys, s.tables[p][slot], Object(s, p, slot);
      && d.pipe.Some? && d.pipe.value in s.pipes
      && s' == s.(fds := s.fds[f := d.(open := false)], pipes := s'.pipes)
      && (forall q | q in s.pipes && q != d.pipe.value :: q in s'.pipes && s'.pipes[q] == s.pipes[q])
      && (forall q | q in s'.pipes :: q in s.pipes)
      && (var q, r := s.pipes[d.pipe.value], if d.isRead then 1 else 0;
          && (d.pipe.value !in s'.pipes <==> q.r.count + q.w.count == 1)
          && (d.pipe.value in s'.pipes ==>
                var q' := s'.pipes[d.pipe.value];
                && q'.r.count == q.r.count - r && q'.w.count == q.w.count - (1 - r)
                && q'.space == q.space + Posted(q, d.isRead)
                && q' == q.(space := q'.space, released := q'.released,
                            r := q.r.(count := q'.r.count), w := q.w.(count := q'.w.count))))
  {
    ShownIsValid(s, p, slot);
    var q := Object(s, p, slot).pipe.value;
    assert Accounted(s.fds, s.pipes[q], q, true) && Accounted(s.fds, s.pipes[q], q, false);
    CountPositive(s.fds, s.pipes[q], q, s.tables[p][slot]);
  }

  /** A write gets in exactly when its slot is open, shows a write end, and somebody can read; it then waits
      for `write` with its bytes. Else it answers -EBADF and nothing changes. */
  lemma WriteEnters(s: Sys, p: Proc, slot: int, data: seq<Byte>)
    requires SysInv(s) && p in s.tables && HasTable(s, p)
    requires Open(s, p, slot) ==> !Object(s, p, slot).console
    ensures var r := Write(s, p, slot, data);
      if !Open(s, p, slot) || Object(s, p, slot).isRead then r == Result(s, Value(-EBADF))
      else
        var q := Object(s, p, slot).pipe;
        && q.Some? && q.value in s.pipes
        && (if s.pipes[q.value].r.count == 0 then r == Result(s, Value(-EBADF))
            else
              && r.reply == Pending && q.value in r.sys.pipes
              && r.sys.pipes[q.value].w.calls
                 == s.pipes[q.value].w.calls[p := WaitWrite(s.tables[p][slot], data)])
  {
    ShownIsValid(s, p, slot);
    if Open(s, p, slot) && !Object(s, p, slot).isRead {
      assert s.pipes[Object(s, p, slot).pipe.value := s.pipes[Object(s, p, slot).pipe.value]] == s.pipes;
    }
  }

  /** A read gets in exactly when its slot is open and shows a read end. */
  lemma ReadEnters(s: Sys, p: Proc, slot: int, n: nat)
    requires SysInv(s) && p in s.tables && HasTable(s, p)
    requires Open(s, p, slot) ==> !Object(s, p, slot).console
    ensures var r := Read(s, p, slot, n);
      if !Open(s, p, slot) || !Object(s, p, slot).isRead then r == Result(s, Value(-EBADF))
      else
        var q := Object(s, p, slot).pipe;
        && q.Some? && q.value in s.pipes && r.reply == Pending && q.value in r.sys.pipes
        && r.sys.pipes[q.value].r.calls == s.pipes[q.value].r.calls[p := WaitRead(s.tables[p][slot], n)]
  {
    ShownIsValid(s, p, slot);
  }

  /** Two slots show different closed objects. */
  predicate TwoClosed(s: Sys, p: Proc)
    requires HasTable(s, p)
  {
    exists i: nat, j: nat :: i < |s.tables[p]| && j < |s.tables[p]| && !Open(s, p, i) && !Open(s, p, j)
                             && s.tables[p][i] != s.tables[p][j]
  }

  /** Slot `i` shows an open descriptor for an end of pipe `q`. */
  predicate ShowsEnd(s: Sys, p: Proc, i: nat, q: PipeId, isRead: bool)
    requires HasTable(s, p)
  {
    i < |s.tables[p]| && Counted(Object(s, p, i), q, isRead)
  }

  lemma SecondClosed(s: Sys, p: Proc)
    requires HasTable(s, p)
    ensures var t := s.tables[p];
            var r := FirstClosed(t, s.fds);
            r < |t| ==>
              (FirstClosed(t, s.fds[t[r] := s.fds[t[r]].(open := true)]) < |t| <==> TwoClosed(s, p))
  {
  }

  /** `pipe` fails exactly when the table does not show two different closed objects. Else the lowest
      closed slot becomes the read end, and the lowest slot with another closed object the write end, of
      a pipe that did not exist; every other object is as it was. */
  lemma PipeOpens(s: Sys, p: Proc)
    requires SysInv(s) && p in s.tables && HasTable(s, p)
    ensures var r := PipeCall(s, p);
      && r.reply == Value(if TwoClosed(s, p) then 0 else -EMFILE)
      && (TwoClosed(s, p) ==>
            var q := s.nextPipe;
            && q !in s.pipes && r.sys.pipes == s.pipes[q := NewPipe()] && HasTable(r.sys, p)
            && exists i: nat, j: nat ::
                 && LowestClosed(s, p, i) && i < j && ShowsEnd(r.sys, p, i, q, true) && ShowsEnd(r.sys, p, j, q, false)
                 && !Open(s, p, j)
                 && (forall k: nat | k < j && !Open(s, p, k) :: s.tables[p][k] == s.tables[p][i])
                 && (forall g | g in s.fds && g != s.tables[p][i] && g != s.tables[p][j] :: r.sys.fds[g] == s.fds[g]))
  {
    var t := s.tables[p];
    var i := FirstClosed(t, s.fds);
    SecondClosed(s, p);
    if i < |t| {
      var fds := s.fds[t[i] := s.fds[t[i]].(open := true)];
      var j := FirstClosed(t, fds);
      if j < |t| {
        PipeSlots(s, p);
        assert LowestClosed(s, p, i);
        SecondSlot(s, p, i, j);
      }
    } else {
      assert !TwoClosed(s, p);
    }
  }

  lemma SecondSlot(s: Sys, p: Proc, i: nat, j: nat)
    requires SysInv(s) && p in s.tables && HasTable(s, p)
    requires i == FirstClosed(s.tables[p], s.fds) < |s.tables[p]|
    requires var t := s.tables[p]; j == FirstClosed(t, s.fds[t[i] := s.fds[t[i]].(open := true)]) < |t|
    ensures i < j && !Open(s, p, j)
    ensures forall k: nat | k < j && !Open(s, p, k) :: s.tables[p][k] == s.tables[p][i]
    ensures var s' := PipeCall(s, p).sys;
      && HasTable(s', p) && ShowsEnd(s', p, i, s.nextPipe, true) && ShowsEnd(s', p, j, s.nextPipe, false)
      && (forall g | g in s.fds && g != s.tables[p][i] && g != s.tables[p][j] :: s'.fds[g] == s.fds[g])
  {
  }

  // ---------------------------------------------------------------- what dup costs

  /** `p'` has had at least the `dup` calls that `p` had. */
  predicate DupsKept(p: Pipe, p': Pipe) { p.r.dups <= p'.r.dups && p.w.dups <= p'.w.dups }

  /** The steps of a pipe never forget a `dup`. */
  lemma {:induction false} DupsRun(p: Pipe, es: seq<PipeProtocol.Event>)
    requires PipeInv(p) && Run(p, es)
    ensures DupsKept(p, After(p, es))
    decreases |es|
  {
    if es != [] {
      InvStep(p, es[0]);
      if Takes(es[0]) { TakesFrame(p, es[0]); }
      DupsRun(Apply(p, es[0]).pipe, es[1..]);
    }
  }

  lemma EvolvesDups(p: Pipe, p': Pipe, clean: bool)
    requires PipeInv(p) && Evolves(p, p', clean)
    ensures DupsKept(p, p')
  {
    var es :| Run(p, es) && After(p, es) == p' && (clean ==> AllClean(p, es));
    DupsRun(p, es);
  }

  predicate Dupped(p: Pipe) { p.r.dups + p.w.dups > 0 }

  lemma ReleaseKeepsDupped(s: Sys, f: FdId, byClose: bool, q: PipeId)
    requires SysInv(s) && CanRelease(s, f) && q in s.pipes && Dupped(s.pipes[q])
    ensures q in Release(s, f, byClose).pipes && Dupped(Release(s, f, byClose).pipes[q])
  {
    ReleasedPipe(s, f, byClose);
    if s.fds[f].pipe == Some(q) {
      DroppedFields(s.pipes[q], s.fds[f].isRead, byClose);
      assert Dups(Dropped(s.pipes[q], s.fds[f].isRead, byClose), true) == s.pipes[q].r.dups;
      assert Dups(Dropped(s.pipes[q], s.fds[f].isRead, byClose), false) == s.pipes[q].w.dups;
    }
  }

  lemma ExitSlotKeepsDupped(s: Sys, f: FdId, q: PipeId)
    requires SysInv(s) && f in s.fds && Idle(s.pipes, s.fds[f].owner) && q in s.pipes && Dupped(s.pipes[q])
    ensures q in ExitSlot(s, f).pipes && Dupped(ExitSlot(s, f).pipes[q])
  {
    if !Shut(s.fds[f]) { ReleaseKeepsDupped(s, f, false, q); }
  }

  lemma OwnersKept(s: Sys, s': Sys, t: seq<FdId>, p: Proc)
    requires OnlyCloses(s, s', p) && forall i | 0 <= i < |t| :: t[i] in s.fds && s.fds[t[i]].owner == p
    ensures forall i | 0 <= i < |t| :: t[i] in s'.fds && s'.fds[t[i]].owner == p
  {
  }

  lemma {:induction false} ExitKeepsDupped(s: Sys, t: seq<FdId>, k: nat, p: Proc, q: PipeId)
    requires SysInv(s) && k <= |t| && Idle(s.pipes, p) && q in s.pipes && Dupped(s.pipes[q])
    requires forall i | 0 <= i < |t| :: t[i] in s.fds && s.fds[t[i]].owner == p
    ensures q in ExitSlots(s, t, k).pipes
    decreases |t| - k
  {
    if k < |t| {
      ExitSlotInv(s, t[k]);
      SameInsideIdle(s.pipes, ExitSlot(s, t[k]).pipes, p);
      ExitSlotKeepsDupped(s, t[k], q);
      OwnersKept(s, ExitSlot(s, t[k]), t, p);
      ExitKeepsDupped(ExitSlot(s, t[k]), t, k + 1, p, q);
    }
  }

  lemma CloseKeepsDupped(s: Sys, p: Proc, slot: int, q: PipeId)
    requires SysInv(s) && HasTable(s, p) && Idle(s.pipes, p) && q in s.pipes && Dupped(s.pipes[q])
    ensures q in Close(s, p, slot).sys.pipes
  {
    if Open(s, p, slot) && !Object(s, p, slot).console { ReleaseKeepsDupped(s, s.tables[p][slot], true, q); }
  }

  lemma {:induction false} ForkSlotsKeepPipes(s: Sys, src: seq<FdId>, k: nat, c: Proc, q: PipeId)
    requires c in s.tables && k <= |src| && q in s.pipes && forall i | 0 <= i < |src| :: src[i] in s.fds
    ensures q in ForkSlots(s, src, k, c).pipes
    decreases |src| - k
  {
    if k < |src| { ForkSlotsKeepPipes(ForkSlot(s, src[k], c), src, k + 1, c, q); }
  }

  lemma ForkKeepsPipes(s: Sys, p: Proc, q: PipeId)
    requires HasTable(s, p) && s.nextProc !in s.tables && q in s.pipes
    ensures q in Fork(s, p, s.nextProc).pipes
  {
    ForkSlotsKeepPipes(s.(tables := s.tables[s.nextProc := []], nextProc := s.nextProc + 1), s.tables[p], 0,
                       s.nextProc, q);
  }

  lemma CallKeepsDupped(s: Sys, p: Proc, c: SysCall, q: PipeId)
    requires SysInv(s) && Possible(s, Make(p, c)) && Regular(s, Make(p, c)) && q in s.pipes && Dupped(s.pipes[q])
    ensures q in Effect(s, Make(p, c)).sys.pipes
  {
    if c.CallClose? {
      CloseKeepsDupped(s, p, c.slot, q);
    } else if c.CallFork? {
      ForkKeepsPipes(s, p, q);
    } else if c.CallExit? {
      ExitKeepsDupped(s, s.tables[p], 0, p, q);
    } else if c.CallPipe? {
      assert q in PipeCall(s, p).sys.pipes;
    } else {
      KeepingCallEvolves(s, p, c, q);
    }
  }

  lemma StepKeepsDupped(s: Sys, e: SysEvent, q: PipeId)
    requires SysInv(s) && Possible(s, e) && Regular(s, e) && q in s.pipes && Dupped(s.pipes[q])
    ensures q in Effect(s, e).sys.pipes && Dupped(Effect(s, e).sys.pipes[q])
  {
    if e.Make? { CallKeepsDupped(s, e.proc, e.call, q); }
    StepEvolves(s, e, q);
    EvolvesDups(s.pipes[q], Effect(s, e).sys.pipes[q], StepClean(s, e));
  }

  /** Once `dup` has been called on a pipe it is never freed: whatever is closed and whoever exits, the
      count of the end that was duplicated stays above zero. */
  lemma {:induction false} DuppedNeverFreed(s: Sys, es: seq<SysEvent>, q: PipeId)
    requires SysInv(s) && SysRun(s, es) && q in s.pipes && Dupped(s.pipes[q])
    ensures q in SysAfter(s, es).pipes && Dupped(SysAfter(s, es).pipes[q])
    ensures var p := SysAfter(s, es).pipes[q];
            (p.r.dups > 0 ==> p.r.count > 0) && (p.w.dups > 0 ==> p.w.count > 0)
    decreases |es|
  {
    if es == [] {
      assert Accounted(s.fds, s.pipes[q], q, true) && Accounted(s.fds, s.pipes[q], q, false);
    } else {
      StepInvIff(s, es[0]);
      StepKeepsDupped(s, es[0], q);
      DuppedNeverFreed(Effect(s, es[0]).sys, es[1..], q);
    }
  }

  // ---------------------------------------------------------------- calls that go wrong

  /** `dup` or `dup2` of standard input, as the first call of the first process, dereferences a null
      pipe. */
  lemma ConsoleDupCrashes()
    ensures HasTable(Boot(), 1) && Possible(Boot(), Make(1, CallDup(0))) && !Regular(Boot(), Make(1, CallDup(0)))
    ensures Dup(Boot(), 1, 0).sys.crashed
    ensures Possible(Boot(), Make(1, CallDup2(0, 3))) && !Regular(Boot(), Make(1, CallDup2(0, 3)))
    ensures Dup2(Boot(), 1, 0, 3).sys.crashed
  {
    BootSlots(Boot());
  }

  lemma BootSlots(s: Sys)
    requires s == Boot()
    ensures HasTable(s, 1) && |s.tables[1]| == SLOTS && Idle(s.pipes, 1)
    ensures forall i: nat | i < SLOTS :: s.tables[1][i] == i && Open(s, 1, i) == (i < 3)
    ensures FirstClosed(s.tables[1], s.fds) == 3
  {
    var t := s.tables[1];
    assert s.fds[t[0]].open && s.fds[t[1]].open && s.fds[t[2]].open && !s.fds[t[3]].open;
  }

  /** `pipe` with one closed object left fails but leaves that slot open without a pipe: a write to it
      dereferences a null pointer. */
  lemma HalfOpenedCrashes(s: Sys, p: Proc, data: seq<Byte>)
    requires SysInv(s) && p in s.tables && HasTable(s, p) && !PipeRegular(s, p)
    requires var d := Object(s, p, FirstClosed(s.tables[p], s.fds)); d.pipe == None && !d.isRead
    ensures var r := PipeCall(s, p);
      && r.reply == Value(-EMFILE) && HasTable(r.sys, p) && Open(r.sys, p, FirstClosed(s.tables[p], s.fds))
      && Write(r.sys, p, FirstClosed(s.tables[p], s.fds), data).sys.crashed
  {
  }

  /** `dup2` of one end of a pipe onto the slot of the other leaves the count of neither what the open
      descriptors and `dup` calls account for. */
  lemma Dup2Miscounts(s: Sys, p: Proc, source: int, slot: int, q: PipeId)
    requires SysInv(s) && p in s.tables && HasTable(s, p) && Open(s, p, source) && Open(s, p, slot)
    requires Object(s, p, source).pipe == Some(q) && Object(s, p, slot).pipe == Some(q) && q in s.pipes
    requires Object(s, p, source).isRead && !Object(s, p, slot).isRead && !Object(s, p, source).console
    ensures var s' := Dup2(s, p, source, slot).sys;
      && q in s'.pipes && s'.pipes[q].r.count == s.pipes[q].r.count && s'.pipes[q].w.count == s.pipes[q].w.count - 1
      && Short(s'.fds, s'.pipes[q], q, true)
  {
    var f := s.tables[p][slot];
    DetachedShort(s, f);
    SharedShort(Detach(s, f), p, slot, s.tables[p][source], q, true);
  }
}
