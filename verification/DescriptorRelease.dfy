/** Writers without readers and readers without writers, in runs of the whole system: when those inside a
    pipe can still get out. */
module DescriptorRelease {
  import opened Base
  import opened PipeProtocol
  import PipeFifo
  import opened PipeRelease
  import opened PipeStranded
  import opened Descriptors
  import opened DescriptorCalls
  import opened DescriptorRuns

  // ---------------------------------------------------------------- from the pipe to the system

  function Resumes(q: PipeId, es: seq<PipeProtocol.Event>): seq<SysEvent> {
    if es == [] then [] else [Resume(q, es[0])] + Resumes(q, es[1..])
  }

  /** A run of calls in progress on one pipe is a run of the whole system. */
  lemma {:induction false} LiftRun(s: Sys, q: PipeId, es: seq<PipeProtocol.Event>)
    requires q in s.pipes && Run(s.pipes[q], es) && forall i | 0 <= i < |es| :: Takes(es[i])
    ensures SysRun(s, Resumes(q, es))
    ensures q in SysAfter(s, Resumes(q, es)).pipes && SysAfter(s, Resumes(q, es)).pipes[q] == After(s.pipes[q], es)
    decreases |es|
  {
    if es != [] {
      var f := Resumes(q, es);
      assert f[0] == Resume(q, es[0]) && f[1..] == Resumes(q, es[1..]);
      LiftRun(Effect(s, f[0]).sys, q, es[1..]);
    }
  }

  /** A pipe that somebody is inside is not freed: that process has a descriptor for it, which only its
      own calls could close. */
  lemma InsiderKeepsPipe(s: Sys, e: SysEvent, q: PipeId, a: Proc)
    requires SysInv(s) && Possible(s, e) && Regular(s, e) && q in s.pipes && Inside(s.pipes[q], a)
    ensures SysInv(Effect(s, e).sys) && q in Effect(s, e).sys.pipes
  {
    StepInvIff(s, e);
    var p := s.pipes[q];
    assert CallsInv(s.fds, p, q);
    var f := if a in p.w.calls then p.w.calls[a].fd else p.r.calls[a].fd;
    assert Uses(s.fds, a, f, q, a !in p.w.calls);
    NotItsCall(s, e, q, a);
    OthersKept(s, e, a);
    StillInstalled(Effect(s, e).sys, f, q);
  }

  lemma NotItsCall(s: Sys, e: SysEvent, q: PipeId, a: Proc)
    requires Possible(s, e) && q in s.pipes && Inside(s.pipes[q], a)
    ensures e.Make? ==> e.proc != a
  {
  }

  lemma StillInstalled(s: Sys, f: FdId, q: PipeId)
    requires SysInv(s) && f in s.fds && s.fds[f].open && !s.fds[f].console && s.fds[f].pipe == Some(q)
    ensures q in s.pipes
  {
    assert Installed(s.fds[f], f, s.tables, s.pipes);
  }

  // ---------------------------------------------------------------- writers without readers

  predicate NoWriters(s: Sys, q: PipeId) { q in s.pipes ==> s.pipes[q].w.calls == map[] }

  /** Some run of the whole system lets every writer out of the pipe. */
  ghost predicate WritersCanLeave(s: Sys, q: PipeId) {
    exists es :: SysRun(s, es) && NoWriters(SysAfter(s, es), q)
  }

  /** The pipe has no reader, and too few permits for the writers that will ask for one. */
  predicate Short(s: Sys, q: PipeId) {
    q in s.pipes && s.pipes[q].r.count == 0 && Surplus(s.pipes[q]) < 0
  }

  lemma EvolvesSurplus(p: Pipe, p': Pipe, clean: bool)
    requires PipeInv(p) && p.r.count == 0 && Evolves(p, p', clean)
    ensures p'.r.count == 0 && Surplus(p') == Surplus(p)
  {
    var es :| Run(p, es) && After(p, es) == p' && (clean ==> PipeFifo.AllClean(p, es));
    SurplusRun(p, es);
  }

  lemma ShortHasWriter(p: Pipe) returns (a: Proc)
    requires Surplus(p) < 0
    ensures a in p.w.calls
  {
    assert |Needing(p.w.calls)| > 0;
    a :| a in Needing(p.w.calls);
  }

  lemma ShortStep(s: Sys, e: SysEvent, q: PipeId)
    requires SysInv(s) && Possible(s, e) && Regular(s, e) && Short(s, q)
    ensures SysInv(Effect(s, e).sys) && Short(Effect(s, e).sys, q)
  {
    var a := ShortHasWriter(s.pipes[q]);
    InsiderKeepsPipe(s, e, q, a);
    StepEvolves(s, e, q);
    EvolvesSurplus(s.pipes[q], Effect(s, e).sys.pipes[q], StepClean(s, e));
  }

  lemma {:induction false} ShortRun(s: Sys, es: seq<SysEvent>, q: PipeId)
    requires SysInv(s) && SysRun(s, es) && Short(s, q)
    ensures !NoWriters(SysAfter(s, es), q)
    decreases |es|
  {
    if es == [] {
      var a := ShortHasWriter(s.pipes[q]);
    } else {
      ShortStep(s, es[0], q);
      ShortRun(Effect(s, es[0]).sys, es[1..], q);
    }
  }

  /** Without a reader the writers inside a pipe can all leave, in some run of the whole system, exactly
      when there is a permit for each that will ask for one. */
  lemma WritersLeaveIff(s: Sys, q: PipeId)
    requires SysInv(s) && q in s.pipes && s.pipes[q].r.count == 0
    ensures WritersCanLeave(s, q) <==> s.pipes[q].space >= |Needing(s.pipes[q].w.calls)|
  {
    if Surplus(s.pipes[q]) >= 0 {
      var es := Drain(s.pipes[q]);
      LiftRun(s, q, es);
      assert NoWriters(SysAfter(s, Resumes(q, es)), q);
    } else {
      forall es | SysRun(s, es) ensures !NoWriters(SysAfter(s, es), q) {
        ShortRun(s, es, q);
      }
    }
  }

  lemma ReleaseKeepsPermits(s: Sys, f: FdId, q: PipeId)
    requires f in s.fds && Valid(s, s.fds[f]) && q in Release(s, f, false).pipes
    ensures q in s.pipes && Release(s, f, false).pipes[q].space == s.pipes[q].space
  {
    ReleasePipesAt(s, f, false, q);
  }

  lemma {:induction false} ExitKeepsPermits(s: Sys, t: seq<FdId>, k: nat, p: Proc, q: PipeId)
    requires SysInv(s) && k <= |t| && Idle(s.pipes, p)
    requires forall i | 0 <= i < |t| :: t[i] in s.fds && s.fds[t[i]].owner == p
    requires q in ExitSlots(s, t, k).pipes
    ensures q in s.pipes && ExitSlots(s, t, k).pipes[q].space == s.pipes[q].space
    decreases |t| - k
  {
    if k < |t| {
      var s1 := ExitSlot(s, t[k]);
      ExitSlotInv(s, t[k]);
      SameInsideIdle(s.pipes, s1.pipes, p);
      ExitKeepsPermits(s1, t, k + 1, p, q);
      if !Shut(s.fds[t[k]]) {
        ReleaseRoom(s, t[k]);
        ReleaseKeepsPermits(s, t[k], q);
      }
    }
  }

  lemma ExitKeepsSurplus(s: Sys, p: Proc, q: PipeId)
    requires SysInv(s) && p in s.tables && HasTable(s, p) && Idle(s.pipes, p) && q in Exit(s, p).pipes
    ensures SysInv(Exit(s, p)) && q in s.pipes && Surplus(Exit(s, p).pipes[q]) == Surplus(s.pipes[q])
  {
    ExitInv(s, p);
    ExitKeepsPermits(s, s.tables[p], 0, p, q);
    SameSurplus(s.pipes, Exit(s, p).pipes, q);
  }

  lemma SameSurplus(pipes: map<PipeId, Pipe>, pipes': map<PipeId, Pipe>, q: PipeId)
    requires SameInside(pipes, pipes') && q in pipes' && q in pipes && pipes'[q].space == pipes[q].space
    ensures Surplus(pipes'[q]) == Surplus(pipes[q])
  {
  }

  lemma SurplusLater(s: Sys, es: seq<SysEvent>, q: PipeId)
    requires SysInv(s) && SysRun(s, es) && q in s.pipes && s.pipes[q].r.count == 0 && q in SysAfter(s, es).pipes
    ensures var p := SysAfter(s, es).pipes[q]; p.r.count == 0 && Surplus(p) == Surplus(s.pipes[q])
  {
    RunEvolves(s, es, q);
    EvolvesSurplus(s.pipes[q], SysAfter(s, es).pipes[q], AllStepsClean(s, es));
  }

  /** At any later point of any run the answer is the same. */
  lemma WritersLeaveLaterIff(s: Sys, es: seq<SysEvent>, q: PipeId)
    requires SysInv(s) && SysRun(s, es) && q in s.pipes && s.pipes[q].r.count == 0 && q in SysAfter(s, es).pipes
    ensures WritersCanLeave(SysAfter(s, es), q) <==> Surplus(s.pipes[q]) >= 0
  {
    SurplusLater(s, es, q);
    SysRunInv(s, es);
    WritersLeaveIff(SysAfter(s, es), q);
  }

  /** When the last reader exits, at that point and at any later one of any run, the writers inside can
      leave exactly when the permits at hand before the exit were enough for those that will ask. */
  lemma WritersAfterExitIff(s: Sys, p: Proc, es: seq<SysEvent>, q: PipeId)
    requires SysInv(s) && p in s.tables && HasTable(s, p) && Idle(s.pipes, p) && q in Exit(s, p).pipes
    requires Exit(s, p).pipes[q].r.count == 0
    requires SysRun(Exit(s, p), es) && q in SysAfter(Exit(s, p), es).pipes
    ensures q in s.pipes
    ensures WritersCanLeave(SysAfter(Exit(s, p), es), q)
       <==> s.pipes[q].space >= |Needing(s.pipes[q].w.calls)|
  {
    ExitKeepsSurplus(s, p, q);
    WritersLeaveLaterIff(Exit(s, p), es, q);
  }

  // ---------------------------------------------------------------- readers without writers

  predicate NoReaders(s: Sys, q: PipeId) { q in s.pipes ==> s.pipes[q].r.calls == map[] }

  ghost predicate ReadersCanLeave(s: Sys, q: PipeId) {
    exists es :: SysRun(s, es) && NoReaders(SysAfter(s, es), q)
  }

  lemma EvolvesStuck(p: Pipe, p': Pipe, clean: bool, a: Proc)
    requires PipeInv(p) && Stuck(p, a) && Evolves(p, p', clean)
    ensures Stuck(p', a)
  {
    var es :| Run(p, es) && After(p, es) == p' && (clean ==> PipeFifo.AllClean(p, es));
    StuckRun(p, es, a);
  }

  lemma StuckStepSys(s: Sys, e: SysEvent, q: PipeId, a: Proc)
    requires SysInv(s) && Possible(s, e) && Regular(s, e) && q in s.pipes && Stuck(s.pipes[q], a)
    ensures SysInv(Effect(s, e).sys) && q in Effect(s, e).sys.pipes && Stuck(Effect(s, e).sys.pipes[q], a)
  {
    InsiderKeepsPipe(s, e, q, a);
    StepEvolves(s, e, q);
    EvolvesStuck(s.pipes[q], Effect(s, e).sys.pipes[q], StepClean(s, e), a);
  }

  lemma {:induction false} StuckRunSys(s: Sys, es: seq<SysEvent>, q: PipeId, a: Proc)
    requires SysInv(s) && SysRun(s, es) && q in s.pipes && Stuck(s.pipes[q], a)
    ensures q in SysAfter(s, es).pipes && a in SysAfter(s, es).pipes[q].r.calls
    decreases |es|
  {
    if es != [] {
      StuckStepSys(s, es[0], q, a);
      StuckRunSys(Effect(s, es[0]).sys, es[1..], q, a);
    }
  }

  /** Without a writer the readers inside a pipe can all leave, in some run of the whole system, exactly
      when none of them holds `read` or an element is there. */
  lemma ReadersLeaveIff(s: Sys, q: PipeId)
    requires SysInv(s) && q in s.pipes && s.pipes[q].w.count == 0
    ensures ReadersCanLeave(s, q) <==> Reading(s.pipes[q].r.calls) == {} || s.pipes[q].nelement > 0
  {
    var p := s.pipes[q];
    if Reading(p.r.calls) == {} || p.nelement > 0 {
      var es := DrainReaders(p);
      LiftRun(s, q, es);
      assert NoReaders(SysAfter(s, Resumes(q, es)), q);
    } else {
      var a :| a in Reading(p.r.calls);
      forall es | SysRun(s, es) ensures !NoReaders(SysAfter(s, es), q) {
        StuckRunSys(s, es, q, a);
      }
    }
  }

  /** When the last write descriptor is closed, that is decided by what was there before. */
  lemma ReadersAfterCloseIff(s: Sys, p: Proc, slot: int, q: PipeId)
    requires SysInv(s) && HasTable(s, p) && Idle(s.pipes, p) && Open(s, p, slot)
    requires var d := Object(s, p, slot); !d.console && !d.isRead && d.pipe == Some(q)
    requires q in s.pipes && s.pipes[q].w.count == 1 && q in Close(s, p, slot).sys.pipes
    ensures ReadersCanLeave(Close(s, p, slot).sys, q)
       <==> Reading(s.pipes[q].r.calls) == {} || s.pipes[q].nelement > 0
  {
    CloseInv(s, p, slot);
    ReleaseRoom(s, s.tables[p][slot]);
    ReleasePipesAt(s, s.tables[p][slot], true, q);
    ReadersLeaveIff(Close(s, p, slot).sys, q);
  }

  // ---------------------------------------------------------------- one process

  /** A process stranded in a pipe stays so whatever anybody does. */
  lemma StrandedStays(s: Sys, e: SysEvent, q: PipeId, a: Proc)
    requires SysInv(s) && Possible(s, e) && Regular(s, e) && q in s.pipes && Stranded(s.pipes[q], a)
    ensures SysInv(Effect(s, e).sys) && q in Effect(s, e).sys.pipes && Stranded(Effect(s, e).sys.pipes[q], a)
  {
    InsiderKeepsPipe(s, e, q, a);
    StepEvolves(s, e, q);
    EvolvesStranded(s.pipes[q], Effect(s, e).sys.pipes[q], StepClean(s, e), a);
  }

  lemma EvolvesStranded(p: Pipe, p': Pipe, clean: bool, a: Proc)
    requires PipeInv(p) && Stranded(p, a) && Evolves(p, p', clean)
    ensures Stranded(p', a)
  {
    var es :| Run(p, es) && After(p, es) == p' && (clean ==> PipeFifo.AllClean(p, es));
    StrandedRun(p, es, a);
  }

  // ---------------------------------------------------------------- the release of writers

  /** Closing the last read descriptor of a pipe leaves a permit for every writer inside, for good:
      at any later point of any run the pipe is freed, or its remaining writers can all leave, and if
      there is one then a writer can move. */
  lemma WritersReleased(s: Sys, p: Proc, slot: int, es: seq<SysEvent>, q: PipeId)
    requires SysInv(s) && HasTable(s, p) && Idle(s.pipes, p) && Open(s, p, slot)
    requires var d := Object(s, p, slot); !d.console && d.isRead && d.pipe == Some(q)
    requires q in s.pipes && s.pipes[q].r.count == 1
    requires SysRun(Close(s, p, slot).sys, es) && q in SysAfter(Close(s, p, slot).sys, es).pipes
    ensures var r := SysAfter(Close(s, p, slot).sys, es).pipes[q];
      && PipeInv(r) && CanDrain(r)
      && (r.w.calls.Keys != {} ==>
            exists e :: WriterStep(e) && Possible(SysAfter(Close(s, p, slot).sys, es), Resume(q, e)))
  {
    var s0 := Close(s, p, slot).sys;
    var s1 := SysAfter(s0, es);
    CloseInv(s, p, slot);
    if q !in s0.pipes { FreedForGood(s0, es, q); }
    RunEvolves(s0, es, q);
    SysRunInv(s0, es);
    var fs :| Run(s0.pipes[q], fs) && After(s0.pipes[q], fs) == s1.pipes[q];
    ReleasePipesAt(s, s.tables[p][slot], true, q);
    ReleaseRoom(s, s.tables[p][slot]);
    assert s0.pipes[q] == ReaderClosed(s.pipes[q]);
    CloseReleases(s.pipes[q], fs);
    SurplusAfterClose(s.pipes[q], fs);
    DrainIff(s1.pipes[q]);
    if s1.pipes[q].w.calls.Keys != {} {
      var e :| WriterStep(e) && Enabled(s1.pipes[q], e);
      assert Possible(s1, Resume(q, e));
    }
  }

  lemma SurplusAfterClose(p: Pipe, es: seq<PipeProtocol.Event>)
    requires PipeInv(p) && Enabled(p, CloseReader) && p.r.count == 1 && Run(ReaderClosed(p), es)
    ensures PipeInv(After(ReaderClosed(p), es)) && After(ReaderClosed(p), es).r.count == 0
    ensures Surplus(After(ReaderClosed(p), es)) >= 0
  {
    InvStep(p, CloseReader);
    SurplusRun(ReaderClosed(p), es);
  }
}
