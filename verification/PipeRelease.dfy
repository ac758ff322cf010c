/** What becomes of the writers inside a pipe once its last reader is gone. */
module PipeRelease {
  import opened Base
  import opened PipeProtocol

  /** The permits left over when every writer that will ask for one has had it. */
  function Surplus(p: Pipe): int {
    p.space - |Needing(p.w.calls)|
  }

  lemma TakeWriteSurplus(p: Pipe, a: Proc)
    requires PipeInv(p) && CanTakeWrite(p, a)
    ensures Surplus(TakeWriteSegment(p, a).pipe) == Surplus(p)
  {
    assert Writing(p.w.calls) == {};
    var w := p.w.(mutex := p.w.mutex - 1);
    if p.w.calls[a].data != [] {
      AdvanceInv(w, a, First(p.w, a));
    } else {
      LeaveWriteInv(w, a);
      assert a !in Needing(p.w.calls);
      assert Needing(p.w.calls) - {a} == Needing(p.w.calls);
    }
  }

  lemma TakeSpaceSurplus(p: Pipe, a: Proc)
    requires PipeInv(p) && CanTakeSpace(p, a) && p.r.count == 0
    ensures Surplus(TakeSpaceSegment(p, a).pipe) == Surplus(p)
  {
    WriteHolder(p.w, a);
    LeaveWriteInv(p.w, a);
    assert a in Needing(p.w.calls);
  }

  /** With no reader left there is never one again, and no step changes the surplus: each writer
      spends one permit and needs one less. */
  lemma SurplusStep(p: Pipe, e: Event)
    requires PipeInv(p) && Enabled(p, e) && p.r.count == 0
    ensures PipeInv(Apply(p, e).pipe) && Apply(p, e).pipe.r.count == 0
    ensures Surplus(Apply(p, e).pipe) == Surplus(p)
  {
    InvStep(p, e);
    match e
    case TakeWrite(a) => TakeWriteSurplus(p, a);
    case TakeSpace(a) => TakeSpaceSurplus(p, a);
    case _ =>
  }

  lemma {:induction false} SurplusRun(p: Pipe, es: seq<Event>)
    requires PipeInv(p) && Run(p, es) && p.r.count == 0
    ensures PipeInv(After(p, es)) && After(p, es).r.count == 0 && Surplus(After(p, es)) == Surplus(p)
    decreases |es|
  {
    if es != [] {
      SurplusStep(p, es[0]);
      SurplusRun(Apply(p, es[0]).pipe, es[1..]);
    }
  }

  /** The steps the writers inside have left: two before the mutex, one after. */
  function Remaining(calls: map<Proc, Writer>): nat {
    |calls| + |Queued(calls)|
  }

  function Queued(calls: map<Proc, Writer>): set<Proc> {
    set a | a in calls && calls[a].WaitWrite?
  }

  predicate WriterStep(e: Event) { e.TakeWrite? || e.TakeSpace? }

  function WriterSteps(es: seq<Event>): nat {
    if es == [] then 0 else (if WriterStep(es[0]) then 1 else 0) + WriterSteps(es[1..])
  }

  lemma QueuedMoved(calls: map<Proc, Writer>, a: Proc, next: Writer)
    requires a in calls && calls[a].WaitWrite? && next.WaitSpace?
    ensures |calls[a := next]| == |calls| && |Queued(calls[a := next])| == |Queued(calls)| - 1
  {
    assert calls[a := next].Keys == calls.Keys;
    assert |calls[a := next].Keys| == |calls.Keys|;
    assert Queued(calls[a := next]) == Queued(calls) - {a};
  }

  lemma QueuedGone(calls: map<Proc, Writer>, a: Proc)
    requires a in calls
    ensures |calls - {a}| == |calls| - 1 && |Queued(calls - {a})| <= |Queued(calls)|
  {
    assert (calls - {a}).Keys == calls.Keys - {a};
    assert |(calls - {a}).Keys| == |calls.Keys| - 1;
    SubsetSize(Queued(calls - {a}), Queued(calls));
  }

  /** With no reader, each writer step brings a writer nearer its return and nothing adds one. */
  lemma RemainingStep(p: Pipe, e: Event)
    requires PipeInv(p) && Enabled(p, e) && p.r.count == 0
    ensures Remaining(Apply(p, e).pipe.w.calls) + (if WriterStep(e) then 1 else 0) <= Remaining(p.w.calls)
  {
    if e.TakeWrite? {
      if p.w.calls[e.proc].data != [] {
        QueuedMoved(p.w.calls, e.proc, First(p.w, e.proc));
      } else {
        QueuedGone(p.w.calls, e.proc);
      }
    } else if e.TakeSpace? {
      QueuedGone(p.w.calls, e.proc);
    }
  }

  /** So a run from there takes at most `Remaining` writer steps. */
  lemma {:induction false} RemainingRun(p: Pipe, es: seq<Event>)
    requires PipeInv(p) && Run(p, es) && p.r.count == 0
    ensures WriterSteps(es) + Remaining(After(p, es).w.calls) <= Remaining(p.w.calls)
    decreases |es|
  {
    if es != [] {
      RemainingStep(p, es[0]);
      SurplusStep(p, es[0]);
      RemainingRun(Apply(p, es[0]).pipe, es[1..]);
    }
  }

  /** While the permits suffice, some writer inside can move. */
  lemma WriterCanMove(p: Pipe) returns (e: Event)
    requires PipeInv(p) && Surplus(p) >= 0 && p.w.calls.Keys != {}
    ensures WriterStep(e) && Enabled(p, e)
  {
    if p.w.mutex == 1 {
      var a :| a in p.w.calls.Keys;
      assert a !in Writing(p.w.calls);
      e := TakeWrite(a);
    } else {
      assert |Writing(p.w.calls)| == 1;
      var a :| a in Writing(p.w.calls);
      WriteHolder(p.w, a);
      assert a in Needing(p.w.calls) && |Needing(p.w.calls)| > 0;
      e := TakeSpace(a);
    }
  }

  /** Some continuation lets every writer out. */
  ghost predicate CanDrain(p: Pipe) {
    exists es :: Run(p, es) && After(p, es).w.calls == map[]
  }

  lemma {:induction false} Drain(p: Pipe) returns (es: seq<Event>)
    requires PipeInv(p) && p.r.count == 0 && Surplus(p) >= 0
    ensures Run(p, es) && After(p, es).w.calls == map[] && forall i | 0 <= i < |es| :: WriterStep(es[i])
    decreases Remaining(p.w.calls)
  {
    if p.w.calls.Keys == {} {
      assert p.w.calls == map[];
      es := [];
    } else {
      var e := WriterCanMove(p);
      SurplusStep(p, e);
      RemainingStep(p, e);
      var rest := Drain(Apply(p, e).pipe);
      es := [e] + rest;
    }
  }

  /** Without a reader, the writers inside can all leave exactly when there is a space permit for each
      that will ask for one. */
  lemma DrainIff(p: Pipe)
    requires PipeInv(p) && p.r.count == 0
    ensures CanDrain(p) <==> p.space >= |Needing(p.w.calls)|
  {
    if Surplus(p) >= 0 {
      var es := Drain(p);
    } else {
      forall es | Run(p, es) ensures After(p, es).w.calls != map[] {
        SurplusRun(p, es);
        assert Needing(map[]) == {};
      }
    }
  }

  /** Closing the last read descriptor releases every writer: whatever happens next, as long as a
      writer is inside one can move, and they all leave within a bounded number of their steps. */
  lemma CloseReleases(p: Pipe, es: seq<Event>)
    requires PipeInv(p) && Enabled(p, CloseReader) && p.r.count == 1 && Run(ReaderClosed(p), es)
    ensures CanDrain(ReaderClosed(p))
    ensures WriterSteps(es) <= Remaining(p.w.calls)
    ensures After(ReaderClosed(p), es).w.calls.Keys != {} ==>
              exists e :: WriterStep(e) && Enabled(After(ReaderClosed(p), es), e)
  {
    var q := ReaderClosed(p);
    InvStep(p, CloseReader);
    NeedingSize(p.w.calls);
    DrainIff(q);
    RemainingRun(q, es);
    SurplusRun(q, es);
    if After(q, es).w.calls.Keys != {} {
      var e := WriterCanMove(After(q, es));
    }
  }

  /** When the last reader exits instead, the writers can leave exactly when the permits at hand
      suffice; otherwise at least one is inside for the rest of every run. */
  lemma ExitReleasesIff(p: Pipe)
    requires PipeInv(p) && Enabled(p, ExitReader) && p.r.count == 1
    ensures CanDrain(ReaderExited(p)) <==> p.space >= |Needing(p.w.calls)|
  {
    InvStep(p, ExitReader);
    DrainIff(ReaderExited(p));
  }

  // ---------------------------------------------------------------- readers, once the last writer is gone

  /** Some continuation lets every reader out. */
  ghost predicate CanDrainReaders(p: Pipe) {
    exists es :: Run(p, es) && After(p, es).r.calls == map[]
  }

  /** Without writers nothing adds an element, and a reader that waits for one with none there stays. */
  predicate Stuck(p: Pipe, a: Proc) {
    p.w.count == 0 && p.nelement == 0 && a in Reading(p.r.calls)
  }

  lemma StuckStep(p: Pipe, e: Event, a: Proc)
    requires PipeInv(p) && Enabled(p, e) && Stuck(p, a)
    ensures PipeInv(Apply(p, e).pipe) && Stuck(Apply(p, e).pipe, a)
  {
    InvStep(p, e);
    ReadHolder(p.r, a);
    assert p.w.calls.Keys == {};
  }

  lemma {:induction false} StuckRun(p: Pipe, es: seq<Event>, a: Proc)
    requires PipeInv(p) && Run(p, es) && Stuck(p, a)
    ensures Stuck(After(p, es), a)
    decreases |es|
  {
    if es != [] {
      StuckStep(p, es[0], a);
      StuckRun(Apply(p, es[0]).pipe, es[1..], a);
    }
  }

  predicate ReaderStep(e: Event) { e.TakeRead? || e.TakeElement? }

  /** A reader that can move leaves at that step. */
  lemma ReaderLeaves(p: Pipe) returns (e: Event)
    requires PipeInv(p) && p.w.count == 0 && (Reading(p.r.calls) == {} || p.nelement > 0) && p.r.calls.Keys != {}
    ensures Enabled(p, e) && ReaderStep(e)
    ensures Apply(p, e).pipe.r.calls == p.r.calls - {e.proc} && e.proc in p.r.calls
    ensures Apply(p, e).pipe.w.count == 0 && Reading(Apply(p, e).pipe.r.calls) == {}
  {
    if Reading(p.r.calls) == {} {
      var a :| a in p.r.calls.Keys;
      assert a !in Reading(p.r.calls);
      e := TakeRead(a);
    } else {
      var a :| a in Reading(p.r.calls);
      ReadHolder(p.r, a);
      e := TakeElement(a, 0);
    }
  }

  lemma {:induction false} DrainReaders(p: Pipe) returns (es: seq<Event>)
    requires PipeInv(p) && p.w.count == 0 && (Reading(p.r.calls) == {} || p.nelement > 0)
    ensures Run(p, es) && After(p, es).r.calls == map[] && forall i | 0 <= i < |es| :: ReaderStep(es[i])
    decreases |p.r.calls|
  {
    if p.r.calls.Keys == {} {
      assert p.r.calls == map[];
      es := [];
    } else {
      var e := ReaderLeaves(p);
      InvStep(p, e);
      assert (p.r.calls - {e.proc}).Keys == p.r.calls.Keys - {e.proc};
      assert |(p.r.calls - {e.proc}).Keys| < |p.r.calls.Keys|;
      var rest := DrainReaders(Apply(p, e).pipe);
      es := [e] + rest;
    }
  }

  /** Closing the last write descriptor wakes nobody: the readers inside can all leave exactly when none
      of them holds `read`, or there is an element for the one that does. Otherwise it stays for the rest
      of every run, and the others behind it. */
  lemma ReadersDrainIff(p: Pipe)
    requires PipeInv(p) && p.w.count == 0
    ensures CanDrainReaders(p) <==> Reading(p.r.calls) == {} || p.nelement > 0
  {
    if Reading(p.r.calls) == {} || p.nelement > 0 {
      var es := DrainReaders(p);
    } else {
      var a :| a in Reading(p.r.calls);
      forall es | Run(p, es) ensures After(p, es).r.calls != map[] {
        StuckRun(p, es, a);
      }
    }
  }

  // ---------------------------------------------------------------- blocking

  /** A read of an empty pipe that has writers blocks exactly when `writer_in_use` is not 0; that number
      counts written bytes up at the end of each write and goes down only at early returns. */
  lemma EmptyReadBlocksIff(p: Pipe, a: Proc)
    requires PipeInv(p) && CanTakeRead(p, a) && p.r.calls[a].n > 0 && p.nelement == 0 && p.w.count > 0
    ensures TakeReadSegment(p, a).Blocked? <==> p.w.inUse != 0
    ensures TakeReadSegment(p, a).Blocked? ==> !CanTakeElement(TakeReadSegment(p, a).pipe, a)
    ensures TakeReadSegment(p, a).Returned? ==> TakeReadSegment(p, a).value == 0
  {
  }

  /** A write to a full pipe that has readers blocks. */
  lemma FullWriteBlocks(p: Pipe, a: Proc)
    requires PipeInv(p) && CanTakeWrite(p, a) && p.w.calls[a].data != [] && p.space == 0
    ensures TakeWriteSegment(p, a).Blocked? && !CanTakeSpace(TakeWriteSegment(p, a).pipe, a)
  {
  }
}
