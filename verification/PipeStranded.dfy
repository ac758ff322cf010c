/** One process inside a pipe whose other end is gone: when it can still get out. */
module PipeStranded {
  import opened Base
  import opened PipeProtocol
  import opened PipeRelease

  /** The permits that have to be there for writer `a` to leave: its own, and that of the one before it. */
  function Needs(calls: map<Proc, Writer>, a: Proc): nat {
    (if a in Needing(calls) then 1 else 0) + (if Writing(calls) <= {a} then 0 else 1)
  }

  /** Nobody reads any more, and the permits fall short. */
  predicate WriterStranded(p: Pipe, a: Proc) {
    a in p.w.calls && p.r.count == 0 && p.space < Needs(p.w.calls, a)
  }

  /** Nobody writes any more, and the one that holds `read` has no element. */
  predicate ReaderStranded(p: Pipe, a: Proc) {
    a in p.r.calls && p.w.count == 0 && p.nelement == 0 && Reading(p.r.calls) != {}
  }

  predicate Stranded(p: Pipe, a: Proc) { WriterStranded(p, a) || ReaderStranded(p, a) }

  /** Nobody has a descriptor for the end that `a` is not at. */
  predicate OtherEndGone(p: Pipe, a: Proc) {
    (a in p.w.calls && p.r.count == 0) || (a in p.r.calls && p.w.count == 0)
  }

  // ---------------------------------------------------------------- stranded for good

  lemma ReaderStrandedStep(p: Pipe, e: Event, a: Proc)
    requires PipeInv(p) && Enabled(p, e) && ReaderStranded(p, a)
    ensures ReaderStranded(Apply(p, e).pipe, a)
  {
    var h :| h in Reading(p.r.calls);
    StuckStep(p, e, h);
    assert h in Reading(Apply(p, e).pipe.r.calls);
  }

  lemma OtherTakesWrite(p: Pipe, b: Proc, a: Proc)
    requires PipeInv(p) && CanTakeWrite(p, b) && WriterStranded(p, a)
    ensures WriterStranded(TakeWriteSegment(p, b).pipe, a)
  {
    assert Writing(p.w.calls) == {};
    if p.w.calls[b].data != [] { WriterSet(p.w.calls, b, First(p.w, b)); }
  }

  lemma OtherTakesSpace(p: Pipe, b: Proc, a: Proc)
    requires PipeInv(p) && CanTakeSpace(p, b) && WriterStranded(p, a)
    ensures WriterStranded(TakeSpaceSegment(p, b).pipe, a)
  {
    WriteHolder(p.w, b);
    assert b in Needing(p.w.calls);
  }

  lemma WriterStrandedStep(p: Pipe, e: Event, a: Proc)
    requires PipeInv(p) && Enabled(p, e) && WriterStranded(p, a)
    ensures WriterStranded(Apply(p, e).pipe, a)
  {
    match e
    case TakeWrite(b) => OtherTakesWrite(p, b, a);
    case TakeSpace(b) => OtherTakesSpace(p, b, a);
    case _ =>
  }

  lemma StrandedStep(p: Pipe, e: Event, a: Proc)
    requires PipeInv(p) && Enabled(p, e) && Stranded(p, a)
    ensures PipeInv(Apply(p, e).pipe) && Stranded(Apply(p, e).pipe, a)
  {
    InvStep(p, e);
    if WriterStranded(p, a) { WriterStrandedStep(p, e, a); } else { ReaderStrandedStep(p, e, a); }
  }

  lemma {:induction false} StrandedRun(p: Pipe, es: seq<Event>, a: Proc)
    requires PipeInv(p) && Run(p, es) && Stranded(p, a)
    ensures Stranded(After(p, es), a)
    decreases |es|
  {
    if es != [] {
      StrandedStep(p, es[0], a);
      StrandedRun(Apply(p, es[0]).pipe, es[1..], a);
    }
  }

  // ---------------------------------------------------------------- or a way out

  /** A few steps of calls in progress, after which `a` is out. */
  predicate WayOut(p: Pipe, es: seq<Event>, a: Proc) {
    && Run(p, es) && !Inside(After(p, es), a)
    && forall i | 0 <= i < |es| :: WriterStep(es[i]) || ReaderStep(es[i])
  }

  lemma OutRest(p: Pipe, es: seq<Event>, a: Proc)
    requires WayOut(p, es, a)
    ensures if es == [] then !Inside(p, a)
            else
              && Enabled(p, es[0]) && (WriterStep(es[0]) || ReaderStep(es[0]))
              && WayOut(Apply(p, es[0]).pipe, es[1..], a)
  {
  }

  lemma OutFirst(p: Pipe, e: Event, es: seq<Event>, a: Proc)
    requires Enabled(p, e) && (WriterStep(e) || ReaderStep(e)) && WayOut(Apply(p, e).pipe, es, a)
    ensures WayOut(p, [e] + es, a)
  {
    assert ([e] + es)[0] == e && ([e] + es)[1..] == es;
  }

  lemma OutNow(p: Pipe, e: Event, a: Proc)
    requires Enabled(p, e) && (WriterStep(e) || ReaderStep(e)) && !Inside(Apply(p, e).pipe, a)
    ensures WayOut(p, [e], a)
  {
    assert WayOut(Apply(p, e).pipe, [], a);
    OutFirst(p, e, [], a);
    assert [e] + [] == [e];
  }

  /** The holder of `write` leaves with its permit. */
  lemma HolderOut(p: Pipe, a: Proc)
    requires PipeInv(p) && p.r.count == 0 && a in Writing(p.w.calls) && p.space > 0
    ensures WayOut(p, [TakeSpace(a)], a)
  {
    WriteHolder(p.w, a);
    OutNow(p, TakeSpace(a), a);
  }

  /** With `write` free, a writer takes it and leaves. */
  lemma NextOut(p: Pipe, a: Proc) returns (es: seq<Event>)
    requires PipeInv(p) && p.r.count == 0 && a in p.w.calls && Writing(p.w.calls) == {}
    requires p.space >= Needs(p.w.calls, a)
    ensures WayOut(p, es, a)
  {
    var e := TakeWrite(a);
    assert a !in Writing(p.w.calls);
    if p.w.calls[a].data == [] {
      OutNow(p, e, a);
      es := [e];
    } else {
      InvStep(p, e);
      WriterSet(p.w.calls, a, First(p.w, a));
      HolderOut(Apply(p, e).pipe, a);
      OutFirst(p, e, [TakeSpace(a)], a);
      es := [e] + [TakeSpace(a)];
    }
  }

  lemma HolderLeaves(p: Pipe, h: Proc, a: Proc)
    requires PipeInv(p) && p.r.count == 0 && h in Writing(p.w.calls) && h != a && a in p.w.calls
    requires p.space >= Needs(p.w.calls, a)
    ensures Enabled(p, TakeSpace(h))
    ensures var q := Apply(p, TakeSpace(h)).pipe;
            PipeInv(q) && q.r.count == 0 && a in q.w.calls && Writing(q.w.calls) == {} && q.space >= Needs(q.w.calls, a)
  {
    WriteHolder(p.w, h);
    InvStep(p, TakeSpace(h));
  }

  lemma WriterOut(p: Pipe, a: Proc) returns (es: seq<Event>)
    requires PipeInv(p) && p.r.count == 0 && a in p.w.calls && p.space >= Needs(p.w.calls, a)
    ensures WayOut(p, es, a)
  {
    if a in Writing(p.w.calls) {
      HolderOut(p, a);
      es := [TakeSpace(a)];
    } else if Writing(p.w.calls) == {} {
      es := NextOut(p, a);
    } else {
      var h :| h in Writing(p.w.calls);
      HolderLeaves(p, h, a);
      es := NextOut(Apply(p, TakeSpace(h)).pipe, a);
      OutFirst(p, TakeSpace(h), es, a);
      es := [TakeSpace(h)] + es;
    }
  }

  /** With `read` free, a reader takes it and leaves. */
  lemma NextReads(p: Pipe, a: Proc)
    requires PipeInv(p) && p.w.count == 0 && a in p.r.calls && Reading(p.r.calls) == {}
    ensures WayOut(p, [TakeRead(a)], a)
  {
    assert a !in Reading(p.r.calls);
    OutNow(p, TakeRead(a), a);
  }

  /** The holder of `read` leaves with an element. */
  lemma ReaderHolderLeaves(p: Pipe, h: Proc)
    requires PipeInv(p) && p.w.count == 0 && h in Reading(p.r.calls) && p.nelement > 0
    ensures Enabled(p, TakeElement(h, 0))
    ensures var q := Apply(p, TakeElement(h, 0)).pipe;
      PipeInv(q) && q.w.count == 0 && q.r.calls == p.r.calls - {h} && q.w.calls == p.w.calls && Reading(q.r.calls) == {}
  {
    ReadHolder(p.r, h);
    InvStep(p, TakeElement(h, 0));
  }

  lemma ReaderOut(p: Pipe, a: Proc) returns (es: seq<Event>)
    requires PipeInv(p) && p.w.count == 0 && a in p.r.calls && (Reading(p.r.calls) == {} || p.nelement > 0)
    ensures WayOut(p, es, a)
  {
    if Reading(p.r.calls) == {} {
      NextReads(p, a);
      es := [TakeRead(a)];
    } else {
      var h :| h in Reading(p.r.calls);
      var e := TakeElement(h, 0);
      ReaderHolderLeaves(p, h);
      if h == a {
        OutNow(p, e, a);
        es := [e];
      } else {
        NextReads(Apply(p, e).pipe, a);
        OutFirst(p, e, [TakeRead(a)], a);
        es := [e] + [TakeRead(a)];
      }
    }
  }

  ghost predicate CanGetOut(p: Pipe, a: Proc) { exists es :: Run(p, es) && !Inside(After(p, es), a) }

  /** Once nobody is at the other end, a process inside can get out exactly when it is not stranded: a
      reader when `read` is free or an element is there, a writer when there are permits for it and for
      the one before it. */
  lemma GetsOutIff(p: Pipe, a: Proc)
    requires PipeInv(p) && OtherEndGone(p, a)
    ensures CanGetOut(p, a) <==> !Stranded(p, a)
  {
    if Stranded(p, a) {
      forall es | Run(p, es) ensures Inside(After(p, es), a) {
        StrandedRun(p, es, a);
      }
    } else {
      var es := GetOut(p, a);
    }
  }

  lemma GetOut(p: Pipe, a: Proc) returns (es: seq<Event>)
    requires PipeInv(p) && OtherEndGone(p, a) && !Stranded(p, a)
    ensures WayOut(p, es, a)
  {
    if a in p.w.calls && p.r.count == 0 { es := WriterOut(p, a); } else { es := ReaderOut(p, a); }
  }
}
