/** The queue property call by call: what a caller can make sure of when its call gets hold of an end, so
    that every segment of the call is clean; and the pipe with the three changes that make every segment
    clean. */
module PipeCalls {
  import opened Base
  import opened PipeProtocol
  import opened PipeFifo

  /** A call fits, when it is granted its end of the pipe: it starts far enough from the end of the buffer,
      a write has room for all of its bytes (unless nobody reads) and none of them is -1. */
  predicate CallFits(p: Pipe, e: Event)
    requires Enabled(p, e)
  {
    match e
    case TakeWrite(a) =>
      var data := p.w.calls[a].data;
      && p.w.head + |data| <= RING && END !in data && (p.r.count > 0 ==> |data| <= p.space)
    case TakeRead(a) => p.r.head + p.r.calls[a].n <= RING
    case _ => true
  }

  /** A writer in its critical section has room left for the bytes it has yet to announce. */
  predicate WriterFits(w: Writer, space: int, readers: int)
    requires w.WaitSpace?
  {
    w.start + |w.data| <= RING && END !in w.data && (readers > 0 ==> |w.data| - w.i <= space)
  }

  predicate ReaderFits(r: Reader)
    requires r.WaitElement?
  {
    r.start + r.n <= RING
  }

  predicate WritersFit(calls: map<Proc, Writer>, space: int, readers: int) {
    forall a | a in Writing(calls) :: WriterFits(calls[a], space, readers)
  }

  predicate ReadersFit(calls: map<Proc, Reader>) {
    forall a | a in Reading(calls) :: ReaderFits(calls[a])
  }

  /** The calls in their critical sections fit, and no announced byte is -1. */
  predicate Fitting(p: Pipe) {
    WritersFit(p.w.calls, p.space, p.r.count) && ReadersFit(p.r.calls) && END !in p.w.stored
  }

  // ---------------------------------------------------------------- a call that fits is clean

  lemma WriteClean(p: Pipe, a: Proc)
    requires PipeInv(p) && CanTakeWrite(p, a) && CallFits(p, TakeWrite(a))
    ensures Clean(p, TakeWrite(a))
  {
  }

  lemma SpaceClean(p: Pipe, a: Proc)
    requires PipeInv(p) && Fitting(p) && CanTakeSpace(p, a)
    ensures Clean(p, TakeSpace(a))
  {
    assert WriterFits(p.w.calls[a], p.space, p.r.count);
  }

  lemma HeadIsData(v: Bytes, all: seq<Byte>)
    requires Queue(v, all) && v.readers > 0 && v.nelement > 0 && v.stored <= all && END !in v.stored
    ensures v.readHead < |v.buffer| && v.buffer[v.readHead] != END
  {
    var d := |v.delivered|;
    assert v.buffer[Slot(d)] == all[d] == v.stored[d];
  }

  lemma ElementClean(p: Pipe, a: Proc, wild: Byte)
    requires PipeInv(p) && Sound(p) && Fitting(p) && CanTakeElement(p, a)
    ensures Clean(p, TakeElement(a, wild))
  {
    ReadHolder(p.r, a);
    assert ReaderFits(p.r.calls[a]) && a in p.r.calls.Keys && |p.r.calls| > 0;
    SlotInside(Index(p.r.calls[a]));
    HeadIsData(View(p), InBuffer(p.w.calls, p.w.stored));
  }

  lemma FitIsClean(p: Pipe, e: Event)
    requires PipeInv(p) && Sound(p) && Fitting(p) && Enabled(p, e) && CallFits(p, e)
    ensures Clean(p, e)
  {
    match e
    case TakeWrite(a) => WriteClean(p, a);
    case TakeSpace(a) => SpaceClean(p, a);
    case TakeElement(a, wild) => ElementClean(p, a, wild);
    case _ =>
  }

  // ---------------------------------------------------------------- and what fits goes on fitting

  lemma StoreFits(p: Pipe, a: Proc, next: Writer)
    requires Writing(p.w.calls) <= {a} && ReadersFit(p.r.calls) && END !in p.w.stored
    requires next.WaitSpace? && WriterFits(next, p.space, p.r.count)
    ensures Fitting(StoreOrFinish(p, a, next).pipe)
  {
    var calls := StoreOrFinish(p, a, next).pipe.w.calls;
    assert forall b | b in Writing(calls) :: b == a || b in Writing(p.w.calls);
  }

  lemma AwaitFits(p: Pipe, a: Proc, next: Reader)
    requires WritersFit(p.w.calls, p.space, p.r.count) && END !in p.w.stored
    requires Reading(p.r.calls) <= {a} && next.WaitElement? && ReaderFits(next)
    ensures Fitting(AwaitOrFinish(p, a, next).pipe)
  {
    var calls := AwaitOrFinish(p, a, next).pipe.r.calls;
    assert forall b | b in Reading(calls) :: b == a || b in Reading(p.r.calls);
  }

  lemma TakeWriteFits(p: Pipe, a: Proc)
    requires PipeInv(p) && Fitting(p) && CanTakeWrite(p, a) && CallFits(p, TakeWrite(a))
    ensures Fitting(TakeWriteSegment(p, a).pipe)
  {
    assert Writing(p.w.calls) == {};
    StoreFits(p.(w := p.w.(mutex := p.w.mutex - 1)), a, First(p.w, a));
  }

  lemma TakeSpaceFits(p: Pipe, a: Proc)
    requires PipeInv(p) && Fitting(p) && CanTakeSpace(p, a)
    ensures Fitting(TakeSpaceSegment(p, a).pipe)
  {
    WriteHolder(p.w, a);
    assert WriterFits(p.w.calls[a], p.space, p.r.count);
    if p.r.count != 0 { StoreFits(Announced(p, a), a, Next(p.w.calls[a])); }
  }

  lemma TakeReadFits(p: Pipe, a: Proc)
    requires PipeInv(p) && Fitting(p) && CanTakeRead(p, a) && CallFits(p, TakeRead(a))
    ensures Fitting(TakeReadSegment(p, a).pipe)
  {
    assert Reading(p.r.calls) == {};
    AwaitFits(p.(r := p.r.(mutex := p.r.mutex - 1)), a, WaitElement(p.r.calls[a].fd, p.r.calls[a].n, p.r.head, []));
  }

  lemma TakenFits(p: Pipe, a: Proc)
    requires Fitting(p) && CanTakeElement(p, a)
    ensures Fitting(Taken(p, a))
  {
    forall b | b in Writing(p.w.calls) ensures WriterFits(p.w.calls[b], p.space + 1, p.r.count) {
      assert WriterFits(p.w.calls[b], p.space, p.r.count);
    }
  }

  lemma TakeElementFits(p: Pipe, a: Proc, wild: Byte)
    requires PipeInv(p) && Fitting(p) && CanTakeElement(p, a)
    ensures Fitting(TakeElementSegment(p, a, wild).pipe)
  {
    ReadHolder(p.r, a);
    TakenFits(p, a);
    assert ReaderFits(p.r.calls[a]);
    var b := Fetched(p.buffer, p.r.calls[a], wild);
    if b != END { AwaitFits(Taken(p, a).(r := Got(p.r, b)), a, WithByte(p.r.calls[a], b)); }
  }

  lemma CountFits(p: Pipe, e: Event)
    requires PipeInv(p) && Fitting(p) && Enabled(p, e)
    requires e.AddReader? || e.AddWriter? || e.CloseReader? || e.ExitReader? || e.DropWriter?
    ensures Fitting(Apply(p, e).pipe)
  {
    forall a | a in Writing(p.w.calls)
      ensures WriterFits(p.w.calls[a], Apply(p, e).pipe.space, Apply(p, e).pipe.r.count)
    {
      assert WriterFits(p.w.calls[a], p.space, p.r.count);
    }
  }

  lemma BeginFits(p: Pipe, e: Event)
    requires Fitting(p) && Enabled(p, e) && (e.BeginWrite? || e.BeginRead?)
    ensures Fitting(Apply(p, e).pipe)
  {
    if e.BeginWrite? { WriterAdded(p.w.calls, e.proc, e.fd, e.data); }
    if e.BeginRead? { ReaderAdded(p.r.calls, e.proc, e.fd, e.n); }
  }

  lemma FitStep(p: Pipe, e: Event)
    requires PipeInv(p) && Fitting(p) && Enabled(p, e) && CallFits(p, e)
    ensures Fitting(Apply(p, e).pipe)
  {
    match e
    case TakeWrite(a) => TakeWriteFits(p, a);
    case TakeSpace(a) => TakeSpaceFits(p, a);
    case TakeRead(a) => TakeReadFits(p, a);
    case TakeElement(a, wild) => TakeElementFits(p, a, wild);
    case BeginWrite(_, _, _) => BeginFits(p, e);
    case BeginRead(_, _, _) => BeginFits(p, e);
    case _ => CountFits(p, e);
  }

  // ---------------------------------------------------------------- runs

  predicate AllFit(p: Pipe, es: seq<Event>)
    requires Run(p, es)
    decreases |es|
  {
    es == [] || (CallFits(p, es[0]) && AllFit(Apply(p, es[0]).pipe, es[1..]))
  }

  lemma {:induction false} FitRun(p: Pipe, es: seq<Event>)
    requires PipeInv(p) && Sound(p) && Fitting(p) && Run(p, es) && AllFit(p, es)
    ensures AllClean(p, es)
    decreases |es|
  {
    if es != [] {
      FitIsClean(p, es[0]);
      SoundStep(p, es[0]);
      FitStep(p, es[0]);
      FitRun(Apply(p, es[0]).pipe, es[1..]);
    }
  }

  /** When every call fits as it is granted its end, whatever the interleaving, every segment is clean and
      the pipe is first-in first-out. */
  lemma CallsThatFit(es: seq<Event>)
    requires Run(NewPipe(), es) && AllFit(NewPipe(), es)
    ensures AllClean(NewPipe(), es)
    ensures var p := After(NewPipe(), es); PipeInv(p) && Sound(p) && p.r.delivered <= p.w.stored
  {
    NewPipeInv();
    FitRun(NewPipe(), es);
    Fifo(es);
  }

  // ---------------------------------------------------------------- the pipe as intended

  // An index that wraps with its head, a store made with the permit in hand, and a byte -1 that is data like
  // any other. Nothing else differs from PipeProtocol, and every run is then first-in first-out.

  /** The head of the write loop: block on `space_available`, with nothing stored yet, or leave. */
  function AskOrFinish(p: Pipe, a: Proc, next: Writer): Outcome
    requires next.WaitSpace?
  {
    if next.i < |next.data| then Blocked(p.(w := p.w.(calls := p.w.calls[a := next])))
    else Returned(p.(w := LeaveWrite(p.w.(inUse := p.w.inUse + |next.data|), a)), |next.data|, [])
  }

  /** The byte goes into the cell of the write head, and is announced. */
  function StoreAtHead(p: Pipe, b: Byte): Pipe
    requires p.space > 0
  {
    p.(space := p.space - 1, nelement := p.nelement + 1, buffer := Put(p.buffer, p.w.head, b),
       w := p.w.(head := Slot(p.w.head + 1), stored := p.w.stored + [b]))
  }

  function AtHead(p: Pipe, wild: Byte): Byte {
    if p.r.head < |p.buffer| then p.buffer[p.r.head] else wild
  }

  /** The byte of the read head is taken whatever it is. */
  function TakeAtHead(p: Pipe, b: Byte): Pipe
    requires p.nelement > 0
  {
    p.(nelement := p.nelement - 1, space := p.space + 1, r := Got(p.r, b))
  }

  function IntendedStep(p: Pipe, e: Event): Outcome
    requires Enabled(p, e)
  {
    match e
    case TakeWrite(a) => AskOrFinish(p.(w := p.w.(mutex := p.w.mutex - 1)), a, First(p.w, a))
    case TakeSpace(a) =>
      var w := p.w.calls[a];
      if p.r.count == 0 then TakeSpaceSegment(p, a) else AskOrFinish(StoreAtHead(p, w.data[w.i]), a, Next(w))
    case TakeElement(a, wild) =>
      var b := AtHead(p, wild);
      AwaitOrFinish(TakeAtHead(p, b), a, WithByte(p.r.calls[a], b))
    case _ => Apply(p, e)
  }

  /** The ring holds exactly the announced bytes that are not delivered yet. */
  ghost predicate Ordered(p: Pipe) {
    && Queue(View(p), p.w.stored) && |p.buffer| == RING && Permits(p)
    && p.w.head < RING && |p.r.calls| <= p.r.count
  }

  lemma AskOrdered(p: Pipe, a: Proc, next: Writer)
    requires Ordered(p) && next.WaitSpace?
    ensures Ordered(AskOrFinish(p, a, next).pipe)
  {
  }

  lemma StoreOrdered(p: Pipe, b: Byte)
    requires Ordered(p) && p.space > 0 && p.r.count > 0
    ensures Ordered(StoreAtHead(p, b))
  {
    PutKeepsRing(p.buffer, p.r.head, p.w.head, |p.r.delivered|, p.w.stored, b);
  }

  lemma TakeOrdered(p: Pipe, wild: Byte)
    requires Ordered(p) && p.nelement > 0 && p.r.count > 0
    ensures Ordered(TakeAtHead(p, AtHead(p, wild)))
  {
    TakeKeepsRing(p.buffer, p.r.head, p.w.head, |p.r.delivered|, p.w.stored);
  }

  lemma AwaitOrdered(p: Pipe, a: Proc, next: Reader)
    requires Ordered(p) && a in p.r.calls && next.WaitElement?
    ensures Ordered(AwaitOrFinish(p, a, next).pipe)
  {
    assert p.r.calls[a := next].Keys == p.r.calls.Keys;
    SubsetSize(p.r.calls.Keys - {a}, p.r.calls.Keys);
    assert (p.r.calls - {a}).Keys == p.r.calls.Keys - {a};
  }

  lemma OthersOrdered(p: Pipe, e: Event)
    requires Ordered(p) && Enabled(p, e) && !e.TakeWrite? && !e.TakeSpace? && !e.TakeRead? && !e.TakeElement?
    ensures Ordered(Apply(p, e).pipe)
  {
    if e.BeginRead? { ReaderAdded(p.r.calls, e.proc, e.fd, e.n); }
  }

  /** Every step keeps the order: no condition on lengths, on a full ring or on the bytes. */
  lemma OrderedStep(p: Pipe, e: Event)
    requires Ordered(p) && Enabled(p, e)
    ensures Ordered(IntendedStep(p, e).pipe)
  {
    match e
    case TakeWrite(a) => AskOrdered(p.(w := p.w.(mutex := p.w.mutex - 1)), a, First(p.w, a));
    case TakeSpace(a) =>
      if p.r.count > 0 {
        var w := p.w.calls[a];
        StoreOrdered(p, w.data[w.i]);
        AskOrdered(StoreAtHead(p, w.data[w.i]), a, Next(w));
      }
    case TakeRead(a) =>
      var r := p.r.calls[a];
      AwaitOrdered(p.(r := p.r.(mutex := p.r.mutex - 1)), a, WaitElement(r.fd, r.n, p.r.head, []));
    case TakeElement(a, wild) =>
      assert a in p.r.calls.Keys && |p.r.calls| > 0;
      var b := AtHead(p, wild);
      TakeOrdered(p, wild);
      AwaitOrdered(TakeAtHead(p, b), a, WithByte(p.r.calls[a], b));
    case _ => OthersOrdered(p, e);
  }

  predicate IntendedRun(p: Pipe, es: seq<Event>)
    decreases |es|
  {
    es == [] || (Enabled(p, es[0]) && IntendedRun(IntendedStep(p, es[0]).pipe, es[1..]))
  }

  function IntendedAfter(p: Pipe, es: seq<Event>): Pipe
    requires IntendedRun(p, es)
    decreases |es|
  {
    if es == [] then p else IntendedAfter(IntendedStep(p, es[0]).pipe, es[1..])
  }

  lemma {:induction false} OrderedRun(p: Pipe, es: seq<Event>)
    requires Ordered(p) && IntendedRun(p, es)
    ensures Ordered(IntendedAfter(p, es))
    decreases |es|
  {
    if es != [] {
      OrderedStep(p, es[0]);
      OrderedRun(IntendedStep(p, es[0]).pipe, es[1..]);
    }
  }

  /** With the three changes every run is first-in first-out: what is delivered is a prefix of what is
      announced, no access leaves the buffer, and while anyone can read the permits count the rest. */
  lemma AlwaysFifo(es: seq<Event>)
    requires IntendedRun(NewPipe(), es)
    ensures var p := IntendedAfter(NewPipe(), es);
            && p.r.delivered <= p.w.stored && !p.outOfBounds
            && (p.r.count > 0 ==> p.nelement == |p.w.stored| - |p.r.delivered| <= RING)
  {
    OrderedRun(NewPipe(), es);
  }
}
