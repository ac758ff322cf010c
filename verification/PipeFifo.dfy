/** What a pipe delivers: when the bytes read are the bytes written, in order, and exactly which
    segments of the code keep it so. */
module PipeFifo {
  import opened Base
  import opened PipeProtocol

  /** The buffer holds position `k` of `all` in cell `k % 8192`, for every position from `d` on; the
      read head stands at position `d` and the write head after the last. */
  ghost predicate Ring(buffer: seq<Byte>, readHead: nat, writeHead: nat, d: nat, all: seq<Byte>) {
    && |buffer| == RING && d <= |all| && readHead == Slot(d) && writeHead == Slot(|all|)
    && forall k | d <= k < |all| :: buffer[Slot(k)] == all[k]
  }

  /** The part of a pipe that the bytes depend on. */
  datatype Bytes = Bytes(outOfBounds: bool, readers: int, nelement: nat, buffer: seq<Byte>,
                         readHead: nat, writeHead: nat, delivered: seq<Byte>, stored: seq<Byte>,
                         calls: map<Proc, Writer>)

  function View(p: Pipe): Bytes {
    Bytes(p.outOfBounds, p.r.count, p.nelement, p.buffer, p.r.head, p.w.head, p.r.delivered, p.w.stored, p.w.calls)
  }

  /** Every byte put in the buffer: those announced, and the one its writer has yet to announce. */
  ghost function InBuffer(calls: map<Proc, Writer>, stored: seq<Byte>): seq<Byte>
    requires forall a | a in Writing(calls) :: calls[a].i < |calls[a].data|
  {
    if Writing(calls) == {} then stored else
      var a :| a in Writing(calls);
      stored + [calls[a].data[calls[a].i]]
  }

  /** What has been delivered is a prefix of what has been announced, and, while anyone can read, the
      ring holds the rest of `all`, one element permit to an announced byte. */
  ghost predicate Queue(b: Bytes, all: seq<Byte>) {
    && !b.outOfBounds && b.delivered <= b.stored
    && (b.readers > 0 ==>
          && b.nelement == |b.stored| - |b.delivered|
          && Ring(b.buffer, b.readHead, b.writeHead, |b.delivered|, all))
  }

  /** The pipe is a queue. */
  ghost predicate Sound(p: Pipe)
    requires PipeInv(p)
  {
    Queue(View(p), InBuffer(p.w.calls, p.w.stored))
  }

  /** A store is clean when its index lies in the buffer and, unless nobody reads, its cell is free
      (or already holds the byte). */
  predicate CleanStore(p: Pipe, next: Writer)
    requires next.WaitSpace?
  {
    next.i < |next.data| ==>
      && Place(next) < |p.buffer|
      && (p.r.count == 0 || p.space > 0 || p.buffer[Place(next)] == next.data[next.i])
  }

  /** A step is clean when its store is, and when the byte it takes lies in the buffer and is not the
      one mistaken for end of data. */
  predicate Clean(p: Pipe, e: Event) {
    && Enabled(p, e)
    && match e
       case TakeWrite(a) => CleanStore(p, First(p.w, a))
       case TakeSpace(a) => p.r.count == 0 || CleanStore(Announced(p, a), Next(p.w.calls[a]))
       case TakeElement(a, _) => Index(p.r.calls[a]) < |p.buffer| && p.buffer[Index(p.r.calls[a])] != END
       case _ => true
  }

  // ---------------------------------------------------------------- the ring

  /** Putting a byte at the write head extends the queue, unless a full turn of bytes is waiting and
      the byte differs from the one it lands on. */
  lemma PutKeepsRing(buffer: seq<Byte>, readHead: nat, writeHead: nat, d: nat, all: seq<Byte>, b: Byte)
    requires Ring(buffer, readHead, writeHead, d, all) && |all| - d <= RING
    ensures Ring(Put(buffer, writeHead, b), readHead, Slot(writeHead + 1), d, all + [b])
        <==> |all| - d < RING || buffer[writeHead] == b
  {
    var put, more := Put(buffer, writeHead, b), all + [b];
    SlotNext(|all|);
    if |all| - d < RING || buffer[writeHead] == b {
      forall k | d <= k < |more| ensures put[Slot(k)] == more[k] {
        if k < |all| && |all| < k + RING { SlotApart(k, |all|); }
        if k < |all| && |all| == k + RING { SlotTurn(k); }
      }
    } else {
      SlotTurn(d);
      assert put[Slot(d)] != more[d];
    }
  }

  /** Taking the byte at the read head shortens the queue. */
  lemma TakeKeepsRing(buffer: seq<Byte>, readHead: nat, writeHead: nat, d: nat, all: seq<Byte>)
    requires Ring(buffer, readHead, writeHead, d, all) && d < |all|
    ensures buffer[readHead] == all[d] && Ring(buffer, Slot(readHead + 1), writeHead, d + 1, all)
  {
    SlotNext(d);
  }

  lemma InBufferBetween(w: WriteEnd)
    requires WriteInv(w) && w.mutex == 1
    ensures InBuffer(w.calls, w.stored) == w.stored
  {
  }

  lemma InBufferOf(w: WriteEnd, a: Proc)
    requires WriteInv(w) && a in Writing(w.calls)
    ensures InBuffer(w.calls, w.stored) == w.stored + [w.calls[a].data[w.calls[a].i]]
  {
    WriteHolder(w, a);
  }

  // ---------------------------------------------------------------- each segment, both ways

  /** Soundness of the pipe while its writer is between two stores. */
  ghost predicate SoundBetween(p: Pipe) {
    Queue(View(p), p.w.stored) && |p.buffer| == RING && Permits(p) && p.w.head < RING && p.r.count >= 0
  }

  /** What storing byte `b` at `index` does to the bytes. */
  function StoredView(v: Bytes, index: nat, b: Byte, calls: map<Proc, Writer>): Bytes {
    v.(buffer := Put(v.buffer, index, b), outOfBounds := v.outOfBounds || index >= |v.buffer|,
       writeHead := Slot(v.writeHead + 1), calls := calls)
  }

  lemma StoredQueue(v: Bytes, index: nat, b: Byte, calls: map<Proc, Writer>)
    requires Queue(v, v.stored) && |v.buffer| == RING && v.readers >= 0
    requires v.readers > 0 ==> v.nelement <= RING && v.writeHead == Slot(index) && v.writeHead < RING
    ensures Queue(StoredView(v, index, b, calls), v.stored + [b])
        <==> index < RING && (v.readers == 0 || v.nelement < RING || v.buffer[index] == b)
  {
    if v.readers > 0 && index < RING {
      PutKeepsRing(v.buffer, v.readHead, v.writeHead, |v.delivered|, v.stored, b);
    }
  }

  lemma StoreView(p: Pipe, a: Proc, next: Writer)
    requires next.WaitSpace? && next.i < |next.data|
    ensures View(Store(p, a, next))
         == StoredView(View(p), Place(next), next.data[next.i], Store(p, a, next).w.calls)
  {
  }

  lemma StoreSound(p: Pipe, a: Proc, next: Writer)
    requires SoundBetween(p)
    requires next.WaitSpace? && next.i < |next.data| && p.w.head == Slot(Place(next))
    requires PipeInv(Store(p, a, next))
    ensures Sound(Store(p, a, next)) <==> CleanStore(p, next)
  {
    var q := Store(p, a, next);
    assert a in Writing(q.w.calls);
    InBufferOf(q.w, a);
    StoreView(p, a, next);
    StoredQueue(View(p), Place(next), next.data[next.i], q.w.calls);
  }

  lemma StoreOrFinishSound(p: Pipe, a: Proc, next: Writer)
    requires SoundBetween(p) && p.w.mutex == 0
    requires next.WaitSpace? && p.w.head == Slot(Place(next))
    requires PipeInv(StoreOrFinish(p, a, next).pipe)
    ensures Sound(StoreOrFinish(p, a, next).pipe) <==> CleanStore(p, next)
  {
    if next.i < |next.data| {
      StoreSound(p, a, next);
    } else {
      InBufferBetween(StoreOrFinish(p, a, next).pipe.w);
    }
  }

  lemma TakeWriteSound(p: Pipe, a: Proc)
    requires PipeInv(p) && Sound(p) && CanTakeWrite(p, a) && PipeInv(TakeWriteSegment(p, a).pipe)
    ensures Sound(TakeWriteSegment(p, a).pipe) <==> CleanStore(p, First(p.w, a))
  {
    InBufferBetween(p.w);
    StoreOrFinishSound(p.(w := p.w.(mutex := p.w.mutex - 1)), a, First(p.w, a));
  }

  lemma AnnouncedQueue(v: Bytes, b: Byte)
    requires Queue(v, v.stored + [b]) && v.readers > 0
    ensures Queue(v.(nelement := v.nelement + 1, stored := v.stored + [b]), v.stored + [b])
  {
  }

  lemma AnnouncedBetween(p: Pipe, a: Proc)
    requires PipeInv(p) && Sound(p) && CanTakeSpace(p, a) && p.r.count > 0
    ensures SoundBetween(Announced(p, a)) && p.w.mutex == 0
  {
    WriteHolder(p.w, a);
    InBufferOf(p.w, a);
    var b := p.w.calls[a].data[p.w.calls[a].i];
    AnnouncedQueue(View(p), b);
    assert View(Announced(p, a)) == View(p).(nelement := p.nelement + 1, stored := p.w.stored + [b]);
  }

  lemma AnnouncedPlace(w: WriteEnd, a: Proc)
    requires WriteInv(w) && a in Writing(w.calls)
    ensures w.head == Slot(Place(Next(w.calls[a])))
  {
  }

  lemma TakeSpaceSound(p: Pipe, a: Proc)
    requires PipeInv(p) && Sound(p) && CanTakeSpace(p, a) && PipeInv(TakeSpaceSegment(p, a).pipe)
    ensures Sound(TakeSpaceSegment(p, a).pipe)
        <==> p.r.count == 0 || CleanStore(Announced(p, a), Next(p.w.calls[a]))
  {
    if p.r.count == 0 {
      assert View(TakeSpaceSegment(p, a).pipe) == View(p).(calls := p.w.calls - {a});
    } else {
      AnnouncedBetween(p, a);
      AnnouncedPlace(p.w, a);
      AnnouncedSound(p, a);
    }
  }

  lemma AnnouncedSound(p: Pipe, a: Proc)
    requires CanTakeSpace(p, a) && SoundBetween(Announced(p, a)) && p.w.mutex == 0
    requires p.w.head == Slot(Place(Next(p.w.calls[a])))
    requires PipeInv(StoreOrFinish(Announced(p, a), a, Next(p.w.calls[a])).pipe)
    ensures Sound(StoreOrFinish(Announced(p, a), a, Next(p.w.calls[a])).pipe)
        <==> CleanStore(Announced(p, a), Next(p.w.calls[a]))
  {
    StoreOrFinishSound(Announced(p, a), a, Next(p.w.calls[a]));
  }

  lemma AwaitView(p: Pipe, a: Proc, next: Reader)
    requires next.WaitElement?
    ensures View(AwaitOrFinish(p, a, next).pipe) == View(p)
  {
  }

  lemma TakeElementView(p: Pipe, a: Proc, wild: Byte)
    requires CanTakeElement(p, a)
    ensures View(TakeElementSegment(p, a, wild).pipe)
         == TakenView(View(p), Index(p.r.calls[a]), Fetched(p.buffer, p.r.calls[a], wild))
  {
    var b := Fetched(p.buffer, p.r.calls[a], wild);
    if b != END {
      AwaitView(Taken(p, a).(r := Got(p.r, b)), a, WithByte(p.r.calls[a], b));
    }
  }

  /** What taking byte `b` at `index` does to the bytes: `END` is consumed, but neither delivered nor
      passed by the read head. */
  function TakenView(v: Bytes, index: nat, b: Byte): Bytes
    requires v.nelement > 0
  {
    var taken := v.(nelement := v.nelement - 1, outOfBounds := v.outOfBounds || index >= |v.buffer|);
    if b == END then taken
    else taken.(readHead := Slot(v.readHead + 1), delivered := v.delivered + [b])
  }

  lemma TakenQueue(v: Bytes, index: nat, b: Byte, all: seq<Byte>)
    requires Queue(v, all) && v.readers > 0 && v.nelement > 0 && v.stored <= all
    requires v.readHead == Slot(index) && |v.buffer| == RING
    requires index < RING ==> b == v.buffer[index]
    ensures Queue(TakenView(v, index, b), all) <==> index < RING && b != END
  {
    if index < RING && b != END {
      TakeKeepsRing(v.buffer, v.readHead, v.writeHead, |v.delivered|, all);
    }
  }

  lemma TakeElementSound(p: Pipe, a: Proc, wild: Byte)
    requires PipeInv(p) && Sound(p) && CanTakeElement(p, a) && PipeInv(TakeElementSegment(p, a, wild).pipe)
    ensures Sound(TakeElementSegment(p, a, wild).pipe)
        <==> Index(p.r.calls[a]) < RING && p.buffer[Index(p.r.calls[a])] != END
  {
    ReadHolder(p.r, a);
    assert a in p.r.calls.Keys && |p.r.calls| > 0;
    TakeElementView(p, a, wild);
    TakenQueue(View(p), Index(p.r.calls[a]), Fetched(p.buffer, p.r.calls[a], wild),
               InBuffer(p.w.calls, p.w.stored));
  }

  /** A step from a sound pipe leaves it sound exactly when it is clean. */
  lemma SoundStep(p: Pipe, e: Event)
    requires PipeInv(p) && Sound(p) && Enabled(p, e)
    ensures PipeInv(Apply(p, e).pipe)
    ensures Sound(Apply(p, e).pipe) <==> Clean(p, e)
  {
    InvStep(p, e);
    match e
    case TakeWrite(a) => TakeWriteSound(p, a);
    case TakeSpace(a) => TakeSpaceSound(p, a);
    case TakeElement(a, wild) => TakeElementSound(p, a, wild);
    case TakeRead(_) => UntouchedSound(p, e);
    case BeginWrite(a, fd, data) => WriterAddedSound(p, a, fd, data);
    case BeginRead(_, _, _) => UntouchedSound(p, e);
    case _ => CountSound(p, e);
  }

  lemma UntouchedSound(p: Pipe, e: Event)
    requires PipeInv(p) && Sound(p) && Enabled(p, e) && (e.TakeRead? || e.BeginRead?) && PipeInv(Apply(p, e).pipe)
    ensures Sound(Apply(p, e).pipe)
  {
    if e.TakeRead? {
      var r := p.r.calls[e.proc];
      AwaitView(p.(r := p.r.(mutex := p.r.mutex - 1)), e.proc, WaitElement(r.fd, r.n, p.r.head, []));
    }
    assert View(Apply(p, e).pipe) == View(p);
  }

  lemma WriterAddedSound(p: Pipe, a: Proc, fd: FdId, data: seq<Byte>)
    requires PipeInv(p) && Sound(p) && Enabled(p, BeginWrite(a, fd, data))
    requires PipeInv(Apply(p, BeginWrite(a, fd, data)).pipe)
    ensures Sound(Apply(p, BeginWrite(a, fd, data)).pipe)
  {
    var q := Apply(p, BeginWrite(a, fd, data)).pipe;
    WriterAdded(p.w.calls, a, fd, data);
    if p.w.mutex == 1 {
      InBufferBetween(p.w);
      InBufferBetween(q.w);
    } else {
      var b :| b in Writing(p.w.calls);
      InBufferOf(p.w, b);
      InBufferOf(q.w, b);
    }
  }

  lemma CountSound(p: Pipe, e: Event)
    requires PipeInv(p) && Sound(p) && Enabled(p, e) && PipeInv(Apply(p, e).pipe)
    requires e.AddReader? || e.AddWriter? || e.CloseReader? || e.ExitReader? || e.DropWriter?
    ensures Sound(Apply(p, e).pipe)
  {
  }

  // ---------------------------------------------------------------- runs

  predicate AllClean(p: Pipe, es: seq<Event>)
    decreases |es|
  {
    es == [] || (Clean(p, es[0]) && AllClean(Apply(p, es[0]).pipe, es[1..]))
  }

  lemma {:induction false} SoundRun(p: Pipe, es: seq<Event>)
    requires PipeInv(p) && Sound(p) && Run(p, es) && AllClean(p, es)
    ensures PipeInv(After(p, es)) && Sound(After(p, es))
    decreases |es|
  {
    if es != [] {
      SoundStep(p, es[0]);
      SoundRun(Apply(p, es[0]).pipe, es[1..]);
    }
  }

  /** A pipe is first-in first-out over every run of clean steps: whatever the interleaving, the bytes
      delivered are a prefix of the bytes announced, and the ring holds exactly the others. */
  lemma Fifo(es: seq<Event>)
    requires Run(NewPipe(), es) && AllClean(NewPipe(), es)
    ensures var p := After(NewPipe(), es); PipeInv(p) && Sound(p) && p.r.delivered <= p.w.stored
  {
    NewPipeInv();
    SoundRun(NewPipe(), es);
  }

  /** The first step that is not clean ends it. */
  lemma FifoEnds(es: seq<Event>, e: Event)
    requires Run(NewPipe(), es) && AllClean(NewPipe(), es) && Enabled(After(NewPipe(), es), e)
    ensures var p := After(NewPipe(), es);
            PipeInv(Apply(p, e).pipe) && (Sound(Apply(p, e).pipe) <==> Clean(p, e))
  {
    Fifo(es);
    SoundStep(After(NewPipe(), es), e);
  }

  /** A read of a sound pipe that returns from a clean step hands over the announced bytes that follow
      those of the reads before it. */
  lemma ReadIsNext(p: Pipe, a: Proc, wild: Byte)
    requires PipeInv(p) && Sound(p) && CanTakeElement(p, a) && Clean(p, TakeElement(a, wild))
    requires TakeElementSegment(p, a, wild).Returned?
    ensures var o := TakeElementSegment(p, a, wild);
            o.value == |o.bytes| && Segment(o.bytes, o.pipe.r.delivered, o.pipe.w.stored)
  {
    SoundStep(p, TakeElement(a, wild));
    ReadReturns(p, TakeElement(a, wild));
    var o := TakeElementSegment(p, a, wild);
    assert o.pipe.r.delivered <= o.pipe.w.stored;
    SegmentOf(o.bytes, o.pipe.r.delivered, o.pipe.w.stored);
  }

  /** `bytes` are the announced bytes at the positions last delivered. */
  predicate Segment(bytes: seq<Byte>, delivered: seq<Byte>, stored: seq<Byte>) {
    && |bytes| <= |delivered| <= |stored|
    && bytes == stored[|delivered| - |bytes|..|delivered|]
  }

  lemma SegmentOf(bytes: seq<Byte>, delivered: seq<Byte>, stored: seq<Byte>)
    requires delivered <= stored && EndsWith(delivered, bytes, |bytes|)
    ensures Segment(bytes, delivered, stored)
  {
    assert delivered == stored[..|delivered|];
    assert delivered[|delivered| - |bytes|..] == stored[|delivered| - |bytes|..|delivered|];
  }
}
