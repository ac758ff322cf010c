/** Runs that leave the clean steps: how long the byte taken for end of data stays at the read head and ends
    every read that gets there, and what the code does to bytes and callers. */
module PipeLimits {
  import opened Base
  import opened PipeProtocol
  import opened PipeFifo
  import opened PipeRelease

  // ---------------------------------------------------------------- the byte taken for end of data

  /** The byte at the read head is the one taken for end of data. */
  predicate AtEnd(p: Pipe) {
    |p.buffer| == RING && p.r.head < RING && p.buffer[p.r.head] == END
  }

  /** The byte that a step stores, if it stores one, as the writer then stands. */
  function StoreOf(p: Pipe, e: Event): (w: Option<Writer>)
    requires Enabled(p, e)
    ensures w.Some? ==> w.value.WaitSpace? && w.value.i < |w.value.data|
  {
    match e
    case TakeWrite(a) => if p.w.calls[a].data == [] then None else Some(First(p.w, a))
    case TakeSpace(a) =>
      if p.r.count == 0 || p.w.calls[a].i + 1 >= |p.w.calls[a].data| then None else Some(Next(p.w.calls[a]))
    case _ => None
  }

  predicate Stores(p: Pipe, e: Event)
    requires Enabled(p, e)
  {
    StoreOf(p, e).Some?
  }

  /** How many stores there are before the one that reaches the cell of the read head. */
  function Ahead(p: Pipe): (n: int)
    requires p.w.head < RING && p.r.head < RING
    ensures 0 <= n < RING
  {
    Gap(p.w.head, p.r.head)
  }

  function Gap(from: nat, to: nat): (n: int)
    requires from < RING && to < RING
    ensures 0 <= n < RING && (n == 0 <==> from == to)
  {
    if from <= to then to - from else to + RING - from
  }

  lemma GapNext(from: nat, to: nat)
    requires from < RING && to < RING && from != to
    ensures Gap(Slot(from + 1), to) == Gap(from, to) - 1
  {
    SlotAfter(from);
  }

  /** The step reads no byte beyond the buffer. */
  predicate ReadsInside(p: Pipe, e: Event)
    requires Enabled(p, e)
  {
    e.TakeElement? ==> Index(p.r.calls[e.proc]) < RING
  }

  /** Where a store lands: at the write head, unless its index has left the buffer. */
  predicate Lands(p: Pipe, next: Writer, p': Pipe)
    requires next.WaitSpace? && next.i < |next.data|
  {
    && Slot(Place(next)) == p.w.head && (Place(next) < RING ==> Place(next) == p.w.head)
    && p'.buffer == Put(p.buffer, Place(next), next.data[next.i])
    && p'.w.head == Slot(p.w.head + 1) && p'.r == p.r
  }

  lemma FirstLands(p: Pipe, a: Proc)
    requires CanTakeWrite(p, a) && p.w.calls[a].data != [] && p.w.head < RING
    ensures Lands(p, First(p.w, a), TakeWriteSegment(p, a).pipe)
  {
    assert Place(First(p.w, a)) == p.w.head;
    SlotInside(p.w.head);
  }

  lemma NextLands(p: Pipe, a: Proc)
    requires CanTakeSpace(p, a) && p.r.count != 0 && p.w.calls[a].i + 1 < |p.w.calls[a].data|
    requires p.w.head == Slot(Place(Next(p.w.calls[a])))
    ensures Lands(p, Next(p.w.calls[a]), TakeSpaceSegment(p, a).pipe)
  {
    if Place(Next(p.w.calls[a])) < RING { SlotInside(Place(Next(p.w.calls[a]))); }
  }

  lemma NextPlace(w: WriteEnd, a: Proc)
    requires WriteInv(w) && a in Writing(w.calls)
    ensures w.head == Slot(Place(Next(w.calls[a])))
  {
    WriteHolder(w, a);
    AnnouncedReady(w.calls[a], w.head, w.stored);
  }

  lemma StorePlace(p: Pipe, e: Event)
    requires PipeInv(p) && Enabled(p, e) && Stores(p, e)
    ensures Lands(p, StoreOf(p, e).value, Apply(p, e).pipe)
  {
    if e.TakeWrite? {
      FirstLands(p, e.proc);
    } else {
      NextPlace(p.w, e.proc);
      NextLands(p, e.proc);
    }
  }

  lemma SlotAfter(w: nat)
    requires w < RING
    ensures Slot(w + 1) == if w + 1 == RING then 0 else w + 1
  {
  }

  /** A read that gets there returns what it had, and leaves byte and head where they are. */
  lemma EndSticks(p: Pipe, a: Proc, wild: Byte)
    requires PipeInv(p) && CanTakeElement(p, a) && Index(p.r.calls[a]) < RING && AtEnd(p)
    ensures var o := TakeElementSegment(p, a, wild);
            && o.Returned? && o.bytes == p.r.calls[a].got
            && o.pipe.r.head == p.r.head && o.pipe.buffer == p.buffer && o.pipe.w == p.w
            && o.pipe.r.delivered == p.r.delivered && o.pipe.nelement == p.nelement - 1
  {
    ReadHolder(p.r, a);
    SlotInside(Index(p.r.calls[a]));
  }

  /** A step that stores nothing leaves it there and delivers nothing. */
  lemma EndIdle(p: Pipe, e: Event)
    requires PipeInv(p) && Enabled(p, e) && AtEnd(p) && ReadsInside(p, e) && !Stores(p, e)
    ensures var p' := Apply(p, e).pipe;
      && p'.buffer == p.buffer && p'.r.head == p.r.head && p'.w.head == p.w.head && p'.r.delivered == p.r.delivered
  {
    if e.TakeElement? { EndSticks(p, e.proc, e.wild); }
  }

  /** A store elsewhere, or beyond the buffer, leaves a cell alone. */
  lemma PutElsewhere(buffer: seq<Byte>, k: nat, head: nat, b: Byte, at: nat)
    requires at < |buffer| && (k < |buffer| ==> k == head) && head != at
    ensures Put(buffer, k, b)[at] == buffer[at]
  {
  }

  /** One that stores a byte leaves it there, one store nearer, as long as another cell comes first. */
  lemma EndStore(p: Pipe, e: Event)
    requires PipeInv(p) && Enabled(p, e) && AtEnd(p) && Stores(p, e) && Ahead(p) > 0
    ensures var p' := Apply(p, e).pipe; p'.r == p.r && p'.w.head < RING && AtEnd(p') && Ahead(p') == Ahead(p) - 1
  {
    StorePlace(p, e);
    LandsNearer(p, StoreOf(p, e).value, Apply(p, e).pipe);
  }

  lemma LandsNearer(p: Pipe, next: Writer, p': Pipe)
    requires next.WaitSpace? && next.i < |next.data| && Lands(p, next, p')
    requires AtEnd(p) && p.w.head < RING && Ahead(p) > 0
    ensures p'.w.head < RING && AtEnd(p') && Ahead(p') == Ahead(p) - 1
  {
    PutElsewhere(p.buffer, Place(next), p.w.head, next.data[next.i], p.r.head);
    GapNext(p.w.head, p.r.head);
  }

  /** The store that reaches its cell replaces it, unless its index has left the buffer. */
  lemma EndReached(p: Pipe, e: Event)
    requires PipeInv(p) && Enabled(p, e) && AtEnd(p) && Stores(p, e) && Ahead(p) == 0
    ensures var p', next := Apply(p, e).pipe, StoreOf(p, e).value;
      && p'.r == p.r && p'.w.head < RING && |p'.buffer| == RING
      && p'.buffer[p.r.head] == if Place(next) < RING then next.data[next.i] else END
  {
    StorePlace(p, e);
    SlotAfter(p.w.head);
  }

  /** The byte ends a read at the head after the step too. */
  predicate Stays(p: Pipe, p': Pipe) {
    AtEnd(p') && p'.r.head == p.r.head && p'.r.delivered == p.r.delivered
  }

  /** It stays there at a step exactly if the step is not the store of another byte into its cell. */
  lemma EndStaysIff(p: Pipe, e: Event)
    requires PipeInv(p) && Enabled(p, e) && AtEnd(p) && ReadsInside(p, e)
    ensures Stays(p, Apply(p, e).pipe)
       <==> !(Stores(p, e) && Ahead(p) == 0 && Place(StoreOf(p, e).value) < RING
              && StoreOf(p, e).value.data[StoreOf(p, e).value.i] != END)
  {
    if !Stores(p, e) {
      EndIdle(p, e);
    } else if Ahead(p) > 0 {
      EndStore(p, e);
    } else {
      EndReached(p, e);
    }
  }

  // ---------------------------------------------------------------- runs

  predicate AllReadInside(p: Pipe, es: seq<Event>)
    requires Run(p, es)
    decreases |es|
  {
    es == [] || (ReadsInside(p, es[0]) && AllReadInside(Apply(p, es[0]).pipe, es[1..]))
  }

  function StoresIn(p: Pipe, es: seq<Event>): nat
    requires Run(p, es)
    decreases |es|
  {
    if es == [] then 0 else (if Stores(p, es[0]) then 1 else 0) + StoresIn(Apply(p, es[0]).pipe, es[1..])
  }

  lemma EndStep(p: Pipe, e: Event)
    requires PipeInv(p) && Enabled(p, e) && AtEnd(p) && ReadsInside(p, e) && (Stores(p, e) ==> Ahead(p) > 0)
    ensures PipeInv(Apply(p, e).pipe) && Stays(p, Apply(p, e).pipe)
    ensures Ahead(Apply(p, e).pipe) == Ahead(p) - if Stores(p, e) then 1 else 0
  {
    InvStep(p, e);
    if Stores(p, e) { EndStore(p, e); } else { EndIdle(p, e); }
  }

  /** Over a run whose stores stop short of its cell the byte stays at the head, whatever is read and
      written, and nothing is delivered. */
  lemma {:induction false} EndRun(p: Pipe, es: seq<Event>)
    requires PipeInv(p) && AtEnd(p) && Run(p, es) && AllReadInside(p, es) && StoresIn(p, es) <= Ahead(p)
    ensures PipeInv(After(p, es)) && Stays(p, After(p, es)) && Ahead(After(p, es)) == Ahead(p) - StoresIn(p, es)
    decreases |es|
  {
    if es != [] {
      EndStep(p, es[0]);
      EndRun(Apply(p, es[0]).pipe, es[1..]);
    }
  }

  /** So it ends every read that gets there until the store that comes to its cell: the first after
      `Ahead` others, and no other step. */
  lemma EndUntil(p: Pipe, es: seq<Event>, e: Event)
    requires PipeInv(p) && AtEnd(p) && Run(p, es) && AllReadInside(p, es) && StoresIn(p, es) <= Ahead(p)
    requires Enabled(After(p, es), e) && ReadsInside(After(p, es), e)
    ensures var q := After(p, es);
      && Stays(p, q)
      && (Stays(p, Apply(q, e).pipe)
          <==> !(Stores(q, e) && StoresIn(p, es) == Ahead(p) && Place(StoreOf(q, e).value) < RING
                 && StoreOf(q, e).value.data[StoreOf(q, e).value.i] != END))
      && (e.TakeElement? ==> Apply(q, e).Returned? && Apply(q, e).bytes == q.r.calls[e.proc].got)
  {
    EndRun(p, es);
    EndStaysIff(After(p, es), e);
    if e.TakeElement? { EndSticks(After(p, es), e.proc, e.wild); }
  }

  // ---------------------------------------------------------------- what can be reached

  /** Some run from a new pipe ends in `p`. */
  ghost predicate Reachable(p: Pipe) {
    exists es :: Run(NewPipe(), es) && After(NewPipe(), es) == p
  }

  lemma ReachableInv(p: Pipe)
    requires Reachable(p)
    ensures PipeInv(p)
  {
    var es :| Run(NewPipe(), es) && After(NewPipe(), es) == p;
    NewPipeInv();
    InvRun(NewPipe(), es);
  }

  lemma ReachNext(p: Pipe, e: Event)
    requires Reachable(p) && Enabled(p, e)
    ensures Reachable(Apply(p, e).pipe)
  {
    var es :| Run(NewPipe(), es) && After(NewPipe(), es) == p;
    assert [e][0] == e && [e][1..] == [];
    assert Run(Apply(p, e).pipe, []) && After(Apply(p, e).pipe, []) == Apply(p, e).pipe;
    assert Run(p, [e]) && After(p, [e]) == Apply(p, e).pipe;
    RunThen(NewPipe(), es, [e]);
    assert Run(NewPipe(), es + [e]) && After(NewPipe(), es + [e]) == Apply(p, e).pipe;
  }

  // ---------------------------------------------------------------- filling the buffer

  /** The buffer once the first `m` bytes of `data` are in it. */
  function Prefix(data: seq<Byte>, m: nat): (b: seq<Byte>)
    requires m <= RING && m <= |data|
    ensures |b| == RING
  {
    data[..m] + seq(RING - m, _ => 0)
  }

  /** Process 1 has had `k` bytes of `data` announced, and the next is in the buffer. */
  function Filling(f: FdId, data: seq<Byte>, k: nat): Pipe
    requires k < RING && k < |data|
  {
    Pipe(Prefix(data, k + 1), k, RING - k,
         WriteEnd(1, 0, Slot(k + 1), 0, map[1 := WaitSpace(f, data, k, 0)], data[..k], 0),
         ReadEnd(1, 1, 0, map[], [], 0), false, false)
  }

  /** It has written all of `data`, which fills the buffer, and has returned. */
  function Full(data: seq<Byte>): Pipe
    requires |data| == RING
  {
    Pipe(data, RING, 0, WriteEnd(1, 1, 0, RING, map[], data, 0), ReadEnd(1, 1, 0, map[], [], 0), false, false)
  }

  lemma PutNext(data: seq<Byte>, k: nat)
    requires k < RING && k < |data|
    ensures Put(Prefix(data, k), k, data[k]) == Prefix(data, k + 1)
  {
  }

  lemma FillFirst(f: FdId, data: seq<Byte>)
    requires data != []
    ensures Reachable(Filling(f, data, 0))
  {
    var p := NewPipe();
    assert Run(p, []) && After(p, []) == p;
    assert p.w.calls.Keys == {} && p.r.calls.Keys == {};
    var q := p.(w := p.w.(calls := map[1 := WaitWrite(f, data)]));
    assert Apply(p, BeginWrite(1, f, data)).pipe == q;
    ReachNext(p, BeginWrite(1, f, data));
    PutNext(data, 0);
    assert q.w.calls[1 := WaitSpace(f, data, 0, 0)] == map[1 := WaitSpace(f, data, 0, 0)];
    assert data[..0] == [] && Prefix(data, 0) == NewPipe().buffer;
    assert Apply(q, TakeWrite(1)).pipe == Filling(f, data, 0);
    ReachNext(q, TakeWrite(1));
  }

  lemma FillStep(f: FdId, data: seq<Byte>, k: nat)
    requires k + 1 < RING && k + 1 < |data|
    ensures Enabled(Filling(f, data, k), TakeSpace(1))
    ensures Apply(Filling(f, data, k), TakeSpace(1)).pipe == Filling(f, data, k + 1)
  {
    var p := Filling(f, data, k);
    PutNext(data, k + 1);
    SlotNext(k + 1);
    assert data[..k] + [data[k]] == data[..k + 1];
    assert p.w.calls[1 := WaitSpace(f, data, k + 1, 0)] == map[1 := WaitSpace(f, data, k + 1, 0)];
  }

  lemma {:induction false} Fill(f: FdId, data: seq<Byte>, k: nat)
    requires k < RING && k < |data|
    ensures Reachable(Filling(f, data, k))
  {
    if k == 0 {
      FillFirst(f, data);
    } else {
      Fill(f, data, k - 1);
      FillStep(f, data, k - 1);
      ReachNext(Filling(f, data, k - 1), TakeSpace(1));
    }
  }

  lemma FillUp(f: FdId, data: seq<Byte>)
    requires |data| == RING
    ensures Reachable(Full(data))
  {
    var k := RING - 1;
    var p := Filling(f, data, k);
    Fill(f, data, k);
    assert data[..k] + [data[k]] == data && Prefix(data, RING) == data;
    assert p.w.calls - {1} == map[];
    assert Slot(RING) == Slot(0);
    assert Apply(p, TakeSpace(1)).pipe == Full(data);
    ReachNext(p, TakeSpace(1));
  }

  // ---------------------------------------------------------------- what goes wrong

  /** A write of more than 8192 bytes into a new pipe, which nobody need read from for this, stores its
      byte 8192 beyond the buffer. */
  lemma LongWriteLeavesBuffer(f: FdId, data: seq<Byte>)
    requires |data| > RING
    ensures var p := Filling(f, data, RING - 1);
      && Reachable(p) && Enabled(p, TakeSpace(1)) && !Clean(p, TakeSpace(1))
      && Apply(p, TakeSpace(1)).pipe.outOfBounds
  {
    Fill(f, data, RING - 1);
  }

  /** The pipe when process 2 has acquired `write` on a full buffer to write byte `b`. */
  function Overwritten(g: FdId, data: seq<Byte>, b: Byte): Pipe
    requires |data| == RING
  {
    Pipe(data[0 := b], RING, 0, WriteEnd(1, 0, 1, RING, map[2 := WaitSpace(g, [b], 0, 0)], data, 0),
         ReadEnd(1, 1, 0, map[], [], 0), false, false)
  }

  lemma OverwrittenReached(f: FdId, g: FdId, data: seq<Byte>, b: Byte)
    requires |data| == RING
    ensures Reachable(Overwritten(g, data, b))
  {
    var p := Full(data);
    FillUp(f, data);
    assert p.w.calls.Keys == {} && p.r.calls.Keys == {};
    var q := p.(w := p.w.(calls := map[2 := WaitWrite(g, [b])]));
    assert Apply(p, BeginWrite(2, g, [b])).pipe == q;
    ReachNext(p, BeginWrite(2, g, [b]));
    assert q.w.calls[2 := WaitSpace(g, [b], 0, 0)] == map[2 := WaitSpace(g, [b], 0, 0)];
    assert Apply(q, TakeWrite(2)).pipe == Overwritten(g, data, b);
    ReachNext(q, TakeWrite(2));
  }

  /** After a write that fills the buffer and returns, the next write puts its first byte over the
      oldest unread one before it waits for space: a reader then gets that byte first. */
  lemma FullRingOverwrites(f: FdId, g: FdId, h: FdId, data: seq<Byte>, b: Byte)
    requires |data| == RING && b != data[0] && b != END
    ensures var p := Overwritten(g, data, b);
            var e, e' := BeginRead(3, h, 1), TakeRead(3);
      && Reachable(p) && Enabled(p, e) && Enabled(Apply(p, e).pipe, e')
      && (var q := Apply(Apply(p, e).pipe, e').pipe;
          && CanTakeElement(q, 3) && Clean(q, TakeElement(3, 0))
          && TakeElementSegment(q, 3, 0).Returned? && TakeElementSegment(q, 3, 0).bytes == [b]
          && !(TakeElementSegment(q, 3, 0).pipe.r.delivered <= TakeElementSegment(q, 3, 0).pipe.w.stored))
  {
    OverwrittenReached(f, g, data, b);
  }

  /** If the only reader exits then, the writer never gets out, whatever happens. */
  lemma ExitStrandsWriter(f: FdId, g: FdId, data: seq<Byte>, b: Byte)
    requires |data| == RING
    ensures var p := Overwritten(g, data, b);
            Reachable(p) && Enabled(p, ExitReader) && !CanDrain(ReaderExited(p))
  {
    var p := Overwritten(g, data, b);
    OverwrittenReached(f, g, data, b);
    ReachableInv(p);
    ExitReleasesIff(p);
    assert 2 in Needing(p.w.calls);
  }

  /** Process 1 has written the byte taken for end of data and one more; process 2 is about to read. */
  function EndWritten(h: FdId, b: Byte, n: nat): Pipe {
    Pipe(NewPipe().buffer[0 := END][1 := b], 2, RING - 2, WriteEnd(1, 1, 2, 2, map[], [END, b], 0),
         ReadEnd(1, 0, 0, map[2 := WaitElement(h, n, 0, [])], [], 0), false, false)
  }

  lemma EndWrittenReached(f: FdId, h: FdId, b: Byte, n: nat)
    requires n > 0
    ensures Reachable(EndWritten(h, b, n))
  {
    var data := [END, b];
    var p := Filling(f, data, 1);
    Fill(f, data, 1);
    var w := WriteEnd(1, 1, 2, 2, map[], [END, b], 0);
    assert p.w.calls - {1} == map[] && data[..1] + [data[1]] == data;
    assert Prefix(data, 2) == NewPipe().buffer[0 := END][1 := b];
    var q := Pipe(NewPipe().buffer[0 := END][1 := b], 2, RING - 2, w, p.r, false, false);
    assert Apply(p, TakeSpace(1)).pipe == q;
    ReachNext(p, TakeSpace(1));
    assert q.w.calls.Keys == {} && q.r.calls.Keys == {};
    var r := q.(r := q.r.(calls := map[2 := WaitRead(h, n)]));
    assert Apply(q, BeginRead(2, h, n)).pipe == r;
    ReachNext(q, BeginRead(2, h, n));
    assert r.r.calls[2 := WaitElement(h, n, 0, [])] == map[2 := WaitElement(h, n, 0, [])];
    assert Apply(r, TakeRead(2)).pipe == EndWritten(h, b, n);
    ReachNext(r, TakeRead(2));
  }

  /** A write of byte -1 and another returns 2, and a read of any length then returns 0 with the bytes
      still unread: test/pipe-bin2.c expects them as data. */
  lemma EndByteIsNotData(f: FdId, h: FdId, b: Byte, n: nat)
    requires n > 0
    ensures var p := EndWritten(h, b, n);
      && Reachable(p) && CanTakeElement(p, 2) && !Clean(p, TakeElement(2, 0))
      && TakeElementSegment(p, 2, 0).Returned? && TakeElementSegment(p, 2, 0).value == 0
      && TakeElementSegment(p, 2, 0).pipe.r.delivered == [] && TakeElementSegment(p, 2, 0).pipe.w.stored == [END, b]
  {
    EndWrittenReached(f, h, b, n);
  }

  /** A byte has been written and read; process 2 reads again and waits. */
  function Again(h: FdId, b: Byte, n: nat): Pipe {
    Pipe(NewPipe().buffer[0 := b], 0, RING, WriteEnd(1, 1, 1, 1, map[], [b], 0),
         ReadEnd(1, 0, 1, map[2 := WaitElement(h, n, 1, [])], [b], 0), false, false)
  }

  /** The pipe with one byte in it, and with that byte read. */
  function OneByte(b: Byte): Pipe {
    Pipe(NewPipe().buffer[0 := b], 1, RING - 1, WriteEnd(1, 1, 1, 1, map[], [b], 0),
         ReadEnd(1, 1, 0, map[], [], 0), false, false)
  }

  function OneRead(b: Byte): Pipe {
    Pipe(NewPipe().buffer[0 := b], 0, RING, WriteEnd(1, 1, 1, 1, map[], [b], 0),
         ReadEnd(1, 1, 1, map[], [b], 0), false, false)
  }

  lemma OneByteReached(f: FdId, b: Byte)
    ensures Reachable(OneByte(b))
  {
    var p := Filling(f, [b], 0);
    Fill(f, [b], 0);
    assert p.w.calls - {1} == map[] && Prefix([b], 1) == NewPipe().buffer[0 := b] && [b][..0] + [b][0..] == [b];
    assert Apply(p, TakeSpace(1)).pipe == OneByte(b);
    ReachNext(p, TakeSpace(1));
  }

  /** A reader of `n` bytes gets inside and blocks, or takes its byte. */
  lemma ReaderIn(p: Pipe, h: FdId, n: nat)
    requires Reachable(p) && p.w.calls == map[] && p.r.calls == map[] && p.r.mutex == 1 && p.r.count > 0
    requires n > 0 && p.w.count != 0 && p.w.inUse != 0
    ensures Reachable(p.(r := p.r.(mutex := 0, calls := map[2 := WaitElement(h, n, p.r.head, [])])))
  {
    assert p.w.calls.Keys == {} && p.r.calls.Keys == {};
    var q := p.(r := p.r.(calls := map[2 := WaitRead(h, n)]));
    assert p.r.calls[2 := WaitRead(h, n)] == map[2 := WaitRead(h, n)];
    assert Apply(p, BeginRead(2, h, n)).pipe == q;
    ReachNext(p, BeginRead(2, h, n));
    assert q.r.calls[2 := WaitElement(h, n, p.r.head, [])] == map[2 := WaitElement(h, n, p.r.head, [])];
    ReachNext(q, TakeRead(2));
  }

  lemma OneReadReached(f: FdId, h: FdId, b: Byte)
    requires b != END
    ensures Reachable(OneRead(b))
  {
    OneByteReached(f, b);
    ReaderIn(OneByte(b), h, 1);
    var p := OneByte(b).(r := OneByte(b).r.(mutex := 0, calls := map[2 := WaitElement(h, 1, 0, [])]));
    assert p.r.calls - {2} == map[];
    assert Apply(p, TakeElement(2, 0)).pipe == OneRead(b);
    ReachNext(p, TakeElement(2, 0));
  }

  /** If the only writer closes then, the reader never gets out: test/unblock.c expects it to. */
  lemma CloseStrandsReader(f: FdId, h: FdId, b: Byte, n: nat)
    requires b != END && n > 0
    ensures var p := Again(h, b, n);
            Reachable(p) && Enabled(p, DropWriter) && !CanDrainReaders(WriterDropped(p))
  {
    var p := Again(h, b, n);
    OneReadReached(f, h, b);
    ReaderIn(OneRead(b), h, n);
    ReachableInv(p);
    InvStep(p, DropWriter);
    ReadersDrainIff(WriterDropped(p));
    assert 2 in Reading(p.r.calls);
  }

  /** A read of a new pipe returns 0 at once though it has a writer: test/block.c expects it to block. */
  lemma NewPipeReadReturns(h: FdId, n: nat)
    ensures var p := NewPipe().(r := NewPipe().r.(calls := map[2 := WaitRead(h, n)]));
            Reachable(p) && CanTakeRead(p, 2) && TakeReadSegment(p, 2).Returned? && TakeReadSegment(p, 2).value == 0
  {
    var p := NewPipe();
    assert Run(p, []) && After(p, []) == p;
    assert p.w.calls.Keys == {} && p.r.calls.Keys == {};
    ReachNext(p, BeginRead(2, h, n));
  }

  // ---------------------------------------------------------------- a full turn after -1

  /** A full buffer with a read that has returned at its first byte: one element fewer, one space permit
      more, though the cell is still taken. */
  function EndTaken(data: seq<Byte>): Pipe
    requires |data| == RING
  {
    Pipe(data, RING - 1, 1, WriteEnd(1, 1, 0, RING, map[], data, 0), ReadEnd(1, 1, 0, map[], [], 0), false, false)
  }

  lemma EndTakenReached(f: FdId, h: FdId, data: seq<Byte>)
    requires |data| == RING && data[0] == END
    ensures Reachable(EndTaken(data))
  {
    FillUp(f, data);
    var r := Full(data).r;
    ReaderIn(Full(data), h, 1);
    var p := Full(data).(r := r.(mutex := 0, calls := map[2 := WaitElement(h, 1, 0, [])]));
    assert p.r.calls - {2} == map[];
    assert Apply(p, TakeElement(2, 0)).pipe == EndTaken(data);
    ReachNext(p, TakeElement(2, 0));
  }

  /** The next write has a space permit, and puts its first byte over the -1, which then ends no read. */
  lemma EndOverwritten(f: FdId, h: FdId, data: seq<Byte>, b: Byte)
    requires |data| == RING && data[0] == END && b != END
    ensures var p := EndTaken(data);
      && Reachable(p) && AtEnd(p) && Ahead(p) == 0 && p.space > 0 && Enabled(p, BeginWrite(1, f, [b]))
      && (var q := Apply(p, BeginWrite(1, f, [b])).pipe;
          && Enabled(q, TakeWrite(1)) && Stores(q, TakeWrite(1))
          && !AtEnd(Apply(q, TakeWrite(1)).pipe) && Apply(q, TakeWrite(1)).pipe.buffer[q.r.head] == b)
  {
    EndTakenReached(f, h, data);
    assert EndTaken(data).w.calls.Keys == {} && EndTaken(data).r.calls.Keys == {};
  }
}
