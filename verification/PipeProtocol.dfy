/** One pipe and every process inside a read or write call on it, as a machine over the segments of
    `do_write` and `do_read`: a kernel thread runs from one `P_kt_sem` to the next without being
    preempted, so a segment is one step and a blocked `P_kt_sem` is a guard on a permit count. */
module PipeProtocol {
  import opened Base

  /** Bytes in a pipe's buffer. */
  const RING: nat := 8192

  /** The cell a position belongs to: `k % 8192`, taken one turn of the ring at a time. */
  function Slot(k: nat): (s: nat)
    ensures s < RING
  {
    if k < RING then k else Slot(k - RING)
  }

  /** Reducing after every step agrees with counting on and reducing at the end. */
  lemma {:induction false} SlotNext(k: nat)
    ensures Slot(Slot(k) + 1) == Slot(k + 1)
  {
    if k >= RING { SlotNext(k - RING); }
  }

  lemma SlotInside(k: nat)
    requires k < RING
    ensures Slot(k) == k
  {
  }

  /** Positions less than one turn apart have different cells. */
  lemma {:induction false} SlotApart(j: nat, k: nat)
    requires j < k < j + RING
    ensures Slot(j) != Slot(k)
  {
    if j >= RING { SlotApart(j - RING, k - RING); }
  }

  /** A full turn apart they share one. */
  lemma {:induction false} SlotTurn(k: nat)
    ensures Slot(k + RING) == Slot(k)
  {
  }

  /** A process inside `do_write`: blocked on `write`, or holding `write` with byte `i` already stored
      and blocked on `space_available`. `start` is the write head at the time `write` was acquired. */
  datatype Writer =
    | WaitWrite(fd: FdId, data: seq<Byte>)
    | WaitSpace(fd: FdId, data: seq<Byte>, i: nat, start: nat)

  /** A process inside `do_read`: blocked on `read`, or holding `read` with the bytes `got` already
      in its buffer and blocked on `nelement`. */
  datatype Reader =
    | WaitRead(fd: FdId, n: nat)
    | WaitElement(fd: FdId, n: nat, start: nat, got: seq<Byte>)

  /** The write end of `struct Pipe` (`write_count`, `write`, `write_head`, `writer_in_use`), the calls
      in progress on it, and two histories: the bytes announced by `V(nelement)`, and how many `dup`
      calls raised the count. */
  datatype WriteEnd = WriteEnd(count: int, mutex: nat, head: nat, inUse: int,
                               calls: map<Proc, Writer>, stored: seq<Byte>, dups: nat)

  /** The read end (`read_count`, `read`, `read_head`), with the bytes delivered to readers. */
  datatype ReadEnd = ReadEnd(count: int, mutex: nat, head: nat,
                             calls: map<Proc, Reader>, delivered: seq<Byte>, dups: nat)

  /** `struct Pipe`, with two more histories: whether an access left the buffer, and whether closing
      the read end posted permits. */
  datatype Pipe = Pipe(buffer: seq<Byte>, nelement: nat, space: nat, w: WriteEnd, r: ReadEnd,
                       outOfBounds: bool, released: bool)

  /** A segment ends with the thread blocked, or with `syscall_return`; a read then has `bytes` in its
      buffer. */
  datatype Outcome = Blocked(pipe: Pipe) | Returned(pipe: Pipe, value: int, bytes: seq<Byte>)

  datatype Event =
    | BeginWrite(proc: Proc, fd: FdId, data: seq<Byte>)
    | TakeWrite(proc: Proc)
    | TakeSpace(proc: Proc)
    | BeginRead(proc: Proc, fd: FdId, n: nat)
    | TakeRead(proc: Proc)
    | TakeElement(proc: Proc, wild: Byte)  // wild: what lies beyond the buffer
    | AddReader(dup: bool)
    | AddWriter(dup: bool)
    | CloseReader
    | ExitReader
    | DropWriter

  /** The pipe as `do_pipe` leaves it. */
  function NewPipe(): Pipe {
    Pipe(seq(RING, _ => 0), 0, RING, WriteEnd(1, 1, 0, 0, map[], [], 0), ReadEnd(1, 1, 0, map[], [], 0),
         false, false)
  }

  // ---------------------------------------------------------------- the segments of do_write

  function BeginWriteSegment(p: Pipe, a: Proc, fd: FdId, data: seq<Byte>): Outcome {
    if p.r.count == 0 then Returned(p, -EBADF, [])
    else Blocked(p.(w := p.w.(calls := p.w.calls[a := WaitWrite(fd, data)])))
  }

  /** `start_point`, which counts on from the write head without being reduced. */
  function Place(w: Writer): nat
    requires w.WaitSpace?
  {
    w.start + w.i
  }

  /** The head of the write loop: store byte `i` at the unreduced index and block on
      `space_available`, or leave the loop. */
  function StoreOrFinish(p: Pipe, a: Proc, next: Writer): Outcome
    requires next.WaitSpace?
  {
    if next.i < |next.data| then Blocked(Store(p, a, next))
    else Returned(p.(w := LeaveWrite(p.w.(inUse := p.w.inUse + |next.data|), a)), |next.data|, [])
  }

  function Store(p: Pipe, a: Proc, next: Writer): Pipe
    requires next.WaitSpace? && next.i < |next.data|
  {
    p.(buffer := Put(p.buffer, Place(next), next.data[next.i]),
       outOfBounds := p.outOfBounds || Place(next) >= |p.buffer|,
       w := Advance(p.w, a, next))
  }

  /** A store beyond the buffer changes none of its cells. */
  function Put(buffer: seq<Byte>, k: nat, b: Byte): (r: seq<Byte>)
    ensures |r| == |buffer|
  {
    if k < |buffer| then buffer[k := b] else buffer
  }

  function Advance(w: WriteEnd, a: Proc, next: Writer): WriteEnd {
    w.(head := Slot(w.head + 1), calls := w.calls[a := next])
  }

  function LeaveWrite(w: WriteEnd, a: Proc): WriteEnd {
    w.(mutex := w.mutex + 1, calls := w.calls - {a})
  }

  function TakeWriteSegment(p: Pipe, a: Proc): Outcome
    requires CanTakeWrite(p, a)
  {
    StoreOrFinish(p.(w := p.w.(mutex := p.w.mutex - 1)), a, First(p.w, a))
  }

  function First(w: WriteEnd, a: Proc): (f: Writer)
    requires a in w.calls
    ensures f.WaitSpace?
  {
    WaitSpace(w.calls[a].fd, w.calls[a].data, 0, w.head)
  }

  function TakeSpaceSegment(p: Pipe, a: Proc): Outcome
    requires CanTakeSpace(p, a)
  {
    if p.r.count == 0 then
      Returned(p.(space := p.space - 1, w := LeaveWrite(p.w, a)), -EPIPE, [])
    else
      StoreOrFinish(Announced(p, a), a, Next(p.w.calls[a]))
  }

  function Next(w: Writer): (n: Writer)
    requires w.WaitSpace?
    ensures n.WaitSpace?
  {
    WaitSpace(w.fd, w.data, w.i + 1, w.start)
  }

  /** `V(nelement)` for the byte that is already in the buffer. */
  function Announced(p: Pipe, a: Proc): Pipe
    requires CanTakeSpace(p, a)
  {
    p.(space := p.space - 1, nelement := p.nelement + 1,
       w := p.w.(stored := p.w.stored + [p.w.calls[a].data[p.w.calls[a].i]]))
  }

  // ---------------------------------------------------------------- the segments of do_read

  function BeginReadSegment(p: Pipe, a: Proc, fd: FdId, n: nat): Outcome {
    Blocked(p.(r := p.r.(calls := p.r.calls[a := WaitRead(fd, n)])))
  }

  function LeaveRead(r: ReadEnd, a: Proc): ReadEnd {
    r.(mutex := r.mutex + 1, calls := r.calls - {a})
  }

  /** The head of the read loop, with its two early returns. */
  function AwaitOrFinish(p: Pipe, a: Proc, next: Reader): Outcome
    requires next.WaitElement?
  {
    if |next.got| >= next.n || p.w.count == 0 then
      Returned(p.(r := LeaveRead(p.r, a)), |next.got|, next.got)
    else if |next.got| == p.w.inUse then
      Returned(p.(w := p.w.(inUse := p.w.inUse - |next.got|), r := LeaveRead(p.r, a)), |next.got|, next.got)
    else
      Blocked(p.(r := p.r.(calls := p.r.calls[a := next])))
  }

  function TakeReadSegment(p: Pipe, a: Proc): Outcome
    requires CanTakeRead(p, a)
  {
    var r := p.r.calls[a];
    AwaitOrFinish(p.(r := p.r.(mutex := p.r.mutex - 1)), a, WaitElement(r.fd, r.n, p.r.head, []))
  }

  /** `starter_int`, which counts on from the read head without being reduced. */
  function Index(r: Reader): nat
    requires r.WaitElement?
  {
    r.start + |r.got|
  }

  /** What `buffer[starter_int]` evaluates to. */
  function Fetched(buffer: seq<Byte>, r: Reader, wild: Byte): Byte
    requires r.WaitElement?
  {
    if Index(r) < |buffer| then buffer[Index(r)] else wild
  }

  function TakeElementSegment(p: Pipe, a: Proc, wild: Byte): Outcome
    requires CanTakeElement(p, a)
  {
    var r := p.r.calls[a];
    var b := Fetched(p.buffer, r, wild);
    if b == END then
      Returned(Taken(p, a).(r := LeaveRead(p.r, a)), |r.got|, r.got)
    else
      AwaitOrFinish(Taken(p, a).(r := Got(p.r, b)), a, WithByte(r, b))
  }

  /** One element permit turned into one space permit. */
  function Taken(p: Pipe, a: Proc): Pipe
    requires CanTakeElement(p, a)
  {
    p.(nelement := p.nelement - 1, space := p.space + 1,
       outOfBounds := p.outOfBounds || Index(p.r.calls[a]) >= |p.buffer|)
  }

  function WithByte(r: Reader, b: Byte): (next: Reader)
    requires r.WaitElement?
    ensures next.WaitElement?
  {
    WaitElement(r.fd, r.n, r.start, r.got + [b])
  }

  /** The byte copied out and the head moved past it. */
  function Got(r: ReadEnd, b: Byte): ReadEnd {
    r.(head := Slot(r.head + 1), delivered := r.delivered + [b])
  }

  // ---------------------------------------------------------------- reference counts

  function WithReader(p: Pipe, dup: bool): Pipe {
    p.(r := p.r.(count := p.r.count + 1, dups := p.r.dups + if dup then 1 else 0))
  }

  function WithWriter(p: Pipe, dup: bool): Pipe {
    p.(w := p.w.(count := p.w.count + 1, dups := p.w.dups + if dup then 1 else 0))
  }

  /** `do_close` on a read descriptor: the last one posts a permit for every counted writer. */
  function ReaderClosed(p: Pipe): Pipe {
    var q := ReaderExited(p);
    if q.r.count == 0 then
      q.(space := q.space + if q.w.count > 0 then q.w.count else 0, released := true)
    else q
  }

  /** `do_exit` on a read descriptor posts nothing. */
  function ReaderExited(p: Pipe): Pipe {
    p.(r := p.r.(count := p.r.count - 1))
  }

  function WriterDropped(p: Pipe): Pipe {
    p.(w := p.w.(count := p.w.count - 1))
  }

  // ---------------------------------------------------------------- the machine

  predicate CanTakeWrite(p: Pipe, a: Proc) {
    a in p.w.calls && p.w.calls[a].WaitWrite? && p.w.mutex > 0
  }

  predicate CanTakeSpace(p: Pipe, a: Proc) {
    a in p.w.calls && p.w.calls[a].WaitSpace? && p.w.calls[a].i < |p.w.calls[a].data| && p.space > 0
  }

  predicate CanTakeRead(p: Pipe, a: Proc) {
    a in p.r.calls && p.r.calls[a].WaitRead? && p.r.mutex > 0
  }

  predicate CanTakeElement(p: Pipe, a: Proc) {
    a in p.r.calls && p.r.calls[a].WaitElement? && p.nelement > 0
  }

  predicate Inside(p: Pipe, a: Proc) { a in p.w.calls || a in p.r.calls }

  /** Which steps may happen. The bounds on the counts say that every process inside a call has a
      descriptor of its own; the descriptor tables establish them (see Descriptors). */
  predicate Enabled(p: Pipe, e: Event) {
    match e
    case BeginWrite(a, _, _) => !Inside(p, a) && |p.w.calls| < p.w.count
    case TakeWrite(a) => CanTakeWrite(p, a)
    case TakeSpace(a) => CanTakeSpace(p, a)
    case BeginRead(a, _, _) => !Inside(p, a) && |p.r.calls| < p.r.count
    case TakeRead(a) => CanTakeRead(p, a)
    case TakeElement(a, _) => CanTakeElement(p, a)
    case AddReader(_) => p.r.count > 0
    case AddWriter(_) => p.w.count > 0
    case CloseReader => |p.r.calls| < p.r.count
    case ExitReader => |p.r.calls| < p.r.count
    case DropWriter => |p.w.calls| < p.w.count
  }

  /** A step that may not happen changes nothing. */
  function Apply(p: Pipe, e: Event): Outcome {
    if !Enabled(p, e) then Blocked(p)
    else
      match e
      case BeginWrite(a, fd, data) => BeginWriteSegment(p, a, fd, data)
      case TakeWrite(a) => TakeWriteSegment(p, a)
      case TakeSpace(a) => TakeSpaceSegment(p, a)
      case BeginRead(a, fd, n) => BeginReadSegment(p, a, fd, n)
      case TakeRead(a) => TakeReadSegment(p, a)
      case TakeElement(a, wild) => TakeElementSegment(p, a, wild)
      case AddReader(dup) => Blocked(WithReader(p, dup))
      case AddWriter(dup) => Blocked(WithWriter(p, dup))
      case CloseReader => Blocked(ReaderClosed(p))
      case ExitReader => Blocked(ReaderExited(p))
      case DropWriter => Blocked(WriterDropped(p))
  }

  // ---------------------------------------------------------------- what every step keeps

  /** The processes in the critical section of `do_write`, and of `do_read`. */
  function Writing(calls: map<Proc, Writer>): set<Proc> {
    set a | a in calls && calls[a].WaitSpace?
  }

  function Reading(calls: map<Proc, Reader>): set<Proc> {
    set a | a in calls && calls[a].WaitElement?
  }

  /** The writers that will ask for a space permit before they leave. */
  function Needing(calls: map<Proc, Writer>): set<Proc> {
    set a | a in calls && (calls[a].WaitSpace? || calls[a].data != [])
  }

  /** The last `i` bytes of `s` are the first `i` bytes of `data`. */
  predicate EndsWith(s: seq<Byte>, data: seq<Byte>, i: nat)
    requires i <= |data|
  {
    i <= |s| && s[|s| - i..] == data[..i]
  }

  lemma EndsWithNext(s: seq<Byte>, data: seq<Byte>, i: nat)
    requires i < |data| && EndsWith(s, data, i)
    ensures EndsWith(s + [data[i]], data, i + 1)
  {
  }

  /** Where a writer in its critical section stands: the head has moved with it, and the bytes it has
      announced so far are the end of the announced sequence, with nothing in between. */
  predicate WriterPlaced(w: Writer, head: nat, stored: seq<Byte>)
    requires w.WaitSpace?
  {
    w.i < |w.data| && head == Slot(Place(w) + 1) && EndsWith(stored, w.data, w.i)
  }

  predicate ReaderPlaced(r: Reader, head: nat, delivered: seq<Byte>)
    requires r.WaitElement?
  {
    |r.got| < r.n && head == Slot(Index(r)) && EndsWith(delivered, r.got, |r.got|)
  }

  /** `write` is a mutex: one permit, or one process in the critical section and in its place. */
  predicate WriteInv(w: WriteEnd) {
    && w.mutex + |Writing(w.calls)| == 1 && w.head < RING && |w.calls| <= w.count
    && (forall a | a in Writing(w.calls) :: WriterPlaced(w.calls[a], w.head, w.stored))
  }

  /** So is `read`. */
  predicate ReadInv(r: ReadEnd) {
    && r.mutex + |Reading(r.calls)| == 1 && r.head < RING && |r.calls| <= r.count
    && (forall a | a in Reading(r.calls) :: ReaderPlaced(r.calls[a], r.head, r.delivered))
  }

  /** Permit conservation: while a reader exists, every slot is a space permit or an element permit. */
  predicate Permits(p: Pipe) {
    p.r.count > 0 ==> p.space + p.nelement == RING
  }

  /** Once a close has released the writers, there is a permit for each that will ask for one. */
  predicate Released(p: Pipe) {
    p.released ==> p.r.count == 0 && p.space >= |Needing(p.w.calls)|
  }

  predicate PipeInv(p: Pipe) {
    && WriteInv(p.w) && ReadInv(p.r) && Permits(p) && Released(p)
    && |p.buffer| == RING && p.w.calls.Keys !! p.r.calls.Keys
  }

  lemma NewPipeInv()
    ensures PipeInv(NewPipe())
  {
  }

  // Changes of one process's entry, seen through the sets above.

  lemma WriterSet(calls: map<Proc, Writer>, a: Proc, next: Writer)
    requires a in calls && Writing(calls) <= {a} && next.WaitSpace? && next.i < |next.data|
    requires next.data == calls[a].data
    ensures calls[a := next].Keys == calls.Keys && |calls[a := next]| == |calls|
    ensures Writing(calls[a := next]) == {a}
    ensures Needing(calls[a := next]) == Needing(calls)
  {
  }

  lemma WriterAdded(calls: map<Proc, Writer>, a: Proc, fd: FdId, data: seq<Byte>)
    requires a !in calls
    ensures calls[a := WaitWrite(fd, data)].Keys == calls.Keys + {a}
    ensures |calls[a := WaitWrite(fd, data)]| == |calls| + 1
    ensures Writing(calls[a := WaitWrite(fd, data)]) == Writing(calls)
  {
  }

  lemma ReaderSet(calls: map<Proc, Reader>, a: Proc, next: Reader)
    requires a in calls && Reading(calls) <= {a} && next.WaitElement?
    ensures calls[a := next].Keys == calls.Keys && |calls[a := next]| == |calls|
    ensures Reading(calls[a := next]) == {a}
  {
  }

  lemma ReaderAdded(calls: map<Proc, Reader>, a: Proc, fd: FdId, n: nat)
    requires a !in calls
    ensures calls[a := WaitRead(fd, n)].Keys == calls.Keys + {a}
    ensures |calls[a := WaitRead(fd, n)]| == |calls| + 1
    ensures Reading(calls[a := WaitRead(fd, n)]) == Reading(calls)
  {
  }

  lemma NeedingSize(calls: map<Proc, Writer>)
    ensures |Needing(calls)| <= |calls|
  {
    SubsetSize(Needing(calls), calls.Keys);
  }

  /** A process in the critical section holds the mutex, alone. */
  lemma WriteHolder(w: WriteEnd, a: Proc)
    requires WriteInv(w) && a in Writing(w.calls)
    ensures w.mutex == 0 && Writing(w.calls) == {a} && WriterPlaced(w.calls[a], w.head, w.stored)
  {
    assert |Writing(w.calls)| != 0;
    Singleton(Writing(w.calls), a);
  }

  lemma ReadHolder(r: ReadEnd, a: Proc)
    requires ReadInv(r) && a in Reading(r.calls)
    ensures r.mutex == 0 && Reading(r.calls) == {a} && ReaderPlaced(r.calls[a], r.head, r.delivered)
  {
    assert |Reading(r.calls)| != 0;
    Singleton(Reading(r.calls), a);
  }

  // The write end between two stores, and the two ways on.

  predicate InWrite(w: WriteEnd, a: Proc) {
    a in w.calls && Writing(w.calls) <= {a} && w.mutex == 0 && w.head < RING && |w.calls| <= w.count
  }

  lemma AdvanceInv(w: WriteEnd, a: Proc, next: Writer)
    requires InWrite(w, a) && next.WaitSpace? && next.i < |next.data| && next.data == w.calls[a].data
    requires w.head == Slot(Place(next)) && EndsWith(w.stored, next.data, next.i)
    ensures WriteInv(Advance(w, a, next))
    ensures Needing(Advance(w, a, next).calls) == Needing(w.calls)
    ensures Advance(w, a, next).calls.Keys == w.calls.Keys
  {
    WriterSet(w.calls, a, next);
    SlotNext(Place(next));
  }

  lemma LeaveWriteInv(w: WriteEnd, a: Proc)
    requires InWrite(w, a)
    ensures WriteInv(LeaveWrite(w, a))
    ensures Needing(LeaveWrite(w, a).calls) == Needing(w.calls) - {a}
    ensures LeaveWrite(w, a).calls.Keys == w.calls.Keys - {a}
  {
  }

  lemma StoreOrFinishInv(p: Pipe, a: Proc, next: Writer)
    requires InWrite(p.w, a) && next.WaitSpace? && next.i <= |next.data| && next.data == p.w.calls[a].data
    requires p.w.head == Slot(Place(next)) && EndsWith(p.w.stored, next.data, next.i)
    requires ReadInv(p.r) && Permits(p) && Released(p)
    requires |p.buffer| == RING && p.w.calls.Keys !! p.r.calls.Keys
    ensures PipeInv(StoreOrFinish(p, a, next).pipe)
  {
    if next.i < |next.data| {
      AdvanceInv(p.w, a, next);
    } else {
      LeaveWriteInv(p.w.(inUse := p.w.inUse + |next.data|), a);
      SubsetSize(Needing(p.w.calls) - {a}, Needing(p.w.calls));
    }
  }

  lemma TakeWriteInv(p: Pipe, a: Proc)
    requires PipeInv(p) && CanTakeWrite(p, a)
    ensures PipeInv(TakeWriteSegment(p, a).pipe)
  {
    assert Writing(p.w.calls) == {};
    StoreOrFinishInv(p.(w := p.w.(mutex := p.w.mutex - 1)), a, First(p.w, a));
  }

  lemma AnnouncedReady(w: Writer, head: nat, stored: seq<Byte>)
    requires w.WaitSpace? && WriterPlaced(w, head, stored)
    ensures head == Slot(Place(Next(w))) && EndsWith(stored + [w.data[w.i]], w.data, w.i + 1)
  {
  }

  lemma TakeSpaceBroken(p: Pipe, a: Proc)
    requires PipeInv(p) && CanTakeSpace(p, a) && p.r.count == 0
    ensures PipeInv(TakeSpaceSegment(p, a).pipe)
  {
    WriteHolder(p.w, a);
    LeaveWriteInv(p.w, a);
    assert a in Needing(p.w.calls);
  }

  lemma TakeSpaceInv(p: Pipe, a: Proc)
    requires PipeInv(p) && CanTakeSpace(p, a)
    ensures PipeInv(TakeSpaceSegment(p, a).pipe)
  {
    if p.r.count == 0 {
      TakeSpaceBroken(p, a);
    } else {
      WriteHolder(p.w, a);
      AnnouncedReady(p.w.calls[a], p.w.head, p.w.stored);
      StoreOrFinishInv(Announced(p, a), a, Next(p.w.calls[a]));
    }
  }

  predicate InRead(r: ReadEnd, a: Proc) {
    a in r.calls && Reading(r.calls) <= {a} && r.mutex == 0 && r.head < RING && |r.calls| <= r.count
  }

  lemma LeaveReadInv(r: ReadEnd, a: Proc)
    requires InRead(r, a)
    ensures ReadInv(LeaveRead(r, a))
    ensures LeaveRead(r, a).calls.Keys == r.calls.Keys - {a}
  {
  }

  lemma AwaitInv(r: ReadEnd, a: Proc, next: Reader)
    requires InRead(r, a) && next.WaitElement? && ReaderPlaced(next, r.head, r.delivered)
    ensures ReadInv(r.(calls := r.calls[a := next]))
    ensures r.calls[a := next].Keys == r.calls.Keys
  {
    ReaderSet(r.calls, a, next);
  }

  lemma AwaitOrFinishInv(p: Pipe, a: Proc, next: Reader)
    requires InRead(p.r, a) && next.WaitElement?
    requires p.r.head == Slot(Index(next)) && EndsWith(p.r.delivered, next.got, |next.got|)
    requires WriteInv(p.w) && Permits(p) && Released(p)
    requires |p.buffer| == RING && p.w.calls.Keys !! p.r.calls.Keys
    ensures PipeInv(AwaitOrFinish(p, a, next).pipe)
  {
    if |next.got| >= next.n || p.w.count == 0 || |next.got| == p.w.inUse {
      LeaveReadInv(p.r, a);
    } else {
      AwaitInv(p.r, a, next);
    }
  }

  lemma TakeReadInv(p: Pipe, a: Proc)
    requires PipeInv(p) && CanTakeRead(p, a)
    ensures PipeInv(TakeReadSegment(p, a).pipe)
  {
    assert Reading(p.r.calls) == {};
    AwaitOrFinishInv(p.(r := p.r.(mutex := p.r.mutex - 1)), a,
                     WaitElement(p.r.calls[a].fd, p.r.calls[a].n, p.r.head, []));
  }

  lemma TakenInv(p: Pipe, a: Proc)
    requires PipeInv(p) && CanTakeElement(p, a)
    ensures PipeInv(Taken(p, a))
  {
  }

  lemma GotInRead(r: ReadEnd, a: Proc, b: Byte)
    requires ReadInv(r) && a in Reading(r.calls)
    ensures InRead(Got(r, b), a)
    ensures Got(r, b).head == Slot(Index(WithByte(r.calls[a], b)))
    ensures var got := WithByte(r.calls[a], b).got; EndsWith(Got(r, b).delivered, got, |got|)
  {
    ReadHolder(r, a);
    SlotNext(Index(r.calls[a]));
    EndsWithNext(r.delivered, r.calls[a].got + [b], |r.calls[a].got|);
  }

  lemma GotInv(p: Pipe, a: Proc, b: Byte)
    requires PipeInv(p) && a in Reading(p.r.calls)
    ensures PipeInv(AwaitOrFinish(p.(r := Got(p.r, b)), a, WithByte(p.r.calls[a], b)).pipe)
  {
    GotInRead(p.r, a, b);
    AwaitOrFinishInv(p.(r := Got(p.r, b)), a, WithByte(p.r.calls[a], b));
  }

  lemma TakeElementInv(p: Pipe, a: Proc, wild: Byte)
    requires PipeInv(p) && CanTakeElement(p, a)
    ensures PipeInv(TakeElementSegment(p, a, wild).pipe)
  {
    TakenInv(p, a);
    if Fetched(p.buffer, p.r.calls[a], wild) == END {
      ReadHolder(p.r, a);
      LeaveReadInv(p.r, a);
    } else {
      GotInv(Taken(p, a), a, Fetched(p.buffer, p.r.calls[a], wild));
    }
  }

  lemma BeginInv(p: Pipe, e: Event)
    requires PipeInv(p) && Enabled(p, e) && (e.BeginWrite? || e.BeginRead?)
    ensures PipeInv(Apply(p, e).pipe)
  {
    match e
    case BeginWrite(a, fd, data) => WriterAdded(p.w.calls, a, fd, data);
    case BeginRead(a, fd, n) => ReaderAdded(p.r.calls, a, fd, n);
  }

  lemma CountInv(p: Pipe, e: Event)
    requires PipeInv(p) && Enabled(p, e)
    requires e.AddReader? || e.AddWriter? || e.CloseReader? || e.ExitReader? || e.DropWriter?
    ensures PipeInv(Apply(p, e).pipe)
  {
    NeedingSize(p.w.calls);
  }

  /** Every step keeps the invariant, with no condition on indices, on a full ring or on byte -1. */
  lemma InvStep(p: Pipe, e: Event)
    requires PipeInv(p) && Enabled(p, e)
    ensures PipeInv(Apply(p, e).pipe)
  {
    match e
    case TakeWrite(a) => TakeWriteInv(p, a);
    case TakeSpace(a) => TakeSpaceInv(p, a);
    case TakeRead(a) => TakeReadInv(p, a);
    case TakeElement(a, wild) => TakeElementInv(p, a, wild);
    case BeginWrite(_, _, _) => BeginInv(p, e);
    case BeginRead(_, _, _) => BeginInv(p, e);
    case _ => CountInv(p, e);
  }

  // ---------------------------------------------------------------- runs

  /** Any interleaving of enabled steps of any number of processes. */
  predicate Run(p: Pipe, es: seq<Event>)
    decreases |es|
  {
    es == [] || (Enabled(p, es[0]) && Run(Apply(p, es[0]).pipe, es[1..]))
  }

  function After(p: Pipe, es: seq<Event>): Pipe
    decreases |es|
  {
    if es == [] then p else After(Apply(p, es[0]).pipe, es[1..])
  }

  /** At every point of every run: one writer and one reader at most in their critical sections, the
      permits conserved while a reader exists, and each call's bytes contiguous. */
  lemma {:induction false} InvRun(p: Pipe, es: seq<Event>)
    requires PipeInv(p) && Run(p, es)
    ensures PipeInv(After(p, es))
    decreases |es|
  {
    if es != [] {
      InvStep(p, es[0]);
      InvRun(Apply(p, es[0]).pipe, es[1..]);
    }
  }

  lemma {:induction false} RunThen(p: Pipe, es: seq<Event>, fs: seq<Event>)
    requires Run(p, es) && Run(After(p, es), fs)
    ensures Run(p, es + fs) && After(p, es + fs) == After(After(p, es), fs)
    decreases |es|
  {
    if es == [] {
      assert es + fs == fs;
    } else {
      assert (es + fs)[0] == es[0] && (es + fs)[1..] == es[1..] + fs;
      RunThen(Apply(p, es[0]).pipe, es[1..], fs);
    }
  }

  /** A write that gets its last space permit while there is a reader has had all of its bytes
      announced, one after the other, and returns their number. */
  lemma WriteReturns(p: Pipe, a: Proc)
    requires PipeInv(p) && CanTakeSpace(p, a) && p.r.count != 0 && p.w.calls[a].i + 1 == |p.w.calls[a].data|
    ensures TakeSpaceSegment(p, a)
         == Returned(TakeSpaceSegment(p, a).pipe, |p.w.calls[a].data|, [])
    ensures EndsWith(TakeSpaceSegment(p, a).pipe.w.stored, p.w.calls[a].data, |p.w.calls[a].data|)
  {
    WriteHolder(p.w, a);
    AnnouncedReady(p.w.calls[a], p.w.head, p.w.stored);
  }

  /** One that gets a permit when the readers are gone returns `-EPIPE` and hands the mutex on. */
  lemma WriteBroken(p: Pipe, a: Proc)
    requires PipeInv(p) && CanTakeSpace(p, a) && p.r.count == 0
    ensures TakeSpaceSegment(p, a).Returned? && TakeSpaceSegment(p, a).value == -EPIPE
    ensures TakeSpaceSegment(p, a).pipe.w.mutex == 1 && a !in TakeSpaceSegment(p, a).pipe.w.calls
    ensures TakeSpaceSegment(p, a).pipe.space == p.space - 1
  {
    WriteHolder(p.w, a);
  }

  lemma GrantReturns(p: Pipe, a: Proc)
    requires PipeInv(p) && CanTakeRead(p, a)
    ensures var o := TakeReadSegment(p, a); o.Returned? ==> o.value == 0 && o.bytes == []
  {
  }

  lemma ElementReturns(p: Pipe, a: Proc, wild: Byte)
    requires PipeInv(p) && CanTakeElement(p, a)
    ensures var o := TakeElementSegment(p, a, wild);
            o.Returned? ==> o.value == |o.bytes| && EndsWith(o.pipe.r.delivered, o.bytes, |o.bytes|)
  {
    ReadHolder(p.r, a);
    GotInRead(p.r, a, Fetched(p.buffer, p.r.calls[a], wild));
  }

  /** A read that returns, right after the grant of `read` or after any of its bytes, has in its buffer
      the last bytes delivered, as many as it reports, and hands the mutex on. */
  lemma ReadReturns(p: Pipe, e: Event)
    requires PipeInv(p) && Enabled(p, e) && (e.TakeRead? || e.TakeElement?) && Apply(p, e).Returned?
    ensures var o := Apply(p, e);
            && o.value == |o.bytes| && EndsWith(o.pipe.r.delivered, o.bytes, |o.bytes|)
            && e.proc !in o.pipe.r.calls && o.pipe.r.mutex == 1
  {
    if e.TakeRead? {
      GrantReturns(p, e.proc);
    } else {
      ReadHolder(p.r, e.proc);
      ElementReturns(p, e.proc, e.wild);
    }
  }

  /** The byte a read meets is the one taken for end of data. */
  predicate MeetsEnd(p: Pipe, e: Event)
    requires e.TakeElement? && CanTakeElement(p, e.proc)
  {
    var k := p.r.calls[e.proc].start + |p.r.calls[e.proc].got|;
    END == if k < |p.buffer| then p.buffer[k] else e.wild
  }

  /** The bytes a read holds after the grant of `read`, or after an element. */
  function Held(p: Pipe, e: Event): nat
    requires Enabled(p, e) && (e.TakeRead? || e.TakeElement?)
  {
    if e.TakeRead? then 0 else |p.r.calls[e.proc].got| + if MeetsEnd(p, e) then 0 else 1
  }

  /** The read loop, holding `k` of `n` bytes: it leaves when it has them all, without a writer, or with as
      many as `writer_in_use`, which it then takes off; else it asks for the next. */
  predicate Answered(p: Pipe, o: Outcome, a: Proc, k: nat, n: nat, end: bool) {
    && (o.Returned? <==> end || k == n || p.w.count == 0 || k == p.w.inUse)
    && (o.Returned? ==> o.value == k)
    && (o.Blocked? ==>
          && a in o.pipe.r.calls && o.pipe.r.calls[a].WaitElement?
          && |o.pipe.r.calls[a].got| == k && o.pipe.r.calls[a].n == n)
    && o.pipe.w.inUse == p.w.inUse - if !end && k < n && p.w.count != 0 && k == p.w.inUse then k else 0
  }

  lemma AwaitAnswers(p: Pipe, a: Proc, next: Reader)
    requires next.WaitElement? && |next.got| <= next.n
    ensures Answered(p, AwaitOrFinish(p, a, next), a, |next.got|, next.n, false)
  {
  }

  lemma GrantAnswers(p: Pipe, a: Proc)
    requires PipeInv(p) && CanTakeRead(p, a)
    ensures Answered(p, TakeReadSegment(p, a), a, 0, p.r.calls[a].n, false)
  {
    var r := p.r.calls[a];
    AwaitAnswers(p.(r := p.r.(mutex := p.r.mutex - 1)), a, WaitElement(r.fd, r.n, p.r.head, []));
  }

  lemma ElementAnswers(p: Pipe, a: Proc, wild: Byte)
    requires PipeInv(p) && CanTakeElement(p, a)
    ensures var end, r := MeetsEnd(p, TakeElement(a, wild)), p.r.calls[a];
            Answered(p, TakeElementSegment(p, a, wild), a, |r.got| + if end then 0 else 1, r.n, end)
  {
    var b := Fetched(p.buffer, p.r.calls[a], wild);
    if b != END {
      ReadHolder(p.r, a);
      AwaitAnswers(Taken(p, a).(r := Got(p.r, b)), a, WithByte(p.r.calls[a], b));
      FetchedAnswers(p, a, wild);
    }
  }

  lemma FetchedAnswers(p: Pipe, a: Proc, wild: Byte)
    requires CanTakeElement(p, a) && !MeetsEnd(p, TakeElement(a, wild))
    ensures var b := Fetched(p.buffer, p.r.calls[a], wild);
            TakeElementSegment(p, a, wild)
            == AwaitOrFinish(Taken(p, a).(r := Got(p.r, b)), a, WithByte(p.r.calls[a], b))
  {
  }

  /** When a read returns, with what value, and when it takes what it got off `writer_in_use`. */
  lemma ReadAnswersIff(p: Pipe, e: Event)
    requires PipeInv(p) && Enabled(p, e) && (e.TakeRead? || e.TakeElement?)
    ensures Answered(p, Apply(p, e), e.proc, Held(p, e), p.r.calls[e.proc].n, e.TakeElement? && MeetsEnd(p, e))
  {
    if e.TakeRead? { GrantAnswers(p, e.proc); } else { ElementAnswers(p, e.proc, e.wild); }
  }

  /** When a write returns, with what value, and that it adds its bytes to `writer_in_use` only when all
      of them are announced. */
  lemma WriteAnswersIff(p: Pipe, e: Event)
    requires PipeInv(p) && Enabled(p, e) && (e.TakeWrite? || e.TakeSpace?)
    ensures var o, w := Apply(p, e), p.w.calls[e.proc];
            var k, broken := if e.TakeSpace? then w.i + 1 else 0, e.TakeSpace? && p.r.count == 0;
      && (o.Returned? <==> broken || k == |w.data|)
      && (o.Returned? ==> o.value == if broken then -EPIPE else |w.data|)
      && (o.Blocked? ==>
            && e.proc in o.pipe.w.calls && o.pipe.w.calls[e.proc].WaitSpace?
            && o.pipe.w.calls[e.proc].i == k && o.pipe.w.calls[e.proc].data == w.data)
      && o.pipe.w.inUse == p.w.inUse + if !broken && k == |w.data| then |w.data| else 0
  {
    if e.TakeSpace? { WriteHolder(p.w, e.proc); }
  }
}
