/** The pipe as the program holds it, and the code of its threads: each method runs one kernel thread
    from the grant of a permit to its next block or its return. */
module PipeObject {
  import opened Base
  import opened PipeProtocol

  /** The cell of a position, which the model takes turn by turn, is the remainder the code computes. */
  lemma {:induction false} SlotIsRemainder(k: nat)
    ensures Slot(k) == k % RING
  {
    if k >= RING { SlotIsRemainder(k - RING); }
  }

  // ---------------------------------------------------------------- a thread in the machine

  /** How far the write of process `a` gets on its own: it goes on while there are space permits. */
  function DriveWrite(o: Outcome, a: Proc): Outcome
    decreases WriteLeft(o, a)
  {
    if o.Blocked? && CanTakeSpace(o.pipe, a) then DriveWrite(TakeSpaceSegment(o.pipe, a), a) else o
  }

  function WriteLeft(o: Outcome, a: Proc): nat {
    if o.Blocked? && CanTakeSpace(o.pipe, a) then |o.pipe.w.calls[a].data| - o.pipe.w.calls[a].i else 0
  }

  /** How far its read gets: while there are element permits. `wild` is the memory beyond the buffer. */
  function DriveRead(o: Outcome, a: Proc, wild: nat -> Byte): Outcome
    decreases ReadLeft(o, a)
  {
    if o.Blocked? && CanTakeElement(o.pipe, a) && |o.pipe.r.calls[a].got| < o.pipe.r.calls[a].n then
      DriveRead(TakeElementSegment(o.pipe, a, wild(Index(o.pipe.r.calls[a]))), a, wild)
    else o
  }

  function ReadLeft(o: Outcome, a: Proc): nat {
    if o.Blocked? && CanTakeElement(o.pipe, a) && |o.pipe.r.calls[a].got| < o.pipe.r.calls[a].n then
      o.pipe.r.calls[a].n - |o.pipe.r.calls[a].got|
    else 0
  }

  /** The thread's segments `es`, one after the other, lead from outcome `o` to outcome `r`. */
  predicate Goes(o: Outcome, es: seq<Event>, r: Outcome)
    decreases |es|
  {
    if es == [] then r == o
    else o.Blocked? && Enabled(o.pipe, es[0]) && Goes(Apply(o.pipe, es[0]), es[1..], r)
  }

  /** They are a run of the machine: every run theorem applies to them. */
  lemma {:induction false} GoesIsRun(o: Outcome, es: seq<Event>, r: Outcome)
    requires Goes(o, es, r)
    ensures Run(o.pipe, es) && After(o.pipe, es) == r.pipe
    decreases |es|
  {
    if es != [] { GoesIsRun(Apply(o.pipe, es[0]), es[1..], r); }
  }

  lemma GoesFirst(o: Outcome, e: Event, es: seq<Event>, r: Outcome)
    requires o.Blocked? && Enabled(o.pipe, e) && Goes(Apply(o.pipe, e), es, r)
    ensures Goes(o, [e] + es, r)
  {
    assert ([e] + es)[0] == e && ([e] + es)[1..] == es;
  }

  /** What a writing thread does on its own are its own steps of the machine, as long as it has permits. */
  lemma {:induction false} DriveWriteRuns(o: Outcome, a: Proc)
    ensures exists es :: Goes(o, es, DriveWrite(o, a)) && forall i | 0 <= i < |es| :: es[i] == TakeSpace(a)
    ensures DriveWrite(o, a).Blocked? ==> !CanTakeSpace(DriveWrite(o, a).pipe, a)
    decreases WriteLeft(o, a)
  {
    assert Goes(o, [], o);
    if o.Blocked? && CanTakeSpace(o.pipe, a) {
      var o' := TakeSpaceSegment(o.pipe, a);
      DriveWriteRuns(o', a);
      var es :| Goes(o', es, DriveWrite(o', a)) && forall i | 0 <= i < |es| :: es[i] == TakeSpace(a);
      GoesFirst(o, TakeSpace(a), es, DriveWrite(o', a));
    }
  }

  /** The reader can take an element, and has one to ask for. */
  predicate CanGoOn(o: Outcome, a: Proc) {
    o.Blocked? && CanTakeElement(o.pipe, a) && |o.pipe.r.calls[a].got| < o.pipe.r.calls[a].n
  }

  predicate OwnTake(e: Event, a: Proc) { e.TakeElement? && e.proc == a }

  /** What a reading thread does on its own are its own steps, as long as there are elements. */
  lemma {:induction false} DriveReadRuns(o: Outcome, a: Proc, wild: nat -> Byte)
    ensures exists es :: Goes(o, es, DriveRead(o, a, wild)) && forall i | 0 <= i < |es| :: OwnTake(es[i], a)
    ensures !CanGoOn(DriveRead(o, a, wild), a)
    decreases ReadLeft(o, a)
  {
    assert Goes(o, [], o);
    if CanGoOn(o, a) {
      var e := TakeElement(a, wild(Index(o.pipe.r.calls[a])));
      var o' := Apply(o.pipe, e);
      DriveReadRuns(o', a, wild);
      var es :| Goes(o', es, DriveRead(o', a, wild)) && forall i | 0 <= i < |es| :: OwnTake(es[i], a);
      GoesFirst(o, e, es, DriveRead(o', a, wild));
    }
  }

  /** Where a write ends that has its next byte to store. */
  function WriteRest(p: Pipe, a: Proc, next: Writer): Outcome
    requires next.WaitSpace?
  {
    DriveWrite(StoreOrFinish(p, a, next), a)
  }

  /** One round of the write loop: it blocks, finds the readers gone, or goes on with the next byte. */
  lemma WriteRound(p: Pipe, a: Proc, next: Writer)
    requires next.WaitSpace? && next.i < |next.data|
    ensures var q := Store(p, a, next);
      && (q.space == 0 ==> WriteRest(p, a, next) == Blocked(q))
      && (q.space > 0 ==> CanTakeSpace(q, a))
      && (q.space > 0 && q.r.count == 0 ==>
            WriteRest(p, a, next) == Returned(q.(space := q.space - 1, w := LeaveWrite(q.w, a)), -EPIPE, []))
      && (q.space > 0 && q.r.count != 0 ==>
            WriteRest(p, a, next) == WriteRest(Announced(q, a), a, Next(next)))
  {
    var q := Store(p, a, next);
    assert q.w.calls[a] == next && StoreOrFinish(p, a, next) == Blocked(q);
    if q.space > 0 && q.r.count == 0 {
      assert DriveWrite(TakeSpaceSegment(q, a), a) == TakeSpaceSegment(q, a);
    }
  }

  /** Where a read ends that has its next byte to ask for. */
  function ReadRest(p: Pipe, a: Proc, next: Reader, wild: nat -> Byte): Outcome
    requires next.WaitElement?
  {
    DriveRead(AwaitOrFinish(p, a, next), a, wild)
  }

  predicate Stops(p: Pipe, next: Reader)
    requires next.WaitElement?
  {
    |next.got| >= next.n || p.w.count == 0 || |next.got| == p.w.inUse
  }

  /** The pipe with the reader blocked on `nelement`. */
  function Awaiting(p: Pipe, a: Proc, next: Reader): Pipe
    requires next.WaitElement?
  {
    p.(r := p.r.(calls := p.r.calls[a := next]))
  }

  /** One round of the read loop: it returns early, blocks, meets the byte taken for end of data, or goes
      on with one byte more. */
  lemma ReadRound(p: Pipe, a: Proc, next: Reader, wild: nat -> Byte)
    requires next.WaitElement?
    ensures Stops(p, next) ==> ReadRest(p, a, next, wild) == AwaitOrFinish(p, a, next)
    ensures !Stops(p, next) ==>
              var q := Awaiting(p, a, next);
              var b := Fetched(p.buffer, next, wild(Index(next)));
              if p.nelement == 0 then ReadRest(p, a, next, wild) == Blocked(q)
              else
                && CanTakeElement(q, a)
                && ReadRest(p, a, next, wild)
                   == if b == END then Returned(Taken(q, a).(r := LeaveRead(q.r, a)), |next.got|, next.got)
                      else ReadRest(Taken(q, a).(r := Got(q.r, b)), a, WithByte(next, b), wild)
  {
    if !Stops(p, next) && p.nelement > 0 {
      var q := Awaiting(p, a, next);
      assert q.r.calls[a] == next && AwaitOrFinish(p, a, next) == Blocked(q);
      var o := TakeElementSegment(q, a, wild(Index(next)));
      assert ReadRest(p, a, next, wild) == DriveRead(o, a, wild);
    }
  }

  // ---------------------------------------------------------------- the object

  /** `struct Pipe`. The semaphores are their permits; the calls in progress, which the program keeps on
      the threads' stacks, and the histories are ghosts. */
  class PipeStruct {
    const buffer: array<Byte>
    var readCount: int
    var writeCount: int
    var read: nat
    var write: nat
    var nelement: nat
    var spaceAvailable: nat
    var writeHead: nat
    var readHead: nat
    var writerInUse: int

    ghost var writing: map<Proc, Writer>
    ghost var reading: map<Proc, Reader>
    ghost var stored: seq<Byte>
    ghost var delivered: seq<Byte>
    ghost var writeDups: nat
    ghost var readDups: nat
    ghost var outOfBounds: bool
    ghost var released: bool

    ghost function View(): Pipe
      reads this, buffer
    {
      Pipe(buffer[..], nelement, spaceAvailable,
           WriteEnd(writeCount, write, writeHead, writerInUse, writing, stored, writeDups),
           ReadEnd(readCount, read, readHead, reading, delivered, readDups), outOfBounds, released)
    }

    /** The part of `do_pipe` that makes a pipe. */
    constructor ()
      ensures View() == NewPipe() && fresh(buffer)
    {
      buffer := new Byte[RING](_ => 0);
      readCount, writeCount := 1, 1;
      read, write, nelement, spaceAvailable := 1, 1, 0, RING;
      writeHead, readHead, writerInUse := 0, 0, 0;
      writing, reading, stored, delivered := map[], map[], [], [];
      writeDups, readDups, outOfBounds, released := 0, 0, false, false;
    }

    /** `buffer[start_point] = *j`, and the head one on. */
    method StoreByte(a: Proc, next: Writer)
      requires next.WaitSpace? && next.i < |next.data|
      modifies this, buffer
      ensures View() == Store(old(View()), a, next)
    {
      var k := Place(next);
      SlotIsRemainder(writeHead + 1);
      if k < buffer.Length { buffer[k] := next.data[next.i]; }
      writeHead := (writeHead + 1) % RING;
      outOfBounds := outOfBounds || k >= buffer.Length;
      writing := writing[a := next];
    }

    /** `P(space_available)` with a permit at hand, and `V(nelement)`. */
    method Announce(a: Proc, b: Byte)
      requires CanTakeSpace(View(), a) && b == writing[a].data[writing[a].i]
      modifies this
      ensures View() == Announced(old(View()), a)
    {
      spaceAvailable := spaceAvailable - 1;
      nelement := nelement + 1;
      stored := stored + [b];
    }

    /** `V(write)`. */
    method LeaveWriting(a: Proc)
      modifies this
      ensures View() == old(View()).(w := LeaveWrite(old(View()).w, a))
    {
      write := write + 1;
      writing := writing - {a};
    }

    /** The body of the write loop: the thread blocks, finds the readers gone, or goes on. */
    method WriteByte(a: Proc, next: Writer) returns (stop: Stop)
      requires next.WaitSpace? && next.i < |next.data|
      modifies this, buffer
      ensures var p := old(View());
              if stop.AtP? then View() == WriteRest(p, a, next).pipe && WriteRest(p, a, next).Blocked?
                                && View() == Store(p, a, next)
              else if stop.AtReturn? then WriteRest(p, a, next) == Returned(View(), -EPIPE, [])
              else WriteRest(View(), a, Next(next)) == WriteRest(p, a, next)
    {
      WriteRound(View(), a, next);
      StoreByte(a, next);
      if spaceAvailable == 0 { return AtP; }
      if readCount == 0 {
        spaceAvailable := spaceAvailable - 1;
        LeaveWriting(a);
        return AtReturn;
      }
      Announce(a, next.data[next.i]);
      return GoOn;
    }

    method FinishWrite(a: Proc, n: nat)
      modifies this
      ensures View() == old(View()).(w := LeaveWrite(old(View()).w.(inUse := old(View()).w.inUse + n), a))
    {
      writerInUse := writerInUse + n;
      LeaveWriting(a);
    }

    /** The write loop of `do_write` from byte `first` on, with `write` held: until a `P_kt_sem` on
        `space_available` blocks at byte `i`, or the call returns `value`. */
    method WriteLoop(a: Proc, fd: FdId, data: seq<Byte>, first: nat, startPoint: nat)
      returns (blocked: bool, i: nat, value: int)
      requires first <= |data|
      modifies this, buffer
      ensures var o := WriteRest(old(View()), a, WaitSpace(fd, data, first, startPoint));
              View() == o.pipe && blocked == o.Blocked? && (o.Returned? ==> value == o.value)
      ensures blocked ==> a in writing && writing[a] == WaitSpace(fd, data, i, startPoint)
    {
      i := first;
      while i < |data|
        invariant i <= |data|
        invariant WriteRest(View(), a, WaitSpace(fd, data, i, startPoint))
               == WriteRest(old(View()), a, WaitSpace(fd, data, first, startPoint))
      {
        var stop := WriteByte(a, WaitSpace(fd, data, i, startPoint));
        if stop.AtP? { return true, i, 0; }
        if stop.AtReturn? { return false, i, -EPIPE; }
        i := i + 1;
      }
      FinishWrite(a, i);
      return false, i, i;
    }

    /** `do_write` from the grant of `write`. */
    method TakeWrite(a: Proc, fd: FdId, data: seq<Byte>) returns (blocked: bool, i: nat, value: int)
      requires CanTakeWrite(View(), a) && writing[a] == WaitWrite(fd, data)
      modifies this, buffer
      ensures var o := DriveWrite(TakeWriteSegment(old(View()), a), a);
              View() == o.pipe && blocked == o.Blocked? && (o.Returned? ==> value == o.value)
      ensures blocked ==> a in writing && writing[a] == WaitSpace(fd, data, i, old(writeHead))
    {
      write := write - 1;
      blocked, i, value := WriteLoop(a, fd, data, 0, writeHead);
    }

    /** `do_write` from the grant of `space_available` for byte `at`. */
    method TakeSpace(a: Proc, fd: FdId, data: seq<Byte>, at: nat, startPoint: nat)
      returns (blocked: bool, i: nat, value: int)
      requires CanTakeSpace(View(), a) && writing[a] == WaitSpace(fd, data, at, startPoint)
      modifies this, buffer
      ensures var o := DriveWrite(TakeSpaceSegment(old(View()), a), a);
              View() == o.pipe && blocked == o.Blocked? && (o.Returned? ==> value == o.value)
      ensures blocked ==> a in writing && writing[a] == WaitSpace(fd, data, i, startPoint)
    {
      if readCount == 0 {
        spaceAvailable := spaceAvailable - 1;
        LeaveWriting(a);
        return false, at, -EPIPE;
      }
      Announce(a, data[at]);
      blocked, i, value := WriteLoop(a, fd, data, at + 1, startPoint);
    }

    /** `V(read)`. */
    method LeaveReading(a: Proc)
      modifies this
      ensures View() == old(View()).(r := LeaveRead(old(View()).r, a))
    {
      read := read + 1;
      reading := reading - {a};
    }

    /** `P(nelement)` with a permit at hand, and the byte it stands for. */
    method Take(a: Proc, k: nat, wild: Byte) returns (b: Byte)
      requires CanTakeElement(View(), a) && k == Index(reading[a])
      modifies this
      ensures View() == Taken(old(View()), a) && b == Fetched(old(View()).buffer, old(View()).r.calls[a], wild)
    {
      nelement := nelement - 1;
      outOfBounds := outOfBounds || k >= buffer.Length;
      b := if k < buffer.Length then buffer[k] else wild;
      spaceAvailable := spaceAvailable + 1;
    }

    /** The byte handed over and the head one on. */
    method Advance(b: Byte)
      modifies this
      ensures View() == old(View()).(r := Got(old(View()).r, b))
    {
      SlotIsRemainder(readHead + 1);
      readHead := (readHead + 1) % RING;
      delivered := delivered + [b];
    }

    method Await(a: Proc, next: Reader)
      requires next.WaitElement?
      modifies this
      ensures View() == Awaiting(old(View()), a, next)
    {
      reading := reading[a := next];
    }

    /** The early returns of the read loop. */
    method StopEarly(a: Proc, next: Reader)
      requires next.WaitElement? && Stops(View(), next)
      modifies this
      ensures View() == AwaitOrFinish(old(View()), a, next).pipe
    {
      if |next.got| < next.n && writeCount != 0 { writerInUse := writerInUse - |next.got|; }
      LeaveReading(a);
    }

    /** The body of the read loop: the call returns, the thread blocks, or it goes on with byte `b`. */
    method ReadByte(a: Proc, next: Reader, wild: nat -> Byte) returns (stop: Stop, b: Byte)
      requires next.WaitElement?
      modifies this
      ensures var o := ReadRest(old(View()), a, next, wild);
              if stop.AtP? then o == Blocked(View()) && View() == Awaiting(old(View()), a, next)
              else if stop.AtReturn? then o == Returned(View(), |next.got|, next.got)
              else ReadRest(View(), a, WithByte(next, b), wild) == o
    {
      b := 0;
      ReadRound(View(), a, next, wild);
      if |next.got| >= next.n || writeCount == 0 || |next.got| == writerInUse {
        StopEarly(a, next);
        return AtReturn, b;
      }
      Await(a, next);
      if nelement == 0 { return AtP, b; }
      b := Take(a, next.start + |next.got|, wild(next.start + |next.got|));
      if b == END {
        LeaveReading(a);
        return AtReturn, b;
      }
      Advance(b);
      return GoOn, b;
    }

    /** The read loop of `do_read` with the bytes `first` already copied and `read` held: until a
        `P_kt_sem` on `nelement` blocks, or the call returns with `bytes`. */
    method ReadLoop(a: Proc, fd: FdId, n: nat, starterInt: nat, first: seq<Byte>, wild: nat -> Byte)
      returns (blocked: bool, bytes: seq<Byte>)
      modifies this
      ensures var o := ReadRest(old(View()), a, WaitElement(fd, n, starterInt, first), wild);
              View() == o.pipe && blocked == o.Blocked? && (o.Returned? ==> o.value == |bytes| && o.bytes == bytes)
      ensures blocked ==> a in reading && reading[a] == WaitElement(fd, n, starterInt, bytes)
    {
      bytes := first;
      while true
        invariant ReadRest(View(), a, WaitElement(fd, n, starterInt, bytes), wild)
               == ReadRest(old(View()), a, WaitElement(fd, n, starterInt, first), wild)
        decreases n - |bytes|
      {
        var stop, b := ReadByte(a, WaitElement(fd, n, starterInt, bytes), wild);
        if stop.AtP? { return true, bytes; }
        if stop.AtReturn? { return false, bytes; }
        bytes := bytes + [b];
      }
    }

    /** `do_read` from the grant of `read`. */
    method TakeRead(a: Proc, fd: FdId, n: nat, wild: nat -> Byte) returns (blocked: bool, bytes: seq<Byte>)
      requires CanTakeRead(View(), a) && reading[a] == WaitRead(fd, n)
      modifies this
      ensures var o := DriveRead(TakeReadSegment(old(View()), a), a, wild);
              View() == o.pipe && blocked == o.Blocked? && (o.Returned? ==> o.value == |bytes| && o.bytes == bytes)
      ensures blocked ==> a in reading && reading[a] == WaitElement(fd, n, old(readHead), bytes)
    {
      read := read - 1;
      blocked, bytes := ReadLoop(a, fd, n, readHead, [], wild);
    }

    /** `do_read` from the grant of `nelement` for the byte after `first`. */
    method TakeElement(a: Proc, fd: FdId, n: nat, starterInt: nat, first: seq<Byte>, wild: nat -> Byte)
      returns (blocked: bool, bytes: seq<Byte>)
      requires CanTakeElement(View(), a) && reading[a] == WaitElement(fd, n, starterInt, first)
      modifies this
      ensures var o := DriveRead(TakeElementSegment(old(View()), a, wild(starterInt + |first|)), a, wild);
              View() == o.pipe && blocked == o.Blocked? && (o.Returned? ==> o.value == |bytes| && o.bytes == bytes)
      ensures blocked ==> a in reading && reading[a] == WaitElement(fd, n, starterInt, bytes)
    {
      var b := Take(a, starterInt + |first|, wild(starterInt + |first|));
      if b == END {
        LeaveReading(a);
        return false, first;
      }
      Advance(b);
      blocked, bytes := ReadLoop(a, fd, n, starterInt, first + [b], wild);
    }

    /** `do_close` on a read descriptor: the loop posts a permit for every counted writer. */
    method CloseReader()
      modifies this
      ensures View() == ReaderClosed(old(View()))
    {
      readCount := readCount - 1;
      if readCount == 0 {
        var f := 0;
        while f < writeCount
          invariant 0 <= f <= (if writeCount > 0 then writeCount else 0)
          invariant View() == ReaderExited(old(View())).(space := old(spaceAvailable) + f)
        {
          spaceAvailable := spaceAvailable + 1;
          f := f + 1;
        }
        released := true;
      }
    }
  }
}
