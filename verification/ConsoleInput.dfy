/** Console input: the thread of `cons_to_buff` that fills a ring of 256 cells, and the processes inside
    `do_read` on the console that empty it. As for pipes, a segment between two `P_kt_sem` is a step. */
module ConsoleInput {
  import opened Base

  const CELLS: nat := 256

  /** The cell a position belongs to: `k % 256`, taken one turn of the ring at a time. */
  function Cell(k: nat): (c: nat)
    ensures c < CELLS
  {
    if k < CELLS then k else Cell(k - CELLS)
  }

  lemma {:induction false} CellIsRemainder(k: nat)
    ensures Cell(k) == k % CELLS
  {
    if k >= CELLS { CellIsRemainder(k - CELLS); }
  }

  lemma {:induction false} CellNext(k: nat)
    ensures Cell(Cell(k) + 1) == Cell(k + 1) && Cell(Cell(k)) == Cell(k)
  {
    if k >= CELLS { CellNext(k - CELLS); }
  }

  lemma {:induction false} CellsApart(j: nat, k: nat)
    requires j < k < j + CELLS
    ensures Cell(j) != Cell(k)
  {
    if j >= CELLS { CellsApart(j - CELLS, k - CELLS); }
  }

  /** A process inside a console read: blocked on `readers`, or holding it with the bytes `got` copied
      and blocked on `nelem`. */
  datatype Reader = WaitReaders(n: nat) | WaitElement(n: nat, got: seq<Byte>)

  /** Where the input thread is blocked. */
  datatype Producer = WaitConsole | WaitSlot

  /** `struct console_buf`, the four semaphores, the threads, and two histories: the bytes that
      `console_read` has returned, and those copied out to readers. */
  datatype Console = Console(buff: seq<Byte>, head: nat, tail: nat,
                             consoleWait: nat, nslots: nat, nelem: nat, readers: nat,
                             producer: Producer, calls: map<Proc, Reader>,
                             input: seq<Byte>, delivered: seq<Byte>)

  datatype Outcome = Blocked(console: Console) | Returned(console: Console, value: int, bytes: seq<Byte>)

  datatype Event =
    | Arrive                              // ConsoleReadInt
    | TakeConsole
    | TakeSlot(c: Byte)                   // c: what console_read returns
    | BeginRead(proc: Proc, n: nat)
    | TakeReaders(proc: Proc)
    | TakeElement(proc: Proc)

  /** `init_buff`, `initialize_cons_sema` and `initialize_sema`. */
  function NewConsole(): Console {
    Console(seq(CELLS, _ => 0), 0, 0, 0, CELLS, 0, 1, WaitConsole, map[], [], [])
  }

  // ---------------------------------------------------------------- the segments

  predicate Shaped(c: Console) { |c.buff| == CELLS && c.head < CELLS && c.tail < CELLS }

  /** `V(nelem)`, the store and the new tail: nobody runs between them. */
  function Produced(c: Console, b: Byte): Console
    requires Shaped(c) && c.nslots > 0
  {
    c.(nslots := c.nslots - 1, nelem := c.nelem + 1, buff := c.buff[Cell(c.tail) := b],
       tail := Cell(c.tail + 1), producer := WaitConsole, input := c.input + [b])
  }

  function Leave(c: Console, a: Proc): Console {
    c.(readers := c.readers + 1, calls := c.calls - {a})
  }

  function AwaitOrFinish(c: Console, a: Proc, n: nat, got: seq<Byte>): Outcome {
    if |got| >= n then Returned(Leave(c, a), |got|, got)
    else Blocked(c.(calls := c.calls[a := WaitElement(n, got)]))
  }

  /** The byte taken for end of input gives its slot back but stays at the head. */
  function TakeElementSegment(c: Console, a: Proc): Outcome
    requires Shaped(c) && CanTakeElement(c, a)
  {
    var n, got, b := c.calls[a].n, c.calls[a].got, c.buff[c.head];
    var taken := c.(nelem := c.nelem - 1, nslots := c.nslots + 1);
    if b == END then Returned(Leave(taken, a), |got|, got)
    else AwaitOrFinish(Advanced(taken, b), a, n, got + [b])
  }

  function Advanced(c: Console, b: Byte): Console {
    c.(head := Cell(c.head + 1), delivered := c.delivered + [b])
  }

  predicate CanTakeElement(c: Console, a: Proc) {
    a in c.calls && c.calls[a].WaitElement? && c.nelem > 0
  }

  predicate Enabled(c: Console, e: Event) {
    match e
    case Arrive => true
    case TakeConsole => c.producer.WaitConsole? && c.consoleWait > 0
    case TakeSlot(_) => c.producer.WaitSlot? && c.nslots > 0
    case BeginRead(a, _) => a !in c.calls
    case TakeReaders(a) => a in c.calls && c.calls[a].WaitReaders? && c.readers > 0
    case TakeElement(a) => CanTakeElement(c, a)
  }

  function Apply(c: Console, e: Event): Outcome
    requires Shaped(c) && Enabled(c, e)
  {
    match e
    case Arrive => Blocked(c.(consoleWait := c.consoleWait + 1))
    case TakeConsole => Blocked(c.(consoleWait := c.consoleWait - 1, producer := WaitSlot))
    case TakeSlot(b) => Blocked(Produced(c, b))
    case BeginRead(a, n) => Blocked(c.(calls := c.calls[a := WaitReaders(n)]))
    case TakeReaders(a) => AwaitOrFinish(c.(readers := c.readers - 1), a, c.calls[a].n, [])
    case TakeElement(a) => TakeElementSegment(c, a)
  }

  // ---------------------------------------------------------------- what every step keeps

  function Reading(calls: map<Proc, Reader>): set<Proc> {
    set a | a in calls && calls[a].WaitElement?
  }

  /** The last bytes delivered are those the reader has. */
  predicate InPlace(r: Reader, delivered: seq<Byte>)
    requires r.WaitElement?
  {
    |r.got| < r.n && |r.got| <= |delivered| && delivered[|delivered| - |r.got|..] == r.got
  }

  /** `readers` is a mutex, and every cell is a slot permit or an element permit. */
  predicate Inv(c: Console) {
    && Shaped(c) && c.nslots + c.nelem == CELLS
    && c.readers + |Reading(c.calls)| == 1
    && forall a | a in Reading(c.calls) :: InPlace(c.calls[a], c.delivered)
  }

  /** Cell `k % 256` holds byte `k` of the input, for every byte not delivered. */
  predicate Ring(buff: seq<Byte>, head: nat, tail: nat, d: nat, input: seq<Byte>) {
    && |buff| == CELLS && d <= |input| && head == Cell(d) && tail == Cell(|input|)
    && forall k | d <= k < |input| :: buff[Cell(k)] == input[k]
  }

  /** The part of the state the bytes depend on. */
  predicate Queue(buff: seq<Byte>, head: nat, tail: nat, nelem: nat, delivered: seq<Byte>, input: seq<Byte>) {
    delivered <= input && nelem == |input| - |delivered| && Ring(buff, head, tail, |delivered|, input)
  }

  predicate Sound(c: Console) {
    Queue(c.buff, c.head, c.tail, c.nelem, c.delivered, c.input)
  }

  lemma NewConsoleInv()
    ensures Inv(NewConsole()) && Sound(NewConsole())
  {
  }

  lemma RingStore(buff: seq<Byte>, head: nat, tail: nat, d: nat, input: seq<Byte>, b: Byte)
    requires Ring(buff, head, tail, d, input) && |input| - d < CELLS
    ensures Ring(buff[Cell(tail) := b], head, Cell(tail + 1), d, input + [b])
  {
    var buff', input' := buff[Cell(tail) := b], input + [b];
    forall k | d <= k < |input'| ensures buff'[Cell(k)] == input'[k] {
      if k < |input| { CellsApart(k, |input|); }
    }
    CellNext(|input|);
  }

  lemma ReadingSet(calls: map<Proc, Reader>, a: Proc, next: Reader)
    requires Reading(calls) <= {a} && next.WaitElement?
    ensures Reading(calls[a := next]) == {a} && Reading(calls - {a}) == {}
  {
  }

  lemma ReadingAdded(calls: map<Proc, Reader>, a: Proc, n: nat)
    requires a !in calls
    ensures Reading(calls[a := WaitReaders(n)]) == Reading(calls)
  {
  }

  lemma Holder(c: Console, a: Proc)
    requires Inv(c) && a in Reading(c.calls)
    ensures c.readers == 0 && Reading(c.calls) == {a} && InPlace(c.calls[a], c.delivered)
  {
    assert |Reading(c.calls)| != 0;
    Singleton(Reading(c.calls), a);
  }

  lemma AwaitOrFinishInv(c: Console, a: Proc, n: nat, got: seq<Byte>)
    requires Shaped(c) && c.nslots + c.nelem == CELLS && c.readers == 0 && Reading(c.calls) <= {a}
    requires |got| <= |c.delivered| && c.delivered[|c.delivered| - |got|..] == got
    ensures Inv(AwaitOrFinish(c, a, n, got).console)
  {
    ReadingSet(c.calls, a, WaitElement(n, got));
  }

  lemma TakeElementInv(c: Console, a: Proc)
    requires Inv(c) && CanTakeElement(c, a)
    ensures Inv(TakeElementSegment(c, a).console)
  {
    Holder(c, a);
    var r, b := c.calls[a], c.buff[c.head];
    if b == END {
      ReadingSet(c.calls, a, r);
    } else {
      var d := c.delivered + [b];
      assert d[|d| - (|r.got| + 1)..] == c.delivered[|c.delivered| - |r.got|..] + [b];
      AwaitOrFinishInv(Advanced(c.(nelem := c.nelem - 1, nslots := c.nslots + 1), b), a, r.n, r.got + [b]);
    }
  }

  /** Every step keeps the permits and the mutex. */
  lemma InvStep(c: Console, e: Event)
    requires Inv(c) && Enabled(c, e)
    ensures Inv(Apply(c, e).console)
  {
    match e
    case BeginRead(a, n) => ReadingAdded(c.calls, a, n);
    case TakeReaders(a) => AwaitOrFinishInv(c.(readers := c.readers - 1), a, c.calls[a].n, []);
    case TakeElement(a) => TakeElementInv(c, a);
    case _ =>
  }

  /** The step does not take the byte mistaken for end of input. */
  predicate Clean(c: Console, e: Event)
    requires Shaped(c) && Enabled(c, e)
  {
    e.TakeElement? ==> c.buff[c.head] != END
  }

  lemma StoreQueue(buff: seq<Byte>, head: nat, tail: nat, nelem: nat, delivered: seq<Byte>, input: seq<Byte>, b: Byte)
    requires Queue(buff, head, tail, nelem, delivered, input) && nelem < CELLS
    ensures Queue(buff[Cell(tail) := b], head, Cell(tail + 1), nelem + 1, delivered, input + [b])
  {
    RingStore(buff, head, tail, |delivered|, input, b);
  }

  /** A byte taken and delivered keeps the queue; one taken and not delivered does not. */
  lemma TakeQueue(buff: seq<Byte>, head: nat, tail: nat, nelem: nat, delivered: seq<Byte>, input: seq<Byte>)
    requires Queue(buff, head, tail, nelem, delivered, input) && nelem > 0 && head < CELLS
    ensures |buff| == CELLS && Queue(buff, Cell(head + 1), tail, nelem - 1, delivered + [buff[head]], input)
    ensures !Queue(buff, head, tail, nelem - 1, delivered, input)
  {
    CellNext(|delivered|);
  }

  /** The ring stays the queue of the undelivered input exactly when the step takes no -1: in
      particular no store ever falls on a byte not yet read. */
  lemma SoundStep(c: Console, e: Event)
    requires Inv(c) && Sound(c) && Enabled(c, e)
    ensures Inv(Apply(c, e).console) && (Sound(Apply(c, e).console) <==> Clean(c, e))
  {
    InvStep(c, e);
    if e.TakeSlot? {
      StoreQueue(c.buff, c.head, c.tail, c.nelem, c.delivered, c.input, e.c);
    } else if e.TakeElement? {
      TakeQueue(c.buff, c.head, c.tail, c.nelem, c.delivered, c.input);
    }
  }

  // ---------------------------------------------------------------- runs

  predicate Run(c: Console, es: seq<Event>)
    decreases |es|
  {
    es == [] || (Shaped(c) && Enabled(c, es[0]) && Run(Apply(c, es[0]).console, es[1..]))
  }

  function After(c: Console, es: seq<Event>): Console
    requires Run(c, es)
    decreases |es|
  {
    if es == [] then c else After(Apply(c, es[0]).console, es[1..])
  }

  predicate AllClean(c: Console, es: seq<Event>)
    requires Run(c, es)
    decreases |es|
  {
    es == [] || (Clean(c, es[0]) && AllClean(Apply(c, es[0]).console, es[1..]))
  }

  lemma {:induction false} SoundRun(c: Console, es: seq<Event>)
    requires Inv(c) && Sound(c) && Run(c, es) && AllClean(c, es)
    ensures Inv(After(c, es)) && Sound(After(c, es))
    decreases |es|
  {
    if es != [] {
      SoundStep(c, es[0]);
      SoundRun(Apply(c, es[0]).console, es[1..]);
    }
  }

  /** Until the first -1 is taken, whatever the interleaving: the bytes handed to reads are a prefix of
      the input, and at most 256 are unread, each still in its cell. */
  lemma Fifo(es: seq<Event>)
    requires Run(NewConsole(), es) && AllClean(NewConsole(), es)
    ensures var c := After(NewConsole(), es);
      c.delivered <= c.input && |c.input| - |c.delivered| == c.nelem <= CELLS && Sound(c)
  {
    NewConsoleInv();
    SoundRun(NewConsole(), es);
  }

  /** A read that returns, right after the grant of `readers` or after any byte, has in its buffer the last
      bytes delivered: as many as it asked for, or fewer if it reached -1; and it hands `readers` on. */
  lemma ReadReturns(c: Console, e: Event)
    requires Inv(c) && Enabled(c, e) && (e.TakeReaders? || e.TakeElement?) && Apply(c, e).Returned?
    ensures var o := Apply(c, e);
      && o.value == |o.bytes| <= |o.console.delivered|
      && o.console.delivered[|o.console.delivered| - |o.bytes|..] == o.bytes
      && (if e.TakeElement? && c.buff[c.head] == END then o.value < c.calls[e.proc].n else o.value == c.calls[e.proc].n)
      && e.proc !in o.console.calls && o.console.readers == 1
  {
    if e.TakeElement? { Holder(c, e.proc); }
  }

  /** The bytes of a read of a sound console are the input bytes at the positions that come next. */
  lemma ReadIsNext(c: Console, a: Proc)
    requires Inv(c) && Sound(c) && CanTakeElement(c, a) && Clean(c, TakeElement(a))
    requires TakeElementSegment(c, a).Returned?
    ensures var o := TakeElementSegment(c, a);
      |o.bytes| <= |o.console.delivered| <= |c.input|
      && o.bytes == c.input[|o.console.delivered| - |o.bytes|..|o.console.delivered|]
  {
  }

  // ---------------------------------------------------------------- the byte taken for end of input

  predicate AtEnd(c: Console) {
    Shaped(c) && c.buff[c.head] == END
  }

  /** How many stores there are before the one that reaches the cell of the head. */
  function Ahead(c: Console): (n: int)
    requires Shaped(c)
    ensures 0 <= n < CELLS
  {
    if c.tail <= c.head then c.head - c.tail else c.head + CELLS - c.tail
  }

  /** The byte ends a read at the head after the step too. */
  predicate Stays(c: Console, c': Console) {
    AtEnd(c') && c'.head == c.head && c'.delivered == c.delivered
  }

  /** A read that gets there returns what it had, for one element permit, and leaves byte and head where
      they are. */
  lemma EndSticks(c: Console, a: Proc)
    requires Inv(c) && CanTakeElement(c, a) && AtEnd(c)
    ensures var o := TakeElementSegment(c, a);
      && o.Returned? && o.bytes == c.calls[a].got && Stays(c, o.console)
      && o.console.nelem == c.nelem - 1 && o.console.tail == c.tail
  {
  }

  /** It stays there at a step exactly if the step is not the store of another byte into its cell; every
      store brings that one nearer. */
  lemma EndStaysIff(c: Console, e: Event)
    requires Inv(c) && Enabled(c, e) && AtEnd(c)
    ensures var c' := Apply(c, e).console;
      && Shaped(c') && (Stays(c, c') <==> !(e.TakeSlot? && Ahead(c) == 0 && e.c != END))
      && (Ahead(c) > 0 ==> Ahead(c') == Ahead(c) - if e.TakeSlot? then 1 else 0)
      && (!e.TakeSlot? ==> Ahead(c') == Ahead(c))
  {
  }

  function StoresIn(es: seq<Event>): nat {
    if es == [] then 0 else (if es[0].TakeSlot? then 1 else 0) + StoresIn(es[1..])
  }

  /** Over a run whose stores stop short of its cell the byte stays at the head and nothing is
      delivered. */
  lemma {:induction false} EndRun(c: Console, es: seq<Event>)
    requires Inv(c) && AtEnd(c) && Run(c, es) && StoresIn(es) <= Ahead(c)
    ensures Inv(After(c, es)) && Stays(c, After(c, es)) && Ahead(After(c, es)) == Ahead(c) - StoresIn(es)
    decreases |es|
  {
    if es != [] {
      InvStep(c, es[0]);
      EndStaysIff(c, es[0]);
      EndRun(Apply(c, es[0]).console, es[1..]);
    }
  }

  /** So it ends every read that gets there until the store that comes to its cell: the first after
      `Ahead` others, and no other step. */
  lemma EndUntil(c: Console, es: seq<Event>, e: Event)
    requires Inv(c) && AtEnd(c) && Run(c, es) && StoresIn(es) <= Ahead(c)
    requires Enabled(After(c, es), e)
    ensures var d := After(c, es);
      && Stays(c, d)
      && (Stays(c, Apply(d, e).console) <==> !(e.TakeSlot? && StoresIn(es) == Ahead(c) && e.c != END))
      && (e.TakeElement? ==> Apply(d, e).Returned? && Apply(d, e).bytes == d.calls[e.proc].got)
  {
    EndRun(c, es);
    EndStaysIff(After(c, es), e);
    if e.TakeElement? { EndSticks(After(c, es), e.proc); }
  }

  // ---------------------------------------------------------------- a full turn after -1

  /** Some run from the start ends in `c`. */
  ghost predicate Reachable(c: Console) {
    exists es :: Run(NewConsole(), es) && After(NewConsole(), es) == c
  }

  lemma {:induction false} RunThen(c: Console, es: seq<Event>, e: Event)
    requires Run(c, es) && Shaped(After(c, es)) && Enabled(After(c, es), e)
    ensures Run(c, es + [e]) && After(c, es + [e]) == Apply(After(c, es), e).console
    decreases |es|
  {
    if es == [] {
      assert es + [e] == [e] && [e][1..] == [];
      assert After(Apply(c, e).console, []) == Apply(c, e).console;
    } else {
      assert (es + [e])[0] == es[0] && (es + [e])[1..] == es[1..] + [e];
      RunThen(Apply(c, es[0]).console, es[1..], e);
    }
  }

  lemma ReachNext(c: Console, e: Event)
    requires Reachable(c) && Shaped(c) && Enabled(c, e)
    ensures Reachable(Apply(c, e).console)
  {
    var es :| Run(NewConsole(), es) && After(NewConsole(), es) == c;
    RunThen(NewConsole(), es, e);
    assert Run(NewConsole(), es + [e]) && After(NewConsole(), es + [e]) == Apply(c, e).console;
  }

  /** One more character arrives and is stored. */
  lemma ReachStored(c: Console, b: Byte)
    requires Reachable(c) && Shaped(c) && c.producer.WaitConsole? && c.consoleWait == 0 && c.nslots > 0
    ensures Reachable(Produced(c, b)) && Produced(c, b).consoleWait == 0
  {
    var c1 := c.(consoleWait := 1);
    assert Apply(c, Arrive).console == c1;
    ReachNext(c, Arrive);
    var c2 := c.(producer := WaitSlot);
    assert Apply(c1, TakeConsole).console == c2;
    ReachNext(c1, TakeConsole);
    assert Apply(c2, TakeSlot(b)).console == Produced(c, b);
    ReachNext(c2, TakeSlot(b));
  }

  /** The first `k` of 256 characters have been stored and none read. */
  function Filled(chars: seq<Byte>, k: nat): Console
    requires k <= |chars| == CELLS
  {
    Console(chars[..k] + seq(CELLS - k, _ => 0), 0, Cell(k), 0, CELLS - k, k, 1, WaitConsole, map[], chars[..k], [])
  }

  lemma {:induction false} Fill(chars: seq<Byte>, k: nat)
    requires k <= |chars| == CELLS
    ensures Reachable(Filled(chars, k))
  {
    if k == 0 {
      assert Run(NewConsole(), []) && After(NewConsole(), []) == NewConsole() == Filled(chars, 0);
    } else {
      Fill(chars, k - 1);
      ReachStored(Filled(chars, k - 1), chars[k - 1]);
      assert chars[..k - 1] + [chars[k - 1]] == chars[..k];
      assert Produced(Filled(chars, k - 1), chars[k - 1]) == Filled(chars, k);
    }
  }

  /** With a full ring whose first byte is -1, a read returns at it and gives its slot back; the next
      character is then stored over it. */
  function EndTaken(chars: seq<Byte>): Console
    requires |chars| == CELLS
  {
    Filled(chars, CELLS).(nslots := 1, nelem := CELLS - 1)
  }

  lemma EndTakenReached(chars: seq<Byte>)
    requires |chars| == CELLS && chars[0] == END
    ensures Reachable(EndTaken(chars))
  {
    var c := Filled(chars, CELLS);
    Fill(chars, CELLS);
    var c1 := c.(calls := map[1 := WaitReaders(1)]);
    assert Apply(c, BeginRead(1, 1)).console == c1;
    ReachNext(c, BeginRead(1, 1));
    var c2 := c.(readers := 0, calls := map[1 := WaitElement(1, [])]);
    assert c1.calls[1 := WaitElement(1, [])] == c2.calls;
    assert Apply(c1, TakeReaders(1)).console == c2;
    ReachNext(c1, TakeReaders(1));
    assert c2.calls - {1} == map[];
    assert Apply(c2, TakeElement(1)).console == EndTaken(chars);
    ReachNext(c2, TakeElement(1));
  }

  lemma EndOverwritten(chars: seq<Byte>, b: Byte)
    requires |chars| == CELLS && chars[0] == END && b != END
    ensures var c := EndTaken(chars);
      && Reachable(c) && AtEnd(c) && Ahead(c) == 0 && c.nslots > 0
      && Reachable(Produced(c, b)) && Produced(c, b).buff[c.head] == b && !AtEnd(Produced(c, b))
  {
    EndTakenReached(chars);
    ReachStored(EndTaken(chars), b);
  }

  // ---------------------------------------------------------------- what is asked for and what arrives

  /** A read waits with the length it was asked for, and keeps it until it returns. */
  lemma ReadKeepsLength(c: Console, e: Event, a: Proc)
    requires Shaped(c) && Enabled(c, e)
    ensures var c' := Apply(c, e).console;
      && (e.BeginRead? && e.proc == a ==> a in c'.calls && c'.calls[a] == WaitReaders(e.n))
      && (a in c'.calls && a in c.calls ==> c'.calls[a].n == c.calls[a].n)
      && (a in c'.calls && a !in c.calls ==> e.BeginRead? && e.proc == a)
      && (a in c.calls && a !in c'.calls ==> (e.TakeReaders? || e.TakeElement?) && e.proc == a && Apply(c, e).Returned?)
  {
  }

  function Arrivals(es: seq<Event>): nat {
    if es == [] then 0 else (if es[0].Arrive? then 1 else 0) + Arrivals(es[1..])
  }

  /** Interrupts that have not been answered, the one being answered, and the characters read. */
  function Heard(c: Console): nat { c.consoleWait + (if c.producer.WaitSlot? then 1 else 0) + |c.input| }

  /** Every interrupt is one character: none is lost and none is answered twice. */
  lemma {:induction false} ArrivalsKept(c: Console, es: seq<Event>)
    requires Inv(c) && Run(c, es)
    ensures Heard(After(c, es)) == Heard(c) + Arrivals(es)
    decreases |es|
  {
    if es != [] {
      InvStep(c, es[0]);
      ArrivalsKept(Apply(c, es[0]).console, es[1..]);
    }
  }
}
