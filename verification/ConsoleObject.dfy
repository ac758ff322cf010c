/** The console buffer and the console semaphores as the program holds them, and the code of their
    threads, each from the grant of a permit to its next block or its return. */
module ConsoleObject {
  import opened Base
  import I = ConsoleInput
  import O = ConsoleOutput

  // ---------------------------------------------------------------- threads in the machines

  /** How far the input thread gets on its own; `chars` is what `console_read` returns next. */
  function DriveInput(c: I.Console, chars: seq<Byte>): I.Console
    requires I.Shaped(c)
    decreases c.consoleWait, if c.producer.WaitSlot? then 1 else 0
  {
    if c.producer.WaitConsole? then
      if c.consoleWait > 0 then DriveInput(I.Apply(c, I.TakeConsole).console, chars) else c
    else if c.nslots > 0 && chars != [] then DriveInput(I.Produced(c, chars[0]), chars[1..])
    else c
  }

  /** How far a console read gets: while there are elements. */
  function DriveRead(o: I.Outcome, a: Proc): I.Outcome
    decreases ReadLeft(o, a)
  {
    if CanGoOn(o, a) then DriveRead(I.TakeElementSegment(o.console, a), a) else o
  }

  predicate CanGoOn(o: I.Outcome, a: Proc) {
    o.Blocked? && I.Shaped(o.console) && I.CanTakeElement(o.console, a)
    && |o.console.calls[a].got| < o.console.calls[a].n
  }

  function ReadLeft(o: I.Outcome, a: Proc): nat {
    if CanGoOn(o, a) then o.console.calls[a].n - |o.console.calls[a].got| else 0
  }

  lemma RunFirst(c: I.Console, e: I.Event, es: seq<I.Event>)
    requires I.Shaped(c) && I.Enabled(c, e) && I.Run(I.Apply(c, e).console, es)
    ensures I.Run(c, [e] + es) && I.After(c, [e] + es) == I.After(I.Apply(c, e).console, es)
  {
    assert ([e] + es)[0] == e && ([e] + es)[1..] == es;
  }

  /** One round of the input thread: it waits for an interrupt, takes one, stores a character, or waits for
      a slot. */
  lemma InputRound(c: I.Console, chars: seq<Byte>)
    requires I.Shaped(c)
    ensures c.producer.WaitConsole? && c.consoleWait == 0 ==> DriveInput(c, chars) == c
    ensures c.producer.WaitConsole? && c.consoleWait > 0 ==>
              DriveInput(c, chars) == DriveInput(c.(consoleWait := c.consoleWait - 1, producer := I.WaitSlot), chars)
    ensures c.producer.WaitSlot? && c.nslots == 0 ==> DriveInput(c, chars) == c
    ensures c.producer.WaitSlot? && c.nslots > 0 && chars != [] ==>
              DriveInput(c, chars) == DriveInput(I.Produced(c, chars[0]), chars[1..])
  {
  }

  /** The interrupts the input thread has to answer. */
  function Pending(c: I.Console): nat { c.consoleWait + if c.producer.WaitSlot? then 1 else 0 }

  function Min(a: nat, b: nat): nat { if a <= b then a else b }

  /** It waits for an interrupt with none there, or for a slot with none free. */
  predicate InputWaits(c: I.Console) {
    (c.producer.WaitConsole? && c.consoleWait == 0) || (c.producer.WaitSlot? && c.nslots == 0)
  }

  /** It answers as many interrupts as there are slots for, one character each, and then waits; reads do
      not notice but for the elements. */
  lemma {:induction false} InputAnswers(c: I.Console, chars: seq<Byte>)
    requires I.Shaped(c) && |chars| >= Pending(c)
    ensures var d, k := DriveInput(c, chars), Min(Pending(c), c.nslots);
      && d.input == c.input + chars[..k] && d.nslots == c.nslots - k && d.nelem == c.nelem + k
      && Pending(d) == Pending(c) - k && InputWaits(d)
      && d.head == c.head && d.readers == c.readers && d.calls == c.calls && d.delivered == c.delivered
    decreases c.consoleWait, if c.producer.WaitSlot? then 1 else 0
  {
    if c.producer.WaitConsole? && c.consoleWait > 0 {
      InputAnswers(I.Apply(c, I.TakeConsole).console, chars);
    } else if c.producer.WaitSlot? && c.nslots > 0 {
      InputAnswers(I.Produced(c, chars[0]), chars[1..]);
      var k := Min(Pending(c), c.nslots);
      assert c.input + [chars[0]] + chars[1..][..k - 1] == c.input + chars[..k];
    }
  }

  /** A run of the input thread alone, over these characters. */
  predicate InputEvents(es: seq<I.Event>, chars: seq<Byte>) {
    if es == [] then true
    else if es[0].TakeConsole? then InputEvents(es[1..], chars)
    else es[0].TakeSlot? && chars != [] && es[0].c == chars[0] && InputEvents(es[1..], chars[1..])
  }

  /** What it does is a run of the console machine, until it waits. */
  lemma {:induction false} DriveInputRuns(c: I.Console, chars: seq<Byte>)
    requires I.Shaped(c) && |chars| >= Pending(c)
    ensures exists es :: InputEvents(es, chars) && I.Run(c, es) && I.After(c, es) == DriveInput(c, chars)
    ensures InputWaits(DriveInput(c, chars))
    decreases c.consoleWait, if c.producer.WaitSlot? then 1 else 0
  {
    assert InputEvents([], chars) && I.Run(c, []) && I.After(c, []) == c;
    if c.producer.WaitConsole? && c.consoleWait > 0 {
      var c1 := I.Apply(c, I.TakeConsole).console;
      DriveInputRuns(c1, chars);
      var es :| InputEvents(es, chars) && I.Run(c1, es) && I.After(c1, es) == DriveInput(c1, chars);
      RunFirst(c, I.TakeConsole, es);
      assert InputEvents([I.TakeConsole] + es, chars);
    } else if c.producer.WaitSlot? && c.nslots > 0 {
      var c1 := I.Produced(c, chars[0]);
      DriveInputRuns(c1, chars[1..]);
      var es :| InputEvents(es, chars[1..]) && I.Run(c1, es) && I.After(c1, es) == DriveInput(c1, chars[1..]);
      RunFirst(c, I.TakeSlot(chars[0]), es);
      assert InputEvents([I.TakeSlot(chars[0])] + es, chars);
    }
  }

  /** The reader's segments, `n` of them, lead from outcome `o` to outcome `r`. */
  predicate Takes(o: I.Outcome, a: Proc, n: nat, r: I.Outcome)
    decreases n
  {
    if n == 0 then r == o
    else
      && o.Blocked? && I.Shaped(o.console) && I.CanTakeElement(o.console, a)
      && Takes(I.TakeElementSegment(o.console, a), a, n - 1, r)
  }

  /** They are a run of the console machine. */
  lemma {:induction false} TakesIsRun(o: I.Outcome, a: Proc, n: nat, r: I.Outcome)
    requires Takes(o, a, n, r)
    ensures exists es :: |es| == n && I.Run(o.console, es) && I.After(o.console, es) == r.console
    decreases n
  {
    if n == 0 {
      assert I.Run(o.console, []) && I.After(o.console, []) == o.console;
    } else {
      var o1 := I.TakeElementSegment(o.console, a);
      TakesIsRun(o1, a, n - 1, r);
      var es :| |es| == n - 1 && I.Run(o1.console, es) && I.After(o1.console, es) == r.console;
      RunFirst(o.console, I.TakeElement(a), es);
    }
  }

  /** What a console read does on its own are its own steps, as long as there are elements. */
  lemma {:induction false} DriveReadRuns(o: I.Outcome, a: Proc)
    ensures exists n: nat :: Takes(o, a, n, DriveRead(o, a))
    ensures !CanGoOn(DriveRead(o, a), a)
    decreases ReadLeft(o, a)
  {
    if CanGoOn(o, a) {
      var o1 := I.TakeElementSegment(o.console, a);
      DriveReadRuns(o1, a);
      var n: nat :| Takes(o1, a, n, DriveRead(o1, a));
      assert Takes(o, a, n + 1, DriveRead(o, a));
    } else {
      assert Takes(o, a, 0, DriveRead(o, a));
    }
  }

  /** Where a read ends that has its next byte to ask for. */
  function ReadRest(c: I.Console, a: Proc, n: nat, got: seq<Byte>): I.Outcome {
    DriveRead(I.AwaitOrFinish(c, a, n, got), a)
  }

  /** The reader blocked on `nelem`, and the element it then takes. */
  function Awaiting(c: I.Console, a: Proc, n: nat, got: seq<Byte>): I.Console {
    c.(calls := c.calls[a := I.WaitElement(n, got)])
  }

  function Taken(c: I.Console): I.Console
    requires c.nelem > 0
  {
    c.(nelem := c.nelem - 1, nslots := c.nslots + 1)
  }

  /** One round of the read loop. */
  lemma ReadRound(c: I.Console, a: Proc, n: nat, got: seq<Byte>)
    requires I.Shaped(c) && |got| < n
    ensures c.nelem == 0 ==> ReadRest(c, a, n, got) == I.Blocked(Awaiting(c, a, n, got))
    ensures c.nelem > 0 ==>
              var q, b := Taken(Awaiting(c, a, n, got)), c.buff[c.head];
              ReadRest(c, a, n, got)
              == if b == END then I.Returned(I.Leave(q, a), |got|, got)
                 else ReadRest(I.Advanced(q, b), a, n, got + [b])
  {
    var q := Awaiting(c, a, n, got);
    assert q.calls[a] == I.WaitElement(n, got);
    if c.nelem > 0 {
      assert ReadRest(c, a, n, got) == DriveRead(I.TakeElementSegment(q, a), a);
    }
  }

  // ---------------------------------------------------------------- console input

  /** `struct console_buf` and its semaphores. */
  class ConsoleBuf {
    const buff: array<Byte>
    var head: nat
    var tail: nat
    const size: nat := I.CELLS
    var consoleWait: nat
    var nslots: nat
    var nelem: nat
    var readers: nat

    ghost var producer: I.Producer
    ghost var calls: map<Proc, I.Reader>
    ghost var input: seq<Byte>
    ghost var delivered: seq<Byte>

    ghost function View(): I.Console
      reads this, buff
    {
      I.Console(buff[..], head, tail, consoleWait, nslots, nelem, readers, producer, calls, input, delivered)
    }

    /** `init_buff` and `initialize_cons_sema`. */
    constructor ()
      ensures View() == I.NewConsole() && fresh(buff)
    {
      buff := new Byte[I.CELLS](_ => 0);
      head, tail := 0, 0;
      consoleWait, nslots, nelem, readers := 0, I.CELLS, 0, 1;
      producer, calls, input, delivered := I.WaitConsole, map[], [], [];
    }

    /** The loop of `cons_to_buff`, entered with a permit of `consoleWait` taken or not, until one of its
        two `P_kt_sem` blocks. `read` characters have been taken from the console by then. */
    method ConsToBuff(chars: seq<Byte>, atSlot: bool) returns (read: nat)
      requires I.Shaped(View()) && (atSlot <==> producer.WaitSlot?)
      requires |chars| >= consoleWait + if atSlot then 1 else 0
      modifies this, buff
      ensures View() == DriveInput(old(View()), chars)
      ensures read == Min(old(consoleWait) + if atSlot then 1 else 0, old(nslots))
      ensures input == old(input) + chars[..read] && nslots == old(nslots) - read && nelem == old(nelem) + read
      ensures (producer.WaitConsole? && consoleWait == 0) || (producer.WaitSlot? && nslots == 0)
    {
      InputAnswers(View(), chars);
      read := 0;
      var haveConsole := atSlot;
      while true
        invariant I.Shaped(View()) && (haveConsole <==> producer.WaitSlot?)
        invariant read <= |chars| && |chars| - read >= consoleWait + if haveConsole then 1 else 0
        invariant DriveInput(View(), chars[read..]) == DriveInput(old(View()), chars)
        invariant nelem == old(nelem) + read
        decreases consoleWait, if haveConsole then 1 else 0
      {
        if !haveConsole {
          if consoleWait == 0 { return; }
          consoleWait := consoleWait - 1;
          producer := I.WaitSlot;
          haveConsole := true;
        } else {
          if nslots == 0 { return; }
          Store(chars[read]);
          assert chars[read..][1..] == chars[read + 1..];
          read := read + 1;
          haveConsole := false;
        }
      }
    }

    /** One character into the ring. */
    method Store(c: Byte)
      requires I.Shaped(View()) && nslots > 0
      modifies this, buff
      ensures View() == I.Produced(old(View()), c)
    {
      I.CellIsRemainder(tail);
      I.CellIsRemainder(tail + 1);
      nslots := nslots - 1;
      nelem := nelem + 1;
      buff[tail % size] := c;
      tail := (tail + 1) % size;
      producer := I.WaitConsole;
      input := input + [c];
    }

    /** `V(readers)`. */
    method LeaveReading(a: Proc)
      modifies this
      ensures View() == I.Leave(old(View()), a)
    {
      readers := readers + 1;
      calls := calls - {a};
    }

    /** `P(nelem)` with a permit at hand, the byte at the head, and `V(nslots)`. */
    method Take() returns (b: Byte)
      requires I.Shaped(View()) && nelem > 0
      modifies this
      ensures View() == Taken(old(View())) && b == buff[head]
    {
      nelem := nelem - 1;
      b := buff[head];
      nslots := nslots + 1;
    }

    method Advance(b: Byte)
      modifies this
      ensures View() == I.Advanced(old(View()), b)
    {
      I.CellIsRemainder(head + 1);
      head := (head + 1) % size;
      delivered := delivered + [b];
    }

    /** The body of the console loop of `do_read`. */
    method ReadByte(a: Proc, n: nat, got: seq<Byte>) returns (stop: Stop, b: Byte)
      requires I.Shaped(View()) && |got| < n
      modifies this
      ensures I.Shaped(View())
      ensures var o := ReadRest(old(View()), a, n, got);
              if stop.AtP? then o == I.Blocked(View()) && View() == Awaiting(old(View()), a, n, got)
              else if stop.AtReturn? then o == I.Returned(View(), |got|, got)
              else ReadRest(View(), a, n, got + [b]) == o
    {
      ReadRound(View(), a, n, got);
      b := 0;
      calls := calls[a := I.WaitElement(n, got)];
      if nelem == 0 { return AtP, b; }
      b := Take();
      if b == END {
        LeaveReading(a);
        return AtReturn, b;
      }
      Advance(b);
      return GoOn, b;
    }

    /** The console loop of `do_read` with the bytes `first` copied and `readers` held. */
    method ReadLoop(a: Proc, n: nat, first: seq<Byte>) returns (blocked: bool, bytes: seq<Byte>)
      requires I.Shaped(View()) && |first| <= n
      modifies this
      ensures var o := ReadRest(old(View()), a, n, first);
              View() == o.console && blocked == o.Blocked? && (o.Returned? ==> o.value == |bytes| && o.bytes == bytes)
      ensures blocked ==> a in calls && calls[a] == I.WaitElement(n, bytes)
    {
      bytes := first;
      while |bytes| < n
        invariant I.Shaped(View()) && |bytes| <= n
        invariant ReadRest(View(), a, n, bytes) == ReadRest(old(View()), a, n, first)
      {
        var stop, b := ReadByte(a, n, bytes);
        if stop.AtP? { return true, bytes; }
        if stop.AtReturn? { return false, bytes; }
        bytes := bytes + [b];
      }
      LeaveReading(a);
      return false, bytes;
    }

    /** The console branch of `do_read` from the grant of `readers`. */
    method TakeReaders(a: Proc, n: nat) returns (blocked: bool, bytes: seq<Byte>)
      requires I.Shaped(View()) && I.Enabled(View(), I.TakeReaders(a)) && calls[a] == I.WaitReaders(n)
      modifies this
      ensures var o := DriveRead(I.Apply(old(View()), I.TakeReaders(a)), a);
              View() == o.console && blocked == o.Blocked? && (o.Returned? ==> o.value == |bytes| && o.bytes == bytes)
    {
      readers := readers - 1;
      blocked, bytes := ReadLoop(a, n, []);
    }
  }

  // ---------------------------------------------------------------- console output

  /** How far a console write gets: while there are permits of `writeok`. */
  function DriveWrite(o: O.Outcome, a: Proc): O.Outcome
    decreases WriteLeft(o, a)
  {
    if CanSend(o, a) then DriveWrite(O.Apply(o.screen, O.TakeOk(a)), a) else o
  }

  predicate CanSend(o: O.Outcome, a: Proc) {
    o.Blocked? && O.Enabled(o.screen, O.TakeOk(a)) && o.screen.calls[a].i < |o.screen.calls[a].data|
  }

  function WriteLeft(o: O.Outcome, a: Proc): nat {
    if CanSend(o, a) then |o.screen.calls[a].data| - o.screen.calls[a].i else 0
  }

  function WriteRest(s: O.Screen, a: Proc, data: seq<Byte>, i: nat): O.Outcome {
    DriveWrite(O.SendOrFinish(s, a, data, i), a)
  }

  /** One round of the write loop: it blocks on `writeok`, or goes on with the next byte. */
  lemma WriteRound(s: O.Screen, a: Proc, data: seq<Byte>, i: nat)
    requires i < |data|
    ensures var q := s.(output := s.output + [data[i]], calls := s.calls[a := O.WaitOk(data, i)]);
            WriteRest(s, a, data, i)
            == if s.writeok == 0 then O.Blocked(q) else WriteRest(q.(writeok := q.writeok - 1), a, data, i + 1)
  {
    var q := s.(output := s.output + [data[i]], calls := s.calls[a := O.WaitOk(data, i)]);
    assert q.calls[a] == O.WaitOk(data, i);
  }

  /** The two semaphores of console output. */
  class ScreenSems {
    var writers: nat
    var writeok: nat
    ghost var calls: map<Proc, O.Writer>
    ghost var output: seq<Byte>
    ghost var completed: seq<seq<Byte>>
    ghost var interrupts: nat

    ghost function View(): O.Screen
      reads this
    {
      O.Screen(writers, writeok, calls, output, completed, interrupts)
    }

    /** `initialize_sema`. */
    constructor ()
      ensures View() == O.NewScreen()
    {
      writers, writeok := 1, 0;
      calls, output, completed, interrupts := map[], [], [], 0;
    }

    /** The console loop of `do_write` from byte `first` on, with `writers` held. */
    method WriteLoop(a: Proc, data: seq<Byte>, first: nat) returns (blocked: bool, writeCount: nat)
      requires first <= |data|
      modifies this
      ensures var o := WriteRest(old(View()), a, data, first);
              View() == o.screen && blocked == o.Blocked? && (o.Returned? ==> o.value == writeCount)
      ensures blocked ==> a in calls && calls[a] == O.WaitOk(data, writeCount)
    {
      writeCount := first;
      while writeCount < |data|
        invariant writeCount <= |data|
        invariant WriteRest(View(), a, data, writeCount) == WriteRest(old(View()), a, data, first)
      {
        WriteRound(View(), a, data, writeCount);
        output := output + [data[writeCount]];
        calls := calls[a := O.WaitOk(data, writeCount)];
        if writeok == 0 { return true, writeCount; }
        writeok := writeok - 1;
        writeCount := writeCount + 1;
      }
      writers := writers + 1;
      calls := calls - {a};
      completed := completed + [data];
      return false, writeCount;
    }

    /** `ConsoleWriteInt`. */
    method Interrupt()
      modifies this
      ensures View() == O.Apply(old(View()), O.Interrupt).screen
    {
      writeok := writeok + 1;
      interrupts := interrupts + 1;
    }
  }
}
