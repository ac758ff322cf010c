/** Console output: the processes inside `do_write` on the console, and the device that takes one byte
    at a time and answers with `ConsoleWriteInt`. */
module ConsoleOutput {
  import opened Base

  /** A process inside a console write: blocked on `writers`, or holding it with byte `i` handed to the
      device and blocked on `writeok`. */
  datatype Writer = WaitWriters(data: seq<Byte>) | WaitOk(data: seq<Byte>, i: nat)

  /** The two semaphores and the threads, with three histories: the bytes handed to `console_write`, the
      buffers whose writes have returned, and the number of interrupts. */
  datatype Screen = Screen(writers: nat, writeok: nat, calls: map<Proc, Writer>,
                           output: seq<Byte>, completed: seq<seq<Byte>>, interrupts: nat)

  datatype Outcome = Blocked(screen: Screen) | Returned(screen: Screen, value: int)

  datatype Event =
    | Interrupt                                   // ConsoleWriteInt, whether or not a byte is due
    | BeginWrite(proc: Proc, data: seq<Byte>)
    | TakeWriters(proc: Proc)
    | TakeOk(proc: Proc)

  function NewScreen(): Screen { Screen(1, 0, map[], [], [], 0) }

  /** The head of the loop: hand byte `i` to the device, or leave. */
  function SendOrFinish(s: Screen, a: Proc, data: seq<Byte>, i: nat): Outcome {
    if i < |data| then
      Blocked(s.(output := s.output + [data[i]], calls := s.calls[a := WaitOk(data, i)]))
    else
      Returned(s.(writers := s.writers + 1, calls := s.calls - {a}, completed := s.completed + [data]), i)
  }

  predicate Enabled(s: Screen, e: Event) {
    match e
    case Interrupt => true
    case BeginWrite(a, _) => a !in s.calls
    case TakeWriters(a) => a in s.calls && s.calls[a].WaitWriters? && s.writers > 0
    case TakeOk(a) => a in s.calls && s.calls[a].WaitOk? && s.writeok > 0
  }

  function Apply(s: Screen, e: Event): Outcome
    requires Enabled(s, e)
  {
    match e
    case Interrupt => Blocked(s.(writeok := s.writeok + 1, interrupts := s.interrupts + 1))
    case BeginWrite(a, data) => Blocked(s.(calls := s.calls[a := WaitWriters(data)]))
    case TakeWriters(a) => SendOrFinish(s.(writers := s.writers - 1), a, s.calls[a].data, 0)
    case TakeOk(a) => SendOrFinish(s.(writeok := s.writeok - 1), a, s.calls[a].data, s.calls[a].i + 1)
  }

  // ---------------------------------------------------------------- what every step keeps

  function Writing(calls: map<Proc, Writer>): set<Proc> {
    set a | a in calls && calls[a].WaitOk?
  }

  function Flatten(buffers: seq<seq<Byte>>): seq<Byte> {
    if buffers == [] then [] else Flatten(buffers[..|buffers| - 1]) + buffers[|buffers| - 1]
  }

  lemma FlattenAppend(buffers: seq<seq<Byte>>, data: seq<Byte>)
    ensures Flatten(buffers + [data]) == Flatten(buffers) + data
  {
  }

  /** The output is the completed buffers, then what the writer in the critical section has sent. */
  predicate InPlace(w: Writer, output: seq<Byte>, completed: seq<seq<Byte>>)
    requires w.WaitOk?
  {
    w.i < |w.data| && output == Flatten(completed) + w.data[..w.i + 1]
  }

  /** `writers` is a mutex; each byte sent is answered by an interrupt or is the one still waited for,
      and interrupts not yet consumed are permits. */
  predicate Inv(s: Screen) {
    && s.writers + |Writing(s.calls)| == 1
    && s.interrupts + |Writing(s.calls)| == |s.output| + s.writeok
    && (forall a | a in Writing(s.calls) :: InPlace(s.calls[a], s.output, s.completed))
    && (Writing(s.calls) == {} ==> s.output == Flatten(s.completed))
  }

  lemma WritingSet(calls: map<Proc, Writer>, a: Proc, next: Writer)
    requires Writing(calls) <= {a} && next.WaitOk?
    ensures Writing(calls[a := next]) == {a} && Writing(calls - {a}) == {}
  {
  }

  lemma WritingAdded(calls: map<Proc, Writer>, a: Proc, data: seq<Byte>)
    requires a !in calls
    ensures Writing(calls[a := WaitWriters(data)]) == Writing(calls)
  {
  }

  lemma Holder(s: Screen, a: Proc)
    requires Inv(s) && a in Writing(s.calls)
    ensures s.writers == 0 && Writing(s.calls) == {a} && InPlace(s.calls[a], s.output, s.completed)
  {
    assert |Writing(s.calls)| != 0;
    Singleton(Writing(s.calls), a);
  }

  lemma SendOrFinishInv(s: Screen, a: Proc, data: seq<Byte>, i: nat)
    requires s.writers == 0 && Writing(s.calls) <= {a} && s.interrupts == |s.output| + s.writeok
    requires i <= |data| && s.output == Flatten(s.completed) + data[..i]
    ensures Inv(SendOrFinish(s, a, data, i).screen)
  {
    WritingSet(s.calls, a, WaitOk(data, i));
    if i < |data| {
      assert data[..i] + [data[i]] == data[..i + 1];
    } else {
      assert data[..i] == data;
      FlattenAppend(s.completed, data);
    }
  }

  /** Every step keeps it, interrupts that answer nothing included. */
  lemma InvStep(s: Screen, e: Event)
    requires Inv(s) && Enabled(s, e)
    ensures Inv(Apply(s, e).screen)
  {
    match e
    case Interrupt =>
    case BeginWrite(a, data) => WritingAdded(s.calls, a, data);
    case TakeWriters(a) =>
      assert Writing(s.calls) == {};
      SendOrFinishInv(s.(writers := s.writers - 1), a, s.calls[a].data, 0);
    case TakeOk(a) =>
      Holder(s, a);
      SendOrFinishInv(s.(writeok := s.writeok - 1), a, s.calls[a].data, s.calls[a].i + 1);
  }

  // ---------------------------------------------------------------- runs

  predicate Run(s: Screen, es: seq<Event>)
    decreases |es|
  {
    es == [] || (Enabled(s, es[0]) && Run(Apply(s, es[0]).screen, es[1..]))
  }

  function After(s: Screen, es: seq<Event>): Screen
    requires Run(s, es)
    decreases |es|
  {
    if es == [] then s else After(Apply(s, es[0]).screen, es[1..])
  }

  lemma {:induction false} InvRun(s: Screen, es: seq<Event>)
    requires Inv(s) && Run(s, es)
    ensures Inv(After(s, es))
    decreases |es|
  {
    if es != [] {
      InvStep(s, es[0]);
      InvRun(Apply(s, es[0]).screen, es[1..]);
    }
  }

  /** Writes are never interleaved: at every point of every run the output is the whole buffers of the
      completed writes, one after the other, and then a prefix of at most one more, whose process holds
      `writers`; and at most one byte sent has no interrupt yet. */
  lemma NeverInterleaved(es: seq<Event>)
    requires Run(NewScreen(), es)
    ensures var s := After(NewScreen(), es);
      && |s.output| - s.interrupts <= 1
      && (s.output == Flatten(s.completed)
          || exists a :: a in s.calls && s.calls[a].WaitOk? && s.calls[a].i < |s.calls[a].data|
                         && s.output == Flatten(s.completed) + s.calls[a].data[..s.calls[a].i + 1])
  {
    InvRun(NewScreen(), es);
    var s := After(NewScreen(), es);
    if Writing(s.calls) != {} {
      var a :| a in Writing(s.calls);
      assert InPlace(s.calls[a], s.output, s.completed);
    }
  }

  /** A write returns the length of its buffer, which the output then ends with, whether after the last
      interrupt or, with an empty buffer, right after the grant of `writers`; and it hands `writers` on. */
  lemma WriteReturns(s: Screen, e: Event)
    requires Inv(s) && Enabled(s, e) && (e.TakeWriters? || e.TakeOk?) && Apply(s, e).Returned?
    ensures var o, data := Apply(s, e), s.calls[e.proc].data;
      && o.value == |data| && o.screen.completed == s.completed + [data]
      && o.screen.output == Flatten(s.completed) + data
      && e.proc !in o.screen.calls && o.screen.writers == 1
  {
    if e.TakeOk? { Holder(s, e.proc); }
  }

  /** A write waits with the buffer it was asked to put out, and keeps it until it returns. */
  lemma WriteKeepsBuffer(s: Screen, e: Event, a: Proc)
    requires Enabled(s, e)
    ensures var s' := Apply(s, e).screen;
      && (e.BeginWrite? && e.proc == a ==> a in s'.calls && s'.calls[a] == WaitWriters(e.data))
      && (a in s'.calls && a in s.calls ==> s'.calls[a].data == s.calls[a].data)
      && (a in s'.calls && a !in s.calls ==> e.BeginWrite? && e.proc == a)
      && (a in s.calls && a !in s'.calls ==> (e.TakeWriters? || e.TakeOk?) && e.proc == a && Apply(s, e).Returned?)
  {
  }
}
