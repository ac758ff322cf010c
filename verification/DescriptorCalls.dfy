/** The system calls on descriptors as functions of the whole descriptor state, each with its error
    returns, and which of them keep the reference counts exact. */
module DescriptorCalls {
  import opened Base
  import opened PipeProtocol
  import opened Descriptors

  /** A call returns a value to its caller, leaves it blocked, or never returns. */
  datatype Reply = Value(value: int) | Pending | Gone

  datatype Result = Result(sys: Sys, reply: Reply)

  /** The caller has a table, all of whose slots point to `Fd` objects. */
  predicate HasTable(s: Sys, p: Proc) {
    p in s.tables && forall i | 0 <= i < |s.tables[p]| :: s.tables[p][i] in s.fds
  }

  /** The lowest slot whose object is not open, or the table's length. */
  function FirstClosed(t: seq<FdId>, fds: map<FdId, Fd>): (k: nat)
    requires forall i | 0 <= i < |t| :: t[i] in fds
    ensures k <= |t| && (k < |t| ==> !fds[t[k]].open)
    ensures forall i | 0 <= i < k :: fds[t[i]].open
  {
    if t == [] then 0
    else if !fds[t[0]].open then 0
    else FirstClosed(t[1..], fds) + 1
  }

  /** The slot is in range and open. */
  predicate Open(s: Sys, p: Proc, slot: int)
    requires HasTable(s, p)
  {
    0 <= slot < |s.tables[p]| && s.fds[s.tables[p][slot]].open
  }

  function Object(s: Sys, p: Proc, slot: int): Fd
    requires HasTable(s, p) && 0 <= slot < |s.tables[p]|
  {
    s.fds[s.tables[p][slot]]
  }

  // ---------------------------------------------------------------- do_close

  function Close(s: Sys, p: Proc, slot: int): Result
    requires HasTable(s, p)
  {
    if !Open(s, p, slot) then Result(s, Value(-EBADF))
    else if Object(s, p, slot).console then Result(s, Value(0))
    else Result(Release(s, s.tables[p][slot], true), Value(0))
  }

  lemma CloseInv(s: Sys, p: Proc, slot: int)
    requires SysInv(s) && p in s.tables && Idle(s.pipes, p)
    ensures HasTable(s, p) && SysInv(Close(s, p, slot).sys) && Close(s, p, slot).sys.tables == s.tables
  {
    if Open(s, p, slot) && !Object(s, p, slot).console {
      ReleaseInv(s, s.tables[p][slot], true);
    }
  }

  // ---------------------------------------------------------------- do_dup and do_dup2

  function Dup(s: Sys, p: Proc, source: int): Result
    requires HasTable(s, p)
  {
    if !Open(s, p, source) then Result(s, Value(-EBADF)) else
      var slot := FirstClosed(s.tables[p], s.fds);
      if slot == |s.tables[p]| then Result(s, Value(-EBADF))
      else Result(Share(s, p, slot, s.tables[p][source]), Value(slot))
  }

  /** `do_dup` dereferences the pipe of its source without asking whether it has one. */
  predicate DupRegular(s: Sys, p: Proc, source: int)
    requires HasTable(s, p)
  {
    Open(s, p, source) && FirstClosed(s.tables[p], s.fds) < |s.tables[p]| ==> !Object(s, p, source).console
  }

  lemma DupInvIff(s: Sys, p: Proc, source: int)
    requires SysInv(s) && p in s.tables
    ensures HasTable(s, p) && (SysInv(Dup(s, p, source).sys) <==> DupRegular(s, p, source))
  {
    if Open(s, p, source) {
      var slot := FirstClosed(s.tables[p], s.fds);
      if slot < |s.tables[p]| && !Object(s, p, source).console {
        ShareInv(s, p, slot, s.tables[p][source]);
      }
    }
  }

  /** What `do_dup2` does to an open target first: both counts of its pipe go down. */
  function Detach(s: Sys, f: FdId): Sys
    requires f in s.fds
  {
    var d := s.fds[f];
    if !Valid(s, d) then s.(crashed := true)
    else
      var p := s.pipes[d.pipe.value];
      s.(pipes := s.pipes[d.pipe.value := WriterDropped(ReaderExited(p))],
         fds := s.fds[f := d.(console := false, open := false, pipe := None)])
  }

  function Dup2(s: Sys, p: Proc, source: int, slot: int): Result
    requires HasTable(s, p)
  {
    if !Open(s, p, source) || slot < 0 || slot >= |s.tables[p]| then Result(s, Value(-EBADF)) else
      var s' := if Open(s, p, slot) then Detach(s, s.tables[p][slot]) else s;
      Result(Share(s', p, slot, s.tables[p][source]), Value(slot))
  }

  predicate Dup2Regular(s: Sys, p: Proc, source: int, slot: int)
    requires HasTable(s, p)
  {
    Open(s, p, source) && 0 <= slot < |s.tables[p]| ==> !Object(s, p, source).console && !Open(s, p, slot)
  }

  /** The count of an end is one short. */
  predicate Short(fds: map<FdId, Fd>, p: Pipe, q: PipeId, isRead: bool) {
    Count(p, isRead) + 1 == |Ends(fds, q, isRead)| + Dups(p, isRead)
  }

  lemma DetachedShort(s: Sys, f: FdId)
    requires SysInv(s) && f in s.fds && s.fds[f].open && !s.fds[f].console
    ensures Valid(s, s.fds[f])
    ensures var d, s1 := s.fds[f], Detach(s, f);
            var q := d.pipe.value;
            q in s1.pipes && Short(s1.fds, s1.pipes[q], q, !d.isRead)
  {
    var d := s.fds[f];
    assert Installed(d, f, s.tables, s.pipes);
    var q := d.pipe.value;
    var d' := d.(console := false, open := false, pipe := None);
    assert Accounted(s.fds, s.pipes[q], q, true) && Accounted(s.fds, s.pipes[q], q, false);
    EndsUpdated(s.fds, f, d', q, !d.isRead);
    assert f !in Ends(s.fds, q, !d.isRead);
    assert Ends(s.fds[f := d'], q, !d.isRead) == Ends(s.fds, q, !d.isRead);
  }

  lemma SharedShort(s: Sys, p: Proc, slot: int, g: FdId, q: PipeId, isRead: bool)
    requires p in s.tables && 0 <= slot < |s.tables[p]| && g in s.fds
    requires q in s.pipes && Short(s.fds, s.pipes[q], q, isRead)
    ensures var s' := Share(s, p, slot, g); q in s'.pipes && Short(s'.fds, s'.pipes[q], q, isRead)
  {
  }

  /** Onto an open target the counts go wrong: the end that the target was not loses one for nothing. */
  lemma Dup2OpenTarget(s: Sys, p: Proc, source: int, slot: int)
    requires SysInv(s) && p in s.tables
    requires HasTable(s, p) && Open(s, p, source) && Open(s, p, slot)
    ensures !SysInv(Dup2(s, p, source, slot).sys)
  {
    var f, g := s.tables[p][slot], s.tables[p][source];
    if s.fds[f].console {
      assert !Valid(s, s.fds[f]);
    } else {
      DetachedShort(s, f);
      SharedShort(Detach(s, f), p, slot, g, s.fds[f].pipe.value, !s.fds[f].isRead);
      Miscounted(Dup2(s, p, source, slot).sys, s.fds[f].pipe.value, !s.fds[f].isRead);
    }
  }

  lemma Dup2InvIff(s: Sys, p: Proc, source: int, slot: int)
    requires SysInv(s) && p in s.tables
    ensures HasTable(s, p) && (SysInv(Dup2(s, p, source, slot).sys) <==> Dup2Regular(s, p, source, slot))
  {
    if Open(s, p, source) && 0 <= slot < |s.tables[p]| {
      if Open(s, p, slot) {
        Dup2OpenTarget(s, p, source, slot);
      } else if !Object(s, p, source).console {
        ShareInv(s, p, slot, s.tables[p][source]);
      }
    }
  }

  // ---------------------------------------------------------------- do_pipe

  function Opened(d: Fd, isRead: bool, q: PipeId): Fd {
    d.(open := true, isRead := isRead, pipe := Some(q))
  }

  /** The first closed slot is opened before the second is looked for, and stays open when there is no
      second. */
  function PipeCall(s: Sys, p: Proc): Result
    requires HasTable(s, p)
  {
    var t := s.tables[p];
    var r := FirstClosed(t, s.fds);
    if r == |t| then Result(s, Value(-EMFILE)) else
      var fds := s.fds[t[r] := s.fds[t[r]].(open := true)];
      var w := FirstClosed(t, fds);
      if w == |t| then Result(s.(fds := fds), Value(-EMFILE)) else
        Result(s.(fds := fds[t[r] := Opened(fds[t[r]], true, s.nextPipe)]
                            [t[w] := Opened(fds[t[w]], false, s.nextPipe)],
                  pipes := s.pipes[s.nextPipe := NewPipe()],
                  nextPipe := s.nextPipe + 1),
               Value(0))
  }

  /** The table does not have exactly one closed object. */
  predicate PipeRegular(s: Sys, p: Proc)
    requires HasTable(s, p)
  {
    var t := s.tables[p];
    var r := FirstClosed(t, s.fds);
    r == |t| || FirstClosed(t, s.fds[t[r] := s.fds[t[r]].(open := true)]) < |t|
  }

  /** The slots `do_pipe` chooses hold different closed objects. */
  lemma PipeSlots(s: Sys, p: Proc)
    requires HasTable(s, p)
    ensures var t := s.tables[p];
            var r := FirstClosed(t, s.fds);
            r < |t| ==>
              (var w := FirstClosed(t, s.fds[t[r] := s.fds[t[r]].(open := true)]);
               w < |t| ==> t[r] != t[w] && !s.fds[t[r]].open && !s.fds[t[w]].open)
  {
  }

  /** Opening two closed objects for a pipe that nothing refers to makes them its two ends and leaves
      every other pipe's descriptors alone. */
  lemma EndsOpened(fds: map<FdId, Fd>, f: FdId, g: FdId, q: PipeId, q': PipeId, isRead: bool)
    requires f in fds && g in fds && f != g && !fds[f].open && !fds[g].open
    requires !fds[f].console && !fds[g].console
    requires forall h | h in fds :: fds[h].pipe != Some(q)
    ensures var fds' := fds[f := Opened(fds[f], true, q)][g := Opened(fds[g], false, q)];
            Ends(fds', q', isRead) == if q' == q then (if isRead then {f} else {g}) else Ends(fds, q', isRead)
  {
  }

  lemma PipeCallAt(s: Sys, f: FdId, g: FdId, q: PipeId)
    requires SysInv(s) && f in s.fds && g in s.fds && f != g && !s.fds[f].open && !s.fds[g].open
    requires q in s.pipes || q == s.nextPipe
    ensures var fds := s.fds[f := Opened(s.fds[f], true, s.nextPipe)][g := Opened(s.fds[g], false, s.nextPipe)];
            var p := if q == s.nextPipe then NewPipe() else s.pipes[q];
            && Accounted(fds, p, q, true) && Accounted(fds, p, q, false)
            && PipeInv(p) && CallsInv(fds, p, q) && !(p.r.count == 0 && p.w.count == 0)
  {
    EndsOpened(s.fds, f, g, s.nextPipe, q, true);
    EndsOpened(s.fds, f, g, s.nextPipe, q, false);
    NewPipeInv();
    if q in s.pipes {
      var p := s.pipes[q];
      assert Accounted(s.fds, p, q, true) && Accounted(s.fds, p, q, false) && CallsInv(s.fds, p, q);
      CallsOpened(s.fds, f, g, s.nextPipe, p, q);
    }
  }

  lemma CallsOpened(fds: map<FdId, Fd>, f: FdId, g: FdId, q: PipeId, p: Pipe, q': PipeId)
    requires f in fds && g in fds && !fds[f].open && !fds[g].open && CallsInv(fds, p, q')
    ensures CallsInv(fds[f := Opened(fds[f], true, q)][g := Opened(fds[g], false, q)], p, q')
  {
  }

  lemma OpenedInv(s: Sys, p: Proc, f: FdId, g: FdId)
    requires SysInv(s) && p in s.tables && f in s.tables[p] && g in s.tables[p]
    requires f in s.fds && g in s.fds && f != g && !s.fds[f].open && !s.fds[g].open
    requires s.fds[f].owner == p && s.fds[g].owner == p
    ensures SysInv(s.(fds := s.fds[f := Opened(s.fds[f], true, s.nextPipe)][g := Opened(s.fds[g], false, s.nextPipe)],
                      pipes := s.pipes[s.nextPipe := NewPipe()], nextPipe := s.nextPipe + 1))
  {
    var fds := s.fds[f := Opened(s.fds[f], true, s.nextPipe)][g := Opened(s.fds[g], false, s.nextPipe)];
    var pipes := s.pipes[s.nextPipe := NewPipe()];
    forall q | q in pipes
      ensures Accounted(fds, pipes[q], q, true) && Accounted(fds, pipes[q], q, false)
      ensures PipeInv(pipes[q]) && CallsInv(fds, pipes[q], q)
      ensures !(pipes[q].r.count == 0 && pipes[q].w.count == 0)
    {
      PipeCallAt(s, f, g, q);
    }
    OpenedOneCall(s.pipes, s.nextPipe);
    OpenedFds(s, p, f, g);
  }

  lemma OpenedOneCall(pipes: map<PipeId, Pipe>, q: PipeId)
    requires OneCall(pipes) && q !in pipes
    ensures OneCall(pipes[q := NewPipe()])
  {
  }

  lemma OpenedFds(s: Sys, p: Proc, f: FdId, g: FdId)
    requires SysInv(s) && p in s.tables && f in s.tables[p] && g in s.tables[p]
    requires f in s.fds && g in s.fds && f != g && s.fds[f].owner == p && s.fds[g].owner == p
    requires !s.fds[f].open && !s.fds[g].open
    ensures var fds := s.fds[f := Opened(s.fds[f], true, s.nextPipe)][g := Opened(s.fds[g], false, s.nextPipe)];
            && TablesInv(s.tables, fds, s.nextProc)
            && FdsInv(fds, s.tables, s.pipes[s.nextPipe := NewPipe()], s.nextFd, s.nextPipe + 1)
  {
    var fds := s.fds[f := Opened(s.fds[f], true, s.nextPipe)][g := Opened(s.fds[g], false, s.nextPipe)];
    var pipes := s.pipes[s.nextPipe := NewPipe()];
    forall h | h in fds ensures Installed(fds[h], h, s.tables, pipes) {
      assert Installed(s.fds[h], h, s.tables, s.pipes);
    }
  }

  lemma OneMoreEnd(fds: map<FdId, Fd>, f: FdId, p: Pipe, q: PipeId, isRead: bool)
    requires f in fds && !fds[f].open && Accounted(fds, p, q, isRead)
    requires Counted(fds[f].(open := true), q, isRead)
    ensures !Accounted(fds[f := fds[f].(open := true)], p, q, isRead)
  {
    EndsUpdated(fds, f, fds[f].(open := true), q, isRead);
    assert f !in Ends(fds, q, isRead);
  }

  /** Half-opening a slot leaves a descriptor that no count knows of. */
  lemma HalfOpened(s: Sys, f: FdId)
    requires SysInv(s) && f in s.fds && !s.fds[f].open
    ensures !SysInv(s.(fds := s.fds[f := s.fds[f].(open := true)]))
  {
    var d := s.fds[f].(open := true);
    var s' := s.(fds := s.fds[f := d]);
    if Installed(d, f, s.tables, s.pipes) {
      var q := d.pipe.value;
      assert Accounted(s.fds, s.pipes[q], q, true) && Accounted(s.fds, s.pipes[q], q, false);
      OneMoreEnd(s.fds, f, s.pipes[q], q, d.isRead);
      Miscounted(s', q, d.isRead);
    } else {
      assert f in s'.fds && s'.fds[f] == d;
    }
  }

  lemma Miscounted(s: Sys, q: PipeId, isRead: bool)
    requires q in s.pipes && !Accounted(s.fds, s.pipes[q], q, isRead)
    ensures !SysInv(s)
  {
  }

  lemma PipeCallInvIff(s: Sys, p: Proc)
    requires SysInv(s) && p in s.tables
    ensures HasTable(s, p) && (SysInv(PipeCall(s, p).sys) <==> PipeRegular(s, p))
  {
    var t := s.tables[p];
    var r := FirstClosed(t, s.fds);
    if r < |t| {
      var fds := s.fds[t[r] := s.fds[t[r]].(open := true)];
      var w := FirstClosed(t, fds);
      if w == |t| {
        HalfOpened(s, t[r]);
      } else {
        PipeSlots(s, p);
        assert fds[t[r] := Opened(fds[t[r]], true, s.nextPipe)][t[w] := Opened(fds[t[w]], false, s.nextPipe)]
            == s.fds[t[r] := Opened(s.fds[t[r]], true, s.nextPipe)][t[w] := Opened(s.fds[t[w]], false, s.nextPipe)];
        OpenedInv(s, p, t[r], t[w]);
      }
    }
  }

  // ---------------------------------------------------------------- do_fork

  /** One round of the slot loop: a new object for the child, copied from object `f` of the parent. */
  function ForkSlot(s: Sys, f: FdId, c: Proc): Sys
    requires f in s.fds && c in s.tables
  {
    var d, n := s.fds[f], s.nextFd;
    var s' := s.(fds := s.fds[n := d.(owner := c)], tables := s.tables[c := s.tables[c] + [n]], nextFd := n + 1);
    if d.open && !d.console then Raise(s', d, false) else s'
  }

  /** The rounds from slot `k` on; `src` is the parent's table. */
  function ForkSlots(s: Sys, src: seq<FdId>, k: nat, c: Proc): (s': Sys)
    requires c in s.tables && k <= |src| && forall i | 0 <= i < |src| :: src[i] in s.fds
    ensures c in s'.tables
    decreases |src| - k
  {
    if k == |src| then s else
      ForkSlots(ForkSlot(s, src[k], c), src, k + 1, c)
  }

  /** What a successful `do_fork` does to descriptors. */
  function Fork(s: Sys, p: Proc, c: Proc): Sys
    requires HasTable(s, p) && c !in s.tables
  {
    ForkSlots(s.(tables := s.tables[c := []], nextProc := c + 1), s.tables[p], 0, c)
  }

  /** A copied descriptor adds one to the descriptors of its end, and the loop one to the count. */
  lemma AccountedForked(fds: map<FdId, Fd>, n: FdId, d: Fd, p: Pipe, q: PipeId, isRead: bool)
    requires n !in fds && Counted(d, q, d.isRead) && Accounted(fds, p, q, isRead)
    ensures Accounted(fds[n := d], Raised(p, d.isRead, false), q, isRead)
  {
    RaisedFields(p, d.isRead, false);
    EndsUpdated(fds, n, d, q, isRead);
    assert n !in Ends(fds, q, isRead);
  }

  lemma AccountedNotForked(fds: map<FdId, Fd>, n: FdId, d: Fd, p: Pipe, q: PipeId, isRead: bool)
    requires n !in fds && !Counted(d, q, d.isRead) && Accounted(fds, p, q, isRead)
    ensures Accounted(fds[n := d], p, q, isRead)
  {
    EndsUpdated(fds, n, d, q, isRead);
    assert Ends(fds, q, isRead) - {n} == Ends(fds, q, isRead);
  }

  lemma ForkSlotAt(s: Sys, f: FdId, c: Proc, q: PipeId)
    requires SysInv(s) && f in s.fds && c in s.tables && q in s.pipes
    ensures var s' := ForkSlot(s, f, c);
      && q in s'.pipes
      && s'.pipes[q] == (if Counted(s.fds[f], q, s.fds[f].isRead) then Raised(s.pipes[q], s.fds[f].isRead, false)
                         else s.pipes[q])
      && Accounted(s.fds[s.nextFd := s.fds[f].(owner := c)], s'.pipes[q], q, true)
      && Accounted(s.fds[s.nextFd := s.fds[f].(owner := c)], s'.pipes[q], q, false)
  {
    var d, p := s.fds[f].(owner := c), s.pipes[q];
    assert Installed(s.fds[f], f, s.tables, s.pipes) && s.nextFd !in s.fds;
    assert Accounted(s.fds, p, q, true) && Accounted(s.fds, p, q, false);
    if Counted(d, q, d.isRead) {
      AccountedForked(s.fds, s.nextFd, d, p, q, true);
      AccountedForked(s.fds, s.nextFd, d, p, q, false);
    } else {
      AccountedNotForked(s.fds, s.nextFd, d, p, q, true);
      AccountedNotForked(s.fds, s.nextFd, d, p, q, false);
    }
  }

  /** Raising an end that has an open descriptor. */
  lemma ForkSlotPipe(s: Sys, f: FdId, q: PipeId)
    requires SysInv(s) && f in s.fds && q in s.pipes && Counted(s.fds[f], q, s.fds[f].isRead)
    ensures var p' := Raised(s.pipes[q], s.fds[f].isRead, false);
      && PipeInv(p') && !(p'.r.count == 0 && p'.w.count == 0)
      && p'.w.calls == s.pipes[q].w.calls && p'.r.calls == s.pipes[q].r.calls
  {
    var p := s.pipes[q];
    assert Accounted(s.fds, p, q, true) && Accounted(s.fds, p, q, false) && PipeInv(p);
    CountPositive(s.fds, p, q, f);
    RaisedInv(p, s.fds[f].isRead, false);
  }

  lemma GrownTables(tables: map<Proc, seq<FdId>>, fds: map<FdId, Fd>, nextProc: Proc, c: Proc, n: FdId, d: Fd)
    requires TablesInv(tables, fds, nextProc) && c in tables && |tables[c]| < SLOTS && n !in fds && d.owner == c
    ensures TablesInv(tables[c := tables[c] + [n]], fds[n := d], nextProc)
  {
  }

  lemma ForkSlotShape(s: Sys, f: FdId, c: Proc)
    requires f in s.fds && c in s.tables && Installed(s.fds[f], f, s.tables, s.pipes)
    ensures var s' := ForkSlot(s, f, c);
      && s'.pipes.Keys == s.pipes.Keys
      && s' == s.(fds := s.fds[s.nextFd := s.fds[f].(owner := c)], pipes := s'.pipes,
                  tables := s.tables[c := s.tables[c] + [s.nextFd]], nextFd := s.nextFd + 1)
  {
  }

  lemma ForkSlotFds(s: Sys, f: FdId, c: Proc)
    requires TablesInv(s.tables, s.fds, s.nextProc) && FdsInv(s.fds, s.tables, s.pipes, s.nextFd, s.nextPipe)
    requires f in s.fds && c in s.tables && |s.tables[c]| < SLOTS
    ensures var s' := ForkSlot(s, f, c);
      && TablesInv(s'.tables, s'.fds, s'.nextProc)
      && FdsInv(s'.fds, s'.tables, s'.pipes, s'.nextFd, s'.nextPipe)
  {
    ForkSlotShape(s, f, c);
    assert s.nextFd !in s.fds;
    GrownTables(s.tables, s.fds, s.nextProc, c, s.nextFd, s.fds[f].(owner := c));
    GrownFds(s.fds, s.tables, s.pipes, ForkSlot(s, f, c).pipes, s.nextFd, s.nextPipe, c, f);
  }

  lemma GrownFds(fds: map<FdId, Fd>, tables: map<Proc, seq<FdId>>, pipes: map<PipeId, Pipe>, pipes': map<PipeId, Pipe>,
                 nextFd: FdId, nextPipe: PipeId, c: Proc, f: FdId)
    requires FdsInv(fds, tables, pipes, nextFd, nextPipe) && c in tables && f in fds && pipes'.Keys == pipes.Keys
    ensures FdsInv(fds[nextFd := fds[f].(owner := c)], tables[c := tables[c] + [nextFd]], pipes', nextFd + 1, nextPipe)
  {
  }

  lemma CallsAdded(fds: map<FdId, Fd>, n: FdId, d: Fd, p: Pipe, p': Pipe, q: PipeId)
    requires n !in fds && CallsInv(fds, p, q) && p'.w.calls == p.w.calls && p'.r.calls == p.r.calls
    ensures CallsInv(fds[n := d], p', q)
  {
  }

  lemma ForkSlotInv(s: Sys, f: FdId, c: Proc)
    requires SysInv(s) && f in s.fds && c in s.tables && |s.tables[c]| < SLOTS
    ensures var s' := ForkSlot(s, f, c);
      && SysInv(s') && SameInside(s.pipes, s'.pipes)
      && s' == s.(fds := s.fds[s.nextFd := s.fds[f].(owner := c)], pipes := s'.pipes,
                  tables := s.tables[c := s.tables[c] + [s.nextFd]], nextFd := s.nextFd + 1)
  {
    var s' := ForkSlot(s, f, c);
    ForkSlotFds(s, f, c);
    ForkSlotShape(s, f, c);
    forall q | q in s'.pipes
      ensures Accounted(s'.fds, s'.pipes[q], q, true) && Accounted(s'.fds, s'.pipes[q], q, false)
      ensures !(s'.pipes[q].r.count == 0 && s'.pipes[q].w.count == 0)
      ensures PipeInv(s'.pipes[q]) && CallsInv(s'.fds, s'.pipes[q], q)
      ensures s'.pipes[q].w.calls == s.pipes[q].w.calls && s'.pipes[q].r.calls == s.pipes[q].r.calls
    {
      ForkSlotAt(s, f, c, q);
      if Counted(s.fds[f], q, s.fds[f].isRead) { ForkSlotPipe(s, f, q); }
      assert CallsInv(s.fds, s.pipes[q], q) && s.nextFd !in s.fds;
      CallsAdded(s.fds, s.nextFd, s.fds[f].(owner := c), s.pipes[q], s'.pipes[q], q);
    }
    SameInsideOneCall(s.pipes, s'.pipes);
  }

  lemma {:induction false} ForkSlotsInv(s: Sys, src: seq<FdId>, k: nat, c: Proc)
    requires SysInv(s) && c in s.tables && k <= |src| <= SLOTS && |s.tables[c]| == k
    requires forall i | 0 <= i < |src| :: src[i] in s.fds
    ensures SysInv(ForkSlots(s, src, k, c)) && SameInside(s.pipes, ForkSlots(s, src, k, c).pipes)
    decreases |src| - k
  {
    if k < |src| {
      ForkSlotInv(s, src[k], c);
      ForkSlotsInv(ForkSlot(s, src[k], c), src, k + 1, c);
      SameInsideTrans(s.pipes, ForkSlot(s, src[k], c).pipes, ForkSlots(s, src, k, c).pipes);
    }
  }

  /** Slot `i` of the child's table, for the slots copied from `k` on: a new object, equal to the
      parent's but for its owner. */
  predicate Copied(s: Sys, src: seq<FdId>, s': Sys, c: Proc, k: nat, i: nat)
    requires c in s'.tables && i < |s'.tables[c]| && k <= i < |src| && src[i] in s.fds
  {
    var g := s'.tables[c][i];
    g == s.nextFd + (i - k) && g in s'.fds && s'.fds[g] == s.fds[src[i]].(owner := c)
  }

  predicate Extends(s: Sys, s': Sys, c: Proc) {
    && s'.tables.Keys == s.tables.Keys && (forall p | p in s.tables && p != c :: s'.tables[p] == s.tables[p])
    && (forall g | g in s.fds :: g in s'.fds && s'.fds[g] == s.fds[g])
    && s'.nextProc == s.nextProc
  }

  lemma ForkSlotExtends(s: Sys, f: FdId, c: Proc)
    requires f in s.fds && c in s.tables && s.nextFd !in s.fds
    ensures var s' := ForkSlot(s, f, c);
      && Extends(s, s', c) && s'.nextFd == s.nextFd + 1 && s'.tables[c] == s.tables[c] + [s.nextFd]
      && s'.fds == s.fds[s.nextFd := s.fds[f].(owner := c)]
  {
  }

  /** The child's table after the loop; every older object and every other table is as before. */
  lemma {:induction false} ForkSlotsCopy(s: Sys, src: seq<FdId>, k: nat, c: Proc)
    requires c in s.tables && k <= |src| && |s.tables[c]| == k
    requires forall i | 0 <= i < |src| :: src[i] in s.fds
    requires forall g | g in s.fds :: g < s.nextFd
    ensures var s' := ForkSlots(s, src, k, c);
      && Extends(s, s', c) && |s'.tables[c]| == |src| && s.tables[c] <= s'.tables[c]
      && (forall i | k <= i < |src| :: Copied(s, src, s', c, k, i))
    decreases |src| - k
  {
    if k < |src| {
      var s1 := ForkSlot(s, src[k], c);
      ForkSlotExtends(s, src[k], c);
      ForkSlotsCopy(s1, src, k + 1, c);
      var s' := ForkSlots(s, src, k, c);
      assert s'.tables[c][k] == s1.tables[c][k];
      forall i | k <= i < |src| ensures Copied(s, src, s', c, k, i) {
        if i > k { assert Copied(s1, src, s', c, k + 1, i); }
      }
    }
  }

  lemma EmptyTableInv(s: Sys, c: Proc)
    requires SysInv(s) && c == s.nextProc
    ensures c !in s.tables && SysInv(s.(tables := s.tables[c := []], nextProc := c + 1))
  {
    var tables := s.tables[c := []];
    assert c !in s.tables;
    forall f | f in s.fds ensures Installed(s.fds[f], f, tables, s.pipes) {
      assert Installed(s.fds[f], f, s.tables, s.pipes);
    }
  }

  lemma ForkInv(s: Sys, p: Proc)
    requires SysInv(s) && p in s.tables
    ensures HasTable(s, p) && s.nextProc !in s.tables
    ensures var s' := Fork(s, p, s.nextProc);
      && SysInv(s') && SameInside(s.pipes, s'.pipes)
  {
    EmptyTableInv(s, s.nextProc);
    ForkSlotsInv(s.(tables := s.tables[s.nextProc := []], nextProc := s.nextProc + 1), s.tables[p], 0, s.nextProc);
  }

  /** Fork gives the child a table of the same length whose slots hold new objects, each equal to the
      parent's at that slot but for its owner, and changes no table and no object there was. */
  lemma ForkCopies(s: Sys, p: Proc)
    requires SysInv(s) && p in s.tables
    ensures HasTable(s, p) && s.nextProc !in s.tables
    ensures var c := s.nextProc;
            var s' := Fork(s, p, c);
      && s'.tables.Keys == s.tables.Keys + {c} && (forall a | a in s.tables :: s'.tables[a] == s.tables[a])
      && (forall g | g in s.fds :: g in s'.fds && s'.fds[g] == s.fds[g])
      && |s'.tables[c]| == |s.tables[p]| && s'.nextProc == c + 1
      && (forall i | 0 <= i < |s.tables[p]| :: Copied(s, s.tables[p], s', c, 0, i) && s'.tables[c][i] !in s.fds)
  {
    var c := s.nextProc;
    var s0 := s.(tables := s.tables[c := []], nextProc := c + 1);
    EmptyTableInv(s, c);
    ForkSlotsCopy(s0, s.tables[p], 0, c);
    var s' := Fork(s, p, c);
    assert Extends(s0, s', c);
    forall i | 0 <= i < |s.tables[p]|
      ensures Copied(s, s.tables[p], s', c, 0, i) && s'.tables[c][i] !in s.fds
    {
      assert Copied(s0, s.tables[p], s', c, 0, i);
    }
  }

  // ---------------------------------------------------------------- do_exit

  /** One round of the closing loop. */
  function ExitSlot(s: Sys, f: FdId): Sys
    requires f in s.fds
  {
    if s.fds[f].open && !s.fds[f].console then Release(s, f, false) else s
  }

  function ExitSlots(s: Sys, t: seq<FdId>, k: nat): Sys
    requires k <= |t| && forall i | 0 <= i < |t| :: t[i] in s.fds
    decreases |t| - k
  {
    if k == |t| then s else ExitSlots(ExitSlot(s, t[k]), t, k + 1)
  }

  function Exit(s: Sys, p: Proc): Sys
    requires HasTable(s, p)
  {
    var s' := ExitSlots(s, s.tables[p], 0);
    s'.(tables := s'.tables - {p})
  }

  /** `s'` differs from `s` only in that descriptors of `p` may have been closed, and in pipes. */
  predicate OnlyCloses(s: Sys, s': Sys, p: Proc) {
    && s' == s.(fds := s'.fds, pipes := s'.pipes) && s'.fds.Keys == s.fds.Keys
    && (forall g | g in s.fds :: s'.fds[g] == s.fds[g] || s'.fds[g] == s.fds[g].(open := false))
    && (forall g | g in s.fds && s.fds[g].owner != p :: s'.fds[g] == s.fds[g])
  }

  predicate Shut(d: Fd) { !d.open || d.console }

  lemma ReleaseOnlyCloses(s: Sys, f: FdId)
    requires f in s.fds && Valid(s, s.fds[f])
    ensures OnlyCloses(s, Release(s, f, false), s.fds[f].owner) && Shut(Release(s, f, false).fds[f])
  {
  }

  lemma ExitSlotInv(s: Sys, f: FdId)
    requires SysInv(s) && f in s.fds && Idle(s.pipes, s.fds[f].owner)
    ensures SysInv(ExitSlot(s, f)) && SameInside(s.pipes, ExitSlot(s, f).pipes)
    ensures OnlyCloses(s, ExitSlot(s, f), s.fds[f].owner) && Shut(ExitSlot(s, f).fds[f])
  {
    if !Shut(s.fds[f]) {
      ReleaseInv(s, f, false);
      assert Installed(s.fds[f], f, s.tables, s.pipes);
      ReleaseOnlyCloses(s, f);
    }
  }

  lemma OnlyClosesTrans(s: Sys, s1: Sys, s2: Sys, p: Proc)
    requires OnlyCloses(s, s1, p) && OnlyCloses(s1, s2, p)
    ensures OnlyCloses(s, s2, p)
  {
  }

  lemma {:induction false} ExitSlotsInv(s: Sys, t: seq<FdId>, k: nat, p: Proc)
    requires SysInv(s) && k <= |t| && Idle(s.pipes, p)
    requires forall i | 0 <= i < |t| :: t[i] in s.fds && s.fds[t[i]].owner == p
    ensures SysInv(ExitSlots(s, t, k)) && SameInside(s.pipes, ExitSlots(s, t, k).pipes)
    ensures OnlyCloses(s, ExitSlots(s, t, k), p)
    decreases |t| - k
  {
    if k < |t| {
      var s1 := ExitSlot(s, t[k]);
      ExitSlotInv(s, t[k]);
      SameInsideIdle(s.pipes, s1.pipes, p);
      ExitSlotsInv(s1, t, k + 1, p);
      OnlyClosesTrans(s, s1, ExitSlots(s, t, k), p);
      SameInsideTrans(s.pipes, s1.pipes, ExitSlots(s, t, k).pipes);
    }
  }

  lemma ShutKept(s: Sys, s': Sys, p: Proc, g: FdId)
    requires OnlyCloses(s, s', p) && g in s.fds
    ensures g in s'.fds && s'.fds[g].owner == s.fds[g].owner && (Shut(s.fds[g]) ==> Shut(s'.fds[g]))
  {
  }

  /** Every object of the table from slot `k` on ends closed. */
  lemma {:induction false} ExitSlotsShut(s: Sys, t: seq<FdId>, k: nat, p: Proc, i: nat)
    requires SysInv(s) && k <= i < |t| && Idle(s.pipes, p)
    requires forall j | 0 <= j < |t| :: t[j] in s.fds && s.fds[t[j]].owner == p
    ensures t[i] in ExitSlots(s, t, k).fds && Shut(ExitSlots(s, t, k).fds[t[i]])
    decreases i - k
  {
    var s1 := ExitSlot(s, t[k]);
    ExitSlotInv(s, t[k]);
    SameInsideIdle(s.pipes, s1.pipes, p);
    forall j | 0 <= j < |t| ensures t[j] in s1.fds && s1.fds[t[j]].owner == p {
      ShutKept(s, s1, p, t[j]);
    }
    if i == k {
      ExitSlotsInv(s1, t, k + 1, p);
      ShutKept(s1, ExitSlots(s1, t, k + 1), p, t[i]);
    } else {
      ExitSlotsShut(s1, t, k + 1, p, i);
    }
  }

  lemma ExitShuts(s: Sys, p: Proc, g: FdId)
    requires SysInv(s) && p in s.tables && HasTable(s, p) && Idle(s.pipes, p)
    requires g in s.fds && s.fds[g].owner == p
    ensures var s' := ExitSlots(s, s.tables[p], 0); g in s'.fds && Shut(s'.fds[g])
  {
    ExitSlotsInv(s, s.tables[p], 0, p);
    assert Installed(s.fds[g], g, s.tables, s.pipes);
    if g in s.tables[p] {
      var i :| 0 <= i < |s.tables[p]| && s.tables[p][i] == g;
      ExitSlotsShut(s, s.tables[p], 0, p, i);
    }
  }

  lemma WithoutTable(s: Sys, p: Proc)
    requires SysInv(s) && forall g | g in s.fds && s.fds[g].owner == p :: Shut(s.fds[g])
    ensures SysInv(s.(tables := s.tables - {p}))
  {
    var tables := s.tables - {p};
    forall g | g in s.fds ensures Installed(s.fds[g], g, tables, s.pipes) {
      assert Installed(s.fds[g], g, s.tables, s.pipes);
    }
  }

  /** After an exit no descriptor of the process is open on a pipe, and every other is as it was. */
  lemma ExitInv(s: Sys, p: Proc)
    requires SysInv(s) && p in s.tables && Idle(s.pipes, p)
    ensures HasTable(s, p)
    ensures var s' := Exit(s, p);
      && SysInv(s') && s'.tables == s.tables - {p} && s'.nextProc == s.nextProc
      && SameInside(s.pipes, s'.pipes)
      && (forall g | g in s.fds && s.fds[g].owner != p :: g in s'.fds && s'.fds[g] == s.fds[g])
      && (forall g | g in s'.fds && s'.fds[g].owner == p :: Shut(s'.fds[g]))
  {
    var s1 := ExitSlots(s, s.tables[p], 0);
    ExitSlotsInv(s, s.tables[p], 0, p);
    forall g | g in s1.fds && s1.fds[g].owner == p ensures Shut(s1.fds[g]) {
      ExitShuts(s, p, g);
    }
    WithoutTable(s1, p);
  }

  // ---------------------------------------------------------------- do_write and do_read on a pipe

  /** A segment's effect on pipe `q`, and its reply. */
  function FromOutcome(s: Sys, q: PipeId, o: Outcome): Result {
    Result(s.(pipes := s.pipes[q := o.pipe]), if o.Blocked? then Pending else Value(o.value))
  }

  function Write(s: Sys, p: Proc, slot: int, data: seq<Byte>): Result
    requires HasTable(s, p)
  {
    if !Open(s, p, slot) || Object(s, p, slot).isRead then Result(s, Value(-EBADF))
    else if !Valid(s, Object(s, p, slot)) then Result(s.(crashed := true), Pending)
    else
      var q := Object(s, p, slot).pipe.value;
      FromOutcome(s, q, BeginWriteSegment(s.pipes[q], p, s.tables[p][slot], data))
  }

  function Read(s: Sys, p: Proc, slot: int, n: nat): Result
    requires HasTable(s, p)
  {
    if !Open(s, p, slot) || !Object(s, p, slot).isRead then Result(s, Value(-EBADF))
    else if !Valid(s, Object(s, p, slot)) then Result(s.(crashed := true), Pending)
    else
      var q := Object(s, p, slot).pipe.value;
      FromOutcome(s, q, BeginReadSegment(s.pipes[q], p, s.tables[p][slot], n))
  }

  /** The steps of a pipe that belong to a call on it. */
  predicate Begins(e: PipeProtocol.Event) { e.BeginWrite? || e.BeginRead? }

  predicate Takes(e: PipeProtocol.Event) { e.TakeWrite? || e.TakeSpace? || e.TakeRead? || e.TakeElement? }

  predicate SameCounts(p: Pipe, p': Pipe) {
    && p'.r.count == p.r.count && p'.w.count == p.w.count && p'.r.dups == p.r.dups && p'.w.dups == p.w.dups
  }

  /** Process `a` is inside as it was, in a call with the same arguments. */
  predicate Carried(p: Pipe, p': Pipe, a: Proc) {
    && (a in p'.w.calls ==>
          a in p.w.calls && p'.w.calls[a].fd == p.w.calls[a].fd && p'.w.calls[a].data == p.w.calls[a].data)
    && (a in p'.r.calls ==>
          a in p.r.calls && p'.r.calls[a].fd == p.r.calls[a].fd && p'.r.calls[a].n == p.r.calls[a].n)
  }

  /** Nobody new is inside. */
  ghost predicate NobodyNew(p: Pipe, p': Pipe) {
    forall a :: Carried(p, p', a)
  }

  lemma StoreOrFinishFrame(p: Pipe, a: Proc, next: Writer)
    requires next.WaitSpace? && a in p.w.calls && next.fd == p.w.calls[a].fd && next.data == p.w.calls[a].data
    ensures SameCounts(p, StoreOrFinish(p, a, next).pipe) && NobodyNew(p, StoreOrFinish(p, a, next).pipe)
  {
  }

  lemma AwaitOrFinishFrame(p: Pipe, a: Proc, next: Reader)
    requires next.WaitElement? && a in p.r.calls && next.fd == p.r.calls[a].fd && next.n == p.r.calls[a].n
    ensures SameCounts(p, AwaitOrFinish(p, a, next).pipe) && NobodyNew(p, AwaitOrFinish(p, a, next).pipe)
  {
  }

  /** The segments of a call change no count and bring nobody in. */
  lemma TakesFrame(p: Pipe, e: PipeProtocol.Event)
    requires Enabled(p, e) && Takes(e)
    ensures SameCounts(p, Apply(p, e).pipe) && NobodyNew(p, Apply(p, e).pipe)
  {
    match e
    case TakeWrite(a) => StoreOrFinishFrame(p.(w := p.w.(mutex := p.w.mutex - 1)), a, First(p.w, a));
    case TakeSpace(a) => if p.r.count != 0 { StoreOrFinishFrame(Announced(p, a), a, Next(p.w.calls[a])); }
    case TakeRead(a) => AwaitOrFinishFrame(p.(r := p.r.(mutex := p.r.mutex - 1)), a,
                                           WaitElement(p.r.calls[a].fd, p.r.calls[a].n, p.r.head, []));
    case TakeElement(a, wild) => TakeElementFrame(p, a, wild);
  }

  lemma TakeElementFrame(p: Pipe, a: Proc, wild: Byte)
    requires CanTakeElement(p, a)
    ensures SameCounts(p, TakeElementSegment(p, a, wild).pipe) && NobodyNew(p, TakeElementSegment(p, a, wild).pipe)
  {
  }

  /** Such a step is made by a process already inside the pipe, or by an idle one on its own open
      descriptor for that end. */
  predicate Legal(s: Sys, q: PipeId, e: PipeProtocol.Event)
    requires q in s.pipes
  {
    && Enabled(s.pipes[q], e) && (Begins(e) || Takes(e))
    && (Begins(e) ==> Idle(s.pipes, e.proc) && Uses(s.fds, e.proc, e.fd, q, e.BeginRead?))
  }

  lemma StepPipe(s: Sys, q: PipeId, e: PipeProtocol.Event)
    requires q in s.pipes && Legal(s, q, e) && CallsInv(s.fds, s.pipes[q], q) && PipeInv(s.pipes[q])
    ensures PipeInv(Apply(s.pipes[q], e).pipe) && CallsInv(s.fds, Apply(s.pipes[q], e).pipe, q)
    ensures SameCounts(s.pipes[q], Apply(s.pipes[q], e).pipe)
    ensures forall a | Inside(Apply(s.pipes[q], e).pipe, a) :: Inside(s.pipes[q], a) || (Begins(e) && a == e.proc)
  {
    InvStep(s.pipes[q], e);
    if Takes(e) {
      TakesFrame(s.pipes[q], e);
      CarriedCalls(s.fds, s.pipes[q], Apply(s.pipes[q], e).pipe, q);
    }
  }

  lemma CarriedCalls(fds: map<FdId, Fd>, p: Pipe, p': Pipe, q: PipeId)
    requires CallsInv(fds, p, q) && NobodyNew(p, p')
    ensures CallsInv(fds, p', q) && forall a | Inside(p', a) :: Inside(p, a)
  {
    forall a | Inside(p', a) ensures Inside(p, a) { assert Carried(p, p', a); }
    forall a | a in p'.w.calls ensures Uses(fds, a, p'.w.calls[a].fd, q, false) { assert Carried(p, p', a); }
    forall a | a in p'.r.calls ensures Uses(fds, a, p'.r.calls[a].fd, q, true) { assert Carried(p, p', a); }
  }

  lemma StepOneCall(pipes: map<PipeId, Pipe>, q: PipeId, p': Pipe, e: PipeProtocol.Event)
    requires q in pipes && OneCall(pipes) && (Begins(e) ==> Idle(pipes, e.proc))
    requires forall a | Inside(p', a) :: Inside(pipes[q], a) || (Begins(e) && a == e.proc)
    ensures OneCall(pipes[q := p'])
  {
  }

  lemma CountsUpdated(fds: map<FdId, Fd>, pipes: map<PipeId, Pipe>, nextPipe: PipeId, q: PipeId, p': Pipe)
    requires q in pipes && CountsInv(fds, pipes, nextPipe) && SameCounts(pipes[q], p')
    ensures CountsInv(fds, pipes[q := p'], nextPipe)
  {
  }

  lemma PipesUpdated(fds: map<FdId, Fd>, pipes: map<PipeId, Pipe>, q: PipeId, p': Pipe)
    requires q in pipes && PipesInv(fds, pipes) && PipeInv(p') && CallsInv(fds, p', q)
    ensures PipesInv(fds, pipes[q := p'])
  {
  }

  lemma SwapPipe(s: Sys, q: PipeId, p': Pipe, e: PipeProtocol.Event)
    requires SysInv(s) && q in s.pipes && PipeInv(p') && CallsInv(s.fds, p', q) && SameCounts(s.pipes[q], p')
    requires Begins(e) ==> Idle(s.pipes, e.proc)
    requires forall a | Inside(p', a) :: Inside(s.pipes[q], a) || (Begins(e) && a == e.proc)
    ensures SysInv(s.(pipes := s.pipes[q := p']))
  {
    CountsUpdated(s.fds, s.pipes, s.nextPipe, q, p');
    PipesUpdated(s.fds, s.pipes, q, p');
    StepOneCall(s.pipes, q, p', e);
    SameKeys(s, s.pipes[q := p']);
  }

  lemma StepInv(s: Sys, q: PipeId, e: PipeProtocol.Event)
    requires SysInv(s) && q in s.pipes && Legal(s, q, e)
    ensures SysInv(FromOutcome(s, q, Apply(s.pipes[q], e)).sys)
  {
    StepPipe(s, q, e);
    SwapPipe(s, q, Apply(s.pipes[q], e).pipe, e);
  }

  lemma SameKeys(s: Sys, pipes: map<PipeId, Pipe>)
    requires FdsInv(s.fds, s.tables, s.pipes, s.nextFd, s.nextPipe) && pipes.Keys == s.pipes.Keys
    ensures FdsInv(s.fds, s.tables, pipes, s.nextFd, s.nextPipe)
  {
  }

  /** A call by an idle process on its open pipe descriptor finds its pipe and has room on it. */
  lemma BeginLegal(s: Sys, p: Proc, slot: int)
    requires SysInv(s) && p in s.tables && HasTable(s, p) && Idle(s.pipes, p)
    requires Open(s, p, slot) && !Object(s, p, slot).console
    ensures Valid(s, Object(s, p, slot))
    ensures var d := Object(s, p, slot);
            var q, f := d.pipe.value, s.tables[p][slot];
      && Uses(s.fds, p, f, q, d.isRead) && !Inside(s.pipes[q], p)
      && (if d.isRead then |s.pipes[q].r.calls| < s.pipes[q].r.count else |s.pipes[q].w.calls| < s.pipes[q].w.count)
  {
    var d, f := Object(s, p, slot), s.tables[p][slot];
    assert Installed(d, f, s.tables, s.pipes);
    var q := d.pipe.value;
    var r := s.pipes[q];
    assert Accounted(s.fds, r, q, true) && Accounted(s.fds, r, q, false) && CallsInv(s.fds, r, q);
    assert !Inside(r, p);
    if d.isRead { RoomToRead(s.fds, r, q, f); } else { RoomToWrite(s.fds, r, q, f); }
  }

  lemma WriteInvs(s: Sys, p: Proc, slot: int, data: seq<Byte>)
    requires SysInv(s) && p in s.tables && HasTable(s, p) && Idle(s.pipes, p)
    requires Open(s, p, slot) ==> !Object(s, p, slot).console
    ensures SysInv(Write(s, p, slot, data).sys)
  {
    if Open(s, p, slot) && !Object(s, p, slot).isRead {
      BeginLegal(s, p, slot);
      StepInv(s, Object(s, p, slot).pipe.value, BeginWrite(p, s.tables[p][slot], data));
    }
  }

  lemma ReadInvs(s: Sys, p: Proc, slot: int, n: nat)
    requires SysInv(s) && p in s.tables && HasTable(s, p) && Idle(s.pipes, p)
    requires Open(s, p, slot) ==> !Object(s, p, slot).console
    ensures SysInv(Read(s, p, slot, n).sys)
  {
    if Open(s, p, slot) && Object(s, p, slot).isRead {
      BeginLegal(s, p, slot);
      StepInv(s, Object(s, p, slot).pipe.value, BeginRead(p, s.tables[p][slot], n));
    }
  }
}
