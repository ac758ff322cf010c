/** The descriptor tables of every process, the `Fd` objects their slots point to and the pipes those
    refer to: `do_pipe`, `do_close`, `do_dup`, `do_dup2`, and what `do_fork` and `do_exit` do to
    descriptors. */
module Descriptors {
  import opened Base
  import opened PipeProtocol

  const SLOTS: nat := 64

  /** `struct Fd`, with the process whose table it was made for. */
  datatype Fd = Fd(console: bool, open: bool, isRead: bool, pipe: Option<PipeId>, owner: Proc)

  /** Two slots may hold the same object, so tables hold names of `Fd` objects. `pipes` holds the
      allocated pipes: `free` removes one, and a dereference of anything else sets `crashed`. */
  datatype Sys = Sys(tables: map<Proc, seq<FdId>>, fds: map<FdId, Fd>, pipes: map<PipeId, Pipe>,
                     nextProc: Proc, nextFd: FdId, nextPipe: PipeId, crashed: bool)

  // ---------------------------------------------------------------- counting

  /** The descriptor is an open end of pipe `q`. */
  predicate Counted(d: Fd, q: PipeId, isRead: bool) {
    d.open && !d.console && d.isRead == isRead && d.pipe == Some(q)
  }

  function Ends(fds: map<FdId, Fd>, q: PipeId, isRead: bool): set<FdId> {
    set f | f in fds && Counted(fds[f], q, isRead)
  }

  function Count(p: Pipe, isRead: bool): int { if isRead then p.r.count else p.w.count }

  function Dups(p: Pipe, isRead: bool): nat { if isRead then p.r.dups else p.w.dups }

  /** The reference count of an end is the number of open `Fd` objects for it, over all processes, plus
      the number of `dup` calls made on it. */
  predicate Accounted(fds: map<FdId, Fd>, p: Pipe, q: PipeId, isRead: bool) {
    Count(p, isRead) == |Ends(fds, q, isRead)| + Dups(p, isRead)
  }

  lemma EndsUpdated(fds: map<FdId, Fd>, f: FdId, d: Fd, q: PipeId, isRead: bool)
    ensures Ends(fds[f := d], q, isRead)
         == if Counted(d, q, isRead) then Ends(fds, q, isRead) + {f} else Ends(fds, q, isRead) - {f}
  {
  }

  // ---------------------------------------------------------------- the invariant

  predicate TablesInv(tables: map<Proc, seq<FdId>>, fds: map<FdId, Fd>, nextProc: Proc) {
    forall p | p in tables ::
      && p < nextProc && |tables[p]| <= SLOTS
      && forall i | 0 <= i < |tables[p]| :: tables[p][i] in fds && fds[tables[p][i]].owner == p
  }

  /** An open pipe descriptor sits in the table of a live process and its pipe is allocated. */
  predicate Installed(d: Fd, f: FdId, tables: map<Proc, seq<FdId>>, pipes: map<PipeId, Pipe>) {
    d.open && !d.console ==>
      && d.pipe.Some? && d.pipe.value in pipes
      && d.owner in tables && f in tables[d.owner]
  }

  predicate FdsInv(fds: map<FdId, Fd>, tables: map<Proc, seq<FdId>>, pipes: map<PipeId, Pipe>,
                   nextFd: FdId, nextPipe: PipeId) {
    forall f | f in fds ::
      && f < nextFd && (fds[f].console ==> fds[f].open && fds[f].pipe == None)
      && (fds[f].pipe.Some? ==> fds[f].pipe.value < nextPipe)
      && Installed(fds[f], f, tables, pipes)
  }

  predicate CountsInv(fds: map<FdId, Fd>, pipes: map<PipeId, Pipe>, nextPipe: PipeId) {
    forall q | q in pipes ::
      && q < nextPipe && Accounted(fds, pipes[q], q, true) && Accounted(fds, pipes[q], q, false)
      && !(pipes[q].r.count == 0 && pipes[q].w.count == 0)
  }

  /** The descriptor a call in progress was made on: its process's own, open, for that end. */
  predicate Uses(fds: map<FdId, Fd>, a: Proc, f: FdId, q: PipeId, isRead: bool) {
    f in fds && Counted(fds[f], q, isRead) && fds[f].owner == a
  }

  predicate CallsInv(fds: map<FdId, Fd>, p: Pipe, q: PipeId) {
    && (forall a | a in p.w.calls :: Uses(fds, a, p.w.calls[a].fd, q, false))
    && (forall a | a in p.r.calls :: Uses(fds, a, p.r.calls[a].fd, q, true))
  }

  predicate PipesInv(fds: map<FdId, Fd>, pipes: map<PipeId, Pipe>) {
    forall q | q in pipes :: PipeInv(pipes[q]) && CallsInv(fds, pipes[q], q)
  }

  /** Nobody is inside two pipes. */
  ghost predicate OneCall(pipes: map<PipeId, Pipe>) {
    forall a, q, q' :: q in pipes && q' in pipes && Inside(pipes[q], a) && Inside(pipes[q'], a) ==> q == q'
  }

  ghost predicate SysInv(s: Sys) {
    && TablesInv(s.tables, s.fds, s.nextProc)
    && FdsInv(s.fds, s.tables, s.pipes, s.nextFd, s.nextPipe)
    && CountsInv(s.fds, s.pipes, s.nextPipe)
    && PipesInv(s.fds, s.pipes)
    && OneCall(s.pipes)
    && !s.crashed
  }

  /** `p` is not blocked inside a pipe. */
  predicate Idle(pipes: map<PipeId, Pipe>, p: Proc) {
    forall q | q in pipes :: !Inside(pipes[q], p)
  }

  /** The pipes of `pipes'` were there before, with the same processes inside. */
  predicate SameInside(pipes: map<PipeId, Pipe>, pipes': map<PipeId, Pipe>) {
    forall q | q in pipes' ::
      q in pipes && pipes'[q].w.calls == pipes[q].w.calls && pipes'[q].r.calls == pipes[q].r.calls
  }

  lemma SameInsideOneCall(pipes: map<PipeId, Pipe>, pipes': map<PipeId, Pipe>)
    requires OneCall(pipes) && SameInside(pipes, pipes')
    ensures OneCall(pipes')
  {
    forall a, q, q' | q in pipes' && q' in pipes' && Inside(pipes'[q], a) && Inside(pipes'[q'], a)
      ensures q == q'
    {
      assert Inside(pipes[q], a) && Inside(pipes[q'], a);
    }
  }

  lemma SameInsideIdle(pipes: map<PipeId, Pipe>, pipes': map<PipeId, Pipe>, a: Proc)
    requires SameInside(pipes, pipes') && Idle(pipes, a)
    ensures Idle(pipes', a)
  {
  }

  lemma SameInsideTrans(pipes: map<PipeId, Pipe>, pipes': map<PipeId, Pipe>, pipes'': map<PipeId, Pipe>)
    requires SameInside(pipes, pipes') && SameInside(pipes', pipes'')
    ensures SameInside(pipes, pipes'')
  {
  }

  // ---------------------------------------------------------------- changes of one pipe, one descriptor

  /** The pipe of descriptor `d` is there to be dereferenced. */
  predicate Valid(s: Sys, d: Fd) { d.pipe.Some? && d.pipe.value in s.pipes }

  /** `free` when both counts are zero. */
  function WithPipe(pipes: map<PipeId, Pipe>, q: PipeId, p: Pipe): map<PipeId, Pipe> {
    if p.r.count == 0 && p.w.count == 0 then pipes - {q} else pipes[q := p]
  }

  /** One open pipe descriptor closed, by `do_close` (which posts permits) or by `do_exit`. */
  function Release(s: Sys, f: FdId, byClose: bool): Sys
    requires f in s.fds
  {
    var d := s.fds[f];
    if !Valid(s, d) then s.(crashed := true)
    else
      s.(fds := s.fds[f := d.(open := false)],
         pipes := WithPipe(s.pipes, d.pipe.value, Dropped(s.pipes[d.pipe.value], d.isRead, byClose)))
  }

  function Dropped(p: Pipe, isRead: bool, byClose: bool): Pipe {
    if !isRead then WriterDropped(p) else if byClose then ReaderClosed(p) else ReaderExited(p)
  }

  function Raised(p: Pipe, isRead: bool, dup: bool): Pipe {
    if isRead then WithReader(p, dup) else WithWriter(p, dup)
  }

  /** The count that descriptor `d` contributes to goes up by one. */
  function Raise(s: Sys, d: Fd, dup: bool): Sys {
    if !Valid(s, d) then s.(crashed := true)
    else s.(pipes := s.pipes[d.pipe.value := Raised(s.pipes[d.pipe.value], d.isRead, dup)])
  }

  /** The calls on an end fit under its count, with room for one more by a process that is not inside
      and has an open descriptor `f` for it. */
  lemma RoomToWrite(fds: map<FdId, Fd>, p: Pipe, q: PipeId, f: FdId)
    requires Accounted(fds, p, q, false) && CallsInv(fds, p, q)
    requires f in fds && Counted(fds[f], q, false) && fds[f].owner !in p.w.calls
    ensures |p.w.calls| < p.w.count
  {
    var used := map a | a in p.w.calls :: p.w.calls[a].fd;
    assert used.Keys == p.w.calls.Keys;
    assert f in Ends(fds, q, false);
    InjectionSize(p.w.calls.Keys, used, Ends(fds, q, false) - {f});
  }

  lemma RoomToRead(fds: map<FdId, Fd>, p: Pipe, q: PipeId, f: FdId)
    requires Accounted(fds, p, q, true) && CallsInv(fds, p, q)
    requires f in fds && Counted(fds[f], q, true) && fds[f].owner !in p.r.calls
    ensures |p.r.calls| < p.r.count
  {
    var used := map a | a in p.r.calls :: p.r.calls[a].fd;
    assert used.Keys == p.r.calls.Keys;
    assert f in Ends(fds, q, true);
    InjectionSize(p.r.calls.Keys, used, Ends(fds, q, true) - {f});
  }

  // Releasing a descriptor, part by part.

  predicate CanRelease(s: Sys, f: FdId) {
    f in s.fds && s.fds[f].open && !s.fds[f].console && Idle(s.pipes, s.fds[f].owner)
  }

  lemma DroppedInv(p: Pipe, isRead: bool, byClose: bool)
    requires PipeInv(p)
    requires if isRead then |p.r.calls| < p.r.count else |p.w.calls| < p.w.count
    ensures PipeInv(Dropped(p, isRead, byClose))
  {
    var e := if !isRead then DropWriter else if byClose then CloseReader else ExitReader;
    InvStep(p, e);
  }

  lemma DroppedFields(p: Pipe, isRead: bool, byClose: bool)
    ensures var p' := Dropped(p, isRead, byClose);
      && p'.w.calls == p.w.calls && p'.r.calls == p.r.calls
      && (forall b :: Count(p', b) == Count(p, b) - (if b == isRead then 1 else 0) && Dups(p', b) == Dups(p, b))
  {
  }

  /** Closing an open descriptor takes one from the count and one from the descriptors of its end. */
  lemma AccountedDropped(fds: map<FdId, Fd>, p: Pipe, q: PipeId, f: FdId, byClose: bool, isRead: bool)
    requires f in fds && Counted(fds[f], q, fds[f].isRead) && Accounted(fds, p, q, isRead)
    ensures Accounted(fds[f := fds[f].(open := false)], Dropped(p, fds[f].isRead, byClose), q, isRead)
  {
    var d := fds[f];
    DroppedFields(p, d.isRead, byClose);
    EndsUpdated(fds, f, d.(open := false), q, isRead);
    assert f in Ends(fds, q, isRead) <==> isRead == d.isRead;
  }

  /** It changes nothing for another pipe. */
  lemma AccountedElsewhere(fds: map<FdId, Fd>, p: Pipe, q: PipeId, f: FdId, isRead: bool)
    requires f in fds && fds[f].pipe != Some(q) && Accounted(fds, p, q, isRead)
    ensures Accounted(fds[f := fds[f].(open := false)], p, q, isRead)
  {
    EndsUpdated(fds, f, fds[f].(open := false), q, isRead);
  }

  lemma CallsReleased(fds: map<FdId, Fd>, p: Pipe, p': Pipe, q: PipeId, f: FdId)
    requires f in fds && CallsInv(fds, p, q) && !Inside(p, fds[f].owner)
    requires p'.w.calls == p.w.calls && p'.r.calls == p.r.calls
    ensures CallsInv(fds[f := fds[f].(open := false)], p', q)
  {
  }

  /** The released end is counted, and its count has room to lose one. */
  lemma ReleaseRoom(s: Sys, f: FdId)
    requires SysInv(s) && CanRelease(s, f)
    ensures Valid(s, s.fds[f])
    ensures var p := s.pipes[s.fds[f].pipe.value];
      if s.fds[f].isRead then |p.r.calls| < p.r.count else |p.w.calls| < p.w.count
  {
    var d := s.fds[f];
    assert Installed(d, f, s.tables, s.pipes);
    var q := d.pipe.value;
    var p := s.pipes[q];
    assert Accounted(s.fds, p, q, true) && Accounted(s.fds, p, q, false) && CallsInv(s.fds, p, q);
    assert !Inside(p, d.owner);
    if d.isRead { RoomToRead(s.fds, p, q, f); } else { RoomToWrite(s.fds, p, q, f); }
  }

  /** The released pipe itself. */
  lemma ReleasedPipe(s: Sys, f: FdId, byClose: bool)
    requires SysInv(s) && CanRelease(s, f)
    ensures Valid(s, s.fds[f])
    ensures var d := s.fds[f];
            var q := d.pipe.value;
            var fds, p' := s.fds[f := d.(open := false)], Dropped(s.pipes[q], d.isRead, byClose);
            && Accounted(fds, p', q, true) && Accounted(fds, p', q, false)
            && PipeInv(p') && CallsInv(fds, p', q)
            && p'.w.calls == s.pipes[q].w.calls && p'.r.calls == s.pipes[q].r.calls
  {
    var d := s.fds[f];
    assert Installed(d, f, s.tables, s.pipes);
    var q := d.pipe.value;
    var p := s.pipes[q];
    assert Accounted(s.fds, p, q, true) && Accounted(s.fds, p, q, false) && CallsInv(s.fds, p, q);
    assert PipeInv(p) && !Inside(p, d.owner);
    ReleaseRoom(s, f);
    DroppedInv(p, d.isRead, byClose);
    DroppedFields(p, d.isRead, byClose);
    AccountedDropped(s.fds, p, q, f, byClose, true);
    AccountedDropped(s.fds, p, q, f, byClose, false);
    CallsReleased(s.fds, p, Dropped(p, d.isRead, byClose), q, f);
  }

  /** Every pipe that is left. */
  lemma ReleaseAt(s: Sys, f: FdId, byClose: bool, q: PipeId)
    requires SysInv(s) && CanRelease(s, f) && q in Release(s, f, byClose).pipes
    ensures var s' := Release(s, f, byClose);
      && q in s.pipes && q < s.nextPipe
      && Accounted(s'.fds, s'.pipes[q], q, true) && Accounted(s'.fds, s'.pipes[q], q, false)
      && !(s'.pipes[q].r.count == 0 && s'.pipes[q].w.count == 0)
      && PipeInv(s'.pipes[q]) && CallsInv(s'.fds, s'.pipes[q], q)
      && s'.pipes[q].w.calls == s.pipes[q].w.calls && s'.pipes[q].r.calls == s.pipes[q].r.calls
  {
    ReleasedPipe(s, f, byClose);
    var p := s.pipes[q];
    assert Accounted(s.fds, p, q, true) && Accounted(s.fds, p, q, false);
    if q != s.fds[f].pipe.value {
      AccountedElsewhere(s.fds, p, q, f, true);
      AccountedElsewhere(s.fds, p, q, f, false);
      assert CallsInv(s.fds, p, q) && !Inside(p, s.fds[f].owner);
      CallsReleased(s.fds, p, p, q, f);
    }
  }

  /** A pipe is freed only when no open descriptor is left for it. */
  lemma FreedIsUnused(s: Sys, f: FdId, byClose: bool, g: FdId)
    requires SysInv(s) && CanRelease(s, f) && g in s.fds && g != f
    ensures Installed(s.fds[g], g, s.tables, Release(s, f, byClose).pipes)
  {
    ReleasedPipe(s, f, byClose);
    var d, e := s.fds[f], s.fds[g];
    assert Installed(e, g, s.tables, s.pipes);
    if e.open && !e.console && e.pipe == d.pipe {
      assert g in Ends(s.fds[f := d.(open := false)], d.pipe.value, e.isRead);
    }
  }

  lemma ReleaseFds(s: Sys, f: FdId, byClose: bool)
    requires SysInv(s) && CanRelease(s, f)
    ensures var s' := Release(s, f, byClose);
      FdsInv(s'.fds, s.tables, s'.pipes, s.nextFd, s.nextPipe) && TablesInv(s.tables, s'.fds, s.nextProc)
  {
    ReleasedPipe(s, f, byClose);
    var s' := Release(s, f, byClose);
    forall g | g in s'.fds
      ensures g < s.nextFd && (s'.fds[g].console ==> s'.fds[g].open && s'.fds[g].pipe == None)
      ensures s'.fds[g].pipe.Some? ==> s'.fds[g].pipe.value < s.nextPipe
      ensures Installed(s'.fds[g], g, s.tables, s'.pipes)
    {
      if g != f { FreedIsUnused(s, f, byClose, g); }
    }
  }

  lemma ReleaseInv(s: Sys, f: FdId, byClose: bool)
    requires SysInv(s) && CanRelease(s, f)
    ensures var s' := Release(s, f, byClose);
      SysInv(s') && s' == s.(fds := s'.fds, pipes := s'.pipes) && SameInside(s.pipes, s'.pipes)
  {
    var s' := Release(s, f, byClose);
    ReleasedPipe(s, f, byClose);
    ReleaseFds(s, f, byClose);
    forall q | q in s'.pipes
      ensures q in s.pipes && q < s.nextPipe
      ensures Accounted(s'.fds, s'.pipes[q], q, true) && Accounted(s'.fds, s'.pipes[q], q, false)
      ensures !(s'.pipes[q].r.count == 0 && s'.pipes[q].w.count == 0)
      ensures PipeInv(s'.pipes[q]) && CallsInv(s'.fds, s'.pipes[q], q)
      ensures s'.pipes[q].w.calls == s.pipes[q].w.calls && s'.pipes[q].r.calls == s.pipes[q].r.calls
    {
      ReleaseAt(s, f, byClose, q);
    }
    SameInsideOneCall(s.pipes, s'.pipes);
  }

  // ---------------------------------------------------------------- raising a count

  lemma RaisedInv(p: Pipe, isRead: bool, dup: bool)
    requires PipeInv(p) && Count(p, isRead) > 0
    ensures PipeInv(Raised(p, isRead, dup))
  {
  }

  lemma RaisedFields(p: Pipe, isRead: bool, dup: bool)
    ensures var p' := Raised(p, isRead, dup);
      && p'.w.calls == p.w.calls && p'.r.calls == p.r.calls
      && (forall b :: Count(p', b) == Count(p, b) + (if b == isRead then 1 else 0)
                      && Dups(p', b) == Dups(p, b) + (if b == isRead && dup then 1 else 0))
  {
  }

  /** An end with an open descriptor has a positive count. */
  lemma CountPositive(fds: map<FdId, Fd>, p: Pipe, q: PipeId, f: FdId)
    requires f in fds && Counted(fds[f], q, fds[f].isRead) && Accounted(fds, p, q, fds[f].isRead)
    ensures Count(p, fds[f].isRead) > 0
  {
    assert f in Ends(fds, q, fds[f].isRead);
  }

  // ---------------------------------------------------------------- dup: one more slot, one more count

  predicate CanDup(s: Sys, p: Proc, slot: int, f: FdId) {
    && p in s.tables && 0 <= slot < |s.tables[p]| && f in s.tables[p] && f in s.fds
    && s.fds[f].open && !s.fds[f].console
    && s.tables[p][slot] in s.fds && !s.fds[s.tables[p][slot]].open
  }

  /** `fd[slot] = fd[old]` and one count up. */
  function Share(s: Sys, p: Proc, slot: int, f: FdId): Sys
    requires p in s.tables && 0 <= slot < |s.tables[p]| && f in s.fds
  {
    var table: seq<FdId> := s.tables[p][slot := f];
    Raise(s.(tables := s.tables[p := table]), s.fds[f], true)
  }

  lemma ShareAt(s: Sys, p: Proc, slot: int, f: FdId, q: PipeId)
    requires SysInv(s) && CanDup(s, p, slot, f) && q in Share(s, p, slot, f).pipes
    ensures var s' := Share(s, p, slot, f);
      && q in s.pipes
      && Accounted(s.fds, s'.pipes[q], q, true) && Accounted(s.fds, s'.pipes[q], q, false)
      && !(s'.pipes[q].r.count == 0 && s'.pipes[q].w.count == 0)
      && PipeInv(s'.pipes[q]) && CallsInv(s.fds, s'.pipes[q], q)
      && s'.pipes[q].w.calls == s.pipes[q].w.calls && s'.pipes[q].r.calls == s.pipes[q].r.calls
  {
    var d := s.fds[f];
    assert Installed(d, f, s.tables, s.pipes);
    var r := s.pipes[q];
    assert Accounted(s.fds, r, q, true) && Accounted(s.fds, r, q, false);
    assert PipeInv(r) && CallsInv(s.fds, r, q);
    if q == d.pipe.value {
      CountPositive(s.fds, r, q, f);
      RaisedInv(r, d.isRead, true);
      RaisedFields(r, d.isRead, true);
    }
  }

  lemma StillInTable(t: seq<FdId>, slot: int, f: FdId, g: FdId)
    requires 0 <= slot < |t| && g in t && t[slot] != g
    ensures g in t[slot := f]
  {
    var i :| 0 <= i < |t| && t[i] == g;
    assert t[slot := f][i] == g;
  }

  lemma ShareInstalled(s: Sys, p: Proc, slot: int, f: FdId, g: FdId)
    requires SysInv(s) && CanDup(s, p, slot, f) && g in s.fds
    ensures Installed(s.fds[g], g, Share(s, p, slot, f).tables, Share(s, p, slot, f).pipes)
  {
    assert Installed(s.fds[g], g, s.tables, s.pipes);
    if s.fds[g].open && !s.fds[g].console && s.fds[g].owner == p {
      StillInTable(s.tables[p], slot, f, g);
    }
  }

  lemma ShareTables(s: Sys, p: Proc, slot: int, f: FdId)
    requires SysInv(s) && CanDup(s, p, slot, f)
    ensures var s' := Share(s, p, slot, f);
      && TablesInv(s'.tables, s.fds, s.nextProc) && s'.pipes.Keys == s.pipes.Keys && !s'.crashed
      && FdsInv(s.fds, s'.tables, s'.pipes, s.nextFd, s.nextPipe)
  {
    var s' := Share(s, p, slot, f);
    assert Installed(s.fds[f], f, s.tables, s.pipes);
    var i :| 0 <= i < |s.tables[p]| && s.tables[p][i] == f;
    assert s.fds[f].owner == p;
    forall g | g in s.fds ensures Installed(s.fds[g], g, s'.tables, s'.pipes) {
      ShareInstalled(s, p, slot, f, g);
    }
  }

  lemma ShareInv(s: Sys, p: Proc, slot: int, f: FdId)
    requires SysInv(s) && CanDup(s, p, slot, f)
    ensures SysInv(Share(s, p, slot, f))
  {
    var s' := Share(s, p, slot, f);
    ShareTables(s, p, slot, f);
    forall q | q in s'.pipes
      ensures q < s.nextPipe
      ensures Accounted(s.fds, s'.pipes[q], q, true) && Accounted(s.fds, s'.pipes[q], q, false)
      ensures !(s'.pipes[q].r.count == 0 && s'.pipes[q].w.count == 0)
      ensures PipeInv(s'.pipes[q]) && CallsInv(s.fds, s'.pipes[q], q)
      ensures s'.pipes[q].w.calls == s.pipes[q].w.calls && s'.pipes[q].r.calls == s.pipes[q].r.calls
    {
      ShareAt(s, p, slot, f, q);
    }
    SameInsideOneCall(s.pipes, s'.pipes);
  }
}
