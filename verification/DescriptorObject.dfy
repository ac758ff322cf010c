/** The descriptor state as the calls update it: their loops and assignments, each proved to do what the
    functions of DescriptorCalls say. */
module DescriptorObject {
  import opened Base
  import opened PipeProtocol
  import opened Descriptors
  import opened DescriptorCalls

  lemma {:induction false} FirstClosedIs(t: seq<FdId>, fds: map<FdId, Fd>, k: nat)
    requires forall i | 0 <= i < |t| :: t[i] in fds
    requires k <= |t| && (k < |t| ==> !fds[t[k]].open) && forall i | 0 <= i < k :: fds[t[i]].open
    ensures FirstClosed(t, fds) == k
  {
  }

  class FileTables {
    var tables: map<Proc, seq<FdId>>
    var fds: map<FdId, Fd>
    var pipes: map<PipeId, Pipe>
    var nextProc: Proc
    var nextFd: FdId
    var nextPipe: PipeId
    var crashed: bool

    function View(): Sys
      reads this
    {
      Sys(tables, fds, pipes, nextProc, nextFd, nextPipe, crashed)
    }

    /** The search loop of `do_pipe` and `do_dup`. */
    method FindClosed(p: Proc) returns (i: nat)
      requires HasTable(View(), p)
      ensures i == FirstClosed(tables[p], fds)
    {
      i := 0;
      while i < |tables[p]|
        invariant i <= |tables[p]| && forall j | 0 <= j < i :: fds[tables[p][j]].open
      {
        if !fds[tables[p][i]].open { break; }
        i := i + 1;
      }
      FirstClosedIs(tables[p], fds, i);
    }

    method DoPipe(p: Proc) returns (value: int, readFd: nat, writeFd: nat)
      requires HasTable(View(), p)
      modifies this
      ensures Result(View(), Value(value)) == PipeCall(old(View()), p)
      ensures value == 0 ==>
                && readFd < |tables[p]| && writeFd < |tables[p]|
                && fds[tables[p][readFd]] == Opened(old(fds)[tables[p][readFd]], true, old(nextPipe))
                && fds[tables[p][writeFd]].isRead == false && fds[tables[p][writeFd]].pipe == Some(old(nextPipe))
                && readFd < writeFd
    {
      writeFd := 0;
      readFd := FindClosed(p);
      if readFd == |tables[p]| { return -EMFILE, readFd, writeFd; }
      var r := tables[p][readFd];
      fds := fds[r := fds[r].(open := true)];
      writeFd := FindClosed(p);
      if writeFd == |tables[p]| { return -EMFILE, readFd, writeFd; }
      var w := tables[p][writeFd];
      fds := fds[r := Opened(fds[r], true, nextPipe)];
      fds := fds[w := Opened(fds[w], false, nextPipe)];
      pipes := pipes[nextPipe := NewPipe()];
      nextPipe := nextPipe + 1;
      value := 0;
    }

    /** Dereference of the pipe of descriptor `d`: null, or freed. */
    predicate Wild(d: Fd)
      reads this
    {
      !Valid(View(), d)
    }

    /** `free` when nobody counts. */
    method FreeIfUnused(q: PipeId)
      requires q in pipes
      modifies this`pipes
      ensures pipes == WithPipe(old(pipes), q, old(pipes)[q])
    {
      if pipes[q].r.count == 0 && pipes[q].w.count == 0 { pipes := pipes - {q}; }
    }

    /** The loop of `do_close` that posts a permit for every counted writer. */
    method PostPermits(q: PipeId)
      requires q in pipes
      modifies this`pipes
      ensures var p := old(pipes)[q];
              pipes == old(pipes)[q := p.(space := p.space + if p.w.count > 0 then p.w.count else 0)]
    {
      var n := pipes[q].w.count;
      var f := 0;
      while f < n
        invariant 0 <= f && (f <= n || f == 0) && q in pipes
        invariant pipes == old(pipes)[q := old(pipes)[q].(space := old(pipes)[q].space + f)]
      {
        pipes := pipes[q := pipes[q].(space := pipes[q].space + 1)];
        f := f + 1;
      }
    }

    method DoClose(p: Proc, slot: int) returns (value: int)
      requires HasTable(View(), p)
      modifies this
      ensures Result(View(), Value(value)) == Close(old(View()), p, slot)
    {
      if slot < 0 || slot >= |tables[p]| { return -EBADF; }
      var f := tables[p][slot];
      if !fds[f].open { return -EBADF; }
      if !fds[f].console {
        if Wild(fds[f]) { crashed := true; return 0; }
        var q := fds[f].pipe.value;
        if fds[f].isRead {
          pipes := pipes[q := ReaderExited(pipes[q])];
          fds := fds[f := fds[f].(open := false)];
          if pipes[q].r.count == 0 {
            PostPermits(q);
            pipes := pipes[q := pipes[q].(released := true)];
            FreeIfUnused(q);
          }
        } else {
          pipes := pipes[q := WriterDropped(pipes[q])];
          fds := fds[f := fds[f].(open := false)];
          FreeIfUnused(q);
        }
      }
      return 0;
    }

    /** `fd[slot] = fd[old]` and the count of its end one up. */
    method ShareSlot(p: Proc, slot: nat, f: FdId)
      requires HasTable(View(), p) && slot < |tables[p]| && f in fds
      modifies this
      ensures View() == Share(old(View()), p, slot, f)
    {
      var table: seq<FdId> := tables[p][slot := f];
      tables := tables[p := table];
      if Wild(fds[f]) { crashed := true; return; }
      var q := fds[f].pipe.value;
      if fds[f].isRead {
        pipes := pipes[q := WithReader(pipes[q], true)];
      } else {
        pipes := pipes[q := WithWriter(pipes[q], true)];
      }
    }

    method DoDup(p: Proc, oldFd: int) returns (value: int)
      requires HasTable(View(), p)
      modifies this
      ensures Result(View(), Value(value)) == Dup(old(View()), p, oldFd)
    {
      if oldFd < 0 || oldFd >= |tables[p]| { return -EBADF; }
      if !fds[tables[p][oldFd]].open { return -EBADF; }
      var newFd := FindClosed(p);
      if newFd == |tables[p]| { return -EBADF; }
      ShareSlot(p, newFd, tables[p][oldFd]);
      return newFd;
    }

    method DoDup2(p: Proc, oldFd: int, newFd: int) returns (value: int)
      requires HasTable(View(), p)
      modifies this
      ensures Result(View(), Value(value)) == Dup2(old(View()), p, oldFd, newFd)
    {
      if oldFd < 0 || oldFd >= |tables[p]| { return -EBADF; }
      if !fds[tables[p][oldFd]].open { return -EBADF; }
      if newFd < 0 || newFd >= |tables[p]| { return -EBADF; }
      var f := tables[p][newFd];
      if fds[f].open {
        if Wild(fds[f]) {
          crashed := true;
        } else {
          var q := fds[f].pipe.value;
          pipes := pipes[q := WriterDropped(ReaderExited(pipes[q]))];
          fds := fds[f := fds[f].(console := false, open := false, pipe := None)];
        }
      }
      ShareSlot(p, newFd, tables[p][oldFd]);
      return newFd;
    }

    /** The slot loop of `do_fork`. */
    method CopySlots(p: Proc, c: Proc)
      requires HasTable(View(), p) && c !in tables
      modifies this
      ensures View() == Fork(old(View()), p, c)
    {
      ghost var src, start := tables[p], View().(tables := tables[c := []], nextProc := c + 1);
      tables := tables[c := []];
      nextProc := c + 1;
      var k := 0;
      while k < |tables[p]|
        invariant p in tables && c in tables && p != c && tables[p] == src && k <= |src|
        invariant forall i | 0 <= i < |src| :: src[i] in fds
        invariant ForkSlots(View(), src, k, c) == ForkSlots(start, src, 0, c)
      {
        CopySlot(tables[p][k], c);
        k := k + 1;
      }
    }

    method CopySlot(f: FdId, c: Proc)
      requires f in fds && c in tables
      modifies this
      ensures View() == ForkSlot(old(View()), f, c)
    {
      var d := fds[f];
      fds := fds[nextFd := d.(owner := c)];
      tables := tables[c := tables[c] + [nextFd]];
      nextFd := nextFd + 1;
      if d.open && !d.console {
        if Wild(d) {
          crashed := true;
        } else if d.isRead {
          pipes := pipes[d.pipe.value := WithReader(pipes[d.pipe.value], false)];
        } else {
          pipes := pipes[d.pipe.value := WithWriter(pipes[d.pipe.value], false)];
        }
      }
    }

    /** The closing loop of `do_exit`. */
    method CloseAll(p: Proc)
      requires HasTable(View(), p)
      modifies this
      ensures View() == Exit(old(View()), p)
    {
      ghost var start := View();
      var t := tables[p];
      var i := 0;
      while i < |t|
        invariant i <= |t| && forall j | 0 <= j < |t| :: t[j] in fds
        invariant ExitSlots(View(), t, i) == ExitSlots(start, t, 0)
      {
        CloseSlot(t[i]);
        i := i + 1;
      }
      tables := tables - {p};
    }

    method CloseSlot(f: FdId)
      requires f in fds
      modifies this
      ensures View() == ExitSlot(old(View()), f)
    {
      if !fds[f].console {
        if fds[f].open {
          if Wild(fds[f]) { crashed := true; return; }
          var q := fds[f].pipe.value;
          if fds[f].isRead {
            pipes := pipes[q := ReaderExited(pipes[q])];
          } else {
            pipes := pipes[q := WriterDropped(pipes[q])];
          }
          FreeIfUnused(q);
          fds := fds[f := fds[f].(open := false)];
        }
      }
    }
  }
}
