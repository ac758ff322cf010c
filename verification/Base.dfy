/** Names, constants and set arithmetic shared by every component of the kernel. */
module Base {

  datatype Option<+T> = None | Some(value: T)

  /** The identity of a process control block. Numbers are handed out in creation order and never
      reused, unlike process identifiers; `INIT` is the sentinel parent created at boot. */
  type Proc = nat
  const INIT: Proc := 0

  /** The identity of an `Fd` object and of a `Pipe` object (their addresses in the C program). */
  type FdId = nat
  type PipeId = nat

  /** A C `char`, which is signed on the machine the kernel targets. */
  type Byte = b: int | -128 <= b < 128

  /** The byte that the read paths take for end of data. */
  const END: Byte := -1

  // Error numbers, returned negated.
  const EBADF := 9
  const EAGAIN := 11
  const EMFILE := 24
  const EPIPE := 32

  // Numbers of system calls; the others that the kernel knows return some value.
  const SYS_EXIT := 1
  const SYS_FORK := 2
  const SYS_READ := 3
  const SYS_WRITE := 4
  const SYS_CLOSE := 6
  const SYS_WAIT := 7
  const SYS_DUP := 41
  const SYS_PIPE := 42
  const SYS_DUP2 := 90
  const OTHER_CALLS: set<int> := {20, 39, 54, 59, 62, 64, 69, 89}

  /** How one round of a thread's loop ends: it blocks, the call returns, or there is another round. */
  datatype Stop = AtP | AtReturn | GoOn

  /** A set of one element holds nothing else. */
  lemma Singleton<T>(s: set<T>, x: T)
    requires |s| == 1 && x in s
    ensures s == {x}
  {
    assert |s - {x}| == 0;
  }

  /** A smaller set has at most as many elements. */
  lemma SubsetSize<T>(a: set<T>, b: set<T>)
    requires a <= b
    ensures |a| <= |b|
    ensures |a| == |b| ==> a == b
  {
    assert b == a + (b - a);
    assert |b| == |a| + |b - a|;
  }

  /** A set that is mapped injectively into another is no larger than it. */
  lemma {:induction false} InjectionSize(a: set<Proc>, f: map<Proc, FdId>, b: set<FdId>)
    requires a <= f.Keys
    requires forall x :: x in a ==> f[x] in b
    requires forall x, y :: x in a && y in a && f[x] == f[y] ==> x == y
    ensures |a| <= |b|
  {
    if a != {} {
      var x :| x in a;
      InjectionSize(a - {x}, f, b - {f[x]});
    }
  }

  /** The first `n` numbers. */
  function Below(n: nat): (s: set<nat>)
    ensures |s| == n && forall j: nat :: j in s <==> j < n
  {
    if n == 0 then {} else Below(n - 1) + {n - 1}
  }
}
