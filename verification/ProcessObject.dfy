/** The process control blocks, memory and the scheduler's globals as the calls and handlers update them: the
    search for an identifier, the two adoption loops of `do_exit`, the two ways a process leaves the table,
    `memory_chunk` and `main_memory`, and the ready queue as the linked list it is. */
module ProcessObject {
  import opened Base
  import opened ProcessTree
  import opened UserMemory
  import opened Processes
  import opened DoublyLinkedList

  // ---------------------------------------------------------------- an exit half done

  /** Control block `a` when the exit of `p` has moved the children `moved` and the first `n` exited
      children to init. */
  function Part(t: Tree, p: Proc, moved: map<nat, Proc>, n: nat, a: Proc): Family
    requires p in t.fam && a in t.fam && n <= |t.fam[p].waiters|
  {
    var e, f := t.fam[p], t.fam[a];
    var f1 := if a == e.parent then f.(children := f.children - {e.pid}) else f;
    var f2 := if a in moved.Values || a in e.waiters[..n] then f1.(parent := INIT) else f1;
    if a == INIT then
      f2.(children := f2.children + moved, waiters := f2.waiters + e.waiters[..n], sem := f2.sem + n)
    else if a == p then f2.(children := e.children - moved.Keys, waiters := e.waiters[n..])
    else f2
  }

  predicate Partly(fam: map<Proc, Family>, t: Tree, p: Proc, moved: map<nat, Proc>, n: nat)
    requires p in t.fam && n <= |t.fam[p].waiters|
  {
    fam.Keys == t.fam.Keys && forall a | a in fam :: fam[a] == Part(t, p, moved, n, a)
  }

  /** `moved` holds children of `p` under their identifiers. */
  predicate Within(moved: map<nat, Proc>, children: map<nat, Proc>) {
    forall k | k in moved :: k in children && moved[k] == children[k]
  }

  lemma ChildFacts(t: Tree, p: Proc, k: nat)
    requires TreeInv(t) && p in t.live && p in t.fam && k in t.fam[p].children
    ensures var c := t.fam[p].children[k];
            c in t.fam && c != p && c != INIT && p != INIT && INIT in t.fam && t.fam[c].pid == k
  {
    assert Well(t, p);
    assert Well(t, t.fam[p].children[k]);
  }

  lemma NotInit(t: Tree, p: Proc)
    requires TreeInv(t) && p in t.live && p in t.fam
    ensures p != INIT && INIT in t.fam
  {
  }

  /** The assignments of one round of the first loop. */
  function Adopted(fam: map<Proc, Family>, p: Proc, k: nat, c: Proc): map<Proc, Family>
    requires p in fam && c in fam && INIT in fam && p != INIT && c != INIT && p != c
  {
    fam[p := fam[p].(children := fam[p].children - {k})]
       [c := fam[c].(parent := INIT)]
       [INIT := fam[INIT].(children := fam[INIT].children[fam[c].pid := c])]
  }

  lemma AdoptAt(t: Tree, p: Proc, moved: map<nat, Proc>, k: nat, c: Proc, a: Proc)
    requires p in t.fam && a in t.fam && k !in moved && c != p && c != INIT && p != INIT
    ensures Part(t, p, moved[k := c], 0, a)
         == var f := Part(t, p, moved, 0, a);
            if a == p then f.(children := f.children - {k})
            else if a == INIT then f.(children := f.children[k := c])
            else if a == c then f.(parent := INIT) else f
  {
    assert moved[k := c].Keys == moved.Keys + {k};
    assert k in moved[k := c] && moved[k := c][k] == c;
    forall x | x in moved.Values ensures x in moved[k := c].Values {
      var j :| j in moved && moved[j] == x;
      assert moved[k := c][j] == x;
    }
    assert moved[k := c].Values == moved.Values + {c};
    if a == INIT {
      var f := Part(t, p, moved, 0, a);
      assert Part(t, p, moved[k := c], 0, a).children == f.children[k := c];
    }
  }

  lemma AdoptStep(fam: map<Proc, Family>, t: Tree, p: Proc, moved: map<nat, Proc>, k: nat)
    requires TreeInv(t) && p in t.live && p in t.fam && Partly(fam, t, p, moved, 0)
    requires k in t.fam[p].children && k !in moved
    ensures var c := t.fam[p].children[k];
            && p in fam && c in fam && INIT in fam && p != INIT && c != INIT && p != c && fam[c].pid == k
            && Partly(Adopted(fam, p, k, c), t, p, moved[k := c], 0)
  {
    ChildFacts(t, p, k);
    var c := t.fam[p].children[k];
    forall a | a in fam ensures Adopted(fam, p, k, c)[a] == Part(t, p, moved[k := c], 0, a) {
      AdoptAt(t, p, moved, k, c, a);
    }
  }

  /** The assignments of one round of the second loop. */
  function Bequeathed(fam: map<Proc, Family>, p: Proc, z: Proc): map<Proc, Family>
    requires p in fam && z in fam && INIT in fam && p != INIT && z != INIT && p != z && fam[p].waiters != []
  {
    fam[z := fam[z].(parent := INIT)]
       [INIT := fam[INIT].(waiters := fam[INIT].waiters + [z], sem := fam[INIT].sem + 1)]
       [p := fam[p].(waiters := fam[p].waiters[1..])]
  }

  lemma ZombieFacts(t: Tree, p: Proc, n: nat)
    requires TreeInv(t) && p in t.live && p in t.fam && n < |t.fam[p].waiters|
    ensures var z := t.fam[p].waiters[n]; z in t.fam && z != p && z != INIT && p != INIT && INIT in t.fam
  {
    assert Well(t, p);
    assert Zombie(t, t.fam[p].waiters[n]);
  }

  lemma BequeathAt(t: Tree, p: Proc, moved: map<nat, Proc>, n: nat, a: Proc)
    requires p in t.fam && a in t.fam && n < |t.fam[p].waiters| && t.fam[p].waiters[n] != p
    requires t.fam[p].waiters[n] != INIT && p != INIT
    ensures Part(t, p, moved, n + 1, a)
         == var f := Part(t, p, moved, n, a);
            if a == p then f.(waiters := f.waiters[1..])
            else if a == INIT then f.(waiters := f.waiters + [t.fam[p].waiters[n]], sem := f.sem + 1)
            else if a == t.fam[p].waiters[n] then f.(parent := INIT) else f
    ensures a == p ==> Part(t, p, moved, n, a).waiters == t.fam[p].waiters[n..]
  {
  }

  /** What is left in the lists of `p` itself. */
  lemma PartSelf(fam: map<Proc, Family>, t: Tree, p: Proc, moved: map<nat, Proc>, n: nat)
    requires p in t.fam && n <= |t.fam[p].waiters| && Partly(fam, t, p, moved, n) && p != INIT
    ensures p in fam && fam[p].waiters == t.fam[p].waiters[n..]
    ensures fam[p].children == t.fam[p].children - moved.Keys
  {
  }

  lemma AllMoved(moved: map<nat, Proc>, children: map<nat, Proc>)
    requires Within(moved, children) && (children - moved.Keys).Keys == {}
    ensures moved == children
  {
    forall k | k in children ensures k in moved {
      assert k !in (children - moved.Keys).Keys;
    }
  }

  lemma BequeathStep(fam: map<Proc, Family>, t: Tree, p: Proc, moved: map<nat, Proc>, n: nat)
    requires TreeInv(t) && p in t.live && p in t.fam && n < |t.fam[p].waiters| && Partly(fam, t, p, moved, n)
    ensures var z := t.fam[p].waiters[n];
            && p in fam && z in fam && INIT in fam && p != INIT && z != INIT && p != z
            && fam[p].waiters != [] && fam[p].waiters[0] == z
            && Partly(Bequeathed(fam, p, z), t, p, moved, n + 1)
  {
    ZombieFacts(t, p, n);
    PartSelf(fam, t, p, moved, n);
    BequeathPart(fam, t, p, moved, n);
  }

  lemma BequeathPart(fam: map<Proc, Family>, t: Tree, p: Proc, moved: map<nat, Proc>, n: nat)
    requires p in t.fam && n < |t.fam[p].waiters| && Partly(fam, t, p, moved, n)
    requires var z := t.fam[p].waiters[n];
             p in fam && z in fam && INIT in fam && p != INIT && z != INIT && p != z && fam[p].waiters != []
    ensures Partly(Bequeathed(fam, p, t.fam[p].waiters[n]), t, p, moved, n + 1)
  {
    var z := t.fam[p].waiters[n];
    forall a | a in fam ensures Bequeathed(fam, p, z)[a] == Part(t, p, moved, n + 1, a) {
      BequeathAt(t, p, moved, n, a);
    }
  }

  /** What is left to do when both lists are empty. */
  function Departed(fam: map<Proc, Family>, t: Tree, p: Proc): map<Proc, Family>
    requires p in t.fam && t.fam[p].parent in t.fam && fam.Keys == t.fam.Keys
  {
    var e := t.fam[p].parent;
    if FreedAtOnce(t, p) then fam - {p}
    else fam[e := fam[e].(waiters := fam[e].waiters + [p], sem := fam[e].sem + 1, exited := fam[e].exited + [p])]
  }

  lemma PartDone(t: Tree, p: Proc, a: Proc)
    requires p in t.fam && a in t.fam && t.fam[p].parent in t.fam
    ensures var f := Part(t, p, t.fam[p].children, |t.fam[p].waiters|, a);
            && f.pid == t.fam[a].pid
            && (a == p && p != INIT ==> f.children == map[] && f.waiters == [])
            && (a != p ==> AfterExit(t, p, a) == if a == t.fam[p].parent && !FreedAtOnce(t, p)
                           then f.(waiters := f.waiters + [p], sem := f.sem + 1, exited := f.exited + [p]) else f)
  {
  }

  lemma PartOfSelf(t: Tree, p: Proc)
    requires TreeInv(t) && p in t.live && p in t.fam
    ensures Part(t, p, t.fam[p].children, |t.fam[p].waiters|, p) == t.fam[p].(children := map[], waiters := [])
  {
    NotInit(t, p);
    FreedIff(t, p);
    OrphanIff(t, p, p);
    PartDone(t, p, p);
    var w := t.fam[p].waiters;
    assert w[..|w|] == w;
  }

  /** After both loops only the end of `do_exit` is missing. */
  lemma DepartedIsExit(fam: map<Proc, Family>, t: Tree, p: Proc)
    requires TreeInv(t) && p in t.live && p in t.fam && Partly(fam, t, p, t.fam[p].children, |t.fam[p].waiters|)
    ensures t.fam[p].parent in t.fam && Departed(fam, t, p) == TreeExit(t, p).fam
  {
    FreedIff(t, p);
    PartOfSelf(t, p);
    var d, x := Departed(fam, t, p), TreeExit(t, p).fam;
    forall a | a in d ensures a in x && d[a] == x[a] {
      if a != p { PartDone(t, p, a); }
    }
  }

  /** `rbtree`, and the family fields of every allocated `struct PCB`. Who is live is a ghost. */
  class ProcessTable {
    var fam: map<Proc, Family>
    var rbtree: set<nat>
    var next: Proc
    ghost var live: set<Proc>

    ghost function View(): Tree
      reads this
    {
      Tree(fam, live, rbtree, next)
    }

    /** `get_new_pid`: ends because the identifiers in use are finitely many. */
    method GetNewPid() returns (pid: nat)
      modifies this`rbtree
      ensures pid == LeastFrom(old(rbtree), 0) && rbtree == old(rbtree) + {pid}
    {
      pid := 0;
      while pid in rbtree
        invariant rbtree == old(rbtree) && forall j | 0 <= j < pid :: j in rbtree
        decreases |rbtree| - pid
      {
        IntervalSize(rbtree, pid + 1);
        pid := pid + 1;
      }
      assert pid == LeastFrom(rbtree, 0) by {
        var k := LeastFrom(rbtree, 0);
        assert k >= pid && (k > pid ==> pid in rbtree);
      }
      rbtree := rbtree + {pid};
    }

    /** `destroy_pid`. */
    method DestroyPid(pid: nat)
      modifies this`rbtree
      ensures rbtree == old(rbtree) - {pid}
    {
      if pid in rbtree { rbtree := rbtree - {pid}; }
    }

    /** What `do_fork` does to the family: the identifier is kept in an `unsigned short`. */
    method Fork(p: Proc) returns (c: Proc, pid: nat)
      requires p in fam && p < next
      modifies this
      ensures View() == TreeFork(old(View()), p) && c == old(next) && pid == fam[c].pid
    {
      c := next;
      var n := GetNewPid();
      pid := n % PIDS;
      fam := fam[p := fam[p].(children := fam[p].children[pid := c])];
      fam := fam[c := Family(pid, p, map[], [], 0, [], [])];
      next := next + 1;
      live := live + {c};
    }

    /** `do_wait` with its permit: the first exited child is freed. */
    method Wait(p: Proc) returns (pid: nat)
      requires TreeInv(View()) && p in live && p in fam && fam[p].sem > 0
      modifies this
      ensures old(fam[p].waiters != [] && fam[p].waiters[0] in fam && fam[p].waiters[0] != p)
      ensures View() == TreeWait(old(View()), p) && pid == old(fam)[old(fam)[p].waiters[0]].pid
    {
      WaitFinds(View(), p);
      var z := fam[p].waiters[0];
      var f := fam[p];
      fam := fam[p := f.(waiters := f.waiters[1..], sem := f.sem - 1, reaped := f.reaped + [z])];
      pid := fam[z].pid;
      DestroyPid(pid);
      fam := fam - {z};
    }

    /** The child of `p` with the least identifier (`jrb_first`). */
    method FirstChild(p: Proc) returns (k: nat)
      requires p in fam && fam[p].children.Keys != {}
      ensures k in fam[p].children.Keys && forall j | j in fam[p].children.Keys :: k <= j
    {
      ghost var least := Oldest(fam[p].children.Keys);
      k :| k in fam[p].children.Keys && forall j | j in fam[p].children.Keys :: k <= j;
    }

    /** One round of the first loop of `do_exit`: the child `c` goes to init. */
    method AdoptOne(p: Proc, k: nat, c: Proc)
      requires p in fam && c in fam && INIT in fam && p != INIT && c != INIT && p != c && fam[c].pid == k
      modifies this`fam
      ensures fam == Adopted(old(fam), p, k, c)
    {
      fam := fam[p := fam[p].(children := fam[p].children - {k})];
      fam := fam[c := fam[c].(parent := INIT)];
      fam := fam[INIT := fam[INIT].(children := fam[INIT].children[fam[c].pid := c])];
    }

    /** The first loop. */
    method AdoptChildren(p: Proc, ghost t: Tree)
      requires TreeInv(t) && p in t.live && p in t.fam && Partly(fam, t, p, map[], 0)
      modifies this`fam
      ensures Partly(fam, t, p, t.fam[p].children, 0)
    {
      ghost var moved: map<nat, Proc> := map[];
      ghost var children := t.fam[p].children;
      NotInit(t, p);
      PartSelf(fam, t, p, moved, 0);
      while fam[p].children.Keys != {}
        invariant Partly(fam, t, p, moved, 0) && Within(moved, children)
        invariant p in fam && fam[p].children == children - moved.Keys
        decreases children.Keys - moved.Keys
      {
        var k := FirstChild(p);
        AdoptStep(fam, t, p, moved, k);
        AdoptOne(p, k, fam[p].children[k]);
        moved := moved[k := children[k]];
        PartSelf(fam, t, p, moved, 0);
      }
      AllMoved(moved, children);
    }

    /** One round of the second loop: the first exited child `z` goes to init. */
    method BequeathOne(p: Proc, z: Proc)
      requires p in fam && z in fam && INIT in fam && p != INIT && z != INIT && p != z
      requires fam[p].waiters != [] && fam[p].waiters[0] == z
      modifies this`fam
      ensures fam == Bequeathed(old(fam), p, z)
    {
      fam := fam[z := fam[z].(parent := INIT)];
      fam := fam[INIT := fam[INIT].(waiters := fam[INIT].waiters + [z])];
      fam := fam[p := fam[p].(waiters := fam[p].waiters[1..])];
      fam := fam[INIT := fam[INIT].(sem := fam[INIT].sem + 1)];
    }

    /** The second loop, in the order of the list. */
    method BequeathWaiters(p: Proc, ghost t: Tree)
      requires TreeInv(t) && p in t.live && p in t.fam && Partly(fam, t, p, t.fam[p].children, 0)
      modifies this`fam
      ensures Partly(fam, t, p, t.fam[p].children, |t.fam[p].waiters|)
    {
      ghost var n: nat := 0;
      ghost var moved := t.fam[p].children;
      NotInit(t, p);
      PartSelf(fam, t, p, moved, 0);
      while fam[p].waiters != []
        invariant n <= |t.fam[p].waiters| && Partly(fam, t, p, moved, n)
        invariant p in fam && fam[p].waiters == t.fam[p].waiters[n..]
        decreases |t.fam[p].waiters| - n
      {
        BequeathStep(fam, t, p, moved, n);
        BequeathOne(p, fam[p].waiters[0]);
        n := n + 1;
        PartSelf(fam, t, p, moved, n);
      }
    }

    /** The family part of `do_exit`. */
    method Exit(p: Proc)
      requires TreeInv(View()) && p in live && p in fam
      modifies this
      ensures old(fam[p].parent in fam)
      ensures View() == TreeExit(old(View()), p)
    {
      ghost var t := View();
      FreedIff(t, p);
      LeaveParent(p, t);
      AdoptChildren(p, t);
      BequeathWaiters(p, t);
      Depart(p, t);
    }

    /** The exiting process goes out of its parent's children. */
    method LeaveParent(p: Proc, ghost t: Tree)
      requires View() == t && TreeInv(t) && p in t.live && p in t.fam
      modifies this`fam
      ensures Partly(fam, t, p, map[], 0)
    {
      FreedIff(t, p);
      NotInit(t, p);
      var e := fam[p].parent;
      fam := fam[e := fam[e].(children := fam[e].children - {fam[p].pid})];
      forall a | a in fam ensures fam[a] == Part(t, p, map[], 0, a) {
        assert t.fam[p].waiters[..0] == [] && t.fam[p].waiters[0..] == t.fam[p].waiters;
      }
    }

    /** The end of `do_exit`: the control block is freed, or waits for the parent. */
    method Depart(p: Proc, ghost t: Tree)
      requires TreeInv(t) && p in t.live && p in t.fam && Partly(fam, t, p, t.fam[p].children, |t.fam[p].waiters|)
      requires rbtree == t.rbtree && live == t.live && next == t.next
      modifies this
      ensures t.fam[p].parent in t.fam && View() == TreeExit(t, p)
    {
      FreedIff(t, p);
      DepartedIsExit(fam, t, p);
      PartDone(t, p, t.fam[p].parent);
      PartOfSelf(t, p);
      ghost var before := fam;
      var e := fam[p].parent;
      if fam[e].pid == 0 {
        DestroyPid(fam[p].pid);
        fam := fam - {p};
      } else {
        fam := fam[e := fam[e].(sem := fam[e].sem + 1)];
        fam := fam[e := fam[e].(waiters := fam[e].waiters + [p], exited := fam[e].exited + [p])];
      }
      assert fam == Departed(before, t, p);
      live := live - {p};
    }
  }

  // ---------------------------------------------------------------- memory

  lemma {:induction false} FreeChunkIs(chunks: seq<int>, i: nat, k: nat)
    requires i <= k <= |chunks| && (k < |chunks| ==> chunks[k] == 0) && forall j | i <= j < k :: chunks[j] != 0
    ensures FreeChunk(chunks, i) == k
    decreases k - i
  {
  }

  class MachineMemory {
    const memoryChunk: array<int>
    const mainMemory: array<Byte>
    var image: map<Proc, Image>

    ghost function View(): Memory
      reads this, memoryChunk, mainMemory
    {
      Memory(image, memoryChunk[..], mainMemory[..])
    }

    /** `create_memory`, and a memory cleared by `bzero`. */
    constructor ()
      ensures View().chunks == seq(CHUNKS, _ => 0) && View().mem == seq(MEMORY, _ => 0) && image == map[]
      ensures fresh(memoryChunk) && fresh(mainMemory)
    {
      memoryChunk := new int[CHUNKS](_ => 0);
      mainMemory := new Byte[MEMORY](_ => 0);
      image := map[];
    }

    /** `memcpy` inside main memory. */
    method CopyBytes(from: nat, to: nat, n: nat)
      requires from + n <= mainMemory.Length && to + n <= mainMemory.Length
      modifies mainMemory
      ensures mainMemory[..] == Copy(old(mainMemory[..]), from, to, n)
    {
      forall j | 0 <= j < n { mainMemory[to + j] := mainMemory[from + j]; }
    }

    /** `memset` to zero. */
    method ZeroBytes(at: nat, n: nat)
      requires at + n <= mainMemory.Length
      modifies mainMemory
      ensures mainMemory[..] == Zeros(old(mainMemory[..]), at, n)
    {
      forall j | 0 <= j < n { mainMemory[at + j] := 0; }
    }

    /** The chunk loop of `do_fork`: the first free chunk becomes the child's, with the parent's
        registers, break and bytes. */
    method Fork(p: Proc, c: Proc) returns (found: bool)
      requires p in image && c != p && image[p].base + CHUNK <= mainMemory.Length
      requires memoryChunk.Length == CHUNKS && mainMemory.Length == MEMORY
      modifies this`image, memoryChunk, mainMemory
      ensures var m := old(View());
              var i := FreeChunk(m.chunks, 0);
              found == (i < CHUNKS) && View() == if found then MemoryFork(m, p, c, i) else m
    {
      var i := 0;
      found := false;
      while i < CHUNKS
        invariant i <= CHUNKS && View() == old(View()) && !found
        invariant forall j | 0 <= j < i :: memoryChunk[j] != 0
      {
        if memoryChunk[i] == 0 {
          FreeChunkIs(memoryChunk[..], 0, i);
          memoryChunk[i] := 1;
          image := image[c := Image(i, i * CHUNK, CHUNK, image[p].sbrk, image[p].regs, 0)];
          CopyBytes(image[p].base, i * CHUNK, CHUNK);
          return true;
        }
        i := i + 1;
      }
      FreeChunkIs(memoryChunk[..], 0, CHUNKS);
    }

    /** The memory part of `do_exit`. */
    method Exit(p: Proc)
      requires Placed(View(), p)
      modifies this`image, memoryChunk, mainMemory
      ensures View() == MemoryExit(old(View()), p)
    {
      image := image[p := image[p].(exitValue := image[p].regs[ARGUMENT])];
      memoryChunk[image[p].memoryNum] := 0;
      ZeroBytes(image[p].base, image[p].limit);
    }

    /** The register part of `syscall_return`: the program counter moves past the trap, register 2 holds
        the value, and no other register and no other process changes. */
    method SetResult(p: Proc, value: int)
      requires p in image && |image[p].regs| == REGISTERS
      modifies this`image
      ensures p in image && |image[p].regs| == REGISTERS
      ensures image[p].regs[PC] == old(image)[p].regs[NEXT_PC] && image[p].regs[RESULT] == value
      ensures forall i: nat | i < REGISTERS && i != PC && i != RESULT :: image[p].regs[i] == old(image)[p].regs[i]
      ensures image == old(image)[p := old(image)[p].(regs := Returned(old(image)[p].regs, value))]
    {
      var regs := image[p].regs;
      regs := regs[PC := regs[NEXT_PC]];
      regs := regs[RESULT := value];
      image := image[p := image[p].(regs := regs)];
    }
  }

  // ---------------------------------------------------------------- the scheduler

  /** `readyq`, `curr` and `is_noop`, with what the processor runs and whether the kernel has halted. */
  class Scheduler {
    const readyq: List<Proc>
    var curr: Option<Proc>
    var isNoop: bool
    var cpu: Cpu
    var halted: Halt

    /** These are the globals of state `s`, and the list is well formed. */
    ghost predicate Holds(s: State)
      reads this, readyq, readyq.Repr()
    {
      && (readyq as object) != this && (forall n | n in readyq.Repr() :: (n as object) != this)
      && readyq.Valid() && readyq.contents == s.readyq
      && curr == s.curr && isNoop == s.isNoop && cpu == s.cpu && halted == s.halted
    }

    /** `initialize_scheduler`. */
    constructor ()
      ensures readyq.Valid() && readyq.contents == [] && fresh(readyq) && fresh(readyq.Repr())
      ensures curr == None && isNoop && cpu == InKernel && halted == No
    {
      readyq := new List<Proc>();
      curr, isNoop, cpu, halted := None, true, InKernel, No;
    }

    /** `scheduler`, after `kt_joinall`. `childless`: the children of init are an empty tree. */
    method Schedule(childless: bool, ghost s: State)
      requires Holds(s) && INIT in s.tree.fam && (childless <==> s.tree.fam[INIT].children == map[])
      modifies this, readyq, readyq.Repr()
      ensures Holds(ScheduleStep(s))
    {
      var empty := readyq.Empty();
      if empty {
        curr := None;
        if childless {
          halted := ByScheduler;
        } else {
          isNoop := true;
          cpu := InNoop;
        }
      } else {
        var first, top := readyq.First();
        curr := Some(top);
        readyq.Delete(first, 0);
        assert readyq.contents == s.readyq[1..];
        isNoop := false;
        cpu := InUser;
        assert readyq.Valid();
      }
    }

    /** The part of `interruptHandler` before it posts the semaphore of the interrupt. */
    method Interrupt(ghost s: State)
      requires Holds(s) && (!isNoop ==> curr.Some?)
      modifies this, readyq, readyq.Repr()
      ensures Holds(InterruptStep(s)) && fresh(readyq.Repr() - old(readyq.Repr()))
    {
      if !isNoop { readyq.Append(curr.value); }
      cpu := InKernel;
    }

    /** `exceptionHandler` on a system call starts a thread for the current process; on a fault it does
        nothing. Neither puts the process back in the queue. */
    method Trap(ghost s: State) returns (caller: Option<Proc>)
      requires Holds(s)
      modifies this
      ensures Holds(s.(cpu := InKernel)) && caller == s.curr
    {
      cpu := InKernel;
      caller := curr;
    }

    /** The queue part of `syscall_return`. */
    method SyscallReturn(p: Proc, ghost s: State)
      requires Holds(s)
      modifies this, readyq, readyq.Repr()
      ensures Holds(s.(readyq := s.readyq + [p])) && fresh(readyq.Repr() - old(readyq.Repr()))
    {
      readyq.Append(p);
      assert readyq.Valid();
    }
  }
}
