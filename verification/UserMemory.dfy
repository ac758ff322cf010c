/** Registers, memory chunks and main memory of the processes. */
module UserMemory {
  import opened Base

  const CHUNKS: nat := 8
  const CHUNK: nat := 131072
  const MEMORY: nat := 1048576
  const REGISTERS: nat := 40
  const PC: nat := 34
  const NEXT_PC: nat := 35
  const RESULT: nat := 2
  const TYPE: nat := 4
  const ARGUMENT: nat := 5

  /** The fields of `struct PCB` that describe the user program. */
  datatype Image = Image(memoryNum: nat, base: nat, limit: nat, sbrk: int, regs: seq<int>, exitValue: int)

  /** `memory_chunk` and `main_memory`, with the image of every process. */
  datatype Memory = Memory(image: map<Proc, Image>, chunks: seq<int>, mem: seq<Byte>)

  // ---------------------------------------------------------------- operations

  /** The lowest chunk marked free, or `CHUNKS`. */
  function FreeChunk(chunks: seq<int>, i: nat): (k: nat)
    requires i <= |chunks|
    ensures i <= k <= |chunks| && (k < |chunks| ==> chunks[k] == 0)
    ensures forall j | i <= j < k :: chunks[j] != 0
    decreases |chunks| - i
  {
    if i == |chunks| || chunks[i] == 0 then i else FreeChunk(chunks, i + 1)
  }

  /** `memcpy` and `memset` of `n` bytes. */
  function Copy(mem: seq<Byte>, from: nat, to: nat, n: nat): (r: seq<Byte>)
    requires from + n <= |mem| && to + n <= |mem|
    ensures |r| == |mem|
  {
    mem[..to] + mem[from..from + n] + mem[to + n..]
  }

  function Zeros(mem: seq<Byte>, at: nat, n: nat): (r: seq<Byte>)
    requires at + n <= |mem|
    ensures |r| == |mem|
  {
    mem[..at] + seq(n, _ => 0) + mem[at + n..]
  }

  /** The bytes of a process replaced by others. */
  function Replace(mem: seq<Byte>, at: nat, bytes: seq<Byte>): (r: seq<Byte>)
    requires at + |bytes| <= |mem|
    ensures |r| == |mem|
  {
    mem[..at] + bytes + mem[at + |bytes|..]
  }

  /** A child in chunk `i`: registers, break and bytes of the parent. */
  function MemoryFork(m: Memory, p: Proc, c: Proc, i: nat): Memory
    requires p in m.image && i < |m.chunks| && m.image[p].base + CHUNK <= |m.mem| && i * CHUNK + CHUNK <= |m.mem|
  {
    var d := m.image[p];
    Memory(m.image[c := Image(i, i * CHUNK, CHUNK, d.sbrk, d.regs, 0)], m.chunks[i := 1],
           Copy(m.mem, d.base, i * CHUNK, CHUNK))
  }

  function MemoryExit(m: Memory, p: Proc): Memory
    requires p in m.image && m.image[p].memoryNum < |m.chunks|
    requires m.image[p].base + m.image[p].limit <= |m.mem| && |m.image[p].regs| == REGISTERS
  {
    var d := m.image[p];
    Memory(m.image[p := d.(exitValue := d.regs[ARGUMENT])], m.chunks[d.memoryNum := 0],
           Zeros(m.mem, d.base, d.limit))
  }

  /** `syscall_return`: the next instruction, and the result in register 2. */
  function Returned(regs: seq<int>, value: int): seq<int>
    requires |regs| == REGISTERS
  {
    regs[PC := regs[NEXT_PC]][RESULT := value]
  }

  /** The user program of `p` runs, or a call of `p` completes: its registers and its own bytes change. */
  function Write(m: Memory, p: Proc, regs: seq<int>, bytes: seq<Byte>): Memory
    requires p in m.image && m.image[p].base + |bytes| <= |m.mem|
  {
    m.(image := m.image[p := m.image[p].(regs := regs)], mem := Replace(m.mem, m.image[p].base, bytes))
  }

  function Region(m: Memory, p: Proc): seq<Byte>
    requires p in m.image && m.image[p].base + m.image[p].limit <= |m.mem|
  {
    m.mem[m.image[p].base..m.image[p].base + m.image[p].limit]
  }

  // ---------------------------------------------------------------- the invariant

  /** A live process owns a chunk that is marked taken and lies in memory. */
  predicate Placed(m: Memory, p: Proc) {
    && p in m.image && |m.image[p].regs| == REGISTERS
    && m.image[p].memoryNum < CHUNKS && m.image[p].memoryNum < |m.chunks| && m.chunks[m.image[p].memoryNum] == 1
    && m.image[p].base == m.image[p].memoryNum * CHUNK && m.image[p].limit == CHUNK
    && m.image[p].base + CHUNK <= |m.mem|
  }

  predicate Owns(m: Memory, live: set<Proc>, p: Proc, i: nat) {
    p in live && p in m.image && m.image[p].memoryNum == i
  }

  /** A chunk is marked taken exactly when a live process owns it, and then only one does. */
  ghost predicate MemoryInv(m: Memory, live: set<Proc>) {
    && |m.chunks| == CHUNKS && |m.mem| == MEMORY
    && (forall p | p in live :: Placed(m, p))
    && (forall p, q, i {:trigger Owns(m, live, p, i), Owns(m, live, q, i)} ::
          Owns(m, live, p, i) && Owns(m, live, q, i) ==> p == q)
    && (forall i | 0 <= i < CHUNKS :: m.chunks[i] == 0 || (m.chunks[i] == 1 && exists p :: Owns(m, live, p, i)))
  }

  /** Regions of different live processes do not overlap. */
  lemma Apart(m: Memory, live: set<Proc>, p: Proc, q: Proc)
    requires MemoryInv(m, live) && p in live && q in live && p != q
    ensures p in m.image && q in m.image
    ensures m.image[p].base + CHUNK <= m.image[q].base || m.image[q].base + CHUNK <= m.image[p].base
  {
    assert Placed(m, p) && Placed(m, q);
    assert Owns(m, live, p, m.image[p].memoryNum) && Owns(m, live, q, m.image[q].memoryNum);
  }

  lemma PlacedIn(m: Memory, live: set<Proc>, p: Proc)
    requires MemoryInv(m, live) && p in live
    ensures Placed(m, p) && Owns(m, live, p, m.image[p].memoryNum)
  {
  }

  /** Bytes outside the part that an operation writes stay as they are. */
  lemma ZerosElsewhere(mem: seq<Byte>, at: nat, n: nat, b: nat, k: nat)
    requires at + n <= |mem| && b + k <= |mem| && (b + k <= at || at + n <= b)
    ensures Zeros(mem, at, n)[b..b + k] == mem[b..b + k]
  {
  }

  lemma ReplaceElsewhere(mem: seq<Byte>, at: nat, bytes: seq<Byte>, b: nat, k: nat)
    requires at + |bytes| <= |mem| && b + k <= |mem| && (b + k <= at || at + |bytes| <= b)
    ensures Replace(mem, at, bytes)[b..b + k] == mem[b..b + k]
  {
  }

  // ---------------------------------------------------------------- fork

  predicate CanFork(m: Memory, live: set<Proc>, p: Proc, c: Proc) {
    p in live && c !in live && FreeChunk(m.chunks, 0) < |m.chunks|
  }

  lemma ForkRoom(m: Memory, live: set<Proc>, p: Proc, c: Proc)
    requires MemoryInv(m, live) && CanFork(m, live, p, c)
    ensures var i := FreeChunk(m.chunks, 0);
      p in m.image && m.image[p].base + CHUNK <= |m.mem| && i * CHUNK + CHUNK <= |m.mem|
      && m.chunks[i] == 0 && Placed(m, p) && m.image[p].memoryNum != i
  {
  }

  lemma ForkOwns(m: Memory, live: set<Proc>, p: Proc, c: Proc, q: Proc, j: nat)
    requires MemoryInv(m, live) && CanFork(m, live, p, c)
    ensures p in m.image && m.image[p].base + CHUNK <= |m.mem| && FreeChunk(m.chunks, 0) * CHUNK + CHUNK <= |m.mem|
    ensures Owns(MemoryFork(m, p, c, FreeChunk(m.chunks, 0)), live + {c}, q, j)
       <==> if q == c then j == FreeChunk(m.chunks, 0) else Owns(m, live, q, j)
  {
  }

  lemma ForkMemory(m: Memory, live: set<Proc>, p: Proc, c: Proc)
    requires MemoryInv(m, live) && CanFork(m, live, p, c)
    ensures p in m.image && m.image[p].base + CHUNK <= |m.mem| && FreeChunk(m.chunks, 0) * CHUNK + CHUNK <= |m.mem|
    ensures MemoryInv(MemoryFork(m, p, c, FreeChunk(m.chunks, 0)), live + {c})
  {
    ForkRoom(m, live, p, c);
    var i := FreeChunk(m.chunks, 0);
    var m' := MemoryFork(m, p, c, i);
    forall q | q in live + {c} ensures Placed(m', q) {
      if q != c { PlacedIn(m, live, q); }
    }
    forall q, r, j | Owns(m', live + {c}, q, j) && Owns(m', live + {c}, r, j) ensures q == r {
      ForkOwns(m, live, p, c, q, j);
      ForkOwns(m, live, p, c, r, j);
      if q != c { PlacedIn(m, live, q); }
      if r != c { PlacedIn(m, live, r); }
    }
    forall j | 0 <= j < CHUNKS
      ensures m'.chunks[j] == 0 || (m'.chunks[j] == 1 && exists q :: Owns(m', live + {c}, q, j))
    {
      if j == i {
        assert Owns(m', live + {c}, c, j);
      } else if m.chunks[j] != 0 {
        var q :| Owns(m, live, q, j);
        ForkOwns(m, live, p, c, q, j);
      }
    }
  }

  /** The child starts with its parent's registers and bytes. */
  lemma ForkDuplicates(m: Memory, live: set<Proc>, p: Proc, c: Proc)
    requires MemoryInv(m, live) && CanFork(m, live, p, c)
    ensures p in m.image && m.image[p].base + CHUNK <= |m.mem| && FreeChunk(m.chunks, 0) * CHUNK + CHUNK <= |m.mem|
    ensures var m' := MemoryFork(m, p, c, FreeChunk(m.chunks, 0));
      && Placed(m', c) && Placed(m', p) && Placed(m, p)
      && m'.image[c].regs == m.image[p].regs && m'.image[c].sbrk == m.image[p].sbrk
      && Region(m', c) == Region(m, p)
  {
  }

  /** Registers and bytes of process `q` are those it had. */
  predicate Untouched(m: Memory, m': Memory, q: Proc) {
    Placed(m, q) && Placed(m', q) && m'.image[q] == m.image[q] && Region(m', q) == Region(m, q)
  }

  lemma ForkElsewhere(m: Memory, live: set<Proc>, p: Proc, c: Proc, q: Proc)
    requires MemoryInv(m, live) && CanFork(m, live, p, c) && q in live
    ensures p in m.image && m.image[p].base + CHUNK <= |m.mem| && FreeChunk(m.chunks, 0) * CHUNK + CHUNK <= |m.mem|
    ensures Untouched(m, MemoryFork(m, p, c, FreeChunk(m.chunks, 0)), q)
  {
  }

  // ---------------------------------------------------------------- exit

  lemma ExitMemory(m: Memory, live: set<Proc>, p: Proc)
    requires MemoryInv(m, live) && p in live
    ensures Placed(m, p) && MemoryInv(MemoryExit(m, p), live - {p})
  {
    PlacedIn(m, live, p);
    var m' := MemoryExit(m, p);
    forall q | q in live - {p} ensures Placed(m', q) {
      PlacedIn(m, live, q);
    }
    forall q, i | Owns(m', live - {p}, q, i) ensures Owns(m, live, q, i) {
    }
    forall j | 0 <= j < CHUNKS
      ensures m'.chunks[j] == 0 || (m'.chunks[j] == 1 && exists q :: Owns(m', live - {p}, q, j))
    {
      if j != m.image[p].memoryNum && m.chunks[j] != 0 {
        var q :| Owns(m, live, q, j);
        assert Owns(m', live - {p}, q, j);
      }
    }
  }

  /** It leaves the region zero, the chunk free, and the argument of `exit` as the exit value. */
  lemma ExitClears(m: Memory, live: set<Proc>, p: Proc)
    requires MemoryInv(m, live) && p in live
    ensures Placed(m, p) && p in MemoryExit(m, p).image
    ensures var m', d := MemoryExit(m, p), m.image[p];
      && |m'.mem| == |m.mem| && (forall i | d.base <= i < d.base + CHUNK :: m'.mem[i] == 0)
      && d.memoryNum < |m'.chunks| && m'.chunks[d.memoryNum] == 0 && m'.image[p].exitValue == d.regs[5]
  {
    PlacedIn(m, live, p);
  }

  lemma ExitElsewhere(m: Memory, live: set<Proc>, p: Proc, q: Proc)
    requires MemoryInv(m, live) && p in live && q in live && p != q
    ensures Placed(m, p) && Untouched(m, MemoryExit(m, p), q)
  {
    PlacedIn(m, live, p);
    PlacedIn(m, live, q);
    Apart(m, live, p, q);
    ZerosElsewhere(m.mem, m.image[p].base, m.image[p].limit, m.image[q].base, CHUNK);
  }

  // ---------------------------------------------------------------- everything else

  lemma WriteMemory(m: Memory, live: set<Proc>, p: Proc, regs: seq<int>, bytes: seq<Byte>)
    requires MemoryInv(m, live) && p in live && |regs| == REGISTERS && |bytes| == CHUNK
    ensures Placed(m, p) && MemoryInv(Write(m, p, regs, bytes), live)
  {
    PlacedIn(m, live, p);
    var m' := Write(m, p, regs, bytes);
    forall q | q in live ensures Placed(m', q) {
      PlacedIn(m, live, q);
    }
    forall q, i ensures Owns(m', live, q, i) <==> Owns(m, live, q, i) {
    }
    forall j | 0 <= j < CHUNKS && m.chunks[j] == 1 ensures exists q :: Owns(m', live, q, j) {
      var q :| Owns(m, live, q, j);
      assert Owns(m', live, q, j);
    }
  }

  lemma WriteElsewhere(m: Memory, live: set<Proc>, p: Proc, regs: seq<int>, bytes: seq<Byte>, q: Proc)
    requires MemoryInv(m, live) && p in live && q in live && p != q && |bytes| == CHUNK
    ensures Placed(m, p) && Untouched(m, Write(m, p, regs, bytes), q)
  {
    PlacedIn(m, live, p);
    PlacedIn(m, live, q);
    Apart(m, live, p, q);
    ReplaceElsewhere(m.mem, m.image[p].base, bytes, m.image[q].base, CHUNK);
  }

  lemma WriteThere(m: Memory, p: Proc, regs: seq<int>, bytes: seq<Byte>)
    requires Placed(m, p) && |regs| == REGISTERS && |bytes| == CHUNK
    ensures Placed(Write(m, p, regs, bytes), p)
    ensures Region(Write(m, p, regs, bytes), p) == bytes && Write(m, p, regs, bytes).image[p].regs == regs
  {
  }

  // ---------------------------------------------------------------- how many live

  /** A fork finds no chunk exactly when eight processes are live. */
  lemma FullIff(m: Memory, live: set<Proc>)
    requires MemoryInv(m, live)
    ensures FreeChunk(m.chunks, 0) == CHUNKS <==> |live| == CHUNKS
  {
    var all := Below(CHUNKS);
    var owned := set i | i in all && m.chunks[i] != 0;
    OwnedSize(m, live, owned, all);
    SubsetSize(owned, all);
    if FreeChunk(m.chunks, 0) < CHUNKS {
      assert FreeChunk(m.chunks, 0) in all && FreeChunk(m.chunks, 0) !in owned;
    } else {
      assert owned == all;
    }
  }

  lemma OwnedSize(m: Memory, live: set<Proc>, owned: set<nat>, all: set<nat>)
    requires MemoryInv(m, live) && forall i: nat :: i in all <==> i < CHUNKS
    requires owned == set i | i in all && m.chunks[i] != 0
    ensures |live| == |owned|
  {
    forall p | p in live ensures p in m.image && m.image[p].memoryNum in owned {
      PlacedIn(m, live, p);
    }
    LiveSize(m, live, owned);
  }

  /** As many processes live as chunks are taken. */
  lemma {:induction false} LiveSize(m: Memory, live: set<Proc>, owned: set<nat>)
    requires forall p | p in live :: p in m.image && m.image[p].memoryNum in owned
    requires forall p, q, i {:trigger Owns(m, live, p, i), Owns(m, live, q, i)} ::
               Owns(m, live, p, i) && Owns(m, live, q, i) ==> p == q
    requires forall i | i in owned :: exists p :: Owns(m, live, p, i)
    ensures |live| == |owned|
    decreases |owned|
  {
    if owned == {} {
      assert live == {};
    } else {
      var i :| i in owned;
      var p :| Owns(m, live, p, i);
      var live', owned' := live - {p}, owned - {i};
      forall q | q in live' ensures q in m.image && m.image[q].memoryNum in owned' {
        if m.image[q].memoryNum == i { assert Owns(m, live, q, i); }
      }
      forall q, j ensures Owns(m, live', q, j) ==> Owns(m, live, q, j) {
      }
      forall j | j in owned' ensures exists q :: Owns(m, live', q, j) {
        var q :| Owns(m, live, q, j);
        assert Owns(m, live', q, j);
      }
      LiveSize(m, live', owned');
    }
  }
}
