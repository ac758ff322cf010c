/** Parents, children, zombies and process identifiers: what `do_fork`, `do_exit` and `do_wait` do to
    the family links of the process control blocks. */
module ProcessTree {
  import opened Base

  /** The range of the `unsigned short` that holds a process identifier. */
  const PIDS: nat := 65536

  /** The family fields of `struct PCB`: `children` by process identifier, `waiters` the exited children
      nobody has waited for, `sem` the permits of `waiters_sem`. Two histories: the children that exited
      while this process was their parent, and those it has waited for, both in order. */
  datatype Family = Family(pid: nat, parent: Proc, children: map<nat, Proc>, waiters: seq<Proc>, sem: nat,
                           exited: seq<Proc>, reaped: seq<Proc>)

  /** Every allocated control block, the processes that have not exited, and the identifiers in use. */
  datatype Tree = Tree(fam: map<Proc, Family>, live: set<Proc>, rbtree: set<nat>, next: Proc)

  // ---------------------------------------------------------------- get_new_pid

  /** The first number from `n` on that is not in use. */
  function LeastFrom(used: set<nat>, n: nat): (k: nat)
    ensures k >= n && k !in used && forall j | n <= j < k :: j in used
    decreases |used|
  {
    if n !in used then n else
      var k' := LeastFrom(used - {n}, n + 1);
      assert forall j | n <= j < k' :: j in used by {
        forall j | n <= j < k' ensures j in used {
          if j != n { assert j in used - {n}; }
        }
      }
      k'
  }

  lemma {:induction false} IntervalSize(used: set<nat>, k: nat)
    requires forall j | 0 <= j < k :: j in used
    ensures k <= |used|
  {
    if k > 0 { IntervalSize(used - {k - 1}, k - 1); }
  }

  // ---------------------------------------------------------------- the three calls

  function NewPid(t: Tree): nat { LeastFrom(t.rbtree, 0) }

  /** The child of a fork, before it has any family of its own. */
  function Newborn(t: Tree, p: Proc): Family {
    Family(NewPid(t) % PIDS, p, map[], [], 0, [], [])
  }

  function TreeFork(t: Tree, p: Proc): Tree
    requires p in t.fam
  {
    var f := t.fam[p];
    Tree(t.fam[p := f.(children := f.children[NewPid(t) % PIDS := t.next])][t.next := Newborn(t, p)],
         t.live + {t.next}, t.rbtree + {NewPid(t)}, t.next + 1)
  }

  /** The exiting process is freed at once when its parent's identifier is 0, else left a zombie. */
  predicate FreedAtOnce(t: Tree, p: Proc)
    requires p in t.fam && t.fam[p].parent in t.fam
  {
    t.fam[t.fam[p].parent].pid == 0
  }

  predicate Orphan(f: Family, a: Proc) { a in f.children.Values || a in f.waiters }

  /** What the exit of `p` does to another control block: its children and its zombies go to init, and
      it leaves its parent's children for its parent's zombies. */
  function AfterExit(t: Tree, p: Proc, a: Proc): Family
    requires p in t.fam && a in t.fam && t.fam[p].parent in t.fam
  {
    var e, f := t.fam[p], t.fam[a];
    var f1 := if a == e.parent then f.(children := f.children - {e.pid}) else f;
    var f2 := if Orphan(e, a) then f1.(parent := INIT) else f1;
    var f3 := if a == INIT then
                f2.(children := f2.children + e.children, waiters := f2.waiters + e.waiters,
                    sem := f2.sem + |e.waiters|)
              else f2;
    if a == e.parent && !FreedAtOnce(t, p) then
      f3.(waiters := f3.waiters + [p], sem := f3.sem + 1, exited := f3.exited + [p])
    else f3
  }

  function TreeExit(t: Tree, p: Proc): Tree
    requires p in t.fam && t.fam[p].parent in t.fam
  {
    var others := map a | a in t.fam && a != p :: AfterExit(t, p, a);
    if FreedAtOnce(t, p) then Tree(others, t.live - {p}, t.rbtree - {t.fam[p].pid}, t.next)
    else Tree(others[p := t.fam[p].(children := map[], waiters := [])], t.live - {p}, t.rbtree, t.next)
  }

  /** The process that `do_wait` finds at the head of the list. */
  function TreeWait(t: Tree, p: Proc): Tree
    requires p in t.fam && t.fam[p].waiters != [] && t.fam[p].waiters[0] in t.fam && t.fam[p].sem > 0
    requires t.fam[p].waiters[0] != p
  {
    var f := t.fam[p];
    var z := f.waiters[0];
    Tree((t.fam - {z})[p := f.(waiters := f.waiters[1..], sem := f.sem - 1, reaped := f.reaped + [z])],
         t.live, t.rbtree - {t.fam[z].pid}, t.next)
  }

  // ---------------------------------------------------------------- the invariant

  predicate Home(t: Tree, a: Proc) { a == INIT || a in t.live }

  predicate Zombie(t: Tree, z: Proc) { z in t.fam && z != INIT && z !in t.live }

  predicate NoRepeats(s: seq<Proc>) { forall i, j | 0 <= i < j < |s| :: s[i] != s[j] }

  predicate Members(t: Tree) {
    INIT in t.fam && INIT !in t.live && t.live <= t.fam.Keys && t.fam[INIT].pid == 0
  }

  /** A process has a parent that is live or init and was created earlier. It is among the children of
      its parent, under its identifier, while it lives, and among the waiters once it has exited. */
  predicate Kin(t: Tree, a: Proc)
    requires a in t.fam
  {
    a < t.next &&
    (a != INIT ==>
       var f := t.fam[a];
       && f.parent < a && Home(t, f.parent) && f.parent in t.fam
       && (if a in t.live then f.pid in t.fam[f.parent].children && t.fam[f.parent].children[f.pid] == a
           else a in t.fam[f.parent].waiters))
  }

  /** `children` of a process: nothing but its live children, each under its identifier. */
  predicate Kids(t: Tree, a: Proc)
    requires a in t.fam
  {
    forall k | k in t.fam[a].children ::
      var c := t.fam[a].children[k]; c in t.live && c in t.fam && t.fam[c].parent == a && t.fam[c].pid == k
  }

  /** `waiters` of a process: nothing but its zombies, each once, and counted by `waiters_sem`. */
  predicate Waits(t: Tree, a: Proc)
    requires a in t.fam
  {
    && (forall i | 0 <= i < |t.fam[a].waiters| ::
          Zombie(t, t.fam[a].waiters[i]) && t.fam[t.fam[a].waiters[i]].parent == a)
    && NoRepeats(t.fam[a].waiters)
    && (Home(t, a) ==> t.fam[a].sem == |t.fam[a].waiters|)
  }

  /** What a process has waited for, then what is waiting, are its exited children in exit order, none
      of them twice. */
  predicate Past(t: Tree, a: Proc)
    requires a in t.fam
  {
    a in t.live ==>
      && t.fam[a].reaped + t.fam[a].waiters == t.fam[a].exited && NoRepeats(t.fam[a].exited)
      && forall i | 0 <= i < |t.fam[a].exited| :: t.fam[a].exited[i] !in t.live && t.fam[a].exited[i] < t.next
  }

  /** Everything about one control block. */
  predicate Well(t: Tree, a: Proc) {
    a in t.fam && Kin(t, a) && Kids(t, a) && Waits(t, a) && Past(t, a)
  }

  ghost predicate AllWell(t: Tree) {
    forall a {:trigger Well(t, a)} :: a in t.fam ==> Well(t, a)
  }

  /** The identifiers in use are those of the control blocks, all different and in range. */
  predicate Bears(t: Tree, k: nat, a: Proc) { a in t.fam && t.fam[a].pid == k }

  ghost predicate Pids(t: Tree) {
    && (forall a: Proc, b: Proc, k: nat {:trigger Bears(t, k, a), Bears(t, k, b)} ::
          Bears(t, k, a) && Bears(t, k, b) ==> a == b)
    && (forall k: nat, a: Proc {:trigger Bears(t, k, a)} :: Bears(t, k, a) ==> k in t.rbtree && k < PIDS)
    && (forall k: nat | k in t.rbtree :: exists a: Proc :: Bears(t, k, a))
  }

  ghost predicate TreeInv(t: Tree) {
    Members(t) && AllWell(t) && Pids(t)
  }

  /** Init and the first process. */
  function TreeBoot(): Tree {
    Tree(map[INIT := Family(0, INIT, map[1 := 1], [], 0, [], []), 1 := Family(1, INIT, map[], [], 0, [], [])],
         {1}, {0, 1}, 2)
  }

  lemma TwoInv(t: Tree)
    requires t.fam.Keys == {INIT, 1} && t.live == {1} && t.rbtree == {0, 1} && t.next == 2
    requires t.fam[1] == Family(1, INIT, map[], [], 0, [], [])
    requires t.fam[INIT].pid == 0 && t.fam[INIT].children == map[1 := 1]
    requires t.fam[INIT].waiters == [] && t.fam[INIT].sem == 0
    ensures TreeInv(t)
  {
    assert forall a | a in t.fam :: a == INIT || a == 1;
    assert Well(t, INIT) && Well(t, 1);
    assert Bears(t, 0, INIT) && Bears(t, 1, 1);
  }

  lemma TreeBootInv()
    ensures TreeInv(TreeBoot())
  {
    assert TreeBoot().fam.Keys == {INIT, 1};
    TwoInv(TreeBoot());
  }

  // ---------------------------------------------------------------- fork

  /** Some identifier in range is free. */
  predicate PidLeft(t: Tree) { NewPid(t) < PIDS }

  lemma OthersPid(t: Tree, p: Proc, a: Proc)
    requires TreeInv(t) && p in t.fam && a in t.fam && a != p
    ensures t.fam[a].pid != t.fam[p].pid
  {
    assert Bears(t, t.fam[a].pid, a) && Bears(t, t.fam[p].pid, p);
  }

  lemma PidInUse(t: Tree, a: Proc)
    requires TreeInv(t) && a in t.fam
    ensures t.fam[a].pid in t.rbtree && t.fam[a].pid < PIDS
  {
    assert Bears(t, t.fam[a].pid, a);
  }

  lemma NextIsNew(t: Tree)
    requires TreeInv(t)
    ensures t.next !in t.fam && t.next != INIT && t.next !in t.live
  {
    assert t.next in t.fam ==> Well(t, t.next);
  }

  lemma ForkOld(t: Tree, p: Proc, a: Proc)
    requires TreeInv(t) && PidLeft(t) && Home(t, p) && a in t.fam && p in t.fam
    ensures Well(TreeFork(t, p), a)
  {
    var t' := TreeFork(t, p);
    NextIsNew(t);
    assert Well(t, a);
    PidInUse(t, a);
    assert Kin(t', a);
    assert Kids(t', a);
    assert Waits(t', a);
    assert Past(t', a);
  }

  lemma ForkNew(t: Tree, p: Proc)
    requires TreeInv(t) && PidLeft(t) && Home(t, p) && p in t.fam
    ensures Well(TreeFork(t, p), t.next)
  {
    NextIsNew(t);
    assert Well(t, p);
  }

  lemma ForkPids(t: Tree, p: Proc)
    requires TreeInv(t) && PidLeft(t) && p in t.fam
    ensures Pids(TreeFork(t, p))
  {
    var t' := TreeFork(t, p);
    NextIsNew(t);
    forall k: nat, a: Proc | Bears(t', k, a)
      ensures if a == t.next then k == NewPid(t) else Bears(t, k, a)
    {
    }
    forall k: nat | k in t'.rbtree ensures exists a: Proc :: Bears(t', k, a) {
      if k == NewPid(t) {
        assert Bears(t', k, t.next);
      } else {
        var a: Proc :| Bears(t, k, a);
        assert Bears(t', k, a);
      }
    }
  }

  lemma ForkTree(t: Tree, p: Proc)
    requires TreeInv(t) && PidLeft(t) && Home(t, p)
    ensures p in t.fam && TreeInv(TreeFork(t, p))
  {
    var t' := TreeFork(t, p);
    NextIsNew(t);
    forall a | a in t'.fam ensures Well(t', a) {
      if a == t.next { ForkNew(t, p); } else { ForkOld(t, p, a); }
    }
    ForkPids(t, p);
  }

  // ---------------------------------------------------------------- exit

  /** The adopted processes are those whose parent was `p`, alive or not. */
  lemma OrphanIff(t: Tree, p: Proc, a: Proc)
    requires TreeInv(t) && p in t.live && p in t.fam && a in t.fam && a != INIT
    ensures Orphan(t.fam[p], a) <==> t.fam[a].parent == p
  {
    assert Well(t, p) && Well(t, a);
    var e := t.fam[p];
    if a in e.children.Values {
      var k :| k in e.children && e.children[k] == a;
    } else if a in e.waiters {
      var i :| 0 <= i < |e.waiters| && e.waiters[i] == a;
    }
    if t.fam[a].parent == p && a in t.live {
      assert e.children[t.fam[a].pid] == a;
    }
  }

  lemma InitIsNoOrphan(t: Tree, p: Proc)
    requires TreeInv(t) && p in t.live && p in t.fam
    ensures !Orphan(t.fam[p], INIT)
  {
    assert Well(t, p);
    forall k | k in t.fam[p].children ensures t.fam[p].children[k] != INIT {
    }
    forall i | 0 <= i < |t.fam[p].waiters| ensures t.fam[p].waiters[i] != INIT {
    }
  }

  /** Init alone bears identifier 0, so a process is freed at once exactly when its parent is init. */
  lemma FreedIff(t: Tree, p: Proc)
    requires TreeInv(t) && p in t.live && p in t.fam
    ensures t.fam[p].parent in t.fam && t.fam[p].parent < p
    ensures FreedAtOnce(t, p) <==> t.fam[p].parent == INIT
  {
    assert Well(t, p);
    assert Bears(t, 0, INIT) && Bears(t, t.fam[t.fam[p].parent].pid, t.fam[p].parent);
  }

  /** The parent of everybody else after the exit, and their identifiers and lists. */
  lemma AfterExitParent(t: Tree, p: Proc, a: Proc)
    requires TreeInv(t) && p in t.live && p in t.fam && a in t.fam && a != p
    ensures t.fam[p].parent in t.fam
    ensures AfterExit(t, p, a).pid == t.fam[a].pid
    ensures AfterExit(t, p, a).parent == if a != INIT && t.fam[a].parent == p then INIT else t.fam[a].parent
  {
    FreedIff(t, p);
    if a != INIT { OrphanIff(t, p, a); } else { InitIsNoOrphan(t, p); }
  }

  lemma ExitKin(t: Tree, p: Proc, a: Proc)
    requires TreeInv(t) && p in t.live && p in t.fam && a in t.fam && a != p
    ensures t.fam[p].parent in t.fam && Kin(TreeExit(t, p), a)
  {
    FreedIff(t, p);
    var t' := TreeExit(t, p);
    AfterExitParent(t, p, a);
    assert Well(t, a);
    if a != INIT {
      var b := t.fam[a].parent;
      OthersPid(t, p, a);
      if b != p {
        AfterExitParent(t, p, b);
        KeptInList(t, p, a);
      }
    }
  }

  /** A process whose parent is not `p` stays in its parent's list. */
  lemma KeptInList(t: Tree, p: Proc, a: Proc)
    requires TreeInv(t) && p in t.live && p in t.fam && a in t.fam && a != p && a != INIT && t.fam[a].parent != p
    ensures t.fam[p].parent in t.fam && t.fam[a].parent in t.fam
    ensures var f := AfterExit(t, p, t.fam[a].parent);
            if a in t.live then t.fam[a].pid in f.children && f.children[t.fam[a].pid] == a else a in f.waiters
  {
    FreedIff(t, p);
    assert Well(t, a) && Well(t, p);
    OthersPid(t, p, a);
    if t.fam[a].pid in t.fam[p].children {
      var c := t.fam[p].children[t.fam[a].pid];
      assert Bears(t, t.fam[a].pid, c) && Bears(t, t.fam[a].pid, a);
    }
  }

  lemma ExitKids(t: Tree, p: Proc, a: Proc)
    requires TreeInv(t) && p in t.live && p in t.fam && a in t.fam && a != p
    ensures t.fam[p].parent in t.fam && Kids(TreeExit(t, p), a)
  {
    FreedIff(t, p);
    var t' := TreeExit(t, p);
    assert Well(t, a) && Well(t, p);
    forall k | k in t'.fam[a].children
      ensures var c := t'.fam[a].children[k];
              c in t'.live && c in t'.fam && t'.fam[c].parent == a && t'.fam[c].pid == k
    {
      var c := t'.fam[a].children[k];
      assert c in t.fam && c in t.live && c != p && t.fam[c].pid == k;
      AfterExitParent(t, p, c);
    }
  }

  lemma ExitZombies(t: Tree, p: Proc, a: Proc)
    requires TreeInv(t) && p in t.live && p in t.fam && a in t.fam && a != p
    ensures t.fam[p].parent in t.fam && a in TreeExit(t, p).fam
    ensures forall i | 0 <= i < |TreeExit(t, p).fam[a].waiters| ::
              var t' := TreeExit(t, p);
              Zombie(t', t'.fam[a].waiters[i]) && t'.fam[t'.fam[a].waiters[i]].parent == a
  {
    FreedIff(t, p);
    var t' := TreeExit(t, p);
    assert Well(t, a) && Well(t, p);
    forall i | 0 <= i < |t'.fam[a].waiters|
      ensures Zombie(t', t'.fam[a].waiters[i]) && t'.fam[t'.fam[a].waiters[i]].parent == a
    {
      var z := t'.fam[a].waiters[i];
      if z != p {
        assert z in t.fam && Zombie(t, z);
        AfterExitParent(t, p, z);
      }
    }
  }

  lemma NoRepeatsThen(s: seq<Proc>, u: seq<Proc>)
    requires NoRepeats(s) && NoRepeats(u) && forall x | x in s :: x !in u
    ensures NoRepeats(s + u)
  {
    forall i, j | 0 <= i < j < |s + u| ensures (s + u)[i] != (s + u)[j] {
      if i < |s| <= j { assert s[i] in s && u[j - |s|] in u; }
    }
  }

  /** Zombies of different parents are different, and nobody waits for `p` yet. */
  lemma ExitRepeats(t: Tree, p: Proc, a: Proc)
    requires TreeInv(t) && p in t.live && p in t.fam && a in t.fam && a != p
    ensures t.fam[p].parent in t.fam && NoRepeats(AfterExit(t, p, a).waiters)
  {
    FreedIff(t, p);
    assert Well(t, a) && Well(t, p);
    var w, v := t.fam[a].waiters, t.fam[p].waiters;
    forall x | x in w ensures x !in v && x != p {
      var i :| 0 <= i < |w| && w[i] == x;
      assert Zombie(t, w[i]);
    }
    forall x | x in v ensures x != p {
      var i :| 0 <= i < |v| && v[i] == x;
      assert Zombie(t, v[i]);
    }
    NoRepeatsThen(w, v);
    NoRepeatsThen(w, [p]);
    var f := AfterExit(t, p, a);
    assert f.waiters == w || f.waiters == w + v || f.waiters == w + [p];
  }

  lemma ExitWaits(t: Tree, p: Proc, a: Proc)
    requires TreeInv(t) && p in t.live && p in t.fam && a in t.fam && a != p
    ensures t.fam[p].parent in t.fam && Waits(TreeExit(t, p), a)
  {
    ExitZombies(t, p, a);
    ExitRepeats(t, p, a);
    assert Well(t, a) && Well(t, p);
  }

  lemma ExitPast(t: Tree, p: Proc, a: Proc)
    requires TreeInv(t) && p in t.live && p in t.fam && a in t.fam && a != p
    ensures t.fam[p].parent in t.fam && Past(TreeExit(t, p), a)
  {
    FreedIff(t, p);
    assert Well(t, a) && Well(t, p);
    var f := t.fam[a];
    assert f.reaped + (f.waiters + [p]) == (f.reaped + f.waiters) + [p];
  }

  lemma ExitSelf(t: Tree, p: Proc)
    requires TreeInv(t) && p in t.live && p in t.fam
    ensures t.fam[p].parent in t.fam && (!FreedAtOnce(t, p) ==> Well(TreeExit(t, p), p))
  {
    FreedIff(t, p);
    assert Well(t, p);
  }

  lemma ExitPids(t: Tree, p: Proc)
    requires TreeInv(t) && p in t.live && p in t.fam
    ensures t.fam[p].parent in t.fam && Pids(TreeExit(t, p))
  {
    FreedIff(t, p);
    var t' := TreeExit(t, p);
    forall k: nat, a: Proc | Bears(t', k, a)
      ensures Bears(t, k, a) && (a == p ==> !FreedAtOnce(t, p))
    {
      if a != p { AfterExitParent(t, p, a); }
    }
    assert Bears(t, t.fam[p].pid, p);
    forall k: nat | k in t'.rbtree ensures exists a: Proc :: Bears(t', k, a) {
      var a: Proc :| Bears(t, k, a);
      if a != p { AfterExitParent(t, p, a); }
      assert Bears(t', k, a);
    }
  }

  /** Exit re-parents every child and every zombie to init and keeps the whole tree in order. */
  lemma ExitTree(t: Tree, p: Proc)
    requires TreeInv(t) && p in t.live
    ensures p in t.fam && t.fam[p].parent in t.fam && TreeInv(TreeExit(t, p))
  {
    FreedIff(t, p);
    var t' := TreeExit(t, p);
    AfterExitParent(t, p, INIT);
    forall a | a in t'.fam ensures Well(t', a) {
      if a == p {
        ExitSelf(t, p);
      } else {
        ExitKin(t, p, a);
        ExitKids(t, p, a);
        ExitWaits(t, p, a);
        ExitPast(t, p, a);
      }
    }
    ExitPids(t, p);
  }

  // ---------------------------------------------------------------- wait

  /** A process that gets a permit of its `waiters_sem` finds a zombie of its own in the list. */
  lemma WaitFinds(t: Tree, p: Proc)
    requires TreeInv(t) && p in t.live && p in t.fam && t.fam[p].sem > 0
    ensures t.fam[p].waiters != [] && Zombie(t, t.fam[p].waiters[0])
    ensures t.fam[t.fam[p].waiters[0]].parent == p && t.fam[p].waiters[0] != p
  {
    assert Well(t, p);
    var z := t.fam[p].waiters[0];
    assert Zombie(t, z) && t.fam[z].parent == p;
  }

  lemma WaitOld(t: Tree, p: Proc, a: Proc)
    requires TreeInv(t) && p in t.live && p in t.fam && t.fam[p].sem > 0 && a in t.fam
    ensures t.fam[p].waiters != [] && t.fam[p].waiters[0] in t.fam && t.fam[p].waiters[0] != p
    ensures a != t.fam[p].waiters[0] ==> Well(TreeWait(t, p), a)
  {
    WaitFinds(t, p);
    var t' := TreeWait(t, p);
    var z := t.fam[p].waiters[0];
    assert Well(t, p) && Well(t, a) && Well(t, z);
    if a != z {
      assert Kin(t', a) by {
        if a != INIT && a !in t.live && t.fam[a].parent == p {
          var i :| 0 <= i < |t.fam[p].waiters| && t.fam[p].waiters[i] == a;
          assert t.fam[p].waiters[1..][i - 1] == a;
        }
      }
      assert Kids(t', a);
      WaitWaits(t, p, a);
      assert Past(t', a) by {
        var f := t.fam[p];
        assert (f.reaped + [z]) + f.waiters[1..] == f.reaped + f.waiters;
      }
    }
  }

  lemma WaitWaits(t: Tree, p: Proc, a: Proc)
    requires TreeInv(t) && p in t.live && p in t.fam && t.fam[p].sem > 0 && a in t.fam
    requires t.fam[p].waiters != [] && t.fam[p].waiters[0] in t.fam && t.fam[p].waiters[0] != p
    requires a != t.fam[p].waiters[0]
    ensures Waits(TreeWait(t, p), a)
  {
    var t' := TreeWait(t, p);
    var z := t.fam[p].waiters[0];
    assert Well(t, p) && Well(t, a);
    forall i | 0 <= i < |t'.fam[a].waiters|
      ensures Zombie(t', t'.fam[a].waiters[i]) && t'.fam[t'.fam[a].waiters[i]].parent == a
    {
      var y := t'.fam[a].waiters[i];
      if a == p {
        assert y == t.fam[p].waiters[i + 1];
      } else {
        assert y == t.fam[a].waiters[i] && t.fam[z].parent == p;
      }
    }
  }

  lemma WaitPids(t: Tree, p: Proc)
    requires TreeInv(t) && p in t.live && p in t.fam && t.fam[p].sem > 0
    requires t.fam[p].waiters != [] && t.fam[p].waiters[0] in t.fam && t.fam[p].waiters[0] != p
    ensures Pids(TreeWait(t, p))
  {
    var t' := TreeWait(t, p);
    var z := t.fam[p].waiters[0];
    assert Bears(t, t.fam[z].pid, z);
    forall k: nat, a: Proc | Bears(t', k, a) ensures Bears(t, k, a) && a != z {
    }
    forall k: nat | k in t'.rbtree ensures exists a: Proc :: Bears(t', k, a) {
      var a: Proc :| Bears(t, k, a);
      assert Bears(t', k, a);
    }
  }

  lemma WaitTree(t: Tree, p: Proc)
    requires TreeInv(t) && p in t.live && p in t.fam && t.fam[p].sem > 0
    ensures t.fam[p].waiters != [] && t.fam[p].waiters[0] in t.fam && t.fam[p].waiters[0] != p
    ensures TreeInv(TreeWait(t, p))
  {
    WaitFinds(t, p);
    WaitPids(t, p);
    forall a | a in TreeWait(t, p).fam ensures Well(TreeWait(t, p), a) {
      WaitOld(t, p, a);
    }
  }

  // ---------------------------------------------------------------- what follows

  lemma PidLeftIff(t: Tree)
    requires TreeInv(t)
    ensures PidLeft(t) <==> |t.rbtree| < PIDS
  {
    IntervalSize(t.rbtree, NewPid(t));
    forall k | k in t.rbtree ensures k in Below(PIDS) {
      var a: Proc :| Bears(t, k, a);
    }
    SubsetSize(t.rbtree, Below(PIDS));
    if !PidLeft(t) {
      SubsetSize(Below(PIDS), t.rbtree);
    }
  }

  /** A fork keeps the tree in order exactly when an identifier below 65536 is free: past that, the
      truncated identifier of the child is init's. */
  lemma ForkTreeIff(t: Tree, p: Proc)
    requires TreeInv(t) && Home(t, p)
    ensures p in t.fam && (TreeInv(TreeFork(t, p)) <==> |t.rbtree| < PIDS)
  {
    PidLeftIff(t);
    if PidLeft(t) {
      ForkTree(t, p);
    } else {
      NextIsNew(t);
      forall k | k in t.rbtree ensures k < PIDS {
        var a: Proc :| Bears(t, k, a);
      }
      assert NewPid(t) > PIDS ==> PIDS in t.rbtree;
      assert Bears(TreeFork(t, p), 0, t.next) && Bears(TreeFork(t, p), 0, INIT);
    }
  }

  /** Going from parent to parent, one leaves the live processes only at init: the oldest live process
      is init's child. */
  lemma OldestIsInits(t: Tree, p: Proc)
    requires TreeInv(t) && p in t.live && forall a | a in t.live :: p <= a
    ensures p in t.fam && t.fam[p].parent == INIT && t.fam[INIT].children != map[]
  {
    assert Well(t, p);
  }

  lemma {:induction false} Oldest(s: set<Proc>) returns (p: Proc)
    requires s != {}
    ensures p in s && forall a | a in s :: p <= a
  {
    var x :| x in s;
    if s == {x} {
      p := x;
    } else {
      assert s - {x} != {};
      var y := Oldest(s - {x});
      p := if x < y then x else y;
      assert forall a | a in s :: a == x || a in s - {x};
    }
  }

  /** Init has no children exactly when nothing is alive. */
  lemma ChildlessIff(t: Tree)
    requires TreeInv(t)
    ensures t.fam[INIT].children == map[] <==> t.live == {}
  {
    if t.live != {} {
      var p := Oldest(t.live);
      OldestIsInits(t, p);
    } else {
      assert Well(t, INIT);
      assert forall k :: k !in t.fam[INIT].children;
    }
  }

  // ---------------------------------------------------------------- the tree in plain terms

  /** A zombie is in the list of its parent, which is live or init, once, and in nobody else's. */
  lemma OneList(t: Tree, z: Proc)
    requires TreeInv(t) && Zombie(t, z)
    ensures Home(t, t.fam[z].parent) && t.fam[z].parent in t.fam && z in t.fam[t.fam[z].parent].waiters
    ensures NoRepeats(t.fam[t.fam[z].parent].waiters)
    ensures forall b | b in t.fam && z in t.fam[b].waiters :: b == t.fam[z].parent
  {
    assert Well(t, z);
    assert Well(t, t.fam[z].parent);
    forall b | b in t.fam && z in t.fam[b].waiters ensures b == t.fam[z].parent {
      assert Well(t, b);
      var i :| 0 <= i < |t.fam[b].waiters| && t.fam[b].waiters[i] == z;
      assert Zombie(t, t.fam[b].waiters[i]) && t.fam[t.fam[b].waiters[i]].parent == b;
    }
  }

  /** The children of a process are its live children, each under its identifier. */
  lemma ChildrenExact(t: Tree, a: Proc, k: nat, c: Proc)
    requires TreeInv(t) && a in t.fam
    ensures k in t.fam[a].children && t.fam[a].children[k] == c
       <==> c in t.live && c in t.fam && t.fam[c].parent == a && t.fam[c].pid == k
  {
    assert Well(t, a);
    if c in t.fam { assert Well(t, c); }
  }

  lemma PidSet(t: Tree)
    requires TreeInv(t)
    ensures t.rbtree == set a | a in t.fam :: t.fam[a].pid
  {
    var pids := set a | a in t.fam :: t.fam[a].pid;
    forall k | k in t.rbtree ensures k in pids {
      var a: Proc :| Bears(t, k, a);
    }
    forall k | k in pids ensures k in t.rbtree {
      var a :| a in t.fam && t.fam[a].pid == k;
      PidInUse(t, a);
    }
  }

  lemma PidCount(t: Tree)
    requires TreeInv(t)
    ensures |t.rbtree| == |t.fam|
  {
    var pids := map a | a in t.fam :: t.fam[a].pid;
    assert pids.Keys == t.fam.Keys;
    forall a | a in t.fam ensures pids[a] in t.rbtree { PidInUse(t, a); }
    forall a, b | a in t.fam && b in t.fam && pids[a] == pids[b] ensures a == b {
      assert Bears(t, pids[a], a) && Bears(t, pids[a], b);
    }
    InjectionSize(t.fam.Keys, pids, t.rbtree);
    Bearers(t, t.rbtree);
  }

  /** The identifiers in use are those of init, the live processes and the zombies, as many as there are
      of these; and a fork takes the least that is not in use. */
  lemma PidsExact(t: Tree)
    requires TreeInv(t)
    ensures t.rbtree == (set a | a in t.fam :: t.fam[a].pid) && |t.rbtree| == |t.fam|
    ensures forall a | a in t.fam :: a == INIT || a in t.live || Zombie(t, a)
    ensures NewPid(t) !in t.rbtree && forall j | 0 <= j < NewPid(t) :: j in t.rbtree
  {
    PidSet(t);
    PidCount(t);
  }

  /** No more identifiers than control blocks. */
  lemma {:induction false} Bearers(t: Tree, s: set<nat>)
    requires forall k | k in s :: exists a: Proc :: Bears(t, k, a)
    ensures |s| <= |t.fam|
    decreases |s|, |t.fam|
  {
    if s != {} {
      var k :| k in s;
      var a: Proc :| Bears(t, k, a);
      var t' := t.(fam := t.fam - {a});
      forall j | j in s - {k} ensures exists b: Proc :: Bears(t', j, b) {
        var b: Proc :| Bears(t, j, b);
        assert Bears(t', j, b);
      }
      assert t'.fam.Keys == t.fam.Keys - {a} && |t'.fam.Keys| == |t.fam.Keys| - 1;
      Bearers(t', s - {k});
    }
  }

  // ---------------------------------------------------------------- what a call leaves of the lists

  /** `t'` has nobody alive that was not, but perhaps the next process, and for who stays alive the
      histories only grow. */
  predicate Onward(t: Tree, t': Tree, p: Proc) {
    && t.next <= t'.next && (p in t'.live ==> p in t.live || p == t.next)
    && (p in t.live && p in t'.live && p in t.fam ==>
          p in t'.fam && t.fam[p].exited <= t'.fam[p].exited && t.fam[p].reaped <= t'.fam[p].reaped)
  }

  lemma ForkOnward(t: Tree, a: Proc, p: Proc)
    requires TreeInv(t) && a in t.fam
    ensures Onward(t, TreeFork(t, a), p)
  {
    NextIsNew(t);
  }

  lemma ExitOnward(t: Tree, a: Proc, p: Proc)
    requires a in t.fam && t.fam[a].parent in t.fam
    ensures Onward(t, TreeExit(t, a), p)
  {
  }

  lemma WaitOnward(t: Tree, a: Proc, p: Proc)
    requires TreeInv(t) && a in t.live && a in t.fam && t.fam[a].sem > 0
    ensures t.fam[a].waiters != [] && t.fam[a].waiters[0] in t.fam && t.fam[a].waiters[0] != a
    ensures Onward(t, TreeWait(t, a), p)
  {
    WaitFinds(t, a);
  }
}
