/** What some run can lead to: which exited processes can still be collected, and runs into the states
    where the code goes wrong. */
module ProcessReach {
  import opened Base
  import opened ProcessTree
  import opened UserMemory
  import opened Processes
  import opened ProcessRuns

  /** The exited process has been freed; some process has been taken over by init for good; a fork finds
      memory for its child but no identifier. */
  datatype Goal = Collected(z: Proc) | SomeAbandoned | NoPidLeft

  ghost predicate Met(s: State, g: Goal) {
    match g
    case Collected(z) => z !in s.tree.fam
    case SomeAbandoned => exists z :: Abandoned(s.tree, z)
    case NoPidLeft => exists p :: Enabled(s, DoFork(p)) && !Regular(s, DoFork(p))
  }

  /** Some run leads there. */
  ghost predicate CanReach(s: State, g: Goal)
  {
    exists es :: Run(s, es) && Met(After(s, es), g)
  }

  lemma ReachedBy(s: State, es: seq<Event>, g: Goal)
    requires Inv(s) && Run(s, es) && Met(After(s, es), g)
    ensures CanReach(s, g)
  {
  }

  lemma ReachedNow(s: State, g: Goal)
    requires Inv(s) && Met(s, g)
    ensures CanReach(s, g)
  {
    ReachedBy(s, [], g);
  }

  /** `s'` comes after `s` by a regular step. */
  ghost predicate Leads(s: State, e: Event, s': State) {
    Inv(s) && Enabled(s, e) && Regular(s, e) && s' == Step(s, e) && Inv(s')
  }

  lemma RunFirst(s: State, e: Event, s': State, es: seq<Event>)
    requires Leads(s, e, s') && Run(s', es)
    ensures Run(s, [e] + es) && After(s, [e] + es) == After(s', es)
  {
    assert ([e] + es)[0] == e && ([e] + es)[1..] == es;
  }

  lemma ReachFirst(s: State, e: Event, s': State, g: Goal)
    requires Leads(s, e, s') && CanReach(s', g)
    ensures CanReach(s, g)
  {
    var es :| Run(s', es) && Met(After(s', es), g);
    RunFirst(s, e, s', es);
    ReachedBy(s, [e] + es, g);
  }

  // ---------------------------------------------------------------- runs in which one process waits

  predicate Asks(s: State, p: Proc, number: int) {
    Placed(s.memory, p) && s.memory.image[p].regs[TYPE] == number
  }

  /** A step of a run in which user code other than that of `p` only waits to be interrupted, and `p`
      makes no call but `wait`. */
  predicate Patient(s: State, e: Event, p: Proc) {
    match e
    case Schedule => true
    case Interrupt => true
    case FinishFork(_) => true
    case Execute(_, _) => s.curr == Some(p)
    case Trap => s.curr == Some(p) && Asks(s, p, SYS_WAIT)
    case DoWait(a) => a == p && Asks(s, p, SYS_WAIT)
    case _ => false
  }

  ghost predicate AllPatient(s: State, es: seq<Event>, p: Proc)
    decreases |es|
  {
    es == [] || (Patient(s, es[0], p) && AllPatient(Step(s, es[0]), es[1..], p))
  }

  /** `p` can free `z` by waiting, whatever the others are doing. */
  ghost predicate CanCollect(s: State, p: Proc, z: Proc)
  {
    exists es :: Run(s, es) && AllPatient(s, es, p) && z !in After(s, es).tree.fam
  }

  lemma CollectedNow(s: State, p: Proc, z: Proc)
    requires Inv(s) && z !in s.tree.fam
    ensures CanCollect(s, p, z)
  {
    assert Run(s, []) && AllPatient(s, [], p) && After(s, []) == s;
  }

  lemma CollectFirst(s: State, e: Event, s': State, p: Proc, z: Proc)
    requires Leads(s, e, s') && Patient(s, e, p) && CanCollect(s', p, z)
    ensures CanCollect(s, p, z)
  {
    var es :| Run(s', es) && AllPatient(s', es, p) && z !in After(s', es).tree.fam;
    RunFirst(s, e, s', es);
    PatientFirst(s, e, s', es, p);
    CollectedBy(s, [e] + es, p, z);
  }

  lemma CollectedBy(s: State, es: seq<Event>, p: Proc, z: Proc)
    requires Inv(s) && Run(s, es) && AllPatient(s, es, p) && z !in After(s, es).tree.fam
    ensures CanCollect(s, p, z)
  {
  }

  lemma PatientFirst(s: State, e: Event, s': State, es: seq<Event>, p: Proc)
    requires Leads(s, e, s') && Patient(s, e, p) && Run(s', es) && AllPatient(s', es, p) && Run(s, [e] + es)
    ensures AllPatient(s, [e] + es, p)
  {
    assert ([e] + es)[0] == e && ([e] + es)[1..] == es;
  }

  // ---------------------------------------------------------------- from wherever it is

  /** `z` is at place `i` of the exited children that live process `p` has not waited for. */
  ghost predicate Waiting(s: State, p: Proc, z: Proc, i: nat) {
    && Inv(s) && s.halted.No? && p in s.tree.live && p in s.tree.fam
    && i < |s.tree.fam[p].waiters| && s.tree.fam[p].waiters[i] == z
  }

  /** `p` is at place `k` of the ready queue, and `z` next to come at place `i`. */
  ghost predicate AtPlace(s: State, p: Proc, z: Proc, i: nat, k: nat) {
    Waiting(s, p, z, i) && k < |s.readyq| && s.readyq[k] == p
  }

  ghost predicate OnTheCpu(s: State, p: Proc, z: Proc, i: nat) {
    Waiting(s, p, z, i) && s.cpu.InUser? && s.curr == Some(p)
  }

  lemma WaitingEnabled(s: State, p: Proc, z: Proc, i: nat)
    requires Waiting(s, p, z, i) && p in s.calls
    ensures Enabled(s, DoWait(p)) && s.tree.fam[p].waiters[0] in s.tree.fam && s.tree.fam[p].waiters[0] != p
  {
    assert Well(s.tree, p);
    WaitFinds(s.tree, p);
  }

  lemma WaitTakes(t: Tree, p: Proc, z: Proc, i: nat)
    requires p in t.fam && i < |t.fam[p].waiters| && t.fam[p].waiters[i] == z && NoRepeats(t.fam[p].waiters)
    requires t.fam[p].waiters[0] in t.fam && t.fam[p].sem > 0 && t.fam[p].waiters[0] != p
    ensures var t' := TreeWait(t, p);
            if i == 0 then z !in t'.fam
            else p in t'.fam && i - 1 < |t'.fam[p].waiters| && t'.fam[p].waiters[i - 1] == z && t'.live == t.live
  {
  }

  /** A wait of `p` frees the first exited child, and puts `p` in the ready queue. */
  lemma WaitStep(s: State, p: Proc, z: Proc, i: nat)
    requires Waiting(s, p, z, i) && p in s.calls
    ensures Enabled(s, DoWait(p)) && Leads(s, DoWait(p), Step(s, DoWait(p)))
    ensures Step(s, DoWait(p)).readyq == s.readyq + [p] && Step(s, DoWait(p)).halted.No?
    ensures var t' := Step(s, DoWait(p)).tree;
            if i == 0 then z !in t'.fam
            else p in t'.fam && p in t'.live && i - 1 < |t'.fam[p].waiters| && t'.fam[p].waiters[i - 1] == z
  {
    WaitingEnabled(s, p, z, i);
    Ready(s, DoWait(p));
    StepInvIff(s, DoWait(p));
    assert Well(s.tree, p);
    WaitTakes(s.tree, p, z, i);
  }

  lemma WaitBringsOn(s: State, p: Proc, z: Proc, i: nat) returns (s': State)
    requires Waiting(s, p, z, i + 1) && p in s.calls
    ensures Leads(s, DoWait(p), s') && AtPlace(s', p, z, i, |s.readyq|)
  {
    WaitStep(s, p, z, i + 1);
    s' := Step(s, DoWait(p));
  }

  /** A step that leaves the tree alone leaves `z` where it is. */
  lemma WaitingStays(s: State, e: Event, p: Proc, z: Proc, i: nat)
    requires Waiting(s, p, z, i) && Enabled(s, e) && !e.DoFork? && !e.DoExit? && !e.DoWait?
    requires Step(s, e).halted.No?
    ensures Waiting(Step(s, e), p, z, i)
  {
    StepInvIff(s, e);
    SameTree(s, e);
  }

  /** From inside `wait`: for `z`. */
  lemma FromLastWait(s: State, p: Proc, z: Proc)
    requires Waiting(s, p, z, 0) && p in s.calls && Asks(s, p, SYS_WAIT)
    ensures CanCollect(s, p, z)
  {
    WaitStep(s, p, z, 0);
    CollectedNow(Step(s, DoWait(p)), p, z);
    CollectFirst(s, DoWait(p), Step(s, DoWait(p)), p, z);
  }

  /** Or for those before it. */
  lemma {:induction false} FromWait(s: State, p: Proc, z: Proc, i: nat)
    requires Waiting(s, p, z, i) && p in s.calls && Asks(s, p, SYS_WAIT)
    ensures CanCollect(s, p, z)
    decreases i, 0, 0, 0
  {
    if i == 0 {
      FromLastWait(s, p, z);
    } else {
      var s' := WaitBringsOn(s, p, z, i - 1);
      FromNextWait(s, s', p, z, i - 1, |s.readyq|);
    }
  }

  lemma {:induction false} FromNextWait(s: State, s': State, p: Proc, z: Proc, i: nat, k: nat)
    requires Leads(s, DoWait(p), s') && AtPlace(s', p, z, i, k) && Asks(s, p, SYS_WAIT)
    ensures CanCollect(s, p, z)
    decreases i, 4, 0, 0
  {
    FromQueue(s', p, z, i, k);
    CollectFirst(s, DoWait(p), s', p, z);
  }

  /** From the processor with `wait` asked for. */
  lemma {:induction false} FromTrap(s: State, p: Proc, z: Proc, i: nat)
    requires OnTheCpu(s, p, z, i) && Asks(s, p, SYS_WAIT)
    ensures CanCollect(s, p, z)
    decreases i, 1, 0, 0
  {
    WaitingStays(s, Trap, p, z, i);
    FromWait(Step(s, Trap), p, z, i);
    CollectFirst(s, Trap, Step(s, Trap), p, z);
  }

  /** The user program that puts `number` in register 4. */
  function Asking(s: State, p: Proc, number: int): Event
    requires Placed(s.memory, p)
  {
    Execute(s.memory.image[p].regs[TYPE := number], Region(s.memory, p))
  }

  lemma AskingStep(s: State, p: Proc, z: Proc, i: nat) returns (s': State)
    requires OnTheCpu(s, p, z, i)
    ensures Placed(s.memory, p) && Leads(s, Asking(s, p, SYS_WAIT), s')
    ensures OnTheCpu(s', p, z, i) && Asks(s', p, SYS_WAIT)
  {
    LiveIf(s, p);
    var e := Asking(s, p, SYS_WAIT);
    WaitingStays(s, e, p, z, i);
    WriteThere(s.memory, p, e.regs, e.bytes);
    s' := Step(s, e);
  }

  /** From the processor: ask for it. */
  lemma {:induction false} FromCpu(s: State, p: Proc, z: Proc, i: nat)
    requires OnTheCpu(s, p, z, i)
    ensures CanCollect(s, p, z)
    decreases i, 2, 0, 0
  {
    var s' := AskingStep(s, p, z, i);
    FromTrap(s', p, z, i);
    CollectFirst(s, Asking(s, p, SYS_WAIT), s', p, z);
  }

  /** The step that brings the scheduler on, or the head of the queue to the processor. */
  function Clearing(cpu: Cpu): Event {
    if cpu.InKernel? then Schedule else Interrupt
  }

  lemma ClearingStep(s: State) returns (s': State)
    requires Inv(s) && s.halted.No? && s.readyq != []
    ensures Leads(s, Clearing(s.cpu), s') && s'.halted.No?
    ensures if !s.cpu.InKernel? then s'.cpu.InKernel? && s.readyq <= s'.readyq
            else s'.cpu.InUser? && s'.curr == Some(s.readyq[0]) && s'.readyq == s.readyq[1..]
  {
    Ready(s, Clearing(s.cpu));
    StepInvIff(s, Clearing(s.cpu));
    s' := Step(s, Clearing(s.cpu));
  }

  lemma ClearingBringsOn(s: State, p: Proc, z: Proc, i: nat, k: nat) returns (s': State)
    requires AtPlace(s, p, z, i, k)
    ensures Leads(s, Clearing(s.cpu), s')
    ensures !s.cpu.InKernel? ==> s'.cpu.InKernel? && AtPlace(s', p, z, i, k)
    ensures s.cpu.InKernel? && k > 0 ==> AtPlace(s', p, z, i, k - 1)
    ensures s.cpu.InKernel? && k == 0 ==> OnTheCpu(s', p, z, i)
  {
    s' := ClearingStep(s);
    WaitingStays(s, Clearing(s.cpu), p, z, i);
  }

  /** From place `k` of the ready queue: let the timer end the turns of those in front. */
  lemma {:induction false} FromQueue(s: State, p: Proc, z: Proc, i: nat, k: nat)
    requires AtPlace(s, p, z, i, k)
    ensures CanCollect(s, p, z)
    decreases i, 3, k, if s.cpu.InKernel? then 0 else 1
  {
    var s' := ClearingBringsOn(s, p, z, i, k);
    if !s.cpu.InKernel? {
      FromQueue(s', p, z, i, k);
    } else if k > 0 {
      FromQueue(s', p, z, i, k - 1);
    } else {
      FromCpu(s', p, z, i);
    }
    CollectFirst(s, Clearing(s.cpu), s', p, z);
  }

  lemma FromFinishing(s: State, p: Proc, z: Proc, i: nat)
    requires Waiting(s, p, z, i) && p in s.finishing
    ensures CanCollect(s, p, z)
  {
    var e := FinishFork(p);
    WaitingStays(s, e, p, z, i);
    var s' := Step(s, e);
    Ready(s, e);
    assert s'.readyq[|s.readyq|] == p;
    FromQueue(s', p, z, i, |s.readyq|);
    CollectFirst(s, e, s', p, z);
  }

  /** A live process goes on from here with nothing more than its turn: it is in no call, or its call is
      `wait` with an exited child there. */
  predicate GoesOnToWait(s: State, p: Proc) {
    p in s.tree.live && p !in s.faulted && (p in s.calls ==> Asks(s, p, SYS_WAIT))
  }

  lemma PlaceOf(s: State, p: Proc)
    requires Inv(s) && p in s.tree.live && p !in s.faulted
    ensures (s.cpu.InUser? && s.curr == Some(p)) || p in s.readyq || p in s.calls || p in s.finishing
  {
    ExactlyOnePlace(s, p);
  }

  lemma WaitingAt(s: State, p: Proc, z: Proc) returns (i: nat)
    requires Inv(s) && s.halted.No? && LeftTo(s.tree, z, p) && p in s.tree.live
    ensures Waiting(s, p, z, i)
  {
    OneList(s.tree, z);
    i :| i < |s.tree.fam[p].waiters| && s.tree.fam[p].waiters[i] == z;
  }

  /** Such a parent can collect all of its exited children, whatever the others are doing. */
  lemma Collects(s: State, p: Proc, z: Proc)
    requires Inv(s) && s.halted.No? && LeftTo(s.tree, z, p) && GoesOnToWait(s, p)
    ensures CanCollect(s, p, z)
  {
    var i := WaitingAt(s, p, z);
    PlaceOf(s, p);
    if s.cpu.InUser? && s.curr == Some(p) {
      FromCpu(s, p, z, i);
    } else if p in s.calls {
      FromWait(s, p, z, i);
    } else if p in s.readyq {
      var k :| 0 <= k < |s.readyq| && s.readyq[k] == p;
      FromQueue(s, p, z, i, k);
    } else {
      FromFinishing(s, p, z, i);
    }
  }

  lemma CollectIsReach(s: State, p: Proc, z: Proc)
    requires Inv(s) && CanCollect(s, p, z)
    ensures CanReach(s, Collected(z))
  {
    var es :| Run(s, es) && AllPatient(s, es, p) && z !in After(s, es).tree.fam;
    ReachedBy(s, es, Collected(z));
  }

  /** As processes alone go, which do not record what call one is in and let any call return, an exited
      process can be collected exactly when its parent is alive and not stopped by a fault. What its call
      makes of that is the subject of KernelReach. */
  lemma CollectableIff(s: State, z: Proc)
    requires Inv(s) && s.halted.No? && Zombie(s.tree, z)
    ensures CanReach(s, Collected(z))
       <==> s.tree.fam[z].parent in s.tree.live && s.tree.fam[z].parent !in s.faulted
  {
    var p := s.tree.fam[z].parent;
    OneList(s.tree, z);
    if p in s.tree.live && p !in s.faulted {
      if p in s.calls { OutOfCall(s, p, z); } else { Collects(s, p, z); CollectIsReach(s, p, z); }
    } else {
      forall es | Run(s, es) ensures !Met(After(s, es), Collected(z)) {
        NeverCollected(s, es, z, p);
      }
    }
  }

  lemma OutOfCall(s: State, p: Proc, z: Proc)
    requires Inv(s) && s.halted.No? && LeftTo(s.tree, z, p) && p in s.tree.live && p in s.calls
    ensures CanReach(s, Collected(z))
  {
    LiveIf(s, p);
    var e := Return(p, 0, Region(s.memory, p));
    var i := WaitingAt(s, p, z);
    WaitingStays(s, e, p, z, i);
    var s' := Step(s, e);
    assert s'.readyq[|s.readyq|] == p;
    FromQueue(s', p, z, i, |s.readyq|);
    CollectIsReach(s', p, z);
    ReachFirst(s, e, s', Collected(z));
  }

  // ---------------------------------------------------------------- runs into what goes wrong

  /** The scheduler is about to run, and every kernel thread has ended. */
  ghost predicate Calm(s: State) {
    && Inv(s) && s.halted.No? && s.cpu.InKernel?
    && s.calls == multiset{} && s.finishing == multiset{} && s.faulted == multiset{}
  }

  /** The first in the queue is in a call, and nobody else. */
  ghost predicate InOneCall(s: State, p: Proc) {
    && Inv(s) && s.halted.No? && s.cpu.InKernel?
    && s.calls == multiset{p} && s.finishing == multiset{} && s.faulted == multiset{}
  }

  lemma HeadCalls(s: State, g: Goal) returns (s': State)
    requires Calm(s) && s.readyq != []
    ensures InOneCall(s', s.readyq[0]) && s'.readyq == s.readyq[1..] && s'.tree == s.tree && s'.memory == s.memory
    ensures CanReach(s', g) ==> CanReach(s, g)
  {
    var s1 := Step(s, Schedule);
    Ready(s, Schedule);
    StepInvIff(s, Schedule);
    Ready(s1, Trap);
    StepInvIff(s1, Trap);
    s' := Step(s1, Trap);
    if CanReach(s', g) {
      ReachFirst(s1, Trap, s', g);
      ReachFirst(s, Schedule, s1, g);
    }
  }

  /** Its time runs out. */
  lemma HeadYields(s: State, g: Goal) returns (s': State)
    requires Calm(s) && s.readyq != []
    ensures Calm(s') && s'.readyq == s.readyq[1..] + [s.readyq[0]] && s'.tree == s.tree
    ensures CanReach(s', g) ==> CanReach(s, g)
  {
    var s1 := Step(s, Schedule);
    Ready(s, Schedule);
    StepInvIff(s, Schedule);
    Ready(s1, Interrupt);
    StepInvIff(s1, Interrupt);
    s' := Step(s1, Interrupt);
    if CanReach(s', g) {
      ReachFirst(s1, Interrupt, s', g);
      ReachFirst(s, Schedule, s1, g);
    }
  }

  /** There is memory and an identifier for a child. */
  ghost predicate RoomForChild(s: State) { |s.tree.live| < CHUNKS && |s.tree.rbtree| < PIDS }

  lemma CallForks(s: State, p: Proc)
    requires InOneCall(s, p) && RoomForChild(s)
    ensures Enabled(s, DoFork(p)) && Leads(s, DoFork(p), Step(s, DoFork(p))) && p in s.tree.fam
    ensures var s' := Step(s, DoFork(p));
      && s'.readyq == s.readyq + [p] && s'.finishing == multiset{s.tree.next} && s'.calls == multiset{}
      && s'.faulted == multiset{} && s'.cpu.InKernel? && s'.halted.No? && s'.tree == TreeFork(s.tree, p)
  {
    Ready(s, DoFork(p));
    FullIff(s.memory, s.tree.live);
    StepInvIff(s, DoFork(p));
  }

  lemma FinishLeads(s: State, c: Proc)
    requires Inv(s) && s.halted.No? && s.finishing == multiset{c}
    ensures Enabled(s, FinishFork(c)) && Leads(s, FinishFork(c), Step(s, FinishFork(c)))
    ensures var s' := Step(s, FinishFork(c));
      && s'.readyq == s.readyq + [c] && s'.finishing == multiset{} && s'.calls == s.calls
      && s'.faulted == s.faulted && s'.tree == s.tree && s'.cpu == s.cpu && s'.halted.No?
  {
    Ready(s, FinishFork(c));
    StepInvIff(s, FinishFork(c));
  }

  /** It makes a child. */
  lemma HeadForks(s: State, g: Goal) returns (s': State)
    requires Calm(s) && s.readyq != [] && RoomForChild(s)
    ensures Calm(s') && s'.readyq == s.readyq[1..] + [s.readyq[0]] + [s.tree.next]
    ensures s.readyq[0] in s.tree.fam && s'.tree == TreeFork(s.tree, s.readyq[0])
    ensures CanReach(s', g) ==> CanReach(s, g)
  {
    var p, c := s.readyq[0], s.tree.next;
    var s1 := HeadCalls(s, g);
    CallForks(s1, p);
    var s2 := Step(s1, DoFork(p));
    FinishLeads(s2, c);
    s' := Step(s2, FinishFork(c));
    if CanReach(s', g) {
      ReachFirst(s2, FinishFork(c), s', g);
      ReachFirst(s1, DoFork(p), s2, g);
    }
  }

  /** It exits. */
  lemma HeadExits(s: State, g: Goal) returns (s': State)
    requires Calm(s) && s.readyq != []
    ensures Calm(s') && s'.readyq == s.readyq[1..]
    ensures s.readyq[0] in s.tree.fam && s.tree.fam[s.readyq[0]].parent in s.tree.fam
    ensures s'.tree == TreeExit(s.tree, s.readyq[0])
    ensures CanReach(s', g) ==> CanReach(s, g)
  {
    var p := s.readyq[0];
    var s1 := HeadCalls(s, g);
    Ready(s1, DoExit(p));
    StepInvIff(s1, DoExit(p));
    s' := Step(s1, DoExit(p));
    if CanReach(s', g) { ReachFirst(s1, DoExit(p), s', g); }
  }

  // ---------------------------------------------------------------- turns of the processes, by plan

  /** What the first in the queue does with its turn. */
  datatype Turn = Yields | Forks | Exits

  predicate CanTurn(t: Tree, q: seq<Proc>, turn: Turn) {
    && q != [] && q[0] in t.fam && (turn.Exits? ==> t.fam[q[0]].parent in t.fam)
    && (turn.Forks? ==> |t.live| < CHUNKS && |t.rbtree| < PIDS)
  }

  function TreeTurn(t: Tree, q: seq<Proc>, turn: Turn): Tree
    requires CanTurn(t, q, turn)
  {
    match turn
    case Yields => t
    case Forks => TreeFork(t, q[0])
    case Exits => TreeExit(t, q[0])
  }

  function QueueTurn(t: Tree, q: seq<Proc>, turn: Turn): seq<Proc>
    requires q != []
  {
    match turn
    case Yields => q[1..] + [q[0]]
    case Forks => q[1..] + [q[0]] + [t.next]
    case Exits => q[1..]
  }

  lemma TakeTurn(s: State, turn: Turn, g: Goal) returns (s': State)
    requires Calm(s) && CanTurn(s.tree, s.readyq, turn)
    ensures Calm(s') && s'.tree == TreeTurn(s.tree, s.readyq, turn) && s'.readyq == QueueTurn(s.tree, s.readyq, turn)
    ensures CanReach(s', g) ==> CanReach(s, g)
  {
    match turn
    case Yields => s' := HeadYields(s, g);
    case Forks => s' := HeadForks(s, g);
    case Exits => s' := HeadExits(s, g);
  }

  /** The turns can be taken one after the other, and lead to this tree and this queue. */
  predicate Plan(t: Tree, q: seq<Proc>, turns: seq<Turn>, t': Tree, q': seq<Proc>)
    decreases |turns|
  {
    if turns == [] then t' == t && q' == q
    else CanTurn(t, q, turns[0]) && Plan(TreeTurn(t, q, turns[0]), QueueTurn(t, q, turns[0]), turns[1..], t', q')
  }

  /** What is planned happens in some run. */
  lemma {:induction false} Follow(s: State, turns: seq<Turn>, t': Tree, q': seq<Proc>, g: Goal) returns (s': State)
    requires Calm(s) && Plan(s.tree, s.readyq, turns, t', q')
    ensures Calm(s') && s'.tree == t' && s'.readyq == q'
    ensures CanReach(s', g) ==> CanReach(s, g)
    decreases |turns|
  {
    if turns == [] {
      s' := s;
    } else {
      var s1 := TakeTurn(s, turns[0], g);
      s' := Follow(s1, turns[1..], t', q', g);
    }
  }

  // ---------------------------------------------------------------- a process left to init

  /** `c` is a live child of `p`. */
  ghost predicate Bore(t: Tree, p: Proc, c: Proc) {
    && c in t.live && c in t.fam && t.fam[c].parent == p && p in t.live && p in t.fam && p != INIT
  }

  lemma ForkBears(t: Tree, p: Proc)
    requires TreeInv(t) && p in t.live && p in t.fam && p != INIT && |t.rbtree| < PIDS
    ensures TreeInv(TreeFork(t, p)) && Bore(TreeFork(t, p), p, t.next) && TreeFork(t, p).next == t.next + 1
    ensures forall a, b | Bore(t, a, b) :: Bore(TreeFork(t, p), a, b)
    ensures |TreeFork(t, p).live| == |t.live| + 1 && |TreeFork(t, p).rbtree| == |t.rbtree| + 1
  {
    NextIsNew(t);
    ForkTreeIff(t, p);
  }

  lemma ExitMakesZombie(t: Tree, p: Proc)
    requires TreeInv(t) && p in t.live && p in t.fam && t.fam[p].parent != INIT
    ensures t.fam[p].parent in t.fam && TreeInv(TreeExit(t, p))
    ensures TreeExit(t, p).rbtree == t.rbtree && TreeExit(t, p).live == t.live - {p}
    ensures LeftTo(TreeExit(t, p), p, t.fam[p].parent)
  {
    FreedIff(t, p);
    ExitTree(t, p);
  }

  /** The exit of a childless process leaves its parent the child it was. */
  lemma ExitKeepsBorn(t: Tree, p: Proc, a: Proc, b: Proc)
    requires TreeInv(t) && p in t.live && p in t.fam && Bore(t, a, b) && a != p && b != p
    ensures t.fam[p].parent in t.fam && Bore(TreeExit(t, p), a, b)
  {
    FreedIff(t, p);
    AfterExitParent(t, p, b);
  }

  lemma ExitAbandons(t: Tree, p: Proc, z: Proc)
    requires TreeInv(t) && p in t.live && p in t.fam && LeftTo(t, z, p)
    ensures t.fam[p].parent in t.fam && Abandoned(TreeExit(t, p), z)
  {
    FreedIff(t, p);
    AfterExitParent(t, p, z);
  }

  lemma PlanNext(t: Tree, q: seq<Proc>, turn: Turn, q1: seq<Proc>, turns: seq<Turn>, t': Tree)
    requires CanTurn(t, q, turn) && q1 == QueueTurn(t, q, turn) && Plan(TreeTurn(t, q, turn), q1, turns, t', [1])
    ensures Plan(t, q, [turn] + turns, t', [1])
  {
    assert ([turn] + turns)[0] == turn && ([turn] + turns)[1..] == turns;
  }

  /** The first process is alone. */
  ghost predicate OnlyFirst(t: Tree) {
    TreeInv(t) && t.live == {1} && 1 in t.fam && t.next == 2 && |t.rbtree| == 2
  }

  /** It has a child, and that one a child. */
  lemma Descent(t: Tree) returns (t1: Tree, t2: Tree)
    requires OnlyFirst(t)
    ensures t1 == TreeFork(t, 1) && 1 in t1.fam && CanTurn(t, [1], Forks) && CanTurn(t1, [2, 1], Forks) && t1.next == 3
    ensures t2 == TreeFork(t1, 2) && TreeInv(t2) && Bore(t2, 1, 2) && Bore(t2, 2, 3)
  {
    ForkBears(t, 1);
    t1 := TreeFork(t, 1);
    ForkBears(t1, 2);
    t2 := TreeFork(t1, 2);
  }

  /** The child of the child exits, then the child. */
  lemma Deaths(t: Tree) returns (t3: Tree, t4: Tree)
    requires TreeInv(t) && Bore(t, 1, 2) && Bore(t, 2, 3)
    ensures t.fam[2].parent in t.fam && t.fam[3].parent in t.fam && t3 == TreeExit(t, 3)
    ensures Bore(t3, 1, 2) && t3.fam[2].parent in t3.fam && t4 == TreeExit(t3, 2) && Abandoned(t4, 3)
  {
    ExitMakesZombie(t, 3);
    ExitKeepsBorn(t, 3, 1, 2);
    t3 := TreeExit(t, 3);
    ExitAbandons(t3, 2, 3);
    t4 := TreeExit(t3, 2);
  }

  lemma LeavePlan(t: Tree) returns (turns: seq<Turn>, t': Tree)
    requires TreeInv(t) && Bore(t, 1, 2) && Bore(t, 2, 3)
    ensures Plan(t, [1, 2, 3], turns, t', [1]) && Abandoned(t', 3)
  {
    var t3, t4 := Deaths(t);
    t' := t4;
    turns := TwoLeavePlan(t3);
    PlanNext(t, [3, 1, 2], Exits, [1, 2], turns, t4);
    turns := TwoYield(t, [Exits] + turns, t4);
  }

  /** The third has its turn after the others' time has run out. */
  lemma TwoYield(t: Tree, turns: seq<Turn>, t': Tree) returns (all: seq<Turn>)
    requires 1 in t.fam && 2 in t.fam && Plan(t, [3, 1, 2], turns, t', [1])
    ensures Plan(t, [1, 2, 3], all, t', [1])
  {
    PlanNext(t, [2, 3, 1], Yields, [3, 1, 2], turns, t');
    all := [Yields] + turns;
    PlanNext(t, [1, 2, 3], Yields, [2, 3, 1], all, t');
    all := [Yields] + all;
  }

  lemma TwoLeavePlan(t: Tree) returns (turns: seq<Turn>)
    requires Bore(t, 1, 2)
    ensures Plan(t, [1, 2], turns, TreeExit(t, 2), [1])
  {
    var t' := TreeExit(t, 2);
    PlanNext(t, [2, 1], Exits, [1], [], t');
    turns := [Exits] + [];
    PlanNext(t, [1, 2], Yields, [2, 1], turns, t');
    turns := [Yields] + turns;
  }

  lemma ForkThenYield(t: Tree, c: Proc, turns: seq<Turn>, t': Tree) returns (all: seq<Turn>)
    requires CanTurn(t, [1], Forks) && c == t.next && 1 in TreeFork(t, 1).fam
    requires Plan(TreeFork(t, 1), [c, 1], turns, t', [1])
    ensures Plan(t, [1], all, t', [1])
  {
    PlanNext(TreeFork(t, 1), [1, c], Yields, [c, 1], turns, t');
    all := [Yields] + turns;
    PlanNext(t, [1], Forks, [1, c], all, t');
    all := [Forks] + all;
  }

  lemma AbandonPlan(t: Tree) returns (turns: seq<Turn>, t': Tree)
    requires OnlyFirst(t)
    ensures Plan(t, [1], turns, t', [1]) && Abandoned(t', 3)
  {
    var t1, t2 := Descent(t);
    turns, t' := LeavePlan(t2);
    turns := SecondForks(t1, t2, turns, t');
    turns := ForkThenYield(t, 2, turns, t');
  }

  lemma SecondForks(t: Tree, t1: Tree, turns: seq<Turn>, t': Tree) returns (all: seq<Turn>)
    requires CanTurn(t, [2, 1], Forks) && t.next == 3 && t1 == TreeFork(t, 2) && Plan(t1, [1, 2, 3], turns, t', [1])
    ensures Plan(t, [2, 1], all, t', [1])
  {
    PlanNext(t, [2, 1], Forks, [1, 2, 3], turns, t');
    all := [Forks] + turns;
  }

  lemma BootAlone(s: State)
    requires Boot(s)
    ensures Calm(s) && s.readyq == [1] && OnlyFirst(s.tree) && Lonely(s.tree, 2)
  {
    BootInv(s);
  }

  /** From boot a grandchild of the first process can be left to init: it exits, then its parent does. */
  lemma SomeAreAbandoned(s: State)
    requires Boot(s)
    ensures Inv(s) && CanReach(s, SomeAbandoned)
  {
    BootAlone(s);
    var turns, t' := AbandonPlan(s.tree);
    var s' := Follow(s, turns, t', [1], SomeAbandoned);
    ReachedNow(s', SomeAbandoned);
  }

  // ---------------------------------------------------------------- using up the identifiers

  /** The first process is alone, with `n` identifiers in use. */
  ghost predicate Lonely(t: Tree, n: nat) { TreeInv(t) && t.live == {1} && |t.rbtree| == n }

  /** It makes a child, lets it have its turn, and the child exits: one more is used up. */
  lemma UseOnePlan(t: Tree, n: nat) returns (turns: seq<Turn>, t': Tree)
    requires Lonely(t, n) && n < PIDS
    ensures Lonely(t', n + 1) && Plan(t, [1], turns, t', [1])
  {
    assert Well(t, 1);
    NextIsNew(t);
    FreedIff(t, 1);
    ForkBears(t, 1);
    var c, t1 := t.next, TreeFork(t, 1);
    ExitMakesZombie(t1, c);
    t' := TreeExit(t1, c);
    PlanNext(t1, [c, 1], Exits, [1], [], t');
    turns := ForkThenYield(t, c, [Exits] + [], t');
  }

  lemma {:induction false} UseAll(s: State, n: nat)
    requires Calm(s) && s.readyq == [1] && Lonely(s.tree, n) && n <= PIDS
    ensures CanReach(s, NoPidLeft)
    decreases PIDS - n
  {
    if n == PIDS {
      LastFork(s);
    } else {
      var turns, t' := UseOnePlan(s.tree, n);
      var s' := Follow(s, turns, t', [1], NoPidLeft);
      UseAll(s', n + 1);
    }
  }

  lemma LastFork(s: State)
    requires Calm(s) && s.readyq == [1] && Lonely(s.tree, PIDS)
    ensures CanReach(s, NoPidLeft)
  {
    var s' := HeadCalls(s, NoPidLeft);
    FullIff(s'.memory, s'.tree.live);
    assert Enabled(s', DoFork(1)) && !Regular(s', DoFork(1));
    ReachedNow(s', NoPidLeft);
  }

  /** From boot the first process can get to a fork that finds memory for a child but no identifier. */
  lemma PidsRunOut(s: State)
    requires Boot(s)
    ensures Inv(s) && CanReach(s, NoPidLeft)
  {
    BootAlone(s);
    UseAll(s, 2);
  }
}
