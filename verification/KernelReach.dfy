/** Which exited processes can still be collected, in runs of the whole kernel. */
module KernelReach {
  import opened Base
  import opened Kernel
  import opened KernelRuns
  import P = PipeProtocol
  import S = PipeStranded
  import D = Descriptors
  import C = DescriptorCalls
  import R = DescriptorRuns
  import Release = DescriptorRelease
  import T = ProcessTree
  import M = UserMemory
  import L = Processes
  import Runs = ProcessRuns
  import Reach = ProcessReach

  /** Some run of the kernel frees the exited process. */
  ghost predicate CanCollect(k: State, z: Proc)
  {
    exists es :: Run(k, es) && z !in After(k, es).procs.tree.fam
  }

  /** The process is alive and in no call, or its call is `wait`. */
  ghost predicate Back(k: State, p: Proc) {
    && k.procs.halted.No? && Reach.GoesOnToWait(k.procs, p) && D.Idle(k.sys.pipes, p)
  }

  /** Some run leads there. */
  ghost predicate CanComeBack(k: State, p: Proc)
  {
    exists es :: Run(k, es) && Back(After(k, es), p)
  }

  /** `k'` comes after `k` by a regular step. */
  ghost predicate Leads(k: State, e: Event, k': State) {
    Inv(k) && Enabled(k, e) && Regular(k, e) && k' == Step(k, e) && Inv(k')
  }

  lemma LeadsOn(k: State, e: Event) returns (k': State)
    requires Inv(k) && Enabled(k, e) && Regular(k, e)
    ensures Leads(k, e, k')
  {
    StepInvIff(k, e);
    k' := Step(k, e);
  }

  lemma RunFirst(k: State, e: Event, k': State, es: seq<Event>)
    requires Leads(k, e, k') && Run(k', es)
    ensures Run(k, [e] + es) && After(k, [e] + es) == After(k', es)
  {
    assert ([e] + es)[0] == e && ([e] + es)[1..] == es;
  }

  lemma CollectedBy(k: State, es: seq<Event>, z: Proc)
    requires Inv(k) && Run(k, es) && z !in After(k, es).procs.tree.fam
    ensures CanCollect(k, z)
  {
  }

  lemma CollectFirst(k: State, e: Event, k': State, z: Proc)
    requires Leads(k, e, k') && CanCollect(k', z)
    ensures CanCollect(k, z)
  {
    var es :| Run(k', es) && z !in After(k', es).procs.tree.fam;
    RunFirst(k, e, k', es);
    CollectedBy(k, [e] + es, z);
  }

  lemma BackBy(k: State, es: seq<Event>, p: Proc)
    requires Inv(k) && Run(k, es) && Back(After(k, es), p)
    ensures CanComeBack(k, p)
  {
  }

  lemma BackFirst(k: State, e: Event, k': State, p: Proc)
    requires Leads(k, e, k') && CanComeBack(k', p)
    ensures CanComeBack(k, p)
  {
    var es :| Run(k', es) && Back(After(k', es), p);
    RunFirst(k, e, k', es);
    BackBy(k, [e] + es, p);
  }

  lemma BackNow(k: State, p: Proc)
    requires Inv(k) && Back(k, p)
    ensures CanComeBack(k, p)
  {
    BackBy(k, [], p);
  }

  // ---------------------------------------------------------------- a parent that is back collects

  function Onlys(es: seq<L.Event>): seq<Event> {
    if es == [] then [] else [Only(es[0])] + Onlys(es[1..])
  }

  /** A step that only waits is a step of the kernel, and leaves the descriptors alone. */
  lemma PatientLifts(k: State, e: L.Event, p: Proc) returns (k': State)
    requires Inv(k) && L.Enabled(k.procs, e) && Reach.Patient(k.procs, e, p) && D.Idle(k.sys.pipes, p)
    ensures Leads(k, Only(e), k') && k' == k.(procs := L.Step(k.procs, e))
  {
    assert Known(SYS_WAIT);
    k' := LeadsOn(k, Only(e));
  }

  lemma {:induction false} LiftPatient(k: State, es: seq<L.Event>, p: Proc)
    requires Inv(k) && L.Run(k.procs, es) && Reach.AllPatient(k.procs, es, p) && D.Idle(k.sys.pipes, p)
    ensures Run(k, Onlys(es)) && After(k, Onlys(es)).procs == L.After(k.procs, es)
    decreases |es|
  {
    if es != [] {
      L.StepInvIff(k.procs, es[0]);
      var k' := PatientLifts(k, es[0], p);
      LiftPatient(k', es[1..], p);
      RunFirst(k, Only(es[0]), k', Onlys(es[1..]));
    }
  }

  lemma BackCollectsNow(k: State, z: Proc, p: Proc)
    requires Inv(k) && Runs.LeftTo(k.procs.tree, z, p) && Back(k, p)
    ensures CanCollect(k, z)
  {
    Reach.Collects(k.procs, p, z);
    var es :| L.Run(k.procs, es) && Reach.AllPatient(k.procs, es, p) && z !in L.After(k.procs, es).tree.fam;
    LiftPatient(k, es, p);
    CollectedBy(k, Onlys(es), z);
  }

  // ---------------------------------------------------------------- what becomes of a zombie at a step

  /** It stays its parent's, is freed, or its parent is gone. */
  predicate Fated(t: T.Tree, z: Proc, p: Proc) {
    Runs.LeftTo(t, z, p) || z !in t.fam || p !in t.live
  }

  lemma FateByWait(s: L.State, z: Proc, p: Proc)
    requires L.Inv(s) && L.Enabled(s, L.DoWait(p)) && Runs.LeftTo(s.tree, z, p)
    ensures Fated(L.Step(s, L.DoWait(p)).tree, z, p)
  {
    L.Ready(s, L.DoWait(p));
  }

  lemma FateByExit(s: L.State, z: Proc, p: Proc)
    requires L.Inv(s) && L.Enabled(s, L.DoExit(p)) && Runs.LeftTo(s.tree, z, p)
    ensures p !in L.Step(s, L.DoExit(p)).tree.live && Runs.Abandoned(L.Step(s, L.DoExit(p)).tree, z)
  {
    L.Ready(s, L.DoExit(p));
    Reach.ExitAbandons(s.tree, p, z);
  }

  lemma FateStep(s: L.State, e: L.Event, z: Proc, p: Proc)
    requires L.Inv(s) && L.Enabled(s, e) && Runs.LeftTo(s.tree, z, p)
    ensures Fated(L.Step(s, e).tree, z, p)
  {
    if e == L.DoWait(p) {
      FateByWait(s, z, p);
    } else if e == L.DoExit(p) {
      FateByExit(s, z, p);
    } else {
      Runs.LeftStep(s, e, z, p);
    }
  }

  lemma Fate(k: State, e: Event, z: Proc, p: Proc)
    requires Sane(k) && Enabled(k, e) && Regular(k, e) && Runs.LeftTo(k.procs.tree, z, p)
    ensures Fated(Step(k, e).procs.tree, z, p)
  {
    ProcsMove(k, e);
    var f := ProcsOf(k, e);
    if f != [] { FateStep(k.procs, f[0], z, p); }
  }

  /** A dead process stays dead. */
  lemma StaysGone(k: State, es: seq<Event>, p: Proc)
    requires Inv(k) && Run(k, es) && p !in k.procs.tree.live && p < k.procs.tree.next
    ensures p !in After(k, es).procs.tree.live
  {
    Projects(k, es);
    Runs.StaysGone(k.procs, ProcsTrace(k, es), p);
  }

  lemma ParentKnown(t: T.Tree, z: Proc, p: Proc)
    requires T.TreeInv(t) && Runs.LeftTo(t, z, p)
    ensures p in t.fam && p < t.next && p != z && (p !in t.live ==> p == INIT)
  {
    T.OneList(t, z);
    assert T.Well(t, z) && T.Well(t, p);
  }

  lemma GoneForGood(k: State, e: Event, k': State, es: seq<Event>, p: Proc)
    requires Leads(k, e, k') && Run(k', es) && p !in k'.procs.tree.live && p < k.procs.tree.next
    ensures p !in After(k', es).procs.tree.live
  {
    ProcsMove(k, e);
    var f := ProcsOf(k, e);
    if f != [] { Runs.OnwardStep(k.procs, f[0], p); }
    StaysGone(k', es, p);
  }

  lemma {:induction false} BackCollects(k: State, es: seq<Event>, z: Proc, p: Proc)
    requires Inv(k) && Run(k, es) && Runs.LeftTo(k.procs.tree, z, p) && Back(After(k, es), p)
    ensures CanCollect(k, z)
    decreases |es|
  {
    if es == [] {
      BackCollectsNow(k, z, p);
    } else {
      var k' := LeadsOn(k, es[0]);
      Fate(k, es[0], z, p);
      if Runs.LeftTo(k'.procs.tree, z, p) {
        BackCollects(k', es[1..], z, p);
      } else if z !in k'.procs.tree.fam {
        CollectedBy(k', [], z);
      } else {
        ParentKnown(k.procs.tree, z, p);
        GoneForGood(k, es[0], k', es[1..], p);
      }
      CollectFirst(k, es[0], k', z);
    }
  }

  /** Only its parent's wait or exit takes a zombie from its parent. */
  lemma TakenBy(k: State, e: Event, z: Proc, p: Proc)
    requires Sane(k) && Enabled(k, e) && Regular(k, e) && Runs.LeftTo(k.procs.tree, z, p)
    ensures Runs.LeftTo(Step(k, e).procs.tree, z, p) || e == Only(L.DoWait(p)) || e == Call(p, Exit)
  {
    ProcsMove(k, e);
    var f := ProcsOf(k, e);
    if f != [] && f[0] != L.DoWait(p) && f[0] != L.DoExit(p) { Runs.LeftStep(k.procs, f[0], z, p); }
  }

  lemma WaiterIsBack(k: State, p: Proc)
    requires Inv(k) && Enabled(k, Only(L.DoWait(p)))
    ensures Back(k, p)
  {
    L.LiveIf(k.procs, p);
    L.ExactlyOnePlace(k.procs, p);
  }

  lemma ExitAbandonsForGood(k: State, k': State, es: seq<Event>, z: Proc, p: Proc)
    requires Leads(k, Call(p, Exit), k') && Run(k', es) && Runs.LeftTo(k.procs.tree, z, p)
    ensures z in After(k', es).procs.tree.fam
  {
    FateByExit(k.procs, z, p);
    Projects(k', es);
    Runs.AbandonedForever(k'.procs, ProcsTrace(k', es), z);
  }

  lemma {:induction false} CollectedWhenBack(k: State, es: seq<Event>, z: Proc, p: Proc)
    requires Inv(k) && Run(k, es) && Runs.LeftTo(k.procs.tree, z, p) && z !in After(k, es).procs.tree.fam
    ensures CanComeBack(k, p)
    decreases |es|
  {
    if es != [] {
      var k' := LeadsOn(k, es[0]);
      TakenBy(k, es[0], z, p);
      if Runs.LeftTo(k'.procs.tree, z, p) {
        CollectedWhenBack(k', es[1..], z, p);
        BackFirst(k, es[0], k', p);
      } else if es[0] == Only(L.DoWait(p)) {
        WaiterIsBack(k, p);
        BackNow(k, p);
      } else {
        ExitAbandonsForGood(k, k', es[1..], z, p);
      }
    }
  }

  /** An exited process can still be collected exactly when its parent can still get out of the call it is
      in, or into `wait`, alive. */
  lemma CollectableIffBack(k: State, z: Proc, p: Proc)
    requires Inv(k) && Runs.LeftTo(k.procs.tree, z, p)
    ensures CanCollect(k, z) <==> CanComeBack(k, p)
  {
    if CanCollect(k, z) {
      var es :| Run(k, es) && z !in After(k, es).procs.tree.fam;
      CollectedWhenBack(k, es, z, p);
    }
    if CanComeBack(k, p) {
      var es :| Run(k, es) && Back(After(k, es), p);
      BackCollects(k, es, z, p);
    }
  }

  // ---------------------------------------------------------------- parents that never come back

  /** Its call is `exit`, which has not run yet. */
  predicate Exiting(k: State, p: Proc) {
    p in k.procs.calls && D.Idle(k.sys.pipes, p) && Reach.Asks(k.procs, p, SYS_EXIT)
  }

  predicate StrandedIn(pipes: map<PipeId, P.Pipe>, p: Proc) {
    exists q :: q in pipes && S.Stranded(pipes[q], p)
  }

  /** Init or a dead process, or one stopped by a fault, on its way into `exit`, or stranded in a pipe. */
  predicate Lost(k: State, p: Proc) {
    p !in k.procs.tree.live || p in k.procs.faulted || Exiting(k, p) || StrandedIn(k.sys.pipes, p)
  }

  lemma StrandedStep(k: State, e: Event, p: Proc)
    requires Inv(k) && Enabled(k, e) && Regular(k, e) && StrandedIn(k.sys.pipes, p)
    ensures StrandedIn(Step(k, e).sys.pipes, p)
  {
    SysMoves(k, e);
    var f := SysOf(k, e);
    var q :| q in k.sys.pipes && S.Stranded(k.sys.pipes[q], p);
    if f != [] { Release.StrandedStays(k.sys, f[0], q, p); }
  }

  /** Nobody is brought into a pipe but by a call of its own. */
  lemma IdleStays(s: D.Sys, e: R.SysEvent, p: Proc)
    requires D.SysInv(s) && R.Possible(s, e) && R.Regular(s, e) && D.Idle(s.pipes, p) && (e.Make? ==> e.proc != p)
    ensures D.Idle(R.Effect(s, e).sys.pipes, p)
  {
    match e
    case Resume(q, step) =>
      R.ResumeFramed(s, q, step);
      FramedIdle(s, R.Effect(s, e).sys, None, p);
    case Make(a, c) =>
      if c.CallFork? || c.CallExit? {
        FamilyIdle(s, a, c, p);
      } else {
        R.CallFramed(s, a, c);
        FramedIdle(s, R.Effect(s, e).sys, R.Newcomer(R.Effect(s, e), a), p);
      }
  }

  lemma FramedIdle(s: D.Sys, s': D.Sys, came: Option<Proc>, p: Proc)
    requires R.Framed(s, s', came) && D.Idle(s.pipes, p) && came != Some(p)
    ensures D.Idle(s'.pipes, p)
  {
    forall q | q in s'.pipes ensures !P.Inside(s'.pipes[q], p) {
      assert R.Stayed(s.pipes, s'.pipes, q, p, came);
    }
  }

  lemma FamilyIdle(s: D.Sys, a: Proc, c: R.SysCall, p: Proc)
    requires D.SysInv(s) && R.Possible(s, R.Make(a, c)) && D.Idle(s.pipes, p) && (c.CallFork? || c.CallExit?)
    ensures D.Idle(R.Effect(s, R.Make(a, c)).sys.pipes, p)
  {
    if c.CallFork? { C.ForkInv(s, a); } else { C.ExitInv(s, a); }
    D.SameInsideIdle(s.pipes, R.Effect(s, R.Make(a, c)).sys.pipes, p);
  }

  /** A process on its way into `exit` makes no other step. */
  lemma OnlyExits(k: State, e: Event, p: Proc)
    requires Sane(k) && Enabled(k, e) && Exiting(k, p) && e != Call(p, Exit)
    ensures forall f | f in ProcsOf(k, e) :: (f.Return? || f.DoWait? || f.DoFork? || f.DoExit?) ==> f.proc != p
    ensures forall f | f in SysOf(k, e) :: f.Make? ==> f.proc != p
  {
    if e.Resume? { TakerBusy(k, e.q, e.step); }
  }

  lemma CallerKept(k: State, e: Event, p: Proc)
    requires Sane(k) && Enabled(k, e) && Regular(k, e) && p in k.procs.calls
    requires forall f | f in ProcsOf(k, e) :: (f.Return? || f.DoWait? || f.DoFork? || f.DoExit?) ==> f.proc != p
    ensures p in Step(k, e).procs.calls && M.Untouched(k.procs.memory, Step(k, e).procs.memory, p)
  {
    ProcsMove(k, e);
    var f := ProcsOf(k, e);
    if f == [] {
      L.LiveIf(k.procs, p);
      Runs.SameUntouched(k.procs.memory, k.procs.tree.live, p);
    } else {
      assert f[0] in f;
      CallerStays(k.procs, f[0], p);
    }
  }

  lemma ExitingStep(k: State, e: Event, p: Proc)
    requires Inv(k) && Enabled(k, e) && Regular(k, e) && Exiting(k, p)
    ensures p !in Step(k, e).procs.tree.live || Exiting(Step(k, e), p)
  {
    if e == Call(p, Exit) {
      ExitLive(k.procs, p);
    } else {
      OnlyExits(k, e, p);
      CallerKept(k, e, p);
      SysMoves(k, e);
      var f := SysOf(k, e);
      if f != [] {
        assert f[0] in f;
        IdleStays(k.sys, f[0], p);
      }
    }
  }

  lemma GoneStep(k: State, e: Event, p: Proc)
    requires Sane(k) && Enabled(k, e) && Regular(k, e) && p < k.procs.tree.next
    ensures p < Step(k, e).procs.tree.next
    ensures p !in k.procs.tree.live ==> p !in Step(k, e).procs.tree.live
    ensures p in k.procs.faulted ==> p in Step(k, e).procs.faulted
  {
    ProcsMove(k, e);
    var f := ProcsOf(k, e);
    if f != [] {
      Runs.OnwardStep(k.procs, f[0], p);
      if p in k.procs.faulted { Runs.FaultedStay(k.procs, f[0], p); }
    }
  }

  lemma LostStep(k: State, e: Event, p: Proc)
    requires Inv(k) && Enabled(k, e) && Regular(k, e) && Lost(k, p) && p < k.procs.tree.next
    ensures Lost(Step(k, e), p) && p < Step(k, e).procs.tree.next
  {
    GoneStep(k, e, p);
    if StrandedIn(k.sys.pipes, p) { StrandedStep(k, e, p); }
    if Exiting(k, p) { ExitingStep(k, e, p); }
  }

  lemma LostIsNotBack(k: State, p: Proc)
    requires Lost(k, p)
    ensures !Back(k, p)
  {
    if StrandedIn(k.sys.pipes, p) {
      var q :| q in k.sys.pipes && S.Stranded(k.sys.pipes[q], p);
      assert P.Inside(k.sys.pipes[q], p);
    }
  }

  lemma {:induction false} LostForever(k: State, es: seq<Event>, p: Proc)
    requires Inv(k) && Run(k, es) && Lost(k, p) && p < k.procs.tree.next
    ensures Lost(After(k, es), p) && !Back(After(k, es), p)
    decreases |es|
  {
    LostIsNotBack(k, p);
    if es != [] {
      var k' := LeadsOn(k, es[0]);
      LostStep(k, es[0], p);
      LostForever(k', es[1..], p);
    }
  }

  // ---------------------------------------------------------------- parents that can

  lemma OutIsBack(k: State, p: Proc)
    requires Inv(k) && k.procs.halted.No? && p in k.procs.tree.live && p !in k.procs.faulted && p !in k.procs.calls
    ensures Back(k, p)
  {
    forall q | q in k.sys.pipes ensures !P.Inside(k.sys.pipes[q], p) {
      if P.Inside(k.sys.pipes[q], p) { BusyAt(k, q, p); }
    }
  }

  /** A segment that ends blocked leaves its process inside, and no segment moves another. */
  lemma SegmentMoves(r: P.Pipe, e: P.Event, p: Proc)
    requires P.Enabled(r, e) && C.Takes(e)
    ensures p != e.proc ==> (P.Inside(P.Apply(r, e).pipe, p) <==> P.Inside(r, p))
    ensures P.Apply(r, e).Blocked? ==> P.Inside(P.Apply(r, e).pipe, e.proc)
  {
  }

  /** `p` is alive and goes on, in no call but the one that has it inside pipe `q`. */
  ghost predicate Leaving(k: State, q: PipeId, p: Proc) {
    && Inv(k) && k.procs.halted.No? && p in k.procs.tree.live && p !in k.procs.faulted
    && q in k.sys.pipes && (p in k.procs.calls ==> P.Inside(k.sys.pipes[q], p))
  }

  lemma ResumedLeaves(k: State, q: PipeId, a: Proc, o: P.Outcome, p: Proc)
    requires Inv(k) && k.procs.halted.No? && a in k.procs.calls && M.Placed(k.procs.memory, a)
    ensures var s' := Resumed(k, q, a, o).procs;
      && s'.halted.No? && s'.tree == k.procs.tree && s'.faulted == k.procs.faulted
      && (p in s'.calls ==> p in k.procs.calls && (o.Returned? ==> p != a))
  {
    L.LiveIf(k.procs, a);
    L.ExactlyOnePlace(k.procs, a);
  }

  lemma LeavingStep(k: State, q: PipeId, e: P.Event, p: Proc) returns (k': State)
    requires Leaving(k, q, p) && C.Takes(e) && P.Enabled(k.sys.pipes[q], e)
    ensures Leads(k, Resume(q, e), k') && Leaving(k', q, p) && k'.sys.pipes[q] == P.Apply(k.sys.pipes[q], e).pipe
  {
    k' := LeadsOn(k, Resume(q, e));
    ResumeSys(k, q, e);
    LeavesProcs(k, q, e, p);
    SegmentMoves(k.sys.pipes[q], e, p);
  }

  lemma LeavesProcs(k: State, q: PipeId, e: P.Event, p: Proc)
    requires Inv(k) && Enabled(k, Resume(q, e))
    ensures var s', o := Step(k, Resume(q, e)).procs, P.Apply(k.sys.pipes[q], e);
      && s'.halted.No? && s'.tree == k.procs.tree && s'.faulted == k.procs.faulted
      && (p in s'.calls ==> p in k.procs.calls && (o.Returned? ==> p != e.proc))
  {
    ResumeIs(k, q, e);
    ResumedLeaves(k, q, e.proc, P.Apply(k.sys.pipes[q], e), p);
  }

  lemma {:induction false} OutByTakes(k: State, q: PipeId, es: seq<P.Event>, p: Proc)
    requires Leaving(k, q, p) && S.WayOut(k.sys.pipes[q], es, p)
    ensures CanComeBack(k, p)
    decreases |es|
  {
    S.OutRest(k.sys.pipes[q], es, p);
    if es == [] {
      OutIsBack(k, p);
      BackNow(k, p);
    } else {
      var k' := LeavingStep(k, q, es[0], p);
      OutByTakes(k', q, es[1..], p);
      BackFirst(k, Resume(q, es[0]), k', p);
    }
  }

  /** The call of a process that is in no pipe yet is a regular one that answers at once. */
  predicate AnswersAtOnce(k: State, p: Proc, kind: Kind) {
    && Enabled(k, Call(p, kind)) && Regular(k, Call(p, kind))
    && (kind.Fork? || (!kind.Exit? && R.Effect(k.sys, MakeOf(k, p, kind)).reply.Value?))
  }

  predicate Answers(k: State, p: Proc) {
    || Enabled(k, Only(L.Return(p, 0, Kept(k, p))))
    || exists kind :: AnswersAtOnce(k, p, kind)
  }

  function Kept(k: State, p: Proc): seq<Byte> {
    if M.Placed(k.procs.memory, p) then M.Region(k.procs.memory, p) else []
  }

  /** Process `p` is out of its call, alive and unharmed. */
  predicate Out(s: L.State, s': L.State, p: Proc) {
    s'.halted.No? && p !in s'.calls && s'.faulted == s.faulted && s.tree.live <= s'.tree.live
  }

  lemma DeliversOut(s: L.State, p: Proc, reply: C.Reply, bytes: seq<Byte>)
    requires L.Inv(s) && s.halted.No? && p in s.calls && |bytes| == M.CHUNK && reply.Value?
    ensures Out(s, Deliver(s, p, reply, bytes), p)
  {
    ReturnsOut(s, p, reply.value, bytes);
  }

  lemma ForksOut(s: L.State, p: Proc)
    requires L.Inv(s) && L.Enabled(s, L.DoFork(p))
    ensures Out(s, L.Step(s, L.DoFork(p)), p)
  {
    L.Ready(s, L.DoFork(p));
    L.ExactlyOnePlace(s, p);
  }

  lemma OutOfCall(k: State, p: Proc, kind: Kind)
    requires Inv(k) && AnswersAtOnce(k, p, kind)
    ensures Out(k.procs, Step(k, Call(p, kind)).procs, p)
  {
    if kind.Fork? {
      ForkSys(k, p);
      ForksOut(k.procs, p);
    } else {
      var m := k.procs.memory;
      DeliversOut(k.procs, p, R.Effect(k.sys, MakeOf(k, p, kind)).reply,
                  AfterCall(k.sys, p, kind, m.image[p].regs, M.Region(m, p)));
    }
  }

  lemma ReturnBack(k: State, p: Proc)
    requires Inv(k) && p in k.procs.tree.live && p !in k.procs.faulted && Enabled(k, Only(L.Return(p, 0, Kept(k, p))))
    ensures CanComeBack(k, p)
  {
    var e := Only(L.Return(p, 0, Kept(k, p)));
    var k' := LeadsOn(k, e);
    ReturnsOut(k.procs, p, 0, Kept(k, p));
    OutIsBack(k', p);
    BackNow(k', p);
    BackFirst(k, e, k', p);
  }

  lemma ReturnsOut(s: L.State, p: Proc, value: int, bytes: seq<Byte>)
    requires L.Inv(s) && L.Enabled(s, L.Return(p, value, bytes))
    ensures Out(s, L.Step(s, L.Return(p, value, bytes)), p)
  {
    L.ExactlyOnePlace(s, p);
    L.LiveIf(s, p);
  }

  lemma CallBack(k: State, p: Proc, kind: Kind)
    requires Inv(k) && p in k.procs.tree.live && p !in k.procs.faulted && AnswersAtOnce(k, p, kind)
    ensures CanComeBack(k, p)
  {
    OutOfCall(k, p, kind);
    var k' := LeadsOn(k, Call(p, kind));
    OutIsBack(k', p);
    BackNow(k', p);
    BackFirst(k, Call(p, kind), k', p);
  }

  lemma AnswerBack(k: State, p: Proc)
    requires Inv(k) && p in k.procs.tree.live && p !in k.procs.faulted && Answers(k, p)
    ensures CanComeBack(k, p)
  {
    if Enabled(k, Only(L.Return(p, 0, Kept(k, p)))) {
      ReturnBack(k, p);
    } else {
      var kind :| AnswersAtOnce(k, p, kind);
      CallBack(k, p, kind);
    }
  }

  // ---------------------------------------------------------------- both ways

  /** The parent is in no call; or the call it is about to make is `wait`, `exit` or one that answers at
      once; or nobody is at the other end of the pipe it is in. */
  predicate Decided(k: State, p: Proc) {
    p in k.procs.calls ==>
      if D.Idle(k.sys.pipes, p) then
        Reach.Asks(k.procs, p, SYS_WAIT) || Reach.Asks(k.procs, p, SYS_EXIT) || Answers(k, p)
      else exists q :: q in k.sys.pipes && S.OtherEndGone(k.sys.pipes[q], p)
  }

  lemma ComesBack(k: State, p: Proc)
    requires Inv(k) && k.procs.halted.No? && !Lost(k, p) && Decided(k, p)
    ensures CanComeBack(k, p)
  {
    if p !in k.procs.calls {
      OutIsBack(k, p);
      BackNow(k, p);
    } else if !D.Idle(k.sys.pipes, p) {
      var q :| q in k.sys.pipes && S.OtherEndGone(k.sys.pipes[q], p);
      var es := S.GetOut(k.sys.pipes[q], p);
      OutByTakes(k, q, es, p);
    } else if Reach.Asks(k.procs, p, SYS_WAIT) {
      BackNow(k, p);
    } else {
      AnswerBack(k, p);
    }
  }

  /** An exited process can still be collected exactly when its parent is not lost: it is alive, not
      stopped by a fault, not about to exit, and not stranded in a pipe. */
  lemma CollectableIff(k: State, z: Proc)
    requires Inv(k) && k.procs.halted.No? && T.Zombie(k.procs.tree, z)
    requires Decided(k, k.procs.tree.fam[z].parent)
    ensures CanCollect(k, z) <==> !Lost(k, k.procs.tree.fam[z].parent)
  {
    var p := k.procs.tree.fam[z].parent;
    CollectableIffBack(k, z, p);
    if Lost(k, p) {
      ParentKnown(k.procs.tree, z, p);
      forall es | Run(k, es) ensures !Back(After(k, es), p) {
        LostForever(k, es, p);
      }
    } else {
      ComesBack(k, p);
    }
  }

  /** Whatever else its call may be, a zombie of a lost parent is never freed. */
  lemma LostNeverCollects(k: State, z: Proc, es: seq<Event>)
    requires Inv(k) && T.Zombie(k.procs.tree, z) && Lost(k, k.procs.tree.fam[z].parent) && Run(k, es)
    ensures z in After(k, es).procs.tree.fam
  {
    var p := k.procs.tree.fam[z].parent;
    ParentKnown(k.procs.tree, z, p);
    if z !in After(k, es).procs.tree.fam {
      CollectedWhenBack(k, es, z, p);
      var fs :| Run(k, fs) && Back(After(k, fs), p);
      LostForever(k, fs, p);
    }
  }
}
