/** What every step of the lifecycle keeps. */
module LifecycleInvariant {
  import opened Types
  import opened Lifecycle

  // What a thread holds, by where it is.

  predicate MidStart(pc: Pc) {
    pc.StartLead? || pc.StartUpdate? || pc.StartUnlead? || pc.StartSpawn? || pc.StartPublish?
  }

  predicate HoldsExec(pc: Pc) {
    || pc.StartDecide? || MidStart(pc) || pc.StopDecide? || pc.QueryAnswer? || pc.ReleaseExec?
    || pc.MainFinish? || pc.MainReleaseExec? || pc.FailFinish?
  }

  /** The execution is running: its updater may be, too. */
  predicate InLoop(pc: Pc) {
    || pc.MainLoop? || pc.MainAwaitState? || pc.MainReadState? || pc.MainReconcile? || pc.MainAwaitPrune? || pc.MainReadPrune?
    || pc.MainPrune? || pc.MainJoin?
  }

  /** The cleanup, up to the release of leaderLock. */
  predicate InCleanup(pc: Pc) {
    || pc.MainAwaitClear? || pc.MainClear? || pc.MainAwaitExec? || pc.MainFinish? || pc.MainReleaseExec?
    || pc.MainUnlead?
  }

  predicate HoldsLeader(pc: Pc) {
    pc.StartUpdate? || pc.StartUnlead? || pc.MainSpawn? || InLoop(pc) || InCleanup(pc)
  }

  predicate Storing(stage: Stage) {
    stage.Store? || stage.EndStore?
  }

  predicate HoldsWriter(pc: Pc) {
    || (UpdatingAt(pc) && Storing(pc.stage))
    || (InCleanup(pc) && !pc.MainAwaitClear?) || pc.MainUnlock?
  }

  predicate HoldsReader(pc: Pc) {
    (UpdatingAt(pc) && pc.stage.ReadState?) || pc.MainReadState? || pc.MainReadPrune? || pc.ReadEnd?
  }

  /** The execution's done channel has been closed. */
  predicate Finished(pc: Pc) {
    pc.MainReleaseExec? || pc.MainUnlead? || pc.MainUnlock? || pc.ReleaseExec? || pc.Gone?
  }

  /** The execution has not noticed yet that it is to stop. */
  predicate Awake(pc: Pc) {
    pc.MainLead? || pc.MainSpawn? || (InLoop(pc) && !pc.MainJoin?)
  }

  predicate Failing(pc: Pc) {
    pc.FailAwaitExec? || pc.FailFinish?
  }

  predicate Fits(t: Thread, pc: Pc) {
    match t
    case Caller(_) =>
      || pc.StartWait? || pc.StartDecide? || MidStart(pc) || pc.StopWait? || pc.StopDecide? || pc.QueryWait?
      || pc.QueryAnswer? || pc.ReadWait? || pc.ReadEnd? || pc.ReleaseExec? || pc.Gone?
    case Main(_) => pc.MainLead? || pc.MainSpawn? || InLoop(pc) || InCleanup(pc) || Failing(pc) || Finished(pc)
    case Updater(_) => pc.UpdaterIdle? || pc.Updating? || pc.Gone?
  }

  // The invariants.

  ghost predicate Threads(w: World) {
    forall t :: t in w.pcs ==> Fits(t, w.pcs[t]) && (t.Main? ==> t.e < |w.execs|)
  }

  ghost predicate Held(w: World, t: Thread) {
    t in w.pcs ==>
      && (w.exec == Some(t) <==> HoldsExec(w.pcs[t]))
      && (w.leader == Some(t) <==> HoldsLeader(w.pcs[t]))
      && (w.writer == Some(t) <==> HoldsWriter(w.pcs[t]))
      && (t in w.readers <==> HoldsReader(w.pcs[t]))
  }

  /** Every lock is held by the thread whose place in its program says so, and by no other. */
  ghost predicate Locks(w: World) {
    && (forall t :: t in w.pcs ==> Held(w, t))
    && (w.exec.Some? ==> w.exec.value in w.pcs)
    && (w.leader.Some? ==> w.leader.value in w.pcs)
    && (w.writer.Some? ==> w.writer.value in w.pcs && w.readers == {})
    && (forall t :: t in w.readers ==> t in w.pcs)
  }

  ghost predicate Child(w: World, e: nat) {
    && (Updater(e) in w.pcs ==> Main(e) in w.pcs && !w.pcs[Main(e)].MainLead? && !w.pcs[Main(e)].MainSpawn?)
    && (Updater(e) in w.pcs && !w.pcs[Updater(e)].Gone? ==> InLoop(w.pcs[Main(e)]))
    && (Main(e) in w.pcs && InLoop(w.pcs[Main(e)]) ==> Updater(e) in w.pcs)
  }

  /** An updater lives only while its execution is in its loop, hence holds leaderLock. */
  ghost predicate Children(w: World) {
    forall e: nat :: Child(w, e)
  }

  ghost predicate Record(w: World, e: nat)
    requires e < |w.execs|
  {
    var x := w.execs[e];
    && (x.status == NotRunning <==> Main(e) in w.pcs && Finished(w.pcs[Main(e)]))
    && (if x.status == NotRunning then !x.hasShutdown && !x.hasDone && x.closes == 1
        else x.hasShutdown && x.hasDone && x.closes == 0)
    && (x.status == ShuttingDown ==> x.cancelled)
    && (Main(e) in w.pcs && !Awake(w.pcs[Main(e)]) ==> x.cancelled)
    && (e < |w.execs| - 1 ==> x.cancelled)
  }

  ghost predicate Records(w: World) {
    !w.panicked && forall e :: 0 <= e < |w.execs| ==> Record(w, e)
  }

  function Latest(n: nat): Option<nat> {
    if n == 0 then None else Some(n - 1)
  }

  ghost predicate Starting(w: World) {
    w.exec.Some? && w.exec.value in w.pcs && MidStart(w.pcs[w.exec.value])
  }

  /** a.execution is the latest execution, except while the Start that makes one still holds execLock. */
  ghost predicate Publication(w: World) {
    var n := |w.execs|;
    if Starting(w) then
      var pc := w.pcs[w.exec.value];
      && pc.e == n - 1 && w.current == Latest(pc.e)
      && (forall e: nat :: e < pc.e ==> Main(e) in w.pcs)
      && (Main(pc.e) in w.pcs <==> pc.StartPublish?)
    else
      w.current == Latest(n) && forall e: nat :: e < n ==> Main(e) in w.pcs
  }

  predicate UpToDate(stage: Stage, version: nat) {
    match stage
    case Gather(snapshot) => snapshot == version
    case Compute(snapshot, reread) => snapshot == version && reread == version
    case AwaitWrite(snapshot, reread) => snapshot == version && reread == version
    case Store(snapshot, reread) => snapshot == version && reread == version
    case _ => true
  }

  /** What an update in progress has read is what a.state is now. */
  ghost predicate Snapshots(w: World) {
    forall t :: t in w.pcs && UpdatingAt(w.pcs[t]) ==> UpToDate(w.pcs[t].stage, w.version)
  }

  ghost predicate Invariant(w: World) {
    Threads(w) && Locks(w) && Children(w) && Records(w) && Publication(w) && Snapshots(w)
  }

  // One move: from place to place.

  ghost function Before(w: World, t: Thread): Pc {
    if t in w.pcs then w.pcs[t] else Gone
  }

  predicate Turn(had: bool, has: bool, takes: bool, gives: bool) {
    has == ((had && !gives) || takes) && (takes ==> !had) && (gives ==> had)
  }

  /** The move leaves the thread with what it held, less what it gives, and with what it takes. */
  ghost predicate Agrees(t: Thread, was: Pc, move: Move) {
    && Fits(t, move.pc)
    && Turn(HoldsExec(was), HoldsExec(move.pc), move.effect.TakeExec?, move.effect.GiveExec?)
    && Turn(HoldsLeader(was), HoldsLeader(move.pc), move.effect.TakeLeader?, move.effect.GiveLeader?)
    && Turn(HoldsWriter(was), HoldsWriter(move.pc), move.effect.TakeState?, move.effect.GiveState?)
    && Turn(HoldsReader(was), HoldsReader(move.pc), move.effect.TakeRead?, move.effect.GiveRead?)
    && (move.effect.TakeState? ==> !HoldsReader(was)) && (move.effect.TakeRead? ==> !HoldsWriter(was))
    && (move.effect.Spawn? ==>
          || (was.StartSpawn? && move.effect == Spawn(Main(was.e), MainLead))
          || (t.Main? && was.MainSpawn? && move.effect == Spawn(Updater(t.e), UpdaterIdle)))
  }

  lemma UpdateAgrees(w: World, t: Thread, was: Pc, failing: bool)
    requires UpdatingAt(was) && Fits(t, was)
    ensures Agrees(t, was, UpdatePlan(w, t, was, failing))
  {
    if was.stage.AwaitRead? || was.stage.ReadState? {
      SnapshotAgrees(w, t, was, failing);
    } else if was.stage.Gather? || was.stage.Compute? {
      ComputingAgrees(w, t, was, failing);
    } else {
      StoringAgrees(w, t, was, failing);
    }
  }

  lemma SnapshotAgrees(w: World, t: Thread, was: Pc, failing: bool)
    requires UpdatingAt(was) && Fits(t, was) && (was.stage.AwaitRead? || was.stage.ReadState?)
    ensures Agrees(t, was, UpdatePlan(w, t, was, failing))
  {
  }

  lemma ComputingAgrees(w: World, t: Thread, was: Pc, failing: bool)
    requires UpdatingAt(was) && Fits(t, was) && (was.stage.Gather? || was.stage.Compute?)
    ensures Agrees(t, was, UpdatePlan(w, t, was, failing))
  {
  }

  lemma StoringAgrees(w: World, t: Thread, was: Pc, failing: bool)
    requires UpdatingAt(was) && Fits(t, was) && (was.stage.AwaitWrite? || was.stage.Store? || was.stage.EndStore?)
    ensures Agrees(t, was, UpdatePlan(w, t, was, failing))
  {
  }

  lemma CallAgrees(w: World, t: Thread, was: Pc, other: bool)
    requires t.Caller? && Fits(t, was) && CallPlan(w, t, was, other).Some?
    ensures Agrees(t, was, CallPlan(w, t, was, other).value)
  {
    if was.StartDecide? || MidStart(was) {
      StartAgrees(w, t, was, other);
    } else {
      SimpleCallAgrees(w, t, was, other);
    }
  }

  lemma SimpleCallAgrees(w: World, t: Thread, was: Pc, other: bool)
    requires t.Caller? && Fits(t, was) && !was.StartDecide? && !MidStart(was) && CallPlan(w, t, was, other).Some?
    ensures Agrees(t, was, CallPlan(w, t, was, other).value)
  {
    if was.StopWait? || was.StopDecide? {
      StopAgrees(w, t, was, other);
    } else if was.QueryWait? || was.QueryAnswer? {
      QueryAgrees(w, t, was, other);
    } else if was.ReadWait? || was.ReadEnd? {
      ReadAgrees(w, t, was, other);
    }
  }

  lemma StopAgrees(w: World, t: Thread, was: Pc, other: bool)
    requires t.Caller? && (was.StopWait? || was.StopDecide?)
    ensures CallPlan(w, t, was, other).Some? && Agrees(t, was, CallPlan(w, t, was, other).value)
  {
  }

  lemma QueryAgrees(w: World, t: Thread, was: Pc, other: bool)
    requires t.Caller? && (was.QueryWait? || was.QueryAnswer?)
    ensures CallPlan(w, t, was, other).Some? && Agrees(t, was, CallPlan(w, t, was, other).value)
  {
  }

  lemma ReadAgrees(w: World, t: Thread, was: Pc, other: bool)
    requires t.Caller? && (was.ReadWait? || was.ReadEnd?)
    ensures CallPlan(w, t, was, other).Some? && Agrees(t, was, CallPlan(w, t, was, other).value)
  {
  }

  lemma StartAgrees(w: World, t: Thread, was: Pc, other: bool)
    requires t.Caller? && Fits(t, was) && StartPlan(w, t, was, other).Some?
    ensures Agrees(t, was, StartPlan(w, t, was, other).value)
  {
    if UpdatingAt(was) {
      UpdateAgrees(w, t, was, other);
    } else if was.StartDecide? || was.StartLead? {
      DecidingAgrees(w, t, was, other);
    }
  }

  lemma DecidingAgrees(w: World, t: Thread, was: Pc, other: bool)
    requires t.Caller? && (was.StartDecide? || was.StartLead?) && StartPlan(w, t, was, other).Some?
    ensures Agrees(t, was, StartPlan(w, t, was, other).value)
  {
  }

  lemma MainAgrees(w: World, t: Thread, was: Pc, other: bool)
    requires t.Main? && Fits(t, was) && MainPlan(w, t.e, was, other).Some?
    ensures Agrees(t, was, MainPlan(w, t.e, was, other).value)
  {
    if InCleanup(was) || was.MainJoin? || was.MainUnlock? {
      CleanupAgrees(w, t, was);
    } else if Failing(was) || Finished(was) {
      FailureAgrees(w, t, was, other);
    } else {
      LoopAgrees(w, t, was, other);
    }
  }

  lemma LoopAgrees(w: World, t: Thread, was: Pc, other: bool)
    requires t.Main? && (was.MainLead? || was.MainSpawn? || (InLoop(was) && !was.MainJoin?)) && MainPlan(w, t.e, was, other).Some?
    ensures Agrees(t, was, MainPlan(w, t.e, was, other).value)
  {
    if was.MainAwaitState? || was.MainReadState? {
      ReconcilingAgrees(w, t, was, other);
    } else if was.MainAwaitPrune? || was.MainReadPrune? {
      PruningAgrees(w, t, was, other);
    } else if was.MainLead? || was.MainSpawn? {
      EnteringAgrees(w, t, was, other);
    }
  }

  lemma ReconcilingAgrees(w: World, t: Thread, was: Pc, other: bool)
    requires t.Main? && (was.MainAwaitState? || was.MainReadState?)
    ensures MainPlan(w, t.e, was, other).Some? && Agrees(t, was, MainPlan(w, t.e, was, other).value)
  {
  }

  lemma PruningAgrees(w: World, t: Thread, was: Pc, other: bool)
    requires t.Main? && (was.MainAwaitPrune? || was.MainReadPrune?)
    ensures MainPlan(w, t.e, was, other).Some? && Agrees(t, was, MainPlan(w, t.e, was, other).value)
  {
  }

  lemma EnteringAgrees(w: World, t: Thread, was: Pc, other: bool)
    requires t.Main? && (was.MainLead? || was.MainSpawn?) && MainPlan(w, t.e, was, other).Some?
    ensures Agrees(t, was, MainPlan(w, t.e, was, other).value)
  {
  }

  lemma FailureAgrees(w: World, t: Thread, was: Pc, other: bool)
    requires t.Main? && (was.FailAwaitExec? || was.FailFinish? || was.ReleaseExec?) && MainPlan(w, t.e, was, other).Some?
    ensures Agrees(t, was, MainPlan(w, t.e, was, other).value)
  {
  }

  lemma CleanupAgrees(w: World, t: Thread, was: Pc)
    requires t.Main? && Fits(t, was) && CleanupPlan(w, t.e, was).Some?
    ensures Agrees(t, was, CleanupPlan(w, t.e, was).value)
  {
    if was.MainJoin? || was.MainAwaitClear? || was.MainClear? {
      ClearingAgrees(w, t, was);
    } else if was.MainAwaitExec? || was.MainFinish? {
      FinishingAgrees(w, t, was);
    } else {
      ReleasingAgrees(w, t, was);
    }
  }

  lemma ClearingAgrees(w: World, t: Thread, was: Pc)
    requires t.Main? && (was.MainJoin? || was.MainAwaitClear? || was.MainClear?) && CleanupPlan(w, t.e, was).Some?
    ensures Agrees(t, was, CleanupPlan(w, t.e, was).value)
  {
  }

  lemma FinishingAgrees(w: World, t: Thread, was: Pc)
    requires t.Main? && (was.MainAwaitExec? || was.MainFinish?)
    ensures CleanupPlan(w, t.e, was).Some? && Agrees(t, was, CleanupPlan(w, t.e, was).value)
  {
  }

  lemma ReleasingAgrees(w: World, t: Thread, was: Pc)
    requires t.Main? && (was.MainReleaseExec? || was.MainUnlead? || was.MainUnlock?)
    ensures CleanupPlan(w, t.e, was).Some? && Agrees(t, was, CleanupPlan(w, t.e, was).value)
  {
  }

  lemma MovesAgree(w: World, action: Action)
    requires !action.Cancel? && Chosen(w, action).Some? && Threads(w)
    ensures Agrees(Mover(action), Before(w, Mover(action)), Chosen(w, action).value)
  {
    if action.Run? {
      PlanAgrees(w, action.t, w.pcs[action.t], action.other);
    } else if action.Fire? {
      TickAgrees(action.t, w.pcs[action.t], action.tick);
    }
  }

  lemma PlanAgrees(w: World, t: Thread, was: Pc, other: bool)
    requires Fits(t, was) && Plan(w, t, was, other).Some?
    ensures Agrees(t, was, Plan(w, t, was, other).value)
  {
    match t
    case Caller(_) => CallAgrees(w, t, was, other);
    case Main(_) => MainAgrees(w, t, was, other);
    case Updater(_) => if UpdatingAt(was) { UpdateAgrees(w, t, was, other); }
  }

  lemma TickAgrees(t: Thread, was: Pc, tick: Tick)
    requires Fits(t, was) && TickPlan(was, tick).Some?
    ensures Agrees(t, was, TickPlan(was, tick).value)
  {
  }

  // Locks and threads.

  function Passed(lock: Option<Thread>, t: Thread, takes: bool, gives: bool): Option<Thread> {
    if takes then Some(t) else if gives then None else lock
  }

  lemma EffectOnLocks(w: World, t: Thread, effect: Effect)
    requires !effect.Spawn?
    ensures var w' := Caused(w, t, effect);
            && w'.pcs == w.pcs && |w'.execs| >= |w.execs|
            && w'.exec == Passed(w.exec, t, effect.TakeExec?, effect.GiveExec?)
            && w'.leader == Passed(w.leader, t, effect.TakeLeader?, effect.GiveLeader?)
            && w'.writer == Passed(w.writer, t, effect.TakeState?, effect.GiveState?)
            && w'.readers == if effect.TakeRead? then w.readers + {t} else if effect.GiveRead? then w.readers - {t} else w.readers
  {
  }

  lemma MoveKeepsLocks(w: World, t: Thread, move: Move)
    requires Threads(w) && Locks(w) && Agrees(t, Before(w, t), move) && Enabled(w, move.effect)
    requires !move.effect.Spawn? && (t.Main? ==> t in w.pcs)
    ensures Threads(Moved(w, t, move)) && Locks(Moved(w, t, move))
  {
    EffectOnLocks(Goto(w, t, move.pc), t, move.effect);
    var w' := Moved(w, t, move);
    forall u | u in w'.pcs ensures Held(w', u) {
      if u == t {
        MoverHeld(w, t, move);
      } else {
        assert Held(w, u) && w'.pcs[u] == w.pcs[u];
        OtherHeld(w, t, move, u);
      }
    }
  }

  lemma MoverHeld(w: World, t: Thread, move: Move)
    requires Locks(w) && Agrees(t, Before(w, t), move) && Enabled(w, move.effect) && !move.effect.Spawn?
    ensures Held(Moved(w, t, move), t)
  {
    EffectOnLocks(Goto(w, t, move.pc), t, move.effect);
    assert t in w.pcs ==> Held(w, t);
  }

  /** A thread holds what it held when another one moves: a lock that is taken was free, and one that
      is given was the mover's. */
  lemma OtherHeld(w: World, t: Thread, move: Move, u: Thread)
    requires Locks(w) && Agrees(t, Before(w, t), move) && Enabled(w, move.effect) && !move.effect.Spawn?
    requires u != t && u in w.pcs && Held(w, u)
    ensures Held(Moved(w, t, move), u)
  {
    EffectOnLocks(Goto(w, t, move.pc), t, move.effect);
    assert t in w.pcs ==> Held(w, t);
  }

  /** The move agrees with what the thread holds, can be taken, and spawns nothing but a new thread. */
  ghost predicate Proper(w: World, t: Thread, move: Move) {
    && Agrees(t, Before(w, t), move) && Enabled(w, move.effect) && (t in w.pcs || t.Caller?)
    && (move.effect.Spawn? ==>
          var child := move.effect.child;
          child !in w.pcs && child != t && t in w.pcs && (child.Main? ==> child.e < |w.execs|))
  }

  lemma KeepsLocks(w: World, t: Thread, move: Move)
    requires Threads(w) && Locks(w) && Proper(w, t, move)
    ensures Threads(Moved(w, t, move)) && Locks(Moved(w, t, move))
  {
    if move.effect.Spawn? {
      SpawnKeepsLocks(w, t, move);
    } else {
      MoveKeepsLocks(w, t, move);
    }
  }

  lemma SpawnKeepsLocks(w: World, t: Thread, move: Move)
    requires Threads(w) && Locks(w) && Proper(w, t, move) && move.effect.Spawn?
    ensures Threads(Moved(w, t, move)) && Locks(Moved(w, t, move))
  {
    SpawnFits(w, t, move);
    forall u | u in Moved(w, t, move).pcs ensures Held(Moved(w, t, move), u) {
      assert u in w.pcs ==> Held(w, u);
      SpawnKeepsHeld(w, t, move, u);
    }
  }

  lemma SpawnFits(w: World, t: Thread, move: Move)
    requires Threads(w) && Proper(w, t, move) && move.effect.Spawn?
    ensures Threads(Moved(w, t, move))
    ensures Moved(w, t, move) == w.(pcs := w.pcs[t := move.pc][move.effect.child := move.effect.pc])
  {
  }

  /** Threads are spawned holding nothing, by threads that go on holding what they held. */
  lemma SpawnHolds(t: Thread, was: Pc, move: Move)
    requires Agrees(t, was, move) && move.effect.Spawn?
    ensures HoldsExec(was) == HoldsExec(move.pc) && HoldsLeader(was) == HoldsLeader(move.pc)
    ensures HoldsWriter(was) == HoldsWriter(move.pc) && HoldsReader(was) == HoldsReader(move.pc)
    ensures var pc := move.effect.pc; !HoldsExec(pc) && !HoldsLeader(pc) && !HoldsWriter(pc) && !HoldsReader(pc)
  {
  }

  lemma SpawnKeepsHeld(w: World, t: Thread, move: Move, u: Thread)
    requires Held(w, u) && Held(w, t) && Proper(w, t, move) && move.effect.Spawn?
    requires u == move.effect.child ==> w.exec != Some(u) && w.leader != Some(u) && w.writer != Some(u) && u !in w.readers
    ensures Held(Moved(w, t, move), u)
  {
    SpawnHolds(t, w.pcs[t], move);
    var w' := Moved(w, t, move);
    assert w' == w.(pcs := w.pcs[t := move.pc][move.effect.child := move.effect.pc]);
    if u != t && u != move.effect.child && u in w.pcs {
      assert w'.pcs[u] == w.pcs[u];
    }
  }

  lemma ChildIsNew(w: World, t: Thread, move: Move)
    requires Threads(w) && Locks(w) && Children(w) && Publication(w)
    requires t in w.pcs && Agrees(t, w.pcs[t], move) && move.effect.Spawn?
    ensures var child := move.effect.child;
            child !in w.pcs && child != t && (child.Main? ==> child.e < |w.execs|)
  {
    assert Held(w, t) && Fits(t, w.pcs[t]) && Child(w, if t.Main? then t.e else 0);
  }

  lemma MovesAreProper(w: World, action: Action)
    requires Threads(w) && Locks(w) && Children(w) && Publication(w)
    requires !action.Cancel? && Chosen(w, action).Some? && Enabled(w, Chosen(w, action).value.effect)
    ensures Proper(w, Mover(action), Chosen(w, action).value)
  {
    MovesAgree(w, action);
    if Chosen(w, action).value.effect.Spawn? {
      ChildIsNew(w, Mover(action), Chosen(w, action).value);
    }
  }

  // Updaters and their executions.

  /** An execution enters its loop with an updater at its side, and leaves it without one. */
  ghost predicate KeepsCompany(w: World, t: Thread, move: Move) {
    t.Main? ==>
      var was := Before(w, t);
      && !move.pc.MainLead? && (move.pc.MainSpawn? ==> was.MainLead?)
      && (if move.effect.Spawn? then InLoop(move.pc) else InLoop(move.pc) ==> InLoop(was))
      && (InLoop(was) && !InLoop(move.pc) ==> Updater(t.e) in w.pcs && w.pcs[Updater(t.e)].Gone?)
  }

  ghost predicate StaysGone(w: World, t: Thread, move: Move) {
    t.Updater? ==> t in w.pcs && !w.pcs[t].Gone?
  }

  lemma KeepsChild(w: World, t: Thread, move: Move, e: nat)
    requires Child(w, e) && Proper(w, t, move) && KeepsCompany(w, t, move) && StaysGone(w, t, move)
    ensures Child(Moved(w, t, move), e)
  {
    if !move.effect.Spawn? {
      EffectOnLocks(Goto(w, t, move.pc), t, move.effect);
    }
  }

  lemma KeepsChildren(w: World, t: Thread, move: Move)
    requires Children(w) && Proper(w, t, move) && KeepsCompany(w, t, move) && StaysGone(w, t, move)
    ensures Children(Moved(w, t, move))
  {
    forall e: nat ensures Child(Moved(w, t, move), e) {
      assert Child(w, e);
      KeepsChild(w, t, move, e);
    }
  }

  // The published execution.

  /** An execution is appended when Start decides, started next to last, and published last. */
  ghost predicate KeepsOrder(w: World, t: Thread, move: Move) {
    var was := Before(w, t);
    && (move.effect.Append? <==> was.StartDecide? && MidStart(move.pc))
    && (move.effect.Append? ==> move.pc.e == |w.execs| && !move.pc.StartPublish? && CurrentStatus(w) != Running)
    && (MidStart(move.pc) ==> was.StartDecide? || (MidStart(was) && move.pc.e == was.e))
    && (MidStart(was) ==> (move.pc.StartPublish? <==> was.StartSpawn?))
    && (MidStart(was) && !MidStart(move.pc) ==> was.StartPublish?)
    && (was.StartPublish? ==> move == Move(ReleaseExec, Publish(was.e)))
    && (move.effect.Publish? ==> was.StartPublish?)
    && (was.StartSpawn? ==> move.effect.Spawn?)
  }

  lemma EffectOnExecs(w: World, t: Thread, effect: Effect)
    ensures var w' := Caused(w, t, effect);
            && |w'.execs| == |w.execs| + (if effect.Append? then 1 else 0)
            && w'.current == (if effect.Publish? then Some(effect.e) else w.current)
            && (effect.Spawn? ==> w' == Goto(w, effect.child, effect.pc))
            && (!effect.Append? && !effect.StopCurrent? && !effect.Finish? ==> w'.execs == w.execs && w'.panicked == w.panicked)
  {
  }

  /** What a move does to the threads and to execLock. */
  lemma MovedThreads(w: World, t: Thread, move: Move)
    requires Proper(w, t, move)
    ensures var w' := Moved(w, t, move);
            && w'.pcs == (if move.effect.Spawn? then w.pcs[t := move.pc][move.effect.child := move.effect.pc] else w.pcs[t := move.pc])
            && w'.exec == Passed(w.exec, t, move.effect.TakeExec?, move.effect.GiveExec?)
            && |w'.execs| == |w.execs| + (if move.effect.Append? then 1 else 0)
            && w'.current == (if move.effect.Publish? then Some(move.effect.e) else w.current)
  {
    EffectOnExecs(Goto(w, t, move.pc), t, move.effect);
    if !move.effect.Spawn? {
      EffectOnLocks(Goto(w, t, move.pc), t, move.effect);
    }
  }

  lemma StartKeepsPublication(w: World, t: Thread, move: Move)
    requires Threads(w) && Publication(w) && Proper(w, t, move) && KeepsOrder(w, t, move)
    requires t in w.pcs && w.exec == Some(t) && (w.pcs[t].StartDecide? || MidStart(w.pcs[t]))
    ensures Publication(Moved(w, t, move))
  {
    MovedThreads(w, t, move);
    if w.pcs[t].StartDecide? {
      DecidingKeepsPublication(w, t, move);
    } else if w.pcs[t].StartSpawn? {
      SpawningKeepsPublication(w, t, move);
    }
  }

  lemma DecidingKeepsPublication(w: World, t: Thread, move: Move)
    requires Threads(w) && Publication(w) && Proper(w, t, move) && KeepsOrder(w, t, move)
    requires t in w.pcs && w.exec == Some(t) && w.pcs[t].StartDecide?
    ensures Publication(Moved(w, t, move))
  {
    MovedThreads(w, t, move);
  }

  lemma SpawningKeepsPublication(w: World, t: Thread, move: Move)
    requires Threads(w) && Publication(w) && Proper(w, t, move) && KeepsOrder(w, t, move)
    requires t in w.pcs && w.exec == Some(t) && w.pcs[t].StartSpawn?
    ensures Publication(Moved(w, t, move))
  {
    MovedThreads(w, t, move);
  }

  lemma OthersKeepPublication(w: World, t: Thread, move: Move)
    requires Threads(w) && Locks(w) && Publication(w) && Proper(w, t, move) && KeepsOrder(w, t, move)
    requires !Before(w, t).StartDecide? && !MidStart(Before(w, t))
    ensures Publication(Moved(w, t, move))
  {
    MovedThreads(w, t, move);
    var w' := Moved(w, t, move);
    assert t in w.pcs ==> Held(w, t);
    assert forall e: nat :: Main(e) in w.pcs <==> Main(e) in w'.pcs;
    if Starting(w) {
      assert Fits(w.exec.value, w.pcs[w.exec.value]);
      assert w'.exec == w.exec;
    } else {
      assert !Starting(w');
    }
  }

  lemma KeepsPublication(w: World, t: Thread, move: Move)
    requires Threads(w) && Locks(w) && Publication(w) && Proper(w, t, move) && KeepsOrder(w, t, move)
    ensures Publication(Moved(w, t, move))
  {
    if t in w.pcs && (w.pcs[t].StartDecide? || MidStart(w.pcs[t])) {
      assert Held(w, t);
      StartKeepsPublication(w, t, move);
    } else {
      OthersKeepPublication(w, t, move);
    }
  }

  // The execution records.

  /** An execution gives up its loop only when cancelled, and its record only when it finishes. */
  ghost predicate KeepsNotice(w: World, t: Thread, move: Move) {
    var was := Before(w, t);
    && (move.effect.Finish? ==> t.Main? && move.effect.e == t.e && (was.MainFinish? || was.FailFinish?))
    && (move.effect.StopCurrent? ==> t.Caller?)
    && (t.Main? ==>
          && (Finished(move.pc) <==> Finished(was) || move.effect.Finish?)
          && (Awake(move.pc) ==> Awake(was))
          && (Awake(was) && !Awake(move.pc) ==> Cancelled(w, t.e)))
  }

  lemma MainKeepsRecord(w: World, t: Thread, move: Move)
    requires t.Main? && t in w.pcs && t.e < |w.execs| && Record(w, t.e) && !w.panicked
    requires Proper(w, t, move) && KeepsNotice(w, t, move) && !move.effect.Append? && !move.effect.StopCurrent?
    ensures !Moved(w, t, move).panicked && |Moved(w, t, move).execs| == |w.execs| && Record(Moved(w, t, move), t.e)
    ensures forall e :: 0 <= e < |w.execs| && e != t.e ==> Moved(w, t, move).execs[e] == w.execs[e]
  {
    MovedThreads(w, t, move);
    EffectOnExecs(Goto(w, t, move.pc), t, move.effect);
  }

  /** An execution is not affected by what others do to their records. */
  lemma OthersKeepRecord(w: World, t: Thread, move: Move, e: nat)
    requires e < |w.execs| && Record(w, e) && t != Main(e) && Proper(w, t, move)
    requires |Moved(w, t, move).execs| == |w.execs| && Moved(w, t, move).execs[e] == w.execs[e]
    ensures Record(Moved(w, t, move), e)
  {
    MovedThreads(w, t, move);
  }

  lemma MainKeepsRecords(w: World, t: Thread, move: Move)
    requires t.Main? && t in w.pcs && t.e < |w.execs| && Records(w)
    requires Proper(w, t, move) && KeepsNotice(w, t, move) && !move.effect.Append? && !move.effect.StopCurrent?
    ensures Records(Moved(w, t, move))
  {
    assert Record(w, t.e);
    MainKeepsRecord(w, t, move);
    forall e | 0 <= e < |w.execs| && e != t.e ensures Record(Moved(w, t, move), e) {
      assert Record(w, e);
      OthersKeepRecord(w, t, move, e);
    }
  }

  /** The published execution, when it is not running, has its context cancelled. */
  lemma PublishedIsCancelled(w: World)
    requires Records(w) && Publication(w) && !Starting(w) && w.execs != []
    ensures w.current == Some(|w.execs| - 1)
    ensures CurrentStatus(w) != Running ==> w.execs[|w.execs| - 1].cancelled
  {
    assert Record(w, |w.execs| - 1);
  }

  lemma AppendKeepsRecords(w: World, t: Thread, move: Move)
    requires t in w.pcs && w.exec == Some(t) && w.pcs[t].StartDecide? && t.Caller?
    requires Threads(w) && Records(w) && Publication(w) && move.effect.Append? && CurrentStatus(w) != Running
    ensures Records(Moved(w, t, move))
  {
    if w.execs != [] {
      PublishedIsCancelled(w);
    }
    forall e | 0 <= e < |w.execs| + 1 ensures Record(Moved(w, t, move), e) {
      assert e < |w.execs| ==> Record(w, e);
    }
  }

  lemma StopKeepsRecords(w: World, t: Thread, move: Move)
    requires Records(w) && t.Caller? && move.effect.StopCurrent?
    ensures Records(Moved(w, t, move))
  {
    assert CurrentStatus(w) != NotRunning ==> Record(w, w.current.value);
    forall e | 0 <= e < |w.execs| ensures Record(Moved(w, t, move), e) {
      assert Record(w, e);
    }
  }

  lemma CancelKeepsRecords(w: World, e: nat, w': World)
    requires Records(w) && e < |w.execs| && w' == w.(execs := w.execs[e := w.execs[e].(cancelled := true)])
    ensures Records(w')
  {
    forall d | 0 <= d < |w.execs| ensures Record(w', d) {
      assert Record(w, d);
    }
  }

  lemma KeepsRecords(w: World, t: Thread, move: Move)
    requires Threads(w) && Locks(w) && Publication(w) && Records(w)
    requires Proper(w, t, move) && KeepsOrder(w, t, move) && KeepsNotice(w, t, move)
    ensures Records(Moved(w, t, move))
  {
    if move.effect.Append? {
      assert Held(w, t) && Fits(t, w.pcs[t]);
      AppendKeepsRecords(w, t, move);
    } else if move.effect.StopCurrent? {
      StopKeepsRecords(w, t, move);
    } else if t.Main? {
      MainKeepsRecords(w, t, move);
    } else {
      EffectOnExecs(Goto(w, t, move.pc), t, move.effect);
      forall e | 0 <= e < |w.execs| ensures Record(Moved(w, t, move), e) {
        assert Record(w, e);
        OthersKeepRecord(w, t, move, e);
      }
    }
  }

  // The versions an update has read.

  /** The thread is in an update of a.state or in a cleanup, which resets it. */
  predicate Updates(pc: Pc) {
    UpdatingAt(pc) || InCleanup(pc)
  }

  lemma OneUpdate(w: World, t: Thread, u: Thread)
    requires Threads(w) && Locks(w) && Children(w) && t in w.pcs && u in w.pcs
    requires Updates(w.pcs[t]) && Updates(w.pcs[u])
    ensures t == u
  {
    UpdaterLeads(w, t);
    UpdaterLeads(w, u);
  }

  /** An update or cleanup belongs to the holder of leaderLock; an updater's execution is in its loop. */
  lemma UpdaterLeads(w: World, t: Thread)
    requires Threads(w) && Locks(w) && Children(w) && t in w.pcs && Updates(w.pcs[t])
    ensures w.leader == Some(if t.Updater? then Main(t.e) else t)
    ensures t.Updater? ==> Main(t.e) in w.pcs && !Updates(w.pcs[Main(t.e)])
  {
    assert Held(w, t) && Fits(t, w.pcs[t]);
    if t.Updater? {
      assert Child(w, t.e) && Held(w, Main(t.e));
    }
  }

  /** An update carries the version it has read along, and only an update or a reset makes a new one. */
  ghost predicate KeepsStage(w: World, t: Thread, move: Move) {
    var was := Before(w, t);
    && (move.effect.Assign? ==> t in w.pcs && Updates(was))
    && (UpdatingAt(move.pc) && (UpdatingAt(was) ==> UpToDate(was.stage, w.version)) ==>
          UpToDate(move.pc.stage, w.version) && (move.effect.Assign? ==> move.pc.stage.EndStore?))
  }

  lemma EffectOnVersion(w: World, t: Thread, effect: Effect)
    ensures Caused(w, t, effect).version == w.version + if effect.Assign? then 1 else 0
  {
  }

  lemma KeepsSnapshots(w: World, t: Thread, move: Move)
    requires Threads(w) && Locks(w) && Children(w) && Snapshots(w) && Proper(w, t, move) && KeepsStage(w, t, move)
    ensures Snapshots(Moved(w, t, move))
  {
    MovedThreads(w, t, move);
    EffectOnVersion(Goto(w, t, move.pc), t, move.effect);
    var w' := Moved(w, t, move);
    forall u | u in w'.pcs && UpdatingAt(w'.pcs[u]) ensures UpToDate(w'.pcs[u].stage, w'.version) {
      if u != t && move.effect.Assign? {
        OneUpdate(w, t, u);
      }
    }
  }

  // Every move of every thread is of this kind.

  ghost predicate Regular(w: World, t: Thread, move: Move) {
    && KeepsCompany(w, t, move) && StaysGone(w, t, move)
    && KeepsOrder(w, t, move) && KeepsNotice(w, t, move) && KeepsStage(w, t, move)
  }

  lemma UpdateIsRegular(w: World, t: Thread, failing: bool)
    requires t in w.pcs && !t.Main? && UpdatingAt(w.pcs[t]) && Fits(t, w.pcs[t])
    ensures Regular(w, t, UpdatePlan(w, t, w.pcs[t], failing))
  {
  }

  lemma StartIsRegular(w: World, t: Thread, other: bool)
    requires t in w.pcs && t.Caller? && Fits(t, w.pcs[t]) && StartPlan(w, t, w.pcs[t], other).Some?
    ensures Regular(w, t, StartPlan(w, t, w.pcs[t], other).value)
  {
    if UpdatingAt(w.pcs[t]) {
      UpdateIsRegular(w, t, other);
    }
  }

  lemma CallIsRegular(w: World, t: Thread, other: bool)
    requires t in w.pcs && t.Caller? && Fits(t, w.pcs[t]) && CallPlan(w, t, w.pcs[t], other).Some?
    ensures Regular(w, t, CallPlan(w, t, w.pcs[t], other).value)
  {
    if w.pcs[t].StartDecide? || MidStart(w.pcs[t]) {
      StartIsRegular(w, t, other);
    }
  }

  lemma CleanupIsRegular(w: World, t: Thread)
    requires t in w.pcs && t.Main? && CleanupPlan(w, t.e, w.pcs[t]).Some?
    ensures Regular(w, t, CleanupPlan(w, t.e, w.pcs[t]).value)
  {
  }

  lemma MainIsRegular(w: World, t: Thread, other: bool)
    requires t in w.pcs && t.Main? && Fits(t, w.pcs[t]) && MainPlan(w, t.e, w.pcs[t], other).Some?
    ensures Regular(w, t, MainPlan(w, t.e, w.pcs[t], other).value)
  {
    if InCleanup(w.pcs[t]) || w.pcs[t].MainJoin? || w.pcs[t].MainUnlock? {
      CleanupIsRegular(w, t);
    } else if InLoop(w.pcs[t]) {
      LoopIsRegular(w, t, other);
    }
  }

  lemma LoopIsRegular(w: World, t: Thread, other: bool)
    requires t in w.pcs && t.Main? && InLoop(w.pcs[t]) && !w.pcs[t].MainJoin? && MainPlan(w, t.e, w.pcs[t], other).Some?
    ensures Regular(w, t, MainPlan(w, t.e, w.pcs[t], other).value)
  {
    if w.pcs[t].MainAwaitState? || w.pcs[t].MainReadState? || w.pcs[t].MainReconcile? {
      ReconcilingIsRegular(w, t, other);
    }
  }

  lemma ReconcilingIsRegular(w: World, t: Thread, other: bool)
    requires t in w.pcs && t.Main? && (w.pcs[t].MainAwaitState? || w.pcs[t].MainReadState? || w.pcs[t].MainReconcile?)
    ensures MainPlan(w, t.e, w.pcs[t], other).Some? && Regular(w, t, MainPlan(w, t.e, w.pcs[t], other).value)
  {
  }

  lemma MovesAreRegular(w: World, action: Action)
    requires Threads(w) && !action.Cancel? && Chosen(w, action).Some?
    ensures Regular(w, Mover(action), Chosen(w, action).value)
  {
    if action.Run? {
      var t := action.t;
      match t
      case Caller(_) => CallIsRegular(w, t, action.other);
      case Main(_) => MainIsRegular(w, t, action.other);
      case Updater(_) => UpdaterIsRegular(w, t, action.other);
    } else if action.Fire? {
      TickIsRegular(w, action.t, action.tick);
    }
  }

  lemma UpdaterIsRegular(w: World, t: Thread, other: bool)
    requires t in w.pcs && t.Updater? && Fits(t, w.pcs[t]) && UpdaterPlan(w, t, t.e, w.pcs[t], other).Some?
    ensures Regular(w, t, UpdaterPlan(w, t, t.e, w.pcs[t], other).value)
  {
    if UpdatingAt(w.pcs[t]) {
      UpdateIsRegular(w, t, other);
    }
  }

  lemma TickIsRegular(w: World, t: Thread, tick: Tick)
    requires t in w.pcs && Fits(t, w.pcs[t]) && TickPlan(w.pcs[t], tick).Some?
    ensures Regular(w, t, TickPlan(w.pcs[t], tick).value)
  {
  }

  lemma CancelKeepsInvariant(w: World, e: nat)
    requires Invariant(w) && e < |w.execs|
    ensures Invariant(w.(execs := w.execs[e := w.execs[e].(cancelled := true)]))
  {
    var w' := w.(execs := w.execs[e := w.execs[e].(cancelled := true)]);
    assert forall t :: t in w.pcs ==> Held(w, t);
    assert forall d: nat :: Child(w, d) ==> Child(w', d);
    CancelKeepsRecords(w, e, w');
  }

  lemma InvariantHoldsAtFirst()
    ensures Invariant(INITIAL)
  {
  }

  lemma EveryStepKeepsInvariant(w: World, action: Action, w': World)
    requires Invariant(w) && Next(w, action) == Some(w')
    ensures Invariant(w')
  {
    if action.Cancel? {
      CancelKeepsInvariant(w, action.e);
    } else {
      MovesAreProper(w, action);
      MovesAreRegular(w, action);
      MoveKeepsInvariant(w, Mover(action), Chosen(w, action).value);
    }
  }

  lemma MoveKeepsInvariant(w: World, t: Thread, move: Move)
    requires Invariant(w) && Proper(w, t, move) && Regular(w, t, move)
    ensures Invariant(Moved(w, t, move))
  {
    KeepsLocks(w, t, move);
    KeepsChildren(w, t, move);
    KeepsRecords(w, t, move);
    KeepsPublication(w, t, move);
    KeepsSnapshots(w, t, move);
  }
}
