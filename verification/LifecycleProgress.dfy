/** No thread of the lifecycle waits in a circle, and what was asked for gets done. */
module LifecycleProgress {
  import opened Types
  import opened Lifecycle
  import opened LifecycleInvariant
  import opened LifecycleTrace

  // Waiting.

  predicate AwaitsExec(pc: Pc) {
    pc.StartWait? || pc.StopWait? || pc.QueryWait? || pc.MainAwaitExec? || pc.FailAwaitExec?
  }

  predicate AwaitsRead(pc: Pc) {
    (UpdatingAt(pc) && pc.stage.AwaitRead?) || pc.MainAwaitState? || pc.MainAwaitPrune? || pc.ReadWait?
  }

  predicate AwaitsWrite(pc: Pc) {
    (UpdatingAt(pc) && pc.stage.AwaitWrite?) || pc.MainAwaitClear?
  }

  /** t cannot go on before u does something: u holds the lock t asks for without a time limit, or
      is a writer that asked for stateLock, which keeps new readers out, or the updater waited for. */
  ghost predicate WaitsFor(w: World, t: Thread, u: Thread) {
    && t in w.pcs && u in w.pcs
    && var pc := w.pcs[t];
       || (AwaitsExec(pc) && w.exec == Some(u))
       || (pc.MainLead? && w.leader == Some(u))
       || (AwaitsRead(pc) && (w.writer == Some(u) || AwaitsWrite(w.pcs[u])))
       || (AwaitsWrite(pc) && (w.writer == Some(u) || u in w.readers))
       || (pc.MainJoin? && t.Main? && u == Updater(t.e) && !w.pcs[u].Gone?)
  }

  /** How far down the order of waiting a thread is. */
  function Rank(pc: Pc): nat {
    if pc.MainLead? then 3
    else if pc.MainAwaitExec? || AwaitsWrite(pc) || (UpdatingAt(pc) && pc.stage.AwaitRead?) then 1
    else if AwaitsExec(pc) || AwaitsRead(pc) || pc.MainJoin? then 2
    else 0
  }

  /** Every wait is for a thread lower in the order, so nothing waits in a circle. */
  lemma WaitingGoesDown(w: World, t: Thread, u: Thread)
    requires Invariant(w) && WaitsFor(w, t, u)
    ensures Rank(w.pcs[u]) < Rank(w.pcs[t])
  {
    assert Held(w, t) && Held(w, u) && Fits(t, w.pcs[t]) && Fits(u, w.pcs[u]);
    if Updates(w.pcs[t]) && Updates(w.pcs[u]) {
      OneUpdate(w, t, u);
    }
    HoldersRank(t, w.pcs[t]);
    HoldersRank(u, w.pcs[u]);
  }

  /** How low whoever holds a lock is. */
  lemma HoldersRank(t: Thread, pc: Pc)
    requires Fits(t, pc)
    ensures HoldsExec(pc) || HoldsLeader(pc) ==> Rank(pc) <= 2
    ensures HoldsExec(pc) ==> Rank(pc) <= 1
    ensures HoldsWriter(pc) ==> Rank(pc) == 0 || pc.MainAwaitExec?
    ensures HoldsReader(pc) ==> Rank(pc) == 0
  {
  }

  /** A Start that has taken leaderLock never waits for a cleanup that still needs execLock. */
  lemma StartWaitsForNoCleanup(w: World, t: Thread, u: Thread)
    requires Invariant(w) && WaitsFor(w, t, u) && w.pcs[t].StartUpdate?
    ensures !AwaitsExec(w.pcs[u]) && (u.Main? ==> w.pcs[u].MainUnlock?)
  {
    WaitingGoesDown(w, t, u);
    assert Held(w, t) && Held(w, u) && Fits(u, w.pcs[u]);
  }

  // Going on.

  /** The thread can take its next step, even when a writer that asked for stateLock goes first. */
  ghost predicate CanGo(w: World, t: Thread) {
    && t in w.pcs
    && (AwaitsRead(w.pcs[t]) ==> forall u :: u in w.pcs ==> !AwaitsWrite(w.pcs[u]))
    && (Next(w, Run(t, false)).Some? || Next(w, Run(t, true)).Some?)
  }

  /** Done, or running and waiting for the next tick. */
  ghost predicate Idle(w: World, t: Thread)
    requires t in w.pcs
  {
    || w.pcs[t].Gone?
    || (t.Main? && w.pcs[t].MainLoop? && !Cancelled(w, t.e))
    || (t.Updater? && w.pcs[t].UpdaterIdle? && !Cancelled(w, t.e))
  }

  /** Some thread is waited for. */
  ghost predicate Waits(w: World, t: Thread) {
    exists u :: WaitsFor(w, t, u)
  }

  lemma CallWaits(w: World, t: Thread)
    requires Invariant(w) && t in w.pcs && t.Caller? && !CanGo(w, t) && !Idle(w, t)
    ensures Waits(w, t)
  {
    CallBlocked(w, t);
    LockWaits(w, t);
  }

  /** A call can always go on, but for a lock that is not free. */
  lemma CallBlocked(w: World, t: Thread)
    requires Threads(w) && t in w.pcs && t.Caller? && !CanGo(w, t) && !Idle(w, t)
    ensures || (AwaitsExec(w.pcs[t]) && w.exec.Some?)
            || (AwaitsRead(w.pcs[t]) && (w.writer.Some? || exists u :: u in w.pcs && AwaitsWrite(w.pcs[u])))
            || (AwaitsWrite(w.pcs[t]) && (w.writer.Some? || w.readers != {}))
  {
    assert Fits(t, w.pcs[t]);
    if w.pcs[t].StartDecide? || MidStart(w.pcs[t]) {
      StartBlocked(w, t);
    }
  }

  lemma StartBlocked(w: World, t: Thread)
    requires t in w.pcs && t.Caller? && !CanGo(w, t) && (w.pcs[t].StartDecide? || MidStart(w.pcs[t]))
    ensures || (AwaitsRead(w.pcs[t]) && (w.writer.Some? || exists u :: u in w.pcs && AwaitsWrite(w.pcs[u])))
            || (AwaitsWrite(w.pcs[t]) && (w.writer.Some? || w.readers != {}))
  {
  }

  /** Asking for a lock in vain is waiting for a thread. */
  lemma LockWaits(w: World, t: Thread)
    requires Invariant(w) && t in w.pcs
    ensures AwaitsExec(w.pcs[t]) && w.exec.Some? ==> Waits(w, t)
    ensures w.pcs[t].MainLead? && w.leader.Some? ==> Waits(w, t)
    ensures AwaitsRead(w.pcs[t]) && (w.writer.Some? || exists u :: u in w.pcs && AwaitsWrite(w.pcs[u])) ==> Waits(w, t)
    ensures AwaitsWrite(w.pcs[t]) && (w.writer.Some? || w.readers != {}) ==> Waits(w, t)
  {
    if AwaitsExec(w.pcs[t]) && w.exec.Some? {
      assert WaitsFor(w, t, w.exec.value);
    }
    if w.pcs[t].MainLead? && w.leader.Some? {
      assert WaitsFor(w, t, w.leader.value);
    }
    if (AwaitsRead(w.pcs[t]) || AwaitsWrite(w.pcs[t])) && w.writer.Some? {
      assert WaitsFor(w, t, w.writer.value);
    }
    if AwaitsWrite(w.pcs[t]) && w.readers != {} {
      var u :| u in w.readers;
      assert WaitsFor(w, t, u);
    }
    if u :| AwaitsRead(w.pcs[t]) && u in w.pcs && AwaitsWrite(w.pcs[u]) {
      assert WaitsFor(w, t, u);
    }
  }

  lemma MainWaits(w: World, t: Thread)
    requires Invariant(w) && t in w.pcs && t.Main? && !CanGo(w, t) && !Idle(w, t)
    ensures Waits(w, t)
  {
    assert Fits(t, w.pcs[t]) && Child(w, t.e);
    LockWaits(w, t);
    if w.pcs[t].MainJoin? {
      assert WaitsFor(w, t, Updater(t.e));
    } else if InCleanup(w.pcs[t]) || w.pcs[t].MainUnlock? {
      CleanupWaits(w, t);
    } else {
      LoopWaits(w, t);
    }
  }

  lemma LoopWaits(w: World, t: Thread)
    requires t in w.pcs && t.Main? && Fits(t, w.pcs[t]) && !CanGo(w, t) && !Idle(w, t)
    requires !w.pcs[t].MainJoin? && !InCleanup(w.pcs[t]) && !w.pcs[t].MainUnlock?
    ensures || (AwaitsExec(w.pcs[t]) && w.exec.Some?)
            || (w.pcs[t].MainLead? && w.leader.Some?)
            || (AwaitsRead(w.pcs[t]) && (w.writer.Some? || exists u :: u in w.pcs && AwaitsWrite(w.pcs[u])))
  {
  }

  lemma CleanupWaits(w: World, t: Thread)
    requires t in w.pcs && t.Main? && !CanGo(w, t) && (InCleanup(w.pcs[t]) || w.pcs[t].MainUnlock?)
    ensures w.pcs[t].MainAwaitClear? || w.pcs[t].MainAwaitExec?
    ensures AwaitsWrite(w.pcs[t]) ==> w.writer.Some? || w.readers != {}
    ensures AwaitsExec(w.pcs[t]) ==> w.exec.Some?
  {
  }

  lemma UpdaterWaits(w: World, t: Thread)
    requires Invariant(w) && t in w.pcs && t.Updater? && !CanGo(w, t) && !Idle(w, t)
    ensures Waits(w, t)
  {
    assert Fits(t, w.pcs[t]);
    UpdateWaits(w, t);
    LockWaits(w, t);
  }

  lemma UpdateWaits(w: World, t: Thread)
    requires t in w.pcs && t.Updater? && Fits(t, w.pcs[t]) && !CanGo(w, t) && !Idle(w, t)
    ensures (AwaitsRead(w.pcs[t]) && (w.writer.Some? || exists u :: u in w.pcs && AwaitsWrite(w.pcs[u])))
            || (AwaitsWrite(w.pcs[t]) && (w.writer.Some? || w.readers != {}))
  {
  }

  /** The thread waited for is not idle itself, unless the one waiting can give up. */
  lemma WaitedForIsBusy(w: World, t: Thread, u: Thread)
    requires Invariant(w) && WaitsFor(w, t, u) && !CanGo(w, t)
    ensures !Idle(w, u)
  {
    assert Fits(t, w.pcs[t]) && Fits(u, w.pcs[u]);
    if w.pcs[t].MainLead? {
      LeaderIsCancelled(w, t, u);
    } else if w.pcs[t].MainJoin? {
      assert Record(w, t.e);
    } else {
      assert Held(w, u);
      IdleHoldsLittle(w, u);
    }
  }

  /** Idle threads keep nobody waiting but for leaderLock. */
  lemma IdleHoldsLittle(w: World, u: Thread)
    requires u in w.pcs && Fits(u, w.pcs[u])
    ensures Idle(w, u) ==> !HoldsExec(w.pcs[u]) && !HoldsWriter(w.pcs[u]) && !HoldsReader(w.pcs[u]) && !AwaitsWrite(w.pcs[u])
  {
  }

  /** An execution that waits for leaderLock can only give up when it is cancelled; if it is not, it is
      the latest, and whoever holds the lock has to go. */
  lemma LeaderIsCancelled(w: World, t: Thread, u: Thread)
    requires Invariant(w) && WaitsFor(w, t, u) && !CanGo(w, t) && w.pcs[t].MainLead?
    ensures !Idle(w, u)
  {
    assert Held(w, u) && Fits(t, w.pcs[t]) && Fits(u, w.pcs[u]);
    if Idle(w, u) {
      IdleLeaderRuns(w, u);
      OnlyCancelledGiveUp(w, t);
      LatestIsAlone(w, t);
      LatestIsAlone(w, u);
    }
  }

  lemma IdleLeaderRuns(w: World, u: Thread)
    requires u in w.pcs && Fits(u, w.pcs[u]) && HoldsLeader(w.pcs[u]) && Idle(w, u)
    ensures u.Main? && w.pcs[u].MainLoop? && !Cancelled(w, u.e)
  {
  }

  lemma LatestIsAlone(w: World, t: Thread)
    requires Threads(w) && Records(w) && t in w.pcs && t.Main?
    ensures !Cancelled(w, t.e) ==> t.e == |w.execs| - 1
  {
    assert Record(w, t.e);
  }

  lemma OnlyCancelledGiveUp(w: World, t: Thread)
    requires t in w.pcs && t.Main? && w.pcs[t].MainLead? && !CanGo(w, t)
    ensures !Cancelled(w, t.e)
  {
  }

  /** Each waits for the next. */
  ghost predicate WaitPath(w: World, path: seq<Thread>) {
    path != [] && forall i :: 0 <= i < |path| - 1 ==> WaitsFor(w, path[i], path[i + 1])
  }

  /** Following whom a thread waits for leads, in a few steps, to one that can go on. */
  lemma {:induction false} WaitingEnds(w: World, t: Thread) returns (path: seq<Thread>)
    requires Invariant(w) && t in w.pcs && !Idle(w, t)
    ensures WaitPath(w, path) && path[0] == t && |path| <= Rank(w.pcs[t]) + 1
    ensures CanGo(w, path[|path| - 1])
    decreases Rank(w.pcs[t])
  {
    if CanGo(w, t) {
      path := [t];
    } else {
      match t {
        case Caller(_) => CallWaits(w, t);
        case Main(_) => MainWaits(w, t);
        case Updater(_) => UpdaterWaits(w, t);
      }
      var u :| WaitsFor(w, t, u);
      WaitingGoesDown(w, t, u);
      WaitedForIsBusy(w, t, u);
      var rest := WaitingEnds(w, u);
      path := [t] + rest;
    }
  }

  // Getting done.

  /** How many steps an update still takes at most. */
  function StageWeight(stage: Stage): nat {
    match stage
    case AwaitRead => 7
    case ReadState => 6
    case Gather(_) => 5
    case Compute(_, _) => 4
    case AwaitWrite(_, _) => 3
    case Store(_, _) => 2
    case EndStore => 1
  }

  function CallWeight(pc: Pc): nat {
    match pc
    case StartWait => 26
    case StartDecide => 25
    case StartLead(_) => 24
    case StartUpdate(_, stage) => 16 + StageWeight(stage)
    case StartUnlead(_) => 16
    case StartSpawn(_) => 15
    case StartPublish(_) => 2
    case StopWait => 3
    case StopDecide => 2
    case QueryWait => 3
    case QueryAnswer => 2
    case ReadWait => 2
    case ReadEnd => 1
    case _ => 0
  }

  /** How many steps a thread and those it will spawn still take at most, if no ticker fires. */
  function Weight(pc: Pc): nat {
    match pc
    case MainLead => 12
    case MainSpawn => 11
    case MainAwaitState => 15
    case MainReadState => 14
    case MainReconcile => 13
    case MainAwaitPrune => 12
    case MainReadPrune => 11
    case MainPrune => 10
    case MainLoop => 9
    case MainJoin => 8
    case MainAwaitClear => 7
    case MainClear => 6
    case MainAwaitExec => 5
    case MainFinish => 4
    case MainReleaseExec => 3
    case MainUnlead => 2
    case MainUnlock => 1
    case FailAwaitExec => 3
    case FailFinish => 2
    case UpdaterIdle => 1
    case Updating(stage) => 1 + StageWeight(stage)
    case ReleaseExec => 1
    case _ => CallWeight(pc)
  }

  const HEAVIEST := 26

  ghost function Total(pcs: map<Thread, Pc>): nat
    decreases pcs.Keys
  {
    if pcs.Keys == {} then 0
    else
      var t :| t in pcs.Keys;
      Weight(pcs[t]) + Total(pcs - {t})
  }

  lemma {:induction false} TotalWithout(pcs: map<Thread, Pc>, t: Thread)
    requires t in pcs
    ensures Total(pcs) == Weight(pcs[t]) + Total(pcs - {t})
    decreases pcs.Keys
  {
    var u :| u in pcs.Keys && Total(pcs) == Weight(pcs[u]) + Total(pcs - {u});
    if u != t {
      TotalWithout(pcs - {u}, t);
      TotalWithout(pcs - {t}, u);
      assert pcs - {u} - {t} == pcs - {t} - {u};
    }
  }

  lemma TotalMoves(pcs: map<Thread, Pc>, t: Thread, pc: Pc)
    ensures Total(pcs[t := pc]) == Total(pcs) - (if t in pcs then Weight(pcs[t]) else 0) + Weight(pc)
  {
    TotalWithout(pcs[t := pc], t);
    if t in pcs {
      TotalWithout(pcs, t);
      assert pcs[t := pc] - {t} == pcs - {t};
    } else {
      assert pcs[t := pc] - {t} == pcs;
    }
  }

  function ChildWeight(effect: Effect): nat {
    if effect.Spawn? then Weight(effect.pc) else 0
  }

  /** A step makes the thread lighter, by more than the weight of what it spawns. */
  predicate Lightens(was: Pc, move: Move) {
    Weight(move.pc) + ChildWeight(move.effect) < Weight(was)
  }

  lemma UpdateLightens(w: World, t: Thread, was: Pc, failing: bool)
    requires UpdatingAt(was)
    ensures Lightens(was, UpdatePlan(w, t, was, failing))
  {
    match was.stage
    case AwaitRead => AtWeighs(was, ReadState);
    case ReadState => AtWeighs(was, Gather(w.version));
    case Gather(snapshot) => AtWeighs(was, Compute(snapshot, w.version));
    case Compute(snapshot, reread) => AtWeighs(was, AwaitWrite(snapshot, reread));
    case AwaitWrite(snapshot, reread) => AtWeighs(was, Store(snapshot, reread));
    case Store(_, _) => AtWeighs(was, EndStore);
    case EndStore => AtWeighs(was, EndStore);
  }

  lemma AtWeighs(was: Pc, stage: Stage)
    requires UpdatingAt(was)
    ensures Weight(At(was, stage)) == Weight(was) - StageWeight(was.stage) + StageWeight(stage)
    ensures Weight(AfterUpdate(was)) == Weight(was) - StageWeight(was.stage)
    ensures StageWeight(was.stage) > 0
  {
  }

  lemma CallLightens(w: World, t: Thread, was: Pc, other: bool)
    requires t.Caller? && CallPlan(w, t, was, other).Some?
    ensures Lightens(was, CallPlan(w, t, was, other).value)
  {
    if UpdatingAt(was) {
      UpdateLightens(w, t, was, other);
    } else if StartPlan(w, t, was, other).Some? {
      StartLightens(w, t, was, other);
    }
  }

  lemma StartLightens(w: World, t: Thread, was: Pc, other: bool)
    requires !UpdatingAt(was) && StartPlan(w, t, was, other).Some?
    ensures CallPlan(w, t, was, other) == StartPlan(w, t, was, other) && Lightens(was, StartPlan(w, t, was, other).value)
  {
  }

  lemma CleanupLightens(w: World, e: nat, was: Pc)
    requires CleanupPlan(w, e, was).Some?
    ensures Lightens(was, CleanupPlan(w, e, was).value)
  {
  }

  lemma LoopLightens(w: World, e: nat, was: Pc, other: bool)
    requires CleanupPlan(w, e, was).None? && MainPlan(w, e, was, other).Some?
    ensures Lightens(was, MainPlan(w, e, was, other).value)
  {
    if was.MainAwaitState? || was.MainReadState? || was.MainReconcile? || was.MainAwaitPrune? || was.MainReadPrune? || was.MainPrune? {
      RoundLightens(w, e, was, other);
    }
  }

  lemma RoundLightens(w: World, e: nat, was: Pc, other: bool)
    requires was.MainAwaitState? || was.MainReadState? || was.MainReconcile? || was.MainAwaitPrune? || was.MainReadPrune? || was.MainPrune?
    ensures MainPlan(w, e, was, other).Some? && Lightens(was, MainPlan(w, e, was, other).value)
  {
  }

  lemma MainLightens(w: World, e: nat, was: Pc, other: bool)
    requires MainPlan(w, e, was, other).Some?
    ensures Lightens(was, MainPlan(w, e, was, other).value)
  {
    if CleanupPlan(w, e, was).Some? {
      CleanupLightens(w, e, was);
    } else {
      LoopLightens(w, e, was, other);
    }
  }

  lemma StepLightens(w: World, t: Thread, was: Pc, other: bool)
    requires Plan(w, t, was, other).Some?
    ensures Lightens(was, Plan(w, t, was, other).value)
  {
    match t
    case Caller(_) => CallLightens(w, t, was, other);
    case Main(e) => MainLightens(w, e, was, other);
    case Updater(_) => if UpdatingAt(was) { UpdateLightens(w, t, was, other); }
  }

  lemma MoveWeighs(w: World, t: Thread, move: Move)
    requires Proper(w, t, move)
    ensures Total(Moved(w, t, move).pcs) ==
            Total(w.pcs) - (if t in w.pcs then Weight(w.pcs[t]) else 0) + Weight(move.pc) + ChildWeight(move.effect)
  {
    MovedThreads(w, t, move);
    TotalMoves(w.pcs, t, move.pc);
    if move.effect.Spawn? {
      TotalMoves(w.pcs[t := move.pc], move.effect.child, move.effect.pc);
    }
  }

  /** Every step of a thread brings the total down, spawned threads included. */
  lemma StepsCost(w: World, t: Thread, other: bool, w': World)
    requires Invariant(w) && Next(w, Run(t, other)) == Some(w')
    ensures Total(w'.pcs) < Total(w.pcs)
  {
    MovesAreProper(w, Run(t, other));
    StepLightens(w, t, w.pcs[t], other);
    MoveWeighs(w, t, Plan(w, t, w.pcs[t], other).value);
  }

  lemma AtMostHeaviest(pc: Pc)
    ensures Weight(pc) <= HEAVIEST
  {
  }

  lemma QuietAdds(w: World, t: Thread, pc: Pc)
    ensures Total(Moved(w, t, Move(pc, Quiet)).pcs) <= Total(w.pcs) + HEAVIEST
  {
    TotalMoves(w.pcs, t, pc);
    AtMostHeaviest(pc);
  }

  /** A call, a tick or a cancellation adds no more than the longest call takes. */
  lemma OthersAdd(w: World, action: Action, w': World)
    requires Next(w, action) == Some(w') && !action.Run?
    ensures Total(w'.pcs) <= Total(w.pcs) + HEAVIEST
  {
    if action.Arrive? {
      QuietAdds(w, Caller(action.n), Entry(action.request));
    } else if action.Fire? {
      QuietAdds(w, action.t, TickPlan(w.pcs[action.t], action.tick).value.pc);
    }
  }

  function CountRuns(actions: seq<Action>): nat {
    if actions == [] then 0 else CountRuns(actions[..|actions| - 1]) + if actions[|actions| - 1].Run? then 1 else 0
  }

  /** The steps of a run are bounded by what was under way at its start and by what was asked for
      since: nothing runs on by itself. */
  lemma {:induction false} RunsAreBounded(from: World, actions: seq<Action>, worlds: seq<World>)
    requires Sound(from) && Leads(from, actions, worlds)
    ensures CountRuns(actions) + Total(worlds[|actions|].pcs)
            <= Total(from.pcs) + HEAVIEST * (|actions| - CountRuns(actions))
    ensures Sound(worlds[|actions|])
    decreases |actions|
  {
    if actions != [] {
      var n := |actions| - 1;
      RunsAreBounded(from, actions[..n], worlds[..n + 1]);
      var before, action, after := worlds[n], actions[n], worlds[n + 1];
      StepIsSound(before, action, after);
      if action.Run? {
        StepsCost(before, action.t, action.other, after);
      } else {
        OthersAdd(before, action, after);
      }
    }
  }

  ghost predicate Still(w: World) {
    forall t :: !CanGo(w, t)
  }

  /** When nobody can go on, every call has returned, and every execution has ended, its channel
      closed, except that the latest one may be published and running, with leaderLock, until it is cancelled. */
  lemma StillIsSettled(w: World, t: Thread)
    requires Sound(w) && Still(w) && t in w.pcs
    ensures t.Caller? ==> w.pcs[t].Gone?
    ensures t.Main? && Cancelled(w, t.e) ==> w.pcs[t].Gone? && w.execs[t.e].status == NotRunning && w.execs[t.e].closes == 1
    ensures t.Main? && !Cancelled(w, t.e) ==>
              && w.pcs[t].MainLoop? && w.leader == Some(t) && w.current == Some(t.e) && t.e == |w.execs| - 1
              && w.execs[t.e].status == Running
    ensures w.exec.None?
  {
    BusyGoesOn(w, t);
    assert Fits(t, w.pcs[t]) && Held(w, t);
    if w.exec.Some? {
      BusyGoesOn(w, w.exec.value);
    }
    if t.Main? {
      assert Record(w, t.e);
    }
  }

  lemma BusyGoesOn(w: World, t: Thread)
    requires Invariant(w) && Still(w) && t in w.pcs
    ensures Idle(w, t)
  {
    if !Idle(w, t) {
      var path := WaitingEnds(w, t);
    }
  }

  lemma LeadsOn(w: World, action: Action, next: World, more: seq<Action>, rest: seq<World>)
    returns (actions: seq<Action>, worlds: seq<World>)
    requires Next(w, action) == Some(next) && Leads(next, more, rest)
    ensures actions == [action] + more && Leads(w, actions, worlds) && worlds[|actions|] == rest[|more|]
  {
    actions, worlds := [action] + more, [w] + rest;
    forall i | 0 <= i < |actions| ensures Next(worlds[i], actions[i]) == Some(worlds[i + 1]) {
      assert i > 0 ==> worlds[i] == rest[i - 1] && actions[i] == more[i - 1];
    }
  }

  lemma GoOn(w: World, t: Thread) returns (action: Action, next: World)
    requires Sound(w) && CanGo(w, t)
    ensures action.Run? && Next(w, action) == Some(next) && Sound(next) && Total(next.pcs) < Total(w.pcs)
  {
    var other := Next(w, Run(t, false)).None?;
    action := Run(t, other);
    next := Next(w, action).value;
    StepIsSound(w, action, next);
    StepsCost(w, t, other, next);
  }

  /** Whatever is under way can be brought to an end by nothing but its own steps. */
  lemma {:induction false} Settle(w: World) returns (actions: seq<Action>, worlds: seq<World>)
    requires Sound(w)
    ensures Leads(w, actions, worlds) && Sound(worlds[|actions|]) && Still(worlds[|actions|])
    ensures forall i :: 0 <= i < |actions| ==> actions[i].Run?
    decreases Total(w.pcs)
  {
    actions, worlds := [], [w];
    if t :| CanGo(w, t) {
      var action, next := GoOn(w, t);
      var more, rest := Settle(next);
      actions, worlds := LeadsOn(w, action, next, more, rest);
    }
  }
}
