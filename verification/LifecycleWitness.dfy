/** A run in which only the time limit on Start's leaderLock keeps three goroutines from deadlock. */
module LifecycleWitness {
  import opened Types
  import opened Lifecycle
  import opened LifecycleInvariant
  import opened LifecycleProgress

  const STOPPED := NEW_EXEC.(status := ShuttingDown, cancelled := true)
  const FINISHED := Exec(NotRunning, false, false, 1, true)

  /** The world but for its version and its log. */
  ghost predicate Looks(w: World, pcs: map<Thread, Pc>, exec: Option<Thread>, leader: Option<Thread>, writer: Option<Thread>,
                        execs: seq<Exec>, current: Option<nat>) {
    && w.pcs == pcs && w.exec == exec && w.leader == leader && w.writer == writer && w.readers == {}
    && w.execs == execs && w.current == current
  }

  lemma Calls(w: World, n: nat, request: Request) returns (w': World)
    requires Reachable(w)
    ensures Reachable(w')
    ensures Caller(n) !in w.pcs && w.readers == {} ==>
              Looks(w', w.pcs[Caller(n) := Entry(request)], w.exec, w.leader, w.writer, w.execs, w.current)
  {
    w' := w;
    if Caller(n) !in w.pcs {
      w' := Moved(w, Caller(n), Move(Entry(request), Quiet));
      ReachesNext(w, Arrive(n, request), w');
    }
  }

  ghost predicate Allows(w: World, t: Thread, other: bool, pc: Pc, effect: Effect) {
    && t in w.pcs && Plan(w, t, w.pcs[t], other) == Some(Move(pc, effect)) && Enabled(w, effect)
    && w.readers == {} && !effect.TakeRead? && !effect.GiveRead?
  }

  function ExecsAfter(w: World, effect: Effect): seq<Exec> {
    match effect
    case Append => w.execs + [NEW_EXEC]
    case StopCurrent => Stopped(w).execs
    case Finish(e) => FinishedBy(w, e).execs
    case _ => w.execs
  }

  /** One step, if the world allows it, and how the world looks after it. */
  lemma Steps(w: World, t: Thread, other: bool, pc: Pc, effect: Effect) returns (w': World)
    requires Reachable(w)
    ensures Reachable(w')
    ensures Allows(w, t, other, pc, effect) ==>
              Looks(w', if effect.Spawn? then w.pcs[t := pc][effect.child := effect.pc] else w.pcs[t := pc],
                    Passed(w.exec, t, effect.TakeExec?, effect.GiveExec?),
                    Passed(w.leader, t, effect.TakeLeader?, effect.GiveLeader?),
                    Passed(w.writer, t, effect.TakeState?, effect.GiveState?),
                    ExecsAfter(w, effect),
                    if effect.Publish? then Some(effect.e) else w.current)
  {
    w' := w;
    if Allows(w, t, other, pc, effect) {
      w' := Moved(w, t, Move(pc, effect));
      ReachesNext(w, Run(t, other), w');
      if effect.Spawn? {
        assert w' == Goto(Goto(w, t, pc), effect.child, effect.pc);
      } else {
        EffectLooks(Goto(w, t, pc), t, effect);
        ExecsDespiteMove(w, t, pc, effect);
      }
    }
  }

  lemma ExecsDespiteMove(w: World, t: Thread, pc: Pc, effect: Effect)
    ensures ExecsAfter(Goto(w, t, pc), effect) == ExecsAfter(w, effect)
  {
  }

  lemma EffectLooks(w: World, t: Thread, effect: Effect)
    requires w.readers == {} && !effect.Spawn? && !effect.TakeRead? && !effect.GiveRead?
    ensures Looks(Caused(w, t, effect), w.pcs,
                  Passed(w.exec, t, effect.TakeExec?, effect.GiveExec?),
                  Passed(w.leader, t, effect.TakeLeader?, effect.GiveLeader?),
                  Passed(w.writer, t, effect.TakeState?, effect.GiveState?),
                  ExecsAfter(w, effect),
                  if effect.Publish? then Some(effect.e) else w.current)
  {
    EffectOnLocks(w, t, effect);
    EffectOnExecs(w, t, effect);
  }

  lemma CallsWithLock(w0: World, n: nat, request: Request, pc: Pc) returns (w: World)
    requires Reachable(w0) && w0.exec.None? && w0.readers == {} && Caller(n) !in w0.pcs
    requires (request.Start? && pc.StartDecide?) || (request.Stop? && pc.StopDecide?)
    ensures Reachable(w)
    ensures Looks(w, w0.pcs[Caller(n) := pc], Some(Caller(n)), w0.leader, w0.writer, w0.execs, w0.current)
  {
    w := Calls(w0, n, request);
    w := Steps(w, Caller(n), false, pc, TakeExec);
  }

  /** A thread gives execLock back, the last thing it does. */
  lemma Leaves(w0: World, t: Thread, pcs: map<Thread, Pc>) returns (w: World)
    requires Reachable(w0) && w0.readers == {} && w0.exec == Some(t) && !t.Updater? && w0.pcs == pcs[t := ReleaseExec]
    ensures Reachable(w)
    ensures Looks(w, pcs[t := Gone], None, w0.leader, w0.writer, w0.execs, w0.current)
  {
    w := Steps(w0, t, false, Gone, GiveExec);
    assert pcs[t := ReleaseExec][t := Gone] == pcs[t := Gone];
  }

  /** A whole call of Stop, with nobody intervening. */
  lemma StopsCurrent(w0: World, n: nat) returns (w: World)
    requires Reachable(w0) && w0.exec.None? && w0.readers == {} && Caller(n) !in w0.pcs && CurrentStatus(w0) != NotRunning
    ensures Reachable(w)
    ensures Looks(w, w0.pcs[Caller(n) := Gone], None, w0.leader, w0.writer, Stopped(w0).execs, w0.current)
  {
    w := CallsWithLock(w0, n, Stop, StopDecide);
    w := Steps(w, Caller(n), false, ReleaseExec, StopCurrent);
    w := Leaves(w, Caller(n), w0.pcs);
  }

  /** The first half of a call of Start that finds nothing running: a new execution. */
  lemma StartDecides(w0: World, n: nat) returns (w: World)
    requires Reachable(w0) && w0.exec.None? && w0.readers == {} && Caller(n) !in w0.pcs && CurrentStatus(w0) != Running
    ensures Reachable(w)
    ensures var e := |w0.execs|;
            Looks(w, w0.pcs[Caller(n) := if CurrentStatus(w0) == NotRunning then StartLead(e) else StartSpawn(e)],
                  Some(Caller(n)), w0.leader, w0.writer, w0.execs + [NEW_EXEC], w0.current)
  {
    var e := |w0.execs|;
    w := CallsWithLock(w0, n, Start, StartDecide);
    w := Steps(w, Caller(n), false, if CurrentStatus(w0) == NotRunning then StartLead(e) else StartSpawn(e), Append);
  }

  /** The second half: the execution is spawned and published. */
  lemma StartPublishes(w0: World, n: nat, e: nat) returns (w: World)
    requires Reachable(w0) && w0.readers == {} && w0.exec == Some(Caller(n))
    requires Caller(n) in w0.pcs && w0.pcs[Caller(n)] == StartSpawn(e)
    ensures Reachable(w)
    ensures Looks(w, w0.pcs[Caller(n) := Gone][Main(e) := MainLead], None, w0.leader, w0.writer, w0.execs, Some(e))
  {
    w := Steps(w0, Caller(n), false, StartPublish(e), Spawn(Main(e), MainLead));
    w := Steps(w, Caller(n), false, ReleaseExec, Publish(e));
    w := Leaves(w, Caller(n), w0.pcs[Main(e) := MainLead]);
  }

  lemma Joins(w0: World, e: nat) returns (w: World)
    requires Reachable(w0) && w0.readers == {} && Cancelled(w0, e)
    requires Main(e) in w0.pcs && w0.pcs[Main(e)].MainLoop? && Updater(e) in w0.pcs && w0.pcs[Updater(e)].UpdaterIdle?
    ensures Reachable(w)
    ensures Looks(w, w0.pcs[Main(e) := MainAwaitClear][Updater(e) := Gone], w0.exec, w0.leader, w0.writer, w0.execs, w0.current)
  {
    w := LeavesLoop(w0, e);
    w := Steps(w, Main(e), false, MainAwaitClear, Quiet);
    assert w0.pcs[Main(e) := MainJoin][Updater(e) := Gone][Main(e) := MainAwaitClear] == w0.pcs[Main(e) := MainAwaitClear][Updater(e) := Gone];
  }

  lemma LeavesLoop(w0: World, e: nat) returns (w: World)
    requires Reachable(w0) && w0.readers == {} && Cancelled(w0, e)
    requires Main(e) in w0.pcs && w0.pcs[Main(e)].MainLoop? && Updater(e) in w0.pcs && w0.pcs[Updater(e)].UpdaterIdle?
    ensures Reachable(w)
    ensures Looks(w, w0.pcs[Main(e) := MainJoin][Updater(e) := Gone], w0.exec, w0.leader, w0.writer, w0.execs, w0.current)
  {
    w := Steps(w0, Main(e), false, MainJoin, Quiet);
    w := Steps(w, Updater(e), false, Gone, Quiet);
  }

  /** A cancelled execution cleans up until it needs execLock. */
  lemma CleansUp(w0: World, e: nat) returns (w: World)
    requires Reachable(w0) && w0.readers == {} && w0.writer.None? && Cancelled(w0, e)
    requires Main(e) in w0.pcs && w0.pcs[Main(e)].MainLoop? && Updater(e) in w0.pcs && w0.pcs[Updater(e)].UpdaterIdle?
    ensures Reachable(w)
    ensures Looks(w, w0.pcs[Main(e) := MainAwaitExec][Updater(e) := Gone], w0.exec, w0.leader, Some(Main(e)), w0.execs, w0.current)
  {
    w := Joins(w0, e);
    w := Steps(w, Main(e), false, MainClear, TakeState);
    w := Steps(w, Main(e), false, MainAwaitExec, Assign(Cleared(e)));
  }

  lemma GivesUpLead(w0: World, e: nat) returns (w: World)
    requires Reachable(w0) && w0.readers == {} && w0.exec.None? && Cancelled(w0, e)
    requires Main(e) in w0.pcs && w0.pcs[Main(e)].MainLead?
    ensures Reachable(w)
    ensures Looks(w, w0.pcs[Main(e) := FailFinish], Some(Main(e)), w0.leader, w0.writer, w0.execs, w0.current)
  {
    w := Steps(w0, Main(e), true, FailAwaitExec, Quiet);
    w := Steps(w, Main(e), false, FailFinish, TakeExec);
  }

  /** A cancelled execution gives up on leaderLock and finishes. */
  lemma GivesUp(w0: World, e: nat) returns (w: World)
    requires Reachable(w0) && w0.readers == {} && w0.exec.None? && Cancelled(w0, e)
    requires Main(e) in w0.pcs && w0.pcs[Main(e)].MainLead?
    ensures Reachable(w)
    ensures Looks(w, w0.pcs[Main(e) := Gone], None, w0.leader, w0.writer, FinishedBy(w0, e).execs, w0.current)
  {
    w := GivesUpLead(w0, e);
    w := Steps(w, Main(e), false, ReleaseExec, Finish(e));
    w := Leaves(w, Main(e), w0.pcs);
  }

  lemma EntersLoop(w0: World, e: nat) returns (w: World)
    requires Reachable(w0) && w0.readers == {} && w0.leader.None? && Main(e) in w0.pcs && w0.pcs[Main(e)].MainLead?
    ensures Reachable(w)
    ensures Looks(w, w0.pcs[Main(e) := MainLoop][Updater(e) := UpdaterIdle], w0.exec, Some(Main(e)), w0.writer, w0.execs, w0.current)
  {
    w := Steps(w0, Main(e), false, MainSpawn, TakeLeader);
    w := Steps(w, Main(e), false, MainLoop, Spawn(Updater(e), UpdaterIdle));
  }

  /** The first execution runs. */
  lemma FirstRuns() returns (w: World)
    ensures Reachable(w)
    ensures Looks(w, map[Caller(0) := Gone, Main(0) := MainLoop, Updater(0) := UpdaterIdle],
                  None, Some(Main(0)), None, [NEW_EXEC], Some(0))
  {
    ReachesInitial();
    w := StartDecides(INITIAL, 0);
    w := Steps(w, Caller(0), true, StartSpawn(0), Quiet);
    w := StartPublishes(w, 0, 0);
    w := EntersLoop(w, 0);
  }

  /** It is stopped, and cleans up. */
  lemma FirstCleansUp() returns (w: World)
    ensures Reachable(w)
    ensures Looks(w, map[Caller(0) := Gone, Caller(1) := Gone, Main(0) := MainAwaitExec, Updater(0) := Gone],
                  None, Some(Main(0)), Some(Main(0)), [STOPPED], Some(0))
  {
    w := FirstRuns();
    w := StopsCurrent(w, 1);
    w := CleansUp(w, 0);
  }

  /** Meanwhile a second execution is started and stopped, and finishes first. IsRunning may then
      answer that autopilot is not running, with a closed channel, while the first execution still
      holds leaderLock and stateLock and has its cleanup to finish. */
  lemma NotRunningIsNoPromise() returns (w: World)
    ensures Reachable(w) && CurrentStatus(w) == NotRunning
    ensures Looks(w, map[Caller(0) := Gone, Caller(1) := Gone, Caller(2) := Gone, Caller(3) := Gone,
                         Main(0) := MainAwaitExec, Updater(0) := Gone, Main(1) := Gone],
                  None, Some(Main(0)), Some(Main(0)), [STOPPED, FINISHED], Some(1))
  {
    w := SecondStarts();
    w := StopsCurrent(w, 3);
    w := GivesUp(w, 1);
  }

  lemma SecondStarts() returns (w: World)
    ensures Reachable(w)
    ensures Looks(w, map[Caller(0) := Gone, Caller(1) := Gone, Caller(2) := Gone,
                         Main(0) := MainAwaitExec, Updater(0) := Gone, Main(1) := MainLead],
                  None, Some(Main(0)), Some(Main(0)), [STOPPED, NEW_EXEC], Some(1))
  {
    w := FirstCleansUp();
    w := StartDecides(w, 2);
    w := StartPublishes(w, 2, 1);
  }

  /** A Start that holds execLock asks for leaderLock, which a cleanup holds that waits for execLock:
      nobody but that Start can go on, and it only by giving up on leaderLock. */
  lemma OnlyTheTimeoutHelps() returns (w: World)
    ensures Reachable(w)
    ensures Caller(4) in w.pcs && w.pcs[Caller(4)].StartLead? && w.leader == Some(Main(0))
    ensures WaitsFor(w, Main(0), Caller(4))
    ensures forall t :: Next(w, Run(t, false)).None?
    ensures forall t :: Next(w, Run(t, true)).Some? ==> t == Caller(4)
  {
    w := NotRunningIsNoPromise();
    w := StartDecides(w, 4);
    forall t ensures Next(w, Run(t, false)).None? && (Next(w, Run(t, true)).Some? ==> t == Caller(4)) {
      if t == Main(0) {
        NeedsExec(w, t);
      } else if t != Caller(4) && t in w.pcs {
        NoMoreSteps(w, t);
      }
    }
  }

  lemma NoMoreSteps(w: World, t: Thread)
    requires t in w.pcs && w.pcs[t].Gone?
    ensures Next(w, Run(t, false)).None? && Next(w, Run(t, true)).None?
  {
  }

  lemma NeedsExec(w: World, t: Thread)
    requires t in w.pcs && t.Main? && w.pcs[t].MainAwaitExec? && w.exec.Some?
    ensures Next(w, Run(t, false)).None? && Next(w, Run(t, true)).None?
  {
  }
}
