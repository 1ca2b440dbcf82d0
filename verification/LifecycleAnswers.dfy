/** What callers may conclude: when an answer that nothing runs can be trusted, and what a Start that
    has returned leaves behind. */
module LifecycleAnswers {
  import opened Types
  import opened Lifecycle
  import opened LifecycleInvariant
  import opened LifecycleTrace
  import opened LifecycleProgress
  import opened LifecycleWitness

  // "Not running."

  /** All that is left of any execution is to give its locks back. */
  ghost predicate OnlyReleasesLeft(w: World) {
    forall t :: t in w.pcs && !t.Caller? ==> Finished(w.pcs[t])
  }

  /** Every execution was started after the done channel of the one before it was closed. A Start has
      execLock until it publishes, so the channel was closed when the Start began, too. */
  ghost predicate StartedInTurn(log: seq<Event>) {
    forall j, e: nat :: 0 <= j < |log| && log[j] == Published(e + 1) ==> DoneClosed(e) in log[..j]
  }

  /** The published execution is not running, and no Start is replacing it. */
  ghost predicate AnswersNotRunning(w: World) {
    CurrentStatus(w) == NotRunning && !Starting(w)
  }

  lemma ReleasesIff(w: World)
    requires Sound(w)
    ensures OnlyReleasesLeft(w) <==> forall e: nat :: Main(e) in w.pcs ==> DoneClosed(e) in w.log
  {
    if forall e: nat :: Main(e) in w.pcs ==> DoneClosed(e) in w.log {
      forall t | t in w.pcs && !t.Caller? ensures Finished(w.pcs[t]) {
        var e := t.e;
        assert Child(w, e) && Fits(t, w.pcs[t]);
        assert DoneClosed(e) in w.log <==> Ended(w, e);
      }
    } else {
      var e: nat :| Main(e) in w.pcs && DoneClosed(e) !in w.log;
      assert !Ended(w, e);
    }
  }

  /** What "not running" says of the latest execution: its channel is closed. */
  lemma LatestIsDone(w: World)
    requires Sound(w) && AnswersNotRunning(w)
    ensures forall e: nat :: Main(e) in w.pcs <==> e < |w.execs|
    ensures w.execs != [] ==> Ended(w, |w.execs| - 1) && DoneClosed(|w.execs| - 1) in w.log
  {
    assert forall e: nat :: Main(e) in w.pcs ==> e < |w.execs|;
    if w.execs != [] {
      var e := |w.execs| - 1;
      assert Record(w, e);
      assert DoneClosed(e) in w.log <==> Ended(w, e);
    }
  }

  /** An answer that nothing runs is true, but for releases of locks, if and only if the channels of
      all earlier executions are closed. */
  lemma NotRunningIsTrueIff(w: World)
    requires Reachable(w) && AnswersNotRunning(w)
    ensures OnlyReleasesLeft(w) <==> forall e: nat :: e + 1 < |w.execs| ==> DoneClosed(e) in w.log
  {
    ReachableIsSound(w);
    ReleasesIff(w);
    LatestIsDone(w);
  }

  /** So a caller that starts each execution after the one before it is done can trust the answer. */
  lemma InTurnIsTrusted(w: World)
    requires Reachable(w) && AnswersNotRunning(w) && StartedInTurn(w.log)
    ensures OnlyReleasesLeft(w)
  {
    NotRunningIsTrueIff(w);
    ReachableIsSound(w);
    forall e: nat | e + 1 < |w.execs| ensures DoneClosed(e) in w.log {
      assert IsPublished(w, e + 1);
      InTurnIsDone(w.log, e);
    }
  }

  lemma InTurnIsDone(log: seq<Event>, e: nat)
    requires StartedInTurn(log) && Published(e + 1) in log
    ensures DoneClosed(e) in log
  {
    var j :| 0 <= j < |log| && log[j] == Published(e + 1);
    assert DoneClosed(e) in log[..j];
  }

  lemma HolderIsMain(w: World)
    requires Invariant(w) && !Starting(w) && w.leader.Some?
    ensures w.leader.value.Main? && w.leader.value in w.pcs && HoldsLeader(w.pcs[w.leader.value])
  {
    var t := w.leader.value;
    assert Held(w, t) && Fits(t, w.pcs[t]);
  }

  /** leaderLock, when nothing is said to run: it belongs to an execution. That execution still needs
      execLock exactly when its channel is open, and then it is not the latest; the latest has
      nothing left to do but to give locks back. */
  lemma LeaderWhenNotRunning(w: World)
    requires Reachable(w) && AnswersNotRunning(w) && w.leader.Some?
    ensures w.leader.value.Main? && w.leader.value in w.pcs
    ensures var t := w.leader.value;
            && (!Finished(w.pcs[t]) <==> DoneClosed(t.e) !in w.log)
            && (!Finished(w.pcs[t]) ==> t.e + 1 < |w.execs|)
            && (Finished(w.pcs[t]) ==> w.pcs[t].MainReleaseExec? || w.pcs[t].MainUnlead?)
  {
    ReachableIsSound(w);
    LatestIsDone(w);
    HolderIsMain(w);
    HolderEnded(w, w.leader.value.e);
  }

  lemma HolderEnded(w: World, e: nat)
    requires Sound(w) && Main(e) in w.pcs && HoldsLeader(w.pcs[Main(e)]) && (e + 1 == |w.execs| ==> Ended(w, e))
    ensures !Finished(w.pcs[Main(e)]) <==> DoneClosed(e) !in w.log
    ensures !Finished(w.pcs[Main(e)]) ==> e + 1 < |w.execs|
    ensures Finished(w.pcs[Main(e)]) ==> w.pcs[Main(e)].MainReleaseExec? || w.pcs[Main(e)].MainUnlead?
  {
    EndedIsLogged(w, e);
  }

  /** The expectation stated in Start: on finding nothing running it gains leaderLock at once. It may
      have to wait for a thread with work to do exactly when an earlier execution whose channel is
      open holds the lock; a caller that starts executions in turn waits for one release at most. */
  lemma StartFindsTheLock(w: World, t: Thread)
    requires Reachable(w) && t in w.pcs && w.pcs[t].StartDecide? && CurrentStatus(w) == NotRunning
    ensures w.leader.None? || (w.leader.value in w.pcs && w.pcs[w.leader.value].MainUnlead?)
            <==> !exists e: nat :: w.leader == Some(Main(e)) && DoneClosed(e) !in w.log
    ensures forall e: nat :: w.leader == Some(Main(e)) && DoneClosed(e) !in w.log ==> e + 1 < |w.execs|
    ensures StartedInTurn(w.log) ==> w.leader.None? || (w.leader.value in w.pcs && w.pcs[w.leader.value].MainUnlead?)
  {
    ReachableIsSound(w);
    assert Held(w, t);
    if w.leader.Some? {
      var u := w.leader.value;
      LeaderWhenNotRunning(w);
      assert Held(w, u);
      if StartedInTurn(w.log) {
        InTurnIsTrusted(w);
      }
    }
  }

  // A Start that has returned.

  /** The call may still change which execution is published, or stop it. */
  predicate Changing(pc: Pc) {
    pc.StartWait? || pc.StartDecide? || MidStart(pc) || pc.StopWait? || pc.StopDecide?
  }

  ghost predicate NobodyChanges(w: World) {
    forall t :: t in w.pcs ==> !Changing(w.pcs[t])
  }

  /** The same executions, with the same contexts cancelled and the same one published. */
  ghost predicate SameExecutions(w: World, w': World) {
    && |w'.execs| == |w.execs| && w'.current == w.current
    && forall e: nat :: Cancelled(w', e) <==> Cancelled(w, e)
  }

  predicate KeepsExecutions(move: Move) {
    !Changing(move.pc) && !move.effect.Append? && !move.effect.Publish? && !move.effect.StopCurrent?
  }

  lemma CallStays(w: World, t: Thread, was: Pc, other: bool)
    requires t.Caller? && !Changing(was) && CallPlan(w, t, was, other).Some?
    ensures KeepsExecutions(CallPlan(w, t, was, other).value)
  {
  }

  lemma PlanStays(w: World, action: Action)
    requires Threads(w) && NobodyChanges(w) && (action.Run? || action.Fire?) && Chosen(w, action).Some?
    requires Regular(w, Mover(action), Chosen(w, action).value)
    requires Agrees(Mover(action), Before(w, Mover(action)), Chosen(w, action).value)
    ensures KeepsExecutions(Chosen(w, action).value)
  {
    var t := Mover(action);
    assert Fits(t, w.pcs[t]) && !Changing(w.pcs[t]);
    if t.Caller? && action.Run? {
      CallStays(w, t, w.pcs[t], action.other);
    }
  }

  lemma EffectKeepsExecutions(w: World, t: Thread, effect: Effect)
    requires !effect.Append? && !effect.Publish? && !effect.StopCurrent?
    ensures SameExecutions(w, Caused(w, t, effect))
  {
  }

  /** Steps of threads alone neither publish nor cancel anything, once no Start or Stop is under way. */
  lemma StepKeepsExecutions(w: World, action: Action, w': World)
    requires Sound(w) && NobodyChanges(w) && (action.Run? || action.Fire?) && Next(w, action) == Some(w')
    ensures Sound(w') && NobodyChanges(w') && SameExecutions(w, w')
  {
    StepIsSound(w, action, w');
    MovesAreProper(w, action);
    MovesAreRegular(w, action);
    PlanStays(w, action);
    MoveKeepsExecutions(w, Mover(action), Chosen(w, action).value);
  }

  lemma MoveKeepsExecutions(w: World, t: Thread, move: Move)
    requires NobodyChanges(w) && Proper(w, t, move) && KeepsExecutions(move)
    ensures NobodyChanges(Moved(w, t, move)) && SameExecutions(w, Moved(w, t, move))
  {
    EffectKeepsExecutions(Goto(w, t, move.pc), t, move.effect);
    MovedThreads(w, t, move);
  }

  lemma {:induction false} RunKeepsExecutions(w: World, actions: seq<Action>, worlds: seq<World>)
    requires Sound(w) && NobodyChanges(w) && Leads(w, actions, worlds)
    requires forall i :: 0 <= i < |actions| ==> actions[i].Run? || actions[i].Fire?
    ensures var end := worlds[|actions|]; Sound(end) && NobodyChanges(end) && SameExecutions(w, end)
    decreases |actions|
  {
    if actions != [] {
      var n := |actions| - 1;
      RunKeepsExecutions(w, actions[..n], worlds[..n + 1]);
      StepKeepsExecutions(worlds[n], actions[n], worlds[n + 1]);
    }
  }

  /** Something keeps autopilot's state and servers up to date. */
  ghost predicate SomethingRuns(w: World) {
    exists t :: t in w.pcs && t.Main? && !Finished(w.pcs[t])
  }

  /** Once no Start or Stop is under way and everything has settled, whatever ticked meanwhile, an
      execution runs if and only if the context of the published one had not been cancelled. */
  lemma RunsOnIff(w: World, actions: seq<Action>, worlds: seq<World>)
    requires Reachable(w) && NobodyChanges(w) && w.current.Some? && Leads(w, actions, worlds)
    requires forall i :: 0 <= i < |actions| ==> actions[i].Run? || actions[i].Fire?
    requires Still(worlds[|actions|])
    ensures SomethingRuns(worlds[|actions|]) <==> !Cancelled(w, w.current.value)
    ensures CurrentStatus(worlds[|actions|]) == if Cancelled(w, w.current.value) then NotRunning else Running
  {
    ReachableIsSound(w);
    RunKeepsExecutions(w, actions, worlds);
    var end := worlds[|actions|];
    var latest := Main(w.current.value);
    LatestIsThere(end);
    StillIsSettled(end, latest);
    forall t | t in end.pcs && t.Main? && !Finished(end.pcs[t]) ensures t == latest {
      StillIsSettled(end, t);
    }
  }

  lemma LatestIsThere(w: World)
    requires Invariant(w) && NobodyChanges(w)
    ensures w.current == Latest(|w.execs|)
    ensures w.current.Some? ==> Main(w.current.value) in w.pcs
  {
    assert !Starting(w);
  }

  /** A call of Start takes its last step but the release of execLock. */
  ghost predicate Returning(w: World, t: Thread, other: bool, w': World) {
    && t in w.pcs && t.Caller? && (w.pcs[t].StartDecide? || MidStart(w.pcs[t]))
    && Next(w, Run(t, other)) == Some(w') && w'.pcs[t].ReleaseExec?
  }

  /** It has published an execution of its own, or found one that says it is running. */
  lemma Returns(w: World, t: Thread, other: bool, w': World)
    requires Returning(w, t, other, w')
    ensures w'.current.Some? && w'.execs == w.execs && w'.pcs == w.pcs[t := ReleaseExec]
    ensures if MidStart(w.pcs[t]) then w'.current == Some(w.pcs[t].e)
            else w'.current == w.current && w.execs[w.current.value].status == Running
  {
    ReturningMove(w, t, w.pcs[t], other);
  }

  lemma ReturningMove(w: World, t: Thread, was: Pc, other: bool)
    requires (was.StartDecide? || MidStart(was)) && StartPlan(w, t, was, other).Some? && StartPlan(w, t, was, other).value.pc.ReleaseExec?
    ensures StartPlan(w, t, was, other).value.effect == if was.StartPublish? then Publish(was.e) else Quiet
    ensures was.StartPublish? || (was.StartDecide? && CurrentStatus(w) == Running)
  {
  }

  /** A Start that returns with no other Start or Stop under way has an execution running, once
      everything has settled, if and only if the context of the one it has published, or found, was
      not cancelled yet. When it found one that need not be so: a cancelled execution says it is
      running until it finishes, and the call is lost. */
  lemma StartIsHonouredIff(w: World, t: Thread, other: bool, w': World, actions: seq<Action>, worlds: seq<World>)
    requires Reachable(w) && Returning(w, t, other, w')
    requires NobodyChanges(w') && Leads(w', actions, worlds) && Still(worlds[|actions|])
    requires forall i :: 0 <= i < |actions| ==> actions[i].Run? || actions[i].Fire?
    ensures !MidStart(w.pcs[t]) ==> w.current.Some? && w.current.value < |w.execs| && w.execs[w.current.value].status == Running
    ensures var e := if MidStart(w.pcs[t]) then w.pcs[t].e else w.current.value;
            SomethingRuns(worlds[|actions|]) <==> !Cancelled(w, e)
  {
    ReachesNext(w, Run(t, other), w');
    Returns(w, t, other, w');
    RunsOnIff(w', actions, worlds);
  }

  /** The context of the first execution is cancelled; before it notices, Start finds it running. */
  lemma StartFindsCancelled() returns (w: World, w': World)
    ensures Reachable(w) && Returning(w, Caller(1), false, w') && w.pcs[Caller(1)].StartDecide?
    ensures w.current == Some(0) && Cancelled(w, 0)
    ensures forall t :: t in w.pcs && t != Caller(1) ==> !Changing(w.pcs[t])
  {
    var w0 := FirstRuns();
    var w1 := w0.(execs := w0.execs[0 := w0.execs[0].(cancelled := true)]);
    ReachesNext(w0, Cancel(0), w1);
    w := CallsWithLock(w1, 1, Start, StartDecide);
    w' := FindsRunning(w, Caller(1));
  }

  lemma FindsRunning(w: World, t: Thread) returns (w': World)
    requires t in w.pcs && t.Caller? && w.pcs[t].StartDecide? && CurrentStatus(w) == Running
    ensures Returning(w, t, false, w')
  {
    w' := Next(w, Run(t, false)).value;
  }

  /** That call is lost: nothing runs when all is done. */
  lemma StartCanBeLost() returns (w: World, w': World, actions: seq<Action>, worlds: seq<World>)
    ensures Reachable(w) && Returning(w, Caller(1), false, w') && w.pcs[Caller(1)].StartDecide?
    ensures Leads(w', actions, worlds) && forall i :: 0 <= i < |actions| ==> actions[i].Run?
    ensures Still(worlds[|actions|]) && !SomethingRuns(worlds[|actions|])
  {
    w, w' := StartFindsCancelled();
    ReachesNext(w, Run(Caller(1), false), w');
    ReachableIsSound(w');
    actions, worlds := Settle(w');
    Returns(w, Caller(1), false, w');
    assert NobodyChanges(w');
    StartIsHonouredIff(w, Caller(1), false, w', actions, worlds);
  }
}
