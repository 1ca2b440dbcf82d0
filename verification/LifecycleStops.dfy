/** What stopping does, and what keeps going until it is done. */
module LifecycleStops {
  import opened Types
  import opened Lifecycle
  import opened LifecycleInvariant
  import opened LifecycleTrace
  import opened LifecycleProgress
  import opened LifecycleAnswers

  // Updaters do not stop by themselves.

  ghost predicate UpdatersStay(w: World) {
    forall e: nat :: Updater(e) in w.pcs && w.pcs[Updater(e)].Gone? ==> Cancelled(w, e)
  }

  lemma CancelledStays(w: World, t: Thread, effect: Effect, e: nat)
    requires Cancelled(w, e)
    ensures Cancelled(Caused(w, t, effect), e)
  {
  }

  lemma UpdaterQuits(w: World, e: nat, action: Action)
    requires !action.Cancel? && Mover(action) == Updater(e) && Chosen(w, action).Some?
    ensures Chosen(w, action).value.pc.Gone? ==> Cancelled(w, e)
  {
  }

  lemma MoveKeepsUpdaters(w: World, t: Thread, move: Move, e: nat)
    requires UpdatersStay(w) && Proper(w, t, move) && (t == Updater(e) && move.pc.Gone? ==> Cancelled(w, e))
    ensures var w' := Moved(w, t, move); Updater(e) in w'.pcs && w'.pcs[Updater(e)].Gone? ==> Cancelled(w', e)
  {
    MovedThreads(w, t, move);
    if Cancelled(w, e) {
      CancelledStays(Goto(w, t, move.pc), t, move.effect, e);
    }
  }

  lemma StepKeepsUpdaters(w: World, action: Action, w': World)
    requires Sound(w) && UpdatersStay(w) && Next(w, action) == Some(w')
    ensures UpdatersStay(w')
  {
    if !action.Cancel? {
      MovesAreProper(w, action);
      forall e: nat ensures Updater(e) in w'.pcs && w'.pcs[Updater(e)].Gone? ==> Cancelled(w', e) {
        if Mover(action) == Updater(e) {
          UpdaterQuits(w, e, action);
        }
        MoveKeepsUpdaters(w, Mover(action), Chosen(w, action).value, e);
      }
    }
  }

  lemma {:induction false} RunsKeepUpdaters(actions: seq<Action>, worlds: seq<World>, i: nat)
    requires Leads(INITIAL, actions, worlds) && i < |worlds|
    ensures UpdatersStay(worlds[i])
  {
    if i > 0 {
      RunsKeepUpdaters(actions, worlds, i - 1);
      RunsAreSound(actions, worlds, i - 1);
      assert Next(worlds[i - 1], actions[i - 1]) == Some(worlds[i]);
      StepKeepsUpdaters(worlds[i - 1], actions[i - 1], worlds[i]);
    }
  }

  lemma ReachableKeepsUpdaters(w: World)
    requires Reachable(w)
    ensures UpdatersStay(w)
  {
    var actions, worlds :| Leads(INITIAL, actions, worlds) && worlds[|actions|] == w;
    RunsKeepUpdaters(actions, worlds, |actions|);
  }

  /** When nobody can go on, an execution that is not cancelled is in both its loops. */
  lemma BothLoopsRun(w: World, e: nat)
    requires Reachable(w) && Still(w) && Main(e) in w.pcs && !Cancelled(w, e)
    ensures w.pcs[Main(e)].MainLoop? && w.leader == Some(Main(e))
    ensures Updater(e) in w.pcs && w.pcs[Updater(e)].UpdaterIdle?
  {
    ReachableIsSound(w);
    ReachableKeepsUpdaters(w);
    StillIsSettled(w, Main(e));
    assert Child(w, e);
    BusyGoesOn(w, Updater(e));
  }

  // Stop and IsRunning.

  /** The channel a call hands out is the published execution's, and open; when that execution is not
      running the call makes a closed one of its own. */
  lemma ChannelIsCurrent(w: World, t: Thread, other: bool, w': World)
    requires Reachable(w) && t in w.pcs && (w.pcs[t].StopDecide? || w.pcs[t].QueryAnswer?) && Next(w, Run(t, other)) == Some(w')
    ensures CurrentStatus(w) == NotRunning ==> w'.log == w.log
    ensures CurrentStatus(w) != NotRunning ==>
              && w.current == Some(|w.execs| - 1) && w'.log == w.log + [HandedOut(|w.execs| - 1, true)]
              && DoneClosed(|w.execs| - 1) !in w.log
  {
    ReachableIsSound(w);
    NobodyStarts(w, t);
    HandsOut(w, t, other, w');
    if CurrentStatus(w) != NotRunning {
      RecordFacts(w, w.current.value);
      EndedIsLogged(w, w.current.value);
    }
  }

  lemma NobodyStarts(w: World, t: Thread)
    requires Invariant(w) && t in w.pcs && (w.pcs[t].StopDecide? || w.pcs[t].QueryAnswer?)
    ensures !Starting(w) && t.Caller?
  {
    assert Held(w, t) && Fits(t, w.pcs[t]);
  }

  lemma HandsOut(w: World, t: Thread, other: bool, w': World)
    requires t in w.pcs && t.Caller? && (w.pcs[t].StopDecide? || w.pcs[t].QueryAnswer?) && Next(w, Run(t, other)) == Some(w')
    ensures w'.log == if CurrentStatus(w) == NotRunning then w.log
                      else w.log + [HandedOut(w.current.value, w.execs[w.current.value].hasDone)]
  {
  }

  /** Stop leaves no context uncancelled, and the published execution no longer says it is running. */
  lemma StopCancelsAll(w: World, t: Thread, other: bool, w': World)
    requires Reachable(w) && t in w.pcs && w.pcs[t].StopDecide? && Next(w, Run(t, other)) == Some(w')
    ensures |w'.execs| == |w.execs| && w'.current == w.current && w'.pcs == w.pcs[t := ReleaseExec]
    ensures forall e: nat :: e < |w'.execs| ==> Cancelled(w', e)
    ensures CurrentStatus(w') != Running
  {
    ReachableIsSound(w);
    NobodyStarts(w, t);
    Stops(w, t, other, w');
    forall e: nat | e < |w.execs| ensures Cancelled(w', e) {
      RecordFacts(w, e);
    }
  }

  lemma Stops(w: World, t: Thread, other: bool, w': World)
    requires t in w.pcs && t.Caller? && w.pcs[t].StopDecide? && Next(w, Run(t, other)) == Some(w')
    ensures w'.current == w.current && w'.pcs == w.pcs[t := ReleaseExec]
    ensures w'.execs == if CurrentStatus(w) == NotRunning then w.execs
                        else w.execs[w.current.value := w.execs[w.current.value].(status := ShuttingDown, cancelled := true)]
  {
  }

  /** So nothing runs once a Stop has returned with no other Start or Stop under way, and everything
      has settled. */
  lemma StopIsHonoured(w: World, t: Thread, other: bool, w': World, actions: seq<Action>, worlds: seq<World>)
    requires Reachable(w) && t in w.pcs && w.pcs[t].StopDecide? && Next(w, Run(t, other)) == Some(w')
    requires NobodyChanges(w') && Leads(w', actions, worlds) && Still(worlds[|actions|])
    requires forall i :: 0 <= i < |actions| ==> actions[i].Run? || actions[i].Fire?
    ensures !SomethingRuns(worlds[|actions|])
  {
    StopCancelsAll(w, t, other, w');
    ReachesNext(w, Run(t, other), w');
    AllCancelledEnd(w', actions, worlds);
  }

  lemma AllCancelledEnd(w: World, actions: seq<Action>, worlds: seq<World>)
    requires Reachable(w) && NobodyChanges(w) && Leads(w, actions, worlds) && Still(worlds[|actions|])
    requires forall i :: 0 <= i < |actions| ==> actions[i].Run? || actions[i].Fire?
    requires forall e: nat :: e < |w.execs| ==> Cancelled(w, e)
    ensures !SomethingRuns(worlds[|actions|])
  {
    ReachableIsSound(w);
    LatestIsThere(w);
    if w.current.Some? {
      RunsOnIff(w, actions, worlds);
    } else {
      RunKeepsExecutions(w, actions, worlds);
    }
  }

  // Starting.

  /** A Start that does not find an execution running makes one, whose context is not cancelled. */
  lemma StartMakesOne(w: World, t: Thread, other: bool, w': World)
    requires t in w.pcs && t.Caller? && w.pcs[t].StartDecide? && Next(w, Run(t, other)) == Some(w')
    ensures CurrentStatus(w) == Running ==> w'.execs == w.execs && w'.pcs == w.pcs[t := ReleaseExec]
    ensures CurrentStatus(w) != Running ==>
              && |w'.execs| == |w.execs| + 1 && w'.execs[..|w.execs|] == w.execs && MidStart(w'.pcs[t]) && w'.pcs[t].e == |w.execs|
              && var x := w'.execs[|w.execs|]; x.status == Running && x.hasShutdown && x.hasDone && x.closes == 0 && !x.cancelled
  {
  }

  /** A context is cancelled by whoever gave it to Start, or by a Stop. */
  lemma CancelledBy(w: World, action: Action, w': World, e: nat)
    requires Sound(w) && Next(w, action) == Some(w') && Cancelled(w', e) && !Cancelled(w, e)
    ensures action == Cancel(e)
            || (action.Run? && action.t in w.pcs && w.pcs[action.t].StopDecide? && w.current == Some(e) && w.execs[e].status != NotRunning)
  {
    if !action.Cancel? {
      StopsOnlyAtStop(w, action);
      var t, move := Mover(action), Chosen(w, action).value;
      EffectCancels(Goto(w, t, move.pc), t, move.effect, e);
    }
  }

  lemma StopsOnlyAtStop(w: World, action: Action)
    requires !action.Cancel? && Chosen(w, action).Some?
    ensures Chosen(w, action).value.effect.StopCurrent? ==> action.Run? && action.t in w.pcs && w.pcs[action.t].StopDecide?
  {
  }

  lemma EffectCancels(w: World, t: Thread, effect: Effect, e: nat)
    requires Cancelled(Caused(w, t, effect), e) && !Cancelled(w, e)
    ensures effect.StopCurrent? && w.current == Some(e) && e < |w.execs| && w.execs[e].status != NotRunning
  {
  }
}
