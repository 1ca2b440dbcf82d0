/** An execution resets a.state before it says that it is done. */
module LifecycleReset {
  import opened Types
  import opened Lifecycle
  import opened LifecycleInvariant
  import opened LifecycleTrace

  /** The last assignment of a.state was the reset of this execution. */
  ghost predicate ResetBy(log: seq<Event>, e: nat) {
    exists k :: 0 <= k < |log| && log[k] == Cleared(e) && forall i :: k < i < |log| ==> !Writes(log[i])
  }

  /** The execution took leaderLock, and started its updater. */
  predicate HasLed(w: World, e: nat) {
    Updater(e) in w.pcs
  }

  /** An execution about to finish has just reset the state, or has never led. */
  ghost predicate AboutToFinish(w: World, e: nat) {
    Main(e) in w.pcs ==>
      && (w.pcs[Main(e)].MainAwaitExec? || w.pcs[Main(e)].MainFinish? ==> ResetBy(w.log, e))
      && (Failing(w.pcs[Main(e)]) ==> !HasLed(w, e))
      && (InCleanup(w.pcs[Main(e)]) ==> HasLed(w, e))
  }

  /** Every execution that led was finished right after a reset of its own, one that did not lead has
      reset nothing. */
  ghost predicate ResetFirst(w: World) {
    && (forall j :: 0 <= j < |w.log| && w.log[j].DoneClosed? && HasLed(w, w.log[j].e) ==> ResetBy(w.log[..j], w.log[j].e))
    && (forall e: nat :: Cleared(e) in w.log ==> HasLed(w, e))
  }

  ghost predicate Resets(w: World) {
    ResetFirst(w) && forall e: nat :: AboutToFinish(w, e)
  }

  /** Executions come to their end in order: reset, execLock, finish; or giving up, execLock, finish. */
  ghost predicate KeepsEnding(w: World, t: Thread, move: Move) {
    t.Main? ==>
      var was := Before(w, t);
      && (move.pc.MainAwaitExec? ==> move.effect == Assign(Cleared(t.e)))
      && (move.pc.MainFinish? ==> was.MainAwaitExec?)
      && (Failing(move.pc) ==> was.MainLead? || Failing(was))
      && (InCleanup(move.pc) ==> InCleanup(was) || InLoop(was))
      && (move.effect.Spawn? ==> was.MainSpawn?)
  }

  lemma MainKeepsEnding(w: World, e: nat, other: bool)
    requires Main(e) in w.pcs && MainPlan(w, e, w.pcs[Main(e)], other).Some?
    ensures KeepsEnding(w, Main(e), MainPlan(w, e, w.pcs[Main(e)], other).value)
  {
  }

  lemma MovesKeepEnding(w: World, action: Action)
    requires !action.Cancel? && Chosen(w, action).Some?
    ensures KeepsEnding(w, Mover(action), Chosen(w, action).value)
  {
    if action.Run? && action.t.Main? {
      MainKeepsEnding(w, action.t.e, action.other);
    }
  }

  lemma ResetByGrows(log: seq<Event>, event: Event, e: nat)
    requires ResetBy(log, e) && !Writes(event)
    ensures ResetBy(log + [event], e)
  {
    var k :| 0 <= k < |log| && log[k] == Cleared(e) && forall i :: k < i < |log| ==> !Writes(log[i]);
    assert (log + [event])[k] == Cleared(e);
  }

  lemma ResetByReset(log: seq<Event>, e: nat)
    ensures ResetBy(log + [Cleared(e)], e)
  {
    assert (log + [Cleared(e)])[|log|] == Cleared(e);
  }

  /** Nobody assigns a.state while an execution waits to finish, so its reset remains the last. */
  lemma ResetStays(w: World, t: Thread, move: Move, e: nat)
    requires Invariant(w) && Makes(w, t, move) && t != Main(e)
    requires Main(e) in w.pcs && (w.pcs[Main(e)].MainAwaitExec? || w.pcs[Main(e)].MainFinish?) && ResetBy(w.log, e)
    ensures ResetBy(Moved(w, t, move).log, e)
  {
    MoveAdds(w, t, move);
    var log' := Moved(w, t, move).log;
    if log' != w.log {
      var event := log'[|w.log|];
      assert log' == w.log + [event] && Due(w, t, event);
      if Writes(event) {
        OneUpdate(w, t, Main(e));
      }
      ResetByGrows(w.log, event, e);
    }
  }

  lemma MainIsAboutToFinish(w: World, t: Thread, move: Move)
    requires Invariant(w) && Makes(w, t, move) && KeepsEnding(w, t, move) && t.Main? && AboutToFinish(w, t.e)
    ensures AboutToFinish(Moved(w, t, move), t.e)
  {
    MoveAdds(w, t, move);
    MovedThreads(w, t, move);
    assert Child(w, t.e);
    var log' := Moved(w, t, move).log;
    if move.pc.MainAwaitExec? {
      ResetByReset(w.log, t.e);
    } else if move.pc.MainFinish? && log' != w.log {
      ResetByGrows(w.log, log'[|w.log|], t.e);
    }
  }

  lemma OthersAreAboutToFinish(w: World, t: Thread, move: Move, e: nat)
    requires Invariant(w) && Makes(w, t, move) && KeepsEnding(w, t, move) && t != Main(e) && AboutToFinish(w, e)
    ensures AboutToFinish(Moved(w, t, move), e)
  {
    MovedThreads(w, t, move);
    if Main(e) in w.pcs && (w.pcs[Main(e)].MainAwaitExec? || w.pcs[Main(e)].MainFinish?) {
      ResetStays(w, t, move, e);
    }
  }

  /** Whether an execution has led does not change once it has finished. */
  lemma LedBefore(w: World, t: Thread, move: Move, e: nat)
    requires Invariant(w) && Trace(w) && Makes(w, t, move) && KeepsEnding(w, t, move)
    ensures HasLed(w, e) ==> HasLed(Moved(w, t, move), e)
    ensures HasLed(Moved(w, t, move), e) && !HasLed(w, e) ==> t == Main(e) && DoneClosed(e) !in w.log && !move.effect.Finish?
  {
    MovedThreads(w, t, move);
    EndedIsLogged(w, e);
  }

  lemma KeepsResetFirst(w: World, t: Thread, move: Move)
    requires Invariant(w) && Trace(w) && Resets(w) && Makes(w, t, move) && KeepsEnding(w, t, move)
    ensures ResetFirst(Moved(w, t, move))
  {
    var w' := Moved(w, t, move);
    forall j | 0 <= j < |w'.log| && w'.log[j].DoneClosed? && HasLed(w', w'.log[j].e) ensures ResetBy(w'.log[..j], w'.log[j].e) {
      FinishedAfterReset(w, t, move, j);
    }
    forall e: nat | Cleared(e) in w'.log ensures HasLed(w', e) {
      ResettersHaveLed(w, t, move, e);
    }
  }

  lemma ResettersHaveLed(w: World, t: Thread, move: Move, e: nat)
    requires Invariant(w) && Trace(w) && Resets(w) && Makes(w, t, move) && KeepsEnding(w, t, move)
    requires Cleared(e) in Moved(w, t, move).log
    ensures HasLed(Moved(w, t, move), e)
  {
    MoveAdds(w, t, move);
    LedBefore(w, t, move, e);
    assert AboutToFinish(w, e);
  }

  lemma FinishedAfterReset(w: World, t: Thread, move: Move, j: nat)
    requires Invariant(w) && Trace(w) && Resets(w) && Makes(w, t, move) && KeepsEnding(w, t, move)
    requires j < |Moved(w, t, move).log| && Moved(w, t, move).log[j].DoneClosed? && HasLed(Moved(w, t, move), Moved(w, t, move).log[j].e)
    ensures ResetBy(Moved(w, t, move).log[..j], Moved(w, t, move).log[j].e)
  {
    MoveAdds(w, t, move);
    var w' := Moved(w, t, move);
    var e := w'.log[j].e;
    if j < |w.log| {
      assert w'.log[..j] == w.log[..j] && DoneClosed(e) in w.log;
      LedBefore(w, t, move, e);
    } else {
      assert w'.log == w.log + [DoneClosed(e)] && w'.log[..j] == w.log;
      assert AboutToFinish(w, e);
      NewlyFinished(w, t, move, e);
    }
  }

  lemma NewlyFinished(w: World, t: Thread, move: Move, e: nat)
    requires Invariant(w) && Trace(w) && Makes(w, t, move) && KeepsEnding(w, t, move) && AboutToFinish(w, e)
    requires Moved(w, t, move).log == w.log + [DoneClosed(e)] && HasLed(Moved(w, t, move), e)
    ensures ResetBy(w.log, e)
  {
    MoveAdds(w, t, move);
    var event :| Moved(w, t, move).log == w.log + [event] && Due(w, t, event);
    assert event == (w.log + [event])[|w.log|] == DoneClosed(e);
    LedBefore(w, t, move, e);
    FinishersMove(w, t, move);
  }

  lemma FinishersMove(w: World, t: Thread, move: Move)
    requires Makes(w, t, move) && KeepsEnding(w, t, move) && t.Main? && t in w.pcs && (w.pcs[t].MainFinish? || w.pcs[t].FailFinish?)
    ensures HasLed(Moved(w, t, move), t.e) ==> HasLed(w, t.e)
  {
    MovedThreads(w, t, move);
  }

  lemma StepKeepsResets(w: World, action: Action, w': World)
    requires Sound(w) && Resets(w) && Next(w, action) == Some(w')
    ensures Sound(w') && Resets(w')
  {
    StepIsSound(w, action, w');
    if action.Cancel? {
      assert w'.pcs == w.pcs && w'.log == w.log;
      assert forall e: nat :: AboutToFinish(w, e) ==> AboutToFinish(w', e);
    } else {
      MovesAreProper(w, action);
      MovesAreRegular(w, action);
      MovesKeepEvents(w, action);
      MovesKeepEnding(w, action);
      MoveKeepsResets(w, Mover(action), Chosen(w, action).value);
    }
  }

  lemma MoveKeepsResets(w: World, t: Thread, move: Move)
    requires Invariant(w) && Trace(w) && Resets(w) && Makes(w, t, move) && KeepsEnding(w, t, move)
    ensures Resets(Moved(w, t, move))
  {
    KeepsResetFirst(w, t, move);
    forall e: nat ensures AboutToFinish(Moved(w, t, move), e) {
      assert AboutToFinish(w, e);
      if t == Main(e) {
        MainIsAboutToFinish(w, t, move);
      } else {
        OthersAreAboutToFinish(w, t, move, e);
      }
    }
  }

  lemma {:induction false} RunsReset(actions: seq<Action>, worlds: seq<World>, i: nat)
    requires Leads(INITIAL, actions, worlds) && i < |worlds|
    ensures Sound(worlds[i]) && Resets(worlds[i])
  {
    if i == 0 {
      SoundAtFirst();
    } else {
      RunsReset(actions, worlds, i - 1);
      StepKeepsResets(worlds[i - 1], actions[i - 1], worlds[i]);
    }
  }

  /** In every run, when an execution that has led leaderLock says it is done, it has reset a.state,
      and nobody has assigned it since; one that has never led leaves a.state alone. */
  lemma ResetBeforeDone(w: World, j: nat, e: nat)
    requires Reachable(w) && j < |w.log| && w.log[j] == DoneClosed(e)
    ensures Updater(e) in w.pcs <==> Cleared(e) in w.log[..j]
    ensures Updater(e) in w.pcs ==>
              exists k :: 0 <= k < j && w.log[k] == Cleared(e) && forall i :: k < i < j ==> !w.log[i].Stored? && !w.log[i].Cleared?
  {
    ReachableResets(w);
    LedOrNot(w, j, e);
    if Updater(e) in w.pcs {
      ResetInPrefix(w.log, j, e);
    }
  }

  lemma LedOrNot(w: World, j: nat, e: nat)
    requires ResetFirst(w) && j < |w.log| && w.log[j] == DoneClosed(e)
    ensures if HasLed(w, e) then ResetBy(w.log[..j], e) else Cleared(e) !in w.log[..j]
  {
    assert forall i :: 0 <= i < j ==> w.log[i] in w.log;
  }

  lemma ReachableResets(w: World)
    requires Reachable(w)
    ensures ResetFirst(w)
  {
    var actions, worlds :| Leads(INITIAL, actions, worlds) && worlds[|actions|] == w;
    RunsReset(actions, worlds, |actions|);
  }

  lemma ResetInPrefix(log: seq<Event>, j: nat, e: nat)
    requires j < |log| && ResetBy(log[..j], e)
    ensures Cleared(e) in log[..j]
    ensures exists k :: 0 <= k < j && log[k] == Cleared(e) && forall i :: k < i < j ==> !log[i].Stored? && !log[i].Cleared?
  {
    var before := log[..j];
    var k :| 0 <= k < |before| && before[k] == Cleared(e) && forall i :: k < i < |before| ==> !Writes(before[i]);
    assert forall i :: 0 <= i < j ==> before[i] == log[i];
    assert log[k] == Cleared(e);
  }
}
