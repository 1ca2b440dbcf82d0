/** What runs of the lifecycle leave behind: the trace of updates, rounds and finished executions. */
module LifecycleTrace {
  import opened Types
  import opened Lifecycle
  import opened LifecycleInvariant

  /** The event assigns a.state. */
  predicate Writes(event: Event) {
    event.Stored? || event.Cleared?
  }

  function CountWrites(log: seq<Event>): nat {
    if log == [] then 0 else CountWrites(log[..|log| - 1]) + if Writes(log[|log| - 1]) then 1 else 0
  }

  /** Whoever holds leaderLock for the event: a call of Start, or an execution, which its updater works for. */
  function Owner(event: Event): Option<Thread> {
    match event
    case Stored(thread, _, _) => Some(if thread.Updater? then Main(thread.e) else thread)
    case Reconciled(e) => Some(Main(e))
    case Pruned(e) => Some(Main(e))
    case Cleared(e) => Some(Main(e))
    case _ => None
  }

  /** Every update stored was computed from the state it replaces, both times that state was read:
      the versions are the number of assignments before. */
  ghost predicate NoLostUpdate(log: seq<Event>) {
    forall k :: 0 <= k < |log| && log[k].Stored? ==> log[k].snapshot == CountWrites(log[..k]) == log[k].reread
  }

  /** What is done under leaderLock by one execution, or one call of Start, is not interleaved with
      what is done by another. */
  ghost predicate TermsDisjoint(log: seq<Event>) {
    forall i, j, k :: 0 <= i < j < k < |log| && Owner(log[i]).Some? && Owner(log[i]) == Owner(log[k]) ==>
                        Owner(log[j]).None? || Owner(log[j]) == Owner(log[i])
  }

  /** An execution finishes once, after it was published, and then does nothing any more. */
  ghost predicate FinishedOnce(log: seq<Event>) {
    && (forall i, j :: 0 <= i < j < |log| && log[i].DoneClosed? ==> log[j] != log[i] && Owner(log[j]) != Some(Main(log[i].e)))
    && (forall j :: 0 <= j < |log| && log[j].DoneClosed? ==> Published(log[j].e) in log[..j])
  }

  /** The channels handed out by Stop and IsRunning are never nil. */
  ghost predicate ChannelsUsable(log: seq<Event>) {
    forall i :: 0 <= i < |log| && log[i].HandedOut? ==> log[i].usable
  }

  // One step.

  /** The event is what the thread was about to do. */
  ghost predicate Due(w: World, t: Thread, event: Event) {
    match event
    case Published(e) => t in w.pcs && w.pcs[t] == StartPublish(e)
    case HandedOut(e, usable) => e < |w.execs| && w.execs[e].status != NotRunning && usable == w.execs[e].hasDone
    case Stored(u, snapshot, reread) =>
      u == t && t in w.pcs && UpdatingAt(w.pcs[t]) && w.pcs[t].stage == Store(snapshot, reread)
    case Reconciled(e) => t == Main(e) && t in w.pcs && w.pcs[t].MainReconcile?
    case Pruned(e) => t == Main(e) && t in w.pcs && w.pcs[t].MainPrune?
    case Cleared(e) => t == Main(e) && t in w.pcs && w.pcs[t].MainClear?
    case DoneClosed(e) => t == Main(e) && t in w.pcs && (w.pcs[t].MainFinish? || w.pcs[t].FailFinish?)
  }

  /** At most one due event is added, and says how the version and the published execution change. */
  ghost predicate Adds(w: World, t: Thread, w': World) {
    || (w'.log == w.log && w'.version == w.version && w'.current == w.current)
    || (exists event ::
          && w'.log == w.log + [event] && Due(w, t, event)
          && w'.version == w.version + (if Writes(event) then 1 else 0)
          && w'.current == if event.Published? then Some(event.e) else w.current)
  }

  /** The thread has taken leaderLock, if it is one that does, or has given up on it. */
  predicate Led(pc: Pc) {
    HoldsLeader(pc) || pc.StartSpawn? || pc.StartPublish? || pc.ReleaseExec? || pc.Gone? || pc.MainUnlock?
  }

  /** Events come where they are due, and leaderLock is taken once. */
  ghost predicate KeepsEvents(w: World, t: Thread, move: Move) {
    && (move.effect.Assign? ==> Writes(move.effect.event) && Due(w, t, move.effect.event))
    && (move.effect.Note? ==> Owner(move.effect.event).Some? && !Writes(move.effect.event) && Due(w, t, move.effect.event))
    && (t in w.pcs && Led(w.pcs[t]) ==> Led(move.pc) && (HoldsLeader(move.pc) ==> HoldsLeader(w.pcs[t])))
  }

  lemma CallKeepsEvents(w: World, t: Thread, other: bool)
    requires t in w.pcs && t.Caller? && Fits(t, w.pcs[t]) && CallPlan(w, t, w.pcs[t], other).Some?
    ensures KeepsEvents(w, t, CallPlan(w, t, w.pcs[t], other).value)
  {
    if UpdatingAt(w.pcs[t]) {
      UpdateKeepsEvents(w, t, other);
    }
  }

  lemma UpdateKeepsEvents(w: World, t: Thread, failing: bool)
    requires t in w.pcs && !t.Main? && Fits(t, w.pcs[t]) && UpdatingAt(w.pcs[t])
    ensures KeepsEvents(w, t, UpdatePlan(w, t, w.pcs[t], failing))
  {
  }

  lemma MainKeepsEvents(w: World, t: Thread, other: bool)
    requires t in w.pcs && t.Main? && Fits(t, w.pcs[t]) && MainPlan(w, t.e, w.pcs[t], other).Some?
    ensures KeepsEvents(w, t, MainPlan(w, t.e, w.pcs[t], other).value)
  {
  }

  lemma MovesKeepEvents(w: World, action: Action)
    requires Threads(w) && !action.Cancel? && Chosen(w, action).Some?
    ensures KeepsEvents(w, Mover(action), Chosen(w, action).value)
  {
    if action.Run? {
      var t := action.t;
      match t
      case Caller(_) => CallKeepsEvents(w, t, action.other);
      case Main(_) => MainKeepsEvents(w, t, action.other);
      case Updater(_) => if UpdatingAt(w.pcs[t]) { UpdateKeepsEvents(w, t, action.other); }
    }
  }

  /** A thread makes a move it may make. */
  ghost predicate Makes(w: World, t: Thread, move: Move) {
    Proper(w, t, move) && Regular(w, t, move) && KeepsEvents(w, t, move)
  }

  lemma MoveAdds(w: World, t: Thread, move: Move)
    requires Threads(w) && Makes(w, t, move)
    ensures Adds(w, t, Moved(w, t, move))
  {
    var w' := Moved(w, t, move);
    match move.effect
    case Publish(e) => assert w'.log == w.log + [Published(e)] && Due(w, t, Published(e));
    case Finish(e) => FinishAdds(w, t, move);
    case Assign(event) => EventAdds(w, t, move, event);
    case Note(event) => EventAdds(w, t, move, event);
    case _ => assert w'.version == w.version && w'.current == w.current;
  }

  lemma EventAdds(w: World, t: Thread, move: Move, event: Event)
    requires Makes(w, t, move) && (move.effect == Assign(event) || move.effect == Note(event))
    ensures Adds(w, t, Moved(w, t, move))
  {
    assert Moved(w, t, move).log == w.log + [event];
  }

  lemma FinishAdds(w: World, t: Thread, move: Move)
    requires Threads(w) && Makes(w, t, move) && move.effect.Finish?
    ensures Adds(w, t, Moved(w, t, move))
  {
    var e := move.effect.e;
    assert Moved(w, t, move).log == w.log + [DoneClosed(e)] && Due(w, t, DoneClosed(e));
  }

  // The trace grows by an event that is due.

  lemma CountGrows(log: seq<Event>, event: Event)
    ensures CountWrites(log + [event]) == CountWrites(log) + if Writes(event) then 1 else 0
  {
    assert (log + [event])[..|log|] == log;
  }

  lemma NoLostUpdateGrows(log: seq<Event>, event: Event)
    requires NoLostUpdate(log)
    requires event.Stored? ==> event.snapshot == CountWrites(log) == event.reread
    ensures NoLostUpdate(log + [event])
  {
    var more := log + [event];
    forall k | 0 <= k < |more| && more[k].Stored? ensures more[k].snapshot == CountWrites(more[..k]) == more[k].reread {
      assert more[..k] == log[..k];
    }
  }

  /** The owner has not been followed by another one. */
  ghost predicate StillLeads(log: seq<Event>, owner: Thread) {
    forall i, j :: 0 <= i < j < |log| && Owner(log[i]) == Some(owner) ==> Owner(log[j]).None? || Owner(log[j]) == Some(owner)
  }

  lemma TermsDisjointGrows(log: seq<Event>, event: Event)
    requires TermsDisjoint(log) && (Owner(event).Some? ==> StillLeads(log, Owner(event).value))
    ensures TermsDisjoint(log + [event])
  {
  }

  lemma FinishedOnceGrows(log: seq<Event>, event: Event)
    requires FinishedOnce(log)
    requires event.DoneClosed? ==> event !in log && Published(event.e) in log
    requires forall e: nat :: Owner(event) == Some(Main(e)) ==> DoneClosed(e) !in log
    ensures FinishedOnce(log + [event])
  {
    var more := log + [event];
    forall j | 0 <= j < |more| && more[j].DoneClosed? ensures Published(more[j].e) in more[..j] {
      assert more[..j] == log[..j];
    }
    forall i, j | 0 <= i < j < |more| && more[i].DoneClosed?
      ensures more[j] != more[i] && Owner(more[j]) != Some(Main(more[i].e)) {
      assert more[i] in log;
    }
  }

  // What holds of the trace in every world.

  /** Owners have taken leaderLock, and one that was followed by another has given it back. */
  ghost predicate Owners(w: World) {
    && (forall i :: 0 <= i < |w.log| && Owner(w.log[i]).Some? ==>
                      Owner(w.log[i]).value in w.pcs && Led(w.pcs[Owner(w.log[i]).value]))
    && (forall o :: o in w.pcs && HoldsLeader(w.pcs[o]) ==> StillLeads(w.log, o))
  }

  ghost predicate IsPublished(w: World, e: nat) {
    w.current.Some? && e <= w.current.value
  }

  ghost predicate Ended(w: World, e: nat) {
    Main(e) in w.pcs && Finished(w.pcs[Main(e)])
  }

  ghost predicate Trace(w: World) {
    && w.version == CountWrites(w.log)
    && NoLostUpdate(w.log) && TermsDisjoint(w.log) && FinishedOnce(w.log) && ChannelsUsable(w.log)
    && Owners(w)
    && (forall e: nat :: Published(e) in w.log <==> IsPublished(w, e))
    && (forall e: nat :: DoneClosed(e) in w.log <==> Ended(w, e))
  }

  /** A due event keeps the trace in order. */
  lemma DueIsInOrder(w: World, t: Thread, event: Event)
    requires Invariant(w) && Trace(w) && Due(w, t, event)
    ensures event.Stored? ==> event.snapshot == CountWrites(w.log) == event.reread
    ensures Owner(event).Some? ==> Owner(event).value in w.pcs && HoldsLeader(w.pcs[Owner(event).value])
    ensures event.DoneClosed? ==> event !in w.log && Published(event.e) in w.log
    ensures forall e: nat :: Owner(event) == Some(Main(e)) ==> DoneClosed(e) !in w.log
    ensures event.HandedOut? ==> event.usable
  {
    match event
    case Published(_) =>
    case HandedOut(e, _) => assert Record(w, e);
    case Stored(_, _, _) => OwnerLeads(w, t);
    case Reconciled(e) => assert !Ended(w, e);
    case Pruned(e) => assert !Ended(w, e);
    case Cleared(e) => assert !Ended(w, e);
    case DoneClosed(e) => FinishIsDue(w, t, e);
  }

  lemma FinishIsDue(w: World, t: Thread, e: nat)
    requires Invariant(w) && Trace(w) && Due(w, t, DoneClosed(e))
    ensures DoneClosed(e) !in w.log && Published(e) in w.log
  {
    assert !Ended(w, e);
    assert Held(w, t) && w.exec == Some(t) && !Starting(w);
    assert IsPublished(w, e);
  }

  lemma OwnerLeads(w: World, t: Thread)
    requires Invariant(w) && t in w.pcs && UpdatingAt(w.pcs[t])
    ensures var o := if t.Updater? then Main(t.e) else t;
            o in w.pcs && HoldsLeader(w.pcs[o]) && (o.Main? ==> !Finished(w.pcs[o]))
  {
    assert Fits(t, w.pcs[t]);
    if t.Updater? {
      assert Child(w, t.e);
    }
  }

  lemma KeepsLog(w: World, t: Thread, w': World, event: Event)
    requires Invariant(w) && Trace(w) && Due(w, t, event) && w'.log == w.log + [event]
    requires w'.version == w.version + if Writes(event) then 1 else 0
    ensures w'.version == CountWrites(w'.log)
    ensures NoLostUpdate(w'.log) && TermsDisjoint(w'.log) && FinishedOnce(w'.log) && ChannelsUsable(w'.log)
  {
    DueIsInOrder(w, t, event);
    CountGrows(w.log, event);
    NoLostUpdateGrows(w.log, event);
    TermsDisjointGrows(w.log, event);
    FinishedOnceGrows(w.log, event);
  }

  lemma KeepsLed(w: World, t: Thread, move: Move, o: Thread)
    requires Makes(w, t, move) && o in w.pcs && Led(w.pcs[o])
    ensures var w' := Moved(w, t, move); o in w'.pcs && Led(w'.pcs[o]) && (HoldsLeader(w'.pcs[o]) ==> HoldsLeader(w.pcs[o]))
  {
    MovedThreads(w, t, move);
  }

  /** The owner of a due event is the holder of leaderLock. */
  lemma OwnerHolds(w: World, t: Thread, event: Event)
    requires Invariant(w) && Trace(w) && Due(w, t, event) && Owner(event).Some?
    ensures Owner(event).value in w.pcs && Led(w.pcs[Owner(event).value]) && w.leader == Owner(event)
    ensures !Owner(event).value.Updater?
  {
    DueIsInOrder(w, t, event);
    assert Held(w, Owner(event).value);
  }

  lemma KeepsOwners(w: World, t: Thread, move: Move)
    requires Invariant(w) && Trace(w) && Makes(w, t, move) && Locks(Moved(w, t, move))
    ensures Owners(Moved(w, t, move))
  {
    MoveAdds(w, t, move);
    MovedThreads(w, t, move);
    var w' := Moved(w, t, move);
    forall i | 0 <= i < |w'.log| && Owner(w'.log[i]).Some?
      ensures Owner(w'.log[i]).value in w'.pcs && Led(w'.pcs[Owner(w'.log[i]).value])
    {
      if i >= |w.log| {
        OwnerHolds(w, t, w'.log[i]);
      }
      KeepsLed(w, t, move, Owner(w'.log[i]).value);
    }
    forall o | o in w'.pcs && HoldsLeader(w'.pcs[o]) ensures StillLeads(w'.log, o) {
      LeaderStillLeads(w, t, move, o);
    }
  }

  /** Whoever leads after a move has not been followed by another owner. */
  lemma LeaderStillLeads(w: World, t: Thread, move: Move, o: Thread)
    requires Invariant(w) && Trace(w) && Makes(w, t, move)
    requires o in Moved(w, t, move).pcs && HoldsLeader(Moved(w, t, move).pcs[o])
    ensures StillLeads(Moved(w, t, move).log, o)
  {
    MoveAdds(w, t, move);
    var w' := Moved(w, t, move);
    if i: nat :| i < |w.log| && Owner(w.log[i]) == Some(o) {
      assert Led(w.pcs[o]);
      KeepsLed(w, t, move, o);
      assert Held(w, o) && StillLeads(w.log, o);
      if w'.log != w.log && Owner(w'.log[|w.log|]).Some? {
        OwnerHolds(w, t, w'.log[|w.log|]);
      }
      StillLeadsGrows(w.log, w'.log, o);
    }
  }

  lemma StillLeadsGrows(log: seq<Event>, more: seq<Event>, owner: Thread)
    requires StillLeads(log, owner) && log <= more && |more| <= |log| + 1
    requires |more| > |log| ==> Owner(more[|log|]).None? || Owner(more[|log|]) == Some(owner)
    ensures StillLeads(more, owner)
  {
  }

  lemma KeepsEnded(w: World, t: Thread, move: Move, e: nat)
    requires Invariant(w) && Trace(w) && Makes(w, t, move)
    ensures DoneClosed(e) in Moved(w, t, move).log <==> Ended(Moved(w, t, move), e)
  {
    FinishIsLogged(w, t, move, e);
    FinishEnds(w, t, move, e);
    assert DoneClosed(e) in w.log <==> Ended(w, e);
  }

  lemma FinishEnds(w: World, t: Thread, move: Move, e: nat)
    requires Makes(w, t, move)
    ensures Ended(Moved(w, t, move), e) <==> Ended(w, e) || move.effect == Finish(e)
  {
    MovedThreads(w, t, move);
  }

  lemma FinishIsLogged(w: World, t: Thread, move: Move, e: nat)
    requires Threads(w) && Makes(w, t, move)
    ensures DoneClosed(e) in Moved(w, t, move).log <==> DoneClosed(e) in w.log || move.effect == Finish(e)
  {
    if move.effect == Finish(e) {
      assert Moved(w, t, move).log == w.log + [DoneClosed(e)];
    } else {
      MoveAdds(w, t, move);
    }
  }

  lemma KeepsPublished(w: World, t: Thread, move: Move, e: nat)
    requires Invariant(w) && Trace(w) && Makes(w, t, move)
    ensures Published(e) in Moved(w, t, move).log <==> IsPublished(Moved(w, t, move), e)
  {
    assert t in w.pcs ==> Held(w, t);
    MoveAdds(w, t, move);
    MovedThreads(w, t, move);
  }

  lemma MoveKeepsTrace(w: World, t: Thread, move: Move)
    requires Invariant(w) && Trace(w) && Makes(w, t, move) && Locks(Moved(w, t, move))
    ensures Trace(Moved(w, t, move))
  {
    var w' := Moved(w, t, move);
    MoveAdds(w, t, move);
    if w'.log != w.log {
      KeepsLog(w, t, w', w'.log[|w.log|]);
    }
    KeepsOwners(w, t, move);
    forall e: nat
      ensures (DoneClosed(e) in w'.log <==> Ended(w', e)) && (Published(e) in w'.log <==> IsPublished(w', e))
    {
      KeepsEnded(w, t, move, e);
      KeepsPublished(w, t, move, e);
    }
  }

  lemma EveryStepKeepsTrace(w: World, action: Action, w': World)
    requires Invariant(w) && Trace(w) && Next(w, action) == Some(w') && Invariant(w')
    ensures Trace(w')
  {
    if action.Cancel? {
      assert w'.pcs == w.pcs && w'.log == w.log;
    } else {
      MovesAreProper(w, action);
      MovesAreRegular(w, action);
      MovesKeepEvents(w, action);
      MoveKeepsTrace(w, Mover(action), Chosen(w, action).value);
    }
  }

  lemma TraceHoldsAtFirst()
    ensures Trace(INITIAL)
  {
  }

  ghost predicate Sound(w: World) {
    Invariant(w) && Trace(w)
  }

  lemma SoundAtFirst()
    ensures Sound(INITIAL)
  {
    InvariantHoldsAtFirst();
    TraceHoldsAtFirst();
  }

  lemma StepIsSound(w: World, action: Action, w': World)
    requires Sound(w) && Next(w, action) == Some(w')
    ensures Sound(w')
  {
    EveryStepKeepsInvariant(w, action, w');
    EveryStepKeepsTrace(w, action, w');
  }

  lemma {:induction false} RunsAreSound(actions: seq<Action>, worlds: seq<World>, i: nat)
    requires Leads(INITIAL, actions, worlds) && i < |worlds|
    ensures Sound(worlds[i])
  {
    if i == 0 {
      SoundAtFirst();
    } else {
      RunsAreSound(actions, worlds, i - 1);
      StepIsSound(worlds[i - 1], actions[i - 1], worlds[i]);
    }
  }

  lemma ReachableIsSound(w: World)
    requires Reachable(w)
    ensures Sound(w)
  {
    var actions, worlds :| Leads(INITIAL, actions, worlds) && worlds[|actions|] == w;
    RunsAreSound(actions, worlds, |actions|);
  }

  // In every world of every run.

  /** Updates are serial, each computed from exactly the state it replaces; an execution acts only
      under leaderLock and its terms do not overlap another's; it finishes once, after it was
      published, and does nothing afterwards; Stop and IsRunning never hand out a nil channel. */
  lemma RunsAreOrderly(w: World)
    requires Reachable(w)
    ensures NoLostUpdate(w.log) && w.version == CountWrites(w.log)
    ensures TermsDisjoint(w.log)
    ensures FinishedOnce(w.log)
    ensures ChannelsUsable(w.log)
  {
    ReachableIsSound(w);
  }

  /** A live updater has its execution in the loop, holding leaderLock, and no two threads are in an
      update of a.state or in a cleanup. */
  lemma UpdatesAreExclusive(w: World, t: Thread, u: Thread)
    requires Reachable(w)
    requires t in w.pcs && u in w.pcs
    ensures t.Updater? && !w.pcs[t].Gone? ==>
              w.leader == Some(Main(t.e)) && Main(t.e) in w.pcs && InLoop(w.pcs[Main(t.e)])
    ensures Updates(w.pcs[t]) && Updates(w.pcs[u]) ==> t == u
  {
    ReachableIsSound(w);
    if t.Updater? {
      assert Child(w, t.e) && Held(w, Main(t.e));
    }
    if Updates(w.pcs[t]) && Updates(w.pcs[u]) {
      OneUpdate(w, t, u);
    }
  }

  /** An execution that is not marked as not running can be stopped and waited for; it is marked so
      exactly when its channel was closed, which happens once. Every execution but the latest is
      cancelled, and unless a Start holds execLock the latest is the published one. Nothing panics. */
  lemma RecordsAreSound(w: World, e: nat)
    requires Reachable(w) && e < |w.execs|
    ensures !w.panicked
    ensures var x := w.execs[e];
            && (x.status != NotRunning ==> x.hasShutdown && x.hasDone && x.closes == 0)
            && (x.status == NotRunning <==> DoneClosed(e) in w.log)
            && (x.status == NotRunning <==> x.closes == 1)
            && (x.status == NotRunning || x.status == ShuttingDown ==> x.cancelled)
    ensures e < |w.execs| - 1 ==> w.execs[e].cancelled
    ensures !Starting(w) ==> w.current == Some(|w.execs| - 1)
  {
    ReachableIsSound(w);
    RecordFacts(w, e);
    EndedIsLogged(w, e);
  }

  lemma RecordFacts(w: World, e: nat)
    requires Invariant(w) && e < |w.execs|
    ensures !w.panicked
    ensures var x := w.execs[e];
            && (x.status == NotRunning <==> Main(e) in w.pcs && Finished(w.pcs[Main(e)]))
            && (x.status != NotRunning ==> x.hasShutdown && x.hasDone && x.closes == 0)
            && (x.status == NotRunning ==> x.closes == 1)
            && (x.status == NotRunning || x.status == ShuttingDown ==> x.cancelled)
    ensures e < |w.execs| - 1 ==> w.execs[e].cancelled
    ensures !Starting(w) ==> w.current == Some(|w.execs| - 1)
  {
    assert Record(w, e);
  }

  lemma EndedIsLogged(w: World, e: nat)
    requires Trace(w)
    ensures DoneClosed(e) in w.log <==> Main(e) in w.pcs && Finished(w.pcs[Main(e)])
  {
    assert DoneClosed(e) in w.log <==> Ended(w, e);
  }
}
