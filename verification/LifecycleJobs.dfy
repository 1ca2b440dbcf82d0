/** What the threads are asked to do gets done: every tick, and every Start that finds nothing
    running, leads to exactly one update, reconciliation or round of pruning, unless it is given up
    where the code may give it up. */
module LifecycleJobs {
  import opened Types
  import opened Lifecycle
  import opened LifecycleInvariant
  import opened LifecycleTrace
  import opened LifecycleProgress

  datatype Job = Update | Reconcile | Prune

  /** The thread is on its way to doing the job. */
  predicate Owes(pc: Pc, job: Job) {
    match job
    case Update => pc.StartLead? || (UpdatingAt(pc) && !pc.stage.EndStore?)
    case Reconcile => pc.MainAwaitState? || pc.MainReadState? || pc.MainReconcile?
    case Prune => pc.MainAwaitPrune? || pc.MainReadPrune? || pc.MainPrune?
  }

  predicate Owing(w: World, t: Thread, job: Job) {
    t in w.pcs && Owes(w.pcs[t], job)
  }

  /** The event is the job done. */
  predicate Serves(event: Event, t: Thread, job: Job) {
    match job
    case Update => event.Stored? && event.thread == t
    case Reconcile => t.Main? && event == Reconciled(t.e)
    case Prune => t.Main? && event == Pruned(t.e)
  }

  /** The job is asked for: by a tick; an update also by a Start that finds nothing running, and
      pruning also by a reconciliation, when there is something to prune. */
  predicate Takes(w: World, action: Action, t: Thread, job: Job) {
    match job
    case Update =>
      || action == Fire(t, UpdateTick)
      || (action.Run? && action.t == t && t in w.pcs && w.pcs[t].StartDecide? && CurrentStatus(w) == NotRunning)
    case Reconcile => action == Fire(t, ReconcileTick)
    case Prune => action == Fire(t, PruneTick) || (action == Run(t, false) && t in w.pcs && w.pcs[t].MainReconcile?)
  }

  /** The job is given up: a Start does not get leaderLock in time, or the next state cannot be computed. */
  predicate GivesUp(w: World, action: Action, t: Thread, job: Job) {
    && job == Update && action == Run(t, true) && t in w.pcs
    && (w.pcs[t].StartLead? || (UpdatingAt(w.pcs[t]) && w.pcs[t].stage.Compute?))
  }

  function B(b: bool): nat { if b then 1 else 0 }

  /** How often the job was done. */
  function Served(log: seq<Event>, t: Thread, job: Job): nat {
    if log == [] then 0 else Served(log[..|log| - 1], t, job) + B(Serves(log[|log| - 1], t, job))
  }

  lemma ServedGrows(log: seq<Event>, event: Event, t: Thread, job: Job)
    ensures Served(log + [event], t, job) == Served(log, t, job) + B(Serves(event, t, job))
  {
    assert (log + [event])[..|log|] == log;
  }

  // One move of the thread itself.

  /** What is done, given up or still owed after the move is what was owed, and what the move takes on. */
  ghost predicate Balances(w: World, action: Action, t: Thread, job: Job, was: Pc, move: Move) {
    var done := (move.effect.Assign? || move.effect.Note?) && Serves(move.effect.event, t, job);
    B(done) + B(GivesUp(w, action, t, job)) + B(Owes(move.pc, job)) == B(Owes(was, job)) + B(Takes(w, action, t, job))
  }

  lemma UpdateBalances(w: World, t: Thread, other: bool, job: Job)
    requires t in w.pcs && UpdatingAt(w.pcs[t])
    ensures Balances(w, Run(t, other), t, job, w.pcs[t], UpdatePlan(w, t, w.pcs[t], other))
  {
  }

  lemma StartBalances(w: World, t: Thread, other: bool, job: Job)
    requires t in w.pcs && StartPlan(w, t, w.pcs[t], other).Some?
    ensures Balances(w, Run(t, other), t, job, w.pcs[t], StartPlan(w, t, w.pcs[t], other).value)
  {
    if UpdatingAt(w.pcs[t]) {
      UpdateBalances(w, t, other, job);
    }
  }

  lemma CallBalances(w: World, t: Thread, other: bool, job: Job)
    requires t in w.pcs && t.Caller? && CallPlan(w, t, w.pcs[t], other).Some?
    ensures Balances(w, Run(t, other), t, job, w.pcs[t], CallPlan(w, t, w.pcs[t], other).value)
  {
    if StartPlan(w, t, w.pcs[t], other).Some? {
      StartBalances(w, t, other, job);
    }
  }

  lemma MainBalances(w: World, t: Thread, other: bool, job: Job)
    requires t in w.pcs && t.Main? && MainPlan(w, t.e, w.pcs[t], other).Some?
    ensures Balances(w, Run(t, other), t, job, w.pcs[t], MainPlan(w, t.e, w.pcs[t], other).value)
  {
    if CleanupPlan(w, t.e, w.pcs[t]).Some? {
      CleanupBalances(w, t, other, job);
    }
  }

  lemma CleanupBalances(w: World, t: Thread, other: bool, job: Job)
    requires t in w.pcs && t.Main? && CleanupPlan(w, t.e, w.pcs[t]).Some?
    ensures Balances(w, Run(t, other), t, job, w.pcs[t], CleanupPlan(w, t.e, w.pcs[t]).value)
  {
  }

  lemma UpdaterBalances(w: World, t: Thread, other: bool, job: Job)
    requires t in w.pcs && t.Updater? && UpdaterPlan(w, t, t.e, w.pcs[t], other).Some?
    ensures Balances(w, Run(t, other), t, job, w.pcs[t], UpdaterPlan(w, t, t.e, w.pcs[t], other).value)
  {
    if UpdatingAt(w.pcs[t]) {
      UpdateBalances(w, t, other, job);
    }
  }

  lemma TickBalances(w: World, t: Thread, tick: Tick, job: Job)
    requires t in w.pcs && TickPlan(w.pcs[t], tick).Some?
    ensures Balances(w, Fire(t, tick), t, job, w.pcs[t], TickPlan(w.pcs[t], tick).value)
  {
  }

  lemma MovesBalance(w: World, action: Action, job: Job)
    requires !action.Cancel? && Chosen(w, action).Some?
    ensures Balances(w, action, Mover(action), job, Before(w, Mover(action)), Chosen(w, action).value)
  {
    match action
    case Arrive(_, _) =>
    case Fire(t, tick) => TickBalances(w, t, tick, job);
    case Run(t, other) =>
      match t {
        case Caller(_) => CallBalances(w, t, other, job);
        case Main(_) => MainBalances(w, t, other, job);
        case Updater(_) => UpdaterBalances(w, t, other, job);
      }
  }

  // One step of anybody.

  /** The trace grows by the event of the move, or by one that serves no job. */
  lemma EffectServes(w: World, t: Thread, effect: Effect, u: Thread, job: Job)
    ensures Served(Caused(w, t, effect).log, u, job) ==
            Served(w.log, u, job) + B((effect.Assign? || effect.Note?) && Serves(effect.event, u, job))
  {
    match effect
    case Publish(e) => ServedGrows(w.log, Published(e), u, job);
    case StopCurrent => HandOutServes(w, u, job);
    case HandOut => HandOutServes(w, u, job);
    case Finish(e) => ServedGrows(w.log, DoneClosed(e), u, job);
    case Assign(event) => ServedGrows(w.log, event, u, job);
    case Note(event) => ServedGrows(w.log, event, u, job);
    case _ =>
  }

  lemma HandOutServes(w: World, u: Thread, job: Job)
    ensures Served(w.log + HandedOutNow(w), u, job) == Served(w.log, u, job)
  {
    if HandedOutNow(w) == [] {
      assert w.log + [] == w.log;
    } else {
      ServedGrows(w.log, HandedOutNow(w)[0], u, job);
    }
  }

  /** A thread owes nothing new when it is spawned, or when another one moves. */
  lemma OwingAfter(w: World, t: Thread, move: Move, u: Thread, job: Job)
    requires Proper(w, t, move)
    ensures Owing(Moved(w, t, move), u, job) <==> if u == t then Owes(move.pc, job) else Owing(w, u, job)
  {
    MovedThreads(w, t, move);
  }

  lemma OthersServeNothing(w: World, t: Thread, move: Move, u: Thread, job: Job)
    requires Makes(w, t, move) && u != t && (move.effect.Assign? || move.effect.Note?)
    ensures !Serves(move.effect.event, u, job)
  {
  }

  lemma MoveBalances(w: World, action: Action, move: Move, u: Thread, job: Job)
    requires !action.Cancel? && Makes(w, Mover(action), move)
    requires Balances(w, action, Mover(action), job, Before(w, Mover(action)), move)
    ensures Balanced(w, action, Moved(w, Mover(action), move), u, job)
  {
    var t := Mover(action);
    OwingAfter(w, t, move, u, job);
    EffectServes(Goto(w, t, move.pc), t, move.effect, u, job);
    if u != t {
      OthersAskNothing(w, action, u, job);
      if move.effect.Assign? || move.effect.Note? {
        OthersServeNothing(w, t, move, u, job);
      }
    }
  }

  lemma OthersAskNothing(w: World, action: Action, u: Thread, job: Job)
    requires !action.Cancel? && u != Mover(action)
    ensures !Takes(w, action, u, job) && !GivesUp(w, action, u, job)
  {
  }

  ghost predicate Balanced(w: World, action: Action, w': World, t: Thread, job: Job) {
    Served(w'.log, t, job) + B(GivesUp(w, action, t, job)) + B(Owing(w', t, job))
    == Served(w.log, t, job) + B(Owing(w, t, job)) + B(Takes(w, action, t, job))
  }

  lemma StepBalances(w: World, action: Action, w': World, t: Thread, job: Job)
    requires Sound(w) && Next(w, action) == Some(w')
    ensures Balanced(w, action, w', t, job)
  {
    if action.Cancel? {
      assert w'.pcs == w.pcs && w'.log == w.log;
    } else {
      MovesAreProper(w, action);
      MovesAreRegular(w, action);
      MovesKeepEvents(w, action);
      MovesBalance(w, action, job);
      MoveBalances(w, action, Chosen(w, action).value, t, job);
    }
  }

  // Whole runs.

  /** How often the job was asked for in the first `n` steps. */
  function Taken(actions: seq<Action>, worlds: seq<World>, n: nat, t: Thread, job: Job): nat
    requires n <= |actions| && n <= |worlds|
  {
    if n == 0 then 0 else Taken(actions, worlds, n - 1, t, job) + B(Takes(worlds[n - 1], actions[n - 1], t, job))
  }

  /** How often it was given up. */
  function GivenUp(actions: seq<Action>, worlds: seq<World>, n: nat, t: Thread, job: Job): nat
    requires n <= |actions| && n <= |worlds|
  {
    if n == 0 then 0 else GivenUp(actions, worlds, n - 1, t, job) + B(GivesUp(worlds[n - 1], actions[n - 1], t, job))
  }

  /** In every run, whatever a thread was asked to do it has done as often, but for what was given up
      and for what it is about to do. */
  lemma {:induction false} JobsAreDone(actions: seq<Action>, worlds: seq<World>, n: nat, t: Thread, job: Job)
    requires Leads(INITIAL, actions, worlds) && n <= |actions|
    ensures Taken(actions, worlds, n, t, job) ==
            Served(worlds[n].log, t, job) + GivenUp(actions, worlds, n, t, job) + B(Owing(worlds[n], t, job))
  {
    if n > 0 {
      JobsAreDone(actions, worlds, n - 1, t, job);
      RunBalances(actions, worlds, n - 1, t, job);
    }
  }

  lemma RunBalances(actions: seq<Action>, worlds: seq<World>, i: nat, t: Thread, job: Job)
    requires Leads(INITIAL, actions, worlds) && i < |actions|
    ensures Balanced(worlds[i], actions[i], worlds[i + 1], t, job)
  {
    RunsAreSound(actions, worlds, i);
    assert Next(worlds[i], actions[i]) == Some(worlds[i + 1]);
    StepBalances(worlds[i], actions[i], worlds[i + 1], t, job);
  }

  /** When nobody can go on, nothing is left undone. */
  lemma NothingIsLeft(actions: seq<Action>, worlds: seq<World>, t: Thread, job: Job)
    requires Leads(INITIAL, actions, worlds) && Still(worlds[|actions|])
    ensures Taken(actions, worlds, |actions|, t, job) ==
            Served(worlds[|actions|].log, t, job) + GivenUp(actions, worlds, |actions|, t, job)
  {
    JobsAreDone(actions, worlds, |actions|, t, job);
    RunsAreSound(actions, worlds, |actions|);
    var w := worlds[|actions|];
    if t in w.pcs {
      BusyGoesOn(w, t);
    }
  }
}
