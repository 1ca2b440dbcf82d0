/** run.go: any number of calls, executions and state updaters, as interleaved atomic steps over
    execLock, leaderLock and stateLock. */
module Lifecycle {
  import opened Types

  /** A call into autopilot, the goroutine of an execution, or the state updater it spawns. */
  datatype Thread = Caller(n: nat) | Main(e: nat) | Updater(e: nat)

  datatype Status = NotRunning | Running | ShuttingDown

  /** An execInfo: its fields, the context its goroutines run under, and how often `done` was closed. */
  datatype Exec = Exec(status: Status, hasShutdown: bool, hasDone: bool, closes: nat, cancelled: bool)

  const NEW_EXEC := Exec(Running, true, true, 0, false)

  /** Where an updateState is. The state it read is known by its version. */
  datatype Stage =
    | AwaitRead
    | ReadState
    | Gather(snapshot: nat)
    | Compute(snapshot: nat, reread: nat)
    | AwaitWrite(snapshot: nat, reread: nat)
    | Store(snapshot: nat, reread: nat)
    | EndStore

  datatype Pc =
    // calls
    | StartWait
    | StartDecide
    | StartLead(e: nat)
    | StartUpdate(e: nat, stage: Stage)
    | StartUnlead(e: nat)
    | StartSpawn(e: nat)
    | StartPublish(e: nat)
    | StopWait
    | StopDecide
    | QueryWait
    | QueryAnswer
    | ReadWait
    | ReadEnd
    // beginExecution
    | MainLead
    | MainSpawn
    | MainLoop
    | MainAwaitState
    | MainReadState
    | MainReconcile
    | MainAwaitPrune
    | MainReadPrune
    | MainPrune
    | MainJoin
    | MainAwaitClear
    | MainClear
    | MainAwaitExec
    | MainFinish
    | MainReleaseExec
    | MainUnlead
    | MainUnlock
    | FailAwaitExec
    | FailFinish
    // runStateUpdater
    | UpdaterIdle
    | Updating(stage: Stage)
    // the last release of execLock, and the end
    | ReleaseExec
    | Gone

  datatype Event =
    | Published(e: nat)
    | HandedOut(e: nat, usable: bool)
    | Stored(thread: Thread, snapshot: nat, reread: nat)
    | Reconciled(e: nat)
    | Pruned(e: nat)
    | Cleared(e: nat)
    | DoneClosed(e: nat)

  /** `version` counts the assignments to a.state; `panicked` tells a nil shutdown was called or a
      nil channel closed. */
  datatype World = World(
    pcs: map<Thread, Pc>,
    exec: Option<Thread>,
    leader: Option<Thread>,
    writer: Option<Thread>,
    readers: set<Thread>,
    execs: seq<Exec>,
    current: Option<nat>,
    version: nat,
    panicked: bool,
    log: seq<Event>)

  const INITIAL := World(map[], None, None, None, {}, [], None, 0, false, [])

  /** What a step does besides moving the thread on. */
  datatype Effect =
    | Quiet
    | TakeExec
    | GiveExec
    | TakeLeader
    | GiveLeader
    | TakeState
    | GiveState
    | TakeRead
    | GiveRead
    | Append
    | Publish(e: nat)
    | StopCurrent
    | HandOut
    | Finish(e: nat)
    | Spawn(child: Thread, pc: Pc)
    | Assign(event: Event)
    | Note(event: Event)

  datatype Move = Move(pc: Pc, effect: Effect)

  datatype Request = Start | Stop | IsRunning | GetState

  /** A tick with nothing to reconcile still prunes, like a removal request. */
  datatype Tick = UpdateTick | ReconcileTick | PruneTick

  /** A call arrives, the context given to Start is cancelled, a ticker fires or a removal of dead
      servers is requested, or a thread goes on. With two ways to go on, `other` takes the second. */
  datatype Action = Arrive(n: nat, request: Request) | Cancel(e: nat) | Fire(t: Thread, tick: Tick) | Run(t: Thread, other: bool)

  function Goto(w: World, t: Thread, pc: Pc): World {
    w.(pcs := w.pcs[t := pc])
  }

  /** The status of a.execution, a nil one being handled like one that is not running. */
  function CurrentStatus(w: World): Status {
    if w.current.Some? && w.current.value < |w.execs| then w.execs[w.current.value].status else NotRunning
  }

  predicate Cancelled(w: World, e: nat) {
    e < |w.execs| && w.execs[e].cancelled
  }

  // What the threads do.

  predicate UpdatingAt(pc: Pc) {
    pc.StartUpdate? || pc.Updating?
  }

  /** The same update in another stage. */
  function At(pc: Pc, stage: Stage): Pc
    requires UpdatingAt(pc)
  {
    if pc.StartUpdate? then StartUpdate(pc.e, stage) else Updating(stage)
  }

  function AfterUpdate(pc: Pc): Pc
    requires UpdatingAt(pc)
  {
    if pc.StartUpdate? then StartUnlead(pc.e) else UpdaterIdle
  }

  /** updateState, called by Start and by the updater. */
  function UpdatePlan(w: World, t: Thread, pc: Pc, failing: bool): Move
    requires UpdatingAt(pc)
  {
    match pc.stage
    case AwaitRead => Move(At(pc, ReadState), TakeRead)
    case ReadState => Move(At(pc, Gather(w.version)), GiveRead)
    // a.state is read again here, without the lock
    case Gather(snapshot) => Move(At(pc, Compute(snapshot, w.version)), Quiet)
    case Compute(snapshot, reread) => Move(if failing then AfterUpdate(pc) else At(pc, AwaitWrite(snapshot, reread)), Quiet)
    case AwaitWrite(snapshot, reread) => Move(At(pc, Store(snapshot, reread)), TakeState)
    case Store(snapshot, reread) => Move(At(pc, EndStore), Assign(Stored(t, snapshot, reread)))
    case EndStore => Move(AfterUpdate(pc), GiveState)
  }

  /** Start, once it has execLock. Its second way with leaderLock is the timeout of a second. */
  function StartPlan(w: World, t: Thread, pc: Pc, other: bool): Option<Move> {
    match pc
    case StartDecide =>
      var e := |w.execs|;
      if CurrentStatus(w) == Running then Some(Move(ReleaseExec, Quiet))
      else if CurrentStatus(w) == NotRunning then Some(Move(StartLead(e), Append))
      else Some(Move(StartSpawn(e), Append))
    case StartLead(e) => Some(if other then Move(StartSpawn(e), Quiet) else Move(StartUpdate(e, AwaitRead), TakeLeader))
    case StartUpdate(_, _) => Some(UpdatePlan(w, t, pc, other))
    case StartUnlead(e) => Some(Move(StartSpawn(e), GiveLeader))
    case StartSpawn(e) => Some(Move(StartPublish(e), Spawn(Main(e), MainLead)))
    case StartPublish(e) => Some(Move(ReleaseExec, Publish(e)))
    case _ => None
  }

  function CallPlan(w: World, t: Thread, pc: Pc, other: bool): Option<Move> {
    match pc
    case StartWait => Some(Move(StartDecide, TakeExec))
    case StopWait => Some(Move(StopDecide, TakeExec))
    case StopDecide => Some(Move(ReleaseExec, StopCurrent))
    case QueryWait => Some(Move(QueryAnswer, TakeExec))
    case QueryAnswer => Some(Move(ReleaseExec, HandOut))
    case ReadWait => Some(Move(ReadEnd, TakeRead))
    case ReadEnd => Some(Move(Gone, GiveRead))
    case ReleaseExec => Some(Move(Gone, GiveExec))
    case _ => StartPlan(w, t, pc, other)
  }

  /** beginExecution: the second way with leaderLock is that the context was cancelled. */
  function MainPlan(w: World, e: nat, pc: Pc, other: bool): Option<Move> {
    match pc
    case MainLead =>
      if !other then Some(Move(MainSpawn, TakeLeader))
      else if Cancelled(w, e) then Some(Move(FailAwaitExec, Quiet)) else None
    case MainSpawn => Some(Move(MainLoop, Spawn(Updater(e), UpdaterIdle)))
    case MainLoop => if Cancelled(w, e) then Some(Move(MainJoin, Quiet)) else None
    case MainAwaitState => Some(Move(MainReadState, TakeRead))
    case MainReadState => Some(Move(MainReconcile, GiveRead))
    // pruneDeadServers, which reads the state in its turn unless it has nothing to do
    case MainReconcile => Some(Move(if other then MainLoop else MainAwaitPrune, Note(Reconciled(e))))
    case MainAwaitPrune => Some(Move(MainReadPrune, TakeRead))
    case MainReadPrune => Some(Move(MainPrune, GiveRead))
    case MainPrune => Some(Move(MainLoop, Note(Pruned(e))))
    case FailAwaitExec => Some(Move(FailFinish, TakeExec))
    case FailFinish => Some(Move(ReleaseExec, Finish(e)))
    case ReleaseExec => Some(Move(Gone, GiveExec))
    case _ => CleanupPlan(w, e, pc)
  }

  /** The deferred cleanup: leaderLock is given back before stateLock. */
  function CleanupPlan(w: World, e: nat, pc: Pc): Option<Move> {
    match pc
    case MainJoin =>
      if Updater(e) in w.pcs && w.pcs[Updater(e)].Gone? then Some(Move(MainAwaitClear, Quiet)) else None
    case MainAwaitClear => Some(Move(MainClear, TakeState))
    case MainClear => Some(Move(MainAwaitExec, Assign(Cleared(e))))
    case MainAwaitExec => Some(Move(MainFinish, TakeExec))
    case MainFinish => Some(Move(MainReleaseExec, Finish(e)))
    case MainReleaseExec => Some(Move(MainUnlead, GiveExec))
    case MainUnlead => Some(Move(MainUnlock, GiveLeader))
    case MainUnlock => Some(Move(Gone, GiveState))
    case _ => None
  }

  function UpdaterPlan(w: World, t: Thread, e: nat, pc: Pc, other: bool): Option<Move> {
    match pc
    case UpdaterIdle => if Cancelled(w, e) then Some(Move(Gone, Quiet)) else None
    case Updating(_) => Some(UpdatePlan(w, t, pc, other))
    case _ => None
  }

  function Plan(w: World, t: Thread, pc: Pc, other: bool): Option<Move> {
    match t
    case Caller(_) => CallPlan(w, t, pc, other)
    case Main(e) => MainPlan(w, e, pc, other)
    case Updater(e) => UpdaterPlan(w, t, e, pc, other)
  }

  function TickPlan(pc: Pc, tick: Tick): Option<Move> {
    match tick
    case UpdateTick => if pc.UpdaterIdle? then Some(Move(Updating(AwaitRead), Quiet)) else None
    case ReconcileTick => if pc.MainLoop? then Some(Move(MainAwaitState, Quiet)) else None
    case PruneTick => if pc.MainLoop? then Some(Move(MainAwaitPrune, Quiet)) else None
  }

  function Entry(request: Request): Pc {
    match request
    case Start => StartWait
    case Stop => StopWait
    case IsRunning => QueryWait
    case GetState => ReadWait
  }

  // What becomes of the world.

  predicate Enabled(w: World, effect: Effect) {
    match effect
    case TakeExec => w.exec.None?
    case TakeLeader => w.leader.None?
    case TakeState => w.writer.None? && w.readers == {}
    case TakeRead => w.writer.None?
    case _ => true
  }

  /** The done channel of the published execution, for Stop and IsRunning to return. */
  function HandedOutNow(w: World): seq<Event> {
    if CurrentStatus(w) == NotRunning then []
    else [HandedOut(w.current.value, w.execs[w.current.value].hasDone)]
  }

  function Stopped(w: World): World {
    if CurrentStatus(w) == NotRunning then w
    else
      var c := w.current.value;
      w.(panicked := w.panicked || !w.execs[c].hasShutdown,
         execs := w.execs[c := w.execs[c].(status := ShuttingDown, cancelled := true)],
         log := w.log + HandedOutNow(w))
  }

  /** finishExecution. */
  function FinishedBy(w: World, e: nat): World {
    if e < |w.execs| then
      w.(panicked := w.panicked || !w.execs[e].hasDone,
         execs := w.execs[e := w.execs[e].(status := NotRunning, hasShutdown := false, hasDone := false,
                                           closes := w.execs[e].closes + 1)],
         log := w.log + [DoneClosed(e)])
    else w.(panicked := true)
  }

  function Caused(w: World, t: Thread, effect: Effect): World {
    match effect
    case Quiet => w
    case TakeExec => w.(exec := Some(t))
    case GiveExec => w.(exec := None)
    case TakeLeader => w.(leader := Some(t))
    case GiveLeader => w.(leader := None)
    case TakeState => w.(writer := Some(t))
    case GiveState => w.(writer := None)
    case TakeRead => w.(readers := w.readers + {t})
    case GiveRead => w.(readers := w.readers - {t})
    case Append => w.(execs := w.execs + [NEW_EXEC])
    case Publish(e) => w.(current := Some(e), log := w.log + [Published(e)])
    case StopCurrent => Stopped(w)
    case HandOut => w.(log := w.log + HandedOutNow(w))
    case Finish(e) => FinishedBy(w, e)
    case Spawn(child, pc) => Goto(w, child, pc)
    case Assign(event) => w.(version := w.version + 1, log := w.log + [event])
    case Note(event) => w.(log := w.log + [event])
  }

  function Moved(w: World, t: Thread, move: Move): World {
    Caused(Goto(w, t, move.pc), t, move.effect)
  }

  /** The move an action asks of a thread; a call that arrives moves in from nowhere. */
  function Chosen(w: World, action: Action): Option<Move>
    requires !action.Cancel?
  {
    match action
    case Arrive(n, request) => if Caller(n) in w.pcs then None else Some(Move(Entry(request), Quiet))
    case Fire(t, tick) => if t in w.pcs then TickPlan(w.pcs[t], tick) else None
    case Run(t, other) => if t in w.pcs then Plan(w, t, w.pcs[t], other) else None
  }

  function Mover(action: Action): Thread
    requires !action.Cancel?
  {
    if action.Arrive? then Caller(action.n) else action.t
  }

  /** What an action makes of a world, when it can be taken. */
  function Next(w: World, action: Action): Option<World> {
    if action.Cancel? then
      if action.e < |w.execs| then Some(w.(execs := w.execs[action.e := w.execs[action.e].(cancelled := true)])) else None
    else if Chosen(w, action).Some? && Enabled(w, Chosen(w, action).value.effect) then
      Some(Moved(w, Mover(action), Chosen(w, action).value))
    else None
  }

  /** The worlds a sequence of actions leads through. */
  ghost predicate Leads(from: World, actions: seq<Action>, worlds: seq<World>) {
    && |worlds| == |actions| + 1 && worlds[0] == from
    && forall i :: 0 <= i < |actions| ==> Next(worlds[i], actions[i]) == Some(worlds[i + 1])
  }

  ghost predicate Reachable(w: World) {
    exists actions, worlds :: Leads(INITIAL, actions, worlds) && worlds[|actions|] == w
  }

  lemma ReachesInitial()
    ensures Reachable(INITIAL)
  {
    assert Leads(INITIAL, [], [INITIAL]);
  }

  lemma ReachesNext(w: World, action: Action, w': World)
    requires Reachable(w) && Next(w, action) == Some(w')
    ensures Reachable(w')
  {
    var actions, worlds :| Leads(INITIAL, actions, worlds) && worlds[|actions|] == w;
    assert Leads(INITIAL, actions + [action], worlds + [w']);
  }
}
