/** The values of types.go, with the fields the core never decides on (names, versions, metadata,
    extensions) left out. Times and durations are integers; ZERO_TIME is Go's zero time.Time. */
module Types {
  import opened Ids

  datatype Option<+T> = None | Some(value: T)

  type Address = string
  type Time = int
  type Duration = int

  const ZERO_TIME: Time := 0
  const TWO_TO_THE_64: int := 0x1_0000_0000_0000_0000

  newtype UInt64 = x: int | 0 <= x < TWO_TO_THE_64

  datatype Suffrage = Voter | Nonvoter | Staging | OtherSuffrage
  datatype RaftServer = RaftServer(id: Id, address: Address, suffrage: Suffrage)
  type Configuration = seq<RaftServer>

  datatype RaftState = RaftNone | RaftLeader | RaftVoter | RaftNonVoter | RaftStaging
  datatype NodeStatus = NodeUnknown | NodeAlive | NodeFailed | NodeLeft
  datatype NodeType = NodeVoter | OtherNodeType(name: string)

  datatype Config = Config(
    cleanupDeadServers: bool,
    lastContactThreshold: Duration,
    maxTrailingLogs: UInt64,
    minQuorum: nat,
    serverStabilizationTime: Duration)

  datatype Server = Server(
    id: Id, address: Address, nodeStatus: NodeStatus, isLeader: bool, nodeType: NodeType)

  datatype ServerStats = ServerStats(lastContact: Duration, lastTerm: UInt64, lastIndex: UInt64)

  datatype ServerHealth = ServerHealth(healthy: bool, stableSince: Time) {
    predicate IsStable(now: Time, minStableDuration: Duration) {
      healthy && now - stableSince >= minStableDuration
    }
  }

  datatype ServerState = ServerState(
    server: Server, state: RaftState, stats: ServerStats, health: ServerHealth) {
    predicate HasVotingRights() {
      state == RaftVoter || state == RaftLeader
    }

    /** Go's uint64 addition wraps. */
    predicate IsHealthy(lastTerm: UInt64, leaderLastIndex: UInt64, conf: Config) {
      && leaderLastIndex != 0 && lastTerm != 0
      && server.nodeStatus == NodeAlive
      && 0 <= stats.lastContact <= conf.lastContactThreshold
      && stats.lastTerm == lastTerm
      && (stats.lastIndex as int + conf.maxTrailingLogs as int) % TWO_TO_THE_64 >= leaderLastIndex as int
    }
  }

  datatype State = State(
    firstStateTime: Time,
    healthy: bool,
    failureTolerance: int,
    servers: map<Id, ServerState>,
    leader: Id,
    voters: seq<Id>) {
    /** The stabilization time counts only once autopilot has run for longer than it; `now` is the
        reading taken inside this function. */
    function StabilizationTime(conf: Config, now: Time): Duration {
      if now - firstStateTime > conf.serverStabilizationTime then conf.serverStabilizationTime else 0
    }
  }

  /** &State{} */
  const EMPTY_STATE := State(ZERO_TIME, false, 0, map[], "", [])

  datatype RaftChanges = RaftChanges(promotions: seq<Id>, demotions: seq<Id>, leader: Id)

  datatype FailedServers = FailedServers(
    staleNonVoters: seq<Id>,
    staleVoters: seq<Id>,
    failedNonVoters: seq<Server>,
    failedVoters: seq<Server>)

  /** The application's view is keyed by the servers' own ids. */
  ghost predicate KeyedById(known: map<Id, Server>) {
    forall id :: id in known ==> known[id].id == id
  }

  /** Go's integer division by a positive number, which truncates toward zero. */
  function TruncatedDiv(a: int, b: int): int
    requires b > 0
  {
    if a >= 0 then a / b else -(-a / b)
  }
}
