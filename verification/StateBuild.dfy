/** state.go: computing the next state from the current one and what can be observed. */
module StateBuild {
  import opened Ids
  import opened Sorting
  import opened Types
  import opened RaftCluster
  import opened Classification
  import opened Membership
  import opened ServerOrder

  datatype Inputs = Inputs(
    now: Time,
    firstStateTime: Time,
    config: Config,
    raftConfig: Configuration,
    known: map<Id, Server>,
    latestIndex: UInt64,
    lastTerm: UInt64,
    fetchedStats: map<Id, ServerStats>,
    leaderId: Id,
    isLeader: bool,
    current: Servers)

  /** How the previous health is remembered while a server's state is built: `Aliased` is the code,
      a pointer into the structure that is about to be overwritten; `Copied` is the variant its
      comments describe. */
  datatype HealthMemory = Aliased | Copied

  const UNSET_SERVER := Server("", "", NodeUnknown, false, OtherNodeType(""))
  const UNSET_STATS := ServerStats(0, 0, 0)

  // One server, as a value.

  function SuffrageState(suffrage: Suffrage): RaftState {
    match suffrage
    case Voter => RaftVoter
    case Nonvoter => RaftNonVoter
    case Staging => RaftStaging
    case OtherSuffrage => RaftNone
  }

  /** The application's record wins over the previous state's; the address is always Raft's; an
      unknown server counts as having left. */
  function NextServer(inputs: Inputs, srv: RaftServer): Server {
    var base :=
      if srv.id in inputs.known then inputs.known[srv.id].(address := srv.address)
      else if srv.id in inputs.current then inputs.current[srv.id].server.(address := srv.address, nodeStatus := NodeLeft)
      else UNSET_SERVER.(id := srv.id, address := srv.address, nodeStatus := NodeLeft);
    if srv.id == inputs.leaderId then base.(isLeader := true) else base
  }

  function NextStats(inputs: Inputs, srv: RaftServer): ServerStats {
    if srv.id in inputs.fetchedStats then inputs.fetchedStats[srv.id]
    else if srv.id in inputs.current then inputs.current[srv.id].stats
    else UNSET_STATS
  }

  /** The leader's last term and index: our own when we lead, else as reported, else zero. */
  function LeaderProgress(inputs: Inputs): (UInt64, UInt64) {
    if inputs.isLeader then (inputs.lastTerm, inputs.latestIndex)
    else if inputs.leaderId in inputs.fetchedStats then
      (inputs.fetchedStats[inputs.leaderId].lastTerm, inputs.fetchedStats[inputs.leaderId].lastIndex)
    else (0, 0)
  }

  function NextHealthy(inputs: Inputs, srv: RaftServer): bool {
    var (term, index) := LeaderProgress(inputs);
    ServerState(NextServer(inputs, srv), RaftNone, NextStats(inputs, srv), ServerHealth(false, ZERO_TIME))
    .IsHealthy(term, index, inputs.config)
  }

  function NextStableSince(memory: HealthMemory, inputs: Inputs, srv: RaftServer): Time {
    if srv.id !in inputs.current then inputs.now
    else
      var previous := inputs.current[srv.id].health;
      if memory == Copied && previous.healthy != NextHealthy(inputs, srv) then inputs.now
      else previous.stableSince
  }

  function NextServerState(memory: HealthMemory, inputs: Inputs, srv: RaftServer): ServerState {
    ServerState(
      NextServer(inputs, srv),
      if srv.id == inputs.leaderId then RaftLeader else SuffrageState(srv.suffrage),
      NextStats(inputs, srv),
      ServerHealth(NextHealthy(inputs, srv), NextStableSince(memory, inputs, srv)))
  }

  // The same as the code does it. The health lives in a cell because previousHealthy points into it.

  class HealthCell {
    var healthy: bool
    var stableSince: Time

    constructor (health: ServerHealth)
      ensures healthy == health.healthy && stableSince == health.stableSince
    {
      healthy, stableSince := health.healthy, health.stableSince;
    }
  }

  method BuildServerState(inputs: Inputs, srv: RaftServer) returns (r: ServerState)
    ensures r == NextServerState(Aliased, inputs, srv)
  {
    var server := UNSET_SERVER.(id := srv.id, address := srv.address);
    var stats := UNSET_STATS;
    var health := new HealthCell(ServerHealth(false, ZERO_TIME));
    var state;
    match srv.suffrage {
      case Voter => state := RaftVoter;
      case Nonvoter => state := RaftNonVoter;
      case Staging => state := RaftStaging;
      case OtherSuffrage => state := RaftNone;
    }

    assert state == SuffrageState(srv.suffrage);
    var previousHealthy: HealthCell? := null;
    if srv.id in inputs.current {
      var existing := inputs.current[srv.id];
      stats := existing.stats;
      health.healthy, health.stableSince := existing.health.healthy, existing.health.stableSince;
      previousHealthy := health;
      server := existing.server.(address := srv.address);
    }

    if srv.id in inputs.known {
      server := inputs.known[srv.id].(address := srv.address);
    } else {
      server := server.(nodeStatus := NodeLeft);
    }

    if srv.id == inputs.leaderId {
      state := RaftLeader;
      server := server.(isLeader := true);
    }

    if srv.id in inputs.fetchedStats {
      stats := inputs.fetchedStats[srv.id];
    }

    var leaderLastIndex: UInt64, leaderLastTerm: UInt64 := 0, 0;
    if inputs.isLeader {
      leaderLastIndex, leaderLastTerm := inputs.latestIndex, inputs.lastTerm;
    } else if inputs.leaderId in inputs.fetchedStats {
      var leader := inputs.fetchedStats[inputs.leaderId];
      leaderLastIndex, leaderLastTerm := leader.lastIndex, leader.lastTerm;
    }

    assert server == NextServer(inputs, srv) && stats == NextStats(inputs, srv);
    assert (leaderLastTerm, leaderLastIndex) == LeaderProgress(inputs);
    var soFar := ServerState(server, state, stats, ServerHealth(health.healthy, health.stableSince));
    health.healthy := soFar.IsHealthy(leaderLastTerm, leaderLastIndex, inputs.config);
    if previousHealthy == null || previousHealthy.healthy != health.healthy {
      health.stableSince := inputs.now;
    }
    r := ServerState(server, state, stats, ServerHealth(health.healthy, health.stableSince));
  }

  // All servers.

  function NextServers(memory: HealthMemory, inputs: Inputs): Servers {
    var raft := RaftMap(inputs.raftConfig);
    map id | id in raft :: NextServerState(memory, inputs, raft[id])
  }

  lemma {:induction false} RaftMapKeys(config: Configuration)
    ensures forall id :: id in RaftMap(config) ==> RaftMap(config)[id].id == id && RaftMap(config)[id] in config
    ensures RaftMap(config).Keys == ServerIds(config)
  {
    if config != [] {
      var rest, last := config[..|config| - 1], config[|config| - 1];
      assert config == rest + [last];
      RaftMapKeys(rest);
      assert ServerIds(config) == ServerIds(rest) + {last.id};
    }
  }

  method BuildServers(inputs: Inputs) returns (servers: Servers)
    ensures servers == NextServers(Aliased, inputs)
  {
    servers := map[];
    for i := 0 to |inputs.raftConfig|
      invariant servers.Keys == RaftMap(inputs.raftConfig[..i]).Keys
      invariant forall id :: id in servers ==>
                  servers[id] == NextServerState(Aliased, inputs, RaftMap(inputs.raftConfig[..i])[id])
    {
      assert inputs.raftConfig[..i + 1][..i] == inputs.raftConfig[..i];
      var state := BuildServerState(inputs, inputs.raftConfig[i]);
      servers := servers[inputs.raftConfig[i].id := state];
    }
    assert inputs.raftConfig[..|inputs.raftConfig|] == inputs.raftConfig;
  }

  lemma OnlyTheNamedLeads(memory: HealthMemory, inputs: Inputs)
    ensures var servers := NextServers(memory, inputs);
            && AtMostOneLeader(servers)
            && forall id :: id in servers ==> (servers[id].state == RaftLeader <==> id == inputs.leaderId)
  {
    RaftMapKeys(inputs.raftConfig);
  }

  // The whole state.

  function VotingIds(servers: Servers): set<Id> {
    set id | id in servers && servers[id].HasVotingRights()
  }

  function HealthyVotingIds(servers: Servers): set<Id> {
    set id | id in servers && servers[id].HasVotingRights() && servers[id].health.healthy
  }

  function Tolerance(voters: nat, healthyVoters: nat): int {
    if healthyVoters > RequiredQuorum(voters) then healthyVoters - RequiredQuorum(voters) else 0
  }

  /** The state as the promoter first sees it, with the voters in the order `order` in which Go
      happened to walk the map. */
  ghost function Draft(servers: Servers, firstStateTime: Time, leaderId: Id, order: seq<Id>): State {
    State(
      firstStateTime,
      forall id :: id in servers ==> servers[id].health.healthy,
      Tolerance(|VotingIds(servers)|, |HealthyVotingIds(servers)|),
      servers,
      if leaderId in servers then leaderId else "",
      order)
  }

  function Typed(servers: Servers, types: map<Id, NodeType>): Servers {
    map id | id in servers ::
      if id in types then servers[id].(server := servers[id].server.(nodeType := types[id])) else servers[id]
  }

  ghost predicate VoterOrder(servers: Servers, order: seq<Id>) {
    Distinct(order) && ToSet(order) == VotingIds(servers)
  }

  /** `r` is a possible result: some order of the map produced the draft the promoter typed, and the
      voters are then sorted. */
  ghost predicate IsNextState(memory: HealthMemory, inputs: Inputs, nodeTypes: State -> map<Id, NodeType>, r: State) {
    var servers := NextServers(memory, inputs);
    exists order :: VoterOrder(servers, order) && ComesFrom(servers, inputs, nodeTypes, order, r)
  }

  /** The servers with the types the promoter gives them on seeing the voters in this order. */
  ghost function TypedFor(servers: Servers, inputs: Inputs, nodeTypes: State -> map<Id, NodeType>, order: seq<Id>): Servers {
    Typed(servers, nodeTypes(Draft(servers, inputs.firstStateTime, inputs.leaderId, order)))
  }

  ghost predicate ComesFrom(servers: Servers, inputs: Inputs, nodeTypes: State -> map<Id, NodeType>, order: seq<Id>, r: State) {
    var typed := TypedFor(servers, inputs, nodeTypes, order);
    && r == Draft(servers, inputs.firstStateTime, inputs.leaderId, order).(servers := typed, voters := r.voters)
    && Ranked(r.voters, VotingIds(servers), typed)
  }

  /** The counters once every server but those in `left` has been looked at. */
  ghost predicate Counted(servers: Servers, left: set<Id>, leaderId: Id, healthy: bool, leader: Id, voters: seq<Id>, healthyVoters: nat) {
    && (healthy <==> forall id :: id in servers && id !in left ==> servers[id].health.healthy)
    && (leader == if leaderId in servers && leaderId !in left then leaderId else "")
    && Distinct(voters) && ToSet(voters) == VotingIds(servers) - left
    && healthyVoters == |HealthyVotingIds(servers) - left|
  }

  lemma CountStep(servers: Servers, left: set<Id>, leaderId: Id, healthy: bool, leader: Id, voters: seq<Id>, healthyVoters: nat, id: Id)
    requires Counted(servers, left, leaderId, healthy, leader, voters, healthyVoters) && id in left && id in servers
    requires servers[id].state == RaftLeader <==> id == leaderId
    ensures var srv := servers[id];
            Counted(servers, left - {id}, leaderId,
                    healthy && srv.health.healthy,
                    if srv.state == RaftLeader then id else leader,
                    if srv.HasVotingRights() then voters + [id] else voters,
                    if srv.HasVotingRights() && srv.health.healthy then healthyVoters + 1 else healthyVoters)
  {
    OneFewerLeft(VotingIds(servers), left, id);
    CountedOne(HealthyVotingIds(servers), left, id);
    OneMoreDistinct(voters, id);
  }

  /** The counting loop, over the servers in map order. */
  method CountServers(servers: Servers, ghost leaderId: Id)
    returns (healthy: bool, leader: Id, voters: seq<Id>, voterCount: nat, healthyVoters: nat)
    requires forall id :: id in servers ==> (servers[id].state == RaftLeader <==> id == leaderId)
    ensures healthy <==> forall id :: id in servers ==> servers[id].health.healthy
    ensures leader == if leaderId in servers then leaderId else ""
    ensures VoterOrder(servers, voters)
    ensures voterCount == |VotingIds(servers)| && healthyVoters == |HealthyVotingIds(servers)|
  {
    healthy, leader, voters, voterCount, healthyVoters := true, "", [], 0, 0;
    var left := servers.Keys;
    NothingCounted(servers, leaderId);
    while left != {}
      invariant left <= servers.Keys && voterCount == |voters|
      invariant Counted(servers, left, leaderId, healthy, leader, voters, healthyVoters)
      decreases left
    {
      var id :| id in left;
      CountStep(servers, left, leaderId, healthy, leader, voters, healthyVoters, id);
      left := left - {id};
      var srv := servers[id];
      if !srv.health.healthy {
        healthy := false;
      }
      if srv.HasVotingRights() {
        if srv.state == RaftLeader {
          leader := id;
        }
        voters, voterCount := voters + [id], voterCount + 1;
        if srv.health.healthy {
          healthyVoters := healthyVoters + 1;
        }
      }
    }
    EverythingCounted(servers, left, leaderId, healthy, leader, voters, healthyVoters);
  }

  lemma NothingCounted(servers: Servers, leaderId: Id)
    ensures Counted(servers, servers.Keys, leaderId, true, "", [], 0)
  {
    assert VotingIds(servers) - servers.Keys == {} && HealthyVotingIds(servers) - servers.Keys == {};
  }

  lemma EverythingCounted(servers: Servers, left: set<Id>, leaderId: Id, healthy: bool, leader: Id, voters: seq<Id>, healthyVoters: nat)
    requires Counted(servers, left, leaderId, healthy, leader, voters, healthyVoters) && left == {}
    ensures healthy <==> forall id :: id in servers ==> servers[id].health.healthy
    ensures leader == if leaderId in servers then leaderId else ""
    ensures VoterOrder(servers, voters)
    ensures |voters| == |VotingIds(servers)| && healthyVoters == |HealthyVotingIds(servers)|
  {
    assert VotingIds(servers) - left == VotingIds(servers);
    assert HealthyVotingIds(servers) - left == HealthyVotingIds(servers);
    DistinctLength(voters);
  }

  lemma CountedOne(s: set<Id>, left: set<Id>, id: Id)
    requires id in left
    ensures |s - (left - {id})| == |s - left| + if id in s then 1 else 0
  {
    OneFewerLeft(s, left, id);
  }

  /** The typing loop, over the promoter's answer in map order. */
  method ApplyNodeTypes(servers: Servers, types: map<Id, NodeType>) returns (typed: Servers)
    ensures typed == Typed(servers, types)
  {
    typed := servers;
    var left := types.Keys;
    while left != {}
      invariant left <= types.Keys && typed.Keys == servers.Keys
      invariant forall id :: id in servers ==>
                  typed[id] == if id in types && id !in left
                               then servers[id].(server := servers[id].server.(nodeType := types[id])) else servers[id]
      decreases left
    {
      var id :| id in left;
      left := left - {id};
      if id in typed {
        typed := typed[id := typed[id].(server := typed[id].server.(nodeType := types[id]))];
      }
    }
  }

  lemma TypingKeepsOrder(servers: Servers, types: map<Id, NodeType>)
    ensures var typed := Typed(servers, types);
            && typed.Keys == servers.Keys
            && (AtMostOneLeader(servers) ==> AtMostOneLeader(typed))
            && (forall a, b :: a in servers && b in servers ==>
                  (ServerLessThan(a, b, typed) <==> ServerLessThan(a, b, servers)))
  {
  }

  method NextStateWithInputs(inputs: Inputs, nodeTypes: State -> map<Id, NodeType>) returns (r: State)
    ensures IsNextState(Aliased, inputs, nodeTypes, r)
  {
    var servers := BuildServers(inputs);
    OnlyTheNamedLeads(Aliased, inputs);
    var healthy, leader, voters, voterCount, healthyVoters := CountServers(servers, inputs.leaderId);
    var failureTolerance := 0;
    var required := RequiredQuorum(voterCount);
    if healthyVoters > required {
      failureTolerance := healthyVoters - required;
    }
    var draft := State(inputs.firstStateTime, healthy, failureTolerance, servers, leader, voters);
    var types := nodeTypes(draft);
    var typed := ApplyNodeTypes(servers, types);
    TypingKeepsOrder(servers, types);
    assert ToSet(voters) <= servers.Keys;
    var sorted := SortServers(voters, typed);
    r := draft.(servers := typed, voters := sorted);
    CountsMakeDraft(servers, inputs.leaderId, draft);
    ResultIsNext(inputs, nodeTypes, servers, voters, r);
  }

  lemma CountsMakeDraft(servers: Servers, leaderId: Id, draft: State)
    requires draft.servers == servers && draft.leader == (if leaderId in servers then leaderId else "")
    requires draft.healthy <==> forall id :: id in servers ==> servers[id].health.healthy
    requires draft.failureTolerance == Tolerance(|VotingIds(servers)|, |HealthyVotingIds(servers)|)
    ensures draft == Draft(servers, draft.firstStateTime, leaderId, draft.voters)
  {
  }

  lemma ResultIsNext(inputs: Inputs, nodeTypes: State -> map<Id, NodeType>, servers: Servers, order: seq<Id>, r: State)
    requires servers == NextServers(Aliased, inputs) && VoterOrder(servers, order)
    requires ComesFrom(servers, inputs, nodeTypes, order, r)
    ensures IsNextState(Aliased, inputs, nodeTypes, r)
  {
  }
}
