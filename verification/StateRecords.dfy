/** What a computed state records, field by field and said of its inputs, for one update and over
    histories. */
module StateRecords {
  import opened Ids
  import opened Sorting
  import opened Types
  import opened RaftCluster
  import opened Classification
  import opened ServerOrder
  import opened StateBuild
  import opened StateUpdate
  import opened History
  import opened Reconcile
  import opened StablePromoter
  import opened RoundsFromState

  /** Who a server is: the address is always the one Raft has; the rest is the application's, or what
      was recorded before of a server it no longer knows, which counts as having left. The named
      leader leads, and whoever was said to lead before still does. */
  ghost predicate Identified(s: Server, inputs: Inputs, e: RaftServer) {
    var id := e.id;
    && s.address == e.address
    && (id in inputs.known ==>
          && s.id == inputs.known[id].id && s.nodeStatus == inputs.known[id].nodeStatus
          && s.isLeader == (inputs.known[id].isLeader || id == inputs.leaderId))
    && (id !in inputs.known ==> s.nodeStatus == NodeLeft)
    && (id !in inputs.known && id in inputs.current ==>
          && s.id == inputs.current[id].server.id
          && s.isLeader == (inputs.current[id].server.isLeader || id == inputs.leaderId))
    && (id !in inputs.known && id !in inputs.current ==> s.id == id && s.isLeader == (id == inputs.leaderId))
  }

  /** The freshly fetched statistics, or else the ones recorded before, or else zeros. */
  ghost predicate Measured(stats: ServerStats, inputs: Inputs, id: Id) {
    && (id in inputs.fetchedStats ==> stats == inputs.fetchedStats[id])
    && (id !in inputs.fetchedStats && id in inputs.current ==> stats == inputs.current[id].stats)
    && (id !in inputs.fetchedStats && id !in inputs.current ==> stats.lastContact == 0 && stats.lastTerm == 0 && stats.lastIndex == 0)
  }

  /** Its part in Raft: the named leader leads, the others are what their suffrage says. */
  ghost predicate Placed(state: RaftState, inputs: Inputs, e: RaftServer) {
    && (state == RaftLeader <==> e.id == inputs.leaderId)
    && (e.id != inputs.leaderId ==>
          && (state == RaftVoter <==> e.suffrage == Types.Voter)
          && (state == RaftNonVoter <==> e.suffrage == Nonvoter)
          && (state == RaftStaging <==> e.suffrage == Staging)
          && (state == RaftNone <==> e.suffrage == OtherSuffrage))
  }

  /** Not behind a leader at this term and index, of which there is one; the sum is Go's. */
  predicate KeepsUp(stats: ServerStats, term: UInt64, index: UInt64, conf: Config) {
    && term != 0 && index != 0 && stats.lastTerm == term
    && (stats.lastIndex as int + conf.maxTrailingLogs as int) % TWO_TO_THE_64 >= index as int
  }

  /** Healthy: known to be alive, in touch, and keeping up with the leader, which is ourselves or the
      named leader as it reported. With no leader to go by nobody is healthy. */
  ghost predicate Judged(healthy: bool, stats: ServerStats, inputs: Inputs, id: Id) {
    healthy <==>
      && id in inputs.known && inputs.known[id].nodeStatus == NodeAlive
      && 0 <= stats.lastContact <= inputs.config.lastContactThreshold
      && (inputs.isLeader ==> KeepsUp(stats, inputs.lastTerm, inputs.latestIndex, inputs.config))
      && (!inputs.isLeader ==>
            && inputs.leaderId in inputs.fetchedStats
            && var leader := inputs.fetchedStats[inputs.leaderId];
               KeepsUp(stats, leader.lastTerm, leader.lastIndex, inputs.config))
  }

  /** Since when: since now, for a server not tracked before; else since what was recorded, unless the
      previous health was remembered and has changed. */
  ghost predicate Dated(health: ServerHealth, memory: HealthMemory, inputs: Inputs, id: Id) {
    && (id !in inputs.current ==> health.stableSince == inputs.now)
    && (id in inputs.current ==>
          var previous := inputs.current[id].health;
          health.stableSince ==
          if memory == Copied && previous.healthy != health.healthy then inputs.now else previous.stableSince)
  }

  ghost predicate RecordedAs(s: ServerState, memory: HealthMemory, inputs: Inputs, e: RaftServer) {
    && Identified(s.server, inputs, e) && Measured(s.stats, inputs, e.id) && Placed(s.state, inputs, e)
    && Judged(s.health.healthy, s.stats, inputs, e.id) && Dated(s.health, memory, inputs, e.id)
  }

  lemma ComputedIdentity(inputs: Inputs, e: RaftServer)
    ensures Identified(NextServer(inputs, e), inputs, e)
  {
  }

  lemma ComputedHealth(inputs: Inputs, e: RaftServer)
    ensures Judged(NextHealthy(inputs, e), NextStats(inputs, e), inputs, e.id)
  {
  }

  lemma ComputedRecord(memory: HealthMemory, inputs: Inputs, e: RaftServer)
    ensures RecordedAs(NextServerState(memory, inputs, e), memory, inputs, e)
  {
    ComputedIdentity(inputs, e);
    ComputedHealth(inputs, e);
  }

  /** Typing by the promoter touches nothing but the type. */
  lemma TypedRecord(servers: Servers, types: map<Id, NodeType>, id: Id)
    requires id in servers
    ensures id in Typed(servers, types)
    ensures var s := Typed(servers, types)[id];
            && s == servers[id].(server := s.server)
            && s.server == servers[id].server.(nodeType := if id in types then types[id] else servers[id].server.nodeType)
  {
  }

  /** Every computed state records of every server of the configuration, and of no other, what its
      inputs say of it. */
  lemma EveryRecord(memory: HealthMemory, inputs: Inputs, nodeTypes: State -> map<Id, NodeType>, r: State, id: Id)
    requires IsNextState(memory, inputs, nodeTypes, r)
    ensures id in r.servers <==> id in RaftMap(inputs.raftConfig)
    ensures id in r.servers ==>
              RaftMap(inputs.raftConfig)[id].id == id && RecordedAs(r.servers[id], memory, inputs, RaftMap(inputs.raftConfig)[id])
  {
    RaftMapKeys(inputs.raftConfig);
    var servers := NextServers(memory, inputs);
    var order :| VoterOrder(servers, order) && ComesFrom(servers, inputs, nodeTypes, order, r);
    var types := nodeTypes(Draft(servers, inputs.firstStateTime, inputs.leaderId, order));
    if id in servers {
      ComputedRecord(memory, inputs, RaftMap(inputs.raftConfig)[id]);
      TypedRecord(servers, types, id);
    }
  }

  /** The totals of a computed state. */
  lemma StateTotals(memory: HealthMemory, inputs: Inputs, nodeTypes: State -> map<Id, NodeType>, r: State)
    requires IsNextState(memory, inputs, nodeTypes, r)
    ensures r.firstStateTime == inputs.firstStateTime
    ensures r.healthy <==> forall id :: id in r.servers ==> r.servers[id].health.healthy
    ensures r.leader == if inputs.leaderId in RaftMap(inputs.raftConfig) then inputs.leaderId else ""
    ensures Distinct(r.voters)
    ensures forall id :: id in r.voters <==>
              id in RaftMap(inputs.raftConfig) && (id == inputs.leaderId || RaftMap(inputs.raftConfig)[id].suffrage == Types.Voter)
  {
    var servers := NextServers(memory, inputs);
    RaftMapKeys(inputs.raftConfig);
    var order :| VoterOrder(servers, order) && ComesFrom(servers, inputs, nodeTypes, order, r);
    TypedHealth(servers, nodeTypes(Draft(servers, inputs.firstStateTime, inputs.leaderId, order)));
    VotingIs(memory, inputs);
    assert forall id :: id in r.voters <==> id in ToSet(r.voters);
  }

  lemma TypedHealth(servers: Servers, types: map<Id, NodeType>)
    ensures Typed(servers, types).Keys == servers.Keys
    ensures forall id :: id in servers ==> Typed(servers, types)[id].health == servers[id].health
  {
  }

  lemma VotingIs(memory: HealthMemory, inputs: Inputs)
    ensures forall id :: id in VotingIds(NextServers(memory, inputs)) <==>
              id in RaftMap(inputs.raftConfig) && (id == inputs.leaderId || RaftMap(inputs.raftConfig)[id].suffrage == Types.Voter)
  {
    RaftMapKeys(inputs.raftConfig);
  }

  /** The type is what the promoter answers for the server, if anything, or else what it would be
      without a promoter; nothing else of `shown` is changed. */
  ghost predicate TypedAs(s: ServerState, shown: ServerState, types: map<Id, NodeType>, inputs: Inputs, id: Id) {
    && s == shown.(server := shown.server.(nodeType := s.server.nodeType))
    && (id in types ==> s.server.nodeType == types[id])
    && (id !in types ==> s.server.nodeType == Untyped(inputs, id))
  }

  /** The promoter is asked about the state before typing and sorting. */
  lemma RecordedTypes(memory: HealthMemory, inputs: Inputs, nodeTypes: State -> map<Id, NodeType>, r: State) returns (shown: State)
    requires IsNextState(memory, inputs, nodeTypes, r)
    ensures shown == r.(servers := shown.servers, voters := shown.voters)
    ensures Distinct(shown.voters) && ToSet(shown.voters) == ToSet(r.voters) && shown.servers.Keys == r.servers.Keys
    ensures forall id :: id in r.servers ==> TypedAs(r.servers[id], shown.servers[id], nodeTypes(shown), inputs, id)
  {
    var servers := NextServers(memory, inputs);
    var order :| VoterOrder(servers, order) && ComesFrom(servers, inputs, nodeTypes, order, r);
    shown := Draft(servers, inputs.firstStateTime, inputs.leaderId, order);
    forall id | id in r.servers ensures TypedAs(r.servers[id], shown.servers[id], nodeTypes(shown), inputs, id) {
      TypedRecord(servers, nodeTypes(shown), id);
      UntypedIs(memory, inputs, id);
    }
  }

  lemma UntypedIs(memory: HealthMemory, inputs: Inputs, id: Id)
    requires id in NextServers(memory, inputs)
    ensures NextServers(memory, inputs)[id].server.nodeType == Untyped(inputs, id)
  {
    RaftMapKeys(inputs.raftConfig);
  }

  function Untyped(inputs: Inputs, id: Id): NodeType {
    if id in inputs.known then inputs.known[id].nodeType
    else if id in inputs.current then inputs.current[id].server.nodeType
    else OtherNodeType("")
  }

  /** One update of a.state, from what it reads to what it records: `snapshot` was read under the lock,
      `reread` without it, the rest from Raft, the application and the clock. */
  lemma UpdateMeans(inputs: Inputs, snapshot: State, reread: State, config: Configuration, known: map<Id, Server>, r: Readings,
                    nodeTypes: State -> map<Id, NodeType>, after: State, id: Id)
    requires Gathered(inputs, snapshot, reread, config, known, r) && IsNextState(Aliased, inputs, nodeTypes, after)
    requires id in after.servers
    ensures after.firstStateTime == if reread.firstStateTime == ZERO_TIME then r.now else reread.firstStateTime
    ensures LeaderChoice(known, config, r.raftLeader, inputs.leaderId)
    ensures var s := after.servers[id];
            && id in RaftMap(config) && s.server.address == RaftMap(config)[id].address
            && (s.state == RaftLeader <==> id == inputs.leaderId)
            && (id in r.stats ==> s.stats == r.stats[id])
            && (id !in r.stats && id in snapshot.servers ==> s.stats == snapshot.servers[id].stats)
            && s.health.stableSince == (if id in snapshot.servers then snapshot.servers[id].health.stableSince else r.now)
            && (s.health.healthy <==>
                  && id in known && known[id].nodeStatus == NodeAlive
                  && 0 <= s.stats.lastContact <= inputs.config.lastContactThreshold
                  && (r.isLeader ==> KeepsUp(s.stats, r.lastTerm.value, r.latestIndex, inputs.config))
                  && (!r.isLeader ==>
                        inputs.leaderId in r.stats
                        && KeepsUp(s.stats, r.stats[inputs.leaderId].lastTerm, r.stats[inputs.leaderId].lastIndex, inputs.config)))
  {
    EveryRecord(Aliased, inputs, nodeTypes, after, id);
    StateTotals(Aliased, inputs, nodeTypes, after);
  }

  // Over histories.

  lemma {:induction false} LastUpdateIsNext(memory: HealthMemory, nodeTypes: (Config, State) -> map<Id, NodeType>, events: seq<Event>)
    requires IsHistory(memory, nodeTypes, events) && Recent(events) != []
    ensures var u := Recent(events)[|Recent(events)| - 1];
            IsNextState(memory, u.inputs, TypesFor(nodeTypes, u.inputs.config), u.result)
  {
    var n := |events| - 1;
    if events[n].UpdateFailed? {
      LastUpdateIsNext(memory, nodeTypes, events[..n]);
    }
  }

  /** After any history every tracked server is recorded as the inputs of the last update say; in
      particular under the address Raft had for it then. */
  lemma RecordsOverHistory(memory: HealthMemory, nodeTypes: (Config, State) -> map<Id, NodeType>, events: seq<Event>, id: Id)
    requires IsHistory(memory, nodeTypes, events) && id in StateAfter(events).servers
    ensures Recent(events) != []
    ensures var inputs := Recent(events)[|Recent(events)| - 1].inputs;
            && id in RaftMap(inputs.raftConfig)
            && RecordedAs(StateAfter(events).servers[id], memory, inputs, RaftMap(inputs.raftConfig)[id])
            && StateAfter(events).servers[id].server.address == RaftMap(inputs.raftConfig)[id].address
  {
    StateIsRecent(events);
    LastUpdateIsNext(memory, nodeTypes, events);
    var u := Recent(events)[|Recent(events)| - 1];
    EveryRecord(memory, u.inputs, TypesFor(nodeTypes, u.inputs.config), u.result, id);
  }

  /** So the StablePromoter's promotions go to the ids it proposes, at the addresses Raft had for them
      at the last update, whatever the application reports. */
  lemma PromotedAtRaftsAddress(memory: HealthMemory, nodeTypes: (Config, State) -> map<Id, NodeType>, events: seq<Event>,
                               conf: Config, now: Time, later: Time, changes: RaftChanges, i: nat)
    requires IsHistory(memory, nodeTypes, events)
    requires forall i :: 0 <= i < |events| && events[i].Updated? ==> KeyedById(events[i].update.inputs.known)
    requires Distinct(changes.promotions) && ToSet(changes.promotions) == StableIds(conf, StateAfter(events), now, later)
    requires changes.demotions == [] && changes.leader == "" && i < |changes.promotions|
    ensures Recent(events) != []
    ensures var raft := RaftMap(Recent(events)[|Recent(events)| - 1].inputs.raftConfig);
            var id := changes.promotions[i];
            && |Plan(StateAfter(events), changes)| == |changes.promotions|
            && id in raft && Plan(StateAfter(events), changes)[i] == AddVoter(id, raft[id].address)
  {
    EveryPromotionIsApplied(conf, StateAfter(events), now, later, changes);
    HistoryIsKeyed(memory, nodeTypes, events);
    RecordsOverHistory(memory, nodeTypes, events, changes.promotions[i]);
  }

  /** Whom the StablePromoter proposes, said of the updates alone: a server that is a non-voter in
      Raft at the last one, not taken for the leader and healthy, and that joined at least the
      stabilization time ago, if the first update is longer ago than that. */
  lemma ProposedExactly(nodeTypes: (Config, State) -> map<Id, NodeType>, events: seq<Event>, conf: Config, now: Time, later: Time, id: Id)
    requires IsHistory(Aliased, nodeTypes, events) && id in StateAfter(events).servers
    requires forall u :: u in Recent(events) ==> u.inputs.now != ZERO_TIME
    ensures var us := Recent(events);
            && us != []
            && var inputs := us[|us| - 1].inputs;
               && id in RaftMap(inputs.raftConfig)
               && (id in StableIds(conf, StateAfter(events), now, later) <==>
                   && RaftMap(inputs.raftConfig)[id].suffrage == Nonvoter && id != inputs.leaderId
                   && HealthyAt(us[|us| - 1], id)
                   && var age := now - us[PresenceStart(us, id)].inputs.now;
                      age >= if later - us[0].inputs.now > conf.serverStabilizationTime then conf.serverStabilizationTime else 0)
  {
    RecordsOverHistory(Aliased, nodeTypes, events, id);
    FirstStateTimeOverHistory(Aliased, nodeTypes, events);
    NonVoterInRaft(Recent(events)[|Recent(events)| - 1].inputs, id, StateAfter(events).servers[id]);
    if later - StateAfter(events).firstStateTime > conf.serverStabilizationTime {
      ProposedIff(nodeTypes, events, conf, now, later, id);
    } else {
      YoungProposedIff(nodeTypes, events, conf, now, later, id);
    }
  }

  lemma NonVoterInRaft(inputs: Inputs, id: Id, s: ServerState)
    requires id in RaftMap(inputs.raftConfig) && RecordedAs(s, Aliased, inputs, RaftMap(inputs.raftConfig)[id])
    ensures s.state == RaftNonVoter <==> RaftMap(inputs.raftConfig)[id].suffrage == Nonvoter && id != inputs.leaderId
  {
    RaftMapKeys(inputs.raftConfig);
  }
}
