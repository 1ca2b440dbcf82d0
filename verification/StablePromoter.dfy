/** stable_promoter.go, and what its promotions rest on. */
module StablePromoter {
  import opened Ids
  import opened Sorting
  import opened Types
  import opened RaftCluster
  import opened Classification
  import opened Prune
  import opened PruneSafety
  import opened PruneTheorems
  import opened ServerOrder
  import opened StateBuild
  import opened StateUpdate
  import opened StateTheorems
  import opened History
  import opened Reconcile

  /** The servers to promote at `now`, with the stabilization time judged at a slightly later reading
      of the clock. */
  function StableIds(conf: Config, state: State, now: Time, later: Time): set<Id> {
    set id | id in state.servers && state.servers[id].state == RaftNonVoter
             && state.servers[id].health.IsStable(now, state.StabilizationTime(conf, later))
  }

  /** The promotions come in map order; there are never demotions nor a transfer. */
  method CalculatePromotionsAndDemotions(conf: Config, state: State, now: Time, later: Time) returns (changes: RaftChanges)
    ensures Distinct(changes.promotions) && ToSet(changes.promotions) == StableIds(conf, state, now, later)
    ensures changes.demotions == [] && changes.leader == ""
  {
    var promotions: seq<Id> := [];
    var minStableDuration := state.StabilizationTime(conf, later);
    ghost var stable := StableIds(conf, state, now, later);
    var left := state.servers.Keys;
    assert stable - left == {};
    while left != {}
      invariant left <= state.servers.Keys
      invariant Distinct(promotions) && ToSet(promotions) == stable - left
      decreases left
    {
      var id :| id in left;
      OneFewerLeft(stable, left, id);
      left := left - {id};
      var server := state.servers[id];
      if server.state == RaftNonVoter && server.health.IsStable(now, minStableDuration) {
        OneMoreDistinct(promotions, id);
        promotions := promotions + [id];
      }
    }
    assert stable - left == stable;
    changes := RaftChanges(promotions, [], "");
  }

  predicate IsPotentialVoter(nodeType: NodeType) {
    nodeType == NodeVoter
  }

  function FilterFailedServerRemovals(conf: Config, state: State, failed: FailedServers): (kept: FailedServers)
    ensures kept == failed && Selects(kept, failed)
  {
    failed
  }

  /** Every server is to be a voter, whatever the order in which the state lists its voters. */
  function GetNodeTypes(conf: Config, state: State): (types: map<Id, NodeType>)
    ensures types.Keys == state.servers.Keys
    ensures forall id :: id in types ==> types[id] == NodeVoter
  {
    map id | id in state.servers :: NodeVoter
  }

  /** So states computed with this promoter are functions of their inputs. */
  lemma StableStateIsForced(memory: HealthMemory, inputs: Inputs, r: State, s: State)
    requires IsNextState(memory, inputs, TypesFor(GetNodeTypes, inputs.config), r)
    requires IsNextState(memory, inputs, TypesFor(GetNodeTypes, inputs.config), s)
    ensures r == s
  {
    var servers := NextServers(memory, inputs);
    forall x, y | VoterOrder(servers, x) && VoterOrder(servers, y)
      ensures TypedFor(servers, inputs, TypesFor(GetNodeTypes, inputs.config), x) ==
              TypedFor(servers, inputs, TypesFor(GetNodeTypes, inputs.config), y)
    {
      TypesIgnoreOrder(servers, inputs, x, y);
    }
    SameTypesSameState(memory, inputs, TypesFor(GetNodeTypes, inputs.config), r, s);
  }

  lemma TypesIgnoreOrder(servers: Servers, inputs: Inputs, x: seq<Id>, y: seq<Id>)
    ensures TypedFor(servers, inputs, TypesFor(GetNodeTypes, inputs.config), x) ==
            TypedFor(servers, inputs, TypesFor(GetNodeTypes, inputs.config), y)
  {
    var dx := Draft(servers, inputs.firstStateTime, inputs.leaderId, x);
    var dy := Draft(servers, inputs.firstStateTime, inputs.leaderId, y);
    assert GetNodeTypes(inputs.config, dx) == GetNodeTypes(inputs.config, dy);
  }

  lemma {:induction false} AllPromoted(state: State, ids: seq<Id>)
    requires forall id :: id in ids ==> Promotable(state, id)
    ensures |Promotions(state, ids)| == |ids|
    ensures forall i :: 0 <= i < |ids| ==>
              && ids[i] in state.servers
              && Promotions(state, ids)[i] == AddVoter(state.servers[ids[i]].server.id, state.servers[ids[i]].server.address)
  {
    if ids != [] {
      var n := |ids| - 1;
      assert forall id :: id in ids[..n] ==> id in ids;
      assert ids[n] in ids;
      AllPromoted(state, ids[..n]);
    }
  }

  /** No filter of applyPromotions drops anything the promoter proposes: the round's plan is one
      AddVoter for each stable non-voter, and nothing else. */
  lemma EveryPromotionIsApplied(conf: Config, state: State, now: Time, later: Time, changes: RaftChanges)
    requires Distinct(changes.promotions) && ToSet(changes.promotions) == StableIds(conf, state, now, later)
    requires changes.demotions == [] && changes.leader == ""
    ensures var plan, ids := Plan(state, changes), changes.promotions;
            && |plan| == |ids|
            && forall i :: 0 <= i < |ids| ==>
                 && ids[i] in state.servers
                 && plan[i] == AddVoter(state.servers[ids[i]].server.id, state.servers[ids[i]].server.address)
  {
    forall id | id in changes.promotions ensures Promotable(state, id) {
      assert id in ToSet(changes.promotions);
    }
    AllPromoted(state, changes.promotions);
  }

  /** A server promoted once autopilot has run for longer than the stabilization time has been in the
      Raft configuration at every update from one at least that long ago; were the previous health
      copied, it would also have been healthy at every one of them. */
  lemma {:induction false} PromotedHasBeenStable(memory: HealthMemory, nodeTypes: (Config, State) -> map<Id, NodeType>, events: seq<Event>,
                                                 conf: Config, now: Time, later: Time, id: Id)
    requires IsHistory(memory, nodeTypes, events)
    requires later - StateAfter(events).firstStateTime > conf.serverStabilizationTime
    requires id in StableIds(conf, StateAfter(events), now, later)
    ensures var us := Recent(events);
            && us != []
            && var k := Anchor(memory, us, id);
               && now - us[k].inputs.now >= conf.serverStabilizationTime
               && (forall i :: k <= i < |us| ==> Tracks(us[i], id))
               && HealthyAt(us[|us| - 1], id)
               && (memory == Copied ==> forall i :: k <= i < |us| ==> HealthyAt(us[i], id))
  {
    StateIsRecent(events);
    StableSinceOverHistory(memory, nodeTypes, events, id);
    PresenceStartMeaning(Recent(events), id);
    LastChangeMeaning(Recent(events), id);
  }

  /** As the code is written the second half fails: a server that was unhealthy at the update before
      the last is proposed all the same, exactly when it joined the configuration long enough ago. */
  lemma ProposedIff(nodeTypes: (Config, State) -> map<Id, NodeType>, events: seq<Event>, conf: Config, now: Time, later: Time, id: Id)
    requires IsHistory(Aliased, nodeTypes, events) && id in StateAfter(events).servers
    requires later - StateAfter(events).firstStateTime > conf.serverStabilizationTime
    ensures var us := Recent(events);
            && us != []
            && (id in StableIds(conf, StateAfter(events), now, later) <==>
                && StateAfter(events).servers[id].state == RaftNonVoter
                && HealthyAt(us[|us| - 1], id)
                && now - us[PresenceStart(us, id)].inputs.now >= conf.serverStabilizationTime)
  {
    StateIsRecent(events);
    StableSinceOverHistory(Aliased, nodeTypes, events, id);
  }

  /** Until autopilot has run for longer than the stabilization time, that time does not count: a
      non-voter that is healthy at the last update is proposed at once, unless the clock has gone back
      behind the update at which it joined. */
  lemma YoungProposedIff(nodeTypes: (Config, State) -> map<Id, NodeType>, events: seq<Event>, conf: Config, now: Time, later: Time, id: Id)
    requires IsHistory(Aliased, nodeTypes, events) && id in StateAfter(events).servers
    requires later - StateAfter(events).firstStateTime <= conf.serverStabilizationTime
    ensures var us := Recent(events);
            && us != []
            && (id in StableIds(conf, StateAfter(events), now, later) <==>
                && StateAfter(events).servers[id].state == RaftNonVoter
                && HealthyAt(us[|us| - 1], id)
                && now >= us[PresenceStart(us, id)].inputs.now)
  {
    StateIsRecent(events);
    StableSinceOverHistory(Aliased, nodeTypes, events, id);
  }

  /** Pruning and promotion agree on one view of the cluster: what a round may remove is neither
      healthy nor proposed in the state computed from that view. */
  lemma PrunedIsNotPromotable(memory: HealthMemory, inputs: Inputs, nodeTypes: State -> map<Id, NodeType>, r: State,
                              f: FailedServers, isPotential: NodeType -> bool, q: Quorums,
                              conf: Config, now: Time, later: Time, id: Id)
    requires KeyedById(inputs.known) && IsNextState(memory, inputs, nodeTypes, r)
    requires Selects(f, Classify(RaftMap(inputs.raftConfig), inputs.known))
    requires NoNilEntry(f, RollOf(RaftMap(inputs.raftConfig), inputs.known, isPotential), q)
    requires id in RoundOf(f, RollOf(RaftMap(inputs.raftConfig), inputs.known, isPotential), q).Removed()
    ensures id in r.servers && !r.servers[id].health.healthy
    ensures id !in StableIds(conf, r, now, later)
  {
    RemovesOnlyTheDeadOnce(f, RaftMap(inputs.raftConfig), inputs.known, isPotential, q);
    DeadAreUnhealthy(memory, inputs, id);
    NextFacts(memory, inputs, nodeTypes, r);
  }
}
