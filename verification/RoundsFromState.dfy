/** reconcile.go on the states that state.go computes: when the assumptions of the quorum argument
    hold of them, and what a successful round with the StablePromoter achieves. */
module RoundsFromState {
  import opened Ids
  import opened Sorting
  import opened Types
  import opened RaftCluster
  import opened Classification
  import opened ServerOrder
  import opened StateBuild
  import opened StateUpdate
  import opened StateTheorems
  import opened History
  import opened Reconcile
  import opened ReconcileSafety
  import opened StablePromoter

  ghost predicate OwnIds(servers: Servers) {
    forall id :: id in servers ==> servers[id].server.id == id
  }

  lemma NextServersOwnIds(memory: HealthMemory, inputs: Inputs)
    requires KeyedById(inputs.known) && OwnIds(inputs.current)
    ensures OwnIds(NextServers(memory, inputs))
  {
    RaftMapKeys(inputs.raftConfig);
  }

  /** Over every history in which the application keys its servers by id, the state does too. */
  lemma {:induction false} HistoryIsKeyed(memory: HealthMemory, nodeTypes: (Config, State) -> map<Id, NodeType>, events: seq<Event>)
    requires IsHistory(memory, nodeTypes, events)
    requires forall i :: 0 <= i < |events| && events[i].Updated? ==> KeyedById(events[i].update.inputs.known)
    ensures Keyed(StateAfter(events))
  {
    if events != [] {
      var before, last := events[..|events| - 1], events[|events| - 1];
      HistoryIsKeyed(memory, nodeTypes, before);
      if last.Updated? {
        var inputs := last.update.inputs;
        NextServersOwnIds(memory, inputs);
        TypedOwnIds(memory, inputs, TypesFor(nodeTypes, inputs.config), last.update.result);
      }
    }
  }

  lemma TypedOwnIds(memory: HealthMemory, inputs: Inputs, nodeTypes: State -> map<Id, NodeType>, r: State)
    requires IsNextState(memory, inputs, nodeTypes, r) && OwnIds(NextServers(memory, inputs))
    ensures OwnIds(r.servers)
  {
    var servers := NextServers(memory, inputs);
    var order :| VoterOrder(servers, order) && ComesFrom(servers, inputs, nodeTypes, order, r);
  }

  /** Entries of a configuration and of its map by id are the same when ids are unique. */
  lemma MapOfUnique(config: Configuration)
    requires UniqueIds(config)
    ensures forall s :: s in config ==> s.id in RaftMap(config) && RaftMap(config)[s.id] == s
  {
    RaftMapKeys(config);
    forall s | s in config ensures s.id in RaftMap(config) && RaftMap(config)[s.id] == s {
      var t := RaftMap(config)[s.id];
      var i :| 0 <= i < |config| && config[i] == s;
      var j :| 0 <= j < |config| && config[j] == t;
      assert config[i].id == config[j].id;
    }
  }

  /** The voters recorded are Raft's voters exactly when the server taken for the leader is one of
      them, or is not in the configuration at all: whoever the application or the leader's address
      names is recorded as voting, whatever its suffrage. */
  lemma VotersMatchIff(memory: HealthMemory, inputs: Inputs, nodeTypes: State -> map<Id, NodeType>, r: State)
    requires UniqueIds(inputs.raftConfig) && IsNextState(memory, inputs, nodeTypes, r)
    ensures VotersMatch(r, inputs.raftConfig) <==>
            HasId(inputs.raftConfig, inputs.leaderId) ==> inputs.leaderId in VoterIds(inputs.raftConfig)
  {
    LeaderComesFirst(memory, inputs, nodeTypes, r);
    VotingAfterwards(memory, inputs, nodeTypes, r);
  }

  lemma VotingAfterwards(memory: HealthMemory, inputs: Inputs, nodeTypes: State -> map<Id, NodeType>, r: State)
    requires UniqueIds(inputs.raftConfig) && IsNextState(memory, inputs, nodeTypes, r)
    ensures VotingIds(r.servers) ==
            VoterIds(inputs.raftConfig) + if HasId(inputs.raftConfig, inputs.leaderId) then {inputs.leaderId} else {}
  {
    forall id ensures id in VotingIds(r.servers) <==> Voting(inputs.raftConfig, inputs.leaderId, id) {
      VotesIff(memory, inputs, nodeTypes, r, id);
    }
  }

  predicate Voting(config: Configuration, leaderId: Id, id: Id) {
    id in VoterIds(config) || (id == leaderId && HasId(config, id))
  }

  lemma VotesIff(memory: HealthMemory, inputs: Inputs, nodeTypes: State -> map<Id, NodeType>, r: State, id: Id)
    requires UniqueIds(inputs.raftConfig) && IsNextState(memory, inputs, nodeTypes, r)
    ensures id in VotingIds(r.servers) <==> Voting(inputs.raftConfig, inputs.leaderId, id)
  {
    StateRecorded(memory, inputs, nodeTypes, r, id);
    VoterOrNot(inputs.raftConfig, id);
  }

  /** What is recorded of a server of the configuration. */
  lemma StateRecorded(memory: HealthMemory, inputs: Inputs, nodeTypes: State -> map<Id, NodeType>, r: State, id: Id)
    requires IsNextState(memory, inputs, nodeTypes, r)
    ensures id in r.servers <==> id in RaftMap(inputs.raftConfig)
    ensures id in r.servers ==>
              r.servers[id].state == if id == inputs.leaderId then RaftLeader else SuffrageState(RaftMap(inputs.raftConfig)[id].suffrage)
  {
    RaftMapKeys(inputs.raftConfig);
    NextFacts(memory, inputs, nodeTypes, r);
  }

  lemma VoterOrNot(config: Configuration, id: Id)
    requires UniqueIds(config)
    ensures HasId(config, id) <==> id in RaftMap(config)
    ensures id in VoterIds(config) <==> id in RaftMap(config) && RaftMap(config)[id].suffrage == Voter
  {
    RaftMapKeys(config);
    MapOfUnique(config);
    if HasId(config, id) {
      var i :| 0 <= i < |config| && config[i].id == id;
      assert config[i] in config;
    }
  }

  lemma {:induction false} PromotionsAddVoters(config: Configuration, ids: seq<Id>, calls: seq<Call>)
    requires UniqueIds(config) && |calls| == |ids|
    requires forall i :: 0 <= i < |ids| ==> calls[i].ok && calls[i].op.AddVoter? && calls[i].op.id == ids[i]
    ensures UniqueIds(ApplyCalls(config, calls))
    ensures VoterIds(ApplyCalls(config, calls)) == VoterIds(config) + ToSet(ids)
  {
    if ids != [] {
      var n := |ids| - 1;
      PromotionsAddVoters(config, ids[..n], calls[..n]);
      VotersAfter(ApplyCalls(config, calls[..n]), calls[n].op);
      assert ids == ids[..n] + [ids[n]];
      assert ToSet(ids) == ToSet(ids[..n]) + {ids[n]};
    }
  }

  /** A round with the StablePromoter in which nothing fails makes voters of exactly the stable
      non-voters, and loses none. */
  lemma StableRoundAddsExactly(config: Configuration, conf: Config, state: State, now: Time, later: Time,
                               changes: RaftChanges, calls: seq<Call>)
    requires UniqueIds(config) && Keyed(state)
    requires Distinct(changes.promotions) && ToSet(changes.promotions) == StableIds(conf, state, now, later)
    requires changes.demotions == [] && changes.leader == ""
    requires FollowsUntilFailure(Plan(state, changes), calls) && AllOk(calls)
    ensures |calls| == |StableIds(conf, state, now, later)|
    ensures VoterIds(ApplyCalls(config, calls)) == VoterIds(config) + StableIds(conf, state, now, later)
  {
    EveryPromotionIsApplied(conf, state, now, later, changes);
    DistinctLength(changes.promotions);
    assert |calls| == |Plan(state, changes)|;
    PromotionsAddVoters(config, changes.promotions, calls);
  }
}
