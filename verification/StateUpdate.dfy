/** state.go: gathering the inputs of the next state, and storing it. */
module StateUpdate {
  import opened Ids
  import opened Types
  import opened Core
  import opened StateBuild

  /** What an update reads besides the configuration and the application's servers. A last term that
      does not parse is None; `interrupted` is a cancelled context. */
  datatype Readings = Readings(
    now: Time, latestIndex: UInt64, lastTerm: Option<UInt64>, isLeader: bool, raftLeader: Address,
    interrupted: bool, stats: map<Id, ServerStats>)

  /** The first entry at the address. */
  function IdAt(config: Configuration, address: Address): Id {
    if config == [] then ""
    else if config[0].address == address then config[0].id
    else IdAt(config[1..], address)
  }

  /** A known server that says it leads, any of them; failing that, whoever holds Raft's leader
      address. */
  ghost predicate LeaderChoice(known: map<Id, Server>, config: Configuration, raftLeader: Address, id: Id) {
    || (id != "" && id in known && known[id].isLeader)
    || (((forall k :: k in known ==> !known[k].isLeader) || ("" in known && known[""].isLeader))
        && id == IdAt(config, raftLeader))
  }

  /** The fallback, by position: the first entry at the address, and nobody when there is none. */
  lemma {:induction false} IdAtIsFirst(config: Configuration, address: Address)
    ensures (forall i :: 0 <= i < |config| ==> config[i].address != address) ==> IdAt(config, address) == ""
    ensures forall i :: 0 <= i < |config| && config[i].address == address && (forall j :: 0 <= j < i ==> config[j].address != address) ==>
              IdAt(config, address) == config[i].id
  {
    if config != [] && config[0].address != address {
      IdAtIsFirst(config[1..], address);
      assert forall i :: 0 <= i < |config[1..]| ==> config[1..][i] == config[i + 1];
      forall i | 0 <= i < |config| && config[i].address == address && (forall j :: 0 <= j < i ==> config[j].address != address)
        ensures IdAt(config, address) == config[i].id
      {
        assert config[1..][i - 1] == config[i];
      }
    }
  }

  /** The entry is the first one at the address. */
  predicate FirstAt(config: Configuration, address: Address, i: int) {
    0 <= i < |config| && config[i].address == address && forall j :: 0 <= j < i ==> config[j].address != address
  }

  /** The answers there can be: a known server that says it leads, or, when none does (or only one
      without an id might have been met first), the id of the first entry at Raft's leader address,
      and "" when there is none. */
  lemma LeaderByPosition(known: map<Id, Server>, config: Configuration, raftLeader: Address, id: Id)
    ensures LeaderChoice(known, config, raftLeader, id) <==>
            || (id != "" && id in known && known[id].isLeader)
            || (((forall k :: k in known ==> !known[k].isLeader) || ("" in known && known[""].isLeader))
                && (|| (exists i :: FirstAt(config, raftLeader, i) && id == config[i].id)
                    || (id == "" && forall i :: 0 <= i < |config| ==> config[i].address != raftLeader)))
  {
    IdAtIsFirst(config, raftLeader);
    if i :| 0 <= i < |config| && config[i].address == raftLeader {
      var first := LeastAt(config, raftLeader, i);
      assert FirstAt(config, raftLeader, first);
    }
  }

  lemma {:induction false} LeastAt(config: Configuration, address: Address, i: nat) returns (first: nat)
    requires i < |config| && config[i].address == address
    ensures FirstAt(config, address, first)
    decreases i
  {
    first := i;
    if j :| 0 <= j < i && config[j].address == address {
      first := LeastAt(config, address, j);
    }
  }

  method DetermineLeader(known: map<Id, Server>, config: Configuration, raftLeader: Address) returns (leaderId: Id)
    ensures LeaderChoice(known, config, raftLeader, leaderId)
  {
    leaderId := "";
    var left := known.Keys;
    while left != {}
      invariant left <= known.Keys && leaderId == ""
      invariant forall k :: k in known && k !in left ==> !known[k].isLeader
      decreases left
    {
      var id :| id in left;
      left := left - {id};
      if known[id].isLeader {
        leaderId := id;
        break;
      }
    }
    if leaderId == "" {
      for i := 0 to |config|
        invariant leaderId == "" && IdAt(config[i..], raftLeader) == IdAt(config, raftLeader)
      {
        assert config[i..][1..] == config[i + 1..];
        if config[i].address == raftLeader {
          leaderId := config[i].id;
          return;
        }
      }
    }
  }

  /** The choice is forced exactly when no two different answers qualify. */
  lemma LeaderIsForcedIff(known: map<Id, Server>, config: Configuration, raftLeader: Address)
    requires "" !in known
    ensures (forall a, b :: LeaderChoice(known, config, raftLeader, a) && LeaderChoice(known, config, raftLeader, b) ==> a == b)
            <==> (forall a, b :: a in known && b in known && known[a].isLeader && known[b].isLeader ==> a == b)
  {
    if forall a, b :: LeaderChoice(known, config, raftLeader, a) && LeaderChoice(known, config, raftLeader, b) ==> a == b {
      forall a, b | a in known && b in known && known[a].isLeader && known[b].isLeader ensures a == b {
        assert LeaderChoice(known, config, raftLeader, a) && LeaderChoice(known, config, raftLeader, b);
      }
    }
  }

  /** The first state of a series dates itself. */
  function FirstStateTime(current: State, now: Time): Time {
    if current.firstStateTime == ZERO_TIME then now else current.firstStateTime
  }

  /** The servers come from the state read under the lock, `snapshot`; the first state's time from
      a.state itself, `reread`. */
  ghost predicate Gathered(inputs: Inputs, snapshot: State, reread: State, config: Configuration, known: map<Id, Server>, r: Readings) {
    && LeaderChoice(known, config, r.raftLeader, inputs.leaderId)
    && r.lastTerm.Some?
    && inputs == Inputs(r.now, FirstStateTime(reread, r.now), inputs.config, config, known, r.latestIndex,
                        r.lastTerm.value, r.stats, inputs.leaderId, r.isLeader, snapshot.servers)
  }

  /** What the application and Raft have to answer for inputs to come of it. Raft is not asked when
      the application has no configuration. */
  predicate AllAnswered(conf: Option<Config>, config: Option<Configuration>, r: Readings) {
    conf.Some? && config.Some? && r.lastTerm.Some? && !r.interrupted
  }

  /** `snapshot` is what GetState returned. */
  method GatherNextStateInputs(a: Autopilot, snapshot: State, r: Readings)
    returns (inputs: Option<Inputs>, ghost conf: Option<Config>, ghost raftConfig: Option<Configuration>)
    modifies a.delegate`configReads, a.raft`answers
    ensures a.delegate.configReads == old(a.delegate.configReads) + [conf]
    ensures a.raft.answers == old(a.raft.answers) + if conf.Some? then [raftConfig.Some?] else []
    ensures raftConfig.Some? ==> raftConfig.value == a.raft.servers
    ensures inputs.Some? <==> AllAnswered(conf, raftConfig, r)
    ensures inputs.Some? ==>
              && Gathered(inputs.value, snapshot, a.state, a.raft.servers, a.delegate.known, r)
              && inputs.value.config == conf.value
  {
    raftConfig := None;
    var firstStateTime := a.state.firstStateTime;
    if firstStateTime == ZERO_TIME {
      firstStateTime := r.now;
    }
    var config := a.delegate.AutopilotConfig();
    conf := config;
    if config.None? {
      return None, conf, raftConfig;
    }
    var servers := a.raft.GetConfiguration();
    raftConfig := servers;
    if servers.None? {
      return None, conf, raftConfig;
    }
    var known := a.delegate.known;
    var leaderId := DetermineLeader(known, servers.value, r.raftLeader);
    if r.lastTerm.None? || r.interrupted {
      return None, conf, raftConfig;
    }
    inputs := Some(Inputs(r.now, firstStateTime, config.value, servers.value, known, r.latestIndex,
                          r.lastTerm.value, r.stats, leaderId, r.isLeader, snapshot.servers));
  }

  function TypesFor(nodeTypes: (Config, State) -> map<Id, NodeType>, conf: Config): State -> map<Id, NodeType> {
    s => nodeTypes(conf, s)
  }

  /** updateState, with nobody else assigning a.state meanwhile: a failed gathering leaves the state
      alone; otherwise what is stored was computed from the state it replaces. */
  method UpdateState(a: Autopilot, r: Readings, nodeTypes: (Config, State) -> map<Id, NodeType>)
    returns (stored: bool, ghost inputs: Option<Inputs>, ghost conf: Option<Config>, ghost raftConfig: Option<Configuration>)
    modifies a.delegate`configReads, a.raft`answers, a`state
    ensures a.delegate.configReads == old(a.delegate.configReads) + [conf]
    ensures a.raft.answers == old(a.raft.answers) + if conf.Some? then [raftConfig.Some?] else []
    ensures raftConfig.Some? ==> raftConfig.value == a.raft.servers
    ensures stored == inputs.Some? == AllAnswered(conf, raftConfig, r)
    ensures !stored ==> a.state == old(a.state)
    ensures stored ==>
              && Gathered(inputs.value, old(a.state), old(a.state), a.raft.servers, a.delegate.known, r)
              && inputs.value.config == conf.value
              && IsNextState(Aliased, inputs.value, TypesFor(nodeTypes, inputs.value.config), a.state)
  {
    var gathered;
    gathered, conf, raftConfig := GatherNextStateInputs(a, a.state, r);
    inputs := gathered;
    if gathered.None? {
      return false, inputs, conf, raftConfig;
    }
    var newState := NextStateWithInputs(gathered.value, TypesFor(nodeTypes, gathered.value.config));
    a.state := newState;
    stored := true;
  }
}
