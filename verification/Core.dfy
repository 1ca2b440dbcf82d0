/** The Autopilot struct, its delegate and its promoter. */
module Core {
  import opened Ids
  import opened Types
  import opened RaftCluster

  /** The parts of the Promoter interface whose answers feed the core. */
  datatype Promoter = Promoter(
    isPotentialVoter: NodeType -> bool,
    filterRemovals: (Config, State, FailedServers) -> FailedServers)

  /** The consuming application. */
  class Delegate {
    var known: map<Id, Server>
    /** Every answer AutopilotConfig has given; None is a nil pointer. */
    ghost var configReads: seq<Option<Config>>
    /** Every server RemoveFailedServer has been called with. */
    ghost var removed: seq<Server>

    constructor (known: map<Id, Server>)
      ensures this.known == known && configReads == [] && removed == []
    {
      this.known := known;
      configReads, removed := [], [];
    }

    /** The application may answer differently every time. */
    method AutopilotConfig() returns (conf: Option<Config>)
      modifies this`configReads
      ensures configReads == old(configReads) + [conf]
    {
      conf := *;
      configReads := configReads + [conf];
    }

    method RemoveFailedServer(srv: Server)
      modifies this`removed
      ensures removed == old(removed) + [srv]
    {
      removed := removed + [srv];
    }
  }

  class Autopilot {
    const raft: Raft
    const delegate: Delegate
    const promoter: Promoter
    var state: State
    var reconciliationEnabled: bool
    /** removeDeadCh, a channel that holds one trigger. */
    var removeDeadPending: bool

    constructor (raft: Raft, delegate: Delegate, promoter: Promoter)
      ensures this.raft == raft && this.delegate == delegate && this.promoter == promoter
      ensures state == EMPTY_STATE && reconciliationEnabled && !removeDeadPending
    {
      this.raft, this.delegate, this.promoter := raft, delegate, promoter;
      state, reconciliationEnabled, removeDeadPending := EMPTY_STATE, true, false;
    }

    /** A trigger is dropped when one is already waiting. */
    method RemoveDeadServers()
      modifies this`removeDeadPending
      ensures removeDeadPending
    {
      if !removeDeadPending {
        removeDeadPending := true;
      }
    }
  }
}
