/** state.go over whole histories of updates. */
module History {
  import opened Ids
  import opened IdLists
  import opened Types
  import opened Classification
  import opened ServerOrder
  import opened StateBuild
  import opened StateUpdate
  import opened StateTheorems

  /** What happens to the stored state: an update, an update that fails, the reset at the end of an
      execution. */
  datatype Event = Updated(update: Update) | UpdateFailed | Cleared
  datatype Update = Update(inputs: Inputs, result: State)

  function StateAfter(events: seq<Event>): State {
    if events == [] then EMPTY_STATE
    else
      match events[|events| - 1]
      case Updated(u) => u.result
      case UpdateFailed => StateAfter(events[..|events| - 1])
      case Cleared => EMPTY_STATE
  }

  /** Each update starts from the state the events before it left. */
  ghost predicate UpdatesFrom(memory: HealthMemory, nodeTypes: (Config, State) -> map<Id, NodeType>, before: State, u: Update) {
    && u.inputs.current == before.servers
    && u.inputs.firstStateTime == FirstStateTime(before, u.inputs.now)
    && IsNextState(memory, u.inputs, TypesFor(nodeTypes, u.inputs.config), u.result)
  }

  ghost predicate IsHistory(memory: HealthMemory, nodeTypes: (Config, State) -> map<Id, NodeType>, events: seq<Event>) {
    events == []
    || (var before, last := events[..|events| - 1], events[|events| - 1];
        && IsHistory(memory, nodeTypes, before)
        && (last.Updated? ==> UpdatesFrom(memory, nodeTypes, StateAfter(before), last.update)))
  }

  /** The events after which a.state is `state` are extended by every update that stores a result. */
  lemma StoringExtendsHistory(nodeTypes: (Config, State) -> map<Id, NodeType>, events: seq<Event>,
                              config: Configuration, known: map<Id, Server>, r: Readings, inputs: Inputs, after: State)
    requires IsHistory(Aliased, nodeTypes, events)
    requires Gathered(inputs, StateAfter(events), StateAfter(events), config, known, r)
    requires IsNextState(Aliased, inputs, TypesFor(nodeTypes, inputs.config), after)
    ensures IsHistory(Aliased, nodeTypes, events + [Updated(Update(inputs, after))])
    ensures StateAfter(events + [Updated(Update(inputs, after))]) == after
  {
    var more := events + [Updated(Update(inputs, after))];
    assert more[..|more| - 1] == events;
  }

  /** The updates since the last reset. */
  function Recent(events: seq<Event>): seq<Update> {
    if events == [] then []
    else
      var before := Recent(events[..|events| - 1]);
      match events[|events| - 1]
      case Updated(u) => before + [u]
      case UpdateFailed => before
      case Cleared => []
  }

  /** The stored state is the last update's since the reset, and empty when there is none. */
  lemma {:induction false} StateIsRecent(events: seq<Event>)
    ensures StateAfter(events) == if Recent(events) == [] then EMPTY_STATE else Recent(events)[|Recent(events)| - 1].result
  {
    if events != [] {
      StateIsRecent(events[..|events| - 1]);
    }
  }

  predicate Tracks(u: Update, id: Id) {
    id in u.result.servers
  }

  predicate HealthyAt(u: Update, id: Id) {
    Tracks(u, id) && u.result.servers[id].health.healthy
  }

  /** The first update of the unbroken presence that reaches the last update. */
  function PresenceStart(us: seq<Update>, id: Id): (k: nat)
    requires us != []
    ensures k < |us|
  {
    var n := |us| - 1;
    if n == 0 || !Tracks(us[n - 1], id) then n else PresenceStart(us[..n], id)
  }

  /** The last update at which the server appeared or its health flipped. */
  function LastChange(us: seq<Update>, id: Id): (k: nat)
    requires us != []
    ensures k < |us|
  {
    var n := |us| - 1;
    if n == 0 || !Tracks(us[n - 1], id) || HealthyAt(us[n - 1], id) != HealthyAt(us[n], id) then n
    else LastChange(us[..n], id)
  }

  lemma {:induction false} PresenceStartMeaning(us: seq<Update>, id: Id)
    requires us != [] && Tracks(us[|us| - 1], id)
    ensures var k := PresenceStart(us, id);
            && (forall i :: k <= i < |us| ==> Tracks(us[i], id))
            && (k > 0 ==> !Tracks(us[k - 1], id))
  {
    var n := |us| - 1;
    if n > 0 && Tracks(us[n - 1], id) {
      PresenceStartMeaning(us[..n], id);
    }
  }

  lemma {:induction false} LastChangeMeaning(us: seq<Update>, id: Id)
    requires us != [] && Tracks(us[|us| - 1], id)
    ensures var k := LastChange(us, id);
            && PresenceStart(us, id) <= k
            && (forall i :: k <= i < |us| ==> Tracks(us[i], id) && HealthyAt(us[i], id) == HealthyAt(us[|us| - 1], id))
            && (k > 0 ==> !Tracks(us[k - 1], id) || HealthyAt(us[k - 1], id) != HealthyAt(us[k], id))
  {
    var n := |us| - 1;
    if n > 0 && Tracks(us[n - 1], id) {
      if HealthyAt(us[n - 1], id) == HealthyAt(us[n], id) {
        LastChangeMeaning(us[..n], id);
      }
    }
  }

  function Anchor(memory: HealthMemory, us: seq<Update>, id: Id): (k: nat)
    requires us != []
    ensures k < |us|
  {
    if memory == Aliased then PresenceStart(us, id) else LastChange(us, id)
  }

  /** What an update leaves of each server, typing aside. */
  lemma NextFacts(memory: HealthMemory, inputs: Inputs, nodeTypes: State -> map<Id, NodeType>, r: State)
    requires IsNextState(memory, inputs, nodeTypes, r)
    ensures r.firstStateTime == inputs.firstStateTime
    ensures r.servers.Keys == RaftMap(inputs.raftConfig).Keys
    ensures forall id :: id in r.servers ==>
              && r.servers[id].health == NextServers(memory, inputs)[id].health
              && r.servers[id].state == NextServers(memory, inputs)[id].state
  {
    var servers := NextServers(memory, inputs);
    var order :| VoterOrder(servers, order) && ComesFrom(servers, inputs, nodeTypes, order, r);
    TypingKeepsOrder(servers, nodeTypes(Draft(servers, inputs.firstStateTime, inputs.leaderId, order)));
  }

  lemma UpdateHealth(memory: HealthMemory, nodeTypes: (Config, State) -> map<Id, NodeType>, before: State, u: Update, id: Id)
    requires UpdatesFrom(memory, nodeTypes, before, u) && Tracks(u, id)
    ensures u.result.servers[id].health.stableSince ==
            if id !in before.servers then u.inputs.now
            else if memory == Copied && before.servers[id].health.healthy != HealthyAt(u, id) then u.inputs.now
            else before.servers[id].health.stableSince
  {
    NextFacts(memory, u.inputs, TypesFor(nodeTypes, u.inputs.config), u.result);
    RaftMapKeys(u.inputs.raftConfig);
  }

  /** StableSince over every history. As the code is written it is the time of the first update of
      the server's current unbroken presence in the Raft configuration; with the previous health
      copied it would be the time of the last update at which the server appeared or its health
      flipped. */
  lemma {:induction false} StableSinceOverHistory(memory: HealthMemory, nodeTypes: (Config, State) -> map<Id, NodeType>, events: seq<Event>, id: Id)
    requires IsHistory(memory, nodeTypes, events)
    requires id in StateAfter(events).servers
    ensures Recent(events) != []
    ensures StateAfter(events).servers[id].health.stableSince ==
            Recent(events)[Anchor(memory, Recent(events), id)].inputs.now
  {
    var n := |events| - 1;
    var before := events[..n];
    match events[n]
    case UpdateFailed =>
      StableSinceOverHistory(memory, nodeTypes, before, id);
    case Cleared =>
    case Updated(u) =>
      if id in StateAfter(before).servers {
        StableSinceOverHistory(memory, nodeTypes, before, id);
      }
      AnchorStep(memory, nodeTypes, before, u, id);
  }

  lemma AnchorStep(memory: HealthMemory, nodeTypes: (Config, State) -> map<Id, NodeType>, before: seq<Event>, u: Update, id: Id)
    requires UpdatesFrom(memory, nodeTypes, StateAfter(before), u) && Tracks(u, id)
    requires id in StateAfter(before).servers ==>
               && Recent(before) != []
               && StateAfter(before).servers[id].health.stableSince ==
                  Recent(before)[Anchor(memory, Recent(before), id)].inputs.now
    ensures u.result.servers[id].health.stableSince ==
            (Recent(before) + [u])[Anchor(memory, Recent(before) + [u], id)].inputs.now
  {
    StateIsRecent(before);
    UpdateHealth(memory, nodeTypes, StateAfter(before), u, id);
    AnchorMoves(memory, Recent(before), u, id);
  }

  lemma AnchorMoves(memory: HealthMemory, us: seq<Update>, u: Update, id: Id)
    ensures var k := Anchor(memory, us + [u], id);
            if us == [] || !Tracks(us[|us| - 1], id) || (memory == Copied && HealthyAt(us[|us| - 1], id) != HealthyAt(u, id))
            then k == |us|
            else k == Anchor(memory, us, id)
  {
    assert (us + [u])[..|us|] == us;
    assert us != [] ==> (us + [u])[|us| - 1] == us[|us| - 1];
  }

  ghost predicate MonotoneClock(us: seq<Update>) {
    forall i, j :: 0 <= i < j < |us| ==> us[i].inputs.now <= us[j].inputs.now
  }

  ghost predicate StrictClock(us: seq<Update>) {
    forall i, j :: 0 <= i < j < |us| ==> us[i].inputs.now < us[j].inputs.now
  }

  /** The first state's time is that of the first update since the reset. */
  lemma {:induction false} FirstStateTimeOverHistory(memory: HealthMemory, nodeTypes: (Config, State) -> map<Id, NodeType>, events: seq<Event>)
    requires IsHistory(memory, nodeTypes, events) && Recent(events) != []
    requires forall u :: u in Recent(events) ==> u.inputs.now != ZERO_TIME
    ensures StateAfter(events).firstStateTime == Recent(events)[0].inputs.now
  {
    var n := |events| - 1;
    var before := events[..n];
    match events[n]
    case UpdateFailed =>
      FirstStateTimeOverHistory(memory, nodeTypes, before);
    case Cleared =>
    case Updated(u) =>
      StateIsRecent(before);
      NextFacts(memory, u.inputs, TypesFor(nodeTypes, u.inputs.config), u.result);
      assert forall v :: v in Recent(before) ==> v in Recent(events);
      if Recent(before) != [] {
        FirstStateTimeOverHistory(memory, nodeTypes, before);
        assert Recent(before)[0] in Recent(before);
      }
  }

  /** Both variants, on a monotone clock: firstStateTime <= StableSince <= Now. */
  lemma StableSinceBounds(memory: HealthMemory, nodeTypes: (Config, State) -> map<Id, NodeType>, events: seq<Event>, id: Id)
    requires IsHistory(memory, nodeTypes, events) && id in StateAfter(events).servers
    requires MonotoneClock(Recent(events)) && forall u :: u in Recent(events) ==> u.inputs.now != ZERO_TIME
    ensures var us := Recent(events);
            && us != []
            && StateAfter(events).firstStateTime <= StateAfter(events).servers[id].health.stableSince <= us[|us| - 1].inputs.now
  {
    StableSinceOverHistory(memory, nodeTypes, events, id);
    FirstStateTimeOverHistory(memory, nodeTypes, events);
    var us := Recent(events);
    var k := Anchor(memory, us, id);
    assert us[0].inputs.now <= us[k].inputs.now <= us[|us| - 1].inputs.now;
  }

  /** The documented meaning of StableSince, read off a history: the time of the last change. */
  function DocumentedStableSince(us: seq<Update>, id: Id): Time
    requires us != []
  {
    us[LastChange(us, id)].inputs.now
  }

  ghost predicate NeverFlipped(us: seq<Update>, id: Id)
    requires us != []
  {
    forall i :: PresenceStart(us, id) <= i < |us| ==> HealthyAt(us[i], id) == HealthyAt(us[|us| - 1], id)
  }

  /** The code keeps the documented meaning exactly for servers whose health has not changed since
      they joined the configuration. */
  lemma DocumentedIffNeverFlipped(nodeTypes: (Config, State) -> map<Id, NodeType>, events: seq<Event>, id: Id)
    requires IsHistory(Aliased, nodeTypes, events) && id in StateAfter(events).servers
    requires StrictClock(Recent(events))
    ensures Recent(events) != []
    ensures StateAfter(events).servers[id].health.stableSince == DocumentedStableSince(Recent(events), id)
            <==> NeverFlipped(Recent(events), id)
  {
    StableSinceOverHistory(Aliased, nodeTypes, events, id);
    StateIsRecent(events);
    SameAnchorIff(Recent(events), id);
    var us := Recent(events);
    assert us[LastChange(us, id)].inputs.now == us[PresenceStart(us, id)].inputs.now
           <==> LastChange(us, id) == PresenceStart(us, id);
  }

  lemma {:induction false} SameAnchorIff(us: seq<Update>, id: Id)
    requires us != [] && Tracks(us[|us| - 1], id)
    ensures PresenceStart(us, id) <= LastChange(us, id)
    ensures LastChange(us, id) == PresenceStart(us, id) <==> NeverFlipped(us, id)
  {
    PresenceStartMeaning(us, id);
    LastChangeMeaning(us, id);
    var k := LastChange(us, id);
    if k > PresenceStart(us, id) {
      assert Tracks(us[k - 1], id);
      assert HealthyAt(us[k - 1], id) != HealthyAt(us[|us| - 1], id);
    }
  }

  /** The copied variant always keeps it. */
  lemma CopiedIsDocumented(nodeTypes: (Config, State) -> map<Id, NodeType>, events: seq<Event>, id: Id)
    requires IsHistory(Copied, nodeTypes, events) && id in StateAfter(events).servers
    ensures Recent(events) != []
    ensures StateAfter(events).servers[id].health.stableSince == DocumentedStableSince(Recent(events), id)
  {
    StableSinceOverHistory(Copied, nodeTypes, events, id);
  }

  // Two updates are enough to tell the variants apart.

  /** Any inputs lead to some state. */
  lemma SomeNextState(memory: HealthMemory, inputs: Inputs, nodeTypes: State -> map<Id, NodeType>) returns (r: State)
    ensures IsNextState(memory, inputs, nodeTypes, r)
  {
    var order := Listing(VotingIds(NextServers(memory, inputs)));
    r := StateFrom(memory, inputs, nodeTypes, order);
  }

  /** A cluster of one leading server, in touch or not. */
  function OneServer(now: Time, firstStateTime: Time, alive: bool, current: Servers): Inputs {
    Inputs(now, firstStateTime, Config(false, 10, 0, 1, 5), [RaftServer("a", "addr", Voter)],
           map["a" := Server("a", "addr", if alive then NodeAlive else NodeFailed, true, NodeVoter)],
           7, 3, map["a" := ServerStats(0, 3, 7)], "a", true, current)
  }

  lemma OneServerHealth(now: Time, firstStateTime: Time, alive: bool, current: Servers)
    ensures var inputs := OneServer(now, firstStateTime, alive, current);
            && RaftMap(inputs.raftConfig) == map["a" := RaftServer("a", "addr", Voter)]
            && NextHealthy(inputs, RaftServer("a", "addr", Voter)) == alive
  {
    var inputs := OneServer(now, firstStateTime, alive, current);
    assert inputs.raftConfig[..0] == [];
  }

  lemma OneUpdate(memory: HealthMemory, nodeTypes: (Config, State) -> map<Id, NodeType>, before: State, now: Time, alive: bool)
    returns (u: Update)
    requires before == EMPTY_STATE || (before.firstStateTime == 1 && before.servers.Keys == {"a"})
    requires before == EMPTY_STATE ==> now == 1
    ensures u.inputs == OneServer(now, 1, alive, before.servers)
    ensures UpdatesFrom(memory, nodeTypes, before, u)
    ensures u.result.firstStateTime == 1 && u.result.servers.Keys == {"a"}
    ensures u.result.servers["a"].health ==
            ServerHealth(alive, if before == EMPTY_STATE || (memory == Copied && before.servers["a"].health.healthy != alive)
                                then now else before.servers["a"].health.stableSince)
  {
    var inputs := OneServer(now, 1, alive, before.servers);
    var r := SomeNextState(memory, inputs, TypesFor(nodeTypes, inputs.config));
    OneServerHealth(now, 1, alive, before.servers);
    NextFacts(memory, inputs, TypesFor(nodeTypes, inputs.config), r);
    u := Update(inputs, r);
  }

  /** The same two updates, the second finding the server dead: the code dates its health from the
      first, the documented contract from the second. */
  lemma TwoUpdates(memory: HealthMemory, nodeTypes: (Config, State) -> map<Id, NodeType>) returns (first: Update, second: Update)
    ensures IsHistory(memory, nodeTypes, [Updated(first), Updated(second)])
    ensures first.inputs == OneServer(1, 1, true, map[])
    ensures second.inputs == OneServer(2, 1, false, first.result.servers)
    ensures "a" in second.result.servers
    ensures second.result.servers["a"].health == ServerHealth(false, if memory == Aliased then 1 else 2)
  {
    first := OneUpdate(memory, nodeTypes, EMPTY_STATE, 1, true);
    second := OneUpdate(memory, nodeTypes, first.result, 2, false);
    var events := [Updated(first), Updated(second)];
    assert events[..1] == [Updated(first)] && events[..1][..0] == [];
    assert IsHistory(memory, nodeTypes, [Updated(first)]);
    assert StateAfter([Updated(first)]) == first.result;
  }
}
