/** reconcile.go, getFailedServers: sorting the servers of the Raft configuration into the living
    and four kinds of dead. */
module Classification {
  import opened Ids
  import opened Sorting
  import opened IdLists
  import opened Types
  import opened Registry
  import opened Core

  /** A configuration by id; the later of two entries of an id counts. */
  type View = map<Id, RaftServer>

  function RaftMap(config: Configuration): View {
    if config == [] then map[]
    else
      var last := config[|config| - 1];
      RaftMap(config[..|config| - 1])[last.id := last]
  }

  /** In the Raft configuration, unknown to the application. */
  function StaleIds(raft: View, known: map<Id, Server>, voters: bool): set<Id> {
    set id | id in raft && id !in known && (raft[id].suffrage == Voter) == voters
  }

  /** In the Raft configuration, known to the application and not alive. */
  function FailedIds(raft: View, known: map<Id, Server>, voters: bool): set<Id> {
    set id | id in raft && id in known && known[id].nodeStatus != NodeAlive && (raft[id].suffrage == Voter) == voters
  }

  function AliveIds(raft: View, known: map<Id, Server>): set<Id> {
    set id | id in raft && id in known && known[id].nodeStatus == NodeAlive
  }

  function RollOf(raft: View, known: map<Id, Server>, isPotential: NodeType -> bool): Roll {
    map id | id in raft :: Eligibility(raft[id].suffrage == Voter, id in known && isPotential(known[id].nodeType))
  }

  function ServersOf(known: map<Id, Server>, ids: seq<Id>): seq<Server>
    requires forall id :: id in ids ==> id in known
  {
    seq(|ids|, i requires 0 <= i < |ids| => known[ids[i]])
  }

  function IdsOf(servers: seq<Server>): (ids: seq<Id>)
    ensures |ids| == |servers| && forall i :: 0 <= i < |servers| ==> ids[i] == servers[i].id
  {
    seq(|servers|, i requires 0 <= i < |servers| => servers[i].id)
  }

  ghost function Classify(raft: View, known: map<Id, Server>): FailedServers {
    FailedServers(
      Listing(StaleIds(raft, known, false)),
      Listing(StaleIds(raft, known, true)),
      ServersOf(known, Listed(FailedIds(raft, known, false), known)),
      ServersOf(known, Listed(FailedIds(raft, known, true), known)))
  }

  ghost function Listed(ids: set<Id>, known: map<Id, Server>): (xs: seq<Id>)
    requires ids <= known.Keys
    ensures Lists(xs, ids) && forall id :: id in xs ==> id in known
  {
    assert forall id :: id in Listing(ids) ==> id in ToSet(Listing(ids));
    Listing(ids)
  }

  /** Every server of the configuration is in exactly one class, nobody else is in any. */
  lemma ClassesPartition(raft: View, known: map<Id, Server>)
    ensures AliveIds(raft, known) + StaleIds(raft, known, true) + StaleIds(raft, known, false)
            + FailedIds(raft, known, true) + FailedIds(raft, known, false) == raft.Keys
    ensures AliveIds(raft, known) !! StaleIds(raft, known, true) !! StaleIds(raft, known, false)
            !! FailedIds(raft, known, true) !! FailedIds(raft, known, false)
  {
    var classes := AliveIds(raft, known) + StaleIds(raft, known, true) + StaleIds(raft, known, false)
                   + FailedIds(raft, known, true) + FailedIds(raft, known, false);
    forall id ensures id in classes <==> id in raft {
    }
  }

  // The method.

  predicate ById(a: Server, b: Server) {
    Less(a.id, b.id)
  }

  /** The servers with the given ids, each as the application knows it, once, in some order. */
  ghost predicate Covers(servers: seq<Server>, known: map<Id, Server>, ids: set<Id>) {
    && (forall s :: s in servers ==> s.id in known && known[s.id] == s)
    && Distinct(IdsOf(servers)) && ToSet(IdsOf(servers)) == ids
  }

  lemma SortedCover(servers: seq<Server>, sorted: seq<Server>, known: map<Id, Server>, ids: set<Id>)
    requires Covers(servers, known, ids) && ids <= known.Keys
    requires multiset(sorted) == multiset(servers) && Distinct(sorted) && Ordered(sorted, ById)
    ensures sorted == ServersOf(known, Listed(ids, known))
  {
    PermutationFacts(servers, sorted);
    assert forall s :: s in sorted ==> s in ToSet(servers);
    SameIds(servers, sorted);
    SortedIds(sorted, known);
    OrderedCover(sorted, known, ids);
  }

  lemma OrderedCover(sorted: seq<Server>, known: map<Id, Server>, ids: set<Id>)
    requires Covers(sorted, known, ids) && ids <= known.Keys && Ordered(IdsOf(sorted), Less)
    ensures sorted == ServersOf(known, Listed(ids, known))
  {
    ListingIsUnique(IdsOf(sorted), ids);
    ListingIsUnique(Listed(ids, known), ids);
    assert forall i :: 0 <= i < |sorted| ==> sorted[i] in sorted && sorted[i] == known[IdsOf(sorted)[i]];
  }

  lemma SameIds(xs: seq<Server>, ys: seq<Server>)
    requires ToSet(xs) == ToSet(ys)
    ensures ToSet(IdsOf(xs)) == ToSet(IdsOf(ys))
  {
    IdsOfSome(xs, ys);
    IdsOfSome(ys, xs);
  }

  lemma IdsOfSome(xs: seq<Server>, ys: seq<Server>)
    requires ToSet(xs) <= ToSet(ys)
    ensures ToSet(IdsOf(xs)) <= ToSet(IdsOf(ys))
  {
    forall id | id in ToSet(IdsOf(xs)) ensures id in ToSet(IdsOf(ys)) {
      var i :| 0 <= i < |xs| && IdsOf(xs)[i] == id;
      assert xs[i] in ToSet(ys);
      var j :| 0 <= j < |ys| && ys[j] == xs[i];
      assert IdsOf(ys)[j] == id;
    }
  }

  lemma SortedIds(sorted: seq<Server>, known: map<Id, Server>)
    requires forall s :: s in sorted ==> s.id in known && known[s.id] == s
    requires Distinct(sorted) && Ordered(sorted, ById)
    ensures Distinct(IdsOf(sorted)) && Ordered(IdsOf(sorted), Less)
  {
    forall i, j | 0 <= i < j < |sorted| ensures sorted[i].id != sorted[j].id && !Less(sorted[j].id, sorted[i].id) {
      assert sorted[i] in sorted && sorted[j] in sorted;
      assert !ById(sorted[j], sorted[i]);
    }
  }

  lemma ServersAreOrdered(servers: seq<Server>, known: map<Id, Server>, ids: set<Id>)
    requires Covers(servers, known, ids)
    ensures Distinct(servers) && StrictTotalOn(ToSet(servers), ById)
  {
    forall i, j | 0 <= i < j < |servers| ensures servers[i] != servers[j] {
      assert IdsOf(servers)[i] != IdsOf(servers)[j];
    }
    LessIsTotal(ToSet(IdsOf(servers)));
    forall s | s in ToSet(servers) ensures s.id in ToSet(IdsOf(servers)) && known[s.id] == s {
      var i :| 0 <= i < |servers| && servers[i] == s;
      assert IdsOf(servers)[i] == s.id;
    }
  }

  method SortServersById(servers: seq<Server>, ghost known: map<Id, Server>, ghost ids: set<Id>) returns (sorted: seq<Server>)
    requires Covers(servers, known, ids) && ids <= known.Keys
    ensures sorted == ServersOf(known, Listed(ids, known))
  {
    ServersAreOrdered(servers, known, ids);
    sorted := SortSlice(servers, ById);
    SortedCover(servers, sorted, known, ids);
  }

  method SortIds(ids: seq<Id>) returns (sorted: seq<Id>)
    requires Distinct(ids)
    ensures sorted == Listing(ToSet(ids))
  {
    LessIsTotal(ToSet(ids));
    sorted := SortSlice(ids, Less);
    ListingIsUnique(sorted, ToSet(ids));
  }

  /** The first loop: everyone in the configuration, with the vote they have now. */
  method RegisterRaftServers(config: Configuration) returns (stale: View, registry: VoterRegistry)
    ensures stale == RaftMap(config)
    ensures fresh(registry) && registry.Valid() && fresh(registry.eligibility.Values)
    ensures registry.eligibility.Keys == stale.Keys
    ensures forall id :: id in stale ==>
              && registry.eligibility[id].currentVoter == (stale[id].suffrage == Voter)
              && !registry.eligibility[id].potentialVoter
  {
    stale := map[];
    registry := new VoterRegistry();
    for i := 0 to |config|
      invariant stale == RaftMap(config[..i])
      invariant fresh(registry) && registry.Valid() && fresh(registry.eligibility.Values)
      invariant registry.eligibility.Keys == stale.Keys
      invariant forall id :: id in stale ==>
              && registry.eligibility[id].currentVoter == (stale[id].suffrage == Voter)
              && !registry.eligibility[id].potentialVoter
    {
      var server := config[i];
      assert config[..i + 1][..i] == config[..i];
      stale := stale[server.id := server];
      var entry := new VoterEligibility(server.suffrage == Voter);
      ghost var before := registry.eligibility;
      registry.eligibility := registry.eligibility[server.id := entry];
      assert registry.eligibility.Values <= before.Values + {entry};
    }
    assert config[..|config|] == config;
  }

  /** The registry once every known server but those in `left` has been marked. */
  ghost predicate Marked(registry: VoterRegistry, raft: View, known: map<Id, Server>, isPotential: NodeType -> bool, left: set<Id>)
    reads registry, registry.eligibility.Values
  {
    && registry.Valid() && registry.eligibility.Keys == raft.Keys
    && forall id :: id in raft ==>
         && registry.eligibility[id].currentVoter == (raft[id].suffrage == Voter)
         && registry.eligibility[id].potentialVoter ==
            (id in known && id !in left && isPotential(known[id].nodeType))
  }

  /** What the second loop has collected once every known server but those in `left` has been seen. */
  ghost predicate Collected(stale: View, failedVoters: seq<Server>, failedNonVoters: seq<Server>,
                            raft: View, known: map<Id, Server>, left: set<Id>) {
    && stale == raft - (known.Keys - left)
    && Covers(failedVoters, known, FailedIds(raft, known, true) - left)
    && Covers(failedNonVoters, known, FailedIds(raft, known, false) - left)
  }

  lemma CollectOne(stale: View, failedVoters: seq<Server>, failedNonVoters: seq<Server>,
                   raft: View, known: map<Id, Server>, left: set<Id>, id: Id)
    requires KeyedById(known) && left <= known.Keys && id in left
    requires Collected(stale, failedVoters, failedNonVoters, raft, known, left)
    ensures var failed := if id in raft && known[id].nodeStatus != NodeAlive then [known[id]] else [];
            var voter := id in raft && raft[id].suffrage == Voter;
            && (id in stale <==> id in raft) && (id in stale ==> stale[id] == raft[id])
            && Collected(stale - {id}, failedVoters + (if voter then failed else []),
                         failedNonVoters + (if voter then [] else failed), raft, known, left - {id})
  {
    var fv, fn := FailedIds(raft, known, true), FailedIds(raft, known, false);
    OneFewerLeft(fv, left, id);
    OneFewerLeft(fn, left, id);
    CoverMaybeMore(failedVoters, known, fv - left, known[id], id in fv);
    CoverMaybeMore(failedNonVoters, known, fn - left, known[id], id in fn);
    assert stale - {id} == raft - (known.Keys - (left - {id}));
  }

  /** The second loop, over the application's servers in whatever order the map yields them. */
  method MarkKnownServers(raft: View, known: map<Id, Server>, isPotential: NodeType -> bool, registry: VoterRegistry)
    returns (stale: View, failedVoters: seq<Server>, failedNonVoters: seq<Server>)
    requires KeyedById(known) && Marked(registry, raft, known, isPotential, known.Keys)
    modifies registry.eligibility.Values
    ensures stale == raft - known.Keys
    ensures Covers(failedVoters, known, FailedIds(raft, known, true))
    ensures Covers(failedNonVoters, known, FailedIds(raft, known, false))
    ensures Marked(registry, raft, known, isPotential, {})
  {
    stale, failedVoters, failedNonVoters := raft, [], [];
    var left := known.Keys;
    NothingCollected(raft, known);
    while left != {}
      invariant left <= known.Keys
      invariant Collected(stale, failedVoters, failedNonVoters, raft, known, left)
      invariant Marked(registry, raft, known, isPotential, left)
      decreases left
    {
      var id :| id in left;
      var srv := known[id];
      CollectOne(stale, failedVoters, failedNonVoters, raft, known, left, id);
      if id in stale {
        if srv.nodeStatus != NodeAlive {
          if stale[id].suffrage == Voter {
            failedVoters := failedVoters + [srv];
          } else {
            failedNonVoters := failedNonVoters + [srv];
          }
        }
        MarkOne(registry, raft, known, isPotential, left, id);
        stale := stale - {id};
      } else {
        // only the application knows the server
        NothingToMark(registry, raft, known, isPotential, left, id);
        assert stale - {id} == stale;
      }
      left := left - {id};
    }
    AllCollected(stale, failedVoters, failedNonVoters, raft, known);
  }

  lemma NothingCollected(raft: View, known: map<Id, Server>)
    ensures Collected(raft, [], [], raft, known, known.Keys)
  {
    assert FailedIds(raft, known, true) - known.Keys == {} && FailedIds(raft, known, false) - known.Keys == {};
  }

  lemma AllCollected(stale: View, failedVoters: seq<Server>, failedNonVoters: seq<Server>, raft: View, known: map<Id, Server>)
    requires Collected(stale, failedVoters, failedNonVoters, raft, known, {})
    ensures stale == raft - known.Keys
    ensures Covers(failedVoters, known, FailedIds(raft, known, true))
    ensures Covers(failedNonVoters, known, FailedIds(raft, known, false))
  {
    assert FailedIds(raft, known, true) - {} == FailedIds(raft, known, true);
    assert FailedIds(raft, known, false) - {} == FailedIds(raft, known, false);
  }

  lemma CoverMaybeMore(servers: seq<Server>, known: map<Id, Server>, ids: set<Id>, srv: Server, more: bool)
    requires Covers(servers, known, ids) && srv.id in known && known[srv.id] == srv && srv.id !in ids
    ensures more ==> Covers(servers + [srv], known, ids + {srv.id})
    ensures !more ==> Covers(servers + [], known, ids + {})
  {
    if more {
      CoverOneMore(servers, known, ids, srv);
    } else {
      assert servers + [] == servers && ids + {} == ids;
    }
  }

  lemma OneFewerLeft(s: set<Id>, left: set<Id>, id: Id)
    requires id in left
    ensures s - (left - {id}) == s - left + if id in s then {id} else {}
  {
  }

  lemma NothingToMark(registry: VoterRegistry, raft: View, known: map<Id, Server>, isPotential: NodeType -> bool, left: set<Id>, id: Id)
    requires Marked(registry, raft, known, isPotential, left) && id !in raft
    ensures Marked(registry, raft, known, isPotential, left - {id})
  {
  }

  method MarkOne(registry: VoterRegistry, ghost raft: View, known: map<Id, Server>, isPotential: NodeType -> bool, ghost left: set<Id>, id: Id)
    requires Marked(registry, raft, known, isPotential, left) && id in left && id in known && id in raft
    modifies registry.eligibility.Values
    ensures Marked(registry, raft, known, isPotential, left - {id})
  {
    registry.eligibility[id].SetPotentialVoter(isPotential(known[id].nodeType));
  }

  lemma CoverOneMore(servers: seq<Server>, known: map<Id, Server>, ids: set<Id>, srv: Server)
    requires Covers(servers, known, ids) && srv.id in known && known[srv.id] == srv && srv.id !in ids
    ensures Covers(servers + [srv], known, ids + {srv.id})
  {
    var xs := IdsOf(servers);
    assert IdsOf(servers + [srv]) == xs + [srv.id];
    assert srv.id !in xs by { assert srv.id in xs ==> srv.id in ToSet(xs); }
    assert ToSet(xs + [srv.id]) == ids + {srv.id};
  }

  function OfKind(stale: View, voters: bool): set<Id> {
    set id | id in stale && (stale[id].suffrage == Voter) == voters
  }

  lemma OneMoreDistinct(xs: seq<Id>, id: Id)
    requires Distinct(xs) && id !in ToSet(xs)
    ensures Distinct(xs + [id]) && ToSet(xs + [id]) == ToSet(xs) + {id}
  {
  }

  /** The third loop, over what is left, again in map order. */
  method CollectStale(stale: View) returns (voters: seq<Id>, nonVoters: seq<Id>)
    ensures Distinct(voters) && ToSet(voters) == OfKind(stale, true)
    ensures Distinct(nonVoters) && ToSet(nonVoters) == OfKind(stale, false)
  {
    voters, nonVoters := [], [];
    ghost var sv, sn := OfKind(stale, true), OfKind(stale, false);
    var left := stale.Keys;
    while left != {}
      invariant left <= stale.Keys
      invariant Distinct(voters) && ToSet(voters) == sv - left
      invariant Distinct(nonVoters) && ToSet(nonVoters) == sn - left
      decreases left
    {
      var id :| id in left;
      ghost var before := left;
      left := left - {id};
      if stale[id].suffrage == Voter {
        OneMoreDistinct(voters, id);
        voters := voters + [id];
      } else {
        OneMoreDistinct(nonVoters, id);
        nonVoters := nonVoters + [id];
      }
      assert sv - left == sv - before + if id in sv then {id} else {};
      assert sn - left == sn - before + if id in sn then {id} else {};
    }
  }

  lemma MarkedContents(registry: VoterRegistry, raft: View, known: map<Id, Server>, isPotential: NodeType -> bool)
    requires Marked(registry, raft, known, isPotential, {})
    ensures registry.Contents() == RollOf(raft, known, isPotential)
  {
  }

  lemma StaleIsLeftover(raft: View, known: map<Id, Server>)
    ensures forall voters :: OfKind(raft - known.Keys, voters) == StaleIds(raft, known, voters)
  {
  }

  /** The three loops and the sorting, on a configuration already read. */
  method ScanServers(config: Configuration, known: map<Id, Server>, isPotential: NodeType -> bool)
    returns (failed: FailedServers, registry: VoterRegistry)
    requires KeyedById(known)
    ensures fresh(registry) && registry.Valid()
    ensures failed == Classify(RaftMap(config), known)
    ensures registry.Contents() == RollOf(RaftMap(config), known, isPotential)
  {
    var raft: View;
    raft, registry := RegisterRaftServers(config);
    var stale, failedVoters, failedNonVoters := MarkKnownServers(raft, known, isPotential, registry);
    var staleVoters, staleNonVoters := CollectStale(stale);
    MarkedContents(registry, raft, known, isPotential);
    StaleIsLeftover(raft, known);
    failed := SortClasses(staleNonVoters, staleVoters, failedNonVoters, failedVoters, raft, known);
  }

  /** The result is a function of the configuration and the application's view, so no order in
      which the maps are walked can show. */
  method GetFailedServers(a: Autopilot) returns (failed: Option<FailedServers>, registry: VoterRegistry)
    requires KeyedById(a.delegate.known)
    modifies a.raft`answers
    ensures a.raft.answers == old(a.raft.answers) + [failed.Some?]
    ensures fresh(registry) && registry.Valid()
    ensures failed.Some? ==>
              && failed.value == Classify(RaftMap(a.raft.servers), a.delegate.known)
              && registry.Contents() == RollOf(RaftMap(a.raft.servers), a.delegate.known, a.promoter.isPotentialVoter)
  {
    var read := a.raft.GetConfiguration();
    if read.None? {
      failed := None;
      registry := new VoterRegistry();
      return;
    }
    var found;
    found, registry := ScanServers(read.value, a.delegate.known, a.promoter.isPotentialVoter);
    failed := Some(found);
  }

  method SortClasses(staleNonVoters: seq<Id>, staleVoters: seq<Id>, failedNonVoters: seq<Server>, failedVoters: seq<Server>,
                     ghost raft: View, ghost known: map<Id, Server>)
    returns (failed: FailedServers)
    requires Distinct(staleVoters) && ToSet(staleVoters) == StaleIds(raft, known, true)
    requires Distinct(staleNonVoters) && ToSet(staleNonVoters) == StaleIds(raft, known, false)
    requires Covers(failedVoters, known, FailedIds(raft, known, true))
    requires Covers(failedNonVoters, known, FailedIds(raft, known, false))
    ensures failed == Classify(raft, known)
  {
    var sn := SortIds(staleNonVoters);
    var sv := SortIds(staleVoters);
    var fn := SortServersById(failedNonVoters, known, FailedIds(raft, known, false));
    var fv := SortServersById(failedVoters, known, FailedIds(raft, known, true));
    failed := FailedServers(sn, sv, fn, fv);
  }
}
