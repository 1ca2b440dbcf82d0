/** state.go, ServerLessThan and SortServers. */
module ServerOrder {
  import opened Ids
  import opened Sorting
  import opened Types

  type Servers = map<Id, ServerState>

  /** The comparison, branch by branch. On a leader and itself it answers true. */
  predicate ServerLessThan(id1: Id, id2: Id, servers: Servers)
    requires id1 in servers && id2 in servers
  {
    var i, j := servers[id1], servers[id2];
    if i.state == RaftLeader then true
    else if j.state == RaftLeader then false
    else if i.state == RaftVoter && j.state != RaftVoter then true
    else if i.state != RaftVoter && j.state == RaftVoter then false
    else if i.health.healthy == j.health.healthy then
      if i.health.stableSince < j.health.stableSince then i.health.healthy
      else if j.health.stableSince < i.health.stableSince then !i.health.healthy
      else Less(id1, id2)
    else i.health.healthy
  }

  ghost predicate AtMostOneLeader(servers: Servers) {
    forall a, b :: a in servers && b in servers && servers[a].state == RaftLeader && servers[b].state == RaftLeader ==> a == b
  }

  function Rank(s: ServerState): nat {
    match s.state
    case RaftLeader => 0
    case RaftVoter => 1
    case _ => 2
  }

  /** Longer stability counts for a healthy server and against an unhealthy one. */
  function Seniority(h: ServerHealth): int {
    if h.healthy then h.stableSince else -h.stableSince
  }

  /** Lexicographic in rank, health, seniority and id. */
  predicate KeyLess(id1: Id, i: ServerState, id2: Id, j: ServerState) {
    || Rank(i) < Rank(j)
    || (Rank(i) == Rank(j) && i.health.healthy && !j.health.healthy)
    || (Rank(i) == Rank(j) && i.health.healthy == j.health.healthy
        && (|| Seniority(i.health) < Seniority(j.health)
            || (Seniority(i.health) == Seniority(j.health) && Less(id1, id2))))
  }

  /** Between distinct servers of which at most one leads, the comparison is lexicographic. */
  lemma LessThanIsLexicographic(id1: Id, id2: Id, servers: Servers)
    requires id1 in servers && id2 in servers && id1 != id2 && AtMostOneLeader(servers)
    ensures ServerLessThan(id1, id2, servers) <==> KeyLess(id1, servers[id1], id2, servers[id2])
  {
    assert servers[id1].state != RaftLeader || servers[id2].state != RaftLeader;
  }

  lemma LeaderIsLessThanItself(id: Id, servers: Servers)
    requires id in servers
    ensures ServerLessThan(id, id, servers) <==> servers[id].state == RaftLeader
  {
    LessTotal(id, id);
  }

  function Before(servers: Servers): (Id, Id) -> bool {
    (a, b) => a in servers && b in servers && ServerLessThan(a, b, servers)
  }

  lemma LessThanIsTotal(servers: Servers)
    requires AtMostOneLeader(servers)
    ensures StrictTotalOn(servers.Keys, Before(servers))
  {
    forall x, y | x in servers && y in servers && x != y ensures Before(servers)(x, y) != Before(servers)(y, x) {
      LessThanIsLexicographic(x, y, servers);
      LessThanIsLexicographic(y, x, servers);
      LessTotal(x, y);
    }
    forall x, y, z | x in servers && y in servers && z in servers && x != y && y != z && x != z
                     && Before(servers)(x, y) && Before(servers)(y, z)
      ensures Before(servers)(x, z)
    {
      LessThanIsLexicographic(x, y, servers);
      LessThanIsLexicographic(y, z, servers);
      LessThanIsLexicographic(x, z, servers);
      KeyLessTransitive(x, servers[x], y, servers[y], z, servers[z]);
    }
  }

  lemma KeyLessTransitive(a: Id, i: ServerState, b: Id, j: ServerState, c: Id, k: ServerState)
    requires KeyLess(a, i, b, j) && KeyLess(b, j, c, k)
    ensures KeyLess(a, i, c, k)
  {
    if Less(a, b) && Less(b, c) {
      LessTransitive(a, b, c);
    }
  }

  /** A list sorted by the comparison, with exactly the given members. */
  ghost predicate Ranked(ids: seq<Id>, members: set<Id>, servers: Servers) {
    Distinct(ids) && ToSet(ids) == members && Ordered(ids, Before(servers))
  }

  lemma RankedIsUnique(xs: seq<Id>, ys: seq<Id>, members: set<Id>, servers: Servers)
    requires members <= servers.Keys && AtMostOneLeader(servers)
    requires Ranked(xs, members, servers) && Ranked(ys, members, servers)
    ensures xs == ys
  {
    LessThanIsTotal(servers);
    OrderedIsUnique(xs, ys, Before(servers));
  }

  /** The leader, if listed, comes first; no voter comes after a server of lower rank; healthy
      voters come before unhealthy ones. */
  lemma RankedByRank(ids: seq<Id>, members: set<Id>, servers: Servers, i: nat, j: nat)
    requires members <= servers.Keys && AtMostOneLeader(servers) && Ranked(ids, members, servers)
    requires i <= j < |ids|
    ensures ids[i] in servers && ids[j] in servers
    ensures Rank(servers[ids[i]]) <= Rank(servers[ids[j]])
    ensures Rank(servers[ids[i]]) == Rank(servers[ids[j]]) && servers[ids[j]].health.healthy ==> servers[ids[i]].health.healthy
  {
    assert ids[i] in ToSet(ids) && ids[j] in ToSet(ids);
    if i < j {
      assert !Before(servers)(ids[j], ids[i]);
      LessThanIsLexicographic(ids[j], ids[i], servers);
    }
  }

  /** A sorted list, pair by pair: nobody but the first leads; voters come before those that neither
      vote nor lead; among equals in that, healthy servers come before unhealthy ones, of two healthy
      ones the one that has been so for longer, of two unhealthy ones the one that has been so for
      less long, and of two that are alike the one with the lesser id. */
  ghost predicate InServerOrder(id1: Id, i: ServerState, id2: Id, j: ServerState) {
    && j.state != RaftLeader
    && (j.state == RaftVoter ==> i.state == RaftVoter || i.state == RaftLeader)
    && (i.state != RaftLeader && (i.state == RaftVoter <==> j.state == RaftVoter) ==>
          && (j.health.healthy ==> i.health.healthy)
          && (i.health.healthy && j.health.healthy ==> i.health.stableSince <= j.health.stableSince)
          && (!i.health.healthy && !j.health.healthy ==> i.health.stableSince >= j.health.stableSince)
          && (i.health == j.health ==> Less(id1, id2)))
  }

  lemma RankedPairwise(ids: seq<Id>, members: set<Id>, servers: Servers, i: nat, j: nat)
    requires members <= servers.Keys && AtMostOneLeader(servers) && Ranked(ids, members, servers)
    requires i < j < |ids|
    ensures ids[i] in servers && ids[j] in servers
    ensures InServerOrder(ids[i], servers[ids[i]], ids[j], servers[ids[j]])
  {
    assert ids[i] in ToSet(ids) && ids[j] in ToSet(ids);
    assert !Before(servers)(ids[j], ids[i]);
    LessThanIsLexicographic(ids[j], ids[i], servers);
    LessTotal(ids[i], ids[j]);
  }

  /** SortServers on distinct ids of tracked servers has one possible result. */
  method SortServers(ids: seq<Id>, servers: Servers) returns (sorted: seq<Id>)
    requires Distinct(ids) && ToSet(ids) <= servers.Keys && AtMostOneLeader(servers)
    ensures Ranked(sorted, ToSet(ids), servers)
    ensures forall xs :: Ranked(xs, ToSet(ids), servers) ==> xs == sorted
  {
    LessThanIsTotal(servers);
    sorted := SortSlice(ids, Before(servers));
    forall xs | Ranked(xs, ToSet(ids), servers) ensures xs == sorted {
      RankedIsUnique(xs, sorted, ToSet(ids), servers);
    }
  }
}
