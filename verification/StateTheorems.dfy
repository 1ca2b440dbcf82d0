/** What every computed state satisfies. */
module StateTheorems {
  import opened Ids
  import opened Sorting
  import opened Types
  import opened Classification
  import opened Membership
  import opened ServerOrder
  import opened StateBuild

  /** The promoter's types do not depend on the order in which it is shown the voters. */
  ghost predicate IgnoresVoterOrder(servers: Servers, inputs: Inputs, nodeTypes: State -> map<Id, NodeType>) {
    forall x, y :: VoterOrder(servers, x) && VoterOrder(servers, y) ==>
      TypedFor(servers, inputs, nodeTypes, x) == TypedFor(servers, inputs, nodeTypes, y)
  }

  /** The voters of a computed state: exactly those with voting rights, in the one sorted order,
      whatever the order in which the map was walked. */
  lemma VotersAreForced(memory: HealthMemory, inputs: Inputs, nodeTypes: State -> map<Id, NodeType>, r: State, xs: seq<Id>)
    requires IsNextState(memory, inputs, nodeTypes, r)
    requires Ranked(xs, VotingIds(NextServers(memory, inputs)), NextServers(memory, inputs))
    ensures r.voters == xs
  {
    var servers := NextServers(memory, inputs);
    OnlyTheNamedLeads(memory, inputs);
    VotersAreRanked(memory, inputs, nodeTypes, r);
    RankedIsUnique(r.voters, xs, VotingIds(servers), servers);
  }

  lemma VotersAreRanked(memory: HealthMemory, inputs: Inputs, nodeTypes: State -> map<Id, NodeType>, r: State)
    requires IsNextState(memory, inputs, nodeTypes, r)
    ensures Ranked(r.voters, VotingIds(NextServers(memory, inputs)), NextServers(memory, inputs))
  {
    var servers := NextServers(memory, inputs);
    var order :| VoterOrder(servers, order) && ComesFrom(servers, inputs, nodeTypes, order, r);
    var types := nodeTypes(Draft(servers, inputs.firstStateTime, inputs.leaderId, order));
    RankedDespiteTyping(r.voters, VotingIds(servers), servers, types);
  }

  lemma RankedDespiteTyping(xs: seq<Id>, members: set<Id>, servers: Servers, types: map<Id, NodeType>)
    requires members <= servers.Keys && Ranked(xs, members, Typed(servers, types))
    ensures Ranked(xs, members, servers)
  {
    TypingKeepsOrder(servers, types);
    forall i, j | 0 <= i < j < |xs| ensures !Before(servers)(xs[j], xs[i]) {
      assert xs[i] in ToSet(xs) && xs[j] in ToSet(xs);
      assert !Before(Typed(servers, types))(xs[j], xs[i]);
    }
  }

  /** Equal inputs give equal states exactly when the promoter does not look at the order of the
      voters it is shown, which is the order of a map. */
  lemma StateIsForcedIff(memory: HealthMemory, inputs: Inputs, nodeTypes: State -> map<Id, NodeType>)
    ensures (forall r, s :: IsNextState(memory, inputs, nodeTypes, r) && IsNextState(memory, inputs, nodeTypes, s) ==> r == s)
            <==> IgnoresVoterOrder(NextServers(memory, inputs), inputs, nodeTypes)
  {
    var servers := NextServers(memory, inputs);
    if IgnoresVoterOrder(servers, inputs, nodeTypes) {
      forall r, s | IsNextState(memory, inputs, nodeTypes, r) && IsNextState(memory, inputs, nodeTypes, s) ensures r == s {
        SameTypesSameState(memory, inputs, nodeTypes, r, s);
      }
    }
    if forall r, s :: IsNextState(memory, inputs, nodeTypes, r) && IsNextState(memory, inputs, nodeTypes, s) ==> r == s {
      forall x, y | VoterOrder(servers, x) && VoterOrder(servers, y)
        ensures TypedFor(servers, inputs, nodeTypes, x) == TypedFor(servers, inputs, nodeTypes, y)
      {
        var r := StateFrom(memory, inputs, nodeTypes, x);
        var s := StateFrom(memory, inputs, nodeTypes, y);
        assert r == s;
      }
    }
  }

  lemma SameTypesSameState(memory: HealthMemory, inputs: Inputs, nodeTypes: State -> map<Id, NodeType>, r: State, s: State)
    requires IsNextState(memory, inputs, nodeTypes, r) && IsNextState(memory, inputs, nodeTypes, s)
    requires IgnoresVoterOrder(NextServers(memory, inputs), inputs, nodeTypes)
    ensures r == s
  {
    var servers := NextServers(memory, inputs);
    var x :| VoterOrder(servers, x) && ComesFrom(servers, inputs, nodeTypes, x, r);
    var y :| VoterOrder(servers, y) && ComesFrom(servers, inputs, nodeTypes, y, s);
    VotersAreRanked(memory, inputs, nodeTypes, s);
    VotersAreForced(memory, inputs, nodeTypes, r, s.voters);
    SameUpToOrder(servers, inputs, nodeTypes, x, y, r, s);
  }

  lemma SameUpToOrder(servers: Servers, inputs: Inputs, nodeTypes: State -> map<Id, NodeType>, x: seq<Id>, y: seq<Id>, r: State, s: State)
    requires ComesFrom(servers, inputs, nodeTypes, x, r) && ComesFrom(servers, inputs, nodeTypes, y, s)
    requires TypedFor(servers, inputs, nodeTypes, x) == TypedFor(servers, inputs, nodeTypes, y) && r.voters == s.voters
    ensures r == s
  {
  }

  /** Every order of the voters is shown by some run, and leads to a state. */
  lemma StateFrom(memory: HealthMemory, inputs: Inputs, nodeTypes: State -> map<Id, NodeType>, order: seq<Id>) returns (r: State)
    requires VoterOrder(NextServers(memory, inputs), order)
    ensures IsNextState(memory, inputs, nodeTypes, r)
    ensures r.servers == Typed(NextServers(memory, inputs),
                               nodeTypes(Draft(NextServers(memory, inputs), inputs.firstStateTime, inputs.leaderId, order)))
  {
    var servers := NextServers(memory, inputs);
    OnlyTheNamedLeads(memory, inputs);
    var draft := Draft(servers, inputs.firstStateTime, inputs.leaderId, order);
    var typed := Typed(servers, nodeTypes(draft));
    TypingKeepsOrder(servers, nodeTypes(draft));
    assert ToSet(order) <= typed.Keys;
    LessThanIsTotal(typed);
    SubsetIsTotal(ToSet(order), typed);
    SortOrdered(order, Before(typed));
    SortPermutes(order, Before(typed));
    PermutationFacts(order, Sort(order, Before(typed)));
    r := draft.(servers := typed, voters := Sort(order, Before(typed)));
    assert ComesFrom(servers, inputs, nodeTypes, order, r);
  }

  lemma SubsetIsTotal(members: set<Id>, servers: Servers)
    requires members <= servers.Keys && StrictTotalOn(servers.Keys, Before(servers))
    ensures StrictTotalOn(members, Before(servers))
  {
  }

  /** A promoter that singles out the first voter it is shown gives the same inputs two states. */
  lemma OrderCanShow(inputs: Inputs, nodeTypes: State -> map<Id, NodeType>, a: Id, b: Id)
    requires a != b && VotingIds(NextServers(Aliased, inputs)) == {a, b}
    requires forall s: State :: nodeTypes(s) == if s.voters == [a, b] then map[a := OtherNodeType("first")] else map[a := OtherNodeType("second")]
    ensures exists r, s :: IsNextState(Aliased, inputs, nodeTypes, r) && IsNextState(Aliased, inputs, nodeTypes, s) && r != s
  {
    var servers := NextServers(Aliased, inputs);
    assert ToSet([a, b]) == {a, b} && ToSet([b, a]) == {a, b};
    assert VoterOrder(servers, [a, b]) && VoterOrder(servers, [b, a]);
    var r := StateFrom(Aliased, inputs, nodeTypes, [a, b]);
    var s := StateFrom(Aliased, inputs, nodeTypes, [b, a]);
    assert a in VotingIds(servers);
    assert [b, a][0] != [a, b][0];
    assert r.servers[a].server.nodeType == OtherNodeType("first");
    assert s.servers[a].server.nodeType == OtherNodeType("second");
  }

  /** The leader, when there is one, heads the voters. */
  lemma LeaderComesFirst(memory: HealthMemory, inputs: Inputs, nodeTypes: State -> map<Id, NodeType>, r: State)
    requires IsNextState(memory, inputs, nodeTypes, r)
    ensures ToSet(r.voters) == VotingIds(r.servers) && Distinct(r.voters)
    ensures r.leader in r.servers && r.servers[r.leader].state == RaftLeader ==> r.voters != [] && r.voters[0] == r.leader
    ensures forall id :: id in r.servers && r.servers[id].state == RaftLeader ==> r.leader == id
  {
    ResultIsRanked(memory, inputs, nodeTypes, r);
    if r.leader in r.servers && r.servers[r.leader].state == RaftLeader {
      assert r.leader in ToSet(r.voters);
      var i :| 0 <= i < |r.voters| && r.voters[i] == r.leader;
      assert r.voters[0] in ToSet(r.voters);
      RankedByRank(r.voters, VotingIds(r.servers), r.servers, 0, i);
    }
  }

  lemma ResultIsRanked(memory: HealthMemory, inputs: Inputs, nodeTypes: State -> map<Id, NodeType>, r: State)
    requires IsNextState(memory, inputs, nodeTypes, r)
    ensures Ranked(r.voters, VotingIds(r.servers), r.servers) && AtMostOneLeader(r.servers)
    ensures forall id :: id in r.servers && r.servers[id].state == RaftLeader ==> r.leader == id
  {
    var servers := NextServers(memory, inputs);
    OnlyTheNamedLeads(memory, inputs);
    var order :| VoterOrder(servers, order) && ComesFrom(servers, inputs, nodeTypes, order, r);
    TypingKeepsOrder(servers, nodeTypes(Draft(servers, inputs.firstStateTime, inputs.leaderId, order)));
    assert VotingIds(r.servers) == VotingIds(servers);
  }

  // Health.

  /** What makes a server healthy, said of the inputs: a leader whose progress is known, and a server
      the application knows to be alive, in touch, in the leader's term and not too far behind. */
  lemma HealthyIff(memory: HealthMemory, inputs: Inputs, id: Id)
    requires id in RaftMap(inputs.raftConfig)
    ensures var (term, index) := LeaderProgress(inputs);
            var stats := NextStats(inputs, RaftMap(inputs.raftConfig)[id]);
            && id in NextServers(memory, inputs)
            && (NextServers(memory, inputs)[id].health.healthy <==>
                && term != 0 && index != 0
                && id in inputs.known && inputs.known[id].nodeStatus == NodeAlive
                && 0 <= stats.lastContact <= inputs.config.lastContactThreshold
                && stats.lastTerm == term
                && WithinTrailing(stats.lastIndex, inputs.config.maxTrailingLogs, index))
  {
    RaftMapKeys(inputs.raftConfig);
    NextHealthyIff(inputs, RaftMap(inputs.raftConfig)[id]);
    assert NextServers(memory, inputs)[id].health.healthy == NextHealthy(inputs, RaftMap(inputs.raftConfig)[id]);
  }

  lemma NextHealthyIff(inputs: Inputs, srv: RaftServer)
    ensures var (term, index) := LeaderProgress(inputs);
            var stats := NextStats(inputs, srv);
            NextHealthy(inputs, srv) <==>
            && term != 0 && index != 0
            && srv.id in inputs.known && inputs.known[srv.id].nodeStatus == NodeAlive
            && 0 <= stats.lastContact <= inputs.config.lastContactThreshold
            && stats.lastTerm == term
            && WithinTrailing(stats.lastIndex, inputs.config.maxTrailingLogs, index)
  {
  }

  /** The comparison of isHealthy, on uint64. */
  predicate WithinTrailing(lastIndex: UInt64, maxTrailingLogs: UInt64, leaderLastIndex: UInt64) {
    (lastIndex as int + maxTrailingLogs as int) % TWO_TO_THE_64 >= leaderLastIndex as int
  }

  /** It says that the server is at most MaxTrailingLogs behind exactly when the sum does not wrap
      around, or wraps around to the leader's index or beyond. */
  lemma TrailingIsMeantIff(lastIndex: UInt64, maxTrailingLogs: UInt64, leaderLastIndex: UInt64)
    ensures (WithinTrailing(lastIndex, maxTrailingLogs, leaderLastIndex) <==>
             leaderLastIndex as int - lastIndex as int <= maxTrailingLogs as int)
            <==> var sum := lastIndex as int + maxTrailingLogs as int;
                 sum < TWO_TO_THE_64 || sum - TWO_TO_THE_64 >= leaderLastIndex as int
  {
    var sum := lastIndex as int + maxTrailingLogs as int;
    assert sum % TWO_TO_THE_64 == if sum < TWO_TO_THE_64 then sum else sum - TWO_TO_THE_64;
  }

  /** So the largest limit there is, meant as none, leaves every server unhealthy that is not ahead of
      the leader. */
  lemma LargestLimitLetsNobodyPass(memory: HealthMemory, inputs: Inputs, id: Id)
    requires id in RaftMap(inputs.raftConfig) && inputs.config.maxTrailingLogs as int == TWO_TO_THE_64 - 1
    requires 0 < NextStats(inputs, RaftMap(inputs.raftConfig)[id]).lastIndex <= LeaderProgress(inputs).1
    ensures id in NextServers(memory, inputs) && !NextServers(memory, inputs)[id].health.healthy
  {
    HealthyIff(memory, inputs, id);
    var lastIndex := NextStats(inputs, RaftMap(inputs.raftConfig)[id]).lastIndex as int;
    assert (lastIndex + TWO_TO_THE_64 - 1) % TWO_TO_THE_64 == lastIndex - 1;
  }

  // Quorums.

  ghost predicate AlwaysMeet(voters: set<Id>, k: nat) {
    forall a: set<Id>, b: set<Id> :: a <= voters && b <= voters && |a| >= k && |b| >= k ==> a * b != {}
  }

  /** The required quorum is the least number such that any two groups of so many voters meet. */
  lemma QuorumIsLeastOverlap(voters: set<Id>, k: nat)
    requires k <= |voters|
    ensures AlwaysMeet(voters, k) <==> k >= RequiredQuorum(|voters|)
  {
    if k >= RequiredQuorum(|voters|) {
      forall a: set<Id>, b: set<Id> | a <= voters && b <= voters && |a| >= k && |b| >= k ensures a * b != {} {
        SubsetSize(a + b, voters);
        assert |a + b| == |a| + |b| - |a * b|;
      }
    } else {
      var a := TakeSome(voters, k);
      assert |voters - a| == |voters| - k;
      var b := TakeSome(voters - a, k);
      assert a * b == {};
    }
  }

  // FailureTolerance.

  /** Any `k` of the voters may be lost and the healthy ones left are still a quorum of all. */
  ghost predicate Survives(voters: set<Id>, healthy: set<Id>, k: nat) {
    forall lost: set<Id> :: lost <= voters && |lost| == k ==> |healthy - lost| >= RequiredQuorum(|voters|)
  }

  lemma TakeSome(s: set<Id>, k: nat) returns (some: set<Id>)
    requires k <= |s|
    ensures some <= s && |some| == k
  {
    some := {};
    while |some| < k
      invariant some <= s && |some| <= k
    {
      assert |s - some| == |s| - |some|;
      var x :| x in s - some;
      some := some + {x};
    }
  }

  /** With a healthy quorum to begin with, the recorded tolerance is exactly the number of voters
      that may be lost; without one it is zero. */
  lemma ToleranceIsTight(voters: set<Id>, healthy: set<Id>, k: nat)
    requires healthy <= voters && k <= |voters|
    ensures |healthy| >= RequiredQuorum(|voters|) ==> (Survives(voters, healthy, k) <==> k <= Tolerance(|voters|, |healthy|))
    ensures |healthy| < RequiredQuorum(|voters|) ==> Tolerance(|voters|, |healthy|) == 0 && !Survives(voters, healthy, k)
  {
    SubsetSize(healthy, voters);
    forall lost: set<Id> | lost <= voters && |lost| == k ensures |healthy - lost| >= |healthy| - k {
      DifferenceSize(healthy, lost);
    }
    // lose healthy voters first
    var lost;
    if k <= |healthy| {
      lost := TakeSome(healthy, k);
      assert |healthy - lost| == |healthy| - k;
    } else {
      assert |voters - healthy| == |voters| - |healthy|;
      var others := TakeSome(voters - healthy, k - |healthy|);
      lost := healthy + others;
      assert |lost| == k;
      assert healthy - lost == {};
    }
    assert lost <= voters && |lost| == k;
  }

  /** The recorded tolerance of any computed state, in those terms. */
  lemma FailureToleranceIsTight(memory: HealthMemory, inputs: Inputs, nodeTypes: State -> map<Id, NodeType>, r: State, k: nat)
    requires IsNextState(memory, inputs, nodeTypes, r) && k <= |r.voters|
    ensures var voters, healthy := VotingIds(r.servers), HealthyVotingIds(r.servers);
            && |voters| == |r.voters|
            && (|healthy| >= RequiredQuorum(|voters|) ==> (Survives(voters, healthy, k) <==> k <= r.failureTolerance))
            && (|healthy| < RequiredQuorum(|voters|) ==> r.failureTolerance == 0 && !Survives(voters, healthy, k))
  {
    CountsAreSizes(memory, inputs, nodeTypes, r);
    ToleranceIsTight(VotingIds(r.servers), HealthyVotingIds(r.servers), k);
  }

  lemma CountsAreSizes(memory: HealthMemory, inputs: Inputs, nodeTypes: State -> map<Id, NodeType>, r: State)
    requires IsNextState(memory, inputs, nodeTypes, r)
    ensures |VotingIds(r.servers)| == |r.voters|
    ensures r.failureTolerance == Tolerance(|VotingIds(r.servers)|, |HealthyVotingIds(r.servers)|)
  {
    var servers := NextServers(memory, inputs);
    var order :| VoterOrder(servers, order) && ComesFrom(servers, inputs, nodeTypes, order, r);
    TypedVotes(servers, nodeTypes(Draft(servers, inputs.firstStateTime, inputs.leaderId, order)));
    DistinctLength(r.voters);
  }

  lemma TypedVotes(servers: Servers, types: map<Id, NodeType>)
    ensures VotingIds(Typed(servers, types)) == VotingIds(servers)
    ensures HealthyVotingIds(Typed(servers, types)) == HealthyVotingIds(servers)
  {
  }

  // Agreement with pruning.

  /** On the same view of the cluster, no server that pruning would remove is healthy. */
  lemma DeadAreUnhealthy(memory: HealthMemory, inputs: Inputs, id: Id)
    requires id in RaftMap(inputs.raftConfig)
    requires id !in inputs.known || inputs.known[id].nodeStatus != NodeAlive
    ensures id in NextServers(memory, inputs) && !NextServers(memory, inputs)[id].health.healthy
  {
    RaftMapKeys(inputs.raftConfig);
  }

  /** A documented contract of StableSince: it is the time of the last change of health. For one
      update of a tracked server the code meets it exactly when the health stayed the same, or the
      old time happens to be the current one. */
  lemma DocumentedStableSinceIff(inputs: Inputs, srv: RaftServer)
    requires srv.id in inputs.current
    ensures NextStableSince(Aliased, inputs, srv) == NextStableSince(Copied, inputs, srv) <==>
            || NextHealthy(inputs, srv) == inputs.current[srv.id].health.healthy
            || inputs.current[srv.id].health.stableSince == inputs.now
  {
  }
}
