/** A round of pruning under the StablePromoter, which filters nothing and takes a server for a
    potential voter when the application gives it the voter type. */
module StablePruning {
  import opened Ids
  import opened Sorting
  import opened IdLists
  import opened Types
  import opened Registry
  import opened Adjudication
  import opened Choices
  import opened Core
  import opened Classification
  import opened Membership
  import opened Prune
  import opened PruneSafety
  import opened PruneTheorems
  import opened PruneRuns
  import opened StablePromoter

  const STABLE := Promoter(IsPotentialVoter, FilterFailedServerRemovals)

  function VoterIds(raft: View): set<Id> {
    set id | id in raft && raft[id].suffrage == Types.Voter
  }

  /** A required quorum of `n` voters outlives a round that finds so many stale voters, failed voters
      and failed non-voters, `potential` of all servers being potential voters. */
  predicate QuorumOutlives(n: nat, potential: nat, stale: nat, failed: nat, failedNonVoters: nat, q: Quorums) {
    var p := Max(0, potential - Min(failedNonVoters, Max(0, potential - q.third)));
    (if potential >= 3 then stale else 0) + Min(failed, Max(0, Min(p - q.fourth, Cap(p)))) <= Cap(n)
  }

  /** With an application that types every server as a voter, a required quorum of the voters
      outlives a round if and only if an inequality on the sizes of the classes holds: the stale
      voters that go, and the failed voters that go, are together at most the spare voters. */
  lemma StableQuorumSurvivesIff(conf: Config, state: State, raft: View, known: map<Id, Server>, q: Quorums)
    requires KeyedById(known) && (forall id :: id in known ==> known[id].nodeType == NodeVoter) && VoterIds(raft) != {}
    ensures var f, roll := Candidates(conf, state, STABLE, raft, known), RollOf(raft, known, STABLE.isPotentialVoter);
            && NoNilEntry(f, roll, q)
            && (|CurrentIds(roll - ToSet(RoundOf(f, roll, q).Removed()))| >= RequiredQuorum(|VoterIds(raft)|)
                <==> QuorumOutlives(|VoterIds(raft)|, |raft.Keys * known.Keys|, |StaleIds(raft, known, true)|,
                                    |FailedIds(raft, known, true)|, |FailedIds(raft, known, false)|, q))
  {
    var f, roll := Classify(raft, known), RollOf(raft, known, IsPotentialVoter);
    assert Candidates(conf, state, STABLE, raft, known) == f;
    EntriesOf(f, raft, known, IsPotentialVoter);
    SizesOfClasses(raft, known);
    RollOfVoters(raft, known);
    AllCountedIff(f, roll, q);
  }

  lemma SizesOfClasses(raft: View, known: map<Id, Server>)
    requires KeyedById(known)
    ensures var f := Classify(raft, known);
            && |f.staleVoters| == |StaleIds(raft, known, true)|
            && |f.failedVoters| == |FailedIds(raft, known, true)|
            && |f.failedNonVoters| == |FailedIds(raft, known, false)|
            && forall id :: id in IdsOf(f.failedVoters) || id in IdsOf(f.failedNonVoters) ==> id in raft && id in known
  {
    DistinctLength(Listing(StaleIds(raft, known, true)));
    DistinctLength(Listed(FailedIds(raft, known, true), known));
    DistinctLength(Listed(FailedIds(raft, known, false), known));
    FailedListed(raft, known, true);
    FailedListed(raft, known, false);
  }

  /** Who counts as a potential voter with this promoter. */
  lemma StableRoll(raft: View, known: map<Id, Server>)
    ensures forall id :: id in CurrentIds(RollOf(raft, known, STABLE.isPotentialVoter)) <==> id in raft && raft[id].suffrage == Types.Voter
    ensures forall id :: id in PotentialIds(RollOf(raft, known, STABLE.isPotentialVoter)) <==>
                           id in raft && id in known && known[id].nodeType == NodeVoter
  {
  }

  lemma RollOfVoters(raft: View, known: map<Id, Server>)
    requires forall id :: id in known ==> known[id].nodeType == NodeVoter
    ensures CurrentIds(RollOf(raft, known, IsPotentialVoter)) == VoterIds(raft)
    ensures PotentialIds(RollOf(raft, known, IsPotentialVoter)) == raft.Keys * known.Keys
  {
    StableRoll(raft, known);
  }

  lemma AllCountedIff(f: FailedServers, roll: Roll, q: Quorums)
    requires ClassEntries(f, roll) && CurrentIds(roll) != {}
    requires forall id :: id in IdsOf(f.failedVoters) || id in IdsOf(f.failedNonVoters) ==> roll[id].potentialVoter
    ensures NoNilEntry(f, roll, q)
    ensures |CurrentIds(roll - ToSet(RoundOf(f, roll, q).Removed()))| >= RequiredQuorum(|CurrentIds(roll)|)
            <==> QuorumOutlives(|CurrentIds(roll)|, |PotentialIds(roll)|, |f.staleVoters|, |f.failedVoters|, |f.failedNonVoters|, q)
  {
    var ids := IdsOf(f.failedVoters);
    UncountedIff(IdsOf(f.failedNonVoters), roll);
    QuorumSurvivesIff(f, roll, q);
    RemovedVotersCount(ids, roll, StillPotential(f, roll, q), q.fourth);
    RemovedVotersBound(ids, roll, StillPotential(f, roll, q), q.fourth);
  }
}
