/** Two clusters that lose their quorum in one round of pruning. */
module QuorumLoss {
  import opened Ids
  import opened Sorting
  import opened Types
  import opened Registry
  import opened Adjudication
  import opened Classification
  import opened Membership
  import opened Prune
  import opened PruneSafety
  import opened PruneTheorems
  import opened PruneRuns

  /** The hypothesis of QuorumSurvives is needed: two voters, one of them failed, and a third
      potential voter. The failed one goes, which leaves one voter of two. */
  lemma QuorumCanBeLost(raft: View, known: map<Id, Server>, isPotential: NodeType -> bool, a: Id, b: Id, c: Id)
    requires a != b && b != c && c != a && raft.Keys == known.Keys == {a, b, c} && KeyedById(known)
    requires raft[a].suffrage == Voter && raft[b].suffrage == Voter && raft[c].suffrage == Nonvoter
    requires known[a].nodeStatus == NodeFailed && known[b].nodeStatus == NodeAlive && known[c].nodeStatus == NodeAlive
    requires forall id :: id in known ==> isPotential(known[id].nodeType)
    ensures |CurrentIds(RollOf(raft, known, isPotential))| == 2
    ensures |CurrentIds(RollOf(NextView(raft, known, isPotential, 0), known, isPotential))| < RequiredQuorum(2)
  {
    var f, roll := Classify(raft, known), RollOf(raft, known, isPotential);
    TwoVotersThreePotential(raft, known, isPotential, a, b, c);
    OneFailedVoter(raft, known, a);
    EntriesOf(f, raft, known, isPotential);
    LostByOne(f, roll, Quorums(0, 0, 0, 0));
    RollOfNext(raft, known, isPotential, 0);
  }

  lemma RollOfNext(raft: View, known: map<Id, Server>, isPotential: NodeType -> bool, minQuorum: nat)
    requires KeyedById(known)
    ensures var f, roll := Classify(raft, known), RollOf(raft, known, isPotential);
            var q := Quorums(minQuorum, minQuorum, minQuorum, minQuorum);
            && NoNilEntry(f, roll, q)
            && RollOf(NextView(raft, known, isPotential, minQuorum), known, isPotential) == roll - ToSet(RoundOf(f, roll, q).Removed())
  {
    var f, roll := Classify(raft, known), RollOf(raft, known, isPotential);
    EntriesOf(f, raft, known, isPotential);
    RoundClosedForm(f, roll, Quorums(minQuorum, minQuorum, minQuorum, minQuorum));
    RollWithout(raft, known, isPotential, ToSet(RoundAt(raft, known, isPotential, minQuorum).Removed()));
  }

  lemma TwoVotersThreePotential(raft: View, known: map<Id, Server>, isPotential: NodeType -> bool, a: Id, b: Id, c: Id)
    requires a != b && b != c && c != a && raft.Keys == known.Keys == {a, b, c}
    requires raft[a].suffrage == Voter && raft[b].suffrage == Voter && raft[c].suffrage == Nonvoter
    requires forall id :: id in known ==> isPotential(known[id].nodeType)
    ensures var roll := RollOf(raft, known, isPotential);
            |CurrentIds(roll)| == 2 && |PotentialIds(roll)| == 3 && CurrentIds(roll) <= PotentialIds(roll)
  {
    var roll := RollOf(raft, known, isPotential);
    assert CurrentIds(roll) == {a, b} && PotentialIds(roll) == {a, b, c};
  }

  lemma OneFailedVoter(raft: View, known: map<Id, Server>, a: Id)
    requires a in raft && a in known && raft[a].suffrage == Voter && known[a].nodeStatus == NodeFailed
    requires raft.Keys == known.Keys && forall id :: id in known && id != a ==> known[id].nodeStatus == NodeAlive
    ensures |Classify(raft, known).failedVoters| == 1 && Classify(raft, known).failedNonVoters == []
  {
    assert FailedIds(raft, known, true) == {a} && FailedIds(raft, known, false) == {};
    DistinctLength(Listed({a}, known));
    DistinctLength(Listed({}, known));
  }

  lemma LostByOne(f: FailedServers, roll: Roll, q: Quorums)
    requires ClassEntries(f, roll) && q == Quorums(0, 0, 0, 0)
    requires CurrentIds(roll) <= PotentialIds(roll) && |CurrentIds(roll)| == 2 && |PotentialIds(roll)| == 3
    requires |f.failedVoters| == 1 && f.failedNonVoters == []
    ensures NoNilEntry(f, roll, q)
    ensures |CurrentIds(roll - ToSet(RoundOf(f, roll, q).Removed()))| < RequiredQuorum(2)
  {
    assert StillPotential(f, roll, q) == 3;
    CountedQuorumSurvivesIff(f, roll, q);
  }

  /** Nor does the cap hold back failed voters whose type does not count: five voters, three of them
      failed and not to be voters, and with the other two a third potential voter. All three go,
      which leaves two voters of five, whatever the quorums read. */
  lemma UncountedVotersAreNotCapped(raft: View, known: map<Id, Server>, isPotential: NodeType -> bool, q: Quorums,
                                    dead: set<Id>, live: set<Id>, joining: Id)
    requires |dead| == 3 && |live| == 2 && dead !! live && joining !in dead + live
    requires raft.Keys == known.Keys == dead + live + {joining} && KeyedById(known)
    requires forall id :: id in raft ==> (raft[id].suffrage == Voter <==> id != joining)
    requires forall id :: id in known ==> (known[id].nodeStatus != NodeAlive <==> id in dead)
    requires forall id :: id in known ==> (isPotential(known[id].nodeType) <==> id !in dead)
    ensures var f, roll := Classify(raft, known), RollOf(raft, known, isPotential);
            && f.staleVoters == [] && |CurrentIds(roll)| == 5 && NoNilEntry(f, roll, q)
            && |CurrentIds(roll - ToSet(RoundOf(f, roll, q).Removed()))| == 2 < RequiredQuorum(5)
  {
    var f, roll := Classify(raft, known), RollOf(raft, known, isPotential);
    EntriesOf(f, raft, known, isPotential);
    OnlyFailedVoters(raft, known, dead);
    FiveVotersThreePotential(raft, known, isPotential, dead, live, joining);
    AllUncountedGo(f, roll, q);
  }

  lemma FiveVotersThreePotential(raft: View, known: map<Id, Server>, isPotential: NodeType -> bool,
                                 dead: set<Id>, live: set<Id>, joining: Id)
    requires |dead| == 3 && |live| == 2 && dead !! live && joining !in dead + live
    requires raft.Keys == known.Keys == dead + live + {joining}
    requires forall id :: id in raft ==> (raft[id].suffrage == Voter <==> id != joining)
    requires forall id :: id in known ==> (isPotential(known[id].nodeType) <==> id !in dead)
    ensures |CurrentIds(RollOf(raft, known, isPotential))| == 5
    ensures |PotentialIds(RollOf(raft, known, isPotential))| == 3
    ensures forall id :: id in dead ==> id in RollOf(raft, known, isPotential) && !RollOf(raft, known, isPotential)[id].potentialVoter
  {
    var roll := RollOf(raft, known, isPotential);
    assert CurrentIds(roll) == dead + live && |dead + live| == 5;
    assert PotentialIds(roll) == live + {joining};
  }

  lemma OnlyFailedVoters(raft: View, known: map<Id, Server>, dead: set<Id>)
    requires raft.Keys == known.Keys && KeyedById(known) && dead <= raft.Keys
    requires forall id :: id in dead ==> raft[id].suffrage == Voter
    requires forall id :: id in known ==> (known[id].nodeStatus != NodeAlive <==> id in dead)
    ensures var f := Classify(raft, known);
            && f.staleVoters == [] && f.failedNonVoters == [] && |f.failedVoters| == |dead|
            && forall id :: id in IdsOf(f.failedVoters) <==> id in dead
  {
    assert StaleIds(raft, known, true) == {} && FailedIds(raft, known, false) == {};
    ListingEmpty({});
    FailedListed(raft, known, true);
    assert FailedIds(raft, known, true) == dead;
    DistinctLength(Listed(dead, known));
  }

  /** Failed voters that do not count all go, while there are three potential voters. */
  lemma AllUncountedGo(f: FailedServers, roll: Roll, q: Quorums)
    requires ClassEntries(f, roll) && f.staleVoters == [] && f.failedNonVoters == [] && |PotentialIds(roll)| == 3
    requires forall id :: id in IdsOf(f.failedVoters) ==> !roll[id].potentialVoter
    ensures NoNilEntry(f, roll, q)
    ensures |CurrentIds(roll - ToSet(RoundOf(f, roll, q).Removed()))| == |CurrentIds(roll)| - |f.failedVoters|
  {
    assert StillPotential(f, roll, q) == 3;
    SurvivingVoters(f, roll, q);
    UncountedAllTaken(IdsOf(f.failedVoters), roll, Max(0, 3 - q.fourth), 1);
  }
}
