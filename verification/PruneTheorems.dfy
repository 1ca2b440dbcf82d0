/** Safety of one round of pruning, for every configuration, application view and promoter. */
module PruneTheorems {
  import opened Ids
  import opened Sorting
  import opened Types
  import opened RaftCluster
  import opened Registry
  import opened Adjudication
  import opened Choices
  import opened Classification
  import opened Membership
  import opened Prune
  import opened PruneSafety

  function CurrentIds(roll: Roll): set<Id> {
    set id | id in roll && roll[id].currentVoter
  }

  /** The ids a round removes, out of a found set of candidates. */
  lemma RemovedAreCandidates(f: FailedServers, roll: Roll, q: Quorums)
    requires ClassEntries(f, roll)
    ensures var r := ClosedRound(f, roll, q);
            && (forall id :: id in r.failedNonVoters ==> id in IdsOf(f.failedNonVoters))
            && (forall id :: id in r.failedVoters ==> id in IdsOf(f.failedVoters))
            && Distinct(r.failedNonVoters) && Distinct(r.failedVoters)
            && Distinct(r.staleNonVoters) && Distinct(r.staleVoters)
  {
    var p := StillPotential(f, roll, q);
    var ids3, ids4 := IdsOf(f.failedNonVoters), IdsOf(f.failedVoters);
    var r := ClosedRound(f, roll, q);
    TakeIsSublist(ids3, roll, Max(0, |PotentialIds(roll)| - q.third));
    SublistFacts(r.failedNonVoters, ids3);
    TakeIsSublist(ids4, roll, Max(0, p - q.fourth));
    ThroughIsSublist(ids4, roll, Max(0, Cap(p)));
    SublistFacts(r.failedVoters, ids4);
  }

  lemma DistinctConcat(a: seq<Id>, b: seq<Id>)
    requires Distinct(a) && Distinct(b) && forall x :: x in a ==> x !in b
    ensures Distinct(a + b)
  {
    forall i, j | 0 <= i < j < |a + b| ensures (a + b)[i] != (a + b)[j] {
      assert i < |a| ==> a[i] in a;
      assert j >= |a| ==> b[j - |a|] in b;
    }
  }

  lemma HasMember<T>(xs: seq<T>)
    ensures xs != [] ==> exists x :: x in xs
  {
    if xs != [] {
      assert xs[0] in xs;
    }
  }

  lemma FourDistinct(a: seq<Id>, b: seq<Id>, c: seq<Id>, d: seq<Id>)
    requires Distinct(a) && Distinct(b) && Distinct(c) && Distinct(d)
    requires forall x :: x in a ==> x !in b && x !in c && x !in d
    requires forall x :: x in b ==> x !in c && x !in d
    requires forall x :: x in c ==> x !in d
    ensures Distinct(a + b + c + d)
  {
    DistinctConcat(a, b);
    DistinctConcat(a + b, c);
    DistinctConcat(a + b + c, d);
  }

  lemma MembersOf(xs: seq<Id>, s: set<Id>)
    requires ToSet(xs) <= s
    ensures forall id :: id in xs ==> id in s
  {
    assert forall id :: id in xs ==> id in ToSet(xs);
  }

  /** With a filter that only selects, a round looks up no missing entry, removes nobody twice, and
      removes only servers of the configuration that are unknown or not alive. */
  lemma RemovesOnlyTheDeadOnce(f: FailedServers, raft: View, known: map<Id, Server>, isPotential: NodeType -> bool, q: Quorums)
    requires KeyedById(known) && Selects(f, Classify(raft, known))
    ensures var roll := RollOf(raft, known, isPotential);
            && NoNilEntry(f, roll, q)
            && var removed := RoundOf(f, roll, q).Removed();
               && Distinct(removed)
               && forall id :: id in removed ==> id in raft && (id !in known || known[id].nodeStatus != NodeAlive)
  {
    var roll := RollOf(raft, known, isPotential);
    EntriesOf(f, raft, known, isPotential);
    RoundClosedForm(f, roll, q);
    RemovedOnce(f, roll, q);
    var r := ClosedRound(f, roll, q);
    RemovedAreCandidates(f, roll, q);
    CandidatesInDead(f, raft, known);
    assert forall id :: id in r.Removed() ==>
      id in r.staleNonVoters || id in r.staleVoters || id in r.failedNonVoters || id in r.failedVoters;
  }

  /** Where the candidates come from, said of each server. */
  lemma CandidatesInDead(f: FailedServers, raft: View, known: map<Id, Server>)
    requires KeyedById(known) && Selects(f, Classify(raft, known))
    ensures forall id :: id in f.staleNonVoters || id in f.staleVoters || id in IdsOf(f.failedNonVoters) || id in IdsOf(f.failedVoters) ==>
              id in raft && (id !in known || known[id].nodeStatus != NodeAlive)
  {
    CandidatesAreDead(f, raft, known);
    MembersOf(f.staleNonVoters, StaleIds(raft, known, false));
    MembersOf(f.staleVoters, StaleIds(raft, known, true));
    MembersOf(IdsOf(f.failedNonVoters), FailedIds(raft, known, false));
    MembersOf(IdsOf(f.failedVoters), FailedIds(raft, known, true));
  }

  lemma RemovedOnce(f: FailedServers, roll: Roll, q: Quorums)
    requires ClassEntries(f, roll)
    ensures Distinct(ClosedRound(f, roll, q).Removed())
  {
    RemovedAreCandidates(f, roll, q);
    var r := ClosedRound(f, roll, q);
    FourDistinct(r.staleNonVoters, r.staleVoters, r.failedNonVoters, r.failedVoters);
  }

  lemma {:induction false} MatchingOne(servers: seq<Server>, id: Id)
    requires Distinct(IdsOf(servers))
    ensures id in IdsOf(servers) ==> |Matching(servers, id)| == 1 && Matching(servers, id)[0].id == id
    ensures id !in IdsOf(servers) ==> Matching(servers, id) == []
  {
    if servers != [] {
      var n := |servers| - 1;
      assert IdsOf(servers) == IdsOf(servers[..n]) + [servers[n].id];
      MatchingOne(servers[..n], id);
    }
  }

  lemma {:induction false} GetFailedIds(servers: seq<Server>, ids: seq<Id>)
    requires Distinct(IdsOf(servers)) && forall id :: id in ids ==> id in IdsOf(servers)
    ensures IdsOf(GetFailed(servers, ids)) == ids
  {
    if ids != [] {
      var n := |ids| - 1;
      GetFailedIds(servers, ids[..n]);
      MatchingOne(servers, ids[n]);
      IdsOfConcat(GetFailed(servers, ids[..n]), Matching(servers, ids[n]));
      assert IdsOf(Matching(servers, ids[n])) == [ids[n]];
      assert ids == ids[..n] + [ids[n]];
    }
  }

  /** The application is asked to remove exactly the adjudicated servers, in order. */
  lemma IssuedInOrder(f: FailedServers, roll: Roll, q: Quorums, calls: seq<Call>, removed: seq<Server>)
    requires ClassEntries(f, roll) && NoNilEntry(f, roll, q)
    requires Finished(RoundOf(f, roll, q), f, calls, removed)
    ensures IdsOf(removed) == RoundOf(f, roll, q).failedNonVoters + RoundOf(f, roll, q).failedVoters
  {
    RoundClosedForm(f, roll, q);
    RemovedAreCandidates(f, roll, q);
    var r := ClosedRound(f, roll, q);
    GetFailedIds(f.failedNonVoters, r.failedNonVoters);
    GetFailedIds(f.failedVoters, r.failedVoters);
    var x, y := GetFailed(f.failedNonVoters, r.failedNonVoters), GetFailed(f.failedVoters, r.failedVoters);
    IdsOfConcat(x, y);
  }

  lemma IdsOfConcat(x: seq<Server>, y: seq<Server>)
    ensures IdsOf(x + y) == IdsOf(x) + IdsOf(y)
  {
  }

  /** All four phases, whatever the lists: the potential voters left are at least the smaller of
      those there were and the quorums read. */
  lemma RoundFloor(failed: FailedServers, roll: Roll, q: Quorums, floor: nat)
    requires NoNilEntry(failed, roll, q)
    requires floor <= q.first && floor <= q.second && floor <= q.third && floor <= q.fourth
    ensures |PotentialIds(roll - ToSet(RoundOf(failed, roll, q).Removed()))| >= Min(|PotentialIds(roll)|, floor)
  {
    var r := RoundOf(failed, roll, q);
    PhaseFloorAndCap(failed.staleNonVoters, roll, q.first);
    var roll1 := roll - ToSet(r.staleNonVoters);
    PhaseFloorAndCap(failed.staleVoters, roll1, q.second);
    var roll2 := roll1 - ToSet(r.staleVoters);
    PhaseFloorAndCap(RegisteredIn(failed.failedNonVoters, roll2), roll2, q.third);
    var roll3 := roll2 - ToSet(r.failedNonVoters);
    PhaseFloorAndCap(RegisteredIn(failed.failedVoters, roll3), roll3, q.fourth);
    assert roll - ToSet(r.Removed()) == roll3 - ToSet(r.failedVoters);
  }

  /** Pruning and AddServer give up the same number of voters. */
  lemma CapIsSpareQuorum(n: nat)
    requires n >= 1
    ensures Cap(n) == n - RequiredQuorum(n)
  {
  }

  /** How many current voters a round leaves, exactly. */
  lemma SurvivingVoters(f: FailedServers, roll: Roll, q: Quorums)
    requires ClassEntries(f, roll)
    ensures NoNilEntry(f, roll, q)
    ensures |CurrentIds(roll - ToSet(RoundOf(f, roll, q).Removed()))| ==
            |CurrentIds(roll)| - (if |PotentialIds(roll)| >= 3 then |f.staleVoters| else 0)
            - |VotersRemoved(IdsOf(f.failedVoters), roll, StillPotential(f, roll, q), q.fourth)|
  {
    RoundClosedForm(f, roll, q);
    RemovedAreCandidates(f, roll, q);
    var r := ClosedRound(f, roll, q);
    SurvivorsAre(f, roll, q);
    BothGone(CurrentIds(roll), r.staleVoters, r.failedVoters);
  }

  lemma BothGone(all: set<Id>, a: seq<Id>, b: seq<Id>)
    requires Distinct(a) && Distinct(b) && (forall id :: id in a ==> id in all && id !in b) && (forall id :: id in b ==> id in all)
    ensures |all - (ToSet(a) + ToSet(b))| == |all| - |a| - |b|
  {
    DistinctLength(a);
    DistinctLength(b);
    assert ToSet(a) !! ToSet(b) && ToSet(a) + ToSet(b) <= all;
    assert |all - (ToSet(a) + ToSet(b))| == |all| - |ToSet(a) + ToSet(b)|;
  }

  lemma SurvivorsAre(f: FailedServers, roll: Roll, q: Quorums)
    requires ClassEntries(f, roll)
    ensures var r := ClosedRound(f, roll, q);
            CurrentIds(roll - ToSet(r.Removed())) == CurrentIds(roll) - (ToSet(r.staleVoters) + ToSet(r.failedVoters))
  {
    RemovedAreCandidates(f, roll, q);
    var r := ClosedRound(f, roll, q);
    forall id | id in CurrentIds(roll)
      ensures id in r.Removed() <==> id in r.staleVoters || id in r.failedVoters
    {
    }
  }

  lemma RemovedVotersBound(ids: seq<Id>, roll: Roll, p: nat, q: nat)
    requires AllIn(ids, roll) && forall id :: id in ids ==> roll[id].potentialVoter
    ensures |VotersRemoved(ids, roll, p, q)| == Min(|ids|, Max(0, Min(p - q, Cap(p))))
  {
    TakeIsPrefix(ids, roll, Max(0, p - q));
    ThroughIsPrefix(ids, roll, Max(0, Cap(p)));
  }

  /** If before a round the voters are exactly the potential voters, a quorum of them outlives it. */
  lemma QuorumSurvives(f: FailedServers, roll: Roll, q: Quorums)
    requires ClassEntries(f, roll) && CurrentIds(roll) == PotentialIds(roll) != {}
    ensures NoNilEntry(f, roll, q)
    ensures |CurrentIds(roll - ToSet(RoundOf(f, roll, q).Removed()))| >= RequiredQuorum(|CurrentIds(roll)|)
  {
    SurvivingVoters(f, roll, q);
    assert f.staleVoters == [] by {
      assert forall id :: id in f.staleVoters ==> id in CurrentIds(roll) && id !in PotentialIds(roll);
      HasMember(f.staleVoters);
    }
    var ids := IdsOf(f.failedVoters);
    forall id | id in ids ensures roll[id].potentialVoter {
      assert id in CurrentIds(roll);
    }
    forall id | id in IdsOf(f.failedNonVoters) ensures !roll[id].potentialVoter {
      assert id !in CurrentIds(roll);
    }
    NonePotential(IdsOf(f.failedNonVoters), roll);
    assert StillPotential(f, roll, q) == |PotentialIds(roll)|;
    RemovedVotersBound(ids, roll, StillPotential(f, roll, q), q.fourth);
    CapIsSpareQuorum(|CurrentIds(roll)|);
  }

  /** How many failed voters the last phase removes, `p` potential voters being registered: none
      with two or fewer; those that do not count and as many of the others as the floor spares, if
      the floor binds; otherwise everybody up to the last one the cap lets go. */
  function LastPhaseLoss(ids: seq<Id>, roll: Roll, p: nat, minQuorum: nat): nat
    requires AllIn(ids, roll)
  {
    var spare := Max(0, p - minQuorum);
    if p <= 2 then 0
    else if spare < Cap(p) then |ids| - Potential(ids, roll) + Min(spare, Potential(ids, roll))
    else CapReach(ids, roll, Cap(p))
  }

  lemma RemovedVotersCount(ids: seq<Id>, roll: Roll, p: nat, minQuorum: nat)
    requires AllIn(ids, roll)
    ensures |VotersRemoved(ids, roll, p, minQuorum)| == LastPhaseLoss(ids, roll, p, minQuorum)
  {
    TakeSize(ids, roll, Max(0, p - minQuorum));
    ThroughIsReach(ids, roll, Max(0, Cap(p)));
  }

  /** In general it need not. This is exactly when it does, whatever the voters: the stale voters,
      if they go, and the failed voters that go (all known beforehand) do not together exceed the
      spare of the current voters. */
  lemma QuorumSurvivesIff(f: FailedServers, roll: Roll, q: Quorums)
    requires ClassEntries(f, roll) && CurrentIds(roll) != {}
    ensures NoNilEntry(f, roll, q)
    ensures var n := |CurrentIds(roll)|;
            |CurrentIds(roll - ToSet(RoundOf(f, roll, q).Removed()))| >= RequiredQuorum(n)
            <==> (if |PotentialIds(roll)| >= 3 then |f.staleVoters| else 0)
                 + LastPhaseLoss(IdsOf(f.failedVoters), roll, StillPotential(f, roll, q), q.fourth) <= Cap(n)
  {
    SurvivingVoters(f, roll, q);
    RemovedVotersCount(IdsOf(f.failedVoters), roll, StillPotential(f, roll, q), q.fourth);
    CapIsSpareQuorum(|CurrentIds(roll)|);
  }

  /** When every voter counts as potential, there are no stale voters, and only the number of failed
      ones matters. */
  lemma CountedQuorumSurvivesIff(f: FailedServers, roll: Roll, q: Quorums)
    requires ClassEntries(f, roll) && CurrentIds(roll) <= PotentialIds(roll) && CurrentIds(roll) != {}
    ensures NoNilEntry(f, roll, q)
    ensures var n := |CurrentIds(roll)|;
            var p := StillPotential(f, roll, q);
            |CurrentIds(roll - ToSet(RoundOf(f, roll, q).Removed()))| >= RequiredQuorum(n)
            <==> Min(|f.failedVoters|, Min(p - q.fourth, Cap(p))) <= Cap(n)
  {
    QuorumSurvivesIff(f, roll, q);
    assert f.staleVoters == [] by {
      assert forall id :: id in f.staleVoters ==> id in CurrentIds(roll) && id !in PotentialIds(roll);
      HasMember(f.staleVoters);
    }
    var ids := IdsOf(f.failedVoters);
    forall id | id in ids ensures roll[id].potentialVoter {
      assert id in CurrentIds(roll);
    }
    RemovedVotersCount(ids, roll, StillPotential(f, roll, q), q.fourth);
    RemovedVotersBound(ids, roll, StillPotential(f, roll, q), q.fourth);
  }

  /** The cap is on potential voters, so stale voters, and failed voters of a type that does not
      count, go uncapped. The stale voters alone are at most a spare minority of the voters exactly
      when their phase does nothing or there are few enough of them. */
  lemma StalePhaseKeepsQuorumIff(f: FailedServers, roll: Roll, q: Quorums)
    requires ClassEntries(f, roll) && CurrentIds(roll) != {}
    ensures NoNilEntry(f, roll, q)
    ensures var second := RoundOf(f, roll, q).staleVoters;
            |CurrentIds(roll - ToSet(second))| >= RequiredQuorum(|CurrentIds(roll)|)
            <==> |PotentialIds(roll)| <= 2 || |f.staleVoters| <= Cap(|CurrentIds(roll)|)
  {
    RoundClosedForm(f, roll, q);
    var second := RoundOf(f, roll, q).staleVoters;
    assert CurrentIds(roll - ToSet(second)) == CurrentIds(roll) - ToSet(second);
    assert ToSet(second) <= CurrentIds(roll);
    DistinctLength(second);
    assert |CurrentIds(roll) - ToSet(second)| == |CurrentIds(roll)| - |ToSet(second)|;
    CapIsSpareQuorum(|CurrentIds(roll)|);
  }
}
