/** What a whole round of pruning removes, and what it leaves. */
module PruneSafety {
  import opened Ids
  import opened Sorting
  import opened IdLists
  import opened Types
  import opened Registry
  import opened Adjudication
  import opened Choices
  import opened Classification
  import opened Prune

  /** A promoter's filter may drop servers and reorder them, not invent them. */
  ghost predicate Selects(f: FailedServers, found: FailedServers) {
    && multiset(f.staleNonVoters) <= multiset(found.staleNonVoters)
    && multiset(f.staleVoters) <= multiset(found.staleVoters)
    && multiset(f.failedNonVoters) <= multiset(found.failedNonVoters)
    && multiset(f.failedVoters) <= multiset(found.failedVoters)
  }

  lemma SublistFacts<T>(xs: seq<T>, ys: seq<T>)
    requires multiset(xs) <= multiset(ys)
    ensures forall x :: x in xs ==> x in ys
    ensures Distinct(ys) ==> Distinct(xs)
  {
    forall x | x in xs ensures x in ys {
      assert x in multiset(xs);
    }
    if Distinct(ys) {
      forall i, j | 0 <= i < j < |xs| ensures xs[i] != xs[j] {
        DistinctMultiplicity(ys, xs[i]);
        if xs[i] == xs[j] {
          RepeatedMultiplicity(xs, i, j);
        }
      }
    }
  }

  lemma ListedIn(xs: seq<Id>, all: set<Id>)
    requires multiset(xs) <= multiset(Listing(all))
    ensures Distinct(xs) && ToSet(xs) <= all
  {
    SublistFacts(xs, Listing(all));
    assert forall id :: id in Listing(all) ==> id in ToSet(Listing(all));
  }

  lemma ServersIn(servers: seq<Server>, known: map<Id, Server>, ids: set<Id>)
    requires KeyedById(known) && ids <= known.Keys
    requires multiset(servers) <= multiset(ServersOf(known, Listed(ids, known)))
    ensures Covers(servers, known, ToSet(IdsOf(servers))) && ToSet(IdsOf(servers)) <= ids
  {
    var xs := Listed(ids, known);
    var all := ServersOf(known, xs);
    forall i, j | 0 <= i < j < |all| ensures all[i] != all[j] {
      assert xs[i] != xs[j];
    }
    SublistFacts(servers, all);
    forall s | s in servers ensures s.id in ids && s.id in known && known[s.id] == s {
      var i :| 0 <= i < |all| && all[i] == s;
      assert xs[i] in ToSet(xs);
    }
    forall i, j | 0 <= i < j < |servers| ensures servers[i].id != servers[j].id {
      assert servers[i] in servers && servers[j] in servers;
    }
  }

  /** The candidates of each phase are distinct and of the phase's own class. */
  lemma CandidatesAreDead(f: FailedServers, raft: View, known: map<Id, Server>)
    requires KeyedById(known) && Selects(f, Classify(raft, known))
    ensures Distinct(f.staleNonVoters) && ToSet(f.staleNonVoters) <= StaleIds(raft, known, false)
    ensures Distinct(f.staleVoters) && ToSet(f.staleVoters) <= StaleIds(raft, known, true)
    ensures Covers(f.failedNonVoters, known, ToSet(IdsOf(f.failedNonVoters)))
    ensures ToSet(IdsOf(f.failedNonVoters)) <= FailedIds(raft, known, false)
    ensures Covers(f.failedVoters, known, ToSet(IdsOf(f.failedVoters)))
    ensures ToSet(IdsOf(f.failedVoters)) <= FailedIds(raft, known, true)
  {
    ListedIn(f.staleNonVoters, StaleIds(raft, known, false));
    ListedIn(f.staleVoters, StaleIds(raft, known, true));
    ServersIn(f.failedNonVoters, known, FailedIds(raft, known, false));
    ServersIn(f.failedVoters, known, FailedIds(raft, known, true));
  }

  lemma {:induction false} AllRegistered(servers: seq<Server>, roll: Roll)
    requires forall i :: 0 <= i < |servers| ==> servers[i].id in roll
    ensures Registered(servers, roll) == IdsOf(servers)
  {
    if servers != [] {
      var rest := servers[..|servers| - 1];
      AllRegistered(rest, roll);
      assert IdsOf(servers) == IdsOf(rest) + [servers[|servers| - 1].id];
    }
  }

  lemma {:induction false} TakeAgrees(ids: seq<Id>, a: Roll, b: Roll, m: nat)
    requires AllIn(ids, a) && AllIn(ids, b) && forall id :: id in ids ==> a[id] == b[id]
    ensures TakePotential(ids, a, m) == TakePotential(ids, b, m)
    ensures Potential(ids, a) == Potential(ids, b)
  {
    if ids != [] {
      TakeAgrees(ids[1..], a, b, m);
      if m > 0 { TakeAgrees(ids[1..], a, b, m - 1); } else { TakeAgrees(ids[1..], a, b, 0); }
    }
  }

  lemma {:induction false} ThroughAgrees(ids: seq<Id>, a: Roll, b: Roll, c: nat)
    requires AllIn(ids, a) && AllIn(ids, b) && forall id :: id in ids ==> a[id] == b[id]
    ensures ThroughPotential(ids, a, c) == ThroughPotential(ids, b, c)
  {
    if ids != [] && c > 0 {
      ThroughAgrees(ids[1..], a, b, if a[ids[0]].potentialVoter then c - 1 else c);
    }
  }

  /** The last phase in closed form: `p` potential voters are still registered. */
  ghost function VotersRemoved(ids: seq<Id>, roll: Roll, p: nat, minQuorum: nat): seq<Id>
    requires AllIn(ids, roll)
  {
    var spare := Max(0, p - minQuorum);
    if p <= 2 then []
    else if spare < Cap(p) then TakePotential(ids, roll, spare)
    else ThroughPotential(ids, roll, Cap(p))
  }

  lemma NobodyCounted(ids: seq<Id>, roll: Roll)
    requires AllIn(ids, roll) && forall id :: id in ids ==> !roll[id].potentialVoter
    ensures PotentialIds(roll - ToSet(ids)) == PotentialIds(roll)
  {
    assert forall id :: id in ToSet(ids) ==> id in ids;
  }

  /** The candidates of the phases are distinct, all registered, and have the entries their class
      gives them. */
  ghost predicate ClassEntries(f: FailedServers, roll: Roll) {
    && AllIn(f.staleNonVoters, roll) && Distinct(f.staleNonVoters)
    && (forall id :: id in f.staleNonVoters ==> !roll[id].currentVoter && !roll[id].potentialVoter)
    && AllIn(f.staleVoters, roll) && Distinct(f.staleVoters)
    && (forall id :: id in f.staleVoters ==> roll[id].currentVoter && !roll[id].potentialVoter)
    && AllIn(IdsOf(f.failedNonVoters), roll) && Distinct(IdsOf(f.failedNonVoters))
    && (forall id :: id in IdsOf(f.failedNonVoters) ==> !roll[id].currentVoter)
    && AllIn(IdsOf(f.failedVoters), roll) && Distinct(IdsOf(f.failedVoters))
    && (forall id :: id in IdsOf(f.failedVoters) ==> roll[id].currentVoter)
    && (forall id :: id in f.staleNonVoters ==> id !in IdsOf(f.failedNonVoters))
    && (forall id :: id in f.staleVoters ==> id !in IdsOf(f.failedVoters))
  }

  lemma EntriesOf(f: FailedServers, raft: View, known: map<Id, Server>, isPotential: NodeType -> bool)
    requires KeyedById(known) && Selects(f, Classify(raft, known))
    ensures ClassEntries(f, RollOf(raft, known, isPotential))
  {
    CandidatesAreDead(f, raft, known);
    StaleClass(f.staleNonVoters, raft, known, isPotential, false);
    StaleClass(f.staleVoters, raft, known, isPotential, true);
    FailedClass(IdsOf(f.failedNonVoters), raft, known, isPotential, false);
    FailedClass(IdsOf(f.failedVoters), raft, known, isPotential, true);
    Apart(f.staleNonVoters, IdsOf(f.failedNonVoters), raft, known, false);
    Apart(f.staleVoters, IdsOf(f.failedVoters), raft, known, true);
  }

  lemma StaleClass(xs: seq<Id>, raft: View, known: map<Id, Server>, isPotential: NodeType -> bool, voters: bool)
    requires ToSet(xs) <= StaleIds(raft, known, voters)
    ensures AllIn(xs, RollOf(raft, known, isPotential))
    ensures forall id :: id in xs ==> RollOf(raft, known, isPotential)[id] == Eligibility(voters, false)
  {
    assert forall id :: id in xs ==> id in ToSet(xs);
  }

  lemma FailedClass(xs: seq<Id>, raft: View, known: map<Id, Server>, isPotential: NodeType -> bool, voters: bool)
    requires ToSet(xs) <= FailedIds(raft, known, voters)
    ensures AllIn(xs, RollOf(raft, known, isPotential))
    ensures forall id :: id in xs ==> RollOf(raft, known, isPotential)[id].currentVoter == voters
  {
    assert forall id :: id in xs ==> id in ToSet(xs);
  }

  lemma Apart(xs: seq<Id>, ys: seq<Id>, raft: View, known: map<Id, Server>, voters: bool)
    requires ToSet(xs) <= StaleIds(raft, known, voters) && ToSet(ys) <= FailedIds(raft, known, voters)
    ensures forall id :: id in xs ==> id !in ys
  {
    assert forall id :: id in xs ==> id in ToSet(xs);
    assert forall id :: id in ys ==> id in ToSet(ys);
  }

  /** A whole round without its loops. All stale non-voters go; stale voters go all together, and
      only while three potential voters are registered; failed non-voters go down to the quorum;
      failed voters go down to the quorum or up to the cap. No entry is ever missing. */
  ghost function ClosedRound(f: FailedServers, roll: Roll, q: Quorums): Round
    requires ClassEntries(f, roll)
  {
    var p := |PotentialIds(roll)|;
    Round(
      f.staleNonVoters,
      if p >= 3 then f.staleVoters else [],
      TakePotential(IdsOf(f.failedNonVoters), roll, Max(0, p - q.third)),
      VotersRemoved(IdsOf(f.failedVoters), roll, StillPotential(f, roll, q), q.fourth))
  }

  /** The potential voters the last phase starts from. */
  ghost function StillPotential(f: FailedServers, roll: Roll, q: Quorums): nat
    requires ClassEntries(f, roll)
  {
    var p := |PotentialIds(roll)|;
    Max(0, p - Min(Potential(IdsOf(f.failedNonVoters), roll), Max(0, p - q.third)))
  }

  lemma RoundClosedForm(f: FailedServers, roll: Roll, q: Quorums)
    requires ClassEntries(f, roll)
    ensures NoNilEntry(f, roll, q)
    ensures RoundOf(f, roll, q) == ClosedRound(f, roll, q)
    ensures |PotentialIds(roll - ToSet(ClosedRound(f, roll, q).staleNonVoters) - ToSet(ClosedRound(f, roll, q).staleVoters)
                               - ToSet(ClosedRound(f, roll, q).failedNonVoters))| == StillPotential(f, roll, q)
  {
    StalePhases(f, roll, q);
    var round := ClosedRound(f, roll, q);
    var roll2 := roll - ToSet(round.staleNonVoters) - ToSet(round.staleVoters);
    StaleAreStruck(f, roll, round.staleVoters);
    ThirdPhase(f, roll, roll2, q.third);
    var roll3 := roll2 - ToSet(round.failedNonVoters);
    assert |PotentialIds(roll3)| == StillPotential(f, roll, q);
    VotersRemain(f, roll, roll2, round.failedNonVoters);
    FourthPhase(f, roll, roll3, q.fourth);
  }

  lemma StaleAreStruck(f: FailedServers, roll: Roll, second: seq<Id>)
    requires ClassEntries(f, roll) && (second == f.staleVoters || second == [])
    requires PotentialIds(roll - ToSet(f.staleNonVoters) - ToSet(second)) == PotentialIds(roll)
    ensures StaleStruck(f, roll, roll - ToSet(f.staleNonVoters) - ToSet(second))
  {
  }

  lemma VotersRemain(f: FailedServers, roll: Roll, roll2: Roll, third: seq<Id>)
    requires ClassEntries(f, roll) && StaleStruck(f, roll, roll2)
    requires forall id :: id in third ==> id in IdsOf(f.failedNonVoters)
    ensures forall id :: id in IdsOf(f.failedVoters) ==> id in roll2 - ToSet(third)
  {
  }

  lemma StalePhases(f: FailedServers, roll: Roll, q: Quorums)
    requires ClassEntries(f, roll)
    ensures NoNilEntry(f, roll, q)
    ensures Adjudicate(f.staleNonVoters, roll, q.first) == f.staleNonVoters
    ensures var roll1 := roll - ToSet(f.staleNonVoters);
            var second := if |PotentialIds(roll)| >= 3 then f.staleVoters else [];
            && AllIn(f.staleVoters, roll1)
            && Adjudicate(f.staleVoters, roll1, q.second) == second
            && PotentialIds(roll1 - ToSet(second)) == PotentialIds(roll)
  {
    var p := |PotentialIds(roll)|;
    NonVotersClosedForm(f.staleNonVoters, roll, q.first);
    UncountedAllTaken(f.staleNonVoters, roll, Max(0, p - q.first), 1);
    NobodyCounted(f.staleNonVoters, roll);
    var roll1 := roll - ToSet(f.staleNonVoters);
    assert forall id :: id in f.staleVoters ==> id !in ToSet(f.staleNonVoters);
    UncountedVotersClosedForm(f.staleVoters, roll1, q.second);
    NobodyCounted(if p >= 3 then f.staleVoters else [], roll1);
  }

  /** `rest` is what two phases that removed only uncounted servers left of `roll`. */
  ghost predicate StaleStruck(f: FailedServers, roll: Roll, rest: Roll) {
    && (forall id :: id in rest ==> id in roll && rest[id] == roll[id])
    && (forall id :: id in IdsOf(f.failedNonVoters) || id in IdsOf(f.failedVoters) ==> id in rest)
    && PotentialIds(rest) == PotentialIds(roll)
  }

  lemma ThirdPhase(f: FailedServers, roll: Roll, roll2: Roll, q: nat)
    requires ClassEntries(f, roll) && StaleStruck(f, roll, roll2)
    ensures var ids := IdsOf(f.failedNonVoters);
            var m := Max(0, |PotentialIds(roll)| - q);
            && AllIn(ids, roll2) && RegisteredIn(f.failedNonVoters, roll2) == ids
            && Adjudicate(ids, roll2, q) == TakePotential(ids, roll, m)
            && |PotentialIds(roll2 - ToSet(TakePotential(ids, roll, m)))| == |PotentialIds(roll)| - Min(Potential(ids, roll), m)
            && (forall id :: id in TakePotential(ids, roll, m) ==> id in ids)
  {
    var ids := IdsOf(f.failedNonVoters);
    var m := Max(0, |PotentialIds(roll)| - q);
    assert forall i :: 0 <= i < |ids| ==> ids[i] in ids;
    AllRegistered(f.failedNonVoters, roll2);
    NonVotersClosedForm(ids, roll2, q);
    TakeAgrees(ids, roll2, roll, m);
    TakeShrinks(ids, roll2, m);
  }

  lemma TakeShrinks(ids: seq<Id>, roll: Roll, m: nat)
    requires AllIn(ids, roll) && Distinct(ids)
    ensures |PotentialIds(roll - ToSet(TakePotential(ids, roll, m)))| == |PotentialIds(roll)| - Min(Potential(ids, roll), m)
    ensures forall id :: id in TakePotential(ids, roll, m) ==> id in ids
  {
    TakeIsSublist(ids, roll, m);
    SublistFacts(TakePotential(ids, roll, m), ids);
    TakeCount(ids, roll, m);
    RemovalShrinksBy(roll, TakePotential(ids, roll, m));
  }

  lemma FourthPhase(f: FailedServers, roll: Roll, roll3: Roll, q: nat)
    requires ClassEntries(f, roll)
    requires forall id :: id in roll3 ==> id in roll && roll3[id] == roll[id]
    requires forall id :: id in IdsOf(f.failedVoters) ==> id in roll3
    ensures var ids := IdsOf(f.failedVoters);
            && AllIn(ids, roll3) && RegisteredIn(f.failedVoters, roll3) == ids
            && Adjudicate(ids, roll3, q) == VotersRemoved(ids, roll, |PotentialIds(roll3)|, q)
  {
    var ids := IdsOf(f.failedVoters);
    var p := |PotentialIds(roll3)|;
    assert forall i :: 0 <= i < |ids| ==> ids[i] in ids;
    AllRegistered(f.failedVoters, roll3);
    VotersClosedForm(ids, roll3, q);
    TakeAgrees(ids, roll3, roll, Max(0, p - q));
    ThroughAgrees(ids, roll3, roll, Max(0, Cap(p)));
  }
}
