/** reconcile.go, adjudicateRemoval: which of a list of servers may be removed.
    The loop is specified by `Adjudicate` and then characterised without it: closed forms for
    lists of voters and of non-voters, and the floor and the cap it keeps. */
module Adjudication {
  import opened Ids
  import opened Sorting
  import opened Types
  import opened Registry

  function Max(a: int, b: int): int { if a >= b then a else b }
  function Min(a: int, b: int): int { if a <= b then a else b }

  /** How many potential voters may go at once. */
  function Cap(potential: nat): int {
    TruncatedDiv(potential - 1, 2)
  }

  ghost predicate AllIn(ids: seq<Id>, roll: Roll) {
    forall id :: id in ids ==> id in roll
  }

  /** The loop from some point on: `left` potential voters remain, `cap` of them may still go. */
  function AdjudicateFrom(ids: seq<Id>, roll: Roll, minQuorum: nat, left: int, cap: int): seq<Id>
    requires AllIn(ids, roll)
    decreases |ids|
  {
    if ids == [] then []
    else
      var v := roll[ids[0]];
      if v.potentialVoter && left - 1 < minQuorum then AdjudicateFrom(ids[1..], roll, minQuorum, left, cap)
      else if v.currentVoter && cap < 1 then AdjudicateFrom(ids[1..], roll, minQuorum, left, cap)
      else if v.potentialVoter then [ids[0]] + AdjudicateFrom(ids[1..], roll, minQuorum, left - 1, cap - 1)
      else [ids[0]] + AdjudicateFrom(ids[1..], roll, minQuorum, left, cap)
  }

  function Adjudicate(ids: seq<Id>, roll: Roll, minQuorum: nat): seq<Id>
    requires AllIn(ids, roll)
  {
    var potential := |PotentialIds(roll)|;
    AdjudicateFrom(ids, roll, minQuorum, potential, Cap(potential))
  }

  datatype Removal = NilEntry | Removal(ids: seq<Id>)

  /** The loop itself. The nil check guards only the first test: an id without an entry is
      dereferenced by the second. */
  method AdjudicateRemoval(ids: seq<Id>, vr: VoterRegistry, minQuorum: nat) returns (r: Removal)
    requires vr.Valid()
    ensures r.NilEntry? <==> !AllIn(ids, vr.Contents())
    ensures r.Removal? ==> r.ids == Adjudicate(ids, vr.Contents(), minQuorum)
  {
    var result: seq<Id> := [];
    var initialPotentialVoters := vr.PotentialVoters();
    var removedPotentialVoters := 0;
    var maxRemoval := TruncatedDiv(initialPotentialVoters - 1, 2);
    ghost var roll := vr.Contents();
    NoneSeen(ids, roll, minQuorum);
    for i := 0 to |ids|
      invariant vr.Contents() == roll
      invariant SoFar(result, i, ids, roll, minQuorum, initialPotentialVoters - removedPotentialVoters, maxRemoval)
    {
      var id := ids[i];
      var entry := vr.Lookup(id);
      if entry.None? {
        assert id in ids && id !in roll;
        return NilEntry;
      }
      var v := entry.value;
      OneMoreSeen(result, i, ids, roll, minQuorum, initialPotentialVoters - removedPotentialVoters, maxRemoval);
      if v.potentialVoter && initialPotentialVoters - removedPotentialVoters - 1 < minQuorum {
      } else if v.currentVoter && maxRemoval < 1 {
      } else if v.potentialVoter {
        maxRemoval := maxRemoval - 1;
        removedPotentialVoters := removedPotentialVoters + 1;
        result := result + [id];
      } else {
        result := result + [id];
      }
    }
    AllSeen(result, ids, roll, minQuorum, initialPotentialVoters - removedPotentialVoters, maxRemoval);
    r := Removal(result);
  }

  /** The first `i` ids have entries, and the others, if they have entries, bring the result up to
      what it is to be. */
  ghost predicate SoFar(result: seq<Id>, i: nat, ids: seq<Id>, roll: Roll, minQuorum: nat, left: int, cap: int)
    requires i <= |ids|
  {
    && AllIn(ids[..i], roll)
    && (AllIn(ids, roll) ==> Adjudicate(ids, roll, minQuorum) == result + AdjudicateFrom(ids[i..], roll, minQuorum, left, cap))
  }

  lemma NoneSeen(ids: seq<Id>, roll: Roll, minQuorum: nat)
    ensures SoFar([], 0, ids, roll, minQuorum, |PotentialIds(roll)|, Cap(|PotentialIds(roll)|))
  {
    assert ids[0..] == ids;
  }

  lemma AllSeen(result: seq<Id>, ids: seq<Id>, roll: Roll, minQuorum: nat, left: int, cap: int)
    requires SoFar(result, |ids|, ids, roll, minQuorum, left, cap)
    ensures AllIn(ids, roll) && result == Adjudicate(ids, roll, minQuorum)
  {
    assert ids[..|ids|] == ids;
  }

  lemma OneMoreSeen(result: seq<Id>, i: nat, ids: seq<Id>, roll: Roll, minQuorum: nat, left: int, cap: int)
    requires i < |ids| && ids[i] in roll && SoFar(result, i, ids, roll, minQuorum, left, cap)
    ensures var v := roll[ids[i]];
            if (v.potentialVoter && left - 1 < minQuorum) || (v.currentVoter && cap < 1)
            then SoFar(result, i + 1, ids, roll, minQuorum, left, cap)
            else if v.potentialVoter then SoFar(result + [ids[i]], i + 1, ids, roll, minQuorum, left - 1, cap - 1)
            else SoFar(result + [ids[i]], i + 1, ids, roll, minQuorum, left, cap)
  {
    assert ids[i..][1..] == ids[i + 1..] && ids[..i + 1] == ids[..i] + [ids[i]];
    forall xs, ys: seq<Id> ensures xs + ([ids[i]] + ys) == (xs + [ids[i]]) + ys {
    }
  }

  // Counting.

  function Potential(ids: seq<Id>, roll: Roll): (n: nat)
    requires AllIn(ids, roll)
    ensures n <= |ids|
  {
    if ids == [] then 0 else (if roll[ids[0]].potentialVoter then 1 else 0) + Potential(ids[1..], roll)
  }

  /** Entries that vote now and count as potential voters. */
  function PotentialCurrent(ids: seq<Id>, roll: Roll): nat
    requires AllIn(ids, roll)
  {
    if ids == [] then 0
    else (if roll[ids[0]].potentialVoter && roll[ids[0]].currentVoter then 1 else 0) + PotentialCurrent(ids[1..], roll)
  }

  /** The two limits a removal has to respect. */
  ghost predicate Admissible(ids: seq<Id>, roll: Roll, minQuorum: nat)
    requires AllIn(ids, roll)
  {
    var potential := |PotentialIds(roll)|;
    && potential - Potential(ids, roll) >= Min(potential, minQuorum)
    && PotentialCurrent(ids, roll) <= Max(0, Cap(potential))
  }

  /** What is kept is picked from the list, in order and without repeats of its own. */
  lemma {:induction false} KeptIsSublist(ids: seq<Id>, roll: Roll, minQuorum: nat, left: int, cap: int)
    requires AllIn(ids, roll)
    ensures multiset(AdjudicateFrom(ids, roll, minQuorum, left, cap)) <= multiset(ids)
    decreases |ids|
  {
    if ids != [] {
      assert ids == [ids[0]] + ids[1..];
      KeptIsSublist(ids[1..], roll, minQuorum, left, cap);
      KeptIsSublist(ids[1..], roll, minQuorum, left - 1, cap - 1);
    }
  }

  // Closed forms.

  /** Every non-potential id and the first `m` potential ones. */
  function TakePotential(ids: seq<Id>, roll: Roll, m: nat): seq<Id>
    requires AllIn(ids, roll)
  {
    if ids == [] then []
    else if !roll[ids[0]].potentialVoter then [ids[0]] + TakePotential(ids[1..], roll, m)
    else if m > 0 then [ids[0]] + TakePotential(ids[1..], roll, m - 1)
    else TakePotential(ids[1..], roll, 0)
  }

  /** The shortest prefix with `c` potential ids, or everything when there are fewer. */
  function ThroughPotential(ids: seq<Id>, roll: Roll, c: nat): seq<Id>
    requires AllIn(ids, roll)
  {
    if ids == [] || c == 0 then []
    else [ids[0]] + ThroughPotential(ids[1..], roll, if roll[ids[0]].potentialVoter then c - 1 else c)
  }

  /** How far into the list the cap lets a removal go: through the `c`-th potential id, or to the end
      when there are fewer. */
  function CapReach(ids: seq<Id>, roll: Roll, c: nat): (k: nat)
    requires AllIn(ids, roll)
    ensures k <= |ids|
  {
    if ids == [] || c == 0 then 0
    else 1 + CapReach(ids[1..], roll, if roll[ids[0]].potentialVoter then c - 1 else c)
  }

  lemma {:induction false} ThroughIsReach(ids: seq<Id>, roll: Roll, c: nat)
    requires AllIn(ids, roll)
    ensures ThroughPotential(ids, roll, c) == ids[..CapReach(ids, roll, c)]
  {
    if ids != [] && c > 0 {
      ThroughIsReach(ids[1..], roll, if roll[ids[0]].potentialVoter then c - 1 else c);
    }
  }

  /** Beyond the reach only when the cap is used up, and the reach ends with a potential id. */
  lemma {:induction false} ReachMeaning(ids: seq<Id>, roll: Roll, c: nat)
    requires AllIn(ids, roll)
    ensures var k := CapReach(ids, roll, c);
            && AllIn(ids[..k], roll) && Potential(ids[..k], roll) == Min(c, Potential(ids, roll))
            && (k < |ids| ==> Potential(ids[..k], roll) == c)
            && (0 < k < |ids| ==> roll[ids[k - 1]].potentialVoter)
  {
    if ids != [] && c > 0 {
      var left := if roll[ids[0]].potentialVoter then c - 1 else c;
      ReachMeaning(ids[1..], roll, left);
      var k := CapReach(ids[1..], roll, left);
      assert ids[..k + 1][1..] == ids[1..][..k];
      if left == 0 {
        assert k == 0;
      }
    }
  }

  lemma {:induction false} NonVotersFrom(ids: seq<Id>, roll: Roll, minQuorum: nat, left: int, cap: int)
    requires AllIn(ids, roll) && forall id :: id in ids ==> !roll[id].currentVoter
    ensures AdjudicateFrom(ids, roll, minQuorum, left, cap) == TakePotential(ids, roll, Max(0, left - minQuorum))
    decreases |ids|
  {
    if ids != [] {
      if roll[ids[0]].potentialVoter && left - 1 >= minQuorum {
        NonVotersFrom(ids[1..], roll, minQuorum, left - 1, cap - 1);
      } else {
        NonVotersFrom(ids[1..], roll, minQuorum, left, cap);
      }
    }
  }

  lemma {:induction false} VotersFrom(ids: seq<Id>, roll: Roll, minQuorum: nat, left: int, cap: int)
    requires AllIn(ids, roll) && forall id :: id in ids ==> roll[id].currentVoter
    ensures AdjudicateFrom(ids, roll, minQuorum, left, cap) ==
            if cap < 1 then []
            else if Max(0, left - minQuorum) < cap then TakePotential(ids, roll, Max(0, left - minQuorum))
            else ThroughPotential(ids, roll, cap)
    decreases |ids|
  {
    if ids != [] {
      if cap >= 1 && roll[ids[0]].potentialVoter && left - 1 >= minQuorum {
        VotersFrom(ids[1..], roll, minQuorum, left - 1, cap - 1);
      } else {
        VotersFrom(ids[1..], roll, minQuorum, left, cap);
      }
    }
  }

  /** Non-voters: the cap plays no part; potential voters go while the floor allows. */
  lemma NonVotersClosedForm(ids: seq<Id>, roll: Roll, minQuorum: nat)
    requires AllIn(ids, roll) && forall id :: id in ids ==> !roll[id].currentVoter
    ensures Adjudicate(ids, roll, minQuorum) ==
            TakePotential(ids, roll, Max(0, |PotentialIds(roll)| - minQuorum))
  {
    NonVotersFrom(ids, roll, minQuorum, |PotentialIds(roll)|, Cap(|PotentialIds(roll)|));
  }

  /** Voters, potential or not: nothing with two or fewer potential voters; otherwise either the
      floor binds, and the first potential ids go with all the others, or the cap binds, and
      everything after the last permitted potential id stays. */
  lemma VotersClosedForm(ids: seq<Id>, roll: Roll, minQuorum: nat)
    requires AllIn(ids, roll) && forall id :: id in ids ==> roll[id].currentVoter
    ensures var p := |PotentialIds(roll)|;
            var spare := Max(0, p - minQuorum);
            Adjudicate(ids, roll, minQuorum) ==
            if p <= 2 then []
            else if spare < Cap(p) then TakePotential(ids, roll, spare)
            else ThroughPotential(ids, roll, Cap(p))
  {
    VotersFrom(ids, roll, minQuorum, |PotentialIds(roll)|, Cap(|PotentialIds(roll)|));
  }

  /** Voters that all count as potential voters: exactly the prefix both limits allow. */
  lemma PotentialVotersClosedForm(ids: seq<Id>, roll: Roll, minQuorum: nat)
    requires AllIn(ids, roll) && forall id :: id in ids ==> roll[id].currentVoter && roll[id].potentialVoter
    ensures var p := |PotentialIds(roll)|;
            Adjudicate(ids, roll, minQuorum) == ids[..Min(|ids|, Max(0, Min(p - minQuorum, Cap(p))))]
  {
    VotersClosedForm(ids, roll, minQuorum);
    var p := |PotentialIds(roll)|;
    TakeIsPrefix(ids, roll, Max(0, p - minQuorum));
    ThroughIsPrefix(ids, roll, Max(0, Cap(p)));
  }

  lemma {:induction false} TakeIsPrefix(ids: seq<Id>, roll: Roll, m: nat)
    requires AllIn(ids, roll) && forall id :: id in ids ==> roll[id].potentialVoter
    ensures TakePotential(ids, roll, m) == ids[..Min(|ids|, m)]
  {
    if ids != [] {
      TakeIsPrefix(ids[1..], roll, if m > 0 then m - 1 else 0);
    }
  }

  lemma {:induction false} ThroughIsPrefix(ids: seq<Id>, roll: Roll, c: nat)
    requires AllIn(ids, roll) && forall id :: id in ids ==> roll[id].potentialVoter
    ensures ThroughPotential(ids, roll, c) == ids[..Min(|ids|, c)]
  {
    if ids != [] && c > 0 {
      ThroughIsPrefix(ids[1..], roll, c - 1);
    }
  }

  /** Voters nobody counts as potential, which is what stale voters are: all or none, whatever the
      floor, and however many there are. */
  lemma UncountedVotersClosedForm(ids: seq<Id>, roll: Roll, minQuorum: nat)
    requires AllIn(ids, roll) && forall id :: id in ids ==> roll[id].currentVoter && !roll[id].potentialVoter
    ensures Adjudicate(ids, roll, minQuorum) == if |PotentialIds(roll)| >= 3 then ids else []
  {
    VotersClosedForm(ids, roll, minQuorum);
    UncountedAllTaken(ids, roll, Max(0, |PotentialIds(roll)| - minQuorum), Max(1, Cap(|PotentialIds(roll)|)));
  }

  lemma {:induction false} UncountedAllTaken(ids: seq<Id>, roll: Roll, m: nat, c: nat)
    requires AllIn(ids, roll) && c > 0 && forall id :: id in ids ==> !roll[id].potentialVoter
    ensures TakePotential(ids, roll, m) == ids && ThroughPotential(ids, roll, c) == ids
  {
    if ids != [] {
      UncountedAllTaken(ids[1..], roll, m, c);
    }
  }

  // The floor and the cap.

  lemma {:induction false} Budget(ids: seq<Id>, roll: Roll, minQuorum: nat, left: int, cap: int)
    requires AllIn(ids, roll)
    ensures var kept := AdjudicateFrom(ids, roll, minQuorum, left, cap);
            && AllIn(kept, roll)
            && left - Potential(kept, roll) >= Min(left, minQuorum)
            && PotentialCurrent(kept, roll) <= Max(0, cap)
    decreases |ids|
  {
    if ids != [] {
      var v := roll[ids[0]];
      Budget(ids[1..], roll, minQuorum, left, cap);
      Budget(ids[1..], roll, minQuorum, left - 1, cap - 1);
    }
  }

  lemma AdjudicatedIsAdmissible(ids: seq<Id>, roll: Roll, minQuorum: nat)
    requires AllIn(ids, roll)
    ensures AllIn(Adjudicate(ids, roll, minQuorum), roll)
    ensures Admissible(Adjudicate(ids, roll, minQuorum), roll, minQuorum)
  {
    Budget(ids, roll, minQuorum, |PotentialIds(roll)|, Cap(|PotentialIds(roll)|));
  }

  lemma RemovalShrinksBy(roll: Roll, ids: seq<Id>)
    requires AllIn(ids, roll)
    ensures |PotentialIds(roll - ToSet(ids))| >= |PotentialIds(roll)| - Potential(ids, roll)
    ensures Distinct(ids) ==> |PotentialIds(roll - ToSet(ids))| == |PotentialIds(roll)| - Potential(ids, roll)
  {
    var gone := PotentialIds(roll) * ToSet(ids);
    CountIsSize(ids, roll);
    assert PotentialIds(roll - ToSet(ids)) == PotentialIds(roll) - gone;
    assert |PotentialIds(roll) - gone| == |PotentialIds(roll)| - |gone|;
  }

  lemma {:induction false} CountIsSize(ids: seq<Id>, roll: Roll)
    requires AllIn(ids, roll)
    ensures |PotentialIds(roll) * ToSet(ids)| <= Potential(ids, roll)
    ensures Distinct(ids) ==> |PotentialIds(roll) * ToSet(ids)| == Potential(ids, roll)
  {
    if ids != [] {
      CountIsSize(ids[1..], roll);
      OneMoreCounted(ids, PotentialIds(roll));
    }
  }

  lemma OneMoreCounted(ids: seq<Id>, counted: set<Id>)
    requires ids != []
    ensures counted * ToSet(ids) == counted * ToSet(ids[1..]) + if ids[0] in counted then {ids[0]} else {}
    ensures Distinct(ids) ==> Distinct(ids[1..]) && ids[0] !in ToSet(ids[1..])
  {
  }

  /** One phase: the registry keeps at least the smaller of its potential voters and the quorum
      read in that phase, and of those who vote and count at most (P - 1) / 2 are gone. */
  lemma PhaseFloorAndCap(ids: seq<Id>, roll: Roll, minQuorum: nat)
    requires AllIn(ids, roll)
    ensures var kept := Adjudicate(ids, roll, minQuorum);
            var potential := |PotentialIds(roll)|;
            && |PotentialIds(roll - ToSet(kept))| >= Min(potential, minQuorum)
            && |(set id | id in ToSet(kept) && id in roll && roll[id].potentialVoter && roll[id].currentVoter)|
               <= Max(0, Cap(potential))
  {
    AdjudicatedIsAdmissible(ids, roll, minQuorum);
    var kept := Adjudicate(ids, roll, minQuorum);
    RemovalShrinksBy(roll, kept);
    CurrentCountIsSize(kept, roll);
  }

  lemma {:induction false} CurrentCountIsSize(ids: seq<Id>, roll: Roll)
    requires AllIn(ids, roll)
    ensures |(set id | id in ToSet(ids) && id in roll && roll[id].potentialVoter && roll[id].currentVoter)|
            <= PotentialCurrent(ids, roll)
  {
    var all := set id | id in ToSet(ids) && id in roll && roll[id].potentialVoter && roll[id].currentVoter;
    if ids == [] {
      assert all == {};
    } else {
      var rest := set id | id in ToSet(ids[1..]) && id in roll && roll[id].potentialVoter && roll[id].currentVoter;
      CurrentCountIsSize(ids[1..], roll);
      assert all == if roll[ids[0]].potentialVoter && roll[ids[0]].currentVoter then rest + {ids[0]} else rest;
    }
  }
}
