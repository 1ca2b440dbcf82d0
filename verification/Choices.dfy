/** reconcile.go, adjudicateRemoval, among everything it might have chosen: when no longer choice
    from the list would have kept the floor and the cap. */
module Choices {
  import opened Ids
  import opened Registry
  import opened Adjudication

  // Choices from a list.

  lemma OneMore(ids: seq<Id>, some: seq<Id>)
    requires ids != [] && multiset(some) <= multiset(ids[1..])
    ensures multiset([ids[0]] + some) <= multiset(ids) && multiset(some) <= multiset(ids)
  {
    assert ids == [ids[0]] + ids[1..];
  }

  lemma {:induction false} TakeIsSublist(ids: seq<Id>, roll: Roll, m: nat)
    requires AllIn(ids, roll)
    ensures multiset(TakePotential(ids, roll, m)) <= multiset(ids)
  {
    if ids != [] {
      var left := if !roll[ids[0]].potentialVoter then m else if m > 0 then m - 1 else 0;
      TakeIsSublist(ids[1..], roll, left);
      OneMore(ids, TakePotential(ids[1..], roll, left));
    }
  }

  lemma {:induction false} ThroughIsSublist(ids: seq<Id>, roll: Roll, c: nat)
    requires AllIn(ids, roll)
    ensures multiset(ThroughPotential(ids, roll, c)) <= multiset(ids)
  {
    if ids != [] && c > 0 {
      var left := if roll[ids[0]].potentialVoter then c - 1 else c;
      ThroughIsSublist(ids[1..], roll, left);
      OneMore(ids, ThroughPotential(ids[1..], roll, left));
    }
  }

  lemma {:induction false} TakeCount(ids: seq<Id>, roll: Roll, m: nat)
    requires AllIn(ids, roll)
    ensures AllIn(TakePotential(ids, roll, m), roll)
    ensures Potential(TakePotential(ids, roll, m), roll) == Min(m, Potential(ids, roll))
  {
    if ids != [] {
      var m' := if roll[ids[0]].potentialVoter && m > 0 then m - 1 else m;
      var rest := TakePotential(ids[1..], roll, m');
      TakeCount(ids[1..], roll, m');
      assert ([ids[0]] + rest)[1..] == rest;
    }
  }

  // Maximality.

  lemma {:induction false} PotentialOfSublist(some: seq<Id>, all: seq<Id>, roll: Roll)
    requires AllIn(all, roll) && multiset(some) <= multiset(all)
    ensures AllIn(some, roll)
    ensures Potential(some, roll) <= Potential(all, roll)
    ensures |some| - Potential(some, roll) <= |all| - Potential(all, roll)
    decreases |some|
  {
    if some != [] {
      assert some == [some[0]] + some[1..];
      assert some[0] in multiset(some);
      var i :| 0 <= i < |all| && all[i] == some[0];
      WithoutEntry(all, i, roll);
      PotentialOfSublist(some[1..], all[..i] + all[i + 1..], roll);
    }
  }

  lemma WithoutEntry(all: seq<Id>, i: nat, roll: Roll)
    requires AllIn(all, roll) && i < |all|
    ensures var rest := all[..i] + all[i + 1..];
            && multiset(rest) == multiset(all) - multiset{all[i]}
            && AllIn(rest, roll)
            && Potential(rest, roll) + (if roll[all[i]].potentialVoter then 1 else 0) == Potential(all, roll)
  {
    var tail := [all[i]] + all[i + 1..];
    assert all == all[..i] + tail;
    assert tail[1..] == all[i + 1..];
    PotentialConcat(all[..i], all[i + 1..], roll);
    PotentialConcat(all[..i], tail, roll);
  }

  lemma {:induction false} PotentialConcat(xs: seq<Id>, ys: seq<Id>, roll: Roll)
    requires AllIn(xs, roll) && AllIn(ys, roll)
    ensures AllIn(xs + ys, roll) && Potential(xs + ys, roll) == Potential(xs, roll) + Potential(ys, roll)
  {
    if xs == [] {
      assert xs + ys == ys;
    } else {
      PotentialConcat(xs[1..], ys, roll);
      assert (xs + ys)[1..] == xs[1..] + ys;
    }
  }

  lemma {:induction false} TakeSize(ids: seq<Id>, roll: Roll, m: nat)
    requires AllIn(ids, roll)
    ensures |TakePotential(ids, roll, m)| == |ids| - Potential(ids, roll) + Min(m, Potential(ids, roll))
  {
    if ids != [] {
      TakeSize(ids[1..], roll, if roll[ids[0]].potentialVoter && m > 0 then m - 1 else m);
    }
  }

  /** No admissible choice among non-voters is longer than the one made. */
  lemma NonVotersMaximal(ids: seq<Id>, roll: Roll, minQuorum: nat, some: seq<Id>)
    requires AllIn(ids, roll) && forall id :: id in ids ==> !roll[id].currentVoter
    requires multiset(some) <= multiset(ids) && AllIn(some, roll) && Admissible(some, roll, minQuorum)
    ensures |some| <= |Adjudicate(ids, roll, minQuorum)|
  {
    NonVotersClosedForm(ids, roll, minQuorum);
    PotentialOfSublist(some, ids, roll);
    TakeSize(ids, roll, Max(0, |PotentialIds(roll)| - minQuorum));
  }

  lemma {:induction false} AllCounted(ids: seq<Id>, roll: Roll)
    requires AllIn(ids, roll) && forall id :: id in ids ==> roll[id].currentVoter && roll[id].potentialVoter
    ensures Potential(ids, roll) == |ids| && PotentialCurrent(ids, roll) == |ids|
  {
    if ids != [] {
      AllCounted(ids[1..], roll);
    }
  }

  /** Nor among voters that all count. */
  lemma PotentialVotersMaximal(ids: seq<Id>, roll: Roll, minQuorum: nat, some: seq<Id>)
    requires AllIn(ids, roll) && forall id :: id in ids ==> roll[id].currentVoter && roll[id].potentialVoter
    requires multiset(some) <= multiset(ids) && AllIn(some, roll) && Admissible(some, roll, minQuorum)
    ensures |some| <= |Adjudicate(ids, roll, minQuorum)|
  {
    PotentialVotersClosedForm(ids, roll, minQuorum);
    PotentialOfSublist(some, ids, roll);
    forall id | id in some ensures id in ids {
      assert id in multiset(some);
    }
    AllCounted(some, roll);
    AllCounted(ids, roll);
  }

  lemma {:induction false} UncountedIff(ids: seq<Id>, roll: Roll)
    requires AllIn(ids, roll)
    ensures Potential(ids, roll) == |ids| <==> forall id :: id in ids ==> roll[id].potentialVoter
  {
    if ids != [] {
      UncountedIff(ids[1..], roll);
      assert forall id :: id in ids <==> id == ids[0] || id in ids[1..];
    }
  }

  lemma {:induction false} VotersCount(ids: seq<Id>, roll: Roll)
    requires AllIn(ids, roll) && forall id :: id in ids ==> roll[id].currentVoter
    ensures PotentialCurrent(ids, roll) == Potential(ids, roll)
  {
    if ids != [] {
      VotersCount(ids[1..], roll);
    }
  }

  /** Some choice from the list. */
  ghost predicate Chosen(some: seq<Id>, ids: seq<Id>, roll: Roll, minQuorum: nat) {
    multiset(some) <= multiset(ids) && AllIn(some, roll) && Admissible(some, roll, minQuorum)
  }

  /** How many potential voters of a list of voters both limits let go. */
  function Allowed(roll: Roll, minQuorum: nat): nat {
    Min(Max(0, |PotentialIds(roll)| - minQuorum), Max(0, Cap(|PotentialIds(roll)|)))
  }

  ghost predicate NoneLonger(length: nat, ids: seq<Id>, roll: Roll, minQuorum: nat) {
    forall some :: Chosen(some, ids, roll, minQuorum) ==> |some| <= length
  }

  /** The longest admissible choice among voters: all that do not count, and as many of the others as
      both limits let go. */
  lemma LongestChoice(length: nat, ids: seq<Id>, roll: Roll, minQuorum: nat)
    requires AllIn(ids, roll) && forall id :: id in ids ==> roll[id].currentVoter
    ensures NoneLonger(length, ids, roll, minQuorum) <==>
            length >= |ids| - Potential(ids, roll) + Min(Allowed(roll, minQuorum), Potential(ids, roll))
  {
    var m := Allowed(roll, minQuorum);
    var best := TakePotential(ids, roll, m);
    TakeIsSublist(ids, roll, m);
    TakeCount(ids, roll, m);
    TakeSize(ids, roll, m);
    ChoiceOfVoters(best, ids, roll, minQuorum);
    forall some | Chosen(some, ids, roll, minQuorum) ensures |some| <= |best| {
      ChoiceOfVoters(some, ids, roll, minQuorum);
    }
  }

  lemma ChoiceOfVoters(some: seq<Id>, ids: seq<Id>, roll: Roll, minQuorum: nat)
    requires AllIn(ids, roll) && forall id :: id in ids ==> roll[id].currentVoter
    requires multiset(some) <= multiset(ids)
    ensures AllIn(some, roll)
    ensures Chosen(some, ids, roll, minQuorum) <==> Potential(some, roll) <= Allowed(roll, minQuorum)
    ensures |some| - Potential(some, roll) <= |ids| - Potential(ids, roll)
    ensures Potential(some, roll) <= Potential(ids, roll)
  {
    PotentialOfSublist(some, ids, roll);
    forall id | id in some ensures id in ids {
      assert id in multiset(some);
    }
    VotersCount(some, roll);
  }

  /** When the loop's choice among voters is as long as any: with two or fewer potential voters, if
      every listed voter counts; otherwise if the floor binds before the cap, or no voter that does
      not count comes after the one that uses the cap up. */
  lemma VotersMaximalIff(ids: seq<Id>, roll: Roll, minQuorum: nat)
    requires AllIn(ids, roll) && forall id :: id in ids ==> roll[id].currentVoter
    ensures var p := |PotentialIds(roll)|;
            NoneLonger(|Adjudicate(ids, roll, minQuorum)|, ids, roll, minQuorum)
            <==>
            if p <= 2 then forall id :: id in ids ==> roll[id].potentialVoter
            else
              || Max(0, p - minQuorum) < Cap(p)
              || forall id :: id in ids[CapReach(ids, roll, Cap(p))..] ==> roll[id].potentialVoter
  {
    var p := |PotentialIds(roll)|;
    var spare := Max(0, p - minQuorum);
    LongestChoice(|Adjudicate(ids, roll, minQuorum)|, ids, roll, minQuorum);
    VotersClosedForm(ids, roll, minQuorum);
    if p <= 2 {
      UncountedIff(ids, roll);
    } else if spare < Cap(p) {
      TakeSize(ids, roll, spare);
    } else {
      CapCutsOff(ids, roll, Cap(p));
    }
  }

  /** What the cap leaves out besides potential ids. */
  lemma CapCutsOff(ids: seq<Id>, roll: Roll, c: nat)
    requires AllIn(ids, roll)
    ensures |ThroughPotential(ids, roll, c)| <= |ids| - Potential(ids, roll) + Min(c, Potential(ids, roll))
    ensures |ThroughPotential(ids, roll, c)| == |ids| - Potential(ids, roll) + Min(c, Potential(ids, roll))
            <==> forall id :: id in ids[CapReach(ids, roll, c)..] ==> roll[id].potentialVoter
  {
    var k := CapReach(ids, roll, c);
    ThroughIsReach(ids, roll, c);
    ReachMeaning(ids, roll, c);
    PotentialSplit(ids, k, roll);
    UncountedIff(ids[k..], roll);
  }

  lemma PotentialSplit(ids: seq<Id>, k: nat, roll: Roll)
    requires AllIn(ids, roll) && k <= |ids|
    ensures AllIn(ids[..k], roll) && AllIn(ids[k..], roll)
    ensures Potential(ids, roll) == Potential(ids[..k], roll) + Potential(ids[k..], roll)
  {
    assert ids == ids[..k] + ids[k..];
    PotentialConcat(ids[..k], ids[k..], roll);
  }

  /** Once the cap is used up the loop also keeps voters that would not have counted against it; and
      with two or fewer potential voters it keeps them from the start. */
  lemma MixedVotersNotMaximal(roll: Roll, ids: seq<Id>)
    requires ids == ["a", "b"] && AllIn(ids, roll) && PotentialIds(roll) == {"a", "c", "d"}
    requires roll["a"] == Eligibility(true, true) && roll["b"] == Eligibility(true, false)
    ensures Chosen(ids, ids, roll, 0)
    ensures Adjudicate(ids, roll, 0) == ["a"]
  {
    assert |PotentialIds(roll)| == 3;
    assert ids[1..] == ["b"] && ["b"][1..] == [];
    VotersClosedForm(ids, roll, 0);
    assert ThroughPotential(ids, roll, 1) == ["a"] + ThroughPotential(["b"], roll, 0);
    ChoiceOfVoters(ids, ids, roll, 0);
  }

  lemma UncountedVotersNotMaximal(ids: seq<Id>, roll: Roll, minQuorum: nat)
    requires AllIn(ids, roll) && (forall id :: id in ids ==> roll[id].currentVoter && !roll[id].potentialVoter)
    requires |PotentialIds(roll)| <= 2
    ensures Chosen(ids, ids, roll, minQuorum)
    ensures Adjudicate(ids, roll, minQuorum) == []
  {
    UncountedVotersClosedForm(ids, roll, minQuorum);
    NonePotential(ids, roll);
    ChoiceOfVoters(ids, ids, roll, minQuorum);
  }

  lemma {:induction false} NonePotential(ids: seq<Id>, roll: Roll)
    requires AllIn(ids, roll) && forall id :: id in ids ==> !roll[id].potentialVoter
    ensures Potential(ids, roll) == 0
  {
    if ids != [] {
      NonePotential(ids[1..], roll);
    }
  }
}
