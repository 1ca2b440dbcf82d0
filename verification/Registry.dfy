/** types.go: the record of who votes now and who could vote, kept while dead servers are pruned. */
module Registry {
  import opened Ids
  import opened Sorting
  import opened Types

  datatype Eligibility = Eligibility(currentVoter: bool, potentialVoter: bool)

  /** The registry's contents as a value. */
  type Roll = map<Id, Eligibility>

  function PotentialIds(roll: Roll): set<Id> {
    set id | id in roll && roll[id].potentialVoter
  }

  /** The listed servers that are still registered, in order. */
  function Registered(servers: seq<Server>, roll: Roll): seq<Id> {
    if servers == [] then []
    else
      var before := Registered(servers[..|servers| - 1], roll);
      var id := servers[|servers| - 1].id;
      if id in roll then before + [id] else before
  }

  lemma CountOne(counted: set<Id>, left: set<Id>, id: Id)
    requires id in left
    ensures |counted * left| == |counted * (left - {id})| + if id in counted then 1 else 0
  {
    assert counted * left == counted * (left - {id}) + if id in counted then {id} else {};
  }

  class VoterEligibility {
    var currentVoter: bool
    var potentialVoter: bool

    constructor (currentVoter: bool)
      ensures this.currentVoter == currentVoter && !potentialVoter
    {
      this.currentVoter, potentialVoter := currentVoter, false;
    }

    method SetPotentialVoter(isVoter: bool)
      modifies this`potentialVoter
      ensures potentialVoter == isVoter
    {
      potentialVoter := isVoter;
    }
  }

  class VoterRegistry {
    var eligibility: map<Id, VoterEligibility>

    constructor ()
      ensures eligibility == map[] && Valid()
    {
      eligibility := map[];
    }

    /** No two ids share an entry. */
    ghost predicate Valid()
      reads this
    {
      forall a, b :: a in eligibility && b in eligibility && a != b ==> eligibility[a] != eligibility[b]
    }

    ghost function Contents(): Roll
      reads this, eligibility.Values
    {
      map id | id in eligibility :: Eligibility(eligibility[id].currentVoter, eligibility[id].potentialVoter)
    }

    /** The count does not depend on the order in which Go walks the map. */
    method PotentialVoters() returns (n: nat)
      ensures n == |PotentialIds(Contents())|
    {
      n := 0;
      ghost var potential := PotentialIds(Contents());
      assert potential * eligibility.Keys == potential;
      var left := eligibility.Keys;
      while left != {}
        invariant left <= eligibility.Keys
        invariant n + |potential * left| == |potential|
        decreases left
      {
        var id :| id in left;
        CountOne(potential, left, id);
        if eligibility[id].potentialVoter {
          n := n + 1;
        }
        left := left - {id};
      }
    }

    method Lookup(id: Id) returns (entry: Option<Eligibility>)
      ensures entry == if id in Contents() then Some(Contents()[id]) else None
    {
      entry := if id in eligibility then Some(Eligibility(eligibility[id].currentVoter, eligibility[id].potentialVoter)) else None;
    }

    method Filter(servers: seq<Server>) returns (ids: seq<Id>)
      ensures ids == Registered(servers, Contents())
    {
      ids := [];
      for i := 0 to |servers|
        invariant ids == Registered(servers[..i], Contents())
      {
        assert servers[..i + 1][..i] == servers[..i];
        if servers[i].id in eligibility {
          ids := ids + [servers[i].id];
        }
      }
      assert servers[..|servers|] == servers;
    }

    method Remove(ids: seq<Id>)
      requires Valid()
      modifies this
      ensures Valid()
      ensures Contents() == old(Contents()) - ToSet(ids)
      ensures eligibility.Values <= old(eligibility.Values)
    {
      for i := 0 to |ids|
        invariant Valid()
        invariant eligibility == old(eligibility) - ToSet(ids[..i])
        invariant eligibility.Values <= old(eligibility.Values)
      {
        eligibility := eligibility - {ids[i]};
        assert ToSet(ids[..i + 1]) == ToSet(ids[..i]) + {ids[i]};
      }
      assert ids[..|ids|] == ids;
    }
  }
}
