/** What AddServer asks for and what it comes to, said of the entries of the configuration. */
module Joining {
  import opened Ids
  import opened Sorting
  import opened Types
  import opened RaftCluster
  import opened Membership
  import opened Positions

  /** The server is there under another address, as a voter or about to become one. */
  ghost predicate VotedBefore(config: Configuration, s: Server) {
    exists e :: e in config && e.id == s.id && (e.suffrage == Types.Voter || e.suffrage == Staging)
  }

  function DisplacedVoters(config: Configuration, s: Server): set<Id> {
    set e | e in config && e.suffrage == Types.Voter && e.address == s.address && e.id != s.id :: e.id
  }

  function DisplacedAt(config: Configuration, s: Server, voters: bool): set<nat> {
    set k: nat | k < |config| && config[k].address == s.address && config[k].id != s.id && (config[k].suffrage == Types.Voter) == voters
  }

  // What is asked for.

  lemma {:induction false} HoldersByPosition(config: Configuration, s: Server, voters: bool) returns (ks: seq<nat>)
    ensures InOrder(ks, DisplacedAt(config, s, voters))
    ensures |Holders(config, s, voters)| == |ks|
    ensures forall i :: 0 <= i < |ks| ==> ks[i] < |config| && Holders(config, s, voters)[i] == config[ks[i]].id
  {
    ks := [];
    if config == [] {
      assert DisplacedAt(config, s, voters) == {};
    } else {
      var n := |config| - 1;
      ks := HoldersByPosition(config[..n], s, voters);
      DisplacedAtLast(config, s, voters);
      OneMoreInOrder(ks, DisplacedAt(config[..n], s, voters), n);
      if config[n].address == s.address && config[n].id != s.id && (config[n].suffrage == Types.Voter) == voters {
        ks := ks + [n];
      }
    }
  }

  lemma DisplacedAtLast(config: Configuration, s: Server, voters: bool)
    requires config != []
    ensures var n := |config| - 1;
            DisplacedAt(config, s, voters) ==
            DisplacedAt(config[..n], s, voters) +
            if config[n].address == s.address && config[n].id != s.id && (config[n].suffrage == Types.Voter) == voters then {n} else {}
  {
    assert forall k: nat :: k < |config| - 1 ==> config[..|config| - 1][k] == config[k];
  }

  /** The plan: the voters that hold the address go, in the order of the configuration, then its other
      holders, and last the server is added, as a voter exactly if it was one or was about to be. */
  lemma AddPlanIs(config: Configuration, s: Server) returns (ks: seq<nat>, ls: seq<nat>)
    ensures InOrder(ks, DisplacedAt(config, s, true)) && InOrder(ls, DisplacedAt(config, s, false))
    ensures var plan := AddPlan(config, s);
            && |plan| == |ks| + |ls| + 1
            && (forall i :: 0 <= i < |ks| ==> ks[i] < |config| && plan[i] == RemoveServer(config[ks[i]].id))
            && (forall i :: 0 <= i < |ls| ==> ls[i] < |config| && plan[|ks| + i] == RemoveServer(config[ls[i]].id))
            && plan[|ks| + |ls|] == if VotedBefore(config, s) then AddVoter(s.id, s.address) else AddNonvoter(s.id, s.address)
  {
    ks := HoldersByPosition(config, s, true);
    ls := HoldersByPosition(config, s, false);
    ExistingVoterIs(config, s);
  }

  lemma ExistingVoterIs(config: Configuration, s: Server)
    ensures ExistingVoter(config, s) <==> VotedBefore(config, s)
  {
    if e :| e in config && e.id == s.id && (e.suffrage == Types.Voter || e.suffrage == Staging) {
      var i :| 0 <= i < |config| && config[i] == e;
    }
  }

  // When it is refused.

  lemma {:induction false} HoldersAreDistinct(config: Configuration, s: Server, voters: bool)
    requires UniqueIds(config)
    ensures Distinct(Holders(config, s, voters))
  {
    if config != [] {
      var rest, last := config[..|config| - 1], config[|config| - 1];
      HoldersAreDistinct(rest, s, voters);
      HoldersMembers(rest, s, voters, last.id);
    }
  }

  lemma HoldersAreDisplaced(config: Configuration, s: Server)
    requires UniqueIds(config)
    ensures |Holders(config, s, true)| == |DisplacedVoters(config, s)|
  {
    HoldersAreDistinct(config, s, true);
    DistinctLength(Holders(config, s, true));
    forall id ensures id in ToSet(Holders(config, s, true)) <==> id in DisplacedVoters(config, s) {
      HoldersMembers(config, s, true, id);
    }
    assert ToSet(Holders(config, s, true)) == DisplacedVoters(config, s);
  }

  /** What an answer means. The pair is there already, or the voters that do not have to make room are
      fewer than a required quorum, or the addition is asked for. */
  lemma AnswerMeans(r: AddOutcome, config: Configuration, s: Server, calls: seq<Call>)
    requires UniqueIds(config) && AddedAs(r, config, s, calls) && r != ConfigUnavailable
    ensures r == AlreadyPresent <==> exists e :: e in config && e.id == s.id && e.address == s.address
    ensures r == Refused <==>
            && (forall e :: e in config && e.id == s.id ==> e.address != s.address)
            && |VoterIds(config)| - |DisplacedVoters(config, s)| < RequiredQuorum(|VoterIds(config)|)
    ensures r == Added ==> AllOk(calls) && |calls| == |AddPlan(config, s)|
    ensures r == CallFailed ==> calls != [] && !calls[|calls| - 1].ok
  {
    HoldersAreDisplaced(config, s);
    VoterEntriesAreVoters(config);
    HasPairIs(config, s);
  }

  lemma HasPairIs(config: Configuration, s: Server)
    ensures HasPair(config, s) <==> exists e :: e in config && e.id == s.id && e.address == s.address
  {
    if e :| e in config && e.id == s.id && e.address == s.address {
      var i :| 0 <= i < |config| && config[i] == e;
    }
  }

  // What it comes to.

  lemma ClearedIs(config: Configuration, s: Server, calls: seq<Call>)
    requires UniqueIds(config)
    requires |calls| == |AddPlan(config, s)| - 1 && AllOk(calls)
    requires forall i :: 0 <= i < |calls| ==> calls[i].op == AddPlan(config, s)[i]
    ensures UniqueIds(ApplyCalls(config, calls))
    ensures forall e :: e in ApplyCalls(config, calls) <==> e in config && (e.address != s.address || e.id == s.id)
  {
    VotersLost(config, s, calls);
    AddressIsFree(config, s, calls);
    forall c | c in calls ensures c.op.RemoveServer? {
      var i :| 0 <= i < |calls| && calls[i] == c;
      PlannedRemoval(config, s, i);
    }
    RemovalsEffect(config, calls);
  }

  /** The entry of the server after the addition. */
  ghost predicate Entered(e: RaftServer, before: Configuration, s: Server, asVoter: bool) {
    && e.id == s.id && e.address == s.address
    && (asVoter ==> e.suffrage == Types.Voter)
    && (!asVoter && (forall f :: f in before ==> f.id != s.id) ==> e.suffrage == Nonvoter)
    && (!asVoter ==> forall f :: f in before && f.id == s.id ==> e.suffrage == f.suffrage)
  }

  lemma OthersStay(config: Configuration, s: Server, op: Op)
    requires op == AddVoter(s.id, s.address) || op == AddNonvoter(s.id, s.address)
    ensures forall e: RaftServer :: e.id != s.id ==> (e in Apply(config, op) <==> e in config)
  {
    var after := Apply(config, op);
    forall e: RaftServer | e.id != s.id ensures e in after <==> e in config {
      if e in config {
        var i :| 0 <= i < |config| && config[i] == e;
        assert after[i] == e;
      }
      if e in after {
        var i :| 0 <= i < |after| && after[i] == e;
      }
    }
  }

  lemma IsEntered(config: Configuration, s: Server, op: Op) returns (e: RaftServer)
    requires UniqueIds(config) && (op == AddVoter(s.id, s.address) || op == AddNonvoter(s.id, s.address))
    ensures e in Apply(config, op) && Entered(e, config, s, op.AddVoter?)
  {
    var after := Apply(config, op);
    if HasId(config, s.id) {
      var i :| 0 <= i < |config| && config[i].id == s.id;
      e := after[i];
      assert config[i] in config;
      forall f | f in config && f.id == s.id ensures f == config[i] {
      }
    } else {
      e := after[|config|];
      forall f | f in config ensures f.id != s.id {
        var i :| 0 <= i < |config| && config[i] == f;
      }
    }
  }

  /** The configuration after an addition that succeeded: the server is there once, at its address, as
      a voter exactly if it was one or was about to be, and a new one as a non-voter; the other
      servers are those that did not hold the address, unchanged. */
  lemma EntriesAfter(config: Configuration, s: Server, calls: seq<Call>) returns (mine: RaftServer)
    requires UniqueIds(config) && !HasPair(config, s)
    requires FollowsUntilFailure(AddPlan(config, s), calls) && AllOk(calls)
    ensures var after := ApplyCalls(config, calls);
            && UniqueIds(after) && mine in after && Entered(mine, config, s, VotedBefore(config, s))
            && forall e: RaftServer :: e.id != s.id ==> (e in after <==> e in config && e.address != s.address)
  {
    var n := |calls| - 1;
    var cleared := ApplyCalls(config, calls[..n]);
    ClearedIs(config, s, calls[..n]);
    VotersAfter(cleared, calls[n].op);
    ExistingVoterIs(config, s);
    OthersStay(cleared, s, calls[n].op);
    mine := IsEntered(cleared, s, calls[n].op);
    assert forall f :: f in config && f.id == s.id ==> f in cleared;
  }

  /** So its voters are those of before that did not hold the address, and the server only if it was a
      voter or about to be. */
  lemma VotersAfterJoining(config: Configuration, s: Server, calls: seq<Call>)
    requires UniqueIds(config) && !HasPair(config, s)
    requires FollowsUntilFailure(AddPlan(config, s), calls) && AllOk(calls)
    ensures var after := VoterIds(ApplyCalls(config, calls));
            && (s.id in after <==> VotedBefore(config, s))
            && (forall id :: id != s.id ==> (id in after <==> id in VoterIds(config) && id !in DisplacedVoters(config, s)))
            && after <= VoterIds(config) + {s.id}
  {
    var mine := EntriesAfter(config, s, calls);
    var after := ApplyCalls(config, calls);
    MineVotes(config, after, s, mine);
    forall id | id != s.id ensures id in VoterIds(after) <==> id in VoterIds(config) && id !in DisplacedVoters(config, s) {
      OthersVote(config, after, s, id);
    }
  }

  lemma MineVotes(config: Configuration, after: Configuration, s: Server, mine: RaftServer)
    requires UniqueIds(after) && mine in after && Entered(mine, config, s, VotedBefore(config, s))
    ensures s.id in VoterIds(after) <==> VotedBefore(config, s)
  {
    forall e | e in after && e.id == s.id ensures e == mine {
    }
    if f :| f in config && f.id == s.id {
      assert VotedBefore(config, s) || mine.suffrage == f.suffrage;
    }
  }

  lemma OthersVote(config: Configuration, after: Configuration, s: Server, id: Id)
    requires UniqueIds(config) && UniqueIds(after) && id != s.id
    requires forall e: RaftServer :: e.id != s.id ==> (e in after <==> e in config && e.address != s.address)
    ensures id in VoterIds(after) <==> id in VoterIds(config) && id !in DisplacedVoters(config, s)
  {
    forall e, f | e in config && f in config && e.id == id && f.id == id ensures e == f {
    }
  }
}
