/** What a round of reconciliation issues, said by the positions in the promoter's lists. */
module RoundMeaning {
  import opened Ids
  import opened Types
  import opened RaftCluster
  import opened Positions
  import opened Reconcile

  /** The listed server is tracked, healthy, and neither votes nor leads. */
  predicate PromotedAt(state: State, ids: seq<Id>, k: nat) {
    && k < |ids| && ids[k] in state.servers
    && var srv := state.servers[ids[k]];
       srv.state != RaftVoter && srv.state != RaftLeader && srv.health.healthy
  }

  /** The listed server is tracked and is not a non-voter; when only failed ones are wanted, it is
      unhealthy. */
  predicate DemotedAt(state: State, ids: seq<Id>, failedOnly: bool, k: nat) {
    && k < |ids| && ids[k] in state.servers
    && var srv := state.servers[ids[k]];
       srv.state != RaftNonVoter && (failedOnly ==> !srv.health.healthy)
  }

  function PromotedPositions(state: State, ids: seq<Id>): set<nat> {
    set k: nat | k < |ids| && PromotedAt(state, ids, k)
  }

  function DemotedPositions(state: State, ids: seq<Id>, failedOnly: bool): set<nat> {
    set k: nat | k < |ids| && DemotedAt(state, ids, failedOnly, k)
  }

  /** The calls that make voters of the servers at these positions, at their recorded addresses. */
  ghost predicate PromotesThese(ops: seq<Op>, state: State, ids: seq<Id>, ks: seq<nat>) {
    && |ops| == |ks|
    && forall i :: 0 <= i < |ks| ==>
         && ks[i] < |ids| && ids[ks[i]] in state.servers
         && ops[i] == AddVoter(state.servers[ids[ks[i]]].server.id, state.servers[ids[ks[i]]].server.address)
  }

  ghost predicate DemotesThese(ops: seq<Op>, state: State, ids: seq<Id>, ks: seq<nat>) {
    && |ops| == |ks|
    && forall i :: 0 <= i < |ks| ==>
         && ks[i] < |ids| && ids[ks[i]] in state.servers
         && ops[i] == DemoteVoter(state.servers[ids[ks[i]]].server.id)
  }

  /** The promotions are the calls for the listed servers that pass, in the order of the list. */
  lemma {:induction false} PromotionsByPosition(state: State, ids: seq<Id>) returns (ks: seq<nat>)
    ensures InOrder(ks, PromotedPositions(state, ids))
    ensures PromotesThese(Promotions(state, ids), state, ids, ks)
  {
    ks := [];
    if ids == [] {
      assert PromotedPositions(state, ids) == {};
    } else {
      var n := |ids| - 1;
      ks := PromotionsByPosition(state, ids[..n]);
      PromotedAtLast(state, ids);
      OneMoreInOrder(ks, PromotedPositions(state, ids[..n]), n);
      if PromotedAt(state, ids, n) {
        ks := ks + [n];
      }
    }
  }

  lemma PromotedAtLast(state: State, ids: seq<Id>)
    requires ids != []
    ensures var n := |ids| - 1;
            PromotedPositions(state, ids) == PromotedPositions(state, ids[..n]) + if PromotedAt(state, ids, n) then {n} else {}
  {
    assert forall k: nat :: k < |ids| - 1 ==> ids[..|ids| - 1][k] == ids[k];
  }

  lemma {:induction false} DemotionsByPosition(state: State, ids: seq<Id>, failedOnly: bool) returns (ks: seq<nat>)
    ensures InOrder(ks, DemotedPositions(state, ids, failedOnly))
    ensures DemotesThese(Demotions(state, ids, failedOnly), state, ids, ks)
  {
    ks := [];
    if ids == [] {
      assert DemotedPositions(state, ids, failedOnly) == {};
    } else {
      var n := |ids| - 1;
      ks := DemotionsByPosition(state, ids[..n], failedOnly);
      DemotedAtLast(state, ids, failedOnly);
      OneMoreInOrder(ks, DemotedPositions(state, ids[..n], failedOnly), n);
      if DemotedAt(state, ids, failedOnly, n) {
        ks := ks + [n];
      }
    }
  }

  lemma DemotedAtLast(state: State, ids: seq<Id>, failedOnly: bool)
    requires ids != []
    ensures var n := |ids| - 1;
            DemotedPositions(state, ids, failedOnly) ==
            DemotedPositions(state, ids[..n], failedOnly) + if DemotedAt(state, ids, failedOnly, n) then {n} else {}
  {
    assert forall k: nat :: k < |ids| - 1 ==> ids[..|ids| - 1][k] == ids[k];
  }

  /** What a round starts with: with an even number of voters, or no failed server among those listed
      for demotion, nothing; otherwise the demotion of the first such server of the list. */
  ghost predicate Opening(state: State, changes: RaftChanges, first: seq<Op>, k: nat) {
    var ids := changes.demotions;
    var failed := DemotedPositions(state, ids, true);
    if |state.voters| % 2 == 0 || failed == {} then first == []
    else
      && k in failed && (forall j :: j in failed ==> k <= j)
      && k < |ids| && ids[k] in state.servers && first == [DemoteVoter(state.servers[ids[k]].server.id)]
  }

  lemma FirstDemotionIs(state: State, changes: RaftChanges) returns (k: nat)
    ensures Opening(state, changes, FirstDemotion(state, changes), k)
  {
    var ks := DemotionsByPosition(state, changes.demotions, true);
    FirstIsLeast(ks, DemotedPositions(state, changes.demotions, true));
    ShortenedIs(state, changes);
    k := if ks == [] then 0 else ks[0];
  }

  lemma ShortenedIs(state: State, changes: RaftChanges)
    ensures var ops := Demotions(state, changes.demotions, true);
            FirstDemotion(state, changes) == if |state.voters| % 2 == 0 || ops == [] then [] else [ops[0]]
  {
  }

  /** What follows: the promotions that pass, in order; if there are none, the demotions that pass, in
      order; if there are none either, the transfer to a tracked server that is not leading already;
      else nothing. */
  ghost predicate Following(state: State, changes: RaftChanges, rest: seq<Op>, ks: seq<nat>) {
    var ups, downs := changes.promotions, changes.demotions;
    if PromotedPositions(state, ups) != {} then
      InOrder(ks, PromotedPositions(state, ups)) && PromotesThese(rest, state, ups, ks)
    else if DemotedPositions(state, downs, false) != {} then
      InOrder(ks, DemotedPositions(state, downs, false)) && DemotesThese(rest, state, downs, ks)
    else if changes.leader != "" && changes.leader != state.leader && changes.leader in state.servers then
      rest == [LeadershipTransfer(changes.leader, state.servers[changes.leader].server.address)]
    else rest == []
  }

  lemma AfterFirstIs(state: State, changes: RaftChanges) returns (ks: seq<nat>)
    ensures Following(state, changes, AfterFirst(state, changes), ks)
  {
    ks := PromotionsByPosition(state, changes.promotions);
    FirstIsLeast(ks, PromotedPositions(state, changes.promotions));
    if ks == [] {
      ks := DemotionsByPosition(state, changes.demotions, false);
      FirstIsLeast(ks, DemotedPositions(state, changes.demotions, false));
      if ks == [] {
        TransferLast(state, changes);
      }
    }
  }

  lemma TransferLast(state: State, changes: RaftChanges)
    requires Promotions(state, changes.promotions) == [] && Demotions(state, changes.demotions, false) == []
    ensures AfterFirst(state, changes) ==
            if changes.leader != "" && changes.leader != state.leader && changes.leader in state.servers
            then [LeadershipTransfer(changes.leader, state.servers[changes.leader].server.address)] else []
  {
  }

  /** The plan of a round, without the functions that compute it. */
  lemma PlanIs(state: State, changes: RaftChanges) returns (first: seq<Op>, k: nat, rest: seq<Op>, ks: seq<nat>)
    ensures Plan(state, changes) == first + rest
    ensures Opening(state, changes, first, k) && Following(state, changes, rest, ks)
  {
    k := FirstDemotionIs(state, changes);
    first, rest := FirstDemotion(state, changes), AfterFirst(state, changes);
    ks := AfterFirstIs(state, changes);
  }
}
