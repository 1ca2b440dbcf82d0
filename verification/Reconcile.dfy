/** reconcile.go, reconcile: applying the promoter's promotions, demotions and leadership transfer. */
module Reconcile {
  import opened Ids
  import opened Types
  import opened RaftCluster
  import opened Core

  predicate Promotable(state: State, id: Id) {
    id in state.servers && !state.servers[id].HasVotingRights() && state.servers[id].health.healthy
  }

  predicate Demotable(state: State, id: Id, failedOnly: bool) {
    && id in state.servers && state.servers[id].state != RaftNonVoter
    && !(failedOnly && state.servers[id].health.healthy)
  }

  /** The calls for the listed promotions that pass the filters, in order, repeats included. */
  function Promotions(state: State, ids: seq<Id>): (ops: seq<Op>)
    ensures |ops| <= |ids|
  {
    if ids == [] then []
    else
      var id := ids[|ids| - 1];
      Promotions(state, ids[..|ids| - 1]) +
      if Promotable(state, id) then [AddVoter(state.servers[id].server.id, state.servers[id].server.address)] else []
  }

  function Demotions(state: State, ids: seq<Id>, failedOnly: bool): (ops: seq<Op>)
    ensures |ops| <= |ids|
  {
    if ids == [] then []
    else
      var id := ids[|ids| - 1];
      Demotions(state, ids[..|ids| - 1], failedOnly) +
      if Demotable(state, id, failedOnly) then [DemoteVoter(state.servers[id].server.id)] else []
  }

  /** The first pass over the demotions: one unhealthy server, and only with an odd number of voters. */
  function FirstDemotion(state: State, changes: RaftChanges): seq<Op> {
    if |state.voters| % 2 != 0 then Shortened(Demotions(state, changes.demotions, true), true) else []
  }

  predicate WantsTransfer(state: State, changes: RaftChanges) {
    changes.leader != "" && changes.leader != state.leader
  }

  function Transfer(state: State, changes: RaftChanges): seq<Op> {
    if WantsTransfer(state, changes) && changes.leader in state.servers then
      [LeadershipTransfer(changes.leader, state.servers[changes.leader].server.address)]
    else []
  }

  /** After the first pass: promotions if there are any, else demotions, else the transfer. */
  function AfterFirst(state: State, changes: RaftChanges): seq<Op> {
    var promotions := Promotions(state, changes.promotions);
    var demotions := Demotions(state, changes.demotions, false);
    if promotions != [] then promotions
    else if demotions != [] then demotions
    else Transfer(state, changes)
  }

  /** What a round issues when nothing fails. */
  function Plan(state: State, changes: RaftChanges): seq<Op> {
    FirstDemotion(state, changes) + AfterFirst(state, changes)
  }

  method ApplyPromotions(raft: Raft, state: State, changes: RaftChanges) returns (done: bool, ok: bool, ghost calls: seq<Call>)
    modifies raft`servers, raft`calls
    ensures raft.calls == old(raft.calls) + calls
    ensures raft.servers == ApplyCalls(old(raft.servers), calls)
    ensures FollowsUntilFailure(Promotions(state, changes.promotions), calls)
    ensures ok == AllOk(calls) && done == (calls != [])
  {
    calls, done := [], false;
    var ids := changes.promotions;
    ghost var calls0, servers0 := raft.calls, raft.servers;
    for i := 0 to |ids|
      invariant raft.calls == calls0 + calls
      invariant raft.servers == ApplyCalls(servers0, calls)
      invariant AllOk(calls) && done == (calls != [])
      invariant Issued(Promotions(state, ids[..i]), calls)
    {
      var change := ids[i];
      PromotionsStep(state, ids, i);
      // skipped: servers not tracked, servers that vote already, unhealthy servers
      if change in state.servers && !state.servers[change].HasVotingRights() && state.servers[change].health.healthy {
        var srv := state.servers[change].server;
        ok, calls := PromoteNext(raft, srv.id, srv.address, servers0, calls0,
                                 Promotions(state, ids[..i]), Promotions(state, ids), calls);
        done := true;
        if !ok {
          return;
        }
      }
    }
    assert ids[..|ids|] == ids;
    Completed(Promotions(state, ids), calls, false);
    ok := true;
  }

  /** applyDemotions; with `single` it goes for one unhealthy server and returns. */
  method ApplyDemotions(raft: Raft, state: State, changes: RaftChanges, single: bool) returns (done: bool, ok: bool, ghost calls: seq<Call>)
    modifies raft`servers, raft`calls
    ensures raft.calls == old(raft.calls) + calls
    ensures raft.servers == ApplyCalls(old(raft.servers), calls)
    ensures FollowsUntilFailure(Shortened(Demotions(state, changes.demotions, single), single), calls)
    ensures ok == AllOk(calls) && done == (calls != [])
  {
    calls, done := [], false;
    var ids := changes.demotions;
    ghost var calls0, servers0 := raft.calls, raft.servers;
    for i := 0 to |ids|
      invariant raft.calls == calls0 + calls
      invariant raft.servers == ApplyCalls(servers0, calls)
      invariant AllOk(calls) && done == (calls != [])
      invariant single ==> calls == []
      invariant Issued(Demotions(state, ids[..i], single), calls)
    {
      var change := ids[i];
      DemotionsStep(state, ids, single, i);
      // skipped: servers not tracked, non-voters, and in a first pass healthy servers
      if change in state.servers && state.servers[change].state != RaftNonVoter && !(single && state.servers[change].health.healthy) {
        var srv := state.servers[change].server;
        ok, calls := DemoteNext(raft, srv.id, single, servers0, calls0,
                                Demotions(state, ids[..i], single), Demotions(state, ids, single), calls);
        done := true;
        if !ok || single {
          return;
        }
      }
    }
    assert ids[..|ids|] == ids;
    Completed(Demotions(state, ids, single), calls, single);
    ok := true;
  }

  /** Promotes one more server; a failure ends the pass. */
  method PromoteNext(raft: Raft, id: Id, address: Address, ghost servers0: Configuration, ghost calls0: seq<Call>,
                     ghost soFar: seq<Op>, ghost all: seq<Op>, ghost calls: seq<Call>)
    returns (ok: bool, ghost more: seq<Call>)
    requires Issued(soFar, calls) && AllOk(calls) && soFar + [AddVoter(id, address)] <= all
    requires raft.servers == ApplyCalls(servers0, calls) && raft.calls == calls0 + calls
    modifies raft`servers, raft`calls
    ensures more != [] && raft.calls == calls0 + more && raft.servers == ApplyCalls(servers0, more)
    ensures Issued(soFar + [AddVoter(id, address)], more) && AllOk(more) == ok
    ensures !ok ==> FollowsUntilFailure(all, more)
  {
    ok, more := IssueNext(raft, AddVoter(id, address), servers0, calls0, soFar, calls);
    if !ok {
      StoppedAtFailure(soFar + [AddVoter(id, address)], all, more);
    }
  }

  /** Demotes one more server; the pass ends with it when it fails, or when it was to be the only one. */
  method DemoteNext(raft: Raft, id: Id, single: bool, ghost servers0: Configuration, ghost calls0: seq<Call>,
                    ghost soFar: seq<Op>, ghost all: seq<Op>, ghost calls: seq<Call>)
    returns (ok: bool, ghost more: seq<Call>)
    requires Issued(soFar, calls) && AllOk(calls) && (single ==> calls == []) && soFar + [DemoteVoter(id)] <= all
    requires raft.servers == ApplyCalls(servers0, calls) && raft.calls == calls0 + calls
    modifies raft`servers, raft`calls
    ensures more != [] && raft.calls == calls0 + more && raft.servers == ApplyCalls(servers0, more)
    ensures Issued(soFar + [DemoteVoter(id)], more) && AllOk(more) == ok
    ensures !ok || single ==> FollowsUntilFailure(Shortened(all, single), more)
  {
    ok, more := IssueNext(raft, DemoteVoter(id), servers0, calls0, soFar, calls);
    if !ok || single {
      StoppedEarly(soFar + [DemoteVoter(id)], all, more, single);
    }
  }

  function Shortened(ops: seq<Op>, single: bool): seq<Op> {
    if single && ops != [] then [ops[0]] else ops
  }

  lemma StoppedEarly(soFar: seq<Op>, all: seq<Op>, calls: seq<Call>, single: bool)
    requires Issued(soFar, calls) && soFar <= all && calls != [] && AllOk(calls[..|calls| - 1])
    requires if single then |calls| == 1 else !AllOk(calls)
    ensures FollowsUntilFailure(Shortened(all, single), calls)
  {
    if !single {
      StoppedAtFailure(soFar, all, calls);
    }
  }

  lemma Completed(all: seq<Op>, calls: seq<Call>, single: bool)
    requires Issued(all, calls) && AllOk(calls) && (single ==> calls == [])
    ensures FollowsUntilFailure(Shortened(all, single), calls)
  {
  }

  lemma PromotionsStep(state: State, ids: seq<Id>, i: nat)
    requires i < |ids|
    ensures Promotions(state, ids[..i + 1]) ==
            Promotions(state, ids[..i]) +
            if Promotable(state, ids[i]) then [AddVoter(state.servers[ids[i]].server.id, state.servers[ids[i]].server.address)] else []
    ensures Promotions(state, ids[..i + 1]) <= Promotions(state, ids)
  {
    assert ids[..i + 1][..i] == ids[..i];
    PromotionsGrow(state, ids, i + 1);
  }

  lemma DemotionsStep(state: State, ids: seq<Id>, failedOnly: bool, i: nat)
    requires i < |ids|
    ensures Demotions(state, ids[..i + 1], failedOnly) ==
            Demotions(state, ids[..i], failedOnly) +
            if Demotable(state, ids[i], failedOnly) then [DemoteVoter(state.servers[ids[i]].server.id)] else []
    ensures Demotions(state, ids[..i + 1], failedOnly) <= Demotions(state, ids, failedOnly)
  {
    assert ids[..i + 1][..i] == ids[..i];
    DemotionsGrow(state, ids, failedOnly, i + 1);
  }

  lemma {:induction false} PromotionsGrow(state: State, ids: seq<Id>, n: nat)
    requires n <= |ids|
    ensures Promotions(state, ids[..n]) <= Promotions(state, ids)
    decreases |ids| - n
  {
    if n < |ids| {
      PromotionsGrow(state, ids, n + 1);
      assert ids[..n + 1][..n] == ids[..n];
    } else {
      assert ids[..n] == ids;
    }
  }

  lemma {:induction false} DemotionsGrow(state: State, ids: seq<Id>, failedOnly: bool, n: nat)
    requires n <= |ids|
    ensures Demotions(state, ids[..n], failedOnly) <= Demotions(state, ids, failedOnly)
    decreases |ids| - n
  {
    if n < |ids| {
      DemotionsGrow(state, ids, failedOnly, n + 1);
      assert ids[..n + 1][..n] == ids[..n];
    } else {
      assert ids[..n] == ids;
    }
  }

  datatype Outcome = Off | NoConfig | NoState | RoundFailed | UnknownTarget | Done

  /** One round; `changes` is what the promoter answers for the configuration and the state. It
      issues its plan up to the first failure, and nothing else. */
  method ReconcileRound(a: Autopilot, changes: RaftChanges) returns (r: Outcome, ghost calls: seq<Call>)
    modifies a.raft`servers, a.raft`calls, a.delegate`configReads
    ensures a.raft.calls == old(a.raft.calls) + calls
    ensures a.raft.servers == ApplyCalls(old(a.raft.servers), calls)
    ensures r == Off <==> !a.reconciliationEnabled
    ensures r == Off ==> a.delegate.configReads == old(a.delegate.configReads)
    ensures r != Off ==> exists conf: Option<Config> ::
              a.delegate.configReads == old(a.delegate.configReads) + [conf] && (r == NoConfig <==> conf.None?)
    ensures r == NoState ==> a.state.leader == ""
    ensures r == Off || r == NoConfig || r == NoState ==> calls == []
    ensures r == RoundFailed || r == UnknownTarget || r == Done ==>
              && a.state.leader != ""
              && FollowsUntilFailure(Plan(a.state, changes), calls)
              && (r == RoundFailed <==> !AllOk(calls))
              && (r == UnknownTarget <==>
                    Plan(a.state, changes) == [] && WantsTransfer(a.state, changes) && changes.leader !in a.state.servers)
  {
    calls := [];
    if !a.reconciliationEnabled {
      return Off, calls;
    }
    var conf := a.delegate.AutopilotConfig();
    if conf.None? {
      return NoConfig, calls;
    }
    var state := a.state;
    if state.leader == "" {
      return NoState, calls;
    }
    r, calls := RunRound(a.raft, state, changes);
  }

  method RunRound(raft: Raft, state: State, changes: RaftChanges) returns (r: Outcome, ghost calls: seq<Call>)
    modifies raft`servers, raft`calls
    ensures raft.calls == old(raft.calls) + calls
    ensures raft.servers == ApplyCalls(old(raft.servers), calls)
    ensures r == RoundFailed || r == UnknownTarget || r == Done
    ensures FollowsUntilFailure(Plan(state, changes), calls)
    ensures r == RoundFailed <==> !AllOk(calls)
    ensures r == UnknownTarget <==>
              Plan(state, changes) == [] && WantsTransfer(state, changes) && changes.leader !in state.servers
  {
    ghost var first, rest := FirstDemotion(state, changes), AfterFirst(state, changes);
    FirstIsRepeated(state, changes);
    var ok;
    ok, calls := FirstPass(raft, state, changes);
    if !ok {
      FailedPlan(first, rest, calls);
      return RoundFailed, calls;
    }
    ghost var opening, more := calls, [];
    r, more := ApplyRest(raft, state, changes);
    calls := opening + more;
    RanBoth(old(raft.servers), old(raft.calls), first, rest, opening, more, calls);
  }

  /** A failed server is demoted before anything else, unless the number of voters is even. */
  method FirstPass(raft: Raft, state: State, changes: RaftChanges) returns (ok: bool, ghost calls: seq<Call>)
    modifies raft`servers, raft`calls
    ensures raft.calls == old(raft.calls) + calls
    ensures raft.servers == ApplyCalls(old(raft.servers), calls)
    ensures FollowsUntilFailure(FirstDemotion(state, changes), calls)
    ensures ok == AllOk(calls)
  {
    ok, calls := true, [];
    if |state.voters| % 2 != 0 {
      var demoted;
      demoted, ok, calls := ApplyDemotions(raft, state, changes, true);
    }
  }

  method ApplyRest(raft: Raft, state: State, changes: RaftChanges) returns (r: Outcome, ghost calls: seq<Call>)
    modifies raft`servers, raft`calls
    ensures raft.calls == old(raft.calls) + calls
    ensures raft.servers == ApplyCalls(old(raft.servers), calls)
    ensures r == RoundFailed || r == UnknownTarget || r == Done
    ensures FollowsUntilFailure(AfterFirst(state, changes), calls)
    ensures r == RoundFailed <==> !AllOk(calls)
    ensures r == UnknownTarget <==>
              AfterFirst(state, changes) == [] && WantsTransfer(state, changes) && changes.leader !in state.servers
  {
    var done, ok;
    done, ok, calls := ApplyPromotions(raft, state, changes);
    if done {
      r := if ok then Done else RoundFailed;
      return;
    }
    assert raft.calls == old(raft.calls) && raft.servers == old(raft.servers) && Promotions(state, changes.promotions) == [];
    done, ok, calls := ApplyDemotions(raft, state, changes, false);
    if done {
      r := if ok then Done else RoundFailed;
      return;
    }
    assert raft.calls == old(raft.calls) && raft.servers == old(raft.servers) && Demotions(state, changes.demotions, false) == [];
    r, calls := ApplyTransfer(raft, state, changes);
  }

  method ApplyTransfer(raft: Raft, state: State, changes: RaftChanges) returns (r: Outcome, ghost calls: seq<Call>)
    modifies raft`servers, raft`calls
    ensures raft.calls == old(raft.calls) + calls
    ensures raft.servers == ApplyCalls(old(raft.servers), calls)
    ensures r == RoundFailed || r == UnknownTarget || r == Done
    ensures FollowsUntilFailure(Transfer(state, changes), calls)
    ensures r == RoundFailed <==> !AllOk(calls)
    ensures r == UnknownTarget <==> WantsTransfer(state, changes) && changes.leader !in state.servers
  {
    calls := [];
    if changes.leader == "" || changes.leader == state.leader {
      return Done, calls;
    }
    if changes.leader !in state.servers {
      return UnknownTarget, calls;
    }
    var ok;
    ok, calls := IssueNext(raft, LeadershipTransfer(changes.leader, state.servers[changes.leader].server.address),
                           raft.servers, raft.calls, [], []);
    r := if ok then Done else RoundFailed;
  }

  // The shape of a round.

  /** The operation promotes a listed server that the state tracks as healthy and without a vote. */
  ghost predicate Promotes(state: State, changes: RaftChanges, op: Op) {
    exists id :: id in changes.promotions && Promotable(state, id)
                 && op == AddVoter(state.servers[id].server.id, state.servers[id].server.address)
  }

  /** The operation demotes a listed server that the state does not track as a non-voter; in a first
      pass also an unhealthy one. */
  ghost predicate Demotes(state: State, changes: RaftChanges, failedOnly: bool, op: Op) {
    exists id :: id in changes.demotions && Demotable(state, id, failedOnly) && op == DemoteVoter(state.servers[id].server.id)
  }

  lemma {:induction false} PromotionMembers(state: State, ids: seq<Id>, op: Op)
    ensures op in Promotions(state, ids) <==>
            exists id :: id in ids && Promotable(state, id)
                         && op == AddVoter(state.servers[id].server.id, state.servers[id].server.address)
  {
    if ids != [] {
      var n := |ids| - 1;
      PromotionMembers(state, ids[..n], op);
      assert ids == ids[..n] + [ids[n]];
    }
  }

  lemma {:induction false} DemotionMembers(state: State, ids: seq<Id>, failedOnly: bool, op: Op)
    ensures op in Demotions(state, ids, failedOnly) <==>
            exists id :: id in ids && Demotable(state, id, failedOnly) && op == DemoteVoter(state.servers[id].server.id)
  {
    if ids != [] {
      var n := |ids| - 1;
      DemotionMembers(state, ids[..n], failedOnly, op);
      assert ids == ids[..n] + [ids[n]];
    }
  }

  lemma PlannedPromotion(state: State, changes: RaftChanges, op: Op)
    requires op in Promotions(state, changes.promotions)
    ensures Promotes(state, changes, op) && op.AddVoter?
  {
    PromotionMembers(state, changes.promotions, op);
  }

  lemma PlannedDemotion(state: State, changes: RaftChanges, failedOnly: bool, op: Op)
    requires op in Demotions(state, changes.demotions, failedOnly)
    ensures Demotes(state, changes, failedOnly, op) && op.DemoteVoter?
    ensures op in Demotions(state, changes.demotions, false)
  {
    DemotionMembers(state, changes.demotions, failedOnly, op);
    DemotionMembers(state, changes.demotions, false, op);
  }

  lemma FirstShape(state: State, changes: RaftChanges)
    ensures |FirstDemotion(state, changes)| <= 1
    ensures FirstDemotion(state, changes) != [] ==>
              && |state.voters| % 2 != 0
              && FirstDemotion(state, changes)[0] in Demotions(state, changes.demotions, true)
  {
  }

  /** The snapshot is not refreshed, so a server demoted in the first pass is demoted again when no
      promotion comes between; in particular the second pass then has something to do. */
  lemma FirstIsRepeated(state: State, changes: RaftChanges)
    ensures FirstDemotion(state, changes) != [] ==>
              FirstDemotion(state, changes)[0] in Demotions(state, changes.demotions, false)
    ensures Plan(state, changes) == [] <==> AfterFirst(state, changes) == []
  {
    FirstShape(state, changes);
    if FirstDemotion(state, changes) != [] {
      PlannedDemotion(state, changes, true, FirstDemotion(state, changes)[0]);
    }
  }

  /** The promotions, or else the demotions, or else the transfer. */
  lemma AfterFirstShape(state: State, changes: RaftChanges)
    ensures var rest := AfterFirst(state, changes);
            || (rest != [] && forall op :: op in rest ==> Promotes(state, changes, op) && op.AddVoter?)
            || (rest == Demotions(state, changes.demotions, false) && rest != []
                && forall op :: op in rest ==> Demotes(state, changes, false, op) && op.DemoteVoter?)
            || (Demotions(state, changes.demotions, false) == []
                && (rest == [] || rest == [LeadershipTransfer(changes.leader, AddressOf(state, changes.leader))]))
  {
    var promotions := Promotions(state, changes.promotions);
    var demotions := Demotions(state, changes.demotions, false);
    forall op | op in promotions ensures Promotes(state, changes, op) && op.AddVoter? {
      PlannedPromotion(state, changes, op);
    }
    forall op | op in demotions ensures Demotes(state, changes, false, op) && op.DemoteVoter? {
      PlannedDemotion(state, changes, false, op);
    }
  }

  /** What follows the first pass: promotions of tracked healthy servers without a vote, or demotions
      of tracked servers that are not non-voters, or a single transfer, or nothing. */
  ghost predicate OneKind(state: State, changes: RaftChanges, ops: seq<Op>) {
    || (forall op :: op in ops ==> Promotes(state, changes, op) && op.AddVoter?)
    || (forall op :: op in ops ==> Demotes(state, changes, false, op) && op.DemoteVoter?)
    || ops == [LeadershipTransfer(changes.leader, AddressOf(state, changes.leader))]
  }

  /** A plan is at most one demotion of an unhealthy server, only with an odd number of voters, and
      then calls of one kind. A transfer is alone. Without promotions a first demotion is issued again. */
  lemma RoundGrammar(state: State, changes: RaftChanges)
    ensures var first, rest := FirstDemotion(state, changes), AfterFirst(state, changes);
            && Plan(state, changes) == first + rest && |first| <= 1
            && (first != [] ==> |state.voters| % 2 != 0 && Demotes(state, changes, true, first[0]))
            && OneKind(state, changes, rest)
            && ((exists op :: op in rest && op.LeadershipTransfer?) ==> first == [] && |rest| == 1)
            && (first != [] && (forall op :: op in rest ==> !op.AddVoter?) ==> first[0] in rest)
  {
    FirstShape(state, changes);
    FirstIsRepeated(state, changes);
    AfterFirstShape(state, changes);
    if FirstDemotion(state, changes) != [] {
      PlannedDemotion(state, changes, true, FirstDemotion(state, changes)[0]);
      HeadIsMember(AfterFirst(state, changes));
    }
  }

  lemma HeadIsMember(ops: seq<Op>)
    ensures ops != [] ==> ops[0] in ops
  {
  }

  function AddressOf(state: State, id: Id): Address {
    if id in state.servers then state.servers[id].server.address else ""
  }
}
