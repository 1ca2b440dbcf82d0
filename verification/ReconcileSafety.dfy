/** reconcile.go: what the rounds do to the quorum. */
module ReconcileSafety {
  import opened Ids
  import opened Sorting
  import opened Types
  import opened RaftCluster
  import opened Membership
  import opened Reconcile

  function HealthyIds(state: State): set<Id> {
    set id | id in state.servers && state.servers[id].health.healthy
  }

  /** Servers are recorded under their own ids, as every computed state has it. */
  ghost predicate Keyed(state: State) {
    forall id :: id in state.servers ==> state.servers[id].server.id == id
  }

  /** How many healthy voters could still fail. */
  function Margin(voters: set<Id>, healthy: set<Id>): int {
    |voters * healthy| - RequiredQuorum(|voters|)
  }

  lemma AddingHealthy(voters: set<Id>, healthy: set<Id>, id: Id)
    requires id in healthy
    ensures Margin(voters + {id}, healthy) >= Margin(voters, healthy)
  {
    if id in voters {
      assert voters + {id} == voters;
    } else {
      assert (voters + {id}) * healthy == voters * healthy + {id};
    }
  }

  lemma DroppingUnhealthy(voters: set<Id>, healthy: set<Id>, id: Id)
    requires id !in healthy
    ensures Margin(voters - {id}, healthy) >= Margin(voters, healthy)
    ensures |voters - {id}| == |voters| - if id in voters then 1 else 0
  {
    assert (voters - {id}) * healthy == voters * healthy;
    if id !in voters {
      assert voters - {id} == voters;
    }
  }

  /** In a promoting round every planned call adds a healthy server or drops an unhealthy one. */
  lemma PromotingOp(state: State, changes: RaftChanges, i: nat)
    requires Keyed(state) && Promotions(state, changes.promotions) != []
    requires i < |Plan(state, changes)|
    ensures var op := Plan(state, changes)[i];
            || (op.AddVoter? && op.id in HealthyIds(state))
            || (op.DemoteVoter? && op.id !in HealthyIds(state) && i == 0 && |state.voters| % 2 != 0
                && FirstDemotion(state, changes) != [])
    ensures FirstDemotion(state, changes) != [] ==> Plan(state, changes)[0].DemoteVoter?
  {
    var first := FirstDemotion(state, changes);
    if first != [] {
      assert first[0] in Demotions(state, changes.demotions, true);
      DemotionMembers(state, changes.demotions, true, first[0]);
    }
    if i >= |first| {
      PromotionMembers(state, changes.promotions, Plan(state, changes)[i]);
    }
  }

  /** The margin of the configuration after any number of a promoting round's calls, failed last
      call included, is at least what it was; repeats in the change lists do not matter. */
  lemma {:induction false} PromotingKeepsMargin(config: Configuration, state: State, changes: RaftChanges, calls: seq<Call>, k: nat)
    requires UniqueIds(config) && Keyed(state) && Promotions(state, changes.promotions) != []
    requires FollowsUntilFailure(Plan(state, changes), calls) && k <= |calls|
    ensures UniqueIds(ApplyCalls(config, calls[..k]))
    ensures Margin(VoterIds(ApplyCalls(config, calls[..k])), HealthyIds(state)) >= Margin(VoterIds(config), HealthyIds(state))
    decreases k
  {
    if k > 0 {
      PromotingKeepsMargin(config, state, changes, calls, k - 1);
      var before := ApplyCalls(config, calls[..k - 1]);
      assert calls[..k] == calls[..k - 1] + [calls[k - 1]];
      ApplyCallsStep(config, calls[..k - 1], calls[k - 1]);
      PromotingOp(state, changes, k - 1);
      OpKeepsMargin(before, HealthyIds(state), calls[k - 1].op);
    }
  }

  lemma OpKeepsMargin(config: Configuration, healthy: set<Id>, op: Op)
    requires UniqueIds(config) && ((op.AddVoter? && op.id in healthy) || (op.DemoteVoter? && op.id !in healthy))
    ensures UniqueIds(Apply(config, op))
    ensures Margin(VoterIds(Apply(config, op)), healthy) >= Margin(VoterIds(config), healthy)
  {
    VotersAfter(config, op);
    if op.AddVoter? {
      AddingHealthy(VoterIds(config), healthy, op.id);
    } else {
      DroppingUnhealthy(VoterIds(config), healthy, op.id);
    }
  }

  /** The state's voters are Raft's. */
  ghost predicate VotersMatch(state: State, config: Configuration) {
    Distinct(state.voters) && ToSet(state.voters) == VoterIds(config)
  }

  /** The call adds a voter that was not one. */
  ghost predicate Effective(config: Configuration, calls: seq<Call>, j: nat)
    requires j < |calls|
  {
    calls[j].ok && calls[j].op.AddVoter? && calls[j].op.id !in VoterIds(ApplyCalls(config, calls[..j]))
  }

  ghost predicate VoterDemotedFirst(config: Configuration, calls: seq<Call>) {
    calls != [] && calls[0].ok && calls[0].op.DemoteVoter? && calls[0].op.id in VoterIds(config)
  }

  /** Before the first effective promotion the voters are the original ones, less the one demoted. */
  lemma {:induction false} VotersBeforePromotion(config: Configuration, state: State, changes: RaftChanges, calls: seq<Call>, j: nat)
    requires UniqueIds(config) && Keyed(state) && Promotions(state, changes.promotions) != []
    requires FollowsUntilFailure(Plan(state, changes), calls) && j < |calls|
    requires forall i :: 0 <= i < j ==> !Effective(config, calls, i)
    ensures UniqueIds(ApplyCalls(config, calls[..j]))
    ensures |VoterIds(ApplyCalls(config, calls[..j]))| ==
            |VoterIds(config)| - if j > 0 && VoterDemotedFirst(config, calls) then 1 else 0
    decreases j
  {
    if j > 0 {
      VotersBeforePromotion(config, state, changes, calls, j - 1);
      PromotingOp(state, changes, j - 1);
      assert calls[j - 1].ok && calls[j - 1].op == Plan(state, changes)[j - 1];
      QuietStep(config, calls, j - 1);
      PromotingOp(state, changes, 0);
    }
  }

  /** A successful call that is a demotion at the very start or a promotion without effect. */
  lemma QuietStep(config: Configuration, calls: seq<Call>, i: nat)
    requires i < |calls| && calls[i].ok && !Effective(config, calls, i)
    requires UniqueIds(config) && UniqueIds(ApplyCalls(config, calls[..i]))
    requires calls[i].op.AddVoter? || (calls[i].op.DemoteVoter? && i == 0)
    ensures UniqueIds(ApplyCalls(config, calls[..i + 1]))
    ensures |VoterIds(ApplyCalls(config, calls[..i + 1]))| ==
            |VoterIds(ApplyCalls(config, calls[..i]))| - if i == 0 && VoterDemotedFirst(config, calls) then 1 else 0
  {
    var before, op := ApplyCalls(config, calls[..i]), calls[i].op;
    assert calls[..i + 1] == calls[..i] + [calls[i]];
    ApplyCallsStep(config, calls[..i], calls[i]);
    VotersAfter(before, op);
    if op.AddVoter? {
      assert VoterIds(before) + {op.id} == VoterIds(before);
    } else {
      assert calls[..0] == [];
      DroppingUnhealthy(VoterIds(before), {}, op.id);
    }
  }

  /** The first promotion that has an effect raises the required quorum exactly when the number of
      voters was odd and no voter was demoted first. */
  lemma FirstPromotionRaisesQuorumIff(config: Configuration, state: State, changes: RaftChanges, calls: seq<Call>, j: nat)
    requires UniqueIds(config) && Keyed(state) && VotersMatch(state, config)
    requires Promotions(state, changes.promotions) != []
    requires FollowsUntilFailure(Plan(state, changes), calls) && j < |calls|
    requires Effective(config, calls, j) && forall i :: 0 <= i < j ==> !Effective(config, calls, i)
    ensures RequiredQuorum(|VoterIds(ApplyCalls(config, calls[..j + 1]))|) > RequiredQuorum(|VoterIds(config)|)
            <==> |state.voters| % 2 != 0 && !VoterDemotedFirst(config, calls)
  {
    VotersBeforePromotion(config, state, changes, calls, j);
    DistinctLength(state.voters);
    VotersAfterPromotion(config, calls, j);
    PromotingOp(state, changes, 0);
  }

  lemma VotersAfterPromotion(config: Configuration, calls: seq<Call>, j: nat)
    requires j < |calls| && UniqueIds(ApplyCalls(config, calls[..j])) && Effective(config, calls, j)
    ensures |VoterIds(ApplyCalls(config, calls[..j + 1]))| == |VoterIds(ApplyCalls(config, calls[..j]))| + 1
  {
    assert calls[..j + 1] == calls[..j] + [calls[j]];
    ApplyCallsStep(config, calls[..j], calls[j]);
    VotersAfter(ApplyCalls(config, calls[..j]), calls[j].op);
  }
}
