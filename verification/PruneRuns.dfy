/** Rounds of pruning one after another. */
module PruneRuns {
  import opened Ids
  import opened Sorting
  import opened IdLists
  import opened Types
  import opened RaftCluster
  import opened Registry
  import opened Adjudication
  import opened Choices
  import opened Core
  import opened Classification
  import opened Membership
  import opened Prune
  import opened PruneSafety
  import opened PruneTheorems

  /** What a round does to the configuration: all or some of its removals take effect. The promoter
      may select differently and the quorum may be read differently, but never below `floor`. */
  ghost predicate PruneStep(raft: View, after: View, known: map<Id, Server>, isPotential: NodeType -> bool, floor: nat) {
    exists f, q: Quorums, gone: set<Id> :: RemovesSome(raft, after, known, isPotential, floor, f, q, gone)
  }

  ghost predicate RemovesSome(raft: View, after: View, known: map<Id, Server>, isPotential: NodeType -> bool, floor: nat,
                              f: FailedServers, q: Quorums, gone: set<Id>) {
    && Selects(f, Classify(raft, known))
    && floor <= q.first && floor <= q.second && floor <= q.third && floor <= q.fourth
    && NoNilEntry(f, RollOf(raft, known, isPotential), q)
    && gone <= ToSet(RoundOf(f, RollOf(raft, known, isPotential), q).Removed())
    && after == raft - gone
  }

  lemma RollWithout(raft: View, known: map<Id, Server>, isPotential: NodeType -> bool, gone: set<Id>)
    ensures RollOf(raft - gone, known, isPotential) == RollOf(raft, known, isPotential) - gone
  {
  }

  lemma StepFloor(raft: View, after: View, known: map<Id, Server>, isPotential: NodeType -> bool, floor: nat)
    requires PruneStep(raft, after, known, isPotential, floor)
    ensures |PotentialIds(RollOf(after, known, isPotential))| >= Min(|PotentialIds(RollOf(raft, known, isPotential))|, floor)
  {
    var roll := RollOf(raft, known, isPotential);
    var f, q: Quorums, gone: set<Id> :| RemovesSome(raft, after, known, isPotential, floor, f, q, gone);
    RollWithout(raft, known, isPotential, gone);
    PartialRoundFloor(f, roll, q, gone, floor);
  }

  lemma PartialRoundFloor(f: FailedServers, roll: Roll, q: Quorums, gone: set<Id>, floor: nat)
    requires floor <= q.first && floor <= q.second && floor <= q.third && floor <= q.fourth
    requires NoNilEntry(f, roll, q) && gone <= ToSet(RoundOf(f, roll, q).Removed())
    ensures |PotentialIds(roll - gone)| >= Min(|PotentialIds(roll)|, floor)
  {
    RoundFloor(f, roll, q, floor);
    FewerGone(roll, gone, ToSet(RoundOf(f, roll, q).Removed()));
  }

  lemma FewerGone(roll: Roll, gone: set<Id>, all: set<Id>)
    requires gone <= all
    ensures |PotentialIds(roll - all)| <= |PotentialIds(roll - gone)|
  {
    SubsetSize(PotentialIds(roll - all), PotentialIds(roll - gone));
  }

  /** Over any number of rounds the potential voters stay at or above the smaller of their initial
      number and the quorum. */
  lemma {:induction false} RunFloor(run: seq<View>, known: map<Id, Server>, isPotential: NodeType -> bool, floor: nat)
    requires run != [] && forall i :: 0 <= i < |run| - 1 ==> PruneStep(run[i], run[i + 1], known, isPotential, floor)
    ensures |PotentialIds(RollOf(run[|run| - 1], known, isPotential))| >=
            Min(|PotentialIds(RollOf(run[0], known, isPotential))|, floor)
  {
    if |run| > 1 {
      var n := |run| - 1;
      RunFloor(run[..n], known, isPotential, floor);
      assert PruneStep(run[n - 1], run[n - 1 + 1], known, isPotential, floor);
      StepFloor(run[n - 1], run[n], known, isPotential, floor);
    }
  }

  function DeadIds(raft: View, known: map<Id, Server>): set<Id> {
    set id | id in raft && (id !in known || known[id].nodeStatus != NodeAlive)
  }

  lemma StepTakesTheDead(raft: View, after: View, known: map<Id, Server>, isPotential: NodeType -> bool, floor: nat)
    requires KeyedById(known) && PruneStep(raft, after, known, isPotential, floor)
    ensures DeadIds(after, known) <= DeadIds(raft, known)
    ensures after != raft ==> |DeadIds(after, known)| < |DeadIds(raft, known)|
    ensures |DeadIds(after, known)| <= |DeadIds(raft, known)|
  {
    var f, q: Quorums, gone: set<Id> :| RemovesSome(raft, after, known, isPotential, floor, f, q, gone);
    GoneWereDead(raft, known, isPotential, f, q, gone);
    GoneShrinks(raft, known, gone);
  }

  lemma GoneWereDead(raft: View, known: map<Id, Server>, isPotential: NodeType -> bool, f: FailedServers, q: Quorums, gone: set<Id>)
    requires KeyedById(known) && Selects(f, Classify(raft, known)) && NoNilEntry(f, RollOf(raft, known, isPotential), q)
    requires gone <= ToSet(RoundOf(f, RollOf(raft, known, isPotential), q).Removed())
    ensures gone <= DeadIds(raft, known)
  {
    RemovesOnlyTheDeadOnce(f, raft, known, isPotential, q);
    assert forall id :: id in gone ==> id in ToSet(RoundOf(f, RollOf(raft, known, isPotential), q).Removed());
  }

  lemma GoneShrinks(raft: View, known: map<Id, Server>, gone: set<Id>)
    requires gone <= DeadIds(raft, known)
    ensures DeadIds(raft - gone, known) == DeadIds(raft, known) - gone
    ensures raft - gone == raft <==> gone == {}
    ensures |DeadIds(raft - gone, known)| == |DeadIds(raft, known)| - |gone|
  {
    if id :| id in gone {
      assert id in raft && id !in raft - gone;
    } else {
      assert raft - gone == raft;
    }
  }

  /** How many steps of a run changed the configuration. */
  function Changes(run: seq<View>): nat {
    if |run| <= 1 then 0
    else Changes(run[..|run| - 1]) + if run[|run| - 1] == run[|run| - 2] then 0 else 1
  }

  /** Whatever the promoter selects, whatever quorums are read and whichever removals take effect, the
      steps that change anything are at most as many as there were dead servers. */
  lemma {:induction false} ChangesAreBounded(run: seq<View>, known: map<Id, Server>, isPotential: NodeType -> bool, floor: nat)
    requires KeyedById(known) && run != []
    requires forall i :: 0 <= i < |run| - 1 ==> PruneStep(run[i], run[i + 1], known, isPotential, floor)
    ensures Changes(run) + |DeadIds(run[|run| - 1], known)| <= |DeadIds(run[0], known)|
  {
    if |run| > 1 {
      var n := |run| - 1;
      ChangesAreBounded(run[..n], known, isPotential, floor);
      assert PruneStep(run[n - 1], run[n - 1 + 1], known, isPotential, floor);
      StepTakesTheDead(run[n - 1], run[n], known, isPotential, floor);
    }
  }

  // Calls of pruneDeadServers are such steps.

  lemma MapWithLast(config: Configuration, last: RaftServer)
    ensures RaftMap(config + [last]) == RaftMap(config)[last.id := last]
  {
    assert (config + [last])[..|config|] == config;
  }

  lemma {:induction false} MapWithout(config: Configuration, ids: set<Id>)
    ensures RaftMap(Without(config, ids)) == RaftMap(config) - ids
  {
    if config != [] {
      var rest, last := config[..|config| - 1], config[|config| - 1];
      MapWithout(rest, ids);
      MapWithLast(Without(rest, ids), last);
      StruckOrKept(RaftMap(rest), last, ids);
    }
  }

  lemma StruckOrKept(view: View, last: RaftServer, ids: set<Id>)
    ensures view[last.id := last] - ids == if last.id in ids then view - ids else (view - ids)[last.id := last]
  {
  }

  /** The removals that took effect. */
  function EffectiveIds(calls: seq<Call>): set<Id> {
    set c | c in calls && c.ok && c.op.RemoveServer? :: c.op.id
  }

  lemma OneMoreEffective(calls: seq<Call>, call: Call)
    requires call.op.RemoveServer?
    ensures EffectiveIds(calls + [call]) == EffectiveIds(calls) + if call.ok then {call.op.id} else {}
  {
  }

  lemma {:induction false} RemovalsShrinkView(config: Configuration, calls: seq<Call>)
    requires forall c :: c in calls ==> c.op.RemoveServer?
    ensures RaftMap(ApplyCalls(config, calls)) == RaftMap(config) - EffectiveIds(calls)
  {
    if calls != [] {
      var before, last := calls[..|calls| - 1], calls[|calls| - 1];
      assert calls == before + [last];
      assert last in calls;
      RemovalsShrinkView(config, before);
      OneMoreEffective(before, last);
      ApplyCallsStep(config, before, last);
      MapWithout(ApplyCalls(config, before), {last.op.id});
    }
  }

  lemma EffectiveAreAsked(ids: seq<Id>, calls: seq<Call>)
    requires RemovalsOf(ids, calls)
    ensures forall c :: c in calls ==> c.op.RemoveServer?
    ensures EffectiveIds(calls) <= ToSet(ids)
  {
    forall c | c in calls ensures c.op.RemoveServer? && c.op.id in ids {
      var i :| 0 <= i < |calls| && calls[i] == c;
      assert calls[i].op == RemoveServer(ids[i]);
    }
  }

  lemma ViewAfter(config: Configuration, asked: seq<Id>, calls: seq<Call>, acted: set<Id>)
    requires RemovalsOf(asked, calls)
    ensures RaftMap(ApplyCalls(config, calls)) - acted == RaftMap(config) - (EffectiveIds(calls) + acted)
    ensures EffectiveIds(calls) + acted <= ToSet(asked) + acted
  {
    EffectiveAreAsked(asked, calls);
    RemovalsShrinkView(config, calls);
  }

  /** A round some of whose removals took effect is a step. */
  lemma PartialRoundIsAStep(raft: View, known: map<Id, Server>, isPotential: NodeType -> bool, floor: nat,
                            f: FailedServers, q: Quorums, gone: set<Id>)
    requires Selects(f, Classify(raft, known))
    requires floor <= q.first && floor <= q.second && floor <= q.third && floor <= q.fourth
    requires NoNilEntry(f, RollOf(raft, known, isPotential), q)
    requires gone <= ToSet(RoundOf(f, RollOf(raft, known, isPotential), q).Removed())
    ensures PruneStep(raft, raft - gone, known, isPotential, floor)
  {
    assert RemovesSome(raft, raft - gone, known, isPotential, floor, f, q, gone);
  }

  lemma {:induction false} IdlingIsAStep(config: Configuration, known: map<Id, Server>, isPotential: NodeType -> bool, floor: nat)
    ensures PruneStep(RaftMap(config), RaftMap(config), known, isPotential, floor)
  {
    var none, q := FailedServers([], [], [], []), Quorums(floor, floor, floor, floor);
    assert RaftMap(config) - {} == RaftMap(config);
    assert RemovesSome(RaftMap(config), RaftMap(config), known, isPotential, floor, none, q, {});
  }

  /** The quorums read, the floor standing in for those a stopped call did not come to. */
  function QuorumsRead(confs: seq<Option<Config>>, floor: nat): Quorums {
    Quorums(QuorumRead(confs, 0, floor), QuorumRead(confs, 1, floor), QuorumRead(confs, 2, floor), QuorumRead(confs, 3, floor))
  }

  function QuorumRead(confs: seq<Option<Config>>, i: nat, floor: nat): nat {
    if i < |confs| && confs[i].Some? then confs[i].value.minQuorum else floor
  }

  /** What the phases have asked of Raft, and of the application, is part of the round. */
  lemma AskedOfRound(r: PruneOutcome, f: FailedServers, roll: Roll, confs: seq<Option<Config>>, calls: seq<Call>,
                     removed: seq<Server>, floor: nat) returns (asked: seq<Id>)
    requires PhasesRan(r, f, roll, confs, calls, removed) && ClassEntries(f, roll)
    ensures var q := QuorumsRead(confs, floor);
            && NoNilEntry(f, roll, q) && RemovalsOf(asked, calls)
            && ToSet(asked) + ToSet(IdsOf(removed)) <= ToSet(RoundOf(f, roll, q).Removed())
  {
    var q := QuorumsRead(confs, floor);
    RoundClosedForm(f, roll, q);
    var round := RoundOf(f, roll, q);
    if r == NilDereference {
      asked := AskedBeforeNilOfRound(f, roll, confs, calls, removed, floor);
    } else if r == Pruned {
      assert q == QuorumsIn(confs);
      IssuedInOrder(f, roll, q, calls, removed);
      asked := round.staleNonVoters + round.staleVoters;
    } else {
      asked := round.staleNonVoters + if |confs| == 2 then round.staleVoters else [];
    }
  }

  lemma AskedBeforeNilOfRound(f: FailedServers, roll: Roll, confs: seq<Option<Config>>, calls: seq<Call>,
                              removed: seq<Server>, floor: nat) returns (asked: seq<Id>)
    requires NilWasRead(f, roll, confs) && AskedBeforeNil(f, roll, confs, calls, removed) && ClassEntries(f, roll)
    ensures var q := QuorumsRead(confs, floor);
            && NoNilEntry(f, roll, q) && RemovalsOf(asked, calls)
            && ToSet(asked) + ToSet(IdsOf(removed)) <= ToSet(RoundOf(f, roll, q).Removed())
  {
    var q := QuorumsRead(confs, floor);
    RoundClosedForm(f, roll, q);
    var round := RoundOf(f, roll, q);
    if |confs| == 1 {
      asked := [];
    } else if |confs| == 2 {
      asked := round.staleNonVoters;
    } else {
      asked := round.staleNonVoters + round.staleVoters;
      if |confs| == 4 {
        RemovedAreCandidates(f, roll, q);
        GetFailedIds(f.failedNonVoters, round.failedNonVoters);
      }
    }
  }

  /** Every call of pruneDeadServers with a filter that selects, whatever it reads and whatever
      fails, one that ends in a nil dereference included, takes the configuration down a step. So
      RunFloor and ChangesAreBounded speak of every sequence of calls. */
  lemma CallIsAStep(r: PruneOutcome, enabled: bool, state: State, promoter: Promoter, config: Configuration,
                    known: map<Id, Server>, confs: seq<Option<Config>>, calls: seq<Call>, removed: seq<Server>,
                    floor: nat, acted: set<Id>)
    requires PruneRan(r, enabled, state, promoter, RaftMap(config), known, confs, calls, removed)
    requires KeyedById(known)
    requires r == NilDereference || r == StaleRemovalFailed || r == Pruned ==>
               Selects(Candidates(confs[0].value, state, promoter, RaftMap(config), known), Classify(RaftMap(config), known))
    requires forall i :: 0 < i < |confs| && confs[i].Some? ==> floor <= confs[i].value.minQuorum
    requires acted <= ToSet(IdsOf(removed))
    ensures PruneStep(RaftMap(config), RaftMap(ApplyCalls(config, calls)) - acted, known, promoter.isPotentialVoter, floor)
  {
    if r == NilDereference || r == StaleRemovalFailed || r == Pruned {
      CallWithPhases(r, enabled, state, promoter, config, known, confs, calls, removed, floor, acted);
    } else {
      NoPhaseRan(r, enabled, state, promoter, RaftMap(config), known, confs, calls, removed);
      IdlingIsAStep(config, known, promoter.isPotentialVoter, floor);
      NothingGone(RaftMap(config), acted);
    }
  }

  lemma CallWithPhases(r: PruneOutcome, enabled: bool, state: State, promoter: Promoter, config: Configuration,
                       known: map<Id, Server>, confs: seq<Option<Config>>, calls: seq<Call>, removed: seq<Server>,
                       floor: nat, acted: set<Id>)
    requires r == NilDereference || r == StaleRemovalFailed || r == Pruned
    requires PruneRan(r, enabled, state, promoter, RaftMap(config), known, confs, calls, removed)
    requires KeyedById(known)
    requires Selects(Candidates(confs[0].value, state, promoter, RaftMap(config), known), Classify(RaftMap(config), known))
    requires forall i :: 0 < i < |confs| && confs[i].Some? ==> floor <= confs[i].value.minQuorum
    requires acted <= ToSet(IdsOf(removed))
    ensures PruneStep(RaftMap(config), RaftMap(ApplyCalls(config, calls)) - acted, known, promoter.isPotentialVoter, floor)
  {
    var f := Candidates(confs[0].value, state, promoter, RaftMap(config), known);
    FloorAfterFirst(confs, floor);
    PhasesAreAStep(r, f, config, known, promoter.isPotentialVoter, confs[1..], calls, removed, floor, acted);
  }

  lemma FloorAfterFirst(confs: seq<Option<Config>>, floor: nat)
    requires |confs| >= 1 && forall i :: 0 < i < |confs| && confs[i].Some? ==> floor <= confs[i].value.minQuorum
    ensures forall i :: 0 <= i < |confs[1..]| && confs[1..][i].Some? ==> floor <= confs[1..][i].value.minQuorum
  {
  }

  lemma NoPhaseRan(r: PruneOutcome, enabled: bool, state: State, promoter: Promoter, raft: View,
                   known: map<Id, Server>, confs: seq<Option<Config>>, calls: seq<Call>, removed: seq<Server>)
    requires PruneRan(r, enabled, state, promoter, raft, known, confs, calls, removed)
    requires r != NilDereference && r != StaleRemovalFailed && r != Pruned
    ensures calls == [] && removed == []
  {
  }

  lemma NothingGone(raft: View, gone: set<Id>)
    ensures gone == {} ==> raft - gone == raft
  {
  }

  lemma PhasesAreAStep(r: PruneOutcome, f: FailedServers, config: Configuration, known: map<Id, Server>,
                       isPotential: NodeType -> bool, confs: seq<Option<Config>>, calls: seq<Call>,
                       removed: seq<Server>, floor: nat, acted: set<Id>)
    requires PhasesRan(r, f, RollOf(RaftMap(config), known, isPotential), confs, calls, removed)
    requires KeyedById(known) && Selects(f, Classify(RaftMap(config), known))
    requires forall i :: 0 <= i < |confs| && confs[i].Some? ==> floor <= confs[i].value.minQuorum
    requires acted <= ToSet(IdsOf(removed))
    ensures PruneStep(RaftMap(config), RaftMap(ApplyCalls(config, calls)) - acted, known, isPotential, floor)
  {
    EntriesOf(f, RaftMap(config), known, isPotential);
    var asked := AskedOfRound(r, f, RollOf(RaftMap(config), known, isPotential), confs, calls, removed, floor);
    ViewAfter(config, asked, calls, acted);
    PartialRoundIsAStep(RaftMap(config), known, isPotential, floor, f, QuorumsRead(confs, floor), EffectiveIds(calls) + acted);
  }

  /** And it never runs into a missing registry entry: with configurations to read, it does not panic. */
  lemma SelectingNeverPanics(f: FailedServers, raft: View, known: map<Id, Server>, isPotential: NodeType -> bool,
                             confs: seq<Option<Config>>)
    requires KeyedById(known) && Selects(f, Classify(raft, known))
    requires NilWasRead(f, RollOf(raft, known, isPotential), confs)
    ensures confs[|confs| - 1].None?
  {
    EntriesOf(f, raft, known, isPotential);
    var roll := RollOf(raft, known, isPotential);
    RoundClosedForm(f, roll, QuorumsRead(confs, 0));
  }

  // Convergence, when the application's view and the quorum stay put, the promoter filters nothing
  // (as StablePromoter does) and every removal takes effect.

  ghost function RoundAt(raft: View, known: map<Id, Server>, isPotential: NodeType -> bool, minQuorum: nat): (r: Round)
    requires KeyedById(known)
    ensures ClassEntries(Classify(raft, known), RollOf(raft, known, isPotential))
    ensures r == ClosedRound(Classify(raft, known), RollOf(raft, known, isPotential),
                             Quorums(minQuorum, minQuorum, minQuorum, minQuorum))
  {
    var f, roll := Classify(raft, known), RollOf(raft, known, isPotential);
    var q := Quorums(minQuorum, minQuorum, minQuorum, minQuorum);
    EntriesOf(f, raft, known, isPotential);
    RoundClosedForm(f, roll, q);
    RoundOf(f, roll, q)
  }

  ghost function NextView(raft: View, known: map<Id, Server>, isPotential: NodeType -> bool, minQuorum: nat): View
    requires KeyedById(known)
  {
    raft - ToSet(RoundAt(raft, known, isPotential, minQuorum).Removed())
  }

  /** A round that changes anything leaves fewer dead servers. */
  lemma RoundMakesProgress(raft: View, known: map<Id, Server>, isPotential: NodeType -> bool, minQuorum: nat)
    requires KeyedById(known)
    ensures var after := NextView(raft, known, isPotential, minQuorum);
            && (after == raft <==> RoundAt(raft, known, isPotential, minQuorum).Removed() == [])
            && (after != raft ==> |DeadIds(after, known)| < |DeadIds(raft, known)|)
  {
    var f, roll := Classify(raft, known), RollOf(raft, known, isPotential);
    var q := Quorums(minQuorum, minQuorum, minQuorum, minQuorum);
    var removed := RoundAt(raft, known, isPotential, minQuorum).Removed();
    RemovesOnlyTheDeadOnce(f, raft, known, isPotential, q);
    RoundClosedForm(f, roll, q);
    FewerDead(raft, known, removed);
  }

  lemma FewerDead(raft: View, known: map<Id, Server>, removed: seq<Id>)
    requires forall id :: id in removed ==> id in DeadIds(raft, known)
    ensures raft - ToSet(removed) == raft <==> removed == []
    ensures removed != [] ==> |DeadIds(raft - ToSet(removed), known)| < |DeadIds(raft, known)|
  {
    GoneShrinks(raft, known, ToSet(removed));
    assert removed != [] ==> removed[0] in ToSet(removed);
  }

  ghost predicate RoundAfterRound(run: seq<View>, known: map<Id, Server>, isPotential: NodeType -> bool, minQuorum: nat)
    requires KeyedById(known)
  {
    run != [] && forall i :: 0 < i < |run| ==> run[i] == NextView(run[i - 1], known, isPotential, minQuorum)
  }

  /** The rounds so far have each cost a dead server, or they have settled. */
  ghost predicate Shrunk(run: seq<View>, known: map<Id, Server>, k: nat)
    requires k < |run|
  {
    (k > 0 && run[k] == run[k - 1]) || |DeadIds(run[k], known)| + k <= |DeadIds(run[0], known)|
  }

  lemma {:induction false} SettledOrShrunk(run: seq<View>, known: map<Id, Server>, isPotential: NodeType -> bool, minQuorum: nat, k: nat)
    requires KeyedById(known) && RoundAfterRound(run, known, isPotential, minQuorum) && k < |run|
    ensures Shrunk(run, known, k)
  {
    if k > 0 {
      SettledOrShrunk(run, known, isPotential, minQuorum, k - 1);
      OneMoreRound(run, known, isPotential, minQuorum, k);
    }
  }

  lemma OneMoreRound(run: seq<View>, known: map<Id, Server>, isPotential: NodeType -> bool, minQuorum: nat, k: nat)
    requires KeyedById(known) && RoundAfterRound(run, known, isPotential, minQuorum) && 0 < k < |run|
    requires Shrunk(run, known, k - 1)
    ensures Shrunk(run, known, k)
  {
    var before := run[k - 1];
    assert run[k] == NextView(before, known, isPotential, minQuorum);
    RoundMakesProgress(before, known, isPotential, minQuorum);
    if k > 1 && before == run[k - 2] {
      assert before == NextView(run[k - 2], known, isPotential, minQuorum);
    }
  }

  /** As many rounds as there are dead servers always reach a fixed point. */
  lemma RoundsSettle(run: seq<View>, known: map<Id, Server>, isPotential: NodeType -> bool, minQuorum: nat)
    requires KeyedById(known) && RoundAfterRound(run, known, isPotential, minQuorum)
    requires |run| > |DeadIds(run[0], known)|
    ensures NextView(run[|run| - 1], known, isPotential, minQuorum) == run[|run| - 1]
  {
    var last := run[|run| - 1];
    SettledOrShrunk(run, known, isPotential, minQuorum, |run| - 1);
    if DeadIds(last, known) == {} {
      RoundMakesProgress(last, known, isPotential, minQuorum);
    }
  }

  // What the rounds leave behind.

  lemma {:induction false} TakesNothingIff(ids: seq<Id>, roll: Roll, m: nat)
    requires AllIn(ids, roll)
    ensures TakePotential(ids, roll, m) == [] <==> forall id :: id in ids ==> roll[id].potentialVoter && m == 0
  {
    if ids != [] {
      TakesNothingIff(ids[1..], roll, m);
      assert forall id :: id in ids <==> id == ids[0] || id in ids[1..];
    }
  }

  lemma RemovesNoVoterIff(ids: seq<Id>, roll: Roll, p: nat, q: nat)
    requires AllIn(ids, roll)
    ensures VotersRemoved(ids, roll, p, q) == [] <==>
            p <= 2 || forall id :: id in ids ==> roll[id].potentialVoter && p <= q
  {
    TakesNothingIff(ids, roll, Max(0, p - q));
    HasMember(ids);
  }

  lemma RemovesNothingIff(f: FailedServers, roll: Roll, q: Quorums)
    requires ClassEntries(f, roll)
    ensures var p := |PotentialIds(roll)|;
            ClosedRound(f, roll, q).Removed() == [] <==>
            && f.staleNonVoters == []
            && (p <= 2 || f.staleVoters == [])
            && (forall id :: id in IdsOf(f.failedNonVoters) ==> roll[id].potentialVoter && p <= q.third)
            && (p <= 2 || forall id :: id in IdsOf(f.failedVoters) ==> roll[id].potentialVoter && p <= q.fourth)
  {
    var p := |PotentialIds(roll)|;
    var r := ClosedRound(f, roll, q);
    assert r.Removed() == [] <==>
           r.staleNonVoters == [] && r.staleVoters == [] && r.failedNonVoters == [] && r.failedVoters == [];
    TakesNothingIff(IdsOf(f.failedNonVoters), roll, Max(0, p - q.third));
    RemovesNoVoterIff(IdsOf(f.failedVoters), roll, StillPotential(f, roll, q), q.fourth);
    if r.failedNonVoters == [] {
      TakeCount(IdsOf(f.failedNonVoters), roll, Max(0, p - q.third));
      assert StillPotential(f, roll, q) == p;
    }
  }

  /** The fixed points, exactly: no stale non-voter; no uncounted failed non-voter; stale voters and
      uncounted failed voters only with at most two potential voters; counted failed non-voters only
      at the quorum; counted failed voters only at the quorum or with at most two. */
  lemma FixedPointIff(raft: View, known: map<Id, Server>, isPotential: NodeType -> bool, minQuorum: nat)
    requires KeyedById(known)
    ensures var p := |PotentialIds(RollOf(raft, known, isPotential))|;
            NextView(raft, known, isPotential, minQuorum) == raft <==>
            && StaleIds(raft, known, false) == {}
            && (p <= 2 || StaleIds(raft, known, true) == {})
            && (forall id :: id in FailedIds(raft, known, false) ==> isPotential(known[id].nodeType) && p <= minQuorum)
            && (p <= 2 || forall id :: id in FailedIds(raft, known, true) ==> isPotential(known[id].nodeType) && p <= minQuorum)
  {
    var f, roll := Classify(raft, known), RollOf(raft, known, isPotential);
    var q := Quorums(minQuorum, minQuorum, minQuorum, minQuorum);
    RoundMakesProgress(raft, known, isPotential, minQuorum);
    RemovesNothingIff(f, roll, q);
    ListingEmpty(StaleIds(raft, known, false));
    ListingEmpty(StaleIds(raft, known, true));
    FailedListed(raft, known, false);
    FailedListed(raft, known, true);
  }

  lemma ListingEmpty(s: set<Id>)
    ensures Listing(s) == [] <==> s == {}
  {
    HasMember(Listing(s));
    assert forall id :: id in Listing(s) <==> id in ToSet(Listing(s));
    if s != {} {
      var id :| id in s;
      assert id in ToSet(Listing(s));
    }
  }

  lemma FailedListed(raft: View, known: map<Id, Server>, voters: bool)
    requires KeyedById(known)
    ensures var ids := FailedIds(raft, known, voters);
            forall id :: id in IdsOf(ServersOf(known, Listed(ids, known))) <==> id in ids
  {
    var ids := FailedIds(raft, known, voters);
    var xs := Listed(ids, known);
    assert IdsOf(ServersOf(known, xs)) == xs;
    assert forall id :: id in xs <==> id in ToSet(xs);
  }
}
