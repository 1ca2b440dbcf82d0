/** reconcile.go, pruneDeadServers: one round of removals in four phases. */
module Prune {
  import opened Ids
  import opened Sorting
  import opened Types
  import opened RaftCluster
  import opened Registry
  import opened Adjudication
  import opened Core
  import opened Classification

  /** The ids each phase removes. */
  datatype Round = Round(staleNonVoters: seq<Id>, staleVoters: seq<Id>, failedNonVoters: seq<Id>, failedVoters: seq<Id>) {
    function Removed(): seq<Id> {
      staleNonVoters + staleVoters + failedNonVoters + failedVoters
    }
  }

  /** The quorum read in each phase. */
  datatype Quorums = Quorums(first: nat, second: nat, third: nat, fourth: nat)

  /** Every id the first two phases look up has an entry when they do; the other two check. */
  ghost predicate NoNilEntry(failed: FailedServers, roll: Roll, q: Quorums) {
    && AllIn(failed.staleNonVoters, roll)
    && AllIn(failed.staleVoters, roll - ToSet(Adjudicate(failed.staleNonVoters, roll, q.first)))
  }

  lemma {:induction false} RegisteredAreIn(servers: seq<Server>, roll: Roll)
    ensures AllIn(Registered(servers, roll), roll)
  {
    if servers != [] {
      RegisteredAreIn(servers[..|servers| - 1], roll);
    }
  }

  function RegisteredIn(servers: seq<Server>, roll: Roll): (ids: seq<Id>)
    ensures AllIn(ids, roll)
  {
    RegisteredAreIn(servers, roll);
    Registered(servers, roll)
  }

  /** The round as a function of what was found and of the quorums read along the way. */
  ghost function RoundOf(failed: FailedServers, roll: Roll, q: Quorums): Round
    requires NoNilEntry(failed, roll, q)
  {
    var first := Adjudicate(failed.staleNonVoters, roll, q.first);
    var roll1 := roll - ToSet(first);
    var second := Adjudicate(failed.staleVoters, roll1, q.second);
    var roll2 := roll1 - ToSet(second);
    var third := Adjudicate(RegisteredIn(failed.failedNonVoters, roll2), roll2, q.third);
    var roll3 := roll2 - ToSet(third);
    var fourth := Adjudicate(RegisteredIn(failed.failedVoters, roll3), roll3, q.fourth);
    Round(first, second, third, fourth)
  }

  /** types.go, getFailed: for each id, the listed servers that carry it. */
  function GetFailed(servers: seq<Server>, ids: seq<Id>): seq<Server> {
    if ids == [] then []
    else GetFailed(servers, ids[..|ids| - 1]) + Matching(servers, ids[|ids| - 1])
  }

  function Matching(servers: seq<Server>, id: Id): seq<Server> {
    if servers == [] then []
    else
      var last := servers[|servers| - 1];
      Matching(servers[..|servers| - 1], id) + if last.id == id then [last] else []
  }

  method GetFailedByIds(servers: seq<Server>, ids: seq<Id>) returns (result: seq<Server>)
    ensures result == GetFailed(servers, ids)
  {
    result := [];
    for i := 0 to |ids|
      invariant result == GetFailed(servers, ids[..i])
    {
      assert ids[..i + 1][..i] == ids[..i];
      var before := result;
      for j := 0 to |servers|
        invariant result == before + Matching(servers[..j], ids[i])
      {
        assert servers[..j + 1][..j] == servers[..j];
        if servers[j].id == ids[i] {
          result := result + [servers[j]];
        }
      }
      assert servers[..|servers|] == servers;
    }
    assert ids[..|ids|] == ids;
  }

  /** The calls made for the ids, one each and in order, whatever their outcomes. */
  ghost predicate RemovalsOf(ids: seq<Id>, calls: seq<Call>) {
    |calls| == |ids| && forall i :: 0 <= i < |ids| ==> calls[i].op == RemoveServer(ids[i])
  }

  /** removeStaleServers goes on after an error and reports it at the end. */
  method RemoveStaleServers(raft: Raft, toRemove: seq<Id>) returns (ok: bool, ghost calls: seq<Call>)
    modifies raft`servers, raft`calls
    ensures raft.calls == old(raft.calls) + calls
    ensures RemovalsOf(toRemove, calls) && ok == AllOk(calls)
    ensures raft.servers == ApplyCalls(old(raft.servers), calls)
  {
    ok, calls := true, [];
    ghost var calls0, servers0 := raft.calls, raft.servers;
    for i := 0 to |toRemove|
      invariant RemovalsOf(toRemove[..i], calls) && ok == AllOk(calls)
      invariant raft.calls == calls0 + calls && raft.servers == ApplyCalls(servers0, calls)
    {
      var removed := raft.Issue(RemoveServer(toRemove[i]));
      ghost var call := Call(RemoveServer(toRemove[i]), removed);
      ApplyCallsStep(servers0, calls, call);
      OneMoreRemoval(toRemove[..i], calls, call);
      assert toRemove[..i + 1] == toRemove[..i] + [toRemove[i]];
      assert (calls0 + calls) + [call] == calls0 + (calls + [call]);
      calls := calls + [call];
      if !removed {
        ok := false;
      }
    }
    assert toRemove[..|toRemove|] == toRemove;
  }

  lemma OneMoreRemoval(ids: seq<Id>, calls: seq<Call>, call: Call)
    requires RemovalsOf(ids, calls) && call.op.RemoveServer?
    ensures RemovalsOf(ids + [call.op.id], calls + [call])
    ensures AllOk(calls + [call]) == (AllOk(calls) && call.ok)
  {
    var more := calls + [call];
    assert forall i :: 0 <= i < |calls| ==> more[i] == calls[i];
    assert more[|calls|] == call;
  }

  method RemoveFailedServers(delegate: Delegate, toRemove: seq<Server>)
    modifies delegate`removed
    ensures delegate.removed == old(delegate.removed) + toRemove
  {
    for i := 0 to |toRemove|
      invariant delegate.removed == old(delegate.removed) + toRemove[..i]
    {
      delegate.RemoveFailedServer(toRemove[i]);
      assert toRemove[..i + 1] == toRemove[..i] + [toRemove[i]];
    }
    assert toRemove[..|toRemove|] == toRemove;
  }

  datatype PruneOutcome = Disabled | NoCleanup | RaftUnavailable | NilDereference | StaleRemovalFailed | Pruned

  /** The candidates of a round: what was found, after the promoter's filter. */
  ghost function Candidates(conf: Config, state: State, promoter: Promoter, raft: View, known: map<Id, Server>): FailedServers {
    promoter.filterRemovals(conf, state, Classify(raft, known))
  }

  /** One adjudication with the configuration read for it. */
  method Adjudicated(a: Autopilot, ids: seq<Id>, vr: VoterRegistry) returns (r: Removal, ghost conf: Option<Config>)
    requires vr.Valid()
    modifies a.delegate`configReads
    ensures a.delegate.configReads == old(a.delegate.configReads) + [conf]
    ensures r.NilEntry? <==> conf.None? || !AllIn(ids, vr.Contents())
    ensures r.Removal? ==> r.ids == Adjudicate(ids, vr.Contents(), conf.value.minQuorum)
  {
    var read := a.delegate.AutopilotConfig();
    conf := read;
    if read.None? {
      return NilEntry, conf;
    }
    r := AdjudicateRemoval(ids, vr, read.value.minQuorum);
  }

  datatype PhaseOutcome = PhaseNil | PhaseFailed | PhaseDone(removed: seq<Id>)

  /** What a stale phase asks of Raft, given the configuration read for it. */
  ghost predicate StalePhaseRan(r: PhaseOutcome, ids: seq<Id>, roll: Roll, conf: Option<Config>, calls: seq<Call>) {
    && (r.PhaseNil? <==> conf.None? || !AllIn(ids, roll))
    && (r.PhaseNil? ==> calls == [])
    && (!r.PhaseNil? ==>
          && RemovalsOf(Adjudicate(ids, roll, conf.value.minQuorum), calls)
          && (r.PhaseDone? <==> AllOk(calls)))
    && (r.PhaseDone? ==> r.removed == Adjudicate(ids, roll, conf.value.minQuorum))
  }

  /** Adjudicate, ask Raft to remove, and strike from the registry if every removal worked. */
  method StalePhase(a: Autopilot, ids: seq<Id>, vr: VoterRegistry)
    returns (r: PhaseOutcome, ghost conf: Option<Config>, ghost calls: seq<Call>)
    requires vr.Valid()
    modifies a.delegate`configReads, a.raft`servers, a.raft`calls, vr
    ensures vr.Valid()
    ensures a.delegate.configReads == old(a.delegate.configReads) + [conf]
    ensures a.raft.calls == old(a.raft.calls) + calls && a.raft.servers == ApplyCalls(old(a.raft.servers), calls)
    ensures StalePhaseRan(r, ids, old(vr.Contents()), conf, calls)
    ensures r.PhaseDone? ==> vr.Contents() == old(vr.Contents()) - ToSet(r.removed)
  {
    calls := [];
    ghost var roll := vr.Contents();
    var toRemove;
    toRemove, conf := Adjudicated(a, ids, vr);
    assert vr.Contents() == roll;
    if toRemove.NilEntry? {
      return PhaseNil, conf, calls;
    }
    var ok;
    ok, calls := RemoveStaleServers(a.raft, toRemove.ids);
    assert vr.Contents() == roll;
    if !ok {
      return PhaseFailed, conf, calls;
    }
    vr.Remove(toRemove.ids);
    r := PhaseDone(toRemove.ids);
  }

  /** Drop what is no longer registered and adjudicate the rest: no entry is missing then. */
  method AdjudicateRegistered(a: Autopilot, servers: seq<Server>, vr: VoterRegistry) returns (r: Removal, ghost conf: Option<Config>)
    requires vr.Valid()
    modifies a.delegate`configReads
    ensures a.delegate.configReads == old(a.delegate.configReads) + [conf]
    ensures r.NilEntry? <==> conf.None?
    ensures r.Removal? ==> r.ids == Adjudicate(RegisteredIn(servers, vr.Contents()), vr.Contents(), conf.value.minQuorum)
  {
    var ids := vr.Filter(servers);
    assert ids == RegisteredIn(servers, vr.Contents());
    r, conf := Adjudicated(a, ids, vr);
  }

  /** Drop what is no longer registered, adjudicate, and ask the application to remove. */
  method FailedPhase(a: Autopilot, servers: seq<Server>, vr: VoterRegistry)
    returns (r: PhaseOutcome, ghost conf: Option<Config>, ghost removed: seq<Server>)
    requires vr.Valid()
    modifies a.delegate`configReads, a.delegate`removed, vr
    ensures vr.Valid() && !r.PhaseFailed?
    ensures a.delegate.configReads == old(a.delegate.configReads) + [conf]
    ensures a.delegate.removed == old(a.delegate.removed) + removed
    ensures r.PhaseNil? <==> conf.None?
    ensures r.PhaseNil? ==> removed == []
    ensures r.PhaseDone? ==>
              var roll := old(vr.Contents());
              && r.removed == Adjudicate(RegisteredIn(servers, roll), roll, conf.value.minQuorum)
              && removed == GetFailed(servers, r.removed)
              && vr.Contents() == roll - ToSet(r.removed)
  {
    removed := [];
    ghost var roll := vr.Contents();
    var toRemove;
    toRemove, conf := AdjudicateRegistered(a, servers, vr);
    if toRemove.NilEntry? {
      return PhaseNil, conf, removed;
    }
    assert vr.Contents() == roll;
    removed := HandOver(a.delegate, servers, toRemove.ids, vr);
    r := PhaseDone(toRemove.ids);
  }

  /** The application is asked to remove the servers, and their entries are struck. */
  method HandOver(delegate: Delegate, servers: seq<Server>, ids: seq<Id>, vr: VoterRegistry) returns (ghost removed: seq<Server>)
    requires vr.Valid()
    modifies delegate`removed, vr
    ensures vr.Valid() && vr.Contents() == old(vr.Contents()) - ToSet(ids)
    ensures removed == GetFailed(servers, ids) && delegate.removed == old(delegate.removed) + removed
  {
    var doomed := GetFailedByIds(servers, ids);
    RemoveFailedServers(delegate, doomed);
    removed := doomed;
    vr.Remove(ids);
  }

  /** What a finished round has done. */
  ghost predicate Finished(round: Round, failed: FailedServers, calls: seq<Call>, removed: seq<Server>) {
    && RemovalsOf(round.staleNonVoters + round.staleVoters, calls) && AllOk(calls)
    && removed == GetFailed(failed.failedNonVoters, round.failedNonVoters) + GetFailed(failed.failedVoters, round.failedVoters)
  }

  ghost function QuorumsIn(confs: seq<Option<Config>>): Quorums
    requires |confs| == 4 && forall i :: 0 <= i < 4 ==> confs[i].Some?
  {
    Quorums(confs[0].value.minQuorum, confs[1].value.minQuorum, confs[2].value.minQuorum, confs[3].value.minQuorum)
  }

  /** A round stopped by a failing Raft call has asked for the first phase, or for the first two
      when the first went through. */
  ghost predicate StoppedInStalePhase(failed: FailedServers, roll: Roll, confs: seq<Option<Config>>, calls: seq<Call>) {
    && 1 <= |confs| <= 2 && (forall i :: 0 <= i < |confs| ==> confs[i].Some?)
    && AllIn(failed.staleNonVoters, roll)
    && var first := Adjudicate(failed.staleNonVoters, roll, confs[0].value.minQuorum);
       if |confs| == 1 then RemovalsOf(first, calls) && !AllOk(calls)
       else
         && AllIn(failed.staleVoters, roll - ToSet(first))
         && var second := Adjudicate(failed.staleVoters, roll - ToSet(first), confs[1].value.minQuorum);
            && RemovalsOf(first + second, calls) && AllOk(calls[..|first|]) && !AllOk(calls[|first|..])
  }

  /** The last configuration read was nil, or a stale id had no registry entry when it was looked up. */
  ghost predicate NilWasRead(failed: FailedServers, roll: Roll, confs: seq<Option<Config>>) {
    && 1 <= |confs| <= 4 && (forall i :: 0 <= i < |confs| - 1 ==> confs[i].Some?)
    && (|confs| > 1 ==> AllIn(failed.staleNonVoters, roll))
    && (confs[|confs| - 1].Some? ==>
          || (|confs| == 1 && !AllIn(failed.staleNonVoters, roll))
          || (|confs| == 2
              && !AllIn(failed.staleVoters, roll - ToSet(Adjudicate(failed.staleNonVoters, roll, confs[0].value.minQuorum)))))
  }

  /** What had been asked for when nil was dereferenced: the phases before, and nothing else. */
  ghost predicate AskedBeforeNil(failed: FailedServers, roll: Roll, confs: seq<Option<Config>>, calls: seq<Call>, removed: seq<Server>)
    requires NilWasRead(failed, roll, confs)
  {
    if |confs| == 1 then calls == [] && removed == []
    else
      var first := Adjudicate(failed.staleNonVoters, roll, confs[0].value.minQuorum);
      if |confs| == 2 then RemovalsOf(first, calls) && AllOk(calls) && removed == []
      else
        && AllIn(failed.staleVoters, roll - ToSet(first))
        && var second := Adjudicate(failed.staleVoters, roll - ToSet(first), confs[1].value.minQuorum);
           && RemovalsOf(first + second, calls) && AllOk(calls)
           && removed == if |confs| == 3 then []
                         else ThirdRemoved(failed, roll - ToSet(first) - ToSet(second), confs[2].value.minQuorum)
  }

  function ThirdRemoved(failed: FailedServers, roll: Roll, minQuorum: nat): seq<Server> {
    GetFailed(failed.failedNonVoters, Adjudicate(RegisteredIn(failed.failedNonVoters, roll), roll, minQuorum))
  }

  /** What the four phases ask for, given the configurations read for them and the outcome. */
  ghost predicate PhasesRan(r: PruneOutcome, failed: FailedServers, roll: Roll, confs: seq<Option<Config>>,
                            calls: seq<Call>, removed: seq<Server>) {
    match r
    case Pruned =>
      && |confs| == 4 && (forall i :: 0 <= i < 4 ==> confs[i].Some?)
      && NoNilEntry(failed, roll, QuorumsIn(confs))
      && Finished(RoundOf(failed, roll, QuorumsIn(confs)), failed, calls, removed)
    case StaleRemovalFailed => removed == [] && StoppedInStalePhase(failed, roll, confs, calls)
    case NilDereference =>
      NilWasRead(failed, roll, confs) && AskedBeforeNil(failed, roll, confs, calls, removed)
    case _ => false
  }

  /** What a call does once a configuration asks for it: `raft` and `known` are the views it starts from. */
  ghost predicate ConfiguredRan(r: PruneOutcome, conf: Config, state: State, promoter: Promoter, raft: View,
                                known: map<Id, Server>, confs: seq<Option<Config>>, calls: seq<Call>, removed: seq<Server>) {
    if r == RaftUnavailable then confs == [] && calls == [] && removed == []
    else PhasesRan(r, Candidates(conf, state, promoter, raft, known), RollOf(raft, known, promoter.isPotentialVoter), confs, calls, removed)
  }

  /** A whole call, early returns included. */
  ghost predicate PruneRan(r: PruneOutcome, enabled: bool, state: State, promoter: Promoter, raft: View,
                           known: map<Id, Server>, confs: seq<Option<Config>>, calls: seq<Call>, removed: seq<Server>) {
    && (r == Disabled <==> !enabled)
    && (r == Disabled ==> confs == [])
    && (r == NoCleanup ==> |confs| == 1 && (confs[0].None? || !confs[0].value.cleanupDeadServers))
    && (if r == Disabled || r == NoCleanup then calls == [] && removed == []
        else
          && |confs| >= 1 && confs[0].Some? && confs[0].value.cleanupDeadServers
          && ConfiguredRan(r, confs[0].value, state, promoter, raft, known, confs[1..], calls, removed))
  }

  /** Whether Raft was asked for its configuration, and whether it answered. */
  function AskedFor(r: PruneOutcome): seq<bool> {
    match r
    case Disabled => []
    case NoCleanup => []
    case RaftUnavailable => [false]
    case _ => [true]
  }

  lemma NothingPruned(state: State, promoter: Promoter, raft: View, known: map<Id, Server>, confs: seq<Option<Config>>)
    requires |confs| == 1 && (confs[0].None? || !confs[0].value.cleanupDeadServers)
    ensures PruneRan(NoCleanup, true, state, promoter, raft, known, confs, [], [])
  {
  }

  method PruneDeadServers(a: Autopilot)
    returns (r: PruneOutcome, ghost confs: seq<Option<Config>>, ghost calls: seq<Call>, ghost removed: seq<Server>)
    requires KeyedById(a.delegate.known)
    modifies a.delegate`configReads, a.delegate`removed, a.raft
    ensures a.delegate.configReads == old(a.delegate.configReads) + confs
    ensures a.raft.calls == old(a.raft.calls) + calls && a.raft.servers == ApplyCalls(old(a.raft.servers), calls)
    ensures a.delegate.removed == old(a.delegate.removed) + removed
    ensures a.raft.answers == old(a.raft.answers) + AskedFor(r)
    ensures PruneRan(r, a.reconciliationEnabled, a.state, a.promoter, RaftMap(old(a.raft.servers)), a.delegate.known,
                     confs, calls, removed)
  {
    confs, calls, removed := [], [], [];
    if !a.reconciliationEnabled {
      return Disabled, confs, calls, removed;
    }
    var conf := a.delegate.AutopilotConfig();
    confs := [conf];
    if conf.None? || !conf.value.cleanupDeadServers {
      NothingPruned(a.state, a.promoter, RaftMap(a.raft.servers), a.delegate.known, confs);
      return NoCleanup, confs, calls, removed;
    }
    ghost var more;
    r, more, calls, removed := PruneConfigured(a, conf.value);
    confs := [conf] + more;
    Joined(old(a.delegate.configReads), [conf], more);
    PrunedAfterReading(r, a.state, a.promoter, RaftMap(old(a.raft.servers)), a.delegate.known, conf, more, calls, removed);
  }

  lemma PrunedAfterReading(r: PruneOutcome, state: State, promoter: Promoter, raft: View, known: map<Id, Server>,
                           conf: Option<Config>, more: seq<Option<Config>>, calls: seq<Call>, removed: seq<Server>)
    requires conf.Some? && conf.value.cleanupDeadServers && r != Disabled && r != NoCleanup
    requires ConfiguredRan(r, conf.value, state, promoter, raft, known, more, calls, removed)
    ensures PruneRan(r, true, state, promoter, raft, known, [conf] + more, calls, removed)
  {
    var confs := [conf] + more;
    assert confs[0] == conf && confs[1..] == more;
  }

  /** The rest of pruneDeadServers, once a configuration asks for it. */
  method PruneConfigured(a: Autopilot, conf: Config)
    returns (r: PruneOutcome, ghost confs: seq<Option<Config>>, ghost calls: seq<Call>, ghost removed: seq<Server>)
    requires KeyedById(a.delegate.known)
    modifies a.delegate`configReads, a.delegate`removed, a.raft
    ensures a.delegate.configReads == old(a.delegate.configReads) + confs
    ensures a.raft.calls == old(a.raft.calls) + calls && a.raft.servers == ApplyCalls(old(a.raft.servers), calls)
    ensures a.delegate.removed == old(a.delegate.removed) + removed
    ensures r == RaftUnavailable || r == NilDereference || r == StaleRemovalFailed || r == Pruned
    ensures a.raft.answers == old(a.raft.answers) + AskedFor(r)
    ensures ConfiguredRan(r, conf, a.state, a.promoter, RaftMap(old(a.raft.servers)), a.delegate.known, confs, calls, removed)
  {
    confs, calls, removed := [], [], [];
    var state := a.state;
    var found, vr := GetFailedServers(a);
    if found.None? {
      r := RaftUnavailable;
      return;
    }
    var failed := a.promoter.filterRemovals(conf, state, found.value);
    r, confs, calls, removed := RunPhases(a, failed, vr);
  }

  /** The first two phases succeeded and asked for these. */
  ghost predicate StaleRan(failed: FailedServers, roll: Roll, confs: seq<Option<Config>>, calls: seq<Call>,
                           first: seq<Id>, second: seq<Id>) {
    && |confs| == 2 && confs[0].Some? && confs[1].Some?
    && AllIn(failed.staleNonVoters, roll)
    && first == Adjudicate(failed.staleNonVoters, roll, confs[0].value.minQuorum)
    && AllIn(failed.staleVoters, roll - ToSet(first))
    && second == Adjudicate(failed.staleVoters, roll - ToSet(first), confs[1].value.minQuorum)
    && RemovalsOf(first + second, calls) && AllOk(calls)
  }

  method RunStalePhases(a: Autopilot, failed: FailedServers, vr: VoterRegistry)
    returns (r: PruneOutcome, ghost first: seq<Id>, ghost second: seq<Id>,
             ghost confs: seq<Option<Config>>, ghost calls: seq<Call>)
    requires vr.Valid()
    modifies a.delegate`configReads, a.raft`servers, a.raft`calls, vr
    ensures vr.Valid()
    ensures r == NilDereference || r == StaleRemovalFailed || r == Pruned
    ensures a.delegate.configReads == old(a.delegate.configReads) + confs
    ensures a.raft.calls == old(a.raft.calls) + calls && a.raft.servers == ApplyCalls(old(a.raft.servers), calls)
    ensures var roll := old(vr.Contents());
            && (r != Pruned ==> PhasesRan(r, failed, roll, confs, calls, []))
            && (r == Pruned ==> StaleRan(failed, roll, confs, calls, first, second)
                                && vr.Contents() == roll - ToSet(first) - ToSet(second))
  {
    ghost var roll := vr.Contents();
    ghost var conf1, conf2, calls2;
    first, second := [], [];
    var phase;
    phase, conf1, calls := StalePhase(a, failed.staleNonVoters, vr);
    confs := [conf1];
    if !phase.PhaseDone? {
      StoppedFirst(phase, failed, roll, conf1, calls);
      r := Stopped(phase);
      return;
    }
    first := phase.removed;
    ghost var calls1 := calls;
    phase, conf2, calls2 := StalePhase(a, failed.staleVoters, vr);
    confs, calls := [conf1, conf2], calls1 + calls2;
    Appended(old(a.delegate.configReads), conf1, conf2);
    Joined(old(a.raft.calls), calls1, calls2);
    ApplyCallsConcat(old(a.raft.servers), calls1, calls2);
    BothRemoved(first, calls1, calls2);
    if !phase.PhaseDone? {
      StoppedSecond(phase, failed, roll, conf1, conf2, calls1, calls2, first);
      r := Stopped(phase);
      return;
    }
    second := phase.removed;
    r := Pruned;
  }

  function Stopped(phase: PhaseOutcome): PruneOutcome {
    if phase.PhaseNil? then NilDereference else StaleRemovalFailed
  }

  lemma StoppedFirst(r: PhaseOutcome, failed: FailedServers, roll: Roll, conf: Option<Config>, calls: seq<Call>)
    requires StalePhaseRan(r, failed.staleNonVoters, roll, conf, calls) && !r.PhaseDone?
    ensures PhasesRan(Stopped(r), failed, roll, [conf], calls, [])
  {
    assert [conf][0] == conf;
  }

  lemma BothRemoved(first: seq<Id>, calls1: seq<Call>, calls2: seq<Call>)
    requires RemovalsOf(first, calls1) && AllOk(calls1)
    ensures (calls1 + calls2)[..|first|] == calls1 && (calls1 + calls2)[|first|..] == calls2
    ensures forall second :: RemovalsOf(second, calls2) ==> RemovalsOf(first + second, calls1 + calls2)
    ensures AllOk(calls2) ==> AllOk(calls1 + calls2)
    ensures calls2 == [] ==> calls1 + calls2 == calls1
  {
  }

  lemma StoppedSecond(r: PhaseOutcome, failed: FailedServers, roll: Roll, conf1: Option<Config>, conf2: Option<Config>,
                      calls1: seq<Call>, calls2: seq<Call>, first: seq<Id>)
    requires StalePhaseRan(PhaseDone(first), failed.staleNonVoters, roll, conf1, calls1)
    requires StalePhaseRan(r, failed.staleVoters, roll - ToSet(first), conf2, calls2) && !r.PhaseDone?
    ensures PhasesRan(Stopped(r), failed, roll, [conf1, conf2], calls1 + calls2, [])
  {
    BothRemoved(first, calls1, calls2);
    var confs := [conf1, conf2];
    assert confs[0] == conf1 && confs[1] == conf2;
  }

  /** The last two phases ran and asked for these. */
  ghost predicate FailedRan(failed: FailedServers, roll: Roll, confs: seq<Option<Config>>, removed: seq<Server>,
                            third: seq<Id>, fourth: seq<Id>) {
    && |confs| == 2 && confs[0].Some? && confs[1].Some?
    && third == Adjudicate(RegisteredIn(failed.failedNonVoters, roll), roll, confs[0].value.minQuorum)
    && var roll3 := roll - ToSet(third);
       && fourth == Adjudicate(RegisteredIn(failed.failedVoters, roll3), roll3, confs[1].value.minQuorum)
       && removed == GetFailed(failed.failedNonVoters, third) + GetFailed(failed.failedVoters, fourth)
  }

  /** One of the last two phases read a nil configuration. */
  ghost predicate NilInFailed(failed: FailedServers, roll: Roll, confs: seq<Option<Config>>, removed: seq<Server>) {
    && 1 <= |confs| <= 2 && confs[|confs| - 1].None? && (forall i :: 0 <= i < |confs| - 1 ==> confs[i].Some?)
    && removed == if |confs| == 1 then [] else ThirdRemoved(failed, roll, confs[0].value.minQuorum)
  }

  lemma Joined<T>(xs: seq<T>, ys: seq<T>, zs: seq<T>)
    ensures (xs + ys) + zs == xs + (ys + zs)
  {
  }

  lemma Appended<T>(xs: seq<T>, y: T, z: T)
    ensures (xs + [y]) + [z] == xs + [y, z]
  {
  }

  method RunFailedPhases(a: Autopilot, failed: FailedServers, vr: VoterRegistry)
    returns (r: PruneOutcome, ghost third: seq<Id>, ghost fourth: seq<Id>,
             ghost confs: seq<Option<Config>>, ghost removed: seq<Server>)
    requires vr.Valid()
    modifies a.delegate`configReads, a.delegate`removed, vr
    ensures r == NilDereference || r == Pruned
    ensures a.delegate.configReads == old(a.delegate.configReads) + confs
    ensures a.delegate.removed == old(a.delegate.removed) + removed
    ensures r == NilDereference ==> NilInFailed(failed, old(vr.Contents()), confs, removed)
    ensures r == Pruned ==> FailedRan(failed, old(vr.Contents()), confs, removed, third, fourth)
  {
    ghost var conf1, conf2, removed1, removed2;
    third, fourth := [], [];
    var phase;
    phase, conf1, removed1 := FailedPhase(a, failed.failedNonVoters, vr);
    if phase.PhaseNil? {
      confs, removed := [conf1], removed1;
      assert confs[0].None?;
      return NilDereference, third, fourth, confs, removed;
    }
    third := phase.removed;
    phase, conf2, removed2 := FailedPhase(a, failed.failedVoters, vr);
    confs, removed := [conf1, conf2], removed1 + removed2;
    Appended(old(a.delegate.configReads), conf1, conf2);
    Joined(old(a.delegate.removed), removed1, removed2);
    if phase.PhaseNil? {
      assert confs[1].None?;
      return NilDereference, third, fourth, confs, removed;
    }
    fourth := phase.removed;
    r := Pruned;
  }

  lemma AllPhasesRan(failed: FailedServers, roll: Roll, confs1: seq<Option<Config>>, confs2: seq<Option<Config>>,
                     calls: seq<Call>, removed: seq<Server>,
                     first: seq<Id>, second: seq<Id>, third: seq<Id>, fourth: seq<Id>)
    requires StaleRan(failed, roll, confs1, calls, first, second)
    requires FailedRan(failed, roll - ToSet(first) - ToSet(second), confs2, removed, third, fourth)
    ensures PhasesRan(Pruned, failed, roll, confs1 + confs2, calls, removed)
  {
    var confs := confs1 + confs2;
    assert confs[2] == confs2[0] && confs[3] == confs2[1];
    assert RoundOf(failed, roll, QuorumsIn(confs)) == Round(first, second, third, fourth);
  }

  lemma NilAfterStale(failed: FailedServers, roll: Roll, confs1: seq<Option<Config>>, confs2: seq<Option<Config>>,
                      calls: seq<Call>, removed: seq<Server>, first: seq<Id>, second: seq<Id>)
    requires StaleRan(failed, roll, confs1, calls, first, second)
    requires NilInFailed(failed, roll - ToSet(first) - ToSet(second), confs2, removed)
    ensures PhasesRan(NilDereference, failed, roll, confs1 + confs2, calls, removed)
  {
    var confs := confs1 + confs2;
    assert confs[0] == confs1[0] && confs[1] == confs1[1] && confs[2] == confs2[0];
  }

  /** The four phases, in order of increasing precedence. */
  method RunPhases(a: Autopilot, failed: FailedServers, vr: VoterRegistry)
    returns (r: PruneOutcome, ghost confs: seq<Option<Config>>, ghost calls: seq<Call>, ghost removed: seq<Server>)
    requires vr.Valid()
    modifies a.delegate`configReads, a.delegate`removed, a.raft`servers, a.raft`calls, vr
    ensures r == NilDereference || r == StaleRemovalFailed || r == Pruned
    ensures a.delegate.configReads == old(a.delegate.configReads) + confs
    ensures a.raft.calls == old(a.raft.calls) + calls && a.raft.servers == ApplyCalls(old(a.raft.servers), calls)
    ensures a.delegate.removed == old(a.delegate.removed) + removed
    ensures PhasesRan(r, failed, old(vr.Contents()), confs, calls, removed)
  {
    ghost var roll := vr.Contents();
    ghost var first, second, third, fourth, confs2;
    removed := [];
    r, first, second, confs, calls := RunStalePhases(a, failed, vr);
    if r != Pruned {
      return;
    }
    ghost var confs1 := confs;
    r, third, fourth, confs2, removed := RunFailedPhases(a, failed, vr);
    confs := confs1 + confs2;
    Joined(old(a.delegate.configReads), confs1, confs2);
    if r == Pruned {
      AllPhasesRan(failed, roll, confs1, confs2, calls, removed, first, second, third, fourth);
    } else {
      NilAfterStale(failed, roll, confs1, confs2, calls, removed, first, second);
    }
  }
}
