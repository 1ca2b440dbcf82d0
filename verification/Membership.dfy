/** raft.go: adding and removing servers. */
module Membership {
  import opened Ids
  import opened Sorting
  import opened Types
  import opened RaftCluster
  import opened Core

  function RequiredQuorum(voters: int): int {
    TruncatedDiv(voters, 2) + 1
  }

  function VoterEntries(config: Configuration): nat {
    if config == [] then 0
    else
      VoterEntries(config[..|config| - 1]) + if config[|config| - 1].suffrage == Voter then 1 else 0
  }

  lemma {:induction false} VoterEntriesAreVoters(config: Configuration)
    requires UniqueIds(config)
    ensures VoterEntries(config) == |VoterIds(config)|
  {
    if config != [] {
      var rest, last := config[..|config| - 1], config[|config| - 1];
      VoterEntriesAreVoters(rest);
      assert config == rest + [last];
      assert forall i :: 0 <= i < |rest| ==> rest[i] == config[i];
      AppendVoters(rest, last);
      assert last.id !in VoterIds(rest);
    }
  }

  /** NumVoters: the voters of a freshly read configuration. */
  method NumVoters(a: Autopilot) returns (n: Option<nat>)
    requires UniqueIds(a.raft.servers)
    modifies a.raft`answers
    ensures a.raft.answers == old(a.raft.answers) + [n.Some?]
    ensures n.Some? ==> n.value == |VoterIds(a.raft.servers)|
  {
    var config := a.raft.GetConfiguration();
    if config.None? {
      return None;
    }
    var count := 0;
    for i := 0 to |config.value|
      invariant count == VoterEntries(config.value[..i])
    {
      assert config.value[..i + 1][..i] == config.value[..i];
      if config.value[i].suffrage == Voter {
        count := count + 1;
      }
    }
    assert config.value[..|config.value|] == config.value;
    VoterEntriesAreVoters(config.value);
    n := Some(count);
  }

  /** The ids, in order, of the other servers that hold the address, voters or the rest. */
  function Holders(config: Configuration, s: Server, voters: bool): seq<Id> {
    if config == [] then []
    else
      var last := config[|config| - 1];
      var before := Holders(config[..|config| - 1], s, voters);
      if last.id != s.id && last.address == s.address && (last.suffrage == Voter) == voters
      then before + [last.id] else before
  }

  lemma {:induction false} HoldersMembers(config: Configuration, s: Server, voters: bool, id: Id)
    ensures id in Holders(config, s, voters) <==>
            exists e :: e in config && e.id == id && id != s.id && e.address == s.address && (e.suffrage == Voter) == voters
  {
    if config != [] {
      var rest, last := config[..|config| - 1], config[|config| - 1];
      assert config == rest + [last];
      HoldersMembers(rest, s, voters, id);
    }
  }

  predicate HasPair(config: Configuration, s: Server) {
    exists i :: 0 <= i < |config| && config[i].id == s.id && config[i].address == s.address
  }

  predicate ExistingVoter(config: Configuration, s: Server) {
    exists i :: 0 <= i < |config| && config[i].id == s.id && (config[i].suffrage == Voter || config[i].suffrage == Staging)
  }

  function Removals(ids: seq<Id>): (ops: seq<Op>)
    ensures |ops| == |ids|
    ensures forall i :: 0 <= i < |ids| ==> ops[i] == RemoveServer(ids[i])
  {
    seq(|ids|, i requires 0 <= i < |ids| => RemoveServer(ids[i]))
  }

  function Additions(s: Server, voterRemovals: seq<Id>, nonVoterRemovals: seq<Id>, existingVoter: bool): seq<Op> {
    Removals(voterRemovals) + Removals(nonVoterRemovals) +
    [if existingVoter then AddVoter(s.id, s.address) else AddNonvoter(s.id, s.address)]
  }

  function AddPlan(config: Configuration, s: Server): seq<Op> {
    Additions(s, Holders(config, s, true), Holders(config, s, false), ExistingVoter(config, s))
  }

  /** Too many of the voters would have to go. */
  predicate Refuses(config: Configuration, s: Server) {
    |Holders(config, s, true)| > VoterEntries(config) - RequiredQuorum(VoterEntries(config))
  }

  datatype AddOutcome = ConfigUnavailable | AlreadyPresent | Refused | CallFailed | Added

  method AddServer(a: Autopilot, s: Server) returns (r: AddOutcome, ghost calls: seq<Call>)
    modifies a`removeDeadPending, a.raft
    ensures a.raft.calls == old(a.raft.calls) + calls
    ensures a.raft.servers == ApplyCalls(old(a.raft.servers), calls)
    ensures a.raft.answers == old(a.raft.answers) + [r != ConfigUnavailable]
    ensures AddedAs(r, old(a.raft.servers), s, calls)
    ensures a.removeDeadPending == (old(a.removeDeadPending) || r == Added)
  {
    calls := [];
    var config := a.raft.GetConfiguration();
    if config.None? {
      return ConfigUnavailable, calls;
    }
    var numVoters, voterRemovals, nonVoterRemovals, existingVoter, present := ScanConfiguration(config.value, s);
    if present {
      return AlreadyPresent, calls;
    }
    var requiredVoters := RequiredQuorum(numVoters);
    if |voterRemovals| > numVoters - requiredVoters {
      return Refused, calls;
    }
    var ok;
    ok, calls := IssueAddition(a.raft, s, voterRemovals, nonVoterRemovals, existingVoter);
    if !ok {
      return CallFailed, calls;
    }
    a.RemoveDeadServers();
    r := Added;
  }

  /** What AddServer's answers mean: a refusal, like an unreadable configuration or a pair that is
      there already, issues nothing; otherwise the plan is issued up to its first failure. */
  ghost predicate AddedAs(r: AddOutcome, config: Configuration, s: Server, calls: seq<Call>) {
    && (r == ConfigUnavailable || r == AlreadyPresent || r == Refused ==> calls == [])
    && (r != ConfigUnavailable ==> (r == AlreadyPresent <==> HasPair(config, s)))
    && (r != ConfigUnavailable && r != AlreadyPresent ==> (r == Refused <==> Refuses(config, s)))
    && (r == CallFailed || r == Added ==>
          FollowsUntilFailure(AddPlan(config, s), calls) && (r == Added <==> AllOk(calls)))
  }

  /** The loop over the configuration, which stops at once when the pair is there. */
  method ScanConfiguration(config: Configuration, s: Server)
    returns (numVoters: nat, voterRemovals: seq<Id>, nonVoterRemovals: seq<Id>, existingVoter: bool, present: bool)
    ensures present == HasPair(config, s)
    ensures !present ==>
              && numVoters == VoterEntries(config) && existingVoter == ExistingVoter(config, s)
              && voterRemovals == Holders(config, s, true) && nonVoterRemovals == Holders(config, s, false)
  {
    numVoters, voterRemovals, nonVoterRemovals, existingVoter, present := 0, [], [], false, false;
    for i := 0 to |config|
      invariant !present && !HasPair(config[..i], s)
      invariant numVoters == VoterEntries(config[..i]) && existingVoter == ExistingVoter(config[..i], s)
      invariant voterRemovals == Holders(config[..i], s, true) && nonVoterRemovals == Holders(config[..i], s, false)
    {
      var server := config[i];
      assert config[..i + 1][..i] == config[..i];
      assert config[..i + 1] == config[..i] + [server];
      if server.suffrage == Voter {
        numVoters := numVoters + 1;
      }
      if server.address == s.address && server.id == s.id {
        present := true;
        return;
      } else if server.id == s.id {
        if server.suffrage == Voter || server.suffrage == Staging {
          existingVoter := true;
        }
      } else if server.address == s.address {
        if server.suffrage == Voter {
          voterRemovals := voterRemovals + [server.id];
        } else {
          nonVoterRemovals := nonVoterRemovals + [server.id];
        }
      }
    }
    assert config[..|config|] == config;
  }

  /** The calls of an addition that was not refused. */
  method IssueAddition(raft: Raft, s: Server, voterRemovals: seq<Id>, nonVoterRemovals: seq<Id>, existingVoter: bool)
    returns (ok: bool, ghost calls: seq<Call>)
    modifies raft`servers, raft`calls
    ensures raft.calls == old(raft.calls) + calls
    ensures raft.servers == ApplyCalls(old(raft.servers), calls)
    ensures FollowsUntilFailure(Additions(s, voterRemovals, nonVoterRemovals, existingVoter), calls)
    ensures ok == AllOk(calls)
  {
    ghost var first, rest := Removals(voterRemovals), Additions(s, [], nonVoterRemovals, existingVoter);
    assert Additions(s, voterRemovals, nonVoterRemovals, existingVoter) == first + rest;
    ok, calls := RemoveInTurn(raft, voterRemovals);
    if !ok {
      FailedPlan(first, rest, calls);
      return;
    }
    ghost var opening, more := calls, [];
    ok, more := RemoveRestAndAdd(raft, s, nonVoterRemovals, existingVoter);
    calls := opening + more;
    RanBoth(old(raft.servers), old(raft.calls), first, rest, opening, more, calls);
  }

  method RemoveRestAndAdd(raft: Raft, s: Server, nonVoterRemovals: seq<Id>, existingVoter: bool)
    returns (ok: bool, ghost calls: seq<Call>)
    modifies raft`servers, raft`calls
    ensures raft.calls == old(raft.calls) + calls
    ensures raft.servers == ApplyCalls(old(raft.servers), calls)
    ensures FollowsUntilFailure(Additions(s, [], nonVoterRemovals, existingVoter), calls)
    ensures ok == AllOk(calls)
  {
    ghost var last := if existingVoter then AddVoter(s.id, s.address) else AddNonvoter(s.id, s.address);
    ghost var first := Removals(nonVoterRemovals);
    assert Additions(s, [], nonVoterRemovals, existingVoter) == first + [last];
    ok, calls := RemoveInTurn(raft, nonVoterRemovals);
    if !ok {
      FailedPlan(first, [last], calls);
      return;
    }
    if existingVoter {
      ok := raft.Issue(AddVoter(s.id, s.address));
    } else {
      ok := raft.Issue(AddNonvoter(s.id, s.address));
    }
    ghost var end := [Call(last, ok)];
    OneCall(ApplyCalls(old(raft.servers), calls), Call(last, ok));
    RanBoth(old(raft.servers), old(raft.calls), first, [last], calls, end, calls + end);
    calls := calls + end;
  }

  lemma OneCall(config: Configuration, call: Call)
    ensures FollowsUntilFailure([call.op], [call]) && AllOk([call]) == call.ok
    ensures ApplyCalls(config, [call]) == if call.ok then Apply(config, call.op) else config
  {
    ApplyCallsStep(config, [], call);
    assert [] + [call] == [call] && [call][0] == call;
  }

  /** Removes the servers one by one and gives up at the first failure. */
  method RemoveInTurn(raft: Raft, ids: seq<Id>) returns (ok: bool, ghost calls: seq<Call>)
    modifies raft`servers, raft`calls
    ensures raft.calls == old(raft.calls) + calls
    ensures raft.servers == ApplyCalls(old(raft.servers), calls)
    ensures FollowsUntilFailure(Removals(ids), calls)
    ensures ok == AllOk(calls)
  {
    calls := [];
    ghost var calls0, servers0 := raft.calls, raft.servers;
    for i := 0 to |ids|
      invariant raft.calls == calls0 + calls && raft.servers == ApplyCalls(servers0, calls)
      invariant AllOk(calls) && Issued(Removals(ids[..i]), calls)
    {
      assert Removals(ids[..i + 1]) == Removals(ids[..i]) + [RemoveServer(ids[i])];
      assert Removals(ids[..i + 1]) <= Removals(ids);
      ok, calls := IssueNext(raft, RemoveServer(ids[i]), servers0, calls0, Removals(ids[..i]), calls);
      if !ok {
        StoppedAtFailure(Removals(ids[..i + 1]), Removals(ids), calls);
        return;
      }
    }
    assert ids[..|ids|] == ids;
    ok := true;
  }

  datatype RemovalOutcome = Unavailable | NotThere | RemovalFailed | Removed

  /** RemoveServer: a server of the current configuration is asked to be removed, once; for any other
      there is nothing to do. */
  method RemoveKnownServer(a: Autopilot, id: Id) returns (r: RemovalOutcome)
    modifies a.raft
    ensures a.raft.answers == old(a.raft.answers) + [r != Unavailable]
    ensures r != Unavailable ==> (r == NotThere <==> !HasId(old(a.raft.servers), id))
    ensures a.raft.calls == old(a.raft.calls) +
            if r == Unavailable || r == NotThere then [] else [Call(RemoveServer(id), r == Removed)]
    ensures a.raft.servers == if r == Removed then Without(old(a.raft.servers), {id}) else old(a.raft.servers)
  {
    var config := a.raft.GetConfiguration();
    if config.None? {
      return Unavailable;
    }
    for i := 0 to |config.value|
      invariant forall j :: 0 <= j < i ==> config.value[j].id != id
      invariant a.raft.calls == old(a.raft.calls) && a.raft.servers == old(a.raft.servers)
      invariant a.raft.answers == old(a.raft.answers) + [true]
    {
      if config.value[i].id == id {
        var ok := a.raft.Issue(RemoveServer(id));
        r := if ok then Removed else RemovalFailed;
        return;
      }
    }
    r := NotThere;
  }

  // What AddServer guarantees, for every configuration and every pattern of failures.

  lemma {:induction false} VotersLost(config: Configuration, s: Server, calls: seq<Call>)
    requires UniqueIds(config)
    requires |calls| <= |AddPlan(config, s)|
    requires forall i :: 0 <= i < |calls| ==> calls[i].op == AddPlan(config, s)[i]
    ensures UniqueIds(ApplyCalls(config, calls))
    ensures VoterIds(config) - ToSet(Holders(config, s, true)) <= VoterIds(ApplyCalls(config, calls))
  {
    if calls != [] {
      var n := |calls| - 1;
      VotersLost(config, s, calls[..n]);
      VotersAfter(ApplyCalls(config, calls[..n]), calls[n].op);
      PlannedOp(config, s, n);
    }
  }

  lemma {:induction false} PlannedOp(config: Configuration, s: Server, n: nat)
    requires UniqueIds(config) && n < |AddPlan(config, s)|
    ensures var op := AddPlan(config, s)[n];
            && (op.RemoveServer? || op.AddVoter? || op.AddNonvoter?)
            && (op.RemoveServer? && op.id in VoterIds(config) ==> op.id in ToSet(Holders(config, s, true)))
  {
    var v, w := Holders(config, s, true), Holders(config, s, false);
    if |v| <= n < |v| + |w| {
      NotBoth(config, s, w[n - |v|]);
    } else if n < |v| {
      assert v[n] in ToSet(v);
    }
  }

  lemma NotBoth(config: Configuration, s: Server, id: Id)
    requires UniqueIds(config) && id in Holders(config, s, false)
    ensures id !in VoterIds(config)
  {
    HoldersMembers(config, s, false, id);
    var e :| e in config && e.id == id && e.suffrage != Voter;
    forall f | f in config && f.id == id ensures f == e {
    }
  }

  lemma {:induction false} SetOfSeqIsSmall<T>(xs: seq<T>)
    ensures |ToSet(xs)| <= |xs|
  {
    if xs != [] {
      SetOfSeqIsSmall(xs[1..]);
      assert ToSet(xs) == ToSet(xs[1..]) + {xs[0]};
    }
  }

  lemma DifferenceSize<T>(a: set<T>, b: set<T>)
    ensures |a - b| >= |a| - |b|
  {
    assert a == (a - b) + (a * b);
    assert a * b <= b;
    SubsetSize(a * b, b);
  }

  lemma SubsetSize<T>(a: set<T>, b: set<T>)
    requires a <= b
    ensures |a| <= |b|
  {
    assert b == a + (b - a);
  }

  /** Unless AddServer refuses, a quorum of the original voters is left after every call it makes,
      also when a removal fails and the sequence is cut short. */
  lemma AddServerKeepsQuorum(config: Configuration, s: Server, calls: seq<Call>, k: nat)
    requires UniqueIds(config) && !Refuses(config, s)
    requires FollowsUntilFailure(AddPlan(config, s), calls) && k <= |calls|
    ensures |VoterIds(ApplyCalls(config, calls[..k])) * VoterIds(config)| >= RequiredQuorum(|VoterIds(config)|)
  {
    VoterEntriesAreVoters(config);
    VotersLost(config, s, calls[..k]);
    var kept := VoterIds(config) - ToSet(Holders(config, s, true));
    SetOfSeqIsSmall(Holders(config, s, true));
    DifferenceSize(VoterIds(config), ToSet(Holders(config, s, true)));
    SubsetSize(kept, VoterIds(ApplyCalls(config, calls[..k])) * VoterIds(config));
  }

  /** With no voters at all every addition that is not already in place is refused. */
  lemma NoVotersRefuses(config: Configuration, s: Server)
    requires UniqueIds(config) && VoterIds(config) == {}
    ensures Refuses(config, s)
  {
    VoterEntriesAreVoters(config);
  }

  lemma {:induction false} RemovalsEffect(config: Configuration, calls: seq<Call>)
    requires AllOk(calls) && forall c :: c in calls ==> c.op.RemoveServer?
    ensures forall e :: e in ApplyCalls(config, calls) <==> e in config && RemoveServer(e.id) !in OpsOf(calls)
  {
    if calls != [] {
      var n := |calls| - 1;
      RemovalsEffect(config, calls[..n]);
      assert calls == calls[..n] + [calls[n]];
      assert OpsOf(calls) == OpsOf(calls[..n]) + {calls[n].op};
    }
  }

  function OpsOf(calls: seq<Call>): set<Op> {
    set c | c in calls :: c.op
  }

  /** A completed AddServer: the pair is there, nobody else holds the address, and a server that was
      a voter (or staging to become one) is a voter. */
  lemma AddServerEffect(config: Configuration, s: Server, calls: seq<Call>)
    requires UniqueIds(config) && !HasPair(config, s)
    requires FollowsUntilFailure(AddPlan(config, s), calls) && AllOk(calls)
    ensures var after := ApplyCalls(config, calls);
            && UniqueIds(after)
            && HasPair(after, s)
            && (forall e :: e in after && e.address == s.address ==> e.id == s.id)
            && (ExistingVoter(config, s) ==> s.id in VoterIds(after))
            && (forall e :: e in config && e.address != s.address && e.id != s.id ==> e in after)
  {
    var n := |calls| - 1;
    var plan := AddPlan(config, s);
    assert |calls| == |plan|;
    var cleared := ApplyCalls(config, calls[..n]);
    forall c | c in calls[..n] ensures c.op.RemoveServer? {
      var i :| 0 <= i < n && calls[i] == c;
    }
    RemovalsEffect(config, calls[..n]);
    VotersLost(config, s, calls[..n]);
    VotersAfter(cleared, calls[n].op);
    AddressIsFree(config, s, calls[..n]);
    AdditionEffect(cleared, s, plan[n]);
  }

  lemma AdditionEffect(config: Configuration, s: Server, op: Op)
    requires op == AddVoter(s.id, s.address) || op == AddNonvoter(s.id, s.address)
    requires forall e :: e in config && e.address == s.address ==> e.id == s.id
    ensures HasPair(Apply(config, op), s)
    ensures forall e :: e in Apply(config, op) && e.address == s.address ==> e.id == s.id
    ensures forall e :: e in config && e.id != s.id ==> e in Apply(config, op)
  {
    var after := Apply(config, op);
    if HasId(config, s.id) {
      var i :| 0 <= i < |config| && config[i].id == s.id;
      assert after[i].id == s.id && after[i].address == s.address;
    } else {
      assert after[|config|].id == s.id && after[|config|].address == s.address;
    }
    forall e | e in after && e.address == s.address ensures e.id == s.id {
      var i :| 0 <= i < |after| && after[i] == e;
      if i < |config| { assert config[i] in config; }
    }
    forall e | e in config && e.id != s.id ensures e in after {
      var i :| 0 <= i < |config| && config[i] == e;
      assert after[i] == e;
    }
  }

  lemma AddressIsFree(config: Configuration, s: Server, calls: seq<Call>)
    requires UniqueIds(config)
    requires |calls| == |AddPlan(config, s)| - 1 && AllOk(calls)
    requires forall i :: 0 <= i < |calls| ==> calls[i].op == AddPlan(config, s)[i]
    ensures forall e :: e in ApplyCalls(config, calls) && e.address == s.address ==> e.id == s.id
    ensures forall e :: e in config && (e.address != s.address || e.id == s.id) ==> e in ApplyCalls(config, calls)
  {
    forall c | c in calls ensures c.op.RemoveServer? && (c.op.id in Holders(config, s, true) || c.op.id in Holders(config, s, false)) {
      var i :| 0 <= i < |calls| && calls[i] == c;
      PlannedRemoval(config, s, i);
    }
    RemovalsEffect(config, calls);
    forall e | e in config
      ensures RemoveServer(e.id) in OpsOf(calls) <==> (e.address == s.address && e.id != s.id)
    {
      HoldersMembers(config, s, true, e.id);
      HoldersMembers(config, s, false, e.id);
      if e.address == s.address && e.id != s.id {
        HolderIsRemoved(config, s, calls, e);
      }
    }
  }

  lemma PlannedRemoval(config: Configuration, s: Server, i: nat)
    requires i < |AddPlan(config, s)| - 1
    ensures var op := AddPlan(config, s)[i];
            op.RemoveServer? && (op.id in Holders(config, s, true) || op.id in Holders(config, s, false))
  {
    var v, w := Holders(config, s, true), Holders(config, s, false);
    if i < |v| {
      assert v[i] in v;
    } else {
      assert w[i - |v|] in w;
    }
  }

  lemma HolderIsRemoved(config: Configuration, s: Server, calls: seq<Call>, e: RaftServer)
    requires e in config && e.address == s.address && e.id != s.id
    requires |calls| == |AddPlan(config, s)| - 1
    requires forall i :: 0 <= i < |calls| ==> calls[i].op == AddPlan(config, s)[i]
    ensures RemoveServer(e.id) in OpsOf(calls)
  {
    var v, w := Holders(config, s, true), Holders(config, s, false);
    HoldersMembers(config, s, true, e.id);
    HoldersMembers(config, s, false, e.id);
    if e.suffrage == Voter {
      var i :| 0 <= i < |v| && v[i] == e.id;
      assert calls[i].op == RemoveServer(e.id);
    } else {
      var i :| 0 <= i < |w| && w[i] == e.id;
      assert calls[|v| + i].op == RemoveServer(e.id);
    }
  }
}
