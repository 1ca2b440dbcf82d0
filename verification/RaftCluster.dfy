/** The Raft library as autopilot sees it: a configuration changed by calls, each of which either
    has its whole effect or fails and changes nothing. */
module RaftCluster {
  import opened Ids
  import opened Types

  datatype Op =
    | AddVoter(id: Id, address: Address)
    | AddNonvoter(id: Id, address: Address)
    | DemoteVoter(id: Id)
    | RemoveServer(id: Id)
    | LeadershipTransfer(id: Id, address: Address)

  datatype Call = Call(op: Op, ok: bool)

  predicate HasId(config: Configuration, id: Id) {
    exists i :: 0 <= i < |config| && config[i].id == id
  }

  ghost predicate UniqueIds(config: Configuration) {
    forall i, j :: 0 <= i < j < |config| ==> config[i].id != config[j].id
  }

  function ServerIds(config: Configuration): set<Id> {
    set s | s in config :: s.id
  }

  function VoterIds(config: Configuration): set<Id> {
    set s | s in config && s.suffrage == Voter :: s.id
  }

  function Edited(s: RaftServer, address: Option<Address>, suffrage: Option<Suffrage>): RaftServer {
    RaftServer(
      s.id,
      if address.Some? then address.value else s.address,
      if suffrage.Some? then suffrage.value else s.suffrage)
  }

  /** The entry of the id gets the given address and suffrage; the others stay. */
  function Change(config: Configuration, id: Id, address: Option<Address>, suffrage: Option<Suffrage>): (r: Configuration)
    ensures |r| == |config|
    ensures forall i :: 0 <= i < |config| ==>
                          r[i] == if config[i].id == id then Edited(config[i], address, suffrage) else config[i]
  {
    seq(|config|, i requires 0 <= i < |config| =>
      if config[i].id == id then Edited(config[i], address, suffrage) else config[i])
  }

  function Without(config: Configuration, ids: set<Id>): (r: Configuration)
    ensures forall s :: s in r <==> s in config && s.id !in ids
    ensures UniqueIds(config) ==> UniqueIds(r)
  {
    if config == [] then []
    else
      var last := config[|config| - 1];
      var rest := Without(config[..|config| - 1], ids);
      assert config == config[..|config| - 1] + [last];
      if last.id in ids then rest else rest + [last]
  }

  function Apply(config: Configuration, op: Op): Configuration {
    match op
    case AddVoter(id, address) =>
      if HasId(config, id) then Change(config, id, Some(address), Some(Voter))
      else config + [RaftServer(id, address, Voter)]
    case AddNonvoter(id, address) =>
      if HasId(config, id) then Change(config, id, Some(address), None)
      else config + [RaftServer(id, address, Nonvoter)]
    case DemoteVoter(id) => Change(config, id, None, Some(Nonvoter))
    case RemoveServer(id) => Without(config, {id})
    case LeadershipTransfer(_, _) => config
  }

  function ApplyCalls(config: Configuration, calls: seq<Call>): Configuration {
    if calls == [] then config
    else
      var before := ApplyCalls(config, calls[..|calls| - 1]);
      var last := calls[|calls| - 1];
      if last.ok then Apply(before, last.op) else before
  }

  lemma ApplyCallsStep(config: Configuration, calls: seq<Call>, call: Call)
    ensures ApplyCalls(config, calls + [call]) ==
            if call.ok then Apply(ApplyCalls(config, calls), call.op) else ApplyCalls(config, calls)
  {
    assert (calls + [call])[..|calls|] == calls;
  }

  lemma {:induction false} ApplyCallsConcat(config: Configuration, xs: seq<Call>, ys: seq<Call>)
    ensures ApplyCalls(config, xs + ys) == ApplyCalls(ApplyCalls(config, xs), ys)
  {
    if ys == [] {
      assert xs + ys == xs;
    } else {
      var n := |ys| - 1;
      ApplyCallsConcat(config, xs, ys[..n]);
      assert (xs + ys)[..|xs + ys| - 1] == xs + ys[..n];
    }
  }

  lemma VotersAfterAdding(config: Configuration, id: Id, address: Address)
    requires UniqueIds(config)
    ensures var c' := Apply(config, AddVoter(id, address)); UniqueIds(c') && VoterIds(c') == VoterIds(config) + {id}
  {
    if HasId(config, id) {
      ChangeVoters(config, id, Some(address), Some(Voter));
      var c' := Change(config, id, Some(address), Some(Voter));
      var i :| 0 <= i < |config| && config[i].id == id;
      SoleEntry(c', i);
      assert VoterIds(c') - {id} == VoterIds(config) - {id};
    } else {
      AppendVoters(config, RaftServer(id, address, Voter));
    }
  }

  lemma VotersAfterAddingNonvoter(config: Configuration, id: Id, address: Address)
    requires UniqueIds(config)
    ensures var c' := Apply(config, AddNonvoter(id, address)); UniqueIds(c') && VoterIds(c') == VoterIds(config)
  {
    if HasId(config, id) {
      ChangeVoters(config, id, Some(address), None);
      var c' := Change(config, id, Some(address), None);
      var i :| 0 <= i < |config| && config[i].id == id;
      SoleEntry(config, i);
      SoleEntry(c', i);
      assert VoterIds(c') - {id} == VoterIds(config) - {id};
    } else {
      AppendVoters(config, RaftServer(id, address, Nonvoter));
    }
  }

  lemma VotersAfterDemoting(config: Configuration, id: Id)
    requires UniqueIds(config)
    ensures var c' := Apply(config, DemoteVoter(id)); UniqueIds(c') && VoterIds(c') == VoterIds(config) - {id}
  {
    ChangeVoters(config, id, None, Some(Nonvoter));
    var c' := Change(config, id, None, Some(Nonvoter));
    assert forall s | s in c' && s.id == id :: s.suffrage == Nonvoter;
    assert VoterIds(c') - {id} == VoterIds(config) - {id};
  }

  lemma VotersAfterRemoving(config: Configuration, id: Id)
    requires UniqueIds(config)
    ensures var c' := Apply(config, RemoveServer(id)); UniqueIds(c') && VoterIds(c') == VoterIds(config) - {id}
  {
  }

  /** The voters before and after one effective call. */
  lemma VotersAfter(config: Configuration, op: Op)
    requires UniqueIds(config)
    ensures UniqueIds(Apply(config, op))
    ensures VoterIds(Apply(config, op)) ==
            match op
            case AddVoter(id, _) => VoterIds(config) + {id}
            case AddNonvoter(_, _) => VoterIds(config)
            case DemoteVoter(id) => VoterIds(config) - {id}
            case RemoveServer(id) => VoterIds(config) - {id}
            case LeadershipTransfer(_, _) => VoterIds(config)
  {
    match op
    case AddVoter(id, address) => VotersAfterAdding(config, id, address);
    case AddNonvoter(id, address) => VotersAfterAddingNonvoter(config, id, address);
    case DemoteVoter(id) => VotersAfterDemoting(config, id);
    case RemoveServer(id) => VotersAfterRemoving(config, id);
    case LeadershipTransfer(_, _) =>
  }

  lemma SoleEntry(config: Configuration, i: nat)
    requires UniqueIds(config) && i < |config|
    ensures config[i].id in VoterIds(config) <==> config[i].suffrage == Voter
  {
    assert config[i] in config;
    forall s | s in config && s.id == config[i].id ensures s == config[i] {
    }
  }

  lemma ChangeVoters(config: Configuration, id: Id, address: Option<Address>, suffrage: Option<Suffrage>)
    requires UniqueIds(config)
    ensures UniqueIds(Change(config, id, address, suffrage))
    ensures VoterIds(Change(config, id, address, suffrage)) - {id} == VoterIds(config) - {id}
  {
    var c' := Change(config, id, address, suffrage);
    assert forall i :: 0 <= i < |config| ==> config[i] in config && c'[i].id == config[i].id;
    forall x | x != id ensures x in VoterIds(c') <==> x in VoterIds(config) {
      if x in VoterIds(c') {
        var s :| s in c' && s.suffrage == Voter && s.id == x;
        var i :| 0 <= i < |c'| && c'[i] == s;
        assert config[i] == s;
      }
      if x in VoterIds(config) {
        var s :| s in config && s.suffrage == Voter && s.id == x;
        var i :| 0 <= i < |config| && config[i] == s;
        assert c'[i] == s;
      }
    }
  }

  lemma AppendVoters(config: Configuration, srv: RaftServer)
    requires UniqueIds(config) && !HasId(config, srv.id)
    ensures UniqueIds(config + [srv])
    ensures VoterIds(config + [srv]) == VoterIds(config) + if srv.suffrage == Voter then {srv.id} else {}
  {
    forall x ensures x in VoterIds(config + [srv]) <==>
                     x in VoterIds(config) || (srv.suffrage == Voter && x == srv.id) {
      assert srv in config + [srv];
    }
  }

  /** A sequence of calls that follows a plan and stops at its first failure. */
  ghost predicate FollowsUntilFailure(plan: seq<Op>, calls: seq<Call>) {
    && |calls| <= |plan|
    && (forall i :: 0 <= i < |calls| ==> calls[i].op == plan[i])
    && (forall i :: 0 <= i < |calls| - 1 ==> calls[i].ok)
    && (|calls| < |plan| ==> calls != [] && !calls[|calls| - 1].ok)
  }

  ghost predicate AllOk(calls: seq<Call>) {
    forall i :: 0 <= i < |calls| ==> calls[i].ok
  }

  /** A failed plan leaves whatever was to follow it unissued. */
  lemma FailedPlan(plan: seq<Op>, later: seq<Op>, calls: seq<Call>)
    requires FollowsUntilFailure(plan, calls) && !AllOk(calls)
    ensures FollowsUntilFailure(plan + later, calls)
  {
    assert calls != [];
  }

  /** A completed plan is continued by the next one. */
  lemma ContinuedPlan(plan: seq<Op>, later: seq<Op>, calls: seq<Call>, more: seq<Call>)
    requires FollowsUntilFailure(plan, calls) && AllOk(calls)
    requires FollowsUntilFailure(later, more)
    ensures FollowsUntilFailure(plan + later, calls + more)
    ensures AllOk(calls + more) == AllOk(more)
  {
    assert |calls| == |plan|;
    var all := calls + more;
    assert forall i :: |calls| <= i < |all| ==> all[i] == more[i - |calls|];
    if AllOk(all) {
      forall i | 0 <= i < |more| ensures more[i].ok {
        assert all[|calls| + i].ok;
      }
    }
  }

  /** Two plans run one after the other, the first one to its end, are one plan run. */
  lemma RanBoth(servers0: Configuration, calls0: seq<Call>, plan: seq<Op>, later: seq<Op>,
                calls: seq<Call>, more: seq<Call>, both: seq<Call>)
    requires FollowsUntilFailure(plan, calls) && AllOk(calls)
    requires FollowsUntilFailure(later, more) && both == calls + more
    ensures FollowsUntilFailure(plan + later, both)
    ensures AllOk(both) == AllOk(more)
    ensures ApplyCalls(servers0, both) == ApplyCalls(ApplyCalls(servers0, calls), more)
    ensures (calls0 + calls) + more == calls0 + both
  {
    ApplyCallsConcat(servers0, calls, more);
    ContinuedPlan(plan, later, calls, more);
    assert (calls0 + calls) + more == calls0 + (calls + more);
  }

  /** The calls issued so far are the operations planned so far. */
  ghost predicate Issued(ops: seq<Op>, calls: seq<Call>) {
    |calls| == |ops| && forall i :: 0 <= i < |ops| ==> calls[i].op == ops[i]
  }

  lemma IssuedMore(ops: seq<Op>, calls: seq<Call>, call: Call)
    requires Issued(ops, calls)
    ensures Issued(ops + [call.op], calls + [call])
    ensures AllOk(calls) ==> AllOk(calls + [call]) == call.ok
  {
    if AllOk(calls + [call]) {
      assert (calls + [call])[|calls|].ok;
    }
  }

  lemma StoppedAtFailure(soFar: seq<Op>, all: seq<Op>, calls: seq<Call>)
    requires Issued(soFar, calls) && soFar <= all && calls != []
    requires AllOk(calls[..|calls| - 1]) && !AllOk(calls)
    ensures FollowsUntilFailure(all, calls)
  {
    assert forall i :: 0 <= i < |calls| - 1 ==> calls[i] == calls[..|calls| - 1][i];
  }

  class Raft {
    var servers: Configuration
    /** Everything asked of Raft so far, with its outcome. */
    ghost var calls: seq<Call>
    /** Every time the configuration was asked for: whether Raft had an answer. */
    ghost var answers: seq<bool>

    constructor (servers: Configuration)
      ensures this.servers == servers && calls == [] && answers == []
    {
      this.servers := servers;
      calls, answers := [], [];
    }

    /** Issues a change and waits for its future. */
    method Issue(op: Op) returns (ok: bool)
      modifies this`servers, this`calls
      ensures calls == old(calls) + [Call(op, ok)]
      ensures servers == if ok then Apply(old(servers), op) else old(servers)
    {
      ok := *;
      if ok {
        servers := Apply(servers, op);
      }
      calls := calls + [Call(op, ok)];
    }

    method GetConfiguration() returns (config: Option<Configuration>)
      modifies this`answers
      ensures config.Some? ==> config.value == servers
      ensures answers == old(answers) + [config.Some?]
    {
      var available: bool := *;
      answers := answers + [available];
      config := if available then Some(servers) else None;
    }
  }

  /** Issues one more planned operation after calls that all succeeded. */
  method IssueNext(raft: Raft, op: Op, ghost servers0: Configuration, ghost calls0: seq<Call>, ghost ops: seq<Op>, ghost calls: seq<Call>)
    returns (ok: bool, ghost more: seq<Call>)
    requires Issued(ops, calls) && AllOk(calls)
    requires raft.servers == ApplyCalls(servers0, calls) && raft.calls == calls0 + calls
    modifies raft`servers, raft`calls
    ensures more == calls + [Call(op, ok)] && raft.calls == calls0 + more
    ensures raft.servers == ApplyCalls(servers0, more)
    ensures Issued(ops + [op], more) && AllOk(more) == ok && AllOk(more[..|more| - 1])
  {
    ok := raft.Issue(op);
    more := calls + [Call(op, ok)];
    ApplyCallsStep(servers0, calls, Call(op, ok));
    IssuedMore(ops, calls, Call(op, ok));
    assert more[..|more| - 1] == calls;
    assert (calls0 + calls) + [Call(op, ok)] == calls0 + more;
  }
}
