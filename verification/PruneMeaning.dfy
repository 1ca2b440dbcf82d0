/** What a round of pruning finds and picks, said of the entries and the positions of its lists. */
module PruneMeaning {
  import opened Ids
  import opened Sorting
  import opened IdLists
  import opened Types
  import opened RaftCluster
  import opened Registry
  import opened Adjudication
  import opened Core
  import opened Classification
  import opened Prune
  import opened PruneSafety
  import opened PruneTheorems
  import opened PruneRuns
  import opened Positions

  // What is found.

  predicate LastWith(config: Configuration, id: Id, i: int) {
    0 <= i < |config| && config[i].id == id && forall j :: i < j < |config| ==> config[j].id != id
  }

  /** The map of a configuration holds, for each id in it, the last entry with that id. */
  lemma {:induction false} LastEntryCounts(config: Configuration, id: Id)
    ensures (forall i :: 0 <= i < |config| ==> config[i].id != id) ==> id !in RaftMap(config)
    ensures forall i :: LastWith(config, id, i) ==> id in RaftMap(config) && RaftMap(config)[id] == config[i]
  {
    if config != [] {
      var n := |config| - 1;
      LastEntryCounts(config[..n], id);
      forall i | LastWith(config, id, i) && i < n ensures LastWith(config[..n], id, i) {
        assert forall j :: i < j < n ==> config[..n][j] == config[j];
      }
    }
  }

  /** The lists hold exactly: of the servers of the configuration, those the application does not know,
      and those it knows but not to be alive, apart by whether they vote; each list sorted by id,
      without repeats, and the known servers as the application reports them. */
  lemma FoundServers(raft: View, known: map<Id, Server>)
    requires KeyedById(known)
    ensures var f := Classify(raft, known);
            && (forall id :: id in f.staleNonVoters <==> id in raft && id !in known && raft[id].suffrage != Types.Voter)
            && (forall id :: id in f.staleVoters <==> id in raft && id !in known && raft[id].suffrage == Types.Voter)
            && (forall s :: s in f.failedNonVoters <==> FailedAs(s, raft, known, false))
            && (forall s :: s in f.failedVoters <==> FailedAs(s, raft, known, true))
            && InIdOrder(f.staleNonVoters) && InIdOrder(f.staleVoters)
            && InIdOrder(IdsOf(f.failedNonVoters)) && InIdOrder(IdsOf(f.failedVoters))
  {
    StaleListed(raft, known, false);
    StaleListed(raft, known, true);
    FailedAreListed(raft, known, false);
    FailedAreListed(raft, known, true);
  }

  ghost predicate FailedAs(s: Server, raft: View, known: map<Id, Server>, voter: bool) {
    && s.id in raft && s.id in known && known[s.id] == s && s.nodeStatus != NodeAlive
    && (raft[s.id].suffrage == Types.Voter <==> voter)
  }

  ghost predicate InIdOrder(ids: seq<Id>) {
    forall i, j :: 0 <= i < j < |ids| ==> Less(ids[i], ids[j])
  }

  lemma ListedInOrder(xs: seq<Id>, s: set<Id>)
    requires Lists(xs, s)
    ensures InIdOrder(xs) && forall id :: id in xs <==> id in s
  {
    forall i, j | 0 <= i < j < |xs| ensures Less(xs[i], xs[j]) {
      LessTotal(xs[i], xs[j]);
    }
    assert forall id :: id in xs <==> id in ToSet(xs);
  }

  lemma StaleListed(raft: View, known: map<Id, Server>, voters: bool)
    ensures var xs := Listing(StaleIds(raft, known, voters));
            InIdOrder(xs) && forall id :: id in xs <==> id in raft && id !in known && (raft[id].suffrage == Types.Voter <==> voters)
  {
    ListedInOrder(Listing(StaleIds(raft, known, voters)), StaleIds(raft, known, voters));
  }

  lemma FailedAreListed(raft: View, known: map<Id, Server>, voters: bool)
    requires KeyedById(known)
    ensures var servers := ServersOf(known, Listed(FailedIds(raft, known, voters), known));
            && InIdOrder(IdsOf(servers)) && forall s :: s in servers <==> FailedAs(s, raft, known, voters)
  {
    var xs := Listed(FailedIds(raft, known, voters), known);
    ListedInOrder(xs, FailedIds(raft, known, voters));
    assert IdsOf(ServersOf(known, xs)) == xs;
    forall s ensures s in ServersOf(known, xs) <==> FailedAs(s, raft, known, voters) {
      assert FailedAs(s, raft, known, voters) <==> s.id in FailedIds(raft, known, voters) && known[s.id] == s;
      ServerListed(known, xs, s);
    }
  }

  lemma ServerListed(known: map<Id, Server>, xs: seq<Id>, s: Server)
    requires KeyedById(known) && forall id :: id in xs ==> id in known
    ensures s in ServersOf(known, xs) <==> s.id in xs && known[s.id] == s
  {
    var servers := ServersOf(known, xs);
    if s.id in xs {
      var i :| 0 <= i < |xs| && xs[i] == s.id;
      assert servers[i] == known[s.id];
    }
    if s in servers {
      var i :| 0 <= i < |servers| && servers[i] == s;
      assert xs[i] in xs;
    }
  }

  /** The registry: every server of the configuration, voting if Raft says so, and a potential voter
      if the application knows it and the promoter counts its type. */
  lemma RegistryIs(config: Configuration, known: map<Id, Server>, isPotential: NodeType -> bool, id: Id)
    requires UniqueIds(config)
    ensures var roll := RollOf(RaftMap(config), known, isPotential);
            && (id in roll <==> exists e :: e in config && e.id == id)
            && (forall e :: e in config && e.id == id ==> (roll[id].currentVoter <==> e.suffrage == Types.Voter))
            && (id in roll ==> (roll[id].potentialVoter <==> id in known && isPotential(known[id].nodeType)))
  {
    LastEntryCounts(config, id);
    if e :| e in config && e.id == id {
      var i :| 0 <= i < |config| && config[i] == e;
      assert LastWith(config, id, i);
      forall f | f in config && f.id == id ensures f == e {
      }
    } else {
      assert forall i :: 0 <= i < |config| ==> config[i] in config;
    }
  }

  // What is picked.

  /** Of a list of non-voters: the positions of ids that do not count, and of the first `m` that do. */
  function SparedPositions(ids: seq<Id>, roll: Roll, m: nat): set<nat>
    requires AllIn(ids, roll)
  {
    set k: nat | k < |ids| && (roll[ids[k]].potentialVoter ==> Potential(ids[..k], roll) < m)
  }

  lemma {:induction false} TakeLast(ids: seq<Id>, roll: Roll, m: nat)
    requires AllIn(ids, roll) && ids != []
    ensures var n := |ids| - 1;
            TakePotential(ids, roll, m) ==
            TakePotential(ids[..n], roll, m) +
            if roll[ids[n]].potentialVoter && Potential(ids[..n], roll) >= m then [] else [ids[n]]
  {
    var n := |ids| - 1;
    if n > 0 {
      var left := if !roll[ids[0]].potentialVoter then m else if m > 0 then m - 1 else 0;
      TakeLast(ids[1..], roll, left);
      assert ids[1..][..n - 1] == ids[..n][1..];
    }
  }

  /** The removable ids of a list of non-voters, by position. */
  lemma {:induction false} TakeByPosition(ids: seq<Id>, roll: Roll, m: nat) returns (ks: seq<nat>)
    requires AllIn(ids, roll)
    ensures InOrder(ks, SparedPositions(ids, roll, m))
    ensures |TakePotential(ids, roll, m)| == |ks|
    ensures forall i :: 0 <= i < |ks| ==> ks[i] < |ids| && TakePotential(ids, roll, m)[i] == ids[ks[i]]
  {
    ks := [];
    if ids == [] {
      assert SparedPositions(ids, roll, m) == {};
    } else {
      var n := |ids| - 1;
      ks := TakeByPosition(ids[..n], roll, m);
      TakeLast(ids, roll, m);
      SparedAtLast(ids, roll, m);
      OneMoreInOrder(ks, SparedPositions(ids[..n], roll, m), n);
      if n in SparedPositions(ids, roll, m) {
        ks := ks + [n];
      }
    }
  }

  lemma SparedAtLast(ids: seq<Id>, roll: Roll, m: nat)
    requires AllIn(ids, roll) && ids != []
    ensures var n := |ids| - 1;
            SparedPositions(ids, roll, m) ==
            SparedPositions(ids[..n], roll, m) +
            if roll[ids[n]].potentialVoter && Potential(ids[..n], roll) >= m then {} else {n}
  {
    assert forall k: nat :: k < |ids| - 1 ==> ids[..|ids| - 1][k] == ids[k] && ids[..|ids| - 1][..k] == ids[..k];
  }

  /** What adjudication removes of a list of non-voters. */
  lemma NonVotersByPosition(ids: seq<Id>, roll: Roll, minQuorum: nat) returns (ks: seq<nat>)
    requires AllIn(ids, roll) && forall id :: id in ids ==> !roll[id].currentVoter
    ensures var removed := Adjudicate(ids, roll, minQuorum);
            && InOrder(ks, SparedPositions(ids, roll, Max(0, |PotentialIds(roll)| - minQuorum)))
            && |removed| == |ks| && forall i :: 0 <= i < |ks| ==> ks[i] < |ids| && removed[i] == ids[ks[i]]
  {
    NonVotersClosedForm(ids, roll, minQuorum);
    ks := TakeByPosition(ids, roll, Max(0, |PotentialIds(roll)| - minQuorum));
  }

  /** Of a list of voters, with `p` potential voters registered: none with two or fewer; when the floor
      binds, the same as of non-voters; else those that come before the cap is used up, and the one
      that uses it up. */
  function VoterPositions(ids: seq<Id>, roll: Roll, p: nat, minQuorum: nat): set<nat>
    requires AllIn(ids, roll)
  {
    var spare, cap := Max(0, p - minQuorum), Cap(p);
    if p <= 2 then {}
    else if spare < cap then SparedPositions(ids, roll, spare)
    else set k: nat | k < |ids| && Potential(ids[..k], roll) < cap
  }

  lemma VotersRemovedByPosition(ids: seq<Id>, roll: Roll, p: nat, minQuorum: nat) returns (ks: seq<nat>)
    requires AllIn(ids, roll)
    ensures InOrder(ks, VoterPositions(ids, roll, p, minQuorum))
    ensures |VotersRemoved(ids, roll, p, minQuorum)| == |ks|
    ensures forall i :: 0 <= i < |ks| ==> ks[i] < |ids| && VotersRemoved(ids, roll, p, minQuorum)[i] == ids[ks[i]]
  {
    if p <= 2 {
      ks := [];
    } else if Max(0, p - minQuorum) < Cap(p) {
      ks := TakeByPosition(ids, roll, Max(0, p - minQuorum));
    } else {
      ks := ThroughByPosition(ids, roll, Cap(p));
    }
  }

  /** What adjudication removes of a list of voters. */
  lemma VotersByPosition(ids: seq<Id>, roll: Roll, minQuorum: nat) returns (ks: seq<nat>)
    requires AllIn(ids, roll) && forall id :: id in ids ==> roll[id].currentVoter
    ensures InOrder(ks, VoterPositions(ids, roll, |PotentialIds(roll)|, minQuorum))
    ensures |Adjudicate(ids, roll, minQuorum)| == |ks|
    ensures forall i :: 0 <= i < |ks| ==> ks[i] < |ids| && Adjudicate(ids, roll, minQuorum)[i] == ids[ks[i]]
  {
    VotersClosedForm(ids, roll, minQuorum);
    ks := VotersRemovedByPosition(ids, roll, |PotentialIds(roll)|, minQuorum);
  }

  lemma ThroughByPosition(ids: seq<Id>, roll: Roll, c: nat) returns (ks: seq<nat>)
    requires AllIn(ids, roll)
    ensures InOrder(ks, set k: nat | k < |ids| && Potential(ids[..k], roll) < c)
    ensures |ThroughPotential(ids, roll, c)| == |ks|
    ensures forall i :: 0 <= i < |ks| ==> ks[i] < |ids| && ThroughPotential(ids, roll, c)[i] == ids[ks[i]]
  {
    var reach := CapReach(ids, roll, c);
    ThroughIsReach(ids, roll, c);
    ks := seq(reach, i => i);
    forall k: nat | k < |ids| ensures k < reach <==> Potential(ids[..k], roll) < c {
      ReachIs(ids, roll, c, k);
    }
    forall k: nat ensures k in ks <==> k < reach {
      if k < reach {
        assert ks[k] == k;
      }
    }
  }

  lemma {:induction false} ReachIs(ids: seq<Id>, roll: Roll, c: nat, k: nat)
    requires AllIn(ids, roll) && k < |ids|
    ensures k < CapReach(ids, roll, c) <==> Potential(ids[..k], roll) < c
  {
    if c > 0 && k > 0 {
      ReachIs(ids[1..], roll, if roll[ids[0]].potentialVoter then c - 1 else c, k - 1);
      assert ids[1..][..k - 1] == ids[..k][1..];
    }
  }

  // The servers handed on.

  function RegisteredPositions(servers: seq<Server>, roll: Roll): set<nat> {
    set k: nat | k < |servers| && servers[k].id in roll
  }

  /** The failed servers still looked at are those of the list that are still registered. */
  lemma {:induction false} RegisteredByPosition(servers: seq<Server>, roll: Roll) returns (ks: seq<nat>)
    ensures InOrder(ks, RegisteredPositions(servers, roll))
    ensures |Registered(servers, roll)| == |ks|
    ensures forall i :: 0 <= i < |ks| ==> ks[i] < |servers| && Registered(servers, roll)[i] == servers[ks[i]].id
  {
    ks := [];
    if servers == [] {
      assert RegisteredPositions(servers, roll) == {};
    } else {
      var n := |servers| - 1;
      ks := RegisteredByPosition(servers[..n], roll);
      assert RegisteredPositions(servers, roll) == RegisteredPositions(servers[..n], roll) + if servers[n].id in roll then {n} else {};
      OneMoreInOrder(ks, RegisteredPositions(servers[..n], roll), n);
      if servers[n].id in roll {
        ks := ks + [n];
      }
    }
  }

  function MatchingPositions(servers: seq<Server>, id: Id): set<nat> {
    set k: nat | k < |servers| && servers[k].id == id
  }

  /** And those handed to the application for an id are those of the list that carry it. */
  lemma {:induction false} MatchingByPosition(servers: seq<Server>, id: Id) returns (ks: seq<nat>)
    ensures InOrder(ks, MatchingPositions(servers, id))
    ensures |Matching(servers, id)| == |ks|
    ensures forall i :: 0 <= i < |ks| ==> ks[i] < |servers| && Matching(servers, id)[i] == servers[ks[i]]
  {
    ks := [];
    if servers == [] {
      assert MatchingPositions(servers, id) == {};
    } else {
      var n := |servers| - 1;
      ks := MatchingByPosition(servers[..n], id);
      assert MatchingPositions(servers, id) == MatchingPositions(servers[..n], id) + if servers[n].id == id then {n} else {};
      OneMoreInOrder(ks, MatchingPositions(servers[..n], id), n);
      if servers[n].id == id {
        ks := ks + [n];
      }
    }
  }

  // A whole call.

  /** Servers of the list at these positions, in order. */
  ghost predicate ServersAt(removed: seq<Server>, servers: seq<Server>, ks: seq<nat>) {
    |removed| == |ks| && forall i :: 0 <= i < |ks| ==> ks[i] < |servers| && removed[i] == servers[ks[i]]
  }

  lemma {:induction false} GetFailedAt(servers: seq<Server>, ids: seq<Id>, ks: seq<nat>)
    requires Distinct(IdsOf(servers)) && |ks| == |ids|
    requires forall i :: 0 <= i < |ks| ==> ks[i] < |servers| && ids[i] == servers[ks[i]].id
    ensures ServersAt(GetFailed(servers, ids), servers, ks)
  {
    if ids != [] {
      var n := |ids| - 1;
      GetFailedAt(servers, ids[..n], ks[..n]);
      MatchingAt(servers, ks[n]);
      OneMoreServerAt(GetFailed(servers, ids[..n]), servers, ks);
    }
  }

  lemma OneMoreServerAt(removed: seq<Server>, servers: seq<Server>, ks: seq<nat>)
    requires ks != [] && ks[|ks| - 1] < |servers| && ServersAt(removed, servers, ks[..|ks| - 1])
    ensures ServersAt(removed + [servers[ks[|ks| - 1]]], servers, ks)
  {
    assert forall i :: 0 <= i < |ks| - 1 ==> ks[..|ks| - 1][i] == ks[i];
  }

  lemma {:induction false} MatchingAt(servers: seq<Server>, k: nat)
    requires Distinct(IdsOf(servers)) && k < |servers|
    ensures Matching(servers, servers[k].id) == [servers[k]]
  {
    var n := |servers| - 1;
    assert IdsOf(servers) == IdsOf(servers[..n]) + [servers[n].id];
    if k < n {
      MatchingAt(servers[..n], k);
      assert IdsOf(servers)[k] != IdsOf(servers)[n];
    } else {
      MatchingOne(servers[..n], servers[k].id);
    }
  }

  /** All the stale servers asked to go, in order: the non-voters, and the voters while there are three
      potential voters. */
  ghost predicate StaleAsked(calls: seq<Call>, f: FailedServers, potential: nat) {
    var asked := f.staleNonVoters + if potential >= 3 then f.staleVoters else [];
    |calls| == |asked| && forall i :: 0 <= i < |asked| ==> calls[i] == Call(RemoveServer(asked[i]), true)
  }

  /** What a round that goes through has done, for candidates `f` the promoter has left of those found:
      `third` and `fourth` are the quorums read before the last two phases. */
  ghost predicate RoundDone(f: FailedServers, roll: Roll, third: nat, fourth: nat,
                            calls: seq<Call>, removed: seq<Server>, ks: seq<nat>, ls: seq<nat>)
    requires ClassEntries(f, roll)
  {
    var p := |PotentialIds(roll)|;
    var ids := IdsOf(f.failedNonVoters);
    var left := p - Min(Potential(ids, roll), Max(0, p - third));
    && StaleAsked(calls, f, p)
    && InOrder(ks, SparedPositions(ids, roll, Max(0, p - third)))
    && InOrder(ls, VoterPositions(IdsOf(f.failedVoters), roll, Max(0, left), fourth))
    && |ks| <= |removed| && ServersAt(removed[..|ks|], f.failedNonVoters, ks) && ServersAt(removed[|ks|..], f.failedVoters, ls)
  }

  lemma RoundMeans(f: FailedServers, roll: Roll, q: Quorums, calls: seq<Call>, removed: seq<Server>)
    returns (ks: seq<nat>, ls: seq<nat>)
    requires ClassEntries(f, roll) && NoNilEntry(f, roll, q) && Finished(RoundOf(f, roll, q), f, calls, removed)
    ensures RoundDone(f, roll, q.third, q.fourth, calls, removed, ks, ls)
  {
    RoundClosedForm(f, roll, q);
    var round := ClosedRound(f, roll, q);
    ks, ls := PositionsInRound(f, roll, q);
    RemovedAt(f, round, removed, ks, ls);
    AskedIs(round, calls);
  }

  lemma PositionsInRound(f: FailedServers, roll: Roll, q: Quorums) returns (ks: seq<nat>, ls: seq<nat>)
    requires ClassEntries(f, roll)
    ensures var p := |PotentialIds(roll)|;
            var left := p - Min(Potential(IdsOf(f.failedNonVoters), roll), Max(0, p - q.third));
            && InOrder(ks, SparedPositions(IdsOf(f.failedNonVoters), roll, Max(0, p - q.third)))
            && InOrder(ls, VoterPositions(IdsOf(f.failedVoters), roll, Max(0, left), q.fourth))
    ensures var round := ClosedRound(f, roll, q);
            && |ks| == |round.failedNonVoters| && |ls| == |round.failedVoters|
            && (forall i :: 0 <= i < |ks| ==> ks[i] < |f.failedNonVoters| && round.failedNonVoters[i] == f.failedNonVoters[ks[i]].id)
            && (forall i :: 0 <= i < |ls| ==> ls[i] < |f.failedVoters| && round.failedVoters[i] == f.failedVoters[ls[i]].id)
  {
    ks := TakeByPosition(IdsOf(f.failedNonVoters), roll, Max(0, |PotentialIds(roll)| - q.third));
    ls := VotersRemovedByPosition(IdsOf(f.failedVoters), roll, StillPotential(f, roll, q), q.fourth);
  }

  lemma AskedIs(round: Round, calls: seq<Call>)
    requires RemovalsOf(round.staleNonVoters + round.staleVoters, calls) && AllOk(calls)
    ensures var asked := round.staleNonVoters + round.staleVoters;
            |calls| == |asked| && forall i :: 0 <= i < |asked| ==> calls[i] == Call(RemoveServer(asked[i]), true)
  {
  }

  lemma RemovedAt(f: FailedServers, round: Round, removed: seq<Server>, ks: seq<nat>, ls: seq<nat>)
    requires Distinct(IdsOf(f.failedNonVoters)) && Distinct(IdsOf(f.failedVoters))
    requires removed == GetFailed(f.failedNonVoters, round.failedNonVoters) + GetFailed(f.failedVoters, round.failedVoters)
    requires |ks| == |round.failedNonVoters| && |ls| == |round.failedVoters|
    requires forall i :: 0 <= i < |ks| ==> ks[i] < |f.failedNonVoters| && round.failedNonVoters[i] == f.failedNonVoters[ks[i]].id
    requires forall i :: 0 <= i < |ls| ==> ls[i] < |f.failedVoters| && round.failedVoters[i] == f.failedVoters[ls[i]].id
    ensures |ks| <= |removed| && ServersAt(removed[..|ks|], f.failedNonVoters, ks) && ServersAt(removed[|ks|..], f.failedVoters, ls)
  {
    GetFailedAt(f.failedNonVoters, round.failedNonVoters, ks);
    GetFailedAt(f.failedVoters, round.failedVoters, ls);
    Halves(removed, GetFailed(f.failedNonVoters, round.failedNonVoters), GetFailed(f.failedVoters, round.failedVoters));
  }

  lemma Halves<T>(xs: seq<T>, ys: seq<T>, zs: seq<T>)
    requires xs == ys + zs
    ensures xs[..|ys|] == ys && xs[|ys|..] == zs
  {
  }

  /** The whole of a call of pruneDeadServers that goes through, from what it reads to what it asks for:
      the first configuration decides whether and with what candidates, the fourth and the fifth the
      quorums of the failed non-voters and voters. */
  lemma PrunedCallMeans(enabled: bool, state: State, promoter: Promoter, raft: View, known: map<Id, Server>,
                        confs: seq<Option<Config>>, calls: seq<Call>, removed: seq<Server>)
    returns (ks: seq<nat>, ls: seq<nat>)
    requires PruneRan(Pruned, enabled, state, promoter, raft, known, confs, calls, removed) && KeyedById(known)
    requires Selects(promoter.filterRemovals(confs[0].value, state, Classify(raft, known)), Classify(raft, known))
    ensures enabled && |confs| == 5 && (forall i :: 0 <= i < 5 ==> confs[i].Some?) && confs[0].value.cleanupDeadServers
    ensures var f, roll := promoter.filterRemovals(confs[0].value, state, Classify(raft, known)), RollOf(raft, known, promoter.isPotentialVoter);
            && ClassEntries(f, roll)
            && RoundDone(f, roll, confs[3].value.minQuorum, confs[4].value.minQuorum, calls, removed, ks, ls)
  {
    var f, roll := promoter.filterRemovals(confs[0].value, state, Classify(raft, known)), RollOf(raft, known, promoter.isPotentialVoter);
    EntriesOf(f, raft, known, promoter.isPotentialVoter);
    assert forall i :: 0 <= i < |confs[1..]| ==> confs[1..][i] == confs[i + 1];
    ks, ls := RoundMeans(f, roll, QuorumsIn(confs[1..]), calls, removed);
  }

  /** A call stopped by Raft has asked for all the stale non-voters, one of which failed, or for all of
      them and then for the stale voters, one of which failed. The application has been asked nothing. */
  lemma StoppedCallMeans(enabled: bool, state: State, promoter: Promoter, raft: View, known: map<Id, Server>,
                         confs: seq<Option<Config>>, calls: seq<Call>, removed: seq<Server>)
    requires PruneRan(StaleRemovalFailed, enabled, state, promoter, raft, known, confs, calls, removed) && KeyedById(known)
    requires Selects(promoter.filterRemovals(confs[0].value, state, Classify(raft, known)), Classify(raft, known))
    ensures var f := promoter.filterRemovals(confs[0].value, state, Classify(raft, known));
            removed == [] && Interrupted(f, |PotentialIds(RollOf(raft, known, promoter.isPotentialVoter))|, |confs| - 1, calls)
  {
    var f, roll := promoter.filterRemovals(confs[0].value, state, Classify(raft, known)), RollOf(raft, known, promoter.isPotentialVoter);
    EntriesOf(f, raft, known, promoter.isPotentialVoter);
    StoppedMeans(f, roll, confs[1..], calls);
  }

  /** The removals asked for when Raft fails one in the first or the second phase. */
  ghost predicate Interrupted(f: FailedServers, potential: nat, phase: int, calls: seq<Call>) {
    var n := |f.staleNonVoters|;
    if phase == 1 then RemovalsOf(f.staleNonVoters, calls) && !AllOk(calls)
    else
      && phase == 2 && potential >= 3 && n <= |calls|
      && RemovalsOf(f.staleNonVoters + f.staleVoters, calls) && AllOk(calls[..n]) && !AllOk(calls[n..])
  }

  lemma StoppedMeans(f: FailedServers, roll: Roll, confs: seq<Option<Config>>, calls: seq<Call>)
    requires ClassEntries(f, roll) && StoppedInStalePhase(f, roll, confs, calls)
    ensures Interrupted(f, |PotentialIds(roll)|, |confs|, calls)
  {
    StalePhases(f, roll, QuorumsRead(confs, 0));
  }
}
