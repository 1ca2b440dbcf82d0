/** Interleaved runs and histories: the states that the threads of a run store, one after the other,
    are a history in the sense of History, although each update reads a.state twice and stores its
    result much later. */
module LifecycleHistory {
  import opened Types
  import L = Lifecycle
  import T = LifecycleTrace
  import R = LifecycleReset
  import H = History
  import B = StateBuild
  import U = StateUpdate

  type NodeTypes = (Config, State) -> map<string, NodeType>

  /** What an update computes: the servers come from the state read under the lock, the first state's
      time from the one read again without it. */
  ghost predicate ComputedFrom(memory: B.HealthMemory, nodeTypes: NodeTypes, snapshot: State, reread: State, u: H.Update) {
    && u.inputs.current == snapshot.servers
    && u.inputs.firstStateTime == U.FirstStateTime(reread, u.inputs.now)
    && B.IsNextState(memory, u.inputs, U.TypesFor(nodeTypes, u.inputs.config), u.result)
  }

  /** The state after so many assignments, the initial one included. */
  function Version(events: seq<H.Event>, version: nat): State {
    H.StateAfter(events[..if version <= |events| then version else |events|])
  }

  /** The assignment is what the event of the run says, given the assignments of the whole run. */
  ghost predicate Assigns(memory: B.HealthMemory, nodeTypes: NodeTypes, event: L.Event, events: seq<H.Event>, made: H.Event) {
    match event
    case Stored(_, snapshot, reread) =>
      made.Updated? && ComputedFrom(memory, nodeTypes, Version(events, snapshot), Version(events, reread), made.update)
    case Cleared(_) => made.Cleared?
    case _ => true
  }

  /** `events` are the assignments made in the run, in order. */
  ghost predicate Records(memory: B.HealthMemory, nodeTypes: NodeTypes, log: seq<L.Event>, events: seq<H.Event>) {
    && |events| == T.CountWrites(log)
    && forall k :: 0 <= k < |log| && T.Writes(log[k]) ==>
         && T.CountWrites(log[..k]) < |events|
         && Assigns(memory, nodeTypes, log[k], events, events[T.CountWrites(log[..k])])
  }

  lemma CountStep(log: seq<L.Event>, k: nat)
    requires k < |log|
    ensures T.CountWrites(log[..k + 1]) == T.CountWrites(log[..k]) + if T.Writes(log[k]) then 1 else 0
  {
    assert log[..k + 1][..k] == log[..k];
  }

  lemma {:induction false} CountGrows(log: seq<L.Event>, k: nat, n: nat)
    requires k <= n <= |log|
    ensures T.CountWrites(log[..k]) <= T.CountWrites(log[..n])
    decreases n
  {
    if k < n {
      CountGrows(log, k, n - 1);
      CountStep(log, n - 1);
    }
  }

  lemma EarlierVersion(events: seq<H.Event>, m: nat, v: nat)
    requires v <= m <= |events|
    ensures Version(events[..m], v) == Version(events, v)
  {
    assert events[..m][..v] == events[..v];
  }

  /** An earlier assignment has the same meaning in the part of the run before the last event. */
  lemma AssignedBefore(memory: B.HealthMemory, nodeTypes: NodeTypes, log: seq<L.Event>, events: seq<H.Event>, n: nat, k: nat)
    requires k < n <= |log| && T.CountWrites(log[..n]) <= |events|
    requires T.NoLostUpdate(log) && T.Writes(log[k]) && T.CountWrites(log[..k]) < |events|
    requires Assigns(memory, nodeTypes, log[k], events, events[T.CountWrites(log[..k])])
    ensures log[..n][..k] == log[..k] && T.CountWrites(log[..k]) < T.CountWrites(log[..n])
    ensures Assigns(memory, nodeTypes, log[k], events[..T.CountWrites(log[..n])], events[T.CountWrites(log[..k])])
  {
    assert log[..n][..k] == log[..k];
    CountStep(log, k);
    CountGrows(log, k + 1, n);
    if log[k].Stored? {
      EarlierVersion(events, T.CountWrites(log[..n]), T.CountWrites(log[..k]));
    }
  }

  lemma NoneLostBefore(log: seq<L.Event>, n: nat)
    requires T.NoLostUpdate(log) && n <= |log|
    ensures T.NoLostUpdate(log[..n])
  {
    forall k | 0 <= k < n && log[..n][k].Stored?
      ensures log[..n][k].snapshot == T.CountWrites(log[..n][..k]) == log[..n][k].reread
    {
      assert log[k].Stored? && log[..n][..k] == log[..k];
    }
  }

  /** What was assigned before the last event of the run. */
  lemma RecordsBefore(memory: B.HealthMemory, nodeTypes: NodeTypes, log: seq<L.Event>, events: seq<H.Event>, n: nat)
    requires n <= |log| && T.NoLostUpdate(log) && Records(memory, nodeTypes, log, events)
    ensures T.CountWrites(log[..n]) <= |events|
    ensures Records(memory, nodeTypes, log[..n], events[..T.CountWrites(log[..n])])
  {
    CountGrows(log, n, |log|);
    assert log[..|log|] == log;
    forall k | 0 <= k < n && T.Writes(log[..n][k])
      ensures log[..n][..k] == log[..k] && T.CountWrites(log[..k]) < T.CountWrites(log[..n])
      ensures Assigns(memory, nodeTypes, log[k], events[..T.CountWrites(log[..n])], events[T.CountWrites(log[..k])])
    {
      assert log[..n][k] == log[k];
      AssignedBefore(memory, nodeTypes, log, events, n, k);
    }
  }

  /** Without a lost update, the assignments form a history. */
  lemma {:induction false} SerialWritesAreAHistory(memory: B.HealthMemory, nodeTypes: NodeTypes, log: seq<L.Event>, events: seq<H.Event>)
    requires T.NoLostUpdate(log) && Records(memory, nodeTypes, log, events)
    ensures H.IsHistory(memory, nodeTypes, events)
    decreases |log|
  {
    if log != [] {
      var n := |log| - 1;
      var m := T.CountWrites(log[..n]);
      NoneLostBefore(log, n);
      RecordsBefore(memory, nodeTypes, log, events, n);
      SerialWritesAreAHistory(memory, nodeTypes, log[..n], events[..m]);
      if T.Writes(log[n]) {
        assert |events| == m + 1;
      } else {
        assert events[..m] == events;
      }
    }
  }

  /** In every run the states stored so far are a history: what History says of StableSince and of
      the first state's time holds of autopilot under every interleaving. */
  lemma RunsAreHistories(memory: B.HealthMemory, nodeTypes: NodeTypes, w: L.World, events: seq<H.Event>)
    requires L.Reachable(w) && Records(memory, nodeTypes, w.log, events)
    ensures H.IsHistory(memory, nodeTypes, events)
    ensures w.version == |events|
  {
    T.RunsAreOrderly(w);
    SerialWritesAreAHistory(memory, nodeTypes, w.log, events);
  }

  lemma {:induction false} NoWritesBetween(log: seq<L.Event>, k: nat, j: nat)
    requires k <= j <= |log| && forall i :: k <= i < j ==> !T.Writes(log[i])
    ensures T.CountWrites(log[..j]) == T.CountWrites(log[..k])
    decreases j
  {
    if k < j {
      NoWritesBetween(log, k, j - 1);
      CountStep(log, j - 1);
    }
  }

  /** When an execution that has led says it is done, the stored state is empty: whatever starts next
      knows nothing of it. */
  lemma DoneLeavesEmpty(memory: B.HealthMemory, nodeTypes: NodeTypes, w: L.World, events: seq<H.Event>, j: nat, e: nat)
    requires L.Reachable(w) && Records(memory, nodeTypes, w.log, events)
    requires j < |w.log| && w.log[j] == L.DoneClosed(e) && L.Updater(e) in w.pcs
    ensures T.CountWrites(w.log[..j]) <= |events|
    ensures H.StateAfter(events[..T.CountWrites(w.log[..j])]) == EMPTY_STATE
  {
    R.ResetBeforeDone(w, j, e);
    var k :| 0 <= k < j && w.log[k] == L.Cleared(e) && forall i :: k < i < j ==> !w.log[i].Stored? && !w.log[i].Cleared?;
    EmptyAfterReset(memory, nodeTypes, w.log, events, k, j);
  }

  lemma EmptyAfterReset(memory: B.HealthMemory, nodeTypes: NodeTypes, log: seq<L.Event>, events: seq<H.Event>, k: nat, j: nat)
    requires Records(memory, nodeTypes, log, events)
    requires k < j <= |log| && log[k].Cleared? && forall i :: k < i < j ==> !log[i].Stored? && !log[i].Cleared?
    ensures T.CountWrites(log[..j]) <= |events|
    ensures H.StateAfter(events[..T.CountWrites(log[..j])]) == EMPTY_STATE
  {
    NoWritesBetween(log, k + 1, j);
    CountStep(log, k);
    var n := T.CountWrites(log[..k]);
    assert T.Writes(log[k]) && Assigns(memory, nodeTypes, log[k], events, events[n]);
    assert events[..n + 1][n] == events[n];
  }
}
