/** Which entries of a list a loop picks, said by their positions. */
module Positions {
  /** The positions of the set, in order. */
  ghost predicate InOrder(ks: seq<nat>, positions: set<nat>) {
    && (forall i, j :: 0 <= i < j < |ks| ==> ks[i] < ks[j])
    && (forall k :: k in ks <==> k in positions)
  }

  lemma OneMoreInOrder(ks: seq<nat>, positions: set<nat>, n: nat)
    requires InOrder(ks, positions) && forall k :: k in positions ==> k < n
    ensures InOrder(ks + [n], positions + {n})
  {
    var more := ks + [n];
    forall i, j | 0 <= i < j < |more| ensures more[i] < more[j] {
      assert i < |ks| ==> ks[i] in ks;
    }
  }

  lemma FirstIsLeast(ks: seq<nat>, positions: set<nat>)
    requires InOrder(ks, positions)
    ensures ks == [] <==> positions == {}
    ensures ks != [] ==> ks[0] in positions && forall k :: k in positions ==> ks[0] <= k
  {
    if ks != [] {
      assert ks[0] in ks;
      forall k | k in positions ensures ks[0] <= k {
        assert k in ks;
        var i :| 0 <= i < |ks| && ks[i] == k;
      }
    } else {
      assert forall k :: k in positions ==> k in ks;
    }
  }

  /** There is only one such list. */
  lemma {:induction false} InOrderIsUnique(ks: seq<nat>, ls: seq<nat>, positions: set<nat>)
    requires InOrder(ks, positions) && InOrder(ls, positions)
    ensures ks == ls
    decreases |ks|
  {
    FirstIsLeast(ks, positions);
    FirstIsLeast(ls, positions);
    if ks != [] {
      TailInOrder(ks, positions);
      TailInOrder(ls, positions);
      InOrderIsUnique(ks[1..], ls[1..], positions - {ks[0]});
      assert ks == [ks[0]] + ks[1..] && ls == [ls[0]] + ls[1..];
    }
  }

  lemma TailInOrder(ks: seq<nat>, positions: set<nat>)
    requires ks != [] && InOrder(ks, positions)
    ensures InOrder(ks[1..], positions - {ks[0]})
  {
    var rest := ks[1..];
    forall k ensures k in rest <==> k in positions - {ks[0]} {
      assert ks == [ks[0]] + rest;
      assert k in ks <==> k == ks[0] || k in rest;
    }
  }
}
