/** Server identifiers. Go compares raft.ServerID values, which are strings, byte by byte;
    on UTF-8 that is the order of the code points, so a `string` of Dafny characters ordered
    lexicographically is the same order. */
module Ids {
  type Id = string

  predicate Less(a: Id, b: Id) {
    if |b| == 0 then false
    else if |a| == 0 then true
    else if a[0] != b[0] then a[0] < b[0]
    else Less(a[1..], b[1..])
  }

  lemma {:induction false} LessTotal(a: Id, b: Id)
    ensures a == b ==> !Less(a, b)
    ensures a != b ==> Less(a, b) != Less(b, a)
  {
    if |a| > 0 && |b| > 0 && a[0] == b[0] {
      LessTotal(a[1..], b[1..]);
      assert a == [a[0]] + a[1..] && b == [b[0]] + b[1..];
    }
  }

  lemma {:induction false} LessTransitive(a: Id, b: Id, c: Id)
    requires Less(a, b) && Less(b, c)
    ensures Less(a, c)
  {
    if |a| > 0 && a[0] == b[0] && b[0] == c[0] {
      LessTransitive(a[1..], b[1..], c[1..]);
    }
  }

  /** The order is that of the first difference, a prefix coming before what it is a prefix of. */
  predicate DifferAt(a: Id, b: Id, k: nat) {
    k <= |a| && k < |b| && a[..k] == b[..k] && (k < |a| ==> a[k] < b[k])
  }

  lemma {:induction false} LessIsFirstDifference(a: Id, b: Id)
    ensures Less(a, b) <==> exists k :: DifferAt(a, b, k)
  {
    if |a| == 0 || |b| == 0 || a[0] != b[0] {
      assert |b| > 0 && (|a| == 0 || a[0] < b[0]) ==> DifferAt(a, b, 0);
      forall k: nat | DifferAt(a, b, k) ensures k == 0 {
        SamePrefix(a, b, k);
      }
    } else {
      LessIsFirstDifference(a[1..], b[1..]);
      if k: nat :| DifferAt(a[1..], b[1..], k) {
        LaterDifference(a, b, k);
      }
      if k: nat :| DifferAt(a, b, k) {
        EarlierDifference(a, b, k);
      }
    }
  }

  lemma SamePrefix(a: Id, b: Id, k: nat)
    requires k <= |a| && k <= |b| && a[..k] == b[..k]
    ensures k > 0 ==> a[0] == b[0]
  {
    if k > 0 {
      assert a[..k][0] == b[..k][0];
    }
  }

  lemma LaterDifference(a: Id, b: Id, k: nat)
    requires |a| > 0 && |b| > 0 && a[0] == b[0] && DifferAt(a[1..], b[1..], k)
    ensures DifferAt(a, b, k + 1)
  {
    assert a[..k + 1] == [a[0]] + a[1..][..k] && b[..k + 1] == [b[0]] + b[1..][..k];
  }

  lemma EarlierDifference(a: Id, b: Id, k: nat)
    requires |a| > 0 && |b| > 0 && a[0] == b[0] && DifferAt(a, b, k)
    ensures k > 0 && DifferAt(a[1..], b[1..], k - 1)
  {
    if k > 0 {
      assert a[1..][..k - 1] == a[..k][1..] && b[1..][..k - 1] == b[..k][1..];
    }
  }
}
