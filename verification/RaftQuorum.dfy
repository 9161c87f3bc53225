/** `quorum_value` of src/raft/node.rs: the greatest value that a quorum of nodes has reached, by selection in place. */
module RaftQuorum {
  import opened Common
  import opened RaftLog
  import opened RaftNode

  ghost predicate Distinct(s: seq<NodeID>) { forall i, j :: 0 <= i < j < |s| ==> s[i] != s[j] }

  /** The array lists the table's values, one per key. */
  ghost predicate Lists(keys: seq<NodeID>, a: seq<nat>, m: map<NodeID, nat>) {
    && |keys| == |a| == |m|
    && Distinct(keys)
    && forall i :: 0 <= i < |keys| ==> keys[i] in m && m[keys[i]] == a[i]
  }

  /** The first `n` places hold the greatest values, in descending order. */
  ghost predicate Selected(a: seq<nat>, n: nat) {
    forall i, j :: 0 <= i < n && i <= j < |a| ==> a[i] >= a[j]
  }

  ghost function KeySet(keys: seq<NodeID>): set<NodeID> { set k | k in keys }

  lemma {:induction false} DistinctSize(keys: seq<NodeID>)
    requires Distinct(keys)
    ensures |KeySet(keys)| == |keys|
  {
    if keys != [] {
      var n := |keys| - 1;
      DistinctSize(keys[..n]);
      assert KeySet(keys) == KeySet(keys[..n]) + {keys[n]};
    }
  }

  lemma ListsAll(keys: seq<NodeID>, a: seq<nat>, m: map<NodeID, nat>)
    requires Lists(keys, a, m)
    ensures KeySet(keys) == m.Keys
  {
    DistinctSize(keys);
    assert |m.Keys| == |m|;
    SubsetSize(KeySet(keys), m.Keys);
  }

  /** The `q`th of the selected values is the quorum value. */
  lemma SelectedIsQuorum(keys: seq<NodeID>, a: seq<nat>, m: map<NodeID, nat>, q: nat)
    requires Lists(keys, a, m) && Selected(a, q) && 1 <= q <= |a|
    ensures IsQuorumValue(m, q, a[q - 1])
  {
    var v := a[q - 1];
    assert m[keys[q - 1]] == v;
    SelectedReach(keys, a, m, q);
    AboveSelected(keys, a, m, q);
  }

  lemma SelectedReach(keys: seq<NodeID>, a: seq<nat>, m: map<NodeID, nat>, q: nat)
    requires Lists(keys, a, m) && Selected(a, q) && 1 <= q <= |a|
    ensures |AtLeast(m, a[q - 1])| >= q
  {
    var first := KeySet(keys[..q]);
    assert first <= AtLeast(m, a[q - 1]);
    DistinctSize(keys[..q]);
    SubsetSize(first, AtLeast(m, a[q - 1]));
  }

  lemma AboveSelected(keys: seq<NodeID>, a: seq<nat>, m: map<NodeID, nat>, q: nat)
    requires Lists(keys, a, m) && Selected(a, q) && 1 <= q <= |a|
    ensures |AtLeast(m, a[q - 1] + 1)| < q
  {
    ListsAll(keys, a, m);
    var above, before := AtLeast(m, a[q - 1] + 1), KeySet(keys[..q - 1]);
    forall p | p in above ensures p in before {
      assert p in KeySet(keys);
      var i :| 0 <= i < |keys| && keys[i] == p;
      assert i < q - 1;
      assert keys[..q - 1][i] == p;
    }
    DistinctSize(keys[..q - 1]);
    SubsetSize(above, before);
  }

  lemma QuorumValueUnique(m: map<NodeID, nat>, q: nat, v: nat, w: nat)
    requires IsQuorumValue(m, q, v) && IsQuorumValue(m, q, w)
    ensures v == w
  {
    if v < w { SubsetSize(AtLeast(m, w), AtLeast(m, v + 1)); }
    if w < v { SubsetSize(AtLeast(m, v), AtLeast(m, w + 1)); }
  }

  /** Swapping two places of the list keeps it one. */
  lemma SwapLists(keys: seq<NodeID>, a: seq<nat>, m: map<NodeID, nat>, i: nat, j: nat)
    requires Lists(keys, a, m) && i < |a| && j < |a|
    ensures Lists(keys[i := keys[j]][j := keys[i]], a[i := a[j]][j := a[i]], m)
  {
  }

  lemma SelectNext(a: seq<nat>, n: nat, best: nat)
    requires Selected(a, n) && n <= best < |a| && forall j :: n <= j < |a| ==> a[best] >= a[j]
    ensures Selected(a[n := a[best]][best := a[n]], n + 1)
  {
  }

  method Collect(m: map<NodeID, nat>) returns (a: array<nat>, ghost keys: seq<NodeID>)
    ensures fresh(a) && Lists(keys, a[..], m)
  {
    a := new nat[|m|];
    keys := [];
    var todo := m.Keys;
    assert |m.Keys| == |m|;
    while todo != {}
      invariant todo <= m.Keys && |keys| + |todo| == |m| && Distinct(keys)
      invariant forall k :: k in keys ==> k in m && k !in todo
      invariant forall i :: 0 <= i < |keys| ==> a[i] == m[keys[i]]
      decreases |todo|
    {
      var k :| k in todo;
      a[|m| - |todo|] := m[k];
      keys, todo := keys + [k], todo - {k};
    }
  }

  /** Selects in place until the `q`th greatest value is in its place. */
  method SelectQuorum(m: map<NodeID, nat>, q: nat) returns (v: nat)
    requires 1 <= q <= |m|
    ensures v == QuorumValue(m, q)
  {
    var a, keys := Collect(m);
    var n := 0;
    while n < q
      invariant 0 <= n <= q && Lists(keys, a[..], m) && Selected(a[..], n)
    {
      var best, j := n, n + 1;
      while j < a.Length
        invariant n <= best < j <= a.Length
        invariant forall i :: n <= i < j ==> a[best] >= a[i]
      {
        if a[j] > a[best] { best := j; }
        j := j + 1;
      }
      ghost var was := a[..];
      SwapLists(keys, was, m, n, best);
      SelectNext(was, n, best);
      a[n], a[best] := a[best], a[n];
      assert a[..] == was[n := was[best]][best := was[n]];
      keys := keys[n := keys[best]][best := keys[n]];
      n := n + 1;
    }
    v := a[q - 1];
    SelectedIsQuorum(keys, a[..], m, q);
    QuorumValueUnique(m, q, v, QuorumValue(m, q));
  }
}
