/** What several components use. */
module Common {
  datatype Option<+T> = None | Some(value: T)

  lemma SubsetSize<T>(a: set<T>, b: set<T>)
    requires a <= b
    ensures |a| <= |b|
    ensures |a| == |b| ==> a == b
  {
    assert b == a + (b - a);
  }
}
