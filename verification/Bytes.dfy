/** Byte strings and their lexicographic order, which storage engines keep keys in. */
module Bytes {
  type Byte = b: int | 0 <= b < 256
  type Bytes = seq<Byte>

  /** Strict lexicographic order. */
  predicate Less(a: Bytes, b: Bytes) {
    b != [] && (a == [] || a[0] < b[0] || (a[0] == b[0] && Less(a[1..], b[1..])))
  }

  predicate AtMost(a: Bytes, b: Bytes) { a == b || Less(a, b) }

  /** Less because of a differing byte, not because of a shorter length. */
  predicate Below(a: Bytes, b: Bytes) {
    a != [] && b != [] && (a[0] < b[0] || (a[0] == b[0] && Below(a[1..], b[1..])))
  }

  lemma {:induction false} LessIrreflexive(a: Bytes)
    ensures !Less(a, a)
  {
    if a != [] { LessIrreflexive(a[1..]); }
  }

  lemma {:induction false} LessTransitive(a: Bytes, b: Bytes, c: Bytes)
    requires Less(a, b) && Less(b, c)
    ensures Less(a, c)
  {
    if a != [] && a[0] == b[0] && b[0] == c[0] { LessTransitive(a[1..], b[1..], c[1..]); }
  }

  lemma {:induction false} LessTotal(a: Bytes, b: Bytes)
    ensures a == b || Less(a, b) || Less(b, a)
  {
    if a != [] && b != [] && a[0] == b[0] {
      LessTotal(a[1..], b[1..]);
      assert a == [a[0]] + a[1..] && b == [b[0]] + b[1..];
    }
  }

  lemma LessAsymmetric(a: Bytes, b: Bytes)
    requires Less(a, b)
    ensures !Less(b, a) && a != b
  {
    LessIrreflexive(a);
    if Less(b, a) { LessTransitive(a, b, a); }
  }

  /** A differing byte decides, whatever follows. */
  lemma {:induction false} BelowExtends(a: Bytes, b: Bytes, r: Bytes, s: Bytes)
    requires Below(a, b)
    ensures Below(a + r, b + s) && Less(a + r, b + s)
  {
    assert (a + r)[1..] == a[1..] + r && (b + s)[1..] == b[1..] + s;
    if a[0] == b[0] { BelowExtends(a[1..], b[1..], r, s); }
  }

  lemma {:induction false} BelowAfter(p: Bytes, a: Bytes, b: Bytes)
    requires Below(a, b)
    ensures Below(p + a, p + b)
  {
    if p == [] {
      assert p + a == a && p + b == b;
    } else {
      BelowAfter(p[1..], a, b);
      assert (p + a)[1..] == p[1..] + a && (p + b)[1..] == p[1..] + b;
    }
  }

  lemma BelowLess(a: Bytes, b: Bytes)
    requires Below(a, b)
    ensures Less(a, b) && !(a <= b) && !(b <= a)
  {
    BelowExtends(a, b, [], []);
    assert a + [] == a && b + [] == b;
    BelowNoPrefix(a, b);
  }

  lemma {:induction false} BelowNoPrefix(a: Bytes, b: Bytes)
    requires Below(a, b)
    ensures !(a <= b) && !(b <= a)
  {
    if a[0] == b[0] {
      var a', b' := a[1..], b[1..];
      BelowNoPrefix(a', b');
      assert a == [a[0]] + a' && b == [b[0]] + b';
      assert a <= b <==> a' <= b';
      assert b <= a <==> b' <= a';
    }
  }

  lemma {:induction false} LessAfter(p: Bytes, a: Bytes, b: Bytes)
    ensures Less(p + a, p + b) <==> Less(a, b)
  {
    if p == [] {
      assert p + a == a && p + b == b;
    } else {
      LessAfter(p[1..], a, b);
      assert (p + a)[1..] == p[1..] + a && (p + b)[1..] == p[1..] + b;
    }
  }
}
