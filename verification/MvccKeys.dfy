/**
 * The engine keys of src/storage/mvcc.rs and the byte ranges its scans use. Every range
 * must select exactly the intended kind of key out of one shared, byte-ordered keyspace.
 */
module MvccKeys {
  import opened Bytes
  import opened Keycode

  type Version = v: int | 0 <= v < TWO64

  const MAX_VERSION: Version := TWO64 - 1

  datatype Key =
    | NextVersion
    | TxnActive(version: Version)
    | TxnActiveSnapshot(version: Version)
    | TxnWrite(version: Version, key: Bytes)
    | Versioned(key: Bytes, version: Version)
    | Unversioned(key: Bytes)

  function Index(k: Key): Byte {
    match k
    case NextVersion => 0
    case TxnActive(_) => 1
    case TxnActiveSnapshot(_) => 2
    case TxnWrite(_, _) => 3
    case Versioned(_, _) => 4
    case Unversioned(_) => 5
  }

  function Fields(k: Key): Values {
    match k
    case NextVersion => NoValues
    case TxnActive(v) => Values(U64(v), NoValues)
    case TxnActiveSnapshot(v) => Values(U64(v), NoValues)
    case TxnWrite(v, u) => Values(U64(v), Values(Str(u), NoValues))
    case Versioned(u, v) => Values(Str(u), Values(U64(v), NoValues))
    case Unversioned(u) => Values(Str(u), NoValues)
  }

  function ToValue(k: Key): Value { Enum(Index(k), Fields(k)) }

  function EncodeKey(k: Key): Bytes { Encode(ToValue(k)) }

  lemma EncodedOne(i: Byte, v: Value)
    ensures Encode(Enum(i, Values(v, NoValues))) == [i] + Encode(v)
  {
    assert EncodeFields(Values(v, NoValues)) == Encode(v) + [];
  }

  lemma EncodedTwo(i: Byte, v: Value, w: Value)
    ensures Encode(Enum(i, Values(v, Values(w, NoValues)))) == [i] + (Encode(v) + Encode(w))
  {
    assert EncodeFields(Values(w, NoValues)) == Encode(w) + [];
    assert EncodeFields(Values(v, Values(w, NoValues))) == Encode(v) + Encode(w);
  }

  const ONE_VERSION := Types(TU64, NoTypes)
  const KEY_TYPE := TEnum([NoTypes, ONE_VERSION, ONE_VERSION, Types(TU64, Types(TBytes, NoTypes)),
                           Types(TBytes, ONE_VERSION), Types(TBytes, NoTypes)])

  lemma KeyHasType(k: Key)
    ensures HasType(ToValue(k), KEY_TYPE)
  {
    var ts := KEY_TYPE.variants[Index(k)];
    if !k.NextVersion? {
      var vs' := Fields(k).tail;
      assert HasType(Fields(k).head, ts.head);
      assert HaveTypes(NoValues, NoTypes);
      assert vs'.Values? ==> HasType(vs'.head, ts.tail.head);
      assert HaveTypes(vs', ts.tail);
    }
  }

  /** Kinds in declaration order, then fields in declaration order. */
  predicate KeyLess(a: Key, b: Key) {
    Index(a) < Index(b)
    || match (a, b)
       case (TxnActive(v), TxnActive(w)) => v < w
       case (TxnActiveSnapshot(v), TxnActiveSnapshot(w)) => v < w
       case (TxnWrite(v, u), TxnWrite(w, x)) => v < w || (v == w && Less(u, x))
       case (Versioned(u, v), Versioned(x, w)) => Less(u, x) || (u == x && v < w)
       case (Unversioned(u), Unversioned(x)) => Less(u, x)
       case _ => false
  }

  /** The engine's byte order is the order of the keys, and distinct keys have distinct encodings. */
  lemma KeyOrder(a: Key, b: Key)
    ensures Less(EncodeKey(a), EncodeKey(b)) <==> KeyLess(a, b)
    ensures EncodeKey(a) == EncodeKey(b) <==> a == b
  {
    KeyHasType(a);
    KeyHasType(b);
    OrderPreserved(ToValue(a), ToValue(b), KEY_TYPE, [], []);
    OrderPreserved(ToValue(b), ToValue(a), KEY_TYPE, [], []);
    KeyPrecedes(a, b);
    LessIrreflexive(EncodeKey(a));
    assert ToValue(a) == ToValue(b) <==> a == b;
  }

  lemma KeyPrecedes(a: Key, b: Key)
    ensures Precedes(ToValue(a), ToValue(b)) <==> KeyLess(a, b)
  {
    assert Precedes(ToValue(a), ToValue(b))
      <==> Index(a) < Index(b) || (Index(a) == Index(b) && PrecedesFields(Fields(a), Fields(b)));
    if Index(a) == Index(b) && a.NextVersion? {
    } else if Index(a) == Index(b) {
      var va, vb := Fields(a), Fields(b);
      assert PrecedesFields(va, vb)
        <==> Precedes(va.head, vb.head) || (va.head == vb.head && PrecedesFields(va.tail, vb.tail));
      if a.TxnWrite? || a.Versioned? {
        assert PrecedesFields(va.tail, vb.tail) <==> Precedes(va.tail.head, vb.tail.head);
      }
    }
  }

  /** A scan over `Version(k, lo)..=Version(k, hi)` yields exactly the versions of `k` between them. */
  lemma OneKeyRange(k: Bytes, lo: Version, hi: Version, x: Key)
    ensures InRange(Included(EncodeKey(Versioned(k, lo))), Included(EncodeKey(Versioned(k, hi))), EncodeKey(x))
       <==> x.Versioned? && x.key == k && lo <= x.version <= hi
  {
    var a, b := Versioned(k, lo), Versioned(k, hi);
    KeyOrder(a, x);
    KeyOrder(x, b);
    if x.Versioned? {
      LessIrreflexive(k);
      if Less(k, x.key) { LessAsymmetric(k, x.key); }
    }
  }

  // ---------------------------------------------------------------- ranges of user keys

  function ScanStart(lo: Bound): Bound {
    match lo
    case Excluded(k) => Excluded(EncodeKey(Versioned(k, MAX_VERSION)))
    case Included(k) => Included(EncodeKey(Versioned(k, 0)))
    case Unbounded => Included(EncodeKey(Versioned([], 0)))
  }

  function ScanEnd(hi: Bound): Bound {
    match hi
    case Excluded(k) => Excluded(EncodeKey(Versioned(k, 0)))
    case Included(k) => Included(EncodeKey(Versioned(k, MAX_VERSION)))
    case Unbounded => Excluded([5])
  }

  lemma StartExact(lo: Bound, x: Key)
    ensures InRange(ScanStart(lo), Unbounded, EncodeKey(x))
       <==> x.Unversioned? || (x.Versioned? && InRange(lo, Unbounded, x.key))
  {
    match lo {
      case Excluded(k) => KeyOrder(Versioned(k, MAX_VERSION), x);
      case Included(k) => KeyOrder(Versioned(k, 0), x);
      case Unbounded => KeyOrder(Versioned([], 0), x);
    }
  }

  lemma BelowKind(e: Bytes, b: Byte)
    requires e != []
    ensures Less(e, [b]) <==> e[0] < b
  {
    assert [b][1..] == [];
    assert !Less(e[1..], []);
  }

  lemma EndExact(hi: Bound, x: Key)
    ensures InRange(Unbounded, ScanEnd(hi), EncodeKey(x))
       <==> Index(x) < 4 || (x.Versioned? && InRange(Unbounded, hi, x.key))
  {
    match hi {
      case Excluded(k) => KeyOrder(x, Versioned(k, 0));
      case Included(k) => KeyOrder(x, Versioned(k, MAX_VERSION));
      case Unbounded => BelowKind(EncodeKey(x), 5);
    }
  }

  /** `scan`: exactly the versions of the user keys in the given range, for every kind of bound. */
  lemma ScanRangeExact(lo: Bound, hi: Bound, x: Key)
    ensures InRange(ScanStart(lo), ScanEnd(hi), EncodeKey(x)) <==> x.Versioned? && InRange(lo, hi, x.key)
  {
    StartExact(lo, x);
    EndExact(hi, x);
  }

  // ---------------------------------------------------------------- prefixes

  /** Dropping the terminator turns a whole-key match into a prefix match, despite the escaping of zero bytes. */
  lemma {:induction false} EscapedPrefix(p: Bytes, u: Bytes, rest: Bytes)
    ensures Escape(p) <= Escape(u) + [0, 0] + rest <==> p <= u
  {
    var e := Escape(u) + [0, 0] + rest;
    if p == [] {
    } else if u == [] {
      assert e == [0, 0] + rest;
      assert Escape(p)[0] == p[0] && (p[0] == 0 ==> Escape(p)[1] == 255);
    } else if p[0] != u[0] {
      assert Escape(p)[0] == p[0] && e[0] == u[0];
    } else {
      EscapedPrefix(p[1..], u[1..], rest);
      var c: Bytes := if p[0] == 0 then [0, 255] else [p[0]];
      var e' := Escape(u[1..]) + [0, 0] + rest;
      assert Escape(p) == c + Escape(p[1..]) && e == c + e';
      AfterCommon(c, Escape(p[1..]), e');
      AfterCommon([p[0]], p[1..], u[1..]);
      assert p == [p[0]] + p[1..] && u == [p[0]] + u[1..];
    }
  }

  lemma AfterCommon(c: Bytes, a: Bytes, b: Bytes)
    ensures c + a <= c + b <==> a <= b
  {
    assert (c + a)[|c|..] == a && (c + b)[|c|..] == b;
    if c + a <= c + b {
      assert forall i :: 0 <= i < |a| ==> a[i] == (c + a)[|c| + i];
      assert forall i :: 0 <= i < |b| ==> b[i] == (c + b)[|c| + i];
    }
  }

  /** The prefix `scan_prefix` uses: the encoding of `KeyPrefix::Version(p)` without its last two bytes. */
  function ChoppedPrefix(p: Bytes): Bytes {
    var encoded := Encode(Enum(4, Values(Str(p), NoValues)));
    EncodedOne(4, Str(p));
    encoded[..|encoded| - 2]
  }

  /** `scan_prefix`: exactly the versions of the user keys that start with the prefix. */
  lemma ScanPrefixExact(p: Bytes, x: Key)
    ensures InRange(Included(ChoppedPrefix(p)), PrefixEnd(ChoppedPrefix(p)), EncodeKey(x))
      <==> x.Versioned? && p <= x.key
  {
    hide InRange, PrefixEnd, BigEndian, Escape;
    var c := ChoppedPrefix(p);
    EncodedOne(4, Str(p));
    assert c == [4] + Escape(p);
    PrefixRangeExact(c, EncodeKey(x));
    assert EncodeKey(x)[0] == Index(x) && c[0] == 4;
    if x.Versioned? {
      EscapedPrefix(p, x.key, BigEndian(x.version, 8));
      EncodedTwo(4, Str(x.key), U64(x.version));
      AfterCommon([4], Escape(p), Escape(x.key) + [0, 0] + BigEndian(x.version, 8));
    }
  }

  /** The active set scan reads exactly the `TxnActive` keys. */
  lemma ActivePrefixExact(x: Key)
    ensures InRange(Included([1]), PrefixEnd([1]), EncodeKey(x)) <==> x.TxnActive?
  {
    PrefixRangeExact([1], EncodeKey(x));
    assert EncodeKey(x)[0] == Index(x);
  }

  /** The encoding of `KeyPrefix::TxnWrite(v)`. */
  function WritePrefix(v: Version): Bytes { Encode(Enum(3, Values(U64(v), NoValues))) }

  /** The write scan of a transaction reads exactly its own `TxnWrite` records. */
  lemma WritePrefixExact(v: Version, x: Key)
    ensures InRange(Included(WritePrefix(v)), PrefixEnd(WritePrefix(v)), EncodeKey(x))
      <==> x.TxnWrite? && x.version == v
  {
    hide InRange, PrefixEnd, BigEndian, Escape;
    PrefixRangeExact(WritePrefix(v), EncodeKey(x));
    EncodedOne(3, U64(v));
    var b := BigEndian(v, 8);
    assert WritePrefix(v) == [3] + b;
    assert EncodeKey(x)[0] == Index(x);
    if x.TxnWrite? {
      EncodedTwo(3, U64(x.version), Str(x.key));
      var c := BigEndian(x.version, 8);
      AfterCommon([3], b, c + Encode(Str(x.key)));
      assert b <= c + Encode(Str(x.key)) <==> b == c;
      Power8();
      BigEndianBack(v, 8);
      BigEndianBack(x.version, 8);
    }
  }
}
