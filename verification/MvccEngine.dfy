/**
 * The state of src/storage/mvcc.rs in the one byte-keyed engine it is stored in: every kind of key shares the
 * keyspace, and each is read back by a byte range or a byte prefix. Values are taken as decoded.
 */
module MvccEngine {
  import opened Common
  import opened Bytes
  import opened Keycode
  import opened MvccKeys
  import M = Mvcc
  import S = MvccScan

  datatype Cell = Number(n: Version) | Versions(set_: set<Version>) | Contents(value: Option<Bytes>) | Nothing

  type Engine = map<Bytes, Cell>

  // ---------------------------------------------------------------- decoding keys

  /** `Key::decode`. */
  function DecodeKey(b: Bytes): Option<Key> {
    match Deserialize(KEY_TYPE, b)
    case None => None
    case Some(v) => FromValue(v)
  }

  function FromValue(v: Value): Option<Key> {
    match v
    case Enum(0, NoValues) => Some(NextVersion)
    case Enum(1, Values(U64(n), NoValues)) => if n < TWO64 then Some(TxnActive(n)) else None
    case Enum(2, Values(U64(n), NoValues)) => if n < TWO64 then Some(TxnActiveSnapshot(n)) else None
    case Enum(3, Values(U64(n), Values(Str(u), NoValues))) => if n < TWO64 then Some(TxnWrite(n, u)) else None
    case Enum(4, Values(Str(u), Values(U64(n), NoValues))) => if n < TWO64 then Some(Versioned(u, n)) else None
    case Enum(5, Values(Str(u), NoValues)) => Some(Unversioned(u))
    case _ => None
  }

  /** Keys decode from exactly their encodings. */
  lemma DecodesKey(b: Bytes, k: Key)
    ensures DecodeKey(b) == Some(k) <==> b == EncodeKey(k)
  {
    hide Deserialize, Encode, HasType, ToValue, FromValue;
    KeyHasType(k);
    RoundTrip(KEY_TYPE, b, ToValue(k));
    FromToValue(ToValue(k), k);
    if Deserialize(KEY_TYPE, b).Some? { FromToValue(Deserialize(KEY_TYPE, b).value, k); }
  }

  lemma FromToValue(v: Value, k: Key)
    ensures FromValue(v) == Some(k) <==> v == ToValue(k)
  {}

  // ---------------------------------------------------------------- what the engine holds

  /** The state has this value under this key. */
  ghost predicate HasCell(db: M.Db, k: Key, c: Cell) {
    match k
    case NextVersion => db.next > 1 && c == Number(db.next)
    case TxnActive(v) => v in db.active && c == Nothing
    case TxnActiveSnapshot(v) => v in db.snapshots && c == Versions(db.snapshots[v])
    case TxnWrite(v, u) => (v, u) in db.writes && c == Nothing
    case Versioned(u, v) => c.Contents? && M.Entry(u, v, c.value) in db.versions
    case Unversioned(_) => false
  }

  ghost predicate CellAgrees(e: Engine, db: M.Db, k: Key, c: Cell) {
    HasCell(db, k, c) <==> EncodeKey(k) in e && e[EncodeKey(k)] == c
  }

  /** The engine holds exactly the state, besides unversioned keys; every key in it is a key's encoding. */
  ghost predicate Represents(e: Engine, db: M.Db) {
    && (forall k: Key, c: Cell :: !k.Unversioned? ==> CellAgrees(e, db, k, c))
    && (forall b :: b in e ==> DecodeKey(b).Some?)
  }

  /** Two states differ in one key at most. */
  ghost predicate SameBut(db: M.Db, db': M.Db, k: Key) {
    forall k': Key, c: Cell :: k' != k ==> (HasCell(db', k', c) <==> HasCell(db, k', c))
  }

  lemma EmptyEngine()
    ensures Represents(map[], M.EMPTY)
  {}

  lemma CellAt(e: Engine, db: M.Db, k: Key, c: Cell)
    requires Represents(e, db) && !k.Unversioned?
    ensures HasCell(db, k, c) <==> EncodeKey(k) in e && e[EncodeKey(k)] == c
  {
    assert CellAgrees(e, db, k, c);
  }

  /** `engine.set`. */
  lemma Sets(e: Engine, db: M.Db, db': M.Db, k: Key, c: Cell)
    requires Represents(e, db) && SameBut(db, db', k) && !k.Unversioned?
    requires forall c' :: HasCell(db', k, c') <==> c' == c
    ensures Represents(e[EncodeKey(k) := c], db')
  {
    hide HasCell, EncodeKey, DecodeKey;
    var e' := e[EncodeKey(k) := c];
    forall k': Key, c': Cell | !k'.Unversioned? ensures CellAgrees(e', db', k', c') {
      assert CellAgrees(e, db, k', c');
      KeysDiffer(k, k');
    }
    DecodesKey(EncodeKey(k), k);
  }

  /** `engine.delete`. */
  lemma Deletes(e: Engine, db: M.Db, db': M.Db, k: Key)
    requires Represents(e, db) && SameBut(db, db', k) && !k.Unversioned?
    requires forall c' :: !HasCell(db', k, c')
    ensures Represents(e - {EncodeKey(k)}, db')
  {
    hide HasCell, EncodeKey, DecodeKey;
    var e' := e - {EncodeKey(k)};
    forall k': Key, c': Cell | !k'.Unversioned? ensures CellAgrees(e', db', k', c') {
      assert CellAgrees(e, db, k', c');
      KeysDiffer(k, k');
    }
  }

  /** Unversioned keys, which the SQL layer keeps its Raft index in, do not touch the state. */
  lemma UnversionedApart(e: Engine, db: M.Db, u: Bytes, c: Cell)
    requires Represents(e, db)
    ensures Represents(e[EncodeKey(Unversioned(u)) := c], db)
  {
    hide HasCell, EncodeKey, DecodeKey;
    var e' := e[EncodeKey(Unversioned(u)) := c];
    forall k': Key, c': Cell | !k'.Unversioned? ensures CellAgrees(e', db, k', c') {
      assert CellAgrees(e, db, k', c');
      KeysDiffer(Unversioned(u), k');
    }
    DecodesKey(EncodeKey(Unversioned(u)), Unversioned(u));
  }

  lemma KeysDiffer(a: Key, b: Key)
    ensures EncodeKey(a) == EncodeKey(b) <==> a == b
  {
    KeyOrder(a, b);
  }

  // ---------------------------------------------------------------- scans

  predicate Ascending(s: seq<Bytes>) { forall i, j :: 0 <= i < j < |s| ==> Less(s[i], s[j]) }

  /** `keys` is what the engine yields for a range. */
  ghost predicate Yields(e: Engine, lo: Bound, hi: Bound, keys: seq<Bytes>) {
    Ascending(keys) && forall b :: b in keys <==> b in e && InRange(lo, hi, b)
  }

  /** `engine.scan`. */
  method Scan(e: Engine, lo: Bound, hi: Bound) returns (keys: seq<Bytes>)
    ensures Yields(e, lo, hi, keys)
  {
    hide Less, InRange;
    keys := [];
    var todo := set b | b in e && InRange(lo, hi, b);
    ghost var all := todo;
    while todo != {}
      invariant todo <= all && Ascending(keys)
      invariant forall b :: b in keys <==> b in all && b !in todo
      invariant forall a, b :: a in keys && b in todo ==> Less(a, b)
      decreases |todo|
    {
      var least := LeastOf(todo);
      keys, todo := keys + [least], todo - {least};
    }
  }

  method LeastOf(s: set<Bytes>) returns (least: Bytes)
    requires s != {}
    ensures least in s && forall b :: b in s && b != least ==> Less(least, b)
  {
    hide Less;
    var left := s;
    least :| least in left;
    left := left - {least};
    while left != {}
      invariant left <= s && least in s
      invariant forall b :: b in s && b != least ==> b in left || Less(least, b)
      decreases |left|
    {
      var b :| b in left;
      LessTotal(least, b);
      left := left - {b};
      if Less(b, least) {
        forall c | c in s && c != b ensures c in left || Less(b, c) {
          if c != least && c !in left { LessTransitive(b, least, c); }
        }
        least := b;
      }
    }
  }

  /** Two ascending sequences of the same keys are one. */
  lemma {:induction false} AscendingUnique(a: seq<Bytes>, b: seq<Bytes>)
    requires Ascending(a) && Ascending(b) && forall x :: x in a <==> x in b
    ensures a == b
  {
    hide Less;
    if a != [] { assert a[0] in b; }
    if b != [] { assert b[0] in a; }
    if a != [] {
      FirstIsLeast(a, b);
      assert a == [a[0]] + a[1..] && b == [b[0]] + b[1..];
      forall x ensures x in a[1..] <==> x in b[1..] {
        LessIrreflexive(a[0]);
        if x in a[1..] { assert x in b && x != b[0]; }
        if x in b[1..] { assert x in a && x != a[0]; }
      }
      AscendingUnique(a[1..], b[1..]);
    }
  }

  lemma FirstIsLeast(a: seq<Bytes>, b: seq<Bytes>)
    requires Ascending(a) && Ascending(b) && a != [] && b != [] && forall x :: x in a <==> x in b
    ensures a[0] == b[0]
  {
    hide Less;
    if a[0] != b[0] {
      assert a[0] in b && b[0] in a;
      assert Less(a[0], b[0]) && Less(b[0], a[0]);
      LessAsymmetric(a[0], b[0]);
    }
  }

  /** A range in which only versions of user keys lie. */
  ghost predicate VersionsOnly(r: S.Range) {
    forall k: Key :: InRange(r.lo, r.hi, EncodeKey(k)) ==> k.Versioned?
  }

  /** The engine keys of entries. */
  function KeysOf(s: seq<M.Entry>): (r: seq<Bytes>)
    ensures |r| == |s| && forall i :: 0 <= i < |s| ==> r[i] == S.Encoded(s[i])
  {
    seq(|s|, i requires 0 <= i < |s| => S.Encoded(s[i]))
  }

  /** What the engine yields for such a range is the slice of the versions whose encodings lie in it. */
  lemma YieldsSlice(e: Engine, db: M.Db, r: S.Range, keys: seq<Bytes>)
    requires Represents(e, db) && M.Sorted(db.versions) && VersionsOnly(r) && Yields(e, r.lo, r.hi, keys)
    ensures keys == KeysOf(S.Slice(db.versions, r))
  {
    hide Less, InRange, EncodeKey, Represents, S.Slice, M.Before;
    var slice := S.Slice(db.versions, r);
    S.SliceMembers(db.versions, r);
    SortedKeys(slice);
    forall b ensures b in keys <==> b in KeysOf(slice) {
      if b in keys { YieldsEntry(e, db, r, b); }
      if b in KeysOf(slice) {
        var i :| 0 <= i < |slice| && KeysOf(slice)[i] == b;
        EntryYields(e, db, slice[i]);
      }
    }
    AscendingUnique(keys, KeysOf(slice));
  }

  lemma SortedKeys(s: seq<M.Entry>)
    requires M.Sorted(s)
    ensures Ascending(KeysOf(s))
  {
    hide EncodeKey, Less, M.Before;
    forall i, j | 0 <= i < j < |s| ensures Less(KeysOf(s)[i], KeysOf(s)[j]) { S.EncodedBefore(s[i], s[j]); }
  }

  lemma YieldsEntry(e: Engine, db: M.Db, r: S.Range, b: Bytes)
    requires Represents(e, db) && M.Sorted(db.versions) && VersionsOnly(r) && b in e && InRange(r.lo, r.hi, b)
    ensures b in KeysOf(S.Slice(db.versions, r))
  {
    hide InRange, EncodeKey, S.Slice, M.Before, DecodeKey;
    var k := DecodeKey(b).value;
    DecodesKey(b, k);
    CellAt(e, db, k, e[b]);
    S.SliceMembers(db.versions, r);
    var entry := M.Entry(k.key, k.version, e[b].value);
    assert entry in S.Slice(db.versions, r);
    var i :| 0 <= i < |S.Slice(db.versions, r)| && S.Slice(db.versions, r)[i] == entry;
    assert KeysOf(S.Slice(db.versions, r))[i] == b;
  }

  /** A stored entry's value is under its key. */
  lemma EntryYields(e: Engine, db: M.Db, x: M.Entry)
    requires Represents(e, db) && x in db.versions
    ensures S.Encoded(x) in e && e[S.Encoded(x)] == Contents(x.value)
    ensures DecodeKey(S.Encoded(x)) == Some(Versioned(x.key, x.version))
  {
    hide EncodeKey, DecodeKey;
    CellAt(e, db, Versioned(x.key, x.version), Contents(x.value));
    DecodesKey(S.Encoded(x), Versioned(x.key, x.version));
  }

  /** Scanning a range of versions, with keys and values decoded. */
  method ScanVersions(e: Engine, r: S.Range, ghost db: M.Db) returns (entries: seq<M.Entry>)
    requires Represents(e, db) && M.Sorted(db.versions) && VersionsOnly(r)
    ensures entries == S.Slice(db.versions, r)
  {
    hide Represents, VersionsOnly, Yields, DecodeKey, EncodeKey, S.Slice, M.Sorted;
    var keys := Scan(e, r.lo, r.hi);
    YieldsSlice(e, db, r, keys);
    ghost var slice := S.Slice(db.versions, r);
    S.SliceMembers(db.versions, r);
    entries := [];
    for i := 0 to |keys|
      invariant entries == slice[..i]
    {
      EntryYields(e, db, slice[i]);
      var k := DecodeKey(keys[i]);
      if k.Some? && k.value.Versioned? && e[keys[i]].Contents? {
        entries := entries + [M.Entry(k.value.key, k.value.version, e[keys[i]].value)];
      }
    }
    assert slice[..|keys|] == slice;
  }
}
