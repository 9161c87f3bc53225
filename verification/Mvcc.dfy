/**
 * The transactional state of src/storage/mvcc.rs: what the engine's `NextVersion`, `TxnActive`,
 * `TxnActiveSnapshot`, `TxnWrite` and `Version` keys hold, and what each operation does to it.
 * Every operation runs under the engine mutex, so each is one atomic step.
 */
module Mvcc {
  import opened Common
  import opened Bytes
  import opened MvccKeys

  /** One stored version of a user key; no value is a deletion tombstone. */
  datatype Entry = Entry(key: Bytes, version: Version, value: Option<Bytes>)

  /** The order of encoded `Version(key, version)` keys, see MvccKeys.KeyOrder. */
  predicate Before(a: Entry, b: Entry) {
    Less(a.key, b.key) || (a.key == b.key && a.version < b.version)
  }

  predicate SameId(a: Entry, b: Entry) { a.key == b.key && a.version == b.version }

  predicate Sorted(s: seq<Entry>) {
    forall i, j :: 0 <= i < j < |s| ==> Before(s[i], s[j])
  }

  datatype Txn = Txn(version: Version, readOnly: bool, active: set<Version>)

  datatype Db = Db(
    next: Version,
    active: set<Version>,
    snapshots: map<Version, set<Version>>,
    writes: set<(Version, Bytes)>,
    versions: seq<Entry>)

  /** An empty engine: a missing `NextVersion` key reads as 1. */
  const EMPTY := Db(1, {}, map[], {}, [])

  /** `is_visible`. */
  predicate Visible(t: Txn, v: Version) {
    v !in t.active && if t.readOnly then v < t.version else v <= t.version
  }

  /** The stored versions a transaction may see, in key and version order. */
  function View(s: seq<Entry>, t: Txn): seq<Entry> {
    if s == [] then []
    else if Visible(t, s[0].version) then [s[0]] + View(s[1..], t)
    else View(s[1..], t)
  }

  /** What a sequence of versions says about a key: the value of its newest version. */
  function Lookup(s: seq<Entry>, k: Bytes): Option<Bytes> {
    if s == [] then None
    else if s[|s| - 1].key == k then s[|s| - 1].value
    else Lookup(s[..|s| - 1], k)
  }

  /** `get`. */
  function Get(db: Db, t: Txn, k: Bytes): Option<Bytes> { Lookup(View(db.versions, t), k) }

  /** The active set persisted for version `v`; none is stored when it was empty. */
  function Snapshot(db: Db, v: Version): set<Version> {
    if v in db.snapshots then db.snapshots[v] else {}
  }

  /** The state of the read-write transaction that began at version `v`. */
  function StateOf(db: Db, v: Version): Txn { Txn(v, false, Snapshot(db, v)) }

  // ---------------------------------------------------------------- operations

  function Begin(db: Db): (Db, Txn)
    requires db.next < MAX_VERSION
  {
    var v := db.next;
    var snapshots := if db.active == {} then db.snapshots else db.snapshots[v := db.active];
    (db.(next := v + 1, snapshots := snapshots, active := db.active + {v}), Txn(v, false, db.active))
  }

  /** `begin_read_only` at the latest version. */
  function BeginReadOnly(db: Db): Txn { Txn(db.next, true, db.active) }

  /** `begin_as_of`: an error if the version does not exist yet. */
  function BeginAsOf(db: Db, v: Version): Option<Txn> {
    if v >= db.next then None else Some(Txn(v, true, Snapshot(db, v)))
  }

  function Resume(db: Db, t: Txn): Option<Txn> {
    if !t.readOnly && t.version !in db.active then None else Some(t)
  }

  /**
   * The least version the conflict check looks at: the oldest transaction active at the start, or else the next
   * version.
   */
  ghost function ConflictFrom(t: Txn): nat {
    if t.active == {} then t.version + 1 else Least(t.active)
  }

  ghost function Least(s: set<Version>): (m: Version)
    requires s != {}
    ensures m in s && forall x :: x in s ==> m <= x
  {
    var x :| x in s;
    if s == {x} then x
    else
      assert s == (s - {x}) + {x};
      var m := Least(s - {x});
      if x < m then x else m
  }

  /** The newest stored version of `k` not below `from`. */
  function Newest(s: seq<Entry>, k: Bytes, from: nat): Option<Version> {
    if s == [] then None
    else if s[|s| - 1].key == k && s[|s| - 1].version >= from then Some(s[|s| - 1].version)
    else Newest(s[..|s| - 1], k, from)
  }

  /** The conflict check of `write_version`: only the newest version is tested. */
  ghost predicate Conflict(db: Db, t: Txn, k: Bytes) {
    var newest := Newest(db.versions, k, ConflictFrom(t));
    newest.Some? && !Visible(t, newest.value)
  }

  /** Stores an entry, replacing the one with the same key and version. */
  function Put(s: seq<Entry>, e: Entry): seq<Entry> {
    if s == [] || Before(e, s[0]) then [e] + s
    else if SameId(e, s[0]) then [e] + s[1..]
    else [s[0]] + Put(s[1..], e)
  }

  /** Deletes version `v` of the given keys. */
  function Drop(s: seq<Entry>, v: Version, keys: set<Bytes>): seq<Entry> {
    if s == [] then []
    else if s[0].version == v && s[0].key in keys then Drop(s[1..], v, keys)
    else [s[0]] + Drop(s[1..], v, keys)
  }

  datatype Outcome = Done(db: Db) | ReadOnly | Serialization

  /** `write_version`. */
  ghost function Write(db: Db, t: Txn, k: Bytes, x: Option<Bytes>): Outcome {
    if t.readOnly then ReadOnly
    else if Conflict(db, t, k) then Serialization
    else Done(db.(writes := db.writes + {(t.version, k)}, versions := Put(db.versions, Entry(k, t.version, x))))
  }

  /** The keys that a version has write records for. */
  function Written(db: Db, v: Version): set<Bytes> {
    set w <- db.writes | w.0 == v :: w.1
  }

  /** The write records of all other versions. */
  function OthersWrites(db: Db, v: Version): set<(Version, Bytes)> {
    set w <- db.writes | w.0 != v
  }

  function Commit(db: Db, t: Txn): Db {
    if t.readOnly then db
    else db.(writes := OthersWrites(db, t.version), active := db.active - {t.version})
  }

  function Rollback(db: Db, t: Txn): Db {
    if t.readOnly then db
    else
      db.(versions := Drop(db.versions, t.version, Written(db, t.version)),
          writes := OthersWrites(db, t.version),
          active := db.active - {t.version})
  }

  // ---------------------------------------------------------------- sequences of versions

  lemma BeforeTotal(a: Entry, b: Entry)
    ensures SameId(a, b) || Before(a, b) || Before(b, a)
  {
    LessTotal(a.key, b.key);
  }

  lemma BeforeStrict(a: Entry, b: Entry)
    requires Before(a, b)
    ensures !Before(b, a) && !SameId(a, b)
  {
    LessIrreflexive(a.key);
    if Less(a.key, b.key) { LessAsymmetric(a.key, b.key); }
  }

  lemma BeforeTransitive(a: Entry, b: Entry, c: Entry)
    requires Before(a, b) && Before(b, c)
    ensures Before(a, c)
  {
    if Less(a.key, b.key) && Less(b.key, c.key) { LessTransitive(a.key, b.key, c.key); }
  }

  lemma {:induction false} PutSorts(s: seq<Entry>, e: Entry)
    requires Sorted(s)
    ensures Sorted(Put(s, e))
    ensures forall x :: x in Put(s, e) <==> x == e || (x in s && !SameId(x, e))
  {
    if s != [] {
      BeforeTotal(e, s[0]);
      assert s == [s[0]] + s[1..];
      forall x | x in s[1..] ensures Before(s[0], x) {}
      if Before(e, s[0]) {
        forall x | x in s ensures Before(e, x) && !SameId(x, e) {
          if x != s[0] { BeforeTransitive(e, s[0], x); }
          BeforeStrict(e, x);
        }
      } else if SameId(e, s[0]) {
        forall x | x in s[1..] ensures Before(e, x) && !SameId(x, e) { BeforeStrict(s[0], x); }
      } else {
        PutSorts(s[1..], e);
        var tail := Put(s[1..], e);
        forall x | x in tail ensures Before(s[0], x) {}
      }
    }
  }

  lemma {:induction false} DropMembers(s: seq<Entry>, v: Version, keys: set<Bytes>)
    requires Sorted(s)
    ensures Sorted(Drop(s, v, keys))
    ensures forall x :: x in Drop(s, v, keys) <==> x in s && !(x.version == v && x.key in keys)
  {
    if s != [] {
      assert s == [s[0]] + s[1..];
      DropMembers(s[1..], v, keys);
      forall x | x in s[1..] ensures Before(s[0], x) {}
    }
  }

  lemma {:induction false} ViewMembers(s: seq<Entry>, t: Txn)
    requires Sorted(s)
    ensures Sorted(View(s, t))
    ensures forall x :: x in View(s, t) <==> x in s && Visible(t, x.version)
  {
    if s != [] {
      assert s == [s[0]] + s[1..];
      ViewMembers(s[1..], t);
      forall x | x in s[1..] ensures Before(s[0], x) {}
    }
  }
}
