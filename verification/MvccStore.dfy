/**
 * The methods and cursors of src/storage/mvcc.rs on the byte-keyed engine, against the operations of Mvcc and
 * MvccScan: what each reads it reads by key, byte range or byte prefix, and the engine represents the same state.
 */
module MvccStore {
  import opened Common
  import opened Bytes
  import opened Keycode
  import opened MvccKeys
  import opened MvccEngine
  import M = Mvcc
  import opened MvccInvariant
  import S = MvccScan

  datatype WriteResult = Accepted | ReadOnlyError | SerializationError

  function ResultOf(o: M.Outcome): WriteResult {
    match o
    case Done(_) => Accepted
    case ReadOnly => ReadOnlyError
    case Serialization => SerializationError
  }

  class Store {
    var cells: Engine
    // The state that the engine represents.
    ghost var db: M.Db

    ghost predicate Sound()
      reads this
    {
      Represents(cells, db) && Valid(db)
    }

    constructor ()
      ensures Sound() && db == M.EMPTY
    {
      cells, db := map[], M.EMPTY;
      EmptyEngine();
    }

    /** The version that the next transaction gets; a missing key reads as 1. */
    method NextToBegin() returns (version: Version)
      requires Sound()
      ensures version == db.next
    {
      hide Represents, EncodeKey;
      var k := EncodeKey(NextVersion);
      CellAt(cells, db, NextVersion, Number(db.next));
      version := if k in cells && cells[k].Number? then cells[k].n else 1;
      if k in cells { CellAt(cells, db, NextVersion, cells[k]); }
    }

    /** `scan_active`: the keys with the prefix of `TxnActive`, decoded. */
    method ScanActive() returns (active: set<Version>)
      requires Represents(cells, db)
      ensures active == db.active
    {
      hide Represents, EncodeKey, DecodeKey, PrefixEnd, InRange, Ascending;
      var keys := Scan(cells, Included([1]), PrefixEnd([1]));
      active := {};
      for i := 0 to |keys|
        invariant forall v: Version :: v in active <==> EncodeKey(TxnActive(v)) in keys[..i]
      {
        var k := DecodeKey(keys[i]);
        ActiveKey(cells, db, keys[i]);
        if k.Some? && k.value.TxnActive? {
          forall v: Version ensures keys[i] == EncodeKey(TxnActive(v)) <==> v == k.value.version {
            DecodesKey(keys[i], TxnActive(v));
          }
          active := active + {k.value.version};
        }
        assert keys[..i + 1] == keys[..i] + [keys[i]];
      }
      assert keys[..|keys|] == keys;
      forall v: Version ensures v in active <==> v in db.active {
        CellAt(cells, db, TxnActive(v), Nothing);
        ActivePrefixExact(TxnActive(v));
        if EncodeKey(TxnActive(v)) in cells { ActiveCell(cells, db, v); }
      }
    }

    method Begin() returns (t: M.Txn)
      requires Sound() && db.next < MAX_VERSION
      modifies this
      ensures Sound() && (db, t) == M.Begin(old(db))
    {
      hide Represents, EncodeKey, Valid;
      BeginKeeps(db);
      ValidSorted(db);
      var version := NextToBegin();
      StoreNext(cells, db, version + 1);
      cells, db := cells[EncodeKey(NextVersion) := Number(version + 1)], db.(next := version + 1);
      var active := ScanActive();
      if active != {} {
        StoreSnapshot(cells, db, version, active);
        cells := cells[EncodeKey(TxnActiveSnapshot(version)) := Versions(active)];
        db := db.(snapshots := db.snapshots[version := active]);
      }
      StoreActive(cells, db, version);
      cells, db := cells[EncodeKey(TxnActive(version)) := Nothing], db.(active := db.active + {version});
      t := M.Txn(version, false, active);
    }

    method BeginReadOnly(asOf: Option<Version>) returns (r: Option<M.Txn>)
      requires Sound()
      ensures r == if asOf.None? then Some(M.BeginReadOnly(db)) else M.BeginAsOf(db, asOf.value)
    {
      hide Represents, EncodeKey, Valid;
      var version := NextToBegin();
      var snapshot: set<Version> := {};
      if asOf.Some? {
        if asOf.value >= version { return None; }
        version := asOf.value;
        var k := EncodeKey(TxnActiveSnapshot(version));
        if k in cells && cells[k].Versions? { snapshot := cells[k].set_; }
        if k in cells { CellAt(cells, db, TxnActiveSnapshot(version), cells[k]); }
        if version in db.snapshots { CellAt(cells, db, TxnActiveSnapshot(version), Versions(db.snapshots[version])); }
      } else {
        snapshot := ScanActive();
      }
      r := Some(M.Txn(version, true, snapshot));
    }

    /** `resume`: a read-write transaction must still be active. */
    method Resume(t: M.Txn) returns (r: Option<M.Txn>)
      requires Sound()
      ensures r == M.Resume(db, t)
      ensures r == if t.readOnly || t.version in db.active then Some(t) else None
    {
      hide Represents, EncodeKey, Valid;
      var k := EncodeKey(TxnActive(t.version));
      CellAt(cells, db, TxnActive(t.version), Nothing);
      if k in cells { CellAt(cells, db, TxnActive(t.version), cells[k]); }
      r := if !t.readOnly && k !in cells then None else Some(t);
    }

    /** Where the conflict check starts: the first of the active set, or the version after our own. */
    method ConflictStart(t: M.Txn) returns (from: nat)
      ensures from == M.ConflictFrom(t)
    {
      if t.active == {} { return t.version + 1; }
      var left := t.active;
      var least :| least in left;
      from, left := least, left - {least};
      while left != {}
        invariant left <= t.active
        invariant from in t.active && forall v :: v in t.active ==> v in left || from <= v
        decreases |left|
      {
        var v :| v in left;
        if v < from { from := v; }
        left := left - {v};
      }
      assert M.Least(t.active) == from;
    }

    /** `write_version`: the last version in the range from the oldest concurrent one decides. */
    method Write(t: M.Txn, k: Bytes, x: Option<Bytes>) returns (r: WriteResult)
      requires Sound() && (!t.readOnly ==> t.version in db.active && t == M.StateOf(db, t.version))
      modifies this
      ensures Sound() && r == ResultOf(M.Write(old(db), t, k, x))
      ensures if r == Accepted then M.Write(old(db), t, k, x) == M.Done(db) else db == old(db)
    {
      hide Represents, EncodeKey, Valid, Recorded, Continuous, Seen, M.Put, M.ConflictFrom, M.Visible, M.Newest,
        S.Slice;
      if t.readOnly { return ReadOnlyError; }
      var from := ConflictStart(t);
      StartExists(db, t);
      var range := S.Range(Included(EncodeKey(Versioned(k, from))), Included(EncodeKey(Versioned(k, MAX_VERSION))));
      OneKeyOnly(k, from, MAX_VERSION);
      ValidSorted(db);
      var found := ScanVersions(cells, range, db);
      NewestIsLast(db.versions, k, from);
      if found != [] && !M.Visible(t, found[|found| - 1].version) { return SerializationError; }
      WriteKeeps(db, t.version, k, x);
      StoreWrite(cells, db, t.version, k);
      cells, db := cells[EncodeKey(TxnWrite(t.version, k)) := Nothing], db.(writes := db.writes + {(t.version, k)});
      StoreVersion(cells, db, M.Entry(k, t.version, x));
      cells := cells[EncodeKey(Versioned(k, t.version)) := Contents(x)];
      db := db.(versions := M.Put(db.versions, M.Entry(k, t.version, x)));
      r := Accepted;
    }

    /** The write records of a version, by their prefix. */
    method ScanWrites(v: Version) returns (keys: seq<Bytes>)
      requires Represents(cells, db)
      ensures Yields(cells, Included(WritePrefix(v)), PrefixEnd(WritePrefix(v)), keys)
      ensures forall b :: b in keys <==> exists u :: (v, u) in db.writes && b == EncodeKey(TxnWrite(v, u))
    {
      hide Represents, EncodeKey, PrefixEnd, InRange, Ascending, WritePrefix;
      keys := Scan(cells, Included(WritePrefix(v)), PrefixEnd(WritePrefix(v)));
      forall b ensures b in keys <==> exists u :: (v, u) in db.writes && b == EncodeKey(TxnWrite(v, u)) {
        WriteRecord(cells, db, v, b);
      }
    }

    method Commit(t: M.Txn)
      requires Sound() && (!t.readOnly ==> t.version in db.active && t == M.StateOf(db, t.version))
      modifies this
      ensures Sound() && db == M.Commit(old(db), t)
    {
      hide Represents, EncodeKey, DecodeKey, Valid, Yields;
      if t.readOnly { return; }
      CommitKeeps(db, t.version);
      var v := t.version;
      ghost var was := db;
      var remove := ScanWrites(v);
      StartRemoving(was, v, remove);
      for i := 0 to |remove|
        invariant Represents(cells, db) && db == was.(writes := db.writes)
        invariant Removing(was, v, remove, i, db.writes)
      {
        ghost var u := RecordAt(was, v, remove, i);
        RemoveWrite(cells, db, v, u);
        RemovingNext(was, v, remove, i, db.writes, u);
        cells, db := cells - {remove[i]}, db.(writes := db.writes - {(v, u)});
      }
      DoneRemoving(was, v, remove, db.writes);
      RemoveActive(cells, db, v);
      cells, db := cells - {EncodeKey(TxnActive(v))}, db.(active := db.active - {v});
    }

    method Rollback(t: M.Txn)
      requires Sound() && (!t.readOnly ==> t.version in db.active && t == M.StateOf(db, t.version))
      modifies this
      ensures Sound() && db == M.Rollback(old(db), t)
    {
      hide Represents, EncodeKey, DecodeKey, Valid, Yields, M.Drop, Removing;
      if t.readOnly { return; }
      RollbackKeeps(db, t.version);
      ValidSorted(db);
      var v := t.version;
      ghost var was := db;
      var remove := ScanWrites(v);
      StartRemoving(was, v, remove);
      DropNothing(was.versions, v);
      ghost var undone: set<Bytes> := {};
      for i := 0 to |remove|
        invariant Represents(cells, db) && db == was.(writes := db.writes, versions := db.versions)
        invariant db.versions == M.Drop(was.versions, v, undone) && undone == Undone(was, v, db.writes)
        invariant Removing(was, v, remove, i, db.writes)
      {
        ghost var u := RecordAt(was, v, remove, i);
        var record := DecodeKey(remove[i]);
        DecodesKey(remove[i], TxnWrite(v, u));
        DropMore(was.versions, v, undone, u);
        M.DropMembers(was.versions, v, undone);
        RemoveVersion(cells, db, v, u);
        if record.Some? && record.value.TxnWrite? {
          cells := cells - {EncodeKey(Versioned(record.value.key, v))};
          db := db.(versions := M.Drop(db.versions, v, {u}));
        }
        RemoveWrite(cells, db, v, u);
        RemovingNext(was, v, remove, i, db.writes, u);
        UndoneNext(was, v, db.writes, u);
        cells, db := cells - {remove[i]}, db.(writes := db.writes - {(v, u)});
        undone := undone + {u};
      }
      DoneRemoving(was, v, remove, db.writes);
      RemoveActive(cells, db, v);
      cells, db := cells - {EncodeKey(TxnActive(v))}, db.(active := db.active - {v});
      assert undone == M.Written(was, v);
    }

    method SetUnversioned(k: Bytes, x: Bytes)
      requires Sound()
      modifies this
      ensures Sound() && db == old(db) && cells == old(cells)[EncodeKey(Unversioned(k)) := Contents(Some(x))]
    {
      hide Represents, EncodeKey, Valid;
      UnversionedApart(cells, db, k, Contents(Some(x)));
      cells := cells[EncodeKey(Unversioned(k)) := Contents(Some(x))];
    }

    /** Walks the versions of the key downwards to the first visible one. */
    method Get(t: M.Txn, k: Bytes) returns (r: Option<Bytes>)
      requires Sound()
      ensures r == M.Get(db, t, k)
    {
      hide Represents, EncodeKey, Valid, M.Visible, S.Slice, M.Lookup, M.View;
      var range := S.Range(Included(EncodeKey(Versioned(k, 0))), Included(EncodeKey(Versioned(k, t.version))));
      OneKeyOnly(k, 0, t.version);
      ValidSorted(db);
      var found := ScanVersions(cells, range, db);
      VisibleInRange(db.versions, t, k);
      var i := |found|;
      assert found[..i] == found;
      while i > 0
        invariant 0 <= i <= |found|
        invariant M.Lookup(M.View(found, t), k) == M.Lookup(M.View(found[..i], t), k)
      {
        i := i - 1;
        SliceHasKey(db.versions, k, 0, t.version);
        assert found[i] in found && found[..i + 1] == found[..i] + [found[i]];
        ViewSnoc(found[..i], found[i], t);
        LookupLast(M.View(found[..i], t), found[i], k);
        if M.Visible(t, found[i].version) { return found[i].value; }
        assert M.View(found[..i], t) + [] == M.View(found[..i], t);
      }
      LookupNothing(t, k);
      r := None;
    }
  }

  // ---------------------------------------------------------------- cells and state change together

  lemma ActiveKey(e: Engine, db: M.Db, b: Bytes)
    requires Represents(e, db) && b in e && InRange(Included([1]), PrefixEnd([1]), b)
    ensures DecodeKey(b).Some? && DecodeKey(b).value.TxnActive?
  {
    hide EncodeKey, DecodeKey, InRange, PrefixEnd, HasCell;
    var k := DecodeKey(b).value;
    DecodesKey(b, k);
    ActivePrefixExact(k);
  }

  lemma ActiveCell(e: Engine, db: M.Db, v: Version)
    requires Represents(e, db) && EncodeKey(TxnActive(v)) in e
    ensures v in db.active
  {
    hide EncodeKey, Represents;
    CellAt(e, db, TxnActive(v), e[EncodeKey(TxnActive(v))]);
  }

  lemma StoreNext(e: Engine, db: M.Db, next: Version)
    requires Represents(e, db) && next > 1
    ensures Represents(e[EncodeKey(NextVersion) := Number(next)], db.(next := next))
  {
    hide EncodeKey, Represents;
    var db' := db.(next := next);
    assert SameBut(db, db', NextVersion);
    Sets(e, db, db', NextVersion, Number(next));
  }

  lemma StoreSnapshot(e: Engine, db: M.Db, v: Version, active: set<Version>)
    requires Represents(e, db)
    ensures Represents(e[EncodeKey(TxnActiveSnapshot(v)) := Versions(active)],
      db.(snapshots := db.snapshots[v := active]))
  {
    hide EncodeKey, Represents;
    var db' := db.(snapshots := db.snapshots[v := active]);
    assert SameBut(db, db', TxnActiveSnapshot(v));
    Sets(e, db, db', TxnActiveSnapshot(v), Versions(active));
  }

  lemma StoreActive(e: Engine, db: M.Db, v: Version)
    requires Represents(e, db)
    ensures Represents(e[EncodeKey(TxnActive(v)) := Nothing], db.(active := db.active + {v}))
  {
    hide EncodeKey, Represents;
    var db' := db.(active := db.active + {v});
    assert SameBut(db, db', TxnActive(v));
    Sets(e, db, db', TxnActive(v), Nothing);
  }

  lemma RemoveActive(e: Engine, db: M.Db, v: Version)
    requires Represents(e, db)
    ensures Represents(e - {EncodeKey(TxnActive(v))}, db.(active := db.active - {v}))
  {
    hide EncodeKey, Represents;
    var db' := db.(active := db.active - {v});
    assert SameBut(db, db', TxnActive(v));
    Deletes(e, db, db', TxnActive(v));
  }

  lemma StoreWrite(e: Engine, db: M.Db, v: Version, u: Bytes)
    requires Represents(e, db)
    ensures Represents(e[EncodeKey(TxnWrite(v, u)) := Nothing], db.(writes := db.writes + {(v, u)}))
  {
    hide EncodeKey, Represents;
    var db' := db.(writes := db.writes + {(v, u)});
    assert SameBut(db, db', TxnWrite(v, u));
    Sets(e, db, db', TxnWrite(v, u), Nothing);
  }

  lemma RemoveWrite(e: Engine, db: M.Db, v: Version, u: Bytes)
    requires Represents(e, db)
    ensures Represents(e - {EncodeKey(TxnWrite(v, u))}, db.(writes := db.writes - {(v, u)}))
  {
    hide EncodeKey, Represents;
    var db' := db.(writes := db.writes - {(v, u)});
    assert SameBut(db, db', TxnWrite(v, u));
    Deletes(e, db, db', TxnWrite(v, u));
  }

  lemma StoreVersion(e: Engine, db: M.Db, x: M.Entry)
    requires Represents(e, db) && M.Sorted(db.versions)
    ensures Represents(e[EncodeKey(Versioned(x.key, x.version)) := Contents(x.value)],
      db.(versions := M.Put(db.versions, x)))
  {
    hide EncodeKey, Represents, M.Put, M.Sorted;
    var db' := db.(versions := M.Put(db.versions, x));
    M.PutSorts(db.versions, x);
    assert SameBut(db, db', Versioned(x.key, x.version));
    Sets(e, db, db', Versioned(x.key, x.version), Contents(x.value));
  }

  lemma RemoveVersion(e: Engine, db: M.Db, v: Version, u: Bytes)
    requires Represents(e, db) && M.Sorted(db.versions)
    ensures Represents(e - {EncodeKey(Versioned(u, v))}, db.(versions := M.Drop(db.versions, v, {u})))
  {
    hide EncodeKey, Represents, M.Drop, M.Sorted;
    var db' := db.(versions := M.Drop(db.versions, v, {u}));
    M.DropMembers(db.versions, v, {u});
    assert SameBut(db, db', Versioned(u, v));
    Deletes(e, db, db', Versioned(u, v));
  }

  lemma ValidSorted(db: M.Db)
    requires Valid(db)
    ensures M.Sorted(db.versions) && Bounded(db)
  {}

  // ---------------------------------------------------------------- write records

  lemma WriteRecord(e: Engine, db: M.Db, v: Version, b: Bytes)
    requires Represents(e, db)
    ensures b in e && InRange(Included(WritePrefix(v)), PrefixEnd(WritePrefix(v)), b)
       <==> exists u :: (v, u) in db.writes && b == EncodeKey(TxnWrite(v, u))
  {
    hide EncodeKey, DecodeKey, InRange, PrefixEnd, Represents, WritePrefix;
    if b in e {
      DecodesAll(e, db, b);
      var k := DecodeKey(b).value;
      DecodesKey(b, k);
      WritePrefixExact(v, k);
      if k.TxnWrite? {
        CellAt(e, db, k, e[b]);
        assert k.version == v ==> (v, k.key) in db.writes && b == EncodeKey(TxnWrite(v, k.key));
      }
      forall u | b == EncodeKey(TxnWrite(v, u)) ensures k == TxnWrite(v, u) { DecodesKey(b, TxnWrite(v, u)); }
    } else {
      forall u | (v, u) in db.writes ensures b != EncodeKey(TxnWrite(v, u)) { CellAt(e, db, TxnWrite(v, u), Nothing); }
    }
  }

  lemma DecodesAll(e: Engine, db: M.Db, b: Bytes)
    requires Represents(e, db) && b in e
    ensures DecodeKey(b).Some?
  {}

  /** The first `n` of the write records of `v` have been removed. */
  ghost predicate Removing(was: M.Db, v: Version, remove: seq<Bytes>, n: nat, writes: set<(Version, Bytes)>) {
    && n <= |remove|
    && writes <= was.writes
    && (forall b :: b in remove <==> exists u :: (v, u) in was.writes && b == EncodeKey(TxnWrite(v, u)))
    && (forall w :: w in was.writes ==> (w in writes <==> w.0 != v || EncodeKey(TxnWrite(v, w.1)) !in remove[..n]))
  }

  lemma StartRemoving(was: M.Db, v: Version, remove: seq<Bytes>)
    requires forall b :: b in remove <==> exists u :: (v, u) in was.writes && b == EncodeKey(TxnWrite(v, u))
    ensures Removing(was, v, remove, 0, was.writes)
  {}

  /** The user key of a record. */
  lemma RecordAt(was: M.Db, v: Version, remove: seq<Bytes>, i: nat) returns (u: Bytes)
    requires i < |remove|
    requires forall b :: b in remove <==> exists u :: (v, u) in was.writes && b == EncodeKey(TxnWrite(v, u))
    ensures (v, u) in was.writes && remove[i] == EncodeKey(TxnWrite(v, u))
  {
    hide EncodeKey;
    assert remove[i] in remove;
    u :| (v, u) in was.writes && remove[i] == EncodeKey(TxnWrite(v, u));
  }

  lemma RemovingNext(was: M.Db, v: Version, remove: seq<Bytes>, i: nat, writes: set<(Version, Bytes)>, u: Bytes)
    requires Removing(was, v, remove, i, writes) && i < |remove|
    requires (v, u) in was.writes && remove[i] == EncodeKey(TxnWrite(v, u))
    ensures Removing(was, v, remove, i + 1, writes - {(v, u)})
  {
    hide EncodeKey;
    assert remove[..i + 1] == remove[..i] + [remove[i]];
    forall w | w in was.writes && w.0 == v ensures EncodeKey(TxnWrite(v, w.1)) == remove[i] <==> w == (v, u) {
      KeysDiffer(TxnWrite(v, w.1), TxnWrite(v, u));
    }
  }

  lemma DoneRemoving(was: M.Db, v: Version, remove: seq<Bytes>, writes: set<(Version, Bytes)>)
    requires Removing(was, v, remove, |remove|, writes)
    ensures writes == M.OthersWrites(was, v)
  {
    hide EncodeKey;
    assert remove[..|remove|] == remove;
    forall w | w in was.writes && w.0 == v
      ensures EncodeKey(TxnWrite(v, w.1)) in remove { assert (v, w.1) in was.writes; }
  }

  /** The user keys whose records have been removed. */
  ghost function Undone(was: M.Db, v: Version, writes: set<(Version, Bytes)>): set<Bytes> {
    set w <- was.writes | w.0 == v && w !in writes :: w.1
  }

  lemma UndoneNext(was: M.Db, v: Version, writes: set<(Version, Bytes)>, u: Bytes)
    requires (v, u) in was.writes
    ensures Undone(was, v, writes - {(v, u)}) == Undone(was, v, writes) + {u}
  {
    assert (v, u).1 == u;
  }

  // ---------------------------------------------------------------- ranges of one key

  lemma OneKeyOnly(k: Bytes, lo: Version, hi: Version)
    ensures VersionsOnly(S.Range(Included(EncodeKey(Versioned(k, lo))), Included(EncodeKey(Versioned(k, hi)))))
  {
    hide EncodeKey, InRange;
    forall x: Key | InRange(Included(EncodeKey(Versioned(k, lo))), Included(EncodeKey(Versioned(k, hi))), EncodeKey(x))
      ensures x.Versioned?
    {
      OneKeyRange(k, lo, hi, x);
    }
  }

  /** The slice of one key's versions. */
  ghost function OneKeySlice(s: seq<M.Entry>, k: Bytes, lo: Version, hi: Version): seq<M.Entry> {
    S.Slice(s, S.Range(Included(EncodeKey(Versioned(k, lo))), Included(EncodeKey(Versioned(k, hi)))))
  }

  lemma {:induction false} SliceSnoc(s: seq<M.Entry>, e: M.Entry, r: S.Range)
    ensures S.Slice(s + [e], r) == S.Slice(s, r) + if InRange(r.lo, r.hi, S.Encoded(e)) then [e] else []
  {
    hide InRange, EncodeKey;
    if s == [] {
      assert s + [e] == [e];
    } else {
      SliceSnoc(s[1..], e, r);
      assert (s + [e])[1..] == s[1..] + [e];
    }
  }

  /** The newest version of the conflict check is the last one the range scan yields. */
  lemma {:induction false} NewestIsLast(s: seq<M.Entry>, k: Bytes, from: Version)
    ensures var found := OneKeySlice(s, k, from, MAX_VERSION);
      M.Newest(s, k, from) == if found == [] then None else Some(found[|found| - 1].version)
  {
    hide InRange, EncodeKey, S.Slice;
    if s == [] {
      assert OneKeySlice(s, k, from, MAX_VERSION) == [] by { SliceEmpty(k, from); }
    } else {
      var m := |s| - 1;
      NewestIsLast(s[..m], k, from);
      assert s == s[..m] + [s[m]];
      SliceSnoc(s[..m], s[m],
        S.Range(Included(EncodeKey(Versioned(k, from))), Included(EncodeKey(Versioned(k, MAX_VERSION)))));
      OneKeyRange(k, from, MAX_VERSION, Versioned(s[m].key, s[m].version));
    }
  }

  lemma SliceEmpty(k: Bytes, from: Version)
    ensures OneKeySlice([], k, from, MAX_VERSION) == []
  {}

  /** The conflict check starts at a version. */
  lemma StartExists(db: M.Db, t: M.Txn)
    requires Valid(db) && !t.readOnly && t.version in db.active
    ensures 0 <= M.ConflictFrom(t) < TWO64
  {
    hide Recorded, Continuous, Seen, M.Sorted;
  }

  lemma {:induction false} SliceHasKey(s: seq<M.Entry>, k: Bytes, lo: Version, hi: Version)
    ensures forall e :: e in OneKeySlice(s, k, lo, hi) ==> e.key == k
  {
    hide InRange, EncodeKey;
    if s != [] {
      SliceHasKey(s[1..], k, lo, hi);
      OneKeyRange(k, lo, hi, Versioned(s[0].key, s[0].version));
    }
  }

  /** What a transaction sees of a key lies in the range it reads. */
  lemma {:induction false} VisibleInRange(s: seq<M.Entry>, t: M.Txn, k: Bytes)
    ensures M.Lookup(M.View(OneKeySlice(s, k, 0, t.version), t), k) == M.Lookup(M.View(s, t), k)
  {
    hide InRange, EncodeKey, S.Slice, M.Lookup, M.View, M.Visible;
    if s == [] {
      assert OneKeySlice(s, k, 0, t.version) == s by { NothingSliced(k, t.version); }
    } else {
      var m := |s| - 1;
      VisibleInRange(s[..m], t, k);
      assert s == s[..m] + [s[m]];
      OneKeyRange(k, 0, t.version, Versioned(s[m].key, s[m].version));
      SliceSnoc(s[..m], s[m],
        S.Range(Included(EncodeKey(Versioned(k, 0))), Included(EncodeKey(Versioned(k, t.version)))));
      var slice := OneKeySlice(s[..m], k, 0, t.version);
      assert slice + [] == slice;
      ViewSnoc(s[..m], s[m], t);
      ViewSnoc(slice, s[m], t);
      VisibleAtMost(t, s[m].version);
      LookupLast(M.View(s[..m], t), s[m], k);
      LookupLast(M.View(slice, t), s[m], k);
      assert M.View(s[..m], t) + [] == M.View(s[..m], t) && M.View(slice, t) + [] == M.View(slice, t);
    }
  }

  lemma NothingSliced(k: Bytes, hi: Version)
    ensures OneKeySlice([], k, 0, hi) == []
  {}

  lemma VisibleAtMost(t: M.Txn, v: Version)
    ensures M.Visible(t, v) ==> v <= t.version
  {}

  lemma LookupLast(s: seq<M.Entry>, e: M.Entry, k: Bytes)
    ensures M.Lookup(s + [e], k) == if e.key == k then e.value else M.Lookup(s, k)
  {
    assert (s + [e])[..|s|] == s;
  }

  lemma LookupNothing(t: M.Txn, k: Bytes)
    ensures M.Lookup(M.View([], t), k) == None
  {}

  lemma {:induction false} ViewSnoc(s: seq<M.Entry>, e: M.Entry, t: M.Txn)
    ensures M.View(s + [e], t) == M.View(s, t) + if M.Visible(t, e.version) then [e] else []
  {
    if s == [] {
      assert s + [e] == [e];
    } else {
      ViewSnoc(s[1..], e, t);
      assert (s + [e])[1..] == s[1..] + [e];
    }
  }

  lemma {:induction false} DropNothing(s: seq<M.Entry>, v: Version)
    ensures M.Drop(s, v, {}) == s
  {
    if s != [] { DropNothing(s[1..], v); }
  }

  lemma {:induction false} DropMore(s: seq<M.Entry>, v: Version, keys: set<Bytes>, k: Bytes)
    ensures M.Drop(M.Drop(s, v, keys), v, {k}) == M.Drop(s, v, keys + {k})
  {
    if s != [] {
      DropMore(s[1..], v, keys, k);
      var rest := M.Drop(s[1..], v, keys);
      assert ([s[0]] + rest)[1..] == rest;
    }
  }

  /** Decodes engine entries and skips those the transaction may not see. */
  class VersionIterator {
    const txn: M.Txn
    var inner: seq<M.Entry>

    constructor (txn: M.Txn, inner: seq<M.Entry>)
      ensures this.txn == txn && this.inner == inner
    {
      this.txn, this.inner := txn, inner;
    }

    method TryNext() returns (r: Option<M.Entry>)
      modifies this
      ensures r.None? ==> M.View(old(inner), txn) == [] && M.View(inner, txn) == []
      ensures r.Some? ==> M.View(old(inner), txn) == [r.value] + M.View(inner, txn)
    {
      while inner != []
        invariant M.View(inner, txn) == M.View(old(inner), txn)
        decreases |inner|
      {
        var e := inner[0];
        inner := inner[1..];
        if M.Visible(txn, e.version) { return Some(e); }
      }
      r := None;
    }
  }

  /** A scan that buffers rows and lets go of the engine between refills. */
  class ScanIterator {
    const store: Store
    const txn: M.Txn
    const size: nat
    var buffer: seq<S.Row>
    var remainder: Option<S.Range>

    /** The range is one that `scan` or `scan_prefix` make: only versions lie in it. */
    ghost predicate Reading()
      reads this, store
    {
      store.Sound() && (remainder.Some? ==> VersionsOnly(remainder.value))
    }

    constructor (store: Store, txn: M.Txn, range: S.Range, size: nat)
      requires store.Sound() && VersionsOnly(range)
      ensures Reading()
      ensures this.store == store && this.txn == txn && this.size == size && Progress() == S.ScanFrom(txn, range)
    {
      this.store, this.txn, this.size, buffer, remainder := store, txn, size, [], Some(range);
    }

    function Progress(): S.Scan
      reads this
    {
      S.Scan(txn, buffer, remainder)
    }

    method FillBuffer()
      requires Reading()
      modifies this
      ensures Reading() && Progress() == S.Fill(old(Progress()), store.db.versions, size)
    {
      hide Represents, Valid, VersionsOnly, S.Slice, InRange;
      if |buffer| >= size || remainder.None? { return; }
      var range := remainder.value;
      remainder := None;
      ValidSorted(store.db);
      var slice := ScanVersions(store.cells, range, store.db);
      ghost var all := M.View(slice, txn);
      var iter := new VersionIterator(txn, slice);
      var item := iter.TryNext();
      ghost var rest := all;
      while item.Some?
        invariant iter.txn == txn && fresh(iter)
        invariant remainder.None? && store.Sound() && store.db == old(store.db)
        invariant all == M.View(S.Slice(store.db.versions, range), txn)
        invariant forall x :: x in rest ==> x in all
        invariant rest == (if item.Some? then [item.value] else []) + M.View(iter.inner, txn)
        invariant item.None? ==> rest == []
        invariant S.Pull(rest, buffer, size) == S.Pull(all, old(buffer), size)
        decreases |rest|
      {
        var e := item.value;
        var peeked := iter.TryNext();
        ghost var tail := rest[1..];
        assert tail == (if peeked.Some? then [peeked.value] else []) + M.View(iter.inner, txn);
        if !(peeked.Some? && peeked.value.key == e.key) && e.value.Some? {
          buffer := buffer + [S.Row(e.key, e.value.value)];
          if |buffer| == size {
            if peeked.Some? {
              RestOnly(store.db.versions, range, txn, peeked.value);
              remainder := Some(S.Range(Included(S.Encoded(peeked.value)), range.hi));
            }
            return;
          }
        }
        item, rest := peeked, tail;
      }
    }

    method Next() returns (r: Option<S.Row>)
      requires Reading()
      modifies this
      ensures Reading() && (Progress(), r) == S.Next(old(Progress()), store.db.versions, size)
    {
      hide S.Fill;
      if buffer == [] { FillBuffer(); }
      if buffer == [] { return None; }
      r := Some(buffer[0]);
      buffer := buffer[1..];
    }
  }

  /** The rest of a range, from an entry of it, also holds only versions. */
  lemma RestOnly(s: seq<M.Entry>, r: S.Range, t: M.Txn, e: M.Entry)
    requires VersionsOnly(r) && M.Sorted(s) && e in M.View(S.Slice(s, r), t)
    ensures VersionsOnly(S.Range(Included(S.Encoded(e)), r.hi))
  {
    hide EncodeKey, S.Slice, M.View, M.Before;
    S.SliceMembers(s, r);
    M.ViewMembers(S.Slice(s, r), t);
    forall k: Key | InRange(Included(S.Encoded(e)), r.hi, EncodeKey(k)) ensures k.Versioned? {
      AtLeastLow(r.lo, r.hi, S.Encoded(e), EncodeKey(k));
    }
  }

  lemma AtLeastLow(lo: Bound, hi: Bound, a: Bytes, b: Bytes)
    requires InRange(lo, hi, a) && AtMost(a, b) && InRange(Unbounded, hi, b)
    ensures InRange(lo, hi, b)
  {
    hide Less;
    if lo != Unbounded && lo.key != a && a != b { LessTransitive(lo.key, a, b); }
  }

  /** The ranges of `scan` and `scan_prefix`. */
  lemma ScansReadVersions(lo: Bound, hi: Bound, p: Bytes)
    ensures VersionsOnly(S.Range(ScanStart(lo), ScanEnd(hi)))
    ensures VersionsOnly(S.Range(Included(ChoppedPrefix(p)), PrefixEnd(ChoppedPrefix(p))))
  {
    hide EncodeKey, InRange, ScanStart, ScanEnd, ChoppedPrefix, PrefixEnd;
    forall k: Key
      ensures InRange(ScanStart(lo), ScanEnd(hi), EncodeKey(k)) ==> k.Versioned? { ScanRangeExact(lo, hi, k); }
    forall k: Key
      ensures InRange(Included(ChoppedPrefix(p)), PrefixEnd(ChoppedPrefix(p)), EncodeKey(k)) ==> k.Versioned? {
      ScanPrefixExact(p, k);
    }
  }
}
