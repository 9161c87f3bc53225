/** What every step of the transactional store keeps, and why the newest-version conflict check is enough. */
module MvccInvariant {
  import opened Common
  import opened Bytes
  import opened MvccKeys
  import opened Mvcc

  ghost predicate Stored(s: seq<Entry>, k: Bytes, v: Version) {
    exists e :: e in s && e.key == k && e.version == v
  }

  /** Versions in use lie below the next one; snapshots hold only older versions. */
  ghost predicate Bounded(db: Db) {
    && db.next >= 1
    && (forall v :: v in db.active ==> 1 <= v < db.next)
    && (forall v :: v in db.snapshots ==> v < db.next)
    && (forall v, u :: v in db.snapshots && u in db.snapshots[v] ==> 1 <= u < v)
    && (forall e :: e in db.versions ==> 1 <= e.version < db.next)
  }

  /** Write records are exactly the stored versions of active transactions. */
  ghost predicate Recorded(db: Db) {
    forall v: Version, k: Bytes :: (v, k) in db.writes <==> v in db.active && Stored(db.versions, k, v)
  }

  /** A transaction that is active, now or when `w` began, was active for every version begun in between. */
  ghost predicate Continuous(db: Db) {
    && (forall u, v: Version :: u in db.active && u < v < db.next ==> u in Snapshot(db, v))
    && (forall u: Version, v: Version, w: Version :: u < v < w < db.next && u in Snapshot(db, w) ==>
      u in Snapshot(db, v))
  }

  /** Whoever stored a newer version of a key had seen the older one. */
  ghost predicate Seen(db: Db) {
    forall a, b :: a in db.versions && b in db.versions && a.key == b.key && a.version < b.version
      ==> a.version !in Snapshot(db, b.version)
  }

  ghost predicate Valid(db: Db) {
    Sorted(db.versions) && Bounded(db) && Recorded(db) && Continuous(db) && Seen(db)
  }

  // ---------------------------------------------------------------- the conflict check

  lemma {:induction false} NewestIsGreatest(s: seq<Entry>, k: Bytes, from: nat)
    requires Sorted(s)
    ensures var n := Newest(s, k, from);
      && (n.Some? ==> n.value >= from && Stored(s, k, n.value))
      && (forall e :: e in s && e.key == k && e.version >= from ==> n.Some? && e.version <= n.value)
  {
    if s != [] {
      var m := |s| - 1;
      assert s == s[..m] + [s[m]];
      NewestIsGreatest(s[..m], k, from);
      if s[m].key == k && s[m].version >= from {
        forall e | e in s && e.key == k ensures e.version <= s[m].version {
          if e != s[m] { assert Before(e, s[m]); LessIrreflexive(k); }
        }
      } else {
        assert Newest(s, k, from) == Newest(s[..m], k, from);
        if Newest(s, k, from).Some? {
          var e :| e in s[..m] && e.key == k && e.version == Newest(s, k, from).value;
          assert e in s;
        }
      }
    }
  }

  /** What an older snapshot hid, a newer one of the same writer chain hides too. */
  lemma SeenBelow(db: Db, v: Version, a: Entry, n: Entry)
    requires Valid(db) && v < db.next
    requires a in db.versions && n in db.versions && a.key == n.key
    requires a.version <= n.version <= v && n.version !in Snapshot(db, v)
    ensures a.version !in Snapshot(db, v)
  {
    assert a.version < n.version ==> a.version !in Snapshot(db, n.version);
  }

  /** Testing only the newest version of a key finds a conflict exactly when some version of the key is invisible. */
  lemma NewestDecides(db: Db, v: Version, k: Bytes)
    requires Valid(db) && v in db.active
    ensures Conflict(db, StateOf(db, v), k)
       <==> exists e :: e in db.versions && e.key == k && !Visible(StateOf(db, v), e.version)
  {
    var t := StateOf(db, v);
    var from := ConflictFrom(t);
    NewestIsGreatest(db.versions, k, from);
    var n := Newest(db.versions, k, from);
    if Conflict(db, t, k) {
      var e :| e in db.versions && e.key == k && e.version == n.value;
      assert !Visible(t, e.version);
    } else {
      forall e | e in db.versions && e.key == k ensures Visible(t, e.version) {
        if e.version < from {
          BelowFromIsVisible(t, e.version);
        } else {
          var m :| m in db.versions && m.key == k && m.version == n.value;
          SeenBelow(db, v, e, m);
        }
      }
    }
  }

  lemma BelowFromIsVisible(t: Txn, v: Version)
    requires !t.readOnly && v < ConflictFrom(t) && (forall u :: u in t.active ==> u < t.version)
    ensures Visible(t, v)
  {
    if t.active != {} { assert Least(t.active) in t.active; }
  }

  // ---------------------------------------------------------------- steps

  lemma EmptyIsValid()
    ensures Valid(EMPTY)
  {
  }

  lemma BeginKeeps(db: Db)
    requires Valid(db) && db.next < MAX_VERSION
    ensures Valid(Begin(db).0)
    ensures Begin(db).1 == StateOf(Begin(db).0, db.next)
    ensures forall v: Version :: v < db.next ==> Snapshot(Begin(db).0, v) == Snapshot(db, v)
  {
    var db' := Begin(db).0;
    assert forall v: Version :: v < db.next ==> Snapshot(db', v) == Snapshot(db, v);
    assert Snapshot(db', db.next) == db.active;
    assert forall e :: e in db.versions ==> Snapshot(db', e.version) == Snapshot(db, e.version);
    assert Recorded(db') by {
      forall v: Version, k: Bytes ensures (v, k) in db'.writes <==> v in db'.active && Stored(db'.versions, k, v) {
        assert Stored(db.versions, k, v) ==> v < db.next;
      }
    }
  }

  lemma WriteKeeps(db: Db, v: Version, k: Bytes, x: Option<Bytes>)
    requires Valid(db) && v in db.active && Write(db, StateOf(db, v), k, x).Done?
    ensures Valid(Write(db, StateOf(db, v), k, x).db)
  {
    var t := StateOf(db, v);
    var e := Entry(k, v, x);
    var db' := Write(db, t, k, x).db;
    PutSorts(db.versions, e);
    NewestDecides(db, v, k);
    assert e in db'.versions;
    assert forall u: Version :: Snapshot(db', u) == Snapshot(db, u);
    assert Bounded(db');
    WriteRecords(db, v, k, x, db');
    assert forall a :: a in db.versions && a.key == k ==> Visible(t, a.version);
    assert forall a :: a in db'.versions && a.key == k ==> a.version <= v && a.version !in Snapshot(db', v);
  }

  lemma WriteRecords(db: Db, v: Version, k: Bytes, x: Option<Bytes>, db': Db)
    requires Valid(db) && v in db.active
    requires db' == db.(writes := db.writes + {(v, k)}, versions := Put(db.versions, Entry(k, v, x)))
    ensures Recorded(db')
  {
    var e := Entry(k, v, x);
    PutSorts(db.versions, e);
    forall u: Version, l: Bytes
      ensures Stored(db'.versions, l, u) <==> Stored(db.versions, l, u) || (u == v && l == k) {
      if Stored(db'.versions, l, u) {
        var a :| a in db'.versions && a.key == l && a.version == u;
        assert a == e || a in db.versions;
      }
      if Stored(db.versions, l, u) {
        var a :| a in db.versions && a.key == l && a.version == u;
        if !SameId(a, e) { assert a in db'.versions; } else { assert e in db'.versions; }
      }
      if u == v && l == k { assert e in db'.versions; }
    }
  }

  lemma CommitKeeps(db: Db, v: Version)
    requires Valid(db) && v in db.active
    ensures Valid(Commit(db, StateOf(db, v)))
  {
    var db' := Commit(db, StateOf(db, v));
    assert forall u: Version :: Snapshot(db', u) == Snapshot(db, u);
    assert forall e :: e in db.versions ==> Snapshot(db', e.version) == Snapshot(db, e.version);
  }

  /** Rolling back removes exactly the versions the transaction stored, since each has a write record. */
  lemma RollbackRemovesOwn(db: Db, v: Version)
    requires Valid(db) && v in db.active
    ensures var db' := Rollback(db, StateOf(db, v));
      Sorted(db'.versions) && forall e :: e in db'.versions <==> e in db.versions && e.version != v
  {
    DropMembers(db.versions, v, Written(db, v));
    forall e | e in db.versions && e.version == v ensures e.key in Written(db, v) {
      assert Stored(db.versions, e.key, v);
      assert (v, e.key) in db.writes;
    }
  }

  lemma RollbackKeeps(db: Db, v: Version)
    requires Valid(db) && v in db.active
    ensures Valid(Rollback(db, StateOf(db, v)))
  {
    var db' := Rollback(db, StateOf(db, v));
    RollbackRemovesOwn(db, v);
    assert forall u: Version :: Snapshot(db', u) == Snapshot(db, u);
    forall u: Version, k: Bytes ensures (u, k) in db'.writes <==> u in db'.active && Stored(db'.versions, k, u) {
      if u != v && Stored(db.versions, k, u) {
        var e :| e in db.versions && e.key == k && e.version == u;
        assert e in db'.versions;
      }
    }
  }
}
