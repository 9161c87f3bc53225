/** What a transaction reads, over every run: its own last write, or else the last committed one. */
module MvccRead {
  import opened Common
  import opened Bytes
  import opened MvccKeys
  import opened Mvcc
  import opened MvccInvariant
  import opened MvccRun

  // ---------------------------------------------------------------- the newest version decides

  /** The version is the newest of its key. */
  ghost predicate IsNewest(s: seq<Entry>, e: Entry) {
    e in s && forall d :: d in s && d.key == e.key ==> d.version <= e.version
  }

  lemma {:induction false} LookupIsNewest(s: seq<Entry>, k: Bytes)
    requires Sorted(s)
    ensures (forall e :: e in s ==> e.key != k) ==> Lookup(s, k) == None
    ensures forall e: Entry :: e.key == k && IsNewest(s, e) ==> Lookup(s, k) == e.value
  {
    if s != [] {
      var m := |s| - 1;
      assert s == s[..m] + [s[m]];
      LookupIsNewest(s[..m], k);
      forall e: Entry | e.key == k && IsNewest(s, e) ensures Lookup(s, k) == e.value {
        if s[m].key == k {
          if e != s[m] { assert Before(e, s[m]); LessIrreflexive(k); }
        } else {
          assert e in s[..m] && IsNewest(s[..m], e);
        }
      }
    }
  }

  // ---------------------------------------------------------------- versions and writes

  /** Action `w` is the last before `i` by which version `v` wrote the key, and wrote this value. */
  predicate LastWrite(actions: seq<Action>, i: nat, w: nat, v: Version, k: Bytes, x: Option<Bytes>) {
    && w < i <= |actions| && actions[w] == Wrote(v, k, x)
    && forall u :: w < u < i ==> !Writes(actions[u], v, k)
  }

  /** Some action before `i` wrote this value last. */
  ghost predicate WroteLast(actions: seq<Action>, i: nat, e: Entry) {
    exists w: nat :: LastWrite(actions, i, w, e.version, e.key, e.value)
  }

  predicate Writes(a: Action, v: Version, k: Bytes) { a.Wrote? && a.v == v && a.key == k }

  predicate Undone(actions: seq<Action>, i: nat, v: Version) {
    exists j :: 0 <= j < i && j < |actions| && actions[j] == RolledBack(v)
  }

  lemma EndedStays(r: Run, j: nat, i: nat, v: Version)
    requires r.Ok() && j < i < |r.states| && (r.actions[j] == Committed(v) || r.actions[j] == RolledBack(v))
    ensures v !in r.states[i].active && v < r.states[j].next
  {
    hide Recorded, Continuous, Seen, Sorted;
    AlwaysValid(r, j);
    assert r.Moves(j);
    Monotone(r, j + 1, i);
  }

  /** The stored versions are exactly the last writes of the transactions that have not been rolled back. */
  lemma {:induction false} VersionsAreWrites(r: Run, i: nat, e: Entry)
    requires r.Ok() && i < |r.states|
    ensures e in r.states[i].versions
       <==> WroteLast(r.actions, i, e) && !Undone(r.actions, i, e.version)
  {
    if i > 0 {
      hide Valid, Step;
      VersionsAreWrites(r, i - 1, e);
      AlwaysValid(r, i - 1);
      assert r.Moves(i - 1);
      StoredNext(r.states[i - 1], r.actions[i - 1], r.states[i], e);
      LastWriteNext(r.actions, i, e);
      if Writes(r.actions[i - 1], e.version, e.key) {
        WriterIsActive(r.states[i - 1], r.actions[i - 1], r.states[i]);
        if Undone(r.actions, i - 1, e.version) {
          var j :| 0 <= j < i - 1 && r.actions[j] == RolledBack(e.version);
          EndedStays(r, j, i - 1, e.version);
        }
      }
    }
  }

  lemma WriterIsActive(db: Db, a: Action, db': Db)
    requires Step(db, a, db') && a.Wrote?
    ensures a.v in db.active
  {}

  lemma StoredNext(db: Db, a: Action, db': Db, e: Entry)
    requires Valid(db) && Step(db, a, db')
    ensures e in db'.versions <==>
      if Writes(a, e.version, e.key) then e.value == a.value
      else e in db.versions && a != RolledBack(e.version)
  {
    match a
    case Begun =>
    case Wrote(v, k, x) => PutSorts(db.versions, Entry(k, v, x));
    case Refused(_, _, _) =>
    case Committed(v) =>
    case RolledBack(v) => RollbackRemovesOwn(db, v);
  }

  lemma LastWriteNext(actions: seq<Action>, i: nat, e: Entry)
    requires 0 < i <= |actions|
    ensures WroteLast(actions, i, e) <==>
      if Writes(actions[i - 1], e.version, e.key) then actions[i - 1].value == e.value else WroteLast(actions, i - 1, e)
    ensures Undone(actions, i, e.version) <==>
      Undone(actions, i - 1, e.version) || actions[i - 1] == RolledBack(e.version)
  {
    if Writes(actions[i - 1], e.version, e.key) {
      if actions[i - 1].value == e.value { assert LastWrite(actions, i, i - 1, e.version, e.key, e.value); }
    } else {
      if WroteLast(actions, i, e) {
        var w: nat :| LastWrite(actions, i, w, e.version, e.key, e.value);
        assert LastWrite(actions, i - 1, w, e.version, e.key, e.value);
      }
      if WroteLast(actions, i - 1, e) {
        var before := i - 1;
        var w: nat :| LastWrite(actions, before, w, e.version, e.key, e.value);
        assert LastWrite(actions, i, w, e.version, e.key, e.value);
      }
    }
  }

  // ---------------------------------------------------------------- commits

  /** Version `v` committed at action `c`, after it had written the key. */
  ghost predicate Commits(actions: seq<Action>, c: nat, v: Version, k: Bytes) {
    c < |actions| && actions[c] == Committed(v) && exists w :: 0 <= w < c && Writes(actions[w], v, k)
  }

  /** Of all that committed a write to the key before `b`, version `v` did so last, and its last write was `x`. */
  ghost predicate LastCommitted(actions: seq<Action>, b: nat, c: nat, v: Version, k: Bytes, x: Option<Bytes>) {
    && c < b <= |actions| && actions[c] == Committed(v)
    && (exists w: nat :: LastWrite(actions, c, w, v, k, x))
    && forall d: nat, u :: c < d < b ==> !Commits(actions, d, u, k)
  }

  lemma {:induction false} EndsSomewhere(r: Run, w: nat, i: nat, v: Version) returns (j: nat)
    requires r.Ok() && w <= i < |r.states| && v in r.states[w].active && v !in r.states[i].active
    ensures w <= j < i && (r.actions[j] == Committed(v) || r.actions[j] == RolledBack(v))
    decreases i - w
  {
    hide Step;
    assert r.Moves(w);
    ActiveStep(r.states[w], r.actions[w], r.states[w + 1], v);
    if v in r.states[w + 1].active {
      j := EndsSomewhere(r, w + 1, i, v);
    } else {
      j := w;
    }
  }

  /** A stored version whose transaction is no longer active was committed. */
  lemma StoredIsCommitted(r: Run, b: nat, e: Entry) returns (c: nat)
    requires r.Ok() && b < |r.states| && e in r.states[b].versions && e.version !in r.states[b].active
    ensures c < b && Commits(r.actions, c, e.version, e.key)
  {
    hide Valid, Step;
    VersionsAreWrites(r, b, e);
    var w: nat :| LastWrite(r.actions, b, w, e.version, e.key, e.value);
    assert r.Moves(w);
    WriterIsActive(r.states[w], r.actions[w], r.states[w + 1]);
    c := EndsSomewhere(r, w, b, e.version);
    assert Writes(r.actions[w], e.version, e.key);
    assert c != w;
  }

  lemma CommitterIsActive(db: Db, a: Action, db': Db)
    requires Step(db, a, db') && a.Committed?
    ensures a.v in db.active
  {}

  /** What a transaction had written when it committed is stored from then on. */
  lemma CommitStores(r: Run, c: nat, w: nat, v: Version, k: Bytes, x: Option<Bytes>, b: nat)
    requires r.Ok() && c < b < |r.states| && r.actions[c] == Committed(v) && LastWrite(r.actions, c, w, v, k, x)
    ensures Entry(k, v, x) in r.states[c].versions && Entry(k, v, x) in r.states[b].versions
    ensures v !in r.states[b].active && v in r.states[c].active
  {
    hide Valid, Step;
    var e := Entry(k, v, x);
    assert r.Moves(c);
    CommitterIsActive(r.states[c], r.actions[c], r.states[c + 1]);
    if Undone(r.actions, c, v) {
      var j :| 0 <= j < c && r.actions[j] == RolledBack(v);
      EndedStays(r, j, c, v);
    }
    VersionsAreWrites(r, c, e);
    EndedStays(r, c, b, v);
    EndedStays(r, c, c + 1, v);
    CommitKeepsVersions(r.states[c], r.actions[c], r.states[c + 1]);
    Monotone(r, c + 1, b);
  }

  lemma CommitKeepsVersions(db: Db, a: Action, db': Db)
    requires Step(db, a, db') && a.Committed?
    ensures db'.versions == db.versions && db'.next == db.next
  {}

  lemma {:induction false} SomeLastWrite(actions: seq<Action>, i: nat, v: Version, k: Bytes)
    returns (w: nat, x: Option<Bytes>)
    requires i <= |actions| && exists u :: 0 <= u < i && Writes(actions[u], v, k)
    ensures LastWrite(actions, i, w, v, k, x)
  {
    if Writes(actions[i - 1], v, k) {
      w, x := i - 1, actions[i - 1].value;
    } else {
      w, x := SomeLastWrite(actions, i - 1, v, k);
    }
  }

  /** Of two committed writers of a key, the one with the greater version committed later. */
  lemma VersionOrder(r: Run, c: nat, v: Version, d: nat, u: Version, k: Bytes)
    requires r.Ok() && Commits(r.actions, c, v, k) && Commits(r.actions, d, u, k) && v < u
    ensures c < d
  {
    hide Valid, Step;
    var w, x := SomeLastWrite(r.actions, c, v, k);
    var w', x' := SomeLastWrite(r.actions, d, u, k);
    CommitStores(r, c, w, v, k, x, c + 1);
    CommitStores(r, d, w', u, k, x', d + 1);
    assert Stored(r.states[c].versions, k, v) && Stored(r.states[d].versions, k, u);
    ActiveIff(r, c, v);
    ActiveIff(r, d, u);
    var a: nat :| a < c && BeginsVersion(r.actions, a, v) && Open(r.actions, a, c, v);
    var b: nat :| b < d && BeginsVersion(r.actions, b, u) && Open(r.actions, b, d, u);
    NextCounts(r, a);
    NextCounts(r, b);
    if b <= a { NextRises(r, b, a); }
    if d <= c { FirstUpdaterWins(r, a, b, c, d, k); }
  }

  lemma NextRises(r: Run, i: nat, j: nat)
    requires r.Ok() && i <= j < |r.states|
    ensures r.states[i].next <= r.states[j].next
  {
    Monotone(r, i, j);
  }

  /** If any transaction committed a write to the key, one did so last. */
  lemma {:induction false} LastCommittedExists(actions: seq<Action>, b: nat, k: Bytes)
    returns (c: nat, v: Version, x: Option<Bytes>)
    requires b <= |actions| && exists d: nat, u :: d < b && Commits(actions, d, u, k)
    ensures LastCommitted(actions, b, c, v, k, x)
  {
    var last := b - 1;
    if actions[last].Committed? && Commits(actions, last, actions[last].v, k) {
      c, v := last, actions[last].v;
      var w;
      w, x := SomeLastWrite(actions, c, v, k);
    } else {
      c, v, x := LastCommittedExists(actions, last, k);
    }
  }

  // ---------------------------------------------------------------- reads

  /**
   * Snapshot reads: a transaction that begins reads, for every key, the last write of the transaction that was the last
   * to commit a write to it, and nothing if none has.
   */
  lemma ReadsLastCommitted(r: Run, b: nat, k: Bytes)
    requires r.Ok() && b < |r.states|
    ensures var read := Get(r.states[b], BeginReadOnly(r.states[b]), k);
      && ((forall c: nat, v :: c < b ==> !Commits(r.actions, c, v, k)) ==> read == None)
      && forall c: nat, v, x :: LastCommitted(r.actions, b, c, v, k, x) ==> read == x
  {
    hide Step;
    var t := BeginReadOnly(r.states[b]);
    var view := View(r.states[b].versions, t);
    AlwaysValid(r, b);
    ViewMembers(r.states[b].versions, t);
    LookupIsNewest(view, k);
    hide Valid;
    if forall c: nat, v :: c < b ==> !Commits(r.actions, c, v, k) {
      forall e | e in view ensures e.key != k {
        if e.key == k { var c := StoredIsCommitted(r, b, e); }
      }
    }
    forall c: nat, v, x | LastCommitted(r.actions, b, c, v, k, x) ensures Get(r.states[b], t, k) == x {
      NewestIsLast(r, b, c, v, k, x);
    }
  }

  lemma NewestIsLast(r: Run, b: nat, c: nat, v: Version, k: Bytes, x: Option<Bytes>)
    requires r.Ok() && b < |r.states| && LastCommitted(r.actions, b, c, v, k, x)
    ensures IsNewest(View(r.states[b].versions, BeginReadOnly(r.states[b])), Entry(k, v, x))
  {
    hide Step;
    var t := BeginReadOnly(r.states[b]);
    var w: nat :| LastWrite(r.actions, c, w, v, k, x);
    CommitStores(r, c, w, v, k, x, b);
    AlwaysValid(r, b);
    ViewMembers(r.states[b].versions, t);
    assert Visible(t, v);
    hide Valid;
    assert Writes(r.actions[w], v, k);
    forall d | d in View(r.states[b].versions, t) && d.key == k ensures d.version <= v {
      var c' := StoredIsCommitted(r, b, d);
      assert c' <= c;
      if v < d.version { VersionOrder(r, c, v, c', d.version, k); }
    }
  }

  /** A read-write transaction that has just begun reads what a read-only one would. */
  lemma BeginReadsSame(r: Run, b: nat, k: Bytes)
    requires r.Ok() && b < |r.actions| && r.Moves(b) && r.actions[b] == Begun
    ensures Get(r.states[b + 1], Begin(r.states[b]).1, k) == Get(r.states[b], BeginReadOnly(r.states[b]), k)
    ensures View(r.states[b + 1].versions, Begin(r.states[b]).1)
      == View(r.states[b].versions, BeginReadOnly(r.states[b]))
  {
    AlwaysValid(r, b);
    assert r.Moves(b);
    NoOwnVersions(r.states[b].versions, Begin(r.states[b]).1, BeginReadOnly(r.states[b]));
  }

  lemma {:induction false} OwnsLookup(view: seq<Entry>, t: Txn, actions: seq<Action>, k: Bytes)
    requires Sorted(view) && !t.readOnly && forall e :: e in view ==> e.version <= t.version
    ensures var own := Owns(view, t, actions);
      && Sorted(own) && (forall e :: e in own ==> e.version <= t.version)
      && ((forall a :: a in actions ==> !Writes(a, t.version, k)) ==> Lookup(own, k) == Lookup(view, k))
      && forall w: nat, x :: LastWrite(actions, |actions|, w, t.version, k, x) ==> Lookup(own, k) == x
  {
    if actions != [] {
      var m := |actions| - 1;
      var before, a := Owns(view, t, actions[..m]), actions[m];
      OwnsLookup(view, t, actions[..m], k);
      var own := Own(before, t, a);
      assert Owns(view, t, actions) == own;
      OwnLookup(before, t, a, k);
      hide Owns, Own, Lookup;
      forall w: nat, x | LastWrite(actions, |actions|, w, t.version, k, x) ensures Lookup(own, k) == x {
        if w < m {
          assert !Writes(a, t.version, k);
          assert LastWrite(actions[..m], m, w, t.version, k, x);
        }
      }
    }
  }

  lemma OwnLookup(view: seq<Entry>, t: Txn, a: Action, k: Bytes)
    requires Sorted(view) && !t.readOnly && forall e :: e in view ==> e.version <= t.version
    ensures var own := Own(view, t, a);
      && Sorted(own) && (forall e :: e in own ==> e.version <= t.version)
      && Lookup(own, k) == if Writes(a, t.version, k) then a.value else Lookup(view, k)
  {
    if a.Wrote? && a.v == t.version {
      var e := Entry(a.key, a.v, a.value);
      PutSorts(view, e);
      PutLookup(view, e, k);
    }
  }

  /** Storing the newest version of a key changes what is read of that key, and of no other. */
  lemma PutLookup(s: seq<Entry>, e: Entry, k: Bytes)
    requires Sorted(s) && forall d :: d in s ==> d.version <= e.version
    ensures Lookup(Put(s, e), k) == if k == e.key then e.value else Lookup(s, k)
  {
    PutSorts(s, e);
    var s' := Put(s, e);
    LookupIsNewest(s', k);
    if k == e.key {
      assert IsNewest(s', e);
    } else {
      LookupIsNewest(s, k);
      SameLookup(s, s', k);
    }
  }

  lemma SameLookup(s: seq<Entry>, s': seq<Entry>, k: Bytes)
    requires Sorted(s) && Sorted(s') && forall d: Entry :: d.key == k ==> (d in s <==> d in s')
    ensures Lookup(s, k) == Lookup(s', k)
  {
    LookupIsNewest(s, k);
    LookupIsNewest(s', k);
    if d :| d in s && d.key == k {
      var e := NewestOf(s, d);
      assert IsNewest(s', e);
    }
  }

  lemma {:induction false} NewestOf(s: seq<Entry>, d: Entry) returns (e: Entry)
    requires Sorted(s) && d in s
    ensures e.key == d.key && IsNewest(s, e)
  {
    var m := |s| - 1;
    assert s == s[..m] + [s[m]];
    if s[m].key == d.key {
      e := s[m];
      forall x | x in s && x.key == d.key ensures x.version <= e.version {
        if x != e { assert Before(x, e); LessIrreflexive(d.key); }
      }
    } else {
      e := NewestOf(s[..m], d);
    }
  }

  /**
   * A read-write transaction reads its own last write to a key, and if it has not written the key, what it read when
   * it began: the last committed write, whatever others have committed since.
   */
  lemma ReadsOwnOrSnapshot(r: Run, b: nat, j: nat, k: Bytes)
    requires r.Ok() && b < |r.actions| && r.Moves(b) && r.actions[b] == Begun && b < j < |r.states|
    requires RolledBack(r.states[b].next) !in r.actions[b + 1..j]
    ensures var t := Begin(r.states[b]).1;
      var read := Get(r.states[j], t, k);
      && ((forall w: nat :: w < j ==> !Writes(r.actions[w], t.version, k)) ==>
            read == Get(r.states[b], BeginReadOnly(r.states[b]), k))
      && forall w: nat, x :: LastWrite(r.actions, j, w, t.version, k, x) ==> read == x
  {
    var t := Begin(r.states[b]).1;
    hide Step;
    var since := r.actions[b + 1..j];
    AlwaysValid(r, b);
    AlwaysValid(r, b + 1);
    assert r.Moves(b);
    BegunState(r.states[b], r.actions[b], r.states[b + 1]);
    assert Began(r, t, b + 1);
    StableSnapshot(r, t, b + 1, j);
    BeginReadsSame(r, b, k);
    var view := View(r.states[b + 1].versions, t);
    ViewMembers(r.states[b + 1].versions, t);
    OwnsLookup(view, t, since, k);
    hide Valid;
    forall w: nat, x | LastWrite(r.actions, j, w, t.version, k, x) ensures Lookup(Owns(view, t, since), k) == x {
      if w <= b { NotYetBegun(r, b, w); }
      assert LastWrite(since, |since|, w - (b + 1), t.version, k, x);
    }
  }

  lemma BegunState(db: Db, a: Action, db': Db)
    requires Valid(db) && Step(db, a, db') && a == Begun
    ensures var t := Begin(db).1;
      t.version == db.next && t.version < db'.next && t == StateOf(db', t.version) && !t.readOnly
  {
    BeginKeeps(db);
  }

  /** No transaction acts before it begins. */
  lemma NotYetBegun(r: Run, b: nat, w: nat)
    requires r.Ok() && w <= b < |r.actions| && r.actions[w].Wrote?
    ensures r.actions[w].v < r.states[b].next
  {
    hide Recorded, Continuous, Seen, Sorted;
    assert r.Moves(w);
    AlwaysValid(r, w);
    WriterIsActive(r.states[w], r.actions[w], r.states[w + 1]);
    NextRises(r, w, b);
  }
}
