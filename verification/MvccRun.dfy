/**
 * Runs of the transactional store: any interleaving of begins, writes, commits and rollbacks.
 * Reads, read-only transactions and refused writes leave the engine as it is.
 */
module MvccRun {
  import opened Common
  import opened Bytes
  import opened MvccKeys
  import opened Mvcc
  import opened MvccInvariant

  datatype Action =
    | Begun
    | Wrote(v: Version, key: Bytes, value: Option<Bytes>)
    | Refused(v: Version, key: Bytes, value: Option<Bytes>)
    | Committed(v: Version)
    | RolledBack(v: Version)

  ghost predicate Step(db: Db, a: Action, db': Db) {
    match a
    case Begun => db.next < MAX_VERSION && db' == Begin(db).0
    case Wrote(v, k, x) => v in db.active && Write(db, StateOf(db, v), k, x) == Done(db')
    case Refused(v, k, x) => v in db.active && Write(db, StateOf(db, v), k, x) == Serialization && db' == db
    case Committed(v) => v in db.active && db' == Commit(db, StateOf(db, v))
    case RolledBack(v) => v in db.active && db' == Rollback(db, StateOf(db, v))
  }

  datatype Run = Run(states: seq<Db>, actions: seq<Action>) {
    ghost predicate Moves(i: nat)
      requires |states| == |actions| + 1 && i < |actions|
    {
      Step(states[i], actions[i], states[i + 1])
    }

    ghost predicate Ok() {
      && |states| == |actions| + 1
      && states[0] == EMPTY
      && forall i :: 0 <= i < |actions| ==> Moves(i)
    }
  }

  lemma StepKeeps(db: Db, a: Action, db': Db)
    requires Valid(db) && Step(db, a, db')
    ensures Valid(db')
  {
    hide Bounded, Recorded, Continuous, Seen, Sorted;
    match a
    case Begun => BeginKeeps(db);
    case Wrote(v, k, x) => WriteKeeps(db, v, k, x);
    case Refused(_, _, _) =>
    case Committed(v) => CommitKeeps(db, v);
    case RolledBack(v) => RollbackKeeps(db, v);
  }

  lemma {:induction false} AlwaysValid(r: Run, i: nat)
    requires r.Ok() && i < |r.states|
    ensures Valid(r.states[i])
  {
    if i == 0 {
      EmptyIsValid();
    } else {
      AlwaysValid(r, i - 1);
      assert r.Moves(i - 1);
      StepKeeps(r.states[i - 1], r.actions[i - 1], r.states[i]);
    }
  }

  // ---------------------------------------------------------------- what one step leaves alone

  /** Persisted snapshots never change, ended versions stay ended, and what they stored stays stored. */
  ghost predicate Later(db: Db, db': Db) {
    && db.next <= db'.next
    && (forall v: Version :: v < db.next ==> Snapshot(db', v) == Snapshot(db, v))
    && (forall v: Version :: v < db.next && v in db'.active ==> v in db.active)
    && (forall e: Entry :: e.version < db.next && e.version !in db.active ==> (e in db'.versions <==> e in db.versions))
  }

  lemma StepIsLater(db: Db, a: Action, db': Db)
    requires Valid(db) && Step(db, a, db')
    ensures Later(db, db')
  {
    match a
    case Begun => BeginKeeps(db);
    case Wrote(v, k, x) => PutSorts(db.versions, Entry(k, v, x));
    case Refused(_, _, _) =>
    case Committed(v) =>
    case RolledBack(v) => RollbackRemovesOwn(db, v);
  }

  lemma {:induction false} Monotone(r: Run, i: nat, j: nat)
    requires r.Ok() && i <= j < |r.states|
    ensures Later(r.states[i], r.states[j])
    decreases j - i
  {
    if i < j {
      hide Valid, Step, Snapshot;
      Monotone(r, i, j - 1);
      AlwaysValid(r, j - 1);
      assert r.Moves(j - 1);
      StepIsLater(r.states[j - 1], r.actions[j - 1], r.states[j]);
    }
  }

  // ---------------------------------------------------------------- views

  lemma {:induction false} PutInvisible(s: seq<Entry>, e: Entry, t: Txn)
    requires !Visible(t, e.version)
    ensures View(Put(s, e), t) == View(s, t)
  {
    if s == [] || Before(e, s[0]) {
      assert ([e] + s)[1..] == s;
    } else if SameId(e, s[0]) {
      assert ([e] + s[1..])[1..] == s[1..];
    } else {
      PutInvisible(s[1..], e, t);
      assert ([s[0]] + Put(s[1..], e))[1..] == Put(s[1..], e);
    }
  }

  lemma {:induction false} PutVisible(s: seq<Entry>, e: Entry, t: Txn)
    requires Sorted(s) && Visible(t, e.version)
    ensures View(Put(s, e), t) == Put(View(s, t), e)
  {
    if s != [] {
      var rest := View(s[1..], t);
      ViewMembers(s[1..], t);
      assert rest != [] ==> rest[0] in s[1..] && Before(s[0], rest[0]);
      if Before(e, s[0]) {
        assert ([e] + s)[1..] == s;
        assert rest != [] ==> Before(e, rest[0]) by { if rest != [] { BeforeTransitive(e, s[0], rest[0]); } }
      } else if SameId(e, s[0]) {
        assert ([e] + s[1..])[1..] == s[1..];
      } else {
        PutVisible(s[1..], e, t);
        assert ([s[0]] + Put(s[1..], e))[1..] == Put(s[1..], e);
        assert ([s[0]] + rest)[1..] == rest;
      }
    }
  }

  lemma {:induction false} DropInvisible(s: seq<Entry>, v: Version, keys: set<Bytes>, t: Txn)
    requires !Visible(t, v)
    ensures View(Drop(s, v, keys), t) == View(s, t)
  {
    if s != [] {
      DropInvisible(s[1..], v, keys, t);
      assert ([s[0]] + Drop(s[1..], v, keys))[1..] == Drop(s[1..], v, keys);
    }
  }

  /** Every other active transaction is invisible to `t`: what its snapshot is for. */
  ghost predicate Isolated(db: Db, t: Txn) {
    && (if t.readOnly then t.version <= db.next else t.version < db.next)
    && (forall u :: u in db.active && Visible(t, u) ==> !t.readOnly && u == t.version)
  }

  /** All three ways to begin give an isolated transaction. */
  lemma BeginIsolates(db: Db)
    requires Valid(db)
    ensures db.next < MAX_VERSION ==> Isolated(Begin(db).0, Begin(db).1)
    ensures Isolated(db, BeginReadOnly(db))
    ensures forall v: Version :: BeginAsOf(db, v).Some? ==> Isolated(db, BeginAsOf(db, v).value)
    ensures forall v: Version :: v < db.next ==> Isolated(db, StateOf(db, v))
  {
  }

  /** A transaction's own write, as its view sees it. */
  function Own(view: seq<Entry>, t: Txn, a: Action): seq<Entry> {
    if a.Wrote? && !t.readOnly && a.v == t.version then Put(view, Entry(a.key, a.v, a.value)) else view
  }

  function Owns(view: seq<Entry>, t: Txn, actions: seq<Action>): seq<Entry> {
    if actions == [] then view
    else Own(Owns(view, t, actions[..|actions| - 1]), t, actions[|actions| - 1])
  }

  /** One step of anyone else changes nothing in an isolated transaction's view. */
  lemma StepKeepsView(db: Db, a: Action, db': Db, t: Txn)
    requires Valid(db) && Step(db, a, db') && Isolated(db, t)
    requires a != RolledBack(t.version) || t.readOnly
    requires !t.readOnly ==> StateOf(db, t.version) == t
    ensures Isolated(db', t)
    ensures View(db'.versions, t) == Own(View(db.versions, t), t, a)
  {
    match a
    case Begun =>
    case Wrote(v, k, x) =>
      var e := Entry(k, v, x);
      if Visible(t, v) { PutVisible(db.versions, e, t); } else { PutInvisible(db.versions, e, t); }
    case Refused(_, _, _) =>
    case Committed(v) =>
    case RolledBack(v) => DropInvisible(db.versions, v, Written(db, v), t);
  }

  /** `t` is a transaction that exists at state `i`: it was begun there or earlier. */
  ghost predicate Began(r: Run, t: Txn, i: nat)
    requires r.Ok() && i < |r.states|
  {
    exists b ::
      && 0 <= b <= i
      && (|| t == BeginReadOnly(r.states[b])
          || BeginAsOf(r.states[b], t.version) == Some(t)
          || (t.version < r.states[b].next && t == StateOf(r.states[b], t.version)))
  }

  /**
   * Stable snapshots: whatever others begin, write, commit or roll back, a transaction's view is the
   * view it had, plus its own writes since.
   */
  lemma {:induction false} StableSnapshot(r: Run, t: Txn, i: nat, j: nat)
    requires r.Ok() && i <= j < |r.states| && Began(r, t, i)
    requires t.readOnly || RolledBack(t.version) !in r.actions[i..j]
    ensures View(r.states[j].versions, t) == Owns(View(r.states[i].versions, t), t, r.actions[i..j])
    decreases j - i
  {
    if i == j {
      assert r.actions[i..j] == [];
    } else {
      hide Valid, Step, Isolated, StateOf, Own;
      var before, after := r.actions[i..j - 1], r.actions[i..j];
      assert after == before + [r.actions[j - 1]];
      assert after[..|after| - 1] == before && after[|after| - 1] == r.actions[j - 1];
      StableSnapshot(r, t, i, j - 1);
      AlwaysValid(r, j - 1);
      StaysIsolated(r, t, i, j - 1);
      assert r.Moves(j - 1);
      assert r.actions[j - 1] in after;
      StepKeepsView(r.states[j - 1], r.actions[j - 1], r.states[j], t);
    }
  }

  lemma {:induction false} StaysIsolated(r: Run, t: Txn, i: nat, j: nat)
    requires r.Ok() && i <= j < |r.states| && Began(r, t, i)
    ensures Isolated(r.states[j], t)
    ensures !t.readOnly ==> StateOf(r.states[j], t.version) == t
  {
    var b :| && 0 <= b <= i
             && (|| t == BeginReadOnly(r.states[b])
                 || BeginAsOf(r.states[b], t.version) == Some(t)
                 || (t.version < r.states[b].next && t == StateOf(r.states[b], t.version)));
    AlwaysValid(r, b);
    BeginIsolates(r.states[b]);
    Monotone(r, b, j);
    assert Isolated(r.states[b], t);
    var s := r.states[j];
    forall u | u in s.active && Visible(t, u) ensures !t.readOnly && u == t.version {
      assert u < r.states[b].next ==> u in r.states[b].active;
    }
  }

  /** A transaction that makes no successful write keeps its view as it is. */
  lemma {:induction false} QuietOwns(view: seq<Entry>, t: Txn, actions: seq<Action>)
    requires t.readOnly || forall a :: a in actions ==> !(a.Wrote? && a.v == t.version)
    ensures Owns(view, t, actions) == view
  {
    if actions != [] { QuietOwns(view, t, actions[..|actions| - 1]); }
  }

  // ---------------------------------------------------------------- theorems

  /** Time travel: `begin_as_of(v)`, at any later time, sees exactly what transaction `v` saw when it began. */
  lemma TimeTravel(r: Run, b: nat, j: nat, k: Bytes)
    requires r.Ok() && b < |r.actions| && r.actions[b] == Begun && b < j < |r.states|
    ensures var v := r.states[b].next;
      var past := BeginAsOf(r.states[j], v);
      && past.Some?
      && View(r.states[j].versions, past.value) == View(r.states[b + 1].versions, Begin(r.states[b]).1)
      && Get(r.states[j], past.value, k) == Get(r.states[b + 1], Begin(r.states[b]).1, k)
  {
    var v := r.states[b].next;
    assert r.Moves(b);
    AlwaysValid(r, b);
    AlwaysValid(r, b + 1);
    BeginKeeps(r.states[b]);
    Monotone(r, b + 1, j);
    var past := BeginAsOf(r.states[j], v).value;
    assert past == BeginAsOf(r.states[b + 1], v).value;
    assert Began(r, past, b + 1);
    StableSnapshot(r, past, b + 1, j);
    QuietOwns(View(r.states[b + 1].versions, past), past, r.actions[b + 1..j]);
    NoOwnVersions(r.states[b].versions, StateOf(r.states[b + 1], v), past);
  }

  /** A transaction and its read-only twin see the same as long as there is nothing at its own version. */
  lemma {:induction false} NoOwnVersions(s: seq<Entry>, t: Txn, past: Txn)
    requires past == t.(readOnly := true) && (forall e :: e in s ==> e.version != t.version)
    ensures View(s, past) == View(s, t)
  {
    if s != [] { NoOwnVersions(s[1..], t, past); }
  }

  /** An active transaction has been active ever since it began. */
  lemma ActiveSince(r: Run, v: Version, b: nat, i: nat)
    requires r.Ok() && b <= i < |r.states| && v < r.states[b].next && v in r.states[i].active
    ensures v in r.states[b].active
  {
    Monotone(r, b, i);
  }

  /**
   * First updater wins: of two transactions that each began before the other committed,
   * at most one commits a write to any given key.
   */
  lemma FirstUpdaterWins(r: Run, b1: nat, b2: nat, c1: nat, c2: nat, k: Bytes)
    requires r.Ok() && c1 < |r.actions| && c2 < |r.actions| && b1 < c1 && b2 < c2
    requires r.actions[b1] == Begun && r.actions[b2] == Begun && b1 != b2
    requires r.actions[c1] == Committed(r.states[b1].next) && r.actions[c2] == Committed(r.states[b2].next)
    requires b1 < c2 && b2 < c1
    ensures !(Stored(r.states[c1].versions, k, r.states[b1].next) &&
      Stored(r.states[c2].versions, k, r.states[b2].next))
  {
    if b1 < b2 {
      FirstUpdaterWinsOrdered(r, b1, b2, c1, c2, k);
    } else {
      FirstUpdaterWinsOrdered(r, b2, b1, c2, c1, k);
    }
  }

  lemma FirstUpdaterWinsOrdered(r: Run, b1: nat, b2: nat, c1: nat, c2: nat, k: Bytes)
    requires r.Ok() && c1 < |r.actions| && c2 < |r.actions| && b1 < b2 < c1 && b2 < c2
    requires r.actions[b1] == Begun && r.actions[b2] == Begun
    requires r.actions[c1] == Committed(r.states[b1].next) && r.actions[c2] == Committed(r.states[b2].next)
    ensures !(Stored(r.states[c1].versions, k, r.states[b1].next) &&
      Stored(r.states[c2].versions, k, r.states[b2].next))
  {
    hide Valid;
    var u, v := r.states[b1].next, r.states[b2].next;
    assert r.Moves(b1) && r.Moves(b2) && r.Moves(c1) && r.Moves(c2);
    Monotone(r, b1 + 1, b2);
    ActiveSince(r, u, b2, c1);
    assert u in Snapshot(r.states[b2 + 1], v);
    var last := if c1 < c2 then c2 + 1 else c1 + 1;
    Monotone(r, b2 + 1, last);
    assert u in Snapshot(r.states[last], v);
    StoredStays(r, u, c1, last, k);
    StoredStays(r, v, c2, last, k);
    AlwaysValid(r, last);
    NeverBoth(r.states[last], u, v, k);
  }

  lemma NeverBoth(db: Db, u: Version, v: Version, k: Bytes)
    requires Valid(db) && u in Snapshot(db, v)
    ensures !(Stored(db.versions, k, u) && Stored(db.versions, k, v))
  {
  }

  /** A committed version is never removed. */
  lemma StoredStays(r: Run, v: Version, c: nat, j: nat, k: Bytes)
    requires r.Ok() && c < |r.actions| && r.actions[c] == Committed(v) && c < j < |r.states|
    ensures Stored(r.states[c].versions, k, v) ==> Stored(r.states[j].versions, k, v)
  {
    AlwaysValid(r, c);
    assert r.Moves(c);
    Monotone(r, c + 1, j);
    if Stored(r.states[c].versions, k, v) {
      var e :| e in r.states[c].versions && e.key == k && e.version == v;
      assert e in r.states[c + 1].versions;
      assert e in r.states[j].versions;
    }
  }

  /**
   * Atomic commit: a transaction `t` begun at state `b` sees, at every later state, all of what `u` stored
   * if `u` committed before `b`, and none of it otherwise.
   */
  lemma AtomicCommit(r: Run, t: Txn, b: nat, j: nat, u: Version, e: Entry)
    requires r.Ok() && b <= j < |r.states|
    requires t == BeginReadOnly(r.states[b])
      || (b < j && r.Moves(b) && r.actions[b] == Begun && t == Begin(r.states[b]).1)
    requires e.version == u && (t.readOnly || u != t.version)
    ensures e in View(r.states[j].versions, t)
       <==> u < r.states[b].next && u !in r.states[b].active && e in r.states[b].versions
  {
    AlwaysValid(r, j);
    ViewMembers(r.states[j].versions, t);
    Monotone(r, b, j);
  }

  /** Traceless rollback: it removes every version the transaction stored, no other, and no other view changes. */
  lemma TracelessRollback(r: Run, i: nat, v: Version, t: Txn)
    requires r.Ok() && i < |r.actions| && r.actions[i] == RolledBack(v)
    requires Began(r, t, i) && (t.readOnly || t.version != v)
    ensures forall e :: e in r.states[i + 1].versions <==> e in r.states[i].versions && e.version != v
    ensures View(r.states[i + 1].versions, t) == View(r.states[i].versions, t)
  {
    AlwaysValid(r, i);
    assert r.Moves(i);
    RollbackRemovesOwn(r.states[i], v);
    StaysIsolated(r, t, i, i);
    StepKeepsView(r.states[i], r.actions[i], r.states[i + 1], t);
  }

  // ---------------------------------------------------------------- which transactions there are

  /** How many transactions the actions begin. */
  function Begins(actions: seq<Action>): nat {
    if actions == [] then 0
    else Begins(actions[..|actions| - 1]) + if actions[|actions| - 1] == Begun then 1 else 0
  }

  /** Action `b` begins version `v`: versions are numbered from 1 in the order they begin. */
  predicate BeginsVersion(actions: seq<Action>, b: nat, v: Version) {
    b < |actions| && actions[b] == Begun && v == Begins(actions[..b]) + 1
  }

  /** No action from `b` to before `i` commits or rolls back version `v`. */
  predicate Open(actions: seq<Action>, b: nat, i: nat, v: Version) {
    i <= |actions| && forall j :: b <= j < i ==> actions[j] != Committed(v) && actions[j] != RolledBack(v)
  }

  lemma {:induction false} NextCounts(r: Run, i: nat)
    requires r.Ok() && i < |r.states|
    ensures r.states[i].next == Begins(r.actions[..i]) + 1
  {
    if i > 0 {
      NextCounts(r, i - 1);
      assert r.Moves(i - 1);
      assert r.actions[..i][..i - 1] == r.actions[..i - 1];
    }
  }

  /** The active transactions are exactly those begun and not ended. */
  lemma {:induction false} ActiveIff(r: Run, i: nat, v: Version)
    requires r.Ok() && i < |r.states|
    ensures v in r.states[i].active
      <==> exists b: nat :: b < i && BeginsVersion(r.actions, b, v) && Open(r.actions, b, i, v)
  {
    if i > 0 {
      hide Valid, Begins, Write;
      ActiveIff(r, i - 1, v);
      NextCounts(r, i - 1);
      AlwaysValid(r, i - 1);
      ActiveBounded(r.states[i - 1]);
      assert r.Moves(i - 1);
      ActiveStep(r.states[i - 1], r.actions[i - 1], r.states[i], v);
      if v in r.states[i].active {
        if v == r.states[i - 1].next && r.actions[i - 1] == Begun {
          assert BeginsVersion(r.actions, i - 1, v) && Open(r.actions, i - 1, i, v);
        } else {
          var b: nat :| b < i - 1 && BeginsVersion(r.actions, b, v) && Open(r.actions, b, i - 1, v);
          assert Open(r.actions, b, i, v);
        }
      }
      forall b: nat | b < i && BeginsVersion(r.actions, b, v) && Open(r.actions, b, i, v)
        ensures v in r.states[i].active {
        if b < i - 1 { assert Open(r.actions, b, i - 1, v); }
      }
    }
  }

  lemma ActiveBounded(db: Db)
    requires Valid(db)
    ensures db.next !in db.active
  {
    hide Recorded, Continuous, Seen, Sorted;
  }

  lemma ActiveStep(db: Db, a: Action, db': Db, v: Version)
    requires Step(db, a, db')
    ensures v in db'.active
      <==> (v in db.active && a != Committed(v) && a != RolledBack(v)) || (a == Begun && v == db.next)
  {
    hide Drop, Put, Conflict;
  }

  /** Every version from 1 up to the number of transactions begun has begun. */
  lemma {:induction false} VersionsBegin(actions: seq<Action>, i: nat, v: Version)
    requires i <= |actions|
    ensures 1 <= v <= Begins(actions[..i]) <==> exists b: nat :: b < i && BeginsVersion(actions, b, v)
  {
    if i > 0 {
      VersionsBegin(actions, i - 1, v);
      assert actions[..i][..i - 1] == actions[..i - 1];
      if v == Begins(actions[..i - 1]) + 1 && actions[i - 1] == Begun { assert BeginsVersion(actions, i - 1, v); }
      forall b: nat | b < i && BeginsVersion(actions, b, v) ensures 1 <= v <= Begins(actions[..i]) {
        if b < i - 1 { assert exists c: nat :: c < i - 1 && BeginsVersion(actions, c, v); }
      }
    }
  }

  /** A read-write transaction resumes exactly if it has begun, and has neither committed nor rolled back since. */
  lemma ResumesIff(r: Run, i: nat, t: Txn)
    requires r.Ok() && i < |r.states|
    ensures t.readOnly ==> Resume(r.states[i], t) == Some(t)
    ensures !t.readOnly ==>
      Resume(r.states[i], t)
      == if exists b: nat :: b < i && BeginsVersion(r.actions, b, t.version) && Open(r.actions, b, i, t.version)
         then Some(t) else None
  {
    ActiveIff(r, i, t.version);
  }

  /**
   * `begin_as_of` is refused exactly for versions that do not exist: all but 0 and those begun before. It gives a
   * read-only transaction at the version asked for, whose view hides what was active when that version began.
   */
  lemma AsOfIff(r: Run, i: nat, v: Version)
    requires r.Ok() && i < |r.states|
    ensures BeginAsOf(r.states[i], v).Some? <==> v == 0 || exists b: nat :: b < i && BeginsVersion(r.actions, b, v)
    ensures BeginAsOf(r.states[i], v).Some? ==>
      BeginAsOf(r.states[i], v).value.readOnly && BeginAsOf(r.states[i], v).value.version == v
    ensures BeginAsOf(r.states[i], v).Some? ==> forall u: Version ::
      u in BeginAsOf(r.states[i], v).value.active <==>
        exists b: nat :: b < i && BeginsVersion(r.actions, b, v) && ActiveAt(r, b, u)
  {
    NextCounts(r, i);
    VersionsBegin(r.actions, i, v);
    if v < r.states[i].next { SnapshotIs(r, i, v); }
  }

  /** Version `u` had begun before action `b` and not ended by then. */
  ghost predicate ActiveAt(r: Run, b: nat, u: Version) {
    exists a: nat :: a < b && BeginsVersion(r.actions, a, u) && Open(r.actions, a, b, u)
  }

  lemma {:induction false} SnapshotIs(r: Run, i: nat, v: Version)
    requires r.Ok() && i < |r.states| && v < r.states[i].next
    ensures forall u: Version :: u in Snapshot(r.states[i], v) <==>
      exists b: nat :: b < i && BeginsVersion(r.actions, b, v) && ActiveAt(r, b, u)
  {
    hide Valid, Step;
    NextCounts(r, i);
    VersionsBegin(r.actions, i, v);
    if v == 0 {
      AlwaysValid(r, i);
      NoneAtZero(r.states[i]);
      forall b: nat | b < i ensures !BeginsVersion(r.actions, b, v) {}
    } else {
      var b: nat :| b < i && BeginsVersion(r.actions, b, v);
      NextCounts(r, b);
      AlwaysValid(r, b);
      assert r.Moves(b);
      BegunSnapshot(r.states[b], r.states[b + 1]);
      Monotone(r, b + 1, i);
      assert Snapshot(r.states[i], v) == r.states[b].active;
      forall u: Version ensures u in r.states[b].active <==> ActiveAt(r, b, u) { ActiveIff(r, b, u); }
      forall c: nat | c < i && BeginsVersion(r.actions, c, v) ensures c == b { OneBegin(r.actions, b, c, v); }
    }
  }

  lemma NoneAtZero(db: Db)
    requires Valid(db)
    ensures Snapshot(db, 0) == {}
  {
    hide Recorded, Continuous, Seen, Sorted;
    assert 0 in db.snapshots ==> forall u :: u in db.snapshots[0] ==> 1 <= u < 0;
  }

  lemma BegunSnapshot(db: Db, db': Db)
    requires Valid(db) && Step(db, Begun, db')
    ensures db.next < db'.next && Snapshot(db', db.next) == db.active
  {
    BeginKeeps(db);
  }

  lemma OneBegin(actions: seq<Action>, b: nat, c: nat, v: Version)
    requires BeginsVersion(actions, b, v) && BeginsVersion(actions, c, v)
    ensures b == c
  {
    if b < c { VersionsBegin(actions, c, v); }
    if c < b { VersionsBegin(actions, b, v); }
  }
}
