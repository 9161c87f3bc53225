/**
 * Scans of src/storage/mvcc.rs: rows are pulled in batches, and the engine mutex is released between
 * batches, so other transactions run while a scan is under way.
 */
module MvccScan {
  import opened Common
  import opened Bytes
  import opened Keycode
  import opened MvccKeys
  import opened Mvcc
  import opened MvccInvariant
  import opened MvccRun

  datatype Row = Row(key: Bytes, value: Bytes)
  datatype Range = Range(lo: Bound, hi: Bound)

  function Encoded(e: Entry): Bytes { EncodeKey(Versioned(e.key, e.version)) }

  /** The stored versions whose engine keys lie in a byte range. */
  function Slice(s: seq<Entry>, r: Range): seq<Entry> {
    if s == [] then []
    else if InRange(r.lo, r.hi, Encoded(s[0])) then [s[0]] + Slice(s[1..], r)
    else Slice(s[1..], r)
  }

  /** The newest of each key, unless it is a tombstone. */
  function Rows(s: seq<Entry>): seq<Row> {
    if s == [] then []
    else if (|s| > 1 && s[1].key == s[0].key) || s[0].value.None? then Rows(s[1..])
    else [Row(s[0].key, s[0].value.value)] + Rows(s[1..])
  }

  /** A scan under way: rows ready to emit, and the engine range still to read. */
  datatype Scan = Scan(txn: Txn, buffer: seq<Row>, remainder: Option<Range>)

  function ScanFrom(t: Txn, r: Range): Scan { Scan(t, [], Some(r)) }

  datatype Batch = Batch(buffer: seq<Row>, rest: seq<Entry>)

  /** Pulls rows off the visible versions until the buffer is full; also what is left unread then. */
  function Pull(s: seq<Entry>, buffer: seq<Row>, size: nat): Batch {
    if s == [] then Batch(buffer, [])
    else if (|s| > 1 && s[1].key == s[0].key) || s[0].value.None? then Pull(s[1..], buffer, size)
    else
      var more := buffer + [Row(s[0].key, s[0].value.value)];
      if |more| == size then Batch(more, s[1..]) else Pull(s[1..], more, size)
  }

  /** `fill_buffer`. */
  function Fill(scan: Scan, versions: seq<Entry>, size: nat): Scan {
    if |scan.buffer| >= size || scan.remainder.None? then scan
    else
      var r := scan.remainder.value;
      var batch := Pull(View(Slice(versions, r), scan.txn), scan.buffer, size);
      var remainder := if batch.rest == [] then None else Some(Range(Included(Encoded(batch.rest[0])), r.hi));
      Scan(scan.txn, batch.buffer, remainder)
  }

  /** `next`. */
  function Next(scan: Scan, versions: seq<Entry>, size: nat): (Scan, Option<Row>) {
    var full := if scan.buffer == [] then Fill(scan, versions, size) else scan;
    if full.buffer == [] then (full, None) else (full.(buffer := full.buffer[1..]), Some(full.buffer[0]))
  }

  // ---------------------------------------------------------------- rows are point reads

  predicate HasKey(s: seq<Entry>, k: Bytes) {
    exists i :: 0 <= i < |s| && s[i].key == k
  }

  predicate Ascending(rows: seq<Row>) {
    forall i, j :: 0 <= i < j < |rows| ==> Less(rows[i].key, rows[j].key)
  }

  lemma {:induction false} LookupCons(a: Entry, s: seq<Entry>, k: Bytes)
    ensures Lookup([a] + s, k) == if HasKey(s, k) then Lookup(s, k) else if a.key == k then a.value else None
    ensures !HasKey(s, k) ==> Lookup(s, k) == None
  {
    var m := |s| - 1;
    if s == [] {
      assert ([a] + s)[..0] == [];
    } else if s[m].key != k {
      assert ([a] + s)[..|s|] == [a] + s[..m];
      LookupCons(a, s[..m], k);
      assert HasKey(s, k) <==> HasKey(s[..m], k) by {
        if HasKey(s, k) { var i :| 0 <= i < |s| && s[i].key == k; assert s[..m][i].key == k; }
        if HasKey(s[..m], k) { var i :| 0 <= i < m && s[..m][i].key == k; assert s[i].key == k; }
      }
    }
  }

  /** Later entries have later keys, and the next entry tells whether the first is the newest of its key. */
  lemma FirstKey(s: seq<Entry>)
    requires Sorted(s) && s != []
    ensures HasKey(s[1..], s[0].key) <==> |s| > 1 && s[1].key == s[0].key
    ensures !(|s| > 1 && s[1].key == s[0].key) ==> forall e :: e in s[1..] ==> Less(s[0].key, e.key)
  {
    if |s| > 1 && s[1].key == s[0].key {
      assert s[1..][0].key == s[0].key;
    } else {
      forall e | e in s[1..] ensures Less(s[0].key, e.key) {
        assert Before(s[0], s[1]);
        if e != s[1] { assert Before(s[1], e); if Less(s[1].key, e.key) { LessTransitive(s[0].key, s[1].key, e.key); } }
      }
      LessIrreflexive(s[0].key);
    }
  }

  lemma RowsStep(s: seq<Entry>)
    requires s != []
    ensures Rows(s) == (if (|s| > 1 && s[1].key == s[0].key) || s[0].value.None? then []
      else [Row(s[0].key, s[0].value.value)]) + Rows(s[1..])
  {
    assert [] + Rows(s[1..]) == Rows(s[1..]);
  }

  /** Rows come in key order, and are exactly the keys that read as a value, each once. */
  lemma {:induction false} RowsAreReads(s: seq<Entry>)
    requires Sorted(s)
    ensures Ascending(Rows(s))
    ensures forall x :: x in Rows(s) ==> HasKey(s, x.key)
    ensures forall k, v :: Row(k, v) in Rows(s) <==> Lookup(s, k) == Some(v)
  {
    if s != [] {
      var a, s' := s[0], s[1..];
      assert s == [a] + s';
      RowsAreReads(s');
      FirstKey(s);
      RowsStep(s);
      hide Rows, Lookup, Less, Sorted;
      forall k ensures HasKey(s', k) ==> HasKey(s, k) {
        if HasKey(s', k) { var i :| 0 <= i < |s'| && s'[i].key == k; assert s[i + 1].key == k; }
      }
      forall k, v ensures Row(k, v) in Rows(s) <==> Lookup(s, k) == Some(v) {
        LookupCons(a, s', k);
      }
      assert HasKey(s, a.key);
    }
  }

  /** An engine range that selects whole user keys. */
  ghost predicate Selects(r: Range, keys: iset<Bytes>) {
    forall k: Bytes, v: Version :: InRange(r.lo, r.hi, EncodeKey(Versioned(k, v))) <==> k in keys
  }

  /** The ranges of `scan` and `scan_prefix`. */
  function UserRange(lo: Bound, hi: Bound): Range { Range(ScanStart(lo), ScanEnd(hi)) }

  function PrefixRange(p: Bytes): Range { Range(Included(ChoppedPrefix(p)), PrefixEnd(ChoppedPrefix(p))) }

  predicate StartsWith(k: Bytes, p: Bytes) { p <= k }

  lemma RangesSelect(lo: Bound, hi: Bound, p: Bytes)
    ensures Selects(UserRange(lo, hi), iset k | InRange(lo, hi, k))
    ensures Selects(PrefixRange(p), iset k | StartsWith(k, p))
  {
    hide InRange, ScanStart, ScanEnd, PrefixEnd, ChoppedPrefix, EncodeKey;
    forall k: Bytes, v: Version
      ensures InRange(ScanStart(lo), ScanEnd(hi), EncodeKey(Versioned(k, v))) <==> InRange(lo, hi, k)
      ensures InRange(Included(ChoppedPrefix(p)), PrefixEnd(ChoppedPrefix(p)), EncodeKey(Versioned(k, v))) <==> p <= k
    {
      ScanRangeExact(lo, hi, Versioned(k, v));
      ScanPrefixExact(p, Versioned(k, v));
    }
  }

  lemma {:induction false} SliceReads(s: seq<Entry>, r: Range, keys: iset<Bytes>, k: Bytes)
    requires Selects(r, keys)
    ensures HasKey(Slice(s, r), k) <==> HasKey(s, k) && k in keys
    ensures Lookup(Slice(s, r), k) == if k in keys then Lookup(s, k) else None
  {
    hide InRange, EncodeKey;
    if s != [] {
      var a, s' := s[0], s[1..];
      assert s == [a] + s';
      SliceReads(s', r, keys, k);
      LookupCons(a, s', k);
      LookupCons(a, Slice(s', r), k);
      ConsKey(a, s', k);
      ConsKey(a, Slice(s', r), k);
      assert InRange(r.lo, r.hi, Encoded(a)) <==> a.key in keys;
    }
  }

  lemma ConsKey(a: Entry, s: seq<Entry>, k: Bytes)
    ensures HasKey([a] + s, k) <==> a.key == k || HasKey(s, k)
  {
    var l := [a] + s;
    if HasKey(l, k) { var i :| 0 <= i < |l| && l[i].key == k; assert i > 0 ==> s[i - 1].key == k; }
    if a.key == k { assert l[0].key == k; }
    if HasKey(s, k) { var i :| 0 <= i < |s| && s[i].key == k; assert l[i + 1].key == k; }
  }

  lemma {:induction false} SliceOfView(s: seq<Entry>, t: Txn, r: Range)
    ensures View(Slice(s, r), t) == Slice(View(s, t), r)
  {
    hide InRange, EncodeKey, Visible;
    if s != [] {
      SliceOfView(s[1..], t, r);
      assert ([s[0]] + Slice(s[1..], r))[1..] == Slice(s[1..], r);
      assert ([s[0]] + View(s[1..], t))[1..] == View(s[1..], t);
    }
  }

  lemma {:induction false} SliceMembers(s: seq<Entry>, r: Range)
    requires Sorted(s)
    ensures Sorted(Slice(s, r))
    ensures forall x :: x in Slice(s, r) <==> x in s && InRange(r.lo, r.hi, Encoded(x))
  {
    hide InRange, EncodeKey;
    if s != [] {
      assert s == [s[0]] + s[1..];
      SliceMembers(s[1..], r);
      forall x | x in s[1..] ensures Before(s[0], x) {}
    }
  }

  // ---------------------------------------------------------------- batches

  /** What a scan has yet to emit, against a view. */
  function Left(scan: Scan, view: seq<Entry>): seq<Row> {
    scan.buffer + if scan.remainder.None? then [] else Rows(Slice(view, scan.remainder.value))
  }

  /** Pulling moves rows from the versions to the buffer, and loses and repeats none. */
  lemma {:induction false} PullKeeps(s: seq<Entry>, buffer: seq<Row>, size: nat)
    ensures var b := Pull(s, buffer, size);
      && b.buffer + Rows(b.rest) == buffer + Rows(s)
      && buffer <= b.buffer
      && (b.rest != [] ==> b.buffer != [] && |b.rest| < |s| && b.rest == s[|s| - |b.rest|..])
  {
    if s != [] {
      if (|s| > 1 && s[1].key == s[0].key) || s[0].value.None? {
        PullKeeps(s[1..], buffer, size);
      } else {
        var row := Row(s[0].key, s[0].value.value);
        var more := buffer + [row];
        if |more| != size { PullKeeps(s[1..], more, size); }
        assert buffer + ([row] + Rows(s[1..])) == more + Rows(s[1..]);
      }
    }
  }

  lemma EncodedBefore(a: Entry, b: Entry)
    ensures Before(a, b) <==> Less(Encoded(a), Encoded(b))
    ensures SameId(a, b) <==> Encoded(a) == Encoded(b)
  {
    KeyOrder(Versioned(a.key, a.version), Versioned(b.key, b.version));
  }

  /** Restarting at an entry of a sorted slice selects that entry and the ones after it. */
  lemma {:induction false} RestartExact(s: seq<Entry>, r: Range, x: Entry, i: nat)
    requires Sorted(s) && i < |Slice(s, r)| && Slice(s, r)[i] == x
    ensures Slice(s, Range(Included(Encoded(x)), r.hi)) == Slice(s, r)[i..]
  {
    hide EncodeKey, Less;
    var r' := Range(Included(Encoded(x)), r.hi);
    var a, s' := s[0], s[1..];
    SliceMembers(s, r);
    assert s == [a] + s';
    assert x in s && InRange(r.lo, r.hi, Encoded(x));
    EncodedBefore(x, a);
    EncodedBefore(a, x);
    if !InRange(r.lo, r.hi, Encoded(a)) {
      RestartExact(s', r, x, i);
      assert a != x;
      assert x in s';
      assert Before(a, x);
      BeforeStrict(a, x);
    } else if i == 0 {
      SliceAfter(s', r, x);
    } else {
      assert Slice(s, r)[1..] == Slice(s', r);
      RestartExact(s', r, x, i - 1);
      assert Before(Slice(s, r)[0], Slice(s, r)[i]);
      BeforeStrict(a, x);
    }
  }

  lemma {:induction false} SliceAfter(s: seq<Entry>, r: Range, x: Entry)
    requires InRange(r.lo, r.hi, Encoded(x)) && (forall e :: e in s ==> Before(x, e))
    ensures Slice(s, Range(Included(Encoded(x)), r.hi)) == Slice(s, r)
  {
    hide EncodeKey, Less;
    if s != [] {
      SliceAfter(s[1..], r, x);
      assert s[0] in s;
      EncodedBefore(x, s[0]);
      if r.lo.Included? && r.lo.key != Encoded(x) { LessTransitive(r.lo.key, Encoded(x), Encoded(s[0])); }
      if r.lo.Excluded? { LessTransitive(r.lo.key, Encoded(x), Encoded(s[0])); }
    }
  }

  lemma NoRows()
    ensures Rows([]) == []
  {
  }

  /** Refilling the buffer changes nothing in what is left to emit, and finds a row if there is one. */
  lemma FillKeeps(scan: Scan, versions: seq<Entry>, size: nat)
    requires Sorted(versions) && size > 0
    ensures var view := View(versions, scan.txn);
      var scan' := Fill(scan, versions, size);
      && scan'.txn == scan.txn
      && Left(scan', view) == Left(scan, view)
      && (scan'.buffer == [] ==> Left(scan, view) == [])
  {
    hide InRange, EncodeKey, Less, View, Slice, Rows, Pull, Sorted;
    var view := View(versions, scan.txn);
    if |scan.buffer| < size && scan.remainder.Some? {
      var r := scan.remainder.value;
      SliceOfView(versions, scan.txn, r);
      var s := Slice(view, r);
      PullKeeps(s, scan.buffer, size);
      var b := Pull(s, scan.buffer, size);
      if b.rest != [] {
        ViewMembers(versions, scan.txn);
        RestartExact(view, r, b.rest[0], |s| - |b.rest|);
      } else {
        NoRows();
      }
    }
  }

  /** One call of `next` takes the first row that is left. */
  lemma NextTakesFirst(scan: Scan, versions: seq<Entry>, size: nat)
    requires Sorted(versions) && size > 0
    ensures var view := View(versions, scan.txn);
      var (scan', row) := Next(scan, versions, size);
      && scan'.txn == scan.txn
      && (if Left(scan, view) == [] then row.None? && Left(scan', view) == []
          else row == Some(Left(scan, view)[0]) && Left(scan', view) == Left(scan, view)[1..])
  {
    hide Fill, Rows, Slice, View, Sorted;
    FillKeeps(scan, versions, size);
    var full := if scan.buffer == [] then Fill(scan, versions, size) else scan;
    assert full.buffer != [] ==> Left(full, View(versions, scan.txn))[0] == full.buffer[0];
  }

  // ---------------------------------------------------------------- the scan theorem

  /** The results of calling `next` once at each of the given states. */
  function Polled(scan: Scan, polls: seq<Db>, size: nat): (rows: seq<Option<Row>>)
    ensures |rows| == |polls|
    decreases polls
  {
    if polls == [] then []
    else
      var (scan', row) := Next(scan, polls[0].versions, size);
      [row] + Polled(scan', polls[1..], size)
  }

  ghost predicate Sees(db: Db, t: Txn, view: seq<Entry>) {
    Sorted(db.versions) && View(db.versions, t) == view
  }

  lemma {:induction false} PolledInOrder(scan: Scan, polls: seq<Db>, size: nat, view: seq<Entry>, n: nat)
    requires size > 0 && n < |polls|
    requires forall db :: db in polls ==> Sees(db, scan.txn, view)
    ensures Polled(scan, polls, size)[n] == if n < |Left(scan, view)| then Some(Left(scan, view)[n]) else None
    decreases polls
  {
    hide Next, Left, View, Sorted;
    var db := polls[0];
    assert db in polls;
    NextTakesFirst(scan, db.versions, size);
    if n > 0 {
      PolledInOrder(Next(scan, db.versions, size).0, polls[1..], size, view, n - 1);
    }
  }

  /**
   * A batched scan refines point reads: for every buffer size, and whatever other transactions do between
   * refills, a scan by a transaction that makes no writes meanwhile emits the keys of the range whose `get`
   * is a value, in order, each once with that value, and then nothing.
   */
  lemma BatchedScan(run: Run, t: Txn, i: nat, j: nat, r: Range, keys: iset<Bytes>, polls: seq<Db>, size: nat)
    requires run.Ok() && i <= j < |run.states| && Began(run, t, i) && Selects(r, keys) && size > 0
    requires forall db :: db in polls ==> db in run.states[i..j + 1]
    requires t.readOnly || forall a :: a in run.actions[i..j] ==>
      !(a.Wrote? && a.v == t.version) && a != RolledBack(t.version)
    ensures exists rows: seq<Row> ::
      && Ascending(rows)
      && (forall k, x :: Row(k, x) in rows <==> k in keys && Get(run.states[i], t, k) == Some(x))
      && Emits(Polled(ScanFrom(t, r), polls, size), rows)
  {
    hide Selects, Slice, Visible, InRange, Began, Polled, View, Rows, Valid, Step;
    var view := View(run.states[i].versions, t);
    var rows := Rows(Slice(view, r));
    ScanReads(run, t, i, r, keys);
    forall db | db in polls ensures Sees(db, t, view) {
      var p :| i <= p <= j && run.states[p] == db;
      AlwaysValid(run, p);
      SortedWhenValid(db);
      QuietView(run, t, i, p, j);
    }
    assert Left(ScanFrom(t, r), view) == rows;
    forall n | 0 <= n < |polls|
      ensures Polled(ScanFrom(t, r), polls, size)[n] == if n < |rows| then Some(rows[n]) else None {
      PolledInOrder(ScanFrom(t, r), polls, size, view, n);
    }
  }

  /** The rows in order, then nothing more. */
  ghost predicate Emits(results: seq<Option<Row>>, rows: seq<Row>) {
    forall n :: 0 <= n < |results| ==> results[n] == if n < |rows| then Some(rows[n]) else None
  }

  lemma SortedWhenValid(db: Db)
    requires Valid(db)
    ensures Sorted(db.versions)
  {
  }

  lemma ScanReads(run: Run, t: Txn, i: nat, r: Range, keys: iset<Bytes>)
    requires run.Ok() && i < |run.states| && Selects(r, keys)
    ensures var rows := Rows(Slice(View(run.states[i].versions, t), r));
      && Ascending(rows)
      && (forall k, x :: Row(k, x) in rows <==> k in keys && Get(run.states[i], t, k) == Some(x))
  {
    hide Selects, Slice, Visible, InRange, Rows;
    var view := View(run.states[i].versions, t);
    AlwaysValid(run, i);
    ViewMembers(run.states[i].versions, t);
    SliceMembers(view, r);
    RowsAreReads(Slice(view, r));
    forall k, x ensures Row(k, x) in Rows(Slice(view, r)) <==> k in keys && Get(run.states[i], t, k) == Some(x) {
      SliceReads(view, r, keys, k);
    }
  }

  lemma QuietView(run: Run, t: Txn, i: nat, p: nat, j: nat)
    requires run.Ok() && i <= p <= j < |run.states| && Began(run, t, i)
    requires t.readOnly || forall a :: a in run.actions[i..j] ==>
      !(a.Wrote? && a.v == t.version) && a != RolledBack(t.version)
    ensures View(run.states[p].versions, t) == View(run.states[i].versions, t)
  {
    hide Began;
    assert run.actions[i..p] <= run.actions[i..j];
    assert forall a :: a in run.actions[i..p] ==> a in run.actions[i..j];
    StableSnapshot(run, t, i, p);
    QuietOwns(View(run.states[i].versions, t), t, run.actions[i..p]);
  }
}
