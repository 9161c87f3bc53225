/** What the two join iterators yield, in terms of the rows that go in. */
module JoinMeaning {
  import opened SqlValues
  import opened Joins

  /** Which left and right rows belong together. */
  type Pairing = (Row, Row) -> bool

  predicate Ascending(picks: seq<nat>) { forall i, j :: 0 <= i < j < |picks| ==> picks[i] < picks[j] }

  /** The positions of exactly the right rows that belong to `l`, in order. */
  ghost predicate Picks(picks: seq<nat>, l: Row, rights: seq<Row>, pairs: Pairing) {
    Ascending(picks) && forall i: nat :: i in picks <==> i < |rights| && pairs(l, rights[i])
  }

  /** The left row itself, and nothing but NULL in `width` further places. */
  predicate Padded(row: Row, l: Row, width: nat) {
    |row| == |l| + width && l <= row && forall i :: |l| <= i < |row| ==> row[i] == Null
  }

  /** The concatenations of a left row with the right rows picked. */
  predicate Concatenates(rows: seq<Row>, l: Row, rights: seq<Row>, picks: seq<nat>) {
    && |rows| == |picks|
    && forall j :: 0 <= j < |picks| ==> picks[j] < |rights| && rows[j] == l + rights[picks[j]]
  }

  /** The joined rows of one left row: its concatenations, or, in an outer join without any, one padded row. */
  ghost predicate RowsOf(rows: seq<Row>, l: Row, rights: seq<Row>, pairs: Pairing, outer: bool, width: nat) {
    exists picks: seq<nat> :: Picks(picks, l, rights, pairs) && RowsPicked(rows, l, rights, picks, outer, width)
  }

  predicate RowsPicked(rows: seq<Row>, l: Row, rights: seq<Row>, picks: seq<nat>, outer: bool, width: nat) {
    if picks == [] && outer then |rows| == 1 && Padded(rows[0], l, width) else Concatenates(rows, l, rights, picks)
  }

  function Flat(parts: seq<seq<Row>>): seq<Row> {
    if parts == [] then [] else parts[0] + Flat(parts[1..])
  }

  /** The joined rows of all left rows, in order. */
  ghost predicate Joined(rows: seq<Row>, lefts: seq<Row>, rights: seq<Row>, pairs: Pairing, outer: bool, width: nat) {
    exists parts: seq<seq<Row>> ::
      && |parts| == |lefts|
      && rows == Flat(parts)
      && forall i :: 0 <= i < |parts| ==> RowsOf(parts[i], lefts[i], rights, pairs, outer, width)
  }

  lemma JoinedNone(rights: seq<Row>, pairs: Pairing, outer: bool, width: nat)
    ensures Joined([], [], rights, pairs, outer, width)
  {
    var parts: seq<seq<Row>> := [];
    assert Flat(parts) == [];
  }

  lemma JoinedCons(part: seq<Row>, rows: seq<Row>, l: Row, lefts: seq<Row>, rights: seq<Row>, pairs: Pairing,
    outer: bool, width: nat)
    requires RowsOf(part, l, rights, pairs, outer, width) && Joined(rows, lefts, rights, pairs, outer, width)
    ensures Joined(part + rows, [l] + lefts, rights, pairs, outer, width)
  {
    hide RowsOf;
    var rest :| && |rest| == |lefts| && rows == Flat(rest)
                && forall i :: 0 <= i < |rest| ==> RowsOf(rest[i], lefts[i], rights, pairs, outer, width);
    var parts := [part] + rest;
    assert parts[1..] == rest;
    forall i | 0 <= i < |parts| ensures RowsOf(parts[i], ([l] + lefts)[i], rights, pairs, outer, width) {
      if i > 0 { assert parts[i] == rest[i - 1]; }
    }
  }

  /** Every row of a join of shaped sources has the columns of both. */
  lemma JoinedShape(rows: seq<Row>, lefts: seq<Row>, rights: seq<Row>, pairs: Pairing, outer: bool, columns: nat,
    width: nat)
    requires Joined(rows, lefts, rights, pairs, outer, width)
    requires (forall l :: l in lefts ==> |l| == columns) && (forall r :: r in rights ==> |r| == width)
    ensures forall row :: row in rows ==> |row| == columns + width
  {
    var parts :| && |parts| == |lefts| && rows == Flat(parts)
                 && forall i :: 0 <= i < |parts| ==> RowsOf(parts[i], lefts[i], rights, pairs, outer, width);
    hide RowsOf;
    forall i | 0 <= i < |parts| ensures forall row :: row in parts[i] ==> |row| == columns + width {
      assert lefts[i] in lefts;
      RowsShape(parts[i], lefts[i], rights, pairs, outer, width);
    }
    FlatShape(parts, columns + width);
  }

  lemma RowsShape(rows: seq<Row>, l: Row, rights: seq<Row>, pairs: Pairing, outer: bool, width: nat)
    requires RowsOf(rows, l, rights, pairs, outer, width) && forall r :: r in rights ==> |r| == width
    ensures forall row :: row in rows ==> |row| == |l| + width
  {
    hide Picks;
    var picks :| Picks(picks, l, rights, pairs) && RowsPicked(rows, l, rights, picks, outer, width);
    forall row | row in rows ensures |row| == |l| + width {
      var j :| 0 <= j < |rows| && rows[j] == row;
      if !(picks == [] && outer) { assert rights[picks[j]] in rights; }
    }
  }

  lemma {:induction false} FlatShape(parts: seq<seq<Row>>, n: nat)
    requires forall i :: 0 <= i < |parts| ==> forall row :: row in parts[i] ==> |row| == n
    ensures forall row :: row in Flat(parts) ==> |row| == n
  {
    if parts != [] {
      FlatShape(parts[1..], n);
    }
  }

  // ---------------------------------------------------------------- picking right rows

  /** What one more right row in front does to the picks. */
  lemma PickFirst(picks: seq<nat>, l: Row, r: Row, rest: seq<Row>, pairs: Pairing) returns (all: seq<nat>)
    requires Picks(picks, l, rest, pairs)
    ensures Picks(all, l, [r] + rest, pairs)
    ensures |all| == |picks| + (if pairs(l, r) then 1 else 0) && (pairs(l, r) ==> all[0] == 0)
    ensures forall j :: 0 <= j < |picks| ==> all[|all| - |picks| + j] == picks[j] + 1
  {
    var later := seq(|picks|, j requires 0 <= j < |picks| => picks[j] + 1);
    all := (if pairs(l, r) then [0] else []) + later;
    var rights := [r] + rest;
    assert forall i: nat :: i in all <==> (i == 0 && pairs(l, r)) || i in later;
    forall i: nat ensures i in all <==> i < |rights| && pairs(l, rights[i]) {
      if i > 0 {
        assert rights[1..] == rest && (i < |rights| ==> rights[i] == rest[i - 1]);
        ShiftedIn(picks, later, i);
      } else {
        assert 0 !in later;
      }
    }
  }

  lemma ShiftedIn(picks: seq<nat>, later: seq<nat>, i: nat)
    requires |later| == |picks| && i > 0 && forall j :: 0 <= j < |picks| ==> later[j] == picks[j] + 1
    ensures i in later <==> i - 1 in picks
  {
    if i - 1 in picks {
      var j :| 0 <= j < |picks| && picks[j] == i - 1;
      assert later[j] == i;
    }
  }

  lemma PickLast(picks: seq<nat>, l: Row, rest: seq<Row>, r: Row, pairs: Pairing)
    requires Picks(picks, l, rest, pairs)
    ensures Picks(if pairs(l, r) then picks + [|rest|] else picks, l, rest + [r], pairs)
  {
    var all := if pairs(l, r) then picks + [|rest|] else picks;
    var rights := rest + [r];
    assert forall j :: 0 <= j < |picks| ==> picks[j] in picks;
    forall i: nat ensures i in all <==> i < |rights| && pairs(l, rights[i]) {
      assert i < |rest| ==> rights[i] == rest[i];
    }
  }

  // ---------------------------------------------------------------- the nested loop

  function Accepted(accepts: Predicate): Pairing { (l: Row, r: Row) => accepts(l + r) == True }

  /** Until a comparison fails, the matches are the right rows accepted, in order. */
  lemma {:induction false} MatchesPick(l: Row, rights: seq<Row>, accepts: Predicate) returns (n: nat, picks: seq<nat>)
    ensures n <= |rights| && Picks(picks, l, rights[..n], Accepted(accepts))
    ensures Concatenates(Matches(l, rights, accepts).rows, l, rights[..n], picks)
    ensures if Matches(l, rights, accepts).failed then n < |rights| && accepts(l + rights[n]) == Error
      else n == |rights|
    ensures forall i :: 0 <= i < n ==> accepts(l + rights[i]) != Error
  {
    if rights == [] {
      n, picks := 0, [];
    } else {
      var r, rest := rights[0], rights[1..];
      if accepts(l + r) == Error {
        n, picks := 0, [];
      } else {
        var m, later := MatchesPick(l, rest, accepts);
        n := m + 1;
        assert rights[..n] == [r] + rest[..m];
        picks := PickFirst(later, l, r, rest[..m], Accepted(accepts));
        MatchesShift(l, r, rest, m, accepts, later, picks);
      }
    }
  }

  lemma MatchesShift(l: Row, r: Row, rest: seq<Row>, m: nat, accepts: Predicate, later: seq<nat>, picks: seq<nat>)
    requires m <= |rest| && accepts(l + r) != Error
    requires Concatenates(Matches(l, rest, accepts).rows, l, rest[..m], later)
    requires |picks| == |later| + (if accepts(l + r) == True then 1 else 0)
    requires accepts(l + r) == True ==> picks[0] == 0
    requires forall j :: 0 <= j < |later| ==> picks[|picks| - |later| + j] == later[j] + 1
    ensures Concatenates(Matches(l, [r] + rest, accepts).rows, l, [r] + rest[..m], picks)
  {
    var rows, before := Matches(l, [r] + rest, accepts).rows, Matches(l, rest, accepts).rows;
    assert ([r] + rest)[1..] == rest;
    var d := |picks| - |later|;
    forall j | 0 <= j < |picks| ensures picks[j] < |[r] + rest[..m]| && rows[j] == l + ([r] + rest[..m])[picks[j]] {
      if j >= d { assert picks[d + (j - d)] == later[j - d] + 1 && rows[j] == before[j - d]; }
    }
  }

  /** The rows before a failed comparison: those of all left rows before, and of the right rows before. */
  ghost predicate JoinedUntil(rows: seq<Row>, lefts: seq<Row>, rights: seq<Row>, accepts: Predicate, outer: bool,
    width: nat, a: nat, b: nat)
    requires a < |lefts| && b < |rights|
  {
    exists whole: seq<Row>, part: seq<Row> ::
      && rows == whole + part
      && Joined(whole, lefts[..a], rights, Accepted(accepts), outer, width)
      && RowsOf(part, lefts[a], rights[..b], Accepted(accepts), false, width)
  }

  /** The first comparison that fails, left row by left row. */
  predicate FailsAt(lefts: seq<Row>, rights: seq<Row>, accepts: Predicate, a: nat, b: nat) {
    && a < |lefts| && b < |rights| && accepts(lefts[a] + rights[b]) == Error
    && (forall i, j :: 0 <= i < a && 0 <= j < |rights| ==> accepts(lefts[i] + rights[j]) != Error)
    && (forall j :: 0 <= j < b ==> accepts(lefts[a] + rights[j]) != Error)
  }

  predicate NeverFails(lefts: seq<Row>, rights: seq<Row>, accepts: Predicate) {
    forall l, r :: l in lefts && r in rights ==> accepts(l + r) != Error
  }

  /** One left row of the nested loop. */
  lemma LeftYields(l: Row, rights: seq<Row>, accepts: Predicate, outer: bool, width: nat) returns (b: nat)
    ensures var n := JoinedLeft(l, rights, false, accepts, outer, width);
      if n.failed then b < |rights| && accepts(l + rights[b]) == Error
        && RowsOf(n.rows, l, rights[..b], Accepted(accepts), false, width)
      else b == |rights| && RowsOf(n.rows, l, rights, Accepted(accepts), outer, width)
    ensures forall j :: 0 <= j < b ==> accepts(l + rights[j]) != Error
  {
    hide Picks, Concatenates;
    var n, picks := MatchesPick(l, rights, accepts);
    b := n;
    var m := Matches(l, rights, accepts);
    PickedSize(m.rows, l, rights[..n], picks);
    if !m.failed { assert rights[..n] == rights; }
    assert RowsPicked(m.rows, l, rights[..n], picks, false, width);
    if m == NOTHING && outer {
      assert RowsPicked([l + Nulls(width)], l, rights, picks, outer, width);
    } else if !m.failed {
      assert RowsPicked(m.rows, l, rights, picks, outer, width);
    }
  }

  lemma PickedSize(rows: seq<Row>, l: Row, rights: seq<Row>, picks: seq<nat>)
    requires Concatenates(rows, l, rights, picks)
    ensures |rows| == |picks|
  {}

  lemma {:induction false} NestedLoopYields(lefts: seq<Row>, rights: seq<Row>, accepts: Predicate, outer: bool,
    width: nat)
    ensures var n := NestedLoop(lefts, rights, accepts, outer, width);
      if n.failed then exists a: nat, b: nat ::
        FailsAt(lefts, rights, accepts, a, b) && JoinedUntil(n.rows, lefts, rights, accepts, outer, width, a, b)
      else NeverFails(lefts, rights, accepts) && Joined(n.rows, lefts, rights, Accepted(accepts), outer, width)
  {
    hide JoinedLeft, Joined, RowsOf, Accepted;
    if lefts == [] {
      JoinedNone(rights, Accepted(accepts), outer, width);
    } else {
      var l, rest := lefts[0], lefts[1..];
      assert lefts == [l] + rest;
      var b := LeftYields(l, rights, accepts, outer, width);
      NestedLoopYields(rest, rights, accepts, outer, width);
      var n, later := JoinedLeft(l, rights, false, accepts, outer, width),
        NestedLoop(rest, rights, accepts, outer, width);
      if n.failed {
        JoinedNone(rights, Accepted(accepts), outer, width);
        assert lefts[..0] == [] && [] + n.rows == n.rows;
        assert FailsAt(lefts, rights, accepts, 0, b) && JoinedUntil(n.rows, lefts, rights, accepts, outer, width, 0, b);
      } else if later.failed {
        var a: nat, c: nat :|
          FailsAt(rest, rights, accepts, a, c) && JoinedUntil(later.rows, rest, rights, accepts, outer, width, a, c);
        FailsLater(n.rows, later.rows, l, rest, rights, accepts, outer, width, a, c);
      } else {
        JoinedCons(n.rows, later.rows, l, rest, rights, Accepted(accepts), outer, width);
        forall x, r | x in lefts && r in rights ensures accepts(x + r) != Error {
          var j :| 0 <= j < |rights| && rights[j] == r;
        }
      }
    }
  }

  lemma FailsLater(part: seq<Row>, rows: seq<Row>, l: Row, rest: seq<Row>, rights: seq<Row>, accepts: Predicate,
    outer: bool, width: nat, a: nat, b: nat)
    requires RowsOf(part, l, rights, Accepted(accepts), outer, width)
    requires forall j :: 0 <= j < |rights| ==> accepts(l + rights[j]) != Error
    requires FailsAt(rest, rights, accepts, a, b) && JoinedUntil(rows, rest, rights, accepts, outer, width, a, b)
    ensures FailsAt([l] + rest, rights, accepts, a + 1, b)
    ensures JoinedUntil(part + rows, [l] + rest, rights, accepts, outer, width, a + 1, b)
  {
    hide Joined, RowsOf, Accepted;
    var whole, last :| && rows == whole + last
                       && Joined(whole, rest[..a], rights, Accepted(accepts), outer, width)
                       && RowsOf(last, rest[a], rights[..b], Accepted(accepts), false, width);
    JoinedCons(part, whole, l, rest[..a], rights, Accepted(accepts), outer, width);
    assert ([l] + rest)[..a + 1] == [l] + rest[..a];
    assert part + rows == (part + whole) + last;
  }

  /** All rows of the nested loop: `failed` if a comparison failed after them. */
  method RunNestedLoop(left: seq<Row>, right: seq<Row>, rightColumns: nat, accepts: Predicate, outer: bool)
    returns (rows: seq<Row>, failed: bool)
    ensures !failed <==> NeverFails(left, right, accepts)
    ensures !failed ==> Joined(rows, left, right, Accepted(accepts), outer, rightColumns)
    ensures failed ==> exists a: nat, b: nat ::
      FailsAt(left, right, accepts, a, b) && JoinedUntil(rows, left, right, accepts, outer, rightColumns, a, b)
  {
    hide NestedLoop, Joined, JoinedUntil, Accepted, NeverFails, FailsAt, NestedLoopJoiner.Remaining;
    var joiner := new NestedLoopJoiner(left, right, rightColumns, accepts, outer);
    rows, failed := Drain(joiner);
    NestedLoopYields(left, right, accepts, outer, rightColumns);
    SomeFails(left, right, accepts);
  }

  method Drain(joiner: NestedLoopJoiner) returns (rows: seq<Row>, failed: bool)
    modifies joiner
    ensures Output(rows, failed) == old(joiner.Remaining())
  {
    hide NestedLoopJoiner.Remaining;
    ghost var all := joiner.Remaining();
    rows := [];
    var item := joiner.TryNext();
    ghost var was := all;
    while item.Next?
      invariant was.failed == all.failed && rows + was.rows == all.rows
      invariant item.Next? ==> was.rows != [] && item == Next(was.rows[0])
      invariant item.Next? ==> joiner.Remaining() == Output(was.rows[1..], was.failed)
      invariant !item.Next? ==> was.rows == [] && (item == Failure <==> was.failed)
      decreases |was.rows|
    {
      rows := rows + [item.row];
      was := Output(was.rows[1..], was.failed);
      item := joiner.TryNext();
    }
    failed := item.Failure?;
    assert rows == all.rows;
  }

  lemma SomeFails(lefts: seq<Row>, rights: seq<Row>, accepts: Predicate)
    ensures forall a: nat, b: nat :: FailsAt(lefts, rights, accepts, a, b) ==> !NeverFails(lefts, rights, accepts)
  {
    forall a: nat, b: nat | FailsAt(lefts, rights, accepts, a, b) ensures !NeverFails(lefts, rights, accepts) {
      assert lefts[a] in lefts && rights[b] in rights;
    }
  }

  // ---------------------------------------------------------------- the hash join

  /** The join values are the same to the hash table. */
  function SameKey(leftColumn: nat, rightColumn: nat): Pairing {
    (l: Row, r: Row) =>
      leftColumn < |l| && rightColumn < |r| && !Undefined(r[rightColumn])
      && HashKey(l[leftColumn]) == HashKey(r[rightColumn])
  }

  lemma {:induction false} BucketPicks(l: Row, leftColumn: nat, rights: seq<Row>, rightColumn: nat)
    returns (picks: seq<nat>)
    requires leftColumn < |l|
    ensures Picks(picks, l, rights, SameKey(leftColumn, rightColumn))
    ensures Concatenates(Prefixed(l, Bucket(rights, rightColumn, HashKey(l[leftColumn]))), l, rights, picks)
  {
    hide Picks, Concatenates, SameKey, Prefixed, Bucket, InBucket;
    if rights == [] {
      picks := [];
      NoPicks(l, rightColumn, HashKey(l[leftColumn]), SameKey(leftColumn, rightColumn));
    } else {
      var m := |rights| - 1;
      var rest, r := rights[..m], rights[m];
      assert rights == rest + [r];
      var before := BucketPicks(l, leftColumn, rest, rightColumn);
      PickLast(before, l, rest, r, SameKey(leftColumn, rightColumn));
      picks := if SameKey(leftColumn, rightColumn)(l, r) then before + [m] else before;
      SameKeyIs(l, leftColumn, r, rightColumn);
      PrefixedSnoc(l, Bucket(rest, rightColumn, HashKey(l[leftColumn])), rest, r, before);
      BucketSnoc(rest, r, rightColumn, HashKey(l[leftColumn]));
    }
  }

  lemma NoPicks(l: Row, column: nat, key: Value, pairs: Pairing)
    ensures Picks([], l, [], pairs) && Concatenates(Prefixed(l, Bucket([], column, key)), l, [], [])
  {}

  lemma BucketSnoc(rest: seq<Row>, r: Row, column: nat, key: Value)
    ensures Bucket(rest + [r], column, key)
         == if InBucket(r, column, key) then Bucket(rest, column, key) + [r] else Bucket(rest, column, key)
  {
    hide InBucket;
    assert (rest + [r])[..|rest|] == rest;
    assert Bucket(rest, column, key) + [] == Bucket(rest, column, key);
  }

  lemma SameKeyIs(l: Row, leftColumn: nat, r: Row, rightColumn: nat)
    requires leftColumn < |l|
    ensures SameKey(leftColumn, rightColumn)(l, r) <==> InBucket(r, rightColumn, HashKey(l[leftColumn]))
  {}

  lemma PrefixedSnoc(l: Row, bucket: seq<Row>, rest: seq<Row>, r: Row, picks: seq<nat>)
    requires Concatenates(Prefixed(l, bucket), l, rest, picks)
    ensures Concatenates(Prefixed(l, bucket), l, rest + [r], picks)
    ensures Concatenates(Prefixed(l, bucket + [r]), l, rest + [r], picks + [|rest|])
  {
    var rows, more := Prefixed(l, bucket), Prefixed(l, bucket + [r]);
    forall j | 0 <= j < |picks| ensures rows[j] == l + (rest + [r])[picks[j]] && more[j] == rows[j] {}
  }

  lemma {:induction false} HashJoinYields(lefts: seq<Row>, leftColumn: nat, rights: seq<Row>, rightColumn: nat,
    outer: bool, width: nat)
    requires forall l :: l in lefts ==> leftColumn < |l|
    ensures Joined(HashJoin(lefts, leftColumn, rights, rightColumn, outer, width), lefts, rights,
      SameKey(leftColumn, rightColumn), outer, width)
  {
    hide Joined, RowsOf, SameKey;
    if lefts == [] {
      JoinedNone(rights, SameKey(leftColumn, rightColumn), outer, width);
    } else {
      var l, rest := lefts[0], lefts[1..];
      assert l in lefts && lefts == [l] + rest;
      HashJoinYields(rest, leftColumn, rights, rightColumn, outer, width);
      HashedYields(l, leftColumn, rights, rightColumn, outer, width);
      JoinedCons(HashedLeft(l, Bucket(rights, rightColumn, LeftKey(l, leftColumn)), outer, width),
        HashJoin(rest, leftColumn, rights, rightColumn, outer, width), l, rest, rights,
        SameKey(leftColumn, rightColumn), outer, width);
    }
  }

  lemma HashedYields(l: Row, leftColumn: nat, rights: seq<Row>, rightColumn: nat, outer: bool, width: nat)
    requires leftColumn < |l|
    ensures RowsOf(HashedLeft(l, Bucket(rights, rightColumn, LeftKey(l, leftColumn)), outer, width), l, rights,
      SameKey(leftColumn, rightColumn), outer, width)
  {
    hide Picks, Bucket, SameKey;
    var picks := BucketPicks(l, leftColumn, rights, rightColumn);
    var bucket := Bucket(rights, rightColumn, LeftKey(l, leftColumn));
    assert Prefixed(l, bucket) == [] <==> bucket == [];
    assert RowsPicked(HashedLeft(l, bucket, outer, width), l, rights, picks, outer, width);
  }

  /** All rows of the hash join. */
  method RunHashJoin(left: seq<Row>, leftColumn: nat, right: seq<Row>, rightColumn: nat, rightColumns: nat, outer: bool)
    returns (rows: seq<Row>)
    requires forall l :: l in left ==> leftColumn < |l|
    requires forall r :: r in right ==> rightColumn < |r|
    ensures Joined(rows, left, right, SameKey(leftColumn, rightColumn), outer, rightColumns)
  {
    hide HashJoin, Joined, SameKey, Bucket, Indexes, HashJoiner.Remaining;
    var joiner := new HashJoiner(left, leftColumn, right, rightColumn, rightColumns, outer);
    ghost var all := HashJoin(left, leftColumn, right, rightColumn, outer, rightColumns);
    rows := [];
    var item := joiner.TryNext(right, rightColumn);
    ghost var was := all;
    while item.Next?
      invariant fresh(joiner) && joiner.Valid() && Indexes(joiner.table, right, rightColumn)
      invariant rows + was == all
      invariant item.Next? ==> was != [] && item == Next(was[0]) && joiner.Remaining(right, rightColumn) == was[1..]
      invariant !item.Next? ==> was == []
      decreases |was|
    {
      rows := rows + [item.row];
      was := was[1..];
      item := joiner.TryNext(right, rightColumn);
    }
    assert rows == all;
    HashJoinYields(left, leftColumn, right, rightColumn, outer, rightColumns);
  }
}
