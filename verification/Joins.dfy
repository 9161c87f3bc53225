/** The two joins of src/sql/execution/join.rs, and the rewrite between them in src/sql/planner/optimizer.rs. */
module Joins {
  import opened SqlValues

  /** Rows an iterator has yet to yield, and whether an error ends them. */
  datatype Output = Output(rows: seq<Row>, failed: bool)

  const NOTHING := Output([], false)

  function Then(a: Output, b: Output): Output {
    if a.failed then a else Output(a.rows + b.rows, b.failed)
  }

  datatype Item = Next(row: Row) | End | Failure

  function Nulls(n: nat): Row { seq(n, _ => Null) }

  // ---------------------------------------------------------------- nested loop

  /** A join predicate on joined rows. */
  type Predicate = Row -> Verdict

  /** The matches for one left row, up to the first error. */
  function Matches(l: Row, rights: seq<Row>, accepts: Predicate): Output {
    if rights == [] then NOTHING
    else
      match accepts(l + rights[0])
      case Error => Output([], true)
      case True => Then(Output([l + rights[0]], false), Matches(l, rights[1..], accepts))
      case NotTrue => Matches(l, rights[1..], accepts)
  }

  /** A left row against the right rows not looked at yet; `matched` if an earlier one matched. */
  function JoinedLeft(l: Row, rights: seq<Row>, matched: bool, accepts: Predicate, outer: bool, width: nat): Output {
    var m := Matches(l, rights, accepts);
    if m == NOTHING && !matched && outer then Output([l + Nulls(width)], false) else m
  }

  function NestedLoop(lefts: seq<Row>, rights: seq<Row>, accepts: Predicate, outer: bool, width: nat): Output {
    if lefts == [] then NOTHING
    else Then(JoinedLeft(lefts[0], rights, false, accepts, outer, width),
      NestedLoop(lefts[1..], rights, accepts, outer, width))
  }

  class NestedLoopJoiner {
    var left: seq<Row>
    var right: seq<Row>
    var rightMatched: bool
    const rightOriginal: seq<Row>
    const rightColumns: nat
    const accepts: Predicate
    const outer: bool

    constructor (left: seq<Row>, right: seq<Row>, rightColumns: nat, accepts: Predicate, outer: bool)
      ensures Remaining() == NestedLoop(left, right, accepts, outer, rightColumns)
    {
      this.left, this.right, rightMatched := left, right, false;
      rightOriginal, this.rightColumns, this.accepts, this.outer := right, rightColumns, accepts, outer;
    }

    /** Everything still to come. */
    function Remaining(): Output
      reads this
    {
      if left == [] then NOTHING
      else Then(JoinedLeft(left[0], right, rightMatched, accepts, outer, rightColumns),
                NestedLoop(left[1..], rightOriginal, accepts, outer, rightColumns))
    }

    /** Yields what comes first, and leaves the rest. */
    method TryNext() returns (item: Item)
      modifies this
      ensures var was := old(Remaining());
        if was.rows != [] then item == Next(was.rows[0]) && Remaining() == Output(was.rows[1..], was.failed)
        else if was.failed then item == Failure
        else item == End && Remaining() == NOTHING
    {
      hide NestedLoop, Matches, JoinedLeft, Then, Nulls;
      while left != []
        invariant Remaining() == old(Remaining())
        decreases |left|
      {
        var l := left[0];
        ghost var lefts := left;
        ghost var later := NestedLoop(left[1..], rightOriginal, accepts, outer, rightColumns);
        while right != []
          invariant left == lefts && Remaining() == old(Remaining())
          decreases |right|
        {
          var row := l + right[0];
          MatchStep(l, right, rightMatched, accepts, outer, rightColumns);
          Sequenced(row, JoinedLeft(l, right[1..], true, accepts, outer, rightColumns), later);
          right := right[1..];
          match accepts(row) {
            case True =>
              rightMatched := true;
              return Next(row);
            case NotTrue =>
            case Error => return Failure;
          }
        }
        NoMoreMatches(l, rightMatched, accepts, outer, rightColumns);
        Sequenced(l + Nulls(rightColumns), NOTHING, later);
        if !rightMatched && outer {
          rightMatched := true;
          return Next(l + Nulls(rightColumns));
        }
        NextLeft(left[1..], rightOriginal, accepts, outer, rightColumns);
        right, rightMatched, left := rightOriginal, false, left[1..];
      }
      item := End;
    }
  }

  /** One row, then more, then later rows: the row comes off the front. */
  lemma Sequenced(row: Row, more: Output, later: Output)
    ensures var all := Then(Then(Output([row], false), more), later);
      all.rows != [] && all.rows[0] == row && Output(all.rows[1..], all.failed) == Then(more, later)
    ensures Then(Output([row], false), NOTHING) == Output([row], false)
    ensures Then(NOTHING, later) == later && Then(Output([], true), later) == Output([], true)
  {
    assert ([row] + more.rows) + later.rows == [row] + (more.rows + later.rows);
  }

  lemma NextLeft(lefts: seq<Row>, rights: seq<Row>, accepts: Predicate, outer: bool, width: nat)
    ensures NestedLoop(lefts, rights, accepts, outer, width)
         == if lefts == [] then NOTHING
            else Then(JoinedLeft(lefts[0], rights, false, accepts, outer, width),
              NestedLoop(lefts[1..], rights, accepts, outer, width))
  {
  }

  /** What looking at one more right row does to the rows that a left row still yields. */
  lemma MatchStep(l: Row, rights: seq<Row>, matched: bool, accepts: Predicate, outer: bool, width: nat)
    requires rights != []
    ensures var was := JoinedLeft(l, rights, matched, accepts, outer, width);
      match accepts(l + rights[0])
      case Error => was == Output([], true)
      case True => was == Then(Output([l + rights[0]], false), JoinedLeft(l, rights[1..], true, accepts, outer, width))
      case NotTrue => was == JoinedLeft(l, rights[1..], matched, accepts, outer, width)
  {
  }

  lemma NoMoreMatches(l: Row, matched: bool, accepts: Predicate, outer: bool, width: nat)
    ensures JoinedLeft(l, [], true, accepts, outer, width) == NOTHING
    ensures JoinedLeft(l, [], matched, accepts, outer, width) == if !matched && outer
      then Output([l + Nulls(width)], false) else NOTHING
  {
  }

  // ---------------------------------------------------------------- hash join

  /** The right rows whose join value is defined and hashes to `key`, in order. */
  function Bucket(rights: seq<Row>, column: nat, key: Value): seq<Row> {
    if rights == [] then []
    else
      var r := rights[|rights| - 1];
      Bucket(rights[..|rights| - 1], column, key) + if InBucket(r, column, key) then [r] else []
  }

  predicate InBucket(r: Row, column: nat, key: Value) {
    column < |r| && !Undefined(r[column]) && HashKey(r[column]) == key
  }

  /** A left row joined with each of its matches. */
  function Prefixed(l: Row, rights: seq<Row>): (rows: seq<Row>)
    ensures |rows| == |rights|
  {
    seq(|rights|, i requires 0 <= i < |rights| => l + rights[i])
  }

  function HashedLeft(l: Row, matches: seq<Row>, outer: bool, width: nat): seq<Row> {
    if matches != [] then Prefixed(l, matches) else if outer then [l + Nulls(width)] else []
  }

  function LeftKey(l: Row, column: nat): Value { if column < |l| then HashKey(l[column]) else Null }

  function HashJoin(lefts: seq<Row>, leftColumn: nat, rights: seq<Row>, rightColumn: nat, outer: bool,
    width: nat): seq<Row> {
    if lefts == [] then []
    else
      HashedLeft(lefts[0], Bucket(rights, rightColumn, LeftKey(lefts[0], leftColumn)), outer, width)
      + HashJoin(lefts[1..], leftColumn, rights, rightColumn, outer, width)
  }

  /** A table that holds exactly the non-empty buckets. */
  ghost predicate Indexes(table: map<Value, seq<Row>>, rights: seq<Row>, column: nat) {
    && (forall k :: k in table <==> Bucket(rights, column, k) != [])
    && (forall k :: k in table ==> table[k] == Bucket(rights, column, k))
  }

  lemma IndexesRow(table: map<Value, seq<Row>>, rights: seq<Row>, row: Row, column: nat)
    requires Indexes(table, rights, column) && column < |row|
    ensures var key := HashKey(row[column]);
      var bucket := if key in table then table[key] else [];
      Indexes(if Undefined(row[column]) then table else table[key := bucket + [row]], rights + [row], column)
  {
    var more := rights + [row];
    assert more[..|rights|] == rights && more[|rights|] == row;
    assert forall k :: Bucket(more, column, k) == Bucket(rights, column, k) + if InBucket(row, column, k) then [row]
      else [];
  }

  class HashJoiner {
    var left: seq<Row>
    var pending: seq<Row>
    var table: map<Value, seq<Row>>
    const leftColumn: nat
    const rightColumns: nat
    const outer: bool

    constructor (left: seq<Row>, leftColumn: nat, right: seq<Row>, rightColumn: nat, rightColumns: nat, outer: bool)
      requires forall l :: l in left ==> leftColumn < |l|
      requires forall r :: r in right ==> rightColumn < |r|
      ensures Valid() && Indexes(table, right, rightColumn)
      ensures Remaining(right, rightColumn) == HashJoin(left, leftColumn, right, rightColumn, outer, rightColumns)
    {
      this.left, pending, this.leftColumn, table := left, [], leftColumn, map[];
      this.rightColumns, this.outer := rightColumns, outer;
      new;
      hide Bucket;
      NothingIndexed(rightColumn);
      var i := 0;
      while i < |right|
        invariant 0 <= i <= |right| && this.left == left && pending == []
        invariant Indexes(table, right[..i], rightColumn)
      {
        hide Indexes;
        var row := right[i];
        assert row in right && right[..i + 1] == right[..i] + [row];
        IndexesRow(table, right[..i], row, rightColumn);
        var value := row[rightColumn];
        if !Undefined(value) {
          var key := HashKey(value);
          var bucket := if key in table then table[key] else [];
          table := table[key := bucket + [row]];
        }
        i := i + 1;
      }
      assert right[..|right|] == right;
    }

    predicate Valid()
      reads this
    {
      forall l :: l in left ==> leftColumn < |l|
    }

    /** Everything still to come, for the right rows that the table was built from. */
    function Remaining(rights: seq<Row>, rightColumn: nat): seq<Row>
      reads this
    {
      pending + HashJoin(left, leftColumn, rights, rightColumn, outer, rightColumns)
    }

    /** Yields what comes first, and leaves the rest. */
    method TryNext(ghost rights: seq<Row>, ghost rightColumn: nat) returns (item: Item)
      requires Valid() && Indexes(table, rights, rightColumn)
      modifies this`left, this`pending
      ensures Valid()
      ensures var was := old(Remaining(rights, rightColumn));
        if was != [] then item == Next(was[0]) && Remaining(rights, rightColumn) == was[1..]
        else item == End && Remaining(rights, rightColumn) == []
    {
      hide Bucket, HashJoin, Nulls, Prefixed, Indexes;
      if pending != [] {
        item := Next(pending[0]);
        PendingFirst(pending, HashJoin(left, leftColumn, rights, rightColumn, outer, rightColumns));
        pending := pending[1..];
        return;
      }
      ghost var was := HashJoin(left, leftColumn, rights, rightColumn, outer, rightColumns);
      assert [] + was == was;
      while left != []
        invariant Valid() && pending == []
        invariant HashJoin(left, leftColumn, rights, rightColumn, outer, rightColumns) == was
        decreases |left|
      {
        var l := left[0];
        assert l in left;
        NextHashed(left, leftColumn, rights, rightColumn, outer, rightColumns);
        left := left[1..];
        var key := HashKey(l[leftColumn]);
        TableGives(table, rights, rightColumn, key);
        if key in table {
          pending := Prefixed(l, table[key]);
          item := Next(pending[0]);
          pending := pending[1..];
          return;
        } else if outer {
          return Next(l + Nulls(rightColumns));
        }
      }
      NoneHashed(leftColumn, rights, rightColumn, outer, rightColumns);
      item := End;
    }
  }

  /** What the next left row contributes, and that it comes off the front. */
  lemma NextHashed(lefts: seq<Row>, leftColumn: nat, rights: seq<Row>, rightColumn: nat, outer: bool, width: nat)
    requires lefts != [] && leftColumn < |lefts[0]|
    ensures var all := HashJoin(lefts, leftColumn, rights, rightColumn, outer, width);
      var later := HashJoin(lefts[1..], leftColumn, rights, rightColumn, outer, width);
      var matches := Bucket(rights, rightColumn, HashKey(lefts[0][leftColumn]));
      var first := Prefixed(lefts[0], matches);
      if matches != [] then all != [] && all[0] == first[0] && all[1..] == first[1..] + later
      else if outer then all != [] && all[0] == lefts[0] + Nulls(width) && all[1..] == [] + later
      else all == later
  {
    hide Bucket, Prefixed, Nulls;
    var matches := Bucket(rights, rightColumn, HashKey(lefts[0][leftColumn]));
    var later := HashJoin(lefts[1..], leftColumn, rights, rightColumn, outer, width);
    var first := HashedLeft(lefts[0], matches, outer, width);
    if first != [] { PendingFirst(first, later); }
  }

  lemma TableGives(table: map<Value, seq<Row>>, rights: seq<Row>, column: nat, key: Value)
    requires Indexes(table, rights, column)
    ensures Bucket(rights, column, key) == if key in table then table[key] else []
    ensures key in table ==> table[key] != []
  {
  }

  lemma PendingFirst(pending: seq<Row>, later: seq<Row>)
    requires pending != []
    ensures (pending + later)[0] == pending[0] && (pending + later)[1..] == pending[1..] + later
  {
  }

  lemma NoneHashed(leftColumn: nat, rights: seq<Row>, rightColumn: nat, outer: bool, width: nat)
    ensures HashJoin([], leftColumn, rights, rightColumn, outer, width) == []
  {
  }

  lemma NothingIndexed(column: nat)
    ensures Indexes(map[], [], column)
  {
  }
}
