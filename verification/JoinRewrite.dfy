/**
 * The hash join rewrite of src/sql/planner/optimizer.rs, and exactly when it keeps the meaning of the
 * nested loop join it replaces.
 */
module JoinRewrite {
  import opened SqlValues
  import opened Joins

  datatype JoinPredicate = Always | ColumnsEqual(lhs: nat, rhs: nat) | Other(accepts: Predicate)

  /** A join of a left source and a right source with the given numbers of columns. */
  datatype Node =
    | NestedLoopJoin(leftColumns: nat, rightColumns: nat, on: JoinPredicate, outer: bool)
    | HashJoinNode(leftColumns: nat, rightColumns: nat, leftColumn: nat, rightColumn: nat, outer: bool)

  datatype Rewritten = Rewritten(node: Node) | Underflow

  /** `hash_join`: swap the columns into order, and count the right one from the start of its own table. */
  function Rewrite(node: Node): Rewritten {
    if node.NestedLoopJoin? && node.on.ColumnsEqual? then
      var (left, right) := if node.on.rhs < node.on.lhs then (node.on.rhs, node.on.lhs)
                           else (node.on.lhs, node.on.rhs);
      if right < node.leftColumns then Underflow
      else Rewritten(HashJoinNode(node.leftColumns, node.rightColumns, left, right - node.leftColumns, node.outer))
    else Rewritten(node)
  }

  /** A join predicate on joined rows. */
  function Accepts(p: JoinPredicate, cast: Cast): Predicate {
    match p
    case Always => (row: Row) => True
    case Other(accepts) => accepts
    case ColumnsEqual(i, j) => (row: Row) => if i < |row| && j < |row| then SqlEqual(row[i], row[j], cast) else Error
  }

  /** The rows a join yields. */
  function Meaning(node: Node, lefts: seq<Row>, rights: seq<Row>, cast: Cast): Output {
    match node
    case NestedLoopJoin(_, width, p, outer) => NestedLoop(lefts, rights, Accepts(p, cast), outer, width)
    case HashJoinNode(_, width, l, r, outer) => Output(HashJoin(lefts, l, rights, r, outer, width), false)
  }

  /** An equality of a column of each table, in either order. */
  predicate Across(node: Node) {
    && node.NestedLoopJoin?
    && node.on.ColumnsEqual?
    && var i, j := node.on.lhs, node.on.rhs;
       && (i < node.leftColumns <= j || j < node.leftColumns <= i)
       && i < node.leftColumns + node.rightColumns
       && j < node.leftColumns + node.rightColumns
  }

  predicate Shaped(rows: seq<Row>, columns: nat) { forall r :: r in rows ==> |r| == columns }

  /** The rewrite gives columns that exist in their tables exactly for an equality across the two tables. */
  lemma RewriteInRange(node: Node)
    requires node.NestedLoopJoin? && node.on.ColumnsEqual?
    requires node.on.lhs < node.leftColumns + node.rightColumns && node.on.rhs < node.leftColumns + node.rightColumns
    ensures Across(node) <==> var r := Rewrite(node);
      r.Rewritten? && r.node.leftColumn < node.leftColumns && r.node.rightColumn < node.rightColumns
  {
  }

  // ---------------------------------------------------------------- one left row

  lemma {:induction false} BucketCons(r: Row, rights: seq<Row>, column: nat, key: Value)
    ensures Bucket([r] + rights, column, key)
      == (if InBucket(r, column, key) then [r] else []) + Bucket(rights, column, key)
  {
    if rights == [] {
      assert [r] + rights == [r];
      assert Bucket([r][..0], column, key) == [];
    } else {
      var m := |rights| - 1;
      BucketCons(r, rights[..m], column, key);
      assert ([r] + rights)[..m + 1] == [r] + rights[..m];
    }
  }

  lemma PrefixedCons(l: Row, r: Row, rights: seq<Row>)
    ensures Prefixed(l, [r] + rights) == [l + r] + Prefixed(l, rights)
  {
  }

  /** The predicate on a joined row compares the two join columns. */
  ghost predicate Compares(accepts: Predicate, l: Row, leftColumn: nat, rights: seq<Row>, rightColumn: nat,
    cast: Cast) {
    && leftColumn < |l|
    && forall r :: r in rights ==> rightColumn < |r| && accepts(l + r) == SqlEqual(l[leftColumn], r[rightColumn], cast)
  }

  ghost predicate AllCompatible(l: Row, leftColumn: nat, rights: seq<Row>, rightColumn: nat, cast: Cast) {
    forall r :: r in rights && leftColumn < |l| && rightColumn < |r| ==> Compatible(l[leftColumn], r[rightColumn], cast)
  }

  /** Nested loop matches `m` against a bucket `b`: at least as many rows, and the same ones if and only if `agree`. */
  ghost predicate Covers(m: Output, b: seq<Row>, l: Row, c: nat, agree: bool) {
    && (agree ==> m == Output(Prefixed(l, b), false))
    && (!agree ==> m.failed || |m.rows| > |b|)
    && (!m.failed ==> |m.rows| >= |b|)
    && (forall row :: row in m.rows ==> |l| + c < |row| && !Undefined(row[|l| + c]))
  }

  lemma CoversOneMore(m: Output, b: seq<Row>, l: Row, r: Row, c: nat, agree: bool, v: Verdict, hashes: bool)
    requires Covers(m, b, l, c, agree) && c < |r|
    requires (hashes ==> v == True) && (v == True ==> !Undefined(r[c]))
    ensures var m' :=
      match v case Error => Output([], true) case True => Then(Output([l + r], false), m) case NotTrue => m;
      Covers(m', (if hashes then [r] else []) + b, l, c, agree && v == Truth(hashes))
  {
    hide Undefined, Prefixed;
    PrefixedCons(l, r, b);
    assert [] + b == b && (l + r)[|l| + c] == r[c];
    assert |[r] + b| == |b| + 1;
  }

  /**
   * The nested loop finds at least what the hash table holds, and exactly that if and only if all pairs are compatible.
   */
  lemma {:induction false} MatchesCoverBucket(l: Row, a: nat, rights: seq<Row>, c: nat, accepts: Predicate, cast: Cast)
    requires Compares(accepts, l, a, rights, c, cast)
    ensures Covers(Matches(l, rights, accepts), Bucket(rights, c, HashKey(l[a])), l, c,
      AllCompatible(l, a, rights, c, cast))
  {
    if rights == [] {
      assert Prefixed(l, []) == [];
    } else {
      var r, rest := rights[0], rights[1..];
      assert rights == [r] + rest && r in rights;
      MatchesCoverBucket(l, a, rest, c, accepts, cast);
      BucketCons(r, rest, c, HashKey(l[a]));
      HashingDecides(l[a], r[c], cast);
      assert AllCompatible(l, a, rights, c, cast)
        <==> Compatible(l[a], r[c], cast) && AllCompatible(l, a, rest, c, cast);
      hide SqlEqual, Compatible, HashKey, Undefined, Prefixed, Covers, AllCompatible, Bucket;
      CoversOneMore(Matches(l, rest, accepts), Bucket(rest, c, HashKey(l[a])), l, r, c,
        AllCompatible(l, a, rest, c, cast),
                    SqlEqual(l[a], r[c], cast), !Undefined(r[c]) && HashKey(r[c]) == HashKey(l[a]));
    }
  }

  /** One left row: the same rows from both joins if and only if it is compatible with every right row. */
  lemma LeftAgrees(l: Row, a: nat, rights: seq<Row>, c: nat, accepts: Predicate, cast: Cast, outer: bool, width: nat)
    requires Compares(accepts, l, a, rights, c, cast) && c < width
    ensures var n := JoinedLeft(l, rights, false, accepts, outer, width);
      var h := HashedLeft(l, Bucket(rights, c, HashKey(l[a])), outer, width);
      && (AllCompatible(l, a, rights, c, cast) <==> n == Output(h, false))
      && (!n.failed ==> |n.rows| >= |h|)
  {
    hide Compares, AllCompatible, Matches, Bucket;
    LeftKeyIs(l, a, rights, c, accepts, cast);
    MatchesCoverBucket(l, a, rights, c, accepts, cast);
    var m, b := Matches(l, rights, accepts), Bucket(rights, c, HashKey(l[a]));
    var missing := l + Nulls(width);
    assert missing[|l| + c] == Null;
    assert missing !in m.rows;
  }

  // ---------------------------------------------------------------- all left rows

  lemma {:induction false} AllLeftsAgree(lefts: seq<Row>, a: nat, rights: seq<Row>, c: nat, accepts: Predicate,
    cast: Cast, outer: bool, width: nat)
    requires forall l :: l in lefts ==> Compares(accepts, l, a, rights, c, cast)
    requires c < width
    ensures var n, h := NestedLoop(lefts, rights, accepts, outer, width), HashJoin(lefts, a, rights, c, outer, width);
      && (n == Output(h, false) <==> forall l :: l in lefts ==> AllCompatible(l, a, rights, c, cast))
      && (!n.failed ==> |n.rows| >= |h|)
  {
    hide Compares, AllCompatible, Bucket, JoinedLeft, HashedLeft;
    if lefts != [] {
      var l, rest := lefts[0], lefts[1..];
      assert lefts == [l] + rest && l in lefts;
      AllLeftsAgree(rest, a, rights, c, accepts, cast, outer, width);
      LeftAgrees(l, a, rights, c, accepts, cast, outer, width);
      LeftKeyIs(l, a, rights, c, accepts, cast);
      var n, h := JoinedLeft(l, rights, false, accepts, outer, width),
        HashedLeft(l, Bucket(rights, c, HashKey(l[a])), outer, width);
      SplitsEqually(n, NestedLoop(rest, rights, accepts, outer, width), h, HashJoin(rest, a, rights, c, outer, width));
    }
  }

  lemma LeftKeyIs(l: Row, a: nat, rights: seq<Row>, c: nat, accepts: Predicate, cast: Cast)
    requires Compares(accepts, l, a, rights, c, cast)
    ensures a < |l| && LeftKey(l, a) == HashKey(l[a])
  {
  }

  /** If neither part yields fewer rows, the wholes are equal only if the parts are. */
  lemma SplitsEqually(n: Output, n': Output, h: seq<Row>, h': seq<Row>)
    requires (!n.failed ==> |n.rows| >= |h|) && (!n'.failed ==> |n'.rows| >= |h'|)
    ensures Then(n, n') == Output(h + h', false) <==> n == Output(h, false) && n' == Output(h', false)
    ensures !Then(n, n').failed ==> |Then(n, n').rows| >= |h + h'|
  {
    if Then(n, n') == Output(h + h', false) {
      assert n.rows + n'.rows == h + h';
      assert n.rows == (n.rows + n'.rows)[..|h|] && n'.rows == (n.rows + n'.rows)[|h|..];
      assert h == (h + h')[..|h|] && h' == (h + h')[|h|..];
    }
  }

  /**
   * The rewrite keeps every row and the order of rows, inner or outer, if and only if no left and right join
   * value are of types that cannot be compared, or an integer and a float that are equal.
   */
  lemma HashJoinAgrees(node: Node, lefts: seq<Row>, rights: seq<Row>, cast: Cast)
    requires Across(node) && Shaped(lefts, node.leftColumns) && Shaped(rights, node.rightColumns)
    ensures Rewrite(node).Rewritten? && Rewrite(node).node.HashJoinNode?
    ensures var hashed := Rewrite(node).node;
      && hashed.leftColumn < node.leftColumns
      && hashed.rightColumn < node.rightColumns
      && (Meaning(node, lefts, rights, cast) == Meaning(hashed, lefts, rights, cast)
          <==> forall l, r :: l in lefts && r in rights ==>
            Compatible(l[hashed.leftColumn], r[hashed.rightColumn], cast))
  {
    var hashed := Rewrite(node).node;
    var a, c := hashed.leftColumn, hashed.rightColumn;
    var accepts := Accepts(node.on, cast);
    forall l | l in lefts ensures Compares(accepts, l, a, rights, c, cast) {
      forall r | r in rights ensures c < |r| && accepts(l + r) == SqlEqual(l[a], r[c], cast) {
        assert (l + r)[a] == l[a] && (l + r)[node.leftColumns + c] == r[c];
        HashingDecides(l[a], r[c], cast);
      }
    }
    AllLeftsAgree(lefts, a, rights, c, accepts, cast, node.outer, node.rightColumns);
    assert (forall l :: l in lefts ==> AllCompatible(l, a, rights, c, cast))
      <==> (forall l, r :: l in lefts && r in rights ==> Compatible(l[a], r[c], cast));
  }

  /** Every value of a column is null or of the column's type. */
  predicate Typed(rows: seq<Row>, column: nat, t: DataType) {
    forall r: Row :: r in rows && column < |r| ==> r[column] == Null || IsOf(r[column], t)
  }

  /** Join columns of one declared type are always safe to hash. */
  lemma SameTypeHashJoin(node: Node, lefts: seq<Row>, rights: seq<Row>, cast: Cast, t: DataType)
    requires Across(node) && Shaped(lefts, node.leftColumns) && Shaped(rights, node.rightColumns)
    requires Rewrite(node).Rewritten? && Rewrite(node).node.HashJoinNode?
    requires Typed(lefts, Rewrite(node).node.leftColumn, t) && Typed(rights, Rewrite(node).node.rightColumn, t)
    ensures Meaning(Rewrite(node).node, lefts, rights, cast) == Meaning(node, lefts, rights, cast)
  {
    HashJoinAgrees(node, lefts, rights, cast);
    var hashed := Rewrite(node).node;
    forall l, r | l in lefts && r in rights ensures Compatible(l[hashed.leftColumn], r[hashed.rightColumn], cast) {
      SameTypeIsCompatible(l[hashed.leftColumn], r[hashed.rightColumn], t, cast);
    }
  }

  /** An integer column joined with a float column: `1 = 1.0` is true, but the hash table does not find it. */
  lemma MixedColumnsDiffer(cast: Cast)
    requires cast(1) == Finite(1.0)
    ensures var node := NestedLoopJoin(1, 1, ColumnsEqual(0, 1), false);
      var lefts, rights := [[Integer(1)]], [[Number(Finite(1.0))]];
      && Meaning(node, lefts, rights, cast) == Output([[Integer(1), Number(Finite(1.0))]], false)
      && Meaning(Rewrite(node).node, lefts, rights, cast) == Output([], false)
  {
    var node := NestedLoopJoin(1, 1, ColumnsEqual(0, 1), false);
    var l, r := [Integer(1)], [Number(Finite(1.0))];
    var accepts := Accepts(node.on, cast);
    assert l + r == [Integer(1), Number(Finite(1.0))];
    assert accepts(l + r) == True;
    assert [r][1..] == [] && [l][1..] == [];
    assert Matches(l, [], accepts) == NOTHING;
    assert Matches(l, [r], accepts) == Output([l + r], false);
    assert NestedLoop([], [r], accepts, false, 1) == NOTHING;
    assert NestedLoop([l], [r], accepts, false, 1) == Output([l + r] + [], false);
    assert [r][..0] == [] && Bucket([], 0, HashKey(Integer(1))) == [];
    assert Bucket([r], 0, HashKey(Integer(1))) == [];
    assert HashJoin([], 0, [r], 0, false, 1) == [];
    assert HashJoin([l], 0, [r], 0, false, 1) == [];
  }
}
