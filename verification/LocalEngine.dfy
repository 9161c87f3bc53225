/**
 * Row and secondary index storage of src/sql/engine/local.rs, within one transaction. The index is
 * stored apart from the rows and updated entry by entry, and must agree with them after every call.
 */
module LocalEngine {
  import opened Common
  import opened Bytes
  import opened SqlValues
  import opened SqlSchema

  /** Primary keys by table, column name and value. */
  type Index = map<(string, string, Value), set<Value>>

  /** `get_index`: a missing entry is the empty set. */
  function Entry(index: Index, t: string, c: string, v: Value): set<Value> {
    if (t, c, v) in index then index[(t, c, v)] else {}
  }

  /** `set_index`: an empty set is not stored. */
  function SetEntry(index: Index, t: string, c: string, v: Value, ids: set<Value>): Index {
    if ids == {} then index - {(t, c, v)} else index[(t, c, v) := ids]
  }

  predicate Holds(rows: Stored, t: string, i: nat, v: Value, id: Value) {
    (t, id) in rows && i < |rows[(t, id)]| && rows[(t, id)][i] == v
  }

  /** The entries of one column are exactly the primary keys of the rows that hold each value. */
  ghost predicate ColumnAgrees(rows: Stored, index: Index, t: string, c: string, i: nat) {
    forall v, id :: id in Entry(index, t, c, v) <==> Holds(rows, t, i, v, id)
  }

  ghost predicate IndexAgrees(tables: Tables, rows: Stored, index: Index) {
    forall t, i :: t in tables && 0 <= i < |tables[t].columns| && tables[t].columns[i].index
      ==> ColumnAgrees(rows, index, t, tables[t].columns[i].name, i)
  }

  ghost predicate SchemaOk(tables: Tables) {
    forall t :: t in tables ==> tables[t].name == t && WellFormed(tables[t], tables) && IndexNamesDistinct(tables[t])
  }

  // ---------------------------------------------------------------- updating one table's index, column by column

  /** The first `n` columns of table `t` agree with the new rows; everything else still agrees with the old ones. */
  ghost predicate Reindexed(tables: Tables, was: Stored, rows: Stored, index: Index, t: string, n: nat) {
    forall s, i :: s in tables && 0 <= i < |tables[s].columns| && tables[s].columns[i].index
      ==> ColumnAgrees(if s == t && i < n then rows else was, index, s, tables[s].columns[i].name, i)
  }

  /** Only entries of one column of one table differ. */
  ghost predicate OnlyColumn(index: Index, index': Index, t: string, c: string) {
    forall s, d, v :: (s, d) != (t, c) ==> Entry(index', s, d, v) == Entry(index, s, d, v)
  }

  lemma ReindexColumn(tables: Tables, was: Stored, rows: Stored, index: Index, index': Index, t: string, n: nat)
    requires t in tables && n < |tables[t].columns| && IndexNamesDistinct(tables[t])
    requires Reindexed(tables, was, rows, index, t, n)
    requires if tables[t].columns[n].index
             then OnlyColumn(index, index', t, tables[t].columns[n].name) &&
               ColumnAgrees(rows, index', t, tables[t].columns[n].name, n)
             else index' == index
    ensures Reindexed(tables, was, rows, index', t, n + 1)
  {
    forall s, i | s in tables && 0 <= i < |tables[s].columns| && tables[s].columns[i].index
      ensures ColumnAgrees(if s == t && i < n + 1 then rows else was, index', s, tables[s].columns[i].name, i)
    {
      var from := if s == t && i < n then rows else was;
      if !(s == t && i == n) {
        assert ColumnAgrees(from, index, s, tables[s].columns[i].name, i);
        assert tables[t].columns[n].index ==> (s, tables[s].columns[i].name) != (t, tables[t].columns[n].name);
      }
    }
  }

  lemma StartReindex(tables: Tables, was: Stored, rows: Stored, index: Index, t: string)
    requires IndexAgrees(tables, was, index)
    ensures Reindexed(tables, was, rows, index, t, 0)
  {
    hide ColumnAgrees;
  }

  /** When all columns are done and the rows of other tables are the same, the index agrees. */
  lemma FinishReindex(tables: Tables, was: Stored, rows: Stored, index: Index, t: string)
    requires t in tables && Reindexed(tables, was, rows, index, t, |tables[t].columns|)
    requires forall s, id :: s != t ==>
      ((s, id) in rows <==> (s, id) in was) && ((s, id) in rows ==> rows[(s, id)] == was[(s, id)])
    ensures IndexAgrees(tables, rows, index)
  {
    forall s, i | s in tables && 0 <= i < |tables[s].columns| && tables[s].columns[i].index
      ensures ColumnAgrees(rows, index, s, tables[s].columns[i].name, i)
    {
      if s != t {
        assert ColumnAgrees(was, index, s, tables[s].columns[i].name, i);
        assert forall v, id :: Holds(rows, s, i, v, id) <==> Holds(was, s, i, v, id);
      }
    }
  }

  lemma SetEntryOnly(index: Index, t: string, c: string, v: Value, ids: set<Value>)
    ensures OnlyColumn(index, SetEntry(index, t, c, v, ids), t, c)
    ensures forall w :: Entry(SetEntry(index, t, c, v, ids), t, c, w) == if w == v then ids else Entry(index, t, c, w)
  {
  }

  /** Adding the new row's key under its value. */
  lemma AddKey(was: Stored, index: Index, t: string, c: string, i: nat, id: Value, row: Row)
    requires ColumnAgrees(was, index, t, c, i) && i < |row| && (t, id) !in was
    ensures var index' := SetEntry(index, t, c, row[i], Entry(index, t, c, row[i]) + {id});
      OnlyColumn(index, index', t, c) && ColumnAgrees(was[(t, id) := row], index', t, c, i)
  {
    SetEntryOnly(index, t, c, row[i], Entry(index, t, c, row[i]) + {id});
    assert !Holds(was, t, i, row[i], id);
  }

  /** Removing the old row's key from under its value. */
  lemma RemoveKey(was: Stored, index: Index, t: string, c: string, i: nat, id: Value)
    requires ColumnAgrees(was, index, t, c, i) && (t, id) in was && i < |was[(t, id)]|
    ensures var v := was[(t, id)][i];
      var index' := SetEntry(index, t, c, v, Entry(index, t, c, v) - {id});
      OnlyColumn(index, index', t, c) && ColumnAgrees(was - {(t, id)}, index', t, c, i)
  {
    var v := was[(t, id)][i];
    SetEntryOnly(index, t, c, v, Entry(index, t, c, v) - {id});
    var rows := was - {(t, id)};
    assert forall w, k :: Holds(rows, t, i, w, k) <==> Holds(was, t, i, w, k) && k != id;
  }

  /** Moving a key from its old value to its new one. */
  lemma MoveKey(was: Stored, index: Index, t: string, c: string, i: nat, id: Value, row: Row)
    requires ColumnAgrees(was, index, t, c, i) && (t, id) in was && i < |was[(t, id)]| && i < |row|
    ensures var v := was[(t, id)][i];
      var mid := SetEntry(index, t, c, v, Entry(index, t, c, v) - {id});
      var index' := if v == row[i] then index else SetEntry(mid, t, c, row[i], Entry(mid, t, c, row[i]) + {id});
      OnlyColumn(index, index', t, c) && ColumnAgrees(was[(t, id) := row], index', t, c, i)
  {
    var v := was[(t, id)][i];
    if v == row[i] {
      assert forall w, k :: Holds(was[(t, id) := row], t, i, w, k) <==> Holds(was, t, i, w, k);
    } else {
      RemoveKey(was, index, t, c, i, id);
      var mid := SetEntry(index, t, c, v, Entry(index, t, c, v) - {id});
      AddKey(was - {(t, id)}, mid, t, c, i, id, row);
      assert (was - {(t, id)})[(t, id) := row] == was[(t, id) := row];
    }
  }

  function AddedKey(index: Index, t: string, c: string, v: Value, id: Value): Index {
    SetEntry(index, t, c, v, Entry(index, t, c, v) + {id})
  }

  function RemovedKey(index: Index, t: string, c: string, v: Value, id: Value): Index {
    SetEntry(index, t, c, v, Entry(index, t, c, v) - {id})
  }

  /** A column of the table whose index has been brought up to date with one added, removed or replaced row. */
  lemma NextColumn(tables: Tables, was: Stored, rows: Stored, index: Index, t: string, n: nat, id: Value)
    requires t in tables && n < |tables[t].columns| && IndexNamesDistinct(tables[t]) && tables[t].columns[n].index
    requires Reindexed(tables, was, rows, index, t, n)
    ensures var c := tables[t].columns[n].name;
      && ((t, id) !in was && (t, id) in rows && n < |rows[(t, id)]| && rows == was[(t, id) := rows[(t, id)]]
          ==> Reindexed(tables, was, rows, AddedKey(index, t, c, rows[(t, id)][n], id), t, n + 1))
      && ((t, id) in was && n < |was[(t, id)]| && rows == was - {(t, id)}
          ==> Reindexed(tables, was, rows, RemovedKey(index, t, c, was[(t, id)][n], id), t, n + 1))
      && ((t, id) in was && n < |was[(t, id)]| && (t, id) in rows && n < |rows[(t, id)]|
          && rows == was[(t, id) := rows[(t, id)]]
          ==> var v, w := was[(t, id)][n], rows[(t, id)][n];
              var index' := if v == w then index else AddedKey(RemovedKey(index, t, c, v, id), t, c, w, id);
              Reindexed(tables, was, rows, index', t, n + 1))
  {
    var c := tables[t].columns[n].name;
    assert ColumnAgrees(was, index, t, c, n);
    hide ColumnAgrees, Reindexed, OnlyColumn, SetEntry, Entry;
    if (t, id) !in was && (t, id) in rows && n < |rows[(t, id)]| && rows == was[(t, id) := rows[(t, id)]] {
      AddKey(was, index, t, c, n, id, rows[(t, id)]);
      ReindexColumn(tables, was, rows, index, AddedKey(index, t, c, rows[(t, id)][n], id), t, n);
    } else if (t, id) in was && n < |was[(t, id)]| {
      var v := was[(t, id)][n];
      if rows == was - {(t, id)} {
        RemoveKey(was, index, t, c, n, id);
        ReindexColumn(tables, was, rows, index, RemovedKey(index, t, c, v, id), t, n);
      } else if (t, id) in rows && n < |rows[(t, id)]| && rows == was[(t, id) := rows[(t, id)]] {
        var w := rows[(t, id)][n];
        MoveKey(was, index, t, c, n, id, rows[(t, id)]);
        var index' := if v == w then index else AddedKey(RemovedKey(index, t, c, v, id), t, c, w, id);
        ReindexColumn(tables, was, rows, index, index', t, n);
      }
    }
  }

  /** A column without an index needs nothing done. */
  lemma SkipColumn(tables: Tables, was: Stored, rows: Stored, index: Index, t: string, n: nat)
    requires t in tables && n < |tables[t].columns| && !tables[t].columns[n].index
    requires Reindexed(tables, was, rows, index, t, n)
    ensures Reindexed(tables, was, rows, index, t, n + 1)
  {
    hide ColumnAgrees;
  }

  // ---------------------------------------------------------------- columns with the same name

  /** The index after an insert has gone through the first `n` columns. */
  function AddedAll(index: Index, table: Table, row: Row, n: nat): Index
    requires n <= |table.columns| && n <= |row| && table.primaryKey < |row|
  {
    if n == 0 then index
    else
      var before := AddedAll(index, table, row, n - 1);
      var c := table.columns[n - 1];
      if c.index then AddedKey(before, table.name, c.name, row[n - 1], row[table.primaryKey]) else before
  }

  /** An indexed column with the given name, among the first `n`, in which the row holds the value. */
  ghost predicate Listed(table: Table, row: Row, n: nat, c: string, v: Value)
    requires n <= |table.columns| && n <= |row|
  {
    exists i :: 0 <= i < n && table.columns[i].index && table.columns[i].name == c && row[i] == v
  }

  lemma {:induction false} AddedAllEntries(index: Index, table: Table, row: Row, n: nat, s: string, c: string,
    v: Value, k: Value)
    requires n <= |table.columns| && n <= |row| && table.primaryKey < |row|
    ensures k in Entry(AddedAll(index, table, row, n), s, c, v)
       <==> k in Entry(index, s, c, v) || (s == table.name && k == row[table.primaryKey] && Listed(table, row, n, c, v))
  {
    if n > 0 {
      AddedAllEntries(index, table, row, n - 1, s, c, v, k);
      var col := table.columns[n - 1];
      assert Listed(table, row, n, c, v)
        <==> Listed(table, row, n - 1, c, v) || (col.index && col.name == c && row[n - 1] == v);
    }
  }

  /** Indexed columns of the same name hold the same value. */
  ghost predicate NamesakesAgree(table: Table, row: Row)
    requires |row| == |table.columns|
  {
    forall i, j ::
      && 0 <= i < |row| && 0 <= j < |row| && table.columns[i].index && table.columns[j].index
      && table.columns[i].name == table.columns[j].name
      ==> row[i] == row[j]
  }

  /**
   * Index entries are keyed by column name. An insert leaves the index in agreement with the rows if and only if
   * indexed columns that share a name hold the same value in the new row.
   */
  lemma InsertAgreesIff(tables: Tables, was: Stored, index: Index, table: Table, row: Row)
    requires table.name in tables && tables[table.name] == table && IndexAgrees(tables, was, index)
    requires |row| == |table.columns| && table.primaryKey < |row| && (table.name, row[table.primaryKey]) !in was
    ensures IndexAgrees(tables, Inserted(was, table, row), AddedAll(index, table, row, |row|))
      <==> NamesakesAgree(table, row)
  {
    var rows, index' := Inserted(was, table, row), AddedAll(index, table, row, |row|);
    var t, id := table.name, row[table.primaryKey];
    forall s, c, v, k
      ensures k in Entry(index', s, c, v)
        <==> k in Entry(index, s, c, v) || (s == t && k == id && Listed(table, row, |row|, c, v))
    {
      AddedAllEntries(index, table, row, |row|, s, c, v, k);
    }
    if NamesakesAgree(table, row) {
      forall s, i | s in tables && 0 <= i < |tables[s].columns| && tables[s].columns[i].index
        ensures ColumnAgrees(rows, index', s, tables[s].columns[i].name, i)
      {
        assert ColumnAgrees(was, index, s, tables[s].columns[i].name, i);
        assert forall v, k :: Holds(rows, s, i, v, k) <==> Holds(was, s, i, v, k) || (s == t && k == id && row[i] == v);
        assert s == t ==> forall v :: Listed(table, row, |row|, table.columns[i].name, v) <==> row[i] == v;
      }
    }
    if IndexAgrees(tables, rows, index') {
      forall i, j | 0 <= i < |row| && 0 <= j < |row| && table.columns[i].index && table.columns[j].index
        && table.columns[i].name == table.columns[j].name
        ensures row[i] == row[j]
      {
        assert Listed(table, row, |row|, table.columns[i].name, row[j]);
        assert id in Entry(index', t, table.columns[i].name, row[j]);
        assert ColumnAgrees(rows, index', t, table.columns[i].name, i);
        assert Holds(rows, t, i, row[j], id);
      }
    }
  }

  /** A schema that `Table::validate` accepts, and a row that then breaks the index. */
  lemma DuplicateNamesBreakIndex()
    ensures var key := Column("id", IntegerType, false, None, true, false, None);
      var a := Column("a", IntegerType, false, None, false, true, None);
      var table := Table("t", 0, [key, a, a]);
      var row := [Integer(1), Integer(2), Integer(3)];
      && WellFormed(table, map[])
      && RowFits(map[], table, row, false)
      && !IndexAgrees(map["t" := table], Inserted(map[], table, row), AddedAll(map[], table, row, 3))
  {
    var key := Column("id", IntegerType, false, None, true, false, None);
    var a := Column("a", IntegerType, false, None, false, true, None);
    var table := Table("t", 0, [key, a, a]);
    var row := [Integer(1), Integer(2), Integer(3)];
    assert forall i :: 0 <= i < 3 ==> ColumnOk(table, i, map[]);
    assert forall i :: 0 <= i < 3 ==> ValueOk(table.columns[i], row[i]) && ColumnFits(map[], table, row, i, false);
    InsertAgreesIff(map["t" := table], map[], map[], table, row);
    assert table.columns[1].name == table.columns[2].name && row[1] != row[2];
  }

  // ---------------------------------------------------------------- the engine

  datatype Outcome = Done | Failed | Panicked

  /** Values are stored with negative zero made positive. */
  predicate AsStored(v: Value) { HashKey(v) == v }

  function StoredRow(row: Row): Row { seq(|row|, i requires 0 <= i < |row| => HashKey(row[i])) }

  lemma StoredIsStored(row: Row)
    ensures forall i :: 0 <= i < |row| ==> AsStored(StoredRow(row)[i])
  {}

  ghost predicate KeysStored(rows: Stored) { forall k :: k in rows ==> AsStored(k.1) }

  /** The key of the row is in the form it is stored in. */
  predicate KeyStored(table: Table, row: Row) { table.primaryKey < |row| ==> AsStored(row[table.primaryKey]) }

  function StoredRows(rows: seq<Row>): (r: seq<Row>)
    ensures |r| == |rows|
  {
    seq(|rows|, i requires 0 <= i < |rows| => StoredRow(rows[i]))
  }

  /** The rows after inserting in order. */
  function InsertedAll(rows: Stored, table: Table, more: seq<Row>): Stored {
    if more == [] then rows else Inserted(InsertedAll(rows, table, more[..|more| - 1]), table, more[|more| - 1])
  }

  class Transaction {
    const tables: Tables
    // The machine's conversion of integers to floats.
    const cast: Cast
    var rows: Stored
    var index: Index

    /** Rows have their table's shape, keys are in the form they are stored in, and the index agrees. */
    ghost predicate Sound()
      reads this
    {
      && SchemaOk(tables) && RowsOk(tables, rows) && UniqueOk(tables, rows) && IndexAgrees(tables, rows, index)
      && KeysStored(rows)
    }

    /** And every foreign key names a row. */
    ghost predicate Valid()
      reads this
    {
      Sound() && RefsOk(tables, rows)
    }

    constructor (tables: Tables, cast: Cast)
      requires SchemaOk(tables)
      ensures Valid() && this.tables == tables && this.cast == cast && rows == map[] && index == map[]
    {
      this.tables, this.cast, rows, index := tables, cast, map[], map[];
    }

    /** The primary keys of the rows that hold one of the values in an indexed column. */
    method LookupIndex(t: string, i: nat, values: set<Value>) returns (ids: set<Value>)
      requires Sound() && t in tables && i < |tables[t].columns| && tables[t].columns[i].index
      ensures forall id :: id in ids <==> (t, id) in rows && ValueAt(rows, t, id, i) in values
    {
      ids := {};
      var todo := values;
      assert ColumnAgrees(rows, index, t, tables[t].columns[i].name, i);
      WholeRows(tables, rows, t);
      while todo != {}
        invariant todo <= values
        invariant forall id :: id in ids <==> (t, id) in rows && ValueAt(rows, t, id, i) in values - todo
        decreases |todo|
      {
        var v :| v in todo;
        ids := ids + Entry(index, t, tables[t].columns[i].name, v);
        todo := todo - {v};
      }
    }

    /**
     * `validate_row` on a row in the form it is stored in, and its key as it was given: accepts exactly the rows that
     * fit, except that an update which gives the key as negative zero is also held up by the row that it replaces.
     */
    method ValidateRow(table: Table, row: Row, key: Value, update: bool) returns (ok: bool)
      requires Sound() && table.name in tables && tables[table.name] == table
      requires table.primaryKey < |row| ==> HashKey(key) == row[table.primaryKey]
      ensures ok <==> RowFits(rows, table, row, update) && !(update && FindsItself(rows, table, row, key))
    {
      if |row| != |table.columns| { return false; }
      assert WellFormed(table, tables);
      var id := row[table.primaryKey];
      if Undefined(id) { return false; }
      if !update && (table.name, id) in rows { return false; }
      var i := 0;
      while i < |row|
        invariant 0 <= i <= |row|
        invariant forall j :: 0 <= j < i ==>
          ValueOk(table.columns[j], row[j]) && ColumnFits(rows, table, row, j, update)
        invariant forall j :: 0 <= j < i ==> !(update && Keeps(rows, table, row, key, j))
      {
        var good := ValidateColumn(table, row, key, i, update);
        if !good { return false; }
        i := i + 1;
      }
      ok := true;
    }

    /** The checks on one column. */
    method ValidateColumn(table: Table, row: Row, key: Value, i: nat, update: bool) returns (ok: bool)
      requires Sound() && table.name in tables && tables[table.name] == table
      requires |row| == |table.columns| && i < |row| && table.primaryKey < |row|
      requires HashKey(key) == row[table.primaryKey]
      ensures ok <==>
        && ValueOk(table.columns[i], row[i]) && ColumnFits(rows, table, row, i, update)
        && !(update && Keeps(rows, table, row, key, i))
    {
      assert ColumnOk(table, i, tables);
      hide Sound, ColumnOk, Undefined;
      var c, v, id := table.columns[i], row[i], row[table.primaryKey];
      if !v.Null? && !IsOf(v, c.datatype_) { return false; }
      if v.Null? && !c.nullable { return false; }
      if c.references.Some? && !v.Null? && !(c.references.value == table.name && v == id) {
        if (c.references.value, v) !in rows { return false; }
      }
      if c.unique && i != table.primaryKey && !Undefined(v) {
        var taken := IsTaken(table, i, v, if update then {key} else {});
        KeyElsewhere(rows, table, row, key);
        if taken { return false; }
      }
      ok := true;
    }

    /** Whether a row other than the given ones holds the value in a unique column. */
    method IsTaken(table: Table, i: nat, v: Value, own: set<Value>) returns (taken: bool)
      requires Sound() && table.name in tables && tables[table.name] == table
      requires i < |table.columns| && table.columns[i].unique && i != table.primaryKey
      ensures taken
        <==> exists other :: other !in own && (table.name, other) in rows && ValueAt(rows, table.name, other, i) == v
    {
      assert ColumnOk(table, i, tables);
      UniqueIsIndexed(table, i, tables);
      hide Sound, ColumnOk;
      var ids := LookupIndex(table.name, i, {v});
      taken := ids - own != {};
      if taken {
        ghost var other :| other in ids - own;
        assert (table.name, other) in rows && ValueAt(rows, table.name, other, i) == v;
      } else {
        assert forall other :: other in ids && other !in own ==> other in ids - own;
      }
    }

    /** A key given as negative zero is not the key of a row. */
    lemma KeyElsewhere(rows: Stored, table: Table, row: Row, key: Value)
      requires KeysStored(rows) && table.primaryKey < |row| && HashKey(key) == row[table.primaryKey]
      ensures key != row[table.primaryKey] ==> (table.name, key) !in rows
    {}

    /** Inserts rows, in the form they are stored in. */
    method Insert(t: string, given: seq<Row>) returns (ok: bool, ghost n: nat)
      requires Valid()
      modifies this`rows, this`index
      ensures Valid() && n <= |given|
      ensures t !in tables ==> !ok && rows == old(rows)
      ensures t in tables ==> rows == InsertedAll(old(rows), tables[t], StoredRows(given)[..n])
      ensures t in tables ==> forall i :: 0 <= i < n ==>
        RowFits(InsertedAll(old(rows), tables[t], StoredRows(given)[..i]), tables[t], StoredRows(given)[i], false)
      ensures t in tables ==>
        if ok then n == |given| else n < |given| && !RowFits(rows, tables[t], StoredRows(given)[n], false)
    {
      hide Sound, RefsOk, RowFits, InsertedAll, AsStored, StoredRow;
      if t in tables { RowsStored(tables[t], given); }
      ok, n := InsertStored(t, StoredRows(given));
    }

    /** Inserts rows in order; the first that does not fit stops it, after the rows before it were stored. */
    method InsertStored(t: string, more: seq<Row>) returns (ok: bool, ghost n: nat)
      requires Valid() && (t in tables ==> forall row :: row in more ==> KeyStored(tables[t], row))
      modifies this`rows, this`index
      ensures Valid() && n <= |more|
      ensures t !in tables ==> !ok && rows == old(rows)
      ensures t in tables ==> rows == InsertedAll(old(rows), tables[t], more[..n])
      ensures t in tables ==> forall i :: 0 <= i < n ==>
        RowFits(InsertedAll(old(rows), tables[t], more[..i]), tables[t], more[i], false)
      ensures t in tables ==> if ok then n == |more| else n < |more| && !RowFits(rows, tables[t], more[n], false)
    {
      hide Sound, RefsOk, RowFits, Inserted, InsertedAll, KeyStored;
      InsertedNone(rows, more);
      if t !in tables { return false, 0; }
      var table := tables[t];
      n := 0;
      var i := 0;
      while i < |more|
        invariant 0 <= i <= |more| && i == n && Valid()
        invariant rows == InsertedAll(old(rows), table, more[..i])
        invariant forall j :: 0 <= j < i ==> RowFits(InsertedAll(old(rows), table, more[..j]), table, more[j], false)
      {
        var row := more[i];
        TableIsNamed(t);
        assert row in more;
        if table.primaryKey >= |row| {
          ShortRow(rows, table, row, false);
          return false, n;
        }
        KeyIsStored(table, row);
        var fits := ValidateRow(table, row, row[table.primaryKey], false);
        if !fits { return false, n; }
        InsertRow(table, row);
        InsertedNext(old(rows), table, more, i);
        i, n := i + 1, n + 1;
      }
      ok := true;
    }

    lemma TableIsNamed(t: string)
      requires Sound() && t in tables
      ensures tables[t].name == t
    {
    }

    /** Stores a row that fits and adds its primary key to each index. */
    method InsertRow(table: Table, row: Row)
      requires Valid() && table.name in tables && tables[table.name] == table && RowFits(rows, table, row, false)
      requires KeyStored(table, row)
      modifies this`rows, this`index
      ensures Valid() && rows == Inserted(old(rows), table, row)
      ensures |row| == |table.columns| && table.primaryKey < |row| && index == AddedAll(old(index), table, row, |row|)
    {
      hide RowsOk, UniqueOk, RefsOk, ShapeOk, Reindexed, IndexAgrees, RowFits, Entry, SetEntry, WellFormed,
        IndexNamesDistinct;
      FitsShape(rows, table, row, false);
      var id := row[table.primaryKey];
      ghost var was := rows;
      InsertKeeps(tables, rows, table, row, false);
      StartReindex(tables, rows, Inserted(rows, table, row), index, table.name);
      rows := rows[(table.name, id) := row];
      var i := 0;
      while i < |table.columns|
        invariant 0 <= i <= |table.columns|
        invariant rows == Inserted(was, table, row) && Reindexed(tables, was, rows, index, table.name, i)
        invariant index == AddedAll(old(index), table, row, i)
      {
        var c := table.columns[i];
        if c.index {
          NextColumn(tables, was, rows, index, table.name, i, id);
          var ids := Entry(index, table.name, c.name, row[i]);
          index := SetEntry(index, table.name, c.name, row[i], ids + {id});
        } else {
          SkipColumn(tables, was, rows, index, table.name, i);
        }
        i := i + 1;
      }
      FinishReindex(tables, was, rows, index, table.name);
    }

    /** The rows of table `s` whose column `i`, a foreign key, holds one of the values. */
    method ReferencesFrom(s: string, i: nat, ids: set<Value>) returns (sources: set<Value>)
      requires Sound() && s in tables && i < |tables[s].columns| && tables[s].columns[i].references.Some?
      ensures forall id :: id in sources <==> (s, id) in rows && ValueAt(rows, s, id, i) in ids
    {
      TableIsNamed(s);
      assert ColumnOk(tables[s], i, tables);
      UniqueIsIndexed(tables[s], i, tables);
      if i == tables[s].primaryKey {
        KeyColumns(tables, rows, s);
        sources := set id <- ids | (s, id) in rows :: rows[(s, id)][i];
        assert forall id :: id in ids && (s, id) in rows ==> rows[(s, id)][i] == id;
      } else {
        sources := LookupIndex(s, i, ids);
      }
    }

    /** Whether no row outside the given ones refers to one of them. */
    method Unreferenced(t: string, ids: set<Value>) returns (clear: bool)
      requires Sound()
      ensures clear <==> NotReferenced(tables, rows, t, ids)
    {
      hide Sound;
      var todo := tables.Keys;
      while todo != {}
        invariant todo <= tables.Keys
        invariant forall s :: s in tables && s !in todo ==> TableClear(tables, rows, s, |tables[s].columns|, t, ids)
        decreases |todo|
      {
        var s :| s in todo;
        var i := 0;
        while i < |tables[s].columns|
          invariant 0 <= i <= |tables[s].columns|
          invariant TableClear(tables, rows, s, i, t, ids)
        {
          if tables[s].columns[i].references == Some(t) {
            var sources := ReferencesFrom(s, i, ids);
            if s == t { sources := sources - ids; }
            if sources != {} {
              ghost var id :| id in sources;
              assert (s, id) in rows && ValueAt(rows, s, id, i) in ids && !(s == t && id in ids);
              return false;
            }
            assert forall id :: (s, id) in rows && ValueAt(rows, s, id, i) in ids ==> s == t && id in ids by {
              forall id | (s, id) in rows && ValueAt(rows, s, id, i) in ids ensures s == t && id in ids {
                assert s != t || id !in ids ==> id in sources;
              }
            }
          }
          i := i + 1;
        }
        todo := todo - {s};
      }
      clear := true;
    }

    /** Deletes rows, unless a row that stays refers to one of them. */
    method Delete(t: string, ids: seq<Value>) returns (ok: bool)
      requires Valid() && forall id :: id in ids ==> AsStored(id)
      modifies this`rows, this`index
      ensures Valid()
      ensures ok <==> t in tables && NotReferenced(tables, old(rows), t, set id | id in ids)
      ensures rows == if ok then Deleted(old(rows), t, set id | id in ids) else old(rows)
    {
      hide RowsOk, UniqueOk, IndexAgrees, NotReferenced, SchemaOk;
      if t !in tables { return false; }
      ghost var all := set id | id in ids;
      var clear := Unreferenced(t, set id | id in ids);
      if !clear { return false; }
      DeleteKeeps(tables, rows, t, all);
      hide Deleted, RefsOk;
      ghost var gone: set<Value> := {};
      NoneDeleted(rows, t);
      var i := 0;
      while i < |ids|
        invariant 0 <= i <= |ids| && gone == set id | id in ids[..i]
        invariant Sound() && rows == Deleted(old(rows), t, gone)
      {
        DeleteRow(t, ids[i]);
        OneMoreDeleted(old(rows), t, gone, ids[i]);
        assert ids[..i + 1] == ids[..i] + [ids[i]];
        gone := gone + {ids[i]};
        i := i + 1;
      }
      assert ids[..|ids|] == ids;
      ok := true;
    }

    /** Takes the row's primary key out of each index, and removes the row. */
    method DeleteRow(t: string, id: Value)
      requires Sound() && t in tables
      modifies this`rows, this`index
      ensures Sound() && rows == old(rows) - {(t, id)}
    {
      hide RowsOk, UniqueOk, Reindexed, IndexAgrees, Entry, SetEntry, WellFormed, IndexNamesDistinct;
      ghost var was := rows;
      ghost var kept := rows - {(t, id)};
      OneDeleted(rows, t, id);
      DeleteKeeps(tables, rows, t, {id});
      if (t, id) in rows {
        var row := rows[(t, id)];
        StoredShape(tables, rows, t, id);
        StartReindex(tables, was, kept, index, t);
        var i := 0;
        while i < |tables[t].columns|
          invariant 0 <= i <= |tables[t].columns|
          invariant rows == was && Reindexed(tables, was, kept, index, t, i)
        {
          var c := tables[t].columns[i];
          if c.index {
            NextColumn(tables, was, kept, index, t, i, id);
            var ids := Entry(index, t, c.name, row[i]);
            index := SetEntry(index, t, c.name, row[i], ids - {id});
          } else {
            SkipColumn(tables, was, kept, index, t, i);
          }
          i := i + 1;
        }
        FinishReindex(tables, was, kept, index, t);
      } else {
        assert kept == rows;
      }
      rows := rows - {(t, id)};
    }

    /**
     * Replaces the row with the given primary key, by a delete and an insert if the key changes; the keys are compared
     * as given.
     */
    method UpdateRow(t: string, id: Value, given: Row) returns (r: Outcome)
      requires Valid() && t in tables && KeyOf(tables[t], id)
      modifies this`rows, this`index
      ensures Valid()
      ensures r == UpdateOutcome(tables, old(rows), t, id, given, cast)
      ensures KeyMoves(tables[t], id, given, cast) ==>
        (r == Done <==> MoveKeeps(tables, old(rows), t, id, StoredRow(given)))
      ensures r == Done ==> rows == Replaced(old(rows), tables[t], id, StoredRow(given))
      ensures r != Done ==>
        rows == if KeyMoves(tables[t], id, given, cast) && NotReferenced(tables, old(rows), t, {id})
                then Deleted(old(rows), t, {id}) else old(rows)
    {
      MovesIff(tables, rows, t, id, given, cast);
      hide Sound, RefsOk, RowFits, NotReferenced, SameValue, FindsItself, MoveKeeps, Inserted, Deleted;
      var table, row := tables[t], StoredRow(given);
      TableIsNamed(t);
      StoredIsStored(given);
      if table.primaryKey >= |row| { return Panicked; }
      var key := given[table.primaryKey];
      if !SameValue(id, key, cast) {
        var moved := MoveRow(t, id, row);
        return if moved then Done else Failed;
      }
      var fits := ValidateRow(table, row, key, true);
      if !fits { return Failed; }
      SameKey(rows, table, id, given, cast);
      var indexed := exists i :: 0 <= i < |table.columns| && table.columns[i].index;
      if indexed && (t, id) !in rows { return Panicked; }
      ReplaceRow(table, row);
      ReplacedInPlace(old(rows), table, id, row);
      r := Done;
    }

    /** Deletes the row with the old key and inserts the new one. */
    method MoveRow(t: string, id: Value, row: Row) returns (moved: bool)
      requires Valid() && t in tables && AsStored(id) && KeyStored(tables[t], row)
      modifies this`rows, this`index
      ensures Valid()
      ensures moved <==>
        NotReferenced(tables, old(rows), t, {id}) && RowFits(Deleted(old(rows), t, {id}), tables[t], row, false)
      ensures moved ==> rows == Replaced(old(rows), tables[t], id, row)
      ensures !moved ==>
        rows == if NotReferenced(tables, old(rows), t, {id}) then Deleted(old(rows), t, {id}) else old(rows)
    {
      hide Sound, RefsOk, RowFits, NotReferenced;
      TableIsNamed(t);
      assert (set k | k in [id]) == {id};
      var ok := Delete(t, [id]);
      if !ok { return false; }
      var inserted, n := InsertStored(t, [row]);
      assert [row][..0] == [] && [row][..1] == [row];
      assert InsertedAll(Deleted(old(rows), t, {id}), tables[t], [row][..0]) == Deleted(old(rows), t, {id});
      moved := inserted;
    }

    /** Stores a row in place of the one with its primary key, and moves that key in each index whose value changed. */
    method ReplaceRow(table: Table, row: Row)
      requires Valid() && table.name in tables && tables[table.name] == table && RowFits(rows, table, row, true)
      requires table.primaryKey < |row| && KeyStored(table, row)
      requires (table.name, row[table.primaryKey]) in rows || forall i :: 0 <= i < |table.columns| ==>
        !table.columns[i].index
      modifies this`rows, this`index
      ensures Valid() && rows == Inserted(old(rows), table, row)
    {
      hide RowsOk, UniqueOk, RefsOk, ShapeOk, Reindexed, IndexAgrees, RowFits, Entry, SetEntry, WellFormed,
        IndexNamesDistinct;
      var id := row[table.primaryKey];
      ghost var was := rows;
      ghost var new_ := Inserted(rows, table, row);
      FitsShape(rows, table, row, true);
      StoredShape(tables, rows, table.name, id);
      InsertKeeps(tables, rows, table, row, true);
      StartReindex(tables, rows, new_, index, table.name);
      var i := 0;
      while i < |table.columns|
        invariant 0 <= i <= |table.columns|
        invariant rows == was && Reindexed(tables, was, new_, index, table.name, i)
      {
        var c := table.columns[i];
        if c.index {
          var prior := rows[(table.name, id)];
          NextColumn(tables, was, new_, index, table.name, i, id);
          if prior[i] != row[i] {
            var ids := Entry(index, table.name, c.name, prior[i]);
            index := SetEntry(index, table.name, c.name, prior[i], ids - {id});
            ids := Entry(index, table.name, c.name, row[i]);
            index := SetEntry(index, table.name, c.name, row[i], ids + {id});
          }
        } else {
          SkipColumn(tables, was, new_, index, table.name, i);
        }
        i := i + 1;
      }
      FinishReindex(tables, was, new_, index, table.name);
      rows := rows[(table.name, id) := row];
    }

    /** Updates rows in order, stopping at the first that fails; the constraints hold at every point. */
    method Update(t: string, given: seq<(Value, Row)>) returns (r: Outcome, ghost n: nat)
      requires Valid() && (t in tables ==> forall u :: u in given ==> KeyOf(tables[t], u.0))
      modifies this`rows, this`index
      ensures Valid()
      ensures t !in tables ==> r == Failed && rows == old(rows)
      ensures t in tables && r == Done ==> n == |given| && rows == ReplacedAll(old(rows), tables[t], given)
      ensures t in tables && r != Done ==> n < |given|
      ensures t in tables && r != Done ==>
        r == UpdateOutcome(tables, ReplacedAll(old(rows), tables[t], given[..n]), t, given[n].0, given[n].1, cast)
    {
      hide Sound, RefsOk, Replaced, UpdateOutcome, KeyOf;
      n := 0;
      if t !in tables { return Failed, 0; }
      var i := 0;
      while i < |given|
        invariant 0 <= i <= |given| && i == n && Valid()
        invariant rows == ReplacedAll(old(rows), tables[t], given[..i])
      {
        var (id, row) := given[i];
        assert given[i] in given;
        r := UpdateRow(t, id, row);
        if r != Done { return; }
        assert given[..i + 1][..i] == given[..i];
        i, n := i + 1, n + 1;
      }
      assert given[..|given|] == given;
      return Done, n;
    }
  }

  /** The rows after an update: the old row goes, the new one comes. */
  function Replaced(rows: Stored, table: Table, id: Value, row: Row): Stored {
    Inserted(Deleted(rows, table.name, {id}), table, row)
  }

  function ReplacedAll(rows: Stored, table: Table, updates: seq<(Value, Row)>): Stored {
    if updates == [] then rows
    else
      var (id, row) := updates[|updates| - 1];
      Replaced(ReplacedAll(rows, table, updates[..|updates| - 1]), table, id, StoredRow(row))
  }

  /** A primary key of the table, in the form it is stored in. */
  predicate KeyOf(table: Table, id: Value) {
    AsStored(id) && table.primaryKey < |table.columns| && IsOf(id, table.columns[table.primaryKey].datatype_)
  }

  /** The row's new key is not the old one. */
  predicate KeyMoves(table: Table, id: Value, given: Row, cast: Cast) {
    table.primaryKey < |given| && !SameValue(id, given[table.primaryKey], cast)
  }

  /** A key given as negative zero is not the stored one, so the row it names counts as another holder of its values. */
  predicate Keeps(rows: Stored, table: Table, row: Row, key: Value, i: nat)
    requires i < |row| && |row| == |table.columns| && table.primaryKey < |row|
  {
    && key != row[table.primaryKey]
    && table.columns[i].unique && i != table.primaryKey && !Undefined(row[i])
    && (table.name, row[table.primaryKey]) in rows
    && ValueAt(rows, table.name, row[table.primaryKey], i) == row[i]
  }

  predicate FindsItself(rows: Stored, table: Table, row: Row, key: Value) {
    && |row| == |table.columns| && table.primaryKey < |row|
    && exists i :: 0 <= i < |row| && Keeps(rows, table, row, key, i)
  }

  /** When an update of one row goes through. */
  ghost function UpdateOutcome(tables: Tables, rows: Stored, t: string, id: Value, given: Row, cast: Cast): Outcome
    requires t in tables
  {
    var table, row := tables[t], StoredRow(given);
    if table.primaryKey >= |row| then Panicked
    else if KeyMoves(table, id, given, cast) then
      if NotReferenced(tables, rows, t, {id}) && RowFits(Deleted(rows, t, {id}), table, row, false)
      then Done
      else Failed
    else if !RowFits(rows, table, row, true) || FindsItself(rows, table, row, given[table.primaryKey]) then Failed
    else if (t, id) !in rows && (exists i :: 0 <= i < |table.columns| && table.columns[i].index) then Panicked
    else Done
  }

  /** The key moves, and the rows keep every constraint without the old row, and with the new one at a free key. */
  ghost predicate MoveKeeps(tables: Tables, rows: Stored, t: string, id: Value, row: Row)
    requires t in tables
  {
    var table, rest := tables[t], rows - {(t, id)};
    && RefsOk(tables, rest)
    && KeepsAll(tables, rest, table, row)
    && (t, row[table.primaryKey]) !in rest
  }

  /** An update that changes the key goes through exactly if no constraint stands against it. */
  lemma MoveAllowedIff(tables: Tables, rows: Stored, t: string, id: Value, given: Row, cast: Cast)
    requires t in tables && tables[t].name == t && KeyOf(tables[t], id) && KeyMoves(tables[t], id, given, cast)
    requires RowsOk(tables, rows) && UniqueOk(tables, rows) && RefsOk(tables, rows)
    ensures UpdateOutcome(tables, rows, t, id, given, cast) in {Done, Failed}
    ensures UpdateOutcome(tables, rows, t, id, given, cast) == Done
      <==> MoveKeeps(tables, rows, t, id, StoredRow(given))
  {
    hide RowsOk, UniqueOk, RefsOk, NotReferenced, RowFits, KeepsAll, KeyMoves;
    assert tables[t].primaryKey < |given| by { MovesWithin(tables[t], id, given, cast); }
    OneDeleted(rows, t, id);
    DeletableIff(tables, rows, t, {id});
    DeleteKeeps(tables, rows, t, {id});
    if RefsOk(tables, rows - {(t, id)}) {
      FitsIff(tables, rows - {(t, id)}, tables[t], StoredRow(given), false);
    }
  }

  lemma MovesIff(tables: Tables, rows: Stored, t: string, id: Value, given: Row, cast: Cast)
    requires t in tables && tables[t].name == t && KeyOf(tables[t], id)
    requires RowsOk(tables, rows) && UniqueOk(tables, rows) && RefsOk(tables, rows)
    ensures KeyMoves(tables[t], id, given, cast) ==>
      (UpdateOutcome(tables, rows, t, id, given, cast) == Done <==> MoveKeeps(tables, rows, t, id, StoredRow(given)))
  {
    hide RowsOk, UniqueOk, RefsOk, UpdateOutcome, KeyMoves, MoveKeeps;
    if KeyMoves(tables[t], id, given, cast) { MoveAllowedIff(tables, rows, t, id, given, cast); }
  }

  lemma ReplacedInPlace(rows: Stored, table: Table, id: Value, row: Row)
    requires table.primaryKey < |row| && row[table.primaryKey] == id
    ensures Inserted(rows, table, row) == Replaced(rows, table, id, row)
  {
    OneDeleted(rows, table.name, id);
    assert (rows - {(table.name, id)})[(table.name, id) := row] == rows[(table.name, id) := row];
  }

  lemma MovesWithin(table: Table, id: Value, given: Row, cast: Cast)
    requires KeyMoves(table, id, given, cast)
    ensures table.primaryKey < |given|
  {}

  /**
   * An update that keeps the key goes through exactly if the rows with the new row keep every constraint and, should
   * it give the key as negative zero, it changes the value of every unique column.
   */
  lemma KeepAllowedIff(tables: Tables, rows: Stored, t: string, id: Value, given: Row, cast: Cast)
    requires t in tables && tables[t].name == t && KeyOf(tables[t], id) && (t, id) in rows
    requires tables[t].primaryKey < |given| && !KeyMoves(tables[t], id, given, cast)
    requires RowsOk(tables, rows) && UniqueOk(tables, rows) && RefsOk(tables, rows)
    ensures UpdateOutcome(tables, rows, t, id, given, cast) == Done <==>
      && KeepsAll(tables, rows, tables[t], StoredRow(given))
      && !(given[tables[t].primaryKey] == Number(NegativeZero)
           && exists i :: 0 <= i < |given| && UniqueKept(rows, tables[t], id, given, i))
  {
    hide RowsOk, UniqueOk, RefsOk, RowFits, KeepsAll, KeyMoves, UniqueKept, KeyOf;
    FitsIff(tables, rows, tables[t], StoredRow(given), true);
    if RowFits(rows, tables[t], StoredRow(given), true) { RefusedUpdateIff(tables, rows, t, id, given, cast); }
  }

  /** A row with the same key, of the right type, is stored under the same key. */
  lemma SameKey(rows: Stored, table: Table, id: Value, given: Row, cast: Cast)
    requires KeyOf(table, id) && RowFits(rows, table, StoredRow(given), true) && table.primaryKey < |given|
    requires SameValue(id, given[table.primaryKey], cast)
    ensures StoredRow(given)[table.primaryKey] == id
  {
    assert ValueOk(table.columns[table.primaryKey], StoredRow(given)[table.primaryKey]);
  }

  lemma KeyIsStored(table: Table, row: Row)
    requires KeyStored(table, row) && table.primaryKey < |row|
    ensures HashKey(row[table.primaryKey]) == row[table.primaryKey]
  {}

  lemma InsertedNone(rows: Stored, more: seq<Row>)
    ensures forall table :: InsertedAll(rows, table, more[..0]) == rows
  {}

  lemma InsertedNext(rows: Stored, table: Table, more: seq<Row>, i: nat)
    requires i < |more|
    ensures InsertedAll(rows, table, more[..i + 1]) == Inserted(InsertedAll(rows, table, more[..i]), table, more[i])
  {
    assert more[..i + 1][..i] == more[..i];
  }

  lemma ShortRow(rows: Stored, table: Table, row: Row, update: bool)
    requires table.primaryKey >= |row|
    ensures !RowFits(rows, table, row, update)
  {}

  lemma RowsStored(table: Table, given: seq<Row>)
    ensures forall row :: row in StoredRows(given) ==> KeyStored(table, row)
  {
    forall row | row in StoredRows(given) ensures KeyStored(table, row) {
      var i :| 0 <= i < |given| && StoredRows(given)[i] == row;
      StoredIsStored(given[i]);
    }
  }

  /**
   * An update that keeps the key is refused, although the constraints allow the row, exactly if it gives the key as
   * negative zero and keeps the value of some unique column.
   */
  lemma RefusedUpdateIff(tables: Tables, rows: Stored, t: string, id: Value, given: Row, cast: Cast)
    requires t in tables && tables[t].name == t && KeyOf(tables[t], id) && (t, id) in rows
    requires tables[t].primaryKey < |given| && !KeyMoves(tables[t], id, given, cast)
    requires RowFits(rows, tables[t], StoredRow(given), true)
    ensures UpdateOutcome(tables, rows, t, id, given, cast) != Done <==>
      && given[tables[t].primaryKey] == Number(NegativeZero)
      && exists i :: 0 <= i < |given| && UniqueKept(rows, tables[t], id, given, i)
  {
    hide RowFits, SameValue;
    var table, row, key := tables[t], StoredRow(given), given[tables[t].primaryKey];
    SameKey(rows, table, id, given, cast);
    assert |row| == |table.columns| by { FitsShape(rows, table, row, true); }
    assert key != row[table.primaryKey] <==> key == Number(NegativeZero);
    if key == Number(NegativeZero) {
      assert forall i :: 0 <= i < |given| ==>
        (Keeps(rows, table, row, key, i) <==> UniqueKept(rows, table, id, given, i));
    }
  }

  /** Such an update: the row with key 0.0 and unique value 1, rewritten with key -0.0. */
  lemma NegativeZeroRefused(cast: Cast)
    ensures var key := Column("key", FloatType, false, None, true, false, None);
      var a := Column("a", IntegerType, false, None, true, true, None);
      var table := Table("t", 0, [key, a]);
      var id := Number(Finite(0.0));
      var rows: Stored := map[("t", id) := [id, Integer(1)]];
      var given := [Number(NegativeZero), Integer(1)];
      && WellFormed(table, map[])
      && RowFits(rows, table, StoredRow(given), true)
      && UpdateOutcome(map["t" := table], rows, "t", id, given, cast) == Failed
  {
    var key := Column("key", FloatType, false, None, true, false, None);
    var a := Column("a", IntegerType, false, None, true, true, None);
    var table := Table("t", 0, [key, a]);
    var id := Number(Finite(0.0));
    var rows: Stored := map[("t", id) := [id, Integer(1)]];
    var given := [Number(NegativeZero), Integer(1)];
    var row := StoredRow(given);
    assert forall i :: 0 <= i < 2 ==> ColumnOk(table, i, map[]);
    assert row == [id, Integer(1)];
    assert forall i :: 0 <= i < 2 ==> ValueOk(table.columns[i], row[i]) && ColumnFits(rows, table, row, i, true);
    assert Keeps(rows, table, row, given[0], 1);
  }

  /** The new row has, in this unique column other than the key, the value that the row with the key has now. */
  predicate UniqueKept(rows: Stored, table: Table, id: Value, given: Row, i: nat) {
    && i < |given| && i < |table.columns| && table.columns[i].unique && i != table.primaryKey
    && !Undefined(given[i]) && HashKey(given[i]) == ValueAt(rows, table.name, id, i)
  }

  /** No row outside `ids` refers to one of them from the first `n` columns of table `s`. */
  ghost predicate TableClear(tables: Tables, rows: Stored, s: string, n: nat, t: string, ids: set<Value>)
    requires s in tables && n <= |tables[s].columns|
  {
    forall i, id ::
      0 <= i < n && tables[s].columns[i].references == Some(t) && (s, id) in rows && ValueAt(rows, s, id, i) in ids
      ==> s == t && id in ids
  }

  lemma FitsShape(rows: Stored, table: Table, row: Row, update: bool)
    requires RowFits(rows, table, row, update)
    ensures |row| == |table.columns| && table.primaryKey < |row|
    ensures !update ==> (table.name, row[table.primaryKey]) !in rows
  {
  }

  lemma StoredShape(tables: Tables, rows: Stored, t: string, id: Value)
    requires RowsOk(tables, rows)
    ensures (t, id) in rows ==> t in tables && |rows[(t, id)]| == |tables[t].columns|
  {
  }

  lemma KeyColumns(tables: Tables, rows: Stored, s: string)
    requires RowsOk(tables, rows) && s in tables
    ensures forall id :: (s, id) in rows ==>
      tables[s].primaryKey < |rows[(s, id)]| && rows[(s, id)][tables[s].primaryKey] == id &&
        ValueAt(rows, s, id, tables[s].primaryKey) == id
  {
  }

  lemma NoneDeleted(rows: Stored, t: string)
    ensures Deleted(rows, t, {}) == rows
  {
  }

  lemma OneDeleted(rows: Stored, t: string, id: Value)
    ensures Deleted(rows, t, {id}) == rows - {(t, id)}
  {
  }

  lemma OneMoreDeleted(rows: Stored, t: string, gone: set<Value>, id: Value)
    ensures Deleted(rows, t, gone + {id}) == Deleted(rows, t, gone) - {(t, id)}
  {
  }

  lemma UniqueIsIndexed(table: Table, i: nat, tables: Tables)
    requires i < |table.columns| && table.primaryKey < |table.columns| && ColumnOk(table, i, tables)
    ensures (table.columns[i].unique || table.columns[i].references.Some?) && i != table.primaryKey ==>
      table.columns[i].index
  {
  }

  lemma WholeRows(tables: Tables, rows: Stored, t: string)
    requires RowsOk(tables, rows) && t in tables
    ensures forall id, i, v :: (t, id) in rows && 0 <= i < |tables[t].columns| ==>
      (Holds(rows, t, i, v, id) <==> ValueAt(rows, t, id, i) == v)
  {
  }
}
