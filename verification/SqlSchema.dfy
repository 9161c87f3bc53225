/** Table schemas (src/sql/types/schema.rs) and what they demand of stored rows. */
module SqlSchema {
  import opened Common
  import opened Bytes
  import opened SqlValues

  datatype Column = Column(
    name: string,
    datatype_: DataType,
    nullable: bool,
    default_: Option<Value>,
    unique: bool,
    index: bool,
    references: Option<string>)

  datatype Table = Table(name: string, primaryKey: nat, columns: seq<Column>)

  type Tables = map<string, Table>

  /** Rows by table and primary key. */
  type Stored = map<(string, Value), Row>

  // ---------------------------------------------------------------- schemas

  predicate DefaultOk(c: Column) {
    match c.default_
    case None => !c.nullable
    case Some(v) => if v.Null? then c.nullable else IsOf(v, c.datatype_)
  }

  predicate ReferenceOk(c: Column, table: Table, catalog: Tables)
    requires table.primaryKey < |table.columns|
  {
    c.references.None? ||
    if c.references.value == table.name then c.datatype_ == table.columns[table.primaryKey].datatype_
    else
      c.references.value in catalog
      && var target := catalog[c.references.value];
         target.primaryKey < |target.columns| && c.datatype_ == target.columns[target.primaryKey].datatype_
  }

  predicate ColumnOk(table: Table, i: nat, catalog: Tables)
    requires i < |table.columns| && table.primaryKey < |table.columns|
  {
    var c := table.columns[i];
    var primary := i == table.primaryKey;
    && c.name != ""
    && (primary ==> !c.nullable && c.unique && !c.index)
    && DefaultOk(c)
    && ((c.unique || c.references.Some?) && !primary ==> c.index)
    && ReferenceOk(c, table, catalog)
  }

  predicate WellFormed(table: Table, catalog: Tables) {
    && table.name != ""
    && table.primaryKey < |table.columns|
    && forall i :: 0 <= i < |table.columns| ==> ColumnOk(table, i, catalog)
  }

  /** `Table::validate`; the catalog holds tables that were validated before. */
  method Validate(table: Table, catalog: Tables) returns (ok: bool)
    requires forall t :: t in catalog ==> catalog[t].primaryKey < |catalog[t].columns|
    ensures ok <==> WellFormed(table, catalog)
  {
    if table.name == "" { return false; }
    if table.columns == [] { return false; }
    if table.primaryKey >= |table.columns| { return false; }
    var i := 0;
    while i < |table.columns|
      invariant 0 <= i <= |table.columns|
      invariant forall j :: 0 <= j < i ==> ColumnOk(table, j, catalog)
    {
      var c := table.columns[i];
      ghost var good := ColumnOk(table, i, catalog);
      if c.name == "" { assert !good; return false; }
      if i == table.primaryKey && (c.nullable || !c.unique || c.index) { assert !good; return false; }
      match c.default_ {
        case None => if c.nullable { assert !good; return false; }
        case Some(v) =>
          if v.Null? && !c.nullable { assert !good; return false; }
          if !v.Null? && !IsOf(v, c.datatype_) { assert !good; return false; }
      }
      if c.unique && !c.index && i != table.primaryKey { assert !good; return false; }
      if c.references.Some? {
        if !c.index && i != table.primaryKey { assert !good; return false; }
        var key: DataType;
        if c.references.value == table.name {
          key := table.columns[table.primaryKey].datatype_;
        } else if c.references.value in catalog {
          var target := catalog[c.references.value];
          key := target.columns[target.primaryKey].datatype_;
        } else {
          assert !good;
          return false;
        }
        if c.datatype_ != key { assert !good; return false; }
      }
      i := i + 1;
    }
    ok := true;
  }

  /** No two indexed columns have the same name. `Table::validate` does not check this. */
  predicate IndexNamesDistinct(table: Table) {
    forall i, j :: 0 <= i < j < |table.columns| && table.columns[i].index && table.columns[j].index
      ==> table.columns[i].name != table.columns[j].name
  }

  // ---------------------------------------------------------------- rows

  predicate ValueOk(c: Column, v: Value) {
    if v.Null? then c.nullable else IsOf(v, c.datatype_)
  }

  /** Stored rows have the shape of their table, and are stored under their primary key. */
  ghost predicate RowsOk(tables: Tables, rows: Stored) {
    forall k :: k in rows ==> k.0 in tables && ShapeOk(tables[k.0], rows[k]) && rows[k][tables[k.0].primaryKey] == k.1
  }

  predicate ShapeOk(table: Table, row: Row) {
    && |row| == |table.columns|
    && table.primaryKey < |row|
    && !Undefined(row[table.primaryKey])
    && forall i :: 0 <= i < |row| ==> ValueOk(table.columns[i], row[i])
  }

  /** At most one row per defined value of a unique column. */
  ghost predicate UniqueOk(tables: Tables, rows: Stored) {
    forall t, a, b, i ::
      && (t, a) in rows && (t, b) in rows && t in tables && 0 <= i < |tables[t].columns| && tables[t].columns[i].unique
      && ValueAt(rows, t, a, i) == ValueAt(rows, t, b, i) && !Undefined(ValueAt(rows, t, a, i))
      ==> a == b
  }

  /** The value of a column of a stored row. */
  function ValueAt(rows: Stored, t: string, id: Value, i: nat): Value {
    if (t, id) in rows && i < |rows[(t, id)]| then rows[(t, id)][i] else Null
  }

  /** Every non-null foreign key names a stored row. */
  ghost predicate RefsOk(tables: Tables, rows: Stored) {
    forall t, id, i ::
      (t, id) in rows && t in tables && 0 <= i < |tables[t].columns| && tables[t].columns[i].references.Some?
      ==> RefOk(rows, tables[t].columns[i].references.value, ValueAt(rows, t, id, i))
  }

  predicate RefOk(rows: Stored, target: string, v: Value) { v.Null? || (target, v) in rows }

  /** What `validate_row` demands of a row to be inserted, or to replace the row with its primary key. */
  ghost predicate RowFits(rows: Stored, table: Table, row: Row, update: bool) {
    && ShapeOk(table, row)
    && var id := row[table.primaryKey];
       && (!update ==> (table.name, id) !in rows)
       && forall i :: 0 <= i < |row| ==> ColumnFits(rows, table, row, i, update)
  }

  ghost predicate ColumnFits(rows: Stored, table: Table, row: Row, i: nat, update: bool)
    requires i < |row| && |row| == |table.columns| && table.primaryKey < |row|
  {
    var c, id := table.columns[i], row[table.primaryKey];
    && (c.references.Some? ==>
      (c.references.value == table.name && row[i] == id) || RefOk(rows, c.references.value, row[i]))
    && (c.unique && i != table.primaryKey && !Undefined(row[i]) ==>
          forall other :: (table.name, other) in rows && ValueAt(rows, table.name, other, i) == row[i] ==>
            update && other == id)
  }

  // ---------------------------------------------------------------- what single-row changes keep

  function Inserted(rows: Stored, table: Table, row: Row): Stored {
    if table.primaryKey < |row| then rows[(table.name, row[table.primaryKey]) := row] else rows
  }

  /** Inserting a row that fits, or replacing the one with its primary key, keeps shape, uniqueness and references. */
  lemma InsertKeeps(tables: Tables, rows: Stored, table: Table, row: Row, update: bool)
    requires table.name in tables && tables[table.name] == table
    requires RowsOk(tables, rows) && UniqueOk(tables, rows) && RowFits(rows, table, row, update)
    ensures RowsOk(tables, Inserted(rows, table, row)) && UniqueOk(tables, Inserted(rows, table, row))
    ensures RefsOk(tables, rows) ==> RefsOk(tables, Inserted(rows, table, row))
  {
    hide ShapeOk;
    assert ShapeOk(table, row);
    ShapeMeans(table, row);
    InsertKeepsUnique(tables, rows, table, row, update);
    if RefsOk(tables, rows) { InsertKeepsRefs(tables, rows, table, row, update); }
  }

  lemma ShapeMeans(table: Table, row: Row)
    requires ShapeOk(table, row)
    ensures |row| == |table.columns| && table.primaryKey < |row| && !Undefined(row[table.primaryKey])
  {
  }

  lemma InsertKeepsUnique(tables: Tables, rows: Stored, table: Table, row: Row, update: bool)
    requires table.name in tables && tables[table.name] == table
    requires RowsOk(tables, rows) && UniqueOk(tables, rows) && RowFits(rows, table, row, update)
    ensures UniqueOk(tables, Inserted(rows, table, row))
  {
    ShapeMeans(table, row);
    var rows' := Inserted(rows, table, row);
    var id := row[table.primaryKey];
    assert RowsOk(tables, rows');
    forall t, a, b, i |
      && (t, a) in rows' && (t, b) in rows' && t in tables && 0 <= i < |tables[t].columns| &&
        tables[t].columns[i].unique
      && ValueAt(rows', t, a, i) == ValueAt(rows', t, b, i) && !Undefined(ValueAt(rows', t, a, i))
      ensures a == b
    {
      hide ShapeOk;
      if t == table.name && (a == id || b == id) {
        assert ColumnFits(rows, table, row, i, update);
      }
      if i == tables[t].primaryKey {
        KeyColumn(tables, rows', t, a);
        KeyColumn(tables, rows', t, b);
      }
    }
  }

  lemma KeyColumn(tables: Tables, rows: Stored, t: string, id: Value)
    requires RowsOk(tables, rows) && t in tables && (t, id) in rows
    ensures ValueAt(rows, t, id, tables[t].primaryKey) == id
  {
  }

  lemma InsertKeepsRefs(tables: Tables, rows: Stored, table: Table, row: Row, update: bool)
    requires table.name in tables && tables[table.name] == table && table.primaryKey < |row|
    requires RowFits(rows, table, row, update) && RefsOk(tables, rows)
    ensures RefsOk(tables, Inserted(rows, table, row))
  {
    hide ShapeOk;
    ShapeMeans(table, row);
    var rows' := Inserted(rows, table, row);
    var id := row[table.primaryKey];
    forall t, k, i | (t, k) in rows' && t in tables && 0 <= i < |tables[t].columns| &&
      tables[t].columns[i].references.Some?
      ensures RefOk(rows', tables[t].columns[i].references.value, ValueAt(rows', t, k, i))
    {
      if t == table.name && k == id {
        assert ColumnFits(rows, table, row, i, update);
      } else {
        assert RefOk(rows, tables[t].columns[i].references.value, ValueAt(rows, t, k, i));
      }
    }
  }

  /** No row outside the deleted ones refers to a deleted row. */
  ghost predicate NotReferenced(tables: Tables, rows: Stored, t: string, ids: set<Value>) {
    forall s, id, i ::
      && (s, id) in rows && s in tables && 0 <= i < |tables[s].columns| && tables[s].columns[i].references == Some(t)
      && ValueAt(rows, s, id, i) in ids
      ==> s == t && id in ids
  }

  function Deleted(rows: Stored, t: string, ids: set<Value>): Stored {
    map k | k in rows && !(k.0 == t && k.1 in ids) :: rows[k]
  }

  lemma DeleteKeeps(tables: Tables, rows: Stored, t: string, ids: set<Value>)
    requires RowsOk(tables, rows) && UniqueOk(tables, rows)
    ensures RowsOk(tables, Deleted(rows, t, ids)) && UniqueOk(tables, Deleted(rows, t, ids))
    ensures RefsOk(tables, rows) && NotReferenced(tables, rows, t, ids) ==> RefsOk(tables, Deleted(rows, t, ids))
  {
    hide ShapeOk;
    var rows' := Deleted(rows, t, ids);
    assert forall s, id, i :: (s, id) in rows' ==> ValueAt(rows', s, id, i) == ValueAt(rows, s, id, i);
    if RefsOk(tables, rows) && NotReferenced(tables, rows, t, ids) {
      forall s, id, i | (s, id) in rows' && s in tables && 0 <= i < |tables[s].columns| &&
        tables[s].columns[i].references.Some?
        ensures RefOk(rows', tables[s].columns[i].references.value, ValueAt(rows', s, id, i))
      {
        assert RefOk(rows, tables[s].columns[i].references.value, ValueAt(rows, s, id, i));
      }
    }
  }

  // ---------------------------------------------------------------- what single-row changes are allowed

  /** The rows with a new row in place keep every constraint. */
  ghost predicate KeepsAll(tables: Tables, rows: Stored, table: Table, row: Row) {
    && ShapeOk(table, row)
    && var rows' := rows[(table.name, row[table.primaryKey]) := row];
       UniqueOk(tables, rows') && RefsOk(tables, rows')
  }

  /**
   * A row fits exactly if it has the table's shape, its key is free (or is the one to be replaced), and the rows with
   * it keep uniqueness and references: no row that could be stored is turned away.
   */
  lemma FitsIff(tables: Tables, rows: Stored, table: Table, row: Row, update: bool)
    requires table.name in tables && tables[table.name] == table
    requires RowsOk(tables, rows) && UniqueOk(tables, rows) && RefsOk(tables, rows)
    ensures RowFits(rows, table, row, update) <==>
      && KeepsAll(tables, rows, table, row)
      && (!update ==> (table.name, row[table.primaryKey]) !in rows)
  {
    hide ShapeOk, RowsOk, UniqueOk, RefsOk, ColumnFits;
    if RowFits(rows, table, row, update) {
      ShapeMeans(table, row);
      InsertKeeps(tables, rows, table, row, update);
    } else if KeepsAll(tables, rows, table, row) {
      ShapeMeans(table, row);
      if !update ==> (table.name, row[table.primaryKey]) !in rows {
        forall i | 0 <= i < |row| ensures ColumnFits(rows, table, row, i, update) {
          KeptFits(tables, rows, table, row, i, update);
        }
      }
    }
  }

  lemma KeptFits(tables: Tables, rows: Stored, table: Table, row: Row, i: nat, update: bool)
    requires table.name in tables && tables[table.name] == table && |row| == |table.columns|
    requires i < |row| && table.primaryKey < |row|
    requires KeepsAll(tables, rows, table, row) && (!update ==> (table.name, row[table.primaryKey]) !in rows)
    ensures ColumnFits(rows, table, row, i, update)
  {
    hide ShapeOk;
    var t, c, id := table.name, table.columns[i], row[table.primaryKey];
    var rows' := rows[(t, id) := row];
    assert (t, id) in rows' && ValueAt(rows', t, id, i) == row[i];
    if c.references.Some? { assert RefOk(rows', c.references.value, row[i]); }
    if c.unique && i != table.primaryKey && !Undefined(row[i]) {
      forall other | (t, other) in rows && ValueAt(rows, t, other, i) == row[i] ensures update && other == id {
        assert (t, other) in rows' && ValueAt(rows', t, other, i) == row[i];
      }
    }
  }

  /**
   * Rows may be deleted exactly if the rest keeps its references. NULL is never a key; asked to delete it all the
   * same, the engine also takes null references for references to it.
   */
  lemma DeletableIff(tables: Tables, rows: Stored, t: string, ids: set<Value>)
    requires RefsOk(tables, rows)
    ensures NotReferenced(tables, rows, t, ids) <==>
      RefsOk(tables, Deleted(rows, t, ids)) && (Null in ids ==> NoNullReference(tables, rows, t, ids))
  {
    var rows' := Deleted(rows, t, ids);
    assert forall s, id, i :: (s, id) in rows' ==> ValueAt(rows', s, id, i) == ValueAt(rows, s, id, i);
    if NotReferenced(tables, rows, t, ids) {
      forall s, id, i | (s, id) in rows' && s in tables && 0 <= i < |tables[s].columns|
        && tables[s].columns[i].references.Some?
        ensures RefOk(rows', tables[s].columns[i].references.value, ValueAt(rows', s, id, i))
      {
        assert RefOk(rows, tables[s].columns[i].references.value, ValueAt(rows, s, id, i));
      }
    } else if RefsOk(tables, rows') {
      var s, id, i :| && (s, id) in rows && s in tables && 0 <= i < |tables[s].columns|
                      && tables[s].columns[i].references == Some(t) && ValueAt(rows, s, id, i) in ids
                      && !(s == t && id in ids);
      assert (s, id) in rows' && RefOk(rows', t, ValueAt(rows', s, id, i));
    }
  }

  /** No row that stays has a null reference to `t`. */
  ghost predicate NoNullReference(tables: Tables, rows: Stored, t: string, ids: set<Value>) {
    forall s, id, i ::
      && (s, id) in rows && s in tables && 0 <= i < |tables[s].columns| && tables[s].columns[i].references == Some(t)
      && ValueAt(rows, s, id, i) == Null
      ==> s == t && id in ids
  }
}
