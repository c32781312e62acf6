/**
 * The SQLite database handle the inserter holds, reduced to what the inserter
 * uses: named tables of rows, one transaction snapshot, statement preparation
 * against the tables' columns, and INSERT with the NOT NULL check.
 */
module Store {
  import opened Schema

  /** The exceptions the inserter can meet. */
  datatype Error =
    | NoSuchTable(table: string)
    | NoSuchColumn(table: string, column: string)
    | NotNullViolation(table: string, column: string)
    | ClosedStatement
    | UserException(message: string)

  datatype Result<T> = Ok(value: T) | Err(error: Error)

  /** Why preparing kind `k`'s INSERT against `t` fails, if it does. */
  function PrepareError(t: Tables, k: Kind): (e: Option<Error>)
    ensures e.None? <==> (TableName(k) in t &&
      forall c :: c in ColumnsOf(Parameters(k)) ==> HasColumn(t[TableName(k)].columns, c))
  {
    var name := TableName(k);
    if name !in t then Some(NoSuchTable(name))
    else match MissingColumn(ColumnsOf(Parameters(k)), t[name].columns)
      case Some(c) => Some(NoSuchColumn(name, c))
      case None => None
  }

  /**
   * Executing kind `k`'s INSERT with its parameters bound as `f` says: it
   * fails when the table is gone or a NOT NULL column is left NULL, and
   * otherwise appends exactly one row to that table and leaves every other
   * table as it was.
   */
  function InsertRow(t: Tables, k: Kind, f: Fields): (r: Result<Tables>)
    ensures r.Ok? <==> TableName(k) in t && NullViolation(t[TableName(k)].columns, Bind(k, f)).None?
    ensures r.Ok? ==> r.value.Keys == t.Keys
    ensures r.Ok? ==> forall n :: n in t && n != TableName(k) ==> r.value[n] == t[n]
    ensures r.Ok? ==> r.value[TableName(k)].columns == t[TableName(k)].columns
    ensures r.Ok? ==> r.value[TableName(k)].rows == t[TableName(k)].rows + [Bind(k, f)]
  {
    var name := TableName(k);
    if name !in t then Err(NoSuchTable(name))
    else
      var row := Bind(k, f);
      match NullViolation(t[name].columns, row)
      case Some(c) => Err(NotNullViolation(name, c))
      case None => Ok(t[name := t[name].(rows := t[name].rows + [row])])
  }

  /** `SELECT COUNT(*) FROM "name"`: the table is found whatever the case of the letters in `name`. */
  function RowCount(t: Tables, name: string): (r: Result<nat>)
    ensures r.Ok? <==> Lower(name) in t
    ensures r.Ok? ==> r.value == |t[Lower(name)].rows|
    ensures r.Err? ==> r.error == NoSuchTable(name)
  {
    if Lower(name) in t then Ok(|t[Lower(name)].rows|) else Err(NoSuchTable(name))
  }

  /** Two names that differ only in the case of their letters count the same table. */
  lemma RowCountIgnoresCase(t: Tables, name: string, name': string)
    requires Lower(name) == Lower(name')
    ensures RowCount(t, name).Ok? == RowCount(t, name').Ok?
    ensures RowCount(t, name).Ok? ==> RowCount(t, name).value == RowCount(t, name').value
  {
  }

  /**
   * A database file never holds two tables whose names differ only in the
   * case of their letters: SQLite refuses to create the second one.
   */
  predicate CaseDistinct(t: Tables) {
    forall n, m :: n in t && m in t && Lower(n) == Lower(m) ==> n == m
  }

  /** Every table is keyed by its folded name. */
  predicate FoldedNames(t: Tables) {
    forall n :: n in t ==> Lower(n) == n
  }

  /** Columns under their folded names, with their NOT NULL flags. */
  function FoldColumns(cols: seq<Column>): (r: seq<Column>)
    ensures |r| == |cols|
    ensures forall i :: 0 <= i < |cols| ==> r[i] == Column(Lower(cols[i].name), cols[i].notNull)
  {
    seq(|cols|, i requires 0 <= i < |cols| => Column(Lower(cols[i].name), cols[i].notNull))
  }

  /** A table as SQLite resolves its column names: its columns folded, its rows as they are. */
  function FoldTable(tb: Table): (r: Table)
    ensures r.columns == FoldColumns(tb.columns) && r.rows == tb.rows
  {
    Table(FoldColumns(tb.columns), tb.rows)
  }

  /**
   * A file's tables as the handle identifies them: each one under its folded
   * name, whatever case it was created with, with its column names folded too
   * and its rows as they are.
   */
  function Folded(t: Tables): (r: Tables)
    requires CaseDistinct(t)
    ensures FoldedNames(r)
  {
    forall n ensures Lower(Lower(n)) == Lower(n) {
      LowerFolds(n, Started);
    }
    map n | n in t :: Lower(n) := FoldTable(t[n])
  }

  /** Opening keeps each table of the file, under its folded name, and adds none. */
  lemma FoldedKeepsTables(t: Tables)
    requires CaseDistinct(t)
    ensures forall n :: n in t ==> Lower(n) in Folded(t) && Folded(t)[Lower(n)] == FoldTable(t[n])
    ensures forall m :: m in Folded(t) ==> exists n :: n in t && Lower(n) == m
  {
  }

  /** A column of folded columns is found by its folded name, whatever case it was declared with. */
  lemma FoldedHasColumn(cols: seq<Column>, name: string)
    ensures HasColumn(FoldColumns(cols), Lower(name)) <==> exists j :: 0 <= j < |cols| && Lower(cols[j].name) == Lower(name)
  {
    var r := FoldColumns(cols);
    if HasColumn(r, Lower(name)) {
      var j :| 0 <= j < |r| && r[j].name == Lower(name);
      assert Lower(cols[j].name) == Lower(name);
    }
  }

  /**
   * The database handle: its tables, keyed by their folded names, and the
   * tables as they were when the open transaction began.
   */
  class Database {
    var tables: Tables
    var snapshot: Option<Tables>

    /** Opens a database file whose tables are `existing`. */
    constructor Open(existing: Tables)
      requires CaseDistinct(existing)
      ensures tables == Folded(existing) && snapshot == None
    {
      tables := Folded(existing);
      snapshot := None;
    }

    method CreateTableIfNotExists(name: string, columns: seq<Column>)
      modifies this
      ensures tables == Schema.CreateTableIfNotExists(old(tables), name, columns)
      ensures snapshot == old(snapshot)
    {
      if name !in tables {
        tables := tables[name := Table(columns, [])];
      }
    }

    method Transaction()
      requires snapshot.None?
      modifies this
      ensures tables == old(tables) && snapshot == Some(old(tables))
    {
      snapshot := Some(tables);
    }

    method Commit()
      requires snapshot.Some?
      modifies this
      ensures tables == old(tables) && snapshot == None
    {
      snapshot := None;
    }

    method Rollback()
      requires snapshot.Some?
      modifies this
      ensures tables == old(snapshot).value && snapshot == None
    {
      tables := snapshot.value;
      snapshot := None;
    }

    /** Compiles kind `k`'s INSERT; it fails when its table or one of its columns is missing. */
    method Prepare(k: Kind) returns (e: Option<Error>)
      ensures e == PrepareError(tables, k)
    {
      var name := TableName(k);
      if name !in tables {
        return Some(NoSuchTable(name));
      }
      var missing := MissingColumn(ColumnsOf(Parameters(k)), tables[name].columns);
      e := if missing.Some? then Some(NoSuchColumn(name, missing.value)) else None;
    }

    /** Steps kind `k`'s prepared INSERT with its parameters bound as `f` says. */
    method Insert(k: Kind, f: Fields) returns (e: Option<Error>)
      modifies this
      ensures snapshot == old(snapshot)
      ensures InsertRow(old(tables), k, f).Ok? ==> e.None? && tables == InsertRow(old(tables), k, f).value
      ensures InsertRow(old(tables), k, f).Err? ==> e == Some(InsertRow(old(tables), k, f).error) && tables == old(tables)
    {
      var r := InsertRow(tables, k, f);
      if r.Ok? {
        tables := r.value;
        e := None;
      } else {
        e := Some(r.error);
      }
    }

    /** `get_first_value("SELECT COUNT(*) FROM \"name\"")`, with the name matched case-insensitively. */
    method CountRows(name: string) returns (r: Result<nat>)
      ensures r.Ok? <==> Lower(name) in tables
      ensures r.Ok? ==> r.value == |tables[Lower(name)].rows|
      ensures r.Err? ==> r.error == NoSuchTable(name)
    {
      var key := Lower(name);
      if key in tables {
        r := Ok(|tables[key].rows|);
      } else {
        r := Err(NoSuchTable(name));
      }
    }
  }
}
