/**
 * The three request tables of the analyzer's SQLite store: their columns and
 * NOT NULL flags as the DDL of create_tables_if_needed! declares them, the
 * column/parameter pairs of the three INSERT statements, and the values that
 * rows hold.
 */
module Schema {

  datatype Option<T> = None | Some(value: T)

  /** The request events that have a table and an insert statement. */
  datatype Kind = Started | Failed | Completed

  /** The kinds in the order of the statement hash. */
  const Kinds: seq<Kind> := [Started, Failed, Completed]

  /**
   * A stored or bound value. `Null` is SQL NULL and Ruby's nil; FLOAT and
   * DATETIME contents are opaque tokens.
   */
  datatype Value = Null | Int(i: int) | Text(s: string) | Opaque(token: nat)

  /** A column and whether the DDL declares it NOT NULL. */
  datatype Column = Column(name: string, notNull: bool)

  /** A row maps the columns an INSERT names to the values it bound; any other column is NULL. */
  type Row = map<string, Value>

  datatype Table = Table(columns: seq<Column>, rows: seq<Row>)

  /** The store: table name to table. */
  type Tables = map<string, Table>

  /** The entries of a request hash other than `:type`, keyed by symbol name. */
  type Fields = map<string, Value>

  /** `hash[key]` in Ruby: nil when the key is absent. */
  function Lookup(f: map<string, Value>, key: string): Value {
    if key in f then f[key] else Null
  }

  function TableName(k: Kind): string {
    match k
    case Started => "started_requests"
    case Failed => "failed_requests"
    case Completed => "completed_requests"
  }

  /** SQLite's case folding of identifiers: ASCII upper-case letters only. */
  function LowerChar(c: char): char {
    if 'A' <= c <= 'Z' then (c as int + 32) as char else c
  }

  /**
   * A name as SQLite identifies it: table names match case-insensitively, so
   * tables are keyed by their folded names.
   */
  function Lower(name: string): (r: string)
    ensures |r| == |name| && forall i :: 0 <= i < |name| ==> r[i] == LowerChar(name[i])
  {
    seq(|name|, i requires 0 <= i < |name| => LowerChar(name[i]))
  }

  /** Folding is idempotent, and the table names of the DDL are already folded. */
  lemma LowerFolds(name: string, k: Kind)
    ensures Lower(Lower(name)) == Lower(name)
    ensures Lower(TableName(k)) == TableName(k)
  {
  }

  /** The columns the three INSERT statements name are written in lower case. */
  lemma ParameterColumnsFolded(k: Kind)
    ensures forall c :: c in ColumnsOf(Parameters(k)) ==> Lower(c) == c
  {
  }

  /** Folding works character by character, so it distributes over the `"_requests"` suffix. */
  lemma LowerAppend(a: string, b: string)
    ensures Lower(a + b) == Lower(a) + Lower(b)
  {
  }

  /** Column `name` is declared at most once in `cols`. */
  predicate DistinctNames(cols: seq<Column>) {
    forall i, j :: 0 <= i < j < |cols| ==> cols[i].name != cols[j].name
  }

  /** The columns each CREATE TABLE declares, after the autoincrement `id`; `line` comes first and is NOT NULL. */
  function Ddl(k: Kind): (cols: seq<Column>)
    ensures |cols| > 0 && cols[0] == Column("line", true)
  {
    match k
    case Started => [
      Column("line", true), Column("timestamp", true), Column("controller", true),
      Column("action", true), Column("method", true), Column("ip", true)]
    case Failed => [
      Column("line", true), Column("started_request_id", false), Column("status", false)]
    case Completed => [
      Column("line", true), Column("started_request_id", false), Column("url", true),
      Column("hashed_url", false), Column("status", true), Column("duration", false),
      Column("rendering_time", false), Column("database_time", false)]
  }

  /**
   * The (column, named parameter) pairs of each kind's INSERT statement;
   * `line` is bound from `:line`.
   */
  function Parameters(k: Kind): (ps: seq<(string, string)>)
    ensures |ps| > 0 && ps[0] == ("line", "line")
  {
    match k
    case Started => [
      ("line", "line"), ("timestamp", "timestamp"), ("ip", "ip"),
      ("method", "method"), ("controller", "controller"), ("action", "action")]
    case Failed => [("line", "line")]
    case Completed => [
      ("line", "line"), ("url", "url"), ("status", "status"), ("duration", "duration"),
      ("rendering_time", "rendering"), ("database_time", "db")]
  }

  /** No CREATE TABLE declares a column twice, and no INSERT names a column or a parameter twice. */
  lemma NamesDistinct(k: Kind)
    ensures DistinctNames(Ddl(k))
    ensures forall i, j :: 0 <= i < j < |Parameters(k)| ==>
      Parameters(k)[i].0 != Parameters(k)[j].0 && Parameters(k)[i].1 != Parameters(k)[j].1
  {
  }

  function ColumnsOf(ps: seq<(string, string)>): (cs: seq<string>)
    ensures |cs| == |ps| && forall i :: 0 <= i < |ps| ==> cs[i] == ps[i].0
  {
    seq(|ps|, i requires 0 <= i < |ps| => ps[i].0)
  }

  /**
   * The row that executing an INSERT with parameter pairs `ps` stores when its
   * parameters are bound as `f` says: each named column gets the value of its
   * parameter, or NULL when nothing is bound to it.
   */
  function BindRow(ps: seq<(string, string)>, f: Fields): (row: Row)
    ensures forall c :: c in row <==> c in ColumnsOf(ps)
  {
    if ps == [] then map[]
    else BindRow(ps[..|ps| - 1], f)[ps[|ps| - 1].0 := Lookup(f, ps[|ps| - 1].1)]
  }

  /** The row kind `k`'s INSERT stores when its parameters are bound as `b` says. */
  function Bind(k: Kind, b: Fields): (row: Row)
    ensures forall c :: c in row <==> c in ColumnsOf(Parameters(k))
  {
    BindRow(Parameters(k), b)
  }

  /**
   * The parameter values of a prepared statement after `execute(f)`:
   * executing resets the statement, which keeps what was bound before, and
   * then binds each key of `f`; a key the hash lacks keeps its old value.
   */
  function Rebind(bound: Fields, f: Fields): (r: Fields)
    ensures forall p :: Lookup(r, p) == if p in f then f[p] else Lookup(bound, p)
    ensures bound == map[] ==> r == f
  {
    bound + f
  }

  /** Column `ps[i].0` stores the value bound to parameter `ps[i].1`, or NULL when nothing is bound to it. */
  lemma {:induction false} BindRowAt(ps: seq<(string, string)>, f: Fields, i: nat)
    requires i < |ps|
    requires forall j :: i < j < |ps| ==> ps[j].0 != ps[i].0
    ensures ps[i].0 in BindRow(ps, f) && BindRow(ps, f)[ps[i].0] == Lookup(f, ps[i].1)
  {
    if i < |ps| - 1 {
      BindRowAt(ps[..|ps| - 1], f, i);
    }
  }

  predicate HasColumn(cols: seq<Column>, name: string) {
    exists j :: 0 <= j < |cols| && cols[j].name == name
  }

  /** The first of `names` that is not a column of `cols`, as SQLite reports it when preparing. */
  function MissingColumn(names: seq<string>, cols: seq<Column>): (r: Option<string>)
    ensures r.None? <==> forall i :: 0 <= i < |names| ==> HasColumn(cols, names[i])
    ensures r.Some? ==> r.value in names && !HasColumn(cols, r.value)
  {
    if names == [] then None
    else if !HasColumn(cols, names[0]) then Some(names[0])
    else MissingColumn(names[1..], cols)
  }

  /** The first NOT NULL column of `cols` that `row` leaves NULL. */
  function NullViolation(cols: seq<Column>, row: Row): (r: Option<string>)
    ensures r.None? <==> forall i :: 0 <= i < |cols| && cols[i].notNull ==> Lookup(row, cols[i].name) != Null
    ensures r.Some? ==> exists i :: 0 <= i < |cols| && cols[i].notNull && cols[i].name == r.value && Lookup(row, r.value) == Null
  {
    if cols == [] then None
    else if cols[0].notNull && Lookup(row, cols[0].name) == Null then Some(cols[0].name)
    else NullViolation(cols[1..], row)
  }

  /** `CREATE TABLE IF NOT EXISTS name (columns)`: an existing table, schema and rows, is kept as it is. */
  function CreateTableIfNotExists(t: Tables, name: string, columns: seq<Column>): (r: Tables)
    ensures r.Keys == t.Keys + {name}
    ensures forall n :: n in t ==> r[n] == t[n]
    ensures name !in t ==> r[name] == Table(columns, [])
  {
    if name in t then t else t[name := Table(columns, [])]
  }

  /** The three CREATE TABLE IF NOT EXISTS statements, in source order. */
  function CreateTables(t: Tables): (r: Tables)
    ensures r.Keys == t.Keys + {TableName(Started), TableName(Failed), TableName(Completed)}
    ensures forall n :: n in t ==> r[n] == t[n]
    ensures forall k: Kind :: TableName(k) !in t ==> r[TableName(k)] == Table(Ddl(k), [])
  {
    var t1 := CreateTableIfNotExists(t, TableName(Started), Ddl(Started));
    var t2 := CreateTableIfNotExists(t1, TableName(Failed), Ddl(Failed));
    CreateTableIfNotExists(t2, TableName(Completed), Ddl(Completed))
  }

  /** The request fields an INSERT of kind `k` needs non-nil: the parameters bound to NOT NULL columns. */
  function RequiredFields(k: Kind): seq<string> {
    match k
    case Started => ["line", "timestamp", "controller", "action", "method", "ip"]
    case Failed => ["line"]
    case Completed => ["line", "url", "status"]
  }

  /** Every column an INSERT statement names is a column its CREATE TABLE declares. */
  lemma StatementsMatchDdl(k: Kind)
    ensures forall c :: c in ColumnsOf(Parameters(k)) ==> HasColumn(Ddl(k), c)
  {
    var cols, ps := Ddl(k), Parameters(k);
    forall c | c in ColumnsOf(ps) ensures HasColumn(cols, c) {
      var i :| 0 <= i < |ps| && ColumnsOf(ps)[i] == c;
      match k
      case Started =>
        assert cols[0].name == ps[0].0 && cols[1].name == ps[1].0 && cols[5].name == ps[2].0;
        assert cols[4].name == ps[3].0 && cols[2].name == ps[4].0 && cols[3].name == ps[5].0;
      case Failed =>
        assert cols[0].name == ps[0].0;
      case Completed =>
        assert cols[0].name == ps[0].0 && cols[2].name == ps[1].0 && cols[4].name == ps[2].0;
        assert cols[5].name == ps[3].0 && cols[6].name == ps[4].0 && cols[7].name == ps[5].0;
    }
  }

  /** The bindings `f` hold a value for every parameter that kind `k`'s NOT NULL columns are bound from. */
  predicate HasRequiredFields(k: Kind, f: Fields) {
    forall i :: 0 <= i < |RequiredFields(k)| ==> Lookup(f, RequiredFields(k)[i]) != Null
  }

  /** The started INSERT binds each column from the parameter of the same name. */
  lemma StartedBinds(f: Fields)
    ensures var row := Bind(Started, f);
      && Lookup(row, "line") == Lookup(f, "line")
      && Lookup(row, "timestamp") == Lookup(f, "timestamp")
      && Lookup(row, "ip") == Lookup(f, "ip")
      && Lookup(row, "method") == Lookup(f, "method")
      && Lookup(row, "controller") == Lookup(f, "controller")
      && Lookup(row, "action") == Lookup(f, "action")
  {
    var ps := Parameters(Started);
    BindRowAt(ps, f, 0);
    BindRowAt(ps, f, 1);
    BindRowAt(ps, f, 2);
    BindRowAt(ps, f, 3);
    BindRowAt(ps, f, 4);
    BindRowAt(ps, f, 5);
  }

  /** The completed INSERT binds its NOT NULL columns from the parameters of the same name. */
  lemma CompletedBinds(f: Fields)
    ensures var row := Bind(Completed, f);
      && Lookup(row, "line") == Lookup(f, "line")
      && Lookup(row, "url") == Lookup(f, "url")
      && Lookup(row, "status") == Lookup(f, "status")
  {
    var ps := Parameters(Completed);
    BindRowAt(ps, f, 0);
    BindRowAt(ps, f, 1);
    BindRowAt(ps, f, 2);
  }

  /** The names of the NOT NULL columns of `cols`, in table order. */
  function NotNullNames(cols: seq<Column>): seq<string> {
    if cols == [] then []
    else (if cols[0].notNull then [cols[0].name] else []) + NotNullNames(cols[1..])
  }

  /** A row passes the NOT NULL checks exactly when it has a value for every NOT NULL column. */
  lemma {:induction false} NullViolationByNames(cols: seq<Column>, row: Row)
    ensures NullViolation(cols, row).None? <==> forall n :: n in NotNullNames(cols) ==> Lookup(row, n) != Null
    decreases |cols|
  {
    if cols != [] {
      NullViolationByNames(cols[1..], row);
    }
  }

  /** Each table's NOT NULL columns are exactly its kind's required parameters, in table order. */
  lemma NotNullColumnsAreRequired(k: Kind)
    ensures NotNullNames(Ddl(k)) == RequiredFields(k)
  {
    match k
    case Started => StartedNotNullNames();
    case Failed => FailedNotNullNames();
    case Completed => CompletedNotNullNames();
  }

  lemma StartedNotNullNames()
    ensures NotNullNames(Ddl(Started)) == RequiredFields(Started)
  {
    var cols := Ddl(Started);
    assert NotNullNames(cols[5..]) == ["ip"];
    assert NotNullNames(cols[4..]) == ["method", "ip"];
    assert NotNullNames(cols[3..]) == ["action", "method", "ip"];
    assert NotNullNames(cols[2..]) == ["controller", "action", "method", "ip"];
    assert NotNullNames(cols[1..]) == ["timestamp", "controller", "action", "method", "ip"];
  }

  lemma FailedNotNullNames()
    ensures NotNullNames(Ddl(Failed)) == RequiredFields(Failed)
  {
    var cols := Ddl(Failed);
    assert NotNullNames(cols[2..]) == [];
    assert NotNullNames(cols[1..]) == [];
  }

  lemma CompletedNotNullNames()
    ensures NotNullNames(Ddl(Completed)) == RequiredFields(Completed)
  {
    var cols := Ddl(Completed);
    assert NotNullNames(cols[7..]) == [];
    assert NotNullNames(cols[6..]) == [];
    assert NotNullNames(cols[5..]) == [];
    assert NotNullNames(cols[4..]) == ["status"];
    assert NotNullNames(cols[2..]) == ["url", "status"];
    assert NotNullNames(cols[1..]) == ["url", "status"];
  }

  /** Each required parameter is stored in the column of the same name. */
  lemma RequiredFieldsBind(k: Kind, f: Fields)
    ensures forall i :: 0 <= i < |RequiredFields(k)| ==> Lookup(Bind(k, f), RequiredFields(k)[i]) == Lookup(f, RequiredFields(k)[i])
  {
    match k
    case Started => StartedBinds(f);
    case Failed => BindRowAt(Parameters(Failed), f, 0);
    case Completed => CompletedBinds(f);
  }

  /**
   * The INSERT of kind `k` passes the table's NOT NULL constraints exactly
   * when its bindings hold a non-nil value for each of the kind's required
   * parameters.
   */
  lemma NotNullHoldsIffRequiredFields(k: Kind, f: Fields)
    ensures NullViolation(Ddl(k), Bind(k, f)).None? <==> HasRequiredFields(k, f)
  {
    var row, req := Bind(k, f), RequiredFields(k);
    NullViolationByNames(Ddl(k), row);
    NotNullColumnsAreRequired(k);
    RequiredFieldsBind(k, f);
    assert (forall n :: n in req ==> Lookup(row, n) != Null) <==> (forall i :: 0 <= i < |req| ==> Lookup(row, req[i]) != Null);
  }

  /** Creating the tables a second time changes nothing: no table is duplicated and no row is lost. */
  lemma CreateTablesIdempotent(t: Tables)
    ensures CreateTables(CreateTables(t)) == CreateTables(t)
  {
  }
}
