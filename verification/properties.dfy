/**
 * Properties that relate several calls: what a batch commits and in which
 * order, what a failed batch leaves behind, what `count` reports after a
 * batch, and the statement lifecycle across a batch and a later insert.
 *
 * A statement keeps its bindings from one execution to the next, so the row
 * a call inserts depends on the calls of the same kind before it. `Binds`
 * follows those bindings along a block: it starts empty, as the statements
 * prepare_statements! creates do, and each routed call binds its hash over
 * its kind's entry.
 */
module InserterProperties {
  import opened Schema
  import opened Store
  import opened RecordInserterSpec

  /** The bindings each kind's statement holds, as far as a block has run. */
  type Binds = map<Kind, Fields>

  function BoundOf(b: Binds, k: Kind): Fields {
    if k in b then b[k] else map[]
  }

  /** `b` agrees with the bindings of every open statement in `stmts`. */
  predicate Tracks(b: Binds, stmts: Statements) {
    forall k: Kind :: k in stmts && stmts[k].Open? ==> BoundOf(b, k) == stmts[k].bound
  }

  /** The bindings after call `c` has run: a routed request binds its hash over its kind's entry. */
  function AfterCall(b: Binds, c: Call): Binds {
    match c
    case RaiseError(_) => b
    case InsertRequest(request, _) =>
      match KindNamed(request.typ)
      case Some(k) => b[k := Rebind(BoundOf(b, k), request.fields)]
      case None => b
  }

  /** The row one call inserts into table `name` when it succeeds, with bindings `b` before it. */
  function CallRows(b: Binds, c: Call, name: string): seq<Row> {
    match c
    case RaiseError(_) => []
    case InsertRequest(request, _) =>
      match KindNamed(request.typ)
      case Some(k) => if TableName(k) == name then [Bind(k, Rebind(BoundOf(b, k), request.fields))] else []
      case None => []
  }

  /** The rows a block inserts into table `name`, in call order, starting from bindings `b`. */
  function RowsFor(b: Binds, block: seq<Call>, name: string): seq<Row>
    decreases |block|
  {
    if block == [] then [] else CallRows(b, block[0], name) + RowsFor(AfterCall(b, block[0]), block[1..], name)
  }

  /** Table `after` is table `before` with `rows` appended. */
  predicate RowsAppended(before: Table, after: Table, rows: seq<Row>) {
    after.columns == before.columns && after.rows == before.rows + rows
  }

  /** Tables `t` are tables `t0` with `block`'s rows, from bindings `b`, appended to each in call order. */
  predicate AppendedInCallOrder(t0: Tables, t: Tables, b: Binds, block: seq<Call>) {
    && t.Keys == t0.Keys
    && forall n :: n in t0 ==> RowsAppended(t0[n], t[n], RowsFor(b, block, n))
  }

  lemma RowsForOne(b: Binds, c: Call, n: string)
    ensures RowsFor(b, [c], n) == CallRows(b, c, n)
  {
    var one := [c];
    assert one[0] == c && one[1..] == [];
  }

  lemma RowsForSplit(b: Binds, block: seq<Call>, n: string)
    requires block != []
    ensures RowsFor(b, block, n) == RowsFor(b, [block[0]], n) + RowsFor(AfterCall(b, block[0]), block[1..], n)
  {
    RowsForOne(b, block[0], n);
  }

  /**
   * A routed insert that succeeds appends to its own table the row its
   * statement's bindings give, and the statement keeps those bindings; an
   * ignored request appends nothing and binds nothing.
   */
  lemma InsertAppendsItsRow(s: State, request: Record, close: bool, b: Binds)
    requires WellFormed(s.stmts) && s.stmts.Some? && Tracks(b, s.stmts.value)
    requires Insert(s, request, close).outcome.Done?
    ensures var i := Insert(s, request, close);
      && AppendedInCallOrder(s.tables, i.state.tables, b, [InsertRequest(request, close)])
      && Tracks(AfterCall(b, InsertRequest(request, close)), i.state.stmts.value)
  {
    var i := Insert(s, request, close);
    var c := InsertRequest(request, close);
    DoneInsert(s, request, close);
    AllInHasEveryKind(Closed);
    match KindNamed(request.typ)
    case None =>
      forall n | n in s.tables
        ensures RowsAppended(s.tables[n], i.state.tables[n], RowsFor(b, [c], n))
      {
        RowsForOne(b, c, n);
      }
    case Some(k) =>
      var bk := Rebind(BoundOf(b, k), request.fields);
      assert Bindings(s, k, request.fields) == bk;
      RoutedAppends(s.tables, i.state.tables, k, bk, b, c);
      TracksRebound(b, s.stmts.value, k, bk);
  }

  /** Binding kind `k`'s statement and its entry alike keeps `b` tracking the statements. */
  lemma TracksRebound(b: Binds, stmts: Statements, k: Kind, bk: Fields)
    requires Tracks(b, stmts)
    ensures Tracks(b[k := bk], stmts[k := Open(bk)])
  {
  }

  /** What an insert on prepared statements that does not raise leaves: the tables and statements after it. */
  lemma DoneInsert(s: State, request: Record, close: bool)
    requires WellFormed(s.stmts) && s.stmts.Some?
    requires Insert(s, request, close).outcome.Done?
    ensures var i := Insert(s, request, close);
      && (KindNamed(request.typ).None? ==>
        && i.state.tables == s.tables
        && (i.state.stmts == s.stmts || i.state.stmts == Some(AllIn(Closed))))
      && (KindNamed(request.typ).Some? ==>
        var k := KindNamed(request.typ).value;
        var bk := Bindings(s, k, request.fields);
        && AllOpen(s.stmts.value)
        && InsertRow(s.tables, k, bk).Ok? && i.state.tables == InsertRow(s.tables, k, bk).value
        && (i.state.stmts == Some(s.stmts.value[k := Open(bk)]) || i.state.stmts == Some(AllIn(Closed))))
  {
  }

  /** A routed call's successful INSERT appends its one row to its kind's table and nothing elsewhere. */
  lemma RoutedAppends(t0: Tables, t: Tables, k: Kind, bk: Fields, b: Binds, c: Call)
    requires c.InsertRequest? && KindNamed(c.request.typ) == Some(k)
    requires bk == Rebind(BoundOf(b, k), c.request.fields)
    requires InsertRow(t0, k, bk).Ok? && t == InsertRow(t0, k, bk).value
    ensures AppendedInCallOrder(t0, t, b, [c])
  {
    forall n | n in t0
      ensures RowsAppended(t0[n], t[n], RowsFor(b, [c], n))
    {
      RowsForOne(b, c, n);
    }
  }

  /** Appending a first call's rows and then the rest's is appending the whole block's. */
  lemma AppendedThenAppended(t0: Tables, t1: Tables, t2: Tables, b: Binds, block: seq<Call>)
    requires block != []
    requires AppendedInCallOrder(t0, t1, b, [block[0]])
    requires AppendedInCallOrder(t1, t2, AfterCall(b, block[0]), block[1..])
    ensures AppendedInCallOrder(t0, t2, b, block)
  {
    forall n | n in t0
      ensures RowsAppended(t0[n], t2[n], RowsFor(b, block, n))
    {
      RowsForSplit(b, block, n);
      var first, rest := RowsFor(b, [block[0]], n), RowsFor(AfterCall(b, block[0]), block[1..], n);
      assert RowsAppended(t0[n], t1[n], first);
      assert RowsAppended(t1[n], t2[n], rest);
      AppendedTwice(t0[n], t1[n], t2[n], first, rest);
    }
  }

  /** Appending `first` and then `rest` to a table is appending `first + rest`. */
  lemma AppendedTwice(before: Table, mid: Table, after: Table, first: seq<Row>, rest: seq<Row>)
    requires RowsAppended(before, mid, first) && RowsAppended(mid, after, rest)
    ensures RowsAppended(before, after, first + rest)
  {
    assert before.rows + first + rest == before.rows + (first + rest);
  }

  /**
   * A block that runs to its end on prepared statements whose bindings `b`
   * tracks has appended exactly its routed requests' rows, each to its own
   * table, in call order, each bound over what the calls before it left.
   */
  lemma {:induction false} BlockAppendsInCallOrder(s: State, block: seq<Call>, b: Binds)
    requires WellFormed(s.stmts) && s.stmts.Some? && Tracks(b, s.stmts.value)
    requires RunBlock(s, block).outcome.Done?
    ensures AppendedInCallOrder(s.tables, RunBlock(s, block).state.tables, b, block)
    decreases |block|
  {
    if block != [] {
      match block[0]
      case RaiseError(_) =>
      case InsertRequest(request, close) =>
        var i := Insert(s, request, close);
        InsertAppendsItsRow(s, request, close, b);
        BlockAppendsInCallOrder(i.state, block[1..], AfterCall(b, block[0]));
        AppendedThenAppended(s.tables, i.state.tables, RunBlock(s, block).state.tables, b, block);
    }
  }

  /**
   * A committed batch has kept every table and appended to it exactly the rows
   * its block inserted there, in call order, its statements starting with
   * nothing bound.
   */
  lemma BatchCommitsInCallOrder(s: State, block: seq<Call>)
    requires WellFormed(s.stmts) && s.snapshot.None?
    requires InsertBatch(s, block).failure.None?
    ensures AppendedInCallOrder(s.tables, InsertBatch(s, block).state.tables, map[], block)
  {
    var p := PrepareStatements(s.(snapshot := Some(s.tables)));
    BlockAppendsInCallOrder(p.state, block, map[]);
  }

  /** Under `AppendedInCallOrder`, one table's rows after the block. */
  lemma AppendedRowsOf(t0: Tables, t: Tables, b: Binds, block: seq<Call>, n: string)
    requires AppendedInCallOrder(t0, t, b, block) && n in t0
    ensures n in t && t[n].rows == t0[n].rows + RowsFor(b, block, n)
  {
    assert RowsAppended(t0[n], t[n], RowsFor(b, block, n));
  }

  /** After a committed batch, `count` reports the rows there were plus the rows the block inserted. */
  lemma CountAfterCommittedBatch(s: State, block: seq<Call>, typ: string)
    requires WellFormed(s.stmts) && s.snapshot.None?
    requires InsertBatch(s, block).failure.None?
    requires Count(s, typ).Ok?
    ensures var c := Count(InsertBatch(s, block).state, typ);
      c.Ok? && c.value == Count(s, typ).value + |RowsFor(map[], block, Lower(typ + "_requests"))|
  {
    var t := InsertBatch(s, block).state.tables;
    var n := Lower(typ + "_requests");
    BatchCommitsInCallOrder(s, block);
    AppendedRowsOf(s.tables, t, map[], block, n);
    assert |t[n].rows| == |s.tables[n].rows| + |RowsFor(map[], block, n)|;
  }

  /** `count` names its table without regard to case: two types that differ only in case count the same table. */
  lemma CountIgnoresCase(s: State, typ: string, typ': string)
    requires Lower(typ) == Lower(typ')
    ensures Count(s, typ).Ok? == Count(s, typ').Ok?
    ensures Count(s, typ).Ok? ==> Count(s, typ).value == Count(s, typ').value
  {
    LowerAppend(typ, "_requests");
    LowerAppend(typ', "_requests");
    RowCountIgnoresCase(s.tables, typ + "_requests", typ' + "_requests");
  }

  /**
   * A new inserter counts the rows a file's request table already holds,
   * whatever case the table's name was created with.
   */
  lemma CountFindsFileTable(existing: Tables, n: string, typ: string)
    requires CaseDistinct(existing) && n in existing
    requires Lower(typ + "_requests") == Lower(n)
    ensures Count(Initial(existing), typ) == Ok(|existing[n].rows|)
  {
  }

  /**
   * A new inserter prepares a kind's INSERT against a file's table of that
   * kind exactly when each column the statement names is declared by the
   * table under some case of its letters.
   */
  lemma FileColumnsMatchUpToCase(existing: Tables, n: string, k: Kind)
    requires CaseDistinct(existing) && n in existing && Lower(n) == TableName(k)
    ensures var cols := existing[n].columns;
      PrepareError(Initial(existing).tables, k).None? <==>
        forall c :: c in ColumnsOf(Parameters(k)) ==> exists j :: 0 <= j < |cols| && Lower(cols[j].name) == Lower(c)
  {
    var cols := existing[n].columns;
    assert Initial(existing).tables[TableName(k)].columns == FoldColumns(cols);
    ParameterColumnsFolded(k);
    forall c | c in ColumnsOf(Parameters(k))
      ensures HasColumn(FoldColumns(cols), c) <==> exists j :: 0 <= j < |cols| && Lower(cols[j].name) == Lower(c)
    {
      FoldedHasColumn(cols, c);
    }
  }

  /**
   * On a new inserter, an INSERT into a file's table of its kind passes the
   * NOT NULL checks exactly when every NOT NULL column, whatever case it was
   * declared with, gets a value.
   */
  lemma FileNotNullUpToCase(existing: Tables, n: string, k: Kind, f: Fields)
    requires CaseDistinct(existing) && n in existing && Lower(n) == TableName(k)
    ensures var cols := existing[n].columns;
      InsertRow(Initial(existing).tables, k, f).Ok? <==>
        forall i :: 0 <= i < |cols| && cols[i].notNull ==> Lookup(Bind(k, f), Lower(cols[i].name)) != Null
  {
    var cols := existing[n].columns;
    assert Initial(existing).tables[TableName(k)].columns == FoldColumns(cols);
  }

  /** An insert adds and drops no table, so the tables stay keyed by their folded names. */
  lemma InsertKeepsTableNames(s: State, request: Record, close: bool)
    requires WellFormed(s.stmts)
    ensures Insert(s, request, close).state.tables.Keys == s.tables.Keys
  {
  }

  /** A block adds and drops no table. */
  lemma {:induction false} RunBlockKeepsTableNames(s: State, block: seq<Call>)
    requires WellFormed(s.stmts)
    ensures RunBlock(s, block).state.tables.Keys == s.tables.Keys
    decreases |block|
  {
    if block != [] && block[0].InsertRequest? {
      var i := Insert(s, block[0].request, block[0].closeStatements);
      InsertKeepsTableNames(s, block[0].request, block[0].closeStatements);
      if i.outcome.Done? {
        RunBlockKeepsTableNames(i.state, block[1..]);
      }
    }
  }

  /**
   * A batch, committed or rolled back, ends with the tables it began with, so
   * a state reached from a new inserter keeps its tables under folded names
   * and `count` finds them whatever the case of the type.
   */
  lemma BatchKeepsTableNames(s: State, block: seq<Call>)
    requires WellFormed(s.stmts) && s.snapshot.None?
    ensures InsertBatch(s, block).state.tables.Keys == s.tables.Keys
    ensures FoldedNames(s.tables) ==> FoldedNames(InsertBatch(s, block).state.tables)
  {
    var p := PrepareStatements(s.(snapshot := Some(s.tables)));
    if p.outcome.Done? {
      RunBlockKeepsTableNames(p.state, block);
    }
  }

  /**
   * A committed batch leaves its statements closed but the hash in place, so
   * a later routed insert does not re-prepare: it raises on the closed
   * statement and inserts nothing, though it has already moved the tracker.
   */
  lemma InsertAfterCommittedBatchRaises(s: State, block: seq<Call>, request: Record, close: bool)
    requires WellFormed(s.stmts) && s.snapshot.None?
    requires InsertBatch(s, block).failure.None?
    requires KindNamed(request.typ).Some?
    ensures var after := InsertBatch(s, block).state;
      var i := Insert(after, request, close);
      && i.outcome == Raised(ClosedStatement)
      && i.state.tables == after.tables
      && i.state.stmts == Some(AllIn(Closed))
      && (KindNamed(request.typ) == Some(Started) ==> i.state.current == LineOf(request.fields))
  {
  }

  /** Every request table exists with the columns its CREATE TABLE gives it. */
  predicate DdlTables(t: Tables) {
    forall k: Kind :: TableName(k) in t && t[TableName(k)].columns == Ddl(k)
  }

  /** A new inserter on a database with empty request tables: no transaction, statements, open request or output. */
  predicate Fresh(s: State) {
    && s.snapshot.None? && s.stmts.None? && s.current.None? && s.output == []
    && DdlTables(s.tables)
    && forall k: Kind :: s.tables[TableName(k)].rows == []
  }

  /** The state in which a batch runs its block: transaction open, statements just prepared. */
  function Opened(s: State): State {
    s.(snapshot := Some(s.tables), stmts := Some(Prepared()))
  }

  /**
   * On a database whose request tables, where they already existed, have the
   * DDL's columns, preparing the three statements after table creation succeeds.
   */
  lemma PrepareSucceedsAfterCreateTables(t: Tables)
    requires forall k: Kind :: TableName(k) in t ==> t[TableName(k)].columns == Ddl(k)
    ensures DdlTables(CreateTables(t))
    ensures PrepareAllError(CreateTables(t)).None?
  {
    DdlTablesPrepare(CreateTables(t));
  }

  /** The three statements compile against tables the DDL created. */
  lemma DdlTablesPrepare(t: Tables)
    requires DdlTables(t)
    ensures PrepareAllError(t).None?
  {
    forall k: Kind ensures PrepareError(t, k).None? {
      StatementsMatchDdl(k);
    }
  }

  /** An inserter opened on a database that has none of the request tables is fresh. */
  lemma InitialIsFresh(existing: Tables)
    requires CaseDistinct(existing)
    requires forall n, k: Kind :: n in existing ==> Lower(n) != TableName(k)
    ensures Fresh(Initial(existing))
  {
  }

  /**
   * A batch whose statements prepare and whose block runs through on them,
   * leaving them open, closes the statements and commits what the block did.
   */
  lemma BatchRunsThrough(s: State, block: seq<Call>)
    requires WellFormed(s.stmts) && s.snapshot.None? && PrepareAllError(s.tables).None?
    requires RunBlock(Opened(s), block).outcome.Done? && StatementsOpen(RunBlock(Opened(s), block).state)
    ensures InsertBatch(s, block) ==
      BatchResult(RunBlock(Opened(s), block).state.(stmts := Some(AllIn(Closed)), snapshot := None), None)
  {
  }

  /**
   * A batch whose statements prepare but whose block raises prints the
   * failure and rolls the tables back.
   */
  lemma BatchFailsInBlock(s: State, block: seq<Call>)
    requires WellFormed(s.stmts) && s.snapshot.None? && PrepareAllError(s.tables).None?
    requires RunBlock(Opened(s), block).outcome.Raised?
    ensures var b := RunBlock(Opened(s), block);
      InsertBatch(s, block) == BatchResult(b.state.(output := b.state.output + [BatchFailed(b.outcome.error)],
        tables := s.tables, snapshot := None), Some(b.outcome.error))
  {
  }

  /** A batch committed onto empty request tables leaves in each exactly the block's rows for it. */
  lemma CommittedFromEmptyTables(s: State, block: seq<Call>)
    requires WellFormed(s.stmts) && s.snapshot.None?
    requires forall k: Kind :: TableName(k) in s.tables && s.tables[TableName(k)].rows == []
    requires InsertBatch(s, block).failure.None?
    ensures var t := InsertBatch(s, block).state.tables;
      && t.Keys == s.tables.Keys
      && forall k: Kind :: t[TableName(k)].rows == RowsFor(map[], block, TableName(k))
  {
    BatchCommitsInCallOrder(s, block);
    var t := InsertBatch(s, block).state.tables;
    forall k: Kind ensures t[TableName(k)].rows == RowsFor(map[], block, TableName(k)) {
      AppendedRowsOf(s.tables, t, map[], block, TableName(k));
    }
  }

  /** The first call of a block, when its insert does not raise, hands its state to the rest. */
  lemma RunBlockStep(s: State, request: Record, rest: seq<Call>)
    requires WellFormed(s.stmts)
    requires Insert(s, request, false).outcome.Done?
    ensures RunBlock(s, [InsertRequest(request, false)] + rest) == RunBlock(Insert(s, request, false).state, rest)
  {
    var block := [InsertRequest(request, false)] + rest;
    assert block[0] == InsertRequest(request, false) && block[1..] == rest;
  }

  /** Without an explicit close, an insert on prepared statements is its routing step. */
  lemma InsertOnPreparedIsRoute(s: State, request: Record)
    requires WellFormed(s.stmts) && s.stmts.Some?
    ensures Insert(s, request, false) == Route(s, request)
  {
  }

  /** A successful INSERT keeps every table's columns, so tables the DDL created stay so. */
  lemma InsertKeepsDdlTables(t: Tables, k: Kind, f: Fields)
    requires DdlTables(t) && InsertRow(t, k, f).Ok?
    ensures DdlTables(InsertRow(t, k, f).value)
  {
  }

  /** A hash that carries its kind's required fields still does once bound over earlier bindings. */
  lemma RequiredFieldsSurviveRebind(k: Kind, bound: Fields, f: Fields)
    requires HasRequiredFields(k, f)
    ensures HasRequiredFields(k, Rebind(bound, f))
  {
    var r := Rebind(bound, f);
    forall i | 0 <= i < |RequiredFields(k)| ensures Lookup(r, RequiredFields(k)[i]) != Null {
      var p := RequiredFields(k)[i];
      assert Lookup(f, p) != Null;
      assert p in f;
    }
  }

  /**
   * On open statements and tables the DDL created, a request whose
   * statement's bindings, once its hash is bound over them, carry its kind's
   * required fields is inserted, and the statements and tables stay fit for
   * the next request.
   */
  lemma CompleteRequestInsert(s: State, request: Record, k: Kind)
    requires s.stmts.Some? && AllOpen(s.stmts.value) && DdlTables(s.tables)
    requires KindNamed(request.typ) == Some(k)
    requires HasRequiredFields(k, Bindings(s, k, request.fields))
    ensures var i := Insert(s, request, false);
      && i.outcome.Done?
      && i.state.stmts == Some(s.stmts.value[k := Open(Bindings(s, k, request.fields))])
      && AllOpen(i.state.stmts.value)
      && DdlTables(i.state.tables)
  {
    var b := Bindings(s, k, request.fields);
    InsertOnPreparedIsRoute(s, request);
    NotNullHoldsIffRequiredFields(k, b);
    var r := Route(s, request);
    assert r.outcome.Done?;
    InsertKeepsDdlTables(s.tables, k, b);
  }

  /** Binding kind `j`'s statement leaves what any other kind's statement binds unchanged. */
  lemma BindingsKeptElsewhere(s: State, t: State, j: Kind, k: Kind, f: Fields)
    requires s.stmts.Some? && j != k
    requires t.stmts.Some? && j in t.stmts.value && t.stmts.value == s.stmts.value[j := t.stmts.value[j]]
    ensures Bindings(t, k, f) == Bindings(s, k, f)
  {
  }

  /** A block of two calls is its first call followed by the rest, and so is its tail. */
  lemma CallsSplit(c1: Call, c2: Call)
    ensures [c1, c2] == [c1] + [c2] && [c2] == [c2] + []
  {
  }

  lemma CallsSplit3(c1: Call, c2: Call, c3: Call)
    ensures [c1, c2, c3] == [c1] + [c2, c3]
  {
  }

  /** The same request as the first call of a block: the block goes on from the state it leaves. */
  lemma CompleteRequestInserts(s: State, request: Record, k: Kind, rest: seq<Call>) returns (next: State)
    requires s.stmts.Some? && AllOpen(s.stmts.value) && DdlTables(s.tables)
    requires KindNamed(request.typ) == Some(k)
    requires HasRequiredFields(k, Bindings(s, k, request.fields))
    ensures next.stmts == Some(s.stmts.value[k := Open(Bindings(s, k, request.fields))])
    ensures AllOpen(next.stmts.value) && next.snapshot == s.snapshot && DdlTables(next.tables)
    ensures RunBlock(s, [InsertRequest(request, false)] + rest) == RunBlock(next, rest)
    ensures k == Started ==>
      && next.current == LineOf(request.fields)
      && next.output == s.output + (if s.current.Some? then [UnclosedRequest(LineOf(request.fields), s.current.value)] else [])
    ensures k != Started ==> next.current.None? && next.output == s.output
  {
    CompleteRequestInsert(s, request, k);
    RunBlockStep(s, request, rest);
    next := Insert(s, request, false).state;
  }

  /** A block of two calls inserts the first call's rows and then the second's, bound over the first's. */
  lemma RowsForPair(b: Binds, c1: Call, c2: Call, n: string)
    ensures RowsFor(b, [c1, c2], n) == CallRows(b, c1, n) + CallRows(AfterCall(b, c1), c2, n)
  {
    assert [c1, c2][1..] == [c2];
    RowsForOne(AfterCall(b, c1), c2, n);
  }

  /** The rows a started call and a completed call put into each table, from statements with nothing bound. */
  lemma StartedThenCompletedRows(c1: Call, c2: Call, started: Fields, completed: Fields)
    requires c1 == InsertRequest(Record(Some("started"), started), false)
    requires c2 == InsertRequest(Record(Some("completed"), completed), false)
    ensures RowsFor(map[], [c1, c2], TableName(Started)) == [Bind(Started, started)]
    ensures RowsFor(map[], [c1, c2], TableName(Completed)) == [Bind(Completed, completed)]
    ensures RowsFor(map[], [c1, c2], TableName(Failed)) == []
  {
    assert KindNamed(c1.request.typ) == Some(Started) && KindNamed(c2.request.typ) == Some(Completed);
    var b1 := AfterCall(map[], c1);
    assert b1 == map[Started := started];
    assert BoundOf(b1, Completed) == map[];
    forall n ensures RowsFor(map[], [c1, c2], n) ==
      (if n == TableName(Started) then [Bind(Started, started)] else []) +
      (if n == TableName(Completed) then [Bind(Completed, completed)] else [])
    {
      RowsForPair(map[], c1, c2, n);
    }
  }

  /**
   * The block of a started call and a completed call, run on open statements
   * whose bindings, once each hash is bound over them, carry the required
   * fields: it runs through, warns only of a request left open before it, and
   * leaves none open.
   */
  lemma StartedThenCompletedRuns(s: State, started: Fields, completed: Fields)
    requires s.stmts.Some? && AllOpen(s.stmts.value) && DdlTables(s.tables)
    requires HasRequiredFields(Started, Bindings(s, Started, started))
    requires HasRequiredFields(Completed, Bindings(s, Completed, completed))
    ensures var b := RunBlock(s,
      [InsertRequest(Record(Some("started"), started), false), InsertRequest(Record(Some("completed"), completed), false)]);
      && b.outcome.Done? && StatementsOpen(b.state)
      && b.state.output == s.output + (if s.current.Some? then [UnclosedRequest(LineOf(started), s.current.value)] else [])
      && b.state.current.None?
  {
    var c1 := InsertRequest(Record(Some("started"), started), false);
    var c2 := InsertRequest(Record(Some("completed"), completed), false);
    CallsSplit(c1, c2);
    var s1 := CompleteRequestInserts(s, c1.request, Started, [c2]);
    BindingsKeptElsewhere(s, s1, Started, Completed, completed);
    CompletedRuns(s1, completed);
  }

  /** A completed call alone, on open statements whose bindings, once its hash is bound over them, carry its required fields. */
  lemma CompletedRuns(s: State, completed: Fields)
    requires s.stmts.Some? && AllOpen(s.stmts.value) && DdlTables(s.tables)
    requires HasRequiredFields(Completed, Bindings(s, Completed, completed))
    ensures var b := RunBlock(s, [InsertRequest(Record(Some("completed"), completed), false)]);
      && b.outcome.Done? && StatementsOpen(b.state)
      && b.state.output == s.output && b.state.current.None?
  {
    var c := InsertRequest(Record(Some("completed"), completed), false);
    assert [c] == [c] + [];
    var next := CompleteRequestInserts(s, c.request, Completed, []);
  }

  /**
   * A started request and then its completion, batched by a fresh inserter:
   * the batch commits exactly one row into each of their two tables, bound
   * from the hashes, none into the third, warns of nothing and leaves no
   * request open.
   */
  lemma StartedThenCompletedCommits(s: State, started: Fields, completed: Fields)
    requires Fresh(s)
    requires HasRequiredFields(Started, started) && HasRequiredFields(Completed, completed)
    ensures var r := InsertBatch(s,
      [InsertRequest(Record(Some("started"), started), false), InsertRequest(Record(Some("completed"), completed), false)]);
      && r.failure.None?
      && r.state.tables.Keys == s.tables.Keys
      && r.state.tables[TableName(Started)].rows == [Bind(Started, started)]
      && r.state.tables[TableName(Completed)].rows == [Bind(Completed, completed)]
      && r.state.tables[TableName(Failed)].rows == []
      && r.state.output == [] && r.state.current.None?
  {
    var c1 := InsertRequest(Record(Some("started"), started), false);
    var c2 := InsertRequest(Record(Some("completed"), completed), false);
    DdlTablesPrepare(s.tables);
    StartedThenCompletedRuns(Opened(s), started, completed);
    BatchRunsThrough(s, [c1, c2]);
    CommittedFromEmptyTables(s, [c1, c2]);
    StartedThenCompletedRows(c1, c2, started, completed);
  }

  /** A complete started request as the first call of a block on just-prepared statements. */
  lemma StartedOnPrepared(s: State, f: Fields, rest: seq<Call>) returns (next: State)
    requires s.stmts == Some(Prepared()) && DdlTables(s.tables) && s.current.None?
    requires HasRequiredFields(Started, f)
    ensures next.stmts == Some(Prepared()[Started := Open(f)]) && AllOpen(next.stmts.value) && DdlTables(next.tables)
    ensures next.current == Some(Lookup(f, "line")) && next.output == s.output
    ensures RunBlock(s, [InsertRequest(Record(Some("started"), f), false)] + rest) == RunBlock(next, rest)
  {
    assert LineOf(f) == Some(Lookup(f, "line")) by { assert Lookup(f, RequiredFields(Started)[0]) != Null; }
    assert Bindings(s, Started, f) == f;
    next := CompleteRequestInserts(s, Record(Some("started"), f), Started, rest);
  }

  /** The block of two started calls and a completed call, run on just-prepared statements with no request open. */
  lemma SecondStartRuns(s: State, first: Fields, second: Fields, completed: Fields)
    requires s.stmts == Some(Prepared()) && DdlTables(s.tables) && s.current.None?
    requires HasRequiredFields(Started, first) && HasRequiredFields(Started, second)
    requires HasRequiredFields(Completed, completed)
    ensures var b := RunBlock(s, [
        InsertRequest(Record(Some("started"), first), false),
        InsertRequest(Record(Some("started"), second), false),
        InsertRequest(Record(Some("completed"), completed), false)]);
      && b.outcome.Done? && StatementsOpen(b.state)
      && b.state.output == s.output + [UnclosedRequest(Some(Lookup(second, "line")), Lookup(first, "line"))]
      && b.state.current.None?
  {
    var c1 := InsertRequest(Record(Some("started"), first), false);
    var c2 := InsertRequest(Record(Some("started"), second), false);
    var c3 := InsertRequest(Record(Some("completed"), completed), false);
    var s1 := StartedOnPrepared(s, first, [c2, c3]);
    assert [c1, c2, c3] == [c1] + [c2, c3] by { CallsSplit3(c1, c2, c3); }
    RequiredFieldsSurviveRebind(Started, first, second);
    StartedThenCompletedRuns(s1, second, completed);
    assert LineOf(second) == Some(Lookup(second, "line")) by { assert Lookup(second, RequiredFields(Started)[0]) != Null; }
  }

  /**
   * Two starts before a completion: the second start warns that the first
   * request, named by its line, was never closed, and the completion closes
   * the second; the batch still commits.
   */
  lemma SecondStartWarnsOfUnclosed(s: State, first: Fields, second: Fields, completed: Fields)
    requires Fresh(s)
    requires HasRequiredFields(Started, first) && HasRequiredFields(Started, second)
    requires HasRequiredFields(Completed, completed)
    ensures var r := InsertBatch(s, [
        InsertRequest(Record(Some("started"), first), false),
        InsertRequest(Record(Some("started"), second), false),
        InsertRequest(Record(Some("completed"), completed), false)]);
      && r.failure.None?
      && r.state.output == [UnclosedRequest(Some(Lookup(second, "line")), Lookup(first, "line"))]
      && r.state.current.None?
  {
    DdlTablesPrepare(s.tables);
    SecondStartRuns(Opened(s), first, second, completed);
    BatchRunsThrough(s, [
      InsertRequest(Record(Some("started"), first), false),
      InsertRequest(Record(Some("started"), second), false),
      InsertRequest(Record(Some("completed"), completed), false)]);
  }

  /** Two started calls, run on just-prepared statements: the second binds its hash over the first's. */
  lemma StartedTwiceRuns(s: State, first: Fields, second: Fields)
    requires s.stmts == Some(Prepared()) && DdlTables(s.tables)
    requires HasRequiredFields(Started, first) && HasRequiredFields(Started, Rebind(first, second))
    ensures var b := RunBlock(s,
      [InsertRequest(Record(Some("started"), first), false), InsertRequest(Record(Some("started"), second), false)]);
      b.outcome.Done? && StatementsOpen(b.state)
  {
    var c1 := InsertRequest(Record(Some("started"), first), false);
    var c2 := InsertRequest(Record(Some("started"), second), false);
    CallsSplit(c1, c2);
    assert Bindings(s, Started, first) == first;
    var s1 := CompleteRequestInserts(s, c1.request, Started, [c2]);
    assert Bindings(s1, Started, second) == Rebind(first, second);
    var s2 := CompleteRequestInserts(s1, c2.request, Started, []);
  }

  /** The rows two started calls put into started_requests, from statements with nothing bound. */
  lemma StartedTwiceRows(c1: Call, c2: Call, first: Fields, second: Fields)
    requires c1 == InsertRequest(Record(Some("started"), first), false)
    requires c2 == InsertRequest(Record(Some("started"), second), false)
    ensures RowsFor(map[], [c1, c2], TableName(Started)) == [Bind(Started, first), Bind(Started, Rebind(first, second))]
  {
    assert KindNamed(c1.request.typ) == Some(Started) && KindNamed(c2.request.typ) == Some(Started);
    assert AfterCall(map[], c1) == map[Started := first];
    RowsForPair(map[], c1, c2, TableName(Started));
  }

  /**
   * A started hash without `:timestamp`, batched after one that has it: the
   * statement still holds the first timestamp, so the second INSERT does not
   * fail but stores the first request's timestamp in the second row.
   */
  lemma StartedInheritsTimestamp(s: State, first: Fields, second: Fields)
    requires Fresh(s)
    requires HasRequiredFields(Started, first)
    requires "timestamp" !in second && HasRequiredFields(Started, Rebind(first, second))
    ensures var r := InsertBatch(s, [
        InsertRequest(Record(Some("started"), first), false),
        InsertRequest(Record(Some("started"), second), false)]);
      && r.failure.None?
      && TableName(Started) in r.state.tables
      && r.state.tables[TableName(Started)].rows == [Bind(Started, first), Bind(Started, Rebind(first, second))]
    ensures Lookup(Bind(Started, Rebind(first, second)), "timestamp") == Lookup(first, "timestamp")
  {
    var c1 := InsertRequest(Record(Some("started"), first), false);
    var c2 := InsertRequest(Record(Some("started"), second), false);
    DdlTablesPrepare(s.tables);
    StartedTwiceRuns(Opened(s), first, second);
    BatchRunsThrough(s, [c1, c2]);
    CommittedFromEmptyTables(s, [c1, c2]);
    StartedTwiceRows(c1, c2, first, second);
    StartedBinds(Rebind(first, second));
  }

  /** Bindings that leave `:timestamp` unbound or nil fail the started INSERT on that NOT NULL column. */
  lemma MissingTimestampFails(t: Tables, b: Fields)
    requires DdlTables(t)
    requires Lookup(b, "line") != Null && Lookup(b, "timestamp") == Null
    ensures InsertRow(t, Started, b) == Err(NotNullViolation("started_requests", "timestamp"))
  {
    var row := Bind(Started, b);
    assert Lookup(row, "line") != Null by { BindRowAt(Parameters(Started), b, 0); }
    assert Lookup(row, "timestamp") == Null by { BindRowAt(Parameters(Started), b, 1); }
    var cols := Ddl(Started);
    assert NullViolation(cols, row) == NullViolation(cols[1..], row);
  }

  /**
   * On open statements, a started request whose hash, bound over the
   * statement's earlier bindings, leaves no timestamp moves the tracker,
   * keeps those bindings and then raises.
   */
  lemma StartedWithoutTimestampRaises(s: State, f: Fields)
    requires s.stmts.Some? && AllOpen(s.stmts.value) && DdlTables(s.tables) && s.current.None?
    requires Lookup(f, "line") != Null && Lookup(Bindings(s, Started, f), "timestamp") == Null
    ensures RunBlock(s, [InsertRequest(Record(Some("started"), f), false)]) ==
      Step(s.(current := Some(f["line"]), stmts := Some(s.stmts.value[Started := Open(Bindings(s, Started, f))])),
        Raised(NotNullViolation("started_requests", "timestamp")))
  {
    var request := Record(Some("started"), f);
    var b := Bindings(s, Started, f);
    MissingTimestampFails(s.tables, b);
    InsertOnPreparedIsRoute(s, request);
    var i := Insert(s, request, false);
    assert i.outcome == Raised(NotNullViolation("started_requests", "timestamp"));
    assert i.state == s.(current := Some(f["line"]), stmts := Some(s.stmts.value[Started := Open(b)]));
    var block := [InsertRequest(request, false)];
    assert block[0] == InsertRequest(request, false);
  }

  /**
   * A started request without a timestamp fails its INSERT: the batch is
   * rolled back and the failure printed, but the tracker keeps the line the
   * request set and the statements stay prepared and open, the started one
   * holding the failed request's hash.
   */
  lemma FailedBatchKeepsTracker(s: State, f: Fields)
    requires Fresh(s)
    requires Lookup(f, "line") != Null && Lookup(f, "timestamp") == Null
    ensures var r := InsertBatch(s, [InsertRequest(Record(Some("started"), f), false)]);
      && r.failure == Some(NotNullViolation("started_requests", "timestamp"))
      && r.state.tables == s.tables
      && r.state.current == Some(f["line"])
      && r.state.stmts == Some(Prepared()[Started := Open(f)])
      && r.state.output == [BatchFailed(NotNullViolation("started_requests", "timestamp"))]
  {
    DdlTablesPrepare(s.tables);
    assert Bindings(Opened(s), Started, f) == f;
    StartedWithoutTimestampRaises(Opened(s), f);
    BatchFailsInBlock(s, [InsertRequest(Record(Some("started"), f), false)]);
  }
}
