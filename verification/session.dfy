/**
 * RecordInserter's state and operations as values: the database's tables and
 * transaction snapshot, the open request line (`@current_request`), the
 * statement hash (`@insert_statements`) and what the inserter has printed.
 * Each function gives the state after one operation; the class in
 * record_inserter.dfy is proved to change its fields exactly so.
 */
module RecordInserterSpec {
  import opened Schema
  import opened Store

  /**
   * A prepared statement is open until `close` finalizes it. An open one
   * keeps the values last bound to its parameters: executing resets it,
   * which does not clear them, and then binds only the keys of the new hash.
   */
  datatype StmtState = Open(bound: Fields) | Closed

  /** `@insert_statements`: kind to statement. */
  type Statements = map<Kind, StmtState>

  function AllIn(st: StmtState): Statements {
    map[Started := st, Failed := st, Completed := st]
  }

  /** Every statement of the hash is there and open. */
  predicate AllOpen(stmts: Statements) {
    forall k: Kind :: k in stmts && stmts[k].Open?
  }

  /** `AllIn(st)` has a statement for every kind, each in state `st`. */
  lemma AllInHasEveryKind(st: StmtState)
    ensures forall k: Kind :: k in AllIn(st) && AllIn(st)[k] == st
  {
    forall k: Kind ensures k in AllIn(st) && AllIn(st)[k] == st {
      match k
      case Started =>
      case Failed =>
      case Completed =>
    }
  }

  /** The hash prepare_statements! assigns: three open statements with nothing bound. */
  function Prepared(): (stmts: Statements)
    ensures forall k: Kind :: k in stmts && stmts[k] == Open(map[])
  {
    AllInHasEveryKind(Open(map[]));
    AllIn(Open(map[]))
  }

  /** The statement hash is nil, or holds all three statements, all open or all closed. */
  predicate WellFormed(stmts: Option<Statements>) {
    stmts.None? || AllOpen(stmts.value) || stmts.value == AllIn(Closed)
  }

  /** A request hash: its `:type` symbol, if any, and its other entries. */
  datatype Record = Record(typ: Option<string>, fields: Fields)

  /** The statement a `:type` symbol selects: the keys of the statement hash are exactly these three. */
  function KindNamed(typ: Option<string>): (k: Option<Kind>)
    ensures k.Some? ==> typ == Some(if k.value == Started then "started" else if k.value == Failed then "failed" else "completed")
    ensures k.None? ==> typ !in {Some("started"), Some("failed"), Some("completed")}
  {
    match typ
    case Some("started") => Some(Started)
    case Some("failed") => Some(Failed)
    case Some("completed") => Some(Completed)
    case _ => None
  }

  /** `request[:line]`, with nil as None. */
  function LineOf(f: Fields): Option<Value> {
    if Lookup(f, "line") == Null then None else Some(f["line"])
  }

  /** What the inserter writes to standard output and standard error. */
  datatype Message =
    | UnclosedRequest(line: Option<Value>, openedAt: Value)  // the warning of line 50
    | IgnoredUnknownType                                     // line 57
    | BatchFailed(error: Error)                              // `puts e.message`, line 35

  /** One thing the block given to insert_batch does: an insert, or raising an exception of its own. */
  datatype Call = InsertRequest(request: Record, closeStatements: bool) | RaiseError(message: string)

  datatype State = State(
    tables: Tables,
    snapshot: Option<Tables>,
    current: Option<Value>,
    stmts: Option<Statements>,
    output: seq<Message>)

  datatype Outcome = Done | Raised(error: Error)

  datatype Step = Step(state: State, outcome: Outcome)

  /** The state after an insert, the caller's hash after it, and whether it raised. */
  datatype InsertResult = InsertResult(state: State, request: Record, outcome: Outcome)

  /** The state after insert_batch, and the exception it printed and rolled back for, if any. */
  datatype BatchResult = BatchResult(state: State, failure: Option<Error>)

  /** The state `RecordInserter.new` leaves on a database file whose tables are `existing`. */
  function Initial(existing: Tables): (s: State)
    requires CaseDistinct(existing)
    ensures forall k: Kind :: TableName(k) in s.tables
    // Each table of the file is kept with its rows, under its folded name, whatever case it and its
    // columns were created with.
    ensures forall n :: n in existing ==> Lower(n) in s.tables && s.tables[Lower(n)] == FoldTable(existing[n])
    ensures FoldedNames(s.tables)
    ensures s.snapshot.None? && s.current.None? && s.stmts.None? && s.output == []
  {
    CreatedNamesFolded(Folded(existing));
    FileTablesKept(existing);
    State(CreateTables(Folded(existing)), None, None, None, [])
  }

  /** The request tables' names are folded, so creating them keeps every table under its folded name. */
  lemma CreatedNamesFolded(t: Tables)
    requires FoldedNames(t)
    ensures forall k: Kind :: TableName(k) in CreateTables(t)
    ensures FoldedNames(CreateTables(t))
  {
    forall k: Kind ensures TableName(k) in CreateTables(t) && Lower(TableName(k)) == TableName(k) {
      LowerFolds(TableName(k), k);
    }
  }

  /** A new inserter is the file's tables, as fileTables, with the request tables created. */
  lemma InitialCreatesTables(existing: Tables, fileTables: Tables)
    requires CaseDistinct(existing) && fileTables == Folded(existing)
    ensures Initial(existing) == State(CreateTables(fileTables), None, None, None, [])
    ensures FoldedNames(CreateTables(fileTables))
  {
  }

  /** Creating the request tables keeps each table of the file, under its folded name. */
  lemma FileTablesKept(existing: Tables)
    requires CaseDistinct(existing)
    ensures forall n :: n in existing ==>
      Lower(n) in CreateTables(Folded(existing)) && CreateTables(Folded(existing))[Lower(n)] == FoldTable(existing[n])
  {
    var t := Folded(existing);
    FoldedKeepsTables(existing);
    forall n | n in existing
      ensures Lower(n) in CreateTables(t) && CreateTables(t)[Lower(n)] == FoldTable(existing[n])
    {
      assert Lower(n) in t && t[Lower(n)] == FoldTable(existing[n]);
    }
  }

  /** Why preparing the three statements fails, if it does: the first failing one in hash order. */
  function PrepareAllError(t: Tables): (e: Option<Error>)
    ensures e.None? <==> forall k: Kind :: PrepareError(t, k).None?
  {
    if PrepareError(t, Started).Some? then PrepareError(t, Started)
    else if PrepareError(t, Failed).Some? then PrepareError(t, Failed)
    else PrepareError(t, Completed)
  }

  /** prepare_statements!: a fresh hash of three open statements, assigned only when all three compile. */
  function PrepareStatements(s: State): (r: Step)
    ensures r.outcome.Done? <==> PrepareAllError(s.tables).None?
    ensures r.outcome.Done? ==> r.state == s.(stmts := Some(Prepared()))
    ensures r.outcome.Raised? ==> r.state == s && r.outcome.error == PrepareAllError(s.tables).value
  {
    match PrepareAllError(s.tables)
    case Some(e) => Step(s, Raised(e))
    case None => Step(s.(stmts := Some(Prepared())), Done)
  }

  /**
   * close_prepared_statements!: closes each statement in turn; closing one
   * that is already closed raises, and the hash itself is kept.
   */
  function CloseStatements(s: State): (r: Step)
    requires s.stmts.Some? && WellFormed(s.stmts)
    ensures r.outcome.Raised? <==> s.stmts.value == AllIn(Closed)
    ensures r.outcome.Raised? ==> r == Step(s, Raised(ClosedStatement))
    ensures r.outcome.Done? ==> r.state == s.(stmts := Some(AllIn(Closed)))
  {
    if s.stmts.value[Started].Closed? then Step(s, Raised(ClosedStatement))
    else Step(s.(stmts := Some(AllIn(Closed))), Done)
  }

  /** The correlation tracker's update for a routed request of kind `k` (lines 49-54). */
  function Track(s: State, k: Kind, f: Fields): (r: State)
    ensures r.tables == s.tables && r.snapshot == s.snapshot && r.stmts == s.stmts
    ensures k == Started ==>
      && r.current == LineOf(f)
      && r.output == s.output + (if s.current.Some? then [UnclosedRequest(LineOf(f), s.current.value)] else [])
    ensures k != Started ==> r.current.None? && r.output == s.output
  {
    match k
    case Started =>
      var warning := if s.current.Some? then [UnclosedRequest(LineOf(f), s.current.value)] else [];
      s.(output := s.output + warning, current := LineOf(f))
    case Failed => s.(current := None)
    case Completed => s.(current := None)
  }

  /**
   * The bindings kind `k`'s statement holds before `insert` executes it:
   * those of the open statement, or none when insert prepares a fresh hash.
   */
  function BoundFor(s: State, k: Kind): Fields {
    if s.stmts.Some? && k in s.stmts.value && s.stmts.value[k].Open? then s.stmts.value[k].bound else map[]
  }

  /** The values kind `k`'s statement binds when `insert` executes it with hash `f`. */
  function Bindings(s: State, k: Kind, f: Fields): Fields {
    Rebind(BoundFor(s, k), f)
  }

  /** The statement hash `insert` executes with: the one it holds, or the one it prepares. */
  function StatementsFor(s: State): Statements {
    if s.stmts.Some? then s.stmts.value else Prepared()
  }

  /**
   * `statement.execute(request)`: a closed statement raises. An open one
   * binds the hash's keys over what it kept, and runs the INSERT with the
   * result; it keeps those bindings whether or not the INSERT succeeds.
   */
  function Execute(s: State, k: Kind, f: Fields): (r: Step)
    requires s.stmts.Some? && k in s.stmts.value
    ensures s.stmts.value[k].Closed? ==> r == Step(s, Raised(ClosedStatement))
    ensures s.stmts.value[k].Open? ==>
      var b := Rebind(s.stmts.value[k].bound, f);
      && r.state == s.(stmts := Some(s.stmts.value[k := Open(b)]), tables := r.state.tables)
      && (r.outcome.Done? <==> InsertRow(s.tables, k, b).Ok?)
      && (r.outcome.Done? ==> r.state.tables == InsertRow(s.tables, k, b).value)
      && (r.outcome.Raised? ==> r.state.tables == s.tables && r.outcome.error == InsertRow(s.tables, k, b).error)
  {
    match s.stmts.value[k]
    case Closed => Step(s, Raised(ClosedStatement))
    case Open(bound) =>
      var b := Rebind(bound, f);
      var s1 := s.(stmts := Some(s.stmts.value[k := Open(b)]));
      match InsertRow(s.tables, k, b)
      case Ok(t) => Step(s1.(tables := t), Done)
      case Err(e) => Step(s1, Raised(e))
  }

  /** Statements exist, or preparing them on demand succeeds. */
  predicate Ready(s: State) {
    s.stmts.Some? || PrepareAllError(s.tables).None?
  }

  /** The statements `insert` executes with are open: just prepared, or prepared earlier and not closed since. */
  predicate StatementsOpen(s: State) {
    s.stmts.None? || AllOpen(s.stmts.value)
  }

  /**
   * Lines 48-58: route the request by its `:type` to a statement, update the
   * tracker, drop `:type` from the hash and execute; or print that the type is
   * unknown.
   */
  function Route(s: State, request: Record): (r: InsertResult)
    requires s.stmts.Some? && WellFormed(s.stmts)
    ensures WellFormed(r.state.stmts) && r.state.stmts.Some? && r.state.snapshot == s.snapshot
    ensures r.outcome.Raised? ==> r.state.tables == s.tables
    // A missing or unknown type: no row, tracker untouched, hash untouched, one message.
    ensures KindNamed(request.typ).None? ==>
      r == InsertResult(s.(output := s.output + [IgnoredUnknownType]), request, Done)
    // A started request opens its line, warning first when a request was still open.
    ensures KindNamed(request.typ) == Some(Started) ==>
      && r.state.current == LineOf(request.fields)
      && r.state.output == s.output + (if s.current.Some? then [UnclosedRequest(LineOf(request.fields), s.current.value)] else [])
    // A failed or completed request closes the open line, open or not, silently.
    ensures KindNamed(request.typ) in {Some(Failed), Some(Completed)} ==>
      r.state.current == None && r.state.output == s.output
    // A routed request loses its :type key, whatever happens next.
    ensures KindNamed(request.typ).Some? ==> r.request == request.(typ := None)
    // On open statements, the selected one keeps the hash bound over its old bindings; it
    // succeeds exactly when the INSERT with those bindings does, and then appends exactly that row.
    ensures KindNamed(request.typ).Some? && AllOpen(s.stmts.value) ==>
      var k := KindNamed(request.typ).value;
      var b := Bindings(s, k, request.fields);
      && r.state.stmts == Some(s.stmts.value[k := Open(b)])
      && (r.outcome.Done? <==> InsertRow(s.tables, k, b).Ok?)
      && (r.outcome.Done? ==> r.state.tables == InsertRow(s.tables, k, b).value)
      && (r.outcome.Raised? ==> r.outcome.error == InsertRow(s.tables, k, b).error)
    // Closed statements stay closed, and a routed request raises on them.
    ensures s.stmts.value == AllIn(Closed) ==> r.state.stmts == s.stmts
    ensures KindNamed(request.typ).Some? && s.stmts.value == AllIn(Closed) ==> r.outcome == Raised(ClosedStatement)
  {
    match KindNamed(request.typ)
    case None => InsertResult(s.(output := s.output + [IgnoredUnknownType]), request, Done)
    case Some(k) =>
      var rest := request.(typ := None);
      var e := Execute(Track(s, k, request.fields), k, rest.fields);
      InsertResult(e.state, rest, e.outcome)
  }

  /** Lines 48-60 of insert, once the statements exist: route, then close them if asked to. */
  function RouteAndClose(s: State, request: Record, close: bool): (r: InsertResult)
    requires s.stmts.Some? && WellFormed(s.stmts)
    ensures WellFormed(r.state.stmts) && r.state.snapshot == s.snapshot && r.state.stmts.Some?
    ensures close && r.outcome.Done? ==> r.state.stmts == Some(AllIn(Closed))
    ensures r.outcome.Raised? ==> r.state.tables == s.tables
    ensures KindNamed(request.typ).None? ==>
      && r.request == request
      && r.state.tables == s.tables
      && r.state.current == s.current
      && r.state.output == s.output + [IgnoredUnknownType]
      && (!close ==> r.state.stmts == s.stmts)
    ensures KindNamed(request.typ) == Some(Started) ==>
      && r.state.current == LineOf(request.fields)
      && r.state.output == s.output + (if s.current.Some? then [UnclosedRequest(LineOf(request.fields), s.current.value)] else [])
    ensures KindNamed(request.typ) in {Some(Failed), Some(Completed)} ==>
      r.state.current == None && r.state.output == s.output
    ensures KindNamed(request.typ).Some? ==> r.request == request.(typ := None)
    ensures KindNamed(request.typ).Some? && AllOpen(s.stmts.value) ==>
      var k := KindNamed(request.typ).value;
      var b := Bindings(s, k, request.fields);
      && (r.outcome.Done? <==> InsertRow(s.tables, k, b).Ok?)
      && (r.outcome.Done? ==> r.state.tables == InsertRow(s.tables, k, b).value)
      && (r.outcome.Raised? ==> r.outcome.error == InsertRow(s.tables, k, b).error)
      && (!close || r.outcome.Raised? ==> r.state.stmts == Some(s.stmts.value[k := Open(b)]))
    ensures s.stmts.value == AllIn(Closed) ==> r.state.stmts == s.stmts
    ensures s.stmts.value == AllIn(Closed) && (KindNamed(request.typ).Some? || close) ==>
      r.outcome == Raised(ClosedStatement)
  {
    var routed := Route(s, request);
    if routed.outcome.Raised? || !close then routed
    else
      var c := CloseStatements(routed.state);
      InsertResult(c.state, routed.request, c.outcome)
  }

  /** `insert(request, closeStatements)`. */
  function Insert(s: State, request: Record, closeStatements: bool): (r: InsertResult)
    requires WellFormed(s.stmts)
    ensures WellFormed(r.state.stmts) && r.state.snapshot == s.snapshot
    // The statement hash is never cleared.
    ensures s.stmts.Some? ==> r.state.stmts.Some?
    // With no statements, insert prepares them and then closes them, whatever closeStatements says.
    ensures (s.stmts.None? || closeStatements) && r.outcome.Done? ==> r.state.stmts == Some(AllIn(Closed))
    // A failed on-demand prepare raises and changes nothing.
    ensures !Ready(s) ==> r == InsertResult(s, request, Raised(PrepareAllError(s.tables).value))
    // An insert that raises leaves every table as it was.
    ensures r.outcome.Raised? ==> r.state.tables == s.tables
    // A missing or unknown type: no row, tracker untouched, hash untouched, one message.
    ensures Ready(s) && KindNamed(request.typ).None? ==>
      && r.request == request
      && r.state.tables == s.tables
      && r.state.current == s.current
      && r.state.output == s.output + [IgnoredUnknownType]
      && (s.stmts.Some? && !closeStatements ==> r.state.stmts == s.stmts)
    // An ignored request raises only when it is asked to close statements that are already closed.
    ensures Ready(s) && KindNamed(request.typ).None? ==>
      (r.outcome.Done? <==> !(s.stmts == Some(AllIn(Closed)) && closeStatements))
    // A started request opens its line, warning first when a request was still open.
    ensures Ready(s) && KindNamed(request.typ) == Some(Started) ==>
      && r.state.current == LineOf(request.fields)
      && r.state.output == s.output + (if s.current.Some? then [UnclosedRequest(LineOf(request.fields), s.current.value)] else [])
    // A failed or completed request closes the open line, open or not, silently.
    ensures Ready(s) && KindNamed(request.typ) in {Some(Failed), Some(Completed)} ==>
      r.state.current == None && r.state.output == s.output
    // A routed request loses its :type key, whatever happens next.
    ensures Ready(s) && KindNamed(request.typ).Some? ==> r.request == request.(typ := None)
    // With open statements, a routed request runs its INSERT with the hash bound over the statement's
    // old bindings: it succeeds exactly when that INSERT does, appending exactly that row, and the
    // statement keeps those bindings unless the hash is then closed.
    ensures Ready(s) && KindNamed(request.typ).Some? && StatementsOpen(s) ==>
      var k := KindNamed(request.typ).value;
      var b := Bindings(s, k, request.fields);
      && (r.outcome.Done? <==> InsertRow(s.tables, k, b).Ok?)
      && (r.outcome.Done? ==> r.state.tables == InsertRow(s.tables, k, b).value)
      && (r.outcome.Raised? ==> r.outcome.error == InsertRow(s.tables, k, b).error)
      && (r.outcome.Raised? || (s.stmts.Some? && !closeStatements) ==>
        r.state.stmts == Some(StatementsFor(s)[k := Open(b)]))
    // Closed statements are not re-prepared: they stay closed, and executing or closing them raises.
    ensures s.stmts == Some(AllIn(Closed)) ==> r.state.stmts == s.stmts
    ensures s.stmts == Some(AllIn(Closed)) && (KindNamed(request.typ).Some? || closeStatements) ==>
      r.outcome == Raised(ClosedStatement)
  {
    if s.stmts.Some? then RouteAndClose(s, request, closeStatements)
    else
      var prepared := PrepareStatements(s);
      if prepared.outcome.Raised? then InsertResult(s, request, prepared.outcome)
      else RouteAndClose(prepared.state, request, true)
  }

  /** The block's calls, run in order until the first one that raises. */
  function RunBlock(s: State, block: seq<Call>): (r: Step)
    requires WellFormed(s.stmts)
    ensures WellFormed(r.state.stmts) && r.state.snapshot == s.snapshot
    ensures s.stmts.Some? ==> r.state.stmts.Some?
    decreases |block|
  {
    if block == [] then Step(s, Done)
    else match block[0]
      case RaiseError(m) => Step(s, Raised(UserException(m)))
      case InsertRequest(request, close) =>
        var i := Insert(s, request, close);
        if i.outcome.Raised? then Step(i.state, i.outcome)
        else RunBlock(i.state, block[1..])
  }

  /** The rescue clause: print the message, roll the transaction back, raise nothing. */
  function Rescue(s: State, e: Error): (r: BatchResult)
    requires s.snapshot.Some?
    ensures r.failure == Some(e) && r.state.tables == s.snapshot.value && r.state.snapshot.None?
    ensures r.state.output == s.output + [BatchFailed(e)]
    ensures r.state.current == s.current && r.state.stmts == s.stmts
  {
    BatchResult(s.(output := s.output + [BatchFailed(e)], tables := s.snapshot.value, snapshot := None), Some(e))
  }

  /**
   * insert_batch: transaction, prepare, the block, close, commit; any
   * exception on the way is printed and rolled back, so the tables are then
   * as they were before the batch.
   */
  function InsertBatch(s: State, block: seq<Call>): (r: BatchResult)
    requires WellFormed(s.stmts) && s.snapshot.None?
    ensures WellFormed(r.state.stmts) && r.state.snapshot.None?
    ensures r.failure.Some? ==> r.state.tables == s.tables
    ensures r.failure.Some? ==> |r.state.output| > 0 && r.state.output[|r.state.output| - 1] == BatchFailed(r.failure.value)
    ensures r.failure.None? ==> r.state.stmts == Some(AllIn(Closed))
  {
    var s0 := s.(snapshot := Some(s.tables));
    var p := PrepareStatements(s0);
    if p.outcome.Raised? then Rescue(p.state, p.outcome.error)
    else
      var b := RunBlock(p.state, block);
      if b.outcome.Raised? then Rescue(b.state, b.outcome.error)
      else
        var c := CloseStatements(b.state);
        if c.outcome.Raised? then Rescue(c.state, c.outcome.error)
        else BatchResult(c.state.(snapshot := None), None)
  }

  /** `count(type)`: the number of rows of "<type>_requests", whatever the case of its letters. */
  function Count(s: State, typ: string): (r: Result<nat>)
    ensures r.Ok? <==> Lower(typ + "_requests") in s.tables
    ensures r.Ok? ==> r.value == |s.tables[Lower(typ + "_requests")].rows|
    ensures r.Err? ==> r.error == NoSuchTable(typ + "_requests")
  {
    RowCount(s.tables, typ + "_requests")
  }
}
