/**
 * RailsAnalyzer::RecordInserter: logs request events into the SQLite store.
 * Every method changes the inserter's fields (and the database's) exactly as
 * the corresponding function of RecordInserterSpec says.
 */
module RailsAnalyzer {
  import opened Schema
  import opened Store
  import opened RecordInserterSpec

  /** The caller's request hash, which `insert` changes by deleting `:type`. */
  class RequestHash {
    var record: Record

    constructor (r: Record)
      ensures record == r
    {
      record := r;
    }
  }

  class RecordInserter {
    const database: Database
    var currentRequest: Option<Value>
    var insertStatements: Option<Statements>
    /** What the inserter has written with puts and warn. */
    var output: seq<Message>

    ghost function State(): State
      reads this, database
    {
      RecordInserterSpec.State(database.tables, database.snapshot, currentRequest, insertStatements, output)
    }

    /** The statement hash is well formed, and every table is keyed by its folded name. */
    ghost predicate Valid()
      reads this, database
    {
      WellFormed(insertStatements) && FoldedNames(database.tables)
    }

    /** `RecordInserter.new(db_file)` on a file whose tables are `existing`. */
    constructor (existing: Tables)
      requires CaseDistinct(existing)
      ensures Valid() && fresh(database)
      ensures State() == Initial(existing)
    {
      database := new Database.Open(existing);
      insertStatements := None;
      currentRequest := None;
      output := [];
      new;
      ghost var fileTables := database.tables;
      CreateTablesIfNeeded();
      InitialCreatesTables(existing, fileTables);
    }

    /** `RecordInserter.insert_batch_into(db_file) { ... }`: a new inserter that has run one batch. */
    static method InsertBatchInto(existing: Tables, block: seq<Call>) returns (db: RecordInserter)
      requires CaseDistinct(existing)
      ensures fresh(db) && fresh(db.database) && db.Valid()
      ensures db.State() == RecordInserterSpec.InsertBatch(Initial(existing), block).state
    {
      db := new RecordInserter(existing);
      db.InsertBatch(block);
    }

    /** `insert_batch { |db| ... }`, with the block's calls given in order. */
    method InsertBatch(block: seq<Call>)
      requires Valid() && database.snapshot.None?
      modifies this, database
      ensures Valid()
      ensures State() == RecordInserterSpec.InsertBatch(old(State()), block).state
    {
      database.Transaction();
      var outcome := PrepareStatements();
      if outcome.Done? {
        outcome := RunBlock(block);
        if outcome.Done? {
          outcome := ClosePreparedStatements();
        }
      }
      if outcome.Raised? {
        output := output + [BatchFailed(outcome.error)];
        database.Rollback();
      } else {
        database.Commit();
      }
    }

    /** `block.call(self)`: the block's calls, in order, until one raises. */
    method RunBlock(block: seq<Call>) returns (outcome: Outcome)
      requires Valid()
      modifies this, database
      ensures Valid()
      ensures Step(State(), outcome) == RecordInserterSpec.RunBlock(old(State()), block)
    {
      var i := 0;
      while i < |block|
        invariant 0 <= i <= |block| && Valid()
        invariant RecordInserterSpec.RunBlock(old(State()), block) == RecordInserterSpec.RunBlock(State(), block[i..])
      {
        assert block[i..][0] == block[i] && block[i..][1..] == block[i + 1..];
        match block[i] {
          case RaiseError(m) =>
            return Raised(UserException(m));
          case InsertRequest(r, close) =>
            var request := new RequestHash(r);
            outcome := Insert(request, close);
            if outcome.Raised? {
              return;
            }
        }
        i := i + 1;
      }
      outcome := Done;
    }

    /** `insert(request, closeStatements)`. */
    method Insert(request: RequestHash, closeStatements: bool) returns (outcome: Outcome)
      requires Valid()
      modifies this, database, request
      ensures Valid()
      ensures var r := RecordInserterSpec.Insert(old(State()), old(request.record), closeStatements);
        State() == r.state && request.record == r.request && outcome == r.outcome
    {
      var close := closeStatements;
      if insertStatements.None? {
        outcome := PrepareStatements();
        if outcome.Raised? {
          return;
        }
        close := true;
      }
      outcome := Route(request);
      if outcome.Raised? {
        return;
      }
      outcome := Done;
      if close {
        outcome := ClosePreparedStatements();
      }
    }

    /** Lines 48-58: route by `:type`, update the tracker, delete `:type` and execute; or report the type unknown. */
    method Route(request: RequestHash) returns (outcome: Outcome)
      requires insertStatements.Some? && Valid()
      modifies this, database, request
      ensures Valid()
      ensures var r := RecordInserterSpec.Route(old(State()), old(request.record));
        State() == r.state && request.record == r.request && outcome == r.outcome
    {
      var kind := KindNamed(request.record.typ);
      if kind.Some? && kind.value in insertStatements.value {
        var k := kind.value;
        match k {
          case Started =>
            if currentRequest.Some? {
              output := output + [UnclosedRequest(LineOf(request.record.fields), currentRequest.value)];
            }
            currentRequest := LineOf(request.record.fields);
          case Failed =>
            currentRequest := None;
          case Completed =>
            currentRequest := None;
        }
        request.record := request.record.(typ := None);
        outcome := ExecuteStatement(k, request.record.fields);
      } else {
        output := output + [IgnoredUnknownType];
        outcome := Done;
      }
    }

    /** `count(type)`: the number of rows of "<type>_requests", matched case-insensitively; a missing table raises. */
    method Count(typ: string) returns (r: Result<nat>)
      ensures r == RecordInserterSpec.Count(State(), typ)
    {
      r := database.CountRows(typ + "_requests");
    }

    /** `@insert_statements[k].execute(fields)`: bind the hash over what the statement kept, then step it. */
    method ExecuteStatement(k: Kind, f: Fields) returns (outcome: Outcome)
      requires insertStatements.Some? && k in insertStatements.value
      modifies this, database
      ensures var e := Execute(old(State()), k, f); State() == e.state && outcome == e.outcome
    {
      var statement := insertStatements.value[k];
      if statement.Closed? {
        return Raised(ClosedStatement);
      }
      var bound := Rebind(statement.bound, f);
      insertStatements := Some(insertStatements.value[k := Open(bound)]);
      var e := database.Insert(k, bound);
      outcome := if e.Some? then Raised(e.value) else Done;
    }

    /** prepare_statements!: the three statements in hash order; the hash is assigned only if all compile. */
    method PrepareStatements() returns (outcome: Outcome)
      modifies this
      ensures var p := RecordInserterSpec.PrepareStatements(old(State())); State() == p.state && outcome == p.outcome
    {
      var e := database.Prepare(Started);
      if e.None? {
        e := database.Prepare(Failed);
        if e.None? {
          e := database.Prepare(Completed);
        }
      }
      if e.Some? {
        return Raised(e.value);
      }
      insertStatements := Some(Prepared());
      outcome := Done;
    }

    /** close_prepared_statements!: closes each statement of the hash in turn. */
    method ClosePreparedStatements() returns (outcome: Outcome)
      requires insertStatements.Some? && Valid()
      modifies this
      ensures Valid()
      ensures var c := CloseStatements(old(State())); State() == c.state && outcome == c.outcome
    {
      var statements := insertStatements.value;
      for i := 0 to |Kinds|
        invariant statements.Keys == old(insertStatements).value.Keys
        invariant forall j :: 0 <= j < i ==> statements[Kinds[j]] == Closed
        invariant forall j :: i <= j < |Kinds| ==> statements[Kinds[j]] == old(insertStatements).value[Kinds[j]]
        invariant i > 0 ==> AllOpen(old(insertStatements).value)
        invariant i == 0 ==> insertStatements == old(insertStatements) && statements == old(insertStatements).value
        invariant i > 0 ==> insertStatements == Some(statements)
        invariant unchanged(database) && currentRequest == old(currentRequest) && output == old(output)
      {
        if statements[Kinds[i]] == Closed {
          return Raised(ClosedStatement);
        }
        statements := statements[Kinds[i] := Closed];
        insertStatements := Some(statements);
      }
      assert Kinds[0] == Started && Kinds[1] == Failed && Kinds[2] == Completed;
      forall k | k in statements ensures statements[k] == Closed {
        match k
        case Started =>
        case Failed =>
        case Completed =>
      }
      AllInHasEveryKind(Closed);
      assert statements == AllIn(Closed);
      outcome := Done;
    }

    /** create_tables_if_needed!: the three CREATE TABLE IF NOT EXISTS statements. */
    method CreateTablesIfNeeded()
      modifies database
      ensures database.tables == CreateTables(old(database.tables))
      ensures database.snapshot == old(database.snapshot) && unchanged(this)
    {
      database.CreateTableIfNotExists(TableName(Started), Ddl(Started));
      database.CreateTableIfNotExists(TableName(Failed), Ddl(Failed));
      database.CreateTableIfNotExists(TableName(Completed), Ddl(Completed));
    }
  }
}
