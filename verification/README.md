# RailsAnalyzer::RecordInserter in Dafny

`RailsAnalyzer::RecordInserter` (lib/rails_analyzer/record_inserter.rb) logs the
request events parsed from a Rails log into an SQLite database. Its parts are:

- three tables, `started_requests`, `failed_requests` and `completed_requests`,
  created if needed when the inserter is built;
- three prepared INSERT statements, kept in `@insert_statements`;
- a correlation tracker, `@current_request`, that holds the line of the request
  that has started and not yet finished;
- `insert_batch`, which runs a block of inserts inside one transaction and rolls
  it back, after printing the message, when anything raises.

This project models that class and the part of the database it relies on:

- **`Schema`** (schema.dfy): the request kinds, stored values, the three tables'
  columns and NOT NULL flags, and the column/parameter pairs of the three INSERT
  statements. It also defines how executing a statement binds a request hash
  over the values the statement already holds, how those bindings become a
  row, and what `CREATE TABLE IF NOT EXISTS` does to the set of tables.
- **`Store`** (store.dfy): the database handle, as class `Database`. Its fields
  are the tables and the snapshot of the open transaction. Its methods are
  transaction, commit, rollback, prepare, insert and count. Each is specified
  by a pure function on tables. Tables are keyed by their names folded to
  lower case, as SQLite matches table names without regard to case: opening a
  file folds the names of the tables it holds, whatever case they were created
  with, and every operation keeps the names as they are.
- **`RecordInserterSpec`** (session.dfy): the inserter's state as a value, with
  one function per operation: `Insert`, `Route`, `Track`, `Execute`,
  `RunBlock`, `Rescue`, `InsertBatch`, `Count`, `PrepareStatements` and
  `CloseStatements`. The state holds the tables, the snapshot,
  `@current_request`, `@insert_statements` (each statement open with the
  values bound to it, or closed) and what has been printed.
- **`RailsAnalyzer`** (record_inserter.dfy): class `RecordInserter`. Its fields
  are `database`, `currentRequest`, `insertStatements` and `output`. Each
  method is proved to change the fields exactly as a pure function says:
  the matching `RecordInserterSpec` function, or `Schema.CreateTables` for
  `create_tables_if_needed!`. The class invariant `Valid` keeps the statement
  hash well formed and every table keyed by its folded name. `insert` deletes `:type` from the
  caller's hash, so the caller's hash is an object too (`RequestHash`).
- **`InserterProperties`** (properties.dfy): properties that span several calls.
  - A committed batch appends, to each table, exactly the rows its block's
    routed requests bind, in call order. Each request's hash is bound over
    what the requests of the same kind before it in the batch left bound.
  - So a started request without `:timestamp` that follows a complete one
    in the same batch does not fail: its row takes the earlier timestamp.
  - A failed batch leaves every table as it was.
  - After a committed batch, `count` is the old count plus the rows the block
    inserted into that table. Types that differ only in letter case count the
    same table.
  - After a committed batch, the statements stay in the hash closed, so a later
    routed `insert` raises instead of preparing them again.
  - A fresh inserter runs start/complete and start/start/complete sequences to
    the end, and the second start warns about the first.
  - A request fails the batch when its bindings leave a NOT NULL field nil,
    after its hash is bound over what its statement held. On newly prepared
    statements, that is any request whose hash lacks the field. The batch is
    rolled back, but the tracker keeps the line the failed request set.

Behaviour of the sqlite3 binding that the model relies on:

- Preparing an INSERT fails if its table or one of its columns does not exist.
- Executing or closing a statement that is already closed raises.
- A NOT NULL column that is left NULL makes the INSERT raise.
- A column the INSERT does not name is NULL in the new row.
- Executing a prepared statement with a hash resets it and binds each key of
  the hash to the parameter of that name. Resetting keeps the values bound
  before. A parameter the hash does not name therefore keeps the value the
  previous execution of that statement gave it; on a newly prepared statement
  it is NULL.
- Table names in SQL are matched without regard to ASCII letter case, so
  `count("Started")` counts `started_requests`, and so does `count("started")`
  on a file whose table was created as `Started_requests`.
- Column names are matched without regard to ASCII letter case too: the
  INSERT's `line` is the column a file's table declared as `Line` or `LINE`,
  both when the statement is prepared and when its NOT NULL check runs.
- A database file never holds two tables whose names differ only in letter
  case, because SQLite refuses to create the second one.

## Model

| member | source | states |
|---|---|---|
| Schema.CreateTableIfNotExists | lib/rails_analyzer/record_inserter.rb:105-115 | An existing table, with its columns and rows, is kept as it is. A missing one is added empty with the declared columns. No other table changes. |
| Schema.CreateTables | lib/rails_analyzer/record_inserter.rb:103-139 | Afterwards the three request tables exist. Every table that existed before is unchanged. Each one that was missing has the DDL's columns and no rows. |
| Schema.CreateTablesIdempotent | lib/rails_analyzer/record_inserter.rb:103-139 | Running create_tables_if_needed! a second time changes nothing. |
| Schema.Ddl | lib/rails_analyzer/record_inserter.rb:105-138 | Each table's first declared column is `line`, and it is NOT NULL. |
| Schema.Parameters | lib/rails_analyzer/record_inserter.rb:83-93 | Each INSERT stores `:line` into `line` first. |
| Schema.NamesDistinct | lib/rails_analyzer/record_inserter.rb:83-138 | No CREATE TABLE declares a column twice, and no INSERT names a column or a parameter twice. |
| Schema.StatementsMatchDdl | lib/rails_analyzer/record_inserter.rb:83-93 | Every column that one of the three INSERT statements names is declared by its table's CREATE TABLE. |
| Schema.MissingColumn | lib/rails_analyzer/record_inserter.rb:83-93 | The result is None exactly when every column the statement names exists. Otherwise it is a named column that does not exist. |
| Schema.Bind | lib/rails_analyzer/record_inserter.rb:55 | The row an INSERT stores has exactly the columns the statement names. |
| Schema.Rebind | lib/rails_analyzer/record_inserter.rb:55 | After `execute(hash)`, a parameter holds the hash's value when the hash has that key, and otherwise the value it held before. On a newly prepared statement the bindings are exactly the hash. |
| Schema.BindRowAt | lib/rails_analyzer/record_inserter.rb:55 | Executing an INSERT stores under each named column the value bound to its named parameter, or NULL when nothing is bound to it. |
| Schema.NullViolation | lib/rails_analyzer/record_inserter.rb:106-136 | The result is None exactly when the row has a value for every NOT NULL column. Otherwise it names a NOT NULL column the row leaves NULL. |
| Schema.NullViolationByNames | lib/rails_analyzer/record_inserter.rb:106-136 | The NOT NULL checks pass exactly when every NOT NULL column name has a non-NULL value in the row. |
| Schema.NotNullColumnsAreRequired | lib/rails_analyzer/record_inserter.rb:106-136 | For each table, the NOT NULL columns are exactly that request kind's required keys, in table order. |
| Schema.RequiredFieldsBind | lib/rails_analyzer/record_inserter.rb:83-93 | Each statement binds every required column from the hash key of the same name. |
| Schema.NotNullHoldsIffRequiredFields | lib/rails_analyzer/record_inserter.rb:55 | An INSERT of a kind passes its table's NOT NULL constraints if and only if its bindings hold a non-nil value for each of that kind's required parameters. |
| Schema.ParameterColumnsFolded | lib/rails_analyzer/record_inserter.rb:83-93 | Every column the three INSERT statements name is written in lower case. |
| Schema.LowerFolds | lib/rails_analyzer/record_inserter.rb:75 | Folding a name to lower case twice is folding it once, and the three request table names are already folded. |
| Store.PrepareError | lib/rails_analyzer/record_inserter.rb:83-93 | Preparing a kind's INSERT succeeds exactly when its table exists and has every column the statement names. The handle's column names are folded, so that match is without regard to case (FoldedHasColumn). |
| Store.InsertRow | lib/rails_analyzer/record_inserter.rb:55 | Execution succeeds exactly when the table exists and the row the bindings give violates no NOT NULL column. On success, exactly that row is appended to that table, and every other table and every table's columns are unchanged. The NOT NULL columns are looked up by their folded names. |
| Store.RowCount | lib/rails_analyzer/record_inserter.rb:75 | On tables keyed by their folded names, as the handle keeps them: succeeds exactly when a table whose name equals the given one up to letter case exists, and returns its number of rows. Otherwise it raises "no such table" with the name as given. |
| Store.Folded | lib/rails_analyzer/record_inserter.rb:15 | The handle keys every table of the file by its folded name. |
| Store.FoldedKeepsTables | lib/rails_analyzer/record_inserter.rb:15 | Each table of the file is there under its folded name, with its column names folded, the same NOT NULL flags and the same rows, and there is no other table. |
| Store.FoldedHasColumn | lib/rails_analyzer/record_inserter.rb:83-93 | In a table whose column names are folded, a column is found by a name exactly when some declared column equals it up to letter case. |
| Store.RowCountIgnoresCase | lib/rails_analyzer/record_inserter.rb:75 | Two names that differ only in letter case count the same table, with the same result. |
| Store.Database.Open | lib/rails_analyzer/record_inserter.rb:15 | A newly opened handle holds the file's tables, each under its folded name, and has no open transaction. |
| Store.Database.CreateTableIfNotExists | lib/rails_analyzer/record_inserter.rb:105-115 | Changes the tables exactly as CREATE TABLE IF NOT EXISTS does, and leaves the transaction alone. |
| Store.Database.Transaction | lib/rails_analyzer/record_inserter.rb:29 | Begins a transaction: the current tables become the snapshot. |
| Store.Database.Commit | lib/rails_analyzer/record_inserter.rb:33 | Keeps the tables and ends the transaction. |
| Store.Database.Rollback | lib/rails_analyzer/record_inserter.rb:36 | Restores the tables to the snapshot and ends the transaction. |
| Store.Database.Prepare | lib/rails_analyzer/record_inserter.rb:83-93 | Fails with the same error as PrepareError, and changes nothing. |
| Store.Database.Insert | lib/rails_analyzer/record_inserter.rb:55 | Executes a kind's statement with its parameters bound as given. Changes the tables exactly as InsertRow says. A failed INSERT leaves them unchanged and reports the error. |
| Store.Database.CountRows | lib/rails_analyzer/record_inserter.rb:75 | Succeeds exactly when the table exists under the name folded to lower case, and then returns its row count. Otherwise it reports "no such table" with the name as given. Nothing changes. |
| RecordInserterSpec.KindNamed | lib/rails_analyzer/record_inserter.rb:48 | A `:type` selects a statement only when it is one of the hash's three keys. Nil and any other symbol select none. |
| RecordInserterSpec.Initial | lib/rails_analyzer/record_inserter.rb:14-18 | A new inserter: the three tables exist, every table of the file is kept with its rows and its column names folded, under its folded name (so a file's `Started_requests` is the started table, not a second one), every table is keyed by its folded name, and there is no transaction, no statement hash, no open request and no output. |
| RecordInserterSpec.PrepareAllError | lib/rails_analyzer/record_inserter.rb:81-95 | prepare_statements! succeeds exactly when each of the three statements compiles. |
| RecordInserterSpec.Prepared | lib/rails_analyzer/record_inserter.rb:82-94 | The hash prepare_statements! assigns has a statement for each of the three types, each open with nothing bound. |
| RecordInserterSpec.PrepareStatements | lib/rails_analyzer/record_inserter.rb:81-95 | Succeeds exactly when all three statements compile, and then replaces the statement hash with a newly prepared one and changes nothing else. Otherwise it raises the first compile error and changes nothing. |
| RecordInserterSpec.CloseStatements | lib/rails_analyzer/record_inserter.rb:98-100 | Raises exactly when the statements are already closed, and then changes nothing. Otherwise all three become closed, the hash stays in place, and nothing else changes. |
| RecordInserterSpec.Track | lib/rails_analyzer/record_inserter.rb:49-54 | A started request warns first when a request is still open, then makes its line the open one. A failed or completed request clears the open request silently. Tables, transaction and statements are untouched. |
| RecordInserterSpec.Execute | lib/rails_analyzer/record_inserter.rb:55 | A closed statement raises and changes nothing. An open one binds the hash over its old bindings and keeps the result, succeeds exactly when the INSERT with those bindings does, and then the tables are exactly that INSERT's. A failed INSERT changes no table. |
| RecordInserterSpec.Route | lib/rails_analyzer/record_inserter.rb:48-58 | **Unknown or missing type:** prints "Ignored unknown statement type" and touches nothing else. **Started:** warns when a request is still open, then makes its line the open one. **Failed or completed:** clears the open request silently. **Any routed request:** loses `:type`. On open statements, its statement binds the hash over its old bindings and keeps the result; the request succeeds exactly when the INSERT with those bindings succeeds, and then appends exactly that row. On closed statements it raises. A failure changes no table. |
| RecordInserterSpec.RouteAndClose | lib/rails_analyzer/record_inserter.rb:48-60 | Routing as above, then the statements are closed if asked. A successful close leaves them all closed. Closed statements make both a routed request and the close raise. |
| RecordInserterSpec.Insert | lib/rails_analyzer/record_inserter.rb:42-61 | **No statement hash:** insert prepares one and then closes it. If preparing fails, it raises and changes nothing. **Existing hash:** it is never cleared or prepared again, so closed statements raise. **Ignored request:** it raises only when asked to close statements that are already closed; in particular an ignored request with no statement hash prepares and closes the hash and succeeds. **Otherwise:** the routing facts of Route hold, bindings included; a failed INSERT raises exactly the INSERT's error, and an insert that raises changes no table. |
| RecordInserterSpec.RunBlock | lib/rails_analyzer/record_inserter.rb:31 | The block's calls run in order until the first one raises. The statement hash stays well formed, and the transaction is untouched. |
| RecordInserterSpec.Rescue | lib/rails_analyzer/record_inserter.rb:34-36 | Prints the error's message, restores every table to the snapshot and ends the transaction. The tracker and the statements are kept as they were. |
| RecordInserterSpec.InsertBatch | lib/rails_analyzer/record_inserter.rb:28-37 | The transaction always ends. A failure restores every table and prints its message last. A batch that commits leaves all three statements closed. |
| RecordInserterSpec.Count | lib/rails_analyzer/record_inserter.rb:74-76 | count(type) succeeds exactly when "<type>_requests", folded to lower case, names a table, and is then its row count. Otherwise it raises "no such table". |
| RailsAnalyzer.RecordInserter.constructor | lib/rails_analyzer/record_inserter.rb:14-18 | Opens the file, folding its table and column names, sets the statement hash to nil and creates the tables that are missing under any case. The result is exactly Initial(existing), and the class invariant holds. |
| RailsAnalyzer.RecordInserter.InsertBatchInto | lib/rails_analyzer/record_inserter.rb:66-70 | Returns a new inserter on a new handle whose state is the batch run on Initial(existing). |
| RailsAnalyzer.RecordInserter.InsertBatch | lib/rails_analyzer/record_inserter.rb:28-37 | Changes the fields and the database exactly as InsertBatch says. |
| RailsAnalyzer.RecordInserter.RunBlock | lib/rails_analyzer/record_inserter.rb:31 | Its loop runs the block's calls until one raises. The final state and outcome are RunBlock's. |
| RailsAnalyzer.RecordInserter.Insert | lib/rails_analyzer/record_inserter.rb:42-61 | The fields, the database, the caller's hash and the outcome are exactly those of Insert. |
| RailsAnalyzer.RecordInserter.Route | lib/rails_analyzer/record_inserter.rb:48-58 | The tracker, the output, the caller's hash and the database are exactly those of Route. |
| RailsAnalyzer.RecordInserter.Count | lib/rails_analyzer/record_inserter.rb:74-76 | Returns exactly what RecordInserterSpec.Count gives on the current state, whose tables are keyed by folded names, so the table name is matched without regard to case. Nothing changes. |
| RailsAnalyzer.RecordInserter.ExecuteStatement | lib/rails_analyzer/record_inserter.rb:55 | The fields, the database and the outcome are exactly Execute's: a closed statement raises; an open one binds the hash over its old bindings, keeps them, and runs the INSERT with them. |
| RailsAnalyzer.RecordInserter.PrepareStatements | lib/rails_analyzer/record_inserter.rb:81-95 | Prepares the statements in hash order. The hash is assigned, all open, only when all three compile. Otherwise the first error raises and the old hash is kept. |
| RailsAnalyzer.RecordInserter.ClosePreparedStatements | lib/rails_analyzer/record_inserter.rb:98-100 | Closes each statement in turn. Afterwards all are closed and the hash stays in place. If they were already closed, the first close raises. |
| RailsAnalyzer.RecordInserter.CreateTablesIfNeeded | lib/rails_analyzer/record_inserter.rb:103-139 | The database's tables become CreateTables of what they were. |
| RailsAnalyzer.RequestHash.constructor | lib/rails_analyzer/record_inserter.rb:42 | The caller's hash, an object that insert changes, holds the given request. |
| InserterProperties.InsertAppendsItsRow | lib/rails_analyzer/record_inserter.rb:55 | A successful insert on prepared statements appends to its own table the row its statement's bindings give (the hash bound over what the statement held) and nothing anywhere else. The statement then holds those bindings. An ignored request appends and binds nothing. |
| InserterProperties.BlockAppendsInCallOrder | lib/rails_analyzer/record_inserter.rb:31 | A block that runs to its end keeps every table's columns. It appends to each table exactly the rows its routed requests bind, in call order, each bound over what the earlier requests of its kind left bound. |
| InserterProperties.BatchCommitsInCallOrder | lib/rails_analyzer/record_inserter.rb:28-37 | A committed batch keeps every table and appends exactly its block's rows to each, in call order, starting from statements with nothing bound. |
| InserterProperties.CountAfterCommittedBatch | lib/rails_analyzer/record_inserter.rb:74-76 | After a committed batch, count(type) is the count before plus the number of the block's rows for "<type>_requests". |
| InserterProperties.CountIgnoresCase | lib/rails_analyzer/record_inserter.rb:74-76 | count(type) gives the same result for two types that differ only in letter case. |
| InserterProperties.FileColumnsMatchUpToCase | lib/rails_analyzer/record_inserter.rb:81-95 | A new inserter prepares a kind's INSERT against a file's table of that kind (named in any case) exactly when every column the statement names is declared by the table in some letter case. |
| InserterProperties.FileNotNullUpToCase | lib/rails_analyzer/record_inserter.rb:55 | On a new inserter, an INSERT into a file's table passes the NOT NULL checks exactly when every NOT NULL column, whatever case it was declared with, gets a non-NULL value from the row the bindings give. |
| InserterProperties.CountFindsFileTable | lib/rails_analyzer/record_inserter.rb:14-18 | A new inserter's count(type) is the number of rows of the file's table whose name equals "<type>_requests" up to letter case. |
| InserterProperties.InsertKeepsTableNames | lib/rails_analyzer/record_inserter.rb:42-61 | An insert, whatever its outcome, adds and drops no table. |
| InserterProperties.RunBlockKeepsTableNames | lib/rails_analyzer/record_inserter.rb:31 | A block, run until it ends or raises, adds and drops no table. |
| InserterProperties.BatchKeepsTableNames | lib/rails_analyzer/record_inserter.rb:28-37 | A batch, committed or rolled back, ends with the tables it began with, so tables keyed by folded names stay so and count keeps finding them. |
| InserterProperties.InsertAfterCommittedBatchRaises | lib/rails_analyzer/record_inserter.rb:42-61 | After a committed batch, a routed insert raises on the closed statement and inserts nothing. The statements are not prepared again, yet a started request has already moved the tracker. |
| InserterProperties.PrepareSucceedsAfterCreateTables | lib/rails_analyzer/record_inserter.rb:81-95 | If the request tables that already existed have the DDL's columns, then after table creation every statement prepares. |
| InserterProperties.DdlTablesPrepare | lib/rails_analyzer/record_inserter.rb:81-95 | The three statements compile against tables with the DDL's columns. |
| InserterProperties.InitialIsFresh | lib/rails_analyzer/record_inserter.rb:14-18 | An inserter on a file with no request table, under any case, starts with empty tables that have the DDL's columns. It has no transaction, no statements, no open request and no output. |
| InserterProperties.BatchRunsThrough | lib/rails_analyzer/record_inserter.rb:28-37 | Suppose the statements prepare and the block runs through with them still open. Then the batch closes them, commits, and keeps the block's state. |
| InserterProperties.BatchFailsInBlock | lib/rails_analyzer/record_inserter.rb:34-36 | When the block raises, the batch prints the error and rolls the tables back to before the batch. The tracker and statements are kept as the block left them. |
| InserterProperties.CommittedFromEmptyTables | lib/rails_analyzer/record_inserter.rb:28-37 | A batch committed onto empty request tables leaves in each table exactly the block's rows for it. |
| InserterProperties.RunBlockStep | lib/rails_analyzer/record_inserter.rb:31 | When a block's first insert succeeds, the block goes on from the state that insert leaves. |
| InserterProperties.InsertOnPreparedIsRoute | lib/rails_analyzer/record_inserter.rb:42-61 | With statements already present and no close requested, insert is just its routing step. |
| InserterProperties.InsertKeepsDdlTables | lib/rails_analyzer/record_inserter.rb:55 | A successful INSERT keeps every table's columns. |
| InserterProperties.RequiredFieldsSurviveRebind | lib/rails_analyzer/record_inserter.rb:55 | A hash that holds its kind's required values still does once bound over any earlier bindings. |
| InserterProperties.CompleteRequestInsert | lib/rails_analyzer/record_inserter.rb:48-55 | On open statements and DDL tables, a routed request whose bindings, after its hash is bound over the statement's, hold its kind's required values is inserted. Its statement keeps those bindings, all stay open, and the tables keep the DDL's columns. |
| InserterProperties.CompleteRequestInserts | lib/rails_analyzer/record_inserter.rb:31 | The same, as the first call of a block: the rest of the block runs from the resulting state, whose tracker and output follow the routing rules. |
| InserterProperties.StartedThenCompletedRuns | lib/rails_analyzer/record_inserter.rb:49-54 | A start followed by a completion, on open statements whose bindings then hold the required values, runs through. It warns only of a request left open before it, and leaves no request open. |
| InserterProperties.StartedThenCompletedCommits | lib/rails_analyzer/record_inserter.rb:28-37 | On a fresh inserter, that batch commits exactly the started row and the completed row, bound from their hashes, and nothing into failed_requests. |
| InserterProperties.SecondStartRuns | lib/rails_analyzer/record_inserter.rb:49-54 | Two starts and then a completion: the second start warns that the first start's line was never closed, and no request is left open. |
| InserterProperties.SecondStartWarnsOfUnclosed | lib/rails_analyzer/record_inserter.rb:50 | On a fresh inserter, that batch still commits, and its only output is that one warning. |
| InserterProperties.StartedTwiceRuns | lib/rails_analyzer/record_inserter.rb:48-55 | Two complete starts on newly prepared statements run through, the second bound over the first, and leave the statements open. |
| InserterProperties.StartedInheritsTimestamp | lib/rails_analyzer/record_inserter.rb:55 | On a fresh inserter, a batch of a complete start and then a start without `:timestamp` commits. started_requests then holds the first row and a second row bound over the first, whose timestamp is the first request's. |
| InserterProperties.MissingTimestampFails | lib/rails_analyzer/record_inserter.rb:108-109 | Started bindings with a line but no timestamp fail the INSERT on the NOT NULL `timestamp` column. |
| InserterProperties.StartedWithoutTimestampRaises | lib/rails_analyzer/record_inserter.rb:49-55 | A start whose hash, bound over the statement's old bindings, leaves no timestamp first makes its line the open request, keeps those bindings, and then raises. |
| InserterProperties.FailedBatchKeepsTracker | lib/rails_analyzer/record_inserter.rb:28-37 | A batch whose only request is such a start is rolled back and prints its failure. The tracker still holds the failed request's line. The statements stay prepared and open, the started one holding the failed hash. |

## Left out

- `calculate_db_durations!` (line 23) is not modelled. It updates a table named `completed_queries` that `create_tables_if_needed!` never creates, so against these tables it can only raise "no such table".
- Opening the database file is modelled by its contents. The constructor takes the tables the file holds. File I/O, locking and the on-disk format are not modelled.
- The SQL text is not modelled. Each statement is reduced to its table, its column/parameter pairs and the NOT NULL flags. Column types, type affinity and the autoincrement `id` column are not modelled.
- FLOAT and DATETIME values are opaque tokens. No floating-point or date arithmetic is modelled.
- `puts` and `warn` are modelled as messages appended to one output log. Their texts and the split between stdout and stderr are not modelled.
- The block passed to `insert_batch` is modelled as a sequence of calls. Each call is either an `insert` with a newly created hash or raising an exception of its own. A block that calls `insert_batch` again, calls other methods, or reuses one hash object across calls is not modelled.
- RecordInserterSpec.InsertBatch requires that no transaction is open. A nested `@database.transaction` would raise inside the `rescue`d region, and that is not modelled.
- RecordInserterSpec.CloseStatements closes the statements in the order started, failed, completed: the order of the hash literal on lines 82-94. The statement hash always holds all three statements, either all open or all closed.
- Store.Folded folds the names of a file's tables and of their columns, but leaves the rows already in the file keyed as they were stored. The inserter only counts those rows and never reads their values.
- Store.InsertRow ignores hash keys that are not statement parameters. The sqlite3 binding raises for an unknown named parameter, and `insert` passes the whole hash. The model does not capture that exception.
- RecordInserterSpec.Insert requires a well-formed statement hash. The `NoMethodError` Ruby raises when the hash is some other object cannot arise, because only `prepare_statements!` assigns it.
- Concurrency, and other processes writing to the same database file, are not modelled.
- RecordInserterSpec.Count reports "no such table" for every type whose table is missing. A type containing a double quote ends the quoted identifier early, so SQLite reports a syntax error or runs a different statement instead; SQL parsing is not modelled.
- Table names are folded to lower case for ASCII letters only. SQLite's own case-insensitive matching also covers only ASCII, so no other folding is modelled.
