/**
 * The four data-access operations of `schema.py`. Each obtains the scope's connection with
 * `get_db`, opens a cursor, executes one statement, fetches, shapes the result and leaves the
 * cursor closed on every path. `w` is how the warehouse behaves during the call.
 */
module Schema {

  import opened Wrappers
  import opened Driver
  import opened Db
  import opened SchemaSql
  import opened SchemaShape
  import opened Decimal

  /** The default of `limit` in `get_table_sample`. */
  const DefaultSampleLimit: int := 100

  /** The statements the connection had executed before this call, if it was already open. */
  ghost function Before(slot: Option<Connection>): seq<Statement>
    reads if slot.Some? then {slot.value} else {}
  {
    if slot.Some? then slot.value.executed else []
  }

  /**
   * `with conn.cursor() as cur:` around one `execute` and `fetchall`: the statement is recorded on
   * the connection, the cursor is closed again on both paths, and the result is the fetched rows
   * with the cursor's description, or the driver's error.
   */
  method RunStatement(conn: Connection, text: string, params: seq<Value>, answer: Response)
    returns (r: Result<(seq<Row>, Option<seq<ColumnDescription>>), Error>)
    modifies conn`executed, conn`openCursors
    ensures conn.executed == old(conn.executed) + [Statement(text, params)]
    ensures conn.openCursors == old(conn.openCursors)
    ensures answer.Refused? ==> r == Failure(QueryFailed(answer.message))
    ensures answer.Answer? ==> r == Success((answer.rows, answer.description))
  {
    var cur := conn.Cursor();
    var e := cur.Execute(text, params, answer);
    if e.Some? {
      cur.Close();
      return Failure(e.value);
    }
    var rows := cur.FetchAll();
    var description := cur.description;
    cur.Close();
    r := Success((rows, description));
  }

  /** `get_databases()`. */
  method GetDatabases(scope: Scope, w: Warehouse) returns (r: Result<seq<Value>, Error>, ghost conn: Result<Connection, Error>)
    requires scope.Valid()
    modifies scope, scope.Held()
    ensures scope.Valid() && scope.Acquired(w.loginError, conn)
    ensures conn.Failure? ==> r == Failure(conn.error)
    ensures conn.Success? ==>
              && conn.value.executed == old(Before(scope.slot)) + [Statement(DatabasesQuery, [])]
              && conn.value.openCursors == old(if scope.slot.Some? then scope.slot.value.openCursors else 0)
              && r == match w.answer
                      case Refused(m) => Failure(QueryFailed(m))
                      case Answer(rows, _) => FirstColumn(rows)
  {
    var acquired := scope.GetDb(w.loginError);
    conn := acquired;
    if acquired.Failure? {
      return Failure(acquired.error), conn;
    }
    var result := RunStatement(acquired.value, DatabasesQuery, [], w.answer);
    if result.Failure? {
      return Failure(result.error), conn;
    }
    r := FirstColumn(result.value.0);
  }

  /** `get_tables(database_name)`: the name is bound as the one parameter, never put in the text. */
  method GetTables(scope: Scope, databaseName: string, w: Warehouse)
    returns (r: Result<seq<Row>, Error>, ghost conn: Result<Connection, Error>)
    requires scope.Valid()
    modifies scope, scope.Held()
    ensures scope.Valid() && scope.Acquired(w.loginError, conn)
    ensures conn.Failure? ==> r == Failure(conn.error)
    ensures conn.Success? ==>
              && conn.value.executed == old(Before(scope.slot)) + [Statement(TablesQuery, [Str(databaseName)])]
              && conn.value.openCursors == old(if scope.slot.Some? then scope.slot.value.openCursors else 0)
              && r == match w.answer
                      case Refused(m) => Failure(QueryFailed(m))
                      case Answer(rows, _) => Success(rows)
  {
    var acquired := scope.GetDb(w.loginError);
    conn := acquired;
    if acquired.Failure? {
      return Failure(acquired.error), conn;
    }
    var result := RunStatement(acquired.value, TablesQuery, [Str(databaseName)], w.answer);
    if result.Failure? {
      return Failure(result.error), conn;
    }
    r := Success(result.value.0);
  }

  /**
   * `get_table_sample(database_name, table_name, limit=100, offset=0)`. The statement has no bound
   * parameters, and `offset` appears neither in it nor in the result. Writing a limit of more than
   * `MaxStrDigits` digits into the text raises before the connection is even asked for.
   */
  method GetTableSample(scope: Scope, databaseName: string, tableName: string, w: Warehouse,
                        limit: int := DefaultSampleLimit, offset: int := 0)
    returns (r: Result<Sample, Error>, ghost conn: Result<Connection, Error>)
    requires scope.Valid()
    modifies scope, scope.Held()
    ensures scope.Valid()
    ensures ExceedsStrDigits(limit) ==>
              && r == Failure(DigitLimitExceeded)
              && unchanged(scope) && unchanged(old(scope.Held()))
    ensures !ExceedsStrDigits(limit) ==> scope.Acquired(w.loginError, conn)
    ensures !ExceedsStrDigits(limit) && conn.Failure? ==> r == Failure(conn.error)
    ensures !ExceedsStrDigits(limit) && conn.Success? ==>
              && conn.value.executed == old(Before(scope.slot)) + [Statement(SampleQuery(databaseName, tableName, limit), [])]
              && conn.value.openCursors == old(if scope.slot.Some? then scope.slot.value.openCursors else 0)
              && r == match w.answer
                      case Refused(m) => Failure(QueryFailed(m))
                      case Answer(rows, d) => Success(Sample(ColumnNames(d), rows))
  {
    if ExceedsStrDigits(limit) {
      conn := Failure(DigitLimitExceeded);
      return Failure(DigitLimitExceeded), conn;
    }
    var text := SampleQuery(databaseName, tableName, limit);
    var acquired := scope.GetDb(w.loginError);
    conn := acquired;
    if acquired.Failure? {
      return Failure(acquired.error), conn;
    }
    var result := RunStatement(acquired.value, text, [], w.answer);
    if result.Failure? {
      return Failure(result.error), conn;
    }
    var (rows, description) := result.value;
    r := Success(Sample(ColumnNames(description), rows));
  }

  /**
   * A sample with the default arguments asks for 100 rows: on a scope whose connection is open,
   * it sends `SAMPLE 100` and nothing else.
   */
  method SampleWithDefaults(scope: Scope, databaseName: string, tableName: string, w: Warehouse)
    returns (r: Result<Sample, Error>)
    requires scope.Valid() && scope.slot.Some?
    modifies scope, scope.Held()
    ensures scope.slot == old(scope.slot)
    ensures scope.slot.value.executed
            == old(scope.slot.value.executed) + [Statement(SampleQuery(databaseName, tableName, 100), [])]
  {
    assert !ExceedsStrDigits(100);
    ghost var conn;
    r, conn := GetTableSample(scope, databaseName, tableName, w);
  }

  /**
   * `get_record(database_name, table_name, key_column, key_value)`. The text depends on the three
   * names only; `key_value` goes unchanged into the single bound parameter.
   */
  method GetRecord(scope: Scope, databaseName: string, tableName: string, keyColumn: string, keyValue: string, w: Warehouse)
    returns (r: Result<Record, Error>, ghost conn: Result<Connection, Error>)
    requires scope.Valid()
    modifies scope, scope.Held()
    ensures scope.Valid() && scope.Acquired(w.loginError, conn)
    ensures conn.Failure? ==> r == Failure(conn.error)
    ensures conn.Success? ==>
              && conn.value.executed
                 == old(Before(scope.slot)) + [Statement(RecordQuery(databaseName, tableName, keyColumn), [Str(keyValue)])]
              && conn.value.openCursors == old(if scope.slot.Some? then scope.slot.value.openCursors else 0)
              && r == match w.answer
                      case Refused(m) => Failure(QueryFailed(m))
                      case Answer(rows, d) => Success(Summarize(rows, d))
  {
    var text := RecordQuery(databaseName, tableName, keyColumn);
    var acquired := scope.GetDb(w.loginError);
    conn := acquired;
    if acquired.Failure? {
      return Failure(acquired.error), conn;
    }
    var result := RunStatement(acquired.value, text, [Str(keyValue)], w.answer);
    if result.Failure? {
      return Failure(result.error), conn;
    }
    var (rows, description) := result.value;
    var totalCount := |rows|;
    var firstRow := if rows != [] then Some(rows[0]) else None;
    r := Success(Record(ColumnNames(description), firstRow, totalCount));
  }

  /**
   * A request scope issuing two record lookups and then tearing down: one connection is opened
   * with the configuration, both statements go to it in order, and it is closed exactly once.
   */
  method TwoLookupsInOneScope(config: Config, db: string, table: string, column: string,
                              key1: string, key2: string, w1: Warehouse, w2: Warehouse)
    returns (first: Result<Record, Error>, second: Result<Record, Error>,
             kwargs: Config, ghost sent: seq<Statement>, closes: nat)
    requires config != map[]
    ensures w1.loginError.Some? ==> first == Failure(ConnectFailed(w1.loginError.value))
    ensures w1.loginError.None? ==>
              && kwargs == config && closes == 1
              && sent == [Statement(RecordQuery(db, table, column), [Str(key1)]),
                          Statement(RecordQuery(db, table, column), [Str(key2)])]
              && first == (match w1.answer
                           case Refused(m) => Failure(QueryFailed(m))
                           case Answer(rows, d) => Success(Summarize(rows, d)))
              && second == (match w2.answer
                            case Refused(m) => Failure(QueryFailed(m))
                            case Answer(rows, d) => Success(Summarize(rows, d)))
  {
    var scope := new Scope(Some(config));
    ghost var c1, c2;
    first, c1 := GetRecord(scope, db, table, column, key1, w1);
    second, c2 := GetRecord(scope, db, table, column, key2, w2);
    kwargs, sent, closes := map[], [], 0;
    if scope.slot.Some? {
      var c := scope.slot.value;
      scope.CloseDb();
      kwargs, sent, closes := c.kwargs, c.executed, c.closeCount;
    } else {
      scope.CloseDb();
    }
  }
}
