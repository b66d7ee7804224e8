/**
 * The warehouse driver as the core sees it: `connect(**kwargs)`, a connection that hands out
 * cursors and can be closed, and cursors that execute one statement and report rows and a
 * description. What the warehouse answers is not computed here: each call is given the answer
 * as an input (`Warehouse`), so nothing is assumed about the engine beyond its interface.
 */
module Driver {

  import opened Wrappers

  /** A value as the driver reports it; float, date/time and decimal values pass through as `Opaque`. */
  datatype Value = Null | Str(s: string) | Int(i: int) | Bool(b: bool) | Opaque(repr: string)

  type Row = seq<Value>

  /** Settings read from the configuration file: keyword arguments for `connect`. */
  type Config = map<string, Value>

  /** One entry of a cursor's `description`; only the name (its first component) is used. */
  datatype ColumnDescription = ColumnDescription(name: string, details: seq<Value>)

  /** A statement as handed to `execute`: its text and its bound parameters. */
  datatype Statement = Statement(text: string, params: seq<Value>)

  /** What the warehouse does with an executed statement. */
  datatype Response =
    | Answer(rows: seq<Row>, description: Option<seq<ColumnDescription>>)
    | Refused(message: string)

  /**
   * How the warehouse behaves during one call of the core: whether a connection attempt made
   * in it is refused (with the driver's message), and its answer to the statement executed.
   */
  datatype Warehouse = Warehouse(loginError: Option<string>, answer: Response)

  datatype Error =
    | ConfigNotFound(message: string)  // the RuntimeError raised by get_db
    | ConnectFailed(message: string)   // raised by connect
    | QueryFailed(message: string)     // raised by execute
    | IndexError                       // row[0] on a row with no columns
    | DigitLimitExceeded               // the ValueError of str() on an integer too long to write

  class Connection {
    /** The keyword arguments `connect` was called with. */
    const kwargs: Config
    /** How many times `close` was called on this connection. */
    var closeCount: nat
    /** Every statement executed through a cursor of this connection, in order. */
    ghost var executed: seq<Statement>
    /** Cursors handed out and not yet closed. */
    ghost var openCursors: int

    constructor Open(kwargs: Config)
      ensures this.kwargs == kwargs && closeCount == 0 && executed == [] && openCursors == 0
    {
      this.kwargs := kwargs;
      closeCount := 0;
      executed := [];
      openCursors := 0;
    }

    method Close()
      modifies this`closeCount
      ensures closeCount == old(closeCount) + 1
    {
      closeCount := closeCount + 1;
    }

    /** `conn.cursor()`. */
    method Cursor() returns (cur: Cursor)
      modifies this`openCursors
      ensures fresh(cur) && cur.conn == this && cur.open
      ensures cur.rows == [] && cur.description == None
      ensures openCursors == old(openCursors) + 1
    {
      cur := new Cursor.Of(this);
      openCursors := openCursors + 1;
    }
  }

  /** `teradatasql.connect(**kwargs)`: a new connection, or the driver's error when the warehouse refuses. */
  method Connect(kwargs: Config, loginError: Option<string>) returns (r: Result<Connection, Error>)
    ensures loginError.Some? ==> r == Failure(ConnectFailed(loginError.value))
    ensures loginError.None? ==> r.Success? && fresh(r.value)
    ensures r.Success? ==> r.value.kwargs == kwargs && r.value.closeCount == 0
    ensures r.Success? ==> r.value.executed == [] && r.value.openCursors == 0
  {
    if loginError.Some? {
      r := Failure(ConnectFailed(loginError.value));
    } else {
      var c := new Connection.Open(kwargs);
      r := Success(c);
    }
  }

  class Cursor {
    const conn: Connection
    /** Rows of the last result set not yet fetched. */
    var rows: seq<Row>
    /** The description of the last result set; `None` before any result. */
    var description: Option<seq<ColumnDescription>>
    var open: bool

    constructor Of(conn: Connection)
      ensures this.conn == conn && open && rows == [] && description == None
    {
      this.conn := conn;
      rows := [];
      description := None;
      open := true;
    }

    /** `cur.execute(text, params)`; the warehouse's `answer` decides the outcome. */
    method Execute(text: string, params: seq<Value>, answer: Response) returns (e: Option<Error>)
      requires open
      modifies this`rows, this`description, conn`executed
      ensures conn.executed == old(conn.executed) + [Statement(text, params)]
      ensures answer.Refused? ==> e == Some(QueryFailed(answer.message))
      ensures answer.Refused? ==> rows == old(rows) && description == old(description)
      ensures answer.Answer? ==> e == None && rows == answer.rows && description == answer.description
    {
      conn.executed := conn.executed + [Statement(text, params)];
      match answer
      case Refused(message) =>
        e := Some(QueryFailed(message));
      case Answer(rs, d) =>
        rows, description := rs, d;
        e := None;
    }

    /** `cur.fetchall()`: every remaining row, in the order the warehouse sent them. */
    method FetchAll() returns (rs: seq<Row>)
      requires open
      modifies this`rows
      ensures rs == old(rows) && rows == []
    {
      rs := rows;
      rows := [];
    }

    /** Leaving the `with` block. */
    method Close()
      requires open
      modifies this`open, conn`openCursors
      ensures !open && conn.openCursors == old(conn.openCursors) - 1
    {
      open := false;
      conn.openCursors := conn.openCursors - 1;
    }
  }
}
