# skewer data-access layer in Dafny

skewer is a small service for browsing a Teradata warehouse: list databases, list the tables
of a database, sample rows from a table, and look up a record by one key column. This project
models its data-access layer, which lives in two files:

- `src/skewer/db.py` keeps one connection per request scope (Flask's `g`). `get_db` opens it
  on first use from the `TERADATA_CONFIG` settings and hands it out again afterwards.
  `close_db` pops it and closes it.
- `src/skewer/schema.py` holds the four operations. Each one builds a statement text, runs it
  on a cursor of the scope's connection and shapes the fetched rows and the cursor description
  into its return value.

## Structure

- `wrappers.dfy` (`Wrappers`): `Option` and `Result`. An absent slot is `None`; a raised
  exception is a `Failure`.
- `decimal.dfy` (`Decimal`): Python's `str` on an `int`, for the `SAMPLE {limit}` part of the
  sample text, with a parser that reads it back. It also has the interpreter's limit of 4300
  digits for that conversion: `str` raises `ValueError` on a longer integer.
- `driver.dfy` (`Driver`): the warehouse driver as the core uses it. `Connect`, a `Connection`
  class (keyword arguments, close count, ghost log of executed statements, open cursors) and a
  `Cursor` class (`Execute`, `FetchAll`, `description`, `Close`). The warehouse is not
  modelled. Its behaviour during one call is an input, `Warehouse(loginError, answer)`: whether
  a connection attempt is refused, and the rows plus description, or the error, that it gives
  for the one statement. Because each call gets its own input, nothing makes two samples of the
  same table agree.
- `db.dfy` (`Db`): the request scope as a `Scope` class. It has the configuration, the slot
  `g.db` as an `Option<Connection>`, a ghost history of opened connections and a ghost list of
  `connect` attempts. `Valid()` is the scope invariant: every connection was opened with the
  configuration verbatim, the slot holds the newest one and it is open, and every older one
  was closed exactly once.
- `schema_sql.dfy` (`SchemaSql`): the statement texts, built character for character as the
  source writes them. The triple-quoted texts keep their newlines and trailing blanks. Parsers
  read the names back out of a text.
- `schema_shape.dfy` (`SchemaShape`): result shaping. This covers the first-column flattening,
  the column names taken from the description, and the record summary.
- `schema.dfy` (`Schema`): the four operations as methods on a `Scope`. When `get_db` returns
  a connection (and, for the sample, the limit can be written), each is proved to send exactly
  one statement, with the stated text and parameters, to that connection, to return a value
  fixed by the warehouse's answer, and to leave no cursor open. When `get_db` fails, or the
  sample's limit is too long to write, nothing is sent and the error is returned. The shared
  `with conn.cursor() as cur:` block is one method, `RunStatement`.

## Model

| member | source | states |
|---|---|---|
| `Decimal.IntToString` | src/skewer/schema.py:64 | the decimal text of the limit is non-empty, starts with `-` exactly when the limit is negative, is digits otherwise, and has no leading zero: the only text starting with `0` is `0` itself, and no `-` is followed by `0` |
| `Decimal.NatToStringLength` | src/skewer/schema.py:64 | a natural number's decimal text is longer than k digits exactly when the number is at least 10^k |
| `Decimal.ExceedsStrDigitsBound` | src/skewer/schema.py:61-65 | the limit is too long to write exactly when its magnitude is at least 10^4300, the interpreter's default digit limit |
| `Decimal.IntToStringRoundTrip` | src/skewer/schema.py:64 | the limit as written into the text reads back as the same integer |
| `Decimal.IntToStringInjective` | src/skewer/schema.py:64 | different limits are written as different texts |
| `SchemaSql.Quote` | src/skewer/schema.py:55-56 | a quoted identifier is `"` + name + `"`, and the name inside is untouched, with no escaping |
| `SchemaSql.ReadQualifiedOf` | src/skewer/schema.py:55-63 | the qualified name `"<db>"."<table>"` reads back as both names, for quote-free names, whatever text follows it |
| `SchemaSql.QualifiedNameAmbiguous` | src/skewer/schema.py:55-63 | without escaping, `"a"."b"."c"` is the qualified name both of database `a"."b` with table `c` and of database `a` with table `b"."c` |
| `SchemaSql.DatabasesQueryPlaceholders` | src/skewer/schema.py:11-14 | the database catalog text has no `?`, which matches its execution with no parameters |
| `SchemaSql.TablesQueryPlaceholders` | src/skewer/schema.py:28-36 | the table catalog text, with its layout, has exactly one `?`, which matches the one bound database name |
| `SchemaSql.SampleQueryPlaceholders` | src/skewer/schema.py:61-72 | for names without `?`, the sample text has no placeholder, which matches its execution with no parameters |
| `SchemaSql.RecordQueryPlaceholders` | src/skewer/schema.py:98-102 | for names without `?`, the record text has exactly one placeholder, which matches the single bound key value |
| `SchemaSql.ReadQuotedOf` | src/skewer/schema.py:94-96 | a quote-free name can be read back from its quoted form whatever text follows it |
| `SchemaSql.SampleQueryRoundTrip` | src/skewer/schema.py:55-65 | the sample text is `SELECT * FROM "<db>"."<table>" SAMPLE <limit>` in the source's layout: for quote-free names, parsing it gives back exactly the database, table and limit |
| `SchemaSql.SampleQueryInjective` | src/skewer/schema.py:61-65 | for quote-free names, different (database, table, limit) give different sample texts |
| `SchemaSql.SampleQueryAmbiguous` | src/skewer/schema.py:55-56 | because quotes are not escaped, a database name containing `"."` produces the same text as a different database/table split |
| `SchemaSql.RecordQueryRoundTrip` | src/skewer/schema.py:94-98 | the record text is `SELECT * FROM "<db>"."<table>" WHERE "<col>" = ?`: for quote-free names, parsing it gives back exactly the three names |
| `SchemaSql.RecordQueryInjective` | src/skewer/schema.py:94-98 | for quote-free names, different (database, table, column) give different record texts |
| `SchemaSql.RecordQueryInjection` | src/skewer/schema.py:96-98 | a column name containing quotes puts its own condition text into the WHERE clause, ahead of the placeholder |
| `SchemaShape.FirstColumn` | src/skewer/schema.py:16 | the flattened list is as long as the rows and its i-th element is `rows[i][0]`, in driver order; it fails with `IndexError` exactly when some row is empty |
| `SchemaShape.DescriptionNames` | src/skewer/schema.py:104 | one name per description entry, its first component, in order |
| `SchemaShape.ColumnNames` | src/skewer/schema.py:75 | column names are the first components of the description entries, in order, and `[]` when there is no description |
| `SchemaShape.Summarize` | src/skewer/schema.py:103-109 | `total_count` is the number of rows; `first_row` is absent exactly when the count is 0, and otherwise it is `rows[0]` |
| `SchemaShape.DatabasesExample` | src/skewer/schema.py:11-16 | catalog rows `("HR",), ("SALES",)` give `["HR", "SALES"]` |
| `SchemaShape.MatchCountExample` | src/skewer/schema.py:106-107 | 0, 1 and 3 matches give counts 0, 1 and 3, and the first row is missing only for 0 |
| `Driver.Connect` | src/skewer/db.py:18 | connect returns a fresh connection holding the keyword arguments it was given, or the driver's error when the warehouse refuses |
| `Db.Settings` | src/skewer/db.py:7 | a missing `TERADATA_CONFIG` entry gives the empty settings; a present one is used unchanged |
| `Db.Scope.GetDb` | src/skewer/db.py:5-20 | with a filled slot: returns the stored connection and does not connect. With an empty or missing configuration: raises "Teradata configuration not found.", does not connect and leaves the slot empty. Otherwise: calls connect once with the configuration verbatim and stores and returns the result (on a refusal the slot stays empty) |
| `Db.Scope.CloseDb` | src/skewer/db.py:23-27 | empties the slot and closes the stored connection once, and changes nothing else about that connection; on an empty slot it changes nothing |
| `Db.Request` | src/skewer/db.py:5-27 | over any sequence of `get_db` calls followed by `close_db`: at most one connection opened, closed exactly once, and every successful call returns it. Calls fail until the first accepted connect and succeed after it, and connect is not called again |
| `Schema.RunStatement` | src/skewer/schema.py:13-16 | a `with` block around one `execute` and `fetchall` records the statement, leaves the number of open cursors as it was, and yields the fetched rows and description or the driver's error |
| `Schema.GetDatabases` | src/skewer/schema.py:5-16 | sends the fixed catalog text with no parameters and returns the flattened first column of the fetched rows, or the driver's error |
| `Schema.GetTables` | src/skewer/schema.py:19-37 | sends the fixed catalog text with `database_name` as the only bound parameter and returns the fetched rows unchanged |
| `Schema.GetTableSample` | src/skewer/schema.py:40-76 | `limit` defaults to 100 and `offset` to 0. A limit too long to write raises `ValueError` before the connection is asked for, and nothing changes. Otherwise it sends the sample text with no bound parameters and returns the fetched rows unchanged, with their column names. `offset` affects neither the text nor the result |
| `Schema.SampleWithDefaults` | src/skewer/schema.py:40-44 | with no `limit` given, an open connection receives exactly `SAMPLE 100` for the two names |
| `Schema.GetRecord` | src/skewer/schema.py:79-109 | sends the record text, which depends only on the three names, with `key_value` unchanged as the single bound parameter, and returns the summary of the fetched rows |
| `Schema.TwoLookupsInOneScope` | src/skewer/db.py:5-27 | two lookups in one scope share one connection opened with the configuration: both statements reach it in order and it is closed once |

## Left out

- Configuration loading (`src/skewer/config.py`): reading `~/.skewer.toml` is file I/O and a
  TOML library. The `Scope` is given the `TERADATA_CONFIG` value as an input, `None` when it is
  missing.
- Flask wiring (`src/skewer/app.py`, `src/skewer/__init__.py`, `init_app` and
  `teardown_appcontext`) and the browser script `static/js/main.js`. These are HTTP and UI
  plumbing. The app context and `g` are replaced by an explicit `Scope` object, and teardown is
  the call to `CloseDb` in `Db.Request`.
- The warehouse engine: ordering by `ORDER BY 1`, the row bound and randomness of `SAMPLE`,
  and everything done at connect and execute time. These are engine behaviour, so no theorem
  claims sorted catalog output or at most `limit` sampled rows.
- Errors that `conn.cursor()`, `fetchall()` and `close()` might raise are not modelled; only
  `connect` and `execute` can fail.
- Cursor descriptions keep only the column name; the other six DB-API fields are opaque values.
  Driver values that are floats, dates or decimals are opaque too.
- The `limit` of `get_table_sample` is modelled as an integer, as its annotation
  `limit: int = 100` declares. Python does not enforce the annotation and would format any object
  there.
- Schema.GetTableSample: the digit limit is fixed at the interpreter's default of 4300. The
  interpreter lets it be changed through `sys.set_int_max_str_digits` and
  `PYTHONINTMAXSTRDIGITS`, and neither is modelled. Nor is the message of the `ValueError`.
- Repairing identifier quoting: the source does no escaping, and the model keeps that. The injection
  risk is shown by `SampleQueryAmbiguous` and `RecordQueryInjection`, not repaired.

## Behaviour of the code worth knowing

- Names are wrapped in double quotes and nothing is escaped. A name that contains a quote
  changes how the text reads, as `SampleQueryAmbiguous` and `RecordQueryInjection` show.
- With an empty or missing configuration, `get_db` raises without calling connect.
- When connect is refused, the slot stays empty and the next `get_db` call tries again. For
  that reason `Db.Request` counts the attempts separately from the opened connections.
- `get_tables` returns the fetched rows as they are.
- `get_record` is annotated as returning a pair, but it returns
  `(columns, first_row, total_count)`. The model returns all three.
