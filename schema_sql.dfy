/**
 * The statement texts of `schema.py`. Catalog queries are constants; the sample and record
 * lookups interpolate database, table and column names, each wrapped in double quotes with no
 * escaping. Parsers read the names back out of a text, so that "the text determines the names"
 * becomes a round-trip; it holds for quote-free names and fails otherwise.
 */
module SchemaSql {

  import opened Wrappers
  import opened Decimal

  /** The catalog query of `get_databases`. */
  const DatabasesQuery: string := "SELECT DatabaseName " + "FROM DBC.DatabasesV " + "ORDER BY 1"

  /** The catalog query of `get_tables`: a triple-quoted literal, newlines and trailing blanks included. */
  const TablesQuery: string :=
    "\n" + TablesSelectLine + TablesFromLine + TablesWhereLine + TablesOrderLine + "    "

  const TablesSelectLine: string := TablesSelectHead + TablesSelectColumns
  const TablesSelectHead: string := "    SELECT TableName, "
  const TablesSelectColumns: string := "TableKind, CommentString \n"
  const TablesFromLine: string := "    FROM DBC.TablesV \n"
  const TablesWhereLine: string := TablesWhereHead + "?" + " \n"
  const TablesWhereHead: string := "    WHERE DatabaseName = "
  const TablesOrderLine: string := "    ORDER BY 1\n"

  const SampleHead: string := "\n    SELECT * \n    FROM "
  const SampleKeyword: string := " \n    SAMPLE "
  const SampleTail: string := "\n    "

  const RecordHead: string := "SELECT * FROM "
  const RecordWhere: string := " WHERE "
  const RecordTail: string := " = ?"

  predicate QuoteFree(name: string) {
    forall i :: 0 <= i < |name| ==> name[i] != '"'
  }

  /** `f'"{name}"'`: the name between two double quotes, its own characters untouched. */
  function Quote(name: string): (q: string)
    ensures |q| == |name| + 2 && q[0] == '"' && q[|q| - 1] == '"'
    ensures q[1..|q| - 1] == name
  {
    "\"" + name + "\""
  }

  /** `{safe_db}.{safe_table}`. */
  function QualifiedName(db: string, table: string): string {
    Quote(db) + "." + Quote(table)
  }

  /** The text `get_table_sample` executes. */
  function SampleQuery(db: string, table: string, limit: int): string {
    SampleHead + QualifiedName(db, table) + SampleKeyword + IntToString(limit) + SampleTail
  }

  /** The text `get_record` executes; the key value is not part of it. */
  function RecordQuery(db: string, table: string, column: string): string {
    RecordHead + QualifiedName(db, table) + RecordWhere + Quote(column) + RecordTail
  }

  datatype SampleTarget = SampleTarget(db: string, table: string, limit: int)
  datatype RecordTarget = RecordTarget(db: string, table: string, column: string)

  /** Splits `s` at its first double quote: the part before it, and the rest from that quote on. */
  function SplitAtQuote(s: string): (r: (string, string))
    ensures r.0 + r.1 == s
    ensures QuoteFree(r.0)
    ensures r.1 == [] || r.1[0] == '"'
  {
    if s == [] then ([], [])
    else if s[0] == '"' then ([], s)
    else
      var (before, after) := SplitAtQuote(s[1..]);
      assert [s[0]] + before + after == [s[0]] + s[1..] == s;
      ([s[0]] + before, after)
  }

  /** Reads a quoted identifier off the front of `s`: the name inside, and what follows its closing quote. */
  function ReadQuoted(s: string): Option<(string, string)> {
    if |s| > 0 && s[0] == '"' then
      var (name, rest) := SplitAtQuote(s[1..]);
      if rest == [] then None else Some((name, rest[1..]))
    else None
  }

  /** Reads `"db"."table"` off the front of `s`. */
  function ReadQualified(s: string): Option<(string, string, string)> {
    match ReadQuoted(s)
    case None => None
    case Some((db, r)) =>
      if |r| > 0 && r[0] == '.' then
        match ReadQuoted(r[1..])
        case None => None
        case Some((table, rest)) => Some((db, table, rest))
      else None
  }

  /** The names and the limit a sample text was built from, if it has the shape of one. */
  function ParseSampleQuery(text: string): Option<SampleTarget> {
    if !(SampleHead <= text) then None
    else
      match ReadQualified(text[|SampleHead|..])
      case None => None
      case Some((db, table, r)) =>
        match ParseSampleLimit(r)
        case None => None
        case Some(limit) => Some(SampleTarget(db, table, limit))
  }

  /** Reads `SAMPLE n` and the closing layout that follow the table name in a sample text. */
  function ParseSampleLimit(r: string): Option<int> {
    if !(SampleKeyword <= r) then None
    else
      var n := r[|SampleKeyword|..];
      if |n| < |SampleTail| || n[|n| - |SampleTail|..] != SampleTail then None
      else ParseInt(n[..|n| - |SampleTail|])
  }

  /** The names a record lookup text was built from, if it has the shape of one. */
  function ParseRecordQuery(text: string): Option<RecordTarget> {
    if !(RecordHead <= text) then None
    else
      match ReadQualified(text[|RecordHead|..])
      case None => None
      case Some((db, table, r)) =>
        if !(RecordWhere <= r) then None
        else
          match ReadQuoted(r[|RecordWhere|..])
          case None => None
          case Some((column, rest)) =>
            if rest == RecordTail then Some(RecordTarget(db, table, column)) else None
  }

  lemma {:induction false} SplitAtQuoteOf(name: string, rest: string)
    requires QuoteFree(name)
    requires rest == [] || rest[0] == '"'
    ensures SplitAtQuote(name + rest) == (name, rest)
  {
    if name == [] {
      assert name + rest == rest;
    } else {
      assert (name + rest)[0] == name[0] && name[0] != '"';
      assert (name + rest)[1..] == name[1..] + rest;
      SplitAtQuoteOf(name[1..], rest);
      assert [name[0]] + name[1..] == name;
    }
  }

  /** A quote-free name reads back from its quoted form; whatever follows is left untouched. */
  lemma ReadQuotedOf(name: string, rest: string)
    requires QuoteFree(name)
    ensures ReadQuoted(Quote(name) + rest) == Some((name, rest))
  {
    var s := Quote(name) + rest;
    assert s[1..] == name + ("\"" + rest);
    SplitAtQuoteOf(name, "\"" + rest);
  }

  lemma ReadQualifiedOf(db: string, table: string, rest: string)
    requires QuoteFree(db) && QuoteFree(table)
    ensures ReadQualified(QualifiedName(db, table) + rest) == Some((db, table, rest))
  {
    var after := Quote(table) + rest;
    var t := "." + after;
    assert QualifiedName(db, table) + rest == Quote(db) + t;
    ReadQuotedOf(db, t);
    assert t[1..] == after;
    ReadQuotedOf(table, rest);
  }

  /** For quote-free names the sample text gives back the names and the limit it was built from. */
  lemma SampleQueryRoundTrip(db: string, table: string, limit: int)
    requires QuoteFree(db) && QuoteFree(table)
    ensures ParseSampleQuery(SampleQuery(db, table, limit)) == Some(SampleTarget(db, table, limit))
  {
    var r := SampleKeyword + IntToString(limit) + SampleTail;
    var rest := QualifiedName(db, table) + r;
    Regroup(SampleHead, QualifiedName(db, table), SampleKeyword, IntToString(limit), SampleTail);
    AfterPrefix(SampleHead, rest);
    ReadQualifiedOf(db, table, r);
    ParseSampleLimitOf(limit);
  }

  /** A five-part concatenation, regrouped as its first part followed by the rest. */
  lemma Regroup(a: string, b: string, c: string, d: string, e: string)
    ensures a + b + c + d + e == a + (b + (c + d + e))
  {
  }

  /** A text starting with `head` has the rest after it. */
  lemma AfterPrefix(head: string, rest: string)
    ensures head <= head + rest && (head + rest)[|head|..] == rest
  {
  }

  /** The part after the table name gives back the limit written into it. */
  lemma ParseSampleLimitOf(limit: int)
    ensures ParseSampleLimit(SampleKeyword + IntToString(limit) + SampleTail) == Some(limit)
  {
    var digits := IntToString(limit);
    var r := SampleKeyword + digits + SampleTail;
    var n := r[|SampleKeyword|..];
    assert n == digits + SampleTail;
    assert n[|n| - |SampleTail|..] == SampleTail;
    assert n[..|n| - |SampleTail|] == digits;
    IntToStringRoundTrip(limit);
  }

  /** For quote-free names distinct calls give distinct sample texts. */
  lemma SampleQueryInjective(db: string, table: string, limit: int, db': string, table': string, limit': int)
    requires QuoteFree(db) && QuoteFree(table) && QuoteFree(db') && QuoteFree(table')
    requires SampleQuery(db, table, limit) == SampleQuery(db', table', limit')
    ensures db == db' && table == table' && limit == limit'
  {
    SampleQueryRoundTrip(db, table, limit);
    SampleQueryRoundTrip(db', table', limit');
  }

  /** For quote-free names the record text gives back the three names it was built from. */
  lemma RecordQueryRoundTrip(db: string, table: string, column: string)
    requires QuoteFree(db) && QuoteFree(table) && QuoteFree(column)
    ensures ParseRecordQuery(RecordQuery(db, table, column)) == Some(RecordTarget(db, table, column))
  {
    var r := RecordWhere + Quote(column) + RecordTail;
    var rest := QualifiedName(db, table) + r;
    Regroup(RecordHead, QualifiedName(db, table), RecordWhere, Quote(column), RecordTail);
    AfterPrefix(RecordHead, rest);
    ReadQualifiedOf(db, table, r);
    RecordConditionOf(column);
  }

  /** The condition part of a record text reads back its column name, with exactly the tail left over. */
  lemma RecordConditionOf(column: string)
    requires QuoteFree(column)
    ensures RecordWhere <= RecordWhere + Quote(column) + RecordTail
    ensures ReadQuoted((RecordWhere + Quote(column) + RecordTail)[|RecordWhere|..]) == Some((column, RecordTail))
  {
    var r := RecordWhere + Quote(column) + RecordTail;
    assert r[|RecordWhere|..] == Quote(column) + RecordTail;
    ReadQuotedOf(column, RecordTail);
  }

  lemma RecordQueryInjective(db: string, table: string, column: string, db': string, table': string, column': string)
    requires QuoteFree(db) && QuoteFree(table) && QuoteFree(column)
    requires QuoteFree(db') && QuoteFree(table') && QuoteFree(column')
    requires RecordQuery(db, table, column) == RecordQuery(db', table', column')
    ensures db == db' && table == table' && column == column'
  {
    RecordQueryRoundTrip(db, table, column);
    RecordQueryRoundTrip(db', table', column');
  }

  /**
   * Without escaping, a quote inside a name moves the boundary between database and table:
   * two different pairs of names produce the same sample text.
   */
  lemma SampleQueryAmbiguous(db: string, middle: string, table: string, limit: int)
    ensures SampleQuery(db + "\".\"" + middle, table, limit) == SampleQuery(db, middle + "\".\"" + table, limit)
    ensures db + "\".\"" + middle != db
  {
    QualifiedNameAmbiguous(db, middle, table);
  }

  /** The qualified name `"a"."b"."c"` reads as database `a"."b` or as table `b"."c`. */
  lemma QualifiedNameAmbiguous(db: string, middle: string, table: string)
    ensures QualifiedName(db + "\".\"" + middle, table) == QualifiedName(db, middle + "\".\"" + table)
  {
    var q, dot := "\"", ".";
    assert "\".\"" == q + dot + q;
    RegroupAmbiguous(q, dot, db, middle, table);
  }

  /** Both readings of `"a"."b"."c"` spell the same characters. */
  lemma RegroupAmbiguous(q: string, dot: string, db: string, middle: string, table: string)
    ensures q + (db + (q + dot + q) + middle) + q + dot + (q + table + q)
         == q + db + q + dot + (q + (middle + (q + dot + q) + table) + q)
  {
  }

  /** A column name carrying quotes injects its own condition ahead of the bound placeholder. */
  lemma RecordQueryInjection(db: string, table: string, left: string, condition: string, right: string)
    ensures RecordQuery(db, table, left + "\"" + condition + "\"" + right)
         == RecordHead + QualifiedName(db, table) + RecordWhere + Quote(left) + condition + Quote(right) + RecordTail
  {
  }

  /** How many `?` placeholders a text has: the number of parameters the driver will bind into it. */
  function Placeholders(text: string): nat {
    if text == [] then 0 else (if text[0] == '?' then 1 else 0) + Placeholders(text[1..])
  }

  lemma IntToStringHasNoPlaceholder(i: int)
    ensures '?' !in IntToString(i)
  {
    var s := IntToString(i);
    forall k | 0 <= k < |s| ensures s[k] != '?' {
      if k > 0 || i >= 0 {
        assert IsDigit(s[k]);
      }
    }
  }

  lemma {:induction false} PlaceholdersConcat(a: string, b: string)
    ensures Placeholders(a + b) == Placeholders(a) + Placeholders(b)
  {
    if a != [] {
      assert (a + b)[1..] == a[1..] + b;
      PlaceholdersConcat(a[1..], b);
    } else {
      assert a + b == b;
    }
  }

  lemma {:induction false} NoPlaceholder(s: string)
    requires '?' !in s
    ensures Placeholders(s) == 0
  {
    if s != [] {
      assert s[0] in s;
      NoPlaceholder(s[1..]);
    }
  }

  lemma QuoteHasNoPlaceholder(name: string)
    requires '?' !in name
    ensures Placeholders(Quote(name)) == 0
  {
    PlaceholdersConcat("\"" + name, "\"");
    PlaceholdersConcat("\"", name);
    NoPlaceholder(name);
    NoPlaceholder("\"");
  }

  lemma QualifiedNameHasNoPlaceholder(db: string, table: string)
    requires '?' !in db && '?' !in table
    ensures Placeholders(QualifiedName(db, table)) == 0
  {
    QuoteHasNoPlaceholder(db);
    QuoteHasNoPlaceholder(table);
    PlaceholdersConcat(Quote(db) + ".", Quote(table));
    PlaceholdersConcat(Quote(db), ".");
    NoPlaceholder(".");
  }

  /** The database catalog query has no placeholder, matching the empty parameter list it is sent with. */
  lemma DatabasesQueryPlaceholders()
    ensures Placeholders(DatabasesQuery) == 0
  {
    assert '?' !in "SELECT DatabaseName ";
    assert '?' !in "FROM DBC.DatabasesV ";
    assert '?' !in "ORDER BY 1";
    NoPlaceholder(DatabasesQuery);
  }

  lemma TablesSelectHeadPlaceholders()
    ensures Placeholders(TablesSelectHead) == 0
  {
    assert '?' !in TablesSelectHead;
    NoPlaceholder(TablesSelectHead);
  }

  lemma TablesSelectColumnsPlaceholders()
    ensures Placeholders(TablesSelectColumns) == 0
  {
    assert '?' !in TablesSelectColumns;
    NoPlaceholder(TablesSelectColumns);
  }

  lemma TablesSelectLinePlaceholders()
    ensures Placeholders(TablesSelectLine) == 0
  {
    TablesSelectHeadPlaceholders();
    TablesSelectColumnsPlaceholders();
    PlaceholdersConcat(TablesSelectHead, TablesSelectColumns);
  }

  lemma TablesFromLinePlaceholders()
    ensures Placeholders(TablesFromLine) == 0
  {
    assert '?' !in TablesFromLine;
    NoPlaceholder(TablesFromLine);
  }

  lemma TablesWhereHeadPlaceholders()
    ensures Placeholders(TablesWhereHead) == 0
  {
    assert '?' !in TablesWhereHead;
    NoPlaceholder(TablesWhereHead);
  }

  lemma OnePlaceholderBetween(a: string, b: string)
    requires '?' !in a && '?' !in b
    ensures Placeholders(a + "?" + b) == 1
  {
    PlaceholdersConcat(a + "?", b);
    PlaceholdersConcat(a, "?");
    NoPlaceholder(a);
    NoPlaceholder(b);
  }

  lemma TablesWhereLinePlaceholders()
    ensures Placeholders(TablesWhereLine) == 1
  {
    assert '?' !in TablesWhereHead;
    assert '?' !in " \n";
    OnePlaceholderBetween(TablesWhereHead, " \n");
  }

  lemma TablesOrderLinePlaceholders()
    ensures Placeholders(TablesOrderLine) == 0
  {
    assert '?' !in TablesOrderLine;
    NoPlaceholder(TablesOrderLine);
  }

  /** Placeholders add up over a six-part concatenation. */
  lemma PlaceholdersOfSix(a: string, b: string, c: string, d: string, e: string, f: string)
    ensures Placeholders(a + b + c + d + e + f)
         == Placeholders(a) + Placeholders(b) + Placeholders(c) + Placeholders(d) + Placeholders(e) + Placeholders(f)
  {
    PlaceholdersConcat(a, b);
    PlaceholdersConcat(a + b, c);
    PlaceholdersConcat(a + b + c, d);
    PlaceholdersConcat(a + b + c + d, e);
    PlaceholdersConcat(a + b + c + d + e, f);
  }

  lemma LeadPlaceholders()
    ensures Placeholders("\n") == 0 && Placeholders("    ") == 0
  {
    NoPlaceholder("\n");
    NoPlaceholder("    ");
  }

  /** The table catalog query has exactly one placeholder, for the one bound database name. */
  lemma TablesQueryPlaceholders()
    ensures Placeholders(TablesQuery) == 1
  {
    TablesSelectLinePlaceholders();
    TablesFromLinePlaceholders();
    TablesWhereLinePlaceholders();
    TablesOrderLinePlaceholders();
    LeadPlaceholders();
    PlaceholdersOfSix("\n", TablesSelectLine, TablesFromLine, TablesWhereLine, TablesOrderLine, "    ");
  }

  lemma SampleHeadPlaceholders()
    ensures Placeholders(SampleHead) == 0
  {
    assert '?' !in SampleHead;
    NoPlaceholder(SampleHead);
  }

  lemma SampleKeywordPlaceholders()
    ensures Placeholders(SampleKeyword) == 0
  {
    assert '?' !in SampleKeyword;
    NoPlaceholder(SampleKeyword);
  }

  lemma SampleTailPlaceholders()
    ensures Placeholders(SampleTail) == 0
  {
    assert '?' !in SampleTail;
    NoPlaceholder(SampleTail);
  }

  lemma RecordHeadPlaceholders()
    ensures Placeholders(RecordHead) == 0
  {
    assert '?' !in RecordHead;
    NoPlaceholder(RecordHead);
  }

  lemma RecordWherePlaceholders()
    ensures Placeholders(RecordWhere) == 0
  {
    assert '?' !in RecordWhere;
    NoPlaceholder(RecordWhere);
  }

  lemma RecordTailPlaceholders()
    ensures Placeholders(RecordTail) == 1
  {
    assert RecordTail == " = " + "?";
    assert '?' !in " = ";
    PlaceholdersConcat(" = ", "?");
  }

  /** Names without `?` leave the sample text with no placeholder, matching its empty parameter list. */
  lemma SampleQueryPlaceholders(db: string, table: string, limit: int)
    requires '?' !in db && '?' !in table
    ensures Placeholders(SampleQuery(db, table, limit)) == 0
  {
    var digits := IntToString(limit);
    IntToStringHasNoPlaceholder(limit);
    NoPlaceholder(digits);
    SampleHeadPlaceholders();
    SampleKeywordPlaceholders();
    SampleTailPlaceholders();
    QualifiedNameHasNoPlaceholder(db, table);
    var q := QualifiedName(db, table);
    PlaceholdersConcat(SampleHead + q + SampleKeyword + digits, SampleTail);
    PlaceholdersConcat(SampleHead + q + SampleKeyword, digits);
    PlaceholdersConcat(SampleHead + q, SampleKeyword);
    PlaceholdersConcat(SampleHead, q);
  }

  /** Names without `?` leave the record text with exactly one placeholder, for the bound key value. */
  lemma RecordQueryPlaceholders(db: string, table: string, column: string)
    requires '?' !in db && '?' !in table && '?' !in column
    ensures Placeholders(RecordQuery(db, table, column)) == 1
  {
    var q := QualifiedName(db, table);
    var c := Quote(column);
    QualifiedNameHasNoPlaceholder(db, table);
    QuoteHasNoPlaceholder(column);
    RecordHeadPlaceholders();
    RecordWherePlaceholders();
    RecordTailPlaceholders();
    PlaceholdersConcat(RecordHead + q + RecordWhere + c, RecordTail);
    PlaceholdersConcat(RecordHead + q + RecordWhere, c);
    PlaceholdersConcat(RecordHead + q, RecordWhere);
    PlaceholdersConcat(RecordHead, q);
  }
}
