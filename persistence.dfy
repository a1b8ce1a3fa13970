/** The single-key persistence layer: the SQL text each query class builds,
    the connection life cycle, and how each `execute()` turns the driver's
    answer into its return value.

    The sqlite driver is not modelled. Each `Execute` method receives the
    driver's answer to the statements it issues as a `Reply` parameter, and
    records the statements it hands to the cursor in `DataBaseQuery.issued`. */
module PersistenceSingleKey {
  import opened Common

  // ---------------------------------------------------------------------------
  // Query text
  // ---------------------------------------------------------------------------

  /** Python's `sep.join(parts)`. */
  function Join(parts: seq<string>, sep: string): string
  {
    if |parts| == 0 then ""
    else if |parts| == 1 then parts[0]
    else parts[0] + sep + Join(parts[1..], sep)
  }

  /** Appending one more part adds exactly one separator, before the new part. */
  lemma {:induction false} JoinSnoc(parts: seq<string>, x: string, sep: string)
    requires |parts| > 0
    ensures Join(parts + [x], sep) == Join(parts, sep) + sep + x
  {
    if |parts| == 1 {
      assert (parts + [x])[1..] == [x];
    } else {
      assert (parts + [x])[1..] == parts[1..] + [x];
      JoinSnoc(parts[1..], x, sep);
    }
  }

  /** The storage class a column is declared with. */
  datatype ColumnType = Integer | Text | Real

  function SqlTypeName(t: ColumnType): string
  {
    match t
    case Integer => "INTEGER"
    case Text => "TEXT"
    case Real => "REAL"
  }

  /** The declaration of the key column: INTEGER whatever the key's type. */
  function KeyDecl(primaryKey: string): string
  {
    primaryKey + " INTEGER NOT NULL PRIMARY KEY"
  }

  /** The declaration of one non-key column. */
  function ColumnDecl(field: string, t: ColumnType): string
  {
    field + " " + SqlTypeName(t) + " NOT NULL"
  }

  /** One declaration per field of a group, in list order; `None` gives none. */
  function ColumnDecls(fields: Option<seq<string>>, t: ColumnType): (decls: seq<string>)
    ensures fields.None? ==> decls == []
    ensures fields.Some? ==> |decls| == |fields.value|
  {
    match fields
    case None => []
    case Some(fs) => seq(|fs|, i requires 0 <= i < |fs| => ColumnDecl(fs[i], t))
  }

  /** The column declarations of a new table, in the column order of its rows:
      the key, then the integer, text and real fields. */
  function TableColumnDecls(primaryKey: string, intList: Option<seq<string>>,
                            textList: Option<seq<string>>, floatList: Option<seq<string>>): seq<string>
  {
    [KeyDecl(primaryKey)] + ColumnDecls(intList, Integer) + ColumnDecls(textList, Text)
      + ColumnDecls(floatList, Real)
  }

  /** The CREATE statement: the column declarations joined by ", " inside
      "CREATE TABLE IF NOT EXISTS T(...)". */
  function CreateTableQuery(table: string, primaryKey: string, intList: Option<seq<string>>,
                            textList: Option<seq<string>>, floatList: Option<seq<string>>): string
  {
    CreateTableHead(table) + Join(TableColumnDecls(primaryKey, intList, textList, floatList), ", ") + ")"
  }

  /** The text before the column declarations. */
  function CreateTableHead(table: string): string
  {
    "CREATE TABLE IF NOT EXISTS " + table + "("
  }

  /** The count query of VerifyTable; the table name is quoted into the text. */
  function VerifyTableQuery(table: string): string
  {
    "SELECT count(name) FROM sqlite_master WHERE " + "type='table' AND name='" + table + "'"
  }

  /** k parameter markers. */
  function Markers(k: nat): (marks: seq<string>)
    ensures |marks| == k && forall i :: 0 <= i < k ==> marks[i] == "?"
  {
    seq(k, _ => "?")
  }

  /** k parameter markers "?" separated by ", ". */
  function Placeholders(k: nat): string
  {
    Join(Markers(k), ", ")
  }

  /** The INSERT statement for rows of the given arity. */
  function InsertQuery(table: string, arity: nat): string
  {
    "INSERT INTO " + table + " VALUES( " + Placeholders(arity) + ")"
  }

  /** One equality test "f = ? " per where-field. */
  function EqualityTests(whereFields: seq<string>): (tests: seq<string>)
    ensures |tests| == |whereFields|
    ensures forall i :: 0 <= i < |whereFields| ==> tests[i] == whereFields[i] + " = ? "
  {
    seq(|whereFields|, i requires 0 <= i < |whereFields| => whereFields[i] + " = ? ")
  }

  /** The equality tests joined by " AND ". */
  function WhereClause(whereFields: seq<string>): string
  {
    Join(EqualityTests(whereFields), " AND ")
  }

  /** The SELECT statement of ReadData; no WHERE part when the where-list is None. */
  function ReadQuery(table: string, fieldsList: seq<string>, whereFields: Option<seq<string>>): string
  {
    "SELECT " + Join(fieldsList, ", ") + " FROM " + table
      + match whereFields
        case None => ""
        case Some(ws) => " WHERE " + WhereClause(ws)
  }

  /** The statement ReadData runs only to learn the table's column names. */
  function AllColumnsQuery(table: string): string
  {
    "SELECT * FROM " + table
  }

  /** The UPDATE statement; fieldNames[0] is the field to change, fieldNames[1]
      the key field (two spaces before its "= ?"). */
  function UpdateQuery(table: string, fieldNames: seq<string>): string
    requires |fieldNames| >= 2
  {
    "UPDATE " + table + " SET " + fieldNames[0] + " = ? " + "WHERE " + fieldNames[1] + "  = ?"
  }

  function DeleteQuery(table: string, primaryKey: string): string
  {
    "DELETE FROM " + table + " WHERE " + primaryKey + " = ?"
  }

  /** The statement ReturnLastId runs: the row with the greatest key. */
  function LastIdQuery(table: string, primaryKey: string): string
  {
    "SELECT * FROM " + table + " ORDER BY " + primaryKey + " DESC LIMIT 1"
  }

  // ---------------------------------------------------------------------------
  // The loops that accumulate query text
  // ---------------------------------------------------------------------------

  /** A single part is joined without any separator. */
  lemma JoinSingle(x: string, sep: string)
    ensures Join([x], sep) == x
  {
  }

  /** `for field in fields: query += f", {field} TYPE NOT NULL"`, for one group. */
  method AppendColumnDecls(query: string, ghost head: string, ghost decls: seq<string>,
                           fields: seq<string>, t: ColumnType)
    returns (extended: string)
    requires |decls| > 0 && query == head + Join(decls, ", ")
    ensures extended == head + Join(decls + ColumnDecls(Some(fields), t), ", ")
  {
    ghost var all := ColumnDecls(Some(fields), t);
    extended := query;
    var i := 0;
    ghost var done := decls;
    while i < |fields|
      invariant 0 <= i <= |fields|
      invariant |done| > 0 && done == decls + all[..i]
      invariant extended == head + Join(done, ", ")
    {
      var decl := ColumnDecl(fields[i], t);
      assert all[..i + 1] == all[..i] + [decl];
      JoinSnocAfter(head, done, decl, ", ");
      extended := extended + ", " + decl;
      done := done + [decl];
      i := i + 1;
    }
    assert all[..i] == all;
  }

  /** JoinSnoc behind a fixed prefix. */
  lemma JoinSnocAfter(prefix: string, parts: seq<string>, x: string, sep: string)
    requires |parts| > 0
    ensures prefix + Join(parts, sep) + sep + x == prefix + Join(parts + [x], sep)
  {
    JoinSnoc(parts, x, sep);
  }

  /** CreateTableSingleKey's query construction: the key, then one declaration
      per listed field, group by group; a `None` group adds nothing. */
  method BuildCreateTableQuery(table: string, primaryKey: string, intList: Option<seq<string>>,
                               textList: Option<seq<string>>, floatList: Option<seq<string>>)
    returns (query: string)
    ensures query == CreateTableQuery(table, primaryKey, intList, textList, floatList)
  {
    ghost var head := CreateTableHead(table);
    query := "CREATE TABLE IF NOT EXISTS " + table + "(" + primaryKey + " " + "INTEGER NOT NULL PRIMARY KEY";
    ghost var decls := [KeyDecl(primaryKey)];
    JoinSingle(KeyDecl(primaryKey), ", ");
    assert query == head + Join(decls, ", ");
    if intList.Some? {
      query := AppendColumnDecls(query, head, decls, intList.value, Integer);
    } else {
      assert decls + ColumnDecls(intList, Integer) == decls;
    }
    decls := decls + ColumnDecls(intList, Integer);
    assert query == head + Join(decls, ", ");
    if textList.Some? {
      query := AppendColumnDecls(query, head, decls, textList.value, Text);
    } else {
      assert decls + ColumnDecls(textList, Text) == decls;
    }
    decls := decls + ColumnDecls(textList, Text);
    assert query == head + Join(decls, ", ");
    if floatList.Some? {
      query := AppendColumnDecls(query, head, decls, floatList.value, Real);
    } else {
      assert decls + ColumnDecls(floatList, Real) == decls;
    }
    decls := decls + ColumnDecls(floatList, Real);
    assert decls == TableColumnDecls(primaryKey, intList, textList, floatList);
    query := query + ")";
  }

  /** InsertData's query construction: one "?" per value of the first tuple,
      with ", " after every marker but the last. */
  method BuildInsertQuery(table: string, firstTuple: Row) returns (query: string)
    ensures query == InsertQuery(table, |firstTuple|)
  {
    ghost var head := "INSERT INTO " + table + " VALUES( ";
    ghost var marks := Markers(|firstTuple|);
    query := "INSERT INTO " + table + " VALUES( ";
    var i := 0;
    while i < |firstTuple|
      invariant 0 <= i <= |firstTuple|
      invariant query == head + Join(marks[..i], ", ") + (if 0 < i < |firstTuple| then ", " else "")
    {
      if i > 0 {
        assert marks[..i + 1] == marks[..i] + ["?"];
        JoinSnoc(marks[..i], "?", ", ");
      } else {
        assert marks[..1] == ["?"];
      }
      query := query + "?";
      if i != |firstTuple| - 1 {
        query := query + ", ";
      }
      i := i + 1;
    }
    assert marks[..i] == marks;
    query := query + ")";
  }

  /** The where-clause loop of ReadData: for each field "f = ? ", followed by
      " AND " unless it is the last. */
  method AppendWhereClause(query: string, whereFields: seq<string>) returns (extended: string)
    ensures extended == query + WhereClause(whereFields)
  {
    ghost var tests := EqualityTests(whereFields);
    ghost var joined := "";
    extended := query;
    var count := 0;
    while count < |whereFields|
      invariant 0 <= count <= |whereFields|
      invariant joined == Join(tests[..count], " AND ")
      invariant extended == query + joined + (if 0 < count < |whereFields| then " AND " else "")
    {
      ghost var test := whereFields[count] + " = ? ";
      if count > 0 {
        assert tests[..count + 1] == tests[..count] + [test];
        JoinSnoc(tests[..count], test, " AND ");
        joined := joined + " AND " + test;
      } else {
        assert tests[..1] == [test];
        joined := test;
      }
      extended := extended + whereFields[count] + " = ? ";
      assert extended == query + joined;
      if count != |whereFields| - 1 {
        extended := extended + " AND ";
      }
      count := count + 1;
    }
    assert tests[..count] == tests;
  }

  /** ReadData's query construction: the selected fields, and when a where-list
      is given, " WHERE " and the where clause. */
  method BuildReadQuery(table: string, fieldsList: seq<string>, whereFields: Option<seq<string>>)
    returns (query: string)
    ensures query == ReadQuery(table, fieldsList, whereFields)
  {
    query := "SELECT " + Join(fieldsList, ", ") + " FROM " + table;
    if whereFields.Some? {
      query := query + " WHERE ";
      query := AppendWhereClause(query, whereFields.value);
    }
  }

  // ---------------------------------------------------------------------------
  // Properties of the query text
  // ---------------------------------------------------------------------------

  /** The k-marker string, character by character: "?, ?, ..., ?". */
  lemma {:induction false} PlaceholdersShape(k: nat)
    ensures |Placeholders(k)| == (if k == 0 then 0 else 3 * k - 2)
    ensures forall p :: 0 <= p < |Placeholders(k)| ==>
      Placeholders(k)[p] == (if p % 3 == 0 then '?' else if p % 3 == 1 then ',' else ' ')
  {
    if k > 1 {
      PlaceholdersShape(k - 1);
      assert Markers(k) == Markers(k - 1) + ["?"];
      JoinSnoc(Markers(k - 1), "?", ", ");
      var prev := Placeholders(k - 1);
      var s := prev + ", " + "?";
      assert Placeholders(k) == s;
      assert |prev| == 3 * (k - 2) + 1;
      forall p | 0 <= p < |s|
        ensures s[p] == (if p % 3 == 0 then '?' else if p % 3 == 1 then ',' else ' ')
      {
        if p < |prev| {
          assert s[p] == prev[p];
        } else if p == |prev| {
          assert s[p] == ',' && p % 3 == 1;
        } else if p == |prev| + 1 {
          assert s[p] == ' ' && p % 3 == 2;
        } else {
          assert s[p] == '?' && p == 3 * (k - 1);
        }
      }
    } else if k == 1 {
      assert Markers(1) == ["?"];
    }
  }

  /** The where clause of a single field is "f = ? ", and each further field
      adds " AND " and its own test, with no " AND " after the last one. */
  lemma WhereClauseShape(ws: seq<string>, f: string)
    ensures WhereClause([f]) == f + " = ? "
    ensures |ws| > 0 ==> WhereClause(ws + [f]) == WhereClause(ws) + " AND " + f + " = ? "
  {
    assert EqualityTests([f]) == [f + " = ? "];
    if |ws| > 0 {
      assert EqualityTests(ws + [f]) == EqualityTests(ws) + [f + " = ? "];
      JoinSnoc(EqualityTests(ws), f + " = ? ", " AND ");
    }
  }

  /** The joined text starts with the first part, followed by the separator
      when more parts follow. */
  lemma {:induction false} JoinHead(parts: seq<string>, sep: string)
    requires |parts| > 0
    ensures |parts| == 1 ==> Join(parts, sep) == parts[0]
    ensures |parts| > 1 ==> Join(parts, sep) == parts[0] + sep + Join(parts[1..], sep)
  {
  }

  /** The CREATE statement declares the key first, as an INTEGER primary key,
      then the group declarations, and ends with ")". */
  lemma CreateTableQueryStart(table: string, primaryKey: string, intList: Option<seq<string>>,
                              textList: Option<seq<string>>, floatList: Option<seq<string>>)
    ensures var q := CreateTableQuery(table, primaryKey, intList, textList, floatList);
      var start := CreateTableHead(table) + KeyDecl(primaryKey);
      |start| < |q| && q[..|start|] == start && q[|q| - 1] == ')'
  {
    var decls := TableColumnDecls(primaryKey, intList, textList, floatList);
    assert decls[0] == KeyDecl(primaryKey);
    JoinedEnds(CreateTableHead(table), decls, ", ", ")");
  }

  /** Text made of a head, joined parts and a closing suffix starts with the
      head and the first part, and ends with the suffix's last character. */
  lemma JoinedEnds(head: string, parts: seq<string>, sep: string, close: string)
    requires |parts| > 0 && |close| > 0
    ensures var q := head + Join(parts, sep) + close;
      |head + parts[0]| < |q| && q[..|head + parts[0]|] == head + parts[0] && q[|q| - 1] == close[|close| - 1]
  {
    JoinHead(parts, sep);
    var tail := if |parts| == 1 then "" else sep + Join(parts[1..], sep);
    assert Join(parts, sep) == parts[0] + tail;
    SplitEnds(head, parts[0], tail, close);
  }

  /** The same, once the joined text is split into its first part and the rest. */
  lemma SplitEnds(head: string, first: string, tail: string, close: string)
    requires |close| > 0
    ensures var q := head + (first + tail) + close;
      |head + first| < |q| && q[..|head + first|] == head + first && q[|q| - 1] == close[|close| - 1]
  {
    assert head + (first + tail) + close == (head + first) + (tail + close);
    ConcatEnds(head + first, tail + close);
  }

  /** A concatenation starts with its left part and ends with the last
      character of its non-empty right part. */
  lemma ConcatEnds(a: string, b: string)
    requires |b| > 0
    ensures |a| < |a + b| && (a + b)[..|a|] == a && (a + b)[|a + b| - 1] == b[|b| - 1]
  {
  }

  /** A missing group declares nothing, as an empty one, and the statement
      declares one column for the key and one per listed field. */
  lemma CreateTableColumnCount(primaryKey: string, intList: Option<seq<string>>,
                               textList: Option<seq<string>>, floatList: Option<seq<string>>)
    ensures TableColumnDecls(primaryKey, None, textList, floatList)
         == TableColumnDecls(primaryKey, Some([]), textList, floatList)
    ensures |TableColumnDecls(primaryKey, intList, textList, floatList)| == 1
         + (if intList.Some? then |intList.value| else 0)
         + (if textList.Some? then |textList.value| else 0)
         + (if floatList.Some? then |floatList.value| else 0)
  {
    assert ColumnDecls(None, Integer) == ColumnDecls(Some([]), Integer);
  }

  // ---------------------------------------------------------------------------
  // The table behind ReturnLastId
  // ---------------------------------------------------------------------------

  /** A table as far as ReturnLastId and ReadData's header see it: its column
      names and its rows. */
  datatype Table = Table(columns: seq<string>, rows: seq<Row>)

  /** Every row has an integer key in its first column. */
  ghost predicate IntegerKeyed(rows: seq<Row>)
  {
    forall r: Row :: r in rows ==> |r| > 0 && r[0].IntV?
  }

  /** The greatest key of a non-empty table with integer keys. */
  function MaxKey(rows: seq<Row>): (m: int)
    requires rows != [] && IntegerKeyed(rows)
    ensures forall r: Row :: r in rows ==> r[0].i <= m
    ensures exists r: Row :: r in rows && r[0].i == m
  {
    if |rows| == 1 then rows[0][0].i
    else
      var rest := MaxKey(rows[1..]);
      assert forall r: Row :: r in rows[1..] ==> r in rows;
      assert forall r: Row :: r in rows ==> r == rows[0] || r in rows[1..];
      if rows[0][0].i >= rest then rows[0][0].i else rest
  }

  /** What a driver returns for "ORDER BY key DESC LIMIT 1" over `rows`: nothing
      for an empty table, else one row of the table whose key is not below any. */
  ghost predicate IsTopByKey(answer: seq<Row>, rows: seq<Row>)
    requires IntegerKeyed(rows)
  {
    (rows == [] ==> answer == []) &&
    (rows != [] ==> |answer| == 1 && answer[0] in rows && forall r: Row :: r in rows ==> r[0].i <= answer[0][0].i)
  }

  /** ReturnLastId's mapping of the fetched rows: 0 for none, else column 0 of the first. */
  function LastIdFrom(fetched: seq<Row>): Value
    requires fetched != [] ==> |fetched[0]| > 0
  {
    if |fetched| == 0 then IntV(0) else fetched[0][0]
  }

  /** Against a driver that honours "ORDER BY key DESC LIMIT 1", ReturnLastId
      yields 0 for an empty table and the greatest key otherwise. */
  lemma LastIdIsMaxKey(answer: seq<Row>, table: Table)
    requires IntegerKeyed(table.rows) && IsTopByKey(answer, table.rows)
    ensures answer != [] ==> |answer[0]| > 0
    ensures LastIdFrom(answer) == IntV(if table.rows == [] then 0 else MaxKey(table.rows))
  {
    if table.rows != [] {
      var m := MaxKey(table.rows);
      var r: Row :| r in table.rows && r[0].i == m;
      assert r[0].i <= answer[0][0].i;
    }
  }

  // ---------------------------------------------------------------------------
  // Connection life cycle
  // ---------------------------------------------------------------------------

  /** Where the connection held by a DatabaseController stands. */
  datatype ConnectionState = NotOpened | Opened | Closed

  /** A call handed to the cursor or the connection. `params` is None when the
      statement is executed without a parameter argument. */
  datatype DriverCall =
    | Execute(sql: string, params: Option<Row>)
    | ExecuteMany(sql: string, rows: seq<Row>)
    | Commit

  /** The statement InsertData hands to the driver: `execute` for a single
      tuple, `executemany` for several; the arity is that of the first tuple. */
  function InsertStatement(table: string, rowDataList: seq<Row>): DriverCall
    requires |rowDataList| > 0
  {
    var sql := InsertQuery(table, |rowDataList[0]|);
    if |rowDataList| == 1 then DriverCall.Execute(sql, Some(rowDataList[0]))
    else ExecuteMany(sql, rowDataList)
  }

  /** The SELECT ReadData hands to the driver: the search values are passed as
      the parameters exactly when a where-list is given. */
  function SelectStatement(table: string, fieldsList: seq<string>, whereFieldsList: Option<seq<string>>,
                           searchVals: Option<Row>): DriverCall
  {
    DriverCall.Execute(ReadQuery(table, fieldsList, whereFieldsList),
                       if whereFieldsList.None? then None else searchVals)
  }

  /** Owns the connection to one database file. */
  class DatabaseController {
    const databaseName: string
    var connection: ConnectionState
    /** How many times close_connection has run. */
    var closeCalls: nat

    constructor (databaseName: string)
      ensures this.databaseName == databaseName
      ensures connection == NotOpened && closeCalls == 0
    {
      this.databaseName := databaseName;
      connection := NotOpened;
      closeCalls := 0;
    }

    /** `sqlite3.connect` succeeds when `connects` holds; otherwise it raises an
        OperationalError, which is logged, and no cursor is returned. */
    method OpenConnectionAndCreateCursor(connects: bool) returns (cursorReturned: bool)
      modifies this
      ensures cursorReturned == connects
      ensures connection == (if connects then Opened else old(connection))
      ensures closeCalls == old(closeCalls)
    {
      if connects {
        connection := Opened;
        cursorReturned := true;
      } else {
        cursorReturned := false;
      }
    }

    /** Closes the connection; an error while closing is logged, not raised.
        The connection must have been opened (closing None raises). */
    method CloseConnection()
      requires connection != NotOpened
      modifies this
      ensures connection == Closed && closeCalls == old(closeCalls) + 1
    {
      connection := Closed;
      closeCalls := closeCalls + 1;
    }
  }

  /** The state every query class shares: names, the controller, whether a
      connection was obtained, and the calls handed to the driver so far. */
  class DataBaseQuery {
    const databaseName: string
    const tableName: string
    const databaseController: DatabaseController
    /** `self.connection is not None`. */
    var connected: bool
    var issued: seq<DriverCall>

    ghost predicate Valid()
      reads this, databaseController
    {
      connected ==> databaseController.connection != NotOpened
    }

    constructor (databaseName: string, tableName: string)
      ensures Valid() && fresh(databaseController)
      ensures this.databaseName == databaseName && this.tableName == tableName
      ensures databaseController.databaseName == databaseName
      ensures databaseController.connection == NotOpened && databaseController.closeCalls == 0
      ensures !connected && issued == []
    {
      this.databaseName := databaseName;
      this.tableName := tableName;
      databaseController := new DatabaseController(databaseName);
      connected := false;
      issued := [];
    }

    /** Asks the controller for a cursor and keeps the connection when one was returned. */
    method CreateDatabaseConnection(connects: bool)
      requires Valid()
      modifies this, databaseController
      ensures Valid()
      ensures connected == (connects || old(connected))
      ensures issued == old(issued)
      ensures databaseController.closeCalls == old(databaseController.closeCalls)
    {
      var cursorReturned := databaseController.OpenConnectionAndCreateCursor(connects);
      if cursorReturned {
        connected := true;
      }
    }

    /** One `execute()` run: without a connection nothing is issued and nothing
        closed; with one, exactly `calls` are issued and the connection is
        closed exactly once, whichever way the method left its `try`. */
    twostate predicate RanOnce(calls: seq<DriverCall>)
      reads this, databaseController
    {
      connected == old(connected) &&
      if old(connected) then
        issued == old(issued) + calls &&
        databaseController.closeCalls == old(databaseController.closeCalls) + 1 &&
        databaseController.connection == Closed
      else
        issued == old(issued) &&
        databaseController.closeCalls == old(databaseController.closeCalls) &&
        databaseController.connection == old(databaseController.connection)
    }

    /** Issues one call to the driver. */
    method Issue(call: DriverCall)
      modifies this
      ensures issued == old(issued) + [call]
      ensures connected == old(connected)
    {
      issued := issued + [call];
    }
  }

  /** Runs "CREATE TABLE IF NOT EXISTS". */
  class CreateTableSingleKey {
    const query: DataBaseQuery
    const primaryKey: string
    const intList: Option<seq<string>>
    const textList: Option<seq<string>>
    const floatList: Option<seq<string>>

    constructor (databaseName: string, tableName: string, primaryKey: string, intList: Option<seq<string>>,
                 textList: Option<seq<string>>, floatList: Option<seq<string>>, connects: bool)
      ensures this.primaryKey == primaryKey && this.intList == intList
      ensures this.textList == textList && this.floatList == floatList
      ensures fresh(query) && fresh(query.databaseController) && query.Valid()
      ensures query.databaseName == databaseName && query.tableName == tableName
      ensures query.connected == connects && query.issued == [] && query.databaseController.closeCalls == 0
    {
      this.primaryKey := primaryKey;
      this.intList := intList;
      this.textList := textList;
      this.floatList := floatList;
      var q := new DataBaseQuery(databaseName, tableName);
      q.CreateDatabaseConnection(connects);
      query := q;
    }

    /** Returns None on every path; `reply` says whether the driver raised. */
    method Execute(reply: Reply<()>)
      requires query.Valid()
      modifies query, query.databaseController
      ensures query.Valid()
      ensures query.RanOnce([DriverCall.Execute(
        CreateTableQuery(query.tableName, primaryKey, intList, textList, floatList), None)])
    {
      if !query.connected {
        return;
      }
      var sql := BuildCreateTableQuery(query.tableName, primaryKey, intList, textList, floatList);
      query.Issue(DriverCall.Execute(sql, None));
      query.databaseController.CloseConnection();
    }
  }

  /** Asks sqlite_master how many tables carry the name. */
  class VerifyTable {
    const query: DataBaseQuery

    constructor (databaseName: string, tableName: string, connects: bool)
      ensures fresh(query) && fresh(query.databaseController) && query.Valid()
      ensures query.databaseName == databaseName && query.tableName == tableName
      ensures query.connected == connects && query.issued == [] && query.databaseController.closeCalls == 0
    {
      var q := new DataBaseQuery(databaseName, tableName);
      q.CreateDatabaseConnection(connects);
      query := q;
    }

    /** `reply` is the count the driver fetched: True iff it is exactly 1;
        None without a connection or when the driver raised. */
    method Execute(reply: Reply<int>) returns (tableExists: Option<bool>)
      requires query.Valid()
      modifies query, query.databaseController
      ensures query.Valid()
      ensures query.RanOnce([DriverCall.Execute(VerifyTableQuery(query.tableName), None)])
      ensures tableExists.None? <==> !old(query.connected) || reply.Raised?
      ensures tableExists == Some(true) <==> old(query.connected) && reply == Returned(1)
    {
      if !query.connected {
        return None;
      }
      query.Issue(DriverCall.Execute(VerifyTableQuery(query.tableName), None));
      match reply {
      case Raised =>
        tableExists := None;
      case Returned(tableCount) =>
        tableExists := if tableCount == 1 then Some(true) else Some(false);
      }
      query.databaseController.CloseConnection();
    }
  }

  /** Inserts one tuple with `execute`, or several with `executemany`. */
  class InsertData {
    const query: DataBaseQuery
    const rowDataList: seq<Row>

    constructor (databaseName: string, tableName: string, rowDataList: seq<Row>, connects: bool)
      ensures this.rowDataList == rowDataList
      ensures fresh(query) && fresh(query.databaseController) && query.Valid()
      ensures query.databaseName == databaseName && query.tableName == tableName
      ensures query.connected == connects && query.issued == [] && query.databaseController.closeCalls == 0
    {
      this.rowDataList := rowDataList;
      var q := new DataBaseQuery(databaseName, tableName);
      q.CreateDatabaseConnection(connects);
      query := q;
    }

    /** `reply` is the driver's row count after the insert and commit. True iff
        it is positive; None without a connection or when the driver raised
        (the except branch has no return). */
    method Execute(reply: Reply<int>) returns (inserted: Option<bool>)
      requires query.Valid() && |rowDataList| > 0
      modifies query, query.databaseController
      ensures query.Valid()
      ensures query.RanOnce([InsertStatement(query.tableName, rowDataList)] + if reply.Returned? then [Commit] else [])
      ensures inserted.None? <==> !old(query.connected) || reply.Raised?
      ensures inserted == Some(true) <==> old(query.connected) && reply.Returned? && reply.value > 0
    {
      if !query.connected {
        return None;
      }
      var sql := BuildInsertQuery(query.tableName, rowDataList[0]);
      if |rowDataList| == 1 {
        query.Issue(DriverCall.Execute(sql, Some(rowDataList[0])));
      } else {
        query.Issue(ExecuteMany(sql, rowDataList));
      }
      match reply {
      case Raised =>
        inserted := None;
      case Returned(affectedRows) =>
        query.Issue(Commit);
        inserted := if affectedRows > 0 then Some(true) else Some(false);
      }
      query.databaseController.CloseConnection();
    }
  }

  /** Reads rows, optionally filtered by equality on the where-fields. */
  class ReadData {
    const query: DataBaseQuery
    const fieldsList: seq<string>
    const whereFieldsList: Option<seq<string>>
    const searchVals: Option<Row>

    constructor (databaseName: string, tableName: string, fieldsList: seq<string>,
                 whereFieldsList: Option<seq<string>>, searchVals: Option<Row>, connects: bool)
      ensures this.fieldsList == fieldsList && this.whereFieldsList == whereFieldsList
      ensures this.searchVals == searchVals
      ensures fresh(query) && fresh(query.databaseController) && query.Valid()
      ensures query.databaseName == databaseName && query.tableName == tableName
      ensures query.connected == connects && query.issued == [] && query.databaseController.closeCalls == 0
    {
      this.fieldsList := fieldsList;
      this.whereFieldsList := whereFieldsList;
      this.searchVals := searchVals;
      var q := new DataBaseQuery(databaseName, tableName);
      q.CreateDatabaseConnection(connects);
      query := q;
    }

    /** `rowsReply` answers the SELECT, `columnsReply` the "SELECT *" whose
        column names head a non-empty result. No rows give the empty list;
        otherwise the header row (the table's column names) precedes the rows. */
    method Execute(rowsReply: Reply<seq<Row>>, columnsReply: Reply<seq<string>>)
      returns (result: Option<seq<Row>>)
      requires query.Valid()
      modifies query, query.databaseController
      ensures query.Valid()
      ensures query.RanOnce([SelectStatement(query.tableName, fieldsList, whereFieldsList, searchVals)] +
        if rowsReply.Returned? && |rowsReply.value| > 0
        then [DriverCall.Execute(AllColumnsQuery(query.tableName), None)] else [])
      ensures result.None? <==>
        !old(query.connected) || rowsReply.Raised? || (|rowsReply.value| > 0 && columnsReply.Raised?)
      ensures result == Some([]) <==> old(query.connected) && rowsReply == Returned([])
      ensures result.Some? && result.value != [] ==>
        rowsReply.Returned? && columnsReply.Returned? &&
        result.value == [HeaderRow(columnsReply.value)] + rowsReply.value
    {
      if !query.connected {
        return None;
      }
      var sql := BuildReadQuery(query.tableName, fieldsList, whereFieldsList);
      if whereFieldsList.None? {
        query.Issue(DriverCall.Execute(sql, None));
      } else {
        query.Issue(DriverCall.Execute(sql, searchVals));
      }
      match rowsReply {
      case Raised =>
        result := None;
      case Returned(rowsReturned) =>
        if |rowsReturned| > 0 {
          query.Issue(DriverCall.Execute(AllColumnsQuery(query.tableName), None));
          match columnsReply {
          case Raised =>
            result := None;
          case Returned(fieldNames) =>
            var fieldsAndValues: seq<Row> := [];
            fieldsAndValues := fieldsAndValues + [HeaderRow(fieldNames)];
            fieldsAndValues := fieldsAndValues + rowsReturned;
            result := Some(fieldsAndValues);
          }
        } else {
          result := Some(rowsReturned);
        }
      }
      query.databaseController.CloseConnection();
    }
  }

  /** The tuple of column names read from the cursor description. */
  function HeaderRow(columnNames: seq<string>): (header: Row)
    ensures |header| == |columnNames|
    ensures forall i :: 0 <= i < |columnNames| ==> header[i] == TextV(columnNames[i])
  {
    seq(|columnNames|, i requires 0 <= i < |columnNames| => TextV(columnNames[i]))
  }

  /** Changes one field of the row whose key matches. */
  class UpdateData {
    const query: DataBaseQuery
    const fieldNames: seq<string>
    const updateTuple: Row

    constructor (databaseName: string, tableName: string, fieldNames: seq<string>, updateTuple: Row,
                 connects: bool)
      ensures this.fieldNames == fieldNames && this.updateTuple == updateTuple
      ensures fresh(query) && fresh(query.databaseController) && query.Valid()
      ensures query.databaseName == databaseName && query.tableName == tableName
      ensures query.connected == connects && query.issued == [] && query.databaseController.closeCalls == 0
    {
      this.fieldNames := fieldNames;
      this.updateTuple := updateTuple;
      var q := new DataBaseQuery(databaseName, tableName);
      q.CreateDatabaseConnection(connects);
      query := q;
    }

    /** True iff the driver's row count is positive; None without a connection
        or when the driver raised. Once connected, fewer than two field names
        raise IndexError while the query text is built, outside the handlers;
        the connection is still closed. */
    method Execute(reply: Reply<int>) returns (updated: Option<bool>, raisedIndexError: bool)
      requires query.Valid()
      modifies query, query.databaseController
      ensures query.Valid()
      ensures raisedIndexError <==> old(query.connected) && |fieldNames| < 2
      ensures raisedIndexError ==> updated.None?
      ensures query.RanOnce(
        if |fieldNames| < 2 then []
        else [DriverCall.Execute(UpdateQuery(query.tableName, fieldNames), Some(updateTuple))]
             + if reply.Returned? then [Commit] else [])
      ensures !raisedIndexError ==> (updated.None? <==> !old(query.connected) || reply.Raised?)
      ensures updated == Some(true) <==> old(query.connected) && |fieldNames| >= 2 && reply.Returned? && reply.value > 0
    {
      if !query.connected {
        return None, false;
      }
      if |fieldNames| < 2 {
        query.databaseController.CloseConnection();
        return None, true;
      }
      raisedIndexError := false;
      query.Issue(DriverCall.Execute(UpdateQuery(query.tableName, fieldNames), Some(updateTuple)));
      match reply {
      case Raised =>
        updated := None;
      case Returned(affectedRows) =>
        query.Issue(Commit);
        updated := if affectedRows > 0 then Some(true) else Some(false);
      }
      query.databaseController.CloseConnection();
    }
  }

  /** Deletes the row whose key matches. */
  class DeleteData {
    const query: DataBaseQuery
    const primaryKey: string
    const keyValue: Value

    constructor (databaseName: string, tableName: string, primaryKey: string, keyValue: Value, connects: bool)
      ensures this.primaryKey == primaryKey && this.keyValue == keyValue
      ensures fresh(query) && fresh(query.databaseController) && query.Valid()
      ensures query.databaseName == databaseName && query.tableName == tableName
      ensures query.connected == connects && query.issued == [] && query.databaseController.closeCalls == 0
    {
      this.primaryKey := primaryKey;
      this.keyValue := keyValue;
      var q := new DataBaseQuery(databaseName, tableName);
      q.CreateDatabaseConnection(connects);
      query := q;
    }

    /** True iff the driver's row count is positive; None without a connection
        or when the driver raised. The key value is the only parameter. */
    method Execute(reply: Reply<int>) returns (deleted: Option<bool>)
      requires query.Valid()
      modifies query, query.databaseController
      ensures query.Valid()
      ensures query.RanOnce([DriverCall.Execute(DeleteQuery(query.tableName, primaryKey), Some([keyValue]))]
                            + if reply.Returned? then [Commit] else [])
      ensures deleted.None? <==> !old(query.connected) || reply.Raised?
      ensures deleted == Some(true) <==> old(query.connected) && reply.Returned? && reply.value > 0
    {
      if !query.connected {
        return None;
      }
      query.Issue(DriverCall.Execute(DeleteQuery(query.tableName, primaryKey), Some([keyValue])));
      match reply {
      case Raised =>
        deleted := None;
      case Returned(affectedRows) =>
        query.Issue(Commit);
        deleted := if affectedRows > 0 then Some(true) else Some(false);
      }
      query.databaseController.CloseConnection();
    }
  }

  /** Reads the key of the row with the greatest key. */
  class ReturnLastId {
    const query: DataBaseQuery
    const primaryKey: string

    constructor (databaseName: string, tableName: string, primaryKey: string, connects: bool)
      ensures this.primaryKey == primaryKey
      ensures fresh(query) && fresh(query.databaseController) && query.Valid()
      ensures query.databaseName == databaseName && query.tableName == tableName
      ensures query.connected == connects && query.issued == [] && query.databaseController.closeCalls == 0
    {
      this.primaryKey := primaryKey;
      var q := new DataBaseQuery(databaseName, tableName);
      q.CreateDatabaseConnection(connects);
      query := q;
    }

    /** `reply` holds the fetched rows (a row of "SELECT *" has at least the key
        column). 0 for none, else the first column of the first row; None
        without a connection or when the driver raised. */
    method Execute(reply: Reply<seq<Row>>) returns (lastId: Option<Value>)
      requires query.Valid()
      requires reply.Returned? && reply.value != [] ==> |reply.value[0]| > 0
      modifies query, query.databaseController
      ensures query.Valid()
      ensures query.RanOnce([DriverCall.Execute(LastIdQuery(query.tableName, primaryKey), None)])
      ensures lastId.None? <==> !old(query.connected) || reply.Raised?
      ensures lastId.Some? ==> reply.Returned? && lastId.value == LastIdFrom(reply.value)
    {
      if !query.connected {
        return None;
      }
      query.Issue(DriverCall.Execute(LastIdQuery(query.tableName, primaryKey), None));
      match reply {
      case Raised =>
        lastId := None;
      case Returned(row) =>
        lastId := if |row| == 0 then Some(IntV(0)) else Some(row[0][0]);
      }
      query.databaseController.CloseConnection();
    }
  }
}
