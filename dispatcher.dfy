/** The dispatcher between the entity classes and the persistence layer: which
    entity object a table name and action produce, and which persistence
    objects `perform_database_query` builds and executes with that object's
    attributes.

    The sqlite driver is a parameter: a `Driver` says whether the database
    opens and what each kind of driver call answers. Reading an attribute the
    entity object lacks raises AttributeError, as in Python. */
module EntityPersistanceMatcherControl {
  import opened Common
  import Book
  import Persistence = PersistenceSingleKey

  // ---------------------------------------------------------------------------
  // The driver and what the persistence objects return from it
  // ---------------------------------------------------------------------------

  /** The driver's answers, one per kind of call: whether the database opens,
      the table count, the CREATE statement, the last-row fetch, the rowcount
      of an INSERT, UPDATE or DELETE, the rows of a SELECT and the column names
      of the follow-up `SELECT *`. */
  datatype Driver = Driver(connects: bool, verifyReply: Reply<int>, createReply: Reply<()>,
                           lastIdReply: Reply<seq<Row>>, writeReply: Reply<int>,
                           rowsReply: Reply<seq<Row>>, columnsReply: Reply<seq<string>>)
  {
    /** A fetched row always has at least one column. */
    predicate WellFormed()
    {
      lastIdReply.Returned? && lastIdReply.value != [] ==> |lastIdReply.value[0]| > 0
    }
  }

  /** `VerifyTable(...).execute()`: None when the database does not open or the
      driver raises, otherwise whether exactly one table has the name. */
  function TableExists(driver: Driver): Option<bool>
  {
    if !driver.connects || driver.verifyReply.Raised? then None
    else Some(driver.verifyReply.value == 1)
  }

  /** `ReturnLastId(...).execute()`: the key of the last row, 0 for an empty table. */
  function LastId(driver: Driver): Option<Value>
    requires driver.WellFormed()
  {
    if !driver.connects || driver.lastIdReply.Raised? then None
    else Some(Persistence.LastIdFrom(driver.lastIdReply.value))
  }

  /** `execute()` of InsertData, UpdateData and DeleteData: whether a row was
      affected. */
  function Written(driver: Driver): Option<bool>
  {
    if !driver.connects || driver.writeReply.Raised? then None
    else Some(driver.writeReply.value > 0)
  }

  /** `ReadData(...).execute()`: the empty list when nothing matches, otherwise
      a header row of column names followed by the rows. */
  function RowsRead(driver: Driver): Option<seq<Row>>
  {
    if !driver.connects || driver.rowsReply.Raised? then None
    else if driver.rowsReply.value == [] then Some([])
    else if driver.columnsReply.Raised? then None
    else Some([Persistence.HeaderRow(driver.columnsReply.value)] + driver.rowsReply.value)
  }

  // ---------------------------------------------------------------------------
  // perform_database_query as a function
  // ---------------------------------------------------------------------------

  /** A persistence object that was built and executed, with its arguments
      (the database and table names are always the dispatcher's own). */
  datatype PersistenceCall =
    | VerifyTableCall
    | CreateTableCall(primaryKey: string, intList: Option<seq<string>>, textList: Option<seq<string>>,
                      floatList: Option<seq<string>>)
    | ReturnLastIdCall(primaryKey: string)
    | InsertDataCall(rowDataList: seq<Row>)
    | ReadDataCall(fieldsList: seq<string>, whereFieldsList: Option<seq<string>>, searchVals: Option<Row>)
    | UpdateDataCall(fieldNames: seq<string>, updateTuple: Row)
    | DeleteDataCall(primaryKey: string, keyValue: Value)

  /** The Python exceptions that leave perform_database_query. */
  datatype PyError = AttributeError(name: string) | TypeError | IndexError | EOFError

  /** What perform_database_query returns, or the exception it raises. */
  datatype Outcome =
    | ReturnedNone
    | ReturnedBool(b: bool)
    | ReturnedRows(rows: seq<Row>)
    | RaisedError(error: PyError)

  /** The persistence objects executed, in order, and the outcome. */
  datatype QueryRun = QueryRun(calls: seq<PersistenceCall>, outcome: Outcome)

  function FromBool(result: Option<bool>): Outcome
  {
    match result
    case None => ReturnedNone
    case Some(b) => ReturnedBool(b)
  }

  function FromRows(result: Option<seq<Row>>): Outcome
  {
    match result
    case None => ReturnedNone
    case Some(rows) => ReturnedRows(rows)
  }

  // ---------------------------------------------------------------------------
  // What each persistence object hands to the driver
  // ---------------------------------------------------------------------------

  /** A commit follows a write the driver did not refuse. */
  function CommitAfter(reply: Reply<int>): seq<Persistence.DriverCall>
  {
    if reply.Returned? then [Persistence.Commit] else []
  }

  /** The statements the object behind one persistence call hands to the
      driver for this dispatcher's table: nothing when the database does not
      open, otherwise its query text with its parameters, then the follow-up
      `SELECT *` or commit its reply calls for. UpdateData with fewer than two
      field names raises before it issues anything. */
  function Statements(call: PersistenceCall, tableName: string, driver: Driver): seq<Persistence.DriverCall>
  {
    if !driver.connects then []
    else
      match call
      case VerifyTableCall =>
        [Persistence.DriverCall.Execute(Persistence.VerifyTableQuery(tableName), None)]
      case CreateTableCall(primaryKey, intList, textList, floatList) =>
        [Persistence.DriverCall.Execute(
           Persistence.CreateTableQuery(tableName, primaryKey, intList, textList, floatList), None)]
      case ReturnLastIdCall(primaryKey) =>
        [Persistence.DriverCall.Execute(Persistence.LastIdQuery(tableName, primaryKey), None)]
      case InsertDataCall(rowDataList) =>
        // the dispatcher always inserts exactly one tuple
        if |rowDataList| == 0 then []
        else [Persistence.InsertStatement(tableName, rowDataList)] + CommitAfter(driver.writeReply)
      case ReadDataCall(fieldsList, whereFieldsList, searchVals) =>
        [Persistence.SelectStatement(tableName, fieldsList, whereFieldsList, searchVals)] +
        if driver.rowsReply.Returned? && |driver.rowsReply.value| > 0
        then [Persistence.DriverCall.Execute(Persistence.AllColumnsQuery(tableName), None)] else []
      case UpdateDataCall(fieldNames, updateTuple) =>
        if |fieldNames| < 2 then []
        else [Persistence.DriverCall.Execute(Persistence.UpdateQuery(tableName, fieldNames), Some(updateTuple))]
             + CommitAfter(driver.writeReply)
      case DeleteDataCall(primaryKey, keyValue) =>
        [Persistence.DriverCall.Execute(Persistence.DeleteQuery(tableName, primaryKey), Some([keyValue]))]
        + CommitAfter(driver.writeReply)
  }

  /** The statements of a sequence of persistence calls, in order. */
  function RunStatements(calls: seq<PersistenceCall>, tableName: string, driver: Driver)
    : seq<Persistence.DriverCall>
  {
    if |calls| == 0 then []
    else Statements(calls[0], tableName, driver) + RunStatements(calls[1..], tableName, driver)
  }

  /** A single call issues its own statements. */
  lemma RunStatementsOne(call: PersistenceCall, tableName: string, driver: Driver)
    ensures RunStatements([call], tableName, driver) == Statements(call, tableName, driver)
  {
    assert [call][1..] == [];
  }

  /** Running calls after calls issues their statements after theirs. */
  lemma {:induction false} RunStatementsAppend(first: seq<PersistenceCall>, second: seq<PersistenceCall>,
                                               tableName: string, driver: Driver)
    ensures RunStatements(first + second, tableName, driver)
         == RunStatements(first, tableName, driver) + RunStatements(second, tableName, driver)
  {
    if |first| == 0 {
      assert first + second == second;
    } else {
      assert (first + second)[1..] == first[1..] + second;
      RunStatementsAppend(first[1..], second, tableName, driver);
    }
  }

  /** The actions perform_database_query acts on. */
  const Actions: set<string> :=
    {"Create Default Table", "Create Entity", "Read Entity", "Search Entity", "Read All",
     "Update Entity", "Delete Entity"}

  /** perform_database_query: nothing without an entity object; otherwise the
      table check, then the branch for the action. A missing table stops every
      action but "Create Default Table", which creates the table only when the
      check did not answer True. */
  function DecideDatabaseQuery(userAction: string, entityObject: Option<Entity>, driver: Driver,
                               lines: seq<Book.Line>): QueryRun
    requires driver.WellFormed()
  {
    match entityObject
    case None => QueryRun([], ReturnedNone)
    case Some(entity) =>
      var verified := [VerifyTableCall];
      if userAction == "Create Default Table" then
        if TableExists(driver) == Some(true) then QueryRun(verified, ReturnedNone)
        else CreateDefaultTable(entity, verified)
      else if TableExists(driver) == Some(false) then QueryRun(verified, ReturnedNone)
      else if userAction == "Create Entity" then CreateEntity(entity, driver, lines, verified)
      else if userAction == "Read Entity" || userAction == "Search Entity" || userAction == "Read All" then
        ReadEntity(entity, driver, verified)
      else if userAction == "Update Entity" then UpdateEntity(entity, driver, verified)
      else if userAction == "Delete Entity" then DeleteEntity(entity, driver, verified)
      else QueryRun(verified, ReturnedNone)
  }

  /** The missing-table branch of "Create Default Table": read the key name and
      the three field lists, then create the table. The result is None. */
  function CreateDefaultTable(entity: Entity, calls: seq<PersistenceCall>): QueryRun
  {
    match entity.primaryKey
    case Missing => QueryRun(calls, RaisedError(AttributeError("primary_key")))
    case Has(primaryKey) =>
      match entity.intList
      case Missing => QueryRun(calls, RaisedError(AttributeError("int_list")))
      case Has(intFields) =>
        match entity.textList
        case Missing => QueryRun(calls, RaisedError(AttributeError("text_list")))
        case Has(textFields) =>
          match entity.floatList
          case Missing => QueryRun(calls, RaisedError(AttributeError("float_list")))
          case Has(floatFields) =>
            QueryRun(calls + [CreateTableCall(primaryKey, intFields, textFields, floatFields)], ReturnedNone)
  }

  /** `row_primary_value += 1` on what ReturnLastId returned; None stands for
      the TypeError that None and text raise. */
  function NextKey(lastId: Option<Value>): Option<Value>
  {
    match lastId
    case None => None
    case Some(IntV(k)) => Some(IntV(k + 1))
    case Some(RealV(x)) => Some(RealV(x + 1.0))
    case Some(TextV(_)) => None
  }

  /** The tuple InsertData receives: the key, then the integer, text and float
      values, in that order. */
  function NewRow(key: Value, intValues: seq<Value>, textValues: seq<Value>, floatValues: seq<Value>): Row
  {
    [key] + intValues + textValues + floatValues
  }

  /** "Create Entity": read the three value lists and the key's name and type;
      an "int" key is one more than the last one, any other key is typed in. */
  function CreateEntity(entity: Entity, driver: Driver, lines: seq<Book.Line>, calls: seq<PersistenceCall>): QueryRun
    requires driver.WellFormed()
  {
    match entity.intListValues
    case Missing => QueryRun(calls, RaisedError(AttributeError("int_list_values")))
    case Has(intValues) =>
      match entity.textListValues
      case Missing => QueryRun(calls, RaisedError(AttributeError("text_list_values")))
      case Has(textValues) =>
        match entity.floatListValues
        case Missing => QueryRun(calls, RaisedError(AttributeError("float_list_values")))
        case Has(floatValues) =>
          match entity.primaryKeyData
          case Missing => QueryRun(calls, RaisedError(AttributeError("primary_key_data")))
          case Has((primaryKeyName, primaryKeyType)) =>
            match NewKey(primaryKeyName, primaryKeyType, driver, lines, calls)
            case KeyFailed(run) => run
            case KeyReady(key, keyed) =>
              QueryRun(keyed + [InsertDataCall([NewRow(key, intValues, textValues, floatValues)])],
                       FromBool(Written(driver)))
  }

  /** The key of a new row, with the calls made to obtain it, or the run that
      ended while obtaining it. */
  datatype KeyStep = KeyReady(key: Value, keyed: seq<PersistenceCall>) | KeyFailed(run: QueryRun)

  /** An "int" key is one more than the last one, fetched with ReturnLastId;
      any other key is typed in. */
  function NewKey(primaryKeyName: string, primaryKeyType: string, driver: Driver, lines: seq<Book.Line>,
                  calls: seq<PersistenceCall>): KeyStep
    requires driver.WellFormed()
  {
    if primaryKeyType == "int" then
      var withLastId := calls + [ReturnLastIdCall(primaryKeyName)];
      match NextKey(LastId(driver))
      case None => KeyFailed(QueryRun(withLastId, RaisedError(TypeError)))
      case Some(key) => KeyReady(key, withLastId)
    else
      match Book.FirstAccepted(lines, Book.NonEmptyText())
      case InputEnded(_) => KeyFailed(QueryRun(calls, RaisedError(EOFError)))
      case Accepted(typed, _, _) => KeyReady(TextV(typed), calls)
  }

  /** "Read Entity", "Search Entity" and "Read All": the fields to return, the
      where-fields and the search values go to ReadData. */
  function ReadEntity(entity: Entity, driver: Driver, calls: seq<PersistenceCall>): QueryRun
  {
    match entity.fieldsList
    case Missing => QueryRun(calls, RaisedError(AttributeError("fields_list")))
    case Has(fieldsList) =>
      match entity.whereFieldsList
      case Missing => QueryRun(calls, RaisedError(AttributeError("where_fields_list")))
      case Has(whereFieldsList) =>
        match entity.searchValues
        case Missing => QueryRun(calls, RaisedError(AttributeError("search_values")))
        case Has(searchValues) =>
          QueryRun(calls + [ReadDataCall(fieldsList, whereFieldsList, searchValues)], FromRows(RowsRead(driver)))
  }

  /** "Update Entity": UpdateData indexes two field names; with fewer, once
      connected, it raises IndexError. */
  function UpdateEntity(entity: Entity, driver: Driver, calls: seq<PersistenceCall>): QueryRun
  {
    match entity.fieldNames
    case Missing => QueryRun(calls, RaisedError(AttributeError("field_names")))
    case Has(fieldNames) =>
      match entity.updateTuple
      case Missing => QueryRun(calls, RaisedError(AttributeError("update_tuple")))
      case Has(updateTuple) =>
        var updated := calls + [UpdateDataCall(fieldNames, updateTuple)];
        if |fieldNames| < 2 && driver.connects then QueryRun(updated, RaisedError(IndexError))
        else QueryRun(updated, FromBool(Written(driver)))
  }

  /** "Delete Entity": the key field and value go to DeleteData. */
  function DeleteEntity(entity: Entity, driver: Driver, calls: seq<PersistenceCall>): QueryRun
  {
    match entity.primaryKeyField
    case Missing => QueryRun(calls, RaisedError(AttributeError("primary_key_field")))
    case Has(primaryField) =>
      match entity.primaryValue
      case Missing => QueryRun(calls, RaisedError(AttributeError("primary_value")))
      case Has(primaryValue) =>
        QueryRun(calls + [DeleteDataCall(primaryField, primaryValue)], FromBool(Written(driver)))
  }

  // ---------------------------------------------------------------------------
  // Properties of perform_database_query
  // ---------------------------------------------------------------------------

  /** With an entity object, the table check always runs first and every
      other persistence object runs after it; at most two run after it. */
  lemma VerifyTableRunsFirst(userAction: string, entity: Entity, driver: Driver, lines: seq<Book.Line>)
    requires driver.WellFormed()
    ensures var run := DecideDatabaseQuery(userAction, Some(entity), driver, lines);
      1 <= |run.calls| <= 3 && run.calls[0] == VerifyTableCall &&
      forall i :: 0 < i < |run.calls| ==> run.calls[i] != VerifyTableCall
  {
    var verified := [VerifyTableCall];
    var run := DecideDatabaseQuery(userAction, Some(entity), driver, lines);
    BranchesRunAfter(entity, driver, lines, verified);
    assert RunsAfter(QueryRun(verified, ReturnedNone), verified);
    assert RunsAfter(run, verified);
    assert run.calls[..1] == verified;
  }

  /** Each action's branch keeps the calls made before it. */
  lemma BranchesRunAfter(entity: Entity, driver: Driver, lines: seq<Book.Line>, calls: seq<PersistenceCall>)
    requires driver.WellFormed()
    ensures RunsAfter(CreateDefaultTable(entity, calls), calls)
    ensures RunsAfter(CreateEntity(entity, driver, lines, calls), calls)
    ensures RunsAfter(ReadEntity(entity, driver, calls), calls)
    ensures RunsAfter(UpdateEntity(entity, driver, calls), calls)
    ensures RunsAfter(DeleteEntity(entity, driver, calls), calls)
  {
    CreateEntityRunsAfter(entity, driver, lines, calls);
  }

  /** "Create Entity" adds at most the last-id fetch and the insert. */
  lemma CreateEntityRunsAfter(entity: Entity, driver: Driver, lines: seq<Book.Line>, calls: seq<PersistenceCall>)
    requires driver.WellFormed()
    ensures RunsAfter(CreateEntity(entity, driver, lines, calls), calls)
  {
    if entity.intListValues.Has? && entity.textListValues.Has? && entity.floatListValues.Has? &&
       entity.primaryKeyData.Has? {
      var (name, keyType) := entity.primaryKeyData.value;
      var step := NewKey(name, keyType, driver, lines, calls);
      if step.KeyReady? {
        var added := step.keyed + [InsertDataCall([NewRow(step.key, entity.intListValues.value,
                                   entity.textListValues.value, entity.floatListValues.value)])];
        assert added[..|calls|] == calls;
      }
    }
  }

  /** A run that keeps the calls made so far and adds at most two calls, none
      of them a table check. */
  ghost predicate RunsAfter(run: QueryRun, calls: seq<PersistenceCall>)
  {
    |calls| <= |run.calls| <= |calls| + 2 && run.calls[..|calls|] == calls &&
    forall i :: |calls| <= i < |run.calls| ==> run.calls[i] != VerifyTableCall
  }

  /** A table the table check reports missing stops every action except "Create
      Default Table", before any other persistence object runs. */
  lemma MissingTableStops(userAction: string, entity: Entity, driver: Driver, lines: seq<Book.Line>)
    requires driver.WellFormed() && TableExists(driver) == Some(false)
    requires userAction != "Create Default Table"
    ensures DecideDatabaseQuery(userAction, Some(entity), driver, lines) == QueryRun([VerifyTableCall], ReturnedNone)
  {
  }

  /** "Create Default Table" creates the table exactly when the table check did not
      answer True and the object has all four attributes. It returns None,
      except that a missing attribute raises AttributeError, and only when the
      table was not reported present. A check that failed (None) counts as a
      missing table. */
  lemma CreateDefaultTableOnlyWhenMissing(entity: Entity, driver: Driver, lines: seq<Book.Line>)
    requires driver.WellFormed()
    ensures var run := DecideDatabaseQuery("Create Default Table", Some(entity), driver, lines);
      var complete := entity.primaryKey.Has? && entity.intList.Has? && entity.textList.Has? && entity.floatList.Has?;
      (run.outcome == ReturnedNone || (run.outcome.RaisedError? && run.outcome.error.AttributeError?)) &&
      (run.outcome.RaisedError? <==> TableExists(driver) != Some(true) && !complete) &&
      ((exists i :: 0 <= i < |run.calls| && run.calls[i].CreateTableCall?) <==>
         TableExists(driver) != Some(true) && complete)
  {
    var run := DecideDatabaseQuery("Create Default Table", Some(entity), driver, lines);
    if TableExists(driver) != Some(true) && entity.primaryKey.Has? && entity.intList.Has? &&
       entity.textList.Has? && entity.floatList.Has? {
      assert run.calls[1].CreateTableCall?;
    }
  }

  /** A read action goes to ReadData with the entity's fields, where-fields
      and search values unless the table check answered False, and then returns
      ReadData's rows. */
  lemma ReadActionsRoute(userAction: string, entity: Entity, driver: Driver, lines: seq<Book.Line>)
    requires driver.WellFormed()
    requires userAction == "Read Entity" || userAction == "Search Entity" || userAction == "Read All"
    requires entity.fieldsList.Has? && entity.whereFieldsList.Has? && entity.searchValues.Has?
    ensures DecideDatabaseQuery(userAction, Some(entity), driver, lines) ==
      if TableExists(driver) == Some(false) then QueryRun([VerifyTableCall], ReturnedNone)
      else QueryRun([VerifyTableCall, ReadDataCall(entity.fieldsList.value, entity.whereFieldsList.value,
                                                   entity.searchValues.value)],
                    FromRows(RowsRead(driver)))
  {
    assert userAction != "Create Default Table" && userAction != "Create Entity";
  }

  /** "Update Entity" goes to UpdateData with the entity's field names and
      update tuple unless the table check answered False; with fewer than two names
      and a connection it raises IndexError, otherwise it returns whether a
      row changed. */
  lemma UpdateRoutes(entity: Entity, driver: Driver, lines: seq<Book.Line>)
    requires driver.WellFormed()
    requires entity.fieldNames.Has? && entity.updateTuple.Has?
    ensures DecideDatabaseQuery("Update Entity", Some(entity), driver, lines) ==
      if TableExists(driver) == Some(false) then QueryRun([VerifyTableCall], ReturnedNone)
      else QueryRun([VerifyTableCall, UpdateDataCall(entity.fieldNames.value, entity.updateTuple.value)],
                    if |entity.fieldNames.value| < 2 && driver.connects then RaisedError(IndexError)
                    else FromBool(Written(driver)))
  {
  }

  /** "Delete Entity" goes to DeleteData with the entity's key field and value
      unless the table check answered False, and returns whether a row went. */
  lemma DeleteRoutes(entity: Entity, driver: Driver, lines: seq<Book.Line>)
    requires driver.WellFormed()
    requires entity.primaryKeyField.Has? && entity.primaryValue.Has?
    ensures DecideDatabaseQuery("Delete Entity", Some(entity), driver, lines) ==
      if TableExists(driver) == Some(false) then QueryRun([VerifyTableCall], ReturnedNone)
      else QueryRun([VerifyTableCall, DeleteDataCall(entity.primaryKeyField.value, entity.primaryValue.value)],
                    FromBool(Written(driver)))
  {
  }

  /** "Create Entity" stops after the table check with None exactly when the table check
      answered False; otherwise it fetches the last id for an "int" key, or
      inserts unless the typed key ran out of input. */
  lemma CreateEntityRoutes(entity: Entity, driver: Driver, lines: seq<Book.Line>)
    requires driver.WellFormed()
    requires entity.intListValues.Has? && entity.textListValues.Has? && entity.floatListValues.Has? &&
             entity.primaryKeyData.Has?
    ensures var run := DecideDatabaseQuery("Create Entity", Some(entity), driver, lines);
      (run == QueryRun([VerifyTableCall], ReturnedNone) <==> TableExists(driver) == Some(false)) &&
      (TableExists(driver) != Some(false) && entity.primaryKeyData.value.1 == "int" ==>
         |run.calls| >= 2 && run.calls[1] == ReturnLastIdCall(entity.primaryKeyData.value.0)) &&
      (TableExists(driver) != Some(false) && entity.primaryKeyData.value.1 != "int" ==>
         run.outcome == RaisedError(EOFError) || (|run.calls| == 2 && run.calls[1].InsertDataCall?))
  {
  }

  /** A check that failed (None) is not `False`: the other actions go ahead. */
  lemma FailedCheckDoesNotStop(entity: Entity, driver: Driver, lines: seq<Book.Line>)
    requires driver.WellFormed() && TableExists(driver).None?
    requires entity.fieldsList.Has? && entity.whereFieldsList.Has? && entity.searchValues.Has?
    ensures DecideDatabaseQuery("Read Entity", Some(entity), driver, lines).calls ==
      [VerifyTableCall, ReadDataCall(entity.fieldsList.value, entity.whereFieldsList.value, entity.searchValues.value)]
  {
  }

  /** An action outside the dispatcher's vocabulary runs the table check only
      and returns None. */
  lemma UnknownActionDoesNothing(userAction: string, entity: Entity, driver: Driver, lines: seq<Book.Line>)
    requires driver.WellFormed() && userAction !in Actions
    ensures DecideDatabaseQuery(userAction, Some(entity), driver, lines) == QueryRun([VerifyTableCall], ReturnedNone)
  {
  }

  /** "Create Entity" inserts one row: the new key followed by the integer,
      text and float values, and returns what InsertData returns. */
  lemma CreateEntityInsertsOneRow(entity: Entity, driver: Driver, lines: seq<Book.Line>)
    requires driver.WellFormed() && TableExists(driver) != Some(false)
    ensures var run := DecideDatabaseQuery("Create Entity", Some(entity), driver, lines);
      run.calls[|run.calls| - 1].InsertDataCall? ==>
        entity.intListValues.Has? && entity.textListValues.Has? && entity.floatListValues.Has? &&
        |run.calls[|run.calls| - 1].rowDataList| == 1 &&
        var row := run.calls[|run.calls| - 1].rowDataList[0];
        var ints := entity.intListValues.value;
        var texts := entity.textListValues.value;
        var floats := entity.floatListValues.value;
        |row| == 1 + |ints| + |texts| + |floats| &&
        row[1..1 + |ints|] == ints &&
        row[1 + |ints|..1 + |ints| + |texts|] == texts &&
        row[1 + |ints| + |texts|..] == floats &&
        run.outcome == FromBool(Written(driver))
  {
    var run := DecideDatabaseQuery("Create Entity", Some(entity), driver, lines);
    if run.calls[|run.calls| - 1].InsertDataCall? {
      var row := run.calls[|run.calls| - 1].rowDataList[0];
      var ints := entity.intListValues.value;
      var texts := entity.textListValues.value;
      var floats := entity.floatListValues.value;
      assert row == [row[0]] + ints + texts + floats;
      assert row[1..1 + |ints|] == ints;
      assert row[1 + |ints|..1 + |ints| + |texts|] == texts;
      assert row[1 + |ints| + |texts|..] == floats;
    }
  }

  /** An integer key is the largest key in the table plus one (1 for an empty
      table), when the driver answers the "ORDER BY key DESC LIMIT 1" fetch
      faithfully over the table's rows. */
  lemma IntegerKeyFollowsLargest(entity: Entity, driver: Driver, lines: seq<Book.Line>, table: Persistence.Table,
                                 keyName: string)
    requires driver.WellFormed() && TableExists(driver) != Some(false) && driver.connects
    requires entity.intListValues.Has? && entity.textListValues.Has? && entity.floatListValues.Has?
    requires entity.primaryKeyData == Has((keyName, "int"))
    requires driver.lastIdReply.Returned?
    requires Persistence.IntegerKeyed(table.rows) && Persistence.IsTopByKey(driver.lastIdReply.value, table.rows)
    ensures var run := DecideDatabaseQuery("Create Entity", Some(entity), driver, lines);
      run.calls[1] == ReturnLastIdCall(keyName) &&
      run.calls[2] == InsertDataCall([NewRow(IntV(if table.rows == [] then 1 else Persistence.MaxKey(table.rows) + 1),
                                             entity.intListValues.value, entity.textListValues.value,
                                             entity.floatListValues.value)])
  {
    var last := if table.rows == [] then 0 else Persistence.MaxKey(table.rows);
    Persistence.LastIdIsMaxKey(driver.lastIdReply.value, table);
    assert LastId(driver) == Some(IntV(last));
    IntegerKeyAfterLastId(entity, driver, lines, keyName, last);
    assert IntV(last + 1) == IntV(if table.rows == [] then 1 else Persistence.MaxKey(table.rows) + 1);
  }

  /** With an integer key and a last id `last`, the new row is keyed `last + 1`. */
  lemma IntegerKeyAfterLastId(entity: Entity, driver: Driver, lines: seq<Book.Line>, keyName: string, last: int)
    requires driver.WellFormed() && TableExists(driver) != Some(false) && LastId(driver) == Some(IntV(last))
    requires entity.intListValues.Has? && entity.textListValues.Has? && entity.floatListValues.Has?
    requires entity.primaryKeyData == Has((keyName, "int"))
    ensures DecideDatabaseQuery("Create Entity", Some(entity), driver, lines).calls
      == [VerifyTableCall, ReturnLastIdCall(keyName),
          InsertDataCall([NewRow(IntV(last + 1), entity.intListValues.value, entity.textListValues.value,
                                 entity.floatListValues.value)])]
  {
    assert NewKey(keyName, "int", driver, lines, [VerifyTableCall])
        == KeyReady(IntV(last + 1), [VerifyTableCall, ReturnLastIdCall(keyName)]);
  }

  /** An integer key with no last id (the fetch failed) raises TypeError, and
      nothing is inserted. */
  lemma NoLastIdRaisesTypeError(entity: Entity, driver: Driver, lines: seq<Book.Line>, keyName: string)
    requires driver.WellFormed() && TableExists(driver) != Some(false) && LastId(driver).None?
    requires entity.intListValues.Has? && entity.textListValues.Has? && entity.floatListValues.Has?
    requires entity.primaryKeyData == Has((keyName, "int"))
    ensures DecideDatabaseQuery("Create Entity", Some(entity), driver, lines) ==
      QueryRun([VerifyTableCall, ReturnLastIdCall(keyName)], RaisedError(TypeError))
  {
  }

  /** A key of any other type is the first non-empty line typed; the lines
      before it were empty. */
  lemma TypedKeyIsFirstNonEmptyLine(entity: Entity, driver: Driver, lines: seq<Book.Line>, keyName: string,
                                    keyType: string)
    requires driver.WellFormed() && TableExists(driver) != Some(false) && keyType != "int"
    requires entity.intListValues.Has? && entity.textListValues.Has? && entity.floatListValues.Has?
    requires entity.primaryKeyData == Has((keyName, keyType))
    ensures var run := DecideDatabaseQuery("Create Entity", Some(entity), driver, lines);
      |run.calls| == 2 ==>
        exists k :: 0 <= k < |lines| && lines[k].text != "" &&
          run.calls[1].rowDataList[0][0] == TextV(lines[k].text) &&
          forall j :: 0 <= j < k ==> lines[j].text == ""
  {
    var run := DecideDatabaseQuery("Create Entity", Some(entity), driver, lines);
    Book.FirstAcceptedMeaning(lines, Book.NonEmptyText());
    var p := Book.FirstAccepted(lines, Book.NonEmptyText());
    if |run.calls| == 2 {
      var k := p.consumed - 1;
      assert Book.NonEmptyText()(lines[k]) == Book.Accept(p.value);
      forall j | 0 <= j < k ensures lines[j].text == "" {
        assert Book.NonEmptyText()(lines[j]) == Book.Reject(p.rejections[j]);
      }
    }
  }

  // ---------------------------------------------------------------------------
  // Choosing the entity object
  // ---------------------------------------------------------------------------

  /** initialise_entity: the books controller's object for "books", None for
      every other table. */
  function InitialiseEntitySpec(tableName: string, userAction: string, lines: seq<Book.Line>)
    : Book.Construction<Option<Entity>>
  {
    if tableName == "books" then Book.CrudInstanceSpec(userAction, lines)
    else Book.Constructed(None, 0)
  }

  /** The book controller knows "Create Default Table", "Create Book" and
      "Search Book", while the dispatcher acts on "Create Entity", "Read
      Entity", "Search Entity", "Read All", "Update Entity" and "Delete
      Entity": for the books table every one of those gives no entity, and the
      query then does nothing. */
  lemma BooksServeOnlyCreateDefaultTable(userAction: string, driver: Driver, lines: seq<Book.Line>,
                                         later: seq<Book.Line>)
    requires driver.WellFormed() && userAction in Actions && userAction != "Create Default Table"
    ensures InitialiseEntitySpec("books", userAction, lines) == Book.Constructed(None, 0)
    ensures DecideDatabaseQuery(userAction, InitialiseEntitySpec("books", userAction, lines).value, driver, later)
         == QueryRun([], ReturnedNone)
  {
  }

  /** "Create Default Table" on "books" never creates the table: when the
      check does not answer True, reading `float_list`, which the default book
      table object does not have, raises AttributeError. */
  lemma DefaultBookTableLacksFloatList(driver: Driver, lines: seq<Book.Line>)
    requires driver.WellFormed() && TableExists(driver) != Some(true)
    ensures InitialiseEntitySpec("books", "Create Default Table", lines)
         == Book.Constructed(Some(Book.DefaultBookTable.Attributes()), 0)
    ensures DecideDatabaseQuery("Create Default Table", Some(Book.DefaultBookTable.Attributes()), driver, lines)
         == QueryRun([VerifyTableCall], RaisedError(AttributeError("float_list")))
  {
  }

  /** An unknown table name gives no entity object, reading no input. */
  lemma UnknownTableHasNoEntity(tableName: string, userAction: string, lines: seq<Book.Line>)
    requires tableName != "books"
    ensures InitialiseEntitySpec(tableName, userAction, lines) == Book.Constructed(None, 0)
  {
  }

  // ---------------------------------------------------------------------------
  // The three classes
  // ---------------------------------------------------------------------------

  class EntityControl {
    const tableName: string
    const userAction: string

    constructor (tableName: string, userAction: string)
      ensures this.tableName == tableName && this.userAction == userAction
    {
      this.tableName := tableName;
      this.userAction := userAction;
    }

    /** Asks the entity controller for the table to build the object for the
        action (for "books", BookController). */
    method InitialiseEntity(lines: seq<Book.Line>) returns (r: Book.Construction<Option<Entity>>)
      ensures r == InitialiseEntitySpec(tableName, userAction, lines)
      ensures r.Constructed? ==> r.consumed <= |lines|
    {
      if tableName == "books" {
        var bookController := new Book.BookController(userAction);
        r := bookController.CreateCrudInstance(lines);
        CrudInstanceReadsTypedLines(userAction, lines);
      } else {
        r := Book.Constructed(None, 0);
      }
    }
  }

  /** The entity object never reads more lines than were typed. */
  lemma CrudInstanceReadsTypedLines(bookAction: string, lines: seq<Book.Line>)
    ensures var r := Book.CrudInstanceSpec(bookAction, lines);
      r.Constructed? ==> r.consumed <= |lines|
  {
    Book.CreateBookValid(lines);
    Book.SearchFoundMeaning(Book.DefaultSearchInts, Book.DefaultSearchTexts, Book.DefaultSearchFloats, lines);
  }

  class PersistanceSingleKeyControl {
    const databaseName: string
    const tableName: string
    const userAction: string
    const entityObject: Option<Entity>

    constructor (databaseName: string, tableName: string, userAction: string, entityObject: Option<Entity>)
      ensures this.databaseName == databaseName && this.tableName == tableName
      ensures this.userAction == userAction && this.entityObject == entityObject
    {
      this.databaseName := databaseName;
      this.tableName := tableName;
      this.userAction := userAction;
      this.entityObject := entityObject;
    }

    /** Builds and executes the persistence objects for the action, each on its
        own connection. `issued` is what those objects handed to the driver,
        in order. */
    method PerformDatabaseQuery(driver: Driver, lines: seq<Book.Line>)
      returns (run: QueryRun, issued: seq<Persistence.DriverCall>)
      requires driver.WellFormed()
      ensures run == DecideDatabaseQuery(userAction, entityObject, driver, lines)
      ensures issued == RunStatements(run.calls, tableName, driver)
    {
      if entityObject.None? {
        return QueryRun([], ReturnedNone), [];
      }
      var entity := entityObject.value;
      var verify := new Persistence.VerifyTable(databaseName, tableName, driver.connects);
      var tableExists := verify.Execute(driver.verifyReply);
      assert tableExists.Some? ==> tableExists.value == TableExists(driver).value;
      assert tableExists == TableExists(driver);
      var verified := [VerifyTableCall];
      issued := verify.query.issued;
      assert issued == RunStatements(verified, tableName, driver);
      var more;
      run, more := RunAction(entity, tableExists, driver, lines);
      assert run.calls == verified + run.calls[|verified|..];
      RunStatementsAppend(verified, run.calls[|verified|..], tableName, driver);
      issued := issued + more;
    }

    /** The branch for the action, once the table check has answered. */
    method RunAction(entity: Entity, tableExists: Option<bool>, driver: Driver, lines: seq<Book.Line>)
      returns (run: QueryRun, issued: seq<Persistence.DriverCall>)
      requires driver.WellFormed() && tableExists == TableExists(driver)
      ensures run == DecideDatabaseQuery(userAction, Some(entity), driver, lines)
      ensures 1 <= |run.calls| && run.calls[..1] == [VerifyTableCall]
      ensures issued == AddedStatements(run, [VerifyTableCall], driver)
    {
      var verified := [VerifyTableCall];
      run := QueryRun(verified, ReturnedNone);
      issued := [];
      assert run.calls[|verified|..] == [];
      if userAction == "Create Default Table" {
        if tableExists != Some(true) {
          run, issued := RunCreateDefaultTable(entity, driver, verified);
        }
      } else if tableExists == Some(false) {
      } else if userAction == "Create Entity" {
        run, issued := RunCreateEntity(entity, driver, lines, verified);
      } else if userAction == "Read Entity" || userAction == "Search Entity" || userAction == "Read All" {
        run, issued := RunReadEntity(entity, driver, verified);
      } else if userAction == "Update Entity" {
        run, issued := RunUpdateEntity(entity, driver, verified);
      } else if userAction == "Delete Entity" {
        run, issued := RunDeleteEntity(entity, driver, verified);
      }
    }

    /** The statements of the calls a branch added after `calls`. */
    function AddedStatements(run: QueryRun, calls: seq<PersistenceCall>, driver: Driver): seq<Persistence.DriverCall>
      requires |calls| <= |run.calls|
    {
      RunStatements(run.calls[|calls|..], tableName, driver)
    }

    method RunCreateDefaultTable(entity: Entity, driver: Driver, calls: seq<PersistenceCall>)
      returns (run: QueryRun, issued: seq<Persistence.DriverCall>)
      ensures run == CreateDefaultTable(entity, calls)
      ensures |calls| <= |run.calls| && run.calls[..|calls|] == calls
      ensures issued == AddedStatements(run, calls, driver)
    {
      if entity.primaryKey.Missing? || entity.intList.Missing? || entity.textList.Missing? ||
         entity.floatList.Missing? {
        run := CreateDefaultTable(entity, calls);
        assert run.calls[|calls|..] == [];
        return run, [];
      }
      var create := new Persistence.CreateTableSingleKey(databaseName, tableName, entity.primaryKey.value,
        entity.intList.value, entity.textList.value, entity.floatList.value, driver.connects);
      create.Execute(driver.createReply);
      var call := CreateTableCall(create.primaryKey, create.intList, create.textList, create.floatList);
      run := QueryRun(calls + [call], ReturnedNone);
      issued := create.query.issued;
      assert run.calls[|calls|..] == [call];
      RunStatementsOne(call, tableName, driver);
    }

    method RunCreateEntity(entity: Entity, driver: Driver, lines: seq<Book.Line>, calls: seq<PersistenceCall>)
      returns (run: QueryRun, issued: seq<Persistence.DriverCall>)
      requires driver.WellFormed()
      ensures run == CreateEntity(entity, driver, lines, calls)
      ensures |calls| <= |run.calls| && run.calls[..|calls|] == calls
      ensures issued == AddedStatements(run, calls, driver)
    {
      if entity.intListValues.Missing? || entity.textListValues.Missing? ||
         entity.floatListValues.Missing? || entity.primaryKeyData.Missing? {
        run := CreateEntity(entity, driver, lines, calls);
        assert run.calls[|calls|..] == [];
        return run, [];
      }
      var intValues := entity.intListValues.value;
      var textValues := entity.textListValues.value;
      var floatValues := entity.floatListValues.value;
      var (primaryKeyName, primaryKeyType) := entity.primaryKeyData.value;
      var step;
      step, issued := RunNewKey(primaryKeyName, primaryKeyType, driver, lines, calls);
      if step.KeyFailed? {
        return step.run, issued;
      }
      ghost var expected := QueryRun(step.keyed + [InsertDataCall([NewRow(step.key, intValues, textValues, floatValues)])],
                                     FromBool(Written(driver)));
      assert CreateEntity(entity, driver, lines, calls) == expected;
      var more;
      run, more := RunInsert(NewRow(step.key, intValues, textValues, floatValues), driver, step.keyed);
      RunStatementsAppend(step.keyed[|calls|..], run.calls[|step.keyed|..], tableName, driver);
      assert run.calls[|calls|..] == step.keyed[|calls|..] + run.calls[|step.keyed|..];
      issued := issued + more;
    }

    /** InsertData with the one new row; its result is whether a row was
        added. */
    method RunInsert(row: Row, driver: Driver, calls: seq<PersistenceCall>)
      returns (run: QueryRun, issued: seq<Persistence.DriverCall>)
      ensures run == QueryRun(calls + [InsertDataCall([row])], FromBool(Written(driver)))
      ensures issued == AddedStatements(run, calls, driver)
    {
      var insert := new Persistence.InsertData(databaseName, tableName, [row], driver.connects);
      var inserted := insert.Execute(driver.writeReply);
      assert inserted.Some? ==> inserted.value == Written(driver).value;
      assert inserted == Written(driver);
      var call := InsertDataCall(insert.rowDataList);
      run := QueryRun(calls + [call], FromBool(inserted));
      issued := insert.query.issued;
      assert run.calls[|calls|..] == [call];
      RunStatementsOne(call, tableName, driver);
    }

    /** Obtains the key of the new row: ReturnLastId's value plus one for an
        "int" key, otherwise the first non-empty line typed. */
    method RunNewKey(primaryKeyName: string, primaryKeyType: string, driver: Driver, lines: seq<Book.Line>,
                     calls: seq<PersistenceCall>)
      returns (step: KeyStep, issued: seq<Persistence.DriverCall>)
      requires driver.WellFormed()
      ensures step == NewKey(primaryKeyName, primaryKeyType, driver, lines, calls)
      ensures step.KeyFailed? ==> |calls| <= |step.run.calls| && step.run.calls[..|calls|] == calls &&
                                  issued == AddedStatements(step.run, calls, driver)
      ensures step.KeyReady? ==> |calls| <= |step.keyed| && step.keyed[..|calls|] == calls &&
                                 issued == RunStatements(step.keyed[|calls|..], tableName, driver)
    {
      if primaryKeyType == "int" {
        var lastIdQuery := new Persistence.ReturnLastId(databaseName, tableName, primaryKeyName, driver.connects);
        var lastId := lastIdQuery.Execute(driver.lastIdReply);
        assert lastId == LastId(driver);
        var call := ReturnLastIdCall(lastIdQuery.primaryKey);
        var keyed := calls + [call];
        issued := lastIdQuery.query.issued;
        assert keyed[|calls|..] == [call];
        RunStatementsOne(call, tableName, driver);
        var next := NextKey(lastId);
        if next.None? {
          return KeyFailed(QueryRun(keyed, RaisedError(TypeError))), issued;
        }
        return KeyReady(next.value, keyed), issued;
      }
      var typed := Book.PromptUntilAccepted(lines, Book.NonEmptyText());
      assert calls[|calls|..] == [];
      if typed.InputEnded? {
        return KeyFailed(QueryRun(calls, RaisedError(EOFError))), [];
      }
      return KeyReady(TextV(typed.value), calls), [];
    }

    method RunReadEntity(entity: Entity, driver: Driver, calls: seq<PersistenceCall>)
      returns (run: QueryRun, issued: seq<Persistence.DriverCall>)
      ensures run == ReadEntity(entity, driver, calls)
      ensures |calls| <= |run.calls| && run.calls[..|calls|] == calls
      ensures issued == AddedStatements(run, calls, driver)
    {
      if entity.fieldsList.Missing? || entity.whereFieldsList.Missing? || entity.searchValues.Missing? {
        run := ReadEntity(entity, driver, calls);
        assert run.calls[|calls|..] == [];
        return run, [];
      }
      var read := new Persistence.ReadData(databaseName, tableName, entity.fieldsList.value,
        entity.whereFieldsList.value, entity.searchValues.value, driver.connects);
      var rows := read.Execute(driver.rowsReply, driver.columnsReply);
      assert rows == RowsRead(driver);
      var call := ReadDataCall(read.fieldsList, read.whereFieldsList, read.searchVals);
      run := QueryRun(calls + [call], FromRows(rows));
      issued := read.query.issued;
      assert run.calls[|calls|..] == [call];
      RunStatementsOne(call, tableName, driver);
    }

    method RunUpdateEntity(entity: Entity, driver: Driver, calls: seq<PersistenceCall>)
      returns (run: QueryRun, issued: seq<Persistence.DriverCall>)
      ensures run == UpdateEntity(entity, driver, calls)
      ensures |calls| <= |run.calls| && run.calls[..|calls|] == calls
      ensures issued == AddedStatements(run, calls, driver)
    {
      if entity.fieldNames.Missing? || entity.updateTuple.Missing? {
        run := UpdateEntity(entity, driver, calls);
        assert run.calls[|calls|..] == [];
        return run, [];
      }
      var update := new Persistence.UpdateData(databaseName, tableName, entity.fieldNames.value,
                                               entity.updateTuple.value, driver.connects);
      var result, raisedIndexError := update.Execute(driver.writeReply);
      var call := UpdateDataCall(update.fieldNames, update.updateTuple);
      issued := update.query.issued;
      assert (calls + [call])[|calls|..] == [call];
      RunStatementsOne(call, tableName, driver);
      if raisedIndexError {
        return QueryRun(calls + [call], RaisedError(IndexError)), issued;
      }
      assert result.Some? ==> result.value == Written(driver).value;
      assert result == Written(driver);
      run := QueryRun(calls + [call], FromBool(result));
    }

    method RunDeleteEntity(entity: Entity, driver: Driver, calls: seq<PersistenceCall>)
      returns (run: QueryRun, issued: seq<Persistence.DriverCall>)
      ensures run == DeleteEntity(entity, driver, calls)
      ensures |calls| <= |run.calls| && run.calls[..|calls|] == calls
      ensures issued == AddedStatements(run, calls, driver)
    {
      if entity.primaryKeyField.Missing? || entity.primaryValue.Missing? {
        run := DeleteEntity(entity, driver, calls);
        assert run.calls[|calls|..] == [];
        return run, [];
      }
      var delete := new Persistence.DeleteData(databaseName, tableName, entity.primaryKeyField.value,
                                               entity.primaryValue.value, driver.connects);
      var deleted := delete.Execute(driver.writeReply);
      assert deleted.Some? ==> deleted.value == Written(driver).value;
      assert deleted == Written(driver);
      var call := DeleteDataCall(delete.primaryKey, delete.keyValue);
      run := QueryRun(calls + [call], FromBool(deleted));
      issued := delete.query.issued;
      assert run.calls[|calls|..] == [call];
      RunStatementsOne(call, tableName, driver);
    }
  }

  class EntityPersistanceSingleKeyControl {
    const databaseName: string
    const tableName: string
    const userAction: string
    const entityObject: Option<Entity>
    const persistanceObject: PersistanceSingleKeyControl

    /** The persistence control object works on this object's names, action
        and entity. */
    predicate Valid()
    {
      persistanceObject.databaseName == databaseName && persistanceObject.tableName == tableName &&
      persistanceObject.userAction == userAction && persistanceObject.entityObject == entityObject
    }

    /** Stores the names and the entity object built by initialise_entity, and
        the persistence control object over them. */
    constructor (databaseName: string, tableName: string, userAction: string, entityObject: Option<Entity>)
      ensures Valid() && fresh(persistanceObject)
      ensures this.databaseName == databaseName && this.tableName == tableName
      ensures this.userAction == userAction && this.entityObject == entityObject
    {
      this.databaseName := databaseName;
      this.tableName := tableName;
      this.userAction := userAction;
      this.entityObject := entityObject;
      this.persistanceObject := new PersistanceSingleKeyControl(databaseName, tableName, userAction, entityObject);
    }

    method CreateAndExecuteQuery(driver: Driver, lines: seq<Book.Line>)
      returns (run: QueryRun, issued: seq<Persistence.DriverCall>)
      requires Valid() && driver.WellFormed()
      ensures run == DecideDatabaseQuery(userAction, entityObject, driver, lines)
      ensures issued == RunStatements(run.calls, tableName, driver)
    {
      run, issued := persistanceObject.PerformDatabaseQuery(driver, lines);
    }
  }

  /** `EntityPersistanceSingleKeyControl(database_name, table_name,
      user_action)`: the entity object's prompts run first, and EOFError raised
      there leaves no object. */
  method NewEntityPersistanceSingleKeyControl(databaseName: string, tableName: string, userAction: string,
                                              lines: seq<Book.Line>)
    returns (r: Book.Construction<EntityPersistanceSingleKeyControl>)
    ensures r.RaisedEOF? <==> InitialiseEntitySpec(tableName, userAction, lines).RaisedEOF?
    ensures r.Constructed? ==>
      var spec := InitialiseEntitySpec(tableName, userAction, lines);
      fresh(r.value) && r.value.Valid() && r.consumed == spec.consumed &&
      r.value.databaseName == databaseName && r.value.tableName == tableName &&
      r.value.userAction == userAction && r.value.entityObject == spec.value
  {
    var entityControl := new EntityControl(tableName, userAction);
    var entity := entityControl.InitialiseEntity(lines);
    if entity.RaisedEOF? {
      return Book.RaisedEOF;
    }
    var control := new EntityPersistanceSingleKeyControl(databaseName, tableName, userAction, entity.value);
    return Book.Constructed(control, entity.consumed);
  }
}
