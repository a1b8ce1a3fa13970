# Book stock inventory: persistence, book entity and dispatcher, in Dafny

This project models the core of a small console application that keeps a
book inventory in an sqlite database. It covers three parts:

- **The single-key persistence layer** (`PersistenceSingleKey`,
  `persistence.dfy`).
  - A `DatabaseController` opens and closes one connection.
  - Each query class connects in its constructor. Its `execute()` builds a SQL
    string, hands it to the driver and maps the driver's answer to a uniform
    result: None, a boolean, a list of rows or a key value. It then closes
    the connection.
  - The classes are CreateTableSingleKey, VerifyTable, InsertData, ReadData,
    UpdateData, DeleteData and ReturnLastId.
  - The query text is stated as functions, and the `+=` loops that build it
    are proved equal to them. Each `execute()` records the statements it
    issues. It is proved to close the connection exactly once when one was
    opened, and to issue nothing otherwise.
- **The book entity** (`Book`, `book.dfy`).
  - `BookController` picks the object to build for an action.
  - The default table object carries the field lists "id", ["quantity"] and
    ["title", "author"].
  - `CreateBook` prompts for a title, an author and a quantity of at least 0.
  - `BookSearch` builds a numbered list of search fields, reads an option
    number and a search value, and stores them as its where-field and search
    value.
  - Every `while True` prompt loop is one generic loop, proved equal to the
    reference function `FirstAccepted`: the first line its test accepts,
    with the reason each earlier line was refused.
- **The dispatcher** (`EntityPersistanceMatcherControl`, `dispatcher.dfy`).
  - `initialise_entity` maps a table name and action to an entity object.
  - `perform_database_query` runs the table check, then the persistence
    object for the action, with the entity object's attributes.
  - The decision procedure is the function `DecideDatabaseQuery`. The class
    methods build and execute the real persistence objects. They are proved to
    produce exactly the run and result that the function describes, and the
    statements those objects hand to the driver are proved to be exactly the
    ones the recorded calls stand for (`Statements`).

Console input is the sequence of lines still to be typed. Each line carries
what Python's `int()` and `float()` make of it. A prompt that runs out of
lines stands for `input()` raising EOFError. The sqlite driver is a
parameter: whether the database opens, and what each kind of driver call
returns, or that it raised an error the layer catches.

The model keeps these behaviours of the code as written, as proved lemmas:
- A failed table check (None) counts as a missing table for "Create Default
  Table", but does not stop the other actions. Only `False` stops them.
- An integer key whose last id could not be read raises TypeError, because
  it computes `None + 1`.
- The default book table object has no `float_list`. So "Create Default
  Table" on "books" raises AttributeError whenever the table is missing, and
  never creates it.
- The book controller's actions ("Create Book", "Search Book") are not the
  dispatcher's ("Create Entity", "Search Entity", …). So for "books", every
  dispatcher action except "Create Default Table" yields no entity and does
  nothing.

## Model

| member | source | states |
|---|---|---|
| PersistenceSingleKey.JoinSnoc | Modules/persistance_layer/persistence_classes_single_key.py:660-665 | joining one more part onto a non-empty list appends the separator and that part, which is what each `+=` step of the query loops does |
| PersistenceSingleKey.AppendColumnDecls | Modules/persistance_layer/persistence_classes_single_key.py:373-383 | the `for field in list: query += ", f TYPE NOT NULL"` loop extends the comma-joined declaration list by one declaration per field, in list order |
| PersistenceSingleKey.BuildCreateTableQuery | Modules/persistance_layer/persistence_classes_single_key.py:366-386 | the CREATE text built step by step is the key declared INTEGER NOT NULL PRIMARY KEY, then the integer, text and real declarations in list order, joined by ", " and closed by ")" |
| PersistenceSingleKey.CreateTableQueryStart | Modules/persistance_layer/persistence_classes_single_key.py:368-386 | every CREATE statement starts "CREATE TABLE IF NOT EXISTS T(pk INTEGER NOT NULL PRIMARY KEY" and ends with ")", whatever the field lists |
| PersistenceSingleKey.CreateTableColumnCount | Modules/persistance_layer/persistence_classes_single_key.py:373-383 | a `None` list declares the same as an empty one, and the statement declares one column for the key plus one per listed field |
| PersistenceSingleKey.BuildInsertQuery | Modules/persistance_layer/persistence_classes_single_key.py:545-555 | the INSERT text is "INSERT INTO T VALUES( " followed by one "?" per value of the first tuple, separated by ", ", and ")" |
| PersistenceSingleKey.PlaceholdersShape | Modules/persistance_layer/persistence_classes_single_key.py:548-553 | the marker text for k values has length 3k-2 and reads "?, ?, …, ?": '?' at every position divisible by 3, then ',' and ' ' |
| PersistenceSingleKey.AppendWhereClause | Modules/persistance_layer/persistence_classes_single_key.py:658-665 | the where loop appends the tests joined by " AND ", with no " AND " after the last test |
| PersistenceSingleKey.WhereClauseShape | Modules/persistance_layer/persistence_classes_single_key.py:660-665 | a single field gives "f = ? ", and each further field adds " AND " and its own test |
| PersistenceSingleKey.BuildReadQuery | Modules/persistance_layer/persistence_classes_single_key.py:654-665 | the SELECT lists the fields joined by ", ", and adds " WHERE " and the where clause exactly when a where-list is given |
| PersistenceSingleKey.MaxKey | Modules/persistance_layer/persistence_classes_single_key.py:945-946 | the greatest key of a non-empty integer-keyed table: no row has a larger key, and some row has this one |
| PersistenceSingleKey.LastIdIsMaxKey | Modules/persistance_layer/persistence_classes_single_key.py:945-953 | if the driver answers "ORDER BY key DESC LIMIT 1" faithfully, ReturnLastId yields 0 for an empty table and the table's greatest key otherwise |
| PersistenceSingleKey.DatabaseController.constructor | Modules/persistance_layer/persistence_classes_single_key.py:168-179 | a new controller holds no connection |
| PersistenceSingleKey.DatabaseController.OpenConnectionAndCreateCursor | Modules/persistance_layer/persistence_classes_single_key.py:181-205 | a cursor is returned iff the database opens; a failed open leaves the connection as it was |
| PersistenceSingleKey.DatabaseController.CloseConnection | Modules/persistance_layer/persistence_classes_single_key.py:207-220 | the connection is closed, and the number of closes goes up by one |
| PersistenceSingleKey.DataBaseQuery.constructor | Modules/persistance_layer/persistence_classes_single_key.py:254-278 | a query object starts unconnected, with its own fresh controller for the database and nothing issued |
| PersistenceSingleKey.DataBaseQuery.CreateDatabaseConnection | Modules/persistance_layer/persistence_classes_single_key.py:284-291 | the object counts as connected iff the controller returned a cursor; nothing is issued or closed |
| PersistenceSingleKey.CreateTableSingleKey.constructor | Modules/persistance_layer/persistence_classes_single_key.py:320-344 | stores the key and field lists and attempts the connection |
| PersistenceSingleKey.CreateTableSingleKey.Execute | Modules/persistance_layer/persistence_classes_single_key.py:346-398 | when connected, issues exactly the CREATE statement and closes once, whether or not the driver raised; otherwise issues and closes nothing |
| PersistenceSingleKey.VerifyTable.constructor | Modules/persistance_layer/persistence_classes_single_key.py:421-435 | stores the names and attempts the connection |
| PersistenceSingleKey.VerifyTable.Execute | Modules/persistance_layer/persistence_classes_single_key.py:437-478 | issues the sqlite_master count query and closes once; True iff the count is exactly 1, False for any other count, None without a connection or after a caught error |
| PersistenceSingleKey.InsertData.constructor | Modules/persistance_layer/persistence_classes_single_key.py:502-520 | stores the tuples and attempts the connection |
| PersistenceSingleKey.InsertData.Execute | Modules/persistance_layer/persistence_classes_single_key.py:522-578 | `execute` for one tuple and `executemany` for several, sized by the first tuple, then commit and one close; True iff the row count is positive, None without a connection or after a caught error |
| PersistenceSingleKey.ReadData.constructor | Modules/persistance_layer/persistence_classes_single_key.py:605-629 | stores the fields, where-fields and search values, and attempts the connection |
| PersistenceSingleKey.ReadData.Execute | Modules/persistance_layer/persistence_classes_single_key.py:631-707 | the search values are passed iff a where-list is given; no matching rows give the empty list; otherwise the result is the column names of the whole table (from a second `SELECT *`), then the rows; None without a connection or after a caught error; one close |
| PersistenceSingleKey.UpdateData.constructor | Modules/persistance_layer/persistence_classes_single_key.py:731-751 | stores the field names and update tuple and attempts the connection |
| PersistenceSingleKey.UpdateData.Execute | Modules/persistance_layer/persistence_classes_single_key.py:753-792 | "UPDATE T SET f0 = ? WHERE f1  = ?" (two spaces) with the update tuple, commit and one close; True iff the row count is positive; once connected, fewer than two field names raise IndexError, issue nothing and still close |
| PersistenceSingleKey.DeleteData.constructor | Modules/persistance_layer/persistence_classes_single_key.py:817-837 | stores the key field and value and attempts the connection |
| PersistenceSingleKey.DeleteData.Execute | Modules/persistance_layer/persistence_classes_single_key.py:839-879 | "DELETE FROM T WHERE pk = ?" with the key value as a one-tuple, commit and one close; True iff the row count is positive, None without a connection or after a caught error |
| PersistenceSingleKey.ReturnLastId.constructor | Modules/persistance_layer/persistence_classes_single_key.py:904-921 | stores the key field and attempts the connection |
| PersistenceSingleKey.ReturnLastId.Execute | Modules/persistance_layer/persistence_classes_single_key.py:923-965 | issues the "ORDER BY key DESC LIMIT 1" query and closes once; 0 for no row, otherwise column 0 of the fetched row; None without a connection or after a caught error |
| Book.FirstAcceptedMeaning | Modules/business_logic/book.py:164-170 | a prompt loop accepts the first line its test accepts; every earlier line was refused, and the refusal is recorded with its reason; the input runs out only if every line was refused |
| Book.PromptUntilAccepted | Modules/business_logic/book.py:164-170 | the `while True` read-test-repeat loop yields exactly FirstAccepted |
| Book.RetrieveStringValue | Modules/business_logic/book.py:164-170 | returns the first non-empty line; every line before it was empty; the input runs out iff every line is empty |
| Book.NumericVerdictMeaning | Modules/business_logic/book.py:224-237 | a number is accepted iff it casts and lies within the inclusive range; it is refused as not a number iff the cast fails, below the minimum iff it is under the minimum, and above the maximum iff it is at or over the minimum but over the maximum; values are never clamped |
| Book.ErrorMessageIndex | Modules/business_logic/book.py:228-240 | a failed cast prints `error_message[0]`, a value below the minimum `[1]`, a value above the maximum `[2]` |
| Book.RetrieveNumericValue | Modules/business_logic/book.py:207-240 | a data type other than "Integer" or "Float" gives None and reads nothing; otherwise the first line that casts and is in range is accepted; an accepted value is in range and is an integer iff the type is "Integer"; every refusal is one of the three numeric ones |
| Book.NewCreateBook | Modules/business_logic/book.py:133-144 | CreateBook reads a title, then an author, then an integer quantity with minimum 0, each from the lines its predecessor left |
| Book.CreateBookValid | Modules/business_logic/book.py:133-144 | every book built has a non-empty title and author and a whole quantity of at least 0, and reads no more lines than were typed |
| Book.CreateDefaultBookTable.Attributes | Modules/business_logic/book.py:79-83 | the default table object shows its key name and its integer and text field lists, and has no `float_list` attribute |
| Book.CrudClassFor | Modules/business_logic/book.py:49-54 | "Create Default Table", "Create Book" and "Search Book" select their classes; every other action, "Update Book" and "Delete Book" included, selects none |
| Book.BookController.constructor | Modules/business_logic/book.py:39-41 | stores the book action |
| Book.BookController.CreateCrudInstance | Modules/business_logic/book.py:43-54 | builds the selected object, running its prompts, or returns None for an unknown action |
| Book.DefaultTableReadsNoInput | Modules/business_logic/book.py:49-54 | the default-table object is built without reading input, and "Update Book" and "Delete Book" give None |
| Book.CheckNoListDuplicates | Modules/business_logic/book.py:447-456 | the nested pairwise loops return True iff no two positions of int_list + text_list + float_list hold the same name |
| Book.GroupOfLocates | Modules/business_logic/book.py:353-369 | option i is the i-th name of the combined list: the i-th integer field when tagged int, the (i - int count)-th text field when tagged text, and otherwise the matching float field |
| Book.BuildSearchOptions | Modules/business_logic/book.py:353-372 | the option table has keys exactly 0 through total-1; entry i holds the i-th combined name and its group by the source's own tests; the search count is the last option number |
| Book.OptionJudgeMeaning | Modules/business_logic/book.py:376-381 | an option number is accepted iff it casts with `int()` and lies in 0 through the search count; a failed cast and an out-of-range number are refused differently |
| Book.SearchValueJudgeMeaning | Modules/business_logic/book.py:389-419 | a search value is accepted iff the line is non-empty and, for an integer field, casts with `int()` and, for a float field, with `float()`; the value kept is the line as typed |
| Book.SearchFoundMeaning | Modules/business_logic/book.py:327-427 | a completed search has distinct lists; its field is the combined-list name chosen by a number typed on an earlier line; its value is the later non-empty line as typed, which casts with `int()` when the field is an integer field |
| Book.DefaultSearchListsAccepted | Modules/business_logic/book.py:287 | the lists BookSearch's constructor passes are never refused, so the constructor always prompts |
| Book.BookSearch.constructor | Modules/business_logic/book.py:273-279 | the class defaults: all fields ("*"), no where-field, no search value |
| Book.BookSearch.SearchBookSingleField | Modules/business_logic/book.py:327-427 | returns None before any prompt when the lists are all empty or repeat a name; otherwise sets the where-field once an option is accepted, then the search value once a value is accepted; the returned fields are unchanged |
| Book.NewBookSearch | Modules/business_logic/book.py:282-287 | BookSearch's constructor searches over "id" and "quantity" (integer) and "author" (text), starting from the defaults |
| EntityPersistanceMatcherControl.VerifyTableRunsFirst | Modules/business_logic/entity_persistance_matcher_control.py:248-251 | with an entity object, exactly one table check runs, always first, and at most two persistence objects follow it |
| EntityPersistanceMatcherControl.MissingTableStops | Modules/business_logic/entity_persistance_matcher_control.py:272-279 | a check answering False stops every action but "Create Default Table" with None, before any other persistence object runs |
| EntityPersistanceMatcherControl.CreateDefaultTableOnlyWhenMissing | Modules/business_logic/entity_persistance_matcher_control.py:254-269 | "Create Default Table" creates the table iff the table check did not answer True (None included) and the object has all four attributes; the result is None, and AttributeError is raised iff the table was not reported present and an attribute is missing |
| EntityPersistanceMatcherControl.ReadActionsRoute | Modules/business_logic/entity_persistance_matcher_control.py:272-279 | "Read Entity", "Search Entity" and "Read All" stop after the table check with None iff it answered False; otherwise they run ReadData with the entity's fields, where-fields and search values and return its rows |
| EntityPersistanceMatcherControl.UpdateRoutes | Modules/business_logic/entity_persistance_matcher_control.py:354-366 | "Update Entity" stops after the table check with None iff it answered False; otherwise it runs UpdateData with the entity's field names and update tuple: IndexError with fewer than two names on a connection, else whether a row changed |
| EntityPersistanceMatcherControl.DeleteRoutes | Modules/business_logic/entity_persistance_matcher_control.py:369-380 | "Delete Entity" stops after the table check with None iff it answered False; otherwise it runs DeleteData with the entity's key field and value and returns whether a row went |
| EntityPersistanceMatcherControl.CreateEntityRoutes | Modules/business_logic/entity_persistance_matcher_control.py:272-316 | "Create Entity" stops after the table check with None iff it answered False; otherwise an "int" key first runs ReturnLastId on the key field, and a typed key leads to an insert unless the input ran out |
| EntityPersistanceMatcherControl.FailedCheckDoesNotStop | Modules/business_logic/entity_persistance_matcher_control.py:275-279 | a check that failed (None) is not False: a read goes ahead with the entity's fields, where-fields and search values |
| EntityPersistanceMatcherControl.UnknownActionDoesNothing | Modules/business_logic/entity_persistance_matcher_control.py:383-385 | an action outside the dispatcher's vocabulary runs only the table check and returns None |
| EntityPersistanceMatcherControl.CreateEntityInsertsOneRow | Modules/business_logic/entity_persistance_matcher_control.py:283-334 | "Create Entity" inserts a one-tuple list whose tuple is the key followed by the integer, text and float values, in that order, and returns InsertData's result |
| EntityPersistanceMatcherControl.IntegerKeyFollowsLargest | Modules/business_logic/entity_persistance_matcher_control.py:299-304 | an "int" key is fetched with ReturnLastId and is the table's greatest key plus one, or 1 for an empty table |
| EntityPersistanceMatcherControl.IntegerKeyAfterLastId | Modules/business_logic/entity_persistance_matcher_control.py:299-304 | with an "int" key and last id n, "Create Entity" runs the table check, ReturnLastId, then inserts the row keyed n + 1 |
| EntityPersistanceMatcherControl.NoLastIdRaisesTypeError | Modules/business_logic/entity_persistance_matcher_control.py:302-304 | when ReturnLastId gives None, adding 1 raises TypeError and nothing is inserted |
| EntityPersistanceMatcherControl.TypedKeyIsFirstNonEmptyLine | Modules/business_logic/entity_persistance_matcher_control.py:307-316 | a key of another type is the first non-empty line typed; the lines before it were empty |
| EntityPersistanceMatcherControl.BooksServeOnlyCreateDefaultTable | Modules/business_logic/entity_persistance_matcher_control.py:162-174 | for "books", every dispatcher action except "Create Default Table" yields no entity object, and the query then does nothing and returns None |
| EntityPersistanceMatcherControl.DefaultBookTableLacksFloatList | Modules/business_logic/entity_persistance_matcher_control.py:259-262 | "Create Default Table" on "books", with the table not reported present, raises AttributeError on `float_list` after the table check, and creates nothing |
| EntityPersistanceMatcherControl.UnknownTableHasNoEntity | Modules/business_logic/entity_persistance_matcher_control.py:175-179 | a table name other than "books" gives no entity object and reads no input |
| EntityPersistanceMatcherControl.EntityControl.constructor | Modules/business_logic/entity_persistance_matcher_control.py:129-132 | stores the table name and action |
| EntityPersistanceMatcherControl.EntityControl.InitialiseEntity | Modules/business_logic/entity_persistance_matcher_control.py:162-179 | for "books", the book controller's object for the action (None when it has none); None for any other table; never reads more lines than were typed |
| EntityPersistanceMatcherControl.PersistanceSingleKeyControl.constructor | Modules/business_logic/entity_persistance_matcher_control.py:219-224 | stores the names, the action and the entity object |
| EntityPersistanceMatcherControl.PersistanceSingleKeyControl.PerformDatabaseQuery | Modules/business_logic/entity_persistance_matcher_control.py:244-385 | building and executing the persistence objects yields exactly the calls and result of the decision procedure, and the statements those objects hand to the driver are exactly the SQL text, parameters and commits that the recorded calls issue on this table |
| EntityPersistanceMatcherControl.PersistanceSingleKeyControl.RunAction | Modules/business_logic/entity_persistance_matcher_control.py:253-380 | after the table check, branches on the action exactly as the decision procedure does; the driver statements it adds are those of the calls after the table check |
| EntityPersistanceMatcherControl.PersistanceSingleKeyControl.RunCreateDefaultTable | Modules/business_logic/entity_persistance_matcher_control.py:256-269 | reads the key and the three field lists, in that order; the CreateTableSingleKey it executes hands the driver the CREATE statement for exactly those values |
| EntityPersistanceMatcherControl.PersistanceSingleKeyControl.RunCreateEntity | Modules/business_logic/entity_persistance_matcher_control.py:283-334 | reads the value lists and key data, computes or prompts for the key; the ReturnLastId and InsertData it executes hand the driver the last-id query for the key field, then the INSERT of the one new row and its commit |
| EntityPersistanceMatcherControl.PersistanceSingleKeyControl.RunNewKey | Modules/business_logic/entity_persistance_matcher_control.py:299-316 | an "int" key executes ReturnLastId on the key field and adds one, TypeError when no id comes back; another key is the first non-empty line typed, EOFError when input runs out |
| EntityPersistanceMatcherControl.PersistanceSingleKeyControl.RunInsert | Modules/business_logic/entity_persistance_matcher_control.py:318-334 | executes InsertData with the one new row; it hands the driver that row's INSERT and a commit, and the result is whether a row was written |
| EntityPersistanceMatcherControl.PersistanceSingleKeyControl.RunReadEntity | Modules/business_logic/entity_persistance_matcher_control.py:337-351 | the ReadData it executes hands the driver the SELECT over the entity's fields, where-fields and search values; its rows are the result |
| EntityPersistanceMatcherControl.PersistanceSingleKeyControl.RunUpdateEntity | Modules/business_logic/entity_persistance_matcher_control.py:354-366 | the UpdateData it executes hands the driver the UPDATE for the entity's field names with its update tuple, or nothing before IndexError |
| EntityPersistanceMatcherControl.PersistanceSingleKeyControl.RunDeleteEntity | Modules/business_logic/entity_persistance_matcher_control.py:369-380 | the DeleteData it executes hands the driver the DELETE for the entity's key field with its value |
| EntityPersistanceMatcherControl.EntityPersistanceSingleKeyControl.constructor | Modules/business_logic/entity_persistance_matcher_control.py:82-88 | stores the names, action and entity object, and a persistence control object over the same values |
| EntityPersistanceMatcherControl.EntityPersistanceSingleKeyControl.CreateAndExecuteQuery | Modules/business_logic/entity_persistance_matcher_control.py:96-99 | delegates to the persistence control object, with the same run, result and driver statements |
| EntityPersistanceMatcherControl.NewEntityPersistanceSingleKeyControl | Modules/business_logic/entity_persistance_matcher_control.py:82-88 | the entity's prompts run first; EOFError there leaves no object; otherwise the object holds the entity that initialise_entity produced |

## Left out

- The sqlite driver is not modelled, and neither are SQL semantics. Each
  reply is a parameter, so no insert-then-read round trip is stated.
  ReturnLastId is related to a table's rows only through `IsTopByKey`, an
  assumption about the driver.
- A `commit()` that raises is not told apart from an `execute` that raises.
  Both appear as a raised reply, and no commit is recorded.
- Errors raised inside `close_connection` are caught and printed by the
  source. Here, closing always succeeds.
- EntityPersistanceMatcherControl.Driver: one `connects` flag serves every
  persistence object of a run. The source opens a separate connection per
  object, so their outcomes could differ.
- The text rules of `int()` and `float()` are not modelled. Each line carries
  their results. Floats are Dafny reals, with no rounding.
- Book.RetrieveNumericValue: the range is taken in the three forms that the
  function's documentation allows (none, [min], [min, max]). A list of three
  or more entries, where only the minimum is checked, and an empty list,
  which raises IndexError, are not modelled.
- `BookSearch.fields_list` is the string "*" in the source. It is modelled as
  ["*"], which the `", ".join` in ReadData turns into the same text.
- CreateBook's title, author and quantity are not read by the dispatcher. Its
  attribute view is therefore empty.
- Entity attributes are taken with the types the dispatcher expects. An
  attribute that holds None where a list is concatenated is not modelled.
- EntityPersistanceMatcherControl.EntityPersistanceSingleKeyControl.constructor:
  it receives the entity object. A Dafny constructor cannot raise, so the
  `initialise_entity` call of the Python constructor (lines 85-86) is made by
  `NewEntityPersistanceSingleKeyControl`, which reports EOFError instead of
  building the object.
- `__str__` methods, console messages and prompt texts are left out. Of the
  output, only the reason for each refused line is kept.
- The menu loop (Modules/ui_controller_view/book_stock_application_controller.py),
  table rendering (Modules/ui_controller_view/view_render.py), the bootstrap
  (book_stock_management.py), the scratch file test.py and the unused draft
  Modules/business_logic/EntityPersistanceMatcherControl.py are not part of
  this model.
