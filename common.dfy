/** Types shared by the persistence layer, the book entity module and the
    dispatcher: Python's None, the values the sqlite driver stores, the
    driver's two kinds of answer, and the attribute view of an entity object. */
module Common {

  /** Python's `None` or a value. */
  datatype Option<+T> = None | Some(value: T)

  /** A column value as the driver hands it over: INTEGER, TEXT or REAL. */
  datatype Value = IntV(i: int) | TextV(s: string) | RealV(r: real)

  /** One row of a result set, or one tuple of parameters. */
  type Row = seq<Value>

  /** What one call into the sqlite driver did: it raised an error that the
      persistence layer catches (`sqlite3.OperationalError` or
      `sqlite3.DatabaseError`), or it returned a value. */
  datatype Reply<+T> = Raised | Returned(value: T)

  /** A Python attribute: absent from the object (reading it raises
      `AttributeError`) or present with a value. */
  datatype Attr<+T> = Missing | Has(value: T)

  /** The attributes of an entity object that the dispatcher reads, one per
      attribute name it uses. An entity class provides only some of them. */
  datatype Entity = Entity(
    // read for "Create Default Table"
    primaryKey: Attr<string>,
    intList: Attr<Option<seq<string>>>,
    textList: Attr<Option<seq<string>>>,
    floatList: Attr<Option<seq<string>>>,
    // read for "Create Entity"
    intListValues: Attr<seq<Value>>,
    textListValues: Attr<seq<Value>>,
    floatListValues: Attr<seq<Value>>,
    primaryKeyData: Attr<(string, string)>,
    // read for "Read Entity", "Search Entity" and "Read All"
    fieldsList: Attr<seq<string>>,
    whereFieldsList: Attr<Option<seq<string>>>,
    searchValues: Attr<Option<seq<Value>>>,
    // read for "Update Entity"
    fieldNames: Attr<seq<string>>,
    updateTuple: Attr<seq<Value>>,
    // read for "Delete Entity"
    primaryKeyField: Attr<string>,
    primaryValue: Attr<Value>)

  /** An object with none of the attributes above. */
  const NoAttributes: Entity :=
    Entity(Missing, Missing, Missing, Missing, Missing, Missing, Missing, Missing,
           Missing, Missing, Missing, Missing, Missing, Missing, Missing)
}
