/**
 * Rows coming back from MariaDB, their conversion into entity objects, and
 * the MariaDB datasource operations with the database round trip taken as
 * an input.
 */
module MariaDbRows {
  import opened Wrappers
  import opened Strings
  import opened Json
  import opened RelationalBase
  import opened DataSourceBase
  import opened MariaDbMappings
  import opened MariaDbSql

  /** A column value as the driver returns it. */
  datatype Cell = CText(s: string) | CInt(i: int) | CFloat(f: F64) | CBool(b: bool) | CNull

  /** A result row: column name to cell. */
  type Row = map<string, Cell>

  /**
   * The type-directed read of one column: the field's tag chooses the Rust
   * type asked for, and a read that fails (absent column, NULL, other kind,
   * a float that JSON cannot hold) gives nothing. Unknown tags read text.
   */
  function ReadColumn(row: Row, f: FieldMapping): (r: Option<Json>)
    ensures r.Some? ==> f.columnName in row && row[f.columnName] != CNull
    ensures r.Some? && f.fieldType == "integer" ==> r.value.JInt? && IsI64(r.value.i)
    ensures r.Some? && f.fieldType == "float" ==> r.value.JFloat? && r.value.f.IsFinite()
  {
    if f.columnName !in row then None
    else
      var cell := row[f.columnName];
      if f.fieldType == "string" then (if cell.CText? then Some(JString(cell.s)) else None)
      else if f.fieldType == "integer" then (if cell.CInt? && IsI64(cell.i) then Some(JInt(cell.i)) else None)
      else if f.fieldType == "float" then (if cell.CFloat? && cell.f.IsFinite() then Some(JFloat(cell.f)) else None)
      else if f.fieldType == "boolean" then (if cell.CBool? then Some(JBool(cell.b)) else None)
      else if cell.CText? then Some(JString(cell.s)) else None
  }

  /**
   * The object built from a row: each field whose column reads is stored
   * under the field name; a later field of the same name overwrites.
   */
  function RowObject(fields: seq<FieldMapping>, row: Row): (r: map<string, Json>)
    ensures forall k :: k in r <==> exists i :: 0 <= i < |fields| && fields[i].fieldName == k && ReadColumn(row, fields[i]).Some?
    ensures forall k :: k in r ==> exists i :: 0 <= i < |fields| && fields[i].fieldName == k && ReadColumn(row, fields[i]) == Some(r[k])
    decreases |fields|
  {
    if |fields| == 0 then map[]
    else
      var init := fields[..|fields| - 1];
      var f := fields[|fields| - 1];
      var o := RowObject(init, row);
      assert forall i :: 0 <= i < |init| ==> init[i] == fields[i];
      match ReadColumn(row, f)
      case Some(v) => o[f.fieldName := v]
      case None => o
  }

  /** The keys of `RowObject`, in the order they were first inserted. */
  function FirstSeenKeys(fields: seq<FieldMapping>, row: Row): (r: seq<string>)
    ensures forall k :: k in r <==> k in RowObject(fields, row)
    ensures Distinct(r)
    decreases |fields|
  {
    if |fields| == 0 then []
    else
      var init := fields[..|fields| - 1];
      var f := fields[|fields| - 1];
      var ks := FirstSeenKeys(init, row);
      if ReadColumn(row, f).Some? && f.fieldName !in RowObject(init, row) then ks + [f.fieldName] else ks
  }

  /**
   * The keys of `RowObject` as `serde_json::Map` lists them: the map is
   * ordered by key, so they come out in ascending order.
   */
  function RowKeys(fields: seq<FieldMapping>, row: Row): (r: seq<string>)
    ensures forall k :: k in r <==> k in RowObject(fields, row)
    ensures Ascending(r)
  {
    SortAscending(FirstSeenKeys(fields, row))
  }

  /** Any ascending listing of the row object's keys is `RowKeys`: the listing depends only on the key set. */
  lemma RowKeysAreTheAscendingListing(fields: seq<FieldMapping>, row: Row, ks: seq<string>)
    requires Ascending(ks)
    requires forall k :: k in ks <==> k in RowObject(fields, row)
    ensures ks == RowKeys(fields, row)
  {
    AscendingUnique(ks, RowKeys(fields, row));
  }

  /** The message of the MappingError raised when the object does not deserialize. */
  function DeserializeMessage(name: string, e: string, keys: seq<string>): string {
    "Error deserializing entity '" + name + "': " + e + ". Fields available: " + Join(keys, ", ")
  }

  /** `map_row_to_entity` as a value; `fromValue` is the entity type's deserializer. */
  function RowToEntity(reg: Registry, row: Row, name: string, fromValue: Json -> Result<Json, string>): Result<Json, DataSourceError>
    requires ValidRegistry(reg)
  {
    match FindEntityMapping(reg, name)
    case None => Failure(NoMapping(name))
    case Some(m) =>
      match fromValue(JObject(RowObject(m.fields, row)))
      case Success(v) => Success(v)
      case Failure(e) => Failure(MappingError(DeserializeMessage(name, e, RowKeys(m.fields, row))))
  }

  /**
   * The loop of `map_row_to_entity`: the object of a row, and its keys as
   * the ordered map lists them.
   */
  method BuildRowObject(fields: seq<FieldMapping>, row: Row) returns (obj: map<string, Json>, keys: seq<string>)
    ensures obj == RowObject(fields, row)
    ensures keys == RowKeys(fields, row)
  {
    obj := map[];
    var seen := [];
    for k := 0 to |fields|
      invariant obj == RowObject(fields[..k], row)
      invariant seen == FirstSeenKeys(fields[..k], row)
    {
      assert fields[..k + 1][..k] == fields[..k];
      var value := ReadColumn(row, fields[k]);
      if value.Some? {
        if fields[k].fieldName !in obj {
          seen := seen + [fields[k].fieldName];
        }
        obj := obj[fields[k].fieldName := value.value];
      }
    }
    assert fields[..|fields|] == fields;
    keys := SortAscending(seen);
  }

  /**
   * Builds the object of one row field by field and deserializes it; a
   * deserialization failure is a MappingError that lists the keys read.
   */
  method MapRowToEntity(reg: Registry, row: Row, name: string, fromValue: Json -> Result<Json, string>)
    returns (r: Result<Json, DataSourceError>)
    requires ValidRegistry(reg)
    ensures r == RowToEntity(reg, row, name, fromValue)
    ensures FindEntityMapping(reg, name).None? ==> r == Failure(NotFound("No mapping found for entity " + name))
    ensures FindEntityMapping(reg, name).Some? ==>
              var obj := RowObject(FindEntityMapping(reg, name).value.fields, row);
              && (r.Success? <==> fromValue(JObject(obj)).Success?)
              && (r.Success? ==> r.value == fromValue(JObject(obj)).value)
              && (r.Failure? ==> r.error.MappingError?)
  {
    var found := FindEntityMapping(reg, name);
    if found.None? {
      return Failure(NoMapping(name));
    }
    var obj, keys := BuildRowObject(found.value.fields, row);
    match fromValue(JObject(obj))
    case Success(v) => r := Success(v);
    case Failure(e) => r := Failure(MappingError(DeserializeMessage(name, e, keys)));
  }

  /** A value of the kind a field's tag stores and reads back unchanged. */
  predicate StorableAs(tag: string, v: Json) {
    if tag == "string" then v.JString?
    else if tag == "integer" then v.JInt? && IsI64(v.i)
    else if tag == "float" then v.JFloat? && v.f.IsFinite()
    else if tag == "boolean" then v.JBool?
    else v.JString?
  }

  /** The cell a column holds after a value is bound and inserted. */
  function StoredCell(v: Json): Cell {
    match v
    case JString(s) => CText(s)
    case JInt(i) => CInt(i)
    case JFloat(f) => CFloat(f)
    case JBool(b) => CBool(b)
    case _ => CNull
  }

  /** The row an INSERT of `values` into `fields`' columns creates. */
  function InsertedRow(fields: seq<FieldMapping>, values: seq<Json>): Row
    requires |values| == |fields|
    decreases |fields|
  {
    if |fields| == 0 then map[]
    else InsertedRow(fields[..|fields| - 1], values[..|values| - 1])[fields[|fields| - 1].columnName := StoredCell(values[|values| - 1])]
  }

  predicate DistinctColumns(fields: seq<FieldMapping>) {
    forall i, j :: 0 <= i < j < |fields| ==> fields[i].columnName != fields[j].columnName
  }

  predicate DistinctFieldNames(fields: seq<FieldMapping>) {
    forall i, j :: 0 <= i < j < |fields| ==> fields[i].fieldName != fields[j].fieldName
  }

  lemma {:induction false} InsertedRowAt(fields: seq<FieldMapping>, values: seq<Json>, i: nat)
    requires |values| == |fields| && DistinctColumns(fields) && i < |fields|
    ensures fields[i].columnName in InsertedRow(fields, values)
    ensures InsertedRow(fields, values)[fields[i].columnName] == StoredCell(values[i])
    decreases |fields|
  {
    var n := |fields| - 1;
    if i < n {
      var init, vinit := fields[..n], values[..n];
      assert init[i] == fields[i] && vinit[i] == values[i];
      InsertedRowAt(init, vinit, i);
    }
  }

  /** A stored value of the kind its tag stores reads back as itself. */
  lemma ReadStored(row: Row, f: FieldMapping, v: Json)
    requires f.columnName in row && row[f.columnName] == StoredCell(v) && StorableAs(f.fieldType, v)
    ensures ReadColumn(row, f) == Some(v)
  {
  }

  /**
   * Writing an object's mapped members with INSERT and reading the row back
   * gives the same members: for distinct field and column names, and
   * members present and of the kind their field's tag stores.
   */
  lemma InsertThenReadRoundTrip(fields: seq<FieldMapping>, members: map<string, Json>)
    requires DistinctColumns(fields) && DistinctFieldNames(fields)
    requires forall i :: 0 <= i < |fields| ==> fields[i].fieldName in members
    requires forall i :: 0 <= i < |fields| ==> StorableAs(fields[i].fieldType, members[fields[i].fieldName])
    ensures var obj := RowObject(fields, InsertedRow(fields, FieldValues(members, fields)));
            && (forall k :: k in obj <==> exists i :: 0 <= i < |fields| && fields[i].fieldName == k)
            && (forall i :: 0 <= i < |fields| ==> obj[fields[i].fieldName] == members[fields[i].fieldName])
  {
    var row := InsertedRow(fields, FieldValues(members, fields));
    InsertedColumnsRead(fields, members);
    ReadFieldsKept(fields, members, row);
  }

  /** Every column of the inserted row reads back as its member. */
  lemma InsertedColumnsRead(fields: seq<FieldMapping>, members: map<string, Json>)
    requires DistinctColumns(fields)
    requires forall i :: 0 <= i < |fields| ==> fields[i].fieldName in members
    requires forall i :: 0 <= i < |fields| ==> StorableAs(fields[i].fieldType, members[fields[i].fieldName])
    ensures var row := InsertedRow(fields, FieldValues(members, fields));
            forall i :: 0 <= i < |fields| ==> ReadColumn(row, fields[i]) == Some(members[fields[i].fieldName])
  {
    var values := FieldValues(members, fields);
    var row := InsertedRow(fields, values);
    forall i | 0 <= i < |fields| ensures ReadColumn(row, fields[i]) == Some(members[fields[i].fieldName]) {
      InsertedRowAt(fields, values, i);
      ReadStored(row, fields[i], values[i]);
    }
  }

  /** When every field reads as its member, the row object holds exactly those members. */
  lemma ReadFieldsKept(fields: seq<FieldMapping>, members: map<string, Json>, row: Row)
    requires DistinctFieldNames(fields)
    requires forall i :: 0 <= i < |fields| ==> fields[i].fieldName in members
    requires forall i :: 0 <= i < |fields| ==> ReadColumn(row, fields[i]) == Some(members[fields[i].fieldName])
    ensures var obj := RowObject(fields, row);
            && (forall k :: k in obj <==> exists i :: 0 <= i < |fields| && fields[i].fieldName == k)
            && (forall i :: 0 <= i < |fields| ==> obj[fields[i].fieldName] == members[fields[i].fieldName])
  {
    var obj := RowObject(fields, row);
    forall i | 0 <= i < |fields| ensures fields[i].fieldName in obj && obj[fields[i].fieldName] == members[fields[i].fieldName] {
      var k := fields[i].fieldName;
      var j :| 0 <= j < |fields| && fields[j].fieldName == k && ReadColumn(row, fields[j]) == Some(obj[k]);
      assert i == j;
    }
  }

  /** Every row converted by `convert`, in order; the first row that fails decides the error. */
  function ConvertAll(convert: Row -> Result<Json, DataSourceError>, rows: seq<Row>): (r: Result<seq<Json>, DataSourceError>)
    ensures r.Success? ==> |r.value| == |rows| && forall i :: 0 <= i < |rows| ==> convert(rows[i]) == Success(r.value[i])
    ensures r.Failure? ==> exists i :: 0 <= i < |rows| && convert(rows[i]) == Failure(r.error)
                                       && forall j :: 0 <= j < i ==> convert(rows[j]).Success?
    decreases |rows|
  {
    if |rows| == 0 then Success([])
    else
      match convert(rows[0])
      case Failure(e) => Failure(e)
      case Success(v) =>
        var rest := rows[1..];
        assert forall j :: 1 <= j < |rows| ==> rows[j] == rest[j - 1];
        match ConvertAll(convert, rest)
        case Failure(e) => Failure(e)
        case Success(vs) => Success([v] + vs)
  }

  /** Every row of a result mapped to an entity in order; the first row that fails decides the error. */
  function MapRows(reg: Registry, rows: seq<Row>, name: string, fromValue: Json -> Result<Json, string>): (r: Result<seq<Json>, DataSourceError>)
    requires ValidRegistry(reg)
    ensures r.Success? ==> |r.value| == |rows| && forall i :: 0 <= i < |rows| ==> RowToEntity(reg, rows[i], name, fromValue) == Success(r.value[i])
    ensures r.Failure? ==> exists i :: 0 <= i < |rows| && RowToEntity(reg, rows[i], name, fromValue) == Failure(r.error)
                                       && forall j :: 0 <= j < i ==> RowToEntity(reg, rows[j], name, fromValue).Success?
  {
    ConvertAll(row => RowToEntity(reg, row, name, fromValue), rows)
  }

  /**
   * `get_all`: builds the SELECT, runs it (`run` is what the database
   * answered) and converts the rows; an empty result is an empty list.
   */
  function MariaGetAll(reg: Registry, connected: bool, name: string, fromValue: Json -> Result<Json, string>,
                       run: Result<seq<Row>, DataSourceError>): (r: Result<seq<Json>, DataSourceError>)
    requires ValidRegistry(reg)
    ensures GetAllStatement(reg, connected, name).Failure? ==> r == Failure(GetAllStatement(reg, connected, name).error)
    ensures GetAllStatement(reg, connected, name).Success? && run.Failure? ==> r == Failure(run.error)
    ensures GetAllStatement(reg, connected, name).Success? && run == Success([]) ==> r == Success([])
    ensures r.Success? ==> && GetAllStatement(reg, connected, name).Success? && run.Success?
                           && |r.value| == |run.value|
                           && forall i :: 0 <= i < |run.value| ==> RowToEntity(reg, run.value[i], name, fromValue) == Success(r.value[i])
    ensures GetAllStatement(reg, connected, name).Success? && run.Success? && r.Failure? ==>
              exists i :: 0 <= i < |run.value| && RowToEntity(reg, run.value[i], name, fromValue) == Failure(r.error)
                          && forall j :: 0 <= j < i ==> RowToEntity(reg, run.value[j], name, fromValue).Success?
  {
    match GetAllStatement(reg, connected, name)
    case Failure(e) => Failure(e)
    case Success(_) =>
      match run
      case Failure(e) => Failure(e)
      case Success(rows) => if |rows| == 0 then Success([]) else MapRows(reg, rows, name, fromValue)
  }

  /** `get_by_id`: no row is `None`, one row is converted. */
  function MariaGetById(reg: Registry, connected: bool, id: string, name: string, fromValue: Json -> Result<Json, string>,
                        run: Result<Option<Row>, DataSourceError>): (r: Result<Option<Json>, DataSourceError>)
    requires ValidRegistry(reg)
    ensures GetByIdStatement(reg, connected, id, name).Failure? ==> r == Failure(GetByIdStatement(reg, connected, id, name).error)
    ensures GetByIdStatement(reg, connected, id, name).Success? ==>
              && (run.Failure? ==> r == Failure(run.error))
              && (run == Success(None) ==> r == Success(None))
              && (run.Success? && run.value.Some? ==>
                    var converted := RowToEntity(reg, run.value.value, name, fromValue);
                    && (converted.Success? ==> r == Success(Some(converted.value)))
                    && (converted.Failure? ==> r == Failure(converted.error)))
  {
    match GetByIdStatement(reg, connected, id, name)
    case Failure(e) => Failure(e)
    case Success(_) =>
      match run
      case Failure(e) => Failure(e)
      case Success(None) => Success(None)
      case Success(Some(row)) =>
        match RowToEntity(reg, row, name, fromValue)
        case Failure(e) => Failure(e)
        case Success(v) => Success(Some(v))
  }

  /**
   * `create` and `update` once the statement is built: its values are bound
   * before anything is sent, so a refused value fails the write whatever the
   * database would answer; otherwise the input item is returned once the
   * statement has run.
   */
  function MariaWrite(statement: Result<Statement, DataSourceError>, item: Json, run: Result<nat, DataSourceError>,
                      debug: Json -> string): (r: Result<Json, DataSourceError>)
    ensures r.Success? <==> statement.Success? && BindAll(statement.value.params, debug).Success? && run.Success?
    ensures statement.Failure? ==> r == Failure(statement.error)
    ensures statement.Success? && BindAll(statement.value.params, debug).Failure? ==>
              r == Failure(BindAll(statement.value.params, debug).error)
    ensures statement.Success? && BindAll(statement.value.params, debug).Success? && run.Failure? ==> r == Failure(run.error)
    ensures r.Success? ==> r.value == item
  {
    match statement
    case Failure(e) => Failure(e)
    case Success(st) =>
      match BindAll(st.params, debug)
      case Failure(e) => Failure(e)
      case Success(_) =>
        match run
        case Failure(e) => Failure(e)
        case Success(_) => Success(item)
  }

  /**
   * A create whose entity holds an array or an object under a mapped field
   * fails with a ValidationError, whatever the database would answer.
   */
  lemma CreateRefusesCompositeMember(reg: Registry, connected: bool, item: Json, name: string,
                                     run: Result<nat, DataSourceError>, debug: Json -> string, i: nat)
    requires ValidRegistry(reg) && CreateStatement(reg, connected, item, name).Success?
    requires i < |FindEntityMapping(reg, name).value.fields|
    requires var f := FindEntityMapping(reg, name).value.fields[i];
             f.fieldName in item.members && Unbindable(item.members[f.fieldName])
    ensures var r := MariaWrite(CreateStatement(reg, connected, item, name), item, run, debug);
            r.Failure? && r.error.ValidationError?
  {
    var params := CreateStatement(reg, connected, item, name).value.params;
    assert Unbindable(params[i]);
  }

  /** `delete` reports whether the statement affected any row. */
  function MariaDelete(reg: Registry, connected: bool, id: string, name: string, run: Result<nat, DataSourceError>): (r: Result<bool, DataSourceError>)
    requires ValidRegistry(reg)
    ensures r.Success? <==> DeleteStatement(reg, connected, id, name).Success? && run.Success?
    ensures DeleteStatement(reg, connected, id, name).Failure? ==> r == Failure(DeleteStatement(reg, connected, id, name).error)
    ensures DeleteStatement(reg, connected, id, name).Success? && run.Failure? ==> r == Failure(run.error)
    ensures r.Success? ==> (r.value <==> run.value > 0)
  {
    match DeleteStatement(reg, connected, id, name)
    case Failure(e) => Failure(e)
    case Success(_) =>
      match run
      case Failure(e) => Failure(e)
      case Success(affected) => Success(affected > 0)
  }
}
