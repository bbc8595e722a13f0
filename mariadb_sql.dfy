/**
 * The SQL the MariaDB datasource sends: the query text generated from a
 * table mapping, the positional values bound to its `?` placeholders, and
 * the checks each datasource operation makes before it runs a statement.
 */
module MariaDbSql {
  import opened Wrappers
  import opened Strings
  import opened Json
  import opened RelationalBase
  import opened DataSourceBase
  import opened MariaDbMappings

  /** An identifier in backquotes. */
  function Quoted(name: string): string {
    "`" + name + "`"
  }

  /** The mapped columns, backquoted, in mapping order, separated by ", ". */
  function ColumnList(fields: seq<FieldMapping>): string {
    Join(QuotedColumns(fields), ", ")
  }

  function QuotedColumns(fields: seq<FieldMapping>): (r: seq<string>)
    ensures |r| == |fields| && forall i :: 0 <= i < |fields| ==> r[i] == Quoted(fields[i].columnName)
  {
    seq(|fields|, i requires 0 <= i < |fields| => Quoted(fields[i].columnName))
  }

  /** `n` placeholders separated by ", ". */
  function Placeholders(n: nat): string {
    Join(seq(n, i => "?"), ", ")
  }

  /** The fields an UPDATE sets: all but those whose field name is the primary key, in order. */
  function KeptFields(fields: seq<FieldMapping>, pk: string): (r: seq<FieldMapping>)
    ensures |r| <= |fields|
    ensures forall i :: 0 <= i < |r| ==> r[i].fieldName != pk && r[i] in fields
    ensures forall i :: 0 <= i < |fields| && fields[i].fieldName != pk ==> fields[i] in r
    decreases |fields|
  {
    if |fields| == 0 then []
    else
      var init := fields[..|fields| - 1];
      var last := fields[|fields| - 1];
      assert forall i :: 0 <= i < |init| ==> init[i] == fields[i];
      KeptFields(init, pk) + (if last.fieldName != pk then [last] else [])
  }

  function SetClauses(kept: seq<FieldMapping>): seq<string> {
    seq(|kept|, i requires 0 <= i < |kept| => Quoted(kept[i].columnName) + " = ?")
  }

  function SelectText(m: TableMapping): string {
    "SELECT " + ColumnList(m.fields) + " FROM " + Quoted(m.tableName)
  }

  function SelectByIdText(m: TableMapping): string {
    SelectText(m) + " WHERE " + Quoted(m.primaryKey) + " = ?"
  }

  function InsertText(m: TableMapping): string {
    "INSERT INTO " + Quoted(m.tableName) + " (" + ColumnList(m.fields) + ") VALUES (" + Placeholders(|m.fields|) + ")"
  }

  function UpdateText(m: TableMapping): string {
    "UPDATE " + Quoted(m.tableName) + " SET " + Join(SetClauses(KeptFields(m.fields, m.primaryKey)), ", ")
      + " WHERE " + Quoted(m.primaryKey) + " = ?"
  }

  function DeleteText(m: TableMapping): string {
    "DELETE FROM " + Quoted(m.tableName) + " WHERE " + Quoted(m.primaryKey) + " = ?"
  }

  /** No name that ends up in the query text holds a `?` of its own. */
  predicate PlaceholderFree(m: TableMapping) {
    && '?' !in m.tableName
    && '?' !in m.primaryKey
    && forall i :: 0 <= i < |m.fields| ==> '?' !in m.fields[i].columnName
  }

  lemma ColumnListPlaceholderFree(m: TableMapping)
    requires PlaceholderFree(m)
    ensures '?' !in ColumnList(m.fields)
  {
    var qs := QuotedColumns(m.fields);
    forall i | 0 <= i < |qs| ensures '?' !in qs[i] {
      assert '?' !in m.fields[i].columnName;
    }
    JoinAbsent(qs, ", ", '?');
  }

  /** A SELECT has no placeholder. */
  lemma SelectPlaceholders(m: TableMapping)
    requires PlaceholderFree(m)
    ensures CountChar(SelectText(m), '?') == 0
  {
    ColumnListPlaceholderFree(m);
    CountCharAbsent(SelectText(m), '?');
  }

  /** A SELECT by id and a DELETE each have exactly one placeholder, the id's. */
  lemma KeyedPlaceholders(m: TableMapping)
    requires PlaceholderFree(m)
    ensures CountChar(SelectByIdText(m), '?') == 1
    ensures CountChar(DeleteText(m), '?') == 1
  {
    ColumnListPlaceholderFree(m);
    var w := " WHERE " + Quoted(m.primaryKey) + " = ";
    assert SelectByIdText(m) == (SelectText(m) + w) + ['?'];
    CountCharLast(SelectText(m) + w, '?');
    assert DeleteText(m) == ("DELETE FROM " + Quoted(m.tableName) + w) + ['?'];
    CountCharLast("DELETE FROM " + Quoted(m.tableName) + w, '?');
  }

  /** `n` placeholders hold `n` question marks. */
  lemma PlaceholdersCount(n: nat)
    ensures CountChar(Placeholders(n), '?') == n
  {
    CountCharJoin(seq(n, i => "?"), ", ", '?');
  }

  lemma InsertHeadFree(m: TableMapping)
    requires PlaceholderFree(m)
    ensures CountChar("INSERT INTO " + Quoted(m.tableName) + " (" + ColumnList(m.fields) + ") VALUES (", '?') == 0
  {
    ColumnListPlaceholderFree(m);
    CountCharAbsent("INSERT INTO " + Quoted(m.tableName) + " (" + ColumnList(m.fields) + ") VALUES (", '?');
  }

  /** An INSERT has exactly one placeholder per mapped field. */
  lemma InsertPlaceholders(m: TableMapping)
    requires PlaceholderFree(m)
    ensures CountChar(InsertText(m), '?') == |m.fields|
  {
    var head := "INSERT INTO " + Quoted(m.tableName) + " (" + ColumnList(m.fields) + ") VALUES (";
    var ps := Placeholders(|m.fields|);
    assert InsertText(m) == head + ps + ")";
    InsertHeadFree(m);
    PlaceholdersCount(|m.fields|);
    CountCharConcat(head, ps, '?');
    CountCharConcat(head + ps, ")", '?');
    CountCharAbsent(")", '?');
  }

  /** Each SET clause of a field whose column holds no `?` holds exactly one. */
  lemma SetClausesCount(kept: seq<FieldMapping>)
    requires forall i :: 0 <= i < |kept| ==> '?' !in kept[i].columnName
    ensures CountChar(Join(SetClauses(kept), ", "), '?') == |kept|
  {
    var clauses := SetClauses(kept);
    forall i | 0 <= i < |clauses| ensures CountChar(clauses[i], '?') == 1 {
      assert clauses[i] == (Quoted(kept[i].columnName) + " = ") + ['?'];
      CountCharLast(Quoted(kept[i].columnName) + " = ", '?');
    }
    CountCharJoin(clauses, ", ", '?');
  }

  /** An UPDATE has one placeholder per kept field, then one for the id. */
  lemma UpdatePlaceholders(m: TableMapping)
    requires PlaceholderFree(m)
    ensures CountChar(UpdateText(m), '?') == |KeptFields(m.fields, m.primaryKey)| + 1
  {
    var kept := KeptFields(m.fields, m.primaryKey);
    forall i | 0 <= i < |kept| ensures '?' !in kept[i].columnName {
      assert kept[i] in m.fields;
    }
    SetClausesCount(kept);
    var head := "UPDATE " + Quoted(m.tableName) + " SET ";
    var sets := Join(SetClauses(kept), ", ");
    var tail := " WHERE " + Quoted(m.primaryKey) + " = ";
    assert UpdateText(m) == head + sets + (tail + ['?']);
    CountCharLast(tail, '?');
    CountCharConcat(head, sets, '?');
    CountCharConcat(head + sets, tail + ['?'], '?');
    CountCharAbsent(head, '?');
  }

  /** The error every lookup but the SELECT-all one reports for an unknown entity. */
  function NoMapping(name: string): DataSourceError {
    NotFound("No mapping found for entity " + name)
  }

  /** The value bound for one field: the entity's member of that name, or null. */
  function FieldValue(members: map<string, Json>, f: FieldMapping): Json {
    Get(members, f.fieldName).GetOr(JNull)
  }

  function FieldValues(members: map<string, Json>, fs: seq<FieldMapping>): seq<Json> {
    seq(|fs|, i requires 0 <= i < |fs| => FieldValue(members, fs[i]))
  }

  /** The values `entity_to_query_values` yields, as a value. */
  function QueryValues(reg: Registry, item: Json, name: string): Result<seq<Json>, DataSourceError>
    requires ValidRegistry(reg)
  {
    match FindEntityMapping(reg, name)
    case None => Failure(NoMapping(name))
    case Some(m) =>
      if item.JObject? then Success(FieldValues(item.members, m.fields))
      else Failure(SerializationError("The entity could not be serialized as a JSON object"))
  }

  /** The values `prepare_update_values` yields, as a value. */
  function UpdateValues(reg: Registry, item: Json, name: string, id: string): Result<seq<Json>, DataSourceError>
    requires ValidRegistry(reg)
  {
    match FindEntityMapping(reg, name)
    case None => Failure(NotFound("No mapping for entity " + name))
    case Some(m) =>
      if item.JObject? then Success(FieldValues(item.members, KeptFields(m.fields, m.primaryKey)) + [JString(id)])
      else Failure(SerializationError("Entity could not be serialized as JSON object"))
  }

  lemma FieldValuesAppend(members: map<string, Json>, fs: seq<FieldMapping>, f: FieldMapping)
    ensures FieldValues(members, fs + [f]) == FieldValues(members, fs) + [FieldValue(members, f)]
  {
  }

  /** The loop of `entity_to_query_values`: one value per field, in order. */
  method CollectValues(members: map<string, Json>, fields: seq<FieldMapping>) returns (values: seq<Json>)
    ensures values == FieldValues(members, fields)
  {
    values := [];
    for k := 0 to |fields|
      invariant values == FieldValues(members, fields[..k])
    {
      assert fields[..k + 1] == fields[..k] + [fields[k]];
      FieldValuesAppend(members, fields[..k], fields[k]);
      values := values + [FieldValue(members, fields[k])];
    }
    assert fields[..|fields|] == fields;
  }

  /** The loop of `prepare_update_values`: one value per field not named as the primary key, in order. */
  method CollectKeptValues(members: map<string, Json>, fields: seq<FieldMapping>, pk: string) returns (values: seq<Json>)
    ensures values == FieldValues(members, KeptFields(fields, pk))
  {
    values := [];
    for k := 0 to |fields|
      invariant values == FieldValues(members, KeptFields(fields[..k], pk))
    {
      assert fields[..k + 1][..k] == fields[..k];
      if fields[k].fieldName != pk {
        FieldValuesAppend(members, KeptFields(fields[..k], pk), fields[k]);
        values := values + [FieldValue(members, fields[k])];
      }
    }
    assert fields[..|fields|] == fields;
  }

  /**
   * The INSERT values of an entity: one per mapped field, in mapping order,
   * the entity's member of that name or null when it has none.
   */
  method EntityToQueryValues(reg: Registry, item: Json, name: string) returns (r: Result<seq<Json>, DataSourceError>)
    requires ValidRegistry(reg)
    ensures r == QueryValues(reg, item, name)
    ensures FindEntityMapping(reg, name).None? ==> r == Failure(NotFound("No mapping found for entity " + name))
    ensures FindEntityMapping(reg, name).Some? && !item.JObject? ==> r.Failure? && r.error.SerializationError?
    ensures r.Success? ==>
              var fields := FindEntityMapping(reg, name).value.fields;
              && item.JObject? && |r.value| == |fields|
              && forall i :: 0 <= i < |fields| ==>
                   r.value[i] == if fields[i].fieldName in item.members then item.members[fields[i].fieldName] else JNull
  {
    var found := FindEntityMapping(reg, name);
    if found.None? {
      return Failure(NoMapping(name));
    }
    if !item.JObject? {
      return Failure(SerializationError("The entity could not be serialized as a JSON object"));
    }
    var values := CollectValues(item.members, found.value.fields);
    r := Success(values);
  }

  /**
   * The UPDATE values of an entity: one per field whose name is not the
   * primary key, in mapping order, then the id as a string.
   */
  method PrepareUpdateValues(reg: Registry, item: Json, name: string, id: string) returns (r: Result<seq<Json>, DataSourceError>)
    requires ValidRegistry(reg)
    ensures r == UpdateValues(reg, item, name, id)
    ensures FindEntityMapping(reg, name).None? ==> r == Failure(NotFound("No mapping for entity " + name))
    ensures FindEntityMapping(reg, name).Some? && !item.JObject? ==> r.Failure? && r.error.SerializationError?
    ensures r.Success? ==>
              var m := FindEntityMapping(reg, name).value;
              var kept := KeptFields(m.fields, m.primaryKey);
              && item.JObject? && |r.value| == |kept| + 1 && r.value[|kept|] == JString(id)
              && forall i :: 0 <= i < |kept| ==> r.value[i] == FieldValue(item.members, kept[i])
  {
    var found := FindEntityMapping(reg, name);
    if found.None? {
      return Failure(NotFound("No mapping for entity " + name));
    }
    if !item.JObject? {
      return Failure(SerializationError("Entity could not be serialized as JSON object"));
    }
    var m := found.value;
    var values := CollectKeptValues(item.members, m.fields, m.primaryKey);
    r := Success(values + [JString(id)]);
  }

  /**
   * The field-type check of `validate_entity`: a value of the tagged kind
   * (any number for "float", an i64 for "integer"), or null for every tag.
   */
  predicate TypeMatches(tag: string, v: Json) {
    || (tag == "string" && v.JString?)
    || (tag == "integer" && v.JInt? && IsI64(v.i))
    || (tag == "float" && (v.JInt? || v.JFloat?))
    || (tag == "boolean" && v.JBool?)
    || v.JNull?
  }

  /**
   * The fields `validate_entity` warns about, in mapping order: those whose
   * member is present and fails `TypeMatches`. Validation only prints them.
   */
  function TypeWarnings(fields: seq<FieldMapping>, members: map<string, Json>): (r: seq<string>)
    ensures |r| <= |fields|
    ensures forall k :: k in r <==> exists i :: 0 <= i < |fields| && fields[i].fieldName == k
                                                && k in members && !TypeMatches(fields[i].fieldType, members[k])
    decreases |fields|
  {
    if |fields| == 0 then []
    else
      var f := fields[0];
      var rest := TypeWarnings(fields[1..], members);
      assert forall i :: 1 <= i < |fields| ==> fields[i] == fields[1..][i - 1];
      if f.fieldName in members && !TypeMatches(f.fieldType, members[f.fieldName]) then [f.fieldName] + rest else rest
  }

  /**
   * `validate_entity`: an unknown entity is NotFound, a non-object is a
   * ValidationError, and every object passes, whatever `TypeWarnings` holds.
   */
  function ValidateEntity(reg: Registry, item: Json, name: string): (r: Result<(), DataSourceError>)
    requires ValidRegistry(reg)
    ensures r.Success? <==> FindEntityMapping(reg, name).Some? && item.JObject?
    ensures FindEntityMapping(reg, name).None? ==> r == Failure(NoMapping(name))
    ensures FindEntityMapping(reg, name).Some? && !item.JObject? ==> r == Failure(ValidationError("Entity must be an object"))
  {
    match FindEntityMapping(reg, name)
    case None => Failure(NoMapping(name))
    case Some(m) => if item.JObject? then Success(()) else Failure(ValidationError("Entity must be an object"))
  }

  /**
   * `get_entity_id`: the primary-key member of the entity, a string as it
   * is and a number in its printed form; anything else is an error whose
   * text ends with the member's `{:?}` rendering (`debug`).
   */
  function GetEntityId(reg: Registry, item: Json, name: string, debug: Json -> string): (r: Result<string, DataSourceError>)
    requires ValidRegistry(reg)
    ensures FindEntityMapping(reg, name).None? ==> r == Failure(NoMapping(name))
    ensures FindEntityMapping(reg, name).Some? && !item.JObject? ==>
              r == Failure(SerializationError("The entity could not be serialized as a JSON object"))
    ensures FindEntityMapping(reg, name).Some? && item.JObject? ==>
              var pk := FindEntityMapping(reg, name).value.primaryKey;
              && (pk !in item.members ==> r == Failure(ValidationError("The ID field '" + pk + "' was not found in the entity")))
              && (pk in item.members && (item.members[pk].JNull? || item.members[pk].JBool? || Unbindable(item.members[pk])) ==>
                    r == Failure(ValidationError("The ID value is not a valid string or number: " + debug(item.members[pk]))))
    ensures r.Success? <==>
              var m := FindEntityMapping(reg, name);
              && m.Some? && item.JObject? && m.value.primaryKey in item.members
              && (item.members[m.value.primaryKey].JString? || item.members[m.value.primaryKey].JInt?
                  || item.members[m.value.primaryKey].JFloat?)
    ensures r.Success? ==>
              var v := item.members[FindEntityMapping(reg, name).value.primaryKey];
              && (v.JString? ==> r.value == v.s)
              && (v.JInt? ==> r.value == IntToString(v.i))
              && (v.JFloat? ==> r.value == v.f.text)
  {
    match FindEntityMapping(reg, name)
    case None => Failure(NoMapping(name))
    case Some(m) =>
      if !item.JObject? then Failure(SerializationError("The entity could not be serialized as a JSON object"))
      else if m.primaryKey !in item.members then
        Failure(ValidationError("The ID field '" + m.primaryKey + "' was not found in the entity"))
      else match item.members[m.primaryKey]
        case JString(s) => Success(s)
        case JInt(i) => Success(IntToString(i))
        case JFloat(f) => Success(f.text)
        case _ => Failure(ValidationError("The ID value is not a valid string or number: " + debug(item.members[m.primaryKey])))
  }

  /**
   * Under a mapping keyed by "id", the id `get_entity_id` reads from a
   * string or integer key is the key the in-memory datasource stores the
   * record under.
   */
  lemma EntityIdIsRecordKey(reg: Registry, item: Json, name: string, debug: Json -> string)
    requires ValidRegistry(reg)
    requires FindEntityMapping(reg, name).Some? && FindEntityMapping(reg, name).value.primaryKey == "id"
    requires RecordKey(item).Some?
    ensures GetEntityId(reg, item, name, debug) == Success(RecordKey(item).value)
  {
  }

  /**
   * How a JSON value is bound to a placeholder. `PWideInt` is an integer
   * beyond the i64 range, which the driver receives converted to an f64;
   * the model keeps the integer it came from.
   */
  datatype SqlParam =
    | PText(s: string)
    | PInt(i: int)
    | PFloat(f: F64)
    | PWideInt(u: int)
    | PBool(b: bool)
    | PNull

  /**
   * `bind_sqlx_value`'s classification: strings, booleans and null bind as
   * themselves, an i64 as an integer, any other number as a float, arrays
   * and objects are refused with their `{:?}` rendering (`debug`). Every
   * serde_json number has an f64 form, so the "Unsupported number type"
   * error cannot arise.
   */
  function BindValue(v: Json, debug: Json -> string): (r: Result<SqlParam, DataSourceError>)
    ensures r.Failure? <==> v.JArray? || v.JObject?
    ensures r.Failure? ==> r.error == ValidationError("Unsupported value type for binding: " + debug(v))
    ensures v.JString? ==> r == Success(PText(v.s))
    ensures v.JInt? && IsI64(v.i) ==> r == Success(PInt(v.i))
    ensures v.JInt? && !IsI64(v.i) ==> r == Success(PWideInt(v.i))
    ensures v.JFloat? ==> r == Success(PFloat(v.f))
    ensures v.JBool? ==> r == Success(PBool(v.b))
    ensures v.JNull? ==> r == Success(PNull)
  {
    match v
    case JString(s) => Success(PText(s))
    case JInt(i) => if IsI64(i) then Success(PInt(i)) else Success(PWideInt(i))
    case JFloat(f) => Success(PFloat(f))
    case JBool(b) => Success(PBool(b))
    case JNull => Success(PNull)
    case _ => Failure(ValidationError("Unsupported value type for binding: " + debug(v)))
  }

  /** A value the binder refuses. */
  predicate Unbindable(v: Json) {
    v.JArray? || v.JObject?
  }

  /**
   * The binding loop of the `run_*_async` functions: every value bound in
   * order, and the first value refused decides the error.
   */
  function BindAll(params: seq<Json>, debug: Json -> string): (r: Result<seq<SqlParam>, DataSourceError>)
    ensures r.Success? <==> forall i :: 0 <= i < |params| ==> !Unbindable(params[i])
    ensures r.Success? ==> |r.value| == |params| && forall i :: 0 <= i < |params| ==> BindValue(params[i], debug) == Success(r.value[i])
    ensures r.Failure? ==> exists i :: 0 <= i < |params| && Unbindable(params[i])
                                       && r.error == ValidationError("Unsupported value type for binding: " + debug(params[i]))
                                       && forall j :: 0 <= j < i ==> !Unbindable(params[j])
    decreases |params|
  {
    if |params| == 0 then Success([])
    else
      var rest := params[1..];
      assert forall j :: 1 <= j < |params| ==> params[j] == rest[j - 1];
      match BindValue(params[0], debug)
      case Failure(e) => Failure(e)
      case Success(p) =>
        match BindAll(rest, debug)
        case Failure(e) => Failure(e)
        case Success(ps) => Success([p] + ps)
  }

  /** The loop that binds a statement's values, proved to be `BindAll`. */
  method BindParams(params: seq<Json>, debug: Json -> string) returns (r: Result<seq<SqlParam>, DataSourceError>)
    ensures r == BindAll(params, debug)
  {
    var bound: seq<SqlParam> := [];
    for k := 0 to |params|
      invariant forall i :: 0 <= i < k ==> !Unbindable(params[i])
      invariant |bound| == k && forall i :: 0 <= i < k ==> BindValue(params[i], debug) == Success(bound[i])
    {
      var p := BindValue(params[k], debug);
      if p.Failure? {
        var all := BindAll(params, debug);
        var i :| 0 <= i < |params| && Unbindable(params[i])
                 && all.error == ValidationError("Unsupported value type for binding: " + debug(params[i]))
                 && forall j :: 0 <= j < i ==> !Unbindable(params[j]);
        assert i == k;
        return Failure(p.error);
      }
      bound := bound + [p.value];
    }
    assert bound == BindAll(params, debug).value;
    r := Success(bound);
  }

  /** A statement ready to run: its text and the values for its placeholders. */
  datatype Statement = Statement(sql: string, params: seq<Json>)

  /** `get_pool_or_err`. */
  function PoolOrErr(connected: bool): (r: Result<(), DataSourceError>)
    ensures r.Success? <==> connected
  {
    if connected then Success(()) else Failure(ConnectionError("No database connection"))
  }

  /** `get_all` up to running the query: pool, then SELECT. */
  function GetAllStatement(reg: Registry, connected: bool, name: string): (r: Result<Statement, DataSourceError>)
    requires ValidRegistry(reg)
    ensures r.Success? <==> connected && FindEntityMapping(reg, name).Some?
    ensures !connected ==> r == Failure(ConnectionError("No database connection"))
    ensures connected && FindEntityMapping(reg, name).None? ==> r == Failure(NotFound("No mapping found for entity '" + name + "'"))
    ensures r.Success? ==> r.value == Statement(SelectText(FindEntityMapping(reg, name).value), [])
  {
    if !connected then Failure(ConnectionError("No database connection"))
    else match FindEntityMapping(reg, name)
      case None => Failure(NotFound("No mapping found for entity '" + name + "'"))
      case Some(m) => Success(Statement(SelectText(m), []))
  }

  /** `get_by_id` up to running the query: pool, then SELECT by primary key with the id. */
  function GetByIdStatement(reg: Registry, connected: bool, id: string, name: string): (r: Result<Statement, DataSourceError>)
    requires ValidRegistry(reg)
    ensures r.Success? <==> connected && FindEntityMapping(reg, name).Some?
    ensures !connected ==> r == Failure(ConnectionError("No database connection"))
    ensures connected && FindEntityMapping(reg, name).None? ==> r == Failure(NoMapping(name))
    ensures r.Success? ==> r.value == Statement(SelectByIdText(FindEntityMapping(reg, name).value), [JString(id)])
  {
    if !connected then Failure(ConnectionError("No database connection"))
    else match FindEntityMapping(reg, name)
      case None => Failure(NoMapping(name))
      case Some(m) => Success(Statement(SelectByIdText(m), [JString(id)]))
  }

  /** `create` up to running the query: validation, pool, INSERT, values. */
  function CreateStatement(reg: Registry, connected: bool, item: Json, name: string): (r: Result<Statement, DataSourceError>)
    requires ValidRegistry(reg)
    ensures r.Success? <==> FindEntityMapping(reg, name).Some? && item.JObject? && connected
    ensures r.Failure? && ValidateEntity(reg, item, name).Failure? ==> r.error == ValidateEntity(reg, item, name).error
    ensures ValidateEntity(reg, item, name).Success? && !connected ==> r == Failure(ConnectionError("No database connection"))
    ensures r.Success? ==> r.value == Statement(InsertText(FindEntityMapping(reg, name).value), QueryValues(reg, item, name).value)
  {
    match ValidateEntity(reg, item, name)
    case Failure(e) => Failure(e)
    case Success(_) =>
      if !connected then Failure(ConnectionError("No database connection"))
      else
        var m := FindEntityMapping(reg, name).value;
        match QueryValues(reg, item, name)
        case Failure(e) => Failure(e)
        case Success(values) => Success(Statement(InsertText(m), values))
  }

  /** `update` up to running the query: validation, pool, UPDATE, values ending with the id. */
  function UpdateStatement(reg: Registry, connected: bool, id: string, item: Json, name: string): (r: Result<Statement, DataSourceError>)
    requires ValidRegistry(reg)
    ensures r.Success? <==> FindEntityMapping(reg, name).Some? && item.JObject? && connected
    ensures r.Failure? && ValidateEntity(reg, item, name).Failure? ==> r.error == ValidateEntity(reg, item, name).error
    ensures ValidateEntity(reg, item, name).Success? && !connected ==> r == Failure(ConnectionError("No database connection"))
    ensures r.Success? ==> r.value == Statement(UpdateText(FindEntityMapping(reg, name).value), UpdateValues(reg, item, name, id).value)
  {
    match ValidateEntity(reg, item, name)
    case Failure(e) => Failure(e)
    case Success(_) =>
      if !connected then Failure(ConnectionError("No database connection"))
      else
        var m := FindEntityMapping(reg, name).value;
        match UpdateValues(reg, item, name, id)
        case Failure(e) => Failure(e)
        case Success(values) => Success(Statement(UpdateText(m), values))
  }

  /** `delete` up to running the query: pool, then DELETE by primary key with the id. */
  function DeleteStatement(reg: Registry, connected: bool, id: string, name: string): (r: Result<Statement, DataSourceError>)
    requires ValidRegistry(reg)
    ensures r.Success? <==> connected && FindEntityMapping(reg, name).Some?
    ensures !connected ==> r == Failure(ConnectionError("No database connection"))
    ensures connected && FindEntityMapping(reg, name).None? ==> r == Failure(NoMapping(name))
    ensures r.Success? ==> r.value == Statement(DeleteText(FindEntityMapping(reg, name).value), [JString(id)])
  {
    if !connected then Failure(ConnectionError("No database connection"))
    else match FindEntityMapping(reg, name)
      case None => Failure(NoMapping(name))
      case Some(m) => Success(Statement(DeleteText(m), [JString(id)]))
  }

  /** No stored mapping holds a `?` in a name that reaches the query text. */
  predicate RegistryPlaceholderFree(reg: Registry) {
    forall k :: k in reg.mappings ==> PlaceholderFree(reg.mappings[k])
  }

  /** The mapping a lookup finds in a registry free of `?` is free of them too. */
  lemma FoundPlaceholderFree(reg: Registry, name: string)
    requires ValidRegistry(reg) && RegistryPlaceholderFree(reg) && FindEntityMapping(reg, name).Some?
    ensures PlaceholderFree(FindEntityMapping(reg, name).value)
  {
    var m := FindEntityMapping(reg, name).value;
    var k :| k in reg.mappings && reg.mappings[k] == m;
  }

  lemma ReadStatementsMatch(reg: Registry, connected: bool, id: string, name: string)
    requires ValidRegistry(reg) && RegistryPlaceholderFree(reg)
    ensures var s := GetAllStatement(reg, connected, name); s.Success? ==> CountChar(s.value.sql, '?') == |s.value.params|
    ensures var s := GetByIdStatement(reg, connected, id, name); s.Success? ==> CountChar(s.value.sql, '?') == |s.value.params|
    ensures var s := DeleteStatement(reg, connected, id, name); s.Success? ==> CountChar(s.value.sql, '?') == |s.value.params|
  {
    if FindEntityMapping(reg, name).Some? {
      var m := FindEntityMapping(reg, name).value;
      FoundPlaceholderFree(reg, name);
      SelectPlaceholders(m);
      KeyedPlaceholders(m);
    }
  }

  lemma CreateStatementMatches(reg: Registry, connected: bool, item: Json, name: string)
    requires ValidRegistry(reg) && RegistryPlaceholderFree(reg)
    ensures var s := CreateStatement(reg, connected, item, name); s.Success? ==> CountChar(s.value.sql, '?') == |s.value.params|
  {
    if CreateStatement(reg, connected, item, name).Success? {
      var m := FindEntityMapping(reg, name).value;
      FoundPlaceholderFree(reg, name);
      InsertPlaceholders(m);
    }
  }

  lemma UpdateStatementMatches(reg: Registry, connected: bool, id: string, item: Json, name: string)
    requires ValidRegistry(reg) && RegistryPlaceholderFree(reg)
    ensures var s := UpdateStatement(reg, connected, id, item, name); s.Success? ==> CountChar(s.value.sql, '?') == |s.value.params|
  {
    if UpdateStatement(reg, connected, id, item, name).Success? {
      var m := FindEntityMapping(reg, name).value;
      FoundPlaceholderFree(reg, name);
      UpdatePlaceholders(m);
    }
  }

  /** A statement's text has exactly one `?` per value it is run with, for every operation. */
  lemma PlaceholdersMatchParams(reg: Registry, connected: bool, id: string, item: Json, name: string)
    requires ValidRegistry(reg) && RegistryPlaceholderFree(reg)
    ensures var s := GetAllStatement(reg, connected, name); s.Success? ==> CountChar(s.value.sql, '?') == |s.value.params|
    ensures var s := GetByIdStatement(reg, connected, id, name); s.Success? ==> CountChar(s.value.sql, '?') == |s.value.params|
    ensures var s := CreateStatement(reg, connected, item, name); s.Success? ==> CountChar(s.value.sql, '?') == |s.value.params|
    ensures var s := UpdateStatement(reg, connected, id, item, name); s.Success? ==> CountChar(s.value.sql, '?') == |s.value.params|
    ensures var s := DeleteStatement(reg, connected, id, name); s.Success? ==> CountChar(s.value.sql, '?') == |s.value.params|
  {
    ReadStatementsMatch(reg, connected, id, name);
    CreateStatementMatches(reg, connected, item, name);
    UpdateStatementMatches(reg, connected, id, item, name);
  }

  /** The mapping of an entity whose names hold no `?` holds none either. */
  predicate EntityPlaceholderFree(e: EntityConfig.Entity) {
    && '?' !in e.name
    && (e.tableName.Some? ==> '?' !in e.tableName.value)
    && forall i :: 0 <= i < |e.fields| ==>
         '?' !in e.fields[i].name && (e.fields[i].columnName.Some? ==> '?' !in e.fields[i].columnName.value)
  }

  lemma TableMappingPlaceholderFree(e: EntityConfig.Entity)
    requires EntityPlaceholderFree(e)
    ensures PlaceholderFree(TableMappingOf(e))
  {
  }

  /** Configuring entities whose names hold no `?` keeps every stored mapping free of them. */
  lemma {:induction false} ConfiguredRegistryPlaceholderFree(reg: Registry, es: seq<EntityConfig.Entity>)
    requires ValidRegistry(reg) && RegistryPlaceholderFree(reg)
    requires forall i :: 0 <= i < |es| ==> EntityPlaceholderFree(es[i])
    ensures RegistryPlaceholderFree(RegisterAll(reg, es))
    decreases |es|
  {
    if |es| > 0 {
      var prefix := es[..|es| - 1];
      ConfiguredRegistryPlaceholderFree(reg, prefix);
      TableMappingPlaceholderFree(es[|es| - 1]);
      RegisterEntityStoresAllNames(RegisterAll(reg, prefix), es[|es| - 1]);
    }
  }
}
