/**
 * How an entity is laid out in a relational table: one field mapping per
 * entity field, a table name and a primary-key column.
 */
module RelationalBase {
  import opened Wrappers
  import opened EntityConfig
  import Strings

  datatype FieldMapping = FieldMapping(fieldName: string, columnName: string, fieldType: string)

  datatype TableMapping = TableMapping(tableName: string, primaryKey: string, fields: seq<FieldMapping>)

  /** The type tag of a field, as the SQL layer dispatches on it. */
  function DataTypeToString(t: DataType): string {
    match t
    case String => "string"
    case Integer => "integer"
    case Float => "float"
    case Boolean => "boolean"
    case Date => "date"
    case DateTime => "datetime"
    case Binary => "binary"
    case JSON => "json"
  }

  /** The eight tags are lower-case and pairwise distinct. */
  lemma DataTypeTagsDistinct(a: DataType, b: DataType)
    requires a != b
    ensures DataTypeToString(a) != DataTypeToString(b)
    ensures Strings.IsLower(DataTypeToString(a))
  {
    var x, y := DataTypeToString(a), DataTypeToString(b);
    assert |x| != |y| || x[0] != y[0];
  }

  /** A field that `detect_primary_key` accepts: named "id", or both unique and required. */
  predicate IsKeyCandidate(f: Field) {
    f.name == "id" || (f.unique && f.required)
  }

  /** Index of the first key candidate, if any. */
  function FirstKeyCandidate(fields: seq<Field>): (r: Option<nat>)
    ensures r.Some? ==> r.value < |fields| && IsKeyCandidate(fields[r.value])
    ensures r.Some? ==> forall j :: 0 <= j < r.value ==> !IsKeyCandidate(fields[j])
    ensures r.None? ==> forall j :: 0 <= j < |fields| ==> !IsKeyCandidate(fields[j])
    decreases |fields|
  {
    if |fields| == 0 then None
    else if IsKeyCandidate(fields[0]) then Some(0)
    else match FirstKeyCandidate(fields[1..])
      case None => None
      case Some(k) => Some(k + 1)
  }

  /**
   * The name of the first field named "id" or both unique and required;
   * "id" when there is none.
   */
  function DetectPrimaryKey(entity: Entity): (r: string)
    ensures (exists i :: 0 <= i < |entity.fields| && IsKeyCandidate(entity.fields[i]) && r == entity.fields[i].name
               && forall j :: 0 <= j < i ==> !IsKeyCandidate(entity.fields[j]))
         || ((forall j :: 0 <= j < |entity.fields| ==> !IsKeyCandidate(entity.fields[j])) && r == "id")
  {
    match FirstKeyCandidate(entity.fields)
    case Some(i) => entity.fields[i].name
    case None => "id"
  }

  /** The mapping of one field: its column override or its own name, and its type tag. */
  function FieldMappingOf(f: Field): FieldMapping {
    FieldMapping(f.name, f.columnName.GetOr(f.name), DataTypeToString(f.dataType))
  }

  /** The table mapping `create_table_mapping` builds, as a value. */
  function TableMappingOf(entity: Entity): TableMapping {
    TableMapping(
      entity.tableName.GetOr(entity.name),
      if |entity.fields| == 0 then "id" else FieldMappingOf(entity.fields[0]).columnName,
      seq(|entity.fields|, i requires 0 <= i < |entity.fields| => FieldMappingOf(entity.fields[i])))
  }

  /**
   * Builds the table mapping of an entity, one field at a time; the primary
   * key is the column of the first field, not the detected key.
   */
  method CreateTableMapping(entity: Entity) returns (m: TableMapping)
    ensures m.tableName == if entity.tableName.Some? then entity.tableName.value else entity.name
    ensures |m.fields| == |entity.fields|
    ensures forall i :: 0 <= i < |entity.fields| ==>
              && m.fields[i].fieldName == entity.fields[i].name
              && m.fields[i].columnName == (if entity.fields[i].columnName.Some? then entity.fields[i].columnName.value else entity.fields[i].name)
              && m.fields[i].fieldType == DataTypeToString(entity.fields[i].dataType)
    ensures m.primaryKey == if |entity.fields| == 0 then "id" else m.fields[0].columnName
    ensures m == TableMappingOf(entity)
  {
    var tableName := entity.tableName.GetOr(entity.name);
    var fields: seq<FieldMapping> := [];
    var primaryKey := "id";
    for k := 0 to |entity.fields|
      invariant |fields| == k
      invariant forall i :: 0 <= i < k ==> fields[i] == FieldMappingOf(entity.fields[i])
      invariant primaryKey == if k == 0 then "id" else fields[0].columnName
    {
      var field := entity.fields[k];
      var columnName := field.columnName.GetOr(field.name);
      fields := fields + [FieldMapping(field.name, columnName, DataTypeToString(field.dataType))];
      if |fields| == 1 {
        primaryKey := columnName;
      }
    }
    m := TableMapping(tableName, primaryKey, fields);
  }

  /**
   * The mapping's primary key is not the detected key: an entity whose first
   * field is a plain "name" and whose second is "id" is keyed on "name".
   */
  lemma PrimaryKeyIsNotDetected()
    ensures var e := Entity("user", None, [Field("name", None, String, false, false, false, None, None),
                                           Field("id", None, Integer, true, true, false, None, None)],
                            EndpointConfig(false, false, false, false, false, []));
            TableMappingOf(e).primaryKey == "name" && DetectPrimaryKey(e) == "id"
  {
    var e := Entity("user", None, [Field("name", None, String, false, false, false, None, None),
                                   Field("id", None, Integer, true, true, false, None, None)],
                    EndpointConfig(false, false, false, false, false, []));
    assert !IsKeyCandidate(e.fields[0]);
    assert FirstKeyCandidate(e.fields[1..]) == Some(0);
  }
}
