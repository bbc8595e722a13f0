/**
 * The configuration records that describe one exposed entity: its fields,
 * its storage names and which endpoints to generate.
 */
module EntityConfig {
  import opened Wrappers

  datatype DataType = String | Integer | Float | Boolean | Date | DateTime | Binary | JSON

  datatype HttpMethod = GET | POST | PUT | PATCH | DELETE

  /** The `{:?}` (Debug) rendering of a method, which endpoint keys are built from. */
  function MethodName(m: HttpMethod): (r: string)
    ensures |r| >= 3 && ':' !in r
  {
    match m
    case GET => "GET"
    case POST => "POST"
    case PUT => "PUT"
    case PATCH => "PATCH"
    case DELETE => "DELETE"
  }

  /** Distinct methods never share a name, so keys built from them never collide. */
  lemma MethodNameInjective(a: HttpMethod, b: HttpMethod)
    requires a != b
    ensures MethodName(a) != MethodName(b)
  {
    var x, y := MethodName(a), MethodName(b);
    assert x[0] != y[0] || x[1] != y[1];
  }

  datatype Field = Field(
    name: string,
    columnName: Option<string>,
    dataType: DataType,
    required: bool,
    unique: bool,
    searchable: bool,
    defaultValue: Option<string>,
    description: Option<string>)

  datatype CustomRoute = CustomRoute(path: string, httpMethod: HttpMethod, handler: string)

  datatype EndpointConfig = EndpointConfig(
    generateCreate: bool,
    generateRead: bool,
    generateUpdate: bool,
    generateDelete: bool,
    generateList: bool,
    customRoutes: seq<CustomRoute>)

  /** An entity. Relationships, authentication, authorization, validations and pagination are not part of this model. */
  datatype Entity = Entity(
    name: string,
    tableName: Option<string>,
    fields: seq<Field>,
    endpoints: EndpointConfig)
}
