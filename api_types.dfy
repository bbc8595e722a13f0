/**
 * The request and response records the API adapter passes between the
 * transport and the endpoint handlers, and the table of registered
 * endpoints.
 */
module ApiTypes {
  import opened Wrappers
  import opened Json
  import opened EntityConfig
  import opened Errors
  import opened DatabaseConfigs
  import DataSourceBase

  datatype ApiRequest = ApiRequest(
    httpMethod: HttpMethod,
    path: string,
    params: map<string, string>,
    headers: map<string, string>,
    body: Option<string>)

  /** A response body: one entity, a list of entities, or a bare JSON value. */
  datatype ResponseBody = Single(item: Json) | List(items: seq<Json>) | JsonBody(value: Json)

  datatype ApiResponse = ApiResponse(status: U16, headers: map<string, string>, body: Option<ResponseBody>)

  /**
   * What invoking a handler produces: a result, or the panic of a handler
   * whose body is `unimplemented!()`, with its message.
   */
  datatype Outcome = Done(result: Result<ApiResponse, ApiError>) | Unimplemented(msg: string)

  /**
   * What a handler does to a datasource whose records were `store`: its
   * outcome, the records afterwards and the datasource calls it made.
   */
  datatype Run = Run(outcome: Outcome, store: DataSourceBase.Store, calls: seq<DataSourceBase.Op>)

  /** `serde_json::from_str` at the entity type: the parsed value or the parser's message. */
  type Parser = string -> Result<Json, string>

  /**
   * A registered handler closure. The datasource handle a closure captured
   * is kept; the read and custom-route closures capture none.
   */
  datatype EndpointHandler =
    | CreateEndpoint(ds: DataSourceBase.DataSource)
    | ReadEndpoint
    | UpdateEndpoint(ds: DataSourceBase.DataSource)
    | DeleteEndpoint(ds: DataSourceBase.DataSource)
    | ListEndpoint(ds: DataSourceBase.DataSource)
    | CustomEndpoint(httpMethod: HttpMethod)

  /** The handler captured a datasource. */
  predicate HasDatasource(h: EndpointHandler) {
    !h.ReadEndpoint? && !h.CustomEndpoint?
  }

  /** The datasource a handler works on, if it captured one. */
  function Footprint(h: EndpointHandler): set<DataSourceBase.DataSource> {
    if HasDatasource(h) then {h.ds} else {}
  }

  /**
   * The `HashMap<String, EndpointHandler>` a registration function receives
   * as `&mut`: registrations update it in place.
   */
  class EndpointTable {
    var entries: map<string, EndpointHandler>

    constructor ()
      ensures entries == map[]
    {
      entries := map[];
    }

    /** `HashMap::insert`: the key now maps to `h`, replacing any handler it had. */
    method Insert(key: string, h: EndpointHandler)
      modifies this
      ensures entries == old(entries)[key := h]
    {
      entries := entries[key := h];
    }
  }
}
