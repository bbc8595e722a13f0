/**
 * The catch-all transport handlers: the request each HTTP method builds,
 * and how the outcome of processing it becomes a response.
 */
module CatchAll {
  import opened Wrappers
  import opened Json
  import opened EntityConfig
  import opened Errors
  import opened DatabaseConfigs
  import opened ApiTypes
  import opened HandlerUtils
  import opened CrudCreate
  import opened CrudRead
  import opened CrudUpdate
  import opened CrudDelete
  import opened CrudList
  import opened ApiAdapters
  import DataSourceBase

  /**
   * The request a catch-all handler builds from the matched path (the
   * segments after the mount point, without a leading '/') and the body it
   * read: GET and DELETE carry no body, params and headers are empty.
   */
  function CatchAllRequest(m: HttpMethod, path: string, body: Option<string>): (r: ApiRequest)
    ensures r.httpMethod == m && r.path == path
    ensures r.params == map[] && r.headers == map[]
    ensures m == GET || m == DELETE ==> r.body.None?
    ensures m != GET && m != DELETE ==> r.body == body
  {
    ApiRequest(m, path, map[], map[], if m == GET || m == DELETE then None else body)
  }

  /** How the blocking task that handled the request ended. */
  datatype TaskResult =
    | Completed(outcome: Outcome)   // the handler returned, or panicked (`Unimplemented`)
    | TimedOut                      // the 30-second timeout elapsed first

  const NOT_FOUND: U16 := 404
  const BAD_REQUEST: U16 := 400
  const INTERNAL_SERVER_ERROR: U16 := 500
  const GATEWAY_TIMEOUT: U16 := 504

  /** The status of an error response. */
  function ErrorStatus(e: ApiError): (s: U16)
    ensures e.EntityNotFound? <==> s == NOT_FOUND
    ensures e.ValidationError? || e.BadRequest? <==> s == BAD_REQUEST
    ensures s == NOT_FOUND || s == BAD_REQUEST || s == INTERNAL_SERVER_ERROR
  {
    match e
    case EntityNotFound(_) => NOT_FOUND
    case ValidationError(_) => BAD_REQUEST
    case BadRequest(_) => BAD_REQUEST
    case DatabaseError(_) => INTERNAL_SERVER_ERROR
    case _ => INTERNAL_SERVER_ERROR
  }

  /** A JSON body `{"error": text}`. */
  function ErrorBody(text: string): ResponseBody {
    JsonBody(JObject(map["error" := JString(text)]))
  }

  const JOIN_FAILED_MESSAGE: string := "Internal server error: Request processing failed"
  const TIMED_OUT_MESSAGE: string := "Request timed out - database operation may be taking too long"

  /**
   * `process_request` after the task: a response passes through unchanged;
   * an error becomes its status with `{"error": <display text>}`; a panic
   * in the handler (the join error) is 500 and a timeout 504, each with a
   * fixed message. Every response made here has the default headers.
   */
  function ProcessRequest(t: TaskResult): (r: ApiResponse)
    ensures t.Completed? && t.outcome.Done? && t.outcome.result.Success? ==> r == t.outcome.result.value
    ensures t.Completed? && t.outcome.Done? && t.outcome.result.Failure? ==>
              && r.status == ErrorStatus(t.outcome.result.error)
              && r.body == Some(ErrorBody(Display(t.outcome.result.error)))
              && r.headers == DefaultHeaders()
    ensures t.Completed? && t.outcome.Unimplemented? ==>
              r == ApiResponse(INTERNAL_SERVER_ERROR, DefaultHeaders(), Some(ErrorBody(JOIN_FAILED_MESSAGE)))
    ensures t.TimedOut? ==> r == ApiResponse(GATEWAY_TIMEOUT, DefaultHeaders(), Some(ErrorBody(TIMED_OUT_MESSAGE)))
  {
    match t
    case Completed(Done(Success(response))) => response
    case Completed(Done(Failure(err))) =>
      ApiResponse(ErrorStatus(err), DefaultHeaders(), Some(ErrorBody(Display(err))))
    case Completed(Unimplemented(_)) =>
      ApiResponse(INTERNAL_SERVER_ERROR, DefaultHeaders(), Some(ErrorBody(JOIN_FAILED_MESSAGE)))
    case TimedOut =>
      ApiResponse(GATEWAY_TIMEOUT, DefaultHeaders(), Some(ErrorBody(TIMED_OUT_MESSAGE)))
  }

  /**
   * An error response ends with the error's own message: a not-found for
   * "Entity not found: users" is a 404 whose text ends in "users".
   */
  lemma ErrorResponseShowsMessage(e: ApiError)
    ensures var r := ProcessRequest(Completed(Done(Failure(e))));
            && r.body.Some? && r.body.value.JsonBody? && r.body.value.value.JObject?
            && "error" in r.body.value.value.members
            && r.body.value.value.members["error"].JString?
            && var text := r.body.value.value.members["error"].s;
               |text| > |e.msg| && text[|text| - |e.msg|..] == e.msg
  {
    DisplayEndsWithPayload(e);
  }

  /**
   * A catch-all path of one segment has no '/', so the adapter rejects it
   * as an invalid path, with status 400, before any entity is looked up.
   */
  lemma SingleSegmentPathIsInvalid(entities: map<string, EntityApi>, m: HttpMethod, path: string, body: Option<string>)
    requires '/' !in path
    ensures var request := CatchAllRequest(m, path, body);
            && Route(entities, request) == Failure(ValidationError("Invalid path"))
            && ProcessRequest(Completed(Done(Failure(Route(entities, request).error)))).status == BAD_REQUEST
  {
  }

  /**
   * The catch-all never fills in path parameters, so the read, update and
   * delete handlers reject every request it builds as missing its id,
   * without calling the datasource.
   */
  lemma CatchAllRequestsLackId(parse: Parser, m: HttpMethod, path: string, body: Option<string>, s: DataSourceBase.Store)
    requires DataSourceBase.ValidStore(s)
    ensures var request := CatchAllRequest(m, path, body);
            var missing := Done(Failure(ValidationError("ID parameter missing")));
            && ReadRun(request) == missing
            && UpdateRun(parse, request, s) == Run(missing, s, [])
            && DeleteRun(request, s) == Run(missing, s, [])
  {
  }

  /** A key's method part ends at its first ':', so two keys with ':'-free method parts agree on what follows. */
  lemma KeyPathsAgree(a: string, path: string, b: string, rest: string)
    requires ':' !in a && ':' !in b
    requires a + ":" + path == b + ":" + rest
    ensures path == rest
  {
    var k := a + ":" + path;
    assert k[|a|] == ':' && (b + ":" + rest)[|b|] == ':';
    assert k[|a| + 1..] == path && k[|b| + 1..] == rest;
  }

  /**
   * The list and create endpoints are out of the catch-all's reach: their
   * keys hold no '/' after the method, so a request dispatched on either
   * key has a path without '/', which the adapter rejects as invalid.
   */
  lemma CollectionKeysUnreachable(entities: map<string, EntityApi>, m: HttpMethod, path: string, body: Option<string>,
                                  entity: Entity)
    requires '/' !in entity.name
    requires var key := EndpointKey(CatchAllRequest(m, path, body));
             key == ListKey(entity.name) || key == CreateKey(entity)
    ensures Route(entities, CatchAllRequest(m, path, body)) == Failure(ValidationError("Invalid path"))
  {
    var key := EndpointKey(CatchAllRequest(m, path, body));
    if key == ListKey(entity.name) {
      assert ListKey(entity.name) == "GET" + ":" + entity.name;
      KeyPathsAgree(MethodName(m), path, "GET", entity.name);
    } else {
      assert CreateKey(entity) == "POST" + ":" + entity.name;
      KeyPathsAgree(MethodName(m), path, "POST", entity.name);
    }
  }
}
