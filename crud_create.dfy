/** The create endpoint: `POST:<entity>` inserts the parsed request body. */
module CrudCreate {
  import opened Wrappers
  import opened Json
  import opened EntityConfig
  import opened Errors
  import opened ApiTypes
  import opened HandlerUtils
  import DataSourceBase

  /** The key the create endpoint is registered under. */
  function CreateKey(entity: Entity): string {
    "POST:" + entity.name
  }

  /** The request carries a body that is not empty. */
  predicate HasBody(request: ApiRequest) {
    request.body.Some? && request.body.value != ""
  }

  /**
   * The create handler against records `s`: no body and an unparsable body
   * are rejected before the datasource is touched; otherwise the parsed item
   * is created once, and the response is 201 with the created item exactly
   * when the datasource accepted it.
   */
  function CreateRun(parse: Parser, request: ApiRequest, s: DataSourceBase.Store): (r: Run)
    requires DataSourceBase.ValidStore(s)
    ensures DataSourceBase.ValidStore(r.store) && r.outcome.Done?
    ensures !HasBody(request) ==> r == Run(Done(Failure(BadRequest("Request body is required"))), s, [])
    ensures HasBody(request) && parse(request.body.value).Failure? ==>
              r == Run(Done(Failure(BadRequest("Invalid request format: " + parse(request.body.value).error))), s, [])
    ensures r.calls != [] ==> HasBody(request) && parse(request.body.value).Success?
                              && r.calls == [DataSourceBase.CreateCall(parse(request.body.value).value)]
    ensures r.outcome.result.Success? <==>
              && HasBody(request) && parse(request.body.value).Success?
              && DataSourceBase.WriteError(s).None?
              && DataSourceBase.RecordKey(parse(request.body.value).value).Some?
              && DataSourceBase.RecordKey(parse(request.body.value).value).value !in s.records
    ensures r.outcome.result.Success? ==>
              var item := parse(request.body.value).value;
              && r.outcome.result.value == ApiResponse(201, DefaultHeaders(), Some(Single(item)))
              && r.store.records == s.records[DataSourceBase.RecordKey(item).value := item]
    ensures r.calls != [] && r.outcome.result.Failure? ==>
              r.outcome.result.error ==
                ServerError("Failed to create item: " + DataSourceBase.Display(DataSourceBase.CreateOf(s, parse(request.body.value).value).0.error))
    ensures r.outcome.result.Failure? ==> r.store == s
  {
    if !HasBody(request) then Run(Done(Failure(BadRequest("Request body is required"))), s, [])
    else match parse(request.body.value)
      case Failure(e) => Run(Done(Failure(BadRequest("Invalid request format: " + e))), s, [])
      case Success(item) =>
        var (created, s') := DataSourceBase.CreateOf(s, item);
        var outcome := match created
          case Success(v) => Done(Success(ApiResponse(201, DefaultHeaders(), Some(Single(v)))))
          case Failure(e) => Done(Failure(ServerError("Failed to create item: " + DataSourceBase.Display(e))));
        Run(outcome, s', [DataSourceBase.CreateCall(item)])
  }

  /** The create handler closure, run on the datasource it captured. */
  method HandleCreate(ds: DataSourceBase.DataSource, parse: Parser, request: ApiRequest) returns (o: Outcome)
    requires ds.Valid()
    modifies ds
    ensures ds.Valid()
    ensures o == CreateRun(parse, request, old(ds.store)).outcome
    ensures ds.store == CreateRun(parse, request, old(ds.store)).store
    ensures ds.log == old(ds.log) + CreateRun(parse, request, old(ds.store)).calls
  {
    if !HasBody(request) {
      return Done(Failure(BadRequest("Request body is required")));
    }
    var parsed := parse(request.body.value);
    if parsed.Failure? {
      return Done(Failure(BadRequest("Invalid request format: " + parsed.error)));
    }
    var created := ds.Create(parsed.value);
    match created
    case Success(item) =>
      o := Done(Success(ApiResponse(201, DefaultHeaders(), Some(Single(item)))));
    case Failure(e) =>
      o := Done(Failure(ServerError("Failed to create item: " + DataSourceBase.Display(e))));
  }

  /**
   * Registers the create handler, on a clone of the datasource handle, under
   * `CreateKey`; a handler already under that key is replaced, no other key changes.
   */
  method RegisterCreateEndpoint(datasource: DataSourceBase.DataSource, entity: Entity, endpoints: EndpointTable)
    modifies endpoints
    ensures endpoints.entries == old(endpoints.entries)[CreateKey(entity) := CreateEndpoint(datasource)]
  {
    var ds := datasource.BoxClone();
    endpoints.Insert(CreateKey(entity), CreateEndpoint(ds));
  }
}
