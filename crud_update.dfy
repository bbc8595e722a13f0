/** The update endpoint: `PUT:<entity>/:id` checks that the record exists, then overwrites it. */
module CrudUpdate {
  import opened Wrappers
  import opened Json
  import opened EntityConfig
  import opened Errors
  import opened ApiTypes
  import opened HandlerUtils
  import DataSourceBase

  /** The key the update endpoint is registered under. */
  function UpdateKey(entity: Entity): string {
    "PUT:" + entity.name + "/:id"
  }

  /** The body the handler parses: an absent body reads as an empty object. */
  function BodyText(request: ApiRequest): string {
    request.body.GetOr("{}")
  }

  /**
   * The request names a record that exists in `s`, `get_by_id` succeeds,
   * and the body parses: exactly the case in which `update` is called.
   */
  predicate ReachesUpdate(parse: Parser, request: ApiRequest, s: DataSourceBase.Store) {
    && "id" in request.params
    && s.fault.None?
    && request.params["id"] in s.records
    && parse(BodyText(request)).Success?
  }

  /**
   * The update handler against records `s`. The id check comes first, then
   * the existence check, then parsing; `update` is called once, and only
   * when the record exists and the body parses.
   */
  function UpdateRun(parse: Parser, request: ApiRequest, s: DataSourceBase.Store): (r: Run)
    requires DataSourceBase.ValidStore(s)
    ensures DataSourceBase.ValidStore(r.store) && r.outcome.Done?
    ensures "id" !in request.params ==> r == Run(Done(Failure(ValidationError("ID parameter missing"))), s, [])
    ensures "id" in request.params ==> 1 <= |r.calls| && r.calls[0] == DataSourceBase.GetByIdCall(request.params["id"])
    ensures "id" in request.params && s.fault.Some? ==>
              r == Run(Done(Failure(HandleDatasourceError(s.fault.value))), s, [DataSourceBase.GetByIdCall(request.params["id"])])
    ensures "id" in request.params && s.fault.None? && request.params["id"] !in s.records ==>
              var id := request.params["id"];
              r == Run(Done(Failure(EntityNotFound("Item with ID " + id + " not found"))), s, [DataSourceBase.GetByIdCall(id)])
    ensures "id" in request.params && s.fault.None? && request.params["id"] in s.records && parse(BodyText(request)).Failure? ==>
              r.outcome == Done(Failure(BadRequest("Invalid request format: " + parse(BodyText(request)).error)))
    ensures DataSourceBase.UpdateCount(r.calls) == if ReachesUpdate(parse, request, s) then 1 else 0
    ensures ReachesUpdate(parse, request, s) ==>
              r.calls == [DataSourceBase.GetByIdCall(request.params["id"]),
                          DataSourceBase.UpdateCall(request.params["id"], parse(BodyText(request)).value)]
    ensures r.outcome.result.Success? <==> ReachesUpdate(parse, request, s) && s.writeFault.None?
    ensures r.outcome.result.Success? ==>
              var item := parse(BodyText(request)).value;
              && r.outcome.result.value == ApiResponse(200, DefaultHeaders(), Some(Single(item)))
              && r.store.records == s.records[request.params["id"] := item]
    ensures ReachesUpdate(parse, request, s) && s.writeFault.Some? ==>
              r.outcome == Done(Failure(ServerError("Failed to update item: " + DataSourceBase.Display(s.writeFault.value))))
    ensures r.outcome.result.Failure? ==> r.store == s
  {
    if "id" !in request.params then Run(Done(Failure(ValidationError("ID parameter missing"))), s, [])
    else
      var id := request.params["id"];
      var check := [DataSourceBase.GetByIdCall(id)];
      match DataSourceBase.GetByIdOf(s, id)
      case Failure(e) => Run(Done(Failure(HandleDatasourceError(e))), s, check)
      case Success(None) => Run(Done(Failure(EntityNotFound("Item with ID " + id + " not found"))), s, check)
      case Success(Some(_)) =>
        match parse(BodyText(request))
        case Failure(e) => Run(Done(Failure(BadRequest("Invalid request format: " + e))), s, check)
        case Success(item) =>
          var (updated, s') := DataSourceBase.UpdateOf(s, id, item);
          var outcome := match updated
            case Success(v) => Done(Success(ApiResponse(200, DefaultHeaders(), Some(Single(v)))))
            case Failure(e) => Done(Failure(ServerError("Failed to update item: " + DataSourceBase.Display(e))));
          var write := [DataSourceBase.UpdateCall(id, item)];
          DataSourceBase.UpdateCountConcat(check, write);
          assert check[1..] == write[1..] == [];
          Run(outcome, s', check + write)
  }

  /** The update handler closure, run on the datasource it captured. */
  method HandleUpdate(ds: DataSourceBase.DataSource, parse: Parser, request: ApiRequest) returns (o: Outcome)
    requires ds.Valid()
    modifies ds
    ensures ds.Valid()
    ensures o == UpdateRun(parse, request, old(ds.store)).outcome
    ensures ds.store == UpdateRun(parse, request, old(ds.store)).store
    ensures ds.log == old(ds.log) + UpdateRun(parse, request, old(ds.store)).calls
  {
    if "id" !in request.params {
      return Done(Failure(ValidationError("ID parameter missing")));
    }
    var id := request.params["id"];
    var found := ds.GetById(id);
    match found
    case Failure(err) =>
      o := Done(Failure(HandleDatasourceError(err)));
    case Success(None) =>
      o := Done(Failure(EntityNotFound("Item with ID " + id + " not found")));
    case Success(Some(_)) =>
      var parsed := parse(BodyText(request));
      if parsed.Failure? {
        return Done(Failure(BadRequest("Invalid request format: " + parsed.error)));
      }
      var updated := ds.Update(id, parsed.value);
      match updated
      case Success(item) =>
        o := Done(Success(ApiResponse(200, DefaultHeaders(), Some(Single(item)))));
      case Failure(e) =>
        o := Done(Failure(ServerError("Failed to update item: " + DataSourceBase.Display(e))));
  }

  /**
   * Registers the update handler, on the datasource handle it is given,
   * under `UpdateKey`, replacing any handler there; no other key changes.
   */
  method RegisterUpdateEndpoint(datasource: DataSourceBase.DataSource, entity: Entity, endpoints: EndpointTable)
    modifies endpoints
    ensures endpoints.entries == old(endpoints.entries)[UpdateKey(entity) := UpdateEndpoint(datasource)]
  {
    endpoints.Insert(UpdateKey(entity), UpdateEndpoint(datasource));
  }
}
