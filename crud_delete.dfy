/** The delete endpoint: `DELETE:<entity>/:id` removes the record under the id. */
module CrudDelete {
  import opened Wrappers
  import opened EntityConfig
  import opened Errors
  import opened ApiTypes
  import opened HandlerUtils
  import DataSourceBase

  /** The key the delete endpoint is registered under. */
  function DeleteKey(entity: Entity): string {
    "DELETE:" + entity.name + "/:id"
  }

  /**
   * The delete handler against records `s`: 204 with no body exactly when
   * the record existed and the datasource removed it; an absent record is
   * not-found, a datasource error is reported through
   * `HandleDatasourceError`.
   */
  function DeleteRun(request: ApiRequest, s: DataSourceBase.Store): (r: Run)
    requires DataSourceBase.ValidStore(s)
    ensures DataSourceBase.ValidStore(r.store) && r.outcome.Done?
    ensures "id" !in request.params ==> r == Run(Done(Failure(ValidationError("ID parameter missing"))), s, [])
    ensures "id" in request.params ==> r.calls == [DataSourceBase.DeleteCall(request.params["id"])]
    ensures r.outcome.result.Success? <==>
              "id" in request.params && DataSourceBase.WriteError(s).None? && request.params["id"] in s.records
    ensures r.outcome.result.Success? ==>
              && r.outcome.result.value == ApiResponse(204, DefaultHeaders(), None)
              && r.store.records == s.records - {request.params["id"]}
    ensures "id" in request.params && DataSourceBase.WriteError(s).None? && request.params["id"] !in s.records ==>
              r.outcome == Done(Failure(EntityNotFound("Item with ID " + request.params["id"] + " not found")))
    ensures "id" in request.params && DataSourceBase.WriteError(s).Some? ==>
              r.outcome == Done(Failure(HandleDatasourceError(DataSourceBase.WriteError(s).value)))
    ensures r.outcome.result.Failure? ==> r.store.records == s.records
  {
    if "id" !in request.params then Run(Done(Failure(ValidationError("ID parameter missing"))), s, [])
    else
      var id := request.params["id"];
      var (deleted, s') := DataSourceBase.DeleteOf(s, id);
      var outcome := match deleted
        case Success(true) => Done(Success(ApiResponse(204, DefaultHeaders(), None)))
        case Success(false) => Done(Failure(EntityNotFound("Item with ID " + id + " not found")))
        case Failure(e) => Done(Failure(HandleDatasourceError(e)));
      Run(outcome, s', [DataSourceBase.DeleteCall(id)])
  }

  /** The delete handler closure, run on the datasource it captured. */
  method HandleDelete(ds: DataSourceBase.DataSource, request: ApiRequest) returns (o: Outcome)
    requires ds.Valid()
    modifies ds
    ensures ds.Valid()
    ensures o == DeleteRun(request, old(ds.store)).outcome
    ensures ds.store == DeleteRun(request, old(ds.store)).store
    ensures ds.log == old(ds.log) + DeleteRun(request, old(ds.store)).calls
  {
    if "id" !in request.params {
      return Done(Failure(ValidationError("ID parameter missing")));
    }
    var id := request.params["id"];
    var deleted := ds.Delete(id);
    match deleted
    case Success(true) =>
      o := Done(Success(ApiResponse(204, DefaultHeaders(), None)));
    case Success(false) =>
      o := Done(Failure(EntityNotFound("Item with ID " + id + " not found")));
    case Failure(err) =>
      o := Done(Failure(HandleDatasourceError(err)));
  }

  /**
   * Registers the delete handler, on the datasource handle it is given,
   * under `DeleteKey`, replacing any handler there; no other key changes.
   */
  method RegisterDeleteEndpoint(datasource: DataSourceBase.DataSource, entity: Entity, endpoints: EndpointTable)
    modifies endpoints
    ensures endpoints.entries == old(endpoints.entries)[DeleteKey(entity) := DeleteEndpoint(datasource)]
  {
    endpoints.Insert(DeleteKey(entity), DeleteEndpoint(datasource));
  }
}
