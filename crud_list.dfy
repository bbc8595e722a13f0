/** The list endpoint: `GET:<base path>` returns every record. */
module CrudList {
  import opened Wrappers
  import opened Json
  import opened Errors
  import opened ApiTypes
  import opened HandlerUtils
  import DataSourceBase

  /** The key the list endpoint is registered under. */
  function ListKey(basePath: string): string {
    "GET:" + basePath
  }

  /**
   * The list handler against records `s`. It ignores the request, so it
   * takes none: the outcome depends on the records alone. On success the
   * body lists exactly the stored records in insertion order, which for an
   * empty datasource is the empty list.
   */
  function ListRun(s: DataSourceBase.Store): (r: Run)
    requires DataSourceBase.ValidStore(s)
    ensures r.store == s && r.calls == [DataSourceBase.GetAllCall]
    ensures r.outcome.Done? && (r.outcome.result.Success? <==> s.fault.None?)
    ensures r.outcome.result.Success? ==>
              && r.outcome.result.value.status == 200
              && r.outcome.result.value.headers == DefaultHeaders()
              && r.outcome.result.value.body.Some? && r.outcome.result.value.body.value.List?
              && var items := r.outcome.result.value.body.value.items;
                 && |items| == |s.ids| == |s.records|
                 && (forall i :: 0 <= i < |items| ==> items[i] == s.records[s.ids[i]])
    ensures s.fault.None? && s.records == map[] ==>
              r.outcome == Done(Success(ApiResponse(200, DefaultHeaders(), Some(List([])))))
    ensures s.fault.Some? ==> r.outcome == Done(Failure(HandleDatasourceError(s.fault.value)))
  {
    var outcome := match DataSourceBase.GetAllOf(s)
      case Success(items) => Done(Success(ApiResponse(200, DefaultHeaders(), Some(List(items)))))
      case Failure(e) => Done(Failure(HandleDatasourceError(e)));
    Run(outcome, s, [DataSourceBase.GetAllCall])
  }

  /** The list handler closure, run on the datasource it captured. */
  method HandleList(ds: DataSourceBase.DataSource) returns (o: Outcome)
    requires ds.Valid()
    modifies ds`log
    ensures o == ListRun(ds.store).outcome
    ensures ds.log == old(ds.log) + ListRun(ds.store).calls
  {
    var listed := ds.GetAll();
    match listed
    case Success(items) =>
      o := Done(Success(ApiResponse(200, DefaultHeaders(), Some(List(items)))));
    case Failure(err) =>
      o := Done(Failure(HandleDatasourceError(err)));
  }

  /**
   * Registers the list handler, on the datasource handle it is given, under
   * `ListKey(basePath)`, replacing any handler there; no other key changes.
   */
  method RegisterListEndpoint(datasource: DataSourceBase.DataSource, basePath: string, endpoints: EndpointTable)
    modifies endpoints
    ensures endpoints.entries == old(endpoints.entries)[ListKey(basePath) := ListEndpoint(datasource)]
  {
    endpoints.Insert(ListKey(basePath), ListEndpoint(datasource));
  }
}
