/** Helpers every handler shares: the default headers and the datasource-error conversion. */
module HandlerUtils {
  import opened Errors
  import DataSourceBase

  /** The headers of every handler response: exactly one, the JSON content type. */
  function DefaultHeaders(): (h: map<string, string>)
    ensures |h| == 1
    ensures "Content-Type" in h && h["Content-Type"] == "application/json"
  {
    map["Content-Type" := "application/json"]
  }

  /** Any datasource error becomes an endpoint-generation error that quotes it. */
  function HandleDatasourceError(e: DataSourceBase.DataSourceError): (r: ApiError)
    ensures r.EndpointGenerationError?
    ensures r.msg == "Error retrieving items: " + DataSourceBase.Display(e)
  {
    EndpointGenerationError("Error retrieving items: " + DataSourceBase.Display(e))
  }

  /**
   * The client sees the datasource's own message at the end of the error
   * text, and different datasource errors give different API errors.
   */
  lemma HandleDatasourceErrorKeepsMessage(e: DataSourceBase.DataSourceError, f: DataSourceBase.DataSourceError)
    ensures var shown := Display(HandleDatasourceError(e));
            |shown| > |e.msg| && shown[|shown| - |e.msg|..] == e.msg
    ensures HandleDatasourceError(e) == HandleDatasourceError(f) ==> e == f
  {
    DataSourceBase.DisplayEndsWithMessage(e);
    var r := HandleDatasourceError(e);
    DisplayEndsWithPayload(r);
    if HandleDatasourceError(e) == HandleDatasourceError(f) {
      var p := "Error retrieving items: ";
      assert DataSourceBase.Display(e) == r.msg[|p|..] == DataSourceBase.Display(f);
      DataSourceBase.DisplayInjective(e, f);
    }
  }
}
