/** The read endpoint: `GET:<entity>/:id`, whose body past the id check is not written yet. */
module CrudRead {
  import opened Wrappers
  import opened EntityConfig
  import opened Errors
  import opened ApiTypes
  import DataSourceBase

  /** The key the read endpoint is registered under. */
  function ReadKey(entity: Entity): string {
    "GET:" + entity.name + "/:id"
  }

  /** The message of the handler's `unimplemented!()`. */
  const UnimplementedMessage: string :=
    "Implement the deserialization of the request body and the retrieval of the item by ID"

  /**
   * The read handler: a request without an id is a validation error; with
   * one, the handler panics. It never produces a response.
   */
  function ReadRun(request: ApiRequest): (o: Outcome)
    ensures "id" !in request.params <==> o == Done(Failure(ValidationError("ID parameter missing")))
    ensures "id" in request.params <==> o == Unimplemented(UnimplementedMessage)
    ensures !(o.Done? && o.result.Success?)
  {
    if "id" !in request.params then Done(Failure(ValidationError("ID parameter missing")))
    else Unimplemented(UnimplementedMessage)
  }

  /**
   * Registers the read handler under `ReadKey`, replacing any handler there
   * (the source warns when it does); no other key changes. The handler
   * captures no datasource.
   */
  method RegisterReadEndpoint(datasource: DataSourceBase.DataSource, entity: Entity, endpoints: EndpointTable)
    modifies endpoints
    ensures endpoints.entries == old(endpoints.entries)[ReadKey(entity) := ReadEndpoint]
  {
    endpoints.Insert(ReadKey(entity), ReadEndpoint);
  }
}
