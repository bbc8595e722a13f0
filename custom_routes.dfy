/** Custom routes: extra endpoints whose handler is still a stub. */
module CustomRoutes {
  import opened Wrappers
  import opened EntityConfig
  import opened ApiTypes
  import opened HandlerUtils
  import DataSourceBase

  /**
   * The key of a custom route: the method name, a colon, then the entity
   * name and the route's path run together with no separator.
   */
  function CustomKey(entity: Entity, route: CustomRoute): string {
    MethodName(route.httpMethod) + ":" + entity.name + route.path
  }

  /**
   * The stub handler's answer, whatever the request and whatever the
   * route's method: 200, the default headers, no body.
   */
  function CustomResponse(): (o: Outcome)
    ensures o.Done? && o.result.Success?
    ensures o.result.value.status == 200 && o.result.value.body.None?
    ensures o.result.value.headers == DefaultHeaders()
  {
    Done(Success(ApiResponse(200, DefaultHeaders(), None)))
  }

  /**
   * Registers the stub handler under `CustomKey`, replacing any handler
   * there; no other key changes. The handler keeps the route's method but
   * no datasource.
   */
  method RegisterCustomEndpoint(datasource: DataSourceBase.DataSource, entity: Entity, route: CustomRoute, endpoints: EndpointTable)
    modifies endpoints
    ensures endpoints.entries == old(endpoints.entries)[CustomKey(entity, route) := CustomEndpoint(route.httpMethod)]
  {
    endpoints.Insert(CustomKey(entity, route), CustomEndpoint(route.httpMethod));
  }
}
