/**
 * The API adapter: the table of exposed entities, and the routing of a
 * request to the handler registered for its method and path.
 */
module ApiAdapters {
  import opened Wrappers
  import opened Strings
  import opened EntityConfig
  import opened Errors
  import opened Configuration
  import opened ApiTypes
  import opened CrudCreate
  import opened CrudRead
  import opened CrudUpdate
  import opened CrudDelete
  import opened CrudList
  import opened CustomRoutes
  import opened HandlerManager
  import DataSourceBase

  /** One exposed entity: its datasource and its endpoint table. */
  datatype EntityApi = EntityApi(datasource: DataSourceBase.DataSource, endpoints: map<string, EndpointHandler>)

  /** What calling a handler does, against the records `s` of its datasource. */
  function HandlerRun(h: EndpointHandler, parse: Parser, request: ApiRequest, s: DataSourceBase.Store): Run
    requires DataSourceBase.ValidStore(s)
  {
    match h
    case CreateEndpoint(_) => CreateRun(parse, request, s)
    case ReadEndpoint => Run(ReadRun(request), s, [])
    case UpdateEndpoint(_) => UpdateRun(parse, request, s)
    case DeleteEndpoint(_) => DeleteRun(request, s)
    case ListEndpoint(_) => ListRun(s)
    case CustomEndpoint(_) => Run(CustomResponse(), s, [])
  }

  /**
   * Calls a handler closure. A handler with a datasource works on it; the
   * read and custom-route handlers touch nothing.
   */
  method Invoke(h: EndpointHandler, parse: Parser, request: ApiRequest) returns (o: Outcome)
    requires HasDatasource(h) ==> h.ds.Valid()
    modifies Footprint(h)
    ensures HasDatasource(h) ==> h.ds.Valid()
    ensures !HasDatasource(h) ==> o == HandlerRun(h, parse, request, DataSourceBase.EmptyStore()).outcome
    ensures HasDatasource(h) ==>
              && o == HandlerRun(h, parse, request, old(h.ds.store)).outcome
              && h.ds.store == HandlerRun(h, parse, request, old(h.ds.store)).store
              && h.ds.log == old(h.ds.log) + HandlerRun(h, parse, request, old(h.ds.store)).calls
  {
    match h
    case CreateEndpoint(ds) =>
      o := HandleCreate(ds, parse, request);
    case ReadEndpoint =>
      o := ReadRun(request);
    case UpdateEndpoint(ds) =>
      o := HandleUpdate(ds, parse, request);
    case DeleteEndpoint(ds) =>
      o := HandleDelete(ds, request);
    case ListEndpoint(ds) =>
      o := HandleList(ds);
    case CustomEndpoint(_) =>
      o := CustomResponse();
  }

  /** `path.split('/').nth(1)`: the piece between the first and second '/'. */
  function EntitySegment(path: string): (r: Option<string>)
    ensures r.Some? <==> '/' in path
    ensures r.Some? ==> '/' !in r.value
  {
    var pieces := Split(path, '/');
    assert |pieces| >= 2 <==> '/' in path by {
      if '/' in path { SplitWithSeparator(path, '/'); } else { SplitWithoutSeparator(path, '/'); }
    }
    if |pieces| >= 2 then Some(pieces[1]) else None
  }

  /**
   * A path that starts with '/' names the entity its first segment spells:
   * "/users" and "/users/..." both route to "users".
   */
  lemma EntitySegmentAfterLeadingSlash(name: string, tail: string)
    requires '/' !in name
    ensures EntitySegment("/" + name) == Some(name)
    ensures EntitySegment("/" + name + "/" + tail) == Some(name)
  {
    SplitAfterFirstPiece("", name, '/');
    assert "" + ['/'] + name == "/" + name;
    SplitWithoutSeparator(name, '/');
    SplitAfterFirstPiece("", name + "/" + tail, '/');
    assert "" + ['/'] + (name + "/" + tail) == "/" + name + "/" + tail;
    SplitAfterFirstPiece(name, tail, '/');
    assert name + ['/'] + tail == name + "/" + tail;
  }

  /** `format!("{:?}:{}", method, path)`: the key a request is dispatched on. */
  function EndpointKey(request: ApiRequest): string {
    MethodName(request.httpMethod) + ":" + request.path
  }

  /**
   * The handler a request reaches, or the error `handle_request` returns:
   * an invalid path when it has no second segment, an unknown entity when
   * no entity has exactly that name, an unknown endpoint when the entity has
   * no handler under exactly the request's key.
   */
  function Route(entities: map<string, EntityApi>, request: ApiRequest): (r: Result<EndpointHandler, ApiError>)
    ensures r == Failure(ValidationError("Invalid path")) <==> '/' !in request.path
    ensures r.Success? <==>
              && EntitySegment(request.path).Some?
              && EntitySegment(request.path).value in entities
              && EndpointKey(request) in entities[EntitySegment(request.path).value].endpoints
    ensures r.Success? ==> r.value == entities[EntitySegment(request.path).value].endpoints[EndpointKey(request)]
    ensures EntitySegment(request.path).Some? && EntitySegment(request.path).value !in entities ==>
              r == Failure(EntityNotFound("Entity not found: " + EntitySegment(request.path).value))
    ensures EntitySegment(request.path).Some? && EntitySegment(request.path).value in entities
            && EndpointKey(request) !in entities[EntitySegment(request.path).value].endpoints ==>
              r == Failure(EntityNotFound("Endpoint not found: " + EndpointKey(request)))
  {
    match EntitySegment(request.path)
    case None => Failure(ValidationError("Invalid path"))
    case Some(name) =>
      if name !in entities then Failure(EntityNotFound("Entity not found: " + name))
      else
        var key := EndpointKey(request);
        if key !in entities[name].endpoints then Failure(EntityNotFound("Endpoint not found: " + key))
        else Success(entities[name].endpoints[key])
  }

  /** The entity table `entity_mapper` leaves, for `es` registered in order into `acc`. */
  function EntityMapperOf(es: seq<Entity>, datasources: map<string, DataSourceBase.DataSource>,
                          acc: map<string, EntityApi>): map<string, EntityApi>
    decreases |es|
  {
    if |es| == 0 then acc
    else
      var prev := EntityMapperOf(es[..|es| - 1], datasources, acc);
      var e := es[|es| - 1];
      if e.name in datasources then prev[e.name := EntityApi(datasources[e.name], EndpointsOf(datasources[e.name], e))]
      else prev
  }

  /** The configured names that have a datasource. */
  function BackedNames(es: seq<Entity>, datasources: map<string, DataSourceBase.DataSource>): set<string> {
    set i | 0 <= i < |es| && es[i].name in datasources :: es[i].name
  }

  /**
   * `entity_mapper` adds exactly the configured entities that have a
   * datasource under their exact name.
   */
  lemma {:induction false} EntityMapperKeys(es: seq<Entity>, datasources: map<string, DataSourceBase.DataSource>,
                                            acc: map<string, EntityApi>)
    ensures EntityMapperOf(es, datasources, acc).Keys == acc.Keys + BackedNames(es, datasources)
    decreases |es|
  {
    if |es| > 0 {
      var prefix := es[..|es| - 1];
      EntityMapperKeys(prefix, datasources, acc);
      var last := es[|es| - 1];
      var extra := if last.name in datasources then {last.name} else {};
      assert BackedNames(es, datasources) == BackedNames(prefix, datasources) + extra by {
        forall n | n in BackedNames(es, datasources) ensures n in BackedNames(prefix, datasources) + extra {
          var i :| 0 <= i < |es| && es[i].name in datasources && es[i].name == n;
          if i < |es| - 1 { assert prefix[i] == es[i]; }
        }
        forall n | n in BackedNames(prefix, datasources) ensures n in BackedNames(es, datasources) {
          var i :| 0 <= i < |prefix| && prefix[i].name in datasources && prefix[i].name == n;
          assert es[i] == prefix[i];
        }
      }
    }
  }

  /**
   * The entry of a backed entity holds its datasource and the endpoints
   * the manager builds for it; when a name is configured twice the later
   * entity wins.
   */
  lemma {:induction false} EntityMapperEntry(es: seq<Entity>, datasources: map<string, DataSourceBase.DataSource>,
                                             acc: map<string, EntityApi>, i: nat)
    requires i < |es| && es[i].name in datasources
    requires forall j :: i < j < |es| ==> es[j].name != es[i].name
    ensures es[i].name in EntityMapperOf(es, datasources, acc)
    ensures EntityMapperOf(es, datasources, acc)[es[i].name]
            == EntityApi(datasources[es[i].name], EndpointsOf(datasources[es[i].name], es[i]))
    decreases |es|
  {
    if i < |es| - 1 {
      var prefix := es[..|es| - 1];
      assert prefix[i] == es[i];
      forall j | i < j < |prefix| ensures prefix[j].name != prefix[i].name {
        assert prefix[j] == es[j];
      }
      EntityMapperEntry(prefix, datasources, acc, i);
    }
  }

  /**
   * Walks the configured entities in order and, for each one with a
   * datasource under its exact name, builds its endpoints with a handler
   * manager and stores them under the name.
   */
  method EntityMapper(config: Config, datasources: map<string, DataSourceBase.DataSource>, start: map<string, EntityApi>)
    returns (entities: map<string, EntityApi>)
    ensures entities == EntityMapperOf(config.entitiesAdvanced, datasources, start)
  {
    var es := config.entitiesAdvanced;
    entities := start;
    for k := 0 to |es|
      invariant entities == EntityMapperOf(es[..k], datasources, start)
    {
      assert es[..k + 1][..k] == es[..k];
      var entity := es[k];
      if entity.name in datasources {
        var datasource := datasources[entity.name];
        var handle := datasource.BoxClone();
        var manager := new ApiHandlerManager(config, handle);
        var endpoints := manager.InitializeEndpoints(entity);
        var kept := datasource.BoxClone();
        entities := entities[entity.name := EntityApi(kept, endpoints)];
      }
    }
    assert es[..|es|] == es;
  }

  class ApiAdapter {
    const config: Config
    var entities: map<string, EntityApi>

    /** The adapter starts from an empty entity table filled by `EntityMapper`. */
    constructor (config: Config, datasources: map<string, DataSourceBase.DataSource>)
      ensures this.config == config
      ensures entities == EntityMapperOf(config.entitiesAdvanced, datasources, map[])
      ensures entities.Keys == BackedNames(config.entitiesAdvanced, datasources)
    {
      this.config := config;
      var mapped := EntityMapper(config, datasources, map[]);
      EntityMapperKeys(config.entitiesAdvanced, datasources, map[]);
      entities := mapped;
    }

    /** The datasource the handler a request reaches works on, if any. */
    function Target(request: ApiRequest): set<DataSourceBase.DataSource>
      reads this
    {
      match Route(entities, request)
      case Success(h) => Footprint(h)
      case Failure(_) => {}
    }

    /**
     * Routes the request; a routing error is returned as it is, otherwise
     * the handler's result is returned unchanged. Only the datasource of
     * the handler reached can change; the entity table does not.
     */
    method HandleRequest(parse: Parser, request: ApiRequest) returns (o: Outcome)
      requires Route(entities, request).Success? && HasDatasource(Route(entities, request).value) ==>
                 Route(entities, request).value.ds.Valid()
      modifies Target(request)
      ensures entities == old(entities)
      ensures Route(entities, request).Failure? ==> o == Done(Failure(Route(entities, request).error))
      ensures Route(entities, request).Success? && !HasDatasource(Route(entities, request).value) ==>
                o == HandlerRun(Route(entities, request).value, parse, request, DataSourceBase.EmptyStore()).outcome
      ensures Route(entities, request).Success? && HasDatasource(Route(entities, request).value) ==>
                var h := Route(entities, request).value;
                && o == HandlerRun(h, parse, request, old(h.ds.store)).outcome
                && h.ds.store == HandlerRun(h, parse, request, old(h.ds.store)).store
                && h.ds.log == old(h.ds.log) + HandlerRun(h, parse, request, old(h.ds.store)).calls
    {
      var route := Route(entities, request);
      match route
      case Failure(e) =>
        o := Done(Failure(e));
      case Success(h) =>
        o := Invoke(h, parse, request);
    }
  }
}
