/**
 * The handler manager: builds the endpoint table of one entity from its
 * endpoint flags and custom routes.
 */
module HandlerManager {
  import opened Wrappers
  import opened EntityConfig
  import opened Configuration
  import opened ApiTypes
  import opened CrudCreate
  import opened CrudRead
  import opened CrudUpdate
  import opened CrudDelete
  import opened CrudList
  import opened CustomRoutes
  import DataSourceBase

  /** The standard endpoints of an entity, each present when its flag is set. */
  function CrudEndpoints(ds: DataSourceBase.DataSource, entity: Entity): map<string, EndpointHandler> {
    var flags := entity.endpoints;
    var m0: map<string, EndpointHandler> := map[];
    var m1 := if flags.generateCreate then m0[CreateKey(entity) := CreateEndpoint(ds)] else m0;
    var m2 := if flags.generateRead then m1[ReadKey(entity) := ReadEndpoint] else m1;
    var m3 := if flags.generateUpdate then m2[UpdateKey(entity) := UpdateEndpoint(ds)] else m2;
    var m4 := if flags.generateDelete then m3[DeleteKey(entity) := DeleteEndpoint(ds)] else m3;
    if flags.generateList then m4[ListKey(entity.name) := ListEndpoint(ds)] else m4
  }

  /** `m` after registering `routes` in order. */
  function WithCustomRoutes(m: map<string, EndpointHandler>, entity: Entity, routes: seq<CustomRoute>): map<string, EndpointHandler>
    decreases |routes|
  {
    if |routes| == 0 then m
    else
      var last := routes[|routes| - 1];
      WithCustomRoutes(m, entity, routes[..|routes| - 1])[CustomKey(entity, last) := CustomEndpoint(last.httpMethod)]
  }

  /** The endpoint table `initialize_endpoints` returns, as a value. */
  function EndpointsOf(ds: DataSourceBase.DataSource, entity: Entity): map<string, EndpointHandler> {
    WithCustomRoutes(CrudEndpoints(ds, entity), entity, entity.endpoints.customRoutes)
  }

  /** The keys of the standard endpoints whose flags are set. */
  function CrudKeys(entity: Entity): set<string> {
    var flags := entity.endpoints;
    (if flags.generateCreate then {CreateKey(entity)} else {})
    + (if flags.generateRead then {ReadKey(entity)} else {})
    + (if flags.generateUpdate then {UpdateKey(entity)} else {})
    + (if flags.generateDelete then {DeleteKey(entity)} else {})
    + (if flags.generateList then {ListKey(entity.name)} else {})
  }

  /** The keys of an entity's custom routes. */
  function CustomKeys(entity: Entity, routes: seq<CustomRoute>): set<string> {
    set i | 0 <= i < |routes| :: CustomKey(entity, routes[i])
  }

  /**
   * The five standard keys of an entity are pairwise distinct; in
   * particular the read key and the list key, both GET, coexist.
   */
  lemma CrudKeysDistinct(entity: Entity)
    ensures |{CreateKey(entity), ReadKey(entity), UpdateKey(entity), DeleteKey(entity), ListKey(entity.name)}| == 5
  {
    var c, r, u, d, l := CreateKey(entity), ReadKey(entity), UpdateKey(entity), DeleteKey(entity), ListKey(entity.name);
    assert c[0] != r[0] && c[1] != u[1] && c[0] != d[0] && c[0] != l[0];
    assert r[0] != u[0] && r[0] != d[0] && |r| != |l|;
    assert u[0] != d[0] && u[0] != l[0];
    assert d[0] != l[0];
  }

  /** The flagged standard endpoints are exactly the keys of `CrudEndpoints`. */
  lemma CrudEndpointsKeys(ds: DataSourceBase.DataSource, entity: Entity)
    ensures CrudEndpoints(ds, entity).Keys == CrudKeys(entity)
  {
  }

  /** Registering custom routes adds exactly their keys. */
  lemma {:induction false} WithCustomRoutesKeys(m: map<string, EndpointHandler>, entity: Entity, routes: seq<CustomRoute>)
    ensures WithCustomRoutes(m, entity, routes).Keys == m.Keys + CustomKeys(entity, routes)
    decreases |routes|
  {
    if |routes| > 0 {
      var prefix := routes[..|routes| - 1];
      WithCustomRoutesKeys(m, entity, prefix);
      assert CustomKeys(entity, routes) == CustomKeys(entity, prefix) + {CustomKey(entity, routes[|routes| - 1])} by {
        forall k | k in CustomKeys(entity, routes) ensures k in CustomKeys(entity, prefix) + {CustomKey(entity, routes[|routes| - 1])} {
          var i :| 0 <= i < |routes| && k == CustomKey(entity, routes[i]);
          if i < |routes| - 1 { assert prefix[i] == routes[i]; }
        }
        forall k | k in CustomKeys(entity, prefix) ensures k in CustomKeys(entity, routes) {
          var i :| 0 <= i < |prefix| && k == CustomKey(entity, prefix[i]);
          assert routes[i] == prefix[i];
        }
      }
    }
  }

  /**
   * A key no custom route produces keeps the handler it had before the
   * custom routes were registered.
   */
  lemma {:induction false} WithCustomRoutesKeeps(m: map<string, EndpointHandler>, entity: Entity, routes: seq<CustomRoute>, k: string)
    requires k in m && k !in CustomKeys(entity, routes)
    ensures k in WithCustomRoutes(m, entity, routes) && WithCustomRoutes(m, entity, routes)[k] == m[k]
    decreases |routes|
  {
    if |routes| > 0 {
      var prefix := routes[..|routes| - 1];
      assert k != CustomKey(entity, routes[|routes| - 1]);
      forall i | 0 <= i < |prefix| ensures CustomKey(entity, prefix[i]) != k {
        assert prefix[i] == routes[i];
      }
      WithCustomRoutesKeeps(m, entity, prefix, k);
    }
  }

  /**
   * Custom routes are registered in list order: under a custom route's key
   * sits the handler of the last route with that key.
   */
  lemma {:induction false} LaterCustomRouteWins(m: map<string, EndpointHandler>, entity: Entity, routes: seq<CustomRoute>, i: nat)
    requires i < |routes|
    requires forall j :: i < j < |routes| ==> CustomKey(entity, routes[j]) != CustomKey(entity, routes[i])
    ensures CustomKey(entity, routes[i]) in WithCustomRoutes(m, entity, routes)
    ensures WithCustomRoutes(m, entity, routes)[CustomKey(entity, routes[i])] == CustomEndpoint(routes[i].httpMethod)
    decreases |routes|
  {
    if i < |routes| - 1 {
      var prefix := routes[..|routes| - 1];
      assert prefix[i] == routes[i];
      forall j | i < j < |prefix| ensures CustomKey(entity, prefix[j]) != CustomKey(entity, prefix[i]) {
        assert prefix[j] == routes[j];
      }
      LaterCustomRouteWins(m, entity, prefix, i);
    }
  }

  /**
   * The keys of an entity's table are its flagged standard keys and its
   * custom-route keys, so a standard key is present iff its flag is set or
   * a custom route produces it; with no flag set and no custom route the
   * table is empty.
   */
  lemma EndpointsKeys(ds: DataSourceBase.DataSource, entity: Entity)
    ensures EndpointsOf(ds, entity).Keys == CrudKeys(entity) + CustomKeys(entity, entity.endpoints.customRoutes)
    ensures var f := entity.endpoints;
            (!f.generateCreate && !f.generateRead && !f.generateUpdate && !f.generateDelete && !f.generateList
             && f.customRoutes == []) ==> EndpointsOf(ds, entity) == map[]
  {
    CrudEndpointsKeys(ds, entity);
    WithCustomRoutesKeys(CrudEndpoints(ds, entity), entity, entity.endpoints.customRoutes);
  }

  /** A flagged standard endpoint that no custom route overrides keeps its handler. */
  lemma CrudEndpointKept(ds: DataSourceBase.DataSource, entity: Entity, k: string)
    requires k in CrudKeys(entity) && k !in CustomKeys(entity, entity.endpoints.customRoutes)
    ensures k in EndpointsOf(ds, entity)
    ensures k == CreateKey(entity) ==> EndpointsOf(ds, entity)[k] == CreateEndpoint(ds)
    ensures k == ReadKey(entity) ==> EndpointsOf(ds, entity)[k] == ReadEndpoint
    ensures k == UpdateKey(entity) ==> EndpointsOf(ds, entity)[k] == UpdateEndpoint(ds)
    ensures k == DeleteKey(entity) ==> EndpointsOf(ds, entity)[k] == DeleteEndpoint(ds)
    ensures k == ListKey(entity.name) ==> EndpointsOf(ds, entity)[k] == ListEndpoint(ds)
  {
    CrudKeysDistinct(entity);
    CrudEndpointsKeys(ds, entity);
    WithCustomRoutesKeeps(CrudEndpoints(ds, entity), entity, entity.endpoints.customRoutes, k);
  }

  /** Every handler that works on a datasource works on the manager's one. */
  lemma {:induction false} HandlersShareDatasource(ds: DataSourceBase.DataSource, entity: Entity)
    ensures forall k :: k in EndpointsOf(ds, entity) ==> Footprint(EndpointsOf(ds, entity)[k]) <= {ds}
  {
    CustomRoutesShareDatasource(CrudEndpoints(ds, entity), ds, entity, entity.endpoints.customRoutes);
  }

  lemma {:induction false} CustomRoutesShareDatasource(m: map<string, EndpointHandler>, ds: DataSourceBase.DataSource,
                                                       entity: Entity, routes: seq<CustomRoute>)
    requires forall k :: k in m ==> Footprint(m[k]) <= {ds}
    ensures forall k :: k in WithCustomRoutes(m, entity, routes) ==> Footprint(WithCustomRoutes(m, entity, routes)[k]) <= {ds}
    decreases |routes|
  {
    if |routes| > 0 {
      CustomRoutesShareDatasource(m, ds, entity, routes[..|routes| - 1]);
    }
  }

  /** The manager of one entity: the configuration and the datasource its handlers use. */
  class ApiHandlerManager {
    const config: Config
    const datasource: DataSourceBase.DataSource

    constructor (config: Config, datasource: DataSourceBase.DataSource)
      ensures this.config == config && this.datasource == datasource
    {
      this.config := config;
      this.datasource := datasource;
    }

    /**
     * Starts from an empty table, registers the flagged standard endpoints,
     * then every custom route in order, each on a clone of the datasource
     * handle.
     */
    method InitializeEndpoints(entity: Entity) returns (endpoints: map<string, EndpointHandler>)
      ensures endpoints == EndpointsOf(datasource, entity)
    {
      var table := new EndpointTable();
      var flags := entity.endpoints;
      if flags.generateCreate {
        var ds := datasource.BoxClone();
        RegisterCreateEndpoint(ds, entity, table);
      }
      if flags.generateRead {
        var ds := datasource.BoxClone();
        RegisterReadEndpoint(ds, entity, table);
      }
      if flags.generateUpdate {
        var ds := datasource.BoxClone();
        RegisterUpdateEndpoint(ds, entity, table);
      }
      if flags.generateDelete {
        var ds := datasource.BoxClone();
        RegisterDeleteEndpoint(ds, entity, table);
      }
      if flags.generateList {
        var ds := datasource.BoxClone();
        RegisterListEndpoint(ds, entity.name, table);
      }
      assert table.entries == CrudEndpoints(datasource, entity);
      var routes := flags.customRoutes;
      for i := 0 to |routes|
        invariant table.entries == WithCustomRoutes(CrudEndpoints(datasource, entity), entity, routes[..i])
      {
        assert routes[..i + 1][..i] == routes[..i];
        var ds := datasource.BoxClone();
        RegisterCustomEndpoint(ds, entity, routes[i], table);
      }
      assert routes[..|routes|] == routes;
      endpoints := table.entries;
    }
  }
}
