/** The factory that gives every configured entity a datasource. */
module DataSourceFactory {
  import opened Wrappers
  import opened EntityConfig
  import opened DatabaseConfigs
  import opened Configuration

  /**
   * A created datasource. The relational one is built from the global
   * database section alone; its own behaviour is not part of this model.
   */
  datatype Backend = RelationalBackend(database: DatabaseConfig)

  const MONGO_UNSUPPORTED: string := "MongoDB datasource not implemented"

  /**
   * The datasource of one entity. It depends only on the configured
   * database type, never on the entity: a relational datasource for
   * PostgreSQL, MySQL and SQLite, an error for MongoDB.
   */
  function CreateDatasourceForEntity(entityName: string, config: Config): (r: Result<Backend, string>)
    ensures r.Failure? <==> config.database.dbType == MongoDB
    ensures r.Failure? ==> r.error == MONGO_UNSUPPORTED
    ensures r.Success? ==> r.value == RelationalBackend(config.database)
  {
    match config.database.dbType
    case PostgreSQL => Success(RelationalBackend(config.database))
    case MySQL => Success(RelationalBackend(config.database))
    case SQLite => Success(RelationalBackend(config.database))
    case MongoDB => Failure(MONGO_UNSUPPORTED)
  }

  /** The map `create_datasources` builds for `es`, registered in order. */
  function DatasourcesOf(es: seq<Entity>, config: Config): map<string, Backend>
    decreases |es|
  {
    if |es| == 0 then map[]
    else
      var prev := DatasourcesOf(es[..|es| - 1], config);
      var e := es[|es| - 1];
      match CreateDatasourceForEntity(e.name, config)
      case Success(ds) => prev[e.name := ds]
      case Failure(_) => prev
  }

  /** The names of `es`. */
  function Names(es: seq<Entity>): set<string> {
    set i | 0 <= i < |es| :: es[i].name
  }

  /**
   * For MongoDB no entity gets a datasource; otherwise every entity name
   * does, and no other key appears. Every datasource is the relational one
   * built from the database section.
   */
  lemma {:induction false} DatasourcesKeys(es: seq<Entity>, config: Config)
    ensures config.database.dbType == MongoDB ==> DatasourcesOf(es, config) == map[]
    ensures config.database.dbType != MongoDB ==> DatasourcesOf(es, config).Keys == Names(es)
    ensures forall n :: n in DatasourcesOf(es, config) ==> DatasourcesOf(es, config)[n] == RelationalBackend(config.database)
    decreases |es|
  {
    if |es| > 0 {
      var prefix := es[..|es| - 1];
      DatasourcesKeys(prefix, config);
      assert Names(es) == Names(prefix) + {es[|es| - 1].name} by {
        forall n | n in Names(es) ensures n in Names(prefix) + {es[|es| - 1].name} {
          var i :| 0 <= i < |es| && es[i].name == n;
          if i < |es| - 1 { assert prefix[i] == es[i]; }
        }
        forall n | n in Names(prefix) ensures n in Names(es) {
          var i :| 0 <= i < |prefix| && prefix[i].name == n;
          assert es[i] == prefix[i];
        }
      }
    }
  }

  /**
   * Walks the configured entities in order and keeps each datasource that
   * could be created; a creation error is dropped and the walk goes on.
   */
  method CreateDatasources(config: Config) returns (datasources: map<string, Backend>)
    ensures datasources == DatasourcesOf(config.entitiesAdvanced, config)
  {
    var es := config.entitiesAdvanced;
    datasources := map[];
    for k := 0 to |es|
      invariant datasources == DatasourcesOf(es[..k], config)
    {
      assert es[..k + 1][..k] == es[..k];
      var created := CreateDatasourceForEntity(es[k].name, config);
      if created.Success? {
        datasources := datasources[es[k].name := created.value];
      }
    }
    assert es[..|es|] == es;
  }
}
