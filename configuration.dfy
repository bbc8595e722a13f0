/**
 * The part of the user configuration the API layer reads: the database
 * section and the list of advanced entity descriptions.
 */
module Configuration {
  import opened EntityConfig
  import opened DatabaseConfigs

  datatype Config = Config(database: DatabaseConfig, entitiesAdvanced: seq<Entity>)
}
