/**
 * The entity-mapping registry of the MariaDB datasource: the table mapping
 * of every configured entity, stored under several names, and the lookup
 * that resolves an entity name to a mapping.
 */
module MariaDbMappings {
  import opened Wrappers
  import opened Strings
  import opened EntityConfig
  import opened RelationalBase
  import opened DataSourceBase
  import opened DatabaseConfigs

  /**
   * The `entity_mappings` map. `order` lists its keys in first-insertion
   * order; it fixes the order in which the lookup by table name visits the
   * mappings, which the hash map leaves unspecified.
   */
  datatype Registry = Registry(mappings: map<string, TableMapping>, order: seq<string>)

  predicate ValidRegistry(reg: Registry) {
    && (forall i, j :: 0 <= i < j < |reg.order| ==> reg.order[i] != reg.order[j])
    && (forall i :: 0 <= i < |reg.order| ==> reg.order[i] in reg.mappings)
    && (forall k :: k in reg.mappings ==> k in reg.order)
  }

  function EmptyRegistry(): (reg: Registry)
    ensures ValidRegistry(reg) && reg.mappings == map[]
  {
    Registry(map[], [])
  }

  /** Entity names are compared lower-cased and trimmed. */
  function Normalize(name: string): (r: string)
    ensures IsLower(r)
  {
    TrimKeepsLower(Lower(name));
    Trim(Lower(name))
  }

  /** Normalizing a normalized name changes nothing. */
  lemma NormalizeIdempotent(name: string)
    ensures Normalize(Normalize(name)) == Normalize(name)
  {
    var n := Normalize(name);
    LowerOfLowerIsIdentity(n);
    TrimIdempotent(Lower(name));
  }

  /** `HashMap::insert`. */
  function Insert(reg: Registry, key: string, m: TableMapping): (r: Registry)
    requires ValidRegistry(reg)
    ensures ValidRegistry(r) && r.mappings == reg.mappings[key := m]
  {
    if key in reg.mappings then Registry(reg.mappings[key := m], reg.order)
    else Registry(reg.mappings[key := m], reg.order + [key])
  }

  /** Whether a mapping's table name normalizes to `normalized`. */
  predicate TableMatches(m: TableMapping, normalized: string) {
    Normalize(m.tableName) == normalized
  }

  /** The position of the first key, in key order, whose mapping satisfies `matches`. */
  function ScanByTable(mappings: map<string, TableMapping>, keys: seq<string>, matches: TableMapping -> bool): (r: Option<nat>)
    requires forall i :: 0 <= i < |keys| ==> keys[i] in mappings
    ensures r.Some? ==> r.value < |keys| && matches(mappings[keys[r.value]])
    ensures r.Some? ==> forall j :: 0 <= j < r.value ==> !matches(mappings[keys[j]])
    ensures r.None? ==> forall i :: 0 <= i < |keys| ==> !matches(mappings[keys[i]])
    decreases |keys|
  {
    if |keys| == 0 then None
    else if matches(mappings[keys[0]]) then Some(0)
    else
      var rest := keys[1..];
      assert forall i :: 1 <= i < |keys| ==> keys[i] == rest[i - 1];
      match ScanByTable(mappings, rest, matches)
      case None => None
      case Some(j) => Some(j + 1)
  }

  /** The third step of the lookup: the first mapping, in key order, with a matching table name. */
  function FindByTable(reg: Registry, normalized: string): (r: Option<TableMapping>)
    requires ValidRegistry(reg)
    ensures r.None? <==> forall k :: k in reg.mappings ==> !TableMatches(reg.mappings[k], normalized)
    ensures r.Some? ==> r.value in reg.mappings.Values && TableMatches(r.value, normalized)
  {
    var matches := m => TableMatches(m, normalized);
    match ScanByTable(reg.mappings, reg.order, matches)
    case Some(i) => Some(reg.mappings[reg.order[i]])
    case None =>
      assert forall k :: k in reg.mappings ==> !TableMatches(reg.mappings[k], normalized) by {
        forall k | k in reg.mappings ensures !TableMatches(reg.mappings[k], normalized) {
          var i :| 0 <= i < |reg.order| && reg.order[i] == k;
          assert !matches(reg.mappings[reg.order[i]]);
        }
      }
      None
  }

  /**
   * `find_entity_mapping`: the mapping under the normalized name, else under
   * the name as given, else the first one whose normalized table name matches.
   */
  function FindEntityMapping(reg: Registry, name: string): (r: Option<TableMapping>)
    requires ValidRegistry(reg)
    ensures Normalize(name) in reg.mappings ==> r == Some(reg.mappings[Normalize(name)])
    ensures Normalize(name) !in reg.mappings && name in reg.mappings ==> r == Some(reg.mappings[name])
    ensures r.None? <==> && Normalize(name) !in reg.mappings && name !in reg.mappings
                         && forall k :: k in reg.mappings ==> !TableMatches(reg.mappings[k], Normalize(name))
    ensures r.Some? ==> r.value in reg.mappings.Values
  {
    var normalized := Normalize(name);
    if normalized in reg.mappings then Some(reg.mappings[normalized])
    else if name in reg.mappings then Some(reg.mappings[name])
    else FindByTable(reg, normalized)
  }

  /**
   * One step of `configure_entity_mappings`: the entity's mapping goes under
   * its normalized name, under its own name when that differs, and under its
   * table name when that differs from both.
   */
  function RegisterEntity(reg: Registry, e: Entity): (r: Registry)
    requires ValidRegistry(reg)
    ensures ValidRegistry(r)
  {
    var n := Normalize(e.name);
    var m := TableMappingOf(e);
    var r1 := Insert(reg, n, m);
    var r2 := if e.name != n then Insert(r1, e.name, m) else r1;
    if m.tableName != n && m.tableName != e.name then Insert(r2, m.tableName, m) else r2
  }

  /** The registry after registering `es` in order. */
  function RegisterAll(reg: Registry, es: seq<Entity>): (r: Registry)
    requires ValidRegistry(reg)
    ensures ValidRegistry(r)
    decreases |es|
  {
    if |es| == 0 then reg else RegisterEntity(RegisterAll(reg, es[..|es| - 1]), es[|es| - 1])
  }

  lemma RegisterAllStep(reg: Registry, es: seq<Entity>, k: nat)
    requires ValidRegistry(reg) && k < |es|
    ensures RegisterAll(reg, es[..k + 1]) == RegisterEntity(RegisterAll(reg, es[..k]), es[k])
  {
    assert es[..k + 1][..k] == es[..k];
  }

  /** The mappings after one registration, as three updates of the old ones. */
  lemma RegisterEntityUpdates(reg: Registry, e: Entity)
    requires ValidRegistry(reg)
    ensures var m := TableMappingOf(e);
            RegisterEntity(reg, e).mappings == reg.mappings[Normalize(e.name) := m][e.name := m][m.tableName := m]
  {
    var n := Normalize(e.name);
    var m := TableMappingOf(e);
    var r1 := Insert(reg, n, m);
    var r2 := if e.name != n then Insert(r1, e.name, m) else r1;
    assert r2.mappings == reg.mappings[n := m][e.name := m];
  }

  /**
   * After registering an entity its mapping is stored under its normalized
   * name, its own name and its table name, no other key changes, and the
   * lookup by its name finds it.
   */
  lemma RegisterEntityStoresAllNames(reg: Registry, e: Entity)
    requires ValidRegistry(reg)
    ensures var r := RegisterEntity(reg, e);
            var names := {Normalize(e.name), e.name, TableMappingOf(e).tableName};
            && r.mappings.Keys == reg.mappings.Keys + names
            && (forall k :: k in names ==> r.mappings[k] == TableMappingOf(e))
            && (forall k :: k in reg.mappings && k !in names ==> r.mappings[k] == reg.mappings[k])
            && FindEntityMapping(r, e.name) == Some(TableMappingOf(e))
  {
    RegisterEntityUpdates(reg, e);
    var r := RegisterEntity(reg, e);
    var n := Normalize(e.name);
    assert n in r.mappings && r.mappings[n] == TableMappingOf(e);
  }

  /** Registration only adds or overwrites keys; it never removes one. */
  lemma {:induction false} RegisterAllKeepsKeys(reg: Registry, es: seq<Entity>)
    requires ValidRegistry(reg)
    ensures reg.mappings.Keys <= RegisterAll(reg, es).mappings.Keys
    decreases |es|
  {
    if |es| > 0 {
      RegisterAllKeepsKeys(reg, es[..|es| - 1]);
      RegisterEntityStoresAllNames(RegisterAll(reg, es[..|es| - 1]), es[|es| - 1]);
    }
  }

  /** Every configured entity can afterwards be found by its name. */
  lemma {:induction false} ConfiguredEntitiesAreFindable(reg: Registry, es: seq<Entity>, i: nat)
    requires ValidRegistry(reg) && i < |es|
    ensures Normalize(es[i].name) in RegisterAll(reg, es).mappings
    ensures FindEntityMapping(RegisterAll(reg, es), es[i].name).Some?
    decreases |es|
  {
    var prefix := es[..|es| - 1];
    RegisterEntityStoresAllNames(RegisterAll(reg, prefix), es[|es| - 1]);
    if i < |es| - 1 {
      assert prefix[i] == es[i];
      ConfiguredEntitiesAreFindable(reg, prefix, i);
    }
  }

  /**
   * The MariaDB datasource's own state: whether its connection pool exists,
   * and its entity mappings. The pool itself, the runtime and every query
   * execution are not part of this model.
   */
  class MariaDbDatasource {
    const config: DatabaseConfig
    var connected: bool
    var entityMappings: Registry

    ghost predicate Valid()
      reads this
    {
      ValidRegistry(entityMappings)
    }

    /** A new datasource has no pool and no mappings. */
    constructor (config: DatabaseConfig)
      ensures Valid() && this.config == Clone(config)
      ensures !connected && entityMappings.mappings == map[]
    {
      this.config := Clone(config);
      connected := false;
      entityMappings := EmptyRegistry();
    }

    /**
     * Connects first when there is no pool (`connectFailure` is the driver's
     * message when that connection fails), then registers every entity.
     * A failed connection returns before any mapping is stored.
     */
    method ConfigureEntityMappings(entities: seq<Entity>, connectFailure: Option<string>)
      returns (r: Result<(), DataSourceError>)
      requires Valid()
      modifies this
      ensures Valid()
      ensures !old(connected) && connectFailure.Some? ==>
                && r == Failure(ConnectionError("Error connecting to MariaDB: " + connectFailure.value))
                && !connected && entityMappings == old(entityMappings)
      ensures old(connected) || connectFailure.None? ==>
                && r == Success(()) && connected
                && entityMappings == RegisterAll(old(entityMappings), entities)
    {
      if !connected {
        if connectFailure.Some? {
          return Failure(ConnectionError("Error connecting to MariaDB: " + connectFailure.value));
        }
        connected := true;
      }
      var start := entityMappings;
      for k := 0 to |entities|
        invariant connected && ValidRegistry(entityMappings)
        invariant entityMappings == RegisterAll(start, entities[..k])
      {
        RegisterAllStep(start, entities, k);
        entityMappings := RegisterEntity(entityMappings, entities[k]);
      }
      assert entities[..|entities|] == entities;
      r := Success(());
    }
  }
}
