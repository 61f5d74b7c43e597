/** What an event type sees of its host site: the entity-type catalog it looks
    entity types up in, and the keys event types are stored under. */
module Host {

  datatype Option<+T> = None | Some(value: T)

  type EntityTypeId = string
  type BundleId = string

  /** An event type is stored once per (entity type, bundle) pair. */
  type EventTypeKey = (EntityTypeId, BundleId)

  /** The part of an entity type definition the event type reads: its label,
      the entity type of its bundles (the literal "bundle" when the bundles are
      fixed by the providing module) and the providing module. */
  datatype EntityTypeDefinition = EntityTypeDefinition(
    displayLabel: string,
    bundleEntityType: string,
    provider: string)

  /** A lookup that may find nothing, as the host's loaders do. */
  function Lookup<K, V>(m: map<K, V>, k: K): (r: Option<V>)
    ensures r.Some? <==> k in m
    ensures r.Some? ==> r.value == m[k]
  {
    if k in m then Some(m[k]) else None
  }

  /** The label of an entity type, if the catalog resolves it. */
  function LabelOf(definitions: map<EntityTypeId, EntityTypeDefinition>, entityType: EntityTypeId): (r: Option<string>)
  {
    if entityType in definitions then Some(definitions[entityType].displayLabel) else None
  }

  /** Whether any stored event type is bound to the given entity type. */
  predicate HasEventType(eventTypes: set<EventTypeKey>, entityType: EntityTypeId)
  {
    exists key :: key in eventTypes && key.0 == entityType
  }
}
