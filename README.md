# Event type lifecycle of the RNG module

This project models the `EventType` config entity of RNG, a Drupal registration module. An event
type binds the module to one (entity type, bundle) pair of the host site. Its id is `entity_type.bundle`. Its lifecycle hooks keep three other parts of the site in step with it:

- the courier registration context of its entity type (`rng_registration_<entity type>`),
  shared by all bundles of that entity type;
- the six event fields, whose storages and configs are provisioned on its bundle;
- the dependency on its bundle's config entity, or on the module that fixes the bundles.

The site is the class `Site`. It holds the stored event-type keys, the courier contexts by id,
the field storages, the field configs, a log of the calls made to the field-provisioning
helpers, and the two flags "router rebuild needed" and "local actions cleared". It also holds
the read-only entity-type catalog and the loadable bundle config entities. The class
`EventType` holds the entity type, bundle, field catalog and dependency set, and its methods
are the source's hooks acting on a `Site`. Pure modules give the specification functions the
methods are proved against:

- `Identity`: `JoinId` and its inverse `SplitId`.
- `CourierContexts`: the reconciliation decision table `Decide`, its effect `Reconcile`, and
  the invariant `InSync`. `InSync` says a context exists exactly for the entity types that
  have event types.
- `Fields`: the catalog, the provisioning call sequence, and the storage and config sets.
- `Dependencies`: `AddedDependencies`.

The model follows these details of the code:

- the context id prefix is `rng_registration_`;
- `id()` does not reject empty parts;
- `postDelete` reconciles only the entity type of the first record of the batch,
  `reset($entities)`. `MixedBatchLeavesContext` shows the
  consequence: a batch that deletes the last event types of two entity types leaves the second
  entity type's context behind;
- a missing entity type definition while creating a context is an error (`$entity_type_info`
  would be null). The model returns `EntityTypeNotFound` and changes nothing.

Two client methods use only the methods' contracts. `CreationScenario` takes the first event
type of an entity type through pre-save, storage, post-save and dependency calculation.
`DeletionScenario` deletes the only event type of an entity type, then runs post-delete.

## Model

| member | source | states |
|---|---|---|
| Identity.JoinId | src/Entity/EventType.php:134-136 | the id is the entity type, then one dot, then the bundle, with no check on either part |
| Identity.SplitJoin | src/Entity/EventType.php:134-136 | when the entity type has no dot, splitting the id at its first dot gives back exactly (entity type, bundle) |
| Identity.JoinSplit | src/Entity/EventType.php:134-136 | every id that contains a dot is the join of its two parts, and the entity type part has no dot |
| Identity.JoinIdInjective | src/Entity/EventType.php:134-136 | over entity types without dots, equal ids mean equal (entity type, bundle) pairs |
| Identity.JoinIdCollides | src/Entity/EventType.php:134-136 | when parts may contain dots, two different pairs get the same id |
| EventTypeEntity.EventType.Id | src/Entity/EventType.php:134-136 | the id built from the getters reads back as this record's entity type and bundle when the entity type has no dot |
| EventTypeEntity.EventType.constructor | src/Entity/EventType.php:92-99 | a new record carries the six-field catalog in order and no dependencies |
| EventTypeEntity.EventType.GetEventEntityTypeId | src/Entity/EventType.php:104-106 | reads the entity type field and nothing else |
| EventTypeEntity.EventType.SetEventEntityTypeId | src/Entity/EventType.php:104-114 | returns the same object; the getter then returns the new value; bundle, fields and dependencies are unchanged |
| EventTypeEntity.EventType.GetEventBundle | src/Entity/EventType.php:119-121 | reads the bundle field and nothing else |
| EventTypeEntity.EventType.SetEventBundle | src/Entity/EventType.php:119-129 | returns the same object; the getter then returns the new value; entity type, fields and dependencies are unchanged |
| CourierContexts.ContextId | src/Entity/EventType.php:146 | the context id is the prefix `rng_registration_` followed by the entity type |
| CourierContexts.ContextIdInjective | src/Entity/EventType.php:146 | different entity types never share a context id |
| CourierContexts.Decide | src/Entity/EventType.php:145-163 | create exactly when no event type, no context and the operation is "create"; delete exactly when no event type, a context and the operation is "delete"; otherwise keep |
| CourierContexts.Reconcile | src/Entity/EventType.php:141-165 | fails only when a context must be created and the entity type's label is unresolved; never changes any context but the entity type's own |
| CourierContexts.KeepWhileEventTypesExist | src/Entity/EventType.php:142-145 | while an event type of the entity type exists, the store is unchanged whatever the operation |
| CourierContexts.CreateFirst | src/Entity/EventType.php:152-162 | with no event types and no context, "create" adds exactly that context, with tokens [entity type, "registration"] and the registration label |
| CourierContexts.CreateExisting | src/Entity/EventType.php:146-153 | "create" when the context exists changes nothing |
| CourierContexts.CreateIdempotent | src/Entity/EventType.php:145-163 | reconciling with "create" a second time leaves the result of the first unchanged |
| CourierContexts.DeleteLast | src/Entity/EventType.php:146-150 | with no event types left and the context present, "delete" removes exactly that context |
| CourierContexts.DeleteAbsent | src/Entity/EventType.php:146-153 | "delete" without a context changes nothing |
| CourierContexts.InsertKeepsSync | src/Entity/EventType.php:170-175 | if contexts match the entity types that have event types, they still match after a new record's "create" reconcile and its storage |
| CourierContexts.RemoveKeepsSync | src/Entity/EventType.php:213-218 | removing one record and then reconciling its entity type with "delete" never fails and keeps contexts matching the remaining records |
| CourierContexts.MixedBatchLeavesContext | src/Entity/EventType.php:216-218 | reconciling only the first record of a two-entity-type batch leaves an orphaned context, so the match is lost |
| EventTypeEntity.EventType.CourierContextCC | src/Entity/EventType.php:141-165 | the context store becomes `Reconcile` of the old store, existence of event types and the catalog label; on failure nothing changes; records, fields and flags are untouched |
| EventTypeEntity.EventType.PreSave | src/Entity/EventType.php:170-175 | a new record reconciles its entity type with "create"; an existing one leaves contexts unchanged; nothing else changes |
| Fields.ProvisionCalls | src/Entity/EventType.php:184-187 | provisioning n fields makes 2n calls |
| Fields.ProvisionCallsAt | src/Entity/EventType.php:184-187 | for field i, call 2i is its storage on the entity type and call 2i+1 its config on the bundle, in catalog order |
| Fields.ProvisionCallsAppend | src/Entity/EventType.php:184-187 | one more field appends exactly its storage call and its config call |
| Fields.StoragesForAppend | src/Entity/EventType.php:185 | one more field adds exactly its storage on the entity type |
| Fields.ConfigsForAppend | src/Entity/EventType.php:186 | one more field adds exactly its config on the bundle |
| Fields.ConfigsRemoved | src/Entity/EventType.php:199-206 | after removal no catalog field's config remains on the bundle; configs of other bundles or other fields stay |
| EventTypeEntity.Site.AddEventFieldStorage | src/Entity/EventType.php:185 | the storage of the field on the entity type exists afterwards and one storage call is logged |
| EventTypeEntity.Site.AddEventFieldConfig | src/Entity/EventType.php:186 | the config of the field on the bundle exists afterwards and one config call is logged |
| EventTypeEntity.EventType.ProvisionField | src/Entity/EventType.php:185-186 | one loop step: the field's storage on the entity type, then its config on the bundle, both logged in that order; records, contexts and both rebuild flags unchanged |
| EventTypeEntity.EventType.PostSave | src/Entity/EventType.php:180-193 | on insert every catalog field's storage and config exist and the log grows by exactly the catalog's calls in order; on update the field state is unchanged; both flags are set; records and contexts are unchanged |
| EventTypeEntity.EventType.Delete | src/Entity/EventType.php:198-208 | no catalog field's config remains on the bundle; every other config stays; missing configs are not an error; the record's key is removed |
| EventTypeEntity.EventType.PostDelete | src/Entity/EventType.php:213-224 | an empty batch leaves contexts unchanged; otherwise only the first record's entity type is reconciled with "delete", which never fails; both flags are set |
| Dependencies.AddedDependencies | src/Entity/EventType.php:229-247 | at most one dependency is added |
| Dependencies.UnresolvedAddsNothing | src/Entity/EventType.php:231-233 | an unresolved entity type adds nothing |
| Dependencies.MissingBundleAddsNothing | src/Entity/EventType.php:234-240 | a config bundle that does not load adds nothing |
| Dependencies.ConfigDependencyExactly | src/Entity/EventType.php:234-240 | a config dependency is added exactly when the bundle entity type is not "bundle" and the bundle loads, and it names that bundle's config |
| Dependencies.ModuleDependencyExactly | src/Entity/EventType.php:242-244 | a module dependency is added exactly when the bundle entity type is "bundle", and it names the provider |
| EventTypeEntity.EventType.CalculateDependencies | src/Entity/EventType.php:229-247 | the dependency set grows by exactly `AddedDependencies` and is returned; the key fields are unchanged |

## Left out

- The entity annotation (handlers, forms, list builder, links, admin permission, config prefix) is declarative framework metadata with no behaviour.
- `mirror_update_permission` is a declared property with no logic in this class.
- The `EventManagerInterface` field constants are not part of this model. Their string values are not modelled; the model only uses that they are six distinct names, distinct from any other field, and their order.
- `rng_add_event_field_storage` and `rng_add_event_field_config` are not part of this model, nor is `module_load_include`. Each is modelled as an insertion into the storage or config set plus one logged call. Conflicts and errors raised inside them are not modelled, and nothing is claimed about their idempotence.
- Framework behaviour reached through `parent::` is not modelled: `preSave`, `postSave`, `postDelete`, and the reset of dependencies in `calculateDependencies`. `CalculateDependencies` starts from whatever dependency set the record already holds.
- `parent::delete()` is modelled only as removing the record's key. In the framework it also runs the storage's batch `postDelete`; here `PostDelete` is a separate call with an explicit batch.
- `isNew()` is framework state; `PreSave` takes it as a parameter.
- `eventTypeWithEntityType` is modelled as "some stored key has that entity type"; the event manager's own loading and caching is not modelled.
- Entity-type lookups (`getDefinition`) return an optional definition. Bundle loading returns an optional bundle config name. A bundle entity type without storage counts as "bundle not found"; the exception the host would throw there is not modelled.
- `CourierContext::load/create/save/delete` and `FieldConfig::loadByName`/`delete` are map and set operations on `Site`; persistence, serialization and id uniqueness are not modelled.
- The translated context label (`t()`) is kept as the entity type label it is built from.
- The router builder and the local-action plugin manager are reduced to the two flags they set; the rebuild itself is not modelled.
- Concurrency and multi-request ordering are out of scope: every hook runs to completion.
