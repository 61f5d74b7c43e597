/** The event type config entity and the site state its lifecycle hooks act on. */
module EventTypeEntity {
  import opened Host
  import opened Identity
  import opened CourierContexts
  import opened Fields
  import opened Dependencies

  /** How a context reconciliation ended: a missing entity type definition
      aborts the creation of a context. */
  datatype Outcome = Done | EntityTypeNotFound(entityType: EntityTypeId)

  /** The site: stored event types, courier contexts, field storages and
      configs, the calls made to the provisioning helpers, the two rebuild
      flags, and the read-only entity catalog. */
  class Site {
    var eventTypes: set<EventTypeKey>
    var contexts: map<string, CourierContext>
    var storages: set<(FieldName, EntityTypeId)>
    var configs: set<(EntityTypeId, BundleId, FieldName)>
    var fieldCalls: seq<FieldCall>
    var routerRebuildNeeded: bool
    var localActionsCleared: bool
    const definitions: map<EntityTypeId, EntityTypeDefinition>
    const bundleConfigs: map<(string, BundleId), string>

    constructor (
      eventTypes: set<EventTypeKey>, contexts: map<string, CourierContext>,
      storages: set<(FieldName, EntityTypeId)>, configs: set<(EntityTypeId, BundleId, FieldName)>,
      definitions: map<EntityTypeId, EntityTypeDefinition>, bundleConfigs: map<(string, BundleId), string>)
      ensures this.eventTypes == eventTypes && this.contexts == contexts
      ensures this.storages == storages && this.configs == configs
      ensures this.definitions == definitions && this.bundleConfigs == bundleConfigs
      ensures fieldCalls == [] && !routerRebuildNeeded && !localActionsCleared
    {
      this.eventTypes, this.contexts := eventTypes, contexts;
      this.storages, this.configs := storages, configs;
      this.definitions, this.bundleConfigs := definitions, bundleConfigs;
      fieldCalls := [];
      routerRebuildNeeded, localActionsCleared := false, false;
    }

    /** The contexts after reconciling entityType with operation in the current state. */
    ghost function ContextsAfter(entityType: EntityTypeId, operation: string): Option<map<string, CourierContext>>
      reads this
    {
      Reconcile(contexts, HasEventType(eventTypes, entityType), entityType, operation, LabelOf(definitions, entityType))
    }

    twostate predicate FieldStateUnchanged()
      reads this
    {
      storages == old(storages) && configs == old(configs) && fieldCalls == old(fieldCalls)
    }

    twostate predicate FlagsUnchanged()
      reads this
    {
      routerRebuildNeeded == old(routerRebuildNeeded) && localActionsCleared == old(localActionsCleared)
    }

    /** Ensures a storage of field exists on entityType. */
    method AddEventFieldStorage(field: FieldName, entityType: EntityTypeId)
      modifies this
      ensures storages == old(storages) + {(field, entityType)}
      ensures fieldCalls == old(fieldCalls) + [AddStorage(field, entityType)]
      ensures configs == old(configs) && eventTypes == old(eventTypes) && contexts == old(contexts) && FlagsUnchanged()
    {
      storages := storages + {(field, entityType)};
      fieldCalls := fieldCalls + [AddStorage(field, entityType)];
    }

    /** Ensures a config of field exists on (entityType, bundle). */
    method AddEventFieldConfig(field: FieldName, entityType: EntityTypeId, bundle: BundleId)
      modifies this
      ensures configs == old(configs) + {(entityType, bundle, field)}
      ensures fieldCalls == old(fieldCalls) + [AddConfig(field, entityType, bundle)]
      ensures storages == old(storages) && eventTypes == old(eventTypes) && contexts == old(contexts) && FlagsUnchanged()
    {
      configs := configs + {(entityType, bundle, field)};
      fieldCalls := fieldCalls + [AddConfig(field, entityType, bundle)];
    }
  }

  class EventType {
    var entityType: EntityTypeId
    var bundle: BundleId
    var fields: seq<FieldName>
    var dependencies: set<Dependency>

    constructor (entityType: EntityTypeId, bundle: BundleId)
      ensures this.entityType == entityType && this.bundle == bundle
      ensures fields == EventFields && dependencies == {}
    {
      this.entityType, this.bundle := entityType, bundle;
      fields := EventFields;
      dependencies := {};
    }

    /** The entity type this event type is bound to. */
    function GetEventEntityTypeId(): (r: EntityTypeId)
      reads this
      ensures r == entityType
    {
      entityType
    }

    method SetEventEntityTypeId(entityType: EntityTypeId) returns (self: EventType)
      modifies this
      ensures self == this && GetEventEntityTypeId() == entityType
      ensures bundle == old(bundle) && fields == old(fields) && dependencies == old(dependencies)
    {
      this.entityType := entityType;
      self := this;
    }

    /** The bundle this event type is bound to. */
    function GetEventBundle(): (r: BundleId)
      reads this
      ensures r == bundle
    {
      bundle
    }

    method SetEventBundle(bundle: BundleId) returns (self: EventType)
      modifies this
      ensures self == this && GetEventBundle() == bundle
      ensures entityType == old(entityType) && fields == old(fields) && dependencies == old(dependencies)
    {
      this.bundle := bundle;
      self := this;
    }

    /** The id: when the entity type has no dot, it reads back as exactly
        this event type's entity type and bundle. */
    function Id(): (id: string)
      reads this
      ensures '.' !in entityType ==> SplitId(id) == Some((entityType, bundle))
    {
      var id := JoinId(GetEventEntityTypeId(), GetEventBundle());
      assert '.' !in entityType ==> SplitId(id) == Some((entityType, bundle)) by {
        if '.' !in entityType { SplitJoin(entityType, bundle); }
      }
      id
    }

    /** Creates, deletes or keeps the registration context of entityType. */
    static method CourierContextCC(site: Site, entityType: EntityTypeId, operation: string) returns (outcome: Outcome)
      modifies site
      ensures var r := old(site.ContextsAfter(entityType, operation));
        if r.Some? then outcome == Done && site.contexts == r.value
        else outcome == EntityTypeNotFound(entityType) && site.contexts == old(site.contexts)
      ensures site.eventTypes == old(site.eventTypes) && site.FieldStateUnchanged() && site.FlagsUnchanged()
    {
      outcome := Done;
      if !HasEventType(site.eventTypes, entityType) {
        var id := ContextId(entityType);
        if id in site.contexts {
          if operation == "delete" {
            site.contexts := site.contexts - {id};
          }
        } else if operation == "create" {
          var definition := Lookup(site.definitions, entityType);
          if definition.Some? {
            site.contexts := site.contexts[id := NewContext(entityType, definition.value.displayLabel)];
          } else {
            outcome := EntityTypeNotFound(entityType);
          }
        }
      }
    }

    /** Before saving: a new event type reconciles its entity type's context with "create". */
    method PreSave(site: Site, isNew: bool) returns (outcome: Outcome)
      modifies site
      ensures !isNew ==> outcome == Done && site.contexts == old(site.contexts)
      ensures isNew ==>
        var r := old(site.ContextsAfter(entityType, "create"));
        if r.Some? then outcome == Done && site.contexts == r.value
        else outcome == EntityTypeNotFound(entityType) && site.contexts == old(site.contexts)
      ensures site.eventTypes == old(site.eventTypes) && site.FieldStateUnchanged() && site.FlagsUnchanged()
    {
      outcome := Done;
      if isNew {
        outcome := CourierContextCC(site, entityType, "create");
      }
    }

    /** After saving: an inserted event type provisions its fields on its
        bundle; both rebuild flags are raised either way. */
    method PostSave(site: Site, update: bool)
      modifies site
      ensures !update ==>
        && site.storages == old(site.storages) + StoragesFor(fields, entityType)
        && site.configs == old(site.configs) + ConfigsFor(fields, entityType, bundle)
        && site.fieldCalls == old(site.fieldCalls) + ProvisionCalls(fields, entityType, bundle)
      ensures update ==> site.FieldStateUnchanged()
      ensures site.routerRebuildNeeded && site.localActionsCleared
      ensures site.eventTypes == old(site.eventTypes) && site.contexts == old(site.contexts)
    {
      if !update {
        var i := 0;
        while i < |fields|
          invariant 0 <= i <= |fields|
          invariant site.storages == old(site.storages) + StoragesFor(fields[..i], entityType)
          invariant site.configs == old(site.configs) + ConfigsFor(fields[..i], entityType, bundle)
          invariant site.fieldCalls == old(site.fieldCalls) + ProvisionCalls(fields[..i], entityType, bundle)
          invariant site.eventTypes == old(site.eventTypes) && site.contexts == old(site.contexts)
        {
          ProvisionField(site, fields[i]);
          assert fields[..i + 1] == fields[..i] + [fields[i]];
          StoragesForAppend(fields[..i], fields[i], entityType);
          ConfigsForAppend(fields[..i], fields[i], entityType, bundle);
          ProvisionCallsAppend(fields[..i], fields[i], entityType, bundle);
          i := i + 1;
        }
        assert fields[..i] == fields;
      }
      site.routerRebuildNeeded := true;
      site.localActionsCleared := true;
    }

    /** One step of provisioning: the storage, then the config, of one field. */
    method ProvisionField(site: Site, field: FieldName)
      modifies site
      ensures site.storages == old(site.storages) + {(field, entityType)}
      ensures site.configs == old(site.configs) + {(entityType, bundle, field)}
      ensures site.fieldCalls == old(site.fieldCalls) + [AddStorage(field, entityType), AddConfig(field, entityType, bundle)]
      ensures site.eventTypes == old(site.eventTypes) && site.contexts == old(site.contexts) && site.FlagsUnchanged()
    {
      site.AddEventFieldStorage(field, entityType);
      site.AddEventFieldConfig(field, GetEventEntityTypeId(), GetEventBundle());
    }

    /** Deletes the config of each of its fields on its bundle where one
        exists, then the event type itself. */
    method Delete(site: Site)
      modifies site
      ensures site.configs == old(site.configs) - ConfigsFor(fields, entityType, bundle)
      ensures forall field :: field in fields ==> (entityType, bundle, field) !in site.configs
      ensures forall c :: c in old(site.configs) && (c.0 != entityType || c.1 != bundle || c.2 !in fields) ==> c in site.configs
      ensures site.eventTypes == old(site.eventTypes) - {(entityType, bundle)}
      ensures site.contexts == old(site.contexts) && site.storages == old(site.storages)
      ensures site.fieldCalls == old(site.fieldCalls) && site.FlagsUnchanged()
    {
      var i := 0;
      while i < |fields|
        invariant 0 <= i <= |fields|
        invariant site.configs == old(site.configs) - ConfigsFor(fields[..i], entityType, bundle)
        invariant site.eventTypes == old(site.eventTypes) && site.contexts == old(site.contexts)
        invariant site.storages == old(site.storages) && site.fieldCalls == old(site.fieldCalls) && site.FlagsUnchanged()
      {
        var config := (GetEventEntityTypeId(), GetEventBundle(), fields[i]);
        if config in site.configs {
          site.configs := site.configs - {config};
        }
        assert fields[..i + 1] == fields[..i] + [fields[i]];
        ConfigsForAppend(fields[..i], fields[i], entityType, bundle);
        i := i + 1;
      }
      assert fields[..i] == fields;
      ConfigsRemoved(old(site.configs), fields, entityType, bundle);
      site.eventTypes := site.eventTypes - {(entityType, bundle)};
    }

    /** After a batch is deleted: the context of the first event type's entity
        type is reconciled with "delete"; both rebuild flags are raised. */
    static method PostDelete(site: Site, entities: seq<EventType>)
      modifies site
      ensures |entities| == 0 ==> site.contexts == old(site.contexts)
      ensures |entities| > 0 ==>
        var r := old(site.ContextsAfter(entities[0].entityType, "delete"));
        r.Some? && site.contexts == r.value
      ensures site.routerRebuildNeeded && site.localActionsCleared
      ensures site.eventTypes == old(site.eventTypes) && site.FieldStateUnchanged()
    {
      if |entities| > 0 {
        var eventType := entities[0];
        var _ := CourierContextCC(site, eventType.entityType, "delete");
      }
      site.routerRebuildNeeded := true;
      site.localActionsCleared := true;
    }

    /** Adds to the dependencies the bundle's config entity or the module
        that fixes the bundles, and returns them. */
    method CalculateDependencies(site: Site) returns (result: set<Dependency>)
      modifies this
      ensures dependencies == old(dependencies) + AddedDependencies(site.definitions, site.bundleConfigs, entityType, bundle)
      ensures result == dependencies
      ensures entityType == old(entityType) && bundle == old(bundle) && fields == old(fields)
    {
      var definition := Lookup(site.definitions, GetEventEntityTypeId());
      if definition.Some? {
        if definition.value.bundleEntityType != FixedBundles {
          var bundleConfig := Lookup(site.bundleConfigs, (definition.value.bundleEntityType, GetEventBundle()));
          if bundleConfig.Some? {
            dependencies := dependencies + {Dependency(ConfigDependency, bundleConfig.value)};
          }
        } else {
          dependencies := dependencies + {Dependency(ModuleDependency, definition.value.provider)};
        }
      }
      result := dependencies;
    }
  }

  /** Creating the first event type of an entity type: the context is
      created with it, its fields are provisioned and it depends on its bundle. */
  method CreationScenario()
  {
    var site := new Site({}, map[], {}, {},
      map["node" := EntityTypeDefinition("Content", "node_type", "node")],
      map[("node_type", "event") := "node.type.event"]);
    var eventType := new EventType("node", "event");

    var outcome := eventType.PreSave(site, true);
    assert outcome == Done && ContextId("node") in site.contexts;
    site.eventTypes := site.eventTypes + {("node", "event")};
    eventType.PostSave(site, false);
    assert EventFields[3] == Capacity;
    assert ("node", "event", Capacity) in site.configs && (Capacity, "node") in site.storages;

    var dependencies := eventType.CalculateDependencies(site);
    assert Dependency(ConfigDependency, "node.type.event") in dependencies;
  }

  /** Deleting the only event type of an entity type removes its field
      configs and the entity type's context, and keeps other configs. */
  method DeletionScenario()
  {
    var site := new Site({("node", "event")}, map[ContextId("node") := NewContext("node", "Content")], {},
      {("node", "event", Capacity), ("node", "page", Capacity)}, map[], map[]);
    var eventType := new EventType("node", "event");

    eventType.Delete(site);
    assert site.eventTypes == {};
    EventType.PostDelete(site, [eventType]);
    assert ("node", "event", Capacity) !in site.configs;
    assert ("node", "page", Capacity) in site.configs;
    assert ContextId("node") !in site.contexts;
  }
}
