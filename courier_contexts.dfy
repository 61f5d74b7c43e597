/** Courier contexts: one shared registration context per entity type that has
    event types, created with the first event type and deleted with the last. */
module CourierContexts {
  import opened Host

  const ContextPrefix: string := "rng_registration_"

  /** The id of the registration context of an entity type. */
  function ContextId(entityType: EntityTypeId): (id: string)
    ensures |id| == |ContextPrefix| + |entityType|
    ensures id[..|ContextPrefix|] == ContextPrefix
    ensures id[|ContextPrefix|..] == entityType
  {
    ContextPrefix + entityType
  }

  /** Different entity types never share a context. */
  lemma ContextIdInjective(entityType1: EntityTypeId, entityType2: EntityTypeId)
    requires ContextId(entityType1) == ContextId(entityType2)
    ensures entityType1 == entityType2
  {
  }

  /** The translated label "Event (<entity type label>): Registration", kept
      as the argument it is built from. */
  datatype ContextLabel = RegistrationLabel(entityTypeLabel: string)

  datatype CourierContext = CourierContext(title: ContextLabel, tokens: seq<string>)

  /** The context created for an entity type, with the tokens it offers. */
  function NewContext(entityType: EntityTypeId, entityTypeLabel: string): (c: CourierContext)
  {
    CourierContext(RegistrationLabel(entityTypeLabel), [entityType, "registration"])
  }

  datatype Action = CreateContext | DeleteContext | Keep

  /** The decision of the reconciliation, from whether event types of the
      entity type still exist, whether its context exists, and the operation. */
  function Decide(eventTypesExist: bool, contextExists: bool, operation: string): (a: Action)
    ensures a == CreateContext <==> !eventTypesExist && !contextExists && operation == "create"
    ensures a == DeleteContext <==> !eventTypesExist && contextExists && operation == "delete"
  {
    if eventTypesExist then Keep
    else if contextExists then (if operation == "delete" then DeleteContext else Keep)
    else if operation == "create" then CreateContext else Keep
  }

  /** The context store after reconciling an entity type, or None when a
      context must be created but the entity type's label cannot be resolved. */
  function Reconcile(
    contexts: map<string, CourierContext>, eventTypesExist: bool,
    entityType: EntityTypeId, operation: string, entityTypeLabel: Option<string>
  ): (r: Option<map<string, CourierContext>>)
    ensures r.None? <==> Decide(eventTypesExist, ContextId(entityType) in contexts, operation) == CreateContext && entityTypeLabel.None?
    ensures r.Some? ==>
      forall id :: id != ContextId(entityType) ==> (id in r.value <==> id in contexts) && (id in contexts ==> r.value[id] == contexts[id])
  {
    var id := ContextId(entityType);
    match Decide(eventTypesExist, id in contexts, operation)
    case Keep => Some(contexts)
    case DeleteContext => Some(contexts - {id})
    case CreateContext =>
      if entityTypeLabel.None? then None
      else Some(contexts[id := NewContext(entityType, entityTypeLabel.value)])
  }

  /** While an event type of the entity type exists, nothing changes, whatever the operation. */
  lemma KeepWhileEventTypesExist(contexts: map<string, CourierContext>, entityType: EntityTypeId, operation: string, entityTypeLabel: Option<string>)
    ensures Reconcile(contexts, true, entityType, operation, entityTypeLabel) == Some(contexts)
  {
  }

  /** Creating for an entity type without event types or context adds exactly its context. */
  lemma CreateFirst(contexts: map<string, CourierContext>, entityType: EntityTypeId, entityTypeLabel: string)
    requires ContextId(entityType) !in contexts
    ensures var r := Reconcile(contexts, false, entityType, "create", Some(entityTypeLabel));
      && r.Some?
      && r.value.Keys == contexts.Keys + {ContextId(entityType)}
      && r.value[ContextId(entityType)].tokens == [entityType, "registration"]
      && r.value[ContextId(entityType)].title == RegistrationLabel(entityTypeLabel)
  {
  }

  /** Creating when the context already exists changes nothing. */
  lemma CreateExisting(contexts: map<string, CourierContext>, eventTypesExist: bool, entityType: EntityTypeId, entityTypeLabel: Option<string>)
    requires ContextId(entityType) in contexts
    ensures Reconcile(contexts, eventTypesExist, entityType, "create", entityTypeLabel) == Some(contexts)
  {
  }

  /** Creating twice is creating once: the second call finds the context. */
  lemma CreateIdempotent(contexts: map<string, CourierContext>, eventTypesExist: bool, entityType: EntityTypeId, entityTypeLabel: Option<string>)
    requires Reconcile(contexts, eventTypesExist, entityType, "create", entityTypeLabel).Some?
    ensures var once := Reconcile(contexts, eventTypesExist, entityType, "create", entityTypeLabel).value;
      Reconcile(once, eventTypesExist, entityType, "create", entityTypeLabel) == Some(once)
  {
  }

  /** Deleting for an entity type without event types removes its context and nothing else. */
  lemma DeleteLast(contexts: map<string, CourierContext>, entityType: EntityTypeId, entityTypeLabel: Option<string>)
    requires ContextId(entityType) in contexts
    ensures Reconcile(contexts, false, entityType, "delete", entityTypeLabel) == Some(contexts - {ContextId(entityType)})
  {
  }

  /** Deleting when no context exists changes nothing. */
  lemma DeleteAbsent(contexts: map<string, CourierContext>, eventTypesExist: bool, entityType: EntityTypeId, entityTypeLabel: Option<string>)
    requires ContextId(entityType) !in contexts
    ensures Reconcile(contexts, eventTypesExist, entityType, "delete", entityTypeLabel) == Some(contexts)
  {
  }

  /** A context exists for exactly the entity types that have event types. */
  ghost predicate InSync(eventTypes: set<EventTypeKey>, contexts: map<string, CourierContext>)
  {
    forall entityType :: ContextId(entityType) in contexts <==> HasEventType(eventTypes, entityType)
  }

  /** Reconciling with "create" before storing a new event type keeps the
      contexts in step with the event types once it is stored. */
  lemma InsertKeepsSync(eventTypes: set<EventTypeKey>, contexts: map<string, CourierContext>, key: EventTypeKey, entityTypeLabel: Option<string>)
    requires InSync(eventTypes, contexts)
    requires Reconcile(contexts, HasEventType(eventTypes, key.0), key.0, "create", entityTypeLabel).Some?
    ensures InSync(eventTypes + {key}, Reconcile(contexts, HasEventType(eventTypes, key.0), key.0, "create", entityTypeLabel).value)
  {
  }

  /** Reconciling with "delete" after removing an event type keeps the
      contexts in step with the remaining event types. */
  lemma RemoveKeepsSync(eventTypes: set<EventTypeKey>, contexts: map<string, CourierContext>, key: EventTypeKey, entityTypeLabel: Option<string>)
    requires InSync(eventTypes, contexts)
    ensures var r := Reconcile(contexts, HasEventType(eventTypes - {key}, key.0), key.0, "delete", entityTypeLabel);
      r.Some? && InSync(eventTypes - {key}, r.value)
  {
  }

  /** Reconciling only the first entity type of a batch leaves the context of
      another entity type whose last event type was in the same batch. */
  lemma MixedBatchLeavesContext()
    ensures var eventTypes: set<EventTypeKey> := {("node", "event"), ("user", "user")};
      var contexts := map[ContextId("node") := NewContext("node", "Content"), ContextId("user") := NewContext("user", "User")];
      var remaining := eventTypes - {("node", "event"), ("user", "user")};
      var r := Reconcile(contexts, HasEventType(remaining, "node"), "node", "delete", None);
      && InSync(eventTypes, contexts)
      && r.Some?
      && ContextId("user") in r.value
      && !InSync(remaining, r.value)
  {
  }
}
