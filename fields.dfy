/** The fields an event type provisions on its bundle, and the calls that provision them. */
module Fields {
  import opened Host

  /** Field names: the six the event type provisions, and any other field of the site. */
  datatype FieldName =
    | RegistrationType
    | RegistrationGroups
    | Status
    | Capacity
    | EmailReplyTo
    | AllowDuplicateRegistrants
    | OtherField(name: string)

  /** The catalog every event type starts with, in provisioning order. */
  const EventFields: seq<FieldName> :=
    [RegistrationType, RegistrationGroups, Status, Capacity, EmailReplyTo, AllowDuplicateRegistrants]

  /** A call into the field provisioning helpers. */
  datatype FieldCall =
    | AddStorage(field: FieldName, entityType: EntityTypeId)
    | AddConfig(field: FieldName, entityType: EntityTypeId, bundle: BundleId)

  /** The calls made when provisioning fields on (entityType, bundle): for each
      field in order, one storage call then one config call. */
  function ProvisionCalls(fields: seq<FieldName>, entityType: EntityTypeId, bundle: BundleId): (calls: seq<FieldCall>)
    ensures |calls| == 2 * |fields|
  {
    if fields == [] then []
    else [AddStorage(fields[0], entityType), AddConfig(fields[0], entityType, bundle)] + ProvisionCalls(fields[1..], entityType, bundle)
  }

  /** The calls for the i-th field are the storage call at 2 * i and the config call right after it. */
  lemma {:induction false} ProvisionCallsAt(fields: seq<FieldName>, entityType: EntityTypeId, bundle: BundleId, i: nat)
    requires i < |fields|
    ensures ProvisionCalls(fields, entityType, bundle)[2 * i] == AddStorage(fields[i], entityType)
    ensures ProvisionCalls(fields, entityType, bundle)[2 * i + 1] == AddConfig(fields[i], entityType, bundle)
  {
    if i > 0 {
      ProvisionCallsAt(fields[1..], entityType, bundle, i - 1);
    }
  }

  /** Provisioning one more field appends its two calls. */
  lemma {:induction false} ProvisionCallsAppend(fields: seq<FieldName>, field: FieldName, entityType: EntityTypeId, bundle: BundleId)
    ensures ProvisionCalls(fields + [field], entityType, bundle)
         == ProvisionCalls(fields, entityType, bundle) + [AddStorage(field, entityType), AddConfig(field, entityType, bundle)]
  {
    if fields != [] {
      assert (fields + [field])[1..] == fields[1..] + [field];
      ProvisionCallsAppend(fields[1..], field, entityType, bundle);
    }
  }

  /** The field storages of the given fields on an entity type. */
  function StoragesFor(fields: seq<FieldName>, entityType: EntityTypeId): (storages: set<(FieldName, EntityTypeId)>)
  {
    set field | field in fields :: (field, entityType)
  }

  /** The field configs of the given fields on one bundle. */
  function ConfigsFor(fields: seq<FieldName>, entityType: EntityTypeId, bundle: BundleId): (configs: set<(EntityTypeId, BundleId, FieldName)>)
  {
    set field | field in fields :: (entityType, bundle, field)
  }

  /** Provisioning one more field adds one storage. */
  lemma StoragesForAppend(fields: seq<FieldName>, field: FieldName, entityType: EntityTypeId)
    ensures StoragesFor(fields + [field], entityType) == StoragesFor(fields, entityType) + {(field, entityType)}
  {
  }

  /** Provisioning or removing one more field concerns one more config. */
  lemma ConfigsForAppend(fields: seq<FieldName>, field: FieldName, entityType: EntityTypeId, bundle: BundleId)
    ensures ConfigsFor(fields + [field], entityType, bundle) == ConfigsFor(fields, entityType, bundle) + {(entityType, bundle, field)}
  {
  }

  /** Removing the configs of the fields on a bundle leaves none of them, and
      keeps every config of another bundle or of another field. */
  lemma ConfigsRemoved(configs: set<(EntityTypeId, BundleId, FieldName)>, fields: seq<FieldName>, entityType: EntityTypeId, bundle: BundleId)
    ensures forall field :: field in fields ==> (entityType, bundle, field) !in configs - ConfigsFor(fields, entityType, bundle)
    ensures forall c :: c in configs && (c.0 != entityType || c.1 != bundle || c.2 !in fields) ==>
      c in configs - ConfigsFor(fields, entityType, bundle)
  {
  }
}
