/** The configuration dependencies an event type declares on its bundle or
    on the module that provides its entity type. */
module Dependencies {
  import opened Host

  datatype DependencyKind = ConfigDependency | ModuleDependency

  datatype Dependency = Dependency(kind: DependencyKind, name: string)

  /** The bundle entity type an entity type reports when its bundles are not config entities. */
  const FixedBundles: string := "bundle"

  /** The dependencies calculated for the event type bound to (entityType, bundle).
      bundleConfigs maps (bundle entity type, bundle) to the bundle's config dependency name. */
  function AddedDependencies(
    definitions: map<EntityTypeId, EntityTypeDefinition>,
    bundleConfigs: map<(string, BundleId), string>,
    entityType: EntityTypeId, bundle: BundleId
  ): (added: set<Dependency>)
    ensures |added| <= 1
  {
    if entityType !in definitions then {}
    else
      var definition := definitions[entityType];
      if definition.bundleEntityType != FixedBundles then
        if (definition.bundleEntityType, bundle) in bundleConfigs
        then {Dependency(ConfigDependency, bundleConfigs[(definition.bundleEntityType, bundle)])}
        else {}
      else {Dependency(ModuleDependency, definition.provider)}
  }

  /** An entity type the catalog does not resolve adds nothing. */
  lemma UnresolvedAddsNothing(definitions: map<EntityTypeId, EntityTypeDefinition>, bundleConfigs: map<(string, BundleId), string>, entityType: EntityTypeId, bundle: BundleId)
    requires entityType !in definitions
    ensures AddedDependencies(definitions, bundleConfigs, entityType, bundle) == {}
  {
  }

  /** A config bundle that cannot be loaded adds nothing. */
  lemma MissingBundleAddsNothing(definitions: map<EntityTypeId, EntityTypeDefinition>, bundleConfigs: map<(string, BundleId), string>, entityType: EntityTypeId, bundle: BundleId)
    requires entityType in definitions && definitions[entityType].bundleEntityType != FixedBundles
    requires (definitions[entityType].bundleEntityType, bundle) !in bundleConfigs
    ensures AddedDependencies(definitions, bundleConfigs, entityType, bundle) == {}
  {
  }

  /** The event type depends on a config exactly when its bundle is a loaded config entity, and then on that one. */
  lemma ConfigDependencyExactly(definitions: map<EntityTypeId, EntityTypeDefinition>, bundleConfigs: map<(string, BundleId), string>, entityType: EntityTypeId, bundle: BundleId, name: string)
    ensures Dependency(ConfigDependency, name) in AddedDependencies(definitions, bundleConfigs, entityType, bundle) <==>
      && entityType in definitions
      && definitions[entityType].bundleEntityType != FixedBundles
      && (definitions[entityType].bundleEntityType, bundle) in bundleConfigs
      && bundleConfigs[(definitions[entityType].bundleEntityType, bundle)] == name
  {
  }

  /** The event type depends on a module exactly when its bundles are fixed, and then on the provider. */
  lemma ModuleDependencyExactly(definitions: map<EntityTypeId, EntityTypeDefinition>, bundleConfigs: map<(string, BundleId), string>, entityType: EntityTypeId, bundle: BundleId, name: string)
    ensures Dependency(ModuleDependency, name) in AddedDependencies(definitions, bundleConfigs, entityType, bundle) <==>
      && entityType in definitions
      && definitions[entityType].bundleEntityType == FixedBundles
      && definitions[entityType].provider == name
  {
  }
}
