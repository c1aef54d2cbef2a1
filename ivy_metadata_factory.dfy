/**
 The Ivy module-metadata factory: builds the metadata of a module from its
 coordinate, filling in one "default" configuration, one jar artifact and no
 excludes when the caller supplies no descriptor data, and a "missing" variant
 that is the same object with its missing flag set.
 */
module IvyMetadataFactory {
  import opened IvyDescriptor

  /** The configuration synthesized for a module whose descriptor declares none. */
  const DefaultConfiguration: Configuration := Configuration(DefaultConfigurationName, true, true, {})

  /** The configuration list synthesized for a module whose descriptor declares none. */
  const DefaultConfigurationList: seq<Configuration> := [DefaultConfiguration]

  /** The owners of the synthesized artifact. */
  const SingleDefaultConfigurationName: set<string> := {DefaultConfigurationName}

  /**
   The shape of the metadata built when no descriptor data is supplied, stated
   independently of how the factory builds it.
   */
  ghost predicate IsDefaultShape(r: IvyModuleResolveMetadata, from: ModuleComponentIdentifier) {
    && |r.configurationDefinitions| == 1
    && (forall c :: c in r.configurationDefinitions ==>
          c.name == "default" && c.transitive && c.visible && c.extendsFrom == {})
    && |r.artifactDefinitions| == 1
    && (forall a :: a in r.artifactDefinitions ==>
          a.artifactName.name == from.moduleName && a.artifactName.artifactType == "jar"
          && a.artifactName.extension == "jar" && a.configurations == {"default"})
    && r.excludes == []
  }

  class IvyMutableModuleMetadataFactory {
    const moduleIdentifierFactory: ImmutableModuleIdentifierFactory
    const attributesFactory: ImmutableAttributesFactory

    constructor (moduleIdentifierFactory: ImmutableModuleIdentifierFactory, attributesFactory: ImmutableAttributesFactory)
      ensures this.moduleIdentifierFactory == moduleIdentifierFactory
      ensures this.attributesFactory == attributesFactory
    {
      this.moduleIdentifierFactory := moduleIdentifierFactory;
      this.attributesFactory := attributesFactory;
    }

    /** Metadata for a module with no dependencies and the default shape. */
    function Create(from: ModuleComponentIdentifier): (r: IvyModuleResolveMetadata)
      ensures IsDefaultShape(r, from)
      ensures r.dependencies == []
      ensures r.componentId == from && r.attributesFactory == attributesFactory
      ensures r.id == AsVersionIdentifier(from)
    {
      CreateWithDependencies(from, [])
    }

    /** Metadata for a module with the given dependencies and the default shape. */
    function CreateWithDependencies(from: ModuleComponentIdentifier, dependencies: seq<IvyDependencyDescriptor>):
      (r: IvyModuleResolveMetadata)
      ensures IsDefaultShape(r, from)
      ensures r.dependencies == dependencies
      ensures r.componentId == from && r.attributesFactory == attributesFactory
      ensures r.id == AsVersionIdentifier(from)
    {
      CreateWithDefinitions(from, dependencies, DefaultConfigurationList, CreateDefaultArtifact(from), [])
    }

    /** Metadata built from exactly the given descriptor data; nothing is synthesized or validated. */
    function CreateWithDefinitions(
      from: ModuleComponentIdentifier,
      dependencies: seq<IvyDependencyDescriptor>,
      configurationDefinitions: seq<Configuration>,
      artifactDefinitions: seq<Artifact>,
      excludes: seq<Exclude>): (r: IvyModuleResolveMetadata)
      ensures r.dependencies == dependencies
      ensures r.configurationDefinitions == configurationDefinitions
      ensures r.artifactDefinitions == artifactDefinitions
      ensures r.excludes == excludes
      ensures r.componentId == from && r.attributesFactory == attributesFactory
      ensures r.id == AsVersionIdentifier(from)
    {
      IvyModuleResolveMetadata(
        attributesFactory,
        AsVersionIdentifier(from),
        from,
        dependencies,
        configurationDefinitions,
        artifactDefinitions,
        excludes)
    }

    /** The one artifact a module without declared artifacts publishes: `<module>.jar`, in "default". */
    function CreateDefaultArtifact(from: ModuleComponentIdentifier): (r: seq<Artifact>)
      ensures |r| == 1
      ensures r[0].artifactName == IvyArtifactName(from.moduleName, "jar", "jar")
      ensures r[0].configurations == {"default"}
    {
      [Artifact(IvyArtifactName(from.moduleName, "jar", "jar"), SingleDefaultConfigurationName)]
    }

    /**
     The canonical version identifier of a component coordinate: with a canonicalizer
     that keeps its inputs, it has the coordinate's group, module and version, in that order.
     */
    function AsVersionIdentifier(from: ModuleComponentIdentifier): (r: ModuleVersionIdentifier)
      ensures KeepsCoordinates(moduleIdentifierFactory) ==>
        r == ModuleVersionIdentifier(from.group, from.moduleName, from.version)
    {
      moduleIdentifierFactory.moduleWithVersion(from.group, from.moduleName, from.version)
    }

    /** Metadata for a module that could not be found: the default metadata, flagged as missing. */
    method Missing(from: ModuleComponentIdentifier) returns (metadata: DefaultMutableIvyModuleResolveMetadata)
      ensures fresh(metadata)
      ensures metadata.missing
      ensures metadata.contents == Create(from)
      ensures IsDefaultShape(metadata.contents, from) && metadata.contents.dependencies == []
    {
      metadata := new DefaultMutableIvyModuleResolveMetadata(Create(from));
      metadata.SetMissing(true);
    }
  }

  /** The one-argument form is the dependency-list form with no dependencies. */
  lemma CreateIsCreateWithNoDependencies(f: IvyMutableModuleMetadataFactory, from: ModuleComponentIdentifier)
    ensures f.Create(from) == f.CreateWithDependencies(from, [])
  {
  }

  /**
   The default shape characterizes the dependency-list form completely: a record is
   what it builds exactly when it has the default shape and carries the coordinate,
   its identifier, the attributes factory and the dependencies.
   */
  lemma CreateWithDependenciesCharacterized(
    f: IvyMutableModuleMetadataFactory, from: ModuleComponentIdentifier,
    dependencies: seq<IvyDependencyDescriptor>, r: IvyModuleResolveMetadata)
    ensures r == f.CreateWithDependencies(from, dependencies) <==>
      (IsDefaultShape(r, from) && r.dependencies == dependencies && r.componentId == from
       && r.id == f.AsVersionIdentifier(from) && r.attributesFactory == f.attributesFactory)
  {
    if IsDefaultShape(r, from) {
      var c := r.configurationDefinitions[0];
      assert c in r.configurationDefinitions;
      assert r.configurationDefinitions == [c];
      var a := r.artifactDefinitions[0];
      assert a in r.artifactDefinitions;
      assert r.artifactDefinitions == [a];
    }
  }

  /**
   The dependency-list form is the explicit form applied to the default constants:
   every default it synthesizes would equally be obtained by passing them in.
   */
  lemma CreateWithDependenciesIsExplicit(
    f: IvyMutableModuleMetadataFactory, from: ModuleComponentIdentifier, dependencies: seq<IvyDependencyDescriptor>)
    ensures f.CreateWithDependencies(from, dependencies)
      == f.CreateWithDefinitions(from, dependencies, DefaultConfigurationList, f.CreateDefaultArtifact(from), [])
  {
  }

  /** The explicit form is determined by its arguments alone: equal arguments, equal metadata, and back. */
  lemma CreateWithDefinitionsInjective(
    f: IvyMutableModuleMetadataFactory, from: ModuleComponentIdentifier,
    d1: seq<IvyDependencyDescriptor>, c1: seq<Configuration>, a1: seq<Artifact>, e1: seq<Exclude>,
    d2: seq<IvyDependencyDescriptor>, c2: seq<Configuration>, a2: seq<Artifact>, e2: seq<Exclude>)
    ensures f.CreateWithDefinitions(from, d1, c1, a1, e1) == f.CreateWithDefinitions(from, d2, c2, a2, e2)
      <==> d1 == d2 && c1 == c2 && a1 == a2 && e1 == e2
  {
  }

  /** The default configuration is the "default" one, visible and transitive, extending nothing. */
  lemma DefaultConstants()
    ensures DefaultConfigurationList == [Configuration("default", true, true, {})]
    ensures SingleDefaultConfigurationName == {"default"}
  {
  }

  /** The synthesized artifact is owned only by configurations the synthesized list declares. */
  lemma DefaultShapeConsistent(f: IvyMutableModuleMetadataFactory, from: ModuleComponentIdentifier)
    ensures ArtifactsReferToConfigurations(DefaultConfigurationList, f.CreateDefaultArtifact(from))
    ensures ConfigurationNames(DefaultConfigurationList) == SingleDefaultConfigurationName
  {
  }

  /**
   The explicit form validates nothing: artifacts owned by a configuration that the
   configuration list does not declare are accepted as they are.
   */
  lemma CreateWithDefinitionsDoesNotValidate(
    f: IvyMutableModuleMetadataFactory, from: ModuleComponentIdentifier, dependencies: seq<IvyDependencyDescriptor>)
    ensures var r := f.CreateWithDefinitions(from, dependencies, [], f.CreateDefaultArtifact(from), []);
      r.artifactDefinitions == f.CreateDefaultArtifact(from)
      && !ArtifactsReferToConfigurations(r.configurationDefinitions, r.artifactDefinitions)
  {
  }

  /**
   The version identifier is derived from the coordinate's group, module and version
   only, in that order: with a canonicalizer that keeps its inputs, its fields are the
   coordinate's, and two coordinates have the same identifier exactly when they are equal.
   */
  lemma VersionIdentifierFromCoordinate(
    f: IvyMutableModuleMetadataFactory, a: ModuleComponentIdentifier, b: ModuleComponentIdentifier)
    requires KeepsCoordinates(f.moduleIdentifierFactory)
    ensures f.AsVersionIdentifier(a) == ModuleVersionIdentifier(a.group, a.moduleName, a.version)
    ensures f.AsVersionIdentifier(a) == f.AsVersionIdentifier(b) <==> a == b
  {
  }

  /** Whatever the canonicalizer, coordinates with equal fields get the identifier it gives for those fields. */
  lemma VersionIdentifierDeterministic(
    f: IvyMutableModuleMetadataFactory, a: ModuleComponentIdentifier, b: ModuleComponentIdentifier)
    requires a.group == b.group && a.moduleName == b.moduleName && a.version == b.version
    ensures f.AsVersionIdentifier(a) == f.AsVersionIdentifier(b)
    ensures f.AsVersionIdentifier(a) == f.moduleIdentifierFactory.moduleWithVersion(b.group, b.moduleName, b.version)
  {
  }
}
