/**
 The values an Ivy module's metadata is assembled from: component and version
 coordinates, configurations, artifacts, the foreign collaborators the metadata
 carries, and the mutable metadata object itself.
 */
module IvyDescriptor {

  /** The name of the configuration every Ivy module has when its descriptor declares none. */
  const DefaultConfigurationName: string := "default"

  /** The coordinate of a component in a repository, as handed to the factory. */
  datatype ModuleComponentIdentifier = ModuleComponentIdentifier(group: string, moduleName: string, version: string)

  /** The canonical (group, name, version) identity of a module version. */
  datatype ModuleVersionIdentifier = ModuleVersionIdentifier(group: string, name: string, version: string)

  /**
   The identifier canonicalizer. Its interning is foreign code, so it is kept as an
   arbitrary total function from (group, module, version) to an identifier.
   */
  datatype ImmutableModuleIdentifierFactory =
    ImmutableModuleIdentifierFactory(moduleWithVersion: (string, string, string) -> ModuleVersionIdentifier)

  /** A canonicalizer that keeps the fields it is given, in the order it is given them. */
  ghost predicate KeepsCoordinates(ids: ImmutableModuleIdentifierFactory) {
    forall g, m, v :: ids.moduleWithVersion(g, m, v).group == g
      && ids.moduleWithVersion(g, m, v).name == m
      && ids.moduleWithVersion(g, m, v).version == v
  }

  /** The attributes factory: an opaque token the metadata carries along. */
  type ImmutableAttributesFactory(==)

  /** A dependency edge parsed from a descriptor: passed through untouched. */
  type IvyDependencyDescriptor(==)

  /** An exclude rule parsed from a descriptor: passed through untouched. */
  type Exclude(==)

  /** A named grouping of artifacts and dependencies within a module. */
  datatype Configuration = Configuration(name: string, transitive: bool, visible: bool, extendsFrom: set<string>)

  /** The (name, type, extension) triple that names a published file. */
  datatype IvyArtifactName = IvyArtifactName(name: string, artifactType: string, extension: string)

  /** A published file together with the names of the configurations that own it. */
  datatype Artifact = Artifact(artifactName: IvyArtifactName, configurations: set<string>)

  /** The names of a list of configurations. */
  function ConfigurationNames(configurations: seq<Configuration>): (names: set<string>)
    ensures forall i :: 0 <= i < |configurations| ==> configurations[i].name in names
    ensures forall n :: n in names ==> exists i :: 0 <= i < |configurations| && configurations[i].name == n
  {
    if configurations == [] then {}
    else
      var rest := ConfigurationNames(configurations[1..]);
      assert forall n :: n in rest ==> exists i :: 1 <= i < |configurations| && configurations[i].name == n by {
        forall n | n in rest ensures exists i :: 1 <= i < |configurations| && configurations[i].name == n {
          var j :| 0 <= j < |configurations[1..]| && configurations[1..][j].name == n;
          assert configurations[j + 1].name == n;
        }
      }
      {configurations[0].name} + rest
  }

  /**
   Every artifact is owned only by configurations that are in the list. The factory
   does not check this: it trusts the descriptor parser that supplies the lists.
   */
  predicate ArtifactsReferToConfigurations(configurations: seq<Configuration>, artifacts: seq<Artifact>) {
    forall k :: 0 <= k < |artifacts| ==> artifacts[k].configurations <= ConfigurationNames(configurations)
  }

  /**
   What the metadata object is constructed from: exactly the arguments the factory
   hands to the metadata constructor, in the constructor's order.
   */
  datatype IvyModuleResolveMetadata = IvyModuleResolveMetadata(
    attributesFactory: ImmutableAttributesFactory,
    id: ModuleVersionIdentifier,
    componentId: ModuleComponentIdentifier,
    dependencies: seq<IvyDependencyDescriptor>,
    configurationDefinitions: seq<Configuration>,
    artifactDefinitions: seq<Artifact>,
    excludes: seq<Exclude>)

  /**
   The mutable metadata object, reduced to what the factory touches: the arguments it
   was constructed from and the missing flag, the one piece of state the factory
   updates. What the constructor puts in the flag is not part of this model, so the
   constructor promises nothing about it.
   */
  class DefaultMutableIvyModuleResolveMetadata {
    const contents: IvyModuleResolveMetadata
    var missing: bool

    constructor (contents: IvyModuleResolveMetadata)
      ensures this.contents == contents
    {
      this.contents := contents;
    }

    /** Marks (or unmarks) the module as one whose metadata could not be found. */
    method SetMissing(missing: bool)
      modifies this
      ensures this.missing == missing
    {
      this.missing := missing;
    }
  }
}
