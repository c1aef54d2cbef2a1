# Ivy module-metadata factory

A Dafny model of Gradle's `IvyMutableModuleMetadataFactory`. The factory builds the
metadata of an Ivy module from its component coordinate (group, module, version).
If the caller supplies no descriptor data, the factory fills in a fixed default shape:

- one configuration, `"default"`, transitive and visible, extending nothing;
- one artifact, named after the module, with type `jar` and extension `jar`, owned by `{"default"}`;
- no excludes.

The `missing` variant builds the same default metadata and then sets its missing flag.

Files:

- `ivy_descriptor.dfy`, module `IvyDescriptor`, holds the data model:
  - the coordinates and the canonical version identifier;
  - configurations, artifact names and artifacts;
  - the foreign collaborators;
  - the record of constructor arguments, `IvyModuleResolveMetadata`;
  - the mutable metadata class `DefaultMutableIvyModuleResolveMetadata`.
- `ivy_metadata_factory.dfy`, module `IvyMetadataFactory`, holds:
  - the three static default constants;
  - the factory class, with its two final collaborators as `const` fields;
  - the lemmas about the factory.

How the source is modelled:

- The `create` overloads, `createDefaultArtifact` and `asVersionIdentifier` are pure, so they are functions.
- A `create` overload returns the record of arguments that it passes to the metadata constructor.
- `missing` changes an object in place, so it is a method. It allocates a metadata object and then calls `SetMissing(true)` on it.
- The identifier canonicalizer (`moduleWithVersion`) is an arbitrary total function, held by the factory.
- The attributes factory, dependency descriptors and exclude rules are abstract types that the model passes through untouched.
- Java's ordered collections and `ImmutableList`s are `seq`; `ImmutableSet`s are `set`.

## Model

| member | source | states |
|---|---|---|
| IvyMetadataFactory.IvyMutableModuleMetadataFactory.constructor | src/dependency-management/org/gradle/api/internal/artifacts/repositories/metadata/IvyMutableModuleMetadataFactory.java:41-47 | the factory keeps the identifier factory and the attributes factory it is given |
| IvyMetadataFactory.IvyMutableModuleMetadataFactory.Create | src/dependency-management/org/gradle/api/internal/artifacts/repositories/metadata/IvyMutableModuleMetadataFactory.java:49-52 | the metadata has the default shape and no dependencies; it carries `from` as its component identifier, `from`'s version identifier and the factory's attributes factory |
| IvyMetadataFactory.CreateIsCreateWithNoDependencies | src/dependency-management/org/gradle/api/internal/artifacts/repositories/metadata/IvyMutableModuleMetadataFactory.java:50-52 | records the delegation at line 51: the one-argument form equals the dependency-list form applied to an empty list |
| IvyMetadataFactory.IvyMutableModuleMetadataFactory.CreateWithDependencies | src/dependency-management/org/gradle/api/internal/artifacts/repositories/metadata/IvyMutableModuleMetadataFactory.java:54-61 | default shape: exactly one configuration, `"default"`, transitive, visible, extending nothing; exactly one artifact, named after the module, `jar`/`jar`, owned by `{"default"}`; no excludes; the given dependencies unchanged; `from`, `from`'s version identifier and the factory's attributes factory carried |
| IvyMetadataFactory.CreateWithDependenciesCharacterized | src/dependency-management/org/gradle/api/internal/artifacts/repositories/metadata/IvyMutableModuleMetadataFactory.java:54-61 | a record is what the dependency-list form builds if and only if it has the default shape and carries the given dependencies, `from`, `from`'s identifier and the attributes factory |
| IvyMetadataFactory.CreateWithDependenciesIsExplicit | src/dependency-management/org/gradle/api/internal/artifacts/repositories/metadata/IvyMutableModuleMetadataFactory.java:55-60 | records the delegation at lines 55-60: the dependency-list form is the explicit form applied to the default configuration list, the default artifact and an empty exclude list |
| IvyMetadataFactory.IvyMutableModuleMetadataFactory.CreateWithDefinitions | src/dependency-management/org/gradle/api/internal/artifacts/repositories/metadata/IvyMutableModuleMetadataFactory.java:63-77 | nothing is synthesized: the metadata holds exactly the given dependencies, configurations, artifacts and excludes, `from` as component identifier, `from`'s version identifier and the factory's attributes factory |
| IvyMetadataFactory.CreateWithDefinitionsInjective | src/dependency-management/org/gradle/api/internal/artifacts/repositories/metadata/IvyMutableModuleMetadataFactory.java:63-77 | for one coordinate, two explicit calls give equal metadata exactly when their four collections are equal |
| IvyMetadataFactory.CreateWithDefinitionsDoesNotValidate | src/dependency-management/org/gradle/api/internal/artifacts/repositories/metadata/IvyMutableModuleMetadataFactory.java:63-77 | the explicit form accepts an artifact owned by a configuration the configuration list does not declare, and keeps it as given |
| IvyMetadataFactory.IvyMutableModuleMetadataFactory.AsVersionIdentifier | src/dependency-management/org/gradle/api/internal/artifacts/repositories/metadata/IvyMutableModuleMetadataFactory.java:83-85 | with a canonicalizer that keeps its inputs, the identifier is `(group, module, version)` of `from`, in that order |
| IvyMetadataFactory.IvyMutableModuleMetadataFactory.CreateDefaultArtifact | src/dependency-management/org/gradle/api/internal/artifacts/repositories/metadata/IvyMutableModuleMetadataFactory.java:79-81 | exactly one artifact, named after `from`'s module, with type `jar` and extension `jar`, owned by `{"default"}` |
| IvyMetadataFactory.DefaultConstants | src/dependency-management/org/gradle/api/internal/artifacts/repositories/metadata/IvyMutableModuleMetadataFactory.java:37-39 | the default configuration list is the single configuration `"default"`, transitive, visible, extending nothing; the default owner set is `{"default"}` |
| IvyMetadataFactory.DefaultShapeConsistent | src/dependency-management/org/gradle/api/internal/artifacts/repositories/metadata/IvyMutableModuleMetadataFactory.java:37-39 | the default artifact's owning configurations all appear among the default configuration list's names, and those names are exactly `{"default"}` |
| IvyMetadataFactory.VersionIdentifierFromCoordinate | src/dependency-management/org/gradle/api/internal/artifacts/repositories/metadata/IvyMutableModuleMetadataFactory.java:83-85 | the lemma that pins the argument order of line 84: with a canonicalizer that keeps its inputs, the identifier's group, name and version are `from`'s group, module and version, in that order; two coordinates get equal identifiers exactly when they are equal |
| IvyMetadataFactory.VersionIdentifierDeterministic | src/dependency-management/org/gradle/api/internal/artifacts/repositories/metadata/IvyMutableModuleMetadataFactory.java:68 | records the call at line 84 for any canonicalizer: the identifier is the canonicalizer's answer for `from`'s group, module and version, so coordinates with equal fields get equal identifiers |
| IvyDescriptor.DefaultMutableIvyModuleResolveMetadata.constructor | src/dependency-management/org/gradle/api/internal/artifacts/repositories/metadata/IvyMutableModuleMetadataFactory.java:69-76 | the object holds exactly the arguments it is constructed from; nothing is promised about the missing flag |
| IvyDescriptor.DefaultMutableIvyModuleResolveMetadata.SetMissing | src/dependency-management/org/gradle/api/internal/artifacts/repositories/metadata/IvyMutableModuleMetadataFactory.java:90 | afterwards the missing flag holds the given value; the constructed contents are unchanged |
| IvyMetadataFactory.IvyMutableModuleMetadataFactory.Missing | src/dependency-management/org/gradle/api/internal/artifacts/repositories/metadata/IvyMutableModuleMetadataFactory.java:87-92 | a fresh object whose missing flag is set and whose contents equal `Create(from)`: the default shape with no dependencies. It differs from the one-argument form only in the flag |

## Left out

- `IncrementalCompileOptions` (Scala plugin) is a holder of two file properties. It has no coupling to the factory and is not modelled.
- The internals of `DefaultMutableIvyModuleResolveMetadata` are not part of this model:
  - any defensive copying of the collections;
  - how it turns the attributes factory into attributes;
  - the other mutable state it has besides the missing flag;
  - the flag's initial value.
  So the copy-on-construct property and "missing is false after `create`" are neither modelled nor claimed.
- IvyDescriptor.DefaultMutableIvyModuleResolveMetadata.SetMissing: its body is not part of this model. It is modelled as a plain setter, matching its name and its use at line 90.
- `ImmutableModuleIdentifierFactory` interning is foreign code. `moduleWithVersion` is an arbitrary total function, so the identifier's fields are known only under `KeepsCoordinates`.
- Canonicalization failure is not modelled. `moduleWithVersion` is a total function here. A malformed coordinate that the canonicalizer rejects at line 84 would throw out of `asVersionIdentifier`, every `create` overload and `missing`; the model has no such error path.
- `ImmutableAttributesFactory`, `IvyDependencyDescriptor` and `Exclude` are foreign types. They are abstract types, carried through unchanged.
- `Configuration`, `Artifact` and `DefaultIvyArtifactName` are not part of this model. They are records of the constructor arguments the factory passes them:
  - `Configuration`'s two booleans are named transitive and visible, in Gradle's constructor order. Both are `true` at line 37, so the order does not affect any property.
  - Any classifier that `DefaultIvyArtifactName` adds is not modelled.
- Java static typing of the collections (`List`, `Collection<? extends …>`) and the immutability of Guava collections are not modelled. The same goes for thread-safety and safe publication.
- The factory does not check that each artifact's configurations exist in the configuration list, and the model adds no such check. `CreateWithDefinitionsDoesNotValidate` shows that the explicit form accepts such input.
