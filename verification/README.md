# Fluent NHibernate mapping compilation, modelled in Dafny

This project models how Fluent NHibernate turns mapping fragments into an
NHibernate mapping document, and proves properties of that model. The
modelled parts are:

- **The layered attribute store.** Every mapping node and fluent builder
  records its attributes in it. A read returns the value at the highest
  layer, so a user-supplied value beats a default.
- **The mapping model.** Classes, subclasses, components, collections,
  keys, columns, ids, properties and the other nodes are values. Each has
  its column-list operations, its `AcceptVisitor` traversal order (as the
  sequence of visited nodes) and its structural `Equals`.
- **The mapping bucket.** Compiled fragments file themselves into one of
  its five lists.
- **The subclass-pairing visitor.** It rebuilds inheritance trees by
  explicit `Extends` marker and by base-class or interface distance, then
  stamps each root's subclass kind through the tree. As in the source, the
  distance walk under a class parent throws a null reference when it reads
  the base type of an interface or of `object`, and that ends the visit.
- **The external-component resolution visitor.** It reports a missing
  component, an ambiguous reference, or the unique component.
- **Compilation.** This covers the action compilers, both mapping compilers,
  the instruction gatherer, configuration fallback, and the type selection
  and build policy of the automapping persistence model.
- **The fluent builders and convention instances.** These are PropertyPart,
  IdentityPart, JoinPart, IndexPart, KeyPropertyPart, the pass-through
  provider, ManyToOneInstance and AutoKeyMapper, plus CollectionTypeSource.

Objects that the source updates in place are Dafny classes with `modifies`
clauses:
- the stores;
- the bucket;
- the compilers and models;
- the gatherer and its instructions;
- the builders;
- the convention instance.

Their methods are proved against specification functions, and the lemmas
are stated about those functions. Mapping nodes are immutable datatypes. An
update to a node is a function returning the new node.

Layers are integers. The model declares the two layers it writes at, with
fixed values: `Defaults` is 0 and `UserSupplied` is 1. No contract depends on
these numbers beyond `Defaults < UserSupplied`; precedence is only ever stated
by comparing layer numbers.

## Model

| member | source | states |
|---|---|---|
| AttributeStores.TopLayer | src/FluentNHibernate/MappingModel/AttributeStore.cs:26 | The chosen layer is one of the recorded layers, and no recorded layer is greater. |
| AttributeStores.Lookup | src/FluentNHibernate/MappingModel/AttributeStore.cs:19-29 | A read is empty exactly when the attribute has no layers. Otherwise it is the value at a layer at least as high as every recorded layer. |
| AttributeStores.Put | src/FluentNHibernate/MappingModel/AttributeStore.cs:31-34 | A write fills slot (attribute, layer) and leaves every other slot as it was. The attribute becomes specified. |
| AttributeStores.CopyInto | src/FluentNHibernate/MappingModel/AttributeStore.cs:46-49 | Copying makes each slot read as the source's slot when the source has one, and as the target's otherwise. The keys are the union of both stores' keys. |
| AttributeStores.LookupAfterPut | src/FluentNHibernate/MappingModel/AttributeStore.cs:19-34 | A read after a write returns the new value exactly when its layer is at or above every recorded layer, and the earlier read otherwise. Reads of other attributes are unaffected. |
| AttributeStores.HigherLayerWins | src/FluentNHibernate/MappingModel/AttributeStore.cs:26-34 | A value written at a lower layer after one at a higher layer is invisible to reads. |
| AttributeStores.SameLayerReplaces | src/FluentNHibernate/MappingModel/AttributeStore.cs:31-34 | Two writes to the same slot leave the store as the second write alone would. |
| AttributeStores.HasValueIsSpecifiedWithRead | src/FluentNHibernate/MappingModel/AttributeStore.cs:36-44 | HasValue implies IsSpecified, and HasValue holds exactly when a read returns a value. |
| AttributeStores.CopyIntoEmpty | src/FluentNHibernate/MappingModel/AttributeStore.cs:51-58 | Copying into an empty store reproduces the source exactly. |
| AttributeStores.AttributeStore.constructor | src/FluentNHibernate/MappingModel/AttributeStore.cs:14-17 | A new store holds no attributes. |
| AttributeStores.AttributeStore.Set | src/FluentNHibernate/MappingModel/AttributeStore.cs:31-34 | The store becomes the old one with the slot written. Get returns the new value iff its layer is topmost, and Get of every other attribute is unchanged. |
| AttributeStores.AttributeStore.CopyTo | src/FluentNHibernate/MappingModel/AttributeStore.cs:46-49 | The target's contents become this store's slots copied over the target's. |
| AttributeStores.AttributeStore.Clone | src/FluentNHibernate/MappingModel/AttributeStore.cs:51-58 | The clone is a fresh store with equal contents, so Get and HasValue agree on every attribute. |
| AttributeStores.TypedRead | src/FluentNHibernate/MappingModel/AttributeStore.cs:98-106 | A typed read returns the stored value, or the type's default when the store has none. |
| AttributeStores.SameMemberSharesSlot | src/FluentNHibernate/MappingModel/AttributeStore.cs:150-154 | Two selectors naming the same member read and write one slot, whatever their declaring type. |
| AttributeStores.TypedAttributeStore.constructor | src/FluentNHibernate/MappingModel/AttributeStore.cs:87-91 | The parameterless typed view wraps a fresh, empty store. |
| AttributeStores.TypedAttributeStore.Wrap | src/FluentNHibernate/MappingModel/AttributeStore.cs:93-96 | The store-taking typed view wraps the given store itself, not a copy. |
| AttributeStores.TypedAttributeStore.Set | src/FluentNHibernate/MappingModel/AttributeStore.cs:108-111 | A typed write is an untyped write under the member's name. |
| AttributeStores.TypedAttributeStore.Clone | src/FluentNHibernate/MappingModel/AttributeStore.cs:156-163 | The clone is a fresh typed view over a fresh store with equal contents. |
| AttributeStores.TypedAttributeStore.CloneInner | src/FluentNHibernate/MappingModel/AttributeStore.cs:165-172 | The clone is a fresh untyped store with the wrapped store's contents. |
| SeparateSubclass.Lowest | src/FluentNHibernate/Visitors/SeparateSubclassVisitor.cs:59 | The lowest distance is one of the distances found and is no greater than any of them. |
| SeparateSubclass.SortByDistanceFrom | src/FluentNHibernate/Visitors/SeparateSubclassVisitor.cs:94-116 | The pass throws exactly when the walk of some candidate throws. Otherwise the dictionary's keys are exactly the distances of the qualifying candidates, and each key maps to the candidates at that distance, in pool order. |
| SeparateSubclass.ThrowsExtends | src/FluentNHibernate/Visitors/SeparateSubclassVisitor.cs:98-107 | Once the candidates seen so far include one whose walk throws, every longer run of the pass throws. |
| SeparateSubclass.ThrowsAt | src/FluentNHibernate/Visitors/SeparateSubclassVisitor.cs:98-107 | A candidate whose walk throws makes the whole pass throw. |
| SeparateSubclass.NoThrowStep | src/FluentNHibernate/Visitors/SeparateSubclassVisitor.cs:98-107 | The candidates seen so far do not throw after one more candidate whose walk does not throw. |
| SeparateSubclass.ScoreStep | src/FluentNHibernate/Visitors/SeparateSubclassVisitor.cs:98-113 | Filing one more candidate whose walk does not throw keeps the dictionary equal to the distances and candidates of the pool seen so far, and the pool seen so far still does not throw. |
| SeparateSubclass.LevelsInAppend | src/FluentNHibernate/Visitors/SeparateSubclassVisitor.cs:98-112 | Scoring one more candidate adds its distance, if it qualifies, to the distances found. |
| SeparateSubclass.AtLevelAppend | src/FluentNHibernate/Visitors/SeparateSubclassVisitor.cs:109-112 | One more candidate joins the end of its own distance's list only. |
| SeparateSubclass.ArrangedStep | src/FluentNHibernate/Visitors/SeparateSubclassVisitor.cs:98-113 | One iteration of the scoring loop keeps the dictionary equal to the distances and lists of the candidates seen so far. |
| SeparateSubclass.FindClosestSubclasses | src/FluentNHibernate/Visitors/SeparateSubclassVisitor.cs:48-62 | The search throws exactly when scoring the candidates throws. Otherwise the result is the candidates at the lowest distance followed by the Extends group. It is only the Extends group when no candidate qualifies, and empty when there is neither. |
| SeparateSubclass.ClosestInRange | src/FluentNHibernate/Visitors/SeparateSubclassVisitor.cs:48-62 | Every subclass the search returns comes from the bucket's subclass list. |
| SeparateSubclass.ClosestMembers | src/FluentNHibernate/Visitors/SeparateSubclassVisitor.cs:50-61 | For the list the search returns when it does not throw: a subclass is in it iff its Extends names the parent, or it is a structural candidate at the lowest distance. A structural pick always has a distance, so a subclass related neither way is attached nowhere. |
| SeparateSubclass.ClosestIsMinimal | src/FluentNHibernate/Visitors/SeparateSubclassVisitor.cs:59-61 | A structural pick is at least as close as every other qualifying candidate. |
| SeparateSubclass.CandidateInPool | src/FluentNHibernate/Visitors/SeparateSubclassVisitor.cs:50-52 | Every subclass without an Extends marker naming the parent is scored. The Extends group and the scored pool are disjoint. |
| SeparateSubclass.BaseLevelQualifies | src/FluentNHibernate/Visitors/SeparateSubclassVisitor.cs:150-167 | The base-type walk qualifies exactly when following BaseType from the starting type reaches the parent. It throws exactly when it reaches neither the parent nor object, because it meets an interface, whose BaseType is null. |
| SeparateSubclass.DistanceQualifies | src/FluentNHibernate/Visitors/SeparateSubclassVisitor.cs:103-107 | Under an interface parent the walk never throws, and a subclass qualifies iff its type implements the interface. Under a class parent, a subclass qualifies iff the BaseType chain from its base type reaches the parent. The walk throws iff the type has no base type (an interface or object), or its chain meets an interface before the parent or object. |
| SeparateSubclass.InterfaceOrObjectSubclassThrows | src/FluentNHibernate/Visitors/SeparateSubclassVisitor.cs:103-105 | Under a class parent, a subclass typed object or an interface throws a NullReferenceException: its BaseType is null, and the walk reads BaseType of it at line 163. |
| SeparateSubclass.InterfaceOrObjectSubclassThrowsSearch | src/FluentNHibernate/Visitors/SeparateSubclassVisitor.cs:50-52 | Such a subclass without an Extends marker naming a class parent makes the search for that parent throw, whatever else the bucket holds. |
| SeparateSubclass.DirectSubtypeIsLevelZero | src/FluentNHibernate/Visitors/SeparateSubclassVisitor.cs:150-167 | A class whose base type is a class parent is at distance 0. |
| SeparateSubclass.MappedBaseAddsLevel | src/FluentNHibernate/Visitors/SeparateSubclassVisitor.cs:126-163 | When a subclass's BaseType is non-null and mapped in the pool, and both qualify, the subclass is exactly one level further than its base. This holds under both rules. An interface-typed subclass has a null BaseType and is excluded. |
| SeparateSubclass.AncestorIsBelow | src/FluentNHibernate/Visitors/SeparateSubclassVisitor.cs:163 | Every type the BaseType chain reaches is numbered no higher than where the walk starts, which is the walk's termination measure. |
| SeparateSubclass.NearerCandidateWins | src/FluentNHibernate/Visitors/SeparateSubclassVisitor.cs:52-61 | A subclass whose BaseType is itself a qualifying candidate is not attached directly to the parent. |
| SeparateSubclass.Stamp | src/FluentNHibernate/Visitors/SeparateSubclassVisitor.cs:39-46 | Recursive stamping keeps one kind per subclass. |
| SeparateSubclass.StampSetsReached | src/FluentNHibernate/Visitors/SeparateSubclassVisitor.cs:39-46 | Stamping sets every subclass reached through the children to the kind, and leaves all others alone. |
| SeparateSubclass.StampClasses | src/FluentNHibernate/Visitors/SeparateSubclassVisitor.cs:31-36 | Stamping class by class keeps one kind per subclass. |
| SeparateSubclass.LastReacher | src/FluentNHibernate/Visitors/SeparateSubclassVisitor.cs:31-36 | The result is the last class, in bucket order, whose tree reaches the subclass, or none. |
| SeparateSubclass.LastStamperWins | src/FluentNHibernate/Visitors/SeparateSubclassVisitor.cs:31-46 | A subclass ends with the kind of the last class whose tree reaches it. A subclass no class reaches keeps its kind. |
| SeparateSubclass.RankedReachIsClosed | src/FluentNHibernate/Visitors/SeparateSubclassVisitor.cs:39-46 | When every child has a lower rank than its parent and the fuel covers the starting ranks, every child of a reached subclass is reached too. |
| SeparateSubclass.ReachedWithinClosed | src/FluentNHibernate/Visitors/SeparateSubclassVisitor.cs:39-46 | Whatever the fuel, stamping reaches only descendants of the list it starts from. |
| SeparateSubclass.StampFuelReachesEveryDescendant | src/FluentNHibernate/Visitors/SeparateSubclassVisitor.cs:39-46 | Without a cycle among the subclasses, fuel of one level per subclass reaches exactly the least child-closed set holding the list, which is every descendant the unbounded recursion reaches. |
| SeparateSubclass.RootKinds | src/FluentNHibernate/Visitors/SeparateSubclassVisitor.cs:64-75 | Each class's kind is UnionSubclass when IsUnionSubclass is set, else JoinedSubclass without a Discriminator, else Subclass. |
| SeparateSubclass.SetSubclassType | src/FluentNHibernate/Visitors/SeparateSubclassVisitor.cs:39-46 | The kinds array becomes the recursive stamp of the old kinds. |
| SeparateSubclass.PairOne | src/FluentNHibernate/Visitors/SeparateSubclassVisitor.cs:17-20 | One parent's search: it reports success exactly when the search does not throw; on success the parent's children gain its closest subclasses at the end, on failure they are unchanged; no other parent's children change and every child is a bucket subclass. |
| SeparateSubclass.PairAll | src/FluentNHibernate/Visitors/SeparateSubclassVisitor.cs:15-29 | Parents are paired in order until a search throws. Each parent paired gets its old children followed by its closest subclasses. The parent at the stopping point is one whose search throws, the parents after it keep their children, and every child is a bucket subclass. |
| SeparateSubclass.StampAll | src/FluentNHibernate/Visitors/SeparateSubclassVisitor.cs:31-36 | The kinds become those stamped by every class in bucket order. |
| SeparateSubclass.ClassTypes | src/FluentNHibernate/Visitors/SeparateSubclassVisitor.cs:15-17 | The types of the bucket's classes, position by position. |
| SeparateSubclass.SubclassTypes | src/FluentNHibernate/Visitors/SeparateSubclassVisitor.cs:23-25 | The types of the bucket's subclasses, position by position. |
| SeparateSubclass.Visit | src/FluentNHibernate/Visitors/SeparateSubclassVisitor.cs:11-37 | The visit succeeds iff no search for a class or subclass type throws. Each class, then each subclass, gets its closest subclasses, searched over the whole subclass list, appended to its children. Then each class's kind is stamped through its tree. After a throw, a parent has either its old children or the extended ones, and no kind is stamped. |
| SeparateSubclass.ScenarioGraph | src/FluentNHibernate.Specs/PersistenceModel/PersistenceModelSpecs.SubclassVisitor.cs:41-50 | The scenario's hierarchy is a well-formed type graph. |
| SeparateSubclass.ScenarioPool | src/FluentNHibernate.Specs/PersistenceModel/PersistenceModelSpecs.SubclassVisitor.cs:41-50 | In the scenario, all three subclasses are scored, none has an Extends marker, and their types are the mapped set. |
| SeparateSubclass.ScenarioMapped | src/FluentNHibernate.Specs/PersistenceModel/PersistenceModelSpecs.SubclassVisitor.cs:41-50 | The scenario's mapped types are Foo<string>, StandAlone and BaseImpl. |
| SeparateSubclass.LevelsOfThree | src/FluentNHibernate/Visitors/SeparateSubclassVisitor.cs:98-113 | For a pool of three, the distances found are the three candidates' distances, where they have one. |
| SeparateSubclass.FiledOfThree | src/FluentNHibernate/Visitors/SeparateSubclassVisitor.cs:109-112 | For a pool of three, the list at a distance holds the candidates at that distance, in order. |
| SeparateSubclass.InterfaceScenarioLevels | src/FluentNHibernate.Specs/PersistenceModel/PersistenceModelSpecs.SubclassVisitor.cs:56-70 | Under IFoo, BaseImpl is at distance 0 and Foo<string> at 1, and StandAlone does not qualify. |
| SeparateSubclass.AbstractBaseScenarioLevels | src/FluentNHibernate.Specs/PersistenceModel/PersistenceModelSpecs.SubclassVisitor.cs:41-73 | With the subclass BaseImpl as the parent (the visitor's subclass loop), Foo<string> is at distance 0. Neither StandAlone nor BaseImpl itself qualifies. |
| SeparateSubclass.ClosestFrom | src/FluentNHibernate/Visitors/SeparateSubclassVisitor.cs:59-61 | With no Extends group, the search returns the pool's candidates at the lowest distance. |
| SeparateSubclass.InterfaceWithAbstractBaseScenario | src/FluentNHibernate.Specs/PersistenceModel/PersistenceModelSpecs.SubclassVisitor.cs:41-73 | Under the interface IFoo the search does not throw, and only BaseImpl attaches. Foo<string> is one mapped level further and StandAlone does not implement IFoo. |
| SeparateSubclass.InterfaceScenarioFiling | src/FluentNHibernate.Specs/PersistenceModel/PersistenceModelSpecs.SubclassVisitor.cs:41-73 | Under IFoo, the pool fills distances 0 and 1, and distance 0 holds BaseImpl alone. |
| SeparateSubclass.AbstractBaseScenario | src/FluentNHibernate.Specs/PersistenceModel/PersistenceModelSpecs.SubclassVisitor.cs:41-73 | With the subclass BaseImpl as the parent the search does not throw, Foo<string> attaches under it and StandAlone does not. Together with the IFoo result, Foo<string> ends up one level below BaseImpl. |
| SeparateSubclass.AbstractBaseScenarioFiling | src/FluentNHibernate.Specs/PersistenceModel/PersistenceModelSpecs.SubclassVisitor.cs:41-73 | Under BaseImpl, the pool fills distance 0 only, with Foo<string>. |
| SeparateSubclass.NoScenarioThrows | src/FluentNHibernate.Specs/PersistenceModel/PersistenceModelSpecs.SubclassVisitor.cs:41-73 | Under IFoo and under BaseImpl no walk of the scenario throws. |
| SeparateSubclass.NoScenarioThrowAt | src/FluentNHibernate.Specs/PersistenceModel/PersistenceModelSpecs.SubclassVisitor.cs:41-73 | The walk of each of the scenario's three subclasses, under IFoo or under BaseImpl, does not throw. |
| ComponentResolution.Providers | src/FluentNHibernate/Visitors/ComponentReferenceResolutionVisitor.cs:20 | The candidates are exactly the pool positions whose component has the reference's type, in pool order. |
| ComponentResolution.ResolveMissing | src/FluentNHibernate/Visitors/ComponentReferenceResolutionVisitor.cs:22-23 | With no component of the reference's type, resolution fails as missing, carrying the type, the containing entity and the member. |
| ComponentResolution.ResolveAmbiguous | src/FluentNHibernate/Visitors/ComponentReferenceResolutionVisitor.cs:24-25 | With two components of the reference's type, resolution fails as ambiguous, with the same context. |
| ComponentResolution.ResolveUnique | src/FluentNHibernate/Visitors/ComponentReferenceResolutionVisitor.cs:27-29 | With exactly one component of the type, the reference is associated with it, and then that component's own references are resolved against the same pool. |
| ComponentResolution.ResolveErrorsAreGenuine | src/FluentNHibernate/Visitors/ComponentReferenceResolutionVisitor.cs:20-25 | However deep the failing reference sits, a missing failure names a type with no component in the pool, and an ambiguous one names a type with at least two. |
| ComponentResolution.ResolveAllErrorsAreGenuine | src/FluentNHibernate/Visitors/ComponentReferenceResolutionVisitor.cs:20-29 | The same holds for a whole sequence of references. |
| ComponentResolution.EmptyPoolIsMissing | src/FluentNHibernate/Visitors/ComponentReferenceResolutionVisitor.cs:9-23 | Before any bucket is visited the pool is empty, so every reference fails as missing. |
| ComponentResolution.SoundAppend | src/FluentNHibernate/Visitors/ComponentReferenceResolutionVisitor.cs:27 | Joining two lists of sound associations keeps them sound. |
| ComponentResolution.ResolveIsSound | src/FluentNHibernate/Visitors/ComponentReferenceResolutionVisitor.cs:20-29 | Every association made pairs a reference with the unique component of its type, and the first association is the reference itself. |
| ComponentResolution.ResolveAllIsSound | src/FluentNHibernate/Visitors/ComponentReferenceResolutionVisitor.cs:20-29 | Every association made while visiting a sequence of references is sound. |
| ComponentResolution.ResolveAllSucceedsIffEach | src/FluentNHibernate/Visitors/ComponentReferenceResolutionVisitor.cs:29 | Visiting a sequence of references succeeds exactly when each of them resolves. |
| ComponentResolution.ComponentReferenceResolutionVisitor.constructor | src/FluentNHibernate/Visitors/ComponentReferenceResolutionVisitor.cs:9 | A new visitor's pool is empty. |
| ComponentResolution.ComponentReferenceResolutionVisitor.Visit | src/FluentNHibernate/Visitors/ComponentReferenceResolutionVisitor.cs:11-16 | Visiting a bucket captures its external components as the pool, then resolves the bucket's references in order. |
| ComponentResolution.ComponentReferenceResolutionVisitor.VisitAll | src/FluentNHibernate/Visitors/ComponentReferenceResolutionVisitor.cs:29 | Visiting references one by one, stopping at the first failure, yields exactly the resolution of the whole sequence. |
| ComponentResolution.ComponentReferenceResolutionVisitor.ProcessComponent | src/FluentNHibernate/Visitors/ComponentReferenceResolutionVisitor.cs:18-30 | Processing one reference yields exactly its resolution: missing, ambiguous, or the association followed by the merged model's resolutions. |
| Buckets.PickedAppend | src/FluentNHibernate/MappingModel/MappingBucket.cs:17-21 | Selecting one kind from a sequence with one more mapping adds that mapping's payload exactly when it is of that kind. |
| Buckets.PickedMembers | src/FluentNHibernate/MappingModel/MappingBucket.cs:17-21 | A payload is selected exactly when a mapping carrying it was filed. |
| Buckets.FileAllSorts | src/FluentNHibernate/MappingModel/MappingBucket.cs:10-21 | Filing a sequence of mappings extends each list with exactly the mappings of its kind, in the order they were filed. The lists are independent. |
| Buckets.FiledPicks | src/FluentNHibernate/MappingModel/MappingBucket.cs:17-21 | One mapping joins the end of the list its kind selects, and the other four lists are unchanged. |
| Buckets.FiledClassesAreExactlyTheClassMappings | src/FluentNHibernate/MappingModel/MappingBucket.cs:18 | A class is in the classes list of a bucket filled from empty exactly when its mapping was filed. |
| Buckets.MappingBucket.constructor | src/FluentNHibernate/MappingModel/MappingBucket.cs:8-15 | A new bucket has five empty lists. |
| Buckets.MappingBucket.SetContents | src/FluentNHibernate/Infrastructure/MappingCompiler.cs:30-31 | A visitor's in-place edits replace the bucket's contents. |
| Buckets.AddTo | src/FluentNHibernate/MappingModel/ClassBased/ExternalComponentMapping.cs:21-24 | A mapping appends itself to the list of its own kind (an external component to Components) and to no other list. |
| Documents.VisitBucket | src/FluentNHibernate/Infrastructure/MappingCompiler.cs:30-31 | With no visitors, the bucket is unchanged. |
| Documents.VisitDocument | src/FluentNHibernate/Infrastructure/MappingCompiler.cs:35-36 | With no visitors, the document is unchanged. |
| Documents.VisitBucketStep | src/FluentNHibernate/Infrastructure/MappingCompiler.cs:30-31 | The visitors run over the bucket in list order: the first k+1 visitors are the first k followed by the k-th. |
| Documents.VisitDocumentStep | src/FluentNHibernate/Infrastructure/MappingCompiler.cs:35-36 | The visitors run over the document in list order, the same way. |
| Documents.VisitBucketStopsAtFailure | src/FluentNHibernate/Infrastructure/MappingCompiler.cs:25-46 | Once a visitor fails, no later visitor runs, and the failure is the result of the whole pass. |
| MappingActions.NewClassMapping | src/FluentNHibernate/Infrastructure/MappingActions.cs:24 | A class mapping created for a type has that type and nothing else set. |
| MappingActions.PartialFor | src/FluentNHibernate/Infrastructure/MappingActions.cs:23-25 | A partial automap action built from a type wraps a new class mapping of that type. |
| MappingActions.CreateTarget | src/FluentNHibernate/Infrastructure/MappingActions.cs:33-38 | The target's type is the wrapped mapping's type, the target carries that very mapping, and its instructions wrap the main instructions. |
| MappingActions.GetMapping | src/FluentNHibernate/Infrastructure/MappingActions.cs:50-53 | A manual action returns the mapping it was built with. |
| MappingActions.ComposeFrom | src/FluentNHibernate/Infrastructure/MappingActions.cs:70-76 | Composing fails exactly when some element is not a partial automap action. Otherwise it wraps all the partials in their order. |
| MappingActions.GetMappingTargets | src/FluentNHibernate/Infrastructure/MappingActions.cs:78-81 | There is exactly one target per partial action, in order, each created from that partial. |
| MappingActions.ComposedTargetsFollowPartials | src/FluentNHibernate/Infrastructure/MappingActions.cs:70-81 | Composing partials and asking for targets gives, at each position, the type of the partial at that position. |
| MappingActions.ManualActionTextIsUnambiguous | src/FluentNHibernate/Infrastructure/MappingActions.cs:55-58 | Equal manual-action descriptions come from mappings of the same kind with the same type name. The description is how an action identifies itself in diagnostics, and this shows it names the action's mapping unambiguously. |
| Compilation.CompileAction | src/FluentNHibernate/Infrastructure/ActionCompiler.cs:24-45 | A manual action compiles to exactly its own mapping. An automap action compiles to what the automapper makes of one target per partial action, built from the automapping instructions, and fails when the instructions are null. Any other kind, a bare partial included, is unrecognised. |
| Compilation.CompileAllSucceedsIffEach | src/FluentNHibernate/Infrastructure/MappingCompiler.cs:50 | Compiling a list of actions succeeds exactly when every action compiles. |
| Compilation.ManualActionsCompileToTheirMappings | src/FluentNHibernate/Infrastructure/MappingCompiler.cs:50 | A list of manual actions compiles to their mappings, in order. |
| Compilation.Assemble | src/FluentNHibernate/Infrastructure/MappingCompiler.cs:38-43 | The document receives the bucket's classes, filters and imports, in bucket order, after what it held. Nothing else changes. |
| Compilation.ManualBuildCopiesClassesFiltersImports | src/FluentNHibernate/Infrastructure/MappingCompiler.cs:25-56 | With no visitors, a list of manual actions builds a document holding exactly their class, filter and import mappings, in action order. Subclass and component mappings are never copied directly. |
| Compilation.FailingActionAbortsBuild | src/FluentNHibernate/Infrastructure/MappingCompiler.cs:25-56 | An action that fails after successful ones aborts the build with that failure, and no document is produced. |
| Compilation.FirstFailureWins | src/FluentNHibernate/Infrastructure/MappingCompiler.cs:50 | The first failing action's failure is the failure of the whole list. |
| Compilation.NullInstructionsFailAutomap | src/FluentNHibernate/Infrastructure/MappingCompiler.cs:19-23 | As the constructor is written, the action compiler holds null instructions, so every automap action fails. |
| Compilation.AutomapCompilesToAutomapper | src/FluentNHibernate/Infrastructure/ActionCompiler.cs:34-40 | With its instructions in place, an automap action compiles to the automapper's output on exactly one target per partial action, each built from that partial. |
| Compilation.CompileActions | src/FluentNHibernate/Infrastructure/MappingCompiler.cs:48-56 | Compiling fails exactly when some action fails, with the first failure. Otherwise the result is a fresh bucket holding every compiled mapping filed in order. |
| Compilation.FirstFailureAt | src/FluentNHibernate/Infrastructure/MappingCompiler.cs:50 | A failure at position i after a successful prefix is the failure of the whole list. |
| Compilation.VisitBucketInOrder | src/FluentNHibernate/Infrastructure/MappingCompiler.cs:30-31 | The visitors run over the bucket in list order, each on what the previous one left, and the bucket holds the final contents. |
| Compilation.VisitDocumentInOrder | src/FluentNHibernate/Infrastructure/MappingCompiler.cs:33-36 | The visitors run over the new document in list order. |
| Compilation.VisitDocumentStopsAtFailure | src/FluentNHibernate/Infrastructure/MappingCompiler.cs:35-36 | Once a visitor fails on the document, no later visitor runs. |
| Compilation.CopyInto | src/FluentNHibernate/Infrastructure/MappingCompiler.cs:38-43 | Copying appends the bucket's classes, then its filters, then its imports to the document. |
| Compilation.RunPipeline | src/FluentNHibernate/Infrastructure/MappingCompiler.cs:25-46 | The pipeline runs in a fixed order: compile and file the actions, visit the bucket, visit a new document, copy. Any failure aborts it with no document. |
| Compilation.MappingCompiler.AsWritten | src/FluentNHibernate/Infrastructure/MappingCompiler.cs:19-23 | The constructor as written keeps the instructions but hands the action compiler a null reference. |
| Compilation.MappingCompiler.constructor | src/FluentNHibernate/Infrastructure/MappingCompiler.cs:19-23 | The constructor as intended hands the action compiler the same instructions. |
| Compilation.MappingCompiler.Compile | src/FluentNHibernate/Infrastructure/MappingCompiler.cs:25-46 | Compile is the pipeline over the instructions' actions and visitors. |
| Compilation.PersistenceMappingCompiler.constructor | src/FluentNHibernate/PersistenceModel.cs:30-34 | The compiler keeps the automapper and the instructions it is given. |
| Compilation.PersistenceMappingCompiler.BuildMappings | src/FluentNHibernate/PersistenceModel.cs:36-90 | BuildMappings is the same pipeline, dispatching manual actions to ManualMap and automap actions to AutoMap over its own instructions. |
| Compilation.PersistenceModel.constructor | src/FluentNHibernate/PersistenceModel.cs:97 | A new persistence model owns a fresh gatherer with no providers and no sources. |
| Compilation.PersistenceModel.Add | src/FluentNHibernate/PersistenceModel.cs:296-299 | A provider is registered with the gatherer after those already registered, and no other field of the gatherer changes. |
| Compilation.PersistenceModel.AddMappingsFromSource | src/FluentNHibernate/PersistenceModel.cs:301-306 | A source is registered after those already registered, and no other field of the gatherer changes. |
| Compilation.PersistenceModel.AddMappings | src/FluentNHibernate/PersistenceModel.cs:308-311 | The providers are registered in argument order, and no other field of the gatherer changes. |
| Compilation.PersistenceModel.Import | src/FluentNHibernate/PersistenceModel.cs:110-117 | An ImportPart for the type is registered as a provider instance and that same part is returned; no other field of the gatherer changes. |
| TypeSources.NameLeTotal | src/FluentNHibernate/CollectionTypeSource.cs:29 | Any two names are ordered one way or the other under the ordinal order. |
| TypeSources.NameLeAntisymmetric | src/FluentNHibernate/CollectionTypeSource.cs:29 | Names ordered both ways are equal. |
| TypeSources.NameLeTransitive | src/FluentNHibernate/CollectionTypeSource.cs:29 | The ordinal order on names is transitive. |
| TypeSources.Insert | src/FluentNHibernate/CollectionTypeSource.cs:29 | Inserting a name into a sorted list gives a sorted list with exactly one more copy of that name. |
| TypeSources.SortedBefore | src/FluentNHibernate/CollectionTypeSource.cs:29 | A name no greater than the head of a sorted list may precede it. |
| TypeSources.SortedAfterHead | src/FluentNHibernate/CollectionTypeSource.cs:29 | The head of a sorted list may precede the rest with a later name inserted. |
| TypeSources.SortNames | src/FluentNHibernate/CollectionTypeSource.cs:29 | Ordering by name yields a sorted permutation of the names. |
| TypeSources.SortedHeadIsLeast | src/FluentNHibernate/CollectionTypeSource.cs:29 | The first name of a sorted list precedes every name in it. |
| TypeSources.SortedIsUnique | src/FluentNHibernate/CollectionTypeSource.cs:29 | Two sorted lists with the same names are equal, so the order is fixed by the names alone. |
| TypeSources.GetTypes | src/FluentNHibernate/CollectionTypeSource.cs:12-20 | The source returns the types it was built with, in their original order. |
| TypeSources.Names | src/FluentNHibernate/CollectionTypeSource.cs:29 | There is one name per type. |
| TypeSources.GetIdentifier | src/FluentNHibernate/CollectionTypeSource.cs:27-32 | The identifier starts with "Collection[" and ends with "]". |
| TypeSources.NamesOfPermutation | src/FluentNHibernate/CollectionTypeSource.cs:29 | Rearranging the types rearranges their names. |
| TypeSources.IdentifierIgnoresOrder | src/FluentNHibernate/CollectionTypeSource.cs:27-32 | Two sources over the same types, in any order, have the same identifier, because the names are sorted before joining. |
| TypeSources.DiagnosticLogger.constructor | src/FluentNHibernate/CollectionTypeSource.cs:22-25 | A new logger has been told of no sources. |
| TypeSources.DiagnosticLogger.LoadedFluentMappingsFromSource | src/FluentNHibernate/CollectionTypeSource.cs:24 | The logger records one more loaded source. |
| TypeSources.LogSource | src/FluentNHibernate/CollectionTypeSource.cs:22-25 | The source reports itself to the logger exactly once. |
| Configurations.ConfigurationOf | src/FluentNHibernate/Infrastructure/PersistenceInstructionGatherer.cs:270-301 | The configuration is null exactly for the null instructions. |
| Configurations.TypesToMap | src/FluentNHibernate/Infrastructure/PersistenceInstructionGatherer.cs:287-316 | The null instructions map no type. Otherwise a type is mapped exactly when some source holds it and the configuration maps it. |
| Configurations.UseConfigurationOn | src/FluentNHibernate/Infrastructure/PersistenceInstructionGatherer.cs:277-306 | Setting a configuration fails exactly on the null instructions. Otherwise the configuration is replaced and the sources are kept. |
| Configurations.AddSourceOn | src/FluentNHibernate/Infrastructure/PersistenceInstructionGatherer.cs:282-311 | Adding a source fails exactly on the null instructions. Otherwise the source is appended and the configuration is kept. |
| Configurations.AddSourceExtendsTypesToMap | src/FluentNHibernate/Infrastructure/PersistenceInstructionGatherer.cs:282-293 | Adding a source appends exactly that source's mapped types, in source order, after the ones already there. |
| Configurations.UseConfigurationLastWins | src/FluentNHibernate/Infrastructure/PersistenceInstructionGatherer.cs:277-280 | Setting a configuration twice keeps only the second. |
| Configurations.NullInstructionsAreInert | src/FluentNHibernate/Infrastructure/PersistenceInstructionGatherer.cs:296-317 | The null instructions map nothing, have no configuration, and refuse both UseConfiguration and AddSource. |
| Configurations.GetConfiguration | src/FluentNHibernate/Infrastructure/PersistenceInstructionGatherer.cs:233-241 | The entity configuration is wrapped exactly when the setup has exclusions. |
| Configurations.EntityMembersMapped | src/FluentNHibernate/Infrastructure/PersistenceInstructionGatherer.cs:233-257 | A member is mapped iff the configuration in force (the setup's, else the main one, else the default) maps it and no exclusion matches it. |
| Configurations.EmptySetupDefersToMain | src/FluentNHibernate/Infrastructure/PersistenceInstructionGatherer.cs:233-238 | An entity with an empty setup maps exactly what the main configuration maps. |
| Configurations.AutomappingInstructions.constructor | src/FluentNHibernate/Infrastructure/PersistenceInstructionGatherer.cs:269-275 | New instructions have no sources and use the default configuration, so they map no type. |
| Configurations.AutomappingInstructions.UseConfiguration | src/FluentNHibernate/Infrastructure/PersistenceInstructionGatherer.cs:277-280 | The configuration is replaced and the sources are kept. |
| Configurations.AutomappingInstructions.AddSource | src/FluentNHibernate/Infrastructure/PersistenceInstructionGatherer.cs:282-285 | The source is appended, and the types to map grow by exactly that source's mapped types. |
| InstructionGathering.GetAction | src/FluentNHibernate/Infrastructure/PersistenceInstructionGatherer.cs:133 | A pass-through provider yields a manual action around the very mapping it wraps, and an ImportPart a manual action around an import of its type. Any other provider yields its own action. |
| InstructionGathering.ActionsOf | src/FluentNHibernate/Infrastructure/PersistenceInstructionGatherer.cs:133 | The actions of the registered providers, one per provider, in registration order. |
| InstructionGathering.ActionsOfTypes | src/FluentNHibernate/Infrastructure/PersistenceInstructionGatherer.cs:134-173 | The actions of the scanned provider types, one per type, in scan order. |
| InstructionGathering.PartialsFor | src/FluentNHibernate/Infrastructure/PersistenceInstructionGatherer.cs:149 | One partial automap action with an empty setup per type to automap, in order. |
| InstructionGathering.AppendInstanceActions | src/FluentNHibernate/Infrastructure/PersistenceInstructionGatherer.cs:139-140 | The loop yields each registered instance's action, in order, after those before it. |
| InstructionGathering.AppendTypeActions | src/FluentNHibernate/Infrastructure/PersistenceInstructionGatherer.cs:143-144 | The loop yields each scanned provider's action, in order. |
| InstructionGathering.AppendPartials | src/FluentNHibernate/Infrastructure/PersistenceInstructionGatherer.cs:147-153 | The loop yields a partial automap action for each type to automap, in order. |
| InstructionGathering.ActionListOrder | src/FluentNHibernate/Infrastructure/PersistenceInstructionGatherer.cs:131-154 | Position by position, the actions are every registered instance's action, then the scanned providers' actions, then one partial action per type to automap, for that type. |
| InstructionGathering.ScannedAreProviders | src/FluentNHibernate/Infrastructure/PersistenceInstructionGatherer.cs:156-174 | A type contributes a scanned action exactly when some source holds it and it implements IProvider. |
| InstructionGathering.WrapShape | src/FluentNHibernate/Infrastructure/PersistenceInstructionGatherer.cs:40-53 | The instructions are wrapped as Extended exactly when an extended model is set, and as Derived below that exactly when a base model is set. The created instructions always sit innermost. |
| InstructionGathering.PersistenceInstructionGatherer.constructor | src/FluentNHibernate/Infrastructure/PersistenceInstructionGatherer.cs:23-33 | A new gatherer has no sources, no instances and no models or hooks, and owns fresh automapping instructions with the default configuration. |
| InstructionGathering.PersistenceInstructionGatherer.AddProviderInstance | src/FluentNHibernate/Infrastructure/PersistenceInstructionGatherer.cs:65-68 | The provider joins the end of the instances, and every other field is kept. |
| InstructionGathering.PersistenceInstructionGatherer.AddSource | src/FluentNHibernate/Infrastructure/PersistenceInstructionGatherer.cs:70-73 | The source joins the end of the sources, and every other field is kept. |
| InstructionGathering.PersistenceInstructionGatherer.UseBaseModel | src/FluentNHibernate/Infrastructure/PersistenceInstructionGatherer.cs:101-104 | The base model becomes the last one supplied, and every other field is kept. |
| InstructionGathering.PersistenceInstructionGatherer.UseExtendModel | src/FluentNHibernate/Infrastructure/PersistenceInstructionGatherer.cs:106-109 | The extended model becomes the last one supplied, and every other field is kept. |
| InstructionGathering.PersistenceInstructionGatherer.UseExporter | src/FluentNHibernate/Infrastructure/PersistenceInstructionGatherer.cs:111-114 | The exporter becomes the last one supplied, and every other field is kept. |
| InstructionGathering.PersistenceInstructionGatherer.UsePreConfigure | src/FluentNHibernate/Infrastructure/PersistenceInstructionGatherer.cs:116-119 | The pre-configure action becomes the last one supplied, and every other field is kept. |
| InstructionGathering.PersistenceInstructionGatherer.UsePostConfigure | src/FluentNHibernate/Infrastructure/PersistenceInstructionGatherer.cs:121-124 | The post-configure action becomes the last one supplied, and every other field is kept. |
| InstructionGathering.PersistenceInstructionGatherer.UseDatabaseConfiguration | src/FluentNHibernate/Infrastructure/PersistenceInstructionGatherer.cs:126-129 | The database configuration becomes the last one supplied, and every other field is kept. |
| InstructionGathering.PersistenceInstructionGatherer.GetActions | src/FluentNHibernate/Infrastructure/PersistenceInstructionGatherer.cs:131-154 | The actions are exactly the instance actions, then the scanned providers' actions, then the partial automap actions, in that order. |
| InstructionGathering.PersistenceInstructionGatherer.CreateInstructions | src/FluentNHibernate/Infrastructure/PersistenceInstructionGatherer.cs:75-99 | The instructions get the actions, the conventions' visitors, and each hook that is set: database configuration, pre- and post-configure, automapping and exporter. |
| InstructionGathering.PersistenceInstructionGatherer.GetInstructions | src/FluentNHibernate/Infrastructure/PersistenceInstructionGatherer.cs:40-53 | The created instructions, holding the ordered actions, the conventions' visitors, the automapping instructions and every hook exactly as set, are wrapped by the base model and then the extended model, where set. |
| AutoPersistence.ShouldMapExactly | src/FluentNHibernate/Automapping/AutoPersistenceModel.cs:471-499 | A type is mapped exactly when it is included, or when none of the five refusals applies: ignored, generic with an ignored definition, an abstract layer supertype, a component, or object. |
| AutoPersistence.InclusionTakesPrecedence | src/FluentNHibernate/Automapping/AutoPersistenceModel.cs:473-474 | An included type is mapped even when it is also ignored, a component or object. |
| AutoPersistence.GetTypeToMap | src/FluentNHibernate/Automapping/AutoPersistenceModel.cs:456-464 | The loop climbs to exactly the type that the recursive climb settles on, and fails the same way. |
| AutoPersistence.TypeToMapClimbs | src/FluentNHibernate/Automapping/AutoPersistenceModel.cs:456-469 | The type settled on is the type itself or one of its base types, and its own parent should not be mapped. |
| AutoPersistence.TypeToMapSettles | src/FluentNHibernate/Automapping/AutoPersistenceModel.cs:456-469 | When object is not included and the chain holds no interface, the climb always settles without a null dereference. |
| AutoPersistence.IncludedObjectFailsTheClimb | src/FluentNHibernate/Automapping/AutoPersistenceModel.cs:466-474 | With object included and a class directly below it, the climb reaches object and then fails on its missing base type. |
| AutoPersistence.DepthFrom | src/FluentNHibernate/Automapping/AutoPersistenceModel.cs:432-444 | The depth counted from a parent is zero exactly for null and object. |
| AutoPersistence.InheritanceHierarchyDepth | src/FluentNHibernate/Automapping/AutoPersistenceModel.cs:432-444 | The loop returns the depth of the type's base-type chain. |
| AutoPersistence.DepthSteps | src/FluentNHibernate/Automapping/AutoPersistenceModel.cs:432-444 | Only object has depth 0; a class is one deeper than its base type, and an interface is at depth 1. |
| AutoPersistence.AncestorIsShallower | src/FluentNHibernate/Automapping/AutoPersistenceModel.cs:432-444 | A strict ancestor of a class whose chain holds no interface is shallower than the class. |
| AutoPersistence.InsertByKey | src/FluentNHibernate/Automapping/AutoPersistenceModel.cs:397 | Inserting keeps the list ordered by key, adds one element, and loses nothing. |
| AutoPersistence.OrderByKey | src/FluentNHibernate/Automapping/AutoPersistenceModel.cs:395-397 | Ordering by depth gives a list ordered by key, of the same length, with the same elements. |
| AutoPersistence.OrderByKeyIsStable | src/FluentNHibernate/Automapping/AutoPersistenceModel.cs:397 | The ordering is stable: the elements of any one depth come out in their original order. |
| AutoPersistence.InsertKeepsLevels | src/FluentNHibernate/Automapping/AutoPersistenceModel.cs:397 | Inserting an element changes the elements of one key only by that element, placed first. |
| AutoPersistence.InsertFirstKeepsLevels | src/FluentNHibernate/Automapping/AutoPersistenceModel.cs:397 | Inserting an element at the front of a list ordered by key, when no element has a smaller key, changes the elements of one key only by that element, placed first. |
| AutoPersistence.InsertAfterFirstKeepsLevels | src/FluentNHibernate/Automapping/AutoPersistenceModel.cs:397 | When the element's key exceeds the head's and the fact holds for the rest of the list, inserting it changes the elements of one key only by that element, placed first among them. |
| AutoPersistence.WhereKeepsOrder | src/FluentNHibernate/Automapping/AutoPersistenceModel.cs:399-418 | Filtering a list ordered by depth keeps it ordered. |
| AutoPersistence.WhereCommutes | src/FluentNHibernate/Automapping/AutoPersistenceModel.cs:395-418 | Two filters give the same list in either order. |
| AutoPersistence.CandidatesSelection | src/FluentNHibernate/Automapping/AutoPersistenceModel.cs:395-418 | The candidates are exactly the source types that the configuration, the Where clause and ShouldMap all accept. They come in ascending depth, and types of equal depth keep source order. |
| AutoPersistence.Fresh | src/FluentNHibernate/Automapping/AutoPersistenceModel.cs:417 | One unmapped entry per type, for that type. |
| AutoPersistence.Mark | src/FluentNHibernate/Automapping/AutoPersistenceModel.cs:451 | The automapper's marks set IsMapped on the marked entries and change nothing else. |
| AutoPersistence.MapFrom | src/FluentNHibernate/Automapping/AutoPersistenceModel.cs:422-454 | On success the entries keep their number, and at most one mapping is made per remaining entry. |
| AutoPersistence.MappedEntriesAreSkipped | src/FluentNHibernate/Automapping/AutoPersistenceModel.cs:424 | Entries already marked mapped produce no mapping and are left as they are. |
| AutoPersistence.EveryFreshEntryIsMapped | src/FluentNHibernate/Automapping/AutoPersistenceModel.cs:422-427 | When nothing is marked and every climb settles, each unmapped entry yields exactly one mapping, in entry order, for the type its climb settles on. |
| AutoPersistence.MapFromUnmarkedStep | src/FluentNHibernate/Automapping/AutoPersistenceModel.cs:422-454 | An entry whose mapping marks nothing contributes its mapping ahead of those of the later entries. |
| AutoPersistence.MapFromSkips | src/FluentNHibernate/Automapping/AutoPersistenceModel.cs:424 | An entry already mapped is passed over. |
| AutoPersistence.MapFromStops | src/FluentNHibernate/Automapping/AutoPersistenceModel.cs:456-469 | An entry whose climb fails ends the pass with that error, whatever was made before it. |
| AutoPersistence.MapFromStep | src/FluentNHibernate/Automapping/AutoPersistenceModel.cs:446-454 | Mapping an entry appends its mapping, and the later entries see the automapper's marks. |
| AutoPersistence.MapEach | src/FluentNHibernate/Automapping/AutoPersistenceModel.cs:422-427 | The loop fails exactly when the recursive pass fails, with the same error; otherwise it gives the same entries and mappings. |
| AutoPersistence.SelectEntries | src/FluentNHibernate/Automapping/AutoPersistenceModel.cs:399-418 | The loop makes one unmapped entry for each ordered type the three tests keep, in order. |
| AutoPersistence.CollectStep | src/FluentNHibernate/Automapping/AutoPersistenceModel.cs:399-418 | The next type gets an entry exactly when it is selected. |
| AutoPersistence.PassThroughs | src/FluentNHibernate/Automapping/AutoPersistenceModel.cs:453 | One pass-through provider per automapped class, around that class, in order. |
| AutoPersistence.ClassesOf | src/FluentNHibernate/Automapping/AutoPersistenceModel.cs:193-203 | On success there is one class per provider. |
| AutoPersistence.NonManualProviderFails | src/FluentNHibernate/Automapping/AutoPersistenceModel.cs:197-200 | A provider that yields anything but a manual action makes filling the bucket fail. |
| AutoPersistence.ClassesOfStopsAtFailure | src/FluentNHibernate/Automapping/AutoPersistenceModel.cs:195-201 | Filling stops at the first failing provider, with "Unable to process classMap" or the failed cast to ClassMapping. |
| AutoPersistence.PassThroughClassesRoundTrip | src/FluentNHibernate/Automapping/AutoPersistenceModel.cs:193-203 | The classes the automapper made come back out of the bucket unchanged and in order. |
| AutoPersistence.ClassesOfPassThrough | src/FluentNHibernate/Automapping/AutoPersistenceModel.cs:195-201 | A pass-through provider around a class adds that class after those before it. |
| AutoPersistence.DocumentsHoldTheClasses | src/FluentNHibernate/Automapping/AutoPersistenceModel.cs:169-188 | Merged or not, the documents hold every class once, in bucket order. Unmerged, there is one document per class holding only that class; merged, there is a single document; none has filters or imports. |
| AutoPersistence.BuildKeepsProviderClasses | src/FluentNHibernate/Automapping/AutoPersistenceModel.cs:158-188 | With no visitors, building succeeds and the documents hold exactly the providers' classes. |
| AutoPersistence.RegisteredExactly | src/FluentNHibernate/Automapping/AutoPersistenceModel.cs:138-151 | Adding types succeeds exactly when every instance is a provider or a filter definition; then exactly those providers and filters are added. |
| AutoPersistence.RegisteredStopsAtFailure | src/FluentNHibernate/Automapping/AutoPersistenceModel.cs:150 | The first refused type fails the whole list with "Unsupported mapping type" and that type's full name. |
| AutoPersistence.FirstRefusal | src/FluentNHibernate/Automapping/AutoPersistenceModel.cs:138-151 | A refused type after a run of types that all register is the first refusal in the list. |
| AutoPersistence.AutoPersistenceModel.constructor | src/FluentNHibernate/Automapping/AutoPersistenceModel.cs:40-69 | A new model has empty lists and no compiled mappings, and its eight visitors are created in the fixed order. |
| AutoPersistence.AutoPersistenceModel.AddProvider | src/FluentNHibernate/Automapping/AutoPersistenceModel.cs:118-121 | The provider joins the end of the class providers, and nothing else changes. |
| AutoPersistence.AutoPersistenceModel.AddFilter | src/FluentNHibernate/Automapping/AutoPersistenceModel.cs:128-131 | The definition joins the end of the filter definitions, and nothing else changes. |
| AutoPersistence.AutoPersistenceModel.AddSubclassProvider | src/FluentNHibernate/Automapping/AutoPersistenceModel.cs:123-126 | The provider joins the end of the subclass providers, and nothing else changes. |
| AutoPersistence.AutoPersistenceModel.AddComponentProvider | src/FluentNHibernate/Automapping/AutoPersistenceModel.cs:133-136 | The provider joins the end of the component providers, and nothing else changes. |
| AutoPersistence.AutoPersistenceModel.AddType | src/FluentNHibernate/Automapping/AutoPersistenceModel.cs:138-151 | A provider instance is added as a provider, a filter as a filter; any other fails with "Unsupported mapping type" and the type's full name. No other field changes. |
| AutoPersistence.AutoPersistenceModel.AddMappingsFromSource | src/FluentNHibernate/Automapping/AutoPersistenceModel.cs:87-156 | Every non-generic mapping type of the source is added in order. The outcome is exactly the list registration, and the first refusal aborts with the providers and filters registered before it kept. Only those two lists change. |
| AutoPersistence.AutoPersistenceModel.Setup | src/FluentNHibernate/Automapping/AutoPersistenceModel.cs:365-373 | A user-defined configuration refuses with the fixed message; otherwise the action is recorded as applied, after those applied before. Nothing else changes. |
| AutoPersistence.AutoPersistenceModel.SetWhere | src/FluentNHibernate/Automapping/AutoPersistenceModel.cs:379-387 | A user-defined configuration refuses with the fixed message and keeps the clause; otherwise the clause is replaced. Nothing else changes. |
| AutoPersistence.AutoPersistenceModel.AddTypeSource | src/FluentNHibernate/Automapping/AutoPersistenceModel.cs:514-518 | The source's types join the end of the sources, and nothing else changes. |
| AutoPersistence.AutoPersistenceModel.IgnoreBase | src/FluentNHibernate/Automapping/AutoPersistenceModel.cs:573-577 | The type joins the ignored types, and nothing else changes. |
| AutoPersistence.AutoPersistenceModel.IncludeBase | src/FluentNHibernate/Automapping/AutoPersistenceModel.cs:604-608 | The type joins the included types, and nothing else changes. |
| AutoPersistence.AutoPersistenceModel.SetMergeMappings | src/FluentNHibernate/Automapping/AutoPersistenceModel.cs:191 | MergeMappings takes the value given, and nothing else changes. |
| AutoPersistence.AutoPersistenceModel.CompileMappings | src/FluentNHibernate/Automapping/AutoPersistenceModel.cs:388-430 | Once it has succeeded, nothing changes. Otherwise it succeeds exactly when the value-level compilation does: the entries become the compiled ones, a pass-through provider is registered per mapping made, and the model is marked compiled. On failure it is not marked. |
| AutoPersistence.AutoPersistenceModel.CollectMappingTypes | src/FluentNHibernate/Automapping/AutoPersistenceModel.cs:395-418 | An unmapped entry is appended per candidate, in candidate order. |
| AutoPersistence.AutoPersistenceModel.MapEntries | src/FluentNHibernate/Automapping/AutoPersistenceModel.cs:422-427 | The outcome is the value-level mapping pass: the same error, or the final entries plus a pass-through provider per mapping. |
| AutoPersistence.AutoPersistenceModel.AddMappingsToBucket | src/FluentNHibernate/Automapping/AutoPersistenceModel.cs:193-209 | The bucket gains each provider's class in order, then each filter definition, exactly when every provider yields a manual action around a class mapping. Otherwise it fails with the first error. |
| AutoPersistence.AutoPersistenceModel.BuildMappings | src/FluentNHibernate/Automapping/AutoPersistenceModel.cs:158-189 | A failed compilation fails the build. Once compiled, the result is the providers' classes filed, visited and put into documents by the merge policy. |
| AutoPersistence.AutoPersistenceModel.EnsureMappingsBuilt | src/FluentNHibernate/Automapping/AutoPersistenceModel.cs:217-222 | Builds once and keeps the documents; later calls change nothing, and a failed build keeps none. |
| MappingModel.TextOf | src/FluentNHibernate/MappingModel/AttributeStore.cs:98-106 | A string read yields the top value when it is text and null otherwise. |
| MappingModel.FlagOf | src/FluentNHibernate/MappingModel/AttributeStore.cs:98-106 | A typed bool read is true exactly when the top value is true, so an unset attribute reads false. |
| MappingModel.UnboxedFlag | src/FluentNHibernate/MappingModel/PropertyMapping.cs:39-62 | Unboxing a bool read from the string-keyed store fails with a null reference exactly when the attribute was never set, and fails the cast when it holds another kind. Otherwise it yields the stored flag. |
| MappingModel.TypeOf | src/FluentNHibernate/MappingModel/ClassBased/ClassMapping.cs:37-40 | A type read yields the stored type, or null. |
| MappingModel.ReplaceTop | src/FluentNHibernate/Mapping/JoinPart.cs:144-156 | Changing the object an attribute holds in place changes what that attribute reads, and no other attribute. |
| NodeOperations.AddUserColumn | src/FluentNHibernate/MappingModel/ManyToOneMapping.cs:108-111 | A user column hides every default; the visible columns are the earlier user columns plus the new one. |
| NodeOperations.AddDefaultColumnTo | src/FluentNHibernate/MappingModel/ManyToOneMapping.cs:113-116 | A default column is visible only while there is no user column. |
| NodeOperations.ClearUserColumns | src/FluentNHibernate/MappingModel/Collections/ManyToManyMapping.cs:112-115 | Clear drops the user columns, so the defaults show again. |
| NodeOperations.ClearAllColumns | src/FluentNHibernate/MappingModel/KeyMapping.cs:82-85 | ClearAll leaves no visible column. |
| NodeOperations.NamedColumn | src/FluentNHibernate/MappingModel/ColumnMapping.cs:16-20 | A named column holds only Name, at the Defaults layer, and has no member. |
| NodeOperations.SetColumn | src/FluentNHibernate/MappingModel/ColumnMapping.cs:118-121 | The slot holds the value. The read answers it unless a higher layer is set, and other attributes and the member are unchanged. |
| NodeOperations.CloneColumn | src/FluentNHibernate/MappingModel/ColumnMapping.cs:94-97 | A clone has the same store and no member. |
| NodeOperations.KeyAddColumn | src/FluentNHibernate/MappingModel/KeyMapping.cs:66-72 | Adding a column already visible changes nothing; otherwise the column becomes visible. |
| NodeOperations.KeyAddDefaultColumn | src/FluentNHibernate/MappingModel/KeyMapping.cs:74-80 | Adding a default column already visible changes nothing. |
| NodeOperations.KeyClearColumns | src/FluentNHibernate/MappingModel/KeyMapping.cs:82-85 | Both kinds of column go, and the store and entity are kept. |
| NodeOperations.KeyColumnsStayDistinct | src/FluentNHibernate/MappingModel/KeyMapping.cs:66-80 | Both ways of adding keep a key's visible columns free of repeats. |
| NodeOperations.KeyAddColumnIdempotent | src/FluentNHibernate/MappingModel/KeyMapping.cs:66-72 | Adding the same column to a key twice is the same as adding it once. |
| NodeOperations.ManyToManyAddColumn | src/FluentNHibernate/MappingModel/Collections/ManyToManyMapping.cs:102-105 | The visible columns are the user columns plus the new one. |
| NodeOperations.ManyToManyAddDefaultColumn | src/FluentNHibernate/MappingModel/Collections/ManyToManyMapping.cs:107-110 | The new default column joins the defaults, and the user columns are kept. |
| NodeOperations.ManyToManyClearColumns | src/FluentNHibernate/MappingModel/Collections/ManyToManyMapping.cs:112-115 | Clearing shows exactly the defaults. |
| NodeOperations.IndexManyToManyAddColumn | src/FluentNHibernate/MappingModel/Collections/IndexManyToManyMapping.cs:42-45 | The visible columns are the user columns plus the new one. |
| NodeOperations.IndexManyToManyAddDefaultColumn | src/FluentNHibernate/MappingModel/Collections/IndexManyToManyMapping.cs:47-50 | The new default column joins the defaults, and the user columns are kept. |
| NodeOperations.IndexManyToManyClearColumns | src/FluentNHibernate/MappingModel/Collections/IndexManyToManyMapping.cs:52-55 | Clearing shows exactly the defaults. |
| NodeOperations.ClearKeepsDefaultsOnlyForManyToMany | src/FluentNHibernate/MappingModel/Collections/ManyToManyMapping.cs:112-115 | After a default and a user column are added, clearing a many-to-many shows the defaults again, while clearing a key (KeyMapping.cs:82-85) leaves nothing. |
| NodeOperations.ManyToOneAddColumn | src/FluentNHibernate/MappingModel/ManyToOneMapping.cs:108-111 | The visible columns are the user columns plus the new one, and the defaults are kept. |
| NodeOperations.ManyToOneAddDefaultColumn | src/FluentNHibernate/MappingModel/ManyToOneMapping.cs:113-116 | The new default column joins the defaults, and the user columns are kept. |
| NodeOperations.ManyToOneClearColumns | src/FluentNHibernate/MappingModel/ManyToOneMapping.cs:118-121 | ClearAll leaves no column of either kind. |
| NodeOperations.ManyToOneSet | src/FluentNHibernate/MappingModel/ManyToOneMapping.cs:128-131 | The value goes into exactly that attribute and layer. |
| NodeOperations.AnyAddTypeColumn | src/FluentNHibernate/MappingModel/AnyMapping.cs:106-109 | Only the type columns change: the new column joins the user columns. |
| NodeOperations.AnyAddTypeDefaultColumn | src/FluentNHibernate/MappingModel/AnyMapping.cs:101-104 | Only the type columns change: the new column joins the defaults. |
| NodeOperations.AnyAddIdentifierColumn | src/FluentNHibernate/MappingModel/AnyMapping.cs:116-119 | Only the identifier columns change: the new column joins the user columns. |
| NodeOperations.AnyAddIdentifierDefaultColumn | src/FluentNHibernate/MappingModel/AnyMapping.cs:111-114 | Only the identifier columns change: the new column joins the defaults. |
| NodeOperations.AnyAddMetaValue | src/FluentNHibernate/MappingModel/AnyMapping.cs:121-124 | The meta value is appended. |
| NodeOperations.AnySet | src/FluentNHibernate/MappingModel/AnyMapping.cs:159-162 | The value goes into exactly that attribute and layer. |
| NodeOperations.NewMetaValue | src/FluentNHibernate/MappingModel/MetaValueMapping.cs:12-19 | A new meta value has a fresh, empty store. |
| NodeOperations.MetaValueSet | src/FluentNHibernate/MappingModel/MetaValueMapping.cs:63-66 | The value goes into exactly that attribute and layer. |
| NodeOperations.NewGenerator | src/FluentNHibernate/MappingModel/Identity/GeneratorMapping.cs:13-16 | A new generator has an empty store and no parameters. |
| NodeOperations.CompositeIdAddKey | src/FluentNHibernate/MappingModel/Identity/CompositeIdMapping.cs:70-73 | The key is appended. |
| NodeOperations.KeyPropertyAddColumn | src/FluentNHibernate/MappingModel/Identity/KeyPropertyMapping.cs:49-52 | The column is appended without de-duplication. |
| NodeOperations.KeyManyToOneAddColumn | src/FluentNHibernate/MappingModel/Identity/KeyManyToOneMapping.cs:67-70 | The column is appended without de-duplication. |
| NodeOperations.KeysKeepRepeatedColumns | src/FluentNHibernate/MappingModel/Identity/KeyPropertyMapping.cs:49-52 | Unlike a KeyMapping, key properties and key many-to-ones keep a column added twice. |
| NodeOperations.ColumnBasedAddColumn | src/FluentNHibernate/Mapping/PropertyPart.cs:333-336 | The visible columns are the user columns plus the new one, and the store is kept. |
| NodeOperations.ColumnBasedAddDefaultColumn | src/FluentNHibernate/Mapping/PropertyPart.cs:327-332 | The new default column joins the defaults, and the store is kept. |
| NodeOperations.ColumnBasedSet | src/FluentNHibernate/MappingModel/PropertyMapping.cs:101-104 | The value goes under the selected member's name at that layer, and nothing else changes. |
| NodeOperations.NewCollection | src/FluentNHibernate/MappingModel/Collections/CollectionMapping.cs:228-289 | A factory gives a collection of exactly that kind over the given store, with no filters, entity, member or other side. |
| NodeOperations.AddFilter | src/FluentNHibernate/MappingModel/Collections/CollectionMapping.cs:23-31 | The filter is appended. |
| NodeOperations.NewSubclass | src/FluentNHibernate/MappingModel/ClassBased/SubclassMapping.cs:13-21 | The kind is fixed and the store wrapped. |
| NodeOperations.OverrideAttributes | src/FluentNHibernate/MappingModel/ClassBased/SubclassMapping.cs:134-137 | Every read answers from the new store, and the kind and body are kept. |
| NodeOperations.SubclassName | src/FluentNHibernate/MappingModel/ClassBased/SubclassMapping.cs:163-166 | The text is "Subclass(" + the type's name + ")", and it fails with a null reference when the Type is unset. |
| NodeOperations.NewComponent | src/FluentNHibernate/MappingModel/ClassBased/ComponentMapping.cs:13-22 | The component type is recorded, the store wrapped, and there is no prefix. |
| NodeOperations.HasColumnPrefixExactly | src/FluentNHibernate/MappingModel/ClassBased/ComponentMapping.cs:31-34 | HasColumnPrefix holds exactly when the prefix is set and not empty. |
| NodeOperations.ExternalComponentUsedMembers | src/FluentNHibernate/MappingModel/ClassBased/ExternalComponentMapping.cs:25-28 | Always fails as not implemented. |
| NodeOperations.ExternalComponentAddMappedMember | src/FluentNHibernate/MappingModel/ClassBased/ExternalComponentMapping.cs:30-33 | Always fails as not implemented. |
| ModelTraversal.KeyVisitsItsColumns | src/FluentNHibernate/MappingModel/KeyMapping.cs:23-29 | A key announces itself first and then visits exactly its visible columns, in order. |
| ModelTraversal.AnyVisitOrder | src/FluentNHibernate/MappingModel/AnyMapping.cs:25-37 | An any-mapping announces itself and then visits every meta value before any column. The columns it visits are the type columns then the identifier columns. |
| ModelTraversal.IdVisitsColumnsThenGenerator | src/FluentNHibernate/MappingModel/Identity/IdMapping.cs:26-35 | An id announces itself and visits its columns. It visits its generator exactly once, last, when it has one, and never otherwise. |
| ModelTraversal.CompositeIdAddKeyExtendsWalk | src/FluentNHibernate/MappingModel/Identity/CompositeIdMapping.cs:23-73 | Adding a key extends the composite id's walk by exactly that key's walk, at the end. |
| ModelTraversal.CompositeKeysAnnounced | src/FluentNHibernate/MappingModel/Identity/CompositeIdMapping.cs:23-34 | Each key is announced once, as a key property or a key many-to-one. |
| ModelTraversal.CollectionVisitsIndexOnlyWhenIndexed | src/FluentNHibernate/MappingModel/Collections/CollectionMapping.cs:40-41 | A collection visits an index exactly when it holds one and its kind is Array, List or Map. |
| ModelTraversal.CollectionVisitsItsFilters | src/FluentNHibernate/MappingModel/Collections/CollectionMapping.cs:33-57 | The filters visited are those of the children before them, then the collection's own in order, then those of the cache. |
| ModelTraversal.AddFilterIsVisitedLast | src/FluentNHibernate/MappingModel/Collections/CollectionMapping.cs:23-53 | An added filter is visited after every filter visited before. |
| ModelTraversal.SubclassVisitsKeyOnlyWhenJoined | src/FluentNHibernate/MappingModel/ClassBased/SubclassMapping.cs:34-42 | A subclass announces itself first and its body last, and visits a key exactly when it is a joined subclass holding one. |
| ModelTraversal.ClassVisitOrder | src/FluentNHibernate/MappingModel/ClassBased/ClassMapping.cs:67-90 | A class announces itself first and its body last. Between them the Id comes before the Discriminator, the Discriminator before the Cache, and the Cache before the Version. |
| ModelEquality.CloneEqualsOriginalIffNoMember | src/FluentNHibernate/MappingModel/ColumnMapping.cs:94-108 | A cloned column equals its original exactly when the original has no member, since the clone drops it. |
| ModelEquality.EqualKeysWalkAlike | src/FluentNHibernate/MappingModel/KeyMapping.cs:23-107 | Equal keys produce the same walk. |
| ModelEquality.KeyEqualityNotKeptByAddColumn | src/FluentNHibernate/MappingModel/KeyMapping.cs:66-107 | Two equal keys can become unequal after the same column is added, because equality compares only the visible columns. |
| ModelEquality.CollectionEqualsIgnoresKindAndOtherSide | src/FluentNHibernate/MappingModel/Collections/CollectionMapping.cs:198-206 | Changing a collection's kind or other side keeps it equal. |
| ModelEquality.EqualCollectionsMayWalkDifferently | src/FluentNHibernate/MappingModel/Collections/CollectionMapping.cs:198-206 | A bag and a list over the same store are equal, yet only the list visits its index. |
| ModelEquality.ManyToManyEqualsIgnoresChildFilters | src/FluentNHibernate/MappingModel/Collections/ManyToManyMapping.cs:122-137 | Changing the child filters keeps a many-to-many equal, while the walk visits exactly the new filters. |
| ModelEquality.ManyToOneEqualsIgnoresOtherSide | src/FluentNHibernate/MappingModel/ManyToOneMapping.cs:133-149 | Changing the other side keeps a many-to-one equal. |
| ModelEquality.SubclassEqualsIgnoresKind | src/FluentNHibernate/MappingModel/ClassBased/SubclassMapping.cs:139-151 | A joined subclass and a plain one with the same key are equal, yet only the joined one visits the key. |
| PassThroughProviders.GetClassMapping | src/FluentNHibernate/Mapping/PassThroughMappingProvider.cs:20-23 | Succeeds exactly on a wrapped class mapping and returns that very object; otherwise the cast to ClassMapping fails. |
| PassThroughProviders.GetCollectionMapping | src/FluentNHibernate/Mapping/PassThroughMappingProvider.cs:25-28 | Succeeds exactly on a wrapped collection and returns it; otherwise the cast fails. |
| PassThroughProviders.GetManyToOneMapping | src/FluentNHibernate/Mapping/PassThroughMappingProvider.cs:30-33 | Succeeds exactly on a wrapped many-to-one and returns it; otherwise the cast fails. |
| PassThroughProviders.GetCompositeElementMapping | src/FluentNHibernate/Mapping/PassThroughMappingProvider.cs:45-48 | Succeeds exactly on a wrapped composite element and returns it; otherwise the cast fails. |
| PassThroughProviders.GetPropertyMapping | src/FluentNHibernate/Mapping/PassThroughMappingProvider.cs:50-53 | Succeeds exactly on a wrapped property and returns it; otherwise the cast fails. |
| PassThroughProviders.GetFilterMapping | src/FluentNHibernate/Mapping/PassThroughMappingProvider.cs:55-58 | Succeeds exactly on a wrapped filter and returns it; otherwise the cast fails. |
| PassThroughProviders.GetHibernateMapping | src/FluentNHibernate/Mapping/PassThroughMappingProvider.cs:35-38 | Always a new, empty document. |
| PassThroughProviders.GetIgnoredProperties | src/FluentNHibernate/Mapping/PassThroughMappingProvider.cs:40-43 | Never any ignored property. |
| PassThroughProviders.GetAction | src/FluentNHibernate/Mapping/PassThroughMappingProvider.cs:60-63 | Succeeds exactly on a wrapped top mapping: a manual action around that very mapping. Otherwise the cast to ITopMapping fails. |
| PassThroughProviders.AtMostOneGetterSucceeds | src/FluentNHibernate/Mapping/PassThroughMappingProvider.cs:20-63 | Whatever is wrapped, at most one typed getter succeeds. None does exactly for a top mapping that is not a class, and a class mapping also yields an action. |
| PassThroughProviders.AgreesWithGatherer | src/FluentNHibernate/Mapping/PassThroughMappingProvider.cs:60-63 | Around a top mapping, GetAction yields the same manual action that the gatherer's pass-through provider does. |
| BuilderSupport.WithDefaultAccess | src/FluentNHibernate/Mapping/PropertyPart.cs:35-43 | Property or unset access records nothing. Any other access is recorded at the Defaults layer only, and every other slot is kept. |
| BuilderSupport.DefaultAccessLosesToUserAccess | src/FluentNHibernate/Mapping/PropertyPart.cs:35-43 | A fresh builder reports an access exactly when the resolved access is not the default one, and an access the user chooses later replaces it. |
| BuilderSupport.UserColumn | src/FluentNHibernate/Mapping/PropertyPart.cs:60-65 | A column added by name reads back that name, and nothing else is set. |
| BuilderSupport.NamedColumnOver | src/FluentNHibernate/Mapping/PropertyPart.cs:327-332 | A column over the builder's column attributes is named at Defaults. A name already set above Defaults wins, and every other attribute reads as recorded. |
| BuilderSupport.NamedColumnOverEmpty | src/FluentNHibernate/MappingModel/ColumnMapping.cs:16-20 | Over an empty store, naming a column at Defaults gives the column the named constructor makes. |
| BuilderSupport.WithVisible | src/FluentNHibernate/Conventions/Instances/ManyToOneInstance.cs:139-145 | Changing each visible column in place leaves exactly the new columns visible, and keeps the hidden defaults. |
| PropertyParts.DefaultTypeChoosesEnumMapper | src/FluentNHibernate/Mapping/PropertyPart.cs:352-363 | The enum mapper is chosen exactly for enum properties. It maps the inner enum of a nullable enum and the enum itself otherwise; any other property maps to its own type. |
| PropertyParts.AdjustedColumns | src/FluentNHibernate/Mapping/PropertyPart.cs:337-341 | One adjusted column per column, in order. |
| PropertyParts.BuiltColumns | src/FluentNHibernate/Mapping/PropertyPart.cs:327-336 | The visible columns are the named ones. Without any, there is the implicit column named after the member, unless a formula was given, in which case there are none. Each is adjusted for nullable enums. |
| PropertyParts.ColumnSettingsReachOnlyImplicitColumn | src/FluentNHibernate/Mapping/PropertyPart.cs:327-344 | Column-level settings reach only the implicit column. A named column keeps its own attributes, and the implicit one reads every setting but its name from the column attributes. |
| PropertyParts.NullableEnumColumnsAllowNull | src/FluentNHibernate/Mapping/PropertyPart.cs:337-341 | Every visible column of a nullable enum property has NotNull false at Defaults; otherwise the named columns are left as they are. |
| PropertyParts.NameAndTypeAreDefaults | src/FluentNHibernate/Mapping/PropertyPart.cs:346-347 | Name and Type read as the member's name and the default type, unless the builder holds a value above Defaults, which wins. Every other attribute reads as recorded, and the entity and member are set. |
| PropertyParts.CustomTypeWins | src/FluentNHibernate/Mapping/PropertyPart.cs:194-199 | A custom type the user gives is the type of the built mapping. |
| PropertyParts.PropertyPart.constructor | src/FluentNHibernate/Mapping/PropertyPart.cs:23-33 | A new builder has only the default access recorded, no columns, and the flag set. |
| PropertyParts.PropertyPart.Not | src/FluentNHibernate/Mapping/PropertyPart.cs:300-307 | The flag is inverted, and nothing else changes. |
| PropertyParts.PropertyPart.SetFlag | src/FluentNHibernate/Mapping/PropertyPart.cs:86-92 | The attribute takes the flag's value at UserSupplied, and the flag is reset. |
| PropertyParts.PropertyPart.Insert | src/FluentNHibernate/Mapping/PropertyPart.cs:86-92 | Insert takes the flag's value at UserSupplied, and the flag is reset. |
| PropertyParts.PropertyPart.Update | src/FluentNHibernate/Mapping/PropertyPart.cs:97-103 | Update takes the flag's value at UserSupplied, and the flag is reset. |
| PropertyParts.PropertyPart.LazyLoad | src/FluentNHibernate/Mapping/PropertyPart.cs:149-154 | Lazy takes the flag's value at UserSupplied, and the flag is reset. |
| PropertyParts.PropertyPart.OptimisticLock | src/FluentNHibernate/Mapping/PropertyPart.cs:289-294 | OptimisticLock takes the flag's value at UserSupplied, and the flag is reset. |
| PropertyParts.PropertyPart.ReadOnly | src/FluentNHibernate/Mapping/PropertyPart.cs:128-134 | Insert and Update both take the negated flag, and the flag is reset. |
| PropertyParts.PropertyPart.Nullable | src/FluentNHibernate/Mapping/PropertyPart.cs:118-123 | The columns' NotNull takes the negated flag, and the flag is reset. |
| PropertyParts.PropertyPart.Unique | src/FluentNHibernate/Mapping/PropertyPart.cs:239-244 | The columns' Unique takes the flag, and the flag is reset. |
| PropertyParts.PropertyPart.SetColumnNumber | src/FluentNHibernate/Mapping/PropertyPart.cs:250-264 | Length, Precision or Scale is recorded for the columns, and nothing else changes. |
| PropertyParts.PropertyPart.SetColumnText | src/FluentNHibernate/Mapping/PropertyPart.cs:270-284 | Index, SqlType, Default, UniqueKey or Check is recorded for the columns, and nothing else changes. |
| PropertyParts.PropertyPart.SetPropertyText | src/FluentNHibernate/Mapping/PropertyPart.cs:140-144 | Formula, Access or Generated is recorded on the property, and nothing else changes. |
| PropertyParts.PropertyPart.CustomType | src/FluentNHibernate/Mapping/PropertyPart.cs:194-199 | The type is recorded by name at UserSupplied. |
| PropertyParts.PropertyPart.CustomTypeOf | src/FluentNHibernate/Mapping/PropertyPart.cs:181-224 | A composite user type first adds one named column per property name it reports, in order; then the type is recorded. |
| PropertyParts.PropertyPart.AddColumn | src/FluentNHibernate/Mapping/PropertyPart.cs:70-76 | One more named column is added at the end. |
| PropertyParts.PropertyPart.Column | src/FluentNHibernate/Mapping/PropertyPart.cs:60-65 | The named columns are replaced by exactly this one. |
| PropertyParts.PropertyPart.GetPropertyMapping | src/FluentNHibernate/Mapping/PropertyPart.cs:319-350 | The mapping is the one stated on the builder's state, which the lemmas above describe. |
| PropertyParts.AddEach | src/FluentNHibernate/Mapping/PropertyPart.cs:334-335 | Every named column joins the user columns in order, and the defaults are kept. |
| PropertyParts.AdjustEach | src/FluentNHibernate/Mapping/PropertyPart.cs:337-341 | Each visible column is adjusted for nullable enums, in order. |
| PropertyParts.NotAppliesToOneSetter | src/FluentNHibernate/Mapping/PropertyPart.cs:86-103 | Not followed by Insert records the inverted flag; the next Update records true. |
| IdentityParts.GeneratorOfClass | src/FluentNHibernate/Mapping/IdentityPart.cs:257-270 | The generator reads the class given, with no parameters and no entity. |
| IdentityParts.DefaultGeneratorByType | src/FluentNHibernate/Mapping/IdentityPart.cs:257-270 | The default generator is guid.comb exactly for Guid, identity exactly for int or long, and assigned for every other type. |
| IdentityParts.NamedColumns | src/FluentNHibernate/Mapping/IdentityPart.cs:279-287 | One column per given name, in order, each over the column attributes and named at Defaults. |
| IdentityParts.IdColumnsFromNames | src/FluentNHibernate/Mapping/IdentityPart.cs:279-293 | Given column names become the id's columns in order, each reading its own name. Without any, a specified name yields one default column; otherwise there are no columns. Every other column attribute reads as the builder recorded it. |
| IdentityParts.IdTypeRead | src/FluentNHibernate/Mapping/IdentityPart.cs:298 | Type reads as the identity type unless the builder set one above Defaults, which wins. |
| IdentityParts.IdGeneratorRead | src/FluentNHibernate/Mapping/IdentityPart.cs:300-301 | A generator picked through GeneratedBy wins over any default; with none picked, Generator reads as the builder recorded it. |
| IdentityParts.IdNamedAfterMember | src/FluentNHibernate/Mapping/IdentityPart.cs:295-296 | An id built from a member is named after that member. |
| IdentityParts.IdFromTypeUnnamed | src/FluentNHibernate/Mapping/IdentityPart.cs:288-296 | An id built from a type alone, without a column, gets no Name, no column and no member. |
| IdentityParts.FreshGenerator | src/FluentNHibernate/Mapping/IdentityPart.cs:23-45 | On a fresh builder the generator is the one chosen from the identity type, until the user picks another through GeneratedBy. |
| IdentityParts.IdentityPart.FromMember | src/FluentNHibernate/Mapping/IdentityPart.cs:23-34 | The builder is named after the member, and its identity type is the member's type. The default generator is recorded, then the default access. |
| IdentityParts.IdentityPart.FromType | src/FluentNHibernate/Mapping/IdentityPart.cs:36-45 | The builder has no member and no name, and only the default generator is recorded. |
| IdentityParts.IdentityPart.Not | src/FluentNHibernate/Mapping/IdentityPart.cs:78-85 | The flag is inverted, and nothing else changes. |
| IdentityParts.IdentityPart.SetName | src/FluentNHibernate/Mapping/IdentityPart.cs:247-250 | The name becomes the one given. |
| IdentityParts.IdentityPart.UnsavedValue | src/FluentNHibernate/Mapping/IdentityPart.cs:91-95 | The value's text is recorded at UserSupplied, and a null value records "null". |
| IdentityParts.IdentityPart.Column | src/FluentNHibernate/Mapping/IdentityPart.cs:101-106 | The given column replaces any earlier one. |
| IdentityParts.IdentityPart.Nullable | src/FluentNHibernate/Mapping/IdentityPart.cs:141-146 | The column's NotNull takes the negated flag, and the flag is reset. |
| IdentityParts.IdentityPart.Unique | src/FluentNHibernate/Mapping/IdentityPart.cs:151-156 | The column's Unique takes the flag, and the flag is reset. |
| IdentityParts.IdentityPart.SetColumnNumber | src/FluentNHibernate/Mapping/IdentityPart.cs:112-136 | Length, Precision or Scale is recorded for the column, and nothing else changes. |
| IdentityParts.IdentityPart.SetColumnText | src/FluentNHibernate/Mapping/IdentityPart.cs:162-206 | UniqueKey, SqlType, Index, Check or Default is recorded for the column, and nothing else changes. |
| IdentityParts.IdentityPart.SetIdValue | src/FluentNHibernate/Mapping/IdentityPart.cs:215-245 | A custom type or an access is recorded on the id at UserSupplied. |
| IdentityParts.IdentityPart.GeneratedBy | src/FluentNHibernate/Mapping/IdentityPart.cs:300-301 | The picked generator is remembered, and nothing else changes. |
| IdentityParts.IdentityPart.GetIdentityMapping | src/FluentNHibernate/Mapping/IdentityPart.cs:272-304 | The mapping is the one stated on the builder's state, which the lemmas above describe. |
| IdentityParts.AddNamed | src/FluentNHibernate/Mapping/IdentityPart.cs:281-287 | Each given name becomes a user column over the column attributes, in order. |
| JoinParts.InitialJoinState | src/FluentNHibernate/Mapping/JoinPart.cs:25-33 | A fresh join builder reports the given table name and a key with no columns whose containing entity is T. |
| JoinParts.TableOverridesConstructor | src/FluentNHibernate/Mapping/JoinPart.cs:132-135 | `Table(name)` is user-supplied, so it wins over the table name the constructor recorded at Defaults. |
| JoinParts.KeyColumnsNamed | src/FluentNHibernate/Mapping/JoinPart.cs:150-156 | One column per key column name, in order, each named at Defaults. |
| JoinParts.AddKeyColumnsToEmpty | src/FluentNHibernate/Mapping/JoinPart.cs:150-156 | Adding distinct names to a key with no columns yields exactly one user column per name, in order, leaving the key's attributes and entity alone. |
| JoinParts.FreshKeyColumns | src/FluentNHibernate/Mapping/JoinPart.cs:144-156 | A fresh builder's filled key keeps T as containing entity and has the single default column T.Name + "_id" when no name was given, and exactly the named columns, in order, otherwise. |
| JoinParts.RebuildWithoutNamesIsStable | src/FluentNHibernate/Mapping/JoinPart.cs:144-149 | Building twice without names adds the default key column only once. |
| JoinParts.RebuildKeepsEarlierKeyColumns | src/FluentNHibernate/Mapping/JoinPart.cs:137-156 | Because the key object is shared between builder and mapping, a name given after a first build is added next to the column that build left. |
| JoinParts.PropertyChildren | src/FluentNHibernate/Mapping/JoinPart.cs:158-159 | One join member per property mapping, in provider order. |
| JoinParts.ComponentChildren | src/FluentNHibernate/Mapping/JoinPart.cs:161-162 | One join member per component mapping, in provider order. |
| JoinParts.ReferenceChildren | src/FluentNHibernate/Mapping/JoinPart.cs:164-165 | One join member per many-to-one mapping, in provider order. |
| JoinParts.AnyChildren | src/FluentNHibernate/Mapping/JoinPart.cs:167-168 | One join member per any mapping, in provider order. |
| JoinParts.CollectionChildren | src/FluentNHibernate/Mapping/JoinPart.cs:170-171 | One join member per collection mapping, in provider order. |
| JoinParts.JoinChildrenInCategoryOrder | src/FluentNHibernate/Mapping/JoinPart.cs:158-171 | The join's members come in category order (properties, components, references, anys, collections), their count is the providers' total, and the first and last categories are exactly their providers' mappings. |
| JoinParts.JoinPart.constructor | src/FluentNHibernate/Mapping/JoinPart.cs:25-33 | The builder starts with the table name and T's empty key at Defaults, no key column names and the Not flag clear. |
| JoinParts.JoinPart.Not | src/FluentNHibernate/Mapping/JoinPart.cs:119-126 | The Not flag flips and nothing else changes. |
| JoinParts.JoinPart.KeyColumn | src/FluentNHibernate/Mapping/JoinPart.cs:39-44 | The key column names become exactly the one name given. |
| JoinParts.JoinPart.KeyColumns | src/FluentNHibernate/Mapping/JoinPart.cs:50-55 | The key column names become exactly the names given, replacing earlier ones. |
| JoinParts.JoinPart.SetFlag | src/FluentNHibernate/Mapping/JoinPart.cs:78-93 | Inverse or Optional records the flag's value at UserSupplied and resets the flag; the key stays in place. |
| JoinParts.JoinPart.SetText | src/FluentNHibernate/Mapping/JoinPart.cs:61-135 | Schema, Catalog, Subselect, TableName or Fetch is recorded at UserSupplied; nothing else changes. |
| JoinParts.JoinPart.GetJoinMapping | src/FluentNHibernate/Mapping/JoinPart.cs:137-174 | The builder's own key is replaced by the filled key, and the mapping carries a copy of that store, T as containing entity and the members in category order. |
| JoinParts.FillKey | src/FluentNHibernate/Mapping/JoinPart.cs:144-156 | The loop fills the key as FreshKeyColumns describes. |
| JoinParts.BuildChildren | src/FluentNHibernate/Mapping/JoinPart.cs:158-171 | The five loops yield the members JoinChildrenInCategoryOrder describes. |
| JoinParts.AddEachKeyColumn | src/FluentNHibernate/Mapping/JoinPart.cs:151-156 | The loop adds every name, in order, as AddKeyColumnsToEmpty describes. |
| JoinParts.AppendChildren | src/FluentNHibernate/Mapping/JoinPart.cs:158-171 | A loop over one category appends its members after those already added, in order. |
| IndexParts.IndexColumns | src/FluentNHibernate/Mapping/IndexPart.cs:45-50 | One column per index column name, in order, each named at Defaults. |
| IndexParts.BuiltIndexColumns | src/FluentNHibernate/Mapping/IndexPart.cs:39-53 | The built index belongs to the builder's entity, reads every attribute as recorded, and has one column per name, in order, carrying only its name. |
| IndexParts.IndexTypeIsUserSupplied | src/FluentNHibernate/Mapping/IndexPart.cs:26-41 | A Type the user sets is the one the built index reports. |
| IndexParts.IndexPart.constructor | src/FluentNHibernate/Mapping/IndexPart.cs:15-18 | A fresh builder has the entity, no column names and no attributes. |
| IndexParts.IndexPart.Column | src/FluentNHibernate/Mapping/IndexPart.cs:20-24 | The name is appended and every earlier name is kept. |
| IndexParts.IndexPart.Type | src/FluentNHibernate/Mapping/IndexPart.cs:26-36 | The index type is recorded at UserSupplied; the column names are kept. |
| IndexParts.IndexPart.GetIndexMapping | src/FluentNHibernate/Mapping/IndexPart.cs:39-53 | The mapping is the one BuiltIndexColumns describes, and the builder does not change. |
| KeyPropertyParts.NamedKeyColumns | src/FluentNHibernate/Mapping/KeyPropertyPart.cs:16-23 | One user-named column per ColumnName call, in order. |
| KeyPropertyParts.ColumnNamesAppend | src/FluentNHibernate/Mapping/KeyPropertyPart.cs:16-23 | Each ColumnName call appends a column, keeping every earlier one even with the same name; the attributes and entity are unchanged. |
| KeyPropertyParts.KeyPropertyPart.constructor | src/FluentNHibernate/Mapping/KeyPropertyPart.cs:10-14 | The builder wraps the mapping given. |
| KeyPropertyParts.KeyPropertyPart.ColumnName | src/FluentNHibernate/Mapping/KeyPropertyPart.cs:16-23 | One more column, carrying the name as a user-supplied value, is appended to the mapping. |
| KeyPropertyParts.KeyPropertyPart.Type | src/FluentNHibernate/Mapping/KeyPropertyPart.cs:25-35 | The mapping's Type is assigned and nothing else changes. |
| KeyPropertyParts.KeyPropertyPart.Length | src/FluentNHibernate/Mapping/KeyPropertyPart.cs:37-41 | The mapping's Length is assigned and nothing else changes. |
| KeyPropertyParts.KeyPropertyPart.SetAccess | src/FluentNHibernate/Mapping/KeyPropertyPart.cs:13 | The access builder's value is assigned to the mapping's Access. |
| ManyToOneInstances.ColumnReplacesShownColumns | src/FluentNHibernate/Conventions/Instances/ManyToOneInstance.cs:21-33 | With user-defined columns the mapping is untouched; otherwise it ends with one user-defined column carrying the new name and every other attribute of the first column shown, and the rest of the mapping is kept. |
| ManyToOneInstances.ColumnAppliesOnce | src/FluentNHibernate/Conventions/Instances/ManyToOneInstance.cs:21-33 | A second Column call by a convention changes nothing. |
| ManyToOneInstances.AssignedColumns | src/FluentNHibernate/Conventions/Instances/ManyToOneInstance.cs:106-171 | Each column, in order, with the attribute assigned. |
| ManyToOneInstances.EveryShownColumnReceives | src/FluentNHibernate/Conventions/Instances/ManyToOneInstance.cs:106-171 | Every column shown receives the value, no column is added or lost, every other attribute is kept and the hidden defaults stay. |
| ManyToOneInstances.ManyToOneInstance.constructor | src/FluentNHibernate/Conventions/Instances/ManyToOneInstance.cs:15-19 | The instance wraps the mapping with the Not flag clear. |
| ManyToOneInstances.ManyToOneInstance.Column | src/FluentNHibernate/Conventions/Instances/ManyToOneInstance.cs:21-33 | The mapping becomes the one ColumnReplacesShownColumns describes. |
| ManyToOneInstances.ManyToOneInstance.Formula | src/FluentNHibernate/Conventions/Instances/ManyToOneInstance.cs:35-40 | The formula is assigned and the columns are not cleared. |
| ManyToOneInstances.ManyToOneInstance.CustomClass | src/FluentNHibernate/Conventions/Instances/ManyToOneInstance.cs:42-50 | Class becomes a reference to the type given. |
| ManyToOneInstances.ManyToOneInstance.SetText | src/FluentNHibernate/Conventions/Instances/ManyToOneInstance.cs:52-104 | Access, Cascade, Fetch, NotFound, PropertyRef or ForeignKey is assigned; the flag is kept. |
| ManyToOneInstances.ManyToOneInstance.Not | src/FluentNHibernate/Conventions/Instances/ManyToOneInstance.cs:85-93 | The flag flips and the mapping is unchanged. |
| ManyToOneInstances.ManyToOneInstance.SetFlag | src/FluentNHibernate/Conventions/Instances/ManyToOneInstance.cs:112-177 | Insert, Update or OptimisticLock takes the flag's value and the flag resets. |
| ManyToOneInstances.ManyToOneInstance.ReadOnly | src/FluentNHibernate/Conventions/Instances/ManyToOneInstance.cs:152-157 | Insert and Update both take the negated flag and the flag resets. |
| ManyToOneInstances.ManyToOneInstance.LazyLoadAs | src/FluentNHibernate/Conventions/Instances/ManyToOneInstance.cs:133-137 | Lazy takes the laziness's name and the flag resets. |
| ManyToOneInstances.ManyToOneInstance.LazyLoad | src/FluentNHibernate/Conventions/Instances/ManyToOneInstance.cs:124-131 | Lazy becomes "proxy", or "false" after Not, and the flag resets. |
| ManyToOneInstances.ManyToOneInstance.AssignEveryColumn | src/FluentNHibernate/Conventions/Instances/ManyToOneInstance.cs:108-109 | The loop gives every column shown the value, as EveryShownColumnReceives describes. |
| ManyToOneInstances.ManyToOneInstance.ColumnText | src/FluentNHibernate/Conventions/Instances/ManyToOneInstance.cs:106-171 | Index or UniqueKey reaches every column shown; the flag is kept. |
| ManyToOneInstances.ManyToOneInstance.Unique | src/FluentNHibernate/Conventions/Instances/ManyToOneInstance.cs:159-165 | Every column shown takes the flag's value as Unique and the flag resets. |
| ManyToOneInstances.ManyToOneInstance.Nullable | src/FluentNHibernate/Conventions/Instances/ManyToOneInstance.cs:139-145 | Every column shown takes the negated flag as NotNull and the flag resets. |
| AutoKeyMappers.SetKeyInstallsDefaultKey | src/FluentNHibernate/Automapping/Steps/AutoKeyMapper.cs:17-28 | The key points at the class map's type and has one default column DeclaringType.Name + "_id"; the collection reads it unless a key was set above Defaults, and nothing else about the collection changes. |
| AutoKeyMappers.UserKeySurvives | src/FluentNHibernate/Automapping/Steps/AutoKeyMapper.cs:27 | A key the user supplied survives the automapper's default key. |

## Left out

- XML serialisation, `WriteMappingsTo`, the exporters and `Configure(Configuration)`: these are file and NHibernate configuration I/O.
- `ContainsMapping`, `ValidationEnabled`, `Alterations`, `UseOverridesFrom*`, `Override<T>` and `OverrideAll`: they forward to the automapper's alterations and overrides and to the validation visitor, none of whose code is part of this model.
- AutoPersistence.AutoPersistenceModel.CompileMappings: `alterations.Apply(this)` is not modelled, because the alterations' code is not part of this model; the rest of the method is.
- AutoPersistence.AutoPersistenceModel.Setup: `AutoMappingExpressions` and `ExpressionBasedAutomappingConfiguration` are not part of this model, so the action is an opaque handle. The model records that it was applied, in order, but the configuration the model reads (`cfg`) is a fixed value and does not change.
- AutoPersistence.AutoPersistenceModel.MapEntries: the model's state after a failing automapper step is left unspecified; only the successful run is stated in full.
- The automapper (`AutoMapper.Map`) is a function value (`Automap`, `Automapper`): its result and the entries it marks are given, not computed.
- The visitors whose bodies are not shown (component column prefix, relationship pairing, many-to-many table name, conventions, relationship key pairing, validation) are opaque passes over the bucket and the document, each of which may fail.
- Reflection is replaced by given facts: the type graph (`TypeGraph`), member type facts (`TypeFacts`), `MemberAccessResolver.Resolve` (the `resolvedAccess` argument), instantiation of scanned providers (`actionOfType`, `instantiate`), type names (`nameOf`, `fullName`) and `Object.ToString` of a mapping.
- PropertyParts.PropertyPart.CustomTypeOf: the property names of a composite user type, which the source obtains by creating the type with `Activator.CreateInstance`, are an argument.
- IdentityParts.GeneratorOfClass: `GeneratorBuilder`'s code is not part of this model; the generator it sets is a generator whose Class is the chosen name and which has no parameters.
- IdentityParts.IdentityPart.GeneratedBy: the generator builder's result is passed in rather than built by a builder object.
- `DefaultableList`, `AttributeLayeredValues` and `CopyTo` are not part of this model. A column list is a user-defined list plus a default list that shows the user-defined values when there are any and the defaults otherwise. `CopyTo` copies every attribute and layer into the target.
- The source's own numeric values of `Layer`, and its other layers, are not part of this model: the model fixes `Defaults` at 0 and `UserSupplied` at 1 and uses only their order. Plain property assignments (`column.Name = x`, `mapping.Type = t`) are recorded at `AssignedLayer`, which is taken to be `UserSupplied`. The subclass kind (`SubclassMapping.SubclassType`) and the type of `new ClassMapping { Type = t }` are plain fields outside the layered store.
- `Laziness.ToString()` is modelled by its two names, "proxy" and "false", as used by `LazyLoad()`.
- `Default(null)` on a builder, which throws in .NET when a null value reaches the store, is not modelled: values are never null.
- AutoKeyMappers.SetKeyInstallsDefaultKey: the unused automapping configuration field is left out, and the class map is represented by its type.
- AutoKeyMappers.SetKey: `CollectionMapping.SetDefaultValue` is not part of this model; it is taken to record the key at the `Defaults` layer, as its name and the other default setters suggest.
- SeparateSubclass.Stamp: the recursive `SetSubclassType` has no bound in the source and never returns when the child relation has a cycle, for instance two subclasses whose `Extends` markers name each other's types, so each is attached under the other. The model cuts that recursion off after `fuel` levels (`StampAll` gives |subs|) and so terminates on such input where the source runs forever. When there is no cycle, `StampFuelReachesEveryDescendant` shows that |subs| levels reach exactly every descendant, so the cut-off never takes effect.
- ComponentResolution.Resolve: resolution of external components that refer to each other is bounded by `fuel`, since the source has no cycle guard; non-termination on a cyclic reference graph is not modelled.
- TypeSources.GetIdentifier: `OrderBy(Name)` uses culture-sensitive comparison in .NET; the model orders names by ordinal character order.
- Compilation.MappingCompiler.Compile: the compilers call `instructions.GetActions()` on the instructions interface, whose implementations for the wrapped instructions are not part of this model; the call is taken to return the actions the instructions hold (`instructions.actions`). The same holds for Compilation.PersistenceMappingCompiler.BuildMappings.
- The instruction gatherer holds the base and extended models as the instructions they produce at the moment they are used, not as live references, and the derived and extended instruction merge is not part of this model.
- InstructionGathering.PersistenceInstructionGatherer.CreateInstructions: the instructions hold the value of the automapping instructions when they are created (`automapping.Value()`), where the source hands over the live `AutomappingInstructions` object; a source or configuration added to it afterwards is not seen. The same holds for InstructionGathering.PersistenceInstructionGatherer.GetInstructions.
- Mapping nodes are values: where the source shares one object between two places (a store copied by reference, a key filled after it was handed out), only the sharing the join builder's key shows is modelled.
- Loggers and diagnostics have no effect on results and are left out, apart from `LogSource` reporting itself once.
- `GetHashCode` is left out: it hashes list references while `Equals` compares contents, so no hash and equality agreement is claimed.
- The `Equals(object)` overloads' null and run-time type guards are left out; equality is stated on values of one node type.

## Findings

| source | as written | input that shows it | evidently intended | confidence | as-written member | corrected member |
|---|---|---|---|---|---|---|
| src/FluentNHibernate/Infrastructure/MappingCompiler.cs:19-23 | The constructor builds the ActionCompiler from `this.instructions` before that field is assigned, so the action compiler receives null instructions. | Any `AutomapAction` passed to `Compile`: reading the automapping instructions from the null instructions fails with a null reference. | Pass the `instructions` parameter, so automap actions read the compiler's own instructions. | not executed | Compilation.NullInstructionsFailAutomap | Compilation.AutomapCompilesToAutomapper |
