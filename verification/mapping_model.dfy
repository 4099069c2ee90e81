/**
 * The mapping model: the tree of mapping nodes (class, subclass, component,
 * collection, id, property, key, column, ...) that the fluent builders and the
 * automapper produce and the visitors walk.
 *
 * Every node keeps its attributes in a layered attribute store.  Child nodes
 * that the source keeps in the store (a class's Id, Cache, Version and
 * Discriminator, a collection's Key, Index and Relationship, a joined
 * subclass's Key, an id's Generator) are store values here too.  Other
 * children (column lists, filters, keys of a composite id, meta values) are
 * fields, as in the source.  Nodes are values: an operation that changes a
 * node in place is a function from the old node to the new one.
 */
module MappingModel {
  import opened Wrappers
  import opened TypeGraphs
  import opened AttributeStores
  import SeparateSubclass

  /**
   * The two layers of the attribute store the model writes at.  Only their
   * order is used: a value supplied by the user overrides a default.
   */
  const Defaults: int := 0
  const UserSupplied: int := 1

  /** A member of an entity: its name, the type declaring it and its own type. */
  datatype Member = Member(name: string, declaringType: TypeId, propertyType: TypeId)

  /**
   * `TypeReference`: a type, a type given by name, or the closed generic
   * `GenericEnumMapper<E>` over an enum type.
   */
  datatype TypeReference = TypeRefOf(ty: TypeId) | TypeRefNamed(typeName: string) | GenericEnumMapperOf(enumType: TypeId)

  /** The exceptions the model's reads and casts can raise. */
  datatype Fault = NullReference | InvalidCast(target: string) | NotImplemented

  /** Nodes whose classes are not part of this model; they are visited as one opaque step. */
  datatype UnseenKind = NaturalIdNode | TuplizerNode | ElementNode | CompositeElementNode | OneToManyNode

  /** A value held in an attribute store. */
  datatype Value =
    | Text(text: string)
    | Flag(flag: bool)
    | Number(number: int)
    | TypeValue(ty: TypeId)
    | TypeRef(ref: TypeReference)
    | GeneratorChild(generator: GeneratorMapping)
    | IdentityChild(identity: IdentityMapping)
    | KeyChild(key: KeyMapping)
    | CacheChild(cache: CacheMapping)
    | VersionChild(version: VersionMapping)
    | DiscriminatorChild(discriminator: DiscriminatorMapping)
    | IndexChild(index: IndexNode)
    | RelationshipChild(relationship: Relationship)
    | UnseenChild(kind: UnseenKind, id: nat)

  type Store = Layered<Value>

  /** ColumnMapping */
  datatype ColumnMapping = ColumnMapping(store: Store, member: Option<Member>)

  /**
   * A defaultable list of columns: the columns the user defined and the
   * default columns.  Enumerating it yields the user-defined columns when
   * there are any, and the defaults otherwise.
   */
  datatype ColumnList = ColumnList(userDefined: seq<ColumnMapping>, defaults: seq<ColumnMapping>)

  /** FilterMapping, by its own store. */
  datatype FilterMapping = FilterMapping(store: Store)

  /** GeneratorMapping */
  datatype GeneratorMapping = GeneratorMapping(store: Store, params: map<string, string>, containingEntityType: Option<TypeId>)

  /** KeyMapping */
  datatype KeyMapping = KeyMapping(store: Store, columns: ColumnList, containingEntityType: Option<TypeId>)

  /** CacheMapping */
  datatype CacheMapping = CacheMapping(store: Store, containedEntityType: Option<TypeId>)

  /** The store and columns shared by id, property, discriminator and version mappings. */
  datatype ColumnBased = ColumnBased(store: Store, columns: ColumnList)

  /** IdMapping */
  datatype IdMapping = IdMapping(base: ColumnBased, member: Option<Member>, containingEntityType: Option<TypeId>)

  /** KeyPropertyMapping: a fresh store and a plain list of columns. */
  datatype KeyPropertyMapping = KeyPropertyMapping(store: Store, columns: seq<ColumnMapping>, containingEntityType: Option<TypeId>)

  /** KeyManyToOneMapping: a fresh store and a plain list of columns. */
  datatype KeyManyToOneMapping = KeyManyToOneMapping(store: Store, columns: seq<ColumnMapping>, containingEntityType: Option<TypeId>)

  /** ICompositeIdKeyMapping */
  datatype CompositeKey = KeyProperty(property: KeyPropertyMapping) | KeyManyToOne(manyToOne: KeyManyToOneMapping)

  /** CompositeIdMapping */
  datatype CompositeIdMapping = CompositeIdMapping(store: Store, keys: seq<CompositeKey>, containingEntityType: Option<TypeId>)

  /** IIdentityMapping */
  datatype IdentityMapping = Id(id: IdMapping) | CompositeId(compositeId: CompositeIdMapping)

  /** PropertyMapping */
  datatype PropertyMapping = PropertyMapping(base: ColumnBased, containingEntityType: Option<TypeId>, member: Option<Member>)

  /** DiscriminatorMapping */
  datatype DiscriminatorMapping = DiscriminatorMapping(base: ColumnBased, containingEntityType: Option<TypeId>)

  /** VersionMapping */
  datatype VersionMapping = VersionMapping(base: ColumnBased, containingEntityType: Option<TypeId>)

  /** ManyToOneMapping; `otherSide` names the paired relationship, if any. */
  datatype ManyToOneMapping = ManyToOneMapping(store: Store, columns: ColumnList, containingEntityType: Option<TypeId>,
                                               member: Option<Member>, otherSide: Option<nat>)

  /** OneToOneMapping */
  datatype OneToOneMapping = OneToOneMapping(store: Store, containingEntityType: Option<TypeId>)

  /** MetaValueMapping */
  datatype MetaValueMapping = MetaValueMapping(store: Store, containingEntityType: Option<TypeId>)

  /** AnyMapping: two separate column lists and a list of meta values. */
  datatype AnyMapping = AnyMapping(store: Store, typeColumns: ColumnList, identifierColumns: ColumnList,
                                   metaValues: seq<MetaValueMapping>, containingEntityType: Option<TypeId>)

  /** ManyToManyMapping */
  datatype ManyToManyMapping = ManyToManyMapping(store: Store, columns: ColumnList, childFilters: seq<FilterMapping>,
                                                 containingEntityType: Option<TypeId>)

  /** IndexManyToManyMapping */
  datatype IndexManyToManyMapping = IndexManyToManyMapping(store: Store, columns: ColumnList, containingEntityType: Option<TypeId>)

  /** IndexMapping, as the index builder fills it. */
  datatype IndexMapping = IndexMapping(store: Store, columns: ColumnList, containingEntityType: Option<TypeId>)

  /** IIndexMapping */
  datatype IndexNode = PlainIndex(plain: IndexMapping) | ManyToManyIndex(manyToMany: IndexManyToManyMapping)

  /** ICollectionRelationshipMapping */
  datatype Relationship = ManyToManyRelationship(manyToMany: ManyToManyMapping) | OneToManyRelationship(id: nat)

  /** Collection */
  datatype CollectionKind = Array | Bag | List | Map | Set

  /** CollectionMapping; `otherSide` names the paired relationship, if any. */
  datatype CollectionMapping = CollectionMapping(kind: CollectionKind, store: Store, filters: seq<FilterMapping>,
                                                 containingEntityType: Option<TypeId>, member: Option<Member>,
                                                 otherSide: Option<nat>)

  /** The members, joins and subclasses every class-like mapping shares, which this model keeps opaque. */
  datatype ClassBody = ClassBody(id: nat)

  /** ClassMapping */
  datatype ClassMapping = ClassMapping(store: Store, body: ClassBody)

  /** SubclassMapping */
  datatype SubclassMapping = SubclassMapping(kind: SeparateSubclass.SubclassKind, store: Store, body: ClassBody)

  /** ComponentType */
  datatype ComponentType = Component | DynamicComponent

  /** ComponentMapping; `columnPrefix` is a plain field outside the store. */
  datatype ComponentMapping = ComponentMapping(componentType: ComponentType, store: Store, columnPrefix: Option<string>,
                                               body: ClassBody)

  /** A member mapped inside a join, in the order it was added. */
  datatype JoinChild =
    | JoinProperty(property: PropertyMapping)
    | JoinComponent(component: ComponentMapping)
    | JoinReference(reference: ManyToOneMapping)
    | JoinAny(any: AnyMapping)
    | JoinCollection(collection: CollectionMapping)

  /** JoinMapping: its own store (TableName, Key, ...) and the members mapped in the joined table. */
  datatype JoinMapping = JoinMapping(store: Store, containingEntityType: Option<TypeId>, children: seq<JoinChild>)

  // ---------------------------------------------------------------------
  // Typed reads

  /** A string-valued attribute: null (`None`) when it has no value of that kind. */
  function TextOf(s: Store, attr: string): (r: Option<string>)
    ensures r.Some? <==> Lookup(s, attr).Some? && Lookup(s, attr).value.Text?
    ensures r.Some? ==> Lookup(s, attr) == Some(Text(r.value))
  {
    match Lookup<Value>(s, attr)
    case Some(Text(t)) => Some(t)
    case _ => None
  }

  /** A bool attribute read through the typed store: `false`, the type's default, when unset. */
  function FlagOf(s: Store, attr: string): (r: bool)
    ensures Lookup(s, attr).None? ==> !r
    ensures r <==> Lookup(s, attr) == Some(Flag(true))
  {
    match Lookup<Value>(s, attr)
    case Some(Flag(b)) => b
    case _ => false
  }

  /**
   * A bool attribute read through the string-keyed store and unboxed:
   * reading one that was never set fails with a null reference, and one of
   * another kind fails the cast.
   */
  function UnboxedFlag(s: Store, attr: string): (r: Result<bool, Fault>)
    ensures r == Err(NullReference) <==> Lookup(s, attr).None?
    ensures r.Ok? <==> Lookup(s, attr).Some? && Lookup(s, attr).value.Flag?
    ensures r.Ok? ==> Lookup(s, attr) == Some(Flag(r.value))
  {
    match Lookup<Value>(s, attr)
    case None => Err(NullReference)
    case Some(Flag(b)) => Ok(b)
    case Some(_) => Err(InvalidCast("bool"))
  }

  /** A type attribute: null when unset. */
  function TypeOf(s: Store, attr: string): (r: Option<TypeId>)
    ensures r.Some? ==> Lookup(s, attr) == Some(TypeValue(r.value))
  {
    match Lookup<Value>(s, attr)
    case Some(TypeValue(t)) => Some(t)
    case _ => None
  }

  /** The store's top value for `attr`, overwritten in place: the slot it came from receives `v`. */
  function ReplaceTop(s: Store, attr: string, v: Value): (r: Store)
    requires Lookup(s, attr).Some?
    ensures Lookup(r, attr) == Some(v)
    ensures forall b :: b != attr ==> Lookup(r, b) == Lookup(s, b)
  {
    var layers := LayersOf(s, attr);
    var top := TopLayer(layers.Keys);
    LookupAfterPut(s, attr, top, v);
    Put(s, attr, top, v)
  }

  // ---------------------------------------------------------------------
  // Stored children

  function GeneratorOf(i: IdMapping): Option<GeneratorMapping>
  {
    match Lookup<Value>(i.base.store, "Generator")
    case Some(GeneratorChild(g)) => Some(g)
    case _ => None
  }

  function IdOf(c: ClassMapping): Option<IdentityMapping>
  {
    match Lookup<Value>(c.store, "Id")
    case Some(IdentityChild(i)) => Some(i)
    case _ => None
  }

  function NaturalIdOf(c: ClassMapping): Option<nat>
  {
    match Lookup<Value>(c.store, "NaturalId")
    case Some(UnseenChild(NaturalIdNode, n)) => Some(n)
    case _ => None
  }

  function DiscriminatorOf(c: ClassMapping): Option<DiscriminatorMapping>
  {
    match Lookup<Value>(c.store, "Discriminator")
    case Some(DiscriminatorChild(d)) => Some(d)
    case _ => None
  }

  function ClassCacheOf(c: ClassMapping): Option<CacheMapping>
  {
    match Lookup<Value>(c.store, "Cache")
    case Some(CacheChild(x)) => Some(x)
    case _ => None
  }

  function VersionOf(c: ClassMapping): Option<VersionMapping>
  {
    match Lookup<Value>(c.store, "Version")
    case Some(VersionChild(v)) => Some(v)
    case _ => None
  }

  function TuplizerOf(c: ClassMapping): Option<nat>
  {
    match Lookup<Value>(c.store, "Tuplizer")
    case Some(UnseenChild(TuplizerNode, n)) => Some(n)
    case _ => None
  }

  function SubclassKeyOf(s: SubclassMapping): Option<KeyMapping>
  {
    match Lookup<Value>(s.store, "Key")
    case Some(KeyChild(k)) => Some(k)
    case _ => None
  }

  function CollectionKeyOf(c: CollectionMapping): Option<KeyMapping>
  {
    match Lookup<Value>(c.store, "Key")
    case Some(KeyChild(k)) => Some(k)
    case _ => None
  }

  function IndexOf(c: CollectionMapping): Option<IndexNode>
  {
    match Lookup<Value>(c.store, "Index")
    case Some(IndexChild(x)) => Some(x)
    case _ => None
  }

  function ElementOf(c: CollectionMapping): Option<nat>
  {
    match Lookup<Value>(c.store, "Element")
    case Some(UnseenChild(ElementNode, n)) => Some(n)
    case _ => None
  }

  function CompositeElementOf(c: CollectionMapping): Option<nat>
  {
    match Lookup<Value>(c.store, "CompositeElement")
    case Some(UnseenChild(CompositeElementNode, n)) => Some(n)
    case _ => None
  }

  function RelationshipOf(c: CollectionMapping): Option<Relationship>
  {
    match Lookup<Value>(c.store, "Relationship")
    case Some(RelationshipChild(r)) => Some(r)
    case _ => None
  }

  function CollectionCacheOf(c: CollectionMapping): Option<CacheMapping>
  {
    match Lookup<Value>(c.store, "Cache")
    case Some(CacheChild(x)) => Some(x)
    case _ => None
  }
}
