/**
 * PassThroughMappingProvider: a provider around a mapping that is already
 * built.  Every getter hands back the wrapped object cast to the kind the
 * caller asks for, and the cast fails when the object is of another kind.
 */
module PassThroughProviders {
  import opened Wrappers
  import opened Buckets
  import opened Documents
  import opened MappingActions
  import opened MappingModel
  import InstructionGathering
  import SeparateSubclass

  /** The object a pass-through provider wraps, by its run-time kind. */
  datatype Wrapped =
    | TopWrapped(top: TopMapping)
    | PropertyWrapped(property: PropertyMapping)
    | ManyToOneWrapped(manyToOne: ManyToOneMapping)
    | CollectionWrapped(collection: CollectionMapping)
    | CompositeElementWrapped(compositeElement: nat)
    | FilterWrapped(filter: FilterMapping)

  datatype PassThroughMappingProvider = PassThroughMappingProvider(mapping: Wrapped)

  /** `(ClassMapping)mapping` */
  function GetClassMapping(p: PassThroughMappingProvider): (r: Result<SeparateSubclass.ClassFragment, Fault>)
    ensures r.Ok? <==> p.mapping.TopWrapped? && p.mapping.top.ClassTop?
    ensures r.Ok? ==> p.mapping == TopWrapped(ClassTop(r.value))
    ensures r.Err? ==> r.error == InvalidCast("ClassMapping")
  {
    match p.mapping
    case TopWrapped(ClassTop(c)) => Ok(c)
    case _ => Err(InvalidCast("ClassMapping"))
  }

  /** `(ICollectionMapping)mapping` */
  function GetCollectionMapping(p: PassThroughMappingProvider): (r: Result<CollectionMapping, Fault>)
    ensures r.Ok? <==> p.mapping.CollectionWrapped?
    ensures r.Ok? ==> p.mapping == CollectionWrapped(r.value)
    ensures r.Err? ==> r.error == InvalidCast("ICollectionMapping")
  {
    match p.mapping
    case CollectionWrapped(c) => Ok(c)
    case _ => Err(InvalidCast("ICollectionMapping"))
  }

  /** `(ManyToOneMapping)mapping` */
  function GetManyToOneMapping(p: PassThroughMappingProvider): (r: Result<ManyToOneMapping, Fault>)
    ensures r.Ok? <==> p.mapping.ManyToOneWrapped?
    ensures r.Ok? ==> p.mapping == ManyToOneWrapped(r.value)
    ensures r.Err? ==> r.error == InvalidCast("ManyToOneMapping")
  {
    match p.mapping
    case ManyToOneWrapped(m) => Ok(m)
    case _ => Err(InvalidCast("ManyToOneMapping"))
  }

  /** `(CompositeElementMapping)mapping`; the composite element itself is not part of this model. */
  function GetCompositeElementMapping(p: PassThroughMappingProvider): (r: Result<nat, Fault>)
    ensures r.Ok? <==> p.mapping.CompositeElementWrapped?
    ensures r.Ok? ==> p.mapping == CompositeElementWrapped(r.value)
    ensures r.Err? ==> r.error == InvalidCast("CompositeElementMapping")
  {
    match p.mapping
    case CompositeElementWrapped(n) => Ok(n)
    case _ => Err(InvalidCast("CompositeElementMapping"))
  }

  /** `(PropertyMapping)mapping` */
  function GetPropertyMapping(p: PassThroughMappingProvider): (r: Result<PropertyMapping, Fault>)
    ensures r.Ok? <==> p.mapping.PropertyWrapped?
    ensures r.Ok? ==> p.mapping == PropertyWrapped(r.value)
    ensures r.Err? ==> r.error == InvalidCast("PropertyMapping")
  {
    match p.mapping
    case PropertyWrapped(m) => Ok(m)
    case _ => Err(InvalidCast("PropertyMapping"))
  }

  /** `(FilterMapping)mapping` */
  function GetFilterMapping(p: PassThroughMappingProvider): (r: Result<FilterMapping, Fault>)
    ensures r.Ok? <==> p.mapping.FilterWrapped?
    ensures r.Ok? ==> p.mapping == FilterWrapped(r.value)
    ensures r.Err? ==> r.error == InvalidCast("FilterMapping")
  {
    match p.mapping
    case FilterWrapped(f) => Ok(f)
    case _ => Err(InvalidCast("FilterMapping"))
  }

  /** `GetHibernateMapping()`: a new document, whatever is wrapped. */
  function GetHibernateMapping(p: PassThroughMappingProvider): (r: HibernateMapping)
    ensures r.classes == [] && r.filters == [] && r.imports == []
  {
    EmptyDocument
  }

  /** `GetIgnoredProperties()`: never any. */
  function GetIgnoredProperties(p: PassThroughMappingProvider): (r: seq<Member>)
    ensures |r| == 0
  {
    []
  }

  /** `GetAction()`: a manual action around the very mapping wrapped, which must be a top mapping. */
  function GetAction(p: PassThroughMappingProvider): (r: Result<MappingAction, Fault>)
    ensures r.Ok? <==> p.mapping.TopWrapped?
    ensures r.Ok? ==> r.value.ManualAction? && p.mapping == TopWrapped(GetMapping(r.value))
    ensures r.Err? ==> r.error == InvalidCast("ITopMapping")
  {
    match p.mapping
    case TopWrapped(m) => Ok(ManualAction(m))
    case _ => Err(InvalidCast("ITopMapping"))
  }

  /** How many of the typed getters, GetAction aside, succeed on a provider. */
  function SuccessfulGetters(p: PassThroughMappingProvider): nat
  {
    (if GetClassMapping(p).Ok? then 1 else 0) + (if GetCollectionMapping(p).Ok? then 1 else 0)
    + (if GetManyToOneMapping(p).Ok? then 1 else 0) + (if GetCompositeElementMapping(p).Ok? then 1 else 0)
    + (if GetPropertyMapping(p).Ok? then 1 else 0) + (if GetFilterMapping(p).Ok? then 1 else 0)
  }

  /**
   * Whatever is wrapped, at most one typed getter succeeds, and exactly one
   * does unless a top mapping other than a class is wrapped; GetAction
   * succeeds exactly for top mappings.
   */
  lemma AtMostOneGetterSucceeds(p: PassThroughMappingProvider)
    ensures SuccessfulGetters(p) <= 1
    ensures SuccessfulGetters(p) == 0 <==> p.mapping.TopWrapped? && !p.mapping.top.ClassTop?
    ensures GetClassMapping(p).Ok? ==> GetAction(p).Ok?
  {
  }

  /**
   * The provider as the gatherer sees it: around a top mapping, GetAction
   * yields the same manual action as the gatherer's pass-through provider.
   */
  lemma AgreesWithGatherer(m: TopMapping)
    ensures GetAction(PassThroughMappingProvider(TopWrapped(m)))
            == Ok(InstructionGathering.GetAction(InstructionGathering.PassThrough(m)))
  {
  }
}
