/**
 * The part of the .NET type system the mapping core consults: every type has
 * a base type, a set of implemented interfaces, and may itself be an
 * interface; and generic types have a definition.
 * `object` is the sink of every base-type chain.
 */
module TypeGraphs {
  import opened Wrappers

  /** A runtime type, by identity. */
  type TypeId = nat

  /** `typeof(object)` */
  const Object: TypeId := 0

  datatype TypeGraph = TypeGraph(
    baseOf: TypeId -> TypeId,
    interfacesOf: TypeId -> set<TypeId>,
    isInterface: TypeId -> bool,
    isGeneric: TypeId -> bool,
    genericDefinitionOf: TypeId -> TypeId,
    isAbstract: TypeId -> bool)

  /**
   * Base-type chains are finite and end at `object`: numbering types so that
   * every base type precedes its subtypes gives each walk up the chain a
   * decreasing measure.
   */
  ghost predicate WellFormed(g: TypeGraph)
  {
    forall t: TypeId :: t != Object ==> g.baseOf(t) < t
  }

  /** `type.HasInterface(i)`: the interface is among those the type implements. */
  predicate HasInterface(g: TypeGraph, t: TypeId, i: TypeId)
  {
    i in g.interfacesOf(t)
  }

  /** `ancestor` is `t` itself or lies on its base-type chain. */
  predicate IsAncestorOrSelf(g: TypeGraph, ancestor: TypeId, t: TypeId)
    requires WellFormed(g)
    decreases t
  {
    t == ancestor || (t != Object && IsAncestorOrSelf(g, ancestor, g.baseOf(t)))
  }

  /** `type.BaseType`: none for `object` and for interfaces. */
  function BaseType(g: TypeGraph, t: TypeId): (r: Option<TypeId>)
    ensures r.Some? ==> r.value == g.baseOf(t) && t != Object
  {
    if t == Object || g.isInterface(t) then None else Some(g.baseOf(t))
  }
}
