/**
 * What the fluent builders share: the default access they record, the
 * columns they create by name, and the facts about a member's type that
 * decide its default mapping type.
 */
module BuilderSupport {
  import opened Wrappers
  import opened TypeGraphs
  import opened AttributeStores
  import opened MappingModel
  import opened NodeOperations

  /** The access strategy `MemberAccessResolver` resolves for a member. */
  datatype Access = AccessUnset | AccessProperty | AccessOther(text: string)

  /** Facts about a member's type that the reflection helpers answer. */
  datatype TypeFacts = TypeFacts(isEnum: bool, isNullable: bool, genericArgument: TypeId)

  /**
   * `SetDefaultAccess`: property access is NHibernate's default, so only
   * another resolved access is recorded, and only at the Defaults layer.
   */
  function WithDefaultAccess(s: Store, access: Access): (r: Store)
    ensures access.AccessProperty? || access.AccessUnset? ==> r == s
    ensures access.AccessOther? ==> Slot(r, "Access", Defaults) == Some(Text(access.text))
    ensures forall a, k :: (a != "Access" || k != Defaults) ==> Slot(r, a, k) == Slot(s, a, k)
  {
    if access.AccessProperty? || access.AccessUnset? then s
    else Put(s, "Access", Defaults, Text(access.text))
  }

  /**
   * A fresh builder reports an access attribute exactly when the resolved
   * access is not the default one, and an access the user chooses later
   * always replaces it.
   */
  lemma DefaultAccessLosesToUserAccess(access: Access, chosen: string)
    ensures Lookup(WithDefaultAccess(map[], access), "Access").Some? <==> access.AccessOther?
    ensures Lookup(Put(WithDefaultAccess(map[], access), "Access", UserSupplied, Text(chosen)), "Access")
            == Some(Text(chosen))
  {
    var s := WithDefaultAccess(map[], access);
    if access.AccessOther? {
      assert Defaults in LayersOf(s, "Access");
    } else {
      assert LayersOf(s, "Access") == map[];
    }
    assert forall k :: k in LayersOf(s, "Access") ==> k == Defaults;
    LookupAfterPut(s, "Access", UserSupplied, Text(chosen));
  }

  /** `Columns.Add(name)`: a new column whose Name is user-supplied. */
  function UserColumn(name: string): (c: ColumnMapping)
    ensures Lookup(c.store, "Name") == Some(Text(name))
    ensures forall a :: a != "Name" ==> Lookup(c.store, a).None?
    ensures c.member.None?
  {
    var empty: Store := map[];
    LookupAfterPut(empty, "Name", UserSupplied, Text(name));
    ColumnMapping(Put(empty, "Name", UserSupplied, Text(name)), None)
  }

  /**
   * A column over a copy of a builder's column attributes, named at the
   * Defaults layer: a name the attributes already hold above Defaults wins,
   * and every other attribute reads as the builder recorded it.
   */
  function NamedColumnOver(s: Store, name: string): (c: ColumnMapping)
    ensures Lookup(c.store, "Name") == if forall k :: k in LayersOf(s, "Name") ==> k <= Defaults
                                        then Some(Text(name)) else Lookup(s, "Name")
    ensures forall a :: a != "Name" ==> Lookup(c.store, a) == Lookup(s, a)
    ensures c.member.None?
  {
    SetColumn(ColumnMapping(s, None), "Name", Defaults, Text(name))
  }

  /** Over an empty store, naming a column at Defaults is `new ColumnMapping(name)`. */
  lemma NamedColumnOverEmpty(name: string)
    ensures NamedColumnOver(map[], name) == NamedColumn(name)
  {
  }

  /**
   * Some builders and convention instances assign node attributes through
   * plain property assignments; the model records those as writes at this
   * layer.
   */
  const AssignedLayer: int := UserSupplied

  /**
   * The visible columns of a defaultable list replaced by `cs`, which is
   * how changing every enumerated column in place looks on a value.
   */
  function WithVisible(l: ColumnList, cs: seq<ColumnMapping>): (r: ColumnList)
    requires |cs| == |Columns(l)|
    ensures Columns(r) == cs
    ensures l.userDefined != [] ==> r.defaults == l.defaults
    ensures l.userDefined == [] ==> r.userDefined == []
  {
    if l.userDefined != [] then l.(userDefined := cs) else l.(defaults := cs)
  }

  /** A write leaves every other attribute's layers as they were. */
  lemma PutKeepsOtherLayers<V>(s: Layered<V>, attr: string, layer: int, v: V, other: string)
    requires other != attr
    ensures LayersOf(Put(s, attr, layer, v), other) == LayersOf(s, other)
  {
  }
}
