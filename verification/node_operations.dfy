/**
 * The operations that change a mapping node: adding and clearing columns,
 * adding filters, keys and meta values, writing an attribute at a layer, and
 * the constructors and factories that fix a node's initial state.
 */
module NodeOperations {
  import opened Wrappers
  import opened TypeGraphs
  import opened AttributeStores
  import opened MappingModel
  import SeparateSubclass

  // ---------------------------------------------------------------------
  // Defaultable column lists

  const NoColumns: ColumnList := ColumnList([], [])

  /** Enumerating a defaultable list: the user-defined columns hide the defaults. */
  function Columns(l: ColumnList): seq<ColumnMapping>
  {
    if l.userDefined != [] then l.userDefined else l.defaults
  }

  /** `Add`: one more user-defined column, which hides every default. */
  function AddUserColumn(l: ColumnList, c: ColumnMapping): (r: ColumnList)
    ensures Columns(r) == l.userDefined + [c]
    ensures r.defaults == l.defaults
  {
    l.(userDefined := l.userDefined + [c])
  }

  /** `AddDefault`: one more default column, visible only while no user column exists. */
  function AddDefaultColumnTo(l: ColumnList, c: ColumnMapping): (r: ColumnList)
    ensures r.userDefined == l.userDefined
    ensures Columns(r) == if l.userDefined == [] then l.defaults + [c] else l.userDefined
  {
    l.(defaults := l.defaults + [c])
  }

  /** `Clear`: the user-defined columns go, so the defaults show again. */
  function ClearUserColumns(l: ColumnList): (r: ColumnList)
    ensures r.userDefined == [] && r.defaults == l.defaults
    ensures Columns(r) == l.defaults
  {
    l.(userDefined := [])
  }

  /** `ClearAll`: both kinds of column go. */
  function ClearAllColumns(l: ColumnList): (r: ColumnList)
    ensures Columns(r) == []
  {
    NoColumns
  }

  predicate Distinct(cs: seq<ColumnMapping>)
  {
    forall i, j :: 0 <= i < j < |cs| ==> cs[i] != cs[j]
  }

  // ---------------------------------------------------------------------
  // ColumnMapping

  /** `new ColumnMapping(name)`: a fresh store holding only Name, at the Defaults layer. */
  function NamedColumn(name: string): (c: ColumnMapping)
    ensures Lookup(c.store, "Name") == Some(Text(name))
    ensures forall a, k :: Slot(c.store, a, k) == if a == "Name" && k == Defaults then Some(Text(name)) else None
    ensures c.member.None?
  {
    var empty: Store := map[];
    LookupAfterPut(empty, "Name", Defaults, Text(name));
    ColumnMapping(Put(empty, "Name", Defaults, Text(name)), None)
  }

  /** `ColumnMapping.Set`: writes through to the store; the getters read the top layer back. */
  function SetColumn(c: ColumnMapping, attr: string, layer: int, v: Value): (r: ColumnMapping)
    ensures r.member == c.member
    ensures Slot(r.store, attr, layer) == Some(v)
    ensures Lookup(r.store, attr) == if forall k :: k in LayersOf(c.store, attr) ==> k <= layer then Some(v) else Lookup(c.store, attr)
    ensures forall b :: b != attr ==> Lookup(r.store, b) == Lookup(c.store, b)
  {
    LookupAfterPut(c.store, attr, layer, v);
    c.(store := Put(c.store, attr, layer, v))
  }

  /** `Clone`: a column over a copy of the store; the member is not carried over. */
  function CloneColumn(c: ColumnMapping): (r: ColumnMapping)
    ensures r.store == c.store
    ensures r.member.None?
  {
    CopyIntoEmpty(c.store);
    ColumnMapping(CopyInto(c.store, map[]), None)
  }

  // ---------------------------------------------------------------------
  // KeyMapping: adding de-duplicates, clearing removes both kinds

  function KeyAddColumn(k: KeyMapping, c: ColumnMapping): (r: KeyMapping)
    ensures c in Columns(k.columns) ==> r == k
    ensures c !in Columns(k.columns) ==> r == k.(columns := AddUserColumn(k.columns, c))
    ensures c in Columns(r.columns)
  {
    if c in Columns(k.columns) then k else k.(columns := AddUserColumn(k.columns, c))
  }

  function KeyAddDefaultColumn(k: KeyMapping, c: ColumnMapping): (r: KeyMapping)
    ensures c in Columns(k.columns) ==> r == k
    ensures c !in Columns(k.columns) ==> r == k.(columns := AddDefaultColumnTo(k.columns, c))
  {
    if c in Columns(k.columns) then k else k.(columns := AddDefaultColumnTo(k.columns, c))
  }

  function KeyClearColumns(k: KeyMapping): (r: KeyMapping)
    ensures Columns(r.columns) == [] && r.columns == NoColumns
    ensures r.store == k.store && r.containingEntityType == k.containingEntityType
  {
    k.(columns := ClearAllColumns(k.columns))
  }

  /** A key never shows the same column twice: both ways of adding keep the visible columns distinct. */
  lemma KeyColumnsStayDistinct(k: KeyMapping, c: ColumnMapping)
    requires Distinct(Columns(k.columns))
    ensures Distinct(Columns(KeyAddColumn(k, c).columns))
    ensures Distinct(Columns(KeyAddDefaultColumn(k, c).columns))
  {
    if c !in Columns(k.columns) {
      if k.columns.userDefined == [] {
        assert Columns(k.columns) == k.columns.defaults;
      } else {
        assert Columns(k.columns) == k.columns.userDefined;
      }
    }
  }

  /** Adding the same column to a key twice is the same as adding it once. */
  lemma KeyAddColumnIdempotent(k: KeyMapping, c: ColumnMapping)
    ensures KeyAddColumn(KeyAddColumn(k, c), c) == KeyAddColumn(k, c)
  {
  }

  // ---------------------------------------------------------------------
  // ManyToManyMapping and IndexManyToManyMapping: Add, AddDefault, Clear

  function ManyToManyAddColumn(m: ManyToManyMapping, c: ColumnMapping): (r: ManyToManyMapping)
    ensures Columns(r.columns) == m.columns.userDefined + [c]
    ensures r.(columns := m.columns) == m
  {
    m.(columns := AddUserColumn(m.columns, c))
  }

  function ManyToManyAddDefaultColumn(m: ManyToManyMapping, c: ColumnMapping): (r: ManyToManyMapping)
    ensures r.columns.defaults == m.columns.defaults + [c] && r.columns.userDefined == m.columns.userDefined
    ensures r.(columns := m.columns) == m
  {
    m.(columns := AddDefaultColumnTo(m.columns, c))
  }

  function ManyToManyClearColumns(m: ManyToManyMapping): (r: ManyToManyMapping)
    ensures Columns(r.columns) == m.columns.defaults
    ensures r.(columns := m.columns) == m
  {
    m.(columns := ClearUserColumns(m.columns))
  }

  function IndexManyToManyAddColumn(m: IndexManyToManyMapping, c: ColumnMapping): (r: IndexManyToManyMapping)
    ensures Columns(r.columns) == m.columns.userDefined + [c]
    ensures r.(columns := m.columns) == m
  {
    m.(columns := AddUserColumn(m.columns, c))
  }

  function IndexManyToManyAddDefaultColumn(m: IndexManyToManyMapping, c: ColumnMapping): (r: IndexManyToManyMapping)
    ensures r.columns.defaults == m.columns.defaults + [c] && r.columns.userDefined == m.columns.userDefined
    ensures r.(columns := m.columns) == m
  {
    m.(columns := AddDefaultColumnTo(m.columns, c))
  }

  function IndexManyToManyClearColumns(m: IndexManyToManyMapping): (r: IndexManyToManyMapping)
    ensures Columns(r.columns) == m.columns.defaults
    ensures r.(columns := m.columns) == m
  {
    m.(columns := ClearUserColumns(m.columns))
  }

  /**
   * Clearing the columns of a many-to-many keeps its defaults, so a
   * default column added earlier shows again; clearing a key's columns
   * leaves nothing.
   */
  lemma ClearKeepsDefaultsOnlyForManyToMany(m: ManyToManyMapping, k: KeyMapping, d: ColumnMapping, u: ColumnMapping)
    ensures Columns(ManyToManyClearColumns(ManyToManyAddColumn(ManyToManyAddDefaultColumn(m, d), u)).columns)
            == m.columns.defaults + [d]
    ensures Columns(KeyClearColumns(KeyAddColumn(KeyAddDefaultColumn(k, d), u)).columns) == []
  {
  }

  // ---------------------------------------------------------------------
  // ManyToOneMapping: Add, AddDefault, ClearAll, Set

  function ManyToOneAddColumn(m: ManyToOneMapping, c: ColumnMapping): (r: ManyToOneMapping)
    ensures Columns(r.columns) == m.columns.userDefined + [c]
    ensures r.columns.defaults == m.columns.defaults
    ensures r.(columns := m.columns) == m
  {
    m.(columns := AddUserColumn(m.columns, c))
  }

  function ManyToOneAddDefaultColumn(m: ManyToOneMapping, c: ColumnMapping): (r: ManyToOneMapping)
    ensures r.columns.defaults == m.columns.defaults + [c] && r.columns.userDefined == m.columns.userDefined
    ensures r.(columns := m.columns) == m
  {
    m.(columns := AddDefaultColumnTo(m.columns, c))
  }

  function ManyToOneClearColumns(m: ManyToOneMapping): (r: ManyToOneMapping)
    ensures r.columns == NoColumns && Columns(r.columns) == []
    ensures r.(columns := m.columns) == m
  {
    m.(columns := ClearAllColumns(m.columns))
  }

  function ManyToOneSet(m: ManyToOneMapping, attr: string, layer: int, v: Value): (r: ManyToOneMapping)
    ensures Slot(r.store, attr, layer) == Some(v)
    ensures forall b, k :: (b != attr || k != layer) ==> Slot(r.store, b, k) == Slot(m.store, b, k)
    ensures r.(store := m.store) == m
  {
    m.(store := Put(m.store, attr, layer, v))
  }

  // ---------------------------------------------------------------------
  // AnyMapping: each add touches its own list only

  function AnyAddTypeColumn(a: AnyMapping, c: ColumnMapping): (r: AnyMapping)
    ensures Columns(r.typeColumns) == a.typeColumns.userDefined + [c]
    ensures r.(typeColumns := a.typeColumns) == a
  {
    a.(typeColumns := AddUserColumn(a.typeColumns, c))
  }

  function AnyAddTypeDefaultColumn(a: AnyMapping, c: ColumnMapping): (r: AnyMapping)
    ensures r.typeColumns.defaults == a.typeColumns.defaults + [c]
    ensures r.(typeColumns := a.typeColumns) == a
  {
    a.(typeColumns := AddDefaultColumnTo(a.typeColumns, c))
  }

  function AnyAddIdentifierColumn(a: AnyMapping, c: ColumnMapping): (r: AnyMapping)
    ensures Columns(r.identifierColumns) == a.identifierColumns.userDefined + [c]
    ensures r.(identifierColumns := a.identifierColumns) == a
  {
    a.(identifierColumns := AddUserColumn(a.identifierColumns, c))
  }

  function AnyAddIdentifierDefaultColumn(a: AnyMapping, c: ColumnMapping): (r: AnyMapping)
    ensures r.identifierColumns.defaults == a.identifierColumns.defaults + [c]
    ensures r.(identifierColumns := a.identifierColumns) == a
  {
    a.(identifierColumns := AddDefaultColumnTo(a.identifierColumns, c))
  }

  function AnyAddMetaValue(a: AnyMapping, mv: MetaValueMapping): (r: AnyMapping)
    ensures r.metaValues == a.metaValues + [mv]
    ensures r.(metaValues := a.metaValues) == a
  {
    a.(metaValues := a.metaValues + [mv])
  }

  function AnySet(a: AnyMapping, attr: string, layer: int, v: Value): (r: AnyMapping)
    ensures Slot(r.store, attr, layer) == Some(v)
    ensures forall b, k :: (b != attr || k != layer) ==> Slot(r.store, b, k) == Slot(a.store, b, k)
    ensures r.(store := a.store) == a
  {
    a.(store := Put(a.store, attr, layer, v))
  }

  // ---------------------------------------------------------------------
  // MetaValueMapping, GeneratorMapping

  /** `new MetaValueMapping()`: a fresh store. */
  function NewMetaValue(): (r: MetaValueMapping)
    ensures r.store == map[] && r.containingEntityType.None?
  {
    MetaValueMapping(map[], None)
  }

  function MetaValueSet(mv: MetaValueMapping, attr: string, layer: int, v: Value): (r: MetaValueMapping)
    ensures Slot(r.store, attr, layer) == Some(v)
    ensures forall b, k :: (b != attr || k != layer) ==> Slot(r.store, b, k) == Slot(mv.store, b, k)
    ensures r.containingEntityType == mv.containingEntityType
  {
    mv.(store := Put(mv.store, attr, layer, v))
  }

  /** `new GeneratorMapping()`: a fresh store and an empty parameter dictionary. */
  function NewGenerator(): (r: GeneratorMapping)
    ensures r.params == map[] && r.store == map[]
  {
    GeneratorMapping(map[], map[], None)
  }

  // ---------------------------------------------------------------------
  // Composite ids and their keys: plain appends, no de-duplication

  function CompositeIdAddKey(c: CompositeIdMapping, key: CompositeKey): (r: CompositeIdMapping)
    ensures r.keys == c.keys + [key]
    ensures r.(keys := c.keys) == c
  {
    c.(keys := c.keys + [key])
  }

  function KeyPropertyAddColumn(k: KeyPropertyMapping, c: ColumnMapping): (r: KeyPropertyMapping)
    ensures r.columns == k.columns + [c]
    ensures r.(columns := k.columns) == k
  {
    k.(columns := k.columns + [c])
  }

  function KeyManyToOneAddColumn(k: KeyManyToOneMapping, c: ColumnMapping): (r: KeyManyToOneMapping)
    ensures r.columns == k.columns + [c]
    ensures r.(columns := k.columns) == k
  {
    k.(columns := k.columns + [c])
  }

  /** Unlike a key, the keys of a composite id keep a column added twice. */
  lemma KeysKeepRepeatedColumns(p: KeyPropertyMapping, m: KeyManyToOneMapping, c: ColumnMapping)
    ensures KeyPropertyAddColumn(KeyPropertyAddColumn(p, c), c).columns == p.columns + [c, c]
    ensures KeyManyToOneAddColumn(KeyManyToOneAddColumn(m, c), c).columns == m.columns + [c, c]
  {
  }

  // ---------------------------------------------------------------------
  // Column-based mappings (id, property, discriminator, version)

  function ColumnBasedAddColumn(b: ColumnBased, c: ColumnMapping): (r: ColumnBased)
    ensures Columns(r.columns) == b.columns.userDefined + [c]
    ensures r.store == b.store
  {
    b.(columns := AddUserColumn(b.columns, c))
  }

  function ColumnBasedAddDefaultColumn(b: ColumnBased, c: ColumnMapping): (r: ColumnBased)
    ensures r.columns.defaults == b.columns.defaults + [c] && r.columns.userDefined == b.columns.userDefined
    ensures r.store == b.store
  {
    b.(columns := AddDefaultColumnTo(b.columns, c))
  }

  /** `Set(x => x.P, layer, value)`: the value goes under the selected member's name. */
  function ColumnBasedSet(b: ColumnBased, e: MemberExpression, layer: int, v: Value): (r: ColumnBased)
    ensures Slot(r.store, e.name, layer) == Some(v)
    ensures forall a, k :: (a != e.name || k != layer) ==> Slot(r.store, a, k) == Slot(b.store, a, k)
    ensures r.columns == b.columns
  {
    b.(store := Put(b.store, AttributeName(e), layer, v))
  }

  // ---------------------------------------------------------------------
  // Collections

  /** `CollectionMapping.For(kind, store)` and the Array/Bag/List/Map/Set factories. */
  function NewCollection(kind: CollectionKind, store: Store): (r: CollectionMapping)
    ensures r.kind == kind && r.store == store
    ensures r.filters == [] && r.containingEntityType.None? && r.member.None? && r.otherSide.None?
  {
    CollectionMapping(kind, store, [], None, None, None)
  }

  function AddFilter(c: CollectionMapping, f: FilterMapping): (r: CollectionMapping)
    ensures r.filters == c.filters + [f]
    ensures r.(filters := c.filters) == c
  {
    c.(filters := c.filters + [f])
  }

  // ---------------------------------------------------------------------
  // Class, subclass and component mappings

  /** `new SubclassMapping(kind, store)`: the kind is fixed and the store wrapped. */
  function NewSubclass(kind: SeparateSubclass.SubclassKind, store: Store, body: ClassBody): (r: SubclassMapping)
    ensures r.kind == kind && r.store == store
  {
    SubclassMapping(kind, store, body)
  }

  /** `OverrideAttributes`: the whole store is replaced, so every read answers from the new one. */
  function OverrideAttributes(s: SubclassMapping, store: Store): (r: SubclassMapping)
    ensures forall a :: Lookup(r.store, a) == Lookup(store, a)
    ensures r.kind == s.kind && r.body == s.body
  {
    s.(store := store)
  }

  /** `SubclassMapping.ToString`: "Subclass(" + Type.Name + ")", failing when the Type is unset. */
  function SubclassName(s: SubclassMapping, nameOf: TypeId -> string): (r: Result<string, Fault>)
    ensures TypeOf(s.store, "Type").None? <==> r == Err(NullReference)
    ensures TypeOf(s.store, "Type").Some? ==> r == Ok("Subclass(" + nameOf(TypeOf(s.store, "Type").value) + ")")
  {
    match TypeOf(s.store, "Type")
    case None => Err(NullReference)
    case Some(t) => Ok("Subclass(" + nameOf(t) + ")")
  }

  /** `new ComponentMapping(type, store)`: the component type is recorded and the store wrapped. */
  function NewComponent(componentType: ComponentType, store: Store, body: ClassBody): (r: ComponentMapping)
    ensures r.componentType == componentType && r.store == store && r.columnPrefix.None?
  {
    ComponentMapping(componentType, store, None, body)
  }

  /** `HasColumnPrefix`: the prefix is neither null nor empty. */
  predicate HasColumnPrefix(c: ComponentMapping)
  {
    c.columnPrefix.Some? && c.columnPrefix.value != ""
  }

  lemma HasColumnPrefixExactly(c: ComponentMapping)
    ensures HasColumnPrefix(c) <==> exists p :: c.columnPrefix == Some(p) && |p| > 0
  {
    if c.columnPrefix.Some? && |c.columnPrefix.value| > 0 {
      assert c.columnPrefix.value != "";
    }
  }

  /** `ExternalComponentMapping.GetUsedMembers`: not implemented, always throws. */
  function ExternalComponentUsedMembers(c: ComponentMapping): (r: Result<seq<Member>, Fault>)
    ensures r.Err? && r.error == NotImplemented
  {
    Err(NotImplemented)
  }

  /** `ExternalComponentMapping.AddMappedMember`: not implemented, always throws. */
  function ExternalComponentAddMappedMember(c: ComponentMapping, m: Member): (r: Result<ComponentMapping, Fault>)
    ensures r.Err? && r.error == NotImplemented
  {
    Err(NotImplemented)
  }
}
