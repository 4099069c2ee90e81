/**
 * JoinPart: the fluent builder for a `<join>` of entity T to another table.
 * Its store starts with the table name and a key for T at the Defaults
 * layer; KeyColumn replaces the key column names it keeps; GetJoinMapping
 * fills the key's columns and appends the members the join's providers map.
 *
 * The built mapping's store is a copy of the builder's, but the KeyMapping in
 * both is one object: the columns GetJoinMapping adds to it are also seen by
 * the builder, and by any later build.
 */
module JoinParts {
  import opened Wrappers
  import opened TypeGraphs
  import opened AttributeStores
  import opened MappingModel
  import opened NodeOperations
  import opened BuilderSupport

  /** What the join's providers return, category by category, in the order they were added. */
  datatype JoinProviders = JoinProviders(properties: seq<PropertyMapping>, components: seq<ComponentMapping>,
                                         references: seq<ManyToOneMapping>, anys: seq<AnyMapping>,
                                         collections: seq<CollectionMapping>)

  /** The key the join's store holds, read through its top layer. */
  function JoinKeyOf(s: Store): Option<KeyMapping>
  {
    match Lookup<Value>(s, "Key")
    case Some(KeyChild(k)) => Some(k)
    case _ => None
  }

  /** The constructor's store: TableName and a key for T, both at Defaults. */
  function InitialJoinStore(tableName: string, entityType: TypeId): Store
  {
    var empty: Store := map[];
    Put(Put(empty, "TableName", Defaults, Text(tableName)), "Key", Defaults,
        KeyChild(KeyMapping(map[], NoColumns, Some(entityType))))
  }

  /** A fresh builder's table name and key: as given, and empty with T as containing entity. */
  lemma InitialJoinState(tableName: string, entityType: TypeId)
    ensures Lookup(InitialJoinStore(tableName, entityType), "TableName") == Some(Text(tableName))
    ensures JoinKeyOf(InitialJoinStore(tableName, entityType)) == Some(KeyMapping(map[], NoColumns, Some(entityType)))
  {
    var empty: Store := map[];
    LookupAfterPut(empty, "TableName", Defaults, Text(tableName));
    var s1 := Put(empty, "TableName", Defaults, Text(tableName));
    LookupAfterPut(s1, "Key", Defaults, KeyChild(KeyMapping(map[], NoColumns, Some(entityType))));
  }

  /** `Table(name)` is user-supplied and so replaces the constructor's table name. */
  lemma TableOverridesConstructor(tableName: string, entityType: TypeId, table: string)
    ensures Lookup(Put(InitialJoinStore(tableName, entityType), "TableName", UserSupplied, Text(table)), "TableName")
            == Some(Text(table))
  {
    var empty: Store := map[];
    var s1 := Put(empty, "TableName", Defaults, Text(tableName));
    PutKeepsOtherLayers(s1, "Key", Defaults, KeyChild(KeyMapping(map[], NoColumns, Some(entityType))), "TableName");
    assert LayersOf(InitialJoinStore(tableName, entityType), "TableName") == map[Defaults := Text(tableName)];
    LookupAfterPut(InitialJoinStore(tableName, entityType), "TableName", UserSupplied, Text(table));
  }

  // ---------------------------------------------------------------------
  // The key GetJoinMapping fills

  /** Each given name added, in order, as a key column named at Defaults. */
  function AddKeyColumns(k: KeyMapping, names: seq<string>): KeyMapping
  {
    if names == [] then k
    else KeyAddColumn(AddKeyColumns(k, names[..|names| - 1]), NamedColumn(names[|names| - 1]))
  }

  /** Without names, one default column T.Name + "_id"; otherwise the given names. */
  function FilledKey(k: KeyMapping, entityName: string, names: seq<string>): KeyMapping
  {
    if |names| == 0 then KeyAddDefaultColumn(k, NamedColumn(entityName + "_id"))
    else AddKeyColumns(k, names)
  }

  /** Two columns made from names are the same column exactly when the names are equal. */
  lemma NamedColumnInjective(a: string, b: string)
    ensures NamedColumn(a) == NamedColumn(b) <==> a == b
  {
    if NamedColumn(a) == NamedColumn(b) {
      assert Lookup(NamedColumn(a).store, "Name") == Some(Text(a));
    }
  }

  /** One column per name, in order. */
  function KeyColumnsNamed(names: seq<string>): (r: seq<ColumnMapping>)
    ensures |r| == |names|
    ensures forall i :: 0 <= i < |names| ==> r[i] == NamedColumn(names[i])
  {
    if names == [] then [] else KeyColumnsNamed(names[..|names| - 1]) + [NamedColumn(names[|names| - 1])]
  }

  /** Adding names to a key with no columns yields exactly one column per name, when the names are distinct. */
  lemma {:induction false} AddKeyColumnsToEmpty(k: KeyMapping, names: seq<string>)
    requires k.columns == NoColumns
    requires forall i, j :: 0 <= i < j < |names| ==> names[i] != names[j]
    ensures AddKeyColumns(k, names).columns == ColumnList(KeyColumnsNamed(names), [])
    ensures AddKeyColumns(k, names).store == k.store
    ensures AddKeyColumns(k, names).containingEntityType == k.containingEntityType
  {
    if names != [] {
      var init := names[..|names| - 1];
      var last := names[|names| - 1];
      AddKeyColumnsToEmpty(k, init);
      var prev := AddKeyColumns(k, init);
      assert NamedColumn(last) !in KeyColumnsNamed(init) by {
        forall i | 0 <= i < |init|
          ensures KeyColumnsNamed(init)[i] != NamedColumn(last)
        {
          assert init[i] == names[i];
          NamedColumnInjective(init[i], last);
        }
      }
    }
  }

  /**
   * A fresh builder's key, filled: the single default column T.Name + "_id"
   * when no key column was named, and otherwise exactly the named columns,
   * in order.
   */
  lemma FreshKeyColumns(entityType: TypeId, entityName: string, names: seq<string>)
    requires forall i, j :: 0 <= i < j < |names| ==> names[i] != names[j]
    ensures var k := FilledKey(KeyMapping(map[], NoColumns, Some(entityType)), entityName, names);
            && k.containingEntityType == Some(entityType)
            && (|names| == 0 ==> Columns(k.columns) == [NamedColumn(entityName + "_id")] && k.columns.userDefined == [])
            && (|names| > 0 ==> Columns(k.columns) == seq(|names|, i requires 0 <= i < |names| => NamedColumn(names[i])))
  {
    if |names| > 0 {
      AddKeyColumnsToEmpty(KeyMapping(map[], NoColumns, Some(entityType)), names);
    }
  }

  /** Building twice without key column names, on a key with no user columns, adds the default column only once. */
  lemma RebuildWithoutNamesIsStable(k: KeyMapping, entityName: string)
    requires k.columns.userDefined == []
    ensures FilledKey(FilledKey(k, entityName, []), entityName, []) == FilledKey(k, entityName, [])
  {
    var c := NamedColumn(entityName + "_id");
    if c !in Columns(k.columns) {
      var k1 := k.(columns := AddDefaultColumnTo(k.columns, c));
      assert Columns(k1.columns) == k.columns.defaults + [c];
      assert c == Columns(k1.columns)[|k.columns.defaults|];
    }
  }

  /**
   * Because the key is shared, names given after a first build are added
   * to the columns that build left: naming "x", building, then naming "y"
   * and building again shows both columns.
   */
  lemma RebuildKeepsEarlierKeyColumns(entityType: TypeId, entityName: string, x: string, y: string)
    requires x != y
    ensures var k0 := KeyMapping(map[], NoColumns, Some(entityType));
            Columns(FilledKey(FilledKey(k0, entityName, [x]), entityName, [y]).columns)
            == [NamedColumn(x), NamedColumn(y)]
  {
    var k0 := KeyMapping(map[], NoColumns, Some(entityType));
    AddOneKeyColumn(k0, x);
    var k1 := FilledKey(k0, entityName, [x]);
    assert Columns(k1.columns) == [NamedColumn(x)];
    AddOneKeyColumn(k1, y);
    NamedColumnInjective(x, y);
  }

  lemma AddOneKeyColumn(k: KeyMapping, name: string)
    ensures FilledKey(k, "", [name]) == KeyAddColumn(k, NamedColumn(name))
    ensures forall n :: FilledKey(k, n, [name]) == FilledKey(k, "", [name])
  {
    assert [name][..0] == [];
    assert AddKeyColumns(k, [name]) == KeyAddColumn(AddKeyColumns(k, []), NamedColumn(name));
  }

  // ---------------------------------------------------------------------
  // The members the join maps

  function PropertyChildren(ps: seq<PropertyMapping>): (r: seq<JoinChild>)
    ensures |r| == |ps| && forall i :: 0 <= i < |ps| ==> r[i] == JoinProperty(ps[i])
  {
    seq(|ps|, i requires 0 <= i < |ps| => JoinProperty(ps[i]))
  }

  function ComponentChildren(cs: seq<ComponentMapping>): (r: seq<JoinChild>)
    ensures |r| == |cs| && forall i :: 0 <= i < |cs| ==> r[i] == JoinComponent(cs[i])
  {
    seq(|cs|, i requires 0 <= i < |cs| => JoinComponent(cs[i]))
  }

  function ReferenceChildren(rs: seq<ManyToOneMapping>): (r: seq<JoinChild>)
    ensures |r| == |rs| && forall i :: 0 <= i < |rs| ==> r[i] == JoinReference(rs[i])
  {
    seq(|rs|, i requires 0 <= i < |rs| => JoinReference(rs[i]))
  }

  function AnyChildren(xs: seq<AnyMapping>): (r: seq<JoinChild>)
    ensures |r| == |xs| && forall i :: 0 <= i < |xs| ==> r[i] == JoinAny(xs[i])
  {
    seq(|xs|, i requires 0 <= i < |xs| => JoinAny(xs[i]))
  }

  function CollectionChildren(cs: seq<CollectionMapping>): (r: seq<JoinChild>)
    ensures |r| == |cs| && forall i :: 0 <= i < |cs| ==> r[i] == JoinCollection(cs[i])
  {
    seq(|cs|, i requires 0 <= i < |cs| => JoinCollection(cs[i]))
  }

  /** Properties, then components, references, anys and collections, each in provider order. */
  function JoinChildren(p: JoinProviders): seq<JoinChild>
  {
    PropertyChildren(p.properties) + ComponentChildren(p.components) + ReferenceChildren(p.references)
    + AnyChildren(p.anys) + CollectionChildren(p.collections)
  }

  /** The category a member falls in, in the order GetJoinMapping adds them. */
  function Rank(c: JoinChild): nat
  {
    match c
    case JoinProperty(_) => 0
    case JoinComponent(_) => 1
    case JoinReference(_) => 2
    case JoinAny(_) => 3
    case JoinCollection(_) => 4
  }

  predicate RankedRun(cs: seq<JoinChild>, r: nat)
  {
    forall i :: 0 <= i < |cs| ==> Rank(cs[i]) == r
  }

  lemma RankedConcat(a: seq<JoinChild>, b: seq<JoinChild>, ra: nat, rb: nat)
    requires forall i, j :: 0 <= i < j < |a| ==> Rank(a[i]) <= Rank(a[j])
    requires forall i :: 0 <= i < |a| ==> Rank(a[i]) <= ra
    requires RankedRun(b, rb) && ra <= rb
    ensures forall i, j :: 0 <= i < j < |a + b| ==> Rank((a + b)[i]) <= Rank((a + b)[j])
    ensures forall i :: 0 <= i < |a + b| ==> Rank((a + b)[i]) <= rb
  {
  }

  /**
   * The join's members come category by category, never out of order, and
   * the members of each category are exactly its providers' mappings, in
   * their order.
   */
  lemma JoinChildrenInCategoryOrder(p: JoinProviders)
    ensures var c := JoinChildren(p);
            && |c| == |p.properties| + |p.components| + |p.references| + |p.anys| + |p.collections|
            && (forall i, j :: 0 <= i < j < |c| ==> Rank(c[i]) <= Rank(c[j]))
            && c[..|p.properties|] == PropertyChildren(p.properties)
            && c[|c| - |p.collections|..] == CollectionChildren(p.collections)
  {
    var c1 := PropertyChildren(p.properties);
    var c2 := c1 + ComponentChildren(p.components);
    var c3 := c2 + ReferenceChildren(p.references);
    var c4 := c3 + AnyChildren(p.anys);
    var c5 := c4 + CollectionChildren(p.collections);
    assert RankedRun(c1, 0);
    RankedConcat(c1, ComponentChildren(p.components), 0, 1);
    RankedConcat(c2, ReferenceChildren(p.references), 1, 2);
    RankedConcat(c3, AnyChildren(p.anys), 2, 3);
    RankedConcat(c4, CollectionChildren(p.collections), 3, 4);
    assert c5 == JoinChildren(p);
    assert c5[..|p.properties|] == c1;
  }

  // ---------------------------------------------------------------------
  // The builder

  class JoinPart {
    /** The joined entity T, and `typeof(T).Name`. */
    const entityType: TypeId
    const entityName: string
    const providers: JoinProviders
    var attributes: Store
    var columns: seq<string>
    var nextBool: bool

    /** The store always holds the key the constructor put there. */
    predicate Valid()
      reads this
    {
      JoinKeyOf(attributes).Some?
    }

    /** `new JoinPart<T>(tableName)` */
    constructor (tableName: string, entityType: TypeId, entityName: string, providers: JoinProviders)
      ensures this.entityType == entityType && this.entityName == entityName && this.providers == providers
      ensures attributes == InitialJoinStore(tableName, entityType)
      ensures columns == [] && nextBool
      ensures Valid()
    {
      this.entityType := entityType;
      this.entityName := entityName;
      this.providers := providers;
      attributes := InitialJoinStore(tableName, entityType);
      columns := [];
      nextBool := true;
      new;
      InitialJoinState(tableName, entityType);
    }

    method Not()
      modifies this
      ensures nextBool == !old(nextBool)
      ensures attributes == old(attributes) && columns == old(columns)
    {
      nextBool := !nextBool;
    }

    /** `KeyColumn(name)`: the one key column name, replacing any earlier. */
    method KeyColumn(column: string)
      modifies this
      ensures columns == [column]
      ensures attributes == old(attributes) && nextBool == old(nextBool)
    {
      columns := [];
      columns := columns + [column];
    }

    /** `KeyColumn(params names)`: the key column names, replacing any earlier. */
    method KeyColumns(names: seq<string>)
      modifies this
      ensures columns == names
      ensures attributes == old(attributes) && nextBool == old(nextBool)
    {
      columns := [];
      for i := 0 to |names|
        invariant columns == names[..i]
        invariant attributes == old(attributes) && nextBool == old(nextBool)
      {
        assert names[..i + 1] == names[..i] + [names[i]];
        columns := columns + [names[i]];
      }
      assert names[..|names|] == names;
    }

    /** Inverse, Optional: the flag's value at UserSupplied; the flag is then reset. */
    method SetFlag(attr: string)
      requires attr in {"Inverse", "Optional"}
      requires Valid()
      modifies this
      ensures attributes == Put(old(attributes), attr, UserSupplied, Flag(old(nextBool)))
      ensures nextBool && columns == old(columns)
      ensures Valid()
    {
      LookupAfterPut(attributes, attr, UserSupplied, Flag(nextBool));
      attributes := Put(attributes, attr, UserSupplied, Flag(nextBool));
      nextBool := true;
    }

    /** Schema, Catalog, Subselect, Table (TableName), and the Fetch builder: user-supplied strings. */
    method SetText(attr: string, text: string)
      requires attr in {"Schema", "Catalog", "Subselect", "TableName", "Fetch"}
      requires Valid()
      modifies this
      ensures attributes == Put(old(attributes), attr, UserSupplied, Text(text))
      ensures columns == old(columns) && nextBool == old(nextBool)
      ensures Valid()
    {
      LookupAfterPut(attributes, attr, UserSupplied, Text(text));
      attributes := Put(attributes, attr, UserSupplied, Text(text));
    }

    /**
     * `GetJoinMapping`: the key is filled in place, so the builder's store
     * holds the filled key too, and the mapping's store is a copy of it.
     */
    method GetJoinMapping() returns (mapping: JoinMapping)
      requires Valid()
      modifies this
      ensures JoinKeyOf(old(attributes)).Some?
      ensures attributes == ReplaceTop(old(attributes), "Key",
                                       KeyChild(FilledKey(JoinKeyOf(old(attributes)).value, entityName, columns)))
      ensures JoinKeyOf(attributes) == Some(FilledKey(JoinKeyOf(old(attributes)).value, entityName, columns))
      ensures mapping == JoinMapping(attributes, Some(entityType), JoinChildren(providers))
      ensures columns == old(columns) && nextBool == old(nextBool)
      ensures Valid()
    {
      var key := FillKey(JoinKeyOf(attributes).value, entityName, columns);
      attributes := ReplaceTop(attributes, "Key", KeyChild(key));
      var children := BuildChildren(providers);
      mapping := JoinMapping(attributes, Some(entityType), children);
    }
  }

  /** The key's columns: the default column T.Name + "_id" without names, the given names otherwise. */
  method FillKey(k: KeyMapping, entityName: string, names: seq<string>) returns (r: KeyMapping)
    ensures r == FilledKey(k, entityName, names)
  {
    if |names| == 0 {
      r := KeyAddDefaultColumn(k, NamedColumn(entityName + "_id"));
    } else {
      r := AddEachKeyColumn(k, names);
    }
  }

  /** The five loops over the providers, category by category. */
  method BuildChildren(p: JoinProviders) returns (children: seq<JoinChild>)
    ensures children == JoinChildren(p)
  {
    children := [];
    children := AppendChildren(children, PropertyChildren(p.properties));
    children := AppendChildren(children, ComponentChildren(p.components));
    children := AppendChildren(children, ReferenceChildren(p.references));
    children := AppendChildren(children, AnyChildren(p.anys));
    children := AppendChildren(children, CollectionChildren(p.collections));
  }

  /** The loop adding each key column name, in order. */
  method AddEachKeyColumn(k: KeyMapping, names: seq<string>) returns (r: KeyMapping)
    ensures r == AddKeyColumns(k, names)
  {
    r := k;
    for i := 0 to |names|
      invariant r == AddKeyColumns(k, names[..i])
    {
      assert names[..i + 1][..i] == names[..i];
      r := KeyAddColumn(r, NamedColumn(names[i]));
    }
    assert names[..|names|] == names;
  }

  /** One of the loops that append a category of members. */
  method AppendChildren(acc: seq<JoinChild>, items: seq<JoinChild>) returns (r: seq<JoinChild>)
    ensures r == acc + items
  {
    r := acc;
    for i := 0 to |items|
      invariant r == acc + items[..i]
    {
      assert items[..i + 1] == items[..i] + [items[i]];
      r := r + [items[i]];
    }
    assert items[..|items|] == items;
  }
}
