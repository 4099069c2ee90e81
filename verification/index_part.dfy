/**
 * IndexPart: the fluent builder for a collection's `<index>`.  It keeps the
 * index column names in the order given and the index's attributes; each
 * GetIndexMapping call makes a fresh mapping from them.
 */
module IndexParts {
  import opened Wrappers
  import opened TypeGraphs
  import opened AttributeStores
  import opened MappingModel
  import opened NodeOperations

  /** One column per name, each named at Defaults over an empty store. */
  function IndexColumns(names: seq<string>): (r: seq<ColumnMapping>)
    ensures |r| == |names|
    ensures forall i :: 0 <= i < |names| ==> r[i] == NamedColumn(names[i])
  {
    seq(|names|, i requires 0 <= i < |names| => NamedColumn(names[i]))
  }

  /** `GetIndexMapping`, stated on the builder's state. */
  function BuiltIndex(entity: TypeId, attributes: Store, names: seq<string>): IndexMapping
  {
    IndexMapping(attributes, ColumnList(IndexColumns(names), []), Some(entity))
  }

  /**
   * The built index belongs to the builder's entity, reads every attribute
   * as the builder recorded it, and has one column per name, in order, each
   * carrying only its name.
   */
  lemma BuiltIndexColumns(entity: TypeId, attributes: Store, names: seq<string>)
    ensures var r := BuiltIndex(entity, attributes, names);
            && r.containingEntityType == Some(entity)
            && (forall a :: Lookup(r.store, a) == Lookup(attributes, a))
            && |Columns(r.columns)| == |names|
            && (forall i :: 0 <= i < |names| ==> Lookup(Columns(r.columns)[i].store, "Name") == Some(Text(names[i])))
            && (forall i, a :: 0 <= i < |names| && a != "Name" ==> Lookup(Columns(r.columns)[i].store, a).None?)
  {
    var r := BuiltIndex(entity, attributes, names);
    if |names| > 0 {
      assert Columns(r.columns) == IndexColumns(names);
    } else {
      assert Columns(r.columns) == [];
    }
    forall i, a | 0 <= i < |names| && a != "Name"
      ensures Lookup(Columns(r.columns)[i].store, a).None?
    {
      assert Slot(NamedColumn(names[i]).store, a, Defaults).None?;
      assert LayersOf(NamedColumn(names[i]).store, a) == map[];
    }
  }

  /** A Type the user sets is what the built index reports. */
  lemma IndexTypeIsUserSupplied(entity: TypeId, attributes: Store, names: seq<string>, t: TypeReference)
    requires forall k :: k in LayersOf(attributes, "Type") ==> k <= UserSupplied
    ensures Lookup(BuiltIndex(entity, Put(attributes, "Type", UserSupplied, TypeRef(t)), names).store, "Type")
            == Some(TypeRef(t))
  {
    LookupAfterPut(attributes, "Type", UserSupplied, TypeRef(t));
  }

  class IndexPart {
    const entity: TypeId
    var columns: seq<string>
    var attributes: Store

    /** `new IndexPart(entity)` */
    constructor (entity: TypeId)
      ensures this.entity == entity && columns == [] && attributes == map[]
    {
      this.entity := entity;
      columns := [];
      attributes := map[];
    }

    /** `Column(name)`: appended; earlier names are kept. */
    method Column(name: string)
      modifies this
      ensures columns == old(columns) + [name]
      ensures attributes == old(attributes)
    {
      columns := columns + [name];
    }

    /** `Type<T>()` and `Type(type)`: the index type, user-supplied. */
    method Type(t: TypeId)
      modifies this
      ensures attributes == Put(old(attributes), "Type", UserSupplied, TypeRef(TypeRefOf(t)))
      ensures columns == old(columns)
    {
      attributes := Put(attributes, "Type", UserSupplied, TypeRef(TypeRefOf(t)));
    }

    /** `GetIndexMapping`: the builder is left as it was. */
    method GetIndexMapping() returns (mapping: IndexMapping)
      ensures mapping == BuiltIndex(entity, attributes, columns)
    {
      mapping := IndexMapping(attributes, NoColumns, Some(entity));
      for i := 0 to |columns|
        invariant mapping == IndexMapping(attributes, ColumnList(IndexColumns(columns[..i]), []), Some(entity))
      {
        assert IndexColumns(columns[..i + 1]) == IndexColumns(columns[..i]) + [NamedColumn(columns[i])];
        mapping := mapping.(columns := AddUserColumn(mapping.columns, NamedColumn(columns[i])));
      }
      assert columns[..|columns|] == columns;
    }
  }
}
