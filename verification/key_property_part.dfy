/**
 * KeyPropertyPart: the fluent builder for one key property of a composite
 * id.  It changes the KeyPropertyMapping it wraps directly: each ColumnName
 * call appends a column, and Type, Length and the Access builder assign the
 * mapping's attributes.
 */
module KeyPropertyParts {
  import opened Wrappers
  import opened TypeGraphs
  import opened AttributeStores
  import opened MappingModel
  import opened NodeOperations
  import opened BuilderSupport

  /** The columns a sequence of ColumnName calls appends, in order. */
  function NamedKeyColumns(names: seq<string>): (r: seq<ColumnMapping>)
    ensures |r| == |names|
    ensures forall i :: 0 <= i < |names| ==> r[i] == UserColumn(names[i])
  {
    seq(|names|, i requires 0 <= i < |names| => UserColumn(names[i]))
  }

  /** ColumnName calls one after the other, as one value. */
  function AfterColumnNames(m: KeyPropertyMapping, names: seq<string>): KeyPropertyMapping
  {
    if names == [] then m
    else KeyPropertyAddColumn(AfterColumnNames(m, names[..|names| - 1]), UserColumn(names[|names| - 1]))
  }

  /**
   * Each ColumnName call appends one more column, keeping every earlier
   * one, even one with the same name; every new column carries its name as
   * a user-supplied value; nothing else about the mapping changes.
   */
  lemma {:induction false} ColumnNamesAppend(m: KeyPropertyMapping, names: seq<string>)
    ensures AfterColumnNames(m, names).columns == m.columns + NamedKeyColumns(names)
    ensures AfterColumnNames(m, names).store == m.store
    ensures AfterColumnNames(m, names).containingEntityType == m.containingEntityType
  {
    if names != [] {
      var init := names[..|names| - 1];
      ColumnNamesAppend(m, init);
      assert NamedKeyColumns(names) == NamedKeyColumns(init) + [UserColumn(names[|names| - 1])];
    }
  }

  class KeyPropertyPart {
    var mapping: KeyPropertyMapping

    /** `new KeyPropertyPart(mapping)` */
    constructor (mapping: KeyPropertyMapping)
      ensures this.mapping == mapping
    {
      this.mapping := mapping;
    }

    /** `ColumnName(name)`: one more column, named at UserSupplied. */
    method ColumnName(columnName: string)
      modifies this
      ensures mapping == AfterColumnNames(old(mapping), [columnName])
      ensures mapping.columns == old(mapping.columns) + [UserColumn(columnName)]
    {
      assert [columnName][..0] == [];
      mapping := KeyPropertyAddColumn(mapping, UserColumn(columnName));
    }

    /** `Type(type)` and `Type(name)`: the mapping's Type is assigned. */
    method Type(t: TypeReference)
      modifies this
      ensures mapping == old(mapping).(store := Put(old(mapping.store), "Type", AssignedLayer, TypeRef(t)))
    {
      mapping := mapping.(store := Put(mapping.store, "Type", AssignedLayer, TypeRef(t)));
    }

    /** `Length(n)`: the mapping's Length is assigned. */
    method Length(n: int)
      modifies this
      ensures mapping == old(mapping).(store := Put(old(mapping.store), "Length", AssignedLayer, Number(n)))
    {
      mapping := mapping.(store := Put(mapping.store, "Length", AssignedLayer, Number(n)));
    }

    /** The Access builder's callback: the mapping's Access is assigned. */
    method SetAccess(access: string)
      modifies this
      ensures mapping == old(mapping).(store := Put(old(mapping.store), "Access", AssignedLayer, Text(access)))
    {
      mapping := mapping.(store := Put(mapping.store, "Access", AssignedLayer, Text(access)));
    }
  }
}
