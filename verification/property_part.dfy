/**
 * PropertyPart: the fluent builder for one mapped property.  It records the
 * property's attributes and the attributes meant for its columns in two
 * layered stores, keeps the columns named explicitly, and carries the `Not`
 * flag that inverts the next boolean setter.  GetPropertyMapping turns that
 * state into a PropertyMapping.
 */
module PropertyParts {
  import opened Wrappers
  import opened TypeGraphs
  import opened AttributeStores
  import opened MappingModel
  import opened NodeOperations
  import opened BuilderSupport

  // ---------------------------------------------------------------------
  // The mapping GetPropertyMapping builds, as functions of the builder state

  /** `GetDefaultType`: the property type, or the enum mapper over the enum (the inner one of a nullable enum). */
  function DefaultType(propertyType: TypeId, facts: TypeFacts): (r: TypeReference)
  {
    if facts.isNullable && facts.isEnum then GenericEnumMapperOf(facts.genericArgument)
    else if facts.isEnum then GenericEnumMapperOf(propertyType)
    else TypeRefOf(propertyType)
  }

  /** The mapper over an enum is chosen exactly for enum properties, and it maps the enum itself. */
  lemma DefaultTypeChoosesEnumMapper(propertyType: TypeId, facts: TypeFacts)
    ensures DefaultType(propertyType, facts).GenericEnumMapperOf? <==> facts.isEnum
    ensures !facts.isEnum ==> DefaultType(propertyType, facts) == TypeRefOf(propertyType)
    ensures facts.isEnum ==> DefaultType(propertyType, facts).enumType
                             == if facts.isNullable then facts.genericArgument else propertyType
  {
  }

  /** The implicit column: the copied column attributes, named after the member at Defaults. */
  function ImplicitColumn(member: Member, columnAttributes: Store): ColumnMapping
  {
    NamedColumnOver(columnAttributes, member.name)
  }

  /** The columns the mapping starts with: the named ones as user columns, or the implicit column as a default. */
  function InitialColumns(member: Member, attributes: Store, columnAttributes: Store,
                          columns: seq<ColumnMapping>): ColumnList
  {
    var defaults := if |columns| == 0 && !Specified(attributes, "Formula")
                    then [ImplicitColumn(member, columnAttributes)] else [];
    ColumnList(columns, defaults)
  }

  /** A column of a nullable enum property may hold null: NotNull is false at Defaults. */
  function AdjustedColumn(c: ColumnMapping, facts: TypeFacts): ColumnMapping
  {
    if facts.isNullable && facts.isEnum then SetColumn(c, "NotNull", Defaults, Flag(false)) else c
  }

  function AdjustedColumns(cs: seq<ColumnMapping>, facts: TypeFacts): (r: seq<ColumnMapping>)
    ensures |r| == |cs|
    ensures forall i :: 0 <= i < |cs| ==> r[i] == AdjustedColumn(cs[i], facts)
  {
    seq(|cs|, i requires 0 <= i < |cs| => AdjustedColumn(cs[i], facts))
  }

  /** The property's own store: the builder's attributes with Name and Type written at Defaults. */
  function BuiltStore(member: Member, facts: TypeFacts, attributes: Store): Store
  {
    Put(Put(attributes, "Name", Defaults, Text(member.name)), "Type", Defaults, TypeRef(DefaultType(member.propertyType, facts)))
  }

  /** `GetPropertyMapping`, stated on the builder's state. */
  function BuiltProperty(member: Member, parentType: TypeId, facts: TypeFacts, attributes: Store,
                         columnAttributes: Store, columns: seq<ColumnMapping>): PropertyMapping
  {
    var initial := InitialColumns(member, attributes, columnAttributes, columns);
    var adjusted := WithVisible(initial, AdjustedColumns(Columns(initial), facts));
    PropertyMapping(ColumnBased(BuiltStore(member, facts, attributes), adjusted), Some(parentType), Some(member))
  }

  // ---------------------------------------------------------------------
  // What the built mapping promises

  /**
   * The visible columns are the named ones; without any, the implicit
   * column, unless a formula was given, in which case there are none.
   */
  lemma {:induction false} BuiltColumns(member: Member, parentType: TypeId, facts: TypeFacts, attributes: Store,
                                        columnAttributes: Store, columns: seq<ColumnMapping>)
    ensures var r := BuiltProperty(member, parentType, facts, attributes, columnAttributes, columns);
            Columns(r.base.columns) == AdjustedColumns(
              if |columns| > 0 then columns
              else if Specified(attributes, "Formula") then []
              else [ImplicitColumn(member, columnAttributes)], facts)
  {
    var initial := InitialColumns(member, attributes, columnAttributes, columns);
    var adj := AdjustedColumns(Columns(initial), facts);
    if |columns| > 0 {
      assert Columns(initial) == columns;
    } else if Specified(attributes, "Formula") {
      assert Columns(initial) == [];
      assert adj == [];
    } else {
      assert Columns(initial) == [ImplicitColumn(member, columnAttributes)];
      assert |adj| == 1;
    }
  }

  /**
   * Column-level settings reach only the implicit column: a named column
   * keeps its own attributes (NotNull aside), and the implicit one reads
   * every setting but its name from the column attributes.
   */
  lemma ColumnSettingsReachOnlyImplicitColumn(member: Member, parentType: TypeId, facts: TypeFacts,
                                              attributes: Store, columnAttributes: Store,
                                              columns: seq<ColumnMapping>, attr: string)
    requires attr != "NotNull" && attr != "Name"
    ensures var cs := Columns(BuiltProperty(member, parentType, facts, attributes, columnAttributes, columns).base.columns);
            (|columns| > 0 ==> |cs| == |columns| &&
                               forall i :: 0 <= i < |cs| ==> Lookup(cs[i].store, attr) == Lookup(columns[i].store, attr))
            && (|columns| == 0 && !Specified(attributes, "Formula") ==>
                  |cs| == 1 && Lookup(cs[0].store, attr) == Lookup(columnAttributes, attr))
  {
    BuiltColumns(member, parentType, facts, attributes, columnAttributes, columns);
  }

  /** A nullable enum property's visible columns all allow null; otherwise the columns are left as they are. */
  lemma NullableEnumColumnsAllowNull(member: Member, parentType: TypeId, facts: TypeFacts, attributes: Store,
                                     columnAttributes: Store, columns: seq<ColumnMapping>)
    ensures var cs := Columns(BuiltProperty(member, parentType, facts, attributes, columnAttributes, columns).base.columns);
            (facts.isNullable && facts.isEnum ==> forall i :: 0 <= i < |cs| ==> Slot(cs[i].store, "NotNull", Defaults) == Some(Flag(false)))
            && (!(facts.isNullable && facts.isEnum) && |columns| > 0 ==> cs == columns)
  {
    BuiltColumns(member, parentType, facts, attributes, columnAttributes, columns);
  }

  /**
   * Name and Type are written at Defaults: each reads as the member's name
   * and the default type unless the builder holds a value above Defaults,
   * which then wins; every other attribute reads as the builder recorded it.
   */
  lemma NameAndTypeAreDefaults(member: Member, parentType: TypeId, facts: TypeFacts, attributes: Store,
                               columnAttributes: Store, columns: seq<ColumnMapping>)
    ensures var r := BuiltProperty(member, parentType, facts, attributes, columnAttributes, columns);
            && Lookup(r.base.store, "Name") == (if forall k :: k in LayersOf(attributes, "Name") ==> k <= Defaults
                                                then Some(Text(member.name)) else Lookup(attributes, "Name"))
            && Lookup(r.base.store, "Type") == (if forall k :: k in LayersOf(attributes, "Type") ==> k <= Defaults
                                                then Some(TypeRef(DefaultType(member.propertyType, facts)))
                                                else Lookup(attributes, "Type"))
            && (forall a :: a != "Name" && a != "Type" ==> Lookup(r.base.store, a) == Lookup(attributes, a))
            && r.containingEntityType == Some(parentType) && r.member == Some(member)
  {
    var s1 := Put(attributes, "Name", Defaults, Text(member.name));
    LookupAfterPut(attributes, "Name", Defaults, Text(member.name));
    LookupAfterPut(s1, "Type", Defaults, TypeRef(DefaultType(member.propertyType, facts)));
    assert LayersOf(s1, "Type") == LayersOf(attributes, "Type");
  }

  /** A custom type the user gives replaces the default type in the built mapping. */
  lemma CustomTypeWins(member: Member, parentType: TypeId, facts: TypeFacts, attributes: Store,
                       columnAttributes: Store, columns: seq<ColumnMapping>, typeName: string)
    requires forall k :: k in LayersOf(attributes, "Type") ==> k <= UserSupplied
    ensures var custom := Put(attributes, "Type", UserSupplied, TypeRef(TypeRefNamed(typeName)));
            Lookup(BuiltProperty(member, parentType, facts, custom, columnAttributes, columns).base.store, "Type")
            == Some(TypeRef(TypeRefNamed(typeName)))
  {
    var custom := Put(attributes, "Type", UserSupplied, TypeRef(TypeRefNamed(typeName)));
    assert UserSupplied in LayersOf(custom, "Type");
    assert !(forall k :: k in LayersOf(custom, "Type") ==> k <= Defaults);
    LookupAfterPut(attributes, "Type", UserSupplied, TypeRef(TypeRefNamed(typeName)));
    NameAndTypeAreDefaults(member, parentType, facts, custom, columnAttributes, columns);
  }

  // ---------------------------------------------------------------------
  // The builder

  class PropertyPart {
    const member: Member
    const parentType: TypeId
    /** What reflection answers about `member.propertyType`. */
    const facts: TypeFacts
    var attributes: Store
    var columnAttributes: Store
    var columns: seq<ColumnMapping>
    var nextBool: bool

    /** `new PropertyPart(member, parentType)`, with `MemberAccessResolver.Resolve(member)` given as `resolvedAccess`. */
    constructor (member: Member, parentType: TypeId, facts: TypeFacts, resolvedAccess: Access)
      ensures this.member == member && this.parentType == parentType && this.facts == facts
      ensures attributes == WithDefaultAccess(map[], resolvedAccess)
      ensures columnAttributes == map[] && columns == [] && nextBool
    {
      this.member := member;
      this.parentType := parentType;
      this.facts := facts;
      attributes := WithDefaultAccess(map[], resolvedAccess);
      columnAttributes := map[];
      columns := [];
      nextBool := true;
    }

    /** The mapping GetPropertyMapping would build from the current state. */
    function Built(): PropertyMapping
      reads this
    {
      BuiltProperty(member, parentType, facts, attributes, columnAttributes, columns)
    }

    /** `Not`: inverts the value the next boolean setter records. */
    method Not()
      modifies this
      ensures nextBool == !old(nextBool)
      ensures attributes == old(attributes) && columnAttributes == old(columnAttributes) && columns == old(columns)
    {
      nextBool := !nextBool;
    }

    /** A boolean property attribute set to the flag's value; the flag is then reset. */
    method SetFlag(attr: string)
      modifies this
      ensures attributes == Put(old(attributes), attr, UserSupplied, Flag(old(nextBool)))
      ensures nextBool
      ensures columnAttributes == old(columnAttributes) && columns == old(columns)
    {
      attributes := Put(attributes, attr, UserSupplied, Flag(nextBool));
      nextBool := true;
    }

    method Insert()
      modifies this
      ensures attributes == Put(old(attributes), "Insert", UserSupplied, Flag(old(nextBool)))
      ensures nextBool
      ensures columnAttributes == old(columnAttributes) && columns == old(columns)
    {
      SetFlag("Insert");
    }

    method Update()
      modifies this
      ensures attributes == Put(old(attributes), "Update", UserSupplied, Flag(old(nextBool)))
      ensures nextBool
      ensures columnAttributes == old(columnAttributes) && columns == old(columns)
    {
      SetFlag("Update");
    }

    method LazyLoad()
      modifies this
      ensures attributes == Put(old(attributes), "Lazy", UserSupplied, Flag(old(nextBool)))
      ensures nextBool
      ensures columnAttributes == old(columnAttributes) && columns == old(columns)
    {
      SetFlag("Lazy");
    }

    method OptimisticLock()
      modifies this
      ensures attributes == Put(old(attributes), "OptimisticLock", UserSupplied, Flag(old(nextBool)))
      ensures nextBool
      ensures columnAttributes == old(columnAttributes) && columns == old(columns)
    {
      SetFlag("OptimisticLock");
    }

    /** `ReadOnly`: Insert and Update both become the negated flag. */
    method ReadOnly()
      modifies this
      ensures attributes == Put(Put(old(attributes), "Insert", UserSupplied, Flag(!old(nextBool))),
                                "Update", UserSupplied, Flag(!old(nextBool)))
      ensures nextBool
      ensures columnAttributes == old(columnAttributes) && columns == old(columns)
    {
      attributes := Put(attributes, "Insert", UserSupplied, Flag(!nextBool));
      attributes := Put(attributes, "Update", UserSupplied, Flag(!nextBool));
      nextBool := true;
    }

    /** `Nullable`: the columns' NotNull becomes the negated flag. */
    method Nullable()
      modifies this
      ensures columnAttributes == Put(old(columnAttributes), "NotNull", UserSupplied, Flag(!old(nextBool)))
      ensures nextBool
      ensures attributes == old(attributes) && columns == old(columns)
    {
      columnAttributes := Put(columnAttributes, "NotNull", UserSupplied, Flag(!nextBool));
      nextBool := true;
    }

    /** `Unique`: the columns' Unique becomes the flag. */
    method Unique()
      modifies this
      ensures columnAttributes == Put(old(columnAttributes), "Unique", UserSupplied, Flag(old(nextBool)))
      ensures nextBool
      ensures attributes == old(attributes) && columns == old(columns)
    {
      columnAttributes := Put(columnAttributes, "Unique", UserSupplied, Flag(nextBool));
      nextBool := true;
    }

    /** Length, Precision, Scale: a number for the columns; the flag is untouched. */
    method SetColumnNumber(attr: string, n: int)
      requires attr in {"Length", "Precision", "Scale"}
      modifies this
      ensures columnAttributes == Put(old(columnAttributes), attr, UserSupplied, Number(n))
      ensures attributes == old(attributes) && columns == old(columns) && nextBool == old(nextBool)
    {
      columnAttributes := Put(columnAttributes, attr, UserSupplied, Number(n));
    }

    /** Index, CustomSqlType (SqlType), Default, UniqueKey, Check: a string for the columns. */
    method SetColumnText(attr: string, text: string)
      requires attr in {"Index", "SqlType", "Default", "UniqueKey", "Check"}
      modifies this
      ensures columnAttributes == Put(old(columnAttributes), attr, UserSupplied, Text(text))
      ensures attributes == old(attributes) && columns == old(columns) && nextBool == old(nextBool)
    {
      columnAttributes := Put(columnAttributes, attr, UserSupplied, Text(text));
    }

    /** Formula, and the Access and Generated builders: a string for the property. */
    method SetPropertyText(attr: string, text: string)
      requires attr in {"Formula", "Access", "Generated"}
      modifies this
      ensures attributes == Put(old(attributes), attr, UserSupplied, Text(text))
      ensures columnAttributes == old(columnAttributes) && columns == old(columns) && nextBool == old(nextBool)
    {
      attributes := Put(attributes, attr, UserSupplied, Text(text));
    }

    /** `CustomType(string)`: the type by name, user-supplied. */
    method CustomType(typeName: string)
      modifies this
      ensures attributes == Put(old(attributes), "Type", UserSupplied, TypeRef(TypeRefNamed(typeName)))
      ensures columnAttributes == old(columnAttributes) && columns == old(columns) && nextBool == old(nextBool)
    {
      attributes := Put(attributes, "Type", UserSupplied, TypeRef(TypeRefNamed(typeName)));
    }

    /**
     * `CustomType(Type)`: a composite user type first contributes one column
     * per property name it reports (`compositeNames`, empty for any other
     * type); then the type is recorded by its name.
     */
    method CustomTypeOf(typeName: string, compositeNames: seq<string>)
      modifies this
      ensures columns == old(columns) + seq(|compositeNames|, i requires 0 <= i < |compositeNames| => UserColumn(compositeNames[i]))
      ensures attributes == Put(old(attributes), "Type", UserSupplied, TypeRef(TypeRefNamed(typeName)))
      ensures columnAttributes == old(columnAttributes) && nextBool == old(nextBool)
    {
      for i := 0 to |compositeNames|
        invariant columns == old(columns) + seq(i, j requires 0 <= j < i => UserColumn(compositeNames[j]))
        invariant attributes == old(attributes) && columnAttributes == old(columnAttributes) && nextBool == old(nextBool)
      {
        columns := columns + [UserColumn(compositeNames[i])];
      }
      CustomType(typeName);
    }

    /** `Columns.Add(name)`: one more named column. */
    method AddColumn(name: string)
      modifies this
      ensures columns == old(columns) + [UserColumn(name)]
      ensures attributes == old(attributes) && columnAttributes == old(columnAttributes) && nextBool == old(nextBool)
    {
      columns := columns + [UserColumn(name)];
    }

    /** `Column(name)`: the named columns are replaced by exactly this one. */
    method Column(name: string)
      modifies this
      ensures columns == [UserColumn(name)]
      ensures attributes == old(attributes) && columnAttributes == old(columnAttributes) && nextBool == old(nextBool)
    {
      columns := [];
      AddColumn(name);
    }

    /** `GetPropertyMapping`: the builder is left as it was. */
    method GetPropertyMapping() returns (mapping: PropertyMapping)
      ensures mapping == Built()
    {
      var cols := NoColumns;
      if |columns| == 0 && !Specified(attributes, "Formula") {
        var column := NamedColumnOver(columnAttributes, member.name);
        cols := AddDefaultColumnTo(cols, column);
      }
      assert cols == ColumnList([], InitialColumns(member, attributes, columnAttributes, columns).defaults);
      cols := AddEach(cols, columns);
      assert cols == InitialColumns(member, attributes, columnAttributes, columns);
      var adjusted := AdjustEach(Columns(cols), facts);
      mapping := PropertyMapping(ColumnBased(BuiltStore(member, facts, attributes), WithVisible(cols, adjusted)),
                                 Some(parentType), Some(member));
    }
  }

  /** The loop that adds every named column to the mapping, in order. */
  method AddEach(l: ColumnList, cs: seq<ColumnMapping>) returns (r: ColumnList)
    ensures r.userDefined == l.userDefined + cs && r.defaults == l.defaults
    ensures cs != [] ==> Columns(r) == l.userDefined + cs
  {
    r := l;
    for i := 0 to |cs|
      invariant r.userDefined == l.userDefined + cs[..i] && r.defaults == l.defaults
    {
      assert cs[..i + 1] == cs[..i] + [cs[i]];
      r := AddUserColumn(r, cs[i]);
    }
    assert cs[..|cs|] == cs;
  }

  /** The loop over the visible columns that lets a nullable enum's columns hold null. */
  method AdjustEach(visible: seq<ColumnMapping>, facts: TypeFacts) returns (adjusted: seq<ColumnMapping>)
    ensures adjusted == AdjustedColumns(visible, facts)
  {
    adjusted := [];
    for i := 0 to |visible|
      invariant |adjusted| == i
      invariant forall j :: 0 <= j < i ==> adjusted[j] == AdjustedColumn(visible[j], facts)
    {
      var column := visible[i];
      if facts.isNullable && facts.isEnum {
        column := SetColumn(column, "NotNull", Defaults, Flag(false));
      }
      adjusted := adjusted + [column];
    }
  }

  /** `Not.Insert()` records false, and the flag is back to true for the next setter. */
  method NotAppliesToOneSetter(p: PropertyPart)
    modifies p
    ensures Slot(p.attributes, "Insert", UserSupplied) == Some(Flag(!old(p.nextBool)))
    ensures Slot(p.attributes, "Update", UserSupplied) == Some(Flag(true))
    ensures p.nextBool
  {
    p.Not();
    p.Insert();
    p.Update();
  }
}
