/**
 * IdentityPart: the fluent builder for a class's `Id`.  Besides the id's own
 * attributes and the attributes meant for its column, it keeps the column
 * name given (at most one), the name the id takes from its member, the
 * default generator chosen from the identity type, and whatever generator
 * the user picked through `GeneratedBy`.
 */
module IdentityParts {
  import opened Wrappers
  import opened TypeGraphs
  import opened AttributeStores
  import opened MappingModel
  import opened NodeOperations
  import opened BuilderSupport

  /** The identity types that decide the default generator. */
  datatype WellKnownTypes = WellKnownTypes(guid: TypeId, int32: TypeId, int64: TypeId)

  // ---------------------------------------------------------------------
  // The default generator

  /** `SetDefaultGenerator`'s choice: guid.comb for Guid, identity for int and long, assigned otherwise. */
  function DefaultGeneratorClass(identityType: TypeId, known: WellKnownTypes): string
  {
    if identityType == known.guid then "guid.comb"
    else if identityType == known.int32 || identityType == known.int64 then "identity"
    else "assigned"
  }

  /** A generator whose class the generator builder has set. */
  function GeneratorOfClass(cls: string): (g: GeneratorMapping)
    ensures Lookup(g.store, "Class") == Some(Text(cls))
    ensures g.params == map[] && g.containingEntityType.None?
  {
    var empty: Store := map[];
    LookupAfterPut(empty, "Class", UserSupplied, Text(cls));
    GeneratorMapping(Put(empty, "Class", UserSupplied, Text(cls)), map[], None)
  }

  /** The id's store as the constructors leave it: the default generator at Defaults. */
  function GeneratorDefaulted(identityType: TypeId, known: WellKnownTypes): Store
  {
    Put(map[], "Generator", Defaults, GeneratorChild(GeneratorOfClass(DefaultGeneratorClass(identityType, known))))
  }

  /** The default generator is decided by the identity type alone, as the three cases say. */
  lemma DefaultGeneratorByType(identityType: TypeId, known: WellKnownTypes)
    ensures DefaultGeneratorClass(identityType, known) == "guid.comb" <==> identityType == known.guid
    ensures DefaultGeneratorClass(identityType, known) == "identity"
            <==> identityType != known.guid && (identityType == known.int32 || identityType == known.int64)
    ensures DefaultGeneratorClass(identityType, known) == "assigned"
            <==> identityType !in {known.guid, known.int32, known.int64}
  {
  }

  // ---------------------------------------------------------------------
  // The mapping GetIdentityMapping builds

  /** `HasNameSpecified`: a name that is neither null nor empty. */
  predicate HasNameSpecified(name: Option<string>)
  {
    name.Some? && name.value != ""
  }

  /** One column per given name, each over the column attributes and named at Defaults. */
  function NamedColumns(columnAttributes: Store, names: seq<string>): (r: seq<ColumnMapping>)
    ensures |r| == |names|
    ensures forall i :: 0 <= i < |names| ==> r[i] == NamedColumnOver(columnAttributes, names[i])
  {
    seq(|names|, i requires 0 <= i < |names| => NamedColumnOver(columnAttributes, names[i]))
  }

  /** The id's columns: the given ones as user columns, else one default column after the name, else none. */
  function IdColumns(columnAttributes: Store, columns: seq<string>, name: Option<string>): ColumnList
  {
    if |columns| > 0 then ColumnList(NamedColumns(columnAttributes, columns), [])
    else if HasNameSpecified(name) then ColumnList([], [NamedColumnOver(columnAttributes, name.value)])
    else NoColumns
  }

  /** The id's store: Name (only for a member's id), Type at Defaults, and a generator the user picked at UserSupplied. */
  function IdStore(attributes: Store, hasMember: bool, name: Option<string>, identityType: TypeId,
                   generatedBy: Option<GeneratorMapping>): Store
    requires hasMember ==> name.Some?
  {
    var named := if hasMember then Put(attributes, "Name", Defaults, Text(name.value)) else attributes;
    var typed := Put(named, "Type", Defaults, TypeRef(TypeRefOf(identityType)));
    if generatedBy.Some? then Put(typed, "Generator", UserSupplied, GeneratorChild(generatedBy.value)) else typed
  }

  /** `GetIdentityMapping`, stated on the builder's state: the mapping's Member is never set. */
  function BuiltId(entityType: TypeId, hasMember: bool, identityType: TypeId, attributes: Store,
                   columnAttributes: Store, columns: seq<string>, name: Option<string>,
                   generatedBy: Option<GeneratorMapping>): IdMapping
    requires hasMember ==> name.Some?
  {
    IdMapping(ColumnBased(IdStore(attributes, hasMember, name, identityType, generatedBy),
                          IdColumns(columnAttributes, columns, name)),
              None, Some(entityType))
  }

  // ---------------------------------------------------------------------
  // What the built id promises

  /**
   * The given column names become the id's columns, in order, each reading
   * its own name unless the column attributes hold a name above Defaults;
   * without any, a specified name yields one default column, and otherwise
   * the id has no columns.
   */
  lemma IdColumnsFromNames(columnAttributes: Store, columns: seq<string>, name: Option<string>)
    requires forall k :: k in LayersOf(columnAttributes, "Name") ==> k <= Defaults
    ensures var cs := Columns(IdColumns(columnAttributes, columns, name));
            && (|columns| > 0 ==> |cs| == |columns| &&
                                  forall i :: 0 <= i < |cs| ==> Lookup(cs[i].store, "Name") == Some(Text(columns[i])))
            && (|columns| == 0 && HasNameSpecified(name) ==>
                  |cs| == 1 && Lookup(cs[0].store, "Name") == Some(Text(name.value)))
            && (|columns| == 0 && !HasNameSpecified(name) ==> cs == [])
            && (forall i, a :: 0 <= i < |cs| && a != "Name" ==> Lookup(cs[i].store, a) == Lookup(columnAttributes, a))
  {
    var cs := Columns(IdColumns(columnAttributes, columns, name));
    if |columns| > 0 {
      assert cs == NamedColumns(columnAttributes, columns);
    }
  }

  /** Type reads as the identity type unless the builder set one above Defaults, which then wins. */
  lemma IdTypeRead(attributes: Store, hasMember: bool, name: Option<string>, identityType: TypeId,
                   generatedBy: Option<GeneratorMapping>)
    requires hasMember ==> name.Some?
    ensures Lookup(IdStore(attributes, hasMember, name, identityType, generatedBy), "Type")
            == if forall k :: k in LayersOf(attributes, "Type") ==> k <= Defaults
               then Some(TypeRef(TypeRefOf(identityType))) else Lookup(attributes, "Type")
  {
    var named := if hasMember then Put(attributes, "Name", Defaults, Text(name.value)) else attributes;
    if hasMember {
      PutKeepsOtherLayers(attributes, "Name", Defaults, Text(name.value), "Type");
    }
    var typed := Put(named, "Type", Defaults, TypeRef(TypeRefOf(identityType)));
    LookupAfterPut(named, "Type", Defaults, TypeRef(TypeRefOf(identityType)));
    if generatedBy.Some? {
      LookupAfterPut(typed, "Generator", UserSupplied, GeneratorChild(generatedBy.value));
    }
  }

  /**
   * A generator picked through GeneratedBy wins over any default; with none
   * picked, Generator reads as the builder recorded it.
   */
  lemma IdGeneratorRead(attributes: Store, hasMember: bool, name: Option<string>, identityType: TypeId,
                        generatedBy: Option<GeneratorMapping>)
    requires hasMember ==> name.Some?
    requires forall k :: k in LayersOf(attributes, "Generator") ==> k <= UserSupplied
    ensures Lookup(IdStore(attributes, hasMember, name, identityType, generatedBy), "Generator")
            == if generatedBy.Some? then Some(GeneratorChild(generatedBy.value)) else Lookup(attributes, "Generator")
  {
    var named := if hasMember then Put(attributes, "Name", Defaults, Text(name.value)) else attributes;
    if hasMember {
      PutKeepsOtherLayers(attributes, "Name", Defaults, Text(name.value), "Generator");
      LookupAfterPut(attributes, "Name", Defaults, Text(name.value));
    }
    var typed := Put(named, "Type", Defaults, TypeRef(TypeRefOf(identityType)));
    PutKeepsOtherLayers(named, "Type", Defaults, TypeRef(TypeRefOf(identityType)), "Generator");
    assert LayersOf(typed, "Generator") == LayersOf(attributes, "Generator");
    LookupAfterPut(named, "Type", Defaults, TypeRef(TypeRefOf(identityType)));
    if generatedBy.Some? {
      LookupAfterPut(typed, "Generator", UserSupplied, GeneratorChild(generatedBy.value));
    }
  }

  /** An id built from a member is named after it, at Defaults. */
  lemma IdNamedAfterMember(attributes: Store, columnAttributes: Store, member: Member, identityType: TypeId,
                           generatedBy: Option<GeneratorMapping>, entityType: TypeId)
    requires forall k :: k in LayersOf(attributes, "Name") ==> k <= Defaults
    ensures Lookup(BuiltId(entityType, true, identityType, attributes, columnAttributes, [], Some(member.name), generatedBy)
                     .base.store, "Name") == Some(Text(member.name))
  {
    var named := Put(attributes, "Name", Defaults, Text(member.name));
    LookupAfterPut(attributes, "Name", Defaults, Text(member.name));
    var typed := Put(named, "Type", Defaults, TypeRef(TypeRefOf(identityType)));
    LookupAfterPut(named, "Type", Defaults, TypeRef(TypeRefOf(identityType)));
    if generatedBy.Some? {
      LookupAfterPut(typed, "Generator", UserSupplied, GeneratorChild(generatedBy.value));
    }
  }

  /** An id built from a type alone gets no Name and, without a column, no column at all. */
  lemma IdFromTypeUnnamed(attributes: Store, columnAttributes: Store, identityType: TypeId,
                          generatedBy: Option<GeneratorMapping>, entityType: TypeId)
    requires Lookup(attributes, "Name").None?
    ensures var typeOnly := BuiltId(entityType, false, identityType, attributes, columnAttributes, [], None, generatedBy);
            Lookup(typeOnly.base.store, "Name").None? && Columns(typeOnly.base.columns) == []
            && typeOnly.member.None? && typeOnly.containingEntityType == Some(entityType)
  {
    var typed := Put(attributes, "Type", Defaults, TypeRef(TypeRefOf(identityType)));
    LookupAfterPut(attributes, "Type", Defaults, TypeRef(TypeRefOf(identityType)));
    if generatedBy.Some? {
      LookupAfterPut(typed, "Generator", UserSupplied, GeneratorChild(generatedBy.value));
    }
  }

  /**
   * On a fresh builder the id's generator is the one chosen from the
   * identity type, until the user picks another through GeneratedBy.
   */
  lemma FreshGenerator(identityType: TypeId, known: WellKnownTypes, access: Access, hasMember: bool,
                       name: Option<string>, generatedBy: Option<GeneratorMapping>)
    requires hasMember ==> name.Some?
    ensures var s := IdStore(WithDefaultAccess(GeneratorDefaulted(identityType, known), access), hasMember, name,
                             identityType, generatedBy);
            Lookup(s, "Generator") == Some(GeneratorChild(
              if generatedBy.Some? then generatedBy.value
              else GeneratorOfClass(DefaultGeneratorClass(identityType, known))))
  {
    var empty: Store := map[];
    var g := GeneratorChild(GeneratorOfClass(DefaultGeneratorClass(identityType, known)));
    LookupAfterPut(empty, "Generator", Defaults, g);
    var s0 := WithDefaultAccess(GeneratorDefaulted(identityType, known), access);
    assert LayersOf(s0, "Generator") == LayersOf(GeneratorDefaulted(identityType, known), "Generator");
    assert LayersOf(s0, "Generator") == map[Defaults := g];
    IdGeneratorRead(s0, hasMember, name, identityType, generatedBy);
  }

  // ---------------------------------------------------------------------
  // The builder

  class IdentityPart {
    const entityType: TypeId
    const member: Option<Member>
    const identityType: TypeId
    var attributes: Store
    var columnAttributes: Store
    var columns: seq<string>
    var name: Option<string>
    var nextBool: bool
    /** The generator picked through `GeneratedBy`, once it is dirty. */
    var generatedBy: Option<GeneratorMapping>

    /** `new IdentityPart(entity, member)`: named after the member, default generator, then default access. */
    constructor FromMember(entity: TypeId, member: Member, known: WellKnownTypes, resolvedAccess: Access)
      ensures entityType == entity && this.member == Some(member) && identityType == member.propertyType
      ensures name == Some(member.name)
      ensures attributes == WithDefaultAccess(GeneratorDefaulted(member.propertyType, known), resolvedAccess)
      ensures columnAttributes == map[] && columns == [] && nextBool && generatedBy.None?
    {
      entityType := entity;
      this.member := Some(member);
      identityType := member.propertyType;
      columnAttributes := map[];
      columns := [];
      nextBool := true;
      generatedBy := None;
      name := Some(member.name);
      var withGenerator := GeneratorDefaulted(member.propertyType, known);
      attributes := WithDefaultAccess(withGenerator, resolvedAccess);
    }

    /** `new IdentityPart(entity, identityType)`: no member and no name; only the default generator. */
    constructor FromType(entity: TypeId, identityType: TypeId, known: WellKnownTypes)
      ensures entityType == entity && member.None? && this.identityType == identityType
      ensures name.None?
      ensures attributes == GeneratorDefaulted(identityType, known)
      ensures columnAttributes == map[] && columns == [] && nextBool && generatedBy.None?
    {
      entityType := entity;
      member := None;
      this.identityType := identityType;
      columnAttributes := map[];
      columns := [];
      nextBool := true;
      generatedBy := None;
      name := None;
      attributes := GeneratorDefaulted(identityType, known);
    }

    /** Every builder reached through the constructors and methods has a name whenever it has a member. */
    predicate Valid()
      reads this
    {
      member.Some? ==> name.Some?
    }

    function Built(): IdMapping
      reads this
      requires Valid()
    {
      BuiltId(entityType, member.Some?, identityType, attributes, columnAttributes, columns, name, generatedBy)
    }

    method Not()
      modifies this
      ensures nextBool == !old(nextBool)
      ensures attributes == old(attributes) && columnAttributes == old(columnAttributes)
      ensures columns == old(columns) && name == old(name) && generatedBy == old(generatedBy)
    {
      nextBool := !nextBool;
    }

    /** `SetName`: the name the id and its default column take. */
    method SetName(newName: string)
      modifies this
      ensures name == Some(newName)
      ensures attributes == old(attributes) && columnAttributes == old(columnAttributes)
      ensures columns == old(columns) && nextBool == old(nextBool) && generatedBy == old(generatedBy)
    {
      name := Some(newName);
    }

    /** `UnsavedValue(v)`: the value's text, and the text "null" for a null value. */
    method UnsavedValue(v: Option<string>)
      modifies this
      ensures attributes == Put(old(attributes), "UnsavedValue", UserSupplied,
                                Text(if v.Some? then v.value else "null"))
      ensures columnAttributes == old(columnAttributes) && columns == old(columns)
      ensures name == old(name) && nextBool == old(nextBool) && generatedBy == old(generatedBy)
    {
      attributes := Put(attributes, "UnsavedValue", UserSupplied, Text(if v.Some? then v.value else "null"));
    }

    /** `Column(name)`: the given column replaces any earlier one; ids support one column. */
    method Column(columnName: string)
      modifies this
      ensures columns == [columnName]
      ensures attributes == old(attributes) && columnAttributes == old(columnAttributes)
      ensures name == old(name) && nextBool == old(nextBool) && generatedBy == old(generatedBy)
    {
      columns := [];
      columns := columns + [columnName];
    }

    /** `Nullable`: the column's NotNull becomes the negated flag, which is then reset. */
    method Nullable()
      modifies this
      ensures columnAttributes == Put(old(columnAttributes), "NotNull", UserSupplied, Flag(!old(nextBool)))
      ensures nextBool
      ensures attributes == old(attributes) && columns == old(columns)
      ensures name == old(name) && generatedBy == old(generatedBy)
    {
      columnAttributes := Put(columnAttributes, "NotNull", UserSupplied, Flag(!nextBool));
      nextBool := true;
    }

    /** `Unique`: the column's Unique becomes the flag, which is then reset. */
    method Unique()
      modifies this
      ensures columnAttributes == Put(old(columnAttributes), "Unique", UserSupplied, Flag(old(nextBool)))
      ensures nextBool
      ensures attributes == old(attributes) && columns == old(columns)
      ensures name == old(name) && generatedBy == old(generatedBy)
    {
      columnAttributes := Put(columnAttributes, "Unique", UserSupplied, Flag(nextBool));
      nextBool := true;
    }

    /** Length, Precision, Scale: a number for the column. */
    method SetColumnNumber(attr: string, n: int)
      requires attr in {"Length", "Precision", "Scale"}
      modifies this
      ensures columnAttributes == Put(old(columnAttributes), attr, UserSupplied, Number(n))
      ensures attributes == old(attributes) && columns == old(columns)
      ensures name == old(name) && nextBool == old(nextBool) && generatedBy == old(generatedBy)
    {
      columnAttributes := Put(columnAttributes, attr, UserSupplied, Number(n));
    }

    /** UniqueKey, CustomSqlType (SqlType), Index, Check, Default: a string for the column. */
    method SetColumnText(attr: string, text: string)
      requires attr in {"UniqueKey", "SqlType", "Index", "Check", "Default"}
      modifies this
      ensures columnAttributes == Put(old(columnAttributes), attr, UserSupplied, Text(text))
      ensures attributes == old(attributes) && columns == old(columns)
      ensures name == old(name) && nextBool == old(nextBool) && generatedBy == old(generatedBy)
    {
      columnAttributes := Put(columnAttributes, attr, UserSupplied, Text(text));
    }

    /** `CustomType`, by type or by name, and the Access builder: user-supplied writes to the id. */
    method SetIdValue(attr: string, v: Value)
      requires (attr == "Type" && v.TypeRef?) || (attr == "Access" && v.Text?)
      modifies this
      ensures attributes == Put(old(attributes), attr, UserSupplied, v)
      ensures columnAttributes == old(columnAttributes) && columns == old(columns)
      ensures name == old(name) && nextBool == old(nextBool) && generatedBy == old(generatedBy)
    {
      attributes := Put(attributes, attr, UserSupplied, v);
    }

    /** `GeneratedBy.X()`: the strategy builder becomes dirty with the generator chosen. */
    method GeneratedBy(g: GeneratorMapping)
      modifies this
      ensures generatedBy == Some(g)
      ensures attributes == old(attributes) && columnAttributes == old(columnAttributes)
      ensures columns == old(columns) && name == old(name) && nextBool == old(nextBool)
    {
      generatedBy := Some(g);
    }

    /** `GetIdentityMapping`: the builder is left as it was. */
    method GetIdentityMapping() returns (mapping: IdMapping)
      requires Valid()
      ensures mapping == Built()
    {
      var cols := NoColumns;
      if |columns| > 0 {
        cols := AddNamed(cols, columnAttributes, columns);
        assert cols == ColumnList(NamedColumns(columnAttributes, columns), []);
      } else if HasNameSpecified(name) {
        cols := AddDefaultColumnTo(cols, NamedColumnOver(columnAttributes, name.value));
      }
      var store := attributes;
      if member.Some? {
        store := Put(store, "Name", Defaults, Text(name.value));
      }
      store := Put(store, "Type", Defaults, TypeRef(TypeRefOf(identityType)));
      if generatedBy.Some? {
        store := Put(store, "Generator", UserSupplied, GeneratorChild(generatedBy.value));
      }
      mapping := IdMapping(ColumnBased(store, cols), None, Some(entityType));
    }
  }

  /** The loop that turns each given name into a user column over the column attributes. */
  method AddNamed(l: ColumnList, columnAttributes: Store, names: seq<string>) returns (r: ColumnList)
    ensures r.userDefined == l.userDefined + NamedColumns(columnAttributes, names) && r.defaults == l.defaults
  {
    r := l;
    for i := 0 to |names|
      invariant r.userDefined == l.userDefined + NamedColumns(columnAttributes, names[..i]) && r.defaults == l.defaults
    {
      assert NamedColumns(columnAttributes, names[..i + 1])
             == NamedColumns(columnAttributes, names[..i]) + [NamedColumnOver(columnAttributes, names[i])];
      r := AddUserColumn(r, NamedColumnOver(columnAttributes, names[i]));
    }
    assert names[..|names|] == names;
  }
}
