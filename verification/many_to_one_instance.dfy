/**
 * ManyToOneInstance: what a convention sees of a many-to-one mapping and
 * may change.  Its setters write straight into the mapping; some of them
 * write into every column the mapping currently shows; and the `Not` flag
 * inverts the next boolean setter, as in the fluent builders.
 */
module ManyToOneInstances {
  import opened Wrappers
  import opened TypeGraphs
  import opened AttributeStores
  import opened MappingModel
  import opened NodeOperations
  import opened BuilderSupport

  // ---------------------------------------------------------------------
  // Column(name)

  /** The column `Column(name)` installs: a copy of the first column shown, or a new one, renamed. */
  function RenamedFirst(m: ManyToOneMapping, name: string): ColumnMapping
  {
    var visible := Columns(m.columns);
    var original := if visible == [] then ColumnMapping(map[], None) else CloneColumn(visible[0]);
    SetColumn(original, "Name", AssignedLayer, Text(name))
  }

  /** `Column(name)`: nothing once the user defined columns; otherwise the renamed column replaces them all. */
  function ColumnRenamed(m: ManyToOneMapping, name: string): ManyToOneMapping
  {
    if m.columns.userDefined != [] then m
    else ManyToOneAddColumn(ManyToOneClearColumns(m), RenamedFirst(m, name))
  }

  /**
   * A convention's Column leaves a mapping with user-defined columns alone;
   * otherwise the mapping ends with exactly one column, user-defined, that
   * has the given name and every other attribute of the column it replaced
   * (none when there was no column), and the rest of the mapping is kept.
   */
  lemma ColumnReplacesShownColumns(m: ManyToOneMapping, name: string)
    requires Columns(m.columns) != [] ==> forall k :: k in LayersOf(Columns(m.columns)[0].store, "Name") ==> k <= AssignedLayer
    ensures m.columns.userDefined != [] ==> ColumnRenamed(m, name) == m
    ensures m.columns.userDefined == [] ==>
              var r := ColumnRenamed(m, name);
              && r.columns.defaults == [] && |r.columns.userDefined| == 1
              && Lookup(r.columns.userDefined[0].store, "Name") == Some(Text(name))
              && (forall a :: a != "Name" ==>
                    Lookup(r.columns.userDefined[0].store, a)
                    == if m.columns.defaults == [] then None else Lookup(m.columns.defaults[0].store, a))
              && r.(columns := m.columns) == m
  {
    if m.columns.userDefined == [] && m.columns.defaults != [] {
      assert Columns(m.columns)[0] == m.columns.defaults[0];
    }
  }

  /** Only the first Column a convention applies takes effect. */
  lemma ColumnAppliesOnce(m: ManyToOneMapping, first: string, second: string)
    ensures ColumnRenamed(ColumnRenamed(m, first), second) == ColumnRenamed(m, first)
  {
  }

  // ---------------------------------------------------------------------
  // Setters that reach every column

  /** Each column with `attr` updated. */
  function AssignedColumns(cs: seq<ColumnMapping>, attr: string, v: Value): (r: seq<ColumnMapping>)
    ensures |r| == |cs|
    ensures forall i :: 0 <= i < |cs| ==> r[i] == SetColumn(cs[i], attr, AssignedLayer, v)
  {
    seq(|cs|, i requires 0 <= i < |cs| => SetColumn(cs[i], attr, AssignedLayer, v))
  }

  /** `foreach (var column in mapping.Columns) column.X = v`, on a value. */
  function EveryColumnAssigned(l: ColumnList, attr: string, v: Value): ColumnList
  {
    WithVisible(l, AssignedColumns(Columns(l), attr, v))
  }

  /**
   * Every column the mapping shows receives the value, no column is added
   * or lost, every other attribute of each column is kept, and the columns
   * the list hides are untouched.
   */
  lemma EveryShownColumnReceives(l: ColumnList, attr: string, v: Value)
    ensures var r := EveryColumnAssigned(l, attr, v);
            && |Columns(r)| == |Columns(l)|
            && (forall i :: 0 <= i < |Columns(r)| ==> Slot(Columns(r)[i].store, attr, AssignedLayer) == Some(v))
            && (forall i, b :: 0 <= i < |Columns(r)| && b != attr ==> Lookup(Columns(r)[i].store, b) == Lookup(Columns(l)[i].store, b))
            && (l.userDefined != [] ==> r.defaults == l.defaults)
  {
  }

  // ---------------------------------------------------------------------
  // The instance

  class ManyToOneInstance {
    var mapping: ManyToOneMapping
    var nextBool: bool

    /** `new ManyToOneInstance(mapping)` */
    constructor (mapping: ManyToOneMapping)
      ensures this.mapping == mapping && nextBool
    {
      this.mapping := mapping;
      nextBool := true;
    }

    method Column(columnName: string)
      modifies this
      ensures mapping == ColumnRenamed(old(mapping), columnName)
      ensures nextBool == old(nextBool)
    {
      if mapping.columns.userDefined != [] {
        return;
      }
      var visible := Columns(mapping.columns);
      var column := if visible == [] then ColumnMapping(map[], None) else CloneColumn(visible[0]);
      column := SetColumn(column, "Name", AssignedLayer, Text(columnName));
      mapping := ManyToOneClearColumns(mapping);
      mapping := ManyToOneAddColumn(mapping, column);
    }

    /** `Formula(f)`: the formula is updated and the columns are left as they are. */
    method Formula(formula: string)
      modifies this
      ensures mapping == ManyToOneSet(old(mapping), "Formula", AssignedLayer, Text(formula))
      ensures mapping.columns == old(mapping.columns) && nextBool == old(nextBool)
    {
      mapping := ManyToOneSet(mapping, "Formula", AssignedLayer, Text(formula));
    }

    /** `CustomClass<T>()`, `CustomClass(type)`, `OverrideInferredClass(type)`: Class becomes a reference to the type. */
    method CustomClass(t: TypeId)
      modifies this
      ensures mapping == ManyToOneSet(old(mapping), "Class", AssignedLayer, TypeRef(TypeRefOf(t)))
      ensures nextBool == old(nextBool)
    {
      mapping := ManyToOneSet(mapping, "Class", AssignedLayer, TypeRef(TypeRefOf(t)));
    }

    /** Access, Cascade, Fetch and NotFound callbacks, PropertyRef, ForeignKey: string assignments. */
    method SetText(attr: string, text: string)
      requires attr in {"Access", "Cascade", "Fetch", "NotFound", "PropertyRef", "ForeignKey"}
      modifies this
      ensures mapping == ManyToOneSet(old(mapping), attr, AssignedLayer, Text(text))
      ensures nextBool == old(nextBool)
    {
      mapping := ManyToOneSet(mapping, attr, AssignedLayer, Text(text));
    }

    method Not()
      modifies this
      ensures nextBool == !old(nextBool) && mapping == old(mapping)
    {
      nextBool := !nextBool;
    }

    /** Insert, Update, OptimisticLock: the flag's value; the flag is then reset. */
    method SetFlag(attr: string)
      requires attr in {"Insert", "Update", "OptimisticLock"}
      modifies this
      ensures mapping == ManyToOneSet(old(mapping), attr, AssignedLayer, Flag(old(nextBool)))
      ensures nextBool
    {
      mapping := ManyToOneSet(mapping, attr, AssignedLayer, Flag(nextBool));
      nextBool := true;
    }

    /** `ReadOnly`: Insert and Update both become the negated flag. */
    method ReadOnly()
      modifies this
      ensures mapping == ManyToOneSet(ManyToOneSet(old(mapping), "Insert", AssignedLayer, Flag(!old(nextBool))),
                                      "Update", AssignedLayer, Flag(!old(nextBool)))
      ensures nextBool
    {
      mapping := ManyToOneSet(mapping, "Insert", AssignedLayer, Flag(!nextBool));
      mapping := ManyToOneSet(mapping, "Update", AssignedLayer, Flag(!nextBool));
      nextBool := true;
    }

    /** `LazyLoad(laziness)`: the laziness by name; the flag is reset. */
    method LazyLoadAs(laziness: string)
      modifies this
      ensures mapping == ManyToOneSet(old(mapping), "Lazy", AssignedLayer, Text(laziness))
      ensures nextBool
    {
      mapping := ManyToOneSet(mapping, "Lazy", AssignedLayer, Text(laziness));
      nextBool := true;
    }

    /** `LazyLoad()`: proxy laziness, or none after `Not`; the flag is reset. */
    method LazyLoad()
      modifies this
      ensures mapping == ManyToOneSet(old(mapping), "Lazy", AssignedLayer, Text(if old(nextBool) then "proxy" else "false"))
      ensures nextBool
    {
      if nextBool {
        LazyLoadAs("proxy");
      } else {
        LazyLoadAs("false");
      }
      nextBool := true;
    }

    /** The loop over every column the mapping shows. */
    method AssignEveryColumn(attr: string, v: Value)
      modifies this
      ensures mapping == old(mapping).(columns := EveryColumnAssigned(old(mapping.columns), attr, v))
      ensures nextBool == old(nextBool)
    {
      var visible := Columns(mapping.columns);
      var updated: seq<ColumnMapping> := [];
      for i := 0 to |visible|
        invariant |updated| == i
        invariant forall j :: 0 <= j < i ==> updated[j] == SetColumn(visible[j], attr, AssignedLayer, v)
        invariant mapping == old(mapping) && nextBool == old(nextBool)
      {
        updated := updated + [SetColumn(visible[i], attr, AssignedLayer, v)];
      }
      mapping := mapping.(columns := WithVisible(mapping.columns, updated));
    }

    /** `Index(index)`, `UniqueKey(key)`: every column shown; the flag is untouched. */
    method ColumnText(attr: string, text: string)
      requires attr in {"Index", "UniqueKey"}
      modifies this
      ensures mapping == old(mapping).(columns := EveryColumnAssigned(old(mapping.columns), attr, Text(text)))
      ensures nextBool == old(nextBool)
    {
      AssignEveryColumn(attr, Text(text));
    }

    /** `Unique()`: every column shown takes the flag's value; the flag is reset. */
    method Unique()
      modifies this
      ensures mapping == old(mapping).(columns := EveryColumnAssigned(old(mapping.columns), "Unique", Flag(old(nextBool))))
      ensures nextBool
    {
      AssignEveryColumn("Unique", Flag(nextBool));
      nextBool := true;
    }

    /** `Nullable()`: every column shown takes the negated flag as NotNull; the flag is reset. */
    method Nullable()
      modifies this
      ensures mapping == old(mapping).(columns := EveryColumnAssigned(old(mapping.columns), "NotNull", Flag(!old(nextBool))))
      ensures nextBool
    {
      AssignEveryColumn("NotNull", Flag(!nextBool));
      nextBool := true;
    }
  }
}
