/**
 * Structural equality of the mapping model, as each node's `Equals` defines
 * it.  Several nodes leave fields out of the comparison, so two nodes that
 * compare equal can still differ, and be walked differently.
 */
module ModelEquality {
  import opened Wrappers
  import opened AttributeStores
  import opened MappingModel
  import opened NodeOperations
  import opened ModelTraversal
  import SeparateSubclass

  /** `ColumnMapping.Equals`: store and member. */
  predicate ColumnEquals(a: ColumnMapping, b: ColumnMapping)
  {
    a.store == b.store && a.member == b.member
  }

  /** `ColumnBasedMappingBase.Equals`, whose body is not part of this model: store and visible columns. */
  predicate BaseEquals(a: ColumnBased, b: ColumnBased)
  {
    a.store == b.store && Columns(a.columns) == Columns(b.columns)
  }

  /** `KeyMapping.Equals`: store, visible columns and containing entity. */
  predicate KeyEquals(a: KeyMapping, b: KeyMapping)
  {
    a.store == b.store && Columns(a.columns) == Columns(b.columns) && a.containingEntityType == b.containingEntityType
  }

  /** `CacheMapping.Equals`: store and contained entity. */
  predicate CacheEquals(a: CacheMapping, b: CacheMapping)
  {
    a.store == b.store && a.containedEntityType == b.containedEntityType
  }

  /** `GeneratorMapping.Equals`: store, parameter contents and containing entity. */
  predicate GeneratorEquals(a: GeneratorMapping, b: GeneratorMapping)
  {
    a.store == b.store && a.params == b.params && a.containingEntityType == b.containingEntityType
  }

  /** `IdMapping.Equals`: the column-based base, member and containing entity. */
  predicate IdEquals(a: IdMapping, b: IdMapping)
  {
    BaseEquals(a.base, b.base) && a.member == b.member && a.containingEntityType == b.containingEntityType
  }

  /** `KeyPropertyMapping.Equals`: store, columns and containing entity. */
  predicate KeyPropertyEquals(a: KeyPropertyMapping, b: KeyPropertyMapping)
  {
    a.store == b.store && a.columns == b.columns && a.containingEntityType == b.containingEntityType
  }

  /** `KeyManyToOneMapping.Equals`: store, columns and containing entity. */
  predicate KeyManyToOneEquals(a: KeyManyToOneMapping, b: KeyManyToOneMapping)
  {
    a.store == b.store && a.columns == b.columns && a.containingEntityType == b.containingEntityType
  }

  /** `CompositeIdMapping.Equals`: store, keys and containing entity. */
  predicate CompositeIdEquals(a: CompositeIdMapping, b: CompositeIdMapping)
  {
    a.store == b.store && a.keys == b.keys && a.containingEntityType == b.containingEntityType
  }

  /** `PropertyMapping.Equals`: the base, containing entity and member. */
  predicate PropertyEquals(a: PropertyMapping, b: PropertyMapping)
  {
    BaseEquals(a.base, b.base) && a.containingEntityType == b.containingEntityType && a.member == b.member
  }

  /** `DiscriminatorMapping.Equals`: containing entity, visible columns and store. */
  predicate DiscriminatorEquals(a: DiscriminatorMapping, b: DiscriminatorMapping)
  {
    a.containingEntityType == b.containingEntityType && Columns(a.base.columns) == Columns(b.base.columns)
    && a.base.store == b.base.store
  }

  /** `VersionMapping.Equals`: the base and containing entity. */
  predicate VersionEquals(a: VersionMapping, b: VersionMapping)
  {
    BaseEquals(a.base, b.base) && a.containingEntityType == b.containingEntityType
  }

  /** `ManyToOneMapping.Equals`: store, visible columns, containing entity and member, but not the other side. */
  predicate ManyToOneEquals(a: ManyToOneMapping, b: ManyToOneMapping)
  {
    a.store == b.store && Columns(a.columns) == Columns(b.columns)
    && a.containingEntityType == b.containingEntityType && a.member == b.member
  }

  /** `OneToOneMapping.Equals`: store and containing entity. */
  predicate OneToOneEquals(a: OneToOneMapping, b: OneToOneMapping)
  {
    a.store == b.store && a.containingEntityType == b.containingEntityType
  }

  /** `MetaValueMapping.Equals`: store and containing entity. */
  predicate MetaValueEquals(a: MetaValueMapping, b: MetaValueMapping)
  {
    a.store == b.store && a.containingEntityType == b.containingEntityType
  }

  /** `AnyMapping.Equals`: store, both visible column lists, meta values and containing entity. */
  predicate AnyEquals(a: AnyMapping, b: AnyMapping)
  {
    a.store == b.store && Columns(a.typeColumns) == Columns(b.typeColumns)
    && Columns(a.identifierColumns) == Columns(b.identifierColumns)
    && a.metaValues == b.metaValues && a.containingEntityType == b.containingEntityType
  }

  /** `ManyToManyMapping.Equals`: store, visible columns and containing entity, but not the child filters. */
  predicate ManyToManyEquals(a: ManyToManyMapping, b: ManyToManyMapping)
  {
    a.store == b.store && Columns(a.columns) == Columns(b.columns) && a.containingEntityType == b.containingEntityType
  }

  /** `IndexManyToManyMapping.Equals`: store, visible columns and containing entity. */
  predicate IndexManyToManyEquals(a: IndexManyToManyMapping, b: IndexManyToManyMapping)
  {
    a.store == b.store && Columns(a.columns) == Columns(b.columns) && a.containingEntityType == b.containingEntityType
  }

  /** `CollectionMapping.Equals`: store, filters, containing entity and member, but not the kind or the other side. */
  predicate CollectionEquals(a: CollectionMapping, b: CollectionMapping)
  {
    a.store == b.store && a.filters == b.filters && a.containingEntityType == b.containingEntityType && a.member == b.member
  }

  /** `ClassMapping.Equals`: the shared body and the store. */
  predicate ClassEquals(a: ClassMapping, b: ClassMapping)
  {
    a.body == b.body && a.store == b.store
  }

  /** `SubclassMapping.Equals`: the shared body and the store, but not the kind. */
  predicate SubclassEquals(a: SubclassMapping, b: SubclassMapping)
  {
    a.body == b.body && a.store == b.store
  }

  /** `ComponentMapping.Equals`: the shared body and the store. */
  predicate ComponentEquals(a: ComponentMapping, b: ComponentMapping)
  {
    a.body == b.body && a.store == b.store
  }

  // ---------------------------------------------------------------------
  // What equality sees and what it misses

  /** A cloned column equals its original exactly when the original has no member, which the clone drops. */
  lemma CloneEqualsOriginalIffNoMember(c: ColumnMapping)
    ensures ColumnEquals(CloneColumn(c), c) <==> c.member.None?
  {
  }

  /** Equal keys are walked alike: the walk sees only what key equality compares. */
  lemma EqualKeysWalkAlike(a: KeyMapping, b: KeyMapping)
    requires KeyEquals(a, b)
    ensures WalkKey(a) == WalkKey(b)
    ensures ColumnsIn(WalkKey(a)) == ColumnsIn(WalkKey(b))
  {
  }

  /**
   * Key equality compares the visible columns only, so two equal keys can
   * stop being equal after the same column is added: one shows a default
   * column that the added user column hides, the other shows it as a user
   * column that stays.
   */
  lemma KeyEqualityNotKeptByAddColumn()
    ensures exists a: KeyMapping, b: KeyMapping, c: ColumnMapping ::
              KeyEquals(a, b) && !KeyEquals(KeyAddColumn(a, c), KeyAddColumn(b, c))
  {
    var x := NamedColumn("x");
    var y := NamedColumn("y");
    assert x != y by {
      assert Lookup(x.store, "Name") != Lookup(y.store, "Name");
    }
    var a := KeyMapping(map[], ColumnList([], [x]), None);
    var b := KeyMapping(map[], ColumnList([x], []), None);
    assert KeyEquals(a, b);
    assert Columns(KeyAddColumn(a, y).columns) == [y];
    assert Columns(KeyAddColumn(b, y).columns) == [x, y];
    assert !KeyEquals(KeyAddColumn(a, y), KeyAddColumn(b, y));
  }

  /** Changing a collection's kind or other side keeps it equal to what it was. */
  lemma CollectionEqualsIgnoresKindAndOtherSide(c: CollectionMapping, kind: CollectionKind, otherSide: Option<nat>)
    ensures CollectionEquals(c, c.(kind := kind, otherSide := otherSide))
  {
  }

  /**
   * Two collections can compare equal yet be walked differently: a bag and
   * a list over the same store holding an index.
   */
  lemma EqualCollectionsMayWalkDifferently()
    ensures exists a: CollectionMapping, b: CollectionMapping ::
              CollectionEquals(a, b) && Count(WalkCollection(a), IsIndexStep) != Count(WalkCollection(b), IsIndexStep)
  {
    var empty: Store := map[];
    var index := IndexChild(PlainIndex(IndexMapping(empty, NoColumns, None)));
    LookupAfterPut(empty, "Index", Defaults, index);
    var s := Put(empty, "Index", Defaults, index);
    var bag := NewCollection(Bag, s);
    var list := NewCollection(List, s);
    assert IndexOf(bag).Some? && IndexOf(list).Some?;
    CollectionVisitsIndexOnlyWhenIndexed(bag);
    CollectionVisitsIndexOnlyWhenIndexed(list);
    assert CollectionEquals(bag, list);
  }

  /** Many-to-many equality ignores the child filters, which the walk nevertheless visits. */
  lemma ManyToManyEqualsIgnoresChildFilters(m: ManyToManyMapping, filters: seq<FilterMapping>)
    ensures ManyToManyEquals(m, m.(childFilters := filters))
    ensures FiltersIn(WalkManyToMany(m.(childFilters := filters))) == filters
  {
    var m' := m.(childFilters := filters);
    var cols := ColumnSteps(Columns(m.columns));
    FiltersInAppend([ProcessManyToMany] + cols, FilterSteps(filters));
    FiltersInAppend([ProcessManyToMany], cols);
    ColumnStepsObserved(Columns(m.columns), (s: Step) => false);
    FilterStepsObserved(filters, (s: Step) => false);
  }

  /** Many-to-one equality ignores the other side. */
  lemma ManyToOneEqualsIgnoresOtherSide(m: ManyToOneMapping, otherSide: Option<nat>)
    ensures ManyToOneEquals(m, m.(otherSide := otherSide))
  {
  }

  /**
   * Subclass equality ignores the kind, although the kind decides whether
   * the subclass's key is walked.
   */
  lemma SubclassEqualsIgnoresKind(s: SubclassMapping)
    requires SubclassKeyOf(s).Some?
    ensures SubclassEquals(s.(kind := SeparateSubclass.JoinedSubclass), s.(kind := SeparateSubclass.Subclass))
    ensures Count(WalkSubclass(s.(kind := SeparateSubclass.JoinedSubclass)), IsKeyStep) == 1
    ensures Count(WalkSubclass(s.(kind := SeparateSubclass.Subclass)), IsKeyStep) == 0
  {
    var joined := s.(kind := SeparateSubclass.JoinedSubclass);
    var plain := s.(kind := SeparateSubclass.Subclass);
    assert SubclassKeyOf(joined) == SubclassKeyOf(s) == SubclassKeyOf(plain);
    SubclassVisitsKeyOnlyWhenJoined(joined);
    SubclassVisitsKeyOnlyWhenJoined(plain);
  }
}
