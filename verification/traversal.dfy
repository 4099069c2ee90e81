/**
 * How a visitor walks the mapping model: each node's AcceptVisitor announces
 * the node to the visitor and then visits its children in a fixed order,
 * skipping the absent ones.  A walk is modelled as the sequence of calls the
 * visitor receives.
 */
module ModelTraversal {
  import opened Wrappers
  import opened AttributeStores
  import opened MappingModel
  import opened NodeOperations
  import SeparateSubclass

  /** One call into the visitor. */
  datatype Step =
    | ProcessClass | ProcessSubclass | ProcessComponent | ProcessCollection
    | ProcessManyToMany | ProcessIndex | ProcessKey | ProcessColumn(column: ColumnMapping)
    | ProcessManyToOne | ProcessOneToOne | ProcessAny | ProcessMetaValue
    | ProcessCompositeId | ProcessKeyProperty | ProcessKeyManyToOne | ProcessId | ProcessGenerator
    | ProcessProperty | ProcessDiscriminator | ProcessVersion | ProcessCache
    | VisitFilter(filter: FilterMapping)
    | VisitUnseen(kind: UnseenKind, id: nat)
    | VisitIndexMapping(index: IndexMapping)
    | VisitBody(body: ClassBody)

  // ---------------------------------------------------------------------
  // Walks

  function ColumnSteps(cs: seq<ColumnMapping>): (r: seq<Step>)
    ensures |r| == |cs|
    ensures forall i :: 0 <= i < |cs| ==> r[i] == ProcessColumn(cs[i])
  {
    if cs == [] then [] else [ProcessColumn(cs[0])] + ColumnSteps(cs[1..])
  }

  function FilterSteps(fs: seq<FilterMapping>): (r: seq<Step>)
    ensures |r| == |fs|
    ensures forall i :: 0 <= i < |fs| ==> r[i] == VisitFilter(fs[i])
  {
    if fs == [] then [] else [VisitFilter(fs[0])] + FilterSteps(fs[1..])
  }

  function WalkKey(k: KeyMapping): seq<Step>
  {
    [ProcessKey] + ColumnSteps(Columns(k.columns))
  }

  function WalkCache(c: CacheMapping): seq<Step>
  {
    [ProcessCache]
  }

  function WalkGenerator(g: GeneratorMapping): seq<Step>
  {
    [ProcessGenerator]
  }

  function WalkId(i: IdMapping): seq<Step>
  {
    [ProcessId] + ColumnSteps(Columns(i.base.columns))
    + (match GeneratorOf(i) case Some(g) => WalkGenerator(g) case None => [])
  }

  function WalkCompositeKey(k: CompositeKey): seq<Step>
  {
    match k
    case KeyProperty(p) => [ProcessKeyProperty] + ColumnSteps(p.columns)
    case KeyManyToOne(m) => [ProcessKeyManyToOne] + ColumnSteps(m.columns)
  }

  function WalkCompositeKeys(keys: seq<CompositeKey>): seq<Step>
  {
    if keys == [] then [] else WalkCompositeKeys(keys[..|keys| - 1]) + WalkCompositeKey(keys[|keys| - 1])
  }

  function WalkCompositeId(c: CompositeIdMapping): seq<Step>
  {
    [ProcessCompositeId] + WalkCompositeKeys(c.keys)
  }

  function WalkIdentity(i: IdentityMapping): seq<Step>
  {
    match i
    case Id(id) => WalkId(id)
    case CompositeId(c) => WalkCompositeId(c)
  }

  function WalkProperty(p: PropertyMapping): seq<Step>
  {
    [ProcessProperty] + ColumnSteps(Columns(p.base.columns))
  }

  function WalkDiscriminator(d: DiscriminatorMapping): seq<Step>
  {
    [ProcessDiscriminator] + ColumnSteps(Columns(d.base.columns))
  }

  function WalkVersion(v: VersionMapping): seq<Step>
  {
    [ProcessVersion] + ColumnSteps(Columns(v.base.columns))
  }

  function WalkManyToOne(m: ManyToOneMapping): seq<Step>
  {
    [ProcessManyToOne] + ColumnSteps(Columns(m.columns))
  }

  function WalkOneToOne(o: OneToOneMapping): seq<Step>
  {
    [ProcessOneToOne]
  }

  function WalkMetaValues(mvs: seq<MetaValueMapping>): (r: seq<Step>)
    ensures r == seq(|mvs|, _ => ProcessMetaValue)
  {
    if mvs == [] then [] else [ProcessMetaValue] + WalkMetaValues(mvs[1..])
  }

  function WalkAny(a: AnyMapping): seq<Step>
  {
    [ProcessAny] + WalkMetaValues(a.metaValues)
    + ColumnSteps(Columns(a.typeColumns)) + ColumnSteps(Columns(a.identifierColumns))
  }

  function WalkManyToMany(m: ManyToManyMapping): seq<Step>
  {
    [ProcessManyToMany] + ColumnSteps(Columns(m.columns)) + FilterSteps(m.childFilters)
  }

  function WalkIndexManyToMany(m: IndexManyToManyMapping): seq<Step>
  {
    [ProcessIndex] + ColumnSteps(Columns(m.columns))
  }

  function WalkIndex(x: IndexNode): seq<Step>
  {
    match x
    case PlainIndex(p) => [VisitIndexMapping(p)]
    case ManyToManyIndex(m) => WalkIndexManyToMany(m)
  }

  function WalkRelationship(r: Relationship): seq<Step>
  {
    match r
    case ManyToManyRelationship(m) => WalkManyToMany(m)
    case OneToManyRelationship(n) => [VisitUnseen(OneToManyNode, n)]
  }

  /** The collection kinds whose mappings carry an index. */
  predicate Indexed(kind: CollectionKind)
  {
    kind == Array || kind == List || kind == Map
  }

  function CollectionKeySteps(c: CollectionMapping): seq<Step>
  {
    match CollectionKeyOf(c) case Some(k) => WalkKey(k) case None => []
  }

  function CollectionIndexSteps(c: CollectionMapping): seq<Step>
  {
    match IndexOf(c) case Some(x) => if Indexed(c.kind) then WalkIndex(x) else [] case None => []
  }

  function CollectionElementSteps(c: CollectionMapping): seq<Step>
  {
    (match ElementOf(c) case Some(n) => [VisitUnseen(ElementNode, n)] case None => [])
    + (match CompositeElementOf(c) case Some(n) => [VisitUnseen(CompositeElementNode, n)] case None => [])
  }

  function CollectionRelationshipSteps(c: CollectionMapping): seq<Step>
  {
    match RelationshipOf(c) case Some(r) => WalkRelationship(r) case None => []
  }

  function CollectionCacheSteps(c: CollectionMapping): seq<Step>
  {
    match CollectionCacheOf(c) case Some(x) => WalkCache(x) case None => []
  }

  /** The steps of a collection walk before its filters. */
  function CollectionHead(c: CollectionMapping): seq<Step>
  {
    [ProcessCollection] + CollectionKeySteps(c) + CollectionIndexSteps(c)
    + CollectionElementSteps(c) + CollectionRelationshipSteps(c)
  }

  /** `CollectionMapping.AcceptVisitor` */
  function WalkCollection(c: CollectionMapping): seq<Step>
  {
    CollectionHead(c) + FilterSteps(c.filters) + CollectionCacheSteps(c)
  }

  function ClassIdSteps(c: ClassMapping): seq<Step>
  {
    match IdOf(c) case Some(i) => WalkIdentity(i) case None => []
  }

  function ClassNaturalIdSteps(c: ClassMapping): seq<Step>
  {
    match NaturalIdOf(c) case Some(n) => [VisitUnseen(NaturalIdNode, n)] case None => []
  }

  function ClassDiscriminatorSteps(c: ClassMapping): seq<Step>
  {
    match DiscriminatorOf(c) case Some(d) => WalkDiscriminator(d) case None => []
  }

  function ClassCacheSteps(c: ClassMapping): seq<Step>
  {
    match ClassCacheOf(c) case Some(x) => WalkCache(x) case None => []
  }

  function ClassVersionSteps(c: ClassMapping): seq<Step>
  {
    match VersionOf(c) case Some(v) => WalkVersion(v) case None => []
  }

  function ClassTuplizerSteps(c: ClassMapping): seq<Step>
  {
    match TuplizerOf(c) case Some(n) => [VisitUnseen(TuplizerNode, n)] case None => []
  }

  /** The part of a class walk that comes from its Id, NaturalId, Discriminator, Cache, Version and Tuplizer. */
  function ClassChildren(c: ClassMapping): seq<Step>
  {
    ClassIdSteps(c) + ClassNaturalIdSteps(c) + ClassDiscriminatorSteps(c)
    + ClassCacheSteps(c) + ClassVersionSteps(c) + ClassTuplizerSteps(c)
  }

  /** `ClassMapping.AcceptVisitor` */
  function WalkClass(c: ClassMapping): seq<Step>
  {
    [ProcessClass] + ClassChildren(c) + [VisitBody(c.body)]
  }

  /** `SubclassMapping.AcceptVisitor` */
  function WalkSubclass(s: SubclassMapping): seq<Step>
  {
    [ProcessSubclass]
    + (if s.kind == SeparateSubclass.JoinedSubclass && SubclassKeyOf(s).Some? then WalkKey(SubclassKeyOf(s).value) else [])
    + [VisitBody(s.body)]
  }

  /** `ComponentMapping.AcceptVisitor` */
  function WalkComponent(c: ComponentMapping): seq<Step>
  {
    [ProcessComponent] + [VisitBody(c.body)]
  }

  // ---------------------------------------------------------------------
  // Observations of a walk

  /** The columns a walk visits, in order. */
  function ColumnsIn(steps: seq<Step>): seq<ColumnMapping>
  {
    if steps == [] then []
    else (if steps[0].ProcessColumn? then [steps[0].column] else []) + ColumnsIn(steps[1..])
  }

  /** The filters a walk visits, in order. */
  function FiltersIn(steps: seq<Step>): seq<FilterMapping>
  {
    if steps == [] then []
    else (if steps[0].VisitFilter? then [steps[0].filter] else []) + FiltersIn(steps[1..])
  }

  /** How many steps of a walk satisfy `p`. */
  function Count(steps: seq<Step>, p: Step -> bool): nat
  {
    if steps == [] then 0 else (if p(steps[0]) then 1 else 0) + Count(steps[1..], p)
  }

  lemma {:induction false} ColumnsInAppend(a: seq<Step>, b: seq<Step>)
    ensures ColumnsIn(a + b) == ColumnsIn(a) + ColumnsIn(b)
  {
    if a == [] {
      assert a + b == b;
    } else {
      assert (a + b)[0] == a[0];
      assert (a + b)[1..] == a[1..] + b;
      ColumnsInAppend(a[1..], b);
    }
  }

  lemma {:induction false} FiltersInAppend(a: seq<Step>, b: seq<Step>)
    ensures FiltersIn(a + b) == FiltersIn(a) + FiltersIn(b)
  {
    if a == [] {
      assert a + b == b;
    } else {
      assert (a + b)[0] == a[0];
      assert (a + b)[1..] == a[1..] + b;
      FiltersInAppend(a[1..], b);
    }
  }

  lemma {:induction false} CountAppend(a: seq<Step>, b: seq<Step>, p: Step -> bool)
    ensures Count(a + b, p) == Count(a, p) + Count(b, p)
  {
    if a == [] {
      assert a + b == b;
    } else {
      assert (a + b)[0] == a[0];
      assert (a + b)[1..] == a[1..] + b;
      CountAppend(a[1..], b, p);
    }
  }

  lemma {:induction false} ColumnStepsObserved(cs: seq<ColumnMapping>, p: Step -> bool)
    requires forall c :: !p(ProcessColumn(c))
    ensures ColumnsIn(ColumnSteps(cs)) == cs
    ensures FiltersIn(ColumnSteps(cs)) == []
    ensures Count(ColumnSteps(cs), p) == 0
  {
    if cs != [] {
      ColumnStepsObserved(cs[1..], p);
      assert ColumnSteps(cs)[1..] == ColumnSteps(cs[1..]);
    }
  }

  lemma {:induction false} FilterStepsObserved(fs: seq<FilterMapping>, p: Step -> bool)
    requires forall f :: !p(VisitFilter(f))
    ensures ColumnsIn(FilterSteps(fs)) == []
    ensures FiltersIn(FilterSteps(fs)) == fs
    ensures Count(FilterSteps(fs), p) == 0
  {
    if fs != [] {
      FilterStepsObserved(fs[1..], p);
      assert FilterSteps(fs)[1..] == FilterSteps(fs[1..]);
    }
  }

  lemma {:induction false} MetaValuesObserved(mvs: seq<MetaValueMapping>, p: Step -> bool)
    ensures ColumnsIn(WalkMetaValues(mvs)) == []
    ensures Count(WalkMetaValues(mvs), p) == if p(ProcessMetaValue) then |mvs| else 0
  {
    if mvs != [] {
      MetaValuesObserved(mvs[1..], p);
      assert WalkMetaValues(mvs)[1..] == WalkMetaValues(mvs[1..]);
    }
  }

  // ---------------------------------------------------------------------
  // What each walk visits

  /** A key announces itself and then visits exactly its columns, in order. */
  lemma KeyVisitsItsColumns(k: KeyMapping)
    ensures WalkKey(k)[0] == ProcessKey
    ensures ColumnsIn(WalkKey(k)) == Columns(k.columns)
  {
    ColumnsInAppend([ProcessKey], ColumnSteps(Columns(k.columns)));
    ColumnStepsObserved(Columns(k.columns), (s: Step) => s.ProcessKey?);
  }

  /**
   * An any-mapping visits all its meta values before any column, then the
   * type columns and then the identifier columns.
   */
  lemma AnyVisitOrder(a: AnyMapping)
    ensures WalkAny(a)[0] == ProcessAny
    ensures forall i :: 1 <= i <= |a.metaValues| ==> WalkAny(a)[i] == ProcessMetaValue
    ensures ColumnsIn(WalkAny(a)) == Columns(a.typeColumns) + Columns(a.identifierColumns)
    ensures Count(WalkAny(a), IsMetaValueStep) == |a.metaValues|
  {
    AnyMetaValuesFirst(a);
    AnyColumns(a);
    AnyMetaValueCount(a);
  }

  lemma AnyColumns(a: AnyMapping)
    ensures ColumnsIn(WalkAny(a)) == Columns(a.typeColumns) + Columns(a.identifierColumns)
  {
    var head := [ProcessAny] + WalkMetaValues(a.metaValues);
    var ts := ColumnSteps(Columns(a.typeColumns));
    var ids := ColumnSteps(Columns(a.identifierColumns));
    assert WalkAny(a) == head + ts + ids;
    AnyHead(a);
    ColumnStepsObserved(Columns(a.typeColumns), IsMetaValueStep);
    ColumnStepsObserved(Columns(a.identifierColumns), IsMetaValueStep);
    ColumnsInAppend(head, ts);
    assert ColumnsIn(head + ts) == Columns(a.typeColumns);
    ColumnsInAppend(head + ts, ids);
  }

  lemma AnyMetaValueCount(a: AnyMapping)
    ensures Count(WalkAny(a), IsMetaValueStep) == |a.metaValues|
  {
    var head := [ProcessAny] + WalkMetaValues(a.metaValues);
    var ts := ColumnSteps(Columns(a.typeColumns));
    var ids := ColumnSteps(Columns(a.identifierColumns));
    assert WalkAny(a) == head + ts + ids;
    AnyHead(a);
    ColumnStepsObserved(Columns(a.typeColumns), IsMetaValueStep);
    ColumnStepsObserved(Columns(a.identifierColumns), IsMetaValueStep);
    CountAppend(head + ts, ids, IsMetaValueStep);
    CountAppend(head, ts, IsMetaValueStep);
  }

  predicate IsMetaValueStep(s: Step)
  {
    s.ProcessMetaValue?
  }

  lemma AnyMetaValuesFirst(a: AnyMapping)
    ensures forall i :: 1 <= i <= |a.metaValues| ==> WalkAny(a)[i] == ProcessMetaValue
  {
    var mv := WalkMetaValues(a.metaValues);
    var head := [ProcessAny] + mv;
    var types, identifiers := ColumnSteps(Columns(a.typeColumns)), ColumnSteps(Columns(a.identifierColumns));
    assert WalkAny(a) == head + types + identifiers;
    forall i | 1 <= i <= |a.metaValues|
      ensures WalkAny(a)[i] == ProcessMetaValue
    {
      assert head[i] == mv[i - 1];
      assert (head + types)[i] == head[i];
    }
  }

  lemma AnyHead(a: AnyMapping)
    ensures ColumnsIn([ProcessAny] + WalkMetaValues(a.metaValues)) == []
    ensures Count([ProcessAny] + WalkMetaValues(a.metaValues), IsMetaValueStep) == |a.metaValues|
  {
    ColumnsInAppend([ProcessAny], WalkMetaValues(a.metaValues));
    MetaValuesObserved(a.metaValues, IsMetaValueStep);
    CountAppend([ProcessAny], WalkMetaValues(a.metaValues), IsMetaValueStep);
  }

  /** An id visits its columns, then its generator once when it has one, and otherwise nothing more. */
  lemma IdVisitsColumnsThenGenerator(i: IdMapping)
    ensures WalkId(i)[0] == ProcessId
    ensures ColumnsIn(WalkId(i)) == Columns(i.base.columns)
    ensures Count(WalkId(i), (s: Step) => s.ProcessGenerator?) == if GeneratorOf(i).Some? then 1 else 0
    ensures GeneratorOf(i).Some? ==> WalkId(i)[|WalkId(i)| - 1] == ProcessGenerator
  {
    var p := (s: Step) => s.ProcessGenerator?;
    var cols := ColumnSteps(Columns(i.base.columns));
    var gen := match GeneratorOf(i) case Some(g) => WalkGenerator(g) case None => [];
    assert WalkId(i) == [ProcessId] + cols + gen;
    ColumnStepsObserved(Columns(i.base.columns), p);
    ColumnsInAppend([ProcessId] + cols, gen);
    ColumnsInAppend([ProcessId], cols);
    CountAppend([ProcessId] + cols, gen, p);
    CountAppend([ProcessId], cols, p);
  }

  /** Adding a key to a composite id extends its walk by that key's walk, at the end. */
  lemma CompositeIdAddKeyExtendsWalk(c: CompositeIdMapping, key: CompositeKey)
    ensures WalkCompositeId(CompositeIdAddKey(c, key)) == WalkCompositeId(c) + WalkCompositeKey(key)
  {
    var keys := c.keys + [key];
    assert keys[..|keys| - 1] == c.keys;
  }

  /** The keys of a composite id are announced once each, in insertion order. */
  lemma {:induction false} CompositeKeysAnnounced(keys: seq<CompositeKey>)
    ensures Count(WalkCompositeKeys(keys), (s: Step) => s.ProcessKeyProperty? || s.ProcessKeyManyToOne?) == |keys|
  {
    var p := (s: Step) => s.ProcessKeyProperty? || s.ProcessKeyManyToOne?;
    if keys != [] {
      var init := keys[..|keys| - 1];
      var last := keys[|keys| - 1];
      CompositeKeysAnnounced(init);
      CountAppend(WalkCompositeKeys(init), WalkCompositeKey(last), p);
      match last
      case KeyProperty(k) =>
        CountAppend([ProcessKeyProperty], ColumnSteps(k.columns), p);
        ColumnStepsObserved(k.columns, p);
      case KeyManyToOne(k) =>
        CountAppend([ProcessKeyManyToOne], ColumnSteps(k.columns), p);
        ColumnStepsObserved(k.columns, p);
    }
  }

  predicate IsKeyStep(s: Step)
  {
    s.ProcessKey?
  }

  predicate IsIndexStep(s: Step)
  {
    s.ProcessIndex? || s.VisitIndexMapping?
  }

  lemma KeyWalkHasNoIndex(k: KeyMapping)
    ensures Count(WalkKey(k), IsIndexStep) == 0
    ensures FiltersIn(WalkKey(k)) == []
  {
    CountAppend([ProcessKey], ColumnSteps(Columns(k.columns)), IsIndexStep);
    ColumnStepsObserved(Columns(k.columns), IsIndexStep);
    FiltersInAppend([ProcessKey], ColumnSteps(Columns(k.columns)));
  }

  lemma RelationshipWalkHasNoIndex(r: Relationship)
    ensures Count(WalkRelationship(r), IsIndexStep) == 0
  {
    match r
    case ManyToManyRelationship(m) =>
      var cols := ColumnSteps(Columns(m.columns));
      var fs := FilterSteps(m.childFilters);
      assert WalkManyToMany(m) == [ProcessManyToMany] + cols + fs;
      CountAppend([ProcessManyToMany] + cols, fs, IsIndexStep);
      CountAppend([ProcessManyToMany], cols, IsIndexStep);
      ColumnStepsObserved(Columns(m.columns), IsIndexStep);
      FilterStepsObserved(m.childFilters, IsIndexStep);
    case OneToManyRelationship(_) =>
  }

  lemma IndexWalkIsIndexed(x: IndexNode)
    ensures Count(WalkIndex(x), IsIndexStep) == 1
  {
    match x
    case PlainIndex(_) =>
    case ManyToManyIndex(m) =>
      CountAppend([ProcessIndex], ColumnSteps(Columns(m.columns)), IsIndexStep);
      ColumnStepsObserved(Columns(m.columns), IsIndexStep);
  }

  lemma CollectionHeadIndexCount(c: CollectionMapping)
    ensures Count(CollectionHead(c), IsIndexStep) == if IndexOf(c).Some? && Indexed(c.kind) then 1 else 0
  {
    var key := CollectionKeySteps(c);
    var index := CollectionIndexSteps(c);
    var element := CollectionElementSteps(c);
    var rel := CollectionRelationshipSteps(c);
    CountAppend([ProcessCollection] + key + index + element, rel, IsIndexStep);
    CountAppend([ProcessCollection] + key + index, element, IsIndexStep);
    CountAppend([ProcessCollection] + key, index, IsIndexStep);
    CountAppend([ProcessCollection], key, IsIndexStep);
    if CollectionKeyOf(c).Some? { KeyWalkHasNoIndex(CollectionKeyOf(c).value); }
    if IndexOf(c).Some? && Indexed(c.kind) { IndexWalkIsIndexed(IndexOf(c).value); }
    if RelationshipOf(c).Some? { RelationshipWalkHasNoIndex(RelationshipOf(c).value); }
    var e1 := match ElementOf(c) case Some(n) => [VisitUnseen(ElementNode, n)] case None => [];
    var e2 := match CompositeElementOf(c) case Some(n) => [VisitUnseen(CompositeElementNode, n)] case None => [];
    CountAppend(e1, e2, IsIndexStep);
  }

  /**
   * A collection visits an index exactly when it holds one and its kind is
   * Array, List or Map: a bag or a set never visits its index.
   */
  lemma CollectionVisitsIndexOnlyWhenIndexed(c: CollectionMapping)
    ensures Count(WalkCollection(c), IsIndexStep) == if IndexOf(c).Some? && Indexed(c.kind) then 1 else 0
  {
    CountAppend(CollectionHead(c) + FilterSteps(c.filters), CollectionCacheSteps(c), IsIndexStep);
    CountAppend(CollectionHead(c), FilterSteps(c.filters), IsIndexStep);
    CollectionHeadIndexCount(c);
    FilterStepsObserved(c.filters, IsIndexStep);
  }

  /** A collection walk visits exactly the collection's own filters, in order. */
  lemma CollectionVisitsItsFilters(c: CollectionMapping)
    ensures FiltersIn(WalkCollection(c)) == FiltersIn(CollectionHead(c)) + c.filters + FiltersIn(CollectionCacheSteps(c))
  {
    FiltersInAppend(CollectionHead(c) + FilterSteps(c.filters), CollectionCacheSteps(c));
    FiltersInAppend(CollectionHead(c), FilterSteps(c.filters));
    FilterStepsObserved(c.filters, (s: Step) => false);
  }

  lemma SameStoreSameHead(c: CollectionMapping, d: CollectionMapping)
    requires c.store == d.store && c.kind == d.kind
    ensures CollectionHead(c) == CollectionHead(d)
    ensures CollectionCacheSteps(c) == CollectionCacheSteps(d)
  {
    assert CollectionKeyOf(c) == CollectionKeyOf(d);
    assert IndexOf(c) == IndexOf(d);
    assert ElementOf(c) == ElementOf(d);
    assert CompositeElementOf(c) == CompositeElementOf(d);
    assert RelationshipOf(c) == RelationshipOf(d);
    assert CollectionCacheOf(c) == CollectionCacheOf(d);
  }

  /**
   * Adding a filter to a collection adds it to the filters the walk visits,
   * after every filter visited before.
   */
  lemma AddFilterIsVisitedLast(c: CollectionMapping, f: FilterMapping)
    ensures FiltersIn(WalkCollection(AddFilter(c, f))) == FiltersIn(WalkCollection(c)) + [f]
  {
    var c' := AddFilter(c, f);
    SameStoreSameHead(c, c');
    CollectionFilters(c);
    CollectionFilters(c');
  }

  /** The filters a collection walk visits: those of its head, then its own in order. */
  lemma CollectionFilters(c: CollectionMapping)
    ensures FiltersIn(WalkCollection(c)) == FiltersIn(CollectionHead(c)) + c.filters
  {
    CollectionVisitsItsFilters(c);
    assert FiltersIn(CollectionCacheSteps(c)) == [];
  }

  /**
   * A subclass visits a key exactly when it is a joined subclass holding
   * one; the walk starts with the subclass and ends with its body.
   */
  lemma SubclassVisitsKeyOnlyWhenJoined(s: SubclassMapping)
    ensures WalkSubclass(s)[0] == ProcessSubclass
    ensures WalkSubclass(s)[|WalkSubclass(s)| - 1] == VisitBody(s.body)
    ensures Count(WalkSubclass(s), IsKeyStep) ==
              if s.kind == SeparateSubclass.JoinedSubclass && SubclassKeyOf(s).Some? then 1 else 0
  {
    var p := IsKeyStep;
    var key := if s.kind == SeparateSubclass.JoinedSubclass && SubclassKeyOf(s).Some? then WalkKey(SubclassKeyOf(s).value) else [];
    assert WalkSubclass(s) == [ProcessSubclass] + key + [VisitBody(s.body)];
    CountAppend([ProcessSubclass] + key, [VisitBody(s.body)], p);
    CountAppend([ProcessSubclass], key, p);
    if SubclassKeyOf(s).Some? {
      var k := SubclassKeyOf(s).value;
      CountAppend([ProcessKey], ColumnSteps(Columns(k.columns)), p);
      ColumnStepsObserved(Columns(k.columns), p);
    }
  }

  /** Steps satisfying `p` all come before steps satisfying `q`. */
  predicate Before(steps: seq<Step>, p: Step -> bool, q: Step -> bool)
  {
    forall i, j :: 0 <= i < |steps| && 0 <= j < |steps| && p(steps[i]) && q(steps[j]) ==> i < j
  }

  /** No step satisfies `p`. */
  predicate NoneIn(steps: seq<Step>, p: Step -> bool)
  {
    forall i :: 0 <= i < |steps| ==> !p(steps[i])
  }

  lemma NoneInConcat(a: seq<Step>, b: seq<Step>, p: Step -> bool)
    requires NoneIn(a, p) && NoneIn(b, p)
    ensures NoneIn(a + b, p)
  {
  }

  lemma BeforeInConcat(a: seq<Step>, b: seq<Step>, p: Step -> bool, q: Step -> bool)
    requires NoneIn(a, q) && NoneIn(b, p)
    ensures Before(a + b, p, q)
  {
  }

  predicate IsIdStep(s: Step) { s.ProcessId? || s.ProcessCompositeId? }
  predicate IsDiscriminatorStep(s: Step) { s.ProcessDiscriminator? }
  predicate IsCacheStep(s: Step) { s.ProcessCache? }
  predicate IsVersionStep(s: Step) { s.ProcessVersion? }

  /** The steps an identity walk can hold. */
  predicate IdPart(s: Step)
  {
    s.ProcessId? || s.ProcessCompositeId? || s.ProcessKeyProperty? || s.ProcessKeyManyToOne?
    || s.ProcessGenerator? || s.ProcessColumn?
  }

  predicate IsColumnStep(s: Step) { s.ProcessColumn? }

  lemma ColumnStepsAreColumns(cs: seq<ColumnMapping>, p: Step -> bool)
    requires forall c :: !p(ProcessColumn(c))
    ensures NoneIn(ColumnSteps(cs), p)
  {
  }

  lemma {:induction false} CompositeKeysAreIdParts(keys: seq<CompositeKey>)
    ensures forall i :: 0 <= i < |WalkCompositeKeys(keys)| ==> IdPart(WalkCompositeKeys(keys)[i])
  {
    if keys != [] {
      CompositeKeysAreIdParts(keys[..|keys| - 1]);
    }
  }

  lemma IdentityIsIdParts(i: IdentityMapping)
    ensures forall k :: 0 <= k < |WalkIdentity(i)| ==> IdPart(WalkIdentity(i)[k])
  {
    match i
    case Id(id) =>
    case CompositeId(c) => CompositeKeysAreIdParts(c.keys);
  }

  lemma IdSegment(c: ClassMapping)
    ensures NoneIn(ClassIdSteps(c), IsDiscriminatorStep) && NoneIn(ClassIdSteps(c), IsCacheStep)
    ensures NoneIn(ClassIdSteps(c), IsVersionStep)
  {
    if IdOf(c).Some? { IdentityIsIdParts(IdOf(c).value); }
  }

  lemma NaturalIdSegment(c: ClassMapping)
    ensures NoneIn(ClassNaturalIdSteps(c), IsDiscriminatorStep) && NoneIn(ClassNaturalIdSteps(c), IsCacheStep)
    ensures NoneIn(ClassNaturalIdSteps(c), IsVersionStep)
  {
  }

  lemma DiscriminatorSegment(c: ClassMapping)
    ensures NoneIn(ClassDiscriminatorSteps(c), IsIdStep) && NoneIn(ClassDiscriminatorSteps(c), IsCacheStep)
    ensures NoneIn(ClassDiscriminatorSteps(c), IsVersionStep)
  {
  }

  lemma CacheSegment(c: ClassMapping)
    ensures NoneIn(ClassCacheSteps(c), IsIdStep) && NoneIn(ClassCacheSteps(c), IsDiscriminatorStep)
    ensures NoneIn(ClassCacheSteps(c), IsVersionStep)
  {
  }

  lemma VersionSegment(c: ClassMapping)
    ensures NoneIn(ClassVersionSteps(c), IsIdStep) && NoneIn(ClassVersionSteps(c), IsDiscriminatorStep)
    ensures NoneIn(ClassVersionSteps(c), IsCacheStep)
  {
  }

  lemma TupSegment(c: ClassMapping)
    ensures NoneIn(ClassTuplizerSteps(c), IsIdStep) && NoneIn(ClassTuplizerSteps(c), IsDiscriminatorStep)
    ensures NoneIn(ClassTuplizerSteps(c), IsCacheStep)
  {
  }

  /**
   * The ordering argument on its own: in a walk made of consecutive
   * segments, a kind of step confined to an earlier segment comes before a
   * kind confined to a later one.
   */
  lemma SegmentOrder(w: seq<Step>, head: seq<Step>, id: seq<Step>, natural: seq<Step>, disc: seq<Step>,
                     cache: seq<Step>, version: seq<Step>, tup: seq<Step>, last: seq<Step>)
    requires w == head + (id + natural + disc + cache + version + tup) + last
    requires NoneIn(head, IsDiscriminatorStep) && NoneIn(head, IsCacheStep) && NoneIn(head, IsVersionStep)
    requires NoneIn(id, IsDiscriminatorStep) && NoneIn(id, IsCacheStep) && NoneIn(id, IsVersionStep)
    requires NoneIn(natural, IsDiscriminatorStep) && NoneIn(natural, IsCacheStep) && NoneIn(natural, IsVersionStep)
    requires NoneIn(disc, IsIdStep) && NoneIn(disc, IsCacheStep) && NoneIn(disc, IsVersionStep)
    requires NoneIn(cache, IsIdStep) && NoneIn(cache, IsDiscriminatorStep) && NoneIn(cache, IsVersionStep)
    requires NoneIn(version, IsIdStep) && NoneIn(version, IsDiscriminatorStep) && NoneIn(version, IsCacheStep)
    requires NoneIn(tup, IsIdStep) && NoneIn(tup, IsDiscriminatorStep) && NoneIn(tup, IsCacheStep)
    requires NoneIn(last, IsIdStep) && NoneIn(last, IsDiscriminatorStep) && NoneIn(last, IsCacheStep)
    ensures Before(w, IsIdStep, IsDiscriminatorStep)
    ensures Before(w, IsDiscriminatorStep, IsCacheStep)
    ensures Before(w, IsCacheStep, IsVersionStep)
  {
    var head1 := head + id + natural;
    var head2 := head1 + disc;
    var head3 := head2 + cache;
    var tail := tup + last;
    assert w == head1 + (disc + cache + version + tail);
    assert w == head2 + (cache + version + tail);
    assert w == head3 + (version + tail);
    NoneInConcat(tup, last, IsIdStep);
    NoneInConcat(tup, last, IsDiscriminatorStep);
    NoneInConcat(tup, last, IsCacheStep);
    NoneInConcat(head, id, IsDiscriminatorStep);
    NoneInConcat(head + id, natural, IsDiscriminatorStep);
    NoneInConcat(disc, cache, IsIdStep);
    NoneInConcat(disc + cache, version, IsIdStep);
    NoneInConcat(disc + cache + version, tail, IsIdStep);
    BeforeInConcat(head1, disc + cache + version + tail, IsIdStep, IsDiscriminatorStep);
    NoneInConcat(head, id, IsCacheStep);
    NoneInConcat(head + id, natural, IsCacheStep);
    NoneInConcat(head1, disc, IsCacheStep);
    NoneInConcat(cache, version, IsDiscriminatorStep);
    NoneInConcat(cache + version, tail, IsDiscriminatorStep);
    BeforeInConcat(head2, cache + version + tail, IsDiscriminatorStep, IsCacheStep);
    NoneInConcat(head, id, IsVersionStep);
    NoneInConcat(head + id, natural, IsVersionStep);
    NoneInConcat(head1, disc, IsVersionStep);
    NoneInConcat(head2, cache, IsVersionStep);
    NoneInConcat(version, tail, IsCacheStep);
    BeforeInConcat(head3, version + tail, IsCacheStep, IsVersionStep);
  }

  /**
   * A class announces itself first and its body last; between them its Id
   * is walked before its Discriminator, the Discriminator before its Cache,
   * and the Cache before its Version.
   */
  lemma ClassVisitOrder(c: ClassMapping)
    ensures WalkClass(c)[0] == ProcessClass
    ensures WalkClass(c)[|WalkClass(c)| - 1] == VisitBody(c.body)
    ensures Before(WalkClass(c), IsIdStep, IsDiscriminatorStep)
    ensures Before(WalkClass(c), IsDiscriminatorStep, IsCacheStep)
    ensures Before(WalkClass(c), IsCacheStep, IsVersionStep)
  {
    IdSegment(c);
    NaturalIdSegment(c);
    DiscriminatorSegment(c);
    CacheSegment(c);
    VersionSegment(c);
    TupSegment(c);
    SegmentOrder(WalkClass(c), [ProcessClass], ClassIdSteps(c), ClassNaturalIdSteps(c), ClassDiscriminatorSteps(c),
                 ClassCacheSteps(c), ClassVersionSteps(c), ClassTuplizerSteps(c), [VisitBody(c.body)]);
  }
}
