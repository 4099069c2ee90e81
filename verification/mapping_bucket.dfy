/**
 * The mapping bucket: five lists into which compiled top-level mappings file
 * themselves, one list per kind, each in order of arrival.
 */
module Buckets {
  import opened Wrappers
  import opened TypeGraphs
  import opened SeparateSubclass
  import opened ComponentResolution

  /** A filter definition, by name. */
  datatype FilterDefinition = FilterDefinition(name: string)

  /** An import of a type, under an optional rename. */
  datatype ImportMapping = ImportMapping(ty: TypeId, rename: Option<string>)

  /** An ITopMapping: what compiling an action produces. */
  datatype TopMapping =
    | ClassTop(cls: ClassFragment)
    | SubclassTop(sub: SubclassFragment)
    | FilterTop(filter: FilterDefinition)
    | ComponentTop(component: ExternalComponent)
    | ImportTop(imp: ImportMapping)

  /** The run-time class name of a top mapping (`mapping.GetType().Name`). */
  function KindName(m: TopMapping): string
  {
    match m
    case ClassTop(_) => "ClassMapping"
    case SubclassTop(_) => "SubclassMapping"
    case FilterTop(_) => "FilterDefinitionMapping"
    case ComponentTop(_) => "ExternalComponentMapping"
    case ImportTop(_) => "ImportMapping"
  }

  /** The five lists of a bucket, as a value. */
  datatype BucketContents = BucketContents(
    subclasses: seq<SubclassFragment>,
    classes: seq<ClassFragment>,
    filters: seq<FilterDefinition>,
    components: seq<ExternalComponent>,
    imports: seq<ImportMapping>)

  const EmptyContents := BucketContents([], [], [], [], [])

  /** The contents after one more mapping has filed itself: it joins the end of its own list. */
  function Filed(b: BucketContents, m: TopMapping): (r: BucketContents)
  {
    match m
    case ClassTop(c) => b.(classes := b.classes + [c])
    case SubclassTop(s) => b.(subclasses := b.subclasses + [s])
    case FilterTop(f) => b.(filters := b.filters + [f])
    case ComponentTop(e) => b.(components := b.components + [e])
    case ImportTop(i) => b.(imports := b.imports + [i])
  }

  /** The contents after a sequence of mappings has filed itself, in order. */
  function FileAll(b: BucketContents, ms: seq<TopMapping>): BucketContents
  {
    if ms == [] then b else Filed(FileAll(b, ms[..|ms| - 1]), ms[|ms| - 1])
  }

  /** The payloads of the mappings `pick` selects, in order. */
  function Picked<T>(ms: seq<TopMapping>, pick: TopMapping -> Option<T>): seq<T>
  {
    if ms == [] then []
    else (if pick(ms[0]).Some? then [pick(ms[0]).value] else []) + Picked(ms[1..], pick)
  }

  function PickClass(m: TopMapping): Option<ClassFragment> { if m.ClassTop? then Some(m.cls) else None }
  function PickSubclass(m: TopMapping): Option<SubclassFragment> { if m.SubclassTop? then Some(m.sub) else None }
  function PickFilter(m: TopMapping): Option<FilterDefinition> { if m.FilterTop? then Some(m.filter) else None }
  function PickComponent(m: TopMapping): Option<ExternalComponent> { if m.ComponentTop? then Some(m.component) else None }
  function PickImport(m: TopMapping): Option<ImportMapping> { if m.ImportTop? then Some(m.imp) else None }

  /** Selecting from a sequence commutes with appending one more mapping. */
  lemma {:induction false} PickedAppend<T>(ms: seq<TopMapping>, m: TopMapping, pick: TopMapping -> Option<T>)
    ensures Picked(ms + [m], pick) == Picked(ms, pick) + (if pick(m).Some? then [pick(m).value] else [])
  {
    if ms != [] {
      assert (ms + [m])[1..] == ms[1..] + [m];
      PickedAppend(ms[1..], m, pick);
    }
  }

  /** A payload is selected exactly when a mapping carrying it is in the sequence. */
  lemma {:induction false} PickedMembers<T>(ms: seq<TopMapping>, pick: TopMapping -> Option<T>, x: T)
    ensures x in Picked(ms, pick) <==> exists m :: m in ms && pick(m) == Some(x)
  {
    if ms != [] {
      PickedMembers(ms[1..], pick, x);
      assert ms == [ms[0]] + ms[1..];
      if x in Picked(ms[1..], pick) {
        var m :| m in ms[1..] && pick(m) == Some(x);
        assert m in ms;
      }
    }
  }

  /**
   * Filing sorts by kind and keeps order: each list of the bucket holds
   * exactly the mappings of its kind, in the order they were filed.
   */
  lemma {:induction false} FileAllSorts(b: BucketContents, ms: seq<TopMapping>)
    ensures FileAll(b, ms) == BucketContents(
              b.subclasses + Picked(ms, PickSubclass), b.classes + Picked(ms, PickClass),
              b.filters + Picked(ms, PickFilter), b.components + Picked(ms, PickComponent),
              b.imports + Picked(ms, PickImport))
    decreases |ms|
  {
    if ms != [] {
      var init := ms[..|ms| - 1];
      var last := ms[|ms| - 1];
      assert ms == init + [last];
      FileAllSorts(b, init);
      var prev := FileAll(b, init);
      assert FileAll(b, ms) == Filed(prev, last);
      FiledPicks(prev, last);
      PickedAppend(init, last, PickSubclass);
      PickedAppend(init, last, PickClass);
      PickedAppend(init, last, PickFilter);
      PickedAppend(init, last, PickComponent);
      PickedAppend(init, last, PickImport);
      AppendAssociates(b.subclasses, Picked(init, PickSubclass), if last.SubclassTop? then [last.sub] else []);
      AppendAssociates(b.classes, Picked(init, PickClass), if last.ClassTop? then [last.cls] else []);
      AppendAssociates(b.filters, Picked(init, PickFilter), if last.FilterTop? then [last.filter] else []);
      AppendAssociates(b.components, Picked(init, PickComponent), if last.ComponentTop? then [last.component] else []);
      AppendAssociates(b.imports, Picked(init, PickImport), if last.ImportTop? then [last.imp] else []);
    }
  }

  lemma AppendAssociates<T>(a: seq<T>, b: seq<T>, c: seq<T>)
    ensures a + b + c == a + (b + c)
  {
  }

  /** One mapping joins the list its kind selects and no other. */
  lemma FiledPicks(b: BucketContents, m: TopMapping)
    ensures Filed(b, m) == BucketContents(
              b.subclasses + (if PickSubclass(m).Some? then [PickSubclass(m).value] else []),
              b.classes + (if PickClass(m).Some? then [PickClass(m).value] else []),
              b.filters + (if PickFilter(m).Some? then [PickFilter(m).value] else []),
              b.components + (if PickComponent(m).Some? then [PickComponent(m).value] else []),
              b.imports + (if PickImport(m).Some? then [PickImport(m).value] else []))
  {
  }

  /** A class is in the classes list of a bucket filled from empty exactly when its mapping was filed. */
  lemma FiledClassesAreExactlyTheClassMappings(ms: seq<TopMapping>, c: ClassFragment)
    ensures c in FileAll(EmptyContents, ms).classes <==> ClassTop(c) in ms
  {
    FileAllSorts(EmptyContents, ms);
    PickedMembers(ms, PickClass, c);
    if ClassTop(c) in ms {
      assert PickClass(ClassTop(c)) == Some(c);
    }
  }

  /**
   * MappingBucket: the five lists.  They are separate lists, so filing into
   * one leaves the other four as they were.
   */
  class MappingBucket {
    var subclasses: seq<SubclassFragment>
    var classes: seq<ClassFragment>
    var filters: seq<FilterDefinition>
    var components: seq<ExternalComponent>
    var imports: seq<ImportMapping>

    function Contents(): BucketContents
      reads this
    {
      BucketContents(subclasses, classes, filters, components, imports)
    }

    constructor ()
      ensures Contents() == EmptyContents
    {
      classes := [];
      subclasses := [];
      filters := [];
      components := [];
      imports := [];
    }

    /** Replaces the contents as a whole (what the visitors' in-place edits amount to). */
    method SetContents(b: BucketContents)
      modifies this
      ensures Contents() == b
    {
      subclasses, classes, filters, components, imports := b.subclasses, b.classes, b.filters, b.components, b.imports;
    }
  }

  /**
   * `ITopMapping.AddTo(bucket)`: every kind appends itself to its own list
   * (ExternalComponentMapping to Components; the other kinds likewise to
   * theirs).
   */
  method AddTo(m: TopMapping, bucket: MappingBucket)
    modifies bucket
    ensures bucket.Contents() == Filed(old(bucket.Contents()), m)
  {
    match m
    case ClassTop(c) => bucket.classes := bucket.classes + [c];
    case SubclassTop(sub) => bucket.subclasses := bucket.subclasses + [sub];
    case FilterTop(f) => bucket.filters := bucket.filters + [f];
    case ComponentTop(e) => bucket.components := bucket.components + [e];
    case ImportTop(i) => bucket.imports := bucket.imports + [i];
  }
}
