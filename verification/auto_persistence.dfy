/**
 * AutoPersistenceModel: the automapping entry point.  It gathers class
 * providers, filter definitions and type sources; on first compilation it
 * orders the source types by inheritance depth, keeps those the
 * configuration, the Where clause and its own include/ignore rules accept,
 * climbs each to the type that should really be mapped and hands it to the
 * automapper; building then files every class provider's mapping into a
 * bucket, runs the visitors, and produces one document or one per class.
 */
module AutoPersistence {
  import opened Wrappers
  import opened TypeGraphs
  import opened Sequences
  import opened SeparateSubclass
  import opened Buckets
  import opened Configurations
  import opened Documents
  import opened MappingActions
  import opened InstructionGathering
  import Compilation

  /** The exceptions the model raises. */
  datatype AutoError =
    | InvalidOperation(message: string)
    | InvalidCast(target: string)
    | NullReference
    | VisitorFailed(message: string)

  const UnableToProcess := "Unable to process classMap"
  const SetupWithUserConfiguration :=
    "Cannot use Setup method when using a user-defined IAutomappingConfiguration instance."
  const WhereWithUserConfiguration :=
    "Cannot use Where method when using a user-defined IAutomappingConfiguration instance."

  /** The visitors every model runs over its bucket, in this order. */
  const VisitorOrder: seq<string> := [
    "SeparateSubclassVisitor", "ComponentReferenceResolutionVisitor", "ComponentColumnPrefixVisitor",
    "RelationshipPairingVisitor", "ManyToManyTableNameVisitor", "ConventionVisitor",
    "RelationshipKeyPairingVisitor", "ValidationVisitor"]

  /** What decides which types are mapped: the type graph, the configuration and the IncludeBase/IgnoreBase lists. */
  datatype TypeRules = TypeRules(
    g: TypeGraph,
    cfg: AutomappingConfiguration,
    included: seq<TypeId>,
    ignored: seq<TypeId>)

  /**
   * `ShouldMap(type)`: inclusion takes precedence over everything; then an
   * ignored type, a generic type whose definition is ignored, an abstract
   * layer supertype, a component and `object` are each refused.
   */
  predicate ShouldMap(rules: TypeRules, t: TypeId)
  {
    if t in rules.included then true
    else if t in rules.ignored then false
    else if rules.g.isGeneric(t) && rules.g.genericDefinitionOf(t) in rules.ignored then false
    else if rules.g.isAbstract(t) && rules.cfg.abstractClassIsLayerSupertype(t) then false
    else if rules.cfg.isComponent(t) then false
    else t != Object
  }

  /** The checks of ShouldMap, as one condition: included, or refused by none of the five rules. */
  lemma ShouldMapExactly(rules: TypeRules, t: TypeId)
    ensures ShouldMap(rules, t) <==>
      t in rules.included ||
      (t !in rules.ignored &&
       !(rules.g.isGeneric(t) && rules.g.genericDefinitionOf(t) in rules.ignored) &&
       !(rules.g.isAbstract(t) && rules.cfg.abstractClassIsLayerSupertype(t)) &&
       !rules.cfg.isComponent(t) &&
       t != Object)
  {
  }

  /** An included type is mapped even when it is also ignored, a component, or `object`. */
  lemma InclusionTakesPrecedence(rules: TypeRules, t: TypeId)
    requires t in rules.included
    requires t in rules.ignored || rules.cfg.isComponent(t) || t == Object
    ensures ShouldMap(rules, t)
  {
  }

  /**
   * `ShouldMapParent(type)`: the base type should be mapped and is not a
   * concrete base type.  A type without a base type (`object`, an interface)
   * makes `ShouldMap(null)` dereference null.
   */
  function ShouldMapParent(rules: TypeRules, t: TypeId): Result<bool, AutoError>
  {
    match BaseType(rules.g, t)
    case None => Err(NullReference)
    case Some(b) => Ok(ShouldMap(rules, b) && !rules.cfg.isConcreteBaseType(b))
  }

  /** `GetTypeToMap(type)`, as a value: climb to the base type while the parent should be mapped. */
  function TypeToMap(rules: TypeRules, t: TypeId): Result<TypeId, AutoError>
    requires WellFormed(rules.g)
    decreases t
  {
    var climb :- ShouldMapParent(rules, t);
    if climb then TypeToMap(rules, rules.g.baseOf(t)) else Ok(t)
  }

  /** `GetTypeToMap` */
  method GetTypeToMap(rules: TypeRules, t: TypeId) returns (r: Result<TypeId, AutoError>)
    requires WellFormed(rules.g)
    ensures r == TypeToMap(rules, t)
  {
    var ty := t;
    var climb := ShouldMapParent(rules, ty);
    while climb == Ok(true)
      invariant climb == ShouldMapParent(rules, ty)
      invariant TypeToMap(rules, ty) == TypeToMap(rules, t)
      decreases ty
    {
      ty := rules.g.baseOf(ty);
      climb := ShouldMapParent(rules, ty);
    }
    if climb.Err? {
      r := Err(climb.error);
    } else {
      r := Ok(ty);
    }
  }

  /**
   * The type GetTypeToMap settles on is the type itself or one of its base
   * types, and its own parent is one that should not be mapped.
   */
  lemma {:induction false} TypeToMapClimbs(rules: TypeRules, t: TypeId)
    requires WellFormed(rules.g)
    requires TypeToMap(rules, t).Ok?
    ensures IsAncestorOrSelf(rules.g, TypeToMap(rules, t).value, t)
    ensures ShouldMapParent(rules, TypeToMap(rules, t).value) == Ok(false)
    decreases t
  {
    if ShouldMapParent(rules, t) == Ok(true) {
      TypeToMapClimbs(rules, rules.g.baseOf(t));
    }
  }

  /**
   * The climb only fails on reaching a type without a base type: when
   * `object` is not included and no type on the chain is an interface, it
   * always settles.
   */
  lemma {:induction false} TypeToMapSettles(rules: TypeRules, t: TypeId)
    requires WellFormed(rules.g)
    requires Object !in rules.included
    requires t != Object
    requires forall a :: IsAncestorOrSelf(rules.g, a, t) ==> !rules.g.isInterface(a)
    ensures TypeToMap(rules, t).Ok?
    decreases t
  {
    var b := rules.g.baseOf(t);
    assert IsAncestorOrSelf(rules.g, t, t);
    if ShouldMap(rules, b) && !rules.cfg.isConcreteBaseType(b) {
      assert b != Object;
      forall a | IsAncestorOrSelf(rules.g, a, b)
        ensures !rules.g.isInterface(a)
      {
        assert IsAncestorOrSelf(rules.g, a, t);
      }
      TypeToMapSettles(rules, b);
    }
  }

  /** An included `object` above a mapped type: the climb reaches `object` and then dereferences null. */
  lemma IncludedObjectFailsTheClimb(rules: TypeRules, t: TypeId)
    requires WellFormed(rules.g)
    requires t != Object && !rules.g.isInterface(t) && rules.g.baseOf(t) == Object
    requires Object in rules.included && !rules.cfg.isConcreteBaseType(Object)
    ensures TypeToMap(rules, t) == Err(NullReference)
  {
    assert ShouldMapParent(rules, t) == Ok(true);
    assert ShouldMapParent(rules, Object) == Err(NullReference);
  }

  /**
   * The depth `InheritanceHierarchyDepth` counts from a parent onwards:
   * none for null and `object`, one more per base-type step otherwise.  An
   * interface has no base type, so it counts one step.  (The `b < p` test
   * keeps the function total; on a well-formed graph it always holds.)
   */
  function DepthFrom(g: TypeGraph, parent: Option<TypeId>): (r: nat)
    ensures r == 0 <==> parent.None? || parent.value == Object
    decreases if parent.Some? then parent.value + 1 else 0
  {
    match parent
    case None => 0
    case Some(p) =>
      if p == Object then 0
      else
        var next := BaseType(g, p);
        if next.Some? && next.value < p then 1 + DepthFrom(g, next)
        else 1
  }

  function Depth(g: TypeGraph, t: TypeId): nat
  {
    DepthFrom(g, Some(t))
  }

  /** `InheritanceHierarchyDepth(type)` */
  method InheritanceHierarchyDepth(g: TypeGraph, t: TypeId) returns (depth: nat)
    requires WellFormed(g)
    ensures depth == Depth(g, t)
  {
    depth := 0;
    var parent: Option<TypeId> := Some(t);
    while parent.Some? && parent.value != Object
      invariant depth + DepthFrom(g, parent) == Depth(g, t)
      decreases if parent.Some? then parent.value + 1 else 0
    {
      parent := BaseType(g, parent.value);
      depth := depth + 1;
    }
  }

  /** Only `object` has depth 0; a class is one deeper than its base type, an interface is at depth 1. */
  lemma DepthSteps(g: TypeGraph, t: TypeId)
    requires WellFormed(g)
    ensures Depth(g, t) == 0 <==> t == Object
    ensures t != Object && !g.isInterface(t) ==> Depth(g, t) == Depth(g, g.baseOf(t)) + 1
    ensures t != Object && g.isInterface(t) ==> Depth(g, t) == 1
  {
  }

  /** A strict ancestor of a class whose chain has no interface is shallower. */
  lemma {:induction false} AncestorIsShallower(g: TypeGraph, a: TypeId, t: TypeId)
    requires WellFormed(g)
    requires IsAncestorOrSelf(g, a, t) && a != t
    requires forall x :: IsAncestorOrSelf(g, x, t) ==> !g.isInterface(x)
    ensures Depth(g, a) < Depth(g, t)
    decreases t
  {
    assert IsAncestorOrSelf(g, t, t);
    var b := g.baseOf(t);
    if b != a {
      forall x | IsAncestorOrSelf(g, x, b)
        ensures !g.isInterface(x)
      {
        assert IsAncestorOrSelf(g, x, t);
      }
      AncestorIsShallower(g, a, b);
    }
  }

  /** Ordered by a key: the keys never decrease along the list. */
  predicate SortedByKey(s: seq<nat>, key: nat -> nat)
  {
    forall i, j :: 0 <= i < j < |s| ==> key(s[i]) <= key(s[j])
  }

  /** Inserts before the first element whose key is not smaller. */
  function InsertByKey(x: nat, s: seq<nat>, key: nat -> nat): (r: seq<nat>)
    requires SortedByKey(s, key)
    ensures |r| == |s| + 1
    ensures forall y :: y in r <==> y == x || y in s
    ensures SortedByKey(r, key)
  {
    if s == [] then [x]
    else if key(x) <= key(s[0]) then [x] + s
    else
      var rest := InsertByKey(x, s[1..], key);
      SortedAfterFirst(x, s, rest, key);
      [s[0]] + rest
  }

  /** The first of a sorted list may go before the rest with x inserted, when x's key is larger. */
  lemma SortedAfterFirst(x: nat, s: seq<nat>, rest: seq<nat>, key: nat -> nat)
    requires SortedByKey(s, key) && s != [] && key(s[0]) < key(x)
    requires SortedByKey(rest, key) && forall y :: y in rest <==> y == x || y in s[1..]
    ensures SortedByKey([s[0]] + rest, key)
  {
    forall j | 0 <= j < |rest| ensures key(s[0]) <= key(rest[j]) {
      var y := rest[j];
      assert y in rest;
      if y != x {
        var k :| 0 <= k < |s[1..]| && s[1..][k] == y;
        assert s[k + 1] == y;
      }
    }
  }

  /** LINQ `OrderBy(key)`: an insertion sort that keeps equal keys in their original order. */
  function OrderByKey(xs: seq<nat>, key: nat -> nat): (r: seq<nat>)
    ensures |r| == |xs|
    ensures forall y :: y in r <==> y in xs
    ensures SortedByKey(r, key)
  {
    if xs == [] then []
    else
      assert forall y :: y in xs <==> y == xs[0] || y in xs[1..] by {
        assert xs == [xs[0]] + xs[1..];
      }
      InsertByKey(xs[0], OrderByKey(xs[1..], key), key)
  }

  /** The elements with key d. */
  function HasKey(key: nat -> nat, d: nat): nat -> bool
  {
    (y: nat) => key(y) == d
  }

  lemma {:induction false} InsertKeepsLevels(x: nat, s: seq<nat>, key: nat -> nat, d: nat)
    requires SortedByKey(s, key)
    ensures Where(InsertByKey(x, s, key), HasKey(key, d)) == (if key(x) == d then [x] else []) + Where(s, HasKey(key, d))
    decreases |s|
  {
    if s != [] && key(s[0]) < key(x) {
      InsertKeepsLevels(x, s[1..], key, d);
      InsertAfterFirstKeepsLevels(x, s, key, d);
    } else {
      InsertFirstKeepsLevels(x, s, key, d);
    }
  }

  /** Inserting in front keeps every key's elements, with x first among its own. */
  lemma InsertFirstKeepsLevels(x: nat, s: seq<nat>, key: nat -> nat, d: nat)
    requires SortedByKey(s, key) && (s == [] || key(x) <= key(s[0]))
    ensures Where(InsertByKey(x, s, key), HasKey(key, d)) == (if key(x) == d then [x] else []) + Where(s, HasKey(key, d))
  {
    var p := HasKey(key, d);
    assert InsertByKey(x, s, key) == [x] + s;
    assert Where([x], p) == if p(x) then [x] else [] by {
      assert [x][1..] == [];
    }
    WhereConcat([x], s, p);
  }

  /** Inserting behind the first element keeps the first element ahead of the rest. */
  lemma InsertAfterFirstKeepsLevels(x: nat, s: seq<nat>, key: nat -> nat, d: nat)
    requires SortedByKey(s, key) && s != [] && key(s[0]) < key(x)
    requires Where(InsertByKey(x, s[1..], key), HasKey(key, d)) == (if key(x) == d then [x] else []) + Where(s[1..], HasKey(key, d))
    ensures Where(InsertByKey(x, s, key), HasKey(key, d)) == (if key(x) == d then [x] else []) + Where(s, HasKey(key, d))
  {
    var p := HasKey(key, d);
    var first, tail := s[0], s[1..];
    var own: seq<nat> := if key(x) == d then [x] else [];
    var head: seq<nat> := if p(first) then [first] else [];
    assert InsertByKey(x, s, key) == [first] + InsertByKey(x, tail, key);
    WhereCons(first, InsertByKey(x, tail, key), p);
    assert Where(s, p) == head + Where(tail, p);
    SwapEmpty(own, head, Where(tail, p));
  }

  /** When one of two lists is empty, they may go in front of a third in either order. */
  lemma SwapEmpty(a: seq<nat>, b: seq<nat>, c: seq<nat>)
    requires a == [] || b == []
    ensures a + (b + c) == b + (a + c)
  {
    if a == [] {
      assert a + (b + c) == b + c && a + c == c;
    } else {
      assert b + c == c && b + (a + c) == a + c;
    }
  }

  /**
   * The ordering is stable: the elements of any one key come out exactly as
   * they went in, in the same order.
   */
  lemma {:induction false} OrderByKeyIsStable(xs: seq<nat>, key: nat -> nat, d: nat)
    ensures Where(OrderByKey(xs, key), HasKey(key, d)) == Where(xs, HasKey(key, d))
    decreases |xs|
  {
    if xs != [] {
      OrderByKeyIsStable(xs[1..], key, d);
      InsertKeepsLevels(xs[0], OrderByKey(xs[1..], key), key, d);
    }
  }

  /** Filtering an ordered list keeps it ordered. */
  lemma {:induction false} WhereKeepsOrder(xs: seq<nat>, p: nat -> bool, key: nat -> nat)
    requires SortedByKey(xs, key)
    ensures SortedByKey(Where(xs, p), key)
    decreases |xs|
  {
    if xs != [] {
      WhereKeepsOrder(xs[1..], p, key);
      var rest := Where(xs[1..], p);
      forall k | 0 <= k < |rest|
        ensures key(xs[0]) <= key(rest[k])
      {
        assert rest[k] in xs[1..];
        var j :| 0 <= j < |xs[1..]| && xs[1..][j] == rest[k];
        assert xs[j + 1] == rest[k];
      }
    }
  }

  function DepthKey(g: TypeGraph): nat -> nat
  {
    t => Depth(g, t)
  }

  /** The three tests a source type must pass: the configuration, the Where clause when set, and ShouldMap. */
  predicate Selected(rules: TypeRules, whereClause: Option<TypeId -> bool>, t: TypeId)
  {
    rules.cfg.shouldMapType(t) && (whereClause.None? || whereClause.value(t)) && ShouldMap(rules, t)
  }

  function Selector(rules: TypeRules, whereClause: Option<TypeId -> bool>): nat -> bool
  {
    (t: nat) => Selected(rules, whereClause, t)
  }

  /** The source types in ascending hierarchy depth, kept when they pass the three tests. */
  function MappingCandidates(rules: TypeRules, whereClause: Option<TypeId -> bool>, sources: seq<seq<TypeId>>): seq<TypeId>
  {
    Where(OrderByKey(Flatten(sources), DepthKey(rules.g)), Selector(rules, whereClause))
  }

  /**
   * Which types become candidates, and in what order: exactly the source
   * types that pass all three tests, never a deeper one before a shallower
   * one, and those of equal depth in source order.
   */
  lemma CandidatesSelection(rules: TypeRules, whereClause: Option<TypeId -> bool>, sources: seq<seq<TypeId>>, t: TypeId, d: nat)
    ensures t in MappingCandidates(rules, whereClause, sources) <==>
      (exists k :: 0 <= k < |sources| && t in sources[k]) && Selected(rules, whereClause, t)
    ensures SortedByKey(MappingCandidates(rules, whereClause, sources), DepthKey(rules.g))
    ensures Where(MappingCandidates(rules, whereClause, sources), HasKey(DepthKey(rules.g), d)) ==
      Where(Where(Flatten(sources), HasKey(DepthKey(rules.g), d)), Selector(rules, whereClause))
  {
    var key := DepthKey(rules.g);
    var sel := Selector(rules, whereClause);
    var ordered := OrderByKey(Flatten(sources), key);
    WhereKeepsOrder(ordered, sel, key);
    WhereCommutes(ordered, sel, HasKey(key, d));
    WhereCommutes(Flatten(sources), sel, HasKey(key, d));
    OrderByKeyIsStable(Flatten(sources), key, d);
  }

  /** Two filters can be applied in either order. */
  lemma {:induction false} WhereCommutes(xs: seq<nat>, p: nat -> bool, q: nat -> bool)
    ensures Where(Where(xs, p), q) == Where(Where(xs, q), p)
    decreases |xs|
  {
    if xs != [] {
      WhereCommutes(xs[1..], p, q);
      var x := xs[0];
      var headP := if p(x) then [x] else [];
      var headQ := if q(x) then [x] else [];
      WhereConcat(headP, Where(xs[1..], p), q);
      WhereConcat(headQ, Where(xs[1..], q), p);
      assert Where(headP, q) == Where(headQ, p) by {
        if p(x) { assert [x][1..] == []; }
        if q(x) { assert [x][1..] == []; }
      }
    }
  }

  /** An AutoMapType: a candidate type and whether the automapper has already mapped it (as a subclass, say). */
  datatype AutoMapType = AutoMapType(ty: TypeId, isMapped: bool)

  /** What `autoMapper.Map(type, mappingTypes)` yields: the class mapping, and the entries it has marked mapped. */
  datatype AutomapOutcome = AutomapOutcome(mapping: ClassFragment, marked: set<nat>)

  /** The automapper itself is not part of this model. */
  type Automap = (TypeId, seq<AutoMapType>) -> AutomapOutcome

  /** Fresh, unmapped entries for a list of types. */
  function Fresh(ts: seq<TypeId>): (r: seq<AutoMapType>)
    ensures |r| == |ts|
    ensures forall i :: 0 <= i < |ts| ==> r[i] == AutoMapType(ts[i], false)
  {
    if ts == [] then [] else [AutoMapType(ts[0], false)] + Fresh(ts[1..])
  }

  /** Sets `IsMapped` on the marked entries; the others are left as they were. */
  function Mark(types: seq<AutoMapType>, marked: set<nat>): (r: seq<AutoMapType>)
    ensures |r| == |types|
    ensures forall i :: 0 <= i < |types| ==> r[i].ty == types[i].ty
    ensures forall i :: 0 <= i < |types| ==> r[i].isMapped == (types[i].isMapped || i in marked)
  {
    seq(|types|, i requires 0 <= i < |types| => if i in marked then types[i].(isMapped := true) else types[i])
  }

  /**
   * The second loop of CompileMappings from entry i onwards: an entry
   * already mapped is skipped; any other is climbed to its type to map and
   * handed to the automapper, whose marks the later entries see.  The result
   * is the final list of entries and the class mappings made, in order.
   */
  function MapFrom(rules: TypeRules, automap: Automap, types: seq<AutoMapType>, i: nat)
    : (r: Result<(seq<AutoMapType>, seq<ClassFragment>), AutoError>)
    requires WellFormed(rules.g)
    requires i <= |types|
    ensures r.Ok? ==> |r.value.0| == |types| && |r.value.1| <= |types| - i
    decreases |types| - i
  {
    if i == |types| then Ok((types, []))
    else if types[i].isMapped then MapFrom(rules, automap, types, i + 1)
    else
      var target :- TypeToMap(rules, types[i].ty);
      var outcome := automap(target, types);
      var rest :- MapFrom(rules, automap, Mark(types, outcome.marked), i + 1);
      Ok((rest.0, [outcome.mapping] + rest.1))
  }

  /** Entries the automapper has already marked produce no mapping of their own. */
  lemma {:induction false} MappedEntriesAreSkipped(rules: TypeRules, automap: Automap, types: seq<AutoMapType>, i: nat)
    requires WellFormed(rules.g)
    requires i <= |types|
    requires forall k :: i <= k < |types| ==> types[k].isMapped
    ensures MapFrom(rules, automap, types, i) == Ok((types, []))
    decreases |types| - i
  {
    if i < |types| {
      MappedEntriesAreSkipped(rules, automap, types, i + 1);
    }
  }

  /** The mapping of each entry from i onwards, each for the type its climb settles on. */
  function MappingsFrom(rules: TypeRules, automap: Automap, types: seq<AutoMapType>, i: nat): seq<ClassFragment>
    requires WellFormed(rules.g)
    requires i <= |types|
    requires forall k :: i <= k < |types| ==> TypeToMap(rules, types[k].ty).Ok?
    decreases |types| - i
  {
    if i == |types| then []
    else [automap(TypeToMap(rules, types[i].ty).value, types).mapping] + MappingsFrom(rules, automap, types, i + 1)
  }

  /**
   * When the automapper marks nothing and every climb settles, each entry
   * not yet mapped yields exactly one class mapping, in entry order, for the
   * type its climb settles on.
   */
  lemma {:induction false} EveryFreshEntryIsMapped(rules: TypeRules, automap: Automap, types: seq<AutoMapType>, i: nat)
    requires WellFormed(rules.g)
    requires i <= |types|
    requires forall k :: i <= k < |types| ==> !types[k].isMapped && TypeToMap(rules, types[k].ty).Ok?
    requires forall t, ts :: automap(t, ts).marked == {}
    ensures MapFrom(rules, automap, types, i) == Ok((types, MappingsFrom(rules, automap, types, i)))
    decreases |types| - i
  {
    if i < |types| {
      EveryFreshEntryIsMapped(rules, automap, types, i + 1);
      MapFromUnmarkedStep(rules, automap, types, i);
    }
  }

  /** An entry whose mapping marks nothing: its mapping comes first, then those of the later entries. */
  lemma MapFromUnmarkedStep(rules: TypeRules, automap: Automap, types: seq<AutoMapType>, i: nat)
    requires WellFormed(rules.g)
    requires i < |types| && !types[i].isMapped && TypeToMap(rules, types[i].ty).Ok?
    requires automap(TypeToMap(rules, types[i].ty).value, types).marked == {}
    requires MapFrom(rules, automap, types, i + 1).Ok?
    ensures MapFrom(rules, automap, types, i) ==
      Ok((MapFrom(rules, automap, types, i + 1).value.0,
          [automap(TypeToMap(rules, types[i].ty).value, types).mapping] + MapFrom(rules, automap, types, i + 1).value.1))
  {
    MarkNothing(types);
  }

  lemma MarkNothing(types: seq<AutoMapType>)
    ensures Mark(types, {}) == types
  {
    var r := Mark(types, {});
    forall i | 0 <= i < |types| ensures r[i] == types[i] {
      assert r[i].ty == types[i].ty && r[i].isMapped == types[i].isMapped;
    }
  }

  /** Prefixes the mappings already made to the outcome of the rest of the loop. */
  function AfterMade(made: seq<ClassFragment>, rest: Result<(seq<AutoMapType>, seq<ClassFragment>), AutoError>)
    : Result<(seq<AutoMapType>, seq<ClassFragment>), AutoError>
  {
    match rest
    case Ok((ts, ms)) => Ok((ts, made + ms))
    case Err(e) => Err(e)
  }

  /** The pass-through providers the model registers for the automapped classes, in order. */
  function PassThroughs(ms: seq<ClassFragment>): (r: seq<Provider>)
    ensures |r| == |ms|
    ensures forall i :: 0 <= i < |ms| ==> r[i] == PassThrough(ClassTop(ms[i]))
  {
    if ms == [] then [] else [PassThrough(ClassTop(ms[0]))] + PassThroughs(ms[1..])
  }

  /**
   * `AddMappingsToBucket`, as a value: every class provider must yield a
   * manual action around a class mapping; the classes, in provider order.
   */
  function ClassesOf(providers: seq<Provider>): (r: Result<seq<ClassFragment>, AutoError>)
    ensures r.Ok? ==> |r.value| == |providers|
  {
    if providers == [] then Ok([])
    else
      var before :- ClassesOf(providers[..|providers| - 1]);
      var action := GetAction(providers[|providers| - 1]);
      if !action.ManualAction? then Err(InvalidOperation(UnableToProcess))
      else if !action.mapping.ClassTop? then Err(InvalidCast("ClassMapping"))
      else Ok(before + [action.mapping.cls])
  }

  /** A provider that yields anything but a manual action makes filling the bucket fail. */
  lemma {:induction false} NonManualProviderFails(providers: seq<Provider>, k: nat)
    requires k < |providers|
    requires !GetAction(providers[k]).ManualAction?
    ensures ClassesOf(providers).Err?
    decreases |providers|
  {
    if k < |providers| - 1 {
      NonManualProviderFails(providers[..|providers| - 1], k);
    }
  }

  /** The classes the automapper made pass straight through the bucket, in order. */
  lemma {:induction false} PassThroughClassesRoundTrip(ms: seq<ClassFragment>)
    ensures ClassesOf(PassThroughs(ms)) == Ok(ms)
    decreases |ms|
  {
    if ms != [] {
      var init, last := ms[..|ms| - 1], ms[|ms| - 1];
      assert init + [last] == ms;
      PassThroughClassesRoundTrip(init);
      ClassesOfPassThrough(PassThroughs(init), init, last);
      PassThroughsSnoc(init, last);
    }
  }

  lemma PassThroughsSnoc(ms: seq<ClassFragment>, c: ClassFragment)
    ensures PassThroughs(ms + [c]) == PassThroughs(ms) + [PassThrough(ClassTop(c))]
  {
  }

  /** A pass-through provider around a class adds that class after the ones before it. */
  lemma ClassesOfPassThrough(ps: seq<Provider>, before: seq<ClassFragment>, c: ClassFragment)
    requires ClassesOf(ps) == Ok(before)
    ensures ClassesOf(ps + [PassThrough(ClassTop(c))]) == Ok(before + [c])
  {
    assert (ps + [PassThrough(ClassTop(c))])[..|ps|] == ps;
  }

  /** The documents BuildMappings returns: one holding every class, or one per class in bucket order. */
  function DocumentsOf(classes: seq<ClassFragment>, merge: bool): (r: seq<HibernateMapping>)
  {
    if merge then [EmptyDocument.(classes := classes)]
    else seq(|classes|, i requires 0 <= i < |classes| => EmptyDocument.(classes := [classes[i]]))
  }

  /** The classes of a list of documents, in document order. */
  function ClassesIn(docs: seq<HibernateMapping>): seq<ClassFragment>
  {
    if docs == [] then [] else docs[0].classes + ClassesIn(docs[1..])
  }

  /**
   * Merged or not, the documents hold every class exactly once and in bucket
   * order; unmerged, there is one document per class, each holding that
   * class alone, and no document carries filters or imports.
   */
  lemma DocumentsHoldTheClasses(classes: seq<ClassFragment>, merge: bool)
    ensures ClassesIn(DocumentsOf(classes, merge)) == classes
    ensures !merge ==> (|DocumentsOf(classes, merge)| == |classes| &&
      forall i :: 0 <= i < |classes| ==> DocumentsOf(classes, merge)[i].classes == [classes[i]])
    ensures merge ==> |DocumentsOf(classes, merge)| == 1
    ensures forall d :: d in DocumentsOf(classes, merge) ==> d.filters == [] && d.imports == []
  {
    if !merge {
      SinglesHoldTheClasses(classes);
    }
  }

  lemma {:induction false} SinglesHoldTheClasses(classes: seq<ClassFragment>)
    ensures ClassesIn(DocumentsOf(classes, false)) == classes
    decreases |classes|
  {
    if classes != [] {
      assert DocumentsOf(classes, false)[1..] == DocumentsOf(classes[1..], false);
      SinglesHoldTheClasses(classes[1..]);
      assert [classes[0]] + classes[1..] == classes;
    }
  }

  /**
   * `BuildMappings` after compilation, as a value: fill a bucket with the
   * providers' classes and then the filters, run the visitors over it, and
   * put its classes into documents.
   */
  function Built(providers: seq<Provider>, filters: seq<FilterDefinition>, visitors: seq<Visitor>, merge: bool)
    : Result<seq<HibernateMapping>, AutoError>
  {
    var classes :- ClassesOf(providers);
    var bucket := EmptyContents.(classes := classes, filters := filters);
    match VisitBucket(visitors, bucket)
    case Err(message) => Err(VisitorFailed(message))
    case Ok(visited) => Ok(DocumentsOf(visited.classes, merge))
  }

  /** With no visitor changing the bucket, the documents hold exactly the providers' classes. */
  lemma BuildKeepsProviderClasses(providers: seq<Provider>, filters: seq<FilterDefinition>, merge: bool)
    requires ClassesOf(providers).Ok?
    ensures Built(providers, filters, [], merge).Ok?
    ensures ClassesIn(Built(providers, filters, [], merge).value) == ClassesOf(providers).value
  {
    DocumentsHoldTheClasses(ClassesOf(providers).value, merge);
  }

  /** How `Add(Type)` sees an instance of the type. */
  datatype Instance =
    | ProviderObject(provider: Provider)
    | FilterObject(filter: FilterDefinition)
    | OtherObject

  /** `!type.IsGenericType && typeof(T).IsAssignableFrom(type)` for one of the four mapping interfaces. */
  predicate IsMappingType(g: TypeGraph, mappingInterfaces: set<TypeId>, t: TypeId)
  {
    !g.isGeneric(t) && g.interfacesOf(t) * mappingInterfaces != {}
  }

  /** Position k is the first refusal: everything before it registers and its instance is neither kind. */
  predicate RefusedAt(ts: seq<TypeId>, instantiate: TypeId -> Instance, k: nat)
  {
    k < |ts| && instantiate(ts[k]).OtherObject? && forall j :: 0 <= j < k ==> !instantiate(ts[j]).OtherObject?
  }

  /** `Add(Type)` over a list of types, as a value: the providers and the filter definitions they add. */

  function Registered(ts: seq<TypeId>, instantiate: TypeId -> Instance, fullName: TypeId -> string)
    : (r: Result<(seq<Provider>, seq<FilterDefinition>), AutoError>)
  {
    if ts == [] then Ok(([], []))
    else
      var before :- Registered(ts[..|ts| - 1], instantiate, fullName);
      var t := ts[|ts| - 1];
      match instantiate(t)
      case ProviderObject(p) => Ok((before.0 + [p], before.1))
      case FilterObject(f) => Ok((before.0, before.1 + [f]))
      case OtherObject => Err(InvalidOperation("Unsupported mapping type '" + fullName(t) + "'"))
  }

  /**
   * Adding types succeeds exactly when every instance is a provider or a
   * filter definition; then every provider and every filter is added, and
   * nothing else.
   */
  lemma {:induction false} RegisteredExactly(ts: seq<TypeId>, instantiate: TypeId -> Instance, fullName: TypeId -> string)
    ensures Registered(ts, instantiate, fullName).Ok? <==> forall t :: t in ts ==> !instantiate(t).OtherObject?
    ensures Registered(ts, instantiate, fullName).Ok? ==>
      (forall p :: p in Registered(ts, instantiate, fullName).value.0 <==>
        exists t :: t in ts && instantiate(t) == ProviderObject(p)) &&
      (forall f :: f in Registered(ts, instantiate, fullName).value.1 <==>
        exists t :: t in ts && instantiate(t) == FilterObject(f))
    decreases |ts|
  {
    if ts != [] {
      var init := ts[..|ts| - 1];
      var last := ts[|ts| - 1];
      assert ts == init + [last];
      assert forall t :: t in ts <==> t in init || t == last;
      RegisteredExactly(init, instantiate, fullName);
    }
  }

  /** Every field of an AutoPersistenceModel that its methods assign. */
  datatype ModelState = ModelState(
    classProviders: seq<Provider>,
    filterDefinitions: seq<FilterDefinition>,
    subclassProviders: seq<Handle>,
    componentProviders: seq<Handle>,
    expressionSetups: seq<Handle>,
    sources: seq<seq<TypeId>>,
    whereClause: Option<TypeId -> bool>,
    mappingTypes: seq<AutoMapType>,
    autoMappingsCreated: bool,
    ignoredTypes: seq<TypeId>,
    includedTypes: seq<TypeId>,
    mergeMappings: bool,
    compiledMappings: Option<seq<HibernateMapping>>)

  /**
   * AutoPersistenceModel.  `userDefined` is HasUserDefinedConfiguration: the
   * configuration is not the expression-based one the default constructor
   * creates.
   */
  class AutoPersistenceModel {
    var classProviders: seq<Provider>
    var filterDefinitions: seq<FilterDefinition>
    var subclassProviders: seq<Handle>
    var componentProviders: seq<Handle>
    const visitors: seq<Visitor>
    const graph: TypeGraph
    const cfg: AutomappingConfiguration
    const userDefined: bool
    const autoMapper: Automap
    var expressionSetups: seq<Handle>
    var sources: seq<seq<TypeId>>
    var whereClause: Option<TypeId -> bool>
    var mappingTypes: seq<AutoMapType>
    var autoMappingsCreated: bool
    var ignoredTypes: seq<TypeId>
    var includedTypes: seq<TypeId>
    var mergeMappings: bool
    var compiledMappings: Option<seq<HibernateMapping>>

    function Rules(): TypeRules
      reads this`includedTypes, this`ignoredTypes
    {
      TypeRules(graph, cfg, includedTypes, ignoredTypes)
    }

    /**
     * Both constructors: the default one passes the expression-based
     * configuration (`userDefined` false), the other the caller's.  Either
     * way the eight visitors are created in their fixed order.
     */
    constructor (g: TypeGraph, cfg: AutomappingConfiguration, userDefined: bool, autoMapper: Automap, visitorOf: string -> Visitor)
      requires WellFormed(g)
      ensures graph == g && this.cfg == cfg && this.userDefined == userDefined && this.autoMapper == autoMapper
      ensures |visitors| == |VisitorOrder| && forall i :: 0 <= i < |VisitorOrder| ==> visitors[i] == visitorOf(VisitorOrder[i])
      ensures classProviders == [] && filterDefinitions == [] && subclassProviders == [] && componentProviders == []
      ensures sources == [] && whereClause == None && mappingTypes == [] && !autoMappingsCreated
      ensures ignoredTypes == [] && includedTypes == [] && !mergeMappings && compiledMappings == None
      ensures expressionSetups == []
      ensures Valid()
    {
      graph := g;
      this.cfg := cfg;
      this.userDefined := userDefined;
      this.autoMapper := autoMapper;
      visitors := seq(|VisitorOrder|, i requires 0 <= i < |VisitorOrder| => visitorOf(VisitorOrder[i]));
      classProviders, filterDefinitions, subclassProviders, componentProviders := [], [], [], [];
      sources, whereClause, mappingTypes, autoMappingsCreated := [], None, [], false;
      ignoredTypes, includedTypes, mergeMappings, compiledMappings := [], [], false, None;
      expressionSetups := [];
    }

    ghost predicate Valid()
      reads this
    {
      WellFormed(graph)
    }

    /** The assignable fields together, so that a setter can say what it leaves alone. */
    ghost function State(): ModelState
      reads this
    {
      ModelState(classProviders, filterDefinitions, subclassProviders, componentProviders, expressionSetups,
                 sources, whereClause, mappingTypes, autoMappingsCreated, ignoredTypes, includedTypes,
                 mergeMappings, compiledMappings)
    }

    /** `Add(IProvider)` */
    method AddProvider(p: Provider)
      modifies this
      ensures classProviders == old(classProviders) + [p]
      ensures State() == old(State()).(classProviders := classProviders)
    {
      classProviders := classProviders + [p];
    }

    /** `Add(IFilterDefinition)` */
    method AddFilter(f: FilterDefinition)
      modifies this
      ensures filterDefinitions == old(filterDefinitions) + [f]
      ensures State() == old(State()).(filterDefinitions := filterDefinitions)
    {
      filterDefinitions := filterDefinitions + [f];
    }

    /** `Add(IIndeterminateSubclassMappingProvider)` */
    method AddSubclassProvider(p: Handle)
      modifies this
      ensures subclassProviders == old(subclassProviders) + [p]
      ensures State() == old(State()).(subclassProviders := subclassProviders)
    {
      subclassProviders := subclassProviders + [p];
    }

    /** `Add(IExternalComponentMappingProvider)` */
    method AddComponentProvider(p: Handle)
      modifies this
      ensures componentProviders == old(componentProviders) + [p]
      ensures State() == old(State()).(componentProviders := componentProviders)
    {
      componentProviders := componentProviders + [p];
    }

    /**
     * `Add(Type)`: the instance is added as a provider when it is one, else
     * as a filter definition when it is one; anything else is refused.
     */
    method AddType(t: TypeId, instance: Instance, fullName: string) returns (r: Result<(), AutoError>)
      modifies this
      ensures r.Err? <==> instance.OtherObject?
      ensures r.Err? ==> r.error == InvalidOperation("Unsupported mapping type '" + fullName + "'")
      ensures classProviders == old(classProviders) + (if instance.ProviderObject? then [instance.provider] else [])
      ensures filterDefinitions == old(filterDefinitions) + (if instance.FilterObject? then [instance.filter] else [])
      ensures State() == old(State()).(classProviders := classProviders, filterDefinitions := filterDefinitions)
    {
      match instance
      case ProviderObject(p) =>
        classProviders := classProviders + [p];
        r := Ok(());
      case FilterObject(f) =>
        filterDefinitions := filterDefinitions + [f];
        r := Ok(());
      case OtherObject =>
        r := Err(InvalidOperation("Unsupported mapping type '" + fullName + "'"));
    }

    /**
     * `AddMappingsFromSource`: every non-generic type implementing one of
     * the mapping interfaces is added, in source order; the first refusal
     * aborts.
     */
    method AddMappingsFromSource(types: seq<TypeId>, mappingInterfaces: set<TypeId>,
                                 instantiate: TypeId -> Instance, fullName: TypeId -> string)
      returns (r: Result<(), AutoError>)
      modifies this
      ensures var picked := Where(types, (t: nat) => IsMappingType(graph, mappingInterfaces, t));
        var reg := Registered(picked, instantiate, fullName);
        (r.Ok? <==> reg.Ok?) &&
        (r.Err? ==> r == Err(reg.error)) &&
        (reg.Ok? ==> classProviders == old(classProviders) + reg.value.0 &&
                     filterDefinitions == old(filterDefinitions) + reg.value.1)
      ensures var picked := Where(types, (t: nat) => IsMappingType(graph, mappingInterfaces, t));
        r.Err? ==> exists k :: 0 <= k < |picked| && RefusedAt(picked, instantiate, k) &&
                     Registered(picked[..k], instantiate, fullName).Ok? &&
                     classProviders == old(classProviders) + Registered(picked[..k], instantiate, fullName).value.0 &&
                     filterDefinitions == old(filterDefinitions) + Registered(picked[..k], instantiate, fullName).value.1
      ensures State() == old(State()).(classProviders := classProviders, filterDefinitions := filterDefinitions)
    {
      var picked := Where(types, (t: nat) => IsMappingType(graph, mappingInterfaces, t));
      var i := 0;
      while i < |picked|
        invariant 0 <= i <= |picked|
        invariant Registered(picked[..i], instantiate, fullName).Ok?
        invariant classProviders == old(classProviders) + Registered(picked[..i], instantiate, fullName).value.0
        invariant filterDefinitions == old(filterDefinitions) + Registered(picked[..i], instantiate, fullName).value.1
        invariant State() == old(State()).(classProviders := classProviders, filterDefinitions := filterDefinitions)
      {
        assert picked[..i + 1][..i] == picked[..i];
        var t := picked[i];
        ghost var before := Registered(picked[..i], instantiate, fullName).value;
        var added := AddType(t, instantiate(t), fullName(t));
        if added.Err? {
          RegisteredStopsAtFailure(picked, instantiate, fullName, i);
          FirstRefusal(picked, instantiate, fullName, i);
          return Err(added.error);
        }
        i := i + 1;
      }
      assert picked[..i] == picked;
      r := Ok(());
    }

    /**
     * `Setup(expressionsAction)`: the action, applied to the configuration's
     * expressions, is recorded as a handle; refused when the configuration is
     * user-defined.
     */
    method Setup(expressionsAction: Handle) returns (r: Result<(), AutoError>)
      modifies this
      ensures r.Err? <==> userDefined
      ensures r.Err? ==> r.error == InvalidOperation(SetupWithUserConfiguration)
      ensures expressionSetups == old(expressionSetups) + (if userDefined then [] else [expressionsAction])
      ensures State() == old(State()).(expressionSetups := expressionSetups)
    {
      if userDefined {
        return Err(InvalidOperation(SetupWithUserConfiguration));
      }
      expressionSetups := expressionSetups + [expressionsAction];
      r := Ok(());
    }

    /** `Where(where)`: replaces the Where clause; refused when the configuration is user-defined. */
    method SetWhere(w: TypeId -> bool) returns (r: Result<(), AutoError>)
      modifies this
      ensures r.Err? <==> userDefined
      ensures r.Err? ==> r.error == InvalidOperation(WhereWithUserConfiguration)
      ensures whereClause == (if userDefined then old(whereClause) else Some(w))
      ensures State() == old(State()).(whereClause := whereClause)
    {
      if userDefined {
        return Err(InvalidOperation(WhereWithUserConfiguration));
      }
      whereClause := Some(w);
      r := Ok(());
    }

    /** `AddTypeSource(source)`: the source's types. */
    method AddTypeSource(types: seq<TypeId>)
      modifies this
      ensures sources == old(sources) + [types]
      ensures State() == old(State()).(sources := sources)
    {
      sources := sources + [types];
    }

    /** `IgnoreBase(baseType)` */
    method IgnoreBase(t: TypeId)
      modifies this
      ensures ignoredTypes == old(ignoredTypes) + [t]
      ensures State() == old(State()).(ignoredTypes := ignoredTypes)
    {
      ignoredTypes := ignoredTypes + [t];
    }

    /** `IncludeBase(baseType)` */
    method IncludeBase(t: TypeId)
      modifies this
      ensures includedTypes == old(includedTypes) + [t]
      ensures State() == old(State()).(includedTypes := includedTypes)
    {
      includedTypes := includedTypes + [t];
    }

    /** `MergeMappings = value` */
    method SetMergeMappings(value: bool)
      modifies this
      ensures mergeMappings == value
      ensures State() == old(State()).(mergeMappings := mergeMappings)
    {
      mergeMappings := value;
    }

    /** What CompileMappings makes of the current state, when it has not run yet. */
    function CompileOutcome(): Result<(seq<AutoMapType>, seq<ClassFragment>), AutoError>
      requires Valid()
      reads this
    {
      MapFrom(Rules(), autoMapper, mappingTypes + Fresh(MappingCandidates(Rules(), whereClause, sources)), 0)
    }

    /**
     * `CompileMappings`: does nothing once it has succeeded.  Otherwise it
     * appends an entry per candidate, maps every entry the automapper has not
     * marked, registers a pass-through provider per mapping, and records that
     * the automappings were created.
     */
    method CompileMappings() returns (r: Result<(), AutoError>)
      requires Valid()
      modifies this
      ensures Valid()
      ensures old(autoMappingsCreated) ==>
        r == Ok(()) && classProviders == old(classProviders) && mappingTypes == old(mappingTypes) && autoMappingsCreated
      ensures !old(autoMappingsCreated) ==>
        (r.Ok? <==> old(CompileOutcome()).Ok?) &&
        (r.Err? ==> r.error == old(CompileOutcome()).error && !autoMappingsCreated) &&
        (r.Ok? ==> mappingTypes == old(CompileOutcome()).value.0 &&
                   classProviders == old(classProviders) + PassThroughs(old(CompileOutcome()).value.1) &&
                   autoMappingsCreated)
      ensures filterDefinitions == old(filterDefinitions) && sources == old(sources)
      ensures includedTypes == old(includedTypes) && ignoredTypes == old(ignoredTypes)
      ensures whereClause == old(whereClause) && mergeMappings == old(mergeMappings)
      ensures compiledMappings == old(compiledMappings)
    {
      if autoMappingsCreated {
        return Ok(());
      }
      CollectMappingTypes();
      r := MapEntries();
      if r.Ok? {
        autoMappingsCreated := true;
      }
    }

    /** The first loop of CompileMappings: an unmapped entry per candidate, in candidate order. */
    method CollectMappingTypes()
      requires Valid()
      modifies this
      ensures Valid()
      ensures mappingTypes == old(mappingTypes) + Fresh(MappingCandidates(Rules(), whereClause, sources))
      ensures classProviders == old(classProviders) && autoMappingsCreated == old(autoMappingsCreated)
      ensures filterDefinitions == old(filterDefinitions) && sources == old(sources)
      ensures includedTypes == old(includedTypes) && ignoredTypes == old(ignoredTypes)
      ensures whereClause == old(whereClause) && mergeMappings == old(mergeMappings)
      ensures compiledMappings == old(compiledMappings)
    {
      var types := OrderByKey(Flatten(sources), DepthKey(graph));
      var collected := SelectEntries(types, Selector(Rules(), whereClause));
      mappingTypes := mappingTypes + collected;
    }

    /**
     * The second loop of CompileMappings: every entry not yet marked mapped
     * is climbed to its type to map and automapped, and the mapping is
     * registered through a pass-through provider.
     */
    method MapEntries() returns (r: Result<(), AutoError>)
      requires Valid()
      modifies this
      ensures Valid()
      ensures var whole := old(MapFrom(Rules(), autoMapper, mappingTypes, 0));
        (r.Ok? <==> whole.Ok?) &&
        (r.Err? ==> r.error == whole.error) &&
        (r.Ok? ==> mappingTypes == whole.value.0 && classProviders == old(classProviders) + PassThroughs(whole.value.1))
      ensures autoMappingsCreated == old(autoMappingsCreated)
      ensures filterDefinitions == old(filterDefinitions) && sources == old(sources)
      ensures includedTypes == old(includedTypes) && ignoredTypes == old(ignoredTypes)
      ensures whereClause == old(whereClause) && mergeMappings == old(mergeMappings)
      ensures compiledMappings == old(compiledMappings)
    {
      var entries, made, failure := MapEach(Rules(), autoMapper, mappingTypes);
      mappingTypes := entries;
      classProviders := classProviders + PassThroughs(made);
      if failure.Some? {
        return Err(failure.value);
      }
      r := Ok(());
    }

    /**
     * `AddMappingsToBucket`: each class provider's class, in order, then
     * each filter definition; the first provider that yields no manual action
     * around a class mapping aborts.
     */
    method AddMappingsToBucket(bucket: MappingBucket) returns (r: Result<(), AutoError>)
      modifies bucket
      ensures r.Ok? <==> ClassesOf(classProviders).Ok?
      ensures r.Err? ==> r.error == ClassesOf(classProviders).error
      ensures r.Ok? ==> bucket.Contents() == old(bucket.Contents()).(
        classes := old(bucket.classes) + ClassesOf(classProviders).value,
        filters := old(bucket.filters) + filterDefinitions)
    {
      var i := 0;
      while i < |classProviders|
        invariant 0 <= i <= |classProviders|
        invariant ClassesOf(classProviders[..i]).Ok?
        invariant bucket.Contents() == old(bucket.Contents()).(classes := old(bucket.classes) + ClassesOf(classProviders[..i]).value)
      {
        assert classProviders[..i + 1][..i] == classProviders[..i];
        var action := GetAction(classProviders[i]);
        if !action.ManualAction? {
          ClassesOfStopsAtFailure(classProviders, i);
          return Err(InvalidOperation(UnableToProcess));
        }
        if !action.mapping.ClassTop? {
          ClassesOfStopsAtFailure(classProviders, i);
          return Err(InvalidCast("ClassMapping"));
        }
        bucket.classes := bucket.classes + [action.mapping.cls];
        i := i + 1;
      }
      assert classProviders[..i] == classProviders;
      var k := 0;
      while k < |filterDefinitions|
        invariant 0 <= k <= |filterDefinitions|
        invariant bucket.Contents() == old(bucket.Contents()).(
          classes := old(bucket.classes) + ClassesOf(classProviders).value,
          filters := old(bucket.filters) + filterDefinitions[..k])
      {
        assert filterDefinitions[..k + 1] == filterDefinitions[..k] + [filterDefinitions[k]];
        bucket.filters := bucket.filters + [filterDefinitions[k]];
        k := k + 1;
      }
      assert filterDefinitions[..k] == filterDefinitions;
      r := Ok(());
    }

    /**
     * `BuildMappings`: compile (once), fill a fresh bucket, run the
     * visitors over it, and return the documents the merge policy gives.
     */
    method BuildMappings() returns (r: Result<seq<HibernateMapping>, AutoError>)
      requires Valid()
      modifies this
      ensures Valid()
      ensures !old(autoMappingsCreated) && old(CompileOutcome()).Err? ==> r == Err(old(CompileOutcome()).error)
      ensures autoMappingsCreated ==> r == Built(classProviders, filterDefinitions, visitors, mergeMappings)
      ensures old(autoMappingsCreated) ==> classProviders == old(classProviders) && autoMappingsCreated
      ensures !old(autoMappingsCreated) && old(CompileOutcome()).Ok? ==>
        autoMappingsCreated && classProviders == old(classProviders) + PassThroughs(old(CompileOutcome()).value.1)
      ensures filterDefinitions == old(filterDefinitions) && mergeMappings == old(mergeMappings)
      ensures compiledMappings == old(compiledMappings)
    {
      var compiled := CompileMappings();
      if compiled.Err? {
        return Err(compiled.error);
      }
      var bucket := new MappingBucket();
      var filled := AddMappingsToBucket(bucket);
      if filled.Err? {
        return Err(filled.error);
      }
      assert bucket.Contents() == EmptyContents.(classes := ClassesOf(classProviders).value, filters := filterDefinitions) by {
        assert [] + ClassesOf(classProviders).value == ClassesOf(classProviders).value;
        assert [] + filterDefinitions == filterDefinitions;
      }
      var visited := Compilation.VisitBucketInOrder(visitors, bucket);
      if visited.Err? {
        return Err(VisitorFailed(visited.error));
      }
      r := Ok(DocumentsOf(bucket.classes, mergeMappings));
    }

    /** `EnsureMappingsBuilt`: builds once and keeps the documents; later calls change nothing. */
    method EnsureMappingsBuilt() returns (r: Result<(), AutoError>)
      requires Valid()
      modifies this
      ensures Valid()
      ensures old(compiledMappings).Some? ==> r == Ok(()) && compiledMappings == old(compiledMappings)
      ensures old(compiledMappings).None? && r.Ok? ==>
        compiledMappings.Some? && autoMappingsCreated &&
        Built(classProviders, filterDefinitions, visitors, mergeMappings) == Ok(compiledMappings.value)
      ensures r.Err? ==> compiledMappings == None
    {
      if compiledMappings.Some? {
        return Ok(());
      }
      var built := BuildMappings();
      if built.Err? {
        return Err(built.error);
      }
      compiledMappings := Some(built.value);
      r := Ok(());
    }
  }

  /**
   * The loop of MapEntries over values: each entry not yet mapped is climbed
   * to its type to map and automapped, until the first failure.
   */
  method MapEach(rules: TypeRules, automap: Automap, types: seq<AutoMapType>)
    returns (entries: seq<AutoMapType>, made: seq<ClassFragment>, failure: Option<AutoError>)
    requires WellFormed(rules.g)
    ensures var whole := MapFrom(rules, automap, types, 0);
      && (failure.None? <==> whole.Ok?)
      && (failure.Some? ==> whole == Err(failure.value))
      && (failure.None? ==> whole == Ok((entries, made)))
  {
    entries := types;
    ghost var whole := MapFrom(rules, automap, entries, 0);
    made := [];
    assert whole == AfterMade(made, whole) by {
      if whole.Ok? { assert [] + whole.value.1 == whole.value.1; }
    }
    failure := None;
    var j := 0;
    while j < |entries| && failure.None?
      invariant 0 <= j <= |entries| && |entries| == |types|
      invariant failure.None? ==> whole == AfterMade(made, MapFrom(rules, automap, entries, j))
      invariant failure.Some? ==> whole == Err(failure.value)
    {
      if !entries[j].isMapped {
        var target := GetTypeToMap(rules, entries[j].ty);
        if target.Err? {
          MapFromStops(rules, automap, entries, j, made);
          failure := Some(target.error);
        } else {
          var outcome := automap(target.value, entries);
          MapFromStep(rules, automap, entries, j, made);
          entries := Mark(entries, outcome.marked);
          made := made + [outcome.mapping];
        }
      } else {
        MapFromSkips(rules, automap, entries, j);
      }
      j := j + 1;
    }
    if failure.None? {
      assert MapFrom(rules, automap, entries, j) == Ok((entries, []));
      assert made + [] == made;
    }
  }

  /** An entry already mapped is passed over. */
  lemma MapFromSkips(rules: TypeRules, automap: Automap, types: seq<AutoMapType>, j: nat)
    requires WellFormed(rules.g)
    requires j < |types| && types[j].isMapped
    ensures MapFrom(rules, automap, types, j) == MapFrom(rules, automap, types, j + 1)
  {
  }

  /** An entry whose type to map cannot be found ends the pass with that error. */
  lemma MapFromStops(rules: TypeRules, automap: Automap, types: seq<AutoMapType>, j: nat, made: seq<ClassFragment>)
    requires WellFormed(rules.g)
    requires j < |types| && !types[j].isMapped && TypeToMap(rules, types[j].ty).Err?
    ensures AfterMade(made, MapFrom(rules, automap, types, j)) == Err(TypeToMap(rules, types[j].ty).error)
  {
  }

  lemma MapFromStep(rules: TypeRules, automap: Automap, types: seq<AutoMapType>, j: nat, made: seq<ClassFragment>)
    requires WellFormed(rules.g)
    requires j < |types| && !types[j].isMapped && TypeToMap(rules, types[j].ty).Ok?
    ensures var outcome := automap(TypeToMap(rules, types[j].ty).value, types);
      AfterMade(made, MapFrom(rules, automap, types, j)) ==
      AfterMade(made + [outcome.mapping], MapFrom(rules, automap, Mark(types, outcome.marked), j + 1))
  {
    var outcome := automap(TypeToMap(rules, types[j].ty).value, types);
    var rest := MapFrom(rules, automap, Mark(types, outcome.marked), j + 1);
    if rest.Ok? {
      assert made + ([outcome.mapping] + rest.value.1) == (made + [outcome.mapping]) + rest.value.1;
    }
  }

  lemma FreshAppend(ts: seq<TypeId>, t: TypeId)
    ensures Fresh(ts + [t]) == Fresh(ts) + [AutoMapType(t, false)]
  {
  }

  /** The loop of CompileMappings over the ordered types: an unmapped entry per type the selector keeps. */
  method SelectEntries(types: seq<TypeId>, selector: nat -> bool) returns (collected: seq<AutoMapType>)
    ensures collected == Fresh(Where(types, selector))
  {
    collected := [];
    var i := 0;
    while i < |types|
      invariant 0 <= i <= |types|
      invariant collected == Fresh(Where(types[..i], selector))
    {
      CollectStep(types, i, selector);
      if selector(types[i]) {
        collected := collected + [AutoMapType(types[i], false)];
      }
      i := i + 1;
    }
    assert types[..i] == types;
  }

  /** One step of the selection loop: the next type gets an entry exactly when it is selected. */
  lemma CollectStep(types: seq<TypeId>, i: nat, selector: nat -> bool)
    requires i < |types|
    ensures Fresh(Where(types[..i + 1], selector)) ==
      Fresh(Where(types[..i], selector)) + (if selector(types[i]) then [AutoMapType(types[i], false)] else [])
  {
    WhereAppend(types[..i], types[i], selector);
    assert types[..i + 1] == types[..i] + [types[i]];
    FreshAppend(Where(types[..i], selector), types[i]);
  }

  lemma PassThroughsAppend(ms: seq<ClassFragment>, m: ClassFragment)
    ensures PassThroughs(ms + [m]) == PassThroughs(ms) + [PassThrough(ClassTop(m))]
  {
  }

  /** Registering stops at the first refused type: with it, the whole list fails the same way. */
  lemma {:induction false} RegisteredStopsAtFailure(ts: seq<TypeId>, instantiate: TypeId -> Instance,
                                                    fullName: TypeId -> string, k: nat)
    requires k < |ts|
    requires Registered(ts[..k], instantiate, fullName).Ok?
    requires instantiate(ts[k]).OtherObject?
    ensures Registered(ts, instantiate, fullName) ==
      Err(InvalidOperation("Unsupported mapping type '" + fullName(ts[k]) + "'"))
    decreases |ts|
  {
    assert ts[..k + 1][..k] == ts[..k];
    if k + 1 < |ts| {
      assert ts[..|ts| - 1][..k] == ts[..k];
      RegisteredStopsAtFailure(ts[..|ts| - 1], instantiate, fullName, k);
    } else {
      assert ts[..|ts| - 1] == ts[..k];
    }
  }

  /** A refusal after a prefix that registers is the first refusal. */
  lemma FirstRefusal(ts: seq<TypeId>, instantiate: TypeId -> Instance, fullName: TypeId -> string, k: nat)
    requires k < |ts|
    requires Registered(ts[..k], instantiate, fullName).Ok?
    requires instantiate(ts[k]).OtherObject?
    ensures RefusedAt(ts, instantiate, k)
  {
    RegisteredExactly(ts[..k], instantiate, fullName);
    forall j | 0 <= j < k ensures !instantiate(ts[j]).OtherObject? {
      assert ts[..k][j] in ts[..k];
    }
  }

  /** Filling stops at the first provider that fails. */
  lemma {:induction false} ClassesOfStopsAtFailure(providers: seq<Provider>, k: nat)
    requires k < |providers|
    requires ClassesOf(providers[..k]).Ok?
    requires !GetAction(providers[k]).ManualAction? || !GetAction(providers[k]).mapping.ClassTop?
    ensures ClassesOf(providers) == ClassesOf(providers[..k + 1])
    ensures ClassesOf(providers).Err?
    ensures ClassesOf(providers).error ==
      (if !GetAction(providers[k]).ManualAction? then InvalidOperation(UnableToProcess) else InvalidCast("ClassMapping"))
    decreases |providers|
  {
    assert providers[..k + 1][..k] == providers[..k];
    if k + 1 < |providers| {
      assert providers[..|providers| - 1][..k] == providers[..k];
      assert providers[..|providers| - 1][..k + 1] == providers[..k + 1];
      ClassesOfStopsAtFailure(providers[..|providers| - 1], k);
    } else {
      assert providers[..k + 1] == providers;
    }
  }
}
