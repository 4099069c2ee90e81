/**
 * The subclass-pairing visitor.  The bucket holds classes and subclasses as
 * an unordered bag of fragments; the visitor rebuilds the inheritance trees:
 *  - a subclass whose Extends marker names the parent always attaches;
 *  - otherwise a subclass attaches when its type descends from the parent
 *    (class parent) or implements it (interface parent), and only the
 *    candidates at the smallest distance attach;
 *  - finally every class stamps its subclass kind on all its descendants.
 * Under a class parent the distance walk starts at the subclass's base type
 * and climbs base types; when it is handed a null type (the base type of an
 * interface or of `object`) it reads that null's base type and throws.
 * Subclasses are identified by their position in the bucket's list.
 */
module SeparateSubclass {
  import opened Wrappers
  import opened TypeGraphs
  import opened Sequences

  datatype SubclassKind = Subclass | JoinedSubclass | UnionSubclass

  /** What the visitor reads of a ClassMapping. */
  datatype ClassFragment = ClassFragment(ty: TypeId, isUnionSubclass: bool, hasDiscriminator: bool)

  /** What the visitor reads of a SubclassMapping: its type and its Extends marker. */
  datatype SubclassFragment = SubclassFragment(ty: TypeId, extendsType: Option<TypeId>)

  /** `x.Extends == type` for the subclass at position i. */
  predicate ExtendsParent(subs: seq<SubclassFragment>, parent: TypeId, i: nat)
  {
    i < |subs| && subs[i].extendsType == Some(parent)
  }

  /** The subclasses that name `parent` in their Extends marker, in bucket order. */
  function ExtendsGroup(subs: seq<SubclassFragment>, parent: TypeId): seq<nat>
  {
    Where(Positions(|subs|), (i: nat) => ExtendsParent(subs, parent, i))
  }

  /** The bucket's subclasses minus the Extends group, in bucket order. */
  function Candidates(subs: seq<SubclassFragment>, parent: TypeId): seq<nat>
  {
    Where(Positions(|subs|), (i: nat) => i < |subs| && !ExtendsParent(subs, parent, i))
  }

  /** `IsMapped`: the types of the subclasses in a pool. */
  function MappedTypes(subs: seq<SubclassFragment>, pool: seq<nat>): set<TypeId>
  {
    set i | i in pool && i < |subs| :: subs[i].ty
  }

  /**
   * Following `BaseType` from t reaches `ancestor`.  The walk stops at
   * `object` and at an interface, whose base type is null.
   */
  predicate BaseChainReaches(g: TypeGraph, ancestor: TypeId, t: TypeId)
    requires WellFormed(g)
    decreases t
  {
    t == ancestor || (BaseType(g, t).Some? && BaseChainReaches(g, ancestor, g.baseOf(t)))
  }
  /** The exception the search throws: a NullReferenceException from `evalType.BaseType` on a null `evalType`. */
  datatype SearchError = NullEvalType

  /**
   * `DistanceFromParentBase`: walk from `e` up the base-type chain.  Reaching
   * the parent qualifies; reaching `object` first does not; every mapped type
   * passed on the way adds one level.  A null `e` (the base type of an
   * interface or of `object`) is dereferenced by `evalType.BaseType`.
   */
  function BaseLevel(g: TypeGraph, parent: TypeId, e: Option<TypeId>, mapped: set<TypeId>): Result<Option<nat>, SearchError>
    requires WellFormed(g)
    decreases if e.Some? then e.value + 1 else 0
  {
    match e
    case None => Err(NullEvalType)
    case Some(t) =>
      if t == parent then Ok(Some(0))
      else if t == Object then Ok(None)
      else
        match BaseLevel(g, parent, BaseType(g, t), mapped)
        case Err(x) => Err(x)
        case Ok(None) => Ok(None)
        case Ok(Some(k)) => Ok(Some(k + if t in mapped then 1 else 0))
  }

  /**
   * `DistanceFromParentInterface`: a type implementing the interface is one
   * level further for each consecutive mapped base type above it; the walk
   * stops at the first base type that is null or not mapped, and counts
   * nothing further once a type without the interface is reached.
   */
  function InterfaceLevel(g: TypeGraph, parent: TypeId, t: TypeId, mapped: set<TypeId>): nat
    requires WellFormed(g)
    decreases t
  {
    if !HasInterface(g, t, parent) then 0
    else
      match BaseType(g, t)
      case Some(b) => if b in mapped then 1 + InterfaceLevel(g, parent, b, mapped) else 0
      case None => 0
  }

  /**
   * How `SortByDistanceFrom` treats a subclass of type t: filed at a level,
   * skipped (None), or the walk throws.
   */
  function Distance(g: TypeGraph, parent: TypeId, t: TypeId, mapped: set<TypeId>): Result<Option<nat>, SearchError>
    requires WellFormed(g)
  {
    if g.isInterface(parent) then
      Ok(if HasInterface(g, t, parent) then Some(InterfaceLevel(g, parent, t, mapped)) else None)
    else BaseLevel(g, parent, BaseType(g, t), mapped)
  }

  /** The level at which subclass i is filed; None when it is skipped or its walk throws. */
  function Level(g: TypeGraph, parent: TypeId, subs: seq<SubclassFragment>, mapped: set<TypeId>, i: nat): Option<nat>
    requires WellFormed(g)
  {
    if i < |subs| && Distance(g, parent, subs[i].ty, mapped).Ok? then Distance(g, parent, subs[i].ty, mapped).value else None
  }

  /** The walk for subclass i throws. */
  predicate Throws(g: TypeGraph, parent: TypeId, subs: seq<SubclassFragment>, mapped: set<TypeId>, i: nat)
    requires WellFormed(g)
  {
    i < |subs| && Distance(g, parent, subs[i].ty, mapped).Err?
  }

  /** The walk of some subclass in `xs` throws. */
  predicate AnyThrows(g: TypeGraph, parent: TypeId, subs: seq<SubclassFragment>, mapped: set<TypeId>, xs: seq<nat>)
    requires WellFormed(g)
    decreases |xs|
  {
    xs != [] && (AnyThrows(g, parent, subs, mapped, xs[..|xs| - 1]) || Throws(g, parent, subs, mapped, xs[|xs| - 1]))
  }

  /** Scoring `pool` throws: the walk of one of its subclasses does. */
  predicate PoolThrows(g: TypeGraph, parent: TypeId, subs: seq<SubclassFragment>, pool: seq<nat>)
    requires WellFormed(g)
  {
    AnyThrows(g, parent, subs, MappedTypes(subs, pool), pool)
  }

  /** `FindClosestSubclasses(parent, ...)` throws. */
  predicate SearchThrows(g: TypeGraph, parent: TypeId, subs: seq<SubclassFragment>)
    requires WellFormed(g)
  {
    PoolThrows(g, parent, subs, Candidates(subs, parent))
  }

  /** The distinct levels found among `xs` (the keys of the arranged dictionary). */
  function LevelsIn(g: TypeGraph, parent: TypeId, subs: seq<SubclassFragment>, mapped: set<TypeId>, xs: seq<nat>): set<nat>
    requires WellFormed(g)
  {
    set i | i in xs && Level(g, parent, subs, mapped, i).Some? :: Level(g, parent, subs, mapped, i).value
  }

  /** The subclasses of `xs` filed at level d, in order (one entry of the arranged dictionary). */
  function AtLevel(g: TypeGraph, parent: TypeId, subs: seq<SubclassFragment>, mapped: set<TypeId>, xs: seq<nat>, d: nat): seq<nat>
    requires WellFormed(g)
  {
    Where(xs, (i: nat) => Level(g, parent, subs, mapped, i) == Some(d))
  }

  /** Some element of s is no greater than any other: descend from n while a smaller one exists. */
  lemma {:induction false} LowestBelow(s: set<nat>, n: nat)
    requires n in s
    ensures exists m :: m in s && forall x :: x in s ==> m <= x
    decreases n
  {
    if exists y :: y in s && y < n {
      var y :| y in s && y < n;
      LowestBelow(s, y);
    }
  }

  /** `Keys.Min()` */
  function Lowest(s: set<nat>): (m: nat)
    requires s != {}
    ensures m in s
    ensures forall x :: x in s ==> m <= x
  {
    var n :| n in s;
    LowestBelow(s, n);
    var m :| m in s && forall x :: x in s ==> m <= x;
    m
  }

  /**
   * `FindClosestSubclasses`, as a value: the structural candidates at the
   * lowest level, followed by the Extends group.
   */
  function Closest(g: TypeGraph, parent: TypeId, subs: seq<SubclassFragment>): seq<nat>
    requires WellFormed(g)
  {
    var ext := ExtendsGroup(subs, parent);
    var pool := Candidates(subs, parent);
    var mapped := MappedTypes(subs, pool);
    var levels := LevelsIn(g, parent, subs, mapped, pool);
    if levels == {} then ext else AtLevel(g, parent, subs, mapped, pool, Lowest(levels)) + ext
  }

  /** The dictionary `SortByDistanceFrom` has built once it has seen the subclasses `xs`. */
  ghost predicate Arranged(arranged: map<nat, seq<nat>>, g: TypeGraph, parent: TypeId, subs: seq<SubclassFragment>,
                           mapped: set<TypeId>, xs: seq<nat>)
    requires WellFormed(g)
  {
    && arranged.Keys == LevelsIn(g, parent, subs, mapped, xs)
    && forall d :: d in arranged ==> arranged[d] == AtLevel(g, parent, subs, mapped, xs, d)
  }

  /** One more subclass adds its level, if it has one, to the levels found. */
  lemma LevelsInAppend(g: TypeGraph, parent: TypeId, subs: seq<SubclassFragment>, mapped: set<TypeId>, xs: seq<nat>, i: nat)
    requires WellFormed(g)
    ensures var level := Level(g, parent, subs, mapped, i);
            LevelsIn(g, parent, subs, mapped, xs + [i])
            == LevelsIn(g, parent, subs, mapped, xs) + if level.Some? then {level.value} else {}
  {
  }

  /** Filing one more subclass appends it to the list of its level, creating the list if needed. */
  lemma ArrangedStep(arranged: map<nat, seq<nat>>, g: TypeGraph, parent: TypeId, subs: seq<SubclassFragment>,
                     mapped: set<TypeId>, xs: seq<nat>, i: nat)
    requires WellFormed(g)
    requires Arranged(arranged, g, parent, subs, mapped, xs)
    ensures var level := Level(g, parent, subs, mapped, i);
            Arranged(if level.None? then arranged
                     else arranged[level.value := (if level.value in arranged then arranged[level.value] else []) + [i]],
                     g, parent, subs, mapped, xs + [i])
  {
    var level := Level(g, parent, subs, mapped, i);
    LevelsInAppend(g, parent, subs, mapped, xs, i);
    var next := if level.None? then arranged
                else arranged[level.value := (if level.value in arranged then arranged[level.value] else []) + [i]];
    assert next.Keys == LevelsIn(g, parent, subs, mapped, xs + [i]);
    forall d | d in next
      ensures next[d] == AtLevel(g, parent, subs, mapped, xs + [i], d)
    {
      AtLevelAppend(g, parent, subs, mapped, xs, i, d);
      if level == Some(d) && d !in arranged {
        WhereNone(xs, (j: nat) => Level(g, parent, subs, mapped, j) == Some(d));
      }
    }
  }

  /** One more subclass joins the end of the list of its own level only. */
  lemma AtLevelAppend(g: TypeGraph, parent: TypeId, subs: seq<SubclassFragment>, mapped: set<TypeId>,
                      xs: seq<nat>, i: nat, d: nat)
    requires WellFormed(g)
    ensures AtLevel(g, parent, subs, mapped, xs + [i], d)
            == AtLevel(g, parent, subs, mapped, xs, d) + (if Level(g, parent, subs, mapped, i) == Some(d) then [i] else [])
  {
    WhereAppend(xs, i, (j: nat) => Level(g, parent, subs, mapped, j) == Some(d));
  }

  /** Once a prefix of `xs` throws, every longer prefix does. */
  lemma {:induction false} ThrowsExtends(g: TypeGraph, parent: TypeId, subs: seq<SubclassFragment>, mapped: set<TypeId>,
                                         xs: seq<nat>, n: nat)
    requires WellFormed(g)
    requires n <= |xs| && AnyThrows(g, parent, subs, mapped, xs[..n])
    ensures AnyThrows(g, parent, subs, mapped, xs)
    decreases |xs| - n
  {
    if n < |xs| {
      assert xs[..n + 1][..n] == xs[..n];
      ThrowsExtends(g, parent, subs, mapped, xs, n + 1);
    } else {
      assert xs[..n] == xs;
    }
  }

  /** A subclass whose walk throws makes the whole of `xs` throw. */
  lemma ThrowsAt(g: TypeGraph, parent: TypeId, subs: seq<SubclassFragment>, mapped: set<TypeId>, xs: seq<nat>, n: nat)
    requires WellFormed(g)
    requires n < |xs| && Throws(g, parent, subs, mapped, xs[n])
    ensures AnyThrows(g, parent, subs, mapped, xs)
  {
    assert xs[..n + 1][..n] == xs[..n];
    ThrowsExtends(g, parent, subs, mapped, xs, n + 1);
  }

  /** A prefix that does not throw stays so when the next subclass does not throw either. */
  lemma NoThrowStep(g: TypeGraph, parent: TypeId, subs: seq<SubclassFragment>, mapped: set<TypeId>, xs: seq<nat>, n: nat)
    requires WellFormed(g)
    requires n < |xs| && !AnyThrows(g, parent, subs, mapped, xs[..n]) && !Throws(g, parent, subs, mapped, xs[n])
    ensures !AnyThrows(g, parent, subs, mapped, xs[..n + 1])
  {
    assert xs[..n + 1][..n] == xs[..n];
  }

  /** The dictionary after filing subclass i at `level`: the level's list is created when new, then i is appended. */
  function Filed(arranged: map<nat, seq<nat>>, level: Option<nat>, i: nat): map<nat, seq<nat>>
  {
    if level.None? then arranged
    else arranged[level.value := (if level.value in arranged then arranged[level.value] else []) + [i]]
  }

  /** One iteration of the scoring loop over a subclass whose walk does not throw. */
  lemma ScoreStep(arranged: map<nat, seq<nat>>, g: TypeGraph, parent: TypeId, subs: seq<SubclassFragment>,
                  mapped: set<TypeId>, pool: seq<nat>, n: nat)
    requires WellFormed(g)
    requires n < |pool| && !Throws(g, parent, subs, mapped, pool[n])
    requires Arranged(arranged, g, parent, subs, mapped, pool[..n]) && !AnyThrows(g, parent, subs, mapped, pool[..n])
    ensures Arranged(Filed(arranged, Level(g, parent, subs, mapped, pool[n]), pool[n]), g, parent, subs, mapped, pool[..n + 1])
    ensures !AnyThrows(g, parent, subs, mapped, pool[..n + 1])
  {
    NoThrowStep(g, parent, subs, mapped, pool, n);
    assert pool[..n + 1] == pool[..n] + [pool[n]];
    ArrangedStep(arranged, g, parent, subs, mapped, pool[..n], pool[n]);
  }

  /**
   * `SortByDistanceFrom`: one pass over the pool filling a dictionary from
   * level to subclasses; the first subclass whose walk throws ends the pass.
   */
  method SortByDistanceFrom(g: TypeGraph, parent: TypeId, subs: seq<SubclassFragment>, pool: seq<nat>)
    returns (r: Result<map<nat, seq<nat>>, SearchError>)
    requires WellFormed(g)
    ensures r.Err? <==> PoolThrows(g, parent, subs, pool)
    ensures r.Ok? ==> r.value.Keys == LevelsIn(g, parent, subs, MappedTypes(subs, pool), pool)
    ensures r.Ok? ==> forall d :: d in r.value ==> r.value[d] == AtLevel(g, parent, subs, MappedTypes(subs, pool), pool, d)
  {
    var mapped := MappedTypes(subs, pool);
    var arranged: map<nat, seq<nat>> := map[];
    var n := 0;
    while n < |pool|
      invariant 0 <= n <= |pool|
      invariant Arranged(arranged, g, parent, subs, mapped, pool[..n])
      invariant !AnyThrows(g, parent, subs, mapped, pool[..n])
    {
      var i := pool[n];
      if i < |subs| && Distance(g, parent, subs[i].ty, mapped).Err? {
        ThrowsAt(g, parent, subs, mapped, pool, n);
        return Err(NullEvalType);
      }
      var level := Level(g, parent, subs, mapped, i);
      ScoreStep(arranged, g, parent, subs, mapped, pool, n);
      arranged := Filed(arranged, level, i);
      n := n + 1;
    }
    assert pool[..n] == pool;
    r := Ok(arranged);
  }

  /** `FindClosestSubclasses`: the search throws when scoring does, and otherwise returns `Closest`. */
  method FindClosestSubclasses(g: TypeGraph, parent: TypeId, subs: seq<SubclassFragment>)
    returns (r: Result<seq<nat>, SearchError>)
    requires WellFormed(g)
    ensures r.Err? <==> SearchThrows(g, parent, subs)
    ensures r.Ok? ==> r.value == Closest(g, parent, subs)
  {
    var ext := ExtendsGroup(subs, parent);
    var pool := Candidates(subs, parent);
    var sorted := SortByDistanceFrom(g, parent, subs, pool);
    if sorted.Err? {
      return Err(sorted.error);
    }
    var arranged := sorted.value;
    if arranged.Keys == {} && ext == [] {
      return Ok([]);
    }
    if arranged.Keys == {} {
      return Ok(ext);
    }
    var lowest := Lowest(arranged.Keys);
    r := Ok(arranged[lowest] + ext);
  }

  /** Every position `Closest` returns is a subclass of the bucket. */
  lemma ClosestInRange(g: TypeGraph, parent: TypeId, subs: seq<SubclassFragment>)
    requires WellFormed(g)
    ensures forall i :: i in Closest(g, parent, subs) ==> i < |subs|
  {
  }

  /**
   * What `FindClosestSubclasses` returns: exactly the Extends group and the
   * candidates at the lowest level; the two parts never share a subclass, and
   * a subclass related to the parent neither way is left out.
   */
  lemma ClosestMembers(g: TypeGraph, parent: TypeId, subs: seq<SubclassFragment>, i: nat)
    requires WellFormed(g)
    ensures var pool := Candidates(subs, parent);
            var mapped := MappedTypes(subs, pool);
            var levels := LevelsIn(g, parent, subs, mapped, pool);
            i in Closest(g, parent, subs) <==>
              ExtendsParent(subs, parent, i) ||
              (i < |subs| && levels != {} && Level(g, parent, subs, mapped, i) == Some(Lowest(levels)))
    ensures i in Closest(g, parent, subs) && !ExtendsParent(subs, parent, i) ==>
              Level(g, parent, subs, MappedTypes(subs, Candidates(subs, parent)), i).Some?
  {
    var pool := Candidates(subs, parent);
    if i < |subs| {
      assert Positions(|subs|)[i] == i;
    }
  }

  /** A structural pick is at least as close as every other structural candidate. */
  lemma ClosestIsMinimal(g: TypeGraph, parent: TypeId, subs: seq<SubclassFragment>, i: nat, j: nat)
    requires WellFormed(g)
    requires i in Closest(g, parent, subs) && !ExtendsParent(subs, parent, i)
    requires j < |subs| && !ExtendsParent(subs, parent, j)
    requires Level(g, parent, subs, MappedTypes(subs, Candidates(subs, parent)), j).Some?
    ensures Level(g, parent, subs, MappedTypes(subs, Candidates(subs, parent)), i).value
         <= Level(g, parent, subs, MappedTypes(subs, Candidates(subs, parent)), j).value
  {
    var pool := Candidates(subs, parent);
    var mapped := MappedTypes(subs, pool);
    var levels := LevelsIn(g, parent, subs, mapped, pool);
    CandidateInPool(subs, parent, j);
    assert Level(g, parent, subs, mapped, j).value in levels;
    ClosestMembers(g, parent, subs, i);
    assert Level(g, parent, subs, mapped, i) == Some(Lowest(levels));
  }

  /** A subclass without an Extends marker naming the parent is a structural candidate. */
  lemma CandidateInPool(subs: seq<SubclassFragment>, parent: TypeId, j: nat)
    requires j < |subs| && !ExtendsParent(subs, parent, j)
    ensures j in Candidates(subs, parent)
  {
    assert Positions(|subs|)[j] == j;
  }

  /**
   * The base-type walk from t qualifies exactly when following `BaseType`
   * from t reaches the parent, and throws exactly when it reaches neither the
   * parent nor `object`, that is when it runs into an interface first.
   */
  lemma {:induction false} BaseLevelQualifies(g: TypeGraph, parent: TypeId, t: TypeId, mapped: set<TypeId>)
    requires WellFormed(g)
    ensures BaseLevel(g, parent, Some(t), mapped).Ok? && BaseLevel(g, parent, Some(t), mapped).value.Some?
            <==> BaseChainReaches(g, parent, t)
    ensures BaseLevel(g, parent, Some(t), mapped).Err?
            <==> !BaseChainReaches(g, parent, t) && !BaseChainReaches(g, Object, t)
    decreases t
  {
    if t != parent && t != Object && BaseType(g, t).Some? {
      BaseLevelQualifies(g, parent, g.baseOf(t), mapped);
    }
  }

  /**
   * Which subclasses qualify: under an interface parent, those whose type
   * implements it, and the walk never throws; under a class parent, those
   * whose base-type chain reaches the parent.  Under a class parent the walk
   * throws exactly when the subclass's type has no base type (an interface
   * or `object`) or its chain runs into an interface before the parent or
   * `object`.
   */
  lemma DistanceQualifies(g: TypeGraph, parent: TypeId, t: TypeId, mapped: set<TypeId>)
    requires WellFormed(g)
    ensures g.isInterface(parent) ==>
              Distance(g, parent, t, mapped).Ok? && (Distance(g, parent, t, mapped).value.Some? <==> HasInterface(g, t, parent))
    ensures !g.isInterface(parent) ==>
              (Distance(g, parent, t, mapped).Ok? && Distance(g, parent, t, mapped).value.Some?
               <==> BaseType(g, t).Some? && BaseChainReaches(g, parent, g.baseOf(t)))
    ensures !g.isInterface(parent) ==>
              (Distance(g, parent, t, mapped).Err?
               <==> BaseType(g, t).None?
                    || (!BaseChainReaches(g, parent, g.baseOf(t)) && !BaseChainReaches(g, Object, g.baseOf(t))))
  {
    if !g.isInterface(parent) && BaseType(g, t).Some? {
      BaseLevelQualifies(g, parent, g.baseOf(t), mapped);
    }
  }

  /** Under a class parent, a subclass typed `object` or an interface makes the walk read `BaseType` of null. */
  lemma InterfaceOrObjectSubclassThrows(g: TypeGraph, parent: TypeId, t: TypeId, mapped: set<TypeId>)
    requires WellFormed(g)
    requires !g.isInterface(parent) && (t == Object || g.isInterface(t))
    ensures Distance(g, parent, t, mapped) == Err(NullEvalType)
  {
  }

  /**
   * A subclass typed `object` or an interface, without an Extends marker
   * naming a class parent, makes the search for that parent throw, whatever
   * the rest of the bucket holds.
   */
  lemma InterfaceOrObjectSubclassThrowsSearch(g: TypeGraph, parent: TypeId, subs: seq<SubclassFragment>, i: nat)
    requires WellFormed(g)
    requires !g.isInterface(parent) && i < |subs| && !ExtendsParent(subs, parent, i)
    requires subs[i].ty == Object || g.isInterface(subs[i].ty)
    ensures SearchThrows(g, parent, subs)
  {
    var pool := Candidates(subs, parent);
    CandidateInPool(subs, parent, i);
    var m :| 0 <= m < |pool| && pool[m] == i;
    InterfaceOrObjectSubclassThrows(g, parent, subs[i].ty, MappedTypes(subs, pool));
    ThrowsAt(g, parent, subs, MappedTypes(subs, pool), pool, m);
  }

  /** A direct subtype of a class parent is at level 0, so it is always among the closest. */
  lemma DirectSubtypeIsLevelZero(g: TypeGraph, parent: TypeId, t: TypeId, mapped: set<TypeId>)
    requires WellFormed(g)
    requires !g.isInterface(parent) && BaseType(g, t) == Some(parent)
    ensures Distance(g, parent, t, mapped) == Ok(Some(0))
  {
  }

  /**
   * A mapped intermediate pushes a subclass one level further than its base:
   * if the base type of t is itself a mapped type and both qualify, t's level
   * is the base's level plus one.  This holds under class and interface
   * parents.
   */
  lemma {:induction false} MappedBaseAddsLevel(g: TypeGraph, parent: TypeId, t: TypeId, mapped: set<TypeId>)
    requires WellFormed(g)
    requires BaseType(g, t).Some? && BaseType(g, t).value in mapped && BaseType(g, t).value != Object
    requires Distance(g, parent, t, mapped).Ok? && Distance(g, parent, t, mapped).value.Some?
    requires Distance(g, parent, BaseType(g, t).value, mapped).Ok?
    requires Distance(g, parent, BaseType(g, t).value, mapped).value.Some?
    ensures Distance(g, parent, t, mapped).value.value == Distance(g, parent, BaseType(g, t).value, mapped).value.value + 1
  {
    var b := g.baseOf(t);
    if !g.isInterface(parent) {
      assert b != parent by {
        if b == parent {
          assert BaseType(g, b).Some?;
          BaseLevelQualifies(g, parent, g.baseOf(b), mapped);
          AncestorIsBelow(g, parent, g.baseOf(b));
        }
      }
    }
  }

  /** Whatever the `BaseType` chain from t reaches has a number no greater than t's. */
  lemma {:induction false} AncestorIsBelow(g: TypeGraph, ancestor: TypeId, t: TypeId)
    requires WellFormed(g)
    requires BaseChainReaches(g, ancestor, t)
    ensures ancestor <= t
    decreases t
  {
    if t != ancestor {
      AncestorIsBelow(g, ancestor, g.baseOf(t));
    }
  }

  /**
   * The point of the distance rule: when a subclass's base type is itself a
   * qualifying structural candidate, the subclass is not attached to the
   * parent directly (it goes under its base instead).
   */
  lemma NearerCandidateWins(g: TypeGraph, parent: TypeId, subs: seq<SubclassFragment>, i: nat, j: nat)
    requires WellFormed(g)
    requires i < |subs| && j < |subs|
    requires !ExtendsParent(subs, parent, i) && !ExtendsParent(subs, parent, j)
    requires BaseType(g, subs[i].ty) == Some(subs[j].ty) && subs[j].ty != Object
    requires Level(g, parent, subs, MappedTypes(subs, Candidates(subs, parent)), i).Some?
    requires Level(g, parent, subs, MappedTypes(subs, Candidates(subs, parent)), j).Some?
    ensures i !in Closest(g, parent, subs)
  {
    var pool := Candidates(subs, parent);
    var mapped := MappedTypes(subs, pool);
    assert Positions(|subs|)[j] == j;
    assert j in pool;
    assert subs[j].ty in mapped;
    MappedBaseAddsLevel(g, parent, subs[i].ty, mapped);
    if i in Closest(g, parent, subs) {
      ClosestIsMinimal(g, parent, subs, i, j);
    }
  }

  /** `GetSubclassType` */
  function KindOf(c: ClassFragment): SubclassKind
  {
    if c.isUnionSubclass then UnionSubclass
    else if !c.hasDiscriminator then JoinedSubclass
    else Subclass
  }

  /** Every position in `list` names a subclass of the bucket. */
  predicate InRange(list: seq<nat>, n: nat)
  {
    forall j :: 0 <= j < |list| ==> list[j] < n
  }

  /** Every child list names subclasses of the bucket. */
  predicate ValidKids(kids: seq<seq<nat>>, n: nat)
  {
    forall i :: 0 <= i < |kids| ==> InRange(kids[i], n)
  }

  /**
   * `SetSubclassType` as a value: every subclass in `list` takes kind k, and
   * so do their children, down to `fuel` further levels.
   */
  function Stamp(kinds: seq<SubclassKind>, kids: seq<seq<nat>>, list: seq<nat>, k: SubclassKind, fuel: nat): (r: seq<SubclassKind>)
    requires |kids| == |kinds| && ValidKids(kids, |kinds|) && InRange(list, |kinds|)
    ensures |r| == |kinds|
    decreases fuel, |list|
  {
    if list == [] then kinds
    else
      var c := list[0];
      var once := kinds[c := k];
      var below := if fuel == 0 then once else Stamp(once, kids, kids[c], k, fuel - 1);
      Stamp(below, kids, list[1..], k, fuel)
  }

  /** The subclasses `Stamp` reaches: the list itself and, with fuel left, their children's reach. */
  function Reached(kids: seq<seq<nat>>, list: seq<nat>, fuel: nat): set<nat>
    decreases fuel, |list|
  {
    if list == [] then {}
    else
      var c := list[0];
      var below := if fuel == 0 || c >= |kids| then {} else Reached(kids, kids[c], fuel - 1);
      {c} + below + Reached(kids, list[1..], fuel)
  }

  /** Stamping sets exactly the reached subclasses to k and leaves every other kind alone. */
  lemma {:induction false} StampSetsReached(kinds: seq<SubclassKind>, kids: seq<seq<nat>>, list: seq<nat>, k: SubclassKind, fuel: nat)
    requires |kids| == |kinds| && ValidKids(kids, |kinds|) && InRange(list, |kinds|)
    ensures forall i :: 0 <= i < |kinds| ==>
              Stamp(kinds, kids, list, k, fuel)[i] == if i in Reached(kids, list, fuel) then k else kinds[i]
    decreases fuel, |list|
  {
    if list != [] {
      var c := list[0];
      var once := kinds[c := k];
      var below := if fuel == 0 then once else Stamp(once, kids, kids[c], k, fuel - 1);
      if fuel > 0 {
        StampSetsReached(once, kids, kids[c], k, fuel - 1);
      }
      StampSetsReached(below, kids, list[1..], k, fuel);
    }
  }

  /** The kinds after the first n classes, in bucket order, have stamped their descendants. */
  function StampClasses(kinds: seq<SubclassKind>, subKids: seq<seq<nat>>, classKids: seq<seq<nat>>,
                        roots: seq<SubclassKind>, n: nat, fuel: nat): (r: seq<SubclassKind>)
    requires |subKids| == |kinds| && ValidKids(subKids, |kinds|) && ValidKids(classKids, |kinds|)
    requires n <= |classKids| && n <= |roots|
    ensures |r| == |kinds|
  {
    if n == 0 then kinds
    else Stamp(StampClasses(kinds, subKids, classKids, roots, n - 1, fuel), subKids, classKids[n - 1], roots[n - 1], fuel)
  }

  /** The last of the first n classes whose tree reaches subclass i, if any. */
  function LastReacher(subKids: seq<seq<nat>>, classKids: seq<seq<nat>>, n: nat, fuel: nat, i: nat): (r: Option<nat>)
    requires n <= |classKids|
    ensures r.Some? ==> r.value < n && i in Reached(subKids, classKids[r.value], fuel)
    ensures r.Some? ==> forall c :: r.value < c < n ==> i !in Reached(subKids, classKids[c], fuel)
    ensures r.None? ==> forall c :: 0 <= c < n ==> i !in Reached(subKids, classKids[c], fuel)
  {
    if n == 0 then None
    else if i in Reached(subKids, classKids[n - 1], fuel) then Some(n - 1)
    else LastReacher(subKids, classKids, n - 1, fuel, i)
  }

  /**
   * The last class (in bucket order) whose tree reaches a subclass decides its
   * kind; a subclass no class reaches keeps its kind.
   */
  lemma {:induction false} LastStamperWins(kinds: seq<SubclassKind>, subKids: seq<seq<nat>>, classKids: seq<seq<nat>>,
                                           roots: seq<SubclassKind>, n: nat, fuel: nat, i: nat)
    requires |subKids| == |kinds| && ValidKids(subKids, |kinds|) && ValidKids(classKids, |kinds|)
    requires n <= |classKids| && n <= |roots| && i < |kinds|
    ensures StampClasses(kinds, subKids, classKids, roots, n, fuel)[i] ==
              match LastReacher(subKids, classKids, n, fuel, i)
              case None => kinds[i]
              case Some(c) => roots[c]
  {
    if n > 0 {
      LastStamperWins(kinds, subKids, classKids, roots, n - 1, fuel, i);
      var before := StampClasses(kinds, subKids, classKids, roots, n - 1, fuel);
      StampSetsReached(before, subKids, classKids[n - 1], roots[n - 1], fuel);
    }
  }

  // ---------------------------------------------------------------------
  // When the fuel is enough
  //
  // SetSubclassType recurses without a bound, so it ends only when no
  // subclass is its own descendant.  Such a child relation has a rank that
  // every child lowers; with at most n subclasses the ranks can be kept
  // below n, and then n levels of fuel reach every descendant.

  /** The child relation lowers `rank` at every step, so no subclass is its own descendant. */
  predicate Ranked(kids: seq<seq<nat>>, rank: seq<nat>)
  {
    |rank| == |kids| &&
    forall i, j :: 0 <= i < |kids| && 0 <= j < |kids[i]| ==> kids[i][j] < |rank| && rank[kids[i][j]] < rank[i]
  }

  /** Every child of a subclass in `s` is in `s`. */
  predicate ClosedUnder(kids: seq<seq<nat>>, s: set<nat>)
  {
    forall x, j :: x in s && x < |kids| && 0 <= j < |kids[x]| ==> kids[x][j] in s
  }

  lemma {:induction false} ListReached(kids: seq<seq<nat>>, list: seq<nat>, fuel: nat)
    ensures forall j :: 0 <= j < |list| ==> list[j] in Reached(kids, list, fuel)
    decreases |list|
  {
    if list != [] {
      ListReached(kids, list[1..], fuel);
      forall j | 1 <= j < |list| ensures list[j] in Reached(kids, list, fuel) {
        assert list[j] == list[1..][j - 1];
      }
    }
  }

  lemma {:induction false} BelowReached(kids: seq<seq<nat>>, list: seq<nat>, fuel: nat, j: nat)
    requires j < |list| && fuel > 0 && list[j] < |kids|
    ensures Reached(kids, kids[list[j]], fuel - 1) <= Reached(kids, list, fuel)
    decreases j
  {
    if j > 0 {
      BelowReached(kids, list[1..], fuel, j - 1);
    }
  }

  lemma {:induction false} ReachedOrigin(kids: seq<seq<nat>>, list: seq<nat>, fuel: nat, x: nat) returns (j: nat)
    requires x in Reached(kids, list, fuel)
    ensures j < |list|
    ensures x == list[j] || (fuel > 0 && list[j] < |kids| && x in Reached(kids, kids[list[j]], fuel - 1))
    decreases |list|
  {
    var c := list[0];
    var below := if fuel == 0 || c >= |kids| then {} else Reached(kids, kids[c], fuel - 1);
    if x == c || x in below {
      j := 0;
    } else {
      var k := ReachedOrigin(kids, list[1..], fuel, x);
      j := k + 1;
    }
  }

  /**
   * With a rank that every child lowers and fuel at least the rank of each
   * starting subclass, the subclasses `Stamp` reaches include every child
   * of each one reached.
   */
  lemma {:induction false} RankedReachIsClosed(kids: seq<seq<nat>>, rank: seq<nat>, list: seq<nat>, fuel: nat)
    requires Ranked(kids, rank)
    requires forall j :: 0 <= j < |list| ==> list[j] < |rank| && rank[list[j]] <= fuel
    ensures ClosedUnder(kids, Reached(kids, list, fuel))
    decreases fuel
  {
    var r := Reached(kids, list, fuel);
    forall x, j | x in r && x < |kids| && 0 <= j < |kids[x]| ensures kids[x][j] in r {
      var i := ReachedOrigin(kids, list, fuel, x);
      var c := list[i];
      if x == c {
        assert rank[kids[x][j]] < rank[x];
        ListReached(kids, kids[x], fuel - 1);
        BelowReached(kids, list, fuel, i);
      } else {
        forall m | 0 <= m < |kids[c]| ensures kids[c][m] < |rank| && rank[kids[c][m]] <= fuel - 1 {
          assert rank[kids[c][m]] < rank[c];
        }
        RankedReachIsClosed(kids, rank, kids[c], fuel - 1);
        BelowReached(kids, list, fuel, i);
      }
    }
  }

  /** Whatever fuel is given, `Stamp` reaches no further than the descendants of its list. */
  lemma {:induction false} ReachedWithinClosed(kids: seq<seq<nat>>, list: seq<nat>, fuel: nat, s: set<nat>)
    requires forall j :: 0 <= j < |list| ==> list[j] in s
    requires ClosedUnder(kids, s)
    ensures Reached(kids, list, fuel) <= s
    decreases fuel, |list|
  {
    if list != [] {
      var c := list[0];
      assert c in s;
      if fuel > 0 && c < |kids| {
        ReachedWithinClosed(kids, kids[c], fuel - 1, s);
      }
      ReachedWithinClosed(kids, list[1..], fuel, s);
    }
  }

  /**
   * When no subclass is its own descendant (the ranks need never exceed the
   * number of subclasses), the |subs| levels of fuel `StampAll` gives reach
   * exactly the least set that holds the list and every child of its
   * members: every descendant, as the unbounded recursion does.
   */
  lemma StampFuelReachesEveryDescendant(kids: seq<seq<nat>>, rank: seq<nat>, list: seq<nat>)
    requires Ranked(kids, rank) && forall i :: 0 <= i < |rank| ==> rank[i] < |kids|
    requires InRange(list, |kids|)
    ensures forall j :: 0 <= j < |list| ==> list[j] in Reached(kids, list, |kids|)
    ensures ClosedUnder(kids, Reached(kids, list, |kids|))
    ensures forall s: set<nat> :: (forall j :: 0 <= j < |list| ==> list[j] in s) && ClosedUnder(kids, s)
              ==> Reached(kids, list, |kids|) <= s
  {
    ListReached(kids, list, |kids|);
    RankedReachIsClosed(kids, rank, list, |kids|);
    forall s: set<nat> | (forall j :: 0 <= j < |list| ==> list[j] in s) && ClosedUnder(kids, s)
      ensures Reached(kids, list, |kids|) <= s
    {
      ReachedWithinClosed(kids, list, |kids|, s);
    }
  }

  function RootKinds(classes: seq<ClassFragment>): (r: seq<SubclassKind>)
    ensures |r| == |classes|
    ensures forall c :: 0 <= c < |classes| ==> r[c] == KindOf(classes[c])
  {
    seq(|classes|, c requires 0 <= c < |classes| => KindOf(classes[c]))
  }

  /** `SetSubclassType`: the recursive stamping, over the subclasses' kinds held in place. */
  method SetSubclassType(kinds: array<SubclassKind>, kids: seq<seq<nat>>, list: seq<nat>, k: SubclassKind, fuel: nat)
    requires |kids| == kinds.Length && ValidKids(kids, kinds.Length) && InRange(list, kinds.Length)
    modifies kinds
    ensures kinds[..] == Stamp(old(kinds[..]), kids, list, k, fuel)
    decreases fuel
  {
    var j := 0;
    while j < |list|
      invariant 0 <= j <= |list|
      invariant Stamp(kinds[..], kids, list[j..], k, fuel) == Stamp(old(kinds[..]), kids, list, k, fuel)
    {
      var c := list[j];
      assert list[j..][1..] == list[j + 1..];
      ghost var once := kinds[..][c := k];
      kinds[c] := k;
      assert kinds[..] == once;
      if fuel > 0 {
        SetSubclassType(kinds, kids, kids[c], k, fuel - 1);
      }
      j := j + 1;
    }
  }

  /**
   * One parent's turn: its closest subclasses are appended to its children
   * (`AddSubclass` for each), unless the search throws.
   */
  method PairOne(g: TypeGraph, parent: TypeId, subs: seq<SubclassFragment>, kids: array<seq<nat>>, c: nat)
    returns (ok: bool)
    requires WellFormed(g)
    requires c < kids.Length && ValidKids(kids[..], |subs|)
    modifies kids
    ensures ok <==> !SearchThrows(g, parent, subs)
    ensures kids[c] == if ok then old(kids[c]) + Closest(g, parent, subs) else old(kids[c])
    ensures forall x :: 0 <= x < kids.Length && x != c ==> kids[x] == old(kids[x])
    ensures ValidKids(kids[..], |subs|)
  {
    var found := FindClosestSubclasses(g, parent, subs);
    if found.Err? {
      return false;
    }
    ClosestInRange(g, parent, subs);
    assert InRange(found.value, |subs|) by {
      forall j | 0 <= j < |found.value| ensures found.value[j] < |subs| { assert found.value[j] in found.value; }
    }
    kids[c] := kids[c] + found.value;
    ok := true;
  }

  /**
   * Pairs each parent (by type) with its closest subclasses, appending them to
   * its children, until a search throws; `paired` is the number of parents
   * paired before that.
   */
  method PairAll(g: TypeGraph, parents: seq<TypeId>, subs: seq<SubclassFragment>, kids: array<seq<nat>>)
    returns (paired: nat)
    requires WellFormed(g)
    requires kids.Length == |parents| && ValidKids(kids[..], |subs|)
    modifies kids
    ensures paired <= |parents|
    ensures paired < |parents| ==> SearchThrows(g, parents[paired], subs)
    ensures forall x :: 0 <= x < paired ==> !SearchThrows(g, parents[x], subs)
    ensures forall x :: 0 <= x < paired ==> kids[x] == old(kids[x]) + Closest(g, parents[x], subs)
    ensures forall x :: paired <= x < |parents| ==> kids[x] == old(kids[x])
    ensures ValidKids(kids[..], |subs|)
  {
    var c := 0;
    while c < |parents|
      invariant 0 <= c <= |parents|
      invariant forall x :: 0 <= x < c ==> !SearchThrows(g, parents[x], subs)
      invariant forall x :: 0 <= x < c ==> kids[x] == old(kids[x]) + Closest(g, parents[x], subs)
      invariant forall x :: c <= x < |parents| ==> kids[x] == old(kids[x])
      invariant ValidKids(kids[..], |subs|)
    {
      var ok := PairOne(g, parents[c], subs, kids, c);
      if !ok {
        return c;
      }
      c := c + 1;
    }
    paired := c;
  }

  /** Stamps every class's kind through its tree, class by class in bucket order. */
  method StampAll(classes: seq<ClassFragment>, subKids: seq<seq<nat>>, classKids: seq<seq<nat>>, kinds: array<SubclassKind>)
    requires |classKids| == |classes| && |subKids| == kinds.Length
    requires ValidKids(subKids, kinds.Length) && ValidKids(classKids, kinds.Length)
    modifies kinds
    ensures kinds[..] == StampClasses(old(kinds[..]), subKids, classKids, RootKinds(classes), |classes|, kinds.Length)
  {
    var roots := RootKinds(classes);
    var c := 0;
    while c < |classes|
      invariant 0 <= c <= |classes|
      invariant kinds[..] == StampClasses(old(kinds[..]), subKids, classKids, roots, c, kinds.Length)
    {
      SetSubclassType(kinds, subKids, classKids[c], KindOf(classes[c]), kinds.Length);
      c := c + 1;
    }
  }

  /** The types of the classes, in bucket order. */
  function ClassTypes(classes: seq<ClassFragment>): (r: seq<TypeId>)
    ensures |r| == |classes| && forall c :: 0 <= c < |classes| ==> r[c] == classes[c].ty
  {
    seq(|classes|, c requires 0 <= c < |classes| => classes[c].ty)
  }

  /** The types of the subclasses, in bucket order. */
  function SubclassTypes(subs: seq<SubclassFragment>): (r: seq<TypeId>)
    ensures |r| == |subs| && forall s :: 0 <= s < |subs| ==> r[s] == subs[s].ty
  {
    seq(|subs|, s requires 0 <= s < |subs| => subs[s].ty)
  }

  /**
   * `Visit(MappingBucket)`: pair every class, then every subclass, with its
   * closest subclasses (appending to the children it already has), then stamp
   * every class's kind through its tree.  The recursion of the stamping is
   * bounded by the number of subclasses.  A search that throws ends the visit
   * (`ok` is false): the parents before it keep their new children, and no
   * kind is stamped.
   */
  method Visit(g: TypeGraph, classes: seq<ClassFragment>, subs: seq<SubclassFragment>,
               classKids: array<seq<nat>>, subKids: array<seq<nat>>, kinds: array<SubclassKind>)
    returns (ok: bool)
    requires WellFormed(g)
    requires classKids.Length == |classes| && subKids.Length == |subs| && kinds.Length == |subs|
    requires ValidKids(classKids[..], |subs|) && ValidKids(subKids[..], |subs|)
    requires classKids != subKids
    modifies classKids, subKids, kinds
    ensures ok <==> (forall c :: 0 <= c < |classes| ==> !SearchThrows(g, classes[c].ty, subs))
                    && (forall s :: 0 <= s < |subs| ==> !SearchThrows(g, subs[s].ty, subs))
    ensures forall c :: 0 <= c < |classes| ==>
              classKids[c] == old(classKids[c]) + Closest(g, classes[c].ty, subs)
              || (!ok && classKids[c] == old(classKids[c]))
    ensures forall s :: 0 <= s < |subs| ==>
              subKids[s] == old(subKids[s]) + Closest(g, subs[s].ty, subs)
              || (!ok && subKids[s] == old(subKids[s]))
    ensures ValidKids(classKids[..], |subs|) && ValidKids(subKids[..], |subs|)
    ensures ok ==> kinds[..] == StampClasses(old(kinds[..]), subKids[..], classKids[..], RootKinds(classes), |classes|, |subs|)
    ensures !ok ==> kinds[..] == old(kinds[..])
  {
    var classTypes := ClassTypes(classes);
    var classesPaired := PairAll(g, classTypes, subs, classKids);
    if classesPaired < |classes| {
      assert SearchThrows(g, classes[classesPaired].ty, subs);
      return false;
    }
    var subTypes := SubclassTypes(subs);
    var subsPaired := PairAll(g, subTypes, subs, subKids);
    if subsPaired < |subs| {
      assert SearchThrows(g, subs[subsPaired].ty, subs);
      return false;
    }
    StampAll(classes, subKids[..], classKids[..], kinds);
    ok := true;
  }

  /**
   * The hierarchy of the pairing scenarios: IFoo (1) is an interface, Base (2)
   * implements it, the abstract BaseImpl (3) extends Base, Foo<string> (4)
   * extends BaseImpl, and StandAlone (5) is unrelated.
   */
  function ScenarioGraph(): (g: TypeGraph)
    ensures WellFormed(g)
  {
    TypeGraph(
      t => if t == 4 then 3 else if t == 3 then 2 else Object,
      t => if 2 <= t <= 4 then {1} else {},
      t => t == 1,
      t => t == 4,
      t => t,
      t => t == 3)
  }

  /** Foo<string>, StandAlone and BaseImpl, mapped as subclasses without Extends markers. */
  function ScenarioSubclasses(): seq<SubclassFragment>
  {
    [SubclassFragment(4, None), SubclassFragment(5, None), SubclassFragment(3, None)]
  }

  lemma ScenarioPool(parent: TypeId)
    ensures Candidates(ScenarioSubclasses(), parent) == [0, 1, 2]
    ensures ExtendsGroup(ScenarioSubclasses(), parent) == []
    ensures MappedTypes(ScenarioSubclasses(), [0, 1, 2]) == {3, 4, 5}
  {
    var subs := ScenarioSubclasses();
    var all := Positions(3);
    assert all == [0, 1, 2];
    KeepAll(all, (i: nat) => i < |subs| && !ExtendsParent(subs, parent, i));
    WhereNone(all, (i: nat) => ExtendsParent(subs, parent, i));
    ScenarioMapped();
  }

  lemma ScenarioMapped()
    ensures MappedTypes(ScenarioSubclasses(), [0, 1, 2]) == {3, 4, 5}
  {
    var subs := ScenarioSubclasses();
    assert subs[0].ty == 4 && subs[1].ty == 5 && subs[2].ty == 3;
  }

  /** The levels found in the scenarios' pool of three candidates. */
  lemma LevelsOfThree(g: TypeGraph, parent: TypeId, subs: seq<SubclassFragment>, mapped: set<TypeId>)
    requires WellFormed(g)
    ensures var l0, l1, l2 := Level(g, parent, subs, mapped, 0), Level(g, parent, subs, mapped, 1),
                              Level(g, parent, subs, mapped, 2);
            LevelsIn(g, parent, subs, mapped, [0, 1, 2])
            == (if l0.Some? then {l0.value} else {}) + (if l1.Some? then {l1.value} else {})
               + (if l2.Some? then {l2.value} else {})
  {
  }

  /** The candidates of the scenarios' pool filed at level d, in order. */
  lemma FiledOfThree(g: TypeGraph, parent: TypeId, subs: seq<SubclassFragment>, mapped: set<TypeId>, d: nat)
    requires WellFormed(g)
    ensures AtLevel(g, parent, subs, mapped, [0, 1, 2], d)
            == (if Level(g, parent, subs, mapped, 0) == Some(d) then [0] else [])
               + (if Level(g, parent, subs, mapped, 1) == Some(d) then [1] else [])
               + (if Level(g, parent, subs, mapped, 2) == Some(d) then [2] else [])
  {
    assert [0, 1, 2][1..] == [1, 2] && [1, 2][1..] == [2] && [2][1..] == [];
  }

  /**
   * Under IFoo and under BaseImpl no walk of the scenario throws: every
   * subclass type is a class whose base-type chain ends at `object`.
   */
  lemma NoScenarioThrows(parent: TypeId)
    requires parent == 1 || parent == 3
    ensures !SearchThrows(ScenarioGraph(), parent, ScenarioSubclasses())
  {
    var g, subs := ScenarioGraph(), ScenarioSubclasses();
    ScenarioPool(parent);
    var xs: seq<nat>, mapped := [0, 1, 2], {3, 4, 5};
    assert xs[..0] == [];
    NoScenarioThrowAt(parent, 0);
    NoThrowStep(g, parent, subs, mapped, xs, 0);
    NoScenarioThrowAt(parent, 1);
    NoThrowStep(g, parent, subs, mapped, xs, 1);
    NoScenarioThrowAt(parent, 2);
    NoThrowStep(g, parent, subs, mapped, xs, 2);
    assert xs[..3] == xs;
  }

  /** The walk for the scenario's i-th subclass does not throw. */
  lemma NoScenarioThrowAt(parent: TypeId, i: nat)
    requires parent == 1 || parent == 3
    requires i < 3
    ensures !Throws(ScenarioGraph(), parent, ScenarioSubclasses(), {3, 4, 5}, i)
  {
  }

  /** Where the scenario's three subclasses are filed under IFoo. */
  lemma InterfaceScenarioLevels()
    ensures Level(ScenarioGraph(), 1, ScenarioSubclasses(), {3, 4, 5}, 0) == Some(1)
    ensures Level(ScenarioGraph(), 1, ScenarioSubclasses(), {3, 4, 5}, 1) == None
    ensures Level(ScenarioGraph(), 1, ScenarioSubclasses(), {3, 4, 5}, 2) == Some(0)
  {
    assert InterfaceLevel(ScenarioGraph(), 1, 3, {3, 4, 5}) == 0;
  }

  /** Where the scenario's three subclasses are filed under BaseImpl. */
  lemma AbstractBaseScenarioLevels()
    ensures Level(ScenarioGraph(), 3, ScenarioSubclasses(), {3, 4, 5}, 0) == Some(0)
    ensures Level(ScenarioGraph(), 3, ScenarioSubclasses(), {3, 4, 5}, 1) == None
    ensures Level(ScenarioGraph(), 3, ScenarioSubclasses(), {3, 4, 5}, 2) == None
  {
  }

  /** With no Extends group, `Closest` is the pool's candidates at its lowest level d. */
  lemma ClosestFrom(g: TypeGraph, parent: TypeId, subs: seq<SubclassFragment>, pool: seq<nat>, mapped: set<TypeId>,
                    levels: set<nat>, d: nat)
    requires WellFormed(g)
    requires Candidates(subs, parent) == pool && ExtendsGroup(subs, parent) == [] && MappedTypes(subs, pool) == mapped
    requires LevelsIn(g, parent, subs, mapped, pool) == levels
    requires d in levels && forall x :: x in levels ==> d <= x
    ensures Closest(g, parent, subs) == AtLevel(g, parent, subs, mapped, pool, d)
  {
    assert Lowest(levels) == d;
    assert AtLevel(g, parent, subs, mapped, pool, d) + [] == AtLevel(g, parent, subs, mapped, pool, d);
  }

  /**
   * Under the interface IFoo only BaseImpl attaches: Foo<string> sits one
   * mapped level below it and StandAlone does not implement IFoo.
   */
  lemma InterfaceWithAbstractBaseScenario()
    ensures !SearchThrows(ScenarioGraph(), 1, ScenarioSubclasses())
    ensures Closest(ScenarioGraph(), 1, ScenarioSubclasses()) == [2]
  {
    NoScenarioThrows(1);
    ScenarioPool(1);
    InterfaceScenarioFiling();
    ClosestFrom(ScenarioGraph(), 1, ScenarioSubclasses(), [0, 1, 2], {3, 4, 5}, {0, 1}, 0);
  }

  /** Under IFoo, the pool fills levels 0 and 1, and level 0 holds BaseImpl alone. */
  lemma InterfaceScenarioFiling()
    ensures LevelsIn(ScenarioGraph(), 1, ScenarioSubclasses(), {3, 4, 5}, [0, 1, 2]) == {0, 1}
    ensures AtLevel(ScenarioGraph(), 1, ScenarioSubclasses(), {3, 4, 5}, [0, 1, 2], 0) == [2]
  {
    InterfaceScenarioLevels();
    LevelsOfThree(ScenarioGraph(), 1, ScenarioSubclasses(), {3, 4, 5});
    FiledOfThree(ScenarioGraph(), 1, ScenarioSubclasses(), {3, 4, 5}, 0);
  }

  /** Under BaseImpl, Foo<string> attaches and StandAlone does not. */
  lemma AbstractBaseScenario()
    ensures !SearchThrows(ScenarioGraph(), 3, ScenarioSubclasses())
    ensures Closest(ScenarioGraph(), 3, ScenarioSubclasses()) == [0]
  {
    NoScenarioThrows(3);
    ScenarioPool(3);
    AbstractBaseScenarioFiling();
    ClosestFrom(ScenarioGraph(), 3, ScenarioSubclasses(), [0, 1, 2], {3, 4, 5}, {0}, 0);
  }

  /** Under BaseImpl, the pool fills level 0 only, with Foo<string>. */
  lemma AbstractBaseScenarioFiling()
    ensures LevelsIn(ScenarioGraph(), 3, ScenarioSubclasses(), {3, 4, 5}, [0, 1, 2]) == {0}
    ensures AtLevel(ScenarioGraph(), 3, ScenarioSubclasses(), {3, 4, 5}, [0, 1, 2], 0) == [0]
  {
    AbstractBaseScenarioLevels();
    LevelsOfThree(ScenarioGraph(), 3, ScenarioSubclasses(), {3, 4, 5});
    FiledOfThree(ScenarioGraph(), 3, ScenarioSubclasses(), {3, 4, 5}, 0);
  }
}
