/**
 * Resolution of component references: a class may refer to a component
 * defined once, outside it (an external component).  Each reference is
 * matched by type against the external components of the bucket; exactly one
 * must match, and the chosen component's own references are then resolved
 * in turn against the same pool.
 */
module ComponentResolution {
  import opened Wrappers
  import opened TypeGraphs
  import opened Sequences

  /** A ReferenceComponentMapping: the component type, where it is used, and the member. */
  datatype Reference = Reference(ty: TypeId, entity: TypeId, member: string)

  /**
   * An ExternalComponentMapping: its type and the references its own body
   * holds, in traversal order (what visiting the merged model reaches).
   */
  datatype ExternalComponent = ExternalComponent(ty: TypeId, refs: seq<Reference>)

  /** `AssociateExternalMapping`: the reference and the position of the component it was given. */
  datatype Association = Association(reference: Reference, component: nat)

  datatype ResolutionError =
    | MissingExternalComponent(ty: TypeId, entity: TypeId, member: string)
    | AmbiguousComponentReference(ty: TypeId, entity: TypeId, member: string)
      /** References that lead back to themselves recurse without end; the model stops at a depth bound. */
    | TooDeep

  /** `components.Where(x => x.Type == mapping.Type)`, as positions in the pool. */
  function Providers(pool: seq<ExternalComponent>, ty: TypeId): (r: seq<nat>)
    ensures forall i: nat :: i in r <==> i < |pool| && pool[i].ty == ty
    ensures Increasing(r)
  {
    WhereIncreasing(Positions(|pool|), (i: nat) => i < |pool| && pool[i].ty == ty);
    Where(Positions(|pool|), (i: nat) => i < |pool| && pool[i].ty == ty)
  }

  /** Prefixes the associations already made to the outcome of the rest. */
  function Prepend(made: seq<Association>, rest: Result<seq<Association>, ResolutionError>): Result<seq<Association>, ResolutionError>
  {
    match rest
    case Ok(more) => Ok(made + more)
    case Err(e) => Err(e)
  }

  /** `ProcessComponent`, as a value: the associations made, in order, or the first failure. */
  function Resolve(pool: seq<ExternalComponent>, r: Reference, fuel: nat): Result<seq<Association>, ResolutionError>
    decreases fuel, 0
  {
    var providers := Providers(pool, r.ty);
    if |providers| == 0 then Err(MissingExternalComponent(r.ty, r.entity, r.member))
    else if |providers| > 1 then Err(AmbiguousComponentReference(r.ty, r.entity, r.member))
    else if fuel == 0 then Err(TooDeep)
    else
      var chosen := providers[0];
      assert chosen in providers;
      Prepend([Association(r, chosen)], ResolveAll(pool, pool[chosen].refs, fuel - 1))
  }

  /** Visiting a sequence of references: each is resolved in turn, and the first failure aborts. */
  function ResolveAll(pool: seq<ExternalComponent>, refs: seq<Reference>, fuel: nat): Result<seq<Association>, ResolutionError>
    decreases fuel, |refs|
  {
    if refs == [] then Ok([])
    else
      match Resolve(pool, refs[0], fuel)
      case Err(e) => Err(e)
      case Ok(made) => Prepend(made, ResolveAll(pool, refs[1..], fuel))
  }

  /** No component of the reference's type: the reference is reported missing. */
  lemma ResolveMissing(pool: seq<ExternalComponent>, r: Reference, fuel: nat)
    requires forall i :: 0 <= i < |pool| ==> pool[i].ty != r.ty
    ensures Resolve(pool, r, fuel) == Err(MissingExternalComponent(r.ty, r.entity, r.member))
  {
    var providers := Providers(pool, r.ty);
    EmptyWithoutMembers(providers);
  }

  /** Two components of the reference's type: the reference is reported ambiguous. */
  lemma ResolveAmbiguous(pool: seq<ExternalComponent>, r: Reference, fuel: nat, i: nat, j: nat)
    requires i < j < |pool| && pool[i].ty == r.ty && pool[j].ty == r.ty
    ensures Resolve(pool, r, fuel) == Err(AmbiguousComponentReference(r.ty, r.entity, r.member))
  {
    var providers := Providers(pool, r.ty);
    assert i in providers && j in providers;
  }

  /**
   * Exactly one component c of the reference's type: the reference is
   * associated with c, and then c's own references are resolved.
   */
  lemma ResolveUnique(pool: seq<ExternalComponent>, r: Reference, fuel: nat, c: nat)
    requires c < |pool| && pool[c].ty == r.ty && fuel > 0
    requires forall i :: 0 <= i < |pool| && pool[i].ty == r.ty ==> i == c
    ensures Resolve(pool, r, fuel) == Prepend([Association(r, c)], ResolveAll(pool, pool[c].refs, fuel - 1))
  {
    var providers := Providers(pool, r.ty);
    assert c in providers;
    assert forall k :: 0 <= k < |providers| ==> providers[k] in providers;
    FirstTwoDiffer(providers);
  }

  /**
   * A failure names a genuine problem: a missing type has no component in
   * the pool, and an ambiguous one has at least two, however deep in the
   * merged models the failing reference sits.
   */
  lemma {:induction false} ResolveErrorsAreGenuine(pool: seq<ExternalComponent>, r: Reference, fuel: nat)
    ensures Resolve(pool, r, fuel).Err? && Resolve(pool, r, fuel).error.MissingExternalComponent? ==>
              forall i :: 0 <= i < |pool| ==> pool[i].ty != Resolve(pool, r, fuel).error.ty
    ensures Resolve(pool, r, fuel).Err? && Resolve(pool, r, fuel).error.AmbiguousComponentReference? ==>
              exists i, j :: 0 <= i < j < |pool| && pool[i].ty == Resolve(pool, r, fuel).error.ty
                                                 && pool[j].ty == Resolve(pool, r, fuel).error.ty
    decreases fuel, 0
  {
    var providers := Providers(pool, r.ty);
    if |providers| == 0 {
      assert forall i :: 0 <= i < |pool| ==> i !in providers;
    } else if |providers| > 1 {
      var a, b := providers[0], providers[1];
      assert a in providers && b in providers;
    } else if fuel > 0 {
      assert providers[0] in providers;
      ResolveAllErrorsAreGenuine(pool, pool[providers[0]].refs, fuel - 1);
    }
  }

  lemma {:induction false} ResolveAllErrorsAreGenuine(pool: seq<ExternalComponent>, refs: seq<Reference>, fuel: nat)
    ensures ResolveAll(pool, refs, fuel).Err? && ResolveAll(pool, refs, fuel).error.MissingExternalComponent? ==>
              forall i :: 0 <= i < |pool| ==> pool[i].ty != ResolveAll(pool, refs, fuel).error.ty
    ensures ResolveAll(pool, refs, fuel).Err? && ResolveAll(pool, refs, fuel).error.AmbiguousComponentReference? ==>
              exists i, j :: 0 <= i < j < |pool| && pool[i].ty == ResolveAll(pool, refs, fuel).error.ty
                                                 && pool[j].ty == ResolveAll(pool, refs, fuel).error.ty
    decreases fuel, |refs|
  {
    if refs != [] {
      ResolveErrorsAreGenuine(pool, refs[0], fuel);
      ResolveAllErrorsAreGenuine(pool, refs[1..], fuel);
    }
  }

  /** Before any bucket has been visited the pool is empty, so every reference is missing. */
  lemma EmptyPoolIsMissing(r: Reference, fuel: nat)
    ensures Resolve([], r, fuel) == Err(MissingExternalComponent(r.ty, r.entity, r.member))
  {
    ResolveMissing([], r, fuel);
  }

  /** Every association made pairs a reference with a component of its own type that no other component shares. */
  predicate Sound(pool: seq<ExternalComponent>, made: seq<Association>)
  {
    forall k :: 0 <= k < |made| ==>
      && made[k].component < |pool|
      && pool[made[k].component].ty == made[k].reference.ty
      && forall i :: 0 <= i < |pool| && pool[i].ty == made[k].reference.ty ==> i == made[k].component
  }

  lemma SoundAppend(pool: seq<ExternalComponent>, a: seq<Association>, b: seq<Association>)
    requires Sound(pool, a) && Sound(pool, b)
    ensures Sound(pool, a + b)
  {
    forall k | 0 <= k < |a + b|
      ensures (a + b)[k] == if k < |a| then a[k] else b[k - |a|]
    {
    }
  }

  /** Whatever resolution associates is sound: the unique component of the reference's type. */
  lemma {:induction false} ResolveIsSound(pool: seq<ExternalComponent>, r: Reference, fuel: nat)
    ensures Resolve(pool, r, fuel).Ok? ==> Sound(pool, Resolve(pool, r, fuel).value)
    ensures Resolve(pool, r, fuel).Ok? ==>
              (|Resolve(pool, r, fuel).value| > 0 && Resolve(pool, r, fuel).value[0].reference == r)
    decreases fuel, 0
  {
    var providers := Providers(pool, r.ty);
    if |providers| == 1 && fuel > 0 {
      var c := providers[0];
      assert c in providers;
      forall i | 0 <= i < |pool| && pool[i].ty == r.ty
        ensures i == c
      {
        assert i in providers;
        assert providers == [c];
      }
      assert Sound(pool, [Association(r, c)]);
      ResolveAllIsSound(pool, pool[c].refs, fuel - 1);
      var rest := ResolveAll(pool, pool[c].refs, fuel - 1);
      if rest.Ok? {
        SoundAppend(pool, [Association(r, c)], rest.value);
      }
    }
  }

  lemma {:induction false} ResolveAllIsSound(pool: seq<ExternalComponent>, refs: seq<Reference>, fuel: nat)
    ensures ResolveAll(pool, refs, fuel).Ok? ==> Sound(pool, ResolveAll(pool, refs, fuel).value)
    decreases fuel, |refs|
  {
    if refs != [] {
      ResolveIsSound(pool, refs[0], fuel);
      ResolveAllIsSound(pool, refs[1..], fuel);
      var first := Resolve(pool, refs[0], fuel);
      var rest := ResolveAll(pool, refs[1..], fuel);
      if first.Ok? && rest.Ok? {
        SoundAppend(pool, first.value, rest.value);
      }
    }
  }

  /** Resolution of a list fails exactly when one of its references fails; otherwise it resolves them all, in order. */
  lemma {:induction false} ResolveAllSucceedsIffEach(pool: seq<ExternalComponent>, refs: seq<Reference>, fuel: nat)
    ensures ResolveAll(pool, refs, fuel).Ok? <==> forall k :: 0 <= k < |refs| ==> Resolve(pool, refs[k], fuel).Ok?
    decreases |refs|
  {
    if refs != [] {
      ResolveAllSucceedsIffEach(pool, refs[1..], fuel);
      assert forall k :: 1 <= k < |refs| ==> refs[k] == refs[1..][k - 1];
    }
  }

  lemma PrependNothing(r: Result<seq<Association>, ResolutionError>)
    ensures Prepend([], r) == r
  {
    if r.Ok? {
      assert [] + r.value == r.value;
    }
  }

  lemma PrependAssoc(a: seq<Association>, b: seq<Association>, r: Result<seq<Association>, ResolutionError>)
    ensures Prepend(a, Prepend(b, r)) == Prepend(a + b, r)
  {
    if r.Ok? {
      assert a + (b + r.value) == (a + b) + r.value;
    }
  }

  /**
   * The visitor.  `Visit(bucket)` captures the bucket's external components
   * as the pool; `ProcessComponent` resolves one reference against it and
   * then visits the merged model.
   */
  class ComponentReferenceResolutionVisitor {
    var components: seq<ExternalComponent>

    /** The depth bound that stands in for the stack on cyclic references. */
    const depth: nat

    constructor (depth: nat)
      ensures components == [] && this.depth == depth
    {
      components := [];
      this.depth := depth;
    }

    /** `Visit(MappingBucket)`: capture the pool, then traverse the bucket's references in order. */
    method Visit(bucketComponents: seq<ExternalComponent>, bucketRefs: seq<Reference>)
      returns (res: Result<seq<Association>, ResolutionError>)
      modifies this
      ensures components == bucketComponents
      ensures res == ResolveAll(bucketComponents, bucketRefs, depth)
    {
      components := bucketComponents;
      res := VisitAll(bucketRefs, depth);
    }

    /** Visiting a sequence of references, stopping at the first failure. */
    method VisitAll(refs: seq<Reference>, fuel: nat) returns (res: Result<seq<Association>, ResolutionError>)
      ensures res == ResolveAll(components, refs, fuel)
      decreases fuel, |refs|
    {
      var made: seq<Association> := [];
      var j := 0;
      assert refs[j..] == refs;
      PrependNothing(ResolveAll(components, refs, fuel));
      while j < |refs|
        invariant 0 <= j <= |refs|
        invariant ResolveAll(components, refs, fuel) == Prepend(made, ResolveAll(components, refs[j..], fuel))
      {
        assert refs[j..][1..] == refs[j + 1..];
        var one := ProcessComponent(refs[j], fuel);
        if one.Err? {
          return Err(one.error);
        }
        PrependAssoc(made, one.value, ResolveAll(components, refs[j + 1..], fuel));
        made := made + one.value;
        j := j + 1;
      }
      assert ResolveAll(components, refs[j..], fuel) == Ok([]);
      assert made + [] == made;
      return Ok(made);
    }

    /** `ProcessComponent(ReferenceComponentMapping)` */
    method ProcessComponent(r: Reference, fuel: nat) returns (res: Result<seq<Association>, ResolutionError>)
      ensures res == Resolve(components, r, fuel)
      decreases fuel, 0
    {
      var providers := Providers(components, r.ty);
      if |providers| == 0 {
        return Err(MissingExternalComponent(r.ty, r.entity, r.member));
      }
      if |providers| > 1 {
        return Err(AmbiguousComponentReference(r.ty, r.entity, r.member));
      }
      if fuel == 0 {
        return Err(TooDeep);
      }
      var chosen := providers[0];
      assert chosen in providers;
      var nested := VisitAll(components[chosen].refs, fuel - 1);
      res := Prepend([Association(r, chosen)], nested);
    }
  }
}
