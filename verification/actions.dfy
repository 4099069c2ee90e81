/**
 * Mapping actions: what a provider hands the compiler.  A manual action
 * carries a finished top mapping, a partial automap action names one entity
 * to automap with its own setup, and an automap action bundles partial
 * actions; the automapper receives one target per partial action.
 */
module MappingActions {
  import opened Wrappers
  import opened TypeGraphs
  import opened SeparateSubclass
  import opened Buckets
  import opened Configurations

  /** PartialAutomapAction: the class mapping to fill in and the entity's setup. */
  datatype PartialAutomapAction = PartialAutomapAction(mapping: ClassFragment, setup: EntitySetup)

  /** IMappingAction: a closed sum; `OtherAction` is any kind the compiler does not know, by type name. */
  datatype MappingAction =
    | ManualAction(mapping: TopMapping)
    | AutomapAction(actions: seq<PartialAutomapAction>)
    | Partial(partial: PartialAutomapAction)
    | OtherAction(typeName: string)

  /** `new ClassMapping { Type = type }`: a class mapping of that type with nothing else set. */
  function NewClassMapping(ty: TypeId): (r: ClassFragment)
    ensures r.ty == ty && !r.isUnionSubclass && !r.hasDiscriminator
  {
    ClassFragment(ty, false, false)
  }

  /** `PartialAutomapAction(Type, setup)`: wraps a fresh class mapping of that type. */
  function PartialFor(ty: TypeId, setup: EntitySetup): (r: PartialAutomapAction)
    ensures r.mapping == NewClassMapping(ty) && r.mapping.ty == ty
  {
    PartialAutomapAction(NewClassMapping(ty), setup)
  }

  /** AutomappingTarget: the type to automap, the mapping to fill and the entity's instructions. */
  datatype AutomappingTarget = AutomappingTarget(ty: TypeId, mapping: ClassFragment, instructions: EntityAutomappingInstructions)

  /** `CreateTarget(mainInstructions)`: the target's type is the mapping's type. */
  function CreateTarget(p: PartialAutomapAction, main: AutomappingInstructionsValue): (r: AutomappingTarget)
    ensures r.ty == r.mapping.ty && r.mapping == p.mapping
    ensures r.instructions.main == main
  {
    AutomappingTarget(p.mapping.ty, p.mapping, EntityAutomappingInstructions(main, p.setup))
  }

  /** `ManualAction.GetMapping()`: the mapping it was built with. */
  function GetMapping(a: MappingAction): (r: TopMapping)
    requires a.ManualAction?
    ensures ManualAction(r) == a
  {
    a.mapping
  }

  /** `AutomapAction.ComposeFrom(partials)`: every element must be a partial automap action. */
  function ComposeFrom(partials: seq<MappingAction>): (r: Result<MappingAction, string>)
    ensures r.Err? <==> exists i :: 0 <= i < |partials| && !partials[i].Partial?
    ensures r.Ok? ==> r.value.AutomapAction? && |r.value.actions| == |partials|
    ensures r.Ok? ==> forall i :: 0 <= i < |partials| ==> partials[i] == Partial(r.value.actions[i])
  {
    if exists i :: 0 <= i < |partials| && !partials[i].Partial? then
      Err("partials must all be of type PartialAutomapAction")
    else
      Ok(AutomapAction(seq(|partials|, i requires 0 <= i < |partials| => partials[i].partial)))
  }

  /** `GetMappingTargets(mainInstructions)`: one target per partial action, in order. */
  function GetMappingTargets(a: MappingAction, main: AutomappingInstructionsValue): (r: seq<AutomappingTarget>)
    requires a.AutomapAction?
    ensures |r| == |a.actions|
    ensures forall i :: 0 <= i < |r| ==> r[i] == CreateTarget(a.actions[i], main)
  {
    seq(|a.actions|, i requires 0 <= i < |a.actions| => CreateTarget(a.actions[i], main))
  }

  /**
   * Composing partial actions and asking for targets gives, position by
   * position, the type and mapping of the partial action at that position.
   */
  lemma ComposedTargetsFollowPartials(ps: seq<PartialAutomapAction>, main: AutomappingInstructionsValue)
    ensures var r := ComposeFrom(seq(|ps|, i requires 0 <= i < |ps| => Partial(ps[i])));
            r.Ok? && r.value.actions == ps &&
            forall i :: 0 <= i < |ps| ==> GetMappingTargets(r.value, main)[i].ty == ps[i].mapping.ty
  {
    var partials := seq(|ps|, i requires 0 <= i < |ps| => Partial(ps[i]));
    var r := ComposeFrom(partials);
    assert r.Ok?;
    assert forall i :: 0 <= i < |ps| ==> r.value.actions[i] == ps[i] by {
      forall i | 0 <= i < |ps| ensures r.value.actions[i] == ps[i] {
        assert partials[i] == Partial(r.value.actions[i]);
      }
    }
  }

  /** `ManualAction.ToString()`, given the name of the mapping's type. */
  function ManualActionText(mapping: TopMapping, typeName: string): string
  {
    "{ ManualAction: " + KindName(mapping) + "<" + typeName + "> }"
  }

  /**
   * The description names the mapping's kind and type unambiguously: equal
   * descriptions come from mappings of the same kind with the same type name.
   */
  lemma {:induction false} ManualActionTextIsUnambiguous(m1: TopMapping, n1: string, m2: TopMapping, n2: string)
    requires ManualActionText(m1, n1) == ManualActionText(m2, n2)
    ensures KindName(m1) == KindName(m2) && n1 == n2
  {
    var prefix := "{ ManualAction: ";
    var t1 := ManualActionText(m1, n1);
    var t2 := ManualActionText(m2, n2);
    assert t1[|prefix|] == KindName(m1)[0];
    assert t2[|prefix|] == KindName(m2)[0];
    assert KindName(m1) == KindName(m2);
    var k := |prefix| + |KindName(m1)| + 1;
    assert t1[k..|t1| - 3] == n1;
    assert t2[k..|t2| - 3] == n2;
  }
}
