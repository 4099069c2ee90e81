/**
 * Automapping configuration as the instruction gatherer sees it: the main
 * automapping instructions (a list of type sources and a configuration that
 * decides which types to map), their null stand-in, and the per-entity
 * configuration that falls back from the entity's own setup to the main
 * instructions to the default, and filters members through exclusions.
 */
module Configurations {
  import opened Wrappers
  import opened TypeGraphs
  import opened Sequences

  /** A member of an entity: a property, field or method, by declaring type and name. */
  datatype Member = Member(declaringType: TypeId, name: string)

  /**
   * An IAutomappingConfiguration: which types and which members to map, and
   * how to treat base types, abstract classes and components.  The `id`
   * tells configurations apart (the source compares them by reference).
   */
  datatype AutomappingConfiguration = AutomappingConfiguration(
    id: nat,
    shouldMapType: TypeId -> bool,
    shouldMapMember: Member -> bool,
    isConcreteBaseType: TypeId -> bool,
    abstractClassIsLayerSupertype: TypeId -> bool,
    isComponent: TypeId -> bool)

  /** AutomappingEntitySetup: an optional configuration of its own and a list of member exclusions. */
  datatype EntitySetup = EntitySetup(configuration: Option<AutomappingConfiguration>, exclusions: seq<Member -> bool>)

  /** `new AutomappingEntitySetup()`: no configuration, no exclusions. */
  const EmptySetup := EntitySetup(None, [])

  /** IEntityAutomappingConfiguration: a configuration used as it is, or wrapped with exclusions. */
  datatype EntityConfiguration =
    | Unwrapped(cfg: AutomappingConfiguration)
    | ExclusionWrapped(inner: AutomappingConfiguration, exclusions: seq<Member -> bool>)

  /** Some exclusion matches the member. */
  predicate Excluded(exclusions: seq<Member -> bool>, m: Member)
  {
    exists k :: 0 <= k < |exclusions| && exclusions[k](m)
  }

  /** `ShouldMap(member)` of an entity configuration; the wrapped form adds the exclusions. */
  predicate EntityShouldMap(ec: EntityConfiguration, m: Member)
  {
    match ec
    case Unwrapped(cfg) => cfg.shouldMapMember(m)
    case ExclusionWrapped(inner, exclusions) => inner.shouldMapMember(m) && !Excluded(exclusions, m)
  }

  /**
   * IAutomappingInstructions, as a value: the live AutomappingInstructions
   * (type sources and configuration) or NullAutomappingInstructions.
   */
  datatype AutomappingInstructionsValue =
    | Live(sources: seq<seq<TypeId>>, cfg: AutomappingConfiguration)
    | NullInstructions

  /** `Configuration`: null for the null instructions. */
  function ConfigurationOf(v: AutomappingInstructionsValue): (r: Option<AutomappingConfiguration>)
    ensures r.None? <==> v.NullInstructions?
  {
    match v
    case Live(_, cfg) => Some(cfg)
    case NullInstructions => None
  }

  /** `GetTypesToMap()`: every type of every source, in source order, that the configuration maps. */
  function TypesToMap(v: AutomappingInstructionsValue): (r: seq<TypeId>)
    ensures v.NullInstructions? ==> r == []
    ensures v.Live? ==> forall t :: t in r <==> (exists k :: 0 <= k < |v.sources| && t in v.sources[k]) && v.cfg.shouldMapType(t)
  {
    match v
    case Live(sources, cfg) => Where(Flatten(sources), cfg.shouldMapType)
    case NullInstructions => []
  }

  /** `UseConfiguration(cfg)`: replaces the configuration; the null instructions refuse. */
  function UseConfigurationOn(v: AutomappingInstructionsValue, cfg: AutomappingConfiguration): (r: Result<AutomappingInstructionsValue, string>)
    ensures r.Err? <==> v.NullInstructions?
    ensures r.Ok? ==> r.value.Live? && ConfigurationOf(r.value) == Some(cfg) && r.value.sources == v.sources
  {
    match v
    case Live(sources, _) => Ok(Live(sources, cfg))
    case NullInstructions => Err("Cannot set configuration in null instructions")
  }

  /** `AddSource(source)`: appends a source; the null instructions refuse. */
  function AddSourceOn(v: AutomappingInstructionsValue, source: seq<TypeId>): (r: Result<AutomappingInstructionsValue, string>)
    ensures r.Err? <==> v.NullInstructions?
    ensures r.Ok? ==> r.value.Live? && r.value.sources == v.sources + [source] && r.value.cfg == v.cfg
  {
    match v
    case Live(sources, cfg) => Ok(Live(sources + [source], cfg))
    case NullInstructions => Err("Cannot add source in null instructions")
  }

  /** Adding a source adds exactly that source's mapped types, after the ones already there. */
  lemma {:induction false} AddSourceExtendsTypesToMap(v: AutomappingInstructionsValue, source: seq<TypeId>)
    requires v.Live?
    ensures TypesToMap(AddSourceOn(v, source).value) == TypesToMap(v) + Where(source, v.cfg.shouldMapType)
  {
    var sources' := v.sources + [source];
    assert sources'[..|sources'| - 1] == v.sources;
    WhereConcat(Flatten(v.sources), source, v.cfg.shouldMapType);
  }

  /** Setting a configuration twice keeps only the second. */
  lemma UseConfigurationLastWins(v: AutomappingInstructionsValue, c1: AutomappingConfiguration, c2: AutomappingConfiguration)
    requires v.Live?
    ensures UseConfigurationOn(UseConfigurationOn(v, c1).value, c2) == UseConfigurationOn(v, c2)
  {
  }

  /** The null instructions map nothing and have no configuration, whatever is asked of them. */
  lemma NullInstructionsAreInert(source: seq<TypeId>, cfg: AutomappingConfiguration)
    ensures TypesToMap(NullInstructions) == [] && ConfigurationOf(NullInstructions) == None
    ensures AddSourceOn(NullInstructions, source).Err? && UseConfigurationOn(NullInstructions, cfg).Err?
  {
  }

  /**
   * EntityAutomappingInstructions: the main instructions (as they stand when
   * the target is created) together with one entity's setup.
   */
  datatype EntityAutomappingInstructions = EntityAutomappingInstructions(main: AutomappingInstructionsValue, setup: EntitySetup)

  /**
   * `GetConfiguration()`: the setup's configuration, else the main one, else
   * the default (`defaultCfg`, a `new DefaultAutomappingConfiguration()`),
   * wrapped with the exclusions only when there are any.
   */
  function GetConfiguration(e: EntityAutomappingInstructions, defaultCfg: AutomappingConfiguration): (r: EntityConfiguration)
    ensures r.ExclusionWrapped? <==> |e.setup.exclusions| > 0
  {
    var innerCfg :=
      if e.setup.configuration.Some? then e.setup.configuration.value
      else if ConfigurationOf(e.main).Some? then ConfigurationOf(e.main).value
      else defaultCfg;
    if |e.setup.exclusions| == 0 then Unwrapped(innerCfg) else ExclusionWrapped(innerCfg, e.setup.exclusions)
  }

  /**
   * What an entity maps: a member is mapped iff the configuration in force
   * (setup before main before default) maps it and no exclusion matches it.
   */
  lemma EntityMembersMapped(e: EntityAutomappingInstructions, defaultCfg: AutomappingConfiguration, m: Member)
    ensures EntityShouldMap(GetConfiguration(e, defaultCfg), m) <==>
      (match e.setup.configuration
       case Some(own) => own.shouldMapMember(m)
       case None => if e.main.Live? then e.main.cfg.shouldMapMember(m) else defaultCfg.shouldMapMember(m))
      && forall x :: x in e.setup.exclusions ==> !x(m)
  {
    if Excluded(e.setup.exclusions, m) {
      var k :| 0 <= k < |e.setup.exclusions| && e.setup.exclusions[k](m);
      assert e.setup.exclusions[k] in e.setup.exclusions;
    }
  }

  /** An entity with an empty setup maps exactly what the main configuration maps. */
  lemma EmptySetupDefersToMain(sources: seq<seq<TypeId>>, cfg: AutomappingConfiguration, defaultCfg: AutomappingConfiguration, m: Member)
    ensures EntityShouldMap(GetConfiguration(EntityAutomappingInstructions(Live(sources, cfg), EmptySetup), defaultCfg), m) == cfg.shouldMapMember(m)
  {
    EntityMembersMapped(EntityAutomappingInstructions(Live(sources, cfg), EmptySetup), defaultCfg, m);
  }

  /**
   * AutomappingInstructions: the gatherer's own, mutable automapping
   * instructions.  A new one uses the default configuration and has no sources.
   */
  class AutomappingInstructions {
    var sources: seq<seq<TypeId>>
    var configuration: AutomappingConfiguration

    function Value(): AutomappingInstructionsValue
      reads this
    {
      Live(sources, configuration)
    }

    constructor (defaultCfg: AutomappingConfiguration)
      ensures sources == [] && configuration == defaultCfg
      ensures TypesToMap(Value()) == []
    {
      sources := [];
      configuration := defaultCfg;
    }

    method UseConfiguration(cfg: AutomappingConfiguration)
      modifies this
      ensures Value() == UseConfigurationOn(old(Value()), cfg).value
    {
      configuration := cfg;
    }

    method AddSource(source: seq<TypeId>)
      modifies this
      ensures Value() == AddSourceOn(old(Value()), source).value
      ensures TypesToMap(Value()) == old(TypesToMap(Value())) + Where(source, configuration.shouldMapType)
    {
      AddSourceExtendsTypesToMap(Value(), source);
      sources := sources + [source];
    }

    function GetTypesToMap(): seq<TypeId>
      reads this
    {
      TypesToMap(Value())
    }
  }
}
