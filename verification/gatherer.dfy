/**
 * The persistence instruction gatherer: it collects provider instances, type
 * sources, the automapping instructions and the configuration hooks, and
 * turns them into persistence instructions whose actions come in a fixed
 * order: registered instances, then providers found in the sources, then one
 * partial automap action per type the automapping instructions select.
 */
module InstructionGathering {
  import opened Wrappers
  import opened TypeGraphs
  import opened Sequences
  import opened Buckets
  import opened Configurations
  import opened MappingActions
  import opened Documents

  /** A foreign object the model only passes along (a delegate, an exporter, a database configuration). */
  type Handle = nat

  /**
   * An IProvider: an ImportPart for a type, a PassThroughMappingProvider
   * around a top mapping, or any other provider by its type and the action
   * it yields.
   */
  datatype Provider =
    | ImportPart(imported: TypeId)
    | PassThrough(wrapped: TopMapping)
    | ProviderInstance(ty: TypeId, action: MappingAction)

  /**
   * `IProvider.GetAction()`: an ImportPart yields a manual action around an
   * import of its type, a pass-through provider a manual action around the
   * very mapping it wraps.
   */
  function GetAction(p: Provider): (r: MappingAction)
    ensures p.ImportPart? ==> r == ManualAction(ImportTop(ImportMapping(p.imported, None)))
    ensures p.PassThrough? ==> r == ManualAction(p.wrapped)
    ensures p.ProviderInstance? ==> r == p.action
  {
    match p
    case ImportPart(t) => ManualAction(ImportTop(ImportMapping(t, None)))
    case PassThrough(m) => ManualAction(m)
    case ProviderInstance(_, a) => a
  }

  /** The actions of a list of providers, in order. */
  function ActionsOf(ps: seq<Provider>): (r: seq<MappingAction>)
    ensures |r| == |ps| && forall i :: 0 <= i < |ps| ==> r[i] == GetAction(ps[i])
  {
    seq(|ps|, i requires 0 <= i < |ps| => GetAction(ps[i]))
  }

  /** The actions of providers instantiated from types (instantiation is not part of the model). */
  function ActionsOfTypes(ts: seq<TypeId>, actionOfType: TypeId -> MappingAction): (r: seq<MappingAction>)
    ensures |r| == |ts| && forall i :: 0 <= i < |ts| ==> r[i] == actionOfType(ts[i])
  {
    seq(|ts|, i requires 0 <= i < |ts| => actionOfType(ts[i]))
  }

  /** One partial automap action, with an empty setup, per type. */
  function PartialsFor(ts: seq<TypeId>): (r: seq<MappingAction>)
    ensures |r| == |ts| && forall i :: 0 <= i < |ts| ==> r[i] == Partial(PartialFor(ts[i], EmptySetup))
  {
    seq(|ts|, i requires 0 <= i < |ts| => Partial(PartialFor(ts[i], EmptySetup)))
  }

  /** `GetProvidersFromSources()`: the types of all sources, in order, that implement IProvider. */
  function ProviderTypes(g: TypeGraph, providerInterface: TypeId, sources: seq<seq<TypeId>>): seq<TypeId>
  {
    Where(Flatten(sources), (t: nat) => HasInterface(g, t, providerInterface))
  }

  /** The loop over the registered instances: each one's action, in order. */
  method AppendInstanceActions(actions: seq<MappingAction>, ps: seq<Provider>) returns (r: seq<MappingAction>)
    ensures r == actions + ActionsOf(ps)
  {
    r := actions;
    for i := 0 to |ps|
      invariant r == actions + ActionsOf(ps[..i])
    {
      r := r + [GetAction(ps[i])];
    }
    assert ps[..|ps|] == ps;
  }

  /** The loop over the provider types found in the sources. */
  method AppendTypeActions(actions: seq<MappingAction>, ts: seq<TypeId>, actionOfType: TypeId -> MappingAction)
    returns (r: seq<MappingAction>)
    ensures r == actions + ActionsOfTypes(ts, actionOfType)
  {
    r := actions;
    for j := 0 to |ts|
      invariant r == actions + ActionsOfTypes(ts[..j], actionOfType)
    {
      r := r + [actionOfType(ts[j])];
    }
    assert ts[..|ts|] == ts;
  }

  /** The loop over the types to automap: a partial action with an empty setup for each. */
  method AppendPartials(actions: seq<MappingAction>, ts: seq<TypeId>) returns (r: seq<MappingAction>)
    ensures r == actions + PartialsFor(ts)
  {
    r := actions;
    for k := 0 to |ts|
      invariant r == actions + PartialsFor(ts[..k])
    {
      r := r + [Partial(PartialFor(ts[k], EmptySetup))];
    }
    assert ts[..|ts|] == ts;
  }

  /** The action list `GetActions()` yields. */
  function ActionList(instances: seq<Provider>, scanned: seq<MappingAction>, automapTypes: seq<TypeId>): seq<MappingAction>
  {
    ActionsOf(instances) + scanned + PartialsFor(automapTypes)
  }

  /**
   * The order GetActions promises: position by position, first every
   * registered instance's action, then the scanned providers' actions, then
   * a partial automap action for each type to automap.
   */
  lemma ActionListOrder(instances: seq<Provider>, scanned: seq<MappingAction>, automapTypes: seq<TypeId>)
    ensures var r := ActionList(instances, scanned, automapTypes);
      |r| == |instances| + |scanned| + |automapTypes| &&
      (forall i :: 0 <= i < |instances| ==> r[i] == GetAction(instances[i])) &&
      (forall j :: 0 <= j < |scanned| ==> r[|instances| + j] == scanned[j]) &&
      (forall k :: 0 <= k < |automapTypes| ==>
         r[|instances| + |scanned| + k].Partial? &&
         r[|instances| + |scanned| + k].partial.mapping.ty == automapTypes[k])
  {
  }

  /** Only types implementing IProvider contribute scanned actions. */
  lemma ScannedAreProviders(g: TypeGraph, providerInterface: TypeId, sources: seq<seq<TypeId>>, t: TypeId)
    ensures t in ProviderTypes(g, providerInterface, sources) <==>
      (exists k :: 0 <= k < |sources| && t in sources[k]) && providerInterface in g.interfacesOf(t)
  {
  }

  /** IPersistenceInstructions as CreateInstructions fills them. */
  datatype PersistenceInstructions = PersistenceInstructions(
    actions: seq<MappingAction>,
    visitors: seq<Visitor>,
    databaseConfiguration: Option<Handle>,
    preConfigure: Option<Handle>,
    postConfigure: Option<Handle>,
    automapping: AutomappingInstructionsValue,
    exporter: Option<Handle>)

  /** The instructions GetInstructions returns: plain, or wrapped over a base or an extended model's. */
  datatype Instructions =
    | Plain(instructions: PersistenceInstructions)
    | Derived(baseInstructions: Instructions, inner: Instructions)
    | Extended(extendedInstructions: Instructions, inner: Instructions)

  /** Wrapping: derived over the base model when there is one, then extended when there is one. */
  function Wrap(created: PersistenceInstructions, baseModel: Option<Instructions>, extendedModel: Option<Instructions>): (r: Instructions)
  {
    var withBase := if baseModel.Some? then Derived(baseModel.value, Plain(created)) else Plain(created);
    if extendedModel.Some? then Extended(extendedModel.value, withBase) else withBase
  }

  /** The gatherer's own instructions sit innermost. */
  function Innermost(i: Instructions): PersistenceInstructions
  {
    match i
    case Plain(p) => p
    case Derived(_, inner) => Innermost(inner)
    case Extended(_, inner) => Innermost(inner)
  }

  /**
   * The shape of the wrapping: the extended model is outermost exactly when
   * one is set, the base model is next exactly when one is set, and the
   * created instructions are always innermost.
   */
  lemma WrapShape(created: PersistenceInstructions, baseModel: Option<Instructions>, extendedModel: Option<Instructions>)
    ensures var r := Wrap(created, baseModel, extendedModel);
      Innermost(r) == created &&
      (r.Extended? <==> extendedModel.Some?) &&
      (r.Extended? ==> r.extendedInstructions == extendedModel.value) &&
      (var below := if r.Extended? then r.inner else r;
       (below.Derived? <==> baseModel.Some?) &&
       (below.Derived? ==> below.baseInstructions == baseModel.value && below.inner == Plain(created)) &&
       (!below.Derived? ==> below == Plain(created)))
  {
    var withBase := if baseModel.Some? then Derived(baseModel.value, Plain(created)) else Plain(created);
    assert Innermost(withBase) == created;
  }

  /** Every field of a gatherer that its methods assign. */
  datatype GathererState = GathererState(
    sources: seq<seq<TypeId>>,
    instances: seq<Provider>,
    baseModel: Option<Instructions>,
    extendedModel: Option<Instructions>,
    preConfigure: Option<Handle>,
    postConfigure: Option<Handle>,
    databaseConfiguration: Option<Handle>,
    exporter: Option<Handle>)

  /**
   * PersistenceInstructionGatherer.  The base and extended models are held
   * as the instructions those gatherers produce.
   */
  class PersistenceInstructionGatherer {
    var sources: seq<seq<TypeId>>
    var instances: seq<Provider>
    const conventions: Handle
    const automapping: AutomappingInstructions
    var baseModel: Option<Instructions>
    var extendedModel: Option<Instructions>
    var preConfigure: Option<Handle>
    var postConfigure: Option<Handle>
    var databaseConfiguration: Option<Handle>
    var exporter: Option<Handle>

    constructor (conventions: Handle, defaultCfg: AutomappingConfiguration)
      ensures sources == [] && instances == [] && this.conventions == conventions
      ensures fresh(automapping) && automapping.Value() == Live([], defaultCfg)
      ensures baseModel.None? && extendedModel.None? && preConfigure.None? && postConfigure.None?
      ensures databaseConfiguration.None? && exporter.None?
    {
      sources := [];
      instances := [];
      this.conventions := conventions;
      automapping := new AutomappingInstructions(defaultCfg);
      baseModel := None;
      extendedModel := None;
      preConfigure := None;
      postConfigure := None;
      databaseConfiguration := None;
      exporter := None;
    }

    /** The assignable fields together, so that a setter can say what it leaves alone. */
    ghost function State(): GathererState
      reads this
    {
      GathererState(sources, instances, baseModel, extendedModel, preConfigure, postConfigure,
                    databaseConfiguration, exporter)
    }

    method AddProviderInstance(p: Provider)
      modifies this
      ensures instances == old(instances) + [p]
      ensures State() == old(State()).(instances := instances)
    {
      instances := instances + [p];
    }

    method AddSource(source: seq<TypeId>)
      modifies this
      ensures sources == old(sources) + [source]
      ensures State() == old(State()).(sources := sources)
    {
      sources := sources + [source];
    }

    method UseBaseModel(m: Instructions)
      modifies this
      ensures baseModel == Some(m)
      ensures State() == old(State()).(baseModel := baseModel)
    {
      baseModel := Some(m);
    }

    method UseExtendModel(m: Instructions)
      modifies this
      ensures extendedModel == Some(m)
      ensures State() == old(State()).(extendedModel := extendedModel)
    {
      extendedModel := Some(m);
    }

    method UseExporter(h: Handle)
      modifies this
      ensures exporter == Some(h)
      ensures State() == old(State()).(exporter := exporter)
    {
      exporter := Some(h);
    }

    method UsePreConfigure(h: Handle)
      modifies this
      ensures preConfigure == Some(h)
      ensures State() == old(State()).(preConfigure := preConfigure)
    {
      preConfigure := Some(h);
    }

    method UsePostConfigure(h: Handle)
      modifies this
      ensures postConfigure == Some(h)
      ensures State() == old(State()).(postConfigure := postConfigure)
    {
      postConfigure := Some(h);
    }

    method UseDatabaseConfiguration(h: Handle)
      modifies this
      ensures databaseConfiguration == Some(h)
      ensures State() == old(State()).(databaseConfiguration := databaseConfiguration)
    {
      databaseConfiguration := Some(h);
    }

    /**
     * `GetActions()`: the registered instances' actions, then the actions of
     * the provider types found in the sources, then a partial automap action
     * with an empty setup for each type the automapping instructions select.
     */
    method GetActions(g: TypeGraph, providerInterface: TypeId, actionOfType: TypeId -> MappingAction)
      returns (actions: seq<MappingAction>)
      ensures actions == ActionList(instances,
                                    ActionsOfTypes(ProviderTypes(g, providerInterface, sources), actionOfType),
                                    automapping.GetTypesToMap())
    {
      actions := AppendInstanceActions([], instances);
      var found := ProviderTypes(g, providerInterface, sources);
      actions := AppendTypeActions(actions, found, actionOfType);
      actions := AppendPartials(actions, automapping.GetTypesToMap());
    }

    /**
     * `CreateInstructions()`: the actions, the visitors the conventions yield
     * (`visitorsOf`, not part of the model), and each hook that is set.
     */
    method CreateInstructions(g: TypeGraph, providerInterface: TypeId, actionOfType: TypeId -> MappingAction,
                              visitorsOf: Handle -> seq<Visitor>)
      returns (r: PersistenceInstructions)
      ensures r.actions == ActionList(instances,
                                      ActionsOfTypes(ProviderTypes(g, providerInterface, sources), actionOfType),
                                      automapping.GetTypesToMap())
      ensures r.visitors == visitorsOf(conventions) && r.automapping == automapping.Value()
      ensures r.databaseConfiguration == databaseConfiguration && r.exporter == exporter
      ensures r.preConfigure == preConfigure && r.postConfigure == postConfigure
    {
      var actions := GetActions(g, providerInterface, actionOfType);
      r := PersistenceInstructions(actions, visitorsOf(conventions), None, None, None, NullInstructions, None);
      if databaseConfiguration.Some? {
        r := r.(databaseConfiguration := databaseConfiguration);
      }
      if preConfigure.Some? {
        r := r.(preConfigure := preConfigure);
      }
      if postConfigure.Some? {
        r := r.(postConfigure := postConfigure);
      }
      r := r.(automapping := automapping.Value());
      if exporter.Some? {
        r := r.(exporter := exporter);
      }
    }

    /** `GetInstructions()`: the created instructions, wrapped by the base and extended models. */
    method GetInstructions(g: TypeGraph, providerInterface: TypeId, actionOfType: TypeId -> MappingAction,
                           visitorsOf: Handle -> seq<Visitor>)
      returns (r: Instructions)
      ensures Innermost(r).actions == ActionList(instances,
                                      ActionsOfTypes(ProviderTypes(g, providerInterface, sources), actionOfType),
                                      automapping.GetTypesToMap())
      ensures Innermost(r).visitors == visitorsOf(conventions) && Innermost(r).automapping == automapping.Value()
      ensures Innermost(r).databaseConfiguration == databaseConfiguration && Innermost(r).exporter == exporter
      ensures Innermost(r).preConfigure == preConfigure && Innermost(r).postConfigure == postConfigure
      ensures r == Wrap(Innermost(r), baseModel, extendedModel)
    {
      var created := CreateInstructions(g, providerInterface, actionOfType, visitorsOf);
      r := Plain(created);
      if baseModel.Some? {
        r := Derived(baseModel.value, r);
      }
      if extendedModel.Some? {
        r := Extended(extendedModel.value, r);
      }
      WrapShape(created, baseModel, extendedModel);
    }
  }
}
