/**
 * Compiling actions into a document.  An action compiler turns each action
 * into top mappings (a manual action into its own mapping, an automap action
 * into whatever the automapper makes of its targets); the mapping compiler
 * files every mapping into a fresh bucket, runs every visitor over the
 * bucket and then over a new document, and copies the bucket's classes,
 * filters and imports into the document.
 */
module Compilation {
  import opened Wrappers
  import opened TypeGraphs
  import opened SeparateSubclass
  import opened Buckets
  import opened Configurations
  import opened MappingActions
  import opened Documents
  import opened InstructionGathering

  /** IAutomapper.Map: the automapper itself is not part of the model. */
  type Automapper = seq<AutomappingTarget> -> seq<TopMapping>

  datatype CompileError =
    | UnrecognisedAction(typeName: string)
    | NullReference
    | VisitorFailed(message: string)

  /** `action.GetType().FullName` for the kinds the compiler rejects. */
  function ActionTypeName(a: MappingAction): string
  {
    match a
    case ManualAction(_) => "FluentNHibernate.Infrastructure.ManualAction"
    case AutomapAction(_) => "FluentNHibernate.Infrastructure.AutomapAction"
    case Partial(_) => "FluentNHibernate.Infrastructure.PartialAutomapAction"
    case OtherAction(name) => name
  }

  /**
   * ActionCompiler: an automapper and the instructions whose automapping
   * instructions feed it; `None` stands for a null reference.
   */
  datatype ActionCompiler = ActionCompiler(automapper: Automapper, instructions: Option<PersistenceInstructions>)

  /**
   * `Compile(action)`: manual first, then automap; any other kind (a bare
   * partial action included) is unrecognised.  Reading the automapping
   * instructions through a null reference fails.
   */
  function CompileAction(ac: ActionCompiler, a: MappingAction): (r: Result<seq<TopMapping>, CompileError>)
    ensures a.ManualAction? ==> r == Ok([a.mapping])
    ensures a.AutomapAction? && ac.instructions.Some? ==>
              r == Ok(ac.automapper(GetMappingTargets(a, ac.instructions.value.automapping)))
    ensures a.AutomapAction? && ac.instructions.None? ==> r == Err(NullReference)
    ensures (a.Partial? || a.OtherAction?) ==> r == Err(UnrecognisedAction(ActionTypeName(a)))
  {
    match a
    case ManualAction(m) => Ok([GetMapping(a)])
    case AutomapAction(_) =>
      if ac.instructions.None? then Err(NullReference)
      else
        var targets := GetMappingTargets(a, ac.instructions.value.automapping);
        Ok(ac.automapper(targets))
    case _ => Err(UnrecognisedAction(ActionTypeName(a)))
  }

  /** `actions.SelectMany(Compile)`: every action's mappings, in action order; the first failure aborts. */
  function CompileAll(ac: ActionCompiler, actions: seq<MappingAction>): (r: Result<seq<TopMapping>, CompileError>)
    decreases |actions|
  {
    if actions == [] then Ok([])
    else
      var init :- CompileAll(ac, actions[..|actions| - 1]);
      var last :- CompileAction(ac, actions[|actions| - 1]);
      Ok(init + last)
  }

  /** Compiling succeeds exactly when every action compiles. */
  lemma {:induction false} CompileAllSucceedsIffEach(ac: ActionCompiler, actions: seq<MappingAction>)
    ensures CompileAll(ac, actions).Ok? <==> forall i :: 0 <= i < |actions| ==> CompileAction(ac, actions[i]).Ok?
    decreases |actions|
  {
    if actions != [] {
      var init := actions[..|actions| - 1];
      CompileAllSucceedsIffEach(ac, init);
      assert forall i :: 0 <= i < |init| ==> init[i] == actions[i];
    }
  }

  /** A list of manual actions compiles to their mappings, in order. */
  lemma {:induction false} ManualActionsCompileToTheirMappings(ac: ActionCompiler, ms: seq<TopMapping>)
    ensures CompileAll(ac, seq(|ms|, i requires 0 <= i < |ms| => ManualAction(ms[i]))) == Ok(ms)
    decreases |ms|
  {
    var actions := seq(|ms|, i requires 0 <= i < |ms| => ManualAction(ms[i]));
    if ms != [] {
      var init := ms[..|ms| - 1];
      assert actions[..|actions| - 1] == seq(|init|, i requires 0 <= i < |init| => ManualAction(init[i]));
      ManualActionsCompileToTheirMappings(ac, init);
      assert init + [ms[|ms| - 1]] == ms;
    }
  }

  /** The document after the pipeline: the visited new document with the bucket's classes, filters and imports appended. */
  function Assemble(doc: HibernateMapping, bucket: BucketContents): (r: HibernateMapping)
    ensures r.classes == doc.classes + bucket.classes
    ensures r.filters == doc.filters + bucket.filters
    ensures r.imports == doc.imports + bucket.imports
    ensures r.settings == doc.settings
  {
    doc.(classes := doc.classes + bucket.classes, filters := doc.filters + bucket.filters,
         imports := doc.imports + bucket.imports)
  }

  /** `Compile()` / `BuildMappings()`: compile and file, visit the bucket, visit a new document, copy. */
  function Build(ac: ActionCompiler, actions: seq<MappingAction>, visitors: seq<Visitor>): (r: Result<HibernateMapping, CompileError>)
  {
    var mappings :- CompileAll(ac, actions);
    var bucket := FileAll(EmptyContents, mappings);
    match VisitBucket(visitors, bucket)
    case Err(e) => Err(VisitorFailed(e))
    case Ok(visited) =>
      match VisitDocument(visitors, EmptyDocument)
      case Err(e) => Err(VisitorFailed(e))
      case Ok(doc) => Ok(Assemble(doc, visited))
  }

  /**
   * With no visitors, a list of manual actions yields a document holding
   * exactly the class, filter and import mappings among them, each in action
   * order, and nothing of the subclass or component mappings.
   */
  lemma ManualBuildCopiesClassesFiltersImports(ac: ActionCompiler, ms: seq<TopMapping>)
    ensures var r := Build(ac, seq(|ms|, i requires 0 <= i < |ms| => ManualAction(ms[i])), []);
      r.Ok? && r.value.classes == Picked(ms, PickClass) && r.value.filters == Picked(ms, PickFilter)
      && r.value.imports == Picked(ms, PickImport) && r.value.settings == map[]
  {
    var actions := seq(|ms|, i requires 0 <= i < |ms| => ManualAction(ms[i]));
    ManualActionsCompileToTheirMappings(ac, ms);
    var bucket := FileAll(EmptyContents, ms);
    FileAllSorts(EmptyContents, ms);
    assert Build(ac, actions, []) == Ok(Assemble(EmptyDocument, bucket));
  }

  /** A failing action aborts the build with that action's failure: no document at all. */
  lemma {:induction false} FailingActionAbortsBuild(ac: ActionCompiler, actions: seq<MappingAction>, visitors: seq<Visitor>, k: nat)
    requires k < |actions| && CompileAction(ac, actions[k]).Err?
    requires forall i :: 0 <= i < k ==> CompileAction(ac, actions[i]).Ok?
    ensures Build(ac, actions, visitors) == Err(CompileAction(ac, actions[k]).error)
  {
    FirstFailureWins(ac, actions, k);
  }

  lemma {:induction false} FirstFailureWins(ac: ActionCompiler, actions: seq<MappingAction>, k: nat)
    requires k < |actions| && CompileAction(ac, actions[k]).Err?
    requires forall i :: 0 <= i < k ==> CompileAction(ac, actions[i]).Ok?
    ensures CompileAll(ac, actions) == Err(CompileAction(ac, actions[k]).error)
    decreases |actions|
  {
    var init := actions[..|actions| - 1];
    if k < |actions| - 1 {
      assert init[k] == actions[k];
      FirstFailureWins(ac, init, k);
    } else {
      CompileAllSucceedsIffEach(ac, init);
      assert forall i :: 0 <= i < |init| ==> init[i] == actions[i];
    }
  }

  /** The Infrastructure compiler as its constructor leaves it: no automap action can compile. */
  lemma NullInstructionsFailAutomap(automapper: Automapper, ps: seq<PartialAutomapAction>)
    ensures CompileAction(ActionCompiler(automapper, None), AutomapAction(ps)) == Err(NullReference)
  {
  }

  /** With its instructions in place, an automap action compiles to what the automapper makes of one target per partial action. */
  lemma AutomapCompilesToAutomapper(automapper: Automapper, instructions: PersistenceInstructions, ps: seq<PartialAutomapAction>)
    ensures var r := CompileAction(ActionCompiler(automapper, Some(instructions)), AutomapAction(ps));
      r.Ok? && exists targets: seq<AutomappingTarget> ::
        |targets| == |ps| && r.value == automapper(targets) &&
        forall i :: 0 <= i < |ps| ==> targets[i] == CreateTarget(ps[i], instructions.automapping)
  {
    var targets := GetMappingTargets(AutomapAction(ps), instructions.automapping);
    assert |targets| == |ps|;
  }

  /** The pipeline over a fresh bucket: each compiled mapping files itself, in order. */
  method CompileActions(ac: ActionCompiler, actions: seq<MappingAction>) returns (r: Result<MappingBucket, CompileError>)
    ensures CompileAll(ac, actions).Err? <==> r.Err?
    ensures r.Err? ==> r.error == CompileAll(ac, actions).error
    ensures r.Ok? ==> fresh(r.value) && r.value.Contents() == FileAll(EmptyContents, CompileAll(ac, actions).value)
  {
    var bucket := new MappingBucket();
    ghost var done: seq<TopMapping> := [];
    var i := 0;
    while i < |actions|
      invariant 0 <= i <= |actions|
      invariant CompileAll(ac, actions[..i]) == Ok(done)
      invariant bucket.Contents() == FileAll(EmptyContents, done)
      invariant fresh(bucket)
    {
      assert actions[..i + 1][..i] == actions[..i];
      var compiled := CompileAction(ac, actions[i]);
      if compiled.Err? {
        FirstFailureAt(ac, actions, i, done);
        return Err(compiled.error);
      }
      var ms := compiled.value;
      var j := 0;
      assert done + ms[..0] == done;
      while j < |ms|
        invariant 0 <= j <= |ms|
        invariant bucket.Contents() == FileAll(EmptyContents, done + ms[..j])
      {
        assert (done + ms[..j + 1])[..|done + ms[..j + 1]| - 1] == done + ms[..j];
        AddTo(ms[j], bucket);
        j := j + 1;
      }
      assert ms[..j] == ms;
      done := done + ms;
      i := i + 1;
    }
    assert actions[..i] == actions;
    return Ok(bucket);
  }

  /** A failure at position i after a successful prefix is the failure of the whole list. */
  lemma {:induction false} FirstFailureAt(ac: ActionCompiler, actions: seq<MappingAction>, i: nat, done: seq<TopMapping>)
    requires i < |actions| && CompileAll(ac, actions[..i]) == Ok(done)
    requires CompileAction(ac, actions[i]).Err?
    ensures CompileAll(ac, actions) == Err(CompileAction(ac, actions[i]).error)
  {
    CompileAllSucceedsIffEach(ac, actions[..i]);
    forall k | 0 <= k < i ensures CompileAction(ac, actions[k]).Ok? {
      assert actions[..i][k] == actions[k];
    }
    FirstFailureWins(ac, actions, i);
  }

  /** Runs the visitors over the bucket in list order, each on what the previous one left. */
  method VisitBucketInOrder(visitors: seq<Visitor>, bucket: MappingBucket) returns (r: Result<BucketContents, string>)
    modifies bucket
    ensures r == VisitBucket(visitors, old(bucket.Contents()))
    ensures r.Ok? ==> bucket.Contents() == r.value
  {
    ghost var initial := bucket.Contents();
    var i := 0;
    while i < |visitors|
      invariant 0 <= i <= |visitors|
      invariant VisitBucket(visitors[..i], initial) == Ok(bucket.Contents())
    {
      VisitBucketStep(visitors, initial, i);
      var next := visitors[i].visitBucket(bucket.Contents());
      if next.Err? {
        VisitBucketStopsAtFailure(visitors, initial, i + 1);
        return Err(next.error);
      }
      bucket.SetContents(next.value);
      i := i + 1;
    }
    assert visitors[..i] == visitors;
    return Ok(bucket.Contents());
  }

  /** Runs the visitors over the document in list order. */
  method VisitDocumentInOrder(visitors: seq<Visitor>, doc: HibernateMapping) returns (r: Result<HibernateMapping, string>)
    ensures r == VisitDocument(visitors, doc)
  {
    var current := doc;
    var i := 0;
    while i < |visitors|
      invariant 0 <= i <= |visitors|
      invariant VisitDocument(visitors[..i], doc) == Ok(current)
    {
      VisitDocumentStep(visitors, doc, i);
      var next := visitors[i].visitDocument(current);
      if next.Err? {
        VisitDocumentStopsAtFailure(visitors, doc, i + 1);
        return Err(next.error);
      }
      current := next.value;
      i := i + 1;
    }
    assert visitors[..i] == visitors;
    return Ok(current);
  }

  lemma {:induction false} VisitDocumentStopsAtFailure(visitors: seq<Visitor>, d: HibernateMapping, k: nat)
    requires k <= |visitors|
    requires VisitDocument(visitors[..k], d).Err?
    ensures VisitDocument(visitors, d) == VisitDocument(visitors[..k], d)
    decreases k
  {
    assert k > 0;
    var d' := visitors[0].visitDocument(d);
    if d'.Ok? {
      assert visitors[..k][1..] == visitors[1..][..k - 1];
      VisitDocumentStopsAtFailure(visitors[1..], d'.value, k - 1);
    }
  }

  /** `bucket.Classes.Each(hbm.AddClass)` and the same for filters and imports. */
  method CopyInto(bucket: MappingBucket, hbm: HibernateMapping) returns (r: HibernateMapping)
    ensures r == Assemble(hbm, bucket.Contents())
  {
    r := hbm;
    var i := 0;
    while i < |bucket.classes|
      invariant 0 <= i <= |bucket.classes|
      invariant r == hbm.(classes := hbm.classes + bucket.classes[..i])
    {
      assert bucket.classes[..i + 1] == bucket.classes[..i] + [bucket.classes[i]];
      r := r.(classes := r.classes + [bucket.classes[i]]);
      i := i + 1;
    }
    assert bucket.classes[..i] == bucket.classes;
    i := 0;
    while i < |bucket.filters|
      invariant 0 <= i <= |bucket.filters|
      invariant r == hbm.(classes := hbm.classes + bucket.classes, filters := hbm.filters + bucket.filters[..i])
    {
      assert bucket.filters[..i + 1] == bucket.filters[..i] + [bucket.filters[i]];
      r := r.(filters := r.filters + [bucket.filters[i]]);
      i := i + 1;
    }
    assert bucket.filters[..i] == bucket.filters;
    i := 0;
    while i < |bucket.imports|
      invariant 0 <= i <= |bucket.imports|
      invariant r == hbm.(classes := hbm.classes + bucket.classes, filters := hbm.filters + bucket.filters,
                          imports := hbm.imports + bucket.imports[..i])
    {
      assert bucket.imports[..i + 1] == bucket.imports[..i] + [bucket.imports[i]];
      r := r.(imports := r.imports + [bucket.imports[i]]);
      i := i + 1;
    }
    assert bucket.imports[..i] == bucket.imports;
  }

  /** The whole pipeline, given the action compiler to use. */
  method RunPipeline(ac: ActionCompiler, actions: seq<MappingAction>, visitors: seq<Visitor>)
    returns (r: Result<HibernateMapping, CompileError>)
    ensures r == Build(ac, actions, visitors)
  {
    var compiled := CompileActions(ac, actions);
    if compiled.Err? {
      return Err(compiled.error);
    }
    var bucket := compiled.value;
    var visited := VisitBucketInOrder(visitors, bucket);
    if visited.Err? {
      return Err(VisitorFailed(visited.error));
    }
    var hbm := VisitDocumentInOrder(visitors, EmptyDocument);
    if hbm.Err? {
      return Err(VisitorFailed(hbm.error));
    }
    var doc := CopyInto(bucket, hbm.value);
    return Ok(doc);
  }

  /** Infrastructure.MappingCompiler. */
  class MappingCompiler {
    const instructions: PersistenceInstructions
    const actionCompiler: ActionCompiler

    /**
     * The constructor as written: the action compiler is built from the
     * instructions field before that field is assigned, so it receives null.
     */
    constructor AsWritten(automapper: Automapper, instructions: PersistenceInstructions)
      ensures this.instructions == instructions
      ensures actionCompiler == ActionCompiler(automapper, None)
    {
      actionCompiler := ActionCompiler(automapper, None);
      this.instructions := instructions;
    }

    /** The constructor as intended: the action compiler shares the compiler's instructions. */
    constructor (automapper: Automapper, instructions: PersistenceInstructions)
      ensures this.instructions == instructions
      ensures actionCompiler == ActionCompiler(automapper, Some(instructions))
    {
      actionCompiler := ActionCompiler(automapper, Some(instructions));
      this.instructions := instructions;
    }

    method Compile() returns (r: Result<HibernateMapping, CompileError>)
      ensures r == Build(actionCompiler, instructions.actions, instructions.visitors)
    {
      r := RunPipeline(actionCompiler, instructions.actions, instructions.visitors);
    }
  }

  /** PersistenceModel's MappingCompiler: the same dispatch and pipeline over its own instructions. */
  class PersistenceMappingCompiler {
    const automapper: Automapper
    const instructions: PersistenceInstructions

    constructor (automapper: Automapper, instructions: PersistenceInstructions)
      ensures this.automapper == automapper && this.instructions == instructions
    {
      this.automapper := automapper;
      this.instructions := instructions;
    }

    /** `Compile(action)`: ManualMap for a manual action, AutoMap for an automap action, otherwise unrecognised. */
    function Compile(a: MappingAction): Result<seq<TopMapping>, CompileError>
    {
      CompileAction(ActionCompiler(automapper, Some(instructions)), a)
    }

    method BuildMappings() returns (r: Result<HibernateMapping, CompileError>)
      ensures r == Build(ActionCompiler(automapper, Some(instructions)), instructions.actions, instructions.visitors)
    {
      r := RunPipeline(ActionCompiler(automapper, Some(instructions)), instructions.actions, instructions.visitors);
    }
  }

  /** PersistenceModel's registration surface over its gatherer. */
  class PersistenceModel {
    const gatherer: PersistenceInstructionGatherer

    constructor (conventions: Handle, defaultCfg: AutomappingConfiguration)
      ensures fresh(gatherer) && gatherer.instances == [] && gatherer.sources == []
    {
      gatherer := new PersistenceInstructionGatherer(conventions, defaultCfg);
    }

    method Add(p: Provider)
      modifies gatherer
      ensures gatherer.instances == old(gatherer.instances) + [p]
      ensures gatherer.State() == old(gatherer.State()).(instances := gatherer.instances)
    {
      gatherer.AddProviderInstance(p);
    }

    method AddMappingsFromSource(source: seq<TypeId>)
      modifies gatherer
      ensures gatherer.sources == old(gatherer.sources) + [source]
      ensures gatherer.State() == old(gatherer.State()).(sources := gatherer.sources)
    {
      gatherer.AddSource(source);
    }

    /** `AddMappings(params providers)`: registers each provider, in argument order. */
    method AddMappings(providers: seq<Provider>)
      modifies gatherer
      ensures gatherer.instances == old(gatherer.instances) + providers
      ensures gatherer.State() == old(gatherer.State()).(instances := gatherer.instances)
    {
      var i := 0;
      while i < |providers|
        invariant 0 <= i <= |providers|
        invariant gatherer.instances == old(gatherer.instances) + providers[..i]
        invariant gatherer.State() == old(gatherer.State()).(instances := gatherer.instances)
      {
        assert providers[..i + 1] == providers[..i] + [providers[i]];
        gatherer.AddProviderInstance(providers[i]);
        i := i + 1;
      }
      assert providers[..i] == providers;
    }

    /** `Import<T>()`: registers an ImportPart for the type and returns that same part. */
    method Import(t: TypeId) returns (part: Provider)
      modifies gatherer
      ensures part == ImportPart(t)
      ensures gatherer.instances == old(gatherer.instances) + [part]
      ensures gatherer.State() == old(gatherer.State()).(instances := gatherer.instances)
    {
      part := ImportPart(t);
      gatherer.AddProviderInstance(part);
    }
  }
}
