/** The deterministic checks on an execution plan, and what a plan that passes them is good for. */
module PlanValidator {
  import opened Values
  import opened CycleDetection
  import opened CycleOrders

  datatype Step = Step(id: string, toolCandidates: seq<string>, dependencies: seq<string>, riskLevel: string)

  datatype Plan = Plan(goalIsBlank: bool, steps: seq<Step>, completionCriteria: seq<string>, requiredUserInputs: seq<string>)

  datatype Settings = Settings(registry: Option<set<string>>, maxSteps: int, forbidden: seq<string>)

  datatype Error =
    | NoSteps
    | TooManySteps
    | DuplicateIds
    | ForbiddenTool(step: string, tool: string)
    | UnknownTool(step: string, tool: string)
    | SelfDependency(step: string)
    | UnknownDependency(step: string, dependency: string)
    | CircularDependency(cycle: seq<string>)
    | NoGoal

  datatype Warning = NoCompletionCriteria | HighRiskWithoutInputs(step: string)

  /** `validate` returns, or the cycle detection raises through it. */
  datatype Validation = Report(errors: seq<Error>, warnings: seq<Warning>) | ValueError

  // ---------------------------------------------------------------- the declared graph

  function Ids(steps: seq<Step>): set<string> {
    set s | s in steps :: s.id
  }

  /** The dependency lists by id; among steps of one id the last one counts. */
  function GraphOf(steps: seq<Step>): Graph {
    if steps == [] then map[]
    else GraphOf(steps[..|steps| - 1])[steps[|steps| - 1].id := steps[|steps| - 1].dependencies]
  }

  /** The search iterates over sets, so it sees the same dependencies in some order of its own. */
  ghost predicate Lists(g: Graph, listed: Graph) {
    && listed.Keys == g.Keys
    && forall id, dep | id in g :: dep in listed[id] <==> dep in g[id]
  }

  lemma {:induction false} GraphHasTheIds(steps: seq<Step>)
    ensures GraphOf(steps).Keys == Ids(steps)
  {
    if steps != [] {
      var before, last := steps[..|steps| - 1], steps[|steps| - 1];
      GraphHasTheIds(before);
      assert steps == before + [last];
      assert Ids(steps) == Ids(before) + {last.id};
    }
  }

  ghost predicate DistinctIds(steps: seq<Step>) {
    forall i, j | 0 <= i < j < |steps| :: steps[i].id != steps[j].id
  }

  lemma {:induction false} GraphHasTheDependencies(steps: seq<Step>, i: nat)
    requires DistinctIds(steps) && i < |steps|
    ensures steps[i].id in GraphOf(steps) && GraphOf(steps)[steps[i].id] == steps[i].dependencies
  {
    if i < |steps| - 1 {
      GraphHasTheDependencies(steps[..|steps| - 1], i);
    }
  }

  /** Among steps of one id the last one's dependencies count, as in a dictionary that is filled in order. */
  lemma {:induction false} LastStepCounts(steps: seq<Step>, i: nat)
    requires i < |steps| && forall j | i < j < |steps| :: steps[j].id != steps[i].id
    ensures steps[i].id in GraphOf(steps) && GraphOf(steps)[steps[i].id] == steps[i].dependencies
  {
    if i < |steps| - 1 {
      LastStepCounts(steps[..|steps| - 1], i);
    }
  }

  lemma ListingKeepsEachCycle(g: Graph, listed: Graph, c: seq<string>)
    requires Lists(g, listed)
    ensures Cycle(listed, c) <==> Cycle(g, c)
  {
    forall i | 0 <= i < |c| - 1
      ensures Edge(listed, c[i], c[i + 1]) <==> Edge(g, c[i], c[i + 1])
    {
    }
  }

  lemma ListingKeepsCycles(g: Graph, listed: Graph)
    requires Lists(g, listed)
    ensures HasCycle(listed) <==> HasCycle(g)
    ensures HasEntrance(listed) ==> HasEntrance(g)
  {
    forall c
      ensures Cycle(listed, c) <==> Cycle(g, c)
    {
      ListingKeepsEachCycle(g, listed, c);
    }
    if HasCycle(g) {
      var c :| Cycle(g, c);
      assert Cycle(listed, c);
    }
    if HasCycle(listed) {
      var c :| Cycle(listed, c);
      assert Cycle(g, c);
    }
    if HasEntrance(listed) {
      var id, dep, c :| EntersCycle(listed, id, dep, c);
      hide Cycle;
      assert EntersCycle(g, id, dep, c);
    }
  }

  // ---------------------------------------------------------------- what counts as a violation

  ghost predicate ToolViolation(cfg: Settings, step: Step, e: Error) {
    match e
    case ForbiddenTool(id, tool) => id == step.id && tool in step.toolCandidates && tool in cfg.forbidden
    case UnknownTool(id, tool) =>
      && id == step.id && tool in step.toolCandidates && tool !in cfg.forbidden
      && cfg.registry.Some? && tool !in cfg.registry.value
    case _ => false
  }

  ghost predicate DependencyViolation(ids: set<string>, step: Step, e: Error) {
    match e
    case SelfDependency(id) => id == step.id && id in step.dependencies
    case UnknownDependency(id, dep) => id == step.id && dep in step.dependencies && dep !in ids
    case _ => false
  }

  /** Every check but the cycle detection, without saying how it is computed. */
  ghost predicate Violates(cfg: Settings, plan: Plan, e: Error) {
    match e
    case NoSteps => plan.steps == []
    case TooManySteps => |plan.steps| > cfg.maxSteps
    case DuplicateIds => !DistinctIds(plan.steps)
    case NoGoal => plan.goalIsBlank
    case CircularDependency(_) => false
    case _ => exists s | s in plan.steps :: ToolViolation(cfg, s, e) || DependencyViolation(Ids(plan.steps), s, e)
  }

  ghost predicate PlanOk(cfg: Settings, plan: Plan) {
    (forall e :: !Violates(cfg, plan, e)) && !HasCycle(GraphOf(plan.steps))
  }

  // ---------------------------------------------------------------- the checks

  method CheckTools(cfg: Settings, step: Step) returns (errors: seq<Error>)
    ensures forall e :: e in errors <==> ToolViolation(cfg, step, e)
  {
    errors := [];
    for i := 0 to |step.toolCandidates|
      invariant forall e :: e in errors <==> ToolViolation(cfg, step.(toolCandidates := step.toolCandidates[..i]), e)
    {
      var tool := step.toolCandidates[i];
      if tool in cfg.forbidden {
        errors := errors + [ForbiddenTool(step.id, tool)];
      } else if cfg.registry.Some? && tool !in cfg.registry.value {
        errors := errors + [UnknownTool(step.id, tool)];
      }
      assert step.toolCandidates[..i + 1] == step.toolCandidates[..i] + [tool];
    }
    assert step.toolCandidates[..|step.toolCandidates|] == step.toolCandidates;
  }

  method CheckDependencies(ids: set<string>, step: Step) returns (errors: seq<Error>)
    ensures forall e :: e in errors <==> DependencyViolation(ids, step, e)
  {
    errors := [];
    if step.id in step.dependencies {
      errors := [SelfDependency(step.id)];
    }
    for i := 0 to |step.dependencies|
      invariant forall e: Error | !e.UnknownDependency? :: e in errors <==> DependencyViolation(ids, step, e)
      invariant forall e: Error | e.UnknownDependency? ::
                  e in errors <==> e.step == step.id && e.dependency in step.dependencies[..i] && e.dependency !in ids
    {
      var dep := step.dependencies[i];
      if dep !in ids {
        errors := errors + [UnknownDependency(step.id, dep)];
      }
      assert step.dependencies[..i + 1] == step.dependencies[..i] + [dep];
    }
    assert step.dependencies[..|step.dependencies|] == step.dependencies;
  }

  ghost predicate StepViolation(cfg: Settings, ids: set<string>, steps: seq<Step>, e: Error) {
    exists s | s in steps :: ToolViolation(cfg, s, e) || DependencyViolation(ids, s, e)
  }

  method CheckSteps(cfg: Settings, steps: seq<Step>) returns (errors: seq<Error>)
    ensures forall e :: e in errors <==> StepViolation(cfg, Ids(steps), steps, e)
  {
    errors := [];
    for i := 0 to |steps|
      invariant forall e :: e in errors <==> StepViolation(cfg, Ids(steps), steps[..i], e)
    {
      var tools := CheckTools(cfg, steps[i]);
      var dependencies := CheckDependencies(Ids(steps), steps[i]);
      ghost var before := errors;
      errors := errors + tools + dependencies;
      assert steps[..i + 1] == steps[..i] + [steps[i]];
      forall e
        ensures e in errors <==> StepViolation(cfg, Ids(steps), steps[..i + 1], e)
      {
        assert e in errors <==> e in before || e in tools || e in dependencies;
      }
    }
    assert steps[..|steps|] == steps;
  }

  method CheckShape(cfg: Settings, plan: Plan) returns (errors: seq<Error>)
    ensures forall e: Error :: e in errors <==> Violates(cfg, plan, e) && !e.NoGoal?
  {
    errors := [];
    if |plan.steps| == 0 {
      errors := errors + [NoSteps];
    }
    if |plan.steps| > cfg.maxSteps {
      errors := errors + [TooManySteps];
    }
    if exists i, j | 0 <= i < j < |plan.steps| :: plan.steps[i].id == plan.steps[j].id {
      errors := errors + [DuplicateIds];
    }
    ghost var shape := errors;
    var stepErrors := CheckSteps(cfg, plan.steps);
    errors := errors + stepErrors;
    forall e: Error
      ensures e in errors <==> Violates(cfg, plan, e) && !e.NoGoal?
    {
      assert e in errors <==> e in shape || e in stepErrors;
    }
  }

  /** The cycle errors, or nothing when the detection raises. */
  method CheckCycles(listed: Graph, roots: seq<string>) returns (errors: Option<seq<Error>>)
    requires forall id :: id in roots <==> id in listed
    ensures errors.None? ==> HasCycle(listed) && HasEntrance(listed)
    ensures errors.Some? ==>
              && (forall e: Error | e in errors.value :: e.CircularDependency? && Cycle(listed, e.cycle))
              && (errors.value == [] <==> !HasCycle(listed))
  {
    hide Detect;
    var detector := new Detector(listed);
    var verdict := detector.DetectCycles(roots);
    DetectionIsExact(listed, roots);
    if verdict == Raised {
      if !HasEntrance(listed) {
        UnenteredNeverFails(listed, roots);
      }
      return None;
    }
    var cycles := detector.errors;
    var found := seq(|cycles|, i requires 0 <= i < |cycles| => CircularDependency(cycles[i]));
    return Some(found);
  }

  lemma NoErrorsMeansOk(cfg: Settings, plan: Plan, errors: seq<Error>)
    requires forall e: Error | !e.CircularDependency? :: e in errors <==> Violates(cfg, plan, e)
    requires (exists c :: CircularDependency(c) in errors) <==> HasCycle(GraphOf(plan.steps))
    ensures errors == [] <==> PlanOk(cfg, plan)
  {
    if errors != [] {
      var e := errors[0];
      assert e in errors;
      if e.CircularDependency? {
        assert CircularDependency(e.cycle) in errors;
      } else {
        assert Violates(cfg, plan, e);
      }
    } else {
      forall e: Error
        ensures !Violates(cfg, plan, e)
      {
        assert e !in errors;
      }
    }
  }

  /** `listed` and `roots` are the orders in which the sets of dependencies and of ids are iterated over. */
  method Validate(cfg: Settings, plan: Plan, listed: Graph, roots: seq<string>) returns (r: Validation)
    requires Lists(GraphOf(plan.steps), listed)
    requires forall id :: id in roots <==> id in listed
    ensures r.Report? ==>
              && (forall e: Error | !e.CircularDependency? :: e in r.errors <==> Violates(cfg, plan, e))
              && (forall c | CircularDependency(c) in r.errors :: Cycle(listed, c))
              && ((exists c :: CircularDependency(c) in r.errors) <==> HasCycle(GraphOf(plan.steps)))
    ensures r.Report? ==>
              && (NoCompletionCriteria in r.warnings <==> plan.completionCriteria == [])
              && forall id :: HighRiskWithoutInputs(id) in r.warnings <==> NeedsInputs(plan, id)
    ensures r.ValueError? ==> HasCycle(GraphOf(plan.steps)) && HasEntrance(GraphOf(plan.steps))
    ensures r.Report? && r.errors == [] <==> PlanOk(cfg, plan)
  {
    hide Violates, HasCycle, HasEntrance, Cycle;
    var shape := CheckShape(cfg, plan);
    var cycles := CheckCycles(listed, roots);
    ListingKeepsCycles(GraphOf(plan.steps), listed);
    if cycles.None? {
      assert !PlanOk(cfg, plan);
      return ValueError;
    }
    var goal := if plan.goalIsBlank then [NoGoal] else [];
    var errors := shape + cycles.value + goal;
    assert Violates(cfg, plan, NoGoal) <==> plan.goalIsBlank by {
      GoalViolation(cfg, plan);
    }
    forall e: Error
      ensures e in errors <==> e in shape || e in cycles.value || e in goal
    {
    }
    if cycles.value != [] {
      assert cycles.value[0] in cycles.value;
      assert CircularDependency(cycles.value[0].cycle) in errors;
    }
    NoCircularShape(cfg, plan);
    NoErrorsMeansOk(cfg, plan, errors);
    var warnings := CollectWarnings(plan);
    r := Report(errors, warnings);
  }

  lemma GoalViolation(cfg: Settings, plan: Plan)
    ensures Violates(cfg, plan, NoGoal) <==> plan.goalIsBlank
  {
  }

  lemma NoCircularShape(cfg: Settings, plan: Plan)
    ensures forall c :: !Violates(cfg, plan, CircularDependency(c))
  {
  }

  /** A high-risk step of a plan that asks the user for nothing. */
  ghost predicate NeedsInputs(plan: Plan, id: string) {
    plan.requiredUserInputs == [] && exists s | s in plan.steps :: s.id == id && s.riskLevel in {"high", "critical"}
  }

  method CollectWarnings(plan: Plan) returns (warnings: seq<Warning>)
    ensures NoCompletionCriteria in warnings <==> plan.completionCriteria == []
    ensures forall id :: HighRiskWithoutInputs(id) in warnings <==> NeedsInputs(plan, id)
  {
    warnings := if plan.completionCriteria == [] then [NoCompletionCriteria] else [];
    for i := 0 to |plan.steps|
      invariant NoCompletionCriteria in warnings <==> plan.completionCriteria == []
      invariant forall id :: HighRiskWithoutInputs(id) in warnings <==>
                  plan.requiredUserInputs == [] && exists s | s in plan.steps[..i] :: s.id == id && s.riskLevel in {"high", "critical"}
    {
      var step := plan.steps[i];
      assert plan.steps[..i + 1] == plan.steps[..i] + [step];
      if step.riskLevel in {"high", "critical"} && |plan.requiredUserInputs| == 0 {
        warnings := warnings + [HighRiskWithoutInputs(step.id)];
      }
    }
    assert plan.steps[..|plan.steps|] == plan.steps;
  }

  // ---------------------------------------------------------------- what a valid plan is good for

  /** All steps, one after the other, each after everything it depends on. */
  ghost predicate ExecutionOrder(steps: seq<Step>, order: seq<string>) {
    && (forall s | s in steps :: s.id in order)
    && (forall i | 0 <= i < |order| :: order[i] in Ids(steps))
    && (forall i, j | 0 <= i < j < |order| :: order[i] != order[j])
    && (forall s, i, dep | s in steps && 0 <= i < |order| && order[i] == s.id && dep in s.dependencies :: dep in order[..i])
  }

  lemma DependenciesAreEdges(cfg: Settings, plan: Plan, listed: Graph, s: Step, dep: string)
    requires PlanOk(cfg, plan) && Lists(GraphOf(plan.steps), listed) && s in plan.steps && dep in s.dependencies
    ensures Edge(listed, s.id, dep)
  {
    hide HasCycle, ToolViolation;
    var k :| 0 <= k < |plan.steps| && plan.steps[k] == s;
    GraphHasTheIds(plan.steps);
    assert !Violates(cfg, plan, DuplicateIds);
    GraphHasTheDependencies(plan.steps, k);
    assert !Violates(cfg, plan, UnknownDependency(s.id, dep));
    assert DependencyViolation(Ids(plan.steps), s, UnknownDependency(s.id, dep)) <==> dep !in Ids(plan.steps);
  }

  /** A plan that passes can be executed: the finishing order of the search is an execution order. */
  lemma ValidPlanIsExecutable(cfg: Settings, plan: Plan, listed: Graph, roots: seq<string>)
    requires PlanOk(cfg, plan) && Lists(GraphOf(plan.steps), listed)
    requires forall id :: id in roots <==> id in listed
    ensures ExecutionOrder(plan.steps, Detect(listed, roots, 0, Start(listed)).0.finished)
  {
    hide Detect, Violates, HasCycle;
    var order := Detect(listed, roots, 0, Start(listed)).0.finished;
    GraphHasTheIds(plan.steps);
    ListingKeepsCycles(GraphOf(plan.steps), listed);
    DetectionIsExact(listed, roots);
    forall s, i, dep | s in plan.steps && 0 <= i < |order| && order[i] == s.id && dep in s.dependencies
      ensures dep in order[..i]
    {
      DependenciesAreEdges(cfg, plan, listed, s, dep);
    }
  }
}
