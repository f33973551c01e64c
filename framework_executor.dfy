/** The earlier interpreter of src/framework/executor.ts (class
    `TestExecutor`): it walks the same step tree and drives the action
    library of src/steps/steps.ts directly. It records no results, binds
    loop items without overriding parameters, and recognises only the
    Russian condition and loop forms. */
module FrameworkExecutor {
  import opened Wrappers
  import opened Text
  import opened Parser
  import Executor
  import Steps

  // ---------------------------------------------------------------------
  // Conditions and loop headers

  const UnknownCondition: string := "Неизвестное условие: "
  /** What `undefined.includes(...)` throws. */
  const IncludesOfUndefined: string := "Cannot read properties of undefined (reading 'includes')"

  /** `evaluateCondition`: only the Russian title test is known. The text
      compared is taken from offset 26, two characters before the end of
      the 28-character prefix, and is matched against the library's
      `pageTitle`, which throws when that was never stored. */
  function EvaluateCondition(store: Steps.Store, condition: string): (r: Result<bool, string>)
    ensures !StartsWith(condition, Executor.RussianTitleCondition) ==> r == Err(UnknownCondition + condition)
  {
    if StartsWith(condition, Executor.RussianTitleCondition) then
      var expected := Remove(Substring(condition, 26), '"');
      match Steps.Get(store, "pageTitle")
      case None => Err(IncludesOfUndefined)
      case Some(title) => Ok(Contains(title, expected))
    else Err(UnknownCondition + condition)
  }

  /** `getLoopItems`: only the ` в [..]` form. */
  function GetLoopItems(expr: string): (r: Result<seq<string>, string>)
    ensures r.Err? <==> Executor.LoopList(expr, Executor.RussianLoopSeparator).None?
    ensures r.Err? ==> r.error == Executor.LoopError + expr
  {
    match Executor.LoopList(expr, Executor.RussianLoopSeparator)
    case Some(inner) => Ok(Executor.Items(inner))
    case None => Err(Executor.LoopError + expr)
  }

  // ---------------------------------------------------------------------
  // The reference semantics of a run

  /** The executor's variables and the state of the action library. */
  datatype Config = Config(variables: map<string, string>, lib: Steps.Library)

  /** The configuration after a run and the error it threw, if any. */
  datatype Outcome = Outcome(c: Config, error: Option<string>)

  /** `executeAction`: substitute, perform, rethrow. */
  function RunAction(page: Steps.Page, c: Config, step: TestStep): Outcome {
    var call := Executor.ActionCall(c.variables, step);
    var done := Steps.Perform(page, c.lib, call.action, call.parameters);
    Outcome(c.(lib := done.lib), done.error)
  }

  function RunSteps(page: Steps.Page, c: Config, steps: seq<TestStep>): Outcome
    decreases Executor.ListSize(steps), 3, 0
  {
    if steps == [] then Outcome(c, None)
    else
      var first := RunStep(page, c, steps[0]);
      if first.error.Some? then first else RunSteps(page, first.c, steps[1..])
  }

  function RunStep(page: Steps.Page, c: Config, step: TestStep): Outcome
    decreases Executor.StepSize(step), 2, 0
  {
    match step.kind
    case Action => RunAction(page, c, step)
    case If => RunIf(page, c, step)
    case Loop => RunLoop(page, c, step)
    case Else => Outcome(c, None)
    case EndIf => Outcome(c, None)
    case EndLoop => Outcome(c, None)
    case Unknown(name) => Outcome(c, Some(Executor.UnknownStepType + name))
  }

  function RunIf(page: Steps.Page, c: Config, step: TestStep): Outcome
    decreases Executor.StepSize(step), 1, 0
  {
    var condition := Executor.ReplaceVariables(c.variables, step.action.GetOr(""));
    match EvaluateCondition(c.lib.variables, condition)
    case Err(e) => Outcome(c, Some(e))
    case Ok(true) =>
      (match step.steps
       case NoChildren => Outcome(c, None)
       case Children(children) => RunSteps(page, c, children))
    case Ok(false) =>
      match step.steps
      case NoChildren => Outcome(c, None)
      case Children(children) =>
        match Executor.FindElse(children)
        case None => Outcome(c, None)
        case Some(k) =>
          match children[k].steps
          case NoChildren => Outcome(c, None)
          case Children(body) =>
            Executor.ElementSize(children, k);
            RunSteps(page, c, body)
  }

  function RunLoop(page: Steps.Page, c: Config, step: TestStep): Outcome
    decreases Executor.StepSize(step), 1, 0
  {
    var expr := Executor.ReplaceVariables(c.variables, step.action.GetOr(""));
    match GetLoopItems(expr)
    case Err(e) => Outcome(c, Some(e))
    case Ok(items) => RunPasses(page, c, step, Executor.LoopVariable(expr), items)
  }

  /** The passes of a loop: bind the variable, run the body as written,
      stop at the first error. */
  function RunPasses(page: Steps.Page, c: Config, step: TestStep, name: string, items: seq<string>): Outcome
    decreases Executor.StepSize(step), 0, |items|
  {
    if items == [] then Outcome(c, None)
    else
      var bound := c.(variables := c.variables[name := items[0]]);
      var pass := match step.steps
        case NoChildren => Outcome(bound, None)
        case Children(body) => RunSteps(page, bound, body);
      if pass.error.Some? then pass else RunPasses(page, pass.c, step, name, items[1..])
  }

  // ---------------------------------------------------------------------
  // The executor object

  class TestExecutor {
    /** The action library, whose store is module state shared by all. */
    const library: Steps.ActionLibrary
    var variables: map<string, string>

    constructor(library: Steps.ActionLibrary)
      ensures this.library == library && variables == map[]
    {
      this.library := library;
      variables := map[];
    }

    function Current(): Config
      reads this, library
    {
      Config(variables, library.State())
    }

    /** `executeTestCase`: the error of the run is caught and goes no
        further; the state is what the run left. */
    method ExecuteTestCase(tc: TestCase)
      modifies this, library
      ensures Current() == RunSteps(library.page, old(Current()), tc.steps).c
    {
      var _ := ExecuteSteps(tc.steps);
    }

    method ExecuteSteps(steps: seq<TestStep>) returns (error: Option<string>)
      modifies this, library
      decreases Executor.ListSize(steps), 3, 0
      ensures Outcome(Current(), error) == RunSteps(library.page, old(Current()), steps)
    {
      error := None;
      var rest := steps;
      while rest != []
        invariant Executor.ListSize(rest) <= Executor.ListSize(steps)
        invariant error.None?
        invariant RunSteps(library.page, old(Current()), steps) == RunSteps(library.page, Current(), rest)
        decreases |rest|
      {
        error := ExecuteStep(rest[0]);
        if error.Some? {
          return;
        }
        rest := rest[1..];
      }
    }

    method ExecuteStep(step: TestStep) returns (error: Option<string>)
      modifies this, library
      decreases Executor.StepSize(step), 2, 0
      ensures Outcome(Current(), error) == RunStep(library.page, old(Current()), step)
    {
      error := None;
      match step.kind {
        case Action => error := ExecuteAction(step);
        case If => error := ExecuteIf(step);
        case Loop => error := ExecuteLoop(step);
        case Else =>
        case EndIf =>
        case EndLoop =>
        case Unknown(name) => error := Some(Executor.UnknownStepType + name);
      }
    }

    method ExecuteAction(step: TestStep) returns (error: Option<string>)
      modifies library
      ensures Outcome(Current(), error) == RunAction(library.page, old(Current()), step)
    {
      var parameters := if step.parameters.Some? then Executor.Substitute(variables, step.parameters.value) else [];
      var action := Executor.ReplaceVariables(variables, step.action.GetOr(""));
      error := library.PerformAction(action, parameters);
    }

    method ExecuteIf(step: TestStep) returns (error: Option<string>)
      modifies this, library
      decreases Executor.StepSize(step), 1, 0
      ensures Outcome(Current(), error) == RunIf(library.page, old(Current()), step)
    {
      error := None;
      var condition := Executor.ReplaceVariables(variables, step.action.GetOr(""));
      var holds := EvaluateCondition(library.variables, condition);
      if holds.Err? {
        error := Some(holds.error);
      } else if holds.value {
        if step.steps.Children? {
          error := ExecuteSteps(step.steps.list);
        }
      } else if step.steps.Children? {
        var children := step.steps.list;
        var k := Executor.FindElse(children);
        if k.Some? && children[k.value].steps.Children? {
          Executor.ElementSize(children, k.value);
          error := ExecuteSteps(children[k.value].steps.list);
        }
      }
    }

    method ExecuteLoop(step: TestStep) returns (error: Option<string>)
      modifies this, library
      decreases Executor.StepSize(step), 1, 0
      ensures Outcome(Current(), error) == RunLoop(library.page, old(Current()), step)
    {
      error := None;
      var expr := Executor.ReplaceVariables(variables, step.action.GetOr(""));
      var items := GetLoopItems(expr);
      if items.Err? {
        error := Some(items.error);
        return;
      }
      var rest := items.value;
      while rest != []
        invariant error.None?
        invariant RunLoop(library.page, old(Current()), step)
          == RunPasses(library.page, Current(), step, Executor.LoopVariable(expr), rest)
        decreases |rest|
      {
        var name := Executor.LoopVariable(expr);
        variables := variables[name := rest[0]];
        if step.steps.Children? {
          error := ExecuteSteps(step.steps.list);
          if error.Some? {
            return;
          }
        }
        rest := rest[1..];
      }
    }
  }
}
