/** Properties of the earlier interpreter of src/framework/executor.ts. */
module FrameworkFacts {
  import opened Wrappers
  import opened Text
  import opened Parser
  import Executor
  import ExecutorFacts
  import Steps
  import opened FrameworkExecutor

  // ---------------------------------------------------------------------
  // Running steps

  /** Steps run in order and stop at the first error: running `xs + ys`
      runs `ys` only after all of `xs` succeeded. */
  lemma {:induction false} StepsAppend(page: Steps.Page, c: Config, xs: seq<TestStep>, ys: seq<TestStep>)
    ensures var first := RunSteps(page, c, xs);
      RunSteps(page, c, xs + ys) == if first.error.Some? then first else RunSteps(page, first.c, ys)
    decreases |xs|
  {
    if xs == [] {
      assert xs + ys == ys;
    } else {
      assert (xs + ys)[0] == xs[0];
      assert (xs + ys)[1..] == xs[1..] + ys;
      var head := RunStep(page, c, xs[0]);
      if head.error.None? {
        StepsAppend(page, head.c, xs[1..], ys);
      }
    }
  }

  /** `else`, `endif` and `endloop` steps do nothing. */
  lemma {:induction false} MarkersDoNothing(page: Steps.Page, c: Config, steps: seq<TestStep>)
    requires forall i :: 0 <= i < |steps| ==> steps[i].kind in {Else, EndIf, EndLoop}
    ensures RunSteps(page, c, steps) == Outcome(c, None)
  {
    if steps != [] {
      MarkersDoNothing(page, c, steps[1..]);
    }
  }

  /** A step of unknown type throws `Неизвестный тип шага: <type>` and the
      steps after it are not run. */
  lemma UnknownTypeStops(page: Steps.Page, c: Config, step: TestStep, rest: seq<TestStep>)
    requires step.kind.Unknown?
    ensures RunSteps(page, c, [step] + rest) == Outcome(c, Some(Executor.UnknownStepType + step.kind.name))
  {
    assert ([step] + rest)[0] == step;
  }

  /** An action performs the substituted request on the library and
      rethrows the library's error unchanged; the executor's own
      variables are left alone. */
  lemma ActionPerforms(page: Steps.Page, c: Config, step: TestStep)
    requires step.kind.Action?
    ensures var call := Executor.ActionCall(c.variables, step);
      var done := Steps.Perform(page, c.lib, call.action, call.parameters);
      RunStep(page, c, step) == Outcome(Config(c.variables, done.lib), done.error)
  {
  }

  // ---------------------------------------------------------------------
  // The library's page requests only grow

  /** The page requests of `c` are kept, in order, by every run from it. */
  predicate Extends(c: Config, out: Outcome) {
    c.lib.pages <= out.c.lib.pages
  }

  lemma {:induction false} StepsExtend(page: Steps.Page, c: Config, steps: seq<TestStep>)
    ensures Extends(c, RunSteps(page, c, steps))
    decreases Executor.ListSize(steps), 3, 0
  {
    if steps != [] {
      var first := RunStep(page, c, steps[0]);
      StepExtends(page, c, steps[0]);
      if first.error.None? {
        StepsExtend(page, first.c, steps[1..]);
      }
    }
  }

  lemma {:induction false} StepExtends(page: Steps.Page, c: Config, step: TestStep)
    ensures Extends(c, RunStep(page, c, step))
    decreases Executor.StepSize(step), 2, 0
  {
    match step.kind
    case Action =>
      var call := Executor.ActionCall(c.variables, step);
      var done := Steps.Perform(page, c.lib, call.action, call.parameters);
      assert c.lib.pages <= done.lib.pages;
    case If => IfExtends(page, c, step);
    case Loop => LoopExtends(page, c, step);
    case Else =>
    case EndIf =>
    case EndLoop =>
    case Unknown(_) =>
  }

  lemma {:induction false} IfExtends(page: Steps.Page, c: Config, step: TestStep)
    ensures Extends(c, RunIf(page, c, step))
    decreases Executor.StepSize(step), 1, 0
  {
    var condition := Executor.ReplaceVariables(c.variables, step.action.GetOr(""));
    match EvaluateCondition(c.lib.variables, condition)
    case Err(_) =>
    case Ok(holds) =>
      if step.steps.Children? {
        var children := step.steps.list;
        if holds {
          StepsExtend(page, c, children);
        } else {
          match Executor.FindElse(children)
          case None =>
          case Some(k) =>
            if children[k].steps.Children? {
              Executor.ElementSize(children, k);
              StepsExtend(page, c, children[k].steps.list);
            }
        }
      }
  }

  lemma {:induction false} LoopExtends(page: Steps.Page, c: Config, step: TestStep)
    ensures Extends(c, RunLoop(page, c, step))
    decreases Executor.StepSize(step), 1, 0
  {
    var expr := Executor.ReplaceVariables(c.variables, step.action.GetOr(""));
    match GetLoopItems(expr)
    case Err(_) =>
    case Ok(items) => PassesExtend(page, c, step, Executor.LoopVariable(expr), items);
  }

  lemma {:induction false} PassesExtend(page: Steps.Page, c: Config, step: TestStep, name: string, items: seq<string>)
    ensures Extends(c, RunPasses(page, c, step, name, items))
    decreases Executor.StepSize(step), 0, |items|
  {
    if items != [] {
      var bound := c.(variables := c.variables[name := items[0]]);
      var pass := match step.steps
        case NoChildren => Outcome(bound, None)
        case Children(body) => RunSteps(page, bound, body);
      if step.steps.Children? {
        StepsExtend(page, bound, step.steps.list);
      }
      if pass.error.None? {
        PassesExtend(page, pass.c, step, name, items[1..]);
      }
    }
  }

  // ---------------------------------------------------------------------
  // Conditions

  lemma RemoveKeeps(s: string, c: char, t: string)
    requires |s| == 2 && s[0] != c && s[1] != c
    ensures Remove(s + t, c) == s + Remove(t, c)
  {
    assert (s + t)[1..][1..] == t;
  }

  /** Offset 26 falls two characters short of the end of the 28-character
      prefix, so the text compared with the title is `т ` (the last letter
      of `содержит` and the space) followed by the quote-free rest. The
      test throws when `pageTitle` was never stored in the library. */
  lemma TitleConditionOffset(store: Steps.Store, rest: string)
    ensures EvaluateCondition(store, Executor.RussianTitleCondition + rest)
      == match Steps.Get(store, "pageTitle")
         case None => Err(IncludesOfUndefined)
         case Some(title) => Ok(Contains(title, "т " + Remove(rest, '"')))
  {
    var c := Executor.RussianTitleCondition + rest;
    assert |Executor.RussianTitleCondition| == 28;
    assert c[..28] == Executor.RussianTitleCondition;
    assert StartsWith(c, Executor.RussianTitleCondition);
    assert Executor.RussianTitleCondition[26..] == "т ";
    assert Substring(c, 26) == "т " + rest;
    RemoveKeeps("т ", '"', rest);
  }

  lemma {:induction false} ContainsPrefix(s: string, t: string, u: string)
    requires Contains(s, t + u)
    ensures Contains(s, t)
    decreases |s|
  {
    if StartsWith(s, t + u) {
      assert (t + u)[..|t|] == t;
      assert s[..|t|] == s[..|t + u|][..|t|];
    } else {
      ContainsPrefix(s[1..], t, u);
    }
  }

  /** So a title test holds only for a title that contains `т `. */
  lemma TitleTestNeedsTe(store: Steps.Store, rest: string)
    requires EvaluateCondition(store, Executor.RussianTitleCondition + rest) == Ok(true)
    ensures Steps.Get(store, "pageTitle").Some? && Contains(Steps.Get(store, "pageTitle").value, "т ")
  {
    TitleConditionOffset(store, rest);
    ContainsPrefix(Steps.Get(store, "pageTitle").value, "т ", Remove(rest, '"'));
  }

  lemma {:induction false} MissingFirstChar(s: string, t: string)
    requires t != [] && t[0] !in s
    ensures !Contains(s, t)
    decreases |s|
  {
    if s != [] {
      assert s[0] in s;
      assert forall x :: x in s[1..] ==> x in s;
      MissingFirstChar(s[1..], t);
    }
  }

  /** A title without the letter `т` never holds the clipped text, so the
      title test fails. */
  lemma NoLetterTe(store: Steps.Store, title: string, rest: string)
    requires Steps.Get(store, "pageTitle") == Some(title) && 'т' !in title
    ensures EvaluateCondition(store, Executor.RussianTitleCondition + rest) == Ok(false)
  {
    TitleConditionOffset(store, rest);
    MissingFirstChar(title, "т " + Remove(rest, '"'));
  }

  /** The example of the code's own comment, `заголовок страницы содержит
      "Example"`, is false for the title `Example Domain`. */
  lemma ExampleConditionFails(store: Steps.Store)
    requires Steps.Get(store, "pageTitle") == Some("Example Domain")
    ensures EvaluateCondition(store, Executor.RussianTitleCondition + "\"Example\"") == Ok(false)
  {
    assert 'т' !in "Example Domain";
    NoLetterTe(store, "Example Domain", "\"Example\"");
  }

  /** The English title test of the other interpreter is an unknown
      condition here. */
  lemma EnglishConditionThrows(store: Steps.Store, condition: string)
    requires StartsWith(condition, Executor.EnglishTitleCondition)
    ensures EvaluateCondition(store, condition) == Err(UnknownCondition + condition)
  {
    PrefixesDiffer(condition, Executor.EnglishTitleCondition, Executor.RussianTitleCondition, 0);
  }

  /** When the condition throws, so does the `if` step, and none of its
      children run. */
  lemma ConditionErrorStops(page: Steps.Page, c: Config, step: TestStep, e: string)
    requires step.kind.If?
    requires EvaluateCondition(c.lib.variables, Executor.ReplaceVariables(c.variables, step.action.GetOr(""))) == Err(e)
    ensures RunStep(page, c, step) == Outcome(c, Some(e))
  {
  }

  // ---------------------------------------------------------------------
  // Loops

  /** `name в [list]` on one line: the items of the list. */
  lemma RussianHeader(name: string, inner: string)
    requires '[' !in name
    requires ExecutorFacts.OneLine(name + Executor.RussianLoopSeparator + inner + "]")
    ensures GetLoopItems(name + Executor.RussianLoopSeparator + inner + "]") == Ok(Executor.Items(inner))
  {
    assert Executor.RussianLoopSeparator[..3] == " в ";
    ExecutorFacts.HeaderList(name, Executor.RussianLoopSeparator, inner);
  }

  /** A header without ` в ` anywhere, English ones among them, throws
      `Неверное выражение цикла: <expr>`. */
  lemma NoRussianSeparatorRejected(expr: string)
    requires 'в' !in expr
    ensures GetLoopItems(expr) == Err(Executor.LoopError + expr)
  {
    assert Executor.RussianLoopSeparator[1] == 'в';
    ExecutorFacts.MissingCharNoList(expr, Executor.RussianLoopSeparator, 'в');
  }

  /** A pass binds the variable and runs the body exactly as written: the
      children's parameters are not replaced by the item. */
  lemma OnePassAsWritten(page: Steps.Page, c: Config, step: TestStep, name: string, item: string, body: seq<TestStep>)
    requires step.steps == Children(body)
    ensures RunPasses(page, c, step, name, [item])
      == RunSteps(page, c.(variables := c.variables[name := item]), body)
  {
    var pass := RunSteps(page, c.(variables := c.variables[name := item]), body);
    assert [item][1..] == [];
  }

  /** Passes run in order: the items `xs + ys` are the passes over `xs`,
      then, when none of them threw, the passes over `ys`. */
  lemma {:induction false} PassesInOrder(page: Steps.Page, c: Config, step: TestStep, name: string,
                                         xs: seq<string>, ys: seq<string>)
    ensures var first := RunPasses(page, c, step, name, xs);
      RunPasses(page, c, step, name, xs + ys)
        == if first.error.Some? then first else RunPasses(page, first.c, step, name, ys)
    decreases |xs|
  {
    if xs == [] {
      assert xs + ys == ys;
    } else {
      assert (xs + ys)[0] == xs[0];
      assert (xs + ys)[1..] == xs[1..] + ys;
      var bound := c.(variables := c.variables[name := xs[0]]);
      var pass := match step.steps
        case NoChildren => Outcome(bound, None)
        case Children(body) => RunSteps(page, bound, body);
      if pass.error.None? {
        PassesInOrder(page, pass.c, step, name, xs[1..], ys);
      }
    }
  }
}
