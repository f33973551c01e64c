/** What the parser and the two interpreters do together: how an `else`
    written in a script is placed and whether it runs, what the English
    keyword forms come to after the parser's fixed offsets, and that the
    two interpreters agree on scripts of plain actions. */
module Pipeline {
  import opened Wrappers
  import opened Text
  import opened Parser
  import ParserFacts
  import ParserNesting
  import Executor
  import ExecutorFacts
  import Steps
  import FrameworkExecutor
  import FrameworkFacts

  // ---------------------------------------------------------------------
  // `else` blocks

  /** The condition of an `if` step as the main interpreter evaluates it. */
  predicate Holds(vars: map<string, string>, step: TestStep) {
    Executor.EvaluateCondition(vars, Executor.ReplaceVariables(vars, step.action.GetOr("")))
  }

  /** An `if` step whose children hold no `else`, followed by an `else`
      sibling: when the condition holds the children run; otherwise
      nothing runs, neither the `if` children nor the sibling's. */
  lemma SiblingElseNeverRuns(o: Executor.Oracle, m: Executor.Machine, ifStep: TestStep, elseStep: TestStep, index: nat)
    requires ifStep.kind.If? && ifStep.steps.Children?
    requires forall i :: 0 <= i < |ifStep.steps.list| ==> ifStep.steps.list[i].kind != Else
    requires elseStep.kind.Else?
    ensures Executor.RunSteps(o, m, [ifStep, elseStep], index)
      == if Holds(m.variables, ifStep) then Executor.RunSteps(o, m, ifStep.steps.list, 0)
         else Executor.Outcome(m, None)
  {
    var first := Executor.RunStep(o, m, ifStep, index);
    if Holds(m.variables, ifStep) {
      ExecutorFacts.IfTrueRunsChildren(o, m, ifStep, index, ifStep.steps.list);
    } else {
      ExecutorFacts.IfFalseWithoutElse(o, m, ifStep, index, ifStep.steps.list);
    }
    assert [ifStep, elseStep][1..] == [elseStep];
    assert [elseStep][1..] == [];
    if first.error.None? {
      assert Executor.RunSteps(o, first.m, [elseStep], index + 1) == Executor.Outcome(first.m, None);
    }
  }

  /** The same in the earlier interpreter, where the condition may also
      throw. */
  lemma FrameworkSiblingElseNeverRuns(page: Steps.Page, c: FrameworkExecutor.Config, ifStep: TestStep, elseStep: TestStep)
    requires ifStep.kind.If? && ifStep.steps.Children?
    requires forall i :: 0 <= i < |ifStep.steps.list| ==> ifStep.steps.list[i].kind != Else
    requires elseStep.kind.Else?
    ensures var condition := Executor.ReplaceVariables(c.variables, ifStep.action.GetOr(""));
      FrameworkExecutor.RunSteps(page, c, [ifStep, elseStep])
        == match FrameworkExecutor.EvaluateCondition(c.lib.variables, condition)
           case Err(e) => FrameworkExecutor.Outcome(c, Some(e))
           case Ok(true) => FrameworkExecutor.RunSteps(page, c, ifStep.steps.list)
           case Ok(false) => FrameworkExecutor.Outcome(c, None)
  {
    var first := FrameworkExecutor.RunStep(page, c, ifStep);
    var condition := Executor.ReplaceVariables(c.variables, ifStep.action.GetOr(""));
    assert Executor.FindElse(ifStep.steps.list).None?;
    assert first == FrameworkExecutor.RunIf(page, c, ifStep);
    var r := FrameworkExecutor.EvaluateCondition(c.lib.variables, condition);
    if r.Err? {
      assert first == FrameworkExecutor.Outcome(c, Some(r.error));
    } else if r.value {
      assert first == FrameworkExecutor.RunSteps(page, c, ifStep.steps.list);
    } else {
      assert first == FrameworkExecutor.Outcome(c, None);
    }
    assert [ifStep, elseStep][1..] == [elseStep];
    assert [elseStep][1..] == [];
    if first.error.None? {
      assert FrameworkExecutor.RunSteps(page, first.c, [elseStep]) == FrameworkExecutor.Outcome(first.c, None);
    }
  }

  /** A script block `if`, actions, `else`, actions, `endif` inside a test
      case: the parser puts the `else` next to the `if`, so in the main
      interpreter the actions after `else` never run, whatever the
      condition. */
  lemma ScriptElseNeverRuns(done: seq<TestCase>, name: string, steps: seq<TestStep>,
                            header: string, thenPart: seq<string>, other: string,
                            elsePart: seq<string>, closer: string,
                            o: Executor.Oracle, m: Executor.Machine, index: nat)
    requires ParserFacts.KindLine(header, If)
    requires forall i :: 0 <= i < |thenPart| ==> ParserFacts.ActionLine(thenPart[i])
    requires ParserFacts.KindLine(other, Else)
    requires forall i :: 0 <= i < |elsePart| ==> ParserFacts.ActionLine(elsePart[i])
    requires ParserFacts.KindLine(closer, EndIf)
    ensures var ifStep := ParseStep(header).(steps := Children(ParserFacts.ParseAll(thenPart)));
      var elseStep := ParseStep(other).(steps := Children(ParserFacts.ParseAll(elsePart)));
      && Run(Builder(done, Some(TestCase(name, steps)), 1), [header] + thenPart + [other] + elsePart + [closer])
           == Ok(Builder(done, Some(TestCase(name, steps + [ifStep, elseStep])), 1))
      && Executor.RunSteps(o, m, [ifStep, elseStep], index)
           == if Holds(m.variables, ifStep) then Executor.RunSteps(o, m, ParserFacts.ParseAll(thenPart), 0)
              else Executor.Outcome(m, None)
  {
    ParserNesting.ElseIsSibling(done, name, steps, 1, header, thenPart, other, elsePart, closer);
    var ifStep := ParseStep(header).(steps := Children(ParserFacts.ParseAll(thenPart)));
    var elseStep := ParseStep(other).(steps := Children(ParserFacts.ParseAll(elsePart)));
    assert ParserNesting.ExtendAt(steps, 1, [ifStep, elseStep]) == steps + [ifStep, elseStep];
    SiblingElseNeverRuns(o, m, ifStep, elseStep, index);
  }

  /** Nested one level deeper, the `else` of an inner `if` becomes a child
      of the outer `if`; it is the outer condition failing that runs the
      inner `else` block. */
  lemma NestedElseRunsOnOuterCondition(o: Executor.Oracle, m: Executor.Machine, outer: TestStep,
                                       inner: TestStep, elseStep: TestStep, body: seq<TestStep>, index: nat)
    requires outer.kind.If? && inner.kind.If?
    requires elseStep.kind.Else? && elseStep.steps == Children(body)
    requires outer.steps == Children([inner, elseStep])
    ensures Executor.RunStep(o, m, outer, index)
      == if Holds(m.variables, outer) then Executor.RunSteps(o, m, [inner, elseStep], 0)
         else Executor.RunSteps(o, m, body, 0)
  {
    assert Executor.FindElse([inner, elseStep]) == Some(1) by {
      assert [inner, elseStep][1..] == [elseStep];
    }
  }

  // ---------------------------------------------------------------------
  // English keywords after the fixed offsets

  /** `If page title contains <text>`: the parser drops the `p`, and what
      is left is no known condition. The main interpreter takes it as
      true, whatever the title; the earlier one throws. */
  lemma EnglishTitleTestLost(rest: string, vars: map<string, string>, store: Steps.Store)
    requires StartsWith(rest, Executor.EnglishTitleCondition)
    requires '{' !in rest && !IsWhitespace(rest[|rest| - 1])
    ensures var step := ParseStep("If " + rest);
      && step.kind.If? && step.action == Some(rest[1..])
      && Holds(vars, step)
      && FrameworkExecutor.EvaluateCondition(store, Executor.ReplaceVariables(vars, rest[1..]))
           == Err(FrameworkExecutor.UnknownCondition + rest[1..])
  {
    assert rest[..20] == Executor.EnglishTitleCondition;
    assert rest[1] == 'a';
    var cond := rest[1..];
    ParserFacts.EnglishIfClipsCondition(rest);
    TrimIdentity(cond);
    assert forall x :: x in cond ==> x in rest;
    ExecutorFacts.NoPlaceholders(vars, cond);
    NotPrefix(cond, Executor.RussianTitleCondition);
    NotPrefix(cond, Executor.EnglishTitleCondition);
  }

  lemma NoBraceInCondition(text: string)
    requires '{' !in text
    ensures '{' !in Executor.RussianTitleCondition + text
  {
    assert '{' !in Executor.RussianTitleCondition;
  }

  /** `Если заголовок страницы содержит <text>`: the whole condition
      reaches the main interpreter, which tests the title for the text
      with its quotes removed. */
  lemma RussianTitleTestKept(text: string, vars: map<string, string>)
    requires '{' !in text && text != [] && !IsWhitespace(text[|text| - 1])
    ensures ParseStep("Если " + (Executor.RussianTitleCondition + text)).kind.If?
    ensures ParseStep("Если " + (Executor.RussianTitleCondition + text)).action
         == Some(Executor.RussianTitleCondition + text)
    ensures Holds(vars, ParseStep("Если " + (Executor.RussianTitleCondition + text)))
        <==> exists k :: OccursAt(Executor.Title(vars), Remove(text, '"'), k)
  {
    TitleConditionKept(text);
    TitleHolds(vars, text, ParseStep("Если " + (Executor.RussianTitleCondition + text)));
  }

  lemma TitleConditionKept(text: string)
    requires text != [] && !IsWhitespace(text[|text| - 1])
    ensures ParseStep("Если " + (Executor.RussianTitleCondition + text)).kind.If?
    ensures ParseStep("Если " + (Executor.RussianTitleCondition + text)).action
         == Some(Executor.RussianTitleCondition + text)
  {
    var cond := Executor.RussianTitleCondition + text;
    assert cond[0] == 'з';
    assert cond[|cond| - 1] == text[|text| - 1];
    ParserFacts.RussianIfKeepsCondition(cond);
  }

  lemma TitleHolds(vars: map<string, string>, text: string, step: TestStep)
    requires '{' !in text && step.action == Some(Executor.RussianTitleCondition + text)
    ensures Holds(vars, step) <==> exists k :: OccursAt(Executor.Title(vars), Remove(text, '"'), k)
  {
    NoBraceInCondition(text);
    ExecutorFacts.NoPlaceholders(vars, Executor.RussianTitleCondition + text);
    ExecutorFacts.RussianTitleTest(vars, text);
  }

  /** Without a `в`, the loop variable is the whole trimmed expression. */
  lemma WholeExpressionNamed(expr: string)
    requires 'в' !in expr && Trim(expr) == expr
    ensures Executor.LoopVariable(expr) == expr
  {
    forall k | 0 <= k && k + 3 <= |expr| ensures !OccursAt(expr, " в ", k) {
      assert expr[k..k + 3][1] == expr[k + 1];
      assert expr[k + 1] in expr;
    }
  }

  /** `For each <x><y><name> in [<list>]`: the parser drops two characters
      after the keyword. The main interpreter still reads the English
      list, but binds the item to the whole header text, since there is
      no ` в ` to cut the name at; the earlier interpreter rejects it. */
  lemma EnglishLoopHeader(p: string, name: string, inner: string)
    requires |p| == 2
    requires name != [] && !IsWhitespace(name[0]) && '[' !in name
    requires 'в' !in name && 'в' !in inner
    requires ExecutorFacts.OneLine(name + Executor.EnglishLoopSeparator + inner + "]")
    ensures var expr := name + Executor.EnglishLoopSeparator + inner + "]";
      && ParseStep("For each " + (p + expr)).action == Some(expr)
      && Executor.GetLoopItems(expr) == Ok(Executor.Items(inner))
      && Executor.LoopVariable(expr) == expr
      && FrameworkExecutor.GetLoopItems(expr) == Err(Executor.LoopError + expr)
  {
    var expr := name + Executor.EnglishLoopSeparator + inner + "]";
    assert expr[0] == name[0];
    EnglishLoopClipped(p, expr);
    TrimIdentity(expr);
    assert 'в' !in Executor.EnglishLoopSeparator;
    ExecutorFacts.EnglishHeader(name, inner);
    WholeExpressionNamed(expr);
    FrameworkFacts.NoRussianSeparatorRejected(expr);
  }

  /** The parser cuts the two characters after `For each ` off a header
      whose text ends in `]`. */
  lemma EnglishLoopClipped(p: string, expr: string)
    requires |p| == 2 && expr != [] && !IsWhitespace(expr[0]) && expr[|expr| - 1] == ']'
    ensures ParseStep("For each " + (p + expr)).action == Some(expr)
  {
    var rest := p + expr;
    assert rest[2..] == expr;
    assert rest[|rest| - 1] == ']';
    ParserFacts.EnglishLoopClipsExpression(rest);
    TrimIdentity(expr);
  }

  // ---------------------------------------------------------------------
  // The two interpreters agree on plain actions

  /** The library's state after a sequence of requests from `lib`. */
  function Replay(page: Steps.Page, lib: Steps.Library, calls: seq<Executor.Call>): Steps.Library
    decreases |calls|
  {
    if calls == [] then lib
    else
      var last := calls[|calls| - 1];
      Steps.Perform(page, Replay(page, lib, calls[..|calls| - 1]), last.action, last.parameters).lib
  }

  /** The action library seen as the main interpreter's oracle: a request
      fails with the error `performAction` throws in the state the earlier
      requests left. */
  function LibraryOracle(page: Steps.Page, lib: Steps.Library): Executor.Oracle {
    (calls: seq<Executor.Call>, call: Executor.Call) =>
      Steps.Perform(page, Replay(page, lib, calls), call.action, call.parameters).error
  }

  /** Steps with no block: actions, markers and unknown types. */
  predicate Flat(steps: seq<TestStep>) {
    forall i :: 0 <= i < |steps| ==> !steps[i].kind.If? && !steps[i].kind.Loop?
  }

  /** On flat steps the two interpreters make the same requests, leave the
      same variables and throw the same error. */
  lemma {:induction false} FlatRunsAgree(page: Steps.Page, lib: Steps.Library, m: Executor.Machine,
                                         steps: seq<TestStep>, index: nat)
    requires Flat(steps)
    ensures var main := Executor.RunSteps(LibraryOracle(page, lib), m, steps, index);
      var earlier := FrameworkExecutor.RunSteps(page, FrameworkExecutor.Config(m.variables, Replay(page, lib, m.calls)), steps);
      earlier.error == main.error
      && earlier.c == FrameworkExecutor.Config(main.m.variables, Replay(page, lib, main.m.calls))
    decreases |steps|
  {
    if steps != [] {
      var o := LibraryOracle(page, lib);
      var c := FrameworkExecutor.Config(m.variables, Replay(page, lib, m.calls));
      var step := steps[0];
      var first := Executor.RunStep(o, m, step, index);
      var first' := FrameworkExecutor.RunStep(page, c, step);
      if step.kind.Action? {
        var call := Executor.ActionCall(m.variables, step);
        assert (m.calls + [call])[..|m.calls|] == m.calls;
        assert first.m.calls == m.calls + [call];
      }
      assert first'.error == first.error;
      assert first'.c == FrameworkExecutor.Config(first.m.variables, Replay(page, lib, first.m.calls));
      if first.error.None? {
        FlatRunsAgree(page, lib, first.m, steps[1..], index + 1);
      }
    }
  }
}
