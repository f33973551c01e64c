/** The tree-walking interpreter of src/executor/executor.ts (class
    `TestExecutor`): it walks the step tree of one test case, substitutes
    `{name}` placeholders, asks the action library to perform each action,
    and records one `StepResult` per action, stopping at the first failure. */
module Executor {
  import opened Wrappers
  import opened Text
  import opened Parser

  // ---------------------------------------------------------------------
  // Variable substitution: text.replace(/\{(.*?)}/g, ...)

  /** Where the lazy group `(.*?)` followed by `}` ends when matching starts
      right after a `{`: the first `}`, provided no line terminator (which
      `.` does not match) comes before it. */
  function CloseBrace(t: string): (r: Option<nat>)
    ensures r.Some? ==> r.value < |t| && t[r.value] == '}'
    ensures r.Some? ==> forall i :: 0 <= i < r.value ==> t[i] != '}' && !IsLineTerminator(t[i])
    ensures r.None? ==> forall i :: 0 <= i < |t| && (forall j :: 0 <= j < i ==> !IsLineTerminator(t[j])) ==> t[i] != '}'
    decreases |t|
  {
    if t == [] || IsLineTerminator(t[0]) then None
    else if t[0] == '}' then Some(0)
    else
      match CloseBrace(t[1..])
      case None =>
        assert forall i :: 1 <= i < |t| && (forall j :: 0 <= j < i ==> !IsLineTerminator(t[j])) ==> t[1..][i - 1] == t[i];
        None
      case Some(k) => Some(k + 1)
  }

  /** `replaceVariables`: every `{...}` match whose trimmed inner name is
      bound in `vars` is replaced by the bound value, an unbound one is kept
      as it stands; scanning resumes after the match, so inserted values
      are never scanned again. */
  function ReplaceVariables(vars: map<string, string>, text: string): string
    decreases |text|
  {
    if text == [] then []
    else if text[0] != '{' then [text[0]] + ReplaceVariables(vars, text[1..])
    else
      match CloseBrace(text[1..])
      case None => ['{'] + ReplaceVariables(vars, text[1..])
      case Some(j) =>
        var key := Trim(text[1..j + 1]);
        (if key in vars then vars[key] else text[..j + 2]) + ReplaceVariables(vars, text[j + 2..])
  }

  // ---------------------------------------------------------------------
  // Conditions

  const RussianTitleCondition: string := "заголовок страницы содержит "
  const EnglishTitleCondition: string := "page title contains "

  /** `variables['pageTitle'] || ''`. */
  function Title(vars: map<string, string>): string {
    if "pageTitle" in vars then vars["pageTitle"] else ""
  }

  /** `evaluateCondition`: the two title tests, and `true` for anything
      else. The offsets 28 and 20 are the lengths of the two prefixes. */
  function EvaluateCondition(vars: map<string, string>, condition: string): bool {
    if StartsWith(condition, RussianTitleCondition) then
      Contains(Title(vars), Remove(Substring(condition, 28), '"'))
    else if StartsWith(condition, EnglishTitleCondition) then
      Contains(Title(vars), Remove(Substring(condition, 20), '"'))
    else true
  }

  // ---------------------------------------------------------------------
  // Loop headers: /(.*?) в \[(.*)]/ and /(.*?) in \[(.*)]/

  const RussianLoopSeparator: string := " в ["
  const EnglishLoopSeparator: string := " in ["
  const LoopError: string := "Неверное выражение цикла: "

  /** The length of the first line of `s` (up to the first line
      terminator). */
  function LineEnd(s: string): (n: nat)
    ensures n <= |s|
    ensures forall i :: 0 <= i < n ==> !IsLineTerminator(s[i])
    ensures n < |s| ==> IsLineTerminator(s[n])
  {
    if s == [] || IsLineTerminator(s[0]) then 0 else 1 + LineEnd(s[1..])
  }

  /** The last index of `c` in `s`, if any. */
  function LastIndexOfChar(s: string, c: char): (r: Option<nat>)
    ensures r.Some? ==> r.value < |s| && s[r.value] == c && c !in s[r.value + 1..]
    ensures r.None? ==> c !in s
  {
    if s == [] then None
    else if s[|s| - 1] == c then Some(|s| - 1)
    else
      match LastIndexOfChar(s[..|s| - 1], c)
      case None => None
      case Some(k) =>
        assert s[k + 1..] == s[..|s| - 1][k + 1..] + [s[|s| - 1]];
        Some(k)
  }

  /** The second group of the loop pattern within one line: the text after
      the first `sep` up to the last `]` of the line, when that `]` comes
      after the separator. */
  function LineList(line: string, sep: string): (r: Option<string>) {
    match IndexOf(line, sep)
    case None => None
    case Some(k) =>
      match LastIndexOfChar(line, ']')
      case None => None
      case Some(j) => if k + |sep| <= j then Some(line[k + |sep|..j]) else None
  }

  /** `expr.match(pattern)[2]`: `.` stops at line terminators, so the
      match is found in the first line that holds one. */
  function LoopList(expr: string, sep: string): (r: Option<string>)
    decreases |expr|
  {
    var n := LineEnd(expr);
    match LineList(expr[..n], sep)
    case Some(inner) => Some(inner)
    case None => if n < |expr| then LoopList(expr[n + 1..], sep) else None
  }

  /** The items of a list: split on every comma, each piece trimmed and
      stripped of all double quotes. */
  function Items(inner: string): (r: seq<string>)
    ensures |r| == |Split(inner, ',')|
    ensures forall i :: 0 <= i < |r| ==> r[i] == Remove(Trim(Split(inner, ',')[i]), '"')
  {
    var parts := Split(inner, ',');
    seq(|parts|, i requires 0 <= i < |parts| => Remove(Trim(parts[i]), '"'))
  }

  /** `getLoopItems`: the Russian form first, then the English one. */
  function GetLoopItems(expr: string): (r: Result<seq<string>, string>) {
    match LoopList(expr, RussianLoopSeparator)
    case Some(inner) => Ok(Items(inner))
    case None =>
      match LoopList(expr, EnglishLoopSeparator)
      case Some(inner) => Ok(Items(inner))
      case None => Err(LoopError + expr)
  }

  /** The loop variable: the text before the first ` в `, trimmed. */
  function LoopVariable(expr: string): string {
    Trim(BeforeFirst(expr, " в "))
  }

  // ---------------------------------------------------------------------
  // formatParameters

  predicate Shown(p: string) {
    p != "" && p != "{}"
  }

  function ShownOnly(ps: seq<string>): (r: seq<string>)
    ensures forall i :: 0 <= i < |r| ==> Shown(r[i])
    ensures forall p :: p in r <==> p in ps && Shown(p)
  {
    if ps == [] then []
    else if Shown(ps[0]) then [ps[0]] + ShownOnly(ps[1..])
    else ShownOnly(ps[1..])
  }

  /** `pieces.join(sep)`. */
  function JoinWith(pieces: seq<string>, sep: string): string {
    if |pieces| <= 1 then (if pieces == [] then [] else pieces[0])
    else pieces[0] + sep + JoinWith(pieces[1..], sep)
  }

  /** `formatParameters`: the shown parameters as ` [a, b]`, or nothing. */
  function FormatParameters(ps: seq<string>): string {
    var shown := ShownOnly(ps);
    if |shown| > 0 then " [" + JoinWith(shown, ", ") + "]" else ""
  }

  // ---------------------------------------------------------------------
  // Results and the reference semantics of a run

  datatype Status = Passed | Failed

  datatype StepResult = StepResult(
    stepNumber: nat,
    action: string,
    parameters: seq<string>,
    status: Status,
    error: Option<string>)

  datatype TestResult = TestResult(testName: string, steps: seq<StepResult>, status: Status)

  /** One request to the action library. */
  datatype Call = Call(action: string, parameters: seq<string>)

  /** The action library, seen from the executor: given the requests made so
      far and a new one, `None` for success or the message it fails with. */
  type Oracle = (seq<Call>, Call) -> Option<string>

  /** What a run changes: the variable map, the requests made so far and
      the step results of the test case under way. */
  datatype Machine = Machine(variables: map<string, string>, calls: seq<Call>, log: seq<StepResult>)

  /** The state after running something, and the message of the error it
      threw, if any. */
  datatype Outcome = Outcome(m: Machine, error: Option<string>)

  const UnknownStepType: string := "Неизвестный тип шага: "

  /** A measure that loop copies of a body do not increase. */
  function StepSize(s: TestStep): nat
    decreases s
  {
    1 + match s.steps case NoChildren => 0 case Children(children) => ListSize(children)
  }

  function ListSize(l: seq<TestStep>): nat
    decreases l
  {
    if l == [] then 0 else StepSize(l[0]) + ListSize(l[1..])
  }

  lemma {:induction false} ElementSize(l: seq<TestStep>, i: nat)
    requires i < |l|
    ensures StepSize(l[i]) <= ListSize(l)
    decreases l
  {
    if i > 0 {
      ElementSize(l[1..], i - 1);
    }
  }

  /** `step.steps?.find(s => s.type === 'else')`, as an index. */
  function FindElse(l: seq<TestStep>): (r: Option<nat>)
    ensures r.Some? ==> r.value < |l| && l[r.value].kind == Else
    ensures r.Some? ==> forall j :: 0 <= j < r.value ==> l[j].kind != Else
    ensures r.None? ==> forall j :: 0 <= j < |l| ==> l[j].kind != Else
  {
    if l == [] then None
    else if l[0].kind == Else then Some(0)
    else
      match FindElse(l[1..])
      case None => None
      case Some(k) => Some(k + 1)
  }

  /** The copies a loop pass runs: every direct body step with its
      parameters replaced by `[item]`. */
  function Override(body: seq<TestStep>, item: string): (r: seq<TestStep>)
    ensures |r| == |body|
    ensures forall i :: 0 <= i < |r| ==> r[i] == body[i].(parameters := Some([item]))
  {
    seq(|body|, i requires 0 <= i < |body| => body[i].(parameters := Some([item])))
  }

  lemma {:induction false} OverrideSize(body: seq<TestStep>, item: string)
    ensures ListSize(Override(body, item)) == ListSize(body)
    decreases |body|
  {
    if body != [] {
      assert Override(body, item)[1..] == Override(body[1..], item);
      OverrideSize(body[1..], item);
    }
  }

  function Substitute(vars: map<string, string>, ps: seq<string>): (r: seq<string>)
    ensures |r| == |ps|
    ensures forall i :: 0 <= i < |ps| ==> r[i] == ReplaceVariables(vars, ps[i])
  {
    seq(|ps|, i requires 0 <= i < |ps| => ReplaceVariables(vars, ps[i]))
  }

  /** The request `executeAction` makes for a step. */
  function ActionCall(vars: map<string, string>, step: TestStep): Call {
    Call(ReplaceVariables(vars, step.action.GetOr("")),
         if step.parameters.Some? then Substitute(vars, step.parameters.value) else [])
  }

  /** `executeAction`: one request, one recorded result, numbered by the
      step's position plus one; a failure is recorded and rethrown. */
  function RunAction(o: Oracle, m: Machine, step: TestStep, index: nat): Outcome {
    var call := ActionCall(m.variables, step);
    var verdict := o(m.calls, call);
    var result := StepResult(index + 1, call.action, call.parameters,
                             if verdict.None? then Passed else Failed, verdict);
    Outcome(Machine(m.variables, m.calls + [call], m.log + [result]), verdict)
  }

  /** `executeSteps`: the steps in order, stopping at the first error. */
  function RunSteps(o: Oracle, m: Machine, steps: seq<TestStep>, index: nat): Outcome
    decreases ListSize(steps), 3, 0
  {
    if steps == [] then Outcome(m, None)
    else
      var first := RunStep(o, m, steps[0], index);
      if first.error.Some? then first else RunSteps(o, first.m, steps[1..], index + 1)
  }

  /** `executeStep`: dispatch on the step type. */
  function RunStep(o: Oracle, m: Machine, step: TestStep, index: nat): Outcome
    decreases StepSize(step), 2, 0
  {
    match step.kind
    case Action => RunAction(o, m, step, index)
    case If => RunIf(o, m, step)
    case Loop => RunLoop(o, m, step)
    case Else => Outcome(m, None)
    case EndIf => Outcome(m, None)
    case EndLoop => Outcome(m, None)
    case Unknown(name) => Outcome(m, Some(UnknownStepType + name))
  }

  /** `executeIf`: all children when the condition holds, otherwise the
      children of the first `else` child. */
  function RunIf(o: Oracle, m: Machine, step: TestStep): Outcome
    decreases StepSize(step), 1, 0
  {
    if EvaluateCondition(m.variables, ReplaceVariables(m.variables, step.action.GetOr(""))) then
      match step.steps
      case NoChildren => Outcome(m, None)
      case Children(children) => RunSteps(o, m, children, 0)
    else
      match step.steps
      case NoChildren => Outcome(m, None)
      case Children(children) =>
        match FindElse(children)
        case None => Outcome(m, None)
        case Some(k) =>
          match children[k].steps
          case NoChildren => Outcome(m, None)
          case Children(body) =>
            ElementSize(children, k);
            RunSteps(o, m, body, 0)
  }

  /** `executeLoop`: the items of the header, or its error. */
  function RunLoop(o: Oracle, m: Machine, step: TestStep): Outcome
    decreases StepSize(step), 1, 0
  {
    var expr := ReplaceVariables(m.variables, step.action.GetOr(""));
    match GetLoopItems(expr)
    case Err(e) => Outcome(m, Some(e))
    case Ok(items) => RunPasses(o, m, step, LoopVariable(expr), items)
  }

  /** The passes of a loop over the remaining `items`: bind the variable,
      run the overridden body, stop at the first error. */
  function RunPasses(o: Oracle, m: Machine, step: TestStep, name: string, items: seq<string>): Outcome
    decreases StepSize(step), 0, |items|
  {
    if items == [] then Outcome(m, None)
    else
      var bound := m.(variables := m.variables[name := items[0]]);
      var pass :=
        if step.steps.NoChildren? then Outcome(bound, None)
        else
          (OverrideSize(step.steps.list, items[0]);
           RunSteps(o, bound, Override(step.steps.list, items[0]), 0));
      if pass.error.Some? then pass else RunPasses(o, pass.m, step, name, items[1..])
  }

  /** The result `executeTestCase` records for a run of its steps. */
  function Report(name: string, out: Outcome): TestResult {
    TestResult(name, out.m.log, if out.error.None? then Passed else Failed)
  }

  // ---------------------------------------------------------------------
  // The executor object

  class TestExecutor {
    /** The action library the executor drives. */
    const oracle: Oracle
    var variables: map<string, string>
    /** The requests made to the action library so far. */
    var calls: seq<Call>
    var testResults: seq<TestResult>

    constructor(oracle: Oracle)
      ensures this.oracle == oracle
      ensures variables == map[] && calls == [] && testResults == []
    {
      this.oracle := oracle;
      variables := map[];
      calls := [];
      testResults := [];
    }

    /** `executeTestCase`: run the steps, catch their error, and append
        exactly one result, failed when the run threw. */
    method ExecuteTestCase(tc: TestCase)
      modifies this
      ensures var out := RunSteps(oracle, Machine(old(variables), old(calls), []), tc.steps, 0);
        variables == out.m.variables && calls == out.m.calls &&
        testResults == old(testResults) + [Report(tc.name, out)]
    {
      var log, error := ExecuteSteps(tc.steps, []);
      var status := if error.None? then Passed else Failed;
      testResults := testResults + [TestResult(tc.name, log, status)];
    }

    /** `executeSteps`: `log` is the step list of the test result under way;
        a non-`None` `error` is the exception that leaves the method. */
    method ExecuteSteps(steps: seq<TestStep>, log: seq<StepResult>) returns (log': seq<StepResult>, error: Option<string>)
      modifies this
      decreases ListSize(steps), 3, 0
      ensures Outcome(Machine(variables, calls, log'), error)
        == RunSteps(oracle, Machine(old(variables), old(calls), log), steps, 0)
      ensures testResults == old(testResults)
    {
      log', error := log, None;
      var rest := steps;
      var index := 0;
      while rest != []
        invariant ListSize(rest) <= ListSize(steps)
        invariant error.None? && testResults == old(testResults)
        invariant RunSteps(oracle, Machine(old(variables), old(calls), log), steps, 0)
          == RunSteps(oracle, Machine(variables, calls, log'), rest, index)
        decreases |rest|
      {
        log', error := ExecuteStep(rest[0], index, log');
        if error.Some? {
          return;
        }
        rest := rest[1..];
        index := index + 1;
      }
    }

    method ExecuteStep(step: TestStep, index: nat, log: seq<StepResult>) returns (log': seq<StepResult>, error: Option<string>)
      modifies this
      decreases StepSize(step), 2, 0
      ensures Outcome(Machine(variables, calls, log'), error)
        == RunStep(oracle, Machine(old(variables), old(calls), log), step, index)
      ensures testResults == old(testResults)
    {
      log', error := log, None;
      match step.kind {
        case Action => log', error := ExecuteAction(step, index, log);
        case If => log', error := ExecuteIf(step, log);
        case Loop => log', error := ExecuteLoop(step, log);
        case Else =>
        case EndIf =>
        case EndLoop =>
        case Unknown(name) => error := Some(UnknownStepType + name);
      }
    }

    method ExecuteAction(step: TestStep, index: nat, log: seq<StepResult>) returns (log': seq<StepResult>, error: Option<string>)
      modifies this
      ensures Outcome(Machine(variables, calls, log'), error)
        == RunAction(oracle, Machine(old(variables), old(calls), log), step, index)
      ensures testResults == old(testResults)
    {
      var parameters := if step.parameters.Some? then Substitute(variables, step.parameters.value) else [];
      var action := ReplaceVariables(variables, step.action.GetOr(""));
      var result := StepResult(index + 1, action, parameters, Passed, None);
      var call := Call(action, parameters);
      var verdict := oracle(calls, call);
      calls := calls + [call];
      if verdict.None? {
        log' := log + [result];
        error := None;
      } else {
        result := result.(status := Failed, error := verdict);
        log' := log + [result];
        error := verdict;
      }
    }

    method ExecuteIf(step: TestStep, log: seq<StepResult>) returns (log': seq<StepResult>, error: Option<string>)
      modifies this
      decreases StepSize(step), 1, 0
      ensures Outcome(Machine(variables, calls, log'), error)
        == RunIf(oracle, Machine(old(variables), old(calls), log), step)
      ensures testResults == old(testResults)
    {
      log', error := log, None;
      var condition := ReplaceVariables(variables, step.action.GetOr(""));
      var holds := EvaluateCondition(variables, condition);
      if holds {
        if step.steps.Children? {
          log', error := ExecuteSteps(step.steps.list, log);
        }
      } else if step.steps.Children? {
        var children := step.steps.list;
        var k := FindElse(children);
        if k.Some? && children[k.value].steps.Children? {
          ElementSize(children, k.value);
          log', error := ExecuteSteps(children[k.value].steps.list, log);
        }
      }
    }

    method ExecuteLoop(step: TestStep, log: seq<StepResult>) returns (log': seq<StepResult>, error: Option<string>)
      modifies this
      decreases StepSize(step), 1, 0
      ensures Outcome(Machine(variables, calls, log'), error)
        == RunLoop(oracle, Machine(old(variables), old(calls), log), step)
      ensures testResults == old(testResults)
    {
      log', error := log, None;
      var expr := ReplaceVariables(variables, step.action.GetOr(""));
      var items := GetLoopItems(expr);
      if items.Err? {
        error := Some(items.error);
        return;
      }
      var rest := items.value;
      while rest != []
        invariant error.None? && testResults == old(testResults)
        invariant RunLoop(oracle, Machine(old(variables), old(calls), log), step)
          == RunPasses(oracle, Machine(variables, calls, log'), step, LoopVariable(expr), rest)
        decreases |rest|
      {
        var name := LoopVariable(expr);
        variables := variables[name := rest[0]];
        if step.steps.Children? {
          OverrideSize(step.steps.list, rest[0]);
          log', error := ExecuteSteps(Override(step.steps.list, rest[0]), log');
          if error.Some? {
            return;
          }
        }
        rest := rest[1..];
      }
    }
  }
}
