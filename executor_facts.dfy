/** Properties of the interpreter of src/executor/executor.ts, stated over
    the reference semantics `RunSteps` that the methods of `TestExecutor`
    are proved equal to. */
module ExecutorFacts {
  import opened Wrappers
  import opened Text
  import opened Parser
  import opened Executor

  // ---------------------------------------------------------------------
  // Sequential composition and fail-fast

  /** Running two lists one after the other is running their
      concatenation; the second list is numbered on from the first, and it
      does not run at all when the first throws. */
  lemma {:induction false} StepsAppend(o: Oracle, m: Machine, xs: seq<TestStep>, ys: seq<TestStep>, index: nat)
    ensures RunSteps(o, m, xs + ys, index)
      == (var first := RunSteps(o, m, xs, index);
          if first.error.Some? then first else RunSteps(o, first.m, ys, index + |xs|))
    decreases |xs|
  {
    if xs == [] {
      assert xs + ys == ys;
    } else {
      assert (xs + ys)[0] == xs[0];
      assert (xs + ys)[1..] == xs[1..] + ys;
      var head := RunStep(o, m, xs[0], index);
      if head.error.None? {
        StepsAppend(o, head.m, xs[1..], ys, index + 1);
      }
    }
  }

  // ---------------------------------------------------------------------
  // What a run records

  function Last<T>(s: seq<T>): T
    requires s != []
  {
    s[|s| - 1]
  }

  /** A step result reports a request: same action, same parameters, and
      an error exactly when it failed. */
  ghost predicate Records(r: StepResult, c: Call) {
    r.action == c.action && r.parameters == c.parameters && (r.status == Passed <==> r.error.None?)
  }

  /** What a run adds to the state it starts from: the earlier results and
      requests are kept; one result is added per request, in the same
      order; every added result but the last passed; a failed last one
      carries the error the run ends with; and a run that ends without
      error added only passed results. */
  ghost predicate Tracks(m: Machine, out: Outcome) {
    && m.log <= out.m.log
    && m.calls <= out.m.calls
    && |out.m.calls| - |m.calls| == |out.m.log| - |m.log|
    && (forall j :: |m.log| <= j < |out.m.log| ==>
          Records(out.m.log[j], out.m.calls[j - |m.log| + |m.calls|]))
    && (forall j :: |m.log| <= j < |out.m.log| - 1 ==> out.m.log[j].status == Passed)
    && (|m.log| < |out.m.log| && Last(out.m.log).status == Failed ==> out.error == Last(out.m.log).error)
    && (out.error.None? ==> forall j :: |m.log| <= j < |out.m.log| ==> out.m.log[j].status == Passed)
  }

  lemma TracksIdle(m: Machine, out: Outcome)
    requires out.m.log == m.log && out.m.calls == m.calls
    ensures Tracks(m, out)
  {
  }

  lemma TracksCompose(m: Machine, mid: Outcome, out: Outcome)
    requires Tracks(m, mid) && mid.error.None? && Tracks(mid.m, out)
    ensures Tracks(m, out)
  {
  }

  lemma TracksAction(o: Oracle, m: Machine, step: TestStep, index: nat)
    ensures Tracks(m, RunAction(o, m, step, index))
  {
  }

  /** Every run of a step list keeps the record straight: see `Tracks`. */
  lemma {:induction false} StepsTrack(o: Oracle, m: Machine, steps: seq<TestStep>, index: nat)
    ensures Tracks(m, RunSteps(o, m, steps, index))
    decreases ListSize(steps), 3, 0
  {
    if steps == [] {
      TracksIdle(m, RunSteps(o, m, steps, index));
    } else {
      var first := RunStep(o, m, steps[0], index);
      StepTracks(o, m, steps[0], index);
      if first.error.None? {
        StepsTrack(o, first.m, steps[1..], index + 1);
        TracksCompose(m, first, RunSteps(o, first.m, steps[1..], index + 1));
      }
    }
  }

  lemma {:induction false} StepTracks(o: Oracle, m: Machine, step: TestStep, index: nat)
    ensures Tracks(m, RunStep(o, m, step, index))
    decreases StepSize(step), 2, 0
  {
    match step.kind
    case Action => TracksAction(o, m, step, index);
    case If => IfTracks(o, m, step);
    case Loop => LoopTracks(o, m, step);
    case Else => TracksIdle(m, RunStep(o, m, step, index));
    case EndIf => TracksIdle(m, RunStep(o, m, step, index));
    case EndLoop => TracksIdle(m, RunStep(o, m, step, index));
    case Unknown(_) => TracksIdle(m, RunStep(o, m, step, index));
  }

  lemma {:induction false} IfTracks(o: Oracle, m: Machine, step: TestStep)
    ensures Tracks(m, RunIf(o, m, step))
    decreases StepSize(step), 1, 0
  {
    var out := RunIf(o, m, step);
    if step.steps.NoChildren? {
      TracksIdle(m, out);
    } else {
      var children := step.steps.list;
      if EvaluateCondition(m.variables, ReplaceVariables(m.variables, step.action.GetOr(""))) {
        StepsTrack(o, m, children, 0);
      } else {
        match FindElse(children)
        case None => TracksIdle(m, out);
        case Some(k) =>
          if children[k].steps.NoChildren? {
            TracksIdle(m, out);
          } else {
            ElementSize(children, k);
            StepsTrack(o, m, children[k].steps.list, 0);
          }
      }
    }
  }

  lemma {:induction false} LoopTracks(o: Oracle, m: Machine, step: TestStep)
    ensures Tracks(m, RunLoop(o, m, step))
    decreases StepSize(step), 1, 0
  {
    var expr := ReplaceVariables(m.variables, step.action.GetOr(""));
    match GetLoopItems(expr)
    case Err(_) => TracksIdle(m, RunLoop(o, m, step));
    case Ok(items) => PassesTrack(o, m, step, LoopVariable(expr), items);
  }

  lemma {:induction false} PassesTrack(o: Oracle, m: Machine, step: TestStep, name: string, items: seq<string>)
    ensures Tracks(m, RunPasses(o, m, step, name, items))
    decreases StepSize(step), 0, |items|
  {
    if items == [] {
      TracksIdle(m, RunPasses(o, m, step, name, items));
    } else {
      var bound := m.(variables := m.variables[name := items[0]]);
      var pass :=
        if step.steps.NoChildren? then Outcome(bound, None)
        else RunSteps(o, bound, Override(step.steps.list, items[0]), 0);
      if step.steps.NoChildren? {
        TracksIdle(m, pass);
      } else {
        OverrideSize(step.steps.list, items[0]);
        StepsTrack(o, bound, Override(step.steps.list, items[0]), 0);
      }
      if pass.error.None? {
        PassesTrack(o, pass.m, step, name, items[1..]);
        TracksCompose(m, pass, RunPasses(o, pass.m, step, name, items[1..]));
      }
    }
  }

  /** The result `executeTestCase` appends: failed exactly when the run
      threw; a passed one lists only passed steps; every listed step reports
      one request made during the case, in order; and when the last listed
      step failed, its message is the error that ended the case. */
  lemma CaseReport(o: Oracle, variables: map<string, string>, calls: seq<Call>, tc: TestCase)
    ensures var out := RunSteps(o, Machine(variables, calls, []), tc.steps, 0);
      var r := Report(tc.name, out);
      && r.testName == tc.name
      && (r.status == Passed <==> out.error.None?)
      && (r.status == Passed ==> forall j :: 0 <= j < |r.steps| ==> r.steps[j].status == Passed)
      && (forall j :: 0 <= j < |r.steps| - 1 ==> r.steps[j].status == Passed)
      && |out.m.calls| == |calls| + |r.steps|
      && out.m.calls[..|calls|] == calls
      && (forall j :: 0 <= j < |r.steps| ==> Records(r.steps[j], out.m.calls[|calls| + j]))
      && (r.steps != [] && Last(r.steps).status == Failed ==> out.error == Last(r.steps).error)
  {
    var m := Machine(variables, calls, []);
    StepsTrack(o, m, tc.steps, 0);
  }

  // ---------------------------------------------------------------------
  // Dispatch

  /** An action makes exactly one request and appends exactly one result:
      numbered by its position plus one, with the substituted action and
      parameters, passed when the library succeeds, failed with the
      library's message (which the step then throws) otherwise. The
      variables are not touched. */
  lemma ActionRecordsOneResult(o: Oracle, m: Machine, step: TestStep, index: nat)
    requires step.kind == Action
    ensures var out := RunStep(o, m, step, index);
      var call := Call(ReplaceVariables(m.variables, step.action.GetOr("")),
                       if step.parameters.Some? then Substitute(m.variables, step.parameters.value) else []);
      var verdict := o(m.calls, call);
      && out.m.variables == m.variables
      && out.m.calls == m.calls + [call]
      && |out.m.log| == |m.log| + 1 && out.m.log[..|m.log|] == m.log
      && Last(out.m.log).stepNumber == index + 1
      && Last(out.m.log).action == call.action
      && Last(out.m.log).parameters == call.parameters
      && (Last(out.m.log).status == Passed <==> verdict.None?)
      && Last(out.m.log).error == verdict
      && out.error == verdict
  {
    var out := RunStep(o, m, step, index);
    assert out.m.log[..|m.log|] == m.log;
  }

  predicate IsMarker(kind: StepType) {
    kind == Else || kind == EndIf || kind == EndLoop
  }

  /** `else`, `endif` and `endloop` met directly in a list do nothing and
      record nothing. */
  lemma {:induction false} MarkersDoNothing(o: Oracle, m: Machine, steps: seq<TestStep>, index: nat)
    requires forall i :: 0 <= i < |steps| ==> IsMarker(steps[i].kind)
    ensures RunSteps(o, m, steps, index) == Outcome(m, None)
    decreases |steps|
  {
    if steps != [] {
      MarkersDoNothing(o, m, steps[1..], index + 1);
    }
  }

  /** A step of any other type throws `Неизвестный тип шага: <type>` before
      anything else happens, and the rest of the list does not run. */
  lemma UnknownTypeStops(o: Oracle, m: Machine, step: TestStep, rest: seq<TestStep>, index: nat)
    requires step.kind.Unknown?
    ensures RunSteps(o, m, [step] + rest, index) == Outcome(m, Some(UnknownStepType + step.kind.name))
  {
    assert ([step] + rest)[0] == step;
  }

  // ---------------------------------------------------------------------
  // Conditional blocks

  /** A true condition runs all children of the `if`, in order. */
  lemma IfTrueRunsChildren(o: Oracle, m: Machine, step: TestStep, index: nat, children: seq<TestStep>)
    requires step.kind == If && step.steps == Children(children)
    requires EvaluateCondition(m.variables, ReplaceVariables(m.variables, step.action.GetOr("")))
    ensures RunStep(o, m, step, index) == RunSteps(o, m, children, 0)
  {
  }

  /** An `else` child among the children run by a true condition is
      skipped; the children after it are numbered by their position. */
  lemma ElseChildSkipped(o: Oracle, m: Machine, pre: seq<TestStep>, e: TestStep, post: seq<TestStep>, index: nat)
    requires e.kind == Else
    ensures RunSteps(o, m, pre + [e] + post, index)
      == (var first := RunSteps(o, m, pre, index);
          if first.error.Some? then first else RunSteps(o, first.m, post, index + |pre| + 1))
  {
    StepsAppend(o, m, pre + [e], post, index);
    StepsAppend(o, m, pre, [e], index);
    var first := RunSteps(o, m, pre, index);
    if first.error.None? {
      assert RunSteps(o, first.m, [e], index + |pre|) == Outcome(first.m, None) by {
        assert [e][1..] == [];
      }
    }
  }

  /** A false condition runs only the children of the first `else` child. */
  lemma IfFalseRunsFirstElse(o: Oracle, m: Machine, step: TestStep, index: nat,
                             children: seq<TestStep>, k: nat, body: seq<TestStep>)
    requires step.kind == If && step.steps == Children(children)
    requires !EvaluateCondition(m.variables, ReplaceVariables(m.variables, step.action.GetOr("")))
    requires k < |children| && children[k].kind == Else && children[k].steps == Children(body)
    requires forall j :: 0 <= j < k ==> children[j].kind != Else
    ensures RunStep(o, m, step, index) == RunSteps(o, m, body, 0)
  {
  }

  /** A false condition with no `else` child runs nothing. */
  lemma IfFalseWithoutElse(o: Oracle, m: Machine, step: TestStep, index: nat, children: seq<TestStep>)
    requires step.kind == If && step.steps == Children(children)
    requires !EvaluateCondition(m.variables, ReplaceVariables(m.variables, step.action.GetOr("")))
    requires forall j :: 0 <= j < |children| ==> children[j].kind != Else
    ensures RunStep(o, m, step, index) == Outcome(m, None)
  {
  }

  // ---------------------------------------------------------------------
  // Loops

  /** The passes run in item order: the passes over `xs + ys` are those
      over `xs` followed by those over `ys`, unless one of the first throws. */
  lemma {:induction false} PassesInOrder(o: Oracle, m: Machine, step: TestStep, name: string,
                                         xs: seq<string>, ys: seq<string>)
    ensures RunPasses(o, m, step, name, xs + ys)
      == (var first := RunPasses(o, m, step, name, xs);
          if first.error.Some? then first else RunPasses(o, first.m, step, name, ys))
    decreases |xs|
  {
    if xs == [] {
      assert xs + ys == ys;
    } else {
      assert (xs + ys)[0] == xs[0];
      assert (xs + ys)[1..] == xs[1..] + ys;
      var bound := m.(variables := m.variables[name := xs[0]]);
      var pass :=
        if step.steps.NoChildren? then Outcome(bound, None)
        else RunSteps(o, bound, Override(step.steps.list, xs[0]), 0);
      if pass.error.None? {
        PassesInOrder(o, pass.m, step, name, xs[1..], ys);
      }
    }
  }

  predicate AllActions(steps: seq<TestStep>) {
    forall i :: 0 <= i < |steps| ==> steps[i].kind == Action
  }

  /** A list of plain actions leaves the variables as they were. */
  lemma {:induction false} ActionsKeepVariables(o: Oracle, m: Machine, steps: seq<TestStep>, index: nat)
    requires AllActions(steps)
    ensures RunSteps(o, m, steps, index).m.variables == m.variables
    decreases |steps|
  {
    if steps != [] {
      var first := RunStep(o, m, steps[0], index);
      if first.error.None? {
        ActionsKeepVariables(o, first.m, steps[1..], index + 1);
      }
    }
  }

  /** Passes over a body of plain actions leave every variable as it was
      except the loop variable, which holds the last item. */
  lemma {:induction false} PassesOfActionsBindLast(o: Oracle, m: Machine, step: TestStep, name: string, items: seq<string>)
    requires step.steps.Children? ==> AllActions(step.steps.list)
    requires items != []
    requires RunPasses(o, m, step, name, items).error.None?
    ensures RunPasses(o, m, step, name, items).m.variables == m.variables[name := Last(items)]
    decreases |items|
  {
    var bound := m.(variables := m.variables[name := items[0]]);
    var pass :=
      if step.steps.NoChildren? then Outcome(bound, None)
      else RunSteps(o, bound, Override(step.steps.list, items[0]), 0);
    if step.steps.Children? {
      assert AllActions(Override(step.steps.list, items[0]));
      ActionsKeepVariables(o, bound, Override(step.steps.list, items[0]), 0);
    }
    assert pass.m.variables == m.variables[name := items[0]];
    if |items| > 1 {
      PassesOfActionsBindLast(o, pass.m, step, name, items[1..]);
      assert Last(items[1..]) == Last(items);
    }
  }

  /** After a loop over plain actions that ran without error, its variable
      (the trimmed text before ` в `) holds the last item and every other
      variable is as before. */
  lemma LoopOfActionsBindsLast(o: Oracle, m: Machine, step: TestStep, index: nat, items: seq<string>)
    requires step.kind == Loop
    requires step.steps.Children? ==> AllActions(step.steps.list)
    requires GetLoopItems(ReplaceVariables(m.variables, step.action.GetOr(""))) == Ok(items)
    requires items != []
    requires RunStep(o, m, step, index).error.None?
    ensures RunStep(o, m, step, index).m.variables
      == m.variables[LoopVariable(ReplaceVariables(m.variables, step.action.GetOr(""))) := Last(items)]
  {
    PassesOfActionsBindLast(o, m, step, LoopVariable(ReplaceVariables(m.variables, step.action.GetOr(""))), items);
  }

  // Bodies of any shape

  /** No loop at any depth of the step can rebind `name`: every loop header
      is free of placeholders, so its variable is fixed by the text, and that
      variable is not `name`. */
  predicate StepKeeps(name: string, s: TestStep)
    decreases s
  {
    (s.kind == Loop ==> '{' !in s.action.GetOr("") && LoopVariable(s.action.GetOr("")) != name)
    && (s.steps.Children? ==> ListKeeps(name, s.steps.list))
  }

  predicate ListKeeps(name: string, l: seq<TestStep>)
    decreases l
  {
    forall i :: 0 <= i < |l| ==> StepKeeps(name, l[i])
  }

  /** `name` has the same value, or is unset, in both maps. */
  predicate SameAt(name: string, a: map<string, string>, b: map<string, string>) {
    (name in a <==> name in b) && (name in a ==> a[name] == b[name])
  }

  lemma {:induction false} OverrideKeeps(name: string, body: seq<TestStep>, item: string)
    requires ListKeeps(name, body)
    ensures ListKeeps(name, Override(body, item))
  {
    forall i | 0 <= i < |body|
      ensures StepKeeps(name, Override(body, item)[i])
    {
      assert StepKeeps(name, body[i]);
    }
  }

  /** A list in which no loop rebinds `name` leaves `name` alone, however
      deeply its ifs and loops nest. */
  lemma {:induction false} StepsKeep(o: Oracle, m: Machine, steps: seq<TestStep>, index: nat, name: string)
    requires ListKeeps(name, steps)
    ensures SameAt(name, RunSteps(o, m, steps, index).m.variables, m.variables)
    decreases ListSize(steps), 3, 0
  {
    if steps != [] {
      assert StepKeeps(name, steps[0]);
      var first := RunStep(o, m, steps[0], index);
      StepKeepsVariable(o, m, steps[0], index, name);
      if first.error.None? {
        assert ListKeeps(name, steps[1..]) by {
          forall i | 0 <= i < |steps[1..]|
            ensures StepKeeps(name, steps[1..][i])
          {
            assert steps[1..][i] == steps[i + 1];
          }
        }
        StepsKeep(o, first.m, steps[1..], index + 1, name);
      }
    }
  }

  lemma {:induction false} StepKeepsVariable(o: Oracle, m: Machine, step: TestStep, index: nat, name: string)
    requires StepKeeps(name, step)
    ensures SameAt(name, RunStep(o, m, step, index).m.variables, m.variables)
    decreases StepSize(step), 2, 0
  {
    match step.kind
    case If => IfKeeps(o, m, step, name);
    case Loop => LoopKeeps(o, m, step, name);
    case _ =>
  }

  lemma {:induction false} IfKeeps(o: Oracle, m: Machine, step: TestStep, name: string)
    requires StepKeeps(name, step)
    ensures SameAt(name, RunIf(o, m, step).m.variables, m.variables)
    decreases StepSize(step), 1, 0
  {
    if step.steps.Children? {
      var children := step.steps.list;
      if EvaluateCondition(m.variables, ReplaceVariables(m.variables, step.action.GetOr(""))) {
        StepsKeep(o, m, children, 0, name);
      } else {
        match FindElse(children)
        case None =>
        case Some(k) =>
          if children[k].steps.Children? {
            assert StepKeeps(name, children[k]);
            ElementSize(children, k);
            StepsKeep(o, m, children[k].steps.list, 0, name);
          }
      }
    }
  }

  lemma {:induction false} LoopKeeps(o: Oracle, m: Machine, step: TestStep, name: string)
    requires step.kind == Loop && StepKeeps(name, step)
    ensures SameAt(name, RunLoop(o, m, step).m.variables, m.variables)
    decreases StepSize(step), 1, 0
  {
    var text := step.action.GetOr("");
    NoPlaceholders(m.variables, text);
    match GetLoopItems(ReplaceVariables(m.variables, text))
    case Err(_) =>
    case Ok(items) => PassesKeep(o, m, step, LoopVariable(text), items, name);
  }

  lemma {:induction false} PassesKeep(o: Oracle, m: Machine, step: TestStep, loopName: string, items: seq<string>, name: string)
    requires loopName != name
    requires step.steps.Children? ==> ListKeeps(name, step.steps.list)
    ensures SameAt(name, RunPasses(o, m, step, loopName, items).m.variables, m.variables)
    decreases StepSize(step), 0, |items|
  {
    if items != [] {
      var bound := m.(variables := m.variables[loopName := items[0]]);
      var pass :=
        if step.steps.NoChildren? then Outcome(bound, None)
        else RunSteps(o, bound, Override(step.steps.list, items[0]), 0);
      if step.steps.Children? {
        OverrideSize(step.steps.list, items[0]);
        OverrideKeeps(name, step.steps.list, items[0]);
        StepsKeep(o, bound, Override(step.steps.list, items[0]), 0, name);
      }
      assert SameAt(name, pass.m.variables, m.variables);
      if pass.error.None? {
        PassesKeep(o, pass.m, step, loopName, items[1..], name);
      }
    }
  }

  /** Passes that threw nothing leave the last item in the loop variable,
      whatever ifs and loops the body holds, as long as none of its loops
      rebinds that variable. */
  lemma {:induction false} PassesBindLast(o: Oracle, m: Machine, step: TestStep, name: string, items: seq<string>)
    requires step.steps.Children? ==> ListKeeps(name, step.steps.list)
    requires items != []
    ensures var out := RunPasses(o, m, step, name, items);
      out.error.None? ==> name in out.m.variables && out.m.variables[name] == Last(items)
    decreases |items|
  {
    var bound := m.(variables := m.variables[name := items[0]]);
    var pass :=
      if step.steps.NoChildren? then Outcome(bound, None)
      else RunSteps(o, bound, Override(step.steps.list, items[0]), 0);
    if step.steps.Children? {
      OverrideKeeps(name, step.steps.list, items[0]);
      StepsKeep(o, bound, Override(step.steps.list, items[0]), 0, name);
    }
    assert SameAt(name, pass.m.variables, bound.variables);
    if |items| > 1 && pass.error.None? {
      PassesBindLast(o, pass.m, step, name, items[1..]);
      assert Last(items[1..]) == Last(items);
    }
  }

  /** After a loop that ran without error, its variable (the trimmed text
      before ` в `) holds the last item, whatever the body holds, as long as
      no loop inside rebinds that variable. */
  lemma LoopBindsLastItem(o: Oracle, m: Machine, step: TestStep, index: nat, items: seq<string>)
    requires step.kind == Loop
    requires GetLoopItems(ReplaceVariables(m.variables, step.action.GetOr(""))) == Ok(items)
    requires items != []
    requires step.steps.Children? ==>
      ListKeeps(LoopVariable(ReplaceVariables(m.variables, step.action.GetOr(""))), step.steps.list)
    ensures var name := LoopVariable(ReplaceVariables(m.variables, step.action.GetOr("")));
      var out := RunStep(o, m, step, index);
      out.error.None? ==> name in out.m.variables && out.m.variables[name] == Last(items)
  {
    PassesBindLast(o, m, step, LoopVariable(ReplaceVariables(m.variables, step.action.GetOr(""))), items);
  }

  /** One pass over a one-action body. */
  lemma OnePass(o: Oracle, bound: Machine, a: TestStep, item: string)
    requires a.kind == Action
    ensures RunSteps(o, bound, Override([a], item), 0).m.calls
      == bound.calls + [Call(ReplaceVariables(bound.variables, a.action.GetOr("")), [ReplaceVariables(bound.variables, item)])]
  {
    var copy := a.(parameters := Some([item]));
    assert Override([a], item) == [copy];
    assert Substitute(bound.variables, [item]) == [ReplaceVariables(bound.variables, item)];
    assert RunSteps(o, bound, [copy], 0) == RunStep(o, bound, copy, 0) by {
      assert [copy][1..] == [];
    }
  }

  lemma OneItem(o: Oracle, m: Machine, step: TestStep, name: string, item: string)
    requires step.steps.Children?
    ensures RunPasses(o, m, step, name, [item])
      == RunSteps(o, m.(variables := m.variables[name := item]), Override(step.steps.list, item), 0)
  {
    assert [item][1..] == [];
  }

  /** In a pass, a body action's own parameters are ignored: its request
      carries exactly the item (after substitution), under the binding of
      the loop variable to that item. */
  lemma LoopOverridesParameters(o: Oracle, m: Machine, step: TestStep, index: nat, item: string, a: TestStep)
    requires step.kind == Loop && step.steps == Children([a]) && a.kind == Action
    requires GetLoopItems(ReplaceVariables(m.variables, step.action.GetOr(""))) == Ok([item])
    ensures var vars := m.variables[LoopVariable(ReplaceVariables(m.variables, step.action.GetOr(""))) := item];
      RunStep(o, m, step, index).m.calls
        == m.calls + [Call(ReplaceVariables(vars, a.action.GetOr("")), [ReplaceVariables(vars, item)])]
  {
    var name := LoopVariable(ReplaceVariables(m.variables, step.action.GetOr("")));
    assert RunStep(o, m, step, index) == RunPasses(o, m, step, name, [item]);
    OneItem(o, m, step, name, item);
    OnePass(o, m.(variables := m.variables[name := item]), a, item);
  }

  // ---------------------------------------------------------------------
  // Substitution

  /** Text without `{` comes out unchanged. */
  lemma {:induction false} NoPlaceholders(vars: map<string, string>, text: string)
    requires '{' !in text
    ensures ReplaceVariables(vars, text) == text
    decreases |text|
  {
    if text != [] {
      NoPlaceholders(vars, text[1..]);
    }
  }

  /** With no variable bound, every placeholder is kept: the text comes
      out unchanged. */
  lemma {:induction false} NothingBound(text: string)
    ensures ReplaceVariables(map[], text) == text
    decreases |text|
  {
    if text != [] {
      if text[0] != '{' {
        NothingBound(text[1..]);
      } else {
        match CloseBrace(text[1..])
        case None =>
          NothingBound(text[1..]);
        case Some(j) =>
          NothingBound(text[j + 2..]);
          assert text == text[..j + 2] + text[j + 2..];
      }
    }
  }

  lemma {:induction false} CloseAfter(name: string, rest: string)
    requires '}' !in name && forall i :: 0 <= i < |name| ==> !IsLineTerminator(name[i])
    ensures CloseBrace(name + "}" + rest) == Some(|name|)
    decreases |name|
  {
    if name != [] {
      assert (name + "}" + rest)[1..] == name[1..] + "}" + rest;
      CloseAfter(name[1..], rest);
    }
  }

  /** A placeholder whose trimmed name is bound becomes the value, as it
      stands (a value is not scanned again); scanning goes on after the
      closing brace. */
  lemma BoundPlaceholder(vars: map<string, string>, name: string, rest: string)
    requires '}' !in name && forall i :: 0 <= i < |name| ==> !IsLineTerminator(name[i])
    requires Trim(name) in vars
    ensures ReplaceVariables(vars, "{" + name + "}" + rest) == vars[Trim(name)] + ReplaceVariables(vars, rest)
  {
    var text := "{" + name + "}" + rest;
    assert text[1..] == name + "}" + rest;
    CloseAfter(name, rest);
    assert text[1..|name| + 1] == name;
    assert text[|name| + 2..] == rest;
  }

  /** A placeholder whose trimmed name is unbound is kept verbatim. */
  lemma UnboundPlaceholder(vars: map<string, string>, name: string, rest: string)
    requires '}' !in name && forall i :: 0 <= i < |name| ==> !IsLineTerminator(name[i])
    requires Trim(name) !in vars
    ensures ReplaceVariables(vars, "{" + name + "}" + rest) == "{" + name + "}" + ReplaceVariables(vars, rest)
  {
    var text := "{" + name + "}" + rest;
    assert text[1..] == name + "}" + rest;
    CloseAfter(name, rest);
    assert text[1..|name| + 1] == name;
    assert text[..|name| + 2] == "{" + name + "}";
    assert text[|name| + 2..] == rest;
  }

  // ---------------------------------------------------------------------
  // Conditions

  /** The Russian title test: true exactly when the title contains the
      rest of the condition with its quotes removed. */
  lemma RussianTitleTest(vars: map<string, string>, rest: string)
    ensures EvaluateCondition(vars, RussianTitleCondition + rest)
      <==> exists k :: OccursAt(Title(vars), Remove(rest, '"'), k)
  {
    var c := RussianTitleCondition + rest;
    assert |RussianTitleCondition| == 28;
    assert c[..28] == RussianTitleCondition;
    assert c[28..] == rest;
    assert StartsWith(c, RussianTitleCondition);
    assert Substring(c, 28) == rest;
    assert EvaluateCondition(vars, c) == Contains(Title(vars), Remove(rest, '"'));
    ContainsIff(Title(vars), Remove(rest, '"'));
  }

  /** The English title test, likewise. */
  lemma EnglishTitleTest(vars: map<string, string>, rest: string)
    ensures EvaluateCondition(vars, EnglishTitleCondition + rest)
      <==> exists k :: OccursAt(Title(vars), Remove(rest, '"'), k)
  {
    var c := EnglishTitleCondition + rest;
    assert |EnglishTitleCondition| == 20;
    assert c[..20] == EnglishTitleCondition;
    assert c[0] == 'p';
    assert c[0] != RussianTitleCondition[0];
    assert c[20..] == rest;
    assert Substring(c, 20) == rest;
    assert EvaluateCondition(vars, c) == Contains(Title(vars), Remove(rest, '"'));
    ContainsIff(Title(vars), Remove(rest, '"'));
  }

  /** The evaluator is permissive: only the two title tests can be false. */
  lemma OnlyTitleTestsFail(vars: map<string, string>, condition: string)
    requires !EvaluateCondition(vars, condition)
    ensures StartsWith(condition, RussianTitleCondition) || StartsWith(condition, EnglishTitleCondition)
  {
  }

  // ---------------------------------------------------------------------
  // Loop headers

  predicate OneLine(s: string) {
    forall i :: 0 <= i < |s| ==> !IsLineTerminator(s[i])
  }

  lemma {:induction false} LineEndWhole(s: string)
    requires OneLine(s)
    ensures LineEnd(s) == |s|
    decreases |s|
  {
    if s != [] {
      LineEndWhole(s[1..]);
    }
  }

  /** The first occurrence of a separator ending in `[` after a name without
      `[` is right after the name. */
  lemma FirstSeparator(name: string, sep: string, tail: string)
    requires sep != [] && sep[|sep| - 1] == '[' && '[' !in sep[..|sep| - 1]
    requires '[' !in name
    ensures IndexOf(name + sep + tail, sep) == Some(|name|)
  {
    var s := name + sep + tail;
    assert OccursAt(s, sep, |name|) by {
      assert s[|name|..|name| + |sep|] == sep;
    }
    forall k | 0 <= k < |name|
      ensures !OccursAt(s, sep, k)
    {
      var j := k + |sep| - 1;
      if j < |name| {
        assert s[j] == name[j];
      } else {
        assert s[j] == sep[j - |name|];
        assert sep[j - |name|] in sep[..|sep| - 1];
      }
      assert s[j] != '[';
    }
  }

  lemma HeaderList(name: string, sep: string, inner: string)
    requires sep != [] && sep[|sep| - 1] == '[' && '[' !in sep[..|sep| - 1]
    requires '[' !in name
    requires OneLine(name + sep + inner + "]")
    ensures LoopList(name + sep + inner + "]", sep) == Some(inner)
  {
    var s := name + sep + inner + "]";
    LineEndWhole(s);
    assert s[..|s|] == s;
    assert s == name + sep + (inner + "]");
    FirstSeparator(name, sep, inner + "]");
    assert LastIndexOfChar(s, ']') == Some(|s| - 1);
    assert s[|name| + |sep|..|s| - 1] == inner;
  }

  /** `name в [list]` on one line, with no `[` in the name: the items of the
      list, and the loop variable is the trimmed name. */
  lemma RussianHeader(name: string, inner: string)
    requires '[' !in name && ' ' !in name
    requires OneLine(name + RussianLoopSeparator + inner + "]")
    ensures GetLoopItems(name + RussianLoopSeparator + inner + "]") == Ok(Items(inner))
    ensures LoopVariable(name + RussianLoopSeparator + inner + "]") == Trim(name)
  {
    var s := name + RussianLoopSeparator + inner + "]";
    assert RussianLoopSeparator[..3] == " в ";
    HeaderList(name, RussianLoopSeparator, inner);
    assert s == name + " в " + ("[" + inner + "]");
    assert IndexOf(s, " в ") == Some(|name|) by {
      assert OccursAt(s, " в ", |name|) by {
        assert s[|name|..|name| + 3] == " в ";
      }
      forall k | 0 <= k < |name|
        ensures !OccursAt(s, " в ", k)
      {
        assert s[k] == name[k] && name[k] in name;
        assert k + 3 <= |s| ==> s[k..k + 3][0] == s[k];
      }
    }
    assert s[..|name|] == name;
  }

  /** `name in [list]` on one line with no `в` anywhere: the English form is
      the one tried next. */
  lemma EnglishHeader(name: string, inner: string)
    requires '[' !in name
    requires 'в' !in name && 'в' !in inner
    requires OneLine(name + EnglishLoopSeparator + inner + "]")
    ensures GetLoopItems(name + EnglishLoopSeparator + inner + "]") == Ok(Items(inner))
  {
    var s := name + EnglishLoopSeparator + inner + "]";
    assert 'в' !in s;
    assert LoopList(s, RussianLoopSeparator) == None by {
      LineEndWhole(s);
      assert s[..|s|] == s;
      forall k | 0 <= k && k + 4 <= |s|
        ensures !OccursAt(s, RussianLoopSeparator, k)
      {
        assert s[k + 1] in s;
      }
    }
    HeaderList(name, EnglishLoopSeparator, inner);
  }

  /** `[]` yields one empty item. */
  lemma EmptyListOneItem(name: string)
    requires '[' !in name && ' ' !in name
    requires OneLine(name + RussianLoopSeparator + "]")
    ensures GetLoopItems(name + " в []") == Ok([""])
  {
    assert name + " в []" == name + RussianLoopSeparator + "" + "]" == name + RussianLoopSeparator + "]";
    RussianHeader(name, "");
    assert Split("", ',') == [""];
    assert Trim("") == "" && Remove("", '"') == "";
    assert Items("") == [""];
  }

  /** No line holds the separator when one of its characters is missing
      from the whole text. */
  lemma {:induction false} MissingCharNoList(expr: string, sep: string, c: char)
    requires c in sep && c !in expr
    ensures LoopList(expr, sep) == None
    decreases |expr|
  {
    var n := LineEnd(expr);
    var line := expr[..n];
    assert IndexOf(line, sep) == None by {
      var j :| 0 <= j < |sep| && sep[j] == c;
      forall k | 0 <= k && k + |sep| <= |line|
        ensures !OccursAt(line, sep, k)
      {
        assert line[k + j] == expr[k + j];
        assert expr[k + j] in expr;
      }
    }
    if n < |expr| {
      MissingCharNoList(expr[n + 1..], sep, c);
    }
  }

  /** A header without `[` is rejected, the message naming it. */
  lemma NoBracketRejected(expr: string)
    requires '[' !in expr
    ensures GetLoopItems(expr) == Err(LoopError + expr)
  {
    assert RussianLoopSeparator[3] == '[' && EnglishLoopSeparator[4] == '[';
    MissingCharNoList(expr, RussianLoopSeparator, '[');
    MissingCharNoList(expr, EnglishLoopSeparator, '[');
  }

  /** One item per comma-separated piece, none holding a quote. */
  lemma ItemsShape(inner: string)
    ensures |Items(inner)| == multiset(inner)[','] + 1
    ensures forall i :: 0 <= i < |Items(inner)| ==> '"' !in Items(inner)[i]
  {
    SplitCount(inner, ',');
  }

  // ---------------------------------------------------------------------
  // Formatting

  /** The parameter filter keeps the shown parameters in order, each as
      many times as it occurs: it distributes over concatenation and keeps a
      single parameter exactly when it is shown. */
  lemma {:induction false} ShownOnlyAppend(a: seq<string>, b: seq<string>)
    ensures ShownOnly(a + b) == ShownOnly(a) + ShownOnly(b)
    decreases |a|
  {
    if a == [] {
      assert a + b == b;
    } else {
      assert (a + b)[0] == a[0];
      assert (a + b)[1..] == a[1..] + b;
      ShownOnlyAppend(a[1..], b);
    }
  }

  lemma ShownOnlyOne(p: string)
    ensures ShownOnly([p]) == if Shown(p) then [p] else []
  {
  }

  /** `formatParameters` prints nothing exactly when every parameter is
      empty or `{}`, and otherwise a bracketed list. */
  lemma FormatNothing(ps: seq<string>)
    ensures FormatParameters(ps) == "" <==> forall i :: 0 <= i < |ps| ==> !Shown(ps[i])
    ensures FormatParameters(ps) != "" ==> FormatParameters(ps)[..2] == " [" && Last(FormatParameters(ps)) == ']'
  {
    var shown := ShownOnly(ps);
    if |shown| > 0 {
      assert shown[0] in shown;
    } else {
      forall i | 0 <= i < |ps| ensures !Shown(ps[i]) {
        assert ps[i] in ps;
      }
    }
  }
}
