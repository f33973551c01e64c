/** The block parser of src/parser/parser.ts: script text in, an ordered
    list of test cases out, each holding a tree of steps rebuilt from flat
    lines with a stack of "current children list" frames. */
module Parser {
  import opened Wrappers
  import opened Text

  /** The `type` tag of a step. `Unknown` stands for any other tag a step
      built outside the parser may carry. */
  datatype StepType = Action | If | Else | EndIf | Loop | EndLoop | Unknown(name: string)

  /** A step as the TypeScript record has it: every field but the tag is
      optional. */
  datatype TestStep = TestStep(
    kind: StepType,
    action: Option<string>,
    parameters: Option<seq<string>>,
    steps: Children)

  /** The optional `steps` field of a block step: absent, or its list of
      children. */
  datatype Children = NoChildren | Children(list: seq<TestStep>)

  datatype TestCase = TestCase(name: string, steps: seq<TestStep>)

  /** The error JavaScript raises when a line is appended while the frame
      stack is empty (`currentSteps` is `undefined`). */
  const PushError: string := "Cannot read properties of undefined (reading 'push')"

  // ---------------------------------------------------------------------
  // Parameter extraction: the regular expression /"([^"]+)"|(\d+)/g

  predicate IsDigit(c: char) {
    '0' <= c <= '9'
  }

  /** One stretch of an action line as the global regular expression sees
      it: a character no match covers, a quoted literal, or a digit run. */
  datatype Segment = Plain(c: char) | Quoted(text: string) | Digits(text: string)

  /** The length of the digit run that starts `s`. */
  function DigitRun(s: string): (n: nat)
    ensures n <= |s|
    ensures forall i :: 0 <= i < n ==> IsDigit(s[i])
    ensures n < |s| ==> !IsDigit(s[n])
  {
    if s != [] && IsDigit(s[0]) then 1 + DigitRun(s[1..]) else 0
  }

  /** The length of the quote-free text that starts `s`. */
  function QuoteFreeRun(s: string): (n: nat)
    ensures n <= |s|
    ensures '"' !in s[..n]
    ensures n < |s| ==> s[n] == '"'
  {
    if s != [] && s[0] != '"' then 1 + QuoteFreeRun(s[1..]) else 0
  }

  /** What the regular expression does at the start of `s`: the segment
      there and how many characters it covers. The quoted alternative is
      tried first: a quote, at least one non-quote, a closing quote. Then a
      greedy digit run. Otherwise no match starts here and the scan moves one
      character on. */
  function Head(s: string): (r: (Segment, nat))
    requires s != []
    ensures 1 <= r.1 <= |s|
  {
    var k := QuoteFreeRun(s[1..]);
    if s[0] == '"' && 0 < k < |s| - 1 then (Quoted(s[1..k + 1]), k + 2)
    else if IsDigit(s[0]) then (Digits(s[..DigitRun(s)]), DigitRun(s))
    else (Plain(s[0]), 1)
  }

  /** The matches of the regular expression, left to right, with the text
      between them. */
  function Scan(s: string): (r: seq<Segment>)
    decreases |s|
  {
    if s == [] then [] else [Head(s).0] + Scan(s[Head(s).1..])
  }

  function RenderOne(seg: Segment): string {
    match seg
    case Plain(c) => [c]
    case Quoted(t) => "\"" + t + "\""
    case Digits(t) => t
  }

  /** The text a sequence of segments was scanned from. */
  function Render(segs: seq<Segment>): string {
    if segs == [] then [] else RenderOne(segs[0]) + Render(segs[1..])
  }

  /** The captured group of a match; nothing for a plain character. */
  function CaptureOne(seg: Segment): seq<string> {
    match seg
    case Plain(_) => []
    case Quoted(t) => [t]
    case Digits(t) => [t]
  }

  /** The captured groups of the matches, in order. */
  function Captures(segs: seq<Segment>): seq<string> {
    if segs == [] then [] else CaptureOne(segs[0]) + Captures(segs[1..])
  }

  /** A match becomes `{}`; a plain character stays. */
  function PlaceholderOne(seg: Segment): string {
    match seg
    case Plain(c) => [c]
    case _ => "{}"
  }

  /** The line with every match replaced by `{}` (before trimming). */
  function Placeholders(segs: seq<Segment>): string {
    if segs == [] then [] else PlaceholderOne(segs[0]) + Placeholders(segs[1..])
  }

  /** One step of the scan, unfolded. */
  lemma ScanHead(s: string)
    requires s != []
    ensures Scan(s) == [Head(s).0] + Scan(s[Head(s).1..])
  {
  }

  lemma CapturesHead(s: string)
    requires s != []
    ensures Captures(Scan(s)) == CaptureOne(Head(s).0) + Captures(Scan(s[Head(s).1..]))
  {
    var rest := Scan(s[Head(s).1..]);
    assert ([Head(s).0] + rest)[1..] == rest;
  }

  lemma PlaceholdersHead(s: string)
    requires s != []
    ensures Placeholders(Scan(s)) == PlaceholderOne(Head(s).0) + Placeholders(Scan(s[Head(s).1..]))
  {
    var rest := Scan(s[Head(s).1..]);
    assert ([Head(s).0] + rest)[1..] == rest;
  }

  lemma RenderHead(s: string)
    requires s != []
    ensures Render(Scan(s)) == RenderOne(Head(s).0) + Render(Scan(s[Head(s).1..]))
  {
    var rest := Scan(s[Head(s).1..]);
    assert ([Head(s).0] + rest)[1..] == rest;
  }

  /** What a segment may hold: a quoted literal is non-empty and quote-free,
      a digit run is non-empty and all digits. */
  predicate WellFormed(seg: Segment) {
    match seg
    case Plain(_) => true
    case Quoted(t) => t != [] && '"' !in t
    case Digits(t) => t != [] && forall i :: 0 <= i < |t| ==> IsDigit(t[i])
  }

  /** `parameters` of extractActionAndParameters. */
  function ParametersOf(line: string): seq<string> {
    Captures(Scan(line))
  }

  /** `action` of extractActionAndParameters. */
  function TemplateOf(line: string): string {
    Trim(Placeholders(Scan(line)))
  }

  /** The segment at the start of `s` is exactly the text it covers, and a
      real match of its alternative. */
  lemma HeadCovers(s: string)
    requires s != []
    ensures RenderOne(Head(s).0) == s[..Head(s).1]
    ensures WellFormed(Head(s).0)
  {
    var k := QuoteFreeRun(s[1..]);
    if s[0] == '"' && 0 < k < |s| - 1 {
      assert s[..k + 2] == "\"" + s[1..k + 1] + "\"";
      assert s[1..k + 1] == s[1..][..k];
    }
  }

  lemma SplitAt<T>(s: seq<T>, n: nat)
    requires n <= |s|
    ensures s[..n] + s[n..] == s
  {
  }

  /** Scanning loses nothing: the segments put back together are the line. */
  lemma {:induction false} ScanRender(s: string)
    ensures Render(Scan(s)) == s
    decreases |s|
  {
    if s != [] {
      var n := Head(s).1;
      RenderHead(s);
      HeadCovers(s);
      ScanRender(s[n..]);
      SplitAt(s, n);
    }
  }

  /** Every segment of a scan is a real match of its alternative. */
  lemma {:induction false} ScanWellFormed(s: string)
    ensures forall i :: 0 <= i < |Scan(s)| ==> WellFormed(Scan(s)[i])
    decreases |s|
  {
    if s != [] {
      ScanHead(s);
      HeadCovers(s);
      ScanWellFormed(s[Head(s).1..]);
    }
  }

  lemma {:induction false} CapturesWellFormed(segs: seq<Segment>)
    requires forall i :: 0 <= i < |segs| ==> WellFormed(segs[i])
    ensures forall i :: 0 <= i < |Captures(segs)| ==>
      Captures(segs)[i] != [] &&
      ('"' !in Captures(segs)[i] || forall k :: 0 <= k < |Captures(segs)[i]| ==> IsDigit(Captures(segs)[i][k]))
  {
    if segs != [] {
      CapturesWellFormed(segs[1..]);
      assert WellFormed(segs[0]);
    }
  }

  /** Every extracted parameter is a non-empty quote-free literal or a
      non-empty run of digits. */
  lemma ParametersShape(line: string)
    ensures forall i :: 0 <= i < |ParametersOf(line)| ==>
      ParametersOf(line)[i] != [] &&
      ('"' !in ParametersOf(line)[i] ||
       forall k :: 0 <= k < |ParametersOf(line)[i]| ==> IsDigit(ParametersOf(line)[i][k]))
  {
    ScanWellFormed(line);
    CapturesWellFormed(Scan(line));
  }

  /** A line with neither quotes nor digits has no parameters and is its
      own template (once trimmed). */
  lemma {:induction false} NoLiterals(s: string)
    requires '"' !in s && forall i :: 0 <= i < |s| ==> !IsDigit(s[i])
    ensures Captures(Scan(s)) == []
    ensures Placeholders(Scan(s)) == s
    decreases |s|
  {
    if s != [] {
      assert Head(s) == (Plain(s[0]), 1);
      CapturesHead(s);
      PlaceholdersHead(s);
      NoLiterals(s[1..]);
      SplitAt(s, 1);
    }
  }

  /** One match of the loop below: the groups collected so far plus those
      still ahead are all the groups of the line. */
  lemma CapturesAdvance(rest: string, before: seq<string>, parameters: seq<string>, all: seq<string>)
    requires rest != []
    requires before + Captures(Scan(rest)) == all
    requires parameters == before + CaptureOne(Head(rest).0)
    ensures parameters + Captures(Scan(rest[Head(rest).1..])) == all
  {
    CapturesHead(rest);
    AppendStep(before, CaptureOne(Head(rest).0), Captures(Scan(rest[Head(rest).1..])), Captures(Scan(rest)));
  }

  lemma AppendStep<T>(a: seq<T>, b: seq<T>, c: seq<T>, m: seq<T>)
    requires m == b + c
    ensures (a + b) + c == a + m
  {
  }

  /** One call of `regex.exec` from the current position: how far the scan
      moves and the group it captures, if any. */
  method NextMatch(rest: string) returns (n: nat, captured: seq<string>)
    requires rest != []
    ensures n == Head(rest).1 && captured == CaptureOne(Head(rest).0)
  {
    var k := QuoteFreeRun(rest[1..]);
    if rest[0] == '"' && 0 < k < |rest| - 1 {
      n, captured := k + 2, [rest[1..k + 1]];
    } else if IsDigit(rest[0]) {
      n := DigitRun(rest);
      captured := [rest[..n]];
    } else {
      n, captured := 1, [];
    }
  }

  /** The imperative form: the `while (regex.exec(line))` loop collecting
      the captured groups, followed by `line.replace(regex, '{}').trim()`.
      `rest` is the text from the expression's `lastIndex` on. */
  method ExtractActionAndParameters(line: string) returns (action: string, parameters: seq<string>)
    ensures parameters == ParametersOf(line)
    ensures action == TemplateOf(line)
  {
    parameters := [];
    var rest := line;
    while rest != []
      invariant parameters + Captures(Scan(rest)) == Captures(Scan(line))
      decreases |rest|
    {
      ghost var before := parameters;
      var n, captured := NextMatch(rest);
      parameters := parameters + captured;
      CapturesAdvance(rest, before, parameters, Captures(Scan(line)));
      rest := rest[n..];
    }
    assert parameters + [] == parameters;
    action := TemplateOf(line);
  }

  // ---------------------------------------------------------------------
  // Line classification: parseStep

  function EmptyStep(kind: StepType): TestStep {
    TestStep(kind, None, None, NoChildren)
  }

  /** The keyword tests of parseStep, in their order, on the trimmed and
      lower-cased line: each kind has a Russian and an English prefix. */
  function KindOf(lowered: string): (kind: StepType)
    ensures !kind.Unknown?
  {
    if StartsWith(lowered, "если ") || StartsWith(lowered, "if ") then If
    else if StartsWith(lowered, "иначе") || StartsWith(lowered, "else") then Else
    else if StartsWith(lowered, "конецесли") || StartsWith(lowered, "endif") then EndIf
    else if StartsWith(lowered, "для каждого ") || StartsWith(lowered, "for each ") then Loop
    else if StartsWith(lowered, "конеццикла") || StartsWith(lowered, "endloop") then EndLoop
    else Action
  }

  /** parseStep: classify a line by its keyword and build the step. The
      condition and the loop expression are cut at fixed offsets 4 and 11. */
  function ParseStep(line: string): (step: TestStep)
    ensures step.kind == KindOf(ToLower(Trim(line)))
    ensures step.steps == NoChildren
    ensures step.kind.If? || step.kind.Loop? || step.kind.Action? <==> step.action.Some?
    ensures step.kind.If? || step.kind.Loop? ==> step.parameters == Some([])
    ensures step.kind.If? ==> step.action == Some(Trim(Substring(Trim(line), 4)))
    ensures step.kind.Loop? ==> step.action == Some(Trim(Substring(Trim(line), 11)))
    ensures step.kind.Action? ==> step.action == Some(TemplateOf(Trim(line)))
    ensures step.kind.Action? ==> step.parameters == Some(ParametersOf(Trim(line)))
  {
    var actionLine := Trim(line);
    match KindOf(ToLower(actionLine))
    case If => TestStep(If, Some(Trim(Substring(actionLine, 4))), Some([]), NoChildren)
    case Loop => TestStep(Loop, Some(Trim(Substring(actionLine, 11))), Some([]), NoChildren)
    case Action => TestStep(Action, Some(TemplateOf(actionLine)), Some(ParametersOf(actionLine)), NoChildren)
    case kind => EmptyStep(kind)
  }

  predicate IsSkipped(line: string) {
    StartsWith(line, "#") || line == []
  }

  predicate IsTestLine(line: string) {
    StartsWith(ToLower(line), "тест:") || StartsWith(ToLower(line), "test:")
  }

  /** The name of the case a `Test:` line opens. */
  function CaseName(line: string): string {
    Trim(Substring(line, 5))
  }

  // ---------------------------------------------------------------------
  // The frame stack

  /** The lists on the frame stack are the rightmost spine of the tree under
      construction: frame 0 is the case's root list and each further frame
      is the children list of the last step of the frame below it. `OpenPath`
      says that a spine of `depth` frames exists. */
  ghost predicate OpenPath(steps: seq<TestStep>, depth: nat)
    decreases depth
  {
    depth <= 1 ||
    (steps != [] && steps[|steps| - 1].steps.Children? &&
     OpenPath(steps[|steps| - 1].steps.list, depth - 1))
  }

  /** Push `step` onto the list held by frame `depth - 1`, the top of the
      stack. */
  function AppendAt(steps: seq<TestStep>, depth: nat, step: TestStep): (r: seq<TestStep>)
    requires depth >= 1 && OpenPath(steps, depth)
    decreases depth
    ensures |r| == (if depth == 1 then |steps| + 1 else |steps|)
    ensures depth > 1 ==> r[..|r| - 1] == steps[..|steps| - 1]
  {
    if depth == 1 then steps + [step]
    else
      var last := steps[|steps| - 1];
      steps[..|steps| - 1] + [last.(steps := Children(AppendAt(last.steps.list, depth - 1, step)))]
  }

  /** Appending keeps the open frames open, and appending a step with an
      (empty) children list opens one more frame. */
  lemma {:induction false} AppendAtOpen(steps: seq<TestStep>, depth: nat, step: TestStep)
    requires depth >= 1 && OpenPath(steps, depth)
    ensures OpenPath(AppendAt(steps, depth, step), depth)
    ensures step.steps.Children? ==> OpenPath(AppendAt(steps, depth, step), depth + 1)
    decreases depth
  {
    if depth > 1 {
      var last := steps[|steps| - 1];
      AppendAtOpen(last.steps.list, depth - 1, step);
    }
  }

  /** Popping a frame leaves a shorter open spine. */
  lemma {:induction false} OpenPathShorter(steps: seq<TestStep>, depth: nat)
    requires OpenPath(steps, depth) && depth >= 1
    ensures OpenPath(steps, depth - 1)
    decreases depth
  {
    if depth > 2 {
      OpenPathShorter(steps[|steps| - 1].steps.list, depth - 1);
    }
  }

  lemma {:induction false} OpenPathBelow(steps: seq<TestStep>, depth: nat, j: nat)
    requires OpenPath(steps, depth) && 1 <= j <= depth
    ensures OpenPath(steps, j)
    decreases depth
  {
    if j < depth {
      OpenPathShorter(steps, depth);
      OpenPathBelow(steps, depth - 1, j);
    }
  }

  /** The list frame `depth - 1` of the stack refers to: the root list for
      depth 1, otherwise the children of the last step of the list below. */
  ghost function ListAt(steps: seq<TestStep>, depth: nat): seq<TestStep>
    requires depth >= 1 && OpenPath(steps, depth)
    decreases depth
  {
    if depth == 1 then steps else ListAt(steps[|steps| - 1].steps.list, depth - 1)
  }

  /** `outer'` is the non-empty list `outer` with the children of its last
      step replaced by `kids`, and nothing else changed. */
  ghost predicate ReplacesLast(outer': seq<TestStep>, outer: seq<TestStep>, kids: seq<TestStep>) {
    && outer != []
    && |outer'| == |outer|
    && outer'[..|outer| - 1] == outer[..|outer| - 1]
    && outer'[|outer| - 1] == outer[|outer| - 1].(steps := Children(kids))
  }

  /** Whatever the depth, `AppendAt` pushes the step onto the end of the
      list at the top of the stack, and every list below it differs only in
      its last step, whose children are now the list above. */
  lemma {:induction false} AppendAtFrames(steps: seq<TestStep>, depth: nat, step: TestStep)
    requires depth >= 1 && OpenPath(steps, depth)
    ensures forall j | 1 <= j <= depth :: OpenPath(steps, j) && OpenPath(AppendAt(steps, depth, step), j)
    ensures ListAt(AppendAt(steps, depth, step), depth) == ListAt(steps, depth) + [step]
    ensures forall j | 1 <= j < depth ::
      ReplacesLast(ListAt(AppendAt(steps, depth, step), j), ListAt(steps, j), ListAt(AppendAt(steps, depth, step), j + 1))
    decreases depth
  {
    var r := AppendAt(steps, depth, step);
    AppendAtOpen(steps, depth, step);
    forall j | 1 <= j <= depth
      ensures OpenPath(steps, j) && OpenPath(r, j)
    {
      OpenPathBelow(steps, depth, j);
      OpenPathBelow(r, depth, j);
    }
    if depth > 1 {
      var last := steps[|steps| - 1];
      var inner := AppendAt(last.steps.list, depth - 1, step);
      AppendAtFrames(last.steps.list, depth - 1, step);
      assert r[|r| - 1] == last.(steps := Children(inner));
      forall j | 1 <= j < depth
        ensures ReplacesLast(ListAt(r, j), ListAt(steps, j), ListAt(r, j + 1))
      {
        if j == 1 {
          assert ListAt(r, 1) == r && ListAt(steps, 1) == steps;
          assert ListAt(r, 2) == inner;
        } else {
          assert ListAt(r, j) == ListAt(inner, j - 1);
          assert ListAt(r, j + 1) == ListAt(inner, j);
          assert ListAt(steps, j) == ListAt(last.steps.list, j - 1);
        }
      }
    }
  }

  /** The parser's variables between two lines: the finished cases, the
      case being built (`currentTest`, whose `steps` is the root list) and
      the height of `currentStepsStack`. */
  datatype Builder = Builder(done: seq<TestCase>, current: Option<TestCase>, depth: nat)

  ghost predicate Sound(b: Builder) {
    (b.current.None? ==> b.depth == 0) &&
    (b.current.Some? ==> OpenPath(b.current.value.steps, b.depth))
  }

  const Start: Builder := Builder([], None, 0)

  /** The cases a builder holds once the input ends. */
  function Finish(b: Builder): seq<TestCase> {
    b.done + (if b.current.Some? then [b.current.value] else [])
  }

  /** What a classified step line does to the builder (the branch of the
      parseFeature loop taken once a case is open). */
  function Apply(b: Builder, step: TestStep): (r: Result<Builder, string>)
    requires Sound(b) && b.current.Some?
    ensures r.Ok? ==> Sound(r.value) && r.value.done == b.done && r.value.current.Some?
    ensures r.Ok? ==> r.value.current.value.name == b.current.value.name
  {
    match step.kind
    case If | Loop =>
      if b.depth == 0 then Err(PushError)
      else Ok(PushAt(b, step.(steps := Children([])), b.depth, b.depth + 1))
    case Else =>
      if b.depth <= 1 then Err(PushError)
      else
        OpenPathShorter(b.current.value.steps, b.depth);
        Ok(PushAt(b, step.(steps := Children([])), b.depth - 1, b.depth))
    case EndIf | EndLoop =>
      if b.depth == 0 then Ok(b)
      else
        OpenPathShorter(b.current.value.steps, b.depth);
        Ok(b.(depth := b.depth - 1))
    case _ =>
      if b.depth == 0 then Err(PushError)
      else Ok(PushAt(b, step, b.depth, b.depth))
  }

  /** Push `step` onto the list of frame `d - 1` of the open case and leave
      the builder at depth `nd`: the same depth, or one deeper when `step`
      opens a block. */
  function PushAt(b: Builder, step: TestStep, d: nat, nd: nat): (r: Builder)
    requires b.current.Some? && d >= 1 && OpenPath(b.current.value.steps, d)
    requires nd == d || (nd == d + 1 && step.steps.Children?)
    ensures Sound(r) && r.done == b.done && r.current.Some? && r.depth == nd
    ensures r.current.value.name == b.current.value.name
  {
    var tc := b.current.value;
    AppendAtOpen(tc.steps, d, step);
    b.(current := Some(tc.(steps := AppendAt(tc.steps, d, step))), depth := nd)
  }

  /** One (trimmed) line of the parseFeature loop. */
  function Feed(b: Builder, line: string): (r: Result<Builder, string>)
    requires Sound(b)
    ensures r.Ok? ==> Sound(r.value)
  {
    if IsSkipped(line) then Ok(b)
    else if IsTestLine(line) then
      Ok(Builder(Finish(b), Some(TestCase(CaseName(line), [])), 1))
    else if b.current.None? then Ok(b)
    else Apply(b, ParseStep(line))
  }

  /** The parseFeature loop over a sequence of trimmed lines from a given
      builder; the first error ends it. */
  function Run(b: Builder, lines: seq<string>): (r: Result<Builder, string>)
    requires Sound(b)
    ensures r.Ok? ==> Sound(r.value)
    decreases |lines|
  {
    if lines == [] then Ok(b)
    else
      match Feed(b, lines[0])
      case Err(e) => Err(e)
      case Ok(b') => Run(b', lines[1..])
  }

  function ParseLines(lines: seq<string>): Result<seq<TestCase>, string> {
    match Run(Start, lines)
    case Err(e) => Err(e)
    case Ok(b) => Ok(Finish(b))
  }

  /** `content.split('\n').map(line => line.trim())`. */
  function Lines(content: string): seq<string> {
    var pieces := Split(content, '\n');
    seq(|pieces|, i requires 0 <= i < |pieces| => Trim(pieces[i]))
  }

  /** parseFeature on the file's content. */
  function Parse(content: string): Result<seq<TestCase>, string> {
    ParseLines(Lines(content))
  }

  /** `Run` takes one line at a time. */
  lemma RunHead(b: Builder, lines: seq<string>)
    requires Sound(b) && lines != []
    ensures Feed(b, lines[0]).Err? ==> Run(b, lines) == Err(Feed(b, lines[0]).error)
    ensures Feed(b, lines[0]).Ok? ==> Run(b, lines) == Run(Feed(b, lines[0]).value, lines[1..])
  {
  }

  /** The branch of the parseFeature loop that places a classified step
      once a case is open: headers push a frame, `else` swaps the top frame
      for its own, the closing keywords pop, anything else is appended to
      the top frame. */
  method PlaceStep(currentTest: TestCase, depth: nat, step: TestStep, ghost done: seq<TestCase>)
    returns (r: Result<(TestCase, nat), string>)
    requires Sound(Builder(done, Some(currentTest), depth))
    ensures r.Err? ==> Apply(Builder(done, Some(currentTest), depth), step) == Err(r.error)
    ensures r.Ok? ==> Apply(Builder(done, Some(currentTest), depth), step) == Ok(Builder(done, Some(r.value.0), r.value.1))
  {
    var tc := currentTest;
    ghost var b := Builder(done, Some(currentTest), depth);
    if step.kind.If? || step.kind.Loop? {
      if depth == 0 {
        return Err(PushError);
      }
      var header := step.(steps := Children([]));
      assert Apply(b, step) == Ok(PushAt(b, header, depth, depth + 1));
      return Ok((tc.(steps := AppendAt(tc.steps, depth, header)), depth + 1));
    } else if step.kind.Else? {
      var d := if depth > 0 then depth - 1 else 0;
      if d == 0 {
        return Err(PushError);
      }
      OpenPathShorter(tc.steps, d + 1);
      var header := step.(steps := Children([]));
      assert Apply(b, step) == Ok(PushAt(b, header, d, depth));
      return Ok((tc.(steps := AppendAt(tc.steps, d, header)), d + 1));
    } else if step.kind.EndIf? || step.kind.EndLoop? {
      return Ok((tc, if depth > 0 then depth - 1 else 0));
    } else {
      if depth == 0 {
        return Err(PushError);
      }
      assert Apply(b, step) == Ok(PushAt(b, step, depth, depth));
      return Ok((tc.(steps := AppendAt(tc.steps, depth, step)), depth));
    }
  }

  /** parseFeature, imperatively: one pass over the lines that pushes finished
      cases, opens a new case at each `Test:` line and keeps the frame
      stack. Reading the file is not modelled; the content is the input. */
  method ParseFeature(content: string) returns (r: Result<seq<TestCase>, string>)
    ensures r == Parse(content)
  {
    var lines := Lines(content);
    var testCases: seq<TestCase> := [];
    var currentTest: Option<TestCase> := None;
    var depth: nat := 0;
    var rest := lines;
    while rest != []
      invariant Sound(Builder(testCases, currentTest, depth))
      invariant Run(Start, lines) == Run(Builder(testCases, currentTest, depth), rest)
      decreases |rest|
    {
      var line := rest[0];
      ghost var before := Builder(testCases, currentTest, depth);
      RunHead(before, rest);
      if IsSkipped(line) {
      } else if IsTestLine(line) {
        if currentTest.Some? {
          testCases := testCases + [currentTest.value];
        } else {
          assert testCases + [] == testCases;
        }
        currentTest := Some(TestCase(CaseName(line), []));
        depth := 1;
      } else if currentTest.Some? {
        var step := ParseStep(line);
        var placed := PlaceStep(currentTest.value, depth, step, testCases);
        if placed.Err? {
          return Err(placed.error);
        }
        currentTest, depth := Some(placed.value.0), placed.value.1;
      }
      assert Feed(before, line) == Ok(Builder(testCases, currentTest, depth));
      rest := rest[1..];
    }
    r := Ok(testCases + (if currentTest.Some? then [currentTest.value] else []));
  }
}
