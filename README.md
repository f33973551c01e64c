# A scripted browser-test engine, modelled in Dafny

The engine reads test scripts written in a small plain-language format,
with Russian keywords and English synonyms. `Тест:`/`Test:` opens a test case.
`Если`/`If`, `Иначе`/`Else` and `КонецЕсли`/`EndIf` build conditional blocks.
`Для каждого`/`For each` and `КонецЦикла`/`EndLoop` build loops. Every
other line is an action, whose quoted strings and numbers become its
parameters. Three pieces form a pipeline:

- **The block parser** (`EnhancedGherkinParser`). It turns the script text
  into an ordered list of test cases, each a tree of steps. It rebuilds
  nested blocks from flat lines with a stack of "current children list"
  frames.
- **The tree-walking interpreter** (class `TestExecutor` of the executor).
  It walks a case's step tree, substitutes `{name}` placeholders from its
  variable map and asks the action library to perform each action. It
  records one step result per action and stops the case at the first
  failure. It has a permissive condition evaluator, a loop-header parser
  for `x в [..]` and `x in [..]`, and a loop that replaces every body
  step's parameters with the current item.
- **The earlier interpreter** (the `TestExecutor` of the framework
  directory). It walks the same tree and calls the action library
  directly. It records nothing and has no parameter override. It
  recognises only the Russian loop form and the Russian title condition,
  and it throws on any other condition.
- **The action library** (`performAction` and its module-level variable
  store). An ordered chain of Russian prefix tests picks one page
  operation and checks its preconditions.

Modules, one per source file plus shared pieces:

| module | file | models |
|---|---|---|
| `Wrappers` | wrappers.dfy | `Option` and `Result` |
| `Text` | text.dfy | the JavaScript string primitives used: `trim`, `toLowerCase`, `startsWith`, `includes`, `substring`, `split`, `replace(/"/g, '')`, `indexOf` |
| `Parser` | parser.dfy | src/parser/parser.ts |
| `ParserFacts` | parser_facts.dfy | properties of the parser |
| `Executor` | executor.dfy | src/executor/executor.ts |
| `ExecutorFacts` | executor_facts.dfy | properties of that interpreter |
| `Steps` | steps.dfy | the decision logic of src/steps/steps.ts |
| `StepsFacts` | steps_facts.dfy | properties of the action library |
| `FrameworkExecutor` | framework_executor.dfy | src/framework/executor.ts |
| `FrameworkFacts` | framework_facts.dfy | properties of the earlier interpreter |
| `Pipeline` | pipeline.dfy | what the parser and the interpreters do together |

How the model is built:

- **Parser.** `parseFeature` is an imperative method, `Parser.ParseFeature`.
  It is proved equal to the pure fold `Parser.Parse` over the trimmed lines.
  The frame stack of child-list references is always the rightmost spine of
  the tree being built, so the model keeps the tree and a depth:
  - `OpenPath` says that such a spine exists;
  - `AppendAt` appends a step to the deepest list;
  - a line appended while no list is current is the JavaScript `TypeError`,
    `Parser.PushError`.
- **Parameter extraction.** `extractActionAndParameters` is a loop over the
  matches of the global regular expression. It is proved equal to a scan of
  the line into segments: plain characters, quoted literals and digit runs.
- **Both interpreters.** Each is a class whose methods follow the
  TypeScript ones. Each method is proved equal to a reference function
  (`RunSteps`, `RunStep`, `RunIf`, `RunLoop`, `RunPasses`) that returns the
  new state and the error thrown, if any. Thrown errors become an
  `Option<string>` result that stops the enclosing loops.
- **Action library seen from the main executor.** It is an oracle: given
  the requests made so far and a new one, it either succeeds or fails with
  a message.
- **Action library seen from the earlier interpreter.** This interpreter
  reads the library's store (`pageTitle`), so it drives the library object
  `Steps.ActionLibrary` itself.
- **Page objects.** They are a second oracle.
  - `Steps.Perform` records each page request it decides on.
  - Each request yields a value (the price, for `getProductPrice`) or a
    failure message.
- **Integers.** `parseInt` is written out for integer text in radix 10 and
  16, with `None` standing for `NaN`.

Where this description of the system and its code differ, the model
follows the code:

- An `else` line is placed as a sibling after its `if`, not among its
  children.
  - The main interpreter looks for the `else` only among the children.
  - So an `else` written directly in a case, at the top level of its steps, never runs (`Pipeline.ScriptElseNeverRuns`).
  - An `else` after an inner `if` lands among the outer block's children instead, so it runs when the OUTER condition fails (`Pipeline.NestedElseRunsOnOuterCondition`).
- `Иначе если <cond>` keeps no condition. When the condition is false,
  only the first `else` child runs.
- A closing keyword with only the root frame left is not rejected at that
  line.
  - The stack empties, and the next line that needs a list fails with
    `PushError`.
  - A further closing keyword on the empty stack is harmless.
- The `if` condition is cut at offset 4 and the loop expression at
  offset 11. These offsets fit `Если `/`Для каждого `, but they clip
  `If ` and `For each ` by one and two characters.
- The earlier interpreter's title condition compares the text from
  offset 26, which keeps the `т ` that ends `содержит `.
- Error messages are the code's own Russian texts, for example
  `Неверное выражение цикла: <expr>`.

## Model

| member | source | states |
|---|---|---|
| Text.TrimSpec | src/parser/parser.ts:20 | the trimmed text occurs in the input with only whitespace before and after it, and neither of its ends is whitespace |
| Text.TrimIdempotent | src/parser/parser.ts:71 | trimming a trimmed line changes nothing |
| Text.LowerChar | src/parser/parser.ts:32 | an ASCII capital and a Cyrillic capital А–Я (U+0410–U+042F) become the letter 32 code points higher, their lower case; Ѐ–Џ (U+0400–U+040F) move 80 higher; every other character below U+00C0 is unchanged |
| Text.TrimLower | src/parser/parser.ts:73 | trimming and lower-casing commute |
| Text.ToLowerIdempotent | src/parser/parser.ts:73 | lower-casing twice is lower-casing once |
| Text.ContainsIff | src/executor/executor.ts:188 | `includes` holds exactly when the text occurs at some position |
| Text.Remove | src/executor/executor.ts:186 | removing every `"` leaves no `"` and keeps every other character present |
| Text.RemoveAppend | src/executor/executor.ts:186 | removal distributes over concatenation, so the other characters keep their order and their count |
| Text.RemoveOne | src/executor/executor.ts:186 | a single character is dropped exactly when it is `"` |
| Text.Split | src/executor/executor.ts:200 | `split` gives at least one piece and no piece holds the separator |
| Text.SplitJoin | src/executor/executor.ts:200 | joining the pieces with the separator gives the text back |
| Text.SplitCount | src/executor/executor.ts:200 | there is one piece more than there are separators |
| Text.IndexOf | src/executor/executor.ts:198 | the first position where the text occurs, or none when it occurs nowhere |
| Text.BeforeFirst | src/executor/executor.ts:162 | the first piece of `split(sep)`: a prefix of the text in which the separator starts nowhere, ending where the separator first starts or at the end of the text |
| Parser.DigitRun | src/parser/parser.ts:92 | the length of the maximal digit run starting the text |
| Parser.QuoteFreeRun | src/parser/parser.ts:92 | the length of the quote-free stretch, which ends at a `"` or at the end |
| Parser.ScanRender | src/parser/parser.ts:92-103 | the matches and the unmatched characters, in order, make up the line exactly |
| Parser.ScanWellFormed | src/parser/parser.ts:92 | every match is a non-empty quote-free literal or a non-empty digit run |
| Parser.ParametersShape | src/parser/parser.ts:92-100 | every parameter is non-empty, and either quote-free or all digits |
| Parser.NoLiterals | src/parser/parser.ts:91-106 | a line with no quote and no digit has no parameters and is its own template |
| Parser.NextMatch | src/parser/parser.ts:95-101 | one `regex.exec` step: how far the match reaches and the group it captures |
| Parser.ExtractActionAndParameters | src/parser/parser.ts:91-106 | the loop collects exactly the scan's captures, and the template is the placeholder line trimmed |
| Parser.KindOf | src/parser/parser.ts:73-84 | the keyword tests in source order; the result is always one of the six step types, never `Unknown` (the tests themselves: `ParserFacts.IfKind`, `LoopKindOf`, `ElseKindOf`, `EndIfKindOf`, `EndLoopKindOf`, `ActionKind`) |
| Parser.ParseStep | src/parser/parser.ts:70-89 | the type is the keyword class of the trimmed, lower-cased line; no step has children yet; exactly if, loop and action steps carry text; if and loop steps have no parameters, the condition is the text from offset 4 and the expression the text from offset 11, trimmed; an action's text and parameters are the extracted template and literals |
| Parser.AppendAtFrames | src/parser/parser.ts:42-58 | at any depth, the step is pushed onto the end of the list of the top frame, and every list below changes only in its last step, whose children are the list above |
| Parser.AppendAtOpen | src/parser/parser.ts:42-46 | after an append the spine is still open, and one level deeper when the step has a children list |
| Parser.OpenPathShorter | src/parser/parser.ts:48-49 | popping a frame leaves an open spine |
| Parser.Apply | src/parser/parser.ts:42-59 | placing a step keeps a well-formed stack, the finished cases and the current case's name |
| Parser.Feed | src/parser/parser.ts:27-60 | one line keeps the stack well formed |
| Parser.Run | src/parser/parser.ts:27-61 | the lines in turn keep the stack well formed |
| Parser.RunHead | src/parser/parser.ts:27 | unfolding of `Run` for its first line |
| Parser.PlaceStep | src/parser/parser.ts:42-59 | the imperative branch for one step does what `Apply` says, error included |
| Parser.ParseFeature | src/parser/parser.ts:18-68 | the imperative parser returns exactly `Parse(content)` |
| Parser.Parse | src/parser/parser.ts:18-68 | reference function, no contract of its own: split the content into trimmed lines and run the loop; what it gives is proved in `ParseFeature`, `ParserFacts.CaseNamesInOrder`, `ParserFacts.SkippedLinesIgnored`, `ParserNesting.NestedScript` |
| ParserFacts.ScanQuoted | src/parser/parser.ts:92-103 | a leading quoted literal is one parameter (its inside) and one `{}` |
| ParserFacts.ScanDigits | src/parser/parser.ts:92-103 | a leading maximal digit run is one parameter and one `{}` |
| ParserFacts.ScanPlain | src/parser/parser.ts:92-103 | text with no quote and no digit adds no parameter and is copied to the template |
| ParserFacts.ThreeLiterals | src/parser/parser.ts:91-106 | two quoted literals and a number between plain text: the three parameters in order, each replaced by `{}` |
| ParserFacts.ParametersExample | src/parser/parser.test.ts:175-184 | `Действие: Ввести "Логин" в поле "Username" за 10 секунд` gives `Логин`, `Username`, `10` and the template with three `{}` |
| ParserFacts.KeywordsIgnoreCase | src/parser/parser.ts:73-84 | lines equal up to case get the same step type and are alike test lines |
| ParserFacts.IfKind | src/parser/parser.ts:73 | a line opening with `если ` or `if ` in any case is an if step |
| ParserFacts.IfCondition | src/parser/parser.ts:74 | the condition is the line from offset 4, trimmed |
| ParserFacts.LoopKind | src/parser/parser.ts:80 | a line opening with `для каждого ` or `for each ` in any case is a loop step |
| ParserFacts.LoopKindOf | src/parser/parser.ts:80 | the loop prefixes classify as loop |
| ParserFacts.LoopExpression | src/parser/parser.ts:81 | the loop expression is the line from offset 11, trimmed |
| ParserFacts.ElseKindOf | src/parser/parser.ts:76 | the else prefixes classify as else, the if tests before them failing |
| ParserFacts.EndIfKindOf | src/parser/parser.ts:78 | the endif prefixes classify as endif, the if and else tests before them failing |
| ParserFacts.EndLoopKindOf | src/parser/parser.ts:83 | the endloop prefixes classify as endloop, every earlier test failing |
| ParserFacts.ElseKind | src/parser/parser.ts:76-77 | a line opening with `иначе` or `else` in any case is a bare else step: no text, no parameters, no children |
| ParserFacts.EndIfKind | src/parser/parser.ts:78-79 | a line opening with `конецесли` or `endif` in any case is a bare endif step |
| ParserFacts.EndLoopKind | src/parser/parser.ts:83-84 | a line opening with `конеццикла` or `endloop` in any case is a bare endloop step |
| ParserFacts.RussianElseIfDropsCondition | src/parser/parser.ts:76-77 | `Иначе если <cond>` is a bare else step: the condition is not kept |
| ParserFacts.EnglishElseIfDropsCondition | src/parser/parser.ts:76-77 | `Else if <cond>` is a bare else step as well |
| ParserFacts.ActionKind | src/parser/parser.ts:85-88 | a line opening with none of the ten keywords is an action whose template and parameters are extracted from the line |
| ParserFacts.EnglishIfClipsCondition | src/parser/parser.ts:73-75 | `If ` plus a condition keeps the condition without its first character |
| ParserFacts.RussianIfKeepsCondition | src/parser/parser.ts:73-75 | `Если ` plus a condition keeps the whole condition |
| ParserFacts.EnglishLoopClipsExpression | src/parser/parser.ts:80-82 | `For each ` plus an expression keeps the expression without its first two characters |
| ParserFacts.RussianLoopKeepsExpression | src/parser/parser.ts:80-82 | `Для каждого ` plus an expression keeps the whole expression |
| ParserFacts.ApplyOutcome | src/parser/parser.ts:42-59 | placing fails (the push on `undefined`) exactly for an else with at most the root frame, or another non-closing step on an empty stack; otherwise depth +1 for if and loop, 0 for else and actions, -1 for closers (none below 0) |
| ParserFacts.TestLineResets | src/parser/parser.ts:32-38 | a test line files the current case and opens a new one named by the line from offset 5, trimmed, with only its root frame |
| ParserFacts.RunAppend | src/parser/parser.ts:27-61 | parsing `xs + ys` is parsing `xs`, then `ys` from where it left off |
| ParserFacts.FeedStep | src/parser/parser.ts:39-40 | unfolding of `Feed` for a step line inside a case |
| ParserFacts.ApplyAction | src/parser/parser.ts:57-58 | unfolding of `Apply` for an action |
| ParserFacts.ActionsAtRoot | src/parser/parser.ts:57-58 | consecutive action lines at the root become those steps, in order |
| ParserFacts.ApplyHeader | src/parser/parser.ts:42-46 | unfolding of `Apply` for an if or loop header |
| ParserFacts.ApplyElse | src/parser/parser.ts:47-53 | an else closes the current list and is appended with its own empty list to the list one level up |
| ParserFacts.ApplyClose | src/parser/parser.ts:54-56 | a closer returns to the enclosing list |
| ParserFacts.ApplyAtZero | src/parser/parser.ts:44 | with no current list, placing any non-closer fails with the push error |
| ParserFacts.ApplyElseAtRoot | src/parser/parser.ts:48-51 | an else with only the root frame empties the stack and fails |
| ParserFacts.ElseAtRootFails | src/parser/parser.ts:48-51 | an else directly in a case fails |
| ParserFacts.CloseAtRootThenStepFails | src/parser/parser.ts:55-58 | a closer at the root empties the stack, and the next non-closer step fails |
| ParserFacts.FeedNames | src/parser/parser.ts:32-36 | a line adds a case name exactly when it is a test line |
| ParserFacts.RunNames | src/parser/parser.ts:27-38 | the names of the cases grow by the names of the test lines read |
| ParserFacts.CaseNamesInOrder | src/parser/parser.ts:63-65 | the parsed cases are named by the test lines, in source order |
| ParserFacts.FeedIgnored | src/parser/parser.ts:28-30 | comment and blank lines, and any line before the first test line, change nothing |
| ParserFacts.IgnoredLines | src/parser/parser.ts:28-39 | a run of ignored lines can be dropped |
| ParserFacts.PreambleIgnored | src/parser/parser.ts:39 | lines before the first test line produce nothing |
| ParserFacts.SkippedLinesIgnored | src/parser/parser.ts:28-30 | comment and blank lines anywhere produce nothing |
| ParserFacts.FlatScript | src/parser/parser.ts:57-58 | a test line and N action lines give one case of exactly those N action steps, in order |
| ParserNesting.RunIsPlace | src/parser/parser.ts:27-60 | inside an open case, running step lines places their classified steps one after the other |
| ParserNesting.ParseAllAppend | src/parser/parser.ts:40 | lines are classified one at a time, so classification distributes over concatenation |
| ParserNesting.PlaceAppend | src/parser/parser.ts:27-60 | placing `xs + ys` places `xs`, then `ys` from where it left off, stopping at an error |
| ParserNesting.ExtendAtList | src/parser/parser.ts:44-58 | pushing steps grows the top frame's list by exactly those steps, and only the last root step can change |
| ParserNesting.ExtendAtOpen | src/parser/parser.ts:42-46 | pushing keeps the frames open, and a last pushed step with children can be opened as one more |
| ParserNesting.AppendAtExtend | src/parser/parser.ts:44 | one push is pushing a one-step list |
| ParserNesting.ExtendAtTwice | src/parser/parser.ts:44-58 | pushing `xs` and then `ys` is pushing `xs + ys` |
| ParserNesting.ExtendInside | src/parser/parser.ts:42-46 | pushing onto the children of the step just pushed is pushing that step with those children |
| ParserNesting.PlaceAction | src/parser/parser.ts:57-58 | an action is pushed onto the top frame's list, at any depth |
| ParserNesting.PlaceHeader | src/parser/parser.ts:42-46 | an if or loop is pushed with an empty children list, which becomes the top frame, at any depth |
| ParserNesting.PlaceElse | src/parser/parser.ts:47-53 | an else pops the top frame, is pushed onto the list below with an empty list of its own, and that list becomes the top frame |
| ParserNesting.PlaceCloser | src/parser/parser.ts:54-56 | an endif or endloop pops the top frame, at any depth |
| ParserNesting.PlaceBody | src/parser/parser.ts:27-60 | a well-nested stretch of steps, placed at any depth, pushes exactly the tree it describes onto the top frame and leaves the depth as it was: blocks nest to any depth |
| ParserNesting.PlaceNest | src/parser/parser.ts:42-58 | the same for one action or one block |
| ParserNesting.PlaceBlock | src/parser/parser.ts:42-58 | a block pushes its header holding its body's steps, then its else steps each holding their own body, and its closer returns to the depth it started at |
| ParserNesting.PlaceBranches | src/parser/parser.ts:47-53 | the else branches of a block follow its header in the same list, each with its own children |
| ParserNesting.NestedLines | src/parser/parser.ts:27-60 | step lines that classify as a well-nested stretch build that stretch's tree on the top frame, at any depth |
| ParserNesting.NestedScript | src/parser/parser.ts:18-68 | a case whose lines classify as a well-nested stretch parses to one case holding that stretch's tree |
| ParserNesting.ActionsInBlock | src/parser/parser.ts:57-58 | action lines, with the top frame at any depth, become that frame's next steps, in order |
| ParserNesting.BlockAt | src/parser/parser.ts:42-58 | a header, action lines and a closer, at any depth, push one block step holding those actions and return to that depth |
| ParserNesting.ElseIsSibling | src/parser/parser.ts:42-58 | `if`, actions, `else`, actions, `endif` at any depth push the if step and then the else step as siblings, each holding its own actions |
| ParserNesting.ComplexNesting | src/parser/parser.test.ts:126-151 | the nested-structures script gives one case whose if holds an action, an if holding a loop holding an action, and an action |
| ParserNesting.MultipleElse | src/parser/parser.test.ts:153-172 | the multiple-else script gives an if and two else steps side by side in the case, each holding one action |
| ParserNesting.OpenedCase | src/parser/parser.ts:32-38 | after a test line the parse goes on from the case it opened, named by the line, with only its root frame |
| ParserNesting.BlockInCase | src/parser/parser.ts:42-58 | in a freshly opened case, an if line, an action line and an endif line push one if step holding the action and return to the root frame |
| ParserNesting.OneBlockScript | src/parser/parser.ts:27-58 | a test line, an if line, an action line and an endif line give one case whose only step is the if holding the action |
| ParserNesting.CapitalTestLine | src/parser/parser.ts:32-36 | `ТЕСТ: ` in capitals opens a case, named by the rest of the line |
| ParserNesting.CapitalIfLine | src/parser/parser.ts:73 | `ЕСЛИ ` in capitals starts an if line |
| ParserNesting.ActionKindOf | src/parser/parser.ts:73-88 | a lowered line opening with `де` fails every keyword test and is an action |
| ParserNesting.CapitalActionLine | src/parser/parser.ts:85-88 | a line opening with `ДЕ` in capitals, as `ДЕЙСТВИЕ:` does, is an action line |
| ParserNesting.EndIfLine | src/parser/parser.ts:78 | a trimmed line whose lower case opens with `конецесли` is an endif line |
| ParserNesting.CapitalEndIfLine | src/parser/parser.ts:78 | `КОНЕЦЕСЛИ` in capitals is an endif line |
| ParserNesting.CapitalCase | src/parser/parser.ts:18-89 | a case written entirely in capital keywords parses to one case with the given name whose only step is an if holding the action |
| ParserNesting.MixedCaseKeywords | src/parser/parser.test.ts:185-195 | the mixed-case script gives the case `Case Insensitive Test` whose first step is an if |
| Executor.CloseBrace | src/executor/executor.ts:178 | the lazy `(.*?)}` ends at the first `}`, if one comes before any line terminator |
| Executor.ReplaceVariables | src/executor/executor.ts:177-182 | reference function, no contract of its own: its meaning is stated by `ExecutorFacts.NoPlaceholders`, `NothingBound`, `BoundPlaceholder` and `UnboundPlaceholder` |
| ExecutorFacts.NoPlaceholders | src/executor/executor.ts:177-182 | text with no `{` is unchanged by substitution |
| ExecutorFacts.NothingBound | src/executor/executor.ts:177-182 | with no variables bound, substitution changes nothing |
| ExecutorFacts.CloseAfter | src/executor/executor.ts:178 | the placeholder ends at the first `}` |
| ExecutorFacts.BoundPlaceholder | src/executor/executor.ts:178-181 | `{name}` with the trimmed name bound becomes its value, and the value is not rescanned |
| ExecutorFacts.UnboundPlaceholder | src/executor/executor.ts:178-181 | `{name}` with the trimmed name unbound is left verbatim |
| Executor.EvaluateCondition | src/executor/executor.ts:184-195 | reference function, no contract of its own: its meaning is stated by `ExecutorFacts.RussianTitleTest`, `EnglishTitleTest` and `OnlyTitleTestsFail` |
| ExecutorFacts.RussianTitleTest | src/executor/executor.ts:185-188 | the Russian title test holds exactly when `pageTitle` (or the empty string) contains the rest with quotes removed |
| ExecutorFacts.EnglishTitleTest | src/executor/executor.ts:189-192 | the same for `page title contains ` |
| ExecutorFacts.OnlyTitleTestsFail | src/executor/executor.ts:194 | any condition that is not a title test is true |
| Executor.LineEnd | src/executor/executor.ts:198 | the length of the first line, where `.` stops matching |
| Executor.LastIndexOfChar | src/executor/executor.ts:198 | the last `]`, or none |
| Executor.GetLoopItems | src/executor/executor.ts:197-208 | reference function, no contract of its own: its meaning is stated by `ExecutorFacts.HeaderList`, `RussianHeader`, `EnglishHeader`, `NoBracketRejected` and `ItemsShape` |
| Executor.LoopVariable | src/executor/executor.ts:162-163 | reference function, no contract of its own: `ExecutorFacts.RussianHeader` states that it is the trimmed name before ` в ` |
| ExecutorFacts.HeaderList | src/executor/executor.ts:198-200 | on one line, `name` + separator + `inner]` has the list text `inner` |
| ExecutorFacts.RussianHeader | src/executor/executor.ts:162-163 | `name в [inner]` gives the items of `inner` and binds the trimmed `name` |
| ExecutorFacts.EnglishHeader | src/executor/executor.ts:202-204 | `name in [inner]` with no ` в ` gives the items of `inner` |
| ExecutorFacts.EmptyListOneItem | src/executor/executor.ts:198-200 | `x в []` gives one empty item |
| ExecutorFacts.MissingCharNoList | src/executor/executor.ts:198-205 | a separator character the text lacks means no match |
| ExecutorFacts.NoBracketRejected | src/executor/executor.ts:207 | a header with no `[` throws `Неверное выражение цикла: <expr>` |
| ExecutorFacts.ItemsShape | src/executor/executor.ts:200 | there is one item more than there are commas, and no item holds a quote |
| Executor.ShownOnly | src/executor/executor.ts:137 | the parameters kept are exactly those neither empty nor `{}` |
| ExecutorFacts.ShownOnlyAppend | src/executor/executor.ts:137 | the filter distributes over concatenation, so the kept parameters keep their order and their count |
| ExecutorFacts.ShownOnlyOne | src/executor/executor.ts:137 | a single parameter is kept exactly when it is neither empty nor `{}` |
| ExecutorFacts.FormatNothing | src/executor/executor.ts:136-139 | log text only (the parameters part of the console line for a step): empty exactly when nothing is shown, and otherwise ` [` ... `]` |
| Executor.FindElse | src/executor/executor.ts:150 | `find`: the first else child, or none when there is no else child |
| Executor.Override | src/executor/executor.ts:166-170 | one copy per body step, in order, each the step itself with only its parameters replaced by `[item]` |
| Executor.TestExecutor.constructor | src/executor/executor.ts:25-30 | no variables, no requests, no results |
| Executor.TestExecutor.ExecuteTestCase | src/executor/executor.ts:32-61 | the variables and requests are what the run left, and exactly one result is appended: the case's name, its step results, and failed exactly when the run threw |
| Executor.TestExecutor.ExecuteSteps | src/executor/executor.ts:63-68 | the loop over a list, numbering steps by position, stopping at the first error, equals `RunSteps` |
| Executor.TestExecutor.ExecuteStep | src/executor/executor.ts:70-89 | dispatch on the type equals `RunStep` |
| Executor.TestExecutor.ExecuteAction | src/executor/executor.ts:91-125 | one request and one step result, rethrowing a failure, equals `RunAction` |
| Executor.TestExecutor.ExecuteIf | src/executor/executor.ts:141-155 | equals `RunIf` |
| Executor.TestExecutor.ExecuteLoop | src/executor/executor.ts:157-175 | the loop over the items equals `RunLoop` |
| Executor.RunAction | src/executor/executor.ts:91-125 | reference function, no contract of its own: `ExecutorFacts.ActionRecordsOneResult` and `TracksAction` state what it does |
| Executor.RunSteps | src/executor/executor.ts:63-68 | reference function, no contract of its own: `ExecutorFacts.StepsAppend`, `StepsTrack` and `StepsKeep` state what it does |
| Executor.RunStep | src/executor/executor.ts:70-89 | reference function, no contract of its own: `ExecutorFacts.StepTracks`, `MarkersDoNothing` and `UnknownTypeStops` state what it does |
| Executor.RunIf | src/executor/executor.ts:141-155 | reference function, no contract of its own: `ExecutorFacts.IfTracks`, `ElseChildSkipped` and `IfFalseRunsFirstElse` state what it does |
| Executor.RunLoop | src/executor/executor.ts:157-175 | reference function, no contract of its own: `ExecutorFacts.LoopTracks`, `LoopBindsLastItem` and `LoopOverridesParameters` state what it does |
| Executor.RunPasses | src/executor/executor.ts:161-174 | reference function, no contract of its own: `ExecutorFacts.PassesTrack`, `PassesInOrder`, `PassesBindLast` and `OneItem` state what it does |
| Executor.Report | src/executor/executor.ts:35-54 | reference function, no contract of its own: `ExecutorFacts.CaseReport` states what the case result holds |
| ExecutorFacts.StepsAppend | src/executor/executor.ts:63-68 | running `xs + ys` runs `ys` after `xs`, numbered from `|xs|`, only if `xs` threw nothing |
| ExecutorFacts.TracksAction | src/executor/executor.ts:91-124 | an action keeps the earlier results and adds one result for its one request |
| ExecutorFacts.StepsTrack | src/executor/executor.ts:63-68 | a run keeps earlier results and requests and adds one result per request in order; all added results but the last passed; a failed last one carries the run's error |
| ExecutorFacts.StepTracks | src/executor/executor.ts:70-89 | the same for one step |
| ExecutorFacts.IfTracks | src/executor/executor.ts:141-155 | the same for an if step |
| ExecutorFacts.LoopTracks | src/executor/executor.ts:157-175 | the same for a loop step |
| ExecutorFacts.PassesTrack | src/executor/executor.ts:161-174 | the same for the passes of a loop |
| ExecutorFacts.CaseReport | src/executor/executor.ts:42-54 | the case result is named after the case and failed exactly when the run threw; a passed case has only passed steps; only the last step can fail, carrying the error; one step result per request, in order |
| ExecutorFacts.ActionRecordsOneResult | src/executor/executor.ts:91-124 | an action makes one request with the substituted text and records one result numbered position + 1 with that text, passed or failed with the library's message, which it rethrows; variables unchanged |
| ExecutorFacts.MarkersDoNothing | src/executor/executor.ts:78-85 | else, endif and endloop met in a list do nothing and record nothing |
| ExecutorFacts.UnknownTypeStops | src/executor/executor.ts:86-87 | an unknown type throws `Неизвестный тип шага: <type>` and nothing after it runs |
| ExecutorFacts.IfTrueRunsChildren | src/executor/executor.ts:145-148 | unfolding of `RunIf` for a true condition |
| ExecutorFacts.ElseChildSkipped | src/executor/executor.ts:78-79 | an else child among the children is passed over |
| ExecutorFacts.IfFalseRunsFirstElse | src/executor/executor.ts:149-153 | a false condition runs only the children of the first else child |
| ExecutorFacts.IfFalseWithoutElse | src/executor/executor.ts:149-153 | unfolding of `RunIf` for a false condition with no else child |
| ExecutorFacts.PassesInOrder | src/executor/executor.ts:161-174 | the items `xs + ys` run the passes over `xs`, then over `ys` if none threw |
| ExecutorFacts.ActionsKeepVariables | src/executor/executor.ts:91-125 | plain actions leave the variables alone |
| ExecutorFacts.StepsKeep | src/executor/executor.ts:63-175 | a step list in which no loop, at any depth, can rebind a name leaves that name's value (or its absence) as it was |
| ExecutorFacts.StepKeepsVariable | src/executor/executor.ts:70-89 | the same for one step |
| ExecutorFacts.IfKeeps | src/executor/executor.ts:141-155 | the same for an if step, on either branch |
| ExecutorFacts.LoopKeeps | src/executor/executor.ts:157-175 | the same for a loop step whose own variable is another name |
| ExecutorFacts.PassesKeep | src/executor/executor.ts:161-174 | the same for the passes of such a loop |
| ExecutorFacts.PassesBindLast | src/executor/executor.ts:161-174 | after passes that threw nothing, the loop variable holds the last item, whatever ifs and loops the body holds, provided none of its loops rebinds that variable |
| ExecutorFacts.LoopBindsLastItem | src/executor/executor.ts:157-175 | after a loop that threw nothing, the name before ` в ` holds the last item, for any body in which no loop rebinds that name |
| ExecutorFacts.PassesOfActionsBindLast | src/executor/executor.ts:161-174 | for a body of plain actions: after passes that threw nothing, the loop variable holds the last item and every other variable is unchanged |
| ExecutorFacts.LoopOfActionsBindsLast | src/executor/executor.ts:157-175 | for a body of plain actions: after a loop that threw nothing, the variables are the old ones with the name before ` в ` set to the last item |
| ExecutorFacts.OnePass | src/executor/executor.ts:167-172 | a one-action body requests the action with the parameter list `[item]` |
| ExecutorFacts.OneItem | src/executor/executor.ts:161-173 | one item binds the variable and runs the body with every parameter list replaced by `[item]` |
| ExecutorFacts.LoopOverridesParameters | src/executor/executor.ts:166-172 | a loop over one item whose body is one action requests that action with `[item]`, not its own parameters |
| Steps.ProductNameToKey | src/steps/steps.ts:211-213 | the key has the name's length; each character is lower-cased, and every space becomes `-` |
| Steps.DigitPrefix | src/steps/steps.ts:182 | the maximal run of digits that `parseInt` reads |
| Steps.ParseInt | src/steps/steps.ts:182 | reference function, no contract of its own: `StepsFacts.ParseDecimal`, `ParseNegative` and `ParseUndefined` state what it gives |
| Steps.PriceVariable | src/steps/steps.ts:173 | reference function, no contract of its own: `StepsFacts.PriceChoice` and `PriceIsRemembered` state where the price goes |
| Steps.Known | src/steps/steps.ts:49-186 | reference predicate, no contract of its own: `StepsFacts.UnknownActionFails` and `KnownActionHandled` tie it to the fallback error |
| Steps.Select | src/steps/steps.ts:49-187 | reference function, no contract of its own: `StepsFacts.UsernameIsNotFirstName`, `PasswordNeedsUsername`, `AddToCartKey`, `CheckoutNeedsCustomerData`, `PriceChoice` and `UnknownActionFails` state its choices |
| Steps.Perform | src/steps/steps.ts:49-207 | reference function, no contract of its own: `StepsFacts.PerformEffects` and `PriceIsRemembered` state its effects, and `ActionLibrary.PerformAction` is proved to do the same |
| Steps.ActionLibrary.constructor | src/steps/steps.ts:17 | an empty store and no page requests |
| Steps.ActionLibrary.SetVariable | src/steps/steps.ts:229-231 | one name set, nothing else changed |
| Steps.ActionLibrary.GetVariable | src/steps/steps.ts:233-235 | the stored value, or `undefined` for a name never set |
| Steps.ActionLibrary.PerformAction | src/steps/steps.ts:49-187 | the imperative chain leaves the store, the page requests and the error that `Perform` prescribes |
| StepsFacts.SetThenGet | src/steps/steps.ts:229-235 | after setting `n` to `v`, `n` reads `v` and every other name reads as before |
| StepsFacts.UsernameIsNotFirstName | src/steps/steps.ts:59-63 | `Ввести имя пользователя` also starts with `Ввести имя`, but it stores `parameters[0]` as `username` only |
| StepsFacts.PasswordNeedsUsername | src/steps/steps.ts:65-73 | with a falsy `username`, fails with the missing-username message; otherwise logs in with `username` and `parameters[0]` |
| StepsFacts.AddToCartKey | src/steps/steps.ts:86-90 | adds the product by `productNameToKey(parameters[0])`, and with no parameter fails as `toLowerCase` of `undefined` does |
| StepsFacts.CheckoutNeedsCustomerData | src/steps/steps.ts:127-136 | fills in the three stored values when all are truthy, otherwise fails with the missing-data message |
| StepsFacts.PriceChoice | src/steps/steps.ts:171-173 | the price action asks for the price of `parameters[0]` to be stored under `parameters[1]` |
| StepsFacts.PriceIsRemembered | src/steps/steps.ts:171-178 | a fetched price is stored under `parameters[1]`, every other name is unchanged, and one page request is recorded |
| StepsFacts.UnknownActionFails | src/steps/steps.ts:49-187 | the action fails with `Неизвестное действие: <action>` exactly when none of the chain's twenty tests holds |
| StepsFacts.KnownActionHandled | src/steps/steps.ts:49-186 | an action some test accepts never gets the fallback message, not even from a failed precondition |
| StepsFacts.UnknownInitial | src/steps/steps.ts:49-186 | an action whose first letter starts no tested prefix passes none of the tests |
| StepsFacts.EnglishActionsUnknown | src/steps/steps.ts:187 | an action opening with a Latin letter, as the English phrases do, is unknown |
| StepsFacts.PerformEffects | src/steps/steps.ts:49-207 | at most one page request is added; an error keeps the store; a failed precondition changes nothing and throws its message; a page failure is rethrown unchanged |
| StepsFacts.KeyHasNoSpaces | src/steps/steps.ts:212 | a product key holds no space |
| StepsFacts.KeyIdempotent | src/steps/steps.ts:212 | a key is its own key |
| StepsFacts.KeyExample | src/steps/steps.ts:212 | `Sauce Labs Backpack` gives `sauce-labs-backpack` and `Телефон` gives `телефон` |
| StepsFacts.ParseDecimal | src/steps/steps.ts:182 | `parseInt` of a decimal numeral followed by a non-digit reads that number |
| StepsFacts.ParseNegative | src/steps/steps.ts:182 | `parseInt("-" + n)` is `-n` |
| StepsFacts.ParseUndefined | src/steps/steps.ts:182 | `parseInt(undefined)` is `NaN` |
| FrameworkExecutor.EvaluateCondition | src/framework/executor.ts:101-111 | any condition other than the Russian title test throws `Неизвестное условие: <cond>` |
| FrameworkExecutor.GetLoopItems | src/framework/executor.ts:113-120 | fails exactly when there is no ` в [..]` match, with `Неверное выражение цикла: <expr>` |
| FrameworkExecutor.RunAction | src/framework/executor.ts:45-57 | reference function, no contract of its own: `FrameworkFacts.ActionPerforms` unfolds it |
| FrameworkExecutor.RunSteps | src/framework/executor.ts:16-20 | reference function, no contract of its own: `FrameworkFacts.StepsAppend` and `StepsExtend` state what it does |
| FrameworkExecutor.RunStep | src/framework/executor.ts:22-43 | reference function, no contract of its own: `FrameworkFacts.MarkersDoNothing`, `UnknownTypeStops` and `StepExtends` state what it does |
| FrameworkExecutor.RunIf | src/framework/executor.ts:59-75 | reference function, no contract of its own: `FrameworkFacts.ConditionErrorStops` and `IfExtends` state what it does |
| FrameworkExecutor.RunLoop | src/framework/executor.ts:77-92 | reference function, no contract of its own: `FrameworkFacts.LoopExtends` and `NoRussianSeparatorRejected` state what it does |
| FrameworkExecutor.RunPasses | src/framework/executor.ts:81-91 | reference function, no contract of its own: `FrameworkFacts.PassesInOrder`, `PassesExtend` and `OnePassAsWritten` state what it does |
| FrameworkExecutor.TestExecutor.constructor | src/framework/executor.ts:4-5 | the given library and no variables |
| FrameworkExecutor.TestExecutor.ExecuteTestCase | src/framework/executor.ts:7-14 | the error is caught, and the state is what the run left |
| FrameworkExecutor.TestExecutor.ExecuteSteps | src/framework/executor.ts:16-20 | the loop, stopping at the first error, equals `RunSteps` |
| FrameworkExecutor.TestExecutor.ExecuteStep | src/framework/executor.ts:22-43 | dispatch on the type equals `RunStep` |
| FrameworkExecutor.TestExecutor.ExecuteAction | src/framework/executor.ts:45-57 | substitute, perform on the library, rethrow: equals `RunAction` |
| FrameworkExecutor.TestExecutor.ExecuteIf | src/framework/executor.ts:59-75 | equals `RunIf` |
| FrameworkExecutor.TestExecutor.ExecuteLoop | src/framework/executor.ts:77-92 | the loop over the items equals `RunLoop` |
| FrameworkFacts.StepsAppend | src/framework/executor.ts:16-20 | running `xs + ys` runs `ys` only after `xs` threw nothing |
| FrameworkFacts.MarkersDoNothing | src/framework/executor.ts:30-39 | else, endif and endloop do nothing |
| FrameworkFacts.UnknownTypeStops | src/framework/executor.ts:40-41 | an unknown type throws `Неизвестный тип шага: <type>` and stops the list |
| FrameworkFacts.ActionPerforms | src/framework/executor.ts:45-57 | unfolding of `RunAction` |
| FrameworkFacts.StepsExtend | src/framework/executor.ts:16-20 | a run keeps the library's page requests, in order, and may only add to them |
| FrameworkFacts.StepExtends | src/framework/executor.ts:22-43 | the same for one step |
| FrameworkFacts.IfExtends | src/framework/executor.ts:59-75 | the same for an if step |
| FrameworkFacts.LoopExtends | src/framework/executor.ts:77-80 | the same for a loop |
| FrameworkFacts.PassesExtend | src/framework/executor.ts:81-91 | the same for the passes of a loop |
| FrameworkFacts.TitleConditionOffset | src/framework/executor.ts:104-107 | the title test compares `т ` plus the quote-free rest with the stored `pageTitle`, and throws when none is stored |
| FrameworkFacts.TitleTestNeedsTe | src/framework/executor.ts:105-107 | a title test holds only for a title containing `т ` |
| FrameworkFacts.NoLetterTe | src/framework/executor.ts:104-107 | for a stored title without the letter `т`, every title test is false, whatever its text |
| FrameworkFacts.ExampleConditionFails | src/framework/executor.ts:102-107 | the code comment's own example against the title `Example Domain` is false |
| FrameworkFacts.EnglishConditionThrows | src/framework/executor.ts:110 | the English title test is an unknown condition here |
| FrameworkFacts.ConditionErrorStops | src/framework/executor.ts:60-61 | a throwing condition makes the if throw, and no child runs |
| FrameworkFacts.RussianHeader | src/framework/executor.ts:115-117 | `name в [inner]` on one line gives the items of `inner` |
| FrameworkFacts.NoRussianSeparatorRejected | src/framework/executor.ts:115-119 | a header without ` в `, English ones among them, throws `Неверное выражение цикла: <expr>` |
| FrameworkFacts.OnePassAsWritten | src/framework/executor.ts:81-90 | unfolding of `RunPasses` for one item |
| FrameworkFacts.PassesInOrder | src/framework/executor.ts:81-91 | the items `xs + ys` run the passes over `xs`, then over `ys` if none threw |
| Pipeline.SiblingElseNeverRuns | src/executor/executor.ts:141-155 | an if without else children, followed by an else sibling: the children run when the condition holds, and otherwise nothing runs |
| Pipeline.FrameworkSiblingElseNeverRuns | src/framework/executor.ts:59-75 | the same for the earlier interpreter, whose condition may also throw |
| Pipeline.ScriptElseNeverRuns | src/parser/parser.ts:47-53 | for a parsed `if`/`else`/`endif` script written directly in a case, the else actions never run |
| Pipeline.NestedElseRunsOnOuterCondition | src/executor/executor.ts:149-153 | an else written after an inner `if` belongs to the outer one, and runs when the outer condition is false |
| Pipeline.EnglishTitleTestLost | src/parser/parser.ts:74 | `If page title contains ...` loses its first letter, so the main interpreter takes it as true and the earlier one throws |
| Pipeline.RussianTitleTestKept | src/parser/parser.ts:74 | `Если заголовок страницы содержит ...` keeps its condition, which holds exactly when the title contains the quote-free text |
| Pipeline.EnglishLoopHeader | src/parser/parser.ts:81 | `For each` loses two characters; the rest is still a valid ` in [..]` header for the main interpreter, which binds the whole expression; the earlier one throws |
| Pipeline.FlatRunsAgree | src/framework/executor.ts:16-57 | on steps with no blocks, both interpreters make the same library requests, leave the same variables and throw the same error |

## Left out

- Timing is not modelled: `Date.now`, `durationMs`, `stepsTiming` and `reportTiming`. These are clock reads and a console table.
- Log output is not modelled: console messages and `saveLogs`, which writes JSON through the file system.
- Reading the script file is not modelled. The parser takes the file's content as a string.
- The browser is not modelled: `ensureBrowser`, `closeBrowser`, and the screenshots and videos taken on a failure. Only the rethrow that ends the catch block is kept.
- The page objects of src/pom/pages.ts are not part of this model. Each call is a recorded request to an oracle, which either yields a value or fails.
- The main interpreter's `performAction` is the abstract oracle `Executor.Oracle`. `Pipeline.LibraryOracle` shows the action library supplying it.
- Configuration, the entry point and performance metrics are not part of this model.
- `async`/`await` is modelled as ordinary sequential calls, because every call is awaited before the next one starts.
- `steps.indexOf(step)` is modelled as the step's position. This is the same thing because every step is a distinct object: the parser builds a new one per line, and the loop builds fresh copies.
- Variable values are strings only. In steps.ts, a value read from a missing parameter is `undefined`, which is modelled as `None`.
- Prototype keys such as `constructor` in a dictionary lookup are not modelled. A name reads as `undefined` unless it was set.
- Text.LowerChar: lower-casing covers ASCII, the Latin-1 capitals and the basic Cyrillic letters U+0400–U+042F, not full Unicode case mapping. A line outside these letters may classify differently from JavaScript.
- Steps.ParseInt: digits are read into an unbounded integer, so very long numerals do not lose precision as JavaScript numbers do.
- English action phrases in the action library are not modelled as succeeding. The code tests only Russian prefixes, so they are unknown actions (`StepsFacts.EnglishActionsUnknown`).
- UTF-16 code units are not modelled. JavaScript's `substring` offsets (4, 5, 11, 20, 26, 28) and `.length` count UTF-16 code units, while a Dafny `string` is indexed by Unicode scalar values. The model assumes text in the Basic Multilingual Plane, where the two agree, in Text.Substring, Parser.ParseStep, Parser.CaseName, both EvaluateConditions and Steps.ProductNameToKey. A character outside it, such as an emoji in a name, title or product, shifts the offsets in JavaScript but not here.
- LoopBindsLastItem: a body loop rebinds nothing only when its header holds no `{` placeholder, because only then is its variable fixed by the text. A nested loop whose header has placeholders, or one that binds the same name, is not covered, and for those bodies nothing is stated about the variable after the loop.
- PassesBindLast: the same restriction on the loops inside the body.
- The two variable maps are kept apart, as in the code: the interpreter's `variables` and the action library's store.
