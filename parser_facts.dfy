/** Properties of the block parser of src/parser/parser.ts, stated over the
    fold `Run` that the imperative `ParseFeature` is proved equal to, and
    over the scan behind `extractActionAndParameters`. */
module ParserFacts {
  import opened Wrappers
  import opened Text
  import opened Parser

  // ---------------------------------------------------------------------
  // Parameter extraction, piece by piece

  /** A quoted literal at the start of the text is one match: its inside
      is captured and it becomes one `{}`. */
  lemma {:induction false} ScanQuoted(t: string, rest: string)
    requires t != [] && '"' !in t
    ensures Captures(Scan("\"" + t + "\"" + rest)) == [t] + Captures(Scan(rest))
    ensures Placeholders(Scan("\"" + t + "\"" + rest)) == "{}" + Placeholders(Scan(rest))
  {
    var s := "\"" + t + "\"" + rest;
    assert s[1..][..|t|] == t;
    assert s[1..][|t|] == '"';
    QuoteFreePrefix(s[1..], t);
    assert Head(s) == (Quoted(t), |t| + 2) by {
      assert s[1..|t| + 1] == t;
    }
    assert s[|t| + 2..] == rest;
    CapturesHead(s);
    PlaceholdersHead(s);
  }

  lemma {:induction false} QuoteFreePrefix(s: string, t: string)
    requires |t| < |s| && s[..|t|] == t && '"' !in t && s[|t|] == '"'
    ensures QuoteFreeRun(s) == |t|
    decreases |t|
  {
    if t != [] {
      assert s[0] == t[0];
      assert s[1..][..|t| - 1] == t[1..];
      QuoteFreePrefix(s[1..], t[1..]);
    }
  }

  /** A maximal digit run at the start of the text is one match. */
  lemma {:induction false} ScanDigits(d: string, rest: string)
    requires d != [] && forall i :: 0 <= i < |d| ==> IsDigit(d[i])
    requires rest == [] || !IsDigit(rest[0])
    ensures Captures(Scan(d + rest)) == [d] + Captures(Scan(rest))
    ensures Placeholders(Scan(d + rest)) == "{}" + Placeholders(Scan(rest))
  {
    var s := d + rest;
    DigitPrefix(s, d);
    assert s[..|d|] == d;
    assert Head(s) == (Digits(d), |d|);
    assert s[|d|..] == rest;
    CapturesHead(s);
    PlaceholdersHead(s);
  }

  lemma {:induction false} DigitPrefix(s: string, d: string)
    requires |d| <= |s| && s[..|d|] == d
    requires forall i :: 0 <= i < |d| ==> IsDigit(d[i])
    requires |d| == |s| || !IsDigit(s[|d|])
    ensures DigitRun(s) == |d|
    decreases |d|
  {
    if d != [] {
      assert s[0] == d[0];
      assert s[1..][..|d| - 1] == d[1..];
      DigitPrefix(s[1..], d[1..]);
    }
  }

  /** Text with neither quotes nor digits holds no match: it is copied to
      the template and captures nothing. */
  lemma {:induction false} ScanPlain(p: string, rest: string)
    requires '"' !in p && forall i :: 0 <= i < |p| ==> !IsDigit(p[i])
    ensures Captures(Scan(p + rest)) == Captures(Scan(rest))
    ensures Placeholders(Scan(p + rest)) == p + Placeholders(Scan(rest))
    decreases |p|
  {
    if p == [] {
      assert p + rest == rest;
      EmptyLeft(Placeholders(Scan(rest)));
    } else {
      assert p + rest == [p[0]] + (p[1..] + rest);
      ScanPlainOne(p[0], p[1..] + rest);
      ScanPlain(p[1..], rest);
      var tail := Placeholders(Scan(rest));
      AppendStep([p[0]], p[1..], tail, p[1..] + tail);
      assert [p[0]] + p[1..] == p;
    }
  }

  /** One character that is neither a quote nor a digit is a match of its
      own kind: copied, and captured by nothing. */
  lemma ScanPlainOne(c: char, rest: string)
    requires c != '"' && !IsDigit(c)
    ensures Captures(Scan([c] + rest)) == Captures(Scan(rest))
    ensures Placeholders(Scan([c] + rest)) == [c] + Placeholders(Scan(rest))
  {
    var s := [c] + rest;
    assert s[0] == c;
    assert Head(s) == (Plain(c), 1);
    assert s[1..] == rest;
    CapturesHead(s);
    PlaceholdersHead(s);
    EmptyLeft(Captures(Scan(rest)));
  }

  /** Text without quotes or digits. */
  predicate NoLiteral(p: string) {
    '"' !in p && forall i :: 0 <= i < |p| ==> !IsDigit(p[i])
  }

  /** The scan of `p1 qa p2 qb p3 d p4`, one piece at a time from the right. */
  lemma NestedLiterals(p1: string, qa: string, p2: string, qb: string, p3: string, d: string, p4: string,
                       a: string, b: string)
    requires NoLiteral(p1) && NoLiteral(p2) && NoLiteral(p3) && NoLiteral(p4)
    requires a != [] && '"' !in a && qa == "\"" + a + "\""
    requires b != [] && '"' !in b && qb == "\"" + b + "\""
    requires d != [] && forall i :: 0 <= i < |d| ==> IsDigit(d[i])
    ensures var line := p1 + (qa + (p2 + (qb + (p3 + (d + p4)))));
      && Captures(Scan(line)) == [a] + ([b] + [d])
      && Placeholders(Scan(line)) == p1 + ("{}" + (p2 + ("{}" + (p3 + ("{}" + (p4 + ""))))))
  {
    assert p4 + "" == p4;
    ScanPlain(p4, "");
    ScanDigits(d, p4);
    ScanPlain(p3, d + p4);
    ScanQuoted(b, p3 + (d + p4));
    ScanPlain(p2, qb + (p3 + (d + p4)));
    ScanQuoted(a, p2 + (qb + (p3 + (d + p4))));
    ScanPlain(p1, qa + (p2 + (qb + (p3 + (d + p4)))));
  }

  /** Two quoted literals and a number between plain pieces: the three are
      captured left to right and each becomes one `{}`. */
  lemma ThreeLiterals(p1: string, qa: string, p2: string, qb: string, p3: string, d: string, p4: string,
                      a: string, b: string)
    requires NoLiteral(p1) && NoLiteral(p2) && NoLiteral(p3) && NoLiteral(p4)
    requires a != [] && '"' !in a && qa == "\"" + a + "\""
    requires b != [] && '"' !in b && qb == "\"" + b + "\""
    requires d != [] && forall i :: 0 <= i < |d| ==> IsDigit(d[i])
    ensures Captures(Scan(p1 + qa + p2 + qb + p3 + d + p4)) == [a, b, d]
    ensures Placeholders(Scan(p1 + qa + p2 + qb + p3 + d + p4)) == p1 + "{}" + p2 + "{}" + p3 + "{}" + p4
  {
    NestedLiterals(p1, qa, p2, qb, p3, d, p4, a, b);
    Reassociate(p1, qa, p2, qb, p3, d, p4);
    assert [a] + ([b] + [d]) == [a, b, d];
    assert p4 + "" == p4;
    Reassociate(p1, "{}", p2, "{}", p3, "{}", p4);
  }

  lemma {:induction false} Assoc<T>(a: seq<T>, b: seq<T>, c: seq<T>)
    ensures a + b + c == a + (b + c)
  {
  }

  lemma {:induction false} Reassociate<T>(x1: seq<T>, x2: seq<T>, x3: seq<T>, x4: seq<T>, x5: seq<T>, x6: seq<T>, x7: seq<T>)
    ensures x1 + x2 + x3 + x4 + x5 + x6 + x7 == x1 + (x2 + (x3 + (x4 + (x5 + (x6 + x7)))))
  {
    Assoc(x1 + x2 + x3 + x4 + x5, x6, x7);
    Assoc(x1 + x2 + x3 + x4, x5, x6 + x7);
    Assoc(x1 + x2 + x3, x4, x5 + (x6 + x7));
    Assoc(x1 + x2, x3, x4 + (x5 + (x6 + x7)));
    Assoc(x1, x2, x3 + (x4 + (x5 + (x6 + x7))));
  }

  /** The parser's own example: two quoted literals and a number, captured
      left to right and each replaced by `{}`. */
  lemma ParametersExample()
    ensures var line := "Действие: Ввести " + "\"Логин\"" + " в поле " + "\"Username\"" + " за " + "10" + " секунд";
      && ParametersOf(line) == ["Логин", "Username", "10"]
      && TemplateOf(line) == "Действие: Ввести " + "{}" + " в поле " + "{}" + " за " + "{}" + " секунд"
  {
    ExamplePlain();
    ExampleQuoted();
    ThreeLiterals("Действие: Ввести ", "\"Логин\"", " в поле ", "\"Username\"", " за ", "10", " секунд",
                  "Логин", "Username");
    ExampleTemplateTrimmed();
  }

  /** The example's text between its literals holds no literal. */
  lemma ExamplePlain()
    ensures NoLiteral("Действие: Ввести ") && NoLiteral(" в поле ")
    ensures NoLiteral(" за ") && NoLiteral(" секунд")
  {
  }

  /** The example's literals: two quoted words and a number. */
  lemma ExampleQuoted()
    ensures '"' !in "Логин" && "\"Логин\"" == "\"" + "Логин" + "\""
    ensures '"' !in "Username" && "\"Username\"" == "\"" + "Username" + "\""
    ensures forall i :: 0 <= i < |"10"| ==> IsDigit("10"[i])
  {
  }

  /** The example's template has no surrounding whitespace to trim. */
  lemma ExampleTemplateTrimmed()
    ensures var template := "Действие: Ввести " + "{}" + " в поле " + "{}" + " за " + "{}" + " секунд";
      Trim(template) == template
  {
    var template := "Действие: Ввести " + "{}" + " в поле " + "{}" + " за " + "{}" + " секунд";
    assert template[0] == 'Д';
    assert template[|template| - 1] == 'д';
    TrimIdentity(template);
  }

  // ---------------------------------------------------------------------
  // Keywords

  /** Keyword recognition ignores case: two lines that lower-case to the
      same text are classified alike. */
  lemma {:induction false} KeywordsIgnoreCase(a: string, b: string)
    requires ToLower(a) == ToLower(b)
    ensures ParseStep(a).kind == ParseStep(b).kind
    ensures IsTestLine(a) == IsTestLine(b)
  {
    TrimLower(a);
    TrimLower(b);
  }

  /** A keyword line with no whitespace at either end is its own trim. */
  lemma {:induction false} KeywordTrim(keyword: string, rest: string)
    requires keyword != [] && !IsWhitespace(keyword[0])
    requires rest != [] && !IsWhitespace(rest[|rest| - 1])
    ensures Trim(keyword + rest) == keyword + rest
  {
    TrimIdentity(keyword + rest);
  }

  /** A line that starts with `keyword` starts, lower-cased, with the
      lower-cased keyword. */
  lemma {:induction false} KeywordLower(keyword: string, lower: string, rest: string)
    requires ToLower(keyword) == lower
    ensures StartsWith(ToLower(keyword + rest), lower)
  {
    ToLowerSlice(keyword + rest, 0, |keyword|);
    assert (keyword + rest)[0..|keyword|] == keyword;
  }

  /** Cutting a keyword line just before the keyword's final space. */
  lemma {:induction false} KeywordSpace(keyword: string, rest: string)
    requires keyword != [] && keyword[|keyword| - 1] == ' '
    ensures (keyword + rest)[|keyword| - 1..] == [' '] + rest
  {
    assert (keyword + rest)[|keyword| - 1..] == [keyword[|keyword| - 1]] + rest;
  }

  /** Cutting a keyword line at offset `n` past the keyword. */
  lemma {:induction false} DropKeyword(keyword: string, rest: string, n: nat)
    requires |keyword| <= n <= |keyword| + |rest|
    ensures (keyword + rest)[n..] == rest[n - |keyword|..]
  {
  }

  /** A trimmed line opening with an `if` keyword (in any case) is an `if`
      step. */
  lemma {:induction false} IfKind(line: string)
    requires Trim(line) == line
    requires StartsWith(ToLower(line), "если ") || StartsWith(ToLower(line), "if ")
    ensures ParseStep(line).kind.If?
  {
  }

  /** A trimmed `if` line keeps its text from offset 4 on as the condition. */
  lemma {:induction false} IfCondition(line: string)
    requires Trim(line) == line && ParseStep(line).kind.If?
    ensures ParseStep(line).action == Some(Trim(Substring(line, 4)))
  {
  }

  /** A trimmed line opening with a `for each` keyword (in any case) is a
      loop step. */
  lemma {:induction false} LoopKind(line: string)
    requires Trim(line) == line
    requires StartsWith(ToLower(line), "для каждого ") || StartsWith(ToLower(line), "for each ")
    ensures ParseStep(line).kind.Loop?
  {
    LoopKindOf(ToLower(line));
  }

  /** A string that starts with `p` does not start with a `q` whose first
      character differs. */
  lemma {:induction false} FirstCharDiffers(s: string, p: string, q: string)
    requires StartsWith(s, p) && p != [] && q != [] && p[0] != q[0]
    ensures !StartsWith(s, q)
  {
    assert s[..|p|][0] == s[0];
  }

  lemma {:induction false} LoopKindOf(lowered: string)
    requires StartsWith(lowered, "для каждого ") || StartsWith(lowered, "for each ")
    ensures KindOf(lowered) == Loop
  {
    var p := if StartsWith(lowered, "для каждого ") then "для каждого " else "for each ";
    FirstCharDiffers(lowered, p, "если ");
    FirstCharDiffers(lowered, p, "if ");
    FirstCharDiffers(lowered, p, "иначе");
    FirstCharDiffers(lowered, p, "else");
    FirstCharDiffers(lowered, p, "конецесли");
    FirstCharDiffers(lowered, p, "endif");
  }

  /** A trimmed loop line keeps its text from offset 11 on as the
      expression. */
  lemma {:induction false} LoopExpression(line: string)
    requires Trim(line) == line && ParseStep(line).kind.Loop?
    ensures ParseStep(line).action == Some(Trim(Substring(line, 11)))
  {
  }

  /** `If <rest>`: the condition is cut at offset 4, one past the English
      keyword and its space, so the first character of the condition is
      lost. */
  lemma {:induction false} EnglishIfClipsCondition(rest: string)
    requires rest != [] && !IsWhitespace(rest[|rest| - 1])
    ensures ParseStep("If " + rest).kind.If?
    ensures ParseStep("If " + rest).action == Some(Trim(rest[1..]))
  {
    assert ToLower("If ") == "if ";
    KeywordTrim("If ", rest);
    KeywordLower("If ", "if ", rest);
    IfKind("If " + rest);
    IfCondition("If " + rest);
    DropKeyword("If ", rest, 4);
  }

  /** `Если <rest>`: offset 4 is the space after the Russian keyword, so the
      whole condition is kept. */
  lemma {:induction false} RussianIfKeepsCondition(rest: string)
    requires rest != [] && !IsWhitespace(rest[0]) && !IsWhitespace(rest[|rest| - 1])
    ensures ParseStep("Если " + rest).kind.If?
    ensures ParseStep("Если " + rest).action == Some(rest)
  {
    assert ToLower("Если ") == "если ";
    KeywordTrim("Если ", rest);
    KeywordLower("Если ", "если ", rest);
    IfKind("Если " + rest);
    IfCondition("Если " + rest);
    KeywordSpace("Если ", rest);
    TrimIdentity(rest);
    TrimLeadingSpace(rest);
  }

  /** `For each <rest>`: the loop expression is cut at offset 11, two past
      the English keyword and its space. */
  lemma {:induction false} EnglishLoopClipsExpression(rest: string)
    requires |rest| >= 2 && !IsWhitespace(rest[|rest| - 1])
    ensures ParseStep("For each " + rest).kind.Loop?
    ensures ParseStep("For each " + rest).action == Some(Trim(rest[2..]))
  {
    assert ToLower("For each ") == "for each ";
    KeywordTrim("For each ", rest);
    KeywordLower("For each ", "for each ", rest);
    LoopKind("For each " + rest);
    LoopExpression("For each " + rest);
    DropKeyword("For each ", rest, 11);
  }

  /** `Для каждого <rest>`: offset 11 is the space after the Russian keyword,
      so the whole expression is kept. */
  lemma {:induction false} RussianLoopKeepsExpression(rest: string)
    requires rest != [] && !IsWhitespace(rest[0]) && !IsWhitespace(rest[|rest| - 1])
    ensures ParseStep("Для каждого " + rest).kind.Loop?
    ensures ParseStep("Для каждого " + rest).action == Some(rest)
  {
    assert ToLower("Для каждого ") == "для каждого ";
    KeywordTrim("Для каждого ", rest);
    KeywordLower("Для каждого ", "для каждого ", rest);
    LoopKind("Для каждого " + rest);
    LoopExpression("Для каждого " + rest);
    KeywordSpace("Для каждого ", rest);
    TrimIdentity(rest);
    TrimLeadingSpace(rest);
  }

  lemma {:induction false} ElseKindOf(lowered: string)
    requires StartsWith(lowered, "иначе") || StartsWith(lowered, "else")
    ensures KindOf(lowered) == Else
  {
    var p := if StartsWith(lowered, "иначе") then "иначе" else "else";
    FirstCharDiffers(lowered, p, "если ");
    FirstCharDiffers(lowered, p, "if ");
  }

  lemma {:induction false} EndIfKindOf(lowered: string)
    requires StartsWith(lowered, "конецесли") || StartsWith(lowered, "endif")
    ensures KindOf(lowered) == EndIf
  {
    var p := if StartsWith(lowered, "конецесли") then "конецесли" else "endif";
    FirstCharDiffers(lowered, p, "если ");
    FirstCharDiffers(lowered, p, "if ");
    FirstCharDiffers(lowered, p, "иначе");
    PrefixesDiffer(lowered, p, "else", if p == "endif" then 1 else 0);
  }

  lemma {:induction false} EndLoopKindOf(lowered: string)
    requires StartsWith(lowered, "конеццикла") || StartsWith(lowered, "endloop")
    ensures KindOf(lowered) == EndLoop
  {
    var p := if StartsWith(lowered, "конеццикла") then "конеццикла" else "endloop";
    FirstCharDiffers(lowered, p, "если ");
    FirstCharDiffers(lowered, p, "if ");
    FirstCharDiffers(lowered, p, "иначе");
    PrefixesDiffer(lowered, p, "else", if p == "endloop" then 1 else 0);
    PrefixesDiffer(lowered, p, "конецесли", if p == "endloop" then 0 else 5);
    PrefixesDiffer(lowered, p, "endif", if p == "endloop" then 3 else 0);
    FirstCharDiffers(lowered, p, "для каждого ");
    FirstCharDiffers(lowered, p, "for each ");
  }

  /** A trimmed line opening with an `else` keyword (in any case) is a bare
      else marker: no text, no parameters, no children. */
  lemma {:induction false} ElseKind(line: string)
    requires Trim(line) == line
    requires StartsWith(ToLower(line), "иначе") || StartsWith(ToLower(line), "else")
    ensures ParseStep(line) == EmptyStep(Else)
  {
    ElseKindOf(ToLower(line));
  }

  /** A trimmed line opening with an `endif` keyword (in any case) is a bare
      end-of-if marker. */
  lemma {:induction false} EndIfKind(line: string)
    requires Trim(line) == line
    requires StartsWith(ToLower(line), "конецесли") || StartsWith(ToLower(line), "endif")
    ensures ParseStep(line) == EmptyStep(EndIf)
  {
    EndIfKindOf(ToLower(line));
  }

  /** A trimmed line opening with an `endloop` keyword (in any case) is a
      bare end-of-loop marker. */
  lemma {:induction false} EndLoopKind(line: string)
    requires Trim(line) == line
    requires StartsWith(ToLower(line), "конеццикла") || StartsWith(ToLower(line), "endloop")
    ensures ParseStep(line) == EmptyStep(EndLoop)
  {
    EndLoopKindOf(ToLower(line));
  }

  /** `Иначе если <rest>` is an else marker, not an if: the `иначе` test
      comes first and the condition is thrown away. */
  lemma {:induction false} RussianElseIfDropsCondition(rest: string)
    requires rest != [] && !IsWhitespace(rest[|rest| - 1])
    ensures ParseStep("Иначе если " + rest) == EmptyStep(Else)
  {
    assert ToLower("Иначе если ") == "иначе если ";
    KeywordTrim("Иначе если ", rest);
    KeywordLower("Иначе если ", "иначе если ", rest);
    StartsWithPrefix(ToLower("Иначе если " + rest), "иначе если ", "иначе");
    ElseKind("Иначе если " + rest);
  }

  /** `Else if <rest>` is likewise an else marker without its condition. */
  lemma {:induction false} EnglishElseIfDropsCondition(rest: string)
    requires rest != [] && !IsWhitespace(rest[|rest| - 1])
    ensures ParseStep("Else if " + rest) == EmptyStep(Else)
  {
    assert ToLower("Else if ") == "else if ";
    KeywordTrim("Else if ", rest);
    KeywordLower("Else if ", "else if ", rest);
    StartsWithPrefix(ToLower("Else if " + rest), "else if ", "else");
    ElseKind("Else if " + rest);
  }

  /** A trimmed line that opens with none of the ten keywords (in any case)
      is an action: its template and its parameters come from the line. */
  lemma {:induction false} ActionKind(line: string)
    requires Trim(line) == line
    requires !StartsWith(ToLower(line), "если ") && !StartsWith(ToLower(line), "if ")
    requires !StartsWith(ToLower(line), "иначе") && !StartsWith(ToLower(line), "else")
    requires !StartsWith(ToLower(line), "конецесли") && !StartsWith(ToLower(line), "endif")
    requires !StartsWith(ToLower(line), "для каждого ") && !StartsWith(ToLower(line), "for each ")
    requires !StartsWith(ToLower(line), "конеццикла") && !StartsWith(ToLower(line), "endloop")
    ensures ParseStep(line) == TestStep(Action, Some(TemplateOf(line)), Some(ParametersOf(line)), NoChildren)
  {
  }

  lemma {:induction false} TrimLeadingSpace(s: string)
    ensures Trim([' '] + s) == Trim(s)
  {
    assert ([' '] + s)[1..] == s;
  }

  // ---------------------------------------------------------------------
  // The frame stack

  /** The height of the stack after a classified step, when no error
      occurs: +1 for a header, unchanged for `else` and actions, -1 (or
      nothing on an empty stack) for a closer. */
  function DepthAfter(depth: nat, kind: StepType): nat {
    match kind
    case If | Loop => depth + 1
    case EndIf | EndLoop => if depth == 0 then 0 else depth - 1
    case _ => depth
  }

  /** Placing a step fails exactly when it needs a list and the stack has
      none: an `else` with at most the root frame, or a header or action on
      an empty stack. The failure is JavaScript's `push` on `undefined`. */
  lemma {:induction false} ApplyOutcome(b: Builder, step: TestStep)
    requires Sound(b) && b.current.Some?
    ensures Apply(b, step).Err? <==>
      (step.kind.Else? && b.depth <= 1) ||
      (!step.kind.Else? && !step.kind.EndIf? && !step.kind.EndLoop? && b.depth == 0)
    ensures Apply(b, step).Err? ==> Apply(b, step).error == PushError
    ensures Apply(b, step).Ok? ==> Apply(b, step).value.depth == DepthAfter(b.depth, step.kind)
  {
  }

  /** A `Test:` line finishes the open case and resets the stack to the new
      case's root list, whatever state the stack was in. */
  lemma {:induction false} TestLineResets(b: Builder, line: string)
    requires Sound(b) && !IsSkipped(line) && IsTestLine(line)
    ensures Feed(b, line) == Ok(Builder(Finish(b), Some(TestCase(CaseName(line), [])), 1))
  {
  }

  /** Running two stretches of lines is running the first, then the second
      from where the first left off. */
  lemma {:induction false} RunAppend(b: Builder, xs: seq<string>, ys: seq<string>)
    requires Sound(b)
    ensures Run(b, xs + ys) ==
      (match Run(b, xs)
       case Err(e) => Err(e)
       case Ok(b') => Run(b', ys))
    decreases |xs|
  {
    if xs == [] {
      assert xs + ys == ys;
    } else {
      assert (xs + ys)[0] == xs[0];
      assert (xs + ys)[1..] == xs[1..] + ys;
      match Feed(b, xs[0])
      case Err(_) =>
      case Ok(b') => RunAppend(b', xs[1..], ys);
    }
  }

  /** A line that becomes a plain action step. */
  predicate ActionLine(line: string) {
    !IsSkipped(line) && !IsTestLine(line) && ParseStep(line).kind.Action?
  }

  /** A line that parses to a step of the given kind. */
  predicate KindLine(line: string, kind: StepType) {
    !IsSkipped(line) && !IsTestLine(line) && ParseStep(line).kind == kind
  }

  /** The steps of consecutive action lines, in order. */
  function ParseAll(lines: seq<string>): (r: seq<TestStep>)
    ensures |r| == |lines|
    ensures forall i :: 0 <= i < |lines| ==> r[i] == ParseStep(lines[i])
  {
    seq(|lines|, i requires 0 <= i < |lines| => ParseStep(lines[i]))
  }

  lemma {:induction false} ParseAllCons(line: string, lines: seq<string>)
    ensures ParseAll([line] + lines) == [ParseStep(line)] + ParseAll(lines)
  {
    MapCons(ParseStep, ParseAll([line] + lines), ParseAll(lines), line, lines);
  }

  /** A sequence that applies `f` to each element of `[x] + xs` is `f(x)`
      followed by the one for `xs`. */
  lemma {:induction false} MapCons<A, B>(f: A -> B, r: seq<B>, rest: seq<B>, x: A, xs: seq<A>)
    requires |r| == |xs| + 1 && |rest| == |xs|
    requires forall i :: 0 <= i < |r| ==> r[i] == f(([x] + xs)[i])
    requires forall i :: 0 <= i < |xs| ==> rest[i] == f(xs[i])
    ensures r == [f(x)] + rest
  {
    forall i | 0 <= i < |r|
      ensures r[i] == ([f(x)] + rest)[i]
    {
      if i > 0 {
        assert ([x] + xs)[i] == xs[i - 1];
      }
    }
  }

  /** A step line of an open case is classified and applied. */
  lemma {:induction false} FeedStep(b: Builder, line: string)
    requires Sound(b) && b.current.Some? && !IsSkipped(line) && !IsTestLine(line)
    ensures Feed(b, line) == Apply(b, ParseStep(line))
  {
  }

  /** A plain action is appended at the open depth. */
  lemma {:induction false} ApplyAction(b: Builder, x: TestStep)
    requires Sound(b) && b.current.Some? && b.depth >= 1 && x.kind.Action?
    ensures Apply(b, x) == Ok(b.(current := Some(b.current.value.(steps := AppendAt(b.current.value.steps, b.depth, x)))))
  {
  }

  /** Action lines at the root of a case are appended there, one step each,
      in order. */
  lemma {:induction false} ActionsAtRoot(done: seq<TestCase>, name: string, steps: seq<TestStep>, lines: seq<string>)
    requires forall i :: 0 <= i < |lines| ==> ActionLine(lines[i])
    ensures Run(Builder(done, Some(TestCase(name, steps)), 1), lines)
         == Ok(Builder(done, Some(TestCase(name, steps + ParseAll(lines))), 1))
    decreases |lines|
  {
    if lines == [] {
      EmptyRight(steps);
    } else {
      var b := Builder(done, Some(TestCase(name, steps)), 1);
      var x := ParseStep(lines[0]);
      assert ActionLine(lines[0]);
      FeedStep(b, lines[0]);
      ApplyAction(b, x);
      RunHead(b, lines);
      ActionsAtRoot(done, name, steps + [x], lines[1..]);
      ParseAllCons(lines[0], lines[1..]);
      ConsSplit(lines);
      AppendStep(steps, [x], ParseAll(lines[1..]), ParseAll(lines));
    }
  }

  lemma {:induction false} EmptyLeft<T>(s: seq<T>)
    ensures [] + s == s
  {
  }

  lemma {:induction false} EmptyRight<T>(s: seq<T>)
    ensures s + [] == s
  {
  }

  /** A non-empty sequence is its head followed by its tail. */
  lemma {:induction false} ConsSplit<T>(s: seq<T>)
    requires s != []
    ensures [s[0]] + s[1..] == s
  {
  }

  /** An `if` or loop header is appended at the open depth and opens its own
      child list. */
  lemma {:induction false} ApplyHeader(b: Builder, x: TestStep)
    requires Sound(b) && b.current.Some? && b.depth >= 1 && (x.kind.If? || x.kind.Loop?)
    ensures Apply(b, x) == Ok(b.(current := Some(b.current.value.(steps :=
      AppendAt(b.current.value.steps, b.depth, x.(steps := Children([]))))), depth := b.depth + 1))
  {
  }

  /** An `else` is appended one list up, as a sibling of the open header,
      and opens its own child list at the same depth. */
  lemma {:induction false} ApplyElse(b: Builder, x: TestStep)
    requires Sound(b) && b.current.Some? && b.depth >= 2 && x.kind.Else?
    ensures OpenPath(b.current.value.steps, b.depth - 1)
    ensures Apply(b, x) == Ok(b.(current := Some(b.current.value.(steps :=
      AppendAt(b.current.value.steps, b.depth - 1, x.(steps := Children([])))))))
  {
    OpenPathShorter(b.current.value.steps, b.depth);
  }

  /** A closer pops one list. */
  lemma {:induction false} ApplyClose(b: Builder, x: TestStep)
    requires Sound(b) && b.current.Some? && b.depth >= 1 && (x.kind.EndIf? || x.kind.EndLoop?)
    ensures Apply(b, x) == Ok(b.(depth := b.depth - 1))
  {
  }

  /** With no list open, every step but a closer fails. */
  lemma {:induction false} ApplyAtZero(b: Builder, x: TestStep)
    requires Sound(b) && b.current.Some? && b.depth == 0 && !x.kind.EndIf? && !x.kind.EndLoop?
    ensures Apply(b, x) == Err(PushError)
  {
  }

  /** `else` with only the case's own list open fails. */
  lemma {:induction false} ApplyElseAtRoot(b: Builder, x: TestStep)
    requires Sound(b) && b.current.Some? && b.depth == 1 && x.kind.Else?
    ensures Apply(b, x) == Err(PushError)
  {
  }

  /** Running one line is feeding it. */
  lemma {:induction false} RunOne(b: Builder, line: string)
    requires Sound(b)
    ensures Run(b, [line]) == Feed(b, line)
  {
    RunHead(b, [line]);
    assert [line][1..] == [];
  }

  /** `else` directly in a case's root list has no enclosing list to go to:
      the parse fails. */
  lemma {:induction false} ElseAtRootFails(done: seq<TestCase>, tc: TestCase, other: string, more: seq<string>)
    requires KindLine(other, Else)
    ensures Run(Builder(done, Some(tc), 1), [other] + more) == Err(PushError)
  {
    var b := Builder(done, Some(tc), 1);
    FeedStep(b, other);
    ApplyElseAtRoot(b, ParseStep(other));
    RunHead(b, [other] + more);
    assert ([other] + more)[0] == other;
  }

  /** A closer at the root pops the case's own list; the next line that
      needs a list fails. */
  lemma {:induction false} CloseAtRootThenStepFails(done: seq<TestCase>, tc: TestCase, closer: string, next: string, more: seq<string>)
    requires KindLine(closer, EndIf) || KindLine(closer, EndLoop)
    requires !IsSkipped(next) && !IsTestLine(next)
    requires !ParseStep(next).kind.EndIf? && !ParseStep(next).kind.EndLoop?
    ensures Run(Builder(done, Some(tc), 1), [closer, next] + more) == Err(PushError)
  {
    var b := Builder(done, Some(tc), 1);
    var lines := [closer, next] + more;
    PairTail(closer, next, more);
    FeedStep(b, closer);
    ApplyClose(b, ParseStep(closer));
    RunHead(b, lines);
    var b0 := b.(depth := 0);
    FeedStep(b0, next);
    ApplyAtZero(b0, ParseStep(next));
    RunHead(b0, [next] + more);
    assert ([next] + more)[0] == next;
  }

  lemma {:induction false} PairTail<T>(x: T, y: T, more: seq<T>)
    ensures ([x, y] + more)[0] == x
    ensures ([x, y] + more)[1..] == [y] + more
  {
    assert ([x, y] + more)[1..] == [y] + more;
  }

  // ---------------------------------------------------------------------
  // Cases

  /** Whether a line opens a new case. */
  predicate Opens(line: string) {
    !IsSkipped(line) && IsTestLine(line)
  }

  /** The names of the cases the `Test:` lines open, in order. */
  function TestNames(lines: seq<string>): seq<string> {
    if lines == [] then []
    else (if Opens(lines[0]) then [CaseName(lines[0])] else []) + TestNames(lines[1..])
  }

  function Names(cases: seq<TestCase>): seq<string> {
    seq(|cases|, i requires 0 <= i < |cases| => cases[i].name)
  }

  lemma {:induction false} NamesAppend(xs: seq<TestCase>, ys: seq<TestCase>)
    ensures Names(xs + ys) == Names(xs) + Names(ys)
  {
  }

  /** One line adds a name exactly when it opens a case. */
  lemma {:induction false} FeedNames(b: Builder, line: string)
    requires Sound(b) && Feed(b, line).Ok?
    ensures Names(Finish(Feed(b, line).value)) == Names(Finish(b)) + (if Opens(line) then [CaseName(line)] else [])
  {
    var b' := Feed(b, line).value;
    if Opens(line) {
      NamesAppend(Finish(b), [TestCase(CaseName(line), [])]);
    } else if IsSkipped(line) || b.current.None? {
      EmptyRight(Names(Finish(b)));
    } else {
      assert b'.done == b.done && b'.current.Some?;
      NamesAppend(b.done, [b.current.value]);
      NamesAppend(b'.done, [b'.current.value]);
      EmptyRight(Names(Finish(b)));
    }
  }

  /** The first line of a successful run, taken on its own. */
  lemma {:induction false} RunNamesHead(b: Builder, lines: seq<string>) returns (b': Builder)
    requires Sound(b) && lines != [] && Run(b, lines).Ok?
    ensures Sound(b') && Run(b, lines) == Run(b', lines[1..])
    ensures Names(Finish(b')) == Names(Finish(b)) + (if Opens(lines[0]) then [CaseName(lines[0])] else [])
  {
    RunHead(b, lines);
    b' := Feed(b, lines[0]).value;
    FeedNames(b, lines[0]);
  }

  lemma {:induction false} RunNames(b: Builder, lines: seq<string>)
    requires Sound(b)
    ensures Run(b, lines).Ok? ==> Names(Finish(Run(b, lines).value)) == Names(Finish(b)) + TestNames(lines)
    decreases |lines|
  {
    if lines == [] {
      EmptyRight(Names(Finish(b)));
    } else if Run(b, lines).Ok? {
      var b' := RunNamesHead(b, lines);
      var first := if Opens(lines[0]) then [CaseName(lines[0])] else [];
      RunNames(b', lines[1..]);
      Assoc(Names(Finish(b)), first, TestNames(lines[1..]));
    }
  }

  /** A successful parse yields one case per `Test:` line, named by that
      line from its sixth character on (trimmed), in source order. */
  lemma {:induction false} CaseNamesInOrder(lines: seq<string>)
    ensures ParseLines(lines).Ok? ==> Names(ParseLines(lines).value) == TestNames(lines)
  {
    RunNames(Start, lines);
    assert Names(Finish(Start)) == [];
    EmptyLeft(TestNames(lines));
  }

  /** A line the loop passes over untouched: a comment or blank line, or,
      while no case is open, anything but a `Test:` line. */
  predicate Ignored(b: Builder, line: string) {
    IsSkipped(line) || (b.current.None? && !IsTestLine(line))
  }

  lemma {:induction false} FeedIgnored(b: Builder, line: string)
    requires Sound(b) && Ignored(b, line)
    ensures Feed(b, line) == Ok(b)
  {
  }

  lemma {:induction false} IgnoredLines(b: Builder, pre: seq<string>, post: seq<string>)
    requires Sound(b)
    requires forall i :: 0 <= i < |pre| ==> Ignored(b, pre[i])
    ensures Run(b, pre + post) == Run(b, post)
    decreases |pre|
  {
    if pre != [] {
      assert (pre + post)[0] == pre[0];
      assert (pre + post)[1..] == pre[1..] + post;
      FeedIgnored(b, pre[0]);
      RunHead(b, pre + post);
      IgnoredLines(b, pre[1..], post);
    } else {
      assert pre + post == post;
    }
  }

  /** Everything before the first `Test:` line produces nothing. */
  lemma {:induction false} PreambleIgnored(pre: seq<string>, post: seq<string>)
    requires forall i :: 0 <= i < |pre| ==> !Opens(pre[i])
    ensures ParseLines(pre + post) == ParseLines(post)
  {
    IgnoredLines(Start, pre, post);
  }

  /** Comment and blank lines produce nothing wherever they stand. */
  lemma {:induction false} SkippedLinesIgnored(pre: seq<string>, skipped: seq<string>, post: seq<string>)
    requires forall i :: 0 <= i < |skipped| ==> IsSkipped(skipped[i])
    ensures ParseLines(pre + skipped + post) == ParseLines(pre + post)
  {
    RunAppend(Start, pre, skipped + post);
    RunAppend(Start, pre, post);
    assert pre + skipped + post == pre + (skipped + post);
    match Run(Start, pre)
    case Err(_) =>
    case Ok(b) => IgnoredLines(b, skipped, post);
  }

  /** A flat script: one `Test:` line followed by N action lines gives one
      case holding exactly the N action steps, in order. */
  lemma {:induction false} FlatScript(header: string, lines: seq<string>)
    requires Opens(header)
    requires forall i :: 0 <= i < |lines| ==> ActionLine(lines[i])
    ensures ParseLines([header] + lines) == Ok([TestCase(CaseName(header), ParseAll(lines))])
    ensures forall i :: 0 <= i < |lines| ==> ParseAll(lines)[i].kind.Action?
  {
    var b := Builder([], Some(TestCase(CaseName(header), [])), 1);
    assert Finish(Start) == [];
    TestLineResets(Start, header);
    RunHead(Start, [header] + lines);
    assert ([header] + lines)[0] == header;
    assert ([header] + lines)[1..] == lines;
    ActionsAtRoot([], CaseName(header), [], lines);
    EmptyLeft(ParseAll(lines));
    var tc := TestCase(CaseName(header), ParseAll(lines));
    assert Finish(Builder([], Some(tc), 1)) == [tc];
  }
}
