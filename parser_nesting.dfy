/** How the block parser of src/parser/parser.ts nests blocks: a header
    opens the children list of its own step, an `else` opens a sibling's
    list one level down, a closer returns to the enclosing list, at any
    depth. The frame logic is stated over classified steps (`Place`), and
    `RunIsPlace` carries it back to script lines. */
module ParserNesting {
  import opened Wrappers
  import opened Parser
  import opened ParserFacts
  import opened Text

  // ---------------------------------------------------------------------
  // The frame logic over classified steps

  /** The builder with case `name` open, its steps `steps` and `depth`
      frames on the stack. */
  function At(done: seq<TestCase>, name: string, steps: seq<TestStep>, depth: nat): Builder {
    Builder(done, Some(TestCase(name, steps)), depth)
  }

  /** The parseFeature loop over lines that are all steps of the open
      case: each classified step is placed in turn, the first error ends it. */
  function Place(b: Builder, xs: seq<TestStep>): (r: Result<Builder, string>)
    requires Sound(b) && b.current.Some?
    ensures r.Ok? ==> Sound(r.value) && r.value.current.Some?
    decreases |xs|
  {
    if xs == [] then Ok(b)
    else
      match Apply(b, xs[0])
      case Err(e) => Err(e)
      case Ok(b') => Place(b', xs[1..])
  }

  /** Lines that are neither skipped nor `Test:` lines. */
  predicate StepLines(lines: seq<string>) {
    forall i :: 0 <= i < |lines| ==> !IsSkipped(lines[i]) && !IsTestLine(lines[i])
  }

  /** Inside an open case, running step lines is placing their classified
      steps. */
  lemma {:induction false} RunIsPlace(b: Builder, lines: seq<string>)
    requires Sound(b) && b.current.Some? && StepLines(lines)
    ensures Run(b, lines) == Place(b, ParseAll(lines))
    decreases |lines|
  {
    if lines != [] {
      RunHead(b, lines);
      FeedStep(b, lines[0]);
      ParseAllCons(lines[0], lines[1..]);
      ConsSplit(lines);
      var xs := ParseAll(lines);
      assert xs[1..] == ParseAll(lines[1..]);
      match Apply(b, ParseStep(lines[0]))
      case Err(_) =>
      case Ok(b') =>
        assert StepLines(lines[1..]) by {
          forall i | 0 <= i < |lines[1..]|
            ensures !IsSkipped(lines[1..][i]) && !IsTestLine(lines[1..][i])
          {
            assert lines[1..][i] == lines[i + 1];
          }
        }
        RunIsPlace(b', lines[1..]);
    }
  }

  lemma {:induction false} ParseAllAppend(xs: seq<string>, ys: seq<string>)
    ensures ParseAll(xs + ys) == ParseAll(xs) + ParseAll(ys)
    decreases |xs|
  {
    if xs == [] {
      assert xs + ys == ys;
      EmptyLeft(ParseAll(ys));
    } else {
      ParseAllAppend(xs[1..], ys);
      ParseAllCons(xs[0], xs[1..] + ys);
      ParseAllCons(xs[0], xs[1..]);
      ConsSplit(xs);
      Assoc([xs[0]], xs[1..], ys);
      Assoc([ParseStep(xs[0])], ParseAll(xs[1..]), ParseAll(ys));
    }
  }

  /** Placing two stretches of steps is placing the first, then the second
      from where the first left off. */
  lemma {:induction false} PlaceAppend(b: Builder, xs: seq<TestStep>, ys: seq<TestStep>)
    requires Sound(b) && b.current.Some?
    ensures Place(b, xs + ys) ==
      (match Place(b, xs)
       case Err(e) => Err(e)
       case Ok(b') => Place(b', ys))
    decreases |xs|
  {
    if xs == [] {
      assert xs + ys == ys;
    } else {
      assert (xs + ys)[0] == xs[0];
      assert (xs + ys)[1..] == xs[1..] + ys;
      match Apply(b, xs[0])
      case Err(_) =>
      case Ok(b') => PlaceAppend(b', xs[1..], ys);
    }
  }

  lemma {:induction false} PlaceChain(b: Builder, xs: seq<TestStep>, ys: seq<TestStep>, mid: Builder, end: Builder)
    requires Sound(b) && b.current.Some? && Place(b, xs) == Ok(mid) && Place(mid, ys) == Ok(end)
    ensures Place(b, xs + ys) == Ok(end)
  {
    PlaceAppend(b, xs, ys);
  }

  lemma {:induction false} PlaceChain3(b: Builder, xs: seq<TestStep>, ys: seq<TestStep>, zs: seq<TestStep>,
                                       m1: Builder, m2: Builder, m3: Builder)
    requires Sound(b) && b.current.Some? && Place(b, xs) == Ok(m1) && Place(m1, ys) == Ok(m2) && Place(m2, zs) == Ok(m3)
    ensures Place(b, xs + ys + zs) == Ok(m3)
  {
    PlaceChain(b, xs, ys, m1, m2);
    PlaceChain(b, xs + ys, zs, m2, m3);
  }

  lemma {:induction false} PlaceOne(b: Builder, x: TestStep)
    requires Sound(b) && b.current.Some?
    ensures Place(b, [x]) == Apply(b, x)
  {
    assert [x][0] == x;
    assert [x][1..] == [];
  }

  // ---------------------------------------------------------------------
  // Pushing onto the top frame

  /** The steps `xs` pushed, one after the other, onto the list at the top
      of a stack of `depth` frames. */
  function ExtendAt(steps: seq<TestStep>, depth: nat, xs: seq<TestStep>): seq<TestStep>
    requires depth >= 1 && OpenPath(steps, depth)
    decreases depth
  {
    if depth == 1 then steps + xs
    else
      var last := steps[|steps| - 1];
      steps[..|steps| - 1] + [last.(steps := Children(ExtendAt(last.steps.list, depth - 1, xs)))]
  }

  /** Pushing keeps the open frames open; a last pushed step with children
      can be opened as one more frame. */
  lemma {:induction false} ExtendAtOpen(steps: seq<TestStep>, depth: nat, xs: seq<TestStep>)
    requires depth >= 1 && OpenPath(steps, depth)
    ensures OpenPath(ExtendAt(steps, depth, xs), depth)
    ensures xs != [] && xs[|xs| - 1].steps.Children? ==> OpenPath(ExtendAt(steps, depth, xs), depth + 1)
    decreases depth
  {
    if depth > 1 {
      ExtendAtOpen(steps[|steps| - 1].steps.list, depth - 1, xs);
    }
  }

  /** The list at the top frame grows by exactly `xs`; the frames below
      change only in their last step. */
  lemma {:induction false} ExtendAtList(steps: seq<TestStep>, depth: nat, xs: seq<TestStep>)
    requires depth >= 1 && OpenPath(steps, depth)
    ensures OpenPath(ExtendAt(steps, depth, xs), depth)
    ensures ListAt(ExtendAt(steps, depth, xs), depth) == ListAt(steps, depth) + xs
    ensures depth > 1 ==> ExtendAt(steps, depth, xs)[..|steps| - 1] == steps[..|steps| - 1]
    decreases depth
  {
    ExtendAtOpen(steps, depth, xs);
    if depth > 1 {
      ExtendAtList(steps[|steps| - 1].steps.list, depth - 1, xs);
    }
  }

  /** One `AppendAt` pushes one step. */
  lemma {:induction false} AppendAtExtend(steps: seq<TestStep>, depth: nat, x: TestStep)
    requires depth >= 1 && OpenPath(steps, depth)
    ensures AppendAt(steps, depth, x) == ExtendAt(steps, depth, [x])
    decreases depth
  {
    if depth > 1 {
      AppendAtExtend(steps[|steps| - 1].steps.list, depth - 1, x);
    }
  }

  lemma {:induction false} ExtendAtNothing(steps: seq<TestStep>, depth: nat)
    requires depth >= 1 && OpenPath(steps, depth)
    ensures ExtendAt(steps, depth, []) == steps
    decreases depth
  {
    if depth == 1 {
      EmptyRight(steps);
    } else {
      var last := steps[|steps| - 1];
      ExtendAtNothing(last.steps.list, depth - 1);
      assert last.(steps := Children(last.steps.list)) == last;
      assert steps[..|steps| - 1] + [last] == steps;
    }
  }

  lemma {:induction false} ExtendAtTwice(steps: seq<TestStep>, depth: nat, xs: seq<TestStep>, ys: seq<TestStep>)
    requires depth >= 1 && OpenPath(steps, depth)
    ensures OpenPath(ExtendAt(steps, depth, xs), depth)
    ensures ExtendAt(ExtendAt(steps, depth, xs), depth, ys) == ExtendAt(steps, depth, xs + ys)
    decreases depth
  {
    ExtendAtOpen(steps, depth, xs);
    if depth == 1 {
      Assoc(steps, xs, ys);
    } else {
      var last := steps[|steps| - 1];
      ExtendAtTwice(last.steps.list, depth - 1, xs, ys);
      var r := ExtendAt(steps, depth, xs);
      assert r[..|r| - 1] == steps[..|steps| - 1];
    }
  }

  /** Pushing onto the children of the step just pushed, one frame up. */
  lemma {:induction false} ExtendInside(steps: seq<TestStep>, depth: nat, h: TestStep, kids: seq<TestStep>, ys: seq<TestStep>)
    requires depth >= 1 && OpenPath(steps, depth)
    ensures OpenPath(ExtendAt(steps, depth, [h.(steps := Children(kids))]), depth + 1)
    ensures ExtendAt(ExtendAt(steps, depth, [h.(steps := Children(kids))]), depth + 1, ys)
         == ExtendAt(steps, depth, [h.(steps := Children(kids + ys))])
    decreases depth
  {
    ExtendAtOpen(steps, depth, [h.(steps := Children(kids))]);
    var t := ExtendAt(steps, depth, [h.(steps := Children(kids))]);
    if depth == 1 {
      assert t[..|t| - 1] == steps;
    } else {
      ExtendInside(steps[|steps| - 1].steps.list, depth - 1, h, kids, ys);
      assert t[..|t| - 1] == steps[..|steps| - 1];
    }
  }

  // ---------------------------------------------------------------------
  // One step at any depth

  /** An action is pushed onto the top frame. */
  lemma {:induction false} PlaceAction(done: seq<TestCase>, name: string, steps: seq<TestStep>, depth: nat, x: TestStep)
    requires depth >= 1 && OpenPath(steps, depth) && x.kind.Action?
    ensures Place(At(done, name, steps, depth), [x]) == Ok(At(done, name, ExtendAt(steps, depth, [x]), depth))
  {
    PlaceOne(At(done, name, steps, depth), x);
    ApplyAction(At(done, name, steps, depth), x);
    AppendAtExtend(steps, depth, x);
  }

  /** A header is pushed with an empty children list, and that list becomes
      the top frame. */
  lemma {:induction false} PlaceHeader(done: seq<TestCase>, name: string, steps: seq<TestStep>, depth: nat, h: TestStep)
    requires depth >= 1 && OpenPath(steps, depth) && (h.kind.If? || h.kind.Loop?)
    ensures Place(At(done, name, steps, depth), [h])
         == Ok(At(done, name, ExtendAt(steps, depth, [h.(steps := Children([]))]), depth + 1))
  {
    PlaceOne(At(done, name, steps, depth), h);
    ApplyHeader(At(done, name, steps, depth), h);
    AppendAtExtend(steps, depth, h.(steps := Children([])));
  }

  /** An `else` with a block's list as the top frame is pushed one frame
      down, as a sibling of the block's header, and its own empty list
      replaces the top frame. */
  lemma {:induction false} PlaceElse(done: seq<TestCase>, name: string, steps: seq<TestStep>, depth: nat, e: TestStep)
    requires depth >= 1 && OpenPath(steps, depth + 1) && e.kind.Else?
    ensures OpenPath(steps, depth)
    ensures Place(At(done, name, steps, depth + 1), [e])
         == Ok(At(done, name, ExtendAt(steps, depth, [e.(steps := Children([]))]), depth + 1))
  {
    PlaceOne(At(done, name, steps, depth + 1), e);
    ApplyElse(At(done, name, steps, depth + 1), e);
    AppendAtExtend(steps, depth, e.(steps := Children([])));
  }

  /** A closer pops the top frame, at any depth. */
  lemma {:induction false} PlaceCloser(done: seq<TestCase>, name: string, steps: seq<TestStep>, depth: nat, c: TestStep)
    requires depth >= 1 && OpenPath(steps, depth + 1) && (c.kind.EndIf? || c.kind.EndLoop?)
    ensures Place(At(done, name, steps, depth + 1), [c]) == Ok(At(done, name, steps, depth))
  {
    PlaceOne(At(done, name, steps, depth + 1), c);
    ApplyClose(At(done, name, steps, depth + 1), c);
  }

  // ---------------------------------------------------------------------
  // Well-nested stretches

  /** A stretch of classified steps in the shape the parser expects: an
      action, or a block made of a header, a body, any number of `else`
      branches (each an `else` step and a body) and a closer. */
  datatype Nest =
    | Leaf(step: TestStep)
    | Block(header: TestStep, body: seq<Nest>, branches: seq<Branch>, closer: TestStep)

  datatype Branch = Branch(other: TestStep, body: seq<Nest>)

  /** The steps of a stretch in source order. */
  function Flat(n: Nest): seq<TestStep>
    decreases n, 1
  {
    match n
    case Leaf(x) => [x]
    case Block(h, body, branches, c) => [h] + FlatBody(body) + FlatBranches(branches) + [c]
  }

  function FlatBody(ns: seq<Nest>): seq<TestStep>
    decreases ns, 0
  {
    if ns == [] then [] else Flat(ns[0]) + FlatBody(ns[1..])
  }

  function FlatBranches(bs: seq<Branch>): seq<TestStep>
    decreases bs
  {
    if bs == [] then [] else [bs[0].other] + FlatBody(bs[0].body) + FlatBranches(bs[1..])
  }

  /** The steps the parser builds from a stretch: each header holds its
      body as children, each `else` holds its own body and comes right after
      its header, closers leave no step. */
  function Built(n: Nest): seq<TestStep>
    decreases n, 1
  {
    match n
    case Leaf(x) => [x]
    case Block(h, body, branches, _) => [h.(steps := Children(BuiltBody(body)))] + BuiltBranches(branches)
  }

  function BuiltBody(ns: seq<Nest>): seq<TestStep>
    decreases ns, 0
  {
    if ns == [] then [] else Built(ns[0]) + BuiltBody(ns[1..])
  }

  function BuiltBranches(bs: seq<Branch>): seq<TestStep>
    decreases bs
  {
    if bs == [] then [] else [bs[0].other.(steps := Children(BuiltBody(bs[0].body)))] + BuiltBranches(bs[1..])
  }

  /** Leaves are actions, headers are `if` or loop steps, branches start
      with `else`, closers are `endif` or `endloop` (either ends either). */
  predicate WellNested(n: Nest)
    decreases n, 1
  {
    match n
    case Leaf(x) => x.kind.Action?
    case Block(h, body, branches, c) =>
      (h.kind.If? || h.kind.Loop?) && BodyNested(body) && BranchesNested(branches) &&
      (c.kind.EndIf? || c.kind.EndLoop?)
  }

  predicate BodyNested(ns: seq<Nest>)
    decreases ns, 0
  {
    ns == [] || (WellNested(ns[0]) && BodyNested(ns[1..]))
  }

  predicate BranchesNested(bs: seq<Branch>)
    decreases bs
  {
    bs == [] || (bs[0].other.kind.Else? && BodyNested(bs[0].body) && BranchesNested(bs[1..]))
  }

  /** A well-nested stretch placed with the top frame at any depth leaves
      the stack at that depth, with the steps it builds pushed onto the list
      of the top frame: blocks nest to any depth. */
  lemma {:induction false} PlaceBody(done: seq<TestCase>, name: string, steps: seq<TestStep>, depth: nat, ns: seq<Nest>)
    requires depth >= 1 && OpenPath(steps, depth) && BodyNested(ns)
    ensures Place(At(done, name, steps, depth), FlatBody(ns)) == Ok(At(done, name, ExtendAt(steps, depth, BuiltBody(ns)), depth))
    decreases ns, 0
  {
    if ns == [] {
      ExtendAtNothing(steps, depth);
    } else {
      var t := ExtendAt(steps, depth, Built(ns[0]));
      PlaceNest(done, name, steps, depth, ns[0]);
      ExtendAtTwice(steps, depth, Built(ns[0]), BuiltBody(ns[1..]));
      PlaceBody(done, name, t, depth, ns[1..]);
      PlaceChain(At(done, name, steps, depth), Flat(ns[0]), FlatBody(ns[1..]),
                 At(done, name, t, depth), At(done, name, ExtendAt(steps, depth, BuiltBody(ns)), depth));
    }
  }

  lemma {:induction false} PlaceNest(done: seq<TestCase>, name: string, steps: seq<TestStep>, depth: nat, n: Nest)
    requires depth >= 1 && OpenPath(steps, depth) && WellNested(n)
    ensures Place(At(done, name, steps, depth), Flat(n)) == Ok(At(done, name, ExtendAt(steps, depth, Built(n)), depth))
    decreases n, 1
  {
    match n
    case Leaf(x) =>
      PlaceAction(done, name, steps, depth, x);
    case Block(h, body, branches, c) =>
      PlaceBlock(done, name, steps, depth, h, body, branches, c);
  }

  /** A block: its header with the body as children, then its branches, in
      the list of the top frame, which is the top frame again after the
      closer. */
  lemma {:induction false} PlaceBlock(done: seq<TestCase>, name: string, steps: seq<TestStep>, depth: nat,
                                      h: TestStep, body: seq<Nest>, branches: seq<Branch>, c: TestStep)
    requires depth >= 1 && OpenPath(steps, depth) && WellNested(Block(h, body, branches, c))
    ensures Place(At(done, name, steps, depth), [h] + FlatBody(body) + FlatBranches(branches) + [c])
         == Ok(At(done, name, ExtendAt(steps, depth, [h.(steps := Children(BuiltBody(body)))] + BuiltBranches(branches)), depth))
    decreases Block(h, body, branches, c), 0
  {
    var hb := h.(steps := Children(BuiltBody(body)));
    var t := ExtendAt(steps, depth, [hb]);
    var u := ExtendAt(steps, depth, [hb] + BuiltBranches(branches));
    PlaceOpened(done, name, steps, depth, h, body);
    PlaceAfter(done, name, steps, depth, hb, branches);
    PlaceCloser(done, name, u, depth, c);
    PlaceChain3(At(done, name, steps, depth), [h] + FlatBody(body), FlatBranches(branches), [c],
                At(done, name, t, depth + 1), At(done, name, u, depth + 1), At(done, name, u, depth));
  }

  /** The `else` branches after a header `hb` just pushed with its
      children: they follow it in the same list. */
  lemma {:induction false} PlaceAfter(done: seq<TestCase>, name: string, steps: seq<TestStep>, depth: nat,
                                      hb: TestStep, bs: seq<Branch>)
    requires depth >= 1 && OpenPath(steps, depth) && hb.steps.Children? && BranchesNested(bs)
    ensures OpenPath(ExtendAt(steps, depth, [hb]), depth + 1)
    ensures Place(At(done, name, ExtendAt(steps, depth, [hb]), depth + 1), FlatBranches(bs))
         == Ok(At(done, name, ExtendAt(steps, depth, [hb] + BuiltBranches(bs)), depth + 1))
    ensures OpenPath(ExtendAt(steps, depth, [hb] + BuiltBranches(bs)), depth + 1)
    decreases bs, 1
  {
    ExtendAtOpen(steps, depth, [hb]);
    PlaceBranches(done, name, ExtendAt(steps, depth, [hb]), depth, bs);
    ExtendAtTwice(steps, depth, [hb], BuiltBranches(bs));
  }

  /** The body of a step just pushed with an empty children list, placed
      with that list as the top frame, becomes the step's children. */
  lemma {:induction false} PlaceInside(done: seq<TestCase>, name: string, steps: seq<TestStep>, depth: nat,
                                       h: TestStep, body: seq<Nest>)
    requires depth >= 1 && OpenPath(steps, depth) && BodyNested(body)
    ensures OpenPath(ExtendAt(steps, depth, [h.(steps := Children([]))]), depth + 1)
    ensures Place(At(done, name, ExtendAt(steps, depth, [h.(steps := Children([]))]), depth + 1), FlatBody(body))
         == Ok(At(done, name, ExtendAt(steps, depth, [h.(steps := Children(BuiltBody(body)))]), depth + 1))
    decreases body, 2
  {
    ExtendInside(steps, depth, h, [], BuiltBody(body));
    EmptyLeft(BuiltBody(body));
    PlaceBody(done, name, ExtendAt(steps, depth, [h.(steps := Children([]))]), depth + 1, body);
  }

  /** A header and its body: the header step holds the body's steps as
      children and its list is the top frame. */
  lemma {:induction false} PlaceOpened(done: seq<TestCase>, name: string, steps: seq<TestStep>, depth: nat,
                                       h: TestStep, body: seq<Nest>)
    requires depth >= 1 && OpenPath(steps, depth) && (h.kind.If? || h.kind.Loop?) && BodyNested(body)
    ensures Place(At(done, name, steps, depth), [h] + FlatBody(body))
         == Ok(At(done, name, ExtendAt(steps, depth, [h.(steps := Children(BuiltBody(body)))]), depth + 1))
    decreases body, 3
  {
    PlaceHeader(done, name, steps, depth, h);
    PlaceInside(done, name, steps, depth, h, body);
    PlaceChain(At(done, name, steps, depth), [h], FlatBody(body),
               At(done, name, ExtendAt(steps, depth, [h.(steps := Children([]))]), depth + 1),
               At(done, name, ExtendAt(steps, depth, [h.(steps := Children(BuiltBody(body)))]), depth + 1));
  }

  /** The `else` branches of a block whose list is the top frame: each is
      pushed one frame down, right after the steps before it, holding its
      own body, and its list becomes the top frame in turn. */
  lemma {:induction false} PlaceBranches(done: seq<TestCase>, name: string, steps: seq<TestStep>, depth: nat, bs: seq<Branch>)
    requires depth >= 1 && OpenPath(steps, depth + 1) && BranchesNested(bs)
    ensures OpenPath(steps, depth)
    ensures Place(At(done, name, steps, depth + 1), FlatBranches(bs))
         == Ok(At(done, name, ExtendAt(steps, depth, BuiltBranches(bs)), depth + 1))
    decreases bs, 0
  {
    OpenPathShorter(steps, depth + 1);
    if bs == [] {
      ExtendAtNothing(steps, depth);
    } else {
      var e := bs[0].other;
      var eb := e.(steps := Children(BuiltBody(bs[0].body)));
      PlaceElseBranch(done, name, steps, depth, e, bs[0].body);
      PlaceAfter(done, name, steps, depth, eb, bs[1..]);
      assert BuiltBranches(bs) == [eb] + BuiltBranches(bs[1..]);
      assert FlatBranches(bs) == [e] + FlatBody(bs[0].body) + FlatBranches(bs[1..]);
      PlaceChain(At(done, name, steps, depth + 1), [e] + FlatBody(bs[0].body), FlatBranches(bs[1..]),
                 At(done, name, ExtendAt(steps, depth, [eb]), depth + 1),
                 At(done, name, ExtendAt(steps, depth, BuiltBranches(bs)), depth + 1));
    }
  }

  /** One `else` branch. */
  lemma {:induction false} PlaceElseBranch(done: seq<TestCase>, name: string, steps: seq<TestStep>, depth: nat,
                                           e: TestStep, body: seq<Nest>)
    requires depth >= 1 && OpenPath(steps, depth + 1) && e.kind.Else? && BodyNested(body)
    ensures OpenPath(steps, depth)
    ensures Place(At(done, name, steps, depth + 1), [e] + FlatBody(body))
         == Ok(At(done, name, ExtendAt(steps, depth, [e.(steps := Children(BuiltBody(body)))]), depth + 1))
    decreases body, 3
  {
    PlaceElse(done, name, steps, depth, e);
    PlaceInside(done, name, steps, depth, e, body);
    PlaceChain(At(done, name, steps, depth + 1), [e], FlatBody(body),
               At(done, name, ExtendAt(steps, depth, [e.(steps := Children([]))]), depth + 1),
               At(done, name, ExtendAt(steps, depth, [e.(steps := Children(BuiltBody(body)))]), depth + 1));
  }

  // ---------------------------------------------------------------------
  // Back to script lines

  /** A run of actions as leaves. */
  function Leaves(xs: seq<TestStep>): (r: seq<Nest>)
    ensures |r| == |xs|
  {
    if xs == [] then [] else [Leaf(xs[0])] + Leaves(xs[1..])
  }

  lemma {:induction false} LeavesFlat(xs: seq<TestStep>)
    requires forall i :: 0 <= i < |xs| ==> xs[i].kind.Action?
    ensures FlatBody(Leaves(xs)) == xs && BuiltBody(Leaves(xs)) == xs && BodyNested(Leaves(xs))
    decreases |xs|
  {
    if xs != [] {
      LeavesFlat(xs[1..]);
      var l := Leaves(xs);
      assert l[0] == Leaf(xs[0]) && l[1..] == Leaves(xs[1..]);
      ConsSplit(xs);
    }
  }

  lemma {:induction false} ActionLines(lines: seq<string>)
    requires forall i :: 0 <= i < |lines| ==> ActionLine(lines[i])
    ensures StepLines(lines)
    ensures forall i :: 0 <= i < |lines| ==> ParseAll(lines)[i].kind.Action?
  {
    forall i | 0 <= i < |lines|
      ensures !IsSkipped(lines[i]) && !IsTestLine(lines[i]) && ParseAll(lines)[i].kind.Action?
    {
      assert ActionLine(lines[i]);
    }
  }

  /** Step lines that classify as a well-nested stretch build what the
      stretch says, with the top frame at any depth. */
  lemma {:induction false} NestedLines(done: seq<TestCase>, name: string, steps: seq<TestStep>, depth: nat,
                                       lines: seq<string>, ns: seq<Nest>)
    requires depth >= 1 && OpenPath(steps, depth)
    requires StepLines(lines) && ParseAll(lines) == FlatBody(ns) && BodyNested(ns)
    ensures Run(At(done, name, steps, depth), lines) == Ok(At(done, name, ExtendAt(steps, depth, BuiltBody(ns)), depth))
  {
    RunIsPlace(At(done, name, steps, depth), lines);
    PlaceBody(done, name, steps, depth, ns);
  }

  /** A case whose lines classify as a well-nested stretch: the parse gives
      one case, holding the steps the stretch builds. */
  lemma {:induction false} NestedScript(header: string, lines: seq<string>, ns: seq<Nest>)
    requires Opens(header)
    requires StepLines(lines) && ParseAll(lines) == FlatBody(ns) && BodyNested(ns)
    ensures ParseLines([header] + lines) == Ok([TestCase(CaseName(header), BuiltBody(ns))])
  {
    assert Finish(Start) == [];
    TestLineResets(Start, header);
    RunHead(Start, [header] + lines);
    assert ([header] + lines)[0] == header;
    assert ([header] + lines)[1..] == lines;
    NestedLines([], CaseName(header), [], 1, lines, ns);
    EmptyLeft(BuiltBody(ns));
    var tc := TestCase(CaseName(header), BuiltBody(ns));
    assert Finish(At([], CaseName(header), BuiltBody(ns), 1)) == [tc];
  }

  /** Action lines, with the top frame at any depth, are pushed onto the
      list of that frame, one step each, in order. */
  lemma {:induction false} ActionsInBlock(done: seq<TestCase>, name: string, steps: seq<TestStep>,
                                          depth: nat, lines: seq<string>)
    requires depth >= 1 && OpenPath(steps, depth)
    requires forall i :: 0 <= i < |lines| ==> ActionLine(lines[i])
    ensures Run(At(done, name, steps, depth), lines) == Ok(At(done, name, ExtendAt(steps, depth, ParseAll(lines)), depth))
  {
    ActionLines(lines);
    LeavesFlat(ParseAll(lines));
    NestedLines(done, name, steps, depth, lines, Leaves(ParseAll(lines)));
  }

  lemma {:induction false} ParseAllOne(line: string)
    ensures ParseAll([line]) == [ParseStep(line)]
  {
  }

  lemma {:induction false} StepLinesAppend(xs: seq<string>, ys: seq<string>)
    requires StepLines(xs) && StepLines(ys)
    ensures StepLines(xs + ys)
  {
    forall i | 0 <= i < |xs + ys|
      ensures !IsSkipped((xs + ys)[i]) && !IsTestLine((xs + ys)[i])
    {
      if i >= |xs| {
        assert (xs + ys)[i] == ys[i - |xs|];
      }
    }
  }

  lemma {:induction false} OneNest(n: Nest)
    ensures FlatBody([n]) == Flat(n) && BuiltBody([n]) == Built(n)
    ensures WellNested(n) ==> BodyNested([n])
  {
    assert [n][0] == n && [n][1..] == [];
    EmptyRight(Flat(n));
    EmptyRight(Built(n));
  }

  lemma {:induction false} OneBranch(b: Branch)
    ensures FlatBranches([b]) == [b.other] + FlatBody(b.body)
    ensures BuiltBranches([b]) == [b.other.(steps := Children(BuiltBody(b.body)))]
    ensures b.other.kind.Else? && BodyNested(b.body) ==> BranchesNested([b])
  {
    assert [b][0] == b && [b][1..] == [];
    EmptyRight([b.other] + FlatBody(b.body));
    EmptyRight([b.other.(steps := Children(BuiltBody(b.body)))]);
  }

  /** The one block a header, actions and a closer make. */
  lemma {:induction false} BlockShape(h: TestStep, kids: seq<TestStep>, bs: seq<Branch>, c: TestStep)
    requires (h.kind.If? || h.kind.Loop?) && (c.kind.EndIf? || c.kind.EndLoop?) && BranchesNested(bs)
    requires forall i :: 0 <= i < |kids| ==> kids[i].kind.Action?
    ensures FlatBody([Block(h, Leaves(kids), bs, c)]) == [h] + kids + FlatBranches(bs) + [c]
    ensures BuiltBody([Block(h, Leaves(kids), bs, c)]) == [h.(steps := Children(kids))] + BuiltBranches(bs)
    ensures BodyNested([Block(h, Leaves(kids), bs, c)])
  {
    LeavesFlat(kids);
    OneNest(Block(h, Leaves(kids), bs, c));
  }

  /** The lines of a block, classified. */
  lemma {:induction false} BlockLines(header: string, body: seq<string>, closer: string)
    requires StepLines([header]) && StepLines(body) && StepLines([closer])
    ensures StepLines([header] + body + [closer])
    ensures ParseAll([header] + body + [closer]) == [ParseStep(header)] + ParseAll(body) + [ParseStep(closer)]
  {
    ParseAllOne(header);
    ParseAllOne(closer);
    ParseAllAppend([header], body);
    ParseAllAppend([header] + body, [closer]);
    StepLinesAppend([header], body);
    StepLinesAppend([header] + body, [closer]);
  }

  lemma {:induction false} KindLineStep(line: string, kind: StepType)
    requires KindLine(line, kind)
    ensures StepLines([line]) && ParseStep(line).kind == kind
  {
    assert [line][0] == line;
  }

  /** A block of a header line, action lines and a closer, at any depth:
      one step holding the actions is pushed, and the stack is back where it
      was. Either closer ends either header. */
  lemma {:induction false} BlockAt(done: seq<TestCase>, name: string, steps: seq<TestStep>, depth: nat,
                                   header: string, body: seq<string>, closer: string)
    requires depth >= 1 && OpenPath(steps, depth)
    requires KindLine(header, If) || KindLine(header, Loop)
    requires forall i :: 0 <= i < |body| ==> ActionLine(body[i])
    requires KindLine(closer, EndIf) || KindLine(closer, EndLoop)
    ensures Run(At(done, name, steps, depth), [header] + body + [closer])
         == Ok(At(done, name, ExtendAt(steps, depth, [ParseStep(header).(steps := Children(ParseAll(body)))]), depth))
  {
    var h := ParseStep(header);
    var c := ParseStep(closer);
    if KindLine(header, If) { KindLineStep(header, If); } else { KindLineStep(header, Loop); }
    if KindLine(closer, EndIf) { KindLineStep(closer, EndIf); } else { KindLineStep(closer, EndLoop); }
    ActionLines(body);
    BlockLines(header, body, closer);
    BlockShape(h, ParseAll(body), [], c);
    EmptyRight([h] + ParseAll(body));
    EmptyRight([h.(steps := Children(ParseAll(body)))]);
    NestedLines(done, name, steps, depth, [header] + body + [closer], [Block(h, Leaves(ParseAll(body)), [], c)]);
  }

  /** An `if` block with an `else`, at any depth: the `else` step and its
      children come out as a SIBLING right after the `if` step, not among
      its children. */
  lemma {:induction false} ElseIsSibling(done: seq<TestCase>, name: string, steps: seq<TestStep>, depth: nat,
                                         header: string, thenPart: seq<string>, other: string,
                                         elsePart: seq<string>, closer: string)
    requires depth >= 1 && OpenPath(steps, depth)
    requires KindLine(header, If)
    requires forall i :: 0 <= i < |thenPart| ==> ActionLine(thenPart[i])
    requires KindLine(other, Else)
    requires forall i :: 0 <= i < |elsePart| ==> ActionLine(elsePart[i])
    requires KindLine(closer, EndIf)
    ensures Run(At(done, name, steps, depth), [header] + thenPart + [other] + elsePart + [closer])
         == Ok(At(done, name, ExtendAt(steps, depth, [
              ParseStep(header).(steps := Children(ParseAll(thenPart))),
              ParseStep(other).(steps := Children(ParseAll(elsePart)))]), depth))
  {
    var h := ParseStep(header);
    var e := ParseStep(other);
    var c := ParseStep(closer);
    KindLineStep(header, If);
    KindLineStep(other, Else);
    KindLineStep(closer, EndIf);
    ActionLines(thenPart);
    ActionLines(elsePart);
    ElseShape(h, ParseAll(thenPart), e, ParseAll(elsePart), c);
    StepLinesAppend([other], elsePart);
    BlockLines(header, thenPart + ([other] + elsePart), closer);
    ParseAllAppend(thenPart, [other] + elsePart);
    ParseAllAppend([other], elsePart);
    ParseAllOne(other);
    ElseLinesOrder(header, thenPart, other, elsePart, closer);
    NestedLines(done, name, steps, depth, [header] + thenPart + [other] + elsePart + [closer],
                [Block(h, Leaves(ParseAll(thenPart)), [Branch(e, Leaves(ParseAll(elsePart)))], c)]);
  }

  lemma {:induction false} ElseLinesOrder(header: string, thenPart: seq<string>, other: string, elsePart: seq<string>, closer: string)
    ensures [header] + thenPart + [other] + elsePart + [closer] == [header] + (thenPart + ([other] + elsePart)) + [closer]
  {
  }

  /** The one block an `if` with one `else` branch makes. */
  lemma {:induction false} ElseShape(h: TestStep, ts: seq<TestStep>, e: TestStep, es: seq<TestStep>, c: TestStep)
    requires h.kind.If? && e.kind.Else? && c.kind.EndIf?
    requires forall i :: 0 <= i < |ts| ==> ts[i].kind.Action?
    requires forall i :: 0 <= i < |es| ==> es[i].kind.Action?
    ensures FlatBody([Block(h, Leaves(ts), [Branch(e, Leaves(es))], c)]) == [h] + (ts + ([e] + es)) + [c]
    ensures BuiltBody([Block(h, Leaves(ts), [Branch(e, Leaves(es))], c)])
         == [h.(steps := Children(ts)), e.(steps := Children(es))]
    ensures BodyNested([Block(h, Leaves(ts), [Branch(e, Leaves(es))], c)])
  {
    LeavesFlat(es);
    OneBranch(Branch(e, Leaves(es)));
    BlockShape(h, ts, [Branch(e, Leaves(es))], c);
    assert FlatBranches([Branch(e, Leaves(es))]) == [e] + es;
    Assoc([h], ts, [e] + es);
    assert BuiltBranches([Branch(e, Leaves(es))]) == [e.(steps := Children(es))];
    TwoInOrder(h.(steps := Children(ts)), e.(steps := Children(es)));
  }

  lemma {:induction false} TwoInOrder<T>(x1: T, x2: T)
    ensures [x1] + [x2] == [x1, x2]
  {
  }

  // ---------------------------------------------------------------------
  // The nesting examples of src/parser/parser.test.ts

  /** An `if` holding an action, an `if` holding a loop holding an action,
      and an action. */
  function ComplexNest(x1: TestStep, x2: TestStep, x3: TestStep, x4: TestStep, x5: TestStep,
                       x6: TestStep, x7: TestStep, x8: TestStep, x9: TestStep): seq<Nest> {
    [Block(x1, [Leaf(x2), Block(x3, [Block(x4, [Leaf(x5)], [], x6)], [], x7), Leaf(x8)], [], x9)]
  }

  lemma {:induction false} PlainBlock(h: TestStep, body: seq<Nest>, c: TestStep)
    ensures Flat(Block(h, body, [], c)) == [h] + FlatBody(body) + [c]
    ensures Built(Block(h, body, [], c)) == [h.(steps := Children(BuiltBody(body)))]
  {
    EmptyRight([h] + FlatBody(body));
    EmptyRight([h.(steps := Children(BuiltBody(body)))]);
  }

  lemma {:induction false} ThreeNests(a: Nest, b: Nest, c: Nest)
    ensures FlatBody([a, b, c]) == Flat(a) + Flat(b) + Flat(c)
    ensures BuiltBody([a, b, c]) == Built(a) + Built(b) + Built(c)
    ensures WellNested(a) && WellNested(b) && WellNested(c) ==> BodyNested([a, b, c])
  {
    var ns := [a, b, c];
    assert ns[1..] == [b, c] && ns[1..][1..] == [c];
    OneNest(c);
    Assoc(Flat(a), Flat(b), Flat(c));
    Assoc(Built(a), Built(b), Built(c));
  }

  lemma {:induction false} ComplexShape(x1: TestStep, x2: TestStep, x3: TestStep, x4: TestStep, x5: TestStep,
                                        x6: TestStep, x7: TestStep, x8: TestStep, x9: TestStep)
    requires x1.kind.If? && x2.kind.Action? && x3.kind.If? && x4.kind.Loop? && x5.kind.Action?
    requires x6.kind.EndLoop? && x7.kind.EndIf? && x8.kind.Action? && x9.kind.EndIf?
    ensures FlatBody(ComplexNest(x1, x2, x3, x4, x5, x6, x7, x8, x9)) == [x1, x2, x3, x4, x5, x6, x7, x8, x9]
    ensures BuiltBody(ComplexNest(x1, x2, x3, x4, x5, x6, x7, x8, x9))
         == [x1.(steps := Children([x2, x3.(steps := Children([x4.(steps := Children([x5]))])), x8]))]
    ensures BodyNested(ComplexNest(x1, x2, x3, x4, x5, x6, x7, x8, x9))
  {
    var loop := Block(x4, [Leaf(x5)], [], x6);
    var inner := Block(x3, [loop], [], x7);
    var body := [Leaf(x2), inner, Leaf(x8)];
    var outer := Block(x1, body, [], x9);
    OneNest(Leaf(x5));
    PlainBlock(x4, [Leaf(x5)], x6);
    assert WellNested(loop);
    OneNest(loop);
    PlainBlock(x3, [loop], x7);
    assert WellNested(inner);
    ThreeNests(Leaf(x2), inner, Leaf(x8));
    assert BodyNested(body);
    assert WellNested(outer);
    OneNest(outer);
    PlainBlock(x1, body, x9);
    assert FlatBody(body) == [x2] + ([x3] + ([x4] + [x5] + [x6]) + [x7]) + [x8];
    NineInOrder(x1, x2, x3, x4, x5, x6, x7, x8, x9);
    ThreeInOrder(x2, x3.(steps := Children([x4.(steps := Children([x5]))])), x8);
  }

  lemma {:induction false} NineInOrder<T>(x1: T, x2: T, x3: T, x4: T, x5: T, x6: T, x7: T, x8: T, x9: T)
    ensures [x1] + ([x2] + ([x3] + ([x4] + [x5] + [x6]) + [x7]) + [x8]) + [x9] == [x1, x2, x3, x4, x5, x6, x7, x8, x9]
  {
  }

  lemma {:induction false} ThreeInOrder<T>(x1: T, x2: T, x3: T)
    ensures [x1] + [x2] + [x3] == [x1, x2, x3]
  {
  }

  /** A sequence that applies `f` to each of nine values, written out. */
  lemma {:induction false} MapNine<A, B>(f: A -> B, r: seq<B>, l1: A, l2: A, l3: A, l4: A, l5: A,
                                         l6: A, l7: A, l8: A, l9: A)
    requires |r| == 9
    requires forall i :: 0 <= i < 9 ==> r[i] == f([l1, l2, l3, l4, l5, l6, l7, l8, l9][i])
    ensures r == [f(l1), f(l2), f(l3), f(l4), f(l5), f(l6), f(l7), f(l8), f(l9)]
  {
  }

  lemma {:induction false} ParseNine(l1: string, l2: string, l3: string, l4: string, l5: string,
                                     l6: string, l7: string, l8: string, l9: string)
    ensures ParseAll([l1, l2, l3, l4, l5, l6, l7, l8, l9])
         == [ParseStep(l1), ParseStep(l2), ParseStep(l3), ParseStep(l4), ParseStep(l5),
             ParseStep(l6), ParseStep(l7), ParseStep(l8), ParseStep(l9)]
  {
    MapNine(ParseStep, ParseAll([l1, l2, l3, l4, l5, l6, l7, l8, l9]), l1, l2, l3, l4, l5, l6, l7, l8, l9);
  }

  lemma {:induction false} StepLinesNine(l1: string, l2: string, l3: string, l4: string, l5: string,
                                         l6: string, l7: string, l8: string, l9: string)
    requires !IsSkipped(l1) && !IsSkipped(l2) && !IsSkipped(l3) && !IsSkipped(l4) && !IsSkipped(l5)
    requires !IsSkipped(l6) && !IsSkipped(l7) && !IsSkipped(l8) && !IsSkipped(l9)
    requires !IsTestLine(l1) && !IsTestLine(l2) && !IsTestLine(l3) && !IsTestLine(l4) && !IsTestLine(l5)
    requires !IsTestLine(l6) && !IsTestLine(l7) && !IsTestLine(l8) && !IsTestLine(l9)
    ensures StepLines([l1, l2, l3, l4, l5, l6, l7, l8, l9])
  {
  }

  /** The "complex nested structures" case: an `if` holding an action, an
      `if` holding a loop holding an action, and an action. The outer `if`
      has three children, the inner `if` one (the loop), the loop one. */
  lemma {:induction false} ComplexNesting(t: string, h1: string, a1: string, h2: string, h3: string,
                                          a2: string, c3: string, c2: string, a3: string, c1: string)
    requires Opens(t)
    requires KindLine(h1, If) && ActionLine(a1) && KindLine(h2, If) && KindLine(h3, Loop) && ActionLine(a2)
    requires KindLine(c3, EndLoop) && KindLine(c2, EndIf) && ActionLine(a3) && KindLine(c1, EndIf)
    ensures ParseLines([t] + [h1, a1, h2, h3, a2, c3, c2, a3, c1]) == Ok([TestCase(CaseName(t), [
              ParseStep(h1).(steps := Children([
                ParseStep(a1),
                ParseStep(h2).(steps := Children([ParseStep(h3).(steps := Children([ParseStep(a2)]))])),
                ParseStep(a3)]))])])
  {
    var lines := [h1, a1, h2, h3, a2, c3, c2, a3, c1];
    StepLinesNine(h1, a1, h2, h3, a2, c3, c2, a3, c1);
    ParseNine(h1, a1, h2, h3, a2, c3, c2, a3, c1);
    var ns := ComplexNest(ParseStep(h1), ParseStep(a1), ParseStep(h2), ParseStep(h3), ParseStep(a2),
                          ParseStep(c3), ParseStep(c2), ParseStep(a3), ParseStep(c1));
    ComplexShape(ParseStep(h1), ParseStep(a1), ParseStep(h2), ParseStep(h3), ParseStep(a2),
                 ParseStep(c3), ParseStep(c2), ParseStep(a3), ParseStep(c1));
    NestedScript(t, lines, ns);
  }

  /** An `if` and two `else` branches, each holding one action. */
  function MultiElseNest(x1: TestStep, x2: TestStep, x3: TestStep, x4: TestStep, x5: TestStep,
                         x6: TestStep, x7: TestStep): seq<Nest> {
    [Block(x1, [Leaf(x2)], [Branch(x3, [Leaf(x4)]), Branch(x5, [Leaf(x6)])], x7)]
  }

  lemma {:induction false} TwoBranches(b1: Branch, b2: Branch)
    ensures FlatBranches([b1, b2]) == [b1.other] + FlatBody(b1.body) + ([b2.other] + FlatBody(b2.body))
    ensures BuiltBranches([b1, b2])
         == [b1.other.(steps := Children(BuiltBody(b1.body))), b2.other.(steps := Children(BuiltBody(b2.body)))]
    ensures b1.other.kind.Else? && BodyNested(b1.body) && b2.other.kind.Else? && BodyNested(b2.body)
        ==> BranchesNested([b1, b2])
  {
    var bs := [b1, b2];
    assert bs[1..] == [b2];
    OneBranch(b2);
  }

  lemma {:induction false} MultiElseShape(x1: TestStep, x2: TestStep, x3: TestStep, x4: TestStep, x5: TestStep,
                                          x6: TestStep, x7: TestStep)
    requires x1.kind.If? && x2.kind.Action? && x3.kind.Else? && x4.kind.Action?
    requires x5.kind.Else? && x6.kind.Action? && x7.kind.EndIf?
    ensures FlatBody(MultiElseNest(x1, x2, x3, x4, x5, x6, x7)) == [x1, x2, x3, x4, x5, x6, x7]
    ensures BuiltBody(MultiElseNest(x1, x2, x3, x4, x5, x6, x7))
         == [x1.(steps := Children([x2])), x3.(steps := Children([x4])), x5.(steps := Children([x6]))]
    ensures BodyNested(MultiElseNest(x1, x2, x3, x4, x5, x6, x7))
  {
    var brs := [Branch(x3, [Leaf(x4)]), Branch(x5, [Leaf(x6)])];
    var n := Block(x1, [Leaf(x2)], brs, x7);
    OneNest(Leaf(x2));
    OneNest(Leaf(x4));
    OneNest(Leaf(x6));
    TwoBranches(brs[0], brs[1]);
    OneNest(n);
    assert [x1] + [x2] + ([x3] + [x4] + ([x5] + [x6])) + [x7] == [x1, x2, x3, x4, x5, x6, x7];
    assert [x1.(steps := Children([x2]))] + [x3.(steps := Children([x4])), x5.(steps := Children([x6]))]
        == [x1.(steps := Children([x2])), x3.(steps := Children([x4])), x5.(steps := Children([x6]))];
  }

  /** A sequence that applies `f` to each of seven values, written out. */
  lemma {:induction false} MapSeven<A, B>(f: A -> B, r: seq<B>, l1: A, l2: A, l3: A, l4: A, l5: A, l6: A, l7: A)
    requires |r| == 7
    requires forall i :: 0 <= i < 7 ==> r[i] == f([l1, l2, l3, l4, l5, l6, l7][i])
    ensures r == [f(l1), f(l2), f(l3), f(l4), f(l5), f(l6), f(l7)]
  {
  }

  lemma {:induction false} ParseSeven(l1: string, l2: string, l3: string, l4: string, l5: string, l6: string, l7: string)
    ensures ParseAll([l1, l2, l3, l4, l5, l6, l7])
         == [ParseStep(l1), ParseStep(l2), ParseStep(l3), ParseStep(l4), ParseStep(l5), ParseStep(l6), ParseStep(l7)]
  {
    MapSeven(ParseStep, ParseAll([l1, l2, l3, l4, l5, l6, l7]), l1, l2, l3, l4, l5, l6, l7);
  }

  lemma {:induction false} StepLinesSeven(l1: string, l2: string, l3: string, l4: string, l5: string, l6: string, l7: string)
    requires !IsSkipped(l1) && !IsSkipped(l2) && !IsSkipped(l3) && !IsSkipped(l4) && !IsSkipped(l5)
    requires !IsSkipped(l6) && !IsSkipped(l7)
    requires !IsTestLine(l1) && !IsTestLine(l2) && !IsTestLine(l3) && !IsTestLine(l4) && !IsTestLine(l5)
    requires !IsTestLine(l6) && !IsTestLine(l7)
    ensures StepLines([l1, l2, l3, l4, l5, l6, l7])
  {
  }

  /** The "multiple else branches" case: `if`, action, `else if ...`,
      action, `else`, action, `endif` gives three siblings, the `if` and two
      `else` steps, each holding its one action. */
  lemma {:induction false} MultipleElse(t: string, h: string, a1: string, e1: string, a2: string,
                                        e2: string, a3: string, c: string)
    requires Opens(t)
    requires KindLine(h, If) && ActionLine(a1) && KindLine(e1, Else) && ActionLine(a2)
    requires KindLine(e2, Else) && ActionLine(a3) && KindLine(c, EndIf)
    ensures ParseLines([t] + [h, a1, e1, a2, e2, a3, c]) == Ok([TestCase(CaseName(t), [
              ParseStep(h).(steps := Children([ParseStep(a1)])),
              ParseStep(e1).(steps := Children([ParseStep(a2)])),
              ParseStep(e2).(steps := Children([ParseStep(a3)]))])])
  {
    StepLinesSeven(h, a1, e1, a2, e2, a3, c);
    ParseSeven(h, a1, e1, a2, e2, a3, c);
    MultiElseShape(ParseStep(h), ParseStep(a1), ParseStep(e1), ParseStep(a2), ParseStep(e2), ParseStep(a3), ParseStep(c));
    NestedScript(t, [h, a1, e1, a2, e2, a3, c],
                 MultiElseNest(ParseStep(h), ParseStep(a1), ParseStep(e1), ParseStep(a2), ParseStep(e2), ParseStep(a3), ParseStep(c)));
  }

  // ---------------------------------------------------------------------
  // Keywords in capitals

  /** The parse from a test line goes on from the case it opens. */
  lemma {:induction false} OpenedCase(t: string, lines: seq<string>)
    requires Opens(t)
    ensures Run(Start, [t] + lines) == Run(At([], CaseName(t), [], 1), lines)
  {
    assert Finish(Start) == [];
    TestLineResets(Start, t);
    RunHead(Start, [t] + lines);
    assert ([t] + lines)[1..] == lines;
  }

  /** In a freshly opened case, an `if` line, an action line and an
      `endif` line push the one `if` step holding the action. */
  lemma {:induction false} BlockInCase(name: string, h: string, a: string, c: string)
    requires KindLine(h, If) && ActionLine(a) && KindLine(c, EndIf)
    ensures Run(At([], name, [], 1), [h] + [a] + [c])
         == Ok(At([], name, [ParseStep(h).(steps := Children([ParseStep(a)]))], 1))
  {
    assert [a][0] == a;
    BlockAt([], name, [], 1, h, [a], c);
    ParseAllOne(a);
    EmptyLeft([ParseStep(h).(steps := Children([ParseStep(a)]))]);
  }

  lemma {:induction false} FourInOrder<T>(x1: T, x2: T, x3: T, x4: T)
    ensures [x1, x2, x3, x4] == [x1] + ([x2] + [x3] + [x4])
  {
  }

  /** A case with one `if` block holding one action. */
  lemma {:induction false} OneBlockScript(t: string, h: string, a: string, c: string)
    requires Opens(t) && KindLine(h, If) && ActionLine(a) && KindLine(c, EndIf)
    ensures ParseLines([t, h, a, c]) == Ok([TestCase(CaseName(t), [ParseStep(h).(steps := Children([ParseStep(a)]))])])
  {
    var x := ParseStep(h).(steps := Children([ParseStep(a)]));
    FourInOrder(t, h, a, c);
    OpenedCase(t, [h] + [a] + [c]);
    BlockInCase(CaseName(t), h, a, c);
    assert Finish(At([], CaseName(t), [x], 1)) == [TestCase(CaseName(t), [x])];
  }

  /** `ТЕСТ: <rest>` in capitals opens a case named `rest`. */
  lemma {:induction false} CapitalTestLine(rest: string)
    requires rest != [] && !IsWhitespace(rest[0]) && !IsWhitespace(rest[|rest| - 1])
    ensures Opens("ТЕСТ: " + rest) && CaseName("ТЕСТ: " + rest) == rest
  {
    var line := "ТЕСТ: " + rest;
    assert line == "ТЕСТ:" + (" " + rest);
    assert ToLower("ТЕСТ:") == "тест:";
    KeywordLower("ТЕСТ:", "тест:", " " + rest);
    assert line[0] == 'Т';
    DropKeyword("ТЕСТ:", " " + rest, 5);
    assert (" " + rest)[1..] == rest;
    assert TrimStart(rest) == rest;
    TrimIdentity(rest);
  }

  /** `ЕСЛИ <rest>` in capitals is an `if` line. */
  lemma {:induction false} CapitalIfLine(rest: string)
    requires rest != [] && !IsWhitespace(rest[|rest| - 1])
    ensures KindLine("ЕСЛИ " + rest, If)
  {
    var line := "ЕСЛИ " + rest;
    assert ToLower("ЕСЛИ ") == "если ";
    assert line[0] == 'Е';
    KeywordTrim("ЕСЛИ ", rest);
    KeywordLower("ЕСЛИ ", "если ", rest);
    IfKind(line);
    FirstCharDiffers(ToLower(line), "если ", "тест:");
    FirstCharDiffers(ToLower(line), "если ", "test:");
  }

  /** A lowered line opening with `де` (as `действие:` does) is none of the
      block keywords; only `для каждого ` shares its first letter. */
  lemma {:induction false} ActionKindOf(lowered: string)
    requires StartsWith(lowered, "де")
    ensures KindOf(lowered) == Action
  {
    var p := "де";
    FirstCharDiffers(lowered, p, "если ");
    FirstCharDiffers(lowered, p, "if ");
    FirstCharDiffers(lowered, p, "иначе");
    FirstCharDiffers(lowered, p, "else");
    FirstCharDiffers(lowered, p, "конецесли");
    FirstCharDiffers(lowered, p, "endif");
    FirstCharDiffers(lowered, p, "for each ");
    FirstCharDiffers(lowered, p, "конеццикла");
    FirstCharDiffers(lowered, p, "endloop");
    assert lowered[..|p|][1] == lowered[1];
  }

  /** A line opening with `ДЕ` in capitals (as `ДЕЙСТВИЕ:` does) is an
      action line. */
  lemma {:induction false} CapitalActionLine(rest: string)
    requires rest != [] && !IsWhitespace(rest[|rest| - 1])
    ensures ActionLine("ДЕ" + rest)
  {
    var line := "ДЕ" + rest;
    assert ToLower("ДЕ") == "де";
    assert line[0] == 'Д';
    KeywordTrim("ДЕ", rest);
    KeywordLower("ДЕ", "де", rest);
    ActionKindOf(ToLower(line));
    FirstCharDiffers(ToLower(line), "де", "тест:");
    FirstCharDiffers(ToLower(line), "де", "test:");
  }

  /** Lower-casing works character by character, so it splits at any
      point. */
  lemma {:induction false} ToLowerAppend(a: string, b: string)
    ensures ToLower(a + b) == ToLower(a) + ToLower(b)
  {
  }

  /** A trimmed line whose lower case opens with `конецесли` closes an
      `if`. */
  lemma {:induction false} EndIfLine(line: string)
    requires Trim(line) == line && line != [] && line[0] != '#'
    requires StartsWith(ToLower(line), "конецесли")
    ensures KindLine(line, EndIf)
  {
    EndIfKind(line);
    FirstCharDiffers(ToLower(line), "конецесли", "тест:");
    FirstCharDiffers(ToLower(line), "конецесли", "test:");
  }

  lemma {:induction false} LowerEndIf()
    ensures ToLower("КОНЕЦ" + "ЕСЛИ") == "конец" + "если"
  {
    assert ToLower("КОНЕЦ") == "конец";
    assert ToLower("ЕСЛИ") == "если";
    ToLowerAppend("КОНЕЦ", "ЕСЛИ");
  }

  /** `КОНЕЦЕСЛИ` in capitals closes an `if`. */
  lemma {:induction false} CapitalEndIfLine()
    ensures KindLine("КОНЕЦ" + "ЕСЛИ", EndIf)
  {
    var line := "КОНЕЦ" + "ЕСЛИ";
    LowerEndIf();
    assert "конец" + "если" == "конецесли";
    assert StartsWith(ToLower(line), "конецесли");
    TrimIdentity(line);
    EndIfLine(line);
  }

  /** A case in capital keywords: `ТЕСТ: <name>`, `ЕСЛИ <cond>`, a
      `ДЕ…` action and `КОНЕЦЕСЛИ` give one case with that name, whose only
      step is the `if` holding the action. */
  lemma {:induction false} CapitalCase(t: string, name: string, h: string, cond: string, a: string, act: string, c: string)
    requires name != [] && !IsWhitespace(name[0]) && !IsWhitespace(name[|name| - 1])
    requires cond != [] && !IsWhitespace(cond[|cond| - 1])
    requires act != [] && !IsWhitespace(act[|act| - 1])
    requires t == "ТЕСТ: " + name && h == "ЕСЛИ " + cond && a == "ДЕ" + act && c == "КОНЕЦ" + "ЕСЛИ"
    ensures ParseLines([t, h, a, c]) == Ok([TestCase(name, [ParseStep(h).(steps := Children([ParseStep(a)]))])])
    ensures ParseStep(h).kind.If?
  {
    CapitalTestLine(name);
    CapitalIfLine(cond);
    CapitalActionLine(act);
    CapitalEndIfLine();
    OneBlockScript(t, h, a, c);
  }

  /** The "mixed case keywords" case: keywords written in capitals are
      recognised, so the case gets its name and its first step is an `if`
      holding the action. */
  lemma {:induction false} MixedCaseKeywords()
    ensures ParseLines(["ТЕСТ: Case Insensitive Test", "ЕСЛИ условие", "ДЕЙСТВИЕ: Тест", "КОНЕЦЕСЛИ"])
         == Ok([TestCase("Case Insensitive Test",
                         [ParseStep("ЕСЛИ условие").(steps := Children([ParseStep("ДЕЙСТВИЕ: Тест")]))])])
    ensures ParseStep("ЕСЛИ условие").kind.If?
  {
    CapitalCase("ТЕСТ: Case Insensitive Test", "Case Insensitive Test", "ЕСЛИ условие", "условие",
                "ДЕЙСТВИЕ: Тест", "ЙСТВИЕ: Тест", "КОНЕЦЕСЛИ");
  }
}
