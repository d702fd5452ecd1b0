/** The analysis side of the code animator (`CodeAnimator`): the render
    settings its constructor chooses, the sorting of a program's syntax nodes
    into five lists (`analyze_code`), the choice of a visualisation from those
    lists and the code text (`_generate_animation_class`), and the branches of
    `create_animation` that give up on rendering.  Parsing is outside the model:
    `parsed` is the sequence of nodes `ast.walk(ast.parse(code))` visits, or
    None when parsing raised. */
module CodeAnimator {
  import opened Wrappers
  import opened TextOps

  /** An assignment target: a plain name, or anything else (a tuple, a
      subscript, an attribute). */
  datatype AssignTarget = NameTarget(id: string) | OtherTarget

  /** A syntax node, reduced to what the analysis looks at. */
  datatype Node =
    | Assign(targets: seq<AssignTarget>)
    | FunctionDef(name: string)
    | For(forLine: int)
    | While(whileLine: int)
    | If(ifLine: int)
    | BinOp(opLine: int)
    | OtherNode

  /** The analysis dictionary. */
  datatype Analysis = Analysis(
    variables: seq<string>,
    functions: seq<string>,
    loops: seq<int>,
    conditionals: seq<int>,
    operations: seq<int>)

  const EmptyAnalysis: Analysis := Analysis([], [], [], [], [])

  /** Appends each list of `b` to the same list of `a`. */
  function Join(a: Analysis, b: Analysis): Analysis
  {
    Analysis(a.variables + b.variables, a.functions + b.functions, a.loops + b.loops,
             a.conditionals + b.conditionals, a.operations + b.operations)
  }

  /** The ids of the plain-name targets, in order. */
  function NameIds(targets: seq<AssignTarget>): (ids: seq<string>)
    ensures |ids| <= |targets|
    ensures forall v :: v in ids <==> NameTarget(v) in targets
  {
    if targets == [] then []
    else
      var rest := NameIds(targets[..|targets| - 1]);
      assert targets == targets[..|targets| - 1] + [targets[|targets| - 1]];
      match targets[|targets| - 1]
      case NameTarget(id) => rest + [id]
      case OtherTarget => rest
  }

  /** One more target adds its id when it is a plain name, nothing otherwise. */
  lemma NameIdsSnoc(ts: seq<AssignTarget>, t: AssignTarget)
    ensures NameIds(ts + [t]) == NameIds(ts) + (if t.NameTarget? then [t.id] else [])
  {
    assert (ts + [t])[..|ts|] == ts;
  }

  /** The ids of two runs of targets are the ids of the first run followed by
      those of the second. */
  lemma {:induction false} NameIdsConcat(a: seq<AssignTarget>, b: seq<AssignTarget>)
    ensures NameIds(a + b) == NameIds(a) + NameIds(b)
    decreases |b|
  {
    if b == [] {
      assert a + b == a;
      assert NameIds(b) == [];
    } else {
      var b' := b[..|b| - 1];
      var t := b[|b| - 1];
      var last := if t.NameTarget? then [t.id] else [];
      assert b == b' + [t];
      assert a + b == (a + b') + [t];
      calc {
        NameIds(a + b);
        { NameIdsSnoc(a + b', t); }
        NameIds(a + b') + last;
        { NameIdsConcat(a, b'); }
        NameIds(a) + NameIds(b') + last;
        NameIds(a) + (NameIds(b') + last);
        { NameIdsSnoc(b', t); }
        NameIds(a) + NameIds(b);
      }
    }
  }

  /** The number of the five lists that are not empty. */
  function FilledLists(a: Analysis): nat
  {
    (if a.variables != [] then 1 else 0) + (if a.functions != [] then 1 else 0)
    + (if a.loops != [] then 1 else 0) + (if a.conditionals != [] then 1 else 0)
    + (if a.operations != [] then 1 else 0)
  }

  /** What one node adds: the names an assignment binds, a function's name, or
      the line of a loop, a conditional or a binary operation.  The chain of
      tests stops at the first that matches, so a node adds to at most one list,
      and to the function, loop, conditional and operation lists at most one
      entry. */
  function NodeAnalysis(n: Node): (a: Analysis)
    ensures FilledLists(a) <= 1
    ensures |a.functions| + |a.loops| + |a.conditionals| + |a.operations| <= 1
    ensures a.variables != [] <==> n.Assign? && exists v :: NameTarget(v) in n.targets
    ensures a.functions != [] <==> n.FunctionDef?
    ensures a.loops != [] <==> n.For? || n.While?
    ensures a.conditionals != [] <==> n.If?
    ensures a.operations != [] <==> n.BinOp?
  {
    match n
    case Assign(targets) =>
      assert (exists v :: NameTarget(v) in targets) ==> NameIds(targets) != [] by {
        if exists v :: NameTarget(v) in targets {
          var v :| NameTarget(v) in targets;
          assert v in NameIds(targets);
        }
      }
      assert NameIds(targets) != [] ==> exists v :: NameTarget(v) in targets by {
        if NameIds(targets) != [] {
          assert NameIds(targets)[0] in NameIds(targets);
        }
      }
      Analysis(NameIds(targets), [], [], [], [])
    case FunctionDef(name) => Analysis([], [name], [], [], [])
    case For(line) => Analysis([], [], [line], [], [])
    case While(line) => Analysis([], [], [line], [], [])
    case If(line) => Analysis([], [], [], [line], [])
    case BinOp(line) => Analysis([], [], [], [], [line])
    case OtherNode => EmptyAnalysis
  }

  /** The analysis of the nodes, in visiting order. */
  function AnalysisOf(nodes: seq<Node>): Analysis
  {
    if nodes == [] then EmptyAnalysis
    else Join(AnalysisOf(nodes[..|nodes| - 1]), NodeAnalysis(nodes[|nodes| - 1]))
  }

  /** The analysis of a prefix one node longer. */
  lemma AnalysisOfSnoc(nodes: seq<Node>, k: nat)
    requires k < |nodes|
    ensures AnalysisOf(nodes[..k + 1]) == Join(AnalysisOf(nodes[..k]), NodeAnalysis(nodes[k]))
  {
    assert nodes[..k + 1][..k] == nodes[..k];
  }

  lemma JoinAssociative(a: Analysis, b: Analysis, c: Analysis)
    ensures Join(Join(a, b), c) == Join(a, Join(b, c))
  {
    assert a.variables + b.variables + c.variables == a.variables + (b.variables + c.variables);
    assert a.functions + b.functions + c.functions == a.functions + (b.functions + c.functions);
    assert a.loops + b.loops + c.loops == a.loops + (b.loops + c.loops);
    assert a.conditionals + b.conditionals + c.conditionals == a.conditionals + (b.conditionals + c.conditionals);
    assert a.operations + b.operations + c.operations == a.operations + (b.operations + c.operations);
  }

  /** Analysing two runs of nodes one after the other joins their analyses. */
  lemma {:induction false} AnalysisOfConcat(a: seq<Node>, b: seq<Node>)
    ensures AnalysisOf(a + b) == Join(AnalysisOf(a), AnalysisOf(b))
    decreases |b|
  {
    if b == [] {
      assert a + b == a;
      var x := AnalysisOf(a);
      assert Join(x, EmptyAnalysis) == x by {
        assert x.variables + [] == x.variables;
        assert x.functions + [] == x.functions;
        assert x.loops + [] == x.loops;
        assert x.conditionals + [] == x.conditionals;
        assert x.operations + [] == x.operations;
      }
    } else {
      var b' := b[..|b| - 1];
      var last := b[|b| - 1];
      var ab := a + b;
      assert ab[..|ab| - 1] == a + b';
      assert ab[|ab| - 1] == last;
      assert AnalysisOf(ab) == Join(AnalysisOf(a + b'), NodeAnalysis(last));
      AnalysisOfConcat(a, b');
      JoinAssociative(AnalysisOf(a), AnalysisOf(b'), NodeAnalysis(last));
    }
  }

  /** Every node adds at most one entry to the function, loop, conditional and
      operation lists together. */
  lemma {:induction false} AtMostOneEntryPerNode(nodes: seq<Node>)
    ensures var a := AnalysisOf(nodes);
            |a.functions| + |a.loops| + |a.conditionals| + |a.operations| <= |nodes|
  {
    if nodes != [] {
      AtMostOneEntryPerNode(nodes[..|nodes| - 1]);
    }
  }

  /** Every recorded variable is the id of a plain-name target of some
      assignment, and every plain-name target of every assignment is recorded. */
  lemma {:induction false} VariablesAreAssignedNames(nodes: seq<Node>, v: string)
    ensures v in AnalysisOf(nodes).variables <==>
              exists i :: 0 <= i < |nodes| && nodes[i].Assign? && NameTarget(v) in nodes[i].targets
  {
    if nodes != [] {
      var init := nodes[..|nodes| - 1];
      VariablesAreAssignedNames(init, v);
      assert forall i :: 0 <= i < |init| ==> init[i] == nodes[i];
      if v in AnalysisOf(nodes).variables && v !in AnalysisOf(init).variables {
        assert nodes[|nodes| - 1].Assign?;
      }
    }
  }

  /** Every recorded function name is the name of some function definition,
      and every function definition is recorded. */
  lemma {:induction false} FunctionsAreDefinedNames(nodes: seq<Node>, f: string)
    ensures f in AnalysisOf(nodes).functions <==> FunctionDef(f) in nodes
  {
    if nodes != [] {
      var init := nodes[..|nodes| - 1];
      FunctionsAreDefinedNames(init, f);
      assert nodes == init + [nodes[|nodes| - 1]];
    }
  }

  /** A line is a recorded loop exactly when some `for` or `while` statement
      is on it. */
  lemma {:induction false} LoopsAreLoopLines(nodes: seq<Node>, l: int)
    ensures l in AnalysisOf(nodes).loops <==> For(l) in nodes || While(l) in nodes
  {
    if nodes != [] {
      var init := nodes[..|nodes| - 1];
      LoopsAreLoopLines(init, l);
      assert nodes == init + [nodes[|nodes| - 1]];
    }
  }

  /** A line is a recorded conditional exactly when some `if` statement is on
      it. */
  lemma {:induction false} ConditionalsAreIfLines(nodes: seq<Node>, l: int)
    ensures l in AnalysisOf(nodes).conditionals <==> If(l) in nodes
  {
    if nodes != [] {
      var init := nodes[..|nodes| - 1];
      ConditionalsAreIfLines(init, l);
      assert nodes == init + [nodes[|nodes| - 1]];
    }
  }

  /** A line is a recorded operation exactly when some binary operation is on
      it. */
  lemma {:induction false} OperationsAreBinOpLines(nodes: seq<Node>, l: int)
    ensures l in AnalysisOf(nodes).operations <==> BinOp(l) in nodes
  {
    if nodes != [] {
      var init := nodes[..|nodes| - 1];
      OperationsAreBinOpLines(init, l);
      assert nodes == init + [nodes[|nodes| - 1]];
    }
  }

  /** The inner loop of `analyze_code`: appends the ids of the plain-name
      targets, in order. */
  method AppendNames(variables: seq<string>, targets: seq<AssignTarget>) returns (vs: seq<string>)
    ensures vs == variables + NameIds(targets)
  {
    vs := variables;
    for j := 0 to |targets|
      invariant vs == variables + NameIds(targets[..j])
    {
      assert targets[..j + 1][..j] == targets[..j];
      if targets[j].NameTarget? {
        vs := vs + [targets[j].id];
      }
    }
    assert targets[..|targets|] == targets;
  }

  /** `analyze_code(code_str)`: None when parsing failed; otherwise the nodes
      are visited in order, an assignment's targets are visited in order, and
      each node lands in the first list whose test it passes. */
  method AnalyzeCode(parsed: Option<seq<Node>>) returns (r: Option<Analysis>)
    ensures r.None? <==> parsed.None?
    ensures parsed.Some? ==> r == Some(AnalysisOf(parsed.value))
  {
    if parsed.None? {
      return None;
    }
    var nodes := parsed.value;
    var variables, functions, loops, conditionals, operations := [], [], [], [], [];
    for k := 0 to |nodes|
      invariant Analysis(variables, functions, loops, conditionals, operations) == AnalysisOf(nodes[..k])
    {
      AnalysisOfSnoc(nodes, k);
      match nodes[k]
      case Assign(targets) =>
        variables := AppendNames(variables, targets);
      case FunctionDef(name) =>
        functions := functions + [name];
      case For(line) =>
        loops := loops + [line];
      case While(line) =>
        loops := loops + [line];
      case If(line) =>
        conditionals := conditionals + [line];
      case BinOp(line) =>
        operations := operations + [line];
      case OtherNode =>
        assert operations + [] == operations;
    }
    assert nodes[..|nodes|] == nodes;
    r := Some(Analysis(variables, functions, loops, conditionals, operations));
  }

  /** The three visualisations. */
  datatype AnimationKind = SortingAnimation | SearchAnimation | GeneralAnimation

  /** A variable name that suggests a list: it contains "list" or "arr" once
      lower-cased. */
  predicate ListLikeName(v: string)
  {
    Contains(ToLower(v), "list") || Contains(ToLower(v), "arr")
  }

  /** A function name that suggests a search. */
  predicate SearchLikeName(f: string)
  {
    Contains(ToLower(f), "search")
  }

  /** `any(var for var in variables if "list" in var.lower() or "arr" in
      var.lower())`: `any` tests the names themselves, and a name that passes
      the filter is never empty, so this holds exactly when some name is
      list-like. */
  function AnyListLikeName(variables: seq<string>): (b: bool)
    ensures b <==> exists i :: 0 <= i < |variables| && ListLikeName(variables[i])
  {
    if variables == [] then false
    else if ListLikeName(variables[0]) && variables[0] != [] then true
    else
      var rest := AnyListLikeName(variables[1..]);
      assert forall i :: 1 <= i < |variables| ==> variables[i] == variables[1..][i - 1];
      rest
  }

  /** `any(func for func in functions if "search" in func.lower())`. */
  function AnySearchLikeName(functions: seq<string>): (b: bool)
    ensures b <==> exists i :: 0 <= i < |functions| && SearchLikeName(functions[i])
  {
    if functions == [] then false
    else if SearchLikeName(functions[0]) && functions[0] != [] then true
    else
      var rest := AnySearchLikeName(functions[1..]);
      assert forall i :: 1 <= i < |functions| ==> functions[i] == functions[1..][i - 1];
      rest
  }

  /** `_generate_animation_class`: the sorting visualisation when the code
      mentions "sort" in any letter case or some variable name is list-like;
      otherwise the search visualisation when some function name mentions
      "search"; otherwise the general one. */
  function ChooseAnimation(code: string, analysis: Analysis): (k: AnimationKind)
    ensures k == SortingAnimation <==>
              Contains(ToLower(code), "sort")
              || exists i :: 0 <= i < |analysis.variables| && ListLikeName(analysis.variables[i])
    ensures k == SearchAnimation <==>
              && !Contains(ToLower(code), "sort")
              && (forall i :: 0 <= i < |analysis.variables| ==> !ListLikeName(analysis.variables[i]))
              && exists i :: 0 <= i < |analysis.functions| && SearchLikeName(analysis.functions[i])
  {
    if Contains(ToLower(code), "sort") || AnyListLikeName(analysis.variables) then SortingAnimation
    else if AnySearchLikeName(analysis.functions) then SearchAnimation
    else GeneralAnimation
  }

  /** A program whose own text says "Sort" (in any letter case) is shown as a
      sort, whatever its function names. */
  lemma SortMentionWins(code: string, spelling: string, analysis: Analysis)
    requires |spelling| == 4 && Contains(code, spelling)
    requires forall j :: 0 <= j < 4 ==> LowerChar(spelling[j]) == "sort"[j]
    ensures ChooseAnimation(code, analysis) == SortingAnimation
  {
    ContainsLowered(code, spelling, "sort");
  }

  /** The render size for a resolution setting, as (height, width). */
  function PixelSize(resolution: string): (size: (int, int))
    ensures resolution == "1080p" ==> size == (1080, 1920)
    ensures resolution != "1080p" ==> size == (720, 1280)
    ensures size.0 * 16 == size.1 * 9
  {
    if resolution == "1080p" then (1080, 1920) else (720, 1280)
  }

  /** The part of the renderer's global configuration the animator sets. */
  class RenderConfig {
    var pixelHeight: int
    var pixelWidth: int

    constructor (height: int, width: int)
      ensures pixelHeight == height && pixelWidth == width
    {
      pixelHeight := height;
      pixelWidth := width;
    }
  }

  /** What `create_animation` produces. */
  datatype AnimationResult = DummyAnimation | RenderedAnimation(kind: AnimationKind)

  class CodeAnimator {
    const resolution: string
    const showCode: bool
    var usingSimulation: bool

    /** `__init__`: simulation is on when the renderer is not installed or
        configuring it raised (`configFails`, in which case the configuration is
        left as it was); otherwise the render size follows the resolution. */
    constructor (resolution: string, showCode: bool, manimAvailable: bool, configFails: bool,
                 config: RenderConfig)
      modifies config
      ensures this.resolution == resolution && this.showCode == showCode
      ensures usingSimulation == (!manimAvailable || configFails)
      ensures manimAvailable && !configFails ==>
                (config.pixelHeight, config.pixelWidth) == PixelSize(resolution)
      ensures !manimAvailable || configFails ==> unchanged(config)
    {
      this.resolution := resolution;
      this.showCode := showCode;
      usingSimulation := !manimAvailable;
      if manimAvailable {
        if configFails {
          usingSimulation := true;
        } else {
          config.pixelHeight := PixelSize(resolution).0;
          config.pixelWidth := PixelSize(resolution).1;
        }
      }
    }

    /** `create_animation(code_str)`: the dummy animation whenever the analysis
        failed or simulation is on, before anything is rendered; otherwise the
        chosen visualisation when rendering produced a video (`renderSucceeds`),
        and the dummy animation when it did not. */
    method CreateAnimation(code: string, parsed: Option<seq<Node>>, renderSucceeds: bool)
      returns (r: AnimationResult)
      ensures parsed.None? || usingSimulation ==> r == DummyAnimation
      ensures r.RenderedAnimation? <==> parsed.Some? && !usingSimulation && renderSucceeds
      ensures r.RenderedAnimation? ==> r.kind == ChooseAnimation(code, AnalysisOf(parsed.value))
    {
      var analysis := AnalyzeCode(parsed);
      // An analysis dictionary always has its five keys, so it is never falsy:
      // only a failed analysis takes this branch.
      if analysis.None? {
        return DummyAnimation;
      }
      if usingSimulation {
        return DummyAnimation;
      }
      var kind := ChooseAnimation(code, analysis.value);
      if renderSucceeds {
        r := RenderedAnimation(kind);
      } else {
        r := DummyAnimation;
      }
    }
  }
}
