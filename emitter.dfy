/** The two emitters of convertModel.py, generate_scaler_code and
    generate_tree_code, and the call of both by generate_cpp_code. They write
    to two output streams, the header (.h) and the source (.cc); a stream is
    the sequence of the strings written to it, one per write() call, and the
    emitters only ever append to it. */
module Emitter {
  import opened Wrappers
  import opened Decimal
  import opened Nodes
  import opened BranchCode
  import opened TreeCodegen

  /** The decoded scaler document; a key that is absent is None. */
  datatype ScalerParams = ScalerParams(mean: Option<seq<real>>, scale: Option<seq<real>>)

  // ---------------------------------------------------------------------
  // Array literals

  /** sep.join(items). */
  function Join(items: seq<string>, sep: string): string
  {
    if |items| == 0 then ""
    else if |items| == 1 then items[0]
    else items[0] + sep + Join(items[1..], sep)
  }

  /** list(map(str, values)). */
  function Literals(values: seq<real>, fmt: Formatter): (ls: seq<string>)
    ensures |ls| == |values|
    ensures forall i :: 0 <= i < |values| ==> ls[i] == fmt(values[i])
  {
    seq(|values|, i requires 0 <= i < |values| => fmt(values[i]))
  }

  /** Every printed number is non-empty and free of commas, as Python's
      float text is. */
  ghost predicate ListSafe(fmt: Formatter)
  {
    forall v :: fmt(v) != "" && ',' !in fmt(v)
  }

  /** Cutting text at each ", ". */
  function SplitItems(s: string): (items: seq<string>)
    ensures |items| > 0
    decreases |s|
  {
    if |s| < 2 then [s]
    else if s[0] == ',' && s[1] == ' ' then [""] + SplitItems(s[2..])
    else
      var rest := SplitItems(s[1..]);
      [[s[0]] + rest[0]] + rest[1..]
  }

  lemma {:induction false} SplitItemsOfItem(e: string, rest: string)
    requires ',' !in e
    ensures SplitItems(e + ", " + rest) == [e] + SplitItems(rest)
    decreases |e|
  {
    var s := e + ", " + rest;
    if e == "" {
      assert s[2..] == rest;
    } else {
      assert s[0] == e[0];
      assert s[1..] == e[1..] + ", " + rest;
      assert e[0] in e;
      SplitItemsOfItem(e[1..], rest);
      assert [e[0]] + e[1..] == e;
    }
  }

  lemma {:induction false} SplitItemsOfLast(e: string)
    requires ',' !in e
    ensures SplitItems(e) == [e]
    decreases |e|
  {
    if |e| >= 2 {
      assert e[0] in e;
      SplitItemsOfLast(e[1..]);
      assert [e[0]] + e[1..] == e;
    }
  }

  /** Cutting a join at its separators gives the items back, in order, when
      no item contains a comma. */
  lemma {:induction false} SplitJoin(items: seq<string>)
    requires |items| > 0
    requires forall i :: 0 <= i < |items| ==> ',' !in items[i]
    ensures SplitItems(Join(items, ", ")) == items
  {
    if |items| == 1 {
      SplitItemsOfLast(items[0]);
    } else {
      SplitJoin(items[1..]);
      SplitItemsOfItem(items[0], Join(items[1..], ", "));
    }
  }

  /** The items of a line `<prefix>{a, b, c}<suffix>`. */
  function ReadArray(line: string, prefix: string, suffix: string): Option<seq<string>>
  {
    if |line| < |prefix| + |suffix| + 2 || !StartsWith(line, prefix + "{")
       || line[|line| - |suffix| - 1..] != "}" + suffix
    then None
    else
      var inner := line[|prefix| + 1..|line| - |suffix| - 1];
      if inner == "" then Some([]) else Some(SplitItems(inner))
  }

  /** An array literal reads back as the printed values, in input order. */
  lemma ReadArrayLiteral(prefix: string, values: seq<real>, suffix: string, fmt: Formatter)
    requires ListSafe(fmt)
    ensures ReadArray(prefix + "{" + Join(Literals(values, fmt), ", ") + "}" + suffix, prefix, suffix)
         == Some(Literals(values, fmt))
  {
    var items := Literals(values, fmt);
    var inner := Join(items, ", ");
    var line := prefix + "{" + inner + "}" + suffix;
    Middle(prefix + "{", inner, "}" + suffix);
    assert line == (prefix + "{") + inner + ("}" + suffix);
    LiteralsSafe(values, fmt);
    if |items| == 0 {
      assert inner == "";
    } else {
      JoinStartsWithFirst(items, ", ");
      SplitJoin(items);
    }
  }

  /** The three parts of a concatenation, sliced back out. */
  lemma Middle(a: string, b: string, c: string)
    ensures (a + b + c)[..|a|] == a
    ensures (a + b + c)[|a + b + c| - |c|..] == c
    ensures (a + b + c)[|a|..|a + b + c| - |c|] == b
  {
  }

  lemma LiteralsSafe(values: seq<real>, fmt: Formatter)
    requires ListSafe(fmt)
    ensures forall i :: 0 <= i < |values| ==> Literals(values, fmt)[i] != "" && ',' !in Literals(values, fmt)[i]
  {
    forall i | 0 <= i < |values|
      ensures Literals(values, fmt)[i] != "" && ',' !in Literals(values, fmt)[i]
    {
      var v := values[i];
      assert Literals(values, fmt)[i] == fmt(v);
      assert fmt(v) != "" && ',' !in fmt(v);
    }
  }

  lemma JoinStartsWithFirst(items: seq<string>, sep: string)
    requires |items| > 0
    ensures |Join(items, sep)| >= |items[0]|
  {
  }

  // ---------------------------------------------------------------------
  // generate_scaler_code

  const PredictSignature: string := "double predict(const double* x);\n"

  /** What generate_scaler_code writes to the header for n features. */
  function ScalerHeader(n: nat): (h: seq<string>)
    ensures |h| == 6
  {
    [ "#pragma once\n\n",
      "const int N_FEATURES = " + NatToString(n) + ";\n",
      "extern const double mean[N_FEATURES];\n",
      "extern const double scale[N_FEATURES];\n",
      "void scale_input(double* x);\n",
      PredictSignature ]
  }

  const MeanPrefix: string := "const double mean[N_FEATURES] = "
  const ScalePrefix: string := "const double scale[N_FEATURES] = "

  /** What generate_scaler_code writes to the source. */
  function ScalerSource(basename: string, means: seq<real>, scales: seq<real>, fmt: Formatter): (s: seq<string>)
    ensures |s| == 8
  {
    [ "#include \"" + basename + ".h\"\n",
      "#include <cmath>\n\n",
      MeanPrefix + "{" + Join(Literals(means, fmt), ", ") + "};\n",
      ScalePrefix + "{" + Join(Literals(scales, fmt), ", ") + "};\n\n",
      "void scale_input(double* x) {\n",
      "    for (int i = 0; i < N_FEATURES; ++i)\n",
      "        x[i] = (x[i] - mean[i]) / scale[i];\n",
      "}\n\n" ]
  }

  /** The value a line `const int N_FEATURES = n;` declares. */
  function DeclaredFeatureCount(line: string): Option<nat>
  {
    var prefix := "const int N_FEATURES = ";
    if |line| > |prefix| + 2 && StartsWith(line, prefix) && line[|line| - 2..] == ";\n"
       && AllDigits(line[|prefix|..|line| - 2])
    then Some(LiteralValue(line[|prefix|..|line| - 2]))
    else None
  }

  /** The header declares N_FEATURES as the number of means. */
  lemma HeaderDeclaresFeatureCount(n: nat)
    ensures DeclaredFeatureCount(ScalerHeader(n)[1]) == Some(n)
  {
    var line := ScalerHeader(n)[1];
    var prefix := "const int N_FEATURES = ";
    assert line[..|prefix|] == prefix;
    assert line[|prefix|..|line| - 2] == NatToString(n);
    LiteralValueOfNatToString(n);
  }

  /** The source lists mean and scale in their input order. The two lists
      may differ in length: nothing relates the length of scale to the
      N_FEATURES of the header. */
  lemma ArraysInInputOrder(basename: string, means: seq<real>, scales: seq<real>, fmt: Formatter)
    requires ListSafe(fmt)
    ensures ReadArray(ScalerSource(basename, means, scales, fmt)[2], MeanPrefix, ";\n") == Some(Literals(means, fmt))
    ensures ReadArray(ScalerSource(basename, means, scales, fmt)[3], ScalePrefix, ";\n\n") == Some(Literals(scales, fmt))
  {
    var src := ScalerSource(basename, means, scales, fmt);
    assert src[2] == MeanPrefix + "{" + Join(Literals(means, fmt), ", ") + "}" + ";\n";
    assert src[3] == ScalePrefix + "{" + Join(Literals(scales, fmt), ", ") + "}" + ";\n\n";
    ReadArrayLiteral(MeanPrefix, means, ";\n", fmt);
    ReadArrayLiteral(ScalePrefix, scales, ";\n\n", fmt);
  }

  // ---------------------------------------------------------------------
  // generate_tree_code

  /** The result of translating trees[..k] in order: the functions written
      until a tree fails, and that tree's error. */
  datatype Run = Run(written: seq<string>, failure: Option<GenError>)

  function RunTrees(trees: seq<Node>, fmt: Formatter, k: nat): Run
    requires k <= |trees|
  {
    if k == 0 then Run([], None)
    else
      var prev := RunTrees(trees, fmt, k - 1);
      if prev.failure.Some? then prev
      else
        match TreeFunction(trees[k - 1], k - 1, fmt)
        case Success(f) => Run(prev.written + [f], None)
        case Failure(e) => Run(prev.written, Some(e))
  }

  /** What a run writes: the functions of the trees before the first
      malformed one, each for its own position, and the error of that tree. */
  lemma {:induction false} RunTreesWritten(trees: seq<Node>, fmt: Formatter, k: nat)
    requires k <= |trees|
    ensures var run := RunTrees(trees, fmt, k);
      && |run.written| <= k
      && (forall i :: 0 <= i < |run.written| ==> TreeFunction(trees[i], i, fmt) == Success(run.written[i]))
      && (run.failure.None? <==> |run.written| == k)
      && (run.failure.Some? ==>
            TreeFunction(trees[|run.written|], |run.written|, fmt) == Failure(run.failure.value))
  {
    if k > 0 {
      RunTreesWritten(trees, fmt, k - 1);
    }
  }

  /** A run stops at its first failure. */
  lemma {:induction false} RunTreesStops(trees: seq<Node>, fmt: Formatter, k: nat, n: nat)
    requires k <= n <= |trees|
    requires RunTrees(trees, fmt, k).failure.Some?
    ensures RunTrees(trees, fmt, n) == RunTrees(trees, fmt, k)
    decreases n
  {
    if n > k {
      RunTreesStops(trees, fmt, k, n - 1);
    }
  }

  /** A run fails exactly when one of the trees is malformed. */
  lemma RunTreesSucceeds(trees: seq<Node>, fmt: Formatter)
    ensures RunTrees(trees, fmt, |trees|).failure.None? <==> forall i :: 0 <= i < |trees| ==> WellFormed(trees[i])
  {
    var run := RunTrees(trees, fmt, |trees|);
    RunTreesWritten(trees, fmt, |trees|);
    if run.failure.Some? {
      assert !WellFormed(trees[|run.written|]);
    }
  }

  /** The line of predict that adds tree i. */
  function ScoreLine(i: nat): string
  {
    "    score += " + TreeName(i) + "(x);\n"
  }

  function ScoreLines(n: nat): seq<string>
  {
    if n == 0 then [] else ScoreLines(n - 1) + [ScoreLine(n - 1)]
  }

  const PredictOpen: seq<string> := ["double predict(const double* x) {\n", "    double score = 0.0;\n"]
  const PredictClose: seq<string> :=
    ["    double proba = 1.0 / (1.0 + std::exp(-score));\n", "    return proba;\n", "}\n"]

  function PredictLines(n: nat): seq<string>
  {
    PredictOpen + ScoreLines(n) + PredictClose
  }

  /** The number of the tree a line `    score += tree_n(x);` adds. */
  function ReadScoreLine(l: string): Option<nat>
  {
    if |l| > 23 && StartsWith(l, "    score += tree_") && l[|l| - 5..] == "(x);\n" && AllDigits(l[18..|l| - 5])
    then Some(LiteralValue(l[18..|l| - 5]))
    else None
  }

  /** The trees a sequence of score lines adds, in order. */
  function ReadCalls(ls: seq<string>): Option<seq<nat>>
  {
    if ls == [] then Some([])
    else
      match ReadScoreLine(ls[|ls| - 1])
      case None => None
      case Some(i) =>
        match ReadCalls(ls[..|ls| - 1])
        case None => None
        case Some(calls) => Some(calls + [i])
  }

  function Range(n: nat): (r: seq<nat>)
    ensures |r| == n && forall i :: 0 <= i < n ==> r[i] == i
  {
    if n == 0 then [] else Range(n - 1) + [n - 1]
  }

  lemma ReadScore(i: nat)
    ensures ReadScoreLine(ScoreLine(i)) == Some(i)
  {
    var l := ScoreLine(i);
    assert l == "    score += tree_" + NatToString(i) + "(x);\n";
    assert l[18..|l| - 5] == NatToString(i);
    LiteralValueOfNatToString(i);
  }

  /** predict adds tree_0, ..., tree_{n-1}, each once, in this order. */
  lemma {:induction false} ScoreLinesCallEachTree(n: nat)
    ensures |ScoreLines(n)| == n
    ensures ReadCalls(ScoreLines(n)) == Some(Range(n))
  {
    if n > 0 {
      ScoreLinesCallEachTree(n - 1);
      ReadScore(n - 1);
      assert ScoreLines(n)[..n - 1] == ScoreLines(n - 1);
    }
  }

  // ---------------------------------------------------------------------
  // What the compiled ensemble computes

  /** The tree functions of a sequence of written function texts, each
      with its number and branch code; None when one does not read back. */
  function ParseFunctions(ws: seq<string>, read: Reader): Option<seq<(nat, Code)>>
  {
    if ws == [] then Some([])
    else
      match ParseFunctions(ws[..|ws| - 1], read)
      case None => None
      case Some(defs) =>
        match ParseTreeFunction(ws[|ws| - 1], read)
        case None => None
        case Some(d) => Some(defs + [d])
  }

  /** The body of the first function named tree_id. */
  function Lookup(defs: seq<(nat, Code)>, id: nat): Option<Code>
  {
    if defs == [] then None
    else if defs[0].0 == id then Some(defs[0].1)
    else Lookup(defs[1..], id)
  }

  /** The value of score after the calls: 0.0 plus the value of each called
      function, added in call order. */
  function Score(defs: seq<(nat, Code)>, calls: seq<nat>, x: seq<real>): Option<real>
  {
    if calls == [] then Some(0.0)
    else
      match Score(defs, calls[..|calls| - 1], x)
      case None => None
      case Some(s) =>
        match Lookup(defs, calls[|calls| - 1])
        case None => None
        case Some(c) =>
          match Exec(c, x)
          case None => None
          case Some(v) => Some(s + v)
  }

  /** The sum of the values of walking each tree on x, in list order. */
  function TreeSum(trees: seq<Node>, x: seq<real>): Option<real>
  {
    if trees == [] then Some(0.0)
    else
      match TreeSum(trees[..|trees| - 1], x)
      case None => None
      case Some(s) =>
        match Walk(trees[|trees| - 1], x)
        case None => None
        case Some(v) => Some(s + v)
  }

  lemma ScoreStep(defs: seq<(nat, Code)>, calls: seq<nat>, x: seq<real>)
    requires calls != []
    ensures Score(defs, calls, x)
         == Add(Score(defs, calls[..|calls| - 1], x), Call(Lookup(defs, calls[|calls| - 1]), x))
  {
  }

  lemma TreeSumStep(trees: seq<Node>, x: seq<real>)
    requires trees != []
    ensures TreeSum(trees, x) == Add(TreeSum(trees[..|trees| - 1], x), Walk(trees[|trees| - 1], x))
  {
  }

  /** The two sums, undefined when a term is. */
  function Add(a: Option<real>, b: Option<real>): Option<real>
  {
    if a.Some? && b.Some? then Some(a.value + b.value) else None
  }

  /** Running a function that may be missing. */
  function Call(c: Option<Code>, x: seq<real>): Option<real>
  {
    if c.Some? then Exec(c.value, x) else None
  }

  /** The functions of the well-formed trees, numbered by position. */
  function Definitions(trees: seq<Node>): seq<(nat, Code)>
    requires forall i :: 0 <= i < |trees| ==> WellFormed(trees[i])
  {
    seq(|trees|, i requires 0 <= i < |trees| => (i as nat, ToCode(trees[i])))
  }

  /** Every number printed in the functions of the trees reads back as
      itself. */
  ghost predicate TreesReadBack(fmt: Formatter, read: Reader, trees: seq<Node>)
    requires forall i :: 0 <= i < |trees| ==> WellFormed(trees[i])
  {
    forall i :: 0 <= i < |trees| ==> ReadsBackIn(fmt, read, ToCode(trees[i]))
  }

  lemma {:induction false} ParseWrittenFunctions(trees: seq<Node>, fmt: Formatter, read: Reader, k: nat)
    requires k <= |trees|
    requires forall i :: 0 <= i < |trees| ==> WellFormed(trees[i])
    requires NoNewline(fmt) && TreesReadBack(fmt, read, trees)
    ensures ParseFunctions(RunTrees(trees, fmt, k).written, read) == Some(Definitions(trees[..k]))
  {
    if k > 0 {
      ParseWrittenFunctions(trees, fmt, read, k - 1);
      RunTreesAllWritten(trees, fmt, k - 1);
      var prev := RunTrees(trees, fmt, k - 1).written;
      var f := TreeFunction(trees[k - 1], k - 1, fmt).value;
      RunTreesStep(trees, fmt, k);
      GeneratedFunctionReadsBack(trees[k - 1], k - 1, fmt, read);
      ParseFunctionsStep(prev, f, read);
      DefinitionsStep(trees, k);
    } else {
      assert Definitions(trees[..0]) == [];
    }
  }

  lemma RunTreesStep(trees: seq<Node>, fmt: Formatter, k: nat)
    requires 0 < k <= |trees|
    requires RunTrees(trees, fmt, k - 1).failure.None?
    requires TreeFunction(trees[k - 1], k - 1, fmt).Success?
    ensures RunTrees(trees, fmt, k).written
         == RunTrees(trees, fmt, k - 1).written + [TreeFunction(trees[k - 1], k - 1, fmt).value]
  {
  }

  lemma DefinitionsStep(trees: seq<Node>, k: nat)
    requires 0 < k <= |trees|
    requires forall i :: 0 <= i < |trees| ==> WellFormed(trees[i])
    ensures Definitions(trees[..k]) == Definitions(trees[..k - 1]) + [(k - 1, ToCode(trees[k - 1]))]
  {
    var a, b := Definitions(trees[..k]), Definitions(trees[..k - 1]) + [(k - 1, ToCode(trees[k - 1]))];
    assert |a| == |b|;
    forall i | 0 <= i < k
      ensures a[i] == b[i]
    {
      assert trees[..k][i] == trees[i];
      if i < k - 1 {
        assert trees[..k - 1][i] == trees[i];
      }
    }
  }

  lemma ParseFunctionsStep(ws: seq<string>, w: string, read: Reader)
    ensures ParseFunctions(ws + [w], read)
         == if ParseFunctions(ws, read).Some? && ParseTreeFunction(w, read).Some?
            then Some(ParseFunctions(ws, read).value + [ParseTreeFunction(w, read).value])
            else None
  {
    assert (ws + [w])[..|ws|] == ws;
  }

  lemma {:induction false} RunTreesAllWritten(trees: seq<Node>, fmt: Formatter, k: nat)
    requires k <= |trees|
    requires forall i :: 0 <= i < |trees| ==> WellFormed(trees[i])
    ensures RunTrees(trees, fmt, k).failure.None?
    ensures |RunTrees(trees, fmt, k).written| == k
  {
    RunTreesWritten(trees, fmt, k);
  }

  lemma {:induction false} LookupDefinition(trees: seq<Node>, defs: seq<(nat, Code)>, from: nat, i: nat)
    requires forall j :: 0 <= j < |trees| ==> WellFormed(trees[j])
    requires from <= i < |trees|
    requires defs == Definitions(trees)[from..]
    ensures Lookup(defs, i) == Some(ToCode(trees[i]))
    decreases i - from
  {
    if from < i {
      assert defs[1..] == Definitions(trees)[from + 1..];
      LookupDefinition(trees, defs[1..], from + 1, i);
    }
  }

  lemma CallDefinition(trees: seq<Node>, x: seq<real>, i: nat)
    requires forall j :: 0 <= j < |trees| ==> WellFormed(trees[j])
    requires i < |trees|
    ensures Call(Lookup(Definitions(trees), i), x) == Walk(trees[i], x)
  {
    LookupDefinition(trees, Definitions(trees), 0, i);
    ExecToCode(trees[i], x);
  }

  lemma {:induction false} ScoreOfDefinitions(trees: seq<Node>, x: seq<real>, k: nat)
    requires forall j :: 0 <= j < |trees| ==> WellFormed(trees[j])
    requires k <= |trees|
    ensures Score(Definitions(trees), Range(k), x) == TreeSum(trees[..k], x)
  {
    if k > 0 {
      ScoreOfDefinitions(trees, x, k - 1);
      CallDefinition(trees, x, k - 1);
      ScoreRangeStep(Definitions(trees), x, k);
      TreeSumPrefixStep(trees, x, k);
    }
  }

  lemma ScoreRangeStep(defs: seq<(nat, Code)>, x: seq<real>, k: nat)
    requires k > 0
    ensures Score(defs, Range(k), x) == Add(Score(defs, Range(k - 1), x), Call(Lookup(defs, k - 1), x))
  {
    var calls := Range(k);
    assert calls[..k - 1] == Range(k - 1) && calls[k - 1] == k - 1;
    ScoreStep(defs, calls, x);
  }

  lemma TreeSumPrefixStep(trees: seq<Node>, x: seq<real>, k: nat)
    requires 0 < k <= |trees|
    ensures TreeSum(trees[..k], x) == Add(TreeSum(trees[..k - 1], x), Walk(trees[k - 1], x))
  {
    var prefix := trees[..k];
    assert prefix[..k - 1] == trees[..k - 1] && prefix[k - 1] == trees[k - 1];
    TreeSumStep(prefix, x);
  }

  /** The compiled ensemble computes the sum of its trees: reading the tree
      functions and the score lines back from the generated source, and
      adding up the called functions on any feature vector x as predict
      does, gives the sum of walking every tree on x. */
  lemma PredictSumsTrees(trees: seq<Node>, fmt: Formatter, read: Reader, x: seq<real>)
    requires forall i :: 0 <= i < |trees| ==> WellFormed(trees[i])
    requires NoNewline(fmt) && TreesReadBack(fmt, read, trees)
    ensures var run := RunTrees(trees, fmt, |trees|);
      && ParseFunctions(run.written, read) == Some(Definitions(trees))
      && ReadCalls(ScoreLines(|trees|)) == Some(Range(|trees|))
      && Score(Definitions(trees), Range(|trees|), x) == TreeSum(trees, x)
  {
    ParseWrittenFunctions(trees, fmt, read, |trees|);
    assert trees[..|trees|] == trees;
    ScoreLinesCallEachTree(|trees|);
    ScoreOfDefinitions(trees, x, |trees|);
  }

  // ---------------------------------------------------------------------
  // The two output streams

  class Streams {
    /** The writes to the header file, in order. */
    var header: seq<string>
    /** The writes to the source file, in order. */
    var source: seq<string>

    constructor ()
      ensures header == [] && source == []
    {
      header := [];
      source := [];
    }

    /** source.write(s). */
    method WriteSource(s: string)
      modifies this
      ensures source == old(source) + [s] && header == old(header)
    {
      source := source + [s];
    }

    /** The header writes of generate_scaler_code. */
    method WriteScalerHeader(nFeatures: nat)
      modifies this
      ensures header == old(header) + ScalerHeader(nFeatures) && source == old(source)
    {
      header := header + ["#pragma once\n\n"];
      header := header + ["const int N_FEATURES = " + NatToString(nFeatures) + ";\n"];
      header := header + ["extern const double mean[N_FEATURES];\n"];
      header := header + ["extern const double scale[N_FEATURES];\n"];
      header := header + ["void scale_input(double* x);\n"];
      header := header + [PredictSignature];
    }

    /** The source writes of generate_scaler_code. */
    method WriteScalerSource(basename: string, means: seq<real>, scales: seq<real>, fmt: Formatter)
      modifies this
      ensures source == old(source) + ScalerSource(basename, means, scales, fmt) && header == old(header)
    {
      source := source + ["#include \"" + basename + ".h\"\n"];
      source := source + ["#include <cmath>\n\n"];

      source := source + [MeanPrefix + "{" + Join(Literals(means, fmt), ", ") + "};\n"];
      source := source + [ScalePrefix + "{" + Join(Literals(scales, fmt), ", ") + "};\n\n"];

      source := source + ["void scale_input(double* x) {\n"];
      source := source + ["    for (int i = 0; i < N_FEATURES; ++i)\n"];
      source := source + ["        x[i] = (x[i] - mean[i]) / scale[i];\n"];
      source := source + ["}\n\n"];
    }

    /** generate_scaler_code(scaler_params, header, source, output_basename).
        A missing "mean" or "scale" key raises before anything is written. */
    method GenerateScalerCode(params: ScalerParams, basename: string, fmt: Formatter)
      returns (status: Outcome<GenError>)
      modifies this
      ensures params.mean.None? ==>
                status == Fail(MissingKey("mean")) && header == old(header) && source == old(source)
      ensures params.mean.Some? && params.scale.None? ==>
                status == Fail(MissingKey("scale")) && header == old(header) && source == old(source)
      ensures params.mean.Some? && params.scale.Some? ==>
                && status == Pass
                && header == old(header) + ScalerHeader(|params.mean.value|)
                && source == old(source) + ScalerSource(basename, params.mean.value, params.scale.value, fmt)
    {
      if params.mean.None? {
        return Fail(MissingKey("mean"));
      }
      var means := params.mean.value;
      if params.scale.None? {
        return Fail(MissingKey("scale"));
      }
      var scales := params.scale.value;
      var nFeatures := |means|;

      WriteScalerHeader(nFeatures);
      WriteScalerSource(basename, means, scales, fmt);
      status := Pass;
    }

    /** The predict function of generate_tree_code for n trees: the score
        starts at 0.0, each tree adds its value in list order, and the
        logistic function of the sum is returned. */
    method WritePredict(n: nat)
      modifies this
      ensures header == old(header) && source == old(source) + PredictLines(n)
    {
      WriteSource(PredictOpen[0]);
      WriteSource(PredictOpen[1]);
      var j := 0;
      while j < n
        invariant 0 <= j <= n
        invariant header == old(header)
        invariant source == old(source) + PredictOpen + ScoreLines(j)
      {
        WriteSource(ScoreLine(j));
        j := j + 1;
      }
      WriteSource(PredictClose[0]);
      WriteSource(PredictClose[1]);
      WriteSource(PredictClose[2]);
    }

    /** generate_tree_code(xgb_model, header, source): one function per tree
        in list order, then predict. A malformed tree raises after the
        functions of the trees before it have been written. */
    method GenerateTreeCode(trees: seq<Node>, fmt: Formatter) returns (status: Outcome<GenError>)
      modifies this
      ensures header == old(header)
      ensures var run := RunTrees(trees, fmt, |trees|);
        && status == (if run.failure.None? then Pass else Fail(run.failure.value))
        && source == old(source) + ["// Tree functions\n"] + run.written
                     + (if run.failure.None? then PredictLines(|trees|) else [])
    {
      var nTrees := |trees|;
      WriteSource("// Tree functions\n");
      var i := 0;
      while i < nTrees
        invariant 0 <= i <= nTrees
        invariant RunTrees(trees, fmt, i).failure.None?
        invariant header == old(header)
        invariant source == old(source) + ["// Tree functions\n"] + RunTrees(trees, fmt, i).written
      {
        var treeFunc := TreeFunction(trees[i], i, fmt);
        if treeFunc.Failure? {
          RunTreesStops(trees, fmt, i + 1, nTrees);
          return Fail(treeFunc.error);
        }
        WriteSource(treeFunc.value);
        i := i + 1;
      }

      WritePredict(nTrees);
      status := Pass;
    }

    /** The two emitter calls of generate_cpp_code, on freshly opened
        streams: the scaler code, then the tree code. */
    method Generate(params: ScalerParams, trees: seq<Node>, basename: string, fmt: Formatter)
      returns (status: Outcome<GenError>)
      modifies this
      ensures params.mean.None? || params.scale.None? ==>
                status.Fail? && status.error.MissingKey? && header == old(header) && source == old(source)
      ensures params.mean.Some? && params.scale.Some? ==>
                var run := RunTrees(trees, fmt, |trees|);
                && status == (if run.failure.None? then Pass else Fail(run.failure.value))
                && header == old(header) + ScalerHeader(|params.mean.value|)
                && source == old(source) + ScalerSource(basename, params.mean.value, params.scale.value, fmt)
                             + ["// Tree functions\n"] + run.written
                             + (if run.failure.None? then PredictLines(|trees|) else [])
    {
      status := GenerateScalerCode(params, basename, fmt);
      if status.Fail? {
        return;
      }
      status := GenerateTreeCode(trees, fmt);
    }
  }
}
