/** The translation of one tree into a C++ function: recurse and
    generate_tree_function of convertModel.py. */
module TreeCodegen {
  import opened Wrappers
  import opened Decimal
  import opened Nodes
  import opened BranchCode

  /** recurse(node): the branch code of a node as text, or the error raised
      while translating it. A "leaf" key wins over every other key; otherwise
      the three split keys must all be present, the token's tail must be an
      integer, and there must be two children, which are translated first to
      last. */
  function Recurse(node: Node, fmt: Formatter): (r: Result<string, GenError>)
    ensures r.Success? <==> WellFormed(node)
    decreases node
  {
    if node.leaf.Some? then Success("return " + fmt(node.leaf.value) + ";\n")
    else if HasSplitKeys(node) then
      (var token := node.split.value;
       match FeatureIndex(token)
       case None => Failure(BadFeatureIndex(token))
       case Some(fid) =>
         var threshold := node.splitCondition.value;
         var children := ChildNodes(node);
         if |children| != 2 then Failure(WrongChildCount(|children|))
         else
           var code := "if (x[" + IntToString(fid) + "] < " + fmt(threshold) + ") {\n";
           match Recurse(children[0], fmt)
           case Failure(e) => Failure(e)
           case Success(left) =>
             match Recurse(children[1], fmt)
             case Failure(e) => Failure(e)
             case Success(right) => Success(code + left + "} else {\n" + right + "}\n"))
    else Failure(UnexpectedStructure(Keys(node)))
  }

  /** The branch code a well-formed node stands for. */
  function ToCode(node: Node): Code
    requires WellFormed(node)
    decreases node
  {
    if node.leaf.Some? then Return(node.leaf.value)
    else
      IfLess(FeatureIndex(node.split.value).value, node.splitCondition.value,
             ToCode(ChildNodes(node)[0]), ToCode(ChildNodes(node)[1]))
  }

  /** The text recurse produces is the text of the node's branch code. */
  lemma {:induction false} RecurseRendersCode(node: Node, fmt: Formatter)
    requires WellFormed(node)
    ensures Recurse(node, fmt) == Success(Concat(Lines(ToCode(node), fmt)))
  {
    if node.leaf.None? {
      var a, b := ChildNodes(node)[0], ChildNodes(node)[1];
      RecurseRendersCode(a, fmt);
      RecurseRendersCode(b, fmt);
      var c := ToCode(node);
      var il := IfLine(c.feature, c.threshold, fmt);
      var la, lb := Lines(ToCode(a), fmt), Lines(ToCode(b), fmt);
      ConcatAppend([il] + la + [ElseLine] + lb, [CloseLine]);
      ConcatAppend([il] + la + [ElseLine], lb);
      ConcatAppend([il] + la, [ElseLine]);
      ConcatAppend([il], la);
      assert Concat([il]) == il;
      assert Concat([ElseLine]) == ElseLine;
      assert Concat([CloseLine]) == CloseLine;
    } else {
      assert Concat([ReturnLine(node.leaf.value, fmt)]) == ReturnLine(node.leaf.value, fmt);
    }
  }

  /** Running the branch code of a node is walking the node. */
  lemma {:induction false} ExecToCode(node: Node, x: seq<real>)
    requires WellFormed(node)
    ensures Exec(ToCode(node), x) == Walk(node, x)
  {
    if node.leaf.None? {
      var a, b := ChildNodes(node)[0], ChildNodes(node)[1];
      ExecToCode(a, x);
      ExecToCode(b, x);
      var fid := FeatureIndex(node.split.value).value;
      var t := node.splitCondition.value;
      assert ToCode(node) == IfLess(fid, t, ToCode(a), ToCode(b));
      assert Walk(node, x) == if !(0 <= fid < |x|) then None else if x[fid] < t then Walk(a, x) else Walk(b, x);
    }
  }

  /** The branch code generated for a tree, read back from its text and run
      on any feature vector x, returns what walking the tree returns: the
      value of the leaf reached by going to the first child when
      x[index] < threshold and to the second otherwise. When every split
      reads a feature present in x, that value exists. */
  lemma GeneratedCodeAgreesWithTree(node: Node, fmt: Formatter, read: Reader, x: seq<real>)
    requires WellFormed(node)
    requires NoNewline(fmt) && ReadsBackIn(fmt, read, ToCode(node))
    ensures Recurse(node, fmt).Success?
    ensures ParseText(Recurse(node, fmt).value, read) == Some(ToCode(node))
    ensures Exec(ToCode(node), x) == Walk(node, x)
    ensures FeaturesBelow(node, |x|) ==> Exec(ToCode(node), x).Some?
  {
    RecurseRendersCode(node, fmt);
    ParseRendered(ToCode(node), fmt, read);
    ExecToCode(node, x);
    if FeaturesBelow(node, |x|) {
      WalkDefined(node, x);
    }
  }

  /** A node with a "leaf" key is a leaf whatever else it holds: it
      translates to `return v;`, and the code returns v. */
  lemma LeafWins(node: Node, fmt: Formatter, read: Reader, x: seq<real>)
    requires node.leaf.Some?
    requires NoNewline(fmt) && read(fmt(node.leaf.value)) == Some(node.leaf.value)
    ensures Recurse(node, fmt) == Success(ReturnLine(node.leaf.value, fmt))
    ensures ParseText(Recurse(node, fmt).value, read) == Some(Return(node.leaf.value))
    ensures Walk(node, x) == Some(node.leaf.value)
  {
    GeneratedCodeAgreesWithTree(node, fmt, read, x);
  }

  /** The errors raised at a node itself. */
  lemma NodeErrors(node: Node, fmt: Formatter)
    requires node.leaf.None?
    ensures !HasSplitKeys(node) ==> Recurse(node, fmt) == Failure(UnexpectedStructure(Keys(node)))
    ensures HasSplitKeys(node) && FeatureIndex(node.split.value).None? ==>
              Recurse(node, fmt) == Failure(BadFeatureIndex(node.split.value))
    ensures HasSplitKeys(node) && FeatureIndex(node.split.value).Some? && |ChildNodes(node)| != 2 ==>
              Recurse(node, fmt) == Failure(WrongChildCount(|ChildNodes(node)|))
  {
  }

  /** An error in a child is the error of the split: the first child's if it
      has one, else the second child's. */
  lemma ChildErrors(node: Node, fmt: Formatter)
    requires node.leaf.None? && HasSplitKeys(node)
    requires FeatureIndex(node.split.value).Some? && |ChildNodes(node)| == 2
    ensures Recurse(ChildNodes(node)[0], fmt).Failure? ==>
              Recurse(node, fmt) == Failure(Recurse(ChildNodes(node)[0], fmt).error)
    ensures Recurse(ChildNodes(node)[0], fmt).Success? && Recurse(ChildNodes(node)[1], fmt).Failure? ==>
              Recurse(node, fmt) == Failure(Recurse(ChildNodes(node)[1], fmt).error)
  {
  }

  /** sub is a node that recurse reaches when it translates node: node
      itself, or a node reached from a child of a split that passed the
      checks at convertModel.py:29-39. The children of a node with a "leaf"
      key are never reached. */
  predicate Reaches(node: Node, sub: Node)
    decreases node
  {
    || sub == node
    || (&& node.leaf.None? && HasSplitKeys(node)
        && FeatureIndex(node.split.value).Some? && |ChildNodes(node)| == 2
        && (Reaches(ChildNodes(node)[0], sub) || Reaches(ChildNodes(node)[1], sub)))
  }

  /** A malformed node anywhere recurse reaches makes the whole translation
      fail. */
  lemma {:induction false} MalformedSubtreeFails(node: Node, sub: Node, fmt: Formatter)
    requires Reaches(node, sub) && !WellFormed(sub)
    ensures Recurse(node, fmt).Failure?
    decreases node
  {
    if sub != node {
      if Reaches(ChildNodes(node)[0], sub) {
        MalformedSubtreeFails(ChildNodes(node)[0], sub, fmt);
      } else {
        MalformedSubtreeFails(ChildNodes(node)[1], sub, fmt);
      }
    }
  }

  /** The generated text has one `return` line per leaf and one `if` line and
      one `} else {` line per split, so one `return` more than `if`. */
  lemma StatementCounts(node: Node, fmt: Formatter)
    requires NoNewline(fmt)
    requires WellFormed(node)
    ensures Recurse(node, fmt).Success?
    ensures CountStarting(SplitLines(Recurse(node, fmt).value), "return ") == LeafCount(node)
    ensures CountStarting(SplitLines(Recurse(node, fmt).value), "if (") == SplitCount(node)
    ensures CountStarting(SplitLines(Recurse(node, fmt).value), ElseLine) == SplitCount(node)
    ensures CountStarting(SplitLines(Recurse(node, fmt).value), "return ")
         == CountStarting(SplitLines(Recurse(node, fmt).value), "if (") + 1
  {
    RecurseRendersCode(node, fmt);
    LinesAreLines(ToCode(node), fmt);
    SplitLinesConcat(Lines(ToCode(node), fmt));
    LineCounts(ToCode(node), fmt);
    CodeCounts(node);
    LeavesExceedSplits(node);
  }

  lemma {:induction false} CodeCounts(node: Node)
    requires WellFormed(node)
    ensures ReturnCount(ToCode(node)) == LeafCount(node)
    ensures BranchCount(ToCode(node)) == SplitCount(node)
  {
    if node.leaf.None? {
      CodeCounts(ChildNodes(node)[0]);
      CodeCounts(ChildNodes(node)[1]);
    }
  }

  // ---------------------------------------------------------------------
  // generate_tree_function

  /** The C++ name of the tree at position i. */
  function TreeName(i: nat): string
  {
    "tree_" + NatToString(i)
  }

  function FunctionHeader(id: nat): string
  {
    "double " + TreeName(id) + "(const double* x) {\n"
  }

  const FunctionEnd: seq<string> := ["}\n", "\n"]

  /** generate_tree_function(tree, tree_id). */
  function TreeFunction(tree: Node, id: nat, fmt: Formatter): (r: Result<string, GenError>)
    ensures r.Success? <==> WellFormed(tree)
    ensures r.Failure? ==> r.error == Recurse(tree, fmt).error
  {
    match Recurse(tree, fmt)
    case Failure(e) => Failure(e)
    case Success(body) => Success(FunctionHeader(id) + body + "}\n\n")
  }

  /** Reads the number n out of a line `double tree_n(const double* x) {`. */
  function ReadHeader(l: string): Option<nat>
  {
    if |l| > 32 && StartsWith(l, "double tree_") && l[|l| - 20..] == "(const double* x) {\n"
       && AllDigits(l[12..|l| - 20])
    then Some(LiteralValue(l[12..|l| - 20]))
    else None
  }

  /** Reads a whole tree function: its number and its branch code. */
  function ParseTreeFunction(s: string, read: Reader): Option<(nat, Code)>
  {
    var ls := SplitLines(s);
    if |ls| < 3 || ls[|ls| - 2..] != FunctionEnd then None
    else
      match ReadHeader(ls[0])
      case None => None
      case Some(id) =>
        match ParseStmt(ClassifyAll(ls[1..|ls| - 2], read))
        case Some((c, rest)) => if rest == [] then Some((id, c)) else None
        case None => None
  }

  lemma ReadFunctionHeader(id: nat)
    ensures IsLine(FunctionHeader(id))
    ensures ReadHeader(FunctionHeader(id)) == Some(id)
  {
    var l := FunctionHeader(id);
    var num := NatToString(id);
    assert l == "double tree_" + num + "(const double* x) {\n";
    assert l[12..|l| - 20] == num;
    assert l[..|l| - 1] == "double tree_" + num + "(const double* x) {";
    LiteralValueOfNatToString(id);
  }

  /** The lines of the function generated for tree number id: the header
      `double tree_id(const double* x) {`, the tree's branch code, `}` and a
      blank line. */
  lemma FunctionLines(tree: Node, id: nat, fmt: Formatter)
    requires NoNewline(fmt)
    requires TreeFunction(tree, id, fmt).Success?
    ensures SplitLines(TreeFunction(tree, id, fmt).value)
         == [FunctionHeader(id)] + Lines(ToCode(tree), fmt) + FunctionEnd
  {
    var body := Lines(ToCode(tree), fmt);
    RecurseRendersCode(tree, fmt);
    LinesAreLines(ToCode(tree), fmt);
    ReadFunctionHeader(id);
    FunctionText(FunctionHeader(id), body);
    SplitLinesConcat([FunctionHeader(id)] + body + FunctionEnd);
  }

  /** The lines of a function: its header, its body lines and FunctionEnd. */
  lemma FunctionText(h: string, body: seq<string>)
    requires IsLine(h) && forall l :: l in body ==> IsLine(l)
    ensures Concat([h] + body + FunctionEnd) == h + Concat(body) + "}\n\n"
    ensures forall l :: l in [h] + body + FunctionEnd ==> IsLine(l)
  {
    assert IsLine("}\n") && IsLine("\n");
    ConcatAppend([h] + body, FunctionEnd);
    ConcatAppend([h], body);
    assert Concat([h]) == h;
    assert Concat(FunctionEnd) == "}\n\n";
  }

  /** Text whose lines are those of a tree function reads back as that
      function's number and branch code. */
  lemma ParseFunctionLines(s: string, id: nat, c: Code, fmt: Formatter, read: Reader)
    requires ReadsBackIn(fmt, read, c)
    requires SplitLines(s) == [FunctionHeader(id)] + Lines(c, fmt) + FunctionEnd
    ensures ParseTreeFunction(s, read) == Some((id, c))
  {
    var ls := SplitLines(s);
    ReadFunctionHeader(id);
    assert ls[0] == FunctionHeader(id);
    assert ls[1..|ls| - 2] == Lines(c, fmt);
    assert ls[|ls| - 2..] == FunctionEnd;
    ClassifyLines(c, fmt, read);
    ParseTokens(c, []);
    assert Tokens(c) + [] == Tokens(c);
  }

  /** The function generated for tree number id reads back as a function
      named tree_id whose branch code is the tree's. */
  lemma GeneratedFunctionReadsBack(tree: Node, id: nat, fmt: Formatter, read: Reader)
    requires WellFormed(tree)
    requires NoNewline(fmt) && ReadsBackIn(fmt, read, ToCode(tree))
    ensures TreeFunction(tree, id, fmt).Success?
    ensures ParseTreeFunction(TreeFunction(tree, id, fmt).value, read) == Some((id, ToCode(tree)))
  {
    FunctionLines(tree, id, fmt);
    ParseFunctionLines(TreeFunction(tree, id, fmt).value, id, ToCode(tree), fmt, read);
  }

  /** Different trees get different function names. */
  lemma TreeNamesDistinct(i: nat, j: nat)
    requires i != j
    ensures TreeName(i) != TreeName(j)
  {
    if TreeName(i) == TreeName(j) {
      assert NatToString(i) == TreeName(i)[5..];
      NatToStringInjective(i, j);
    }
  }
}
