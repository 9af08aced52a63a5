/** Tree nodes as the XGBoost dump_model JSON decodes them: a dictionary
    whose keys the generator inspects one by one. Each key the generator
    reads is an optional field here, so that a node may have any
    combination of them, exactly as a dictionary may. */
module Nodes {
  import opened Wrappers
  import opened Decimal

  /** The value under the "children" key, when there is one. A datatype of
      its own (rather than Option<seq<Node>>) so that a child is known to
      be smaller than its parent. */
  datatype ChildrenKey = NoChildren | Children(nodes: seq<Node>)

  datatype Node = Node(
    leaf: Option<real>,           // "leaf"
    split: Option<string>,        // "split", the token "f<index>"
    splitCondition: Option<real>, // "split_condition", the threshold
    children: ChildrenKey,        // "children"
    otherKeys: set<string>)       // keys the generator never reads: "nodeid", "depth", "yes", ...

  /** The errors the generator raises: a missing scaler key (KeyError), a
      split token whose tail is not an integer, a split whose children are
      not two, and a node of neither shape (the three ValueErrors). */
  datatype GenError =
    | MissingKey(key: string)
    | BadFeatureIndex(token: string)
    | WrongChildCount(found: nat)
    | UnexpectedStructure(keys: set<string>)

  const RecognizedKeys: set<string> := {"leaf", "split", "split_condition", "children"}

  /** list(node.keys()), as a set. */
  function Keys(node: Node): (ks: set<string>)
    ensures "leaf" in ks <==> node.leaf.Some?
    ensures "split" in ks <==> node.split.Some?
    ensures "split_condition" in ks <==> node.splitCondition.Some?
    ensures "children" in ks <==> node.children.Children?
    ensures node.otherKeys - RecognizedKeys <= ks
    ensures ks <= RecognizedKeys + node.otherKeys
  {
    (node.otherKeys - RecognizedKeys)
    + (if node.leaf.Some? then {"leaf"} else {})
    + (if node.split.Some? then {"split"} else {})
    + (if node.splitCondition.Some? then {"split_condition"} else {})
    + (if node.children.Children? then {"children"} else {})
  }

  /** The test of convertModel.py:31: all three split keys are present. */
  predicate HasSplitKeys(node: Node)
  {
    node.split.Some? && node.splitCondition.Some? && node.children.Children?
  }

  /** The children of a split node. */
  function ChildNodes(node: Node): seq<Node>
  {
    match node.children
    case Children(cs) => cs
    case NoChildren => []
  }

  /** A node the generator translates without error: a leaf (whatever other
      keys it has), or a split with a decodable feature index and exactly
      two children that are well formed in turn. */
  predicate WellFormed(node: Node)
    decreases node
  {
    if node.leaf.Some? then true
    else
      && HasSplitKeys(node)
      && FeatureIndex(node.split.value).Some?
      && |ChildNodes(node)| == 2
      && WellFormed(ChildNodes(node)[0])
      && WellFormed(ChildNodes(node)[1])
  }

  /** Evaluating the tree directly on a feature vector x: from a split go to
      the first child when x[index] < threshold and to the second otherwise,
      and a leaf gives its value. None when the node is not well formed or
      a split reads outside x. */
  function Walk(node: Node, x: seq<real>): Option<real>
    decreases node
  {
    if node.leaf.Some? then Some(node.leaf.value)
    else if !HasSplitKeys(node) || |ChildNodes(node)| != 2 then None
    else
      var fid := FeatureIndex(node.split.value);
      if fid.None? || !(0 <= fid.value < |x|) then None
      else if x[fid.value] < node.splitCondition.value then Walk(ChildNodes(node)[0], x)
      else Walk(ChildNodes(node)[1], x)
  }

  /** Every feature index a split of the tree reads is below n. */
  predicate FeaturesBelow(node: Node, n: nat)
    decreases node
  {
    if node.leaf.Some? then true
    else
      && HasSplitKeys(node)
      && |ChildNodes(node)| == 2
      && FeatureIndex(node.split.value).Some?
      && 0 <= FeatureIndex(node.split.value).value < n
      && FeaturesBelow(ChildNodes(node)[0], n)
      && FeaturesBelow(ChildNodes(node)[1], n)
  }

  /** A tree that reads only features present in x evaluates to a value. */
  lemma {:induction false} WalkDefined(node: Node, x: seq<real>)
    requires FeaturesBelow(node, |x|)
    ensures WellFormed(node) && Walk(node, x).Some?
  {
    if node.leaf.None? {
      WalkDefined(ChildNodes(node)[0], x);
      WalkDefined(ChildNodes(node)[1], x);
    }
  }

  /** Number of leaves of a well-formed tree. */
  function LeafCount(node: Node): nat
    decreases node
  {
    if node.leaf.Some? then 1
    else if |ChildNodes(node)| != 2 then 0
    else LeafCount(ChildNodes(node)[0]) + LeafCount(ChildNodes(node)[1])
  }

  /** Number of split nodes of a well-formed tree. */
  function SplitCount(node: Node): nat
    decreases node
  {
    if node.leaf.Some? then 0
    else if |ChildNodes(node)| != 2 then 0
    else 1 + SplitCount(ChildNodes(node)[0]) + SplitCount(ChildNodes(node)[1])
  }

  /** A binary tree has one leaf more than it has splits. */
  lemma {:induction false} LeavesExceedSplits(node: Node)
    requires WellFormed(node)
    ensures LeafCount(node) == SplitCount(node) + 1
  {
    if node.leaf.None? {
      LeavesExceedSplits(ChildNodes(node)[0]);
      LeavesExceedSplits(ChildNodes(node)[1]);
    }
  }
}
