/** The concrete syntax tree the parsers walk, and the tree helpers every
    language parser shares (`span_select`, `children_of_type`,
    `previous_sibling`, `traverse_type`, `has_correct_syntax`).  The tree
    itself is an input: parsing is not modelled.
 */
module Tree {
  import opened Wrappers
  import opened Text

  /** A (row, column) position, both counted from zero. */
  datatype Point = Point(row: nat, col: nat)

  /** A syntax node: grammar type, the field name under which its parent
      holds it ("" for none), byte span, point span, children in source
      order, and whether the parser inserted it as a missing token. */
  datatype Node = Node(
    kind: String,
    field: String,
    startByte: nat,
    endByte: nat,
    startPoint: Point,
    endPoint: Point,
    children: seq<Node>,
    isMissing: bool)
  {
    predicate IsLeaf() { children == [] }
  }

  /** `node.text`: the source bytes the node covers. */
  function NodeText(src: String, n: Node): String {
    Slice(src, n.startByte, n.endByte)
  }

  /** `span_select(*nodes, indent=...)`: the source from the first node's start
      to the last node's end, left-padded with as many spaces as the first
      node's start column when `indent` holds; "" for no nodes. */
  function SpanSelect(src: String, nodes: seq<Node>, indent: bool): (r: String)
    ensures nodes == [] ==> r == []
    ensures nodes != [] ==>
      var body := Slice(src, nodes[0].startByte, nodes[|nodes| - 1].endByte);
      r == (if indent then Spaces(nodes[0].startPoint.col) + body else body)
  {
    if nodes == [] then []
    else
      var body := Slice(src, nodes[0].startByte, nodes[|nodes| - 1].endByte);
      if indent then Spaces(nodes[0].startPoint.col) + body else body
  }

  /** `span_select(node, indent=False)`. */
  function Span(src: String, n: Node): String {
    SpanSelect(src, [n], false)
  }

  /** `node.child_by_field_name(f)`: the first child held under field `f`. */
  function ChildByField(n: Node, f: String): (r: Option<Node>)
    ensures r.Some? ==> exists i :: 0 <= i < |n.children| && n.children[i] == r.value
    ensures r.Some? ==> r.value.field == f
    ensures r.None? ==> forall i :: 0 <= i < |n.children| ==> n.children[i].field != f
  {
    match FirstChildWhere(n.children, (c: Node) => c.field == f)
    case None => None
    case Some(i) => Some(n.children[i])
  }

  /** The index of the first node in `cs` satisfying `p`. */
  function FirstChildWhere(cs: seq<Node>, p: Node -> bool): (r: Option<nat>)
    ensures r.Some? ==> r.value < |cs| && p(cs[r.value]) && forall j :: 0 <= j < r.value ==> !p(cs[j])
    ensures r.None? ==> forall j :: 0 <= j < |cs| ==> !p(cs[j])
  {
    if cs == [] then None
    else if p(cs[0]) then Some(0)
    else match FirstChildWhere(cs[1..], p)
      case None => None
      case Some(k) => Some(k + 1)
  }

  /** The nodes of `cs` whose type is in `kinds`, in order. */
  function FilterKinds(cs: seq<Node>, kinds: set<String>): (r: seq<Node>)
    ensures |r| <= |cs|
    ensures forall i :: 0 <= i < |r| ==> r[i].kind in kinds && r[i] in cs
    ensures forall i :: 0 <= i < |cs| && cs[i].kind in kinds ==> cs[i] in r
  {
    if cs == [] then []
    else if cs[0].kind in kinds then [cs[0]] + FilterKinds(cs[1..], kinds)
    else FilterKinds(cs[1..], kinds)
  }

  /** `children_of_type(node, kinds)`. */
  function ChildrenOfType(n: Node, kinds: set<String>): seq<Node> {
    FilterKinds(n.children, kinds)
  }

  /** The position of `n` among the children of `parent`. */
  function ChildIndex(parent: Node, n: Node): (r: Option<nat>)
    ensures r.Some? ==> r.value < |parent.children| && parent.children[r.value] == n
    ensures r.Some? ==> forall j :: 0 <= j < r.value ==> parent.children[j] != n
    ensures r.None? ==> n !in parent.children
  {
    FirstChildWhere(parent.children, (c: Node) => c == n)
  }

  /** `previous_sibling(node, parent)`: the child of `parent` just before `node`. */
  function PreviousSibling(n: Node, parent: Node): (r: Option<Node>)
    ensures r.Some? <==> ChildIndex(parent, n).Some? && ChildIndex(parent, n).value > 0
    ensures r.Some? ==> r.value == parent.children[ChildIndex(parent, n).value - 1]
  {
    match ChildIndex(parent, n)
    case Some(i) => if i > 0 then Some(parent.children[i - 1]) else None
    case None => None
  }

  /** `traverse_type(node, results, kinds)`: every node of the subtree whose
      type is in `kinds`, in pre-order. */
  function TraverseType(n: Node, kinds: set<String>): (r: seq<Node>)
    ensures forall i :: 0 <= i < |r| ==> r[i].kind in kinds
    decreases n, 1
  {
    (if n.kind in kinds then [n] else []) + TraverseChildren(n, kinds, 0)
  }

  function TraverseChildren(n: Node, kinds: set<String>, i: nat): (r: seq<Node>)
    requires i <= |n.children|
    ensures forall j :: 0 <= j < |r| ==> r[j].kind in kinds
    decreases n, 0, |n.children| - i
  {
    if i == |n.children| then []
    else TraverseType(n.children[i], kinds) + TraverseChildren(n, kinds, i + 1)
  }

  /** The parent of `target` within the subtree of `n`, searched in pre-order. */
  function ParentIn(n: Node, target: Node): (r: Option<Node>)
    decreases n, 1
  {
    if target in n.children then Some(n) else ParentInChildren(n, target, 0)
  }

  function ParentInChildren(n: Node, target: Node, i: nat): Option<Node>
    requires i <= |n.children|
    decreases n, 0, |n.children| - i
  {
    if i == |n.children| then None
    else match ParentIn(n.children[i], target)
      case Some(p) => Some(p)
      case None => ParentInChildren(n, target, i + 1)
  }

  /** The number of nodes on the longest root-to-leaf path. */
  function Depth(n: Node): (d: nat)
    ensures d >= 1
    decreases n, 1
  {
    1 + ChildrenDepth(n, 0)
  }

  function ChildrenDepth(n: Node, i: nat): nat
    requires i <= |n.children|
    decreases n, 0, |n.children| - i
  {
    if i == |n.children| then 0
    else
      var a, b := Depth(n.children[i]), ChildrenDepth(n, i + 1);
      if a >= b then a else b
  }

  /** No node of the subtree is an `ERROR` node or a missing node. */
  predicate WellFormed(n: Node)
    decreases n, 1
  {
    n.kind != "ERROR" && !n.isMissing && ChildrenWellFormed(n, 0)
  }

  predicate ChildrenWellFormed(n: Node, i: nat)
    requires i <= |n.children|
    decreases n, 0, |n.children| - i
  {
    i == |n.children| || (WellFormed(n.children[i]) && ChildrenWellFormed(n, i + 1))
  }

  /** Python's default recursion limit: deeper checks raise `RecursionError`. */
  const RecursionLimit: nat := 1000

  /** `has_correct_syntax(node)` with `frames` stack frames left: a recursive,
      short-circuiting check that raises `RecursionError` when it runs out of
      frames before it finds an error. */
  function CheckSyntax(n: Node, frames: nat): Result<bool>
    decreases n, 1
  {
    if frames == 0 then Err(RecursionError)
    else if n.kind == "ERROR" || n.isMissing then Ok(false)
    else CheckChildren(n, 0, frames - 1)
  }

  function CheckChildren(n: Node, i: nat, frames: nat): Result<bool>
    requires i <= |n.children|
    decreases n, 0, |n.children| - i
  {
    if i == |n.children| then Ok(true)
    else match CheckSyntax(n.children[i], frames)
      case Err(e) => Err(e)
      case Ok(false) => Ok(false)
      case Ok(true) => CheckChildren(n, i + 1, frames)
  }

  /** `syntax_pass` in the C++, C# and JavaScript/TypeScript parsers:
      `has_correct_syntax`, with the `RecursionError` they catch read as False. */
  function SyntaxPass(n: Node): bool {
    CheckSyntax(n, RecursionLimit) == Ok(true)
  }

  lemma {:induction false} CheckSyntaxTrue(n: Node, frames: nat)
    ensures CheckSyntax(n, frames) == Ok(true) <==> WellFormed(n) && Depth(n) <= frames
    decreases n, 1
  {
    if frames > 0 && n.kind != "ERROR" && !n.isMissing {
      CheckChildrenTrue(n, 0, frames - 1);
    }
  }

  lemma {:induction false} CheckChildrenTrue(n: Node, i: nat, frames: nat)
    requires i <= |n.children|
    ensures CheckChildren(n, i, frames) == Ok(true) <==> ChildrenWellFormed(n, i) && ChildrenDepth(n, i) <= frames
    decreases n, 0, |n.children| - i
  {
    if i < |n.children| {
      CheckSyntaxTrue(n.children[i], frames);
      CheckChildrenTrue(n, i + 1, frames);
    }
  }

  /** `syntax_pass` holds exactly when the subtree is free of error and missing
      nodes and shallow enough for the recursion limit. */
  lemma SyntaxPassMeaning(n: Node)
    ensures SyntaxPass(n) <==> WellFormed(n) && Depth(n) <= RecursionLimit
  {
    CheckSyntaxTrue(n, RecursionLimit);
  }
}
