/** What the C++ and C# parsers share word for word: the state `update`
    leaves behind, the file docstring and context, the top-level and
    in-namespace candidates, and a member's placement from the namespace
    tables.
 */
module CFamily {
  import opened Wrappers
  import opened Text
  import opened Tree
  import opened Schema
  import opened CommentUtils
  import opened Namespaces

  /** What `update` leaves on the parser: the source bytes, the tree, the
      row offset added to every point, and the two namespace tables. */
  datatype Context = Context(
    src: String,
    root: Node,
    startingPoint: nat,
    namespaces: map<Key, String>,
    parents: map<Key, Node>)

  /** A point of the tree moved down by the parser's starting row. */
  function Shift(ctx: Context, p: Point): Point {
    Point(ctx.startingPoint + p.row, p.col)
  }

  /** `file_docstring`: the comments the file starts with, each on its own
      line, without their delimiters, stripped. */
  function FileDocstring(src: String, root: Node): String {
    Strip(StripCStyleDelimiters(Lines(src, root.children[..CommentRun(root.children)])))
  }

  /** The loop of `file_docstring`, which stops at the first child that is
      not a comment. */
  method FileDocstringLoop(src: String, root: Node) returns (doc: String)
    ensures doc == FileDocstring(src, root)
  {
    if root.children == [] {
      assert root.children[..0] == [];
      return Strip(StripCStyleDelimiters([]));
    }
    var text := LeadingComments(src, root.children);
    return Strip(StripCStyleDelimiters(text));
  }

  /** `file_context`: the stripped, indented text of every top-level import
      node (C++ includes, defines and preprocessor calls; C# using
      directives), in order. */
  function FileContext(src: String, root: Node, importKinds: set<String>): (r: seq<String>)
    ensures |r| == |ChildrenOfType(root, importKinds)|
    ensures forall i :: 0 <= i < |r| ==> r[i] == Strip(SpanSelect(src, [ChildrenOfType(root, importKinds)[i]], true))
  {
    var imports := ChildrenOfType(root, importKinds);
    seq(|imports|, i requires 0 <= i < |imports| => Strip(SpanSelect(src, [imports[i]], true)))
  }

  /** Root child `j` is an import node whose stripped text is `t`. */
  predicate ImportText(src: String, root: Node, importKinds: set<String>, j: int, t: String) {
    0 <= j < |root.children| && root.children[j].kind in importKinds && t == Strip(NodeText(src, root.children[j]))
  }

  lemma FileContextAt(src: String, root: Node, importKinds: set<String>, i: nat)
    requires i < |ChildrenOfType(root, importKinds)|
    ensures var n := ChildrenOfType(root, importKinds)[i];
      FileContext(src, root, importKinds)[i] == Strip(NodeText(src, n)) && Trimmed(Strip(NodeText(src, n)))
  {
    var n := ChildrenOfType(root, importKinds)[i];
    StripIndented(n.startPoint.col, NodeText(src, n));
    StripEnds(NodeText(src, n));
  }

  /** Each context entry is the text of a top-level import node with the
      whitespace around it removed, the indentation `span_select` puts in
      front included; every top-level import node has its entry; no entry
      starts or ends with whitespace. */
  lemma FileContextMeaning(src: String, root: Node, importKinds: set<String>)
    ensures var r := FileContext(src, root, importKinds);
      (forall i :: 0 <= i < |r| ==> Trimmed(r[i]) && exists j :: ImportText(src, root, importKinds, j, r[i]))
      && (forall j :: 0 <= j < |root.children| && root.children[j].kind in importKinds ==>
            Strip(NodeText(src, root.children[j])) in r)
  {
    var r := FileContext(src, root, importKinds);
    var imports := ChildrenOfType(root, importKinds);
    forall i | 0 <= i < |r|
      ensures Trimmed(r[i]) && exists j :: ImportText(src, root, importKinds, j, r[i])
    {
      FileContextAt(src, root, importKinds, i);
      var j :| 0 <= j < |root.children| && root.children[j] == imports[i];
      assert ImportText(src, root, importKinds, j, r[i]);
    }
    forall j | 0 <= j < |root.children| && root.children[j].kind in importKinds
      ensures Strip(NodeText(src, root.children[j])) in r
    {
      var i :| 0 <= i < |imports| && imports[i] == root.children[j];
      FileContextAt(src, root, importKinds, i);
    }
  }

  /** The `kinds` children of a namespace's first declaration list. */
  function DeclListChildren(ns: Node, kinds: set<String>): seq<Node> {
    match FirstOfKind(ns.children, "declaration_list")
    case None => []
    case Some(j) => ChildrenOfType(ns.children[j], kinds)
  }

  function InNamespaces(nss: seq<Node>, kinds: set<String>): (r: seq<Node>)
    ensures forall i :: 0 <= i < |r| ==> r[i].kind in kinds
  {
    if nss == [] then [] else InNamespaces(nss[..|nss| - 1], kinds) + DeclListChildren(nss[|nss| - 1], kinds)
  }

  /** `class_nodes` / `method_nodes`: the top-level nodes of the given types,
      then those of each namespace's first declaration list, namespaces in
      pre-order. */
  function Candidates(root: Node, namespaceKinds: set<String>, kinds: set<String>): (r: seq<Node>)
    ensures forall i :: 0 <= i < |r| ==> r[i].kind in kinds
    ensures |ChildrenOfType(root, kinds)| <= |r| && r[..|ChildrenOfType(root, kinds)|] == ChildrenOfType(root, kinds)
  {
    ChildrenOfType(root, kinds) + InNamespaces(TraverseType(root, namespaceKinds), kinds)
  }

  /** A member's namespace prefix and parent: the tables' entry when its
      span was recorded, else "" and the caller's parent; a span in one
      table and not the other raises `KeyError`. */
  function Placement(ctx: Context, n: Node, parent: Option<Node>): Result<(String, Option<Node>)> {
    var key := KeyOf(n);
    if key !in ctx.namespaces then Ok(([], parent))
    else if key !in ctx.parents then Err(KeyError)
    else Ok((ctx.namespaces[key], Some(ctx.parents[key])))
  }

  /** The context `update` leaves for a family of parsers: both tables
      written from the walk of the whole tree. */
  predicate Updated(ctx: Context, f: Family) {
    ctx.namespaces == WritePrefixes(map[], Entries(ctx.src, f, ctx.root, []))
    && ctx.parents == WriteParents(map[], Entries(ctx.src, f, ctx.root, []))
  }

  /** After `update` the parent lookup never raises: a recorded member
      gets its table entries, any other "" and the caller's parent. */
  lemma PlacementAfterUpdate(ctx: Context, f: Family, n: Node, parent: Option<Node>)
    requires Updated(ctx, f)
    ensures Placement(ctx, n, parent).Ok?
    ensures KeyOf(n) in ctx.namespaces ==>
      Placement(ctx, n, parent).value == (ctx.namespaces[KeyOf(n)], Some(ctx.parents[KeyOf(n)]))
    ensures KeyOf(n) !in ctx.namespaces ==> Placement(ctx, n, parent).value == ([], parent)
  {
    SameKeys(map[], map[], Entries(ctx.src, f, ctx.root, []));
  }
}
