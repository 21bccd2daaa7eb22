/** The JavaScript/TypeScript schema extractor: the signature walk and the
    default parameters, the docstrings, and the method and class records,
    built over the discovery tables of `JstsDiscovery`.
 */
module Jsts {
  import opened Wrappers
  import opened Text
  import opened Tree
  import opened Schema
  import opened CommentUtils
  import opened JstsDiscovery

  const FunctionBodyTypes: set<String> := {"statement_block", "binary_expression", "ternary_expression", "new_expression"}
  const NameTypes: set<String> := {"identifier", "property_identifier", "number", "string", "computed_property_name"}

  // ------------------------------------------------- the signature walk

  /** Every leaf of the subtree of `n`, left to right. */
  function LeavesOf(n: Node): seq<Node>
    decreases n, 1
  {
    if n.children == [] then [n] else LeavesBetween(n, 0, |n.children|)
  }

  /** The leaves of the children of `n` from position `i` up to `j`. */
  function LeavesBetween(n: Node, i: nat, j: nat): seq<Node>
    requires i <= j <= |n.children|
    decreases n, 0, j - i
  {
    if i == j then [] else LeavesOf(n.children[i]) + LeavesBetween(n, i + 1, j)
  }

  /** What `tree_recurse` returns, and the defaults dictionary it leaves. */
  datatype Walk = Walk(leaves: seq<Node>, endFound: bool, defaults: Dict)

  /** `tree_recurse(n, d)`: a childless node is its own leaf; otherwise the
      children are walked in order until the one that is the node's `body`
      field, or until a child's walk reports that it reached a body; each
      `required_parameter` child adds its default first. */
  function Recurse(src: String, n: Node, d: Dict): Walk
    decreases n, 1
  {
    if n.children == [] then Walk([n], false, d)
    else RecurseFrom(src, n, ChildByField(n, "body"), 0, [], d)
  }

  function RecurseFrom(src: String, n: Node, body: Option<Node>, i: nat, leaves: seq<Node>, d: Dict): Walk
    requires i <= |n.children|
    decreases n, 0, |n.children| - i
  {
    if i == |n.children| then Walk(leaves, false, d)
    else
      var child := n.children[i];
      if body == Some(child) then Walk(leaves, true, d)
      else
        var d' := if child.kind == "required_parameter" then ParamDefault(src, child, d) else d;
        var w := Recurse(src, child, d');
        if w.endFound then Walk(leaves + w.leaves, true, w.defaults)
        else RecurseFrom(src, n, body, i + 1, leaves + w.leaves, w.defaults)
  }

  /** The walk's leaves are the first leaves of the subtree, and all of them
      when it did not reach a body. */
  lemma {:induction false} RecursePrefix(src: String, n: Node, d: Dict)
    ensures Recurse(src, n, d).leaves <= LeavesOf(n)
    ensures !Recurse(src, n, d).endFound ==> Recurse(src, n, d).leaves == LeavesOf(n)
    decreases n, 1
  {
    if n.children != [] {
      RecurseFromPrefix(src, n, ChildByField(n, "body"), 0, [], d);
    }
  }

  lemma {:induction false} RecurseFromPrefix(src: String, n: Node, body: Option<Node>, i: nat, leaves: seq<Node>, d: Dict)
    requires i <= |n.children|
    ensures var w := RecurseFrom(src, n, body, i, leaves, d);
      leaves <= w.leaves <= leaves + LeavesBetween(n, i, |n.children|)
      && (!w.endFound ==> w.leaves == leaves + LeavesBetween(n, i, |n.children|))
    decreases n, 0, |n.children| - i
  {
    if i < |n.children| {
      var child := n.children[i];
      var rest := LeavesBetween(n, i + 1, |n.children|);
      assert leaves + LeavesBetween(n, i, |n.children|) == (leaves + LeavesOf(child)) + rest;
      if body != Some(child) {
        var d' := if child.kind == "required_parameter" then ParamDefault(src, child, d) else d;
        var w := Recurse(src, child, d');
        RecursePrefix(src, child, d');
        PrefixAppend(leaves, w.leaves, LeavesOf(child), rest);
        if !w.endFound {
          RecurseFromPrefix(src, n, body, i + 1, leaves + w.leaves, w.defaults);
        }
      }
    }
  }

  lemma PrefixAppend(a: seq<Node>, b: seq<Node>, c: seq<Node>, rest: seq<Node>)
    requires b <= c
    ensures a <= a + b <= (a + c) + rest
  {
    assert (a + c) + rest == (a + b) + (c[|b|..] + rest);
  }

  /** A subtree in which no node has a `body` child. */
  predicate BodyFree(n: Node)
    decreases n, 1
  {
    n.children == [] || (ChildByField(n, "body").None? && ChildrenBodyFree(n, 0))
  }

  predicate ChildrenBodyFree(n: Node, i: nat)
    requires i <= |n.children|
    decreases n, 0, |n.children| - i
  {
    i == |n.children| || (BodyFree(n.children[i]) && ChildrenBodyFree(n, i + 1))
  }

  /** The walk of a subtree without bodies never reports an end, so it
      gathers every leaf. */
  lemma {:induction false} BodyFreeWalk(src: String, n: Node, d: Dict)
    requires BodyFree(n)
    ensures !Recurse(src, n, d).endFound
    decreases n, 1
  {
    if n.children != [] {
      BodyFreeFrom(src, n, 0, [], d);
    }
  }

  lemma {:induction false} BodyFreeFrom(src: String, n: Node, i: nat, leaves: seq<Node>, d: Dict)
    requires i <= |n.children| && ChildrenBodyFree(n, i)
    ensures !RecurseFrom(src, n, None, i, leaves, d).endFound
    decreases n, 0, |n.children| - i
  {
    if i < |n.children| {
      var child := n.children[i];
      var d' := if child.kind == "required_parameter" then ParamDefault(src, child, d) else d;
      BodyFreeWalk(src, child, d');
      BodyFreeFrom(src, n, i + 1, leaves + Recurse(src, child, d').leaves, Recurse(src, child, d').defaults);
    }
  }

  /** When child `j` is the first held as the `body` field and the children
      before it hold no bodies, the walk stops there with exactly their
      leaves and reports the end. */
  lemma StopsAtBody(src: String, n: Node, j: nat, d: Dict)
    requires j < |n.children| && n.children[j].field == "body"
    requires forall k :: 0 <= k < j ==> n.children[k].field != "body" && BodyFree(n.children[k])
    ensures Recurse(src, n, d).leaves == LeavesBetween(n, 0, j)
    ensures Recurse(src, n, d).endFound
  {
    assert ChildByField(n, "body") == Some(n.children[j]) by {
      var found := FirstChildWhere(n.children, (c: Node) => c.field == "body");
      assert found == Some(j);
    }
    StopsFrom(src, n, j, 0, [], d);
  }

  lemma {:induction false} StopsFrom(src: String, n: Node, j: nat, i: nat, leaves: seq<Node>, d: Dict)
    requires i <= j < |n.children| && ChildByField(n, "body") == Some(n.children[j])
    requires forall k :: i <= k < j ==> n.children[k].field != "body" && BodyFree(n.children[k])
    ensures RecurseFrom(src, n, Some(n.children[j]), i, leaves, d) == Walk(leaves + LeavesBetween(n, i, j), true, RecurseFrom(src, n, Some(n.children[j]), i, leaves, d).defaults)
    decreases j - i
  {
    var body := ChildByField(n, "body");
    if i == j {
      assert leaves + LeavesBetween(n, i, j) == leaves;
    } else {
      var child := n.children[i];
      var d' := SkipBodyFree(src, n, body, i, leaves, d);
      StopsFrom(src, n, j, i + 1, leaves + LeavesOf(child), d');
      assert leaves + LeavesBetween(n, i, j) == (leaves + LeavesOf(child)) + LeavesBetween(n, i + 1, j);
    }
  }

  /** A child that is not the body and holds none is walked whole. */
  lemma SkipBodyFree(src: String, n: Node, body: Option<Node>, i: nat, leaves: seq<Node>, d: Dict) returns (d': Dict)
    requires i < |n.children| && body != Some(n.children[i]) && BodyFree(n.children[i])
    ensures RecurseFrom(src, n, body, i, leaves, d) == RecurseFrom(src, n, body, i + 1, leaves + LeavesOf(n.children[i]), d')
  {
    var child := n.children[i];
    var dc := if child.kind == "required_parameter" then ParamDefault(src, child, d) else d;
    BodyFreeWalk(src, child, dc);
    RecursePrefix(src, child, dc);
    d' := Recurse(src, child, dc).defaults;
  }

  /** `tree_recurse(n, d)`, walking the children with its own loop. */
  method TreeRecurse(src: String, n: Node, d: Dict) returns (leaves: seq<Node>, endFound: bool, defaults: Dict)
    ensures Walk(leaves, endFound, defaults) == Recurse(src, n, d)
    decreases n
  {
    if n.children == [] {
      return [n], false, d;
    }
    var body := ChildByField(n, "body");
    leaves, defaults := [], d;
    for i := 0 to |n.children|
      invariant RecurseFrom(src, n, body, 0, [], d) == RecurseFrom(src, n, body, i, leaves, defaults)
    {
      var child := n.children[i];
      if body == Some(child) {
        return leaves, true, defaults;
      }
      if child.kind == "required_parameter" {
        defaults := GetDefaultParams(src, child, defaults);
      }
      var newLeaves, end, d' := TreeRecurse(src, child, defaults);
      leaves, defaults := leaves + newLeaves, d';
      if end {
        return leaves, true, defaults;
      }
    }
    return leaves, false, defaults;
  }

  // ------------------------------------------------- default parameters

  /** The key, type and value `get_default_params` reads off a parameter's
      children: each `identifier` child overwrites the key, each
      `type_annotation` the type, every other child the value. */
  datatype ParamParts = ParamParts(key: String, typeKey: String, value: String)

  function ParamScan(src: String, cs: seq<Node>): ParamParts {
    if cs == [] then ParamParts([], [], [])
    else
      var p := ParamScan(src, cs[..|cs| - 1]);
      var c := cs[|cs| - 1];
      if c.kind == "identifier" then p.(key := Span(src, c))
      else if c.kind == "type_annotation" then p.(typeKey := Span(src, c))
      else p.(value := Span(src, c))
  }

  predicate IsOther(c: Node) {
    c.kind != "identifier" && c.kind != "type_annotation"
  }

  /** The index of the last node of `cs` passing `p`. */
  function LastWhere(cs: seq<Node>, p: Node -> bool): (r: Option<nat>)
    ensures r.Some? ==> r.value < |cs| && p(cs[r.value]) && forall q :: r.value < q < |cs| ==> !p(cs[q])
    ensures r.None? ==> forall j :: 0 <= j < |cs| ==> !p(cs[j])
  {
    if cs == [] then None
    else if p(cs[|cs| - 1]) then Some(|cs| - 1)
    else LastWhere(cs[..|cs| - 1], p)
  }

  /** The text of the last node passing `p`, "" for none. */
  function LastText(src: String, cs: seq<Node>, p: Node -> bool): String {
    match LastWhere(cs, p)
    case None => []
    case Some(j) => Span(src, cs[j])
  }

  /** The key is the last identifier, the type the last type annotation and
      the value the last other child, each "" when there is none. */
  lemma {:induction false} ParamScanMeaning(src: String, cs: seq<Node>)
    ensures ParamScan(src, cs).key == LastText(src, cs, (c: Node) => c.kind == "identifier")
    ensures ParamScan(src, cs).typeKey == LastText(src, cs, (c: Node) => c.kind == "type_annotation")
    ensures ParamScan(src, cs).value == LastText(src, cs, IsOther)
  {
    if cs != [] {
      ParamScanMeaning(src, cs[..|cs| - 1]);
    }
  }

  /** `get_default_params(p, d)`: `d[key + type] = value`. */
  function ParamDefault(src: String, p: Node, d: Dict): Dict {
    var parts := ParamScan(src, p.children);
    Assign(d, parts.key + parts.typeKey, parts.value)
  }

  /** After `get_default_params`, the parameter's key and type read its
      value, and every other entry is unchanged. */
  lemma ParamDefaultLookup(src: String, p: Node, d: Dict, k: String)
    ensures var parts := ParamScan(src, p.children);
      Lookup(ParamDefault(src, p, d), parts.key + parts.typeKey) == Some(parts.value)
      && (k != parts.key + parts.typeKey ==> Lookup(ParamDefault(src, p, d), k) == Lookup(d, k))
  {
    var parts := ParamScan(src, p.children);
    AssignLookup(d, parts.key + parts.typeKey, parts.value, k);
  }

  /** `get_default_params(p, d)`, with the loop over the children. */
  method GetDefaultParams(src: String, p: Node, d: Dict) returns (d': Dict)
    ensures d' == ParamDefault(src, p, d)
  {
    var typeKey, key, value := "", "", "";
    for i := 0 to |p.children|
      invariant ParamScan(src, p.children[..i]) == ParamParts(key, typeKey, value)
    {
      var child := p.children[i];
      assert p.children[..i + 1][..i] == p.children[..i];
      if child.kind == "identifier" {
        key := Span(src, child);
      } else if child.kind == "type_annotation" {
        typeKey := Span(src, child);
      } else {
        value := Span(src, child);
      }
    }
    assert p.children[..|p.children|] == p.children;
    d' := Assign(d, key + typeKey, value);
  }

  /** `get_signature_default_args(n)`: the walked leaves' text with every
      "=>" removed, stripped, and the defaults gathered on the way. */
  function SignatureOf(src: String, n: Node): (String, Dict) {
    var w := Recurse(src, n, []);
    (Strip(Replace(SpanSelect(src, w.leaves, false), "=>", "")), w.defaults)
  }

  method GetSignatureDefaultArgs(src: String, n: Node) returns (signature: String, defaults: Dict)
    ensures (signature, defaults) == SignatureOf(src, n)
  {
    var leaves, _, d := TreeRecurse(src, n, []);
    signature := Strip(Replace(SpanSelect(src, leaves, false), "=>", ""));
    defaults := d;
  }

  // ---------------------------------------------------------- docstrings

  /** `nodes_are_equal(a, b)`, taken to compare type and byte span. */
  predicate NodesAreEqual(a: Node, b: Node) {
    a.kind == b.kind && KeyOf(a) == KeyOf(b)
  }

  /** The node whose children `get_docstring` searches: the export
      statement holding `node` when that is its parent, else `parent`; a
      node without a parent raises `AttributeError`. */
  function DocParent(root: Node, parent: Node, node: Node): Result<Node> {
    match ParentIn(root, node)
    case None => Err(AttributeError)
    case Some(p) => Ok(if p.kind == ExportType then p else parent)
  }

  /** `get_docstring(parent, node)`: the comment just before `node` among
      the searched children, without its delimiters, unless it is the
      file's first child; `list.index` raises `ValueError` when `node` is
      not among them. */
  function GetDocstring(src: String, root: Node, parent: Node, node: Node): Result<String> {
    var q :- DocParent(root, parent, node);
    match ChildIndex(q, node)
    case None => Err(ValueError)
    case Some(loc) =>
      if loc > 0 && q.children[loc - 1].kind == "comment" then
        if root.children == [] then Err(IndexError)
        else if NodesAreEqual(q.children[loc - 1], root.children[0]) then Ok([])
        else Ok(StripCStyleDelimiters(Span(src, q.children[loc - 1])))
      else Ok([])
  }

  /** Once `node` is found, its docstring is its previous sibling's comment
      text when that sibling is a comment other than the file's first
      child, and "" otherwise. */
  lemma DocstringIsPreviousComment(src: String, root: Node, parent: Node, node: Node)
    requires DocParent(root, parent, node).Ok? && node in DocParent(root, parent, node).value.children
    ensures root.children != []
    ensures var prev := PreviousSibling(node, DocParent(root, parent, node).value);
      GetDocstring(src, root, parent, node)
      == if prev.Some? && prev.value.kind == "comment" && !NodesAreEqual(prev.value, root.children[0])
         then Ok(StripCStyleDelimiters(Span(src, prev.value))) else Ok([])
  {
    ParentHasChildren(root, node);
    var q := DocParent(root, parent, node).value;
    var loc := ChildIndex(q, node);
    assert loc.Some?;
    assert PreviousSibling(node, q) == if loc.value > 0 then Some(q.children[loc.value - 1]) else None;
  }

  lemma ParentHasChildren(root: Node, node: Node)
    ensures ParentIn(root, node).Some? ==> root.children != []
  {
    if root.children == [] {
      assert ParentInChildren(root, node, 0).None?;
    }
  }

  /** A node the tree does not hold under any parent has no docstring to
      look for, and a node missing from the searched children neither. */
  lemma DocstringErrors(src: String, root: Node, parent: Node, node: Node)
    ensures ParentIn(root, node).None? ==> GetDocstring(src, root, parent, node) == Err(AttributeError)
    ensures DocParent(root, parent, node).Ok? && node !in DocParent(root, parent, node).value.children
      ==> GetDocstring(src, root, parent, node) == Err(ValueError)
  {
  }

  /** The comments `file_docstring` gathers from child `i` on, after
      `prev`: each comment starting at most one row below the end of the
      last one gathered. */
  function DocRun(cs: seq<Node>, i: nat, prev: Node): seq<Node>
    requires i <= |cs|
    decreases |cs| - i
  {
    if i == |cs| then []
    else if cs[i].kind == "comment" && prev.kind == "comment"
         && cs[i].startPoint.row as int - prev.endPoint.row as int <= 1
    then [cs[i]] + DocRun(cs, i + 1, cs[i])
    else DocRun(cs, i + 1, prev)
  }

  /** `file_docstring`: "" for an empty file; a first comment opening with
      a block-comment star is the docstring on its own; otherwise the run
      of adjacent comments from the first child on, without delimiters.  A
      first comment shorter than two characters raises `IndexError`. */
  function FileDocstringOf(src: String, root: Node): Result<String> {
    var cs := root.children;
    if cs == [] then Ok([])
    else if cs[0].kind == "comment" && |Span(src, cs[0])| < 2 then Err(IndexError)
    else if cs[0].kind == "comment" && Span(src, cs[0])[1] == '*' then Ok(StripCStyleDelimiters(Span(src, cs[0])))
    else Ok(StripCStyleDelimiters(SpanSelect(src, DocRun(cs, 0, cs[0]), false)))
  }

  /** The gathered comments are comments of `cs` from `i` on, in order,
      each starting at most one row below the end of the one before. */
  lemma {:induction false} DocRunAdjacent(cs: seq<Node>, i: nat, prev: Node)
    requires i <= |cs|
    ensures var r := DocRun(cs, i, prev);
      (forall k :: 0 <= k < |r| ==> r[k].kind == "comment" && r[k] in cs[i..])
      && (r != [] ==> prev.kind == "comment" && r[0].startPoint.row <= prev.endPoint.row + 1)
      && (forall k :: 0 < k < |r| ==> r[k].startPoint.row <= r[k - 1].endPoint.row + 1)
    decreases |cs| - i
  {
    if i < |cs| {
      var next := if cs[i].kind == "comment" && prev.kind == "comment"
                     && cs[i].startPoint.row as int - prev.endPoint.row as int <= 1 then cs[i] else prev;
      DocRunAdjacent(cs, i + 1, next);
      assert cs[i + 1..] == cs[i..][1..];
    }
  }

  /** After a child that is not a comment nothing is gathered. */
  lemma {:induction false} DocRunAfterCode(cs: seq<Node>, i: nat, prev: Node)
    requires i <= |cs| && prev.kind != "comment"
    ensures DocRun(cs, i, prev) == []
    decreases |cs| - i
  {
    if i < |cs| {
      DocRunAfterCode(cs, i + 1, prev);
    }
  }

  /** A file whose first child is not a comment has no docstring. */
  lemma FileDocstringNeedsComment(src: String, root: Node)
    requires root.children == [] || root.children[0].kind != "comment"
    ensures FileDocstringOf(src, root) == Ok([])
  {
    if root.children != [] {
      DocRunAfterCode(root.children, 0, root.children[0]);
      assert SplitLines([]) == [];
    }
  }

  /** A first line comment that does not end above where it starts opens
      the run of gathered comments. */
  lemma LineCommentOpensRun(src: String, root: Node)
    requires root.children != [] && root.children[0].kind == "comment"
    requires root.children[0].startPoint.row <= root.children[0].endPoint.row + 1
    ensures var r := DocRun(root.children, 0, root.children[0]); r != [] && r[0] == root.children[0]
  {
  }

  /** `file_docstring`, with its loop over the root's
      children. */
  method FileDocstring(src: String, root: Node) returns (r: Result<String>)
    ensures r == FileDocstringOf(src, root)
  {
    var cs := root.children;
    if cs == [] {
      return Ok([]);
    }
    var previous := cs[0];
    var nodes: seq<Node> := [];
    if previous.kind == "comment" {
      var doc := Span(src, previous);
      if |doc| < 2 {
        return Err(IndexError);
      }
      if doc[1] == '*' {
        var text := StripCStyleCommentDelimiters(doc);
        return Ok(text);
      }
      for i := 0 to |cs|
        invariant DocRun(cs, 0, cs[0]) == nodes + DocRun(cs, i, previous)
      {
        var child := cs[i];
        if child.kind == "comment" && previous.kind == "comment"
           && child.startPoint.row as int - previous.endPoint.row as int <= 1 {
          nodes := nodes + [child];
          previous := child;
        }
      }
    } else {
      DocRunAfterCode(cs, 0, previous);
    }
    var text := StripCStyleCommentDelimiters(SpanSelect(src, nodes, false));
    return Ok(text);
  }

  /** The `import_types` of the JavaScript/TypeScript parser. */
  const ImportTypes: set<String> := {"import_statement"}

  /** `file_context`: each top-level import statement's text, not indented. */
  function FileContextOf(src: String, root: Node): seq<String> {
    Select(src, ChildrenOfType(root, ImportTypes), false)
  }

  /** Every entry is the text of a top-level import statement, and every
      top-level import statement has its entry. */
  lemma FileContextMeaning(src: String, root: Node)
    ensures var r := FileContextOf(src, root);
      && |r| <= |root.children|
      && (forall i :: 0 <= i < |r| ==>
            (exists j :: 0 <= j < |root.children| && root.children[j].kind == "import_statement"
                         && r[i] == Span(src, root.children[j])))
      && (forall j :: 0 <= j < |root.children| && root.children[j].kind == "import_statement" ==>
            Span(src, root.children[j]) in r)
  {
    var cs := ChildrenOfType(root, ImportTypes);
    var r := FileContextOf(src, root);
    forall i | 0 <= i < |r|
      ensures exists j :: 0 <= j < |root.children| && root.children[j].kind == "import_statement"
                          && r[i] == Span(src, root.children[j])
    {
      SelectAt(src, cs, false, i);
      var j :| 0 <= j < |root.children| && root.children[j] == cs[i];
    }
    forall j | 0 <= j < |root.children| && root.children[j].kind == "import_statement"
      ensures Span(src, root.children[j]) in r
    {
      SelectHas(src, cs, false, root.children[j]);
    }
  }

  /** `file_context`, with its loop over the root's children. */
  method FileContext(src: String, root: Node) returns (context: seq<String>)
    ensures context == FileContextOf(src, root)
  {
    var cs := root.children;
    context := [];
    for i := 0 to |cs|
      invariant context == Select(src, KeepKinds(cs[..i], ImportTypes), false)
    {
      assert cs[..i + 1][..i] == cs[..i];
      assert KeepKinds(cs[..i + 1], ImportTypes)
        == KeepKinds(cs[..i], ImportTypes) + (if cs[i].kind in ImportTypes then [cs[i]] else []);
      if cs[i].kind in ImportTypes {
        SelectSnoc(src, KeepKinds(cs[..i], ImportTypes), cs[i], false);
        context := context + [Span(src, cs[i])];
      } else {
        assert KeepKinds(cs[..i + 1], ImportTypes) == KeepKinds(cs[..i], ImportTypes);
      }
    }
    assert cs[..|cs|] == cs;
    KeepKindsIsFilter(cs, ImportTypes);
  }

  // ------------------------------------------------------------- records

  /** What the parser holds besides its tables: the source, the tree and
      the row offset added to every point. */
  datatype Context = Context(src: String, root: Node, startingPoint: nat)

  function Shift(ctx: Context, p: Point): Point {
    Point(ctx.startingPoint + p.row, p.col)
  }

  /** A method record: the nested methods are empty when `_parse_method_node`
      leaves the `methods` key out. */
  datatype MethodRecord = MethodRecord(
    originalString: String,
    byteSpan: Key,
    startPoint: Point,
    endPoint: Point,
    signature: String,
    defaultArguments: Dict,
    body: String,
    name: String,
    decorators: Option<seq<String>>,
    keywords: Option<String>,
    docstring: String,
    methods: seq<MethodRecord>,
    syntaxPass: bool)

  /** `get_first_child_of_type(n, kinds)`. */
  function FirstChildOfKinds(n: Node, kinds: set<String>): (r: Option<Node>)
    ensures r.Some? ==> r.value in n.children && r.value.kind in kinds
    ensures r.None? ==> forall i :: 0 <= i < |n.children| ==> n.children[i].kind !in kinds
  {
    match FirstChildWhere(n.children, (c: Node) => c.kind in kinds)
    case None => None
    case Some(i) => Some(n.children[i])
  }

  /** `children_types.count(kind)`. */
  function CountKind(cs: seq<Node>, kind: String): (r: nat)
    ensures r <= |cs|
  {
    if cs == [] then 0 else (if cs[0].kind == kind then 1 else 0) + CountKind(cs[1..], kind)
  }

  /** The loop finding `name_idx`, the first child of a name type. */
  function NameIndex(cs: seq<Node>): Option<nat> {
    FirstChildWhere(cs, (c: Node) => c.kind in NameTypes)
  }

  /** The method's name: the declarator's name recorded for it, else its
      `name` field, else the first child of a name type when that is not
      the first child. */
  function MethodName(src: String, t: Tables, m: Node): String {
    var name := if KeyOf(m) in t.names then t.names[KeyOf(m)] else OptSpan(src, ChildByField(m, "name"));
    match NameIndex(m.children)
    case Some(j) => if name == [] && j > 0 then Span(src, m.children[j]) else name
    case None => name
  }

  /** The text of each of the first `count('decorator')` children, when
      there are any. */
  function Decorators(src: String, m: Node): Option<seq<String>> {
    var k := CountKind(m.children, "decorator");
    if k > 0 then Some(Select(src, m.children[..k], false)) else None
  }

  /** The text between the decorators and the name child, when the name
      child comes after them. */
  function Keywords(src: String, m: Node): Option<String> {
    var k := CountKind(m.children, "decorator");
    match NameIndex(m.children)
    case Some(j) => if j > k then Some(SpanSelect(src, m.children[k..j], false)) else None
    case None => None
  }

  /** The name comes from the tables first, then from the `name` field, then
      from the first name-typed child; it is "" only when none of them has
      text. */
  lemma MethodNamePrecedence(src: String, t: Tables, m: Node)
    ensures KeyOf(m) in t.names && t.names[KeyOf(m)] != [] ==> MethodName(src, t, m) == t.names[KeyOf(m)]
    ensures KeyOf(m) !in t.names && ChildByField(m, "name").Some? && Span(src, ChildByField(m, "name").value) != []
      ==> MethodName(src, t, m) == Span(src, ChildByField(m, "name").value)
    ensures MethodName(src, t, m) == [] ==>
      (KeyOf(m) in t.names ==> t.names[KeyOf(m)] == [])
      && (KeyOf(m) !in t.names ==> OptSpan(src, ChildByField(m, "name")) == [])
      && (NameIndex(m.children).Some? && NameIndex(m.children).value > 0 ==> Span(src, m.children[NameIndex(m.children).value]) == [])
  {
  }

  /** Keywords are recorded exactly when a name-typed child comes after all
      the decorators are counted, and then they span the children between. */
  lemma KeywordsBetween(src: String, m: Node)
    ensures Keywords(src, m).Some? <==>
      exists j :: 0 <= j < |m.children| && m.children[j].kind in NameTypes
        && (forall q :: 0 <= q < j ==> m.children[q].kind !in NameTypes)
        && j > CountKind(m.children, "decorator")
  {
    var idx := NameIndex(m.children);
    if idx.Some? {
      var j := idx.value;
      assert m.children[j].kind in NameTypes;
      forall j' | 0 <= j' < |m.children| && m.children[j'].kind in NameTypes
        && (forall q :: 0 <= q < j' ==> m.children[q].kind !in NameTypes)
        ensures j' == j
      {
      }
    }
  }

  /** When the decorators come first, as the grammar places them, the
      recorded decorators are the text of every decorator child. */
  lemma DecoratorsFirst(src: String, m: Node, k: nat)
    requires 0 < k <= |m.children|
    requires forall i :: 0 <= i < k ==> m.children[i].kind == "decorator"
    requires forall i :: k <= i < |m.children| ==> m.children[i].kind != "decorator"
    ensures Decorators(src, m) == Some(Select(src, ChildrenOfType(m, {"decorator"}), false))
  {
    CountPrefix(m.children, k);
    FilterPrefix(m.children, k);
  }

  lemma {:induction false} CountPrefix(cs: seq<Node>, k: nat)
    requires k <= |cs|
    requires forall i :: 0 <= i < k ==> cs[i].kind == "decorator"
    requires forall i :: k <= i < |cs| ==> cs[i].kind != "decorator"
    ensures CountKind(cs, "decorator") == k
  {
    if cs != [] {
      CountPrefix(cs[1..], if k > 0 then k - 1 else 0);
    }
  }

  lemma {:induction false} FilterPrefix(cs: seq<Node>, k: nat)
    requires k <= |cs|
    requires forall i :: 0 <= i < k ==> cs[i].kind == "decorator"
    requires forall i :: k <= i < |cs| ==> cs[i].kind != "decorator"
    ensures FilterKinds(cs, {"decorator"}) == cs[..k]
  {
    if cs != [] {
      FilterPrefix(cs[1..], if k > 0 then k - 1 else 0);
      if k > 0 {
        assert cs[..k] == [cs[0]] + cs[1..][..k - 1];
      }
    }
  }

  /** `_parse_method_node(m, parent)` up to the nested methods: the root
      recorded for `m` gives the signature, the original text and the
      docstring's anchor. */
  function MethodHead(ctx: Context, t: Tables, m: Node, parent: Option<Node>): Result<MethodRecord> {
    var root := RootOf(t, m);
    var target := if root.Some? then root.value else m;
    var doc :- GetDocstring(ctx.src, ctx.root, if parent.Some? then parent.value else ctx.root, target);
    var sig := SignatureOf(ctx.src, target);
    Ok(MethodRecord(
      if root.Some? then NodeText(ctx.src, root.value) else Span(ctx.src, m),
      KeyOf(m), Shift(ctx, m.startPoint), Shift(ctx, m.endPoint), sig.0, sig.1,
      OptSpan(ctx.src, FirstChildOfKinds(m, FunctionBodyTypes)),
      MethodName(ctx.src, t, m), Decorators(ctx.src, m), Keywords(ctx.src, m), doc, [], SyntaxPass(m)))
  }

  /** The functions a method's body holds, sorted by start byte: its direct
      function children and those `get_inside_method` finds in it. */
  function BodyMethods(src: String, body: Node, inside: Found): seq<Node> {
    SortByStart(ChildrenOfType(body, MethodTypes) + inside.nodes)
  }

  /** `_parse_method_node(m, parent)`: the record and the tables after the
      discovery calls made for the nested methods. */
  function ParseMethod(ctx: Context, t: Tables, m: Node, parent: Option<Node>): (r: Result<(MethodRecord, Tables)>)
    ensures r.Ok? ==> r.value.0.byteSpan == KeyOf(m)
    decreases Depth(m), 3
  {
    var head :- MethodHead(ctx, t, m, parent);
    WithBodyMethods(ctx, t, m, head)
  }

  /** `head` with the records of the methods nested in `m`'s body, when it
      has one. */
  function WithBodyMethods(ctx: Context, t: Tables, m: Node, head: MethodRecord): (r: Result<(MethodRecord, Tables)>)
    ensures r.Ok? ==> r.value.0.byteSpan == head.byteSpan
    decreases Depth(m), 2
  {
    match ChildByField(m, "body")
    case None => Ok((head, t))
    case Some(body) =>
      var inside :- InsideMethod(ctx.src, body);
      var ns := BodyMethods(ctx.src, body, inside);
      BodyMethodsBelow(ctx.src, m, body, inside);
      var nested :- NestedMethods(ctx, Apply(t, inside.notes), ns, 0, Some(body), Depth(m));
      Ok((head.(methods := nested.0), nested.1))
  }

  /** The records of `ns` from position `i` on, each parsed with the tables
      the one before left, under `parent`. */
  function NestedMethods(ctx: Context, t: Tables, ns: seq<Node>, i: nat, parent: Option<Node>, bound: nat)
    : (r: Result<(seq<MethodRecord>, Tables)>)
    requires i <= |ns| && forall x :: x in ns ==> Depth(x) < bound
    decreases bound, 1, |ns| - i
  {
    if i == |ns| then Ok(([], t))
    else
      var first :- ParseMethod(ctx, t, ns[i], parent);
      var rest :- NestedMethods(ctx, first.1, ns, i + 1, parent, bound);
      Ok(([first.0] + rest.0, rest.1))
  }

  /** One record per candidate, in the candidates' order. */
  lemma {:induction false} NestedSpans(ctx: Context, t: Tables, ns: seq<Node>, i: nat, parent: Option<Node>, bound: nat)
    requires i <= |ns| && forall x :: x in ns ==> Depth(x) < bound
    requires NestedMethods(ctx, t, ns, i, parent, bound).Ok?
    ensures |NestedMethods(ctx, t, ns, i, parent, bound).value.0| == |ns| - i
    ensures forall k :: i <= k < |ns| ==> NestedMethods(ctx, t, ns, i, parent, bound).value.0[k - i].byteSpan == KeyOf(ns[k])
    decreases |ns| - i
  {
    if i < |ns| {
      var first := ParseMethod(ctx, t, ns[i], parent).value;
      var rest := NestedMethods(ctx, first.1, ns, i + 1, parent, bound).value;
      NestedSpans(ctx, first.1, ns, i + 1, parent, bound);
      var ms := [first.0] + rest.0;
      assert NestedMethods(ctx, t, ns, i, parent, bound).value.0 == ms;
      forall k | i <= k < |ns| ensures ms[k - i].byteSpan == KeyOf(ns[k]) {
        if k == i {
          assert ms[k - i] == first.0;
        } else {
          ConsAt(first.0, rest.0, k - i);
        }
      }
    }
  }

  lemma ConsAt<T>(x: T, xs: seq<T>, k: nat)
    requires 0 < k <= |xs|
    ensures ([x] + xs)[k] == xs[k - 1]
  {
  }

  /** The nested candidates of a method lie below it. */
  lemma BodyMethodsBelow(src: String, m: Node, body: Node, inside: Found)
    requires ChildByField(m, "body") == Some(body) && InsideMethod(src, body) == Ok(inside)
    ensures forall x :: x in BodyMethods(src, body, inside) ==> Depth(x) < Depth(m)
  {
    ChildDepth(m, body);
    forall x | x in BodyMethods(src, body, inside) ensures Depth(x) < Depth(m) {
      assert x in multiset(ChildrenOfType(body, MethodTypes) + inside.nodes);
      if x in ChildrenOfType(body, MethodTypes) {
        ChildDepth(body, x);
      } else {
        InsideMethodBelow(src, body, x);
      }
    }
  }

  /** A class record. */
  datatype ClassRecord = ClassRecord(
    originalString: String,
    definition: String,
    byteSpan: Key,
    startPoint: Point,
    endPoint: Point,
    classDocstring: String,
    name: String,
    decorators: seq<String>,
    heritage: seq<String>,
    expression: seq<String>,
    syntaxPass: bool,
    methods: seq<MethodRecord>)

  /** `_extract_class_definition(c)`: the children up to the first
      `class_heritage`, or the first two when there is none, indented. */
  function ClassDefinition(src: String, c: Node): String {
    var p := match FirstOfKind(c.children, "class_heritage") case None => 1 case Some(i) => i;
    SpanSelect(src, c.children[..if p + 1 <= |c.children| then p + 1 else |c.children|], true)
  }

  /** The class's name: its `name` field, else, for a class found in a
      declaration or an export, the name of the root's first declarator;
      a root without a declarator raises `IndexError`. */
  function ClassName(src: String, root: Option<Node>, c: Node): Result<String> {
    var name := OptSpan(src, ChildByField(c, "name"));
    if root.Some? && name == [] then
      var ds := ChildrenOfType(root.value, {"variable_declarator"});
      if ds == [] then Err(IndexError) else Ok(OptSpan(src, ChildByField(ds[0], "name")))
    else Ok(name)
  }

  /** `_parse_class_node(c)` up to its methods; a childless class raises
      `IndexError` at its last child. */
  function ClassHead(ctx: Context, t: Tables, c: Node): Result<ClassRecord> {
    var root := RootOf(t, c);
    var doc :- GetDocstring(ctx.src, ctx.root, ctx.root, if root.Some? then root.value else c);
    var name :- ClassName(ctx.src, root, c);
    if c.children == [] then Err(IndexError)
    else
      Ok(ClassRecord(
        if KeyOf(c) in t.exports then Span(ctx.src, t.exports[KeyOf(c)]) else Span(ctx.src, c),
        ClassDefinition(ctx.src, c), KeyOf(c), Shift(ctx, c.startPoint), Shift(ctx, c.endPoint), doc, name,
        Select(ctx.src, ChildrenOfType(c, {"decorator"}), false),
        Select(ctx.src, ChildrenOfType(c, {"class_heritage"}), false),
        Select(ctx.src, ChildrenOfType(c.children[|c.children| - 1], {"public_field_definition"}), false),
        SyntaxPass(c), []))
  }

  /** The `method_definition` children of every `class_body` among `cs`. */
  function ClassBodyMethods(cs: seq<Node>): seq<Node> {
    if cs == [] then []
    else
      var last := cs[|cs| - 1];
      ClassBodyMethods(cs[..|cs| - 1]) + (if last.kind == "class_body" then FilterKinds(last.children, {"method_definition"}) else [])
  }

  /** The class methods lie below the class. */
  lemma {:induction false} ClassBodyMethodsBelow(c: Node, k: nat, x: Node)
    requires k <= |c.children| && x in ClassBodyMethods(c.children[..k])
    ensures Depth(x) < Depth(c)
  {
    var cs := c.children[..k];
    var last := cs[|cs| - 1];
    assert cs[..|cs| - 1] == c.children[..k - 1];
    if x in ClassBodyMethods(cs[..|cs| - 1]) {
      ClassBodyMethodsBelow(c, k - 1, x);
    } else {
      ChildDepth(c, last);
      ChildDepth(last, x);
    }
  }

  /** `_parse_class_node(c)`: the record, with the methods of its class
      bodies parsed under its first class body. */
  function ParseClass(ctx: Context, t: Tables, c: Node): (r: Result<(ClassRecord, Tables)>)
    ensures r.Ok? ==> r.value.0.byteSpan == KeyOf(c)
  {
    var head :- ClassHead(ctx, t, c);
    var ns := ClassBodyMethods(c.children);
    ClassMethodsBelow(c);
    var methods :- NestedMethods(ctx, t, ns, 0, FirstChildOfKinds(c, {"class_body"}), Depth(c));
    Ok((head.(methods := methods.0), methods.1))
  }

  // ------------------------------------------------------ spec plumbing

  /** The nodes of a discovery outcome. */
  function NodesOf(r: Result<Found>): Result<seq<Node>> {
    match r
    case Err(e) => Err(e)
    case Ok(f) => Ok(f.nodes)
  }

  /** `f` followed by the outcome `r`. */
  function Glue(f: Found, r: Result<Found>): Result<Found> {
    match r
    case Err(e) => Err(e)
    case Ok(g) => Ok(Then(f, g))
  }

  lemma GlueStep(f: Found, a: Found, rest: Result<Found>)
    ensures Glue(f, Glue(a, rest)) == Glue(Then(f, a), rest)
  {
    if rest.Ok? {
      assert (f.nodes + a.nodes) + rest.value.nodes == f.nodes + (a.nodes + rest.value.nodes);
      assert (f.notes + a.notes) + rest.value.notes == f.notes + (a.notes + rest.value.notes);
    }
  }

  lemma GlueNothing(r: Result<Found>)
    ensures Glue(Nothing, r) == r
  {
    if r.Ok? {
      assert [] + r.value.nodes == r.value.nodes && [] + r.value.notes == r.value.notes;
    }
  }

  lemma ThenNothing(r: Found)
    ensures Then(Nothing, r) == r && Then(r, Nothing) == r
  {
    assert [] + r.nodes == r.nodes && [] + r.notes == r.notes;
    assert r.nodes + [] == r.nodes && r.notes + [] == r.notes;
  }

  lemma ThenAssoc(f: Found, a: Found, b: Found)
    ensures Then(f, Then(a, b)) == Then(Then(f, a), b)
  {
    assert (f.nodes + a.nodes) + b.nodes == f.nodes + (a.nodes + b.nodes);
    assert (f.notes + a.notes) + b.notes == f.notes + (a.notes + b.notes);
  }

  /** One declaration further into `get_fn_in_declarations`. */
  lemma DeclarationsStep(src: String, ds: seq<Node>, i: nat, f: Found)
    requires i < |ds|
    ensures DeclarationFns(src, ds[i]).Err? ==> Glue(f, DeclarationsFnsFrom(src, ds, i)) == Err(DeclarationFns(src, ds[i]).error)
    ensures DeclarationFns(src, ds[i]).Ok? ==>
      Glue(f, DeclarationsFnsFrom(src, ds, i)) == Glue(Then(f, DeclarationFns(src, ds[i]).value), DeclarationsFnsFrom(src, ds, i + 1))
  {
    if DeclarationFns(src, ds[i]).Ok? {
      GlueStep(f, DeclarationFns(src, ds[i]).value, DeclarationsFnsFrom(src, ds, i + 1));
    }
  }

  /** One export statement further into `get_fn_in_exports`. */
  lemma ExportsStep(src: String, es: seq<Node>, i: nat, f: Found)
    requires i < |es|
    ensures ExportFns(src, es[i]).Err? ==> Glue(f, ExportsFnsFrom(src, es, i)) == Err(ExportFns(src, es[i]).error)
    ensures ExportFns(src, es[i]).Ok? ==>
      Glue(f, ExportsFnsFrom(src, es, i)) == Glue(Then(f, ExportFns(src, es[i]).value), ExportsFnsFrom(src, es, i + 1))
  {
    if ExportFns(src, es[i]).Ok? {
      GlueStep(f, ExportFns(src, es[i]).value, ExportsFnsFrom(src, es, i + 1));
    }
  }

  lemma NotesAppend(a: seq<Node>, b: seq<Node>, root: Node, exported: bool)
    ensures Notes(a + b, root, exported) == Notes(a, root, exported) + Notes(b, root, exported)
  {
    if a != [] {
      assert (a + b)[1..] == a[1..] + b;
      NotesAppend(a[1..], b, root, exported);
    } else {
      assert a + b == b;
    }
  }

  /** The records of an outcome of `_parse_method_node`. */
  function RecordOf(r: Result<(MethodRecord, Tables)>): Result<MethodRecord> {
    match r
    case Err(e) => Err(e)
    case Ok(p) => Ok(p.0)
  }

  function RecordsOf(r: Result<(seq<MethodRecord>, Tables)>): Result<seq<MethodRecord>> {
    match r
    case Err(e) => Err(e)
    case Ok(p) => Ok(p.0)
  }

  /** The records `out` followed by the outcome `r`. */
  function GlueRecords(out: seq<MethodRecord>, r: Result<(seq<MethodRecord>, Tables)>): Result<(seq<MethodRecord>, Tables)> {
    match r
    case Err(e) => Err(e)
    case Ok(p) => Ok((out + p.0, p.1))
  }

  function RecordOfClass(r: Result<(ClassRecord, Tables)>): Result<ClassRecord> {
    match r
    case Err(e) => Err(e)
    case Ok(p) => Ok(p.0)
  }

  lemma GlueRecordsNothing(r: Result<(seq<MethodRecord>, Tables)>)
    ensures GlueRecords([], r) == r
  {
    if r.Ok? {
      assert [] + r.value.0 == r.value.0;
    }
  }

  /** One candidate further into the nested records. */
  lemma NestedStep(ctx: Context, t: Tables, ns: seq<Node>, i: nat, parent: Option<Node>, bound: nat, out: seq<MethodRecord>)
    requires i < |ns| && forall x :: x in ns ==> Depth(x) < bound
    ensures ParseMethod(ctx, t, ns[i], parent).Err? ==>
      GlueRecords(out, NestedMethods(ctx, t, ns, i, parent, bound)) == Err(ParseMethod(ctx, t, ns[i], parent).error)
    ensures ParseMethod(ctx, t, ns[i], parent).Ok? ==>
      var first := ParseMethod(ctx, t, ns[i], parent).value;
      GlueRecords(out, NestedMethods(ctx, t, ns, i, parent, bound))
      == GlueRecords(out + [first.0], NestedMethods(ctx, first.1, ns, i + 1, parent, bound))
  {
    if ParseMethod(ctx, t, ns[i], parent).Ok? {
      var first := ParseMethod(ctx, t, ns[i], parent).value;
      var rest := NestedMethods(ctx, first.1, ns, i + 1, parent, bound);
      if rest.Ok? {
        assert (out + [first.0]) + rest.value.0 == out + ([first.0] + rest.value.0);
      }
    }
  }

  /** The class methods lie below the class. */
  lemma ClassMethodsBelow(c: Node)
    ensures forall x :: x in ClassBodyMethods(c.children) ==> Depth(x) < Depth(c)
  {
    assert c.children[..|c.children|] == c.children;
    forall x | x in ClassBodyMethods(c.children) ensures Depth(x) < Depth(c) {
      ClassBodyMethodsBelow(c, |c.children|, x);
    }
  }

  // ---------------------------------------------------------- the loops

  /** `get_first_child_of_type(n, kinds)`. */
  method GetFirstChildOfType(n: Node, kinds: set<String>) returns (r: Option<Node>)
    ensures r == FirstChildOfKinds(n, kinds)
  {
    for i := 0 to |n.children|
      invariant forall j :: 0 <= j < i ==> n.children[j].kind !in kinds
    {
      if n.children[i].kind in kinds {
        return Some(n.children[i]);
      }
    }
    return None;
  }

  /** The loop of `_parse_method_node` finding `name_idx`. */
  method FindNameIndex(cs: seq<Node>) returns (r: Option<nat>)
    ensures r == NameIndex(cs)
  {
    for i := 0 to |cs|
      invariant forall j :: 0 <= j < i ==> cs[j].kind !in NameTypes
    {
      if cs[i].kind in NameTypes {
        return Some(i);
      }
    }
    return None;
  }

  /** The loop of `_extract_class_definition` finding the first heritage. */
  method ExtractClassDefinition(src: String, c: Node) returns (definition: String)
    ensures definition == ClassDefinition(src, c)
  {
    var i := 0;
    while i < |c.children| && c.children[i].kind != "class_heritage"
      invariant i <= |c.children|
      invariant forall j :: 0 <= j < i ==> c.children[j].kind != "class_heritage"
    {
      i := i + 1;
    }
    FirstOfKindAt(c.children, "class_heritage", i);
    var paramIndex := if i < |c.children| then i else 1;
    var end := if paramIndex + 1 <= |c.children| then paramIndex + 1 else |c.children|;
    definition := SpanSelect(src, c.children[..end], true);
  }

  /** The nested loops of `_parse_class_node` over the class bodies. */
  method ClassBodyMethodList(c: Node) returns (nodes: seq<Node>)
    ensures nodes == ClassBodyMethods(c.children)
  {
    nodes := [];
    for i := 0 to |c.children|
      invariant nodes == ClassBodyMethods(c.children[..i])
    {
      var child := c.children[i];
      assert c.children[..i + 1][..i] == c.children[..i];
      if child.kind == "class_body" {
        var found := MethodDefinitions(child);
        nodes := nodes + found;
      }
    }
    assert c.children[..|c.children|] == c.children;
  }

  /** The inner loop: the `method_definition` children of one class body. */
  method MethodDefinitions(body: Node) returns (found: seq<Node>)
    ensures found == FilterKinds(body.children, {"method_definition"})
  {
    found := [];
    for j := 0 to |body.children|
      invariant found == FilterKinds(body.children[..j], {"method_definition"})
    {
      FilterKindsSnoc(body.children[..j], body.children[j], {"method_definition"});
      assert body.children[..j + 1] == body.children[..j] + [body.children[j]];
      if body.children[j].kind == "method_definition" {
        found := found + [body.children[j]];
      }
    }
    assert body.children[..|body.children|] == body.children;
  }

  // ---------------------------------------------------------- the parser

  /** `JSTSParser` after `update`: the file, its tree, the row offset, and
      the three discovery tables. */
  class JstsParser {
    var src: String
    var root: Node
    var startingPoint: nat
    var node2declaration: map<Key, Node>
    var node2name: map<Key, String>
    var node2export: map<Key, Node>

    function Ctx(): Context
      reads this`src, this`root, this`startingPoint
    {
      Context(src, root, startingPoint)
    }

    function T(): Tables
      reads this`node2declaration, this`node2name, this`node2export
    {
      Tables(node2declaration, node2name, node2export)
    }

    constructor (src: String, root: Node, startingPoint: nat)
      ensures Ctx() == Context(src, root, startingPoint) && T() == NoTables
    {
      this.src := src;
      this.root := root;
      this.startingPoint := startingPoint;
      node2declaration, node2name, node2export := map[], map[], map[];
    }

    /** `update(file_contents)`: a new file and its tree, and empty tables. */
    method Update(src: String, root: Node)
      modifies this
      ensures Ctx() == Context(src, root, old(startingPoint)) && T() == NoTables
    {
      this.src := src;
      this.root := root;
      node2declaration, node2name, node2export := map[], map[], map[];
    }

    /** Each node of `ns` recorded as found in the declaration `at`. */
    method RecordDeclared(ns: seq<Node>, at: Node)
      modifies this`node2declaration
      ensures T() == Apply(old(T()), Notes(ns, at, false))
    {
      assert ns[0..] == ns;
      for i := 0 to |ns|
        invariant Apply(old(T()), Notes(ns, at, false)) == Apply(T(), Notes(ns[i..], at, false))
      {
        assert ns[i..][1..] == ns[i + 1..];
        node2declaration := node2declaration[KeyOf(ns[i]) := at];
      }
    }

    /** Each node of `ns` recorded as exported by `at`. */
    method RecordExported(ns: seq<Node>, at: Node)
      modifies this`node2export
      ensures T() == Apply(old(T()), Notes(ns, at, true))
    {
      assert ns[0..] == ns;
      for i := 0 to |ns|
        invariant Apply(old(T()), Notes(ns, at, true)) == Apply(T(), Notes(ns[i..], at, true))
      {
        assert ns[i..][1..] == ns[i + 1..];
        node2export := node2export[KeyOf(ns[i]) := at];
      }
    }

    /** The functions of an object or parenthesised value, each recorded
        with its declaration `d`; a value with one child has no second one to
        look at. */
    method RecordValueFns(v: Node, d: Node) returns (r: Result<seq<Node>>)
      requires |v.children| > 0
      modifies this`node2declaration
      ensures |v.children| < 2 ==> r == Err(IndexError)
      ensures |v.children| >= 2 ==> r == Ok(ValueFns(v)) && T() == Apply(old(T()), Notes(ValueFns(v), d, false))
    {
      var inner := ChildrenOfType(v, InsideMethodTypes);
      RecordDeclared(inner, d);
      if |v.children| < 2 {
        return Err(IndexError);
      }
      var call := v.children[1];
      var extra := [];
      if call.kind == "call_expression" && |call.children| > 0 && call.children[0].kind in InsideMethodTypes {
        node2declaration := node2declaration[KeyOf(call.children[0]) := d];
        extra := [call.children[0]];
      }
      NotesAppend(inner, extra, d, false);
      ApplyAppend(old(T()), Notes(inner, d, false), Notes(extra, d, false));
      return Ok(inner + extra);
    }

    /** One declaration of `get_fn_in_declarations`. */
    method DeclarationStep(d: Node) returns (r: Result<seq<Node>>)
      modifies this`node2declaration, this`node2name
      ensures r == NodesOf(DeclarationFns(src, d))
      ensures r.Ok? ==> T() == Apply(old(T()), DeclarationFns(src, d).value.notes)
    {
      var declarators := ChildrenOfType(d, {"variable_declarator"});
      if declarators == [] {
        return Ok([]);
      }
      var value := ChildByField(declarators[0], "value");
      var name := ChildByField(declarators[0], "name");
      if value.None? {
        return Ok([]);
      }
      if name.None? {
        return Err(AttributeError);
      }
      var v := value.value;
      node2name := node2name[KeyOf(v) := NodeText(src, name.value)];
      ghost var named := [NameNote(KeyOf(v), NodeText(src, name.value))];
      assert T() == Apply(old(T()), named);
      if v.kind in InsideMethodTypes {
        node2declaration := node2declaration[KeyOf(v) := d];
        ApplyAppend(old(T()), named, [DeclNote(KeyOf(v), d)]);
        return Ok([v]);
      }
      if v.kind in {"object", "parenthesized_expression"} && |v.children| > 0 {
        r := RecordValueFns(v, d);
        if r.Ok? {
          ApplyAppend(old(T()), named, Notes(ValueFns(v), d, false));
        }
        return;
      }
      return Ok([]);
    }

    /** `get_fn_in_declarations(node)`. */
    method GetFnInDeclarations(node: Node) returns (r: Result<seq<Node>>)
      modifies this`node2declaration, this`node2name
      ensures r == NodesOf(FnInDeclarations(src, node))
      ensures r.Ok? ==> T() == Apply(old(T()), FnInDeclarations(src, node).value.notes)
    {
      var ds := ChildrenOfType(node, DeclarationTypes);
      var methods: seq<Node> := [];
      ghost var notes: seq<Note> := [];
      GlueNothing(DeclarationsFnsFrom(src, ds, 0));
      for i := 0 to |ds|
        invariant DeclarationsFnsFrom(src, ds, 0) == Glue(Found(methods, notes), DeclarationsFnsFrom(src, ds, i))
        invariant T() == Apply(old(T()), notes)
      {
        DeclarationsStep(src, ds, i, Found(methods, notes));
        var found := DeclarationStep(ds[i]);
        if found.Err? {
          return Err(found.error);
        }
        ghost var a := DeclarationFns(src, ds[i]).value;
        ApplyAppend(old(T()), notes, a.notes);
        methods, notes := methods + found.value, notes + a.notes;
      }
      ThenNothing(Found(methods, notes));
      return Ok(methods);
    }

    /** One statement of `get_fn_in_expressions`. */
    method ExpressionStep(e: Node) returns (r: seq<Node>)
      modifies this`node2declaration
      ensures r == ExpressionFns(e).nodes
      ensures T() == Apply(old(T()), ExpressionFns(e).notes)
    {
      var assignments := ChildrenOfType(e, {"assignment_expression"});
      if assignments == [] {
        return [];
      }
      var right := ChildByField(assignments[0], "right");
      if right.None? {
        return [];
      }
      if right.value.kind in InsideMethodTypes {
        node2declaration := node2declaration[KeyOf(right.value) := e];
        return [right.value];
      }
      return [];
    }

    /** `get_fn_in_expressions(node)`. */
    method GetFnInExpressions(node: Node) returns (r: seq<Node>)
      modifies this`node2declaration
      ensures r == FnInExpressions(node).nodes
      ensures T() == Apply(old(T()), FnInExpressions(node).notes)
    {
      var es := ChildrenOfType(node, ExpressionTypes);
      var methods: seq<Node> := [];
      ghost var notes: seq<Note> := [];
      ThenNothing(ExpressionsFnsFrom(es, 0));
      for i := 0 to |es|
        invariant ExpressionsFnsFrom(es, 0) == Then(Found(methods, notes), ExpressionsFnsFrom(es, i))
        invariant T() == Apply(old(T()), notes)
      {
        var found := ExpressionStep(es[i]);
        ghost var a := ExpressionFns(es[i]);
        ThenAssoc(Found(methods, notes), a, ExpressionsFnsFrom(es, i + 1));
        ApplyAppend(old(T()), notes, a.notes);
        methods, notes := methods + found, notes + a.notes;
      }
      ThenNothing(Found(methods, notes));
      return methods;
    }

    /** One export statement of `get_fn_in_exports`. */
    method ExportStep(e: Node) returns (r: Result<seq<Node>>)
      modifies this`node2declaration, this`node2name, this`node2export
      ensures r == NodesOf(ExportFns(src, e))
      ensures r.Ok? ==> T() == Apply(old(T()), ExportFns(src, e).value.notes)
    {
      var decls := GetFnInDeclarations(e);
      if decls.Err? {
        return Err(decls.error);
      }
      ghost var t1 := T();
      var exprs := GetFnInExpressions(e);
      ghost var t2 := T();
      var current := decls.value + exprs + ChildrenOfType(e, MethodTypes);
      RecordExported(current, e);
      ghost var dn := FnInDeclarations(src, e).value.notes;
      ghost var en := FnInExpressions(e).notes;
      ApplyAppend(old(T()), dn, en);
      ApplyAppend(old(T()), dn + en, Notes(current, e, true));
      assert dn + en + [] == dn + en;
      return Ok(current);
    }

    /** `get_fn_in_exports(node)`. */
    method GetFnInExports(node: Node) returns (r: Result<seq<Node>>)
      modifies this`node2declaration, this`node2name, this`node2export
      ensures r == NodesOf(FnInExports(src, node))
      ensures r.Ok? ==> T() == Apply(old(T()), FnInExports(src, node).value.notes)
    {
      var es := ChildrenOfType(node, {ExportType});
      var methods: seq<Node> := [];
      ghost var notes: seq<Note> := [];
      GlueNothing(ExportsFnsFrom(src, es, 0));
      for i := 0 to |es|
        invariant ExportsFnsFrom(src, es, 0) == Glue(Found(methods, notes), ExportsFnsFrom(src, es, i))
        invariant T() == Apply(old(T()), notes)
      {
        ExportsStep(src, es, i, Found(methods, notes));
        var found := ExportStep(es[i]);
        if found.Err? {
          return Err(found.error);
        }
        ghost var a := ExportFns(src, es[i]).value;
        ApplyAppend(old(T()), notes, a.notes);
        methods, notes := methods + found.value, notes + a.notes;
      }
      ThenNothing(Found(methods, notes));
      return Ok(methods);
    }

    /** `get_inside_method(node)`. */
    method GetInsideMethod(node: Node) returns (r: Result<seq<Node>>)
      modifies this`node2declaration, this`node2name, this`node2export
      ensures r == NodesOf(InsideMethod(src, node))
      ensures r.Ok? ==> T() == Apply(old(T()), InsideMethod(src, node).value.notes)
    {
      var decls := GetFnInDeclarations(node);
      if decls.Err? {
        return Err(decls.error);
      }
      var exprs := GetFnInExpressions(node);
      var exports := GetFnInExports(node);
      if exports.Err? {
        return Err(exports.error);
      }
      ghost var dn := FnInDeclarations(src, node).value.notes;
      ghost var en := FnInExpressions(node).notes;
      ghost var xn := FnInExports(src, node).value.notes;
      ApplyAppend(old(T()), dn, en);
      ApplyAppend(old(T()), dn + en, xn);
      return Ok(decls.value + exprs + exports.value);
    }

    /** One declaration of `get_class_in_declaration`. */
    method ClassDeclarationStep(d: Node) returns (r: seq<Node>)
      modifies this`node2declaration
      ensures r == DeclarationClasses(d).nodes
      ensures T() == Apply(old(T()), DeclarationClasses(d).notes)
    {
      var declarators := ChildrenOfType(d, {"variable_declarator"});
      if declarators == [] {
        return [];
      }
      var value := ChildByField(declarators[0], "value");
      if value.None? {
        return [];
      }
      var v := value.value;
      if v.kind in ClassTypes {
        node2declaration := node2declaration[KeyOf(v) := d];
        return [v];
      }
      if v.kind == "parenthesized_expression" && |v.children| > 0 {
        var inner := ChildrenOfType(v, ClassTypes);
        RecordDeclared(inner, d);
        return inner;
      }
      return [];
    }

    /** `get_class_in_declaration(node)`. */
    method GetClassInDeclaration(node: Node) returns (r: seq<Node>)
      modifies this`node2declaration
      ensures r == ClassInDeclaration(node).nodes
      ensures T() == Apply(old(T()), ClassInDeclaration(node).notes)
    {
      var ds := ChildrenOfType(node, DeclarationTypes);
      var classes: seq<Node> := [];
      ghost var notes: seq<Note> := [];
      ThenNothing(DeclarationsClassesFrom(ds, 0));
      for i := 0 to |ds|
        invariant DeclarationsClassesFrom(ds, 0) == Then(Found(classes, notes), DeclarationsClassesFrom(ds, i))
        invariant T() == Apply(old(T()), notes)
      {
        var found := ClassDeclarationStep(ds[i]);
        ghost var a := DeclarationClasses(ds[i]);
        ThenAssoc(Found(classes, notes), a, DeclarationsClassesFrom(ds, i + 1));
        ApplyAppend(old(T()), notes, a.notes);
        classes, notes := classes + found, notes + a.notes;
      }
      ThenNothing(Found(classes, notes));
      return classes;
    }

    /** One export statement of `get_inside_class`. */
    method ExportClassStep(e: Node) returns (r: seq<Node>)
      modifies this`node2declaration, this`node2export
      ensures r == ExportClasses(e).nodes
      ensures T() == Apply(old(T()), ExportClasses(e).notes)
    {
      var current := GetClassInDeclaration(e);
      current := current + ChildrenOfType(e, ClassTypes);
      RecordExported(current, e);
      ghost var dn := ClassInDeclaration(e).notes;
      ApplyAppend(old(T()), dn, Notes(current, e, true));
      assert dn + [] == dn;
      return current;
    }

    /** `get_inside_class(node)`. */
    method GetInsideClass(node: Node) returns (r: seq<Node>)
      modifies this`node2declaration, this`node2export
      ensures r == InsideClass(node).nodes
      ensures T() == Apply(old(T()), InsideClass(node).notes)
    {
      var classes := GetClassInDeclaration(node);
      ghost var notes := ClassInDeclaration(node).notes;
      var es := ChildrenOfType(node, {ExportType});
      ghost var start := Found(classes, notes);
      for i := 0 to |es|
        invariant Then(start, ExportsClassesFrom(es, 0)) == Then(Found(classes, notes), ExportsClassesFrom(es, i))
        invariant T() == Apply(old(T()), notes)
      {
        var found := ExportClassStep(es[i]);
        ghost var a := ExportClasses(es[i]);
        ThenAssoc(Found(classes, notes), a, ExportsClassesFrom(es, i + 1));
        ApplyAppend(old(T()), notes, a.notes);
        classes, notes := classes + found, notes + a.notes;
      }
      ThenNothing(Found(classes, notes));
      return classes;
    }

    /** `method_nodes`. */
    method MethodNodes() returns (r: Result<seq<Node>>)
      modifies this`node2declaration, this`node2name, this`node2export
      ensures r == NodesOf(JstsDiscovery.MethodNodes(src, root))
      ensures r.Ok? ==> T() == Apply(old(T()), JstsDiscovery.MethodNodes(src, root).value.notes)
    {
      var methods := ChildrenOfType(root, MethodTypes);
      var inside := GetInsideMethod(root);
      if inside.Err? {
        return Err(inside.error);
      }
      return Ok(SortByStart(WithChildren(methods + inside.value)));
    }

    /** `class_nodes`. */
    method ClassNodes() returns (r: seq<Node>)
      modifies this`node2declaration, this`node2export
      ensures r == JstsDiscovery.ClassNodes(root).nodes
      ensures T() == Apply(old(T()), JstsDiscovery.ClassNodes(root).notes)
    {
      var classes := ChildrenOfType(root, ClassTypes);
      var inside := GetInsideClass(root);
      return SortByStart(WithChildren(classes + inside));
    }

    /** The record's root for `m`: its export statement over its declaration. */
    method RootNode(m: Node) returns (r: Option<Node>)
      ensures r == RootOf(T(), m)
    {
      r := None;
      if KeyOf(m) in node2declaration {
        r := Some(node2declaration[KeyOf(m)]);
      }
      if KeyOf(m) in node2export {
        r := Some(node2export[KeyOf(m)]);
      }
    }

    /** The name, decorators and keywords of `m`'s record. */
    method MethodNaming(m: Node) returns (name: String, decorators: Option<seq<String>>, keywords: Option<String>)
      ensures name == MethodName(src, T(), m)
      ensures decorators == Decorators(src, m) && keywords == Keywords(src, m)
    {
      name := if KeyOf(m) in node2name then node2name[KeyOf(m)] else OptSpan(src, ChildByField(m, "name"));
      var numDecorators := CountKind(m.children, "decorator");
      var nameIdx := FindNameIndex(m.children);
      decorators := if numDecorators > 0 then Some(Select(src, m.children[..numDecorators], false)) else None;
      keywords := None;
      if nameIdx.Some? && nameIdx.value > numDecorators {
        keywords := Some(SpanSelect(src, m.children[numDecorators..nameIdx.value], false));
      }
      if name == [] && nameIdx.Some? && nameIdx.value > 0 {
        name := Span(src, m.children[nameIdx.value]);
      }
    }

    /** `_parse_method_node(m, parent)` up to the nested methods. */
    method MethodHeadNode(m: Node, parent: Option<Node>) returns (r: Result<MethodRecord>)
      ensures r == MethodHead(Ctx(), T(), m, parent)
    {
      var methodRoot := RootNode(m);
      var target := if methodRoot.Some? then methodRoot.value else m;
      var doc := GetDocstring(src, root, if parent.Some? then parent.value else root, target);
      if doc.Err? {
        return Err(doc.error);
      }
      var signature, defaults := GetSignatureDefaultArgs(src, target);
      var bodyNode := GetFirstChildOfType(m, FunctionBodyTypes);
      var original := if methodRoot.Some? then NodeText(src, methodRoot.value) else Span(src, m);
      var name, decorators, keywords := MethodNaming(m);
      return Ok(MethodRecord(
        original, KeyOf(m), Shift(Ctx(), m.startPoint), Shift(Ctx(), m.endPoint), signature, defaults,
        OptSpan(src, bodyNode), name, decorators, keywords, doc.value, [], SyntaxPass(m)));
    }

    /** `_parse_method_node(m, parent)`. */
    method ParseMethodNodeUnder(m: Node, parent: Option<Node>) returns (r: Result<MethodRecord>)
      modifies this`node2declaration, this`node2name, this`node2export
      ensures r == RecordOf(ParseMethod(Ctx(), old(T()), m, parent))
      ensures r.Ok? ==> T() == ParseMethod(Ctx(), old(T()), m, parent).value.1
      decreases Depth(m), 3
    {
      var head := MethodHeadNode(m, parent);
      if head.Err? {
        return Err(head.error);
      }
      r := WithBodyMethodsNode(m, head.value);
    }

    /** `head` completed with the methods nested in `m`'s body. */
    method WithBodyMethodsNode(m: Node, head: MethodRecord) returns (r: Result<MethodRecord>)
      modifies this`node2declaration, this`node2name, this`node2export
      ensures r == RecordOf(WithBodyMethods(Ctx(), old(T()), m, head))
      ensures r.Ok? ==> T() == WithBodyMethods(Ctx(), old(T()), m, head).value.1
      decreases Depth(m), 2
    {
      var body := ChildByField(m, "body");
      if body.None? {
        return Ok(head);
      }
      var inside := GetInsideMethod(body.value);
      if inside.Err? {
        return Err(inside.error);
      }
      ghost var found := InsideMethod(src, body.value).value;
      var ns := SortByStart(ChildrenOfType(body.value, MethodTypes) + inside.value);
      assert ns == BodyMethods(src, body.value, found);
      BodyMethodsBelow(src, m, body.value, found);
      var ms := ParseMethodsUnder(ns, body, Depth(m));
      if ms.Err? {
        return Err(ms.error);
      }
      return Ok(head.(methods := ms.value));
    }

    /** The records of `ns`, each parsed under `parent` after the ones before. */
    method ParseMethodsUnder(ns: seq<Node>, parent: Option<Node>, bound: nat) returns (r: Result<seq<MethodRecord>>)
      requires forall x :: x in ns ==> Depth(x) < bound
      modifies this`node2declaration, this`node2name, this`node2export
      ensures r == RecordsOf(NestedMethods(Ctx(), old(T()), ns, 0, parent, bound))
      ensures r.Ok? ==> T() == NestedMethods(Ctx(), old(T()), ns, 0, parent, bound).value.1
      decreases bound, 1
    {
      var out: seq<MethodRecord> := [];
      GlueRecordsNothing(NestedMethods(Ctx(), T(), ns, 0, parent, bound));
      for i := 0 to |ns|
        invariant NestedMethods(Ctx(), old(T()), ns, 0, parent, bound) == GlueRecords(out, NestedMethods(Ctx(), T(), ns, i, parent, bound))
      {
        var record := NextNested(ns, i, parent, bound, out);
        if record.Err? {
          return Err(record.error);
        }
        out := out + [record.value];
      }
      assert out + [] == out;
      return Ok(out);
    }

    /** The record of `ns[i]`, one step of `ParseMethodsUnder`. */
    method NextNested(ns: seq<Node>, i: nat, parent: Option<Node>, bound: nat, ghost out: seq<MethodRecord>)
      returns (r: Result<MethodRecord>)
      requires i < |ns| && forall x :: x in ns ==> Depth(x) < bound
      modifies this`node2declaration, this`node2name, this`node2export
      ensures r.Err? ==> GlueRecords(out, NestedMethods(Ctx(), old(T()), ns, i, parent, bound)) == Err(r.error)
      ensures r.Ok? ==>
        (GlueRecords(out, NestedMethods(Ctx(), old(T()), ns, i, parent, bound))
         == GlueRecords(out + [r.value], NestedMethods(Ctx(), T(), ns, i + 1, parent, bound)))
      decreases bound, 0
    {
      NestedStep(Ctx(), T(), ns, i, parent, bound, out);
      r := ParseMethodNodeUnder(ns[i], parent);
    }

    /** `parse_method_node(m)`: a node of neither method type fails the
        assertion. */
    method ParseMethodNode(m: Node) returns (r: Result<MethodRecord>)
      modifies this`node2declaration, this`node2name, this`node2export
      ensures m.kind !in MethodTypes + InsideMethodTypes ==> r == Err(AssertionFailed)
      ensures m.kind in MethodTypes + InsideMethodTypes ==> r == RecordOf(ParseMethod(Ctx(), old(T()), m, None))
    {
      if m.kind !in MethodTypes + InsideMethodTypes {
        return Err(AssertionFailed);
      }
      r := ParseMethodNodeUnder(m, None);
    }

    /** `_parse_class_node(c)` up to its methods. */
    method ClassHeadNode(c: Node) returns (r: Result<ClassRecord>)
      ensures r == ClassHead(Ctx(), T(), c)
    {
      var classRoot := RootNode(c);
      var definition := ExtractClassDefinition(src, c);
      var doc := GetDocstring(src, root, root, if classRoot.Some? then classRoot.value else c);
      if doc.Err? {
        return Err(doc.error);
      }
      var original := Span(src, c);
      if KeyOf(c) in node2export {
        original := Span(src, node2export[KeyOf(c)]);
      }
      var name := ClassName(src, classRoot, c);
      if name.Err? {
        return Err(name.error);
      }
      if c.children == [] {
        return Err(IndexError);
      }
      return Ok(ClassRecord(
        original, definition, KeyOf(c), Shift(Ctx(), c.startPoint), Shift(Ctx(), c.endPoint), doc.value, name.value,
        Select(src, ChildrenOfType(c, {"decorator"}), false),
        Select(src, ChildrenOfType(c, {"class_heritage"}), false),
        Select(src, ChildrenOfType(c.children[|c.children| - 1], {"public_field_definition"}), false),
        SyntaxPass(c), []));
    }

    /** `_parse_class_node(c)`. */
    method ParseClassNode(c: Node) returns (r: Result<ClassRecord>)
      modifies this`node2declaration, this`node2name, this`node2export
      ensures r == RecordOfClass(ParseClass(Ctx(), old(T()), c))
      ensures r.Ok? ==> T() == ParseClass(Ctx(), old(T()), c).value.1
    {
      var head := ClassHeadNode(c);
      if head.Err? {
        return Err(head.error);
      }
      var ns := ClassBodyMethodList(c);
      ClassMethodsBelow(c);
      var parent := GetFirstChildOfType(c, {"class_body"});
      var ms := ParseMethodsUnder(ns, parent, Depth(c));
      if ms.Err? {
        return Err(ms.error);
      }
      return Ok(head.value.(methods := ms.value));
    }
  }
}
