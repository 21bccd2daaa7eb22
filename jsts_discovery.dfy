/** How the JavaScript/TypeScript parser finds the methods and classes of a
    file: the direct children of the right types, and the functions and
    classes hidden inside variable declarations, assignment statements and
    export statements.  While it looks, it records three tables keyed by
    byte span: the declaration or statement a function was found in
    (`_node2declaration`), the declarator's name for it (`_node2name`) and
    the export statement around it (`_node2export`).  Here each discovery
    call is a function returning the nodes it finds and the table writes it
    makes, in order; the parser class applies the writes.
 */
module JstsDiscovery {
  import opened Wrappers
  import opened Text
  import opened Tree
  import opened Schema

  const MethodTypes: set<String> := {
    "function_declaration", "generator_function_declaration", "arrow_function",
    "function", "generator_function", "method_definition"}
  const InsideMethodTypes: set<String> := {"function", "generator_function", "method_definition", "arrow_function"}
  const ClassTypes: set<String> := {"class_declaration", "class"}
  const DeclarationTypes: set<String> := {"variable_declaration", "lexical_declaration"}
  const ExpressionTypes: set<String> := {"expression_statement"}
  const ExportType: String := "export_statement"

  // ------------------------------------------------------------ the tables

  /** One write into one of the three tables. */
  datatype Note =
    | DeclNote(key: Key, root: Node)
    | NameNote(key: Key, name: String)
    | ExportNote(key: Key, root: Node)

  /** `_node2declaration`, `_node2name` and `_node2export`. */
  datatype Tables = Tables(decl: map<Key, Node>, names: map<Key, String>, exports: map<Key, Node>)

  const NoTables: Tables := Tables(map[], map[], map[])

  function Write(t: Tables, n: Note): (r: Tables)
    ensures n.DeclNote? ==> r == t.(decl := t.decl[n.key := n.root])
    ensures n.NameNote? ==> r == t.(names := t.names[n.key := n.name])
    ensures n.ExportNote? ==> r == t.(exports := t.exports[n.key := n.root])
  {
    match n
    case DeclNote(k, root) => t.(decl := t.decl[k := root])
    case NameNote(k, s) => t.(names := t.names[k := s])
    case ExportNote(k, root) => t.(exports := t.exports[k := root])
  }

  /** The tables after the writes `ns`, first to last. */
  function Apply(t: Tables, ns: seq<Note>): Tables
    decreases |ns|
  {
    if ns == [] then t else Apply(Write(t, ns[0]), ns[1..])
  }

  lemma {:induction false} ApplyAppend(t: Tables, a: seq<Note>, b: seq<Note>)
    ensures Apply(t, a + b) == Apply(Apply(t, a), b)
    decreases |a|
  {
    if a == [] {
      assert a + b == b;
    } else {
      assert (a + b)[0] == a[0] && (a + b)[1..] == a[1..] + b;
      ApplyAppend(Write(t, a[0]), a[1..], b);
    }
  }

  /** The record's root node for `n`: the export statement around it when
      there is one, else the declaration it was found in. */
  function RootOf(t: Tables, n: Node): (r: Option<Node>)
    ensures KeyOf(n) in t.exports ==> r == Some(t.exports[KeyOf(n)])
    ensures KeyOf(n) !in t.exports ==> r == (if KeyOf(n) in t.decl then Some(t.decl[KeyOf(n)]) else None)
  {
    if KeyOf(n) in t.exports then Some(t.exports[KeyOf(n)])
    else if KeyOf(n) in t.decl then Some(t.decl[KeyOf(n)])
    else None
  }

  /** What a discovery call returns, and the writes it makes. */
  datatype Found = Found(nodes: seq<Node>, notes: seq<Note>)

  const Nothing: Found := Found([], [])

  function Then(a: Found, b: Found): Found {
    Found(a.nodes + b.nodes, a.notes + b.notes)
  }

  /** One write per node, keyed by its span, pointing at `root`, into the
      export table or the declaration table. */
  function Notes(ns: seq<Node>, root: Node, exported: bool): (r: seq<Note>)
    ensures |r| == |ns|
  {
    if ns == [] then []
    else
      var first := if exported then ExportNote(KeyOf(ns[0]), root) else DeclNote(KeyOf(ns[0]), root);
      [first] + Notes(ns[1..], root, exported)
  }

  /** Whatever else they write, the writes of an export statement leave
      every node found in it, and every key it already held, pointing at
      that statement. */
  lemma {:induction false} ExportNotesWin(t: Tables, ns: seq<Node>, e: Node, n: Node)
    requires n in ns || (KeyOf(n) in t.exports && t.exports[KeyOf(n)] == e)
    ensures KeyOf(n) in Apply(t, Notes(ns, e, true)).exports
    ensures Apply(t, Notes(ns, e, true)).exports[KeyOf(n)] == e
    decreases |ns|
  {
    if ns != [] {
      assert Notes(ns, e, true)[1..] == Notes(ns[1..], e, true);
      if n != ns[0] {
        assert n in ns[1..] || (KeyOf(n) in t.exports && t.exports[KeyOf(n)] == e);
      }
      ExportNotesWin(Write(t, ExportNote(KeyOf(ns[0]), e)), ns[1..], e, n);
    }
  }

  // ------------------------------------------------------------ functions

  /** One declaration of `get_fn_in_declarations`: the first declarator's
      value when it is a function, or the functions inside a value that is
      an object or a parenthesized expression, and the function called
      right after its opening token.  A value without a name field raises
      `AttributeError`; an object with one child raises `IndexError`. */
  function DeclarationFns(src: String, d: Node): Result<Found> {
    var declarators := ChildrenOfType(d, {"variable_declarator"});
    if declarators == [] then Ok(Nothing)
    else
      var declarator := declarators[0];
      match ChildByField(declarator, "value")
      case None => Ok(Nothing)
      case Some(value) =>
        match ChildByField(declarator, "name")
        case None => Err(AttributeError)
        case Some(name) =>
          var named := [NameNote(KeyOf(value), NodeText(src, name))];
          if value.kind in InsideMethodTypes then Ok(Found([value], named + [DeclNote(KeyOf(value), d)]))
          else if value.kind in {"object", "parenthesized_expression"} && |value.children| > 0 then
            if |value.children| < 2 then Err(IndexError)
            else
              var all := ValueFns(value);
              Ok(Found(all, named + Notes(all, d, false)))
          else Ok(Found([], named))
  }

  /** The functions in an object or parenthesised value: its function
      children, then the callee of its second child when that is a call of a
      function expression. */
  function ValueFns(value: Node): seq<Node>
    requires |value.children| >= 2
  {
    var call := value.children[1];
    var extra :=
      if call.kind == "call_expression" && |call.children| > 0 && call.children[0].kind in InsideMethodTypes
      then [call.children[0]] else [];
    ChildrenOfType(value, InsideMethodTypes) + extra
  }

  function DeclarationsFnsFrom(src: String, ds: seq<Node>, i: nat): Result<Found>
    requires i <= |ds|
    decreases |ds| - i
  {
    if i == |ds| then Ok(Nothing)
    else
      var a :- DeclarationFns(src, ds[i]);
      var b :- DeclarationsFnsFrom(src, ds, i + 1);
      Ok(Then(a, b))
  }

  /** `get_fn_in_declarations(node)`. */
  function FnInDeclarations(src: String, node: Node): Result<Found> {
    DeclarationsFnsFrom(src, ChildrenOfType(node, DeclarationTypes), 0)
  }

  /** One statement of `get_fn_in_expressions`: the right-hand side of its
      first assignment, when that is a function. */
  function ExpressionFns(e: Node): Found {
    var assignments := ChildrenOfType(e, {"assignment_expression"});
    if assignments == [] then Nothing
    else match ChildByField(assignments[0], "right")
      case None => Nothing
      case Some(right) =>
        if right.kind in InsideMethodTypes then Found([right], [DeclNote(KeyOf(right), e)]) else Nothing
  }

  function ExpressionsFnsFrom(es: seq<Node>, i: nat): Found
    requires i <= |es|
    decreases |es| - i
  {
    if i == |es| then Nothing else Then(ExpressionFns(es[i]), ExpressionsFnsFrom(es, i + 1))
  }

  /** `get_fn_in_expressions(node)`. */
  function FnInExpressions(node: Node): Found {
    ExpressionsFnsFrom(ChildrenOfType(node, ExpressionTypes), 0)
  }

  /** One export statement of `get_fn_in_exports`: the functions of its
      declarations and assignments and its direct function children, each
      then recorded as exported by it. */
  function ExportFns(src: String, e: Node): Result<Found> {
    var decls :- FnInDeclarations(src, e);
    var current := Then(Then(decls, FnInExpressions(e)), Found(ChildrenOfType(e, MethodTypes), []));
    Ok(Found(current.nodes, current.notes + Notes(current.nodes, e, true)))
  }

  function ExportsFnsFrom(src: String, es: seq<Node>, i: nat): Result<Found>
    requires i <= |es|
    decreases |es| - i
  {
    if i == |es| then Ok(Nothing)
    else
      var a :- ExportFns(src, es[i]);
      var b :- ExportsFnsFrom(src, es, i + 1);
      Ok(Then(a, b))
  }

  /** `get_fn_in_exports(node)`. */
  function FnInExports(src: String, node: Node): Result<Found> {
    ExportsFnsFrom(src, ChildrenOfType(node, {ExportType}), 0)
  }

  /** `get_inside_method(node)`: declarations, then assignments, then exports. */
  function InsideMethod(src: String, node: Node): Result<Found> {
    var decls :- FnInDeclarations(src, node);
    var exports :- FnInExports(src, node);
    Ok(Then(Then(decls, FnInExpressions(node)), exports))
  }

  /** A method found in an export statement has that statement as its
      record's root once the statement's writes are made, whichever
      declaration it was also found in. */
  lemma ExportedRoot(src: String, e: Node, t: Tables, n: Node)
    requires ExportFns(src, e).Ok? && n in ExportFns(src, e).value.nodes
    ensures RootOf(Apply(t, ExportFns(src, e).value.notes), n) == Some(e)
  {
    var decls := FnInDeclarations(src, e).value;
    var current := Then(Then(decls, FnInExpressions(e)), Found(ChildrenOfType(e, MethodTypes), []));
    ApplyAppend(t, current.notes, Notes(current.nodes, e, true));
    ExportNotesWin(Apply(t, current.notes), current.nodes, e, n);
  }

  // -------------------------------------------------------------- classes

  /** One declaration of `get_class_in_declaration`: the first declarator's
      value when it is a class, or the classes inside a parenthesized value. */
  function DeclarationClasses(d: Node): Found {
    var declarators := ChildrenOfType(d, {"variable_declarator"});
    if declarators == [] then Nothing
    else match ChildByField(declarators[0], "value")
      case None => Nothing
      case Some(value) =>
        if value.kind in ClassTypes then Found([value], [DeclNote(KeyOf(value), d)])
        else if value.kind == "parenthesized_expression" && |value.children| > 0 then
          var inner := ChildrenOfType(value, ClassTypes);
          Found(inner, Notes(inner, d, false))
        else Nothing
  }

  function DeclarationsClassesFrom(ds: seq<Node>, i: nat): Found
    requires i <= |ds|
    decreases |ds| - i
  {
    if i == |ds| then Nothing else Then(DeclarationClasses(ds[i]), DeclarationsClassesFrom(ds, i + 1))
  }

  /** `get_class_in_declaration(node)`. */
  function ClassInDeclaration(node: Node): Found {
    DeclarationsClassesFrom(ChildrenOfType(node, DeclarationTypes), 0)
  }

  /** One export statement of `get_inside_class`. */
  function ExportClasses(e: Node): Found {
    var current := Then(ClassInDeclaration(e), Found(ChildrenOfType(e, ClassTypes), []));
    Found(current.nodes, current.notes + Notes(current.nodes, e, true))
  }

  function ExportsClassesFrom(es: seq<Node>, i: nat): Found
    requires i <= |es|
    decreases |es| - i
  {
    if i == |es| then Nothing else Then(ExportClasses(es[i]), ExportsClassesFrom(es, i + 1))
  }

  /** `get_inside_class(node)`. */
  function InsideClass(node: Node): Found {
    Then(ClassInDeclaration(node), ExportsClassesFrom(ChildrenOfType(node, {ExportType}), 0))
  }

  // ------------------------------------------------------- the candidates

  /** The nodes with children, in order. */
  function WithChildren(ns: seq<Node>): (r: seq<Node>)
    ensures forall i :: 0 <= i < |r| ==> r[i].children != [] && r[i] in ns
    ensures forall i :: 0 <= i < |ns| && ns[i].children != [] ==> ns[i] in r
  {
    if ns == [] then []
    else if ns[0].children != [] then [ns[0]] + WithChildren(ns[1..])
    else WithChildren(ns[1..])
  }

  /** `method_nodes`: the direct function children of the root and the
      functions inside its declarations, assignments and exports, without
      the childless ones, sorted by start byte; and the writes made. */
  function MethodNodes(src: String, root: Node): Result<Found> {
    var inside :- InsideMethod(src, root);
    Ok(Found(SortByStart(WithChildren(ChildrenOfType(root, MethodTypes) + inside.nodes)), inside.notes))
  }

  /** `class_nodes`, likewise for classes. */
  function ClassNodes(root: Node): Found {
    var inside := InsideClass(root);
    Found(SortByStart(WithChildren(ChildrenOfType(root, ClassTypes) + inside.nodes)), inside.notes)
  }

  /** The method candidates are sorted by start byte, all have children,
      and are the childful candidates rearranged. */
  lemma MethodNodesSorted(src: String, root: Node)
    requires MethodNodes(src, root).Ok?
    ensures var ns := MethodNodes(src, root).value.nodes;
      SortedByStart(ns) && forall i :: 0 <= i < |ns| ==> ns[i].children != []
    ensures multiset(MethodNodes(src, root).value.nodes)
      == multiset(WithChildren(ChildrenOfType(root, MethodTypes) + InsideMethod(src, root).value.nodes))
  {
    var cands := WithChildren(ChildrenOfType(root, MethodTypes) + InsideMethod(src, root).value.nodes);
    SortByStartSorted(cands);
    var ns := SortByStart(cands);
    forall i | 0 <= i < |ns| ensures ns[i].children != [] {
      assert ns[i] in multiset(cands);
    }
  }

  /** The class candidates likewise. */
  lemma ClassNodesSorted(root: Node)
    ensures var ns := ClassNodes(root).nodes;
      SortedByStart(ns) && forall i :: 0 <= i < |ns| ==> ns[i].children != []
    ensures multiset(ClassNodes(root).nodes) == multiset(WithChildren(ChildrenOfType(root, ClassTypes) + InsideClass(root).nodes))
  {
    var cands := WithChildren(ChildrenOfType(root, ClassTypes) + InsideClass(root).nodes);
    SortByStartSorted(cands);
    var ns := SortByStart(cands);
    forall i | 0 <= i < |ns| ensures ns[i].children != [] {
      assert ns[i] in multiset(cands);
    }
  }

  // ------------------------------------------------------------- depth

  lemma {:induction false} ChildrenDepthBounds(n: Node, i: nat, j: nat)
    requires i <= j < |n.children|
    ensures Depth(n.children[j]) <= ChildrenDepth(n, i)
    decreases j - i
  {
    if i < j {
      ChildrenDepthBounds(n, i + 1, j);
    }
  }

  /** A child is shallower than its parent. */
  lemma ChildDepth(n: Node, c: Node)
    requires c in n.children
    ensures Depth(c) < Depth(n)
  {
    var j :| 0 <= j < |n.children| && n.children[j] == c;
    ChildrenDepthBounds(n, 0, j);
  }

  /** The functions found in a declaration lie below it. */
  lemma DeclarationFnsBelow(src: String, d: Node, x: Node)
    requires DeclarationFns(src, d).Ok? && x in DeclarationFns(src, d).value.nodes
    ensures Depth(x) < Depth(d)
  {
    var declarator := ChildrenOfType(d, {"variable_declarator"})[0];
    ChildDepth(d, declarator);
    var value := ChildByField(declarator, "value").value;
    ChildDepth(declarator, value);
    if value.kind !in InsideMethodTypes {
      assert value.kind in {"object", "parenthesized_expression"} && |value.children| >= 2;
      assert DeclarationFns(src, d).value.nodes == ValueFns(value);
      ValueFnsBelow(value, x);
    }
  }

  lemma ValueFnsBelow(value: Node, x: Node)
    requires |value.children| >= 2 && x in ValueFns(value)
    ensures Depth(x) < Depth(value)
  {
    if x in ChildrenOfType(value, InsideMethodTypes) {
      ChildDepth(value, x);
    } else {
      var call := value.children[1];
      ChildDepth(value, call);
      ChildDepth(call, x);
    }
  }

  lemma {:induction false} DeclarationsFnsBelow(src: String, node: Node, i: nat, x: Node)
    requires i <= |ChildrenOfType(node, DeclarationTypes)|
    requires DeclarationsFnsFrom(src, ChildrenOfType(node, DeclarationTypes), i).Ok?
    requires x in DeclarationsFnsFrom(src, ChildrenOfType(node, DeclarationTypes), i).value.nodes
    ensures Depth(x) < Depth(node)
    decreases |ChildrenOfType(node, DeclarationTypes)| - i
  {
    var ds := ChildrenOfType(node, DeclarationTypes);
    var a := DeclarationFns(src, ds[i]).value;
    if x in a.nodes {
      DeclarationFnsBelow(src, ds[i], x);
      ChildDepth(node, ds[i]);
    } else {
      DeclarationsFnsBelow(src, node, i + 1, x);
    }
  }

  lemma {:induction false} ExpressionsFnsBelow(node: Node, i: nat, x: Node)
    requires i <= |ChildrenOfType(node, ExpressionTypes)|
    requires x in ExpressionsFnsFrom(ChildrenOfType(node, ExpressionTypes), i).nodes
    ensures Depth(x) < Depth(node)
    decreases |ChildrenOfType(node, ExpressionTypes)| - i
  {
    var es := ChildrenOfType(node, ExpressionTypes);
    if x in ExpressionFns(es[i]).nodes {
      var a := ChildrenOfType(es[i], {"assignment_expression"})[0];
      ChildDepth(node, es[i]);
      ChildDepth(es[i], a);
      ChildDepth(a, x);
    } else {
      ExpressionsFnsBelow(node, i + 1, x);
    }
  }

  lemma {:induction false} ExportsFnsBelow(src: String, node: Node, i: nat, x: Node)
    requires i <= |ChildrenOfType(node, {ExportType})|
    requires ExportsFnsFrom(src, ChildrenOfType(node, {ExportType}), i).Ok?
    requires x in ExportsFnsFrom(src, ChildrenOfType(node, {ExportType}), i).value.nodes
    ensures Depth(x) < Depth(node)
    decreases |ChildrenOfType(node, {ExportType})| - i
  {
    var es := ChildrenOfType(node, {ExportType});
    var e := es[i];
    if x in ExportFns(src, e).value.nodes {
      ChildDepth(node, e);
      if x in FnInDeclarations(src, e).value.nodes {
        DeclarationsFnsBelow(src, e, 0, x);
      } else if x in FnInExpressions(e).nodes {
        ExpressionsFnsBelow(e, 0, x);
      } else {
        ChildDepth(e, x);
      }
    } else {
      ExportsFnsBelow(src, node, i + 1, x);
    }
  }

  /** Every function `get_inside_method(node)` finds lies below `node`. */
  lemma InsideMethodBelow(src: String, node: Node, x: Node)
    requires InsideMethod(src, node).Ok? && x in InsideMethod(src, node).value.nodes
    ensures Depth(x) < Depth(node)
  {
    if x in FnInDeclarations(src, node).value.nodes {
      DeclarationsFnsBelow(src, node, 0, x);
    } else if x in FnInExpressions(node).nodes {
      ExpressionsFnsBelow(node, 0, x);
    } else {
      ExportsFnsBelow(src, node, 0, x);
    }
  }
}
