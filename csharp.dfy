/** The C# schema extractor: the class, struct and interface records (with
    their fields and properties) and the method records built from a tree by
    `CSharpParser`, with the namespace tables filled by `update`.
 */
module CSharp {
  import opened Wrappers
  import opened Text
  import opened Tree
  import opened Schema
  import opened Namespaces
  import opened CFamily
  import opened CommentUtils

  const MethodTypes: set<String> := {"constructor_declaration", "method_declaration"}
  const ClassTypes: set<String> := {"class_declaration", "struct_declaration", "interface_declaration"}
  const ImportTypes: set<String> := {"using_directive"}
  const NamespaceTypes: set<String> := {"namespace_declaration"}

  datatype FieldRecord = FieldRecord(
    originalString: String,
    docstring: String,
    fieldType: String,
    name: String,
    modifiers: seq<String>,
    syntaxPass: bool)

  datatype PropertyRecord = PropertyRecord(
    originalString: String,
    docstring: String,
    propertyType: String,
    name: String,
    accessors: String,
    modifiers: seq<String>,
    syntaxPass: bool)

  datatype MethodRecord = MethodRecord(
    originalString: String,
    byteSpan: Key,
    startPoint: Point,
    endPoint: Point,
    namespacePrefix: String,
    attributes: seq<String>,
    parameters: seq<String>,
    docstring: String,
    returnType: String,
    name: String,
    body: String,
    modifiers: seq<String>,
    signature: String,
    syntaxPass: bool,
    classes: seq<ClassRecord>,
    methods: seq<MethodRecord>)

  datatype ClassRecord = ClassRecord(
    moduleType: String,
    originalString: String,
    byteSpan: Key,
    startPoint: Point,
    endPoint: Point,
    definition: String,
    namespacePrefix: String,
    attributes: seq<String>,
    docstring: String,
    name: String,
    body: String,
    modifiers: seq<String>,
    bases: seq<String>,
    fields: seq<FieldRecord>,
    properties: seq<PropertyRecord>,
    syntaxPass: bool,
    classes: seq<ClassRecord>,
    methods: seq<MethodRecord>)

  function ClassNodes(root: Node): seq<Node> { Candidates(root, NamespaceTypes, ClassTypes) }
  function MethodNodes(root: Node): seq<Node> { Candidates(root, NamespaceTypes, MethodTypes) }

  // ------------------------------------------------------------ docstrings

  /** Where the run of comments that ends just before position `k` starts. */
  function CommentStart(cs: seq<Node>, k: nat): (j: nat)
    requires k <= |cs|
    ensures j <= k
    ensures forall q :: j <= q < k ==> cs[q].kind == "comment"
    ensures j > 0 ==> cs[j - 1].kind != "comment"
  {
    if k == 0 then 0 else if cs[k - 1].kind != "comment" then k else CommentStart(cs, k - 1)
  }

  /** `_get_docstring_before(node, parent)`: the comment siblings directly
      before `node` in `parent` (the root when there is none); None when
      `node` is not a child, is the first child, or follows a non-comment. */
  function DocstringRun(root: Node, n: Node, parent: Option<Node>): (r: Option<seq<Node>>)
    ensures var p := parent.GetOr(root);
      r.Some? <==> ChildIndex(p, n).Some? && ChildIndex(p, n).value > 0
                   && p.children[ChildIndex(p, n).value - 1].kind == "comment"
    ensures r.Some? ==> r.value != [] && forall q :: 0 <= q < |r.value| ==> r.value[q].kind == "comment"
  {
    var p := parent.GetOr(root);
    match ChildIndex(p, n)
    case None => None
    case Some(i) =>
      var j := CommentStart(p.children, i);
      if i == 0 || j == i then None else Some(p.children[j..i])
  }

  /** The run is maximal: it ends just before the node, and the sibling
      before it, if any, is not a comment. */
  lemma DocstringRunMaximal(root: Node, n: Node, parent: Option<Node>, i: nat)
    requires ChildIndex(parent.GetOr(root), n) == Some(i)
    requires DocstringRun(root, n, parent).Some?
    ensures var p, r := parent.GetOr(root), DocstringRun(root, n, parent).value;
      |r| <= i && r == p.children[i - |r|..i]
      && (|r| < i ==> p.children[i - |r| - 1].kind != "comment")
  {
  }

  /** The two index scans of `_get_docstring_before`. */
  method GetDocstringBefore(root: Node, n: Node, parent: Option<Node>) returns (r: Option<seq<Node>>)
    ensures r == DocstringRun(root, n, parent)
  {
    var p := if parent.Some? then parent.value else root;
    var nodeIndex := -1;
    var i := 0;
    while i < |p.children|
      invariant 0 <= i <= |p.children|
      invariant forall j :: 0 <= j < i ==> p.children[j] != n
      decreases |p.children| - i
    {
      if p.children[i] == n {
        nodeIndex := i;
        break;
      }
      i := i + 1;
    }
    if nodeIndex < 0 {
      return None;
    }
    assert ChildIndex(p, n) == Some(nodeIndex);
    var stopIndex := -1;
    var sib := nodeIndex - 1;
    while sib >= 0
      invariant -1 <= sib < nodeIndex
      invariant CommentStart(p.children, nodeIndex) == CommentStart(p.children, sib + 1)
      decreases sib
    {
      if p.children[sib].kind != "comment" {
        stopIndex := sib;
        break;
      }
      sib := sib - 1;
    }
    assert CommentStart(p.children, nodeIndex) == stopIndex + 1;
    if nodeIndex == 0 || stopIndex == nodeIndex - 1 {
      return None;
    }
    return Some(p.children[stopIndex + 1..nodeIndex]);
  }

  /** A docstring's text: the comments' span without delimiters, stripped;
      "" when there are none. */
  function DocText(src: String, run: Option<seq<Node>>, indent: bool): String {
    match run
    case None => []
    case Some(cs) => Strip(StripCStyleDelimiters(SpanSelect(src, cs, indent)))
  }

  // ---------------------------------------------------- small attributes

  /** `node.type.split("_")[0]`: the type up to its first underscore. */
  function ModuleType(kind: String): (r: String)
    ensures StartsWith(kind, r) && '_' !in r
    ensures r == kind || kind[|r|] == '_'
  {
    match IndexOfChar(kind, '_')
    case None => kind
    case Some(k) => kind[..k]
  }

  /** `list(types).index("identifier") + 1`: the children through the first
      identifier; `ValueError` when there is none. */
  function DefinitionEnd(c: Node): (r: Result<nat>)
    ensures r.Err? <==> forall j :: 0 <= j < |c.children| ==> c.children[j].kind != "identifier"
    ensures r.Err? ==> r.error == ValueError
    ensures r.Ok? ==> 0 < r.value <= |c.children| && c.children[r.value - 1].kind == "identifier"
                      && forall j :: 0 <= j < r.value - 1 ==> c.children[j].kind != "identifier"
  {
    match FirstOfKind(c.children, "identifier")
    case None => Err(ValueError)
    case Some(k) => Ok(k + 1)
  }

  /** The texts of `children_of_type(n, s)` with a string `s`, through
      `select`. */
  function SelectIn(src: String, n: Node, s: String): (r: seq<String>)
    ensures |r| == |ChildrenOfKind(n, s)|
  {
    Select(src, ChildrenOfKind(n, s), false)
  }

  /** `attributes`: the attributes of a leading `attribute_list` child. */
  function Attributes(src: String, n: Node): seq<String>
    requires n.children != []
  {
    if n.children[0].kind == "attribute_list" then SelectIn(src, n.children[0], "attribute") else []
  }

  /** The base-list children that are not ":" or "," are the bases, as text. */
  predicate IsBase(b: Node) { b.kind != ":" && b.kind != "," }

  function Bases(src: String, bases: Option<Node>): (r: seq<String>)
    ensures bases.None? ==> r == []
    ensures bases.Some? ==> |r| == |FilterWhere(bases.value.children, IsBase)|
  {
    match bases
    case None => []
    case Some(b) => Select(src, FilterWhere(b.children, IsBase), false)
  }

  /** `_get_field_info(field)`: in the first `variable_declaration` child,
      the text of its type and of its last `variable_declarator`; "" for
      whatever is missing. */
  function FieldInfo(src: String, f: Node): (String, String) {
    match FirstOfKind(f.children, "variable_declaration")
    case None => ([], [])
    case Some(k) =>
      var d := f.children[k];
      (OptSpan(src, ChildByField(d, "type")),
       match LastOfKind(d.children, "variable_declarator")
       case None => []
       case Some(j) => Span(src, d.children[j]))
  }

  /** The loops of `_get_field_info`. */
  method GetFieldInfo(src: String, f: Node) returns (fieldType: String, name: String)
    ensures (fieldType, name) == FieldInfo(src, f)
  {
    fieldType, name := [], [];
    var i := 0;
    while i < |f.children|
      invariant i <= |f.children|
      invariant forall j :: 0 <= j < i ==> f.children[j].kind != "variable_declaration"
      decreases |f.children| - i
    {
      var child := f.children[i];
      if child.kind == "variable_declaration" {
        assert FirstOfKind(f.children, "variable_declaration") == Some(i);
        fieldType := OptSpan(src, ChildByField(child, "type"));
        name := LastDeclaratorText(src, child);
        return;
      }
      i := i + 1;
    }
    assert FirstOfKind(f.children, "variable_declaration").None?;
  }

  /** The inner loop: every `variable_declarator` overwrites the name. */
  method LastDeclaratorText(src: String, d: Node) returns (name: String)
    ensures name == match LastOfKind(d.children, "variable_declarator")
                    case None => [] case Some(j) => Span(src, d.children[j])
  {
    name := [];
    for i := 0 to |d.children|
      invariant name == match LastOfKind(d.children[..i], "variable_declarator")
                       case None => [] case Some(j) => Span(src, d.children[j])
    {
      assert d.children[..i + 1][..i] == d.children[..i];
      if d.children[i].kind == "variable_declarator" {
        name := Span(src, d.children[i]);
      }
    }
    assert d.children[..|d.children|] == d.children;
  }

  // ------------------------------------------------ fields and properties

  /** One entry of `fields`: the text of the declaration, the comments before
      it in the class body, its type and name, its modifiers. */
  function MakeField(ctx: Context, body: Node, f: Node): FieldRecord {
    var (t, name) := FieldInfo(ctx.src, f);
    FieldRecord(
      Span(ctx.src, f),
      DocText(ctx.src, DocstringRun(ctx.root, f, Some(body)), false),
      t, name, SelectIn(ctx.src, f, "modifier"), SyntaxPass(f))
  }

  /** One entry of `properties`. */
  function MakeProperty(ctx: Context, body: Node, p: Node): PropertyRecord {
    PropertyRecord(
      Span(ctx.src, p),
      DocText(ctx.src, DocstringRun(ctx.root, p, Some(body)), false),
      OptSpan(ctx.src, ChildByField(p, "type")),
      OptSpan(ctx.src, ChildByField(p, "name")),
      OptSpan(ctx.src, ChildByField(p, "accessors")),
      SelectIn(ctx.src, p, "modifier"), SyntaxPass(p))
  }

  function MakeFields(ctx: Context, body: Node, ns: seq<Node>): (r: seq<FieldRecord>)
    ensures |r| == |ns|
  {
    if ns == [] then [] else MakeFields(ctx, body, ns[..|ns| - 1]) + [MakeField(ctx, body, ns[|ns| - 1])]
  }

  function MakeProperties(ctx: Context, body: Node, ns: seq<Node>): (r: seq<PropertyRecord>)
    ensures |r| == |ns|
  {
    if ns == [] then [] else MakeProperties(ctx, body, ns[..|ns| - 1]) + [MakeProperty(ctx, body, ns[|ns| - 1])]
  }

  /** Each field record belongs to the declaration at the same place. */
  lemma {:induction false} MakeFieldsAt(ctx: Context, body: Node, ns: seq<Node>, i: nat)
    requires i < |ns|
    ensures MakeFields(ctx, body, ns)[i] == MakeField(ctx, body, ns[i])
  {
    if i < |ns| - 1 {
      MakeFieldsAt(ctx, body, ns[..|ns| - 1], i);
    }
  }

  lemma MakeFieldsSnoc(ctx: Context, body: Node, ns: seq<Node>, i: nat)
    requires i < |ns|
    ensures MakeFields(ctx, body, ns[..i + 1]) == MakeFields(ctx, body, ns[..i]) + [MakeField(ctx, body, ns[i])]
  {
    assert ns[..i + 1][..i] == ns[..i];
  }

  lemma {:induction false} MakePropertiesAt(ctx: Context, body: Node, ns: seq<Node>, i: nat)
    requires i < |ns|
    ensures MakeProperties(ctx, body, ns)[i] == MakeProperty(ctx, body, ns[i])
  {
    if i < |ns| - 1 {
      MakePropertiesAt(ctx, body, ns[..|ns| - 1], i);
    }
  }

  /** The `fields` of a class: one record per `field_declaration` child of
      its body, in order. */
  function Fields(ctx: Context, body: Option<Node>): seq<FieldRecord> {
    match body
    case None => []
    case Some(b) => MakeFields(ctx, b, ChildrenOfKind(b, "field_declaration"))
  }

  function Properties(ctx: Context, body: Option<Node>): seq<PropertyRecord> {
    match body
    case None => []
    case Some(b) => MakeProperties(ctx, b, ChildrenOfKind(b, "property_declaration"))
  }

  /** The field loop of `_parse_class_node`. */
  method ScanFields(ctx: Context, body: Node) returns (fields: seq<FieldRecord>)
    ensures fields == MakeFields(ctx, body, ChildrenOfKind(body, "field_declaration"))
  {
    var nodes := ChildrenOfKind(body, "field_declaration");
    fields := [];
    for i := 0 to |nodes|
      invariant fields == MakeFields(ctx, body, nodes[..i])
    {
      var rec := FieldOf(ctx, body, nodes[i]);
      MakeFieldsSnoc(ctx, body, nodes, i);
      fields := fields + [rec];
    }
    assert nodes[..|nodes|] == nodes;
  }

  /** One `field_dict`. */
  method FieldOf(ctx: Context, body: Node, f: Node) returns (rec: FieldRecord)
    ensures rec == MakeField(ctx, body, f)
  {
    var t, name := GetFieldInfo(ctx.src, f);
    var doc := GetDocstringBefore(ctx.root, f, Some(body));
    rec := FieldRecord(
      Span(ctx.src, f), DocText(ctx.src, doc, false),
      t, name, SelectIn(ctx.src, f, "modifier"), SyntaxPass(f));
  }

  /** The property loop of `_parse_class_node`. */
  method ScanProperties(ctx: Context, body: Node) returns (properties: seq<PropertyRecord>)
    ensures properties == MakeProperties(ctx, body, ChildrenOfKind(body, "property_declaration"))
  {
    var nodes := ChildrenOfKind(body, "property_declaration");
    properties := [];
    for i := 0 to |nodes|
      invariant properties == MakeProperties(ctx, body, nodes[..i])
    {
      var doc := GetDocstringBefore(ctx.root, nodes[i], Some(body));
      var rec := MakeProperty(ctx, body, nodes[i]);
      assert rec.docstring == DocText(ctx.src, doc, false);
      assert nodes[..i + 1][..i] == nodes[..i];
      properties := properties + [rec];
    }
    assert nodes[..|nodes|] == nodes;
  }

  // ------------------------------------------------------------ signature

  /** The first `parameter_list` child, whose position both method loops
      look for. */
  function ParamIndex(m: Node): (r: Option<nat>)
    ensures r.Some? ==> r.value < |m.children| && m.children[r.value].kind == "parameter_list"
    ensures r.None? ==> forall j :: 0 <= j < |m.children| ==> m.children[j].kind != "parameter_list"
  {
    FirstOfKind(m.children, "parameter_list")
  }

  /** `parameters`: the `parameter` children of the first parameter list. */
  function Parameters(src: String, m: Node): seq<String> {
    match ParamIndex(m)
    case None => []
    case Some(k) => SelectIn(src, m.children[k], "parameter")
  }

  /** Where the signature starts: after a leading attribute list. */
  function SignatureStart(m: Node): (k: nat)
    requires m.children != []
    ensures k <= 1
  {
    if m.children[0].kind == "attribute_list" then 1 else 0
  }

  /** `signature`: the children from after a leading attribute list through
      the first parameter list; with no parameter list `param_index` is
      never bound (`UnboundLocalError`). */
  function SignatureOf(src: String, m: Node): (r: Result<String>)
    requires m.children != []
    ensures r.Err? <==> ParamIndex(m).None?
    ensures r.Err? ==> r.error == UnboundLocal
  {
    match ParamIndex(m)
    case None => Err(UnboundLocal)
    case Some(k) => Ok(SpanSelect(src, m.children[SignatureStart(m)..k + 1], true))
  }

  /** The signature is the text from the first child after the attribute
      list to the end of the parameter list. */
  lemma SignatureSpan(src: String, m: Node, k: nat)
    requires m.children != [] && ParamIndex(m) == Some(k)
    requires m.children[0].kind != "attribute_list" || k > 0
    ensures 0 <= SignatureStart(m) <= k
    ensures SignatureOf(src, m) == Ok(SpanSelect(src, m.children[SignatureStart(m)..k + 1], true))
    ensures var s := SignatureStart(m);
      SignatureOf(src, m).value ==
        Spaces(m.children[s].startPoint.col) + Slice(src, m.children[s].startByte, m.children[k].endByte)
  {
  }

  /** The first-`parameter_list` loop of `_parse_method_node`. */
  method FindParamIndex(m: Node) returns (r: Option<nat>)
    ensures r == ParamIndex(m)
  {
    for i := 0 to |m.children|
      invariant forall j :: 0 <= j < i ==> m.children[j].kind != "parameter_list"
    {
      if m.children[i].kind == "parameter_list" {
        assert FirstOfKind(m.children, "parameter_list") == Some(i);
        return Some(i);
      }
    }
    return None;
  }

  // -------------------------------------------------------------- records

  /** Everything `_parse_method_node(m, parent)` records about the method
      itself (the nested lists left empty): a recorded span with no parent
      raises `KeyError`, a method without children `IndexError`, one
      without a parameter list `UnboundLocalError`. */
  function MethodHead(ctx: Context, m: Node, parent: Option<Node>): Result<MethodRecord> {
    var (prefix, parent') :- Placement(ctx, m, parent);
    MethodParts(ctx, m, prefix, DocText(ctx.src, DocstringRun(ctx.root, m, parent'), true))
  }

  /** The part of the head that reads the method's own children. */
  function MethodParts(ctx: Context, m: Node, prefix: String, doc: String): Result<MethodRecord> {
    if m.children == [] then Err(IndexError) else
      var sig :- SignatureOf(ctx.src, m);
      Ok(MethodRecord(
        SpanSelect(ctx.src, [m], true), KeyOf(m), Shift(ctx, m.startPoint), Shift(ctx, m.endPoint),
        prefix, Attributes(ctx.src, m), Parameters(ctx.src, m), doc,
        OptSpan(ctx.src, ChildByField(m, "type")), OptSpan(ctx.src, ChildByField(m, "name")),
        SpanSelect(ctx.src, OptList(ChildByField(m, "body")), true),
        SelectIn(ctx.src, m, "modifier"), sig, SyntaxPass(m), [], []))
  }

  /** The node of an optional child as a list of nodes (empty for none). */
  function OptList(n: Option<Node>): (r: seq<Node>)
    ensures n.None? <==> r == []
  {
    match n
    case None => []
    case Some(x) => [x]
  }

  /** The reasons a method record cannot be built, in the order
      `_parse_method_node` runs into them. */
  lemma MethodHeadFails(ctx: Context, m: Node, parent: Option<Node>)
    requires Placement(ctx, m, parent).Ok?
    ensures MethodHead(ctx, m, parent).Err? <==> m.children == [] || ParamIndex(m).None?
    ensures m.children == [] ==> MethodHead(ctx, m, parent) == Err(IndexError)
    ensures m.children != [] && ParamIndex(m).None? ==> MethodHead(ctx, m, parent) == Err(UnboundLocal)
  {
  }

  /** `_parse_method_node(m, parent)`: the head, then the records of the
      classes and methods directly in the body. */
  function ParseMethod(ctx: Context, m: Node, parent: Option<Node>): Result<MethodRecord>
    decreases m, 0
  {
    var head :- MethodHead(ctx, m, parent);
    match ChildByField(m, "body")
    case None => Ok(head)
    case Some(body) =>
      var classes :- NestedClasses(ctx, body, 0);
      var methods :- NestedMethods(ctx, body, 0);
      Ok(head.(classes := classes, methods := methods))
  }

  /** Everything `_parse_class_node(c, parent)` records about the class
      itself, its fields and properties included (the nested lists left
      empty): a class without an identifier child raises `ValueError`
      before anything else. */
  function ClassHead(ctx: Context, c: Node, parent: Option<Node>): Result<ClassRecord> {
    var defnEnd :- DefinitionEnd(c);
    var (prefix, parent') :- Placement(ctx, c, parent);
    var doc := DocText(ctx.src, DocstringRun(ctx.root, c, parent'), true);
    var body := ChildByField(c, "body");
    Ok(ClassRecord(
      ModuleType(c.kind), SpanSelect(ctx.src, [c], true), KeyOf(c),
      Shift(ctx, c.startPoint), Shift(ctx, c.endPoint),
      SpanSelect(ctx.src, c.children[..defnEnd], true), prefix,
      Attributes(ctx.src, c), doc, OptSpan(ctx.src, ChildByField(c, "name")),
      SpanSelect(ctx.src, OptList(body), true), SelectIn(ctx.src, c, "modifier"),
      Bases(ctx.src, ChildByField(c, "bases")), Fields(ctx, body), Properties(ctx, body),
      SyntaxPass(c), [], []))
  }

  /** `_parse_class_node(c, parent)`. */
  function ParseClass(ctx: Context, c: Node, parent: Option<Node>): Result<ClassRecord>
    decreases c, 0
  {
    var head :- ClassHead(ctx, c, parent);
    match ChildByField(c, "body")
    case None => Ok(head)
    case Some(body) =>
      var classes :- NestedClasses(ctx, body, 0);
      var methods :- NestedMethods(ctx, body, 0);
      Ok(head.(classes := classes, methods := methods))
  }

  /** The records of the class children of a body from position `i` on,
      in order; the first one that raises makes the list raise. */
  function NestedClasses(ctx: Context, body: Node, i: nat): Result<seq<ClassRecord>>
    requires i <= |body.children|
    decreases body, |body.children| - i
  {
    if i == |body.children| then Ok([])
    else if body.children[i].kind !in ClassTypes then NestedClasses(ctx, body, i + 1)
    else
      var r :- ParseClass(ctx, body.children[i], Some(body));
      var rest :- NestedClasses(ctx, body, i + 1);
      Ok([r] + rest)
  }

  /** The records of the method children of a body from position `i` on. */
  function NestedMethods(ctx: Context, body: Node, i: nat): Result<seq<MethodRecord>>
    requires i <= |body.children|
    decreases body, |body.children| - i
  {
    if i == |body.children| then Ok([])
    else if body.children[i].kind !in MethodTypes then NestedMethods(ctx, body, i + 1)
    else
      var r :- ParseMethod(ctx, body.children[i], Some(body));
      var rest :- NestedMethods(ctx, body, i + 1);
      Ok([r] + rest)
  }

  // ------------------------------------------------------------ the parser

  /** `CSharpParser` after `update`: the file, its tree and the namespace
      tables. */
  class CSharpParser {
    var src: String
    var root: Node
    var startingPoint: nat
    var node2namespace: map<Key, String>
    var node2parent: map<Key, Node>

    function Ctx(): Context
      reads this
    {
      Context(src, root, startingPoint, node2namespace, node2parent)
    }

    constructor (src: String, root: Node, startingPoint: nat)
      ensures this.src == src && this.root == root && this.startingPoint == startingPoint
      ensures Updated(Ctx(), CSharpFamily)
    {
      this.startingPoint := startingPoint;
      this.src := src;
      this.root := root;
      var t := new NamespaceTable(CSharpFamily, src, root);
      node2namespace := t.node2namespace;
      node2parent := t.node2parent;
    }

    /** `update(file_contents)`: a new file and its tree; the tables are
        rebuilt from scratch. */
    method Update(src: String, root: Node)
      modifies this
      ensures this.src == src && this.root == root && startingPoint == old(startingPoint)
      ensures Updated(Ctx(), CSharpFamily)
    {
      this.src := src;
      this.root := root;
      var t := new NamespaceTable(CSharpFamily, src, root);
      node2namespace := t.node2namespace;
      node2parent := t.node2parent;
    }
  }

  /** The head of `_parse_method_node(m, parent)`. */
  method MethodHeadOf(ctx: Context, m: Node, parent: Option<Node>) returns (r: Result<MethodRecord>)
    ensures r == MethodHead(ctx, m, parent)
  {
    var placed := Placement(ctx, m, parent);
    if placed.Err? { return Err(placed.error); }
    var (prefix, parent') := placed.value;
    var comments := GetDocstringBefore(ctx.root, m, parent');
    r := BuildMethod(ctx, m, prefix, DocText(ctx.src, comments, true));
  }

  /** The attribute, parameter and signature reads of `_parse_method_node`. */
  method BuildMethod(ctx: Context, m: Node, prefix: String, doc: String) returns (r: Result<MethodRecord>)
    ensures r == MethodParts(ctx, m, prefix, doc)
  {
    if |m.children| == 0 { return Err(IndexError); }
    var k := FindParamIndex(m);
    if k.None? { return Err(UnboundLocal); }
    var start := if m.children[0].kind == "attribute_list" then 1 else 0;
    var sig := SpanSelect(ctx.src, m.children[start..k.value + 1], true);
    return Ok(MethodRecord(
      SpanSelect(ctx.src, [m], true), KeyOf(m), Shift(ctx, m.startPoint), Shift(ctx, m.endPoint),
      prefix, Attributes(ctx.src, m), Parameters(ctx.src, m), doc,
      OptSpan(ctx.src, ChildByField(m, "type")), OptSpan(ctx.src, ChildByField(m, "name")),
      SpanSelect(ctx.src, OptList(ChildByField(m, "body")), true),
      SelectIn(ctx.src, m, "modifier"), sig, SyntaxPass(m), [], []));
  }

  /** `_parse_method_node(m, parent)`. */
  method ParseMethodNode(ctx: Context, m: Node, parent: Option<Node>) returns (r: Result<MethodRecord>)
    ensures r == ParseMethod(ctx, m, parent)
    decreases m, 0
  {
    var head := MethodHeadOf(ctx, m, parent);
    if head.Err? { return head; }
    var body := ChildByField(m, "body");
    if body.None? { return head; }
    var cs := ParseNestedClasses(ctx, body.value);
    if cs.Err? { return Err(cs.error); }
    var ms := ParseNestedMethods(ctx, body.value);
    if ms.Err? { return Err(ms.error); }
    return Ok(head.value.(classes := cs.value, methods := ms.value));
  }

  /** The head of `_parse_class_node(c, parent)`. */
  method ClassHeadOf(ctx: Context, c: Node, parent: Option<Node>) returns (r: Result<ClassRecord>)
    ensures r == ClassHead(ctx, c, parent)
  {
    var defnEnd := DefinitionEnd(c);
    if defnEnd.Err? { return Err(ValueError); }
    var placed := Placement(ctx, c, parent);
    if placed.Err? { return Err(placed.error); }
    var (prefix, parent') := placed.value;
    var comments := GetDocstringBefore(ctx.root, c, parent');
    var doc := DocText(ctx.src, comments, true);
    var body := ChildByField(c, "body");
    var fields: seq<FieldRecord> := [];
    var properties: seq<PropertyRecord> := [];
    if body.Some? {
      fields := ScanFields(ctx, body.value);
      properties := ScanProperties(ctx, body.value);
    }
    return Ok(ClassRecord(
      ModuleType(c.kind), SpanSelect(ctx.src, [c], true), KeyOf(c),
      Shift(ctx, c.startPoint), Shift(ctx, c.endPoint),
      SpanSelect(ctx.src, c.children[..defnEnd.value], true), prefix,
      Attributes(ctx.src, c), doc, OptSpan(ctx.src, ChildByField(c, "name")),
      SpanSelect(ctx.src, OptList(body), true), SelectIn(ctx.src, c, "modifier"),
      Bases(ctx.src, ChildByField(c, "bases")), fields, properties,
      SyntaxPass(c), [], []));
  }

  /** `_parse_class_node(c, parent)`. */
  method ParseClassNode(ctx: Context, c: Node, parent: Option<Node>) returns (r: Result<ClassRecord>)
    ensures r == ParseClass(ctx, c, parent)
    decreases c, 0
  {
    var head := ClassHeadOf(ctx, c, parent);
    if head.Err? { return head; }
    var body := ChildByField(c, "body");
    if body.None? { return head; }
    var cs := ParseNestedClasses(ctx, body.value);
    if cs.Err? { return Err(cs.error); }
    var ms := ParseNestedMethods(ctx, body.value);
    if ms.Err? { return Err(ms.error); }
    return Ok(head.value.(classes := cs.value, methods := ms.value));
  }

  /** `[self._parse_class_node(c, body) for c in children_of_type(body, ...)]`. */
  method ParseNestedClasses(ctx: Context, body: Node) returns (r: Result<seq<ClassRecord>>)
    ensures r == NestedClasses(ctx, body, 0)
    decreases body, |body.children| + 1
  {
    var out: seq<ClassRecord> := [];
    PrependNothing(NestedClasses(ctx, body, 0));
    for i := 0 to |body.children|
      invariant NestedClasses(ctx, body, 0) == Prepend(out, NestedClasses(ctx, body, i))
    {
      var next := NextClass(ctx, body, i);
      if next.Err? {
        return Err(next.error);
      }
      if next.value.Some? {
        PrependTwice(out, [next.value.value], NestedClasses(ctx, body, i + 1));
        out := out + [next.value.value];
      }
    }
    assert out + [] == out;
    return Ok(out);
  }

  /** The record of child `i` when it is a class. */
  method NextClass(ctx: Context, body: Node, i: nat) returns (r: Result<Option<ClassRecord>>)
    requires i < |body.children|
    ensures NestedClasses(ctx, body, i) ==
      match r
      case Err(e) => Err(e)
      case Ok(None) => NestedClasses(ctx, body, i + 1)
      case Ok(Some(x)) => Prepend([x], NestedClasses(ctx, body, i + 1))
    decreases body, |body.children| - i
  {
    if body.children[i].kind !in ClassTypes { return Ok(None); }
    var c := ParseClassNode(ctx, body.children[i], Some(body));
    if c.Err? { return Err(c.error); }
    return Ok(Some(c.value));
  }

  /** `[self._parse_method_node(c, body) for c in children_of_type(body, ...)]`. */
  method ParseNestedMethods(ctx: Context, body: Node) returns (r: Result<seq<MethodRecord>>)
    ensures r == NestedMethods(ctx, body, 0)
    decreases body, |body.children| + 1
  {
    var out: seq<MethodRecord> := [];
    PrependNothing(NestedMethods(ctx, body, 0));
    for i := 0 to |body.children|
      invariant NestedMethods(ctx, body, 0) == Prepend(out, NestedMethods(ctx, body, i))
    {
      var next := NextMethod(ctx, body, i);
      if next.Err? {
        return Err(next.error);
      }
      if next.value.Some? {
        PrependTwice(out, [next.value.value], NestedMethods(ctx, body, i + 1));
        out := out + [next.value.value];
      }
    }
    assert out + [] == out;
    return Ok(out);
  }

  /** The record of child `i` when it is a method. */
  method NextMethod(ctx: Context, body: Node, i: nat) returns (r: Result<Option<MethodRecord>>)
    requires i < |body.children|
    ensures NestedMethods(ctx, body, i) ==
      match r
      case Err(e) => Err(e)
      case Ok(None) => NestedMethods(ctx, body, i + 1)
      case Ok(Some(x)) => Prepend([x], NestedMethods(ctx, body, i + 1))
    decreases body, |body.children| - i
  {
    if body.children[i].kind !in MethodTypes { return Ok(None); }
    var m := ParseMethodNode(ctx, body.children[i], Some(body));
    if m.Err? { return Err(m.error); }
    return Ok(Some(m.value));
  }
}
