/** The C++ schema extractor: the method, class and field records built from
    a tree by `CppParser`, with the namespace tables filled by `update`.
 */
module Cpp {
  import opened Wrappers
  import opened Text
  import opened Tree
  import opened Schema
  import opened Namespaces
  import opened CFamily
  import opened CommentUtils

  const MethodTypes: set<String> := {"function_definition"}
  const ClassTypes: set<String> := {"class_specifier"}
  const ImportTypes: set<String> := {"preproc_include", "preproc_def", "preproc_call"}
  const NamespaceTypes: set<String> := {"namespace_definition"}

  /** The specifiers collected as method annotations before the declarator. */
  const Specifiers: set<String> :=
    {"storage_class_specifier", "virtual_function_specifier", "explicit_function_specifier"}

  /** The access a class member has when no `access_specifier` precedes it. */
  const DefaultAccess: String := "private"

  datatype FieldRecord = FieldRecord(
    originalString: String,
    annotations: seq<String>,
    docstring: String,
    fieldType: String,
    syntaxPass: bool)

  datatype MethodRecord = MethodRecord(
    originalString: String,
    byteSpan: Key,
    startPoint: Point,
    endPoint: Point,
    signature: String,
    namespacePrefix: String,
    annotations: seq<String>,
    returnType: String,
    docstring: String,
    body: String,
    name: String,
    syntaxPass: bool,
    classes: seq<ClassRecord>,
    methods: seq<MethodRecord>)

  datatype ClassRecord = ClassRecord(
    originalString: String,
    byteSpan: Key,
    startPoint: Point,
    endPoint: Point,
    namespacePrefix: String,
    annotations: seq<String>,
    fields: seq<FieldRecord>,
    docstring: String,
    name: String,
    body: String,
    syntaxPass: bool,
    classes: seq<ClassRecord>,
    methods: seq<MethodRecord>)

  // ------------------------------------------------------------ docstrings

  /** `_get_docstring_before(node, parent)`: the sibling just before `node` in
      `parent` (the root when there is none), when it is a comment. */
  function DocstringBefore(root: Node, n: Node, parent: Option<Node>): (r: Option<Node>)
    ensures r.Some? <==> PreviousSibling(n, parent.GetOr(root)).Some?
                         && PreviousSibling(n, parent.GetOr(root)).value.kind == "comment"
    ensures r.Some? ==> r == PreviousSibling(n, parent.GetOr(root))
  {
    match PreviousSibling(n, parent.GetOr(root))
    case None => None
    case Some(s) => if s.kind == "comment" then Some(s) else None
  }

  /** A docstring's text: the comment without its delimiters, stripped; ""
      when there is no comment. */
  function DocText(src: String, c: Option<Node>): String {
    match c
    case None => []
    case Some(n) => Strip(StripCStyleDelimiters(Span(src, n)))
  }

  // ------------------------------------------------------ candidate nodes

  function ClassNodes(root: Node): seq<Node> { Candidates(root, NamespaceTypes, ClassTypes) }
  function MethodNodes(root: Node): seq<Node> { Candidates(root, NamespaceTypes, MethodTypes) }

  // ------------------------------------------------------------ signature

  /** Where the signature stops: the first `compound_statement` child. */
  function SignatureEnd(m: Node): (k: nat)
    ensures k <= |m.children|
    ensures forall j :: 0 <= j < k ==> m.children[j].kind != "compound_statement"
    ensures k < |m.children| ==> m.children[k].kind == "compound_statement"
  {
    FirstOfKind(m.children, "compound_statement").GetOr(|m.children|)
  }

  /** `_get_signature`: the text of the children before the first
      `compound_statement` (all of them when there is none), "" when the
      method starts with its body. */
  method Signature(src: String, m: Node) returns (sig: String)
    ensures sig == SpanSelect(src, m.children[..SignatureEnd(m)], false)
    ensures SignatureEnd(m) == 0 ==> sig == []
  {
    var nodes: seq<Node> := [];
    var i := 0;
    while i < |m.children|
      invariant i <= SignatureEnd(m)
      invariant nodes == m.children[..i]
      decreases |m.children| - i
    {
      if m.children[i].kind == "compound_statement" {
        return if |nodes| > 0 then SpanSelect(src, nodes, false) else [];
      }
      nodes := nodes + [m.children[i]];
      i := i + 1;
    }
    assert nodes == m.children[..|m.children|];
    return if |nodes| > 0 then SpanSelect(src, nodes, false) else [];
  }

  // --------------------------------------------------------------- access

  /** The access in force after the members `cs`: the text of the first
      child of the last `access_specifier`, "private" when there is none;
      reading the first child of a childless specifier raises `IndexError`. */
  function AccessOf(src: String, cs: seq<Node>): Result<String> {
    if cs == [] then Ok(DefaultAccess)
    else
      var a :- AccessOf(src, cs[..|cs| - 1]);
      var last := cs[|cs| - 1];
      if last.kind != "access_specifier" then Ok(a)
      else if last.children == [] then Err(IndexError)
      else Ok(Span(src, last.children[0]))
  }

  /** The access annotation a member of `parent` gets: the access in force
      before it, None when it is not a child (the whole list is still
      scanned). */
  function MemberAccess(src: String, parent: Node, target: Node): Result<Option<String>> {
    match ChildIndex(parent, target)
    case Some(k) => var a :- AccessOf(src, parent.children[..k]); Ok(Some(a))
    case None => var _ :- AccessOf(src, parent.children); Ok(None)
  }

  predicate Childless(n: Node) { n.kind == "access_specifier" && n.children == [] }

  /** Scanning raises exactly when some specifier has no children. */
  lemma {:induction false} AccessFails(src: String, cs: seq<Node>)
    ensures AccessOf(src, cs).Err? <==> exists j :: 0 <= j < |cs| && Childless(cs[j])
    ensures AccessOf(src, cs).Err? ==> AccessOf(src, cs).error == IndexError
  {
    if cs != [] {
      var init := cs[..|cs| - 1];
      AccessFails(src, init);
      assert forall j :: 0 <= j < |init| ==> init[j] == cs[j];
      if exists j :: 0 <= j < |init| && Childless(init[j]) {
        var j :| 0 <= j < |init| && Childless(init[j]);
        assert Childless(cs[j]);
      }
    }
  }

  /** With no specifier among the members, the access is "private". */
  lemma {:induction false} AccessDefault(src: String, cs: seq<Node>)
    requires forall j :: 0 <= j < |cs| ==> cs[j].kind != "access_specifier"
    ensures AccessOf(src, cs) == Ok(DefaultAccess)
  {
    if cs != [] {
      AccessDefault(src, cs[..|cs| - 1]);
    }
  }

  /** The access is set by the most recent specifier. */
  lemma {:induction false} AccessIsMostRecent(src: String, cs: seq<Node>, j: nat)
    requires j < |cs| && cs[j].kind == "access_specifier" && cs[j].children != []
    requires forall q :: j < q < |cs| ==> cs[q].kind != "access_specifier"
    requires forall q :: 0 <= q < |cs| ==> !Childless(cs[q])
    ensures AccessOf(src, cs) == Ok(Span(src, cs[j].children[0]))
  {
    var init := cs[..|cs| - 1];
    AccessFails(src, init);
    if j < |cs| - 1 {
      AccessIsMostRecent(src, init, j);
    }
  }

  /** The access store after one more member. */
  lemma AccessStep(src: String, cs: seq<Node>, i: nat)
    requires i < |cs|
    ensures AccessOf(src, cs[..i + 1]) ==
      (match AccessOf(src, cs[..i])
       case Err(e) => Err(e)
       case Ok(a) =>
         if cs[i].kind != "access_specifier" then Ok(a)
         else if cs[i].children == [] then Err(IndexError)
         else Ok(Span(src, cs[i].children[0])))
  {
    assert cs[..i + 1][..i] == cs[..i];
  }

  /** The access scan of `_parse_method_node` and `_parse_class_node`:
      walk the parent's children up to the member, tracking the access. */
  method ScanAccess(src: String, parent: Node, target: Node) returns (r: Result<Option<String>>)
    ensures r == MemberAccess(src, parent, target)
  {
    var access := DefaultAccess;
    var i := 0;
    while i < |parent.children|
      invariant i <= |parent.children|
      invariant forall j :: 0 <= j < i ==> parent.children[j] != target
      invariant AccessOf(src, parent.children[..i]) == Ok(access)
      decreases |parent.children| - i
    {
      var child := parent.children[i];
      AccessStep(src, parent.children, i);
      if child == target {
        assert ChildIndex(parent, target) == Some(i);
        return Ok(Some(access));
      }
      if child.kind == "access_specifier" {
        if child.children == [] {
          ghost var k := match ChildIndex(parent, target) case Some(k) => k case None => |parent.children|;
          PrefixErrSpreads(src, parent.children, i + 1);
          AccessFails(src, parent.children[..k]);
          assert parent.children[..|parent.children|] == parent.children;
          return Err(IndexError);
        }
        access := Span(src, child.children[0]);
      }
      i := i + 1;
    }
    assert parent.children[..i] == parent.children;
    return Ok(None);
  }

  /** A childless specifier before the member makes the scan raise whether
      or not the member is found. */
  lemma PrefixErrSpreads(src: String, cs: seq<Node>, k: nat)
    requires k <= |cs| && AccessOf(src, cs[..k]).Err?
    ensures forall m :: k <= m <= |cs| ==> AccessOf(src, cs[..m]).Err?
  {
    forall m | k <= m <= |cs| ensures AccessOf(src, cs[..m]).Err? {
      AccessFails(src, cs[..k]);
      var j :| 0 <= j < k && Childless(cs[..k][j]);
      assert cs[..m][j] == cs[j];
      AccessFails(src, cs[..m]);
    }
  }

  // ----------------------------------------------------------- annotations

  /** Where the annotation scan stops: the first `function_declarator`. */
  function DeclaratorAt(m: Node): (k: nat)
    ensures k <= |m.children|
  {
    FirstOfKind(m.children, "function_declarator").GetOr(|m.children|)
  }

  /** "const": the declarator's last child, when it is a type qualifier. */
  function TrailingQualifier(src: String, d: Node): seq<String> {
    if d.children != [] && d.children[|d.children| - 1].kind == "type_qualifier"
    then [Span(src, d.children[|d.children| - 1])]
    else []
  }

  /** The qualifier of the method's declarator, if it has one. */
  function Qualifier(src: String, m: Node): seq<String> {
    var d := DeclaratorAt(m);
    if d < |m.children| then TrailingQualifier(src, m.children[d]) else []
  }

  /** The specifiers among the first `i` children, as text. */
  function SpecifierTexts(src: String, cs: seq<Node>): seq<String> {
    Select(src, KeepKinds(cs, Specifiers), false)
  }

  /** The annotations of a method besides its access: the storage, virtual
      and explicit specifiers written before the declarator, in order, then
      the declarator's trailing qualifier. */
  function Annotations(src: String, m: Node): seq<String> {
    SpecifierTexts(src, m.children[..DeclaratorAt(m)]) + Qualifier(src, m)
  }

  lemma SpecifierTextsStep(src: String, cs: seq<Node>, i: nat)
    requires i < |cs|
    ensures SpecifierTexts(src, cs[..i + 1]) ==
      SpecifierTexts(src, cs[..i]) + (if cs[i].kind in Specifiers then [Span(src, cs[i])] else [])
  {
    assert cs[..i + 1][..i] == cs[..i];
    assert KeepKinds(cs[..i + 1], Specifiers) ==
      KeepKinds(cs[..i], Specifiers) + (if cs[i].kind in Specifiers then [cs[i]] else []);
    if cs[i].kind in Specifiers {
      SelectSnoc(src, KeepKinds(cs[..i], Specifiers), cs[i], false);
    } else {
      assert KeepKinds(cs[..i + 1], Specifiers) == KeepKinds(cs[..i], Specifiers);
    }
  }

  /** The annotation loop of `_parse_method_node`. */
  method ScanAnnotations(src: String, m: Node) returns (anns: seq<String>)
    ensures anns == Annotations(src, m)
  {
    anns := [];
    var i := 0;
    while i < |m.children|
      invariant i <= |m.children|
      invariant forall j :: 0 <= j < i ==> m.children[j].kind != "function_declarator"
      invariant anns == SpecifierTexts(src, m.children[..i])
      decreases |m.children| - i
    {
      var child := m.children[i];
      if child.kind == "function_declarator" {
        AnnotationsAt(src, m, i);
        var q := QualifierOf(src, child);
        anns := anns + q;
        return;
      }
      anns := AddSpecifier(src, m.children, i, anns);
      i := i + 1;
    }
    AnnotationsAt(src, m, i);
  }

  /** One pass of the annotation loop over a child that is not the
      declarator: a specifier's text is appended. */
  method AddSpecifier(src: String, cs: seq<Node>, i: nat, anns: seq<String>) returns (r: seq<String>)
    requires i < |cs| && anns == SpecifierTexts(src, cs[..i])
    ensures r == SpecifierTexts(src, cs[..i + 1])
  {
    SpecifierTextsStep(src, cs, i);
    r := anns;
    if cs[i].kind in Specifiers {
      r := anns + [Span(src, cs[i])];
    }
  }

  /** The annotations, when the declarator is child `i` (or there is none
      and `i` is the number of children). */
  lemma AnnotationsAt(src: String, m: Node, i: nat)
    requires i <= |m.children|
    requires forall j :: 0 <= j < i ==> m.children[j].kind != "function_declarator"
    requires i < |m.children| ==> m.children[i].kind == "function_declarator"
    ensures Annotations(src, m) ==
      SpecifierTexts(src, m.children[..i]) + (if i < |m.children| then TrailingQualifier(src, m.children[i]) else [])
  {
    DeclaratorAtIs(m, i);
  }

  /** The `const` check on the declarator. */
  method QualifierOf(src: String, d: Node) returns (q: seq<String>)
    ensures q == TrailingQualifier(src, d)
  {
    q := [];
    if |d.children| > 0 && d.children[|d.children| - 1].kind == "type_qualifier" {
      q := [Span(src, d.children[|d.children| - 1])];
    }
  }

  /** The declarator is the first child of its type. */
  lemma DeclaratorAtIs(m: Node, i: nat)
    requires i <= |m.children|
    requires forall j :: 0 <= j < i ==> m.children[j].kind != "function_declarator"
    requires i < |m.children| ==> m.children[i].kind == "function_declarator"
    ensures DeclaratorAt(m) == i
  {
    var k := FirstOfKind(m.children, "function_declarator");
    if i < |m.children| {
      assert k.Some?;
    } else {
      assert k.None?;
    }
  }

  // --------------------------------------------------------------- fields

  /** One entry of `fields`: the declaration's text, the access in force
      (plus its storage class when it starts with one), the comment before
      it in the class body, its type; reading its first child raises
      `IndexError` when it has none. */
  function MakeField(ctx: Context, body: Node, f: Node, access: String): Result<FieldRecord> {
    if f.children == [] then Err(IndexError) else
      var storage := if f.children[0].kind == "storage_class_specifier" then [Span(ctx.src, f.children[0])] else [];
      Ok(FieldRecord(
        Span(ctx.src, f),
        [access] + storage,
        DocText(ctx.src, DocstringBefore(ctx.root, f, Some(body))),
        OptSpan(ctx.src, ChildByField(f, "type")),
        SyntaxPass(f)))
  }

  /** The field records of the first `i` members of a class body. */
  function FieldsUpTo(ctx: Context, body: Node, i: nat): Result<seq<FieldRecord>>
    requires i <= |body.children|
  {
    if i == 0 then Ok([]) else
      var prev :- FieldsUpTo(ctx, body, i - 1);
      var access :- AccessOf(ctx.src, body.children[..i]);
      var f := body.children[i - 1];
      if f.kind != "field_declaration" then Ok(prev)
      else var rec :- MakeField(ctx, body, f, access); Ok(prev + [rec])
  }

  /** A field's first annotation is the access set by the closest
      specifier before it, "private" when there is none. */
  lemma FieldAnnotations(ctx: Context, body: Node, f: Node, access: String)
    requires MakeField(ctx, body, f, access).Ok?
    ensures f.children != []
    ensures MakeField(ctx, body, f, access).value.annotations ==
      [access] + (if f.children[0].kind == "storage_class_specifier" then [Span(ctx.src, f.children[0])] else [])
  {
  }

  /** The field loop of `_parse_class_node`. */
  method ScanFields(ctx: Context, body: Node) returns (r: Result<seq<FieldRecord>>)
    ensures r == FieldsUpTo(ctx, body, |body.children|)
  {
    var fields: seq<FieldRecord> := [];
    var access := DefaultAccess;
    var i := 0;
    while i < |body.children|
      invariant i <= |body.children|
      invariant FieldsUpTo(ctx, body, i) == Ok(fields)
      invariant AccessOf(ctx.src, body.children[..i]) == Ok(access)
      decreases |body.children| - i
    {
      var step := FieldStep(ctx, body, i, fields, access);
      if step.Err? {
        return Err(IndexError);
      }
      fields, access := step.value.0, step.value.1;
      i := i + 1;
    }
    return Ok(fields);
  }

  /** One pass of the field loop over member `i`: the access it sets and
      the record it adds. */
  method FieldStep(ctx: Context, body: Node, i: nat, fields: seq<FieldRecord>, access: String)
    returns (r: Result<(seq<FieldRecord>, String)>)
    requires i < |body.children|
    requires FieldsUpTo(ctx, body, i) == Ok(fields)
    requires AccessOf(ctx.src, body.children[..i]) == Ok(access)
    ensures r.Err? ==> FieldsUpTo(ctx, body, |body.children|) == Err(IndexError)
    ensures r.Ok? ==> (FieldsUpTo(ctx, body, i + 1) == Ok(r.value.0)
      && AccessOf(ctx.src, body.children[..i + 1]) == Ok(r.value.1))
  {
    var f := body.children[i];
    AccessStep(ctx.src, body.children, i);
    var a := access;
    if f.kind == "access_specifier" {
      if f.children == [] {
        FieldsErrSpreads(ctx, body, i + 1);
        return Err(IndexError);
      }
      a := Span(ctx.src, f.children[0]);
    }
    if f.kind == "field_declaration" {
      var rec := MakeField(ctx, body, f, a);
      if rec.Err? {
        FieldsErrSpreads(ctx, body, i + 1);
        return Err(IndexError);
      }
      return Ok((fields + [rec.value], a));
    }
    return Ok((fields, a));
  }

  /** Once a member raises, the whole field loop raises `IndexError`. */
  lemma {:induction false} FieldsErrSpreads(ctx: Context, body: Node, k: nat)
    requires 0 < k <= |body.children|
    requires FieldsUpTo(ctx, body, k - 1).Ok?
    requires AccessOf(ctx.src, body.children[..k]).Err?
      || (AccessOf(ctx.src, body.children[..k]).Ok? && body.children[k - 1].kind == "field_declaration"
          && MakeField(ctx, body, body.children[k - 1], AccessOf(ctx.src, body.children[..k]).value).Err?)
    ensures FieldsUpTo(ctx, body, |body.children|) == Err(IndexError)
  {
    FieldsErrAt(ctx, body, k);
    FieldsErrFrom(ctx, body, k, |body.children|);
  }

  /** The member that raises makes the loop raise `IndexError` there. */
  lemma FieldsErrAt(ctx: Context, body: Node, k: nat)
    requires 0 < k <= |body.children|
    requires FieldsUpTo(ctx, body, k - 1).Ok?
    requires AccessOf(ctx.src, body.children[..k]).Err?
      || (AccessOf(ctx.src, body.children[..k]).Ok? && body.children[k - 1].kind == "field_declaration"
          && MakeField(ctx, body, body.children[k - 1], AccessOf(ctx.src, body.children[..k]).value).Err?)
    ensures FieldsUpTo(ctx, body, k) == Err(IndexError)
  {
    AccessFails(ctx.src, body.children[..k]);
  }

  /** A raised `IndexError` is kept by every later member. */
  lemma {:induction false} FieldsErrFrom(ctx: Context, body: Node, k: nat, m: nat)
    requires k <= m <= |body.children|
    requires FieldsUpTo(ctx, body, k) == Err(IndexError)
    ensures FieldsUpTo(ctx, body, m) == Err(IndexError)
    decreases m
  {
    if m > k {
      FieldsErrFrom(ctx, body, k, m - 1);
    }
  }

  // -------------------------------------------------------------- records

  /** The access annotation of a member whose parent is a class body. */
  function AccessAnnotation(ctx: Context, n: Node, parent: Option<Node>): Result<seq<String>> {
    if parent.Some? && parent.value.kind == "field_declaration_list" then
      var a :- MemberAccess(ctx.src, parent.value, n);
      Ok(if a.Some? then [a.value] else [])
    else Ok([])
  }

  /** Everything `_parse_method_node(m, parent)` records about the method
      itself (the nested lists left empty), and the body it descends into. */
  function MethodHead(ctx: Context, m: Node, parent: Option<Node>): Result<MethodRecord> {
    var (prefix, parent') :- Placement(ctx, m, parent);
    var doc := DocText(ctx.src, DocstringBefore(ctx.root, m, parent'));
    var declarator := ChildByField(m, "declarator");
    if declarator.None? then Err(AttributeError) else
      var name := OptSpan(ctx.src, ChildByField(declarator.value, "declarator"));
      var access :- AccessAnnotation(ctx, m, parent');
      Ok(MethodRecord(
        Span(ctx.src, m), KeyOf(m), Shift(ctx, m.startPoint), Shift(ctx, m.endPoint),
        SpanSelect(ctx.src, m.children[..SignatureEnd(m)], false),
        prefix, access + Annotations(ctx.src, m),
        OptSpan(ctx.src, ChildByField(m, "type")),
        doc, OptSpan(ctx.src, ChildByField(m, "body")), name, SyntaxPass(m), [], []))
  }

  /** `_parse_method_node(m, parent)`: the head, then the records of the
      classes and methods directly in the body. */
  function ParseMethod(ctx: Context, m: Node, parent: Option<Node>): Result<MethodRecord>
    decreases m, 0
  {
    var head :- MethodHead(ctx, m, parent);
    match ChildByField(m, "body")
    case None => Ok(head)
    case Some(body) =>
      var classes :- NestedClasses(ctx, body, 0);
      var methods :- NestedMethods(ctx, body, 0);
      Ok(head.(classes := classes, methods := methods))
  }

  /** Everything `_parse_class_node(c, parent)` records about the class
      itself, its fields included (the nested lists left empty). */
  function ClassHead(ctx: Context, c: Node, parent: Option<Node>): Result<ClassRecord> {
    var (prefix, parent') :- Placement(ctx, c, parent);
    var doc := DocText(ctx.src, DocstringBefore(ctx.root, c, parent'));
    var body := ChildByField(c, "body");
    var access :- AccessAnnotation(ctx, c, parent');
    var fields :- (if body.Some? then FieldsUpTo(ctx, body.value, |body.value.children|) else Ok([]));
    Ok(ClassRecord(
      Span(ctx.src, c), KeyOf(c), Shift(ctx, c.startPoint), Shift(ctx, c.endPoint),
      prefix, access, fields, doc,
      OptSpan(ctx.src, ChildByField(c, "name")), OptSpan(ctx.src, body),
      SyntaxPass(c), [], []))
  }

  /** `_parse_class_node(c, parent)`. */
  function ParseClass(ctx: Context, c: Node, parent: Option<Node>): Result<ClassRecord>
    decreases c, 0
  {
    var head :- ClassHead(ctx, c, parent);
    match ChildByField(c, "body")
    case None => Ok(head)
    case Some(body) =>
      var classes :- NestedClasses(ctx, body, 0);
      var methods :- NestedMethods(ctx, body, 0);
      Ok(head.(classes := classes, methods := methods))
  }

  /** The records of the class children of a body from position `i` on,
      in order; the first one that raises makes the list raise. */
  function NestedClasses(ctx: Context, body: Node, i: nat): Result<seq<ClassRecord>>
    requires i <= |body.children|
    decreases body, |body.children| - i
  {
    if i == |body.children| then Ok([])
    else if body.children[i].kind !in ClassTypes then NestedClasses(ctx, body, i + 1)
    else
      var r :- ParseClass(ctx, body.children[i], Some(body));
      var rest :- NestedClasses(ctx, body, i + 1);
      Ok([r] + rest)
  }

  /** The records of the method children of a body from position `i` on. */
  function NestedMethods(ctx: Context, body: Node, i: nat): Result<seq<MethodRecord>>
    requires i <= |body.children|
    decreases body, |body.children| - i
  {
    if i == |body.children| then Ok([])
    else if body.children[i].kind !in MethodTypes then NestedMethods(ctx, body, i + 1)
    else
      var r :- ParseMethod(ctx, body.children[i], Some(body));
      var rest :- NestedMethods(ctx, body, i + 1);
      Ok([r] + rest)
  }

  // ------------------------------------------------------------ the parser

  /** `CppParser` after `update`: the file, its tree and the namespace tables. */
  class CppParser {
    var src: String
    var root: Node
    var startingPoint: nat
    var node2namespace: map<Key, String>
    var node2parent: map<Key, Node>

    function Ctx(): Context
      reads this
    {
      Context(src, root, startingPoint, node2namespace, node2parent)
    }

    constructor (src: String, root: Node, startingPoint: nat)
      ensures this.src == src && this.root == root && this.startingPoint == startingPoint
      ensures Updated(Ctx(), CppFamily)
    {
      this.startingPoint := startingPoint;
      this.src := src;
      this.root := root;
      var t := new NamespaceTable(CppFamily, src, root);
      node2namespace := t.node2namespace;
      node2parent := t.node2parent;
    }

    /** `update(file_contents)`: a new file and its tree; the tables are
        rebuilt from scratch. */
    method Update(src: String, root: Node)
      modifies this
      ensures this.src == src && this.root == root && startingPoint == old(startingPoint)
      ensures Updated(Ctx(), CppFamily)
    {
      this.src := src;
      this.root := root;
      var t := new NamespaceTable(CppFamily, src, root);
      node2namespace := t.node2namespace;
      node2parent := t.node2parent;
    }
  }

  /** The head of `_parse_method_node(m, parent)`. */
  method MethodHeadOf(ctx: Context, m: Node, parent: Option<Node>) returns (r: Result<MethodRecord>)
    ensures r == MethodHead(ctx, m, parent)
  {
    var placed := Placement(ctx, m, parent);
    if placed.Err? { return Err(placed.error); }
    var (prefix, parent') := placed.value;
    var doc := DocText(ctx.src, DocstringBefore(ctx.root, m, parent'));
    var declarator := ChildByField(m, "declarator");
    if declarator.None? { return Err(AttributeError); }
    var name := OptSpan(ctx.src, ChildByField(declarator.value, "declarator"));
    var access := Access(ctx, m, parent');
    if access.Err? { return Err(access.error); }
    var anns := ScanAnnotations(ctx.src, m);
    var sig := Signature(ctx.src, m);
    return Ok(MethodRecord(
      Span(ctx.src, m), KeyOf(m), Shift(ctx, m.startPoint), Shift(ctx, m.endPoint),
      sig, prefix, access.value + anns, OptSpan(ctx.src, ChildByField(m, "type")),
      doc, OptSpan(ctx.src, ChildByField(m, "body")), name, SyntaxPass(m), [], []));
  }

  /** The access annotation of a member, scanned when its parent is a
      class body. */
  method Access(ctx: Context, n: Node, parent: Option<Node>) returns (r: Result<seq<String>>)
    ensures r == AccessAnnotation(ctx, n, parent)
  {
    if parent.Some? && parent.value.kind == "field_declaration_list" {
      var a := ScanAccess(ctx.src, parent.value, n);
      if a.Err? { return Err(a.error); }
      return Ok(if a.value.Some? then [a.value.value] else []);
    }
    return Ok([]);
  }

  /** `_parse_method_node(m, parent)`. */
  method ParseMethodNode(ctx: Context, m: Node, parent: Option<Node>) returns (r: Result<MethodRecord>)
    ensures r == ParseMethod(ctx, m, parent)
    decreases m, 0
  {
    var head := MethodHeadOf(ctx, m, parent);
    if head.Err? { return head; }
    var body := ChildByField(m, "body");
    if body.None? { return head; }
    var cs := ParseNestedClasses(ctx, body.value);
    if cs.Err? { return Err(cs.error); }
    var ms := ParseNestedMethods(ctx, body.value);
    if ms.Err? { return Err(ms.error); }
    return Ok(head.value.(classes := cs.value, methods := ms.value));
  }

  /** The head of `_parse_class_node(c, parent)`. */
  method ClassHeadOf(ctx: Context, c: Node, parent: Option<Node>) returns (r: Result<ClassRecord>)
    ensures r == ClassHead(ctx, c, parent)
  {
    var placed := Placement(ctx, c, parent);
    if placed.Err? { return Err(placed.error); }
    var (prefix, parent') := placed.value;
    var doc := DocText(ctx.src, DocstringBefore(ctx.root, c, parent'));
    var body := ChildByField(c, "body");
    var access := Access(ctx, c, parent');
    if access.Err? { return Err(access.error); }
    var fields: seq<FieldRecord> := [];
    if body.Some? {
      var fs := ScanFields(ctx, body.value);
      if fs.Err? { return Err(fs.error); }
      fields := fs.value;
    }
    return Ok(ClassRecord(
      Span(ctx.src, c), KeyOf(c), Shift(ctx, c.startPoint), Shift(ctx, c.endPoint),
      prefix, access.value, fields, doc,
      OptSpan(ctx.src, ChildByField(c, "name")), OptSpan(ctx.src, body),
      SyntaxPass(c), [], []));
  }

  /** `_parse_class_node(c, parent)`. */
  method ParseClassNode(ctx: Context, c: Node, parent: Option<Node>) returns (r: Result<ClassRecord>)
    ensures r == ParseClass(ctx, c, parent)
    decreases c, 0
  {
    var head := ClassHeadOf(ctx, c, parent);
    if head.Err? { return head; }
    var body := ChildByField(c, "body");
    if body.None? { return head; }
    var cs := ParseNestedClasses(ctx, body.value);
    if cs.Err? { return Err(cs.error); }
    var ms := ParseNestedMethods(ctx, body.value);
    if ms.Err? { return Err(ms.error); }
    return Ok(head.value.(classes := cs.value, methods := ms.value));
  }

  /** `[self._parse_class_node(c, body) for c in children_of_type(body, ...)]`. */
  method ParseNestedClasses(ctx: Context, body: Node) returns (r: Result<seq<ClassRecord>>)
    ensures r == NestedClasses(ctx, body, 0)
    decreases body, |body.children| + 1
  {
    var out: seq<ClassRecord> := [];
    PrependNothing(NestedClasses(ctx, body, 0));
    for i := 0 to |body.children|
      invariant NestedClasses(ctx, body, 0) == Prepend(out, NestedClasses(ctx, body, i))
    {
      var next := NextClass(ctx, body, i);
      if next.Err? {
        return Err(next.error);
      }
      if next.value.Some? {
        PrependTwice(out, [next.value.value], NestedClasses(ctx, body, i + 1));
        out := out + [next.value.value];
      }
    }
    assert out + [] == out;
    return Ok(out);
  }

  /** The record of child `i` when it is a class. */
  method NextClass(ctx: Context, body: Node, i: nat) returns (r: Result<Option<ClassRecord>>)
    requires i < |body.children|
    ensures NestedClasses(ctx, body, i) ==
      match r
      case Err(e) => Err(e)
      case Ok(None) => NestedClasses(ctx, body, i + 1)
      case Ok(Some(x)) => Prepend([x], NestedClasses(ctx, body, i + 1))
    decreases body, |body.children| - i
  {
    if body.children[i].kind !in ClassTypes { return Ok(None); }
    var c := ParseClassNode(ctx, body.children[i], Some(body));
    if c.Err? { return Err(c.error); }
    return Ok(Some(c.value));
  }

  /** `[self._parse_method_node(c, body) for c in children_of_type(body, ...)]`. */
  method ParseNestedMethods(ctx: Context, body: Node) returns (r: Result<seq<MethodRecord>>)
    ensures r == NestedMethods(ctx, body, 0)
    decreases body, |body.children| + 1
  {
    var out: seq<MethodRecord> := [];
    PrependNothing(NestedMethods(ctx, body, 0));
    for i := 0 to |body.children|
      invariant NestedMethods(ctx, body, 0) == Prepend(out, NestedMethods(ctx, body, i))
    {
      var next := NextMethod(ctx, body, i);
      if next.Err? {
        return Err(next.error);
      }
      if next.value.Some? {
        PrependTwice(out, [next.value.value], NestedMethods(ctx, body, i + 1));
        out := out + [next.value.value];
      }
    }
    assert out + [] == out;
    return Ok(out);
  }

  /** The record of child `i` when it is a method. */
  method NextMethod(ctx: Context, body: Node, i: nat) returns (r: Result<Option<MethodRecord>>)
    requires i < |body.children|
    ensures NestedMethods(ctx, body, i) ==
      match r
      case Err(e) => Err(e)
      case Ok(None) => NestedMethods(ctx, body, i + 1)
      case Ok(Some(x)) => Prepend([x], NestedMethods(ctx, body, i + 1))
    decreases body, |body.children| - i
  {
    if body.children[i].kind !in MethodTypes { return Ok(None); }
    var m := ParseMethodNode(ctx, body.children[i], Some(body));
    if m.Err? { return Err(m.error); }
    return Ok(Some(m.value));
  }
}
