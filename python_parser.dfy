/** The Python parser: the top-level candidates (plain or decorated
    definitions), the file docstring, and the method and class records, a
    class holding the records of the methods and classes its body defines.
    The source is the text after `preprocess_file`; the repair passes it
    runs are not part of this model.
 */
module Python {
  import opened Wrappers
  import opened Text
  import opened Tree
  import opened Schema

  const FunctionType: String := "function_definition"
  const ClassType: String := "class_definition"
  const Decorated: String := "decorated_definition"
  const DecoratorTypes: set<String> := {"decorator"}

  /** The types a body's first statement may start with for it to be read
      as the docstring (`_docstring_types`). */
  const DocstringTypes: set<String> := {"string", "comment"}

  /** What the parser holds once a file is loaded: the source, its tree and
      the row offset added to every point. */
  datatype Context = Context(src: String, root: Node, startingPoint: nat)

  function Shift(ctx: Context, p: Point): Point {
    Point(ctx.startingPoint + p.row, p.col)
  }

  // ------------------------------------------------------------ candidates

  /** `_distinguish_decorated(defn)(n)` returns the node: it has type `defn`,
      or it is a decorated definition whose last child has type `defn`. */
  predicate IsDefn(defn: String, n: Node) {
    n.kind == defn || (n.kind == Decorated && n.children != [] && n.children[|n.children| - 1].kind == defn)
  }

  /** A decorated definition without children: reading its last child
      raises `IndexError`. */
  predicate Raises(defn: String, n: Node) {
    n.kind != defn && n.kind == Decorated && n.children == []
  }

  /** `_distinguish_decorated(defn)(n)`, read as whether `n` is kept. */
  function Distinguish(defn: String, n: Node): (r: Result<bool>)
    ensures r.Err? <==> Raises(defn, n)
    ensures r.Err? ==> r.error == IndexError
    ensures r.Ok? ==> (r.value <==> IsDefn(defn, n))
  {
    if n.kind == defn then Ok(true)
    else if n.kind == Decorated then
      if n.children == [] then Err(IndexError) else Ok(n.children[|n.children| - 1].kind == defn)
    else Ok(false)
  }

  /** `_get_decorated_defn(ns, defn)`: the nodes `_distinguish_decorated`
      keeps, in order; the first node that raises makes the call raise. */
  function DecoratedDefn(ns: seq<Node>, defn: String): Result<seq<Node>> {
    if ns == [] then Ok([])
    else
      var keep :- Distinguish(defn, ns[0]);
      var rest :- DecoratedDefn(ns[1..], defn);
      Ok(if keep then [ns[0]] + rest else rest)
  }

  /** The nodes of `ns` that are `defn` definitions, plain or decorated, in order. */
  function Defns(ns: seq<Node>, defn: String): (r: seq<Node>)
    ensures forall i :: 0 <= i < |r| ==> IsDefn(defn, r[i]) && r[i] in ns
  {
    if ns == [] then []
    else if IsDefn(defn, ns[0]) then [ns[0]] + Defns(ns[1..], defn)
    else Defns(ns[1..], defn)
  }

  lemma DefnsCons(x: Node, rest: seq<Node>, defn: String)
    ensures Defns([x] + rest, defn) == Defns([x], defn) + Defns(rest, defn)
  {
    assert ([x] + rest)[1..] == rest;
    assert Defns([x], defn) == if IsDefn(defn, x) then [x] else [] by {
      assert [x][1..] == [];
    }
  }

  /** Every definition among `ns` is kept. */
  lemma {:induction false} DefnsKeep(ns: seq<Node>, defn: String, j: nat)
    requires j < |ns| && IsDefn(defn, ns[j])
    ensures ns[j] in Defns(ns, defn)
  {
    if j > 0 {
      assert ns[1..][j - 1] == ns[j];
      DefnsKeep(ns[1..], defn, j - 1);
    }
  }

  /** The candidates raise `IndexError` exactly when some node is a
      decorated definition without children; otherwise they are the
      definitions among the nodes, in order. */
  lemma {:induction false} DecoratedDefnMeaning(ns: seq<Node>, defn: String)
    ensures DecoratedDefn(ns, defn).Err? <==> exists i :: 0 <= i < |ns| && Raises(defn, ns[i])
    ensures DecoratedDefn(ns, defn).Err? ==> DecoratedDefn(ns, defn).error == IndexError
    ensures DecoratedDefn(ns, defn).Ok? ==> DecoratedDefn(ns, defn).value == Defns(ns, defn)
  {
    if ns != [] {
      DecoratedDefnMeaning(ns[1..], defn);
      assert (exists i :: 0 <= i < |ns| && Raises(defn, ns[i])) <==>
        Raises(defn, ns[0]) || exists i :: 0 <= i < |ns[1..]| && Raises(defn, ns[1..][i]) by {
        forall i | 0 < i < |ns| ensures ns[i] == ns[1..][i - 1] { }
      }
    }
  }

  /** `class_nodes`: the class definitions among the root's children. */
  function ClassNodes(root: Node): Result<seq<Node>> {
    DecoratedDefn(root.children, ClassType)
  }

  /** `method_nodes`: the function definitions among the root's children. */
  function MethodNodes(root: Node): Result<seq<Node>> {
    DecoratedDefn(root.children, FunctionType)
  }

  // ------------------------------------------------------- file docstring

  /** The text `file_docstring` cleans: the string the first child starts
      with, else the first child itself when it is a comment, else "". */
  function FirstText(src: String, first: Node): String {
    if first.children != [] && first.children[0].kind == "string" then SpanSelect(src, [first.children[0]], true)
    else if first.kind == "comment" then SpanSelect(src, [first], true)
    else []
  }

  /** `file_docstring`. */
  function FileDocstring(src: String, root: Node): String {
    if root.children == [] then [] else CleanDocstringComments(FirstText(src, root.children[0]))
  }

  /** Only the first child is read: a file that does not open with a string
      or a comment has no docstring, and two files with the same first child
      have the same docstring. */
  lemma FileDocstringFirst(src: String, a: Node, b: Node)
    requires a.children != [] && b.children != [] && a.children[0] == b.children[0]
    ensures FileDocstring(src, a) == FileDocstring(src, b)
    ensures FirstText(src, a.children[0]) == [] ==> FileDocstring(src, a) == []
  {
    CleanDocstringEmpty();
  }

  // ------------------------------------------------------------ decorators

  /** One decorator's text, stripped for classes. */
  function DecoratorText(src: String, n: Node, strip: bool): String {
    if strip then Strip(SpanSelect(src, [n], true)) else SpanSelect(src, [n], true)
  }

  /** The texts of the decorators among `cs`, in order. */
  function DecoratorTexts(src: String, cs: seq<Node>, strip: bool): (r: seq<String>)
    ensures |r| == |KeepKinds(cs, DecoratorTypes)|
  {
    if cs == [] then []
    else
      var last := if cs[|cs| - 1].kind in DecoratorTypes then [DecoratorText(src, cs[|cs| - 1], strip)] else [];
      DecoratorTexts(src, cs[..|cs| - 1], strip) + last
  }

  lemma {:induction false} DecoratorTextsAt(src: String, cs: seq<Node>, strip: bool, k: nat)
    requires k < |KeepKinds(cs, DecoratorTypes)|
    ensures DecoratorTexts(src, cs, strip)[k] == DecoratorText(src, KeepKinds(cs, DecoratorTypes)[k], strip)
  {
    if k < |KeepKinds(cs[..|cs| - 1], DecoratorTypes)| {
      DecoratorTextsAt(src, cs[..|cs| - 1], strip, k);
    }
  }

  /** The decorators of a node: those of a decorated definition, none for a
      plain one. */
  function Decorators(src: String, n: Node, strip: bool): seq<String> {
    if n.kind == Decorated then DecoratorTexts(src, n.children, strip) else []
  }

  /** A decorated definition's decorators are the texts of its decorator
      children, one each, in order. */
  lemma DecoratorsAre(src: String, n: Node, strip: bool)
    requires n.kind == Decorated
    ensures |Decorators(src, n, strip)| == |FilterKinds(n.children, DecoratorTypes)|
    ensures forall k :: 0 <= k < |Decorators(src, n, strip)| ==>
      Decorators(src, n, strip)[k] == DecoratorText(src, FilterKinds(n.children, DecoratorTypes)[k], strip)
  {
    KeepKindsIsFilter(n.children, DecoratorTypes);
    forall k | 0 <= k < |Decorators(src, n, strip)|
      ensures Decorators(src, n, strip)[k] == DecoratorText(src, FilterKinds(n.children, DecoratorTypes)[k], strip)
    {
      DecoratorTextsAt(src, n.children, strip, k);
    }
  }

  /** The last `defn` child among `cs`, `n` when there is none. */
  function LastDefn(n: Node, cs: seq<Node>, defn: String): Node {
    match LastOfKind(cs, defn)
    case None => n
    case Some(j) => cs[j]
  }

  /** The definition a node stands for: a decorated definition's last
      `defn` child (the node itself when it has none), a plain node itself. */
  function Wrapped(n: Node, defn: String): (r: Node)
    ensures r == n || r in n.children
  {
    if n.kind == Decorated then LastDefn(n, n.children, defn) else n
  }

  /** One more child for the decorator loop. */
  lemma UndecorateStep(src: String, n: Node, cs: seq<Node>, i: nat, defn: String, strip: bool)
    requires i < |cs|
    ensures DecoratorTexts(src, cs[..i + 1], strip) ==
      DecoratorTexts(src, cs[..i], strip) + (if cs[i].kind in DecoratorTypes then [DecoratorText(src, cs[i], strip)] else [])
    ensures LastDefn(n, cs[..i + 1], defn) == if cs[i].kind == defn then cs[i] else LastDefn(n, cs[..i], defn)
  {
    assert cs[..i + 1][..i] == cs[..i];
  }

  /** The decorator loop of `_parse_method_node` and `_parse_class_node`:
      decorators collected, the wrapped definition taken. */
  method Undecorate(src: String, n: Node, defn: String, strip: bool) returns (decorators: seq<String>, node: Node)
    requires defn !in DecoratorTypes
    ensures decorators == Decorators(src, n, strip) && node == Wrapped(n, defn)
  {
    decorators := [];
    node := n;
    if n.kind == Decorated {
      var cs := n.children;
      for i := 0 to |cs|
        invariant decorators == DecoratorTexts(src, cs[..i], strip)
        invariant node == LastDefn(n, cs[..i], defn)
      {
        UndecorateStep(src, n, cs, i, defn, strip);
        if cs[i].kind in DecoratorTypes {
          decorators := decorators + [DecoratorText(src, cs[i], strip)];
        } else if cs[i].kind == defn {
          node := cs[i];
        }
      }
      assert cs[..|cs|] == cs;
    }
  }

  // ------------------------------------------------------ default arguments

  /** A parameter whose type contains "default". */
  predicate IsDefault(n: Node) {
    Contains(n.kind, "default")
  }

  /** The defaults the default parameters among `args[i..]` write into `d`,
      in order; one without a "=" child raises `ValueError`. */
  function ArgDefaults(src: String, args: seq<Node>, i: nat, d: Dict): Result<Dict>
    requires i <= |args|
    decreases |args| - i
  {
    if i == |args| then Ok(d)
    else if !IsDefault(args[i]) then ArgDefaults(src, args, i + 1, d)
    else
      var (k, v) :- SplitDefault(src, args[i].children);
      ArgDefaults(src, args, i + 1, Assign(d, k, v))
  }

  /** The defaults of every `parameters` child from `i` on. */
  function ParamDefaults(src: String, cs: seq<Node>, i: nat, d: Dict): Result<Dict>
    requires i <= |cs|
    decreases |cs| - i
  {
    if i == |cs| then Ok(d)
    else if cs[i].kind != "parameters" then ParamDefaults(src, cs, i + 1, d)
    else
      var d' :- ArgDefaults(src, cs[i].children, 0, d);
      ParamDefaults(src, cs, i + 1, d')
  }

  /** Some default parameter from `i` on has no "=" child. */
  predicate MissingEquals(args: seq<Node>, i: nat) {
    exists j :: i <= j < |args| && IsDefault(args[j]) && SplitDefault([], args[j].children).Err?
  }

  predicate DefaultsMissing(cs: seq<Node>, i: nat) {
    exists j :: i <= j < |cs| && cs[j].kind == "parameters" && MissingEquals(cs[j].children, 0)
  }

  /** The defaults raise exactly when a default parameter lacks its "=". */
  lemma {:induction false} ArgDefaultsFail(src: String, args: seq<Node>, i: nat, d: Dict)
    requires i <= |args|
    ensures ArgDefaults(src, args, i, d).Err? <==> MissingEquals(args, i)
    ensures ArgDefaults(src, args, i, d).Err? ==> ArgDefaults(src, args, i, d).error == ValueError
    decreases |args| - i
  {
    if i < |args| {
      if IsDefault(args[i]) && SplitDefault(src, args[i].children).Ok? {
        var (k, v) := SplitDefault(src, args[i].children).value;
        ArgDefaultsFail(src, args, i + 1, Assign(d, k, v));
      } else if !IsDefault(args[i]) {
        ArgDefaultsFail(src, args, i + 1, d);
      }
      assert MissingEquals(args, i) <==>
        (IsDefault(args[i]) && SplitDefault([], args[i].children).Err?) || MissingEquals(args, i + 1);
    }
  }

  lemma {:induction false} ParamDefaultsFail(src: String, cs: seq<Node>, i: nat, d: Dict)
    requires i <= |cs|
    ensures ParamDefaults(src, cs, i, d).Err? <==> DefaultsMissing(cs, i)
    ensures ParamDefaults(src, cs, i, d).Err? ==> ParamDefaults(src, cs, i, d).error == ValueError
    decreases |cs| - i
  {
    if i < |cs| {
      if cs[i].kind == "parameters" {
        ArgDefaultsFail(src, cs[i].children, 0, d);
        if ArgDefaults(src, cs[i].children, 0, d).Ok? {
          ParamDefaultsFail(src, cs, i + 1, ArgDefaults(src, cs[i].children, 0, d).value);
        }
      } else {
        ParamDefaultsFail(src, cs, i + 1, d);
      }
      assert DefaultsMissing(cs, i) <==>
        (cs[i].kind == "parameters" && MissingEquals(cs[i].children, 0)) || DefaultsMissing(cs, i + 1);
    }
  }

  /** A default parameter's value is what its key reads in the defaults,
      unless a later default parameter writes the same key. */
  lemma {:induction false} DefaultRecorded(src: String, args: seq<Node>, i: nat, d: Dict, j: nat, k: String, v: String)
    requires i <= j < |args| && IsDefault(args[j]) && SplitDefault(src, args[j].children) == Ok((k, v))
    requires forall q :: j < q < |args| && IsDefault(args[q]) && SplitDefault(src, args[q].children).Ok?
               ==> SplitDefault(src, args[q].children).value.0 != k
    requires ArgDefaults(src, args, i, d).Ok?
    ensures Lookup(ArgDefaults(src, args, i, d).value, k) == Some(v)
    decreases |args| - i
  {
    if i < j {
      if IsDefault(args[i]) {
        var (k', v') := SplitDefault(src, args[i].children).value;
        DefaultRecorded(src, args, i + 1, Assign(d, k', v'), j, k, v);
      } else {
        DefaultRecorded(src, args, i + 1, d, j, k, v);
      }
    } else {
      AssignLookup(d, k, v, k);
      DefaultKept(src, args, i + 1, Assign(d, k, v), k);
    }
  }

  /** Writes of other keys leave a key's value alone. */
  lemma {:induction false} DefaultKept(src: String, args: seq<Node>, i: nat, d: Dict, k: String)
    requires i <= |args|
    requires forall q :: i <= q < |args| && IsDefault(args[q]) && SplitDefault(src, args[q].children).Ok?
               ==> SplitDefault(src, args[q].children).value.0 != k
    requires ArgDefaults(src, args, i, d).Ok?
    ensures Lookup(ArgDefaults(src, args, i, d).value, k) == Lookup(d, k)
    decreases |args| - i
  {
    if i < |args| {
      if IsDefault(args[i]) {
        var (k', v') := SplitDefault(src, args[i].children).value;
        AssignLookup(d, k', v', k);
        DefaultKept(src, args, i + 1, Assign(d, k', v'), k);
      } else {
        DefaultKept(src, args, i + 1, d, k);
      }
    }
  }

  /** With no `parameters` child from `i` on, nothing more is written. */
  lemma {:induction false} NoMoreParameters(src: String, cs: seq<Node>, i: nat, d: Dict)
    requires i <= |cs| && forall j :: i <= j < |cs| ==> cs[j].kind != "parameters"
    ensures ParamDefaults(src, cs, i, d) == Ok(d)
    decreases |cs| - i
  {
    if i < |cs| {
      NoMoreParameters(src, cs, i + 1, d);
    }
  }

  /** A definition with a single `parameters` child takes its defaults from
      that child alone. */
  lemma {:induction false} SingleParameterList(src: String, cs: seq<Node>, i: nat, p: nat, d: Dict)
    requires i <= p < |cs| && cs[p].kind == "parameters"
    requires forall j :: i <= j < |cs| && j != p ==> cs[j].kind != "parameters"
    ensures ParamDefaults(src, cs, i, d) == ArgDefaults(src, cs[p].children, 0, d)
    decreases |cs| - i
  {
    if i < p {
      SingleParameterList(src, cs, i + 1, p, d);
    } else if ArgDefaults(src, cs[p].children, 0, d).Ok? {
      NoMoreParameters(src, cs, p + 1, ArgDefaults(src, cs[p].children, 0, d).value);
    }
  }

  // ------------------------------------------------------- method records

  datatype MethodRecord = MethodRecord(
    decorators: seq<String>,
    syntaxPass: bool,
    defaultArguments: Dict,
    originalString: String,
    byteSpan: Key,
    startPoint: Point,
    endPoint: Point,
    name: Option<String>,
    signature: String,
    body: String,
    docstring: String)

  /** `children[:-1]`. */
  function Heads(cs: seq<Node>): (r: seq<Node>)
    ensures cs != [] ==> r == cs[..|cs| - 1]
  {
    if cs == [] then [] else cs[..|cs| - 1]
  }

  /** The stripped text of the last `identifier` child, None without one. */
  function NameOf(src: String, cs: seq<Node>): (r: Option<String>)
    ensures r.None? <==> forall j :: 0 <= j < |cs| ==> cs[j].kind != "identifier"
  {
    match LastOfKind(cs, "identifier")
    case None => None
    case Some(j) => Some(Strip(SpanSelect(src, [cs[j]], false)))
  }

  /** The body's first statement starts with a string or a comment. */
  predicate HasDocstring(b: Node) {
    b.children != [] && b.children[0].children != [] && b.children[0].children[0].kind in DocstringTypes
  }

  /** The docstring and the body text of a function body. */
  function BodyParts(src: String, b: Node): (String, String) {
    if HasDocstring(b) then
      (CleanDocstringComments(SpanSelect(src, [b.children[0].children[0]], true)), SpanSelect(src, b.children[1..], true))
    else if b.children != [] && b.children[0].children != [] then ([], SpanSelect(src, [b], true))
    else ([], [])
  }

  /** `_parse_method_node(m)`.  `has_correct_syntax` is called without a
      guard here, so its `RecursionError` escapes. */
  function ParseMethod(ctx: Context, m: Node): (r: Result<MethodRecord>)
    ensures r.Ok? ==> r.value.byteSpan == KeyOf(m)
  {
    var syntax :- CheckSyntax(m, RecursionLimit);
    var decorators := Decorators(ctx.src, m, false);
    var f := Wrapped(m, FunctionType);
    var heads := Heads(f.children);
    var defaults :- ParamDefaults(ctx.src, heads, 0, []);
    if f.children == [] then Err(IndexError)
    else
      var (doc, body) := BodyParts(ctx.src, f.children[|f.children| - 1]);
      Ok(MethodRecord(
        decorators, syntax, defaults, SpanSelect(ctx.src, [m], true), KeyOf(m),
        Shift(ctx, m.startPoint), Shift(ctx, m.endPoint), NameOf(ctx.src, heads),
        Join("\n", decorators + [SpanSelect(ctx.src, heads, true)]), body, doc))
  }

  /** A method record raises `RecursionError` for a tree too deep to check,
      `ValueError` for a default parameter without "=", `IndexError` for a
      definition without children; otherwise it is the node's own span, its
      syntax check, its decorators, and a signature of the decorators
      followed by every child but the body. */
  lemma MethodMeaning(ctx: Context, m: Node)
    ensures var f := Wrapped(m, FunctionType);
      ParseMethod(ctx, m).Err? <==>
        CheckSyntax(m, RecursionLimit).Err? || DefaultsMissing(Heads(f.children), 0) || f.children == []
    ensures var f := Wrapped(m, FunctionType);
      ParseMethod(ctx, m).Err? && CheckSyntax(m, RecursionLimit).Ok? ==>
        ParseMethod(ctx, m).error == (if DefaultsMissing(Heads(f.children), 0) then ValueError else IndexError)
    ensures var f := Wrapped(m, FunctionType);
      ParseMethod(ctx, m).Ok? ==>
        var r := ParseMethod(ctx, m).value;
        && r.syntaxPass == SyntaxPass(m)
        && r.originalString == SpanSelect(ctx.src, [m], true)
        && r.decorators == Decorators(ctx.src, m, false)
        && r.signature == Join("\n", r.decorators + [SpanSelect(ctx.src, f.children[..|f.children| - 1], true)])
        && r.name == NameOf(ctx.src, f.children[..|f.children| - 1])
  {
    var f := Wrapped(m, FunctionType);
    ParamDefaultsFail(ctx.src, Heads(f.children), 0, []);
  }

  /** When the body opens with a string or comment statement, that statement
      is the docstring and the body is the text of the statements after it;
      otherwise the docstring is empty and the body is the whole block. */
  lemma MethodBody(ctx: Context, m: Node)
    requires ParseMethod(ctx, m).Ok?
    ensures var f := Wrapped(m, FunctionType);
      var b := f.children[|f.children| - 1];
      var r := ParseMethod(ctx, m).value;
      && (HasDocstring(b) ==>
            r.docstring == CleanDocstringComments(SpanSelect(ctx.src, [b.children[0].children[0]], true))
            && r.body == SpanSelect(ctx.src, b.children[1..], true))
      && (!HasDocstring(b) ==>
            (r.docstring == []
             && r.body == (if b.children != [] && b.children[0].children != [] then SpanSelect(ctx.src, [b], true) else [])))
  {
  }

  /** With a single parameter list, a default parameter's value is what its
      key reads in the record, unless a later one writes the same key. */
  lemma MethodDefault(ctx: Context, m: Node, p: nat, j: nat, k: String, v: String)
    requires var hs := Heads(Wrapped(m, FunctionType).children);
      p < |hs| && hs[p].kind == "parameters" && forall q :: 0 <= q < |hs| && q != p ==> hs[q].kind != "parameters"
    requires var args := Heads(Wrapped(m, FunctionType).children)[p].children;
      j < |args| && IsDefault(args[j]) && SplitDefault(ctx.src, args[j].children) == Ok((k, v))
      && forall q :: j < q < |args| && IsDefault(args[q]) && SplitDefault(ctx.src, args[q].children).Ok?
           ==> SplitDefault(ctx.src, args[q].children).value.0 != k
    requires ParseMethod(ctx, m).Ok?
    ensures Lookup(ParseMethod(ctx, m).value.defaultArguments, k) == Some(v)
  {
    var hs := Heads(Wrapped(m, FunctionType).children);
    SingleParameterList(ctx.src, hs, 0, p, []);
    DefaultRecorded(ctx.src, hs[p].children, 0, [], j, k, v);
  }

  // -------------------------------------------------------- class records

  datatype ClassRecord = ClassRecord(
    decorators: seq<String>,
    attributeExpressions: seq<String>,
    classes: seq<ClassRecord>,
    classDocstring: String,
    methods: seq<MethodRecord>,
    byteSpan: Key,
    startPoint: Point,
    endPoint: Point,
    originalString: String,
    definition: String,
    name: String)

  /** The body's first statement starts with a string. */
  predicate HasClassDocstring(body: Node) {
    body.children != [] && body.children[0].children != [] && body.children[0].children[0].kind == "string"
  }

  function ClassDocstring(src: String, body: Node): String {
    if HasClassDocstring(body) then CleanDocstringComments(SpanSelect(src, [body.children[0].children[0]], true)) else []
  }

  /** A statement that starts with an assignment. */
  predicate IsAssignment(n: Node) {
    n.children != [] && n.children[0].kind == "assignment"
  }

  /** The attribute expressions of the statements `cs[i..]`: the
      unindented text of each assignment statement, in order. */
  function AttrsFrom(src: String, cs: seq<Node>, i: nat): seq<String>
    requires i <= |cs|
    decreases |cs| - i
  {
    if i == |cs| then []
    else (if IsAssignment(cs[i]) then [SpanSelect(src, [cs[i]], false)] else []) + AttrsFrom(src, cs, i + 1)
  }

  /** The attribute expressions of a class body. */
  function AttributeExpressions(src: String, cs: seq<Node>): seq<String> {
    AttrsFrom(src, cs, 0)
  }

  lemma {:induction false} AttrsFromAre(src: String, cs: seq<Node>, i: nat, j: nat)
    requires i <= |cs|
    ensures i <= j < |cs| && IsAssignment(cs[j]) ==> SpanSelect(src, [cs[j]], false) in AttrsFrom(src, cs, i)
    ensures forall t :: t in AttrsFrom(src, cs, i) ==>
      exists q :: i <= q < |cs| && IsAssignment(cs[q]) && t == SpanSelect(src, [cs[q]], false)
    decreases |cs| - i
  {
    if i < |cs| {
      AttrsFromAre(src, cs, i + 1, j);
    }
  }

  /** Every assignment statement of the body gives an attribute expression,
      and every attribute expression is the text of one of them. */
  lemma AttributeExpressionsAre(src: String, cs: seq<Node>, j: nat)
    ensures j < |cs| && IsAssignment(cs[j]) ==> SpanSelect(src, [cs[j]], false) in AttributeExpressions(src, cs)
    ensures forall t :: t in AttributeExpressions(src, cs) ==>
      exists q :: 0 <= q < |cs| && IsAssignment(cs[q]) && t == SpanSelect(src, [cs[q]], false)
  {
    AttrsFromAre(src, cs, 0, j);
  }

  /** What a class body holds: the records of its methods and of its classes. */
  type Members = (seq<MethodRecord>, seq<ClassRecord>)

  /** `ms` and `cs` in front of members that may have raised instead. */
  function PrependBoth(ms: seq<MethodRecord>, cs: seq<ClassRecord>, r: Result<Members>): Result<Members> {
    match r
    case Err(e) => Err(e)
    case Ok((a, b)) => Ok((ms + a, cs + b))
  }

  lemma PrependBothNothing(r: Result<Members>)
    ensures PrependBoth([], [], r) == r
  {
    if r.Ok? {
      assert [] + r.value.0 == r.value.0 && [] + r.value.1 == r.value.1;
    }
  }

  lemma PrependBothTwice(ms: seq<MethodRecord>, cs: seq<ClassRecord>, ms': seq<MethodRecord>, cs': seq<ClassRecord>, r: Result<Members>)
    ensures PrependBoth(ms, cs, PrependBoth(ms', cs', r)) == PrependBoth(ms + ms', cs + cs', r)
  {
    if r.Ok? {
      assert ms + (ms' + r.value.0) == (ms + ms') + r.value.0;
      assert cs + (cs' + r.value.1) == (cs + cs') + r.value.1;
    }
  }

  /** `_parse_class_node(c)`: decorators, the definition through the first
      ":" (`ValueError` without one), the name from the second child
      (`IndexError` without one), then the body. */
  function ParseClass(ctx: Context, c: Node): (r: Result<ClassRecord>)
    ensures r.Ok? ==> r.value.byteSpan == KeyOf(c)
    decreases c, 1
  {
    var decorators := Decorators(ctx.src, c, true);
    var k := Wrapped(c, ClassType);
    match FirstOfKind(k.children, ":")
    case None => Err(ValueError)
    case Some(colon) =>
      if |k.children| < 2 then Err(IndexError)
      else ClassFrom(ctx, c, decorators, k, colon)
  }

  /** The rest of `_parse_class_node(c)` once the definition `k` has a ":"
      child at `colon` and a second child: the body is the last child. */
  function ClassFrom(ctx: Context, c: Node, decorators: seq<String>, k: Node, colon: nat): (r: Result<ClassRecord>)
    requires colon < |k.children| && 2 <= |k.children|
    requires k == c || k in c.children
    ensures r.Ok? ==> r.value.byteSpan == KeyOf(c)
    decreases c, 0
  {
    var body := k.children[|k.children| - 1];
    var members :- MembersFrom(ctx, body, 0);
    Ok(ClassRecord(
      decorators, AttributeExpressions(ctx.src, body.children), members.1,
      ClassDocstring(ctx.src, body), members.0, KeyOf(c), Shift(ctx, c.startPoint), Shift(ctx, c.endPoint),
      SpanSelect(ctx.src, [c], true),
      Join("\n", decorators + [SpanSelect(ctx.src, k.children[..colon + 1], true)]),
      SpanSelect(ctx.src, [k.children[1]], false)))
  }

  /** What one statement of a class body contributes: it is checked as a
      method, parsed if it is one, then checked as a class and parsed if it
      is one. */
  function MemberOf(ctx: Context, child: Node): Result<Members>
    decreases child, 2
  {
    var isMethod :- Distinguish(FunctionType, child);
    var ms :- if isMethod then (var x :- ParseMethod(ctx, child); Ok([x])) else Ok([]);
    var isClass :- Distinguish(ClassType, child);
    var cs :- if isClass then (var x :- ParseClass(ctx, child); Ok([x])) else Ok([]);
    Ok((ms, cs))
  }

  /** The members of a class body from statement `i` on; the first
      statement that raises makes the body raise. */
  function MembersFrom(ctx: Context, body: Node, i: nat): Result<Members>
    requires i <= |body.children|
    decreases body, |body.children| - i
  {
    if i == |body.children| then Ok(([], []))
    else
      match MemberOf(ctx, body.children[i])
      case Err(e) => Err(e)
      case Ok((ms, cs)) => PrependBoth(ms, cs, MembersFrom(ctx, body, i + 1))
  }

  function Spans(ns: seq<Node>): (r: seq<Key>)
    ensures |r| == |ns| && forall i :: 0 <= i < |ns| ==> r[i] == KeyOf(ns[i])
  {
    if ns == [] then [] else [KeyOf(ns[0])] + Spans(ns[1..])
  }

  function MethodSpans(ms: seq<MethodRecord>): (r: seq<Key>)
    ensures |r| == |ms| && forall i :: 0 <= i < |ms| ==> r[i] == ms[i].byteSpan
  {
    if ms == [] then [] else [ms[0].byteSpan] + MethodSpans(ms[1..])
  }

  function ClassSpans(cs: seq<ClassRecord>): (r: seq<Key>)
    ensures |r| == |cs| && forall i :: 0 <= i < |cs| ==> r[i] == cs[i].byteSpan
  {
    if cs == [] then [] else [cs[0].byteSpan] + ClassSpans(cs[1..])
  }

  /** A statement that parses gives the record of a function definition
      when it is one and the record of a class definition when it is one. */
  lemma MemberSpans(ctx: Context, child: Node)
    requires MemberOf(ctx, child).Ok?
    ensures MethodSpans(MemberOf(ctx, child).value.0) == Spans(Defns([child], FunctionType))
    ensures ClassSpans(MemberOf(ctx, child).value.1) == Spans(Defns([child], ClassType))
  {
  }

  /** When a body parses, its method records are those of its function
      definitions and its class records those of its class definitions,
      plain or decorated, one each, in order. */
  lemma {:induction false} MembersSpans(ctx: Context, body: Node, i: nat)
    requires i <= |body.children| && MembersFrom(ctx, body, i).Ok?
    ensures MethodSpans(MembersFrom(ctx, body, i).value.0) == Spans(Defns(body.children[i..], FunctionType))
    ensures ClassSpans(MembersFrom(ctx, body, i).value.1) == Spans(Defns(body.children[i..], ClassType))
    decreases |body.children| - i
  {
    if i < |body.children| {
      var child := body.children[i];
      MembersSpans(ctx, body, i + 1);
      MemberSpans(ctx, child);
      SliceCons(body.children, i);
      DefnsCons(child, body.children[i + 1..], FunctionType);
      DefnsCons(child, body.children[i + 1..], ClassType);
      var (ms, cs) := MemberOf(ctx, child).value;
      var (ms', cs') := MembersFrom(ctx, body, i + 1).value;
      MethodSpansAppend(ms, ms');
      ClassSpansAppend(cs, cs');
      SpansAppend(Defns([child], FunctionType), Defns(body.children[i + 1..], FunctionType));
      SpansAppend(Defns([child], ClassType), Defns(body.children[i + 1..], ClassType));
    }
  }

  lemma SliceCons(s: seq<Node>, i: nat)
    requires i < |s|
    ensures s[i..] == [s[i]] + s[i + 1..]
  {
  }

  lemma {:induction false} SpansAppend(a: seq<Node>, b: seq<Node>)
    ensures Spans(a + b) == Spans(a) + Spans(b)
  {
    if a != [] {
      assert (a + b)[1..] == a[1..] + b;
      SpansAppend(a[1..], b);
    }
  }

  lemma {:induction false} MethodSpansAppend(a: seq<MethodRecord>, b: seq<MethodRecord>)
    ensures MethodSpans(a + b) == MethodSpans(a) + MethodSpans(b)
  {
    if a != [] {
      assert (a + b)[1..] == a[1..] + b;
      MethodSpansAppend(a[1..], b);
    }
  }

  lemma {:induction false} ClassSpansAppend(a: seq<ClassRecord>, b: seq<ClassRecord>)
    ensures ClassSpans(a + b) == ClassSpans(a) + ClassSpans(b)
  {
    if a != [] {
      assert (a + b)[1..] == a[1..] + b;
      ClassSpansAppend(a[1..], b);
    }
  }

  /** A class definition without a ":" child raises `ValueError`. */
  lemma ClassNoColon(ctx: Context, c: Node)
    requires forall j :: 0 <= j < |Wrapped(c, ClassType).children| ==> Wrapped(c, ClassType).children[j].kind != ":"
    ensures ParseClass(ctx, c) == Err(ValueError)
  {
  }

  /** A class definition with a ":" child but fewer than two children
      raises `IndexError`. */
  lemma ClassTooShort(ctx: Context, c: Node, colon: nat)
    requires colon < |Wrapped(c, ClassType).children| && Wrapped(c, ClassType).children[colon].kind == ":"
    requires |Wrapped(c, ClassType).children| < 2
    ensures ParseClass(ctx, c) == Err(IndexError)
  {
  }

  /** A class record's definition is its decorators, one per line,
      followed by the children through the first ":"; its name is the
      second child; its original string is the whole node. */
  lemma ClassMeaning(ctx: Context, c: Node, colon: nat)
    requires var k := Wrapped(c, ClassType);
      colon < |k.children| && k.children[colon].kind == ":" && forall j :: 0 <= j < colon ==> k.children[j].kind != ":"
    requires ParseClass(ctx, c).Ok?
    ensures var k := Wrapped(c, ClassType); var r := ParseClass(ctx, c).value;
      && r.decorators == Decorators(ctx.src, c, true)
      && r.definition == Join("\n", r.decorators + [SpanSelect(ctx.src, k.children[..colon + 1], true)])
      && r.name == SpanSelect(ctx.src, [k.children[1]], false)
      && r.originalString == SpanSelect(ctx.src, [c], true)
  {
    var k := Wrapped(c, ClassType);
    assert FirstOfKind(k.children, ":") == Some(colon);
  }

  // ------------------------------------------------------------ the parser

  /** The loop of `_parse_method_node` over one `parameters` child. */
  method ScanParameters(src: String, p: Node, d: Dict) returns (r: Result<Dict>)
    ensures r == ArgDefaults(src, p.children, 0, d)
  {
    var args := p.children;
    var cur := d;
    for i := 0 to |args|
      invariant ArgDefaults(src, args, 0, d) == ArgDefaults(src, args, i, cur)
    {
      if IsDefault(args[i]) {
        var kv := SplitDefault(src, args[i].children);
        if kv.Err? {
          return Err(kv.error);
        }
        cur := Assign(cur, kv.value.0, kv.value.1);
      }
    }
    return Ok(cur);
  }

  /** The loop of `_parse_method_node` over every child but the body: the
      defaults and the last name. */
  method ScanHeads(src: String, cs: seq<Node>) returns (defaults: Result<Dict>, name: Option<String>)
    ensures defaults == ParamDefaults(src, cs, 0, [])
    ensures defaults.Ok? ==> name == NameOf(src, cs)
  {
    var d: Dict := [];
    name := None;
    for i := 0 to |cs|
      invariant ParamDefaults(src, cs, 0, []) == ParamDefaults(src, cs, i, d)
      invariant name == NameOf(src, cs[..i])
    {
      assert cs[..i + 1][..i] == cs[..i];
      if cs[i].kind == "identifier" {
        name := Some(Strip(SpanSelect(src, [cs[i]], false)));
      }
      if cs[i].kind == "parameters" {
        var r := ScanParameters(src, cs[i], d);
        if r.Err? {
          defaults := Err(r.error);
          return;
        }
        d := r.value;
      }
    }
    assert cs[..|cs|] == cs;
    defaults := Ok(d);
  }

  /** `_parse_method_node(m)`. */
  method ParseMethodNode(ctx: Context, m: Node) returns (r: Result<MethodRecord>)
    ensures r == ParseMethod(ctx, m)
  {
    var syntax := CheckSyntax(m, RecursionLimit);
    if syntax.Err? {
      return Err(syntax.error);
    }
    var decorators, f := Undecorate(ctx.src, m, FunctionType, false);
    var heads := Heads(f.children);
    var defaults, name := ScanHeads(ctx.src, heads);
    if defaults.Err? {
      return Err(defaults.error);
    }
    var signature := Join("\n", decorators + [SpanSelect(ctx.src, heads, true)]);
    if f.children == [] {
      return Err(IndexError);
    }
    var b := f.children[|f.children| - 1];
    var doc: String := [];
    var body: String := [];
    if b.children != [] && b.children[0].children != [] {
      if b.children[0].children[0].kind in DocstringTypes {
        doc := CleanDocstringComments(SpanSelect(ctx.src, [b.children[0].children[0]], true));
        body := SpanSelect(ctx.src, b.children[1..], true);
      } else {
        body := SpanSelect(ctx.src, [b], true);
      }
    }
    return Ok(MethodRecord(
      decorators, syntax.value, defaults.value, SpanSelect(ctx.src, [m], true), KeyOf(m),
      Shift(ctx, m.startPoint), Shift(ctx, m.endPoint), name, signature, body, doc));
  }

  /** `_parse_class_node(c)`. */
  method ParseClassNode(ctx: Context, c: Node) returns (r: Result<ClassRecord>)
    ensures r == ParseClass(ctx, c)
    decreases c, 2
  {
    var decorators, k := Undecorate(ctx.src, c, ClassType, true);
    var colon := FirstIndexOf(k.children, ":");
    if colon.None? {
      return Err(ValueError);
    }
    if |k.children| < 2 {
      return Err(IndexError);
    }
    r := ClassNodeFrom(ctx, c, decorators, k, colon.value);
  }

  /** The definition, the name and the body of `_parse_class_node(c)`. */
  method ClassNodeFrom(ctx: Context, c: Node, decorators: seq<String>, k: Node, colon: nat)
    returns (r: Result<ClassRecord>)
    requires colon < |k.children| && 2 <= |k.children|
    requires k == c || k in c.children
    ensures r == ClassFrom(ctx, c, decorators, k, colon)
    decreases c, 1
  {
    var definition := Join("\n", decorators + [SpanSelect(ctx.src, k.children[..colon + 1], true)]);
    var name := SpanSelect(ctx.src, [k.children[1]], false);
    var body := k.children[|k.children| - 1];
    var doc, attrs, members := ScanBody(ctx, body);
    if members.Err? {
      return Err(members.error);
    }
    return Ok(ClassRecord(
      decorators, attrs, members.value.1, doc, members.value.0, KeyOf(c),
      Shift(ctx, c.startPoint), Shift(ctx, c.endPoint), SpanSelect(ctx.src, [c], true), definition, name));
  }

  /** `list(map(lambda n: n.type, cs)).index(kind)`, None where it raises. */
  method FirstIndexOf(cs: seq<Node>, kind: String) returns (r: Option<nat>)
    ensures r == FirstOfKind(cs, kind)
  {
    for i := 0 to |cs|
      invariant forall j :: 0 <= j < i ==> cs[j].kind != kind
    {
      if cs[i].kind == kind {
        return Some(i);
      }
    }
    return None;
  }

  /** The loop of `_parse_class_node` over the body's statements: the
      docstring from the first, the attribute expressions, and the records
      of the methods and classes. */
  method ScanBody(ctx: Context, body: Node) returns (doc: String, attrs: seq<String>, r: Result<Members>)
    ensures r == MembersFrom(ctx, body, 0)
    ensures r.Ok? ==> doc == ClassDocstring(ctx.src, body) && attrs == AttributeExpressions(ctx.src, body.children)
    decreases body, |body.children| + 1
  {
    var cs := body.children;
    doc := [];
    attrs := [];
    var ms: seq<MethodRecord> := [];
    var cls: seq<ClassRecord> := [];
    PrependBothNothing(MembersFrom(ctx, body, 0));
    for i := 0 to |cs|
      invariant MembersFrom(ctx, body, 0) == PrependBoth(ms, cls, MembersFrom(ctx, body, i))
      invariant AttributeExpressions(ctx.src, cs) == attrs + AttrsFrom(ctx.src, cs, i)
    {
      attrs := StatementText(ctx.src, body, i, attrs);
      var next := NextMember(ctx, body, i);
      if next.Err? {
        r := Err(next.error);
        return;
      }
      PrependBothTwice(ms, cls, next.value.0, next.value.1, MembersFrom(ctx, body, i + 1));
      ms := ms + next.value.0;
      cls := cls + next.value.1;
    }
    assert attrs + [] == attrs;
    doc := BodyDocstring(ctx.src, body);
    assert ms + [] == ms && cls + [] == cls;
    r := Ok((ms, cls));
  }

  /** What one statement of a class body adds to the docstring and the
      attribute expressions. */
  method StatementText(src: String, body: Node, i: nat, attrs: seq<String>) returns (attrs': seq<String>)
    requires i < |body.children|
    requires AttributeExpressions(src, body.children) == attrs + AttrsFrom(src, body.children, i)
    ensures AttributeExpressions(src, body.children) == attrs' + AttrsFrom(src, body.children, i + 1)
  {
    var cs := body.children;
    attrs' := attrs;
    if IsAssignment(cs[i]) {
      attrs' := attrs + [SpanSelect(src, [cs[i]], false)];
    }
    AttrsStep(src, cs, i, attrs, attrs');
  }

  /** The test the loop makes on the body's first statement: its leading
      string, cleaned, is the class docstring. */
  method BodyDocstring(src: String, body: Node) returns (doc: String)
    ensures doc == ClassDocstring(src, body)
  {
    doc := [];
    var cs := body.children;
    if cs != [] && cs[0].children != [] && cs[0].children[0].kind == "string" {
      doc := CleanDocstringComments(SpanSelect(src, [cs[0].children[0]], true));
    }
  }

  /** Moving one statement from the pending suffix to the collected prefix. */
  lemma AttrsStep(src: String, cs: seq<Node>, i: nat, attrs: seq<String>, attrs': seq<String>)
    requires i < |cs|
    requires attrs' == if IsAssignment(cs[i]) then attrs + [SpanSelect(src, [cs[i]], false)] else attrs
    ensures attrs + AttrsFrom(src, cs, i) == attrs' + AttrsFrom(src, cs, i + 1)
  {
    var rest := AttrsFrom(src, cs, i + 1);
    if IsAssignment(cs[i]) {
      assert AttrsFrom(src, cs, i) == [SpanSelect(src, [cs[i]], false)] + rest;
      assert attrs + ([SpanSelect(src, [cs[i]], false)] + rest) == attrs' + rest;
    } else {
      assert AttrsFrom(src, cs, i) == [] + rest == rest;
    }
  }

  /** Statement `i` of a class body, stated through what the rest of the
      body gives. */
  method NextMember(ctx: Context, body: Node, i: nat) returns (r: Result<Members>)
    requires i < |body.children|
    ensures MembersFrom(ctx, body, i) ==
      match r
      case Err(e) => Err(e)
      case Ok((a, b)) => PrependBoth(a, b, MembersFrom(ctx, body, i + 1))
    decreases body, |body.children| - i
  {
    r := MemberNode(ctx, body.children[i]);
  }

  /** One statement of a class body: its method record, then its class
      record, each when it is one. */
  method MemberNode(ctx: Context, child: Node) returns (r: Result<Members>)
    ensures r == MemberOf(ctx, child)
    decreases child, 3
  {
    var isMethod := Distinguish(FunctionType, child);
    if isMethod.Err? {
      return Err(isMethod.error);
    }
    var ms: seq<MethodRecord> := [];
    if isMethod.value {
      var m := ParseMethodNode(ctx, child);
      if m.Err? {
        return Err(m.error);
      }
      ms := [m.value];
    }
    // the class test raises exactly when the method test did
    var isClass := Distinguish(ClassType, child).value;
    var cls: seq<ClassRecord> := [];
    if isClass {
      var k := ParseClassNode(ctx, child);
      if k.Err? {
        return Err(k.error);
      }
      cls := [k.value];
    }
    return Ok((ms, cls));
  }
}
