/** The Go extractor: one definition record per top-level method or function
    declaration, with the comments immediately above it as its docstring. */
module GoParser {
  import opened Wrappers
  import opened Text
  import opened Tree

  /** `match_from_span(node, blob)`: the text the node covers (its start and
      end index are its start and end byte). */
  function MatchFromSpan(n: Node, blob: String): (r: String)
    ensures n.startByte <= n.endByte <= |blob| ==> r == blob[n.startByte..n.endByte]
    ensures n.endByte <= n.startByte ==> r == []
  {
    Slice(blob, n.startByte, n.endByte)
  }

  const DeclKinds: set<String> := {"method_declaration", "function_declaration"}

  datatype Metadata = Metadata(identifier: String, parameters: String)

  /** One entry of `get_definition`'s result; `code` is the "function" key. */
  datatype Definition = Definition(
    kind: String,
    identifier: String,
    parameters: String,
    code: String,
    docstring: String,
    startPoint: Point,
    endPoint: Point)

  /** `get_function_metadata`: for a function the identifier is child 1 and the
      parameters child 2; for a method the identifier is child 2 and the
      parameters are child 1, a space and child 3; other nodes get "" and "".
      Missing children raise `IndexError`. */
  function GetFunctionMetadata(n: Node, blob: String): (r: Result<Metadata>)
    ensures n.kind == "function_declaration" ==>
      (r.Ok? <==> |n.children| >= 3) &&
      (r.Ok? ==> r.value == Metadata(MatchFromSpan(n.children[1], blob), MatchFromSpan(n.children[2], blob)))
    ensures n.kind == "method_declaration" ==>
      (r.Ok? <==> |n.children| >= 4) &&
      (r.Ok? ==> r.value.identifier == MatchFromSpan(n.children[2], blob) &&
                 r.value.parameters == MatchFromSpan(n.children[1], blob) + " " + MatchFromSpan(n.children[3], blob))
    ensures n.kind !in DeclKinds ==> r == Ok(Metadata("", ""))
    ensures r.Err? ==> r.error == IndexError
  {
    if n.kind == "function_declaration" then
      if |n.children| < 3 then Err(IndexError)
      else Ok(Metadata(MatchFromSpan(n.children[1], blob), MatchFromSpan(n.children[2], blob)))
    else if n.kind == "method_declaration" then
      if |n.children| < 4 then Err(IndexError)
      else Ok(Metadata(MatchFromSpan(n.children[2], blob),
                       MatchFromSpan(n.children[1], blob) + " " + MatchFromSpan(n.children[3], blob)))
    else Ok(Metadata("", ""))
  }

  /** The longest run of comment nodes at the end of `cs`: what the comment
      buffer holds after visiting `cs`. */
  function TrailingComments(cs: seq<Node>): (r: seq<Node>)
    ensures |r| <= |cs|
    ensures forall i :: 0 <= i < |r| ==> r[i].kind == "comment"
    ensures |r| < |cs| ==> cs[|cs| - |r| - 1].kind != "comment"
  {
    if cs == [] || cs[|cs| - 1].kind != "comment" then []
    else TrailingComments(cs[..|cs| - 1]) + [cs[|cs| - 1]]
  }

  /** The buffered run is exactly the last nodes of `cs`: together with the
      contract above, the maximal run of comments that ends `cs`. */
  lemma {:induction false} TrailingCommentsSuffix(cs: seq<Node>)
    ensures TrailingComments(cs) == cs[|cs| - |TrailingComments(cs)|..]
  {
    if cs != [] && cs[|cs| - 1].kind == "comment" {
      var init := cs[..|cs| - 1];
      TrailingCommentsSuffix(init);
      assert init[|init| - |TrailingComments(init)|..] + [cs[|cs| - 1]] == cs[|cs| - |TrailingComments(cs)|..];
    }
  }

  /** The texts of the buffered comments. */
  function Texts(buffer: seq<Node>, blob: String): (r: seq<String>)
    ensures |r| == |buffer| && forall i :: 0 <= i < |r| ==> r[i] == MatchFromSpan(buffer[i], blob)
  {
    seq(|buffer|, i requires 0 <= i < |buffer| => MatchFromSpan(buffer[i], blob))
  }

  /** The record for declaration `d` whose preceding comment run is `comments`. */
  function MakeDefinition(d: Node, comments: seq<Node>, blob: String): Result<Definition> {
    var m :- GetFunctionMetadata(d, blob);
    Ok(Definition(d.kind, m.identifier, m.parameters, MatchFromSpan(d, blob),
                  Join("\n", Texts(comments, blob)), d.startPoint, d.endPoint))
  }

  /** The declarations among `cs`, in order. */
  function Decls(cs: seq<Node>): (r: seq<Node>)
    ensures |r| <= |cs|
  {
    if cs == [] then []
    else Decls(cs[..|cs| - 1]) + (if cs[|cs| - 1].kind in DeclKinds then [cs[|cs| - 1]] else [])
  }

  /** What `get_definition` computes over root children `cs`: one record per
      declaration, in order, each documented by the comment run just before it;
      the first declaration with missing children makes the whole call fail. */
  function Definitions(cs: seq<Node>, blob: String): Result<seq<Definition>> {
    if cs == [] then Ok([])
    else
      var init := cs[..|cs| - 1];
      var prev :- Definitions(init, blob);
      if cs[|cs| - 1].kind in DeclKinds then
        var d :- MakeDefinition(cs[|cs| - 1], TrailingComments(init), blob);
        Ok(prev + [d])
      else Ok(prev)
  }

  /** `get_definition(tree, blob)`: the loop over the root children that
      fills `comment_buffer` and `definitions`. */
  method GetDefinition(root: Node, blob: String) returns (r: Result<seq<Definition>>)
    ensures r == Definitions(root.children, blob)
  {
    var cs := root.children;
    var definitions: seq<Definition> := [];
    var buffer: seq<Node> := [];
    for i := 0 to |cs|
      invariant Definitions(cs[..i], blob) == Ok(definitions)
      invariant buffer == TrailingComments(cs[..i])
    {
      var child := cs[i];
      DefinitionsStep(cs, i, blob);
      if child.kind == "comment" {
        buffer := buffer + [child];
      } else if child.kind in DeclKinds {
        var docstring := Join("\n", Texts(buffer, blob));
        var metadata := GetFunctionMetadata(child, blob);
        match metadata {
          case Err(e) =>
            DefinitionsPrefixFails(cs, i + 1, blob);
            return Err(e);
          case Ok(m) =>
            definitions := definitions + [Definition(child.kind, m.identifier, m.parameters,
              MatchFromSpan(child, blob), docstring, child.startPoint, child.endPoint)];
            buffer := [];
        }
      } else {
        buffer := [];
      }
    }
    assert cs[..|cs|] == cs;
    r := Ok(definitions);
  }

  /** One step of the scan: how visiting `cs[i]` extends the records and the
      comment buffer. */
  lemma DefinitionsStep(cs: seq<Node>, i: nat, blob: String)
    requires i < |cs|
    ensures TrailingComments(cs[..i + 1]) ==
      if cs[i].kind == "comment" then TrailingComments(cs[..i]) + [cs[i]] else []
    ensures cs[i].kind !in DeclKinds ==> Definitions(cs[..i + 1], blob) == Definitions(cs[..i], blob)
    ensures cs[i].kind in DeclKinds && Definitions(cs[..i], blob).Ok? ==>
      Definitions(cs[..i + 1], blob) ==
        match MakeDefinition(cs[i], TrailingComments(cs[..i]), blob)
        case Err(e) => Err(e)
        case Ok(d) => Ok(Definitions(cs[..i], blob).value + [d])
  {
    assert cs[..i + 1][..i] == cs[..i];
  }

  /** Once a prefix fails, the whole scan fails the same way. */
  lemma {:induction false} DefinitionsPrefixFails(cs: seq<Node>, j: nat, blob: String)
    requires j <= |cs| && Definitions(cs[..j], blob).Err?
    ensures Definitions(cs, blob) == Definitions(cs[..j], blob)
    decreases |cs| - j
  {
    if j < |cs| {
      assert cs[..j + 1][..j] == cs[..j];
      DefinitionsPrefixFails(cs, j + 1, blob);
    } else {
      assert cs[..j] == cs;
    }
  }

  /** The scan of a prefix yields a prefix of the records. */
  lemma {:induction false} DefinitionsPrefix(cs: seq<Node>, j: nat, blob: String)
    requires j <= |cs| && Definitions(cs, blob).Ok?
    ensures Definitions(cs[..j], blob).Ok? && Definitions(cs[..j], blob).value <= Definitions(cs, blob).value
    decreases |cs|
  {
    if j < |cs| {
      var init := cs[..|cs| - 1];
      assert init[..j] == cs[..j];
      DefinitionsPrefix(init, j, blob);
    } else {
      assert cs[..j] == cs;
    }
  }

  /** A declaration whose metadata reads a child it does not have. */
  predicate Malformed(n: Node, blob: String) {
    n.kind in DeclKinds && GetFunctionMetadata(n, blob).Err?
  }

  /** The last child decides the scan's failure given the scan of the rest. */
  lemma DefinitionsLast(cs: seq<Node>, blob: String)
    requires cs != []
    ensures var prev := Definitions(cs[..|cs| - 1], blob);
      Definitions(cs, blob).Err? <==> prev.Err? || Malformed(cs[|cs| - 1], blob)
    ensures Definitions(cs, blob).Err? ==>
      Definitions(cs, blob).error == IndexError || Definitions(cs, blob) == Definitions(cs[..|cs| - 1], blob)
  {
  }

  /** `get_definition` fails exactly when some declaration lacks the children
      its metadata reads, and then with `IndexError`. */
  lemma {:induction false} DefinitionsFail(cs: seq<Node>, blob: String)
    ensures Definitions(cs, blob).Err? <==> exists k :: 0 <= k < |cs| && Malformed(cs[k], blob)
    ensures Definitions(cs, blob).Err? ==> Definitions(cs, blob).error == IndexError
  {
    if cs != [] {
      var init := cs[..|cs| - 1];
      DefinitionsFail(init, blob);
      DefinitionsLast(cs, blob);
      if exists k :: 0 <= k < |init| && Malformed(init[k], blob) {
        var k :| 0 <= k < |init| && Malformed(init[k], blob);
        assert cs[k] == init[k];
      }
      if exists k :: 0 <= k < |cs| && Malformed(cs[k], blob) {
        var k :| 0 <= k < |cs| && Malformed(cs[k], blob);
        if k < |init| { assert init[k] == cs[k]; }
      }
    }
  }

  /** Definitions appear in source order, one per method or function
      declaration, each carrying that declaration's type, text and points. */
  lemma {:induction false} DefinitionsOnePerDecl(cs: seq<Node>, blob: String)
    requires Definitions(cs, blob).Ok?
    ensures |Definitions(cs, blob).value| == |Decls(cs)|
    ensures forall j :: 0 <= j < |Decls(cs)| ==>
      var d, n := Definitions(cs, blob).value[j], Decls(cs)[j];
      d.kind == n.kind && d.code == MatchFromSpan(n, blob) && d.startPoint == n.startPoint && d.endPoint == n.endPoint
  {
    if cs != [] {
      var init, last := cs[..|cs| - 1], cs[|cs| - 1];
      assert Definitions(init, blob).Ok?;
      DefinitionsOnePerDecl(init, blob);
      var prev := Definitions(init, blob).value;
      if last.kind in DeclKinds {
        var d := MakeDefinition(last, TrailingComments(init), blob).value;
        assert Definitions(cs, blob).value == prev + [d];
        assert Decls(cs) == Decls(init) + [last];
        assert d.kind == last.kind && d.code == MatchFromSpan(last, blob);
      } else {
        assert Definitions(cs, blob) == Definitions(init, blob);
        assert Decls(cs) == Decls(init);
      }
    }
  }

  /** The docstring of the declaration at root position `k` is the "\n"-join of
      the texts of the comments immediately above it, with no other node
      between them. */
  lemma DocstringIsPrecedingComments(cs: seq<Node>, k: nat, blob: String)
    requires k < |cs| && cs[k].kind in DeclKinds && Definitions(cs, blob).Ok?
    ensures |Decls(cs[..k])| < |Definitions(cs, blob).value|
    ensures Definitions(cs, blob).value[|Decls(cs[..k])|].docstring == Join("\n", Texts(TrailingComments(cs[..k]), blob))
  {
    DefinitionsPrefix(cs, k + 1, blob);
    assert cs[..k + 1][..k] == cs[..k];
    DefinitionsOnePerDecl(cs[..k], blob);
  }

  // ------------------------------------------------------------- finding

  /** `node.<name>` for the offset attributes of a node of the `tree-sitter`
      binding the package requires: it has `start_byte` and `end_byte`, and
      reading any other name, `startIndex` among them, raises. */
  function OffsetAttribute(n: Node, name: String): (r: Result<nat>)
    ensures r.Err? <==> name != "start_byte" && name != "end_byte"
  {
    if name == "start_byte" then Ok(n.startByte)
    else if name == "end_byte" then Ok(n.endByte)
    else Err(AttributeError)
  }

  /** The attribute names `match_from_span` reads for the start and the end. */
  datatype Reading = Reading(start: String, end: String)

  const AsWritten: Reading := Reading("startIndex", "endIndex")
  const ByBytes: Reading := Reading("start_byte", "end_byte")

  /** `match_from_span` reading the offsets under the names `rd`. */
  function MatchFrom(n: Node, blob: String, rd: Reading): Result<String> {
    var start :- OffsetAttribute(n, rd.start);
    var end :- OffsetAttribute(n, rd.end);
    Ok(Slice(blob, start, end))
  }

  /** `get_function_metadata`: each child is indexed just before its
      `match_from_span` call, the identifier first. */
  function MetadataFrom(n: Node, blob: String, rd: Reading): Result<Metadata> {
    if n.kind == "function_declaration" then
      if |n.children| < 2 then Err(IndexError)
      else
        var identifier :- MatchFrom(n.children[1], blob, rd);
        if |n.children| < 3 then Err(IndexError)
        else
          var parameters :- MatchFrom(n.children[2], blob, rd);
          Ok(Metadata(identifier, parameters))
    else if n.kind == "method_declaration" then
      if |n.children| < 3 then Err(IndexError)
      else
        var identifier :- MatchFrom(n.children[2], blob, rd);
        var receiver :- MatchFrom(n.children[1], blob, rd);
        if |n.children| < 4 then Err(IndexError)
        else
          var parameters :- MatchFrom(n.children[3], blob, rd);
          Ok(Metadata(identifier, receiver + " " + parameters))
    else Ok(Metadata("", ""))
  }

  /** The docstring's list comprehension. */
  function TextsFrom(buffer: seq<Node>, blob: String, rd: Reading): Result<seq<String>> {
    if buffer == [] then Ok([])
    else
      var t :- MatchFrom(buffer[0], blob, rd);
      var rest :- TextsFrom(buffer[1..], blob, rd);
      Ok([t] + rest)
  }

  /** The record for a declaration: the docstring, then the metadata, then
      the declaration's own text. */
  function MakeDefinitionFrom(d: Node, comments: seq<Node>, blob: String, rd: Reading): Result<Definition> {
    var texts :- TextsFrom(comments, blob, rd);
    var m :- MetadataFrom(d, blob, rd);
    var code :- MatchFrom(d, blob, rd);
    Ok(Definition(d.kind, m.identifier, m.parameters, code, Join("\n", texts), d.startPoint, d.endPoint))
  }

  /** `get_definition` over root children `cs`, reading the offsets under
      the names `rd`. */
  function DefinitionsFrom(cs: seq<Node>, blob: String, rd: Reading): Result<seq<Definition>> {
    if cs == [] then Ok([])
    else
      var init := cs[..|cs| - 1];
      var prev :- DefinitionsFrom(init, blob, rd);
      if cs[|cs| - 1].kind in DeclKinds then
        var d :- MakeDefinitionFrom(cs[|cs| - 1], TrailingComments(init), blob, rd);
        Ok(prev + [d])
      else Ok(prev)
  }

  /** As written, every declaration raises: `IndexError` when the child read
      first is missing, `AttributeError` otherwise. */
  lemma MakeAsWrittenFails(d: Node, comments: seq<Node>, blob: String)
    requires d.kind in DeclKinds
    ensures MakeDefinitionFrom(d, comments, blob, AsWritten).Err?
    ensures MakeDefinitionFrom(d, comments, blob, AsWritten).error in {AttributeError, IndexError}
  {
    if comments != [] {
      assert TextsFrom(comments, blob, AsWritten) == Err(AttributeError);
    }
  }

  /** As written, `get_definition` succeeds only on a file without a single
      method or function declaration, and then finds nothing. */
  lemma {:induction false} AsWrittenFailsOnDecl(cs: seq<Node>, blob: String)
    ensures DefinitionsFrom(cs, blob, AsWritten).Ok? <==> Decls(cs) == []
    ensures DefinitionsFrom(cs, blob, AsWritten).Ok? ==> DefinitionsFrom(cs, blob, AsWritten).value == []
    ensures DefinitionsFrom(cs, blob, AsWritten).Err? ==>
      DefinitionsFrom(cs, blob, AsWritten).error in {AttributeError, IndexError}
  {
    if cs != [] {
      var init, last := cs[..|cs| - 1], cs[|cs| - 1];
      AsWrittenFailsOnDecl(init, blob);
      if last.kind in DeclKinds {
        MakeAsWrittenFails(last, TrailingComments(init), blob);
      }
      assert Decls(cs) == Decls(init) + (if last.kind in DeclKinds then [last] else []);
    }
  }

  /** `package p; func f() {}` as written: the lone, well-formed function
      declaration raises `AttributeError`. */
  lemma DeclarationAsWritten(d: Node, blob: String)
    requires d.kind == "function_declaration" && |d.children| >= 3
    ensures DefinitionsFrom([d], blob, AsWritten) == Err(AttributeError)
  {
    assert [d][..0] == [];
  }

  lemma {:induction false} TextsByBytes(buffer: seq<Node>, blob: String)
    ensures TextsFrom(buffer, blob, ByBytes) == Ok(Texts(buffer, blob))
  {
    if buffer != [] {
      TextsByBytes(buffer[1..], blob);
      assert [MatchFromSpan(buffer[0], blob)] + Texts(buffer[1..], blob) == Texts(buffer, blob);
    }
  }

  /** Read by byte offsets, the scan is `Definitions`, the model of
      `get_definition` the rest of this module proves things about. */
  lemma {:induction false} ByBytesIsDefinitions(cs: seq<Node>, blob: String)
    ensures DefinitionsFrom(cs, blob, ByBytes) == Definitions(cs, blob)
  {
    if cs != [] {
      var init, last := cs[..|cs| - 1], cs[|cs| - 1];
      ByBytesIsDefinitions(init, blob);
      TextsByBytes(TrailingComments(init), blob);
    }
  }

  /** The same file read by byte offsets: one record, with the identifier and
      the parameters of the declaration and an empty docstring. */
  lemma DeclarationIntended(d: Node, blob: String)
    requires d.kind == "function_declaration" && |d.children| >= 3
    ensures DefinitionsFrom([d], blob, ByBytes) == Ok([Definition(d.kind, MatchFromSpan(d.children[1], blob),
      MatchFromSpan(d.children[2], blob), MatchFromSpan(d, blob), [], d.startPoint, d.endPoint)])
  {
    assert [d][..0] == [];
    ByBytesIsDefinitions([d], blob);
    assert Join("\n", Texts([], blob)) == [];
    var v := MakeDefinition(d, [], blob).value;
    assert [] + [v] == [v];
  }
}
