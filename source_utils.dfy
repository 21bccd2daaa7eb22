/** `tokenize` and `strip_comments`: the token strings of a parsed file, with
    the whitespace that follows each token, and the file with its comments
    reduced to the line breaks they hold.

    File contents are a `String` of byte-sized characters; decoding the
    slices as UTF-8 is not part of this model.
 */
module SourceUtils {
  import opened Wrappers
  import opened Text
  import opened Tree
  import opened Leaves

  /** Where the run of whitespace starting at `f` ends: `tokenize` walks
      right while the byte is in `string.whitespace`. */
  function WhitespaceEnd(src: String, f: nat): (r: nat)
    ensures f <= r && (f < r ==> r <= |src|)
    ensures forall k :: f <= k < r ==> k < |src| && IsAsciiSpace(src[k])
    ensures r < |src| ==> !IsAsciiSpace(src[r])
    decreases |src| - f
  {
    if f < |src| && IsAsciiSpace(src[f]) then WhitespaceEnd(src, f + 1) else f
  }

  /** The end of the slice a token takes. */
  function TokenEnd(src: String, n: Node, whitespace: bool): nat {
    if whitespace then WhitespaceEnd(src, n.endByte) else n.endByte
  }

  /** The string of one token; the first one is indented by its start column. */
  function TokenText(src: String, n: Node, whitespace: bool, first: bool): String {
    (if first then Spaces(n.startPoint.col) else []) + Slice(src, n.startByte, TokenEnd(src, n, whitespace))
  }

  /** The token strings of the token nodes `ts`. */
  function TokenTexts(src: String, ts: seq<Node>, whitespace: bool): (r: seq<String>)
    ensures |r| == |ts|
  {
    if ts == [] then []
    else TokenTexts(src, ts[..|ts| - 1], whitespace) + [TokenText(src, ts[|ts| - 1], whitespace, |ts| == 1)]
  }

  lemma {:induction false} TokenTextsAt(src: String, ts: seq<Node>, whitespace: bool, k: nat)
    requires k < |ts|
    ensures TokenTexts(src, ts, whitespace)[k] == TokenText(src, ts[k], whitespace, k == 0)
  {
    if k < |ts| - 1 {
      TokenTextsAt(src, ts[..|ts| - 1], whitespace, k);
    }
  }

  /** The tree-sitter types of the token nodes `ts`. */
  function NodeKinds(ts: seq<Node>): (r: seq<String>)
    ensures |r| == |ts|
  {
    if ts == [] then [] else NodeKinds(ts[..|ts| - 1]) + [ts[|ts| - 1].kind]
  }

  lemma {:induction false} NodeKindsAt(ts: seq<Node>, k: nat)
    requires k < |ts|
    ensures NodeKinds(ts)[k] == ts[k].kind
  {
    if k < |ts| - 1 {
      NodeKindsAt(ts[..|ts| - 1], k);
    }
  }

  lemma TextsSnoc(src: String, done: seq<Node>, n: Node, whitespace: bool)
    ensures TokenTexts(src, done + [n], whitespace) == TokenTexts(src, done, whitespace) + [TokenText(src, n, whitespace, done == [])]
    ensures NodeKinds(done + [n]) == NodeKinds(done) + [n.kind]
  {
    assert (done + [n])[..|done|] == done;
  }

  /** `tokenize(file_bytes, node, whitespace)`: one string (and its type) per
      token node below `root`, in tree order. */
  method Tokenize(src: String, root: Node, whitespace: bool) returns (tokens: seq<String>, types: seq<String>)
    ensures tokens == TokenTexts(src, ForestTokens(root.children, CompoundLitsAsWritten), whitespace)
    ensures types == NodeKinds(ForestTokens(root.children, CompoundLitsAsWritten))
  {
    tokens, types := [], [];
    var nodes := root.children;
    ghost var done: seq<Node> := [];
    while nodes != []
      invariant Walked(root, done, nodes, CompoundLitsAsWritten)
      invariant tokens == TokenTexts(src, done, whitespace) && types == NodeKinds(done)
      decreases ForestSize(nodes)
    {
      var nxt := nodes[0];
      if IsToken(nxt, CompoundLitsAsWritten) {
        WalkEmit(root, done, nodes, CompoundLitsAsWritten);
        TextsSnoc(src, done, nxt, whitespace);
        var tok := TokenString(src, nxt, whitespace, tokens == []);
        tokens := tokens + [tok];
        types := types + [nxt.kind];
        done := done + [nxt];
        nodes := nodes[1..];
      } else {
        WalkDescend(root, done, nodes, CompoundLitsAsWritten);
        nodes := nxt.children + nodes[1..];
      }
    }
    WalkDone(root, done, CompoundLitsAsWritten);
  }

  /** The string one token node contributes. */
  method TokenString(src: String, n: Node, whitespace: bool, first: bool) returns (tok: String)
    ensures tok == TokenText(src, n, whitespace, first)
  {
    var start, finish := n.startByte, n.endByte;
    if whitespace {
      finish := SkipWhitespace(src, finish);
    }
    tok := Slice(src, start, finish);
    if first {
      tok := Spaces(n.startPoint.col) + tok;
    }
  }

  /** The walk right over whitespace. */
  method SkipWhitespace(src: String, f: nat) returns (finish: nat)
    ensures finish == WhitespaceEnd(src, f)
  {
    finish := f;
    while finish < |src|
      invariant f <= finish && WhitespaceEnd(src, finish) == WhitespaceEnd(src, f)
      decreases |src| - finish
    {
      if !IsAsciiSpace(src[finish]) {
        break;
      }
      finish := finish + 1;
    }
  }

  /** The core promise of `tokenize`: the k-th string is the k-th token
      node's bytes, followed, when asked, by exactly the whitespace after
      it; only the first is indented. */
  lemma TokenizeMeaning(src: String, root: Node, whitespace: bool, k: nat)
    requires k < |ForestTokens(root.children, CompoundLitsAsWritten)|
    ensures var t := ForestTokens(root.children, CompoundLitsAsWritten)[k];
      var e := TokenEnd(src, t, whitespace);
      TokenTexts(src, ForestTokens(root.children, CompoundLitsAsWritten), whitespace)[k]
        == (if k == 0 then Spaces(t.startPoint.col) else []) + Slice(src, t.startByte, e)
      && (whitespace ==> e == WhitespaceEnd(src, t.endByte))
      && (!whitespace ==> e == t.endByte)
  {
    TokenTextsAt(src, ForestTokens(root.children, CompoundLitsAsWritten), whitespace, k);
  }

  /** In a parse tree whose spans nest in order, the tokens come in the
      order of the source. */
  lemma TokenizeInOrder(root: Node, k: nat)
    requires Ordered(root) && k + 1 < |ForestTokens(root.children, CompoundLitsAsWritten)|
    ensures ForestTokens(root.children, CompoundLitsAsWritten)[k].endByte
      <= ForestTokens(root.children, CompoundLitsAsWritten)[k + 1].startByte
  {
    RootTokensInOrder(root, CompoundLitsAsWritten);
  }

  // ------------------------------------------------------------- strip_comments

  /** What one token contributes: a comment keeps only its part from the
      first line feed on (`tok.index("\n")` raises when there is none). */
  function Piece(tok: String, kind: String): Option<String> {
    if kind == "comment" then
      match IndexOfChar(tok, '\n')
      case None => None
      case Some(i) => Some(tok[i..])
    else Some(tok)
  }

  function Pieces(tokens: seq<String>, types: seq<String>): (r: Option<seq<String>>)
    requires |tokens| == |types|
    ensures r.Some? ==> |r.value| == |tokens|
  {
    if tokens == [] then Some([])
    else
      var n := |tokens| - 1;
      match Pieces(tokens[..n], types[..n])
      case None => None
      case Some(ps) =>
        match Piece(tokens[n], types[n])
        case None => None
        case Some(p) => Some(ps + [p])
  }

  /** The commentless text of a token stream. */
  function CommentFree(tokens: seq<String>, types: seq<String>): Result<String>
    requires |tokens| == |types|
  {
    match Pieces(tokens, types)
    case None => Err(ValueError)
    case Some(ps) => Ok(Join([], ps))
  }

  /** `strip_comments(parser, node)` on the file's bytes and the given node. */
  function Uncommented(src: String, root: Node): Result<String> {
    var ts := ForestTokens(root.children, CompoundLitsAsWritten);
    CommentFree(TokenTexts(src, ts, true), NodeKinds(ts))
  }

  lemma {:induction false} PiecesPrefixFails(tokens: seq<String>, types: seq<String>, i: nat)
    requires |tokens| == |types| && i <= |tokens| && Pieces(tokens[..i], types[..i]).None?
    ensures Pieces(tokens, types).None?
    decreases |tokens| - i
  {
    if i < |tokens| {
      var n := |tokens| - 1;
      assert tokens[..n][..i] == tokens[..i] && types[..n][..i] == types[..i];
      PiecesPrefixFails(tokens[..n], types[..n], i);
    } else {
      assert tokens[..i] == tokens && types[..i] == types;
    }
  }

  method StripComments(src: String, root: Node) returns (r: Result<String>)
    ensures r == Uncommented(src, root)
  {
    var tokens, types := Tokenize(src, root, true);
    r := JoinCommentFree(tokens, types);
  }

  /** The loop of `strip_comments` over the token stream. */
  method JoinCommentFree(tokens: seq<String>, types: seq<String>) returns (r: Result<String>)
    requires |tokens| == |types|
    ensures r == CommentFree(tokens, types)
  {
    var commentless: seq<String> := [];
    for i := 0 to |tokens|
      invariant Pieces(tokens[..i], types[..i]) == Some(commentless)
    {
      assert tokens[..i + 1][..i] == tokens[..i] && types[..i + 1][..i] == types[..i];
      if types[i] == "comment" {
        var newlineIndex := IndexOfChar(tokens[i], '\n');
        if newlineIndex.None? {
          PiecesPrefixFails(tokens, types, i + 1);
          return Err(ValueError);
        }
        commentless := commentless + [tokens[i][newlineIndex.value..]];
      } else {
        commentless := commentless + [tokens[i]];
      }
    }
    assert tokens[..|tokens|] == tokens && types[..|types|] == types;
    r := Ok(Join([], commentless));
  }

  /** `strip_comments` raises exactly when some comment token holds no line
      feed. */
  lemma {:induction false} PiecesFail(tokens: seq<String>, types: seq<String>)
    requires |tokens| == |types|
    ensures Pieces(tokens, types).None?
      <==> exists k :: 0 <= k < |tokens| && types[k] == "comment" && '\n' !in tokens[k]
  {
    if tokens != [] {
      var n := |tokens| - 1;
      PiecesFail(tokens[..n], types[..n]);
      if exists k :: 0 <= k < n && types[..n][k] == "comment" && '\n' !in tokens[..n][k] {
        var k :| 0 <= k < n && types[..n][k] == "comment" && '\n' !in tokens[..n][k];
        assert types[k] == "comment" && '\n' !in tokens[k];
      }
      if exists k :: 0 <= k < |tokens| && types[k] == "comment" && '\n' !in tokens[k] {
        var k :| 0 <= k < |tokens| && types[k] == "comment" && '\n' !in tokens[k];
        if k < n {
          assert types[..n][k] == "comment" && '\n' !in tokens[..n][k];
        }
      }
    }
  }

  /** Each piece is its token, except that a comment is cut down to the
      suffix starting at its first line feed. */
  lemma {:induction false} PiecesAt(tokens: seq<String>, types: seq<String>, k: nat)
    requires |tokens| == |types| && Pieces(tokens, types).Some? && k < |tokens|
    ensures var p := Pieces(tokens, types).value[k];
      (types[k] != "comment" ==> p == tokens[k])
      && (types[k] == "comment" ==> exists i :: 0 <= i < |tokens[k]| && tokens[k][i] == '\n' && '\n' !in tokens[k][..i] && p == tokens[k][i..])
  {
    var n := |tokens| - 1;
    if k < n {
      PiecesAt(tokens[..n], types[..n], k);
    } else if types[k] == "comment" {
      var i := IndexOfChar(tokens[k], '\n').value;
      assert tokens[k][i] == '\n';
    }
  }

  lemma {:induction false} CountCharAppend(a: String, b: String, c: char)
    ensures CountChar(a + b, c) == CountChar(a, c) + CountChar(b, c)
  {
    if a != [] {
      assert (a + b)[0] == a[0] && (a + b)[1..] == a[1..] + b;
      CountCharAppend(a[1..], b, c);
    } else {
      assert a + b == b;
    }
  }

  lemma JoinEmptyLast(ps: seq<String>, p: String)
    ensures Join([], ps + [p]) == Join([], ps) + p
  {
    if ps == [] {
      assert ps + [p] == [p];
    } else {
      assert (ps + [p])[1..] == ps[1..] + [p];
      JoinEmptyLast(ps[1..], p);
    }
  }

  lemma CountCharAbsent(s: String, c: char)
    requires c !in s
    ensures CountChar(s, c) == 0
  {
    if s != [] {
      assert s == [s[0]] + s[1..];
    }
  }

  /** Removing comments keeps every line feed, so each line of code stays on
      its line. */
  lemma {:induction false} CommentFreeKeepsLines(tokens: seq<String>, types: seq<String>)
    requires |tokens| == |types| && CommentFree(tokens, types).Ok?
    ensures CountChar(CommentFree(tokens, types).value, '\n') == CountChar(Join([], tokens), '\n')
  {
    if tokens != [] {
      var n := |tokens| - 1;
      var ps := Pieces(tokens[..n], types[..n]).value;
      var p := Piece(tokens[n], types[n]).value;
      CommentFreeKeepsLines(tokens[..n], types[..n]);
      assert Pieces(tokens, types).value == ps + [p];
      JoinEmptyLast(ps, p);
      assert tokens == tokens[..n] + [tokens[n]];
      JoinEmptyLast(tokens[..n], tokens[n]);
      CountCharAppend(Join([], ps), p, '\n');
      CountCharAppend(Join([], tokens[..n]), tokens[n], '\n');
      if types[n] == "comment" {
        var i := IndexOfChar(tokens[n], '\n').value;
        assert tokens[n] == tokens[n][..i] + p;
        CountCharAppend(tokens[n][..i], p, '\n');
        CountCharAbsent(tokens[n][..i], '\n');
      }
    }
  }
}
