/** The token nodes of a tree as `tokenize` and the minified-code check see
    them: leaves, and string or char literals taken whole.  Both walk the
    tree with a front-popped worklist; here the same nodes are defined by
    plain recursion, and the worklist step is proved to follow it.
 */
module Leaves {
  import opened Text
  import opened Tree

  /** The literal-container types as `tokenize` and
      `fraction_of_tokens_with_whitespace` spell the tuple: a missing comma
      makes the first two one string.  `tokenize`, `strip_comments` and the
      minified-code check are modelled with this set. */
  const CompoundLitsAsWritten: set<String> := {"concatenated_string, string_array", "chained_string"}

  /** The literal-container types the tuple evidently means, the same three
      `get_tokens` excludes. */
  const CompoundLits: set<String> := {"concatenated_string", "string_array", "chained_string"}

  /** A node the walk emits instead of descending: a leaf, a string-typed
      node that is not a container, or a char-typed node. */
  predicate IsToken(n: Node, compound: set<String>) {
    n.IsLeaf() || (Contains(n.kind, "string") && n.kind !in compound) || Contains(n.kind, "char")
  }

  /** The token nodes of `n`, left to right. */
  function TokensOf(n: Node, compound: set<String>): seq<Node>
    decreases n, 1
  {
    if IsToken(n, compound) then [n] else ChildrenTokensOf(n, 0, compound)
  }

  function ChildrenTokensOf(n: Node, i: nat, compound: set<String>): seq<Node>
    requires i <= |n.children|
    decreases n, 0, |n.children| - i
  {
    if i == |n.children| then [] else TokensOf(n.children[i], compound) + ChildrenTokensOf(n, i + 1, compound)
  }

  /** The token nodes of a list of trees, one after the other. */
  function ForestTokens(ws: seq<Node>, compound: set<String>): seq<Node> {
    if ws == [] then [] else TokensOf(ws[0], compound) + ForestTokens(ws[1..], compound)
  }

  lemma {:induction false} ForestTokensAppend(a: seq<Node>, b: seq<Node>, compound: set<String>)
    ensures ForestTokens(a + b, compound) == ForestTokens(a, compound) + ForestTokens(b, compound)
  {
    if a != [] {
      assert (a + b)[0] == a[0] && (a + b)[1..] == a[1..] + b;
      ForestTokensAppend(a[1..], b, compound);
    } else {
      assert a + b == b;
    }
  }

  lemma {:induction false} ChildrenTokensForest(n: Node, i: nat, compound: set<String>)
    requires i <= |n.children|
    ensures ChildrenTokensOf(n, i, compound) == ForestTokens(n.children[i..], compound)
    decreases |n.children| - i
  {
    if i < |n.children| {
      ChildrenTokensForest(n, i + 1, compound);
      assert n.children[i..][1..] == n.children[i + 1..];
    }
  }

  // ------------------------------------------------------------- sizes

  /** The number of nodes of a tree: what the worklist loop uses up. */
  function Size(n: Node): nat
    decreases n, 1
  {
    1 + ChildrenSize(n, 0)
  }

  function ChildrenSize(n: Node, i: nat): nat
    requires i <= |n.children|
    decreases n, 0, |n.children| - i
  {
    if i == |n.children| then 0 else Size(n.children[i]) + ChildrenSize(n, i + 1)
  }

  function ForestSize(ws: seq<Node>): nat {
    if ws == [] then 0 else Size(ws[0]) + ForestSize(ws[1..])
  }

  lemma {:induction false} ForestSizeAppend(a: seq<Node>, b: seq<Node>)
    ensures ForestSize(a + b) == ForestSize(a) + ForestSize(b)
  {
    if a != [] {
      assert (a + b)[0] == a[0] && (a + b)[1..] == a[1..] + b;
      ForestSizeAppend(a[1..], b);
    } else {
      assert a + b == b;
    }
  }

  lemma {:induction false} ChildrenSizeForest(n: Node, i: nat)
    requires i <= |n.children|
    ensures ChildrenSize(n, i) == ForestSize(n.children[i..])
    decreases |n.children| - i
  {
    if i < |n.children| {
      ChildrenSizeForest(n, i + 1);
      assert n.children[i..][1..] == n.children[i + 1..];
    }
  }

  /** One step of the worklist: a token node is emitted and dropped, any
      other node is replaced by its children in front of the rest; either
      way the token nodes still to come are unchanged and the work shrinks. */
  lemma WorklistStep(ws: seq<Node>, compound: set<String>)
    requires ws != []
    ensures IsToken(ws[0], compound) ==>
      ForestTokens(ws, compound) == [ws[0]] + ForestTokens(ws[1..], compound)
      && ForestSize(ws[1..]) < ForestSize(ws)
    ensures !IsToken(ws[0], compound) ==>
      ForestTokens(ws, compound) == ForestTokens(ws[0].children + ws[1..], compound)
      && ForestSize(ws[0].children + ws[1..]) < ForestSize(ws)
  {
    if !IsToken(ws[0], compound) {
      ForestTokensAppend(ws[0].children, ws[1..], compound);
      ChildrenTokensForest(ws[0], 0, compound);
      assert ws[0].children[0..] == ws[0].children;
      ForestSizeAppend(ws[0].children, ws[1..]);
      ChildrenSizeForest(ws[0], 0);
    }
  }

  /** The state of a worklist walk over `root`'s children: `done` are the
      token nodes already handled, `nodes` the trees still to walk. */
  ghost predicate Walked(root: Node, done: seq<Node>, nodes: seq<Node>, compound: set<String>) {
    done + ForestTokens(nodes, compound) == ForestTokens(root.children, compound)
  }

  /** Popping a token node and handling it keeps the walk on track. */
  lemma WalkEmit(root: Node, done: seq<Node>, nodes: seq<Node>, compound: set<String>)
    requires nodes != [] && IsToken(nodes[0], compound) && Walked(root, done, nodes, compound)
    ensures Walked(root, done + [nodes[0]], nodes[1..], compound)
    ensures ForestSize(nodes[1..]) < ForestSize(nodes)
  {
    WorklistStep(nodes, compound);
    assert (done + [nodes[0]]) + ForestTokens(nodes[1..], compound)
      == done + ([nodes[0]] + ForestTokens(nodes[1..], compound));
  }

  /** Replacing an inner node by its children keeps the walk on track. */
  lemma WalkDescend(root: Node, done: seq<Node>, nodes: seq<Node>, compound: set<String>)
    requires nodes != [] && !IsToken(nodes[0], compound) && Walked(root, done, nodes, compound)
    ensures Walked(root, done, nodes[0].children + nodes[1..], compound)
    ensures ForestSize(nodes[0].children + nodes[1..]) < ForestSize(nodes)
  {
    WorklistStep(nodes, compound);
  }

  /** When the worklist is empty every token node has been handled. */
  lemma WalkDone(root: Node, done: seq<Node>, compound: set<String>)
    requires Walked(root, done, [], compound)
    ensures done == ForestTokens(root.children, compound)
  {
    assert done + [] == done;
  }

  // ------------------------------------------------------------- order

  /** Every node's span holds its children's spans, which follow each
      other without overlapping, as a parser produces them. */
  predicate Ordered(n: Node)
    decreases n, 1
  {
    n.startByte <= n.endByte && ChildrenOrdered(n, 0)
  }

  predicate ChildrenOrdered(n: Node, i: nat)
    requires i <= |n.children|
    decreases n, 0, |n.children| - i
  {
    i == |n.children|
    || (n.startByte <= n.children[i].startByte && n.children[i].endByte <= n.endByte
        && (i + 1 < |n.children| ==> n.children[i].endByte <= n.children[i + 1].startByte)
        && Ordered(n.children[i]) && ChildrenOrdered(n, i + 1))
  }

  /** Each node ends before the next one starts. */
  predicate InOrder(ts: seq<Node>) {
    forall k :: 0 <= k < |ts| - 1 ==> ts[k].endByte <= ts[k + 1].startByte
  }

  /** Every node lies inside `[lo, hi]`. */
  predicate Within(ts: seq<Node>, lo: nat, hi: nat) {
    forall k :: 0 <= k < |ts| ==> lo <= ts[k].startByte <= ts[k].endByte <= hi
  }

  lemma InOrderConcat(a: seq<Node>, b: seq<Node>, lo: nat, m: nat, hi: nat)
    requires lo <= m <= hi && InOrder(a) && InOrder(b) && Within(a, lo, m) && Within(b, m, hi)
    ensures InOrder(a + b) && Within(a + b, lo, hi)
  {
    forall k | 0 <= k < |a + b| - 1 ensures (a + b)[k].endByte <= (a + b)[k + 1].startByte {
      if k + 1 < |a| {
        assert (a + b)[k] == a[k] && (a + b)[k + 1] == a[k + 1];
      } else if k + 1 == |a| {
        assert (a + b)[k] == a[k] && (a + b)[k + 1] == b[0];
      } else {
        assert (a + b)[k] == b[k - |a|] && (a + b)[k + 1] == b[k - |a| + 1];
      }
    }
    forall k | 0 <= k < |a + b| ensures lo <= (a + b)[k].startByte <= (a + b)[k].endByte <= hi {
      if k < |a| {
        assert (a + b)[k] == a[k];
      } else {
        assert (a + b)[k] == b[k - |a|];
      }
    }
  }

  /** In an ordered tree the token nodes come in source order. */
  lemma {:induction false} TokensInOrder(n: Node, compound: set<String>)
    requires Ordered(n)
    ensures InOrder(TokensOf(n, compound)) && Within(TokensOf(n, compound), n.startByte, n.endByte)
    decreases n, 1
  {
    if !IsToken(n, compound) {
      ChildrenTokensInOrder(n, 0, compound);
    }
  }

  lemma {:induction false} ChildrenTokensInOrder(n: Node, i: nat, compound: set<String>)
    requires i <= |n.children| && n.startByte <= n.endByte && ChildrenOrdered(n, i)
    ensures var lo := if i < |n.children| then n.children[i].startByte else n.endByte;
      n.startByte <= lo && InOrder(ChildrenTokensOf(n, i, compound))
      && Within(ChildrenTokensOf(n, i, compound), lo, n.endByte)
    decreases n, 0, |n.children| - i
  {
    if i < |n.children| {
      var c := n.children[i];
      TokensInOrder(c, compound);
      ChildrenTokensInOrder(n, i + 1, compound);
      var m := if i + 1 < |n.children| then n.children[i + 1].startByte else n.endByte;
      if i + 1 < |n.children| {
        assert ChildrenOrdered(n, i + 1);
        assert Ordered(n.children[i + 1]);
      }
      assert c.endByte <= m <= n.endByte;
      assert Within(TokensOf(c, compound), c.startByte, m);
      InOrderConcat(TokensOf(c, compound), ChildrenTokensOf(n, i + 1, compound), c.startByte, m, n.endByte);
    }
  }

  /** The token nodes of an ordered tree's children come in source order. */
  lemma RootTokensInOrder(root: Node, compound: set<String>)
    requires Ordered(root)
    ensures InOrder(ForestTokens(root.children, compound))
  {
    ChildrenTokensInOrder(root, 0, compound);
    ChildrenTokensForest(root, 0, compound);
    assert root.children[0..] == root.children;
  }

  // ------------------------------------------------------------- finding

  /** As written, a `concatenated_string` with parts is taken whole. */
  lemma ConcatenatedAsWritten(n: Node)
    requires n.kind == "concatenated_string"
    ensures TokensOf(n, CompoundLitsAsWritten) == [n]
  {
    assert At(n.kind, "string", 13);
  }

  lemma NoCharWithoutCh(k: String)
    requires forall j :: 0 <= j < |k| - 1 ==> !(k[j] == 'c' && k[j + 1] == 'h')
    ensures !Contains(k, "char")
  {
    forall i | 0 <= i <= |k| ensures !At(k, "char", i) {
      if i + 4 <= |k| {
        assert k[i..i + 4][0] == k[i] && k[i..i + 4][1] == k[i + 1];
      }
    }
  }

  /** As intended, its parts are visited one by one. */
  lemma ConcatenatedIntended(n: Node)
    requires n.kind == "concatenated_string" && n.children != []
    ensures TokensOf(n, CompoundLits) == ForestTokens(n.children, CompoundLits)
  {
    var k := n.kind;
    assert forall j :: 0 <= j < |k| - 1 ==> !(k[j] == 'c' && k[j + 1] == 'h');
    NoCharWithoutCh(k);
    ChildrenTokensForest(n, 0, CompoundLits);
    assert n.children[0..] == n.children;
  }
}
