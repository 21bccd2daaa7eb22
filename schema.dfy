/** What the schema extractors share: the byte-span keys of their side
    tables, `select`, insertion-ordered dictionaries, the split of a default
    argument at its "=" child, the stable sort by start byte, and the
    docstring cleaning of the Python and Ruby parsers.
 */
module Schema {
  import opened Wrappers
  import opened Text
  import opened Tree

  /** `(node.start_byte, node.end_byte)`: how the parsers key nodes. */
  type Key = (nat, nat)

  function KeyOf(n: Node): Key {
    (n.startByte, n.endByte)
  }

  /** `select(nodes, indent)`: the span of each node on its own. */
  function Select(src: String, nodes: seq<Node>, indent: bool): (r: seq<String>)
    ensures |r| == |nodes|
  {
    if nodes == [] then [] else Select(src, nodes[..|nodes| - 1], indent) + [SpanSelect(src, [nodes[|nodes| - 1]], indent)]
  }

  /** Each entry of `select` is the span of the node at the same place. */
  lemma {:induction false} SelectAt(src: String, nodes: seq<Node>, indent: bool, i: nat)
    requires i < |nodes|
    ensures Select(src, nodes, indent)[i] == SpanSelect(src, [nodes[i]], indent)
  {
    if i < |nodes| - 1 {
      SelectAt(src, nodes[..|nodes| - 1], indent, i);
    }
  }

  /** The span of every selected node is among the selected texts. */
  lemma SelectHas(src: String, nodes: seq<Node>, indent: bool, x: Node)
    requires x in nodes
    ensures SpanSelect(src, [x], indent) in Select(src, nodes, indent)
  {
    var i :| 0 <= i < |nodes| && nodes[i] == x;
    SelectAt(src, nodes, indent, i);
  }

  /** `children_of_type(node, s)` called with one type name instead of a
      tuple of them: the children of exactly that type, in order (so the
      `var` keyword is not taken for a `variable_declarator`). */
  function ChildrenOfKind(n: Node, s: String): (r: seq<Node>)
    ensures |r| <= |n.children|
  {
    FilterWhere(n.children, (c: Node) => c.kind == s)
  }

  function FilterWhere(cs: seq<Node>, p: Node -> bool): (r: seq<Node>)
    ensures |r| <= |cs|
    ensures forall i :: 0 <= i < |r| ==> p(r[i]) && r[i] in cs
  {
    if cs == [] then []
    else if p(cs[0]) then [cs[0]] + FilterWhere(cs[1..], p)
    else FilterWhere(cs[1..], p)
  }

  /** The nodes of `cs` whose type is one of `kinds`, built from the end
      (the same list as `FilterKinds`, cheaper to extend in a loop). */
  function KeepKinds(cs: seq<Node>, kinds: set<String>): seq<Node> {
    if cs == [] then [] else KeepKinds(cs[..|cs| - 1], kinds) + (if cs[|cs| - 1].kind in kinds then [cs[|cs| - 1]] else [])
  }

  lemma {:induction false} KeepKindsIsFilter(cs: seq<Node>, kinds: set<String>)
    ensures KeepKinds(cs, kinds) == FilterKinds(cs, kinds)
  {
    if cs != [] {
      KeepKindsIsFilter(cs[..|cs| - 1], kinds);
      assert cs == cs[..|cs| - 1] + [cs[|cs| - 1]];
      FilterKindsSnoc(cs[..|cs| - 1], cs[|cs| - 1], kinds);
    }
  }

  /** Filtering a list one longer keeps the new node exactly when its type
      is one of `kinds`. */
  lemma {:induction false} FilterKindsSnoc(cs: seq<Node>, x: Node, kinds: set<String>)
    ensures FilterKinds(cs + [x], kinds) == FilterKinds(cs, kinds) + (if x.kind in kinds then [x] else [])
  {
    if cs != [] {
      assert (cs + [x])[1..] == cs[1..] + [x];
      FilterKindsSnoc(cs[1..], x, kinds);
    }
  }

  /** `select` of two lists one after the other. */
  lemma SelectSnoc(src: String, a: seq<Node>, x: Node, indent: bool)
    ensures Select(src, a + [x], indent) == Select(src, a, indent) + [SpanSelect(src, [x], indent)]
  {
    assert (a + [x])[..|a|] == a;
  }

  /** The text of an optional node, "" for none. */
  function OptSpan(src: String, n: Option<Node>): (r: String)
    ensures n.None? ==> r == []
  {
    match n
    case None => []
    case Some(x) => Span(src, x)
  }

  /** The first child of `n` with type `kind`. */
  function FirstOfKind(cs: seq<Node>, kind: String): (r: Option<nat>)
    ensures r.Some? ==> r.value < |cs| && cs[r.value].kind == kind
    ensures r.Some? ==> forall j :: 0 <= j < r.value ==> cs[j].kind != kind
    ensures r.None? ==> forall j :: 0 <= j < |cs| ==> cs[j].kind != kind
  {
    FirstChildWhere(cs, (c: Node) => c.kind == kind)
  }

  /** The first child of type `kind` is child `i` when no child before it
      has that type; it is missing when `i` is past the end. */
  lemma FirstOfKindAt(cs: seq<Node>, kind: String, i: nat)
    requires i <= |cs|
    requires forall j :: 0 <= j < i ==> cs[j].kind != kind
    requires i < |cs| ==> cs[i].kind == kind
    ensures FirstOfKind(cs, kind) == if i < |cs| then Some(i) else None
  {
    var k := FirstOfKind(cs, kind);
    if i < |cs| {
      assert k.Some?;
    } else {
      assert k.None?;
    }
  }

  /** The index of the last child of type `kind`. */
  function LastOfKind(cs: seq<Node>, kind: String): (r: Option<nat>)
    ensures r.Some? ==> r.value < |cs| && cs[r.value].kind == kind
                        && forall j :: r.value < j < |cs| ==> cs[j].kind != kind
    ensures r.None? ==> forall j :: 0 <= j < |cs| ==> cs[j].kind != kind
  {
    if cs == [] then None
    else if cs[|cs| - 1].kind == kind then Some(|cs| - 1)
    else LastOfKind(cs[..|cs| - 1], kind)
  }

  /** A node `p` holds is kept by the filter. */
  lemma {:induction false} FilterWhereKeeps(cs: seq<Node>, p: Node -> bool, j: nat)
    requires j < |cs| && p(cs[j])
    ensures cs[j] in FilterWhere(cs, p)
  {
    if j > 0 {
      assert cs[1..][j - 1] == cs[j];
      FilterWhereKeeps(cs[1..], p, j - 1);
    }
  }

  /** `xs` in front of a list that may have raised instead. */
  function Prepend<T>(xs: seq<T>, r: Result<seq<T>>): (p: Result<seq<T>>)
    ensures r.Err? <==> p.Err?
    ensures r.Ok? ==> p.value == xs + r.value
  {
    match r
    case Err(e) => Err(e)
    case Ok(ys) => Ok(xs + ys)
  }

  lemma PrependNothing<T>(r: Result<seq<T>>)
    ensures Prepend([], r) == r
  {
    if r.Ok? {
      assert [] + r.value == r.value;
    }
  }

  lemma PrependTwice<T>(xs: seq<T>, ys: seq<T>, r: Result<seq<T>>)
    ensures Prepend(xs, Prepend(ys, r)) == Prepend(xs + ys, r)
  {
    if r.Ok? {
      assert xs + (ys + r.value) == (xs + ys) + r.value;
    }
  }

  // ---------------------------------------------- leading comments

  /** The number of comment children the file starts with. */
  function CommentRun(cs: seq<Node>): (k: nat)
    ensures k <= |cs|
    ensures forall j :: 0 <= j < k ==> cs[j].kind == "comment"
    ensures k < |cs| ==> cs[k].kind != "comment"
  {
    FirstChildWhere(cs, (c: Node) => c.kind != "comment").GetOr(|cs|)
  }

  /** Each node's indented text followed by a line break, one after the other. */
  function Lines(src: String, cs: seq<Node>): String {
    if cs == [] then [] else Lines(src, cs[..|cs| - 1]) + SpanSelect(src, [cs[|cs| - 1]], true) + "\n"
  }

  /** The comments the children start with, each on its own line. */
  method LeadingComments(src: String, cs: seq<Node>) returns (text: String)
    ensures text == Lines(src, cs[..CommentRun(cs)])
  {
    text := [];
    var i := 0;
    while i < |cs| && cs[i].kind == "comment"
      invariant i <= CommentRun(cs)
      invariant text == Lines(src, cs[..i])
      decreases |cs| - i
    {
      assert cs[..i + 1][..i] == cs[..i];
      text := text + SpanSelect(src, [cs[i]], true) + "\n";
      i := i + 1;
    }
  }

  // ------------------------------------------- insertion-ordered dicts

  /** A `dict` from strings to strings, as its entries in insertion order. */
  type Dict = seq<(String, String)>

  /** `d.get(k)`. */
  function Lookup(d: Dict, k: String): (r: Option<String>)
    ensures r.None? <==> forall i :: 0 <= i < |d| ==> d[i].0 != k
  {
    if d == [] then None
    else if d[0].0 == k then Some(d[0].1)
    else
      assert forall i :: 1 <= i < |d| ==> d[1..][i - 1] == d[i];
      Lookup(d[1..], k)
  }

  /** `d[k] = v`: a key already there keeps its place and takes the new
      value, a new key goes at the end. */
  function Assign(d: Dict, k: String, v: String): (r: Dict)
    ensures (forall i :: 0 <= i < |d| ==> d[i].0 != k) ==> r == d + [(k, v)]
    ensures (exists i :: 0 <= i < |d| && d[i].0 == k) ==> |r| == |d|
    ensures forall i :: 0 <= i < |r| ==> r[i] == (k, v) || (i < |d| && r[i] == d[i])
  {
    if d == [] then [(k, v)]
    else if d[0].0 == k then [(k, v)] + d[1..]
    else
      assert forall i :: 1 <= i < |d| ==> d[1..][i - 1] == d[i];
      [d[0]] + Assign(d[1..], k, v)
  }

  /** After `d[k] = v`, `k` reads `v` and every other key what it read before. */
  lemma {:induction false} AssignLookup(d: Dict, k: String, v: String, k': String)
    ensures Lookup(Assign(d, k, v), k) == Some(v)
    ensures k' != k ==> Lookup(Assign(d, k, v), k') == Lookup(d, k')
  {
    if d != [] && d[0].0 != k {
      AssignLookup(d[1..], k, v, k');
      assert Assign(d, k, v)[1..] == Assign(d[1..], k, v);
    }
  }

  // ---------------------------------------------- default-argument split

  /** A default parameter's children split at its first "=" child: the text
      before it is the key, the text after it the value; `list.index` raises
      `ValueError` when there is no "=" child. */
  function SplitDefault(src: String, cs: seq<Node>): (r: Result<(String, String)>)
    ensures r.Err? <==> forall j :: 0 <= j < |cs| ==> cs[j].kind != "="
    ensures r.Err? ==> r.error == ValueError
  {
    match FirstOfKind(cs, "=")
    case None => Err(ValueError)
    case Some(i) => Ok((SpanSelect(src, cs[..i], false), SpanSelect(src, cs[i + 1..], false)))
  }

  /** The key is the text of the children before the first "=", the value
      the text of those after it. */
  lemma SplitDefaultParts(src: String, cs: seq<Node>, i: nat)
    requires i < |cs| && cs[i].kind == "=" && forall j :: 0 <= j < i ==> cs[j].kind != "="
    ensures SplitDefault(src, cs) == Ok((SpanSelect(src, cs[..i], false), SpanSelect(src, cs[i + 1..], false)))
  {
    var k := FirstOfKind(cs, "=");
    assert k.Some?;
    assert k.value == i;
  }

  // ------------------------------------------------ sort by start byte

  predicate SortedByStart(ns: seq<Node>) {
    forall i, j :: 0 <= i < j < |ns| ==> ns[i].startByte <= ns[j].startByte
  }

  /** Where `n` goes in the sorted `ns`: after every node that does not start
      later, so equal keys keep their order (Python's `sorted` is stable). */
  function InsertByStart(ns: seq<Node>, n: Node): (r: seq<Node>)
    ensures multiset(r) == multiset(ns) + multiset{n}
    ensures |r| == |ns| + 1
  {
    if ns == [] then [n]
    else if n.startByte < ns[|ns| - 1].startByte then
      assert ns == ns[..|ns| - 1] + [ns[|ns| - 1]];
      InsertByStart(ns[..|ns| - 1], n) + [ns[|ns| - 1]]
    else ns + [n]
  }

  /** `sorted(ns, key=lambda x: x.start_byte)`. */
  function SortByStart(ns: seq<Node>): (r: seq<Node>)
    ensures multiset(r) == multiset(ns)
  {
    if ns == [] then [] else
      assert ns == ns[..|ns| - 1] + [ns[|ns| - 1]];
      InsertByStart(SortByStart(ns[..|ns| - 1]), ns[|ns| - 1])
  }

  /** Inserting a node that starts no later than `b` into nodes that start no
      later than `b` gives nodes that start no later than `b`. */
  lemma {:induction false} InsertBelow(ns: seq<Node>, n: Node, b: nat)
    requires forall i :: 0 <= i < |ns| ==> ns[i].startByte <= b
    requires n.startByte <= b
    ensures forall i :: 0 <= i < |InsertByStart(ns, n)| ==> InsertByStart(ns, n)[i].startByte <= b
  {
    if ns != [] && n.startByte < ns[|ns| - 1].startByte {
      InsertBelow(ns[..|ns| - 1], n, b);
    }
  }

  lemma SnocSorted(ns: seq<Node>, x: Node)
    requires SortedByStart(ns)
    requires forall i :: 0 <= i < |ns| ==> ns[i].startByte <= x.startByte
    ensures SortedByStart(ns + [x])
  {
    var full := ns + [x];
    forall i, j | 0 <= i < j < |full| ensures full[i].startByte <= full[j].startByte {
      assert full[i] == ns[i];
    }
  }

  lemma {:induction false} InsertSorted(ns: seq<Node>, n: Node)
    requires SortedByStart(ns)
    ensures SortedByStart(InsertByStart(ns, n))
  {
    if ns != [] && n.startByte < ns[|ns| - 1].startByte {
      var init, last := ns[..|ns| - 1], ns[|ns| - 1];
      assert SortedByStart(init);
      InsertSorted(init, n);
      InsertBelow(init, n, last.startByte);
      SnocSorted(InsertByStart(init, n), last);
    } else if ns != [] {
      SnocSorted(ns, n);
    }
  }

  /** The sorted list is in start-byte order and holds the same nodes. */
  lemma {:induction false} SortByStartSorted(ns: seq<Node>)
    ensures SortedByStart(SortByStart(ns)) && multiset(SortByStart(ns)) == multiset(ns)
  {
    if ns != [] {
      SortByStartSorted(ns[..|ns| - 1]);
      InsertSorted(SortByStart(ns[..|ns| - 1]), ns[|ns| - 1]);
    }
  }

  // ---------------------------------------------- docstring cleaning

  /** The characters of `""" "' """`: space, double and single quote. */
  const QuoteAndSpace: set<char> := {' ', '"', '\''}

  function LStripHash(s: String): String {
    LStripChars(s, {'#'})
  }

  function MapLStripHash(lines: seq<String>): (r: seq<String>)
    ensures |r| == |lines|
  {
    if lines == [] then [] else MapLStripHash(lines[..|lines| - 1]) + [LStripHash(lines[|lines| - 1])]
  }

  /** `_clean_docstring_comments(comment)` of the Python and Ruby parsers:
      strip, strip spaces and quotes, drop the leading "#"s of every line,
      then `textwrap.dedent`. */
  function CleanDocstringComments(comment: String): String {
    Dedent(Join("\n", MapLStripHash(SplitLines(StripChars(Strip(comment), QuoteAndSpace)))))
  }

  /** An empty comment cleans to the empty docstring. */
  lemma CleanDocstringEmpty()
    ensures CleanDocstringComments([]) == []
  {
    assert Strip([]) == [];
    assert StripChars([], QuoteAndSpace) == [];
    assert SplitLines([]) == [];
    assert MapLStripHash([]) == [];
    assert Join("\n", []) == [];
  }
}
