/** The Ruby schema extractor (`RubyParser`): the module-prefix table built
    by `update`, the class and method candidates, the file docstring and
    context, the method and class records, and the schema's merge of
    reopened classes.
 */
module Ruby {
  import opened Wrappers
  import opened Text
  import opened Tree
  import opened Schema
  import opened Namespaces

  const MethodTypes: set<String> := {"method", "singleton_method"}
  const ClassTypes: set<String> := {"class"}
  const ImportTypes: set<String> := {"call"}
  const NamespaceTypes: set<String> := {"module"}

  /** The children whose presence makes the walk enter a module itself
      (singleton methods are not among them). */
  const MemberTypes: set<String> := {"class", "method"}

  /** What `update` leaves on the parser: the source bytes, the tree, the
      row offset added to every point, and the module-prefix table. */
  datatype Context = Context(
    src: String,
    root: Node,
    startingPoint: nat,
    namespaces: map<Key, String>)

  function Shift(ctx: Context, p: Point): Point {
    Point(ctx.startingPoint + p.row, p.col)
  }

  /** A recorded node's prefix, "" for a node the walk did not record. */
  function PrefixOf(ctx: Context, n: Node): String {
    if KeyOf(n) in ctx.namespaces then ctx.namespaces[KeyOf(n)] else []
  }

  // ------------------------------------------------------ namespace walk

  /** A module's name followed by ".", or "" for a module without one. */
  function ModuleName(src: String, n: Node): (r: String)
    ensures ChildByField(n, "name").Some? ==> r == Span(src, ChildByField(n, "name").value) + "."
    ensures ChildByField(n, "name").None? ==> r == []
    ensures r == [] || EndsWith(r, ".")
  {
    match ChildByField(n, "name")
    case None => []
    case Some(x) => Span(src, x) + "."
  }

  predicate HasMembers(n: Node) {
    exists j :: 0 <= j < |n.children| && n.children[j].kind in MemberTypes
  }

  /** The writes `_traverse_namespace(node, prefix)` makes, in order.  Each
      entry names the node whose child it records; the Ruby table keeps
      only the prefix. */
  function Writes(src: String, node: Node, prefix: String): seq<Entry>
    decreases node, 1
  {
    WritesFrom(src, node, prefix, 0)
  }

  function WritesFrom(src: String, node: Node, prefix: String, i: nat): seq<Entry>
    requires i <= |node.children|
    decreases node, 0, |node.children| - i
  {
    if i == |node.children| then [] else
      ChildWrites(src, node, i, prefix) + WritesFrom(src, node, prefix, i + 1)
  }

  /** The writes for child `i`: the walks inside a module, then the records
      of a class (with its class children) or of a method. */
  function ChildWrites(src: String, node: Node, i: nat, prefix: String): seq<Entry>
    requires i < |node.children|
    decreases node, 0, |node.children| - i - 1
  {
    var child := node.children[i];
    ModuleWrites(src, child, prefix) + ClassWrites(node, child, prefix) + MethodWrites(node, child, prefix)
  }

  /** Inside a module: every non-empty module child is walked with both
      names added to the prefix, then the module itself, with its own name
      added, when it holds a class or a method. */
  function ModuleWrites(src: String, child: Node, prefix: String): seq<Entry>
    decreases child, 3
  {
    if child.kind !in NamespaceTypes then [] else
      var p := prefix + ModuleName(src, child);
      SubModuleWrites(src, child, p, 0) + (if HasMembers(child) then Writes(src, child, p) else [])
  }

  function SubModuleWrites(src: String, m: Node, p: String, j: nat): seq<Entry>
    requires j <= |m.children|
    decreases m, 2, |m.children| - j
  {
    if j == |m.children| then [] else
      var sub := m.children[j];
      (if sub.kind == "module" && sub.children != [] then Writes(src, sub, p + ModuleName(src, sub)) else [])
      + SubModuleWrites(src, m, p, j + 1)
  }

  /** A class is recorded with the walk's prefix, and so is each of its
      class children. */
  function ClassWrites(node: Node, child: Node, prefix: String): seq<Entry> {
    if child.kind !in ClassTypes then [] else
      [Entry(KeyOf(child), prefix, node)] + InnerClassWrites(child, prefix, |child.children|)
  }

  /** The records of the class children among the first `j` children of `c`. */
  function InnerClassWrites(c: Node, prefix: String, j: nat): seq<Entry>
    requires j <= |c.children|
  {
    if j == 0 then [] else
      InnerClassWrites(c, prefix, j - 1)
      + (if c.children[j - 1].kind == "class" then [Entry(KeyOf(c.children[j - 1]), prefix, c)] else [])
  }

  /** A method is recorded with the walk's prefix (the module name the
      source adds is "" for a node that is not a module). */
  function MethodWrites(node: Node, child: Node, prefix: String): seq<Entry> {
    if child.kind in MethodTypes then [Entry(KeyOf(child), prefix, node)] else []
  }

  /** `s` is `prefix` followed by module names, each ending in ".". */
  predicate DotExtends(s: String, prefix: String) {
    StartsWith(s, prefix) && (|s| > |prefix| ==> EndsWith(s, "."))
  }

  lemma DotExtendsName(prefix: String, name: String)
    requires name == [] || EndsWith(name, ".")
    ensures DotExtends(prefix + name, prefix)
  {
    assert (prefix + name)[..|prefix|] == prefix;
    if name != [] {
      assert (prefix + name)[|prefix + name| - 1..] == name[|name| - 1..];
    }
  }

  lemma DotExtendsTrans(s: String, p: String, prefix: String)
    requires DotExtends(p, prefix) && DotExtends(s, p)
    ensures DotExtends(s, prefix)
  {
    assert s[..|prefix|] == p[..|prefix|];
    if |s| == |p| {
      assert s == p;
    }
  }

  /** Every recorded prefix is the walk's prefix followed by module names:
      the prefix accumulates "Name." per enclosing module. */
  lemma {:induction false} WritesExtend(src: String, node: Node, prefix: String)
    ensures forall e :: e in Writes(src, node, prefix) ==> DotExtends(e.prefix, prefix)
    decreases node, 1
  {
    WritesFromExtend(src, node, prefix, 0);
  }

  lemma {:induction false} WritesFromExtend(src: String, node: Node, prefix: String, i: nat)
    requires i <= |node.children|
    ensures forall e :: e in WritesFrom(src, node, prefix, i) ==> DotExtends(e.prefix, prefix)
    decreases node, 0, |node.children| - i
  {
    if i < |node.children| {
      var child := node.children[i];
      WritesFromExtend(src, node, prefix, i + 1);
      ModuleWritesExtend(src, child, prefix);
      InnerClassWritesAt(child, prefix, |child.children|);
      assert WritesFrom(src, node, prefix, i) ==
        ModuleWrites(src, child, prefix) + ClassWrites(node, child, prefix) + MethodWrites(node, child, prefix)
        + WritesFrom(src, node, prefix, i + 1);
    }
  }

  lemma {:induction false} ModuleWritesExtend(src: String, child: Node, prefix: String)
    ensures forall e :: e in ModuleWrites(src, child, prefix) ==> DotExtends(e.prefix, prefix)
    decreases child, 3
  {
    if child.kind in NamespaceTypes {
      var p := prefix + ModuleName(src, child);
      DotExtendsName(prefix, ModuleName(src, child));
      SubModuleWritesExtend(src, child, p, 0);
      if HasMembers(child) {
        WritesExtend(src, child, p);
      }
      forall e | e in ModuleWrites(src, child, prefix) ensures DotExtends(e.prefix, prefix) {
        DotExtendsTrans(e.prefix, p, prefix);
      }
    }
  }

  lemma {:induction false} SubModuleWritesExtend(src: String, m: Node, p: String, j: nat)
    requires j <= |m.children|
    ensures forall e :: e in SubModuleWrites(src, m, p, j) ==> DotExtends(e.prefix, p)
    decreases m, 2, |m.children| - j
  {
    if j < |m.children| {
      var sub := m.children[j];
      SubModuleWritesExtend(src, m, p, j + 1);
      if sub.kind == "module" && sub.children != [] {
        var q := p + ModuleName(src, sub);
        DotExtendsName(p, ModuleName(src, sub));
        WritesExtend(src, sub, q);
        forall e | e in Writes(src, sub, q) ensures DotExtends(e.prefix, p) {
          DotExtendsTrans(e.prefix, q, p);
        }
      }
    }
  }

  /** The inner class records carry the class's own prefix. */
  lemma {:induction false} InnerClassWritesAt(c: Node, prefix: String, j: nat)
    requires j <= |c.children|
    ensures forall e :: e in InnerClassWrites(c, prefix, j) ==> e.prefix == prefix
  {
    if j > 0 {
      InnerClassWritesAt(c, prefix, j - 1);
    }
  }

  lemma {:induction false} WritesFromHolds(src: String, node: Node, prefix: String, i: nat, k: nat)
    requires i <= k < |node.children|
    ensures forall e :: e in ChildWrites(src, node, k, prefix) ==> e in WritesFrom(src, node, prefix, i)
    decreases k - i
  {
    var here := ChildWrites(src, node, i, prefix);
    var rest := WritesFrom(src, node, prefix, i + 1);
    assert WritesFrom(src, node, prefix, i) == here + rest;
    if i < k {
      WritesFromHolds(src, node, prefix, i + 1, k);
      forall e | e in ChildWrites(src, node, k, prefix) ensures e in here + rest {
        assert e in rest;
      }
    } else {
      forall e | e in here ensures e in here + rest {
      }
    }
  }

  /** A class or method written directly in a module that holds a class or
      a method is recorded with the module's name and "." added to the
      prefix. */
  lemma {:induction false} ModuleMemberRecorded(src: String, node: Node, prefix: String, i: nat, j: nat)
    requires i < |node.children| && node.children[i].kind in NamespaceTypes
    requires j < |node.children[i].children|
    requires node.children[i].children[j].kind in ClassTypes + MethodTypes
    requires HasMembers(node.children[i])
    ensures Entry(KeyOf(node.children[i].children[j]), prefix + ModuleName(src, node.children[i]), node.children[i])
      in Writes(src, node, prefix)
  {
    var m := node.children[i];
    var p := prefix + ModuleName(src, m);
    var e := Entry(KeyOf(m.children[j]), p, m);
    assert e in ChildWrites(src, m, j, p);
    WritesFromHolds(src, m, p, 0, j);
    assert e in ModuleWrites(src, m, prefix);
    assert e in ChildWrites(src, node, i, prefix);
    WritesFromHolds(src, node, prefix, 0, i);
  }

  /** A class or method that is a direct child of the walked node is
      recorded with the walk's prefix. */
  lemma {:induction false} DirectMemberRecorded(src: String, node: Node, prefix: String, i: nat)
    requires i < |node.children| && node.children[i].kind in ClassTypes + MethodTypes
    ensures Entry(KeyOf(node.children[i]), prefix, node) in Writes(src, node, prefix)
  {
    assert Entry(KeyOf(node.children[i]), prefix, node) in ChildWrites(src, node, i, prefix);
    WritesFromHolds(src, node, prefix, 0, i);
  }

  // ---------------------------------------------------------- the parser

  /** `RubyParser` after `update`: the file, its tree and the module-prefix
      table `_node2namespace`. */
  class RubyParser {
    var src: String
    var root: Node
    var startingPoint: nat
    var node2namespace: map<Key, String>

    function Ctx(): Context
      reads this
    {
      Context(src, root, startingPoint, node2namespace)
    }

    constructor (src: String, root: Node, startingPoint: nat)
      ensures this.src == src && this.root == root && this.startingPoint == startingPoint
      ensures node2namespace == WritePrefixes(map[], Writes(src, root, []))
    {
      this.src := src;
      this.root := root;
      this.startingPoint := startingPoint;
      node2namespace := map[];
      new;
      Traverse(root, []);
    }

    /** `update(file_contents)`: a new file and its tree; the table is
        rebuilt from scratch. */
    method Update(src: String, root: Node)
      modifies this
      ensures this.src == src && this.root == root && startingPoint == old(startingPoint)
      ensures node2namespace == WritePrefixes(map[], Writes(src, root, []))
    {
      this.src := src;
      this.root := root;
      node2namespace := map[];
      Traverse(root, []);
    }

    /** `_traverse_namespace(node, prefix)`. */
    method Traverse(node: Node, prefix: String)
      modifies this`node2namespace
      ensures node2namespace == WritePrefixes(old(node2namespace), Writes(src, node, prefix))
      decreases node, 1
    {
      var i := 0;
      while i < |node.children|
        invariant i <= |node.children|
        invariant WritePrefixes(node2namespace, WritesFrom(src, node, prefix, i))
               == WritePrefixes(old(node2namespace), Writes(src, node, prefix))
        decreases |node.children| - i
      {
        var before := node2namespace;
        VisitChild(node, i, prefix);
        WritePrefixesAppend(before, ChildWrites(src, node, i, prefix), WritesFrom(src, node, prefix, i + 1));
        i := i + 1;
      }
    }

    /** One pass of the loop over `node`'s children. */
    method VisitChild(node: Node, i: nat, prefix: String)
      requires i < |node.children|
      modifies this`node2namespace
      ensures node2namespace == WritePrefixes(old(node2namespace), ChildWrites(src, node, i, prefix))
      decreases node, 0
    {
      var child := node.children[i];
      if child.kind in NamespaceTypes {
        VisitModule(child, prefix);
      } else {
        assert ModuleWrites(src, child, prefix) == [];
      }
      var mid := node2namespace;
      if child.kind in ClassTypes {
        RecordClass(node, child, prefix);
      } else {
        assert ClassWrites(node, child, prefix) == [];
      }
      var mid2 := node2namespace;
      WriteOne(mid2, map[], Entry(KeyOf(child), prefix, node));
      if child.kind in MethodTypes {
        node2namespace := node2namespace[KeyOf(child) := prefix];
      }
      assert node2namespace == WritePrefixes(mid2, MethodWrites(node, child, prefix));
      WritePrefixesAppend(mid, ClassWrites(node, child, prefix), MethodWrites(node, child, prefix));
      WritePrefixesAppend(old(node2namespace), ModuleWrites(src, child, prefix),
        ClassWrites(node, child, prefix) + MethodWrites(node, child, prefix));
      assert ChildWrites(src, node, i, prefix) == ModuleWrites(src, child, prefix)
        + (ClassWrites(node, child, prefix) + MethodWrites(node, child, prefix));
    }

    /** The walks inside a module child. */
    method VisitModule(child: Node, prefix: String)
      requires child.kind in NamespaceTypes
      modifies this`node2namespace
      ensures node2namespace == WritePrefixes(old(node2namespace), ModuleWrites(src, child, prefix))
      decreases child, 3
    {
      var p := prefix + ModuleName(src, child);
      var j := 0;
      while j < |child.children|
        invariant j <= |child.children|
        invariant WritePrefixes(node2namespace, SubModuleWrites(src, child, p, j))
               == WritePrefixes(old(node2namespace), SubModuleWrites(src, child, p, 0))
        decreases |child.children| - j
      {
        var sub := child.children[j];
        var before := node2namespace;
        ghost var w: seq<Entry> := [];
        if sub.kind == "module" && sub.children != [] {
          Traverse(sub, p + ModuleName(src, sub));
          w := Writes(src, sub, p + ModuleName(src, sub));
        }
        WritePrefixesAppend(before, w, SubModuleWrites(src, child, p, j + 1));
        j := j + 1;
      }
      var mid := node2namespace;
      var members := HasMemberChild(child);
      if members {
        Traverse(child, p);
      }
      WritePrefixesAppend(old(node2namespace), SubModuleWrites(src, child, p, 0),
        if HasMembers(child) then Writes(src, child, p) else []);
    }

    /** A class child and its class children, all with the walk's prefix. */
    method RecordClass(node: Node, child: Node, prefix: String)
      requires child.kind in ClassTypes
      modifies this`node2namespace
      ensures node2namespace == WritePrefixes(old(node2namespace), ClassWrites(node, child, prefix))
    {
      WriteOne(node2namespace, map[], Entry(KeyOf(child), prefix, node));
      node2namespace := node2namespace[KeyOf(child) := prefix];
      var head := [Entry(KeyOf(child), prefix, node)];
      for j := 0 to |child.children|
        invariant node2namespace == WritePrefixes(old(node2namespace), head + InnerClassWrites(child, prefix, j))
      {
        var before := node2namespace;
        ghost var w: seq<Entry> := [];
        if child.children[j].kind == "class" {
          w := [Entry(KeyOf(child.children[j]), prefix, child)];
          WriteOne(before, map[], w[0]);
          node2namespace := node2namespace[KeyOf(child.children[j]) := prefix];
        }
        assert head + InnerClassWrites(child, prefix, j + 1) == (head + InnerClassWrites(child, prefix, j)) + w;
        WritePrefixesAppend(old(node2namespace), head + InnerClassWrites(child, prefix, j), w);
      }
    }
  }

  /** Whether a module has a class or method child. */
  method HasMemberChild(n: Node) returns (b: bool)
    ensures b == HasMembers(n)
  {
    for j := 0 to |n.children|
      invariant forall q :: 0 <= q < j ==> n.children[q].kind !in MemberTypes
    {
      if n.children[j].kind in MemberTypes {
        return true;
      }
    }
    return false;
  }

  // ---------------------------------------------------------- candidates

  /** The `kinds` children of each node of `ns`, one node after the other. */
  function OfTypeAll(ns: seq<Node>, kinds: set<String>): (r: seq<Node>)
    ensures forall i :: 0 <= i < |r| ==> r[i].kind in kinds
  {
    if ns == [] then [] else OfTypeAll(ns[..|ns| - 1], kinds) + ChildrenOfType(ns[|ns| - 1], kinds)
  }

  /** The `kinds` children of `n`, then those of each of its children. */
  function TwoLevels(n: Node, kinds: set<String>): (r: seq<Node>)
    ensures forall i :: 0 <= i < |r| ==> r[i].kind in kinds
  {
    ChildrenOfType(n, kinds) + OfTypeAll(n.children, kinds)
  }

  function TwoLevelsAll(ns: seq<Node>, kinds: set<String>): (r: seq<Node>)
    ensures forall i :: 0 <= i < |r| ==> r[i].kind in kinds
  {
    if ns == [] then [] else TwoLevelsAll(ns[..|ns| - 1], kinds) + TwoLevels(ns[|ns| - 1], kinds)
  }

  /** The nodes of `ns` that have children, in order. */
  function WithChildren(ns: seq<Node>): (r: seq<Node>)
    ensures forall i :: 0 <= i < |r| ==> r[i].children != [] && r[i] in ns
  {
    if ns == [] then [] else
      WithChildren(ns[..|ns| - 1]) + (if ns[|ns| - 1].children != [] then [ns[|ns| - 1]] else [])
  }

  /** `class_nodes`: the class children of the root, of every module and of
      their children, then of every top-level node and of its children,
      keeping those with children. */
  function ClassNodes(root: Node): seq<Node> {
    WithChildren(ChildrenOfType(root, ClassTypes)
      + TwoLevelsAll(TraverseType(root, NamespaceTypes), ClassTypes)
      + TwoLevelsAll(root.children, ClassTypes))
  }

  /** `method_nodes`: the method children of the root and of every module,
      keeping those with children. */
  function MethodNodes(root: Node): seq<Node> {
    WithChildren(ChildrenOfType(root, MethodTypes) + OfTypeAll(TraverseType(root, NamespaceTypes), MethodTypes))
  }

  lemma {:induction false} WithChildrenKeeps(ns: seq<Node>, x: Node)
    requires x in ns && x.children != []
    ensures x in WithChildren(ns)
  {
    if x != ns[|ns| - 1] {
      assert x in ns[..|ns| - 1] by {
        var i :| 0 <= i < |ns| && ns[i] == x;
        assert ns[..|ns| - 1][i] == x;
      }
      WithChildrenKeeps(ns[..|ns| - 1], x);
    }
  }

  lemma {:induction false} OfTypeAllHolds(ns: seq<Node>, kinds: set<String>, i: nat, x: Node)
    requires i < |ns| && x in ChildrenOfType(ns[i], kinds)
    ensures x in OfTypeAll(ns, kinds)
  {
    if i < |ns| - 1 {
      assert ns[..|ns| - 1][i] == ns[i];
      OfTypeAllHolds(ns[..|ns| - 1], kinds, i, x);
    }
  }

  lemma {:induction false} TwoLevelsAllHolds(ns: seq<Node>, kinds: set<String>, i: nat, x: Node)
    requires i < |ns| && x in TwoLevels(ns[i], kinds)
    ensures x in TwoLevelsAll(ns, kinds)
  {
    if i < |ns| - 1 {
      assert ns[..|ns| - 1][i] == ns[i];
      TwoLevelsAllHolds(ns[..|ns| - 1], kinds, i, x);
    }
  }

  /** The class candidates are classes with children. */
  lemma CandidateClasses(root: Node)
    ensures forall k :: 0 <= k < |ClassNodes(root)| ==>
      ClassNodes(root)[k].kind in ClassTypes && ClassNodes(root)[k].children != []
  {
    var all := ChildrenOfType(root, ClassTypes)
      + TwoLevelsAll(TraverseType(root, NamespaceTypes), ClassTypes)
      + TwoLevelsAll(root.children, ClassTypes);
    forall k | 0 <= k < |ClassNodes(root)|
      ensures ClassNodes(root)[k].kind in ClassTypes
    {
      var q :| 0 <= q < |all| && all[q] == ClassNodes(root)[k];
    }
  }

  /** Every class with children written at the top level is a candidate. */
  lemma TopClassCandidate(root: Node, i: nat)
    requires i < |root.children| && root.children[i].kind in ClassTypes && root.children[i].children != []
    ensures root.children[i] in ClassNodes(root)
  {
    var all := ChildrenOfType(root, ClassTypes)
      + TwoLevelsAll(TraverseType(root, NamespaceTypes), ClassTypes)
      + TwoLevelsAll(root.children, ClassTypes);
    WithChildrenKeeps(all, root.children[i]);
  }

  /** Every class with children written directly inside a top-level node is
      a candidate. */
  lemma InnerClassCandidate(root: Node, i: nat, j: nat)
    requires i < |root.children| && j < |root.children[i].children|
    requires root.children[i].children[j].kind in ClassTypes && root.children[i].children[j].children != []
    ensures root.children[i].children[j] in ClassNodes(root)
  {
    var x := root.children[i].children[j];
    var all := ChildrenOfType(root, ClassTypes)
      + TwoLevelsAll(TraverseType(root, NamespaceTypes), ClassTypes)
      + TwoLevelsAll(root.children, ClassTypes);
    TwoLevelsAllHolds(root.children, ClassTypes, i, x);
    WithChildrenKeeps(all, x);
  }

  /** The method candidates are methods with children. */
  lemma CandidateMethods(root: Node)
    ensures forall k :: 0 <= k < |MethodNodes(root)| ==>
      MethodNodes(root)[k].kind in MethodTypes && MethodNodes(root)[k].children != []
  {
    var all := ChildrenOfType(root, MethodTypes) + OfTypeAll(TraverseType(root, NamespaceTypes), MethodTypes);
    forall k | 0 <= k < |MethodNodes(root)|
      ensures MethodNodes(root)[k].kind in MethodTypes
    {
      var q :| 0 <= q < |all| && all[q] == MethodNodes(root)[k];
    }
  }

  /** The loops of `class_nodes`. */
  method CollectClassNodes(root: Node) returns (r: seq<Node>)
    ensures r == ClassNodes(root)
  {
    var found := ChildrenOfType(root, ClassTypes);
    var inModules := CollectTwoLevels(TraverseType(root, NamespaceTypes), ClassTypes);
    var inTop := CollectTwoLevels(root.children, ClassTypes);
    r := KeepWithChildren(found + inModules + inTop);
  }

  /** The loops of `method_nodes`. */
  method CollectMethodNodes(root: Node) returns (r: seq<Node>)
    ensures r == MethodNodes(root)
  {
    var inModules := CollectOfType(TraverseType(root, NamespaceTypes), MethodTypes);
    r := KeepWithChildren(ChildrenOfType(root, MethodTypes) + inModules);
  }

  method CollectOfType(ns: seq<Node>, kinds: set<String>) returns (r: seq<Node>)
    ensures r == OfTypeAll(ns, kinds)
  {
    r := [];
    for i := 0 to |ns|
      invariant r == OfTypeAll(ns[..i], kinds)
    {
      assert ns[..i + 1][..i] == ns[..i];
      r := r + ChildrenOfType(ns[i], kinds);
    }
    assert ns[..|ns|] == ns;
  }

  method CollectTwoLevels(ns: seq<Node>, kinds: set<String>) returns (r: seq<Node>)
    ensures r == TwoLevelsAll(ns, kinds)
  {
    r := [];
    for i := 0 to |ns|
      invariant r == TwoLevelsAll(ns[..i], kinds)
    {
      var below := CollectOfType(ns[i].children, kinds);
      assert ns[..i + 1][..i] == ns[..i];
      r := r + (ChildrenOfType(ns[i], kinds) + below);
    }
    assert ns[..|ns|] == ns;
  }

  /** `[n for n in ns if len(n.children) > 0]`. */
  method KeepWithChildren(ns: seq<Node>) returns (r: seq<Node>)
    ensures r == WithChildren(ns)
  {
    r := [];
    for i := 0 to |ns|
      invariant r == WithChildren(ns[..i])
    {
      assert ns[..i + 1][..i] == ns[..i];
      if ns[i].children != [] {
        r := r + [ns[i]];
      }
    }
    assert ns[..|ns|] == ns;
  }

  // ------------------------------------------------- file docstring, context

  /** `file_docstring`: "" for an empty file, else the comments the file
      starts with, each on its own line, cleaned. */
  function FileDocstring(src: String, root: Node): String {
    if root.children == [] then [] else CleanDocstringComments(Lines(src, root.children[..CommentRun(root.children)]))
  }

  /** The loop of `file_docstring`. */
  method FileDocstringLoop(src: String, root: Node) returns (doc: String)
    ensures doc == FileDocstring(src, root)
  {
    if root.children == [] {
      return [];
    }
    var text := LeadingComments(src, root.children);
    return CleanDocstringComments(text);
  }

  /** A call that loads code: "require ", "require_" or "include " at its start. */
  predicate IsRequire(s: String) {
    StartsWith(s, "require ") || StartsWith(s, "require_") || StartsWith(s, "include ")
  }

  function CallText(src: String, n: Node): String {
    Strip(SpanSelect(src, [n], true))
  }

  /** The stripped texts of the calls that load code, in order. */
  function RequireTexts(src: String, calls: seq<Node>): (r: seq<String>)
    ensures forall i :: 0 <= i < |r| ==> IsRequire(r[i])
  {
    if calls == [] then [] else
      var t := CallText(src, calls[|calls| - 1]);
      RequireTexts(src, calls[..|calls| - 1]) + (if IsRequire(t) then [t] else [])
  }

  /** Every call that loads code is kept. */
  lemma {:induction false} RequireKept(src: String, calls: seq<Node>, i: nat)
    requires i < |calls| && IsRequire(CallText(src, calls[i]))
    ensures CallText(src, calls[i]) in RequireTexts(src, calls)
  {
    if i < |calls| - 1 {
      assert calls[..|calls| - 1][i] == calls[i];
      RequireKept(src, calls[..|calls| - 1], i);
    }
  }

  /** `file_context`: the top-level calls that load code. */
  function FileContext(src: String, root: Node): seq<String> {
    RequireTexts(src, ChildrenOfType(root, ImportTypes))
  }

  /** The loop of `file_context`. */
  method FileContextLoop(src: String, root: Node) returns (r: seq<String>)
    ensures r == FileContext(src, root)
  {
    var calls := ChildrenOfType(root, ImportTypes);
    r := [];
    for i := 0 to |calls|
      invariant r == RequireTexts(src, calls[..i])
    {
      assert calls[..i + 1][..i] == calls[..i];
      var content := CallText(src, calls[i]);
      if IsRequire(content) {
        r := r + [content];
      }
    }
    assert calls[..|calls|] == calls;
  }

  // ------------------------------------------------------------- records

  /** What `_parse_method_node` returns; `name` is absent when the method
      has no `identifier` child. */
  datatype MethodRecord = MethodRecord(
    defaultArguments: Dict,
    originalString: String,
    byteSpan: Key,
    startPoint: Point,
    endPoint: Point,
    namespacePrefix: String,
    parameters: seq<String>,
    name: Option<String>,
    signature: String,
    classes: seq<ClassRecord>,
    methods: seq<MethodRecord>)

  /** What `_parse_class_node` returns. */
  datatype ClassRecord = ClassRecord(
    classDocstring: String,
    definition: String,
    byteSpan: Key,
    startPoint: Point,
    endPoint: Point,
    originalString: String,
    namespacePrefix: String,
    name: String,
    bases: seq<String>,
    contexts: seq<String>,
    attributeExpressions: seq<String>,
    classes: seq<ClassRecord>,
    methods: seq<MethodRecord>)

  // ------------------------------------------- method names and parameters

  /** The stripped text of the last `identifier` child. */
  function MethodName(src: String, cs: seq<Node>): Option<String> {
    match LastOfKind(cs, "identifier")
    case None => None
    case Some(j) => Some(Strip(Span(src, cs[j])))
  }

  /** A parameter whose type contains "optional_parameter". */
  predicate IsOptional(n: Node) {
    Contains(n.kind, "optional_parameter")
  }

  /** The optional parameters among `args`, in order. */
  function Optionals(args: seq<Node>): (r: seq<Node>)
    ensures forall i :: 0 <= i < |r| ==> IsOptional(r[i])
  {
    if args == [] then [] else Optionals(args[..|args| - 1]) + (if IsOptional(args[|args| - 1]) then [args[|args| - 1]] else [])
  }

  lemma {:induction false} OptionalsKeep(args: seq<Node>, i: nat)
    requires i < |args| && IsOptional(args[i])
    ensures args[i] in Optionals(args)
  {
    if i < |args| - 1 {
      assert args[..|args| - 1][i] == args[i];
      OptionalsKeep(args[..|args| - 1], i);
    }
  }

  /** The defaults the optional parameters among `args[i..]` write into
      `d`, in order: the text before the "=" child is the key, the text
      after it the value; one without a "=" child raises `ValueError`. */
  function ArgDefaults(src: String, args: seq<Node>, i: nat, d: Dict): Result<Dict>
    requires i <= |args|
    decreases |args| - i
  {
    if i == |args| then Ok(d)
    else if !IsOptional(args[i]) then ArgDefaults(src, args, i + 1, d)
    else
      var (k, v) :- SplitDefault(src, args[i].children);
      ArgDefaults(src, args, i + 1, Assign(d, k, v))
  }

  /** The defaults of every `method_parameters` child from `i` on. */
  function MethodDefaults(src: String, cs: seq<Node>, i: nat, d: Dict): Result<Dict>
    requires i <= |cs|
    decreases |cs| - i
  {
    if i == |cs| then Ok(d)
    else if cs[i].kind != "method_parameters" then MethodDefaults(src, cs, i + 1, d)
    else
      var d' :- ArgDefaults(src, cs[i].children, 0, d);
      MethodDefaults(src, cs, i + 1, d')
  }

  /** Some optional parameter from `i` on has no "=" child. */
  predicate MissingEquals(args: seq<Node>, i: nat) {
    exists j :: i <= j < |args| && IsOptional(args[j]) && SplitDefault([], args[j].children).Err?
  }

  /** The defaults raise exactly when an optional parameter lacks its "=". */
  lemma {:induction false} ArgDefaultsFail(src: String, args: seq<Node>, i: nat, d: Dict)
    requires i <= |args|
    ensures ArgDefaults(src, args, i, d).Err? <==> MissingEquals(args, i)
    ensures ArgDefaults(src, args, i, d).Err? ==> ArgDefaults(src, args, i, d).error == ValueError
    decreases |args| - i
  {
    if i < |args| {
      if IsOptional(args[i]) && SplitDefault(src, args[i].children).Ok? {
        var (k, v) := SplitDefault(src, args[i].children).value;
        ArgDefaultsFail(src, args, i + 1, Assign(d, k, v));
      } else if !IsOptional(args[i]) {
        ArgDefaultsFail(src, args, i + 1, d);
      }
      assert MissingEquals(args, i) <==>
        (IsOptional(args[i]) && SplitDefault([], args[i].children).Err?) || MissingEquals(args, i + 1);
    }
  }

  /** An optional parameter's value is what its key reads in the defaults,
      unless a later optional parameter writes the same key. */
  lemma {:induction false} DefaultRecorded(src: String, args: seq<Node>, i: nat, d: Dict, j: nat, k: String, v: String)
    requires i <= j < |args| && IsOptional(args[j]) && SplitDefault(src, args[j].children) == Ok((k, v))
    requires forall q :: j < q < |args| && IsOptional(args[q]) && SplitDefault(src, args[q].children).Ok?
               ==> SplitDefault(src, args[q].children).value.0 != k
    requires ArgDefaults(src, args, i, d).Ok?
    ensures Lookup(ArgDefaults(src, args, i, d).value, k) == Some(v)
    decreases |args| - i
  {
    if i < j {
      if IsOptional(args[i]) {
        var (k', v') := SplitDefault(src, args[i].children).value;
        DefaultRecorded(src, args, i + 1, Assign(d, k', v'), j, k, v);
      } else {
        DefaultRecorded(src, args, i + 1, d, j, k, v);
      }
    } else {
      AssignLookup(d, k, v, k);
      DefaultKept(src, args, i + 1, Assign(d, k, v), k);
    }
  }

  /** Writes of other keys leave a key's value alone. */
  lemma {:induction false} DefaultKept(src: String, args: seq<Node>, i: nat, d: Dict, k: String)
    requires i <= |args|
    requires forall q :: i <= q < |args| && IsOptional(args[q]) && SplitDefault(src, args[q].children).Ok?
               ==> SplitDefault(src, args[q].children).value.0 != k
    requires ArgDefaults(src, args, i, d).Ok?
    ensures Lookup(ArgDefaults(src, args, i, d).value, k) == Lookup(d, k)
    decreases |args| - i
  {
    if i < |args| {
      if IsOptional(args[i]) {
        var (k', v') := SplitDefault(src, args[i].children).value;
        AssignLookup(d, k', v', k);
        DefaultKept(src, args, i + 1, Assign(d, k', v'), k);
      } else {
        DefaultKept(src, args, i + 1, d, k);
      }
    }
  }

  /** `parameters` for one `method_parameters` child: the texts of its
      `identifier` children, then of its optional parameters. */
  function ParamTexts(src: String, p: Node): seq<String> {
    Select(src, ChildrenOfKind(p, "identifier") + Optionals(p.children), false)
  }

  /** The last `method_parameters` child decides `parameters`. */
  function Parameters(src: String, cs: seq<Node>): seq<String> {
    match LastOfKind(cs, "method_parameters")
    case None => []
    case Some(j) => ParamTexts(src, cs[j])
  }

  /** Every optional parameter's text is also among the parameters. */
  lemma OptionalIsParameter(src: String, p: Node, j: nat)
    requires j < |p.children| && IsOptional(p.children[j])
    ensures Span(src, p.children[j]) in ParamTexts(src, p)
  {
    OptionalsKeep(p.children, j);
    var nodes := ChildrenOfKind(p, "identifier") + Optionals(p.children);
    assert p.children[j] in nodes;
    SelectHas(src, nodes, false, p.children[j]);
  }

  // ------------------------------------------------------------ signature

  const DefSelf: String := "def self"

  function Min(a: nat, b: nat): nat {
    if a < b then a else b
  }

  /** `span_select(*children[0:p + 1])`: the indented text of the children
      up to and including `p`, the slice clamped at the end. */
  function SigSpan(src: String, cs: seq<Node>, p: nat): String {
    SpanSelect(src, cs[..Min(p + 1, |cs|)], true)
  }

  /** The index of the first `method_parameters` child, 1 without one. */
  function ParamIndex(cs: seq<Node>): nat {
    FirstOfKind(cs, "method_parameters").GetOr(1)
  }

  /** The signature loop as written, run for at most `fuel` passes: while
      the text reads "def self" it is widened by two children.  `None` when
      it is still widening after those passes. */
  function SignatureAsWritten(src: String, cs: seq<Node>, p: nat, fuel: nat): Option<String>
    decreases fuel
  {
    if Strip(SigSpan(src, cs, p)) != DefSelf then Some(SigSpan(src, cs, p))
    else if fuel == 0 then None
    else SignatureAsWritten(src, cs, p + 2, fuel - 1)
  }

  /** Once the span covers every child, widening no longer changes it: a
      span that then reads "def self" is never left, whatever the fuel. */
  lemma {:induction false} AsWrittenStalls(src: String, cs: seq<Node>, p: nat, fuel: nat)
    requires p + 1 >= |cs| && Strip(SigSpan(src, cs, p)) == DefSelf
    ensures SignatureAsWritten(src, cs, p, fuel).None?
    decreases fuel
  {
    if fuel > 0 {
      assert Min(p + 3, |cs|) == Min(p + 1, |cs|);
      AsWrittenStalls(src, cs, p + 2, fuel - 1);
    }
  }

  lemma DefSelfStripped()
    ensures Strip(DefSelf) == DefSelf
  {
    assert LStripBy(DefSelf, IsSpace) == DefSelf by {
      assert LeadLen(DefSelf, IsSpace) == 0;
    }
    assert !IsSpace(DefSelf[7]);
  }

  /** Two children reaching from byte 0, column 0, to byte 8 span all of "def self". */
  lemma DefSelfWhole(cs: seq<Node>)
    requires |cs| == 2 && cs[0].startByte == 0 && cs[0].startPoint.col == 0 && cs[1].endByte == 8
    ensures SigSpan(DefSelf, cs, 1) == DefSelf
  {
    assert cs[..Min(2, 2)] == cs;
    assert Slice(DefSelf, 0, 8) == DefSelf[0..8] == DefSelf;
    assert Spaces(0) == [];
  }

  /** A method node whose only children are `def` and `self` (an unfinished
      `def self` at the end of a file): the loop never ends. */
  lemma DefSelfNeverEnds(fuel: nat)
    ensures
      var d := Node("def", "", 0, 3, Point(0, 0), Point(0, 3), [], false);
      var s := Node("self", "object", 4, 8, Point(0, 4), Point(0, 8), [], false);
      SignatureAsWritten(DefSelf, [d, s], ParamIndex([d, s]), fuel).None?
  {
    var d := Node("def", "", 0, 3, Point(0, 0), Point(0, 3), [], false);
    var s := Node("self", "object", 4, 8, Point(0, 4), Point(0, 8), [], false);
    var cs := [d, s];
    assert ParamIndex(cs) == 1;
    DefSelfWhole(cs);
    DefSelfStripped();
    AsWrittenStalls(DefSelf, cs, 1, fuel);
  }

  /** The signature, the widening stopped once the span covers every child. */
  function Signature(src: String, cs: seq<Node>, p: nat): (r: String)
    ensures Strip(r) == DefSelf ==> r == SpanSelect(src, cs, true)
    decreases |cs| - p
  {
    var sig := SigSpan(src, cs, p);
    if Strip(sig) == DefSelf && p + 1 < |cs| then Signature(src, cs, p + 2)
    else
      assert Strip(sig) == DefSelf ==> cs[..Min(p + 1, |cs|)] == cs;
      sig
  }

  /** Wherever the loop as written ends, the corrected loop gives the same
      signature. */
  lemma SignatureAgrees(src: String, cs: seq<Node>, p: nat, fuel: nat)
    ensures SignatureAsWritten(src, cs, p, fuel).Some? ==>
      SignatureAsWritten(src, cs, p, fuel) == Some(Signature(src, cs, p))
  {
    AgreesBelow(src, cs, fuel + 1);
  }

  /** Agreement for every start and every fuel below `k`. */
  lemma {:induction false} AgreesBelow(src: String, cs: seq<Node>, k: nat)
    ensures forall p: nat, fuel: nat {:trigger SignatureAsWritten(src, cs, p, fuel)} :: fuel < k ==>
      (SignatureAsWritten(src, cs, p, fuel).Some? ==>
         SignatureAsWritten(src, cs, p, fuel) == Some(Signature(src, cs, p)))
    decreases k
  {
    if k > 0 {
      AgreesBelow(src, cs, k - 1);
      forall p: nat, fuel: nat | fuel == k - 1 && SignatureAsWritten(src, cs, p, fuel).Some?
        ensures SignatureAsWritten(src, cs, p, fuel) == Some(Signature(src, cs, p))
      {
        if Strip(SigSpan(src, cs, p)) != DefSelf {
          SignatureStops(src, cs, p, fuel);
        } else {
          AsWrittenEndsInside(src, cs, p, fuel);
          SignatureWidens(src, cs, p, fuel);
        }
      }
    }
  }

  /** A span reading "def self" short of the last child is widened by both loops. */
  lemma SignatureWidens(src: String, cs: seq<Node>, p: nat, fuel: nat)
    requires Strip(SigSpan(src, cs, p)) == DefSelf && p + 1 < |cs| && fuel > 0
    ensures SignatureAsWritten(src, cs, p, fuel) == SignatureAsWritten(src, cs, p + 2, fuel - 1)
    ensures Signature(src, cs, p) == Signature(src, cs, p + 2)
  {
  }

  /** Any other span ends both loops. */
  lemma SignatureStops(src: String, cs: seq<Node>, p: nat, fuel: nat)
    requires Strip(SigSpan(src, cs, p)) != DefSelf
    ensures SignatureAsWritten(src, cs, p, fuel) == Some(SigSpan(src, cs, p))
    ensures Signature(src, cs, p) == SigSpan(src, cs, p)
  {
  }

  /** A loop as written that ends never widened past the last child. */
  lemma AsWrittenEndsInside(src: String, cs: seq<Node>, p: nat, fuel: nat)
    requires SignatureAsWritten(src, cs, p, fuel).Some? && Strip(SigSpan(src, cs, p)) == DefSelf
    ensures p + 1 < |cs| && fuel > 0
  {
    if p + 1 >= |cs| {
      AsWrittenStalls(src, cs, p, fuel);
      assert false;
    }
  }

  /** The first child of type `kind`, `default` without one. */
  method FirstIndex(cs: seq<Node>, kind: String, default: nat) returns (p: nat)
    ensures p == FirstOfKind(cs, kind).GetOr(default)
  {
    var i := 0;
    while i < |cs| && cs[i].kind != kind
      invariant i <= |cs|
      invariant forall q :: 0 <= q < i ==> cs[q].kind != kind
      decreases |cs| - i
    {
      i := i + 1;
    }
    p := if i < |cs| then i else default;
  }

  /** The signature loop, stopped at the last child. */
  method SignatureLoop(src: String, cs: seq<Node>) returns (sig: String)
    ensures sig == Signature(src, cs, ParamIndex(cs))
  {
    var p := FirstIndex(cs, "method_parameters", 1);
    sig := SigSpan(src, cs, p);
    while Strip(sig) == DefSelf && p + 1 < |cs|
      invariant Signature(src, cs, p) == Signature(src, cs, ParamIndex(cs))
      invariant sig == SigSpan(src, cs, p)
      decreases |cs| - p
    {
      p := p + 2;
      sig := SigSpan(src, cs, p);
    }
  }

  // ------------------------------------------------------ method records

  /** Everything `_parse_method_node` records about the method itself, the
      nested lists left empty; an optional parameter without a "=" child
      raises `ValueError`. */
  function MethodHead(ctx: Context, m: Node): Result<MethodRecord> {
    var defaults :- MethodDefaults(ctx.src, m.children, 0, []);
    Ok(MethodRecord(
      defaults, SpanSelect(ctx.src, [m], true), KeyOf(m), Shift(ctx, m.startPoint), Shift(ctx, m.endPoint),
      PrefixOf(ctx, m), Parameters(ctx.src, m.children), MethodName(ctx.src, m.children),
      Signature(ctx.src, m.children, ParamIndex(m.children)), [], []))
  }

  /** `_parse_method_node(m)`: the head, then the records of every class
      child and of every method child. */
  function ParseMethod(ctx: Context, m: Node): (r: Result<MethodRecord>)
    ensures r.Ok? ==> r.value.byteSpan == KeyOf(m)
    decreases m, |m.children| + 1
  {
    var head :- MethodHead(ctx, m);
    var classes :- NestedClasses(ctx, m, 0, false);
    var methods :- NestedMethods(ctx, m, 0, false);
    Ok(head.(classes := classes, methods := methods))
  }

  /** Child `i` of `n` is parsed as a nested member of one of `kinds`; with
      `filter` only when it has children of its own. */
  predicate Picks(n: Node, i: nat, kinds: set<String>, filter: bool)
    requires i < |n.children|
  {
    n.children[i].kind in kinds && (!filter || n.children[i].children != [])
  }

  /** The records of the class children of `n` from position `i` on, in
      order; the first one that raises makes the list raise. */
  function NestedClasses(ctx: Context, n: Node, i: nat, filter: bool): Result<seq<ClassRecord>>
    requires i <= |n.children|
    decreases n, |n.children| - i
  {
    if i == |n.children| then Ok([])
    else if !Picks(n, i, ClassTypes, filter) then NestedClasses(ctx, n, i + 1, filter)
    else
      var r :- ParseClass(ctx, n.children[i]);
      var rest :- NestedClasses(ctx, n, i + 1, filter);
      Ok([r] + rest)
  }

  /** The records of the method children of `n` from position `i` on. */
  function NestedMethods(ctx: Context, n: Node, i: nat, filter: bool): Result<seq<MethodRecord>>
    requires i <= |n.children|
    decreases n, |n.children| - i
  {
    if i == |n.children| then Ok([])
    else if !Picks(n, i, MethodTypes, filter) then NestedMethods(ctx, n, i + 1, filter)
    else
      var r :- ParseMethod(ctx, n.children[i]);
      var rest :- NestedMethods(ctx, n, i + 1, filter);
      Ok([r] + rest)
  }

  // ------------------------------------------------------- class records

  const AssignmentTypes: set<String> := {"assignment"}

  /** The superclass's children other than "<", each as text. */
  function Bases(src: String, c: Node): seq<String> {
    match ChildByField(c, "superclass")
    case None => []
    case Some(b) => Select(src, FilterWhere(b.children, (x: Node) => x.kind != "<"), false)
  }

  /** The class's text up to and including its first `superclass` child
      (its first two children without one). */
  function Definition(src: String, cs: seq<Node>): String {
    SigSpan(src, cs, FirstOfKind(cs, "superclass").GetOr(1))
  }

  /** A call whose text starts with "include ". */
  predicate IsInclude(src: String, n: Node) {
    StartsWith(Strip(SpanSelect(src, [n], true)), "include ")
  }

  /** An included module's path, "::" written as ".". */
  function IncludeArg(src: String, a: Node): String {
    Strip(Replace(SpanSelect(src, [a], true), "::", "."))
  }

  /** The paths of the `argument_list` children among `args`. */
  function IncludeArgs(src: String, args: seq<Node>): seq<String> {
    if args == [] then [] else
      var a := args[|args| - 1];
      IncludeArgs(src, args[..|args| - 1]) + (if a.kind == "argument_list" then [IncludeArg(src, a)] else [])
  }

  /** The class's contexts: the paths of its include calls, in order. */
  function Contexts(src: String, calls: seq<Node>): seq<String> {
    if calls == [] then [] else
      var c := calls[|calls| - 1];
      Contexts(src, calls[..|calls| - 1]) + (if IsInclude(src, c) then IncludeArgs(src, c.children) else [])
  }

  /** The text of each call that is not an include. */
  function CallExpressions(src: String, calls: seq<Node>): seq<String> {
    if calls == [] then [] else
      var c := calls[|calls| - 1];
      CallExpressions(src, calls[..|calls| - 1]) + (if IsInclude(src, c) then [] else [SpanSelect(src, [c], true)])
  }

  /** The calls that are not includes, then the assignments. */
  function AttributeExpressions(src: String, c: Node): seq<String> {
    CallExpressions(src, ChildrenOfType(c, ImportTypes)) + Select(src, ChildrenOfType(c, AssignmentTypes), true)
  }

  /** Everything `_parse_class_node` records about the class itself, the
      nested lists left empty. */
  function ClassHead(ctx: Context, c: Node): ClassRecord {
    ClassRecord(
      [], Definition(ctx.src, c.children), KeyOf(c), Shift(ctx, c.startPoint), Shift(ctx, c.endPoint),
      SpanSelect(ctx.src, [c], true), PrefixOf(ctx, c), OptSpan(ctx.src, ChildByField(c, "name")),
      Bases(ctx.src, c), Contexts(ctx.src, ChildrenOfType(c, ImportTypes)), AttributeExpressions(ctx.src, c),
      [], [])
  }

  /** `_parse_class_node(c)`: the head, then the records of the class and
      method children that have children. */
  function ParseClass(ctx: Context, c: Node): Result<ClassRecord>
    decreases c, |c.children| + 1
  {
    var classes :- NestedClasses(ctx, c, 0, true);
    var methods :- NestedMethods(ctx, c, 0, true);
    Ok(ClassHead(ctx, c).(classes := classes, methods := methods))
  }

  // ---------------------------------------------------- include paths

  /** Two ':' at `i` and `i + 1`. */
  predicate ColonsAt(s: String, i: nat) {
    i + 1 < |s| && s[i] == ':' && s[i + 1] == ':'
  }

  /** No two ':' next to each other. */
  predicate NoDoubleColon(s: String) {
    forall i :: 0 <= i < |s| ==> !ColonsAt(s, i)
  }

  /** Replacing "::" by "." leaves no "::" behind. */
  lemma {:induction false} ReplaceColons(s: String)
    ensures NoDoubleColon(Replace(s, "::", "."))
    decreases |s|
  {
    if s != [] {
      if At(s, "::", 0) {
        var t := Replace(s[2..], "::", ".");
        ReplaceColons(s[2..]);
        assert Replace(s, "::", ".") == "." + t;
        forall i | 0 <= i < |"." + t| ensures !ColonsAt("." + t, i) {
          if i > 0 {
            assert !ColonsAt(t, i - 1);
          }
        }
      } else {
        var t := Replace(s[1..], "::", ".");
        ReplaceColons(s[1..]);
        assert Replace(s, "::", ".") == [s[0]] + t;
        forall i | 0 <= i < |[s[0]] + t| ensures !ColonsAt([s[0]] + t, i) {
          if i > 0 {
            assert !ColonsAt(t, i - 1);
          } else if s[0] == ':' && t != [] {
            assert |s| >= 2 ==> s[0..2] == [s[0], s[1]];
            assert !At(s[1..], "::", 0);
            assert t[0] == s[1];
          }
        }
      }
    }
  }

  lemma NoDoubleColonSlice(s: String, a: nat, b: nat)
    requires NoDoubleColon(s) && a <= b <= |s|
    ensures NoDoubleColon(s[a..b])
  {
    forall i | 0 <= i < b - a ensures !ColonsAt(s[a..b], i) {
      assert !ColonsAt(s, a + i);
    }
  }

  /** A text without two ':' in a row does not contain "::". */
  lemma NoDoubleColonMeans(s: String)
    ensures NoDoubleColon(s) <==> !Contains(s, "::")
  {
    forall i | 0 <= i <= |s| ensures At(s, "::", i) <==> ColonsAt(s, i) {
      if i + 2 <= |s| {
        assert s[i..i + 2] == [s[i], s[i + 1]];
      }
    }
    if !NoDoubleColon(s) {
      var i :| 0 <= i < |s| && ColonsAt(s, i);
      assert At(s, "::", i);
    }
  }

  /** Stripping keeps a text free of "::". */
  lemma StripNoDoubleColon(t: String)
    requires NoDoubleColon(t)
    ensures NoDoubleColon(Strip(t))
  {
    var l := LStripBy(t, IsSpace);
    NoDoubleColonSlice(t, |t| - |l|, |t|);
    assert t[|t| - |l|..|t|] == l;
    NoDoubleColonSlice(l, 0, |RStripBy(l, IsSpace)|);
  }

  /** An included path has no two ':' in a row. */
  lemma IncludeArgPlain(src: String, a: Node)
    ensures NoDoubleColon(IncludeArg(src, a))
  {
    var s := SpanSelect(src, [a], true);
    ReplaceColons(s);
    StripNoDoubleColon(Replace(s, "::", "."));
  }

  /** Every text of `xs` is free of "::". */
  predicate AllPlain(xs: seq<String>) {
    forall k :: 0 <= k < |xs| ==> NoDoubleColon(xs[k])
  }

  lemma AllPlainAppend(a: seq<String>, b: seq<String>)
    requires AllPlain(a) && AllPlain(b)
    ensures AllPlain(a + b)
  {
    forall k | 0 <= k < |a + b| ensures NoDoubleColon((a + b)[k]) {
      if k < |a| {
        assert (a + b)[k] == a[k];
      } else {
        assert (a + b)[k] == b[k - |a|];
      }
    }
  }

  lemma {:induction false} IncludeArgsPlain(src: String, args: seq<Node>)
    ensures AllPlain(IncludeArgs(src, args))
  {
    if args != [] {
      var a := args[|args| - 1];
      IncludeArgsPlain(src, args[..|args| - 1]);
      if a.kind == "argument_list" {
        IncludeArgPlain(src, a);
        AllPlainAppend(IncludeArgs(src, args[..|args| - 1]), [IncludeArg(src, a)]);
      } else {
        assert IncludeArgs(src, args) == IncludeArgs(src, args[..|args| - 1]) + [];
      }
    }
  }

  lemma {:induction false} ContextsNoColons(src: String, calls: seq<Node>)
    ensures AllPlain(Contexts(src, calls))
  {
    if calls != [] {
      var c := calls[|calls| - 1];
      ContextsNoColons(src, calls[..|calls| - 1]);
      if IsInclude(src, c) {
        IncludeArgsPlain(src, c.children);
        AllPlainAppend(Contexts(src, calls[..|calls| - 1]), IncludeArgs(src, c.children));
      } else {
        assert Contexts(src, calls) == Contexts(src, calls[..|calls| - 1]) + [];
      }
    }
  }

  /** No context of a class contains "::": every path is written with ".". */
  lemma ContextsPlain(src: String, calls: seq<Node>)
    ensures forall k :: 0 <= k < |Contexts(src, calls)| ==> !Contains(Contexts(src, calls)[k], "::")
  {
    ContextsNoColons(src, calls);
    forall k | 0 <= k < |Contexts(src, calls)| ensures !Contains(Contexts(src, calls)[k], "::") {
      NoDoubleColonMeans(Contexts(src, calls)[k]);
    }
  }

  lemma {:induction false} IncludeArgsKeep(src: String, args: seq<Node>, q: nat)
    requires q < |args| && args[q].kind == "argument_list"
    ensures IncludeArg(src, args[q]) in IncludeArgs(src, args)
  {
    if q < |args| - 1 {
      assert args[..|args| - 1][q] == args[q];
      IncludeArgsKeep(src, args[..|args| - 1], q);
    }
  }

  /** Every argument list of an include call is among the contexts. */
  lemma {:induction false} ContextsKeep(src: String, calls: seq<Node>, j: nat, q: nat)
    requires j < |calls| && IsInclude(src, calls[j])
    requires q < |calls[j].children| && calls[j].children[q].kind == "argument_list"
    ensures IncludeArg(src, calls[j].children[q]) in Contexts(src, calls)
  {
    if j < |calls| - 1 {
      assert calls[..|calls| - 1][j] == calls[j];
      ContextsKeep(src, calls[..|calls| - 1], j, q);
    } else {
      IncludeArgsKeep(src, calls[j].children, q);
    }
  }

  /** Every call that is not an include is among the attribute expressions. */
  lemma {:induction false} CallExpressionsKeep(src: String, calls: seq<Node>, j: nat)
    requires j < |calls| && !IsInclude(src, calls[j])
    ensures SpanSelect(src, [calls[j]], true) in CallExpressions(src, calls)
  {
    if j < |calls| - 1 {
      assert calls[..|calls| - 1][j] == calls[j];
      CallExpressionsKeep(src, calls[..|calls| - 1], j);
    }
  }

  // ------------------------------------------------ what the records say

  /** Some `method_parameters` child from `i` on has an optional parameter
      without "=". */
  predicate DefaultsMissing(cs: seq<Node>, i: nat) {
    exists j :: i <= j < |cs| && cs[j].kind == "method_parameters" && MissingEquals(cs[j].children, 0)
  }

  /** The defaults raise exactly when some optional parameter lacks its "=". */
  lemma {:induction false} MethodDefaultsFail(src: String, cs: seq<Node>, i: nat, d: Dict)
    requires i <= |cs|
    ensures MethodDefaults(src, cs, i, d).Err? <==> DefaultsMissing(cs, i)
    ensures MethodDefaults(src, cs, i, d).Err? ==> MethodDefaults(src, cs, i, d).error == ValueError
    decreases |cs| - i
  {
    if i < |cs| {
      if cs[i].kind == "method_parameters" {
        ArgDefaultsFail(src, cs[i].children, 0, d);
        if ArgDefaults(src, cs[i].children, 0, d).Ok? {
          MethodDefaultsFail(src, cs, i + 1, ArgDefaults(src, cs[i].children, 0, d).value);
        }
      } else {
        MethodDefaultsFail(src, cs, i + 1, d);
      }
      assert DefaultsMissing(cs, i) <==>
        (cs[i].kind == "method_parameters" && MissingEquals(cs[i].children, 0)) || DefaultsMissing(cs, i + 1);
    }
  }

  /** A method's record raises `ValueError` exactly when one of its
      optional parameters has no "="; otherwise it is the method's own
      span, name, parameters and signature. */
  lemma MethodHeadMeaning(ctx: Context, m: Node)
    ensures MethodHead(ctx, m).Err? <==> DefaultsMissing(m.children, 0)
    ensures MethodHead(ctx, m).Err? ==> MethodHead(ctx, m).error == ValueError
    ensures MethodHead(ctx, m).Ok? ==>
      var r := MethodHead(ctx, m).value;
      r.byteSpan == KeyOf(m) && r.name == MethodName(ctx.src, m.children)
      && r.parameters == Parameters(ctx.src, m.children)
      && (Strip(r.signature) == DefSelf ==> r.signature == SpanSelect(ctx.src, m.children, true))
  {
    MethodDefaultsFail(ctx.src, m.children, 0, []);
  }

  /** The children of `n` from `i` on that the nested list parses. */
  function PickedFrom(n: Node, i: nat, kinds: set<String>, filter: bool): (r: seq<Node>)
    requires i <= |n.children|
    ensures forall k :: 0 <= k < |r| ==> r[k].kind in kinds && (filter ==> r[k].children != [])
    decreases |n.children| - i
  {
    if i == |n.children| then []
    else if !Picks(n, i, kinds, filter) then PickedFrom(n, i + 1, kinds, filter)
    else [n.children[i]] + PickedFrom(n, i + 1, kinds, filter)
  }

  function Keys(ns: seq<Node>): (r: seq<Key>)
    ensures |r| == |ns| && forall k :: 0 <= k < |ns| ==> r[k] == KeyOf(ns[k])
  {
    if ns == [] then [] else [KeyOf(ns[0])] + Keys(ns[1..])
  }

  function MethodSpans(ms: seq<MethodRecord>): (r: seq<Key>)
    ensures |r| == |ms| && forall k :: 0 <= k < |ms| ==> r[k] == ms[k].byteSpan
  {
    if ms == [] then [] else [ms[0].byteSpan] + MethodSpans(ms[1..])
  }

  /** A nested method list holds one record per picked child, in order,
      each with that child's span. */
  lemma {:induction false} NestedMethodsSpans(ctx: Context, n: Node, i: nat, filter: bool)
    requires i <= |n.children| && NestedMethods(ctx, n, i, filter).Ok?
    ensures MethodSpans(NestedMethods(ctx, n, i, filter).value) == Keys(PickedFrom(n, i, MethodTypes, filter))
    decreases |n.children| - i
  {
    if i < |n.children| {
      NestedMethodsSpans(ctx, n, i + 1, filter);
      if Picks(n, i, MethodTypes, filter) {
        var ms := NestedMethods(ctx, n, i, filter).value;
        assert ms == [ParseMethod(ctx, n.children[i]).value] + NestedMethods(ctx, n, i + 1, filter).value;
        assert ms[1..] == NestedMethods(ctx, n, i + 1, filter).value;
        assert PickedFrom(n, i, MethodTypes, filter)[1..] == PickedFrom(n, i + 1, MethodTypes, filter);
      }
    }
  }

  /** Every picked class child's record is in the nested list. */
  lemma {:induction false} NestedClassesHold(ctx: Context, n: Node, i: nat, filter: bool, j: nat)
    requires i <= j < |n.children| && Picks(n, j, ClassTypes, filter)
    requires NestedClasses(ctx, n, i, filter).Ok?
    ensures ParseClass(ctx, n.children[j]).Ok?
    ensures ParseClass(ctx, n.children[j]).value in NestedClasses(ctx, n, i, filter).value
    decreases |n.children| - i
  {
    if i < j {
      NestedClassesHold(ctx, n, i + 1, filter, j);
    }
  }

  // ------------------------------------------------------------ the merge

  /** The state of the `schema` loop: the kept classes, their full names,
      the spans of the class nodes taken, and the spans of every method
      parsed inside a class. */
  datatype Merged = Merged(
    classes: seq<ClassRecord>,
    classNames: seq<String>,
    spans: seq<Key>,
    inClassMethods: seq<Key>)

  const Start: Merged := Merged([], [], [], [])

  /** The namespace prefix followed by the name. */
  function FullName(r: ClassRecord): String {
    r.namespacePrefix + r.name
  }

  predicate Distinct(names: seq<String>) {
    forall i, j :: 0 <= i < j < |names| ==> names[i] != names[j]
  }

  /** One kept class per name, under its full name, and every method of a
      kept class among the in-class spans. */
  predicate Valid(s: Merged) {
    |s.classes| == |s.classNames|
    && (forall i :: 0 <= i < |s.classes| ==> s.classNames[i] == FullName(s.classes[i]))
    && Distinct(s.classNames)
    && (forall i, q :: 0 <= i < |s.classes| && 0 <= q < |s.classes[i].methods| ==>
          s.classes[i].methods[q].byteSpan in s.inClassMethods)
  }

  /** `class_names.index(name)`. */
  function IndexOf(names: seq<String>, x: String): (r: nat)
    requires x in names
    ensures r < |names| && names[r] == x && forall j :: 0 <= j < r ==> names[j] != x
  {
    if names[0] == x then 0 else IndexOf(names[1..], x) + 1
  }

  /** One pass of the `schema` loop for the class node with span `key`
      and record `r`: a new full name keeps the class; a known name whose
      node was not taken yet adds its methods to the class kept under that
      name; a node already taken changes no class.  The methods' spans are
      recorded in every case. */
  function MergeStep(s: Merged, key: Key, r: ClassRecord): (t: Merged)
    requires Valid(s)
    ensures Valid(t)
    ensures FullName(r) !in s.classNames ==> t.classNames == s.classNames + [FullName(r)] && t.classes == s.classes + [r]
    ensures FullName(r) in s.classNames ==> t.classNames == s.classNames && |t.classes| == |s.classes|
    ensures FullName(r) in s.classNames && key !in s.spans ==>
      var idx := IndexOf(s.classNames, FullName(r));
      t.classes[idx].methods == s.classes[idx].methods + r.methods
      && forall j :: 0 <= j < |s.classes| && j != idx ==> t.classes[j] == s.classes[j]
    ensures FullName(r) in s.classNames && key in s.spans ==> t.classes == s.classes
    ensures t.inClassMethods == s.inClassMethods + MethodSpans(r.methods)
  {
    var name := FullName(r);
    var spans := MethodSpans(r.methods);
    if name !in s.classNames then
      ValidAdd(s, key, r);
      Merged(s.classes + [r], s.classNames + [name], s.spans + [key], s.inClassMethods + spans)
    else if key !in s.spans then
      var idx := IndexOf(s.classNames, name);
      var c := s.classes[idx].(methods := s.classes[idx].methods + r.methods);
      ValidReopen(s, key, r, idx);
      Merged(s.classes[idx := c], s.classNames, s.spans + [key], s.inClassMethods + spans)
    else
      ValidSeen(s, r);
      s.(inClassMethods := s.inClassMethods + spans)
  }

  lemma ValidAdd(s: Merged, key: Key, r: ClassRecord)
    requires Valid(s) && FullName(r) !in s.classNames
    ensures Valid(Merged(s.classes + [r], s.classNames + [FullName(r)], s.spans + [key],
      s.inClassMethods + MethodSpans(r.methods)))
  {
    var t := Merged(s.classes + [r], s.classNames + [FullName(r)], s.spans + [key],
      s.inClassMethods + MethodSpans(r.methods));
    forall i, q | 0 <= i < |t.classes| && 0 <= q < |t.classes[i].methods|
      ensures t.classes[i].methods[q].byteSpan in t.inClassMethods
    {
      if i < |s.classes| {
        assert t.classes[i] == s.classes[i];
      } else {
        assert t.inClassMethods[|s.inClassMethods| + q] == r.methods[q].byteSpan;
      }
    }
  }

  lemma ValidReopen(s: Merged, key: Key, r: ClassRecord, idx: nat)
    requires Valid(s) && idx < |s.classes| && s.classNames[idx] == FullName(r)
    ensures Valid(Merged(s.classes[idx := s.classes[idx].(methods := s.classes[idx].methods + r.methods)],
      s.classNames, s.spans + [key], s.inClassMethods + MethodSpans(r.methods)))
  {
    var old_ := s.classes[idx];
    var c := old_.(methods := old_.methods + r.methods);
    var t := Merged(s.classes[idx := c], s.classNames, s.spans + [key], s.inClassMethods + MethodSpans(r.methods));
    forall i, q | 0 <= i < |t.classes| && 0 <= q < |t.classes[i].methods|
      ensures t.classes[i].methods[q].byteSpan in t.inClassMethods
    {
      if i != idx {
        assert t.classes[i] == s.classes[i];
      } else if q < |old_.methods| {
        assert c.methods[q] == old_.methods[q];
      } else {
        assert c.methods[q] == r.methods[q - |old_.methods|];
        assert t.inClassMethods[|s.inClassMethods| + q - |old_.methods|] == r.methods[q - |old_.methods|].byteSpan;
      }
    }
  }

  lemma ValidSeen(s: Merged, r: ClassRecord)
    requires Valid(s)
    ensures Valid(s.(inClassMethods := s.inClassMethods + MethodSpans(r.methods)))
  {
  }

  /** The records of the class candidates from position `i` on, in order;
      the first one that raises makes the list raise. */
  function ParseClasses(ctx: Context, cs: seq<Node>, i: nat): (r: Result<seq<ClassRecord>>)
    requires i <= |cs|
    ensures r.Ok? ==> |r.value| == |cs| - i
    decreases |cs| - i
  {
    if i == |cs| then Ok([]) else
      var c :- ParseClass(ctx, cs[i]);
      var rest :- ParseClasses(ctx, cs, i + 1);
      Ok([c] + rest)
  }

  /** The `schema` loop's state after the class nodes `cs`, whose records
      are `recs`. */
  function MergeRecords(cs: seq<Node>, recs: seq<ClassRecord>): (s: Merged)
    requires |cs| == |recs|
    ensures Valid(s)
  {
    if recs == [] then Start else
      MergeStep(MergeRecords(cs[..|cs| - 1], recs[..|recs| - 1]), KeyOf(cs[|cs| - 1]), recs[|recs| - 1])
  }

  /** Every record's full name is kept, and the span of each of its
      methods is recorded as in a class. */
  lemma {:induction false} MergeCovers(cs: seq<Node>, recs: seq<ClassRecord>, j: nat)
    requires |cs| == |recs| && j < |recs|
    ensures FullName(recs[j]) in MergeRecords(cs, recs).classNames
    ensures forall q :: 0 <= q < |recs[j].methods| ==> recs[j].methods[q].byteSpan in MergeRecords(cs, recs).inClassMethods
  {
    var n := |recs|;
    var before := MergeRecords(cs[..n - 1], recs[..n - 1]);
    var r := recs[n - 1];
    var after := MergeRecords(cs, recs);
    assert after == MergeStep(before, KeyOf(cs[n - 1]), r);
    assert before.classNames <= after.classNames;
    if j < n - 1 {
      MergeCovers(cs[..n - 1], recs[..n - 1], j);
      assert recs[..n - 1][j] == recs[j];
      forall q | 0 <= q < |recs[j].methods| ensures recs[j].methods[q].byteSpan in after.inClassMethods {
        assert recs[j].methods[q].byteSpan in before.inClassMethods;
      }
    } else {
      forall q | 0 <= q < |r.methods| ensures r.methods[q].byteSpan in after.inClassMethods {
        assert after.inClassMethods[|before.inClassMethods| + q] == r.methods[q].byteSpan;
      }
    }
  }

  // ------------------------------------------------------------ the schema

  /** The method candidates whose span was not parsed inside a class. */
  function Outside(ns: seq<Node>, inClass: seq<Key>): (r: seq<Node>)
    ensures forall k :: 0 <= k < |r| ==> KeyOf(r[k]) !in inClass && r[k] in ns
  {
    if ns == [] then [] else
      Outside(ns[..|ns| - 1], inClass) + (if KeyOf(ns[|ns| - 1]) in inClass then [] else [ns[|ns| - 1]])
  }

  lemma {:induction false} OutsideKeeps(ns: seq<Node>, inClass: seq<Key>, j: nat)
    requires j < |ns| && KeyOf(ns[j]) !in inClass
    ensures ns[j] in Outside(ns, inClass)
  {
    if j < |ns| - 1 {
      assert ns[..|ns| - 1][j] == ns[j];
      OutsideKeeps(ns[..|ns| - 1], inClass, j);
    }
  }

  /** The records of the methods `ns[i..]`, in order. */
  function ParseMethods(ctx: Context, ns: seq<Node>, i: nat): (r: Result<seq<MethodRecord>>)
    requires i <= |ns|
    decreases |ns| - i
  {
    if i == |ns| then Ok([]) else
      var m :- ParseMethod(ctx, ns[i]);
      var rest :- ParseMethods(ctx, ns, i + 1);
      Ok([m] + rest)
  }

  /** The method records carry the spans of their nodes, in order. */
  lemma {:induction false} ParseMethodsSpans(ctx: Context, ns: seq<Node>, i: nat)
    requires i <= |ns| && ParseMethods(ctx, ns, i).Ok?
    ensures MethodSpans(ParseMethods(ctx, ns, i).value) == Keys(ns[i..])
    decreases |ns| - i
  {
    if i < |ns| {
      ParseMethodsSpans(ctx, ns, i + 1);
      var ms := ParseMethods(ctx, ns, i).value;
      assert ms == [ParseMethod(ctx, ns[i]).value] + ParseMethods(ctx, ns, i + 1).value;
      assert ms[1..] == ParseMethods(ctx, ns, i + 1).value;
      assert ns[i..][1..] == ns[i + 1..];
    }
  }

  /** What `schema` returns, its file hash left out. */
  datatype RubySchema = RubySchema(
    fileDocstring: String,
    contexts: seq<String>,
    methods: seq<MethodRecord>,
    classes: seq<ClassRecord>)

  /** `schema`: the class candidates parsed and merged, then the method
      candidates that were not parsed inside a class. */
  function SchemaOf(ctx: Context): Result<RubySchema> {
    var nodes := ClassNodes(ctx.root);
    var recs :- ParseClasses(ctx, nodes, 0);
    var merged := MergeRecords(nodes, recs);
    var methods :- ParseMethods(ctx, Outside(MethodNodes(ctx.root), merged.inClassMethods), 0);
    Ok(RubySchema(FileDocstring(ctx.src, ctx.root), FileContext(ctx.src, ctx.root), methods, merged.classes))
  }

  /** The full names of `cs`, in order. */
  function Names(cs: seq<ClassRecord>): (r: seq<String>)
    ensures |r| == |cs| && forall k :: 0 <= k < |cs| ==> r[k] == FullName(cs[k])
  {
    if cs == [] then [] else [FullName(cs[0])] + Names(cs[1..])
  }

  /** The schema's classes have distinct full names, the record of every
      class candidate is among them by name, and no top-level method
      shares its span with a method of a class. */
  lemma SchemaMeaning(ctx: Context, j: nat)
    requires SchemaOf(ctx).Ok?
    ensures Distinct(Names(SchemaOf(ctx).value.classes))
    ensures j < |ClassNodes(ctx.root)| ==>
      FullName(ParseClasses(ctx, ClassNodes(ctx.root), 0).value[j]) in Names(SchemaOf(ctx).value.classes)
    ensures forall k, i, q ::
      (0 <= k < |SchemaOf(ctx).value.methods| && 0 <= i < |SchemaOf(ctx).value.classes|
       && 0 <= q < |SchemaOf(ctx).value.classes[i].methods|)
      ==> SchemaOf(ctx).value.methods[k].byteSpan != SchemaOf(ctx).value.classes[i].methods[q].byteSpan
  {
    var nodes := ClassNodes(ctx.root);
    var recs := ParseClasses(ctx, nodes, 0).value;
    var merged := MergeRecords(nodes, recs);
    var top := Outside(MethodNodes(ctx.root), merged.inClassMethods);
    ParseMethodsSpans(ctx, top, 0);
    assert top[0..] == top;
    assert Names(merged.classes) == merged.classNames;
    if j < |nodes| {
      MergeCovers(nodes, recs, j);
    }
  }

  // ------------------------------------------------ the parser's methods

  /** The loop of `_parse_method_node` over one `method_parameters` child:
      its defaults written into `d`, and its parameter texts. */
  method ScanParameters(src: String, p: Node, d: Dict) returns (r: Result<Dict>, params: seq<String>)
    ensures r == ArgDefaults(src, p.children, 0, d)
    ensures r.Ok? ==> params == ParamTexts(src, p)
  {
    var args := p.children;
    var cur := d;
    var opts: seq<Node> := [];
    params := [];
    for i := 0 to |args|
      invariant ArgDefaults(src, args, 0, d) == ArgDefaults(src, args, i, cur)
      invariant opts == Optionals(args[..i])
    {
      assert args[..i + 1][..i] == args[..i];
      if IsOptional(args[i]) {
        var kv := SplitDefault(src, args[i].children);
        if kv.Err? {
          r := Err(kv.error);
          return;
        }
        cur := Assign(cur, kv.value.0, kv.value.1);
        opts := opts + [args[i]];
      }
    }
    assert args[..|args|] == args;
    r := Ok(cur);
    params := Select(src, ChildrenOfKind(p, "identifier") + opts, false);
  }

  /** The loop of `_parse_method_node` over the method's children: the
      defaults, the last parameter list and the last name. */
  method ScanMethodChildren(src: String, cs: seq<Node>) returns (defaults: Result<Dict>, params: seq<String>, name: Option<String>)
    ensures defaults == MethodDefaults(src, cs, 0, [])
    ensures defaults.Ok? ==> params == Parameters(src, cs) && name == MethodName(src, cs)
  {
    var d: Dict := [];
    params := [];
    name := None;
    for i := 0 to |cs|
      invariant MethodDefaults(src, cs, 0, []) == MethodDefaults(src, cs, i, d)
      invariant params == Parameters(src, cs[..i])
      invariant name == MethodName(src, cs[..i])
    {
      assert cs[..i + 1][..i] == cs[..i];
      if cs[i].kind == "identifier" {
        name := Some(Strip(Span(src, cs[i])));
      }
      if cs[i].kind == "method_parameters" {
        var r, ps := ScanParameters(src, cs[i], d);
        if r.Err? {
          defaults := Err(r.error);
          return;
        }
        d := r.value;
        params := ps;
      }
    }
    assert cs[..|cs|] == cs;
    defaults := Ok(d);
  }

  /** The head of `_parse_method_node(m)`. */
  method MethodHeadOf(ctx: Context, m: Node) returns (r: Result<MethodRecord>)
    ensures r == MethodHead(ctx, m)
  {
    var defaults, params, name := ScanMethodChildren(ctx.src, m.children);
    if defaults.Err? {
      return Err(defaults.error);
    }
    var sig := SignatureLoop(ctx.src, m.children);
    return Ok(MethodRecord(
      defaults.value, SpanSelect(ctx.src, [m], true), KeyOf(m), Shift(ctx, m.startPoint), Shift(ctx, m.endPoint),
      PrefixOf(ctx, m), params, name, sig, [], []));
  }

  /** `_parse_method_node(m)`. */
  method ParseMethodNode(ctx: Context, m: Node) returns (r: Result<MethodRecord>)
    ensures r == ParseMethod(ctx, m)
    decreases m, |m.children| + 2
  {
    var head := MethodHeadOf(ctx, m);
    if head.Err? {
      return head;
    }
    var cs := ParseNestedClasses(ctx, m, false);
    if cs.Err? {
      return Err(cs.error);
    }
    var ms := ParseNestedMethods(ctx, m, false);
    if ms.Err? {
      return Err(ms.error);
    }
    return Ok(head.value.(classes := cs.value, methods := ms.value));
  }

  /** The argument lists of an include call, as paths. */
  method ScanIncludeArgs(src: String, call: Node) returns (r: seq<String>)
    ensures r == IncludeArgs(src, call.children)
  {
    var args := call.children;
    r := [];
    for q := 0 to |args|
      invariant r == IncludeArgs(src, args[..q])
    {
      assert args[..q + 1][..q] == args[..q];
      if args[q].kind == "argument_list" {
        r := r + [IncludeArg(src, args[q])];
      }
    }
    assert args[..|args|] == args;
  }

  /** The loop of `_parse_class_node` over the class's calls: the include
      paths and the other calls' texts. */
  method ScanCalls(src: String, calls: seq<Node>) returns (contexts: seq<String>, exprs: seq<String>)
    ensures contexts == Contexts(src, calls) && exprs == CallExpressions(src, calls)
  {
    contexts := [];
    exprs := [];
    for i := 0 to |calls|
      invariant contexts == Contexts(src, calls[..i]) && exprs == CallExpressions(src, calls[..i])
    {
      assert calls[..i + 1][..i] == calls[..i];
      var content := SpanSelect(src, [calls[i]], true);
      if StartsWith(Strip(content), "include ") {
        var paths := ScanIncludeArgs(src, calls[i]);
        contexts := contexts + paths;
      } else {
        exprs := exprs + [content];
      }
    }
    assert calls[..|calls|] == calls;
  }

  /** The head of `_parse_class_node(c)`. */
  method ClassHeadOf(ctx: Context, c: Node) returns (r: ClassRecord)
    ensures r == ClassHead(ctx, c)
  {
    var p := FirstIndex(c.children, "superclass", 1);
    var definition := SigSpan(ctx.src, c.children, p);
    var contexts, exprs := ScanCalls(ctx.src, ChildrenOfType(c, ImportTypes));
    exprs := exprs + Select(ctx.src, ChildrenOfType(c, AssignmentTypes), true);
    return ClassRecord(
      [], definition, KeyOf(c), Shift(ctx, c.startPoint), Shift(ctx, c.endPoint),
      SpanSelect(ctx.src, [c], true), PrefixOf(ctx, c), OptSpan(ctx.src, ChildByField(c, "name")),
      Bases(ctx.src, c), contexts, exprs, [], []);
  }

  /** `_parse_class_node(c)`. */
  method ParseClassNode(ctx: Context, c: Node) returns (r: Result<ClassRecord>)
    ensures r == ParseClass(ctx, c)
    decreases c, |c.children| + 2
  {
    var head := ClassHeadOf(ctx, c);
    var cs := ParseNestedClasses(ctx, c, true);
    if cs.Err? {
      return Err(cs.error);
    }
    var ms := ParseNestedMethods(ctx, c, true);
    if ms.Err? {
      return Err(ms.error);
    }
    return Ok(head.(classes := cs.value, methods := ms.value));
  }

  /** The nested class list of `n`. */
  method ParseNestedClasses(ctx: Context, n: Node, filter: bool) returns (r: Result<seq<ClassRecord>>)
    ensures r == NestedClasses(ctx, n, 0, filter)
    decreases n, |n.children| + 1
  {
    var out: seq<ClassRecord> := [];
    PrependNothing(NestedClasses(ctx, n, 0, filter));
    for i := 0 to |n.children|
      invariant NestedClasses(ctx, n, 0, filter) == Prepend(out, NestedClasses(ctx, n, i, filter))
    {
      var next := NextClass(ctx, n, i, filter);
      if next.Err? {
        return Err(next.error);
      }
      if next.value.Some? {
        PrependTwice(out, [next.value.value], NestedClasses(ctx, n, i + 1, filter));
        out := out + [next.value.value];
      }
    }
    assert out + [] == out;
    return Ok(out);
  }

  /** The record of child `i` when the nested class list parses it. */
  method NextClass(ctx: Context, n: Node, i: nat, filter: bool) returns (r: Result<Option<ClassRecord>>)
    requires i < |n.children|
    ensures NestedClasses(ctx, n, i, filter) ==
      match r
      case Err(e) => Err(e)
      case Ok(None) => NestedClasses(ctx, n, i + 1, filter)
      case Ok(Some(x)) => Prepend([x], NestedClasses(ctx, n, i + 1, filter))
    decreases n, |n.children| - i
  {
    if !Picks(n, i, ClassTypes, filter) {
      return Ok(None);
    }
    var c := ParseClassNode(ctx, n.children[i]);
    if c.Err? {
      return Err(c.error);
    }
    return Ok(Some(c.value));
  }

  /** The nested method list of `n`. */
  method ParseNestedMethods(ctx: Context, n: Node, filter: bool) returns (r: Result<seq<MethodRecord>>)
    ensures r == NestedMethods(ctx, n, 0, filter)
    decreases n, |n.children| + 1
  {
    var out: seq<MethodRecord> := [];
    PrependNothing(NestedMethods(ctx, n, 0, filter));
    for i := 0 to |n.children|
      invariant NestedMethods(ctx, n, 0, filter) == Prepend(out, NestedMethods(ctx, n, i, filter))
    {
      var next := NextMethod(ctx, n, i, filter);
      if next.Err? {
        return Err(next.error);
      }
      if next.value.Some? {
        PrependTwice(out, [next.value.value], NestedMethods(ctx, n, i + 1, filter));
        out := out + [next.value.value];
      }
    }
    assert out + [] == out;
    return Ok(out);
  }

  /** The record of child `i` when the nested method list parses it. */
  method NextMethod(ctx: Context, n: Node, i: nat, filter: bool) returns (r: Result<Option<MethodRecord>>)
    requires i < |n.children|
    ensures NestedMethods(ctx, n, i, filter) ==
      match r
      case Err(e) => Err(e)
      case Ok(None) => NestedMethods(ctx, n, i + 1, filter)
      case Ok(Some(x)) => Prepend([x], NestedMethods(ctx, n, i + 1, filter))
    decreases n, |n.children| - i
  {
    if !Picks(n, i, MethodTypes, filter) {
      return Ok(None);
    }
    var m := ParseMethodNode(ctx, n.children[i]);
    if m.Err? {
      return Err(m.error);
    }
    return Ok(Some(m.value));
  }

  /** One pass of the `schema` loop: `name not in class_names`, then
      `class_names.index(name)`. */
  method Merge(s: Merged, key: Key, r: ClassRecord) returns (t: Merged)
    requires Valid(s)
    ensures t == MergeStep(s, key, r)
  {
    var name := FullName(r);
    var spans := MethodSpans(r.methods);
    var idx := 0;
    while idx < |s.classNames| && s.classNames[idx] != name
      invariant idx <= |s.classNames| && forall j :: 0 <= j < idx ==> s.classNames[j] != name
      decreases |s.classNames| - idx
    {
      idx := idx + 1;
    }
    if idx == |s.classNames| {
      return Merged(s.classes + [r], s.classNames + [name], s.spans + [key], s.inClassMethods + spans);
    }
    assert IndexOf(s.classNames, name) == idx;
    if key !in s.spans {
      var c := s.classes[idx].(methods := s.classes[idx].methods + r.methods);
      return Merged(s.classes[idx := c], s.classNames, s.spans + [key], s.inClassMethods + spans);
    }
    return s.(inClassMethods := s.inClassMethods + spans);
  }

  /** The method candidates whose span was not parsed inside a class. */
  method KeepOutside(ns: seq<Node>, inClass: seq<Key>) returns (r: seq<Node>)
    ensures r == Outside(ns, inClass)
  {
    r := [];
    for i := 0 to |ns|
      invariant r == Outside(ns[..i], inClass)
    {
      assert ns[..i + 1][..i] == ns[..i];
      if KeyOf(ns[i]) !in inClass {
        r := r + [ns[i]];
      }
    }
    assert ns[..|ns|] == ns;
  }

  /** `[self.parse_method_node(c) for c in ns]`. */
  method ParseMethodList(ctx: Context, ns: seq<Node>) returns (r: Result<seq<MethodRecord>>)
    ensures r == ParseMethods(ctx, ns, 0)
  {
    var out: seq<MethodRecord> := [];
    PrependNothing(ParseMethods(ctx, ns, 0));
    for i := 0 to |ns|
      invariant ParseMethods(ctx, ns, 0) == Prepend(out, ParseMethods(ctx, ns, i))
    {
      var m := ParseMethodNode(ctx, ns[i]);
      if m.Err? {
        return Err(m.error);
      }
      PrependTwice(out, [m.value], ParseMethods(ctx, ns, i + 1));
      out := out + [m.value];
    }
    assert out + [] == out;
    return Ok(out);
  }

  lemma MergeRecordsSnoc(nodes: seq<Node>, i: nat, recs: seq<ClassRecord>, c: ClassRecord)
    requires i < |nodes| && |recs| == i
    ensures MergeRecords(nodes[..i + 1], recs + [c]) == MergeStep(MergeRecords(nodes[..i], recs), KeyOf(nodes[i]), c)
  {
    assert nodes[..i + 1][..i] == nodes[..i];
    assert (recs + [c])[..i] == recs;
  }

  /** One pass of the class loop: the candidate parsed and, if that
      succeeds, merged into the state. */
  method MergeNext(ctx: Context, nodes: seq<Node>, i: nat, recs: seq<ClassRecord>, s: Merged)
    returns (c: Result<ClassRecord>, t: Merged)
    requires i < |nodes| && |recs| == i && s == MergeRecords(nodes[..i], recs)
    requires ParseClasses(ctx, nodes, 0) == Prepend(recs, ParseClasses(ctx, nodes, i))
    ensures c.Err? ==> ParseClasses(ctx, nodes, 0) == Err(c.error)
    ensures c.Ok? ==> t == MergeRecords(nodes[..i + 1], recs + [c.value])
    ensures c.Ok? ==> ParseClasses(ctx, nodes, 0) == Prepend(recs + [c.value], ParseClasses(ctx, nodes, i + 1))
  {
    c := ParseClassNode(ctx, nodes[i]);
    t := s;
    if c.Ok? {
      t := Merge(s, KeyOf(nodes[i]), c.value);
      MergeRecordsSnoc(nodes, i, recs, c.value);
      PrependTwice(recs, [c.value], ParseClasses(ctx, nodes, i + 1));
    }
  }

  /** The class loop of `schema`: each candidate parsed, then merged. */
  method MergeCandidates(ctx: Context, nodes: seq<Node>) returns (r: Result<Merged>)
    ensures match ParseClasses(ctx, nodes, 0)
      case Err(e) => r == Err(e)
      case Ok(recs) => r == Ok(MergeRecords(nodes, recs))
  {
    var recs: seq<ClassRecord> := [];
    var merged := Start;
    PrependNothing(ParseClasses(ctx, nodes, 0));
    for i := 0 to |nodes|
      invariant |recs| == i
      invariant ParseClasses(ctx, nodes, 0) == Prepend(recs, ParseClasses(ctx, nodes, i))
      invariant merged == MergeRecords(nodes[..i], recs)
    {
      var c;
      c, merged := MergeNext(ctx, nodes, i, recs, merged);
      if c.Err? {
        return Err(c.error);
      }
      recs := recs + [c.value];
    }
    assert recs + [] == recs;
    assert nodes[..|nodes|] == nodes;
    return Ok(merged);
  }

  /** The `schema` property. */
  method BuildSchema(ctx: Context) returns (r: Result<RubySchema>)
    ensures r == SchemaOf(ctx)
  {
    var nodes := CollectClassNodes(ctx.root);
    var merged := MergeCandidates(ctx, nodes);
    if merged.Err? {
      return Err(merged.error);
    }
    var top := CollectMethodNodes(ctx.root);
    var outside := KeepOutside(top, merged.value.inClassMethods);
    var methods := ParseMethodList(ctx, outside);
    if methods.Err? {
      return Err(methods.error);
    }
    var doc := FileDocstringLoop(ctx.src, ctx.root);
    var contexts := FileContextLoop(ctx.src, ctx.root);
    return Ok(RubySchema(doc, contexts, methods.value, merged.value.classes));
  }
}
