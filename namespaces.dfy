/** The namespace tables of the C-family parsers (`_traverse_namespace` of
    the C++ and C# parsers): for every class or method written directly in
    the file or in a (nested) namespace's declaration list, the prefix built
    from the enclosing namespace names and the node that holds it, keyed by
    the byte span.
 */
module Namespaces {
  import opened Wrappers
  import opened Text
  import opened Tree
  import opened Schema

  /** What tells the languages apart: the namespace, class and method node
      types and the separator written after each namespace name. */
  datatype Family = Family(
    namespaceKinds: set<String>,
    classKinds: set<String>,
    methodKinds: set<String>,
    sep: String)

  const CppFamily: Family :=
    Family({"namespace_definition"}, {"class_specifier"}, {"function_definition"}, "::")

  const CSharpFamily: Family :=
    Family({"namespace_declaration"},
           {"class_declaration", "struct_declaration", "interface_declaration"},
           {"constructor_declaration", "method_declaration"}, ".")

  /** The name an unnamed namespace stands under. */
  const Unnamed: String := "(unique)"

  /** One write of the traversal: key, namespace prefix and parent node. */
  datatype Entry = Entry(key: Key, prefix: String, parent: Node)

  /** A namespace's name: its `name` field's text, or "(unique)". */
  function NamespaceName(src: String, ns: Node): (r: String)
    ensures ChildByField(ns, "name").None? ==> r == Unnamed
    ensures ChildByField(ns, "name").Some? ==> r == Span(src, ChildByField(ns, "name").value)
  {
    match ChildByField(ns, "name")
    case None => Unnamed
    case Some(n) => Span(src, n)
  }

  /** The writes `_traverse_namespace(node, prefix)` makes, in order. */
  function Entries(src: String, f: Family, node: Node, prefix: String): seq<Entry>
    decreases node, 1
  {
    EntriesFrom(src, f, node, prefix, 0)
  }

  /** The writes made for children `i` onwards of `node`. */
  function EntriesFrom(src: String, f: Family, node: Node, prefix: String, i: nat): seq<Entry>
    requires i <= |node.children|
    decreases node, 0, |node.children| - i
  {
    if i == |node.children| then [] else
      ChildEntries(src, f, node, i, prefix) + EntriesFrom(src, f, node, prefix, i + 1)
  }

  /** The writes made for child `i` of `node`: a namespace's first
      declaration list is walked with the longer prefix, a class or method
      is recorded with `node` as its parent. */
  function ChildEntries(src: String, f: Family, node: Node, i: nat, prefix: String): seq<Entry>
    requires i < |node.children|
    decreases node, 0, |node.children| - i - 1
  {
    var child := node.children[i];
    NestedEntries(src, f, child, prefix) + OwnEntries(f, node, child, prefix)
  }

  /** The writes made inside a namespace child: its first declaration list
      is walked with its name and the separator appended to the prefix. */
  function NestedEntries(src: String, f: Family, child: Node, prefix: String): seq<Entry>
    decreases child, 2
  {
    if child.kind in f.namespaceKinds then
      match FirstOfKind(child.children, "declaration_list")
      case None => []
      case Some(j) => Entries(src, f, child.children[j], prefix + NamespaceName(src, child) + f.sep)
    else []
  }

  /** The writes recording a class or method child itself. */
  function OwnEntries(f: Family, node: Node, child: Node, prefix: String): seq<Entry> {
    (if child.kind in f.classKinds then [Entry(KeyOf(child), prefix, node)] else [])
    + (if child.kind in f.methodKinds then [Entry(KeyOf(child), prefix, node)] else [])
  }

  /** The prefix table after applying `es` to `m`, in order. */
  function WritePrefixes(m: map<Key, String>, es: seq<Entry>): map<Key, String>
    decreases |es|
  {
    if es == [] then m else WritePrefixes(m[es[0].key := es[0].prefix], es[1..])
  }

  /** The parent table after applying `es` to `m`, in order. */
  function WriteParents(m: map<Key, Node>, es: seq<Entry>): map<Key, Node>
    decreases |es|
  {
    if es == [] then m else WriteParents(m[es[0].key := es[0].parent], es[1..])
  }

  lemma {:induction false} WritePrefixesAppend(m: map<Key, String>, a: seq<Entry>, b: seq<Entry>)
    ensures WritePrefixes(m, a + b) == WritePrefixes(WritePrefixes(m, a), b)
    decreases |a|
  {
    if a != [] {
      assert (a + b)[1..] == a[1..] + b;
      WritePrefixesAppend(m[a[0].key := a[0].prefix], a[1..], b);
    } else {
      assert a + b == b;
    }
  }

  lemma {:induction false} WriteParentsAppend(m: map<Key, Node>, a: seq<Entry>, b: seq<Entry>)
    ensures WriteParents(m, a + b) == WriteParents(WriteParents(m, a), b)
    decreases |a|
  {
    if a != [] {
      assert (a + b)[1..] == a[1..] + b;
      WriteParentsAppend(m[a[0].key := a[0].parent], a[1..], b);
    } else {
      assert a + b == b;
    }
  }

  lemma WriteOne(m: map<Key, String>, p: map<Key, Node>, e: Entry)
    ensures WritePrefixes(m, [e]) == m[e.key := e.prefix]
    ensures WriteParents(p, [e]) == p[e.key := e.parent]
  {
    assert [e][1..] == [];
  }

  /** Both tables get a key from the same writes, so a span is in one
      exactly when it is in the other. */
  lemma {:induction false} SameKeys(m: map<Key, String>, p: map<Key, Node>, es: seq<Entry>)
    requires m.Keys == p.Keys
    ensures WritePrefixes(m, es).Keys == WriteParents(p, es).Keys
    decreases |es|
  {
    if es != [] {
      SameKeys(m[es[0].key := es[0].prefix], p[es[0].key := es[0].parent], es[1..]);
    }
  }

  /** A key no write touches keeps what it had. */
  lemma {:induction false} NotWritten(m: map<Key, String>, es: seq<Entry>, k: Key)
    requires forall i :: 0 <= i < |es| ==> es[i].key != k
    ensures k in WritePrefixes(m, es) <==> k in m
    ensures k in m ==> WritePrefixes(m, es)[k] == m[k]
    decreases |es|
  {
    if es != [] {
      assert es[0].key != k;
      assert forall j :: 0 <= j < |es| - 1 ==> es[1..][j] == es[j + 1];
      NotWritten(m[es[0].key := es[0].prefix], es[1..], k);
    }
  }

  /** A key's prefix after the writes is the one of its last write. */
  lemma {:induction false} LastWriteWins(m: map<Key, String>, es: seq<Entry>, k: Key, i: nat)
    requires i < |es| && es[i].key == k
    requires forall j :: i < j < |es| ==> es[j].key != k
    ensures k in WritePrefixes(m, es) && WritePrefixes(m, es)[k] == es[i].prefix
    decreases |es|
  {
    var m' := m[es[0].key := es[0].prefix];
    assert forall j :: 0 <= j < |es| - 1 ==> es[1..][j] == es[j + 1];
    if i == 0 {
      NotWritten(m', es[1..], k);
    } else {
      LastWriteWins(m', es[1..], k, i - 1);
    }
  }

  /** Every class and method child of the walked node is recorded with the
      walk's prefix and the node as its parent. */
  lemma {:induction false} DirectChildRecorded(src: String, f: Family, node: Node, prefix: String, i: nat)
    requires i < |node.children|
    requires node.children[i].kind in f.classKinds + f.methodKinds
    ensures Entry(KeyOf(node.children[i]), prefix, node) in Entries(src, f, node, prefix)
  {
    EntriesFromHolds(src, f, node, prefix, 0, i);
  }

  lemma {:induction false} EntriesFromHolds(src: String, f: Family, node: Node, prefix: String, i: nat, k: nat)
    requires i <= k < |node.children|
    ensures forall e :: e in ChildEntries(src, f, node, k, prefix) ==> e in EntriesFrom(src, f, node, prefix, i)
    decreases k - i
  {
    if i < k {
      EntriesFromHolds(src, f, node, prefix, i + 1, k);
    }
  }

  /** The first declaration list of a namespace child is walked with the
      namespace's name and the separator appended to the prefix. */
  lemma {:induction false} NestedNamespaceRecorded(src: String, f: Family, node: Node, prefix: String, i: nat, j: nat)
    requires i < |node.children|
    requires node.children[i].kind in f.namespaceKinds
    requires FirstOfKind(node.children[i].children, "declaration_list") == Some(j)
    ensures forall e :: e in Entries(src, f, node.children[i].children[j],
                                   prefix + NamespaceName(src, node.children[i]) + f.sep)
              ==> e in Entries(src, f, node, prefix)
  {
    var child := node.children[i];
    assert NestedEntries(src, f, child, prefix) == Entries(src, f, child.children[j], prefix + NamespaceName(src, child) + f.sep);
    assert ChildEntries(src, f, node, i, prefix) == NestedEntries(src, f, child, prefix) + OwnEntries(f, node, child, prefix);
    EntriesFromHolds(src, f, node, prefix, 0, i);
  }

  /** Every recorded prefix extends the walk's prefix, and ends with the
      separator whenever it is longer. */
  lemma {:induction false} PrefixesExtend(src: String, f: Family, node: Node, prefix: String)
    ensures forall e :: e in Entries(src, f, node, prefix) ==>
      StartsWith(e.prefix, prefix) && (|e.prefix| > |prefix| ==> EndsWith(e.prefix, f.sep))
    decreases node, 1
  {
    PrefixesExtendFrom(src, f, node, prefix, 0);
  }

  lemma {:induction false} PrefixesExtendFrom(src: String, f: Family, node: Node, prefix: String, i: nat)
    requires i <= |node.children|
    ensures forall e :: e in EntriesFrom(src, f, node, prefix, i) ==>
      StartsWith(e.prefix, prefix) && (|e.prefix| > |prefix| ==> EndsWith(e.prefix, f.sep))
    decreases node, 0, |node.children| - i
  {
    if i < |node.children| {
      var child := node.children[i];
      PrefixesExtendFrom(src, f, node, prefix, i + 1);
      NestedPrefixesExtend(src, f, child, prefix);
      assert EntriesFrom(src, f, node, prefix, i) ==
        NestedEntries(src, f, child, prefix) + OwnEntries(f, node, child, prefix) + EntriesFrom(src, f, node, prefix, i + 1);
    }
  }

  lemma {:induction false} NestedPrefixesExtend(src: String, f: Family, child: Node, prefix: String)
    ensures forall e :: e in NestedEntries(src, f, child, prefix) ==>
      StartsWith(e.prefix, prefix) && EndsWith(e.prefix, f.sep)
    decreases child, 2
  {
    if child.kind in f.namespaceKinds {
      match FirstOfKind(child.children, "declaration_list")
      case None =>
      case Some(j) =>
        var p := prefix + NamespaceName(src, child) + f.sep;
        PrefixesExtend(src, f, child.children[j], p);
        forall e | e in Entries(src, f, child.children[j], p)
          ensures StartsWith(e.prefix, prefix) && EndsWith(e.prefix, f.sep)
        {
          ExtendsBoth(e.prefix, prefix, p, f.sep);
        }
    }
  }

  /** A string that starts with `p + ...sep` starts with `p` and, when it is
      no longer, ends with `sep`. */
  lemma ExtendsBoth(s: String, prefix: String, p: String, sep: String)
    requires StartsWith(p, prefix) && EndsWith(p, sep)
    requires StartsWith(s, p) && (|s| > |p| ==> EndsWith(s, sep))
    ensures StartsWith(s, prefix) && EndsWith(s, sep)
  {
    assert s[..|prefix|] == p[..|prefix|];
    if |s| == |p| {
      assert s == p;
    }
  }

  /** The tables `update` builds for one file: the writes of
      `_traverse_namespace(root)` applied to empty dicts. */
  class NamespaceTable {
    const family: Family
    const src: String
    var node2namespace: map<Key, String>
    var node2parent: map<Key, Node>

    constructor (family: Family, src: String, root: Node)
      ensures this.family == family && this.src == src
      ensures node2namespace == WritePrefixes(map[], Entries(src, family, root, ""))
      ensures node2parent == WriteParents(map[], Entries(src, family, root, ""))
    {
      this.family := family;
      this.src := src;
      node2namespace := map[];
      node2parent := map[];
      new;
      Traverse(root, "");
    }

    /** `_traverse_namespace(node, prefix)`. */
    method Traverse(node: Node, prefix: String)
      modifies this
      ensures node2namespace == WritePrefixes(old(node2namespace), Entries(src, family, node, prefix))
      ensures node2parent == WriteParents(old(node2parent), Entries(src, family, node, prefix))
      decreases node, 1
    {
      var i := 0;
      while i < |node.children|
        invariant i <= |node.children|
        invariant WritePrefixes(node2namespace, EntriesFrom(src, family, node, prefix, i))
               == WritePrefixes(old(node2namespace), Entries(src, family, node, prefix))
        invariant WriteParents(node2parent, EntriesFrom(src, family, node, prefix, i))
               == WriteParents(old(node2parent), Entries(src, family, node, prefix))
        decreases |node.children| - i
      {
        var before1, before2 := node2namespace, node2parent;
        VisitChild(node, i, prefix);
        WritePrefixesAppend(before1, ChildEntries(src, family, node, i, prefix), EntriesFrom(src, family, node, prefix, i + 1));
        WriteParentsAppend(before2, ChildEntries(src, family, node, i, prefix), EntriesFrom(src, family, node, prefix, i + 1));
        i := i + 1;
      }
    }

    /** One pass of the loop over `node`'s children. */
    method VisitChild(node: Node, i: nat, prefix: String)
      requires i < |node.children|
      modifies this
      ensures node2namespace == WritePrefixes(old(node2namespace), ChildEntries(src, family, node, i, prefix))
      ensures node2parent == WriteParents(old(node2parent), ChildEntries(src, family, node, i, prefix))
      decreases node, 0
    {
      var child := node.children[i];
      if child.kind in family.namespaceKinds {
        VisitNamespace(child, prefix);
      }
      ghost var mid1, mid2 := node2namespace, node2parent;
      ghost var e := Entry(KeyOf(child), prefix, node);
      ghost var c1: seq<Entry> := if child.kind in family.classKinds then [e] else [];
      ghost var c2: seq<Entry> := if child.kind in family.methodKinds then [e] else [];
      WriteOne(mid1, mid2, e);
      if child.kind in family.classKinds {
        node2namespace := node2namespace[KeyOf(child) := prefix];
        node2parent := node2parent[KeyOf(child) := node];
      }
      ghost var mid3, mid4 := node2namespace, node2parent;
      WriteOne(mid3, mid4, e);
      if child.kind in family.methodKinds {
        node2namespace := node2namespace[KeyOf(child) := prefix];
        node2parent := node2parent[KeyOf(child) := node];
      }
      var own := OwnEntries(family, node, child, prefix);
      assert own == c1 + c2;
      WritePrefixesAppend(mid1, c1, c2);
      WriteParentsAppend(mid2, c1, c2);
      WritePrefixesAppend(old(node2namespace), NestedEntries(src, family, child, prefix), own);
      WriteParentsAppend(old(node2parent), NestedEntries(src, family, child, prefix), own);
    }

    /** The walk into the first declaration list of a namespace child. */
    method VisitNamespace(child: Node, prefix: String)
      requires child.kind in family.namespaceKinds
      modifies this
      ensures node2namespace == WritePrefixes(old(node2namespace), NestedEntries(src, family, child, prefix))
      ensures node2parent == WriteParents(old(node2parent), NestedEntries(src, family, child, prefix))
      decreases child, 2
    {
      var name := NamespaceName(src, child);
      var j := 0;
      while j < |child.children|
        invariant j <= |child.children|
        invariant forall q :: 0 <= q < j ==> child.children[q].kind != "declaration_list"
        invariant unchanged(this)
        decreases |child.children| - j
      {
        if child.children[j].kind == "declaration_list" {
          assert FirstOfKind(child.children, "declaration_list") == Some(j);
          Traverse(child.children[j], prefix + name + family.sep);
          return;
        }
        j := j + 1;
      }
      assert FirstOfKind(child.children, "declaration_list") == None;
    }
  }
}
