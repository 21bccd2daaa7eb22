/** Token collection for the normalizer (`get_tokens`) and the merge of a
    unary minus into the number that follows it (`handle_negative_number`,
    `handle_negative_case`), over the token stream that `get_tokens` fills.
 */
module Tokens {
  import opened Wrappers
  import opened Text
  import opened Tree

  /** The languages `LanguageId` enumerates. */
  datatype Language =
    | Bash | C | Css | Cpp | CSharp | Go | Html | Java | JavaScript
    | Lua | Python | Php | Regex | Ruby | Rust | TypeScript

  /** The token types of number, string, character and regex literals. */
  datatype LitTypes = LitTypes(numTypes: seq<String>, strTypes: seq<String>, charTypes: seq<String>, regexTypes: seq<String>)

  /** `lang2lits[lang]`; None where the table has no entry (a `KeyError`). */
  function LangLits(lang: Language): Option<LitTypes> {
    match lang
    case C => Some(LitTypes(["number_literal"], ["string_literal"], ["char_literal"], []))
    case Cpp => Some(LitTypes(["number_literal"], ["string_literal", "raw_string_literal"], ["char_literal"], []))
    case CSharp => Some(LitTypes(["integer_literal", "real_literal"], ["string_literal", "verbatim_string_literal"], ["character_literal"], []))
    case Go => Some(LitTypes(["int_literal", "float_literal", "imaginary_literal"], ["interpreted_string_literal", "raw_string_literal", "rune_literal"], [], []))
    case Java => Some(LitTypes(
      ["decimal_floating_point_literal", "decimal_integer_literal", "hex_floating_point_literal",
       "hex_integer_literal", "octal_integer_literal", "binary_integer_literal"],
      ["string_literal"], ["character_literal"], []))
    case JavaScript => Some(LitTypes(["number"], ["string", "template_string"], [], ["regex_pattern"]))
    case Lua => Some(LitTypes(["number"], ["string"], [], []))
    case Python => Some(LitTypes(["integer", "float"], ["string"], [], []))
    case Php => Some(LitTypes(["integer", "float"], ["string"], [], []))
    case Ruby => Some(LitTypes(["integer", "float"], ["string", "bare_string"], [], []))
    case Rust => Some(LitTypes(["integer_literal", "float_literal"], ["string_literal", "raw_string_literal"], ["char_literal"], []))
    case TypeScript => Some(LitTypes(["number"], ["string", "template_string"], [], ["regex_pattern"]))
    case _ => None
  }

  /** `lang2statements[lang]`: declaration types that also end a statement. */
  function LangStatements(lang: Language): Option<seq<String>> {
    if lang == CSharp then
      Some(["namespace_declaration", "class_declaration", "method_declaration", "struct_declaration",
            "interface_declaration", "operator_declaration", "record_declaration",
            "constructor_declaration", "destructor_declaration", "enum_declaration",
            "event_declaration", "event_field_declaration", "field_declaration",
            "property_declaration", "using_directive"])
    else None
  }

  /** Tokens that are never replaced by a literal placeholder. */
  const Keywords: set<String> := {"int", "integer", "float", "string", "char", "character"}

  const EndOfStatement: String := "endofstatement"

  /** A token position: a start and end point, or none (the `[-1, -1]` of an
      end-of-statement marker and the `[]` of an inserted newline). */
  datatype Pos = NoPos | Range(sp: Point, ep: Point)

  datatype Entry = Entry(pos: Pos, kind: String)

  function Positions(es: seq<Entry>): (r: seq<Pos>)
    ensures |r| == |es| && forall i :: 0 <= i < |es| ==> r[i] == es[i].pos
  {
    if es == [] then [] else [es[0].pos] + Positions(es[1..])
  }

  function Kinds(es: seq<Entry>): (r: seq<String>)
    ensures |r| == |es| && forall i :: 0 <= i < |es| ==> r[i] == es[i].kind
  {
    if es == [] then [] else [es[0].kind] + Kinds(es[1..])
  }

  const Marker: Entry := Entry(NoPos, EndOfStatement)

  /** Types that contain "string" but name a compound of several strings. */
  const CompoundStrings: set<String> := {"concatenated_string", "string_array", "chained_string"}

  /** A string or char node, tokenized as a whole. */
  predicate IsAtomic(kind: String) {
    (kind !in CompoundStrings && Contains(kind, "string")) || Contains(kind, "char")
  }

  /** Whether an end-of-statement marker may follow a child of type `kind`;
      the statement table is only consulted when the type does not contain
      "statement", and only C# has one. */
  function IsStatement(kind: String, lang: Option<Language>): Result<bool> {
    if Contains(kind, "statement") then Ok(true)
    else if lang.None? || LangStatements(lang.value).None? then Err(KeyError)
    else Ok(kind in LangStatements(lang.value).value)
  }

  /** The entries `get_tokens(node, ...)` appends. */
  function NodeTokens(n: Node, preserve: bool, lang: Option<Language>): (r: Result<seq<Entry>>)
    ensures r.Ok? ==> |r.value| > 0 && r.value[0].pos.Range?
    ensures preserve && lang.None? ==> r == Err(AssertionFailed)
    ensures !(preserve && lang.None?) && (n.IsLeaf() || IsAtomic(n.kind)) ==>
      r.Ok? && |r.value| == 1 && r.value[0].kind == n.kind
    decreases n, 1, 0
  {
    if preserve && lang.None? then Err(AssertionFailed)
    else if n.IsLeaf() then Ok([Entry(Range(n.startPoint, n.endPoint), n.kind)])
    else if IsAtomic(n.kind) then
      Ok([Entry(Range(n.children[0].startPoint, n.children[|n.children| - 1].endPoint), n.kind)])
    else ChildrenTokens(n, |n.children|, preserve, lang)
  }

  /** The entries appended for the first `i` children of `n`, each child's
      tokens followed by a marker when the child ends a statement and its
      last entry is not already a marker. */
  function ChildrenTokens(n: Node, i: nat, preserve: bool, lang: Option<Language>): (r: Result<seq<Entry>>)
    requires i <= |n.children|
    ensures r.Ok? && i > 0 ==> |r.value| > 0 && r.value[0].pos.Range?
    decreases n, 0, i
  {
    if i == 0 then Ok([])
    else
      match ChildrenTokens(n, i - 1, preserve, lang)
      case Err(e) => Err(e)
      case Ok(acc) =>
        var c := n.children[i - 1];
        AfterChild(acc, NodeTokens(c, preserve, lang), c.kind, preserve, lang)
  }

  /** The entries after one more child whose own entries are `child`. */
  function AfterChild(acc: seq<Entry>, child: Result<seq<Entry>>, kind: String, preserve: bool, lang: Option<Language>): (r: Result<seq<Entry>>)
    requires child.Ok? ==> |child.value| > 0 && child.value[0].pos.Range?
    ensures r.Ok? ==> child.Ok? && |r.value| > 0 && r.value[0] == (if acc == [] then child.value[0] else acc[0])
  {
    match child
    case Err(e) => Err(e)
    case Ok(ts) =>
      if !preserve then Ok(acc + ts) else MarkAfter(acc + ts, kind, lang)
  }

  /** The end-of-statement marker `get_tokens` appends after a child of type
      `kind`, unless the last entry already is one. */
  function MarkAfter(es: seq<Entry>, kind: String, lang: Option<Language>): (r: Result<seq<Entry>>)
    requires |es| > 0
    ensures r.Ok? ==> |r.value| > 0 && r.value[0] == es[0]
  {
    match IsStatement(kind, lang)
    case Err(e) => Err(e)
    case Ok(st) => if st && es[|es| - 1].kind != EndOfStatement then Ok(es + [Marker]) else Ok(es)
  }

  lemma {:induction false} ChildrenTokensErr(n: Node, i: nat, j: nat, preserve: bool, lang: Option<Language>)
    requires i <= j <= |n.children| && ChildrenTokens(n, i, preserve, lang).Err?
    ensures ChildrenTokens(n, j, preserve, lang) == ChildrenTokens(n, i, preserve, lang)
    decreases j
  {
    if j > i {
      ChildrenTokensErr(n, i, j - 1, preserve, lang);
    }
  }

  /** No two consecutive entries are both markers. */
  predicate NoAdjacentMarkers(es: seq<Entry>) {
    forall i :: 0 < i < |es| && es[i].pos.NoPos? ==> es[i - 1].pos.Range?
  }

  /** Every position-less entry is an end-of-statement marker. */
  predicate MarkersTyped(es: seq<Entry>) {
    forall i :: 0 <= i < |es| && es[i].pos.NoPos? ==> es[i].kind == EndOfStatement
  }

  lemma {:induction false} NodeTokensShape(n: Node, preserve: bool, lang: Option<Language>)
    ensures NodeTokens(n, preserve, lang).Ok? ==>
      NoAdjacentMarkers(NodeTokens(n, preserve, lang).value) && MarkersTyped(NodeTokens(n, preserve, lang).value)
    decreases n, 1
  {
    if !(preserve && lang.None?) && !n.IsLeaf() && !IsAtomic(n.kind) {
      ChildrenTokensShape(n, |n.children|, preserve, lang);
    }
  }

  lemma {:induction false} ChildrenTokensShape(n: Node, i: nat, preserve: bool, lang: Option<Language>)
    requires i <= |n.children|
    ensures ChildrenTokens(n, i, preserve, lang).Ok? ==>
      NoAdjacentMarkers(ChildrenTokens(n, i, preserve, lang).value) && MarkersTyped(ChildrenTokens(n, i, preserve, lang).value)
    decreases n, 0, i
  {
    if i > 0 && ChildrenTokens(n, i, preserve, lang).Ok? {
      ChildrenTokensShape(n, i - 1, preserve, lang);
      var acc := ChildrenTokens(n, i - 1, preserve, lang).value;
      var c := n.children[i - 1];
      NodeTokensShape(c, preserve, lang);
      var ts := NodeTokens(c, preserve, lang).value;
      assert NoAdjacentMarkers(acc + ts);
      if preserve && IsStatement(c.kind, lang).value && ts[|ts| - 1].kind != EndOfStatement {
        assert (acc + ts + [Marker])[|acc + ts| - 1] == ts[|ts| - 1];
      }
    }
  }

  /** With `preserve_statement`, `get_tokens` never emits two markers in a row. */
  lemma NoAdjacentMarkersEmitted(root: Node, lang: Language)
    requires NodeTokens(root, true, Some(lang)).Ok?
    ensures NoAdjacentMarkers(NodeTokens(root, true, Some(lang)).value)
  {
    NodeTokensShape(root, true, Some(lang));
  }

  /** The entries that carry a position. */
  function WithoutMarkers(es: seq<Entry>): (r: seq<Entry>)
    ensures |r| <= |es|
  {
    if es == [] then []
    else if es[0].pos.NoPos? then WithoutMarkers(es[1..])
    else [es[0]] + WithoutMarkers(es[1..])
  }

  lemma {:induction false} WithoutMarkersConcat(a: seq<Entry>, b: seq<Entry>)
    ensures WithoutMarkers(a + b) == WithoutMarkers(a) + WithoutMarkers(b)
    decreases |a|
  {
    if a != [] {
      assert (a + b)[0] == a[0];
      assert (a + b)[1..] == a[1..] + b;
      WithoutMarkersConcat(a[1..], b);
      if a[0].pos.NoPos? {
        assert WithoutMarkers(a + b) == WithoutMarkers(a[1..] + b);
      } else {
        assert WithoutMarkers(a + b) == [a[0]] + WithoutMarkers(a[1..] + b);
      }
    } else {
      assert a + b == b;
    }
  }

  /** Without `preserve_statement` no entry is a marker. */
  lemma {:induction false} PlainTokensHaveNoMarkers(n: Node, lang: Option<Language>)
    ensures NodeTokens(n, false, lang).Ok?
    ensures WithoutMarkers(NodeTokens(n, false, lang).value) == NodeTokens(n, false, lang).value
    decreases n, 1
  {
    if !n.IsLeaf() && !IsAtomic(n.kind) {
      PlainChildrenHaveNoMarkers(n, |n.children|, lang);
    }
  }

  lemma {:induction false} PlainChildrenHaveNoMarkers(n: Node, i: nat, lang: Option<Language>)
    requires i <= |n.children|
    ensures ChildrenTokens(n, i, false, lang).Ok?
    ensures WithoutMarkers(ChildrenTokens(n, i, false, lang).value) == ChildrenTokens(n, i, false, lang).value
    decreases n, 0, i
  {
    if i > 0 {
      PlainChildrenHaveNoMarkers(n, i - 1, lang);
      PlainTokensHaveNoMarkers(n.children[i - 1], lang);
      var acc, ts := ChildrenTokens(n, i - 1, false, lang).value, NodeTokens(n.children[i - 1], false, lang).value;
      assert ChildrenTokens(n, i, false, lang) == Ok(acc + ts);
      WithoutMarkersConcat(acc, ts);
      assert WithoutMarkers(acc + ts) == acc + ts;

    }
  }

  /** Markers are only ever inserted: dropping them from the
      `preserve_statement` stream gives the plain token stream. */
  lemma {:induction false} MarkersOnlyInserted(n: Node, lang: Language)
    requires NodeTokens(n, true, Some(lang)).Ok?
    ensures NodeTokens(n, false, Some(lang)).Ok?
      && WithoutMarkers(NodeTokens(n, true, Some(lang)).value) == NodeTokens(n, false, Some(lang)).value
    decreases n, 1
  {
    PlainTokensHaveNoMarkers(n, Some(lang));
    if !n.IsLeaf() && !IsAtomic(n.kind) {
      MarkersOnlyInsertedChildren(n, |n.children|, lang);
    }
  }

  lemma {:induction false} MarkersOnlyInsertedChildren(n: Node, i: nat, lang: Language)
    requires i <= |n.children| && ChildrenTokens(n, i, true, Some(lang)).Ok?
    ensures ChildrenTokens(n, i, false, Some(lang)).Ok?
      && WithoutMarkers(ChildrenTokens(n, i, true, Some(lang)).value) == ChildrenTokens(n, i, false, Some(lang)).value
    decreases n, 0, i
  {
    PlainChildrenHaveNoMarkers(n, i, Some(lang));
    if i > 0 {
      var c := n.children[i - 1];
      MarkersOnlyInsertedChildren(n, i - 1, lang);
      MarkersOnlyInserted(c, lang);
      AfterChildWithoutMarkers(ChildrenTokens(n, i - 1, true, Some(lang)).value, NodeTokens(c, true, Some(lang)).value, c.kind, lang);
    }
  }

  lemma AfterChildWithoutMarkers(acc: seq<Entry>, ts: seq<Entry>, kind: String, lang: Language)
    requires |ts| > 0 && ts[0].pos.Range? && AfterChild(acc, Ok(ts), kind, true, Some(lang)).Ok?
    ensures WithoutMarkers(AfterChild(acc, Ok(ts), kind, true, Some(lang)).value) == WithoutMarkers(acc) + WithoutMarkers(ts)
  {
    WithoutMarkersConcat(acc, ts);
    WithoutMarkersConcat(acc + ts, [Marker]);
    assert WithoutMarkers([Marker]) == [];
  }

  lemma ChildrenTokensStep(n: Node, i: nat, preserve: bool, lang: Option<Language>, acc: seq<Entry>, ts: seq<Entry>)
    requires i < |n.children| && ChildrenTokens(n, i, preserve, lang) == Ok(acc)
    requires NodeTokens(n.children[i], preserve, lang) == Ok(ts)
    ensures ChildrenTokens(n, i + 1, preserve, lang) == AfterChild(acc, Ok(ts), n.children[i].kind, preserve, lang)
  {
  }

  lemma AppendEntries(ps: seq<Pos>, ks: seq<String>, acc: seq<Entry>, ts: seq<Entry>)
    ensures ps + Positions(acc) + Positions(ts) == ps + Positions(acc + ts)
    ensures ks + Kinds(acc) + Kinds(ts) == ks + Kinds(acc + ts)
  {
    ConcatMaps(acc, ts);
    Assoc(ps, Positions(acc), Positions(ts));
    Assoc(ks, Kinds(acc), Kinds(ts));
  }

  lemma Assoc<T>(a: seq<T>, b: seq<T>, c: seq<T>)
    ensures a + b + c == a + (b + c)
  {
  }

  lemma {:induction false} ConcatMaps(a: seq<Entry>, b: seq<Entry>)
    ensures Positions(a + b) == Positions(a) + Positions(b)
    ensures Kinds(a + b) == Kinds(a) + Kinds(b)
    decreases |a|
  {
    if a == [] {
      assert a + b == b;
    } else {
      assert (a + b)[1..] == a[1..] + b;
      ConcatMaps(a[1..], b);
      Assoc([a[0].pos], Positions(a[1..]), Positions(b));
      Assoc([a[0].kind], Kinds(a[1..]), Kinds(b));
    }
  }

  /** The two parallel lists `get_tokens` appends to. */
  class TokenStream {
    var positions: seq<Pos>
    var types: seq<String>

    /** The lists stay in lockstep and a missing position marks an end of statement. */
    predicate Valid()
      reads this
    {
      Lockstep(positions, types)
    }

    constructor ()
      ensures positions == [] && types == [] && Valid()
    {
      positions := [];
      types := [];
    }

    /** `get_tokens(node, tokens, types, preserve_statement, lang)`; an
        exception comes back as `Some(error)`. */
    method GetTokens(node: Node, preserve: bool, lang: Option<Language>) returns (err: Option<Error>)
      modifies this
      ensures NodeTokens(node, preserve, lang).Ok? ==>
        err.None?
        && positions == old(positions) + Positions(NodeTokens(node, preserve, lang).value)
        && types == old(types) + Kinds(NodeTokens(node, preserve, lang).value)
      ensures NodeTokens(node, preserve, lang).Err? ==> err == Some(NodeTokens(node, preserve, lang).error)
      decreases node, 1
    {
      if preserve && lang.None? {
        return Some(AssertionFailed);
      }
      if node.IsLeaf() {
        positions := positions + [Range(node.startPoint, node.endPoint)];
        types := types + [node.kind];
        return None;
      }
      if IsAtomic(node.kind) {
        positions := positions + [Range(node.children[0].startPoint, node.children[|node.children| - 1].endPoint)];
        types := types + [node.kind];
        return None;
      }
      err := GetChildrenTokens(node, preserve, lang);
    }

    /** The loop of `get_tokens` over the children of an ordinary node. */
    method GetChildrenTokens(node: Node, preserve: bool, lang: Option<Language>) returns (err: Option<Error>)
      modifies this
      ensures ChildrenTokens(node, |node.children|, preserve, lang).Ok? ==>
        err.None?
        && positions == old(positions) + Positions(ChildrenTokens(node, |node.children|, preserve, lang).value)
        && types == old(types) + Kinds(ChildrenTokens(node, |node.children|, preserve, lang).value)
      ensures ChildrenTokens(node, |node.children|, preserve, lang).Err? ==>
        err == Some(ChildrenTokens(node, |node.children|, preserve, lang).error)
      decreases node, 0, 1
    {
      ghost var acc: seq<Entry> := [];
      var i := 0;
      while i < |node.children|
        invariant 0 <= i <= |node.children|
        invariant ChildrenTokens(node, i, preserve, lang) == Ok(acc)
        invariant positions == old(positions) + Positions(acc) && types == old(types) + Kinds(acc)
      {
        err, acc := GetChildTokens(node, i, preserve, lang, old(positions), old(types), acc);
        if err.Some? {
          ChildrenTokensErr(node, i + 1, |node.children|, preserve, lang);
          return;
        }
        i := i + 1;
      }
      return None;
    }

    /** One pass of that loop: the entries of child `i`, then the
        end-of-statement step when `preserve` holds. */
    method GetChildTokens(node: Node, i: nat, preserve: bool, lang: Option<Language>,
                          ghost ps0: seq<Pos>, ghost ts0: seq<String>, ghost acc: seq<Entry>)
      returns (err: Option<Error>, ghost acc': seq<Entry>)
      requires i < |node.children| && ChildrenTokens(node, i, preserve, lang) == Ok(acc)
      requires positions == ps0 + Positions(acc) && types == ts0 + Kinds(acc)
      modifies this
      ensures ChildrenTokens(node, i + 1, preserve, lang).Ok? ==>
        err.None? && ChildrenTokens(node, i + 1, preserve, lang) == Ok(acc')
        && positions == ps0 + Positions(acc') && types == ts0 + Kinds(acc')
      ensures ChildrenTokens(node, i + 1, preserve, lang).Err? ==>
        err == Some(ChildrenTokens(node, i + 1, preserve, lang).error)
      decreases node, 0, 0
    {
      var child := node.children[i];
      err := GetTokens(child, preserve, lang);
      if err.Some? {
        return err, acc;
      }
      ghost var ts := NodeTokens(child, preserve, lang).value;
      ChildrenTokensStep(node, i, preserve, lang, acc, ts);
      AppendEntries(ps0, ts0, acc, ts);
      if preserve {
        err, acc' := MarkStatement(child.kind, lang, ps0, ts0, acc + ts);
      } else {
        acc' := acc + ts;
      }
    }

    /** The end-of-statement step of that loop, after the child's entries `es`. */
    method MarkStatement(kind: String, lang: Option<Language>, ghost ps0: seq<Pos>, ghost ts0: seq<String>, ghost es: seq<Entry>)
      returns (err: Option<Error>, ghost es': seq<Entry>)
      requires |es| > 0 && positions == ps0 + Positions(es) && types == ts0 + Kinds(es)
      modifies this
      ensures MarkAfter(es, kind, lang).Ok? ==>
        err.None? && MarkAfter(es, kind, lang) == Ok(es')
        && positions == ps0 + Positions(es') && types == ts0 + Kinds(es')
      ensures MarkAfter(es, kind, lang).Err? ==> err == Some(MarkAfter(es, kind, lang).error)
    {
      var st := IsStatement(kind, lang);
      if st.Err? {
        return Some(st.error), es;
      }
      assert types[|types| - 1] == es[|es| - 1].kind;
      if st.value && types[|types| - 1] != EndOfStatement {
        positions := positions + [NoPos];
        types := types + [EndOfStatement];
        AppendEntries(ps0, ts0, es, [Marker]);
        es' := es + [Marker];
      } else {
        es' := es;
      }
      err := None;
    }

    /** `handle_negative_case(tokens, types, i, numeric_types)` at a '-' entry:
        merge it with the following number entry when the entry before it
        (the last entry when `i` is 0) is an operator or an opening bracket. */
    method HandleNegativeCase(ni: nat, numeric: seq<String>) returns (err: Option<Error>)
      requires Valid() && ni < |types| && types[ni] == "-" && EndOfStatement !in numeric
      modifies this
      ensures Valid()
      ensures ni + 1 == |old(types)| ==> err == Some(IndexError) && positions == old(positions) && types == old(types)
      ensures ni + 1 < |old(types)| ==> err.None?
      ensures MergeApplies(old(types), ni, numeric) ==>
        (positions, types) == MergeAt(old(positions), old(types), ni)
      ensures !MergeApplies(old(types), ni, numeric) ==> positions == old(positions) && types == old(types)
    {
      if ni + 1 >= |types| {
        return Some(IndexError);
      }
      if !MergeApplies(types, ni, numeric) {
        return None;
      }
      assert positions[ni].Range? && positions[ni + 1].Range?;
      ghost var merged := MergeAt(positions, types, ni);
      positions := positions[ni := Range(positions[ni].sp, positions[ni + 1].ep)];
      types := types[ni := types[ni + 1]];
      RemoveAt(ni + 1);
      assert positions == merged.0;
      assert types == merged.1;
      MergeAtLockstep(old(positions), old(types), ni);
      return None;
    }

    /** The left shift and `pop()` that follow a merge: entry `k` leaves both lists. */
    method RemoveAt(k: nat)
      requires k < |types| == |positions|
      modifies this
      ensures |positions| == |old(positions)| - 1 && |types| == |old(types)| - 1
      ensures forall j :: 0 <= j < k ==> positions[j] == old(positions)[j] && types[j] == old(types)[j]
      ensures forall j :: k <= j < |types| ==> positions[j] == old(positions)[j + 1] && types[j] == old(types)[j + 1]
    {
      var i := k;
      while i < |types| - 1
        invariant k <= i <= |types| - 1
        invariant |positions| == |old(positions)| && |types| == |old(types)|
        invariant forall j :: 0 <= j < k ==> positions[j] == old(positions)[j] && types[j] == old(types)[j]
        invariant forall j :: k <= j < i ==> positions[j] == old(positions)[j + 1] && types[j] == old(types)[j + 1]
        invariant forall j :: i <= j < |types| ==> positions[j] == old(positions)[j] && types[j] == old(types)[j]
      {
        positions := positions[i := positions[i + 1]];
        types := types[i := types[i + 1]];
        i := i + 1;
      }
      positions := positions[..|positions| - 1];
      types := types[..|types| - 1];
    }

    /** `handle_negative_number(tokens, types, numeric_types)`: run the merge at
        every '-' entry, left to right. */
    method HandleNegativeNumber(numeric: seq<String>) returns (err: Option<Error>)
      requires Valid() && EndOfStatement !in numeric
      modifies this
      ensures NegativeNumbers(old(positions), old(types), numeric, 0).Ok? ==>
        err.None? && (positions, types) == NegativeNumbers(old(positions), old(types), numeric, 0).value
      ensures NegativeNumbers(old(positions), old(types), numeric, 0).Err? ==>
        err == Some(NegativeNumbers(old(positions), old(types), numeric, 0).error)
    {
      var i := 0;
      while i < |types|
        invariant Valid() && i <= |types|
        invariant NegativeNumbers(old(positions), old(types), numeric, 0) == NegativeNumbers(positions, types, numeric, i)
        decreases |types| - i
      {
        if types[i] == "-" {
          err := HandleNegativeCase(i, numeric);
          if err.Some? {
            return;
          }
        }
        i := i + 1;
      }
      return None;
    }
  }

  /** `is_numeric_operator_field(field)`. */
  predicate IsNumericOperatorField(field: String) {
    field in {"=", "==", "===", "!=", "!==", "+", "-", "*", "/", "%", "!", "not"}
  }

  /** A '-' at `ni` is a sign, not a subtraction: a number follows and the
      entry before (Python's `types[-1]` when `ni` is 0) is an operator, a
      comma or an opening bracket. */
  predicate MergeApplies(ts: seq<String>, ni: nat, numeric: seq<String>) {
    ni + 1 < |ts| && ts[ni + 1] in numeric
    && var prev := if ni == 0 then ts[|ts| - 1] else ts[ni - 1];
       IsNumericOperatorField(prev) || prev in {",", "(", "{", "["}
  }

  /** The lists after merging entry `ni` with entry `ni + 1`. */
  function MergeAt(ps: seq<Pos>, ts: seq<String>, ni: nat): (r: (seq<Pos>, seq<String>))
    requires |ps| == |ts| && ni + 1 < |ts| && ps[ni].Range? && ps[ni + 1].Range?
    ensures |r.0| == |ps| - 1 && |r.1| == |ts| - 1
    ensures r.0[ni] == Range(ps[ni].sp, ps[ni + 1].ep) && r.1[ni] == ts[ni + 1]
    ensures forall k :: 0 <= k < ni ==> r.0[k] == ps[k] && r.1[k] == ts[k]
    ensures forall k :: ni < k < |r.1| ==> r.0[k] == ps[k + 1] && r.1[k] == ts[k + 1]
  {
    (ps[..ni] + [Range(ps[ni].sp, ps[ni + 1].ep)] + ps[ni + 2..], ts[..ni] + [ts[ni + 1]] + ts[ni + 2..])
  }

  lemma MergeAtLockstep(ps: seq<Pos>, ts: seq<String>, ni: nat)
    requires Lockstep(ps, ts) && ni + 1 < |ts| && ps[ni].Range? && ps[ni + 1].Range?
    ensures Lockstep(MergeAt(ps, ts, ni).0, MergeAt(ps, ts, ni).1)
  {
  }

  predicate Lockstep(ps: seq<Pos>, ts: seq<String>) {
    |ps| == |ts| && forall i :: 0 <= i < |ps| && ps[i].NoPos? ==> ts[i] == EndOfStatement
  }

  /** The lists `handle_negative_number` leaves, scanning from index `i`. */
  function NegativeNumbers(ps: seq<Pos>, ts: seq<String>, numeric: seq<String>, i: nat): (r: Result<(seq<Pos>, seq<String>)>)
    requires Lockstep(ps, ts) && EndOfStatement !in numeric
    ensures r.Ok? ==> Lockstep(r.value.0, r.value.1) && |r.value.1| <= |ts|
    decreases |ts| - i
  {
    if i >= |ts| then Ok((ps, ts))
    else if ts[i] != "-" then NegativeNumbers(ps, ts, numeric, i + 1)
    else if i + 1 == |ts| then Err(IndexError)
    else if MergeApplies(ts, i, numeric) then
      var m := MergeAt(ps, ts, i);
      NegativeNumbers(m.0, m.1, numeric, i + 1)
    else NegativeNumbers(ps, ts, numeric, i + 1)
  }

  /** A stream with no '-' entry is left as it is. */
  lemma {:induction false} NoMinusUnchanged(ps: seq<Pos>, ts: seq<String>, numeric: seq<String>, i: nat)
    requires Lockstep(ps, ts) && EndOfStatement !in numeric
    requires forall k :: i <= k < |ts| ==> ts[k] != "-"
    ensures NegativeNumbers(ps, ts, numeric, i) == Ok((ps, ts))
    decreases |ts| - i
  {
    if i < |ts| {
      NoMinusUnchanged(ps, ts, numeric, i + 1);
    }
  }
}
