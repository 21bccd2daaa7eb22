/** The auxiliary functions over extracted schemas: re-indentation of method
    text, the lookups of a method record by line or by name, replacement of
    one method record, and the filter-and-deduplicate step for generated
    functions. */
module Helpers {
  import opened Wrappers
  import opened Text

  /** The keys of a schema method record that the helpers read; `className`
      is the "class_name" key that `yield_schem_meths` adds to class methods. */
  datatype SchemMethod = SchemMethod(
    name: String,
    originalString: String,
    byteSpan: (nat, nat),
    startRow: nat,
    endRow: nat,
    className: Option<String>)

  datatype SchemClass = SchemClass(name: String, methods: seq<SchemMethod>)

  datatype SchemFile = SchemFile(classes: seq<SchemClass>, methods: seq<SchemMethod>)

  // ---------------------------------------------------------------------
  // String helpers

  /** `get_leading_whitespace(s)`: the match of `^(\s*)`. */
  function GetLeadingWhitespace(s: String): (r: String)
    ensures r <= s
    ensures forall i :: 0 <= i < |r| ==> IsSpace(r[i])
    ensures |r| < |s| ==> !IsSpace(s[|r|])
  {
    TakeWhile(s, IsSpace)
  }

  /** Every line with its first `n` characters removed (`line[n:]`). */
  function Adjusted(lines: seq<String>, n: nat): (r: seq<String>)
    ensures |r| == |lines| && forall k :: 0 <= k < |r| ==> r[k] == Slice(lines[k], n, |lines[k]|)
  {
    seq(|lines|, k requires 0 <= k < |lines| => Slice(lines[k], n, |lines[k]|))
  }

  /** `left_adjust(s)`: unchanged without leading whitespace; otherwise every
      line loses as many leading characters as the whole text has leading
      whitespace characters (line breaks included), and the lines are joined
      with "\n". */
  function LeftAdjust(s: String): String {
    var n := |GetLeadingWhitespace(s)|;
    if n == 0 then s else Join("\n", Adjusted(SplitLines(s), n))
  }

  /** A text with no leading whitespace is returned as it is. */
  lemma LeftAdjustUnindented(s: String)
    requires s == [] || !IsSpace(s[0])
    ensures LeftAdjust(s) == s
  {
  }

  /** Splitting the result of `left_adjust` at "\n" gives back exactly the
      input's lines, each with the same count of leading characters removed. */
  lemma LeftAdjustLines(s: String)
    requires |GetLeadingWhitespace(s)| > 0
    ensures Split(LeftAdjust(s), '\n') == Adjusted(SplitLines(s), |GetLeadingWhitespace(s)|)
  {
    var n := |GetLeadingWhitespace(s)|;
    var lines := SplitLines(s);
    var parts := Adjusted(lines, n);
    assert parts != [];
    forall k | 0 <= k < |parts|
      ensures '\n' !in parts[k]
    {
      SplitLinesNoBreaks(s, IsLineBreak, k);
      if n < |lines[k]| {
        assert parts[k] == lines[k][n..];
        assert forall j :: 0 <= j < |parts[k]| ==> parts[k][j] == lines[k][n + j];
      }
    }
    SplitJoin(parts, '\n');
  }

  /** Every line with `indent` in front of it. */
  function Prefixed(lines: seq<String>, indent: String): (r: seq<String>)
    ensures |r| == |lines| && forall k :: 0 <= k < |r| ==> r[k] == indent + lines[k]
  {
    seq(|lines|, k requires 0 <= k < |lines| => indent + lines[k])
  }

  /** `reindent(og_function, new_function)`. */
  function Reindent(og: String, newFn: String): String {
    var indent := GetLeadingWhitespace(og);
    if |indent| == 0 then newFn else indent + Join("\n" + indent, SplitLines(newFn))
  }

  lemma {:induction false} JoinPrefixed(lines: seq<String>, indent: String)
    requires lines != []
    ensures indent + Join("\n" + indent, lines) == Join("\n", Prefixed(lines, indent))
  {
    if |lines| > 1 {
      JoinPrefixed(lines[1..], indent);
      assert Prefixed(lines, indent)[1..] == Prefixed(lines[1..], indent);
    }
  }

  /** `reindent` leaves `newFn` unchanged when the original has no leading
      whitespace; otherwise the result is the lines of `newFn`, each prefixed
      with the original's leading whitespace, joined with "\n". */
  lemma ReindentMeaning(og: String, newFn: String)
    ensures |GetLeadingWhitespace(og)| == 0 ==> Reindent(og, newFn) == newFn
    ensures |GetLeadingWhitespace(og)| > 0 && newFn != [] ==>
      Reindent(og, newFn) == Join("\n", Prefixed(SplitLines(newFn), GetLeadingWhitespace(og)))
  {
    if |GetLeadingWhitespace(og)| > 0 && newFn != [] {
      JoinPrefixed(SplitLines(newFn), GetLeadingWhitespace(og));
    }
  }

  // ---------------------------------------------------------------------
  // get_indent_str

  /** The first line of `rest` that holds something other than a comment and
      has leading whitespace: that whitespace. */
  function IndentOfBody(rest: seq<String>): (r: Option<String>)
    ensures r.Some? ==> |r.value| > 0 && forall i :: 0 <= i < |r.value| ==> IsSpace(r.value[i])
  {
    if rest == [] then None
    else
      var line := rest[0];
      if Strip(line) != [] && !StartsWith(Strip(line), "#") && |GetLeadingWhitespace(line)| > 0
      then Some(GetLeadingWhitespace(line))
      else IndentOfBody(rest[1..])
  }

  /** Whether a method's first line opens a block: it ends in ":" and is not a
      comment, or it is a decorator. */
  predicate OpensBlock(firstLine: String) {
    (EndsWith(firstLine, ":") && !StartsWith(Strip(firstLine), "#")) || StartsWith(firstLine, "@")
  }

  /** The loop over the top-level methods of `get_indent_str`; a method with no
      lines raises `IndexError`. */
  function IndentFromMethods(ms: seq<SchemMethod>): (r: Result<Option<String>>)
    ensures r.Ok? && r.value.Some? ==> |r.value.value| > 0 && forall i :: 0 <= i < |r.value.value| ==> IsSpace(r.value.value[i])
    ensures r.Err? ==> exists k :: 0 <= k < |ms| && ms[k].originalString == []
  {
    if ms == [] then Ok(None)
    else
      var lines := SplitLines(ms[0].originalString);
      if lines == [] then Err(IndexError)
      else
        var found := if OpensBlock(RStrip(lines[0])) then IndentOfBody(lines[1..]) else None;
        if found.Some? then Ok(found)
        else
          var r := IndentFromMethods(ms[1..]);
          if r.Err? then
            var k :| 0 <= k < |ms[1..]| && ms[1..][k].originalString == [];
            assert ms[k + 1].originalString == [];
            r
          else r
  }

  /** The first method of the first class that has one. */
  function FirstClassMethod(classes: seq<SchemClass>): (r: Option<SchemMethod>)
    ensures r.None? <==> forall i :: 0 <= i < |classes| ==> classes[i].methods == []
    ensures r.Some? ==> exists i :: 0 <= i < |classes| && classes[i].methods != [] && r.value == classes[i].methods[0]
  {
    if classes == [] then None
    else if classes[0].methods != [] then Some(classes[0].methods[0])
    else
      var r := FirstClassMethod(classes[1..]);
      if r.Some? then
        var i :| 0 <= i < |classes[1..]| && classes[1..][i].methods != [] && r.value == classes[1..][i].methods[0];
        assert classes[i + 1] == classes[1..][i];
        r
      else r
  }

  const DefaultIndent: String := "    "

  /** `get_indent_str(schem_file)`: the leading whitespace of the first class
      method; else the indentation of the first indented body line of a
      block-opening top-level method; else four spaces. */
  function GetIndentStr(f: SchemFile): Result<String> {
    match FirstClassMethod(f.classes)
    case Some(m) => Ok(GetLeadingWhitespace(m.originalString))
    case None =>
      var found :- IndentFromMethods(f.methods);
      Ok(found.GetOr(DefaultIndent))
  }

  /** The unit of indentation is always whitespace, possibly empty only when
      it comes from a class method; it falls back to four spaces when no
      method shows one; it fails only on a top-level method with no text. */
  lemma GetIndentStrMeaning(f: SchemFile)
    ensures GetIndentStr(f).Ok? ==> forall i :: 0 <= i < |GetIndentStr(f).value| ==> IsSpace(GetIndentStr(f).value[i])
    ensures GetIndentStr(f) == Ok([]) ==> exists i :: 0 <= i < |f.classes| && f.classes[i].methods != []
    ensures (forall i :: 0 <= i < |f.classes| ==> f.classes[i].methods == []) && f.methods == [] ==>
      GetIndentStr(f) == Ok(DefaultIndent)
    ensures GetIndentStr(f).Err? ==>
      (forall i :: 0 <= i < |f.classes| ==> f.classes[i].methods == []) &&
      exists k :: 0 <= k < |f.methods| && f.methods[k].originalString == []
  {
  }

  // ---------------------------------------------------------------------
  // Lookups over a schema

  /** `get_class_dot_methname`: `class_name.name`, or `name` when the record
      has no class name. */
  function GetClassDotMethname(m: SchemMethod): String {
    match m.className
    case Some(c) => c + "." + m.name
    case None => m.name
  }

  lemma {:induction false} LastIndexOfCharAt(s: String, c: char, k: nat)
    requires k < |s| && s[k] == c && c !in s[k + 1..]
    ensures LastIndexOfChar(s, c) == Some(k)
    decreases |s|
  {
    if k < |s| - 1 {
      assert s[|s| - 1] in s[k + 1..];
      assert s[..|s| - 1][k + 1..] == s[k + 1..|s| - 1];
      LastIndexOfCharAt(s[..|s| - 1], c, k);
    }
  }

  /** When the method name has no ".", the canonical name splits back at its
      last "." into the class name and the method name. */
  lemma ClassDotMethnameSplits(m: SchemMethod)
    requires '.' !in m.name
    ensures m.className.None? ==> GetClassDotMethname(m) == m.name && LastIndexOfChar(GetClassDotMethname(m), '.').None?
    ensures m.className.Some? ==>
      var s := GetClassDotMethname(m);
      var k := |m.className.value|;
      LastIndexOfChar(s, '.') == Some(k) && s[..k] == m.className.value && s[k + 1..] == m.name
  {
    if m.className.Some? {
      var s := GetClassDotMethname(m);
      var k := |m.className.value|;
      assert s[k + 1..] == m.name;
      LastIndexOfCharAt(s, '.', k);
    }
  }

  /** The methods of class `c`, each tagged with its name. */
  function Tagged(c: SchemClass): (r: seq<SchemMethod>)
    ensures |r| == |c.methods| && forall j :: 0 <= j < |r| ==> r[j] == c.methods[j].(className := Some(c.name))
  {
    seq(|c.methods|, j requires 0 <= j < |c.methods| => c.methods[j].(className := Some(c.name)))
  }

  /** The methods of `classes`, class by class, each tagged with its class's name. */
  function ClassMethods(classes: seq<SchemClass>): seq<SchemMethod>
  {
    if classes == [] then [] else Tagged(classes[0]) + ClassMethods(classes[1..])
  }

  /** `yield_schem_meths(schem_file)`: the top-level methods, then each
      class's methods carrying the class name. */
  function YieldSchemMeths(f: SchemFile): (r: seq<SchemMethod>)
    ensures |f.methods| <= |r| && r[..|f.methods|] == f.methods
  {
    f.methods + ClassMethods(f.classes)
  }

  /** Every method of every class is yielded, tagged with its class name. */
  lemma {:induction false} ClassMethodsComplete(classes: seq<SchemClass>, i: nat, j: nat)
    requires i < |classes| && j < |classes[i].methods|
    ensures classes[i].methods[j].(className := Some(classes[i].name)) in ClassMethods(classes)
  {
    if i == 0 {
      assert Tagged(classes[0])[j] in ClassMethods(classes);
    } else {
      assert classes[1..][i - 1] == classes[i];
      ClassMethodsComplete(classes[1..], i - 1, j);
    }
  }

  /** Every yielded class method is a method of some class, tagged with that
      class's name. */
  lemma {:induction false} ClassMethodsSound(classes: seq<SchemClass>, k: nat)
    requires k < |ClassMethods(classes)|
    ensures exists i, j :: (0 <= i < |classes| && 0 <= j < |classes[i].methods| &&
      ClassMethods(classes)[k] == classes[i].methods[j].(className := Some(classes[i].name)))
  {
    var head := Tagged(classes[0]);
    if k < |head| {
      assert ClassMethods(classes)[k] == classes[0].methods[k].(className := Some(classes[0].name));
    } else {
      ClassMethodsSound(classes[1..], k - |head|);
      assert ClassMethods(classes)[k] == ClassMethods(classes[1..])[k - |head|];
      var i, j :| 0 <= i < |classes[1..]| && 0 <= j < |classes[1..][i].methods| &&
        ClassMethods(classes[1..])[k - |head|] == classes[1..][i].methods[j].(className := Some(classes[1..][i].name));
      assert classes[1..][i] == classes[i + 1];
    }
  }

  /** The index of the first method of `ms` satisfying `p`: the early-return
      loops of the lookups. */
  function FirstWhere(ms: seq<SchemMethod>, p: SchemMethod -> bool): (r: Option<nat>)
    ensures r.Some? ==> r.value < |ms| && p(ms[r.value])
    ensures r.Some? ==> forall j :: 0 <= j < r.value ==> !p(ms[j])
    ensures r.None? ==> forall j :: 0 <= j < |ms| ==> !p(ms[j])
  {
    if ms == [] then None
    else if p(ms[0]) then Some(0)
    else match FirstWhere(ms[1..], p)
      case None => None
      case Some(k) => Some(k + 1)
  }

  lemma {:induction false} FirstWhereAt(ms: seq<SchemMethod>, p: SchemMethod -> bool, i: nat)
    requires i < |ms| && p(ms[i]) && forall j :: 0 <= j < i ==> !p(ms[j])
    ensures FirstWhere(ms, p) == Some(i)
  {
    if i > 0 {
      assert !p(ms[0]);
      FirstWhereAt(ms[1..], p, i - 1);
    }
  }

  lemma {:induction false} FirstWhereNone(ms: seq<SchemMethod>, p: SchemMethod -> bool)
    requires forall j :: 0 <= j < |ms| ==> !p(ms[j])
    ensures FirstWhere(ms, p).None?
  {
    if ms != [] {
      assert !p(ms[0]);
      FirstWhereNone(ms[1..], p);
    }
  }

  predicate CoversLine(m: SchemMethod, line: int) {
    m.startRow <= line <= m.endRow
  }

  /** `get_schem_meth_by_line_num(schem_file, line_num)`. */
  method GetSchemMethByLineNum(f: SchemFile, line: int) returns (r: Option<SchemMethod>)
    ensures var w := FirstWhere(YieldSchemMeths(f), m => CoversLine(m, line));
      r == if w.Some? then Some(YieldSchemMeths(f)[w.value]) else None
  {
    var all := YieldSchemMeths(f);
    var p := m => CoversLine(m, line);
    for i := 0 to |all|
      invariant forall j :: 0 <= j < i ==> !p(all[j])
    {
      if all[i].startRow <= line <= all[i].endRow {
        FirstWhereAt(all, p, i);
        return Some(all[i]);
      }
    }
    FirstWhereNone(all, p);
    return None;
  }

  /** The found method is the first yielded method, top-level methods before
      class methods, whose rows cover the line; there is none only when no
      method covers it. */
  lemma ByLineMeaning(f: SchemFile, line: int)
    ensures var all, w := YieldSchemMeths(f), FirstWhere(YieldSchemMeths(f), m => CoversLine(m, line));
      (w.None? <==> forall k :: 0 <= k < |all| ==> !CoversLine(all[k], line)) &&
      (w.Some? ==> CoversLine(all[w.value], line) && forall k :: 0 <= k < w.value ==> !CoversLine(all[k], line))
  {
    var all := YieldSchemMeths(f);
    var w := FirstWhere(all, m => CoversLine(m, line));
    if w.Some? {
      assert (m => CoversLine(m, line))(all[w.value]);
    }
  }

  /** The test of `get_schem_meth_by_name` as its two branches spell it. */
  predicate NameMatches(m: SchemMethod, name: String, className: Option<String>) {
    m.name == name &&
    ((className.None? && m.className.None?) ||
     (className.Some? && m.className.Some? && className.value == m.className.value))
  }

  /** Its two branches amount to: same name and the same class name, or both
      without one. */
  lemma NameMatchesMeaning(m: SchemMethod, name: String, className: Option<String>)
    ensures NameMatches(m, name, className) <==> m.name == name && m.className == className
  {
  }

  /** `get_schem_meth_by_name(meth_name, schem_file, class_name)`. */
  method GetSchemMethByName(name: String, f: SchemFile, className: Option<String>) returns (r: Option<SchemMethod>)
    ensures var w := FirstWhere(YieldSchemMeths(f), m => NameMatches(m, name, className));
      r == if w.Some? then Some(YieldSchemMeths(f)[w.value]) else None
  {
    var all := YieldSchemMeths(f);
    var p := m => NameMatches(m, name, className);
    for i := 0 to |all|
      invariant forall j :: 0 <= j < i ==> !p(all[j])
    {
      var m := all[i];
      if m.name != name {
        continue;
      }
      if className.None? && m.className.None? {
        FirstWhereAt(all, p, i);
        return Some(m);
      }
      if className.Some? && m.className.Some? {
        if className.value == m.className.value {
          FirstWhereAt(all, p, i);
          return Some(m);
        }
      }
    }
    FirstWhereNone(all, p);
    return None;
  }

  /** Without a class name, and when top-level records carry none, the lookup
      finds the first top-level method of that name. */
  lemma ByNameTopLevel(name: String, f: SchemFile)
    requires forall j :: 0 <= j < |f.methods| ==> f.methods[j].className.None?
    requires FirstWhere(f.methods, m => NameMatches(m, name, None)).Some?
    ensures FirstWhere(YieldSchemMeths(f), m => NameMatches(m, name, None)) ==
            FirstWhere(f.methods, m => NameMatches(m, name, None))
  {
    var p := m => NameMatches(m, name, None);
    var all := YieldSchemMeths(f);
    var k := FirstWhere(f.methods, p).value;
    assert all[..|f.methods|] == f.methods;
    assert all[k] == f.methods[k];
    forall j | 0 <= j < k ensures !p(all[j]) {
      assert all[j] == f.methods[j];
    }
    FirstWhereAt(all, p, k);
  }

  /** With a class name, the lookup never returns a top-level method. */
  lemma ByNameInClass(name: String, f: SchemFile, c: String)
    requires forall j :: 0 <= j < |f.methods| ==> f.methods[j].className.None?
    requires FirstWhere(YieldSchemMeths(f), m => NameMatches(m, name, Some(c))).Some?
    ensures FirstWhere(YieldSchemMeths(f), m => NameMatches(m, name, Some(c))).value >= |f.methods|
  {
    var p := m => NameMatches(m, name, Some(c));
    var all := YieldSchemMeths(f);
    var k := FirstWhere(all, p).value;
    assert p(all[k]);
    assert all[..|f.methods|] == f.methods;
    forall j | 0 <= j < |f.methods| ensures !p(all[j]) {
      assert all[j] == f.methods[j];
    }
  }

  /** `span_select(file_text, schem_method)`: the text its byte span covers. */
  function SpanSelect(fileText: String, m: SchemMethod): (r: String)
    ensures m.byteSpan.0 <= m.byteSpan.1 <= |fileText| ==> r == fileText[m.byteSpan.0..m.byteSpan.1]
    ensures m.byteSpan.1 <= m.byteSpan.0 ==> r == []
  {
    Slice(fileText, m.byteSpan.0, m.byteSpan.1)
  }

  // ---------------------------------------------------------------------
  // replace_schem_method

  /** `schematized_methods_are_equal`: equal `original_string`s. */
  predicate SameMethod(a: SchemMethod, b: SchemMethod) {
    a.originalString == b.originalString
  }

  function FirstSame(ms: seq<SchemMethod>, target: SchemMethod): (r: Option<nat>)
    ensures r.Some? ==> r.value < |ms| && SameMethod(ms[r.value], target)
    ensures r.None? ==> forall j :: 0 <= j < |ms| ==> !SameMethod(ms[j], target)
  {
    var w := FirstWhere(ms, m => SameMethod(m, target));
    if w.Some? then assert (m => SameMethod(m, target))(ms[w.value]); w else w
  }

  /** The first class that has a method equal to `target`. */
  function FirstClassWith(classes: seq<SchemClass>, target: SchemMethod): (r: Option<nat>)
    ensures r.Some? ==> r.value < |classes| && FirstSame(classes[r.value].methods, target).Some?
    ensures r.Some? ==> forall i :: 0 <= i < r.value ==> FirstSame(classes[i].methods, target).None?
    ensures r.None? ==> forall i :: 0 <= i < |classes| ==> FirstSame(classes[i].methods, target).None?
  {
    if classes == [] then None
    else if FirstSame(classes[0].methods, target).Some? then Some(0)
    else match FirstClassWith(classes[1..], target)
      case None => None
      case Some(k) => Some(k + 1)
  }

  lemma {:induction false} FirstClassWithAt(classes: seq<SchemClass>, target: SchemMethod, i: nat)
    requires i < |classes| && FirstSame(classes[i].methods, target).Some?
    requires forall i' :: 0 <= i' < i ==> FirstSame(classes[i'].methods, target).None?
    ensures FirstClassWith(classes, target) == Some(i)
  {
    if i > 0 {
      assert FirstSame(classes[0].methods, target).None?;
      FirstClassWithAt(classes[1..], target, i - 1);
    }
  }

  lemma {:induction false} FirstClassWithNone(classes: seq<SchemClass>, target: SchemMethod)
    requires forall i :: 0 <= i < |classes| ==> FirstSame(classes[i].methods, target).None?
    ensures FirstClassWith(classes, target).None?
  {
    if classes != [] {
      assert FirstSame(classes[0].methods, target).None?;
      FirstClassWithNone(classes[1..], target);
    }
  }

  /** What `replace_schem_method` returns: a copy in which the first class
      method equal to `target` (classes searched first) or else the first
      equal top-level method is `bug`; `AssertionFailed` when none is. */
  function Replaced(f: SchemFile, target: SchemMethod, bug: SchemMethod): Result<SchemFile> {
    match FirstClassWith(f.classes, target)
    case Some(i) =>
      var j := FirstSame(f.classes[i].methods, target).value;
      var c := f.classes[i];
      Ok(f.(classes := f.classes[i := c.(methods := c.methods[j := bug])]))
    case None =>
      match FirstSame(f.methods, target)
      case Some(j) => Ok(f.(methods := f.methods[j := bug]))
      case None => Err(AssertionFailed)
  }

  /** `replace_schem_method(schem_file, schem_method, schem_bug)`: the nested
      search loops with their early returns. */
  method ReplaceSchemMethod(f: SchemFile, target: SchemMethod, bug: SchemMethod) returns (r: Result<SchemFile>)
    ensures r == Replaced(f, target, bug)
  {
    var p := m => SameMethod(m, target);
    for i := 0 to |f.classes|
      invariant forall i' :: 0 <= i' < i ==> FirstSame(f.classes[i'].methods, target).None?
    {
      var cls := f.classes[i];
      for j := 0 to |cls.methods|
        invariant forall j' :: 0 <= j' < j ==> !p(cls.methods[j'])
      {
        if cls.methods[j].originalString == target.originalString {
          FirstWhereAt(cls.methods, p, j);
          FirstClassWithAt(f.classes, target, i);
          var newCls := cls.(methods := cls.methods[j := bug]);
          return Ok(f.(classes := f.classes[i := newCls]));
        }
      }
      FirstWhereNone(cls.methods, p);
    }
    FirstClassWithNone(f.classes, target);
    for j := 0 to |f.methods|
      invariant forall j' :: 0 <= j' < j ==> !p(f.methods[j'])
    {
      if f.methods[j].originalString == target.originalString {
        FirstWhereAt(f.methods, p, j);
        return Ok(f.(methods := f.methods[j := bug]));
      }
    }
    FirstWhereNone(f.methods, p);
    return Err(AssertionFailed);
  }

  /** The replacement fails exactly when no method of the file, in a class or
      at the top level, has the target's text. */
  lemma ReplacedFails(f: SchemFile, target: SchemMethod, bug: SchemMethod)
    ensures Replaced(f, target, bug).Err? <==>
      (forall i, j :: 0 <= i < |f.classes| && 0 <= j < |f.classes[i].methods| ==> !SameMethod(f.classes[i].methods[j], target)) &&
      (forall j :: 0 <= j < |f.methods| ==> !SameMethod(f.methods[j], target))
  {
    if Replaced(f, target, bug).Err? {
      forall i, j | 0 <= i < |f.classes| && 0 <= j < |f.classes[i].methods|
        ensures !SameMethod(f.classes[i].methods[j], target)
      {
        assert FirstSame(f.classes[i].methods, target).None?;
      }
    } else if FirstClassWith(f.classes, target).Some? {
      var i := FirstClassWith(f.classes, target).value;
      var j := FirstSame(f.classes[i].methods, target).value;
      assert SameMethod(f.classes[i].methods[j], target);
    }
  }

  /** A successful replacement changes exactly one method record, the first
      match in search order, and keeps every other record and the shape of
      the file; a class method match leaves the top-level methods alone. */
  lemma ReplacedChangesOne(f: SchemFile, target: SchemMethod, bug: SchemMethod)
    requires Replaced(f, target, bug).Ok?
    ensures var g := Replaced(f, target, bug).value;
      |g.classes| == |f.classes| && |g.methods| == |f.methods| &&
      (forall i :: 0 <= i < |f.classes| ==> g.classes[i].name == f.classes[i].name && |g.classes[i].methods| == |f.classes[i].methods|)
    ensures var g := Replaced(f, target, bug).value;
      FirstClassWith(f.classes, target).Some? ==>
        var i := FirstClassWith(f.classes, target).value;
        var j := FirstSame(f.classes[i].methods, target).value;
        g.methods == f.methods && g.classes[i].methods[j] == bug &&
        (forall i', j' :: 0 <= i' < |f.classes| && 0 <= j' < |f.classes[i'].methods| && (i', j') != (i, j) ==>
           g.classes[i'].methods[j'] == f.classes[i'].methods[j'])
    ensures var g := Replaced(f, target, bug).value;
      FirstClassWith(f.classes, target).None? ==>
        var j := FirstSame(f.methods, target).value;
        g.classes == f.classes && g.methods[j] == bug &&
        (forall j' :: 0 <= j' < |f.methods| && j' != j ==> g.methods[j'] == f.methods[j'])
  {
  }

  // ---------------------------------------------------------------------
  // filter_functions

  /** The generated functions whose left-adjusted text has no syntax error. */
  function Passing(gens: seq<String>, hasSynErr: String -> bool): (r: seq<String>)
    ensures |r| <= |gens|
  {
    if gens == [] then []
    else
      var last := gens[|gens| - 1];
      Passing(gens[..|gens| - 1], hasSynErr) + (if hasSynErr(LeftAdjust(last)) then [] else [last])
  }

  function Norms(xs: seq<String>, normalize: String -> String): (r: set<String>)
  {
    set k | 0 <= k < |xs| :: normalize(xs[k])
  }

  /** First-seen deduplication by normalized form. */
  function Dedupe(xs: seq<String>, normalize: String -> String): (r: seq<String>)
    ensures |r| <= |xs|
  {
    if xs == [] then []
    else
      var prev := Dedupe(xs[..|xs| - 1], normalize);
      if normalize(xs[|xs| - 1]) in Norms(prev, normalize) then prev else prev + [xs[|xs| - 1]]
  }

  /** `filter_functions(list_of_gens)` with its syntax test and normalizer as
      parameters. */
  method FilterFunctions(gens: seq<String>, hasSynErr: String -> bool, normalize: String -> String)
    returns (res: seq<String>)
    ensures res == Dedupe(Passing(gens, hasSynErr), normalize)
  {
    var kept: seq<String> := [];
    for i := 0 to |gens|
      invariant kept == Passing(gens[..i], hasSynErr)
    {
      assert gens[..i + 1][..i] == gens[..i];
      if !hasSynErr(LeftAdjust(gens[i])) {
        kept := kept + [gens[i]];
      }
    }
    assert gens[..|gens|] == gens;
    var normalizedGens: set<String> := {};
    res := [];
    for i := 0 to |kept|
      invariant res == Dedupe(kept[..i], normalize)
      invariant normalizedGens == Norms(res, normalize)
    {
      assert kept[..i + 1][..i] == kept[..i];
      var normalized := normalize(kept[i]);
      if normalized !in normalizedGens {
        NormsSnoc(res, kept[i], normalize);
        res := res + [kept[i]];
        normalizedGens := normalizedGens + {normalized};
      }
    }
    assert kept[..|kept|] == kept;
  }

  lemma NormsSnoc(xs: seq<String>, x: String, normalize: String -> String)
    ensures Norms(xs + [x], normalize) == Norms(xs, normalize) + {normalize(x)}
  {
    var ys := xs + [x];
    forall v | v in Norms(ys, normalize) ensures v in Norms(xs, normalize) + {normalize(x)} {
      var k :| 0 <= k < |ys| && normalize(ys[k]) == v;
      if k < |xs| { assert ys[k] == xs[k]; }
    }
    forall v | v in Norms(xs, normalize) ensures v in Norms(ys, normalize) {
      var k :| 0 <= k < |xs| && normalize(xs[k]) == v;
      assert ys[k] == xs[k];
    }
    assert normalize(ys[|xs|]) == normalize(x);
  }

  /** A kept generation is one of the inputs and passes the syntax test. */
  lemma {:induction false} PassingSound(gens: seq<String>, hasSynErr: String -> bool, k: nat)
    requires k < |Passing(gens, hasSynErr)|
    ensures Passing(gens, hasSynErr)[k] in gens && !hasSynErr(LeftAdjust(Passing(gens, hasSynErr)[k]))
  {
    var init := gens[..|gens| - 1];
    var prev := Passing(init, hasSynErr);
    if k < |prev| {
      PassingSound(init, hasSynErr, k);
      assert Passing(gens, hasSynErr)[k] == prev[k];
    }
  }

  /** Every input that passes the syntax test is kept. */
  lemma {:induction false} PassingComplete(gens: seq<String>, hasSynErr: String -> bool, k: nat)
    requires k < |gens| && !hasSynErr(LeftAdjust(gens[k]))
    ensures gens[k] in Passing(gens, hasSynErr)
  {
    var init := gens[..|gens| - 1];
    if k < |init| {
      assert gens[k] == init[k];
      PassingComplete(init, hasSynErr, k);
    }
  }

  /** The deduplicated list covers exactly the normalized forms of its input. */
  lemma {:induction false} DedupeNorms(xs: seq<String>, normalize: String -> String)
    ensures Norms(Dedupe(xs, normalize), normalize) == Norms(xs, normalize)
  {
    if xs != [] {
      var init := xs[..|xs| - 1];
      var x := xs[|xs| - 1];
      var prev := Dedupe(init, normalize);
      DedupeNorms(init, normalize);
      NormsSnoc(init, x, normalize);
      assert init + [x] == xs;
      if normalize(x) !in Norms(prev, normalize) {
        NormsSnoc(prev, x, normalize);
      }
    }
  }

  /** No two kept generations share a normalized form. */
  lemma {:induction false} DedupeDistinct(xs: seq<String>, normalize: String -> String)
    ensures forall a, b :: 0 <= a < b < |Dedupe(xs, normalize)| ==>
      normalize(Dedupe(xs, normalize)[a]) != normalize(Dedupe(xs, normalize)[b])
  {
    if xs != [] {
      var init := xs[..|xs| - 1];
      var x := xs[|xs| - 1];
      var prev := Dedupe(init, normalize);
      DedupeDistinct(init, normalize);
      var r := Dedupe(xs, normalize);
      if normalize(x) !in Norms(prev, normalize) {
        assert r == prev + [x];
        forall a, b | 0 <= a < b < |r| ensures normalize(r[a]) != normalize(r[b]) {
          if b == |prev| { assert normalize(r[a]) in Norms(prev, normalize); }
          else { assert r[a] == prev[a] && r[b] == prev[b]; }
        }
      }
    }
  }

  /** Each kept generation is the first input with its normalized form. */
  lemma {:induction false} DedupeFirst(xs: seq<String>, normalize: String -> String)
    ensures forall a :: 0 <= a < |Dedupe(xs, normalize)| ==>
      exists p :: 0 <= p < |xs| && xs[p] == Dedupe(xs, normalize)[a] &&
        forall q :: 0 <= q < p ==> normalize(xs[q]) != normalize(xs[p])
  {
    if xs != [] {
      var init := xs[..|xs| - 1];
      var prev := Dedupe(init, normalize);
      DedupeFirst(init, normalize);
      var r := Dedupe(xs, normalize);
      assert r == prev || r == prev + [xs[|xs| - 1]];
      assert init + [xs[|xs| - 1]] == xs;
      forall a | 0 <= a < |r|
        ensures exists p :: 0 <= p < |xs| && xs[p] == r[a] && forall q :: 0 <= q < p ==> normalize(xs[q]) != normalize(xs[p])
      {
        if a < |prev| {
          var p :| 0 <= p < |init| && init[p] == prev[a] && forall q :: 0 <= q < p ==> normalize(init[q]) != normalize(init[p]);
          assert xs[p] == init[p] && r[a] == prev[a];
          forall q | 0 <= q < p ensures normalize(xs[q]) != normalize(xs[p]) { assert xs[q] == init[q]; }
        } else {
          var p := |xs| - 1;
          assert r == prev + [xs[p]] && r[a] == xs[p];
          assert normalize(xs[p]) !in Norms(prev, normalize);
          DedupeNorms(init, normalize);
          forall q | 0 <= q < p ensures normalize(xs[q]) != normalize(xs[p]) {
            assert xs[q] == init[q];
            assert normalize(init[q]) in Norms(init, normalize);
          }
        }
      }
    } else {
      assert Dedupe(xs, normalize) == [];
    }
  }
}
