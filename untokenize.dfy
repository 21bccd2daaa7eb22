/** `norm_untokenize` and `normalize`: each token is rendered under the comment
    policy and the literal placeholders, then laid out again from its position
    (direct concatenation, one space, or a new row with `<INDENT>`/`<DEDENT>`
    markers), and the text is left-stripped and its blank line ends collapsed.
 */
module Untokenize {
  import opened Wrappers
  import opened Text
  import opened Tree
  import opened Tokens
  import opened FileTokens

  /** The `comment` argument: "normalize", "keep", or anything else (which,
      like the default "remove", drops the comment). */
  datatype Comments = NormalizeComments | KeepComments | RemoveComments

  /** The `lits` argument: the frequent literals of each kind that keep their
      value inside the placeholder. */
  datatype LitTable = LitTable(num: seq<String>, str: seq<String>, chr: seq<String>, regex: seq<String>)

  /** Everything `norm_untokenize` reads besides the token lists. */
  datatype Settings = Settings(
    litnames: LitTypes,
    lits: LitTable,
    comments: Comments,
    indent: bool,
    specialTokens: map<String, String>,
    specialChars: seq<(char, String)>)

  // ---------------------------------------------------------------- rendering

  /** What `^[a-z]+` matches at the start of `s` ("" for no match). */
  function LowerPrefix(s: String): (r: String)
    ensures r <= s && (forall i :: 0 <= i < |r| ==> IsLower(r[i])) && (|r| < |s| ==> !IsLower(s[|r|]))
  {
    TakeWhile(s, IsLower)
  }

  /** What `^([a-z]+|@)` matches at the start of `s`. */
  function StringQualifier(s: String): (r: String)
    ensures r <= s
  {
    var q := LowerPrefix(s);
    if q != [] then q else if StartsWith(s, "@") then "@" else []
  }

  /** The quotes found around a literal and the text between them. */
  datatype Quoted = Quoted(open: String, close: String, lit: String)

  /** The loop over the quote options: the first option `s` starts with is the
      opening quote; it is also the closing quote when `s` ends with it. */
  function StripQuotes(s: String, options: seq<String>): (r: Quoted)
    requires forall k :: 0 <= k < |options| ==> options[k] != []
    ensures r.open == [] ==> r == Quoted([], [], s) && forall k :: 0 <= k < |options| ==> !StartsWith(s, options[k])
    ensures r.open != [] ==> r.open in options && StartsWith(s, r.open)
    ensures r.close != [] ==> r.close == r.open && EndsWith(s, r.close)
  {
    if options == [] then Quoted([], [], s)
    else
      var q := options[0];
      if StartsWith(s, q) then
        if EndsWith(s, q) then Quoted(q, q, Slice(s[|q|..], 0, -|q|)) else Quoted(q, [], s[|q|..])
      else StripQuotes(s, options[1..])
  }

  const CharQuotes: seq<String> := ["'", "\""]
  const StringQuotes: seq<String> := ["'''", "\"\"\"", "'", "\"", "`"]

  /** The loop over `special_chars_map`: each character replaced in turn. */
  function ReplaceSpecials(s: String, pairs: seq<(char, String)>): String
    decreases |pairs|
  {
    if pairs == [] then s else ReplaceSpecials(Replace(s, [pairs[0].0], pairs[0].1), pairs[1..])
  }

  /** `<KIND_LIT:v>` for a frequent value, `<KIND_LIT>` otherwise. */
  function Placeholder(kind: String, v: String, frequent: seq<String>): String {
    if v in frequent then "<" + kind + "_LIT:" + v + ">" else "<" + kind + "_LIT>"
  }

  /** A value listed in `special_tokens_map` is replaced by its entry. */
  function Special(st: Settings, v: String, otherwise: String): String {
    if v in st.specialTokens then st.specialTokens[v] else otherwise
  }

  function RenderChar(token: String, st: Settings): String {
    var qualifier := LowerPrefix(token);
    var q := StripQuotes(token[|qualifier|..], CharQuotes);
    var lit := ReplaceSpecials(q.lit, st.specialChars);
    Special(st, lit, qualifier + q.open + Placeholder("CHAR", lit, st.lits.chr) + q.close)
  }

  function RenderString(token: String, st: Settings): String {
    var qualifier := if StartsWith(token, "R\"(") then "R" else StringQualifier(token);
    var raw := if StartsWith(token, "R\"(") then Slice(token, 3, -2)
               else StripQuotes(token[|qualifier|..], StringQuotes).lit;
    var lit := ReplaceSpecials(raw, st.specialChars);
    Special(st, lit, qualifier + Placeholder("STR", lit, st.lits.str))
  }

  /** The text a token of type `tp` contributes: comments by policy, then the
      regex, char, string and number literals in that order, keywords never. */
  function Render(token: String, tp: String, st: Settings): String {
    if Contains(tp, "comment") then
      match st.comments
      case NormalizeComments => "#<COMMENT>"
      case KeepComments => token
      case RemoveComments => if StartsWith(token, " ") then " " else ""
    else if token in Keywords then token
    else if tp in st.litnames.regexTypes then Special(st, token, Placeholder("REGEX", token, st.lits.regex))
    else if tp in st.litnames.charTypes then RenderChar(token, st)
    else if tp in st.litnames.strTypes then RenderString(token, st)
    else if tp in st.litnames.numTypes then Special(st, token, Placeholder("NUM", token, st.lits.num))
    else token
  }

  lemma RenderComment(token: String, tp: String, st: Settings)
    requires Contains(tp, "comment")
    ensures st.comments == NormalizeComments ==> Render(token, tp, st) == "#<COMMENT>"
    ensures st.comments == KeepComments ==> Render(token, tp, st) == token
    ensures st.comments == RemoveComments ==>
      Render(token, tp, st) == (if |token| > 0 && token[0] == ' ' then " " else "")
  {
    if |token| > 0 {
      assert StartsWith(token, " ") <==> token[0] == ' ' by { assert token[..1] == [token[0]]; }
    }
  }

  /** A keyword, or a token of no literal type, is passed through. */
  lemma RenderPlain(token: String, tp: String, st: Settings)
    requires !Contains(tp, "comment")
    requires token in Keywords
      || (tp !in st.litnames.regexTypes && tp !in st.litnames.charTypes
          && tp !in st.litnames.strTypes && tp !in st.litnames.numTypes)
    ensures Render(token, tp, st) == token
  {
  }

  /** A double-quoted string literal `qual"v"` with no special tokens or
      characters renders as its qualifier followed by the placeholder. */
  lemma RenderDoubleQuoted(qual: String, v: String, tp: String, st: Settings)
    requires forall i :: 0 <= i < |qual| ==> IsLower(qual[i])
    requires v == [] || v[0] != '"'
    requires !Contains(tp, "comment") && tp in st.litnames.strTypes
    requires tp !in st.litnames.regexTypes && tp !in st.litnames.charTypes
    requires st.specialTokens == map[] && st.specialChars == []
    requires qual + "\"" + v + "\"" !in Keywords
    ensures Render(qual + "\"" + v + "\"", tp, st) == qual + Placeholder("STR", v, st.lits.str)
  {
    var token := qual + "\"" + v + "\"";
    var body := "\"" + v + "\"";
    assert token == qual + body;
    QualifierOf(qual, body);
    assert token[|qual|..] == body;
    StripDoubleQuotes(v);
  }

  /** The qualifier of `qual` followed by a quoted body is `qual`. */
  lemma QualifierOf(qual: String, body: String)
    requires forall i :: 0 <= i < |qual| ==> IsLower(qual[i])
    requires |body| >= 2 && body[0] == '"'
    ensures !StartsWith(qual + body, "R\"(") && StringQualifier(qual + body) == qual
  {
    var token := qual + body;
    assert |token| >= 3 ==> token[..3][0] == token[0];
    assert token[0] == if qual == [] then '"' else qual[0];
    LowerPrefixOf(qual, body);
    if qual == [] {
      assert token[..1][0] == '"';
    }
  }

  /** `"v"` loses exactly its two double quotes. */
  lemma StripDoubleQuotes(v: String)
    requires v == [] || v[0] != '"'
    ensures StripQuotes("\"" + v + "\"", StringQuotes) == Quoted("\"", "\"", v)
  {
    NoEarlierQuote(v);
    DoubleQuoteOption("\"" + v + "\"", v);
  }

  /** `"v"` starts and ends with `"`, and between them is `v`. */
  lemma DoubleQuoted(body: String, v: String)
    requires body == "\"" + v + "\""
    ensures StartsWith(body, "\"") && EndsWith(body, "\"")
    ensures Slice(body[1..], 0, -1) == v
  {
    assert |body| == |v| + 2 && body[0] == '"' && body[|v| + 1] == '"';
    assert body[..1] == "\"";
    assert body[|v| + 1..] == "\"";
    assert body[1..][0..|v|] == v;
  }

  /** The `"` option applies and strips both quotes. */
  lemma DoubleQuoteOption(body: String, v: String)
    requires body == "\"" + v + "\""
    ensures StripQuotes(body, StringQuotes[1..][1..][1..]) == Quoted("\"", "\"", v)
  {
    DoubleQuoted(body, v);
    var tail := StringQuotes[1..][1..][1..];
    assert tail[0] == "\"";
  }

  /** `"v"` starts with none of the options tried before `"`. */
  lemma NoEarlierQuote(v: String)
    requires v == [] || v[0] != '"'
    ensures var body := "\"" + v + "\"";
      StripQuotes(body, StringQuotes) == StripQuotes(body, StringQuotes[1..][1..][1..])
  {
    var body := "\"" + v + "\"";
    assert body[0] == '"';
    assert !StartsWith(body, "'''") by { assert |body| >= 3 ==> body[..3][0] == body[0]; }
    assert !StartsWith(body, "\"\"\"") by {
      if v != [] { assert |body| >= 3 ==> body[..3][1] == v[0]; }
    }
    assert !StartsWith(body, "'") by { assert body[..1][0] == body[0]; }
    assert StringQuotes[0] == "'''" && StringQuotes[1..][0] == "\"\"\"" && StringQuotes[1..][1..][0] == "'";
    assert StripQuotes(body, StringQuotes[1..]) == StripQuotes(body, StringQuotes[1..][1..]);
  }

  lemma {:induction false} LowerPrefixOf(qual: String, rest: String)
    requires forall i :: 0 <= i < |qual| ==> IsLower(qual[i])
    requires rest != [] && !IsLower(rest[0])
    ensures LowerPrefix(qual + rest) == qual
  {
    if qual != [] {
      assert (qual + rest)[1..] == qual[1..] + rest;
      LowerPrefixOf(qual[1..], rest);
    }
  }

  // ------------------------------------------------------------------ layout

  /** `len(range(start, stop, step))`. */
  function RangeCount(start: int, stop: int, step: nat): nat
    requires step > 0
    decreases stop - start
  {
    if start >= stop then 0 else 1 + RangeCount(start + step, stop, step)
  }

  /** The count is the ceiling of `(stop - start) / step`. */
  lemma {:induction false} RangeCountBounds(start: int, stop: int, step: nat)
    requires step > 0
    ensures start >= stop ==> RangeCount(start, stop, step) == 0
    ensures start < stop ==>
      var n := RangeCount(start, stop, step);
      n > 0 && start + (n - 1) * step < stop <= start + n * step
    decreases stop - start
  {
    if start < stop {
      RangeCountBounds(start + step, stop, step);
      var m := RangeCount(start + step, stop, step);
      assert (m - 1) * step + step == m * step;
    }
  }

  lemma {:induction false} RangeCountUnit(start: int, stop: int)
    ensures RangeCount(start, stop, 1) == if start < stop then stop - start else 0
    decreases stop - start
  {
    if start < stop {
      RangeCountUnit(start + 1, stop);
    }
  }

  /** The loop variables of `norm_untokenize`. */
  datatype Layout = Layout(code: String, prevSp: Option<Point>, prevEp: Point, prevIndent: nat, indentSize: int) {
    /** `indent_size` is unset (-1) or positive, and is set once an indent was seen. */
    predicate Valid() {
      (indentSize == -1 || indentSize > 0) && (prevIndent > 0 ==> indentSize > 0)
    }
  }

  const Start: Layout := Layout([], None, Point(0, 0), 0, -1)

  /** Whether the text ends with a space: `code_string[-1] == " "` in the
      corrected reading, where "" does not. */
  predicate EndsInSpace(code: String) {
    code != [] && code[|code| - 1] == ' '
  }

  /** Lays out `add`, the rendering of a token from `sp` to `ep`.  With
      `asWritten` the same-row gap reads `code_string[-1]`, which raises when
      nothing has been emitted yet. */
  function Place(l: Layout, sp: Point, ep: Point, add: String, indent: bool, asWritten: bool): (r: Result<Layout>)
    requires l.Valid()
    ensures r.Ok? ==> r.value.Valid()
  {
    if l.prevSp.None? || sp == l.prevEp then
      Ok(Layout(l.code + add, Some(sp), ep, l.prevIndent, l.indentSize))
    else if sp.row == l.prevEp.row then
      if asWritten && l.code == [] then Err(IndexError)
      else Ok(Layout(l.code + (if EndsInSpace(l.code) then "" else " ") + add, Some(sp), ep, l.prevIndent, l.indentSize))
    else if indent && add != [] then
      var size := if sp.col != l.prevIndent && l.prevIndent == 0 && l.indentSize == -1 then sp.col - l.prevIndent else l.indentSize;
      var delta := sp.col - l.prevIndent;
      var omit := delta > 0 && delta > 2 * size;
      var marks :=
        if delta > 0 then (if omit then [] else Repeat("<INDENT>", RangeCount(l.prevIndent, sp.col, size)))
        else if delta < 0 then Repeat("<DEDENT>", RangeCount(sp.col, l.prevIndent, size))
        else [];
      Ok(Layout(l.code + "\n" + marks + add, Some(sp), ep, if omit then l.prevIndent else sp.col, size))
    else
      Ok(Layout(l.code + "\n" + Repeat(" ", RangeCount(0, sp.col, 1)) + add, Some(sp), ep, l.prevIndent, l.indentSize))
  }

  /** The text only grows and the previous positions move to the token.  The
      call fails only as written, on the same row, with nothing emitted yet.
      A first token or one that starts where the previous ended is appended
      directly; one further along the same row after a single space unless the
      text already ends in one; one on a new row without `indent` after a line
      feed and one space per column. */
  lemma PlaceMeaning(l: Layout, sp: Point, ep: Point, add: String, indent: bool, asWritten: bool)
    requires l.Valid()
    ensures var r := Place(l, sp, ep, add, indent, asWritten);
      (r.Ok? ==> l.code <= r.value.code && r.value.prevSp == Some(sp) && r.value.prevEp == ep)
      && (r.Err? <==> asWritten && l.prevSp.Some? && sp != l.prevEp && sp.row == l.prevEp.row && l.code == [])
      && ((l.prevSp.None? || sp == l.prevEp) ==> r.Ok? && r.value.code == l.code + add)
      && (r.Ok? && l.prevSp.Some? && sp != l.prevEp && sp.row == l.prevEp.row ==>
            r.value.code == l.code + (if EndsInSpace(l.code) then "" else " ") + add)
      && (l.prevSp.Some? && sp.row != l.prevEp.row && !(indent && add != []) ==>
            r.Ok? && r.value.code == l.code + "\n" + Repeat(" ", RangeCount(0, sp.col, 1)) + add
            && r.value.prevIndent == l.prevIndent && r.value.indentSize == l.indentSize)
  {
  }

  /** On a new row with `indent`, a deeper token gets one `<INDENT>` per started
      indent step (none when it is more than two steps deeper, and then the
      indent level is not moved), a shallower one one `<DEDENT>` per started
      step, and the first indent fixes `indent_size`. */
  lemma PlaceIndent(l: Layout, sp: Point, ep: Point, add: String, asWritten: bool)
    requires l.Valid() && l.prevSp.Some? && sp.row != l.prevEp.row && add != []
    ensures Place(l, sp, ep, add, true, asWritten).Ok?
    ensures var r := Place(l, sp, ep, add, true, asWritten).value;
      var delta := sp.col - l.prevIndent;
      (l.indentSize == -1 && l.prevIndent == 0 && sp.col > 0 ==> r.indentSize == sp.col)
      && (l.indentSize > 0 ==> r.indentSize == l.indentSize)
      && (delta > 2 * r.indentSize ==> r.code == l.code + "\n" + add && r.prevIndent == l.prevIndent)
      && (0 < delta <= 2 * r.indentSize ==>
            exists n: nat :: r.code == l.code + "\n" + Repeat("<INDENT>", n) + add
              && r.prevIndent == sp.col && (n - 1) * r.indentSize < delta <= n * r.indentSize)
      && (delta < 0 ==>
            exists n: nat :: r.code == l.code + "\n" + Repeat("<DEDENT>", n) + add
              && r.prevIndent == sp.col && (n - 1) * r.indentSize < -delta <= n * r.indentSize)
      && (delta == 0 ==> r.code == l.code + "\n" + add && r.prevIndent == sp.col)
  {
    var r := Place(l, sp, ep, add, true, asWritten).value;
    var delta := sp.col - l.prevIndent;
    if 0 < delta <= 2 * r.indentSize {
      RangeCountBounds(l.prevIndent, sp.col, r.indentSize);
      var n := RangeCount(l.prevIndent, sp.col, r.indentSize);
      assert r.code == l.code + "\n" + Repeat("<INDENT>", n) + add;
    } else if delta < 0 {
      RangeCountBounds(sp.col, l.prevIndent, r.indentSize);
      var n := RangeCount(sp.col, l.prevIndent, r.indentSize);
      assert r.code == l.code + "\n" + Repeat("<DEDENT>", n) + add;
    }
  }

  const NewLineTypes: set<String> := {"new_line", "\n"}

  /** One `(pos, token, tp)` triple of the loop. */
  function EntryStep(l: Layout, p: Pos, token: String, tp: String, st: Settings, asWritten: bool): (r: Result<Layout>)
    requires l.Valid()
    ensures r.Ok? ==> r.value.Valid()
  {
    if tp in NewLineTypes then Ok(l.(code := l.code + "\n"))
    else if tp == EndOfStatement then Ok(l.(code := l.code + "<endofstatement>"))
    else if p.NoPos? then Err(IndexError)
    else Place(l, p.sp, p.ep, Render(token, tp, st), st.indent, asWritten)
  }

  /** A line-feed entry appends "\n" and an end-of-statement marker its tag;
      any other entry without a position raises `IndexError`; the text only
      grows, and in the corrected reading nothing else raises. */
  lemma EntryStepMeaning(l: Layout, p: Pos, token: String, tp: String, st: Settings, asWritten: bool)
    requires l.Valid()
    ensures var r := EntryStep(l, p, token, tp, st, asWritten);
      (r.Ok? ==> l.code <= r.value.code)
      && (tp in NewLineTypes ==> r == Ok(l.(code := l.code + "\n")))
      && (tp !in NewLineTypes && tp == EndOfStatement ==> r == Ok(l.(code := l.code + "<endofstatement>")))
      && (tp !in NewLineTypes && tp != EndOfStatement && p.NoPos? ==> r == Err(IndexError))
      && (!asWritten ==> (r.Err? <==> tp !in NewLineTypes && tp != EndOfStatement && p.NoPos?))
  {
    if tp !in NewLineTypes && tp != EndOfStatement && p.Range? {
      PlaceMeaning(l, p.sp, p.ep, Render(token, tp, st), st.indent, asWritten);
    }
  }

  /** Where the as-written step succeeds, the corrected one does the same. */
  lemma EntryStepAgrees(l: Layout, p: Pos, token: String, tp: String, st: Settings)
    requires l.Valid() && EntryStep(l, p, token, tp, st, true).Ok?
    ensures EntryStep(l, p, token, tp, st, false) == EntryStep(l, p, token, tp, st, true)
  {
  }

  function Min3(a: nat, b: nat, c: nat): nat {
    if a <= b && a <= c then a else if b <= c then b else c
  }

  /** The loop variables after the first `n` triples of `zip(poses, tokens, types)`. */
  function Fold(ps: seq<Pos>, toks: seq<String>, tys: seq<String>, st: Settings, asWritten: bool, n: nat): (r: Result<Layout>)
    requires n <= |ps| && n <= |toks| && n <= |tys|
    ensures r.Ok? ==> r.value.Valid()
  {
    if n == 0 then Ok(Start)
    else
      match Fold(ps, toks, tys, st, asWritten, n - 1)
      case Err(e) => Err(e)
      case Ok(l) => EntryStep(l, ps[n - 1], toks[n - 1], tys[n - 1], st, asWritten)
  }

  /** `norm_untokenize(poses, tokens, types, ...)`. */
  function Untokenize(ps: seq<Pos>, toks: seq<String>, tys: seq<String>, st: Settings, asWritten: bool): Result<String> {
    match Fold(ps, toks, tys, st, asWritten, Min3(|ps|, |toks|, |tys|))
    case Err(e) => Err(e)
    case Ok(l) => Ok(CollapseNewlines(LStrip(l.code)))
  }

  lemma FoldStep(ps: seq<Pos>, toks: seq<String>, tys: seq<String>, st: Settings, asWritten: bool, i: nat, l: Layout)
    requires i < |ps| && i < |toks| && i < |tys| && Fold(ps, toks, tys, st, asWritten, i) == Ok(l)
    ensures Fold(ps, toks, tys, st, asWritten, i + 1) == EntryStep(l, ps[i], toks[i], tys[i], st, asWritten)
  {
  }

  lemma {:induction false} FoldErr(ps: seq<Pos>, toks: seq<String>, tys: seq<String>, st: Settings, asWritten: bool, k: nat, m: nat)
    requires k <= m <= Min3(|ps|, |toks|, |tys|) && Fold(ps, toks, tys, st, asWritten, k).Err?
    ensures Fold(ps, toks, tys, st, asWritten, m) == Fold(ps, toks, tys, st, asWritten, k)
    decreases m - k
  {
    if k < m {
      FoldErr(ps, toks, tys, st, asWritten, k, m - 1);
    }
  }

  /** `for _ in range(start, stop, step): code_string += mark`, run on its own. */
  method Repeated(mark: String, start: int, stop: int, step: nat) returns (r: String)
    requires step > 0
    ensures r == Repeat(mark, RangeCount(start, stop, step))
  {
    r := [];
    var x := start;
    while x < stop
      invariant Repeat(mark, RangeCount(start, stop, step)) == r + Repeat(mark, RangeCount(x, stop, step))
      decreases stop - x
    {
      assert Repeat(mark, RangeCount(x, stop, step)) == mark + Repeat(mark, RangeCount(x + step, stop, step));
      r := r + mark;
      x := x + step;
    }
  }

  /** `norm_untokenize(poses, tokens, types, ...)`: the loop, then the
      left strip and the collapse of blank line ends. */
  method NormUntokenize(poses: seq<Pos>, tokens: seq<String>, types: seq<String>, st: Settings)
    returns (err: Option<Error>, out: String)
    ensures Untokenize(poses, tokens, types, st, true).Ok? ==> err.None? && out == Untokenize(poses, tokens, types, st, true).value
    ensures Untokenize(poses, tokens, types, st, true).Err? ==> err == Some(Untokenize(poses, tokens, types, st, true).error)
  {
    var laid := LayOut(poses, tokens, types, st);
    match laid {
      case Err(e) => return Some(e), [];
      case Ok(l) => return None, CollapseNewlines(LStrip(l.code));
    }
  }

  /** The loop of `norm_untokenize` over the triples of `zip(poses, tokens, types)`. */
  method LayOut(poses: seq<Pos>, tokens: seq<String>, types: seq<String>, st: Settings) returns (r: Result<Layout>)
    ensures r == Fold(poses, tokens, types, st, true, Min3(|poses|, |tokens|, |types|))
  {
    var n := Min3(|poses|, |tokens|, |types|);
    var l := Start;
    for i := 0 to n
      invariant Fold(poses, tokens, types, st, true, i) == Ok(l)
    {
      FoldStep(poses, tokens, types, st, true, i, l);
      var next := UntokenizeEntry(l, poses[i], tokens[i], types[i], st);
      match next {
        case Err(e) =>
          FoldErr(poses, tokens, types, st, true, i + 1, n);
          return next;
        case Ok(l') =>
          l := l';
      }
    }
    return Ok(l);
  }

  /** The body of the loop for one triple. */
  method UntokenizeEntry(l: Layout, p: Pos, token: String, tp: String, st: Settings) returns (r: Result<Layout>)
    requires l.Valid()
    ensures r == EntryStep(l, p, token, tp, st, true)
  {
    if tp in NewLineTypes {
      r := Ok(l.(code := l.code + "\n"));
    } else if tp == EndOfStatement {
      r := Ok(l.(code := l.code + "<endofstatement>"));
    } else if p.NoPos? {
      r := Err(IndexError);
    } else {
      r := PlaceToken(l, p.sp, p.ep, Render(token, tp, st), st.indent);
    }
  }

  /** The layout branches of one token; `code_string[-1]` on an empty text
      raises `IndexError`. */
  method PlaceToken(l: Layout, sp: Point, ep: Point, add: String, indent: bool) returns (r: Result<Layout>)
    requires l.Valid()
    ensures r == Place(l, sp, ep, add, indent, true)
  {
    var code := l.code;
    var prevIndent, indentSize := l.prevIndent, l.indentSize;
    if l.prevSp.None? || sp == l.prevEp {
      code := code + add;
    } else if sp.row == l.prevEp.row {
      if code == [] {
        return Err(IndexError);
      }
      var gap: String := [];
      if code[|code| - 1] != ' ' {
        gap := " ";
      }
      code := code + gap + add;
    } else if indent && add != [] {
      var omit := false;
      if sp.col != prevIndent && prevIndent == 0 && indentSize == -1 {
        indentSize := sp.col - prevIndent;
      }
      var marks: String := [];
      if sp.col - prevIndent > 0 {
        if sp.col - prevIndent > 2 * indentSize {
          omit := true;
        } else {
          marks := Repeated("<INDENT>", prevIndent, sp.col, indentSize);
        }
      } else if sp.col - prevIndent < 0 {
        marks := Repeated("<DEDENT>", sp.col, prevIndent, indentSize);
      }
      code := code + "\n" + marks + add;
      if !omit {
        prevIndent := sp.col;
      }
    } else {
      var spaces := Repeated(" ", 0, sp.col, 1);
      code := code + "\n" + spaces + add;
    }
    r := Ok(Layout(code, Some(sp), ep, prevIndent, indentSize));
  }

  /** With the corrected same-row check, only a positioned token without a
      position can make the loop fail. */
  lemma {:induction false} CorrectedNeverFails(ps: seq<Pos>, toks: seq<String>, tys: seq<String>, st: Settings, n: nat)
    requires n <= |ps| && n <= |toks| && n <= |tys|
    requires forall k :: 0 <= k < n && tys[k] !in NewLineTypes && tys[k] != EndOfStatement ==> ps[k].Range?
    ensures Fold(ps, toks, tys, st, false, n).Ok?
  {
    if n > 0 {
      CorrectedNeverFails(ps, toks, tys, st, n - 1);
      EntryStepMeaning(Fold(ps, toks, tys, st, false, n - 1).value, ps[n - 1], toks[n - 1], tys[n - 1], st, false);
    }
  }

  /** Not counting `code_string[-1]` on an empty text, the as-written loop and
      the corrected one agree step for step. */
  lemma {:induction false} AsWrittenAgrees(ps: seq<Pos>, toks: seq<String>, tys: seq<String>, st: Settings, n: nat)
    requires n <= |ps| && n <= |toks| && n <= |tys| && Fold(ps, toks, tys, st, true, n).Ok?
    ensures Fold(ps, toks, tys, st, false, n) == Fold(ps, toks, tys, st, true, n)
  {
    if n > 0 {
      AsWrittenAgrees(ps, toks, tys, st, n - 1);
      EntryStepAgrees(Fold(ps, toks, tys, st, true, n - 1).value, ps[n - 1], toks[n - 1], tys[n - 1], st);
    }
  }

  /** `/*a*/ x` in C with comments removed: the comment leaves the text empty
      and the next token sits one column after it on the same row. */
  const GapSettings: Settings := Settings(LangLits(C).value, LitTable([], [], [], []), RemoveComments, true, map[], [])
  const GapPoses: seq<Pos> := [Range(Point(0, 0), Point(0, 5)), Range(Point(0, 6), Point(0, 7))]
  const GapTokens: seq<String> := ["/*a*/", "x"]
  const GapTypes: seq<String> := ["comment", "name"]

  lemma GapFirstToken(asWritten: bool)
    ensures Fold(GapPoses, GapTokens, GapTypes, GapSettings, asWritten, 1) == Ok(Layout([], Some(Point(0, 0)), Point(0, 5), 0, -1))
  {
    assert At("comment", "comment", 0);
    assert Render("/*a*/", "comment", GapSettings) == "" by { assert "/*a*/"[..1][0] == '/'; }
    assert Start.prevSp.None? && Start.code + "" == [];
    assert Place(Start, Point(0, 0), Point(0, 5), "", true, asWritten) == Ok(Layout([], Some(Point(0, 0)), Point(0, 5), 0, -1));
  }

  /** As written, `code_string[-1]` on the empty text raises. */
  lemma GapAsWritten()
    ensures Untokenize(GapPoses, GapTokens, GapTypes, GapSettings, true) == Err(IndexError)
  {
    GapFirstToken(true);
  }

  /** With the corrected check the same input yields "x". */
  lemma GapCorrected()
    ensures Untokenize(GapPoses, GapTokens, GapTypes, GapSettings, false) == Ok("x")
  {
    GapFirstToken(false);
    assert !Contains("name", "comment");
    assert Render("x", "name", GapSettings) == "x";
    var l1 := Layout([], Some(Point(0, 0)), Point(0, 5), 0, -1);
    assert [] + " " + "x" == " x";
    assert Place(l1, Point(0, 6), Point(0, 7), "x", true, false) == Ok(Layout(" x", Some(Point(0, 6)), Point(0, 7), 0, -1));
    assert LStrip(" x") == "x" by { assert IsSpace(' ') && !IsSpace('x'); assert " x"[1..] == "x"; }
    assert CollapseNewlines("x") == "x" by { assert "x"[1..] == []; }
  }

  // --------------------------------------------------------------- normalize

  function HexDigit(d: nat): char
    requires d < 16
  {
    if d < 10 then ('0' as int + d) as char else ('A' as int + d - 10) as char
  }

  function DigitValue(c: char): nat {
    if '0' <= c <= '9' then c as nat - '0' as nat
    else if 'A' <= c <= 'F' then c as nat - 'A' as nat + 10
    else 0
  }

  /** `format(n, 'X')`: upper-case hexadecimal, no leading zeros. */
  function Hex(n: nat): (r: String)
    ensures |r| >= 1
    decreases n
  {
    if n < 16 then [HexDigit(n)] else Hex(n / 16) + [HexDigit(n % 16)]
  }

  function ParseHex(s: String): nat {
    if s == [] then 0 else ParseHex(s[..|s| - 1]) * 16 + DigitValue(s[|s| - 1])
  }

  lemma {:induction false} HexRoundTrip(n: nat)
    ensures ParseHex(Hex(n)) == n
    decreases n
  {
    if n >= 16 {
      HexRoundTrip(n / 16);
      var h := Hex(n);
      assert h[..|h| - 1] == Hex(n / 16);
    }
  }

  /** `s.zfill(w)` for a string of digits. */
  function ZFill(s: String, w: nat): (r: String)
    ensures |r| == if |s| >= w then |s| else w
    ensures ParseHex(r) == ParseHex(s)
  {
    if |s| >= w then s else ParseHexZeros(w - |s|, s); Repeat("0", w - |s|) + s
  }

  lemma {:induction false} ZerosValue(k: nat)
    ensures ParseHex(Repeat("0", k)) == 0
  {
    if k > 0 {
      RepeatSnoc("0", k - 1);
      ZerosValue(k - 1);
      assert Repeat("0", k)[..|Repeat("0", k)| - 1] == Repeat("0", k - 1);
    }
  }

  /** Leading zeros do not change the value. */
  lemma {:induction false} ParseHexZeros(k: nat, s: String)
    ensures ParseHex(Repeat("0", k) + s) == ParseHex(s)
    decreases |s|
  {
    if s == [] {
      assert Repeat("0", k) + s == Repeat("0", k);
      ZerosValue(k);
    } else {
      ParseHexZeros(k, s[..|s| - 1]);
      assert (Repeat("0", k) + s)[..|Repeat("0", k) + s| - 1] == Repeat("0", k) + s[..|s| - 1];
    }
  }

  lemma {:induction false} RepeatSnoc(s: String, n: nat)
    ensures Repeat(s, n + 1) == Repeat(s, n) + s
  {
    if n > 0 {
      RepeatSnoc(s, n - 1);
    }
  }

  /** The `U+XXXX` code of one character. */
  function Escape(c: char): (r: String)
    ensures |r| >= 6 && r[..2] == "U+" && ParseHex(r[2..]) == c as nat
  {
    var h := Hex(c as nat);
    HexRoundTrip(c as nat);
    var z := ZFill(h, 4);
    assert ("U+" + z)[2..] == z;
    "U+" + z
  }

  /** The distinct characters of `cs` in order of first appearance: the keys a
      dict comprehension over `cs` ends up with. */
  function FirstOccurrences(cs: seq<char>): (r: seq<char>)
    ensures |r| <= |cs|
  {
    if cs == [] then []
    else
      var prev := FirstOccurrences(cs[..|cs| - 1]);
      if cs[|cs| - 1] in prev then prev else prev + [cs[|cs| - 1]]
  }

  /** `{c: f"U+{format(ord(c), 'X').zfill(4)}" for c in special_chars}`, as its
      entries in insertion order. */
  function SpecialCharsMap(cs: seq<char>): (r: seq<(char, String)>)
    ensures var keys := FirstOccurrences(cs);
      |r| == |keys| && forall k :: 0 <= k < |r| ==> r[k] == (keys[k], Escape(keys[k]))
  {
    var keys := FirstOccurrences(cs);
    seq(|keys|, k requires 0 <= k < |keys| => (keys[k], Escape(keys[k])))
  }

  /** The keys are exactly the characters of `cs`. */
  lemma {:induction false} FirstOccurrencesSame(cs: seq<char>)
    ensures forall c :: c in FirstOccurrences(cs) <==> c in cs
  {
    if cs != [] {
      FirstOccurrencesSame(cs[..|cs| - 1]);
      assert forall d :: d in cs <==> d in cs[..|cs| - 1] || d == cs[|cs| - 1];
    }
  }

  predicate Distinct(r: seq<char>) {
    forall k, m :: 0 <= k < m < |r| ==> r[k] != r[m]
  }

  /** No character occurs twice among the keys. */
  lemma {:induction false} FirstOccurrencesDistinct(cs: seq<char>)
    ensures Distinct(FirstOccurrences(cs))
  {
    if cs != [] {
      var prev := FirstOccurrences(cs[..|cs| - 1]);
      var c := cs[|cs| - 1];
      FirstOccurrencesDistinct(cs[..|cs| - 1]);
      if c !in prev {
        var r := prev + [c];
        assert FirstOccurrences(cs) == r;
        forall k, m | 0 <= k < m < |r| ensures r[k] != r[m] {
          assert r[k] == prev[k] && prev[k] in prev;
          if m < |prev| {
            assert r[m] == prev[m];
          } else {
            assert r[m] == c;
          }
        }
      } else {
        assert FirstOccurrences(cs) == prev;
      }
    }
  }

  /** `lits[name]` once `normalize` has filled the missing names with []. */
  function LitsFrom(lits: map<String, seq<String>>): LitTable {
    LitTable(
      if "num" in lits then lits["num"] else [],
      if "str" in lits then lits["str"] else [],
      if "char" in lits then lits["char"] else [],
      if "regex" in lits then lits["regex"] else [])
  }

  /** No language's number types include the marker type. */
  lemma NumTypesHaveNoMarker(lang: Language)
    requires LangLits(lang).Some?
    ensures EndOfStatement !in LangLits(lang).value.numTypes
  {
  }

  /** Every marker `get_tokens` emits is typed, so its two lists pair up. */
  lemma EntriesLockstep(es: seq<Entry>)
    requires MarkersTyped(es)
    ensures Lockstep(Positions(es), Kinds(es))
  {
  }

  /** The settings `normalize` hands to `norm_untokenize`. */
  function SettingsFor(lt: LitTypes, lits: map<String, seq<String>>, comments: Comments, indent: bool,
                       specialTokens: map<String, String>, specialChars: seq<char>): Settings {
    Settings(lt, LitsFrom(lits), comments, indent, specialTokens, SpecialCharsMap(specialChars))
  }

  /** The steps of `normalize` after `get_tokens`: "" when any of them raises. */
  function NormalizeEntries(code: String, ps: seq<Pos>, ts: seq<String>, st: Settings): String
    requires Lockstep(ps, ts) && EndOfStatement !in st.litnames.numTypes
  {
    match NegativeNumbers(ps, ts, st.litnames.numTypes, 0)
    case Err(_) => []
    case Ok(merged) =>
      match FileTokens.FileTokens(code, merged.0, merged.1, true)
      case Err(_) => []
      case Ok(t) => Untokenize(t.pos, t.code, t.types, st, true).GetOr([])
  }

  /** `normalize(code, lang, ...)` for the parse tree `root` of `code`: "" when
      any step raises. */
  function NormalizeSpec(code: String, root: Node, lang: Language, lits: map<String, seq<String>>, comments: Comments,
                         indent: bool, preserve: bool, specialTokens: map<String, String>, specialChars: seq<char>): String
  {
    match NodeTokens(root, preserve, Some(lang))
    case Err(_) => []
    case Ok(es) =>
      match LangLits(lang)
      case None => []
      case Some(lt) =>
        NodeTokensShape(root, preserve, Some(lang));
        NumTypesHaveNoMarker(lang);
        EntriesLockstep(es);
        NormalizeEntries(code, Positions(es), Kinds(es), SettingsFor(lt, lits, comments, indent, specialTokens, specialChars))
  }

  method Normalize(code: String, root: Node, lang: Language, lits: map<String, seq<String>>, comments: Comments,
                   indent: bool, preserve: bool, specialTokens: map<String, String>, specialChars: seq<char>)
    returns (normCode: String)
    ensures normCode == NormalizeSpec(code, root, lang, lits, comments, indent, preserve, specialTokens, specialChars)
  {
    var stream := new TokenStream();
    var err := stream.GetTokens(root, preserve, Some(lang));
    if err.Some? {
      return [];
    }
    var table := LangLits(lang);
    if table.None? {
      return [];
    }
    ghost var es := NodeTokens(root, preserve, Some(lang)).value;
    assert stream.positions == Positions(es) && stream.types == Kinds(es) by {
      assert [] + Positions(es) == Positions(es) && [] + Kinds(es) == Kinds(es);
    }
    var st := SettingsFor(table.value, lits, comments, indent, specialTokens, specialChars);
    NormalizeSpecUnfold(code, root, lang, lits, comments, indent, preserve, specialTokens, specialChars);
    normCode := NormalizeStream(code, stream, st);
  }

  lemma NormalizeSpecUnfold(code: String, root: Node, lang: Language, lits: map<String, seq<String>>, comments: Comments,
                            indent: bool, preserve: bool, specialTokens: map<String, String>, specialChars: seq<char>)
    requires NodeTokens(root, preserve, Some(lang)).Ok? && LangLits(lang).Some?
    ensures var es := NodeTokens(root, preserve, Some(lang)).value;
      var st := SettingsFor(LangLits(lang).value, lits, comments, indent, specialTokens, specialChars);
      Lockstep(Positions(es), Kinds(es)) && EndOfStatement !in st.litnames.numTypes
      && NormalizeSpec(code, root, lang, lits, comments, indent, preserve, specialTokens, specialChars)
         == NormalizeEntries(code, Positions(es), Kinds(es), st)
  {
    NodeTokensShape(root, preserve, Some(lang));
    NumTypesHaveNoMarker(lang);
    EntriesLockstep(NodeTokens(root, preserve, Some(lang)).value);
  }

  /** `handle_negative_number`, `_file_tokenizer` and `norm_untokenize` on the
      collected lists, any raised error turned into "". */
  method NormalizeStream(code: String, stream: TokenStream, st: Settings) returns (normCode: String)
    requires stream.Valid() && EndOfStatement !in st.litnames.numTypes
    modifies stream
    ensures normCode == NormalizeEntries(code, old(stream.positions), old(stream.types), st)
  {
    var err := stream.HandleNegativeNumber(st.litnames.numTypes);
    if err.Some? {
      return [];
    }
    var e2, poss, tokens, types := FileTokenizer(code, stream.positions, stream.types, true);
    if e2.Some? {
      return [];
    }
    var e3, out := NormUntokenize(poss, tokens, types, st);
    if e3.Some? {
      return [];
    }
    return out;
  }

  /** The normalized text never starts with whitespace and no line of it ends
      in whitespace. */
  lemma NormalizeClean(code: String, root: Node, lang: Language, lits: map<String, seq<String>>, comments: Comments,
                       indent: bool, preserve: bool, specialTokens: map<String, String>, specialChars: seq<char>)
    ensures var r := NormalizeSpec(code, root, lang, lits, comments, indent, preserve, specialTokens, specialChars);
      NoSpaceBeforeNewline(r) && (r != [] ==> !IsSpace(r[0]))
  {
    var r := NormalizeSpec(code, root, lang, lits, comments, indent, preserve, specialTokens, specialChars);
    if r != [] {
      var es := NodeTokens(root, preserve, Some(lang)).value;
      var lt := LangLits(lang).value;
      NodeTokensShape(root, preserve, Some(lang));
      NumTypesHaveNoMarker(lang);
      EntriesLockstep(es);
      var st := SettingsFor(lt, lits, comments, indent, specialTokens, specialChars);
      var merged := NegativeNumbers(Positions(es), Kinds(es), lt.numTypes, 0).value;
      var t := FileTokens.FileTokens(code, merged.0, merged.1, true).value;
      var l := Fold(t.pos, t.code, t.types, st, true, Min3(|t.pos|, |t.code|, |t.types|)).value;
      CollapseNewlinesClean(LStrip(l.code));
    }
  }

  /** A language without a literal table normalizes to "". */
  lemma NormalizeUnknownLanguage(code: String, root: Node, lang: Language, lits: map<String, seq<String>>, comments: Comments,
                                 indent: bool, preserve: bool, specialTokens: map<String, String>, specialChars: seq<char>)
    requires LangLits(lang).None?
    ensures NormalizeSpec(code, root, lang, lits, comments, indent, preserve, specialTokens, specialChars) == []
  {
  }
}
