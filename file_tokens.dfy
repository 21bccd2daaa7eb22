/** `_file_tokenizer`: turns the token positions that `get_tokens` collected
    into token text, and inserts a line-feed entry wherever a token starts on
    a row other than the one the previous token ended on.
 */
module FileTokens {
  import opened Wrappers
  import opened Text
  import opened Tree
  import opened Tokens

  /** The type of an inserted line-feed entry. */
  const NewLine: String := "new_line"

  /** The three lists `_file_tokenizer` returns: positions (`[]` for inserted
      entries), token text and token types. */
  datatype Tokenized = Tokenized(pos: seq<Pos>, code: seq<String>, types: seq<String>) {
    predicate Aligned() { |pos| == |code| == |types| }

    function Append(p: Pos, text: String, tp: String): Tokenized {
      Tokenized(pos + [p], code + [text], types + [tp])
    }
  }

  /** `line.strip() == b""` for a line of bytes. */
  predicate IsBlankLine(line: String) {
    forall i :: 0 <= i < |line| ==> IsAsciiSpace(line[i])
  }

  /** The last index where `sub` occurs in `s`. */
  function FindLast(s: String, sub: String): (r: Option<nat>)
    ensures r.Some? ==> At(s, sub, r.value) && forall j :: r.value < j <= |s| ==> !At(s, sub, j)
    ensures r.None? ==> forall j :: 0 <= j <= |s| ==> !At(s, sub, j)
    decreases |s|
  {
    if |sub| > |s| then None
    else if s[|s| - |sub|..] == sub then Some(|s| - |sub|)
    else
      AtDropLast(s, sub);
      FindLast(s[..|s| - 1], sub)
  }

  /** Below the last possible start, `sub` occurs in `s` where it occurs in
      `s` without its last character. */
  lemma AtDropLast(s: String, sub: String)
    requires |sub| <= |s| && s[|s| - |sub|..] != sub
    ensures forall j :: 0 <= j <= |s| ==> (At(s, sub, j) <==> j < |s| - |sub| && At(s[..|s| - 1], sub, j))
  {
    forall j | 0 <= j <= |s|
      ensures At(s, sub, j) <==> j < |s| - |sub| && At(s[..|s| - 1], sub, j)
    {
      if j < |s| - |sub| {
        assert s[..|s| - 1][j..j + |sub|] == s[j..j + |sub|];
      }
    }
  }

  /** `text.split("//")[0]`: the text before the first `//`. */
  function BeforeLineComment(s: String): (r: String)
    ensures r <= s
    ensures forall j :: 0 <= j <= |r| ==> !At(r, "//", j)
  {
    match Find(s, "//")
    case None => s
    case Some(k) =>
      assert forall j :: 0 <= j <= k && At(s[..k], "//", j) ==> At(s, "//", j) by {
        forall j | 0 <= j <= k && At(s[..k], "//", j) ensures At(s, "//", j) {
          assert s[..k][j..j + 2] == s[j..j + 2];
        }
      }
      s[..k]
  }

  /** `re.sub(r"\/\*(.|\n)*\*\/", "", text)`: the greedy match runs from the
      first `/*` to the last `*/` that starts at least two characters later;
      there is at most one such match. */
  function RemoveBlockComment(s: String): String {
    match Find(s, "/*")
    case None => s
    case Some(i) =>
      match FindLast(s, "*/")
      case Some(j) => if j >= i + 2 then s[..i] + s[j + 2..] else s
      case None => s
  }

  /** `s` holds a `/*` with a `*/` starting at least two characters later. */
  predicate HasBlockComment(s: String) {
    exists p, q :: 0 <= p && p + 2 <= q <= |s| && At(s, "/*", p) && At(s, "*/", q)
  }

  /** After the line comment is cut off, removing the block comment leaves no
      block comment behind. */
  lemma BlockCommentGone(s: String)
    requires forall j :: 0 <= j <= |s| ==> !At(s, "//", j)
    ensures !HasBlockComment(RemoveBlockComment(s))
  {
    var r := RemoveBlockComment(s);
    match Find(s, "/*")
    case None =>
    case Some(i) =>
      match FindLast(s, "*/")
      case None =>
      case Some(j) =>
        if j >= i + 2 {
          assert r == s[..i] + s[j + 2..];
          forall p, q | 0 <= p && p + 2 <= q <= |r|
            ensures !(At(r, "/*", p) && At(r, "*/", q))
          {
            NoBlockAfterCut(s, i, j, p, q);
          }
        }
  }

  lemma NoBlockAfterCut(s: String, i: nat, j: nat, p: nat, q: nat)
    requires forall k :: 0 <= k <= |s| ==> !At(s, "//", k)
    requires At(s, "/*", i) && forall k :: 0 <= k < i ==> !At(s, "/*", k)
    requires i + 2 <= j && At(s, "*/", j) && forall k :: j < k <= |s| ==> !At(s, "*/", k)
    requires p + 2 <= q <= |s[..i] + s[j + 2..]|
    ensures !(At(s[..i] + s[j + 2..], "/*", p) && At(s[..i] + s[j + 2..], "*/", q))
  {
    var r := s[..i] + s[j + 2..];
    if p + 2 <= i {
      assert s[p..p + 2] == r[p..p + 2];
      assert !At(s, "/*", p);
    } else if p + 1 == i {
      assert s[i] == '/' by { assert s[i..i + 2][0] == s[i]; }
      assert s[p..p + 2] == [s[p], s[i]];
      assert !At(s, "//", p);
      assert r[p] == s[p] && r[p] != '/';
      assert r[p..p + 2][0] == r[p];
    } else {
      var d := j + 2 - i;
      if q + 2 <= |r| {
        assert s[q + d..q + d + 2] == r[q..q + 2];
        assert !At(s, "*/", q + d);
      }
    }
  }

  /** The text of a `preproc_arg` token, with its comments taken out. */
  function PreprocText(s: String): (r: String)
    ensures !HasBlockComment(r)
  {
    BlockCommentGone(BeforeLineComment(s));
    RemoveBlockComment(BeforeLineComment(s))
  }

  /** The text of a token from `sp` to `ep`, read from the source lines:
      one row is sliced; a token over several rows is the rest of its first
      row, the rows in between and the head of its last row, joined with no
      line feed.  A `preproc_arg` is sliced from its first row only. */
  function TokenText(lines: seq<String>, tp: String, sp: Point, ep: Point): (r: Result<String>)
    ensures r.Err? <==> sp.row >= |lines| || (tp != "preproc_arg" && sp.row != ep.row && ep.row >= |lines|)
    ensures r.Ok? && tp == "preproc_arg" ==> !HasBlockComment(r.value)
    ensures r.Ok? && tp != "preproc_arg" && sp.row == ep.row ==> r.value == Slice(lines[sp.row], sp.col, ep.col)
  {
    if sp.row >= |lines| then Err(IndexError)
    else if tp == "preproc_arg" then Ok(PreprocText(Slice(lines[sp.row], sp.col, ep.col)))
    else if sp.row == ep.row then Ok(Slice(lines[sp.row], sp.col, ep.col))
    else if ep.row >= |lines| then Err(IndexError)
    else
      var middle := if sp.row + 1 <= ep.row then lines[sp.row + 1..ep.row] else [];
      Ok(Slice(lines[sp.row], sp.col, |lines[sp.row]|) + Join([], middle) + Slice(lines[ep.row], 0, ep.col))
  }

  /** The lists built so far and the end row of the previous token. */
  datatype State = State(out: Tokenized, prevLine: nat)

  /** The entries one input entry adds. */
  function StepEntry(lines: seq<String>, p: Pos, tp: String, keep: bool, st: State): (r: Result<State>)
    requires st.out.Aligned()
    ensures r.Ok? ==> r.value.out.Aligned()
  {
    if p.NoPos? then
      if tp == EndOfStatement then Ok(State(st.out.Append(NoPos, "<endofstatement>", EndOfStatement), st.prevLine))
      else Err(TypeError)
    else
      var out := if keep && p.sp.row != st.prevLine then st.out.Append(NoPos, "\n", NewLine) else st.out;
      match TokenText(lines, tp, p.sp, p.ep)
      case Err(e) => Err(e)
      case Ok(text) => Ok(State(out.Append(p, text, tp), p.ep.row))
  }

  /** An end-of-statement marker without a position is copied; any other
      entry without one raises `TypeError`.  A token appends its position,
      text and type, after a line-feed entry when `keep_newline` is set and the
      token starts on a new row; the lists only grow. */
  lemma StepEntryMeaning(lines: seq<String>, p: Pos, tp: String, keep: bool, st: State)
    requires st.out.Aligned()
    ensures var r := StepEntry(lines, p, tp, keep, st);
      (r.Ok? ==> st.out.pos <= r.value.out.pos && st.out.code <= r.value.out.code && st.out.types <= r.value.out.types)
      && (p.NoPos? ==>
            (tp == EndOfStatement <==> r.Ok?)
            && (r.Ok? ==> r.value == State(st.out.Append(NoPos, "<endofstatement>", EndOfStatement), st.prevLine)))
      && (r.Ok? && p.Range? ==>
            var n, out := |st.out.types|, r.value.out;
            var nl := keep && p.sp.row != st.prevLine;
            r.value.prevLine == p.ep.row
            && |out.types| == n + (if nl then 2 else 1)
            && out.pos[|out.pos| - 1] == p && out.types == st.out.types + (if nl then [NewLine] else []) + [tp]
            && (nl ==> out.pos[n] == NoPos && out.code[n] == "\n" && out.types[n] == NewLine))
  {
  }

  /** The state after the first `n` input entries. */
  function Fold(lines: seq<String>, ps: seq<Pos>, ts: seq<String>, keep: bool, n: nat): (r: Result<State>)
    requires n <= |ps|
    ensures r.Ok? ==> r.value.out.Aligned()
  {
    if n == 0 then Ok(State(Tokenized([], [], []), 0))
    else
      match Fold(lines, ps, ts, keep, n - 1)
      case Err(e) => Err(e)
      case Ok(st) => if n - 1 >= |ts| then Err(IndexError) else StepEntry(lines, ps[n - 1], ts[n - 1], keep, st)
  }

  lemma FoldStep(lines: seq<String>, ps: seq<Pos>, ts: seq<String>, keep: bool, i: nat, st: State)
    requires i < |ps| && i < |ts| && Fold(lines, ps, ts, keep, i) == Ok(st)
    ensures Fold(lines, ps, ts, keep, i + 1) == StepEntry(lines, ps[i], ts[i], keep, st)
  {
  }

  /** Once an entry raises, so does the whole run. */
  lemma {:induction false} FoldErr(lines: seq<String>, ps: seq<Pos>, ts: seq<String>, keep: bool, k: nat, m: nat)
    requires k <= m <= |ps| && Fold(lines, ps, ts, keep, k).Err?
    ensures Fold(lines, ps, ts, keep, m) == Fold(lines, ps, ts, keep, k)
    decreases m - k
  {
    if k < m {
      FoldErr(lines, ps, ts, keep, k, m - 1);
    }
  }

  /** `_file_tokenizer(code, positions, types, keep_newline)`. */
  function FileTokens(code: String, ps: seq<Pos>, ts: seq<String>, keep: bool): (r: Result<Tokenized>)
    ensures r.Ok? ==> r.value.Aligned()
  {
    var lines := Split(code, '\n');
    match Fold(lines, ps, ts, keep, |ps|)
    case Err(e) => Err(e)
    case Ok(st) =>
      if IsBlankLine(lines[|lines| - 1]) && keep then
        if st.out.code == [] then Err(IndexError)
        else if st.out.code[|st.out.code| - 1] != "\n" then Ok(st.out.Append(NoPos, "\n", NewLine))
        else Ok(st.out)
      else Ok(st.out)
  }

  /** An entry that raises makes the whole call raise the same error. */
  lemma FileTokensErr(code: String, ps: seq<Pos>, ts: seq<String>, keep: bool, k: nat)
    requires k <= |ps| && Fold(Split(code, '\n'), ps, ts, keep, k).Err?
    ensures FileTokens(code, ps, ts, keep) == Err(Fold(Split(code, '\n'), ps, ts, keep, k).error)
  {
    FoldErr(Split(code, '\n'), ps, ts, keep, k, |ps|);
  }

  method FileTokenizer(code: String, positions: seq<Pos>, types: seq<String>, keepNewline: bool)
    returns (err: Option<Error>, retPos: seq<Pos>, retCode: seq<String>, retType: seq<String>)
    ensures FileTokens(code, positions, types, keepNewline).Ok? ==>
      err.None? && Tokenized(retPos, retCode, retType) == FileTokens(code, positions, types, keepNewline).value
    ensures FileTokens(code, positions, types, keepNewline).Err? ==>
      err == Some(FileTokens(code, positions, types, keepNewline).error)
  {
    var lines := Split(code, '\n');
    var prevLine := 0;
    retPos, retCode, retType := [], [], [];
    var i := 0;
    while i < |positions|
      invariant i <= |positions|
      invariant Fold(lines, positions, types, keepNewline, i) == Ok(State(Tokenized(retPos, retCode, retType), prevLine))
    {
      if i >= |types| {
        FileTokensErr(code, positions, types, keepNewline, i + 1);
        return Some(IndexError), retPos, retCode, retType;
      }
      var token := positions[i];
      FoldStep(lines, positions, types, keepNewline, i, State(Tokenized(retPos, retCode, retType), prevLine));
      if token.NoPos? {
        if types[i] != EndOfStatement {
          FileTokensErr(code, positions, types, keepNewline, i + 1);
          return Some(TypeError), retPos, retCode, retType;
        }
        retPos, retCode, retType := retPos + [NoPos], retCode + ["<endofstatement>"], retType + [EndOfStatement];
        i := i + 1;
        continue;
      }
      var sp, ep := token.sp, token.ep;
      if sp.row != prevLine && keepNewline {
        retPos, retCode, retType := retPos + [NoPos], retCode + ["\n"], retType + [NewLine];
      }
      prevLine := ep.row;
      var text := TokenText(lines, types[i], sp, ep);
      if text.Err? {
        FileTokensErr(code, positions, types, keepNewline, i + 1);
        return Some(text.error), retPos, retCode, retType;
      }
      retPos, retCode, retType := retPos + [token], retCode + [text.value], retType + [types[i]];
      i := i + 1;
    }
    if IsBlankLine(lines[|lines| - 1]) && keepNewline {
      if retCode == [] {
        return Some(IndexError), retPos, retCode, retType;
      }
      if retCode[|retCode| - 1] != "\n" {
        retPos, retCode, retType := retPos + [NoPos], retCode + ["\n"], retType + [NewLine];
      }
    }
    err := None;
  }

  /** The types with the inserted line-feed entries taken out. */
  function DropNewLines(ts: seq<String>): (r: seq<String>)
    ensures |r| <= |ts|
  {
    if ts == [] then []
    else DropNewLines(ts[..|ts| - 1]) + (if ts[|ts| - 1] == NewLine then [] else [ts[|ts| - 1]])
  }

  /** One entry appends its type, after a line-feed entry when
      `keep_newline` asks for one. */
  lemma FoldTypesStep(lines: seq<String>, ps: seq<Pos>, ts: seq<String>, keep: bool, n: nat)
    requires 0 < n <= |ps| && Fold(lines, ps, ts, keep, n).Ok?
    ensures n <= |ts| && Fold(lines, ps, ts, keep, n - 1).Ok?
    ensures var prev, cur := Fold(lines, ps, ts, keep, n - 1).value.out.types, Fold(lines, ps, ts, keep, n).value.out.types;
      cur == prev + [ts[n - 1]] || (keep && cur == prev + [NewLine] + [ts[n - 1]])
  {
    var st := Fold(lines, ps, ts, keep, n - 1).value;
    assert Fold(lines, ps, ts, keep, n) == StepEntry(lines, ps[n - 1], ts[n - 1], keep, st);
    StepEntryMeaning(lines, ps[n - 1], ts[n - 1], keep, st);
  }

  /** Without `keep_newline` the types come out as they went in. */
  lemma {:induction false} FoldWithoutKeep(lines: seq<String>, ps: seq<Pos>, ts: seq<String>, n: nat)
    requires n <= |ps| && Fold(lines, ps, ts, false, n).Ok?
    ensures n <= |ts| && Fold(lines, ps, ts, false, n).value.out.types == ts[..n]
  {
    if n > 0 {
      FoldTypesStep(lines, ps, ts, false, n);
      FoldWithoutKeep(lines, ps, ts, n - 1);
      assert ts[..n] == ts[..n - 1] + [ts[n - 1]];
    }
  }

  /** Appending a type, with or without a line feed before it, appends that
      type once the line feeds are taken out. */
  lemma DropNewLinesStep(prev: seq<String>, cur: seq<String>, t: String, pre: seq<String>)
    requires t != NewLine && DropNewLines(prev) == pre
    requires cur == prev + [t] || cur == prev + [NewLine] + [t]
    ensures DropNewLines(cur) == pre + [t]
  {
    assert cur[..|cur| - 1] == prev || cur[..|cur| - 1] == prev + [NewLine];
    assert (prev + [NewLine])[..|prev|] == prev;
  }

  /** The type lists after each of the first `n` entries: each one appends
      the entry's type, possibly after a line feed. */
  lemma {:induction false} FoldHistory(lines: seq<String>, ps: seq<Pos>, ts: seq<String>, keep: bool, n: nat)
    returns (hist: seq<seq<String>>)
    requires n <= |ps| && Fold(lines, ps, ts, keep, n).Ok?
    ensures |hist| == n + 1 && n <= |ts| && hist[0] == [] && hist[n] == Fold(lines, ps, ts, keep, n).value.out.types
    ensures forall j :: 0 < j <= n ==> hist[j] == hist[j - 1] + [ts[j - 1]] || hist[j] == hist[j - 1] + [NewLine] + [ts[j - 1]]
  {
    if n == 0 {
      hist := [[]];
    } else {
      FoldTypesStep(lines, ps, ts, keep, n);
      var h := FoldHistory(lines, ps, ts, keep, n - 1);
      hist := h + [Fold(lines, ps, ts, keep, n).value.out.types];
      assert hist[..n] == h;
    }
  }

  /** Taking the line feeds out of the last list of such a history gives the
      appended types. */
  lemma {:induction false} DropHistory(hist: seq<seq<String>>, ts: seq<String>, n: nat)
    requires |hist| == n + 1 && n <= |ts| && hist[0] == [] && NewLine !in ts
    requires forall j :: 0 < j <= n ==> hist[j] == hist[j - 1] + [ts[j - 1]] || hist[j] == hist[j - 1] + [NewLine] + [ts[j - 1]]
    ensures DropNewLines(hist[n]) == ts[..n]
  {
    if n > 0 {
      DropHistory(hist[..n], ts, n - 1);
      assert ts[n - 1] in ts;
      DropNewLinesStep(hist[n - 1], hist[n], ts[n - 1], ts[..n - 1]);
      assert ts[..n] == ts[..n - 1] + [ts[n - 1]];
    }
  }

  /** With `keep_newline`, taking the inserted line feeds out of the types
      gives back the input types. */
  lemma FoldKeepsTypes(lines: seq<String>, ps: seq<Pos>, ts: seq<String>, keep: bool, n: nat)
    requires n <= |ps| && Fold(lines, ps, ts, keep, n).Ok? && NewLine !in ts
    ensures n <= |ts| && DropNewLines(Fold(lines, ps, ts, keep, n).value.out.types) == ts[..n]
  {
    var hist := FoldHistory(lines, ps, ts, keep, n);
    DropHistory(hist, ts, n);
  }

  /** `_file_tokenizer` keeps every input type in order and only adds line feeds. */
  lemma FileTokensTypes(code: String, ps: seq<Pos>, ts: seq<String>, keep: bool)
    requires FileTokens(code, ps, ts, keep).Ok? && NewLine !in ts
    ensures |ps| <= |ts| && DropNewLines(FileTokens(code, ps, ts, keep).value.types) == ts[..|ps|]
    ensures !keep ==> FileTokens(code, ps, ts, keep).value.types == ts[..|ps|]
  {
    var lines := Split(code, '\n');
    FoldKeepsTypes(lines, ps, ts, keep, |ps|);
    if !keep {
      FoldWithoutKeep(lines, ps, ts, |ps|);
    }
    var out := Fold(lines, ps, ts, keep, |ps|).value.out;
    var r := FileTokens(code, ps, ts, keep).value;
    if r != out {
      assert r.types[..|r.types| - 1] == out.types;
    }
  }

  /** A blank last source line ends the output with a line feed. */
  lemma FileTokensTrailingNewLine(code: String, ps: seq<Pos>, ts: seq<String>)
    requires FileTokens(code, ps, ts, true).Ok?
    requires IsBlankLine(Split(code, '\n')[|Split(code, '\n')| - 1])
    ensures var r := FileTokens(code, ps, ts, true).value; r.code != [] && r.code[|r.code| - 1] == "\n"
  {
  }
}
