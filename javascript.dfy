/** The minified-code check for JavaScript: the share of indented lines, the
    share of operator tokens followed by whitespace, and the verdict that
    compares both with their cut-offs.

    `is_minified` computes the shares as floats; here each share is kept as its
    numerator and denominator, and a comparison `a / b < p / q` is decided by
    `a * q < p * b`.
 */
module JavascriptTools {
  import opened Text
  import opened Tree
  import opened Leaves
  import SourceUtils

  /** The operator and punctuation types whose neighbourhood is measured. */
  const IncludeTypes: set<String> := {
    "+", "-", "*", "**", "/", "%", "=", "+=", "-=", "*=", "/=", "%=", "**=",
    "==", "===", "!=", "!==", ">", "<", ">=", "<=", "?", "&&", "||", "&",
    "|", "~", "^", "<<", ">>", ">>>", ",", ";"
  }

  /** A non-negative rational; a share or a cut-off. */
  datatype Fraction = Fraction(num: nat, den: nat)

  /** `a < b` for fractions with non-zero denominators. */
  predicate Less(a: Fraction, b: Fraction)
    requires a.den > 0 && b.den > 0
  {
    a.num * b.den < b.num * a.den
  }

  lemma LessMeansRealLess(a: Fraction, b: Fraction)
    requires a.den > 0 && b.den > 0
    ensures Less(a, b) <==> (a.num as real) / (a.den as real) < (b.num as real) / (b.den as real)
  {
    var x, y, p, q := a.num as real, a.den as real, b.num as real, b.den as real;
    assert x / y == (x * q) / (y * q);
    assert p / q == (p * y) / (y * q);
    assert (x * q) / (y * q) < (p * y) / (y * q) <==> x * q < p * y;
  }

  /** The cut-offs `is_minified` uses by default: 0.05 and 0.1. */
  const DefaultIndentFraction := Fraction(1, 20)
  const DefaultOperatorWsFraction := Fraction(1, 10)

  // ------------------------------------------------------------- indented lines

  /** A line is indented when it is non-empty and starts with whitespace. */
  predicate Indented(line: String) {
    line != [] && IsAsciiSpace(line[0])
  }

  function IndentedCount(lines: seq<String>): (r: nat)
    ensures r <= |lines|
  {
    if lines == [] then 0
    else IndentedCount(lines[..|lines| - 1]) + (if Indented(lines[|lines| - 1]) then 1 else 0)
  }

  /** No line counts exactly when no line is indented ... */
  lemma {:induction false} IndentedCountZero(lines: seq<String>)
    ensures IndentedCount(lines) == 0 <==> forall k :: 0 <= k < |lines| ==> !Indented(lines[k])
  {
    if lines != [] {
      var n := |lines| - 1;
      IndentedCountZero(lines[..n]);
      assert forall k :: 0 <= k < n ==> lines[..n][k] == lines[k];
    }
  }

  /** ... and every line counts exactly when every line is indented. */
  lemma {:induction false} IndentedCountAll(lines: seq<String>)
    ensures IndentedCount(lines) == |lines| <==> forall k :: 0 <= k < |lines| ==> Indented(lines[k])
  {
    if lines != [] {
      var n := |lines| - 1;
      IndentedCountAll(lines[..n]);
      assert forall k :: 0 <= k < n ==> lines[..n][k] == lines[k];
    }
  }

  /** `fraction_of_indented_lines(file_bytes)`: the share of the lines of
      `bytes.splitlines()` that are indented, 0 when there are no lines. */
  function IndentedFraction(fileBytes: String): (r: Fraction)
    ensures r.den > 0 && r.num <= r.den
  {
    var lines := ByteSplitLines(fileBytes);
    if |lines| > 0 then Fraction(IndentedCount(lines), |lines|) else Fraction(0, 1)
  }

  method FractionOfIndentedLines(fileBytes: String) returns (r: Fraction)
    ensures r == IndentedFraction(fileBytes)
  {
    var lines := ByteSplitLines(fileBytes);
    var numLines, numIndented := 0, 0;
    for i := 0 to |lines|
      invariant numLines == i && numIndented == IndentedCount(lines[..i])
    {
      assert lines[..i + 1][..i] == lines[..i];
      numLines := numLines + 1;
      if lines[i] != [] && IsAsciiSpace(lines[i][0]) {
        numIndented := numIndented + 1;
      }
    }
    assert lines[..|lines|] == lines;
    if numLines > 0 {
      return Fraction(numIndented, numLines);
    }
    return Fraction(0, 1);
  }

  // ------------------------------------------------------------- operator whitespace

  /** The byte right after the node is in bounds and whitespace. */
  predicate FollowedBySpace(src: String, n: Node) {
    n.endByte < |src| && IsAsciiSpace(src[n.endByte])
  }

  /** The one-byte test agrees with `tokenize`: a node passes it exactly
      when `tokenize` would attach whitespace to it. */
  lemma FollowedBySpaceTokenize(src: String, n: Node)
    ensures FollowedBySpace(src, n) <==> SourceUtils.WhitespaceEnd(src, n.endByte) > n.endByte
  {
  }

  function IncludedCount(ts: seq<Node>): (r: nat)
    ensures r <= |ts|
  {
    if ts == [] then 0
    else IncludedCount(ts[..|ts| - 1]) + (if ts[|ts| - 1].kind in IncludeTypes then 1 else 0)
  }

  function SpacedCount(src: String, ts: seq<Node>): nat {
    if ts == [] then 0
    else
      var n := ts[|ts| - 1];
      SpacedCount(src, ts[..|ts| - 1]) + (if n.kind in IncludeTypes && FollowedBySpace(src, n) then 1 else 0)
  }

  /** The spaced operators are among the operators. */
  lemma {:induction false} SpacedAtMostIncluded(src: String, ts: seq<Node>)
    ensures SpacedCount(src, ts) <= IncludedCount(ts)
  {
    if ts != [] {
      SpacedAtMostIncluded(src, ts[..|ts| - 1]);
    }
  }

  predicate NoOperators(ts: seq<Node>) {
    forall k :: 0 <= k < |ts| ==> ts[k].kind !in IncludeTypes
  }

  predicate OperatorsSpaced(src: String, ts: seq<Node>) {
    forall k :: 0 <= k < |ts| && ts[k].kind in IncludeTypes ==> FollowedBySpace(src, ts[k])
  }

  /** Every operator is spaced exactly when the two counts agree. */
  lemma {:induction false} SpacedAllIncluded(src: String, ts: seq<Node>)
    ensures SpacedCount(src, ts) == IncludedCount(ts) <==> OperatorsSpaced(src, ts)
  {
    if ts != [] {
      var n := |ts| - 1;
      SpacedAllIncluded(src, ts[..n]);
      SpacedAtMostIncluded(src, ts[..n]);
      assert forall k :: 0 <= k < n ==> ts[..n][k] == ts[k];
    }
  }

  /** `fraction_of_tokens_with_whitespace(parser)`: among the token nodes,
      the share of operators followed by whitespace, over at least 1. */
  function SpacedFraction(src: String, root: Node): (r: Fraction)
    ensures r.den > 0 && r.num <= r.den
  {
    var ts := ForestTokens(root.children, CompoundLitsAsWritten);
    SpacedAtMostIncluded(src, ts);
    Fraction(SpacedCount(src, ts), if IncludedCount(ts) > 0 then IncludedCount(ts) else 1)
  }

  lemma CountsSnoc(src: String, done: seq<Node>, n: Node)
    ensures IncludedCount(done + [n]) == IncludedCount(done) + (if n.kind in IncludeTypes then 1 else 0)
    ensures SpacedCount(src, done + [n])
      == SpacedCount(src, done) + (if n.kind in IncludeTypes && FollowedBySpace(src, n) then 1 else 0)
  {
    assert (done + [n])[..|done|] == done;
  }

  method FractionOfTokensWithWhitespace(src: String, root: Node) returns (r: Fraction)
    ensures r == SpacedFraction(src, root)
  {
    var nBytes := |src|;
    var nodes := root.children;
    var tokensWithWhitespace, includedTokens := 0, 0;
    ghost var done: seq<Node> := [];
    while nodes != []
      invariant Walked(root, done, nodes, CompoundLitsAsWritten)
      invariant tokensWithWhitespace == SpacedCount(src, done) && includedTokens == IncludedCount(done)
      decreases ForestSize(nodes)
    {
      var nxt := nodes[0];
      if IsToken(nxt, CompoundLitsAsWritten) {
        WalkEmit(root, done, nodes, CompoundLitsAsWritten);
        CountsSnoc(src, done, nxt);
        if nxt.kind in IncludeTypes {
          includedTokens := includedTokens + 1;
          var fin := nxt.endByte;
          if fin < nBytes && IsAsciiSpace(src[fin]) {
            tokensWithWhitespace := tokensWithWhitespace + 1;
          }
        }
        done := done + [nxt];
        nodes := nodes[1..];
      } else {
        WalkDescend(root, done, nodes, CompoundLitsAsWritten);
        nodes := nxt.children + nodes[1..];
      }
    }
    WalkDone(root, done, CompoundLitsAsWritten);
    r := Fraction(tokensWithWhitespace, if includedTokens > 0 then includedTokens else 1);
  }

  // ------------------------------------------------------------- verdict

  /** `is_minified`: too few indented lines, or too few spaced operators. */
  predicate Minified(src: String, root: Node, indentFraction: Fraction, operatorWsFraction: Fraction)
    requires indentFraction.den > 0 && operatorWsFraction.den > 0
  {
    Less(IndentedFraction(src), indentFraction) || Less(SpacedFraction(src, root), operatorWsFraction)
  }

  method IsMinified(src: String, root: Node, indentFraction: Fraction, operatorWsFraction: Fraction)
    returns (minified: bool)
    requires indentFraction.den > 0 && operatorWsFraction.den > 0
    ensures minified == Minified(src, root, indentFraction, operatorWsFraction)
  {
    var fileFractionIndentedLines := FractionOfIndentedLines(src);
    var fileWsFraction := FractionOfTokensWithWhitespace(src, root);
    if Less(fileFractionIndentedLines, indentFraction) || Less(fileWsFraction, operatorWsFraction) {
      return true;
    }
    return false;
  }

  /** A file none of whose lines is indented counts as minified under any
      positive indentation cut-off. */
  lemma UnindentedIsMinified(src: String, root: Node, indentFraction: Fraction, operatorWsFraction: Fraction)
    requires indentFraction.den > 0 && operatorWsFraction.den > 0 && indentFraction.num > 0
    requires forall k :: 0 <= k < |ByteSplitLines(src)| ==> !Indented(ByteSplitLines(src)[k])
    ensures Minified(src, root, indentFraction, operatorWsFraction)
  {
    IndentedCountZero(ByteSplitLines(src));
  }

  /** A file without a single operator token counts as minified under any
      positive whitespace cut-off, however it is laid out. */
  lemma NoOperatorsIsMinified(src: String, root: Node, indentFraction: Fraction, operatorWsFraction: Fraction)
    requires indentFraction.den > 0 && operatorWsFraction.den > 0 && operatorWsFraction.num > 0
    requires NoOperators(ForestTokens(root.children, CompoundLitsAsWritten))
    ensures Minified(src, root, indentFraction, operatorWsFraction)
  {
    var ts := ForestTokens(root.children, CompoundLitsAsWritten);
    SpacedAtMostIncluded(src, ts);
    IncludedNone(ts);
  }

  lemma {:induction false} IncludedNone(ts: seq<Node>)
    requires NoOperators(ts)
    ensures IncludedCount(ts) == 0
  {
    if ts != [] {
      var n := |ts| - 1;
      assert forall k :: 0 <= k < n ==> ts[..n][k] == ts[k];
      IncludedNone(ts[..n]);
    }
  }

  /** A file whose lines are all indented and whose operators, of which
      there is at least one, are all followed by whitespace is not minified
      under cut-offs of at most 1. */
  lemma LaidOutIsNotMinified(src: String, root: Node, indentFraction: Fraction, operatorWsFraction: Fraction)
    requires indentFraction.den > 0 && operatorWsFraction.den > 0
    requires indentFraction.num <= indentFraction.den && operatorWsFraction.num <= operatorWsFraction.den
    requires ByteSplitLines(src) != []
    requires forall k :: 0 <= k < |ByteSplitLines(src)| ==> Indented(ByteSplitLines(src)[k])
    requires IncludedCount(ForestTokens(root.children, CompoundLitsAsWritten)) > 0
    requires OperatorsSpaced(src, ForestTokens(root.children, CompoundLitsAsWritten))
    ensures !Minified(src, root, indentFraction, operatorWsFraction)
  {
    var ts := ForestTokens(root.children, CompoundLitsAsWritten);
    IndentedCountAll(ByteSplitLines(src));
    SpacedAllIncluded(src, ts);
    var a, b := IndentedFraction(src), SpacedFraction(src, root);
    assert a.num == a.den && b.num == b.den;
    assert a.num * indentFraction.den >= indentFraction.num * a.den by {
      MulMono(indentFraction.num, indentFraction.den, a.den);
    }
    assert b.num * operatorWsFraction.den >= operatorWsFraction.num * b.den by {
      MulMono(operatorWsFraction.num, operatorWsFraction.den, b.den);
    }
  }

  lemma MulMono(p: nat, q: nat, d: nat)
    requires p <= q
    ensures p * d <= d * q
  {
  }
}
