/** The comment helpers of the parsers: removing C-style comment delimiters
    line by line, finding the leading comment block of a file, and peeling
    a licence comment off the front of a file.
 */
module CommentUtils {
  import opened Wrappers
  import opened Text

  // ------------------------------------------- strip_c_style_comment_delimiters

  /** The trailing delimiters a line may lose, in order of precedence. */
  const TrailingDelimiters: seq<String> := [" */", "*/"]

  /** The leading delimiters a line may lose, in order of precedence. */
  const LeadingDelimiters: seq<String> := ["* ", "/**", "/*", "///", "//", "*"]

  /** The first of `ps` that `s` ends with, "" when none does. */
  function FirstSuffixOf(s: String, ps: seq<String>): (r: String)
    ensures r == [] || EndsWith(s, r)
  {
    if ps == [] then [] else if EndsWith(s, ps[0]) then ps[0] else FirstSuffixOf(s, ps[1..])
  }

  /** The first of `ps` that `s` starts with, "" when none does. */
  function FirstPrefixOf(s: String, ps: seq<String>): (r: String)
    ensures r == [] || StartsWith(s, r)
  {
    if ps == [] then [] else if StartsWith(s, ps[0]) then ps[0] else FirstPrefixOf(s, ps[1..])
  }

  /** `FirstSuffixOf` picks the earliest delimiter of the list that matches. */
  lemma {:induction false} FirstSuffixOfIsFirst(s: String, ps: seq<String>)
    requires forall i :: 0 <= i < |ps| ==> ps[i] != []
    ensures var r := FirstSuffixOf(s, ps);
      (r == [] <==> forall i :: 0 <= i < |ps| ==> !EndsWith(s, ps[i]))
      && (r != [] ==> exists i :: 0 <= i < |ps| && ps[i] == r && forall j :: 0 <= j < i ==> !EndsWith(s, ps[j]))
  {
    if ps != [] && !EndsWith(s, ps[0]) {
      FirstSuffixOfIsFirst(s, ps[1..]);
      var r := FirstSuffixOf(s, ps);
      if r != [] {
        var i :| 0 <= i < |ps[1..]| && ps[1..][i] == r && forall j :: 0 <= j < i ==> !EndsWith(s, ps[1..][j]);
        assert ps[i + 1] == r;
        assert forall j :: 0 <= j < i + 1 ==> !EndsWith(s, ps[j]) by {
          forall j | 0 <= j < i + 1 ensures !EndsWith(s, ps[j]) {
            if j > 0 { assert ps[j] == ps[1..][j - 1]; }
          }
        }
      } else {
        forall i | 0 <= i < |ps| ensures !EndsWith(s, ps[i]) {
          if i > 0 { assert ps[i] == ps[1..][i - 1]; }
        }
      }
    }
  }

  /** `FirstPrefixOf` picks the earliest delimiter of the list that matches. */
  lemma {:induction false} FirstPrefixOfIsFirst(s: String, ps: seq<String>)
    requires forall i :: 0 <= i < |ps| ==> ps[i] != []
    ensures var r := FirstPrefixOf(s, ps);
      (r == [] <==> forall i :: 0 <= i < |ps| ==> !StartsWith(s, ps[i]))
      && (r != [] ==> exists i :: 0 <= i < |ps| && ps[i] == r && forall j :: 0 <= j < i ==> !StartsWith(s, ps[j]))
  {
    if ps != [] && !StartsWith(s, ps[0]) {
      FirstPrefixOfIsFirst(s, ps[1..]);
      var r := FirstPrefixOf(s, ps);
      if r != [] {
        var i :| 0 <= i < |ps[1..]| && ps[1..][i] == r && forall j :: 0 <= j < i ==> !StartsWith(s, ps[1..][j]);
        assert ps[i + 1] == r;
        assert forall j :: 0 <= j < i + 1 ==> !StartsWith(s, ps[j]) by {
          forall j | 0 <= j < i + 1 ensures !StartsWith(s, ps[j]) {
            if j > 0 { assert ps[j] == ps[1..][j - 1]; }
          }
        }
      } else {
        forall i | 0 <= i < |ps| ensures !StartsWith(s, ps[i]) {
          if i > 0 { assert ps[i] == ps[1..][i - 1]; }
        }
      }
    }
  }

  // The trailing step: " */" is cut, else "*/", else nothing.
  function DropTrailing(l: String): (r: String)
  {
    if EndsWith(l, " */") then l[..|l| - 3]
    else if EndsWith(l, "*/") then l[..|l| - 2]
    else l
  }

  // The leading step: the first of "* ", "/**", "/*", "///", "//", "*" that
  // the line starts with is cut.
  function DropLeading(l: String): (r: String)
  {
    if StartsWith(l, "* ") then l[2..]
    else if StartsWith(l, "/**") then l[3..]
    else if StartsWith(l, "/*") then l[2..]
    else if StartsWith(l, "///") then l[3..]
    else if StartsWith(l, "//") then l[2..]
    else if StartsWith(l, "*") then l[1..]
    else l
  }

  /** The if-chain of the trailing step cuts the first delimiter in order. */
  lemma DropTrailingFirst(l: String)
    ensures l == DropTrailing(l) + FirstSuffixOf(l, TrailingDelimiters)
  {
    var ps := TrailingDelimiters;
    assert ps[0] == " */" && ps[1..][0] == "*/" && ps[1..][1..] == [];
    assert FirstSuffixOf(l, ps[1..]) == if EndsWith(l, "*/") then "*/" else [];
    if EndsWith(l, " */") {
      assert l == l[..|l| - 3] + " */";
    } else if EndsWith(l, "*/") {
      assert l == l[..|l| - 2] + "*/";
    }
  }

  /** The if-chain of the leading step cuts the first delimiter in order. */
  lemma DropLeadingFirst(l: String)
    ensures l == FirstPrefixOf(l, LeadingDelimiters) + DropLeading(l)
  {
    var ps := LeadingDelimiters;
    assert ps[5..] == ["*"] && ps[5..][1..] == [];
    assert FirstPrefixOf(l, ps[5..]) == if StartsWith(l, "*") then "*" else [];
    assert ps[4..][1..] == ps[5..] && ps[4..][0] == "//";
    assert ps[3..][1..] == ps[4..] && ps[3..][0] == "///";
    assert ps[2..][1..] == ps[3..] && ps[2..][0] == "/*";
    assert ps[1..][1..] == ps[2..] && ps[1..][0] == "/**";
    assert FirstPrefixOf(l, ps[4..]) == if StartsWith(l, "//") then "//" else FirstPrefixOf(l, ps[5..]);
    assert FirstPrefixOf(l, ps[3..]) == if StartsWith(l, "///") then "///" else FirstPrefixOf(l, ps[4..]);
    assert FirstPrefixOf(l, ps[2..]) == if StartsWith(l, "/*") then "/*" else FirstPrefixOf(l, ps[3..]);
    assert FirstPrefixOf(l, ps[1..]) == if StartsWith(l, "/**") then "/**" else FirstPrefixOf(l, ps[2..]);
    var p := FirstPrefixOf(l, ps);
    assert p == if StartsWith(l, "* ") then "* " else FirstPrefixOf(l, ps[1..]);
    assert DropLeading(l) == l[|p|..];
    assert l == p + l[|p|..];
  }

  /** One line of a C-style comment without its indentation and delimiters. */
  function CleanLine(l: String): String {
    DropLeading(DropTrailing(LStrip(l)))
  }

  /** Both steps on a line `t`: `t` is the cut leading delimiter, the rest
      and the cut trailing delimiter. */
  lemma DelimiterParts(t: String)
    ensures t == FirstPrefixOf(DropTrailing(t), LeadingDelimiters) + DropLeading(DropTrailing(t))
      + FirstSuffixOf(t, TrailingDelimiters)
  {
    DropTrailingFirst(t);
    DropLeadingFirst(DropTrailing(t));
  }

  /** A cleaned line is its left-stripped line with at most one leading and
      at most one trailing delimiter removed, each the first that matches in
      order of precedence. */
  lemma CleanLineParts(l: String)
    ensures var t := LStrip(l);
      t == FirstPrefixOf(DropTrailing(t), LeadingDelimiters) + CleanLine(l) + FirstSuffixOf(t, TrailingDelimiters)
  {
    DelimiterParts(LStrip(l));
  }

  /** Every line cleaned, in order. */
  function CleanLines(ls: seq<String>): (r: seq<String>)
    ensures |r| == |ls|
  {
    if ls == [] then [] else CleanLines(ls[..|ls| - 1]) + [CleanLine(ls[|ls| - 1])]
  }

  lemma {:induction false} CleanLinesAt(ls: seq<String>, k: nat)
    requires k < |ls|
    ensures CleanLines(ls)[k] == CleanLine(ls[k])
  {
    if k < |ls| - 1 {
      CleanLinesAt(ls[..|ls| - 1], k);
    }
  }

  /** `strip_c_style_comment_delimiters(comment)`: every line of
      `comment.splitlines()` cleaned, joined by "\n". */
  method StripCStyleCommentDelimiters(comment: String) returns (r: String)
    ensures r == Join("\n", CleanLines(SplitLines(comment)))
  {
    var commentLines := SplitLines(comment);
    var cleanedLines := CleanEachLine(commentLines);
    r := Join("\n", cleanedLines);
  }

  /** The loop over the lines, appending each cleaned line. */
  method CleanEachLine(commentLines: seq<String>) returns (cleanedLines: seq<String>)
    ensures cleanedLines == CleanLines(commentLines)
  {
    cleanedLines := [];
    for i := 0 to |commentLines|
      invariant cleanedLines == CleanLines(commentLines[..i])
    {
      var l := StripLineDelimiters(commentLines[i]);
      assert commentLines[..i + 1][..i] == commentLines[..i];
      cleanedLines := cleanedLines + [l];
    }
    assert commentLines[..|commentLines|] == commentLines;
  }

  /** The body of the loop over the lines. */
  method StripLineDelimiters(line: String) returns (l: String)
    ensures l == CleanLine(line)
  {
    l := LStrip(line);
    if EndsWith(l, " */") {
      l := l[..|l| - 3];
    } else if EndsWith(l, "*/") {
      l := l[..|l| - 2];
    }
    assert l == DropTrailing(LStrip(line));
    l := StripLeadingDelimiter(l);
  }

  method StripLeadingDelimiter(u: String) returns (l: String)
    ensures l == DropLeading(u)
  {
    l := u;
    if StartsWith(l, "* ") {
      l := l[2..];
    } else if StartsWith(l, "/**") {
      l := l[3..];
    } else if StartsWith(l, "/*") {
      l := l[2..];
    } else if StartsWith(l, "///") {
      l := l[3..];
    } else if StartsWith(l, "//") {
      l := l[2..];
    } else if StartsWith(l, "*") {
      l := l[1..];
    }
  }

  lemma SliceNoBreak(l: String, a: nat, b: nat)
    requires a <= b <= |l| && forall i :: 0 <= i < |l| ==> !IsLineBreak(l[i])
    ensures forall i :: 0 <= i < |l[a..b]| ==> !IsLineBreak(l[a..b][i])
  {
    forall i | 0 <= i < |l[a..b]| ensures !IsLineBreak(l[a..b][i]) {
      assert l[a..b][i] == l[a + i];
    }
  }

  lemma DropTrailingNoBreak(t: String)
    requires forall i :: 0 <= i < |t| ==> !IsLineBreak(t[i])
    ensures forall i :: 0 <= i < |DropTrailing(t)| ==> !IsLineBreak(DropTrailing(t)[i])
  {
    if EndsWith(t, " */") {
      SliceNoBreak(t, 0, |t| - 3);
    } else if EndsWith(t, "*/") {
      SliceNoBreak(t, 0, |t| - 2);
    }
  }

  lemma SuffixNoBreak(l: String, a: nat)
    requires a <= |l| && forall i :: 0 <= i < |l| ==> !IsLineBreak(l[i])
    ensures forall i :: 0 <= i < |l[a..]| ==> !IsLineBreak(l[a..][i])
  {
    forall i | 0 <= i < |l[a..]| ensures !IsLineBreak(l[a..][i]) {
      assert l[a..][i] == l[a + i];
    }
  }

  lemma DropLeadingNoBreak(u: String)
    requires forall i :: 0 <= i < |u| ==> !IsLineBreak(u[i])
    ensures forall i :: 0 <= i < |DropLeading(u)| ==> !IsLineBreak(DropLeading(u)[i])
  {
    var k := |u| - |DropLeading(u)|;
    assert DropLeading(u) == u[k..];
    SuffixNoBreak(u, k);
  }

  /** A cleaned line is a piece of its line, so it holds no line break when
      its line holds none. */
  lemma CleanLineInside(l: String)
    requires forall i :: 0 <= i < |l| ==> !IsLineBreak(l[i])
    ensures forall i :: 0 <= i < |CleanLine(l)| ==> !IsLineBreak(CleanLine(l)[i])
  {
    SuffixNoBreak(l, LeadLen(l, IsSpace));
    DropTrailingNoBreak(LStrip(l));
    DropLeadingNoBreak(DropTrailing(LStrip(l)));
  }

  /** The output has one line per input line: splitting it at "\n" gives
      back exactly the cleaned lines. */
  lemma StripKeepsLines(comment: String)
    requires comment != []
    ensures Split(Join("\n", CleanLines(SplitLines(comment))), '\n') == CleanLines(SplitLines(comment))
  {
    var ls := SplitLines(comment);
    var cs := CleanLines(ls);
    forall k | 0 <= k < |cs| ensures '\n' !in cs[k] {
      CleanLinesAt(ls, k);
      SplitLinesNoBreaks(comment, IsLineBreak, k);
      CleanLineInside(ls[k]);
      assert forall i :: 0 <= i < |cs[k]| ==> cs[k][i] != '\n';
    }
    SplitJoin(cs, '\n');
  }

  /** `splitlines()` of two break-free lines joined by "\n". */
  lemma SplitTwoLines(a: String, b: String)
    requires b != []
    requires forall i :: 0 <= i < |a| ==> !IsLineBreak(a[i])
    requires forall i :: 0 <= i < |b| ==> !IsLineBreak(b[i])
    ensures SplitLines(a + "\n" + b) == [a, b]
  {
    var s := a + "\n" + b;
    assert FirstWhere(s, IsLineBreak) == Some(|a|) by {
      assert s[|a|] == '\n';
      forall i | 0 <= i < |a| ensures !IsLineBreak(s[i]) { assert s[i] == a[i]; }
    }
    assert s[..|a|] == a && s[|a| + 1..] == b;
    assert FirstWhere(b, IsLineBreak) == None;
    assert SplitLinesBy(b, IsLineBreak) == [b];
  }

  /** `strip_c_style_comment_delimiters` as a function. */
  function StripCStyleDelimiters(comment: String): String {
    Join("\n", CleanLines(SplitLines(comment)))
  }

  // The opening line of a doc comment loses its slash and two stars.
  lemma OpeningLine(l: String)
    requires StartsWith(l, "/**") && !EndsWith(l, "*/")
    ensures CleanLine(l) == l[3..]
  {
    assert l[0] == '/';
    assert LStrip(l) == l;
    assert !StartsWith(l, "* ") by { assert l[0] != '*'; }
  }

  /** A closing line made of indentation and the closing delimiter becomes empty. */
  lemma ClosingLine(l: String)
    requires LStrip(l) == "*/"
    ensures CleanLine(l) == []
  {
    var t := LStrip(l);
    assert !EndsWith(t, " */");
    assert EndsWith(t, "*/");
    assert DropTrailing(t) == [];
  }

  // A two-line doc comment, slash, two stars and text on the first line and
  // the closing delimiter on the second, becomes the text and a line feed.
  lemma TwoLineDocComment(a: String, b: String)
    requires StartsWith(a, "/**") && !EndsWith(a, "*/") && LStrip(b) == "*/"
    requires forall i :: 0 <= i < |a| ==> !IsLineBreak(a[i])
    requires forall i :: 0 <= i < |b| ==> !IsLineBreak(b[i])
    ensures StripCStyleDelimiters(a + "\n" + b) == a[3..] + "\n"
  {
    assert |LStrip(b)| == 2;
    SplitTwoLines(a, b);
    OpeningLine(a);
    ClosingLine(b);
    CleanLinesTwo(a, b);
    assert Join("\n", [a[3..], []]) == a[3..] + "\n" + [];
  }

  lemma CleanLinesTwo(x: String, y: String)
    ensures CleanLines([x, y]) == [CleanLine(x), CleanLine(y)]
  {
    assert [x, y][..1] == [x];
    assert CleanLines([x]) == [CleanLine(x)] by { assert [x][..0] == []; }
  }

  // ------------------------------------------------------ get_leading_comment

  /** The three leading-comment regular expressions of the module. */
  datatype CommentRegex =
    | CStyleComment   // slash, stars, the shortest text, star slash, line feeds
    | SlashComment    // lines of blanks, "//" and text, then line feeds
    | HashtagComment  // twice: lines of blanks, "#" and text, then line feeds

  /** The default `comment_regexes`. */
  const DefaultRegexes: seq<CommentRegex> := [CStyleComment, SlashComment, HashtagComment]

  predicate IsLineFeed(c: char) { c == '\n' }
  predicate IsStar(c: char) { c == '*' }

  /** The end of the run of characters satisfying `p` starting at `i`: what
      `\n*`, `\*+` and `[ \t]*` take when they take all they can. */
  function SkipWhile(s: String, i: nat, p: char -> bool): (r: nat)
    requires i <= |s|
    ensures i <= r <= |s| && (r == |s| || !p(s[r]))
    ensures forall k :: i <= k < r ==> p(s[k])
    decreases |s| - i
  {
    if i < |s| && p(s[i]) then SkipWhile(s, i + 1, p) else i
  }

  /** `([ \t]*MARK.*\n)*` from `i`: the end of the run of complete lines that
      start, after blanks, with `mark`. */
  function CommentLines(s: String, i: nat, mark: String): (r: nat)
    requires i <= |s|
    ensures i <= r <= |s|
    decreases |s| - i
  {
    var j := SkipWhile(s, i, IsBlankOrTab);
    if !At(s, mark, j) then i
    else match FindFrom(s, "\n", j + |mark|)
      case None => i
      case Some(k) => CommentLines(s, k + 1, mark)
  }

  /** The C-style regex: its `\*+` first takes every star; only when no "*" "/"
      follows them does it give the last star back, which then can only be
      the closing one. */
  function CStyleEnd(s: String): (r: Option<nat>)
    ensures r.Some? ==> r.value <= |s|
  {
    if !StartsWith(s, "/*") then None
    else
      var m := SkipWhile(s, 1, IsStar);
      match FindFrom(s, "*/", m)
      case Some(p) => Some(SkipWhile(s, p + 2, IsLineFeed))
      case None => if m >= 3 && At(s, "*/", m - 1) then Some(SkipWhile(s, m + 1, IsLineFeed)) else None
  }

  /** The end of the match of a regex at the start of `s`, if it matches. */
  function MatchEnd(re: CommentRegex, s: String): (r: Option<nat>)
    ensures r.Some? ==> r.value <= |s|
  {
    match re
    case CStyleComment => CStyleEnd(s)
    case SlashComment => Some(SkipWhile(s, CommentLines(s, 0, "//"), IsLineFeed))
    case HashtagComment =>
      var a := SkipWhile(s, CommentLines(s, 0, "#"), IsLineFeed);
      Some(SkipWhile(s, CommentLines(s, a, "#"), IsLineFeed))
  }

  // What a C-style match covers: "/*", then text, then "*/", then only
  // line feeds.
  lemma CStyleMatch(s: String)
    ensures var r := MatchEnd(CStyleComment, s);
      r.Some? ==>
        StartsWith(s, "/*")
        && (exists p :: 2 <= p && p + 2 <= r.value && At(s, "*/", p)
              && forall k :: p + 2 <= k < r.value ==> s[k] == '\n')
  {
    var r := CStyleEnd(s);
    if r.Some? {
      assert s[1] == '*';
      var m := SkipWhile(s, 1, IsStar);
      assert m >= 2;
      match FindFrom(s, "*/", m)
      case Some(p) =>
        assert p + 2 <= r.value && forall k :: p + 2 <= k < r.value ==> s[k] == '\n';
      case None =>
        assert At(s, "*/", m - 1);
        assert forall k :: m + 1 <= k < r.value ==> s[k] == '\n';
    }
  }

  /** `get_leading_comment(text, regexes)` as a function: the text matched by
      the first regex whose match is non-empty, else "". */
  function LeadingComment(text: String, regexes: seq<CommentRegex>): (r: String)
    ensures r <= text
  {
    if regexes == [] then []
    else match MatchEnd(regexes[0], text)
      case Some(e) => if e > 0 then text[..e] else LeadingComment(text, regexes[1..])
      case None => LeadingComment(text, regexes[1..])
  }

  predicate NonEmptyMatch(re: CommentRegex, text: String) {
    MatchEnd(re, text).Some? && MatchEnd(re, text).value > 0
  }

  lemma LeadingCommentSkip(text: String, regexes: seq<CommentRegex>)
    requires regexes != [] && !NonEmptyMatch(regexes[0], text)
    ensures LeadingComment(text, regexes) == LeadingComment(text, regexes[1..])
  {
  }

  lemma LeadingCommentTake(text: String, regexes: seq<CommentRegex>)
    requires regexes != [] && NonEmptyMatch(regexes[0], text)
    ensures LeadingComment(text, regexes) == text[..MatchEnd(regexes[0], text).value] != []
  {
  }

  /** The leading comment is "" exactly when no regex matches non-emptily, and
      otherwise it is the prefix matched by the first one that does. */
  lemma {:induction false} LeadingCommentFirst(text: String, regexes: seq<CommentRegex>)
    ensures var r := LeadingComment(text, regexes);
      (r == [] <==> forall i :: 0 <= i < |regexes| ==> !NonEmptyMatch(regexes[i], text))
      && (r != [] ==>
            exists i :: 0 <= i < |regexes| && NonEmptyMatch(regexes[i], text)
              && r == text[..MatchEnd(regexes[i], text).value]
              && forall j :: 0 <= j < i ==> !NonEmptyMatch(regexes[j], text))
  {
    if regexes != [] && NonEmptyMatch(regexes[0], text) {
      LeadingCommentTake(text, regexes);
    } else if regexes != [] {
      LeadingCommentFirst(text, regexes[1..]);
      LeadingCommentSkip(text, regexes);
      var r := LeadingComment(text, regexes);
      if r != [] {
        var i :| 0 <= i < |regexes[1..]| && NonEmptyMatch(regexes[1..][i], text)
          && r == text[..MatchEnd(regexes[1..][i], text).value]
          && forall j :: 0 <= j < i ==> !NonEmptyMatch(regexes[1..][j], text);
        assert regexes[i + 1] == regexes[1..][i];
        forall j | 0 <= j < i + 1 ensures !NonEmptyMatch(regexes[j], text) {
          if j > 0 { assert regexes[j] == regexes[1..][j - 1]; }
        }
      } else {
        forall i | 0 <= i < |regexes| ensures !NonEmptyMatch(regexes[i], text) {
          if i > 0 { assert regexes[i] == regexes[1..][i - 1]; }
        }
      }
    }
  }

  /** `get_leading_comment`: tries the regexes in order, returning early. */
  method GetLeadingComment(text: String, regexes: seq<CommentRegex>) returns (r: String)
    ensures r == LeadingComment(text, regexes)
  {
    for i := 0 to |regexes|
      invariant LeadingComment(text, regexes) == LeadingComment(text, regexes[i..])
    {
      assert regexes[i..][1..] == regexes[i + 1..];
      var m := MatchEnd(regexes[i], text);
      if m.Some? && m.value > 0 {
        return text[..m.value];
      }
    }
    return [];
  }

  // -------------------------------------------------- strip_plaintext_license

  /** `re.search("license|copyright", s, flags=re.IGNORECASE)` succeeds. */
  predicate MentionsLicense(s: String) {
    Contains(LowerAscii(s), "license") || Contains(LowerAscii(s), "copyright")
  }

  lemma NothingInEmpty()
    ensures !MentionsLicense([])
  {
    assert LowerAscii([]) == [];
    assert !At([], "license", 0) && !At([], "copyright", 0);
  }

  /** `strip_plaintext_license(text, regexes)`: `(rest, license)`. */
  function StripPlaintextLicense(text: String, regexes: seq<CommentRegex>): (r: (String, String))
  {
    var lc := LeadingComment(text, regexes);
    if MentionsLicense(lc) then (text[|lc|..], text[..|lc|]) else (text, [])
  }

  /** Either the leading comment mentions a licence and is split off the
      front, so that licence + rest is the text, or nothing is split off. */
  lemma StripLicenseSplits(text: String, regexes: seq<CommentRegex>)
    ensures var (rest, lic) := StripPlaintextLicense(text, regexes);
      lic + rest == text
      && (lic != [] <==> MentionsLicense(LeadingComment(text, regexes)))
      && (lic != [] ==> lic == LeadingComment(text, regexes))
  {
    var lc := LeadingComment(text, regexes);
    if MentionsLicense(lc) {
      NothingInEmpty();
      assert lc != [];
      assert text == text[..|lc|] + text[|lc|..];
    }
  }
}
