/** Python string semantics the modelled code relies on: slicing, stripping,
    prefix and substring search, `replace`, `split`, `splitlines`, `join`
    and `textwrap.dedent`.  Text is a sequence of characters, one per source
    byte.
 */
module Text {
  import opened Wrappers

  type String = seq<char>

  /** `str.isspace()` for one character; also what `\s` and a bare
      `str.strip()` treat as whitespace. */
  predicate IsSpace(c: char) {
    c == ' ' || ('\t' <= c <= '\r') || ('\U{1C}' <= c <= '\U{1F}')
    || c == '\U{85}' || c == '\U{A0}' || c == '\U{1680}'
    || ('\U{2000}' <= c <= '\U{200A}') || c == '\U{2028}' || c == '\U{2029}'
    || c == '\U{202F}' || c == '\U{205F}' || c == '\U{3000}'
  }

  /** Membership in `string.whitespace` (space, tab, LF, VT, FF, CR). */
  predicate IsAsciiSpace(c: char) {
    c == ' ' || ('\t' <= c <= '\r')
  }

  /** The characters `[a-z]` matches. */
  predicate IsLower(c: char) {
    'a' <= c <= 'z'
  }

  /** `s[i:j]` with Python's rules for negative and out-of-range bounds. */
  function ClampIndex(i: int, n: nat): (k: nat)
    ensures k <= n
  {
    if i < 0 then (if i + n < 0 then 0 else i + n) else if i > n then n else i
  }

  function Slice(s: String, i: int, j: int): (r: String)
    ensures |r| <= |s|
    ensures var a, b := ClampIndex(i, |s|), ClampIndex(j, |s|);
            r == if a < b then s[a..b] else []
  {
    var a, b := ClampIndex(i, |s|), ClampIndex(j, |s|);
    if a < b then s[a..b] else []
  }

  function Repeat(s: String, n: nat): (r: String)
    ensures |r| == n * |s|
  {
    if n == 0 then [] else s + Repeat(s, n - 1)
  }

  function Spaces(n: nat): (r: String)
    ensures |r| == n && forall k :: 0 <= k < n ==> r[k] == ' '
  {
    if n == 0 then [] else [' '] + Spaces(n - 1)
  }

  predicate StartsWith(s: String, p: String) {
    |p| <= |s| && s[..|p|] == p
  }

  predicate EndsWith(s: String, p: String) {
    |p| <= |s| && s[|s| - |p|..] == p
  }

  /** `sub` occurs in `s` at index `i`. */
  predicate At(s: String, sub: String, i: nat) {
    i + |sub| <= |s| && s[i..i + |sub|] == sub
  }

  /** `s.find(sub, i)`: the first index at or after `i` where `sub` occurs. */
  function FindFrom(s: String, sub: String, i: nat): (r: Option<nat>)
    requires i <= |s|
    ensures r.Some? ==> i <= r.value && At(s, sub, r.value)
    ensures r.Some? ==> forall j :: i <= j < r.value ==> !At(s, sub, j)
    ensures r.None? ==> forall j :: i <= j <= |s| ==> !At(s, sub, j)
    decreases |s| - i
  {
    if i + |sub| > |s| then None
    else if s[i..i + |sub|] == sub then Some(i)
    else FindFrom(s, sub, i + 1)
  }

  function Find(s: String, sub: String): (r: Option<nat>)
    ensures r.Some? ==> At(s, sub, r.value) && forall j :: 0 <= j < r.value ==> !At(s, sub, j)
    ensures r.None? ==> forall j :: 0 <= j <= |s| ==> !At(s, sub, j)
  {
    FindFrom(s, sub, 0)
  }

  /** `sub in s`. */
  predicate Contains(s: String, sub: String) {
    exists i :: 0 <= i <= |s| && At(s, sub, i)
  }

  lemma ContainsFind(s: String, sub: String)
    ensures Contains(s, sub) <==> Find(s, sub).Some?
  {
    if Find(s, sub).Some? {
      assert At(s, sub, Find(s, sub).value);
    }
  }

  /** The first index of character `c` in `s`. */
  function IndexOfChar(s: String, c: char): (r: Option<nat>)
    ensures r.Some? ==> r.value < |s| && s[r.value] == c && c !in s[..r.value]
    ensures r.None? ==> c !in s
  {
    if s == [] then None
    else if s[0] == c then Some(0)
    else match IndexOfChar(s[1..], c)
      case None => None
      case Some(k) => assert s[..k + 1] == [s[0]] + s[1..][..k]; Some(k + 1)
  }

  /** `s.replace(pat, rep)`: left-to-right, non-overlapping. */
  function Replace(s: String, pat: String, rep: String): String
    decreases |s|
  {
    if pat == [] then rep + ReplaceEmpty(s, rep)
    else if s == [] then []
    else if At(s, pat, 0) then rep + Replace(s[|pat|..], pat, rep)
    else [s[0]] + Replace(s[1..], pat, rep)
  }

  /** `s.replace("", rep)` after the leading `rep`: each character followed by `rep`. */
  function ReplaceEmpty(s: String, rep: String): String {
    if s == [] then [] else [s[0]] + rep + ReplaceEmpty(s[1..], rep)
  }

  lemma {:induction false} ReplaceAbsent(s: String, pat: String, rep: String)
    requires pat != [] && Find(s, pat).None?
    ensures Replace(s, pat, rep) == s
    decreases |s|
  {
    if s != [] {
      assert !At(s, pat, 0);
      assert Find(s[1..], pat).None? by {
        forall j | 0 <= j <= |s[1..]| ensures !At(s[1..], pat, j) {
          assert !At(s, pat, j + 1);
          if j + |pat| <= |s[1..]| { assert s[1..][j..j + |pat|] == s[j + 1..j + 1 + |pat|]; }
        }
      }
      ReplaceAbsent(s[1..], pat, rep);
    }
  }

  /** Replacing a character by text without it leaves none of it. */
  lemma {:induction false} ReplaceRemovesChar(s: String, c: char, rep: String)
    requires c !in rep
    ensures c !in Replace(s, [c], rep)
    decreases |s|
  {
    if s != [] {
      if At(s, [c], 0) {
        ReplaceRemovesChar(s[1..], c, rep);
      } else {
        assert s[..1] == [s[0]];
        ReplaceRemovesChar(s[1..], c, rep);
      }
    }
  }

  /** A character in neither the text nor the replacement is not in the result. */
  lemma {:induction false} ReplaceKeepsOut(s: String, pat: String, rep: String, d: char)
    requires pat != [] && d !in s && d !in rep
    ensures d !in Replace(s, pat, rep)
    decreases |s|
  {
    if s != [] {
      if At(s, pat, 0) {
        ReplaceKeepsOut(s[|pat|..], pat, rep, d);
      } else {
        ReplaceKeepsOut(s[1..], pat, rep, d);
      }
    }
  }

  /** The length of the longest prefix whose characters satisfy `p`. */
  function LeadLen(s: String, p: char -> bool): (k: nat)
    ensures k <= |s| && (k < |s| ==> !p(s[k]))
    ensures forall i :: 0 <= i < k ==> p(s[i])
  {
    if s != [] && p(s[0]) then 1 + LeadLen(s[1..], p) else 0
  }

  /** Drop the longest prefix whose characters satisfy `p`. */
  function LStripBy(s: String, p: char -> bool): (r: String)
    ensures |r| <= |s| && r == s[|s| - |r|..]
    ensures r != [] ==> !p(r[0])
    ensures forall i :: 0 <= i < |s| - |r| ==> p(s[i])
  {
    s[LeadLen(s, p)..]
  }

  /** Drop the longest suffix whose characters satisfy `p`. */
  function RStripBy(s: String, p: char -> bool): (r: String)
    ensures |r| <= |s| && r == s[..|r|]
    ensures r != [] ==> !p(r[|r| - 1])
    ensures forall i :: |r| <= i < |s| ==> p(s[i])
  {
    if s != [] && p(s[|s| - 1]) then RStripBy(s[..|s| - 1], p) else s
  }

  lemma {:induction false} LStripSpaces(n: nat, x: String)
    ensures LStripBy(Spaces(n) + x, IsSpace) == LStripBy(x, IsSpace)
  {
    if n > 0 {
      var s := Spaces(n) + x;
      assert s[0] == ' ' && s[1..] == Spaces(n - 1) + x;
      assert LeadLen(s, IsSpace) == 1 + LeadLen(s[1..], IsSpace);
      assert s[1 + LeadLen(s[1..], IsSpace)..] == s[1..][LeadLen(s[1..], IsSpace)..];
      LStripSpaces(n - 1, x);
    } else {
      assert Spaces(n) + x == x;
    }
  }

  /** Stripping a text removes any indentation put in front of it. */
  lemma StripIndented(n: nat, x: String)
    ensures Strip(Spaces(n) + x) == Strip(x)
  {
    LStripSpaces(n, x);
  }

  /** A text that neither starts nor ends with whitespace. */
  predicate Trimmed(t: String) {
    t != [] ==> !IsSpace(t[0]) && !IsSpace(t[|t| - 1])
  }

  /** A stripped text is trimmed. */
  lemma StripEnds(s: String)
    ensures Trimmed(Strip(s))
  {
    var l := LStripBy(s, IsSpace);
    if Strip(s) != [] {
      assert Strip(s)[0] == l[0];
    }
  }

  function LStrip(s: String): String { LStripBy(s, IsSpace) }
  function RStrip(s: String): String { RStripBy(s, IsSpace) }
  function Strip(s: String): String { RStripBy(LStripBy(s, IsSpace), IsSpace) }

  /** `s.strip(chars)`. */
  function StripChars(s: String, chars: set<char>): String {
    RStripBy(LStripBy(s, c => c in chars), c => c in chars)
  }

  /** `s.lstrip(chars)`. */
  function LStripChars(s: String, chars: set<char>): String {
    LStripBy(s, c => c in chars)
  }

  /** The longest prefix of `s` whose characters satisfy `p`. */
  function TakeWhile(s: String, p: char -> bool): (r: String)
    ensures r <= s
    ensures forall i :: 0 <= i < |r| ==> p(r[i])
    ensures |r| < |s| ==> !p(s[|r|])
  {
    if s != [] && p(s[0]) then [s[0]] + TakeWhile(s[1..], p) else []
  }

  /** `s.split(sep)` for a one-character separator. */
  function Split(s: String, sep: char): (r: seq<String>)
    ensures |r| >= 1
    ensures forall k :: 0 <= k < |r| ==> sep !in r[k]
    decreases |s|
  {
    match IndexOfChar(s, sep)
    case None => [s]
    case Some(k) => [s[..k]] + Split(s[k + 1..], sep)
  }

  /** `sep.join(parts)`. */
  function Join(sep: String, parts: seq<String>): String {
    if |parts| == 0 then []
    else if |parts| == 1 then parts[0]
    else parts[0] + sep + Join(sep, parts[1..])
  }

  lemma {:induction false} JoinSplit(s: String, sep: char)
    ensures Join([sep], Split(s, sep)) == s
    decreases |s|
  {
    match IndexOfChar(s, sep)
    case None =>
    case Some(k) =>
      var rest := Split(s[k + 1..], sep);
      assert Split(s, sep) == [s[..k]] + rest;
      assert ([s[..k]] + rest)[1..] == rest;
      JoinSplit(s[k + 1..], sep);
      assert s == s[..k] + [sep] + s[k + 1..];
  }

  lemma {:induction false} SplitJoin(parts: seq<String>, sep: char)
    requires parts != [] && forall k :: 0 <= k < |parts| ==> sep !in parts[k]
    ensures Split(Join([sep], parts), sep) == parts
  {
    if |parts| > 1 {
      var s := Join([sep], parts);
      var rest := Join([sep], parts[1..]);
      assert s == parts[0] + [sep] + rest;
      assert IndexOfChar(s, sep) == Some(|parts[0]|) by {
        IndexOfCharAt(s, sep, |parts[0]|);
      }
      assert s[..|parts[0]|] == parts[0] && s[|parts[0]| + 1..] == rest;
      SplitJoin(parts[1..], sep);
    }
  }

  lemma IndexOfCharAt(s: String, c: char, k: nat)
    requires k < |s| && s[k] == c && c !in s[..k]
    ensures IndexOfChar(s, c) == Some(k)
  {
    var r := IndexOfChar(s, c);
    assert s[k] in s;
  }

  /** Line boundaries of `str.splitlines()`. */
  predicate IsLineBreak(c: char) {
    c == '\n' || c == '\r' || c == '\U{0B}' || c == '\U{0C}' || ('\U{1C}' <= c <= '\U{1E}')
    || c == '\U{85}' || c == '\U{2028}' || c == '\U{2029}'
  }

  /** Line boundaries of `bytes.splitlines()`. */
  predicate IsByteLineBreak(c: char) {
    c == '\n' || c == '\r'
  }

  /** The first index whose character satisfies `p`. */
  function FirstWhere(s: String, p: char -> bool): (r: Option<nat>)
    ensures r.Some? ==> r.value < |s| && p(s[r.value]) && forall i :: 0 <= i < r.value ==> !p(s[i])
    ensures r.None? ==> forall i :: 0 <= i < |s| ==> !p(s[i])
  {
    if s == [] then None
    else if p(s[0]) then Some(0)
    else match FirstWhere(s[1..], p)
      case None => None
      case Some(k) => Some(k + 1)
  }

  /** `splitlines()` with boundary predicate `isBreak`; "\r\n" is one boundary
      and a boundary at the very end does not start another line. */
  function SplitLinesBy(s: String, isBreak: char -> bool): (r: seq<String>)
    requires isBreak('\r')
    ensures s == [] <==> r == []
    decreases |s|
  {
    match FirstWhere(s, isBreak)
    case None => if s == [] then [] else [s]
    case Some(k) =>
      var width := if s[k] == '\r' && k + 1 < |s| && s[k + 1] == '\n' then 2 else 1;
      [s[..k]] + SplitLinesBy(s[k + width..], isBreak)
  }

  /** No line of `splitlines()` holds a boundary character. */
  lemma {:induction false} SplitLinesNoBreaks(s: String, isBreak: char -> bool, k: nat)
    requires isBreak('\r') && k < |SplitLinesBy(s, isBreak)|
    ensures forall i :: 0 <= i < |SplitLinesBy(s, isBreak)[k]| ==> !isBreak(SplitLinesBy(s, isBreak)[k][i])
    decreases |s|
  {
    match FirstWhere(s, isBreak)
    case None =>
    case Some(j) =>
      var width := if s[j] == '\r' && j + 1 < |s| && s[j + 1] == '\n' then 2 else 1;
      var rest := SplitLinesBy(s[j + width..], isBreak);
      var lines := SplitLinesBy(s, isBreak);
      assert lines == [s[..j]] + rest;
      if k > 0 {
        SplitLinesNoBreaks(s[j + width..], isBreak, k - 1);
        assert lines[k] == rest[k - 1];
      } else {
        forall i | 0 <= i < j ensures !isBreak(s[..j][i]) {
          assert s[..j][i] == s[i];
        }
        assert lines[0] == ([s[..j]] + rest)[0];
      }
  }

  function SplitLines(s: String): seq<String> { SplitLinesBy(s, IsLineBreak) }

  function ByteSplitLines(s: String): seq<String> { SplitLinesBy(s, IsByteLineBreak) }

  function ToLowerAscii(c: char): char {
    if 'A' <= c <= 'Z' then (c as int + 32) as char else c
  }

  function LowerAscii(s: String): (r: String)
    ensures |r| == |s| && forall i :: 0 <= i < |s| ==> r[i] == ToLowerAscii(s[i])
  {
    if s == [] then [] else [ToLowerAscii(s[0])] + LowerAscii(s[1..])
  }

  /** The longest common prefix of two strings. */
  function CommonPrefix(a: String, b: String): (r: String)
    ensures r <= a && r <= b
    ensures |r| < |a| && |r| < |b| ==> a[|r|] != b[|r|]
  {
    if a != [] && b != [] && a[0] == b[0] then [a[0]] + CommonPrefix(a[1..], b[1..]) else []
  }

  predicate IsBlankOrTab(c: char) { c == ' ' || c == '\t' }

  /** A line made only of spaces and tabs becomes empty (first step of `textwrap.dedent`). */
  function BlankOut(line: String): String {
    if forall i :: 0 <= i < |line| ==> IsBlankOrTab(line[i]) then [] else line
  }

  /** The common margin of the lines that hold something besides spaces and tabs. */
  function Margin(lines: seq<String>): Option<String> {
    if lines == [] then None
    else
      var rest := Margin(lines[1..]);
      var line := lines[0];
      if line == [] then rest
      else
        var indent := TakeWhile(line, IsBlankOrTab);
        match rest
        case None => Some(indent)
        case Some(m) => Some(CommonPrefix(indent, m))
  }

  function RemovePrefix(line: String, m: String): String {
    if StartsWith(line, m) then line[|m|..] else line
  }

  function MapRemovePrefix(lines: seq<String>, m: String): (r: seq<String>)
    ensures |r| == |lines| && forall k :: 0 <= k < |lines| ==> r[k] == RemovePrefix(lines[k], m)
  {
    if lines == [] then [] else [RemovePrefix(lines[0], m)] + MapRemovePrefix(lines[1..], m)
  }

  function MapBlankOut(lines: seq<String>): (r: seq<String>)
    ensures |r| == |lines| && forall k :: 0 <= k < |lines| ==> r[k] == BlankOut(lines[k])
  {
    if lines == [] then [] else [BlankOut(lines[0])] + MapBlankOut(lines[1..])
  }

  /** `textwrap.dedent(text)`. */
  function Dedent(text: String): String {
    var lines := MapBlankOut(Split(text, '\n'));
    match Margin(lines)
    case None => Join("\n", lines)
    case Some(m) => Join("\n", MapRemovePrefix(lines, m))
  }

  /** The last index of character `c` in `s`. */
  function LastIndexOfChar(s: String, c: char): (r: Option<nat>)
    ensures r.Some? ==> r.value < |s| && s[r.value] == c && c !in s[r.value + 1..]
    ensures r.None? ==> c !in s
  {
    if s == [] then None
    else if s[|s| - 1] == c then Some(|s| - 1)
    else match LastIndexOfChar(s[..|s| - 1], c)
      case None => None
      case Some(k) => assert s[k + 1..] == s[..|s| - 1][k + 1..] + [s[|s| - 1]]; Some(k)
  }

  /** How many times `c` occurs in `s` (`s.count(c)`). */
  function CountChar(s: String, c: char): nat {
    if s == [] then 0 else (if s[0] == c then 1 else 0) + CountChar(s[1..], c)
  }

  /** `re.sub(r"\s*\n", "\n", s)`: in every maximal run of whitespace that
      holds a line feed, everything up to and including its last line feed
      becomes a single line feed. */
  function CollapseNewlines(s: String): String
    decreases |s|
  {
    if s == [] then []
    else if !IsSpace(s[0]) then [s[0]] + CollapseNewlines(s[1..])
    else
      var w := TakeWhile(s, IsSpace);
      CollapseRun(w) + CollapseNewlines(s[|w|..])
  }

  /** The replacement of one maximal whitespace run. */
  function CollapseRun(w: String): (r: String)
    ensures forall i :: 0 < i < |r| ==> r[i] != '\n'
  {
    match LastIndexOfChar(w, '\n')
    case None => w
    case Some(k) => "\n" + w[k + 1..]
  }

  /** No whitespace character stands right before a line feed. */
  predicate NoSpaceBeforeNewline(r: String) {
    forall i :: 0 < i < |r| && r[i] == '\n' ==> !IsSpace(r[i - 1])
  }

  /** After the collapse no line ends in whitespace, and a string that starts
      with a non-space character keeps it in front. */
  lemma {:induction false} CollapseNewlinesClean(s: String)
    ensures NoSpaceBeforeNewline(CollapseNewlines(s))
    ensures s != [] && !IsSpace(s[0]) ==> CollapseNewlines(s) != [] && CollapseNewlines(s)[0] == s[0]
    decreases |s|
  {
    if s == [] {
    } else if !IsSpace(s[0]) {
      CollapseNewlinesClean(s[1..]);
      var r := CollapseNewlines(s);
      assert r == [s[0]] + CollapseNewlines(s[1..]);
    } else {
      var w := TakeWhile(s, IsSpace);
      var rest := s[|w|..];
      CollapseNewlinesClean(rest);
      var run, tail := CollapseRun(w), CollapseNewlines(rest);
      var r := CollapseNewlines(s);
      assert r == run + tail;
      assert rest != [] ==> tail[0] == rest[0] && !IsSpace(rest[0]);
      forall i | 0 < i < |r| && r[i] == '\n'
        ensures !IsSpace(r[i - 1])
      {
        if i > |run| {
          assert tail[i - |run|] == r[i] && tail[i - |run| - 1] == r[i - 1];
        }
      }
    }
  }

  /** The characters of `s` that are not whitespace, in order. */
  function NonSpace(s: String): String {
    if s == [] then [] else (if IsSpace(s[0]) then [] else [s[0]]) + NonSpace(s[1..])
  }

  /** The collapse removes whitespace only. */
  lemma {:induction false} CollapseKeepsText(s: String)
    ensures NonSpace(CollapseNewlines(s)) == NonSpace(s)
    decreases |s|
  {
    if s != [] && !IsSpace(s[0]) {
      CollapseKeepsText(s[1..]);
      assert ([s[0]] + CollapseNewlines(s[1..]))[1..] == CollapseNewlines(s[1..]);
    } else if s != [] {
      var w := TakeWhile(s, IsSpace);
      var rest := s[|w|..];
      CollapseKeepsText(rest);
      CollapseRunSpaces(w);
      SpacesPrefix(CollapseRun(w), CollapseNewlines(rest));
      assert s == w + rest;
      SpacesPrefix(w, rest);
    }
  }

  /** A whitespace prefix contributes nothing to `NonSpace`. */
  lemma {:induction false} SpacesPrefix(a: String, b: String)
    requires forall i :: 0 <= i < |a| ==> IsSpace(a[i])
    ensures NonSpace(a + b) == NonSpace(b)
    decreases |a|
  {
    if a != [] {
      assert (a + b)[1..] == a[1..] + b;
      SpacesPrefix(a[1..], b);
    } else {
      assert a + b == b;
    }
  }

  /** The replacement of a whitespace run is whitespace. */
  lemma CollapseRunSpaces(w: String)
    requires forall i :: 0 <= i < |w| ==> IsSpace(w[i])
    ensures forall i :: 0 <= i < |CollapseRun(w)| ==> IsSpace(CollapseRun(w)[i])
  {
  }
}
