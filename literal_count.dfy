/** `LiteralCount`: frequency tables of the number, string, character and
    regex literals of a corpus, filled file by file with `count_lits` and
    `update`, cut down with `prune`, and read with `get_top_lits`.
 */
module LiteralCounter {
  import opened Wrappers
  import opened Text
  import opened Tree
  import opened Tokens
  import opened FileTokens

  // ---------------------------------------------------------------- counters

  /** A `collections.Counter`: its entries in insertion order. */
  type Counter = seq<(String, nat)>

  function Keys(c: Counter): set<String> {
    if c == [] then {} else {c[0].0} + Keys(c[1..])
  }

  /** No key occurs twice, as in any dict. */
  predicate KeysDistinct(c: Counter) {
    c == [] || (c[0].0 !in Keys(c[1..]) && KeysDistinct(c[1..]))
  }

  /** `c[k]`: 0 for a missing key. */
  function Get(c: Counter, k: String): (r: nat)
    ensures k !in Keys(c) ==> r == 0
  {
    if c == [] then 0 else if c[0].0 == k then c[0].1 else Get(c[1..], k)
  }

  /** `c[k] += n`: an existing entry grows in place, a new key is appended. */
  function Add(c: Counter, k: String, n: nat): (r: Counter)
    ensures Keys(r) == Keys(c) + {k}
    ensures KeysDistinct(c) ==> KeysDistinct(r)
    ensures forall j :: Get(r, j) == Get(c, j) + (if j == k then n else 0)
    ensures k !in Keys(c) ==> r == c + [(k, n)]
    ensures |r| >= |c| && forall i :: 0 <= i < |c| ==> r[i].0 == c[i].0
  {
    if c == [] then [(k, n)]
    else if c[0].0 == k then [(k, c[0].1 + n)] + c[1..]
    else [c[0]] + Add(c[1..], k, n)
  }

  /** `c.update(other)`: every entry of `other`, in order, added to `c`. */
  function UpdateWith(c: Counter, other: Counter): (r: Counter)
    ensures Keys(r) == Keys(c) + Keys(other)
    ensures KeysDistinct(c) ==> KeysDistinct(r)
    ensures |r| >= |c| && forall i :: 0 <= i < |c| ==> r[i].0 == c[i].0
    decreases |other|
  {
    if other == [] then c else UpdateWith(Add(c, other[0].0, other[0].1), other[1..])
  }

  /** `update` adds the counts. */
  lemma {:induction false} UpdateAdds(c: Counter, other: Counter, k: String)
    requires KeysDistinct(other)
    ensures Get(UpdateWith(c, other), k) == Get(c, k) + Get(other, k)
    decreases |other|
  {
    if other != [] {
      UpdateAdds(Add(c, other[0].0, other[0].1), other[1..], k);
      if other[0].0 == k {
        assert Get(other[1..], k) == 0;
      }
    }
  }

  /** Counts do not increase from one entry to the next. */
  predicate SortedByCount(s: Counter) {
    |s| <= 1 || (s[0].1 >= s[1].1 && SortedByCount(s[1..]))
  }

  /** A sorted counter has no larger count after a smaller one. */
  lemma {:induction false} SortedAll(s: Counter)
    requires SortedByCount(s)
    ensures forall i, j :: 0 <= i < j < |s| ==> s[i].1 >= s[j].1
  {
    if |s| > 1 {
      SortedAll(s[1..]);
      forall i, j | 0 <= i < j < |s| ensures s[i].1 >= s[j].1 {
        if i > 0 {
          assert s[i] == s[1..][i - 1] && s[j] == s[1..][j - 1];
        } else if j > 1 {
          assert s[1] == s[1..][0] && s[j] == s[1..][j - 1];
        }
      }
    }
  }

  /** Puts `x` after the entries with a larger count and before the rest. */
  function Insert(x: (String, nat), s: Counter): (r: Counter)
    ensures |r| == |s| + 1 && r[0] == (if s != [] && s[0].1 > x.1 then s[0] else x)
  {
    if s == [] then [x]
    else if s[0].1 > x.1 then [s[0]] + Insert(x, s[1..])
    else [x] + s
  }

  lemma {:induction false} InsertSorted(x: (String, nat), s: Counter)
    requires SortedByCount(s)
    ensures SortedByCount(Insert(x, s))
  {
    if s != [] && s[0].1 > x.1 {
      InsertSorted(x, s[1..]);
      var r := Insert(x, s);
      assert r[1..] == Insert(x, s[1..]);
    }
  }

  lemma {:induction false} InsertMultiset(x: (String, nat), s: Counter)
    ensures multiset(Insert(x, s)) == multiset(s) + multiset{x}
  {
    if s != [] && s[0].1 > x.1 {
      InsertMultiset(x, s[1..]);
      assert s == [s[0]] + s[1..];
    }
  }

  lemma {:induction false} InsertKeys(x: (String, nat), s: Counter)
    ensures Keys(Insert(x, s)) == Keys(s) + {x.0}
    ensures KeysDistinct(s) && x.0 !in Keys(s) ==> KeysDistinct(Insert(x, s))
  {
    if s != [] && s[0].1 > x.1 {
      InsertKeys(x, s[1..]);
      var r := Insert(x, s);
      assert r[1..] == Insert(x, s[1..]);
    }
  }

  /** `sorted(items, key=count, reverse=True)`: stable, larger counts first. */
  function SortByCount(c: Counter): (r: Counter)
    ensures |r| == |c|
  {
    if c == [] then [] else Insert(c[0], SortByCount(c[1..]))
  }

  /** The sort orders by count and only permutes the entries. */
  lemma SortByCountSpec(c: Counter)
    ensures SortedByCount(SortByCount(c)) && multiset(SortByCount(c)) == multiset(c)
    ensures Keys(SortByCount(c)) == Keys(c)
    ensures KeysDistinct(c) ==> KeysDistinct(SortByCount(c))
  {
    SortByCountSorted(c);
    SortByCountPermutes(c);
    SortByCountKeys(c);
  }

  lemma {:induction false} SortByCountSorted(c: Counter)
    ensures SortedByCount(SortByCount(c))
  {
    if c != [] {
      SortByCountSorted(c[1..]);
      InsertSorted(c[0], SortByCount(c[1..]));
    }
  }

  lemma {:induction false} SortByCountPermutes(c: Counter)
    ensures multiset(SortByCount(c)) == multiset(c)
  {
    if c != [] {
      SortByCountPermutes(c[1..]);
      InsertMultiset(c[0], SortByCount(c[1..]));
      assert c == [c[0]] + c[1..];
    }
  }

  lemma {:induction false} SortByCountKeys(c: Counter)
    ensures Keys(SortByCount(c)) == Keys(c)
    ensures KeysDistinct(c) ==> KeysDistinct(SortByCount(c))
  {
    if c != [] {
      SortByCountKeys(c[1..]);
      InsertKeys(c[0], SortByCount(c[1..]));
    }
  }

  /** `c.most_common(n)`: the first `n` entries of the stable sort, none for n <= 0. */
  function MostCommon(c: Counter, n: int): (r: Counter)
    ensures |r| == if n <= 0 then 0 else if n < |c| then n else |c|
    ensures r <= SortByCount(c)
  {
    if n <= 0 then [] else if n < |c| then SortByCount(c)[..n] else SortByCount(c)
  }

  /** The entries `most_common(n)` returns are the most frequent ones: no
      entry it leaves out has a larger count than one it returns. */
  lemma MostCommonTop(c: Counter, n: int)
    ensures var r := MostCommon(c, n);
      var rest := SortByCount(c)[|r|..];
      multiset(r) + multiset(rest) == multiset(c)
      && (forall i, j :: 0 <= i < |r| && 0 <= j < |rest| ==> r[i].1 >= rest[j].1)
      && (forall i, j :: 0 <= i < j < |r| ==> r[i].1 >= r[j].1)
  {
    var s := SortByCount(c);
    var r := MostCommon(c, n);
    SortByCountPermutes(c);
    assert s == r + s[|r|..];
    SortByCountSorted(c);
    PrefixOrder(s, |r|);
  }

  lemma PrefixOrder(s: Counter, m: nat)
    requires SortedByCount(s) && m <= |s|
    ensures forall i, j :: 0 <= i < m && 0 <= j < |s[m..]| ==> s[..m][i].1 >= s[m..][j].1
    ensures forall i, j :: 0 <= i < j < m ==> s[..m][i].1 >= s[..m][j].1
  {
    SortedAll(s);
    forall i, j | 0 <= i < m && 0 <= j < |s[m..]| ensures s[..m][i].1 >= s[m..][j].1 {
      assert s[..m][i] == s[i] && s[m..][j] == s[m + j];
    }
    forall i, j | 0 <= i < j < m ensures s[..m][i].1 >= s[..m][j].1 {
      assert s[..m][i] == s[i] && s[..m][j] == s[j];
    }
  }

  lemma {:induction false} PrefixKeys(s: Counter, n: nat)
    requires n <= |s|
    ensures Keys(s[..n]) <= Keys(s)
    ensures KeysDistinct(s) ==> KeysDistinct(s[..n])
  {
    if n > 0 {
      assert s[..n][1..] == s[1..][..n - 1];
      PrefixKeys(s[1..], n - 1);
    }
  }

  /** In a dict, the count of a listed key is that entry's count. */
  lemma {:induction false} GetEntry(c: Counter, i: nat)
    requires KeysDistinct(c) && i < |c|
    ensures Get(c, c[i].0) == c[i].1
  {
    if i > 0 {
      KeysMember(c[1..], i - 1);
      GetEntry(c[1..], i - 1);
    }
  }

  lemma {:induction false} KeysMember(c: Counter, i: nat)
    requires i < |c|
    ensures c[i].0 in Keys(c)
  {
    if i > 0 {
      KeysMember(c[1..], i - 1);
    }
  }

  /** `prune(k)` keeps at most `k` entries, with unchanged counts and no key twice. */
  lemma PruneKeepsCounts(c: Counter, keep: int)
    requires KeysDistinct(c)
    ensures var r := MostCommon(c, keep);
      |r| <= (if keep < 0 then 0 else keep) && KeysDistinct(r) && Keys(r) <= Keys(c)
      && forall i :: 0 <= i < |r| ==> Get(c, r[i].0) == r[i].1
  {
    var s := SortByCount(c);
    var r := MostCommon(c, keep);
    SortByCountSpec(c);
    PrefixKeys(s, |r|);
    assert r == s[..|r|];
    forall i | 0 <= i < |r| ensures Get(c, r[i].0) == r[i].1 {
      assert r[i] in multiset(c) by { assert r[i] == s[i]; assert s[i] in multiset(s); }
      var j :| 0 <= j < |c| && c[j] == r[i];
      GetEntry(c, j);
    }
  }

  /** `prune(k)` does not remove the literals seen once, although its
      docstring says it does: a counter with at most `k` keys comes back
      whole, its count-1 entries included. */
  lemma PruneKeepsSingletons(c: Counter, keep: int, k: String)
    requires KeysDistinct(c) && |c| <= keep && Get(c, k) == 1
    ensures k in Keys(MostCommon(c, keep)) && Get(MostCommon(c, keep), k) == 1
  {
    var s := SortByCount(c);
    SortByCountSpec(c);
    assert MostCommon(c, keep) == s;
    var i := KeyIndex(s, k);
    GetEntry(s, i);
    assert s[i] in multiset(c) by { assert s[i] in multiset(s); }
    var j :| 0 <= j < |c| && c[j] == s[i];
    GetEntry(c, j);
  }

  /** A listed key sits at some index. */
  lemma {:induction false} KeyIndex(c: Counter, k: String) returns (i: nat)
    requires k in Keys(c)
    ensures i < |c| && c[i].0 == k
  {
    if c[0].0 == k {
      i := 0;
    } else {
      var t := KeyIndex(c[1..], k);
      i := t + 1;
    }
  }

  /** `c[k] = v` on a dict: an existing key keeps its place, a new one is appended. */
  function SetKey(c: Counter, k: String, v: nat): (r: Counter)
    ensures k !in Keys(c) ==> r == c + [(k, v)]
  {
    if c == [] then [(k, v)]
    else if c[0].0 == k then [(k, v)] + c[1..]
    else [c[0]] + SetKey(c[1..], k, v)
  }

  lemma {:induction false} KeysAppend(c: Counter, e: (String, nat))
    ensures Keys(c + [e]) == Keys(c) + {e.0}
  {
    if c != [] {
      assert (c + [e])[1..] == c[1..] + [e];
      KeysAppend(c[1..], e);
    }
  }

  lemma {:induction false} DistinctSplit(s: Counter, i: nat)
    requires KeysDistinct(s) && i < |s|
    ensures s[i].0 !in Keys(s[..i])
  {
    if i > 0 {
      assert s[..i][1..] == s[1..][..i - 1];
      KeysMember(s[1..], i - 1);
      DistinctSplit(s[1..], i - 1);
    }
  }

  // ---------------------------------------------------------- the four kinds

  /** `{"num": Counter(), "str": Counter(), "char": Counter(), "regex": Counter()}`. */
  datatype LitCounts = LitCounts(num: Counter, str: Counter, chr: Counter, regex: Counter) {
    predicate Valid() {
      KeysDistinct(num) && KeysDistinct(str) && KeysDistinct(chr) && KeysDistinct(regex)
    }
  }

  const NoLits: LitCounts := LitCounts([], [], [], [])

  /** One `lits` dict added to the counters, kind by kind. */
  function UpdateOne(c: LitCounts, lits: LitCounts): (r: LitCounts)
    ensures c.Valid() ==> r.Valid()
  {
    LitCounts(UpdateWith(c.num, lits.num), UpdateWith(c.str, lits.str),
              UpdateWith(c.chr, lits.chr), UpdateWith(c.regex, lits.regex))
  }

  /** The counters after `update(litses)`. */
  function UpdateAll(c: LitCounts, litses: seq<LitCounts>): (r: LitCounts)
    ensures c.Valid() ==> r.Valid()
  {
    if litses == [] then c else UpdateOne(UpdateAll(c, litses[..|litses| - 1]), litses[|litses| - 1])
  }

  function PruneAll(c: LitCounts, keep: int): LitCounts {
    LitCounts(MostCommon(c.num, keep), MostCommon(c.str, keep), MostCommon(c.chr, keep), MostCommon(c.regex, keep))
  }

  function KeyList(c: Counter): (r: seq<String>)
    ensures |r| == |c| && forall i :: 0 <= i < |c| ==> r[i] == c[i].0
  {
    if c == [] then [] else [c[0].0] + KeyList(c[1..])
  }

  // --------------------------------------------------------- quote extraction

  /** Where `.*` stops: the first "\n" at or after `p`, or the end. */
  function LineEnd(s: String, p: nat): (r: nat)
    requires p <= |s|
    ensures p <= r <= |s| && (forall i :: p <= i < r ==> s[i] != '\n') && (r < |s| ==> s[r] == '\n')
    decreases |s| - p
  {
    if p == |s| || s[p] == '\n' then p else LineEnd(s, p + 1)
  }

  /** The greedy `(.*)(?=Q)` from `p`: the last `e` in `p..lim` where `q` occurs. */
  function LastClose(s: String, q: String, p: nat, lim: nat): (r: Option<nat>)
    requires p <= lim <= |s|
    ensures r.Some? ==> p <= r.value <= lim && At(s, q, r.value) && forall y :: r.value < y <= lim ==> !At(s, q, y)
    ensures r.None? ==> forall y :: p <= y <= lim ==> !At(s, q, y)
    decreases lim - p
  {
    if At(s, q, lim) then Some(lim) else if lim == p then None else LastClose(s, q, p, lim - 1)
  }

  /** `re.search("(?<=Q)(.*)(?=Q)", s)` with the search starting at `p`: the
      first position after an occurrence of `q` from which a later `q` on the
      same line is reachable, and the text up to the last such `q`. */
  function SearchFrom(s: String, q: String, p: nat): (r: Option<String>)
    requires p <= |s|
    ensures r.Some? ==> '\n' !in r.value
    decreases |s| - p
  {
    var here :=
      if p >= |q| && At(s, q, p - |q|) then
        match LastClose(s, q, p, LineEnd(s, p))
        case Some(e) => Some(s[p..e])
        case None => None
      else None;
    if here.Some? then here else if p == |s| then None else SearchFrom(s, q, p + 1)
  }

  /** The loop over the quote patterns: the first pattern that matches. */
  function FirstMatch(s: String, quotes: seq<String>): (r: Option<String>)
    ensures r.Some? ==> '\n' !in r.value
  {
    if quotes == [] then None
    else match SearchFrom(s, quotes[0], 0)
      case Some(v) => Some(v)
      case None => FirstMatch(s, quotes[1..])
  }

  const StrQuotes: seq<String> := ["\"\"\"", "'''", "'", "\""]
  const CharQuotes: seq<String> := ["'", "\""]

  lemma {:induction false} SearchNone(s: String, q: String, p: nat)
    requires p <= |s| && forall i :: 0 <= i <= |s| ==> !At(s, q, i)
    ensures SearchFrom(s, q, p) == None
    decreases |s| - p
  {
    if p < |s| {
      SearchNone(s, q, p + 1);
    }
  }

  lemma {:induction false} SearchSkip(s: String, q: String, p: nat)
    requires p <= |q| <= |s|
    ensures SearchFrom(s, q, p) == SearchFrom(s, q, |q|)
    decreases |q| - p
  {
    if p < |q| {
      SearchSkip(s, q, p + 1);
    }
  }

  /** Between two copies of a quote with no line break, the pattern for that
      quote finds exactly the text in between. */
  lemma SearchQuoted(q: String, v: String)
    requires q != [] && '\n' !in q && '\n' !in v
    ensures SearchFrom(q + v + q, q, 0) == Some(v)
  {
    var s := q + v + q;
    SearchSkip(s, q, 0);
    assert At(s, q, 0) by { assert s[..|q|] == q; }
    assert forall i :: 0 <= i < |s| ==> s[i] != '\n' by {
      forall i | 0 <= i < |s| ensures s[i] != '\n' {
        if i < |q| { assert s[i] == q[i]; }
        else if i < |q| + |v| { assert s[i] == v[i - |q|]; }
        else { assert s[i] == q[i - |q| - |v|]; }
      }
    }
    assert LineEnd(s, |q|) == |s|;
    var e := |q| + |v|;
    assert At(s, q, e) by { assert s[e..e + |q|] == q; }
    assert LastClose(s, q, |q|, |s|) == Some(e) by { LastCloseIs(s, q, |q|, |s|, e); }
    assert s[|q|..e] == v;
  }

  lemma {:induction false} LastCloseIs(s: String, q: String, p: nat, lim: nat, e: nat)
    requires p <= e <= lim <= |s| && At(s, q, e) && forall y :: e < y <= lim ==> !At(s, q, y)
    ensures LastClose(s, q, p, lim) == Some(e)
    decreases lim - p
  {
    if lim > e {
      LastCloseIs(s, q, p, lim - 1, e);
    }
  }

  /** A double-quoted literal `"v"` whose text has no quote and no line break
      yields `v`. */
  lemma DoubleQuotedValue(v: String)
    requires '"' !in v && '\'' !in v && '\n' !in v
    ensures FirstMatch("\"" + v + "\"", StrQuotes) == Some(v)
  {
    var s := "\"" + v + "\"";
    assert forall i :: 0 <= i <= |s| ==> !At(s, "\"\"\"", i) by {
      forall i | 0 <= i <= |s| ensures !At(s, "\"\"\"", i) {
        if i + 3 <= |s| { assert s[i..i + 3][1] == s[i + 1] == v[i]; }
      }
    }
    assert forall i :: 0 <= i < |s| ==> s[i] != '\'' by {
      forall i | 0 <= i < |s| ensures s[i] != '\'' {
        if 0 < i < |s| - 1 { assert s[i] == v[i - 1]; }
      }
    }
    assert forall i :: 0 <= i <= |s| ==> !At(s, "'''", i) && !At(s, "'", i) by {
      forall i | 0 <= i <= |s| ensures !At(s, "'''", i) && !At(s, "'", i) {
        if i < |s| { assert |s[i..]| > 0 && s[i..][0] == s[i]; }
      }
    }
    SearchNone(s, "\"\"\"", 0);
    SearchNone(s, "'''", 0);
    SearchNone(s, "'", 0);
    SearchQuoted("\"", v);
    assert StrQuotes[0] == "\"\"\"" && StrQuotes[1..][0] == "'''" && StrQuotes[1..][1..][0] == "'";
    assert StrQuotes[1..][1..][1..] == ["\""];
    assert FirstMatch(s, StrQuotes[1..][1..][1..]) == Some(v);
    assert FirstMatch(s, StrQuotes[1..][1..]) == Some(v);
    assert FirstMatch(s, StrQuotes[1..]) == Some(v);
  }

  // ------------------------------------------------------------- count_lits

  /** The escapes of ' ' and ',' that keep counted values free of both. */
  function EscapeSpaceComma(v: String): (r: String)
    ensures ' ' !in r && ',' !in r
  {
    var a := Replace(v, " ", "U+0020");
    ReplaceRemovesChar(v, ' ', "U+0020");
    ReplaceKeepsOut(a, ",", "U+002C", ' ');
    ReplaceRemovesChar(a, ',', "U+002C");
    Replace(a, ",", "U+002C")
  }

  /** A regex token is counted when it is short and has no space. */
  predicate CountedRegex(token: String) {
    0 < |token| < 25 && ' ' !in token
  }

  /** The counters after one `(token, tp)` pair. */
  function CountStep(lits: LitCounts, token: String, tp: String, lt: LitTypes): (r: LitCounts)
    ensures lits.Valid() ==> r.Valid()
  {
    if tp in lt.numTypes then lits.(num := Add(lits.num, token, 1))
    else if tp in lt.strTypes then
      match FirstMatch(token, StrQuotes)
      case Some(v) => if 0 < |v| <= 25 then lits.(str := Add(lits.str, EscapeSpaceComma(v), 1)) else lits
      case None => lits
    else if tp in lt.charTypes then
      match FirstMatch(token, CharQuotes)
      case Some(v) => lits.(chr := Add(lits.chr, EscapeSpaceComma(v), 1))
      case None => lits
    else if tp in lt.regexTypes then
      if CountedRegex(token) then lits.(regex := Add(lits.regex, token, 1)) else lits
    else lits
  }

  /** The counters after the first `n` pairs of `zip(tokens, types)`. */
  function CountFold(tokens: seq<String>, types: seq<String>, lt: LitTypes, n: nat): (r: LitCounts)
    requires n <= |tokens| && n <= |types|
    ensures r.Valid()
  {
    if n == 0 then NoLits else CountStep(CountFold(tokens, types, lt, n - 1), tokens[n - 1], types[n - 1], lt)
  }

  function MinLen(a: nat, b: nat): nat { if a <= b then a else b }

  /** `count_lits(code)` for the parse tree `root` of `code`. */
  function CountSpec(code: String, root: Node, lang: Language, tokenLimit: int): LitCounts {
    if CountChar(CollapseNewlines(code), '\n') < 2 then NoLits
    else match NodeTokens(root, false, None)
      case Err(_) => NoLits
      case Ok(es) => CountEntries(code, Positions(es), Kinds(es), lang, tokenLimit)
  }

  /** The steps of `count_lits` after `get_tokens`. */
  function CountEntries(code: String, ps: seq<Pos>, ts: seq<String>, lang: Language, tokenLimit: int): LitCounts {
    if |ps| > tokenLimit then NoLits
    else match FileTokens.FileTokens(code, ps, ts, true)
      case Err(_) => NoLits
      case Ok(t) =>
        match LangLits(lang)
        case None => NoLits
        case Some(lt) => CountFold(t.code, t.types, lt, MinLen(|t.code|, |t.types|))
  }

  /** How many of the first `n` pairs have a type in `kinds` and text `k`. */
  function Occurrences(tokens: seq<String>, types: seq<String>, kinds: seq<String>, k: String, n: nat): nat
    requires n <= |tokens| && n <= |types|
  {
    if n == 0 then 0
    else Occurrences(tokens, types, kinds, k, n - 1) + (if types[n - 1] in kinds && tokens[n - 1] == k then 1 else 0)
  }

  /** Each number literal's count is the number of times it occurs. */
  lemma {:induction false} NumCountsOccurrences(tokens: seq<String>, types: seq<String>, lt: LitTypes, k: String, n: nat)
    requires n <= |tokens| && n <= |types|
    ensures Get(CountFold(tokens, types, lt, n).num, k) == Occurrences(tokens, types, lt.numTypes, k, n)
  {
    if n > 0 {
      NumCountsOccurrences(tokens, types, lt, k, n - 1);
      NumStep(CountFold(tokens, types, lt, n - 1), tokens[n - 1], types[n - 1], lt, k);
    }
  }

  lemma NumStep(lits: LitCounts, token: String, tp: String, lt: LitTypes, k: String)
    ensures Get(CountStep(lits, token, tp, lt).num, k)
      == Get(lits.num, k) + (if tp in lt.numTypes && token == k then 1 else 0)
  {
  }

  /** What a counted entry can look like: string and char values carry no
      space or comma, regex values are short and space-free. */
  lemma {:induction false} CountedShapes(tokens: seq<String>, types: seq<String>, lt: LitTypes, n: nat)
    requires n <= |tokens| && n <= |types|
    ensures Shaped(CountFold(tokens, types, lt, n))
  {
    if n > 0 {
      CountedShapes(tokens, types, lt, n - 1);
      StepShaped(CountFold(tokens, types, lt, n - 1), tokens[n - 1], types[n - 1], lt);
    }
  }

  predicate Escaped(c: Counter) {
    forall k :: k in Keys(c) ==> ' ' !in k && ',' !in k
  }

  predicate Shaped(r: LitCounts) {
    Escaped(r.str) && Escaped(r.chr) && forall k :: k in Keys(r.regex) ==> CountedRegex(k)
  }

  lemma StepShaped(lits: LitCounts, token: String, tp: String, lt: LitTypes)
    requires Shaped(lits)
    ensures Shaped(CountStep(lits, token, tp, lt))
  {
  }

  /** Code with fewer than two line breaks once blank runs are collapsed, or
      with more tokens than the limit, counts nothing. */
  lemma CountSpecEmpty(code: String, root: Node, lang: Language, tokenLimit: int)
    requires CountChar(CollapseNewlines(code), '\n') < 2
      || (NodeTokens(root, false, None).Ok? && |NodeTokens(root, false, None).value| > tokenLimit)
    ensures CountSpec(code, root, lang, tokenLimit) == NoLits
  {
  }

  /** With `preserve_statement` off, `get_tokens` never raises. */
  lemma {:induction false} PlainTokensOk(n: Node)
    ensures NodeTokens(n, false, None).Ok?
    decreases n, 1
  {
    if !n.IsLeaf() && !IsAtomic(n.kind) {
      PlainChildrenOk(n, |n.children|);
    }
  }

  lemma {:induction false} PlainChildrenOk(n: Node, i: nat)
    requires i <= |n.children|
    ensures ChildrenTokens(n, i, false, None).Ok?
    decreases n, 0, i
  {
    if i > 0 {
      PlainChildrenOk(n, i - 1);
      PlainTokensOk(n.children[i - 1]);
    }
  }

  // ---------------------------------------------------------------- the class

  class LiteralCount {
    const lang: Language
    const tokenLimit: int
    var litsCounter: LitCounts

    predicate Valid()
      reads this
    {
      litsCounter.Valid()
    }

    /** `LiteralCount(lang, token_limit)` with no file to load. */
    constructor (lang: Language, tokenLimit: int)
      ensures this.lang == lang && this.tokenLimit == tokenLimit && litsCounter == NoLits && Valid()
    {
      this.lang := lang;
      this.tokenLimit := tokenLimit;
      litsCounter := NoLits;
    }

    method CountLits(code: String, root: Node) returns (lits: LitCounts)
      ensures lits == CountSpec(code, root, lang, tokenLimit)
    {
      lits := NoLits;
      if CountChar(CollapseNewlines(code), '\n') < 2 {
        return;
      }
      var stream := new TokenStream();
      var err := stream.GetTokens(root, false, None);
      if err.Some? {
        return;
      }
      ghost var es := NodeTokens(root, false, None).value;
      assert stream.positions == Positions(es) && stream.types == Kinds(es) by {
        assert [] + Positions(es) == Positions(es) && [] + Kinds(es) == Kinds(es);
      }
      lits := CountCollected(code, stream.positions, stream.types, lang, tokenLimit);
    }

    /** `update(litses)`. */
    method Update(litses: seq<LitCounts>)
      requires Valid()
      modifies this
      ensures litsCounter == UpdateAll(old(litsCounter), litses) && Valid()
    {
      var i := 0;
      while i < |litses|
        invariant i <= |litses| && litsCounter == UpdateAll(old(litsCounter), litses[..i])
        invariant Valid()
      {
        assert litses[..i + 1][..i] == litses[..i];
        var lits := litses[i];
        litsCounter := LitCounts(
          UpdateWith(litsCounter.num, lits.num), UpdateWith(litsCounter.str, lits.str),
          UpdateWith(litsCounter.chr, lits.chr), UpdateWith(litsCounter.regex, lits.regex));
        i := i + 1;
      }
      assert litses[..i] == litses;
    }

    /** `prune(keep_num)`. */
    method Prune(keepNum: int)
      requires Valid()
      modifies this
      ensures litsCounter == PruneAll(old(litsCounter), keepNum) && Valid()
    {
      var num := PruneCounter(litsCounter.num, keepNum);
      var str := PruneCounter(litsCounter.str, keepNum);
      var chr := PruneCounter(litsCounter.chr, keepNum);
      var regex := PruneCounter(litsCounter.regex, keepNum);
      PruneAllValid(litsCounter, keepNum);
      litsCounter := LitCounts(num, str, chr, regex);
    }

    /** `get_top_lits(...)`: the keys of each kind's `most_common`. */
    function GetTopLits(numKeep: int, strKeep: int, charKeep: int, regexKeep: int): (r: map<String, seq<String>>)
      reads this
      ensures r.Keys == {"num", "str", "char", "regex"}
      ensures r["num"] == KeyList(MostCommon(litsCounter.num, numKeep))
      ensures r["str"] == KeyList(MostCommon(litsCounter.str, strKeep))
      ensures r["char"] == KeyList(MostCommon(litsCounter.chr, charKeep))
      ensures r["regex"] == KeyList(MostCommon(litsCounter.regex, regexKeep))
    {
      map["num" := KeyList(MostCommon(litsCounter.num, numKeep)),
          "str" := KeyList(MostCommon(litsCounter.str, strKeep)),
          "char" := KeyList(MostCommon(litsCounter.chr, charKeep)),
          "regex" := KeyList(MostCommon(litsCounter.regex, regexKeep))]
    }
  }

  lemma PruneAllValid(c: LitCounts, keep: int)
    requires c.Valid()
    ensures PruneAll(c, keep).Valid()
  {
    PruneKeepsCounts(c.num, keep);
    PruneKeepsCounts(c.str, keep);
    PruneKeepsCounts(c.chr, keep);
    PruneKeepsCounts(c.regex, keep);
  }

  /** `count_lits` from the length check on: `_file_tokenizer`, then the loop. */
  method CountCollected(code: String, positions: seq<Pos>, types: seq<String>, lang: Language, tokenLimit: int)
    returns (lits: LitCounts)
    ensures lits == CountEntries(code, positions, types, lang, tokenLimit)
  {
    lits := NoLits;
    if |positions| > tokenLimit {
      return;
    }
    var e2, _, tokens, tps := FileTokenizer(code, positions, types, true);
    if e2.Some? {
      return;
    }
    var table := LangLits(lang);
    if table.None? {
      return;
    }
    lits := CountTokens(tokens, tps, table.value);
  }

  /** The counting loop of `count_lits`. */
  method CountTokens(tokens: seq<String>, types: seq<String>, lt: LitTypes) returns (lits: LitCounts)
    ensures lits == CountFold(tokens, types, lt, MinLen(|tokens|, |types|))
  {
    lits := NoLits;
    var i := 0;
    while i < MinLen(|tokens|, |types|)
      invariant i <= MinLen(|tokens|, |types|) && lits == CountFold(tokens, types, lt, i)
    {
      CountFoldStep(tokens, types, lt, i);
      lits := CountStep(lits, tokens[i], types[i], lt);
      i := i + 1;
    }
  }

  lemma CountFoldStep(tokens: seq<String>, types: seq<String>, lt: LitTypes, i: nat)
    requires i < |tokens| && i < |types|
    ensures CountFold(tokens, types, lt, i + 1) == CountStep(CountFold(tokens, types, lt, i), tokens[i], types[i], lt)
  {
  }

  /** One kind of `prune`: `most_common`, `clear`, then every kept entry
      written back in order. */
  method PruneCounter(c: Counter, keep: int) returns (r: Counter)
    requires KeysDistinct(c)
    ensures r == MostCommon(c, keep)
  {
    var kvs := MostCommon(c, keep);
    PruneKeepsCounts(c, keep);
    r := Rebuild(kvs);
  }

  /** Writing distinct-keyed entries one by one into an empty dict gives them back. */
  method Rebuild(kvs: Counter) returns (r: Counter)
    requires KeysDistinct(kvs)
    ensures r == kvs
  {
    r := [];
    var i := 0;
    while i < |kvs|
      invariant i <= |kvs| && r == kvs[..i]
    {
      PrefixKeys(kvs, i);
      DistinctSplit(kvs, i);
      assert kvs[..i + 1] == kvs[..i] + [kvs[i]];
      r := SetKey(r, kvs[i].0, kvs[i].1);
      i := i + 1;
    }
    assert kvs[..i] == kvs;
  }
}
