/** The crawler's pure helpers (`fmt_num`, `add_part_to_name`) and the
    first-seen deduplication of parsed files by file hash. */
module Crawler {
  import opened Wrappers
  import opened Text

  // ---------------------------------------------------------------------
  // fmt_num

  function DigitChar(d: nat): (c: char)
    requires d < 10
    ensures '0' <= c <= '9'
  {
    ('0' as int + d) as char
  }

  /** The decimal digits of `n`, most significant first ("0" for zero). */
  function Digits(n: nat): (r: String)
    ensures |r| >= 1 && forall i :: 0 <= i < |r| ==> '0' <= r[i] <= '9'
  {
    if n < 10 then [DigitChar(n)] else Digits(n / 10) + [DigitChar(n % 10)]
  }

  /** `str(n)` for an integer. */
  function Str(n: int): (r: String)
    ensures |r| >= 1 && ',' !in r
  {
    if n < 0 then "-" + Digits(-n) else Digits(n)
  }

  /** The three-character slices `s[i:i+3]` for i in range(i, len(s), 3). */
  function Chunks(s: String, i: nat): (r: seq<String>)
    requires i <= |s| && (|s| - i) % 3 == 0
    ensures forall k :: 0 <= k < |r| ==> |r[k]| == 3
    decreases |s| - i
  {
    if i == |s| then [] else [s[i..i + 3]] + Chunks(s, i + 3)
  }

  /** The digit groups of `fmt_num`: a short leading group of `len % 3`
      characters when that is not zero, then groups of three. */
  function Groups(s: String): seq<String> {
    var lead := |s| % 3;
    (if lead != 0 then [s[..lead]] else []) + Chunks(s, lead)
  }

  /** `fmt_num(n)`. */
  function FmtNum(n: int): String {
    Join(",", Groups(Str(n)))
  }

  /** The concatenation of a list of strings. */
  function Concat(parts: seq<String>): String {
    if parts == [] then [] else parts[0] + Concat(parts[1..])
  }

  /** `s` with every occurrence of `c` removed. */
  function Without(s: String, c: char): (r: String)
    ensures c !in r
  {
    if s == [] then [] else (if s[0] == c then [] else [s[0]]) + Without(s[1..], c)
  }

  lemma {:induction false} WithoutConcat(a: String, b: String, c: char)
    ensures Without(a + b, c) == Without(a, c) + Without(b, c)
  {
    if a != [] {
      assert (a + b)[1..] == a[1..] + b;
      WithoutConcat(a[1..], b, c);
    } else {
      assert a + b == b;
    }
  }

  lemma {:induction false} WithoutAbsent(s: String, c: char)
    requires c !in s
    ensures Without(s, c) == s
  {
    if s != [] {
      assert s[1..] == s[1..];
      assert c !in s[1..] by { assert forall i :: 0 <= i < |s[1..]| ==> s[1..][i] == s[i + 1]; }
      WithoutAbsent(s[1..], c);
    }
  }

  lemma {:induction false} WithoutJoin(parts: seq<String>, c: char)
    requires forall k :: 0 <= k < |parts| ==> c !in parts[k]
    ensures Without(Join([c], parts), c) == Concat(parts)
  {
    if |parts| == 1 {
      WithoutAbsent(parts[0], c);
      assert Concat(parts) == parts[0] + Concat([]);
    } else if |parts| > 1 {
      WithoutJoin(parts[1..], c);
      WithoutConcat(parts[0] + [c], Join([c], parts[1..]), c);
      WithoutConcat(parts[0], [c], c);
      WithoutAbsent(parts[0], c);
      assert Without([c], c) == [];
    }
  }

  lemma {:induction false} ConcatChunks(s: String, i: nat)
    requires i <= |s| && (|s| - i) % 3 == 0
    ensures Concat(Chunks(s, i)) == s[i..]
    decreases |s| - i
  {
    if i < |s| {
      ConcatChunks(s, i + 3);
      assert s[i..] == s[i..i + 3] + s[i + 3..];
    }
  }

  lemma ConcatGroups(s: String)
    ensures Concat(Groups(s)) == s
  {
    var lead := |s| % 3;
    ConcatChunks(s, lead);
    if lead != 0 {
      assert Groups(s)[1..] == Chunks(s, lead);
      assert s == s[..lead] + s[lead..];
    } else {
      assert Groups(s) == Chunks(s, 0);
      assert s[0..] == s;
    }
  }

  /** Removing the commas from `fmt_num(n)` gives back `str(n)`. */
  lemma FmtNumRoundTrip(n: int)
    ensures Without(FmtNum(n), ',') == Str(n)
  {
    var s := Str(n);
    var g := Groups(s);
    forall k | 0 <= k < |g| ensures ',' !in g[k] {
      var lead := |s| % 3;
      if lead != 0 && k == 0 {
        assert g[0] == s[..lead];
        assert forall j :: 0 <= j < |g[0]| ==> g[0][j] == s[j];
      } else {
        var ci := if lead != 0 then k - 1 else k;
        ChunkFrom(s, lead, ci);
        assert g[k] == Chunks(s, lead)[ci];
      }
    }
    WithoutJoin(g, ',');
    ConcatGroups(s);
  }

  /** Each chunk is a slice of `s`. */
  lemma {:induction false} ChunkFrom(s: String, i: nat, k: nat)
    requires i <= |s| && (|s| - i) % 3 == 0 && k < |Chunks(s, i)|
    ensures i + 3 * k + 3 <= |s| && Chunks(s, i)[k] == s[i + 3 * k..i + 3 * k + 3]
    decreases |s| - i
  {
    if k > 0 {
      ChunkFrom(s, i + 3, k - 1);
    }
  }

  /** Every group after the first has exactly three characters, and the
      first has one to three. */
  lemma FmtNumGroupSizes(n: int)
    ensures Groups(Str(n)) != []
    ensures 1 <= |Groups(Str(n))[0]| <= 3
    ensures forall k :: 0 < k < |Groups(Str(n))| ==> |Groups(Str(n))[k]| == 3
  {
    var s := Str(n);
    var lead := |s| % 3;
    if lead == 0 {
      assert Chunks(s, 0) != [];
    } else {
      assert Groups(s)[1..] == Chunks(s, lead);
      forall k | 0 < k < |Groups(s)| ensures |Groups(s)[k]| == 3 {
        assert Groups(s)[k] == Chunks(s, lead)[k - 1];
      }
    }
  }

  // ---------------------------------------------------------------------
  // ProcessResults.add_part_to_name

  /** `add_part_to_name(name, part)`: a falsy `part` (None or 0) leaves the
      name alone; otherwise "-part-{part}" is appended to the text before the
      first ".". */
  function AddPartToName(name: String, part: Option<int>): String {
    if part.None? || part.value == 0 then name else TagFirstPart(name, "-part-" + Str(part.value))
  }

  /** `".".join` of the "."-split name, with `tag` added to its first piece. */
  function TagFirstPart(name: String, tag: String): String {
    var dotsplit := Split(name, '.');
    Join(".", dotsplit[0 := dotsplit[0] + tag])
  }

  /** The position of the first ".", or the length of the name. */
  function FirstDot(name: String): (k: nat)
    ensures k <= |name| && '.' !in name[..k] && (k < |name| ==> name[k] == '.')
  {
    match IndexOfChar(name, '.') case Some(i) => i case None => assert name[..|name|] == name; |name|
  }

  /** Joining a list whose head is `a` puts `a` and a separator in front of
      the join of the rest. */
  lemma JoinCons(sep: String, a: String, rest: seq<String>)
    requires rest != []
    ensures Join(sep, [a] + rest) == a + sep + Join(sep, rest)
  {
    assert ([a] + rest)[1..] == rest;
  }

  /** The tag goes just before the first ".", or at the end. */
  lemma TagFirstPartMeaning(name: String, tag: String)
    ensures TagFirstPart(name, tag) == name[..FirstDot(name)] + tag + name[FirstDot(name)..]
  {
    match IndexOfChar(name, '.')
    case None =>
      assert Split(name, '.') == [name];
      assert name[..|name|] == name && name[|name|..] == [];
    case Some(i) =>
      var rest := Split(name[i + 1..], '.');
      var d := Split(name, '.');
      assert d == [name[..i]] + rest;
      JoinSplit(name[i + 1..], '.');
      assert d[0 := d[0] + tag] == [name[..i] + tag] + rest;
      JoinCons(".", name[..i] + tag, rest);
      assert name[i..] == "." + name[i + 1..];
  }

  /** A falsy part leaves the name alone; any other is tagged in before the
      first ".". */
  lemma AddPartToNameMeaning(name: String, part: Option<int>)
    ensures part.None? || part == Some(0) ==> AddPartToName(name, part) == name
    ensures part.Some? && part.value != 0 ==>
      AddPartToName(name, part) == name[..FirstDot(name)] + "-part-" + Str(part.value) + name[FirstDot(name)..]
  {
    if part.Some? && part.value != 0 {
      TagFirstPartMeaning(name, "-part-" + Str(part.value));
    }
  }

  // ---------------------------------------------------------------------
  // Deduplicate

  /** A parsed file as the deduplicator sees it. */
  datatype Item = Item(fileHash: String, url: String, relativePath: String)

  /** The url and path of the first copy of a file. */
  datatype Copy = Copy(url: String, relativePath: String)

  /** One observer batch: a result list per observer, and the
      `statistics["duplicate_items"]` and "error_msgs" entries. */
  datatype Output = Output(results: seq<seq<Item>>, duplicateItems: int, errorMsgs: seq<String>)

  /** The deduplicator's state: `seenfiles` (with its insertion order) and
      `duplicates`. */
  datatype Tally = Tally(seen: map<String, nat>, order: seq<String>, firstCopy: map<String, Copy>)

  /** What visiting one result does to the state. */
  function Step(t: Tally, it: Item): Tally {
    var h := it.fileHash;
    if h in t.seen then t.(seen := t.seen[h := t.seen[h] + 1])
    else Tally(t.seen[h := 1], t.order + [h], t.firstCopy[h := Copy(it.url, it.relativePath)])
  }

  function Fold(t: Tally, items: seq<Item>): Tally {
    if items == [] then t else Step(Fold(t, items[..|items| - 1]), items[|items| - 1])
  }

  /** The results kept: those whose hash had not been seen when they came. */
  function Kept(t: Tally, items: seq<Item>): (r: seq<Item>)
    ensures |r| <= |items|
  {
    if items == [] then []
    else
      var last := items[|items| - 1];
      Kept(t, items[..|items| - 1]) + (if last.fileHash in Fold(t, items[..|items| - 1]).seen then [] else [last])
  }

  /** How many results were repeats. */
  function Repeats(t: Tally, items: seq<Item>): (r: nat)
  {
    if items == [] then 0
    else
      var last := items[|items| - 1];
      Repeats(t, items[..|items| - 1]) + (if last.fileHash in Fold(t, items[..|items| - 1]).seen then 1 else 0)
  }

  /** The state after the batches `gs`, observer by observer. */
  function FoldGroups(t: Tally, gs: seq<seq<Item>>): Tally {
    if gs == [] then t else Fold(FoldGroups(t, gs[..|gs| - 1]), gs[|gs| - 1])
  }

  function KeptGroups(t: Tally, gs: seq<seq<Item>>): (r: seq<seq<Item>>)
    ensures |r| == |gs|
  {
    if gs == [] then []
    else KeptGroups(t, gs[..|gs| - 1]) + [Kept(FoldGroups(t, gs[..|gs| - 1]), gs[|gs| - 1])]
  }

  function RepeatGroups(t: Tally, gs: seq<seq<Item>>): nat {
    if gs == [] then 0
    else RepeatGroups(t, gs[..|gs| - 1]) + Repeats(FoldGroups(t, gs[..|gs| - 1]), gs[|gs| - 1])
  }

  function Flatten(gs: seq<seq<Item>>): seq<Item> {
    if gs == [] then [] else Flatten(gs[..|gs| - 1]) + gs[|gs| - 1]
  }

  lemma {:induction false} FoldAppend(t: Tally, a: seq<Item>, b: seq<Item>)
    ensures Fold(t, a + b) == Fold(Fold(t, a), b)
    ensures Kept(t, a + b) == Kept(t, a) + Kept(Fold(t, a), b)
    ensures Repeats(t, a + b) == Repeats(t, a) + Repeats(Fold(t, a), b)
    decreases |b|
  {
    if b == [] {
      assert a + b == a;
    } else {
      var b' := b[..|b| - 1];
      assert (a + b)[..|a + b| - 1] == a + b';
      FoldAppend(t, a, b');
    }
  }

  /** Processing observer by observer is processing the concatenation of
      their results. */
  lemma {:induction false} GroupsFlatten(t: Tally, gs: seq<seq<Item>>)
    ensures FoldGroups(t, gs) == Fold(t, Flatten(gs))
    ensures Flatten(KeptGroups(t, gs)) == Kept(t, Flatten(gs))
    ensures RepeatGroups(t, gs) == Repeats(t, Flatten(gs))
  {
    if gs != [] {
      var init := gs[..|gs| - 1];
      GroupsFlatten(t, init);
      FoldAppend(t, Flatten(init), gs[|gs| - 1]);
      assert KeptGroups(t, gs)[..|gs| - 1] == KeptGroups(t, init);
    }
  }

  function Hashes(items: seq<Item>): (r: seq<String>)
    ensures |r| == |items| && forall k :: 0 <= k < |r| ==> r[k] == items[k].fileHash
  {
    seq(|items|, k requires 0 <= k < |items| => items[k].fileHash)
  }

  function Count(items: seq<Item>, h: String): nat {
    if items == [] then 0
    else Count(items[..|items| - 1], h) + (if items[|items| - 1].fileHash == h then 1 else 0)
  }

  /** Every result is kept or counted as a repeat. */
  lemma {:induction false} KeptPlusRepeats(t: Tally, items: seq<Item>)
    ensures |Kept(t, items)| + Repeats(t, items) == |items|
  {
    if items != [] {
      KeptPlusRepeats(t, items[..|items| - 1]);
    }
  }

  /** Each hash's count grows by its number of occurrences, a new hash is
      appended to the order, and the first copy of a new hash is recorded. */
  lemma {:induction false} FoldCounts(t: Tally, items: seq<Item>, h: String)
    requires t.seen.Keys == t.firstCopy.Keys
    ensures h in Fold(t, items).seen <==> h in t.seen || h in Hashes(items)
    ensures h in Fold(t, items).seen ==>
      Fold(t, items).seen[h] == (if h in t.seen then t.seen[h] else 0) + Count(items, h)
    ensures h in t.firstCopy ==> h in Fold(t, items).firstCopy && Fold(t, items).firstCopy[h] == t.firstCopy[h]
  {
    if items != [] {
      var init := items[..|items| - 1];
      FoldCounts(t, init, h);
      FoldKeys(t, init);
      if h !in t.seen && h !in Hashes(init) {
        CountAbsent(init, h);
      }
      assert Hashes(items) == Hashes(init) + [items[|items| - 1].fileHash];
    }
  }

  lemma {:induction false} CountAbsent(items: seq<Item>, h: String)
    requires h !in Hashes(items)
    ensures Count(items, h) == 0
  {
    if items != [] {
      var init := items[..|items| - 1];
      assert Hashes(init) == Hashes(items)[..|init|];
      CountAbsent(init, h);
    }
  }

  /** The order gains exactly the hashes of the kept results. */
  lemma {:induction false} FoldOrder(t: Tally, items: seq<Item>)
    ensures Fold(t, items).order == t.order + Hashes(Kept(t, items))
  {
    if items != [] {
      var init := items[..|items| - 1];
      FoldOrder(t, init);
      var k := Kept(t, init);
      assert Hashes(k + [items[|items| - 1]]) == Hashes(k) + [items[|items| - 1].fileHash];
      assert Hashes(k + []) == Hashes(k);
    }
  }

  /** Only the first result per hash is kept: a kept result's hash was not
      seen before, neither in the earlier state nor earlier in the list, and
      the first copy recorded for it is that result. */
  lemma {:induction false} KeptIsFirst(t: Tally, items: seq<Item>, k: nat)
    requires t.seen.Keys == t.firstCopy.Keys
    requires k < |Kept(t, items)|
    ensures exists p :: (0 <= p < |items| && items[p] == Kept(t, items)[k] &&
      items[p].fileHash !in t.seen && items[p].fileHash !in Hashes(items[..p]) &&
      items[p].fileHash in Fold(t, items).firstCopy &&
      Fold(t, items).firstCopy[items[p].fileHash] == Copy(items[p].url, items[p].relativePath))
  {
    var init := items[..|items| - 1];
    var last := items[|items| - 1];
    FoldKeys(t, init);
    if k < |Kept(t, init)| {
      KeptIsFirst(t, init, k);
      var p :| 0 <= p < |init| && init[p] == Kept(t, init)[k] &&
        init[p].fileHash !in t.seen && init[p].fileHash !in Hashes(init[..p]) &&
        init[p].fileHash in Fold(t, init).firstCopy &&
        Fold(t, init).firstCopy[init[p].fileHash] == Copy(init[p].url, init[p].relativePath);
      FoldCounts(Fold(t, init), [last], init[p].fileHash);
      assert Fold(Fold(t, init), [last]) == Fold(t, items) by {
        assert [last][..0] == [];
      }
      assert items[p] == init[p] && items[..p] == init[..p];
      assert Kept(t, items)[k] == Kept(t, init)[k];
    } else {
      var p := |items| - 1;
      assert Kept(t, items)[k] == last;
      FoldCounts(t, init, last.fileHash);
      assert items[..p] == init;
    }
  }

  lemma {:induction false} FoldKeys(t: Tally, items: seq<Item>)
    requires t.seen.Keys == t.firstCopy.Keys
    ensures Fold(t, items).seen.Keys == Fold(t, items).firstCopy.Keys
  {
    if items != [] {
      FoldKeys(t, items[..|items| - 1]);
    }
  }

  /** A result whose hash was never seen before it is kept. */
  lemma {:induction false} FirstIsKept(t: Tally, items: seq<Item>, p: nat)
    requires t.seen.Keys == t.firstCopy.Keys
    requires p < |items| && items[p].fileHash !in t.seen && items[p].fileHash !in Hashes(items[..p])
    ensures items[p] in Kept(t, items)
  {
    var init := items[..|items| - 1];
    if p < |init| {
      assert init[p] == items[p] && init[..p] == items[..p];
      FirstIsKept(t, init, p);
    } else {
      FoldCounts(t, init, items[p].fileHash);
      assert items[..p] == init;
    }
  }

  /** Every seen hash has its first copy recorded, and `order` lists the
      seen hashes. */
  predicate Consistent(t: Tally) {
    t.seen.Keys == t.firstCopy.Keys &&
    (forall k :: 0 <= k < |t.order| ==> t.order[k] in t.seen) &&
    (forall h :: h in t.seen ==> h in t.order)
  }

  lemma StepConsistent(t: Tally, it: Item)
    requires Consistent(t)
    ensures Consistent(Step(t, it))
  {
  }

  /** How visiting `items[i]` extends the fold, the kept list and the
      repeat count. */
  lemma FoldStep(t: Tally, items: seq<Item>, i: nat)
    requires i < |items|
    ensures Fold(t, items[..i + 1]) == Step(Fold(t, items[..i]), items[i])
    ensures Kept(t, items[..i + 1]) ==
      Kept(t, items[..i]) + (if items[i].fileHash in Fold(t, items[..i]).seen then [] else [items[i]])
    ensures Repeats(t, items[..i + 1]) ==
      Repeats(t, items[..i]) + (if items[i].fileHash in Fold(t, items[..i]).seen then 1 else 0)
  {
    assert items[..i + 1][..i] == items[..i];
  }

  /** `Deduplicate` and its `seenfiles`/`duplicates` dict fields; `order` is
      the insertion order of `seenfiles`. */
  class Deduplicate {
    var seenfiles: map<String, nat>
    var order: seq<String>
    var duplicates: map<String, Copy>

    function State(): Tally
      reads this
    {
      Tally(seenfiles, order, duplicates)
    }

    /** Every seen hash has its first copy recorded, and `order` lists the
        seen hashes. */
    predicate Valid()
      reads this
    {
      Consistent(State())
    }

    constructor()
      ensures Valid() && seenfiles == map[] && order == [] && duplicates == map[]
    {
      seenfiles := map[];
      order := [];
      duplicates := map[];
    }

    /** `process(output)`: keeps the first result per hash across calls,
        counting every repeat in `seenfiles` and `duplicate_items`. */
    method Process(output: Output) returns (r: Output)
      requires Valid()
      modifies this
      ensures Valid()
      ensures State() == FoldGroups(old(State()), output.results)
      ensures r == output.(results := KeptGroups(old(State()), output.results),
                           duplicateItems := output.duplicateItems + RepeatGroups(old(State()), output.results))
    {
      ghost var start := State();
      var results: seq<seq<Item>> := [];
      var dup := output.duplicateItems;
      var groups := output.results;
      for g := 0 to |groups|
        invariant Valid()
        invariant State() == FoldGroups(start, groups[..g])
        invariant results == KeptGroups(start, groups[..g])
        invariant dup == output.duplicateItems + RepeatGroups(start, groups[..g])
      {
        assert groups[..g + 1][..g] == groups[..g];
        var unique, repeats := ProcessGroup(groups[g]);
        results := results + [unique];
        dup := dup + repeats;
      }
      assert groups[..|groups|] == groups;
      r := output.(results := results, duplicateItems := dup);
    }

    /** The inner loop of `process` over one observer's results. */
    method ProcessGroup(items: seq<Item>) returns (unique: seq<Item>, repeats: nat)
      requires Valid()
      modifies this
      ensures Valid()
      ensures State() == Fold(old(State()), items)
      ensures unique == Kept(old(State()), items) && repeats == Repeats(old(State()), items)
    {
      ghost var start := State();
      unique := [];
      repeats := 0;
      for i := 0 to |items|
        invariant Valid()
        invariant State() == Fold(start, items[..i])
        invariant unique == Kept(start, items[..i]) && repeats == Repeats(start, items[..i])
      {
        FoldStep(start, items, i);
        var result := items[i];
        var isNew := Visit(result);
        if isNew {
          unique := unique + [result];
        } else {
          repeats := repeats + 1;
        }
      }
      assert items[..|items|] == items;
    }

    /** The body of the inner loop for one result: count it, and record it
        as the first copy when its hash is new. */
    method Visit(result: Item) returns (isNew: bool)
      requires Valid()
      modifies this
      ensures Valid()
      ensures isNew <==> result.fileHash !in old(seenfiles)
      ensures State() == Step(old(State()), result)
    {
      StepConsistent(State(), result);
      var fileHash := result.fileHash;
      if fileHash in seenfiles {
        seenfiles := seenfiles[fileHash := seenfiles[fileHash] + 1];
        isNew := false;
      } else {
        seenfiles := seenfiles[fileHash := 1];
        order := order + [fileHash];
        duplicates := duplicates[fileHash := Copy(result.url, result.relativePath)];
        isNew := true;
      }
    }

    /** `report_duplicates()`: for every hash seen, in first-seen order, its
        count with the url and path of its first copy. */
    method ReportDuplicates() returns (report: seq<(String, nat, Copy)>)
      requires Valid()
      ensures report == Report(State())
      ensures |report| == |order|
      ensures forall k :: 0 <= k < |order| ==>
        report[k] == (order[k], seenfiles[order[k]], duplicates[order[k]])
    {
      ReportLists(State());
      report := [];
      for i := 0 to |order|
        invariant report == Report(State().(order := order[..i]))
      {
        assert order[..i + 1][..i] == order[..i];
        var fileHash := order[i];
        if fileHash in seenfiles && fileHash in duplicates {
          report := report + [(fileHash, seenfiles[fileHash], duplicates[fileHash])];
        }
      }
      assert order[..|order|] == order;
    }
  }

  /** What `report_duplicates` returns for a state. */
  function Report(t: Tally): seq<(String, nat, Copy)>
    decreases |t.order|
  {
    if t.order == [] then []
    else
      var h := t.order[|t.order| - 1];
      Report(t.(order := t.order[..|t.order| - 1]))
        + (if h in t.seen && h in t.firstCopy then [(h, t.seen[h], t.firstCopy[h])] else [])
  }

  /** Every seen hash is reported once, in order, with its count and first
      copy, when the state's order lists each seen hash. */
  lemma {:induction false} ReportLists(t: Tally)
    requires t.seen.Keys == t.firstCopy.Keys
    requires forall k :: 0 <= k < |t.order| ==> t.order[k] in t.seen
    ensures |Report(t)| == |t.order|
    ensures forall k :: 0 <= k < |t.order| ==>
      Report(t)[k] == (t.order[k], t.seen[t.order[k]], t.firstCopy[t.order[k]])
    decreases |t.order|
  {
    if t.order != [] {
      var t' := t.(order := t.order[..|t.order| - 1]);
      ReportLists(t');
    }
  }
}
