/** Properties of the keyword-script preprocessing in module Keywords: the page URLs of a key,
    the name dictionary, the stopword sets, the token filters and the top-20 selections. */
module KeywordsProps {
  import opened Wrappers
  import opened Strings
  import opened Seqs
  import opened Sorting
  import opened Sheets
  import opened ODicts
  import opened Keywords

  // ---------------------------------------------------------------------------------------
  // Names and URLs

  /** No '天' is directly followed by '为'. */
  predicate NoTianWei(s: string) {
    forall i :: 0 <= i < |s| - 1 ==> !(s[i] == '天' && s[i + 1] == '为')
  }

  /** The first character of a replacement is the replacement text or the first input character. */
  lemma ReplaceHead(s: string)
    requires |s| > 0
    ensures var r := ReplaceAll(s, "天为", "帝");
      |r| > 0 && (r[0] == '帝' || r[0] == s[0])
  {
  }

  /** `replace("天为", "帝")` leaves no "天为" behind. */
  lemma {:induction false} ReplacedNoTianWei(s: string)
    ensures NoTianWei(ReplaceAll(s, "天为", "帝"))
    decreases |s|
  {
    if |s| > 0 {
      if HasPrefix(s, "天为") {
        ReplacedNoTianWei(s[2..]);
      } else {
        var rest := ReplaceAll(s[1..], "天为", "帝");
        ReplacedNoTianWei(s[1..]);
        if |rest| > 0 {
          ReplaceHead(s[1..]);
          if s[0] == '天' {
            assert s[..2] == [s[0], s[1]];
            assert rest[0] != '为';
          }
        }
        assert ReplaceAll(s, "天为", "帝") == [s[0]] + rest;
      }
    }
  }

  /** A piece of a string without "天为" is without it too. */
  lemma NoTianWeiPiece(s: string, a: nat, b: nat)
    requires NoTianWei(s) && a <= b <= |s|
    ensures NoTianWei(s[a..b])
  {
    forall i | 0 <= i < b - a - 1 ensures !(s[a..b][i] == '天' && s[a..b][i + 1] == '为') {
      assert s[a..b][i] == s[a + i] && s[a..b][i + 1] == s[a + i + 1];
    }
  }

  /** Stripping keeps a string free of "天为". */
  lemma StripNoTianWei(u: string)
    requires NoTianWei(u)
    ensures NoTianWei(Strip(u))
  {
    var l := LStrip(u);
    NoTianWeiPiece(u, |u| - |l|, |u|);
    assert l == u[|u| - |l|..|u|];
    var r := RStrip(l);
    NoTianWeiPiece(l, 0, |r|);
    assert r == l[0..|r|];
  }

  /** So does dropping leading copies of a character. */
  lemma LStripCharNoTianWei(u: string, ch: char)
    requires NoTianWei(u)
    ensures NoTianWei(LStripChar(u, ch))
  {
    var p := LStripChar(u, ch);
    NoTianWeiPiece(u, |u| - |p|, |u|);
    assert p == u[|u| - |p|..|u|];
  }

  /** `clean_text` (and the -freq/-LDA key) is stripped, and holds no "天为": every one was
      replaced before the strip, which only removes white space at the ends. */
  lemma CleanTextSpec(text: string)
    ensures Stripped(CleanText(text)) && NoTianWei(CleanText(text))
  {
    ReplacedNoTianWei(RemoveFullwidthParens(text));
    StripNoTianWei(Unbracket(text));
  }

  /** The -textrank key is stripped and holds no "天为". */
  lemma SlashKeySpec(text: string)
    ensures Stripped(SlashKey(text)) && NoTianWei(SlashKey(text))
  {
    ReplacedNoTianWei(RemoveFullwidthParens(text));
    LStripCharNoTianWei(Unbracket(text), '/');
    StripNoTianWei(LStripChar(Unbracket(text), '/'));
  }

  /** Each key maps to one URL per suffix, base + key + suffix, in suffix order. */
  lemma {:induction false} UrlsForSpec(key: string, suffixes: seq<string>)
    ensures |UrlsFor(key, suffixes)| == |suffixes|
    ensures forall j :: 0 <= j < |suffixes| ==> UrlsFor(key, suffixes)[j] == BaseUrl + key + suffixes[j]
  {
    if |suffixes| > 0 {
      UrlsForSpec(key, suffixes[..|suffixes| - 1]);
    }
  }

  /** `name_to_docs` holds exactly the keys of the raw names other than the skipped one, each
      once, and each key's list is the URLs of that key alone: a repeated key's list is rebuilt,
      not extended. */
  lemma NameDocsSpec(texts: seq<string>, keyOf: string -> string, suffixes: seq<string>)
    ensures var d := NameDocs(texts, keyOf, suffixes);
      && d.Valid()
      && (forall k :: k in d.m <==> exists i :: 0 <= i < |texts| && texts[i] != SkippedName && keyOf(texts[i]) == k)
      && (forall k :: k in d.m ==> d.m[k] == UrlsFor(k, suffixes))
  {
    NameDocsKeys(texts, keyOf, suffixes);
    NameDocsValues(texts, keyOf, suffixes);
  }

  /** The keys of `name_to_docs` are the keys of the names other than the skipped one. */
  lemma {:induction false} NameDocsKeys(texts: seq<string>, keyOf: string -> string, suffixes: seq<string>)
    ensures var d := NameDocs(texts, keyOf, suffixes);
      && d.Valid()
      && (forall k :: k in d.m <==> exists i :: 0 <= i < |texts| && texts[i] != SkippedName && keyOf(texts[i]) == k)
  {
    if |texts| > 0 {
      var init := texts[..|texts| - 1];
      NameDocsKeys(init, keyOf, suffixes);
      var d := NameDocs(init, keyOf, suffixes);
      var t := texts[|texts| - 1];
      assert NameDocs(texts, keyOf, suffixes).m.Keys == if t == SkippedName then d.m.Keys else d.m.Keys + {keyOf(t)};
      forall k ensures k in NameDocs(texts, keyOf, suffixes).m <==>
        exists i :: 0 <= i < |texts| && texts[i] != SkippedName && keyOf(texts[i]) == k
      {
        if k in d.m {
          var i :| 0 <= i < |init| && init[i] != SkippedName && keyOf(init[i]) == k;
          assert texts[i] == init[i];
        }
        if exists i :: 0 <= i < |texts| && texts[i] != SkippedName && keyOf(texts[i]) == k {
          var i :| 0 <= i < |texts| && texts[i] != SkippedName && keyOf(texts[i]) == k;
          if i < |init| {
            assert init[i] == texts[i];
          }
        }
      }
    }
  }

  /** Each key lists its URLs, one per suffix. */
  lemma {:induction false} NameDocsValues(texts: seq<string>, keyOf: string -> string, suffixes: seq<string>)
    ensures var d := NameDocs(texts, keyOf, suffixes);
      forall k :: k in d.m ==> d.m[k] == UrlsFor(k, suffixes)
  {
    if |texts| > 0 {
      NameDocsValues(texts[..|texts| - 1], keyOf, suffixes);
    }
  }

  /** The 译名 texts are the `str()` of the present cells, in order. */
  lemma {:induction false} NameTextsSpec(cells: seq<Cell>)
    ensures |NameTexts(cells)| <= |cells|
    ensures forall t :: t in NameTexts(cells) <==> exists i :: 0 <= i < |cells| && !cells[i].Missing? && PyStr(cells[i]) == t
  {
    if |cells| > 0 {
      var init := cells[..|cells| - 1];
      NameTextsSpec(init);
      forall t ensures t in NameTexts(cells) <==> exists i :: 0 <= i < |cells| && !cells[i].Missing? && PyStr(cells[i]) == t {
        if t in NameTexts(init) {
          var i :| 0 <= i < |init| && !init[i].Missing? && PyStr(init[i]) == t;
          assert cells[i] == init[i];
        }
        if exists i :: 0 <= i < |cells| && !cells[i].Missing? && PyStr(cells[i]) == t {
          var i :| 0 <= i < |cells| && !cells[i].Missing? && PyStr(cells[i]) == t;
          if i < |init| {
            assert init[i] == cells[i];
          }
        }
      }
    }
  }

  /** The names kept by TagAnalyze.py, in row order. */
  function Kept(texts: seq<string>): seq<string> {
    if |texts| == 0 then []
    else
      var t := texts[|texts| - 1];
      Kept(texts[..|texts| - 1]) + (if t == SkippedName then [] else [t])
  }

  /** `flat` is the concatenation of `blocks`, each of three elements. */
  ghost predicate Blocked<T>(flat: seq<T>, blocks: seq<seq<T>>) {
    && |flat| == 3 * |blocks|
    && (forall k :: 0 <= k < |blocks| ==> |blocks[k]| == 3)
    && (forall k, j :: 0 <= k < |blocks| && 0 <= j < 3 ==> flat[3 * k + j] == blocks[k][j])
  }

  lemma BlockedSnoc<T>(flat: seq<T>, blocks: seq<seq<T>>, u: seq<T>)
    requires Blocked(flat, blocks) && |u| == 3
    ensures Blocked(flat + u, blocks + [u])
  {
    var f, bs := flat + u, blocks + [u];
    forall k, j | 0 <= k < |bs| && 0 <= j < 3 ensures f[3 * k + j] == bs[k][j] {
      if k < |blocks| {
        assert f[3 * k + j] == flat[3 * k + j];
      } else {
        assert f[3 * k + j] == u[j];
      }
    }
  }

  /** `f` of each kept name, in name order. */
  function KeptMap<B>(texts: seq<string>, f: string -> B): seq<B> {
    if |texts| == 0 then []
    else
      var t := texts[|texts| - 1];
      KeptMap(texts[..|texts| - 1], f) + (if t == SkippedName then [] else [f(t)])
  }

  /** The k-th entry of `KeptMap` is `f` of the k-th kept name. */
  lemma {:induction false} KeptMapSpec<B>(texts: seq<string>, f: string -> B)
    ensures |KeptMap(texts, f)| == |Kept(texts)|
    ensures forall k :: 0 <= k < |Kept(texts)| ==> KeptMap(texts, f)[k] == f(Kept(texts)[k])
  {
    if |texts| > 0 {
      KeptMapSpec(texts[..|texts| - 1], f);
    }
  }

  /** The URL list of one kept name. */
  function TagBlock(t: string): seq<string> {
    UrlsFor(PartialPath(t), WikiSuffixes)
  }

  /** `urls` is the concatenation of the URL lists of the kept names. */
  lemma {:induction false} TagUrlsBlocks(texts: seq<string>)
    ensures Blocked(TagUrls(texts), KeptMap(texts, TagBlock))
  {
    if |texts| > 0 {
      var t := texts[|texts| - 1];
      TagUrlsBlocks(texts[..|texts| - 1]);
      if t != SkippedName {
        BlockedSnoc(TagUrls(texts[..|texts| - 1]), KeptMap(texts[..|texts| - 1], TagBlock), TagBlock(t));
      }
    }
  }

  /** `urls` holds three entries per kept name, in name order and suffix order, and the raw
      path of the name goes into them unstripped. */
  lemma TagUrlsSpec(texts: seq<string>)
    ensures var urls := TagUrls(texts);
      var kept := Kept(texts);
      && |urls| == 3 * |kept|
      && forall k, j :: 0 <= k < |kept| && 0 <= j < 3 ==> urls[3 * k + j] == BaseUrl + PartialPath(kept[k]) + WikiSuffixes[j]
  {
    TagUrlsBlocks(texts);
    KeptMapSpec(texts, TagBlock);
    var kept := Kept(texts);
    forall k | 0 <= k < |kept| ensures forall j :: 0 <= j < 3 ==> TagBlock(kept[k])[j] == BaseUrl + PartialPath(kept[k]) + WikiSuffixes[j] {
      UrlsForSpec(PartialPath(kept[k]), WikiSuffixes);
    }
  }

  /** Text without a '（' is left alone by the bracket removal. */
  lemma {:induction false} NoParenFixed(s: string)
    requires '（' !in s
    ensures RemoveFullwidthParens(s) == s
    decreases |s|
  {
    if |s| > 0 {
      NoParenFixed(s[1..]);
      assert s == [s[0]] + s[1..];
    }
  }

  /** Text without a '天' is left alone by the replacement. */
  lemma {:induction false} NoTianFixed(s: string)
    requires '天' !in s
    ensures ReplaceAll(s, "天为", "帝") == s
    decreases |s|
  {
    if |s| > 0 {
      NoTianFixed(s[1..]);
      assert s == [s[0]] + s[1..];
    }
  }

  /** TagAnalyze.py never strips the name, so a space in front of it reaches the URL path,
      where the -textrank key drops it. */
  lemma TagPathKeepsSpaces(p: string)
    requires p != "" && Stripped(p) && '（' !in p && '天' !in p
    ensures PartialPath(" " + p) == " " + p
    ensures SlashKey(" " + p) == p
  {
    var t := " " + p;
    NoParenFixed(t);
    NoTianFixed(t);
    assert Unbracket(t) == t;
    assert LStripChar(t, '/') == t;
    assert t[1..] == p;
    assert LStrip(t) == LStrip(p);
  }

  // ---------------------------------------------------------------------------------------
  // Stopwords

  /** A stopword is a remove keyword or a stripped, non-empty line of the file; a missing file
      leaves only the remove keywords. No stopword is empty. */
  lemma StopwordsSpec(file: Option<seq<string>>)
    ensures forall w :: w in Stopwords(file) <==>
      w in RemoveKeywords || (file.Some? && exists l :: l in file.value && Strip(l) != "" && Strip(l) == w)
    ensures file.None? ==> Stopwords(file) == set w | w in RemoveKeywords
    ensures "" !in Stopwords(file)
  {
  }

  /** TagAnalyze.py builds the same set in the other order. */
  lemma TagStopwordsSame(file: Option<seq<string>>)
    ensures TagStopwords(file) == Stopwords(file)
  {
  }

  // ---------------------------------------------------------------------------------------
  // Token filters

  /** The single-letter test of the -freq filter never decides on its own: such a word already
      fails the stripped-length test. */
  lemma FreqKeepsSpec(w: string, stop: set<string>, names: set<string>)
    ensures FreqKeeps(w, stop, names) <==> w !in stop && w !in names && |Strip(w)| > 1
  {
  }

  /** A tokenizer word gives an -LDA token iff, once stripped, it is non-empty, not a stopword,
      not a character key, not all digits and at least two characters long; the token is the
      stripped word. */
  lemma LdaTokenSpec(w: string, stop: set<string>, names: set<string>)
    ensures var t := Strip(w);
      LdaToken(w, stop, names) == if t != "" && t !in stop && t !in names && !DigitRun(t) && |t| >= 2 then Some(t) else None
  {
  }

  /** `SomeValues` gives exactly the successful results. */
  lemma {:induction false} SomeValuesMembers<A, B>(xs: seq<A>, f: A -> Option<B>)
    ensures |SomeValues(xs, f)| <= |xs|
    ensures forall y :: y in SomeValues(xs, f) <==> exists i :: 0 <= i < |xs| && f(xs[i]) == Some(y)
  {
    if |xs| > 0 {
      var init := xs[..|xs| - 1];
      SomeValuesMembers(init, f);
      forall y ensures y in SomeValues(xs, f) <==> exists i :: 0 <= i < |xs| && f(xs[i]) == Some(y) {
        if y in SomeValues(init, f) {
          var i :| 0 <= i < |init| && f(init[i]) == Some(y);
          assert xs[i] == init[i];
        }
        if exists i :: 0 <= i < |xs| && f(xs[i]) == Some(y) {
          var i :| 0 <= i < |xs| && f(xs[i]) == Some(y);
          if i < |init| {
            assert init[i] == xs[i];
          }
        }
      }
    }
  }

  /** The -LDA tokens are exactly the kept stripped words, so each satisfies every check. */
  lemma LdaTokensSpec(words: seq<string>, stop: set<string>, names: set<string>)
    ensures |LdaTokens(words, stop, names)| <= |words|
    ensures forall t :: t in LdaTokens(words, stop, names) <==>
      exists i :: 0 <= i < |words| && LdaToken(words[i], stop, names) == Some(t)
    ensures forall t :: t in LdaTokens(words, stop, names) ==>
      Stripped(t) && |t| >= 2 && t !in stop && t !in names && !DigitRun(t)
  {
    var f := (w: string) => LdaToken(w, stop, names);
    SomeValuesMembers(words, f);
    forall t | t in LdaTokens(words, stop, names)
      ensures Stripped(t) && |t| >= 2 && t !in stop && t !in names && !DigitRun(t)
    {
      var i :| 0 <= i < |words| && f(words[i]) == Some(t);
      LdaTokenSpec(words[i], stop, names);
    }
  }

  // ---------------------------------------------------------------------------------------
  // Top lists

  lemma PrefixMultiset<T>(s: seq<T>, m: nat)
    requires m <= |s|
    ensures multiset(s[..m]) <= multiset(s)
  {
    assert s == s[..m] + s[m..];
  }

  /** The descending comparator is a total preorder. */
  lemma DescendingPreorder<T(!new)>(weight: T -> real)
    ensures TotalPreorder((a: T, b: T) => weight(a) >= weight(b))
  {
  }

  /** A top list has min(|s|, n) elements taken from `s`, non-increasing by weight; it holds no
      duplicates when `s` holds none. */
  lemma TopBySpec<T(!new)>(s: seq<T>, weight: T -> real, n: nat)
    ensures var r := TopBy(s, weight, n);
      && |r| == (if |s| < n then |s| else n)
      && multiset(r) <= multiset(s)
      && (forall i, j :: 0 <= i < j < |r| ==> weight(r[i]) >= weight(r[j]))
      && (NoDup(s) ==> NoDup(r))
  {
    var le := (a: T, b: T) => weight(a) >= weight(b);
    var sorted := SortWith(s, le);
    DescendingPreorder(weight);
    SortWithSorted(s, le);
    var m := if |sorted| < n then |sorted| else n;
    PrefixMultiset(sorted, m);
    if NoDup(s) {
      PermutationNoDup(s, sorted);
    }
  }

  /** A top list keeps the input order of equal weights (the sort is stable): any order
      `rel` that the input's equal-weight pairs follow, the list's follow too. */
  lemma TopByTies<T(!new)>(s: seq<T>, weight: T -> real, n: nat, rel: (T, T) -> bool)
    requires forall i, j :: 0 <= i < j < |s| && weight(s[i]) == weight(s[j]) ==> rel(s[i], s[j])
    ensures var r := TopBy(s, weight, n);
      forall i, j :: 0 <= i < j < |r| && weight(r[i]) == weight(r[j]) ==> rel(r[i], r[j])
  {
    var le := (a: T, b: T) => weight(a) >= weight(b);
    var sorted := SortWith(s, le);
    DescendingPreorder(weight);
    assert TiesOrdered(s, le, rel);
    SortKeepsTies(s, le, rel);
    var r := TopBy(s, weight, n);
    forall i, j | 0 <= i < j < |r| && weight(r[i]) == weight(r[j]) ensures rel(r[i], r[j]) {
      assert r[i] == sorted[i] && r[j] == sorted[j];
    }
  }

  /** Nothing left out of a top list outweighs what it holds: an element of a duplicate-free
      `s` missing from the list means the list is full and every entry weighs at least as much. */
  lemma TopByMaximal<T(!new)>(s: seq<T>, weight: T -> real, n: nat, x: T)
    requires NoDup(s) && x in s && x !in TopBy(s, weight, n)
    ensures |TopBy(s, weight, n)| == n
    ensures forall i :: 0 <= i < n ==> weight(x) <= weight(TopBy(s, weight, n)[i])
  {
    var le := (a: T, b: T) => weight(a) >= weight(b);
    var sorted := SortWith(s, le);
    DescendingPreorder(weight);
    SortWithSorted(s, le);
    PermutationNoDup(s, sorted);
    assert x in multiset(sorted);
    var p :| 0 <= p < |sorted| && sorted[p] == x;
    var m := if |sorted| < n then |sorted| else n;
    assert p >= m;
    forall i | 0 <= i < n ensures weight(x) <= weight(TopBy(s, weight, n)[i]) {
      assert TopBy(s, weight, n)[i] == sorted[i];
      assert le(sorted[i], sorted[p]);
    }
  }

  /** `Counter(ws).items()` lists each word of `ws` once, with its number of occurrences. */
  lemma CounterItemsSpec(ws: seq<string>)
    ensures var c := CounterItems(ws);
      && (forall i, j :: 0 <= i < j < |c| ==> c[i].0 != c[j].0)
      && (forall i :: 0 <= i < |c| ==> c[i].0 in ws && c[i].1 == multiset(ws)[c[i].0] && c[i].1 > 0)
      && (forall w :: w in ws ==> exists i :: 0 <= i < |c| && c[i].0 == w)
  {
    var ds := AppendNew([], ws);
    var c := CounterItems(ws);
    assert NoDup(ds);
    forall i | 0 <= i < |c| ensures c[i].0 in ws && c[i].1 == multiset(ws)[c[i].0] && c[i].1 > 0 {
      assert c[i].0 == ds[i] && ds[i] in ws;
    }
    forall w | w in ws ensures exists i :: 0 <= i < |c| && c[i].0 == w {
      var i :| 0 <= i < |ds| && ds[i] == w;
      assert c[i].0 == w;
    }
  }

  /** The pairs of `Counter(ws).items()` are distinct. */
  lemma CounterItemsNoDup(ws: seq<string>)
    ensures NoDup(CounterItems(ws))
  {
    CounterItemsSpec(ws);
  }

  /** `a` occurs in `ws` before any occurrence of `b`. */
  predicate FirstBefore(ws: seq<string>, a: string, b: string) {
    forall k :: 0 <= k < |ws| && ws[k] == b ==> a in ws[..k]
  }

  /** `Counter(ws).items()` lists the words in the order of their first occurrence. */
  lemma CounterItemsOrder(ws: seq<string>)
    ensures var c := CounterItems(ws);
      forall i, j :: 0 <= i < j < |c| ==> FirstBefore(ws, c[i].0, c[j].0)
  {
    var c := CounterItems(ws);
    AppendNewFirstSeen([], ws);
    assert forall i, j, k ::
      0 <= i < j < |AppendNew([], ws)| && 0 <= k < |ws| && ws[k] == AppendNew([], ws)[j] ==> AppendNew([], ws)[i] in ws[..k];
    forall i, j | 0 <= i < j < |c| ensures FirstBefore(ws, c[i].0, c[j].0) {
      assert c[i].0 == AppendNew([], ws)[i] && c[j].0 == AppendNew([], ws)[j];
    }
  }

  /** A duplicate-free part of a sequence of pairs with distinct keys has distinct keys. */
  lemma SubKeysDistinct<V>(c: seq<(string, V)>, r: seq<(string, V)>)
    requires forall i, j :: 0 <= i < j < |c| ==> c[i].0 != c[j].0
    requires NoDup(r) && multiset(r) <= multiset(c)
    ensures forall i, j :: 0 <= i < j < |r| ==> r[i].0 != r[j].0
  {
    forall i, j | 0 <= i < j < |r| ensures r[i].0 != r[j].0 {
      assert r[i] in multiset(c) && r[j] in multiset(c);
      var a :| 0 <= a < |c| && c[a] == r[i];
      var b :| 0 <= b < |c| && c[b] == r[j];
    }
  }

  /** Every listed pair is one of the counter's: a word of `ws` with its number of occurrences. */
  lemma MostCommonCounts(ws: seq<string>, n: nat)
    ensures var r := MostCommon(ws, n);
      forall i :: 0 <= i < |r| ==> r[i].0 in ws && r[i].1 == multiset(ws)[r[i].0]
  {
    var c := CounterItems(ws);
    var r := MostCommon(ws, n);
    CounterItemsSpec(ws);
    TopBySpec(c, (p: (string, nat)) => p.1 as real, n);
    forall i | 0 <= i < |r| ensures r[i].0 in ws && r[i].1 == multiset(ws)[r[i].0] {
      assert r[i] in multiset(c);
      var k :| 0 <= k < |c| && c[k] == r[i];
    }
  }

  /** The listed words are distinct. */
  lemma MostCommonDistinct(ws: seq<string>, n: nat)
    ensures var r := MostCommon(ws, n);
      forall i, j :: 0 <= i < j < |r| ==> r[i].0 != r[j].0
  {
    var c := CounterItems(ws);
    CounterItemsSpec(ws);
    CounterItemsNoDup(ws);
    TopBySpec(c, (p: (string, nat)) => p.1 as real, n);
    SubKeysDistinct(c, MostCommon(ws, n));
  }

  /** `most_common(n)` lists words of equal count in the order of their first occurrence. */
  lemma MostCommonTies(ws: seq<string>, n: nat)
    ensures var r := MostCommon(ws, n);
      forall i, j :: 0 <= i < j < |r| && r[i].1 == r[j].1 ==> FirstBefore(ws, r[i].0, r[j].0)
  {
    var weight := (p: (string, nat)) => p.1 as real;
    var rel := (a: (string, nat), b: (string, nat)) => FirstBefore(ws, a.0, b.0);
    CounterItemsOrder(ws);
    TopByTies(CounterItems(ws), weight, n, rel);
    var r := MostCommon(ws, n);
    assert r == TopBy(CounterItems(ws), weight, n);
  }

  /** `most_common(n)`: at most n distinct words of `ws`, each with its number of occurrences,
      counts non-increasing, equal counts in first-occurrence order. */
  lemma MostCommonSpec(ws: seq<string>, n: nat)
    ensures var r := MostCommon(ws, n);
      && |r| <= n
      && (forall i, j :: 0 <= i < j < |r| ==> r[i].1 >= r[j].1)
      && (forall i :: 0 <= i < |r| ==> r[i].0 in ws && r[i].1 == multiset(ws)[r[i].0])
      && (forall i, j :: 0 <= i < j < |r| ==> r[i].0 != r[j].0)
      && (forall i, j :: 0 <= i < j < |r| && r[i].1 == r[j].1 ==> FirstBefore(ws, r[i].0, r[j].0))
  {
    TopBySpec(CounterItems(ws), (p: (string, nat)) => p.1 as real, n);
    MostCommonCounts(ws, n);
    MostCommonDistinct(ws, n);
    MostCommonTies(ws, n);
  }

  /** A word of `ws` missing from `most_common(n)` means the list is full and no listed word
      occurs less often. */
  lemma MostCommonMaximal(ws: seq<string>, n: nat, w: string)
    requires w in ws
    requires forall i :: 0 <= i < |MostCommon(ws, n)| ==> MostCommon(ws, n)[i].0 != w
    ensures |MostCommon(ws, n)| == n
    ensures forall i :: 0 <= i < n ==> multiset(ws)[w] <= MostCommon(ws, n)[i].1
  {
    var c := CounterItems(ws);
    var weight := (p: (string, nat)) => p.1 as real;
    CounterItemsSpec(ws);
    CounterItemsNoDup(ws);
    var k :| 0 <= k < |c| && c[k].0 == w;
    assert c[k] !in MostCommon(ws, n);
    TopByMaximal(c, weight, n, c[k]);
  }

  /** The score dictionary holds each kept word once, with a score some pair gave it. */
  lemma {:induction false} ScoreDictSpec(pairs: seq<(string, real)>, keep: string -> bool)
    ensures var d := ScoreDict(pairs, keep);
      && d.Valid()
      && (forall w :: w in d.m <==> keep(w) && exists i :: 0 <= i < |pairs| && pairs[i].0 == w)
      && (forall w :: w in d.m ==> exists i :: 0 <= i < |pairs| && pairs[i] == (w, d.m[w]))
  {
    if |pairs| > 0 {
      var init := pairs[..|pairs| - 1];
      ScoreDictSpec(init, keep);
      var d := ScoreDict(pairs, keep);
      forall w ensures w in d.m <==> keep(w) && exists i :: 0 <= i < |pairs| && pairs[i].0 == w {
        if w in ScoreDict(init, keep).m {
          var i :| 0 <= i < |init| && init[i].0 == w;
          assert pairs[i] == init[i];
        }
        if keep(w) && exists i :: 0 <= i < |pairs| && pairs[i].0 == w {
          var i :| 0 <= i < |pairs| && pairs[i].0 == w;
          if i < |init| {
            assert init[i] == pairs[i];
          }
        }
      }
      forall w | w in d.m ensures exists i :: 0 <= i < |pairs| && pairs[i] == (w, d.m[w]) {
        if w != pairs[|pairs| - 1].0 || !keep(w) {
          var i :| 0 <= i < |init| && init[i] == (w, ScoreDict(init, keep).m[w]);
          assert pairs[i] == init[i];
        } else {
          assert pairs[|pairs| - 1] == (w, d.m[w]);
        }
      }
    }
  }

  /** A word's score is the one of its last pair: later pairs replace earlier ones. */
  lemma {:induction false} ScoreDictLast(pairs: seq<(string, real)>, keep: string -> bool, i: nat)
    requires i < |pairs| && keep(pairs[i].0)
    requires forall j :: i < j < |pairs| ==> pairs[j].0 != pairs[i].0
    ensures pairs[i].0 in ScoreDict(pairs, keep).m && ScoreDict(pairs, keep).m[pairs[i].0] == pairs[i].1
  {
    if i < |pairs| - 1 {
      var init := pairs[..|pairs| - 1];
      assert init[i] == pairs[i];
      ScoreDictLast(init, keep, i);
    }
  }

  /** The items of a well-formed dictionary are distinct. */
  lemma ItemsNoDup<V>(d: ODict<V>)
    requires d.Valid()
    ensures NoDup(d.Items())
  {
  }

  /** A part of a sequence of map entries holds map entries only. */
  lemma SubEntries<V>(items: seq<(string, V)>, r: seq<(string, V)>, m: map<string, V>)
    requires multiset(r) <= multiset(items)
    requires forall i :: 0 <= i < |items| ==> items[i].0 in m && items[i].1 == m[items[i].0]
    ensures forall i :: 0 <= i < |r| ==> r[i].0 in m && r[i].1 == m[r[i].0]
  {
    forall i | 0 <= i < |r| ensures r[i].0 in m && r[i].1 == m[r[i].0] {
      assert r[i] in multiset(items);
      var k :| 0 <= k < |items| && items[k] == r[i];
    }
  }

  /** Every listed pair is an entry of the dictionary. */
  lemma TopScoresEntries(d: ODict<real>, n: nat)
    requires d.Valid()
    ensures var r := TopScores(d, n);
      forall i :: 0 <= i < |r| ==> r[i].0 in d.m && r[i].1 == d.m[r[i].0]
  {
    TopBySpec(d.Items(), (p: (string, real)) => p.1, n);
    SubEntries(d.Items(), TopScores(d, n), d.m);
  }

  /** The keys of the items of a well-formed dictionary are distinct. */
  lemma ItemKeysDistinct<V>(d: ODict<V>)
    requires d.Valid()
    ensures forall i, j :: 0 <= i < j < |d.Items()| ==> d.Items()[i].0 != d.Items()[j].0
  {
  }

  /** The top list of a score dictionary: at most n entries of the dictionary, scores
      non-increasing, distinct words. */
  lemma TopScoresSpec(d: ODict<real>, n: nat)
    requires d.Valid()
    ensures var r := TopScores(d, n);
      && |r| <= n
      && (forall i, j :: 0 <= i < j < |r| ==> r[i].1 >= r[j].1)
      && (forall i :: 0 <= i < |r| ==> r[i].0 in d.m && r[i].1 == d.m[r[i].0])
      && (forall i, j :: 0 <= i < j < |r| ==> r[i].0 != r[j].0)
  {
    TopBySpec(d.Items(), (p: (string, real)) => p.1, n);
    TopScoresEntries(d, n);
    TopScoresDistinct(d, n);
  }

  /** The words of a top list are distinct. */
  lemma TopScoresDistinct(d: ODict<real>, n: nat)
    requires d.Valid()
    ensures var r := TopScores(d, n);
      forall i, j :: 0 <= i < j < |r| ==> r[i].0 != r[j].0
  {
    var items := d.Items();
    ItemsNoDup(d);
    ItemKeysDistinct(d);
    TopBySpec(items, (p: (string, real)) => p.1, n);
    SubKeysDistinct(items, TopScores(d, n));
  }

  /** A word of the dictionary missing from its top list means the list is full and no listed
      word scores lower. */
  lemma TopScoresMaximal(d: ODict<real>, n: nat, w: string)
    requires d.Valid() && w in d.m
    requires forall i :: 0 <= i < |TopScores(d, n)| ==> TopScores(d, n)[i].0 != w
    ensures |TopScores(d, n)| == n
    ensures forall i :: 0 <= i < n ==> d.m[w] <= TopScores(d, n)[i].1
  {
    var items := d.Items();
    var weight := (p: (string, real)) => p.1;
    ItemsNoDup(d);
    var k :| 0 <= k < |d.keys| && d.keys[k] == w;
    assert items[k] == (w, d.m[w]);
    assert items[k] !in TopScores(d, n);
    TopByMaximal(items, weight, n, items[k]);
  }

  /** The -textrank top list: at most 20 entries, weights non-increasing, distinct words that
      pass the score filter, each one a TextRank (word, weight) pair. */
  lemma TextRankTopSpec(keywords: seq<(string, real)>, stop: set<string>, names: set<string>)
    ensures var r := TextRankTop(keywords, stop, names);
      && |r| <= TopK
      && (forall i, j :: 0 <= i < j < |r| ==> r[i].1 >= r[j].1 && r[i].0 != r[j].0)
      && (forall i :: 0 <= i < |r| ==> TextRankKeeps(r[i].0, stop, names) && r[i] in keywords)
  {
    var keep := (w: string) => TextRankKeeps(w, stop, names);
    var d := ScoreDict(keywords, keep);
    var r := TextRankTop(keywords, stop, names);
    ScoreDictSpec(keywords, keep);
    TopScoresSpec(d, TopK);
    forall i | 0 <= i < |r| ensures r[i] in keywords {
      var j :| 0 <= j < |keywords| && keywords[j] == (r[i].0, d.m[r[i].0]);
    }
  }

  /** A passing TextRank word missing from the top list weighs, by its last pair, no more than
      any listed word, and the list is full. */
  lemma TextRankTopMaximal(keywords: seq<(string, real)>, stop: set<string>, names: set<string>, j: nat)
    requires j < |keywords| && TextRankKeeps(keywords[j].0, stop, names)
    requires forall k :: j < k < |keywords| ==> keywords[k].0 != keywords[j].0
    requires forall i :: 0 <= i < |TextRankTop(keywords, stop, names)| ==> TextRankTop(keywords, stop, names)[i].0 != keywords[j].0
    ensures |TextRankTop(keywords, stop, names)| == TopK
    ensures forall i :: 0 <= i < TopK ==> keywords[j].1 <= TextRankTop(keywords, stop, names)[i].1
  {
    var keep := (w: string) => TextRankKeeps(w, stop, names);
    ScoreDictSpec(keywords, keep);
    ScoreDictLast(keywords, keep, j);
    var d := ScoreDict(keywords, keep);
    assert TextRankTop(keywords, stop, names) == TopScores(d, TopK);
    assert keywords[j].0 in d.m;
    TopScoresMaximal(d, TopK, keywords[j].0);
  }

  /** TagAnalyze.py's top list: at most 20 entries, weights non-increasing, distinct features
      that are not stopwords, each one a (feature, summed weight) pair. */
  lemma TagTopSpec(features: seq<(string, real)>, stop: set<string>)
    ensures var r := TagTop(features, stop);
      && |r| <= TopK
      && (forall i, j :: 0 <= i < j < |r| ==> r[i].1 >= r[j].1 && r[i].0 != r[j].0)
      && (forall i :: 0 <= i < |r| ==> r[i].0 !in stop && r[i] in features)
  {
    var keep := (w: string) => w !in stop;
    var d := ScoreDict(features, keep);
    var r := TagTop(features, stop);
    ScoreDictSpec(features, keep);
    TopScoresSpec(d, TopK);
    forall i | 0 <= i < |r| ensures r[i] in features {
      var j :| 0 <= j < |features| && features[j] == (r[i].0, d.m[r[i].0]);
    }
  }

  /** A non-stopword feature missing from the top list weighs, by its last weight, no more than
      any listed one, and the list is full. */
  lemma TagTopMaximal(features: seq<(string, real)>, stop: set<string>, j: nat)
    requires j < |features| && features[j].0 !in stop
    requires forall k :: j < k < |features| ==> features[k].0 != features[j].0
    requires forall i :: 0 <= i < |TagTop(features, stop)| ==> TagTop(features, stop)[i].0 != features[j].0
    ensures |TagTop(features, stop)| == TopK
    ensures forall i :: 0 <= i < TopK ==> features[j].1 <= TagTop(features, stop)[i].1
  {
    var keep := (w: string) => w !in stop;
    ScoreDictSpec(features, keep);
    ScoreDictLast(features, keep, j);
    var d := ScoreDict(features, keep);
    assert TagTop(features, stop) == TopScores(d, TopK);
    assert features[j].0 in d.m;
    TopScoresMaximal(d, TopK, features[j].0);
  }

  // ---------------------------------------------------------------------------------------
  // The -freq script end to end

  /** The top list of one name: at most 20 words, none a stopword or a character key, each of
      stripped length above one and listed with its number of occurrences in the kept words,
      counts non-increasing. */
  lemma FreqTopSpec(words: seq<string>, stop: set<string>, names: set<string>)
    ensures var kept := FreqFiltered(words, stop, names);
      var r := MostCommon(kept, TopK);
      && |r| <= TopK
      && (forall j, k :: 0 <= j < k < |r| ==> r[j].1 >= r[k].1 && r[j].0 != r[k].0)
      && (forall j :: 0 <= j < |r| ==>
            r[j].0 in words && FreqKeeps(r[j].0, stop, names) && r[j].1 == multiset(kept)[r[j].0])
  {
    var kept := FreqFiltered(words, stop, names);
    MostCommonSpec(kept, TopK);
    FilterMembers(words, (w: string) => FreqKeeps(w, stop, names));
  }
}
