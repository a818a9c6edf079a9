/** Properties of module KeywordClusters: which words become contexts, what the entry loop
    collects, the sorted index maps, and the meaning and total of the co-occurrence matrix. */
module KeywordClustersProps {
  import opened Wrappers
  import opened Strings
  import opened Seqs
  import opened Sorting
  import opened ODicts
  import opened Keywords
  import opened KeywordsProps
  import opened KeywordClusters

  // ---------------------------------------------------------------------------------------
  // is_valid_word and the skipped name

  /** A word of ASCII digits already fails the letters-and-digits test, so the `\d+` test only
      adds words of other decimal digits, such as full-width ones. */
  lemma AsciiDigitsAreAlnum(w: string, stop: set<string>)
    requires |w| > 0 && forall i :: 0 <= i < |w| ==> IsAsciiDigit(w[i])
    ensures AlnumRun(w) && !IsValidWord(w, stop)
  {
  }

  /** A full-width number passes the letters-and-digits test and is rejected by `\d+` alone. */
  lemma WideDigitsNeedDigitTest(stop: set<string>)
    ensures !AlnumRun("１２") && DigitRun("１２") && !IsValidWord("１２", stop)
  {
    assert !IsAsciiAlnum("１２"[0]);
  }

  /** Bracket removal passes a bracket-free head through. */
  lemma {:induction false} ParensAfterPlain(s: string, t: string)
    requires '（' !in s
    ensures RemoveFullwidthParens(s + t) == s + RemoveFullwidthParens(t)
    decreases |s|
  {
    if |s| > 0 {
      assert (s + t)[0] == s[0] && (s + t)[1..] == s[1..] + t;
      assert RemoveFullwidthParens(s + t) == [s[0]] + RemoveFullwidthParens(s[1..] + t);
      ParensAfterPlain(s[1..], t);
      AppendAssoc([s[0]], s[1..], RemoveFullwidthParens(t));
      assert s == [s[0]] + s[1..];
    } else {
      assert s + t == t;
      assert s + RemoveFullwidthParens(t) == RemoveFullwidthParens(t);
    }
  }

  /** A single-line bracketed note is removed whole. */
  lemma NoteRemoved(note: string)
    requires '）' !in note && '\n' !in note
    ensures RemoveFullwidthParens("（" + note + "）") == ""
  {
    var u := "（" + note + "）";
    assert u[1..] == note + "）";
    var j := IndexOf(u[1..], '）');
    assert u[1..][|note|] == '）';
    assert j.Some?;
    assert forall k :: 0 <= k < |note| ==> u[1..][k] == note[k] != '）';
    assert j.value == |note|;
    assert u[1..1 + j.value] == note;
    assert u[2 + j.value..] == "";
  }

  /** A name that is its own cleaned form, followed by a bracketed note, cleans to the name. */
  lemma NoteCleaned(s: string, note: string)
    requires Stripped(s) && '（' !in s && '天' !in s
    requires '）' !in note && '\n' !in note
    ensures CleanText(s + ("（" + note + "）")) == s
  {
    ParensAfterPlain(s, "（" + note + "）");
    NoteRemoved(note);
    assert s + "" == s;
    NoParenFixed(s);
    NoTianFixed(s);
    StripFixed(s);
  }

  /** The skipped name holds no full-width bracket, no '天' and no outer white space. */
  lemma SkippedNamePlain()
    ensures '（' !in SkippedName && '天' !in SkippedName && Stripped(SkippedName)
  {
  }

  /** The skipped name is its own cleaned form: every name the other scripts skip, the clusters
      script skips too. */
  lemma SkippedNameIsClean()
    ensures CleanText(SkippedName) == SkippedName
  {
    SkippedNamePlain();
    NoParenFixed(SkippedName);
    NoTianFixed(SkippedName);
    StripFixed(SkippedName);
  }

  /** The clusters script tests the skip after cleaning, so it also skips the name with a
      bracketed note, which the other scripts, testing the raw text, keep. */
  lemma SkipAfterCleaning(note: string)
    requires '）' !in note && '\n' !in note
    ensures SkippedName + ("（" + note + "）") != SkippedName
    ensures CleanText(SkippedName + ("（" + note + "）")) == SkippedName
  {
    assert |SkippedName + ("（" + note + "）")| > |SkippedName|;
    SkippedNamePlain();
    NoteCleaned(SkippedName, note);
  }

  // ---------------------------------------------------------------------------------------
  // The entry loop

  /** A list adds exactly the contexts (via, w, name) of its valid words. */
  lemma {:induction false} ListContextsSpec(via: string, words: seq<string>, name: string, stop: set<string>)
    ensures forall c :: c in ListContexts(via, words, name, stop) <==>
      c.via == via && c.source == name && c.keyword in words && IsValidWord(c.keyword, stop)
  {
    if |words| > 0 {
      ListContextsSpec(via, words[..|words| - 1], name, stop);
      LastSplit(words);
    }
  }

  /** The first n lists of an entry add exactly the contexts of their valid words, each tagged
      with its list's method name. */
  lemma {:induction false} EntryContextsSpec(name: string, lists: seq<seq<string>>, stop: set<string>, n: nat)
    requires n <= |Methods| && n <= |lists|
    ensures forall c :: c in EntryContexts(name, lists, stop, n) <==>
      exists m :: 0 <= m < n && c.via == Methods[m] && c.source == name && c.keyword in lists[m] && IsValidWord(c.keyword, stop)
  {
    if n > 0 {
      EntryContextsSpec(name, lists, stop, n - 1);
      ListContextsSpec(Methods[n - 1], lists[n - 1], name, stop);
    }
  }

  /** The cleaned names are the `clean_text` of the raw names, position by position. */
  lemma NamesSpec(texts: seq<string>)
    ensures |Names(texts)| == |texts|
    ensures forall e :: e in Names(texts) <==> exists i :: 0 <= i < |texts| && CleanText(texts[i]) == e
  {
    var ns := Names(texts);
    forall e | e in ns ensures exists i :: 0 <= i < |texts| && CleanText(texts[i]) == e {
      var i :| 0 <= i < |ns| && ns[i] == e;
    }
    forall e | exists i :: 0 <= i < |texts| && CleanText(texts[i]) == e ensures e in ns {
      var i :| 0 <= i < |texts| && CleanText(texts[i]) == e;
      assert ns[i] == e;
    }
  }

  /** After the entry loop, `entry_clean_texts` holds each cleaned name other than the skipped
      one, once. */
  lemma {:induction false} EntriesOfSpec(names: seq<string>, fetch: string -> string, cut: string -> seq<string>, stop: set<string>)
    ensures var d := EntriesOf(names, fetch, cut, stop);
      d.Valid() && forall e :: e in d.m <==> e != SkippedName && e in names
  {
    if |names| > 0 {
      EntriesOfSpec(names[..|names| - 1], fetch, cut, stop);
      LastSplit(names);
    }
  }

  /** Each collected entry holds the joined valid tokens of its pages. */
  lemma {:induction false} EntriesOfValues(names: seq<string>, fetch: string -> string, cut: string -> seq<string>, stop: set<string>)
    ensures var d := EntriesOf(names, fetch, cut, stop);
      forall e :: e in d.m ==> d.m[e] == Join(" ", EntryTokens(e, fetch, cut, stop))
  {
    if |names| > 0 {
      EntriesOfValues(names[..|names| - 1], fetch, cut, stop);
    }
  }

  /** After the entry loop, `entry_clean_texts` holds exactly the cleaned raw names other than
      the skipped one. */
  lemma EntriesOfTexts(texts: seq<string>, fetch: string -> string, cut: string -> seq<string>, stop: set<string>)
    ensures var d := EntriesOf(Names(texts), fetch, cut, stop);
      forall e :: e in d.m <==> e != SkippedName && exists i :: 0 <= i < |texts| && CleanText(texts[i]) == e
  {
    EntriesOfSpec(Names(texts), fetch, cut, stop);
    NamesSpec(texts);
  }

  /** Every context is a valid keyword of one of the four methods, for a cleaned name other
      than the skipped one; so its source is a collected entry. */
  lemma {:induction false} ContextsOfSpec(names: seq<string>, fetch: string -> string, cut: string -> seq<string>,
                                          extract: (string, string) -> seq<string>, stop: set<string>)
    ensures forall c :: c in ContextsOf(names, fetch, cut, extract, stop) ==>
      c.via in Methods && IsValidWord(c.keyword, stop) && c.source != SkippedName && c.source in names
  {
    if |names| > 0 {
      var name := names[|names| - 1];
      ContextsOfSpec(names[..|names| - 1], fetch, cut, extract, stop);
      LastSplit(names);
      if name != SkippedName {
        var tokens := EntryTokens(name, fetch, cut, stop);
        EntryContextsSpec(name, KeywordLists(Join(" ", tokens), tokens, extract), stop, 4);
      }
    }
  }

  // ---------------------------------------------------------------------------------------
  // Index maps

  /** `ix` numbers the strings of `xs` by position, one to one. */
  predicate Indexes(ix: map<string, nat>, xs: seq<string>) {
    && (forall x :: x in ix ==> ix[x] < |xs| && xs[ix[x]] == x)
    && (forall i :: 0 <= i < |xs| ==> xs[i] in ix && ix[xs[i]] == i)
  }

  /** `{x: i for i, x in enumerate(xs)}` holds each string of `xs` and sends it to a position
      holding it; for a duplicate-free `xs` it is a bijection onto 0..|xs|-1. */
  lemma {:induction false} IndexMapSpec(xs: seq<string>)
    ensures forall x :: x in IndexMap(xs) <==> x in xs
    ensures forall x :: x in IndexMap(xs) ==> xs[IndexMap(xs)[x]] == x
    ensures NoDup(xs) ==> Indexes(IndexMap(xs), xs)
  {
    if |xs| > 0 {
      var init := xs[..|xs| - 1];
      IndexMapSpec(init);
      LastSplit(xs);
      if NoDup(xs) {
        assert NoDup(init);
      }
    }
  }

  /** `keyword_set` is strictly increasing, holds exactly the context keywords, and its index
      map numbers it one to one. */
  lemma KeywordSetSpec(cs: seq<Context>)
    ensures var ks := KeywordSet(cs);
      && (forall i, j :: 0 <= i < j < |ks| ==> LexLt(ks[i], ks[j]))
      && (forall kw :: kw in ks <==> exists c :: c in cs && c.keyword == kw)
      && Indexes(IndexMap(ks), ks)
  {
    var ks := KeywordSet(cs);
    var kws := KeywordsOf(cs);
    assert NoDup(ks);
    IndexMapSpec(ks);
    forall kw ensures kw in ks <==> exists c :: c in cs && c.keyword == kw {
      if kw in ks {
        var i :| 0 <= i < |kws| && kws[i] == kw;
        assert cs[i] in cs;
      }
      if exists c :: c in cs && c.keyword == kw {
        var c :| c in cs && c.keyword == kw;
        var i :| 0 <= i < |cs| && cs[i] == c;
        assert kws[i] == kw;
      }
    }
  }

  /** `entry_list` is strictly increasing, holds exactly the collected entries, and its index
      map numbers it one to one. */
  lemma EntryListSpec(entries: ODict<string>)
    requires entries.Valid()
    ensures var es := EntryList(entries);
      && (forall i, j :: 0 <= i < j < |es| ==> LexLt(es[i], es[j]))
      && (forall e :: e in es <==> e in entries.m)
      && Indexes(IndexMap(es), es)
  {
    var es := EntryList(entries);
    assert NoDup(es);
    IndexMapSpec(es);
  }

  // ---------------------------------------------------------------------------------------
  // The matrix

  /** The (keyword, source) pair of every context, in order. */
  function Pairs(cs: seq<Context>): seq<(string, string)> {
    if |cs| == 0 then [] else Pairs(cs[..|cs| - 1]) + [(cs[|cs| - 1].keyword, cs[|cs| - 1].source)]
  }

  /** With one-to-one index maps, cell [k][e] counts the contexts whose keyword is the k-th
      keyword and whose source is the e-th entry. */
  lemma {:induction false} GridCell(cs: seq<Context>, ki: map<string, nat>, ei: map<string, nat>,
                                    ks: seq<string>, es: seq<string>, k: nat, e: nat)
    requires Indexes(ki, ks) && Indexes(ei, es) && k < |ks| && e < |es|
    ensures Grid(cs, ki, ei, |ks|, |es|)[k][e] == multiset(Pairs(cs))[(ks[k], es[e])]
  {
    if |cs| > 0 {
      var init := cs[..|cs| - 1];
      GridCell(init, ki, ei, ks, es, k, e);
      var c := cs[|cs| - 1];
      if c.keyword in ki && c.source in ei {
        assert (ki[c.keyword] == k && ei[c.source] == e) <==> (c.keyword, c.source) == (ks[k], es[e]);
      } else {
        assert (c.keyword, c.source) != (ks[k], es[e]);
      }
    }
  }

  function RowSum(r: seq<nat>): nat {
    if |r| == 0 then 0 else r[0] + RowSum(r[1..])
  }

  /** The sum of all cells. */
  function Total(g: seq<seq<nat>>): nat {
    if |g| == 0 then 0 else RowSum(g[0]) + Total(g[1..])
  }

  lemma {:induction false} RowSumUpdate(r: seq<nat>, e: nat, v: nat)
    requires e < |r|
    ensures RowSum(r[e := v]) == RowSum(r) - r[e] + v
  {
    if e > 0 {
      assert r[e := v][1..] == r[1..][e - 1 := v];
      RowSumUpdate(r[1..], e - 1, v);
    } else {
      assert r[e := v][1..] == r[1..];
    }
  }

  lemma {:induction false} TotalUpdate(g: seq<seq<nat>>, k: nat, row: seq<nat>)
    requires k < |g|
    ensures Total(g[k := row]) == Total(g) - RowSum(g[k]) + RowSum(row)
  {
    if k > 0 {
      assert g[k := row][1..] == g[1..][k - 1 := row];
      TotalUpdate(g[1..], k - 1, row);
    } else {
      assert g[k := row][1..] == g[1..];
    }
  }

  /** One `+= 1` adds one to the sum of the matrix. */
  lemma BumpTotal(g: seq<seq<nat>>, k: nat, e: nat)
    requires k < |g| && e < |g[k]|
    ensures Total(Bump(g, k, e)) == Total(g) + 1
  {
    RowSumUpdate(g[k], e, g[k][e] + 1);
    TotalUpdate(g, k, g[k][e := g[k][e] + 1]);
  }

  lemma {:induction false} ZeroRow(n: nat)
    ensures RowSum(seq(n, _ => 0)) == 0
  {
    if n > 0 {
      assert seq(n, _ => 0)[1..] == seq(n - 1, _ => 0);
      ZeroRow(n - 1);
    }
  }

  lemma {:induction false} ZeroTotal(nk: nat, ne: nat)
    ensures Total(ZeroGrid(nk, ne)) == 0
  {
    if nk > 0 {
      assert ZeroGrid(nk, ne)[1..] == ZeroGrid(nk - 1, ne);
      ZeroTotal(nk - 1, ne);
      ZeroRow(ne);
    }
  }

  /** The contexts that pass the guard of line 96. */
  function Guarded(cs: seq<Context>, ki: map<string, nat>, ei: map<string, nat>): seq<Context> {
    if |cs| == 0 then []
    else
      var c := cs[|cs| - 1];
      Guarded(cs[..|cs| - 1], ki, ei) + (if c.keyword in ki && c.source in ei then [c] else [])
  }

  /** The matrix sum is the number of contexts that pass the guard. */
  lemma {:induction false} GridTotal(cs: seq<Context>, ki: map<string, nat>, ei: map<string, nat>, nk: nat, ne: nat)
    requires Below(ki, nk) && Below(ei, ne)
    ensures Total(Grid(cs, ki, ei, nk, ne)) == |Guarded(cs, ki, ei)|
  {
    if |cs| == 0 {
      ZeroTotal(nk, ne);
    } else {
      var init := cs[..|cs| - 1];
      GridTotal(init, ki, ei, nk, ne);
      var c := cs[|cs| - 1];
      if c.keyword in ki && c.source in ei {
        BumpTotal(Grid(init, ki, ei, nk, ne), ki[c.keyword], ei[c.source]);
      }
    }
  }

  /** When every context passes the guard, all of them are counted. */
  lemma {:induction false} GuardedAll(cs: seq<Context>, ki: map<string, nat>, ei: map<string, nat>)
    requires forall c :: c in cs ==> c.keyword in ki && c.source in ei
    ensures Guarded(cs, ki, ei) == cs
  {
    if |cs| > 0 {
      LastSplit(cs);
      GuardedAll(cs[..|cs| - 1], ki, ei);
    }
  }

  /** The source of every context is a collected entry. */
  lemma ContextsSourced(names: seq<string>, fetch: string -> string, cut: string -> seq<string>,
                        extract: (string, string) -> seq<string>, stop: set<string>)
    ensures forall c :: c in ContextsOf(names, fetch, cut, extract, stop) ==> c.source in EntriesOf(names, fetch, cut, stop).m
  {
    EntriesOfSpec(names, fetch, cut, stop);
    ContextsOfSpec(names, fetch, cut, extract, stop);
  }

  /** Every context keyword has a row. */
  lemma KeywordsIndexed(cs: seq<Context>)
    ensures forall c :: c in cs ==> c.keyword in IndexMap(KeywordSet(cs))
  {
    KeywordSetSpec(cs);
    IndexMapSpec(KeywordSet(cs));
    forall c | c in cs ensures c.keyword in IndexMap(KeywordSet(cs)) {
      assert c.keyword in KeywordSet(cs);
    }
  }

  /** Every source that is a key of `d` has a column. */
  lemma SourcesIndexed(cs: seq<Context>, d: ODict<string>)
    requires d.Valid() && forall c :: c in cs ==> c.source in d.m
    ensures forall c :: c in cs ==> c.source in IndexMap(EntryList(d))
  {
    EntryListSpec(d);
  }

  /** The guard of line 96 holds for every context: its keyword is in `keyword_set` and its
      source in `entry_list`. */
  lemma GuardAlwaysHolds(names: seq<string>, fetch: string -> string, cut: string -> seq<string>,
                         extract: (string, string) -> seq<string>, stop: set<string>)
    ensures var cs := ContextsOf(names, fetch, cut, extract, stop);
      forall c :: c in cs ==>
        c.keyword in IndexMap(KeywordSet(cs)) && c.source in IndexMap(EntryList(EntriesOf(names, fetch, cut, stop)))
  {
    var cs := ContextsOf(names, fetch, cut, extract, stop);
    var d := EntriesOf(names, fetch, cut, stop);
    EntriesOfSpec(names, fetch, cut, stop);
    ContextsSourced(names, fetch, cut, extract, stop);
    KeywordsIndexed(cs);
    SourcesIndexed(cs, d);
  }

  /** The matrix cells sum to the number of contexts. */
  lemma MatrixTotal(texts: seq<string>, fetch: string -> string, cut: string -> seq<string>,
                    extract: (string, string) -> seq<string>, stop: set<string>)
    ensures Total(Matrix(texts, fetch, cut, extract, stop)) == |ContextsOf(Names(texts), fetch, cut, extract, stop)|
  {
    var names := Names(texts);
    var cs := ContextsOf(names, fetch, cut, extract, stop);
    var ks, es := KeywordSet(cs), EntryList(EntriesOf(names, fetch, cut, stop));
    GuardAlwaysHolds(names, fetch, cut, extract, stop);
    GridTotal(cs, IndexMap(ks), IndexMap(es), |ks|, |es|);
    GuardedAll(cs, IndexMap(ks), IndexMap(es));
  }

  /** Cell [k][e] of the matrix counts the contexts with the k-th keyword of `keyword_set` and
      the e-th entry of `entry_list`. */
  lemma MatrixCell(texts: seq<string>, fetch: string -> string, cut: string -> seq<string>,
                   extract: (string, string) -> seq<string>, stop: set<string>, k: nat, e: nat)
    requires k < |KeywordSet(ContextsOf(Names(texts), fetch, cut, extract, stop))|
    requires e < |EntryList(EntriesOf(Names(texts), fetch, cut, stop))|
    ensures var cs := ContextsOf(Names(texts), fetch, cut, extract, stop);
      Matrix(texts, fetch, cut, extract, stop)[k][e] ==
        multiset(Pairs(cs))[(KeywordSet(cs)[k], EntryList(EntriesOf(Names(texts), fetch, cut, stop))[e])]
  {
    var names := Names(texts);
    var cs := ContextsOf(names, fetch, cut, extract, stop);
    var d := EntriesOf(names, fetch, cut, stop);
    var ks, es := KeywordSet(cs), EntryList(d);
    EntriesOfSpec(names, fetch, cut, stop);
    KeywordSetSpec(cs);
    EntryListSpec(d);
    GridCell(cs, IndexMap(ks), IndexMap(es), ks, es, k, e);
  }
}
