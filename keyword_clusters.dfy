/** CharacterTagAnalyze-clusters.py: for every cleaned character name the script fetches the
    wiki pages, keeps the valid tokens, asks four keyword extractors for keywords, and records a
    (method, keyword, source) context for each valid keyword. The contexts then fill a
    keyword × entry count matrix, whose rows and columns are the sorted distinct keywords and
    entries. The TF-IDF, TextRank and LDA extractors are one parameter `extract`; the
    frequency list is computed here. KMeans and the CSV output are not modelled. */
module KeywordClusters {
  import opened Wrappers
  import opened Strings
  import opened Seqs
  import opened Sorting
  import opened ODicts
  import opened Keywords

  /** `is_valid_word(w)` */
  predicate IsValidWord(w: string, stop: set<string>) {
    |w| > 1 && w !in stop && !AlnumRun(w) && !DigitRun(w)
  }

  /** One `keyword_contexts` entry: (method, keyword, source). */
  datatype Context = Context(via: string, keyword: string, source: string)

  /** The method names zipped with the four keyword lists. */
  const Methods: seq<string> := ["tfidf", "textrank", "freq", "lda"]

  /** `tokens`: the valid tokenizer words. */
  function ValidTokens(words: seq<string>, stop: set<string>): seq<string> {
    Filter(words, (w: string) => IsValidWord(w, stop))
  }

  /** `freq_keywords = [w for w, _ in Counter(tokens).most_common(20)]` */
  function FreqKeywords(tokens: seq<string>): seq<string> {
    var top := MostCommon(tokens, TopK);
    seq(|top|, i requires 0 <= i < |top| => top[i].0)
  }

  /** The four keyword lists in the order of `Methods`; `extract(m, full_text)` stands for the
      library extractor of method m. */
  function KeywordLists(fullText: string, tokens: seq<string>, extract: (string, string) -> seq<string>): seq<seq<string>> {
    [extract("tfidf", fullText), extract("textrank", fullText), FreqKeywords(tokens), extract("lda", fullText)]
  }

  /** `for w in words: if is_valid_word(w): keyword_contexts.append((method, w, name))` */
  function ListContexts(via: string, words: seq<string>, name: string, stop: set<string>): seq<Context> {
    if |words| == 0 then []
    else
      var w := words[|words| - 1];
      ListContexts(via, words[..|words| - 1], name, stop) + (if IsValidWord(w, stop) then [Context(via, w, name)] else [])
  }

  /** The contexts of the first `n` methods' lists of one entry. */
  function EntryContexts(name: string, lists: seq<seq<string>>, stop: set<string>, n: nat): seq<Context>
    requires n <= |Methods| && n <= |lists|
  {
    if n == 0 then []
    else EntryContexts(name, lists, stop, n - 1) + ListContexts(Methods[n - 1], lists[n - 1], name, stop)
  }

  /** `tokens` of an entry: the valid words of its three pages. */
  function EntryTokens(name: string, fetch: string -> string, cut: string -> seq<string>, stop: set<string>): seq<string> {
    ValidTokens(cut(Combined(fetch, UrlsFor(name, WikiSuffixes))), stop)
  }

  /** `clean_text` of every raw name, in order; the loop cleans each name before testing it. */
  function Names(texts: seq<string>): seq<string> {
    seq(|texts|, i requires 0 <= i < |texts| => CleanText(texts[i]))
  }

  /** The contexts one cleaned name adds; the skipped name adds none. */
  function NameContexts(name: string, fetch: string -> string, cut: string -> seq<string>,
                        extract: (string, string) -> seq<string>, stop: set<string>): seq<Context>
  {
    if name == SkippedName then []
    else
      var tokens := EntryTokens(name, fetch, cut, stop);
      EntryContexts(name, KeywordLists(Join(" ", tokens), tokens, extract), stop, 4)
  }

  /** `keyword_contexts` after the entry loop over the cleaned names. */
  function ContextsOf(names: seq<string>, fetch: string -> string, cut: string -> seq<string>,
                      extract: (string, string) -> seq<string>, stop: set<string>): seq<Context>
  {
    if |names| == 0 then []
    else ContextsOf(names[..|names| - 1], fetch, cut, extract, stop) + NameContexts(names[|names| - 1], fetch, cut, extract, stop)
  }

  /** `entry_clean_texts[name] = full_text`, unless the name is the skipped one. */
  function PutEntry(d: ODict<string>, name: string, fetch: string -> string, cut: string -> seq<string>, stop: set<string>): ODict<string> {
    if name == SkippedName then d else d.Put(name, Join(" ", EntryTokens(name, fetch, cut, stop)))
  }

  /** `entry_clean_texts` after the entry loop over the cleaned names. */
  function EntriesOf(names: seq<string>, fetch: string -> string, cut: string -> seq<string>, stop: set<string>): ODict<string>
  {
    if |names| == 0 then Empty()
    else PutEntry(EntriesOf(names[..|names| - 1], fetch, cut, stop), names[|names| - 1], fetch, cut, stop)
  }

  /** The inner loop over one keyword list. */
  method AddListContexts(contexts: seq<Context>, via: string, words: seq<string>, name: string, stop: set<string>)
    returns (r: seq<Context>)
    ensures r == contexts + ListContexts(via, words, name, stop)
  {
    r := contexts;
    var j := 0;
    while j < |words|
      invariant 0 <= j <= |words|
      invariant r == contexts + ListContexts(via, words[..j], name, stop)
    {
      TakeSnoc(words, j);
      TakeTake(words, j, j + 1);
      if IsValidWord(words[j], stop) {
        r := r + [Context(via, words[j], name)];
      }
      j := j + 1;
    }
    assert words[..j] == words;
  }

  /** The loop over the four (method, keyword list) pairs of one entry. */
  method AddNameContexts(contexts: seq<Context>, name: string, lists: seq<seq<string>>, stop: set<string>)
    returns (r: seq<Context>)
    requires |lists| == |Methods|
    ensures r == contexts + EntryContexts(name, lists, stop, |Methods|)
  {
    r := contexts;
    var m := 0;
    while m < |Methods|
      invariant 0 <= m <= |Methods|
      invariant r == contexts + EntryContexts(name, lists, stop, m)
    {
      AppendAssoc(contexts, EntryContexts(name, lists, stop, m), ListContexts(Methods[m], lists[m], name, stop));
      r := AddListContexts(r, Methods[m], lists[m], name, stop);
      m := m + 1;
    }
  }

  /** The body of the entry loop for one raw name. */
  method AddEntry(contexts: seq<Context>, entries: ODict<string>, text: string, fetch: string -> string,
                  cut: string -> seq<string>, extract: (string, string) -> seq<string>, stop: set<string>)
    returns (contexts': seq<Context>, entries': ODict<string>)
    ensures contexts' == contexts + NameContexts(CleanText(text), fetch, cut, extract, stop)
    ensures entries' == PutEntry(entries, CleanText(text), fetch, cut, stop)
  {
    var name := CleanText(text);
    if name == SkippedName {
      contexts', entries' := contexts, entries;
      assert contexts + [] == contexts;
    } else {
      var tokens := EntryTokens(name, fetch, cut, stop);
      var fullText := Join(" ", tokens);
      entries' := entries.Put(name, fullText);
      contexts' := AddNameContexts(contexts, name, KeywordLists(fullText, tokens, extract), stop);
    }
  }

  /** One more name extends both folds by one round. */
  lemma FoldStep(names: seq<string>, i: nat, fetch: string -> string, cut: string -> seq<string>,
                 extract: (string, string) -> seq<string>, stop: set<string>)
    requires i < |names|
    ensures ContextsOf(names[..i + 1], fetch, cut, extract, stop) == ContextsOf(names[..i], fetch, cut, extract, stop) + NameContexts(names[i], fetch, cut, extract, stop)
    ensures EntriesOf(names[..i + 1], fetch, cut, stop) == PutEntry(EntriesOf(names[..i], fetch, cut, stop), names[i], fetch, cut, stop)
  {
    TakeSnoc(names, i);
    TakeTake(names, i, i + 1);
  }

  /** The entry loop of lines 65-86. */
  method EntryLoop(texts: seq<string>, fetch: string -> string, cut: string -> seq<string>,
                   extract: (string, string) -> seq<string>, stop: set<string>)
    returns (contexts: seq<Context>, entries: ODict<string>)
    ensures contexts == ContextsOf(Names(texts), fetch, cut, extract, stop)
    ensures entries == EntriesOf(Names(texts), fetch, cut, stop)
  {
    ghost var names := Names(texts);
    contexts, entries := [], Empty();
    var i := 0;
    while i < |texts|
      invariant 0 <= i <= |texts|
      invariant contexts == ContextsOf(names[..i], fetch, cut, extract, stop)
      invariant entries == EntriesOf(names[..i], fetch, cut, stop)
    {
      FoldStep(names, i, fetch, cut, extract, stop);
      assert names[i] == CleanText(texts[i]);
      contexts, entries := AddEntry(contexts, entries, texts[i], fetch, cut, extract, stop);
      i := i + 1;
    }
    assert names[..i] == names;
  }

  // ---------------------------------------------------------------------------------------
  // The co-occurrence matrix

  /** The keyword of every context, in order. */
  function KeywordsOf(cs: seq<Context>): seq<string> {
    seq(|cs|, i requires 0 <= i < |cs| => cs[i].keyword)
  }

  /** `keyword_set = sorted({kw for _, kw, _ in keyword_contexts})` */
  function KeywordSet(cs: seq<Context>): seq<string> {
    SortedStrings(KeywordsOf(cs))
  }

  /** `entry_list = sorted(entry_clean_texts.keys())` */
  function EntryList(entries: ODict<string>): seq<string> {
    SortedStrings(entries.keys)
  }

  /** `{x: i for i, x in enumerate(xs)}`: a later position of the same string replaces an
      earlier one. */
  function IndexMap(xs: seq<string>): (m: map<string, nat>)
    ensures forall x :: x in m ==> m[x] < |xs|
  {
    if |xs| == 0 then map[] else IndexMap(xs[..|xs| - 1])[xs[|xs| - 1] := |xs| - 1]
  }

  /** Every index the map holds lies below `n`. */
  predicate Below(ix: map<string, nat>, n: nat) {
    forall x :: x in ix ==> ix[x] < n
  }

  /** `np.zeros((nk, ne))` */
  function ZeroGrid(nk: nat, ne: nat): (g: seq<seq<nat>>)
    ensures |g| == nk && forall k :: 0 <= k < nk ==> |g[k]| == ne
  {
    seq(nk, _ => seq(ne, _ => 0))
  }

  /** `matrix[k, e] += 1` */
  function Bump(g: seq<seq<nat>>, k: nat, e: nat): seq<seq<nat>>
    requires k < |g| && e < |g[k]|
  {
    g[k := g[k][e := g[k][e] + 1]]
  }

  /** The matrix after the loop of lines 95-97 over the contexts. */
  function Grid(cs: seq<Context>, ki: map<string, nat>, ei: map<string, nat>, nk: nat, ne: nat): (g: seq<seq<nat>>)
    requires Below(ki, nk) && Below(ei, ne)
    ensures |g| == nk && forall k :: 0 <= k < nk ==> |g[k]| == ne
  {
    if |cs| == 0 then ZeroGrid(nk, ne)
    else
      var g := Grid(cs[..|cs| - 1], ki, ei, nk, ne);
      var c := cs[|cs| - 1];
      if c.keyword in ki && c.source in ei then Bump(g, ki[c.keyword], ei[c.source]) else g
  }

  /** The matrix loop, over a numpy array of shape (nk, ne). */
  method BuildMatrix(cs: seq<Context>, ki: map<string, nat>, ei: map<string, nat>, nk: nat, ne: nat)
    returns (matrix: array2<nat>)
    requires Below(ki, nk) && Below(ei, ne)
    ensures fresh(matrix) && matrix.Length0 == nk && matrix.Length1 == ne
    ensures forall k, e :: 0 <= k < nk && 0 <= e < ne ==> matrix[k, e] == Grid(cs, ki, ei, nk, ne)[k][e]
  {
    matrix := new nat[nk, ne]((_, _) => 0);
    var i := 0;
    while i < |cs|
      invariant 0 <= i <= |cs|
      invariant forall k, e :: 0 <= k < nk && 0 <= e < ne ==> matrix[k, e] == Grid(cs[..i], ki, ei, nk, ne)[k][e]
    {
      TakeSnoc(cs, i);
      TakeTake(cs, i, i + 1);
      var c := cs[i];
      if c.keyword in ki && c.source in ei {
        var k, e := ki[c.keyword], ei[c.source];
        matrix[k, e] := matrix[k, e] + 1;
      }
      i := i + 1;
    }
    assert cs[..i] == cs;
  }

  /** The whole script up to the clustering: the matrix over the sorted keywords and entries. */
  function Matrix(texts: seq<string>, fetch: string -> string, cut: string -> seq<string>,
                  extract: (string, string) -> seq<string>, stop: set<string>): seq<seq<nat>>
  {
    var cs := ContextsOf(Names(texts), fetch, cut, extract, stop);
    var ks := KeywordSet(cs);
    var es := EntryList(EntriesOf(Names(texts), fetch, cut, stop));
    Grid(cs, IndexMap(ks), IndexMap(es), |ks|, |es|)
  }
}
