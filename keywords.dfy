/** The preprocessing of the keyword scripts CharacterTagAnalyze-freq.py, -LDA.py, -textrank.py
    and TagAnalyze.py: the character names of the 译名 column are cleaned into wiki page keys,
    each key gets its list of page URLs, the fetched pages are tokenised, and the tokens are
    filtered against a stopword set and the set of character keys before the top 20 are chosen.

    Fetching a page (`fetch`), the jieba tokenizer (`cut`) and the keyword extractors
    (TextRank weights, TF-IDF weights) are parameters: the model covers what the scripts do
    around them. CharacterTagAnalyze-clusters.py shares these pieces and is modelled in module
    KeywordClusters. */
module Keywords {
  import opened Wrappers
  import opened Strings
  import opened Seqs
  import opened Sorting
  import opened Sheets
  import opened ODicts

  const BaseUrl: string := "https://thbwiki.cc/"
  /** The one character every script leaves out. */
  const SkippedName: string := "蕾拉·普莉兹姆利巴"
  const RemoveKeywords: seq<string> := ["的", "我们", "公司", "产品"]
  /** `suffixes` of CharacterTagAnalyze-clusters.py and TagAnalyze.py. */
  const WikiSuffixes: seq<string> := ["/二次设定", "/分析考据", "/"]
  /** `suffixes` of the -freq, -LDA and -textrank scripts. */
  const ShortSuffixes: seq<string> := ["/二次设定", "/"]
  /** The length of every top list. */
  const TopK: nat := 20

  // ---------------------------------------------------------------------------------------
  // Names

  /** `for name in df.dropna(subset=["译名 "])["译名 "]: str(name)`: the `str()` of each
      present cell of the 译名 column, in row order. */
  function NameTexts(cells: seq<Cell>): seq<string> {
    if |cells| == 0 then []
    else
      var c := cells[|cells| - 1];
      NameTexts(cells[..|cells| - 1]) + (if c.Missing? then [] else [PyStr(c)])
  }

  /** `re.sub(r"（.*?）", "", text).replace("天为", "帝")` */
  function Unbracket(text: string): string {
    ReplaceAll(RemoveFullwidthParens(text), "天为", "帝")
  }

  /** `clean_text` of the clusters script, and the key of the -freq and -LDA scripts. */
  function CleanText(text: string): (r: string)
    ensures Stripped(r)
  {
    Strip(Unbracket(text))
  }

  /** The key of the -textrank script: the cleaned text with leading '/' dropped, then stripped. */
  function SlashKey(text: string): (r: string)
    ensures Stripped(r)
  {
    Strip(LStripChar(Unbracket(text), '/'))
  }

  /** `p` of TagAnalyze.py: leading '/' dropped, but never stripped. */
  function PartialPath(text: string): (r: string)
    ensures r == [] || r[0] != '/'
  {
    LStripChar(Unbracket(text), '/')
  }

  // ---------------------------------------------------------------------------------------
  // Page URLs

  /** `[base_url + key + suf for suf in suffixes]` */
  function UrlsFor(key: string, suffixes: seq<string>): (r: seq<string>)
    ensures |r| == |suffixes|
  {
    if |suffixes| == 0 then []
    else UrlsFor(key, suffixes[..|suffixes| - 1]) + [BaseUrl + key + suffixes[|suffixes| - 1]]
  }

  /** `name_to_docs`: every raw name other than the skipped one, keyed by `keyOf` of it, maps to
      the URLs of its key; a repeated key gets its list rebuilt and keeps its first position. */
  function NameDocs(texts: seq<string>, keyOf: string -> string, suffixes: seq<string>): ODict<seq<string>> {
    if |texts| == 0 then Empty()
    else
      var d := NameDocs(texts[..|texts| - 1], keyOf, suffixes);
      var t := texts[|texts| - 1];
      if t == SkippedName then d else d.Put(keyOf(t), UrlsFor(keyOf(t), suffixes))
  }

  /** `name_to_docs[key] = []; for suf in suffixes: name_to_docs[key].append(base_url + key + suf)` */
  method BuildUrls(key: string, suffixes: seq<string>) returns (urls: seq<string>)
    ensures urls == UrlsFor(key, suffixes)
  {
    urls := [];
    var j := 0;
    while j < |suffixes|
      invariant 0 <= j <= |suffixes|
      invariant urls == UrlsFor(key, suffixes[..j])
    {
      TakeSnoc(suffixes, j);
      TakeTake(suffixes, j, j + 1);
      urls := urls + [BaseUrl + key + suffixes[j]];
      j := j + 1;
    }
    assert suffixes[..j] == suffixes;
  }

  /** The name loop that fills `name_to_docs`. */
  method BuildNameDocs(texts: seq<string>, keyOf: string -> string, suffixes: seq<string>)
    returns (docs: ODict<seq<string>>)
    ensures docs == NameDocs(texts, keyOf, suffixes)
  {
    docs := Empty();
    var i := 0;
    while i < |texts|
      invariant 0 <= i <= |texts|
      invariant docs == NameDocs(texts[..i], keyOf, suffixes)
    {
      TakeSnoc(texts, i);
      TakeTake(texts, i, i + 1);
      var text := texts[i];
      if text != SkippedName {
        var key := keyOf(text);
        var urls := BuildUrls(key, suffixes);
        docs := docs.Put(key, urls);
      }
      i := i + 1;
    }
    assert texts[..i] == texts;
  }

  /** `texts = [fetch_text(url) for url in urls]` */
  function Fetched(fetch: string -> string, urls: seq<string>): seq<string> {
    seq(|urls|, i requires 0 <= i < |urls| => fetch(urls[i]))
  }

  /** `' '.join(t for t in texts if t)`: the fetched pages of one name, empty ones dropped. */
  function Combined(fetch: string -> string, urls: seq<string>): string {
    Join(" ", Filter(Fetched(fetch, urls), (t: string) => t != ""))
  }

  // ---------------------------------------------------------------------------------------
  // Stopwords

  /** `{w.strip() for w in f if w.strip()}` over the lines of the stopword file. */
  function FileWords(lines: seq<string>): set<string> {
    set l | l in lines && Strip(l) != "" :: Strip(l)
  }

  /** `stopwords = set(remove_keywords)`, then `|=` the file words unless the file is missing
      (`file == None`). */
  function Stopwords(file: Option<seq<string>>): set<string> {
    (set w | w in RemoveKeywords) + (if file.Some? then FileWords(file.value) else {})
  }

  /** TagAnalyze.py: the file words replace the initial empty set, then `|= set(remove_keywords)`. */
  function TagStopwords(file: Option<seq<string>>): set<string> {
    var fromFile := if file.Some? then FileWords(file.value) else {};
    fromFile + (set w | w in RemoveKeywords)
  }

  // ---------------------------------------------------------------------------------------
  // Word tests

  /** `re.fullmatch(r"[A-Za-z0-9]", w)` */
  predicate SingleAlnum(w: string) {
    |w| == 1 && IsAsciiAlnum(w[0])
  }

  /** `re.fullmatch(r"[A-Za-z0-9]+", w)` */
  predicate AlnumRun(w: string) {
    |w| > 0 && forall i :: 0 <= i < |w| ==> IsAsciiAlnum(w[i])
  }

  /** `re.fullmatch(r"\d+", w)` */
  predicate DigitRun(w: string) {
    |w| > 0 && AllDecimal(w)
  }

  /** The word filter of CharacterTagAnalyze-freq.py. */
  predicate FreqKeeps(w: string, stop: set<string>, names: set<string>) {
    w !in stop && w !in names && !SingleAlnum(w) && |Strip(w)| > 1
  }

  /** The checks of the -LDA token loop on one tokenizer word: the stripped word, or None where
      a `continue` drops it. */
  function LdaToken(w: string, stop: set<string>, names: set<string>): Option<string> {
    var t := Strip(w);
    if t == "" || t in stop || t in names || SingleAlnum(t) || DigitRun(t) || |t| <= 1 then None
    else Some(t)
  }

  /** The score filter of CharacterTagAnalyze-textrank.py. */
  predicate TextRankKeeps(w: string, stop: set<string>, names: set<string>) {
    w !in stop && w !in names && !SingleAlnum(w)
  }

  /** The token filter of TagAnalyze.py: `w.strip() and w not in stopwords`. */
  predicate TagKeeps(w: string, stop: set<string>) {
    Strip(w) != "" && w !in stop
  }

  // ---------------------------------------------------------------------------------------
  // Top lists

  /** `sorted(s, key=weight, reverse=True)[:n]`: stable, so equal weights keep input order. */
  function TopBy<T>(s: seq<T>, weight: T -> real, n: nat): seq<T> {
    var sorted := SortWith(s, (a: T, b: T) => weight(a) >= weight(b));
    sorted[..if |sorted| < n then |sorted| else n]
  }

  /** `Counter(ws).items()`: each distinct word, in order of first occurrence, with the number
      of times it occurs. */
  function CounterItems(ws: seq<string>): seq<(string, nat)> {
    var ds := AppendNew([], ws);
    seq(|ds|, i requires 0 <= i < |ds| => (ds[i], multiset(ws)[ds[i]]))
  }

  /** `Counter(ws).most_common(n)`: the items stable-sorted by count, largest first, cut to n. */
  function MostCommon(ws: seq<string>, n: nat): seq<(string, nat)> {
    TopBy(CounterItems(ws), (p: (string, nat)) => p.1 as real, n)
  }

  /** `{w: s for w, s in pairs if keep(w)}`: a later pair for the same word replaces the score
      and keeps the first position. */
  function ScoreDict(pairs: seq<(string, real)>, keep: string -> bool): ODict<real> {
    if |pairs| == 0 then Empty()
    else
      var d := ScoreDict(pairs[..|pairs| - 1], keep);
      var p := pairs[|pairs| - 1];
      if keep(p.0) then d.Put(p.0, p.1) else d
  }

  /** `sorted(d.items(), key=lambda x: x[1], reverse=True)[:n]` */
  function TopScores(d: ODict<real>, n: nat): seq<(string, real)> {
    TopBy(d.Items(), (p: (string, real)) => p.1, n)
  }

  // ---------------------------------------------------------------------------------------
  // CharacterTagAnalyze-freq.py

  /** `filtered` for one name's URLs. */
  function FreqFiltered(words: seq<string>, stop: set<string>, names: set<string>): seq<string> {
    Filter(words, (w: string) => FreqKeeps(w, stop, names))
  }

  /** The (name, top-20 list) pairs the loop over `name_to_docs.items()` writes out. */
  function FreqReport(docs: ODict<seq<string>>, stop: set<string>, fetch: string -> string,
                      cut: string -> seq<string>): seq<(string, seq<(string, nat)>)>
  {
    var items := docs.Items();
    seq(|items|, i requires 0 <= i < |items| =>
      (items[i].0, MostCommon(FreqFiltered(cut(Combined(fetch, items[i].1)), stop, docs.m.Keys), TopK)))
  }

  /** The whole -freq script from the 译名 column and the stopword file. */
  function FreqScript(cells: seq<Cell>, file: Option<seq<string>>, fetch: string -> string,
                      cut: string -> seq<string>): seq<(string, seq<(string, nat)>)>
  {
    FreqReport(NameDocs(NameTexts(cells), CleanText, ShortSuffixes), Stopwords(file), fetch, cut)
  }

  // ---------------------------------------------------------------------------------------
  // CharacterTagAnalyze-LDA.py

  /** The values of the successful results of `f` over `xs`, in order. */
  function SomeValues<A, B>(xs: seq<A>, f: A -> Option<B>): seq<B> {
    if |xs| == 0 then []
    else
      var y := f(xs[|xs| - 1]);
      SomeValues(xs[..|xs| - 1], f) + (if y.Some? then [y.value] else [])
  }

  /** `tokens` of one document: the kept stripped words, in order. */
  function LdaTokens(words: seq<string>, stop: set<string>, names: set<string>): seq<string> {
    SomeValues(words, (w: string) => LdaToken(w, stop, names))
  }

  /** One entry of `combined_preprocessed`. */
  function LdaDocument(urls: seq<string>, fetch: string -> string, cut: string -> seq<string>,
                       stop: set<string>, names: set<string>): string
  {
    Join(" ", LdaTokens(cut(Combined(fetch, urls)), stop, names))
  }

  /** The token loop, with its `continue` checks in the script's order. */
  method FilterTokens(words: seq<string>, stop: set<string>, names: set<string>) returns (tokens: seq<string>)
    ensures tokens == LdaTokens(words, stop, names)
  {
    tokens := [];
    var i := 0;
    while i < |words|
      invariant 0 <= i <= |words|
      invariant tokens == LdaTokens(words[..i], stop, names)
    {
      TakeSnoc(words, i);
      TakeTake(words, i, i + 1);
      var w := Strip(words[i]);
      i := i + 1;
      if w == "" { continue; }
      if w in stop { continue; }
      if w in names { continue; }
      if SingleAlnum(w) || DigitRun(w) { continue; }
      if |w| <= 1 { continue; }
      tokens := tokens + [w];
    }
    assert words[..i] == words;
  }

  /** The loop over `name_to_docs.items()` that fills `combined_preprocessed` and `names`. */
  method LdaDocuments(docs: ODict<seq<string>>, fetch: string -> string, cut: string -> seq<string>,
                      stop: set<string>, nameSet: set<string>)
    returns (combined: seq<string>, names: seq<string>)
    ensures |combined| == |docs.Items()| && |names| == |docs.Items()|
    ensures forall i :: 0 <= i < |names| ==>
      names[i] == docs.Items()[i].0 && combined[i] == LdaDocument(docs.Items()[i].1, fetch, cut, stop, nameSet)
  {
    var items := docs.Items();
    combined, names := [], [];
    var i := 0;
    while i < |items|
      invariant 0 <= i <= |items|
      invariant |combined| == i && |names| == i
      invariant forall k :: 0 <= k < i ==>
        names[k] == items[k].0 && combined[k] == LdaDocument(items[k].1, fetch, cut, stop, nameSet)
    {
      var name := items[i].0;
      var text := Combined(fetch, items[i].1);
      var tokens := FilterTokens(cut(text), stop, nameSet);
      combined := combined + [Join(" ", tokens)];
      names := names + [name];
      i := i + 1;
    }
  }

  // ---------------------------------------------------------------------------------------
  // CharacterTagAnalyze-textrank.py

  /** The loop over `name_to_docs.items()` that fills `combined_docs` and `names`. */
  method CombinedDocs(docs: ODict<seq<string>>, fetch: string -> string)
    returns (combined: seq<string>, names: seq<string>)
    ensures |combined| == |docs.Items()| && |names| == |docs.Items()|
    ensures forall i :: 0 <= i < |names| ==>
      names[i] == docs.Items()[i].0 && combined[i] == Combined(fetch, docs.Items()[i].1)
  {
    var items := docs.Items();
    combined, names := [], [];
    var i := 0;
    while i < |items|
      invariant 0 <= i <= |items|
      invariant |combined| == i && |names| == i
      invariant forall k :: 0 <= k < i ==> names[k] == items[k].0 && combined[k] == Combined(fetch, items[k].1)
    {
      combined := combined + [Combined(fetch, items[i].1)];
      names := names + [items[i].0];
      i := i + 1;
    }
  }

  /** `top_items` for one name, from the TextRank `keywords` (word, weight) of its document. */
  function TextRankTop(keywords: seq<(string, real)>, stop: set<string>, names: set<string>): seq<(string, real)> {
    TopScores(ScoreDict(keywords, (w: string) => TextRankKeeps(w, stop, names)), TopK)
  }

  // ---------------------------------------------------------------------------------------
  // TagAnalyze.py

  /** `urls`: one URL per suffix for each kept name, names in row order. */
  function TagUrls(texts: seq<string>): seq<string> {
    if |texts| == 0 then []
    else
      var t := texts[|texts| - 1];
      TagUrls(texts[..|texts| - 1]) + (if t == SkippedName then [] else UrlsFor(PartialPath(t), WikiSuffixes))
  }

  /** The loop that fills `urls`. */
  method BuildTagUrls(texts: seq<string>) returns (urls: seq<string>)
    ensures urls == TagUrls(texts)
  {
    urls := [];
    var i := 0;
    while i < |texts|
      invariant 0 <= i <= |texts|
      invariant urls == TagUrls(texts[..i])
    {
      TakeSnoc(texts, i);
      TakeTake(texts, i, i + 1);
      var text := texts[i];
      if text != SkippedName {
        // the suffix loop appends the URLs that BuildUrls lists
        var u := BuildUrls(PartialPath(text), WikiSuffixes);
        urls := urls + u;
      }
      i := i + 1;
    }
    assert texts[..i] == texts;
  }

  /** One entry of `tokenized_docs`. */
  function TagDocument(words: seq<string>, stop: set<string>): string {
    Join(" ", Filter(words, (w: string) => TagKeeps(w, stop)))
  }

  /** The loop that fills `tokenized_docs`, one entry per fetched document. */
  method TokenizeDocs(documents: seq<string>, cut: string -> seq<string>, stop: set<string>)
    returns (tokenized: seq<string>)
    ensures |tokenized| == |documents|
    ensures forall i :: 0 <= i < |documents| ==> tokenized[i] == TagDocument(cut(documents[i]), stop)
  {
    tokenized := [];
    var i := 0;
    while i < |documents|
      invariant 0 <= i <= |documents| && |tokenized| == i
      invariant forall k :: 0 <= k < i ==> tokenized[k] == TagDocument(cut(documents[k]), stop)
    {
      tokenized := tokenized + [TagDocument(cut(documents[i]), stop)];
      i := i + 1;
    }
  }

  /** `top20` from the TF-IDF (feature, summed weight) pairs. */
  function TagTop(features: seq<(string, real)>, stop: set<string>): seq<(string, real)> {
    TopScores(ScoreDict(features, (w: string) => w !in stop), TopK)
  }
}
