/** Character-MusicAnalyze.py: how a character's own popularity compares with that of the
    songs associated with it, within each region and across the two regions.

    A grouped sheet is modelled as its rows with the columns the script reads. The vote shares
    and the standardized shares (`StandardScaler` output) of a row are given values: the
    share column is `ShareColumn`, the standardized column comes from outside the model. */
module CharacterMusic {
  import opened Wrappers
  import opened Strings
  import opened Seqs
  import opened Sorting

  // ---------------------------------------------------------------------------------------
  // Vote shares (lines 79-93)

  /** `df[col].sum()`: missing cells are skipped. */
  function TotalVotes(col: seq<Option<int>>): int {
    if |col| == 0 then 0 else (if col[0].Some? then col[0].value else 0) + TotalVotes(col[1..])
  }

  /** One cell of `df_grouped[col] / total`; None where pandas produces NaN or an infinity
      (a missing vote, or a zero total). */
  function Share(v: Option<int>, total: int): Option<real> {
    if v.Some? && total != 0 then Some(v.value as real / total as real) else None
  }

  /** The `得票率` column: the grouped sheet's votes over the RAW sheet's total. */
  function ShareColumn(grouped: seq<Option<int>>, raw: seq<Option<int>>): (r: seq<Option<real>>)
    ensures |r| == |grouped|
  {
    var total := TotalVotes(raw);
    seq(|grouped|, i requires 0 <= i < |grouped| => Share(grouped[i], total))
  }

  // ---------------------------------------------------------------------------------------
  // Rows and names

  datatype Region = Cn | Jp

  /** A grouped character row: name, vote share and standardized share (None where NaN). */
  datatype CharRow = CharRow(name: string, share: Option<real>, std: Option<real>)

  /** A grouped song row: title (`译名`), vote share, standardized share and the
      `所属角色` cell (None where missing). */
  datatype SongRow = SongRow(title: Option<string>, share: real, std: real, assoc: Option<string>)

  /** `dict(zip(df_fun_map['日文名'], df_fun_map['译名']))`: a later pair for the same
      Japanese name wins. */
  function NameMap(pairs: seq<(string, string)>): map<string, string> {
    if |pairs| == 0 then map[]
    else NameMap(pairs[..|pairs| - 1])[pairs[|pairs| - 1].0 := pairs[|pairs| - 1].1]
  }

  /** The unified character name: Chinese names as they are, Japanese names through
      `char_name_map` with the name itself as fallback. */
  function Unify(region: Region, nameMap: map<string, string>, name: string): string {
    if region == Cn then name else if name in nameMap then nameMap[name] else name
  }

  // ---------------------------------------------------------------------------------------
  // calculate_character_avg_music_popularity_for_region (lines 106-177)

  /** What a song credits to each of its characters: its (std, raw) pair. */
  datatype Credit = Credit(std: real, raw: real)

  /** `[c.strip() for c in a.split('|')]` */
  function Pieces(a: string): seq<string>
  {
    var parts := Split(a, '|');
    seq(|parts|, i requires 0 <= i < |parts| => Strip(parts[i]))
  }

  /** The unified names a song row lists, one per '|'-separated, trimmed piece; none when the
      association cell is missing. */
  function CreditedNames(row: SongRow, region: Region, nameMap: map<string, string>): (r: seq<string>)
    ensures row.assoc.None? ==> r == []
  {
    if row.assoc.None? then [] else UnifyAll(region, nameMap, Pieces(row.assoc.value))
  }

  function UnifyAll(region: Region, nameMap: map<string, string>, names: seq<string>): (r: seq<string>)
    ensures |r| == |names| && forall i :: 0 <= i < |names| ==> r[i] == Unify(region, nameMap, names[i])
  {
    seq(|names|, i requires 0 <= i < |names| => Unify(region, nameMap, names[i]))
  }

  /** `m.get(c, [])` */
  function Lookup(m: map<string, seq<Credit>>, c: string): seq<Credit> {
    if c in m then m[c] else []
  }

  /** `character_song_data.setdefault(name, []).append(credit)` for each name in turn. */
  function AddCredits(m: map<string, seq<Credit>>, names: seq<string>, cr: Credit): map<string, seq<Credit>> {
    if |names| == 0 then m
    else
      var m' := AddCredits(m, names[..|names| - 1], cr);
      var n := names[|names| - 1];
      m'[n := Lookup(m', n) + [cr]]
  }

  /** `character_song_data` after the loop over the song rows. */
  function Credits(songs: seq<SongRow>, region: Region, nameMap: map<string, string>): map<string, seq<Credit>> {
    if |songs| == 0 then map[]
    else
      var row := songs[|songs| - 1];
      AddCredits(Credits(songs[..|songs| - 1], region, nameMap), CreditedNames(row, region, nameMap), Credit(row.std, row.share))
  }

  /** `n` copies of `x`. */
  function Repeat<T>(x: T, n: nat): (r: seq<T>)
    ensures |r| == n && forall i :: 0 <= i < n ==> r[i] == x
  {
    seq(n, _ => x)
  }

  /** Reference view of the credits, character by character: for each song in order, one full
      credit per time the song lists the character. */
  function CreditsFor(songs: seq<SongRow>, region: Region, nameMap: map<string, string>, c: string): seq<Credit> {
    if |songs| == 0 then []
    else
      var row := songs[|songs| - 1];
      CreditsFor(songs[..|songs| - 1], region, nameMap, c)
        + Repeat(Credit(row.std, row.share), multiset(CreditedNames(row, region, nameMap))[c])
  }

  /** One more name credited. */
  lemma AddCreditsSnoc(m: map<string, seq<Credit>>, names: seq<string>, n: string, cr: Credit)
    ensures AddCredits(m, names + [n], cr) == AddCredits(m, names, cr)[n := Lookup(AddCredits(m, names, cr), n) + [cr]]
  {
    assert (names + [n])[..|names|] == names;
  }

  /** The loop of lines 121-139. */
  method BuildCredits(songs: seq<SongRow>, region: Region, nameMap: map<string, string>)
    returns (data: map<string, seq<Credit>>)
    ensures data == Credits(songs, region, nameMap)
  {
    data := map[];
    var i := 0;
    while i < |songs|
      invariant 0 <= i <= |songs|
      invariant data == Credits(songs[..i], region, nameMap)
    {
      TakeTake(songs, i, i + 1);
      data := CreditSong(data, songs[i], region, nameMap);
      i := i + 1;
    }
    assert songs[..i] == songs;
  }

  /** The body of that loop for one song row. */
  method CreditSong(data0: map<string, seq<Credit>>, row: SongRow, region: Region, nameMap: map<string, string>)
    returns (data: map<string, seq<Credit>>)
    ensures data == AddCredits(data0, CreditedNames(row, region, nameMap), Credit(row.std, row.share))
  {
    data := data0;
    if row.assoc.Some? {
      var pieces := Pieces(row.assoc.value);
      ghost var names := UnifyAll(region, nameMap, pieces);
      var j := 0;
      while j < |pieces|
        invariant 0 <= j <= |pieces|
        invariant data == AddCredits(data0, names[..j], Credit(row.std, row.share))
      {
        var charUnified := Unify(region, nameMap, pieces[j]);
        var recs := if charUnified in data then data[charUnified] else [];
        AddCreditsSnoc(data0, names[..j], charUnified, Credit(row.std, row.share));
        TakeSnoc(names, j);
        data := data[charUnified := recs + [Credit(row.std, row.share)]];
        j := j + 1;
      }
      assert names[..j] == names;
    }
  }

  /** Every list the loop builds holds at least one credit. */
  lemma {:induction false} AddCreditsNonEmpty(m: map<string, seq<Credit>>, names: seq<string>, cr: Credit)
    requires forall c :: c in m ==> |m[c]| > 0
    ensures forall c :: c in AddCredits(m, names, cr) ==> |AddCredits(m, names, cr)[c]| > 0
  {
    if |names| > 0 {
      AddCreditsNonEmpty(m, names[..|names| - 1], cr);
    }
  }

  lemma {:induction false} CreditsNonEmpty(songs: seq<SongRow>, region: Region, nameMap: map<string, string>)
    ensures forall c :: c in Credits(songs, region, nameMap) ==> |Credits(songs, region, nameMap)[c]| > 0
  {
    if |songs| > 0 {
      var row := songs[|songs| - 1];
      CreditsNonEmpty(songs[..|songs| - 1], region, nameMap);
      AddCreditsNonEmpty(Credits(songs[..|songs| - 1], region, nameMap), CreditedNames(row, region, nameMap), Credit(row.std, row.share));
    }
  }

  /** `np.mean(xs)` */
  function Mean(xs: seq<real>): real
    requires |xs| > 0
  {
    SumR(xs) / |xs| as real
  }

  function Stds(recs: seq<Credit>): (r: seq<real>)
    ensures |r| == |recs| && forall i :: 0 <= i < |recs| ==> r[i] == recs[i].std
  {
    seq(|recs|, i requires 0 <= i < |recs| => recs[i].std)
  }

  function Raws(recs: seq<Credit>): (r: seq<real>)
    ensures |r| == |recs| && forall i :: 0 <= i < |recs| ==> r[i] == recs[i].raw
  {
    seq(|recs|, i requires 0 <= i < |recs| => recs[i].raw)
  }

  /** One entry of `results`: mean std, mean raw share and number of credits. */
  datatype Summary = Summary(avgStd: real, avgRaw: real, count: nat)

  function Averages(data: map<string, seq<Credit>>): map<string, Summary>
    requires forall c :: c in data ==> |data[c]| > 0
  {
    map c | c in data :: Summary(Mean(Stds(data[c])), Mean(Raws(data[c])), |data[c]|)
  }

  /** One row of `merged`: the character row with its unified name and its song columns. */
  datatype Analysis = Analysis(name: string, share: Option<real>, std: Option<real>, avgStd: real, avgRaw: real, count: nat)

  /** The left merge for one character row, with 0 where no song credits the character. */
  function MergeRow(row: CharRow, region: Region, nameMap: map<string, string>, avgs: map<string, Summary>): Analysis {
    var u := Unify(region, nameMap, row.name);
    if u in avgs then Analysis(u, row.share, row.std, avgs[u].avgStd, avgs[u].avgRaw, avgs[u].count)
    else Analysis(u, row.share, row.std, 0.0, 0.0, 0)
  }

  /** `calculate_character_avg_music_popularity_for_region(...)`; None where no song row lists
      a character, because the merge then finds no `角色名称_统一` column in the empty results
      frame and raises. */
  function RegionAnalysis(chars: seq<CharRow>, songs: seq<SongRow>, region: Region, nameMap: map<string, string>): Option<seq<Analysis>> {
    var data := Credits(songs, region, nameMap);
    CreditsNonEmpty(songs, region, nameMap);
    var avgs := Averages(data);
    if |data| == 0 then None
    else Some(seq(|chars|, i requires 0 <= i < |chars| => MergeRow(chars[i], region, nameMap, avgs)))
  }

  // ---------------------------------------------------------------------------------------
  // process_music_data_for_cross_region_analysis (lines 311-332)

  /** One row of `processed_music_data`: song title, unified character, std share, region. */
  datatype CrossRow = CrossRow(song: Option<string>, character: string, std: real, region: Region)

  /** The rows one song contributes: here every name goes through `char_name_map`, whatever
      the region. */
  function SongCross(row: SongRow, region: Region, nameMap: map<string, string>): (r: seq<CrossRow>)
    ensures row.assoc.None? ==> r == []
  {
    if row.assoc.None? then [] else CrossOf(row.title, row.std, region, Pieces(row.assoc.value), nameMap)
  }

  function CrossOf(title: Option<string>, std: real, region: Region, names: seq<string>, nameMap: map<string, string>): (r: seq<CrossRow>)
    ensures |r| == |names|
    ensures forall i :: 0 <= i < |names| ==> r[i] == CrossRow(title, Unify(Jp, nameMap, names[i]), std, region)
  {
    seq(|names|, i requires 0 <= i < |names| => CrossRow(title, Unify(Jp, nameMap, names[i]), std, region))
  }

  function CrossRows(songs: seq<SongRow>, region: Region, nameMap: map<string, string>): seq<CrossRow> {
    if |songs| == 0 then []
    else CrossRows(songs[..|songs| - 1], region, nameMap) + SongCross(songs[|songs| - 1], region, nameMap)
  }

  method ProcessMusicCross(songs: seq<SongRow>, region: Region, nameMap: map<string, string>)
    returns (processed: seq<CrossRow>)
    ensures processed == CrossRows(songs, region, nameMap)
  {
    processed := [];
    var i := 0;
    while i < |songs|
      invariant 0 <= i <= |songs|
      invariant processed == CrossRows(songs[..i], region, nameMap)
    {
      TakeTake(songs, i, i + 1);
      var rows := CrossSong(songs[i], region, nameMap);
      processed := processed + rows;
      i := i + 1;
    }
    assert songs[..i] == songs;
  }

  /** The loop body for one song row. */
  method CrossSong(row: SongRow, region: Region, nameMap: map<string, string>) returns (rows: seq<CrossRow>)
    ensures rows == SongCross(row, region, nameMap)
  {
    rows := [];
    if row.assoc.Some? {
      var associated := Pieces(row.assoc.value);
      ghost var target := CrossOf(row.title, row.std, region, associated, nameMap);
      var j := 0;
      while j < |associated|
        invariant 0 <= j <= |associated|
        invariant |rows| == j && forall k :: 0 <= k < j ==> rows[k] == target[k]
      {
        var charOriginal := associated[j];
        var charUnified := if charOriginal in nameMap then nameMap[charOriginal] else charOriginal;
        rows := rows + [CrossRow(row.title, charUnified, row.std, region)];
        j := j + 1;
      }
      assert rows == target;
    }
  }

  // ---------------------------------------------------------------------------------------
  // Correlation guard (lines 186-208)

  /** `df[['标准化得票率', '平均歌曲标准化得票率']].dropna()`: the song column is never missing
      after the merge's fillna. */
  function CorrelationRows(a: seq<Analysis>): seq<(real, real)> {
    if |a| == 0 then []
    else (if a[0].std.Some? then [(a[0].std.value, a[0].avgStd)] else []) + CorrelationRows(a[1..])
  }

  /** Spearman's input, or the "insufficient data" message. */
  datatype Correlation = Insufficient | Pairs(pairs: seq<(real, real)>)

  function CorrelationInput(a: seq<Analysis>): Correlation {
    var rows := CorrelationRows(a);
    if |rows| > 0 && |rows| > 1 then Pairs(rows) else Insufficient
  }

  // ---------------------------------------------------------------------------------------
  // Outliers within a region (lines 240-281)

  const OutlierThreshold: real := 2.5

  /** `abs(标准化得票率) > 2.5`; false where the value is NaN. */
  predicate CharExtreme(a: Analysis) { a.std.Some? && Abs(a.std.value) > OutlierThreshold }

  /** `abs(平均歌曲标准化得票率) > 2.5` */
  predicate SongsExtreme(a: Analysis) { Abs(a.avgStd) > OutlierThreshold }

  /** The filter `(...) ^ (...)`: exactly one of the two is extreme. */
  predicate IsOutlier(a: Analysis) { CharExtreme(a) != SongsExtreme(a) }

  /** `sort_values(by=['标准化得票率', '平均歌曲标准化得票率'], ascending=False)`: larger
      first, a NaN standardized share after every number. */
  predicate PopularityGe(a: Analysis, b: Analysis) {
    match (a.std, b.std)
    case (Some(x), Some(y)) => x > y || (x == y && a.avgStd >= b.avgStd)
    case (Some(_), None) => true
    case (None, Some(_)) => false
    case (None, None) => a.avgStd >= b.avgStd
  }

  const ByPopularityDesc: (Analysis, Analysis) -> bool := (a: Analysis, b: Analysis) => PopularityGe(a, b)

  function Outliers(a: seq<Analysis>): seq<Analysis> {
    SortWith(Filter(a, IsOutlier), ByPopularityDesc)
  }

  /** The three explanations of the printing loop. */
  datatype Remark = BothExtreme | CharacterExtreme | SongsExtremeOnly

  function RemarkOf(a: Analysis): Remark {
    if CharExtreme(a) && SongsExtreme(a) then BothExtreme
    else if CharExtreme(a) then CharacterExtreme
    else SongsExtremeOnly
  }

  datatype OutlierReport = NoOutliers | Listed(rows: seq<Analysis>, remarks: seq<Remark>)

  function Report(a: seq<Analysis>): OutlierReport {
    var o := Outliers(a);
    if |o| == 0 then NoOutliers
    else Listed(o, seq(|o|, i requires 0 <= i < |o| => RemarkOf(o[i])))
  }

  // ---------------------------------------------------------------------------------------
  // Across the regions (lines 406-454)

  /** A float64 value as far as the ratio test needs it: finite, an infinity or NaN. The sign
      of a zero is not kept. */
  datatype Ext = Fin(x: real) | PosInf | NegInf | NaN

  /** IEEE division. */
  function Div(a: Ext, b: Ext): Ext {
    match (a, b)
    case (NaN, _) => NaN
    case (_, NaN) => NaN
    case (Fin(x), Fin(y)) =>
      if y != 0.0 then Fin(x / y) else if x > 0.0 then PosInf else if x < 0.0 then NegInf else NaN
    case (Fin(_), _) => Fin(0.0)
    case (PosInf, Fin(y)) => if y < 0.0 then NegInf else PosInf
    case (NegInf, Fin(y)) => if y < 0.0 then PosInf else NegInf
    case (_, _) => NaN
  }

  /** One row of the outer merge after `fillna(0)`. */
  datatype Joined = Joined(name: string, cnRaw: real, cnAvg: real, jpRaw: real, jpAvg: real)

  /** `得票率` after `fillna(0)`. */
  function RawOf(a: Analysis): real { if a.share.Some? then a.share.value else 0.0 }

  function Names(rows: seq<Analysis>): (r: seq<string>)
    ensures |r| == |rows| && forall i :: 0 <= i < |rows| ==> r[i] == rows[i].name
  {
    seq(|rows|, i requires 0 <= i < |rows| => rows[i].name)
  }

  function Named(rows: seq<Analysis>, k: string): seq<Analysis> {
    Filter(rows, (x: Analysis) => x.name == k)
  }

  /** The merged rows for key `k`: every pair of a Chinese and a Japanese row with that name,
      Chinese row first, or the rows of the one side with zeros for the other. */
  function JoinKey(cn: seq<Analysis>, jp: seq<Analysis>, k: string): seq<Joined> {
    var cs := Named(cn, k);
    var js := Named(jp, k);
    if |js| == 0 then seq(|cs|, i requires 0 <= i < |cs| => Joined(k, RawOf(cs[i]), cs[i].avgRaw, 0.0, 0.0))
    else if |cs| == 0 then seq(|js|, i requires 0 <= i < |js| => Joined(k, 0.0, 0.0, RawOf(js[i]), js[i].avgRaw))
    else Pairing(k, cs, js)
  }

  /** Every (Chinese, Japanese) pair of rows for key `k`, Chinese row major. */
  function Pairing(k: string, cs: seq<Analysis>, js: seq<Analysis>): (r: seq<Joined>)
    requires |js| > 0
    ensures |r| == |cs| * |js|
  {
    seq(|cs| * |js|, p requires 0 <= p < |cs| * |js| =>
      Joined(k, RawOf(cs[p / |js|]), cs[p / |js|].avgRaw, RawOf(js[p % |js|]), js[p % |js|].avgRaw))
  }

  function Flatten(ss: seq<seq<Joined>>): seq<Joined> {
    if |ss| == 0 then [] else ss[0] + Flatten(ss[1..])
  }

  /** `pd.merge(df_cn, df_jp, on='角色名称_统一', how='outer').fillna(0)`: keys in sorted order. */
  function OuterMerge(cn: seq<Analysis>, jp: seq<Analysis>): seq<Joined> {
    Flatten(KeyRows(cn, jp, SortedStrings(Names(cn) + Names(jp))))
  }

  /** The merged rows of each key, key by key. */
  function KeyRows(cn: seq<Analysis>, jp: seq<Analysis>, keys: seq<string>): (r: seq<seq<Joined>>)
    ensures |r| == |keys| && forall i :: 0 <= i < |keys| ==> r[i] == JoinKey(cn, jp, keys[i])
  {
    seq(|keys|, i requires 0 <= i < |keys| => JoinKey(cn, jp, keys[i]))
  }

  function CharRatio(j: Joined): Ext { Div(Fin(j.cnRaw), Fin(j.jpRaw)) }

  function MusicRatio(j: Joined): Ext { Div(Fin(j.cnAvg), Fin(j.jpAvg)) }

  const RatioThreshold: real := 0.5

  /** `abs(q - 1) > 0.5` on a float64: true for an infinity, false for NaN. */
  predicate Deviates(q: Ext) {
    match q
    case Fin(x) => Abs(x - 1.0) > RatioThreshold
    case PosInf => true
    case NegInf => true
    case NaN => false
  }

  /** The `impact` filter: the two ratios disagree by more than half. */
  predicate Impacted(j: Joined) { Deviates(Div(CharRatio(j), MusicRatio(j))) }

  /** `r > 1` on a float64. */
  predicate AboveOne(r: Ext) {
    match r
    case Fin(x) => x > 1.0
    case PosInf => true
    case _ => false
  }

  /** The printed deviation: `r if r > 1 else 1 / r`. */
  function Deviation(r: Ext): Ext {
    if AboveOne(r) then r else Div(Fin(1.0), r)
  }

  datatype ImpactLine = ImpactLine(name: string, charDev: Ext, songDev: Ext)

  function ImpactReport(cn: seq<Analysis>, jp: seq<Analysis>): seq<ImpactLine> {
    var imp := Filter(OuterMerge(cn, jp), Impacted);
    seq(|imp|, i requires 0 <= i < |imp| => ImpactLine(imp[i].name, Deviation(CharRatio(imp[i])), Deviation(MusicRatio(imp[i]))))
  }

  // ---------------------------------------------------------------------------------------
  // Songs of one region only (lines 479-498)

  /** `df['译名'].dropna()` */
  function Titles(rows: seq<SongRow>): seq<string> {
    if |rows| == 0 then []
    else (if rows[0].title.Some? then [rows[0].title.value] else []) + Titles(rows[1..])
  }

  /** `sorted(set(a).difference(set(b)))` */
  function OnlyIn(a: seq<string>, b: seq<string>): seq<string> {
    SortedStrings(Filter(a, (t: string) => t !in b))
  }

  function UniqueSongs(cnSongs: seq<SongRow>, jpSongs: seq<SongRow>): (seq<string>, seq<string>) {
    (OnlyIn(Titles(cnSongs), Titles(jpSongs)), OnlyIn(Titles(jpSongs), Titles(cnSongs)))
  }
}
