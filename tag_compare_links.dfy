/** The read-back scripts run on what ChracterTagStatistics saves: the files load back to the
    rankings, CharacterTagDifferent compares the two regions' grid cells of each tag, and
    CharacterTagAnalyze_ByTag draws a tag's cells session by session. */
module TagCompareLinks {
  import opened Wrappers
  import opened Seqs
  import opened Summarize
  import opened TagStatistics
  import opened TagStatisticsProps
  import opened TagCompare
  import opened TagCompareProps

  /** Tag `tag`'s share in row n, column col of its grid (0.0 where it has none). */
  ghost function Cell(d: Data, boundary: int, tag: string, n: nat, col: int): real {
    if n < 2 && 0 <= col < Width && TagGrid(d, boundary, tag).Some? then TagGrid(d, boundary, tag).value[n][col] else 0.0
  }

  /** Each of `tags` (the tags of `d`) with its cell (n, col). */
  ghost function TagCells(d: Data, boundary: int, tags: seq<string>, n: nat, col: int): (r: map<string, real>)
    ensures forall t :: t in r <==> t in tags
    ensures forall t :: t in r ==> r[t] == Cell(d, boundary, t, n, col)
  {
    map t | t in tags :: Cell(d, boundary, t, n, col)
  }

  /** A ranked list whose entries carry their cells in column col carries TagCells. */
  lemma ListCarriesCells(d: Data, boundary: int, tags: seq<string>, list: Ranked, n: nat, col: nat)
    requires n < 2 && col < Width
    requires WellRanked(list, tags) && CarriesCells(d, boundary, list, n, col)
    ensures ListCarries(list, TagCells(d, boundary, tags, n, col))
  {
    var vals := TagCells(d, boundary, tags, n, col);
    DistinctTagsOfNoDup(list);
    forall i | 0 <= i < |list| ensures list[i].0 in vals && list[i].1 == vals[list[i].0] {
      assert Firsts(list)[i] in Firsts(list);
    }
  }

  /** Each list of a ranked region names each tag of `d` once. */
  lemma RegionDistinct(d: Data, boundary: int, ranks: map<int, Ranked>, n: nat, lo: int, hi: int)
    requires n < 2 && 1 <= lo && hi <= Width
    requires RegionRanked(d, boundary, ranks, n, lo, hi)
    ensures forall s :: s in ranks <==> lo <= s <= hi
    ensures forall s :: s in ranks ==> DistinctTags(ranks[s]) && forall t :: t in Firsts(ranks[s]) <==> t in Tags(d)
  {
    forall s | s in ranks ensures DistinctTags(ranks[s]) {
      DistinctTagsOfNoDup(ranks[s]);
    }
  }

  /** Such a list loads into the cells. */
  lemma ListRatesCells(d: Data, boundary: int, tags: seq<string>, list: Ranked, n: nat, col: nat)
    requires n < 2 && col < Width
    requires WellRanked(list, tags) && CarriesCells(d, boundary, list, n, col)
    ensures RateMap(list) == TagCells(d, boundary, tags, n, col)
  {
    ListCarriesCells(d, boundary, tags, list, n, col);
    ListCarriesRates(list, TagCells(d, boundary, tags, n, col), "");
  }

  /** The rates a ranked region's session s loads into are the tags' cells in column s - 1. */
  lemma RegionRates(d: Data, boundary: int, ranks: map<int, Ranked>, n: nat, lo: int, hi: int, s: int)
    requires n < 2 && 1 <= lo && hi <= Width
    requires RegionRanked(d, boundary, ranks, n, lo, hi)
    requires lo <= s <= hi
    ensures RateMap(SessionList(ranks, s)) == TagCells(d, boundary, Tags(d), n, s - 1)
  {
    var list := ranks[s];
    assert SessionList(ranks, s) == list;
    assert WellRanked(list, Tags(d)) && CarriesCells(d, boundary, list, n, s - 1);
    ListRatesCells(d, boundary, Tags(d), list, n, s - 1);
  }

  /** The rates CharacterTagDifferent and CharacterTagAnalyze_ByTag read from the files
      ChracterTagStatistics writes are the grid cells: the Chinese session s (1..11) holds
      row 0, column s - 1 of each tag's grid, the Japanese session s (3..20) row 1, column s - 1. */
  lemma RatesOfStatistics(d: Data, boundary: int, r: Rankings, s: int)
    requires Statistics(d, boundary) == Some(r)
    ensures 1 <= s <= 11 ==> RateMap(SessionList(r.cn, s)) == TagCells(d, boundary, Tags(d), 0, s - 1)
    ensures 3 <= s <= 20 ==> RateMap(SessionList(r.jp, s)) == TagCells(d, boundary, Tags(d), 1, s - 1)
  {
    StatisticsProps(d, boundary);
    if 1 <= s <= 11 {
      RegionRates(d, boundary, r.cn, 0, 1, 11, s);
    }
    if 3 <= s <= 20 {
      RegionRates(d, boundary, r.jp, 1, 3, 20, s);
    }
  }

  /** CharacterTagDifferent on the files ChracterTagStatistics writes, with `order` the
      iteration order of the tags: it loads, and it reports no tag exactly when every tag's
      Chinese session-11 rate and Japanese session-20 rate differ by less than the threshold;
      otherwise each bar is such a tag and shows the difference of the two rates in percent
      (RatesOfStatistics says which grid cells those rates are). */
  lemma DifferentOfStatistics(d: Data, boundary: int, r: Rankings, order: seq<string>)
    requires Statistics(d, boundary) == Some(r)
    requires NoDup(order) && forall t :: t in order <==> t in Tags(d)
    ensures DifferentScript(Dump(r.cn, SessionRange(1, 11)), Dump(r.jp, SessionRange(3, 20)), order).Some?
    ensures ShowsDifferences(DifferentScript(Dump(r.cn, SessionRange(1, 11)), Dump(r.jp, SessionRange(3, 20)), order).value,
                             RateMap(SessionList(r.cn, CnSession)), RateMap(SessionList(r.jp, JpSession)), Threshold)
  {
    StatisticsProps(d, boundary);
    RegionDistinct(d, boundary, r.cn, 0, 1, 11);
    RegionDistinct(d, boundary, r.jp, 1, 3, 20);
    DifferentOfSaved(r.cn, r.jp, order);
  }

  /** CharacterTagAnalyze_ByTag on the files ChracterTagStatistics writes: the Chinese curve
      runs over sessions 1..11 and the Japanese one over 3..20, and the point for session s is
      the tag's rate in that session (0.0 for a tag no character carries). */
  lemma ByTagOfStatistics(d: Data, boundary: int, r: Rankings, tag: string)
    requires Statistics(d, boundary) == Some(r)
    ensures ByTagScript(Dump(r.cn, SessionRange(1, 11)), Dump(r.jp, SessionRange(3, 20)), tag).Some?
    ensures Draws(ByTagScript(Dump(r.cn, SessionRange(1, 11)), Dump(r.jp, SessionRange(3, 20)), tag).value.0,
                  1, 11, RatesTable(r.cn), tag)
    ensures Draws(ByTagScript(Dump(r.cn, SessionRange(1, 11)), Dump(r.jp, SessionRange(3, 20)), tag).value.1,
                  3, 20, RatesTable(r.jp), tag)
  {
    StatisticsProps(d, boundary);
    RegionDistinct(d, boundary, r.cn, 0, 1, 11);
    RegionDistinct(d, boundary, r.jp, 1, 3, 20);
    ByTagOfSaved(r.cn, r.jp, tag);
  }
}
