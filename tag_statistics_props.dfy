/** What the tag statistics compute, stated independently of the loops: where a session key
    lands in the grid, each cell as a plain sum over characters and sessions, when the script
    raises, how the rank boundary and the keyword lists enter, and what each ranked list
    holds. */
module TagStatisticsProps {
  import opened Wrappers
  import opened Strings
  import opened Seqs
  import opened Sorting
  import opened ODicts
  import opened Summarize
  import opened TagStatistics

  // ---------------------------------------------------------------------------------------
  // Cells as sums

  /** What a step adds at cell (n, c). */
  function StepAmount(s: Step, n: nat, c: nat): real {
    if s.Add? && s.row == n && s.col == c then s.amount else 0.0
  }

  /** The sum over one character's sessions of what each adds at cell (n, c). */
  function CellAmount(d: Data, boundary: int, items: seq<(string, Stats)>, n: nat, c: nat): real
    decreases |items|
  {
    if |items| == 0 then 0.0
    else
      var last := items[|items| - 1];
      CellAmount(d, boundary, items[..|items| - 1], n, c) + StepAmount(SessionStep(d, boundary, last.0, last.1), n, c)
  }

  /** The sum of CellAmount over the characters carrying `tag`. */
  function CellSum(d: Data, boundary: int, tag: string, chars: seq<CharRec>, n: nat, c: nat): real
    decreases |chars|
  {
    if |chars| == 0 then 0.0
    else
      var last := chars[|chars| - 1];
      CellSum(d, boundary, tag, chars[..|chars| - 1], n, c)
        + (if tag in last.keywords then CellAmount(d, boundary, last.sessions.Items(), n, c) else 0.0)
  }

  /** Some session entry of the list makes the script raise. */
  ghost predicate SessionsFail(d: Data, boundary: int, items: seq<(string, Stats)>) {
    exists j :: 0 <= j < |items| && SessionStep(d, boundary, items[j].0, items[j].1).Fail?
  }

  /** Some character carrying `tag` has a session entry that makes the script raise. */
  ghost predicate CharsFail(d: Data, boundary: int, tag: string, chars: seq<CharRec>) {
    exists i :: 0 <= i < |chars| && tag in chars[i].keywords && SessionsFail(d, boundary, chars[i].sessions.Items())
  }

  /** The session loop raises exactly when one of its entries does. */
  lemma {:induction false} SessionsFoldFails(d: Data, boundary: int, g: Grid, items: seq<(string, Stats)>)
    requires IsGrid(g)
    ensures SessionsFold(d, boundary, g, items).None? <==> SessionsFail(d, boundary, items)
    decreases |items|
  {
    if |items| > 0 {
      var init := items[..|items| - 1];
      var last := items[|items| - 1];
      SessionsFoldFails(d, boundary, g, init);
      if SessionsFail(d, boundary, init) {
        var j :| 0 <= j < |init| && SessionStep(d, boundary, init[j].0, init[j].1).Fail?;
        assert items[j] == init[j];
      } else if SessionStep(d, boundary, last.0, last.1).Fail? {
        assert SessionsFail(d, boundary, items);
      } else {
        assert !SessionsFail(d, boundary, items) by {
          forall j | 0 <= j < |items| ensures !SessionStep(d, boundary, items[j].0, items[j].1).Fail? {
            if j < |init| {
              assert items[j] == init[j];
            }
          }
        }
      }
    }
  }

  /** When the session loop finishes, each cell has grown by what the entries add there. */
  lemma {:induction false} SessionsFoldCells(d: Data, boundary: int, g: Grid, items: seq<(string, Stats)>)
    requires IsGrid(g)
    ensures SessionsFold(d, boundary, g, items).Some? ==>
      forall n, c :: 0 <= n < 2 && 0 <= c < Width ==>
        SessionsFold(d, boundary, g, items).value[n][c] == g[n][c] + CellAmount(d, boundary, items, n, c)
    decreases |items|
  {
    if |items| > 0 {
      SessionsFoldCells(d, boundary, g, items[..|items| - 1]);
    }
  }

  lemma SessionsFoldSpec(d: Data, boundary: int, g: Grid, items: seq<(string, Stats)>)
    requires IsGrid(g)
    ensures SessionsFold(d, boundary, g, items).None? <==> SessionsFail(d, boundary, items)
    ensures SessionsFold(d, boundary, g, items).Some? ==>
      forall n, c :: 0 <= n < 2 && 0 <= c < Width ==>
        SessionsFold(d, boundary, g, items).value[n][c] == g[n][c] + CellAmount(d, boundary, items, n, c)
  {
    SessionsFoldFails(d, boundary, g, items);
    SessionsFoldCells(d, boundary, g, items);
  }

  lemma {:induction false} CharsFoldSpec(d: Data, boundary: int, tag: string, g: Grid, chars: seq<CharRec>)
    requires IsGrid(g)
    ensures CharsFold(d, boundary, tag, g, chars).None? <==> CharsFail(d, boundary, tag, chars)
    ensures CharsFold(d, boundary, tag, g, chars).Some? ==>
      forall n, c :: 0 <= n < 2 && 0 <= c < Width ==>
        CharsFold(d, boundary, tag, g, chars).value[n][c] == g[n][c] + CellSum(d, boundary, tag, chars, n, c)
    decreases |chars|
  {
    if |chars| > 0 {
      var init := chars[..|chars| - 1];
      var last := chars[|chars| - 1];
      CharsFoldSpec(d, boundary, tag, g, init);
      assert forall i :: 0 <= i < |init| ==> init[i] == chars[i];
      if CharsFail(d, boundary, tag, init) {
        var i :| 0 <= i < |init| && tag in init[i].keywords && SessionsFail(d, boundary, init[i].sessions.Items());
        assert chars[i] == init[i];
      } else {
        var h := CharsFold(d, boundary, tag, g, init).value;
        if tag in last.keywords {
          SessionsFoldSpec(d, boundary, h, last.sessions.Items());
        }
        assert CharsFail(d, boundary, tag, chars) <==> tag in last.keywords && SessionsFail(d, boundary, last.sessions.Items()) by {
          forall i | 0 <= i < |init| ensures chars[i] == init[i] { }
        }
      }
    }
  }

  /** `tags_dict[tag][n][c]` is the sum, over the characters carrying the tag, of
      `v / total_votes` of their sessions that land in (n, c) with a rank worse than the
      boundary; the loop raises exactly when one visited session entry is unusable. */
  lemma TagGridSpec(d: Data, boundary: int, tag: string)
    ensures TagGrid(d, boundary, tag).None? <==> CharsFail(d, boundary, tag, Characters(d))
    ensures TagGrid(d, boundary, tag).Some? ==>
      forall n, c :: 0 <= n < 2 && 0 <= c < Width ==>
        TagGrid(d, boundary, tag).value[n][c] == CellSum(d, boundary, tag, Characters(d), n, c)
  {
    CharsFoldSpec(d, boundary, tag, ZeroGrid(), Characters(d));
  }

  /** A session entry is unusable exactly when the rank is missing, or, for a rank worse than
      the boundary, when the key has no digits, the session number is outside 0..20 (0 wraps
      to the last column), the vote count or the session's total is missing, or the total is
      zero. */
  lemma SessionStepFails(d: Data, boundary: int, key: string, st: Stats)
    ensures SessionStep(d, boundary, key, st).Fail? <==>
      || RankOf(st).None?
      || (RankOf(st).value > boundary
          && (|| FirstDigitRun(key).None?
              || DigitsValue(FirstDigitRun(key).value) > Width
              || VotesOf(st).None?
              || SessionTotal(d, key).None?
              || SessionTotal(d, key).value == 0))
  {
  }

  /** Entries ranked within the boundary contribute nothing. */
  lemma {:induction false} TopRankedContributeNothing(d: Data, boundary: int, items: seq<(string, Stats)>, n: nat, c: nat)
    requires forall j :: 0 <= j < |items| ==> RankOf(items[j].1).Some? && RankOf(items[j].1).value <= boundary
    ensures CellAmount(d, boundary, items, n, c) == 0.0
    decreases |items|
  {
    if |items| > 0 {
      var init := items[..|items| - 1];
      assert forall j :: 0 <= j < |init| ==> init[j] == items[j];
      TopRankedContributeNothing(d, boundary, init, n, c);
    }
  }

  // ---------------------------------------------------------------------------------------
  // Keyword lists: only membership of the tag matters

  /** Two character lists that differ only in keyword lists that agree on whether they hold
      `tag` give the same grid; so a keyword listed twice counts once. */
  lemma {:induction false} KeywordMembershipOnly(d: Data, boundary: int, tag: string, g: Grid, a: seq<CharRec>, b: seq<CharRec>)
    requires IsGrid(g) && |a| == |b|
    requires forall i :: 0 <= i < |a| ==> a[i].sessions == b[i].sessions && (tag in a[i].keywords <==> tag in b[i].keywords)
    ensures CharsFold(d, boundary, tag, g, a) == CharsFold(d, boundary, tag, g, b)
    decreases |a|
  {
    if |a| > 0 {
      var a0 := a[..|a| - 1];
      var b0 := b[..|b| - 1];
      assert forall i :: 0 <= i < |a0| ==> a0[i] == a[i] && b0[i] == b[i];
      KeywordMembershipOnly(d, boundary, tag, g, a0, b0);
    }
  }

  /** A character whose keyword list repeats the tag contributes as if it were listed once. */
  lemma DuplicateKeywordCountsOnce(d: Data, boundary: int, tag: string, g: Grid, chars: seq<CharRec>, i: nat)
    requires IsGrid(g) && i < |chars| && tag in chars[i].keywords
    ensures CharsFold(d, boundary, tag, g, chars[i := chars[i].(keywords := chars[i].keywords + [tag])])
         == CharsFold(d, boundary, tag, g, chars)
  {
    var b := chars[i := chars[i].(keywords := chars[i].keywords + [tag])];
    KeywordMembershipOnly(d, boundary, tag, g, b, chars);
  }

  // ---------------------------------------------------------------------------------------
  // The rank boundary

  /** Vote counts and session totals are non-negative. */
  ghost predicate NonNegative(d: Data) {
    && (forall k :: k in d.bySession.m && d.bySession.m[k].totalVotes.Some? ==> d.bySession.m[k].totalVotes.value >= 0)
    && (forall i, j ::
          (0 <= i < |Characters(d)| && 0 <= j < |Characters(d)[i].sessions.Items()| &&
           VotesOf(Characters(d)[i].sessions.Items()[j].1).Some?) ==>
          VotesOf(Characters(d)[i].sessions.Items()[j].1).value >= 0.0)
  }

  lemma StepMonotone(d: Data, b1: int, b2: int, key: string, st: Stats, n: nat, c: nat)
    requires b1 <= b2
    requires !SessionStep(d, b1, key, st).Fail? && !SessionStep(d, b2, key, st).Fail?
    requires VotesOf(st).Some? ==> VotesOf(st).value >= 0.0
    requires SessionTotal(d, key).Some? ==> SessionTotal(d, key).value >= 0
    ensures 0.0 <= StepAmount(SessionStep(d, b2, key, st), n, c) <= StepAmount(SessionStep(d, b1, key, st), n, c)
  {
    var s1 := SessionStep(d, b1, key, st);
    if s1.Add? {
      var v := VotesOf(st).value;
      var t := SessionTotal(d, key).value as real;
      assert t > 0.0 && s1.amount == v / t;
      assert s1.amount >= 0.0;
    }
  }

  lemma {:induction false} CellAmountMonotone(d: Data, b1: int, b2: int, items: seq<(string, Stats)>, n: nat, c: nat)
    requires b1 <= b2 && !SessionsFail(d, b1, items) && !SessionsFail(d, b2, items)
    requires forall j :: 0 <= j < |items| && VotesOf(items[j].1).Some? ==> VotesOf(items[j].1).value >= 0.0
    requires forall k :: k in d.bySession.m && d.bySession.m[k].totalVotes.Some? ==> d.bySession.m[k].totalVotes.value >= 0
    ensures 0.0 <= CellAmount(d, b2, items, n, c) <= CellAmount(d, b1, items, n, c)
    decreases |items|
  {
    if |items| > 0 {
      var init := items[..|items| - 1];
      var last := items[|items| - 1];
      assert forall j :: 0 <= j < |init| ==> init[j] == items[j];
      CellAmountMonotone(d, b1, b2, init, n, c);
      assert !SessionStep(d, b1, last.0, last.1).Fail? && !SessionStep(d, b2, last.0, last.1).Fail?;
      StepMonotone(d, b1, b2, last.0, last.1, n, c);
    }
  }

  lemma {:induction false} CellSumMonotone(d: Data, b1: int, b2: int, tag: string, chars: seq<CharRec>, n: nat, c: nat)
    requires b1 <= b2 && !CharsFail(d, b1, tag, chars) && !CharsFail(d, b2, tag, chars)
    requires forall i, j ::
      (0 <= i < |chars| && 0 <= j < |chars[i].sessions.Items()| && VotesOf(chars[i].sessions.Items()[j].1).Some?) ==>
      VotesOf(chars[i].sessions.Items()[j].1).value >= 0.0
    requires forall k :: k in d.bySession.m && d.bySession.m[k].totalVotes.Some? ==> d.bySession.m[k].totalVotes.value >= 0
    ensures 0.0 <= CellSum(d, b2, tag, chars, n, c) <= CellSum(d, b1, tag, chars, n, c)
    decreases |chars|
  {
    if |chars| > 0 {
      var init := chars[..|chars| - 1];
      var last := chars[|chars| - 1];
      assert forall i :: 0 <= i < |init| ==> init[i] == chars[i];
      CellSumMonotone(d, b1, b2, tag, init, n, c);
      if tag in last.keywords {
        CellAmountMonotone(d, b1, b2, last.sessions.Items(), n, c);
      }
    }
  }

  /** With non-negative votes, raising the rank boundary never increases a cell. */
  lemma BoundaryMonotone(d: Data, b1: int, b2: int, tag: string)
    requires b1 <= b2 && NonNegative(d)
    requires TagGrid(d, b1, tag).Some? && TagGrid(d, b2, tag).Some?
    ensures forall n, c :: 0 <= n < 2 && 0 <= c < Width ==>
      0.0 <= TagGrid(d, b2, tag).value[n][c] <= TagGrid(d, b1, tag).value[n][c]
  {
    TagGridSpec(d, b1, tag);
    TagGridSpec(d, b2, tag);
    forall n, c | 0 <= n < 2 && 0 <= c < Width
      ensures 0.0 <= CellSum(d, b2, tag, Characters(d), n, c) <= CellSum(d, b1, tag, Characters(d), n, c)
    {
      CellSumMonotone(d, b1, b2, tag, Characters(d), n, c);
    }
  }

  // ---------------------------------------------------------------------------------------
  // The rankings

  /** Ties are broken by ascending tag. */
  const TagOrder: ((string, real), (string, real)) -> bool :=
    (x: (string, real), y: (string, real)) => LexLt(x.0, y.0)

  /** The tags of a ranked list. */
  function Firsts(r: Ranked): (ts: seq<string>)
    ensures |ts| == |r| && forall i :: 0 <= i < |r| ==> ts[i] == r[i].0
  {
    seq(|r|, i requires 0 <= i < |r| => r[i].0)
  }

  lemma ByShareDescTotal()
    ensures TotalPreorder(ByShareDesc)
  {
  }

  /** A ranked list of `tags`: shares non-increasing, ties in ascending tag order, and every
      tag exactly once. */
  ghost predicate WellRanked(r: Ranked, tags: seq<string>) {
    && SortedBy(r, ByShareDesc)
    && TiesOrdered(r, ByShareDesc, TagOrder)
    && NoDup(Firsts(r))
    && (forall t :: t in Firsts(r) <==> t in tags)
  }

  predicate Ascending(tags: seq<string>) {
    forall i, j :: 0 <= i < j < |tags| ==> LexLt(tags[i], tags[j])
  }

  lemma RankingSorted(table: map<string, Grid>, tags: seq<string>, n: nat, session: int)
    requires Covers(table, tags) && n < 2 && 1 <= session <= Width
    ensures SortedBy(Ranking(table, tags, n, session), ByShareDesc)
  {
    ByShareDescTotal();
    SortWithSorted(Shares(table, tags, n, session - 1), ByShareDesc);
  }

  lemma RankingTies(table: map<string, Grid>, tags: seq<string>, n: nat, session: int)
    requires Covers(table, tags) && n < 2 && 1 <= session <= Width && Ascending(tags)
    ensures TiesOrdered(Ranking(table, tags, n, session), ByShareDesc, TagOrder)
  {
    ByShareDescTotal();
    var sh := Shares(table, tags, n, session - 1);
    assert TiesOrdered(sh, ByShareDesc, TagOrder);
    SortKeepsTies(sh, ByShareDesc, TagOrder);
  }

  /** Every entry is one of the (tag, cell) pairs. */
  lemma RankingEntries(table: map<string, Grid>, tags: seq<string>, n: nat, session: int)
    requires Covers(table, tags) && n < 2 && 1 <= session <= Width
    ensures var r := Ranking(table, tags, n, session);
      |r| == |tags| && forall i :: 0 <= i < |r| ==> r[i] in Shares(table, tags, n, session - 1)
  {
    var sh := Shares(table, tags, n, session - 1);
    var r := Ranking(table, tags, n, session);
    forall i | 0 <= i < |r| ensures r[i] in sh {
      assert r[i] in multiset(r);
    }
  }

  /** No tag appears twice. */
  lemma RankingNoDup(table: map<string, Grid>, tags: seq<string>, n: nat, session: int)
    requires Covers(table, tags) && n < 2 && 1 <= session <= Width && Ascending(tags)
    ensures NoDup(Firsts(Ranking(table, tags, n, session)))
  {
    var sh := Shares(table, tags, n, session - 1);
    var r := Ranking(table, tags, n, session);
    RankingEntries(table, tags, n, session);
    assert NoDup(sh) by {
      forall i, j | 0 <= i < j < |sh| ensures sh[i] != sh[j] {
        assert sh[i].0 == tags[i] && sh[j].0 == tags[j];
      }
    }
    PermutationNoDup(sh, r);
    forall i, j | 0 <= i < j < |r| ensures Firsts(r)[i] != Firsts(r)[j] {
      var a :| 0 <= a < |sh| && sh[a] == r[i];
      var b :| 0 <= b < |sh| && sh[b] == r[j];
      if a < b {
        assert LexLt(tags[a], tags[b]);
      } else if b < a {
        assert LexLt(tags[b], tags[a]);
      }
    }
  }

  /** Every tag appears, and nothing else. */
  lemma RankingCovers(table: map<string, Grid>, tags: seq<string>, n: nat, session: int)
    requires Covers(table, tags) && n < 2 && 1 <= session <= Width
    ensures forall t :: t in Firsts(Ranking(table, tags, n, session)) <==> t in tags
  {
    var sh := Shares(table, tags, n, session - 1);
    var r := Ranking(table, tags, n, session);
    RankingEntries(table, tags, n, session);
    forall t ensures t in Firsts(r) <==> t in tags {
      if t in tags {
        var k :| 0 <= k < |tags| && tags[k] == t;
        assert sh[k] in multiset(r);
        var i :| 0 <= i < |r| && r[i] == sh[k];
        assert Firsts(r)[i] == t;
      }
      if t in Firsts(r) {
        var i :| 0 <= i < |r| && Firsts(r)[i] == t;
        var a :| 0 <= a < |sh| && sh[a] == r[i];
        assert tags[a] == t;
      }
    }
  }

  lemma RankingWellRanked(table: map<string, Grid>, tags: seq<string>, n: nat, session: int)
    requires Covers(table, tags) && n < 2 && 1 <= session <= Width && Ascending(tags)
    ensures WellRanked(Ranking(table, tags, n, session), tags)
  {
    RankingSorted(table, tags, n, session);
    RankingTies(table, tags, n, session);
    RankingNoDup(table, tags, n, session);
    RankingCovers(table, tags, n, session);
  }

  // ---------------------------------------------------------------------------------------
  // The whole script

  /** Each entry of a ranked list carries its tag's cell (n, col). */
  ghost predicate CarriesCells(d: Data, boundary: int, r: Ranked, n: nat, col: nat)
    requires n < 2 && col < Width
  {
    forall i :: 0 <= i < |r| ==>
      TagGrid(d, boundary, r[i].0).Some? && TagGrid(d, boundary, r[i].0).value[n][col] == r[i].1
  }

  /** A region's table: the sessions lo..hi, each ranked as WellRanked states and each entry
      carrying its tag's cell for that session. */
  ghost predicate RegionRanked(d: Data, boundary: int, ranks: map<int, Ranked>, n: nat, lo: int, hi: int)
    requires n < 2 && 1 <= lo && hi <= Width
  {
    && (forall s :: s in ranks <==> lo <= s <= hi)
    && (forall s :: lo <= s <= hi ==> WellRanked(ranks[s], Tags(d)) && CarriesCells(d, boundary, ranks[s], n, s - 1))
  }

  /** Every grid of the table is its tag's TagGrid. */
  ghost predicate TableHolds(d: Data, boundary: int, table: map<string, Grid>) {
    forall t :: t in table ==> TagGrid(d, boundary, t) == Some(table[t])
  }

  lemma EntryCell(d: Data, boundary: int, tags: seq<string>, table: map<string, Grid>, n: nat, col: nat, x: (string, real))
    requires TableHolds(d, boundary, table) && Covers(table, tags) && n < 2 && col < Width
    requires x in Shares(table, tags, n, col)
    ensures TagGrid(d, boundary, x.0).Some? && TagGrid(d, boundary, x.0).value[n][col] == x.1
  {
    var sh := Shares(table, tags, n, col);
    var k :| 0 <= k < |sh| && sh[k] == x;
    assert x.0 == tags[k] && tags[k] in table;
  }

  lemma SharesCarryCells(d: Data, boundary: int, tags: seq<string>, table: map<string, Grid>, n: nat, col: nat, r: Ranked)
    requires TableHolds(d, boundary, table) && Covers(table, tags) && n < 2 && col < Width
    requires forall i :: 0 <= i < |r| ==> r[i] in Shares(table, tags, n, col)
    ensures CarriesCells(d, boundary, r, n, col)
  {
    forall i | 0 <= i < |r|
      ensures TagGrid(d, boundary, r[i].0).Some? && TagGrid(d, boundary, r[i].0).value[n][col] == r[i].1
    {
      EntryCell(d, boundary, tags, table, n, col, r[i]);
    }
  }

  lemma RankingCarriesCells(d: Data, boundary: int, tags: seq<string>, table: map<string, Grid>, n: nat, s: int)
    requires TableOf(d, boundary, tags) == Some(table)
    requires n < 2 && 1 <= s <= Width
    ensures Covers(table, tags)
    ensures CarriesCells(d, boundary, Ranking(table, tags, n, s), n, s - 1)
  {
    assert Covers(table, tags) && TableHolds(d, boundary, table);
    RankingEntries(table, tags, n, s);
    SharesCarryCells(d, boundary, tags, table, n, s - 1, Ranking(table, tags, n, s));
  }

  lemma SessionRankingProps(d: Data, boundary: int, table: map<string, Grid>, n: nat, s: int)
    requires TableOf(d, boundary, Tags(d)) == Some(table)
    requires n < 2 && 1 <= s <= Width
    ensures Covers(table, Tags(d))
    ensures WellRanked(Ranking(table, Tags(d), n, s), Tags(d))
    ensures CarriesCells(d, boundary, Ranking(table, Tags(d), n, s), n, s - 1)
  {
    RankingCarriesCells(d, boundary, Tags(d), table, n, s);
    RankingWellRanked(table, Tags(d), n, s);
  }

  lemma RegionProps(d: Data, boundary: int, table: map<string, Grid>, n: nat, lo: int, hi: int)
    requires TableOf(d, boundary, Tags(d)) == Some(table)
    requires n < 2 && 1 <= lo && hi <= Width
    ensures Covers(table, Tags(d))
    ensures RegionRanked(d, boundary, RegionRanks(table, Tags(d), n, lo, hi), n, lo, hi)
  {
    var tags := Tags(d);
    assert Covers(table, tags);
    RegionRanksSpec(table, tags, n, lo, hi);
    forall s | lo <= s <= hi
      ensures WellRanked(Ranking(table, tags, n, s), tags) && CarriesCells(d, boundary, Ranking(table, tags, n, s), n, s - 1)
    {
      SessionRankingProps(d, boundary, table, n, s);
    }
  }

  /** When the script gets through, the CN table has sessions 1..11 and the JP table sessions
      3..20; each list ranks every tag exactly once by its cell for that session, largest
      first, ties in ascending tag order. */
  lemma StatisticsProps(d: Data, boundary: int)
    requires Statistics(d, boundary).Some?
    ensures RegionRanked(d, boundary, Statistics(d, boundary).value.cn, 0, 1, 11)
    ensures RegionRanked(d, boundary, Statistics(d, boundary).value.jp, 1, 3, 20)
  {
    var tags := Tags(d);
    var table := TableOf(d, boundary, tags).value;
    RegionProps(d, boundary, table, 0, 1, 11);
    RegionProps(d, boundary, table, 1, 3, 20);
    assert Statistics(d, boundary).value
        == Rankings(RegionRanks(table, tags, 0, 1, 11), RegionRanks(table, tags, 1, 3, 20));
  }

  /** The script raises exactly when, for some tag, a character carrying it has an unusable
      session entry; since every character's keywords are tags, that is: some character with
      at least one keyword has an unusable entry. */
  lemma StatisticsFails(d: Data, boundary: int)
    ensures Statistics(d, boundary).None? <==>
      exists i :: 0 <= i < |Tags(d)| && CharsFail(d, boundary, Tags(d)[i], Characters(d))
  {
    forall i | 0 <= i < |Tags(d)| ensures TagGrid(d, boundary, Tags(d)[i]).None? <==> CharsFail(d, boundary, Tags(d)[i], Characters(d)) {
      TagGridSpec(d, boundary, Tags(d)[i]);
    }
  }
}
