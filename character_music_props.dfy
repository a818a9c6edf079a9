/** What Character-MusicAnalyze.py computes, stated about the model in CharacterMusic. */
module CharacterMusicProps {
  import opened Wrappers
  import opened Strings
  import opened Seqs
  import opened Sorting
  import opened CharacterMusic

  // ---------------------------------------------------------------------------------------
  // Vote shares

  /** Every vote a sheet holds is non-negative. */
  predicate NonNegVotes(col: seq<Option<int>>) {
    forall i :: 0 <= i < |col| && col[i].Some? ==> col[i].value >= 0
  }

  lemma {:induction false} TotalVotesNonNeg(col: seq<Option<int>>)
    requires NonNegVotes(col)
    ensures TotalVotes(col) >= 0
  {
    if |col| > 0 {
      assert NonNegVotes(col[1..]) by {
        forall i | 0 <= i < |col[1..]| && col[1..][i].Some? ensures col[1..][i].value >= 0 {
          assert col[1..][i] == col[i + 1];
        }
      }
      TotalVotesNonNeg(col[1..]);
    }
  }

  /** A sheet whose rows are some of another's, in order, holds no more votes than it. */
  lemma {:induction false} SubsequenceTotal(a: seq<Option<int>>, b: seq<Option<int>>)
    requires IsSubsequence(a, b) && NonNegVotes(b)
    ensures NonNegVotes(a) && TotalVotes(a) <= TotalVotes(b)
    decreases |b|
  {
    if |a| == 0 {
      TotalVotesNonNeg(b);
    } else {
      assert NonNegVotes(b[1..]) by {
        forall i | 0 <= i < |b[1..]| && b[1..][i].Some? ensures b[1..][i].value >= 0 {
          assert b[1..][i] == b[i + 1];
        }
      }
      if a[0] == b[0] {
        SubsequenceTotal(a[1..], b[1..]);
        forall i | 0 <= i < |a| && a[i].Some? ensures a[i].value >= 0 {
          if i > 0 { assert a[i] == a[1..][i - 1]; }
        }
      } else {
        SubsequenceTotal(a, b[1..]);
      }
    }
  }

  /** One cell of a non-negative sheet is at most the sheet's total. */
  lemma {:induction false} CellAtMostTotal(col: seq<Option<int>>, i: nat)
    requires NonNegVotes(col) && i < |col| && col[i].Some?
    ensures col[i].value <= TotalVotes(col)
  {
    assert NonNegVotes(col[1..]) by {
      forall k | 0 <= k < |col[1..]| && col[1..][k].Some? ensures col[1..][k].value >= 0 {
        assert col[1..][k] == col[k + 1];
      }
    }
    if i == 0 {
      TotalVotesNonNeg(col[1..]);
    } else {
      assert col[1..][i - 1] == col[i];
      CellAtMostTotal(col[1..], i - 1);
    }
  }

  /** One share of a non-negative sheet over a total at least its vote lies in [0, 1]. */
  lemma ShareAt(v: Option<int>, total: int)
    requires v.Some? ==> 0 <= v.value <= total
    ensures Share(v, total).Some? ==> 0.0 <= Share(v, total).value <= 1.0
  {
    if Share(v, total).Some? {
      var x, t := v.value as real, total as real;
      assert 0.0 <= x <= t && t > 0.0;
      assert x / t * t == x;
    }
  }

  /** The grouped sheet keeps some of the raw sheet's rows in order, so every share the script
      computes lies between 0 and 1, and it is missing exactly where the vote is missing or
      the raw total is zero. */
  lemma ShareBounds(grouped: seq<Option<int>>, raw: seq<Option<int>>)
    requires IsSubsequence(grouped, raw) && NonNegVotes(raw)
    ensures forall i :: 0 <= i < |grouped| ==> (ShareColumn(grouped, raw)[i].None? <==> grouped[i].None? || TotalVotes(raw) == 0)
    ensures forall i :: 0 <= i < |grouped| && ShareColumn(grouped, raw)[i].Some? ==>
              0.0 <= ShareColumn(grouped, raw)[i].value <= 1.0
  {
    SubsequenceTotal(grouped, raw);
    forall i | 0 <= i < |grouped|
      ensures ShareColumn(grouped, raw)[i].Some? ==> 0.0 <= ShareColumn(grouped, raw)[i].value <= 1.0
    {
      if grouped[i].Some? {
        CellAtMostTotal(grouped, i);
      }
      ShareAt(grouped[i], TotalVotes(raw));
    }
  }

  // ---------------------------------------------------------------------------------------
  // Names

  /** `char_name_map` maps each Japanese name of the sheet to the Chinese name of its LAST row. */
  lemma NameMapSpec(pairs: seq<(string, string)>)
    ensures forall k :: k in NameMap(pairs) <==> exists i :: 0 <= i < |pairs| && pairs[i].0 == k
    ensures forall i :: 0 <= i < |pairs| && (forall j :: i < j < |pairs| ==> pairs[j].0 != pairs[i].0) ==>
              pairs[i].0 in NameMap(pairs) && NameMap(pairs)[pairs[i].0] == pairs[i].1
  {
    NameMapKeys(pairs);
    NameMapLast(pairs);
  }

  lemma {:induction false} NameMapKeys(pairs: seq<(string, string)>)
    ensures forall k :: k in NameMap(pairs) <==> exists i :: 0 <= i < |pairs| && pairs[i].0 == k
  {
    if |pairs| > 0 {
      var init := pairs[..|pairs| - 1];
      NameMapKeys(init);
      forall k | k in NameMap(pairs) ensures exists i :: 0 <= i < |pairs| && pairs[i].0 == k {
        if k != pairs[|pairs| - 1].0 {
          assert k in NameMap(init);
          var i :| 0 <= i < |init| && init[i].0 == k;
          assert pairs[i] == init[i];
        }
      }
      forall i | 0 <= i < |pairs| ensures pairs[i].0 in NameMap(pairs) {
        if i < |init| { assert init[i] == pairs[i]; }
      }
    }
  }

  lemma {:induction false} NameMapLast(pairs: seq<(string, string)>)
    ensures forall i :: 0 <= i < |pairs| && (forall j :: i < j < |pairs| ==> pairs[j].0 != pairs[i].0) ==>
              pairs[i].0 in NameMap(pairs) && NameMap(pairs)[pairs[i].0] == pairs[i].1
  {
    if |pairs| > 0 {
      var init := pairs[..|pairs| - 1];
      NameMapLast(init);
      forall i | 0 <= i < |pairs| && (forall j :: i < j < |pairs| ==> pairs[j].0 != pairs[i].0)
        ensures pairs[i].0 in NameMap(pairs) && NameMap(pairs)[pairs[i].0] == pairs[i].1
      {
        if i < |init| {
          assert init[i] == pairs[i];
          forall j | i < j < |init| ensures init[j].0 != init[i].0 {
            assert init[j] == pairs[j];
          }
        }
      }
    }
  }

  // ---------------------------------------------------------------------------------------
  // Credits

  /** One more copy goes at the end. */
  lemma RepeatSnoc<T>(x: T, n: nat)
    ensures Repeat(x, n + 1) == Repeat(x, n) + [x]
  {
  }

  /** Crediting a list of names appends the credit to each name's list once per time the name
      occurs, and adds exactly the listed names as keys. */
  lemma {:induction false} AddCreditsSpec(m: map<string, seq<Credit>>, names: seq<string>, cr: Credit, c: string)
    ensures Lookup(AddCredits(m, names, cr), c) == Lookup(m, c) + Repeat(cr, multiset(names)[c])
    ensures c in AddCredits(m, names, cr) <==> c in m || c in names
  {
    if |names| > 0 {
      var k := |names| - 1;
      var init := names[..k];
      AddCreditsSpec(m, init, cr, c);
      LastSplit(names);
      var m' := AddCredits(m, init, cr);
      var cnt := multiset(init)[c];
      if names[k] == c {
        assert Lookup(AddCredits(m, names, cr), c) == Lookup(m', c) + [cr];
        assert multiset(names)[c] == cnt + 1;
        RepeatSnoc(cr, cnt);
        AppendAssoc(Lookup(m, c), Repeat(cr, cnt), [cr]);
      } else {
        assert Lookup(AddCredits(m, names, cr), c) == Lookup(m', c);
        assert multiset(names)[c] == cnt;
      }
    }
  }

  /** Each character's list of credits is the reference one: one full (std, raw) pair of each
      song, once per time the song lists the character, in song order. */
  lemma {:induction false} CreditsSpec(songs: seq<SongRow>, region: Region, nameMap: map<string, string>, c: string)
    ensures Lookup(Credits(songs, region, nameMap), c) == CreditsFor(songs, region, nameMap, c)
  {
    if |songs| > 0 {
      var k := |songs| - 1;
      var row := songs[k];
      CreditsSpec(songs[..k], region, nameMap, c);
      AddCreditsSpec(Credits(songs[..k], region, nameMap), CreditedNames(row, region, nameMap), Credit(row.std, row.share), c);
    }
  }

  /** Every name the song rows list, song by song: the names the loop credits. */
  function Listed(songs: seq<SongRow>, region: Region, nameMap: map<string, string>): seq<string> {
    if |songs| == 0 then []
    else Listed(songs[..|songs| - 1], region, nameMap) + CreditedNames(songs[|songs| - 1], region, nameMap)
  }

  /** A character has a list of credits exactly when some song lists it. */
  lemma {:induction false} CreditsKeys(songs: seq<SongRow>, region: Region, nameMap: map<string, string>, c: string)
    ensures c in Credits(songs, region, nameMap) <==> c in Listed(songs, region, nameMap)
  {
    if |songs| > 0 {
      var k := |songs| - 1;
      var row := songs[k];
      CreditsKeys(songs[..k], region, nameMap, c);
      AddCreditsSpec(Credits(songs[..k], region, nameMap), CreditedNames(row, region, nameMap), Credit(row.std, row.share), c);
    }
  }

  /** No key at all exactly when no song lists a name. */
  lemma NoCredits(songs: seq<SongRow>, region: Region, nameMap: map<string, string>)
    ensures |Credits(songs, region, nameMap)| == 0 <==> Listed(songs, region, nameMap) == []
  {
    var data := Credits(songs, region, nameMap);
    var listed := Listed(songs, region, nameMap);
    if listed == [] {
      forall c ensures c !in data {
        CreditsKeys(songs, region, nameMap, c);
      }
      assert data == map[];
    } else {
      CreditsKeys(songs, region, nameMap, listed[0]);
      assert listed[0] in data.Keys;
    }
  }

  /** Nothing is divided among characters: every credit a character gets is the full pair of a
      song that lists it. */
  lemma {:induction false} CreditsUndivided(songs: seq<SongRow>, region: Region, nameMap: map<string, string>, c: string)
    ensures forall cr :: cr in CreditsFor(songs, region, nameMap, c) ==>
              exists i :: 0 <= i < |songs| && c in CreditedNames(songs[i], region, nameMap)
                                             && cr == Credit(songs[i].std, songs[i].share)
  {
    if |songs| > 0 {
      var k := |songs| - 1;
      var row := songs[k];
      CreditsUndivided(songs[..k], region, nameMap, c);
      var n := multiset(CreditedNames(row, region, nameMap))[c];
      forall cr | cr in CreditsFor(songs, region, nameMap, c)
        ensures exists i :: 0 <= i < |songs| && c in CreditedNames(songs[i], region, nameMap)
                                             && cr == Credit(songs[i].std, songs[i].share)
      {
        if cr in CreditsFor(songs[..k], region, nameMap, c) {
          var i :| 0 <= i < k && c in CreditedNames(songs[..k][i], region, nameMap)
                               && cr == Credit(songs[..k][i].std, songs[..k][i].share);
          assert songs[..k][i] == songs[i];
        } else {
          assert cr in Repeat(Credit(row.std, row.share), n);
          assert n > 0;
        }
      }
    }
  }

  // ---------------------------------------------------------------------------------------
  // Averages and the merge

  lemma {:induction false} SumRBounds(xs: seq<real>, lo: real, hi: real)
    requires forall i :: 0 <= i < |xs| ==> lo <= xs[i] <= hi
    ensures |xs| as real * lo <= SumR(xs) <= |xs| as real * hi
  {
    if |xs| > 0 {
      SumRBounds(xs[1..], lo, hi);
      assert xs[0] == xs[0];
    }
  }

  /** `np.mean` lies between any bounds of its inputs. */
  lemma MeanBounds(xs: seq<real>, lo: real, hi: real)
    requires |xs| > 0
    requires forall i :: 0 <= i < |xs| ==> lo <= xs[i] <= hi
    ensures lo <= Mean(xs) <= hi
  {
    SumRBounds(xs, lo, hi);
    var n := |xs| as real;
    assert Mean(xs) * n == SumR(xs);
  }

  /** A character row after the merge: its unified name, its own shares, and the mean std,
      mean raw share and number of its credits `recs`, or 0, 0.0 and 0.0 without credits. */
  ghost predicate MergedFrom(a: Analysis, row: CharRow, name: string, recs: seq<Credit>) {
    && a.name == name && a.share == row.share && a.std == row.std && a.count == |recs|
    && (if |recs| == 0 then a.avgStd == 0.0 && a.avgRaw == 0.0
        else a.avgStd == Mean(Stds(recs)) && a.avgRaw == Mean(Raws(recs)))
  }

  /** `calculate_character_avg_music_popularity_for_region` raises exactly when no song lists
      a character; otherwise it keeps every character row once, in order, and gives it the
      averages of the credits of its unified name. */
  lemma AnalysisSpec(chars: seq<CharRow>, songs: seq<SongRow>, region: Region, nameMap: map<string, string>)
    ensures RegionAnalysis(chars, songs, region, nameMap).None? <==> Listed(songs, region, nameMap) == []
    ensures RegionAnalysis(chars, songs, region, nameMap).Some? ==>
              |RegionAnalysis(chars, songs, region, nameMap).value| == |chars| &&
              forall i :: 0 <= i < |chars| ==>
                MergedFrom(RegionAnalysis(chars, songs, region, nameMap).value[i], chars[i],
                           Unify(region, nameMap, chars[i].name),
                           CreditsFor(songs, region, nameMap, Unify(region, nameMap, chars[i].name)))
  {
    var data := Credits(songs, region, nameMap);
    NoCredits(songs, region, nameMap);
    if |data| != 0 {
      assert data.Keys != {};
      var c :| c in data.Keys;
      CreditsKeys(songs, region, nameMap, c);
      forall i | 0 <= i < |chars|
        ensures MergedFrom(RegionAnalysis(chars, songs, region, nameMap).value[i], chars[i],
                           Unify(region, nameMap, chars[i].name),
                           CreditsFor(songs, region, nameMap, Unify(region, nameMap, chars[i].name)))
      {
        var u := Unify(region, nameMap, chars[i].name);
        CreditsSpec(songs, region, nameMap, u);
        CreditsNonEmpty(songs, region, nameMap);
      }
    }
  }

  // ---------------------------------------------------------------------------------------
  // process_music_data_for_cross_region_analysis

  /** The rows a song contributes to the cross-region list carry the names the Japanese
      crediting gives it, whichever region the song belongs to, together with the song's
      title, std share and region. */
  lemma SongCrossNames(row: SongRow, region: Region, nameMap: map<string, string>)
    ensures |SongCross(row, region, nameMap)| == |CreditedNames(row, Jp, nameMap)|
    ensures forall i :: 0 <= i < |SongCross(row, region, nameMap)| ==>
              SongCross(row, region, nameMap)[i] == CrossRow(row.title, CreditedNames(row, Jp, nameMap)[i], row.std, region)
  {
  }

  /** Hence for a Chinese song the cross-region names differ from the credited ones exactly
      where `char_name_map` renames a piece. */
  lemma CnCrossRenames(row: SongRow, nameMap: map<string, string>, i: nat)
    requires i < |CreditedNames(row, Cn, nameMap)|
    ensures i < |SongCross(row, Cn, nameMap)|
    ensures SongCross(row, Cn, nameMap)[i].character == Unify(Jp, nameMap, CreditedNames(row, Cn, nameMap)[i])
  {
  }

  // ---------------------------------------------------------------------------------------
  // Correlation guard

  predicate HasStd(a: Analysis) { a.std.Some? }

  /** The rows `dropna` keeps, as (std, average song std) pairs. */
  function StdPairs(rows: seq<Analysis>): (r: seq<(real, real)>)
    requires forall i :: 0 <= i < |rows| ==> rows[i].std.Some?
    ensures |r| == |rows|
  {
    seq(|rows|, i requires 0 <= i < |rows| => (rows[i].std.value, rows[i].avgStd))
  }

  lemma {:induction false} CorrelationRowsSpec(a: seq<Analysis>)
    ensures CorrelationRows(a) == StdPairs(Filter(a, HasStd))
  {
    if |a| > 0 {
      CorrelationRowsSpec(a[1..]);
    }
  }

  /** Spearman's coefficient is computed exactly when at least two character rows have a
      standardized share, and then on those rows' pairs in sheet order. */
  lemma CorrelationGuardSpec(a: seq<Analysis>)
    ensures CorrelationInput(a).Pairs? <==> |Filter(a, HasStd)| >= 2
    ensures CorrelationInput(a).Pairs? ==> CorrelationInput(a).pairs == StdPairs(Filter(a, HasStd))
  {
    CorrelationRowsSpec(a);
  }

  // ---------------------------------------------------------------------------------------
  // Outliers

  /** The descending (std, average song std) order, NaN last, is a total preorder. */
  lemma PopularityTotal()
    ensures TotalPreorder(ByPopularityDesc)
  {
    forall x, y, z | PopularityGe(x, y) && PopularityGe(y, z) ensures PopularityGe(x, z) {
    }
  }

  /** The outlier list holds exactly the rows with one extreme value and not the other, each
      as often as in the sheet, sorted by descending (std, average song std). */
  lemma OutliersSpec(a: seq<Analysis>)
    ensures SortedBy(Outliers(a), ByPopularityDesc)
    ensures multiset(Outliers(a)) == multiset(Filter(a, IsOutlier))
    ensures forall x :: x in Outliers(a) <==> x in a && IsOutlier(x)
  {
    PopularityTotal();
    SortWithSorted(Filter(a, IsOutlier), ByPopularityDesc);
    FilterMembers(a, IsOutlier);
    forall x ensures x in Outliers(a) <==> x in Filter(a, IsOutlier) {
      assert x in Outliers(a) <==> x in multiset(Outliers(a));
      assert x in Filter(a, IsOutlier) <==> x in multiset(Filter(a, IsOutlier));
    }
  }

  /** Because the filter keeps rows where exactly one of the two values is extreme, the
      "both extreme" explanation is never printed: each listed row is explained by the value
      that is extreme. */
  lemma ReportSpec(a: seq<Analysis>)
    ensures Report(a).NoOutliers? <==> forall x :: x in a ==> !IsOutlier(x)
    ensures Report(a).Listed? ==>
              Report(a).rows == Outliers(a) && |Report(a).remarks| == |Report(a).rows| &&
              forall i :: 0 <= i < |Report(a).rows| ==>
                Report(a).remarks[i] != BothExtreme &&
                (Report(a).remarks[i] == CharacterExtreme <==> CharExtreme(Report(a).rows[i])) &&
                (Report(a).remarks[i] == SongsExtremeOnly <==> SongsExtreme(Report(a).rows[i]))
  {
    OutliersSpec(a);
    var o := Outliers(a);
    if |o| > 0 {
      forall i | 0 <= i < |o| ensures IsOutlier(o[i]) {
        assert o[i] in o;
      }
    } else {
      forall x | x in a ensures !IsOutlier(x) {
        assert x !in o;
      }
    }
  }

  // ---------------------------------------------------------------------------------------
  // Across the regions

  /** With every rate positive the test is the real-number one. */
  lemma ImpactPositive(j: Joined)
    requires j.cnRaw > 0.0 && j.jpRaw > 0.0 && j.cnAvg > 0.0 && j.jpAvg > 0.0
    ensures Impacted(j) <==> Abs((j.cnRaw / j.jpRaw) / (j.cnAvg / j.jpAvg) - 1.0) > RatioThreshold
  {
    assert j.cnAvg / j.jpAvg > 0.0;
  }

  /** A character that appears in one region only (zeros filled in for the other) is never
      flagged: one of its ratios is NaN, or both are infinite and their quotient is NaN. */
  lemma OneRegionNeverImpacted(j: Joined)
    requires (j.jpRaw == 0.0 && j.jpAvg == 0.0) || (j.cnRaw == 0.0 && j.cnAvg == 0.0)
    ensures !Impacted(j)
  {
  }

  /** A character with votes in both regions whose songs are credited in exactly one region
      is always flagged: one ratio is finite and the other 0 or infinite. */
  lemma SongsInOneRegionImpacted(j: Joined)
    requires j.cnRaw > 0.0 && j.jpRaw > 0.0
    requires (j.cnAvg > 0.0 && j.jpAvg == 0.0) || (j.cnAvg == 0.0 && j.jpAvg > 0.0)
    ensures Impacted(j)
  {
    assert j.cnRaw / j.jpRaw > 0.0;
  }

  /** The printed deviation of a ratio and of its reciprocal coincide and are at least 1, and
      0 and infinity both print as infinity. */
  lemma DeviationSymmetric(x: real)
    requires x > 0.0
    ensures Deviation(Fin(x)) == Deviation(Fin(1.0 / x))
    ensures Deviation(Fin(x)).Fin? && Deviation(Fin(x)).x >= 1.0
  {
    assert 1.0 / (1.0 / x) == x;
    if x < 1.0 {
      assert 1.0 / x > 1.0;
    } else if x > 1.0 {
      assert 1.0 / x < 1.0;
    }
  }

  lemma DeviationInfinite()
    ensures Deviation(PosInf) == PosInf && Deviation(Fin(0.0)) == PosInf
  {
  }

  /** No two rows of `rows` share a unified name. */
  predicate UniqueNames(rows: seq<Analysis>) {
    forall i, k :: 0 <= i < k < |rows| ==> rows[i].name != rows[k].name
  }

  /** With unique names, a name selects no row or exactly the row that has it. */
  lemma {:induction false} NamedUnique(rows: seq<Analysis>, k: string)
    requires UniqueNames(rows)
    ensures k !in Names(rows) ==> Named(rows, k) == []
    ensures k in Names(rows) ==> |Named(rows, k)| == 1 && Named(rows, k)[0] in rows && Named(rows, k)[0].name == k
    ensures forall a :: a in rows && a.name == k ==> Named(rows, k) == [a]
  {
    if |rows| > 0 {
      var tail := rows[1..];
      assert UniqueNames(tail) by {
        forall i, m | 0 <= i < m < |tail| ensures tail[i].name != tail[m].name {
          assert tail[i] == rows[i + 1] && tail[m] == rows[m + 1];
        }
      }
      NamedUnique(tail, k);
      assert forall a :: a in rows <==> a == rows[0] || a in tail;
      assert forall n :: n in Names(rows) <==> n == rows[0].name || n in Names(tail) by {
        forall n ensures n in Names(rows) <==> n == rows[0].name || n in Names(tail) {
          if n in Names(tail) {
            var i :| 0 <= i < |tail| && Names(tail)[i] == n;
            assert Names(rows)[i + 1] == n;
          }
          if n in Names(rows) && n != rows[0].name {
            var i :| 0 <= i < |rows| && Names(rows)[i] == n;
            assert Names(tail)[i - 1] == n;
          }
        }
      }
      if rows[0].name == k {
        assert k !in Names(tail) by {
          forall i | 0 <= i < |tail| ensures Names(tail)[i] != k {
            assert tail[i] == rows[i + 1];
          }
        }
      }
    }
  }

  /** With unique names on each side, the outer merge has one row per name of either side,
      in increasing name order, holding that side's rates or 0 where the name is missing. */
  lemma OuterMergeSpec(cn: seq<Analysis>, jp: seq<Analysis>)
    requires UniqueNames(cn) && UniqueNames(jp)
    ensures forall i, k :: 0 <= i < k < |OuterMerge(cn, jp)| ==> LexLt(OuterMerge(cn, jp)[i].name, OuterMerge(cn, jp)[k].name)
    ensures forall n :: (exists i :: 0 <= i < |OuterMerge(cn, jp)| && OuterMerge(cn, jp)[i].name == n) <==>
              n in Names(cn) || n in Names(jp)
    ensures forall i :: 0 <= i < |OuterMerge(cn, jp)| ==> SidesOf(OuterMerge(cn, jp)[i], cn, jp)
  {
    OuterMergeRows(cn, jp);
    OuterMergeOrder(cn, jp, OuterMerge(cn, jp));
    OuterMergeNames(cn, jp, OuterMerge(cn, jp));
  }

  /** Rows named after the sorted keys come in increasing name order. */
  lemma OuterMergeOrder(cn: seq<Analysis>, jp: seq<Analysis>, merged: seq<Joined>)
    requires |merged| == |SortedStrings(Names(cn) + Names(jp))|
    requires forall i :: 0 <= i < |merged| ==> merged[i].name == SortedStrings(Names(cn) + Names(jp))[i]
    ensures forall i, k :: 0 <= i < k < |merged| ==> LexLt(merged[i].name, merged[k].name)
  {
  }

  /** Rows named after the sorted keys name every name of either side and no other. */
  lemma OuterMergeNames(cn: seq<Analysis>, jp: seq<Analysis>, merged: seq<Joined>)
    requires |merged| == |SortedStrings(Names(cn) + Names(jp))|
    requires forall i :: 0 <= i < |merged| ==> merged[i].name == SortedStrings(Names(cn) + Names(jp))[i]
    ensures forall n :: (exists i :: 0 <= i < |merged| && merged[i].name == n) <==> n in Names(cn) || n in Names(jp)
  {
    var keys := SortedStrings(Names(cn) + Names(jp));
    KeysMembers(Names(cn), Names(jp));
    forall n | n in Names(cn) || n in Names(jp)
      ensures exists i :: 0 <= i < |merged| && merged[i].name == n
    {
      var i :| 0 <= i < |keys| && keys[i] == n;
      assert merged[i].name == n;
    }
  }

  /** `keys` of the outer merge: the names of either side. */
  lemma KeysMembers(a: seq<string>, b: seq<string>)
    ensures forall n :: n in SortedStrings(a + b) <==> n in a || n in b
  {
    var keys := SortedStrings(a + b);
    forall n ensures n in keys <==> n in a + b {
      if n in keys {
        var i :| 0 <= i < |keys| && keys[i] == n;
      }
      if n in a + b {
        var i :| 0 <= i < |a + b| && (a + b)[i] == n;
      }
    }
  }

  /** The merge row by row: row i is the one of the i-th key. */
  lemma OuterMergeRows(cn: seq<Analysis>, jp: seq<Analysis>)
    requires UniqueNames(cn) && UniqueNames(jp)
    ensures |OuterMerge(cn, jp)| == |SortedStrings(Names(cn) + Names(jp))|
    ensures forall i :: 0 <= i < |OuterMerge(cn, jp)| ==>
              OuterMerge(cn, jp)[i].name == SortedStrings(Names(cn) + Names(jp))[i] && SidesOf(OuterMerge(cn, jp)[i], cn, jp)
  {
    var keys := SortedStrings(Names(cn) + Names(jp));
    var ss: seq<seq<Joined>> := KeyRows(cn, jp, keys);
    forall i | 0 <= i < |keys| ensures |ss[i]| == 1 && ss[i][0].name == keys[i] && SidesOf(ss[i][0], cn, jp) {
      assert keys[i] in Names(cn) + Names(jp);
      JoinKeyUnique(cn, jp, keys[i]);
    }
    FlattenSingletons(ss);
  }

  /** A merged row holds the rates of the row of each side with its name, or 0 for a side
      that has none. */
  ghost predicate SidesOf(j: Joined, cn: seq<Analysis>, jp: seq<Analysis>) {
    && (j.name !in Names(cn) ==> j.cnRaw == 0.0 && j.cnAvg == 0.0)
    && (j.name !in Names(jp) ==> j.jpRaw == 0.0 && j.jpAvg == 0.0)
    && (forall a :: a in cn && a.name == j.name ==> j.cnRaw == RawOf(a) && j.cnAvg == a.avgRaw)
    && (forall a :: a in jp && a.name == j.name ==> j.jpRaw == RawOf(a) && j.jpAvg == a.avgRaw)
  }

  lemma JoinKeyUnique(cn: seq<Analysis>, jp: seq<Analysis>, k: string)
    requires UniqueNames(cn) && UniqueNames(jp)
    requires k in Names(cn) || k in Names(jp)
    ensures |JoinKey(cn, jp, k)| == 1 && JoinKey(cn, jp, k)[0].name == k && SidesOf(JoinKey(cn, jp, k)[0], cn, jp)
  {
    NamedUnique(cn, k);
    NamedUnique(jp, k);
  }

  lemma {:induction false} FlattenSingletons(ss: seq<seq<Joined>>)
    requires forall i :: 0 <= i < |ss| ==> |ss[i]| == 1
    ensures |Flatten(ss)| == |ss| && forall i :: 0 <= i < |ss| ==> Flatten(ss)[i] == ss[i][0]
  {
    if |ss| > 0 {
      FlattenSingletons(ss[1..]);
    }
  }

  /** Each printed line is a flagged row of the merge, with the deviations of its two ratios,
      and each flagged row is printed. */
  lemma ImpactReportSpec(cn: seq<Analysis>, jp: seq<Analysis>)
    ensures forall l :: l in ImpactReport(cn, jp) <==>
              exists j :: j in OuterMerge(cn, jp) && Impacted(j) && l == ImpactLine(j.name, Deviation(CharRatio(j)), Deviation(MusicRatio(j)))
  {
    var imp := Filter(OuterMerge(cn, jp), Impacted);
    FilterMembers(OuterMerge(cn, jp), Impacted);
    forall l ensures l in ImpactReport(cn, jp) <==>
              exists j :: j in OuterMerge(cn, jp) && Impacted(j) && l == ImpactLine(j.name, Deviation(CharRatio(j)), Deviation(MusicRatio(j)))
    {
      if exists j :: j in OuterMerge(cn, jp) && Impacted(j) && l == ImpactLine(j.name, Deviation(CharRatio(j)), Deviation(MusicRatio(j))) {
        var j :| j in OuterMerge(cn, jp) && Impacted(j) && l == ImpactLine(j.name, Deviation(CharRatio(j)), Deviation(MusicRatio(j)));
        var i :| 0 <= i < |imp| && imp[i] == j;
        assert ImpactReport(cn, jp)[i] == l;
      }
      if l in ImpactReport(cn, jp) {
        var i :| 0 <= i < |ImpactReport(cn, jp)| && ImpactReport(cn, jp)[i] == l;
        assert imp[i] in imp;
      }
    }
  }

  // ---------------------------------------------------------------------------------------
  // Songs of one region only

  lemma {:induction false} TitlesSpec(rows: seq<SongRow>)
    ensures forall t :: t in Titles(rows) <==> exists i :: 0 <= i < |rows| && rows[i].title == Some(t)
  {
    if |rows| > 0 {
      TitlesSpec(rows[1..]);
      forall t ensures t in Titles(rows) <==> exists i :: 0 <= i < |rows| && rows[i].title == Some(t) {
        if exists i :: 0 <= i < |rows| && rows[i].title == Some(t) {
          var i :| 0 <= i < |rows| && rows[i].title == Some(t);
          if i > 0 { assert rows[1..][i - 1] == rows[i]; }
        }
        if t in Titles(rows[1..]) {
          var i :| 0 <= i < |rows[1..]| && rows[1..][i].title == Some(t);
          assert rows[i + 1] == rows[1..][i];
        }
      }
    }
  }

  lemma OnlyInSpec(a: seq<string>, b: seq<string>)
    ensures forall t :: t in OnlyIn(a, b) <==> t in a && t !in b
    ensures forall i, k :: 0 <= i < k < |OnlyIn(a, b)| ==> LexLt(OnlyIn(a, b)[i], OnlyIn(a, b)[k])
  {
    var f := Filter(a, (t: string) => t !in b);
    FilterMembers(a, (t: string) => t !in b);
    forall t ensures t in OnlyIn(a, b) <==> t in f {
      if t in f {
        var i :| 0 <= i < |f| && f[i] == t;
      }
    }
  }

  /** The two lists of titles printed: the non-missing titles of one region that the other
      region's sheet lacks, each once, in increasing order; no title is in both. */
  lemma UniqueSongsSpec(cnSongs: seq<SongRow>, jpSongs: seq<SongRow>)
    ensures forall t :: t in UniqueSongs(cnSongs, jpSongs).0 <==>
              (exists i :: 0 <= i < |cnSongs| && cnSongs[i].title == Some(t)) &&
              !(exists i :: 0 <= i < |jpSongs| && jpSongs[i].title == Some(t))
    ensures forall t :: t in UniqueSongs(cnSongs, jpSongs).1 <==>
              (exists i :: 0 <= i < |jpSongs| && jpSongs[i].title == Some(t)) &&
              !(exists i :: 0 <= i < |cnSongs| && cnSongs[i].title == Some(t))
    ensures forall t :: !(t in UniqueSongs(cnSongs, jpSongs).0 && t in UniqueSongs(cnSongs, jpSongs).1)
    ensures forall i, k :: 0 <= i < k < |UniqueSongs(cnSongs, jpSongs).0| ==>
              LexLt(UniqueSongs(cnSongs, jpSongs).0[i], UniqueSongs(cnSongs, jpSongs).0[k])
    ensures forall i, k :: 0 <= i < k < |UniqueSongs(cnSongs, jpSongs).1| ==>
              LexLt(UniqueSongs(cnSongs, jpSongs).1[i], UniqueSongs(cnSongs, jpSongs).1[k])
  {
    TitlesSpec(cnSongs);
    TitlesSpec(jpSongs);
    OnlyInSpec(Titles(cnSongs), Titles(jpSongs));
    OnlyInSpec(Titles(jpSongs), Titles(cnSongs));
  }
}
