/** What the two read-back scripts promise: loading reads back what was saved, the diff list
    holds exactly the tags whose rates differ by at least the threshold, each once and ordered
    by the size of the difference, and the per-tag curve takes the first entry for the tag or
    0.0. */
module TagCompareProps {
  import opened Wrappers
  import opened Strings
  import opened Seqs
  import opened Sorting
  import opened TagStatistics
  import opened TagStatisticsProps
  import opened TagCompare

  // ---------------------------------------------------------------------------------------
  // Loading

  /** Loading fails exactly when `conv` rejects some key. */
  lemma {:induction false} LoadWithNone(obj: SavedRankings, conv: string -> Option<int>)
    ensures LoadWith(obj, conv).None? <==> exists i :: 0 <= i < |obj| && conv(obj[i].0).None?
  {
    if |obj| > 0 {
      var pre := obj[..|obj| - 1];
      LoadWithNone(pre, conv);
      assert forall i :: 0 <= i < |pre| ==> pre[i] == obj[i];
      if LoadWith(obj, conv).None? {
        if LoadWith(pre, conv).None? {
          var i :| 0 <= i < |pre| && conv(pre[i].0).None?;
          assert conv(obj[i].0).None?;
        } else {
          assert conv(obj[|obj| - 1].0).None?;
        }
      }
    }
  }

  /** A successful load converts every key, and its keys are the converted keys. */
  lemma {:induction false} LoadWithKeys(obj: SavedRankings, conv: string -> Option<int>)
    ensures LoadWith(obj, conv).Some? ==>
      forall i :: 0 <= i < |obj| ==> conv(obj[i].0) == Some(KeysWith(obj, conv)[i])
    ensures LoadWith(obj, conv).Some? ==>
      forall k :: k in LoadWith(obj, conv).value <==> k in KeysWith(obj, conv)
  {
    if |obj| > 0 && LoadWith(obj, conv).Some? {
      var pre := obj[..|obj| - 1];
      LoadWithKeys(pre, conv);
      assert forall i :: 0 <= i < |pre| ==> pre[i] == obj[i] && KeysWith(pre, conv)[i] == KeysWith(obj, conv)[i];
      var ks := KeysWith(obj, conv);
      assert ks == KeysWith(pre, conv) + [ks[|obj| - 1]];
    }
  }

  /** After a successful load, each key holds the list of the last member with that key. */
  lemma {:induction false} LoadWithLast(obj: SavedRankings, conv: string -> Option<int>)
    ensures LoadWith(obj, conv).Some? ==>
      forall i :: (0 <= i < |obj| && (forall j :: i < j < |obj| ==> KeysWith(obj, conv)[j] != KeysWith(obj, conv)[i])) ==>
        KeysWith(obj, conv)[i] in LoadWith(obj, conv).value && LoadWith(obj, conv).value[KeysWith(obj, conv)[i]] == obj[i].1
  {
    if |obj| > 0 && LoadWith(obj, conv).Some? {
      var pre := obj[..|obj| - 1];
      LoadWithLast(pre, conv);
      var ks, pks := KeysWith(obj, conv), KeysWith(pre, conv);
      var m := LoadWith(pre, conv).value;
      assert LoadWith(obj, conv).value == m[ks[|obj| - 1] := obj[|obj| - 1].1];
      forall i | 0 <= i < |obj| - 1 && (forall j :: i < j < |obj| ==> ks[j] != ks[i])
        ensures ks[i] in LoadWith(obj, conv).value && LoadWith(obj, conv).value[ks[i]] == obj[i].1
      {
        assert pre[i] == obj[i] && pks[i] == ks[i];
        forall j | i < j < |pre| ensures pks[j] != pks[i] {
          assert pks[j] == ks[j];
        }
        assert ks[|obj| - 1] != ks[i];
      }
    }
  }

  /** Loading fails exactly when `conv` rejects some key; otherwise the keys are the converted
      keys and each holds the list of the last member with that key. */
  lemma LoadWithSpec(obj: SavedRankings, conv: string -> Option<int>)
    ensures LoadWith(obj, conv).None? <==> exists i :: 0 <= i < |obj| && conv(obj[i].0).None?
    ensures LoadWith(obj, conv).Some? ==>
      forall i :: 0 <= i < |obj| ==> conv(obj[i].0) == Some(KeysWith(obj, conv)[i])
    ensures LoadWith(obj, conv).Some? ==>
      forall k :: k in LoadWith(obj, conv).value <==> k in KeysWith(obj, conv)
    ensures LoadWith(obj, conv).Some? ==>
      forall i :: (0 <= i < |obj| && (forall j :: i < j < |obj| ==> KeysWith(obj, conv)[j] != KeysWith(obj, conv)[i])) ==>
        KeysWith(obj, conv)[i] in LoadWith(obj, conv).value && LoadWith(obj, conv).value[KeysWith(obj, conv)[i]] == obj[i].1
  {
    LoadWithNone(obj, conv);
    LoadWithKeys(obj, conv);
    LoadWithLast(obj, conv);
  }

  lemma DumpPrefix(ranks: map<int, Ranked>, sessions: seq<int>)
    requires |sessions| > 0 && sessions[|sessions| - 1] in ranks
    ensures Dump(ranks, sessions)[..|sessions| - 1] == Dump(ranks, sessions[..|sessions| - 1])
    ensures Dump(ranks, sessions)[|sessions| - 1] == (IntToString(sessions[|sessions| - 1]), ranks[sessions[|sessions| - 1]])
  {
  }

  lemma RestrictSnoc(ranks: map<int, Ranked>, sessions: seq<int>)
    requires |sessions| > 0 && sessions[|sessions| - 1] in ranks
    requires forall s :: s in sessions ==> s in ranks
    ensures (map s | s in sessions[..|sessions| - 1] :: ranks[s])[sessions[|sessions| - 1] := ranks[sessions[|sessions| - 1]]]
      == map s | s in sessions :: ranks[s]
  {
    var pre := sessions[..|sessions| - 1];
    var last := sessions[|sessions| - 1];
    assert forall s :: s in sessions <==> s in pre || s == last;
  }

  /** Reading back what was saved: where `conv(str(s))` is `s`, the sessions and their lists come
      back unchanged. */
  lemma {:induction false} DumpLoadWith(ranks: map<int, Ranked>, sessions: seq<int>, conv: string -> Option<int>)
    requires forall s :: s in sessions ==> s in ranks && conv(IntToString(s)) == Some(s)
    ensures LoadWith(Dump(ranks, sessions), conv) == Some(map s | s in sessions :: ranks[s])
  {
    if |sessions| > 0 {
      DumpLoadWith(ranks, sessions[..|sessions| - 1], conv);
      var last := sessions[|sessions| - 1];
      assert last in sessions;
      assert last in ranks;
      DumpPrefix(ranks, sessions);
      RestrictSnoc(ranks, sessions);
    }
  }

  /** `int(str(s))` is `s` for every session. */
  lemma IntKeysReadBack(sessions: seq<int>)
    ensures forall s :: s in sessions ==> ParseInt(IntToString(s)) == Some(s)
  {
    forall s | s in sessions ensures ParseInt(IntToString(s)) == Some(s) {
      ParseIntOfIntToString(s);
    }
  }

  lemma RestrictAll(ranks: map<int, Ranked>, sessions: seq<int>)
    requires forall s :: s in ranks <==> s in sessions
    ensures (map s | s in sessions :: ranks[s]) == ranks
  {
    var m := map s | s in sessions :: ranks[s];
    assert forall s :: s in m <==> s in ranks;
  }

  /** Saving every session of a table, in any order, and loading it with `int()` gives the table
      back. */
  lemma DumpLoad(ranks: map<int, Ranked>, sessions: seq<int>)
    requires forall s :: s in ranks <==> s in sessions
    ensures LoadLists(Dump(ranks, sessions)) == Some(ranks)
  {
    IntKeysReadBack(sessions);
    DumpLoadWith(ranks, sessions, ParseInt);
    RestrictAll(ranks, sessions);
  }

  /** `int` comparison is a total order. */
  lemma IntLeTotalOrder()
    ensures TotalPreorder(IntLe) && Antisymmetric(IntLe)
  {
  }

  /** `sorted(d.keys())`: the loaded sessions in increasing order, each once. */
  lemma SortedSessionsSpec(obj: SavedRankings)
    requires LoadLists(obj).Some?
    ensures StrictlySortedBy(SortedSessions(obj), IntLe)
    ensures forall k :: k in SortedSessions(obj) <==> k in LoadLists(obj).value
  {
    IntLeTotalOrder();
    SortedUniqueStrict(KeysWith(obj, ParseInt), IntLe);
    LoadWithSpec(obj, ParseInt);
  }

  /** The tag -> rate map has the list's tags as keys. */
  lemma {:induction false} RateMapKeys(list: Ranked)
    ensures forall t :: t in RateMap(list) <==> t in Firsts(list)
  {
    if |list| > 0 {
      var pre := list[..|list| - 1];
      RateMapKeys(pre);
      assert Firsts(list) == Firsts(pre) + [list[|list| - 1].0];
    }
  }

  /** An entry whose tag does not come again later sets that tag's rate: a later duplicate wins. */
  lemma {:induction false} RateMapAt(list: Ranked, i: nat)
    requires i < |list| && forall j :: i < j < |list| ==> list[j].0 != list[i].0
    ensures list[i].0 in RateMap(list) && RateMap(list)[list[i].0] == list[i].1
  {
    if i < |list| - 1 {
      var pre := list[..|list| - 1];
      assert pre[i] == list[i];
      forall j | i < j < |pre| ensures pre[j].0 != pre[i].0 {
        assert pre[j] == list[j];
      }
      RateMapAt(pre, i);
    }
  }

  /** Each tag at most once in a ranked list. */
  predicate DistinctTags(list: Ranked) {
    forall i, j :: 0 <= i < j < |list| ==> list[i].0 != list[j].0
  }

  lemma DistinctTagsOfNoDup(list: Ranked)
    requires NoDup(Firsts(list))
    ensures DistinctTags(list)
  {
    forall i, j | 0 <= i < j < |list| ensures list[i].0 != list[j].0 {
      assert Firsts(list)[i] != Firsts(list)[j];
    }
  }

  /** On a list with each tag once (as the saved rankings are), every entry's rate is found. */
  lemma RateMapOfDistinct(list: Ranked)
    requires DistinctTags(list)
    ensures forall t :: t in RateMap(list) <==> t in Firsts(list)
    ensures forall i :: 0 <= i < |list| ==> RateMap(list)[list[i].0] == list[i].1
  {
    RateMapKeys(list);
    forall i | 0 <= i < |list| ensures RateMap(list)[list[i].0] == list[i].1 {
      RateMapAt(list, i);
    }
  }

  // ---------------------------------------------------------------------------------------
  // CharacterTagDifferent

  /** The tags of the diff list, in its order. */
  function DiffTags(r: seq<Diff>): (ts: seq<string>)
    ensures |ts| == |r| && forall i :: 0 <= i < |r| ==> ts[i] == r[i].tag
  {
    seq(|r|, i requires 0 <= i < |r| => r[i].tag)
  }

  /** Every kept row is the row of a tag of `order`, with `cn_rate`/`jp_rate` the lookups
      defaulting to 0.0 and a difference of at least the threshold. */
  lemma {:induction false} DiffsOfEntries(cn: map<string, real>, jp: map<string, real>, order: seq<string>, threshold: real)
    ensures forall i :: 0 <= i < |DiffsOf(cn, jp, order, threshold)| ==>
      var e := DiffsOf(cn, jp, order, threshold)[i];
      e == DiffOf(cn, jp, e.tag) && Passes(e, threshold) && e.tag in order
  {
    if |order| > 0 {
      DiffsOfEntries(cn, jp, order[..|order| - 1], threshold);
    }
  }

  /** Every tag of `order` whose difference reaches the threshold is kept. */
  lemma {:induction false} DiffsOfComplete(cn: map<string, real>, jp: map<string, real>, order: seq<string>, threshold: real)
    ensures forall t :: t in order && Passes(DiffOf(cn, jp, t), threshold) ==> DiffOf(cn, jp, t) in DiffsOf(cn, jp, order, threshold)
  {
    if |order| > 0 {
      var pre := order[..|order| - 1];
      DiffsOfComplete(cn, jp, pre, threshold);
      assert forall t :: t in order ==> t in pre || t == order[|order| - 1];
    }
  }

  /** Distinct tags give rows with distinct tags. */
  lemma {:induction false} DiffsOfNoDup(cn: map<string, real>, jp: map<string, real>, order: seq<string>, threshold: real)
    requires NoDup(order)
    ensures NoDup(DiffTags(DiffsOf(cn, jp, order, threshold)))
  {
    if |order| > 0 {
      var pre := order[..|order| - 1];
      var last := order[|order| - 1];
      assert NoDup(pre) by {
        forall i, j | 0 <= i < j < |pre| ensures pre[i] != pre[j] {
          assert pre[i] == order[i] && pre[j] == order[j];
        }
      }
      DiffsOfNoDup(cn, jp, pre, threshold);
      DiffsOfEntries(cn, jp, pre, threshold);
      assert last !in pre by {
        forall i | 0 <= i < |pre| ensures pre[i] != last {
          assert pre[i] == order[i];
        }
      }
    }
  }

  lemma ByAbsDiffDescTotal()
    ensures TotalPreorder(ByAbsDiffDesc)
  {
  }

  /** The sorted diff list is ordered by |diff| from large to small and is a permutation of
      the rows the loop kept. */
  lemma SortedDiffsPerm(cn: map<string, real>, jp: map<string, real>, order: seq<string>, threshold: real)
    ensures SortedBy(SortedDiffs(cn, jp, order, threshold), ByAbsDiffDesc)
    ensures multiset(SortedDiffs(cn, jp, order, threshold)) == multiset(DiffsOf(cn, jp, order, threshold))
  {
    ByAbsDiffDescTotal();
    SortWithSorted(DiffsOf(cn, jp, order, threshold), ByAbsDiffDesc);
  }

  /** Sorting keeps every row a kept row of a tag of `order`. */
  lemma SortedDiffsEntries(cn: map<string, real>, jp: map<string, real>, order: seq<string>, threshold: real)
    ensures forall i :: 0 <= i < |SortedDiffs(cn, jp, order, threshold)| ==>
      var e := SortedDiffs(cn, jp, order, threshold)[i];
      e == DiffOf(cn, jp, e.tag) && Passes(e, threshold) && e.tag in order
  {
    var u := DiffsOf(cn, jp, order, threshold);
    var r := SortedDiffs(cn, jp, order, threshold);
    SortedDiffsPerm(cn, jp, order, threshold);
    DiffsOfEntries(cn, jp, order, threshold);
    forall i | 0 <= i < |r| ensures r[i] == DiffOf(cn, jp, r[i].tag) && Passes(r[i], threshold) && r[i].tag in order {
      assert r[i] in multiset(u);
      var j :| 0 <= j < |u| && u[j] == r[i];
    }
  }

  lemma SortedDiffsOrder(cn: map<string, real>, jp: map<string, real>, order: seq<string>, threshold: real)
    ensures SortedBy(SortedDiffs(cn, jp, order, threshold), ByAbsDiffDesc)
    ensures multiset(SortedDiffs(cn, jp, order, threshold)) == multiset(DiffsOf(cn, jp, order, threshold))
    ensures forall i :: 0 <= i < |SortedDiffs(cn, jp, order, threshold)| ==>
      var e := SortedDiffs(cn, jp, order, threshold)[i];
      e == DiffOf(cn, jp, e.tag) && Passes(e, threshold) && e.tag in order
  {
    SortedDiffsPerm(cn, jp, order, threshold);
    SortedDiffsEntries(cn, jp, order, threshold);
  }

  /** With duplicate-free `order`, the sorted list holds each tag at most once. */
  lemma SortedDiffsNoDup(cn: map<string, real>, jp: map<string, real>, order: seq<string>, threshold: real)
    requires NoDup(order)
    ensures NoDup(DiffTags(SortedDiffs(cn, jp, order, threshold)))
  {
    var u := DiffsOf(cn, jp, order, threshold);
    var r := SortedDiffs(cn, jp, order, threshold);
    DiffsOfNoDup(cn, jp, order, threshold);
    SortedDiffsOrder(cn, jp, order, threshold);
    assert NoDup(r) by {
      assert NoDup(u) by {
        forall i, j | 0 <= i < j < |u| ensures u[i] != u[j] {
          assert DiffTags(u)[i] != DiffTags(u)[j];
        }
      }
      PermutationNoDup(u, r);
    }
    forall i, j | 0 <= i < j < |r| ensures DiffTags(r)[i] != DiffTags(r)[j] {
      assert r[i] == DiffOf(cn, jp, r[i].tag) && r[j] == DiffOf(cn, jp, r[j].tag);
    }
  }

  /** A tag is in the sorted list exactly when it is a tag of either session whose
      difference reaches the threshold. */
  lemma SortedDiffsTags(cn: map<string, real>, jp: map<string, real>, order: seq<string>, threshold: real)
    requires Enumerates(order, cn, jp)
    ensures forall t :: t in DiffTags(SortedDiffs(cn, jp, order, threshold)) <==>
      (t in cn || t in jp) && Abs(Rate(cn, t) - Rate(jp, t)) >= threshold
  {
    SortedDiffsTagsSound(cn, jp, order, threshold);
    SortedDiffsTagsComplete(cn, jp, order, threshold);
  }

  lemma SortedDiffsTagsSound(cn: map<string, real>, jp: map<string, real>, order: seq<string>, threshold: real)
    requires Enumerates(order, cn, jp)
    ensures forall t :: t in DiffTags(SortedDiffs(cn, jp, order, threshold)) ==>
      (t in cn || t in jp) && Abs(Rate(cn, t) - Rate(jp, t)) >= threshold
  {
    var r := SortedDiffs(cn, jp, order, threshold);
    SortedDiffsOrder(cn, jp, order, threshold);
    forall t | t in DiffTags(r) ensures (t in cn || t in jp) && Abs(Rate(cn, t) - Rate(jp, t)) >= threshold {
      var i :| 0 <= i < |r| && DiffTags(r)[i] == t;
      assert r[i].tag in order;
    }
  }

  lemma SortedDiffsTagsComplete(cn: map<string, real>, jp: map<string, real>, order: seq<string>, threshold: real)
    requires Enumerates(order, cn, jp)
    ensures forall t :: (t in cn || t in jp) && Abs(Rate(cn, t) - Rate(jp, t)) >= threshold ==>
      t in DiffTags(SortedDiffs(cn, jp, order, threshold))
  {
    var u := DiffsOf(cn, jp, order, threshold);
    var r := SortedDiffs(cn, jp, order, threshold);
    SortedDiffsOrder(cn, jp, order, threshold);
    DiffsOfComplete(cn, jp, order, threshold);
    forall t | (t in cn || t in jp) && Abs(Rate(cn, t) - Rate(jp, t)) >= threshold ensures t in DiffTags(r) {
      var e := DiffOf(cn, jp, t);
      assert e in u;
      assert e in multiset(r);
      var i :| 0 <= i < |r| && r[i] == e;
      assert DiffTags(r)[i] == t;
    }
  }

  /** The sorted diff list in full. */
  lemma SortedDiffsSpec(cn: map<string, real>, jp: map<string, real>, order: seq<string>, threshold: real)
    requires Enumerates(order, cn, jp)
    ensures SortedBy(SortedDiffs(cn, jp, order, threshold), ByAbsDiffDesc)
    ensures multiset(SortedDiffs(cn, jp, order, threshold)) == multiset(DiffsOf(cn, jp, order, threshold))
    ensures NoDup(DiffTags(SortedDiffs(cn, jp, order, threshold)))
    ensures forall i :: 0 <= i < |SortedDiffs(cn, jp, order, threshold)| ==>
      var e := SortedDiffs(cn, jp, order, threshold)[i];
      e == DiffOf(cn, jp, e.tag) && Passes(e, threshold)
    ensures forall t :: t in DiffTags(SortedDiffs(cn, jp, order, threshold)) <==>
      (t in cn || t in jp) && Abs(Rate(cn, t) - Rate(jp, t)) >= threshold
  {
    SortedDiffsOrder(cn, jp, order, threshold);
    SortedDiffsNoDup(cn, jp, order, threshold);
    SortedDiffsTags(cn, jp, order, threshold);
  }

  /** The "no tag" message appears exactly when no tag of either session differs by the
      threshold or more. */
  lemma CompareNoTag(cnTable: map<int, map<string, real>>, jpTable: map<int, map<string, real>>,
                     cnSession: int, jpSession: int, threshold: real, order: seq<string>)
    requires Enumerates(order, RatesOf(cnTable, cnSession), RatesOf(jpTable, jpSession))
    ensures var cn := RatesOf(cnTable, cnSession); var jp := RatesOf(jpTable, jpSession);
      Compare(cnTable, jpTable, cnSession, jpSession, threshold, order).NoTag? <==>
        forall t :: (t in cn || t in jp) ==> Abs(Rate(cn, t) - Rate(jp, t)) < threshold
  {
    var cn := RatesOf(cnTable, cnSession);
    var jp := RatesOf(jpTable, jpSession);
    var r := SortedDiffs(cn, jp, order, threshold);
    assert Compare(cnTable, jpTable, cnSession, jpSession, threshold, order).NoTag? <==> |r| == 0;
    SortedDiffsTags(cn, jp, order, threshold);
    if |r| > 0 {
      var t := DiffTags(r)[0];
      assert t in DiffTags(r);
      assert (t in cn || t in jp) && Abs(Rate(cn, t) - Rate(jp, t)) >= threshold;
    }
  }

  /** The bar chart: one bar per kept tag, each tag once, its height the signed difference in
      percent (Chinese rate minus Japanese rate), red exactly where the Chinese rate is higher,
      every bar at least the threshold away from zero, larger differences first. */
  lemma CompareChart(cnTable: map<int, map<string, real>>, jpTable: map<int, map<string, real>>,
                     cnSession: int, jpSession: int, threshold: real, order: seq<string>)
    requires Enumerates(order, RatesOf(cnTable, cnSession), RatesOf(jpTable, jpSession))
    requires Compare(cnTable, jpTable, cnSession, jpSession, threshold, order).Chart?
    ensures var out := Compare(cnTable, jpTable, cnSession, jpSession, threshold, order);
      var cn := RatesOf(cnTable, cnSession); var jp := RatesOf(jpTable, jpSession);
      && |out.tags| == |out.pcts| == |out.red| > 0
      && NoDup(out.tags)
      && (forall i :: 0 <= i < |out.tags| ==>
            && (out.tags[i] in cn || out.tags[i] in jp)
            && out.pcts[i] == (Rate(cn, out.tags[i]) - Rate(jp, out.tags[i])) * 100.0
            && (out.red[i] <==> Rate(cn, out.tags[i]) > Rate(jp, out.tags[i]))
            && Abs(Rate(cn, out.tags[i]) - Rate(jp, out.tags[i])) >= threshold)
      && (forall i, j :: 0 <= i < j < |out.pcts| ==> Abs(out.pcts[i]) >= Abs(out.pcts[j]))
  {
    var cn := RatesOf(cnTable, cnSession);
    var jp := RatesOf(jpTable, jpSession);
    SortedDiffsSpec(cn, jp, order, threshold);
    var r := SortedDiffs(cn, jp, order, threshold);
    var out := Compare(cnTable, jpTable, cnSession, jpSession, threshold, order);
    assert out.tags == DiffTags(r);
    forall i | 0 <= i < |r| ensures out.tags[i] in cn || out.tags[i] in jp {
      assert DiffTags(r)[i] in DiffTags(r);
    }
    forall i, j | 0 <= i < j < |out.pcts| ensures Abs(out.pcts[i]) >= Abs(out.pcts[j]) {
      assert ByAbsDiffDesc(r[i], r[j]);
      assert Abs(r[i].diff * 100.0) == Abs(r[i].diff) * 100.0;
      assert Abs(r[j].diff * 100.0) == Abs(r[j].diff) * 100.0;
    }
  }

  /** A Chinese session missing from the file compares as an empty map: the Chinese rate of
      every row is 0.0, so with non-negative Japanese rates no bar is red. */
  lemma CompareAbsentCn(cnTable: map<int, map<string, real>>, jpTable: map<int, map<string, real>>,
                        cnSession: int, jpSession: int, threshold: real, order: seq<string>)
    requires cnSession !in cnTable
    requires forall t :: t in RatesOf(jpTable, jpSession) ==> RatesOf(jpTable, jpSession)[t] >= 0.0
    requires Enumerates(order, RatesOf(cnTable, cnSession), RatesOf(jpTable, jpSession))
    requires Compare(cnTable, jpTable, cnSession, jpSession, threshold, order).Chart?
    ensures forall i :: 0 <= i < |Compare(cnTable, jpTable, cnSession, jpSession, threshold, order).red| ==>
      !Compare(cnTable, jpTable, cnSession, jpSession, threshold, order).red[i]
  {
    CompareChart(cnTable, jpTable, cnSession, jpSession, threshold, order);
  }

  // ---------------------------------------------------------------------------------------
  // CharacterTagAnalyze_ByTag

  /** The rate of the first entry for the tag; 0.0 when the tag is not in the list. */
  lemma {:induction false} FirstRateSpec(list: Ranked, tag: string)
    ensures (forall j :: 0 <= j < |list| ==> list[j].0 != tag) ==> FirstRate(list, tag) == 0.0
    ensures forall j :: (0 <= j < |list| && list[j].0 == tag && (forall k :: 0 <= k < j ==> list[k].0 != tag)) ==>
      FirstRate(list, tag) == list[j].1
  {
    if |list| > 0 {
      FirstRateSpec(list[1..], tag);
      forall j | 0 <= j < |list| && list[j].0 == tag && (forall k :: 0 <= k < j ==> list[k].0 != tag)
        ensures FirstRate(list, tag) == list[j].1
      {
        if j > 0 {
          assert list[1..][j - 1] == list[j];
          forall k | 0 <= k < j - 1 ensures list[1..][k].0 != tag {
            assert list[1..][k] == list[k + 1];
          }
        }
      }
      if forall j :: 0 <= j < |list| ==> list[j].0 != tag {
        assert forall j :: 0 <= j < |list[1..]| ==> list[1..][j] == list[j + 1];
      }
    }
  }

  /** On a list with each tag once, the curve's value is the tag's entry, and it agrees with
      the tag -> rate map CharacterTagDifferent builds from the same list. */
  lemma FirstRateOfDistinct(list: Ranked, tag: string)
    requires DistinctTags(list)
    ensures forall j :: 0 <= j < |list| && list[j].0 == tag ==> FirstRate(list, tag) == list[j].1
    ensures FirstRate(list, tag) == Rate(RateMap(list), tag)
  {
    FirstRateSpec(list, tag);
    RateMapOfDistinct(list);
    forall j | 0 <= j < |list| && list[j].0 == tag ensures FirstRate(list, tag) == list[j].1 {
      assert forall k :: 0 <= k < j ==> list[k].0 != tag;
    }
    if tag in RateMap(list) {
      var j :| 0 <= j < |list| && Firsts(list)[j] == tag;
      assert list[j].0 == tag;
    } else {
      forall j | 0 <= j < |list| ensures list[j].0 != tag {
        assert Firsts(list)[j] in Firsts(list);
      }
    }
  }

  /** The script's curves: the loaded sessions in increasing order, each once, and in each one
      the rate of the tag's first entry there. */
  lemma ByTagScriptSpec(cnObj: SavedRankings, jpObj: SavedRankings, tag: string)
    requires ByTagScript(cnObj, jpObj, tag).Some?
    ensures LoadLists(cnObj).Some? && LoadLists(jpObj).Some?
    ensures var (c, j) := ByTagScript(cnObj, jpObj, tag).value;
      && StrictlySortedBy(c.sessions, IntLe) && StrictlySortedBy(j.sessions, IntLe)
      && (forall k :: k in c.sessions <==> k in LoadLists(cnObj).value)
      && (forall k :: k in j.sessions <==> k in LoadLists(jpObj).value)
      && |c.values| == |c.sessions| && |j.values| == |j.sessions|
      && (forall i :: 0 <= i < |c.sessions| ==> c.values[i] == FirstRate(LoadLists(cnObj).value[c.sessions[i]], tag))
      && (forall i :: 0 <= i < |j.sessions| ==> j.values[i] == FirstRate(LoadLists(jpObj).value[j.sessions[i]], tag))
  {
    SortedSessionsSpec(cnObj);
    SortedSessionsSpec(jpObj);
  }

  // ---------------------------------------------------------------------------------------
  // Saved tables whose lists carry known values

  /** A ranked list holding each tag of `vals` exactly once, each with the value `vals` gives. */
  ghost predicate ListCarries(list: Ranked, vals: map<string, real>) {
    && DistinctTags(list)
    && (forall t :: t in Firsts(list) <==> t in vals)
    && (forall i :: 0 <= i < |list| ==> list[i].0 in vals && list[i].1 == vals[list[i].0])
  }

  /** Such a list loads into exactly `vals`, and the first-match scan reads `vals` too. */
  lemma ListCarriesRates(list: Ranked, vals: map<string, real>, tag: string)
    requires ListCarries(list, vals)
    ensures RateMap(list) == vals
    ensures FirstRate(list, tag) == Rate(vals, tag)
  {
    RateMapOfDistinct(list);
    FirstRateOfDistinct(list, tag);
    forall t | t in vals ensures t in RateMap(list) && RateMap(list)[t] == vals[t] {
      assert t in Firsts(list);
      var j :| 0 <= j < |list| && Firsts(list)[j] == t;
      assert list[j].0 == t;
    }
    assert forall t :: t in RateMap(list) <==> t in vals;
  }

  /** A table with sessions lo..hi, saved in the order `range(lo, hi + 1)`, loads back unchanged. */
  lemma TableReload(ranks: map<int, Ranked>, lo: int, hi: int)
    requires forall s :: s in ranks <==> lo <= s <= hi
    ensures LoadLists(Dump(ranks, SessionRange(lo, hi))) == Some(ranks)
  {
    assert forall k :: k in SessionRange(lo, hi) <==> lo <= k <= hi by {
      forall k | lo <= k <= hi ensures k in SessionRange(lo, hi) {
        assert SessionRange(lo, hi)[k - lo] == k;
      }
    }
    DumpLoad(ranks, SessionRange(lo, hi));
  }

  /** A saved table whose lists carry `vals` loads, for CharacterTagDifferent, into `vals`. */
  lemma TableReloadRates(ranks: map<int, Ranked>, lo: int, hi: int, vals: map<int, map<string, real>>)
    requires forall s :: s in ranks <==> lo <= s <= hi
    requires forall s :: lo <= s <= hi ==> s in vals && ListCarries(ranks[s], vals[s])
    ensures LoadRates(Dump(ranks, SessionRange(lo, hi))).Some?
    ensures forall s :: lo <= s <= hi ==>
      s in LoadRates(Dump(ranks, SessionRange(lo, hi))).value && LoadRates(Dump(ranks, SessionRange(lo, hi))).value[s] == vals[s]
  {
    TableReload(ranks, lo, hi);
    forall s | lo <= s <= hi ensures RateMap(ranks[s]) == vals[s] {
      ListCarriesRates(ranks[s], vals[s], "");
    }
  }

  predicate Increasing(xs: seq<int>) {
    forall i, j :: 0 <= i < j < |xs| ==> xs[i] < xs[j]
  }

  /** A strictly increasing list of ints holding exactly lo..hi is `range(lo, hi + 1)`. */
  lemma StrictRangeIsRange(xs: seq<int>, lo: int, hi: int)
    requires StrictlySortedBy(xs, IntLe)
    requires forall k :: k in xs <==> lo <= k <= hi
    ensures xs == SessionRange(lo, hi)
  {
    forall i, j | 0 <= i < j < |xs| ensures xs[i] < xs[j] {
      assert IntLe(xs[i], xs[j]) && xs[i] != xs[j];
    }
    IncreasingRangeIsRange(xs, lo, hi);
  }

  lemma IncreasingRangeIsRange(xs: seq<int>, lo: int, hi: int)
    requires Increasing(xs)
    requires forall k :: k in xs <==> lo <= k <= hi
    ensures xs == SessionRange(lo, hi)
  {
    if |xs| > 0 {
      forall i | 0 <= i < |xs| ensures xs[i] == lo + i {
        RangeAt(xs, lo, hi, i);
      }
      assert xs[|xs| - 1] in xs;
      assert hi in xs;
    } else {
      assert lo !in xs;
    }
  }

  /** No gap: the successor of an element that is not the last is the next element. */
  lemma RangeStep(xs: seq<int>, lo: int, hi: int, i: int)
    requires Increasing(xs)
    requires forall k :: k in xs <==> lo <= k <= hi
    requires 0 <= i < |xs| - 1
    ensures xs[i + 1] == xs[i] + 1
  {
    assert xs[i] in xs && xs[i + 1] in xs;
    var k := xs[i] + 1;
    assert k in xs;
    var m :| 0 <= m < |xs| && xs[m] == k;
    assert i < m;
    assert xs[i + 1] <= xs[m];
  }

  lemma {:induction false} RangeAt(xs: seq<int>, lo: int, hi: int, i: int)
    requires Increasing(xs)
    requires forall k :: k in xs <==> lo <= k <= hi
    requires 0 <= i < |xs|
    ensures xs[i] == lo + i
    decreases i
  {
    if i == 0 {
      assert xs[0] in xs;
      assert lo in xs;
      var m :| 0 <= m < |xs| && xs[m] == lo;
      assert xs[0] <= xs[m];
    } else {
      RangeAt(xs, lo, hi, i - 1);
      RangeStep(xs, lo, hi, i - 1);
    }
  }

  /** A curve over the sessions lo..hi in increasing order whose point for session s is the
      tag's value in `vals[s]` (0.0 where the tag has none). */
  ghost predicate Draws(c: Curve, lo: int, hi: int, vals: map<int, map<string, real>>, tag: string) {
    && c.sessions == SessionRange(lo, hi)
    && |c.values| == |c.sessions|
    && (forall i :: 0 <= i < |c.values| && lo + i in vals ==> c.values[i] == Rate(vals[lo + i], tag))
  }

  /** The curve CharacterTagAnalyze_ByTag draws from a saved table whose lists carry `vals`. */
  lemma TableCurve(ranks: map<int, Ranked>, lo: int, hi: int, vals: map<int, map<string, real>>, tag: string)
    requires forall s :: s in ranks <==> lo <= s <= hi
    requires forall s :: lo <= s <= hi ==> s in vals && ListCarries(ranks[s], vals[s])
    ensures LoadLists(Dump(ranks, SessionRange(lo, hi))) == Some(ranks)
    ensures Draws(CurveOf(Dump(ranks, SessionRange(lo, hi)), ranks, tag), lo, hi, vals, tag)
  {
    TableReload(ranks, lo, hi);
    var obj := Dump(ranks, SessionRange(lo, hi));
    SortedSessionsSpec(obj);
    var c := CurveOf(obj, ranks, tag);
    StrictRangeIsRange(c.sessions, lo, hi);
    forall i | 0 <= i < |c.sessions| ensures c.values[i] == Rate(vals[lo + i], tag) {
      assert c.sessions[i] == lo + i;
      ListCarriesRates(ranks[lo + i], vals[lo + i], tag);
    }
  }

  /** CharacterTagAnalyze_ByTag on two saved tables whose lists carry `cnVals` and `jpVals`:
      it loads and draws each region's values session by session. */
  lemma ByTagOfTables(cnRanks: map<int, Ranked>, jpRanks: map<int, Ranked>,
                      cnVals: map<int, map<string, real>>, jpVals: map<int, map<string, real>>, tag: string)
    requires forall s :: s in cnRanks <==> 1 <= s <= 11
    requires forall s :: 1 <= s <= 11 ==> s in cnVals && ListCarries(cnRanks[s], cnVals[s])
    requires forall s :: s in jpRanks <==> 3 <= s <= 20
    requires forall s :: 3 <= s <= 20 ==> s in jpVals && ListCarries(jpRanks[s], jpVals[s])
    ensures ByTagScript(Dump(cnRanks, SessionRange(1, 11)), Dump(jpRanks, SessionRange(3, 20)), tag).Some?
    ensures Draws(ByTagScript(Dump(cnRanks, SessionRange(1, 11)), Dump(jpRanks, SessionRange(3, 20)), tag).value.0, 1, 11, cnVals, tag)
    ensures Draws(ByTagScript(Dump(cnRanks, SessionRange(1, 11)), Dump(jpRanks, SessionRange(3, 20)), tag).value.1, 3, 20, jpVals, tag)
  {
    var cnObj := Dump(cnRanks, SessionRange(1, 11));
    var jpObj := Dump(jpRanks, SessionRange(3, 20));
    TableCurve(cnRanks, 1, 11, cnVals, tag);
    TableCurve(jpRanks, 3, 20, jpVals, tag);
    ByTagScriptOfLoaded(cnObj, jpObj, cnRanks, jpRanks, tag);
  }

  lemma ByTagScriptOfLoaded(cnObj: SavedRankings, jpObj: SavedRankings, cn: map<int, Ranked>, jp: map<int, Ranked>, tag: string)
    requires LoadLists(cnObj) == Some(cn) && LoadLists(jpObj) == Some(jp)
    ensures ByTagScript(cnObj, jpObj, tag) == Some((CurveOf(cnObj, cn, tag), CurveOf(jpObj, jp, tag)))
  {
  }

  /** What CharacterTagDifferent shows for two sessions with rate maps `cn` and `jp`: the
      "no tag" message exactly when every tag's rates differ by less than the threshold;
      otherwise bars for tags whose rates differ by at least the threshold, each showing
      the difference in percent. */
  ghost predicate ShowsDifferences(out: Outcome, cn: map<string, real>, jp: map<string, real>, threshold: real) {
    && (out.NoTag? <==> forall t :: t in cn && t in jp ==> Abs(cn[t] - jp[t]) < threshold)
    && (out.Chart? ==>
          forall i :: 0 <= i < |out.tags| && i < |out.pcts| ==>
            && out.tags[i] in cn && out.tags[i] in jp
            && out.pcts[i] == (cn[out.tags[i]] - jp[out.tags[i]]) * 100.0
            && Abs(cn[out.tags[i]] - jp[out.tags[i]]) >= threshold)
  }

  /** The comparison of two sessions whose rate maps are `cn` and `jp` over the same tags. */
  lemma CompareOver(cnTable: map<int, map<string, real>>, jpTable: map<int, map<string, real>>,
                    cnSession: int, jpSession: int, threshold: real, order: seq<string>,
                    cn: map<string, real>, jp: map<string, real>)
    requires cnSession in cnTable && cnTable[cnSession] == cn
    requires jpSession in jpTable && jpTable[jpSession] == jp
    requires (forall t :: t in cn <==> t in jp) && NoDup(order) && (forall t :: t in order <==> t in cn)
    ensures ShowsDifferences(Compare(cnTable, jpTable, cnSession, jpSession, threshold, order), cn, jp, threshold)
  {
    assert Enumerates(order, RatesOf(cnTable, cnSession), RatesOf(jpTable, jpSession));
    CompareNoTag(cnTable, jpTable, cnSession, jpSession, threshold, order);
    if Compare(cnTable, jpTable, cnSession, jpSession, threshold, order).Chart? {
      CompareChart(cnTable, jpTable, cnSession, jpSession, threshold, order);
    }
  }

  /** CharacterTagDifferent on two saved tables whose lists carry `cnVals` and `jpVals` over
      the same tags: it loads, and it compares the Chinese session-11 values with the
      Japanese session-20 values. */
  lemma DifferentOfTables(cnRanks: map<int, Ranked>, jpRanks: map<int, Ranked>,
                          cnVals: map<int, map<string, real>>, jpVals: map<int, map<string, real>>, order: seq<string>)
    requires forall s :: s in cnRanks <==> 1 <= s <= 11
    requires forall s :: 1 <= s <= 11 ==> s in cnVals && ListCarries(cnRanks[s], cnVals[s])
    requires forall s :: s in jpRanks <==> 3 <= s <= 20
    requires forall s :: 3 <= s <= 20 ==> s in jpVals && ListCarries(jpRanks[s], jpVals[s])
    requires forall t :: t in cnVals[CnSession] <==> t in jpVals[JpSession]
    requires NoDup(order) && forall t :: t in order <==> t in cnVals[CnSession]
    ensures DifferentScript(Dump(cnRanks, SessionRange(1, 11)), Dump(jpRanks, SessionRange(3, 20)), order).Some?
    ensures ShowsDifferences(DifferentScript(Dump(cnRanks, SessionRange(1, 11)), Dump(jpRanks, SessionRange(3, 20)), order).value,
                             cnVals[CnSession], jpVals[JpSession], Threshold)
  {
    var cnObj := Dump(cnRanks, SessionRange(1, 11));
    var jpObj := Dump(jpRanks, SessionRange(3, 20));
    TableReloadRates(cnRanks, 1, 11, cnVals);
    TableReloadRates(jpRanks, 3, 20, jpVals);
    var cnTable, jpTable := LoadRates(cnObj).value, LoadRates(jpObj).value;
    CompareOver(cnTable, jpTable, CnSession, JpSession, Threshold, order, cnVals[CnSession], jpVals[JpSession]);
    DifferentScriptOfLoaded(cnObj, jpObj, cnTable, jpTable, order);
  }

  lemma DifferentScriptOfLoaded(cnObj: SavedRankings, jpObj: SavedRankings,
                                cnTable: map<int, map<string, real>>, jpTable: map<int, map<string, real>>, order: seq<string>)
    requires LoadRates(cnObj) == Some(cnTable) && LoadRates(jpObj) == Some(jpTable)
    ensures DifferentScript(cnObj, jpObj, order) == Some(Compare(cnTable, jpTable, CnSession, JpSession, Threshold, order))
  {
  }

  // ---------------------------------------------------------------------------------------
  // Saved tables whose lists name each tag once

  /** Every session's tag -> rate map, as CharacterTagDifferent builds them. */
  function RatesTable(ranks: map<int, Ranked>): (r: map<int, map<string, real>>)
    ensures forall s :: s in r <==> s in ranks
  {
    map s | s in ranks :: RateMap(ranks[s])
  }

  /** A list naming each tag once carries its own rate map. */
  lemma CarriesOwnRates(list: Ranked)
    requires DistinctTags(list)
    ensures ListCarries(list, RateMap(list))
  {
    RateMapOfDistinct(list);
  }

  lemma TableCarriesOwnRates(ranks: map<int, Ranked>)
    requires forall s :: s in ranks ==> DistinctTags(ranks[s])
    ensures forall s :: s in ranks ==> s in RatesTable(ranks) && ListCarries(ranks[s], RatesTable(ranks)[s])
  {
    forall s | s in ranks ensures ListCarries(ranks[s], RatesTable(ranks)[s]) {
      CarriesOwnRates(ranks[s]);
    }
  }

  /** CharacterTagDifferent on two saved tables (sessions 1..11 and 3..20, each list naming
      each tag once, the same tags in the two compared sessions, `order` listing them): it
      loads, and it shows the differences between the two sessions' rates. */
  lemma DifferentOfSaved(cnRanks: map<int, Ranked>, jpRanks: map<int, Ranked>, order: seq<string>)
    requires forall s :: s in cnRanks <==> 1 <= s <= 11
    requires forall s :: s in jpRanks <==> 3 <= s <= 20
    requires forall s :: s in cnRanks ==> DistinctTags(cnRanks[s])
    requires forall s :: s in jpRanks ==> DistinctTags(jpRanks[s])
    requires forall t :: t in Firsts(SessionList(cnRanks, CnSession)) <==> t in Firsts(SessionList(jpRanks, JpSession))
    requires NoDup(order) && forall t :: t in order <==> t in Firsts(SessionList(cnRanks, CnSession))
    ensures DifferentScript(Dump(cnRanks, SessionRange(1, 11)), Dump(jpRanks, SessionRange(3, 20)), order).Some?
    ensures ShowsDifferences(DifferentScript(Dump(cnRanks, SessionRange(1, 11)), Dump(jpRanks, SessionRange(3, 20)), order).value,
                             RateMap(SessionList(cnRanks, CnSession)), RateMap(SessionList(jpRanks, JpSession)), Threshold)
  {
    TableCarriesOwnRates(cnRanks);
    TableCarriesOwnRates(jpRanks);
    var cnVals, jpVals := RatesTable(cnRanks), RatesTable(jpRanks);
    assert cnVals[CnSession] == RateMap(SessionList(cnRanks, CnSession));
    assert jpVals[JpSession] == RateMap(SessionList(jpRanks, JpSession));
    DifferentOfTables(cnRanks, jpRanks, cnVals, jpVals, order);
  }

  /** CharacterTagAnalyze_ByTag on two saved tables (sessions 1..11 and 3..20, each list naming
      each tag once): it loads, and each curve runs over its region's sessions in order with
      the tag's rate in each session (0.0 where the session lacks the tag). */
  lemma ByTagOfSaved(cnRanks: map<int, Ranked>, jpRanks: map<int, Ranked>, tag: string)
    requires forall s :: s in cnRanks <==> 1 <= s <= 11
    requires forall s :: s in jpRanks <==> 3 <= s <= 20
    requires forall s :: s in cnRanks ==> DistinctTags(cnRanks[s])
    requires forall s :: s in jpRanks ==> DistinctTags(jpRanks[s])
    ensures ByTagScript(Dump(cnRanks, SessionRange(1, 11)), Dump(jpRanks, SessionRange(3, 20)), tag).Some?
    ensures Draws(ByTagScript(Dump(cnRanks, SessionRange(1, 11)), Dump(jpRanks, SessionRange(3, 20)), tag).value.0,
                  1, 11, RatesTable(cnRanks), tag)
    ensures Draws(ByTagScript(Dump(cnRanks, SessionRange(1, 11)), Dump(jpRanks, SessionRange(3, 20)), tag).value.1,
                  3, 20, RatesTable(jpRanks), tag)
  {
    TableCarriesOwnRates(cnRanks);
    TableCarriesOwnRates(jpRanks);
    ByTagOfTables(cnRanks, jpRanks, RatesTable(cnRanks), RatesTable(jpRanks), tag);
  }
}
