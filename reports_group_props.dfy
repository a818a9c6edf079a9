/** What GroupAnalyze_jp.py computes for one sheet and for the workbook: the skip and raise
    rules of its loop, the groups `groupby` forms, and the fact that the group sums split the
    grouped votes without loss or double counting. */
module GroupReportProps {
  import opened Wrappers
  import opened Seqs
  import opened Sorting
  import opened Sheets
  import opened Reports

  // ---------------------------------------------------------------------------------------
  // The groups

  /** A work code occurs among the codes exactly when some row carries it. */
  lemma {:induction false} WorkCodesMembers(rows: seq<Row>)
    ensures forall c :: c in WorkCodes(rows) <==> exists i :: 0 <= i < |rows| && WorkOf(rows[i]) == Value(c)
  {
    if |rows| > 0 {
      var init := rows[..|rows| - 1];
      WorkCodesMembers(init);
      assert forall i :: 0 <= i < |init| ==> init[i] == rows[i];
    }
  }

  lemma RealLeTotalOrder()
    ensures TotalPreorder(RealLe) && Antisymmetric(RealLe)
  {
  }

  /** `groupby` forms one group per distinct work code present, in increasing order of code. */
  lemma GroupsSpec(rows: seq<Row>)
    ensures forall i, j :: 0 <= i < j < |Groups(rows)| ==> Groups(rows)[i] < Groups(rows)[j]
    ensures forall c :: c in Groups(rows) <==> exists i :: 0 <= i < |rows| && WorkOf(rows[i]) == Value(c)
  {
    RealLeTotalOrder();
    SortedUniqueStrict(WorkCodes(rows), RealLe);
    WorkCodesMembers(rows);
  }

  // ---------------------------------------------------------------------------------------
  // The group sums partition the votes

  /** The votes of the groups `codes`, added up. */
  function KeyVotes(rows: seq<Row>, codes: seq<real>): real {
    if |codes| == 0 then 0.0 else GroupVotes(rows, codes[0]) + KeyVotes(rows, codes[1..])
  }

  /** What row `r` adds to the groups `codes`. */
  function Hit(codes: seq<real>, r: Row): real {
    if |codes| == 0 then 0.0
    else (if WorkOf(r) == Value(codes[0]) then VoteOf(r) else 0.0) + Hit(codes[1..], r)
  }

  lemma {:induction false} KeyVotesEmpty(codes: seq<real>)
    ensures KeyVotes([], codes) == 0.0
  {
    if |codes| > 0 {
      KeyVotesEmpty(codes[1..]);
    }
  }

  lemma {:induction false} KeyVotesSnoc(rows: seq<Row>, r: Row, codes: seq<real>)
    ensures KeyVotes(rows + [r], codes) == KeyVotes(rows, codes) + Hit(codes, r)
  {
    if |codes| > 0 {
      assert (rows + [r])[..|rows|] == rows;
      KeyVotesSnoc(rows, r, codes[1..]);
    }
  }

  lemma {:induction false} HitAbsent(codes: seq<real>, r: Row)
    requires forall c :: c in codes ==> WorkOf(r) != Value(c)
    ensures Hit(codes, r) == 0.0
  {
    if |codes| > 0 {
      assert codes[0] in codes;
      assert forall c :: c in codes[1..] ==> c in codes;
      HitAbsent(codes[1..], r);
    }
  }

  lemma NoDupTail<T>(s: seq<T>)
    requires |s| > 0 && NoDup(s)
    ensures NoDup(s[1..]) && s[0] !in s[1..]
  {
    forall i, j | 0 <= i < j < |s[1..]| ensures s[1..][i] != s[1..][j] {
      assert s[1..][i] == s[i + 1] && s[1..][j] == s[j + 1];
    }
    forall m | 0 <= m < |s[1..]| ensures s[1..][m] != s[0] {
      assert s[1..][m] == s[m + 1];
    }
  }

  lemma {:induction false} HitOnce(codes: seq<real>, r: Row)
    requires NoDup(codes) && WorkOf(r).Value? && WorkOf(r).x in codes
    ensures Hit(codes, r) == VoteOf(r)
  {
    NoDupTail(codes);
    if codes[0] == WorkOf(r).x {
      HitAbsent(codes[1..], r);
    } else {
      HitOnce(codes[1..], r);
    }
  }

  lemma VoteTotalSnoc(rows: seq<Row>, r: Row)
    ensures VoteTotal(rows + [r]) == VoteTotal(rows) + VoteOf(r)
  {
    assert (rows + [r])[..|rows|] == rows;
  }

  /** Summing the groups `codes` counts every grouped row once, provided `codes` lists every
      code present and none twice. */
  lemma {:induction false} KeyVotesPartition(rows: seq<Row>, codes: seq<real>)
    requires NoDup(codes)
    requires forall c :: c in WorkCodes(rows) ==> c in codes
    ensures KeyVotes(rows, codes) == VoteTotal(Grouped(rows))
  {
    if |rows| == 0 {
      KeyVotesEmpty(codes);
    } else {
      var init := rows[..|rows| - 1];
      var r := rows[|rows| - 1];
      assert rows == init + [r];
      assert forall c :: c in WorkCodes(init) ==> c in WorkCodes(rows);
      KeyVotesPartition(init, codes);
      KeyVotesSnoc(init, r, codes);
      FilterAppend(init, [r], (x: Row) => WorkOf(x).Value?);
      if WorkOf(r).Value? {
        assert WorkOf(r).x in WorkCodes(rows);
        HitOnce(codes, r);
        VoteTotalSnoc(Grouped(init), r);
      } else {
        HitAbsent(codes, r);
        assert Filter([r], (x: Row) => WorkOf(x).Value?) == [];
        assert Grouped(rows) == Grouped(init);
      }
    }
  }

  /** The group sums of a sheet add up to the votes of its rows with a work code: the groups
      partition those votes (GroupAnalyze_jp.py line 56). */
  lemma GroupPartition(rows: seq<Row>)
    ensures KeyVotes(rows, Groups(rows)) == VoteTotal(Grouped(rows))
  {
    RealLeTotalOrder();
    SortedUniqueStrict(WorkCodes(rows), RealLe);
    KeyVotesPartition(rows, Groups(rows));
  }

  /** The percentages of all groups, added up. */
  function PctSum(shares: seq<Share>): real {
    if |shares| == 0 then 0.0 else shares[0].pct + PctSum(shares[1..])
  }

  lemma ScaleAdd(a: real, b: real, t: real)
    requires t != 0.0
    ensures a / t * 100.0 + b / t * 100.0 == (a + b) / t * 100.0
  {
    var qa := a / t;
    var qb := b / t;
    assert qa * t == a && qb * t == b;
    assert (qa + qb) * t == a + b;
  }

  lemma {:induction false} PctSumFor(name: string, rows: seq<Row>, codes: seq<real>, total: real)
    requires total != 0.0
    ensures PctSum(SharesFor(name, rows, codes, total)) == KeyVotes(rows, codes) / total * 100.0
  {
    if |codes| > 0 {
      var s := SharesFor(name, rows, codes, total);
      var tail := SharesFor(name, rows, codes[1..], total);
      assert |s[1..]| == |tail|;
      assert forall k :: 0 <= k < |tail| ==> s[1..][k] == tail[k];
      assert s[1..] == tail;
      PctSumFor(name, rows, codes[1..], total);
      ScaleAdd(GroupVotes(rows, codes[0]), KeyVotes(rows, codes[1..]), total);
    }
  }

  /** The percentages of a sheet add up to its grouped votes over the raw total, in percent. */
  lemma SharesPartition(name: string, rows: seq<Row>, total: real)
    requires total != 0.0
    ensures PctSum(SharesOf(name, rows, total)) == VoteTotal(Grouped(rows)) / total * 100.0
  {
    PctSumFor(name, rows, Groups(rows), total);
    GroupPartition(rows);
  }

  // ---------------------------------------------------------------------------------------
  // One sheet

  /** The rules of lines 42-53: line 42 reads 首次出现作品 before line 45 checks for it, so a
      sheet without that column raises instead of being skipped; a sheet without 票数, or
      whose raw total is 0, is skipped; the raw sum raises where the raw sheet is missing. */
  lemma GroupStepRules(df: Sheet, raw: seq<Sheet>)
    ensures WorkCol !in df.columns ==> GroupStep(df, raw).None?
    ensures WorkCol in df.columns && Convertible(df.rows) && VotesCol !in df.columns ==> GroupStep(df, raw) == Some([])
    ensures WorkCol in df.columns && Convertible(df.rows) && VotesCol in df.columns && RawTotal(raw, df.name) == Some(0.0)
      ==> GroupStep(df, raw) == Some([])
    ensures WorkCol in df.columns && VotesCol in df.columns && Lookup(raw, df.name).None? ==> GroupStep(df, raw).None?
  {
  }

  /** The shares of a sheet: one per work code present, in increasing order of code, each
      its group's votes over `total` in percent. */
  lemma SharesOfSpec(name: string, rows: seq<Row>, total: real)
    requires total != 0.0
    ensures var shares := SharesOf(name, rows, total);
      && (forall k :: 0 <= k < |shares| ==> shares[k].sheet == name)
      && (forall k :: 0 <= k < |shares| ==> shares[k].pct == GroupVotes(rows, shares[k].work) / total * 100.0)
      && (forall k, l :: 0 <= k < l < |shares| ==> shares[k].work < shares[l].work)
  {
    var shares := SharesOf(name, rows, total);
    var gs := Groups(rows);
    assert forall k :: 0 <= k < |shares| ==> shares[k].work == gs[k];
    GroupsSpec(rows);
  }

  /** The shares of a sheet name exactly the work codes its rows carry. */
  lemma SharesOfCodes(name: string, rows: seq<Row>, total: real)
    requires total != 0.0
    ensures var shares := SharesOf(name, rows, total);
      forall c :: (exists k :: 0 <= k < |shares| && shares[k].work == c) <==>
        (exists i :: 0 <= i < |rows| && WorkOf(rows[i]) == Value(c))
  {
    var shares := SharesOf(name, rows, total);
    var gs := Groups(rows);
    GroupsSpec(rows);
    forall c ensures (exists k :: 0 <= k < |shares| && shares[k].work == c) <==> c in gs {
      if c in gs {
        var k :| 0 <= k < |gs| && gs[k] == c;
        assert shares[k].work == c;
      }
    }
  }

  /** A sheet the loop does not skip contributes the shares of its groups, measured against
      its raw total. */
  lemma GroupStepShares(df: Sheet, raw: seq<Sheet>)
    requires GroupStep(df, raw).Some? && |GroupStep(df, raw).value| > 0
    ensures RawTotal(raw, df.name).Some? && RawTotal(raw, df.name).value != 0.0
    ensures GroupStep(df, raw).value == SharesOf(df.name, df.rows, RawTotal(raw, df.name).value)
  {
  }

  // ---------------------------------------------------------------------------------------
  // The workbook

  lemma ConcatEmpty<T>(parts: seq<seq<T>>)
    ensures |Concat(parts)| == 0 <==> forall i :: 0 <= i < |parts| ==> |parts[i]| == 0
  {
    if |Concat(parts)| > 0 {
      ConcatMembers(parts, Concat(parts)[0]);
    }
    forall i | 0 <= i < |parts| && |parts[i]| > 0 ensures |Concat(parts)| > 0 {
      ConcatMembers(parts, parts[i][0]);
    }
  }

  /** The script gets past line 70 exactly when no sheet raises and some sheet contributes a
      share; its shares are then the shares of the sheets, taken in sheet order. */
  lemma GroupAnalysisSpec(book: seq<Sheet>, raw: seq<Sheet>)
    ensures var order := NumberOrder(book);
      GroupAnalysis(book, raw).Some? <==>
        (forall i :: 0 <= i < |order| ==> GroupStep(order[i], raw).Some?) &&
        (exists i :: 0 <= i < |order| && GroupStep(order[i], raw).Some? && |GroupStep(order[i], raw).value| > 0)
    ensures var order := NumberOrder(book);
      GroupAnalysis(book, raw).Some? ==>
        forall x :: x in GroupAnalysis(book, raw).value <==>
          exists i :: 0 <= i < |order| && GroupStep(order[i], raw).Some? && x in GroupStep(order[i], raw).value
  {
    var order := NumberOrder(book);
    var f := (df: Sheet) => GroupStep(df, raw);
    MapAllSpec(order, f);
    if MapAll(order, f).Some? {
      var parts := MapAll(order, f).value;
      ConcatEmpty(parts);
      forall x ensures x in Concat(parts) <==> exists i :: 0 <= i < |order| && GroupStep(order[i], raw).Some? && x in GroupStep(order[i], raw).value {
        ConcatMembers(parts, x);
      }
    }
  }
}
