/** The top-30 sum of top30.py: the sum of the thirty largest vote values of a sheet, or of all
    of them where there are fewer; no choice of at most thirty rows has more votes, and it
    never exceeds the sheet's total. */
module TopReportProps {
  import opened Wrappers
  import opened Seqs
  import opened Sorting
  import opened Sheets
  import opened Reports

  predicate Desc(s: seq<real>) {
    forall i, j :: 0 <= i < j < |s| ==> s[i] >= s[j]
  }

  predicate NonNeg(s: seq<real>) {
    forall i :: 0 <= i < |s| ==> s[i] >= 0.0
  }

  /** `s[:k]` */
  function Take(s: seq<real>, k: nat): (r: seq<real>)
    ensures |r| == if |s| < k then |s| else k
  {
    s[..if |s| < k then |s| else k]
  }

  // ---------------------------------------------------------------------------------------
  // Sums of reals

  lemma SumRSingle(x: real)
    ensures SumR([x]) == x
  {
  }

  /** Taking one element out of a sum. */
  lemma SumRRemove(t: seq<real>, p: nat)
    requires p < |t|
    ensures SumR(t) == t[p] + SumR(t[..p] + t[p + 1..])
  {
    assert t == t[..p] + [t[p]] + t[p + 1..];
    SumRAppend(t[..p] + [t[p]], t[p + 1..]);
    SumRAppend(t[..p], [t[p]]);
    SumRAppend(t[..p], t[p + 1..]);
    SumRSingle(t[p]);
  }

  lemma RemoveMultiset<T>(t: seq<T>, p: nat)
    requires p < |t|
    ensures multiset(t[..p] + t[p + 1..]) == multiset(t) - multiset{t[p]}
  {
    assert t == t[..p] + [t[p]] + t[p + 1..];
  }

  lemma SplitAt<T>(t: seq<T>, p: nat)
    requires p < |t|
    ensures t == t[..p] + [t[p]] + t[p + 1..]
  {
  }

  /** Reordering does not change a sum. */
  lemma {:induction false} SumRPerm(a: seq<real>, b: seq<real>)
    requires multiset(a) == multiset(b)
    ensures SumR(a) == SumR(b)
    decreases |a|
  {
    if |a| == 0 {
      assert |multiset(b)| == 0;
      assert b == [];
    } else {
      var x := a[0];
      assert x in multiset(b);
      var p :| 0 <= p < |b| && b[p] == x;
      var rest := b[..p] + b[p + 1..];
      RemoveMultiset(b, p);
      assert a == [x] + a[1..];
      assert multiset(a[1..]) == multiset(rest);
      SumRPerm(a[1..], rest);
      SumRRemove(b, p);
    }
  }

  lemma {:induction false} SumRNonNeg(s: seq<real>)
    requires NonNeg(s)
    ensures SumR(s) >= 0.0
  {
    if |s| > 0 {
      assert NonNeg(s[1..]) by {
        forall i | 0 <= i < |s[1..]| ensures s[1..][i] >= 0.0 {
          assert s[1..][i] == s[i + 1];
        }
      }
      SumRNonNeg(s[1..]);
    }
  }

  // ---------------------------------------------------------------------------------------
  // The prefix of a descending sequence

  lemma DescTail(s: seq<real>)
    requires |s| > 0 && Desc(s) && NonNeg(s)
    ensures Desc(s[1..]) && NonNeg(s[1..])
  {
    forall i, j | 0 <= i < j < |s[1..]| ensures s[1..][i] >= s[1..][j] {
      assert s[1..][i] == s[i + 1] && s[1..][j] == s[j + 1];
    }
    forall i | 0 <= i < |s[1..]| ensures s[1..][i] >= 0.0 {
      assert s[1..][i] == s[i + 1];
    }
  }

  lemma HeadMultiset<T>(s: seq<T>)
    requires |s| > 0
    ensures multiset(s) == multiset{s[0]} + multiset(s[1..])
  {
    assert s == [s[0]] + s[1..];
  }

  lemma TakeOneMore(s: seq<real>, k: nat)
    requires k < |s|
    ensures SumR(Take(s, k + 1)) == SumR(Take(s, k)) + s[k]
  {
    assert Take(s, k + 1) == Take(s, k) + [s[k]];
    SumRAppend(Take(s, k), [s[k]]);
    SumRSingle(s[k]);
  }

  lemma TakeCons(s: seq<real>, k: nat)
    requires |s| > 0 && k > 0
    ensures SumR(Take(s, k)) == s[0] + SumR(Take(s[1..], k - 1))
  {
    var n := |Take(s, k)|;
    assert Take(s, k)[1..] == Take(s[1..], k - 1);
  }

  /** The first `k` elements of a descending sequence of non-negative numbers sum to at least
      as much as any at most `k` of its elements. */
  lemma {:induction false} PrefixBound(s: seq<real>, t: seq<real>, k: nat)
    requires Desc(s) && NonNeg(s)
    requires multiset(t) <= multiset(s) && |t| <= k
    ensures SumR(t) <= SumR(Take(s, k))
    decreases |s|
  {
    if |s| == 0 || k == 0 {
      assert |multiset(t)| == 0;
      assert t == [];
    } else {
      var x := s[0];
      var rest := s[1..];
      TakeCons(s, k);
      DescTail(s);
      HeadMultiset(s);
      if x in multiset(t) {
        var p :| 0 <= p < |t| && t[p] == x;
        var t' := t[..p] + t[p + 1..];
        RemoveMultiset(t, p);
        assert multiset(t') <= multiset(rest);
        PrefixBound(rest, t', k - 1);
        SumRRemove(t, p);
      } else {
        assert multiset(t) <= multiset(rest);
        PrefixBound(rest, t, k);
        if |rest| <= k - 1 {
          assert Take(rest, k) == rest == Take(rest, k - 1);
        } else {
          TakeOneMore(rest, k - 1);
          assert rest[k - 1] == s[k];
        }
      }
    }
  }

  lemma {:induction false} PrefixAtMost(s: seq<real>, k: nat)
    requires NonNeg(s)
    ensures SumR(Take(s, k)) <= SumR(s)
  {
    var n := |Take(s, k)|;
    assert s == Take(s, k) + s[n..];
    SumRAppend(Take(s, k), s[n..]);
    assert NonNeg(s[n..]) by {
      forall i | 0 <= i < |s[n..]| ensures s[n..][i] >= 0.0 {
        assert s[n..][i] == s[n + i];
      }
    }
    SumRNonNeg(s[n..]);
  }

  // ---------------------------------------------------------------------------------------
  // The vote values of a sheet

  lemma DescendingTotal()
    ensures TotalPreorder(Descending)
  {
  }

  lemma {:induction false} VoteValuesTotal(rows: seq<Row>)
    ensures SumR(VoteValues(rows)) == VoteTotal(rows)
  {
    if |rows| > 0 {
      var init := rows[..|rows| - 1];
      var v := ReadVotes(Get(rows[|rows| - 1], VotesCol));
      VoteValuesTotal(init);
      SumRAppend(VoteValues(init), if v.Value? then [v.x] else []);
    }
  }

  lemma {:induction false} VoteValuesAppend(a: seq<Row>, b: seq<Row>)
    ensures VoteValues(a + b) == VoteValues(a) + VoteValues(b)
  {
    if |b| == 0 {
      assert a + b == a;
    } else {
      assert (a + b)[..|a + b| - 1] == a + b[..|b| - 1];
      VoteValuesAppend(a, b[..|b| - 1]);
    }
  }

  /** Each vote value is the value of some row. */
  lemma {:induction false} VoteValuesFrom(rows: seq<Row>)
    ensures forall x :: x in VoteValues(rows) ==> exists i :: 0 <= i < |rows| && ReadVotes(Get(rows[i], VotesCol)) == Value(x)
  {
    if |rows| > 0 {
      var init := rows[..|rows| - 1];
      VoteValuesFrom(init);
      assert forall i :: 0 <= i < |init| ==> init[i] == rows[i];
    }
  }

  /** Fewer rows, fewer vote values: the values of a sub-multiset of the rows are a
      sub-multiset of the values. */
  lemma {:induction false} VoteValuesSub(sub: seq<Row>, rows: seq<Row>)
    requires multiset(sub) <= multiset(rows)
    ensures multiset(VoteValues(sub)) <= multiset(VoteValues(rows))
    decreases |sub|
  {
    if |sub| > 0 {
      var init := sub[..|sub| - 1];
      var r := sub[|sub| - 1];
      assert sub == init + [r];
      assert r in multiset(rows);
      var p :| 0 <= p < |rows| && rows[p] == r;
      var others := rows[..p] + rows[p + 1..];
      RemoveMultiset(rows, p);
      assert multiset(init) <= multiset(others);
      VoteValuesSub(init, others);
      VoteValuesAppend(init, [r]);
      SplitAt(rows, p);
      VoteValuesRemove(rows[..p], r, rows[p + 1..]);
    }
  }

  lemma VoteValuesAppend3(a: seq<Row>, b: seq<Row>, c: seq<Row>)
    ensures VoteValues(a + b + c) == VoteValues(a) + VoteValues(b) + VoteValues(c)
  {
    VoteValuesAppend(a + b, c);
    VoteValuesAppend(a, b);
  }

  lemma MultisetMiddle<T>(a: seq<T>, b: seq<T>, c: seq<T>)
    ensures multiset(a + b + c) == multiset(a + c) + multiset(b)
  {
  }

  /** Taking a row out of the rows takes its value, if any, out of the values. */
  lemma VoteValuesRemove(a: seq<Row>, r: Row, b: seq<Row>)
    ensures multiset(VoteValues(a + [r] + b)) == multiset(VoteValues(a + b)) + multiset(VoteValues([r]))
  {
    VoteValuesAppend3(a, [r], b);
    VoteValuesAppend(a, b);
    MultisetMiddle(VoteValues(a), VoteValues([r]), VoteValues(b));
  }

  /** Vote counts are never negative. */
  ghost predicate NonNegVotes(rows: seq<Row>) {
    forall i :: 0 <= i < |rows| ==> !(ReadVotes(Get(rows[i], VotesCol)).Value? && ReadVotes(Get(rows[i], VotesCol)).x < 0.0)
  }

  lemma VoteValuesNonNeg(rows: seq<Row>)
    requires NonNegVotes(rows)
    ensures NonNeg(VoteValues(rows))
  {
    VoteValuesFrom(rows);
    forall k | 0 <= k < |VoteValues(rows)| ensures VoteValues(rows)[k] >= 0.0 {
      assert VoteValues(rows)[k] in VoteValues(rows);
    }
  }

  /** The values `TopSum` sorts: descending, a permutation of the sheet's vote values. */
  lemma SortedValues(rows: seq<Row>)
    ensures Desc(SortWith(VoteValues(rows), Descending))
    ensures multiset(SortWith(VoteValues(rows), Descending)) == multiset(VoteValues(rows))
  {
    DescendingTotal();
    SortWithSorted(VoteValues(rows), Descending);
  }

  lemma NonNegPerm(a: seq<real>, b: seq<real>)
    requires NonNeg(a) && multiset(a) == multiset(b)
    ensures NonNeg(b)
  {
    forall i | 0 <= i < |b| ensures b[i] >= 0.0 {
      assert b[i] in multiset(a);
    }
  }

  // ---------------------------------------------------------------------------------------
  // top30.py lines 37-38

  /** The top sum is the sum of the first thirty values in descending order. */
  lemma TopSumIsPrefix(rows: seq<Row>)
    ensures var s := SortWith(VoteValues(rows), Descending);
      TopSum(rows) == SumR(Take(s, TopCount)) && Desc(s) && multiset(s) == multiset(VoteValues(rows))
  {
    SortedValues(rows);
  }

  /** No choice of at most thirty of the vote values sums to more than the top sum. */
  lemma TopSumBound(rows: seq<Row>, t: seq<real>)
    requires NonNegVotes(rows)
    requires multiset(t) <= multiset(VoteValues(rows)) && |t| <= TopCount
    ensures SumR(t) <= TopSum(rows)
  {
    var s := SortWith(VoteValues(rows), Descending);
    SortedValues(rows);
    VoteValuesNonNeg(rows);
    NonNegPerm(VoteValues(rows), s);
    PrefixBound(s, t, TopCount);
  }

  /** No choice of at most thirty rows of the sheet has more votes than the top sum. */
  lemma TopSumBeatsAnyRows(rows: seq<Row>, chosen: seq<Row>)
    requires NonNegVotes(rows)
    requires multiset(chosen) <= multiset(rows) && |chosen| <= TopCount
    ensures VoteTotal(chosen) <= TopSum(rows)
  {
    VoteValuesSub(chosen, rows);
    VoteValuesTotal(chosen);
    assert |VoteValues(chosen)| <= |chosen| by {
      VoteValuesLength(chosen);
    }
    TopSumBound(rows, VoteValues(chosen));
  }

  lemma {:induction false} VoteValuesLength(rows: seq<Row>)
    ensures |VoteValues(rows)| <= |rows|
  {
    if |rows| > 0 {
      VoteValuesLength(rows[..|rows| - 1]);
    }
  }

  /** With at most thirty vote values, the top sum is the sum of all of them. */
  lemma TopSumOfFew(rows: seq<Row>)
    requires |VoteValues(rows)| <= TopCount
    ensures TopSum(rows) == VoteTotal(rows)
  {
    var s := SortWith(VoteValues(rows), Descending);
    assert Take(s, TopCount) == s;
    SumRPerm(s, VoteValues(rows));
    VoteValuesTotal(rows);
  }

  /** The top sum never exceeds the sheet's total. */
  lemma TopSumAtMostTotal(rows: seq<Row>)
    requires NonNegVotes(rows)
    ensures TopSum(rows) <= VoteTotal(rows)
  {
    var s := SortWith(VoteValues(rows), Descending);
    SortedValues(rows);
    VoteValuesNonNeg(rows);
    NonNegPerm(VoteValues(rows), s);
    PrefixAtMost(s, TopCount);
    SumRPerm(s, VoteValues(rows));
    VoteValuesTotal(rows);
  }

  // ---------------------------------------------------------------------------------------
  // top30.py lines 41-45

  lemma TopSumNonNeg(rows: seq<Row>)
    requires NonNegVotes(rows)
    ensures TopSum(rows) >= 0.0
  {
    var s := SortWith(VoteValues(rows), Descending);
    SortedValues(rows);
    VoteValuesNonNeg(rows);
    NonNegPerm(VoteValues(rows), s);
    var t := Take(s, TopCount);
    assert NonNeg(t) by {
      forall i | 0 <= i < |t| ensures t[i] >= 0.0 {
        assert t[i] == s[i];
      }
    }
    SumRNonNeg(t);
  }

  lemma ScaleMono(a: real, b: real, t: real)
    requires 0.0 <= a <= b && t > 0.0
    ensures 0.0 <= a / t * 100.0 <= b / t * 100.0
  {
    assert a / t <= b / t;
  }

  /** A measured top-30 share is a number between 0 and the sheet's whole total over the raw
      total, in percent; so it is at most 100 when the sheet holds no more votes than the raw
      sheet of the same name. */
  lemma TopStepBounds(df: Sheet, raw: seq<Sheet>, total: real)
    requires NonNegVotes(df.rows)
    requires RawTotal(raw, df.name) == Some(total) && total > 0.0
    ensures TopStep(df, raw).Measured? ==>
      TopStep(df, raw).pct.Pct? && 0.0 <= TopStep(df, raw).pct.x <= VoteTotal(df.rows) / total * 100.0
    ensures TopStep(df, raw).Measured? && VoteTotal(df.rows) <= total ==> TopStep(df, raw).pct.x <= 100.0
  {
    if TopStep(df, raw).Measured? {
      TopSumNonNeg(df.rows);
      TopSumAtMostTotal(df.rows);
      ScaleMono(TopSum(df.rows), VoteTotal(df.rows), total);
      if VoteTotal(df.rows) <= total {
        ScaleMono(VoteTotal(df.rows), total, total);
        assert total / total == 1.0;
      }
    }
  }
}
