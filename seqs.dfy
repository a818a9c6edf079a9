/** Sequence helpers shared by the scripts: sums, duplicate-freedom, order-preserving
    subsequences, and the "append if absent" idiom. */
module Seqs {

  /** `sum(xs)` over integers. */
  function Sum(s: seq<int>): int {
    if |s| == 0 then 0 else s[0] + Sum(s[1..])
  }

  /** `abs(x)` */
  function Abs(x: real): real { if x < 0.0 then -x else x }

  /** `sum(xs)` over exact reals. */
  function SumR(s: seq<real>): real {
    if |s| == 0 then 0.0 else s[0] + SumR(s[1..])
  }

  lemma {:induction false} SumAppend(a: seq<int>, b: seq<int>)
    ensures Sum(a + b) == Sum(a) + Sum(b)
  {
    if |a| == 0 {
      assert a + b == b;
    } else {
      assert (a + b)[1..] == a[1..] + b;
      SumAppend(a[1..], b);
    }
  }

  lemma {:induction false} SumRAppend(a: seq<real>, b: seq<real>)
    ensures SumR(a + b) == SumR(a) + SumR(b)
  {
    if |a| == 0 {
      assert a + b == b;
    } else {
      assert (a + b)[1..] == a[1..] + b;
      SumRAppend(a[1..], b);
    }
  }

  predicate NoDup<T(==)>(s: seq<T>) {
    forall i, j :: 0 <= i < j < |s| ==> s[i] != s[j]
  }

  /** `for c in ys: if c not in xs: xs.append(c)` */
  function AppendNew<T(==,!new)>(xs: seq<T>, ys: seq<T>): (r: seq<T>)
    ensures NoDup(xs) ==> NoDup(r)
    ensures |xs| <= |r| && r[..|xs|] == xs
    ensures forall c :: c in r <==> c in xs || c in ys
    ensures forall c :: c in xs ==> c in r
    decreases |ys|
  {
    if |ys| == 0 then xs
    else
      var next := if ys[0] in xs then xs else xs + [ys[0]];
      var r := AppendNew(next, ys[1..]);
      assert r[..|xs|] == next[..|xs|];
      assert forall c :: c in ys <==> c == ys[0] || c in ys[1..];
      r
  }

  /** What the append-if-absent loop adds after `xs` are names of `ys` that `xs` lacks. */
  lemma {:induction false} AppendNewFresh<T(!new)>(xs: seq<T>, ys: seq<T>)
    ensures var r := AppendNew(xs, ys);
      forall i :: |xs| <= i < |r| ==> r[i] in ys && r[i] !in xs
    decreases |ys|
  {
    if |ys| > 0 {
      var next := if ys[0] in xs then xs else xs + [ys[0]];
      var r := AppendNew(xs, ys);
      assert r == AppendNew(next, ys[1..]);
      AppendNewFresh(next, ys[1..]);
      forall i | |xs| <= i < |r| ensures r[i] in ys && r[i] !in xs {
        if i >= |next| {
          assert r[i] in ys[1..];
        } else {
          assert r[..|next|] == next;
          assert r[i] == next[i] == ys[0];
        }
      }
    }
  }

  /** ... each of them once ... */
  lemma {:induction false} AppendNewDistinct<T(!new)>(xs: seq<T>, ys: seq<T>)
    ensures var r := AppendNew(xs, ys);
      forall i, j :: |xs| <= i < j < |r| ==> r[i] != r[j]
    decreases |ys|
  {
    if |ys| > 0 {
      var next := if ys[0] in xs then xs else xs + [ys[0]];
      var r := AppendNew(xs, ys);
      assert r == AppendNew(next, ys[1..]);
      AppendNewDistinct(next, ys[1..]);
      AppendNewFresh(next, ys[1..]);
      forall i, j | |xs| <= i < j < |r| ensures r[i] != r[j] {
        if i < |next| {
          assert r[..|next|] == next;
          assert r[i] == next[i] && r[i] in next;
        }
      }
    }
  }

  /** ... in the order of their first occurrence in `ys`. */
  lemma {:induction false} AppendNewFirstSeen<T(!new)>(xs: seq<T>, ys: seq<T>)
    ensures var r := AppendNew(xs, ys);
      forall i, j, k :: |xs| <= i < j < |r| && 0 <= k < |ys| && ys[k] == r[j] ==> r[i] in ys[..k]
    decreases |ys|
  {
    if |ys| > 0 {
      var next := if ys[0] in xs then xs else xs + [ys[0]];
      var r := AppendNew(xs, ys);
      assert r == AppendNew(next, ys[1..]);
      AppendNewFirstSeen(next, ys[1..]);
      AppendNewFresh(next, ys[1..]);
      assert r[..|next|] == next;
      forall i, j, k | |xs| <= i < j < |r| && 0 <= k < |ys| && ys[k] == r[j]
        ensures r[i] in ys[..k]
      {
        assert j >= |next| && r[j] !in next;
        assert ys[0] in next by {
          if ys[0] !in xs {
            assert next[|xs|] == ys[0];
          }
        }
        assert ys[k] == ys[1..][k - 1];
        if i < |next| {
          assert r[i] == next[i] == ys[0] == ys[..k][0];
        } else {
          assert r[i] in ys[1..][..k - 1];
          var m :| 0 <= m < k - 1 && ys[1..][..k - 1][m] == r[i];
          assert ys[..k][m + 1] == r[i];
        }
      }
    }
  }

  /** Concatenation is associative; stated for any element type so that no strings are compared. */
  lemma AppendAssoc<T>(a: seq<T>, b: seq<T>, c: seq<T>)
    ensures (a + b) + c == a + (b + c)
  {
  }

  lemma TakeSnoc<T>(s: seq<T>, j: nat)
    requires j < |s|
    ensures s[..j + 1] == s[..j] + [s[j]]
  {
  }

  lemma TakeTake<T>(s: seq<T>, i: nat, j: nat)
    requires i <= j <= |s|
    ensures s[..j][..i] == s[..i]
  {
  }

  lemma TailOfCons<T>(x: T, s: seq<T>)
    ensures ([x] + s)[1..] == s && ([x] + s)[0] == x
  {
  }

  /** A non-empty sequence as its prefix and its last element, for any element type. */
  lemma LastSplit<T>(s: seq<T>)
    requires |s| > 0
    ensures s == s[..|s| - 1] + [s[|s| - 1]]
    ensures multiset(s) == multiset(s[..|s| - 1]) + multiset{s[|s| - 1]}
    ensures forall x :: x in s <==> x in s[..|s| - 1] || x == s[|s| - 1]
  {
    assert s == s[..|s| - 1] + [s[|s| - 1]];
  }

  /** `a` is `b` with some elements dropped, the rest kept in order. */
  predicate IsSubsequence<T(==)>(a: seq<T>, b: seq<T>)
    decreases |b|
  {
    if |a| == 0 then true
    else if |b| == 0 then false
    else if a[0] == b[0] then IsSubsequence(a[1..], b[1..])
    else IsSubsequence(a, b[1..])
  }

  /** `[x for x in s if p(x)]` */
  function Filter<T>(s: seq<T>, p: T -> bool): (r: seq<T>)
    ensures |r| <= |s|
    ensures forall i :: 0 <= i < |r| ==> p(r[i])
  {
    if |s| == 0 then [] else (if p(s[0]) then [s[0]] else []) + Filter(s[1..], p)
  }

  /** The elements `Filter` keeps are exactly those of `s` that satisfy `p`. */
  lemma {:induction false} FilterMembers<T>(s: seq<T>, p: T -> bool)
    ensures forall x :: x in Filter(s, p) <==> x in s && p(x)
  {
    if |s| > 0 {
      FilterMembers(s[1..], p);
      assert s == [s[0]] + s[1..];
    }
  }

  /** `Filter` of a concatenation is the concatenation of the filtered parts. */
  lemma {:induction false} FilterAppend<T>(a: seq<T>, b: seq<T>, p: T -> bool)
    ensures Filter(a + b, p) == Filter(a, p) + Filter(b, p)
  {
    if |a| > 0 {
      assert (a + b)[0] == a[0] && (a + b)[1..] == a[1..] + b;
      FilterAppend(a[1..], b, p);
    } else {
      assert a + b == b;
    }
  }

  /** The parts joined in order: `for part in parts: out.extend(part)`. */
  function Concat<T>(parts: seq<seq<T>>): seq<T> {
    if |parts| == 0 then [] else Concat(parts[..|parts| - 1]) + parts[|parts| - 1]
  }

  /** An element of the joined parts is an element of one of the parts, and conversely. */
  lemma {:induction false} ConcatMembers<T>(parts: seq<seq<T>>, x: T)
    ensures x in Concat(parts) <==> exists i :: 0 <= i < |parts| && x in parts[i]
  {
    if |parts| > 0 {
      var init := parts[..|parts| - 1];
      ConcatMembers(init, x);
      assert forall i :: 0 <= i < |init| ==> init[i] == parts[i];
    }
  }

  /** Each element of a duplicate-free sequence occurs at most once. */
  lemma {:induction false} NoDupCount<T>(s: seq<T>, x: T)
    requires NoDup(s)
    ensures multiset(s)[x] <= 1
  {
    if |s| > 0 {
      assert s == [s[0]] + s[1..];
      assert NoDup(s[1..]) by {
        forall i, j | 0 <= i < j < |s[1..]| ensures s[1..][i] != s[1..][j] {
          assert s[1..][i] == s[i + 1] && s[1..][j] == s[j + 1];
        }
      }
      NoDupCount(s[1..], x);
      if x == s[0] {
        assert x !in s[1..];
      }
    }
  }

  /** A permutation of a duplicate-free sequence is duplicate-free. */
  lemma PermutationNoDup<T>(a: seq<T>, b: seq<T>)
    requires multiset(a) == multiset(b) && NoDup(a)
    ensures NoDup(b)
  {
    forall i, j | 0 <= i < j < |b| ensures b[i] != b[j] {
      if b[i] == b[j] {
        var x := b[i];
        assert b == b[..j] + [x] + b[j + 1..];
        assert x in b[..j];
        assert multiset(b)[x] >= 2;
        NoDupCount(a, x);
        assert false;
      }
    }
  }
}
