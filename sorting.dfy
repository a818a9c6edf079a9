/** Python's `sorted(xs, key=..., reverse=...)` and `list.sort`, modelled as a stable insertion
    sort over a comparator `le` ("x may come before y"). Python's sort is stable, and with
    `reverse=True` it stays stable (equal keys keep their input order), so descending sorts are
    this sort with the comparator flipped. Elements equivalent under `le` keep their input order,
    which lemma SortKeepsTies states. */
module Sorting {
  import opened Strings
  import opened Seqs

  /** `le` is total and transitive. */
  ghost predicate TotalPreorder<T(!new)>(le: (T, T) -> bool) {
    && (forall x, y :: le(x, y) || le(y, x))
    && (forall x, y, z :: le(x, y) && le(y, z) ==> le(x, z))
  }

  ghost predicate Antisymmetric<T(!new)>(le: (T, T) -> bool) {
    forall x, y :: le(x, y) && le(y, x) ==> x == y
  }

  predicate SortedBy<T>(s: seq<T>, le: (T, T) -> bool) {
    forall i, j :: 0 <= i < j < |s| ==> le(s[i], s[j])
  }

  /** Elements that `le` cannot tell apart appear in an order that `rel` accepts. */
  predicate TiesOrdered<T>(s: seq<T>, le: (T, T) -> bool, rel: (T, T) -> bool) {
    forall i, j :: 0 <= i < j < |s| && le(s[i], s[j]) && le(s[j], s[i]) ==> rel(s[i], s[j])
  }

  /** Strictly increasing: sorted and free of duplicates. */
  predicate StrictlySortedBy<T(==)>(s: seq<T>, le: (T, T) -> bool) {
    forall i, j :: 0 <= i < j < |s| ==> le(s[i], s[j]) && s[i] != s[j]
  }

  /** Insert `x` before the first element it may precede. */
  function Insert<T>(x: T, s: seq<T>, le: (T, T) -> bool): (r: seq<T>)
    ensures multiset(r) == multiset{x} + multiset(s)
    ensures |r| == |s| + 1
  {
    if |s| == 0 then [x]
    else if le(x, s[0]) then [x] + s
    else
      assert s == [s[0]] + s[1..];
      [s[0]] + Insert(x, s[1..], le)
  }

  /** The stable sort of `s` by `le`. */
  function SortWith<T>(s: seq<T>, le: (T, T) -> bool): (r: seq<T>)
    ensures multiset(r) == multiset(s)
    ensures |r| == |s|
  {
    if |s| == 0 then []
    else
      assert s == [s[0]] + s[1..];
      Insert(s[0], SortWith(s[1..], le), le)
  }

  lemma {:induction false} InsertSorted<T(!new)>(x: T, s: seq<T>, le: (T, T) -> bool)
    requires TotalPreorder(le) && SortedBy(s, le)
    ensures SortedBy(Insert(x, s, le), le)
  {
    if |s| > 0 && !le(x, s[0]) {
      InsertSorted(x, s[1..], le);
      var r := Insert(x, s[1..], le);
      forall k | 0 <= k < |r| ensures le(s[0], r[k]) {
        assert r[k] in multiset(r);
        assert r[k] == x || r[k] in multiset(s[1..]);
        if r[k] != x {
          var m :| 0 <= m < |s[1..]| && s[1..][m] == r[k];
          assert s[1 + m] == r[k];
        }
      }
    }
  }

  /** The sort's result is ordered by `le`. */
  lemma {:induction false} SortWithSorted<T(!new)>(s: seq<T>, le: (T, T) -> bool)
    requires TotalPreorder(le)
    ensures SortedBy(SortWith(s, le), le)
  {
    if |s| > 0 {
      SortWithSorted(s[1..], le);
      InsertSorted(s[0], SortWith(s[1..], le), le);
    }
  }

  lemma {:induction false} InsertTies<T(!new)>(x: T, s: seq<T>, le: (T, T) -> bool, rel: (T, T) -> bool)
    requires TotalPreorder(le) && SortedBy(s, le) && TiesOrdered(s, le, rel)
    requires forall k :: 0 <= k < |s| && le(x, s[k]) && le(s[k], x) ==> rel(x, s[k])
    ensures TiesOrdered(Insert(x, s, le), le, rel)
  {
    if |s| > 0 && !le(x, s[0]) {
      InsertTies(x, s[1..], le, rel);
      var r := Insert(x, s[1..], le);
      assert Insert(x, s, le) == [s[0]] + r;
      forall k | 0 <= k < |r| && le(s[0], r[k]) && le(r[k], s[0]) ensures rel(s[0], r[k]) {
        assert r[k] in multiset(r);
        if r[k] == x {
          assert false;
        } else {
          assert r[k] in multiset(s[1..]);
          var m :| 0 <= m < |s[1..]| && s[1..][m] == r[k];
          assert s[1 + m] == r[k];
        }
      }
    }
  }

  /** Stability: if equivalent elements of the input are in an order `rel` accepts, so are
      those of the output. */
  lemma {:induction false} SortKeepsTies<T(!new)>(s: seq<T>, le: (T, T) -> bool, rel: (T, T) -> bool)
    requires TotalPreorder(le) && TiesOrdered(s, le, rel)
    ensures TiesOrdered(SortWith(s, le), le, rel)
  {
    if |s| > 0 {
      var t := SortWith(s[1..], le);
      assert TiesOrdered(s[1..], le, rel) by {
        forall i, j | 0 <= i < j < |s[1..]| ensures s[1..][i] == s[i + 1] && s[1..][j] == s[j + 1] { }
      }
      SortKeepsTies(s[1..], le, rel);
      SortWithSorted(s[1..], le);
      forall k | 0 <= k < |t| && le(s[0], t[k]) && le(t[k], s[0]) ensures rel(s[0], t[k]) {
        assert t[k] in multiset(s[1..]);
        var m :| 0 <= m < |s[1..]| && s[1..][m] == t[k];
        assert s[1 + m] == t[k];
      }
      InsertTies(s[0], t, le, rel);
    }
  }

  lemma {:induction false} FilterInsert<T(!new)>(x: T, s: seq<T>, le: (T, T) -> bool, p: T -> bool)
    requires forall y, z :: p(y) && p(z) ==> le(y, z)
    ensures Filter(Insert(x, s, le), p) == (if p(x) then [x] else []) + Filter(s, p)
  {
    if |s| > 0 {
      if le(x, s[0]) {
        assert ([x] + s)[1..] == s;
      } else {
        var r := Insert(x, s[1..], le);
        FilterInsert(x, s[1..], le, p);
        assert ([s[0]] + r)[1..] == r;
      }
    }
  }

  /** Stability in full: for any class of elements that `le` cannot tell apart, the sort
      lists that class in exactly its input order. */
  lemma {:induction false} SortStable<T(!new)>(s: seq<T>, le: (T, T) -> bool, p: T -> bool)
    requires forall y, z :: p(y) && p(z) ==> le(y, z)
    ensures Filter(SortWith(s, le), p) == Filter(s, p)
  {
    if |s| > 0 {
      SortStable(s[1..], le, p);
      FilterInsert(s[0], SortWith(s[1..], le), le, p);
    }
  }

  /** Adjacent duplicates collapsed to one. */
  function Dedup<T(==)>(s: seq<T>): (r: seq<T>)
    ensures forall i :: 0 <= i < |r| ==> r[i] in s
    ensures forall i :: 0 <= i < |s| ==> s[i] in r
    ensures |r| <= |s|
  {
    if |s| <= 1 then s
    else if s[0] == s[1] then
      assert s == [s[0]] + s[1..];
      Dedup(s[1..])
    else
      assert s == [s[0]] + s[1..];
      [s[0]] + Dedup(s[1..])
  }

  /** `np.unique(xs)` / `sorted(set(xs))`: the distinct elements of `s` in increasing order. */
  function SortedUnique<T(==)>(s: seq<T>, le: (T, T) -> bool): (r: seq<T>)
    ensures forall i :: 0 <= i < |r| ==> r[i] in s
    ensures forall i :: 0 <= i < |s| ==> s[i] in r
  {
    var t := SortWith(s, le);
    assert forall i :: 0 <= i < |t| ==> t[i] in multiset(s);
    assert forall i :: 0 <= i < |s| ==> s[i] in multiset(t);
    Dedup(t)
  }

  lemma {:induction false} DedupStrict<T(!new)>(s: seq<T>, le: (T, T) -> bool)
    requires TotalPreorder(le) && Antisymmetric(le) && SortedBy(s, le)
    ensures StrictlySortedBy(Dedup(s), le)
    ensures |s| > 0 ==> |Dedup(s)| > 0 && Dedup(s)[0] == s[0]
  {
    if |s| > 1 {
      assert SortedBy(s[1..], le) by {
        forall i, j | 0 <= i < j < |s[1..]| ensures le(s[1..][i], s[1..][j]) {
          assert s[1..][i] == s[i + 1] && s[1..][j] == s[j + 1];
        }
      }
      DedupStrict(s[1..], le);
      if s[0] != s[1] {
        var r := Dedup(s[1..]);
        forall k | 0 <= k < |r| ensures le(s[0], r[k]) && s[0] != r[k] {
          assert r[k] in s[1..];
          var m :| 0 <= m < |s[1..]| && s[1..][m] == r[k];
          assert s[1 + m] == r[k];
          assert le(s[0], s[1 + m]);
        }
      }
    }
  }

  /** `SortedUnique` is strictly increasing, hence free of duplicates. */
  lemma SortedUniqueStrict<T(!new)>(s: seq<T>, le: (T, T) -> bool)
    requires TotalPreorder(le) && Antisymmetric(le)
    ensures StrictlySortedBy(SortedUnique(s, le), le)
  {
    SortWithSorted(s, le);
    DedupStrict(SortWith(s, le), le);
  }

  // ---------------------------------------------------------------------------------------
  // Python's str ordering

  /** `a <= b` on str: code point by code point, a proper prefix first. */
  const StrLe: (string, string) -> bool := (a: string, b: string) => LexLe(a, b)

  lemma {:induction false} LexLeTotal(a: string, b: string)
    ensures LexLe(a, b) || LexLe(b, a)
  {
    if |a| > 0 && |b| > 0 && a[0] == b[0] {
      LexLeTotal(a[1..], b[1..]);
    }
  }

  lemma {:induction false} LexLeTrans(a: string, b: string, c: string)
    requires LexLe(a, b) && LexLe(b, c)
    ensures LexLe(a, c)
  {
    if |a| > 0 && a[0] == b[0] && b[0] == c[0] {
      LexLeTrans(a[1..], b[1..], c[1..]);
    }
  }

  lemma {:induction false} LexLeAntisym(a: string, b: string)
    requires LexLe(a, b) && LexLe(b, a)
    ensures a == b
  {
    if |a| > 0 {
      LexLeAntisym(a[1..], b[1..]);
      assert a == [a[0]] + a[1..] && b == [b[0]] + b[1..];
    }
  }

  /** Python's str comparison is a total order. */
  lemma StrLeTotalOrder()
    ensures TotalPreorder(StrLe) && Antisymmetric(StrLe)
  {
    forall a, b ensures StrLe(a, b) || StrLe(b, a) { LexLeTotal(a, b); }
    forall a, b, c | StrLe(a, b) && StrLe(b, c) ensures StrLe(a, c) { LexLeTrans(a, b, c); }
    forall a, b | StrLe(a, b) && StrLe(b, a) ensures a == b { LexLeAntisym(a, b); }
  }

  /** `sorted(set(xs))` / `np.unique(xs)` for strings. */
  function SortedStrings(xs: seq<string>): (r: seq<string>)
    ensures forall i :: 0 <= i < |r| ==> r[i] in xs
    ensures forall i :: 0 <= i < |xs| ==> xs[i] in r
    ensures forall i, j :: 0 <= i < j < |r| ==> LexLt(r[i], r[j])
  {
    StrLeTotalOrder();
    SortedUniqueStrict(xs, StrLe);
    SortedUnique(xs, StrLe)
  }
}
