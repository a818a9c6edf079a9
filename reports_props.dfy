/** What the report scripts promise about the sheets they visit and the rows they read: the
    session order of GroupAnalyze_jp.py and CharacterAnalyze_jp.py (by leading number,
    unnumbered sheets last, ties in workbook order) and of top30.py (by int value), the
    entries their result lists hold, the first row a `df[df[col] == target]` filter finds,
    and the outcomes of CharacterAnalyze_jp.py and difference.py. */
module ReportsProps {
  import opened Wrappers
  import opened Strings
  import opened Seqs
  import opened Sorting
  import opened Sheets
  import opened Reports

  // ---------------------------------------------------------------------------------------
  // extract_number

  /** A name made of a digit run and then anything that does not start with a digit is keyed
      by the value of that run: "11" and "11_jp" both sort at 11. */
  lemma ExtractNumberOfRun(ds: string, rest: string)
    requires |ds| > 0 && AllDecimal(ds) && (|rest| == 0 || !IsDecimal(rest[0]))
    ensures ExtractNumber(Some(ds + rest)) == Finite(DigitsValue(ds))
  {
    LeadingDigitsOfRun(ds, rest);
  }

  /** `extract_number(str(n) + rest)` is n. */
  lemma ExtractNumberOfNat(n: nat, rest: string)
    requires |rest| == 0 || !IsDecimal(rest[0])
    ensures ExtractNumber(Some(NatDigits(n) + rest)) == Finite(n)
  {
    ExtractNumberOfRun(NatDigits(n), rest);
    DigitsValueOfNatDigits(n);
  }

  /** The key is infinite exactly for NaN and for text that does not start with a digit. */
  lemma ExtractNumberInfinite(v: Option<string>)
    ensures ExtractNumber(v).Infinite? <==> v.None? || |v.value| == 0 || !IsDecimal(v.value[0])
  {
    if v.Some? && |v.value| > 0 && IsDecimal(v.value[0]) {
      assert LeadingDigits(v.value) == [v.value[0]] + LeadingDigits(v.value[1..]);
    }
  }

  lemma ByNumberTotal()
    ensures TotalPreorder(ByNumber)
  {
  }

  /** The visiting order of both scripts: a permutation of the workbook, keys non-decreasing,
      so that the sheets without a number come after all numbered ones. */
  lemma NumberOrderSpec(book: seq<Sheet>)
    ensures multiset(NumberOrder(book)) == multiset(book)
    ensures forall i, j :: 0 <= i < j < |NumberOrder(book)| ==>
      KeyLe(NameKey(NumberOrder(book)[i].name), NameKey(NumberOrder(book)[j].name))
    ensures forall i, j :: 0 <= i < j < |NumberOrder(book)| && NameKey(NumberOrder(book)[i].name).Infinite? ==>
      NameKey(NumberOrder(book)[j].name).Infinite?
  {
    ByNumberTotal();
    SortWithSorted(book, ByNumber);
  }

  /** `sorted` is stable: the sheets sharing a key stay in workbook order. */
  lemma NumberOrderStable(book: seq<Sheet>, k: Key)
    ensures Filter(NumberOrder(book), (sh: Sheet) => NameKey(sh.name) == k) == Filter(book, (sh: Sheet) => NameKey(sh.name) == k)
  {
    SortStable(book, ByNumber, (sh: Sheet) => NameKey(sh.name) == k);
  }

  // ---------------------------------------------------------------------------------------
  // int(x)

  lemma ByIntTotal()
    ensures TotalPreorder(ByInt)
  {
  }

  /** top30.py's order: it exists exactly when every sheet name is an int literal, and then it
      is a permutation of the workbook in non-decreasing int value. */
  lemma IntOrderSpec(book: seq<Sheet>)
    ensures IntOrder(book).Some? <==> IntNames(book)
    ensures IntOrder(book).Some? ==> multiset(IntOrder(book).value) == multiset(book)
    ensures IntOrder(book).Some? ==> forall i :: 0 <= i < |IntOrder(book).value| ==> ParseInt(IntOrder(book).value[i].name).Some?
    ensures IntOrder(book).Some? ==> forall i, j :: 0 <= i < j < |IntOrder(book).value| ==>
      ParseInt(IntOrder(book).value[i].name).value <= ParseInt(IntOrder(book).value[j].name).value
  {
    if IntNames(book) {
      var order := SortWith(book, ByInt);
      ByIntTotal();
      SortWithSorted(book, ByInt);
      forall i | 0 <= i < |order| ensures ParseInt(order[i].name).Some? {
        assert order[i] in multiset(book);
      }
    }
  }

  // ---------------------------------------------------------------------------------------
  // Distinct sheet names

  /** The sheet names of a workbook are distinct: they are the keys of the dict of sheets. */
  predicate DistinctNames(book: seq<Sheet>) {
    forall i, j :: 0 <= i < j < |book| ==> book[i].name != book[j].name
  }

  lemma PermutationDistinctNames(a: seq<Sheet>, b: seq<Sheet>)
    requires multiset(a) == multiset(b) && DistinctNames(a)
    ensures DistinctNames(b)
  {
    assert NoDup(a);
    PermutationNoDup(a, b);
    forall i, j | 0 <= i < j < |b| ensures b[i].name != b[j].name {
      assert b[i] in multiset(a) && b[j] in multiset(a);
      var p :| 0 <= p < |a| && a[p] == b[i];
      var q :| 0 <= q < |a| && a[q] == b[j];
    }
  }

  /** `book[name]` of a workbook with distinct names finds the sheet of that name. */
  lemma LookupDistinct(book: seq<Sheet>, p: nat)
    requires p < |book| && DistinctNames(book)
    ensures Lookup(book, book[p].name) == Some(book[p])
  {
    var r := Lookup(book, book[p].name);
    assert r.Some?;
    assert r.value in book;
    var q :| 0 <= q < |book| && book[q] == r.value;
    assert q == p;
  }

  // ---------------------------------------------------------------------------------------
  // The result lists

  /** An entry is in the result exactly when it is the name and percentage of a measured
      sheet. */
  lemma {:induction false} CollectMembers(order: seq<Sheet>, step: Sheet -> Outcome)
    ensures forall e :: e in Collect(order, step) <==>
      exists sh :: sh in order && step(sh).Measured? && e == (sh.name, step(sh).pct)
  {
    if |order| > 0 {
      var init := order[..|order| - 1];
      CollectMembers(init, step);
      LastSplit(order);
    }
  }

  /** The result is empty exactly when every sheet is rejected. */
  lemma CollectEmpty(order: seq<Sheet>, step: Sheet -> Outcome)
    ensures |Collect(order, step)| == 0 <==> forall sh :: sh in order ==> step(sh).Rejected?
  {
    CollectMembers(order, step);
    var c := Collect(order, step);
    if |c| > 0 {
      assert c[0] in c;
    }
    if exists sh :: sh in order && step(sh).Measured? {
      var sh :| sh in order && step(sh).Measured?;
      assert (sh.name, step(sh).pct) in c;
    }
  }

  /** Visiting the sheets of `book` in the order `order`, a permutation of it: the entries are
      those of the measured sheets of `book`, and there are none exactly when each one is
      rejected. */
  lemma CollectOfPermutation(book: seq<Sheet>, order: seq<Sheet>, step: Sheet -> Outcome)
    requires multiset(order) == multiset(book)
    ensures |Collect(order, step)| == 0 <==> forall sh :: sh in book ==> step(sh).Rejected?
    ensures forall e :: e in Collect(order, step) <==>
      exists sh :: sh in book && step(sh).Measured? && e == (sh.name, step(sh).pct)
  {
    assert forall sh :: sh in order <==> sh in book by {
      forall sh ensures sh in order <==> sh in book {
        assert sh in order <==> sh in multiset(order);
      }
    }
    CollectMembers(order, step);
    CollectEmpty(order, step);
  }

  /** Entries come in visiting order: whatever relation the visiting order keeps between sheet
      names, the result keeps between its entries. */
  lemma {:induction false} CollectOrdered(order: seq<Sheet>, step: Sheet -> Outcome, rel: (string, string) -> bool)
    requires forall i, j :: 0 <= i < j < |order| ==> rel(order[i].name, order[j].name)
    ensures forall a, b :: 0 <= a < b < |Collect(order, step)| ==> rel(Collect(order, step)[a].0, Collect(order, step)[b].0)
  {
    if |order| > 0 {
      var init := order[..|order| - 1];
      var last := order[|order| - 1];
      assert forall i :: 0 <= i < |init| ==> init[i] == order[i];
      CollectOrdered(init, step, rel);
      CollectMembers(init, step);
      var c0 := Collect(init, step);
      var c := Collect(order, step);
      forall a, b | 0 <= a < b < |c| ensures rel(c[a].0, c[b].0) {
        if b >= |c0| {
          assert c[a] == c0[a] && c0[a] in c0;
          var sh :| sh in init && step(sh).Measured? && c0[a] == (sh.name, step(sh).pct);
          var i :| 0 <= i < |init| && init[i] == sh;
          assert c[b].0 == last.name;
        }
      }
    }
  }

  /** Visiting the sheets of `book` sorted by `le`: the entries are those of the measured
      sheets, and they keep between their names any relation `le` implies. */
  lemma CollectSorted(book: seq<Sheet>, le: (Sheet, Sheet) -> bool, step: Sheet -> Outcome, rel: (string, string) -> bool)
    requires TotalPreorder(le)
    requires forall x, y :: le(x, y) ==> rel(x.name, y.name)
    ensures var rs := Collect(SortWith(book, le), step);
      && (|rs| == 0 <==> forall sh :: sh in book ==> step(sh).Rejected?)
      && (forall e :: e in rs <==> exists sh :: sh in book && step(sh).Measured? && e == (sh.name, step(sh).pct))
      && (forall a, b :: 0 <= a < b < |rs| ==> rel(rs[a].0, rs[b].0))
  {
    var order := SortWith(book, le);
    SortWithSorted(book, le);
    CollectOfPermutation(book, order, step);
    CollectOrdered(order, step, rel);
  }

  /** A visiting order with distinct names gives a result with distinct names. */
  lemma CollectDistinct(order: seq<Sheet>, step: Sheet -> Outcome)
    requires DistinctNames(order)
    ensures forall a, b :: 0 <= a < b < |Collect(order, step)| ==> Collect(order, step)[a].0 != Collect(order, step)[b].0
  {
    CollectOrdered(order, step, (x: string, y: string) => x != y);
  }

  // ---------------------------------------------------------------------------------------
  // df[df[col] == target]

  /** Row `i` is the first row whose `col` cell equals `target`. */
  predicate FirstWith(rows: seq<Row>, col: string, target: Cell, i: int) {
    && 0 <= i < |rows|
    && CellEq(Get(rows[i], col), target)
    && forall j :: 0 <= j < i ==> !CellEq(Get(rows[j], col), target)
  }

  lemma {:induction false} FilterFirst<T>(s: seq<T>, p: T -> bool, i: nat)
    requires i < |s| && p(s[i]) && forall j :: 0 <= j < i ==> !p(s[j])
    ensures |Filter(s, p)| > 0 && Filter(s, p)[0] == s[i]
  {
    if i > 0 {
      assert !p(s[0]);
      assert forall j :: 0 <= j < i - 1 ==> s[1..][j] == s[j + 1];
      FilterFirst(s[1..], p, i - 1);
    }
  }

  lemma FilterNone<T>(s: seq<T>, p: T -> bool)
    ensures |Filter(s, p)| == 0 <==> forall i :: 0 <= i < |s| ==> !p(s[i])
  {
    FilterMembers(s, p);
    if |Filter(s, p)| > 0 {
      assert Filter(s, p)[0] in Filter(s, p);
    }
    if exists i :: 0 <= i < |s| && p(s[i]) {
      var i :| 0 <= i < |s| && p(s[i]);
      assert s[i] in Filter(s, p);
    }
  }

  /** `target_data.iloc[0]` is the first matching row. */
  lemma MatchingFirst(rows: seq<Row>, col: string, target: Cell, i: int)
    requires FirstWith(rows, col, target, i)
    ensures |Matching(rows, col, target)| > 0 && Matching(rows, col, target)[0] == rows[i]
  {
    FilterFirst(rows, (r: Row) => CellEq(Get(r, col), target), i);
  }

  /** `target_data.empty` holds exactly when no row matches. */
  lemma MatchingNone(rows: seq<Row>, col: string, target: Cell)
    ensures |Matching(rows, col, target)| == 0 <==> forall i :: 0 <= i < |rows| ==> !CellEq(Get(rows[i], col), target)
  {
    FilterNone(rows, (r: Row) => CellEq(Get(r, col), target));
  }

  // ---------------------------------------------------------------------------------------
  // CharacterAnalyze_jp.py

  /** With both columns present and a non-zero raw total, the sheet is skipped as lacking the
      character exactly when no row carries its name. */
  lemma CharacterStepNoTarget(df: Sheet, raw: seq<Sheet>, target: string, total: real)
    requires JpNameCol in df.columns && VotesCol in df.columns
    requires RawTotal(raw, df.name) == Some(total) && total != 0.0
    ensures CharacterStep(df, raw, target) == Rejected(NoTarget) <==>
      forall i :: 0 <= i < |df.rows| ==> !CellEq(Get(df.rows[i], JpNameCol), Text(target))
  {
    MatchingNone(df.rows, JpNameCol, Text(target));
  }

  /** The share is read from the first row carrying the character's name: its votes over the
      raw total, in percent; a zero count skips the sheet, an empty one records NaN, text
      raises. */
  lemma CharacterStepFirstRow(df: Sheet, raw: seq<Sheet>, target: string, total: real, i: int)
    requires JpNameCol in df.columns && VotesCol in df.columns
    requires RawTotal(raw, df.name) == Some(total) && total != 0.0
    requires FirstWith(df.rows, JpNameCol, Text(target), i)
    ensures Get(df.rows[i], VotesCol).Int? ==>
      CharacterStep(df, raw, target) ==
        if Get(df.rows[i], VotesCol).i == 0 then Rejected(ZeroVotes)
        else Measured(Pct(Get(df.rows[i], VotesCol).i as real / total * 100.0))
    ensures Get(df.rows[i], VotesCol).Float? ==>
      CharacterStep(df, raw, target) ==
        if Get(df.rows[i], VotesCol).x == 0.0 then Rejected(ZeroVotes)
        else Measured(Pct(Get(df.rows[i], VotesCol).x / total * 100.0))
    ensures Get(df.rows[i], VotesCol).Missing? ==> CharacterStep(df, raw, target) == Measured(NaN)
    ensures Get(df.rows[i], VotesCol).Text? ==> CharacterStep(df, raw, target) == Rejected(Raised)
  {
    MatchingFirst(df.rows, JpNameCol, Text(target), i);
  }

  /** The checks before any row is read: missing columns, a raw total that raises, a raw total
      of zero. */
  lemma CharacterStepEarly(df: Sheet, raw: seq<Sheet>, target: string)
    ensures JpNameCol !in df.columns || VotesCol !in df.columns ==> CharacterStep(df, raw, target) == Rejected(MissingColumns)
    ensures JpNameCol in df.columns && VotesCol in df.columns && RawTotal(raw, df.name).None? ==>
      CharacterStep(df, raw, target) == Rejected(RaisedTotal)
    ensures JpNameCol in df.columns && VotesCol in df.columns && RawTotal(raw, df.name) == Some(0.0) ==>
      CharacterStep(df, raw, target) == Rejected(ZeroTotal)
  {
  }

  /** The script's result: it raises exactly when no sheet yields a share; otherwise it lists
      the measured sheets, each with its share, in order of their leading number, each sheet
      once. */
  lemma CharacterAnalysisSpec(book: seq<Sheet>, raw: seq<Sheet>)
    ensures CharacterAnalysis(book, raw).None? <==> forall sh :: sh in book ==> CharacterStep(sh, raw, TargetName).Rejected?
    ensures CharacterAnalysis(book, raw).Some? ==> forall e :: e in CharacterAnalysis(book, raw).value <==>
      exists sh :: sh in book && CharacterStep(sh, raw, TargetName).Measured? && e == (sh.name, CharacterStep(sh, raw, TargetName).pct)
    ensures CharacterAnalysis(book, raw).Some? ==> forall a, b :: 0 <= a < b < |CharacterAnalysis(book, raw).value| ==>
      KeyLe(NameKey(CharacterAnalysis(book, raw).value[a].0), NameKey(CharacterAnalysis(book, raw).value[b].0))
    ensures CharacterAnalysis(book, raw).Some? && DistinctNames(book) ==> forall a, b :: 0 <= a < b < |CharacterAnalysis(book, raw).value| ==>
      CharacterAnalysis(book, raw).value[a].0 != CharacterAnalysis(book, raw).value[b].0
  {
    var order := NumberOrder(book);
    var step := (df: Sheet) => CharacterStep(df, raw, TargetName);
    NumberOrderSpec(book);
    CollectOfPermutation(book, order, step);
    CollectOrdered(order, step, (x: string, y: string) => KeyLe(NameKey(x), NameKey(y)));
    if DistinctNames(book) {
      PermutationDistinctNames(book, order);
      CollectDistinct(order, step);
    }
  }

  // ---------------------------------------------------------------------------------------
  // top30.py

  /** What the loop of top30.py collects along its visiting order: nothing exactly when every
      sheet is rejected. */
  lemma Top30CollectEmpty(book: seq<Sheet>, raw: seq<Sheet>)
    ensures |Collect(SortWith(book, ByInt), (df: Sheet) => TopStep(df, raw))| == 0 <==> forall sh :: sh in book ==> TopStep(sh, raw).Rejected?
  {
    ByIntTotal();
    CollectSorted(book, ByInt, (df: Sheet) => TopStep(df, raw), (x: string, y: string) => true);
  }

  /** The entries collected are those of the measured sheets. */
  lemma Top30CollectMembers(book: seq<Sheet>, raw: seq<Sheet>)
    ensures var rs := Collect(SortWith(book, ByInt), (df: Sheet) => TopStep(df, raw));
      forall e :: e in rs <==> exists sh :: sh in book && TopStep(sh, raw).Measured? && e == (sh.name, TopStep(sh, raw).pct)
  {
    ByIntTotal();
    CollectSorted(book, ByInt, (df: Sheet) => TopStep(df, raw), (x: string, y: string) => true);
  }

  /** The entries collected come in non-decreasing int order of their names. */
  lemma Top30CollectOrder(book: seq<Sheet>, raw: seq<Sheet>)
    ensures var rs := Collect(SortWith(book, ByInt), (df: Sheet) => TopStep(df, raw));
      forall a, b :: 0 <= a < b < |rs| ==> ParseInt(rs[a].0).GetOr(0) <= ParseInt(rs[b].0).GetOr(0)
  {
    ByIntTotal();
    CollectSorted(book, ByInt, (df: Sheet) => TopStep(df, raw), (x: string, y: string) => ParseInt(x).GetOr(0) <= ParseInt(y).GetOr(0));
  }

  /** The script's result: it raises when a sheet name is not an int literal, or when no sheet
      yields a share; otherwise it lists the measured sheets with their shares, in increasing
      int order of their names. */
  lemma Top30AnalysisSpec(book: seq<Sheet>, raw: seq<Sheet>)
    ensures var r := Top30Analysis(book, raw);
      && (!IntNames(book) ==> r.None?)
      && (IntNames(book) ==> (r.None? <==> forall sh :: sh in book ==> TopStep(sh, raw).Rejected?))
      && (r.Some? ==> forall e :: e in r.value <==> exists sh :: sh in book && TopStep(sh, raw).Measured? && e == (sh.name, TopStep(sh, raw).pct))
      && (r.Some? ==> forall a, b :: 0 <= a < b < |r.value| ==> ParseInt(r.value[a].0).GetOr(0) <= ParseInt(r.value[b].0).GetOr(0))
  {
    if IntNames(book) {
      var rs := Collect(SortWith(book, ByInt), (df: Sheet) => TopStep(df, raw));
      assert Top30Analysis(book, raw) == if |rs| == 0 then None else Some(rs);
      Top30CollectEmpty(book, raw);
      Top30CollectMembers(book, raw);
      Top30CollectOrder(book, raw);
    }
  }

  // ---------------------------------------------------------------------------------------
  // difference.py

  /** `name_mapping[name]` is the 日文名 of the last row keyed `name`. */
  lemma {:induction false} MappedNameLast(rows: seq<Row>, name: string, i: nat)
    requires i < |rows| && Get(rows[i], CnNameCol) == Text(name)
    requires forall j :: i < j < |rows| ==> Get(rows[j], CnNameCol) != Text(name)
    ensures MappedName(rows, name) == Some(Get(rows[i], JpNameCol))
  {
    if i < |rows| - 1 {
      var init := rows[..|rows| - 1];
      assert forall j :: i < j < |init| ==> init[j] == rows[j];
      MappedNameLast(init, name, i);
    }
  }

  /** The lookup raises KeyError exactly when no row is keyed `name`. */
  lemma {:induction false} MappedNameNone(rows: seq<Row>, name: string)
    ensures MappedName(rows, name).None? <==> forall i :: 0 <= i < |rows| ==> Get(rows[i], CnNameCol) != Text(name)
  {
    if |rows| > 0 {
      var init := rows[..|rows| - 1];
      MappedNameNone(init, name);
      assert forall i :: 0 <= i < |init| ==> init[i] == rows[i];
    }
  }

  /** `analyze_sheet` reads the first row whose target column equals the target: its votes
      over the raw total, in percent; NaN for an empty count, a raise for text. */
  lemma AnalyzeSheetFirstRow(grouped: seq<Sheet>, raw: seq<Sheet>, name: string, targetCol: string, target: Cell,
                             g: Sheet, total: real, i: int)
    requires Lookup(grouped, name) == Some(g) && Lookup(raw, name).Some?
    requires VotesCol in g.columns && targetCol in g.columns
    requires RawTotal(raw, name) == Some(total) && total != 0.0
    requires FirstWith(g.rows, targetCol, target, i)
    ensures Get(g.rows[i], VotesCol).Int? ==>
      AnalyzeSheet(grouped, raw, name, targetCol, target) == Measured(Pct(Get(g.rows[i], VotesCol).i as real / total * 100.0))
    ensures Get(g.rows[i], VotesCol).Float? ==>
      AnalyzeSheet(grouped, raw, name, targetCol, target) == Measured(Pct(Get(g.rows[i], VotesCol).x / total * 100.0))
    ensures Get(g.rows[i], VotesCol).Missing? ==> AnalyzeSheet(grouped, raw, name, targetCol, target) == Measured(NaN)
    ensures Get(g.rows[i], VotesCol).Text? ==> AnalyzeSheet(grouped, raw, name, targetCol, target) == Rejected(Raised)
  {
    MatchingFirst(g.rows, targetCol, target, i);
  }

  /** With both sheets, both columns and a non-zero raw total, `analyze_sheet` raises "target
      not found" exactly when no row matches. */
  lemma AnalyzeSheetNoTarget(grouped: seq<Sheet>, raw: seq<Sheet>, name: string, targetCol: string, target: Cell,
                             g: Sheet, total: real)
    requires Lookup(grouped, name) == Some(g) && Lookup(raw, name).Some?
    requires VotesCol in g.columns && targetCol in g.columns
    requires RawTotal(raw, name) == Some(total) && total != 0.0
    ensures AnalyzeSheet(grouped, raw, name, targetCol, target) == Rejected(NoTarget) <==>
      forall i :: 0 <= i < |g.rows| ==> !CellEq(Get(g.rows[i], targetCol), target)
  {
    MatchingNone(g.rows, targetCol, target);
  }

  /** The script's ending: it crashes exactly when fun.xlsx lacks a mapping column or has no
      row for the character; it exits with the reason of the first analysis that fails; it
      prints only when both analyses succeed, and then the difference is positive exactly when
      the Chinese share is the higher (the "+" of the printed line). */
  lemma DifferenceSpec(fun: Sheet, cnGrouped: seq<Sheet>, cnRaw: seq<Sheet>, jpGrouped: seq<Sheet>, jpRaw: seq<Sheet>)
    ensures DifferenceScript(fun, cnGrouped, cnRaw, jpGrouped, jpRaw).Crashed? <==>
      CnNameCol !in fun.columns || JpNameCol !in fun.columns ||
      forall i :: 0 <= i < |fun.rows| ==> Get(fun.rows[i], CnNameCol) != Text(TargetCnName)
    ensures DifferenceScript(fun, cnGrouped, cnRaw, jpGrouped, jpRaw).Exited? ==>
      var why := DifferenceScript(fun, cnGrouped, cnRaw, jpGrouped, jpRaw).why;
      MappedName(fun.rows, TargetCnName).Some? &&
      (AnalyzeSheet(cnGrouped, cnRaw, CnSheet, CnNameCol, Text(TargetCnName)) == Rejected(why) ||
       (AnalyzeSheet(cnGrouped, cnRaw, CnSheet, CnNameCol, Text(TargetCnName)).Measured? &&
        AnalyzeSheet(jpGrouped, jpRaw, JpSheet, JpNameCol, MappedName(fun.rows, TargetCnName).value) == Rejected(why)))
    ensures DifferenceScript(fun, cnGrouped, cnRaw, jpGrouped, jpRaw).Printed? ==>
      var p := DifferenceScript(fun, cnGrouped, cnRaw, jpGrouped, jpRaw);
      && MappedName(fun.rows, TargetCnName) == Some(p.jpName)
      && AnalyzeSheet(cnGrouped, cnRaw, CnSheet, CnNameCol, Text(TargetCnName)) == Measured(p.cn)
      && AnalyzeSheet(jpGrouped, jpRaw, JpSheet, JpNameCol, p.jpName) == Measured(p.jp)
      && (p.diff.Pct? <==> p.cn.Pct? && p.jp.Pct?)
      && (p.diff.Pct? ==> (p.diff.x > 0.0 <==> p.cn.x > p.jp.x) && (p.diff.x == 0.0 <==> p.cn.x == p.jp.x))
  {
    MappedNameNone(fun.rows, TargetCnName);
  }
}
