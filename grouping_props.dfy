/** What the grouping scripts promise: the dictionaries keep exactly the usable rows, the
    left merge followed by `dropna` is the inner join on the key, every grouped row is a vote
    row with its dictionary value attached, and with a dictionary whose keys are unique each
    grouped sheet keeps its rows in order and never gains votes. */
module GroupingProps {
  import opened Wrappers
  import opened Seqs
  import opened Sheets
  import opened Grouping

  // ---------------------------------------------------------------------------------------
  // The dictionaries

  /** TouhouVote.py's dictionary exists unless some work cell holds text, and then holds
      exactly the rows whose work code is a number above 5, in file order. */
  lemma WorkRowsSpec(fun: seq<Row>)
    ensures WorkRows(fun).Some? <==> forall i :: 0 <= i < |fun| ==> !Get(fun[i], WorkCol).Text?
    ensures WorkRows(fun).Some? ==> forall r :: r in WorkRows(fun).value <==> r in fun && AboveFive(r)
  {
    var isPresent := (r: Row) => !Get(r, WorkCol).Missing?;
    var present := Filter(fun, isPresent);
    FilterMembers(fun, isPresent);
    if Comparable(present) {
      forall i | 0 <= i < |fun| && isPresent(fun[i]) ensures !Get(fun[i], WorkCol).Text? {
        assert fun[i] in present;
        var j :| 0 <= j < |present| && present[j] == fun[i];
      }
      FilterMembers(present, AboveFive);
    } else {
      var j :| 0 <= j < |present| && Get(present[j], WorkCol).Text?;
      assert present[j] in fun;
      var i :| 0 <= i < |fun| && fun[i] == present[j];
    }
  }

  /** Every value a dictionary attaches is present. */
  predicate ValuesPresent(dict: seq<Entry>) {
    forall i :: 0 <= i < |dict| ==> !dict[i].value.Missing?
  }

  /** Each entry of TouhouVote.py's dictionary pairs a kept row's key with its work code,
      which is a float above 5. */
  lemma WorkDictionarySpec(fun: seq<Row>, keyCol: string)
    ensures WorkDictionary(fun, keyCol).Some? <==> WorkRows(fun).Some?
    ensures WorkDictionary(fun, keyCol).Some? ==>
      var d := WorkDictionary(fun, keyCol).value;
      var kept := WorkRows(fun).value;
      && |d| == |kept|
      && forall i :: 0 <= i < |d| ==>
           d[i].key == Get(kept[i], keyCol) && d[i].value.Float? && d[i].value.x > 5.0
           && Num(d[i].value) == Num(Get(kept[i], WorkCol))
  {
    if WorkRows(fun).Some? {
      var kept := WorkRows(fun).value;
      var d := WorkDictionary(fun, keyCol).value;
      forall i | 0 <= i < |d| ensures d[i].value.Float? && d[i].value.x > 5.0 {
        assert AboveFive(kept[i]);
      }
    }
  }

  /** TouhouVoteMusic.py's dictionary pairs each information row that has a 所属角色 with
      that value, in file order, and attaches only present values. */
  lemma MusicDictionarySpec(info: seq<Row>, keyCol: string)
    ensures ValuesPresent(MusicDictionary(info, keyCol))
    ensures forall e :: e in MusicDictionary(info, keyCol) <==>
              exists r :: r in info && !Get(r, CharCol).Missing? && e == Entry(Get(r, keyCol), Get(r, CharCol))
  {
    var hasChar := (r: Row) => !Get(r, CharCol).Missing?;
    var kept := Filter(info, hasChar);
    FilterMembers(info, hasChar);
    var d := MusicDictionary(info, keyCol);
    forall e ensures e in d <==> exists r :: r in info && !Get(r, CharCol).Missing? && e == Entry(Get(r, keyCol), Get(r, CharCol)) {
      if e in d {
        var i :| 0 <= i < |d| && d[i] == e;
        assert kept[i] in info;
      }
      if exists r :: r in info && !Get(r, CharCol).Missing? && e == Entry(Get(r, keyCol), Get(r, CharCol)) {
        var r :| r in info && !Get(r, CharCol).Missing? && e == Entry(Get(r, keyCol), Get(r, CharCol));
        assert r in kept;
        var i :| 0 <= i < |kept| && kept[i] == r;
        assert d[i] == e;
      }
    }
  }

  // ---------------------------------------------------------------------------------------
  // Merge and drop as an inner join

  /** The copies of `r` an inner join with the dictionary makes: one per matching entry. */
  function Copies(r: Row, dict: seq<Entry>, keyCol: string, valCol: string): (out: seq<Row>)
    ensures |out| == |Matches(dict, Get(r, keyCol))|
  {
    var m := Matches(dict, Get(r, keyCol));
    seq(|m|, i requires 0 <= i < |m| => r[valCol := m[i].value])
  }

  /** The inner join of the rows with the dictionary on the key column. */
  function InnerJoin(rows: seq<Row>, dict: seq<Entry>, keyCol: string, valCol: string): seq<Row> {
    if |rows| == 0 then []
    else InnerJoin(rows[..|rows| - 1], dict, keyCol, valCol) + Copies(rows[|rows| - 1], dict, keyCol, valCol)
  }

  lemma DropRow(r: Row, dict: seq<Entry>, keyCol: string, valCol: string)
    requires ValuesPresent(dict)
    ensures DropNA(MergeRow(r, dict, keyCol, valCol), valCol) == Copies(r, dict, keyCol, valCol)
  {
    var m := Matches(dict, Get(r, keyCol));
    var merged := MergeRow(r, dict, keyCol, valCol);
    var keep := (x: Row) => !Get(x, valCol).Missing?;
    if |m| == 0 {
      assert !keep(merged[0]);
      assert merged == [merged[0]];
      TailOfCons(merged[0], []);
    } else {
      FilterMembers(dict, (e: Entry) => KeyEq(Get(r, keyCol), e.key));
      forall i | 0 <= i < |merged| ensures keep(merged[i]) {
        assert m[i] in dict;
        var k :| 0 <= k < |dict| && dict[k] == m[i];
      }
      AllKept(merged, keep);
    }
  }

  lemma {:induction false} AllKept<T>(s: seq<T>, p: T -> bool)
    requires forall i :: 0 <= i < |s| ==> p(s[i])
    ensures Filter(s, p) == s
  {
    if |s| > 0 {
      AllKept(s[1..], p);
      assert s == [s[0]] + s[1..];
    }
  }

  /** With a dictionary whose values are all present, the left merge followed by `dropna`
      is the inner join: exactly the unmatched rows are dropped. */
  lemma {:induction false} MergeDropIsInnerJoin(rows: seq<Row>, dict: seq<Entry>, keyCol: string, valCol: string)
    requires ValuesPresent(dict)
    ensures DropNA(LeftMerge(rows, dict, keyCol, valCol), valCol) == InnerJoin(rows, dict, keyCol, valCol)
  {
    if |rows| > 0 {
      var init := rows[..|rows| - 1];
      MergeDropIsInnerJoin(init, dict, keyCol, valCol);
      FilterAppend(LeftMerge(init, dict, keyCol, valCol), MergeRow(rows[|rows| - 1], dict, keyCol, valCol),
                   (x: Row) => !Get(x, valCol).Missing?);
      DropRow(rows[|rows| - 1], dict, keyCol, valCol);
    }
  }

  /** The input row each joined row comes from. */
  function Origins(rows: seq<Row>, dict: seq<Entry>, keyCol: string): (o: seq<nat>)
    ensures forall k :: 0 <= k < |o| ==> o[k] < |rows|
  {
    if |rows| == 0 then []
    else Origins(rows[..|rows| - 1], dict, keyCol) + seq(|Matches(dict, Get(rows[|rows| - 1], keyCol))|, _ => |rows| - 1)
  }

  /** The dictionary entry each joined row carries the value of. */
  function Used(rows: seq<Row>, dict: seq<Entry>, keyCol: string): seq<Entry> {
    if |rows| == 0 then []
    else Used(rows[..|rows| - 1], dict, keyCol) + Matches(dict, Get(rows[|rows| - 1], keyCol))
  }

  /** Each joined row is an input row with the value of a dictionary entry whose key the
      merge matches with the row's key; the joined rows come in the order of their input
      rows, and an input row gives a joined row exactly when some entry matches it (one per
      matching entry, as Copies states). */
  lemma InnerJoinRows(rows: seq<Row>, dict: seq<Entry>, keyCol: string, valCol: string)
    ensures var out := InnerJoin(rows, dict, keyCol, valCol);
      var o := Origins(rows, dict, keyCol);
      var u := Used(rows, dict, keyCol);
      && |out| == |o| == |u|
      && (forall k :: 0 <= k < |out| ==>
            && u[k] in dict && KeyEq(Get(rows[o[k]], keyCol), u[k].key)
            && out[k] == rows[o[k]][valCol := u[k].value])
      && (forall k, l :: 0 <= k < l < |out| ==> o[k] <= o[l])
      && (forall j :: 0 <= j < |rows| ==> (j in o <==> |Matches(dict, Get(rows[j], keyCol))| > 0))
  {
    InnerJoinShape(rows, dict, keyCol, valCol);
    OriginsOrdered(rows, dict, keyCol);
    OriginsCover(rows, dict, keyCol);
  }

  lemma {:induction false} InnerJoinShape(rows: seq<Row>, dict: seq<Entry>, keyCol: string, valCol: string)
    ensures var out := InnerJoin(rows, dict, keyCol, valCol);
      var o := Origins(rows, dict, keyCol);
      var u := Used(rows, dict, keyCol);
      && |out| == |o| == |u|
      && (forall k :: 0 <= k < |out| ==>
            && u[k] in dict && KeyEq(Get(rows[o[k]], keyCol), u[k].key)
            && out[k] == rows[o[k]][valCol := u[k].value])
  {
    if |rows| > 0 {
      var init := rows[..|rows| - 1];
      var last := rows[|rows| - 1];
      InnerJoinShape(init, dict, keyCol, valCol);
      var m := Matches(dict, Get(last, keyCol));
      FilterMembers(dict, (e: Entry) => KeyEq(Get(last, keyCol), e.key));
      var o0 := Origins(init, dict, keyCol);
      var out := InnerJoin(rows, dict, keyCol, valCol);
      var o := Origins(rows, dict, keyCol);
      var u := Used(rows, dict, keyCol);
      forall k | 0 <= k < |out|
        ensures u[k] in dict && KeyEq(Get(rows[o[k]], keyCol), u[k].key) && out[k] == rows[o[k]][valCol := u[k].value]
      {
        if k < |o0| {
          assert rows[o0[k]] == init[o0[k]];
        } else {
          assert m[k - |o0|] in m;
        }
      }
    }
  }

  lemma {:induction false} OriginsOrdered(rows: seq<Row>, dict: seq<Entry>, keyCol: string)
    ensures forall k, l :: 0 <= k < l < |Origins(rows, dict, keyCol)| ==>
              Origins(rows, dict, keyCol)[k] <= Origins(rows, dict, keyCol)[l]
  {
    if |rows| > 0 {
      var init := rows[..|rows| - 1];
      OriginsOrdered(init, dict, keyCol);
      var o0 := Origins(init, dict, keyCol);
      var o := Origins(rows, dict, keyCol);
      var tail := seq(|Matches(dict, Get(rows[|rows| - 1], keyCol))|, _ => |rows| - 1);
      assert o == o0 + tail;
      assert forall k, l :: 0 <= k < l < |o0| ==> o0[k] <= o0[l];
      forall k, l | 0 <= k < l < |o| ensures o[k] <= o[l] {
        if l < |o0| {
          assert o[k] == o0[k] && o[l] == o0[l];
        } else {
          assert o[l] == |rows| - 1;
          if k < |o0| {
            assert o[k] == o0[k] < |init|;
          } else {
            assert o[k] == |rows| - 1;
          }
        }
      }
    }
  }

  lemma {:induction false} OriginsCover(rows: seq<Row>, dict: seq<Entry>, keyCol: string)
    ensures forall j :: 0 <= j < |rows| ==>
              (j in Origins(rows, dict, keyCol) <==> |Matches(dict, Get(rows[j], keyCol))| > 0)
  {
    if |rows| > 0 {
      var init := rows[..|rows| - 1];
      var m := Matches(dict, Get(rows[|rows| - 1], keyCol));
      OriginsCover(init, dict, keyCol);
      var o0 := Origins(init, dict, keyCol);
      var tail := seq(|m|, _ => |rows| - 1);
      assert Origins(rows, dict, keyCol) == o0 + tail;
      assert forall x :: x in tail ==> x == |init|;
      assert |init| !in o0;
      forall j | 0 <= j < |init| ensures rows[j] == init[j] {
      }
      assert |m| > 0 ==> tail[0] == |init|;
    }
  }

  // ---------------------------------------------------------------------------------------
  // Unique keys

  /** The merge's key matching is an equivalence. */
  lemma KeyEqEquivalence(a: Cell, b: Cell, c: Cell)
    ensures KeyEq(a, a)
    ensures KeyEq(a, b) ==> KeyEq(b, a)
    ensures KeyEq(a, b) && KeyEq(b, c) ==> KeyEq(a, c)
  {
  }

  /** No two entries have keys the merge matches. */
  predicate KeysUnique(dict: seq<Entry>) {
    forall i, k :: 0 <= i < k < |dict| ==> !KeyEq(dict[i].key, dict[k].key)
  }

  /** A key-unique dictionary matches any key at most once. */
  lemma {:induction false} MatchesAtMostOne(dict: seq<Entry>, c: Cell)
    requires KeysUnique(dict)
    ensures |Matches(dict, c)| <= 1
  {
    if |dict| > 0 {
      var tail := dict[1..];
      assert KeysUnique(tail) by {
        forall i, k | 0 <= i < k < |tail| ensures !KeyEq(tail[i].key, tail[k].key) {
          assert tail[i] == dict[i + 1] && tail[k] == dict[k + 1];
        }
      }
      MatchesAtMostOne(tail, c);
      if KeyEq(c, dict[0].key) {
        forall k | 0 <= k < |tail| ensures !KeyEq(c, tail[k].key) {
          assert tail[k] == dict[k + 1];
          KeyEqEquivalence(dict[0].key, c, tail[k].key);
        }
        FilterNone(tail, (e: Entry) => KeyEq(c, e.key));
      }
    }
  }

  lemma {:induction false} FilterNone<T>(s: seq<T>, p: T -> bool)
    requires forall i :: 0 <= i < |s| ==> !p(s[i])
    ensures Filter(s, p) == []
  {
    if |s| > 0 {
      FilterNone(s[1..], p);
    }
  }

  /** With a key-unique dictionary each grouped row comes from a different vote row, in the
      vote rows' order: the grouped rows are a subsequence of the vote rows, each with the
      dictionary value set. */
  lemma {:induction false} UniqueKeysInOrder(rows: seq<Row>, dict: seq<Entry>, keyCol: string)
    requires KeysUnique(dict)
    ensures forall k, l :: 0 <= k < l < |Origins(rows, dict, keyCol)| ==>
              Origins(rows, dict, keyCol)[k] < Origins(rows, dict, keyCol)[l]
  {
    if |rows| > 0 {
      var init := rows[..|rows| - 1];
      UniqueKeysInOrder(init, dict, keyCol);
      MatchesAtMostOne(dict, Get(rows[|rows| - 1], keyCol));
    }
  }

  /** With a key-unique dictionary and non-negative vote readings, a grouped sheet holds at
      most the votes of its vote sheet, in any column but the attached one. */
  lemma {:induction false} UniqueKeysVotes(rows: seq<Row>, dict: seq<Entry>, keyCol: string, valCol: string, col: string)
    requires KeysUnique(dict) && col != valCol
    requires forall i :: 0 <= i < |rows| ==> ToInt(Get(rows[i], col)).GetOr(0) >= 0
    ensures VoteSum(InnerJoin(rows, dict, keyCol, valCol), col) <= VoteSum(rows, col)
  {
    if |rows| > 0 {
      var init := rows[..|rows| - 1];
      var last := rows[|rows| - 1];
      UniqueKeysVotes(init, dict, keyCol, valCol, col);
      MatchesAtMostOne(dict, Get(last, keyCol));
      var c := Copies(last, dict, keyCol, valCol);
      VoteSumAppend(InnerJoin(init, dict, keyCol, valCol), c, col);
      VoteSumAppend(init, [last], col);
      LastSplit(rows);
      if |c| == 1 {
        assert Get(c[0], col) == Get(last, col);
        assert c == [c[0]];
        TailOfCons(c[0], []);
      }
      TailOfCons(last, []);
    }
  }

  // ---------------------------------------------------------------------------------------
  // Workbooks and scripts

  /** A workbook is processed exactly when every sheet has the key column and lacks the
      value column; then there is one grouped sheet per vote sheet, under the same name and
      in the same order, holding the merged and dropped rows. */
  lemma JoinBookSpec(sheets: seq<Sheet>, dict: seq<Entry>, keyCol: string, valCol: string)
    ensures JoinBook(sheets, dict, keyCol, valCol).Some? <==>
              forall i :: 0 <= i < |sheets| ==> keyCol in sheets[i].columns && valCol !in sheets[i].columns
    ensures JoinBook(sheets, dict, keyCol, valCol).Some? ==>
      var out := JoinBook(sheets, dict, keyCol, valCol).value;
      && |out| == |sheets|
      && forall i :: 0 <= i < |out| ==>
           && out[i].name == sheets[i].name
           && out[i].columns == sheets[i].columns + {valCol}
           && out[i].rows == DropNA(LeftMerge(sheets[i].rows, dict, keyCol, valCol), valCol)
  {
    MapAllSpec(sheets, (sh: Sheet) => JoinSheet(sh, dict, keyCol, valCol));
  }

  /** `g` is row j of `rows` with the value of an entry whose key the merge matches. */
  ghost predicate JoinedFrom(g: Row, rows: seq<Row>, dict: seq<Entry>, keyCol: string, valCol: string) {
    exists j, e :: 0 <= j < |rows| && e in dict && KeyEq(Get(rows[j], keyCol), e.key) && g == rows[j][valCol := e.value]
  }

  /** Every row of every grouped sheet is a row of its vote sheet joined with a matching
      dictionary entry. */
  lemma GroupedRows(sheets: seq<Sheet>, dict: seq<Entry>, keyCol: string, valCol: string)
    requires ValuesPresent(dict)
    requires JoinBook(sheets, dict, keyCol, valCol).Some?
    ensures |JoinBook(sheets, dict, keyCol, valCol).value| == |sheets|
    ensures forall i, k :: 0 <= i < |sheets| && 0 <= k < |JoinBook(sheets, dict, keyCol, valCol).value[i].rows| ==>
              JoinedFrom(JoinBook(sheets, dict, keyCol, valCol).value[i].rows[k], sheets[i].rows, dict, keyCol, valCol)
  {
    JoinBookSpec(sheets, dict, keyCol, valCol);
    var out := JoinBook(sheets, dict, keyCol, valCol).value;
    forall i, k | 0 <= i < |sheets| && 0 <= k < |out[i].rows|
      ensures JoinedFrom(out[i].rows[k], sheets[i].rows, dict, keyCol, valCol)
    {
      var rows := sheets[i].rows;
      MergeDropIsInnerJoin(rows, dict, keyCol, valCol);
      InnerJoinRows(rows, dict, keyCol, valCol);
      var o := Origins(rows, dict, keyCol);
      var u := Used(rows, dict, keyCol);
      assert KeyEq(Get(rows[o[k]], keyCol), u[k].key) && out[i].rows[k] == rows[o[k]][valCol := u[k].value];
    }
  }

  /** `g` is row j of the vote rows carrying the work code of a kept row of fun.xlsx whose key
      the merge matches with it. */
  ghost predicate WorkRowOf(g: Row, rows: seq<Row>, fun: seq<Row>, keyCol: string) {
    exists j, r :: 0 <= j < |rows| && r in fun && AboveFive(r) && KeyEq(Get(rows[j], keyCol), Get(r, keyCol))
                   && g == rows[j][WorkCol := AsFloat(Get(r, WorkCol))]
  }

  /** One region of TouhouVote.py: the workbook is processed exactly when fun.xlsx has no text
      work code and every sheet has the key column and no work column; then each grouped
      sheet keeps its name and holds vote rows carrying the work code, above 5, of a
      dictionary row with their key. */
  lemma WorkBookSpec(fun: seq<Row>, book: seq<Sheet>, keyCol: string)
    requires WorkDictionary(fun, keyCol).Some?
    ensures var out := JoinBook(book, WorkDictionary(fun, keyCol).value, keyCol, WorkCol);
      && (out.Some? <==> forall i :: 0 <= i < |book| ==> keyCol in book[i].columns && WorkCol !in book[i].columns)
      && (out.Some? ==>
            && |out.value| == |book|
            && forall i :: 0 <= i < |book| ==>
                 && out.value[i].name == book[i].name
                 && forall k :: 0 <= k < |out.value[i].rows| ==>
                      && WorkRowOf(out.value[i].rows[k], book[i].rows, fun, keyCol)
                      && Num(Get(out.value[i].rows[k], WorkCol)).Some? && Num(Get(out.value[i].rows[k], WorkCol)).value > 5.0)
  {
    var d := WorkDictionary(fun, keyCol).value;
    JoinBookSpec(book, d, keyCol, WorkCol);
    var out := JoinBook(book, d, keyCol, WorkCol);
    if out.Some? {
      WorkDictionarySpec(fun, keyCol);
      GroupedRows(book, d, keyCol, WorkCol);
      forall i, k | 0 <= i < |book| && 0 <= k < |out.value[i].rows|
        ensures WorkRowOf(out.value[i].rows[k], book[i].rows, fun, keyCol)
        ensures Num(Get(out.value[i].rows[k], WorkCol)).Some? && Num(Get(out.value[i].rows[k], WorkCol)).value > 5.0
      {
        WorkRowAt(fun, keyCol, out.value[i].rows[k], book[i].rows);
      }
    }
  }

  /** A row joined with an entry of TouhouVote.py's dictionary carries a kept row's code. */
  lemma WorkRowAt(fun: seq<Row>, keyCol: string, g: Row, rows: seq<Row>)
    requires WorkDictionary(fun, keyCol).Some?
    requires JoinedFrom(g, rows, WorkDictionary(fun, keyCol).value, keyCol, WorkCol)
    ensures WorkRowOf(g, rows, fun, keyCol)
    ensures Num(Get(g, WorkCol)).Some? && Num(Get(g, WorkCol)).value > 5.0
  {
    var d := WorkDictionary(fun, keyCol).value;
    var kept := WorkRows(fun).value;
    WorkRowsSpec(fun);
    WorkDictionarySpec(fun, keyCol);
    var j, e :| 0 <= j < |rows| && e in d && KeyEq(Get(rows[j], keyCol), e.key) && g == rows[j][WorkCol := e.value];
    var m :| 0 <= m < |d| && d[m] == e;
    assert kept[m] in kept;
    assert Get(g, WorkCol) == e.value;
  }

  /** TouhouVote.py: both grouped workbooks as WorkBookSpec states, the Chinese one written
      only after the Japanese one. */
  lemma VoteGroupingSpec(fun: seq<Row>, jpBook: seq<Sheet>, cnBook: seq<Sheet>)
    ensures var w := VoteGrouping(fun, jpBook, cnBook);
      && (w.jp.Some? <==> WorkRows(fun).Some? && JoinBook(jpBook, WorkDictionary(fun, JpNameCol).value, JpNameCol, WorkCol).Some?)
      && (w.cn.Some? <==> w.jp.Some? && JoinBook(cnBook, WorkDictionary(fun, CnNameCol).value, CnNameCol, WorkCol).Some?)
      && (w.jp.Some? ==> w.jp == JoinBook(jpBook, WorkDictionary(fun, JpNameCol).value, JpNameCol, WorkCol))
      && (w.cn.Some? ==> w.cn == JoinBook(cnBook, WorkDictionary(fun, CnNameCol).value, CnNameCol, WorkCol))
  {
    WorkDictionarySpec(fun, JpNameCol);
    WorkDictionarySpec(fun, CnNameCol);
  }

  /** `g` is row j of the vote rows carrying the 所属角色 of a row of TouhouMusicInfo.xlsx
      whose key the merge matches with it. */
  ghost predicate MusicRowOf(g: Row, rows: seq<Row>, info: seq<Row>, keyCol: string) {
    exists j, r :: 0 <= j < |rows| && r in info && !Get(r, CharCol).Missing? && KeyEq(Get(rows[j], keyCol), Get(r, keyCol))
                   && g == rows[j][CharCol := Get(r, CharCol)]
  }

  /** One region of TouhouVoteMusic.py: the workbook is processed exactly when every sheet has
      the key column and no 所属角色 column; then each grouped sheet keeps its name and holds
      vote rows carrying the present 所属角色 of an information row with their key. */
  lemma MusicBookSpec(info: seq<Row>, book: seq<Sheet>, keyCol: string)
    ensures var out := JoinBook(book, MusicDictionary(info, keyCol), keyCol, CharCol);
      && (out.Some? <==> forall i :: 0 <= i < |book| ==> keyCol in book[i].columns && CharCol !in book[i].columns)
      && (out.Some? ==>
            && |out.value| == |book|
            && forall i :: 0 <= i < |book| ==>
                 && out.value[i].name == book[i].name
                 && forall k :: 0 <= k < |out.value[i].rows| ==>
                      && MusicRowOf(out.value[i].rows[k], book[i].rows, info, keyCol)
                      && !Get(out.value[i].rows[k], CharCol).Missing?)
  {
    var d := MusicDictionary(info, keyCol);
    MusicDictionarySpec(info, keyCol);
    JoinBookSpec(book, d, keyCol, CharCol);
    var out := JoinBook(book, d, keyCol, CharCol);
    if out.Some? {
      GroupedRows(book, d, keyCol, CharCol);
      forall i, k | 0 <= i < |book| && 0 <= k < |out.value[i].rows|
        ensures MusicRowOf(out.value[i].rows[k], book[i].rows, info, keyCol) && !Get(out.value[i].rows[k], CharCol).Missing?
      {
        var g := out.value[i].rows[k];
        var rows := book[i].rows;
        var j, e :| 0 <= j < |rows| && e in d && KeyEq(Get(rows[j], keyCol), e.key) && g == rows[j][CharCol := e.value];
        var r :| r in info && !Get(r, CharCol).Missing? && e == Entry(Get(r, keyCol), Get(r, CharCol));
        assert Get(g, CharCol) == e.value;
      }
    }
  }
}
