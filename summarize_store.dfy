/** SummarizeAllData.py as the script runs it: one store whose parts the loading passes update
    in place, sheet by sheet and row by row. Each method is proved to leave the store exactly
    as the corresponding function of Summarize describes. */
module SummarizeStore {
  import opened Wrappers
  import opened Strings
  import opened Seqs
  import opened Sorting
  import opened Sheets
  import opened ODicts
  import opened Summarize

  /** The module-level `data` dict of the script. */
  class Store {
    var missingGender: seq<string>
    var jpSessions: seq<string>
    var cnSessions: seq<string>
    var characters: ODict<CharRec>
    var songs: ODict<SongRec>
    var gender: ODict<Gender>
    var byWork: ODict<seq<string>>
    var bySession: ODict<SessionIndex>

    /** The store's current contents as a value. */
    function Snapshot(): Data
      reads this
    {
      Data(missingGender, jpSessions, cnSessions, characters, songs, gender, byWork, bySession)
    }

    constructor ()
      ensures Snapshot() == Initial
    {
      missingGender := MissingGender;
      jpSessions, cnSessions := [], [];
      characters, songs, gender, byWork, bySession := Empty(), Empty(), Empty(), Empty(), Empty();
    }

    // -------------------------------------------------------------------------------------
    // Character passes

    /** The update of a named character row. */
    method AddNamedChar(sess: string, tr: string, created: CharRec, stats: Stats)
      modifies this
      ensures Snapshot() == CharRowWith(old(Snapshot()), sess, tr, created, stats)
    {
      if tr !in characters.m {
        characters := characters.Put(tr, created);
        if created.firstAppear.Some? && created.firstAppear.value != "" {
          byWork := AddToWork(byWork, created.firstAppear.value, tr);
        }
      }
      var rec := characters.m[tr];
      characters := characters.Put(tr, rec.(sessions := rec.sessions.Put(sess, stats)));
      var idx := bySession.GetOr(sess, NoIndex);
      bySession := bySession.Put(sess, idx.(chars := idx.chars + [tr]));
    }

    /** The body of the row loop of SummarizeAllData.py:59-79 (JP) and 99-119 (CN). */
    method AddCharRow(rg: Region, sess: string, r: Row)
      modifies this
      ensures Snapshot() == CharRow(rg, old(Snapshot()), sess, r)
    {
      var name := StrippedText(Get(r, "译名"));
      if name.None? {
        return;
      }
      AddNamedChar(sess, name.value, NewChar(rg, name.value, r), StatsOf(CharSchema(rg), r));
    }

    /** One grouped character sheet. */
    method LoadCharSheet(rg: Region, sh: Sheet)
      modifies this
      ensures Snapshot() == CharSheet(rg, old(Snapshot()), sh)
    {
      var sess := ParseSession(sh.name, Suffix(rg));
      if rg == Jp {
        jpSessions := jpSessions + [sess];
        bySession := bySession.Put(sess, NoIndex.(extraWorks := Some([])));
      } else {
        cnSessions := cnSessions + [sess];
        bySession := bySession.Put(sess, NoIndex);
      }
      ghost var start := Snapshot();
      assert start == CharSheetStart(rg, old(Snapshot()), sess);
      var j := 0;
      while j < |sh.rows|
        invariant 0 <= j <= |sh.rows|
        invariant Snapshot() == CharRows(rg, start, sess, sh.rows[..j])
      {
        AddCharRow(rg, sess, sh.rows[j]);
        CharRowsStep(rg, start, sess, sh.rows, j);
        j := j + 1;
      }
      assert sh.rows[..j] == sh.rows;
      if rg == Jp {
        var extra := FirstParenGroup(sh.name);
        if extra.Some? {
          var idx := bySession.GetOr(sess, NoIndex);
          bySession := bySession.Put(sess, idx.(extraWorks := Some(Split(extra.value, '、'))));
        }
      }
    }

    /** The loop over the sheets of a grouped character workbook. */
    method LoadCharSheets(rg: Region, sheets: seq<Sheet>)
      modifies this
      ensures Snapshot() == CharSheets(rg, old(Snapshot()), sheets)
    {
      var i := 0;
      while i < |sheets|
        invariant 0 <= i <= |sheets|
        invariant Snapshot() == CharSheets(rg, old(Snapshot()), sheets[..i])
      {
        LoadCharSheet(rg, sheets[i]);
        CharSheetsStep(rg, old(Snapshot()), sheets, i);
        i := i + 1;
      }
      assert sheets[..i] == sheets;
    }

    // -------------------------------------------------------------------------------------
    // Song passes

    /** The update of a named song row. */
    method AddNamedSong(sess: string, st: string, created: SongRec, roles: seq<string>, stats: Stats)
      modifies this
      ensures Snapshot() == SongRowWith(old(Snapshot()), sess, st, created, roles, stats)
    {
      if st !in songs.m {
        songs := songs.Put(st, created);
      }
      var rec := songs.m[st];
      rec := rec.(chars := AppendNew(rec.chars, roles));
      rec := rec.(sessions := rec.sessions.Put(sess, stats));
      songs := songs.Put(st, rec);
      var idx := bySession.GetOr(sess, NoIndex);
      bySession := bySession.Put(sess, idx.(songs := idx.songs + [st]));
    }

    /** The body of the row loop of SummarizeAllData.py:136-154 (JP) and 171-199 (CN). */
    method AddSongRow(rg: Region, sess: string, r: Row)
      modifies this
      ensures Snapshot() == SongRow(rg, old(Snapshot()), sess, r)
    {
      var name := StrippedText(Get(r, "译名"));
      if name.None? {
        return;
      }
      AddNamedSong(sess, name.value, NewSong(rg, name.value, r), Roles(Get(r, "所属角色")), StatsOf(SongSchema(rg), r));
    }

    method LoadSongSheet(rg: Region, sh: Sheet)
      modifies this
      ensures Snapshot() == SongSheet(rg, old(Snapshot()), sh)
    {
      var sess := ParseSession(sh.name, Suffix(rg));
      if sess !in bySession.m {
        bySession := bySession.Put(sess, NoIndex);
      }
      ghost var start := Snapshot();
      var j := 0;
      while j < |sh.rows|
        invariant 0 <= j <= |sh.rows|
        invariant Snapshot() == SongRows(rg, start, sess, sh.rows[..j])
      {
        AddSongRow(rg, sess, sh.rows[j]);
        SongRowsStep(rg, start, sess, sh.rows, j);
        j := j + 1;
      }
      assert sh.rows[..j] == sh.rows;
    }

    method LoadSongSheets(rg: Region, sheets: seq<Sheet>)
      modifies this
      ensures Snapshot() == SongSheets(rg, old(Snapshot()), sheets)
    {
      var i := 0;
      while i < |sheets|
        invariant 0 <= i <= |sheets|
        invariant Snapshot() == SongSheets(rg, old(Snapshot()), sheets[..i])
      {
        LoadSongSheet(rg, sheets[i]);
        SongSheetsStep(rg, old(Snapshot()), sheets, i);
        i := i + 1;
      }
      assert sheets[..i] == sheets;
    }

    // -------------------------------------------------------------------------------------
    // Totals, gender, keywords, sort

    /** One sheet of a total-vote pass: a registered session gets the vote sum of the sheet,
        and a missing column or index entry is the script's KeyError (`ok` false). */
    method LoadTotal(rg: Region, k: Kind, sh: Sheet) returns (ok: bool)
      modifies this
      ensures ok <==> TotalsSheet(rg, k, old(Snapshot()), sh).Some?
      ensures ok ==> Snapshot() == TotalsSheet(rg, k, old(Snapshot()), sh).value
    {
      var sess := ParseSession(sh.name, Suffix(rg));
      var col := TotalColumn(rg, k);
      var registered := if k == Chars then sess in (if rg == Jp then jpSessions else cnSessions)
                        else sess in bySession.m;
      if registered {
        if col !in sh.columns || sess !in bySession.m {
          return false;
        }
        bySession := bySession.Put(sess, SetTotal(k, bySession.m[sess], VoteSum(sh.rows, col)));
      }
      return true;
    }

    /** The loop of a total-vote pass; `ok` is false where the script stops with KeyError,
        and the store is then left as the script leaves it, partly updated. */
    method LoadTotals(rg: Region, k: Kind, sheets: seq<Sheet>) returns (ok: bool)
      modifies this
      ensures ok <==> TotalsSheets(rg, k, old(Snapshot()), sheets).Some?
      ensures ok ==> Snapshot() == TotalsSheets(rg, k, old(Snapshot()), sheets).value
    {
      ghost var d0 := Snapshot();
      var i := 0;
      while i < |sheets|
        invariant 0 <= i <= |sheets|
        invariant TotalsSheets(rg, k, d0, sheets[..i]) == Some(Snapshot())
      {
        ghost var before := Snapshot();
        TotalsStep(rg, k, d0, sheets, i, before);
        ok := LoadTotal(rg, k, sheets[i]);
        if !ok {
          TotalsStaysFailed(rg, k, d0, sheets, i + 1);
          return false;
        }
        i := i + 1;
      }
      assert sheets[..i] == sheets;
      return true;
    }

    /** One sheet of the gender pass. */
    method LoadGenderSheet(sh: Sheet) returns (ok: bool)
      modifies this
      ensures ok <==> GenderSheet(old(Snapshot()), sh).Some?
      ensures ok ==> Snapshot() == GenderSheet(old(Snapshot()), sh).value
    {
      if "性别" !in sh.columns || "票数" !in sh.columns {
        return false;
      }
      var g := Gender(Bucket(sh.rows, "男性"), Bucket(sh.rows, "女性"), Bucket(sh.rows, "其他"));
      gender := gender.Put(ParseSession(sh.name, "jp"), g);
      return true;
    }

    method LoadGender(sheets: seq<Sheet>) returns (ok: bool)
      modifies this
      ensures ok <==> GenderSheets(old(Snapshot()), sheets).Some?
      ensures ok ==> Snapshot() == GenderSheets(old(Snapshot()), sheets).value
    {
      ghost var d0 := Snapshot();
      var i := 0;
      while i < |sheets|
        invariant 0 <= i <= |sheets|
        invariant GenderSheets(d0, sheets[..i]) == Some(Snapshot())
      {
        ghost var before := Snapshot();
        GenderStep(d0, sheets, i, before);
        ok := LoadGenderSheet(sheets[i]);
        if !ok {
          GenderStaysFailed(d0, sheets, i + 1);
          return false;
        }
        i := i + 1;
      }
      assert sheets[..i] == sheets;
      return true;
    }

    /** The body of the keyword loop: a row with a name and keywords sets the keywords of
        that character, creating a bare record for a name not seen before. */
    method AddTagRow(r: Row)
      modifies this
      ensures Snapshot() == TagRow(old(Snapshot()), r)
    {
      var name := StrippedText(Get(r, "译名"));
      var kw := Get(r, "keywords");
      if name.Some? && !kw.Missing? {
        var tr := name.value;
        var keywords := SplitKeywords(PyStr(kw));
        if tr in characters.m {
          characters := characters.Put(tr, characters.m[tr].(keywords := keywords));
        } else {
          characters := characters.Put(tr, CharRec(CharId(tr), None, None, keywords, Empty()));
        }
        assert Snapshot() == TagRowWith(old(Snapshot()), tr, keywords);
      }
    }

    /** The keyword pass; `ok` is false for a workbook without sheets. */
    method LoadTags(sheets: seq<Sheet>) returns (ok: bool)
      modifies this
      ensures ok <==> TagPass(old(Snapshot()), sheets).Some?
      ensures ok ==> Snapshot() == TagPass(old(Snapshot()), sheets).value
    {
      if |sheets| == 0 {
        return false;
      }
      ghost var d0 := Snapshot();
      var rows := sheets[0].rows;
      var j := 0;
      while j < |rows|
        invariant 0 <= j <= |rows|
        invariant Snapshot() == TagRows(d0, rows[..j])
      {
        AddTagRow(rows[j]);
        TagRowsStep(d0, rows, j);
        j := j + 1;
      }
      assert rows[..j] == rows;
      return true;
    }

    /** The two in-place sorts; `ok` is false where a key raises ValueError. */
    method SortSessionLists() returns (ok: bool)
      modifies this
      ensures ok <==> SortPass(old(Snapshot())).Some?
      ensures ok ==> Snapshot() == SortPass(old(Snapshot())).value
    {
      var jp := SortSessions(jpSessions);
      if jp.None? {
        return false;
      }
      jpSessions := jp.value;
      var cn := SortSessions(cnSessions);
      if cn.None? {
        return false;
      }
      cnSessions := cn.value;
      return true;
    }
  }

  lemma CharRowsStep(rg: Region, d: Data, sess: string, rows: seq<Row>, j: nat)
    requires j < |rows|
    ensures CharRows(rg, d, sess, rows[..j + 1]) == CharRow(rg, CharRows(rg, d, sess, rows[..j]), sess, rows[j])
  {
    assert rows[..j + 1][..j] == rows[..j];
  }

  lemma CharSheetsStep(rg: Region, d: Data, sheets: seq<Sheet>, i: nat)
    requires i < |sheets|
    ensures CharSheets(rg, d, sheets[..i + 1]) == CharSheet(rg, CharSheets(rg, d, sheets[..i]), sheets[i])
  {
    assert sheets[..i + 1][..i] == sheets[..i];
  }

  lemma SongRowsStep(rg: Region, d: Data, sess: string, rows: seq<Row>, j: nat)
    requires j < |rows|
    ensures SongRows(rg, d, sess, rows[..j + 1]) == SongRow(rg, SongRows(rg, d, sess, rows[..j]), sess, rows[j])
  {
    assert rows[..j + 1][..j] == rows[..j];
  }

  lemma SongSheetsStep(rg: Region, d: Data, sheets: seq<Sheet>, i: nat)
    requires i < |sheets|
    ensures SongSheets(rg, d, sheets[..i + 1]) == SongSheet(rg, SongSheets(rg, d, sheets[..i]), sheets[i])
  {
    assert sheets[..i + 1][..i] == sheets[..i];
  }

  lemma TagRowsStep(d: Data, rows: seq<Row>, j: nat)
    requires j < |rows|
    ensures TagRows(d, rows[..j + 1]) == TagRow(TagRows(d, rows[..j]), rows[j])
  {
    assert rows[..j + 1][..j] == rows[..j];
  }

  lemma TotalsStep(rg: Region, k: Kind, d: Data, sheets: seq<Sheet>, i: nat, di: Data)
    requires i < |sheets| && TotalsSheets(rg, k, d, sheets[..i]) == Some(di)
    ensures TotalsSheets(rg, k, d, sheets[..i + 1]) == TotalsSheet(rg, k, di, sheets[i])
  {
    assert sheets[..i + 1][..i] == sheets[..i];
  }

  lemma GenderStep(d: Data, sheets: seq<Sheet>, i: nat, di: Data)
    requires i < |sheets| && GenderSheets(d, sheets[..i]) == Some(di)
    ensures GenderSheets(d, sheets[..i + 1]) == GenderSheet(di, sheets[i])
  {
    assert sheets[..i + 1][..i] == sheets[..i];
  }

  lemma TotalsFailStep(rg: Region, k: Kind, d: Data, sheets: seq<Sheet>, n: nat)
    requires n < |sheets| && TotalsSheets(rg, k, d, sheets[..n]).None?
    ensures TotalsSheets(rg, k, d, sheets[..n + 1]).None?
  {
    assert sheets[..n + 1][..n] == sheets[..n];
  }

  /** Once a total-vote pass has stopped it stays stopped. */
  lemma {:induction false} TotalsStaysFailed(rg: Region, k: Kind, d: Data, sheets: seq<Sheet>, n: nat)
    requires n <= |sheets| && TotalsSheets(rg, k, d, sheets[..n]).None?
    ensures TotalsSheets(rg, k, d, sheets).None?
    decreases |sheets| - n
  {
    if n == |sheets| {
      assert sheets[..n] == sheets;
    } else {
      TotalsFailStep(rg, k, d, sheets, n);
      TotalsStaysFailed(rg, k, d, sheets, n + 1);
    }
  }

  lemma GenderFailStep(d: Data, sheets: seq<Sheet>, n: nat)
    requires n < |sheets| && GenderSheets(d, sheets[..n]).None?
    ensures GenderSheets(d, sheets[..n + 1]).None?
  {
    assert sheets[..n + 1][..n] == sheets[..n];
  }

  lemma {:induction false} GenderStaysFailed(d: Data, sheets: seq<Sheet>, n: nat)
    requires n <= |sheets| && GenderSheets(d, sheets[..n]).None?
    ensures GenderSheets(d, sheets).None?
    decreases |sheets| - n
  {
    if n == |sheets| {
      assert sheets[..n] == sheets;
    } else {
      GenderFailStep(d, sheets, n);
      GenderStaysFailed(d, sheets, n + 1);
    }
  }

  /** The whole script: every pass in order; None where it stops before writing the JSON. */
  method Run(w: Workbooks) returns (out: Option<Data>)
    ensures out == Summary(w)
  {
    var s := new Store();
    s.LoadCharSheets(Jp, w.jpGrouped);
    var ok := s.LoadTotals(Jp, Chars, w.jpFull);
    if !ok { return None; }
    s.LoadCharSheets(Cn, w.cnGrouped);
    ok := s.LoadTotals(Cn, Chars, w.cnFull);
    if !ok { return None; }
    s.LoadSongSheets(Jp, w.musicJpGrouped);
    ok := s.LoadTotals(Jp, Songs, w.musicJpFull);
    if !ok { return None; }
    s.LoadSongSheets(Cn, w.musicCnGrouped);
    ok := s.LoadTotals(Cn, Songs, w.musicCnFull);
    if !ok { return None; }
    ok := s.LoadGender(w.genderInfo);
    if !ok { return None; }
    ok := s.LoadTags(w.tags);
    if !ok { return None; }
    ok := s.SortSessionLists();
    if !ok { return None; }
    return Some(s.Snapshot());
  }
}
