/** What SummarizeAllData.py promises about the store it builds, proved over the pass functions
    of Summarize: session keys and their ordinals, character ids, first-wins creation of
    character and song records, duplicate-free song casts, the total-vote and gender passes,
    the keyword pass, the session sort, and the invariants every pass keeps up to the JSON. */
module SummarizeProps {
  import opened Wrappers
  import opened Strings
  import opened Seqs
  import opened Sorting
  import opened Sheets
  import opened ODicts
  import opened Summarize

  // ---------------------------------------------------------------------------------------
  // Session keys and character ids

  /** A sheet name that starts with a digit run gives a session whose sort key is the value of
      that run, whatever follows it in the sheet name. */
  lemma SessionOrdinalOfDigits(name: string, sfx: string)
    requires LeadingDigits(name) != ""
    ensures SessionOrdinal(ParseSession(name, sfx)) == Some(DigitsValue(LeadingDigits(name)) as int)
  {
    var m := LeadingDigits(name);
    assert ParseSession(name, sfx) == m + ['_'] + sfx;
    assert '_' !in m by {
      forall i | 0 <= i < |m| ensures m[i] != '_' {
        assert IsDecimal(m[i]);
      }
    }
    SplitHead(m, '_', sfx);
    ParseIntOfDigits(m);
  }

  /** An id is already in id form: cleaning it again changes nothing. */
  lemma CharIdIdempotent(tr: string)
    ensures CharId(CharId(tr)) == CharId(tr)
  {
    var id := CharId(tr);
    RemoveNonWordOfWord(id);
    LowerOfNonUpper(id);
  }

  // ---------------------------------------------------------------------------------------
  // Invariants of the store

  /** Every character's id is the id of its name. */
  ghost predicate IdsMatch(d: Data) {
    forall k :: k in d.characters.m ==> d.characters.m[k].id == CharId(k)
  }

  /** Every name listed under a work in `by_work` is a character whose first work is that
      work. */
  ghost predicate WorksSound(d: Data) {
    forall w, i :: w in d.byWork.m && 0 <= i < |d.byWork.m[w]| ==>
      d.byWork.m[w][i] in d.characters.m && d.characters.m[d.byWork.m[w][i]].firstAppear == Some(w)
  }

  /** No name is listed twice under a work. */
  ghost predicate WorksUnique(d: Data) {
    forall w :: w in d.byWork.m ==> NoDup(d.byWork.m[w])
  }

  /** No song lists a character twice. */
  ghost predicate SongCharsUnique(d: Data) {
    forall s :: s in d.songs.m ==> NoDup(d.songs.m[s].chars)
  }

  /** Every listed session has an index entry. */
  ghost predicate SessionsIndexed(d: Data) {
    && (forall s :: s in d.jpSessions ==> s in d.bySession.m)
    && (forall s :: s in d.cnSessions ==> s in d.bySession.m)
  }

  ghost predicate Inv(d: Data) {
    IdsMatch(d) && WorksSound(d) && WorksUnique(d) && SongCharsUnique(d) && SessionsIndexed(d)
  }

  lemma InitialInv()
    ensures Inv(Initial)
  {
  }

  // ---------------------------------------------------------------------------------------
  // First-wins records

  /** The parts of a character record fixed when the record is created. */
  predicate SameIdentity(a: CharRec, b: CharRec) {
    a.id == b.id && a.jpName == b.jpName && a.firstAppear == b.firstAppear
  }

  /** Every character of `d` is still in `e` with the same identity and keywords. */
  ghost predicate KeepsRecords(d: Data, e: Data) {
    forall k :: k in d.characters.m ==>
      k in e.characters.m && SameIdentity(d.characters.m[k], e.characters.m[k])
      && e.characters.m[k].keywords == d.characters.m[k].keywords
  }

  /** Every character of `d` is still in `e` with the same identity and statistics. */
  ghost predicate KeepsIdentity(d: Data, e: Data) {
    forall k :: k in d.characters.m ==>
      k in e.characters.m && SameIdentity(d.characters.m[k], e.characters.m[k])
  }

  /** Every song of `d` is still in `e` with the same titles, its character list extended at
      the end only. */
  ghost predicate KeepsSongs(d: Data, e: Data) {
    forall s :: s in d.songs.m ==>
      && s in e.songs.m
      && e.songs.m[s].t == d.songs.m[s].t && e.songs.m[s].trT == d.songs.m[s].trT
      && |d.songs.m[s].chars| <= |e.songs.m[s].chars|
      && e.songs.m[s].chars[..|d.songs.m[s].chars|] == d.songs.m[s].chars
  }

  /** A character first created in `e` carries no keywords, and no Japanese name when the pass
      is the CN one. */
  ghost predicate NewCharsBare(rg: Region, d: Data, e: Data) {
    forall k :: k in e.characters.m && k !in d.characters.m ==>
      e.characters.m[k].keywords == [] && (rg == Cn ==> e.characters.m[k].jpName == None)
  }

  // ---------------------------------------------------------------------------------------
  // Character passes

  /** The update of a named character row keeps the identity and keywords of every known
      character; the only character it can create is `tr`, with the record `created`. */
  lemma CharWithKeeps(d: Data, sess: string, tr: string, created: CharRec, stats: Stats)
    ensures var e := CharRowWith(d, sess, tr, created, stats);
      && KeepsRecords(d, e)
      && tr in e.characters.m
      && (forall k :: k in e.characters.m && k !in d.characters.m ==>
            k == tr && SameIdentity(e.characters.m[k], created) && e.characters.m[k].keywords == created.keywords)
  {
  }

  /** `by_work` changes only when the name is new and its first work is non-empty, and then by
      listing the name under that work. */
  lemma CharWithWorks(d: Data, sess: string, tr: string, created: CharRec, stats: Stats)
    ensures var e := CharRowWith(d, sess, tr, created, stats);
      var fa := created.firstAppear;
      && (tr in d.characters.m || fa.None? || fa == Some("") ==> e.byWork == d.byWork)
      && (tr !in d.characters.m && fa.Some? && fa.value != "" ==> e.byWork == AddToWork(d.byWork, fa.value, tr))
  {
  }

  /** The update of a named character row touches neither songs, gender nor the session lists,
      and adds exactly its own session to the index. */
  lemma CharWithFrame(d: Data, sess: string, tr: string, created: CharRec, stats: Stats)
    ensures var e := CharRowWith(d, sess, tr, created, stats);
      && e.songs == d.songs && e.gender == d.gender
      && e.jpSessions == d.jpSessions && e.cnSessions == d.cnSessions
      && e.bySession.m.Keys == d.bySession.m.Keys + {sess}
  {
  }

  /** A grouped character row keeps the identity and keywords of every known character, and a
      character it creates has no keywords, and no Japanese name in the CN pass. */
  lemma CharRowFirstWins(rg: Region, d: Data, sess: string, r: Row)
    ensures KeepsRecords(d, CharRow(rg, d, sess, r)) && NewCharsBare(rg, d, CharRow(rg, d, sess, r))
  {
    match StrippedText(Get(r, "译名"))
    case None =>
    case Some(tr) =>
      CharWithKeeps(d, sess, tr, NewChar(rg, tr, r), StatsOf(CharSchema(rg), r));
  }

  /** A row without a name changes nothing; otherwise a new character is the row's stripped
      name, with the id of that name and the row's first work. */
  lemma CharRowCreates(rg: Region, d: Data, sess: string, r: Row)
    ensures var e := CharRow(rg, d, sess, r);
      && (Get(r, "译名").Missing? ==> e == d)
      && (forall k :: k in e.characters.m && k !in d.characters.m ==>
            && k == Strip(PyStr(Get(r, "译名")))
            && e.characters.m[k].id == CharId(k)
            && e.characters.m[k].firstAppear == CleanStr(Get(r, "首次出现作品")))
  {
    match StrippedText(Get(r, "译名"))
    case None =>
    case Some(tr) =>
      CharWithKeeps(d, sess, tr, NewChar(rg, tr, r), StatsOf(CharSchema(rg), r));
  }

  /** `by_work` changes only when a row creates a character with a non-empty first work. */
  lemma CharRowWorks(rg: Region, d: Data, sess: string, r: Row)
    ensures var e := CharRow(rg, d, sess, r);
      && (!Get(r, "译名").Missing? && Strip(PyStr(Get(r, "译名"))) in d.characters.m ==> e.byWork == d.byWork)
      && (CleanStr(Get(r, "首次出现作品")) in {None, Some("")} ==> e.byWork == d.byWork)
  {
    match StrippedText(Get(r, "译名"))
    case None =>
    case Some(tr) =>
      CharWithWorks(d, sess, tr, NewChar(rg, tr, r), StatsOf(CharSchema(rg), r));
  }

  /** A grouped character row touches neither songs, gender, nor the session lists, and adds
      at most its own session to the index. */
  lemma CharRowFrame(rg: Region, d: Data, sess: string, r: Row)
    ensures var e := CharRow(rg, d, sess, r);
      && e.songs == d.songs && e.gender == d.gender
      && e.jpSessions == d.jpSessions && e.cnSessions == d.cnSessions
      && (e == d || e.bySession.m.Keys == d.bySession.m.Keys + {sess})
  {
    match StrippedText(Get(r, "译名"))
    case None =>
    case Some(tr) =>
      CharWithFrame(d, sess, tr, NewChar(rg, tr, r), StatsOf(CharSchema(rg), r));
  }

  /** `by_work` stays sound when it is unchanged and every character keeps its first work. */
  lemma WorksStable(d: Data, e: Data)
    requires WorksSound(d) && WorksUnique(d) && e.byWork == d.byWork && KeepsIdentity(d, e)
    ensures WorksSound(e) && WorksUnique(e)
  {
  }

  /** `by_work` stays sound when a character new to the store is listed under its own first
      work. */
  lemma WorksAppend(d: Data, e: Data, tr: string, w: string)
    requires WorksSound(d) && WorksUnique(d) && KeepsIdentity(d, e)
    requires tr !in d.characters.m && tr in e.characters.m && e.characters.m[tr].firstAppear == Some(w)
    requires e.byWork == AddToWork(d.byWork, w, tr)
    ensures WorksSound(e) && WorksUnique(e)
  {
    var l := d.byWork.GetOr(w, []);
    assert tr !in l by {
      forall i | 0 <= i < |l| ensures l[i] != tr {
        assert w in d.byWork.m;
        assert l[i] == d.byWork.m[w][i];
      }
    }
    assert e.byWork.m[w] == l + [tr];
    forall v, i | v in e.byWork.m && 0 <= i < |e.byWork.m[v]|
      ensures e.byWork.m[v][i] in e.characters.m && e.characters.m[e.byWork.m[v][i]].firstAppear == Some(v)
    {
      if v == w && i == |l| {
      } else {
        assert e.byWork.m[v][i] == d.byWork.m[v][i];
      }
    }
  }

  lemma CharWithInv(d: Data, sess: string, tr: string, created: CharRec, stats: Stats)
    requires Inv(d) && created.id == CharId(tr)
    ensures Inv(CharRowWith(d, sess, tr, created, stats))
  {
    var e := CharRowWith(d, sess, tr, created, stats);
    CharWithKeeps(d, sess, tr, created, stats);
    CharWithWorks(d, sess, tr, created, stats);
    CharWithFrame(d, sess, tr, created, stats);
    assert KeepsIdentity(d, e);
    var fa := created.firstAppear;
    if tr !in d.characters.m && fa.Some? && fa.value != "" {
      WorksAppend(d, e, tr, fa.value);
    } else {
      WorksStable(d, e);
    }
  }

  lemma CharRowInv(rg: Region, d: Data, sess: string, r: Row)
    requires Inv(d)
    ensures Inv(CharRow(rg, d, sess, r))
  {
    match StrippedText(Get(r, "译名"))
    case None =>
    case Some(tr) =>
      CharWithInv(d, sess, tr, NewChar(rg, tr, r), StatsOf(CharSchema(rg), r));
  }

  lemma {:induction false} CharRowsProps(rg: Region, d: Data, sess: string, rows: seq<Row>)
    requires Inv(d) && sess in d.bySession.m
    ensures var e := CharRows(rg, d, sess, rows);
      Inv(e) && sess in e.bySession.m && KeepsRecords(d, e) && NewCharsBare(rg, d, e)
      && e.songs == d.songs && e.gender == d.gender
      && e.jpSessions == d.jpSessions && e.cnSessions == d.cnSessions
    decreases |rows|
  {
    if |rows| > 0 {
      var m := CharRows(rg, d, sess, rows[..|rows| - 1]);
      CharRowsProps(rg, d, sess, rows[..|rows| - 1]);
      CharRowInv(rg, m, sess, rows[|rows| - 1]);
      CharRowFirstWins(rg, m, sess, rows[|rows| - 1]);
      CharRowFrame(rg, m, sess, rows[|rows| - 1]);
    }
  }

  lemma CharSheetProps(rg: Region, d: Data, sh: Sheet)
    requires Inv(d)
    ensures var e := CharSheet(rg, d, sh);
      && Inv(e) && KeepsRecords(d, e) && NewCharsBare(rg, d, e)
      && e.songs == d.songs && e.gender == d.gender
      && (rg == Jp ==> e.jpSessions == d.jpSessions + [ParseSession(sh.name, "jp")] && e.cnSessions == d.cnSessions)
      && (rg == Cn ==> e.cnSessions == d.cnSessions + [ParseSession(sh.name, "cn")] && e.jpSessions == d.jpSessions)
  {
    var sess := ParseSession(sh.name, Suffix(rg));
    var s0 := CharSheetStart(rg, d, sess);
    assert Inv(s0);
    CharRowsProps(rg, s0, sess, sh.rows);
  }

  lemma {:induction false} CharSheetsProps(rg: Region, d: Data, sheets: seq<Sheet>)
    requires Inv(d)
    ensures var e := CharSheets(rg, d, sheets);
      Inv(e) && KeepsRecords(d, e) && NewCharsBare(rg, d, e) && e.songs == d.songs && e.gender == d.gender
    decreases |sheets|
  {
    if |sheets| > 0 {
      var m := CharSheets(rg, d, sheets[..|sheets| - 1]);
      CharSheetsProps(rg, d, sheets[..|sheets| - 1]);
      CharSheetProps(rg, m, sheets[|sheets| - 1]);
    }
  }

  // ---------------------------------------------------------------------------------------
  // Song passes

  /** The update of a named song row keeps the titles of every known song and extends its
      cast at the end only, by nothing when there are no roles. */
  lemma SongWithKeeps(d: Data, sess: string, st: string, created: SongRec, roles: seq<string>, stats: Stats)
    ensures KeepsSongs(d, SongRowWith(d, sess, st, created, roles, stats))
    ensures roles == [] ==>
      forall s :: s in d.songs.m ==> SongRowWith(d, sess, st, created, roles, stats).songs.m[s].chars == d.songs.m[s].chars
  {
    var e := SongRowWith(d, sess, st, created, roles, stats);
    forall s | s in d.songs.m
      ensures s in e.songs.m && e.songs.m[s].t == d.songs.m[s].t && e.songs.m[s].trT == d.songs.m[s].trT
      ensures |d.songs.m[s].chars| <= |e.songs.m[s].chars|
      ensures e.songs.m[s].chars[..|d.songs.m[s].chars|] == d.songs.m[s].chars
      ensures roles == [] ==> e.songs.m[s].chars == d.songs.m[s].chars
    {
      if s == st {
        assert e.songs.m[s].chars == AppendNew(d.songs.m[s].chars, roles);
      } else {
        assert e.songs.m[s] == d.songs.m[s];
      }
    }
  }

  /** The update of a named song row touches neither characters, `by_work`, gender nor the
      session lists, removes no index entry, and keeps every cast duplicate-free when the new
      record's is. */
  lemma SongWithFrame(d: Data, sess: string, st: string, created: SongRec, roles: seq<string>, stats: Stats)
    ensures var e := SongRowWith(d, sess, st, created, roles, stats);
      && e.characters == d.characters && e.byWork == d.byWork && e.gender == d.gender
      && e.jpSessions == d.jpSessions && e.cnSessions == d.cnSessions
      && d.bySession.m.Keys <= e.bySession.m.Keys
      && (SongCharsUnique(d) && NoDup(created.chars) ==> SongCharsUnique(e))
  {
  }

  /** A grouped song row keeps the titles of every known song and extends its cast at the end
      only. */
  lemma SongRowFirstWins(rg: Region, d: Data, sess: string, r: Row)
    ensures KeepsSongs(d, SongRow(rg, d, sess, r))
  {
    match StrippedText(Get(r, "译名"))
    case None =>
    case Some(st) =>
      SongWithKeeps(d, sess, st, NewSong(rg, st, r), Roles(Get(r, "所属角色")), StatsOf(SongSchema(rg), r));
  }

  /** A row without 所属角色 leaves the cast of every song as it was. */
  lemma SongRowNoRoles(rg: Region, d: Data, sess: string, r: Row)
    requires Get(r, "所属角色").Missing?
    ensures forall s :: s in d.songs.m ==> SongRow(rg, d, sess, r).songs.m[s].chars == d.songs.m[s].chars
  {
    match StrippedText(Get(r, "译名"))
    case None =>
    case Some(st) =>
      SongWithKeeps(d, sess, st, NewSong(rg, st, r), Roles(Get(r, "所属角色")), StatsOf(SongSchema(rg), r));
  }

  /** A grouped song row touches neither characters, `by_work`, gender nor the session lists,
      removes no index entry, and a row without a name changes nothing. */
  lemma SongRowFrame(rg: Region, d: Data, sess: string, r: Row)
    ensures var e := SongRow(rg, d, sess, r);
      && e.characters == d.characters && e.byWork == d.byWork && e.gender == d.gender
      && e.jpSessions == d.jpSessions && e.cnSessions == d.cnSessions
      && (Get(r, "译名").Missing? ==> e == d)
      && d.bySession.m.Keys <= e.bySession.m.Keys
  {
    match StrippedText(Get(r, "译名"))
    case None =>
    case Some(st) =>
      SongWithFrame(d, sess, st, NewSong(rg, st, r), Roles(Get(r, "所属角色")), StatsOf(SongSchema(rg), r));
  }

  lemma SongRowInv(rg: Region, d: Data, sess: string, r: Row)
    requires Inv(d)
    ensures Inv(SongRow(rg, d, sess, r))
  {
    match StrippedText(Get(r, "译名"))
    case None =>
    case Some(st) =>
      SongWithFrame(d, sess, st, NewSong(rg, st, r), Roles(Get(r, "所属角色")), StatsOf(SongSchema(rg), r));
  }

  lemma {:induction false} SongRowsProps(rg: Region, d: Data, sess: string, rows: seq<Row>)
    requires Inv(d)
    ensures var e := SongRows(rg, d, sess, rows);
      Inv(e) && KeepsSongs(d, e) && e.characters == d.characters && e.byWork == d.byWork
      && e.gender == d.gender && e.jpSessions == d.jpSessions && e.cnSessions == d.cnSessions
      && (forall s :: s in d.bySession.m ==> s in e.bySession.m)
    decreases |rows|
  {
    if |rows| > 0 {
      var m1 := SongRows(rg, d, sess, rows[..|rows| - 1]);
      SongRowsProps(rg, d, sess, rows[..|rows| - 1]);
      SongRowInv(rg, m1, sess, rows[|rows| - 1]);
      SongRowFirstWins(rg, m1, sess, rows[|rows| - 1]);
      SongRowFrame(rg, m1, sess, rows[|rows| - 1]);
      KeepsSongsTrans(d, m1, SongRows(rg, d, sess, rows));
    }
  }

  lemma KeepsSongsTrans(a: Data, b: Data, c: Data)
    requires KeepsSongs(a, b) && KeepsSongs(b, c)
    ensures KeepsSongs(a, c)
  {
    forall s | s in a.songs.m
      ensures c.songs.m[s].chars[..|a.songs.m[s].chars|] == a.songs.m[s].chars
    {
      var x, y, z := a.songs.m[s].chars, b.songs.m[s].chars, c.songs.m[s].chars;
      assert z[..|x|] == z[..|y|][..|x|];
    }
  }

  lemma SongSheetProps(rg: Region, d: Data, sh: Sheet)
    requires Inv(d)
    ensures var e := SongSheet(rg, d, sh);
      Inv(e) && KeepsSongs(d, e) && e.characters == d.characters && e.byWork == d.byWork
      && e.gender == d.gender && e.jpSessions == d.jpSessions && e.cnSessions == d.cnSessions
      && ParseSession(sh.name, Suffix(rg)) in e.bySession.m
  {
    var sess := ParseSession(sh.name, Suffix(rg));
    var s0 := SongSheetStart(d, sess);
    assert Inv(s0) && KeepsSongs(d, s0);
    SongRowsProps(rg, s0, sess, sh.rows);
    KeepsSongsTrans(d, s0, SongSheet(rg, d, sh));
  }

  lemma {:induction false} SongSheetsProps(rg: Region, d: Data, sheets: seq<Sheet>)
    requires Inv(d)
    ensures var e := SongSheets(rg, d, sheets);
      Inv(e) && KeepsSongs(d, e) && e.characters == d.characters && e.byWork == d.byWork && e.gender == d.gender
    decreases |sheets|
  {
    if |sheets| > 0 {
      var m := SongSheets(rg, d, sheets[..|sheets| - 1]);
      SongSheetsProps(rg, d, sheets[..|sheets| - 1]);
      SongSheetProps(rg, m, sheets[|sheets| - 1]);
      KeepsSongsTrans(d, m, SongSheets(rg, d, sheets));
    }
  }

  // ---------------------------------------------------------------------------------------
  // Total-vote passes

  /** The total a pass of kind `k` writes. */
  function TotalOf(k: Kind, idx: SessionIndex): Option<int> {
    match k case Chars => idx.totalVotes case Songs => idx.totalSongVotes
  }

  /** The store differs from `d` only in the totals of the index entries. */
  ghost predicate OnlyTotals(d: Data, e: Data) {
    && e.(bySession := d.bySession) == d
    && e.bySession.m.Keys == d.bySession.m.Keys
    && (forall s :: s in d.bySession.m ==>
          s in e.bySession.m
          && e.bySession.m[s].chars == d.bySession.m[s].chars
          && e.bySession.m[s].songs == d.bySession.m[s].songs
          && e.bySession.m[s].extraWorks == d.bySession.m[s].extraWorks)
  }

  /** With every listed session indexed, a sheet of a full workbook stops the script exactly
      when its session is registered and the vote column is absent. */
  lemma TotalsSheetFails(rg: Region, k: Kind, d: Data, sh: Sheet)
    requires SessionsIndexed(d)
    ensures TotalsSheet(rg, k, d, sh).None? <==>
      Registered(rg, k, d, ParseSession(sh.name, Suffix(rg))) && TotalColumn(rg, k) !in sh.columns
  {
  }

  /** A registered session's total becomes the vote sum of the sheet; nothing but that total
      changes, and a sheet of an unregistered session changes nothing. */
  lemma TotalsSheetWrites(rg: Region, k: Kind, d: Data, sh: Sheet)
    ensures var sess := ParseSession(sh.name, Suffix(rg));
      && (!Registered(rg, k, d, sess) ==> TotalsSheet(rg, k, d, sh) == Some(d))
      && (TotalsSheet(rg, k, d, sh).Some? && Registered(rg, k, d, sess) ==>
            var e := TotalsSheet(rg, k, d, sh).value;
            sess in e.bySession.m && TotalOf(k, e.bySession.m[sess]) == Some(VoteSum(sh.rows, TotalColumn(rg, k))))
  {
  }

  lemma TotalsSheetFrame(rg: Region, k: Kind, d: Data, sh: Sheet)
    ensures TotalsSheet(rg, k, d, sh).Some? ==>
      var e := TotalsSheet(rg, k, d, sh).value;
      && OnlyTotals(d, e)
      && (forall s :: s in d.bySession.m && s != ParseSession(sh.name, Suffix(rg)) ==> e.bySession.m[s] == d.bySession.m[s])
  {
  }

  lemma {:induction false} TotalsSheetsProps(rg: Region, k: Kind, d: Data, sheets: seq<Sheet>)
    requires Inv(d)
    ensures TotalsSheets(rg, k, d, sheets).Some? ==>
      var e := TotalsSheets(rg, k, d, sheets).value; Inv(e) && OnlyTotals(d, e)
    decreases |sheets|
  {
    if |sheets| > 0 {
      TotalsSheetsProps(rg, k, d, sheets[..|sheets| - 1]);
      var m := TotalsSheets(rg, k, d, sheets[..|sheets| - 1]);
      if m.Some? {
        TotalsSheetFrame(rg, k, m.value, sheets[|sheets| - 1]);
      }
    }
  }

  /** A session's total after a pass is the vote sum of the last sheet of that session. */
  lemma {:induction false} TotalsLastSheetWins(rg: Region, k: Kind, d: Data, sheets: seq<Sheet>, i: nat)
    requires SessionsIndexed(d) && i < |sheets|
    requires Registered(rg, k, d, ParseSession(sheets[i].name, Suffix(rg)))
    requires forall j :: i < j < |sheets| ==> ParseSession(sheets[j].name, Suffix(rg)) != ParseSession(sheets[i].name, Suffix(rg))
    ensures var sess := ParseSession(sheets[i].name, Suffix(rg));
      TotalsSheets(rg, k, d, sheets).Some? ==>
        var e := TotalsSheets(rg, k, d, sheets).value;
        sess in e.bySession.m && TotalOf(k, e.bySession.m[sess]) == Some(VoteSum(sheets[i].rows, TotalColumn(rg, k)))
    decreases |sheets|
  {
    var sess := ParseSession(sheets[i].name, Suffix(rg));
    var n := |sheets| - 1;
    var pre := sheets[..n];
    var res := TotalsSheets(rg, k, d, sheets);
    if res.Some? {
      var m := TotalsSheets(rg, k, d, pre);
      assert m.Some?;
      var dm := m.value;
      assert res == TotalsSheet(rg, k, dm, sheets[n]);
      RegisteredStays(rg, k, d, pre);
      assert Registered(rg, k, dm, sess);
      if i == n {
        TotalsSheetWrites(rg, k, dm, sheets[n]);
      } else {
        forall j | i < j < |pre| ensures ParseSession(pre[j].name, Suffix(rg)) != sess {
          assert pre[j] == sheets[j];
        }
        assert pre[i] == sheets[i];
        TotalsLastSheetWins(rg, k, d, pre, i);
        TotalsSheetFrame(rg, k, dm, sheets[n]);
      }
    }
  }

  /** A total-vote pass leaves every session list, the index keys and so the registrations
      as they were. */
  lemma {:induction false} RegisteredStays(rg: Region, k: Kind, d: Data, sheets: seq<Sheet>)
    requires SessionsIndexed(d)
    ensures TotalsSheets(rg, k, d, sheets).Some? ==>
      var e := TotalsSheets(rg, k, d, sheets).value;
      && SessionsIndexed(e)
      && (forall s :: Registered(rg, k, e, s) <==> Registered(rg, k, d, s))
      && e.(bySession := d.bySession) == d && e.bySession.m.Keys == d.bySession.m.Keys
    decreases |sheets|
  {
    if |sheets| > 0 {
      RegisteredStays(rg, k, d, sheets[..|sheets| - 1]);
      var m := TotalsSheets(rg, k, d, sheets[..|sheets| - 1]);
      if m.Some? {
        TotalsSheetFrame(rg, k, m.value, sheets[|sheets| - 1]);
      }
    }
  }

  // ---------------------------------------------------------------------------------------
  // Gender pass

  /** With no negative vote cell, the three gender sums together are at most the sheet's total
      vote sum. */
  lemma {:induction false} GenderWithinTotal(rows: seq<Row>)
    requires forall i :: 0 <= i < |rows| ==> ToInt(Get(rows[i], "票数")).GetOr(0) >= 0
    ensures LabelSum(rows, "男性") + LabelSum(rows, "女性") + LabelSum(rows, "其他") <= VoteSum(rows, "票数")
  {
    if |rows| > 0 {
      GenderWithinTotal(rows[1..]);
    }
  }

  /** A bucket is the positive sum of the label's votes, and absent exactly when that sum is
      not positive. */
  lemma BucketSpec(rows: seq<Row>, sex: string)
    ensures Bucket(rows, sex).Some? ==> Bucket(rows, sex).value == LabelSum(rows, sex) > 0
    ensures Bucket(rows, sex).None? ==> LabelSum(rows, sex) <= 0
  {
  }

  /** A gender pass that completes keeps every invariant and changes only `gender`. */
  lemma {:induction false} GenderSheetsProps(d: Data, sheets: seq<Sheet>)
    requires Inv(d)
    ensures GenderSheets(d, sheets).Some? ==>
      var e := GenderSheets(d, sheets).value; Inv(e) && e.(gender := d.gender) == d
    decreases |sheets|
  {
    if |sheets| > 0 {
      GenderSheetsProps(d, sheets[..|sheets| - 1]);
    }
  }

  /** The gender pass stops exactly when some sheet lacks the 性别 or the 票数 column. */
  lemma {:induction false} GenderSheetsFails(d: Data, sheets: seq<Sheet>)
    ensures GenderSheets(d, sheets).None? <==> exists sh :: sh in sheets && LacksGenderColumns(sh)
    decreases |sheets|
  {
    if |sheets| > 0 {
      GenderSheetsFails(d, sheets[..|sheets| - 1]);
      LastSplit(sheets);
    }
  }

  // ---------------------------------------------------------------------------------------
  // Keyword pass

  /** A keyword row's update keeps the identity and statistics of every known character,
      gives `tr` the keyword list, creates at most `tr`, and then as a bare record, and
      changes nothing but the characters. */
  lemma TagWithSpec(d: Data, tr: string, keywords: seq<string>)
    ensures var e := TagRowWith(d, tr, keywords);
      && KeepsIdentity(d, e)
      && (forall k :: k in d.characters.m ==> e.characters.m[k].sessions == d.characters.m[k].sessions)
      && (forall k :: k in e.characters.m && k !in d.characters.m ==>
            k == tr && SameIdentity(e.characters.m[k], CharRec(CharId(k), None, None, [], Empty()))
            && e.characters.m[k].sessions == Empty())
      && tr in e.characters.m && e.characters.m[tr].keywords == keywords
      && e.(characters := d.characters) == d
  {
  }

  /** One keyword row: known characters keep identity and statistics, a created one is bare, a
      row without name or keywords changes nothing, and otherwise the row's character ends up
      with the row's keyword list. */
  lemma TagRowSpec(d: Data, r: Row)
    ensures var e := TagRow(d, r);
      && KeepsIdentity(d, e)
      && (forall k :: k in d.characters.m ==> e.characters.m[k].sessions == d.characters.m[k].sessions)
      && (forall k :: k in e.characters.m && k !in d.characters.m ==>
            SameIdentity(e.characters.m[k], CharRec(CharId(k), None, None, [], Empty()))
            && e.characters.m[k].sessions == Empty())
      && e.(characters := d.characters) == d
      && (Get(r, "译名").Missing? || Get(r, "keywords").Missing? ==> e == d)
      && (!Get(r, "译名").Missing? && !Get(r, "keywords").Missing? ==>
            var tr := Strip(PyStr(Get(r, "译名")));
            tr in e.characters.m && e.characters.m[tr].keywords == SplitKeywords(PyStr(Get(r, "keywords"))))
  {
    match (StrippedText(Get(r, "译名")), Get(r, "keywords"))
    case (None, _) =>
    case (_, Missing) =>
    case (Some(tr), kw) => TagWithSpec(d, tr, SplitKeywords(PyStr(kw)));
  }

  /** What the keyword pass keeps from `d` in `e`: every known character's identity and
      statistics, bare records for the characters it creates, and everything but the
      characters. */
  ghost predicate TagKeeps(d: Data, e: Data) {
    && KeepsIdentity(d, e)
    && (forall k :: k in d.characters.m ==> e.characters.m[k].sessions == d.characters.m[k].sessions)
    && (forall k :: k in e.characters.m && k !in d.characters.m ==>
          e.characters.m[k].jpName == None && e.characters.m[k].firstAppear == None
          && e.characters.m[k].sessions == Empty())
    && e.(characters := d.characters) == d
  }

  lemma TagKeepsTrans(d: Data, m: Data, e: Data)
    requires TagKeeps(d, m) && TagKeeps(m, e)
    ensures TagKeeps(d, e)
  {
  }

  /** One keyword row keeps its store and the invariants. */
  lemma TagRowKeeps(d: Data, r: Row)
    requires Inv(d)
    ensures TagKeeps(d, TagRow(d, r)) && Inv(TagRow(d, r))
  {
    TagRowSpec(d, r);
    var e := TagRow(d, r);
    assert IdsMatch(e);
    WorksStable(d, e);
  }

  /** The keyword pass over its rows. */
  lemma {:induction false} TagRowsProps(d: Data, rows: seq<Row>)
    requires Inv(d)
    ensures Inv(TagRows(d, rows)) && TagKeeps(d, TagRows(d, rows))
    decreases |rows|
  {
    if |rows| > 0 {
      var m := TagRows(d, rows[..|rows| - 1]);
      TagRowsProps(d, rows[..|rows| - 1]);
      TagRowKeeps(m, rows[|rows| - 1]);
      TagKeepsTrans(d, m, TagRows(d, rows));
    } else {
      assert TagKeeps(d, d);
    }
  }

  // ---------------------------------------------------------------------------------------
  // Session sort

  /** `OrdinalLe` compares by an integer key, so it is a total preorder. */
  lemma OrdinalLeTotalPreorder()
    ensures TotalPreorder(OrdinalLe)
  {
  }

  /** The sessions of `xs` whose ordinal is `n`, in order. */
  function WithOrdinal(xs: seq<string>, n: int): seq<string> {
    Filter(xs, x => SessionOrdinal(x).GetOr(0) == n)
  }

  /** A session sort that succeeds returns the same sessions, ascending by ordinal, with
      sessions of equal ordinal in their original order. */
  lemma SortSessionsSpec(xs: seq<string>)
    requires SortSessions(xs).Some?
    ensures var ys := SortSessions(xs).value;
      && SortedBy(ys, OrdinalLe)
      && multiset(ys) == multiset(xs)
      && forall n: int :: WithOrdinal(ys, n) == WithOrdinal(xs, n)
  {
    OrdinalLeTotalPreorder();
    SortWithSorted(xs, OrdinalLe);
    forall n: int ensures WithOrdinal(SortWith(xs, OrdinalLe), n) == WithOrdinal(xs, n) {
      SortStable(xs, OrdinalLe, x => SessionOrdinal(x).GetOr(0) == n);
    }
  }

  lemma SortPassProps(d: Data)
    requires Inv(d)
    ensures SortPass(d).Some? ==>
      var e := SortPass(d).value;
      && Inv(e)
      && SortedBy(e.jpSessions, OrdinalLe) && multiset(e.jpSessions) == multiset(d.jpSessions)
      && SortedBy(e.cnSessions, OrdinalLe) && multiset(e.cnSessions) == multiset(d.cnSessions)
      && e.(jpSessions := d.jpSessions, cnSessions := d.cnSessions) == d
  {
    if SortPass(d).Some? {
      SortSessionsSpec(d.jpSessions);
      SortSessionsSpec(d.cnSessions);
      var e := SortPass(d).value;
      forall s | s in e.jpSessions ensures s in d.jpSessions {
        assert s in multiset(e.jpSessions);
      }
      forall s | s in e.cnSessions ensures s in d.cnSessions {
        assert s in multiset(e.cnSessions);
      }
    }
  }

  // ---------------------------------------------------------------------------------------
  // The whole script

  /** A character stage: the grouped sheets, then the totals from the full sheets. */
  lemma CharStageInv(rg: Region, d: Data, grouped: seq<Sheet>, full: seq<Sheet>)
    requires Inv(d)
    ensures var r := TotalsSheets(rg, Chars, CharSheets(rg, d, grouped), full);
      r.Some? ==> Inv(r.value)
  {
    CharSheetsProps(rg, d, grouped);
    TotalsSheetsProps(rg, Chars, CharSheets(rg, d, grouped), full);
  }

  /** A song stage: the grouped sheets, then the totals from the full sheets. */
  lemma SongStageInv(rg: Region, d: Data, grouped: seq<Sheet>, full: seq<Sheet>)
    requires Inv(d)
    ensures var r := TotalsSheets(rg, Songs, SongSheets(rg, d, grouped), full);
      r.Some? ==> Inv(r.value)
  {
    SongSheetsProps(rg, d, grouped);
    TotalsSheetsProps(rg, Songs, SongSheets(rg, d, grouped), full);
  }

  /** The last stage: gender, keywords and the sort. */
  lemma FinalStageInv(d: Data, genderInfo: seq<Sheet>, tags: seq<Sheet>)
    requires Inv(d)
    ensures match GenderSheets(d, genderInfo)
      case None => true
      case Some(d9) =>
        match TagPass(d9, tags)
        case None => true
        case Some(d10) =>
          SortPass(d10).Some? ==>
            var out := SortPass(d10).value;
            Inv(out) && SortedBy(out.jpSessions, OrdinalLe) && SortedBy(out.cnSessions, OrdinalLe)
  {
    GenderSheetsProps(d, genderInfo);
    var r9 := GenderSheets(d, genderInfo);
    if r9.Some? && |tags| > 0 {
      TagRowsProps(r9.value, tags[0].rows);
      SortPassProps(TagRows(r9.value, tags[0].rows));
    }
  }

  /** The JSON the script writes satisfies every store invariant, and its session lists are
      sorted by ordinal. */
  lemma SummaryInv(w: Workbooks)
    ensures Summary(w).Some? ==>
      var out := Summary(w).value;
      Inv(out) && SortedBy(out.jpSessions, OrdinalLe) && SortedBy(out.cnSessions, OrdinalLe)
  {
    InitialInv();
    CharStageInv(Jp, Initial, w.jpGrouped, w.jpFull);
    var r2 := TotalsSheets(Jp, Chars, CharSheets(Jp, Initial, w.jpGrouped), w.jpFull);
    if r2.Some? {
      CharStageInv(Cn, r2.value, w.cnGrouped, w.cnFull);
      var r4 := TotalsSheets(Cn, Chars, CharSheets(Cn, r2.value, w.cnGrouped), w.cnFull);
      if r4.Some? {
        SongStageInv(Jp, r4.value, w.musicJpGrouped, w.musicJpFull);
        var r6 := TotalsSheets(Jp, Songs, SongSheets(Jp, r4.value, w.musicJpGrouped), w.musicJpFull);
        if r6.Some? {
          SongStageInv(Cn, r6.value, w.musicCnGrouped, w.musicCnFull);
          var r8 := TotalsSheets(Cn, Songs, SongSheets(Cn, r6.value, w.musicCnGrouped), w.musicCnFull);
          if r8.Some? {
            FinalStageInv(r8.value, w.genderInfo, w.tags);
          }
        }
      }
    }
  }
}
