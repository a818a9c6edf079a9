/** SummarizeAllData.py: the JSON store built from the poll workbooks, as a value, and every
    loading pass as a function from the store before the pass to the store after it. A pass
    over sheets and rows is a fold whose last step is the last sheet (row), matching the
    order in which the script's loops visit them. The class in SummarizeStore runs the same
    passes by loops that update its fields. */
module Summarize {
  import opened Wrappers
  import opened Strings
  import opened Seqs
  import opened Sorting
  import opened Sheets
  import opened ODicts

  // ---------------------------------------------------------------------------------------
  // The store

  /** One field of a per-session statistics record. */
  datatype Value = IntV(i: Option<int>) | FloatV(f: Option<real>)

  /** A per-session statistics record: field name and value, in the script's order. */
  type Stats = seq<(string, Value)>

  datatype CharRec = CharRec(
    id: string,
    jpName: Option<string>,
    firstAppear: Option<string>,
    keywords: seq<string>,
    sessions: ODict<Stats>)

  datatype SongRec = SongRec(t: Option<string>, trT: string, chars: seq<string>, sessions: ODict<Stats>)

  /** `indexes.by_session[sess]`; an Option field is None while the key is absent. */
  datatype SessionIndex = SessionIndex(
    chars: seq<string>,
    songs: seq<string>,
    extraWorks: Option<seq<string>>,
    totalVotes: Option<int>,
    totalSongVotes: Option<int>)

  datatype Gender = Gender(m: Option<int>, f: Option<int>, o: Option<int>)

  datatype Data = Data(
    missingGender: seq<string>,
    jpSessions: seq<string>,
    cnSessions: seq<string>,
    characters: ODict<CharRec>,
    songs: ODict<SongRec>,
    gender: ODict<Gender>,
    byWork: ODict<seq<string>>,
    bySession: ODict<SessionIndex>)

  const MissingGender: seq<string> := ["3_jp", "4_jp"]

  /** The store before the first pass. */
  const Initial: Data := Data(MissingGender, [], [], Empty(), Empty(), Empty(), Empty(), Empty())

  const NoIndex: SessionIndex := SessionIndex([], [], None, None, None)

  datatype Region = Jp | Cn

  function Suffix(rg: Region): string {
    match rg case Jp => "jp" case Cn => "cn"
  }

  // ---------------------------------------------------------------------------------------
  // Helpers of the script

  /** `parse_session(sheet_name, suffix)`: the sheet name's leading digit run, or else the
      whole sheet name, joined to the suffix by '_'. */
  function ParseSession(sheetName: string, suffix: string): (sess: string)
    ensures |sess| > |suffix| && sess[|sess| - |suffix| - 1..] == "_" + suffix
    ensures LeadingDigits(sheetName) != "" ==> sess[..|sess| - |suffix| - 1] == LeadingDigits(sheetName)
    ensures LeadingDigits(sheetName) == "" ==> sess[..|sess| - |suffix| - 1] == sheetName
  {
    var m := LeadingDigits(sheetName);
    if m != "" then m + "_" + suffix else sheetName + "_" + suffix
  }

  /** `re.sub(r"\W+", "", tr).lower()` */
  function CharId(tr: string): (id: string)
    ensures forall i :: 0 <= i < |id| ==> IsWordChar(id[i]) && !IsUpper(id[i])
  {
    Lower(RemoveNonWord(tr))
  }

  /** `str(cell).strip()` of a cell known not to be missing, None for a missing one. */
  function StrippedText(c: Cell): (r: Option<string>)
    ensures r.None? <==> c.Missing?
  {
    if c.Missing? then None else Some(Strip(PyStr(c)))
  }

  /** `[c.strip() for c in str(cell).split('|')]`, or [] for a missing cell. */
  function Roles(c: Cell): (r: seq<string>)
    ensures c.Missing? ==> r == []
    ensures !c.Missing? ==> |r| == |Split(PyStr(c), '|')|
  {
    if c.Missing? then [] else StripAll(Split(PyStr(c), '|'))
  }

  function StripAll(parts: seq<string>): (r: seq<string>)
    ensures |r| == |parts|
    ensures forall i :: 0 <= i < |r| ==> r[i] == Strip(parts[i])
  {
    if |parts| == 0 then [] else [Strip(parts[0])] + StripAll(parts[1..])
  }

  /** `[kw.strip() for kw in parts if kw.strip()]` */
  function StripNonEmpty(parts: seq<string>): seq<string> {
    Filter(StripAll(parts), (t: string) => t != "")
  }

  /** The keyword list of SummarizeAllData.py:235: the pieces between '、', trimmed, empty
      pieces dropped. */
  function SplitKeywords(s: string): (r: seq<string>)
    ensures forall i :: 0 <= i < |r| ==> r[i] != "" && Stripped(r[i]) && '、' !in r[i]
  {
    var parts := Split(s, '、');
    var r := StripNonEmpty(parts);
    assert forall i :: 0 <= i < |r| ==> r[i] != "" && Stripped(r[i]) && '、' !in r[i] by {
      StripNonEmptySpec(parts, '、');
    }
    r
  }

  /** The kept pieces are non-empty and trimmed, and hold no character that no part holds. */
  lemma StripNonEmptySpec(parts: seq<string>, sep: char)
    requires forall i :: 0 <= i < |parts| ==> sep !in parts[i]
    ensures var r := StripNonEmpty(parts);
      forall i :: 0 <= i < |r| ==> r[i] != "" && Stripped(r[i]) && sep !in r[i]
  {
    var all := StripAll(parts);
    var r := StripNonEmpty(parts);
    FilterMembers(all, (t: string) => t != "");
    StripAllClean(parts, sep);
    forall i | 0 <= i < |r| ensures Stripped(r[i]) && sep !in r[i] {
      assert r[i] in all;
    }
  }

  /** Trimmed pieces are trimmed and hold no character the pieces do not hold. */
  lemma StripAllClean(parts: seq<string>, sep: char)
    requires forall i :: 0 <= i < |parts| ==> sep !in parts[i]
    ensures forall x :: x in StripAll(parts) ==> Stripped(x) && sep !in x
  {
    var all := StripAll(parts);
    forall x | x in all ensures Stripped(x) && sep !in x {
      var j :| 0 <= j < |all| && all[j] == x;
      StripWithin(parts[j]);
    }
  }

  /** Every character of `s.strip()` is a character of `s`. */
  lemma StripWithin(s: string)
    ensures forall c :: c in Strip(s) ==> c in s
  {
    var l := LStrip(s);
    var r := RStrip(l);
    assert r == Strip(s);
    var off := |s| - |l|;
    assert l == s[off..];
    assert r == l[..|r|];
    forall k | 0 <= k < |r| ensures r[k] in s {
      assert r[k] == s[off + k];
    }
  }

  // ---------------------------------------------------------------------------------------
  // Statistics records

  datatype Field = IntField(key: string, col: string) | FloatField(key: string, col: string)

  /** `to_int(r.get(col))` or `to_float(r.get(col))`, as the field asks. */
  function FieldValue(f: Field, r: Row): Value {
    match f
    case IntField(_, col) => IntV(ToInt(Get(r, col)))
    case FloatField(_, col) => FloatV(ToFloat(Get(r, col)))
  }

  /** The statistics record of one row: one entry per schema field, in schema order. */
  function StatsOf(schema: seq<Field>, r: Row): (st: Stats)
    ensures |st| == |schema|
    ensures forall i :: 0 <= i < |st| ==> st[i] == (schema[i].key, FieldValue(schema[i], r))
  {
    if |schema| == 0 then [] else [(schema[0].key, FieldValue(schema[0], r))] + StatsOf(schema[1..], r)
  }

  const JpCharSchema: seq<Field> := [
    IntField("r", "名次"), IntField("prev_r", "上回名次"), IntField("prev2_r", "上上回名次"),
    IntField("v", "票数"), IntField("bnum", "本名票数"), IntField("comments", "评论数"),
    IntField("support", "应援作品数")]

  const CnCharSchema: seq<Field> := [
    IntField("r", "名次"), IntField("v", "票数"), IntField("bnum", "本命数"),
    FloatField("brate", "本命率"), FloatField("bw", "本命加权"), FloatField("v_pct", "票数占比"),
    FloatField("b_pct", "本命占比"), FloatField("male_pct", "男性比例"),
    FloatField("female_pct", "女性比例")]

  const JpSongSchema: seq<Field> := [
    IntField("r", "排名"), IntField("prev_r", "上回名次"), IntField("prev2_r", "上上回名次"),
    IntField("v", "得票数"), IntField("main_v", "本名票数"), IntField("comments", "评论数")]

  const CnSongSchema: seq<Field> := [
    IntField("r", "名次"), IntField("v", "票数"), IntField("bnum", "本命数"),
    FloatField("brate", "本命率"), FloatField("bw", "本命加权"), FloatField("v_pct", "票数占比"),
    FloatField("b_pct", "本命占比"), IntField("male", "男性"), FloatField("male_pct", "男性比"),
    FloatField("male_total_pct", "占总数"), IntField("female", "女性"),
    FloatField("female_pct", "女性比"), FloatField("female_total_pct", "占总数.1"),
    IntField("bias_orig", "偏原作"), IntField("bias_2nd", "偏二次"), IntField("no_bias", "无偏爱"),
    IntField("no_interest", "都没兴趣")]

  function CharSchema(rg: Region): seq<Field> {
    match rg case Jp => JpCharSchema case Cn => CnCharSchema
  }

  function SongSchema(rg: Region): seq<Field> {
    match rg case Jp => JpSongSchema case Cn => CnSongSchema
  }

  // ---------------------------------------------------------------------------------------
  // Character passes (SummarizeAllData.py:52-81 for JP, 93-119 for CN)

  /** `by_work.setdefault(fa, []).append(tr)` */
  function AddToWork(byWork: ODict<seq<string>>, fa: string, tr: string): ODict<seq<string>> {
    byWork.Put(fa, byWork.GetOr(fa, []) + [tr])
  }

  /** The record a character gets when its name is first seen in a grouped sheet. */
  function NewChar(rg: Region, tr: string, r: Row): CharRec {
    var jp := if rg == Jp then StrippedText(Get(r, "日文名")) else None;
    CharRec(CharId(tr), jp, CleanStr(Get(r, "首次出现作品")), [], Empty())
  }

  /** The update a named row of a grouped character sheet makes: a name not yet in the store
      gets the record `created` and, when that record's first work is non-empty, is listed under
      it; then the row's statistics are recorded for the session and the name is appended to
      the session's index entry. */
  function CharRowWith(d: Data, sess: string, tr: string, created: CharRec, stats: Stats): Data {
    var fa := created.firstAppear;
    var d1 :=
      if tr in d.characters.m then d
      else d.(characters := d.characters.Put(tr, created),
              byWork := if fa.Some? && fa.value != "" then AddToWork(d.byWork, fa.value, tr) else d.byWork);
    var rec := d1.characters.m[tr];
    var idx := d1.bySession.GetOr(sess, NoIndex);
    d1.(characters := d1.characters.Put(tr, rec.(sessions := rec.sessions.Put(sess, stats))),
        bySession := d1.bySession.Put(sess, idx.(chars := idx.chars + [tr])))
  }

  /** One row of a grouped character sheet; a row without 译名 is skipped. */
  function CharRow(rg: Region, d: Data, sess: string, r: Row): Data {
    match StrippedText(Get(r, "译名"))
    case None => d
    case Some(tr) => CharRowWith(d, sess, tr, NewChar(rg, tr, r), StatsOf(CharSchema(rg), r))
  }

  function CharRows(rg: Region, d: Data, sess: string, rows: seq<Row>): Data
    decreases |rows|
  {
    if |rows| == 0 then d
    else CharRow(rg, CharRows(rg, d, sess, rows[..|rows| - 1]), sess, rows[|rows| - 1])
  }

  /** The store at the start of a grouped character sheet: the session is listed and its
      index entry is (re)set to empty lists. */
  function CharSheetStart(rg: Region, d: Data, sess: string): Data {
    match rg
    case Jp => d.(jpSessions := d.jpSessions + [sess],
                  bySession := d.bySession.Put(sess, NoIndex.(extraWorks := Some([]))))
    case Cn => d.(cnSessions := d.cnSessions + [sess], bySession := d.bySession.Put(sess, NoIndex))
  }

  /** The JP pass records the first parenthesised part of a sheet name as the session's extra
      works, split on '、'. */
  function CharSheetEnd(rg: Region, d: Data, sess: string, name: string): Data {
    match (rg, FirstParenGroup(name))
    case (Jp, Some(g)) =>
      var idx := d.bySession.GetOr(sess, NoIndex);
      d.(bySession := d.bySession.Put(sess, idx.(extraWorks := Some(Split(g, '、')))))
    case _ => d
  }

  function CharSheet(rg: Region, d: Data, sh: Sheet): Data {
    var sess := ParseSession(sh.name, Suffix(rg));
    CharSheetEnd(rg, CharRows(rg, CharSheetStart(rg, d, sess), sess, sh.rows), sess, sh.name)
  }

  function CharSheets(rg: Region, d: Data, sheets: seq<Sheet>): Data
    decreases |sheets|
  {
    if |sheets| == 0 then d
    else CharSheet(rg, CharSheets(rg, d, sheets[..|sheets| - 1]), sheets[|sheets| - 1])
  }

  // ---------------------------------------------------------------------------------------
  // Song passes (SummarizeAllData.py:131-154 for JP, 166-199 for CN)

  function NewSong(rg: Region, st: string, r: Row): SongRec {
    var t := if rg == Jp then StrippedText(Get(r, "曲目")) else None;
    SongRec(t, st, [], Empty())
  }

  /** The update a named row of a grouped song sheet makes: a title not yet in the store gets
      the record `created`; the row's roles are appended to the song's cast where absent, its
      statistics recorded for the session, and the title appended to the session's index
      entry. */
  function SongRowWith(d: Data, sess: string, st: string, created: SongRec, roles: seq<string>, stats: Stats): Data {
    var songs1 := if st in d.songs.m then d.songs else d.songs.Put(st, created);
    var rec := songs1.m[st];
    var rec1 := rec.(chars := AppendNew(rec.chars, roles), sessions := rec.sessions.Put(sess, stats));
    var idx := d.bySession.GetOr(sess, NoIndex);
    d.(songs := songs1.Put(st, rec1), bySession := d.bySession.Put(sess, idx.(songs := idx.songs + [st])))
  }

  /** One row of a grouped song sheet; a row without 译名 is skipped. */
  function SongRow(rg: Region, d: Data, sess: string, r: Row): Data {
    match StrippedText(Get(r, "译名"))
    case None => d
    case Some(st) => SongRowWith(d, sess, st, NewSong(rg, st, r), Roles(Get(r, "所属角色")), StatsOf(SongSchema(rg), r))
  }

  function SongRows(rg: Region, d: Data, sess: string, rows: seq<Row>): Data
    decreases |rows|
  {
    if |rows| == 0 then d
    else SongRow(rg, SongRows(rg, d, sess, rows[..|rows| - 1]), sess, rows[|rows| - 1])
  }

  /** `by_session.setdefault(sess, {'chars': [], 'songs': []})` */
  function SongSheetStart(d: Data, sess: string): Data {
    if sess in d.bySession.m then d else d.(bySession := d.bySession.Put(sess, NoIndex))
  }

  function SongSheet(rg: Region, d: Data, sh: Sheet): Data {
    var sess := ParseSession(sh.name, Suffix(rg));
    SongRows(rg, SongSheetStart(d, sess), sess, sh.rows)
  }

  function SongSheets(rg: Region, d: Data, sheets: seq<Sheet>): Data
    decreases |sheets|
  {
    if |sheets| == 0 then d
    else SongSheet(rg, SongSheets(rg, d, sheets[..|sheets| - 1]), sheets[|sheets| - 1])
  }

  // ---------------------------------------------------------------------------------------
  // Total-vote passes (SummarizeAllData.py:84-90, 122-128, 157-163, 202-208)

  datatype Kind = Chars | Songs

  function TotalColumn(rg: Region, k: Kind): string {
    if rg == Jp && k == Songs then "得票数" else "票数"
  }

  /** The character passes register a session in the session list of their region; the song
      passes in `by_session`. */
  predicate Registered(rg: Region, k: Kind, d: Data, sess: string) {
    match k
    case Chars => sess in (if rg == Jp then d.jpSessions else d.cnSessions)
    case Songs => sess in d.bySession.m
  }

  function SetTotal(k: Kind, idx: SessionIndex, t: int): SessionIndex {
    match k
    case Chars => idx.(totalVotes := Some(t))
    case Songs => idx.(totalSongVotes := Some(t))
  }

  /** One sheet of a full (ungrouped) workbook; None where the script stops with KeyError. */
  function TotalsSheet(rg: Region, k: Kind, d: Data, sh: Sheet): Option<Data> {
    var sess := ParseSession(sh.name, Suffix(rg));
    var col := TotalColumn(rg, k);
    if !Registered(rg, k, d, sess) then Some(d)
    else if col !in sh.columns || sess !in d.bySession.m then None
    else Some(d.(bySession := d.bySession.Put(sess, SetTotal(k, d.bySession.m[sess], VoteSum(sh.rows, col)))))
  }

  function TotalsSheets(rg: Region, k: Kind, d: Data, sheets: seq<Sheet>): Option<Data>
    decreases |sheets|
  {
    if |sheets| == 0 then Some(d)
    else
      match TotalsSheets(rg, k, d, sheets[..|sheets| - 1])
      case None => None
      case Some(d1) => TotalsSheet(rg, k, d1, sheets[|sheets| - 1])
  }

  // ---------------------------------------------------------------------------------------
  // Gender pass (SummarizeAllData.py:211-222)

  /** `df[df['性别'] == label]['票数'].apply(to_int).sum(min_count=0)` */
  function LabelSum(rows: seq<Row>, sex: string): int {
    if |rows| == 0 then 0
    else (if CellEq(Get(rows[0], "性别"), Text(sex)) then ToInt(Get(rows[0], "票数")).GetOr(0) else 0)
         + LabelSum(rows[1..], sex)
  }

  /** A bucket holds its sum when that is positive, and is None otherwise. */
  function Bucket(rows: seq<Row>, sex: string): (b: Option<int>)
    ensures b.Some? <==> LabelSum(rows, sex) > 0
    ensures b.Some? ==> b.value == LabelSum(rows, sex)
  {
    var s := LabelSum(rows, sex);
    if s > 0 then Some(s) else None
  }

  /** The sheet misses a column the gender pass reads. */
  predicate LacksGenderColumns(sh: Sheet) {
    "性别" !in sh.columns || "票数" !in sh.columns
  }

  function GenderSheet(d: Data, sh: Sheet): Option<Data> {
    if LacksGenderColumns(sh) then None
    else
      var g := Gender(Bucket(sh.rows, "男性"), Bucket(sh.rows, "女性"), Bucket(sh.rows, "其他"));
      Some(d.(gender := d.gender.Put(ParseSession(sh.name, "jp"), g)))
  }

  function GenderSheets(d: Data, sheets: seq<Sheet>): Option<Data>
    decreases |sheets|
  {
    if |sheets| == 0 then Some(d)
    else
      match GenderSheets(d, sheets[..|sheets| - 1])
      case None => None
      case Some(d1) => GenderSheet(d1, sheets[|sheets| - 1])
  }

  // ---------------------------------------------------------------------------------------
  // Keyword pass (SummarizeAllData.py:225-240)

  /** The update a keyword row makes: a known name gets the keyword list, an unknown one a bare
      record carrying it. */
  function TagRowWith(d: Data, tr: string, keywords: seq<string>): Data {
    if tr in d.characters.m then
      d.(characters := d.characters.Put(tr, d.characters.m[tr].(keywords := keywords)))
    else
      d.(characters := d.characters.Put(tr, CharRec(CharId(tr), None, None, keywords, Empty())))
  }

  /** One keyword row; a row without 译名 or without keywords is skipped. */
  function TagRow(d: Data, r: Row): Data {
    match (StrippedText(Get(r, "译名")), Get(r, "keywords"))
    case (None, _) => d
    case (_, Missing) => d
    case (Some(tr), kw) => TagRowWith(d, tr, SplitKeywords(PyStr(kw)))
  }

  function TagRows(d: Data, rows: seq<Row>): Data
    decreases |rows|
  {
    if |rows| == 0 then d else TagRow(TagRows(d, rows[..|rows| - 1]), rows[|rows| - 1])
  }

  /** Only the workbook's first sheet is read; a workbook without sheets stops the script. */
  function TagPass(d: Data, sheets: seq<Sheet>): Option<Data> {
    if |sheets| == 0 then None else Some(TagRows(d, sheets[0].rows))
  }

  // ---------------------------------------------------------------------------------------
  // Session sort (SummarizeAllData.py:243-244)

  /** `int(x.split('_')[0])`, None where int() raises. */
  function SessionOrdinal(x: string): Option<int> {
    ParseInt(Split(x, '_')[0])
  }

  const OrdinalLe: (string, string) -> bool :=
    (a: string, b: string) => SessionOrdinal(a).GetOr(0) <= SessionOrdinal(b).GetOr(0)

  predicate AllOrdinals(xs: seq<string>) {
    forall i :: 0 <= i < |xs| ==> SessionOrdinal(xs[i]).Some?
  }

  /** `xs.sort(key=lambda x: int(x.split('_')[0]))`: None when some key raises (Python
      computes every key before sorting). */
  function SortSessions(xs: seq<string>): (r: Option<seq<string>>)
    ensures r.Some? <==> AllOrdinals(xs)
    ensures r.Some? ==> |r.value| == |xs|
  {
    if AllOrdinals(xs) then Some(SortWith(xs, OrdinalLe)) else None
  }

  // ---------------------------------------------------------------------------------------
  // The whole script

  datatype Workbooks = Workbooks(
    jpGrouped: seq<Sheet>, jpFull: seq<Sheet>,
    cnGrouped: seq<Sheet>, cnFull: seq<Sheet>,
    musicJpGrouped: seq<Sheet>, musicJpFull: seq<Sheet>,
    musicCnGrouped: seq<Sheet>, musicCnFull: seq<Sheet>,
    genderInfo: seq<Sheet>, tags: seq<Sheet>)

  /** The store after the sort, which then goes to JSON as a whole. */
  function SortPass(d: Data): Option<Data> {
    match (SortSessions(d.jpSessions), SortSessions(d.cnSessions))
    case (Some(jp), Some(cn)) => Some(d.(jpSessions := jp, cnSessions := cn))
    case _ => None
  }

  /** The data written to touhou_vote.json, or None where the script stops with an
      exception before writing it. */
  function Summary(w: Workbooks): Option<Data> {
    var d1 := CharSheets(Jp, Initial, w.jpGrouped);
    match TotalsSheets(Jp, Chars, d1, w.jpFull)
    case None => None
    case Some(d2) =>
      var d3 := CharSheets(Cn, d2, w.cnGrouped);
      match TotalsSheets(Cn, Chars, d3, w.cnFull)
      case None => None
      case Some(d4) =>
        var d5 := SongSheets(Jp, d4, w.musicJpGrouped);
        match TotalsSheets(Jp, Songs, d5, w.musicJpFull)
        case None => None
        case Some(d6) =>
          var d7 := SongSheets(Cn, d6, w.musicCnGrouped);
          match TotalsSheets(Cn, Songs, d7, w.musicCnFull)
          case None => None
          case Some(d8) =>
            match GenderSheets(d8, w.genderInfo)
            case None => None
            case Some(d9) =>
              match TagPass(d9, w.tags)
              case None => None
              case Some(d10) => SortPass(d10)
  }
}
