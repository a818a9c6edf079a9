/** TouhouVote.py and TouhouVoteMusic.py: the scripts that build the "grouped" workbooks.
    Each reads a dictionary sheet, keeps its usable rows, and then for every sheet of a vote
    workbook left-merges the sheet with the dictionary on one key column and drops the rows
    the merge left without a dictionary value. TouhouVote.py attaches a character's work code
    (首次出现作品, kept only for codes above 5); TouhouVoteMusic.py attaches a song's
    character list (所属角色). */
module Grouping {
  import opened Wrappers
  import opened Strings
  import opened Seqs
  import opened Sheets

  const WorkCol: string := "首次出现作品"
  const CharCol: string := "所属角色"
  const JpNameCol: string := "日文名"
  const CnNameCol: string := "译名"
  const TitleCol: string := "曲目"

  /** One dictionary row as the merge uses it: its key cell and the value it attaches. */
  datatype Entry = Entry(key: Cell, value: Cell)

  // ---------------------------------------------------------------------------------------
  // The dictionaries

  /** The work cells of `rows` that survive `dropna` can be compared with 5: pandas raises on
      a text cell there. */
  predicate Comparable(rows: seq<Row>) {
    forall i :: 0 <= i < |rows| ==> !Get(rows[i], WorkCol).Text?
  }

  /** `dic_saw['首次出现作品'] > 5` for a row that `dropna` kept. */
  predicate AboveFive(r: Row) {
    match Get(r, WorkCol)
    case Int(i) => i > 5
    case Float(x, _) => x > 5.0
    case _ => false
  }

  /** The rows of fun.xlsx that lines 4-5 keep (the second `> 5` of lines 10 and 22 keeps them
      all again); None where the comparison raises. */
  function WorkRows(fun: seq<Row>): Option<seq<Row>> {
    var present := Filter(fun, (r: Row) => !Get(r, WorkCol).Missing?);
    if Comparable(present) then Some(Filter(present, AboveFive)) else None
  }

  /** `.astype(float)` on a numeric cell. */
  function AsFloat(c: Cell): (d: Cell)
    ensures Num(d) == Num(c)
    ensures c.Int? || c.Float? ==> d.Float?
  {
    match c
    case Int(i) => Float(i as real, IntToString(i) + ".0")
    case _ => c
  }

  /** `rows[[keyCol, valCol]]` as merge entries, with `conv` applied to the value column. */
  function EntriesOf(rows: seq<Row>, keyCol: string, valCol: string, conv: Cell -> Cell): (d: seq<Entry>)
    ensures |d| == |rows|
    ensures forall i :: 0 <= i < |d| ==> d[i] == Entry(Get(rows[i], keyCol), conv(Get(rows[i], valCol)))
  {
    seq(|rows|, i requires 0 <= i < |rows| => Entry(Get(rows[i], keyCol), conv(Get(rows[i], valCol))))
  }

  /** `dic_jp` (keyCol 日文名) or `dic_cn` (keyCol 译名) of TouhouVote.py. */
  function WorkDictionary(fun: seq<Row>, keyCol: string): Option<seq<Entry>> {
    match WorkRows(fun)
    case None => None
    case Some(kept) => Some(EntriesOf(kept, keyCol, WorkCol, AsFloat))
  }

  /** `dic_jp` (keyCol 曲目) or `dic_cn` (keyCol 译名) of TouhouVoteMusic.py: the rows of
      TouhouMusicInfo.xlsx whose 所属角色 is present. */
  function MusicDictionary(info: seq<Row>, keyCol: string): seq<Entry> {
    EntriesOf(Filter(info, (r: Row) => !Get(r, CharCol).Missing?), keyCol, CharCol, (c: Cell) => c)
  }

  // ---------------------------------------------------------------------------------------
  // Merge and drop

  /** The dictionary entries whose key the merge matches with `k`, in dictionary order. */
  function Matches(dict: seq<Entry>, k: Cell): seq<Entry> {
    Filter(dict, (e: Entry) => KeyEq(k, e.key))
  }

  /** What `pd.merge(df, dic, on=keyCol, how='left')` makes of one row: one copy per matching
      entry, carrying the entry's value, or the row with a missing value when none matches. */
  function MergeRow(r: Row, dict: seq<Entry>, keyCol: string, valCol: string): (out: seq<Row>)
    ensures |out| == if |Matches(dict, Get(r, keyCol))| == 0 then 1 else |Matches(dict, Get(r, keyCol))|
  {
    var m := Matches(dict, Get(r, keyCol));
    if |m| == 0 then [r[valCol := Missing]]
    else seq(|m|, i requires 0 <= i < |m| => r[valCol := m[i].value])
  }

  /** The left merge of a sheet's rows: the rows' copies, in row order. */
  function LeftMerge(rows: seq<Row>, dict: seq<Entry>, keyCol: string, valCol: string): seq<Row> {
    if |rows| == 0 then []
    else LeftMerge(rows[..|rows| - 1], dict, keyCol, valCol) + MergeRow(rows[|rows| - 1], dict, keyCol, valCol)
  }

  /** `df.dropna(subset=[col])` */
  function DropNA(rows: seq<Row>, col: string): seq<Row> {
    Filter(rows, (r: Row) => !Get(r, col).Missing?)
  }

  /** One processed sheet; None where the merge or `dropna` raises: the sheet has no key
      column, or it already has the value column (the merge then renames both copies and
      `dropna` finds no column of that name). */
  function JoinSheet(sh: Sheet, dict: seq<Entry>, keyCol: string, valCol: string): Option<Sheet> {
    if keyCol !in sh.columns || valCol in sh.columns then None
    else Some(Sheet(sh.name, sh.columns + {valCol}, DropNA(LeftMerge(sh.rows, dict, keyCol, valCol), valCol)))
  }

  /** `processed_sheets` after the loop over the workbook's sheets; None where a sheet raises. */
  function JoinBook(sheets: seq<Sheet>, dict: seq<Entry>, keyCol: string, valCol: string): Option<seq<Sheet>> {
    MapAll(sheets, (sh: Sheet) => JoinSheet(sh, dict, keyCol, valCol))
  }

  /** The loop of TouhouVote.py lines 13-16 and 25-28 and of TouhouVoteMusic.py lines 13-16
      and 29-32. */
  method ProcessSheets(sheets: seq<Sheet>, dict: seq<Entry>, keyCol: string, valCol: string)
    returns (processed: Option<seq<Sheet>>)
    ensures processed == JoinBook(sheets, dict, keyCol, valCol)
  {
    var f := (sh: Sheet) => JoinSheet(sh, dict, keyCol, valCol);
    var done: seq<Sheet> := [];
    var i := 0;
    while i < |sheets|
      invariant 0 <= i <= |sheets|
      invariant MapAll(sheets[..i], f) == Some(done)
    {
      MapAllSnoc(sheets, f, i);
      var merged := JoinSheet(sheets[i], dict, keyCol, valCol);
      if merged.None? {
        MapAllPrefixFails(sheets, f, i + 1);
        return None;
      }
      done := done + [merged.value];
      i := i + 1;
    }
    assert sheets[..i] == sheets;
    processed := Some(done);
  }

  // ---------------------------------------------------------------------------------------
  // The two scripts

  /** What a script writes: the Japanese grouped workbook and then the Chinese one; None
      where the script raised before writing it. */
  datatype Written = Written(jp: Option<seq<Sheet>>, cn: Option<seq<Sheet>>)

  /** The Japanese workbook is processed and written first; a failure there stops the script. */
  function Both(jp: Option<seq<Sheet>>, cn: Option<seq<Sheet>>): (w: Written)
    ensures w.jp == jp && (w.cn.Some? <==> jp.Some? && cn.Some?)
  {
    if jp.None? then Written(None, None) else Written(jp, cn)
  }

  /** TouhouVote.py on fun.xlsx and the two vote workbooks. */
  function VoteGrouping(fun: seq<Row>, jpBook: seq<Sheet>, cnBook: seq<Sheet>): Written {
    match (WorkDictionary(fun, JpNameCol), WorkDictionary(fun, CnNameCol))
    case (Some(dicJp), Some(dicCn)) =>
      Both(JoinBook(jpBook, dicJp, JpNameCol, WorkCol), JoinBook(cnBook, dicCn, CnNameCol, WorkCol))
    case _ => Written(None, None)
  }

  /** TouhouVoteMusic.py on TouhouMusicInfo.xlsx and the two song vote workbooks. */
  function MusicGrouping(info: seq<Row>, jpBook: seq<Sheet>, cnBook: seq<Sheet>): Written {
    Both(JoinBook(jpBook, MusicDictionary(info, TitleCol), TitleCol, CharCol),
         JoinBook(cnBook, MusicDictionary(info, CnNameCol), CnNameCol, CharCol))
  }
}
