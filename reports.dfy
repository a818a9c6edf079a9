/** The report scripts that read the grouped vote workbooks back:
    GroupAnalyze_jp.py (each work's share of the votes of every session),
    CharacterAnalyze_jp.py (one character's share of every session), top30.py (the share of
    the thirty best-placed entries of every session) and difference.py (one character's share
    in one Chinese and one Japanese session, and their difference).

    A workbook is its list of sheets in file order; its sheet names are distinct, being the
    keys of the dict `pd.read_excel(..., sheet_name=None)` returns, so sorting the names and
    looking each one up is sorting the sheets. Shares are exact reals. */
module Reports {
  import opened Wrappers
  import opened Strings
  import opened Seqs
  import opened Sorting
  import opened Sheets

  const VotesCol: string := "票数"
  const WorkCol: string := "首次出现作品"
  const JpNameCol: string := "日文名"
  const CnNameCol: string := "译名"

  // ---------------------------------------------------------------------------------------
  // Cells in arithmetic

  /** A cell as pandas arithmetic sees it: NaN, a number, or a value that raises. */
  datatype Reading = Blank | Value(x: real) | Raises

  /** A 票数 cell in a sum or a division: text raises TypeError. */
  function ReadVotes(c: Cell): Reading {
    match c
    case Missing => Blank
    case Int(i) => Value(i as real)
    case Float(x, _) => Value(x)
    case Text(_) => Raises
  }

  /** `.astype(float)` on one cell: text is read as `float()` reads it and raises ValueError
      where `float()` would. */
  function ReadFloat(c: Cell): Reading {
    match c
    case Missing => Blank
    case Int(i) => Value(i as real)
    case Float(x, _) => Value(x)
    case Text(s) =>
      match ParseDecimal(s)
      case Some(x) => Value(x)
      case None => Raises
  }

  /** The 票数 value a sum adds for row `r`: 0 for an empty cell. */
  function VoteOf(r: Row): real {
    match ReadVotes(Get(r, VotesCol))
    case Value(v) => v
    case _ => 0.0
  }

  /** No 票数 cell of `rows` makes a sum or a sort raise. */
  predicate Readable(rows: seq<Row>) {
    forall i :: 0 <= i < |rows| ==> !ReadVotes(Get(rows[i], VotesCol)).Raises?
  }

  /** `df["票数"].sum()` for readable rows: NaN cells are skipped. */
  function VoteTotal(rows: seq<Row>): real {
    if |rows| == 0 then 0.0 else VoteTotal(rows[..|rows| - 1]) + VoteOf(rows[|rows| - 1])
  }

  /** `book[name]`: the sheet of that name. */
  function Lookup(book: seq<Sheet>, name: string): (r: Option<Sheet>)
    ensures r.Some? ==> r.value in book && r.value.name == name
    ensures r.None? <==> forall i :: 0 <= i < |book| ==> book[i].name != name
  {
    if |book| == 0 then None
    else if book[0].name == name then Some(book[0])
    else
      assert forall i :: 0 < i < |book| ==> book[i] == book[1..][i - 1];
      Lookup(book[1..], name)
  }

  /** `raw_sheets[name]["票数"].sum()`; None where it raises: the raw workbook has no such
      sheet, the sheet has no 票数 column, or a 票数 cell is text. */
  function RawTotal(raw: seq<Sheet>, name: string): Option<real> {
    match Lookup(raw, name)
    case None => None
    case Some(sh) =>
      if VotesCol !in sh.columns || !Readable(sh.rows) then None else Some(VoteTotal(sh.rows))
  }

  /** A recorded percentage: a number, or NaN where the counted cell was empty. */
  datatype Pct = Pct(x: real) | NaN

  /** `a - b` between two percentages. */
  function Minus(a: Pct, b: Pct): Pct {
    if a.Pct? && b.Pct? then Pct(a.x - b.x) else NaN
  }

  /** Why a sheet yields no percentage, one constructor per check of the scripts. */
  datatype Reason = MissingSheet | MissingColumns | RaisedTotal | ZeroTotal | NoTarget | ZeroVotes | Raised

  /** The outcome of one sheet: rejected for a reason, or its percentage. */
  datatype Outcome = Rejected(why: Reason) | Measured(pct: Pct)

  /** `votes / total * 100` for the 票数 cell read as `votes`. */
  function Percent(votes: Reading, total: real): Outcome
    requires total != 0.0
  {
    match votes
    case Value(v) => Measured(Pct(v / total * 100.0))
    case Blank => Measured(NaN)
    case Raises => Rejected(Raised)
  }

  /** `df[df[col] == target]`: the rows whose `col` cell equals `target`, in row order. */
  function Matching(rows: seq<Row>, col: string, target: Cell): seq<Row> {
    Filter(rows, (r: Row) => CellEq(Get(r, col), target))
  }

  /** The (sheet name, percentage) entries of the measured sheets, in the order given:
      `results[sheet_name] = ...` or `results.append(...)` inside the loop. */
  function Collect(order: seq<Sheet>, step: Sheet -> Outcome): seq<(string, Pct)> {
    if |order| == 0 then []
    else
      var last := order[|order| - 1];
      Collect(order[..|order| - 1], step) + (if step(last).Measured? then [(last.name, step(last).pct)] else [])
  }

  /** Growing the prefix by one sheet. */
  lemma CollectSnoc(order: seq<Sheet>, step: Sheet -> Outcome, i: nat)
    requires i < |order|
    ensures Collect(order[..i + 1], step) ==
      Collect(order[..i], step) + (if step(order[i]).Measured? then [(order[i].name, step(order[i]).pct)] else [])
  {
    assert order[..i + 1][..i] == order[..i];
  }

  // ---------------------------------------------------------------------------------------
  // Sheet order by leading number

  /** A sort key of `extract_number`: a finite float or `float('inf')`. */
  datatype Key = Finite(n: nat) | Infinite

  /** `extract_number(group_value)`: infinity for NaN (None) and for text without a leading
      digit run; otherwise the value of that run. */
  function ExtractNumber(v: Option<string>): Key {
    match v
    case None => Infinite
    case Some(s) =>
      var ds := LeadingDigits(s);
      if |ds| == 0 then Infinite else Finite(DigitsValue(ds))
  }

  /** `a <= b` between two keys. */
  predicate KeyLe(a: Key, b: Key) {
    b.Infinite? || (a.Finite? && a.n <= b.n)
  }

  /** The key of a sheet name. */
  function NameKey(name: string): Key {
    ExtractNumber(Some(name))
  }

  /** `key=lambda x: extract_number(x)` */
  const ByNumber: (Sheet, Sheet) -> bool := (a: Sheet, b: Sheet) => KeyLe(NameKey(a.name), NameKey(b.name))

  /** `sorted(all_sheets.keys(), key=lambda x: extract_number(x))` */
  function NumberOrder(book: seq<Sheet>): seq<Sheet> {
    SortWith(book, ByNumber)
  }

  // ---------------------------------------------------------------------------------------
  // GroupAnalyze_jp.py

  /** One row of `results`: the sheet, the work code and its share in percent. */
  datatype Share = Share(sheet: string, work: real, pct: real)

  /** The work code of a row after line 42 converted the column. */
  function WorkOf(r: Row): Reading {
    ReadFloat(Get(r, WorkCol))
  }

  /** Line 42 converts every work cell without raising. */
  predicate Convertible(rows: seq<Row>) {
    forall i :: 0 <= i < |rows| ==> !WorkOf(rows[i]).Raises?
  }

  /** The rows `groupby` keeps: those with a work code (NaN keys are dropped). */
  function Grouped(rows: seq<Row>): seq<Row> {
    Filter(rows, (r: Row) => WorkOf(r).Value?)
  }

  /** The work codes of the rows, in row order. */
  function WorkCodes(rows: seq<Row>): seq<real> {
    if |rows| == 0 then []
    else
      var w := WorkOf(rows[|rows| - 1]);
      WorkCodes(rows[..|rows| - 1]) + (if w.Value? then [w.x] else [])
  }

  const RealLe: (real, real) -> bool := (a: real, b: real) => a <= b

  /** The groups of `groupby("首次出现作品")`: the distinct codes in increasing order. */
  function Groups(rows: seq<Row>): seq<real> {
    SortedUnique(WorkCodes(rows), RealLe)
  }

  /** The 票数 sum of the group with work code `code`. */
  function GroupVotes(rows: seq<Row>, code: real): real {
    if |rows| == 0 then 0.0
    else
      var r := rows[|rows| - 1];
      GroupVotes(rows[..|rows| - 1], code) + (if WorkOf(r) == Value(code) then VoteOf(r) else 0.0)
  }

  /** One share per work code of `codes`: its group's votes over `total`, in percent. */
  function SharesFor(name: string, rows: seq<Row>, codes: seq<real>, total: real): seq<Share>
    requires total != 0.0
  {
    seq(|codes|, i requires 0 <= i < |codes| => Share(name, codes[i], GroupVotes(rows, codes[i]) / total * 100.0))
  }

  /** The rows lines 57-65 append for the sheet named `name`, one per group. */
  function SharesOf(name: string, rows: seq<Row>, total: real): seq<Share>
    requires total != 0.0
  {
    SharesFor(name, rows, Groups(rows), total)
  }

  /** The body of the loop of lines 40-65 for sheet `df`: None where it raises (line 42 on a
      missing or unconvertible work column, line 50 on a raw sheet it cannot sum, line 56 on
      a text vote), Some([]) where it skips the sheet, else the sheet's shares. */
  function GroupStep(df: Sheet, raw: seq<Sheet>): Option<seq<Share>> {
    if WorkCol !in df.columns || !Convertible(df.rows) then None
    else if VotesCol !in df.columns then Some([])
    else
      match RawTotal(raw, df.name)
      case None => None
      case Some(total) =>
        if total == 0.0 then Some([])
        else if !Readable(Grouped(df.rows)) then None
        else Some(SharesOf(df.name, df.rows, total))
  }

  /** `results` when line 69 is reached; None where the script raised, including the
      ValueError of line 70 for an empty result. */
  function GroupAnalysis(book: seq<Sheet>, raw: seq<Sheet>): Option<seq<Share>> {
    match MapAll(NumberOrder(book), (df: Sheet) => GroupStep(df, raw))
    case None => None
    case Some(parts) => if |Concat(parts)| == 0 then None else Some(Concat(parts))
  }

  /** Lines 41-57 for sheet `df`: the checks, then one share per group. */
  method SheetShares(df: Sheet, raw: seq<Sheet>) returns (shares: Option<seq<Share>>)
    ensures shares == GroupStep(df, raw)
  {
    if WorkCol !in df.columns || !Convertible(df.rows) {
      return None;
    }
    if VotesCol !in df.columns {
      return Some([]);
    }
    var total := RawTotal(raw, df.name);
    if total.None? {
      return None;
    }
    if total.value == 0.0 {
      return Some([]);
    }
    if !Readable(Grouped(df.rows)) {
      return None;
    }
    var groups := Groups(df.rows);
    ghost var want := SharesOf(df.name, df.rows, total.value);
    var grouped: seq<Share> := [];
    var j := 0;
    while j < |groups|
      invariant 0 <= j <= |groups| == |want|
      invariant grouped == want[..j]
    {
      TakeSnoc(want, j);
      var share := Share(df.name, groups[j], GroupVotes(df.rows, groups[j]) / total.value * 100.0);
      assert want[j] == share;
      grouped := grouped + [share];
      j := j + 1;
    }
    assert want[..j] == want;
    shares := Some(grouped);
  }

  /** `results.extend(xs)`, one append at a time. */
  method Extend<T>(acc: seq<T>, xs: seq<T>) returns (r: seq<T>)
    ensures r == acc + xs
  {
    r := acc;
    var j := 0;
    while j < |xs|
      invariant 0 <= j <= |xs|
      invariant r == acc + xs[..j]
    {
      TakeSnoc(xs, j);
      r := r + [xs[j]];
      j := j + 1;
    }
    assert xs[..j] == xs;
  }

  /** Lines 33-70. */
  method GroupAnalyze(book: seq<Sheet>, raw: seq<Sheet>) returns (results: Option<seq<Share>>)
    ensures results == GroupAnalysis(book, raw)
  {
    var order := NumberOrder(book);
    var f := (df: Sheet) => GroupStep(df, raw);
    ghost var parts: seq<seq<Share>> := [];
    var acc: seq<Share> := [];
    var i := 0;
    while i < |order|
      invariant 0 <= i <= |order|
      invariant MapAll(order[..i], f) == Some(parts)
      invariant acc == Concat(parts)
    {
      MapAllSnoc(order, f, i);
      var shares := SheetShares(order[i], raw);
      if shares.None? {
        MapAllPrefixFails(order, f, i + 1);
        return None;
      }
      var added := shares.value;
      acc := Extend(acc, added);
      parts := parts + [added];
      i := i + 1;
    }
    assert order[..i] == order;
    if |acc| == 0 {
      results := None;
    } else {
      results := Some(acc);
    }
  }

  // ---------------------------------------------------------------------------------------
  // CharacterAnalyze_jp.py

  const TargetName: string := "チルノ"

  /** The body of the loop of lines 39-69 for sheet `df`, an exception caught as Raised. */
  function CharacterStep(df: Sheet, raw: seq<Sheet>, target: string): Outcome {
    if JpNameCol !in df.columns || VotesCol !in df.columns then Rejected(MissingColumns)
    else
      match RawTotal(raw, df.name)
      case None => Rejected(RaisedTotal)
      case Some(total) =>
        if total == 0.0 then Rejected(ZeroTotal)
        else
          var m := Matching(df.rows, JpNameCol, Text(target));
          if |m| == 0 then Rejected(NoTarget)
          else
            var votes := ReadVotes(Get(m[0], VotesCol));
            if votes == Value(0.0) then Rejected(ZeroVotes) else Percent(votes, total)
  }

  /** `results` when line 72 is reached; None where it raises the ValueError of line 73. */
  function CharacterAnalysis(book: seq<Sheet>, raw: seq<Sheet>): Option<seq<(string, Pct)>> {
    var rs := Collect(NumberOrder(book), (df: Sheet) => CharacterStep(df, raw, TargetName));
    if |rs| == 0 then None else Some(rs)
  }

  /** Lines 41-65 for sheet `df`. */
  method SheetTarget(df: Sheet, raw: seq<Sheet>, target: string) returns (outcome: Outcome)
    ensures outcome == CharacterStep(df, raw, target)
  {
    if JpNameCol !in df.columns || VotesCol !in df.columns {
      return Rejected(MissingColumns);
    }
    var total := RawTotal(raw, df.name);
    if total.None? {
      return Rejected(RaisedTotal);
    }
    if total.value == 0.0 {
      return Rejected(ZeroTotal);
    }
    var targetRows := Matching(df.rows, JpNameCol, Text(target));
    if |targetRows| == 0 {
      return Rejected(NoTarget);
    }
    var votes := ReadVotes(Get(targetRows[0], VotesCol));
    if votes == Value(0.0) {
      return Rejected(ZeroVotes);
    }
    outcome := Percent(votes, total.value);
  }

  /** Lines 32-73. */
  method CharacterAnalyze(book: seq<Sheet>, raw: seq<Sheet>) returns (results: Option<seq<(string, Pct)>>)
    ensures results == CharacterAnalysis(book, raw)
  {
    var order := NumberOrder(book);
    var step := (df: Sheet) => CharacterStep(df, raw, TargetName);
    var acc: seq<(string, Pct)> := [];
    var i := 0;
    while i < |order|
      invariant 0 <= i <= |order|
      invariant acc == Collect(order[..i], step)
    {
      var df := order[i];
      var outcome := SheetTarget(df, raw, TargetName);
      if outcome.Measured? {
        acc := acc + [(df.name, outcome.pct)];
      }
      CollectSnoc(order, step, i);
      i := i + 1;
    }
    assert order[..i] == order;
    if |acc| == 0 {
      results := None;
    } else {
      results := Some(acc);
    }
  }

  // ---------------------------------------------------------------------------------------
  // top30.py

  const TopCount: nat := 30

  /** Every sheet name passes `int(x)`. */
  predicate IntNames(book: seq<Sheet>) {
    forall i :: 0 <= i < |book| ==> ParseInt(book[i].name).Some?
  }

  /** `key=lambda x: int(x)` */
  const ByInt: (Sheet, Sheet) -> bool := (a: Sheet, b: Sheet) => ParseInt(a.name).GetOr(0) <= ParseInt(b.name).GetOr(0)

  /** `sorted(all_sheets.keys(), key=lambda x: int(x))`; None for the ValueError of line 17. */
  function IntOrder(book: seq<Sheet>): Option<seq<Sheet>> {
    if IntNames(book) then Some(SortWith(book, ByInt)) else None
  }

  /** The numeric 票数 values of the rows, in row order. */
  function VoteValues(rows: seq<Row>): seq<real> {
    if |rows| == 0 then []
    else
      var v := ReadVotes(Get(rows[|rows| - 1], VotesCol));
      VoteValues(rows[..|rows| - 1]) + (if v.Value? then [v.x] else [])
  }

  const Descending: (real, real) -> bool := (a: real, b: real) => a >= b

  /** `df.sort_values("票数", ascending=False)["票数"].head(30).sum()`: NaN sorts last and the
      sum skips it, so this is the sum of the first 30 numeric values in descending order. */
  function TopSum(rows: seq<Row>): real {
    var s := SortWith(VoteValues(rows), Descending);
    SumR(s[..if |s| < TopCount then |s| else TopCount])
  }

  /** The body of the loop of lines 22-49 for sheet `df`, an exception caught as Raised. */
  function TopStep(df: Sheet, raw: seq<Sheet>): Outcome {
    if VotesCol !in df.columns then Rejected(MissingColumns)
    else
      match RawTotal(raw, df.name)
      case None => Rejected(RaisedTotal)
      case Some(total) =>
        if total == 0.0 then Rejected(ZeroTotal)
        else if !Readable(df.rows) then Rejected(Raised)
        else Measured(Pct(TopSum(df.rows) / total * 100.0))
  }

  /** `results` when line 52 is reached; None where the script raises (line 17 or 53). */
  function Top30Analysis(book: seq<Sheet>, raw: seq<Sheet>): Option<seq<(string, Pct)>> {
    match IntOrder(book)
    case None => None
    case Some(order) =>
      var rs := Collect(order, (df: Sheet) => TopStep(df, raw));
      if |rs| == 0 then None else Some(rs)
  }

  /** Lines 24-45 for sheet `df`. */
  method SheetTop(df: Sheet, raw: seq<Sheet>) returns (outcome: Outcome)
    ensures outcome == TopStep(df, raw)
  {
    if VotesCol !in df.columns {
      return Rejected(MissingColumns);
    }
    var total := RawTotal(raw, df.name);
    if total.None? {
      return Rejected(RaisedTotal);
    }
    if total.value == 0.0 {
      return Rejected(ZeroTotal);
    }
    if !Readable(df.rows) {
      return Rejected(Raised);
    }
    var top := TopSum(df.rows);
    outcome := Measured(Pct(top / total.value * 100.0));
  }

  /** Lines 14-53. */
  method Top30(book: seq<Sheet>, raw: seq<Sheet>) returns (results: Option<seq<(string, Pct)>>)
    ensures results == Top30Analysis(book, raw)
  {
    if !IntNames(book) {
      return None;
    }
    var order := SortWith(book, ByInt);
    var step := (df: Sheet) => TopStep(df, raw);
    var acc: seq<(string, Pct)> := [];
    var i := 0;
    while i < |order|
      invariant 0 <= i <= |order|
      invariant acc == Collect(order[..i], step)
    {
      var df := order[i];
      var outcome := SheetTop(df, raw);
      if outcome.Measured? {
        acc := acc + [(df.name, outcome.pct)];
      }
      CollectSnoc(order, step, i);
      i := i + 1;
    }
    assert order[..i] == order;
    if |acc| == 0 {
      results := None;
    } else {
      results := Some(acc);
    }
  }

  // ---------------------------------------------------------------------------------------
  // difference.py

  const TargetCnName: string := "琪露诺"
  const CnSheet: string := "11"
  const JpSheet: string := "20"

  /** `name_mapping[name]` for `fun.set_index('译名')['日文名'].to_dict()`: the 日文名 cell of
      the last row whose 译名 is `name` (a later duplicate key replaces an earlier one); None
      where `name` is not a key. */
  function MappedName(rows: seq<Row>, name: string): Option<Cell> {
    if |rows| == 0 then None
    else
      var r := rows[|rows| - 1];
      if Get(r, CnNameCol) == Text(name) then Some(Get(r, JpNameCol)) else MappedName(rows[..|rows| - 1], name)
  }

  /** `analyze_sheet(excel_grouped, excel_raw, sheet_name, target_col, target_name)`: the
      failure it raises, or its value. */
  function AnalyzeSheet(grouped: seq<Sheet>, raw: seq<Sheet>, name: string, targetCol: string, target: Cell): Outcome {
    if Lookup(grouped, name).None? || Lookup(raw, name).None? then Rejected(MissingSheet)
    else
      var g := Lookup(grouped, name).value;
      if VotesCol !in g.columns || targetCol !in g.columns then Rejected(MissingColumns)
      else
        match RawTotal(raw, name)
        case None => Rejected(RaisedTotal)
        case Some(total) =>
          if total == 0.0 then Rejected(ZeroTotal)
          else
            var m := Matching(g.rows, targetCol, target);
            if |m| == 0 then Rejected(NoTarget) else Percent(ReadVotes(Get(m[0], VotesCol)), total)
  }

  /** What the script ends with: an uncaught exception before the analysis (lines 11-16),
      the message and `exit()` of lines 49-51, or the printed report. */
  datatype Report = Crashed | Exited(why: Reason) | Printed(jpName: Cell, cn: Pct, jp: Pct, diff: Pct)

  /** The whole script on fun.xlsx and the four vote workbooks. */
  function DifferenceScript(fun: Sheet, cnGrouped: seq<Sheet>, cnRaw: seq<Sheet>,
                            jpGrouped: seq<Sheet>, jpRaw: seq<Sheet>): Report {
    if CnNameCol !in fun.columns || JpNameCol !in fun.columns then Crashed
    else
      match MappedName(fun.rows, TargetCnName)
      case None => Crashed
      case Some(jpName) =>
        match AnalyzeSheet(cnGrouped, cnRaw, CnSheet, CnNameCol, Text(TargetCnName))
        case Rejected(why) => Exited(why)
        case Measured(cn) =>
          match AnalyzeSheet(jpGrouped, jpRaw, JpSheet, JpNameCol, jpName)
          case Rejected(why) => Exited(why)
          case Measured(jp) => Printed(jpName, cn, jp, Minus(cn, jp))
  }
}
