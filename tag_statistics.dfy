/** The tag statistics of data_statistic/ChracterTagStatistics.py, read from the summary that
    SummarizeAllData.py writes. For every keyword ("tag") some character carries it builds a
    2 x 20 grid of vote shares, one row per region (0 = CN, 1 = JP) and one column per session:
    each cell sums `v / total_votes` over the sessions of the characters carrying the tag whose
    rank there is worse than `rank_boundary`. Then, for CN sessions 1..11 and JP sessions 3..20,
    it ranks all tags by their share in that session, largest first. The script raises (and here
    the result is None) on a missing rank, vote or total, a zero total, a session key without
    digits or a session number outside the grid. */
module TagStatistics {
  import opened Wrappers
  import opened Strings
  import opened Sorting
  import opened ODicts
  import opened Sheets
  import opened Summarize

  /** `rank_boundary`: a character placed at or above this rank in a session is not counted. */
  const RankBoundary: int := 10

  /** Columns of a grid: `np.zeros((2, 20))`. */
  const Width: nat := 20

  // ---------------------------------------------------------------------------------------
  // Tags (ChracterTagStatistics.py:13-19)

  /** The character records of the summary, in key order. */
  function Characters(d: Data): (r: seq<CharRec>)
    ensures |r| == |d.characters.Items()|
    ensures forall i :: 0 <= i < |r| ==> r[i] == d.characters.Items()[i].1
  {
    seq(|d.characters.Items()|, i requires 0 <= i < |d.characters.Items()| => d.characters.Items()[i].1)
  }

  /** `tag_list`: the keyword lists of the characters, concatenated in order. */
  function TagList(chars: seq<CharRec>): (r: seq<string>)
    ensures forall t :: t in r <==> exists i :: 0 <= i < |chars| && t in chars[i].keywords
  {
    if |chars| == 0 then []
    else
      var init := chars[..|chars| - 1];
      var r := TagList(init) + chars[|chars| - 1].keywords;
      assert forall i :: 0 <= i < |init| ==> init[i] == chars[i];
      r
  }

  /** `tags = np.unique(tag_list)`: every keyword of every character, once each, in ascending
      code-point order. */
  function Tags(d: Data): (r: seq<string>)
    ensures forall t :: t in r <==> exists i :: 0 <= i < |Characters(d)| && t in Characters(d)[i].keywords
    ensures forall i, j :: 0 <= i < j < |r| ==> LexLt(r[i], r[j])
  {
    var xs := TagList(Characters(d));
    var r := SortedStrings(xs);
    assert forall t :: t in r ==> t in xs;
    assert forall t :: t in xs ==> t in r;
    r
  }

  // ---------------------------------------------------------------------------------------
  // One session entry (ChracterTagStatistics.py:28-36, 50-56)

  /** `vote_data_processing(votes)`: the key's first digit run minus one, and region 0 when
      the key's ASCII letters spell exactly "cn", 1 otherwise. None where the key has no digit
      (`re.findall(...)[0]` raises). */
  function VoteDataProcessing(key: string): (r: Option<(int, nat)>)
    ensures r.None? <==> forall i :: 0 <= i < |key| ==> !IsDecimal(key[i])
    ensures r.Some? ==> -1 <= r.value.0 && r.value.1 < 2
    ensures r.Some? ==> (r.value.1 == 0 <==> AsciiLetters(key) == "cn")
  {
    match FirstDigitRun(key)
    case None => None
    case Some(ds) => Some((DigitsValue(ds) - 1, if AsciiLetters(key) == "cn" then 0 else 1))
  }

  /** numpy indexing of an axis of length `n`: a negative index counts from the end, anything
      else outside the axis raises IndexError. */
  function NumpyIndex(i: int, n: nat): (r: Option<nat>)
    ensures r.Some? <==> -(n as int) <= i < n
    ensures r.Some? ==> r.value < n && (r.value == i || r.value == i + n)
  {
    if 0 <= i < n then Some(i) else if -(n as int) <= i < 0 then Some(i + n) else None
  }

  /** `stats[key]` of a per-session record; None is a KeyError. */
  function Lookup(st: Stats, key: string): (r: Option<Value>)
    ensures r.Some? ==> (key, r.value) in st
    ensures r.None? ==> forall i :: 0 <= i < |st| ==> st[i].0 != key
  {
    if |st| == 0 then None else if st[0].0 == key then Some(st[0].1) else Lookup(st[1..], key)
  }

  /** `int(x)` of a summary value: a JSON null raises TypeError, a float truncates. */
  function PyInt(v: Value): Option<int> {
    match v
    case IntV(i) => i
    case FloatV(f) => if f.Some? then Some(Trunc(f.value)) else None
  }

  /** The number a summary value holds; a JSON null takes part in no arithmetic. */
  function PyReal(v: Value): Option<real> {
    match v
    case IntV(i) => if i.Some? then Some(i.value as real) else None
    case FloatV(f) => f
  }

  /** `int(stats['r'])` */
  function RankOf(st: Stats): Option<int> {
    match Lookup(st, "r") case None => None case Some(v) => PyInt(v)
  }

  /** `stats['v']` as a number. */
  function VotesOf(st: Stats): Option<real> {
    match Lookup(st, "v") case None => None case Some(v) => PyReal(v)
  }

  /** `data['indexes']['by_session'][key]['total_votes']`; None where a lookup fails or the
      total is null. */
  function SessionTotal(d: Data, key: string): Option<int> {
    if key in d.bySession.m then d.bySession.m[key].totalVotes else None
  }

  /** What one session entry of a character carrying the tag does to the grid. */
  datatype Step = Skip | Add(row: nat, col: nat, amount: real) | Fail

  /** The body of the innermost loop for session `key` with record `st`: skipped when the rank
      is within the boundary, otherwise `v / total_votes` is added at the processed
      (region, session) cell. */
  function SessionStep(d: Data, boundary: int, key: string, st: Stats): (s: Step)
    ensures s.Skip? <==> RankOf(st).Some? && RankOf(st).value <= boundary
    ensures s.Add? ==> s.row < 2 && s.col < Width && RankOf(st).Some? && RankOf(st).value > boundary
  {
    match RankOf(st)
    case None => Fail
    case Some(rank) =>
      if rank <= boundary then Skip
      else match VoteDataProcessing(key)
        case None => Fail
        case Some(p) =>
          match NumpyIndex(p.0, Width)
          case None => Fail
          case Some(col) =>
            match (VotesOf(st), SessionTotal(d, key))
            case (Some(v), Some(t)) => if t == 0 then Fail else Add(p.1, col, v / t as real)
            case _ => Fail
  }

  // ---------------------------------------------------------------------------------------
  // The accumulation (ChracterTagStatistics.py:39-56)

  /** A region x session table of shares. */
  type Grid = seq<seq<real>>

  predicate IsGrid(g: Grid) {
    |g| == 2 && |g[0]| == Width && |g[1]| == Width
  }

  /** `np.zeros((2, 20))` */
  function ZeroGrid(): (g: Grid)
    ensures IsGrid(g) && forall i, j :: 0 <= i < 2 && 0 <= j < Width ==> g[i][j] == 0.0
  {
    var z := seq(Width, j => 0.0);
    [z, z]
  }

  /** `g[n][c] += a` */
  function Bump(g: Grid, n: nat, c: nat, a: real): (h: Grid)
    requires IsGrid(g) && n < 2 && c < Width
    ensures IsGrid(h)
    ensures forall i, j :: 0 <= i < 2 && 0 <= j < Width ==>
      h[i][j] == g[i][j] + (if i == n && j == c then a else 0.0)
  {
    g[n := g[n][c := g[n][c] + a]]
  }

  function ApplyStep(g: Grid, s: Step): (r: Option<Grid>)
    requires IsGrid(g) && (s.Add? ==> s.row < 2 && s.col < Width)
    ensures r.Some? ==> IsGrid(r.value)
  {
    match s
    case Skip => Some(g)
    case Add(n, c, a) => Some(Bump(g, n, c, a))
    case Fail => None
  }

  /** The loop over one character's sessions, in key order. */
  function SessionsFold(d: Data, boundary: int, g: Grid, items: seq<(string, Stats)>): (r: Option<Grid>)
    requires IsGrid(g)
    ensures r.Some? ==> IsGrid(r.value)
    decreases |items|
  {
    if |items| == 0 then Some(g)
    else
      var last := items[|items| - 1];
      match SessionsFold(d, boundary, g, items[..|items| - 1])
      case None => None
      case Some(h) => ApplyStep(h, SessionStep(d, boundary, last.0, last.1))
  }

  /** The loop over the characters for one tag; characters without the tag are passed over. */
  function CharsFold(d: Data, boundary: int, tag: string, g: Grid, chars: seq<CharRec>): (r: Option<Grid>)
    requires IsGrid(g)
    ensures r.Some? ==> IsGrid(r.value)
    decreases |chars|
  {
    if |chars| == 0 then Some(g)
    else
      var c := chars[|chars| - 1];
      match CharsFold(d, boundary, tag, g, chars[..|chars| - 1])
      case None => None
      case Some(h) => if tag in c.keywords then SessionsFold(d, boundary, h, c.sessions.Items()) else Some(h)
  }

  /** `tags_dict[tag]` once the loops over the characters are done. */
  function TagGrid(d: Data, boundary: int, tag: string): (r: Option<Grid>)
    ensures r.Some? ==> IsGrid(r.value)
  {
    CharsFold(d, boundary, tag, ZeroGrid(), Characters(d))
  }

  /** `tags_dict`; None when the loop raises for any tag. */
  function TableOf(d: Data, boundary: int, tags: seq<string>): (r: Option<map<string, Grid>>)
    ensures r.Some? ==> r.value.Keys == set t | t in tags
    ensures r.Some? ==> forall t :: t in r.value ==> TagGrid(d, boundary, t) == Some(r.value[t])
    ensures r.None? <==> exists i :: 0 <= i < |tags| && TagGrid(d, boundary, tags[i]).None?
    decreases |tags|
  {
    if |tags| == 0 then Some(map[])
    else
      var t := tags[|tags| - 1];
      var init := tags[..|tags| - 1];
      assert forall i :: 0 <= i < |init| ==> init[i] == tags[i];
      assert forall u :: u in tags <==> u in init || u == t;
      match TableOf(d, boundary, init)
      case None => None
      case Some(m) =>
        match TagGrid(d, boundary, t)
        case None => None
        case Some(g) => Some(m[t := g])
  }

  // ---------------------------------------------------------------------------------------
  // The rankings (ChracterTagStatistics.py:93-124)

  /** A ranked list: (tag, share) pairs. */
  type Ranked = seq<(string, real)>

  /** `sorted(..., key=lambda x: x[1], reverse=True)` */
  const ByShareDesc: ((string, real), (string, real)) -> bool :=
    (x: (string, real), y: (string, real)) => x.1 >= y.1

  /** Every tag's grids are in the table. */
  predicate Covers(table: map<string, Grid>, tags: seq<string>) {
    forall i :: 0 <= i < |tags| ==> tags[i] in table && IsGrid(table[tags[i]])
  }

  /** `temp_dict.items()`: each tag with its share in column `col` of row `n`, in tag order. */
  function Shares(table: map<string, Grid>, tags: seq<string>, n: nat, col: nat): (r: Ranked)
    requires Covers(table, tags) && n < 2 && col < Width
    ensures |r| == |tags|
    ensures forall i :: 0 <= i < |r| ==> r[i] == (tags[i], table[tags[i]][n][col])
  {
    seq(|tags|, i requires 0 <= i < |tags| => (tags[i], table[tags[i]][n][col]))
  }

  /** `sorted_dict` for `session` of region `n`. */
  function Ranking(table: map<string, Grid>, tags: seq<string>, n: nat, session: int): Ranked
    requires Covers(table, tags) && n < 2 && 1 <= session <= Width
  {
    SortWith(Shares(table, tags, n, session - 1), ByShareDesc)
  }

  /** `tag_rank_sessions_china` (n = 0, sessions 1..11) or `tag_rank_sessions_japan` (n = 1,
      sessions 3..20). */
  function RegionRanks(table: map<string, Grid>, tags: seq<string>, n: nat, lo: int, hi: int): map<int, Ranked>
    requires Covers(table, tags) && n < 2 && 1 <= lo && hi <= Width
    decreases hi - lo
  {
    if hi < lo then map[]
    else
      var r := RegionRanks(table, tags, n, lo, hi - 1);
      r[hi := Ranking(table, tags, n, hi)]
  }

  /** The region's table holds exactly the sessions `lo..hi`, each with its ranking. */
  lemma {:induction false} RegionRanksSpec(table: map<string, Grid>, tags: seq<string>, n: nat, lo: int, hi: int)
    requires Covers(table, tags) && n < 2 && 1 <= lo && hi <= Width
    ensures forall s :: s in RegionRanks(table, tags, n, lo, hi) <==> lo <= s <= hi
    ensures forall s :: lo <= s <= hi ==> RegionRanks(table, tags, n, lo, hi)[s] == Ranking(table, tags, n, s)
    decreases hi - lo
  {
    if lo <= hi {
      RegionRanksSpec(table, tags, n, lo, hi - 1);
    }
  }

  datatype Rankings = Rankings(cn: map<int, Ranked>, jp: map<int, Ranked>)

  /** What the script computes before writing its two JSON files. */
  function Statistics(d: Data, boundary: int): Option<Rankings> {
    var tags := Tags(d);
    match TableOf(d, boundary, tags)
    case None => None
    case Some(table) =>
      assert Covers(table, tags);
      Some(Rankings(RegionRanks(table, tags, 0, 1, 11), RegionRanks(table, tags, 1, 3, 20)))
  }

  // ---------------------------------------------------------------------------------------
  // The script's loops

  /** The grid an array holds. */
  function GridOf(a: array2<real>): (g: Grid)
    reads a
    requires a.Length0 == 2 && a.Length1 == Width
    ensures IsGrid(g)
    ensures forall i, j :: 0 <= i < 2 && 0 <= j < Width ==> g[i][j] == a[i, j]
  {
    seq(2, i reads a requires 0 <= i < 2 => seq(Width, j reads a requires 0 <= j < Width => a[i, j]))
  }

  lemma GridExt(g: Grid, h: Grid)
    requires IsGrid(g) && IsGrid(h)
    requires forall i, j :: 0 <= i < 2 && 0 <= j < Width ==> g[i][j] == h[i][j]
    ensures g == h
  {
    assert g[0] == h[0];
    assert g[1] == h[1];
  }

  /** The loop over the sessions of one character carrying the tag, adding into `grid`;
      false where it raises. */
  method AddSessions(d: Data, boundary: int, grid: array2<real>, items: seq<(string, Stats)>) returns (ok: bool)
    requires grid.Length0 == 2 && grid.Length1 == Width
    modifies grid
    ensures var r := SessionsFold(d, boundary, old(GridOf(grid)), items);
      (ok <==> r.Some?) && (ok ==> GridOf(grid) == r.value)
  {
    ghost var start := GridOf(grid);
    var j := 0;
    while j < |items|
      invariant 0 <= j <= |items|
      invariant SessionsFold(d, boundary, start, items[..j]) == Some(GridOf(grid))
    {
      assert items[..j + 1][..j] == items[..j];
      match SessionStep(d, boundary, items[j].0, items[j].1) {
        case Fail =>
          SessionsStaysFailed(d, boundary, start, items, j + 1);
          return false;
        case Skip =>
        case Add(n, col, a) =>
          ghost var before := GridOf(grid);
          grid[n, col] := grid[n, col] + a;
          GridExt(GridOf(grid), Bump(before, n, col, a));
      }
      j := j + 1;
    }
    assert items[..j] == items;
    return true;
  }

  /** `tags_dict[tag] = np.zeros((2, 20))` and the loops over the characters and their
      sessions that fill it. */
  method AccumulateTag(d: Data, boundary: int, tag: string) returns (r: Option<Grid>)
    ensures r == TagGrid(d, boundary, tag)
  {
    var grid := new real[2, Width]((_, _) => 0.0);
    GridExt(GridOf(grid), ZeroGrid());
    var chars := Characters(d);
    var i := 0;
    while i < |chars|
      invariant 0 <= i <= |chars|
      invariant CharsFold(d, boundary, tag, ZeroGrid(), chars[..i]) == Some(GridOf(grid))
    {
      CharsFoldStep(d, boundary, tag, ZeroGrid(), chars, i);
      if tag in chars[i].keywords {
        var ok := AddSessions(d, boundary, grid, chars[i].sessions.Items());
        if !ok {
          CharsStaysFailed(d, boundary, tag, ZeroGrid(), chars, i + 1);
          return None;
        }
      }
      i := i + 1;
    }
    assert chars[..i] == chars;
    return Some(GridOf(grid));
  }

  lemma CharsFoldStep(d: Data, boundary: int, tag: string, g: Grid, chars: seq<CharRec>, i: nat)
    requires IsGrid(g) && i < |chars| && CharsFold(d, boundary, tag, g, chars[..i]).Some?
    ensures var h := CharsFold(d, boundary, tag, g, chars[..i]).value;
      CharsFold(d, boundary, tag, g, chars[..i + 1])
        == if tag in chars[i].keywords then SessionsFold(d, boundary, h, chars[i].sessions.Items()) else Some(h)
  {
    assert chars[..i + 1][..i] == chars[..i];
  }

  /** Once the sessions loop has raised, later sessions change nothing. */
  lemma {:induction false} SessionsStaysFailed(d: Data, boundary: int, g: Grid, items: seq<(string, Stats)>, n: nat)
    requires IsGrid(g) && n <= |items|
    requires SessionsFold(d, boundary, g, items[..n]).None?
    ensures SessionsFold(d, boundary, g, items).None?
    decreases |items| - n
  {
    if n < |items| {
      assert items[..n + 1][..n] == items[..n];
      SessionsStaysFailed(d, boundary, g, items, n + 1);
    } else {
      assert items[..n] == items;
    }
  }

  /** Once the characters loop has raised, later characters change nothing. */
  lemma {:induction false} CharsStaysFailed(d: Data, boundary: int, tag: string, g: Grid, chars: seq<CharRec>, n: nat)
    requires IsGrid(g) && n <= |chars|
    requires CharsFold(d, boundary, tag, g, chars[..n]).None?
    ensures CharsFold(d, boundary, tag, g, chars).None?
    decreases |chars| - n
  {
    if n < |chars| {
      assert chars[..n + 1][..n] == chars[..n];
      CharsStaysFailed(d, boundary, tag, g, chars, n + 1);
    } else {
      assert chars[..n] == chars;
    }
  }

  /** `for tag in tags: ...`: the whole of `tags_dict`, or None once a tag's loop raises. */
  method BuildTable(d: Data, boundary: int, tags: seq<string>) returns (table: Option<map<string, Grid>>)
    ensures table == TableOf(d, boundary, tags)
  {
    var m: map<string, Grid> := map[];
    var k := 0;
    while k < |tags|
      invariant 0 <= k <= |tags|
      invariant TableOf(d, boundary, tags[..k]) == Some(m)
    {
      assert tags[..k + 1][..k] == tags[..k];
      var g := AccumulateTag(d, boundary, tags[k]);
      if g.None? {
        TableStaysFailed(d, boundary, tags, k + 1);
        return None;
      }
      m := m[tags[k] := g.value];
      k := k + 1;
    }
    assert tags[..k] == tags;
    return Some(m);
  }

  lemma {:induction false} TableStaysFailed(d: Data, boundary: int, tags: seq<string>, n: nat)
    requires n <= |tags|
    requires TableOf(d, boundary, tags[..n]).None?
    ensures TableOf(d, boundary, tags).None?
  {
    var i :| 0 <= i < |tags[..n]| && TagGrid(d, boundary, tags[..n][i]).None?;
    assert tags[i] == tags[..n][i];
  }

  /** `temp_dict = {}` and `for tag in tags: temp_dict[tag] = tags_dict[tag][n][col]`; the
      tags are distinct, so the dict's items are the pairs in tag order. */
  method SharesOf(table: map<string, Grid>, tags: seq<string>, n: nat, col: nat) returns (temp: Ranked)
    requires Covers(table, tags) && n < 2 && col < Width
    ensures temp == Shares(table, tags, n, col)
  {
    temp := [];
    var k := 0;
    while k < |tags|
      invariant 0 <= k <= |tags|
      invariant temp == Shares(table, tags, n, col)[..k]
    {
      temp := temp + [(tags[k], table[tags[k]][n][col])];
      k := k + 1;
    }
  }

  /** One region's ranking loop: for each session, the shares of all tags, sorted. */
  method RankRegion(table: map<string, Grid>, tags: seq<string>, n: nat, lo: int, hi: int) returns (ranks: map<int, Ranked>)
    requires Covers(table, tags) && n < 2 && 1 <= lo <= hi + 1 && hi <= Width
    ensures ranks == RegionRanks(table, tags, n, lo, hi)
  {
    ranks := map[];
    var s := lo;
    while s <= hi
      invariant lo <= s <= hi + 1
      invariant ranks == RegionRanks(table, tags, n, lo, s - 1)
    {
      var temp := SharesOf(table, tags, n, s - 1);
      assert RegionRanks(table, tags, n, lo, s) == RegionRanks(table, tags, n, lo, s - 1)[s := Ranking(table, tags, n, s)];
      ranks := ranks[s := SortWith(temp, ByShareDesc)];
      s := s + 1;
    }
  }

  /** The script from the loaded summary to the two ranking tables. */
  method Run(d: Data, boundary: int) returns (out: Option<Rankings>)
    ensures out == Statistics(d, boundary)
  {
    var tags := Tags(d);
    var table := BuildTable(d, boundary, tags);
    if table.None? {
      return None;
    }
    var cn := RankRegion(table.value, tags, 0, 1, 11);
    var jp := RankRegion(table.value, tags, 1, 3, 20);
    return Some(Rankings(cn, jp));
  }
}
