/** The two scripts that read back the rankings ChracterTagStatistics writes:
    CharacterTagDifferent compares one Chinese and one Japanese session tag by tag, and
    CharacterTagAnalyze_ByTag follows one tag through every session of both regions.
    The saved JSON object is modelled as its list of (session text, [[tag, share], ...])
    members in file order. */
module TagCompare {
  import opened Wrappers
  import opened Strings
  import opened Seqs
  import opened Sorting
  import opened TagStatistics

  /** A JSON object of rankings as `json.load` hands it over: key text and value, in order. */
  type SavedRankings = seq<(string, Ranked)>

  // ---------------------------------------------------------------------------------------
  // Writing and reading the JSON files

  /** `rank_dict.get(s, [])` */
  function SessionList(rankDict: map<int, Ranked>, s: int): Ranked {
    if s in rankDict then rankDict[s] else []
  }

  /** `json.dump({s: list(map(list, ranks[s])) ...})` where `sessions` lists the dict's keys in
      insertion order: each int key is written as its decimal text. */
  function Dump(ranks: map<int, Ranked>, sessions: seq<int>): (r: SavedRankings)
    ensures |r| == |sessions|
    ensures forall i :: 0 <= i < |r| ==> r[i].0 == IntToString(sessions[i])
  {
    seq(|sessions|, i requires 0 <= i < |sessions| => (IntToString(sessions[i]), SessionList(ranks, sessions[i])))
  }

  /** `range(lo, hi + 1)`: the order in which ChracterTagStatistics inserts its sessions. */
  function SessionRange(lo: int, hi: int): (r: seq<int>)
    ensures |r| == if lo <= hi then hi - lo + 1 else 0
    ensures forall i :: 0 <= i < |r| ==> r[i] == lo + i
  {
    seq(if lo <= hi then hi - lo + 1 else 0, i => lo + i)
  }

  /** `{conv(session): tag_list for session, tag_list in loaded.items()}`: None where `conv`
      rejects some key (raises); a later duplicate key replaces an earlier one. */
  function LoadWith(obj: SavedRankings, conv: string -> Option<int>): Option<map<int, Ranked>> {
    if |obj| == 0 then Some(map[])
    else
      match LoadWith(obj[..|obj| - 1], conv)
      case None => None
      case Some(m) =>
        match conv(obj[|obj| - 1].0)
        case None => None
        case Some(k) => Some(m[k := obj[|obj| - 1].1])
  }

  /** The loading both scripts do, with `int(session)` as the key conversion. */
  function LoadLists(obj: SavedRankings): Option<map<int, Ranked>> {
    LoadWith(obj, ParseInt)
  }

  /** `{tag: float(value) for tag, value in tag_list}`: a later duplicate tag wins. */
  function RateMap(list: Ranked): map<string, real> {
    if |list| == 0 then map[]
    else RateMap(list[..|list| - 1])[list[|list| - 1].0 := list[|list| - 1].1]
  }

  /** The loading of CharacterTagDifferent: each session's list turned into a tag -> rate map. */
  function LoadRates(obj: SavedRankings): (r: Option<map<int, map<string, real>>>)
    ensures r.Some? <==> LoadLists(obj).Some?
    ensures r.Some? ==> forall k :: k in r.value <==> k in LoadLists(obj).value
    ensures r.Some? ==> forall k :: k in r.value ==> r.value[k] == RateMap(LoadLists(obj).value[k])
  {
    match LoadLists(obj)
    case None => None
    case Some(m) => Some(map k | k in m :: RateMap(m[k]))
  }

  /** The keys of the object converted by `conv`, in file order (0 stands for a key `conv`
      rejects, which never matters because loading has then failed). */
  function KeysWith(obj: SavedRankings, conv: string -> Option<int>): (ks: seq<int>)
    ensures |ks| == |obj|
  {
    seq(|obj|, i requires 0 <= i < |obj| => conv(obj[i].0).GetOr(0))
  }

  /** `sorted(d.keys())` on ints. */
  const IntLe: (int, int) -> bool := (a: int, b: int) => a <= b

  function SortedSessions(obj: SavedRankings): seq<int> {
    SortedUnique(KeysWith(obj, ParseInt), IntLe)
  }

  // ---------------------------------------------------------------------------------------
  // CharacterTagDifferent

  const CnSession: int := 11
  const JpSession: int := 20
  const Threshold: real := 0.01

  /** One kept row of `diff_list`: (tag, cn_rate, jp_rate, diff). */
  datatype Diff = Diff(tag: string, cn: real, jp: real, diff: real)

  /** `rank_sessions.get(session, {})` */
  function RatesOf(table: map<int, map<string, real>>, session: int): map<string, real> {
    if session in table then table[session] else map[]
  }

  /** `rates.get(tag, 0.0)` */
  function Rate(rates: map<string, real>, tag: string): real {
    if tag in rates then rates[tag] else 0.0
  }

  /** The row the loop body builds for `tag`. */
  function DiffOf(cn: map<string, real>, jp: map<string, real>, tag: string): (e: Diff)
    ensures e.tag == tag && e.diff == e.cn - e.jp
  {
    Diff(tag, Rate(cn, tag), Rate(jp, tag), Rate(cn, tag) - Rate(jp, tag))
  }

  predicate Passes(e: Diff, threshold: real) { Abs(e.diff) >= threshold }

  /** `diff_list` after the loop over `order`, the iteration order of `all_tags`. */
  function DiffsOf(cn: map<string, real>, jp: map<string, real>, order: seq<string>, threshold: real): seq<Diff> {
    if |order| == 0 then []
    else
      var e := DiffOf(cn, jp, order[|order| - 1]);
      DiffsOf(cn, jp, order[..|order| - 1], threshold) + (if Passes(e, threshold) then [e] else [])
  }

  /** `order` lists `set(cn.keys()).union(jp.keys())`: every tag of either map, once. */
  ghost predicate Enumerates(order: seq<string>, cn: map<string, real>, jp: map<string, real>) {
    NoDup(order) && forall t :: t in order <==> t in cn || t in jp
  }

  /** `key=lambda x: abs(x[3]), reverse=True` */
  const ByAbsDiffDesc: (Diff, Diff) -> bool := (x: Diff, y: Diff) => Abs(x.diff) >= Abs(y.diff)

  /** `diff_list` after `diff_list.sort(...)`. */
  function SortedDiffs(cn: map<string, real>, jp: map<string, real>, order: seq<string>, threshold: real): seq<Diff> {
    SortWith(DiffsOf(cn, jp, order, threshold), ByAbsDiffDesc)
  }

  /** What the script shows: the "no tag" message, or the bar chart's labels, heights in
      percent and colours (red where the Chinese rate is higher). */
  datatype Outcome = NoTag | Chart(tags: seq<string>, pcts: seq<real>, red: seq<bool>)

  function PlotData(diffs: seq<Diff>): Outcome {
    if |diffs| == 0 then NoTag
    else
      var pcts := seq(|diffs|, i requires 0 <= i < |diffs| => diffs[i].diff * 100.0);
      Chart(seq(|diffs|, i requires 0 <= i < |diffs| => diffs[i].tag), pcts,
            seq(|diffs|, i requires 0 <= i < |diffs| => pcts[i] > 0.0))
  }

  /** The comparison of two loaded tables. */
  function Compare(cnTable: map<int, map<string, real>>, jpTable: map<int, map<string, real>>,
                   cnSession: int, jpSession: int, threshold: real, order: seq<string>): Outcome {
    PlotData(SortedDiffs(RatesOf(cnTable, cnSession), RatesOf(jpTable, jpSession), order, threshold))
  }

  /** The whole script on the two files' contents; None where loading raises. */
  function DifferentScript(cnObj: SavedRankings, jpObj: SavedRankings, order: seq<string>): Option<Outcome> {
    match (LoadRates(cnObj), LoadRates(jpObj))
    case (Some(cnTable), Some(jpTable)) => Some(Compare(cnTable, jpTable, CnSession, JpSession, Threshold, order))
    case _ => None
  }

  /** The loop of lines 44-49. */
  method CollectDiffs(cn: map<string, real>, jp: map<string, real>, order: seq<string>, threshold: real)
    returns (diffList: seq<Diff>)
    ensures diffList == DiffsOf(cn, jp, order, threshold)
  {
    diffList := [];
    var i := 0;
    while i < |order|
      invariant 0 <= i <= |order|
      invariant diffList == DiffsOf(cn, jp, order[..i], threshold)
    {
      var tag := order[i];
      var cnRate := if tag in cn then cn[tag] else 0.0;
      var jpRate := if tag in jp then jp[tag] else 0.0;
      var diff := cnRate - jpRate;
      if Abs(diff) >= threshold {
        diffList := diffList + [Diff(tag, cnRate, jpRate, diff)];
      }
      assert order[..i + 1][..i] == order[..i];
      i := i + 1;
    }
    assert order[..i] == order;
  }

  // ---------------------------------------------------------------------------------------
  // CharacterTagAnalyze_ByTag

  const Tag: string := "萝莉"

  /** The rate of the first entry for `tag`, or 0.0 when there is none. */
  function FirstRate(list: Ranked, tag: string): real {
    if |list| == 0 then 0.0
    else if list[0].0 == tag then list[0].1
    else FirstRate(list[1..], tag)
  }

  /** What `extract_relative_heat_per_session` returns. */
  function Heat(rankDict: map<int, Ranked>, sessions: seq<int>, tag: string): (r: seq<real>)
    ensures |r| == |sessions|
  {
    seq(|sessions|, i requires 0 <= i < |sessions| => FirstRate(SessionList(rankDict, sessions[i]), tag))
  }

  /** `extract_relative_heat_per_session(rank_dict, sessions, tag_name)` */
  method ExtractRelativeHeat(rankDict: map<int, Ranked>, sessions: seq<int>, tagName: string)
    returns (rates: seq<real>)
    ensures rates == Heat(rankDict, sessions, tagName)
  {
    rates := [];
    var i := 0;
    while i < |sessions|
      invariant 0 <= i <= |sessions|
      invariant rates == Heat(rankDict, sessions[..i], tagName)
    {
      var found := false;
      var sessionData := if sessions[i] in rankDict then rankDict[sessions[i]] else [];
      var j := 0;
      while j < |sessionData|
        invariant 0 <= j <= |sessionData|
        invariant !found
        invariant FirstRate(sessionData, tagName) == FirstRate(sessionData[j..], tagName)
        invariant rates == Heat(rankDict, sessions[..i], tagName)
      {
        if sessionData[j].0 == tagName {
          rates := rates + [sessionData[j].1];
          found := true;
          break;
        }
        assert sessionData[j..][1..] == sessionData[j + 1..];
        j := j + 1;
      }
      if !found {
        rates := rates + [0.0];
      }
      assert rates == Heat(rankDict, sessions[..i], tagName) + [FirstRate(sessionData, tagName)];
      i := i + 1;
    }
    assert sessions[..i] == sessions;
  }

  /** One region's curve: the sessions along the x axis and the tag's rate in each. */
  datatype Curve = Curve(sessions: seq<int>, values: seq<real>)

  function CurveOf(obj: SavedRankings, rankDict: map<int, Ranked>, tag: string): Curve {
    var sessions := SortedSessions(obj);
    Curve(sessions, Heat(rankDict, sessions, tag))
  }

  /** The whole script on the two files' contents; None where loading raises. */
  function ByTagScript(cnObj: SavedRankings, jpObj: SavedRankings, tag: string): Option<(Curve, Curve)> {
    match (LoadLists(cnObj), LoadLists(jpObj))
    case (Some(cn), Some(jp)) => Some((CurveOf(cnObj, cn, tag), CurveOf(jpObj, jp, tag)))
    case _ => None
  }
}
