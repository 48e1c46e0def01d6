/**
 * The follower history of `append_data` and `display_summary`: a map from
 * date key to a map from platform name to follower count, as the output JSON
 * file stores it (`{"2025-11-12": {"douyin": 5439, "bilibili": 532}}`).
 */
module History {
  import opened Wrappers
  import opened Ordering

  /** The counts recorded for one date, by platform name. */
  type Day = map<string, int>

  /** The whole history, by date key. */
  type Hist = map<string, Day>

  /** What the output file holds when the history is loaded. */
  datatype Stored =
    | Missing            // the file does not exist
    | Unreadable         // `open` or `json.load` raises
    | Saved(hist: Hist)  // the history `save_data` wrote

  /**
   * `load_existing_data`: the saved history; a missing file and one that
   * cannot be read or parsed both give the empty history.
   */
  function LoadExisting(st: Stored): Hist {
    if st.Saved? then st.hist else map[]
  }

  /** A history written by `save_data` is read back unchanged (`json.dump` then `json.load`). */
  lemma {:induction false} LoadSaved(h: Hist)
    ensures LoadExisting(Saved(h)) == h
  {
  }

  /** Nothing is lost by recovering: the empty history is what a missing or broken file reads as. */
  lemma {:induction false} LoadRecovers(st: Stored)
    requires !st.Saved?
    ensures LoadExisting(st) == map[]
  {
  }

  /** The count recorded for `platform` on `date`, if any. */
  function Lookup(h: Hist, date: string, platform: string): Option<int> {
    if date in h && platform in h[date] then Some(h[date][platform]) else None
  }

  /** `append_data`'s warning: the pair already has a count, which is about to be overwritten. */
  predicate Overwrites(h: Hist, date: string, platform: string) {
    Lookup(h, date, platform).Some?
  }

  /**
   * The history after `append_data` recorded `followers` for `platform` on
   * `date`: the date gets an empty day first if it is new, then the count is
   * set, replacing any earlier one.
   */
  function Merge(h: Hist, date: string, platform: string, followers: int): (r: Hist)
    ensures r.Keys == h.Keys + {date}
    ensures Lookup(r, date, platform) == Some(followers)
    ensures r[date].Keys == (if date in h then h[date].Keys else {}) + {platform}
  {
    var day := if date in h then h[date] else map[];
    h[date := day[platform := followers]]
  }

  /** Every other (date, platform) pair keeps its count, or its absence. */
  lemma {:induction false} MergeOthers(h: Hist, date: string, platform: string, followers: int, d: string, p: string)
    requires d != date || p != platform
    ensures Lookup(Merge(h, date, platform, followers), d, p) == Lookup(h, d, p)
  {
    var day := if date in h then h[date] else map[];
    if d == date {
      assert Merge(h, date, platform, followers)[d] == day[platform := followers];
    }
  }

  /** Merging into the empty history gives `{date: {platform: followers}}`. */
  lemma {:induction false} MergeIntoEmpty(date: string, platform: string, followers: int)
    ensures Merge(map[], date, platform, followers) == map[date := map[platform := followers]]
  {
  }

  /** Two counts for the same pair: the last one wins and leaves no trace of the first. */
  lemma {:induction false} MergeLastWins(h: Hist, date: string, platform: string, n1: int, n2: int)
    ensures Merge(Merge(h, date, platform, n1), date, platform, n2) == Merge(h, date, platform, n2)
  {
    var r1 := Merge(Merge(h, date, platform, n1), date, platform, n2);
    var r2 := Merge(h, date, platform, n2);
    assert r1[date] == r2[date];
  }

  /** Recording the same count twice is the same as recording it once. */
  lemma {:induction false} MergeIdempotent(h: Hist, date: string, platform: string, n: int)
    ensures Merge(Merge(h, date, platform, n), date, platform, n) == Merge(h, date, platform, n)
  {
    MergeLastWins(h, date, platform, n, n);
  }

  /** One recorded count: `followers` for `platform` on `date`. */
  datatype Record = Record(date: string, platform: string, followers: int)

  /** The history after recording `rs` one after the other. */
  function MergeAll(h: Hist, rs: seq<Record>): Hist
    decreases |rs|
  {
    if rs == [] then h
    else
      var r := rs[|rs| - 1];
      Merge(MergeAll(h, rs[..|rs| - 1]), r.date, r.platform, r.followers)
  }

  /** The count of the last record for the pair, if any record has it. */
  function LastFor(rs: seq<Record>, date: string, platform: string): (r: Option<int>)
    ensures r.Some? ==> exists i | 0 <= i < |rs| :: rs[i] == Record(date, platform, r.value)
    ensures r.None? ==> forall i | 0 <= i < |rs| :: rs[i].date != date || rs[i].platform != platform
    decreases |rs|
  {
    if rs == [] then None
    else if rs[|rs| - 1].date == date && rs[|rs| - 1].platform == platform then Some(rs[|rs| - 1].followers)
    else LastFor(rs[..|rs| - 1], date, platform)
  }

  /**
   * After a run of records, each pair holds the count of the last record for
   * it, and a pair no record mentions keeps what it had.
   */
  lemma {:induction false} MergeAllLookup(h: Hist, rs: seq<Record>, date: string, platform: string)
    ensures Lookup(MergeAll(h, rs), date, platform)
      == (if LastFor(rs, date, platform).Some? then LastFor(rs, date, platform) else Lookup(h, date, platform))
    decreases |rs|
  {
    if rs != [] {
      var r := rs[|rs| - 1];
      MergeAllLookup(h, rs[..|rs| - 1], date, platform);
      if r.date != date || r.platform != platform {
        MergeOthers(MergeAll(h, rs[..|rs| - 1]), r.date, r.platform, r.followers, date, platform);
      }
    }
  }

  /** The dates of the history after a run of records: the old ones and those of the records. */
  lemma {:induction false} MergeAllDates(h: Hist, rs: seq<Record>, d: string)
    ensures d in MergeAll(h, rs) <==> d in h || exists i | 0 <= i < |rs| :: rs[i].date == d
    decreases |rs|
  {
    if rs != [] {
      var rs' := rs[..|rs| - 1];
      MergeAllDates(h, rs', d);
      if exists i | 0 <= i < |rs'| :: rs'[i].date == d {
        var i :| 0 <= i < |rs'| && rs'[i].date == d;
        assert rs[i] == rs'[i];
      } else if d != rs[|rs| - 1].date {
        forall i | 0 <= i < |rs|
          ensures rs[i].date != d
        {
          if i < |rs'| { assert rs[i] == rs'[i]; }
        }
      }
    }
  }

  /** One row of the growth analysis, for a platform recorded on both the first and the last date. */
  datatype Growth = Growth(platform: string, first: int, last: int, growth: int, hasPercent: bool)

  /** The platforms the growth analysis looks at, in its order. */
  function GrowthOrder(): seq<string> {
    ["douyin", "bilibili", "xiaohongshu"]
  }

  /**
   * The growth rows for `platforms`, in order: a row for each platform
   * present on both days, holding both counts, their difference and whether
   * a percentage is computed (only when the first count is positive).
   */
  function GrowthRows(platforms: seq<string>, first: Day, last: Day): (rows: seq<Growth>)
    ensures |rows| <= |platforms|
    decreases |platforms|
  {
    if platforms == [] then []
    else
      var p := platforms[|platforms| - 1];
      var rest := GrowthRows(platforms[..|platforms| - 1], first, last);
      if p in first && p in last then rest + [Growth(p, first[p], last[p], last[p] - first[p], first[p] > 0)]
      else rest
  }

  /**
   * Every row is for a listed platform counted on both days and compares its
   * two counts; every listed platform counted on both days has a row.
   */
  lemma {:induction false} GrowthRowsComplete(platforms: seq<string>, first: Day, last: Day)
    ensures var rows := GrowthRows(platforms, first, last);
      && (forall r | r in rows ::
            && r.platform in platforms && r.platform in first && r.platform in last
            && r.first == first[r.platform] && r.last == last[r.platform]
            && r.growth == r.last - r.first && (r.hasPercent <==> r.first > 0))
      && (forall p | p in platforms && p in first && p in last :: exists r | r in rows :: r.platform == p)
    decreases |platforms|
  {
    if platforms != [] {
      var init := platforms[..|platforms| - 1];
      GrowthRowsComplete(init, first, last);
      assert forall p | p in init :: p in platforms;
      assert platforms == init + [platforms[|platforms| - 1]];
    }
  }

  /** The rows for one more platform: those before it, then its own row if it was counted on both days. */
  lemma {:induction false} GrowthRowsStep(platforms: seq<string>, i: nat, first: Day, last: Day)
    requires i < |platforms|
    ensures var p := platforms[i];
      GrowthRows(platforms[..i + 1], first, last)
        == GrowthRows(platforms[..i], first, last)
           + (if p in first && p in last then [Growth(p, first[p], last[p], last[p] - first[p], first[p] > 0)] else [])
  {
    assert platforms[..i + 1][..i] == platforms[..i];
  }

  /** What `display_summary` reports. */
  datatype Summary =
    | NoData                                       // the history is empty
    | Report(dates: seq<string>, growth: seq<Growth>)  // the sorted dates and the growth rows

  /**
   * The summary of a history: its dates in sorted order and, when there is
   * more than one, the growth from the smallest date key to the largest.
   */
  ghost function Summarize(h: Hist): Summary {
    if h == map[] then NoData
    else
      var dates := Sorted(h.Keys);
      Report(dates, if |dates| > 1 then GrowthRows(GrowthOrder(), h[dates[0]], h[dates[|dates| - 1]]) else [])
  }

  /**
   * The summary lists every date once, in order; its growth rows compare the
   * least date with the greatest, and there are none with a single date.
   */
  lemma {:induction false} SummarizeReport(h: Hist)
    requires h != map[]
    ensures Summarize(h).Report? && StrictlySorted(Summarize(h).dates) && Enumerates(Summarize(h).dates, h.Keys)
    ensures var ds := Summarize(h).dates;
      |ds| > 0 && forall d | d in h :: (d == ds[0] || StrLt(ds[0], d)) && (d == ds[|ds| - 1] || StrLt(d, ds[|ds| - 1]))
    ensures |h| == 1 ==> Summarize(h).growth == []
  {
    var ds := Summarize(h).dates;
    var d0 :| d0 in h;
    assert d0 in ds;
    forall d | d in h
      ensures (d == ds[0] || StrLt(ds[0], d)) && (d == ds[|ds| - 1] || StrLt(d, ds[|ds| - 1]))
    {
      SortedEnds(ds, d);
    }
    if |h| == 1 {
      SortedLength(ds, h.Keys);
    }
  }
}
