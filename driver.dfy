/**
 * `process_html_file`, `append_data`, `process_all_html_files` and
 * `display_summary`: the batch that reads every cached page in name order,
 * merges each follower count into the history file and stops at the first
 * page it cannot read a count from.
 */
module Driver {
  import opened Wrappers
  import opened Text
  import opened Ordering
  import opened Extractors
  import opened Timestamps
  import opened History

  /** The dictionary `process_html_file` returns. */
  datatype Entry = Entry(platform: Platform, followers: nat, timestamp: string, sourceFile: string)

  /** Why a page stopped the batch. */
  datatype Failure =
    | NotExtracted(file: string)                  // no platform in the name, or no count in the page
    | InvalidTimestamp(file: string, fields: DateTime)  // `strptime` rejects the name's token

  /** The position of a platform in the order the file name is tested. */
  function Rank(pf: Platform): nat {
    match pf
    case Bilibili => 0
    case Douyin => 1
    case Xiaohongshu => 2
  }

  /** The platform of a lower-cased file name: the first of `bilibili`, `douyin`, `xiaohongshu` it contains. */
  function PlatformOf(lname: string): Option<Platform> {
    if Contains(lname, "bilibili") then Some(Bilibili)
    else if Contains(lname, "douyin") then Some(Douyin)
    else if Contains(lname, "xiaohongshu") then Some(Xiaohongshu)
    else None
  }

  /**
   * The chosen platform's name occurs in the file name and no name tested
   * before it does; no platform is chosen only when none occurs.
   */
  lemma {:induction false} PlatformOfFirst(lname: string, pf: Platform)
    ensures PlatformOf(lname) == Some(pf)
      <==> Contains(lname, pf.Name()) && forall q: Platform | Rank(q) < Rank(pf) :: !Contains(lname, q.Name())
    ensures PlatformOf(lname) == None <==> forall q: Platform :: !Contains(lname, q.Name())
  {
    assert Rank(Bilibili) == 0 && Rank(Douyin) == 1 && Rank(Xiaohongshu) == 2;
    assert Bilibili.Name() == "bilibili" && Douyin.Name() == "douyin" && Xiaohongshu.Name() == "xiaohongshu";
    if PlatformOf(lname) == None {
      forall q: Platform
        ensures !Contains(lname, q.Name())
      {
      }
    }
  }

  /**
   * `process_html_file`: the platform from the lower-cased name, the count
   * from the page, the timestamp from the lower-cased name. A page without a
   * platform or a count raises instead of returning, and so does a token
   * `strptime` rejects.
   */
  function ProcessHtmlFile(name: string, html: string, now: DateTime): Result<Entry, Failure> {
    var lname := Lower(name);
    match PlatformOf(lname)
    case None => Err(NotExtracted(name))
    case Some(pf) =>
      match ExtractFollowers(pf, html)
      case None => Err(NotExtracted(name))
      case Some(n) =>
        match ExtractTimestamp(lname, now)
        case Err(d) => Err(InvalidTimestamp(name, d))
        case Ok(ts) => Ok(Entry(pf, n, ts, name))
  }

  /**
   * A page yields an entry exactly when its name names a platform, the
   * platform's pattern occurs in the page and the name's timestamp is
   * readable; the entry carries all three and the original name.
   */
  lemma {:induction false} ProcessHtmlFileOk(name: string, html: string, now: DateTime, e: Entry)
    ensures ProcessHtmlFile(name, html, now) == Ok(e) <==>
      && PlatformOf(Lower(name)) == Some(e.platform)
      && ExtractFollowers(e.platform, html) == Some(e.followers)
      && ExtractTimestamp(Lower(name), now) == Ok(e.timestamp)
      && e.sourceFile == name
  {
  }

  /** Fail-fast: without a platform in the name, or without a count in the page, the call raises. */
  lemma {:induction false} ProcessHtmlFileRaises(name: string, html: string, now: DateTime)
    requires PlatformOf(Lower(name)).None? || ExtractFollowers(PlatformOf(Lower(name)).value, html).None?
    ensures ProcessHtmlFile(name, html, now) == Err(NotExtracted(name))
  {
  }

  /** The timestamp of an entry is the one read from the lower-cased name. */
  lemma {:induction false} EntryTimestamp(name: string, html: string, now: DateTime, e: Entry)
    requires ProcessHtmlFile(name, html, now) == Ok(e)
    ensures ExtractTimestamp(Lower(name), now) == Ok(e.timestamp)
  {
  }

  /**
   * The date an entry is filed under: `YYYY-MM-DD` from the first eight
   * digits of the first `\d{8}_\d{6}` of the file name.
   */
  lemma {:induction false} EntryDateKey(name: string, html: string, now: DateTime, e: Entry, p: nat)
    requires ProcessHtmlFile(name, html, now) == Ok(e)
    requires TokenAt(name, p) && forall q: nat | q < p :: !TokenAt(name, q)
    ensures DateKey(e.timestamp) == name[p..p + 4] + "-" + name[p + 4..p + 6] + "-" + name[p + 6..p + 8]
  {
    EntryTimestamp(name, html, now, e);
    FindTokenFirst(name, p);
    LowerKeepsTokens(name);
    assert e.timestamp == IsoFormat(TokenFields(name, p));
    DateKeyOfToken(name, p);
  }

  /** The record an entry adds to the history. */
  function RecordOf(e: Entry): Record {
    Record(DateKey(e.timestamp), e.platform.Name(), e.followers)
  }

  /** The file after a run of records: untouched when there were none, written through after each one otherwise. */
  function StoreAfter(st: Stored, rs: seq<Record>): Stored {
    if rs == [] then st else Saved(MergeAll(LoadExisting(st), rs))
  }

  /** Whatever the file held before, a run of records leaves the history the records merged into what loads from it. */
  lemma {:induction false} StoreAfterLoads(st: Stored, rs: seq<Record>)
    ensures LoadExisting(StoreAfter(st, rs)) == MergeAll(LoadExisting(st), rs)
  {
    if rs != [] {
      LoadSaved(MergeAll(LoadExisting(st), rs));
    }
  }

  /** Saving after one more record is merging it into what the file held after the earlier ones. */
  lemma {:induction false} StoreAfterStep(st: Stored, rs: seq<Record>, r: Record)
    ensures StoreAfter(st, rs + [r]) == Saved(Merge(LoadExisting(StoreAfter(st, rs)), r.date, r.platform, r.followers))
  {
    StoreAfterLoads(st, rs);
    assert (rs + [r])[..|rs|] == rs;
  }

  /** The names `glob('*.html')` lists in the cache directory. */
  function HtmlNames(files: map<string, string>): (r: set<string>)
    ensures forall n | n in r :: n in files
  {
    set n | n in files && EndsWith(n, ".html")
  }

  /** A name is listed exactly when it is in the directory and its last five characters are `.html`. */
  lemma {:induction false} HtmlNamesExact(files: map<string, string>, n: string)
    ensures n in HtmlNames(files) <==> n in files && |n| >= 5 && n[|n| - 5..] == ".html"
  {
  }

  /** Processing the `i`-th name in order; `clock(i)` is what `datetime.now()` returns meanwhile. */
  function Attempt(files: map<string, string>, names: seq<string>, clock: nat -> DateTime, i: nat): Result<Entry, Failure>
    requires i < |names| && names[i] in files
  {
    ProcessHtmlFile(names[i], files[names[i]], clock(i))
  }

  /** The first `k` names are in the directory and each of them yields an entry. */
  predicate AllOk(files: map<string, string>, names: seq<string>, clock: nat -> DateTime, k: nat) {
    k <= |names| && forall i | 0 <= i < k :: names[i] in files && Attempt(files, names, clock, i).Ok?
  }

  /** The records of the first `k` names, in order. */
  function Records(files: map<string, string>, names: seq<string>, clock: nat -> DateTime, k: nat): (rs: seq<Record>)
    requires AllOk(files, names, clock, k)
    ensures |rs| == k
    decreases k
  {
    if k == 0 then []
    else Records(files, names, clock, k - 1) + [RecordOf(Attempt(files, names, clock, k - 1).value)]
  }

  /** One more page that yields an entry extends the run by its record. */
  lemma {:induction false} RecordsStep(files: map<string, string>, names: seq<string>, clock: nat -> DateTime, k: nat)
    requires AllOk(files, names, clock, k) && k < |names| && names[k] in files && Attempt(files, names, clock, k).Ok?
    ensures AllOk(files, names, clock, k + 1)
    ensures Records(files, names, clock, k + 1) == Records(files, names, clock, k) + [RecordOf(Attempt(files, names, clock, k).value)]
  {
  }

  /**
   * After the first `k` names the file holds the history that loads from
   * `st` with the first `k` entries merged into it, each after the one before.
   */
  lemma {:induction false} RecordsMerged(files: map<string, string>, names: seq<string>, clock: nat -> DateTime, k: nat, st: Stored, date: string, platform: string)
    requires AllOk(files, names, clock, k)
    ensures var rs := Records(files, names, clock, k);
      Lookup(LoadExisting(StoreAfter(st, rs)), date, platform)
        == (if LastFor(rs, date, platform).Some? then LastFor(rs, date, platform) else Lookup(LoadExisting(st), date, platform))
  {
    var rs := Records(files, names, clock, k);
    StoreAfterLoads(st, rs);
    MergeAllLookup(LoadExisting(st), rs, date, platform);
  }

  /** The growth loop of `display_summary`: one row per platform counted on both the first and the last date. */
  method GrowthAnalysis(first: Day, last: Day) returns (rows: seq<Growth>)
    ensures rows == GrowthRows(GrowthOrder(), first, last)
  {
    var platforms := GrowthOrder();
    rows := [];
    var i := 0;
    while i < |platforms|
      invariant 0 <= i <= |platforms|
      invariant rows == GrowthRows(platforms[..i], first, last)
    {
      var p := platforms[i];
      GrowthRowsStep(platforms, i, first, last);
      if p in first && p in last {
        rows := rows + [Growth(p, first[p], last[p], last[p] - first[p], first[p] > 0)];
      }
      i := i + 1;
    }
    assert platforms[..i] == platforms;
  }

  /** How `process_all_html_files` ends. */
  datatype Outcome =
    | NoCacheDir                                           // the cache directory does not exist
    | NoHtmlFiles                                          // it holds no `.html` file
    | Stopped(file: string, failure: Failure, processed: nat)  // a page raised; the batch ends there
    | Finished(processed: nat, total: nat, summary: Summary)   // every page was merged

  /** `DataExtractor`: its state is the output file, which every method reads and writes through. */
  class DataExtractor {
    var store: Stored

    constructor(store: Stored)
      ensures this.store == store
    {
      this.store := store;
    }

    /**
     * `append_data`: loads the history, gives a new date an empty day, sets
     * the platform's count (reporting whether it replaces one) and saves.
     */
    method AppendData(e: Entry) returns (overwritten: bool)
      modifies this
      ensures var r := RecordOf(e);
        && overwritten == Overwrites(LoadExisting(old(store)), r.date, r.platform)
        && store == Saved(Merge(LoadExisting(old(store)), r.date, r.platform, r.followers))
    {
      var history := LoadExisting(store);
      var platform := e.platform.Name();
      var date := DateKey(e.timestamp);
      if date !in history {
        history := history[date := map[]];
      }
      overwritten := platform in history[date];
      history := history[date := history[date][platform := e.followers]];
      store := Saved(history);
    }

    /**
     * `display_summary`: nothing for an empty history, otherwise the sorted
     * dates and, with more than one date, the growth from the first to the
     * last.
     */
    method DisplaySummary() returns (summary: Summary)
      ensures summary == Summarize(LoadExisting(store))
    {
      var history := LoadExisting(store);
      if history == map[] {
        return NoData;
      }
      var dates := SortedNames(history.Keys);
      var rows := [];
      if |dates| > 1 {
        assert dates[0] in history && dates[|dates| - 1] in history;
        rows := GrowthAnalysis(history[dates[0]], history[dates[|dates| - 1]]);
      }
      return Report(dates, rows);
    }

    /**
     * `process_all_html_files`: processes the `.html` pages of the cache
     * directory in sorted name order, merging and saving each entry before the
     * next page; the first page that raises ends the batch, and a finished
     * batch ends with the summary.
     */
    method ProcessAllHtmlFiles(dir: Option<map<string, string>>, clock: nat -> DateTime) returns (outcome: Outcome)
      modifies this
      ensures dir.None? <==> outcome.NoCacheDir?
      ensures dir.Some? && HtmlNames(dir.value) == {} <==> outcome.NoHtmlFiles?
      ensures outcome.NoCacheDir? || outcome.NoHtmlFiles? ==> store == old(store)
      ensures outcome.Stopped? ==>
        var files, names, k := dir.value, Sorted(HtmlNames(dir.value)), outcome.processed;
        && k < |names| && outcome.file == names[k] && AllOk(files, names, clock, k)
        && Attempt(files, names, clock, k) == Err(outcome.failure)
        && store == StoreAfter(old(store), Records(files, names, clock, k))
      ensures outcome.Finished? ==>
        var files, names, k := dir.value, Sorted(HtmlNames(dir.value)), outcome.processed;
        && k == outcome.total == |names| && AllOk(files, names, clock, k)
        && store == StoreAfter(old(store), Records(files, names, clock, k))
        && outcome.summary == Summarize(LoadExisting(store))
    {
      if dir.None? {
        return NoCacheDir;
      }
      var files := dir.value;
      var htmlFiles := HtmlNames(files);
      if htmlFiles == {} {
        return NoHtmlFiles;
      }
      var names := SortedNames(htmlFiles);
      var processed := 0;
      while processed < |names|
        invariant AllOk(files, names, clock, processed)
        invariant store == StoreAfter(old(store), Records(files, names, clock, processed))
      {
        var name := names[processed];
        assert name in htmlFiles;
        var entry := ProcessHtmlFile(name, files[name], clock(processed));
        if entry.Err? {
          return Stopped(name, entry.error, processed);
        }
        RecordsStep(files, names, clock, processed);
        StoreAfterStep(old(store), Records(files, names, clock, processed), RecordOf(entry.value));
        var _ := AppendData(entry.value);
        processed := processed + 1;
      }
      var summary := DisplaySummary();
      return Finished(processed, |names|, summary);
    }
  }
}
