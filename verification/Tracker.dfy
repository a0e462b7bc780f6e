/** `CompetitorTracker.analyze_changes_with_ai` and the `scan_all` loop over an
    in-memory store of the three tables they touch: competitors, content
    snapshots and change records. */
module Tracker {
  import opened Wrappers
  import opened Text
  import opened Records
  import opened Response
  import opened Classifier
  import opened Scraper

  /** A row of the `competitors` table. */
  datatype Competitor = Competitor(id: int, name: string, website: string, lastChecked: Option<string>)

  /** A row of the `content_snapshots` table. */
  datatype Snapshot = Snapshot(competitorId: int, contentHash: string, content: string, scrapedAt: string)

  /** What fetching a website gives: the lines of the page's visible text, the
      raw changelog extract and the time of the fetch; or the error message. */
  datatype FetchOutcome =
    | Fetched(lines: seq<string>, changelog: string, scrapedAt: string)
    | FetchFailed(error: string, scrapedAt: string)

  /** The HTTP fetch and HTML extraction, supplied from outside. */
  type Fetcher = string -> FetchOutcome

  /** The dictionary `scrape_website` returns. */
  datatype ScrapeOutcome =
    | Scraped(page: Page, scrapedAt: string)
    | ScrapeFailed(error: string, scrapedAt: string)

  /** What `analyze_changes_with_ai` does: no such competitor (returns `None`),
      a recorded change, or an exception before anything is committed. */
  datatype Analyzed = NoCompetitor | Recorded(change: ChangeRecord) | Raised(error: string)

  /** One entry of the `scan_all` results. */
  datatype ScanResult =
    | ScanSucceeded(competitor: string, change: Option<ChangeRecord>)
    | ScanFailed(competitor: string, error: string)

  /** The three tables as values. */
  datatype StoreState = StoreState(competitors: seq<Competitor>, snapshots: seq<Snapshot>, changes: seq<ChangeRecord>)

  /** The message of the `KeyError` raised when the scrape result has no hash. */
  const ContentHashKeyError := "'content_hash'"

  const ScanErrorAnalysis := "Failed to scrape content"
  const ScanErrorType := "error"
  const ScanErrorTitle := "Scan Error for "
  const ScanErrorExcerpt := "Unable to retrieve website content"

  /** `scrape_website(url)`, with the fetch and the hash supplied from outside.
      A successful fetch gives the page record of its text, stamped with the
      fetch time; a failed one gives its error message and time. */
  function Scrape(fetch: Fetcher, hash: string -> string, url: string): (r: ScrapeOutcome)
    ensures r.Scraped? <==> fetch(url).Fetched?
    ensures r.scrapedAt == fetch(url).scrapedAt
    ensures r.Scraped? ==>
              (r.page.contentHash == hash(Normalize(fetch(url).lines))
               && StartsWith(Normalize(fetch(url).lines), r.page.content)
               && StartsWith(fetch(url).changelog, r.page.changelogContent))
    ensures r.ScrapeFailed? ==> r.error == fetch(url).error
  {
    match fetch(url)
    case Fetched(lines, changelog, at) => Scraped(PageOf(lines, changelog, hash), at)
    case FetchFailed(error, at) => ScrapeFailed(error, at)
  }

  /** The competitor with this id, if any. */
  function FindCompetitor(cs: seq<Competitor>, id: int): (r: Option<Competitor>)
    ensures r.Some? ==> r.value in cs && r.value.id == id
    ensures r.None? <==> forall c :: c in cs ==> c.id != id
  {
    if cs == [] then None
    else if cs[0].id == id then Some(cs[0])
    else FindCompetitor(cs[1..], id)
  }

  /** The content of the competitor's latest snapshot, or the empty text. */
  function LatestContent(snapshots: seq<Snapshot>, id: int): string {
    if snapshots == [] then ""
    else if snapshots[|snapshots| - 1].competitorId == id then snapshots[|snapshots| - 1].content
    else LatestContent(snapshots[..|snapshots| - 1], id)
  }

  /** `UPDATE competitors SET last_checked = ? WHERE id = ?`. */
  function MarkChecked(cs: seq<Competitor>, id: int, at: string): (r: seq<Competitor>)
    ensures |r| == |cs|
    ensures forall i :: 0 <= i < |cs| ==>
      r[i] == if cs[i].id == id then cs[i].(lastChecked := Some(at)) else cs[i]
  {
    seq(|cs|, i requires 0 <= i < |cs| => if cs[i].id == id then cs[i].(lastChecked := Some(at)) else cs[i])
  }

  /** The record written when the page had no content; the classifier is not asked. */
  function ScanError(name: string, website: string): (r: ChangeResult)
    ensures r.changeType == ScanErrorType && r.importance == 1 && r.sourceLinks == website
  {
    ChangeResult(ScanErrorType, 1, ScanErrorAnalysis, ScanErrorTitle + name, ScanErrorExcerpt, website)
  }

  /** The classification of new content against the previous one. */
  function Classify(previous: string, content: string, c: Competitor, model: Model): ChangeResult {
    if content != [] then Analysis(previous, content, c.name, c.website, model) else ScanError(c.name, c.website)
  }

  function RecordOf(c: Competitor, page: Page, at: string, result: ChangeResult): ChangeRecord {
    ChangeRecord(c.id, c.name, page.content, page.contentHash, page.changelogContent,
                 result.analysis, result.changeType, result.importance, result.newsTitle,
                 result.newsExcerpt, result.sourceLinks, at, c.website)
  }

  /** `analyze_changes_with_ai(id, current_data)` on the store `s`: what it
      returns and the store it leaves. */
  function AnalyzeStep(s: StoreState, id: int, current: ScrapeOutcome, model: Model): (Analyzed, StoreState) {
    match FindCompetitor(s.competitors, id)
    case None => (NoCompetitor, s)
    case Some(c) =>
      match current
      case ScrapeFailed(_, _) => (Raised(ContentHashKeyError), s)
      case Scraped(page, at) =>
        var previous := LatestContent(s.snapshots, id);
        var record := RecordOf(c, page, at, Classify(previous, page.content, c, model));
        (Recorded(record),
         StoreState(MarkChecked(s.competitors, id, at),
                    s.snapshots + [Snapshot(id, page.contentHash, page.content, at)],
                    s.changes + [record]))
  }

  /** One turn of the `scan_all` loop for competitor `c`. A scrape error with
      a non-empty message is reported as it is; one with an empty message is
      not caught by the error test, and the analysis then fails on the
      missing hash. */
  function ScanStep(s: StoreState, c: Competitor, fetch: Fetcher, hash: string -> string, model: Model)
    : (ScanResult, StoreState)
  {
    var current := Scrape(fetch, hash, c.website);
    if current.ScrapeFailed? && current.error != [] then (ScanFailed(c.name, current.error), s)
    else
      var step := AnalyzeStep(s, c.id, current, model);
      match step.0
      case Raised(e) => (ScanFailed(c.name, e), s)
      case NoCompetitor => (ScanSucceeded(c.name, None), step.1)
      case Recorded(record) => (ScanSucceeded(c.name, Some(record)), step.1)
  }

  /** The `scan_all` loop over the competitors `cs`, from the store `s`. */
  function ScanAllFrom(s: StoreState, cs: seq<Competitor>, fetch: Fetcher, hash: string -> string, model: Model)
    : (seq<ScanResult>, StoreState)
  {
    if cs == [] then ([], s)
    else
      var before := ScanAllFrom(s, cs[..|cs| - 1], fetch, hash, model);
      var step := ScanStep(before.1, cs[|cs| - 1], fetch, hash, model);
      (before.0 + [step.0], step.1)
  }

  // ------------------------------------------------------ one analysis step

  /** Only `last_checked` changes in the competitors table. */
  predicate SameRoster(a: seq<Competitor>, b: seq<Competitor>) {
    |a| == |b| &&
    forall i :: 0 <= i < |a| ==> a[i].id == b[i].id && a[i].name == b[i].name && a[i].website == b[i].website
  }

  /** A competitor with no snapshot has the empty text as its previous content. */
  lemma {:induction false} LatestContentWithoutHistory(snapshots: seq<Snapshot>, id: int)
    requires forall k :: 0 <= k < |snapshots| ==> snapshots[k].competitorId != id
    ensures LatestContent(snapshots, id) == ""
  {
    if snapshots != [] {
      LatestContentWithoutHistory(snapshots[..|snapshots| - 1], id);
    }
  }

  /** An unknown competitor and a scrape without content hash leave the store
      as it was; otherwise the step appends one snapshot and one change record
      for that competitor, the snapshot becomes its latest content, and only
      its `last_checked` changes, to the scrape time. */
  lemma AnalyzeStepWrites(s: StoreState, id: int, current: ScrapeOutcome, model: Model)
    ensures FindCompetitor(s.competitors, id).None? ==> AnalyzeStep(s, id, current, model) == (NoCompetitor, s)
    ensures FindCompetitor(s.competitors, id).Some? && current.ScrapeFailed? ==>
      AnalyzeStep(s, id, current, model) == (Raised(ContentHashKeyError), s)
    ensures FindCompetitor(s.competitors, id).Some? && current.Scraped? ==>
      var step := AnalyzeStep(s, id, current, model);
      var c := FindCompetitor(s.competitors, id).value;
      step.0.Recorded? && step.1.changes == s.changes + [step.0.change]
      && step.0.change.competitorId == id && step.0.change.competitorName == c.name && step.0.change.url == c.website
      && step.0.change.content == current.page.content && step.0.change.contentHash == current.page.contentHash
      && step.0.change.detectedAt == current.scrapedAt
      && |step.1.snapshots| == |s.snapshots| + 1 && step.1.snapshots[..|s.snapshots|] == s.snapshots
      && LatestContent(step.1.snapshots, id) == current.page.content
      && SameRoster(s.competitors, step.1.competitors)
      && forall i :: 0 <= i < |s.competitors| ==>
           step.1.competitors[i].lastChecked ==
             if s.competitors[i].id == id then Some(current.scrapedAt) else s.competitors[i].lastChecked
  {
    if FindCompetitor(s.competitors, id).Some? && current.Scraped? {
      var step := AnalyzeStep(s, id, current, model);
      assert step.1.snapshots[..|s.snapshots|] == s.snapshots;
    }
  }

  /** Empty content gives the scan-error record with score 1, whatever the
      model would have said: the classifier is not consulted. */
  lemma EmptyContentIsScanError(s: StoreState, id: int, page: Page, at: string, model: Model, other: Model)
    requires FindCompetitor(s.competitors, id).Some? && page.content == []
    ensures AnalyzeStep(s, id, Scraped(page, at), model).0.change.changeType == ScanErrorType
    ensures AnalyzeStep(s, id, Scraped(page, at), model).0.change.importance == 1
    ensures AnalyzeStep(s, id, Scraped(page, at), model) == AnalyzeStep(s, id, Scraped(page, at), other)
  {
  }

  /** Content for a competitor without any snapshot is a first scan with score 3. */
  lemma FirstScanWithoutHistory(s: StoreState, id: int, page: Page, at: string, model: Model)
    requires FindCompetitor(s.competitors, id).Some? && page.content != []
    requires forall k :: 0 <= k < |s.snapshots| ==> s.snapshots[k].competitorId != id
    ensures AnalyzeStep(s, id, Scraped(page, at), model).0.change.changeType == "first_scan"
    ensures AnalyzeStep(s, id, Scraped(page, at), model).0.change.importance == 3
  {
    LatestContentWithoutHistory(s.snapshots, id);
  }

  /** The snapshot is stored before the next classification reads it: a second
      scan compares the new content with the content of the first; and after
      a scan that found no content, the next scan is a first scan again. */
  lemma SecondScanComparesWithFirst(s: StoreState, id: int, first: Page, at1: string,
                                    second: Page, at2: string, model: Model)
    requires FindCompetitor(s.competitors, id).Some? && second.content != []
    ensures var s1 := AnalyzeStep(s, id, Scraped(first, at1), model).1;
      var c := FindCompetitor(s.competitors, id).value;
      var r := AnalyzeStep(s1, id, Scraped(second, at2), model).0.change;
      (first.content != [] ==>
         r.changeType == Analysis(first.content, second.content, c.name, c.website, model).changeType
         && r.importance == Analysis(first.content, second.content, c.name, c.website, model).importance)
      && (first.content == [] ==> r.changeType == "first_scan" && r.importance == 3)
  {
    var s1 := AnalyzeStep(s, id, Scraped(first, at1), model).1;
    var c := FindCompetitor(s.competitors, id).value;
    AnalyzeStepWrites(s, id, Scraped(first, at1), model);
    FindInRoster(s.competitors, s1.competitors, id);
  }

  /** Competitor lookup sees through a change of `last_checked`. */
  lemma {:induction false} FindInRoster(a: seq<Competitor>, b: seq<Competitor>, id: int)
    requires SameRoster(a, b)
    ensures FindCompetitor(a, id).Some? <==> FindCompetitor(b, id).Some?
    ensures FindCompetitor(a, id).Some? ==>
      FindCompetitor(b, id).value.name == FindCompetitor(a, id).value.name
      && FindCompetitor(b, id).value.website == FindCompetitor(a, id).value.website
  {
    if a != [] && a[0].id != id {
      FindInRoster(a[1..], b[1..], id);
    }
  }

  // ------------------------------------------------------------ the scan loop

  /** The change records reported by successful scans, in order. */
  function Reported(results: seq<ScanResult>): seq<ChangeRecord> {
    if results == [] then []
    else
      var last := results[|results| - 1];
      Reported(results[..|results| - 1])
      + (if last.ScanSucceeded? && last.change.Some? then [last.change.value] else [])
  }

  lemma ReportedAppend(results: seq<ScanResult>, r: ScanResult)
    ensures Reported(results + [r]) == Reported(results) + Reported([r])
  {
    assert (results + [r])[..|results|] == results;
    assert [r][..0] == [];
  }

  /** A scan result fits its competitor and its fetch: it names the
      competitor, fails exactly when the fetch failed, and carries a record
      when it succeeds. */
  predicate Fits(r: ScanResult, c: Competitor, fetch: Fetcher) {
    r.competitor == c.name
    && (r.ScanFailed? <==> fetch(c.website).FetchFailed?)
    && (r.ScanSucceeded? ==> r.change.Some?)
  }

  /** One scan of a listed competitor: its result fits it, and a failure
      carries the fetch's error, or the missing-hash error when the fetch's
      message is empty. */
  lemma ScanStepResult(s: StoreState, c: Competitor, fetch: Fetcher, hash: string -> string, model: Model)
    requires FindCompetitor(s.competitors, c.id).Some?
    ensures var r := ScanStep(s, c, fetch, hash, model).0;
      Fits(r, c, fetch)
      && (r.ScanFailed? ==> r.error == if fetch(c.website).error != [] then fetch(c.website).error else ContentHashKeyError)
  {
  }

  lemma FitsAppend(rs: seq<ScanResult>, cs: seq<Competitor>, r: ScanResult, c: Competitor, fetch: Fetcher)
    requires |rs| == |cs| && forall i :: 0 <= i < |cs| ==> Fits(rs[i], cs[i], fetch)
    requires Fits(r, c, fetch)
    ensures forall i :: 0 <= i < |cs| + 1 ==> Fits((rs + [r])[i], (cs + [c])[i], fetch)
  {
    forall i | 0 <= i < |cs| + 1
      ensures Fits((rs + [r])[i], (cs + [c])[i], fetch)
    {
      if i < |cs| {
        assert (rs + [r])[i] == rs[i] && (cs + [c])[i] == cs[i];
      }
    }
  }

  /** From `s` to `t` the roster is kept, the change table gains exactly the
      records `results` report, the snapshot table one snapshot per record,
      and nothing stored before is lost. */
  predicate Grew(s: StoreState, t: StoreState, results: seq<ScanResult>) {
    SameRoster(s.competitors, t.competitors)
    && t.changes == s.changes + Reported(results)
    && |t.snapshots| == |s.snapshots| + |Reported(results)|
    && t.snapshots[..|s.snapshots|] == s.snapshots
  }

  /** One scan of a listed competitor grows the store by the record its
      result reports. */
  lemma ScanStepStore(s: StoreState, c: Competitor, fetch: Fetcher, hash: string -> string, model: Model)
    requires FindCompetitor(s.competitors, c.id).Some?
    ensures var step := ScanStep(s, c, fetch, hash, model); Grew(s, step.1, [step.0])
  {
    var current := Scrape(fetch, hash, c.website);
    var step := ScanStep(s, c, fetch, hash, model);
    assert Reported([step.0]) == Reported([]) + (if step.0.ScanSucceeded? && step.0.change.Some? then [step.0.change.value] else []);
    AnalyzeStepWrites(s, c.id, current, model);
  }

  lemma GrewAppend(s: StoreState, m: StoreState, t: StoreState, results: seq<ScanResult>, r: ScanResult)
    requires Grew(s, m, results) && Grew(m, t, [r])
    ensures Grew(s, t, results + [r])
  {
    ReportedAppend(results, r);
    assert t.snapshots[..|s.snapshots|] == m.snapshots[..|s.snapshots|];
  }

  /** `scan_all` over listed competitors grows the store by exactly the
      records its results report. */
  lemma {:induction false} ScanAllStore(s: StoreState, cs: seq<Competitor>, fetch: Fetcher, hash: string -> string, model: Model)
    requires forall k :: 0 <= k < |cs| ==> FindCompetitor(s.competitors, cs[k].id).Some?
    ensures var run := ScanAllFrom(s, cs, fetch, hash, model); Grew(s, run.1, run.0)
  {
    if cs != [] {
      var init := cs[..|cs| - 1];
      var c := cs[|cs| - 1];
      ScanAllStore(s, init, fetch, hash, model);
      var before := ScanAllFrom(s, init, fetch, hash, model);
      FindInRoster(s.competitors, before.1.competitors, c.id);
      ScanStepStore(before.1, c, fetch, hash, model);
      var step := ScanStep(before.1, c, fetch, hash, model);
      GrewAppend(s, before.1, step.1, before.0, step.0);
    }
  }

  /** `scan_all` over listed competitors: exactly one result per competitor, in
      order; a competitor's result fails exactly when its own fetch failed,
      and the others are scanned all the same. */
  lemma {:induction false} ScanAllResults(s: StoreState, cs: seq<Competitor>, fetch: Fetcher, hash: string -> string, model: Model)
    requires forall k :: 0 <= k < |cs| ==> FindCompetitor(s.competitors, cs[k].id).Some?
    ensures var results := ScanAllFrom(s, cs, fetch, hash, model).0;
      |results| == |cs| && forall i :: 0 <= i < |cs| ==> Fits(results[i], cs[i], fetch)
  {
    if cs != [] {
      var init := cs[..|cs| - 1];
      var c := cs[|cs| - 1];
      ScanAllResults(s, init, fetch, hash, model);
      ScanAllStore(s, init, fetch, hash, model);
      var before := ScanAllFrom(s, init, fetch, hash, model);
      FindInRoster(s.competitors, before.1.competitors, c.id);
      ScanStepResult(before.1, c, fetch, hash, model);
      var step := ScanStep(before.1, c, fetch, hash, model);
      assert ScanAllFrom(s, cs, fetch, hash, model).0 == before.0 + [step.0];
      InitLast(cs);
      FitsAppend(before.0, init, step.0, c, fetch);
    }
  }

  /** `scan_all` over the store's own competitors. */
  lemma ScanAllOverStore(s: StoreState, fetch: Fetcher, hash: string -> string, model: Model)
    ensures |ScanAllFrom(s, s.competitors, fetch, hash, model).0| == |s.competitors|
    ensures forall i :: 0 <= i < |s.competitors| ==>
      Fits(ScanAllFrom(s, s.competitors, fetch, hash, model).0[i], s.competitors[i], fetch)
  {
    forall k | 0 <= k < |s.competitors|
      ensures FindCompetitor(s.competitors, s.competitors[k].id).Some?
    {
      assert s.competitors[k] in s.competitors;
    }
    ScanAllResults(s, s.competitors, fetch, hash, model);
  }

  /** The tracker's tables. */
  class Store {
    var competitors: seq<Competitor>
    var snapshots: seq<Snapshot>
    var changes: seq<ChangeRecord>

    function State(): StoreState
      reads this
    {
      StoreState(competitors, snapshots, changes)
    }

    constructor(competitors: seq<Competitor>)
      ensures State() == StoreState(competitors, [], [])
    {
      this.competitors := competitors;
      snapshots := [];
      changes := [];
    }

    /** `analyze_changes_with_ai`: look up the competitor, read its latest
        snapshot, store the new snapshot, classify, store the change record and
        mark the competitor checked. */
    method AnalyzeChangesWithAi(competitorId: int, current: ScrapeOutcome, model: Model) returns (r: Analyzed)
      modifies this
      ensures (r, State()) == AnalyzeStep(old(State()), competitorId, current, model)
    {
      var found := FindCompetitor(competitors, competitorId);
      if found.None? {
        return NoCompetitor;
      }
      var c := found.value;
      var previous := LatestContent(snapshots, competitorId);
      if current.ScrapeFailed? {
        return Raised(ContentHashKeyError);
      }
      var page := current.page;
      snapshots := snapshots + [Snapshot(competitorId, page.contentHash, page.content, current.scrapedAt)];
      var result: ChangeResult;
      if page.content != [] {
        result := AnalyzeContentChanges(previous, page.content, c.name, c.website, model);
      } else {
        result := ScanError(c.name, c.website);
      }
      var record := RecordOf(c, page, current.scrapedAt, result);
      changes := changes + [record];
      competitors := MarkChecked(competitors, competitorId, current.scrapedAt);
      r := Recorded(record);
    }

    /** `scan_all`: every competitor in turn, each scan's failure caught and
        reported without stopping the loop. */
    method ScanAll(fetch: Fetcher, hash: string -> string, model: Model) returns (results: seq<ScanResult>)
      modifies this
      ensures (results, State()) == ScanAllFrom(old(State()), old(competitors), fetch, hash, model)
    {
      var list := competitors;
      results := [];
      for i := 0 to |list|
        invariant (results, State()) == ScanAllFrom(old(State()), list[..i], fetch, hash, model)
      {
        assert list[..i + 1][..i] == list[..i];
        var c := list[i];
        var current := Scrape(fetch, hash, c.website);
        if current.ScrapeFailed? && current.error != [] {
          results := results + [ScanFailed(c.name, current.error)];
          continue;
        }
        var analyzed := AnalyzeChangesWithAi(c.id, current, model);
        match analyzed
        case Raised(e) =>
          results := results + [ScanFailed(c.name, e)];
        case NoCompetitor =>
          results := results + [ScanSucceeded(c.name, None)];
        case Recorded(record) =>
          results := results + [ScanSucceeded(c.name, Some(record))];
      }
      assert list[..|list|] == list;
    }
  }
}
