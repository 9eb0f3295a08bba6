/** From extracted page texts to stored rows: `extract_pdf_pages` and `persist`
    (worker/services/financial_report_page_locator.py). Identifiers are drawn by the caller. */
module PageStore {
  import opened Common
  import opened LockKeys
  import opened PageText
  import opened PageLocator

  const EMPTY_REASON := "pypdf 未提取到可验证文本"
  const FAILED_PREFIX := "页面文本提取失败："

  datatype Extraction = Extracted(text: string) | NoText | Raised(message: string)

  /** The page CHECK of migration 023. */
  predicate PageChecks(p: Page) {
    && p.number > 0
    && if p.status == TextObserved then
         p.textHash.Some? && p.characterCount.Some? && p.characterCount.value > 0 && p.failureReason.None?
       else
         p.textHash.None? && (p.characterCount.Some? ==> p.characterCount.value == 0)
         && p.failureReason.Some? && 1 <= |Trim(p.failureReason.value)| <= 2000
  }

  method ExtractPages(raw: seq<Extraction>, nfkc: string -> string, ids: seq<nat>) returns (pages: seq<Page>)
    requires |ids| == |raw|
    ensures |pages| == |raw|
    ensures forall i | 0 <= i < |raw| ::
      && pages[i].id == ids[i] && pages[i].number == i + 1 && PageChecks(pages[i])
      && (pages[i].status == Failed <==> raw[i].Raised?)
      && pages[i].text == (if raw[i].Extracted? then NormalizePageText(nfkc(raw[i].text))
                           else if raw[i].NoText? then NormalizePageText(nfkc("")) else "")
      && (pages[i].status == TextObserved <==> pages[i].text != "")
      && (pages[i].status == TextObserved ==>
            pages[i].textHash == Some(Sha256(pages[i].text)) && pages[i].characterCount == Some(|pages[i].text|))
  {
    pages := [];
    for i := 0 to |raw|
      invariant |pages| == i
      invariant forall k | 0 <= k < i ::
        && pages[k].id == ids[k] && pages[k].number == k + 1 && PageChecks(pages[k])
        && (pages[k].status == Failed <==> raw[k].Raised?)
        && pages[k].text == (if raw[k].Extracted? then NormalizePageText(nfkc(raw[k].text))
                             else if raw[k].NoText? then NormalizePageText(nfkc("")) else "")
        && (pages[k].status == TextObserved <==> pages[k].text != "")
        && (pages[k].status == TextObserved ==>
              pages[k].textHash == Some(Sha256(pages[k].text)) && pages[k].characterCount == Some(|pages[k].text|))
    {
      if raw[i].Raised? {
        var reason := FAILED_PREFIX + raw[i].message;
        assert reason[..Min(2000, |reason|)][0] == FAILED_PREFIX[0];
        TrimNotEmpty(reason[..Min(2000, |reason|)], 0);
        pages := pages + [Page(ids[i], i + 1, Failed, "", None, None, Some(reason[..Min(2000, |reason|)]))];
      } else {
        var text := NormalizePageText(nfkc(if raw[i].Extracted? then raw[i].text else ""));
        if text != "" {
          pages := pages + [Page(ids[i], i + 1, TextObserved, text, Some(Sha256(text)), Some(|text|), None)];
        } else {
          TrimNotEmpty(EMPTY_REASON, 0);
          pages := pages + [Page(ids[i], i + 1, Empty, "", None, Some(0), Some(EMPTY_REASON))];
        }
      }
    }
  }

  datatype RunStatus = RunSuccess | RunPartial

  datatype ParseRun = ParseRun(snapshot: nat, status: RunStatus, pageCount: nat, textPageCount: nat,
                               failureReason: Option<string>, startedAt: int, completedAt: int)

  /** What the insert trigger of a parse run finds: the status of its snapshot and whether the cited
      review is the one for derived research. */
  datatype Upstream = Upstream(snapshotObserved: bool, reviewed: bool)

  /** An INTEGER column. */
  const MAX_INTEGER: nat := 0x7FFF_FFFF

  /** The CHECKs on an accepted parse run. */
  predicate RunChecks(r: ParseRun) {
    && 0 < r.pageCount <= MAX_INTEGER && r.startedAt <= r.completedAt
    && match r.status
       case RunSuccess => r.textPageCount == r.pageCount && r.failureReason.None?
       case RunPartial =>
         0 < r.textPageCount < r.pageCount
         && r.failureReason.Some? && 1 <= |Trim(r.failureReason.value)| <= 2000
  }

  function TextPages(pages: seq<Page>): (n: nat)
    ensures n <= |pages|
    ensures n == |pages| <==> forall p | p in pages :: p.status == TextObserved
    ensures n == 0 <==> forall p | p in pages :: p.status != TextObserved
  {
    if pages == [] then 0
    else
      var n := |pages| - 1;
      assert pages == pages[..n] + [pages[n]];
      TextPages(pages[..n]) + if pages[n].status == TextObserved then 1 else 0
  }

  ghost function TextAt(pages: seq<Page>): set<int> { set i | 0 <= i < |pages| && pages[i].status == TextObserved }

  lemma {:induction false} TextPagesExact(pages: seq<Page>)
    ensures TextPages(pages) == |TextAt(pages)|
  {
    if pages != [] {
      var n := |pages| - 1;
      TextPagesExact(pages[..n]);
      assert pages == pages[..n] + [pages[n]];
      OneMorePage(pages[..n], pages[n]);
    }
  }

  lemma OneMorePage(pages: seq<Page>, p: Page)
    ensures |TextAt(pages + [p])| == |TextAt(pages)| + if p.status == TextObserved then 1 else 0
  {
    assert TextAt(pages + [p]) == TextAt(pages) + if p.status == TextObserved then {|pages|} else {};
  }

  datatype PersistError = NoTextPages | DatabaseRejected

  datatype Persisted =
    | Existing(run: nat)
    | Inserted(run: nat, status: RunStatus, pageCount: nat, textPageCount: nat, locationCount: nat)

  /** What the constraints of the three tables admit as one run's rows. */
  predicate Admissible(pages: seq<Page>, locations: seq<Location>) {
    && (forall i | 0 <= i < |pages| :: PageChecks(pages[i]))
    && (forall i, j | 0 <= i < j < |pages| :: pages[i].id != pages[j].id && pages[i].number != pages[j].number)
    && (forall i | 0 <= i < |locations| :: LocationChecks(locations[i]) && PageTrigger(locations[i], pages))
  }

  function MissingPages(n: nat, encrypted: bool): (reason: string)
    ensures |Trim(reason)| >= 1
    ensures n <= MAX_INTEGER ==> |Trim(reason)| <= 2000
    ensures Decimal(n) <= reason
  {
    var suffix := " 页未提取到文本" + if encrypted then "；PDF 标记为加密" else "";
    var reason := Decimal(n) + suffix;
    assert reason[0] == Decimal(n)[0];
    TrimNotEmpty(reason, 0);
    assert n <= MAX_INTEGER ==> |Decimal(n)| <= 10 by {
      if n <= MAX_INTEGER {
        assert Tens(5) == 100000 && Tens(10) == 100000 * Tens(5);
        DecimalLength(n, 10);
      }
    }
    reason
  }

  /** The parse run `persist` inserts for pages of which at least one has text: the CHECKs refuse it only
      for its times or a page count beyond the column. */
  function RunOf(snapshot: nat, pages: seq<Page>, encrypted: bool, startedAt: int, completedAt: int): (run: ParseRun)
    requires TextPages(pages) > 0
    ensures RunChecks(run) <==> |pages| <= MAX_INTEGER && startedAt <= completedAt
    ensures run.snapshot == snapshot && run.pageCount == |pages| && run.textPageCount == TextPages(pages)
    ensures run.status == if TextPages(pages) == |pages| then RunSuccess else RunPartial
    ensures run.startedAt == startedAt && run.completedAt == completedAt
    ensures run.failureReason.Some? ==> Decimal(|pages| - TextPages(pages)) <= run.failureReason.value
  {
    var textPageCount := TextPages(pages);
    if textPageCount == |pages| then
      ParseRun(snapshot, RunSuccess, |pages|, textPageCount, None, startedAt, completedAt)
    else
      ParseRun(snapshot, RunPartial, |pages|, textPageCount, Some(MissingPages(|pages| - textPageCount, encrypted)),
               startedAt, completedAt)
  }

  function RowsById(runId: nat, pages: seq<Page>): (rows: map<nat, (nat, Page)>)
    ensures forall id | id in rows :: rows[id].0 == runId && rows[id].1 in pages && rows[id].1.id == id
    ensures forall p | p in pages :: p.id in rows
  {
    if pages == [] then map[]
    else RowsById(runId, pages[..|pages| - 1])[pages[|pages| - 1].id := (runId, pages[|pages| - 1])]
  }

  lemma RowsByIdExact(runId: nat, pages: seq<Page>)
    requires forall i, j | 0 <= i < j < |pages| :: pages[i].id != pages[j].id
    ensures forall i | 0 <= i < |pages| :: pages[i].id in RowsById(runId, pages)
                                           && RowsById(runId, pages)[pages[i].id] == (runId, pages[i])
  {
    forall i | 0 <= i < |pages|
      ensures pages[i].id in RowsById(runId, pages) && RowsById(runId, pages)[pages[i].id] == (runId, pages[i])
    {
      assert pages[i] in pages;
      OnlyOnePage(pages, pages[i], RowsById(runId, pages)[pages[i].id].1);
    }
  }

  predicate RunsOk(runs: map<nat, ParseRun>) {
    && (forall r | r in runs :: RunChecks(runs[r]))
    && (forall r, r' | r in runs && r' in runs && runs[r].snapshot == runs[r'].snapshot :: r == r')
  }

  predicate PageRowsOk(runs: map<nat, ParseRun>, pageRows: map<nat, (nat, Page)>) {
    forall p | p in pageRows :: pageRows[p].0 in runs && pageRows[p].1.id == p && PageChecks(pageRows[p].1)
  }

  predicate LocationRowOk(runs: map<nat, ParseRun>, pageRows: map<nat, (nat, Page)>, row: (nat, Location)) {
    && row.0 in runs && LocationChecks(row.1)
    && (row.1.pageId.Some? ==>
          && row.1.pageId.value in pageRows
          && pageRows[row.1.pageId.value].0 == row.0
          && pageRows[row.1.pageId.value].1.status == TextObserved)
  }

  predicate LocationRowsOk(runs: map<nat, ParseRun>, pageRows: map<nat, (nat, Page)>, rows: seq<(nat, Location)>) {
    forall i | 0 <= i < |rows| :: LocationRowOk(runs, pageRows, rows[i])
  }

  function RowsOf(runId: nat, locations: seq<Location>): seq<(nat, Location)> {
    seq(|locations|, i requires 0 <= i < |locations| => (runId, locations[i]))
  }

  lemma NewPageRowsOk(runs: map<nat, ParseRun>, pageRows: map<nat, (nat, Page)>,
                      runId: nat, run: ParseRun, pages: seq<Page>)
    requires PageRowsOk(runs, pageRows) && runId !in runs
    requires forall i | 0 <= i < |pages| :: PageChecks(pages[i])
    ensures PageRowsOk(runs[runId := run], pageRows + RowsById(runId, pages))
  {
  }

  lemma OldLocationStays(runs: map<nat, ParseRun>, pageRows: map<nat, (nat, Page)>, row: (nat, Location),
                         runId: nat, run: ParseRun, more: map<nat, (nat, Page)>)
    requires LocationRowOk(runs, pageRows, row) && runId !in runs
    requires forall p | p in more :: p !in pageRows
    ensures LocationRowOk(runs[runId := run], pageRows + more, row)
  {
  }

  /** The trigger of a new location row finds the page just inserted. */
  lemma NewLocationOk(runs: map<nat, ParseRun>, pageRows: map<nat, (nat, Page)>,
                      runId: nat, run: ParseRun, pages: seq<Page>, l: Location)
    requires LocationChecks(l) && PageTrigger(l, pages)
    requires forall i, j | 0 <= i < j < |pages| :: pages[i].id != pages[j].id
    ensures LocationRowOk(runs[runId := run], pageRows + RowsById(runId, pages), (runId, l))
  {
    if l.pageId.Some? {
      var p :| p in pages && p.id == l.pageId.value && p.status == TextObserved;
      OnlyOnePage(pages, p, RowsById(runId, pages)[p.id].1);
    }
  }

  lemma NewLocationRowsOk(runs: map<nat, ParseRun>, pageRows: map<nat, (nat, Page)>, rows: seq<(nat, Location)>,
                          runId: nat, run: ParseRun, pages: seq<Page>, locations: seq<Location>)
    requires LocationRowsOk(runs, pageRows, rows) && runId !in runs
    requires forall i | 0 <= i < |locations| :: LocationChecks(locations[i]) && PageTrigger(locations[i], pages)
    requires forall i, j | 0 <= i < j < |pages| :: pages[i].id != pages[j].id
    requires forall p | p in pages :: p.id !in pageRows
    ensures LocationRowsOk(runs[runId := run], pageRows + RowsById(runId, pages), rows + RowsOf(runId, locations))
  {
    var runs', pages' := runs[runId := run], pageRows + RowsById(runId, pages);
    forall i | 0 <= i < |rows| ensures LocationRowOk(runs', pages', rows[i]) {
      OldLocationStays(runs, pageRows, rows[i], runId, run, RowsById(runId, pages));
    }
    forall i | 0 <= i < |locations| ensures LocationRowOk(runs', pages', RowsOf(runId, locations)[i]) {
      NewLocationOk(runs, pageRows, runId, run, pages, locations[i]);
    }
    BothOk(runs', pages', rows, RowsOf(runId, locations));
  }

  lemma BothOk(runs: map<nat, ParseRun>, pageRows: map<nat, (nat, Page)>, rows: seq<(nat, Location)>,
               more: seq<(nat, Location)>)
    requires forall i | 0 <= i < |rows| :: LocationRowOk(runs, pageRows, rows[i])
    requires forall i | 0 <= i < |more| :: LocationRowOk(runs, pageRows, more[i])
    ensures LocationRowsOk(runs, pageRows, rows + more)
  {
    forall i | 0 <= i < |rows + more| ensures LocationRowOk(runs, pageRows, (rows + more)[i]) {
      if i >= |rows| {
        assert (rows + more)[i] == more[i - |rows|];
      }
    }
  }

  lemma OnlyOnePage(pages: seq<Page>, p: Page, q: Page)
    requires forall i, j | 0 <= i < j < |pages| :: pages[i].id != pages[j].id
    requires p in pages && q in pages && p.id == q.id
    ensures p == q
  {
    var i :| 0 <= i < |pages| && pages[i] == p;
    var j :| 0 <= j < |pages| && pages[j] == q;
  }

  class PageLocationStore {
    var runs: map<nat, ParseRun>
    var pageRows: map<nat, (nat, Page)>          // page id to parse run and page
    var locationRows: seq<(nat, Location)>       // parse run and row

    constructor ()
      ensures Valid() && runs == map[] && pageRows == map[] && locationRows == []
    {
      runs, pageRows, locationRows := map[], map[], [];
    }

    /** Every stored row meets its CHECKs, unique keys, foreign keys and trigger. */
    ghost predicate Valid()
      reads this
    {
      RunsOk(runs) && PageRowsOk(runs, pageRows) && LocationRowsOk(runs, pageRows, locationRows)
    }

    /** The database takes the rows: no key, unique index, constraint or trigger stands against them. */
    predicate Accepts(runId: nat, run: ParseRun, upstream: Upstream, pages: seq<Page>, locations: seq<Location>)
      reads this
    {
      && runId !in runs
      && RunChecks(run) && upstream.snapshotObserved && upstream.reviewed
      && NewSnapshot(runs, run.snapshot)
      && (forall p | p in pages :: p.id !in pageRows)
      && Admissible(pages, locations)
    }

    /** One transaction: either all rows of the run are stored or none. */
    method InsertRun(runId: nat, run: ParseRun, upstream: Upstream, pages: seq<Page>, locations: seq<Location>,
                     writable: bool)
      returns (stored: bool)
      requires Valid()
      modifies this
      ensures Valid()
      ensures stored <==> writable && old(Accepts(runId, run, upstream, pages, locations))
      ensures stored ==>
        && runs == old(runs)[runId := run]
        && pageRows == old(pageRows) + RowsById(runId, pages)
        && locationRows == old(locationRows) + RowsOf(runId, locations)
      ensures !stored ==> unchanged(this)
    {
      if !writable || !Accepts(runId, run, upstream, pages, locations) {
        return false;
      }
      NewPageRowsOk(runs, pageRows, runId, run, pages);
      NewLocationRowsOk(runs, pageRows, locationRows, runId, run, pages, locations);
      runs := runs[runId := run];
      pageRows := pageRows + RowsById(runId, pages);
      locationRows := locationRows + RowsOf(runId, locations);
      return true;
    }

    method Persist(existing: Option<nat>, snapshot: nat, upstream: Upstream, pages: seq<Page>,
                   locations: seq<Location>, encrypted: bool, startedAt: int, completedAt: int, runId: nat,
                   writable: bool)
      returns (r: Result<Persisted, PersistError>)
      requires Valid()
      modifies this
      ensures Valid()
      ensures existing.Some? ==> r == Success(Existing(existing.value))
      ensures existing.None? && TextPages(pages) == 0 ==> r == Failure(NoTextPages)
      ensures existing.None? && TextPages(pages) > 0 ==>
        var run := RunOf(snapshot, pages, encrypted, startedAt, completedAt);
        r == if writable && old(Accepts(runId, run, upstream, pages, locations)) then
               Success(Inserted(runId, if TextPages(pages) == |pages| then RunSuccess else RunPartial,
                                |pages|, TextPages(pages), |locations|))
             else Failure(DatabaseRejected)
      ensures r.Success? && r.value.Inserted? ==>
        && TextPages(pages) > 0
        && runs == old(runs)[runId := RunOf(snapshot, pages, encrypted, startedAt, completedAt)]
        && pageRows == old(pageRows) + RowsById(runId, pages)
        && locationRows == old(locationRows) + RowsOf(runId, locations)
      ensures !(r.Success? && r.value.Inserted?) ==> unchanged(this)
    {
      if existing.Some? {
        return Success(Existing(existing.value));
      }
      var pageCount, textPageCount := |pages|, TextPages(pages);
      if pageCount == 0 || textPageCount == 0 {
        return Failure(NoTextPages);
      }
      var run := RunOf(snapshot, pages, encrypted, startedAt, completedAt);
      var stored := InsertRun(runId, run, upstream, pages, locations, writable);
      if !stored {
        return Failure(DatabaseRejected);
      }
      return Success(Inserted(runId, run.status, pageCount, textPageCount, |locations|));
    }
  }

  /** What is stored meets migration 023 over its columns, and no snapshot has two accepted runs. */
  lemma StoredRuns(store: PageLocationStore)
    requires store.Valid()
    ensures forall id | id in store.runs ::
      var r := store.runs[id];
      && 0 < r.pageCount <= 0x7FFF_FFFF && r.startedAt <= r.completedAt
      && (r.status == RunSuccess ==> r.textPageCount == r.pageCount && r.failureReason == None)
      && (r.status == RunPartial ==>
           0 < r.textPageCount < r.pageCount && r.failureReason.Some? && 1 <= |Trim(r.failureReason.value)| <= 2000)
    ensures forall id, id' | id in store.runs && id' in store.runs && id != id' ::
      store.runs[id].snapshot != store.runs[id'].snapshot
  {
  }

  lemma StoredPages(store: PageLocationStore)
    requires store.Valid()
    ensures forall id | id in store.pageRows ::
      var p := store.pageRows[id].1;
      && store.pageRows[id].0 in store.runs && p.id == id && p.number > 0
      && if p.status == TextObserved
         then p.textHash.Some? && p.characterCount.Some? && p.characterCount.value > 0 && p.failureReason == None
         else p.textHash == None && (p.characterCount == None || p.characterCount == Some(0))
              && p.failureReason.Some? && 1 <= |Trim(p.failureReason.value)| <= 2000
  {
  }

  lemma StoredLocations(store: PageLocationStore)
    requires store.Valid()
    ensures forall i | 0 <= i < |store.locationRows| ::
      var run, l := store.locationRows[i].0, store.locationRows[i].1;
      && run in store.runs
      && (l.pageId.Some? ==> l.pageId.value in store.pageRows && store.pageRows[l.pageId.value].0 == run
                             && store.pageRows[l.pageId.value].1.status == TextObserved)
      && (l.rawValue.Some? ==> 1 <= |l.rawValue.value| <= 500)
      && (l.matchStart.Some? ==> l.matchEnd.Some? && l.matchEnd.value > l.matchStart.value)
      && (l.status == Located ==>
           && l.pageId.Some? && l.rawValue.Some? && l.matchStart.Some? && l.anchorHash.Some? && l.reason == None
           && l.normalizedValue.Some? && 1 <= |Trim(l.normalizedValue.value)| <= 128)
      && (l.status != Located ==> l.reason.Some?)
      && (l.status == Unresolved ==>
           l.pageId == None && l.rawValue == None && l.normalizedValue == None && l.matchStart == None
           && l.matchEnd == None && l.anchorHash == None && l.scope == UnresolvedScope)
  {
    forall i | 0 <= i < |store.locationRows| ensures LocationChecks(store.locationRows[i].1) {
      assert LocationRowOk(store.runs, store.pageRows, store.locationRows[i]);
    }
  }

  predicate HasText(pages: seq<Page>) { exists p | p in pages :: p.status == TextObserved }

  /** No accepted run of the snapshot is stored yet. */
  predicate NewSnapshot(runs: map<nat, ParseRun>, snapshot: nat) {
    forall q | q in runs :: runs[q].snapshot != snapshot
  }

  lemma TextPagesIff(pages: seq<Page>)
    ensures TextPages(pages) > 0 <==> HasText(pages)
  {
  }

  lemma PipelineAdmissible(pages: seq<Page>, find: Finder, locations: seq<Location>)
    requires Finds(find) && AllRows(pages, find, |FIELDS|, locations)
    requires forall i | 0 <= i < |pages| :: PageChecks(pages[i]) && pages[i].number == i + 1
    requires forall i, j | 0 <= i < j < |pages| :: pages[i].id != pages[j].id
    ensures Admissible(pages, locations)
  {
    AllRowsMeetConstraints(pages, find, |FIELDS|, locations);
  }

  /** Extraction and location: the rows to store, with the identifiers drawn for the pages. */
  method LocatePages(raw: seq<Extraction>, nfkc: string -> string, find: Finder, ids: seq<nat>)
    returns (pages: seq<Page>, locations: seq<Location>)
    requires Finds(find) && |ids| == |raw| && Distinct(ids)
    ensures AllRows(pages, find, |FIELDS|, locations) && Admissible(pages, locations)
    ensures |pages| == |ids| && forall i | 0 <= i < |pages| :: pages[i].id == ids[i]
    ensures TextPages(pages) > 0 <==> HasText(pages)
  {
    pages := ExtractPages(raw, nfkc, ids);
    locations := LocateMetadata(pages, find);
    PipelineAdmissible(pages, find, locations);
    TextPagesIff(pages);
  }

  /** Each page has its row, under its own id, and the rows there were before are as they were. */
  ghost predicate PagesStored(before: map<nat, (nat, Page)>, after: map<nat, (nat, Page)>, runId: nat,
                              pages: seq<Page>)
  {
    && (forall id | id in before :: id in after && after[id] == before[id])
    && (forall i | 0 <= i < |pages| :: pages[i].id in after && after[pages[i].id] == (runId, pages[i]))
    && forall id | id in after && id !in before :: after[id].1 in pages
  }

  ghost predicate LocationsStored(before: seq<(nat, Location)>, after: seq<(nat, Location)>, runId: nat,
                                  locations: seq<Location>)
  {
    && |after| == |before| + |locations| && before <= after
    && forall i | 0 <= i < |locations| :: after[|before| + i] == (runId, locations[i])
  }

  lemma PagesAdded(before: map<nat, (nat, Page)>, runId: nat, pages: seq<Page>)
    requires forall i, j | 0 <= i < j < |pages| :: pages[i].id != pages[j].id
    requires forall p | p in pages :: p.id !in before
    ensures PagesStored(before, before + RowsById(runId, pages), runId, pages)
  {
    RowsByIdExact(runId, pages);
  }

  lemma LocationsAdded(before: seq<(nat, Location)>, runId: nat, locations: seq<Location>)
    ensures LocationsStored(before, before + RowsOf(runId, locations), runId, locations)
  {
  }

  /** The parse run of a report, over the report's fields. */
  ghost predicate RunStored(runs: map<nat, ParseRun>, runId: nat, snapshot: nat, pages: seq<Page>, startedAt: int,
                            completedAt: int)
  {
    && runId in runs
    && var run := runs[runId];
    && run.snapshot == snapshot && run.pageCount == |pages| && run.textPageCount == |TextAt(pages)|
    && run.startedAt == startedAt && run.completedAt == completedAt
    && (run.status == RunSuccess <==> forall p | p in pages :: p.status == TextObserved)
  }

  lemma RunAdded(runs: map<nat, ParseRun>, runId: nat, snapshot: nat, pages: seq<Page>, encrypted: bool,
                 startedAt: int, completedAt: int)
    requires TextPages(pages) > 0
    ensures RunStored(runs[runId := RunOf(snapshot, pages, encrypted, startedAt, completedAt)], runId, snapshot, pages,
                      startedAt, completedAt)
  {
    TextPagesExact(pages);
  }

  /** What a run adds to the three tables. */
  ghost predicate RunAddedTo(runs: map<nat, ParseRun>, pageRows: map<nat, (nat, Page)>,
                             locationRows: seq<(nat, Location)>, store: PageLocationStore, runId: nat, snapshot: nat,
                             pages: seq<Page>, locations: seq<Location>, startedAt: int, completedAt: int)
    reads store
  {
    && RunStored(store.runs, runId, snapshot, pages, startedAt, completedAt)
    && (forall id | id in runs && id != runId :: id in store.runs && store.runs[id] == runs[id])
    && PagesStored(pageRows, store.pageRows, runId, pages)
    && LocationsStored(locationRows, store.locationRows, runId, locations)
  }

  lemma Adds(runs: map<nat, ParseRun>, pageRows: map<nat, (nat, Page)>, locationRows: seq<(nat, Location)>,
             store: PageLocationStore, runId: nat, snapshot: nat, pages: seq<Page>, locations: seq<Location>,
             encrypted: bool, startedAt: int, completedAt: int)
    requires TextPages(pages) > 0
    requires forall i, j | 0 <= i < j < |pages| :: pages[i].id != pages[j].id
    requires forall p | p in pages :: p.id !in pageRows
    requires store.runs == runs[runId := RunOf(snapshot, pages, encrypted, startedAt, completedAt)]
    requires store.pageRows == pageRows + RowsById(runId, pages)
    requires store.locationRows == locationRows + RowsOf(runId, locations)
    ensures RunAddedTo(runs, pageRows, locationRows, store, runId, snapshot, pages, locations, startedAt, completedAt)
  {
    RunAdded(runs, runId, snapshot, pages, encrypted, startedAt, completedAt);
    PagesAdded(pageRows, runId, pages);
    LocationsAdded(locationRows, runId, locations);
  }

  /** The rows of a report are stored unless its snapshot, its review, its times or a page count beyond the column
      stand against it. */
  method StoreReport(store: PageLocationStore, snapshot: nat, upstream: Upstream, pages: seq<Page>,
                     locations: seq<Location>, encrypted: bool, startedAt: int, completedAt: int, runId: nat)
    returns (r: Result<Persisted, PersistError>)
    requires store.Valid() && runId !in store.runs
    requires Admissible(pages, locations) && forall p | p in pages :: p.id !in store.pageRows
    modifies store
    ensures store.Valid()
    ensures r.Success? <==>
      (TextPages(pages) > 0 && NewSnapshot(old(store.runs), snapshot) && upstream.snapshotObserved && upstream.reviewed
       && |pages| <= MAX_INTEGER && startedAt <= completedAt)
    ensures r.Success? ==>
      (r.value.Inserted? && r.value.locationCount == |locations|
       && (r.value.status == RunSuccess <==> forall p | p in pages :: p.status == TextObserved))
    ensures r.Failure? ==> unchanged(store)
    ensures r.Success? ==>
      RunAddedTo(old(store.runs), old(store.pageRows), old(store.locationRows), store, runId, snapshot, pages,
                 locations, startedAt, completedAt)
  {
    r := store.Persist(None, snapshot, upstream, pages, locations, encrypted, startedAt, completedAt, runId, true);
    if r.Success? {
      Adds(old(store.runs), old(store.pageRows), old(store.locationRows), store, runId, snapshot, pages, locations,
           encrypted, startedAt, completedAt);
    }
  }

  /** The whole pipeline. A report with at least one text page is stored unless its snapshot, its review, its
      times or a page count beyond the column stand against it: no page and no location row it produces can be
      refused by a constraint. */
  method LocateReport(store: PageLocationStore, snapshot: nat, upstream: Upstream, raw: seq<Extraction>,
                      encrypted: bool, nfkc: string -> string, find: Finder, ids: seq<nat>, startedAt: int,
                      completedAt: int, runId: nat)
    returns (r: Result<Persisted, PersistError>, pages: seq<Page>, locations: seq<Location>)
    requires store.Valid() && Finds(find)
    requires |ids| == |raw| && Distinct(ids) && (forall id | id in ids :: id !in store.pageRows)
    requires runId !in store.runs
    modifies store
    ensures store.Valid()
    ensures AllRows(pages, find, |FIELDS|, locations)
    ensures r.Success? <==>
      (HasText(pages) && (forall q | q in old(store.runs) :: old(store.runs)[q].snapshot != snapshot)
       && upstream.snapshotObserved && upstream.reviewed
       && |raw| <= 0x7FFF_FFFF && startedAt <= completedAt)
    ensures r.Success? ==>
      (r.value.Inserted? && r.value.locationCount == |locations|
       && (r.value.status == RunSuccess <==> forall p | p in pages :: p.status == TextObserved))
    ensures r.Failure? ==> unchanged(store)
    ensures r.Success? ==>
      RunAddedTo(old(store.runs), old(store.pageRows), old(store.locationRows), store, runId, snapshot, pages,
                 locations, startedAt, completedAt)
  {
    pages, locations := LocatePages(raw, nfkc, find, ids);
    assert forall p | p in pages :: p.id in ids;
    r := StoreReport(store, snapshot, upstream, pages, locations, encrypted, startedAt, completedAt, runId);
  }
}
