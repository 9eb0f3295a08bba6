/** Page extraction, metadata location and their storage
    (worker/services/financial_report_page_locator.py), against the constraints of migration 023. */
module PageLocator {
  import opened Common
  import opened PageText
  import opened LockKeys

  const MAX_CANDIDATES_PER_FIELD := 100

  datatype Field = ReportPeriodEnd | StatementCurrencyUnit | AuditOpinionSection | StatementScopeHeading

  /** FIELD_PATTERNS in dictionary order. */
  const FIELDS := [ReportPeriodEnd, StatementCurrencyUnit, AuditOpinionSection, StatementScopeHeading]

  datatype Scope = UnresolvedScope | Consolidated | ParentCompany

  /** The groups of a match, one form for each pattern. */
  datatype Groups =
    | Period(year: nat, month: nat, day: nat)
    | Unit(prefix: string, unit: string)
    | Audit
    | Heading(consolidated: bool, table: string)

  datatype Match = Match(start: nat, end: nat, groups: Groups)

  /** The regular-expression engine: all matches of a field's pattern in a text. */
  type Finder = (Field, string) -> seq<Match>

  /** What `finditer` guarantees: nonempty matches inside the text, from left to right without
      overlap, whose groups are those of the pattern. */
  ghost predicate Finds(find: Finder) {
    forall f: Field, t: string ::
      && (forall i | 0 <= i < |find(f, t)| :: MatchOk(find(f, t)[i], f, t))
      && (forall i, j | 0 <= i < j < |find(f, t)| :: find(f, t)[i].end <= find(f, t)[j].start)
  }

  predicate MatchOk(m: Match, f: Field, t: string) {
    && m.start < m.end <= |t|
    && match f
       case ReportPeriodEnd =>
         m.groups.Period? && 2000 <= m.groups.year < 2100 && 1 <= m.groups.month <= 12 && 1 <= m.groups.day <= 31
       case StatementCurrencyUnit =>
         m.groups.Unit? && |m.groups.prefix| <= 3 && 1 <= |m.groups.unit| <= 3
         && forall c | c in m.groups.unit :: c != ' '
       case AuditOpinionSection => m.groups.Audit?
       case StatementScopeHeading => m.groups.Heading? && |m.groups.table| <= 8
  }

  datatype PageStatus = TextObserved | Empty | Failed

  datatype Page = Page(
    id: nat, number: nat, status: PageStatus, text: string, textHash: Option<Digest<string>>,
    characterCount: Option<nat>, failureReason: Option<string>)

  datatype LocationStatus = Located | Ambiguous | Unresolved

  datatype Reason = NotFound | Truncated | SeveralCandidates

  datatype Location = Location(
    field: Field, pageId: Option<nat>, rawValue: Option<string>, normalizedValue: Option<string>,
    matchStart: Option<nat>, matchEnd: Option<nat>, anchorHash: Option<Digest<string>>,
    scope: Scope, status: LocationStatus, reason: Option<Reason>)

  function Min(a: nat, b: nat): nat { if a <= b then a else b }

  function Padded(n: nat, width: nat): string
    decreases width - |Decimal(n)|
  {
    seq(if |Decimal(n)| < width then width - |Decimal(n)| else 0, i => '0') + Decimal(n)
  }

  function NormalizedValue(m: Match): (string, Scope) {
    match m.groups
    case Period(y, mo, d) => (Padded(y, 4) + "-" + Padded(mo, 2) + "-" + Padded(d, 2), UnresolvedScope)
    case Unit(prefix, unit) => (prefix + unit, UnresolvedScope)
    case Heading(true, table) => ("consolidated:" + table, Consolidated)
    case Heading(false, table) => ("parent_company:" + table, ParentCompany)
    case Audit => ("audit_opinion_section", UnresolvedScope)
  }

  function Anchor(text: string, m: Match): string
    requires m.start <= m.end <= |text|
  {
    text[if m.start < 80 then 0 else m.start - 80..Min(|text|, m.end + 80)]
  }

  /** A candidate before it is judged. */
  function Candidate(f: Field, page: Page, m: Match): Location
    requires m.start <= m.end <= |page.text|
  {
    var (value, scope) := NormalizedValue(m);
    var raw := page.text[m.start..m.end];
    Location(f, Some(page.id), Some(raw[..Min(500, |raw|)]), Some(value[..Min(128, |value|)]),
             Some(m.start), Some(m.end), Some(Sha256(Anchor(page.text, m))), scope, Ambiguous, None)
  }

  // ---------------------------------------------------------------- reference definition

  datatype Hit = Hit(page: nat, found: Match)

  /** All matches in the observed pages, in page and offset order. */
  function Hits(pages: seq<Page>, find: Finder, f: Field): seq<Hit> {
    if pages == [] then []
    else
      var n := |pages| - 1;
      Hits(pages[..n], find, f) + PageHits(pages, find, f, n)
  }

  function PageHits(pages: seq<Page>, find: Finder, f: Field, n: nat): seq<Hit>
    requires n < |pages|
  {
    if pages[n].status != TextObserved then []
    else
      var found := find(f, pages[n].text);
      seq(|found|, i requires 0 <= i < |found| => Hit(n, found[i]))
  }

  ghost predicate HitsOk(pages: seq<Page>, find: Finder, f: Field, hits: seq<Hit>) {
    forall i | 0 <= i < |hits| ::
      hits[i].page < |pages| && pages[hits[i].page].status == TextObserved
      && hits[i].found in find(f, pages[hits[i].page].text)
      && hits[i].found.start < hits[i].found.end <= |pages[hits[i].page].text|
  }

  /** The i-th hit as a judged row, when `total` hits exist. */
  function Judged(c: Location, total: nat): Location {
    c.(status := if total == 1 then Located else Ambiguous,
       reason := if total == 1 then None else if total > MAX_CANDIDATES_PER_FIELD then Some(Truncated)
                 else Some(SeveralCandidates))
  }

  function NothingFound(f: Field): Location {
    Location(f, None, None, None, None, None, None, UnresolvedScope, Unresolved, Some(NotFound))
  }

  /** The matched text, cut to 500 characters, and the hash of it with at most 80 characters on either side. */
  ghost predicate ShowsText(row: Location, text: string, m: Match)
    requires m.start <= m.end <= |text|
  {
    && row.rawValue == Some(if m.end - m.start <= 500 then text[m.start..m.end] else text[m.start..m.start + 500])
    && var before, after := if m.start <= 80 then m.start else 80, if |text| - m.end <= 80 then |text| - m.end else 80;
       row.anchorHash == Some(Sha256(text[m.start - before..m.end + after]))
  }

  /** A date in ISO form, a currency unit after its prefix, or a statement heading after the scope it names: the
      consolidated one exactly for a consolidated heading. */
  ghost predicate ShowsValue(value: string, scope: Scope, groups: Groups) {
    match groups
    case Period(year, month, day) =>
      && |value| == 10 && value[4] == '-' && value[7] == '-' && scope == UnresolvedScope
      && (forall i | 0 <= i < 10 && i != 4 && i != 7 :: '0' <= value[i] <= '9')
      && Parsed(value[..4]) == year && Parsed(value[5..7]) == month && Parsed(value[8..]) == day
    case Unit(prefix, unit) => value == prefix + unit && scope == UnresolvedScope
    case Audit => value == "audit_opinion_section" && scope == UnresolvedScope
    case Heading(consolidated, table) =>
      if consolidated then value == "consolidated:" + table && scope == Consolidated
      else value == "parent_company:" + table && scope == ParentCompany
  }

  /** The row says where its match is and what it says. */
  ghost predicate Shows(row: Location, f: Field, page: Page, m: Match)
    requires m.start <= m.end <= |page.text|
  {
    && row.field == f && row.pageId == Some(page.id) && row.matchStart == Some(m.start) && row.matchEnd == Some(m.end)
    && ShowsText(row, page.text, m)
    && row.normalizedValue.Some? && ShowsValue(row.normalizedValue.value, row.scope, m.groups)
  }

  ghost predicate ShowsNothing(row: Location, f: Field) {
    && row.field == f && row.status == Unresolved && row.reason == Some(NotFound) && row.scope == UnresolvedScope
    && row.pageId == None && row.rawValue == None && row.normalizedValue == None
    && row.matchStart == None && row.matchEnd == None && row.anchorHash == None
  }

  /** The rows of one field: exactly the first 100 hits, judged by how many there are in all. */
  ghost predicate FieldRows(pages: seq<Page>, find: Finder, f: Field, rows: seq<Location>) {
    var hits := Hits(pages, find, f);
    && HitsOk(pages, find, f, hits)
    && if hits == [] then |rows| == 1 && ShowsNothing(rows[0], f)
       else
         && |rows| == Min(100, |hits|)
         && forall i | 0 <= i < |rows| ::
              && Shows(rows[i], f, pages[hits[i].page], hits[i].found)
              && rows[i].status == (if |hits| == 1 then Located else Ambiguous)
              && rows[i].reason == (if |hits| == 1 then None
                                    else if |hits| > 100 then Some(Truncated) else Some(SeveralCandidates))
  }

  lemma {:induction false} HitsPrefix(pages: seq<Page>, find: Finder, f: Field, n: nat)
    requires n <= |pages|
    ensures Hits(pages[..n], find, f) <= Hits(pages, find, f)
    decreases |pages|
  {
    if n == |pages| {
      assert pages[..n] == pages;
    } else {
      var m := |pages| - 1;
      assert pages[..m][..n] == pages[..n];
      HitsPrefix(pages[..m], find, f, n);
    }
  }

  lemma HitsOneMore(pages: seq<Page>, find: Finder, f: Field, n: nat)
    requires n < |pages|
    ensures Hits(pages[..n + 1], find, f) == Hits(pages[..n], find, f) + PageHits(pages, find, f, n)
  {
    assert pages[..n + 1][..n] == pages[..n];
    assert PageHits(pages[..n + 1], find, f, n) == PageHits(pages, find, f, n);
  }

  lemma {:induction false} HitsAreOk(pages: seq<Page>, find: Finder, f: Field)
    requires Finds(find)
    ensures HitsOk(pages, find, f, Hits(pages, find, f))
  {
    if pages != [] {
      var n := |pages| - 1;
      HitsAreOk(pages[..n], find, f);
      if pages[n].status == TextObserved {
        var found := find(f, pages[n].text);
        assert forall i | 0 <= i < |found| :: MatchOk(found[i], f, pages[n].text);
      }
    }
  }

  /** Hits come in page order, within a page in offset order, none twice. */
  lemma {:induction false} HitsOrdered(pages: seq<Page>, find: Finder, f: Field, i: nat, j: nat)
    requires Finds(find) && i < j < |Hits(pages, find, f)|
    ensures var h := Hits(pages, find, f);
      && h[i].page <= h[j].page < |pages|
      && (h[i].page == h[j].page ==> h[i].found.end <= h[j].found.start)
  {
    var n := |pages| - 1;
    var before := Hits(pages[..n], find, f);
    HitsAreOk(pages, find, f);
    HitsAreOk(pages[..n], find, f);
    if j < |before| {
      HitsOrdered(pages[..n], find, f, i, j);
    } else if i >= |before| {
      var found := find(f, pages[n].text);
      assert found[i - |before|].end <= found[j - |before|].start;
    }
  }

  /** They are all the matches in pages with text, and nothing else. */
  lemma {:induction false} HitsComplete(pages: seq<Page>, find: Finder, f: Field, h: Hit)
    ensures h in Hits(pages, find, f) <==>
      h.page < |pages| && pages[h.page].status == TextObserved && h.found in find(f, pages[h.page].text)
  {
    if pages != [] {
      var n := |pages| - 1;
      HitsComplete(pages[..n], find, f, h);
      var found := find(f, pages[n].text);
      if h.page == n && pages[n].status == TextObserved && h.found in found {
        var i :| 0 <= i < |found| && found[i] == h.found;
        assert PageHits(pages, find, f, n)[i] == h;
      }
    }
  }

  // ---------------------------------------------------------------- locate_metadata

  /** The candidates are those of the first hits. */
  ghost predicate FirstHits(candidates: seq<Location>, pages: seq<Page>, f: Field, hits: seq<Hit>) {
    && |candidates| <= |hits|
    && forall i | 0 <= i < |candidates| ::
         && hits[i].page < |pages|
         && hits[i].found.start <= hits[i].found.end <= |pages[hits[i].page].text|
         && candidates[i] == Candidate(f, pages[hits[i].page], hits[i].found)
  }

  lemma FirstHitsMore(candidates: seq<Location>, pages: seq<Page>, f: Field, hits: seq<Hit>, c: Location)
    requires FirstHits(candidates, pages, f, hits) && |candidates| < |hits|
    requires var h := hits[|candidates|];
      h.page < |pages| && h.found.start <= h.found.end <= |pages[h.page].text|
      && c == Candidate(f, pages[h.page], h.found)
    ensures FirstHits(candidates + [c], pages, f, hits)
  {
  }

  method Candidates(pages: seq<Page>, find: Finder, field: Field)
    returns (candidates: seq<Location>, truncated: bool)
    requires Finds(find)
    ensures FirstHits(candidates, pages, field, Hits(pages, find, field))
    ensures |candidates| == Min(MAX_CANDIDATES_PER_FIELD, |Hits(pages, find, field)|)
    ensures truncated <==> |Hits(pages, find, field)| > MAX_CANDIDATES_PER_FIELD
  {
    candidates, truncated := [], false;
    var n := 0;
    while n < |pages| && !truncated
      invariant 0 <= n <= |pages|
      invariant Scanned(pages, find, field, n, candidates, truncated)
    {
      candidates, truncated := OnePage(pages, find, field, n, candidates);
      n := n + 1;
    }
    if !truncated {
      assert pages[..n] == pages;
    }
  }

  /** Where the loop stands before page n, or after it broke off. */
  ghost predicate Scanned(pages: seq<Page>, find: Finder, field: Field, n: nat, candidates: seq<Location>,
                          truncated: bool)
    requires n <= |pages|
  {
    && FirstHits(candidates, pages, field, Hits(pages, find, field))
    && if truncated then |candidates| == MAX_CANDIDATES_PER_FIELD < |Hits(pages, find, field)|
       else |candidates| == |Hits(pages[..n], find, field)| <= MAX_CANDIDATES_PER_FIELD
  }

  /** One page of the loop; a page without text has no matches. */
  method OnePage(pages: seq<Page>, find: Finder, field: Field, n: nat, before: seq<Location>)
    returns (candidates: seq<Location>, truncated: bool)
    requires Finds(find) && n < |pages| && Scanned(pages, find, field, n, before, false)
    ensures Scanned(pages, find, field, n + 1, candidates, truncated)
  {
    HitsOneMore(pages, find, field, n);
    HitsPrefix(pages, find, field, n + 1);
    candidates, truncated := before, false;
    if pages[n].status == TextObserved {
      candidates, truncated := PageCandidates(pages, find, field, n, before);
    }
  }

  lemma NextHit(pages: seq<Page>, find: Finder, f: Field, n: nat, j: nat)
    requires Finds(find) && n < |pages| && pages[n].status == TextObserved && j < |find(f, pages[n].text)|
    requires Hits(pages[..n], find, f) + PageHits(pages, find, f, n) <= Hits(pages, find, f)
    ensures var k := |Hits(pages[..n], find, f)| + j;
      k < |Hits(pages, find, f)| && Hits(pages, find, f)[k] == Hit(n, find(f, pages[n].text)[j])
    ensures MatchOk(find(f, pages[n].text)[j], f, pages[n].text)
  {
    var hits := Hits(pages[..n], find, f) + PageHits(pages, find, f, n);
    assert hits[|Hits(pages[..n], find, f)| + j] == PageHits(pages, find, f, n)[j];
  }

  /** The loop over one page's matches. */
  method PageCandidates(pages: seq<Page>, find: Finder, field: Field, n: nat, before: seq<Location>)
    returns (candidates: seq<Location>, truncated: bool)
    requires Finds(find) && n < |pages| && pages[n].status == TextObserved
    requires FirstHits(before, pages, field, Hits(pages, find, field))
    requires |before| == |Hits(pages[..n], find, field)| <= MAX_CANDIDATES_PER_FIELD
    requires Hits(pages[..n], find, field) + PageHits(pages, find, field, n) <= Hits(pages, find, field)
    ensures FirstHits(candidates, pages, field, Hits(pages, find, field))
    ensures |candidates| <= MAX_CANDIDATES_PER_FIELD
    ensures !truncated ==> |candidates| == |before| + |PageHits(pages, find, field, n)|
    ensures truncated ==> |candidates| == MAX_CANDIDATES_PER_FIELD < |Hits(pages, find, field)|
  {
    ghost var hits := Hits(pages, find, field);
    var found := find(field, pages[n].text);
    candidates, truncated := before, false;
    for j := 0 to |found|
      invariant FirstHits(candidates, pages, field, hits)
      invariant |candidates| == |before| + j <= MAX_CANDIDATES_PER_FIELD
    {
      NextHit(pages, find, field, n, j);
      if |candidates| >= MAX_CANDIDATES_PER_FIELD {
        return candidates, true;
      }
      var candidate := Candidate(field, pages[n], found[j]);
      FirstHitsMore(candidates, pages, field, hits, candidate);
      candidates := candidates + [candidate];
    }
  }

  method FieldLocations(pages: seq<Page>, find: Finder, field: Field) returns (rows: seq<Location>)
    requires Finds(find)
    ensures FieldRows(pages, find, field, rows)
  {
    var candidates, truncated := Candidates(pages, find, field);
    HitsAreOk(pages, find, field);
    if candidates == [] {
      return [NothingFound(field)];
    }
    rows := JudgeAll(candidates, truncated, |Hits(pages, find, field)|);
    JudgedShow(pages, find, field, candidates, rows);
  }

  lemma HitMatches(pages: seq<Page>, find: Finder, f: Field, hits: seq<Hit>, i: nat)
    requires Finds(find) && HitsOk(pages, find, f, hits) && i < |hits|
    ensures MatchOk(hits[i].found, f, pages[hits[i].page].text)
  {
    var found := find(f, pages[hits[i].page].text);
    var k :| 0 <= k < |found| && found[k] == hits[i].found;
    assert MatchOk(found[k], f, pages[hits[i].page].text);
  }

  lemma JudgedShow(pages: seq<Page>, find: Finder, f: Field, candidates: seq<Location>, rows: seq<Location>)
    requires Finds(find) && HitsOk(pages, find, f, Hits(pages, find, f))
    requires FirstHits(candidates, pages, f, Hits(pages, find, f)) && candidates != []
    requires |rows| == |candidates| == Min(100, |Hits(pages, find, f)|)
    requires forall i | 0 <= i < |rows| :: rows[i] == Judged(candidates[i], |Hits(pages, find, f)|)
    ensures FieldRows(pages, find, f, rows)
  {
    var hits := Hits(pages, find, f);
    forall i | 0 <= i < |rows| ensures Shows(rows[i], f, pages[hits[i].page], hits[i].found) {
      HitMatches(pages, find, f, hits, i);
      CandidateShows(f, pages[hits[i].page], hits[i].found);
    }
  }

  lemma CandidateShows(f: Field, page: Page, m: Match)
    requires MatchOk(m, f, page.text)
    ensures Shows(Candidate(f, page, m), f, page, m)
  {
    NormalizedValueShape(f, m, page.text);
    var value := NormalizedValue(m).0;
    assert value[..Min(128, |value|)] == value;
    if m.groups.Period? {
      PeriodReadsBack(m, page.text);
    }
    CandidateText(f, page, m);
  }

  lemma CandidateText(f: Field, page: Page, m: Match)
    requires m.start <= m.end <= |page.text|
    ensures ShowsText(Candidate(f, page, m), page.text, m)
  {
    var raw := page.text[m.start..m.end];
    assert raw[..Min(500, |raw|)] == if m.end - m.start <= 500 then raw else page.text[m.start..m.start + 500];
    var before, after := Min(m.start, 80), Min(|page.text| - m.end, 80);
    assert Anchor(page.text, m) == page.text[m.start - before..m.end + after];
  }

  /** The loop over the candidates of a field, once it is known whether there is just one. */
  method JudgeAll(candidates: seq<Location>, truncated: bool, ghost total: nat) returns (rows: seq<Location>)
    requires |candidates| == Min(MAX_CANDIDATES_PER_FIELD, total) && (truncated <==> total > MAX_CANDIDATES_PER_FIELD)
    ensures |rows| == |candidates| && forall k | 0 <= k < |rows| :: rows[k] == Judged(candidates[k], total)
  {
    var unique := |candidates| == 1 && !truncated;
    rows := [];
    for i := 0 to |candidates|
      invariant |rows| == i
      invariant forall k | 0 <= k < i :: rows[k] == Judged(candidates[k], total)
    {
      rows := rows + [candidates[i].(
        status := if unique then Located else Ambiguous,
        reason := if unique then None else if truncated then Some(Truncated) else Some(SeveralCandidates))];
    }
  }

  /** The rows of the first k fields, one field after the other. */
  ghost predicate AllRows(pages: seq<Page>, find: Finder, k: nat, locations: seq<Location>)
    requires k <= |FIELDS|
  {
    if k == 0 then locations == []
    else exists n | 0 <= n <= |locations| ::
      AllRows(pages, find, k - 1, locations[..n]) && FieldRows(pages, find, FIELDS[k - 1], locations[n..])
  }

  ghost predicate HasField(locations: seq<Location>, f: Field) { exists r :: r in locations && r.field == f }

  method LocateMetadata(pages: seq<Page>, find: Finder) returns (locations: seq<Location>)
    requires Finds(find)
    ensures AllRows(pages, find, |FIELDS|, locations)
    ensures forall f :: HasField(locations, f)
  {
    locations := [];
    for k := 0 to |FIELDS|
      invariant AllRows(pages, find, k, locations)
      invariant forall j | 0 <= j < k :: HasField(locations, FIELDS[j])
    {
      var rows := FieldLocations(pages, find, FIELDS[k]);
      AllRowsMore(pages, find, k, locations, rows);
      FieldsJoin(locations, rows, pages, find, k);
      locations := locations + rows;
    }
    EveryField(locations);
  }

  lemma AllRowsMore(pages: seq<Page>, find: Finder, k: nat, locations: seq<Location>, rows: seq<Location>)
    requires k < |FIELDS| && AllRows(pages, find, k, locations) && FieldRows(pages, find, FIELDS[k], rows)
    ensures AllRows(pages, find, k + 1, locations + rows)
  {
    var n := |locations|;
    assert (locations + rows)[..n] == locations && (locations + rows)[n..] == rows;
  }

  lemma FieldsJoin(locations: seq<Location>, rows: seq<Location>, pages: seq<Page>, find: Finder, k: nat)
    requires k < |FIELDS| && FieldRows(pages, find, FIELDS[k], rows)
    requires forall j | 0 <= j < k :: HasField(locations, FIELDS[j])
    ensures forall j | 0 <= j <= k :: HasField(locations + rows, FIELDS[j])
  {
    forall j | 0 <= j <= k ensures HasField(locations + rows, FIELDS[j]) {
      if j == k {
        assert rows[0] in locations + rows;
      } else {
        assert HasField(locations, FIELDS[j]);
        var r :| r in locations && r.field == FIELDS[j];
        assert r in locations + rows;
      }
    }
  }

  lemma EveryField(locations: seq<Location>)
    requires forall j | 0 <= j < |FIELDS| :: HasField(locations, FIELDS[j])
    ensures forall f :: HasField(locations, f)
  {
    forall f ensures HasField(locations, f) {
      match f
      case ReportPeriodEnd => assert FIELDS[0] == f;
      case StatementCurrencyUnit => assert FIELDS[1] == f;
      case AuditOpinionSection => assert FIELDS[2] == f;
      case StatementScopeHeading => assert FIELDS[3] == f;
    }
  }

  /** What the number of hits decides. */
  lemma RowsByTotal(pages: seq<Page>, find: Finder, f: Field, rows: seq<Location>)
    requires FieldRows(pages, find, f, rows)
    ensures var total := |Hits(pages, find, f)|;
      && |rows| == (if total == 0 then 1 else Min(MAX_CANDIDATES_PER_FIELD, total))
      && ((exists r | r in rows :: r.status == Located) <==> total == 1)
      && ((exists r | r in rows :: r.reason == Some(Truncated)) <==> total > MAX_CANDIDATES_PER_FIELD)
      && ((exists r | r in rows :: r.status == Unresolved) <==> total == 0)
  {
    assert rows[0] in rows;
  }

  // ---------------------------------------------------------------- migration 023

  /** The CHECK constraints on a location row. */
  predicate LocationChecks(l: Location) {
    && (l.rawValue.Some? ==> 1 <= |l.rawValue.value| <= 500)
    && (l.matchStart.Some? ==> l.matchEnd.Some? && l.matchEnd.value > l.matchStart.value)
    && match l.status
       case Located =>
         && l.pageId.Some? && l.rawValue.Some?
         && l.normalizedValue.Some? && 1 <= |Trim(l.normalizedValue.value)| <= 128
         && l.matchStart.Some? && l.matchEnd.Some? && l.anchorHash.Some? && l.reason.None?
       case Ambiguous => l.reason.Some?
       case Unresolved =>
         && l.pageId.None? && l.rawValue.None? && l.normalizedValue.None?
         && l.matchStart.None? && l.matchEnd.None? && l.anchorHash.None?
         && l.scope == UnresolvedScope && l.reason.Some?
  }

  /** The page trigger and its foreign key. */
  predicate PageTrigger(l: Location, pages: seq<Page>) {
    l.pageId.Some? ==> exists p | p in pages :: p.id == l.pageId.value && p.status == TextObserved
  }

  function Tens(k: nat): nat { if k == 0 then 1 else 10 * Tens(k - 1) }

  lemma {:induction false} DecimalLength(n: nat, k: nat)
    requires 0 < k && n < Tens(k)
    ensures |Decimal(n)| <= k
  {
    if n >= 10 {
      DecimalLength(n / 10, k - 1);
    }
  }

  lemma NormalizedValueShape(f: Field, m: Match, t: string)
    requires MatchOk(m, f, t)
    ensures var v := NormalizedValue(m).0; 1 <= |v| <= 128 && |Trim(v)| >= 1 && |Trim(v)| <= 128
    ensures NormalizedValue(m).1 == UnresolvedScope <==> !m.groups.Heading?
  {
    var v := NormalizedValue(m).0;
    match m.groups {
      case Period(y, mo, d) =>
        DecimalLength(y, 4);
        DecimalLength(mo, 2);
        DecimalLength(d, 2);
        var date := Padded(y, 4);
        var year, month := date + "-", date + "-" + Padded(mo, 2);
        var dashed := month + "-";
        assert v == dashed + Padded(d, 2);
        assert year[|date|] == '-' && month[|date|] == '-' && dashed[|date|] == '-';
        assert v[|date|] == '-';
        TrimNotEmpty(v, |date|);
      case Unit(prefix, unit) =>
        assert unit[0] in unit && v[|prefix|] == unit[0];
        TrimNotEmpty(v, |prefix|);
      case Heading(c, table) =>
        TrimNotEmpty(v, 0);
      case Audit =>
        TrimNotEmpty(v, 0);
    }
  }

  lemma {:induction false} ParsedZeros(k: nat, s: string)
    ensures Parsed(seq(k, i => '0') + s) == Parsed(s)
    decreases k + |s|
  {
    var zeros := seq(k, i => '0');
    if s != [] {
      assert (zeros + s)[..|zeros + s| - 1] == zeros + s[..|s| - 1];
      ParsedZeros(k, s[..|s| - 1]);
    } else if k > 0 {
      assert (zeros + s)[..k - 1] == seq(k - 1, i => '0') + [];
      ParsedZeros(k - 1, []);
    }
  }

  lemma PaddedReads(n: nat, width: nat)
    requires |Decimal(n)| <= width
    ensures |Padded(n, width)| == width && Parsed(Padded(n, width)) == n
    ensures forall i | 0 <= i < width :: '0' <= Padded(n, width)[i] <= '9'
  {
    ParsedZeros(width - |Decimal(n)|, Decimal(n));
    DecimalRoundTrip(n);
  }

  /** A located report period reads back as the year, month and day that were matched, in ISO form. */
  lemma PeriodReadsBack(m: Match, t: string)
    requires MatchOk(m, ReportPeriodEnd, t)
    ensures var v := NormalizedValue(m).0;
      && |v| == 10 && v[4] == '-' && v[7] == '-'
      && (forall i | 0 <= i < 10 && i != 4 && i != 7 :: '0' <= v[i] <= '9')
      && Parsed(v[..4]) == m.groups.year && Parsed(v[5..7]) == m.groups.month && Parsed(v[8..]) == m.groups.day
  {
    DecimalLength(m.groups.year, 4);
    DecimalLength(m.groups.month, 2);
    DecimalLength(m.groups.day, 2);
    PaddedReads(m.groups.year, 4);
    PaddedReads(m.groups.month, 2);
    PaddedReads(m.groups.day, 2);
    Dashed(Padded(m.groups.year, 4), Padded(m.groups.month, 2), Padded(m.groups.day, 2));
  }

  lemma Dashed(y: string, mo: string, d: string)
    requires |y| == 4 && |mo| == |d| == 2 && forall i | 0 <= i < 4 :: '0' <= y[i] <= '9'
    requires forall i | 0 <= i < 2 :: '0' <= mo[i] <= '9' && '0' <= d[i] <= '9'
    ensures var v := y + "-" + mo + "-" + d;
      && |v| == 10 && v[4] == '-' && v[7] == '-' && v[..4] == y && v[5..7] == mo && v[8..] == d
      && forall i | 0 <= i < 10 && i != 4 && i != 7 :: '0' <= v[i] <= '9'
  {
  }

  lemma ValueShape(v: string, scope: Scope, f: Field, m: Match, t: string)
    requires MatchOk(m, f, t) && ShowsValue(v, scope, m.groups)
    ensures 1 <= |Trim(v)| <= 128
  {
    match m.groups
    case Period(_, _, _) => TrimNotEmpty(v, 4);
    case Unit(prefix, unit) =>
      assert unit[0] in unit && v[|prefix|] == unit[0];
      TrimNotEmpty(v, |prefix|);
    case Audit => TrimNotEmpty(v, 0);
    case Heading(_, _) => TrimNotEmpty(v, 0);
  }

  ghost predicate MeetConstraints(locations: seq<Location>, pages: seq<Page>) {
    forall i | 0 <= i < |locations| :: LocationChecks(locations[i]) && PageTrigger(locations[i], pages)
  }

  lemma RowMeetsConstraints(pages: seq<Page>, f: Field, page: Page, m: Match, row: Location)
    requires page in pages && page.status == TextObserved && MatchOk(m, f, page.text) && Shows(row, f, page, m)
    requires if row.status == Located then row.reason.None? else row.status == Ambiguous && row.reason.Some?
    ensures LocationChecks(row) && PageTrigger(row, pages)
  {
    ValueShape(row.normalizedValue.value, row.scope, f, m, page.text);
  }

  /** Every row of a field meets the CHECKs and the trigger. */
  lemma RowsMeetConstraints(pages: seq<Page>, find: Finder, f: Field, rows: seq<Location>)
    requires Finds(find) && FieldRows(pages, find, f, rows)
    ensures MeetConstraints(rows, pages)
  {
    var hits := Hits(pages, find, f);
    if hits != [] {
      forall i | 0 <= i < |rows|
        ensures LocationChecks(rows[i]) && PageTrigger(rows[i], pages)
      {
        HitMatches(pages, find, f, hits, i);
        RowMeetsConstraints(pages, f, pages[hits[i].page], hits[i].found, rows[i]);
      }
    }
  }

  lemma JoinedMeetConstraints(locations: seq<Location>, n: nat, pages: seq<Page>)
    requires n <= |locations| && MeetConstraints(locations[..n], pages) && MeetConstraints(locations[n..], pages)
    ensures MeetConstraints(locations, pages)
  {
    assert locations == locations[..n] + locations[n..];
  }

  lemma LastRows(pages: seq<Page>, find: Finder, k: nat, locations: seq<Location>) returns (n: nat)
    requires Finds(find) && 0 < k <= |FIELDS| && AllRows(pages, find, k, locations)
    ensures n <= |locations| && AllRows(pages, find, k - 1, locations[..n]) && MeetConstraints(locations[n..], pages)
  {
    n :| 0 <= n <= |locations|
      && AllRows(pages, find, k - 1, locations[..n]) && FieldRows(pages, find, FIELDS[k - 1], locations[n..]);
    RowsMeetConstraints(pages, find, FIELDS[k - 1], locations[n..]);
  }

  lemma {:induction false} AllRowsMeetConstraints(pages: seq<Page>, find: Finder, k: nat, locations: seq<Location>)
    requires Finds(find) && k <= |FIELDS| && AllRows(pages, find, k, locations)
    ensures MeetConstraints(locations, pages)
  {
    if k > 0 {
      var n := LastRows(pages, find, k, locations);
      AllRowsMeetConstraints(pages, find, k - 1, locations[..n]);
      JoinedMeetConstraints(locations, n, pages);
    }
  }
}
