/** The three normalisers of research evidence (worker/services/research_evidence_store.py): which checks an item
    must pass, and the evidence row and detail it becomes, against the constraints of migrations 018 to 020.
    Codes and domains are given in the letter case the source converts them to. */
module EvidenceItems {
  import opened Common
  import opened PageText

  datatype Kind = Announcement | FinancialReport | News

  /** A hash field: missing, not 64 hexadecimal digits, or the number those stand for. */
  datatype HashField = NoHash | BadHash | GoodHash(value: nat)

  /** The fixed words of the items' and details' fields; a missing field, or any other text. */
  datatype Word =
    | Absent | Other(text: string)
    | AnnouncementType | FinancialReportType | NewsType
    | Observed | Rejected
    | ExactTime | DateTime | Unresolved
    | AnnualCategory | AnnualCategoryVersion | Annual | TitleLabel | FullReport | NoRevision | MetadataObserved
    | FeedUrl | PublicationOrFirstSeen | TitleAliasMatch | ReviewRequired | TitleLinkOnly | RssItemXml

  /** A document id is a text; one formed from a link is represented by the link's digest. */
  datatype GivenId = BlankId | TextId(text: string) | LinkId(link: Digest<string>)

  datatype FinancialFields = FinancialFields(
    category: Word, categoryVersion: Word, kind: Word, periodLabel: Option<string>, periodEnd: Option<int>,
    precision: Word, role: Word, consolidation: Word, currency: Word, unit: Word, audit: Word, revision: Word,
    supersedes: Option<nat>, parseStatus: Word)

  datatype NewsFields = NewsFields(
    titleRaw: string, domain: string, timestamp: string, reportedAt: Option<int>, feedUrl: Word, semantics: Word,
    association: Word, alias: string, status: Word, scope: Word, window: Option<int>, representation: Word,
    parseStatus: Word, publishedAt: Option<int>)

  /** The dictionary a collector hands over: dates and times as they parse, sizes as they convert. */
  datatype Item = Item(
    evidenceType: Word, stock: string, document: GivenId, publisher: string, title: string, url: string,
    publishedDate: Option<int>, precision: Word, quality: Word, rejectReason: Option<string>, hash: HashField,
    bytes: Option<int>, financial: FinancialFields, news: NewsFields)

  /** What `urlparse` finds: whether the scheme is http or https, and the host, empty if there is none. */
  datatype Url = Url(web: bool, host: string)

  type UrlParser = string -> Url

  /** An item without a document id is named after its own digest. */
  datatype DocumentId = Given(id: GivenId) | Nameless(item: Digest<Item>)

  datatype Precision = Exact | Day | Unknown

  datatype FinancialDetail = FinancialDetail(
    category: Word, categoryVersion: Word, titleRaw: string, kind: Word, periodLabel: Option<string>,
    periodEnd: Option<int>, precision: Word, role: Word, consolidation: Word, currency: Word, unit: Word, audit: Word,
    revision: Word, supersedes: Option<nat>, parseStatus: Word)

  datatype NewsDetail = NewsDetail(
    feedUrl: Word, titleRaw: string, domain: string, reportedAt: Option<int>, semantics: Word, association: Word,
    alias: string, status: Word, scope: Word, window: int, representation: Word, parseStatus: Word)

  datatype Detail = NoDetail | OfReport(report: FinancialDetail) | OfNews(news: NewsDetail)

  datatype Row = Row(batch: nat, kind: Kind, stock: string, document: DocumentId, precision: Precision,
                     hash: Option<nat>, bytes: Option<int>, observed: bool, reason: Option<seq<Error>>, detail: Detail)

  /** The messages a normaliser can collect. */
  datatype Error =
    | WrongType | NotRequested | UrlNotAllowed | NoPublishedDate | WrongPrecision | ProviderRejected(text: string)
    | HashInvalid | SizeInvalid
    | WrongCategory | WrongCategoryVersion | TitleNotAnnual | LabelMismatch | NotAnnual | PeriodEndDerived
    | WrongPeriodPrecision | NotFullReport | ScopeResolved | CurrencyResolved | UnitResolved | AuditResolved
    | RevisionUnverified | Supersedes | WrongParseStatus
    | LinkInvalid | LinkIsFeed | IdNotOfLink | DomainMismatch | TitleMismatch | Dated | NoProviderTime | WrongFeed
    | WrongSemantics | WrongMethod | NoAlias | StatusRelaxed | WrongScope | WrongWindow | WrongRepresentation

  datatype Check = Check(error: Error, failed: bool)

  const CNINFO_DOCUMENTS := "https://static.cninfo.com.cn/"
  const GDELT_FEED := "https://storage.googleapis.com/data.gdeltproject.org/gdeltv3/gal/feed.rss"
  const ANNUAL_SUFFIX := "年年度报告"
  const FEED_WINDOW := 15

  // ----- Fields -----

  function StockOf(item: Item, requested: seq<string>): string {
    Strip(if item.stock != "" then item.stock else if requested != [] then requested[0] else "")
  }

  function OrElse(text: string, default: string): string { if Strip(text) == "" then default else Strip(text) }

  function TitleOf(item: Item): string { OrElse(item.title, "未记录标题") }

  function DocumentIdOf(item: Item): DocumentId {
    if item.document == BlankId then Nameless(Sha256(item)) else Given(item.document)
  }

  predicate IsDigits(s: string) { forall c | c in s :: '0' <= c <= '9' }

  /** The year of a title that ends in four digits and the annual-report suffix, white space aside. */
  function TitleYear(title: string): Option<string> {
    var t := Visible(title);
    var n := |t|;
    if n >= 9 && t[n - 5..] == ANNUAL_SUFFIX && IsDigits(t[n - 9..n - 5]) then Some(t[n - 9..n - 5]) else None
  }

  function PrecisionOf(w: Word): Precision {
    if w == ExactTime then Exact else if w == DateTime then Day else Unknown
  }

  function PublisherOf(item: Item): string { OrElse(item.publisher, "未记录发布域名") }

  function Message(item: Item): Error {
    ProviderRejected(if item.rejectReason.Some? then item.rejectReason.value else "")
  }

  // ----- The checks, in the order of the source -----

  function ClosingChecks(item: Item): seq<Check> {
    [Check(Message(item), item.quality != Observed),
     Check(HashInvalid, !item.hash.GoodHash?),
     Check(SizeInvalid, item.bytes.None? || item.bytes.value <= 0)]
  }

  /** What announcements and reports of the same provider have in common. */
  function DisclosureChecks(item: Item, requested: seq<string>, expected: Word): seq<Check> {
    [Check(WrongType, item.evidenceType != expected),
     Check(NotRequested, StockOf(item, requested) !in requested),
     Check(UrlNotAllowed, !(CNINFO_DOCUMENTS <= Strip(item.url))),
     Check(NoPublishedDate, item.publishedDate == None),
     Check(WrongPrecision, item.precision != DateTime)]
  }

  function TitleChecks(item: Item): seq<Check> {
    var f, year := item.financial, TitleYear(TitleOf(item));
    [Check(WrongCategory, f.category != AnnualCategory),
     Check(WrongCategoryVersion, f.categoryVersion != AnnualCategoryVersion),
     Check(TitleNotAnnual, year == None),
     Check(LabelMismatch, year.Some? && f.periodLabel != Some(year.value + "年")),
     Check(NotAnnual, f.kind != Annual),
     Check(PeriodEndDerived, f.periodEnd != None),
     Check(WrongPeriodPrecision, f.precision != TitleLabel),
     Check(NotFullReport, f.role != FullReport)]
  }

  function UnresolvedChecks(f: FinancialFields): seq<Check> {
    [Check(ScopeResolved, f.consolidation != Unresolved),
     Check(CurrencyResolved, f.currency != Unresolved),
     Check(UnitResolved, f.unit != Unresolved),
     Check(AuditResolved, f.audit != Unresolved),
     Check(RevisionUnverified, f.revision != NoRevision),
     Check(Supersedes, f.supersedes != None),
     Check(WrongParseStatus, f.parseStatus != MetadataObserved)]
  }

  function LinkChecks(item: Item, requested: seq<string>, parse: UrlParser): seq<Check> {
    var n, link := item.news, Strip(item.url);
    var url := parse(link);
    [Check(WrongType, item.evidenceType != NewsType),
     Check(NotRequested, StockOf(item, requested) !in requested),
     Check(LinkInvalid, !url.web || url.host == ""),
     Check(LinkIsFeed, link == GDELT_FEED),
     Check(IdNotOfLink, link == "" || DocumentIdOf(item) != Given(LinkId(Sha256(link)))),
     Check(DomainMismatch, PublisherOf(item) != Strip(n.domain) || Strip(n.domain) != url.host),
     Check(TitleMismatch, Strip(n.titleRaw) != TitleOf(item))]
  }

  function NewsFieldChecks(item: Item): seq<Check> {
    var n := item.news;
    [Check(Dated, item.publishedDate != None || n.publishedAt != None),
     Check(WrongPrecision, item.precision != Unresolved),
     Check(NoProviderTime, Strip(n.timestamp) == "" || n.reportedAt == None),
     Check(WrongFeed, n.feedUrl != FeedUrl),
     Check(WrongSemantics, n.semantics != PublicationOrFirstSeen),
     Check(WrongMethod, n.association != TitleAliasMatch),
     Check(NoAlias, Strip(n.alias) == ""),
     Check(StatusRelaxed, n.status != ReviewRequired),
     Check(WrongScope, n.scope != TitleLinkOnly),
     Check(WrongWindow, n.window != Some(FEED_WINDOW)),
     Check(WrongRepresentation, n.representation != RssItemXml),
     Check(WrongParseStatus, n.parseStatus != MetadataObserved)]
  }

  /** Everything a kind is checked for before the checks common to all. */
  function OpeningChecks(k: Kind, item: Item, requested: seq<string>, parse: UrlParser): seq<Check> {
    match k
    case Announcement => DisclosureChecks(item, requested, AnnouncementType)
    case FinancialReport =>
      DisclosureChecks(item, requested, FinancialReportType) + (TitleChecks(item) + UnresolvedChecks(item.financial))
    case News => LinkChecks(item, requested, parse) + NewsFieldChecks(item)
  }

  function Checks(k: Kind, item: Item, requested: seq<string>, parse: UrlParser): seq<Check> {
    OpeningChecks(k, item, requested, parse) + ClosingChecks(item)
  }

  function Errors(checks: seq<Check>): seq<Error> {
    if checks == [] then []
    else
      var last := checks[|checks| - 1];
      Errors(checks[..|checks| - 1]) + (if last.failed then [last.error] else [])
  }

  method CollectErrors(checks: seq<Check>) returns (errors: seq<Error>)
    ensures errors == Errors(checks)
  {
    errors := [];
    for i := 0 to |checks|
      invariant errors == Errors(checks[..i])
    {
      assert checks[..i + 1][..i] == checks[..i];
      if checks[i].failed {
        errors := errors + [checks[i].error];
      }
    }
    assert checks[..|checks|] == checks;
  }

  predicate Acceptable(k: Kind, item: Item, requested: seq<string>, parse: UrlParser) {
    Errors(Checks(k, item, requested, parse)) == []
  }

  /** Exactly the failed checks are reported. */
  lemma {:induction false} ErrorsExact(checks: seq<Check>, e: Error)
    ensures e in Errors(checks) <==> Check(e, true) in checks
  {
    if checks != [] {
      var n := |checks| - 1;
      ErrorsExact(checks[..n], e);
      assert checks == checks[..n] + [checks[n]];
    }
  }

  // ----- Rows and details -----

  function ReportDetail(item: Item): FinancialDetail {
    FinancialDetail(AnnualCategory, AnnualCategoryVersion, TitleOf(item), Annual, item.financial.periodLabel, None,
                    TitleLabel,
                    FullReport, Unresolved, Unresolved, Unresolved, Unresolved, NoRevision, None, MetadataObserved)
  }

  function DetailOfNews(item: Item): NewsDetail {
    NewsDetail(FeedUrl, Strip(item.news.titleRaw), Strip(item.news.domain), item.news.reportedAt,
               PublicationOrFirstSeen,
               TitleAliasMatch, Strip(item.news.alias), ReviewRequired, TitleLinkOnly, FEED_WINDOW, RssItemXml,
               MetadataObserved)
  }

  function DetailOf(k: Kind, item: Item): Detail {
    match k
    case Announcement => NoDetail
    case FinancialReport => OfReport(ReportDetail(item))
    case News => OfNews(DetailOfNews(item))
  }

  function RowOf(k: Kind, item: Item, requested: seq<string>, batch: nat, errors: seq<Error>): Row
    requires errors == [] ==> item.hash.GoodHash?
  {
    var precision := if k == News then Unknown else PrecisionOf(item.precision);
    if errors == []
    then Row(batch, k, StockOf(item, requested), DocumentIdOf(item), precision, Some(item.hash.value), item.bytes,
             true, None,
             DetailOf(k, item))
    else Row(batch, k, StockOf(item, requested), DocumentIdOf(item), precision, None, None, false, Some(errors),
             NoDetail)
  }

  function Normalized(k: Kind, item: Item, requested: seq<string>, batch: nat, parse: UrlParser): Row {
    ClosingHold(k, item, requested, parse);
    RowOf(k, item, requested, batch, Errors(Checks(k, item, requested, parse)))
  }

  /** `_normalize_item` for one batch. */
  function Normalizer(k: Kind, requested: seq<string>, batch: nat, parse: UrlParser): Item -> Row {
    (item: Item) => Normalized(k, item, requested, batch, parse)
  }

  /** The observed/rejected CHECK of migration 018 and the lower bound on the document's size. */
  predicate RowCheck(r: Row) {
    && (if r.observed then r.hash.Some? && r.reason == None else r.reason.Some?)
    && (r.bytes.Some? ==> r.bytes.value >= 0)
  }

  const MAX_STOCK: nat := 12
  const MAX_DOCUMENT: nat := 128
  const MAX_INTEGER: nat := 0x7FFF_FFFF

  /** The length of a document id: `gdelt-gal:` and `invalid-` go before 64 and 32 hexadecimal digits. */
  function IdLength(d: DocumentId): nat {
    match d
    case Nameless(_) => 40
    case Given(BlankId) => 0
    case Given(TextId(text)) => |text|
    case Given(LinkId(_)) => 74
  }

  /** The columns of migration 018 hold the row; a value too long or too large makes the insert raise. */
  predicate Fits(r: Row) {
    |r.stock| <= MAX_STOCK && IdLength(r.document) <= MAX_DOCUMENT && (r.bytes.Some? ==> r.bytes.value <= MAX_INTEGER)
  }

  /** The NOT NULL columns and CHECKs of migration 019; where a CHECK admits several words, the normaliser's one. */
  predicate FinancialDetailCheck(d: FinancialDetail) {
    && d.category == AnnualCategory && d.categoryVersion != Absent && d.kind == Annual && d.periodLabel.Some?
    && d.precision in {TitleLabel, ExactTime} && d.role == FullReport
    && d.consolidation == Unresolved && d.currency == Unresolved && d.unit == Unresolved && d.audit == Unresolved
    && d.revision == NoRevision && d.supersedes == None && d.parseStatus == MetadataObserved
  }

  /** The NOT NULL columns and CHECKs of migration 020. */
  predicate NewsDetailCheck(d: NewsDetail) {
    && d.feedUrl == FeedUrl && d.reportedAt.Some? && d.semantics == PublicationOrFirstSeen
    && d.association == TitleAliasMatch
    && d.status == ReviewRequired && d.scope == TitleLinkOnly && d.window == 15 && d.representation == RssItemXml
    && d.parseStatus == MetadataObserved
  }

  predicate DetailCheck(d: Detail) {
    match d
    case NoDetail => true
    case OfReport(f) => FinancialDetailCheck(f)
    case OfNews(n) => NewsDetailCheck(n)
  }

  /** No check fails in a list exactly when none fails in either part. */
  lemma {:induction false} Parts(a: seq<Check>, b: seq<Check>)
    ensures Errors(a + b) == Errors(a) + Errors(b)
    ensures Errors(a + b) == [] <==> Errors(a) == [] && Errors(b) == []
  {
    if b == [] {
      assert a + b == a;
    } else {
      assert (a + b)[..|a + b| - 1] == a + b[..|b| - 1];
      Parts(a, b[..|b| - 1]);
    }
  }

  lemma {:induction false} Passed(checks: seq<Check>, i: nat)
    requires Errors(checks) == [] && i < |checks|
    ensures !checks[i].failed
  {
    if i < |checks| - 1 {
      assert checks[i] == checks[..|checks| - 1][i];
      Passed(checks[..|checks| - 1], i);
    }
  }

  /** What every kind of item is checked for. */
  lemma ClosingHold(k: Kind, item: Item, requested: seq<string>, parse: UrlParser)
    ensures Acceptable(k, item, requested, parse) ==>
      && item.quality == Observed && item.hash.GoodHash? && item.bytes.Some? && item.bytes.value > 0
  {
    Parts(OpeningChecks(k, item, requested, parse), ClosingChecks(item));
    if Acceptable(k, item, requested, parse) {
      Passed(ClosingChecks(item), 0);
      Passed(ClosingChecks(item), 1);
      Passed(ClosingChecks(item), 2);
    }
  }

  lemma {:induction false} NoErrors(checks: seq<Check>)
    ensures Errors(checks) == [] <==> forall i | 0 <= i < |checks| :: !checks[i].failed
  {
    if checks != [] {
      var n := |checks| - 1;
      NoErrors(checks[..n]);
      forall i | 0 <= i < n ensures checks[i] == checks[..n][i] {
      }
    }
  }

  lemma Singly(c: seq<Check>)
    requires |c| <= 12
    ensures Errors(c) == [] <==>
      && (|c| > 0 ==> !c[0].failed) && (|c| > 1 ==> !c[1].failed) && (|c| > 2 ==> !c[2].failed)
      && (|c| > 3 ==> !c[3].failed) && (|c| > 4 ==> !c[4].failed) && (|c| > 5 ==> !c[5].failed)
      && (|c| > 6 ==> !c[6].failed) && (|c| > 7 ==> !c[7].failed) && (|c| > 8 ==> !c[8].failed)
      && (|c| > 9 ==> !c[9].failed) && (|c| > 10 ==> !c[10].failed) && (|c| > 11 ==> !c[11].failed)
  {
    NoErrors(c);
  }

  lemma ClosingIff(item: Item)
    ensures Errors(ClosingChecks(item)) == [] <==>
      item.quality == Observed && item.hash.GoodHash? && item.bytes.Some? && item.bytes.value > 0
  {
    Singly(ClosingChecks(item));
  }

  lemma DisclosureIff(item: Item, requested: seq<string>, expected: Word)
    ensures Errors(DisclosureChecks(item, requested, expected)) == [] <==>
      && item.evidenceType == expected && item.publishedDate.Some? && item.precision == DateTime
      && Strip(if item.stock != "" then item.stock else if requested != [] then requested[0] else "") in requested
      && "https://static.cninfo.com.cn/" <= Strip(item.url)
  {
    Singly(DisclosureChecks(item, requested, expected));
  }

  lemma TitleIff(item: Item)
    ensures Errors(TitleChecks(item)) == [] <==>
      var f, year := item.financial, TitleYear(TitleOf(item));
      && f.category == AnnualCategory && f.categoryVersion == AnnualCategoryVersion && f.kind == Annual
      && year.Some? && f.periodLabel == Some(year.value + "年") && f.periodEnd == None
      && f.precision == TitleLabel && f.role == FullReport
  {
    Singly(TitleChecks(item));
  }

  lemma UnresolvedIff(f: FinancialFields)
    ensures Errors(UnresolvedChecks(f)) == [] <==>
      && f.consolidation == Unresolved && f.currency == Unresolved && f.unit == Unresolved && f.audit == Unresolved
      && f.revision == NoRevision && f.supersedes == None && f.parseStatus == MetadataObserved
  {
    Singly(UnresolvedChecks(f));
  }

  lemma LinkIff(item: Item, requested: seq<string>, parse: UrlParser)
    ensures Errors(LinkChecks(item, requested, parse)) == [] <==>
      var n, link := item.news, Strip(item.url);
      && item.evidenceType == NewsType
      && Strip(if item.stock != "" then item.stock else if requested != [] then requested[0] else "") in requested
      && parse(link).web && parse(link).host != "" && link != ""
      && link != "https://storage.googleapis.com/data.gdeltproject.org/gdeltv3/gal/feed.rss"
      && item.document == LinkId(Sha256(link))
      && PublisherOf(item) == Strip(n.domain) == parse(link).host
      && Strip(n.titleRaw) == TitleOf(item)
  {
    Singly(LinkChecks(item, requested, parse));
  }

  lemma NewsFieldsIff(item: Item)
    ensures Errors(NewsFieldChecks(item)) == [] <==>
      var n := item.news;
      && item.publishedDate == None && n.publishedAt == None && item.precision == Unresolved
      && Strip(n.timestamp) != "" && n.reportedAt.Some? && n.feedUrl == FeedUrl && n.semantics == PublicationOrFirstSeen
      && n.association == TitleAliasMatch && Strip(n.alias) != "" && n.status == ReviewRequired
      && n.scope == TitleLinkOnly && n.window == Some(15) && n.representation == RssItemXml
      && n.parseStatus == MetadataObserved
  {
    Singly(NewsFieldChecks(item));
  }

  /** A title names a year when its visible characters end in four digits and the annual-report suffix. */
  lemma TitleYearIff(title: string, year: string)
    ensures TitleYear(title) == Some(year) <==>
      && |year| == 4 && (forall i | 0 <= i < 4 :: '0' <= year[i] <= '9')
      && exists before: string :: Visible(title) == before + year + "年年度报告"
  {
    var t := Visible(title);
    if TitleYear(title) == Some(year) {
      assert t == t[..|t| - 9] + year + "年年度报告";
      assert forall i | 0 <= i < 4 :: year[i] in year;
    }
    if before: string :| t == before + year + "年年度报告" {
      assert |year| == 4 ==> t[|t| - 9..|t| - 5] == year && t[|t| - 5..] == "年年度报告";
    }
  }

  /** The title ends in a year and the annual-report suffix, and the label is that year. */
  ghost predicate TitleGives(title: string, given: Option<string>) {
    exists before: string, year: string :: (
      && Visible(Strip(title)) == before + year + "年年度报告" && given == Some(year + "年")
      && |year| == 4 && forall i | 0 <= i < 4 :: '0' <= year[i] <= '9')
  }

  /** An announcement is accepted exactly when it was asked for, is dated to the day, lies in the fixed document
      domain, and came with its hash and size from a provider that vouches for it. */
  lemma AcceptedAnnouncement(item: Item, requested: seq<string>, parse: UrlParser)
    ensures Acceptable(Announcement, item, requested, parse) <==>
      && item.evidenceType == AnnouncementType && item.publishedDate.Some? && item.precision == DateTime
      && Strip(if item.stock != "" then item.stock else if requested != [] then requested[0] else "") in requested
      && "https://static.cninfo.com.cn/" <= Strip(item.url)
      && item.quality == Observed && item.hash.GoodHash? && item.bytes.Some? && item.bytes.value > 0
  {
    Parts(DisclosureChecks(item, requested, AnnouncementType), ClosingChecks(item));
    DisclosureIff(item, requested, AnnouncementType);
    ClosingIff(item);
  }

  /** A report is accepted exactly when it is as good as an announcement, its title ends in a year and the
      annual-report suffix, its label repeats that year, and nothing was derived beyond that. */
  lemma AcceptedReport(item: Item, requested: seq<string>, parse: UrlParser)
    ensures Acceptable(FinancialReport, item, requested, parse) <==>
      var f := item.financial;
      && item.evidenceType == FinancialReportType && item.publishedDate.Some? && item.precision == DateTime
      && Strip(if item.stock != "" then item.stock else if requested != [] then requested[0] else "") in requested
      && "https://static.cninfo.com.cn/" <= Strip(item.url)
      && f.category == AnnualCategory && f.categoryVersion == AnnualCategoryVersion && f.kind == Annual
      && TitleGives(item.title, f.periodLabel)
      && f.periodEnd == None && f.precision == TitleLabel && f.role == FullReport
      && f.consolidation == Unresolved && f.currency == Unresolved && f.unit == Unresolved && f.audit == Unresolved
      && f.revision == NoRevision && f.supersedes == None && f.parseStatus == MetadataObserved
      && item.quality == Observed && item.hash.GoodHash? && item.bytes.Some? && item.bytes.value > 0
  {
    ReportParts(item, requested, parse);
    DisclosureIff(item, requested, FinancialReportType);
    TitleIff(item);
    ReportTitle(item);
    UnresolvedIff(item.financial);
    ClosingIff(item);
  }

  lemma AllParts(a: seq<Check>, b: seq<Check>, c: seq<Check>)
    ensures Errors(a + b + c) == [] <==> Errors(a) == [] && Errors(b) == [] && Errors(c) == []
  {
    Parts(a + b, c);
    Parts(a, b);
  }

  lemma ReportParts(item: Item, requested: seq<string>, parse: UrlParser)
    ensures Acceptable(FinancialReport, item, requested, parse) <==>
      && Errors(DisclosureChecks(item, requested, FinancialReportType)) == []
      && Errors(TitleChecks(item)) == [] && Errors(UnresolvedChecks(item.financial)) == []
      && Errors(ClosingChecks(item)) == []
  {
    var disclosure := DisclosureChecks(item, requested, FinancialReportType);
    AllParts(disclosure, TitleChecks(item) + UnresolvedChecks(item.financial), ClosingChecks(item));
    Parts(TitleChecks(item), UnresolvedChecks(item.financial));
  }

  /** The details of accepted items meet the constraints of their tables. */
  lemma DetailFits(k: Kind, item: Item, requested: seq<string>, parse: UrlParser)
    requires Acceptable(k, item, requested, parse)
    ensures DetailCheck(DetailOf(k, item))
  {
    match k
    case Announcement =>
    case FinancialReport =>
      ReportParts(item, requested, parse);
      TitleIff(item);
    case News =>
      NewsParts(item, requested, parse);
      NewsFieldsIff(item);
  }

  /** The label repeats the year of the stripped title; a blank title has none. */
  lemma ReportTitle(item: Item)
    ensures TitleYear(TitleOf(item)).Some? ==> TitleOf(item) == Strip(item.title)
    ensures TitleYear(TitleOf(item)).Some? && item.financial.periodLabel == Some(TitleYear(TitleOf(item)).value + "年")
      <==> TitleGives(item.title, item.financial.periodLabel)
  {
    var title, given := TitleOf(item), item.financial.periodLabel;
    VisibleShorter("未记录标题");
    if TitleYear(title).Some? && given == Some(TitleYear(title).value + "年") {
      TitleYearIff(title, TitleYear(title).value);
    }
    if before: string, year: string :|
      && Visible(Strip(item.title)) == before + year + "年年度报告" && given == Some(year + "年")
      && |year| == 4 && forall i | 0 <= i < 4 :: '0' <= year[i] <= '9'
    {
      VisibleShorter(Strip(item.title));
      TitleYearIff(title, year);
    }
  }

  lemma {:induction false} VisibleShorter(s: string)
    ensures |Visible(s)| <= |s|
  {
    if s != [] {
      VisibleShorter(s[1..]);
    }
  }

  lemma NewsParts(item: Item, requested: seq<string>, parse: UrlParser)
    ensures Acceptable(News, item, requested, parse) <==>
      && Errors(LinkChecks(item, requested, parse)) == [] && Errors(NewsFieldChecks(item)) == []
      && Errors(ClosingChecks(item)) == []
  {
    AllParts(LinkChecks(item, requested, parse), NewsFieldChecks(item), ClosingChecks(item));
  }

  /** News is accepted exactly when it is a web link to the named publisher's host, not to the feed, identified by
      that link, under its own title, with the provider's time and an alias, and claims no time of publication. */
  lemma AcceptedNews(item: Item, requested: seq<string>, parse: UrlParser)
    ensures Acceptable(News, item, requested, parse) <==>
      var n, link := item.news, Strip(item.url);
      && item.evidenceType == NewsType
      && Strip(if item.stock != "" then item.stock else if requested != [] then requested[0] else "") in requested
      && parse(link).web && parse(link).host != "" && link != ""
      && link != "https://storage.googleapis.com/data.gdeltproject.org/gdeltv3/gal/feed.rss"
      && item.document == LinkId(Sha256(link))
      && (if Strip(item.publisher) == "" then "未记录发布域名" else Strip(item.publisher)) == Strip(n.domain)
      && Strip(n.domain) == parse(link).host
      && Strip(n.titleRaw) == (if Strip(item.title) == "" then "未记录标题" else Strip(item.title))
      && item.publishedDate == None && n.publishedAt == None && item.precision == Unresolved
      && Strip(n.timestamp) != "" && n.reportedAt.Some? && n.feedUrl == FeedUrl && n.semantics == PublicationOrFirstSeen
      && n.association == TitleAliasMatch && Strip(n.alias) != "" && n.status == ReviewRequired
      && n.scope == TitleLinkOnly && n.window == Some(15) && n.representation == RssItemXml
      && n.parseStatus == MetadataObserved
      && item.quality == Observed && item.hash.GoodHash? && item.bytes.Some? && item.bytes.value > 0
  {
    NewsParts(item, requested, parse);
    LinkIff(item, requested, parse);
    NewsFieldsIff(item);
    ClosingIff(item);
  }

  /** Two accepted news items have the same document id exactly when they link to the same page. */
  lemma NewsDocumentIsItsLink(a: Item, b: Item, requested: seq<string>, requested': seq<string>, parse: UrlParser)
    requires Acceptable(News, a, requested, parse) && Acceptable(News, b, requested', parse)
    ensures DocumentIdOf(a) == DocumentIdOf(b) <==> Strip(a.url) == Strip(b.url)
  {
    AcceptedNews(a, requested, parse);
    AcceptedNews(b, requested', parse);
  }

  /** Every normalised row meets the CHECKs of its tables, and has a detail exactly if it is an observed report or
      news. */
  lemma NormalizedMeetsConstraints(k: Kind, item: Item, requested: seq<string>, batch: nat, parse: UrlParser)
    ensures var r := Normalized(k, item, requested, batch, parse);
      && RowCheck(r) && DetailCheck(r.detail)
      && (r.observed <==> Acceptable(k, item, requested, parse)) && (r.observed <==> r.hash.Some?)
      && (r.detail.NoDetail? <==> !r.observed || k == Announcement)
      && (r.detail.OfReport? ==> k == FinancialReport) && (r.detail.OfNews? ==> k == News)
      && (r.reason.Some? ==> forall e :: e in r.reason.value <==> Check(e, true) in Checks(k, item, requested, parse))
  {
    forall e
      ensures e in Errors(Checks(k, item, requested, parse)) <==> Check(e, true) in Checks(k, item, requested, parse)
    {
      ErrorsExact(Checks(k, item, requested, parse), e);
    }
    if Acceptable(k, item, requested, parse) {
      DetailFits(k, item, requested, parse);
    }
  }

  /** A row fits exactly when stock code, given document id and, if it is observed, size do; rejection does not
      help. */
  lemma FitsIff(k: Kind, item: Item, requested: seq<string>, batch: nat, parse: UrlParser)
    ensures Fits(Normalized(k, item, requested, batch, parse)) <==>
      && |StockOf(item, requested)| <= 12 && (item.document.TextId? ==> |item.document.text| <= 128)
      && (Acceptable(k, item, requested, parse) ==> item.bytes.Some? && item.bytes.value <= 0x7FFF_FFFF)
  {
    ClosingHold(k, item, requested, parse);
  }

  // ----- What a row tells of its item -----

  ghost predicate NewsTells(d: NewsDetail, item: Item, parse: UrlParser) {
    && d.domain == parse(Strip(item.url)).host && d.alias == Strip(item.news.alias)
    && d.titleRaw == Strip(item.news.titleRaw) && d.reportedAt == item.news.reportedAt
  }

  ghost predicate ReportTells(d: FinancialDetail, item: Item) {
    && d.titleRaw == Strip(item.title) && TitleGives(item.title, d.periodLabel)
    && d.categoryVersion == AnnualCategoryVersion && d.precision == TitleLabel && d.periodEnd == None
  }

  /** The document id of an item. */
  ghost predicate Identifies(d: DocumentId, item: Item) {
    if item.document == BlankId then d == Nameless(Sha256(item)) else d == Given(item.document)
  }

  /** Stock, id and precision are the item's; hash and size only if it is accepted, and then with the detail of its
      kind. */
  ghost predicate Tells(row: Row, k: Kind, item: Item, requested: seq<string>, batch: nat, parse: UrlParser) {
    && row.batch == batch && row.kind == k && Identifies(row.document, item)
    && row.stock == Strip(if item.stock != "" then item.stock else if requested != [] then requested[0] else "")
    && (row.precision == Exact <==> k != News && item.precision == ExactTime)
    && (row.precision == Day <==> k != News && item.precision == DateTime)
    && (if row.observed
        then && row.hash.Some? && item.hash == GoodHash(row.hash.value) && row.bytes == item.bytes && row.reason == None
             && (k == Announcement <==> row.detail.NoDetail?)
             && (k == FinancialReport <==> row.detail.OfReport?)
             && (k == FinancialReport ==> ReportTells(row.detail.report, item))
             && (k == News ==> NewsTells(row.detail.news, item, parse))
        else row.hash == None && row.bytes == None && row.reason.Some? && row.detail == NoDetail)
  }

  lemma NormalizedTells(k: Kind, item: Item, requested: seq<string>, batch: nat, parse: UrlParser)
    ensures Tells(Normalized(k, item, requested, batch, parse), k, item, requested, batch, parse)
  {
    ClosingHold(k, item, requested, parse);
    if Acceptable(k, item, requested, parse) {
      match k
      case Announcement =>
      case FinancialReport =>
        ReportParts(item, requested, parse);
        TitleIff(item);
        ReportTitle(item);
      case News =>
        NewsParts(item, requested, parse);
        LinkIff(item, requested, parse);
    }
  }

  /** Collects every error, and keeps hash, size and detail only without any. */
  method NormalizeItem(k: Kind, item: Item, requested: seq<string>, batch: nat, parse: UrlParser) returns (row: Row)
    ensures row == Normalized(k, item, requested, batch, parse)
    ensures RowCheck(row) && DetailCheck(row.detail)
    ensures row.observed <==> Acceptable(k, item, requested, parse)
    ensures row.detail.NoDetail? <==> !row.observed || k == Announcement
    ensures Tells(row, k, item, requested, batch, parse)
  {
    NormalizedMeetsConstraints(k, item, requested, batch, parse);
    NormalizedTells(k, item, requested, batch, parse);
    var opening := CollectErrors(OpeningChecks(k, item, requested, parse));
    var closing := CollectErrors(ClosingChecks(item));
    Parts(OpeningChecks(k, item, requested, parse), ClosingChecks(item));
    row := RowOf(k, item, requested, batch, opening + closing);
  }
}
