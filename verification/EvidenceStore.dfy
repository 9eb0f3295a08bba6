/** Research evidence batches (worker/services/research_evidence_store.py) over the tables of migrations 018
    to 020: announcements, financial reports and news, deduplicated by (provider, document, hash). */
module EvidenceStore {
  import opened Common
  import opened EvidenceItems

  datatype Provider = Cninfo | Gdelt

  function ProviderOf(k: Kind): Provider { if k == News then Gdelt else Cninfo }

  datatype Status = Running | Succeeded | Partial | FetchFailed | ValidationFailed | WriteFailed

  datatype Supplied = SuppliedFetchFailed | SuppliedValidationFailed | SuppliedOther

  /** The metadata the batch is judged by; `pinned` says provider, source and endpoint are the fixed ones,
      `scoped` that the annual-report category or the news scope and window are. */
  datatype Metadata = Metadata(pinned: bool, fallbackUsed: bool, reviewRequired: bool, hash: HashField, scoped: bool,
                               fetched: bool, supplied: Supplied, reason: Option<string>)

  datatype Batch = Batch(kind: Kind, requested: nat, returned: nat, accepted: nat, rejected: nat, status: Status,
                         reason: Option<string>)

  datatype BatchResult = BatchResult(batch: nat, status: Status, accepted: nat, rejected: nat, reason: Option<string>)

  datatype Faults = Faults(insertBatch: bool, write: Option<nat>, finalize: bool)

  predicate SourceIsValid(k: Kind, m: Metadata) {
    && m.pinned && !m.fallbackUsed && m.reviewRequired && m.hash != BadHash
    && (k != Announcement ==> m.scoped)
    && (k == News && m.supplied != SuppliedFetchFailed ==> m.fetched && m.hash.GoodHash?)
  }

  // ----- Normalisation -----

  /** The rows of a batch, one per item. */
  function AllRows(normalize: Item -> Row, items: seq<Item>): seq<Row> {
    if items == [] then [] else AllRows(normalize, items[..|items| - 1]) + [normalize(items[|items| - 1])]
  }

  lemma AllRowsMore(normalize: Item -> Row, items: seq<Item>, i: nat)
    requires i < |items|
    ensures AllRows(normalize, items[..i + 1]) == AllRows(normalize, items[..i]) + [normalize(items[i])]
  {
    assert items[..i + 1][..i] == items[..i];
  }

  method NormalizeOne(k: Kind, item: Item, requested: seq<string>, batch: nat, parse: UrlParser) returns (row: Row)
    ensures row == Normalizer(k, requested, batch, parse)(item)
  {
    row := NormalizeItem(k, item, requested, batch, parse);
  }

  method NormalizeAll(k: Kind, items: seq<Item>, requested: seq<string>, batch: nat, parse: UrlParser)
    returns (rows: seq<Row>)
    ensures rows == AllRows(Normalizer(k, requested, batch, parse), items)
  {
    rows := [];
    for i := 0 to |items|
      invariant rows == AllRows(Normalizer(k, requested, batch, parse), items[..i])
    {
      AllRowsMore(Normalizer(k, requested, batch, parse), items, i);
      var row := NormalizeOne(k, items[i], requested, batch, parse);
      rows := rows + [row];
    }
    assert items[..|items|] == items;
  }

  ghost predicate Sound(normalize: Item -> Row) { forall item :: Normal(normalize(item)) }

  lemma NormalizerSound(k: Kind, requested: seq<string>, batch: nat, parse: UrlParser)
    ensures Sound(Normalizer(k, requested, batch, parse))
  {
    forall item ensures Normal(Normalizer(k, requested, batch, parse)(item)) {
      NormalizedMeetsConstraints(k, item, requested, batch, parse);
    }
  }

  lemma {:induction false} RowsSound(normalize: Item -> Row, items: seq<Item>)
    requires Sound(normalize)
    ensures |AllRows(normalize, items)| == |items| && forall r | r in AllRows(normalize, items) :: Normal(r)
  {
    if items != [] {
      RowsSound(normalize, items[..|items| - 1]);
    }
  }

  function CountTrue(flags: seq<bool>): nat {
    if flags == [] then 0 else CountTrue(flags[..|flags| - 1]) + One(flags[|flags| - 1])
  }

  /** The accepted rows of a batch are as many as the items that pass every check. */
  lemma AcceptedAreAcceptable(k: Kind, items: seq<Item>, requested: seq<string>, batch: nat, parse: UrlParser)
    ensures CountObserved(AllRows(Normalizer(k, requested, batch, parse), items))
         == CountTrue(seq(|items|, i requires 0 <= i < |items| => Acceptable(k, items[i], requested, parse)))
  {
    var flags := seq(|items|, i requires 0 <= i < |items| => Acceptable(k, items[i], requested, parse));
    forall i | 0 <= i < |items| ensures Normalizer(k, requested, batch, parse)(items[i]).observed == flags[i] {
      NormalizedMeetsConstraints(k, items[i], requested, batch, parse);
    }
    CountFlags(Normalizer(k, requested, batch, parse), items, flags);
  }

  lemma {:induction false} CountFlags(normalize: Item -> Row, items: seq<Item>, flags: seq<bool>)
    requires |items| == |flags| && forall i | 0 <= i < |items| :: normalize(items[i]).observed == flags[i]
    ensures CountObserved(AllRows(normalize, items)) == CountTrue(flags)
  {
    if items != [] {
      CountFlags(normalize, items[..|items| - 1], flags[..|items| - 1]);
    }
  }

  function CountObserved(rows: seq<Row>): (n: nat)
    ensures n <= |rows|
  {
    if rows == [] then 0 else CountObserved(rows[..|rows| - 1]) + if rows[|rows| - 1].observed then 1 else 0
  }

  // ----- The write transaction -----

  /** Evidence rows by their identifier (their position), and the two detail tables. */
  datatype Tables = Tables(evidence: seq<Row>, financial: map<nat, FinancialDetail>, news: map<nat, NewsDetail>)

  predicate SameKey(a: Row, b: Row) {
    ProviderOf(a.kind) == ProviderOf(b.kind) && a.document == b.document && a.hash == b.hash && a.hash.Some?
  }

  /** The row with this provider, document and hash; NULL hashes never conflict. */
  function Find(evidence: seq<Row>, row: Row): (r: Option<nat>)
    ensures r.Some? ==> r.value < |evidence| && SameKey(evidence[r.value], row)
    ensures r.None? ==> forall i | 0 <= i < |evidence| :: !SameKey(evidence[i], row)
  {
    if evidence == [] then None
    else if SameKey(evidence[|evidence| - 1], row) then Some(|evidence| - 1)
    else Find(evidence[..|evidence| - 1], row)
  }

  function WithDetail<D>(details: map<nat, D>, id: nat, detail: D): map<nat, D> {
    if id in details then details else details[id := detail]
  }

  function EvidenceAfter(evidence: seq<Row>, row: Row): seq<Row> {
    if Find(evidence, row).None? then evidence + [row] else evidence
  }

  /** The identifier of the row with this key, new or found. */
  function IdentifierOf(evidence: seq<Row>, row: Row): (id: nat)
    ensures id < |EvidenceAfter(evidence, row)|
  {
    if Find(evidence, row).None? then |evidence| else Find(evidence, row).value
  }

  function InsertOne(t: Tables, row: Row): Tables {
    var evidence, id := EvidenceAfter(t.evidence, row), IdentifierOf(t.evidence, row);
    match row.detail
    case NoDetail => t.(evidence := evidence)
    case OfReport(d) => Tables(evidence, WithDetail(t.financial, id, d), t.news)
    case OfNews(d) => Tables(evidence, t.financial, WithDetail(t.news, id, d))
  }

  function InsertAll(t: Tables, rows: seq<Row>): Tables {
    if rows == [] then t else InsertOne(InsertAll(t, rows[..|rows| - 1]), rows[|rows| - 1])
  }

  /** The unique key, the CHECKs, and details only for observed evidence. */
  ghost predicate TablesOk(t: Tables) {
    && EvidenceOk(t.evidence)
    && DetailsOk(t.financial.Keys, t.evidence) && DetailsOk(t.news.Keys, t.evidence)
    && DetailChecks(t)
  }

  /** Every stored detail meets the constraints of migrations 019 and 020. */
  predicate AllMeet<V>(rows: map<nat, V>, check: V -> bool) { forall id | id in rows :: check(rows[id]) }

  lemma OneMoreMeets<V>(rows: map<nat, V>, id: nat, detail: V, check: V -> bool)
    requires AllMeet(rows, check) && check(detail)
    ensures AllMeet(WithDetail(rows, id, detail), check)
  {
  }

  ghost predicate DetailChecks(t: Tables) {
    AllMeet(t.financial, FinancialDetailCheck) && AllMeet(t.news, NewsDetailCheck)
  }

  ghost predicate EvidenceOk(evidence: seq<Row>) {
    && (forall i, j | 0 <= i < j < |evidence| :: !SameKey(evidence[i], evidence[j]))
    && forall i | 0 <= i < |evidence| ::
         RowCheck(evidence[i]) && Fits(evidence[i]) && (evidence[i].observed <==> evidence[i].hash.Some?)
  }

  ghost predicate DetailsOk(ids: set<nat>, evidence: seq<Row>) {
    forall id | id in ids :: id < |evidence| && evidence[id].observed
  }

  /** The item's evidence is stored and, for news and reports, has its detail. */
  predicate Represented(t: Tables, row: Row) {
    var found := Find(t.evidence, row);
    && found.Some?
    && match row.detail
       case NoDetail => true
       case OfReport(_) => found.value in t.financial
       case OfNews(_) => found.value in t.news
  }

  /** Nothing is changed or removed. */
  ghost predicate Grows(s: Tables, t: Tables) {
    && s.evidence <= t.evidence
    && (forall id | id in s.financial :: id in t.financial && t.financial[id] == s.financial[id])
    && forall id | id in s.news :: id in t.news && t.news[id] == s.news[id]
  }

  predicate Normal(r: Row) {
    RowCheck(r) && DetailCheck(r.detail) && (r.observed <==> r.hash.Some?) && (!r.detail.NoDetail? ==> r.observed)
  }

  lemma InsertOneKeeps(t: Tables, row: Row)
    requires TablesOk(t) && Normal(row) && Fits(row)
    ensures TablesOk(InsertOne(t, row)) && Grows(t, InsertOne(t, row))
  {
    EvidenceKept(t.evidence, row);
    DetailsKept(t.financial.Keys, t.evidence, row);
    DetailsKept(t.news.Keys, t.evidence, row);
    InsertOneShape(t, row);
    InsertOneGrows(t, row);
    DetailChecksKept(t, row);
  }

  /** The identifiers a row adds to. */
  lemma InsertOneShape(t: Tables, row: Row)
    ensures var u, id := InsertOne(t, row), IdentifierOf(t.evidence, row);
      && u.evidence == EvidenceAfter(t.evidence, row)
      && u.financial.Keys == (if row.detail.OfReport? then t.financial.Keys + {id} else t.financial.Keys)
      && u.news.Keys == if row.detail.OfNews? then t.news.Keys + {id} else t.news.Keys
  {
  }

  lemma DetailChecksKept(t: Tables, row: Row)
    requires DetailChecks(t) && DetailCheck(row.detail)
    ensures DetailChecks(InsertOne(t, row))
  {
    match row.detail
    case NoDetail =>
    case OfReport(d) => OneMoreMeets(t.financial, IdentifierOf(t.evidence, row), d, FinancialDetailCheck);
    case OfNews(d) => OneMoreMeets(t.news, IdentifierOf(t.evidence, row), d, NewsDetailCheck);
  }

  lemma InsertOneGrows(t: Tables, row: Row)
    ensures Grows(t, InsertOne(t, row))
  {
  }

  lemma EvidenceKept(evidence: seq<Row>, row: Row)
    requires EvidenceOk(evidence) && Normal(row) && Fits(row)
    ensures EvidenceOk(EvidenceAfter(evidence, row))
    ensures row.observed ==> EvidenceAfter(evidence, row)[IdentifierOf(evidence, row)].observed
  {
  }

  lemma DetailsKept(ids: set<nat>, evidence: seq<Row>, row: Row)
    requires DetailsOk(ids, evidence) && EvidenceOk(evidence) && Normal(row) && Fits(row)
    ensures DetailsOk(ids, EvidenceAfter(evidence, row))
    ensures !row.detail.NoDetail? ==> DetailsOk(ids + {IdentifierOf(evidence, row)}, EvidenceAfter(evidence, row))
  {
    EvidenceKept(evidence, row);
  }

  lemma FindUnique(evidence: seq<Row>, row: Row, id: nat)
    requires EvidenceOk(evidence)
    requires id < |evidence| && SameKey(evidence[id], row)
    ensures Find(evidence, row) == Some(id)
  {
    var found := Find(evidence, row).value;
    assert SameKey(evidence[found], evidence[id]);
  }

  lemma InsertedIsRepresented(t: Tables, row: Row)
    requires TablesOk(t) && Normal(row) && Fits(row) && row.observed
    ensures Represented(InsertOne(t, row), row)
  {
    InsertOneKeeps(t, row);
    var u := InsertOne(t, row);
    var id := if Find(t.evidence, row).None? then |t.evidence| else Find(t.evidence, row).value;
    FindUnique(u.evidence, row, id);
  }

  lemma RepresentedStays(s: Tables, t: Tables, row: Row)
    requires TablesOk(t) && Grows(s, t) && Represented(s, row)
    ensures Represented(t, row) && Find(t.evidence, row) == Find(s.evidence, row)
  {
    var id := Find(s.evidence, row).value;
    assert t.evidence[id] == s.evidence[id];
    FindUnique(t.evidence, row, id);
  }

  /** A write keeps the tables in order, removes nothing, and represents every accepted item by exactly one
      evidence row with exactly one detail. */
  lemma {:induction false} InsertAllRepresents(t: Tables, rows: seq<Row>)
    requires TablesOk(t) && forall r | r in rows :: Normal(r) && Fits(r)
    ensures TablesOk(InsertAll(t, rows)) && Grows(t, InsertAll(t, rows))
    ensures forall r | r in rows && r.observed :: Represented(InsertAll(t, rows), r)
  {
    if rows != [] {
      var n := |rows| - 1;
      var before, last := rows[..n], rows[n];
      assert rows == before + [last];
      InsertAllRepresents(t, before);
      var s := InsertAll(t, before);
      InsertOneKeeps(s, last);
      forall r | r in rows && r.observed ensures Represented(InsertAll(t, rows), r) {
        if r == last {
          InsertedIsRepresented(s, last);
        } else {
          assert r in before;
          RepresentedStays(s, InsertOne(s, last), r);
        }
      }
    }
  }

  /** What a write adds was among its rows. */
  ghost predicate AddedFrom(t: Tables, u: Tables, rows: seq<Row>) {
    && EvidenceFrom(t.evidence, u.evidence, rows)
    && ReportsFrom(t.financial, u.financial, u.evidence, rows) && NewsFrom(t.news, u.news, u.evidence, rows)
  }

  ghost predicate EvidenceFrom(before: seq<Row>, after: seq<Row>, rows: seq<Row>) {
    |before| <= |after| && forall j | |before| <= j < |after| :: after[j] in rows
  }

  ghost predicate ReportsFrom(before: map<nat, FinancialDetail>, after: map<nat, FinancialDetail>, evidence: seq<Row>,
                              rows: seq<Row>)
  {
    forall id | id in after && id !in before :: DetailFrom(evidence, id, OfReport(after[id]), rows)
  }

  ghost predicate NewsFrom(before: map<nat, NewsDetail>, after: map<nat, NewsDetail>, evidence: seq<Row>,
                           rows: seq<Row>)
  {
    forall id | id in after && id !in before :: DetailFrom(evidence, id, OfNews(after[id]), rows)
  }

  ghost predicate DetailFrom(evidence: seq<Row>, id: nat, detail: Detail, rows: seq<Row>) {
    id < |evidence| && exists r :: r in rows && r.detail == detail && SameKey(evidence[id], r)
  }

  lemma {:induction false} InsertAllAddsFrom(t: Tables, rows: seq<Row>)
    requires forall r | r in rows :: Normal(r)
    ensures AddedFrom(t, InsertAll(t, rows), rows)
    ensures forall r | r in rows && !r.observed :: r in InsertAll(t, rows).evidence
  {
    if rows != [] {
      var n := |rows| - 1;
      var before, last := rows[..n], rows[n];
      assert rows == before + [last];
      InsertAllAddsFrom(t, before);
      OneAddsFrom(t, InsertAll(t, before), before, last);
    }
  }

  lemma OneAddsFrom(t: Tables, s: Tables, rows: seq<Row>, last: Row)
    requires AddedFrom(t, s, rows) && Normal(last)
    ensures AddedFrom(t, InsertOne(s, last), rows + [last])
    ensures forall r | r in s.evidence :: r in InsertOne(s, last).evidence
    ensures !last.observed ==> last in InsertOne(s, last).evidence
  {
    OneEvidence(t.evidence, s.evidence, rows, last);
    OneReport(t.financial, s.financial, s.evidence, rows, last);
    OneNews(t.news, s.news, s.evidence, rows, last);
  }

  lemma OneEvidence(before: seq<Row>, evidence: seq<Row>, rows: seq<Row>, last: Row)
    requires EvidenceFrom(before, evidence, rows) && Normal(last)
    ensures EvidenceFrom(before, EvidenceAfter(evidence, last), rows + [last])
    ensures forall r | r in evidence :: r in EvidenceAfter(evidence, last)
    ensures !last.observed ==> last in EvidenceAfter(evidence, last)
  {
  }

  /** The detail of a row goes to the row that stands for it. */
  lemma OwnDetail(evidence: seq<Row>, rows: seq<Row>, last: Row)
    requires Normal(last) && !last.detail.NoDetail?
    ensures DetailFrom(EvidenceAfter(evidence, last), IdentifierOf(evidence, last), last.detail, rows + [last])
  {
    assert last in rows + [last] && SameKey(EvidenceAfter(evidence, last)[IdentifierOf(evidence, last)], last);
  }

  lemma OneReport(before: map<nat, FinancialDetail>, reports: map<nat, FinancialDetail>, evidence: seq<Row>,
                  rows: seq<Row>, last: Row)
    requires ReportsFrom(before, reports, evidence, rows) && Normal(last)
    ensures ReportsFrom(before, reports, EvidenceAfter(evidence, last), rows + [last])
    ensures last.detail.OfReport? ==>
      ReportsFrom(before, WithDetail(reports, IdentifierOf(evidence, last), last.detail.report),
                  EvidenceAfter(evidence, last), rows + [last])
  {
    forall id | id in reports && id !in before
      ensures DetailFrom(EvidenceAfter(evidence, last), id, OfReport(reports[id]), rows + [last])
    {
      StillFrom(evidence, EvidenceAfter(evidence, last), id, OfReport(reports[id]), rows, last);
    }
    if last.detail.OfReport? {
      OwnDetail(evidence, rows, last);
    }
  }

  lemma OneNews(before: map<nat, NewsDetail>, news: map<nat, NewsDetail>, evidence: seq<Row>, rows: seq<Row>,
                last: Row)
    requires NewsFrom(before, news, evidence, rows) && Normal(last)
    ensures NewsFrom(before, news, EvidenceAfter(evidence, last), rows + [last])
    ensures last.detail.OfNews? ==>
      NewsFrom(before, WithDetail(news, IdentifierOf(evidence, last), last.detail.news),
               EvidenceAfter(evidence, last), rows + [last])
  {
    forall id | id in news && id !in before
      ensures DetailFrom(EvidenceAfter(evidence, last), id, OfNews(news[id]), rows + [last])
    {
      StillFrom(evidence, EvidenceAfter(evidence, last), id, OfNews(news[id]), rows, last);
    }
    if last.detail.OfNews? {
      OwnDetail(evidence, rows, last);
    }
  }

  lemma StillFrom(evidence: seq<Row>, after: seq<Row>, id: nat, detail: Detail, rows: seq<Row>, last: Row)
    requires evidence <= after && DetailFrom(evidence, id, detail, rows)
    ensures DetailFrom(after, id, detail, rows + [last])
  {
    var r :| r in rows && r.detail == detail && SameKey(evidence[id], r);
    assert r in rows + [last] && SameKey(after[id], r);
  }

  /** This row stands for the item: provider, document id and hash are the item's. */
  ghost predicate StandsFor(evidence: seq<Row>, id: nat, k: Kind, item: Item) {
    && id < |evidence| && (evidence[id].kind == News <==> k == News) && Identifies(evidence[id].document, item)
    && evidence[id].hash.Some? && item.hash == GoodHash(evidence[id].hash.value)
  }

  /** Every new row tells of one of the items, and every new detail is that of the item its row stands for. */
  ghost predicate Came(t: Tables, u: Tables, k: Kind, requested: seq<string>, given: seq<Item>, batch: nat,
                       parse: UrlParser)
  {
    && (forall j | |t.evidence| <= j < |u.evidence| ::
         exists i | 0 <= i < |given| :: Tells(u.evidence[j], k, given[i], requested, batch, parse))
    && (forall id | id in u.financial && id !in t.financial ::
         exists i | 0 <= i < |given| ::
           k == FinancialReport && ReportTells(u.financial[id], given[i]) && StandsFor(u.evidence, id, k, given[i]))
    && forall id | id in u.news && id !in t.news ::
         exists i | 0 <= i < |given| ::
           k == News && NewsTells(u.news[id], given[i], parse) && StandsFor(u.evidence, id, k, given[i])
  }

  /** An accepted item has its row and its detail, a rejected one a row without. */
  ghost predicate Kept(u: Tables, k: Kind, requested: seq<string>, item: Item, batch: nat, parse: UrlParser) {
    if Acceptable(k, item, requested, parse) then
      exists id :: (
        && StandsFor(u.evidence, id, k, item)
        && (k == FinancialReport ==> id in u.financial) && (k == News ==> id in u.news))
    else
      exists j | 0 <= j < |u.evidence| ::
        !u.evidence[j].observed && Tells(u.evidence[j], k, item, requested, batch, parse)
  }

  lemma {:induction false} RowsFrom(normalize: Item -> Row, items: seq<Item>, r: Row) returns (i: nat)
    requires r in AllRows(normalize, items)
    ensures i < |items| && r == normalize(items[i])
  {
    if r == normalize(items[|items| - 1]) {
      i := |items| - 1;
    } else {
      i := RowsFrom(normalize, items[..|items| - 1], r);
    }
  }

  /** What a write of these items adds. */
  lemma ItemsCame(t: Tables, k: Kind, requested: seq<string>, given: seq<Item>, batch: nat, parse: UrlParser)
    ensures Came(t, InsertAll(t, AllRows(Normalizer(k, requested, batch, parse), given)), k, requested, given, batch,
                 parse)
  {
    var normalize := Normalizer(k, requested, batch, parse);
    var rows := AllRows(normalize, given);
    var u := InsertAll(t, rows);
    NormalizerSound(k, requested, batch, parse);
    RowsSound(normalize, given);
    InsertAllAddsFrom(t, rows);
    forall j | |t.evidence| <= j < |u.evidence|
      ensures exists i | 0 <= i < |given| :: Tells(u.evidence[j], k, given[i], requested, batch, parse)
    {
      var i := RowsFrom(normalize, given, u.evidence[j]);
      NormalizedTells(k, given[i], requested, batch, parse);
    }
    forall id | id in u.financial && id !in t.financial
      ensures exists i | 0 <= i < |given| ::
        k == FinancialReport && ReportTells(u.financial[id], given[i]) && StandsFor(u.evidence, id, k, given[i])
    {
      var i := DetailOfItem(u.evidence, id, OfReport(u.financial[id]), k, requested, given, batch, parse);
    }
    forall id | id in u.news && id !in t.news
      ensures exists i | 0 <= i < |given| ::
        k == News && NewsTells(u.news[id], given[i], parse) && StandsFor(u.evidence, id, k, given[i])
    {
      var i := DetailOfItem(u.evidence, id, OfNews(u.news[id]), k, requested, given, batch, parse);
    }
  }

  lemma DetailOfItem(evidence: seq<Row>, id: nat, detail: Detail, k: Kind, requested: seq<string>, given: seq<Item>,
                     batch: nat, parse: UrlParser)
    returns (i: nat)
    requires DetailFrom(evidence, id, detail, AllRows(Normalizer(k, requested, batch, parse), given))
    requires !detail.NoDetail?
    ensures i < |given| && StandsFor(evidence, id, k, given[i])
    ensures if k == FinancialReport then detail.OfReport? && ReportTells(detail.report, given[i])
            else k == News && detail.OfNews? && NewsTells(detail.news, given[i], parse)
  {
    var rows := AllRows(Normalizer(k, requested, batch, parse), given);
    var r :| r in rows && r.detail == detail && SameKey(evidence[id], r);
    i := RowsFrom(Normalizer(k, requested, batch, parse), given, r);
    NormalizedTells(k, given[i], requested, batch, parse);
  }

  lemma ItemKept(t: Tables, k: Kind, requested: seq<string>, given: seq<Item>, batch: nat, parse: UrlParser, i: nat)
    requires i < |given| && TablesOk(t) && AllFit(AllRows(Normalizer(k, requested, batch, parse), given))
    ensures Kept(InsertAll(t, AllRows(Normalizer(k, requested, batch, parse), given)), k, requested, given[i], batch,
                 parse)
  {
    var normalize := Normalizer(k, requested, batch, parse);
    var rows := AllRows(normalize, given);
    NormalizerSound(k, requested, batch, parse);
    RowsSound(normalize, given);
    InsertAllAddsFrom(t, rows);
    InsertAllRepresents(t, rows);
    RowAt(normalize, given, i);
    NormalizedTells(k, given[i], requested, batch, parse);
    NormalizedMeetsConstraints(k, given[i], requested, batch, parse);
    assert rows[i] in rows;
    RowKept(InsertAll(t, rows), rows[i], k, requested, given[i], batch, parse);
  }

  /** What a write of these items, if all rows fit, leaves of them. */
  lemma ItemsStored(t: Tables, k: Kind, requested: seq<string>, given: seq<Item>, batch: nat, parse: UrlParser)
    requires TablesOk(t)
    ensures var rows := AllRows(Normalizer(k, requested, batch, parse), given);
      && Came(t, InsertAll(t, rows), k, requested, given, batch, parse)
      && (AllFit(rows) ==>
           forall i | 0 <= i < |given| :: Kept(InsertAll(t, rows), k, requested, given[i], batch, parse))
  {
    var rows := AllRows(Normalizer(k, requested, batch, parse), given);
    ItemsCame(t, k, requested, given, batch, parse);
    if AllFit(rows) {
      forall i | 0 <= i < |given| ensures Kept(InsertAll(t, rows), k, requested, given[i], batch, parse) {
        ItemKept(t, k, requested, given, batch, parse, i);
      }
    }
  }

  lemma RowKept(u: Tables, row: Row, k: Kind, requested: seq<string>, item: Item, batch: nat, parse: UrlParser)
    requires Tells(row, k, item, requested, batch, parse)
    requires row.observed <==> Acceptable(k, item, requested, parse)
    requires if row.observed then Represented(u, row) else row in u.evidence
    ensures Kept(u, k, requested, item, batch, parse)
  {
    if row.observed {
      var id := Find(u.evidence, row).value;
      assert SameKey(u.evidence[id], row);
      assert StandsFor(u.evidence, id, k, item);
    } else {
      var j :| 0 <= j < |u.evidence| && u.evidence[j] == row;
    }
  }

  /** Sending accepted items again, in any order and however often, adds nothing. */
  lemma {:induction false} ReplayAddsNothing(t: Tables, rows: seq<Row>)
    requires forall r | r in rows :: r.observed && Represented(t, r)
    ensures InsertAll(t, rows) == t
  {
    if rows != [] {
      assert rows[|rows| - 1] in rows;
      ReplayAddsNothing(t, rows[..|rows| - 1]);
    }
  }

  /** The rows can be written: there are none, or the database does not fail and every row fits. */
  predicate Written(rows: seq<Row>, fault: Option<nat>) { rows == [] || (Survives(rows, fault) && AllFit(rows)) }

  predicate Survives(rows: seq<Row>, fault: Option<nat>) { fault.Some? ==> fault.value > |rows| }

  predicate AllFit(rows: seq<Row>) { forall i | 0 <= i < |rows| :: Fits(rows[i]) }

  /** The loop of the transaction, and its commit. */
  method InsertRows(t: Tables, rows: seq<Row>, fault: Option<nat>) returns (session: Option<Tables>)
    ensures session == if Survives(rows, fault) && AllFit(rows) then Some(InsertAll(t, rows)) else None
  {
    var s := t;
    for i := 0 to |rows|
      invariant s == InsertAll(t, rows[..i]) && AllFit(rows[..i])
      invariant fault.Some? ==> i <= fault.value
    {
      if fault == Some(i) || !Fits(rows[i]) {
        return None;
      }
      assert rows[..i + 1] == rows[..i] + [rows[i]] && rows[..i + 1][..i] == rows[..i];
      s := InsertOne(s, rows[i]);
    }
    assert rows[..|rows|] == rows;
    session := if fault == Some(|rows|) then None else Some(s);
  }

  // ----- The store -----

  class Store {
    const parse: UrlParser
    var tables: Tables
    var batches: map<nat, Batch>
    var nextBatch: nat
    ghost var abandoned: set<nat>   // batches whose call raised after inserting them

    constructor (parse: UrlParser)
      ensures this.parse == parse && Valid() && tables == Tables([], map[], map[]) && batches == map[]
    {
      this.parse := parse;
      tables, batches, nextBatch, abandoned := Tables([], map[], map[]), map[], 0, {};
    }

    ghost predicate Valid()
      reads this
    {
      && TablesOk(tables)
      && (forall b | b in batches :: b < nextBatch)
      && abandoned <= batches.Keys
      && forall b | b in batches && b !in abandoned :: Closed(batches[b])
    }

    /** All rows in one transaction, or none: a database fault or a row that does not fit undoes everything. */
    method InsertEvidence(rows: seq<Row>, fault: Option<nat>) returns (raised: bool)
      requires TablesOk(tables) && forall r | r in rows :: Normal(r)
      modifies this`tables
      ensures raised <==> !Written(rows, fault)
      ensures tables == if raised then old(tables) else InsertAll(old(tables), rows)
    {
      if rows == [] {
        return false;
      }
      var session := InsertRows(tables, rows, fault);
      if session.Some? {
        tables := session.value;
      }
      raised := session.None?;
    }

    method InsertBatch(id: nat, batch: Batch, fails: bool) returns (raised: bool)
      modifies this`batches
      ensures raised == fails && batches == if fails then old(batches) else old(batches)[id := batch]
    {
      if !fails {
        batches := batches[id := batch];
      }
      raised := fails;
    }

    /** The rows the items of batch id become. */
    function RowsOf(k: Kind, requested: seq<string>, items: seq<Item>, id: nat): seq<Row> {
      AllRows(Normalizer(k, requested, id, parse), items)
    }

    /** Which course a call takes, what it stores and what it returns. The stored counters agree with the result,
        except that a `fetch_failed` batch stores no rejection while the result counts every item as rejected. */
    method PersistBatch(k: Kind, requested: seq<string>, given: seq<Item>, m: Metadata, faults: Faults)
      returns (r: Result<BatchResult, string>)
      requires Valid()
      modifies this
      ensures Valid()
      ensures Grows(old(tables), tables)
      ensures r.Failure? <==> faults.insertBatch || (InitialStatus(k, m) == Running && faults.finalize)
      ensures r.Failure? ==> abandoned == old(abandoned) + if faults.insertBatch then {} else {old(nextBatch)}
      ensures var rows := RowsOf(k, requested, given, old(nextBatch));
        tables == if InitialStatus(k, m) == Running && !faults.insertBatch && Written(rows, faults.write)
                  then InsertAll(old(tables), rows) else old(tables)
      ensures r.Success? ==>
        && abandoned == old(abandoned) && r.value.batch == old(nextBatch) && r.value.batch in batches
        && ResultMatches(r.value, batches[r.value.batch])
        && (batches[r.value.batch].rejected != r.value.rejected <==>
             SourceIsValid(k, m) && m.supplied == SuppliedFetchFailed && given != [])
        && CourseOf(k, RowsOf(k, requested, given, old(nextBatch)), given, m, faults, r.value)
      ensures r.Success? && InitialStatus(k, m) == Running && r.value.status != WriteFailed ==>
        && (forall q | q in RowsOf(k, requested, given, old(nextBatch)) && q.observed :: Represented(tables, q))
        && forall i | 0 <= i < |given| :: Kept(tables, k, requested, given[i], old(nextBatch), parse)
      ensures Came(old(tables), tables, k, requested, given, old(nextBatch), parse)
      ensures r.Success? ==>
        Explained(k, m, r.value) && batches[r.value.batch].kind == k && batches[r.value.batch].requested == |requested|
      ensures forall b | b in old(batches) :: b in batches && batches[b] == old(batches[b])
    {
      var valid := SourceIsValid(k, m);
      var items := if valid then given else [];
      var reason := if valid then m.reason else Some("source invalid");
      var initial := InitialStatus(k, m);
      if initial != Running {
        r := RefuseBatch(k, |requested|, |items|, initial, reason, faults.insertBatch);
        return;
      }
      var rows := NormalizeAll(k, items, requested, nextBatch, parse);
      NormalizerSound(k, requested, nextBatch, parse);
      RowsSound(Normalizer(k, requested, nextBatch, parse), items);
      ItemsStored(tables, k, requested, items, nextBatch, parse);
      r := RunBatch(k, |requested|, rows, reason, faults);
    }

    /** A batch that fails before its items are looked at. */
    method RefuseBatch(k: Kind, requested: nat, returned: nat, initial: Status, reason: Option<string>, fails: bool)
      returns (r: Result<BatchResult, string>)
      requires Valid() && initial in {FetchFailed, ValidationFailed}
      modifies this`batches, this`nextBatch
      ensures Valid() && nextBatch == old(nextBatch) + 1
      ensures r.Failure? <==> fails
      ensures fails ==> batches == old(batches)
      ensures !fails ==>
        && r.value == BatchResult(old(nextBatch), initial, 0, returned, reason)
        && batches == old(batches)[old(nextBatch) :=
             Batch(k, requested, returned, 0, if initial == ValidationFailed then returned else 0, initial, reason)]
    {
      var id := nextBatch;
      nextBatch := nextBatch + 1;
      var rejected := if initial == ValidationFailed then returned else 0;
      var raised := InsertBatch(id, Batch(k, requested, returned, 0, rejected, initial, reason), fails);
      r := if raised then Failure("insert batch") else Success(BatchResult(id, initial, 0, returned, reason));
    }

    /** A batch whose rows are written. */
    method RunBatch(k: Kind, requested: nat, rows: seq<Row>, reason: Option<string>, faults: Faults)
      returns (r: Result<BatchResult, string>)
      requires Valid() && forall q | q in rows :: Normal(q)
      modifies this
      ensures Valid() && Grows(old(tables), tables)
      ensures r.Failure? <==> faults.insertBatch || faults.finalize
      ensures r.Failure? ==> abandoned == old(abandoned) + if faults.insertBatch then {} else {old(nextBatch)}
      ensures tables == if !faults.insertBatch && Written(rows, faults.write) then InsertAll(old(tables), rows)
                        else old(tables)
      ensures forall b | b in old(batches) :: b in batches && batches[b] == old(batches[b])
      ensures r.Success? ==>
        && abandoned == old(abandoned) && r.value.batch == old(nextBatch) && r.value.batch in batches
        && ResultMatches(r.value, batches[r.value.batch]) && batches[r.value.batch].rejected == r.value.rejected
        && WriteCourse(rows, faults, r.value) && Reasoned(r.value, reason)
        && batches[r.value.batch].kind == k && batches[r.value.batch].requested == requested
        && (r.value.status != WriteFailed ==> forall q | q in rows && q.observed :: Represented(tables, q))
    {
      var id := nextBatch;
      nextBatch := nextBatch + 1;
      var raised := InsertBatch(id, Batch(k, requested, |rows|, 0, 0, Running, reason), faults.insertBatch);
      if raised {
        return Failure("insert batch");
      }
      r := WriteBatch(id, rows, reason, faults);
    }

    method WriteBatch(id: nat, rows: seq<Row>, note: Option<string>, faults: Faults)
      returns (r: Result<BatchResult, string>)
      requires TablesOk(tables) && id in batches && batches[id].returned == |rows|
      requires forall q | q in rows :: Normal(q)
      requires (forall b | b in batches :: b < nextBatch) && abandoned <= batches.Keys
      requires forall b | b in batches && b !in abandoned && b != id :: Closed(batches[b])
      modifies this`tables, this`batches, this`abandoned
      ensures Valid() && Grows(old(tables), tables)
      ensures r.Failure? <==> faults.finalize
      ensures batches.Keys == old(batches.Keys) && forall b | b in batches && b != id :: batches[b] == old(batches[b])
      ensures abandoned == old(abandoned) + if r.Failure? then {id} else {}
      ensures r.Success? ==>
        && r.value.batch == id && ResultMatches(r.value, batches[id]) && WriteCourse(rows, faults, r.value)
        && Reasoned(r.value, note) && batches[id].kind == old(batches[id].kind)
        && batches[id].requested == old(batches[id].requested)
      ensures tables == if Written(rows, faults.write) then InsertAll(old(tables), rows) else old(tables)
      ensures r.Success? ==> batches[id].rejected == r.value.rejected
      ensures r.Success? && r.value.status != WriteFailed ==>
        forall q | q in rows && q.observed :: Represented(tables, q)
    {
      var raised := InsertEvidence(rows, faults.write);
      if !raised {
        InsertAllRepresents(old(tables), rows);
      }
      var result := Verdict(id, rows, note, raised);
      raised := FinalizeBatch(result, faults.finalize);
      r := if raised then Failure("finalize") else Success(result);
    }

    /** The final update of a batch row; when it is lost the batch stays `running`. */
    method FinalizeBatch(r: BatchResult, fails: bool) returns (raised: bool)
      requires r.batch in batches && r.status != Running && r.status != FetchFailed
      requires r.accepted + r.rejected == batches[r.batch].returned
      modifies this`batches, this`abandoned
      ensures raised == fails && abandoned == old(abandoned) + if fails then {r.batch} else {}
      ensures batches.Keys == old(batches.Keys)
      ensures forall b | b in batches && b != r.batch :: batches[b] == old(batches[b])
      ensures !fails ==> Closed(batches[r.batch]) && ResultMatches(r, batches[r.batch])
      ensures !fails ==>
        && batches[r.batch].rejected == r.rejected && batches[r.batch].kind == old(batches[r.batch].kind)
        && batches[r.batch].requested == old(batches[r.batch].requested)
    {
      if fails {
        abandoned := abandoned + {r.batch};
      } else {
        batches := batches[r.batch := batches[r.batch].(status := r.status, accepted := r.accepted,
                                                        rejected := r.rejected, reason := r.reason)];
      }
      raised := fails;
    }
  }

  /** The result of a batch by its rows and whether their write raised. */
  method Verdict(id: nat, rows: seq<Row>, note: Option<string>, raised: bool) returns (r: BatchResult)
    ensures r.batch == id && r.accepted + r.rejected == |rows|
    ensures r.accepted == if raised then 0 else CountObserved(rows)
    ensures r.status == if raised then WriteFailed else if r.accepted == 0 then ValidationFailed
                        else if r.rejected > 0 then Partial else Succeeded
    ensures r.reason == if raised then Some("write failed")
                        else if r.status != Succeeded && (note == None || note == Some("")) then Some("not all valid")
                        else note
  {
    var accepted := CountObserved(rows);
    var rejected := |rows| - accepted;
    if raised {
      return BatchResult(id, WriteFailed, 0, |rows|, Some("write failed"));
    }
    var status, reason := Succeeded, note;
    if rows == [] || accepted == 0 {
      status := ValidationFailed;
    } else if rejected > 0 {
      status := Partial;
    }
    if status != Succeeded && (note == None || note == Some("")) {
      reason := Some("not all valid");
    }
    r := BatchResult(id, status, accepted, rejected, reason);
  }

  // ----- What the contracts say -----

  function InitialStatus(k: Kind, m: Metadata): Status {
    if !SourceIsValid(k, m) || m.supplied == SuppliedValidationFailed then ValidationFailed
    else if m.supplied == SuppliedFetchFailed then FetchFailed
    else Running
  }

  /** A batch no call is working on. */
  predicate Closed(b: Batch) {
    b.status != Running
    && (if b.status == FetchFailed then b.accepted == b.rejected == 0 else b.accepted + b.rejected == b.returned)
  }

  predicate ResultMatches(r: BatchResult, b: Batch) {
    && b.status == r.status && b.accepted == r.accepted && b.reason == r.reason
    && r.accepted + r.rejected == b.returned
    && (b.rejected == r.rejected || (b.status == FetchFailed && b.rejected == 0))
  }

  /** The status of a written batch by its counters. */
  function Tally(accepted: nat, rejected: nat): Status {
    if accepted == 0 then ValidationFailed else if rejected > 0 then Partial else Succeeded
  }

  /** The outcome of the write by the rows alone. */
  predicate WriteCourse(rows: seq<Row>, faults: Faults, r: BatchResult) {
    var written := Written(rows, faults.write);
    && r.accepted + r.rejected == |rows|
    && r.accepted == (if written then CountObserved(rows) else 0)
    && r.status == if written then Tally(r.accepted, r.rejected) else WriteFailed
  }

  /** A supplied reason is kept unless the write failed; without one, only a success goes unexplained. */
  ghost predicate Reasoned(r: BatchResult, note: Option<string>) {
    if r.status == WriteFailed then r.reason.Some?
    else if r.status == Succeeded || (note.Some? && note.value != "") then r.reason == note
    else r.reason == Some("not all valid")
  }

  ghost predicate Explained(k: Kind, m: Metadata, r: BatchResult) {
    if !SourceIsValid(k, m) then r.reason == Some("source invalid")
    else if InitialStatus(k, m) != Running then r.reason == m.reason
    else Reasoned(r, m.reason)
  }

  /** The outcome of a call by its inputs; `rows` are what the items become. */
  predicate CourseOf(k: Kind, rows: seq<Row>, given: seq<Item>, m: Metadata, faults: Faults, r: BatchResult) {
    var initial := InitialStatus(k, m);
    if initial == Running then WriteCourse(rows, faults, r) && |rows| == |given|
    else r.status == initial && r.accepted == 0 && r.rejected == if SourceIsValid(k, m) then |given| else 0
  }

  /** The outcome over the fields of the metadata and the rows. A source that is not exactly the fixed one, with every
      mark its kind calls for, is refused without looking at its items. */
  lemma CourseByFields(k: Kind, rows: seq<Row>, given: seq<Item>, m: Metadata, faults: Faults, r: BatchResult)
    requires CourseOf(k, rows, given, m, faults, r)
    ensures var valid := && m.pinned && !m.fallbackUsed && m.reviewRequired && m.hash != BadHash
                         && (k == Announcement || m.scoped)
                         && (k == News && m.supplied != SuppliedFetchFailed ==> m.fetched && m.hash.GoodHash?);
      if !valid then r.status == ValidationFailed && r.accepted == r.rejected == 0
      else if m.supplied == SuppliedOther then
        && r.accepted + r.rejected == |given| == |rows|
        && (r.status == WriteFailed <==>
             rows != [] && ((faults.write.Some? && faults.write.value <= |rows|)
                            || exists i | 0 <= i < |rows| :: !Fits(rows[i])))
        && (r.status == WriteFailed ==> r.accepted == 0)
        && (r.status != WriteFailed ==>
             && r.accepted == CountObserved(rows)
             && (r.status == ValidationFailed <==> r.accepted == 0)
             && (r.status == Succeeded <==> r.accepted > 0 && r.rejected == 0)
             && (r.status == Partial <==> r.accepted > 0 && r.rejected > 0))
      else
        && r.accepted == 0 && r.rejected == |given|
        && r.status == (if m.supplied == SuppliedFetchFailed then FetchFailed else ValidationFailed)
  {
  }

  lemma {:induction false} RowAt(normalize: Item -> Row, items: seq<Item>, i: nat)
    requires i < |items|
    ensures |AllRows(normalize, items)| == |items| && AllRows(normalize, items)[i] == normalize(items[i])
    decreases |items|
  {
    RowCount(normalize, items);
    if i < |items| - 1 {
      RowAt(normalize, items[..|items| - 1], i);
    } else {
      RowCount(normalize, items[..i]);
    }
  }

  lemma {:induction false} RowCount(normalize: Item -> Row, items: seq<Item>)
    ensures |AllRows(normalize, items)| == |items|
  {
    if items != [] {
      RowCount(normalize, items[..|items| - 1]);
    }
  }

  /** One item whose row does not fit, a rejected one included, loses the whole batch: nothing is accepted. */
  lemma MisfitLosesBatch(k: Kind, items: seq<Item>, requested: seq<string>, batch: nat, parse: UrlParser, m: Metadata,
                         faults: Faults, r: BatchResult, i: nat)
    requires InitialStatus(k, m) == Running && i < |items|
    requires CourseOf(k, AllRows(Normalizer(k, requested, batch, parse), items), items, m, faults, r)
    requires !Fits(Normalized(k, items[i], requested, batch, parse))
    ensures r.status == WriteFailed && r.accepted == 0 && r.rejected == |items|
  {
    MisfitLosesRows(Normalizer(k, requested, batch, parse), items, faults, r, i);
  }

  lemma MisfitLosesRows(normalize: Item -> Row, items: seq<Item>, faults: Faults, r: BatchResult, i: nat)
    requires i < |items| && WriteCourse(AllRows(normalize, items), faults, r) && !Fits(normalize(items[i]))
    ensures r.status == WriteFailed && r.accepted == 0 && r.rejected == |items|
  {
    RowAt(normalize, items, i);
    assert !AllFit(AllRows(normalize, items));
  }
}
