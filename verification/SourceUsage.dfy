/** The source-usage context of the research API (`_load_source_usage_context`, backend/app/api/research.py):
    grouping, deduplication and sorting of joined terms and review rows. Identifiers, URLs and times are
    numbers in the order their text sorts. */
module SourceUsage {
  import opened Common
  import opened Ordering

  datatype Key = Key(provider: string, source: string)

  datatype Terms = Terms(id: int, url: int, created: int, document: string)

  datatype Decision = Decision(id: int, usage: string, rejected: bool, at: int, reason: string)

  /** One row of the join; terms without reviews appear once, without a decision. */
  datatype Row = Row(key: Key, scope: string, terms: Terms, decision: Option<Decision>)

  /** A review as the context lists it. */
  datatype Review = Review(decision: Decision, terms: int)

  datatype Context = Context(scope: string, terms: seq<Terms>, history: seq<Review>, latest: map<string, Review>,
                             rejected: bool, authorized: bool)

  predicate TermsBefore(a: Terms, b: Terms) {
    a.url < b.url || (a.url == b.url && (a.created < b.created || (a.created == b.created && a.id < b.id)))
  }

  /** The history runs from the newest review to the oldest. */
  predicate Newer(a: Review, b: Review) {
    a.decision.at > b.decision.at || (a.decision.at == b.decision.at && a.decision.id > b.decision.id)
  }

  // ----- The data of a key -----

  function TermsOf(rows: seq<Row>, key: Key): set<Terms> {
    set r | r in rows && r.key == key :: r.terms
  }

  function ReviewsOf(rows: seq<Row>, key: Key): set<Review> {
    set r | r in rows && r.key == key && r.decision.Some? :: Review(r.decision.value, r.terms.id)
  }

  /** Identifiers identify: within a key equal ids mean equal records, and there is one source scope. */
  ghost predicate Consistent(rows: seq<Row>) {
    forall a, b | a in rows && b in rows && a.key == b.key ::
      && a.scope == b.scope
      && (a.terms.id == b.terms.id ==> a.terms == b.terms)
      && (a.decision.Some? && b.decision.Some? && a.decision.value.id == b.decision.value.id ==>
           a.decision == b.decision && a.terms.id == b.terms.id)
  }

  /** The newest review of its terms document for its usage. */
  ghost predicate NewestOfTerms(r: Review, reviews: set<Review>) {
    && r in reviews
    && forall q | q in reviews && q.terms == r.terms && q.decision.usage == r.decision.usage ::
         q == r || q.decision.at < r.decision.at || (q.decision.at == r.decision.at && q.decision.id < r.decision.id)
  }

  /** The newest review for its usage, whatever the document. */
  ghost predicate NewestOfUsage(r: Review, reviews: set<Review>) {
    && r in reviews
    && forall q | q in reviews && q.decision.usage == r.decision.usage ::
         q == r || q.decision.at < r.decision.at || (q.decision.at == r.decision.at && q.decision.id < r.decision.id)
  }

  /** For some terms document and usage the newest review is a rejection. */
  ghost predicate RejectionStands(reviews: set<Review>) {
    exists r :: NewestOfTerms(r, reviews) && r.decision.rejected
  }

  /** What the context of a key must be, in terms of the set of its rows alone. */
  ghost predicate Describes(rows: seq<Row>, key: Key, c: Context) {
    var reviews := ReviewsOf(rows, key);
    && (forall r | r in rows && r.key == key :: r.scope == c.scope)
    && StrictlySorted(c.terms, TermsBefore) && (forall t :: t in c.terms <==> t in TermsOf(rows, key))
    && StrictlySorted(c.history, Newer) && (forall r :: r in c.history <==> r in reviews)
    && LatestOk(c.latest, reviews)
    && (c.rejected <==> RejectionStands(reviews))
    && !c.authorized
  }

  ghost predicate LatestOk(latest: map<string, Review>, reviews: set<Review>) {
    && (forall u | u in latest :: latest[u].decision.usage == u && NewestOfUsage(latest[u], reviews))
    && forall r | r in reviews :: r.decision.usage in latest
  }

  predicate HasKey(rows: seq<Row>, key: Key) { exists r | r in rows :: r.key == key }

  ghost predicate AllDescribed(rows: seq<Row>, contexts: map<Key, Context>) {
    forall k :: DescribedAt(rows, contexts, k)
  }

  ghost predicate DescribedAt(rows: seq<Row>, contexts: map<Key, Context>, k: Key) {
    (k in contexts <==> HasKey(rows, k)) && (k in contexts ==> Describes(rows, k, contexts[k]))
  }

  // ----- Loading -----

  /** A context while its rows are read; the id sets prevent duplicates. */
  datatype Gathered = Gathered(scope: string, terms: seq<Terms>, history: seq<Review>, termsIds: set<int>,
                               reviewIds: set<int>)

  ghost predicate GatheredOk(rows: seq<Row>, key: Key, g: Gathered) {
    && (forall r | r in rows && r.key == key :: r.scope == g.scope)
    && Distinct(g.terms) && (forall t :: t in g.terms <==> t in TermsOf(rows, key))
    && Distinct(g.history) && (forall r :: r in g.history <==> r in ReviewsOf(rows, key))
    && g.termsIds == (set t | t in g.terms :: t.id)
    && g.reviewIds == (set r | r in g.history :: r.decision.id)
  }

  method Gather(g: Gathered, row: Row) returns (h: Gathered)
    ensures h.scope == g.scope
    ensures h.terms == if row.terms.id in g.termsIds then g.terms else g.terms + [row.terms]
    ensures h.termsIds == g.termsIds + {row.terms.id}
    ensures row.decision.None? || row.decision.value.id in g.reviewIds ==>
      h.history == g.history && h.reviewIds == g.reviewIds
    ensures row.decision.Some? && row.decision.value.id !in g.reviewIds ==>
      && h.history == g.history + [Review(row.decision.value, row.terms.id)]
      && h.reviewIds == g.reviewIds + {row.decision.value.id}
  {
    h := g;
    if row.terms.id !in h.termsIds {
      h := h.(termsIds := h.termsIds + {row.terms.id}, terms := h.terms + [row.terms]);
    }
    match row.decision {
      case None =>
      case Some(d) =>
        if d.id !in h.reviewIds {
          h := h.(reviewIds := h.reviewIds + {d.id}, history := h.history + [Review(d, row.terms.id)]);
        }
    }
  }

  /** The context of every key; it depends on the rows only through `AllDescribed`. */
  method LoadSourceUsageContext(rows: seq<Row>) returns (contexts: map<Key, Context>)
    requires Consistent(rows)
    ensures AllDescribed(rows, contexts)
  {
    var gathered := GatherAll(rows);
    contexts := FinishAll(rows, gathered);
    forall k ensures DescribedAt(rows, contexts, k) {
      assert k in gathered <==> HasKey(rows, k);
    }
  }

  method FinishAll(ghost rows: seq<Row>, gathered: map<Key, Gathered>) returns (contexts: map<Key, Context>)
    requires Consistent(rows)
    requires forall k | k in gathered :: GatheredOk(rows, k, gathered[k])
    ensures contexts.Keys == gathered.Keys
    ensures forall k | k in contexts :: Describes(rows, k, contexts[k])
  {
    contexts := map[];
    var left := gathered.Keys;
    while left != {}
      invariant left <= gathered.Keys && contexts.Keys == gathered.Keys - left
      invariant forall k | k in contexts :: Describes(rows, k, contexts[k])
      decreases left
    {
      var k :| k in left;
      var c := Finish(rows, k, gathered[k]);
      contexts := contexts[k := c];
      left := left - {k};
    }
  }

  method GatherAll(rows: seq<Row>) returns (gathered: map<Key, Gathered>)
    requires Consistent(rows)
    ensures AllGathered(rows, gathered)
  {
    gathered := map[];
    for i := 0 to |rows|
      invariant AllGathered(rows[..i], gathered)
    {
      var row := rows[i];
      assert rows[..i + 1] == rows[..i] + [row];
      var g := if row.key in gathered then gathered[row.key] else Gathered(row.scope, [], [], {}, {});
      if row.key !in gathered {
        NothingYet(rows[..i], row);
      }
      var h := Gather(g, row);
      GatherKeeps(rows, i, g, h);
      OneMoreGathered(rows[..i], row, gathered, h);
      gathered := gathered[row.key := h];
    }
    assert rows[..|rows|] == rows;
  }

  ghost predicate AllGathered(rows: seq<Row>, gathered: map<Key, Gathered>) {
    && (forall k :: k in gathered <==> HasKey(rows, k))
    && forall k | k in gathered :: GatheredOk(rows, k, gathered[k])
  }

  lemma OneMoreGathered(rows: seq<Row>, row: Row, gathered: map<Key, Gathered>, h: Gathered)
    requires AllGathered(rows, gathered) && GatheredOk(rows + [row], row.key, h)
    ensures AllGathered(rows + [row], gathered[row.key := h])
  {
    forall k | k in gathered && k != row.key ensures GatheredOk(rows + [row], k, gathered[k]) {
      OtherKey(rows, row, k);
    }
    HasKeyAppend(rows, row);
  }

  /** Sorting, and the first review per usage and per terms document and usage. */
  method Finish(ghost rows: seq<Row>, ghost key: Key, g: Gathered) returns (c: Context)
    requires Consistent(rows) && GatheredOk(rows, key, g)
    ensures Describes(rows, key, c)
  {
    TermsSortable(rows, key, g);
    ReviewsSortable(rows, key, g);
    var terms := Sorted(g.terms, TermsBefore);
    var history := Sorted(g.history, Newer);
    var latest, rejected := Latest(history, ReviewsOf(rows, key));
    c := Context(g.scope, terms, history, latest, rejected, false);
  }

  /** One pass over the history, newest first. */
  method Latest(history: seq<Review>, ghost reviews: set<Review>) returns (latest: map<string, Review>, rejected: bool)
    requires StrictlySorted(history, Newer) && forall r :: r in history <==> r in reviews
    ensures LatestOk(latest, reviews)
    ensures rejected <==> RejectionStands(reviews)
  {
    var byTerms;
    latest, byTerms := Firsts(history);
    FirstOfUsageIsNewest(history, latest, reviews);
    FirstOfTermsIsNewest(history, byTerms, reviews);
    rejected := SomeRejected(byTerms);
    AnyRejected(byTerms, reviews);
  }

  /** `setdefault` per usage and per terms document and usage. */
  method Firsts(history: seq<Review>) returns (latest: map<string, Review>, byTerms: map<(int, string), Review>)
    ensures FirstPerUsage(history, latest) && FirstPerTerms(history, byTerms)
  {
    latest, byTerms := map[], map[];
    for i := 0 to |history|
      invariant FirstPerUsage(history[..i], latest)
      invariant FirstPerTerms(history[..i], byTerms)
    {
      assert history[..i + 1] == history[..i] + [history[i]];
      UsageAppend(history[..i], history[i], latest);
      TermsAppend(history[..i], history[i], byTerms);
      latest := if history[i].decision.usage in latest then latest else latest[history[i].decision.usage := history[i]];
      byTerms := if Both(history[i]) in byTerms then byTerms else byTerms[Both(history[i]) := history[i]];
    }
    assert history[..|history|] == history;
  }

  function Both(r: Review): (int, string) { (r.terms, r.decision.usage) }

  ghost predicate FirstForUsage(h: seq<Review>, usage: string, i: int) {
    0 <= i < |h| && h[i].decision.usage == usage && forall j | 0 <= j < i :: h[j].decision.usage != usage
  }

  ghost predicate FirstForBoth(h: seq<Review>, k: (int, string), i: int) {
    0 <= i < |h| && Both(h[i]) == k && forall j | 0 <= j < i :: Both(h[j]) != k
  }

  /** latest holds, for each usage, the first review of the sequence for it. */
  ghost predicate FirstPerUsage(h: seq<Review>, latest: map<string, Review>) {
    && (forall i | 0 <= i < |h| :: h[i].decision.usage in latest)
    && forall u | u in latest :: exists i :: FirstForUsage(h, u, i) && latest[u] == h[i]
  }

  ghost predicate FirstPerTerms(h: seq<Review>, byTerms: map<(int, string), Review>) {
    && (forall i | 0 <= i < |h| :: Both(h[i]) in byTerms)
    && forall k | k in byTerms :: exists i :: FirstForBoth(h, k, i) && byTerms[k] == h[i]
  }

  lemma UsageAppend(h: seq<Review>, r: Review, latest: map<string, Review>)
    requires FirstPerUsage(h, latest)
    ensures FirstPerUsage(h + [r], if r.decision.usage in latest then latest else latest[r.decision.usage := r])
  {
    forall u | u in latest ensures exists i :: FirstForUsage(h + [r], u, i) && latest[u] == (h + [r])[i] {
      var i :| FirstForUsage(h, u, i) && latest[u] == h[i];
      assert FirstForUsage(h + [r], u, i);
    }
    if r.decision.usage !in latest {
      assert FirstForUsage(h + [r], r.decision.usage, |h|);
    }
  }

  lemma TermsAppend(h: seq<Review>, r: Review, byTerms: map<(int, string), Review>)
    requires FirstPerTerms(h, byTerms)
    ensures FirstPerTerms(h + [r], if Both(r) in byTerms then byTerms else byTerms[Both(r) := r])
  {
    forall k | k in byTerms ensures exists i :: FirstForBoth(h + [r], k, i) && byTerms[k] == (h + [r])[i] {
      var i :| FirstForBoth(h, k, i) && byTerms[k] == h[i];
      assert FirstForBoth(h + [r], k, i);
    }
    if Both(r) !in byTerms {
      assert FirstForBoth(h + [r], Both(r), |h|);
    }
  }

  lemma FirstOfUsageIsNewest(h: seq<Review>, latest: map<string, Review>, reviews: set<Review>)
    requires StrictlySorted(h, Newer) && forall r :: r in h <==> r in reviews
    requires FirstPerUsage(h, latest)
    ensures LatestOk(latest, reviews)
  {
    forall u | u in latest ensures latest[u].decision.usage == u && NewestOfUsage(latest[u], reviews) {
      var i :| FirstForUsage(h, u, i) && latest[u] == h[i];
      assert h[i] in h;
      forall q | q in reviews && q.decision.usage == u ensures q == h[i] || Newer(h[i], q) {
        assert q in h;
        var j :| 0 <= j < |h| && h[j] == q;
      }
    }
    forall r | r in reviews ensures r.decision.usage in latest {
      assert r in h;
    }
  }

  lemma FirstOfTermsIsNewest(h: seq<Review>, byTerms: map<(int, string), Review>, reviews: set<Review>)
    requires StrictlySorted(h, Newer) && forall r :: r in h <==> r in reviews
    requires FirstPerTerms(h, byTerms)
    ensures TermsOk(byTerms, reviews)
  {
    forall r | r in reviews ensures Both(r) in byTerms {
      assert r in h;
    }
    forall k | k in byTerms ensures Both(byTerms[k]) == k && NewestOfTerms(byTerms[k], reviews) {
      var i :| FirstForBoth(h, k, i) && byTerms[k] == h[i];
      assert h[i] in h;
      forall q | q in reviews && Both(q) == k ensures q == h[i] || Newer(h[i], q) {
        assert q in h;
        var j :| 0 <= j < |h| && h[j] == q;
      }
    }
  }

  ghost predicate TermsOk(byTerms: map<(int, string), Review>, reviews: set<Review>) {
    && (forall k | k in byTerms :: Both(byTerms[k]) == k && NewestOfTerms(byTerms[k], reviews))
    && forall r | r in reviews :: Both(r) in byTerms
  }

  predicate SomeRejected(byTerms: map<(int, string), Review>) {
    exists k | k in byTerms :: byTerms[k].decision.rejected
  }

  lemma AnyRejected(byTerms: map<(int, string), Review>, reviews: set<Review>)
    requires TermsOk(byTerms, reviews)
    ensures SomeRejected(byTerms) <==> RejectionStands(reviews)
  {
    if r :| NewestOfTerms(r, reviews) && r.decision.rejected {
      assert r in reviews && Both(r) in byTerms;
      NewestUnique(r, byTerms[Both(r)], reviews);
      assert byTerms[Both(r)].decision.rejected;
    }
  }

  lemma NewestUnique(a: Review, b: Review, reviews: set<Review>)
    requires NewestOfTerms(a, reviews) && NewestOfTerms(b, reviews) && Both(a) == Both(b)
    ensures a == b
  {
  }

  // ----- Gathering -----

  lemma HasKeyAppend(rows: seq<Row>, row: Row)
    ensures forall k :: HasKey(rows + [row], k) <==> HasKey(rows, k) || k == row.key
  {
    assert row in rows + [row];
    forall k | HasKey(rows, k) ensures HasKey(rows + [row], k) {
      var r :| r in rows && r.key == k;
      assert r in rows + [row];
    }
  }

  lemma NothingYet(rows: seq<Row>, row: Row)
    requires !HasKey(rows, row.key)
    ensures GatheredOk(rows, row.key, Gathered(row.scope, [], [], {}, {}))
  {
  }

  lemma OtherKey(rows: seq<Row>, row: Row, k: Key)
    requires k != row.key
    ensures TermsOf(rows + [row], k) == TermsOf(rows, k) && ReviewsOf(rows + [row], k) == ReviewsOf(rows, k)
    ensures forall r | r in rows + [row] && r.key == k :: r in rows
  {
  }

  lemma SameKey(rows: seq<Row>, row: Row)
    ensures TermsOf(rows + [row], row.key) == TermsOf(rows, row.key) + {row.terms}
    ensures ReviewsOf(rows + [row], row.key) ==
      ReviewsOf(rows, row.key) + (if row.decision.Some? then {Review(row.decision.value, row.terms.id)} else {})
  {
    assert row in rows + [row];
    forall r | r in rows ensures r in rows + [row] {
    }
  }

  /** A known id means a known record, so skipping it loses nothing. */
  lemma GatherKeeps(rows: seq<Row>, i: nat, g: Gathered, h: Gathered)
    requires i < |rows| && Consistent(rows) && GatheredOk(rows[..i], rows[i].key, g)
    requires h.scope == g.scope
    requires h.terms == if rows[i].terms.id in g.termsIds then g.terms else g.terms + [rows[i].terms]
    requires h.termsIds == g.termsIds + {rows[i].terms.id}
    requires rows[i].decision.None? || rows[i].decision.value.id in g.reviewIds ==>
      h.history == g.history && h.reviewIds == g.reviewIds
    requires rows[i].decision.Some? && rows[i].decision.value.id !in g.reviewIds ==>
      && h.history == g.history + [Review(rows[i].decision.value, rows[i].terms.id)]
      && h.reviewIds == g.reviewIds + {rows[i].decision.value.id}
    requires (exists r | r in rows[..i] :: r.key == rows[i].key) || g.scope == rows[i].scope
    ensures GatheredOk(rows[..i] + [rows[i]], rows[i].key, h)
  {
    var row := rows[i];
    SameKey(rows[..i], row);
    KnownTerms(rows, i, g);
    KnownReview(rows, i, g);
    assert forall r | r in rows[..i] + [row] && r.key == row.key :: r in rows;
  }

  lemma KnownTerms(rows: seq<Row>, i: nat, g: Gathered)
    requires i < |rows| && Consistent(rows) && GatheredOk(rows[..i], rows[i].key, g)
    ensures rows[i].terms.id in g.termsIds <==> rows[i].terms in g.terms
  {
    if rows[i].terms.id in g.termsIds {
      var t :| t in g.terms && t.id == rows[i].terms.id;
      var r :| r in rows[..i] && r.key == rows[i].key && r.terms == t;
      assert r in rows && rows[i] in rows;
    }
  }

  lemma KnownReview(rows: seq<Row>, i: nat, g: Gathered)
    requires i < |rows| && Consistent(rows) && GatheredOk(rows[..i], rows[i].key, g)
    ensures rows[i].decision.Some? ==>
      (rows[i].decision.value.id in g.reviewIds <==> Review(rows[i].decision.value, rows[i].terms.id) in g.history)
  {
    if rows[i].decision.Some? && rows[i].decision.value.id in g.reviewIds {
      var q :| q in g.history && q.decision.id == rows[i].decision.value.id;
      assert q in ReviewsOf(rows[..i], rows[i].key);
      var r :| r in rows[..i] && r.key == rows[i].key && r.decision.Some? && Review(r.decision.value, r.terms.id) == q;
      assert r in rows && rows[i] in rows;
    }
  }

  // ----- Sorting -----

  lemma TermsSortable(rows: seq<Row>, key: Key, g: Gathered)
    requires Consistent(rows) && GatheredOk(rows, key, g)
    ensures StrictlySorted(Sorted(g.terms, TermsBefore), TermsBefore)
    ensures forall t :: t in Sorted(g.terms, TermsBefore) <==> t in TermsOf(rows, key)
  {
    forall a, b | a in g.terms && b in g.terms ensures a == b || TermsBefore(a, b) || TermsBefore(b, a) {
      var r :| r in rows && r.key == key && r.terms == a;
      var q :| q in rows && q.key == key && q.terms == b;
    }
    SortedSorts(g.terms, TermsBefore);
  }

  lemma ReviewsSortable(rows: seq<Row>, key: Key, g: Gathered)
    requires Consistent(rows) && GatheredOk(rows, key, g)
    ensures StrictlySorted(Sorted(g.history, Newer), Newer)
    ensures forall r :: r in Sorted(g.history, Newer) <==> r in ReviewsOf(rows, key)
  {
    forall a, b | a in g.history && b in g.history ensures a == b || Newer(a, b) || Newer(b, a) {
      assert a in ReviewsOf(rows, key) && b in ReviewsOf(rows, key);
      var r :| r in rows && r.key == key && r.decision.Some? && Review(r.decision.value, r.terms.id) == a;
      var q :| q in rows && q.key == key && q.decision.Some? && Review(q.decision.value, q.terms.id) == b;
    }
    SortedSorts(g.history, Newer);
  }

  // ----- Order independence -----

  /** The rows of two results agree as sets: the contexts are the same, whatever the order and the
      repetitions the database returned them in. */
  lemma OrderIndependent(rows: seq<Row>, shuffled: seq<Row>, a: map<Key, Context>, b: map<Key, Context>)
    requires forall r :: r in rows <==> r in shuffled
    requires AllDescribed(rows, a) && AllDescribed(shuffled, b)
    ensures a == b
  {
    forall k ensures (k in a <==> k in b) && (k in a ==> a[k] == b[k]) {
      assert DescribedAt(rows, a, k) && DescribedAt(shuffled, b, k);
      KeyDetermined(rows, shuffled, a, b, k);
    }
  }

  lemma KeyDetermined(rows: seq<Row>, shuffled: seq<Row>, a: map<Key, Context>, b: map<Key, Context>, k: Key)
    requires forall r :: r in rows <==> r in shuffled
    requires DescribedAt(rows, a, k) && DescribedAt(shuffled, b, k)
    ensures (k in a <==> k in b) && (k in a ==> a[k] == b[k])
  {
    SameKeys(rows, shuffled, k);
    SameKeys(shuffled, rows, k);
    if k in a {
      ContextDetermined(rows, shuffled, k, a[k], b[k]);
    }
  }

  lemma SameKeys(rows: seq<Row>, shuffled: seq<Row>, k: Key)
    requires forall r :: r in rows <==> r in shuffled
    ensures HasKey(rows, k) ==> HasKey(shuffled, k)
  {
    if HasKey(rows, k) {
      var r :| r in rows && r.key == k;
      assert r in shuffled;
    }
  }

  lemma ContextDetermined(rows: seq<Row>, shuffled: seq<Row>, key: Key, c: Context, d: Context)
    requires forall r :: r in rows <==> r in shuffled
    requires HasKey(rows, key) && Describes(rows, key, c) && Describes(shuffled, key, d)
    ensures c == d
  {
    assert TermsOf(rows, key) == TermsOf(shuffled, key);
    assert ReviewsOf(rows, key) == ReviewsOf(shuffled, key);
    SortedDetermined(c.terms, d.terms, TermsBefore);
    SortedDetermined(c.history, d.history, Newer);
    var r :| r in rows && r.key == key;
    assert r in shuffled;
    LatestDetermined(c.latest, d.latest, ReviewsOf(rows, key));
  }

  lemma LatestDetermined(a: map<string, Review>, b: map<string, Review>, reviews: set<Review>)
    requires LatestOk(a, reviews) && LatestOk(b, reviews)
    ensures a == b
  {
    forall u | u in a ensures u in b && a[u] == b[u] {
      assert NewestOfUsage(a[u], reviews) && a[u].decision.usage in b;
      assert NewestOfUsage(b[u], reviews);
    }
    forall u | u in b ensures u in a {
      assert NewestOfUsage(b[u], reviews) && b[u].decision.usage in a;
    }
  }

  /** Reviews are listed from the newest to the oldest, terms by url, then from the oldest; ids settle ties. */
  lemma ListedInOrder(rows: seq<Row>, key: Key, c: Context)
    requires Describes(rows, key, c)
    ensures forall i, j | 0 <= i < j < |c.history| ::
      var a, b := c.history[i].decision, c.history[j].decision; a.at > b.at || (a.at == b.at && a.id > b.id)
    ensures forall i, j | 0 <= i < j < |c.terms| ::
      var a, b := c.terms[i], c.terms[j];
      a.url <= b.url && (a.url == b.url ==> a.created <= b.created && (a.created == b.created ==> a.id < b.id))
  {
    forall i, j | 0 <= i < j < |c.history| ensures Newer(c.history[i], c.history[j]) {
    }
    forall i, j | 0 <= i < j < |c.terms| ensures TermsBefore(c.terms[i], c.terms[j]) {
    }
  }

  /** Each terms document and each review is listed once. */
  lemma IdsOnce(rows: seq<Row>, key: Key, c: Context)
    requires Consistent(rows) && Describes(rows, key, c)
    ensures forall i, j | 0 <= i < j < |c.terms| :: c.terms[i].id != c.terms[j].id
    ensures forall i, j | 0 <= i < j < |c.history| :: c.history[i].decision.id != c.history[j].decision.id
  {
    forall i, j | 0 <= i < j < |c.terms| ensures c.terms[i].id != c.terms[j].id {
      assert c.terms[i] in c.terms && c.terms[j] in c.terms;
      var r :| r in rows && r.key == key && r.terms == c.terms[i];
      var q :| q in rows && q.key == key && q.terms == c.terms[j];
      assert TermsBefore(c.terms[i], c.terms[j]);
    }
    forall i, j | 0 <= i < j < |c.history| ensures c.history[i].decision.id != c.history[j].decision.id {
      var a, b := c.history[i], c.history[j];
      assert a in c.history && b in c.history;
      assert a in ReviewsOf(rows, key) && b in ReviewsOf(rows, key);
      var r :| r in rows && r.key == key && r.decision.Some? && Review(r.decision.value, r.terms.id) == a;
      var q :| q in rows && q.key == key && q.decision.Some? && Review(q.decision.value, q.terms.id) == b;
      assert Newer(a, b);
    }
  }
}
