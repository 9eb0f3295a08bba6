/** The chunked quote synchronisation (worker/services/quote_sync.py) on top of the quote store. */
module QuoteSync {
  import opened Common
  import opened QuoteStore

  /** The codes in runs of `size`, the last possibly shorter. */
  function Chunks(codes: seq<string>, size: nat): seq<seq<string>>
    requires size >= 1
  {
    if codes == [] then []
    else if |codes| <= size then [codes]
    else [codes[..size]] + Chunks(codes[size..], size)
  }

  function Concat(parts: seq<seq<string>>): seq<string> {
    if parts == [] then [] else parts[0] + Concat(parts[1..])
  }

  /** Chunking loses and repeats nothing ... */
  lemma {:induction false} ChunksPartition(codes: seq<string>, size: nat)
    requires size >= 1
    ensures Concat(Chunks(codes, size)) == codes
  {
    if codes == [] {
    } else if |codes| <= size {
      assert Concat([codes]) == codes + Concat([]);
    } else {
      ChunksPartition(codes[size..], size);
      assert Chunks(codes, size)[1..] == Chunks(codes[size..], size);
      assert codes == codes[..size] + codes[size..];
    }
  }

  /** ... and makes ceil(n / size) chunks, none empty or too long. */
  lemma {:induction false} ChunkCount(codes: seq<string>, size: nat)
    requires size >= 1
    ensures (|Chunks(codes, size)| - 1) * size < |codes| <= |Chunks(codes, size)| * size
    ensures forall i | 0 <= i < |Chunks(codes, size)| :: 1 <= |Chunks(codes, size)[i]| <= size
  {
    if |codes| > size {
      ChunkCount(codes[size..], size);
      var rest := Chunks(codes[size..], size);
      OneMore(|rest|, size);
      OneMore(|rest| - 1, size);
    }
  }

  lemma OneMore(k: int, size: nat)
    ensures (k + 1) * size == k * size + size
  {
  }

  lemma ChunkStep(codes: seq<string>, index: nat, end: nat, size: nat)
    requires index < |codes| && size >= 1
    requires end == if index + size < |codes| then index + size else |codes|
    ensures Chunks(codes[index..], size) == [codes[index..end]] + Chunks(codes[end..], size)
  {
    var rest := codes[index..];
    if |rest| <= size {
      assert rest == codes[index..end] && codes[end..] == [];
    } else {
      assert rest[..size] == codes[index..end];
      assert rest[size..] == codes[end..];
    }
  }

  datatype Summary = Summary(synced: nat, failed: nat, total: nat, batches: nat, partial: nat,
                             results: seq<BatchResult>)

  /** What the provider, the clock, the database and the cache do in the i-th chunk. */
  datatype World = World(fetch: nat -> Result<(Quotes, Metadata), string>, clock: nat -> int, faults: nat -> Faults,
                         cacheFails: string -> bool)

  datatype Entry = Entry(batch: nat, provider: Name, source: Name)

  const FETCH_FAILED := Metadata(TENCENT, TENCENT_L1, true, false, SuppliedFetchFailed, Some("request failed"))

  function Accepted(results: seq<BatchResult>): nat {
    if results == [] then 0 else Accepted(results[..|results| - 1]) + |results[|results| - 1].accepted|
  }

  function Partials(results: seq<BatchResult>): nat {
    if results == [] then 0
    else Partials(results[..|results| - 1]) + if results[|results| - 1].status == Succeeded then 0 else 1
  }

  /** A chunk's result accepts distinct codes of that chunk and accounts for every code in it. */
  ghost predicate FitsChunk(r: BatchResult, chunk: seq<string>) {
    && Distinct(r.accepted)
    && (forall c | c in r.accepted :: c in chunk)
    && |r.accepted| + r.rejected == |Deduplicated(chunk)|
    && r.status != Running
  }

  ghost predicate Backed(code: string, batch: nat, provenance: map<RowKey, Provenance>) {
    exists k :: k in provenance && k.code == code && provenance[k].batch == batch
  }

  lemma BackedStays(code: string, batch: nat, before: map<RowKey, Provenance>, after: map<RowKey, Provenance>,
                   id: nat, t: int)
    requires Backed(code, batch, before) && Appended(before, after, id, t)
    ensures Backed(code, batch, after)
  {
    var k :| k in before && k.code == code && before[k].batch == batch;
    assert k in after && after[k] == before[k];
  }

  /** What the i-th chunk is persisted with: a fetch error counts as no quotes and a `fetch_failed` batch. */
  function Response(w: World, i: nat): (Quotes, Metadata) {
    match w.fetch(i)
    case Success(answer) => answer
    case Failure(_) => ([], FETCH_FAILED)
  }

  predicate ChunkRaises(chunk: seq<string>, i: nat, w: World) {
    Raises(chunk, Response(w, i).0, Response(w, i).1, w.faults(i))
  }

  ghost predicate SomeChunkRaises(codes: seq<string>, size: nat, w: World)
    requires size >= 1
  {
    exists i: nat :: i < |Chunks(codes, size)| && ChunkRaises(Chunks(codes, size)[i], i, w)
  }

  // ----- The cache -----

  /** The cache after a batch: an entry for each accepted code whose SET does not fail. */
  function Put(cache: map<string, Entry>, accepted: seq<string>, entry: Entry, fails: string -> bool):
    map<string, Entry>
  {
    map c | c in cache.Keys + (set a | a in accepted && !fails(a)) ::
      if c in accepted && !fails(c) then entry else cache[c]
  }

  function EntryOf(results: seq<BatchResult>, i: nat, w: World): Entry
    requires i < |results|
  {
    Entry(results[i].batch, Response(w, i).1.provider, Response(w, i).1.source)
  }

  /** The cache after the first chunks with these results. */
  function Cached(before: map<string, Entry>, results: seq<BatchResult>, w: World): map<string, Entry> {
    if results == [] then before
    else
      var n := |results| - 1;
      Put(Cached(before, results[..n], w), results[n].accepted, EntryOf(results, n, w), w.cacheFails)
  }

  predicate LastAccepting(results: seq<BatchResult>, code: string, i: nat) {
    && i < |results| && code in results[i].accepted
    && forall j | i < j < |results| :: code !in results[j].accepted
  }

  lemma CachedMore(before: map<string, Entry>, results: seq<BatchResult>, r: BatchResult, w: World)
    ensures Cached(before, results + [r], w)
         == Put(Cached(before, results, w), r.accepted,
                Entry(r.batch, Response(w, |results|).1.provider, Response(w, |results|).1.source), w.cacheFails)
  {
    assert (results + [r])[..|results|] == results;
  }

  /** The entry of a code is that of the last batch that accepted it, if one did and the cache takes it; otherwise
      it is what it was. No entry is lost. */
  lemma {:induction false} CachedIsLastAccepted(before: map<string, Entry>, results: seq<BatchResult>, w: World,
                                                code: string)
    ensures code !in Cached(before, results, w) <==>
      code !in before && (w.cacheFails(code) || forall i | 0 <= i < |results| :: code !in results[i].accepted)
    ensures code in Cached(before, results, w) ==>
      || (code in before && Cached(before, results, w)[code] == before[code]
          && (w.cacheFails(code) || forall i | 0 <= i < |results| :: code !in results[i].accepted))
      || (!w.cacheFails(code) &&
          exists i: nat :: LastAccepting(results, code, i)
                           && Cached(before, results, w)[code] == EntryOf(results, i, w))
  {
    if results != [] {
      var n := |results| - 1;
      CachedIsLastAccepted(before, results[..n], w, code);
      CachedMore(before, results[..n], results[n], w);
      assert results == results[..n] + [results[n]];
      if code !in results[n].accepted && !w.cacheFails(code) && exists i | 0 <= i < n :: code in results[i].accepted {
        assert exists i | 0 <= i < n :: code in results[..n][i].accepted;
        var i: nat :| LastAccepting(results[..n], code, i)
          && Cached(before, results[..n], w)[code] == EntryOf(results[..n], i, w);
        assert LastAccepting(results, code, i) && EntryOf(results, i, w) == EntryOf(results[..n], i, w);
      } else if code in results[n].accepted && !w.cacheFails(code) {
        assert LastAccepting(results, code, n);
      }
    }
  }

  /** The results of the chunks before the first one that raises. */
  ghost predicate BrokeOff(codes: seq<string>, size: nat, w: World, results: seq<BatchResult>)
    requires size >= 1
  {
    var chunks := Chunks(codes, size);
    && |results| < |chunks| && ChunkRaises(chunks[|results|], |results|, w)
    && forall i | 0 <= i < |results| :: FitsChunk(results[i], chunks[i]) && !ChunkRaises(chunks[i], i, w)
  }

  /** No stored quote is lost or changed. */
  ghost predicate QuotesKept(before: map<RowKey, Quote>, after: map<RowKey, Quote>) {
    forall k | k in before :: k in after && after[k] == before[k]
  }

  /** For each code a quote that was given for it is stored. */
  ghost predicate Stored(codes: seq<string>, given: Quotes, t: int, quotes: map<RowKey, Quote>) {
    forall c | c in codes :: RowKey(t, c) in quotes && (c, quotes[RowKey(t, c)]) in given
  }

  lemma AcceptedStored(chunk: seq<string>, given: Quotes, m: Metadata, t: int, id: nat, faults: Faults,
                       before: map<RowKey, Quote>, trail: map<RowKey, Provenance>, quotes: map<RowKey, Quote>,
                       provenance: map<RowKey, Provenance>, r: BatchResult)
    requires Distinct(chunk) && Distinct(Codes(given)) && OutcomeOf(chunk, given, m, t, before, trail, faults, r)
    requires r.accepted != [] ==>
      TablesAfter(ValidRows(chunk, given), t, Provenance(id, m.provider, m.source), faults.write, before, trail, quotes,
                  provenance)
    requires KeysAdded(before.Keys, quotes.Keys, r.accepted, t)
    ensures Stored(r.accepted, given, t, quotes)
  {
    if r.accepted != [] {
      StoredAsGiven(chunk, given, t, Provenance(id, m.provider, m.source), faults.write, before, trail, quotes,
                    provenance);
    }
  }

  class Service {
    const store: Store
    var cache: map<string, Entry>

    constructor ()
      ensures Valid() && fresh(store) && cache == map[]
    {
      store := new Store();
      cache := map[];
    }

    /** Every cached quote names a batch that wrote a row for its code. */
    ghost predicate Valid()
      reads this, store
    {
      store.Valid() && forall c | c in cache :: Backed(c, cache[c].batch, store.provenance)
    }

    method CacheAccepted(accepted: seq<string>, id: nat, m: Metadata, fails: string -> bool)
      requires Valid() && forall c | c in accepted :: Backed(c, id, store.provenance)
      modifies this`cache
      ensures Valid()
      ensures cache == Put(old(cache), accepted, Entry(id, m.provider, m.source), fails)
    {
      for i := 0 to |accepted|
        invariant Valid()
        invariant forall c :: c in cache <==> c in old(cache) || (c in accepted[..i] && !fails(c))
        invariant forall c | c in cache ::
          cache[c] == if c in accepted[..i] && !fails(c) then Entry(id, m.provider, m.source) else old(cache)[c]
      {
        if !fails(accepted[i]) {
          cache := cache[accepted[i] := Entry(id, m.provider, m.source)];
        }
        assert accepted[..i + 1] == accepted[..i] + [accepted[i]];
      }
      assert accepted[..|accepted|] == accepted;
    }

    /** One chunk: fetch (an error becomes a `fetch_failed` batch), persist, cache what was accepted. */
    method SyncChunk(chunk: seq<string>, i: nat, w: World) returns (r: Result<BatchResult, string>)
      requires Valid() && (w.fetch(i).Success? ==> Distinct(Codes(w.fetch(i).value.0)))
      modifies this`cache, store
      ensures Valid()
      ensures r.Failure? <==> ChunkRaises(chunk, i, w)
      ensures r.Failure? ==> cache == old(cache)
      ensures r.Success? ==>
        && FitsChunk(r.value, chunk)
        && OutcomeOf(Deduplicated(chunk), Response(w, i).0, Response(w, i).1, w.clock(i), old(store.quotes),
                     old(store.provenance), w.faults(i), r.value)
      ensures r.Success? ==> store.abandoned == old(store.abandoned)
      ensures r.Success? ==>
        cache == Put(old(cache), r.value.accepted,
                     Entry(r.value.batch, Response(w, i).1.provider, Response(w, i).1.source), w.cacheFails)
      ensures QuotesKept(old(store.quotes), store.quotes)
      ensures r.Success? ==> Stored(r.value.accepted, Response(w, i).0, w.clock(i), store.quotes)
      ensures r.Success? && w.fetch(i).Failure? ==>
        && r.value.status == FetchFailed && r.value.accepted == [] && r.value.batch in store.batches
        && store.batches[r.value.batch].provider == Named("tencent")
        && store.batches[r.value.batch].source == Named("tencent_qt_gtimg_l1")
    {
      var quotes: Quotes, metadata := [], FETCH_FAILED;
      match w.fetch(i) {
        case Success(answer) => quotes, metadata := answer.0, answer.1;
        case Failure(e) =>
      }
      var before := store.provenance;
      var id := store.nextBatch;
      r := store.PersistBatch(chunk, quotes, metadata, w.clock(i), w.faults(i));
      forall c | c in cache ensures Backed(c, cache[c].batch, store.provenance) {
        BackedStays(c, cache[c].batch, before, store.provenance, id, w.clock(i));
      }
      if r.Success? {
        AllAccepted(Deduplicated(chunk), quotes, metadata, w.clock(i), old(store.quotes), old(store.provenance),
                    w.faults(i), r.value);
        AcceptedStored(Deduplicated(chunk), quotes, metadata, w.clock(i), id, w.faults(i), old(store.quotes),
                       old(store.provenance), store.quotes, store.provenance, r.value);
        forall c | c in r.value.accepted ensures Backed(c, id, store.provenance) {
          assert RowKey(w.clock(i), c) in KeysOf(r.value.accepted, w.clock(i));
          assert RowKey(w.clock(i), c) in RowsOf(id, store.provenance);
        }
        CacheAccepted(r.value.accepted, id, metadata, w.cacheFails);
      }
    }

    /** The chunk that comes after these results. */
    method NextChunk(chunk: seq<string>, results: seq<BatchResult>, w: World, ghost entries: map<string, Entry>,
                     ghost quotes: map<RowKey, Quote>)
      returns (r: Result<BatchResult, string>)
      requires Valid() && (w.fetch(|results|).Success? ==> Distinct(Codes(w.fetch(|results|).value.0)))
      requires cache == Cached(entries, results, w)
      requires QuotesKept(quotes, store.quotes) && AllStored(results, w, store.quotes)
      modifies this`cache, store
      ensures Valid() && QuotesKept(quotes, store.quotes)
      ensures r.Failure? <==> ChunkRaises(chunk, |results|, w)
      ensures r.Failure? ==> cache == Cached(entries, results, w) && AllStored(results, w, store.quotes)
      ensures r.Success? ==>
        && FitsChunk(r.value, chunk) && store.abandoned == old(store.abandoned)
        && cache == Cached(entries, results + [r.value], w) && AllStored(results + [r.value], w, store.quotes)
    {
      ghost var before := store.quotes;
      r := SyncChunk(chunk, |results|, w);
      AllStoredStays(results, w, before, store.quotes);
      if r.Success? {
        CachedMore(entries, results, r.value, w);
        AllStoredMore(results, r.value, w, store.quotes);
      }
    }

    /** The loop for a positive step. */
    method SyncChunks(codes: seq<string>, size: nat, w: World) returns (r: Result<Summary, string>)
      requires Valid() && size > 0
      requires forall i: nat :: w.fetch(i).Success? ==> Distinct(Codes(w.fetch(i).value.0))
      modifies this`cache, store
      ensures Valid()
      ensures r.Failure? <==> SomeChunkRaises(codes, size, w)
      ensures QuotesKept(old(store.quotes), store.quotes)
      ensures r.Success? ==> cache == Cached(old(cache), r.value.results, w)
      ensures r.Failure? ==>
        exists results ::
          && BrokeOff(codes, size, w, results)
          && cache == Cached(old(cache), results, w) && AllStored(results, w, store.quotes)
      ensures r.Success? ==> store.abandoned == old(store.abandoned) && AllStored(r.value.results, w, store.quotes)
      ensures r.Success? ==> Counting(codes, size, w, |codes|, Chunks(codes, size), r.value)
    {
      var index, summary := 0, Summary(0, 0, |codes|, 0, 0, []);
      ghost var done: seq<seq<string>> := [];
      assert codes[0..] == codes;
      while index < |codes|
        invariant index <= |codes| && Counting(codes, size, w, index, done, summary)
        invariant Valid() && store.abandoned == old(store.abandoned)
        invariant cache == Cached(old(cache), summary.results, w)
        invariant QuotesKept(old(store.quotes), store.quotes) && AllStored(summary.results, w, store.quotes)
      {
        var end := if index + size < |codes| then index + size else |codes|;
        var requested := codes[index..end];
        var persisted := NextChunk(requested, summary.results, w, old(cache), old(store.quotes));
        if persisted.Failure? {
          RaisingBreaksOff(codes, size, w, index, end, done, summary);
          return Failure(persisted.error);
        }
        var result := persisted.value;
        CountingMore(codes, size, w, index, end, done, summary, result);
        summary := Summary(summary.synced + |result.accepted|, summary.failed + (|requested| - |result.accepted|),
                           |codes|, summary.batches + 1, summary.partial + if result.status != Succeeded then 1 else 0,
                           summary.results + [result]);
        done := done + [requested];
        index := end;
      }
      assert Chunks(codes[index..], size) == [];
      assert done == Chunks(codes, size);
      r := Success(summary);
    }

    /** A step of zero raises and a negative one makes no chunk at all; otherwise every requested code
        is counted exactly once, as synced or as failed. */
    method SyncAll(codes: seq<string>, batchSize: int, w: World) returns (r: Result<Summary, string>)
      requires Valid()
      requires forall i: nat :: w.fetch(i).Success? ==> Distinct(Codes(w.fetch(i).value.0))
      modifies this`cache, store
      ensures Valid()
      ensures r.Failure? <==> codes != [] && (batchSize == 0 || (batchSize > 0 && SomeChunkRaises(codes, batchSize, w)))
      ensures QuotesKept(old(store.quotes), store.quotes)
      ensures r.Success? ==> cache == Cached(old(cache), r.value.results, w)
      ensures r.Failure? && batchSize > 0 ==>
        exists results ::
          && BrokeOff(codes, batchSize, w, results)
          && cache == Cached(old(cache), results, w) && AllStored(results, w, store.quotes)
      ensures codes == [] || batchSize <= 0 ==> unchanged(this, store) && (r.Success? ==> r.value.results == [])
      ensures r.Success? ==> AllStored(r.value.results, w, store.quotes)
      ensures r.Success? ==> r.value.total == |codes| && store.abandoned == old(store.abandoned)
      ensures r.Success? ==> (r.value.synced + r.value.failed == r.value.total <==> batchSize > 0 || codes == [])
      ensures r.Success? ==> r.value.synced == Accepted(r.value.results) && r.value.partial == Partials(r.value.results)
      ensures r.Success? && batchSize > 0 ==>
        && r.value.batches == |r.value.results| == |Chunks(codes, batchSize)|
        && forall i | 0 <= i < r.value.batches :: FitsChunk(r.value.results[i], Chunks(codes, batchSize)[i])
    {
      if codes == [] {
        assert cache == Cached(old(cache), [], w);
        return Success(Summary(0, 0, 0, 0, 0, []));
      }
      if batchSize == 0 {
        return Failure("range() arg 3 must not be zero");
      }
      if batchSize < 0 {
        return Success(Summary(0, 0, |codes|, 0, 0, []));
      }
      r := SyncChunks(codes, batchSize, w);
    }
  }

  /** The summary of the chunks done, which reach up to index. */
  ghost predicate Counting(codes: seq<string>, size: nat, w: World, index: nat, done: seq<seq<string>>, s: Summary)
    requires size >= 1 && index <= |codes|
  {
    && Chunks(codes, size) == done + Chunks(codes[index..], size)
    && s.batches == |done| == |s.results| && s.total == |codes| && s.synced + s.failed == index
    && s.synced == Accepted(s.results) && s.partial == Partials(s.results)
    && (forall i | 0 <= i < |done| :: FitsChunk(s.results[i], done[i]))
    && forall i | 0 <= i < |done| :: !ChunkRaises(done[i], i, w)
  }

  lemma CountingMore(codes: seq<string>, size: nat, w: World, index: nat, end: nat,
                                        done: seq<seq<string>>, s: Summary, r: BatchResult)
    requires size >= 1 && index < |codes| && end == if index + size < |codes| then index + size else |codes|
    requires Counting(codes, size, w, index, done, s)
    requires FitsChunk(r, codes[index..end]) && !ChunkRaises(codes[index..end], s.batches, w)
    ensures |r.accepted| <= end - index
    ensures Counting(codes, size, w, end, done + [codes[index..end]],
                     Summary(s.synced + |r.accepted|, s.failed + (end - index - |r.accepted|), |codes|, s.batches + 1,
                             s.partial + if r.status != Succeeded then 1 else 0, s.results + [r]))
  {
    Counted(r, codes[index..end]);
    ChunkStep(codes, index, end, size);
    assert (s.results + [r])[..s.batches] == s.results;
    assert done + ([codes[index..end]] + Chunks(codes[end..], size))
        == done + [codes[index..end]] + Chunks(codes[end..], size);
  }

  ghost predicate AllStored(results: seq<BatchResult>, w: World, quotes: map<RowKey, Quote>) {
    forall i | 0 <= i < |results| :: Stored(results[i].accepted, Response(w, i).0, w.clock(i), quotes)
  }

  lemma AllStoredStays(results: seq<BatchResult>, w: World, before: map<RowKey, Quote>, after: map<RowKey, Quote>)
    requires AllStored(results, w, before) && QuotesKept(before, after)
    ensures AllStored(results, w, after)
  {
    forall i | 0 <= i < |results| ensures Stored(results[i].accepted, Response(w, i).0, w.clock(i), after) {
      assert Stored(results[i].accepted, Response(w, i).0, w.clock(i), before);
    }
  }

  lemma AllStoredMore(results: seq<BatchResult>, r: BatchResult, w: World, quotes: map<RowKey, Quote>)
    requires AllStored(results, w, quotes)
    requires Stored(r.accepted, Response(w, |results|).0, w.clock(|results|), quotes)
    ensures AllStored(results + [r], w, quotes)
  {
  }

  /** The chunk at index raises: the results so far are those before the first chunk that does. */
  lemma RaisingBreaksOff(codes: seq<string>, size: nat, w: World, index: nat, end: nat, done: seq<seq<string>>,
                         s: Summary)
    requires size >= 1 && index < |codes| && end == if index + size < |codes| then index + size else |codes|
    requires Counting(codes, size, w, index, done, s) && ChunkRaises(codes[index..end], s.batches, w)
    ensures BrokeOff(codes, size, w, s.results) && SomeChunkRaises(codes, size, w)
  {
    ChunkStep(codes, index, end, size);
    assert Chunks(codes, size)[s.batches] == codes[index..end];
  }

  lemma Counted(r: BatchResult, chunk: seq<string>)
    requires FitsChunk(r, chunk)
    ensures |r.accepted| <= |chunk|
  {
  }
}
