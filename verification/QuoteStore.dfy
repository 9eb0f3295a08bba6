/** Realtime quote batches and their provenance (worker/services/quote_store.py) over the tables of
    migrations 015 and 017, with `validate_quote` (worker/services/data_client.py). */
module QuoteStore {
  import opened Common

  datatype Quote = Quote(price: Option<real>, high: Option<real>, low: Option<real>)

  /** Missing and zero numbers are false in Python. */
  predicate Truthy(n: Option<real>) { n.Some? && n.value != 0.0 }

  predicate ValidQuote(q: Quote) {
    && Truthy(q.price) && q.price.value > 0.0
    && !(Truthy(q.high) && Truthy(q.low) && q.high.value < q.low.value)
  }

  datatype Status = Running | Succeeded | Partial | FetchFailed | ValidationFailed | WriteFailed

  /** The status the data client supplies; a missing one counts as `fetch_failed`. */
  datatype Supplied = SuppliedFetchFailed | SuppliedValidationFailed | SuppliedOther

  /** A provider or source name; a missing or empty one counts as "unknown". */
  datatype Name = Unknown | Synthetic | Named(name: string)

  const TENCENT := Named("tencent")
  const TENCENT_L1 := Named("tencent_qt_gtimg_l1")

  datatype Metadata = Metadata(provider: Name, source: Name, hasEndpoint: bool, fallbackUsed: bool,
                               supplied: Supplied, reason: Option<string>)

  datatype Batch = Batch(provider: Name, source: Name, requested: nat, returned: nat, accepted: nat, rejected: nat,
                         status: Status, reason: Option<string>, receivedAt: int)

  datatype BatchResult = BatchResult(batch: nat, status: Status, accepted: seq<string>, rejected: nat,
                                     reason: Option<string>)

  /** The primary key of both row tables. */
  datatype RowKey = RowKey(time: int, code: string)

  datatype Provenance = Provenance(batch: nat, provider: Name, source: Name)

  /** Where the database fails during one call: at inserting the batch, at the n-th row of the write
      transaction (its commit counts as one more row), at finalising the batch. */
  datatype Faults = Faults(insertBatch: bool, write: Option<nat>, finalize: bool)

  type Quotes = seq<(string, Quote)>

  function Codes(rows: Quotes): (codes: seq<string>)
    ensures |codes| == |rows| && forall i | 0 <= i < |rows| :: codes[i] == rows[i].0
  {
    if rows == [] then [] else [rows[0].0] + Codes(rows[1..])
  }

  /** `dict.fromkeys`: first occurrences, in order. */
  function Deduplicated(codes: seq<string>): (r: seq<string>)
    ensures Distinct(r) && forall c :: c in r <==> c in codes
    ensures |r| <= |codes|
  {
    if codes == [] then []
    else
      var before := Deduplicated(codes[..|codes| - 1]);
      var last := codes[|codes| - 1];
      assert codes == codes[..|codes| - 1] + [last];
      if last in before then before else before + [last]
  }

  predicate SafeSource(m: Metadata) {
    m.provider.Named? && m.source.Named? && m.hasEndpoint && !m.fallbackUsed
  }

  function Or(reason: Option<string>, text: string): Option<string> {
    if reason.Some? && reason.value != "" then reason else Some(text)
  }

  /** The quotes that may be stored, in arrival order. */
  function ValidRows(requested: seq<string>, quotes: Quotes): Quotes {
    if quotes == [] then []
    else
      var last := quotes[|quotes| - 1];
      ValidRows(requested, quotes[..|quotes| - 1])
      + if last.0 in requested && ValidQuote(last.1) then [last] else []
  }

  lemma ValidRowsExact(requested: seq<string>, quotes: Quotes)
    requires Distinct(Codes(quotes))
    ensures forall r :: r in ValidRows(requested, quotes) <==> r in quotes && r.0 in requested && ValidQuote(r.1)
    ensures Distinct(Codes(ValidRows(requested, quotes)))
  {
    ValidRowsMembers(requested, quotes);
    ValidRowsDistinct(requested, quotes);
  }

  lemma {:induction false} ValidRowsMembers(requested: seq<string>, quotes: Quotes)
    ensures forall r :: r in ValidRows(requested, quotes) <==> r in quotes && r.0 in requested && ValidQuote(r.1)
  {
    if quotes != [] {
      var n := |quotes| - 1;
      assert quotes == quotes[..n] + [quotes[n]];
      ValidRowsMembers(requested, quotes[..n]);
    }
  }

  lemma {:induction false} ValidRowsDistinct(requested: seq<string>, quotes: Quotes)
    requires Distinct(Codes(quotes))
    ensures Distinct(Codes(ValidRows(requested, quotes)))
  {
    if quotes != [] {
      var n := |quotes| - 1;
      var before, last := quotes[..n], quotes[n];
      assert quotes == before + [last];
      CodesAppend(before, last);
      assert Codes(before) == Codes(quotes)[..n];
      ValidRowsDistinct(requested, before);
      ValidRowsMembers(requested, before);
      var kept := ValidRows(requested, before);
      forall i | 0 <= i < |kept| ensures kept[i].0 != last.0 {
        assert kept[i] in before;
        var k :| 0 <= k < n && before[k] == kept[i];
        assert Codes(before)[k] == kept[i].0 && Codes(quotes)[k] == kept[i].0 && Codes(quotes)[n] == last.0;
      }
      DistinctMore(kept, last);
    }
  }

  lemma {:induction false} DistinctMore(rows: Quotes, row: (string, Quote))
    requires Distinct(Codes(rows)) && forall i | 0 <= i < |rows| :: rows[i].0 != row.0
    ensures Distinct(Codes(rows + [row]))
  {
    CodesAppend(rows, row);
    DistinctAppend(Codes(rows), row.0);
  }

  lemma DistinctAppend<T>(s: seq<T>, x: T)
    requires Distinct(s) && forall i | 0 <= i < |s| :: s[i] != x
    ensures Distinct(s + [x])
  {
  }

  /** The status a batch starts with: a failure, or `running`. */
  function InitialStatus(requested: seq<string>, m: Metadata, valid: nat): Status {
    if !SafeSource(m) then ValidationFailed
    else if m.supplied == SuppliedFetchFailed then FetchFailed
    else if (valid == 0 && requested != []) || m.supplied == SuppliedValidationFailed then ValidationFailed
    else Running
  }

  // ----- The store -----

  class Store {
    var batches: map<nat, Batch>
    var quotes: map<RowKey, Quote>
    var provenance: map<RowKey, Provenance>
    var nextBatch: nat              // identifiers drawn so far: a fresh UUID never repeats
    ghost var abandoned: set<nat>   // batches whose call raised after inserting them

    constructor ()
      ensures Valid() && batches == map[] && quotes == map[] && provenance == map[] && abandoned == {}
    {
      batches, quotes, provenance, nextBatch, abandoned := map[], map[], map[], 0, {};
    }

    /** What holds between calls: every quote row has its one provenance row, the provenance names an existing
        batch received at that time, and every batch that was not abandoned is finished, adds up and counts
        exactly its provenance rows. Provenance may outlive its quote. */
    ghost predicate Valid()
      reads this
    {
      && Covered(quotes, provenance)
      && ProvenanceHasBatch(provenance, batches)
      && BatchesOk(batches, nextBatch)
      && AllFinished(batches, provenance, abandoned)
      && abandoned <= batches.Keys
    }

    /** The retention policy drops old chunks of quotes, and no provenance. */
    method Retain(dropped: set<RowKey>)
      requires Valid()
      modifies this`quotes
      ensures Valid() && quotes == old(quotes) - dropped
    {
      quotes := quotes - dropped;
    }

    method InsertBatch(batch: Batch, fails: bool) returns (id: nat, raised: bool)
      requires Valid() && batch.accepted == 0 && BatchOk(batch)
      modifies this`batches, this`nextBatch
      ensures id == old(nextBatch) && nextBatch == old(nextBatch) + 1 && raised == fails
      ensures batches == if fails then old(batches) else old(batches)[id := batch]
      ensures fails || batch.status != Running ==> Valid()
      ensures !fails ==> id !in abandoned && Open(id) && RowsOf(id, provenance) == {}
    {
      id, raised := nextBatch, fails;
      nextBatch := nextBatch + 1;
      if !fails {
        Opens(id, batches, batch, provenance, abandoned);
        batches := batches[id := batch];
      }
    }

    /** The final update of a batch row; when it is lost the batch stays `running`. */
    method FinalizeBatch(r: BatchResult, fails: bool) returns (raised: bool)
      requires Open(r.batch) && r.status != Running
      requires RowCount(r.batch, provenance) == |r.accepted|
      requires |r.accepted| + r.rejected == batches[r.batch].requested
      modifies this`batches, this`abandoned
      ensures Valid() && raised == fails
      ensures abandoned == old(abandoned) + if fails then {r.batch} else {}
      ensures batches == if fails then old(batches) else old(batches)[r.batch := ClosedBy(old(batches)[r.batch], r)]
    {
      if fails {
        abandoned := abandoned + {r.batch};
      } else {
        var batch := ClosedBy(batches[r.batch], r);
        Finishes(r.batch, batches, batch, provenance, nextBatch, abandoned);
        batches := batches[r.batch := batch];
      }
      raised := fails;
    }

    /** One transaction. Either every row not yet stored is written with its provenance, or an error
        leaves both tables as they were. */
    method InsertQuotesAndProvenance(rows: Quotes, receivedAt: int, p: Provenance, fault: Option<nat>)
      returns (inserted: Result<seq<string>, string>)
      modifies this`quotes, this`provenance
      ensures var written := Written(rows, Session(old(quotes), old(provenance), []), receivedAt, p);
        && (inserted.Failure? <==> (fault.Some? && fault.value <= |rows|) || written.None?)
        && (inserted.Failure? ==> quotes == old(quotes) && provenance == old(provenance))
        && (inserted.Success? ==> written == Some(Session(quotes, provenance, inserted.value)))
    {
      var start := Session(quotes, provenance, []);
      var session := start;
      for i := 0 to |rows|
        invariant Written(rows[..i], start, receivedAt, p) == Some(session)
        invariant fault.Some? ==> i <= fault.value
        invariant quotes == old(quotes) && provenance == old(provenance)
      {
        if fault == Some(i) {
          return Failure("database");
        }
        var key := RowKey(receivedAt, rows[i].0);
        assert rows[..i + 1][..i] == rows[..i];
        if key !in session.quotes {
          if key in session.provenance {
            StaysRefused(rows, i + 1, start, receivedAt, p);
            return Failure("duplicate provenance");
          }
          session := Session(session.quotes[key := rows[i].1], session.provenance[key := p],
                             session.inserted + [rows[i].0]);
        }
      }
      assert rows[..|rows|] == rows;
      if fault == Some(|rows|) {
        return Failure("commit");
      }
      quotes, provenance := session.quotes, session.provenance;
      inserted := Success(session.inserted);
    }

    /** `Valid` while batch id is being written. */
    ghost predicate Open(id: nat)
      reads this
    {
      && Covered(quotes, provenance)
      && ProvenanceHasBatch(provenance, batches)
      && BatchesOk(batches, nextBatch)
      && AllFinished(batches, provenance, abandoned + {id})
      && abandoned <= batches.Keys && id in batches
    }

    /** The write transaction of a running batch. */
    method RecordRows(id: nat, requested: seq<string>, rows: Quotes, m: Metadata, receivedAt: int, fault: Option<nat>)
      returns (inserted: Result<seq<string>, string>)
      requires Open(id) && RowsOf(id, provenance) == {} && batches[id].receivedAt == receivedAt
      requires Distinct(requested) && forall r | r in rows :: r.0 in requested
      modifies this`quotes, this`provenance
      ensures inserted.Failure? <==> Refused(rows, receivedAt, old(quotes), old(provenance), fault)
      ensures inserted.Failure? ==> quotes == old(quotes) && provenance == old(provenance)
      ensures inserted.Success? ==>
        RowsAdded(rows, receivedAt, Provenance(id, m.provider, m.source), old(quotes), old(provenance), quotes,
                  provenance)
      ensures Open(id)
      ensures Appended(old(provenance), provenance, id, receivedAt)
      ensures RowsOf(id, provenance) == if inserted.Success? then KeysOf(inserted.value, receivedAt) else {}
      ensures inserted.Success? ==>
        && RowCount(id, provenance) == |inserted.value| <= |requested|
        && NewCodes(inserted.value, Codes(rows), receivedAt, old(quotes))
        && KeysAdded(old(quotes).Keys, quotes.Keys, inserted.value, receivedAt)
    {
      ghost var before := Session(quotes, provenance, []);
      var p := Provenance(id, m.provider, m.source);
      RefusedIffOrphaned(rows, before, receivedAt, p);
      inserted := InsertQuotesAndProvenance(rows, receivedAt, p, fault);
      if inserted.Success? {
        WrittenCodes(rows, before, receivedAt, p);
        WrittenQuotes(rows, before, receivedAt, p);
        WrittenProvenance(rows, before, receivedAt, p);
        AllKeysAdded(rows, inserted.value, receivedAt, before, quotes, provenance);
        Recorded(id, inserted.value, receivedAt, before.provenance, provenance, p, batches);
        OthersFinished(id, batches, before.provenance, provenance, abandoned);
        AcceptedFit(inserted.value, rows, requested);
      }
    }

    /** The write transaction and the final update of the batch row. */
    method WriteBatch(id: nat, requested: seq<string>, rows: Quotes, m: Metadata, receivedAt: int, note: Option<string>,
                      faults: Faults)
      returns (result: Result<BatchResult, string>)
      requires Open(id) && RowsOf(id, provenance) == {}
      requires batches[id].receivedAt == receivedAt && batches[id].requested == |requested|
      requires Distinct(requested) && forall r | r in rows :: r.0 in requested
      modifies this`batches, this`quotes, this`provenance, this`abandoned
      ensures Valid()
      ensures result.Failure? <==> faults.finalize
      ensures abandoned == old(abandoned) + if result.Failure? then {id} else {}
      ensures batches == if result.Failure? then old(batches)
                         else old(batches)[id := ClosedBy(old(batches)[id], result.value)]
      ensures Appended(old(provenance), provenance, id, receivedAt)
      ensures TablesAfter(rows, receivedAt, Provenance(id, m.provider, m.source), faults.write,
                          old(quotes), old(provenance), quotes, provenance)
      ensures result.Success? ==> KeysAdded(old(quotes).Keys, quotes.Keys, result.value.accepted, receivedAt)
      ensures result.Success? ==>
        && result.value.batch == id
        && (if result.value.status == WriteFailed then result.value.reason.Some? else result.value.reason == note)
        && WroteAll(result.value, requested, rows, receivedAt, old(quotes), old(provenance), faults)
        && RowsOf(id, provenance) == KeysOf(result.value.accepted, receivedAt)
    {
      var inserted := RecordRows(id, requested, rows, m, receivedAt, faults.write);
      var status, codes, reason := WriteFailed, [], note;
      match inserted {
        case Failure(e) => reason := Some(e);
        case Success(c) =>
          codes := c;
          status := if |codes| == |requested| then Succeeded else Partial;
      }
      var rejected := |requested| - |codes|;
      var r := BatchResult(id, status, codes, rejected, reason);
      var raised := FinalizeBatch(r, faults.finalize);
      result := if raised then Failure("finalize") else Success(r);
    }

    /** One collection attempt. It raises exactly when the batch row cannot be inserted or finalised; otherwise
        the row agrees with the result. On every path the two row tables are those of before, or have gained
        exactly the rows to write that were not stored, also when the final update is lost. */
    method PersistBatch(requestedCodes: seq<string>, given: Quotes, m: Metadata, receivedAt: int, faults: Faults)
      returns (result: Result<BatchResult, string>)
      requires Valid() && Distinct(Codes(given))
      modifies this
      ensures Valid()
      ensures Appended(old(provenance), provenance, old(nextBatch), receivedAt)
      ensures forall b | b in old(batches) :: b in batches && batches[b] == old(batches[b])
      ensures nextBatch == old(nextBatch) + 1
      ensures batches.Keys == old(batches).Keys + if faults.insertBatch then {} else {old(nextBatch)}
      ensures if Writes(requestedCodes, given, m, faults)
              then TablesAfter(ValidRows(Deduplicated(requestedCodes), given), receivedAt,
                               Provenance(old(nextBatch), m.provider, m.source), faults.write,
                               old(quotes), old(provenance), quotes, provenance)
              else quotes == old(quotes) && provenance == old(provenance)
      ensures result.Success? ==> KeysAdded(old(quotes).Keys, quotes.Keys, result.value.accepted, receivedAt)
      ensures result.Failure? <==> Raises(requestedCodes, given, m, faults)
      ensures result.Success? ==>
        && abandoned == old(abandoned)
        && result.value.batch == old(nextBatch) && result.value.batch in batches
        && Agrees(result.value, batches[result.value.batch])
        && OutcomeOf(Deduplicated(requestedCodes), given, m, receivedAt, old(quotes), old(provenance), faults,
            result.value)
        && RowsOf(result.value.batch, provenance) == KeysOf(result.value.accepted, receivedAt)
        && (if result.value.status == WriteFailed then result.value.reason.Some?
            else Noted(Deduplicated(requestedCodes), given, m, result.value.reason,
                       Writes(requestedCodes, given, m, faults)))
      ensures old(nextBatch) in batches ==>
        var batch, safe := batches[old(nextBatch)],
                           m.provider.Named? && m.source.Named? && m.hasEndpoint && !m.fallbackUsed;
        && batch.provider == (if safe then m.provider else Named("tencent"))
        && batch.source == (if safe then m.source else Named("tencent_qt_gtimg_l1"))
        && batch.requested == |Deduplicated(requestedCodes)|
        && batch.returned == (if safe then |given| else 0)
        && batch.receivedAt == receivedAt
        && (result.Failure? ==> batch.status == Running && batch.accepted == 0)
      ensures result.Failure? ==>
        abandoned == old(abandoned) + if faults.insertBatch then {} else {old(nextBatch)}
    {
      var requested := Deduplicated(requestedCodes);
      var rows, returned, initial, reason, note := Screen(requested, given, m);
      var safe := SafeSource(m);
      var id, raised := InsertBatch(Batch(if safe then m.provider else TENCENT, if safe then m.source else TENCENT_L1,
                                          |requested|, returned, 0, |requested|, initial, reason, receivedAt),
                                    faults.insertBatch);
      if raised {
        return Failure("insert batch");
      }
      if initial != Running {
        return Success(BatchResult(id, initial, [], |requested|, reason));
      }
      result := WriteBatch(id, requested, rows, m, receivedAt, note, faults);
    }
  }

  /** What may be stored, the status to start with, and the reasons to record before and after the write. */
  method Screen(requested: seq<string>, given: Quotes, m: Metadata)
    returns (rows: Quotes, returned: nat, initial: Status, reason: Option<string>, note: Option<string>)
    requires Distinct(Codes(given))
    ensures initial == InitialStatus(requested, m, |ValidRows(requested, given)|)
    ensures initial == Running ==> rows == ValidRows(requested, given)
    ensures forall r | r in rows :: r.0 in requested
    ensures returned == if SafeSource(m) then |given| else 0
    ensures Noted(requested, given, m, reason, false) && (initial == Running ==> Noted(requested, given, m, note, true))
  {
    var safe := SafeSource(m);
    var offered := if safe then given else [];
    var valid := ValidRows(requested, offered);
    ValidRowsExact(requested, offered);
    returned := |offered|;
    rows := if m.supplied == SuppliedFetchFailed then [] else valid;
    reason := if !safe then Some("unsafe source")
              else if m.supplied != SuppliedFetchFailed && rows == [] && requested != []
              then Or(m.reason, "no valid quote")
              else m.reason;
    note := if |valid| < |offered| then Or(reason, "invalid quotes") else reason;
    initial := InitialStatus(requested, m, |rows|);
  }

  // ----- The write transaction -----

  /** What a session sees of the row tables, and the codes it inserted. */
  datatype Session = Session(quotes: map<RowKey, Quote>, provenance: map<RowKey, Provenance>, inserted: seq<string>)

  /** Existing quotes are left alone (ON CONFLICT DO NOTHING); an existing provenance row is an error. */
  function Written(rows: Quotes, before: Session, t: int, p: Provenance): Option<Session> {
    if rows == [] then Some(before)
    else
      var n := |rows| - 1;
      match Written(rows[..n], before, t, p)
      case None => None
      case Some(s) =>
        var key := RowKey(t, rows[n].0);
        if key in s.quotes then Some(s)
        else if key in s.provenance then None
        else Some(Session(s.quotes[key := rows[n].1], s.provenance[key := p], s.inserted + [rows[n].0]))
  }

  lemma {:induction false} StaysRefused(rows: Quotes, i: nat, before: Session, t: int, p: Provenance)
    requires i <= |rows| && Written(rows[..i], before, t, p).None?
    ensures Written(rows, before, t, p).None?
  {
    if i == |rows| {
      assert rows[..i] == rows;
    } else {
      assert rows[..|rows| - 1][..i] == rows[..i];
      StaysRefused(rows[..|rows| - 1], i, before, t, p);
    }
  }

  /** A write that succeeds adds, for each row not yet stored, that quote and its provenance. */
  lemma {:induction false} WrittenCodes(rows: Quotes, before: Session, t: int, p: Provenance)
    requires before.inserted == [] && Covered(before.quotes, before.provenance)
    requires Written(rows, before, t, p).Some?
    ensures var s := Written(rows, before, t, p).value;
      && Covered(s.quotes, s.provenance)
      && NewCodes(s.inserted, Codes(rows), t, before.quotes)
      && KeysAdded(before.quotes.Keys, s.quotes.Keys, s.inserted, t)
      && KeysAdded(before.provenance.Keys, s.provenance.Keys, s.inserted, t)
      && forall c | c in s.inserted :: RowKey(t, c) !in before.provenance
  {
    if rows != [] {
      var n := |rows| - 1;
      WrittenCodes(rows[..n], before, t, p);
      var s := Written(rows[..n], before, t, p).value;
      assert rows == rows[..n] + [rows[n]];
      CodesAppend(rows[..n], rows[n]);
      OneMoreCode(s, Codes(rows[..n]), rows[n], t, before);
    }
  }

  lemma {:induction false} WrittenQuotes(rows: Quotes, before: Session, t: int, p: Provenance)
    requires Written(rows, before, t, p).Some?
    ensures QuotesAdded(before.quotes, Written(rows, before, t, p).value.quotes, rows)
  {
    if rows != [] {
      var n := |rows| - 1;
      WrittenQuotes(rows[..n], before, t, p);
      assert rows == rows[..n] + [rows[n]];
    }
  }

  lemma {:induction false} WrittenProvenance(rows: Quotes, before: Session, t: int, p: Provenance)
    requires Written(rows, before, t, p).Some?
    ensures ProvenanceAdded(before.provenance, Written(rows, before, t, p).value.provenance, p)
  {
    if rows != [] {
      WrittenProvenance(rows[..|rows| - 1], before, t, p);
    }
  }

  /** The inserted codes' keys are all that was missing of the rows' keys. */
  lemma AllKeysAdded(rows: Quotes, inserted: seq<string>, t: int, before: Session, quotes: map<RowKey, Quote>,
                     provenance: map<RowKey, Provenance>)
    requires Covered(before.quotes, before.provenance)
    requires NewCodes(inserted, Codes(rows), t, before.quotes)
    requires KeysAdded(before.quotes.Keys, quotes.Keys, inserted, t)
    requires KeysAdded(before.provenance.Keys, provenance.Keys, inserted, t)
    ensures KeysAdded(before.quotes.Keys, quotes.Keys, Codes(rows), t)
    ensures KeysAdded(before.provenance.Keys, provenance.Keys, Codes(rows), t)
  {
    assert forall k: RowKey | k.time == t :: k == RowKey(t, k.code);
  }

  lemma OneMoreCode(s: Session, codes: seq<string>, last: (string, Quote), t: int, before: Session)
    requires NewCodes(s.inserted, codes, t, before.quotes)
    requires KeysAdded(before.quotes.Keys, s.quotes.Keys, s.inserted, t)
    ensures NewCodes(if RowKey(t, last.0) in s.quotes then s.inserted else s.inserted + [last.0], codes + [last.0],
                     t, before.quotes)
  {
  }

  lemma {:induction false} CodesAppend(rows: Quotes, row: (string, Quote))
    ensures Codes(rows + [row]) == Codes(rows) + [row.0]
  {
    if rows != [] {
      assert (rows + [row])[1..] == rows[1..] + [row];
      CodesAppend(rows[1..], row);
    }
  }

  /** A write is refused exactly when provenance stands under one of its keys without its quote. */
  lemma {:induction false} RefusedIffOrphaned(rows: Quotes, before: Session, t: int, p: Provenance)
    requires before.inserted == [] && Covered(before.quotes, before.provenance)
    ensures Written(rows, before, t, p).None? <==> Orphaned(Codes(rows), t, before.quotes, before.provenance)
  {
    if rows != [] {
      var n := |rows| - 1;
      RefusedIffOrphaned(rows[..n], before, t, p);
      assert rows == rows[..n] + [rows[n]];
      CodesAppend(rows[..n], rows[n]);
      OrphanedMore(Codes(rows[..n]), rows[n].0, t, before.quotes, before.provenance);
      if Written(rows[..n], before, t, p).Some? {
        WrittenCodes(rows[..n], before, t, p);
      }
    }
  }

  lemma OrphanedMore(codes: seq<string>, code: string, t: int, quotes: map<RowKey, Quote>,
                     provenance: map<RowKey, Provenance>)
    ensures Orphaned(codes + [code], t, quotes, provenance) <==>
      Orphaned(codes, t, quotes, provenance) || (RowKey(t, code) !in quotes && RowKey(t, code) in provenance)
  {
    assert (codes + [code])[|codes|] == code;
    if Orphaned(codes, t, quotes, provenance) {
      var i :| 0 <= i < |codes| && RowKey(t, codes[i]) !in quotes && RowKey(t, codes[i]) in provenance;
      assert (codes + [code])[i] == codes[i];
    }
  }

  /** A clock that moves on prevents that: provenance of earlier batches is never in the way. */
  lemma LaterIsNotOrphaned(codes: seq<string>, t: int, quotes: map<RowKey, Quote>, provenance: map<RowKey, Provenance>)
    requires forall k | k in provenance :: k.time != t
    ensures !Orphaned(codes, t, quotes, provenance)
  {
  }

  // ----- What the contracts say -----

  ghost predicate Covered(quotes: map<RowKey, Quote>, provenance: map<RowKey, Provenance>) {
    quotes.Keys <= provenance.Keys
  }

  /** Provenance stands under one of these keys without its quote. */
  ghost predicate Orphaned(codes: seq<string>, t: int, quotes: map<RowKey, Quote>,
                           provenance: map<RowKey, Provenance>) {
    exists i | 0 <= i < |codes| :: RowKey(t, codes[i]) !in quotes && RowKey(t, codes[i]) in provenance
  }

  ghost predicate ProvenanceHasBatch(provenance: map<RowKey, Provenance>, batches: map<nat, Batch>) {
    forall k | k in provenance :: provenance[k].batch in batches && batches[provenance[k].batch].receivedAt == k.time
  }

  /** The CHECK constraints of the batch table, and that the counters add up. */
  predicate BatchOk(b: Batch) {
    && b.provider.Named? && b.source.Named?
    && b.accepted + b.rejected == b.requested
  }

  function RowsOf(b: nat, provenance: map<RowKey, Provenance>): set<RowKey> {
    set k | k in provenance && provenance[k].batch == b
  }

  function RowCount(b: nat, provenance: map<RowKey, Provenance>): nat { |RowsOf(b, provenance)| }

  ghost predicate Finished(id: nat, b: Batch, provenance: map<RowKey, Provenance>) {
    b.status != Running && b.accepted == RowCount(id, provenance)
  }

  /** `inserted` lists once each code whose row was new. */
  ghost predicate NewCodes(inserted: seq<string>, codes: seq<string>, t: int, quotes: map<RowKey, Quote>) {
    && Distinct(inserted)
    && forall c :: c in inserted <==> c in codes && RowKey(t, c) !in quotes
  }

  ghost predicate KeysAdded(before: set<RowKey>, after: set<RowKey>, inserted: seq<string>, t: int) {
    forall k :: k in after <==> k in before || (k.time == t && k.code in inserted)
  }

  ghost predicate QuotesAdded(before: map<RowKey, Quote>, after: map<RowKey, Quote>, rows: Quotes) {
    && (forall k | k in before :: k in after && after[k] == before[k])
    && forall k | k in after && k !in before :: (k.code, after[k]) in rows
  }

  ghost predicate ProvenanceAdded(before: map<RowKey, Provenance>, after: map<RowKey, Provenance>, p: Provenance) {
    && (forall k | k in before :: k in after && after[k] == before[k])
    && forall k | k in after && k !in before :: after[k] == p
  }

  function ClosedBy(b: Batch, r: BatchResult): Batch {
    Batch(b.provider, b.source, b.requested, b.returned, |r.accepted|, r.rejected, r.status, r.reason, b.receivedAt)
  }

  /** The stored row says what the caller was told. */
  predicate Agrees(r: BatchResult, b: Batch) {
    && b.status == r.status && b.accepted == |r.accepted| && b.rejected == r.rejected && b.reason == r.reason
  }

  ghost predicate BatchesOk(batches: map<nat, Batch>, next: nat) {
    forall b | b in batches :: b < next && BatchOk(batches[b])
  }

  ghost predicate AllFinished(batches: map<nat, Batch>, provenance: map<RowKey, Provenance>, except: set<nat>) {
    forall b | b in batches && b !in except :: Finished(b, batches[b], provenance)
  }

  function KeysOf(codes: seq<string>, t: int): set<RowKey> {
    set c | c in codes :: RowKey(t, c)
  }

  /** Provenance only grows, by rows of this batch. */
  ghost predicate Appended(before: map<RowKey, Provenance>, after: map<RowKey, Provenance>, id: nat, t: int) {
    && (forall k | k in before :: k in after && after[k] == before[k])
    && forall k | k in after && k !in before :: k.time == t && after[k].batch == id
  }

  /** A write transaction that leaves nothing: a database fault, or provenance in the way. */
  ghost predicate Refused(rows: Quotes, t: int, quotes: map<RowKey, Quote>, provenance: map<RowKey, Provenance>,
                          fault: Option<nat>)
  {
    (fault.Some? && fault.value <= |rows|) || Orphaned(Codes(rows), t, quotes, provenance)
  }

  /** Both tables have gained a row for each of these codes that had no quote, and nothing else has changed. */
  ghost predicate RowsAdded(rows: Quotes, t: int, p: Provenance, before: map<RowKey, Quote>,
                            trail: map<RowKey, Provenance>, quotes: map<RowKey, Quote>,
                            provenance: map<RowKey, Provenance>)
  {
    && QuotesAdded(before, quotes, rows) && KeysAdded(before.Keys, quotes.Keys, Codes(rows), t)
    && ProvenanceAdded(trail, provenance, p) && KeysAdded(trail.Keys, provenance.Keys, Codes(rows), t)
  }

  /** The tables after a write transaction. */
  ghost predicate TablesAfter(rows: Quotes, t: int, p: Provenance, fault: Option<nat>, before: map<RowKey, Quote>,
                              trail: map<RowKey, Provenance>, quotes: map<RowKey, Quote>,
                              provenance: map<RowKey, Provenance>)
  {
    if Refused(rows, t, before, trail, fault) then quotes == before && provenance == trail
    else RowsAdded(rows, t, p, before, trail, quotes, provenance)
  }

  /** A call gets as far as its write transaction. */
  predicate Writes(requestedCodes: seq<string>, given: Quotes, m: Metadata, faults: Faults) {
    var requested := Deduplicated(requestedCodes);
    !faults.insertBatch && InitialStatus(requested, m, |ValidRows(requested, given)|) == Running
  }

  predicate Raises(requestedCodes: seq<string>, given: Quotes, m: Metadata, faults: Faults) {
    faults.insertBatch || (Writes(requestedCodes, given, m, faults) && faults.finalize)
  }

  /** The outcome of the write: failed exactly when the database did or a provenance row was in the way; otherwise
      exactly the codes whose row was not stored before are accepted, and it succeeded iff none is missing. */
  ghost predicate WroteAll(r: BatchResult, requested: seq<string>, rows: Quotes, t: int, before: map<RowKey, Quote>,
                           trail: map<RowKey, Provenance>, faults: Faults)
  {
    && Distinct(r.accepted)
    && |r.accepted| + r.rejected == |requested|
    && r.status in {Succeeded, Partial, WriteFailed}
    && (r.status == WriteFailed <==> Refused(rows, t, before, trail, faults.write))
    && (r.status == WriteFailed ==> r.accepted == [])
    && (r.status != WriteFailed ==>
         && (forall c :: c in r.accepted <==> c in Codes(rows) && RowKey(t, c) !in before)
         && (r.status == Succeeded <==> r.rejected == 0))
  }

  /** The reason recorded for a batch, finally or at its insertion: an unsafe source is named, otherwise a reason
      supplied is kept, and what is wrong with the quotes is noted only when there is none. */
  ghost predicate Noted(requested: seq<string>, given: Quotes, m: Metadata, reason: Option<string>, final: bool) {
    var valid := ValidRows(requested, given);
    if !SafeSource(m) then reason == Some("unsafe source")
    else if m.reason.Some? && m.reason.value != "" then reason == m.reason
    else if m.supplied != SuppliedFetchFailed && valid == [] && requested != [] then reason == Some("no valid quote")
    else if final && |valid| < |given| then reason == Some("invalid quotes")
    else reason == m.reason
  }

  /** Which course a call took, from its inputs alone. */
  ghost predicate OutcomeOf(requested: seq<string>, given: Quotes, m: Metadata, t: int, before: map<RowKey, Quote>,
                            trail: map<RowKey, Provenance>, faults: Faults, r: BatchResult)
  {
    var valid := ValidRows(requested, given);
    var initial := InitialStatus(requested, m, |valid|);
    if initial == Running then WroteAll(r, requested, valid, t, before, trail, faults)
    else r.status == initial && r.accepted == [] && r.rejected == |requested|
  }

  // ----- Lemmas -----

  lemma {:induction false} DistinctWithin<T>(part: seq<T>, whole: seq<T>)
    requires Distinct(part) && forall x | x in part :: x in whole
    ensures |part| <= |whole|
    ensures |part| == |whole| && Distinct(whole) ==> forall x | x in whole :: x in part
  {
    if part != [] {
      var n := |part| - 1;
      assert part[n] in whole;
      var k :| 0 <= k < |whole| && whole[k] == part[n];
      var rest := whole[..k] + whole[k + 1..];
      forall x | x in part[..n] ensures x in rest {
        var i :| 0 <= i < n && part[i] == x;
        assert x in part && x != whole[k];
        var j :| 0 <= j < |whole| && whole[j] == x;
        assert j != k;
        assert rest[if j < k then j else j - 1] == x;
      }
      DistinctWithin(part[..n], rest);
      if |part| == |whole| && Distinct(whole) {
        assert Distinct(rest);
        forall x | x in whole ensures x in part {
          if x != whole[k] {
            var j :| 0 <= j < |whole| && whole[j] == x;
            assert rest[if j < k then j else j - 1] == x;
            assert x in part[..n];
          } else {
            assert part[n] == x;
          }
        }
      }
    }
  }

  lemma AcceptedFit(codes: seq<string>, rows: Quotes, requested: seq<string>)
    requires Distinct(codes) && Distinct(requested)
    requires forall c | c in codes :: c in Codes(rows)
    requires forall r | r in rows :: r.0 in requested
    ensures |codes| <= |requested|
    ensures forall c | c in codes :: c in requested
    ensures |codes| == |requested| ==> forall c | c in requested :: c in codes
  {
    forall c | c in codes ensures c in requested {
      var i :| 0 <= i < |rows| && Codes(rows)[i] == c;
      assert rows[i] in rows;
    }
    DistinctWithin(codes, requested);
  }

  lemma {:induction false} KeysOfCodes(codes: seq<string>, t: int)
    requires Distinct(codes)
    ensures |KeysOf(codes, t)| == |codes|
  {
    if codes == [] {
      assert KeysOf(codes, t) == {};
    } else {
      var n := |codes| - 1;
      KeysOfCodes(codes[..n], t);
      assert codes == codes[..n] + [codes[n]];
      assert KeysOf(codes, t) == KeysOf(codes[..n], t) + {RowKey(t, codes[n])};
    }
  }

  /** The new provenance rows are the new batch's, and no other batch gains or loses any. */
  lemma Recorded(id: nat, codes: seq<string>, t: int, before: map<RowKey, Provenance>, after: map<RowKey, Provenance>,
                 p: Provenance, batches: map<nat, Batch>)
    requires Distinct(codes) && p.batch == id && RowsOf(id, before) == {}
    requires forall c | c in codes :: RowKey(t, c) !in before
    requires ProvenanceAdded(before, after, p) && KeysAdded(before.Keys, after.Keys, codes, t)
    requires id in batches && batches[id].receivedAt == t && ProvenanceHasBatch(before, batches)
    ensures RowsOf(id, after) == KeysOf(codes, t) && |RowsOf(id, after)| == |codes|
    ensures forall b | b != id :: RowsOf(b, after) == RowsOf(b, before)
    ensures ProvenanceHasBatch(after, batches)
    ensures Appended(before, after, id, t)
  {
    KeysOfCodes(codes, t);
    forall k ensures k in RowsOf(id, after) <==> k in KeysOf(codes, t) {
      assert k in RowsOf(id, before) <==> k in before && before[k].batch == id;
      assert k == RowKey(k.time, k.code);
    }
  }

  lemma OthersFinished(id: nat, batches: map<nat, Batch>, before: map<RowKey, Provenance>,
                       after: map<RowKey, Provenance>, abandoned: set<nat>)
    requires AllFinished(batches, before, abandoned + {id})
    requires forall b | b != id :: RowsOf(b, after) == RowsOf(b, before)
    ensures AllFinished(batches, after, abandoned + {id})
  {
  }

  /** A batch just inserted has no provenance rows yet. */
  lemma Opens(id: nat, batches: map<nat, Batch>, batch: Batch, provenance: map<RowKey, Provenance>, abandoned: set<nat>)
    requires id !in batches && ProvenanceHasBatch(provenance, batches) && AllFinished(batches, provenance, abandoned)
    ensures RowsOf(id, provenance) == {}
    ensures ProvenanceHasBatch(provenance, batches[id := batch])
    ensures AllFinished(batches[id := batch], provenance, abandoned + {id})
    ensures batch.status != Running && batch.accepted == 0 ==> AllFinished(batches[id := batch], provenance, abandoned)
  {
  }

  /** Closing a batch with the number of its rows leaves only the abandoned ones unfinished. */
  lemma Finishes(id: nat, batches: map<nat, Batch>, batch: Batch, provenance: map<RowKey, Provenance>, next: nat,
                 abandoned: set<nat>)
    requires id in batches && BatchesOk(batches, next) && BatchOk(batch) && batch.receivedAt == batches[id].receivedAt
    requires ProvenanceHasBatch(provenance, batches) && AllFinished(batches, provenance, abandoned + {id})
    requires Finished(id, batch, provenance)
    ensures BatchesOk(batches[id := batch], next) && AllFinished(batches[id := batch], provenance, abandoned)
    ensures ProvenanceHasBatch(provenance, batches[id := batch])
  {
  }

  /** "success iff everything requested was accepted" holds for every non-empty request ... */
  lemma SuccessIffAllAccepted(requested: seq<string>, given: Quotes, m: Metadata, t: int, before: map<RowKey, Quote>,
                              trail: map<RowKey, Provenance>, faults: Faults, r: BatchResult)
    requires Distinct(requested) && Distinct(Codes(given))
    requires OutcomeOf(requested, given, m, t, before, trail, faults, r)
    ensures (r.status == Succeeded <==> r.rejected == 0) <==>
      requested != [] || (InitialStatus(requested, m, 0) == Running && faults.write != Some(0))
    ensures r.rejected == 0 <==> forall c | c in requested :: c in r.accepted
  {
    AllAccepted(requested, given, m, t, before, trail, faults, r);
    if requested == [] {
      EmptyRequest(given);
    }
  }

  ghost predicate Offered(code: string, given: Quotes) {
    exists q :: (code, q) in given && ValidQuote(q)
  }

  /** Accepted codes are distinct, requested and offered with a valid quote; the counters add up. */
  lemma AllAccepted(requested: seq<string>, given: Quotes, m: Metadata, t: int, before: map<RowKey, Quote>,
                    trail: map<RowKey, Provenance>, faults: Faults, r: BatchResult)
    requires Distinct(requested) && Distinct(Codes(given))
    requires OutcomeOf(requested, given, m, t, before, trail, faults, r)
    ensures Distinct(r.accepted) && |r.accepted| + r.rejected == |requested|
    ensures forall c | c in r.accepted :: c in requested && Offered(c, given)
    ensures r.rejected == 0 <==> forall c | c in requested :: c in r.accepted
  {
    ValidRowsExact(requested, given);
    forall c | c in r.accepted ensures Offered(c, given) {
      var valid := ValidRows(requested, given);
      var i :| 0 <= i < |valid| && Codes(valid)[i] == c;
      assert valid[i] in valid && valid[i] == (c, valid[i].1);
    }
    AcceptedFit(r.accepted, if r.accepted == [] then [] else ValidRows(requested, given), requested);
    if forall c | c in requested :: c in r.accepted {
      DistinctWithin(requested, r.accepted);
    }
  }

  /** A code of the rows to write is one with a quote among them. */
  lemma ValidCodes(requested: seq<string>, given: Quotes)
    requires Distinct(Codes(given))
    ensures forall c :: c in Codes(ValidRows(requested, given)) <==>
      c in requested && exists q: Quote :: (
        && (c, q) in given
        && q.price.Some? && q.price.value > 0.0
        && !(q.high.Some? && q.low.Some? && q.high.value != 0.0 && q.low.value != 0.0 && q.high.value < q.low.value))
    ensures Distinct(Codes(ValidRows(requested, given)))
  {
    ValidRowsExact(requested, given);
    var valid := ValidRows(requested, given);
    forall c
      ensures c in Codes(valid) <==> exists q: Quote :: (c, q) in valid
    {
      if c in Codes(valid) {
        var i :| 0 <= i < |valid| && Codes(valid)[i] == c;
        assert valid[i] == (c, valid[i].1) && valid[i] in valid;
      }
      if q: Quote :| (c, q) in valid {
        var i :| 0 <= i < |valid| && valid[i] == (c, q);
        assert Codes(valid)[i] == c;
      }
    }
    forall c, q: Quote
      ensures (c, q) in valid <==>
        && c in requested && (c, q) in given
        && q.price.Some? && q.price.value > 0.0
        && !(q.high.Some? && q.low.Some? && q.high.value != 0.0 && q.low.value != 0.0 && q.high.value < q.low.value)
    {
    }
  }

  /** A batch starts when its source is safe, its status is no failure and, unless nothing is requested, some
      requested code has a quote with a positive price whose high and low, where both count, are not swapped. */
  lemma StartsIff(requested: seq<string>, given: Quotes, m: Metadata)
    requires Distinct(Codes(given))
    ensures var initial := InitialStatus(requested, m, |ValidRows(requested, given)|);
      && (initial == FetchFailed <==>
           && m.provider.Named? && m.source.Named? && m.hasEndpoint && !m.fallbackUsed
           && m.supplied == SuppliedFetchFailed)
      && (initial == Running <==>
           && m.provider.Named? && m.source.Named? && m.hasEndpoint && !m.fallbackUsed
           && m.supplied == SuppliedOther
           && (requested == [] || exists c :: (
             c in requested && exists q: Quote :: (
               && (c, q) in given
               && q.price.Some? && q.price.value > 0.0
               && !(q.high.Some? && q.low.Some? && q.high.value != 0.0 && q.low.value != 0.0
                    && q.high.value < q.low.value)))))
      && (initial == Running || initial == FetchFailed || initial == ValidationFailed)
  {
    ValidCodes(requested, given);
    SomeCode(ValidRows(requested, given));
  }

  /** So every status is decided by the inputs: these three by what was supplied, the others by the write. */
  lemma StatusIff(requested: seq<string>, given: Quotes, m: Metadata, t: int, before: map<RowKey, Quote>,
                  trail: map<RowKey, Provenance>, faults: Faults, r: BatchResult)
    requires OutcomeOf(requested, given, m, t, before, trail, faults, r)
    ensures var initial := InitialStatus(requested, m, |ValidRows(requested, given)|);
      && (r.status == FetchFailed <==> initial == FetchFailed)
      && (r.status == ValidationFailed <==> initial == ValidationFailed)
      && (r.status == Succeeded || r.status == Partial || r.status == WriteFailed <==> initial == Running)
  {
  }

  lemma SomeCode(rows: Quotes)
    ensures rows != [] <==> exists c :: c in Codes(rows)
  {
    if rows != [] {
      assert Codes(rows)[0] in Codes(rows);
    }
  }

  /** In a batch that is written and does not fail a code is accepted exactly when it is requested, has such a quote,
      and is not stored at that time; the batch is a success when that is so of every requested code. Without a
      database fault it fails only by provenance that was left without its quote. */
  lemma AcceptedIff(requested: seq<string>, given: Quotes, m: Metadata, t: int, before: map<RowKey, Quote>,
                    trail: map<RowKey, Provenance>, faults: Faults, r: BatchResult)
    requires Distinct(requested) && Distinct(Codes(given))
    requires OutcomeOf(requested, given, m, t, before, trail, faults, r)
    ensures forall c :: c in r.accepted <==>
      && (r.status == Succeeded || r.status == Partial)
      && c in requested && RowKey(t, c) !in before
      && exists q: Quote :: (
        && (c, q) in given
        && q.price.Some? && q.price.value > 0.0
        && !(q.high.Some? && q.low.Some? && q.high.value != 0.0 && q.low.value != 0.0 && q.high.value < q.low.value))
    ensures r.status == Succeeded || r.status == Partial ==>
      (r.status == Succeeded <==> forall c | c in requested :: c in r.accepted)
    ensures faults.write == None && (r.status == Succeeded || r.status == Partial || r.status == WriteFailed) ==>
      (r.status == WriteFailed <==> exists c :: (
        c in requested && RowKey(t, c) !in before && RowKey(t, c) in trail && exists q: Quote :: (
          && (c, q) in given
          && q.price.Some? && q.price.value > 0.0
          && !(q.high.Some? && q.low.Some? && q.high.value != 0.0 && q.low.value != 0.0
               && q.high.value < q.low.value))))
  {
    ValidCodes(requested, given);
    AllAccepted(requested, given, m, t, before, trail, faults, r);
    OrphanedCode(Codes(ValidRows(requested, given)), t, before, trail);
  }

  lemma OrphanedCode(codes: seq<string>, t: int, quotes: map<RowKey, Quote>, provenance: map<RowKey, Provenance>)
    ensures Orphaned(codes, t, quotes, provenance) <==>
      exists c :: c in codes && RowKey(t, c) !in quotes && RowKey(t, c) in provenance
  {
    if c :| c in codes && RowKey(t, c) !in quotes && RowKey(t, c) in provenance {
      var i :| 0 <= i < |codes| && codes[i] == c;
    }
    if Orphaned(codes, t, quotes, provenance) {
      var i :| 0 <= i < |codes| && RowKey(t, codes[i]) !in quotes && RowKey(t, codes[i]) in provenance;
      assert codes[i] in codes;
    }
  }

  /** What a write adds: quotes as they were given, each with the provenance of the batch. */
  lemma StoredAsGiven(requested: seq<string>, given: Quotes, t: int, p: Provenance, fault: Option<nat>,
                      before: map<RowKey, Quote>, trail: map<RowKey, Provenance>, quotes: map<RowKey, Quote>,
                      provenance: map<RowKey, Provenance>)
    requires Distinct(Codes(given))
    requires TablesAfter(ValidRows(requested, given), t, p, fault, before, trail, quotes, provenance)
    ensures forall k | k in before :: k in quotes && quotes[k] == before[k]
    ensures forall k | k in trail :: k in provenance && provenance[k] == trail[k]
    ensures forall k | k in quotes && k !in before ::
      k.time == t && k.code in requested && (k.code, quotes[k]) in given
    ensures forall k | k in provenance && k !in trail :: k.time == t && provenance[k] == p
  {
    ValidRowsExact(requested, given);
  }

  lemma {:induction false} EmptyRequest(given: Quotes)
    ensures ValidRows([], given) == []
  {
    if given != [] {
      EmptyRequest(given[..|given| - 1]);
    }
  }

  /** ... and not for an empty one: all of nothing is accepted, yet the batch is `fetch_failed`. */
  lemma EmptyRequestExample(given: Quotes, t: int, before: map<RowKey, Quote>, trail: map<RowKey, Provenance>,
                            faults: Faults, r: BatchResult)
    requires OutcomeOf([], given, Metadata(TENCENT, TENCENT_L1, true, false, SuppliedFetchFailed, None), t,
                       before, trail, faults, r)
    ensures r.status == FetchFailed && r.accepted == [] && r.rejected == 0
  {
    EmptyRequest(given);
  }
}
