/** The checkpoint table of the dataset import: `checkpoint`, `process_month` and `bind_run`
    (backend/scripts/import_sprint13_dataset.py) with `retry_async`, `existing_month_decision` and
    `assert_run_binding` (backend/app/data/dataset_expansion.py). */
module Checkpoints {
  import opened Common
  import opened CivilDates

  datatype Status = Running | Certified | FetchFailed | ValidationFailed | ReviewRequired | WriteFailed

  datatype Key = Key(code: string, month: Date)

  datatype Row = Row(batch: Option<string>, status: Status, attempts: nat, fetched: nat, certified: nat,
                                   errorType: Option<string>, errorReason: Option<string>,
                                   lastAttempt: Option<int>, validationHash: Option<string>, updated: int)

  /** What one call of `checkpoint` reports. */
  datatype Report = Report(status: Status, batch: Option<string>, fetched: nat, certified: nat,
                           errorType: Option<string>, errorReason: Option<string>,
                           attempts: nat, validationHash: Option<string>)

  const STARTED := Report(Running, None, 0, 0, None, None, 0, None)

  const MAX_PROVIDER_ATTEMPTS: nat := 3

  // ----- The upsert -----

  function Coalesce<T>(first: Option<T>, second: Option<T>): Option<T> {
    if first.Some? then first else second
  }

  function Upserted(row: Option<Row>, r: Report, now: int): Row {
    var attempted := if r.attempts > 0 then Some(now) else None;
    match row
    case None =>
      Row(r.batch, r.status, r.attempts, r.fetched, r.certified, r.errorType, r.errorReason,
                 attempted, r.validationHash, now)
    case Some(was) =>
      Row(Coalesce(r.batch, was.batch), r.status, was.attempts + r.attempts, r.fetched, r.certified,
                 r.errorType, r.errorReason, Coalesce(attempted, was.lastAttempt), r.validationHash, now)
  }

  function At(rows: map<Key, Row>, key: Key): Option<Row> {
    if key in rows then Some(rows[key]) else None
  }

  // ----- Retrying -----

  /** `attempt -> what the provider answers on that attempt`: a value or an error message. */
  type Provider<T> = nat -> Result<T, string>

  datatype Exhausted = Exhausted(attempts: nat, lastError: string) | BadLimit

  /** The first answer that is not an error counts, after waits of base, 2 base, 4 base, ... */
  method Retry<T>(provider: Provider<T>, limit: int, base: nat)
    returns (result: Result<(T, nat), Exhausted>, waits: seq<nat>)
    ensures result.Success? ==>
      && 1 <= result.value.1 <= limit
      && provider(result.value.1) == Success(result.value.0)
      && (forall k | 1 <= k < result.value.1 :: provider(k).Failure?)
      && |waits| == result.value.1 - 1
    ensures result.Failure? && limit >= 1 ==>
      && (forall k | 1 <= k <= limit :: provider(k).Failure?)
      && result.error == Exhausted(limit, provider(limit).error)
      && |waits| == limit - 1
    ensures limit < 1 ==> result == Failure(BadLimit) && waits == []
    ensures forall i | 0 <= i < |waits| :: waits[i] == if i == 0 then base else 2 * waits[i - 1]
  {
    waits := [];
    if limit < 1 {
      return Failure(BadLimit), waits;
    }
    var last := "unknown failure";
    for attempt := 1 to limit + 1
      invariant forall k | 1 <= k < attempt :: provider(k).Failure?
      invariant attempt > 1 ==> provider(attempt - 1) == Failure(last)
      invariant |waits| == if attempt <= limit then attempt - 1 else limit - 1
      invariant forall i | 0 <= i < |waits| :: waits[i] == base * Power2(i)
      invariant forall i | 0 <= i < |waits| :: waits[i] == if i == 0 then base else 2 * waits[i - 1]
    {
      match provider(attempt) {
        case Success(v) => return Success((v, attempt)), waits;
        case Failure(e) =>
          last := e;
          if attempt < limit {
            if attempt > 1 {
              Doubles(base, Power2(attempt - 2));
            }
            waits := waits + [base * Power2(attempt - 1)];
          }
      }
    }
    result := Failure(Exhausted(limit, last));
  }

  lemma Doubles(base: nat, power: nat)
    ensures base * (2 * power) == 2 * (base * power)
  {
  }

  function Power2(n: nat): nat {
    if n == 0 then 1 else 2 * Power2(n - 1)
  }

  // ----- One month -----

  /** The rows already certified for the month, as `validate_existing_rows` judges them. */
  datatype Prior = Prior(count: nat, passed: bool, hash: string)

  datatype Ingested = Ingested(certified: bool, batch: Option<string>, total: nat, accepted: nat,
                               rejection: Option<string>)

  /** Everything one call of `process_month` meets outside: whether each of its two transactions
      commits, the provider's answers (numbers of rows), the calendar, the stored rows, the writer. */
  datatype World = World(startCommits: bool, endCommits: bool, fetch: Provider<nat>, expected: nat, prior: Prior,
                         ingest: Result<Ingested, string>, startedAt: int, endedAt: int)

  datatype Outcome = Outcome(status: Status, existing: bool, rows: nat, attempts: nat)

  function Decision(prior: Prior, expected: nat): Status {
    if !prior.passed then ValidationFailed else if prior.count != expected then ReviewRequired else Certified
  }

  /** The attempts a fetch takes: up to the first answer, or all of them. */
  function AttemptsFrom(fetch: Provider<nat>, k: nat): (n: nat)
    requires 1 <= k <= MAX_PROVIDER_ATTEMPTS
    ensures k <= n <= MAX_PROVIDER_ATTEMPTS
    ensures forall i | k <= i < n :: fetch(i).Failure?
    ensures n == MAX_PROVIDER_ATTEMPTS || fetch(n).Success?
    decreases MAX_PROVIDER_ATTEMPTS - k
  {
    if k == MAX_PROVIDER_ATTEMPTS || fetch(k).Success? then k else AttemptsFrom(fetch, k + 1)
  }

  function Attempts(w: World): nat { AttemptsFrom(w.fetch, 1) }

  function Fetched(w: World): Result<nat, string> { w.fetch(Attempts(w)) }

  /** What the second transaction reports. */
  function Finished(w: World): Report {
    var n := Attempts(w);
    match Fetched(w)
    case Failure(e) => Report(FetchFailed, None, 0, 0, Some("RetryExhaustedError"), Some(e), n, None)
    case Success(rows) =>
      if w.prior.count > 0 then
        var status := Decision(w.prior, w.expected);
        if status == Certified then Report(status, None, rows, w.prior.count, None, None, n, Some(w.prior.hash))
        else Report(status, None, rows, 0, Some("ExistingDataValidation"), Some("detail"), n, Some(w.prior.hash))
      else if rows == 0 then
        Report(ValidationFailed, None, 0, 0, Some("ValueError"), Some("no rows"), n, None)
      else match w.ingest
        case Failure(e) => Report(WriteFailed, None, 0, 0, Some("WriteError"), Some(e), n, None)
        case Success(i) =>
          Report(if i.certified then Certified else ValidationFailed, i.batch, i.total, i.accepted,
                 if i.certified then None else Some("CertificationRejected"), i.rejection, n, None)
  }

  predicate Normal(w: World) { w.startCommits && w.endCommits }

  /** The table after one call of `process_month`. */
  function MonthStep(rows: map<Key, Row>, key: Key, w: World): map<Key, Row> {
    if !w.startCommits then rows
    else
      var started := rows[key := Upserted(At(rows, key), STARTED, w.startedAt)];
      if !w.endCommits then started
      else started[key := Upserted(Some(started[key]), Finished(w), w.endedAt)]
  }

  datatype RunStatus = RunRunning | RunReviewRequired

  /** The fields `assert_run_binding` compares, in declaration order. */
  datatype Binding = Binding(datasetId: string, manifestHash: string, primary: string, secondary: string,
                             dateFrom: Date, dateTo: Date, period: string, adjustment: string,
                             importer: string, normalizer: string, schema: string)

  datatype BindingField =
    | DatasetId | ManifestHash | PrimaryProvider | SecondaryProvider | DateFrom | DateTo | Period | Adjustment
    | ImporterVersion | NormalizerVersion | SchemaVersion

  datatype Run = Run(binding: Binding, status: RunStatus, failureReason: Option<string>)

  function Unless(same: bool, f: BindingField): (fields: seq<BindingField>)
    ensures fields == [] <==> same
    ensures forall g :: g in fields <==> g == f && !same
  {
    if same then [] else [f]
  }

  function Mismatches(stored: Binding, requested: Binding): (fields: seq<BindingField>)
    ensures fields == [] <==> stored == requested
  {
    SourceMismatches(stored, requested) + TermMismatches(stored, requested)
  }

  function SourceMismatches(stored: Binding, requested: Binding): seq<BindingField> {
    Unless(stored.datasetId == requested.datasetId, DatasetId)
    + Unless(stored.manifestHash == requested.manifestHash, ManifestHash)
    + Unless(stored.primary == requested.primary, PrimaryProvider)
    + Unless(stored.secondary == requested.secondary, SecondaryProvider)
    + Unless(stored.dateFrom == requested.dateFrom, DateFrom)
    + Unless(stored.dateTo == requested.dateTo, DateTo)
  }

  function TermMismatches(stored: Binding, requested: Binding): seq<BindingField> {
    Unless(stored.period == requested.period, Period)
    + Unless(stored.adjustment == requested.adjustment, Adjustment)
    + Unless(stored.importer == requested.importer, ImporterVersion)
    + Unless(stored.normalizer == requested.normalizer, NormalizerVersion)
    + Unless(stored.schema == requested.schema, SchemaVersion)
  }

  lemma SourceMismatch(stored: Binding, requested: Binding, f: BindingField)
    ensures f in SourceMismatches(stored, requested) <==>
      || (f == DatasetId && stored.datasetId != requested.datasetId)
      || (f == ManifestHash && stored.manifestHash != requested.manifestHash)
      || (f == PrimaryProvider && stored.primary != requested.primary)
      || (f == SecondaryProvider && stored.secondary != requested.secondary)
      || (f == DateFrom && stored.dateFrom != requested.dateFrom)
      || (f == DateTo && stored.dateTo != requested.dateTo)
  {
  }

  lemma TermMismatch(stored: Binding, requested: Binding, f: BindingField)
    ensures f in TermMismatches(stored, requested) <==>
      || (f == Period && stored.period != requested.period)
      || (f == Adjustment && stored.adjustment != requested.adjustment)
      || (f == ImporterVersion && stored.importer != requested.importer)
      || (f == NormalizerVersion && stored.normalizer != requested.normalizer)
      || (f == SchemaVersion && stored.schema != requested.schema)
  {
  }

  /** A refusal names exactly the fields that differ. */
  lemma MismatchesExact(stored: Binding, requested: Binding, f: BindingField)
    ensures f in Mismatches(stored, requested) <==>
      match f
      case DatasetId => stored.datasetId != requested.datasetId
      case ManifestHash => stored.manifestHash != requested.manifestHash
      case PrimaryProvider => stored.primary != requested.primary
      case SecondaryProvider => stored.secondary != requested.secondary
      case DateFrom => stored.dateFrom != requested.dateFrom
      case DateTo => stored.dateTo != requested.dateTo
      case Period => stored.period != requested.period
      case Adjustment => stored.adjustment != requested.adjustment
      case ImporterVersion => stored.importer != requested.importer
      case NormalizerVersion => stored.normalizer != requested.normalizer
      case SchemaVersion => stored.schema != requested.schema
  {
    SourceMismatch(stored, requested, f);
    TermMismatch(stored, requested, f);
  }

  /** One run id: its row in the runs table and its checkpoints. */
  class ImportRun {
    var run: Option<Run>
    var rows: map<Key, Row>

    constructor ()
      ensures run == None && rows == map[]
    {
      run, rows := None, map[];
    }

    /** Creates the run, re-opens one with the same definition, or refuses and changes nothing. */
    method BindRun(binding: Binding) returns (created: Result<bool, seq<BindingField>>)
      modifies this`run
      ensures old(run).None? ==> created == Success(true) && run == Some(Run(binding, RunRunning, None))
      ensures old(run).Some? && old(run).value.binding == binding ==>
        created == Success(false) && run == Some(Run(binding, RunRunning, None))
      ensures old(run).Some? && old(run).value.binding != binding ==>
        created == Failure(Mismatches(old(run).value.binding, binding)) && run == old(run)
    {
      match run {
        case None =>
          run := Some(Run(binding, RunRunning, None));
          created := Success(true);
        case Some(existing) =>
          var mismatches := Mismatches(existing.binding, binding);
          if mismatches != [] {
            return Failure(mismatches);
          }
          run := Some(existing.(status := RunRunning, failureReason := None));
          created := Success(false);
      }
    }

    /** The update at the end of `run`. */
    method Complete(reason: string)
      modifies this`run
      ensures run == if old(run).None? then None
                     else Some(Run(old(run).value.binding, RunReviewRequired, Some(reason)))
    {
      match run {
        case None =>
        case Some(existing) => run := Some(existing.(status := RunReviewRequired, failureReason := Some(reason)));
      }
    }

    method Checkpoint(key: Key, r: Report, now: int)
      modifies this`rows
      ensures rows == old(rows)[key := Upserted(At(old(rows), key), r, now)]
    {
      if key in rows {
        var was := rows[key];
        rows := rows[key := Row(
          Coalesce(r.batch, was.batch), r.status, was.attempts + r.attempts, r.fetched, r.certified,
          r.errorType, r.errorReason, if r.attempts > 0 then Some(now) else was.lastAttempt, r.validationHash, now)];
      } else {
        rows := rows[key := Row(
          r.batch, r.status, r.attempts, r.fetched, r.certified, r.errorType, r.errorReason,
          if r.attempts > 0 then Some(now) else None, r.validationHash, now)];
      }
    }

    /** Fails, as the source raises, exactly when a transaction does not commit; otherwise the returned
        status is the stored one and no longer `running`. */
    method ProcessMonth(key: Key, w: World) returns (outcome: Result<Outcome, string>)
      modifies this`rows
      ensures rows == MonthStep(old(rows), key, w)
      ensures outcome.Success? <==> Normal(w)
      ensures outcome.Success? ==> key in rows && outcome.value.status == rows[key].status != Running
      ensures outcome.Success? ==> 1 <= outcome.value.attempts == Attempts(w) <= MAX_PROVIDER_ATTEMPTS
      ensures outcome.Success? ==> (outcome.value.existing <==> Fetched(w).Success? && w.prior.count > 0)
      ensures outcome.Success? ==>
        outcome.value.rows == if outcome.value.existing then w.prior.count else rows[key].certified
    {
      if !w.startCommits {
        return Failure("database");
      }
      Checkpoint(key, STARTED, w.startedAt);
      label began:
      var fetched, _ := Retry(w.fetch, MAX_PROVIDER_ATTEMPTS, 1);
      match fetched {
        case Failure(e) =>
          assert e.Exhausted? && Attempts(w) == e.attempts;
          outcome := Finish(key, w, Report(FetchFailed, None, 0, 0, Some("RetryExhaustedError"), Some(e.lastError),
                                           e.attempts, None), false, 0);
        case Success((count, attempts)) =>
          assert Attempts(w) == attempts;
          if w.prior.count > 0 {
            var status := Decision(w.prior, w.expected);
            var certified := status == Certified;
            outcome := Finish(key, w, Report(status, None, count, if certified then w.prior.count else 0,
                                             if certified then None else Some("ExistingDataValidation"),
                                             if certified then None else Some("detail"),
                                             attempts, Some(w.prior.hash)), true, w.prior.count);
          } else if count == 0 {
            outcome := Finish(key, w, Report(ValidationFailed, None, 0, 0, Some("ValueError"), Some("no rows"),
                                             attempts, None), false, 0);
          } else {
            match w.ingest {
              case Failure(e) =>
                outcome := Finish(key, w, Report(WriteFailed, None, 0, 0, Some("WriteError"), Some(e),
                                                 attempts, None), false, 0);
              case Success(i) =>
                outcome := Finish(key, w, Report(if i.certified then Certified else ValidationFailed, i.batch,
                                                 i.total, i.accepted,
                                                 if i.certified then None else Some("CertificationRejected"),
                                                 i.rejection, attempts, None), false, i.accepted);
            }
          }
      }
    }

    /** The checkpoint of the second transaction, lost when that does not commit. */
    method Finish(key: Key, w: World, r: Report, existing: bool, count: nat) returns (outcome: Result<Outcome, string>)
      requires key in rows
      modifies this`rows
      ensures rows == if w.endCommits then old(rows)[key := Upserted(Some(old(rows)[key]), r, w.endedAt)] else old(rows)
      ensures outcome == if w.endCommits then Success(Outcome(r.status, existing, count, r.attempts))
                         else Failure("database")
    {
      if !w.endCommits {
        return Failure("database");
      }
      Checkpoint(key, r, w.endedAt);
      outcome := Success(Outcome(r.status, existing, count, r.attempts));
    }
  }

  // ----- Histories -----

  datatype Call = Call(key: Key, world: World)

  /** The table after a history of `process_month` calls, starting empty. */
  function Table(calls: seq<Call>): map<Key, Row> {
    if calls == [] then map[]
    else
      var last := calls[|calls| - 1];
      MonthStep(Table(calls[..|calls| - 1]), last.key, last.world)
  }

  /** The attempts that normal returns reported for a key. */
  function Reported(calls: seq<Call>, key: Key): nat {
    if calls == [] then 0
    else
      var last := calls[|calls| - 1];
      Reported(calls[..|calls| - 1], key)
      + if last.key == key && Normal(last.world) then Attempts(last.world) else 0
  }

  /** The batch of the last normal return that had one. */
  function LastBatch(calls: seq<Call>, key: Key): Option<string> {
    if calls == [] then None
    else
      var last := calls[|calls| - 1];
      if last.key == key && Normal(last.world) && Finished(last.world).batch.Some? then Finished(last.world).batch
      else LastBatch(calls[..|calls| - 1], key)
  }

  /** The last call for a key that got as far as its first commit. */
  function LastStarted(calls: seq<Call>, key: Key): Option<World> {
    if calls == [] then None
    else
      var last := calls[|calls| - 1];
      if last.key == key && last.world.startCommits then Some(last.world)
      else LastStarted(calls[..|calls| - 1], key)
  }

  /** When the last normal return for a key was. */
  function LastNormal(calls: seq<Call>, key: Key): Option<int> {
    if calls == [] then None
    else
      var last := calls[|calls| - 1];
      if last.key == key && Normal(last.world) then Some(last.world.endedAt)
      else LastNormal(calls[..|calls| - 1], key)
  }

  /** Whatever the calls, their order and their failures: the row of a key sums the attempts of all
      normal returns, keeps the last batch, and is `running` exactly while the last started call has
      not returned normally. */
  lemma {:induction false} CheckpointHistory(calls: seq<Call>, key: Key)
    ensures key in Table(calls) <==> LastStarted(calls, key).Some?
    ensures key in Table(calls) ==>
      var row, last := Table(calls)[key], LastStarted(calls, key).value;
      && row.attempts == Reported(calls, key)
      && row.batch == LastBatch(calls, key)
      && row.lastAttempt == LastNormal(calls, key)
      && (row.status == Running <==> !last.endCommits)
      && row.status == (if last.endCommits then Finished(last).status else Running)
      && row.certified == (if last.endCommits then Finished(last).certified else 0)
      && row.validationHash == (if last.endCommits then Finished(last).validationHash else None)
      && row.fetched == (if last.endCommits then Finished(last).fetched else 0)
      && row.errorType == (if last.endCommits then Finished(last).errorType else None)
      && row.errorReason == (if last.endCommits then Finished(last).errorReason else None)
      && row.updated == (if last.endCommits then last.endedAt else last.startedAt)
    ensures key !in Table(calls) ==>
      Reported(calls, key) == 0 && LastBatch(calls, key) == None && LastNormal(calls, key) == None
  {
    if calls != [] {
      CheckpointHistory(calls[..|calls| - 1], key);
      FinishedNotRunning(calls[|calls| - 1].world);
    }
  }

  lemma FinishedNotRunning(w: World)
    ensures Finished(w).status != Running && Finished(w).attempts == Attempts(w) > 0
  {
  }

  /** What each status of a month means. It ends `certified` exactly when the provider answered and either the
      stored rows match it and cover the calendar, or nothing was stored, it sent rows and the writer certified
      them. */
  lemma StatusIff(w: World)
    ensures Finished(w).status == Certified <==>
      && (exists k :: 1 <= k <= 3 && w.fetch(k).Success?)
      && (if w.prior.count > 0 then w.prior.passed && w.prior.count == w.expected
          else Fetched(w).Success? && Fetched(w).value > 0 && w.ingest.Success? && w.ingest.value.certified)
    ensures Finished(w).status == FetchFailed <==> forall k | 1 <= k <= 3 :: w.fetch(k).Failure?
    ensures Finished(w).status == ReviewRequired <==>
      Fetched(w).Success? && w.prior.count > 0 && w.prior.passed && w.prior.count != w.expected
    ensures Finished(w).status == WriteFailed <==>
      Fetched(w).Success? && Fetched(w).value > 0 && w.prior.count == 0 && w.ingest.Failure?
    ensures Finished(w).status == Certified <==> Finished(w).errorType == None
    ensures Finished(w).validationHash.Some? <==> Fetched(w).Success? && w.prior.count > 0
  {
    if exists k :: 1 <= k <= 3 && w.fetch(k).Success? {
      var k :| 1 <= k <= 3 && w.fetch(k).Success?;
      assert Fetched(w).Success?;
    }
  }

  /** What a month's report counts. The answer that counts is the provider's first, or its third failure; rows already
      stored are counted as certified only when they are, and the writer's own counts are taken as they are. */
  lemma ReportedCounts(w: World)
    ensures var r, n := Finished(w), Attempts(w);
      && 1 <= r.attempts == n <= 3 && (forall k | 1 <= k < n :: w.fetch(k).Failure?) && (n < 3 ==> w.fetch(n).Success?)
      && (if w.fetch(n).Failure? then
            r.fetched == r.certified == 0 && r.batch == None && r.errorReason == Some(w.fetch(n).error)
          else if w.prior.count > 0 then
            && r.fetched == w.fetch(n).value && r.batch == None && r.validationHash == Some(w.prior.hash)
            && r.certified == (if w.prior.passed && w.prior.count == w.expected then w.prior.count else 0)
          else if w.fetch(n).value > 0 && w.ingest.Success? then
            && r.fetched == w.ingest.value.total && r.certified == w.ingest.value.accepted
            && r.batch == w.ingest.value.batch && r.errorReason == w.ingest.value.rejection
          else
            && r.fetched == r.certified == 0 && r.batch == None
            && (w.fetch(n).value > 0 ==> r.errorReason == Some(w.ingest.error)))
  {
  }

  /** A replay of a certified month fetches again and adds its attempts, but keeps batch and verdict. */
  lemma CertifiedReplay(calls: seq<Call>, key: Key, w: World)
    requires key in Table(calls) && Table(calls)[key].status == Certified
    requires Normal(w) && Fetched(w).Success? && w.prior.passed && w.prior.count == w.expected > 0
    ensures var row, was := Table(calls + [Call(key, w)])[key], Table(calls)[key];
      && row.status == Certified && row.batch == was.batch
      && row.certified == w.expected && row.attempts == was.attempts + Attempts(w)
  {
    assert (calls + [Call(key, w)])[..|calls|] == calls;
  }

  // ----- Histories over the stored rows -----

  /** The call that stores a month's rows: the writer certified them and the transaction they share with the
      checkpoint committed. */
  predicate Stores(w: World) {
    && Normal(w) && Fetched(w).Success? && Fetched(w).value > 0 && w.prior.count == 0
    && w.ingest.Success? && w.ingest.value.certified
  }

  /** How many rows of a key a history has stored. */
  function StoredRows(calls: seq<Call>, key: Key): nat {
    if calls == [] then 0
    else
      var last := calls[|calls| - 1];
      if last.key == key && Stores(last.world) then last.world.ingest.value.accepted
      else StoredRows(calls[..|calls| - 1], key)
  }

  /** Every call finds the rows the calls before it stored, and a certified write stores every row it was given. */
  ghost predicate Coherent(calls: seq<Call>) {
    forall n | 0 <= n < |calls| ::
      && calls[n].world.prior.count == StoredRows(calls[..n], calls[n].key)
      && (Stores(calls[n].world) ==> calls[n].world.ingest.value.accepted == Fetched(calls[n].world).value)
  }

  lemma CoherentPrefix(calls: seq<Call>, k: nat)
    requires Coherent(calls) && k <= |calls|
    ensures Coherent(calls[..k])
  {
    forall n | 0 <= n < k
      ensures calls[..k][n].world.prior.count == StoredRows(calls[..k][..n], calls[..k][n].key)
      ensures Stores(calls[..k][n].world) ==>
        calls[..k][n].world.ingest.value.accepted == Fetched(calls[..k][n].world).value
    {
      assert calls[..k][..n] == calls[..n] && calls[..k][n] == calls[n];
    }
  }

  /** A month's rows are written at most once: whatever happens later, they stay as many. */
  lemma {:induction false} StoredOnce(calls: seq<Call>, key: Key, k: nat)
    requires Coherent(calls) && k <= |calls| && StoredRows(calls[..k], key) > 0
    ensures StoredRows(calls, key) == StoredRows(calls[..k], key)
    decreases |calls|
  {
    if k == |calls| {
      assert calls[..k] == calls;
    } else {
      var n := |calls| - 1;
      CoherentPrefix(calls, n);
      assert calls[..n][..k] == calls[..k];
      StoredOnce(calls[..n], key, k);
      if calls[n].key == key {
        assert calls[n].world.prior.count == StoredRows(calls[..n], key);
        assert !Stores(calls[n].world);
      }
    }
  }

  /** A month whose checkpoint says `certified` has rows in the store. */
  lemma {:induction false} CertifiedIsStored(calls: seq<Call>, key: Key)
    requires Coherent(calls) && key in Table(calls) && Table(calls)[key].status == Certified
    ensures StoredRows(calls, key) > 0
  {
    var n := |calls| - 1;
    var w := calls[n].world;
    if calls[n].key == key && w.startCommits {
      assert w.endCommits && Finished(w).status == Certified;
      if !Stores(w) {
        assert w.prior.count > 0;
      }
    } else {
      CoherentPrefix(calls, n);
      CertifiedIsStored(calls[..n], key);
    }
  }

  /** What a replay makes of a month that was certified at any earlier point k of a history: with an answer from the
      provider it is `certified` exactly when the stored rows still match and are as many as the month's trading
      days, and `review_required` when they match but are not; without an answer it becomes `fetch_failed`. The
      rows themselves are those of point k. */
  lemma ReplayOverHistory(calls: seq<Call>, key: Key, k: nat, w: World)
    requires Coherent(calls + [Call(key, w)]) && Normal(w)
    requires k <= |calls| && key in Table(calls[..k]) && Table(calls[..k])[key].status == Certified
    ensures StoredRows(calls, key) == StoredRows(calls[..k], key) > 0
    ensures var status := Table(calls + [Call(key, w)])[key].status;
      && (status == Certified <==>
            Fetched(w).Success? && w.prior.passed && StoredRows(calls[..k], key) == w.expected)
      && (status == ReviewRequired <==>
            Fetched(w).Success? && w.prior.passed && StoredRows(calls[..k], key) != w.expected)
      && (status == ValidationFailed <==> Fetched(w).Success? && !w.prior.passed)
      && (status == FetchFailed <==> Fetched(w).Failure?)
  {
    var more := calls + [Call(key, w)];
    assert more[..|calls|] == calls && more[|calls|] == Call(key, w);
    CoherentPrefix(more, |calls|);
    CoherentPrefix(calls, k);
    CertifiedIsStored(calls[..k], key);
    StoredOnce(calls, key, k);
  }

  /** The writer checks the calendar only between the first and the last row it is given. A month whose rows start
      late is certified by the first run and `review_required` in an identical second one. */
  lemma LateStartExample(key: Key) returns (first: World, again: World)
    ensures Coherent([Call(key, first), Call(key, again)])
    ensures key in Table([Call(key, first)]) && Table([Call(key, first)])[key].status == Certified
    ensures again == first.(prior := again.prior) && again.prior.passed
    ensures var table := Table([Call(key, first), Call(key, again)]);
      key in table && table[key].status == ReviewRequired
  {
    first := World(true, true, _ => Success(20), 22, Prior(0, false, ""),
                   Success(Ingested(true, Some("b"), 20, 20, None)), 1, 2);
    again := first.(prior := Prior(20, true, "h"));
    var calls := [Call(key, first), Call(key, again)];
    assert calls[..0] == [] && calls[..1] == [Call(key, first)];
    assert Fetched(first) == Success(20) && Stores(first);
    assert StoredRows(calls[..1], key) == 20;
  }

  // ----- The binding -----

  datatype RunCall = Bind(binding: Binding) | Complete(reason: string)

  /** The runs row after one call, as `BindRun` and `Complete` leave it. */
  function RunStep(run: Option<Run>, call: RunCall): Option<Run> {
    match call
    case Bind(b) =>
      if run.None? || run.value.binding == b then Some(Run(b, RunRunning, None)) else run
    case Complete(reason) =>
      if run.None? then None else Some(Run(run.value.binding, RunReviewRequired, Some(reason)))
  }

  function RunAfter(calls: seq<RunCall>): Option<Run> {
    if calls == [] then None else RunStep(RunAfter(calls[..|calls| - 1]), calls[|calls| - 1])
  }

  /** A run keeps the definition it was first bound to. */
  lemma {:induction false} BindingNeverChanges(calls: seq<RunCall>, k: nat)
    requires k <= |calls| && RunAfter(calls[..k]).Some?
    ensures RunAfter(calls).Some? && RunAfter(calls).value.binding == RunAfter(calls[..k]).value.binding
  {
    if k == |calls| {
      assert calls[..k] == calls;
    } else {
      var before := calls[..|calls| - 1];
      assert before[..k] == calls[..k];
      BindingNeverChanges(before, k);
    }
  }

  /** The runs of the class methods are those of `RunStep`. */
  method Rebind(table: ImportRun, call: RunCall) returns (refused: bool)
    modifies table`run
    ensures table.run == RunStep(old(table.run), call)
    ensures refused <==> call.Bind? && old(table.run).Some? && old(table.run).value.binding != call.binding
  {
    refused := false;
    match call {
      case Bind(b) =>
        var created := table.BindRun(b);
        refused := created.Failure?;
      case Complete(reason) => table.Complete(reason);
    }
  }
}
