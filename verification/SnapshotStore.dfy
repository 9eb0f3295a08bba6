/** Local snapshots of financial reports (worker/services/financial_report_snapshot_store.py): files in the
    snapshot directory and rows in the table of migration 023, kept in agreement without a common
    transaction. Calls follow one another; between them the directory may change in any way. */
module SnapshotStore {
  import opened Common
  import opened PageText

  type Bytes = seq<bv8>

  type Hash = Digest<Bytes>

  /** `{document id}_{hash}.pdf`, whose two parts can be read off the name, or a temporary file. */
  datatype FileName = Target(document: string, hash: Hash) | Temporary(number: nat)

  type Files = map<FileName, Bytes>

  /** The fixed evidence a snapshot is taken of. */
  datatype Candidate = Candidate(document: string, expectedHash: Hash, expectedBytes: nat)

  /** What the insert trigger of migration 023 finds: whether the evidence is one of the fixed ones, its
      observed report, and whether the cited review is the one for local storage. */
  datatype Registry = Registry(fixed: bool, report: Option<(Hash, nat)>, reviewed: bool)

  datatype Status = Observed | HashMismatch | FetchFailed | ValidationFailed | WriteFailed

  datatype Row = Row(id: nat, evidence: int, expectedHash: Hash, observedHash: Option<Hash>, expectedBytes: nat,
                     observedBytes: Option<nat>, isPdf: bool, storage: Option<FileName>, status: Status,
                     failure: Option<string>, fetchedAt: Option<int>, storedAt: Option<int>)

  /** How an attempt to write the file ends. */
  datatype DiskFault = DiskOk | NoDirectory | NoTemporary | PartialWrite(written: nat) | SyncFails | ReplaceFails

  /** How the insert ends: committed and answered, rolled back, or committed with the answer lost. */
  datatype DbFault = DbOk | RolledBack | AnswerLost

  const PDF_MAGIC: Bytes := [0x25, 0x50, 0x44, 0x46, 0x2D]

  predicate IsPdf(b: Bytes) { PDF_MAGIC <= b }

  /** The document a candidate's hash and length stand for, when it is a PDF. */
  predicate ValidDocument(c: Candidate, b: Bytes) {
    IsPdf(b) && Sha256(b) == c.expectedHash && |b| == c.expectedBytes
  }

  /** `Path(storage_key).name == storage_key`. */
  predicate PlainName(document: string) { '/' !in document }

  method ValidatePdfResponse(c: Candidate, b: Bytes, typeIsPdf: bool) returns (r: Result<(Hash, nat), Status>)
    ensures r.Success? <==> ValidDocument(c, b) && typeIsPdf
    ensures r.Success? ==> r.value == (c.expectedHash, c.expectedBytes) == (Sha256(b), |b|)
    ensures var starts := |b| >= 5 && b[..5] == [0x25, 0x50, 0x44, 0x46, 0x2D];
      && (r.Success? <==> starts && typeIsPdf && Sha256(b) == c.expectedHash && |b| == c.expectedBytes)
      && (r == Failure(ValidationFailed) <==> !starts || !typeIsPdf)
      && (r.Failure? ==> r.error == ValidationFailed || r.error == HashMismatch)
  {
    if b == [] || !IsPdf(b) || !typeIsPdf {
      return Failure(ValidationFailed);
    }
    if Sha256(b) != c.expectedHash || |b| != c.expectedBytes {
      return Failure(HashMismatch);
    }
    r := Success((Sha256(b), |b|));
  }

  // ----- Tables and files -----

  const MAX_KEY: nat := 500

  /** An underscore, 64 hexadecimal digits and ".pdf". */
  const KEY_TAIL: nat := 69

  function WithoutLeadingSpaces(s: string): string {
    if s != [] && s[0] == ' ' then WithoutLeadingSpaces(s[1..]) else s
  }

  /** `char_length(btrim(storage_key))`: a key ends in "pdf", so only its document part can lose spaces. */
  function KeyLength(document: string): nat { |WithoutLeadingSpaces(document)| + KEY_TAIL }

  /** ck_financial_snapshot_status_fields, with the column checks. */
  predicate RowCheck(r: Row) {
    && r.expectedBytes > 0 && (r.observedBytes.Some? ==> r.observedBytes.value > 0)
    && if r.status == Observed
       then r.observedHash == Some(r.expectedHash) && r.observedBytes == Some(r.expectedBytes) && r.isPdf
            && r.storage.Some? && r.storage.value.Target? && KeyLength(r.storage.value.document) <= MAX_KEY
            && r.fetchedAt.Some? && r.storedAt.Some? && r.failure == None
       else r.storage == None && r.storedAt == None && r.failure.Some? && 1 <= |Trim(r.failure.value)| <= 2000
  }

  /** The insert trigger. */
  predicate Admits(registry: Registry, expectedHash: Hash, expectedBytes: nat) {
    registry.fixed && registry.report == Some((expectedHash, expectedBytes)) && registry.reviewed
  }

  predicate SameObserved(a: Row, b: Row) {
    a.status == Observed && b.status == Observed && a.evidence == b.evidence && a.expectedHash == b.expectedHash
  }

  /** uq_financial_report_snapshot_observed. */
  ghost predicate UniqueObserved(rows: seq<Row>) {
    forall i, j | 0 <= i < j < |rows| :: !SameObserved(rows[i], rows[j])
  }

  /** The row's file exists and has the row's hash and length. */
  predicate RowBacked(r: Row, files: Files) {
    r.status == Observed ==>
      (r.storage.Some? && r.storage.value in files
       && Some(Sha256(files[r.storage.value])) == r.observedHash && Some(|files[r.storage.value]|) == r.observedBytes)
  }

  ghost predicate Backed(rows: seq<Row>, files: Files) { forall r | r in rows :: RowBacked(r, files) }

  predicate SameTargets(a: Files, b: Files) {
    && (forall f | f in a && f.Target? :: f in b && b[f] == a[f])
    && forall f | f in b && f.Target? :: f in a
  }

  /** b is a with at most the target f added, complete with content. */
  predicate AtMostAdds(a: Files, b: Files, f: FileName, content: Bytes) {
    && (forall g | g in a && g.Target? :: g in b && b[g] == a[g])
    && forall g | g in b && g.Target? && g !in a :: g == f && b[g] == content
  }

  /** What an observed row must be about: the right file of a candidate that has a valid document. */
  predicate AboutCandidate(r: Row, c: Candidate) {
    r.expectedHash == c.expectedHash && r.expectedBytes == c.expectedBytes
    && (r.status == Observed ==>
         (r.storage == Some(Target(c.document, c.expectedHash)) && ValidDocument(c, c.expectedHash.preimage)))
  }

  /** Whether `write_snapshot_atomically` returns: an existing target must hold the same bytes. */
  predicate Writable(document: string, hash: Hash, content: Bytes, disk: DiskFault, files: Files) {
    && PlainName(document) && disk != NoDirectory
    && var target := Target(document, hash);
       if target in files then files[target] == content else disk == DiskOk
  }

  /** The response is the candidate's document and finds its place in the directory. */
  predicate Placeable(c: Candidate, content: Bytes, typeIsPdf: bool, disk: DiskFault, files: Files) {
    ValidDocument(c, content) && typeIsPdf && Writable(c.document, c.expectedHash, content, disk, files)
  }

  /** The constraints and the trigger admit the observed row of a candidate. */
  predicate Recordable(c: Candidate, registry: Registry) {
    KeyLength(c.document) <= MAX_KEY && Admits(registry, c.expectedHash, c.expectedBytes)
  }

  /** The calls after which a row stands without its file: this call creates the file, its row is
      committed, and the answer is lost, so that the file is taken back. */
  predicate LosesFile(c: Candidate, content: Bytes, typeIsPdf: bool, disk: DiskFault, registry: Registry, db: DbFault,
                      files: Files) {
    && Placeable(c, content, typeIsPdf, disk, files) && Target(c.document, c.expectedHash) !in files
    && Recordable(c, registry) && db == AnswerLost
  }

  function ObservedRow(id: nat, evidence: int, c: Candidate, fetchedAt: int, storedAt: int): Row {
    Row(id, evidence, c.expectedHash, Some(c.expectedHash), c.expectedBytes, Some(c.expectedBytes), true,
        Some(Target(c.document, c.expectedHash)), Observed, None, Some(fetchedAt), Some(storedAt))
  }

  /** What an attempt that failed reports. */
  datatype Attempt = Attempt(status: Status, failure: string, fetchedAt: Option<int>, observedHash: Option<Hash>,
                             observedBytes: Option<nat>, isPdf: bool)

  function FailureRow(id: nat, evidence: int, c: Candidate, a: Attempt): Row {
    var reason := Strip(a.failure);
    Row(id, evidence, c.expectedHash, a.observedHash, c.expectedBytes, a.observedBytes, a.isPdf, None, a.status,
        Some(if |reason| <= 2000 then reason else reason[..2000]), a.fetchedAt, None)
  }

  /** An attempt the table takes: some visible reason, and byte counts that are positive. */
  predicate Reportable(c: Candidate, a: Attempt) {
    && a.status != Observed && Strip(a.failure) != "" && c.expectedBytes > 0
    && (a.observedBytes.Some? ==> a.observedBytes.value > 0)
  }

  /** The key's document part loses its leading spaces, and nothing else. */
  lemma {:induction false} KeyLengthExact(document: string) returns (n: nat)
    ensures n <= |document| && (forall i | 0 <= i < n :: document[i] == ' ')
    ensures n < |document| ==> document[n] != ' '
    ensures KeyLength(document) == |document| - n + 69
  {
    if document != [] && document[0] == ' ' {
      n := KeyLengthExact(document[1..]);
      n := n + 1;
    } else {
      n := 0;
    }
  }

  /** A response finds its place exactly when it is the PDF the candidate's hash and length stand for, comes as one,
      the name is a plain one, and the directory can be made and either has these bytes under that name or none, and
      takes them. */
  lemma PlaceableIff(c: Candidate, content: Bytes, typeIsPdf: bool, disk: DiskFault, files: Files)
    ensures Placeable(c, content, typeIsPdf, disk, files) <==>
      && |content| >= 5 && content[..5] == [0x25, 0x50, 0x44, 0x46, 0x2D] && typeIsPdf
      && Sha256(content) == c.expectedHash && |content| == c.expectedBytes
      && '/' !in c.document && disk != NoDirectory
      && (if Target(c.document, c.expectedHash) in files then files[Target(c.document, c.expectedHash)] == content
          else disk == DiskOk)
  {
    assert PDF_MAGIC <= content <==> |content| >= 5 && content[..5] == [0x25, 0x50, 0x44, 0x46, 0x2D];
  }

  lemma RecordableIff(c: Candidate, registry: Registry)
    ensures Recordable(c, registry) <==>
      && registry.fixed && registry.report == Some((c.expectedHash, c.expectedBytes)) && registry.reviewed
      && KeyLength(c.document) <= 500
  {
  }

  lemma ReportableIff(id: nat, evidence: int, c: Candidate, a: Attempt)
    ensures a.status != Observed ==> (RowCheck(FailureRow(id, evidence, c, a)) <==> Reportable(c, a))
  {
    var reason := FailureRow(id, evidence, c, a).failure.value;
    StripTrims(a.failure);
    if Strip(a.failure) != "" {
      assert reason[0] == Strip(a.failure)[0];
      TrimNotEmpty(reason, 0);
    }
  }

  class Store {
    const catalog: int -> Candidate
    var files: Files
    var rows: seq<Row>
    var nextNumber: nat            // fresh row ids and temporary names
    ghost var seen: seq<Files>     // the directory after every single file operation

    constructor (catalog: int -> Candidate)
      ensures this.catalog == catalog && Valid() && files == map[] && rows == []
    {
      this.catalog := catalog;
      files, rows, nextNumber, seen := map[], [], 0, [];
    }

    ghost predicate Valid()
      reads this
    {
      && UniqueObserved(rows)
      && (forall r | r in rows :: RowCheck(r) && AboutCandidate(r, catalog(r.evidence)))
      && forall n: nat | Temporary(n) in files :: n < nextNumber
    }

    /** Every single operation is followed by a look at the directory. */
    method Put(f: FileName, content: Bytes)
      modifies this`files, this`seen
      ensures files == old(files)[f := content] && seen == old(seen) + [files]
    {
      files := files[f := content];
      seen := seen + [files];
    }

    method Rename(f: FileName, g: FileName)
      requires f in files && f != g
      modifies this`files, this`seen
      ensures files == (old(files) - {f})[g := old(files)[f]] && seen == old(seen) + [files]
    {
      files := (files - {f})[g := files[f]];
      seen := seen + [files];
    }

    method Unlink(f: FileName)
      modifies this`files, this`seen
      ensures files == old(files) - {f} && seen == old(seen) + [files]
    {
      files := files - {f};
      seen := seen + [files];
    }

    /** Whatever fails and whatever the directory holds, after every file operation the target is what it
        was, or absent before and complete now; on failure the targets are those of before (a temporary
        file may remain), and a target with other bytes is never overwritten. */
    method WriteSnapshotAtomically(document: string, hash: Hash, content: Bytes, fault: DiskFault)
      returns (r: Result<FileName, string>)
      requires Valid()
      modifies this`files, this`seen, this`nextNumber
      ensures Valid() && nextNumber >= old(nextNumber)
      ensures r.Success? <==>
        && '/' !in document && fault != NoDirectory
        && if Target(document, hash) in old(files) then old(files)[Target(document, hash)] == content
           else fault == DiskOk
      ensures r.Failure? ==> SameTargets(old(files), files)
      ensures r.Success? ==> r.value == Target(document, hash) && r.value in files && files[r.value] == content
                             && AtMostAdds(old(files), files, r.value, content)
      ensures |old(seen)| <= |seen| && seen[..|old(seen)|] == old(seen)
      ensures forall i | |old(seen)| <= i < |seen| :: AtMostAdds(old(files), seen[i], Target(document, hash), content)
    {
      if !PlainName(document) {
        return Failure("storage key");
      }
      if fault == NoDirectory {
        return Failure("mkdir");
      }
      var target := Target(document, hash);
      if target in files {
        if files[target] != content {
          return Failure("different bytes");
        }
        return Success(target);
      }
      if fault == NoTemporary {
        return Failure("temporary file");
      }
      var temporary := Temporary(nextNumber);
      nextNumber := nextNumber + 1;
      if fault.PartialWrite? {
        Put(temporary, content[..if fault.written < |content| then fault.written else |content|]);
        return Failure("write");
      }
      Put(temporary, content);
      if fault == SyncFails {
        return Failure("fsync");
      }
      if fault == ReplaceFails {
        Unlink(temporary);
        return Failure("replace");
      }
      Rename(temporary, target);
      r := Success(target);
    }

    /** INSERT .. ON CONFLICT DO NOTHING, and for an observed row the select of the one in its way. */
    method InsertSnapshot(row: Row, registry: Registry, fault: DbFault) returns (r: Result<(nat, bool), string>)
      requires Valid() && AboutCandidate(row, catalog(row.evidence))
      modifies this`rows
      ensures Valid()
      ensures r.Success? <==> RowCheck(row) && Admits(registry, row.expectedHash, row.expectedBytes) && fault == DbOk
      ensures rows == if RowCheck(row) && Admits(registry, row.expectedHash, row.expectedBytes) && fault != RolledBack
                         && !ObservedIn(old(rows), row)
                      then old(rows) + [row] else old(rows)
      ensures r.Success? ==> r.value.1 == !ObservedIn(old(rows), row)
      ensures r.Success? ==> StoredAs(rows, row, r.value.0)
    {
      if !RowCheck(row) || !Admits(registry, row.expectedHash, row.expectedBytes) || fault == RolledBack {
        return Failure("rejected");
      }
      var conflict := false;
      var id := row.id;
      ghost var at := |rows|;
      for i := 0 to |rows|
        invariant conflict <==> exists k | 0 <= k < i :: SameObserved(rows[k], row)
        invariant conflict ==> 0 <= at < i && rows[at].id == id && SameObserved(rows[at], row)
        invariant !conflict ==> id == row.id && at == |rows|
      {
        if SameObserved(rows[i], row) {
          conflict, id, at := true, rows[i].id, i;
        }
      }
      if !conflict {
        rows := rows + [row];
      }
      if fault == AnswerLost {
        return Failure("connection");
      }
      assert rows[at].id == id && (rows[at] == row || SameObserved(rows[at], row));
      r := Success((id, !conflict));
    }

    /** The insert, and the placed file taken back when it raises unless the file was there before. */
    method RecordOrTakeBack(row: Row, content: Bytes, registry: Registry, db: DbFault, existed: bool,
                            ghost before: Files)
      returns (r: Result<(nat, bool), string>)
      requires Valid() && AboutCandidate(row, catalog(row.evidence)) && row.status == Observed
      requires row.storage.value in files && files[row.storage.value] == content && RowBacked(row, files)
      requires AtMostAdds(before, files, row.storage.value, content) && existed == (row.storage.value in before)
      modifies this`files, this`rows, this`seen
      ensures Valid()
      ensures r.Success? <==> RowCheck(row) && Admits(registry, row.expectedHash, row.expectedBytes) && db == DbOk
      ensures rows == if RowCheck(row) && Admits(registry, row.expectedHash, row.expectedBytes) && db != RolledBack
                         && !ObservedIn(old(rows), row)
                      then old(rows) + [row] else old(rows)
      ensures r.Success? ==> r.value.1 == !ObservedIn(old(rows), row) && StoredAs(rows, row, r.value.0)
      ensures r.Success? ==> files == old(files)
      ensures r.Failure? ==> SameTargets(before, files)
      ensures Backed(old(rows), before) ==>
        (Backed(rows, files) <==> r.Success? || existed || rows == old(rows))
    {
      MoreBacked(rows, before, files, row.storage.value, content);
      WrittenBacked(rows, rows + [row], row, files);
      r := InsertSnapshot(row, registry, db);
      if r.Failure? && !existed && row.storage.value in files {
        Unlink(row.storage.value);
        TakenBack(old(rows), rows, row, before, old(files), files, row.storage.value, content);
      }
    }

    /** The observed row of an evidence, there and backed. */
    ghost predicate ObservedBacked(evidence: int)
      reads this
    {
      exists i :: 0 <= i < |rows|
        && rows[i].evidence == evidence && rows[i].status == Observed && RowBacked(rows[i], files)
    }

    /** A validated document is written and recorded. */
    method PlaceAndRecord(row: Row, name: FileName, content: Bytes, disk: DiskFault, registry: Registry, db: DbFault)
      returns (r: Result<(nat, bool), string>)
      requires Valid() && AboutCandidate(row, catalog(row.evidence)) && row.status == Observed
      requires row.storage == Some(name) && name.Target?
      requires row.observedHash == Some(Sha256(content)) && row.observedBytes == Some(|content|)
      modifies this
      ensures Valid()
      ensures r.Success? <==> Writable(name.document, name.hash, content, disk, old(files))
                              && RowCheck(row) && Admits(registry, row.expectedHash, row.expectedBytes) && db == DbOk
      ensures r.Failure? ==> SameTargets(old(files), files)
      ensures r.Success? ==> AtMostAdds(old(files), files, name, content) && ObservedBacked(row.evidence)
      ensures r.Success? ==> r.value.1 == !ObservedIn(old(rows), row) && StoredAs(rows, row, r.value.0)
      ensures rows == if Writable(name.document, name.hash, content, disk, old(files)) && RowCheck(row)
                         && Admits(registry, row.expectedHash, row.expectedBytes) && db != RolledBack
                         && !ObservedIn(old(rows), row)
                      then old(rows) + [row] else old(rows)
      ensures Backed(old(rows), old(files)) ==>
        (Backed(rows, files) <==>
           !(Writable(name.document, name.hash, content, disk, old(files)) && name !in old(files) && RowCheck(row)
             && Admits(registry, row.expectedHash, row.expectedBytes) && db == AnswerLost))
    {
      var existed := name in files;
      var written := WriteSnapshotAtomically(name.document, name.hash, content, disk);
      if written.Failure? {
        KeptBacked(rows, old(files), files);
        return Failure(written.error);
      }
      ObservedHasFile(rows, old(files), row, name);
      r := RecordOrTakeBack(row, content, registry, db, existed, old(files));
    }

    /** File first, row second, and the file taken back when the insert raises. On every failure the targets
        are those of before; on success the row of this evidence is backed by its file. Agreement of files
        and rows is lost by exactly the calls of LosesFile. */
    method PersistObserved(evidence: int, content: Bytes, typeIsPdf: bool, fetchedAt: int, storedAt: int,
                           disk: DiskFault, registry: Registry, db: DbFault)
      returns (r: Result<(nat, bool), string>)
      requires Valid()
      modifies this
      ensures Valid()
      ensures r.Success? <==> Placeable(catalog(evidence), content, typeIsPdf, disk, old(files))
                              && Recordable(catalog(evidence), registry) && db == DbOk
      ensures r.Failure? ==> SameTargets(old(files), files)
      ensures r.Success? ==>
        AtMostAdds(old(files), files, Target(catalog(evidence).document, catalog(evidence).expectedHash), content)
      ensures r.Success? ==> ObservedBacked(evidence)
      ensures var row := ObservedRow(old(nextNumber), evidence, catalog(evidence), fetchedAt, storedAt);
              && (r.Success? ==> r.value.1 == !ObservedIn(old(rows), row) && StoredAs(rows, row, r.value.0))
              && rows == if Placeable(catalog(evidence), content, typeIsPdf, disk, old(files))
                            && Recordable(catalog(evidence), registry) && db != RolledBack
                            && !ObservedIn(old(rows), row)
                         then old(rows) + [row] else old(rows)
      ensures r.Success? ==>
        (r.value.1 <==> !exists k :: 0 <= k < |old(rows)|
                                     && old(rows)[k].evidence == evidence && old(rows)[k].status == Observed)
      ensures |rows| > |old(rows)| ==>
        var row := rows[|old(rows)|];
        && row.id == old(nextNumber) && row.evidence == evidence && row.status == Observed
        && row.fetchedAt == Some(fetchedAt) && row.storedAt == Some(storedAt)
      ensures Backed(old(rows), old(files)) ==>
        (Backed(rows, files) <==>
           !LosesFile(catalog(evidence), content, typeIsPdf, disk, registry, db, old(files)))
    {
      var candidate := catalog(evidence);
      var row := ObservedRow(nextNumber, evidence, candidate, fetchedAt, storedAt);
      var checked := ValidatePdfResponse(candidate, content, typeIsPdf);
      if checked.Failure? {
        return Failure("validation");
      }
      nextNumber := nextNumber + 1;
      r := PlaceAndRecord(row, Target(candidate.document, checked.value.0), content, disk, registry, db);
    }

    /** A failed attempt is recorded as a row of its own, changes no file, and never touches the observed row. */
    method PersistFailure(evidence: int, attempt: Attempt, registry: Registry, db: DbFault)
      returns (r: Result<nat, string>)
      requires Valid()
      modifies this`rows, this`nextNumber
      ensures Valid()
      ensures r.Success? <==> Reportable(catalog(evidence), attempt) && db == DbOk
                              && Admits(registry, catalog(evidence).expectedHash, catalog(evidence).expectedBytes)
      ensures rows == if Reportable(catalog(evidence), attempt) && db != RolledBack
                         && Admits(registry, catalog(evidence).expectedHash, catalog(evidence).expectedBytes)
                      then old(rows) + [FailureRow(old(nextNumber), evidence, catalog(evidence), attempt)]
                      else old(rows)
      ensures r.Success? ==> r.value == old(nextNumber)
      ensures |rows| > |old(rows)| ==>
        var row, reason := rows[|old(rows)|], Strip(attempt.failure);
        && row.id == old(nextNumber) && row.evidence == evidence && row.status == attempt.status
        && row.observedHash == attempt.observedHash && row.observedBytes == attempt.observedBytes
        && row.isPdf == attempt.isPdf && row.fetchedAt == attempt.fetchedAt
        && row.failure == Some(if |reason| > 2000 then reason[..2000] else reason)
      ensures Backed(rows, files) <==> Backed(old(rows), files)
    {
      if attempt.status == Observed {
        return Failure("status");
      }
      var row := FailureRow(nextNumber, evidence, catalog(evidence), attempt);
      ReportableIff(nextNumber, evidence, catalog(evidence), attempt);
      nextNumber := nextNumber + 1;
      var inserted := InsertSnapshot(row, registry, db);
      if inserted.Failure? {
        return Failure(inserted.error);
      }
      r := Success(inserted.value.0);
    }

    /** Whether an existing snapshot still stands: fails exactly when its file is missing or altered,
        whatever has happened to the directory. */
    method ValidateExistingSnapshot(evidence: int, existing: Option<Row>) returns (r: Result<Option<nat>, string>)
      requires Valid()
      requires existing.Some? ==>
        existing.value in rows && existing.value.evidence == evidence && existing.value.status == Observed
      ensures existing.None? ==> r == Success(None)
      ensures existing.Some? ==> (r == Success(Some(existing.value.id)) <==> RowBacked(existing.value, files))
      ensures existing.Some? ==> (r.Failure? <==> !RowBacked(existing.value, files))
    {
      match existing {
        case None => return Success(None);
        case Some(row) =>
          var candidate := catalog(evidence);
          assert RowCheck(row) && AboutCandidate(row, candidate);
          if row.storage.value !in files {
            return Failure("missing");
          }
          var checked := ValidatePdfResponse(candidate, files[row.storage.value], true);
          if checked.Failure? {
            return Failure("mismatch");
          }
          r := Success(Some(row.id));
      }
    }
  }

  /** What is stored is what the constraints promise: an observed row is the one of its evidence, about the file of
      the expected hash and length; a failed attempt has a reason and no file. */
  lemma StoredRows(store: Store)
    requires store.Valid()
    ensures forall r | r in store.rows ::
      var c := store.catalog(r.evidence);
      && r.expectedHash == c.expectedHash && r.expectedBytes == c.expectedBytes > 0
      && if r.status == Observed
         then r.observedHash == Some(c.expectedHash) && r.observedBytes == Some(c.expectedBytes) && r.isPdf
              && r.storage == Some(Target(c.document, c.expectedHash))
              && r.fetchedAt.Some? && r.storedAt.Some? && r.failure == None
         else r.storage == None && r.storedAt == None && r.failure.Some? && 1 <= |Trim(r.failure.value)| <= 2000
              && (r.observedBytes.Some? ==> r.observedBytes.value > 0)
    ensures forall i, j | 0 <= i < j < |store.rows| ::
      store.rows[i].status == Observed && store.rows[j].status == Observed ==>
        store.rows[i].evidence != store.rows[j].evidence
  {
    assert forall i | 0 <= i < |store.rows| :: store.rows[i] in store.rows;
    forall i, j | 0 <= i < j < |store.rows| && store.rows[i].status == Observed && store.rows[j].status == Observed
      ensures store.rows[i].evidence != store.rows[j].evidence
    {
      assert !SameObserved(store.rows[i], store.rows[j]);
    }
  }

  predicate ObservedIn(rows: seq<Row>, row: Row) { exists k | 0 <= k < |rows| :: SameObserved(rows[k], row) }

  ghost predicate StoredAs(rows: seq<Row>, row: Row, id: nat) {
    exists k :: 0 <= k < |rows| && rows[k].id == id && (rows[k] == row || SameObserved(rows[k], row))
  }

  lemma KeptBacked(rows: seq<Row>, before: Files, after: Files)
    requires SameTargets(before, after)
    requires forall r | r in rows && r.status == Observed :: r.storage.Some? && r.storage.value.Target?
    ensures Backed(rows, before) ==> Backed(rows, after)
  {
  }

  lemma MoreBacked(rows: seq<Row>, before: Files, after: Files, name: FileName, content: Bytes)
    requires AtMostAdds(before, after, name, content)
    requires forall r | r in rows && r.status == Observed :: r.storage.Some? && r.storage.value.Target?
    ensures Backed(rows, before) ==> Backed(rows, after)
  {
  }

  /** Where files and rows agree, an observed row in the way of this one means that the file is there. */
  lemma ObservedHasFile(rows: seq<Row>, files: Files, row: Row, name: FileName)
    requires forall r | r in rows && SameObserved(r, row) :: r.storage == Some(name)
    ensures Backed(rows, files) && ObservedIn(rows, row) ==> name in files
  {
    if Backed(rows, files) && ObservedIn(rows, row) {
      var k :| 0 <= k < |rows| && SameObserved(rows[k], row);
      assert RowBacked(rows[k], files);
    }
  }

  lemma WrittenBacked(before: seq<Row>, rows: seq<Row>, row: Row, files: Files)
    requires (rows == before || rows == before + [row]) && RowBacked(row, files)
    ensures Backed(before, files) ==> Backed(rows, files)
  {
  }

  /** Taking the new file back restores the targets, and leaves a committed row without its file. */
  lemma TakenBack(before: seq<Row>, rows: seq<Row>, row: Row, start: Files, placed: Files, files: Files, name: FileName,
                  content: Bytes)
    requires rows == before || rows == before + [row]
    requires name !in start && AtMostAdds(start, placed, name, content) && files == placed - {name}
    requires row.status == Observed && row.storage == Some(name)
    requires forall r | r in before && r.status == Observed :: r.storage.Some? && r.storage.value.Target?
    ensures SameTargets(start, files)
    ensures Backed(before, start) ==> (Backed(rows, files) <==> rows == before)
  {
    KeptBacked(before, start, files);
    if rows == before + [row] && before != rows {
      assert row in rows && !RowBacked(row, files);
    }
  }

  /** The smallest PDF, a fresh store, and an insert whose answer is lost: the row stays, the file goes. */
  method LostAnswerExample() returns (store: Store, r: Result<(nat, bool), string>)
    ensures fresh(store) && store.Valid() && r.Failure?
    ensures |store.rows| == 1 && store.rows[0].status == Observed && !Backed(store.rows, store.files)
  {
    var candidate := Candidate("doc", Sha256(PDF_MAGIC), |PDF_MAGIC|);
    store := new Store(evidence => candidate);
    r := store.PersistObserved(0, PDF_MAGIC, true, 1, 2, DiskOk,
                               Registry(true, Some((candidate.expectedHash, candidate.expectedBytes)), true),
                               AnswerLost);
  }
}
