/** Idempotent review appends (`append_financial_location_review` and `append_news_evidence_manual_review`,
    backend/app/api/research.py) as a step machine: any number of requests interleave, and the unique index
    on (principal, key) of migrations 026 and 039 arbitrates.

    Both endpoints are this machine on their own table. A target is an evidence with, for a financial
    review, one of its location candidates; a target's version is what the request hash takes from the
    current candidate (document hash and locator version), and one fixed version for news. */
module ReviewRegister {
  import opened Common
  import opened PageText

  datatype Target = Target(evidence: int, location: int)

  datatype Request = Request(principal: int, header: string, target: Target, conclusion: int, reason: string)

  /** What the request hash covers. */
  datatype Payload = Payload(target: Target, version: int, conclusion: int, reason: string)

  datatype Slot = Slot(principal: int, key: string)

  datatype Row = Row(id: nat, slot: Slot, hash: Digest<Payload>)

  datatype Response = Invalid | NotFound | Created(row: Row) | Repeated(row: Row) | Conflict | Failed

  datatype Phase =
    | Received
    | Checked(payload: Payload)              // target found, request hash computed
    | Pending(payload: Payload, row: Row)    // inserted, not yet committed
    | Clashed(payload: Payload)              // ON CONFLICT DO NOTHING
    | Answered(asked: Option<Payload>, response: Response)

  datatype Process = Process(request: Request, phase: Phase)

  /** Committed rows in commit order, the targets that may be reviewed now, the requests by number. */
  datatype State = State(table: seq<Row>, targets: map<Target, int>, processes: map<nat, Process>)

  /** `CommitLost`: the commit took effect but its answer was lost, so the request fails. */
  datatype Step = Check | Insert | Commit | CommitLost | Compare | Abort

  datatype Event =
    | Arrive(id: nat, request: Request)
    | Advance(id: nat, step: Step)
    | Relocate(targets: map<Target, int>)

  function SlotOf(r: Request): Slot { Slot(r.principal, Strip(r.header)) }

  predicate ValidRequest(r: Request) { 8 <= |Strip(r.header)| <= 128 && Strip(r.reason) != "" }

  function PayloadOf(r: Request, version: int): Payload { Payload(r.target, version, r.conclusion, Strip(r.reason)) }

  predicate Taken(table: seq<Row>, slot: Slot) { exists i | 0 <= i < |table| :: table[i].slot == slot }

  /** The row of a taken slot. */
  function RowOf(table: seq<Row>, slot: Slot): (r: Row)
    requires Taken(table, slot)
    ensures r in table && r.slot == slot
  {
    if table[|table| - 1].slot == slot then table[|table| - 1] else RowOf(table[..|table| - 1], slot)
  }

  predicate PendingElsewhere(s: State, slot: Slot) {
    exists q | q in s.processes :: s.processes[q].phase.Pending? && s.processes[q].phase.row.slot == slot
  }

  /** An insert waits for an uncommitted one of the same slot. */
  predicate StepEnabled(s: State, id: nat, step: Step)
    requires id in s.processes
  {
    var p := s.processes[id];
    match step
    case Check => p.phase.Received?
    case Insert => p.phase.Checked? && (Taken(s.table, SlotOf(p.request)) || !PendingElsewhere(s, SlotOf(p.request)))
    case Commit => p.phase.Pending?
    case CommitLost => p.phase.Pending?
    case Compare => p.phase.Clashed? && Taken(s.table, SlotOf(p.request))
    case Abort => p.phase.Checked? || p.phase.Pending? || p.phase.Clashed?
  }

  predicate Enabled(s: State, e: Event) {
    match e
    case Arrive(id, _) => id !in s.processes
    case Advance(id, step) => id in s.processes && StepEnabled(s, id, step)
    case Relocate(_) => true
  }

  function AfterStep(s: State, id: nat, step: Step): Phase
    requires id in s.processes && StepEnabled(s, id, step)
  {
    var r := s.processes[id].request;
    match step
    case Check =>
      if !ValidRequest(r) then Answered(None, Invalid)
      else if r.target !in s.targets then Answered(None, NotFound)
      else Checked(PayloadOf(r, s.targets[r.target]))
    case Insert =>
      var payload := s.processes[id].phase.payload;
      if Taken(s.table, SlotOf(r)) then Clashed(payload)
      else Pending(payload, Row(id, SlotOf(r), Sha256(payload)))
    case Commit =>
      Answered(Some(s.processes[id].phase.payload), Created(s.processes[id].phase.row))
    case CommitLost => Answered(Some(s.processes[id].phase.payload), Failed)
    case Compare =>
      var payload := s.processes[id].phase.payload;
      var row := RowOf(s.table, SlotOf(r));
      Answered(Some(payload), if row.hash == Sha256(payload) then Repeated(row) else Conflict)
    case Abort => Answered(Some(s.processes[id].phase.payload), Failed)
  }

  predicate Commits(step: Step) { step == Commit || step == CommitLost }

  function Apply(s: State, e: Event): State
    requires Enabled(s, e)
  {
    match e
    case Arrive(id, request) => s.(processes := s.processes[id := Process(request, Received)])
    case Relocate(targets) => s.(targets := targets)
    case Advance(id, step) =>
      var p := s.processes[id];
      State(if Commits(step) then s.table + [p.phase.row] else s.table, s.targets,
            s.processes[id := p.(phase := AfterStep(s, id, step))])
  }

  // ----- The invariant -----

  predicate Fits(slot: Slot, row: Row, r: Request, payload: Payload) {
    row.slot == slot && row.hash == Sha256(payload) && payload == PayloadOf(r, payload.version)
  }

  ghost predicate ProcessOk(table: seq<Row>, id: nat, p: Process) {
    var slot := SlotOf(p.request);
    match p.phase
    case Received => true
    case Checked(payload) => payload == PayloadOf(p.request, payload.version)
    case Pending(payload, row) => row.id == id && Fits(slot, row, p.request, payload) && !Taken(table, slot)
    case Clashed(payload) => payload == PayloadOf(p.request, payload.version) && Taken(table, slot)
    case Answered(payload, response) =>
      && (response == Invalid || response == NotFound <==> payload == None)
      && (payload.Some? ==> payload.value == PayloadOf(p.request, payload.value.version))
      && match response
         case Invalid => true
         case NotFound => true
         case Failed => true
         case Created(row) => row in table && row.id == id && Fits(slot, row, p.request, payload.value)
         case Repeated(row) => row in table && row.id != id && Fits(slot, row, p.request, payload.value)
         case Conflict => exists row :: row in table && row.slot == slot && row.hash != Sha256(payload.value)
  }

  function Asked(phase: Phase): Option<Payload> {
    match phase
    case Received => None
    case Checked(payload) => Some(payload)
    case Pending(payload, _) => Some(payload)
    case Clashed(payload) => Some(payload)
    case Answered(asked, _) => asked
  }

  /** A committed row belongs to a request that was told it was created, or nothing but a failure, and holds what
      that request asked for. */
  predicate Owned(row: Row, processes: map<nat, Process>) {
    && row.id in processes
    && row.slot == SlotOf(processes[row.id].request) && Asked(processes[row.id].phase) == Some(row.hash.preimage)
    && processes[row.id].phase.Answered?
    && processes[row.id].phase.response in {Created(row), Failed}
  }

  ghost predicate OnePerSlot(table: seq<Row>) {
    forall i, j | 0 <= i < j < |table| :: table[i].slot != table[j].slot
  }

  ghost predicate PendingApart(processes: map<nat, Process>) {
    forall p, q | p in processes && q in processes && p != q && processes[p].phase.Pending?
        && processes[q].phase.Pending? ::
      processes[p].phase.row.slot != processes[q].phase.row.slot
  }

  ghost predicate Inv(s: State) {
    && OnePerSlot(s.table)
    && PendingApart(s.processes)
    && (forall row | row in s.table :: Owned(row, s.processes))
    && forall id | id in s.processes :: ProcessOk(s.table, id, s.processes[id])
  }

  lemma TakenMore(table: seq<Row>, row: Row, slot: Slot)
    ensures Taken(table + [row], slot) <==> Taken(table, slot) || row.slot == slot
  {
    assert (table + [row])[|table|] == row;
    if Taken(table, slot) {
      var i :| 0 <= i < |table| && table[i].slot == slot;
      assert (table + [row])[i].slot == slot;
    }
  }

  lemma ProcessStays(table: seq<Row>, row: Row, id: nat, p: Process)
    requires ProcessOk(table, id, p) && (p.phase.Pending? ==> p.phase.row.slot != row.slot)
    ensures ProcessOk(table + [row], id, p)
  {
    TakenMore(table, row, SlotOf(p.request));
    if p.phase.Answered? && p.phase.response == Conflict {
      var r :| r in table && r.slot == SlotOf(p.request) && r.hash != Sha256(p.phase.asked.value);
      assert r in table + [row];
    }
  }

  /** The step of one process keeps that process in order. */
  lemma StepProcessOk(s: State, id: nat, step: Step)
    requires Inv(s) && id in s.processes && StepEnabled(s, id, step)
    ensures ProcessOk(Apply(s, Advance(id, step)).table, id, s.processes[id].(phase := AfterStep(s, id, step)))
  {
    var p := s.processes[id];
    assert ProcessOk(s.table, id, p);
    if step == Compare {
      var row := RowOf(s.table, SlotOf(p.request));
      assert Owned(row, s.processes);
    }
  }

  lemma CommitKeeps(s: State, id: nat, step: Step)
    requires Inv(s) && id in s.processes && StepEnabled(s, id, step) && Commits(step)
    ensures Inv(Apply(s, Advance(id, step)))
  {
    var p := s.processes[id];
    var row := p.phase.row;
    var t := Apply(s, Advance(id, step));
    StepProcessOk(s, id, step);
    assert ProcessOk(s.table, id, p);
    forall i | 0 <= i < |s.table| ensures s.table[i].slot != row.slot {
      assert !Taken(s.table, row.slot);
    }
    forall q | q in t.processes ensures ProcessOk(t.table, q, t.processes[q]) {
      if q != id {
        assert ProcessOk(s.table, q, s.processes[q]);
        ProcessStays(s.table, row, q, s.processes[q]);
      }
    }
    forall r | r in t.table ensures Owned(r, t.processes) {
      if r in s.table {
        assert Owned(r, s.processes);
      }
    }
  }

  lemma OtherStepKeeps(s: State, id: nat, step: Step)
    requires Inv(s) && id in s.processes && StepEnabled(s, id, step) && !Commits(step)
    ensures Inv(Apply(s, Advance(id, step)))
  {
    var t := Apply(s, Advance(id, step));
    StepProcessOk(s, id, step);
    forall r | r in t.table ensures Owned(r, t.processes) {
      assert Owned(r, s.processes);
    }
    assert forall q | q in t.processes && q != id :: t.processes[q] == s.processes[q];
  }

  lemma StepKeeps(s: State, e: Event)
    requires Inv(s) && Enabled(s, e)
    ensures Inv(Apply(s, e))
  {
    match e
    case Arrive(id, request) =>
      var t := Apply(s, e);
      forall r | r in t.table ensures Owned(r, t.processes) {
        assert Owned(r, s.processes);
      }
    case Relocate(_) =>
    case Advance(id, step) =>
      if Commits(step) {
        CommitKeeps(s, id, step);
      } else {
        OtherStepKeeps(s, id, step);
      }
  }

  // ----- Runs -----

  const EMPTY := State([], map[], map[])

  /** The states of a run from the empty register, one per event and the first. */
  ghost predicate IsRun(states: seq<State>, events: seq<Event>) {
    && |states| == |events| + 1 && states[0] == EMPTY
    && forall i | 0 <= i < |events| :: Enabled(states[i], events[i]) && states[i + 1] == Apply(states[i], events[i])
  }

  lemma {:induction false} RunKeeps(states: seq<State>, events: seq<Event>, k: nat)
    requires IsRun(states, events) && k < |states|
    ensures Inv(states[k])
  {
    if k > 0 {
      RunKeeps(states, events, k - 1);
      StepKeeps(states[k - 1], events[k - 1]);
    }
  }

  /** In every interleaving there is at most one row per principal and key, and rows are never changed,
      moved or removed. */
  lemma {:induction false} OneImmutableRow(states: seq<State>, events: seq<Event>, k: nat, n: nat)
    requires IsRun(states, events) && k <= n < |states|
    ensures OnePerSlot(states[n].table)
    ensures states[k].table <= states[n].table
  {
    RunKeeps(states, events, n);
    if k < n {
      OneImmutableRow(states, events, k, n - 1);
    }
  }

  predicate Succeeded(p: Process) {
    p.phase.Answered? && (p.phase.response.Created? || p.phase.response.Repeated?)
  }

  /** Two requests of one principal under one key that both succeed get the same row, even while they
      overlap; then they asked for the same review of the same version. */
  lemma SameKeySameRow(states: seq<State>, events: seq<Event>, k: nat, p: nat, q: nat)
    requires IsRun(states, events) && k < |states|
    requires p in states[k].processes && q in states[k].processes
    requires SlotOf(states[k].processes[p].request) == SlotOf(states[k].processes[q].request)
    requires Succeeded(states[k].processes[p]) && Succeeded(states[k].processes[q])
    ensures states[k].processes[p].phase.response.row == states[k].processes[q].phase.response.row
    ensures states[k].processes[p].phase.asked == states[k].processes[q].phase.asked
    ensures p != q ==>
      !(states[k].processes[p].phase.response.Created? && states[k].processes[q].phase.response.Created?)
  {
    RunKeeps(states, events, k);
    var s := states[k];
    assert ProcessOk(s.table, p, s.processes[p]) && ProcessOk(s.table, q, s.processes[q]);
    var a, b := s.processes[p].phase.response.row, s.processes[q].phase.response.row;
    var i :| 0 <= i < |s.table| && s.table[i] == a;
    var j :| 0 <= j < |s.table| && s.table[j] == b;
  }

  /** Once a row is stored under a key, a request under that key that gets as far as an answer succeeds
      exactly when it hashes to the same payload, and otherwise is refused; either way the row is the
      first one and no row of the request's own is added. */
  lemma RepeatIffSamePayload(states: seq<State>, events: seq<Event>, k: nat, row: Row, q: nat)
    requires IsRun(states, events) && k < |states| && row in states[k].table && q in states[k].processes
    requires SlotOf(states[k].processes[q].request) == row.slot && row.id != q
    requires states[k].processes[q].phase.Answered? && states[k].processes[q].phase.asked.Some?
    requires states[k].processes[q].phase.response != Failed
    ensures var answer := states[k].processes[q].phase;
      && (answer.response == Repeated(row) <==> Sha256(answer.asked.value) == row.hash)
      && (answer.response == Conflict <==> Sha256(answer.asked.value) != row.hash)
    ensures forall r | r in states[k].table :: r.id != q
  {
    RunKeeps(states, events, k);
    var s := states[k];
    var p := s.processes[q];
    assert ProcessOk(s.table, q, p) && Owned(row, s.processes);
    var i :| 0 <= i < |s.table| && s.table[i] == row;
    if p.phase.response.Created? || p.phase.response.Repeated? {
      var j :| 0 <= j < |s.table| && s.table[j] == p.phase.response.row;
      assert i == j;
    } else {
      var other :| other in s.table && other.slot == row.slot && other.hash != Sha256(p.phase.asked.value);
      var j :| 0 <= j < |s.table| && s.table[j] == other;
      assert i == j;
    }
    forall r | r in s.table ensures r.id != q {
      assert Owned(r, s.processes);
    }
  }

  /** Requests that differ only in white space around key and reason hash alike. */
  lemma WhitespaceDoesNotMatter(r: Request, t: Request, version: int)
    requires r.principal == t.principal && r.target == t.target && r.conclusion == t.conclusion
    requires Strip(r.header) == Strip(t.header) && Strip(r.reason) == Strip(t.reason)
    ensures SlotOf(r) == SlotOf(t) && PayloadOf(r, version) == PayloadOf(t, version)
    ensures ValidRequest(r) <==> ValidRequest(t)
  {
  }

  lemma StepKeepsAsked(s: State, e: Event, id: nat)
    requires Enabled(s, e) && id in s.processes && !s.processes[id].phase.Received?
    ensures var t := Apply(s, e);
      && id in t.processes && t.processes[id].request == s.processes[id].request
      && Asked(t.processes[id].phase) == Asked(s.processes[id].phase) && !t.processes[id].phase.Received?
      && (s.processes[id].phase.Answered? ==> t.processes[id] == s.processes[id])
  {
  }

  /** What a request asks for is settled by its check, and its answer is final. */
  lemma {:induction false} AskedStays(states: seq<State>, events: seq<Event>, m: nat, n: nat, id: nat)
    requires IsRun(states, events) && m <= n < |states|
    requires id in states[m].processes && !states[m].processes[id].phase.Received?
    ensures id in states[n].processes && states[n].processes[id].request == states[m].processes[id].request
    ensures Asked(states[n].processes[id].phase) == Asked(states[m].processes[id].phase)
    ensures !states[n].processes[id].phase.Received?
    ensures states[m].processes[id].phase.Answered? ==> states[n].processes[id] == states[m].processes[id]
  {
    if m < n {
      AskedStays(states, events, m, n - 1, id);
      StepKeepsAsked(states[n - 1], events[n - 1], id);
    }
  }

  /** Two requests contend for one row exactly when the principal and the stripped key header agree. */
  lemma SameSlotIff(r: Request, t: Request)
    ensures SlotOf(r) == SlotOf(t) <==> r.principal == t.principal && Strip(r.header) == Strip(t.header)
  {
  }

  /** What a check makes of a request, by its fields. */
  lemma CheckedAsAsked(states: seq<State>, events: seq<Event>, i: nat, n: nat, p: nat)
    requires IsRun(states, events) && i < n < |states| && events[i] == Advance(p, Check) && p in states[i].processes
    ensures p in states[n].processes && states[n].processes[p].request == states[i].processes[p].request
    ensures var r, targets := states[i].processes[p].request, states[i].targets;
      var phase := states[n].processes[p].phase;
      if !(8 <= |Strip(r.header)| <= 128) || Strip(r.reason) == "" then phase == Answered(None, Invalid)
      else if r.target !in targets then phase == Answered(None, NotFound)
      else Asked(phase) == Some(Payload(r.target, targets[r.target], r.conclusion, Strip(r.reason)))
  {
    assert Enabled(states[i], events[i]) && states[i + 1] == Apply(states[i], events[i]);
    AskedStays(states, events, i + 1, n, p);
  }

  /** Idempotency by what a caller sends. Request p's row stands in its slot; request q, of the same principal and
      under the same stripped key, gets that row exactly if target, conclusion, stripped reason and the version each
      was checked against all agree, and a conflict if not, unless it fails or is turned away for its own form. */
  lemma RepeatIffSameReview(states: seq<State>, events: seq<Event>, i: nat, j: nat, n: nat, row: Row, q: nat)
    requires IsRun(states, events) && i < n < |states| && j < n && row in states[n].table && q != row.id
    requires events[i] == Advance(row.id, Check) && row.id in states[i].processes
    requires events[j] == Advance(q, Check) && q in states[j].processes
    requires states[i].processes[row.id].request.principal == states[j].processes[q].request.principal
    requires Strip(states[i].processes[row.id].request.header) == Strip(states[j].processes[q].request.header)
    requires q in states[n].processes && states[n].processes[q].phase.Answered?
    ensures states[i].processes[row.id].request.target in states[i].targets
    ensures var r, t := states[i].processes[row.id].request, states[j].processes[q].request;
      var answer := states[n].processes[q].phase.response;
      if !(8 <= |Strip(t.header)| <= 128) || Strip(t.reason) == "" then answer == Invalid
      else if t.target !in states[j].targets then answer == NotFound
      else
        var same := r.target == t.target && r.conclusion == t.conclusion && Strip(r.reason) == Strip(t.reason)
                    && states[i].targets[r.target] == states[j].targets[t.target];
        answer == Failed || answer == if same then Repeated(row) else Conflict
  {
    CheckedAsAsked(states, events, i, n, row.id);
    CheckedAsAsked(states, events, j, n, q);
    RunKeeps(states, events, n);
    assert Owned(row, states[n].processes);
    assert ProcessOk(states[n].table, q, states[n].processes[q]);
    SameSlotIff(states[i].processes[row.id].request, states[j].processes[q].request);
    if states[n].processes[q].phase.asked.Some? && states[n].processes[q].phase.response != Failed {
      RepeatIffSamePayload(states, events, n, row, q);
    }
  }

  /** After the located document or the locator changed, the very same request is refused in every run: it may
      fail, and any other answer is a conflict. After the location disappeared it is not found. */
  lemma StaleRepeatRefused(states: seq<State>, events: seq<Event>, k: nat, n: nat, id: nat, row: Row)
    requires IsRun(states, events) && k < n < |states| && events[k] == Advance(id, Check)
    requires id in states[k].processes && ValidRequest(states[k].processes[id].request)
    requires row in states[k].table && row.slot == SlotOf(states[k].processes[id].request)
    requires id in states[n].processes && states[n].processes[id].phase.Answered?
    ensures var target, targets := states[k].processes[id].request.target, states[k].targets;
      var answer := states[n].processes[id].phase.response;
      && (target !in targets ==> answer == NotFound)
      && (target in targets && targets[target] != row.hash.preimage.version ==> answer == Failed || answer == Conflict)
  {
    assert Enabled(states[k], events[k]) && states[k + 1] == Apply(states[k], events[k]);
    RunKeeps(states, events, k);
    assert Owned(row, states[k].processes);
    AskedStays(states, events, k + 1, n, id);
    OneImmutableRow(states, events, k, n);
    var asked := states[n].processes[id].phase.asked;
    if asked.Some? && states[n].processes[id].phase.response != Failed {
      RepeatIffSamePayload(states, events, n, row, id);
    }
    RunKeeps(states, events, n);
    assert ProcessOk(states[n].table, id, states[n].processes[id]);
  }
}
