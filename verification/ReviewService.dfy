/** One review request run without interruption, as the endpoints of backend/app/api/research.py are
    written: it ends as the step machine of the register does when nothing interleaves. */
module ReviewService {
  import opened Common
  import opened PageText
  import opened ReviewRegister

  predicate NonePending(s: State) { forall q | q in s.processes :: !s.processes[q].phase.Pending? }

  /** The machine with request r arriving as number id and running alone to its answer. */
  function Alone(s: State, id: nat, r: Request, commits: bool): (t: State)
    requires id !in s.processes && NonePending(s)
    ensures id in t.processes && t.processes[id].phase.Answered?
  {
    var arrived := Apply(s, Arrive(id, r));
    var checked := Apply(arrived, Advance(id, Check));
    if checked.processes[id].phase.Answered? then checked
    else
      var inserted := Apply(checked, Advance(id, Insert));
      if inserted.processes[id].phase.Clashed? then Apply(inserted, Advance(id, Compare))
      else Apply(inserted, Advance(id, if commits then Commit else Abort))
  }

  /** How a request that runs alone is answered, and when it leaves a row. */
  function Answer(s: State, id: nat, r: Request, commits: bool): (response: Response) {
    if !ValidRequest(r) then Invalid
    else if r.target !in s.targets then NotFound
    else
      var hash := Sha256(PayloadOf(r, s.targets[r.target]));
      if Taken(s.table, SlotOf(r)) then
        var row := RowOf(s.table, SlotOf(r));
        if row.hash == hash then Repeated(row) else Conflict
      else if commits then Created(Row(id, SlotOf(r), hash)) else Failed
  }

  lemma AloneAnswers(s: State, id: nat, r: Request, commits: bool)
    requires id !in s.processes && NonePending(s)
    ensures var t, answer := Alone(s, id, r, commits), Answer(s, id, r, commits);
      && t.processes[id].phase.response == answer
      && t.table == if answer.Created? then s.table + [answer.row] else s.table
  {
  }

  class ReviewTable {
    var rows: seq<Row>

    constructor ()
      ensures rows == []
    {
      rows := [];
    }

    /** The select after a conflict. */
    method Lookup(slot: Slot) returns (row: Row)
      requires Taken(rows, slot)
      ensures row == RowOf(rows, slot)
    {
      var i := |rows| - 1;
      assert rows[..|rows|] == rows;
      while rows[i].slot != slot
        invariant 0 <= i < |rows| && Taken(rows[..i + 1], slot)
        invariant RowOf(rows[..i + 1], slot) == RowOf(rows, slot)
        decreases i
      {
        assert rows[..i + 1][..i] == rows[..i] && Taken(rows[..i], slot);
        i := i - 1;
      }
      row := rows[i];
    }

    method Append(id: nat, r: Request, targets: map<Target, int>, commits: bool, ghost s: State)
      returns (response: Response)
      requires s.table == rows && s.targets == targets && id !in s.processes && NonePending(s)
      modifies this
      ensures rows == Alone(s, id, r, commits).table
      ensures response == Alone(s, id, r, commits).processes[id].phase.response
      ensures rows == if response.Created? then old(rows) + [response.row] else old(rows)
      ensures !(8 <= |Strip(r.header)| <= 128) || Strip(r.reason) == "" ==> response == Invalid
      ensures 8 <= |Strip(r.header)| <= 128 && Strip(r.reason) != "" ==>
        if r.target !in targets then response == NotFound
        else if forall k | 0 <= k < |old(rows)| :: old(rows)[k].slot != Slot(r.principal, Strip(r.header)) then
          response == if !commits then Failed
                      else Created(Row(id, Slot(r.principal, Strip(r.header)),
                                       Sha256(Payload(r.target, targets[r.target], r.conclusion, Strip(r.reason)))))
        else
          exists k ::
            && 0 <= k < |old(rows)| && old(rows)[k].slot == Slot(r.principal, Strip(r.header))
            && var stored := old(rows)[k].hash.preimage;
               response == if stored.target == r.target && stored.version == targets[r.target]
                              && stored.conclusion == r.conclusion && stored.reason == Strip(r.reason)
                           then Repeated(old(rows)[k]) else Conflict
    {
      AloneAnswers(s, id, r, commits);
      var key := Strip(r.header);
      var reason := Strip(r.reason);
      if !(8 <= |key| <= 128) || reason == "" {
        return Invalid;
      }
      if r.target !in targets {
        return NotFound;
      }
      var hash := Sha256(Payload(r.target, targets[r.target], r.conclusion, reason));
      var slot := Slot(r.principal, key);
      if exists i | 0 <= i < |rows| :: rows[i].slot == slot {
        var row := Lookup(slot);
        return if row.hash == hash then Repeated(row) else Conflict;
      }
      if !commits {
        return Failed;
      }
      var row := Row(id, slot, hash);
      rows := rows + [row];
      response := Created(row);
    }
  }
}
