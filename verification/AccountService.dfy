/** The maintenance services as they work on the tables: `PortfolioSyncService` (worker/services/portfolio_sync.py),
    `take_eod_snapshot` and `reconcile_accounts` (worker/services/maintenance_ops.py). Each changes the tables by
    the corresponding step of the account model. */
module AccountService {
  import opened Common
  import opened Accounts

  datatype ModeStats = ModeStats(mode: Mode, updated: nat, count: nat, accountUpdated: bool)

  datatype SyncStats = SyncStats(modes: seq<ModeStats>, positionsUpdated: nat, accountsUpdated: nat)

  datatype ReconcileReport = ReconcileReport(critical: bool, issues: seq<Issue>)

  /** How many rows of ps differ in qs. */
  function Changed(ps: seq<Position>, qs: seq<Position>): nat
    requires |ps| == |qs|
  {
    if ps == [] then 0
    else Changed(ps[..|ps| - 1], qs[..|qs| - 1]) + if ps[|ps| - 1] == qs[|qs| - 1] then 0 else 1
  }

  lemma ChangedMore(ps: seq<Position>, qs: seq<Position>, p: Position, q: Position)
    requires |ps| == |qs|
    ensures Changed(ps + [p], qs + [q]) == Changed(ps, qs) + if p == q then 0 else 1
  {
    assert (ps + [p])[..|ps|] == ps && (qs + [q])[..|qs|] == qs;
  }

  lemma ModeStepsMore(s: State, op: Op, i: nat)
    requires i < 3
    ensures ModeSteps(s, op, MODES[..i + 1]) == ModeStep(ModeSteps(s, op, MODES[..i]), op, MODES[i])
  {
    assert MODES[..i + 1][..i] == MODES[..i];
  }

  function Positions(stats: seq<ModeStats>): nat {
    if stats == [] then 0 else Positions(stats[..|stats| - 1]) + stats[|stats| - 1].updated
  }

  function AccountsOf(stats: seq<ModeStats>): nat {
    if stats == [] then 0
    else AccountsOf(stats[..|stats| - 1]) + if stats[|stats| - 1].accountUpdated then 1 else 0
  }

  function IssuesOf(s: State, modes: seq<Mode>): seq<Issue> {
    if modes == [] then [] else IssuesOf(s, modes[..|modes| - 1]) + IssuesOfMode(s, modes[|modes| - 1])
  }

  lemma IssuesOfAll(s: State)
    ensures IssuesOf(s, MODES) == Issues(s)
  {
    assert MODES[..2] == [Simulation, Paper] && [Simulation, Paper][..1] == [Simulation] && [Simulation][..0] == [];
    assert IssuesOf(s, []) == [];
    assert IssuesOf(s, [Simulation]) == IssuesOfMode(s, Simulation);
    assert IssuesOf(s, [Simulation, Paper]) == IssuesOfMode(s, Simulation) + IssuesOfMode(s, Paper);
  }

  /** It counts the rows that differ. */
  lemma {:induction false} ChangedExact(ps: seq<Position>, qs: seq<Position>)
    requires |ps| == |qs|
    ensures Changed(ps, qs) == |ChangedAt(ps, qs)|
  {
    if ps != [] {
      var n := |ps| - 1;
      ChangedExact(ps[..n], qs[..n]);
      assert ps == ps[..n] + [ps[n]] && qs == qs[..n] + [qs[n]];
      OneMoreChanged(ps[..n], qs[..n], ps[n], qs[n]);
    }
  }

  lemma OneMoreChanged(ps: seq<Position>, qs: seq<Position>, p: Position, q: Position)
    requires |ps| == |qs|
    ensures |ChangedAt(ps + [p], qs + [q])| == |ChangedAt(ps, qs)| + if p == q then 0 else 1
  {
    assert ChangedAt(ps + [p], qs + [q]) == ChangedAt(ps, qs) + if p == q then {} else {|ps|};
  }

  ghost function ChangedAt(ps: seq<Position>, qs: seq<Position>): set<int>
    requires |ps| == |qs|
  {
    set i | 0 <= i < |ps| && ps[i] != qs[i]
  }

  /** Marking changes no mode, code or quantity. */
  predicate SameHoldings(ps: seq<Position>, qs: seq<Position>) {
    && |ps| == |qs|
    && forall i | 0 <= i < |ps| :: qs[i].mode == ps[i].mode && qs[i].code == ps[i].code && qs[i].total == ps[i].total
  }

  /** The loop of `_sync_mode` over the open positions: refuses as soon as a lookup raises. */
  method MarkPositions(start: seq<Position>, m: Mode, prices: Prices)
    returns (r: Result<(seq<Position>, nat, nat), string>)
    ensures r.Failure? <==> LookupRaises(start, m, prices)
    ensures r.Success? ==> r.value.0 == MarkAll(start, m, prices)
    ensures r.Success? ==> r.value.1 == PricedCount(start, m, prices) && r.value.2 == OpenCount(start, m)
  {
    var ps := start;
    var updated, count := 0, 0;
    for i := 0 to |start|
      invariant |ps| == |start|
      invariant forall k | 0 <= k < i :: ps[k] == Remarked(start[k], m, prices)
      invariant forall k | i <= k < |start| :: ps[k] == start[k]
      invariant forall k | 0 <= k < i :: !(Open(start[k], m) && prices(start[k].mode, start[k].code).Raises?)
      invariant count == OpenCount(start[..i], m) && updated == PricedCount(start[..i], m, prices)
    {
      var p := start[i];
      assert start[..i + 1][..i] == start[..i];
      if Open(p, m) {
        count := count + 1;
        match prices(p.mode, p.code) {
          case Raises =>
            return Failure("lookup");
          case Missing =>
          case Price(v) =>
            if v != 0.0 {
              ps := ps[i := Marked(p, v)];
              updated := updated + 1;
            }
        }
      }
    }
    assert start[..|start|] == start;
    r := Success((ps, updated, count));
  }

  /** What the treatment of one mode reports: the positions it marked, those it found, and whether it had a row. */
  ghost function StatsOf(s: State, m: Mode, prices: Prices): ModeStats {
    ModeStats(m, PricedCount(s.positions, m, prices), OpenCount(s.positions, m), Latest(s.accounts, m).Some?)
  }

  lemma SameStats(s: State, m: Mode, prices: Prices, now: int, other: Mode)
    ensures StatsOf(SyncMode(s, m, prices, now), other, prices) == StatsOf(s, other, prices)
  {
    MarkingKeepsCount(s.positions, m, prices, other);
    MarkingKeepsPriced(s.positions, m, prices, other);
    ModeStepRows(s, Sync(prices, now), m);
    SameModes(s.accounts, SyncMode(s, m, prices, now).accounts, other);
  }

  lemma SameModes(a: seq<Account>, b: seq<Account>, m: Mode)
    requires |a| == |b| && forall i | 0 <= i < |a| :: b[i].mode == a[i].mode
    ensures Latest(a, m).Some? <==> Latest(b, m).Some?
  {
    LatestExists(a, m);
    LatestExists(b, m);
  }

  lemma LatestExists(a: seq<Account>, m: Mode)
    ensures Latest(a, m).Some? <==> exists i :: 0 <= i < |a| && a[i].mode == m
  {
  }

  /** `_sync_mode` in the session. */
  method SyncOneMode(s: State, m: Mode, prices: Prices, now: int) returns (r: Result<(State, ModeStats), string>)
    ensures r.Failure? <==> LookupRaises(s.positions, m, prices)
    ensures r.Success? ==> r.value.0 == SyncMode(s, m, prices, now) && SameHoldings(s.positions, r.value.0.positions)
    ensures r.Success? ==> r.value.1 == StatsOf(s, m, prices)
  {
    var marked := MarkPositions(s.positions, m, prices);
    if marked.Failure? {
      return Failure(marked.error);
    }
    var (ps, updated, count) := marked.value;
    var t, accountUpdated := RecomputeAccount(State(ps, s.accounts), m, now);
    r := Success((t, ModeStats(m, updated, count, accountUpdated)));
  }

  method RecomputeAccount(s: State, m: Mode, now: int) returns (t: State, updated: bool)
    ensures t == Rewrite(s, m, a => Recomputed(s.positions, a, now))
    ensures updated <==> Latest(s.accounts, m).Some?
  {
    match LatestIndex(s.accounts, m) {
      case None => return s, false;
      case Some(i) =>
        var a := s.accounts[i];
        var value, count := 0.0, 0;
        for k := 0 to |s.positions|
          invariant value == OpenValue(s.positions[..k], m) && count == OpenCount(s.positions[..k], m)
        {
          assert s.positions[..k + 1][..k] == s.positions[..k];
          if Open(s.positions[k], m) {
            count := count + 1;
            value := value + if s.positions[k].marketValue.Some? then s.positions[k].marketValue.value else 0.0;
          }
        }
        assert s.positions[..|s.positions|] == s.positions;
        var total := a.cash + value;
        t := s.(accounts := s.accounts[i := a.(marketValue := value, total := total, count := Some(count),
                                               ratio := Some(if total > 0.0 then value / total else 0.0),
                                               time := now)]);
        updated := true;
    }
  }

  predicate AddsUp(stats: SyncStats) {
    stats.positionsUpdated == Positions(stats.modes) && stats.accountsUpdated == AccountsOf(stats.modes)
  }

  /** The loop of `sync_all` in the session. */
  method SyncModes(start: State, prices: Prices, now: int) returns (r: Result<(State, SyncStats), string>)
    ensures r.Failure? <==> Aborts(start, Sync(prices, now))
    ensures r.Success? ==> r.value.0 == ModeSteps(start, Sync(prices, now), MODES)
    ensures r.Success? ==> AddsUp(r.value.1) && |r.value.1.modes| == 3
    ensures r.Success? ==> forall k | 0 <= k < 3 :: r.value.1.modes[k] == StatsOf(start, MODES[k], prices)
  {
    var session := start;
    var stats := SyncStats([], 0, 0);
    for i := 0 to 3
      invariant Synced(start, prices, now, i, session, stats)
    {
      SameRaises(start.positions, session.positions, MODES[i], prices);
      var one := SyncOneMode(session, MODES[i], prices, now);
      if one.Failure? {
        return Failure(one.error);
      }
      SyncedMore(start, prices, now, i, session, stats, one.value.0, one.value.1);
      session, stats := one.value.0, Added(stats, one.value.1);
    }
    assert MODES[..3] == MODES;
    NoneRaises(start, prices, now);
    r := Success((session, stats));
  }

  /** The session and the statistics after the first i modes. */
  ghost predicate Synced(start: State, prices: Prices, now: int, i: nat, session: State, stats: SyncStats)
    requires i <= 3
  {
    && session == ModeSteps(start, Sync(prices, now), MODES[..i])
    && SameHoldings(start.positions, session.positions)
    && (forall k | 0 <= k < i :: !LookupRaises(start.positions, MODES[k], prices))
    && |stats.modes| == i && AddsUp(stats)
    && (forall k | 0 <= k < i :: stats.modes[k] == StatsOf(start, MODES[k], prices))
    && forall k | i <= k < 3 :: StatsOf(session, MODES[k], prices) == StatsOf(start, MODES[k], prices)
  }

  lemma SyncedMore(start: State, prices: Prices, now: int, i: nat, session: State, stats: SyncStats,
                   next: State, one: ModeStats)
    requires i < 3 && Synced(start, prices, now, i, session, stats)
    requires !LookupRaises(start.positions, MODES[i], prices)
    requires next == SyncMode(session, MODES[i], prices, now) && SameHoldings(session.positions, next.positions)
    requires one == StatsOf(session, MODES[i], prices)
    ensures Synced(start, prices, now, i + 1, next, Added(stats, one))
  {
    ModeStepsMore(start, Sync(prices, now), i);
    forall k | i < k < 3 ensures StatsOf(next, MODES[k], prices) == StatsOf(start, MODES[k], prices) {
      SameStats(session, MODES[i], prices, now, MODES[k]);
    }
  }

  function Added(stats: SyncStats, one: ModeStats): (r: SyncStats)
    ensures AddsUp(stats) ==> AddsUp(r)
  {
    assert (stats.modes + [one])[..|stats.modes|] == stats.modes;
    SyncStats(stats.modes + [one], stats.positionsUpdated + one.updated,
              stats.accountsUpdated + if one.accountUpdated then 1 else 0)
  }

  method ReconcileOneMode(s: State, m: Mode, now: int) returns (t: State, issues: seq<Issue>)
    ensures t == ReconcileMode(s, m, now) && t.positions == s.positions
    ensures issues == IssuesOfMode(s, m)
  {
    t, issues := s, [];
    match LatestIndex(s.accounts, m) {
      case None =>
      case Some(at) =>
        var row := s.accounts[at];
        if Drifted(s, row) {
          issues := [IssueOf(s, row)];
          t := s.(accounts := s.accounts[at := Repaired(s, row, now)]);
        } else {
          assert s.accounts[at := row] == s.accounts;
        }
    }
  }

  lemma SameIssues(s: State, t: State, m: Mode, now: int)
    requires SameMode(s, t, m, now)
    ensures IssuesOfMode(s, m) == IssuesOfMode(t, m)
  {
    LatestMode(s.accounts, m);
  }

  /** The loop of the reconciliation in the session. */
  method ReconcileModes(start: State, now: int) returns (session: State, issues: seq<Issue>)
    requires AllOlder(start, now)
    ensures session == ModeSteps(start, Reconcile(now), MODES) && session.positions == start.positions
    ensures issues == Issues(start)
  {
    session, issues := start, [];
    for i := 0 to 3
      invariant session == ModeSteps(start, Reconcile(now), MODES[..i]) && session.positions == start.positions
      invariant forall k | i <= k < 3 :: SameMode(start, session, MODES[k], now)
      invariant issues == IssuesOf(start, MODES[..i])
    {
      ModeStepsMore(start, Reconcile(now), i);
      assert MODES[..i + 1][..i] == MODES[..i];
      OtherModesStay(start, session, i, now);
      SameIssues(start, session, MODES[i], now);
      var found: seq<Issue>;
      session, found := ReconcileOneMode(session, MODES[i], now);
      issues := issues + found;
    }
    assert MODES[..3] == MODES;
    IssuesOfAll(start);
  }

  lemma OtherModesStay(start: State, session: State, i: nat, now: int)
    requires i < 3 && AllOlder(start, now) && forall k | i <= k < 3 :: SameMode(start, session, MODES[k], now)
    ensures forall k | i < k < 3 :: SameMode(start, ModeStep(session, Reconcile(now), MODES[i]), MODES[k], now)
  {
    forall k | i < k < 3 ensures SameMode(start, ModeStep(session, Reconcile(now), MODES[i]), MODES[k], now) {
      ModeStepEffect(session, Reconcile(now), MODES[i], MODES[k]);
    }
  }

  lemma ThreeAddUp(stats: SyncStats)
    requires |stats.modes| == 3 && AddsUp(stats)
    ensures stats.positionsUpdated == stats.modes[0].updated + stats.modes[1].updated + stats.modes[2].updated
    ensures stats.accountsUpdated
         == One(stats.modes[0].accountUpdated) + One(stats.modes[1].accountUpdated) + One(stats.modes[2].accountUpdated)
  {
    var modes := stats.modes;
    assert modes[..2][..1] == modes[..1] && modes[..1][..0] == [];
    assert Positions([]) == 0 && Positions(modes[..1]) == modes[0].updated;
    assert Positions(modes[..2]) == modes[0].updated + modes[1].updated;
    assert AccountsOf([]) == 0 && AccountsOf(modes[..1]) == One(modes[0].accountUpdated);
    assert AccountsOf(modes[..2]) == One(modes[0].accountUpdated) + One(modes[1].accountUpdated);
  }

  class Ledger {
    var positions: seq<Position>
    var accounts: seq<Account>

    constructor (positions: seq<Position>, accounts: seq<Account>)
      ensures Books() == State(positions, accounts)
    {
      this.positions, this.accounts := positions, accounts;
    }

    function Books(): State
      reads this
    {
      State(positions, accounts)
    }

    /** One transaction over all modes. A lookup that raises, for any open position, leaves the tables as
        they were. */
    method SyncAll(prices: Prices, now: int) returns (r: Result<SyncStats, string>)
      modifies this
      ensures Books() == Step(old(Books()), Sync(prices, now))
      ensures r.Failure? <==> exists i | 0 <= i < |old(positions)| ::
        old(positions)[i].total > 0 && prices(old(positions)[i].mode, old(positions)[i].code).Raises?
      ensures r.Failure? ==> unchanged(this)
      ensures r.Success? ==>
        && r.value.modes == [StatsOf(old(Books()), Simulation, prices), StatsOf(old(Books()), Paper, prices),
                             StatsOf(old(Books()), Live, prices)]
        && r.value.positionsUpdated == r.value.modes[0].updated + r.value.modes[1].updated + r.value.modes[2].updated
        && r.value.accountsUpdated == One(r.value.modes[0].accountUpdated) + One(r.value.modes[1].accountUpdated)
                                      + One(r.value.modes[2].accountUpdated)
    {
      var synced := SyncModes(State(positions, accounts), prices, now);
      if synced.Failure? {
        return Failure(synced.error);
      }
      positions, accounts := synced.value.0.positions, synced.value.0.accounts;
      r := Success(synced.value.1);
      ThreeAddUp(synced.value.1);
    }

    method TakeEodSnapshot(now: int) returns (inserted: nat)
      modifies this`accounts
      ensures Books() == Step(old(Books()), Eod(now))
      ensures inserted == |accounts| - |old(accounts)|
      ensures inserted == One(Latest(old(accounts), Simulation).Some?) + One(Latest(old(accounts), Paper).Some?)
                          + One(Latest(old(accounts), Live).Some?)
    {
      EodAdds(Books(), now);
      var start := State(positions, accounts);
      var session := start;
      inserted := 0;
      for i := 0 to 3
        invariant session == ModeSteps(start, Eod(now), MODES[..i])
        invariant session.positions == positions == start.positions && accounts == start.accounts
        invariant inserted == |session.accounts| - |accounts|
      {
        ModeStepsMore(start, Eod(now), i);
        match Latest(session.accounts, MODES[i]) {
          case None =>
          case Some(row) =>
            LatestMode(session.accounts, MODES[i]);
            session := session.(accounts := session.accounts + [Snapshot(session.positions, row, now)]);
            inserted := inserted + 1;
        }
      }
      assert MODES[..3] == MODES;
      accounts := session.accounts;
    }

    /** Reports the drifted modes of the books it found, and repairs exactly those. */
    method ReconcileAccounts(now: int) returns (report: ReconcileReport)
      requires AllOlder(Books(), now)
      modifies this`accounts
      ensures Books() == Step(old(Books()), Reconcile(now))
      ensures report.issues == Issues(old(Books()))
      ensures report.critical <==> exists i | 0 <= i < |report.issues| :: report.issues[i].critical
    {
      var session, issues := ReconcileModes(State(positions, accounts), now);
      accounts := session.accounts;
      report := ReconcileReport(exists i | 0 <= i < |issues| :: issues[i].critical, issues);
    }

    method ReleaseAvailableQuantity(target: Option<Mode>, now: int) returns (released: nat)
      modifies this`positions
      ensures Books() == Step(old(Books()), Release(target, now))
      ensures released == |ChangedAt(old(positions), positions)|
    {
      var was := positions;
      positions := seq(|was|, i requires 0 <= i < |was| => Released(was[i], target));
      released := RowCount(was, positions);
      ChangedExact(was, positions);
    }
  }

  /** `rowcount`: the rows an update changed. */
  method RowCount(before: seq<Position>, after: seq<Position>) returns (n: nat)
    requires |before| == |after|
    ensures n == Changed(before, after)
  {
    n := 0;
    for i := 0 to |before|
      invariant n == Changed(before[..i], after[..i])
    {
      assert before[..i + 1] == before[..i] + [before[i]] && after[..i + 1] == after[..i] + [after[i]];
      ChangedMore(before[..i], after[..i], before[i], after[i]);
      if before[i] != after[i] {
        n := n + 1;
      }
    }
    assert before[..|before|] == before && after[..|after|] == after;
  }

  lemma SameRaises(ps: seq<Position>, qs: seq<Position>, m: Mode, prices: Prices)
    requires SameHoldings(ps, qs)
    ensures LookupRaises(ps, m, prices) <==> LookupRaises(qs, m, prices)
  {
    if LookupRaises(ps, m, prices) {
      var i :| 0 <= i < |ps| && Open(ps[i], m) && prices(ps[i].mode, ps[i].code).Raises?;
      assert Open(qs[i], m) && prices(qs[i].mode, qs[i].code).Raises?;
    }
  }

  lemma NoneRaises(s: State, prices: Prices, now: int)
    requires forall k | 0 <= k < 3 :: !LookupRaises(s.positions, MODES[k], prices)
    ensures !Aborts(s, Sync(prices, now))
  {
    forall i | 0 <= i < |s.positions| && s.positions[i].total > 0
      ensures !prices(s.positions[i].mode, s.positions[i].code).Raises?
    {
      var k := match s.positions[i].mode case Simulation => 0 case Paper => 1 case Live => 2;
      assert MODES[k] == s.positions[i].mode && Open(s.positions[i], MODES[k]);
    }
  }
}
