/** Portfolio synchronisation and T+1 release (worker/services/portfolio_sync.py), end-of-day snapshots and
    reconciliation (worker/services/maintenance_ops.py) on the position and account tables. */
module Accounts {
  import opened Common

  datatype Mode = Simulation | Paper | Live

  datatype Position = Position(mode: Mode, code: string, total: int, available: int, avgCost: Option<real>,
                               price: Option<real>, marketValue: Option<real>, pnl: Option<real>, pnlPct: Option<real>)

  datatype Account = Account(mode: Mode, time: int, cash: real, marketValue: real, total: real, count: Option<int>,
                             ratio: Option<real>, frozen: Option<real>, dailyPnl: Option<real>, totalPnl: Option<real>,
                             totalPnlPct: Option<real>, eod: bool)

  /** The two tables, as a session sees them. */
  datatype State = State(positions: seq<Position>, accounts: seq<Account>)

  /** What `cache.get` yields for a quote key. */
  datatype Lookup = Missing | Price(value: real) | Raises

  /** Each mode looks a code up at its own time. */
  type Prices = (Mode, string) -> Lookup

  // ----- Queries -----

  predicate Open(p: Position, m: Mode) { p.mode == m && p.total > 0 }

  /** COALESCE(SUM(market_value), 0) over the open positions of a mode; NULL values do not count. */
  function OpenValue(ps: seq<Position>, m: Mode): real {
    if ps == [] then 0.0
    else
      var last := ps[|ps| - 1];
      OpenValue(ps[..|ps| - 1], m) + if Open(last, m) && last.marketValue.Some? then last.marketValue.value else 0.0
  }

  function OpenCount(ps: seq<Position>, m: Mode): nat {
    if ps == [] then 0 else OpenCount(ps[..|ps| - 1], m) + if Open(ps[|ps| - 1], m) then 1 else 0
  }

  /** The row of a mode with the greatest record time. */
  function LatestIndex(a: seq<Account>, m: Mode): (r: Option<nat>)
    ensures r.Some? ==> r.value < |a| && a[r.value].mode == m
                        && forall j | 0 <= j < |a| && a[j].mode == m :: a[j].time <= a[r.value].time
    ensures r.None? ==> forall j | 0 <= j < |a| :: a[j].mode != m
  {
    if a == [] then None
    else
      var n := |a| - 1;
      var before := LatestIndex(a[..n], m);
      if a[n].mode == m && (before.None? || a[before.value].time <= a[n].time) then Some(n) else before
  }

  function Latest(a: seq<Account>, m: Mode): Option<Account> {
    match LatestIndex(a, m)
    case None => None
    case Some(i) => Some(a[i])
  }

  function LatestCash(s: State, m: Mode): Option<real> {
    match Latest(s.accounts, m)
    case None => None
    case Some(a) => Some(a.cash)
  }

  // ----- One mode at a time -----

  function Marked(p: Position, price: real): Position {
    var cost := if p.avgCost.Some? then p.avgCost.value else 0.0;
    p.(price := Some(price), marketValue := Some(price * p.total as real),
       pnl := Some((price - cost) * p.total as real),
       pnlPct := Some(if cost > 0.0 then (price / cost - 1.0) * 100.0 else 0.0))
  }

  /** A position whose quote is missing or has no price is skipped. */
  function Remarked(p: Position, m: Mode, prices: Prices): Position {
    if Open(p, m) && prices(m, p.code).Price? && prices(m, p.code).value != 0.0
    then Marked(p, prices(m, p.code).value)
    else p
  }

  function MarkAll(ps: seq<Position>, m: Mode, prices: Prices): (r: seq<Position>)
    ensures |r| == |ps| && forall i | 0 <= i < |ps| :: r[i] == Remarked(ps[i], m, prices)
  {
    if ps == [] then [] else MarkAll(ps[..|ps| - 1], m, prices) + [Remarked(ps[|ps| - 1], m, prices)]
  }

  predicate LookupRaises(ps: seq<Position>, m: Mode, prices: Prices) {
    exists i | 0 <= i < |ps| :: Open(ps[i], m) && prices(ps[i].mode, ps[i].code).Raises?
  }

  function Rewrite(s: State, m: Mode, f: Account -> Account): State {
    match LatestIndex(s.accounts, m)
    case None => s
    case Some(i) => s.(accounts := s.accounts[i := f(s.accounts[i])])
  }

  function Recomputed(ps: seq<Position>, a: Account, now: int): Account {
    var value := OpenValue(ps, a.mode);
    var total := a.cash + value;
    a.(marketValue := value, total := total, count := Some(OpenCount(ps, a.mode)),
       ratio := Some(if total > 0.0 then value / total else 0.0), time := now)
  }

  function SyncMode(s: State, m: Mode, prices: Prices, now: int): State {
    var ps := MarkAll(s.positions, m, prices);
    Rewrite(State(ps, s.accounts), m, a => Recomputed(ps, a, now))
  }

  function OrZero(x: Option<real>): Option<real> { if x.Some? then x else Some(0.0) }

  /** Unlike the synchronisation, the snapshot divides by any total but zero. */
  function Snapshot(ps: seq<Position>, a: Account, now: int): Account {
    var value := OpenValue(ps, a.mode);
    var total := a.cash + value;
    Account(a.mode, now, a.cash, value, total, Some(OpenCount(ps, a.mode)),
            Some(if total != 0.0 then value / total else 0.0),
            OrZero(a.frozen), OrZero(a.dailyPnl), OrZero(a.totalPnl), OrZero(a.totalPnlPct), true)
  }

  function EodMode(s: State, m: Mode, now: int): State {
    match Latest(s.accounts, m)
    case None => s
    case Some(a) => s.(accounts := s.accounts + [Snapshot(s.positions, a, now)])
  }

  function Abs(x: real): real { if x < 0.0 then -x else x }

  function Drift(s: State, a: Account): real { Abs(a.cash + OpenValue(s.positions, a.mode) - a.total) }

  function ValueDrift(s: State, a: Account): real { Abs(OpenValue(s.positions, a.mode) - a.marketValue) }

  predicate Drifted(s: State, a: Account) { Drift(s, a) > 1.0 || ValueDrift(s, a) > 1.0 }

  datatype Issue = Issue(mode: Mode, critical: bool, drift: real, valueDrift: real)

  function IssueOf(s: State, a: Account): (issue: Issue)
    ensures issue.critical <==> Drift(s, a) > 1000.0 || ValueDrift(s, a) > 1000.0
  {
    var d, v := Drift(s, a), ValueDrift(s, a);
    Issue(a.mode, (if d > v then d else v) > 1000.0, d, v)
  }

  function Repaired(s: State, a: Account, now: int): Account {
    var value := OpenValue(s.positions, a.mode);
    a.(marketValue := value, total := a.cash + value, time := now)
  }

  function ReconcileMode(s: State, m: Mode, now: int): State {
    Rewrite(s, m, a => if Drifted(s, a) then Repaired(s, a, now) else a)
  }

  function IssuesOfMode(s: State, m: Mode): seq<Issue> {
    match Latest(s.accounts, m)
    case None => []
    case Some(a) => if Drifted(s, a) then [IssueOf(s, a)] else []
  }

  /** `release_available_quantity` of one row; no mode means every mode. */
  function Released(p: Position, target: Option<Mode>): Position {
    if (target.None? || p.mode == target.value) && p.total > 0 && p.available < p.total
    then p.(available := p.total)
    else p
  }

  // ----- The operations, over all modes -----

  const MODES := [Simulation, Paper, Live]

  datatype Op =
    | Sync(prices: Prices, now: int)
    | Eod(now: int)
    | Reconcile(now: int)
    | Release(target: Option<Mode>, now: int)

  function ModeStep(s: State, op: Op, m: Mode): State {
    match op
    case Sync(prices, now) => SyncMode(s, m, prices, now)
    case Eod(now) => EodMode(s, m, now)
    case Reconcile(now) => ReconcileMode(s, m, now)
    case Release(_, _) => s
  }

  /** The modes are treated one after the other in one transaction. */
  function ModeSteps(s: State, op: Op, modes: seq<Mode>): State {
    if modes == [] then s else ModeStep(ModeSteps(s, op, modes[..|modes| - 1]), op, modes[|modes| - 1])
  }

  predicate Aborts(s: State, op: Op) {
    op.Sync? && exists i | 0 <= i < |s.positions| ::
      s.positions[i].total > 0 && op.prices(s.positions[i].mode, s.positions[i].code).Raises?
  }

  function Step(s: State, op: Op): State {
    if Aborts(s, op) then s
    else match op
      case Release(target, _) =>
        s.(positions := seq(|s.positions|, i requires 0 <= i < |s.positions| => Released(s.positions[i], target)))
      case Sync(_, _) => ModeSteps(s, op, MODES)
      case Eod(_) => ModeSteps(s, op, MODES)
      case Reconcile(_) => ModeSteps(s, op, MODES)
  }

  /** Every row of mode m is older than now. */
  predicate Older(a: seq<Account>, m: Mode, now: int) {
    forall i | 0 <= i < |a| && a[i].mode == m :: a[i].time < now
  }

  predicate AllOlder(s: State, now: int) { forall i | 0 <= i < |s.accounts| :: s.accounts[i].time < now }

  // ----- The latest row -----

  lemma {:induction false} LatestFrame(a: seq<Account>, b: seq<Account>, m: Mode)
    requires |a| == |b|
    requires forall i | 0 <= i < |a| :: a[i].mode == b[i].mode && (a[i].mode == m ==> a[i] == b[i])
    ensures LatestIndex(a, m) == LatestIndex(b, m)
  {
    if a != [] {
      LatestFrame(a[..|a| - 1], b[..|a| - 1], m);
    }
  }

  /** Rewriting the latest row of mode m, now the newest or with its old time, keeps it the latest and
      leaves the other modes alone. */
  lemma LatestRewritten(a: seq<Account>, m: Mode, i: nat, x: Account, other: Mode)
    requires LatestIndex(a, m) == Some(i) && x.mode == m
    requires x.time == a[i].time || Older(a, m, x.time)
    ensures Latest(a[i := x], m) == Some(x)
    ensures other != m ==> Latest(a[i := x], other) == Latest(a, other)
  {
    if other != m {
      LatestFrame(a, a[i := x], other);
    }
    if x.time == a[i].time {
      SameTimes(a, a[i := x], m);
    }
  }

  lemma {:induction false} SameTimes(a: seq<Account>, b: seq<Account>, m: Mode)
    requires |a| == |b| && forall i | 0 <= i < |a| :: a[i].mode == b[i].mode && a[i].time == b[i].time
    ensures LatestIndex(a, m) == LatestIndex(b, m)
  {
    if a != [] {
      SameTimes(a[..|a| - 1], b[..|a| - 1], m);
    }
  }

  lemma LatestAppended(a: seq<Account>, x: Account, other: Mode)
    requires Older(a, x.mode, x.time)
    ensures Latest(a + [x], x.mode) == Some(x)
    ensures other != x.mode ==> Latest(a + [x], other) == Latest(a, other)
  {
    assert (a + [x])[..|a|] == a;
  }

  lemma {:induction false} MarkingOthers(ps: seq<Position>, m: Mode, prices: Prices, other: Mode)
    requires other != m
    ensures OpenValue(MarkAll(ps, m, prices), other) == OpenValue(ps, other)
  {
    if ps != [] {
      MarkingOthers(ps[..|ps| - 1], m, prices, other);
      assert MarkAll(ps, m, prices)[..|ps| - 1] == MarkAll(ps[..|ps| - 1], m, prices);
    }
  }

  /** The value of a mode's positions: a row more adds its market value when it is open and has one. */
  lemma OpenValueBySum(ps: seq<Position>, p: Position, m: Mode)
    ensures OpenValue([], m) == 0.0
    ensures OpenValue(ps + [p], m) == OpenValue(ps, m)
      + if p.mode == m && p.total > 0 && p.marketValue.Some? then p.marketValue.value else 0.0
  {
    assert (ps + [p])[..|ps|] == ps;
  }

  ghost function OpenAt(ps: seq<Position>, m: Mode): set<int> {
    set i | 0 <= i < |ps| && ps[i].mode == m && ps[i].total > 0
  }

  lemma {:induction false} OpenCountExact(ps: seq<Position>, m: Mode)
    ensures OpenCount(ps, m) == |OpenAt(ps, m)|
  {
    if ps != [] {
      var n := |ps| - 1;
      OpenCountExact(ps[..n], m);
      assert ps == ps[..n] + [ps[n]];
      OneMoreOpen(ps[..n], ps[n], m);
    }
  }

  lemma OneMoreOpen(ps: seq<Position>, p: Position, m: Mode)
    ensures |OpenAt(ps + [p], m)| == |OpenAt(ps, m)| + if p.mode == m && p.total > 0 then 1 else 0
  {
    assert OpenAt(ps + [p], m) == OpenAt(ps, m) + if p.mode == m && p.total > 0 then {|ps|} else {};
  }

  /** The open positions of a mode whose quote has a price. */
  ghost function PricedCount(ps: seq<Position>, m: Mode, prices: Prices): nat {
    if ps == [] then 0 else PricedCount(ps[..|ps| - 1], m, prices) + if Priced(ps[|ps| - 1], m, prices) then 1 else 0
  }

  ghost predicate Priced(p: Position, m: Mode, prices: Prices) {
    p.mode == m && p.total > 0 && prices(m, p.code).Price? && prices(m, p.code).value != 0.0
  }

  lemma {:induction false} MarkingKeepsPriced(ps: seq<Position>, m: Mode, prices: Prices, other: Mode)
    ensures PricedCount(MarkAll(ps, m, prices), other, prices) == PricedCount(ps, other, prices)
  {
    if ps != [] {
      MarkingKeepsPriced(ps[..|ps| - 1], m, prices, other);
      assert MarkAll(ps, m, prices)[..|ps| - 1] == MarkAll(ps[..|ps| - 1], m, prices);
    }
  }

  lemma {:induction false} MarkingKeepsCount(ps: seq<Position>, m: Mode, prices: Prices, other: Mode)
    ensures OpenCount(MarkAll(ps, m, prices), other) == OpenCount(ps, other)
  {
    if ps != [] {
      MarkingKeepsCount(ps[..|ps| - 1], m, prices, other);
      assert MarkAll(ps, m, prices)[..|ps| - 1] == MarkAll(ps[..|ps| - 1], m, prices);
    }
  }

  // ----- What one mode's step does -----

  /** Total assets and market value are exact. */
  predicate Settled(s: State, m: Mode) {
    match Latest(s.accounts, m)
    case None => true
    case Some(a) => a.marketValue == OpenValue(s.positions, m) && a.total == a.cash + a.marketValue
  }

  predicate Quiet(s: State, m: Mode) {
    match Latest(s.accounts, m)
    case None => true
    case Some(a) => !Drifted(s, a)
  }

  /** What an operation leaves of a mode it treats. */
  predicate Done(s: State, op: Op, m: Mode) {
    match op
    case Sync(_, _) => Settled(s, m)
    case Eod(_) => Settled(s, m)
    case Reconcile(_) => Quiet(s, m)
    case Release(_, _) => true
  }

  /** What later steps must not disturb in a mode: its newest row, the value of its positions, its times. */
  predicate SameMode(s: State, t: State, m: Mode, now: int) {
    && Latest(s.accounts, m) == Latest(t.accounts, m)
    && OpenValue(s.positions, m) == OpenValue(t.positions, m)
    && (Older(s.accounts, m, now) ==> Older(t.accounts, m, now))
  }

  lemma SyncModeEffect(s: State, m: Mode, prices: Prices, now: int, other: Mode)
    requires Older(s.accounts, m, now)
    ensures LatestCash(SyncMode(s, m, prices, now), m) == LatestCash(s, m)
    ensures Settled(SyncMode(s, m, prices, now), m)
    ensures other != m ==> SameMode(s, SyncMode(s, m, prices, now), other, now)
  {
    if other != m {
      MarkingOthers(s.positions, m, prices, other);
    }
    match LatestIndex(s.accounts, m)
    case None =>
    case Some(i) =>
      LatestRewritten(s.accounts, m, i, Recomputed(MarkAll(s.positions, m, prices), s.accounts[i], now), other);
  }

  lemma EodModeEffect(s: State, m: Mode, now: int, other: Mode)
    requires Older(s.accounts, m, now)
    ensures LatestCash(EodMode(s, m, now), m) == LatestCash(s, m)
    ensures Settled(EodMode(s, m, now), m)
    ensures other != m ==> SameMode(s, EodMode(s, m, now), other, now)
  {
    match LatestIndex(s.accounts, m)
    case None =>
    case Some(i) =>
      LatestAppended(s.accounts, Snapshot(s.positions, s.accounts[i], now), other);
  }

  lemma ReconcileModeEffect(s: State, m: Mode, now: int, other: Mode)
    requires Older(s.accounts, m, now)
    ensures LatestCash(ReconcileMode(s, m, now), m) == LatestCash(s, m)
    ensures Quiet(ReconcileMode(s, m, now), m)
    ensures other != m ==> SameMode(s, ReconcileMode(s, m, now), other, now)
  {
    match LatestIndex(s.accounts, m)
    case None =>
    case Some(i) =>
      var a := s.accounts[i];
      if Drifted(s, a) {
        LatestRewritten(s.accounts, m, i, Repaired(s, a, now), other);
        RepairedIsQuiet(s, a, now);
      } else {
        QuietMode(s, m, now);
      }
  }

  lemma RepairedIsQuiet(s: State, a: Account, now: int)
    ensures !Drifted(s, Repaired(s, a, now))
  {
  }

  lemma ModeStepEffect(s: State, op: Op, m: Mode, other: Mode)
    requires !op.Release? && Older(s.accounts, m, op.now)
    ensures LatestCash(ModeStep(s, op, m), m) == LatestCash(s, m)
    ensures Done(ModeStep(s, op, m), op, m)
    ensures other != m ==> SameMode(s, ModeStep(s, op, m), other, op.now)
  {
    match op
    case Sync(prices, now) => SyncModeEffect(s, m, prices, now, other);
    case Eod(now) => EodModeEffect(s, m, now, other);
    case Reconcile(now) => ReconcileModeEffect(s, m, now, other);
  }

  lemma DoneStays(s: State, t: State, op: Op, m: Mode)
    requires Done(s, op, m) && SameMode(s, t, m, op.now)
    ensures Done(t, op, m)
  {
    match Latest(s.accounts, m)
    case None =>
    case Some(a) =>
      LatestMode(s.accounts, m);
  }

  lemma LatestMode(a: seq<Account>, m: Mode)
    ensures Latest(a, m).Some? ==> Latest(a, m).value.mode == m
  {
  }

  // ----- Whole operations -----

  lemma ThreeModes(s: State, op: Op)
    ensures ModeSteps(s, op, MODES)
         == ModeStep(ModeStep(ModeStep(s, op, Simulation), op, Paper), op, Live)
  {
    assert ModeSteps(s, op, []) == s;
    assert [Simulation][..0] == [] && [Simulation, Paper][..1] == [Simulation] && MODES[..2] == [Simulation, Paper];
    assert ModeSteps(s, op, [Simulation]) == ModeStep(s, op, Simulation);
    assert ModeSteps(s, op, [Simulation, Paper]) == ModeStep(ModeStep(s, op, Simulation), op, Paper);
  }

  /** Every operation keeps the cash of every mode and does what it is for in every mode: after a
      synchronisation or snapshot the totals are exact, after a reconciliation both drifts are at most 1. */
  lemma StepEffect(s: State, op: Op, m: Mode)
    requires AllOlder(s, op.now)
    ensures LatestCash(Step(s, op), m) == LatestCash(s, m)
    ensures !Aborts(s, op) ==> Done(Step(s, op), op, m)
  {
    if !op.Release? && !Aborts(s, op) {
      var s1 := ModeStep(s, op, Simulation);
      var s2 := ModeStep(s1, op, Paper);
      var s3 := ModeStep(s2, op, Live);
      ThreeModes(s, op);
      ModesReady(s, op);
      ModeStepEffect(s, op, Simulation, m);
      ModeStepEffect(s1, op, Paper, m);
      ModeStepEffect(s2, op, Live, m);
      match m
      case Simulation => DoneStays(s1, s2, op, m); DoneStays(s2, s3, op, m);
      case Paper => DoneStays(s2, s3, op, m);
      case Live =>
    }
  }

  /** When a mode's turn comes its rows are still older than the operation. */
  lemma ModesReady(s: State, op: Op)
    requires !op.Release? && AllOlder(s, op.now)
    ensures Older(ModeStep(s, op, Simulation).accounts, Paper, op.now)
    ensures Older(ModeStep(ModeStep(s, op, Simulation), op, Paper).accounts, Live, op.now)
  {
    StillOlder(s, op, Simulation, Paper);
    StillOlder(s, op, Simulation, Live);
    StillOlder(ModeStep(s, op, Simulation), op, Paper, Live);
  }

  lemma StillOlder(s: State, op: Op, m: Mode, other: Mode)
    requires !op.Release? && m != other && Older(s.accounts, m, op.now) && Older(s.accounts, other, op.now)
    ensures Older(ModeStep(s, op, m).accounts, other, op.now)
  {
    ModeStepEffect(s, op, m, other);
  }

  /** A synchronisation marks every open position with a price to that price, so that value, profit and cost
      add up, and leaves every other position and all quantities alone. */
  lemma SyncPositions(s: State, prices: Prices, now: int, i: nat)
    requires !Aborts(s, Sync(prices, now)) && i < |s.positions|
    ensures var t, p := Step(s, Sync(prices, now)).positions, s.positions[i];
      && |t| == |s.positions|
      && t[i].total == p.total && t[i].available == p.available && t[i].avgCost == p.avgCost
      && (if p.total > 0 && prices(p.mode, p.code).Price? && prices(p.mode, p.code).value != 0.0
          then t[i].price == Some(prices(p.mode, p.code).value) && MarkAddsUp(t[i], prices(p.mode, p.code).value)
          else t[i] == p)
  {
    SyncRemarks(s, prices, now, i);
    var p := s.positions[i];
    if p.total > 0 && prices(p.mode, p.code).Price? && prices(p.mode, p.code).value != 0.0 {
      MarkedAddsUp(p, prices(p.mode, p.code).value);
    }
  }

  lemma SyncRemarks(s: State, prices: Prices, now: int, i: nat)
    requires !Aborts(s, Sync(prices, now)) && i < |s.positions|
    ensures var t := Step(s, Sync(prices, now)).positions;
      |t| == |s.positions| && t[i] == Remarked(s.positions[i], s.positions[i].mode, prices)
  {
    var op := Sync(prices, now);
    ThreeModes(s, op);
    var s1 := ModeStep(s, op, Simulation);
    var s2 := ModeStep(s1, op, Paper);
    SyncModePosition(s, Simulation, prices, now, i);
    SyncModePosition(s1, Paper, prices, now, i);
    SyncModePosition(s2, Live, prices, now, i);
  }

  lemma SyncModePosition(s: State, m: Mode, prices: Prices, now: int, i: nat)
    requires i < |s.positions|
    ensures |SyncMode(s, m, prices, now).positions| == |s.positions|
    ensures SyncMode(s, m, prices, now).positions[i].mode == s.positions[i].mode
    ensures SyncMode(s, m, prices, now).positions[i]
         == if s.positions[i].mode == m then Remarked(s.positions[i], m, prices) else s.positions[i]
  {
  }

  /** market value = price x quantity = cost + profit, and the percentage is profit relative to cost. */
  predicate MarkAddsUp(p: Position, price: real) {
    && p.marketValue.Some? && p.pnl.Some? && p.pnlPct.Some?
    && p.marketValue.value == price * p.total as real
    && p.pnl.value + Cost(p) * p.total as real == p.marketValue.value
    && (if Cost(p) > 0.0 then p.pnlPct.value * Cost(p) == (price - Cost(p)) * 100.0 else p.pnlPct.value == 0.0)
  }

  function Cost(p: Position): real { if p.avgCost.Some? then p.avgCost.value else 0.0 }

  lemma MarkedAddsUp(p: Position, price: real)
    ensures MarkAddsUp(Marked(p, price), price)
  {
    var m := Marked(p, price);
    var cost, n, percent := Cost(p), p.total as real, m.pnlPct.value;
    assert Cost(m) == cost && m.total as real == n;
    assert m.marketValue.value == price * n && m.pnl.value == (price - cost) * n;
    SplitProduct(price, cost, n);
    if cost > 0.0 {
      assert percent == (price / cost - 1.0) * 100.0;
      Ratio(price, cost, percent);
      assert percent * Cost(m) == (price - Cost(m)) * 100.0;
    }
  }

  lemma SplitProduct(price: real, cost: real, n: real)
    ensures (price - cost) * n + cost * n == price * n
  {
  }

  lemma Ratio(price: real, cost: real, percent: real)
    requires cost > 0.0 && percent == (price / cost - 1.0) * 100.0
    ensures percent * cost == (price - cost) * 100.0
  {
    var r := price / cost;
    assert r * cost == price;
    assert percent * cost == 100.0 * (r * cost) - 100.0 * cost;
  }

  /** What mode m looks like when its turn comes: as at the start. Later turns leave its newest row alone. */
  lemma AtItsTurn(s: State, op: Op, m: Mode) returns (r: State)
    requires !op.Release? && AllOlder(s, op.now) && !Aborts(s, op)
    ensures SameMode(s, r, m, op.now) && Older(r.accounts, m, op.now)
    ensures OpenCount(r.positions, m) == OpenCount(s.positions, m)
    ensures Latest(Step(s, op).accounts, m) == Latest(ModeStep(r, op, m).accounts, m)
  {
    var s1 := ModeStep(s, op, Simulation);
    var s2 := ModeStep(s1, op, Paper);
    ThreeModes(s, op);
    ModesReady(s, op);
    ModeStepEffect(s, op, Simulation, m);
    ModeStepEffect(s1, op, Paper, m);
    ModeStepEffect(s2, op, Live, m);
    ModeStepCounts(s, op, Simulation, m);
    ModeStepCounts(s1, op, Paper, m);
    r := match m case Simulation => s case Paper => s1 case Live => s2;
  }

  lemma ModeStepCounts(s: State, op: Op, m: Mode, other: Mode)
    requires !op.Release?
    ensures OpenCount(ModeStep(s, op, m).positions, other) == OpenCount(s.positions, other)
  {
    if op.Sync? {
      MarkingKeepsCount(s.positions, m, op.prices, other);
    }
  }

  /** Row b is row a with the time, the number of positions and their share in the total renewed. */
  predicate SyncedFrom(a: Account, b: Account, count: nat, now: int) {
    && b.mode == a.mode && b.time == now && b.cash == a.cash && b.count == Some(count) && b.ratio.Some?
    && (if b.total > 0.0 then b.ratio.value * b.total == b.marketValue else b.ratio.value == 0.0)
    && b.frozen == a.frozen && b.dailyPnl == a.dailyPnl && b.totalPnl == a.totalPnl && b.totalPnlPct == a.totalPnlPct
    && b.eod == a.eod
  }

  /** A synchronisation rewrites the newest row of each mode for the moment: the totals of its open positions as they
      are marked, their number and their share, and nothing else. */
  lemma SyncedRow(s: State, prices: Prices, now: int, m: Mode)
    requires AllOlder(s, now) && !Aborts(s, Sync(prices, now)) && Latest(s.accounts, m).Some?
    ensures var a, t := Latest(s.accounts, m).value, Step(s, Sync(prices, now));
      && Latest(t.accounts, m).Some?
      && var b := Latest(t.accounts, m).value;
      && b.marketValue == OpenValue(t.positions, m) && b.total == b.cash + b.marketValue
      && SyncedFrom(a, b, OpenCount(s.positions, m), now)
  {
    var r := AtItsTurn(s, Sync(prices, now), m);
    RowOfMode(r, m, prices, now);
    StepEffect(s, Sync(prices, now), m);
  }

  lemma RowOfMode(s: State, m: Mode, prices: Prices, now: int)
    requires Older(s.accounts, m, now) && Latest(s.accounts, m).Some?
    ensures var a, t := Latest(s.accounts, m).value, SyncMode(s, m, prices, now);
      && Latest(t.accounts, m).Some?
      && var b := Latest(t.accounts, m).value;
      SyncedFrom(a, b, OpenCount(s.positions, m), now)
  {
    var i, ps := LatestIndex(s.accounts, m).value, MarkAll(s.positions, m, prices);
    LatestRewritten(s.accounts, m, i, Recomputed(ps, s.accounts[i], now), m);
    MarkingKeepsCount(s.positions, m, prices, m);
    RatioIsShare(ps, s.accounts[i], now);
  }

  /** A snapshot adds the books of the moment: it is the newest row of its mode and carries cash, frozen cash and
      profits over from the row before, NULL becoming 0. */
  lemma SnapshotCarries(s: State, now: int, m: Mode)
    requires AllOlder(s, now) && Latest(s.accounts, m).Some?
    ensures var a, t := Latest(s.accounts, m).value, Latest(Step(s, Eod(now)).accounts, m);
      && t.Some? && t.value.eod && t.value.time == now && t.value.cash == a.cash
      && t.value.count == Some(OpenCount(s.positions, m))
      && t.value.ratio.Some? && (t.value.total == 0.0 ==> t.value.ratio.value == 0.0)
      && t.value.frozen == (if a.frozen.Some? then a.frozen else Some(0.0))
      && t.value.dailyPnl == (if a.dailyPnl.Some? then a.dailyPnl else Some(0.0))
      && t.value.totalPnl == (if a.totalPnl.Some? then a.totalPnl else Some(0.0))
      && t.value.totalPnlPct == (if a.totalPnlPct.Some? then a.totalPnlPct else Some(0.0))
  {
    var r := AtItsTurn(s, Eod(now), m);
    LatestMode(s.accounts, m);
    SnapshotOfMode(r, m, now);
  }

  lemma SnapshotOfMode(s: State, m: Mode, now: int)
    requires Older(s.accounts, m, now) && Latest(s.accounts, m).Some?
    ensures Latest(EodMode(s, m, now).accounts, m) == Some(Snapshot(s.positions, Latest(s.accounts, m).value, now))
    ensures EodMode(s, m, now).positions == s.positions
  {
    LatestAppended(s.accounts, Snapshot(s.positions, Latest(s.accounts, m).value, now), m);
  }

  /** The recorded ratio is the share of the positions in the total, whenever there is a total. */
  lemma RatioIsShare(ps: seq<Position>, a: Account, now: int)
    ensures var r := Recomputed(ps, a, now); r.total > 0.0 ==> r.ratio.value * r.total == r.marketValue
    ensures var r := Snapshot(ps, a, now); r.total != 0.0 ==> r.ratio.value * r.total == r.marketValue
  {
    var value := OpenValue(ps, a.mode);
    var total := a.cash + value;
    if total != 0.0 {
      assert value / total * total == value;
    }
  }

  /** Account rows are never removed, and no row, new or old, gets another cash or mode. */
  lemma RowsKeepCash(s: State, op: Op, i: nat)
    requires i < |s.accounts|
    ensures var t := Step(s, op).accounts;
      && |s.accounts| <= |t|
      && t[i].cash == s.accounts[i].cash && t[i].mode == s.accounts[i].mode
      && (op.Eod? || op.Release? ==> t[i] == s.accounts[i])
      && (!op.Eod? ==> |t| == |s.accounts|)
  {
    if !op.Release? {
      ThreeModes(s, op);
      ModeStepRows(s, op, Simulation);
      ModeStepRows(ModeStep(s, op, Simulation), op, Paper);
      ModeStepRows(ModeStep(ModeStep(s, op, Simulation), op, Paper), op, Live);
    }
  }

  /** A snapshot adds a row for every mode that has one. */
  lemma EodAdds(s: State, now: int)
    ensures |Step(s, Eod(now)).accounts| == |s.accounts| + One(Latest(s.accounts, Simulation).Some?)
            + One(Latest(s.accounts, Paper).Some?) + One(Latest(s.accounts, Live).Some?)
  {
    var op := Eod(now);
    ThreeModes(s, op);
    EodAddsOne(s, Simulation, now);
    EodAddsOne(ModeStep(s, op, Simulation), Paper, now);
    EodAddsOne(ModeStep(ModeStep(s, op, Simulation), op, Paper), Live, now);
  }

  lemma EodAddsOne(s: State, m: Mode, now: int)
    ensures |EodMode(s, m, now).accounts| == |s.accounts| + One(Latest(s.accounts, m).Some?)
    ensures forall other :: Latest(EodMode(s, m, now).accounts, other).Some? <==> Latest(s.accounts, other).Some?
  {
    if Latest(s.accounts, m).Some? {
      var x := Snapshot(s.positions, Latest(s.accounts, m).value, now);
      assert (s.accounts + [x])[..|s.accounts|] == s.accounts;
    }
  }

  lemma ModeStepRows(s: State, op: Op, m: Mode)
    ensures var t := ModeStep(s, op, m).accounts;
      && |s.accounts| <= |t|
      && (forall i | 0 <= i < |s.accounts| ::
           t[i].cash == s.accounts[i].cash && t[i].mode == s.accounts[i].mode && (op.Eod? ==> t[i] == s.accounts[i]))
      && (!op.Eod? ==> |t| == |s.accounts|)
  {
  }

  // ----- Runs -----

  function Run(s: State, ops: seq<Op>): State {
    if ops == [] then s else Step(Run(s, ops[..|ops| - 1]), ops[|ops| - 1])
  }

  /** The clock never stands still between operations. */
  predicate Timed(s: State, ops: seq<Op>) {
    && (forall i | 0 <= i < |ops| :: AllOlder(s, ops[i].now))
    && forall i, j | 0 <= i < j < |ops| :: ops[i].now < ops[j].now
  }

  lemma StepTimes(s: State, op: Op, later: int)
    requires AllOlder(s, later) && op.now < later
    ensures AllOlder(Step(s, op), later)
  {
    if !op.Release? && !Aborts(s, op) {
      ThreeModes(s, op);
      ModeStepTimes(s, op, Simulation, later);
      ModeStepTimes(ModeStep(s, op, Simulation), op, Paper, later);
      ModeStepTimes(ModeStep(ModeStep(s, op, Simulation), op, Paper), op, Live, later);
    }
  }

  lemma ModeStepTimes(s: State, op: Op, m: Mode, later: int)
    requires AllOlder(s, later) && op.now < later
    ensures AllOlder(ModeStep(s, op, m), later)
  {
  }

  lemma {:induction false} RunTimes(s: State, ops: seq<Op>, later: int)
    requires Timed(s, ops) && AllOlder(s, later) && forall i | 0 <= i < |ops| :: ops[i].now < later
    ensures AllOlder(Run(s, ops), later)
  {
    if ops != [] {
      RunTimes(s, ops[..|ops| - 1], later);
      StepTimes(Run(s, ops[..|ops| - 1]), ops[|ops| - 1], later);
    }
  }

  /** No sequence of synchronisations, snapshots, reconciliations and releases changes a mode's cash. */
  lemma {:induction false} CashNeverChanges(s: State, ops: seq<Op>, m: Mode)
    requires Timed(s, ops)
    ensures LatestCash(Run(s, ops), m) == LatestCash(s, m)
  {
    if ops != [] {
      var n := |ops| - 1;
      CashNeverChanges(s, ops[..n], m);
      RunTimes(s, ops[..n], ops[n].now);
      StepEffect(Run(s, ops[..n]), ops[n], m);
    }
  }

  /** Wherever in a run a synchronisation or snapshot comes, it leaves every mode's totals exact. */
  lemma TotalsAfterAnyRun(s: State, ops: seq<Op>, op: Op, m: Mode)
    requires Timed(s, ops + [op]) && (op.Sync? || op.Eod?)
    requires !Aborts(Run(s, ops), op)
    ensures Settled(Run(s, ops + [op]), m)
  {
    var all := ops + [op];
    assert all[..|ops|] == ops && all[|ops|] == op;
    assert Timed(s, ops) by {
      assert forall i | 0 <= i < |ops| :: all[i] == ops[i];
    }
    RunTimes(s, ops, op.now);
    StepEffect(Run(s, ops), op, m);
  }

  // ----- Reconciliation -----

  function Issues(s: State): seq<Issue> {
    IssuesOfMode(s, Simulation) + IssuesOfMode(s, Paper) + IssuesOfMode(s, Live)
  }

  /** A row has drifted when it is more than 1 away from cash and positions, up or down, in its total or in its market
      value; the issue gives both distances, and is critical above 1000. */
  lemma DriftedIff(s: State, a: Account)
    ensures var value := OpenValue(s.positions, a.mode);
      var d, v := a.cash + value - a.total, value - a.marketValue;
      && (Drifted(s, a) <==> d > 1.0 || d < -1.0 || v > 1.0 || v < -1.0)
      && IssueOf(s, a).mode == a.mode
      && IssueOf(s, a).drift == (if d >= 0.0 then d else -d)
      && IssueOf(s, a).valueDrift == (if v >= 0.0 then v else -v)
      && (IssueOf(s, a).critical <==> d > 1000.0 || d < -1000.0 || v > 1000.0 || v < -1000.0)
  {
  }

  /** A reconciliation sets total and market value of each drifted row to what cash and positions give, as of now. */
  lemma ReconciledRow(s: State, now: int, m: Mode)
    requires AllOlder(s, now) && Latest(s.accounts, m).Some?
    ensures var a, t := Latest(s.accounts, m).value, Step(s, Reconcile(now));
      && t.positions == s.positions && Latest(t.accounts, m).Some?
      && var b := Latest(t.accounts, m).value;
      if Drifted(s, a)
      then b == a.(marketValue := OpenValue(s.positions, m), total := a.cash + OpenValue(s.positions, m), time := now)
      else b == a
  {
    var r := AtItsTurn(s, Reconcile(now), m);
    LatestMode(s.accounts, m);
    ReconciledRowOfMode(r, m, now);
    ReconcileKeepsPositions(s, now);
  }

  lemma ReconcileKeepsPositions(s: State, now: int)
    ensures Step(s, Reconcile(now)).positions == s.positions
  {
    ThreeModes(s, Reconcile(now));
  }

  lemma ReconciledRowOfMode(s: State, m: Mode, now: int)
    requires Older(s.accounts, m, now) && Latest(s.accounts, m).Some?
    ensures var a, t := Latest(s.accounts, m).value, ReconcileMode(s, m, now);
      Latest(t.accounts, m) == Some(if Drifted(s, a) then Repaired(s, a, now) else a)
  {
    var i := LatestIndex(s.accounts, m).value;
    var a := s.accounts[i];
    LatestRewritten(s.accounts, m, i, if Drifted(s, a) then Repaired(s, a, now) else a, m);
  }

  lemma SettledIsQuiet(s: State, m: Mode)
    requires Settled(s, m)
    ensures Quiet(s, m)
  {
    LatestMode(s.accounts, m);
  }

  /** Reconciling quiet books reports nothing and changes nothing. */
  lemma QuietReconcile(s: State, now: int)
    requires Quiet(s, Simulation) && Quiet(s, Paper) && Quiet(s, Live)
    ensures Issues(s) == [] && Step(s, Reconcile(now)) == s
  {
    ThreeModes(s, Reconcile(now));
    QuietMode(s, Simulation, now);
    QuietMode(s, Paper, now);
    QuietMode(s, Live, now);
  }

  lemma QuietMode(s: State, m: Mode, now: int)
    requires Quiet(s, m)
    ensures IssuesOfMode(s, m) == [] && ReconcileMode(s, m, now) == s
  {
    match LatestIndex(s.accounts, m)
    case None =>
    case Some(i) => assert s.accounts[i := s.accounts[i]] == s.accounts;
  }

  /** After a reconciliation, a synchronisation or a snapshot, a reconciliation reports nothing and
      changes nothing. */
  lemma ReconcileAfter(s: State, op: Op, now: int)
    requires AllOlder(s, op.now) && !op.Release? && !Aborts(s, op)
    ensures Issues(Step(s, op)) == [] && Step(Step(s, op), Reconcile(now)) == Step(s, op)
  {
    forall m: Mode ensures Quiet(Step(s, op), m) {
      StepEffect(s, op, m);
      if !op.Reconcile? {
        SettledIsQuiet(Step(s, op), m);
      }
    }
    QuietReconcile(Step(s, op), now);
  }

  // ----- T+1 release -----

  /** From available <= total, the targeted open positions end with available == total; the others, and
      everything but `available`, stay as they are; a second release finds nothing to do. */
  lemma ReleaseEffect(s: State, target: Option<Mode>, now: int, again: int)
    ensures var t := Step(s, Release(target, now));
      && t.accounts == s.accounts && |t.positions| == |s.positions|
      && (forall i | 0 <= i < |s.positions| ::
           && t.positions[i] == s.positions[i].(available := t.positions[i].available)
           && s.positions[i].available <= t.positions[i].available
           && (t.positions[i] != s.positions[i] <==>
                && (target.None? || s.positions[i].mode == target.value)
                && s.positions[i].total > 0 && s.positions[i].available < s.positions[i].total)
           && ((target.None? || s.positions[i].mode == target.value) && s.positions[i].total > 0
                && s.positions[i].available <= s.positions[i].total
               ==> t.positions[i].available == s.positions[i].total)
           && (target.Some? && s.positions[i].mode != target.value ==> t.positions[i] == s.positions[i]))
      && Step(t, Release(target, again)) == t
  {
    var t := Step(s, Release(target, now));
    assert Step(t, Release(target, again)).positions == t.positions;
  }

  /** A release moves no money: it keeps every total exact and every reconciliation quiet. */
  lemma ReleaseKeepsTotals(s: State, target: Option<Mode>, now: int, m: Mode)
    ensures OpenValue(Step(s, Release(target, now)).positions, m) == OpenValue(s.positions, m)
    ensures Settled(s, m) <==> Settled(Step(s, Release(target, now)), m)
    ensures Quiet(s, m) <==> Quiet(Step(s, Release(target, now)), m)
  {
    ReleaseEffect(s, target, now, now);
    SameValues(s.positions, Step(s, Release(target, now)).positions, m);
    LatestMode(s.accounts, m);
  }

  lemma {:induction false} SameValues(ps: seq<Position>, qs: seq<Position>, m: Mode)
    requires |ps| == |qs|
    requires forall i | 0 <= i < |ps| :: qs[i] == ps[i].(available := qs[i].available)
    ensures OpenValue(ps, m) == OpenValue(qs, m)
  {
    if ps != [] {
      SameValues(ps[..|ps| - 1], qs[..|ps| - 1], m);
    }
  }
}
