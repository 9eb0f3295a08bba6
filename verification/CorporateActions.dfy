/** Corporate-action entitlements and the day-by-day reference books
    (backend/app/backtest/corporate_actions.py, backend/app/backtest/corporate_action_validation.py).
    Decimal amounts are exact reals, dates are ordinals. */
module CorporateActions {
  import opened Common
  import opened Calendar
  import opened Ordering

  datatype Event = Event(
    announcementDate: int, recordDate: int, exDate: int, cashPaymentDate: int, shareCreditDate: int,
    cashPer10: real, sharesPer10: real,
    sourceName: string, sourceReference: string, evidenceHash: string, verificationStatus: string)

  datatype EventError =
    | NotVerified | NotReproducible | BadEvidenceHash | InconsistentDates | PrecedesExDate
    | NegativeQuantity | FractionalShares | MissingClose(day: int)

  datatype Entitlement = Entitlement(shares: int, cash: real)

  /** The first failed check, in the order of the source. */
  function Invalidity(e: Event): Option<EventError> {
    if e.verificationStatus != "verified" then Some(NotVerified)
    else if e.sourceName in {"", "unknown"} || e.sourceReference == "" then Some(NotReproducible)
    else if |e.evidenceHash| != 64 then Some(BadEvidenceHash)
    else if !(e.announcementDate <= e.recordDate <= e.exDate) then Some(InconsistentDates)
    else if e.cashPaymentDate < e.exDate || e.shareCreditDate < e.exDate then Some(PrecedesExDate)
    else None
  }

  /** An event is valid when it is verified, names its source, carries a hash of 64 characters, and its dates follow
      one another, the due dates after the ex-date in any order. */
  lemma ValidIff(e: Event)
    ensures Invalidity(e) == None <==>
      && e.verificationStatus == "verified" && e.sourceName != "" && e.sourceName != "unknown"
      && e.sourceReference != "" && |e.evidenceHash| == 64
      && e.announcementDate <= e.recordDate <= e.exDate
      && e.exDate <= e.cashPaymentDate && e.exDate <= e.shareCreditDate
    ensures Invalidity(e) == Some(NotVerified) <==> e.verificationStatus != "verified"
    ensures Invalidity(e) == Some(PrecedesExDate) ==>
      e.announcementDate <= e.recordDate <= e.exDate && (e.cashPaymentDate < e.exDate || e.shareCreditDate < e.exDate)
  {
  }

  function ShareValue(e: Event, quantity: int): real {
    quantity as real * e.sharesPer10 / 10.0
  }

  function CashValue(e: Event, quantity: int): real {
    quantity as real * e.cashPer10 / 10.0
  }

  predicate Whole(x: real) {
    x == x.Floor as real
  }

  function ReferenceEntitlement(e: Event, quantity: int): Result<Entitlement, EventError> {
    var shares := ShareValue(e, quantity);
    if !Whole(shares) then Failure(FractionalShares)
    else Success(Entitlement(shares.Floor, CashValue(e, quantity)))
  }

  /** `Decimal.to_integral_value`: the nearest integer, and of two equally near the even one. */
  function ToIntegral(x: real): int {
    var below, excess := x.Floor, x - x.Floor as real;
    if excess < 0.5 || (excess == 0.5 && below % 2 == 0) then below else below + 1
  }

  /** `int(Decimal)` cuts towards zero. */
  function Truncated(x: real): int {
    if x >= 0.0 then x.Floor else -((-x).Floor)
  }

  /** The processor's own computation. */
  function CalculateEntitlement(e: Event, quantity: int): Result<Entitlement, EventError> {
    if Invalidity(e).Some? then Failure(Invalidity(e).value)
    else if quantity < 0 then Failure(NegativeQuantity)
    else
      var shareValue := quantity as real * e.sharesPer10 / 10.0;
      if shareValue != ToIntegral(shareValue) as real then Failure(FractionalShares)
      else Success(Entitlement(Truncated(shareValue), quantity as real * e.cashPer10 / 10.0))
  }

  datatype DailyState = DailyState(
    day: int, totalQty: int, availableQty: int, avgCost: real, totalCost: real, cash: real,
    income: real, realizedPnl: real, unrealizedPnl: real, marketValue: real, totalAssets: real)

  datatype Books = Books(quantity: int, cash: real, income: real, entitlement: Option<Entitlement>)

  /** One day: due credits first, then the record-date entitlement is taken. */
  function NextBooks(e: Event, day: int, b: Books): Result<Books, EventError> {
    var due := b.entitlement.Some? && day == e.shareCreditDate;
    var paid := b.entitlement.Some? && day == e.cashPaymentDate;
    var quantity := if due then b.quantity + b.entitlement.value.shares else b.quantity;
    var cash := if paid then b.entitlement.value.cash else 0.0;
    var b' := Books(quantity, b.cash + cash, b.income + cash, b.entitlement);
    if day != e.recordDate then Success(b')
    else
      match ReferenceEntitlement(e, quantity)
      case Failure(error) => Failure(error)
      case Success(entitlement) => Success(b'.(entitlement := Some(entitlement)))
  }

  function StateOf(day: int, b: Books, cost: real, close: real): DailyState {
    var value := b.quantity as real * close;
    DailyState(day, b.quantity, b.quantity,
               if b.quantity != 0 then cost / b.quantity as real else 0.0, cost, b.cash, b.income,
               0.0, value - cost, value, b.cash + value)
  }

  function BooksAfter(e: Event, days: seq<int>, closes: map<int, real>, start: Books): Result<Books, EventError> {
    if days == [] then Success(start)
    else
      var n := |days| - 1;
      match BooksAfter(e, days[..n], closes, start)
      case Failure(error) => Failure(error)
      case Success(b) =>
        match NextBooks(e, days[n], b)
        case Failure(error) => Failure(error)
        case Success(b') => if days[n] in closes then Success(b') else Failure(MissingClose(days[n]))
  }

  class ReferencePosition {
    var totalQty: int
    var availableQty: int
    var totalCost: real
    var realizedPnl: real

    constructor (quantity: int, cost: real)
      ensures totalQty == availableQty == quantity && totalCost == cost && realizedPnl == 0.0
    {
      totalQty, availableQty, totalCost, realizedPnl := quantity, quantity, cost, 0.0;
    }

    function AvgCost(): real
      reads this
    {
      if totalQty != 0 then totalCost / totalQty as real else 0.0
    }
  }

  /** The state recorded for day i. */
  ghost predicate Recorded(state: DailyState, e: Event, days: seq<int>, closes: map<int, real>,
                           start: Books, cost: real, i: nat)
    requires i < |days|
  {
    && BooksAfter(e, days[..i + 1], closes, start).Success?
    && days[i] in closes
    && state == StateOf(days[i], BooksAfter(e, days[..i + 1], closes, start).value, cost, closes[days[i]])
  }

  /** One turn of the loop up to the valuation. */
  method Advance(position: ReferencePosition, e: Event, day: int, cash: real, income: real,
                 entitlement: Option<Entitlement>)
    returns (r: Result<(real, real, Option<Entitlement>), EventError>)
    modifies position
    ensures position.totalCost == old(position.totalCost) && position.realizedPnl == old(position.realizedPnl)
    ensures match NextBooks(e, day, Books(old(position.totalQty), cash, income, entitlement))
      case Failure(error) => r == Failure(error)
      case Success(b) =>
        && r == Success((b.cash, b.income, b.entitlement))
        && position.totalQty == position.availableQty == b.quantity
  {
    var cash', income', taken := cash, income, entitlement;
    if entitlement.Some? && day == e.shareCreditDate {
      position.totalQty := position.totalQty + entitlement.value.shares;
      position.availableQty := position.totalQty;
    }
    if entitlement.Some? && day == e.cashPaymentDate {
      cash' := cash + entitlement.value.cash;
      income' := income + entitlement.value.cash;
    }
    position.availableQty := position.totalQty;
    if day == e.recordDate {
      var computed := ReferenceEntitlement(e, position.totalQty);
      if computed.Failure? {
        return Failure(computed.error);
      }
      taken := Some(computed.value);
    }
    r := Success((cash', income', taken));
  }

  method ReferenceDailyStates(e: Event, days: seq<int>, closes: map<int, real>,
                              initialQuantity: int, initialCost: real, initialCash: real)
    returns (r: Result<seq<DailyState>, EventError>)
    ensures var start := Books(initialQuantity, initialCash, 0.0, None);
      match BooksAfter(e, days, closes, start)
      case Failure(error) => r == Failure(error)
      case Success(_) =>
        && r.Success? && |r.value| == |days|
        && forall i | 0 <= i < |days| :: Recorded(r.value[i], e, days, closes, start, initialCost, i)
  {
    var position := new ReferencePosition(initialQuantity, initialCost);
    var cash := initialCash;
    var income := 0.0;
    var entitlement: Option<Entitlement> := None;
    var states: seq<DailyState> := [];
    ghost var start := Books(initialQuantity, initialCash, 0.0, None);
    for n := 0 to |days|
      invariant BooksAfter(e, days[..n], closes, start) == Success(Books(position.totalQty, cash, income, entitlement))
      invariant position.totalCost == initialCost && position.realizedPnl == 0.0
      invariant |states| == n
      invariant forall i | 0 <= i < n :: Recorded(states[i], e, days, closes, start, initialCost, i)
    {
      var day := days[n];
      assert days[..n + 1][..n] == days[..n];
      var next := Advance(position, e, day, cash, income, entitlement);
      if next.Failure? {
        FailureStays(e, days, closes, start, n + 1);
        return Failure(next.error);
      }
      cash, income, entitlement := next.value.0, next.value.1, next.value.2;
      if day !in closes {
        FailureStays(e, days, closes, start, n + 1);
        return Failure(MissingClose(day));
      }
      ghost var books := Books(position.totalQty, cash, income, entitlement);
      assert BooksAfter(e, days[..n + 1], closes, start) == Success(books);
      var state := Audited(position, day, cash, income, closes[day]);
      assert Recorded(state, e, days, closes, start, initialCost, n);
      states := states + [state];
    }
    assert days[..|days|] == days;
    return Success(states);
  }

  method Audited(position: ReferencePosition, day: int, cash: real, income: real, close: real)
    returns (state: DailyState)
    requires position.availableQty == position.totalQty && position.realizedPnl == 0.0
    ensures forall entitlement ::
      state == StateOf(day, Books(position.totalQty, cash, income, entitlement), position.totalCost, close)
  {
    var marketValue := position.totalQty as real * close;
    state := DailyState(day, position.totalQty, position.availableQty, position.AvgCost(),
                        position.totalCost, cash, income, position.realizedPnl,
                        marketValue - position.totalCost, marketValue, cash + marketValue);
  }

  lemma {:induction false} FailureStays(e: Event, days: seq<int>, closes: map<int, real>, start: Books, n: nat)
    requires n <= |days| && BooksAfter(e, days[..n], closes, start).Failure?
    ensures BooksAfter(e, days, closes, start) == BooksAfter(e, days[..n], closes, start)
    decreases |days|
  {
    if n < |days| {
      assert days[..|days| - 1][..n] == days[..n];
      FailureStays(e, days[..|days| - 1], closes, start, n);
    } else {
      assert days[..n] == days;
    }
  }

  // ---------------------------------------------------------------- closed form

  /** The record date is an earlier trading day than the due date, which is one of the first n. */
  ghost predicate PaidWithin(days: seq<int>, record: int, due: int, n: nat)
    requires n <= |days|
  {
    exists r, c :: 0 <= r < c < n && days[r] == record && days[c] == due
  }

  lemma PaidWithinStep(days: seq<int>, record: int, due: int, n: nat)
    requires n < |days| && Increasing(days)
    ensures PaidWithin(days, record, due, n + 1)
       <==> PaidWithin(days, record, due, n) || (record in days[..n] && days[n] == due)
    ensures days[n] == due ==> !PaidWithin(days, record, due, n)
  {
  }

  /** Nothing has been credited before its own date, everything has been credited once from that date on. */
  ghost predicate ClosedForm(e: Event, start: Books, days: seq<int>, closes: map<int, real>, n: nat,
                             r: Result<Books, EventError>)
    requires n <= |days|
  {
    var taken := ReferenceEntitlement(e, start.quantity);
    && (r.Success? <==> (forall d | d in days[..n] :: d in closes) && (e.recordDate in days[..n] ==> taken.Success?))
    && (r.Success? ==>
        && r.value.entitlement == (if e.recordDate in days[..n] then Some(taken.value) else None)
        && r.value.quantity == start.quantity
             + (if PaidWithin(days, e.recordDate, e.shareCreditDate, n) then taken.value.shares else 0)
        && r.value.cash == start.cash
             + (if PaidWithin(days, e.recordDate, e.cashPaymentDate, n) then taken.value.cash else 0.0)
        && r.value.income - start.income == r.value.cash - start.cash)
  }

  /** After any number of days the books are in closed form. */
  lemma {:induction false} BooksClosedForm(e: Event, days: seq<int>, closes: map<int, real>, start: Books, n: nat)
    requires Increasing(days) && n <= |days| && start.entitlement.None?
    ensures ClosedForm(e, start, days, closes, n, BooksAfter(e, days[..n], closes, start))
  {
    if n > 0 {
      BooksClosedForm(e, days, closes, start, n - 1);
      assert days[..n][..n - 1] == days[..n - 1];
      DayKeepsClosedForm(e, days, closes, start, n - 1);
    }
  }

  lemma DayKeepsClosedForm(e: Event, days: seq<int>, closes: map<int, real>, start: Books, n: nat)
    requires Increasing(days) && n < |days| && start.entitlement.None?
    requires ClosedForm(e, start, days, closes, n, BooksAfter(e, days[..n], closes, start))
    ensures ClosedForm(e, start, days, closes, n + 1, BooksAfter(e, days[..n + 1], closes, start))
  {
    PaidWithinStep(days, e.recordDate, e.shareCreditDate, n);
    PaidWithinStep(days, e.recordDate, e.cashPaymentDate, n);
    assert days[..n + 1][..n] == days[..n];
    assert days[..n + 1] == days[..n] + [days[n]];
    assert days[n] !in days[..n];
  }

  /** Every recorded state in closed form. */
  lemma RecordedClosedForm(state: DailyState, e: Event, days: seq<int>, closes: map<int, real>,
                           quantity: int, cost: real, cash: real, i: nat)
    requires Increasing(days) && i < |days|
    requires Recorded(state, e, days, closes, Books(quantity, cash, 0.0, None), cost, i)
    ensures var shares := PaidWithin(days, e.recordDate, e.shareCreditDate, i + 1);
      var money := PaidWithin(days, e.recordDate, e.cashPaymentDate, i + 1);
      && state.totalQty as real == quantity as real + (if shares then quantity as real * e.sharesPer10 / 10.0 else 0.0)
      && state.cash == cash + (if money then quantity as real * e.cashPer10 / 10.0 else 0.0)
      && state.income == (if money then quantity as real * e.cashPer10 / 10.0 else 0.0)
    ensures state.day == days[i] && state.availableQty == state.totalQty
    ensures state.totalCost == cost && state.realizedPnl == 0.0
    ensures if state.totalQty == 0 then state.avgCost == 0.0 else state.avgCost * state.totalQty as real == cost
    ensures state.marketValue == state.totalQty as real * closes[days[i]]
    ensures state.totalAssets == state.cash + state.marketValue
    ensures state.unrealizedPnl == state.marketValue - cost
  {
    if state.totalQty != 0 {
      AverageTimes(cost, state.totalQty as real);
    }
    BooksClosedForm(e, days, closes, Books(quantity, cash, 0.0, None), i + 1);
    assert forall d | d in days[..i + 1] :: d in days;
  }

  lemma AverageTimes(cost: real, quantity: real)
    requires quantity != 0.0
    ensures cost / quantity * quantity == cost
  {
  }

  /** When an entitlement is paid: from the due date on if the record date is an earlier trading day;
      never if it is the same day, a later day, or no trading day. */
  lemma PaidFromDueDateOn(days: seq<int>, record: int, due: int, i: nat)
    requires Increasing(days) && i < |days|
    ensures PaidWithin(days, record, due, i + 1)
       <==> record in days && due in days && record < due <= days[i]
  {
    if record in days && due in days && record < due <= days[i] {
      var r :| 0 <= r < |days| && days[r] == record;
      var c :| 0 <= c < |days| && days[c] == due;
      assert r < c <= i;
    }
  }

  /** validate_event lets record date and credit date coincide. Such an event is never credited;
      every other valid event is, if its dates are trading days. */
  lemma ValidEventIsCreditedUnlessSameDay(e: Event, days: seq<int>)
    requires Increasing(days) && Invalidity(e).None?
    requires e.recordDate in days && e.shareCreditDate in days && e.cashPaymentDate in days
    ensures PaidWithin(days, e.recordDate, e.shareCreditDate, |days|) <==> e.recordDate != e.shareCreditDate
    ensures PaidWithin(days, e.recordDate, e.cashPaymentDate, |days|) <==> e.recordDate != e.cashPaymentDate
  {
    PaidFromDueDateOn(days, e.recordDate, e.shareCreditDate, |days| - 1);
    PaidFromDueDateOn(days, e.recordDate, e.cashPaymentDate, |days| - 1);
    var c :| 0 <= c < |days| && days[c] == e.shareCreditDate;
    var p :| 0 <= p < |days| && days[p] == e.cashPaymentDate;
  }

  /** A same-day event that passes validation although its entitlement is lost. */
  lemma SameDayExample() returns (e: Event, days: seq<int>)
    ensures Invalidity(e).None? && Increasing(days)
    ensures e.recordDate in days && e.shareCreditDate in days
    ensures ReferenceEntitlement(e, 100) == Success(Entitlement(40, 100.0))
    ensures !PaidWithin(days, e.recordDate, e.shareCreditDate, |days|)
  {
    e := Event(1, 2, 2, 2, 2, 10.0, 4.0, "exchange", "notice", seq(64, i => 'a'), "verified");
    days := [1, 2, 3];
    assert days[1] == 2;
    assert ShareValue(e, 100) == 40.0;
  }

  lemma IntegralIffWhole(x: real)
    ensures x == ToIntegral(x) as real <==> Whole(x)
    ensures Whole(x) ==> Truncated(x) == x.Floor
  {
    if Whole(x) && x < 0.0 {
      assert -x == (-x.Floor) as real;
    }
  }

  lemma SameEntitlement(e: Event, quantity: int)
    ensures CalculateEntitlement(e, quantity) ==
      if Invalidity(e).Some? then Failure(Invalidity(e).value)
      else if quantity < 0 then Failure(NegativeQuantity)
      else ReferenceEntitlement(e, quantity)
  {
    var shareValue := quantity as real * e.sharesPer10 / 10.0;
    assert ShareValue(e, quantity) == shareValue;
    assert CashValue(e, quantity) == quantity as real * e.cashPer10 / 10.0;
    IntegralIffWhole(shareValue);
  }

  lemma ReferenceAmounts(e: Event, quantity: int)
    requires ReferenceEntitlement(e, quantity).Success?
    ensures var t := ReferenceEntitlement(e, quantity).value;
      && t.shares as real * 10.0 == quantity as real * e.sharesPer10
      && t.cash * 10.0 == quantity as real * e.cashPer10
  {
    TenthOfTen(quantity as real * e.sharesPer10);
    TenthOfTen(quantity as real * e.cashPer10);
  }

  /** An entitlement exists exactly when the promised shares come to a whole number. */
  lemma EntitledIff(e: Event, quantity: int, n: int)
    ensures ReferenceEntitlement(e, quantity).Success? && ReferenceEntitlement(e, quantity).value.shares == n
       <==> n as real * 10.0 == quantity as real * e.sharesPer10
  {
    TenthOfTen(quantity as real * e.sharesPer10);
    if n as real * 10.0 == quantity as real * e.sharesPer10 {
      assert ShareValue(e, quantity) == n as real;
    }
  }

  lemma TenthOfTen(x: real)
    ensures x / 10.0 * 10.0 == x
  {
  }

  /** The processor's and the reference's entitlements, computed apart, agree on everything validate_event
      admits; what they give is exactly the promised amount per ten shares. */
  lemma EntitlementsAgree(e: Event, quantity: int)
    ensures CalculateEntitlement(e, quantity).Success?
       <==> Invalidity(e).None? && quantity >= 0 && ReferenceEntitlement(e, quantity).Success?
    ensures CalculateEntitlement(e, quantity).Success? ==>
      var t := CalculateEntitlement(e, quantity).value;
      && CalculateEntitlement(e, quantity) == ReferenceEntitlement(e, quantity)
      && t.shares as real * 10.0 == quantity as real * e.sharesPer10
      && t.cash * 10.0 == quantity as real * e.cashPer10
  {
    SameEntitlement(e, quantity);
    if ReferenceEntitlement(e, quantity).Success? {
      ReferenceAmounts(e, quantity);
    }
  }
}
