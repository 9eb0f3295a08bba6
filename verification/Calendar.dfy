/** Trading days (backend/app/backtest/calendar.py). A date is its proleptic Gregorian ordinal,
    whose day 1 was a Monday. */
module Calendar {
  import opened CivilDates
  import opened Common
  import opened Ordering

  datatype CalendarError = CalendarRequired | NoCoverage | BarOutsideCalendar

  predicate IsWeekday(day: int) {
    (day + 6) % 7 < 5
  }

  /** 1 January 2024 was a Monday: a weekday is at most four days later, up to whole weeks. */
  lemma WeekdayByDate(day: int, y: nat)
    requires y == 24
    ensures IsWeekday(day) <==> (day - Ordinal(Date(2000 + y, 1, 1))) % 7 <= 4
  {
    DaysBeforeYearClosedForm(2000 + y);
    assert Ordinal(Date(2000 + y, 1, 1)) == 738886;
    WholeWeeks(day - Ordinal(Date(2000 + y, 1, 1)), 105556);
  }

  lemma WholeWeeks(a: int, weeks: int)
    ensures (a + 7 * weeks) % 7 == a % 7
  {
    var q, r := a / 7, a % 7;
    assert a + 7 * weeks == 7 * (q + weeks) + r;
  }

  predicate Earlier(a: int, b: int) { a < b }

  predicate Increasing(s: seq<int>) { StrictlySorted(s, Earlier) }

  lemma EarlierOrders()
    ensures StrictOrder(Earlier)
  {
    assert forall a :: !Earlier(a, a);
    assert forall a, b, c :: Earlier(a, b) && Earlier(b, c) ==> Earlier(a, c);
  }

  /** An increasing sequence is determined by its elements. */
  lemma IncreasingDetermined(s: seq<int>, t: seq<int>)
    requires Increasing(s) && Increasing(t)
    requires forall x :: x in s <==> x in t
    ensures s == t
  {
    EarlierOrders();
    assert forall x :: x in s <==> x in t;
    SortedDetermined(s, t, Earlier);
  }

  method InOrder(days: set<int>) returns (r: seq<int>)
    ensures Increasing(r) && forall d :: d in r <==> d in days
  {
    var listed: seq<int> := [];
    var todo := days;
    while todo != {}
      invariant todo <= days && Distinct(listed)
      invariant forall d :: d in listed <==> d in days && d !in todo
      decreases todo
    {
      ghost var any := Member(todo);
      var d :| d in todo;
      listed := listed + [d];
      todo := todo - {d};
    }
    EarlierOrders();
    SortedSorts(listed, Earlier);
    r := Sorted(listed, Earlier);
  }

  /** The dates of all bars within the range. */
  ghost function BarDates(bars: map<string, set<int>>, start: int, end: int): set<int> {
    set stock, day | stock in bars && day in bars[stock] && start <= day <= end :: day
  }

  method CollectBarDates(bars: map<string, set<int>>, start: int, end: int) returns (dates: set<int>)
    ensures dates == BarDates(bars, start, end)
  {
    dates := {};
    var stocks := bars.Keys;
    while stocks != {}
      invariant stocks <= bars.Keys
      invariant forall d :: d in dates <==>
        start <= d <= end && exists stock :: stock in bars && stock !in stocks && d in bars[stock]
      decreases stocks
    {
      ghost var any := Member(stocks);
      var stock :| stock in stocks;
      dates := dates + set d | d in bars[stock] && start <= d <= end;
      stocks := stocks - {stock};
    }
    assert forall d :: d in dates <==> d in BarDates(bars, start, end);
  }

  method BuildTradingDays(start: int, end: int, bars: map<string, set<int>>,
                          certified: seq<int>, requireCertified: bool)
    returns (r: Result<seq<int>, CalendarError>)
    ensures r.Success? ==> Increasing(r.value) && forall d | d in r.value :: start <= d <= end
    ensures requireCertified ==>
      var covered := set d | d in certified && start <= d <= end;
      if certified == [] then r == Failure(CalendarRequired)
      else if covered == {} then r == Failure(NoCoverage)
      else if !(BarDates(bars, start, end) <= covered) then r == Failure(BarOutsideCalendar)
      else r.Success? && forall d :: d in r.value <==> d in covered
    ensures !requireCertified ==>
      r.Success? &&
      forall d :: d in r.value <==>
        if BarDates(bars, start, end) != {} then d in BarDates(bars, start, end)
        else start <= d <= end && IsWeekday(d)
  {
    if requireCertified {
      if certified == [] {
        return Failure(CalendarRequired);
      }
      var covered := set d | d in certified && start <= d <= end;
      if covered == {} {
        return Failure(NoCoverage);
      }
      var days := InOrder(covered);
      var barDates := CollectBarDates(bars, start, end);
      if !(barDates <= covered) {
        return Failure(BarOutsideCalendar);
      }
      return Success(days);
    }
    var dates := CollectBarDates(bars, start, end);
    if dates != {} {
      var days := InOrder(dates);
      return Success(days);
    }
    var days: seq<int> := [];
    var current := start;
    while current <= end
      invariant Increasing(days)
      invariant forall d :: d in days <==> start <= d < current && d <= end && IsWeekday(d)
      decreases end - current
    {
      ghost var before := days;
      if IsWeekday(current) {
        days := days + [current];
        assert forall i | 0 <= i < |before| :: before[i] in before;
      }
      assert forall d :: d in days <==> d in before || (d == current && IsWeekday(current));
      current := current + 1;
    }
    return Success(days);
  }

  /** The first later day in list order, which in an increasing list is the least one. */
  method NextTradingDay(current: int, days: seq<int>) returns (r: Option<int>)
    ensures r.None? <==> forall d | d in days :: d <= current
    ensures r.Some? ==> exists i ::
      0 <= i < |days| && days[i] == r.value > current && forall k | 0 <= k < i :: days[k] <= current
    ensures r.Some? && Increasing(days) ==> forall d | d in days && d > current :: r.value <= d
  {
    for i := 0 to |days|
      invariant forall k | 0 <= k < i :: days[k] <= current
    {
      if days[i] > current {
        assert days[i] in days;
        return Some(days[i]);
      }
    }
    return None;
  }
}
