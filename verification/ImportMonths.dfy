/** The month windows of the dataset import (backend/scripts/import_sprint13_dataset.py). The fixed bounds
    DATE_FROM and DATE_TO are parameters `lo` and `hi`. */
module ImportMonths {
  import opened CivilDates

  function MonthNumber(d: Date): nat { 12 * d.year + d.month }

  /** The months from lo's to hi's, each by its first day. */
  ghost predicate IsMonthList(ms: seq<Date>, lo: Date, hi: Date) {
    && |ms| > 0 && ms[0] == FirstOfMonth(lo)
    && (forall i | 0 <= i < |ms| :: ValidDate(ms[i]) && ms[i].day == 1 && UpTo(ms[i], hi))
    && (forall i | 0 <= i < |ms| - 1 :: ms[i + 1] == NextMonth(ms[i]))
    && !UpTo(NextMonth(ms[|ms| - 1]), hi)
  }

  method Months(lo: Date, hi: Date) returns (ms: seq<Date>)
    requires ValidDate(lo) && ValidDate(hi)
    ensures UpTo(FirstOfMonth(lo), hi) ==> IsMonthList(ms, lo, hi)
    ensures !UpTo(FirstOfMonth(lo), hi) ==> ms == []
  {
    var current := FirstOfMonth(lo);
    ms := [];
    while UpTo(current, hi)
      invariant ValidDate(current) && current.day == 1
      invariant current == if ms == [] then FirstOfMonth(lo) else NextMonth(ms[|ms| - 1])
      invariant ms != [] ==> ms[0] == FirstOfMonth(lo)
      invariant forall i | 0 <= i < |ms| :: ValidDate(ms[i]) && ms[i].day == 1 && UpTo(ms[i], hi)
      invariant forall i | 0 <= i < |ms| - 1 :: ms[i + 1] == NextMonth(ms[i])
      decreases MonthNumber(hi) - MonthNumber(current)
    {
      ms := ms + [current];
      current := NextMonth(current);
    }
  }

  function MonthEnd(start: Date, hi: Date): Date
    requires ValidDate(start)
  {
    var last := PreviousDay(NextMonth(start));
    if Before(last, hi) then last else hi
  }

  predicate InWindow(d: Date, start: Date, hi: Date)
    requires ValidDate(start)
  {
    UpTo(start, d) && UpTo(d, MonthEnd(start, hi))
  }

  /** Consecutive windows touch without overlap, across year ends and leap years, and the last one
      ends on the upper bound. */
  lemma WindowsAreConsecutive(ms: seq<Date>, lo: Date, hi: Date, i: nat)
    requires ValidDate(hi) && IsMonthList(ms, lo, hi) && i < |ms|
    ensures ValidDate(MonthEnd(ms[i], hi)) && UpTo(ms[i], MonthEnd(ms[i], hi))
    ensures i + 1 < |ms| ==> Ordinal(MonthEnd(ms[i], hi)) + 1 == Ordinal(ms[i + 1])
    ensures i + 1 == |ms| ==> MonthEnd(ms[i], hi) == hi
  {
    var next := NextMonth(ms[i]);
    LastOfMonth(ms[i]);
    if i + 1 < |ms| {
      assert ms[i + 1] == next;
      assert PreviousDay(next) == Date(ms[i].year, ms[i].month, DaysIn(ms[i].year, ms[i].month));
      assert Before(PreviousDay(next), hi);
      PreviousDayOrdinal(next);
    }
  }

  /** Window i contains exactly the dates of its month up to the upper bound. */
  lemma InWindowIff(ms: seq<Date>, lo: Date, hi: Date, i: nat, d: Date)
    requires ValidDate(hi) && IsMonthList(ms, lo, hi) && i < |ms| && ValidDate(d)
    ensures InWindow(d, ms[i], hi) <==> FirstOfMonth(d) == ms[i] && UpTo(d, hi)
  {
    LastOfMonth(ms[i]);
  }

  lemma {:induction false} MonthNumbers(ms: seq<Date>, lo: Date, hi: Date, i: nat)
    requires IsMonthList(ms, lo, hi) && i < |ms|
    ensures MonthNumber(ms[i]) == MonthNumber(lo) + i
  {
    if i > 0 {
      MonthNumbers(ms, lo, hi, i - 1);
      assert ms[i - 1 + 1] == NextMonth(ms[i - 1]);
      NextMonthNumber(ms[i - 1]);
    }
  }

  lemma NextMonthNumber(d: Date)
    requires ValidDate(d)
    ensures MonthNumber(NextMonth(d)) == MonthNumber(d) + 1
  {
  }

  lemma SameMonthNumber(d: Date, e: Date)
    requires ValidDate(d) && ValidDate(e) && MonthNumber(d) == MonthNumber(e)
    ensures FirstOfMonth(d) == FirstOfMonth(e)
  {
  }

  /** Window i holds the dates of the i-th month. */
  lemma WindowByNumber(ms: seq<Date>, lo: Date, hi: Date, i: nat, d: Date)
    requires ValidDate(lo) && ValidDate(hi) && IsMonthList(ms, lo, hi) && i < |ms| && ValidDate(d)
    ensures InWindow(d, ms[i], hi) <==> MonthNumber(d) == MonthNumber(lo) + i && UpTo(d, hi)
  {
    InWindowIff(ms, lo, hi, i, d);
    MonthNumbers(ms, lo, hi, i);
    if MonthNumber(d) == MonthNumber(lo) + i {
      SameMonthNumber(d, ms[i]);
    }
  }

  lemma LastMonthNumber(ms: seq<Date>, lo: Date, hi: Date, d: Date)
    requires ValidDate(lo) && ValidDate(hi) && IsMonthList(ms, lo, hi) && ValidDate(d) && UpTo(d, hi)
    ensures UpTo(FirstOfMonth(lo), d) <==> 0 <= MonthNumber(d) - MonthNumber(lo) < |ms|
  {
    var last := ms[|ms| - 1];
    MonthNumbers(ms, lo, hi, |ms| - 1);
    NextMonthNumber(last);
  }

  /** The windows partition the range: a date lies in a window exactly when it lies between the first
      day of lo's month and hi, and then in one window only. */
  lemma WindowsPartition(ms: seq<Date>, lo: Date, hi: Date, d: Date)
    requires ValidDate(lo) && ValidDate(hi) && IsMonthList(ms, lo, hi) && ValidDate(d)
    ensures (exists i :: 0 <= i < |ms| && InWindow(d, ms[i], hi)) <==> UpTo(FirstOfMonth(lo), d) && UpTo(d, hi)
    ensures forall i, j :: 0 <= i < |ms| && 0 <= j < |ms| && InWindow(d, ms[i], hi) && InWindow(d, ms[j], hi) ==> i == j
  {
    forall i | 0 <= i < |ms|
      ensures InWindow(d, ms[i], hi) <==> MonthNumber(d) == MonthNumber(lo) + i && UpTo(d, hi)
    {
      WindowByNumber(ms, lo, hi, i, d);
    }
    if UpTo(d, hi) {
      LastMonthNumber(ms, lo, hi, d);
    }
    if UpTo(FirstOfMonth(lo), d) && UpTo(d, hi) {
      assert InWindow(d, ms[MonthNumber(d) - MonthNumber(lo)], hi);
    }
  }

  /** Exactly the range from lo to hi is covered if and only if lo is the first of a month. */
  lemma CoversRangeIffMonthStart(ms: seq<Date>, lo: Date, hi: Date)
    requires ValidDate(lo) && ValidDate(hi) && UpTo(lo, hi) && IsMonthList(ms, lo, hi)
    ensures (forall d | ValidDate(d) ::
              (exists i :: 0 <= i < |ms| && InWindow(d, ms[i], hi)) <==> UpTo(lo, d) && UpTo(d, hi))
       <==> lo.day == 1
  {
    forall d | ValidDate(d)
      ensures (exists i :: 0 <= i < |ms| && InWindow(d, ms[i], hi)) <==> UpTo(FirstOfMonth(lo), d) && UpTo(d, hi)
    {
      WindowsPartition(ms, lo, hi, d);
    }
    if lo.day != 1 {
      var first := FirstOfMonth(lo);
      assert ValidDate(first) && !UpTo(lo, first) && UpTo(first, hi);
    }
  }
}
