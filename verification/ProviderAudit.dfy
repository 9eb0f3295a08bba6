/** The monthly comparison of two price providers: the sampling loop of `audit_stock` and `_provider_comparison`
    (backend/scripts/import_sprint13_dataset.py) with `provider_validation_summary`
    (backend/app/data/dataset_expansion.py). */
module ProviderAudit {
  import opened Common
  import opened CivilDates

  datatype Verdict = Pass | Review | Fail

  /** Open, high, low and close. */
  type Prices = p: seq<real> | |p| == 4 witness [0.0, 0.0, 0.0, 0.0]

  const TOLERANCE := 0.01

  predicate Close(a: real, b: real) { (if a < b then b - a else a - b) <= TOLERANCE }

  /** No two prices of a kind are more than a hundredth apart. */
  ghost predicate Agree(a: Prices, b: Prices) {
    forall k | 0 <= k < 4 :: -0.01 <= a[k] - b[k] <= 0.01
  }

  method ProviderComparison(primary: Prices, secondary: Prices) returns (result: Verdict)
    ensures result == if Agree(primary, secondary) then Pass else Fail
  {
    result := Pass;
    for i := 0 to 4
      invariant result == if (forall k | 0 <= k < i :: Close(primary[k], secondary[k])) then Pass else Fail
    {
      if !Close(primary[i], secondary[i]) {
        result := Fail;
      }
    }
    assert forall k | 0 <= k < 4 :: Close(primary[k], secondary[k]) <==> -0.01 <= primary[k] - secondary[k] <= 0.01;
  }

  // ----- Samples -----

  predicate SameMonth(d: Date, m: Date) { d.year == m.year && d.month == m.month }

  function DaysOf(common: seq<Date>, m: Date): (days: seq<Date>)
    ensures forall i | 0 <= i < |days| :: days[i] in common && SameMonth(days[i], m)
    ensures (exists i :: 0 <= i < |common| && SameMonth(common[i], m)) ==> days != []
  {
    if common == [] then []
    else
      var n := |common| - 1;
      DaysOf(common[..n], m) + (if SameMonth(common[n], m) then [common[n]] else [])
  }

  /** The middle one of the shared days of a month, if there are any. */
  function Sample(common: seq<Date>, m: Date): (d: Option<Date>)
    ensures d.Some? ==> d.value in common && SameMonth(d.value, m)
  {
    var days := DaysOf(common, m);
    if days == [] then None else Some(days[|days| / 2])
  }

  /** The first n shared days that fall in a month. */
  ghost function MonthAt(common: seq<Date>, m: Date, n: nat): set<int>
    requires n <= |common|
  {
    set i | 0 <= i < n && common[i].year == m.year && common[i].month == m.month
  }

  lemma MonthAtMore(common: seq<Date>, d: Date, m: Date)
    ensures MonthAt(common + [d], m, |common|) == MonthAt(common, m, |common|)
    ensures |MonthAt(common + [d], m, |common| + 1)|
         == |MonthAt(common, m, |common|)| + if d.year == m.year && d.month == m.month then 1 else 0
  {
    assert MonthAt(common + [d], m, |common|) == MonthAt(common, m, |common|);
    assert MonthAt(common + [d], m, |common| + 1)
        == MonthAt(common, m, |common|) + if d.year == m.year && d.month == m.month then {|common|} else {};
  }

  lemma {:induction false} DaysCounted(common: seq<Date>, m: Date)
    ensures |DaysOf(common, m)| == |MonthAt(common, m, |common|)|
  {
    if common != [] {
      var n := |common| - 1;
      DaysCounted(common[..n], m);
      assert common == common[..n] + [common[n]];
      MonthAtMore(common[..n], common[n], m);
    }
  }

  /** The j-th day of a month among the shared days. */
  lemma {:induction false} DayAt(common: seq<Date>, m: Date, j: nat) returns (p: nat)
    requires j < |DaysOf(common, m)|
    ensures p < |common| && p in MonthAt(common, m, |common|)
    ensures DaysOf(common, m)[j] == common[p] && |MonthAt(common, m, p)| == j
  {
    var n := |common| - 1;
    var before := common[..n];
    if j < |DaysOf(before, m)| {
      p := DayAt(before, m, j);
      assert MonthAt(common, m, p) == MonthAt(before, m, p);
    } else {
      p := n;
      DaysCounted(before, m);
      assert MonthAt(common, m, n) == MonthAt(before, m, n);
    }
  }

  /** The sample of a month is in its middle: as many of the month's shared days come before it as after it, or one
      more. */
  lemma SampleIsMiddle(common: seq<Date>, m: Date) returns (p: nat)
    requires MonthAt(common, m, |common|) != {}
    ensures p < |common| && p in MonthAt(common, m, |common|) && Sample(common, m) == Some(common[p])
    ensures var before, all := |MonthAt(common, m, p)|, |MonthAt(common, m, |common|)|;
      before == all - 1 - before || before == all - before
  {
    DaysCounted(common, m);
    p := DayAt(common, m, |DaysOf(common, m)| / 2);
  }

  function SamplesOf(ms: seq<Date>, common: seq<Date>): seq<Date> {
    if ms == [] then []
    else
      var n := |ms| - 1;
      SamplesOf(ms[..n], common) + (if Sample(common, ms[n]).Some? then [Sample(common, ms[n]).value] else [])
  }

  method SampleDays(ms: seq<Date>, common: seq<Date>) returns (samples: seq<Date>)
    ensures samples == SamplesOf(ms, common)
  {
    samples := [];
    for i := 0 to |ms|
      invariant samples == SamplesOf(ms[..i], common)
    {
      var candidates: seq<Date> := [];
      for k := 0 to |common|
        invariant candidates == DaysOf(common[..k], ms[i])
      {
        assert common[..k + 1][..k] == common[..k];
        if SameMonth(common[k], ms[i]) {
          candidates := candidates + [common[k]];
        }
      }
      assert common[..|common|] == common && ms[..i + 1][..i] == ms[..i];
      if candidates != [] {
        samples := samples + [candidates[|candidates| / 2]];
      }
    }
    assert ms[..|ms|] == ms;
  }

  /** Every month of the range has a shared day. */
  ghost predicate AllSampled(ms: seq<Date>, common: seq<Date>) {
    forall i | 0 <= i < |ms| :: Sample(common, ms[i]).Some?
  }

  /** At most one sample per month, and one for each month exactly when all have a shared day. */
  lemma {:induction false} SamplesComplete(ms: seq<Date>, common: seq<Date>)
    ensures |SamplesOf(ms, common)| <= |ms|
    ensures |SamplesOf(ms, common)| == |ms| <==> AllSampled(ms, common)
  {
    if ms != [] {
      var n := |ms| - 1;
      SamplesComplete(ms[..n], common);
      AllSampledSplit(ms[..n], ms[n], common);
      assert ms == ms[..n] + [ms[n]];
    }
  }

  lemma AllSampledSplit(ms: seq<Date>, m: Date, common: seq<Date>)
    ensures AllSampled(ms + [m], common) <==> AllSampled(ms, common) && Sample(common, m).Some?
  {
    assert (ms + [m])[|ms|] == m;
    if AllSampled(ms + [m], common) {
      forall i | 0 <= i < |ms| ensures Sample(common, ms[i]).Some? {
        assert (ms + [m])[i] == ms[i];
      }
    }
  }

  /** Then the i-th sample is that of the i-th month. */
  lemma {:induction false} SampleAt(ms: seq<Date>, common: seq<Date>, i: nat)
    requires AllSampled(ms, common) && i < |ms|
    ensures |SamplesOf(ms, common)| == |ms| && SamplesOf(ms, common)[i] == Sample(common, ms[i]).value
  {
    var n := |ms| - 1;
    assert ms == ms[..n] + [ms[n]];
    AllSampledSplit(ms[..n], ms[n], common);
    SamplesComplete(ms, common);
    SamplesComplete(ms[..n], common);
    if i < n {
      SampleAt(ms[..n], common, i);
    }
  }

  lemma {:induction false} SamplesShared(ms: seq<Date>, common: seq<Date>)
    ensures forall i | 0 <= i < |SamplesOf(ms, common)| :: SamplesOf(ms, common)[i] in common
  {
    if ms != [] {
      SamplesShared(ms[..|ms| - 1], common);
    }
  }

  // ----- Summary -----

  datatype Summary = Summary(expected: nat, actual: nat, pass: nat, review: nat, fail: nat, missing: set<Date>,
                             passed: bool)

  function CountOf(verdicts: seq<Verdict>, v: Verdict): (n: nat)
    ensures n <= |verdicts|
    ensures n == |verdicts| <==> forall i | 0 <= i < |verdicts| :: verdicts[i] == v
    ensures n == 0 <==> forall i | 0 <= i < |verdicts| :: verdicts[i] != v
  {
    if verdicts == [] then 0
    else CountOf(verdicts[..|verdicts| - 1], v) + if verdicts[|verdicts| - 1] == v then 1 else 0
  }

  /** Months are identified by their first day. */
  function Summarize(days: seq<Date>, verdicts: seq<Verdict>, ms: seq<Date>, error: Option<string>): Summary
    requires |days| == |verdicts|
  {
    var missing := (set m | m in ms :: FirstOfMonth(m)) - (set d | d in days :: FirstOfMonth(d));
    var pass, review, fail := CountOf(verdicts, Pass), CountOf(verdicts, Review), CountOf(verdicts, Fail);
    Summary(|ms|, |days|, pass, review, fail, missing,
            error == None && |days| == |ms| && pass == |days| && review == 0 && fail == 0 && missing == {})
  }

  /** The counts of a summary, and the months it misses: those of which no day was compared. */
  lemma SummaryFields(days: seq<Date>, verdicts: seq<Verdict>, ms: seq<Date>, error: Option<string>)
    requires |days| == |verdicts|
    ensures var summary := Summarize(days, verdicts, ms, error);
      && summary.expected == |ms| && summary.actual == |days|
      && summary.pass == CountOf(verdicts, Pass) && summary.fail == CountOf(verdicts, Fail)
      && summary.review == CountOf(verdicts, Review)
      && forall m | m in ms :: Date(m.year, m.month, 1) in summary.missing <==>
           forall d | d in days :: d.year != m.year || d.month != m.month
  {
    var seen := set d | d in days :: FirstOfMonth(d);
    forall m | m in ms
      ensures FirstOfMonth(m) in seen <==> exists d :: d in days && d.year == m.year && d.month == m.month
    {
      if d :| d in days && d.year == m.year && d.month == m.month {
        assert FirstOfMonth(d) == FirstOfMonth(m);
      }
    }
  }

  /** `audit_stock` up to its summary. An empty error message counts as no error for the sampling, but not for
      the summary. */
  method AuditStock(ms: seq<Date>, from: Date, primary: map<Date, Prices>, secondary: map<Date, Prices>,
                    common: seq<Date>, error: Option<string>)
    returns (summary: Summary, days: seq<Date>, verdicts: seq<Verdict>)
    requires forall d :: d in common <==> d in primary && d in secondary
    ensures |days| == |verdicts| && summary == Summarize(days, verdicts, ms, error)
    ensures summary.passed <==> error == None && AllAgree(ms, common, primary, secondary)
    ensures error.Some? && error.value != "" ==> days == [from] && verdicts == [Review]
  {
    if error.Some? && error.value != "" {
      days, verdicts := [from], [Review];
    } else {
      days := SampleDays(ms, common);
      SamplesShared(ms, common);
      verdicts := Compare(days, primary, secondary);
    }
    summary := Summarize(days, verdicts, ms, error);
    if error == None {
      PassIff(ms, common, primary, secondary, verdicts);
    }
  }

  method Compare(days: seq<Date>, primary: map<Date, Prices>, secondary: map<Date, Prices>)
    returns (verdicts: seq<Verdict>)
    requires forall i | 0 <= i < |days| :: days[i] in primary && days[i] in secondary
    ensures Compared(days, primary, secondary, verdicts)
  {
    verdicts := [];
    for i := 0 to |days|
      invariant Compared(days[..i], primary, secondary, verdicts)
    {
      var result := ProviderComparison(primary[days[i]], secondary[days[i]]);
      verdicts := verdicts + [result];
    }
    assert days[..|days|] == days;
  }

  ghost predicate Compared(days: seq<Date>, primary: map<Date, Prices>, secondary: map<Date, Prices>,
                           verdicts: seq<Verdict>)
    requires forall i | 0 <= i < |days| :: days[i] in primary && days[i] in secondary
  {
    && |verdicts| == |days|
    && forall i | 0 <= i < |days| :: verdicts[i] == if Agree(primary[days[i]], secondary[days[i]]) then Pass else Fail
  }

  /** Every month has a shared day, and the providers agree on each month's sample. */
  ghost predicate AllAgree(ms: seq<Date>, common: seq<Date>, primary: map<Date, Prices>, secondary: map<Date, Prices>)
    requires forall d :: d in common <==> d in primary && d in secondary
  {
    forall i | 0 <= i < |ms| ::
      Sample(common, ms[i]).Some? && Agree(primary[Sample(common, ms[i]).value], secondary[Sample(common, ms[i]).value])
  }

  /** The summary's four conditions come down to one: every month is sampled and agrees. */
  lemma PassIff(ms: seq<Date>, common: seq<Date>, primary: map<Date, Prices>,
                                   secondary: map<Date, Prices>, verdicts: seq<Verdict>)
    requires forall d :: d in common <==> d in primary && d in secondary
    requires forall i | 0 <= i < |SamplesOf(ms, common)| :: SamplesOf(ms, common)[i] in common
    requires Compared(SamplesOf(ms, common), primary, secondary, verdicts)
    ensures Summarize(SamplesOf(ms, common), verdicts, ms, None).passed <==> AllAgree(ms, common, primary, secondary)
  {
    SamplesComplete(ms, common);
    AllPassIff(SamplesOf(ms, common), primary, secondary, verdicts);
    if AllSampled(ms, common) {
      NoneMissing(ms, common);
      forall i | 0 <= i < |ms| ensures SamplesOf(ms, common)[i] == Sample(common, ms[i]).value {
        SampleAt(ms, common, i);
      }
    }
  }

  lemma AllPassIff(days: seq<Date>, primary: map<Date, Prices>, secondary: map<Date, Prices>,
                                      verdicts: seq<Verdict>)
    requires forall i | 0 <= i < |days| :: days[i] in primary && days[i] in secondary
    requires Compared(days, primary, secondary, verdicts)
    ensures CountOf(verdicts, Pass) == |days| && CountOf(verdicts, Review) == 0 && CountOf(verdicts, Fail) == 0
       <==> forall i | 0 <= i < |days| :: Agree(primary[days[i]], secondary[days[i]])
  {
  }

  lemma NoneMissing(ms: seq<Date>, common: seq<Date>)
    requires AllSampled(ms, common)
    ensures forall m | m in ms :: FirstOfMonth(m) in set d | d in SamplesOf(ms, common) :: FirstOfMonth(d)
  {
    SamplesComplete(ms, common);
    forall m | m in ms ensures FirstOfMonth(m) in set d | d in SamplesOf(ms, common) :: FirstOfMonth(d) {
      var i :| 0 <= i < |ms| && ms[i] == m;
      SampleAt(ms, common, i);
      assert SamplesOf(ms, common)[i] in SamplesOf(ms, common) && SameMonth(SamplesOf(ms, common)[i], m);
    }
  }
}
