/** The Redis key of a scan lock (worker/services/signal_scan.py, `_lock_key`). */
module LockKeys {
  import opened Common

  const PREFIX := "signal_scan_lock:"

  function DigitChar(d: nat): (c: char)
    requires d < 10
    ensures c != ':' && c != '-'
    ensures '0' <= c <= '9' && c as int - '0' as int == d
  {
    ('0' as int + d) as char
  }

  /** Decimal notation without a sign. */
  function Decimal(n: nat): (s: string)
    ensures |s| > 0
    ensures forall i | 0 <= i < |s| :: '0' <= s[i] <= '9'
  {
    if n < 10 then [DigitChar(n)] else Decimal(n / 10) + [DigitChar(n % 10)]
  }

  function Parsed(s: string): int {
    if s == [] then 0 else 10 * Parsed(s[..|s| - 1]) + (s[|s| - 1] as int - '0' as int)
  }

  lemma {:induction false} DecimalRoundTrip(n: nat)
    ensures Parsed(Decimal(n)) == n
  {
    if n >= 10 {
      var s := Decimal(n);
      assert s[..|s| - 1] == Decimal(n / 10);
      DecimalRoundTrip(n / 10);
    } else {
      assert Decimal(n)[..0] == [];
    }
  }

  function Rendered(i: int): (s: string)
    ensures ':' !in s
  {
    if i < 0 then "-" + Decimal(-i) else Decimal(i)
  }

  /** Reads a rendered integer back. */
  function ParsedSigned(s: string): int {
    if |s| > 0 && s[0] == '-' then -Parsed(s[1..]) else Parsed(s)
  }

  lemma RenderedRoundTrip(i: int)
    ensures ParsedSigned(Rendered(i)) == i
  {
    if i < 0 {
      DecimalRoundTrip(-i);
      assert Rendered(i)[1..] == Decimal(-i);
    } else {
      DecimalRoundTrip(i);
    }
  }

  /** A missing strategy id is rendered as 0. */
  function StrategyNumber(strategy: Option<int>): int {
    if strategy.Some? then strategy.value else 0
  }

  function LockKey(code: string, strategy: Option<int>): string {
    PREFIX + (code + (":" + Rendered(StrategyNumber(strategy))))
  }

  /** Without a strategy the key is that of strategy 0. */
  lemma MissingStrategy(code: string)
    ensures LockKey(code, None) == LockKey(code, Some(0)) == "signal_scan_lock:" + (code + ":0")
  {
    assert Rendered(0) == "0";
    assert ":" + "0" == ":0";
  }

  lemma NoColonAfter(a: string, r: string, p: nat)
    requires ':' !in r
    requires |a| < p < |a| + 1 + |r|
    ensures (a + (":" + r))[p] != ':'
  {
    assert (a + (":" + r))[p] == r[p - |a| - 1];
  }

  lemma LastColonSplits(a: string, r: string, b: string, q: string)
    requires ':' !in r && ':' !in q
    requires a + (":" + r) == b + (":" + q)
    ensures a == b && r == q
  {
    var s := a + (":" + r);
    forall p: nat | |a| < p < |s| ensures s[p] != ':' { NoColonAfter(a, r, p); }
    forall p: nat | |b| < p < |s| ensures s[p] != ':' { NoColonAfter(b, q, p); }
    assert s[|a|] == ':' && s[|b|] == ':';
    assert |a| == |b|;
    assert a == s[..|a|] && b == s[..|b|];
    assert r == s[|a| + 1..] && q == s[|b| + 1..];
  }

  /** Two tasks contend for one lock exactly when stock and strategy number agree, whatever
      characters the stock code contains. */
  lemma LockKeyIdentifies(code: string, strategy: Option<int>, code': string, strategy': Option<int>)
    ensures LockKey(code, strategy) == LockKey(code', strategy')
       <==> code == code' && StrategyNumber(strategy) == StrategyNumber(strategy')
  {
    var n, n' := StrategyNumber(strategy), StrategyNumber(strategy');
    if LockKey(code, strategy) == LockKey(code', strategy') {
      assert LockKey(code, strategy)[|PREFIX|..] == code + (":" + Rendered(n));
      assert LockKey(code', strategy')[|PREFIX|..] == code' + (":" + Rendered(n'));
      LastColonSplits(code, Rendered(n), code', Rendered(n'));
      RenderedRoundTrip(n);
      RenderedRoundTrip(n');
    }
  }
}
