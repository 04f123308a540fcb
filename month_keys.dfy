/** The `"<year>-<month>"` strings that both the isopleth map and the histogram
    build from a discovery date (`year + "-" + month` and `` `${year}-${month}` ``).
    JavaScript renders an integer in decimal, with a leading minus sign when it is
    negative; this module writes that rendering out and proves that a key can be
    read back, so two months never share a key. */
module MonthKeys {
  import opened Wrappers

  predicate IsDigit(c: char) { '0' <= c <= '9' }

  function DigitChar(d: nat): (c: char)
    requires d < 10
    ensures IsDigit(c) && c as int - '0' as int == d
  {
    ('0' as int + d) as char
  }

  /** Decimal rendering of a natural number, without leading zeros. */
  function NatToString(n: nat): (s: string)
    ensures |s| > 0
    ensures forall i :: 0 <= i < |s| ==> IsDigit(s[i])
  {
    if n < 10 then [DigitChar(n)] else NatToString(n / 10) + [DigitChar(n % 10)]
  }

  /** Decimal rendering of an integer, as JavaScript's number-to-string gives it. */
  function IntToString(i: int): string
  {
    if i < 0 then "-" + NatToString(-i) else NatToString(i)
  }

  /** The key of a (year, month) pair: the year, a dash, the month number. */
  function MonthKey(year: int, month: nat): string
  {
    IntToString(year) + "-" + NatToString(month)
  }

  /** Value of a string of decimal digits. */
  function ParseNat(s: string): nat
    requires forall i :: 0 <= i < |s| ==> IsDigit(s[i])
  {
    if s == [] then 0
    else
      assert IsDigit(s[|s| - 1]);
      ParseNat(s[..|s| - 1]) * 10 + (s[|s| - 1] as int - '0' as int)
  }

  function ParseInt(s: string): Option<int>
  {
    if |s| > 0 && s[0] == '-' then
      if forall i :: 1 <= i < |s| ==> IsDigit(s[i]) then Some(0 - ParseNat(s[1..])) else None
    else if forall i :: 0 <= i < |s| ==> IsDigit(s[i]) then Some(ParseNat(s))
    else None
  }

  /** Index of the last dash of `s`, or -1 when it has none. */
  function LastDash(s: string): (k: int)
    ensures -1 <= k < |s|
    ensures k >= 0 ==> s[k] == '-'
    ensures forall i :: k < i < |s| ==> s[i] != '-'
  {
    if s == [] then -1
    else if s[|s| - 1] == '-' then |s| - 1
    else LastDash(s[..|s| - 1])
  }

  /** Reads a key back: the text before the last dash is the year, the text after it the month. */
  function ParseMonthKey(key: string): Option<(int, nat)>
  {
    var k := LastDash(key);
    if k < 0 then None
    else
      var month := key[k + 1..];
      if forall i :: 0 <= i < |month| ==> IsDigit(month[i]) then
        match ParseInt(key[..k])
        case Some(year) => Some((year, ParseNat(month)))
        case None => None
      else None
  }

  lemma {:induction false} ParseNatRoundTrip(n: nat)
    ensures ParseNat(NatToString(n)) == n
  {
    if n >= 10 {
      var s := NatToString(n);
      ParseNatRoundTrip(n / 10);
      assert s[..|s| - 1] == NatToString(n / 10);
    }
  }

  lemma ParseIntRoundTrip(i: int)
    ensures ParseInt(IntToString(i)) == Some(i)
  {
    var s := IntToString(i);
    if i < 0 {
      var digits := NatToString(-i);
      ParseNatRoundTrip(-i);
      assert s[1..] == digits;
      assert forall k :: 1 <= k < |s| ==> s[k] == digits[k - 1];
    } else {
      ParseNatRoundTrip(i);
      assert IsDigit(s[0]);
    }
  }

  /** Every key reads back to the pair it was built from. */
  lemma MonthKeyRoundTrip(year: int, month: nat)
    ensures ParseMonthKey(MonthKey(year, month)) == Some((year, month))
  {
    var y := IntToString(year);
    var m := NatToString(month);
    var key := MonthKey(year, month);
    assert key[|y|] == '-';
    assert forall i :: |y| < i < |key| ==> key[i] == m[i - |y| - 1] && IsDigit(key[i]);
    assert LastDash(key) == |y|;
    assert key[|y| + 1..] == m;
    assert key[..|y|] == y;
    ParseIntRoundTrip(year);
    ParseNatRoundTrip(month);
  }

  /** Distinct months have distinct keys. */
  lemma MonthKeyInjective(y1: int, m1: nat, y2: int, m2: nat)
    requires MonthKey(y1, m1) == MonthKey(y2, m2)
    ensures y1 == y2 && m1 == m2
  {
    MonthKeyRoundTrip(y1, m1);
    MonthKeyRoundTrip(y2, m2);
  }
}
