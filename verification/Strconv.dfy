/** The parts of Go's strconv and strings packages that the models rely on. */
module Strconv {
  import opened Wrappers

  const TWO_63: int := 0x8000_0000_0000_0000
  const MAX_INT64: int := TWO_63 - 1

  predicate IsDigit(c: char) { '0' <= c <= '9' }

  predicate AllDigits(s: string) { forall i :: 0 <= i < |s| ==> IsDigit(s[i]) }

  function DigitValue(c: char): (d: nat)
    requires IsDigit(c)
    ensures d < 10
  {
    c as int - '0' as int
  }

  function Digit(d: nat): (c: char)
    requires d < 10
    ensures IsDigit(c) && DigitValue(c) == d
  {
    "0123456789"[d]
  }

  function Natural(s: string): nat
    requires AllDigits(s)
  {
    if s == [] then 0 else 10 * Natural(s[..|s| - 1]) + DigitValue(s[|s| - 1])
  }

  /** `strconv.ParseInt(s, 10, 64)`: an optional sign, then at least one digit, in range. */
  function ParseInt64(s: string): Option<int> {
    var signed := s != [] && (s[0] == '-' || s[0] == '+');
    var body := if signed then s[1..] else s;
    if body == [] || !AllDigits(body) then
      None
    else if signed && s[0] == '-' then
      if Natural(body) <= TWO_63 then Some(-(Natural(body) as int)) else None
    else
      if Natural(body) < TWO_63 then Some(Natural(body)) else None
  }

  /** `%d` of a non-negative number. */
  function FormatNat(n: nat): (s: string)
    ensures s != [] && AllDigits(s) && Natural(s) == n
  {
    if n < 10 then
      var s := [Digit(n)];
      assert s[..0] == [];
      s
    else
      var front := FormatNat(n / 10);
      var s := front + [Digit(n % 10)];
      assert s[..|s| - 1] == front;
      s
  }

  /** `%02d` of a number below one hundred. */
  function Pad2(n: nat): (s: string)
    requires n < 100
    ensures |s| == 2 && AllDigits(s)
  {
    [Digit(n / 10), Digit(n % 10)]
  }

  lemma Pad2Value(n: nat)
    requires n < 100
    ensures Natural(Pad2(n)) == n && ParseInt64(Pad2(n)) == Some(n)
  {
    var s := Pad2(n);
    assert s[..1] == [s[0]] && [s[0]][..0] == [];
    assert Natural([s[0]]) == n / 10;
  }

  /** ASCII white space; the other characters Go counts as space are not modelled. */
  predicate IsSpace(c: char) { c == ' ' || '\t' <= c <= '\r' }

  function TrimLeft(s: string): string {
    if s != [] && IsSpace(s[0]) then TrimLeft(s[1..]) else s
  }

  function TrimRight(s: string): string {
    if s != [] && IsSpace(s[|s| - 1]) then TrimRight(s[..|s| - 1]) else s
  }

  function TrimSpace(s: string): string { TrimRight(TrimLeft(s)) }

  lemma NoSpaceNoTrim(s: string)
    requires s != [] && !IsSpace(s[0]) && !IsSpace(s[|s| - 1])
    ensures TrimSpace(s) == s
  {
  }
}
