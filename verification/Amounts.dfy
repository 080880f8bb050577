/** Converting between int64 minor units and the decimal major-unit string of a QR payload. */
module Amounts {
  import opened Wrappers
  import opened Strconv

  type Int64 = n: int | -TWO_63 <= n < TWO_63

  /** Two's-complement wrap-around of an int64 result. */
  function Wrap(n: int): Int64 {
    (n + TWO_63) % (2 * TWO_63) - TWO_63
  }

  lemma WrapInRange(n: int)
    requires -TWO_63 <= n < TWO_63
    ensures Wrap(n) == n
  {
  }

  /** `%d`. */
  function FormatInt(n: int): string {
    if n < 0 then "-" + FormatNat(-n) else FormatNat(n)
  }

  /** `%02d` of a remainder by one hundred: the sign counts towards the width. */
  function FormatCents(n: int): string
    requires -100 < n < 100
  {
    if n < 0 then "-" + FormatNat(-n) else Pad2(n)
  }

  /** Division truncated towards zero, and its remainder. */
  function Quot(n: int): int { if n < 0 then -((-n) / 100) else n / 100 }

  function Rem(n: int): (r: int)
    ensures -100 < r < 100
  {
    if n < 0 then -((-n) % 100) else n % 100
  }

  function MinorToMajor(minor: Int64): string {
    var m := if minor < 0 then Wrap(0 - (minor as int)) else minor;
    (if minor < 0 then "-" else "") + FormatInt(Quot(m)) + "." + FormatCents(Rem(m))
  }

  /** Where the first point stands, if there is one. */
  function FirstDot(s: string): (d: Option<nat>)
    ensures d.Some? ==> d.value < |s| && s[d.value] == '.'
  {
    if s == [] then
      None
    else if s[0] == '.' then
      Some(0)
    else
      match FirstDot(s[1..])
      case None => None
      case Some(i) => Some(i + 1)
  }

  /** The first two characters of the fraction, padded on the right with zeros. */
  function Cents(f: string): (c: string)
    ensures |c| == 2
  {
    if |f| >= 2 then f[..2] else if |f| == 1 then f + "0" else "00"
  }

  function MajorToMinor(s: string): Option<Int64> {
    var t := TrimSpace(s);
    match FirstDot(t)
    case None =>
      (match ParseInt64(t)
       case None => None
       case Some(whole) => Some(Wrap(whole * 100)))
    case Some(d) =>
      match (ParseInt64(t[..d]), ParseInt64(Cents(t[d + 1..])))
      case (Some(whole), Some(frac)) => Some(Wrap(whole * 100 + frac))
      case _ => None
  }

  method ParseMajor(s: string) returns (r: Option<Int64>)
    ensures r == MajorToMinor(s)
  {
    var t := TrimSpace(s);
    var dot := FirstDot(t);
    var whole := ParseInt64(if dot.Some? then t[..dot.value] else t);
    if whole.None? {
      return None;
    }
    var frac := 0;
    if dot.Some? {
      ghost var tail := t[dot.value + 1..];
      var f := t[dot.value + 1..];
      while |f| < 2
        invariant Cents(f) == Cents(tail)
        decreases 2 - |f|
      {
        f := f + "0";
      }
      f := f[..2];
      var parsed := ParseInt64(f);
      if parsed.None? {
        return None;
      }
      frac := parsed.value;
    }
    r := Some(Wrap(whole.value * 100 + frac));
  }

  // ---------- The round trip ----------

  lemma DigitsParse(s: string)
    requires s != [] && AllDigits(s) && Natural(s) < TWO_63
    ensures ParseInt64(s) == Some(Natural(s))
    ensures ParseInt64("-" + s) == Some(-(Natural(s) as int))
    ensures ParseInt64("--" + s) == None
  {
    assert ("-" + s)[1..] == s;
    assert ("--" + s)[1..] == "-" + s;
    assert !IsDigit(("-" + s)[0]);
  }

  lemma {:induction false} DotAfterDigits(a: string, b: string)
    requires forall i :: 0 <= i < |a| ==> a[i] != '.'
    ensures FirstDot(a + "." + b) == Some(|a|)
  {
    var s := a + "." + b;
    if a != [] {
      assert s[1..] == a[1..] + "." + b;
      DotAfterDigits(a[1..], b);
    }
  }

  /** A string with no white space at its ends, split at its only point. */
  lemma ReadParts(a: string, b: string)
    requires a != [] && !IsSpace(a[0]) && (forall i :: 0 <= i < |a| ==> a[i] != '.')
    requires |b| == 2 && !IsSpace(b[1])
    ensures MajorToMinor(a + "." + b) ==
            match (ParseInt64(a), ParseInt64(b))
            case (Some(w), Some(f)) => Some(Wrap(w * 100 + f))
            case _ => None
  {
    hide ParseInt64, Wrap, FirstDot;
    var s := a + "." + b;
    assert s[0] == a[0] && s[|s| - 1] == b[1];
    NoSpaceNoTrim(s);
    hide TrimSpace;
    DotAfterDigits(a, b);
    assert s[..|a|] == a && s[|a| + 1..] == b && Cents(b) == b;
  }

  /** Reading back a printed whole part and two digits of cents. */
  lemma ReadBack(n: nat, cents: nat)
    requires n < TWO_63 && cents < 100
    ensures MajorToMinor(FormatNat(n) + "." + Pad2(cents)) == Some(Wrap(n * 100 + cents))
    ensures MajorToMinor("-" + FormatNat(n) + "." + Pad2(cents)) == Some(Wrap(-(n as int) * 100 + cents))
  {
    hide ParseInt64, MajorToMinor, Wrap;
    var w, b := FormatNat(n), Pad2(cents);
    Pad2Value(cents);
    DigitsParse(w);
    hide FormatNat, Pad2, Natural;
    assert !IsSpace(w[0]) && !IsSpace(b[1]) && IsDigit(w[0]);
    ReadParts(w, b);
    ReadParts("-" + w, b);
  }

  /** Printing and reading an amount gives it back exactly when it is not a negative amount with cents. */
  lemma MinorRoundTripIff(a: Int64)
    ensures MajorToMinor(MinorToMajor(a)) == Some(a) <==> a >= 0 || a % 100 == 0
  {
    hide MajorToMinor, MinorToMajor;
    if a >= 0 {
      NonNegativeRoundTrip(a);
    } else if a == -TWO_63 {
      LowestFails();
    } else {
      NegativeReadsBack(a);
    }
  }

  lemma NonNegativeRoundTrip(a: Int64)
    requires a >= 0
    ensures MajorToMinor(MinorToMajor(a)) == Some(a)
  {
    hide FormatNat, MajorToMinor, Wrap;
    ReadBack(a / 100, a % 100);
    WrapInRange(a);
    assert MinorToMajor(a) == FormatNat(a / 100) + "." + Pad2(a % 100);
  }

  /** A negative amount comes back with the sign of its cents lost. */
  lemma NegativeReadsBack(a: Int64)
    requires -TWO_63 < a < 0
    ensures MajorToMinor(MinorToMajor(a)) == Some(-100 * (-a / 100) + -a % 100)
  {
    var m: int := 0 - a;
    hide FormatNat, MajorToMinor, Wrap;
    ReadBack(m / 100, m % 100);
    WrapInRange(m);
    WrapInRange(-100 * (m / 100) + m % 100);
    assert MinorToMajor(a) == "-" + FormatNat(m / 100) + "." + Pad2(m % 100);
  }

  lemma LowestWraps()
    ensures Wrap(TWO_63) == -TWO_63 && Quot(-TWO_63) == -(TWO_63 / 100) && Rem(-TWO_63) == -8
  {
  }

  /** Negating the lowest int64 wraps, so both signs are printed and the result does not parse. */
  lemma LowestFails()
    ensures MajorToMinor(MinorToMajor(-TWO_63)) == None
  {
    hide MajorToMinor, ParseInt64, Wrap;
    var w := FormatNat(TWO_63 / 100);
    DigitsParse(w);
    LowestWraps();
    assert FormatNat(8) == "8";
    hide FormatNat;
    assert MinorToMajor(-TWO_63) == "--" + w + "." + "-8";
    ReadParts("--" + w, "-8");
  }

  // ---------- What is printed and what is read ----------

  lemma {:induction false} FormatNatStarts(n: nat)
    ensures FormatNat(n) == "0" || FormatNat(n)[0] != '0'
  {
    if n >= 10 {
      FormatNatStarts(n / 10);
      assert FormatNat(n / 10) != "0" by {
        assert Natural("0") == 0;
      }
    }
  }

  /** An amount that is not negative is printed as its whole part, a point, and two digits of cents. */
  lemma PrintedExact(a: Int64)
    requires a >= 0
    ensures var s := MinorToMajor(a);
      && |s| >= 4 && s[|s| - 3] == '.' && AllDigits(s[..|s| - 3]) && AllDigits(s[|s| - 2..])
      && Natural(s[..|s| - 3]) == a / 100 && Natural(s[|s| - 2..]) == a % 100
      && (s[0] == '0' ==> |s| == 4)
  {
    var whole, cents := FormatNat(a / 100), Pad2(a % 100);
    FormatNatStarts(a / 100);
    Pad2Value(a % 100);
    hide FormatNat, Pad2, Natural, Wrap, AllDigits;
    TakenApart(whole, cents);
    PrintedInParts(a);
    hide MinorToMajor;
  }

  lemma PrintedInParts(a: Int64)
    requires a >= 0
    ensures MinorToMajor(a) == FormatNat(a / 100) + "." + Pad2(a % 100)
  {
    hide FormatNat, Pad2, Wrap;
  }

  lemma TakenApart(whole: string, cents: string)
    requires whole != "" && |cents| == 2
    ensures var s := whole + "." + cents;
      && |s| == |whole| + 3 && s[|s| - 3] == '.' && s[..|s| - 3] == whole && s[|s| - 2..] == cents && s[0] == whole[0]
  {
  }

  /** The int64 that a number is cut down to. */
  predicate CutTo(n: int, r: Option<Int64>) { r.Some? && (r.value - n) % 0x1_0000_0000_0000_0000 == 0 }

  lemma WrapCuts(n: int)
    ensures CutTo(n, Some(Wrap(n)))
  {
  }

  lemma {:induction false} NoDot(s: string)
    requires forall i :: 0 <= i < |s| ==> s[i] != '.'
    ensures FirstDot(s) == None
  {
    if s != [] {
      NoDot(s[1..]);
    }
  }

  lemma CentsRead(f: string)
    requires AllDigits(f)
    ensures ParseInt64(Cents(f)) == Some(
      if f == "" then 0
      else 10 * DigitValue(f[0]) + if |f| == 1 then 0 else DigitValue(f[1]))
  {
    var c := Cents(f);
    assert c[..1] == [c[0]] && [c[0]][..0] == [];
    assert Natural([c[0]]) == DigitValue(c[0]);
    assert Natural(c) == 10 * DigitValue(c[0]) + DigitValue(c[1]);
  }

  /** The text starts and ends with no white space, and is split at its point. */
  lemma PointedText(w: string, f: string)
    requires w != "" && AllDigits(w) && AllDigits(f)
    ensures var s := w + "." + f;
      && TrimSpace(w) == w && TrimSpace(s) == s && FirstDot(w) == None && FirstDot(s) == Some(|w|)
      && s[..|w|] == w && s[|w| + 1..] == f
  {
    var s := w + "." + f;
    assert s[0] == w[0] && s[|s| - 1] == if f == "" then '.' else f[|f| - 1];
    NoSpaceNoTrim(w);
    NoSpaceNoTrim(s);
    hide TrimSpace;
    NoDot(w);
    DotAfterDigits(w, f);
    hide FirstDot;
  }

  /**
   Digits with a point are read as so many whole units and the first two digits after the point, a missing one being
   zero; without a point there are no cents. The result is cut down to an int64.
   */
  lemma MajorReads(w: string, f: string)
    requires w != [] && AllDigits(w) && Natural(w) < TWO_63 && AllDigits(f)
    ensures CutTo(Natural(w) * 100, MajorToMinor(w))
    ensures CutTo(
      Natural(w) * 100 + (if f == "" then 0 else 10 * DigitValue(f[0]) + if |f| == 1 then 0 else DigitValue(f[1])),
      MajorToMinor(w + "." + f))
  {
    hide ParseInt64, TrimSpace, FirstDot, Natural, Wrap, CutTo, Cents;
    PointedText(w, f);
    DigitsParse(w);
    CentsRead(f);
    var cents: int := if f == "" then 0 else 10 * DigitValue(f[0]) + if |f| == 1 then 0 else DigitValue(f[1]);
    WrapCuts(Natural(w) * 100);
    WrapCuts(Natural(w) * 100 + cents);
  }

  lemma TrimLeftLast(s: string, c: char)
    requires IsSpace(c)
    ensures TrimLeft(s + [c]) == if TrimLeft(s) == "" then "" else TrimLeft(s) + [c]
    decreases |s|
  {
    if s == "" {
      assert [c][1..] == "" && s + [c] == [c];
    } else {
      assert (s + [c])[1..] == s[1..] + [c];
      if IsSpace(s[0]) {
        TrimLeftLast(s[1..], c);
      }
    }
  }

  /** White space around an amount does not matter. */
  lemma SpacesAround(s: string, c: char)
    requires IsSpace(c)
    ensures MajorToMinor([c] + s) == MajorToMinor(s) == MajorToMinor(s + [c])
  {
    assert ([c] + s)[1..] == s;
    TrimLeftLast(s, c);
    var t := TrimLeft(s);
    assert (t + [c])[..|t + [c]| - 1] == t;
    assert TrimSpace([c] + s) == TrimSpace(s) == TrimSpace(s + [c]);
    hide TrimSpace, ParseInt64, FirstDot, Wrap, Cents;
  }

  /** The first two characters after the point, a missing one being zero. */
  function TwoPlaces(f: string): string { if |f| >= 2 then [f[0], f[1]] else if |f| == 1 then [f[0], '0'] else "00" }

  /** Text with a point is refused exactly if what stands before it, or the two places after it, is not a number. */
  lemma MajorRefusedIff(w: string, f: string)
    requires forall i :: 0 <= i < |w| ==> w[i] != '.'
    requires (w != "" ==> !IsSpace(w[0])) && (f != "" ==> !IsSpace(f[|f| - 1]))
    ensures MajorToMinor(w + "." + f).None? <==> ParseInt64(w).None? || ParseInt64(TwoPlaces(f)).None?
  {
    var s := w + "." + f;
    assert s[0] == (if w == "" then '.' else w[0]) && s[|s| - 1] == if f == "" then '.' else f[|f| - 1];
    NoSpaceNoTrim(s);
    hide TrimSpace, ParseInt64, Wrap;
    DotAfterDigits(w, f);
    hide FirstDot;
    assert s[..|w|] == w && s[|w| + 1..] == f && Cents(f) == TwoPlaces(f);
  }
}
