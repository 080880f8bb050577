/**
 The tag-63 checksum: CRC-16/CCITT-FALSE over a byte string, and the damage it is
 guaranteed to detect.

 A Go string is a sequence of bytes; here it is a `string` whose characters stand for
 byte values, and a 16-bit register is the sequence of its bits, high bit first.
 */
module Crc {
  type Bits = seq<bool>
  type Reg = x: Bits | |x| == 16 witness Zeros(16)

  function Fill(n: nat, b: bool): (z: Bits)
    ensures |z| == n
  {
    seq(n, _ => b)
  }

  function Zeros(n: nat): (z: Bits)
    ensures |z| == n
  {
    Fill(n, false)
  }

  /** The low `k` bits of `n`, high bit first. */
  function BitsOf(n: nat, k: nat): (b: Bits)
    ensures |b| == k
    decreases k
  {
    if k == 0 then [] else BitsOf(n / 2, k - 1) + [n % 2 == 1]
  }

  function Xor(a: Bits, b: Bits): (c: Bits)
    requires |a| == |b|
    ensures |c| == |a|
  {
    seq(|a|, i requires 0 <= i < |a| => a[i] != b[i])
  }

  const ZERO: Reg := Zeros(16)
  // 0xFFFF, and 0x1021: bits 12, 5 and 0.
  const INITIAL: Reg := Fill(16, true)
  const POLYNOMIAL: Reg := Zeros(16)[3 := true][10 := true][15 := true]

  /** `crc << 1`, with the bit shifted out lost. */
  function Left(x: Reg): Reg { x[1..] + [false] }

  /** One turn of the inner bit loop. */
  function BitStep(x: Reg): Reg {
    if x[0] then Xor(Left(x), POLYNOMIAL) else Left(x)
  }

  function StepN(n: nat, x: Reg): Reg {
    if n == 0 then x else BitStep(StepN(n - 1, x))
  }

  /** `uint16(c) << 8`. */
  function High(c: char): Reg { BitsOf(c as int, 8) + Zeros(8) }

  /** One turn of the byte loop. */
  function ByteStep(x: Reg, c: char): Reg { StepN(8, Xor(x, High(c))) }

  function CrcFrom(seed: Reg, data: string): Reg {
    if data == [] then seed else ByteStep(CrcFrom(seed, data[..|data| - 1]), data[|data| - 1])
  }

  function Checksum(data: string): Reg { CrcFrom(INITIAL, data) }

  method Crc16Ccitt(data: string) returns (crc: Reg)
    ensures crc == Checksum(data)
  {
    crc := INITIAL;
    for i := 0 to |data|
      invariant crc == Checksum(data[..i])
    {
      crc := Xor(crc, High(data[i]));
      ghost var start := crc;
      for bit := 0 to 8
        invariant crc == StepN(bit, start)
      {
        if crc[0] {
          crc := Xor(Left(crc), POLYNOMIAL);
        } else {
          crc := Left(crc);
        }
      }
      assert data[..i + 1][..i] == data[..i];
    }
    assert data[..|data|] == data;
  }

  // ---------- The step map is linear and injective ----------

  lemma BitStepLinear(x: Reg, y: Reg)
    ensures BitStep(Xor(x, y)) == Xor(BitStep(x), BitStep(y))
  {
    assert Left(Xor(x, y)) == Xor(Left(x), Left(y));
    assert Xor(Xor(Left(x), POLYNOMIAL), Xor(Left(y), POLYNOMIAL)) == Xor(Left(x), Left(y));
    assert Xor(Xor(Left(x), POLYNOMIAL), Left(y)) == Xor(Xor(Left(x), Left(y)), POLYNOMIAL);
    assert Xor(Left(x), Xor(Left(y), POLYNOMIAL)) == Xor(Xor(Left(x), Left(y)), POLYNOMIAL);
  }

  lemma {:induction false} StepNLinear(n: nat, x: Reg, y: Reg)
    ensures StepN(n, Xor(x, y)) == Xor(StepN(n, x), StepN(n, y))
  {
    if n > 0 {
      StepNLinear(n - 1, x, y);
      BitStepLinear(StepN(n - 1, x), StepN(n - 1, y));
    }
  }

  lemma HasBitOrClear(b: Bits)
    ensures b == Zeros(|b|) || exists i :: 0 <= i < |b| && b[i]
  {
    if forall i :: 0 <= i < |b| ==> !b[i] {
      assert b == Zeros(|b|);
    }
  }

  /** The polynomial's low bit is set, so a bit shifted out always leaves a trace. */
  lemma BitStepNonzero(x: Reg)
    requires x != ZERO
    ensures BitStep(x) != ZERO
  {
    if x[0] {
      assert BitStep(x)[15];
    } else {
      LeftNonzero(x);
    }
  }

  lemma LeftNonzero(x: Reg)
    requires x != ZERO && !x[0]
    ensures Left(x) != ZERO
  {
    HasBitOrClear(x);
    var i :| 0 <= i < 16 && x[i];
    assert Left(x)[i - 1];
  }

  lemma {:induction false} StepNNonzero(n: nat, x: Reg)
    requires x != ZERO
    ensures StepN(n, x) != ZERO
  {
    if n > 0 {
      StepNNonzero(n - 1, x);
      BitStepNonzero(StepN(n - 1, x));
    }
  }

  // ---------- The byte loop is a bit-serial register ----------

  /** A bit in position `i` of an otherwise clear register. */
  function Unit(i: nat, b: bool): Reg
    requires i < 16
  {
    ZERO[i := b]
  }

  /** Shift in one message bit. */
  function BitIn(x: Reg, b: bool): Reg { BitStep(Xor(x, Unit(0, b))) }

  function CrcBits(seed: Reg, bits: Bits): Reg {
    if bits == [] then seed else BitIn(CrcBits(seed, bits[..|bits| - 1]), bits[|bits| - 1])
  }

  function Pad(bits: Bits): Reg
    requires |bits| <= 16
  {
    bits + Zeros(16 - |bits|)
  }

  lemma {:induction false} UnitRises(i: nat, n: nat, b: bool)
    requires n <= i < 16
    ensures StepN(n, Unit(i, b)) == Unit(i - n, b)
  {
    if n > 0 {
      UnitRises(i, n - 1, b);
      assert Left(Unit(i - n + 1, b)) == Unit(i - n, b);
    }
  }

  /** Loading up to sixteen bits at the top and stepping is the same as shifting them in one by one. */
  lemma {:induction false} LoadIsSerial(x: Reg, bits: Bits)
    requires |bits| <= 16
    ensures StepN(|bits|, Xor(x, Pad(bits))) == CrcBits(x, bits)
  {
    var n := |bits|;
    if n == 0 {
      assert Xor(x, ZERO) == x;
    } else {
      var front, last := bits[..n - 1], bits[n - 1];
      LoadIsSerial(x, front);
      var unit := Unit(n - 1, last);
      assert Xor(x, Pad(bits)) == Xor(Xor(x, Pad(front)), unit);
      StepNLinear(n - 1, Xor(x, Pad(front)), unit);
      UnitRises(n - 1, n - 1, last);
    }
  }

  /** The bits of a byte string, high bit of the first byte first. */
  function Serial(s: string): (b: Bits)
    ensures |b| == 8 * |s|
  {
    if s == [] then [] else Serial(s[..|s| - 1]) + BitsOf(s[|s| - 1] as int, 8)
  }

  lemma {:induction false} CrcBitsConcat(x: Reg, a: Bits, b: Bits)
    ensures CrcBits(x, a + b) == CrcBits(CrcBits(x, a), b)
  {
    if b == [] {
      assert a + b == a;
    } else {
      CrcBitsConcat(x, a, b[..|b| - 1]);
      assert (a + b)[..|a + b| - 1] == a + b[..|b| - 1];
    }
  }

  lemma {:induction false} ChecksumIsSerial(x: Reg, s: string)
    ensures CrcFrom(x, s) == CrcBits(x, Serial(s))
  {
    if s != [] {
      var front, c := s[..|s| - 1], s[|s| - 1];
      ChecksumIsSerial(x, front);
      CrcBitsConcat(x, Serial(front), BitsOf(c as int, 8));
      LoadIsSerial(CrcFrom(x, front), BitsOf(c as int, 8));
    }
  }

  // ---------- The syndrome: what two messages differ by decides the checksum ----------

  /** Running the register on the difference gives the difference of the two runs. */
  lemma {:induction false} Syndrome(x: Reg, y: Reg, a: Bits, b: Bits)
    requires |a| == |b|
    ensures CrcBits(Xor(x, y), Xor(a, b)) == Xor(CrcBits(x, a), CrcBits(y, b))
  {
    var n := |a|;
    if n > 0 {
      var a', b' := a[..n - 1], b[..n - 1];
      Syndrome(x, y, a', b');
      assert Xor(a, b)[..n - 1] == Xor(a', b');
      var u, v := CrcBits(x, a'), CrcBits(y, b');
      var i, j := Unit(0, a[n - 1]), Unit(0, b[n - 1]);
      assert Xor(Xor(u, v), Unit(0, a[n - 1] != b[n - 1])) == Xor(Xor(u, i), Xor(v, j));
      BitStepLinear(Xor(u, i), Xor(v, j));
    }
  }

  lemma XorZero(a: Bits, b: Bits)
    requires |a| == |b|
    ensures Xor(a, b) == Zeros(|a|) <==> a == b
  {
    if Xor(a, b) == Zeros(|a|) {
      assert forall i :: 0 <= i < |a| ==> a[i] == b[i] by {
        assert forall i :: 0 <= i < |a| ==> Xor(a, b)[i] == (a[i] != b[i]);
      }
    }
  }

  /** Messages of one length share a checksum exactly when their difference leaves a clear register clear. */
  lemma SameChecksumIff(a: Bits, b: Bits)
    requires |a| == |b|
    ensures CrcBits(INITIAL, a) == CrcBits(INITIAL, b) <==> CrcBits(ZERO, Xor(a, b)) == ZERO
  {
    Syndrome(INITIAL, INITIAL, a, b);
    XorZero(INITIAL, INITIAL);
    XorZero(CrcBits(INITIAL, a), CrcBits(INITIAL, b));
  }

  // ---------- Bursts of up to sixteen bits ----------

  /** `s` and `t` differ, and only inside the sixteen consecutive bits from bit `w` on. */
  ghost predicate Burst16(a: Bits, b: Bits, w: nat)
    requires |a| == |b|
  {
    a != b && forall i :: 0 <= i < |a| && (i < w || i >= w + 16) ==> a[i] == b[i]
  }

  lemma {:induction false} ClearStaysClear(n: nat)
    ensures CrcBits(ZERO, Zeros(n)) == ZERO
  {
    if n > 0 {
      ClearStaysClear(n - 1);
      assert Zeros(n)[..n - 1] == Zeros(n - 1);
      assert Xor(ZERO, Unit(0, false)) == ZERO;
      assert BitStep(ZERO) == ZERO;
    }
  }

  lemma {:induction false} NonzeroStaysNonzero(x: Reg, n: nat)
    requires x != ZERO
    ensures CrcBits(x, Zeros(n)) != ZERO
  {
    if n > 0 {
      NonzeroStaysNonzero(x, n - 1);
      assert Zeros(n)[..n - 1] == Zeros(n - 1);
      var y := CrcBits(x, Zeros(n - 1));
      assert Xor(y, Unit(0, false)) == y;
      BitStepNonzero(y);
    }
  }

  lemma NonzeroFewBits(mid: Bits, i: nat)
    requires |mid| <= 16 && i < |mid| && mid[i]
    ensures CrcBits(ZERO, mid) != ZERO
  {
    LoadIsSerial(ZERO, mid);
    assert Xor(ZERO, Pad(mid)) == Pad(mid);
    assert Pad(mid)[i];
    StepNNonzero(|mid|, Pad(mid));
  }

  /** A burst fed to a clear register leaves it nonzero. */
  lemma BurstLeavesTrace(w: nat, mid: Bits, rest: nat, i: nat)
    requires |mid| <= 16 && i < |mid| && mid[i]
    ensures CrcBits(ZERO, Zeros(w) + mid + Zeros(rest)) != ZERO
  {
    hide CrcBits;
    ClearStaysClear(w);
    NonzeroFewBits(mid, i);
    CrcBitsConcat(ZERO, Zeros(w), mid);
    CrcBitsConcat(ZERO, Zeros(w) + mid, Zeros(rest));
    NonzeroStaysNonzero(CrcBits(ZERO, mid), rest);
  }

  lemma Isolate(d: Bits, w: nat, m: nat)
    requires w <= m <= |d|
    requires forall i :: 0 <= i < |d| && (i < w || i >= m) ==> !d[i]
    ensures d == Zeros(w) + d[w..m] + Zeros(|d| - m)
  {
  }

  lemma BurstAlone(d: Bits, w: nat, i: nat)
    requires w <= i < |d| && i < w + 16 && d[i]
    requires forall j :: 0 <= j < |d| && (j < w || j >= w + 16) ==> !d[j]
    ensures CrcBits(ZERO, d) != ZERO
  {
    hide CrcBits;
    var m := if w + 16 <= |d| then w + 16 else |d|;
    var mid := d[w..m];
    Isolate(d, w, m);
    assert mid[i - w] == d[i];
    BurstLeavesTrace(w, mid, |d| - m, i - w);
  }

  lemma DetectsBurst(a: Bits, b: Bits, w: nat)
    requires |a| == |b| && Burst16(a, b, w)
    ensures CrcBits(INITIAL, a) != CrcBits(INITIAL, b)
  {
    hide CrcBits;
    var d := Xor(a, b);
    XorZero(a, b);
    HasBitOrClear(d);
    var i :| 0 <= i < |d| && d[i];
    BurstAlone(d, w, i);
    SameChecksumIff(a, b);
  }

  // ---------- An odd number of damaged bits ----------

  function Ones(b: Bits): nat {
    if b == [] then 0 else Ones(b[..|b| - 1]) + if b[|b| - 1] then 1 else 0
  }

  predicate Odd(b: Bits) { Ones(b) % 2 == 1 }

  lemma {:induction false} OddXor(a: Bits, b: Bits)
    requires |a| == |b|
    ensures Odd(Xor(a, b)) <==> (Odd(a) != Odd(b))
  {
    var n := |a|;
    if n > 0 {
      OddXor(a[..n - 1], b[..n - 1]);
      assert Xor(a, b)[..n - 1] == Xor(a[..n - 1], b[..n - 1]);
    }
  }

  lemma {:induction false} OnesTail(b: Bits)
    requires b != []
    ensures Ones(b) == (if b[0] then 1 else 0) + Ones(b[1..])
  {
    if |b| > 1 {
      var front := b[..|b| - 1];
      OnesTail(front);
      assert b[1..][..|b| - 2] == front[1..];
    } else {
      assert b[..0] == [];
      assert b[1..] == [];
    }
  }

  lemma {:induction false} OnesAfterSet(b: Bits, i: nat)
    requires i < |b| && !b[i]
    ensures Ones(b[i := true]) == Ones(b) + 1
  {
    var n := |b|;
    if i < n - 1 {
      OnesAfterSet(b[..n - 1], i);
      assert b[i := true][..n - 1] == b[..n - 1][i := true];
    } else {
      assert b[i := true][..n - 1] == b[..n - 1];
    }
  }

  lemma PolynomialIsOdd()
    ensures Odd(POLYNOMIAL)
  {
    OnesOfZeros(16);
    OnesAfterSet(ZERO, 3);
    OnesAfterSet(ZERO[3 := true], 10);
    OnesAfterSet(ZERO[3 := true][10 := true], 15);
  }

  lemma LeftParity(x: Reg)
    ensures Odd(Left(x)) <==> (Odd(x) != x[0])
  {
    OnesTail(x);
    assert Left(x)[..15] == x[1..];
  }

  /** The generator has an even number of terms, so a step keeps the parity of the register. */
  lemma BitStepKeepsParity(x: Reg)
    ensures Odd(BitStep(x)) == Odd(x)
  {
    LeftParity(x);
    PolynomialIsOdd();
    OddXor(Left(x), POLYNOMIAL);
  }

  lemma {:induction false} OnesOfZeros(n: nat)
    ensures Ones(Zeros(n)) == 0
  {
    if n > 0 {
      assert Zeros(n)[..n - 1] == Zeros(n - 1);
      OnesOfZeros(n - 1);
    }
  }

  lemma UnitParity(b: bool)
    ensures Odd(Unit(0, b)) <==> b
  {
    OnesOfZeros(16);
    if b {
      OnesAfterSet(ZERO, 0);
    } else {
      assert Unit(0, b) == ZERO;
    }
  }

  lemma {:induction false} ChecksumParity(x: Reg, a: Bits)
    ensures Odd(CrcBits(x, a)) <==> (Odd(x) != Odd(a))
  {
    if a != [] {
      var front, last := a[..|a| - 1], a[|a| - 1];
      ChecksumParity(x, front);
      UnitParity(last);
      OddXor(CrcBits(x, front), Unit(0, last));
      BitStepKeepsParity(Xor(CrcBits(x, front), Unit(0, last)));
    }
  }

  lemma DetectsOddDamage(a: Bits, b: Bits)
    requires |a| == |b| && Odd(Xor(a, b))
    ensures CrcBits(INITIAL, a) != CrcBits(INITIAL, b)
  {
    OddXor(a, b);
    ChecksumParity(INITIAL, a);
    ChecksumParity(INITIAL, b);
  }

  // ---------- The checksum is a remainder ----------

  /** x^16 + x^12 + x^5 + 1, the highest power first. */
  function Generator(): Bits {
    [true, false, false, false, true, false, false, false, false, false, false, true, false, false, false, false, true]
  }

  /** The generator, or nothing, below n higher places. */
  function Turn(n: nat, b: bool): (t: Bits)
    ensures |t| == n + 17
  {
    if b then Zeros(n) + Generator() else Zeros(n + 17)
  }

  /** A polynomial times the generator. */
  function Product(q: Bits): (p: Bits)
    ensures |p| == |q| + 16
  {
    if q == [] then Zeros(16) else Xor(Product(q[..|q| - 1]) + [false], Turn(|q| - 1, q[|q| - 1]))
  }

  /** Dividing `d` by the generator leaves `r`. */
  ghost predicate Leaves(d: Bits, r: Reg) {
    |d| >= 16 && exists q :: LeavesBy(d, r, q)
  }

  predicate LeavesBy(d: Bits, r: Reg, q: Bits) { |d| == |q| + 16 && d == Xor(Product(q), Zeros(|q|) + r) }

  /** The message times x^16, with the seed added to its first sixteen bits. */
  function Dividend(seed: Reg, m: Bits): (d: Bits)
    ensures |d| == |m| + 16
  {
    Xor(seed + Zeros(|m|), m + Zeros(16))
  }

  /** One more message bit, on both sides of the division. */
  lemma DividendLast(seed: Reg, m: Bits, b: bool)
    ensures Dividend(seed, m + [b]) == Xor(Dividend(seed, m) + [false], Zeros(|m|) + [b] + Zeros(16))
  {
  }

  lemma ProductLast(q: Bits, b: bool)
    ensures Product(q + [b]) == Xor(Product(q) + [false], Turn(|q|, b))
  {
    hide Turn, Xor;
    var more := q + [b];
    assert more != [] && more[..|more| - 1] == q && more[|more| - 1] == b;
    assert Product(more) == Xor(Product(more[..|more| - 1]) + [false], Turn(|more| - 1, more[|more| - 1]));
  }

  /** The bit the division brings down, and what is left below it. */
  lemma BitInAt(r: Reg, b: bool, i: nat)
    requires i < 16
    ensures BitIn(r, b)[i] == (Left(r)[i] != ((r[0] != b) && Generator()[i + 1]))
  {
    assert Left(Xor(r, Unit(0, b))) == Left(r);
  }

  lemma DivisionStep(d: Bits, r: Reg, q: Bits, b: bool)
    requires LeavesBy(d, r, q)
    ensures LeavesBy(Xor(d + [false], Zeros(|q|) + [b] + Zeros(16)), BitIn(r, b), q + [r[0] != b])
  {
    var n, top := |q|, r[0] != b;
    ProductLast(q, top);
    hide Product, BitIn;
    var d' := Xor(d + [false], Zeros(n) + [b] + Zeros(16));
    var p := Product(q);
    forall i | 0 <= i < n + 17 ensures d'[i] == Xor(Product(q + [top]), Zeros(n + 1) + BitIn(r, b))[i] {
      if i > n {
        BitInAt(r, b, i - n - 1);
      }
    }
  }

  /** The register after a message is what dividing the message, seed included, by the generator leaves. */
  lemma {:induction false} RegisterIsRemainder(seed: Reg, m: Bits)
    ensures Leaves(Dividend(seed, m), CrcBits(seed, m))
  {
    hide Turn;
    if m == [] {
      assert LeavesBy(Dividend(seed, []), seed, []);
    } else {
      hide Product, Xor;
      var front, b := m[..|m| - 1], m[|m| - 1];
      RegisterIsRemainder(seed, front);
      var r := CrcBits(seed, front);
      var q :| LeavesBy(Dividend(seed, front), r, q);
      DividendLast(seed, front, b);
      assert front + [b] == m;
      hide LeavesBy, Dividend, BitIn;
      DivisionStep(Dividend(seed, front), r, q, b);
    }
  }

  /** The first set bit of a multiplier stays where it is in the product. */
  lemma {:induction false} ProductLeads(q: Bits, i: nat)
    requires i < |q| && q[i] && forall j :: 0 <= j < i ==> !q[j]
    ensures Product(q)[i]
  {
    var front := q[..|q| - 1];
    if i < |front| {
      ProductLeads(front, i);
    } else {
      ProductOfZeros(front);
    }
  }

  lemma {:induction false} ProductOfZeros(q: Bits)
    requires forall j :: 0 <= j < |q| ==> !q[j]
    ensures Product(q) == Zeros(|q| + 16)
  {
    if q != [] {
      ProductOfZeros(q[..|q| - 1]);
    }
  }

  lemma {:induction false} ProductAdds(q: Bits, p: Bits)
    requires |q| == |p|
    ensures Product(Xor(q, p)) == Xor(Product(q), Product(p))
  {
    hide Turn;
    if q != [] {
      var n := |q| - 1;
      ProductAdds(q[..n], p[..n]);
      hide Product;
      ProductLast(q[..n], q[n]);
      ProductLast(p[..n], p[n]);
      ProductLast(Xor(q[..n], p[..n]), q[n] != p[n]);
      assert q[..n] + [q[n]] == q && p[..n] + [p[n]] == p && Xor(q[..n], p[..n]) + [q[n] != p[n]] == Xor(q, p);
      TurnAdds(n, q[n], p[n]);
      XorPairs(Product(q[..n]), Product(p[..n]), Turn(n, q[n]), Turn(n, p[n]));
      hide Xor;
    } else {
      assert Xor(q, p) == [] && Xor(Zeros(16), Zeros(16)) == Zeros(16);
    }
  }

  lemma TurnAdds(n: nat, a: bool, b: bool)
    ensures Turn(n, a != b) == Xor(Turn(n, a), Turn(n, b))
  {
  }

  lemma XorPairs(x: Bits, y: Bits, t: Bits, u: Bits)
    requires |x| == |y| && |t| == |u| == |x| + 1
    ensures Xor(Xor(x + [false], t), Xor(y + [false], u)) == Xor(Xor(x, y) + [false], Xor(t, u))
  {
  }

  lemma SameQuotient(d: Bits, r: Reg, q: Bits, r': Reg, q': Bits)
    requires LeavesBy(d, r, q) && LeavesBy(d, r', q')
    ensures q == q'
  {
    var diff := Xor(q, q');
    ProductAdds(q, q');
    HasBitOrClear(diff);
    if diff != Zeros(|diff|) {
      var i := FirstBit(diff);
      ProductLeads(diff, i);
      hide Product;
      assert d[i] == (Product(q)[i] != (Zeros(|q|) + r)[i]) && d[i] == (Product(q')[i] != (Zeros(|q|) + r')[i]);
    } else {
      forall i | 0 <= i < |q| ensures q[i] == q'[i] {
        assert !diff[i] && diff[i] == (q[i] != q'[i]);
      }
    }
  }

  lemma FirstBit(b: Bits) returns (i: nat)
    requires exists k :: 0 <= k < |b| && b[k]
    ensures i < |b| && b[i] && forall j :: 0 <= j < i ==> !b[j]
  {
    i := 0;
    while !b[i]
      invariant i < |b| && forall j :: 0 <= j < i ==> !b[j]
      decreases |b| - i
    {
      i := i + 1;
    }
  }

  /** There is only one remainder. */
  lemma RemainderUnique(d: Bits, r: Reg, r': Reg)
    requires Leaves(d, r) && Leaves(d, r')
    ensures r == r'
  {
    var q :| LeavesBy(d, r, q);
    var q' :| LeavesBy(d, r', q');
    SameQuotient(d, r, q, r', q');
    hide Product;
    forall i | 0 <= i < 16 ensures r[i] == r'[i] {
      assert (Zeros(|q|) + r)[|q| + i] == r[i] && (Zeros(|q|) + r')[|q| + i] == r'[i];
      assert d[|q| + i] == (Product(q)[|q| + i] != r[i]);
    }
  }

  /**
   The checksum of a string is the remainder, and the only one, of dividing its bits times x^16, the first sixteen
   of them inverted, by x^16 + x^12 + x^5 + 1.
   */
  lemma ChecksumIsRemainder(s: string, r: Reg)
    ensures r == Checksum(s) <==> Leaves(Xor(Fill(16, true) + Zeros(8 * |s|), Serial(s) + Zeros(16)), r)
  {
    ChecksumIsSerial(INITIAL, s);
    RegisterIsRemainder(INITIAL, Serial(s));
    hide Leaves, Serial, CrcBits, CrcFrom;
    var d := Dividend(INITIAL, Serial(s));
    if Leaves(d, r) {
      RemainderUnique(d, r, Checksum(s));
    }
  }

  // ---------- The printed checksum ----------

  function HexDigit(nibble: Bits): char
    requires |nibble| == 4
  {
    "0123456789ABCDEF"[8 * Digit(nibble[0]) + 4 * Digit(nibble[1]) + 2 * Digit(nibble[2]) + Digit(nibble[3])]
  }

  function Digit(b: bool): nat { if b then 1 else 0 }

  /** `CRC16`: the register as four upper-case hexadecimal digits. */
  function Hex(x: Reg): (h: string)
    ensures |h| == 4
  {
    [HexDigit(x[..4]), HexDigit(x[4..8]), HexDigit(x[8..12]), HexDigit(x[12..])]
  }

  lemma HexDigitInjective(a: Bits, b: Bits)
    requires |a| == |b| == 4 && HexDigit(a) == HexDigit(b)
    ensures a == b
  {
  }

  /** The digit printed for four bits is that of their value. */
  lemma HexDigitIs(nibble: Bits, c: char)
    requires |nibble| == 4
    ensures HexDigit(nibble) == c <==>
      var v := (if nibble[0] then 8 else 0) + (if nibble[1] then 4 else 0)
        + (if nibble[2] then 2 else 0) + (if nibble[3] then 1 else 0);
      c as int == if v < 10 then '0' as int + v else 'A' as int + v - 10
  {
  }

  lemma HexInjective(x: Reg, y: Reg)
    requires Hex(x) == Hex(y)
    ensures x == y
  {
    assert Hex(x)[0] == Hex(y)[0] && Hex(x)[1] == Hex(y)[1] && Hex(x)[2] == Hex(y)[2] && Hex(x)[3] == Hex(y)[3];
    HexDigitInjective(x[..4], y[..4]);
    HexDigitInjective(x[4..8], y[4..8]);
    HexDigitInjective(x[8..12], y[8..12]);
    HexDigitInjective(x[12..], y[12..]);
    assert x == x[..4] + x[4..8] + x[8..12] + x[12..];
    assert y == y[..4] + y[4..8] + y[8..12] + y[12..];
  }

  function CRC16(data: string): (h: string)
    ensures |h| == 4
  {
    Hex(Checksum(data))
  }
}
