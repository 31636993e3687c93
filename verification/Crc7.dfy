/**
  crc7 of src/avrtos/subsystems/crc.c: the remainder of the message times x^7 by
  x^7 + x^3 + 1, for messages of any length.
*/
module Crc7 {
  // ----- polynomials over two elements, as bits from the highest power down -----

  type Bits = seq<bool>

  function Zeros(n: nat): (z: Bits)
    ensures |z| == n && forall i :: 0 <= i < n ==> !z[i]
  {
    seq(n, i => false)
  }

  function Xor(a: Bits, b: Bits): (c: Bits)
    requires |a| == |b|
    ensures |c| == |a| && forall i :: 0 <= i < |a| ==> c[i] == (a[i] != b[i])
  {
    seq(|a|, i requires 0 <= i < |a| => a[i] != b[i])
  }

  const G: Bits := [true, false, false, false, true, false, false, true]

  function Scaled(b: bool): (s: Bits)
    ensures |s| == 8
  {
    if b then G else Zeros(8)
  }

  /** The product of q and x^7 + x^3 + 1. */
  function Product(q: Bits): (p: Bits)
    ensures |p| == |q| + 7
  {
    if q == [] then Zeros(7)
    else
      var n := |q| - 1;
      Xor(Product(q[..n]) + [false], Zeros(n) + Scaled(q[n]))
  }

  lemma XorZero(a: Bits)
    ensures Xor(a, Zeros(|a|)) == a && Xor(Zeros(|a|), a) == a && Xor(a, a) == Zeros(|a|)
  {
  }

  // ----- the register -----

  function Sum(r: bv8, s: bv8): bv8 {
    r ^ s
  }

  function Shifted(r: bv8): bv8 {
    (r << 1) & 0x7F
  }

  predicate Top(r: bv8) {
    r & 0x40 != 0
  }

  /** One message bit into the seven bit register. */
  function Next(r: bv8, b: bool): bv8 {
    if Top(r) != b then Sum(Shifted(r), 0x09) else Shifted(r)
  }

  function Register(m: Bits): bv8 {
    if m == [] then 0 else Next(Register(m[..|m| - 1]), m[|m| - 1])
  }

  function Coeffs(r: bv8): (c: Bits)
    ensures |c| == 7
  {
    [r & 0x40 != 0, r & 0x20 != 0, r & 0x10 != 0, r & 0x08 != 0, r & 0x04 != 0, r & 0x02 != 0, r & 0x01 != 0]
  }

  lemma RegisterSnoc(m: Bits, b: bool)
    ensures Register(m + [b]) == Next(Register(m), b)
  {
    assert (m + [b])[..|m|] == m;
  }

  lemma {:induction false} SevenBits(m: Bits)
    ensures Register(m) & 0x80 == 0
  {
    if m != [] {
      NextFits(Register(m[..|m| - 1]), m[|m| - 1]);
    }
  }

  lemma NextFits(r: bv8, b: bool)
    ensures Next(r, b) & 0x80 == 0
  {
  }

  /** The register step, on coefficients: shift in the bit at the top, subtract the divisor
      when a one comes out. */
  lemma NextCoeffs(r: bv8, b: bool)
    ensures var c := Coeffs(r); var top := c[0] != b;
            Coeffs(Next(r, b)) == [c[1], c[2], c[3], c[4] != top, c[5], c[6], top]
  {
  }

  // ----- the register is the remainder -----

  /** The bit that comes out of the register. */
  function Out(r: bv8, b: bool): (top: bool)
    ensures top == (Coeffs(r)[0] != b)
  {
    (r & 0x40 != 0) != b
  }

  /** The quotient: the bits that came out of the register. */
  function Quotient(m: Bits): (q: Bits)
    ensures |q| == |m|
  {
    if m == [] then []
    else var n := |m| - 1; Quotient(m[..n]) + [Out(Register(m[..n]), m[n])]
  }

  lemma StepDivides(r: bv8, b: bool)
    ensures Xor(Coeffs(r) + [false], [b] + Zeros(7)) == Xor(Scaled(Out(r, b)), [false] + Coeffs(Next(r, b)))
  {
    hide Next, Coeffs;
    NextCoeffs(r, b);
    StepBits(Coeffs(r), b, Coeffs(Next(r, b)));
  }

  lemma StepBits(c: Bits, b: bool, c': Bits)
    requires |c| == 7 && var top := c[0] != b; c' == [c[1], c[2], c[3], c[4] != top, c[5], c[6], top]
    ensures Xor(c + [false], [b] + Zeros(7)) == Xor(Scaled(c[0] != b), [false] + c')
  {
    var left, right := Xor(c + [false], [b] + Zeros(7)), Xor(Scaled(c[0] != b), [false] + c');
    assert left[0] == right[0] && left[1] == right[1] && left[2] == right[2] && left[3] == right[3];
    assert left[4] == right[4] && left[5] == right[5] && left[6] == right[6] && left[7] == right[7];
  }

  /** Division: message times x^7 is quotient times divisor plus register. */
  lemma {:induction false} Divides(m: Bits)
    ensures m + Zeros(7) == Xor(Product(Quotient(m)), Zeros(|m|) + Coeffs(Register(m)))
  {
    hide Coeffs, Next, Scaled, Product, Out, Xor, Zeros;
    if m == [] {
      ZeroRegister();
      ProductNone();
      assert Zeros(0) + Zeros(7) == Zeros(7);
      XorZero(Zeros(7));
    } else {
      var n := |m| - 1;
      Divides(m[..n]);
      var r, top := Register(m[..n]), Out(Register(m[..n]), m[n]);
      StepDivides(r, m[n]);
      ProductSnoc(Quotient(m[..n]), top);
      Aligned(m[..n], m[n], Product(Quotient(m[..n])), Scaled(top), Coeffs(r), Coeffs(Next(r, m[n])));
      assert m == m[..n] + [m[n]];
    }
  }

  lemma ProductNone()
    ensures Product([]) == Zeros(7)
  {
  }

  lemma ZeroRegister()
    ensures Coeffs(0) == Zeros(7)
  {
  }

  /** The sums of one step of long division, bit by bit. */
  lemma Aligned(m: Bits, b: bool, p: Bits, s: Bits, c: Bits, c': Bits)
    requires |p| == |m| + 7 && |s| == 8 && |c| == |c'| == 7
    requires m + Zeros(7) == Xor(p, Zeros(|m|) + c)
    requires Xor(c + [false], [b] + Zeros(7)) == Xor(s, [false] + c')
    ensures m + [b] + Zeros(7) == Xor(Xor(p + [false], Zeros(|m|) + s), Zeros(|m| + 1) + c')
  {
    var n := |m|;
    var left, right := m + [b] + Zeros(7), Xor(Xor(p + [false], Zeros(n) + s), Zeros(n + 1) + c');
    forall i | 0 <= i < n ensures left[i] == right[i] {
      assert (m + Zeros(7))[i] == p[i];
    }
    var x, y := Xor(c + [false], [b] + Zeros(7)), Xor(s, [false] + c');
    forall i | n <= i < n + 8 ensures left[i] == right[i] {
      var k := i - n;
      assert x[k] == y[k];
      assert k < 7 ==> (m + Zeros(7))[n + k] == false && (Zeros(n) + c)[n + k] == c[k];
      assert k > 0 ==> (Zeros(n + 1) + c')[n + k] == c'[k - 1];
    }
  }

  lemma ProductSnoc(q: Bits, b: bool)
    ensures Product(q + [b]) == Xor(Product(q) + [false], Zeros(|q|) + Scaled(b))
  {
    assert (q + [b])[..|q|] == q;
  }

  // ----- there is only one remainder -----

  lemma {:induction false} ProductHead(b: bool, q: Bits)
    ensures Product([b] + q) == Xor(Scaled(b) + Zeros(|q|), [false] + Product(q))
  {
    hide Product, Scaled;
    if q == [] {
      ProductSnoc([], b);
      ProductNone();
      assert [b] + [] == [] + [b];
    } else {
      var n := |q| - 1;
      var q', d := q[..n], q[n];
      assert q == q' + [d] && [b] + q == [b] + q' + [d];
      ProductHead(b, q');
      ProductSnoc([b] + q', d);
      ProductSnoc(q', d);
      HeadAligned(Scaled(b), Scaled(d), Product(q'), n);
    }
  }

  lemma HeadAligned(s: Bits, t: Bits, p: Bits, n: nat)
    requires |s| == |t| == 8 && |p| == n + 7
    ensures Xor(Xor(s + Zeros(n), [false] + p) + [false], Zeros(n + 1) + t) ==
            Xor(s + Zeros(n + 1), [false] + Xor(p + [false], Zeros(n) + t))
  {
    var left := Xor(Xor(s + Zeros(n), [false] + p) + [false], Zeros(n + 1) + t);
    var right := Xor(s + Zeros(n + 1), [false] + Xor(p + [false], Zeros(n) + t));
    forall i | 0 <= i < n + 9 ensures left[i] == right[i] {
      assert (s + Zeros(n + 1))[i] == if i < n + 8 then (s + Zeros(n))[i] else false;
      assert i > 0 ==> (Zeros(n + 1) + t)[i] == (Zeros(n) + t)[i - 1];
    }
  }

  /** Two divisions of the same polynomial have the same quotient and remainder. */
  lemma {:induction false} OneRemainder(q: Bits, c: Bits, q': Bits, c': Bits)
    requires |q| == |q'| && |c| == |c'| == 7
    requires Xor(Product(q), Zeros(|q|) + c) == Xor(Product(q'), Zeros(|q|) + c')
    ensures q == q' && c == c'
  {
    hide Product, Scaled;
    if q == [] {
      ProductNone();
      assert Zeros(0) + c == c && Zeros(0) + c' == c';
      XorZero(c);
      XorZero(c');
    } else {
      var t, t' := q[1..], q'[1..];
      assert q == [q[0]] + t && q' == [q'[0]] + t';
      ProductHead(q[0], t);
      ProductHead(q'[0], t');
      SameHead(q[0], q'[0], Product(t), Product(t'), c, c', |t|);
      OneRemainder(t, c, t', c');
    }
  }

  lemma SameHead(b: bool, b': bool, p: Bits, p': Bits, c: Bits, c': Bits, n: nat)
    requires |p| == |p'| == n + 7 && |c| == |c'| == 7
    requires Xor(Xor(Scaled(b) + Zeros(n), [false] + p), Zeros(n + 1) + c) ==
             Xor(Xor(Scaled(b') + Zeros(n), [false] + p'), Zeros(n + 1) + c')
    ensures b == b' && Xor(p, Zeros(n) + c) == Xor(p', Zeros(n) + c')
  {
    var x := Xor(Xor(Scaled(b) + Zeros(n), [false] + p), Zeros(n + 1) + c);
    var y := Xor(Xor(Scaled(b') + Zeros(n), [false] + p'), Zeros(n + 1) + c');
    assert x[0] == Scaled(b)[0] == b && y[0] == Scaled(b')[0] == b';
    var s := Scaled(b) + Zeros(n);
    var left, right := Xor(p, Zeros(n) + c), Xor(p', Zeros(n) + c');
    forall i | 0 <= i < n + 7 ensures left[i] == right[i] {
      assert x[i + 1] == y[i + 1];
      assert (Zeros(n + 1) + c)[i + 1] == (Zeros(n) + c)[i] && (Zeros(n + 1) + c')[i + 1] == (Zeros(n) + c')[i];
    }
  }

  /** The register holds the remainder, whichever way the division is done. */
  lemma RemainderExact(m: Bits, q: Bits, c: Bits)
    requires |q| == |m| && |c| == 7
    ensures m + Zeros(7) == Xor(Product(q), Zeros(|m|) + c) <==> q == Quotient(m) && c == Coeffs(Register(m))
  {
    hide Product, Quotient, Register, Coeffs, Xor, Zeros;
    Divides(m);
    if m + Zeros(7) == Xor(Product(q), Zeros(|m|) + c) {
      OneRemainder(q, c, Quotient(m), Coeffs(Register(m)));
    }
  }

  // ----- linearity and error detection -----

  lemma ShiftedSum(r: bv8, s: bv8)
    ensures Shifted(Sum(r, s)) == Sum(Shifted(r), Shifted(s))
  {
  }

  lemma TopSum(r: bv8, s: bv8)
    ensures Top(Sum(r, s)) == (Top(r) != Top(s))
  {
  }

  lemma SumMoves(a: bv8, b: bv8, g: bv8)
    ensures Sum(Sum(a, g), b) == Sum(Sum(a, b), g) && Sum(a, Sum(b, g)) == Sum(Sum(a, b), g)
  {
  }

  lemma SumCancels(a: bv8, b: bv8, g: bv8)
    ensures Sum(Sum(a, g), Sum(b, g)) == Sum(a, b)
  {
  }

  /** A register step is linear. */
  lemma NextXor(r: bv8, s: bv8, b: bool, d: bool)
    ensures Next(Sum(r, s), b != d) == Sum(Next(r, b), Next(s, d))
  {
    hide Shifted, Top, Sum;
    ShiftedSum(r, s);
    TopSum(r, s);
    SumMoves(Shifted(r), Shifted(s), 0x09);
    SumCancels(Shifted(r), Shifted(s), 0x09);
  }

  /** The CRC of a sum is the sum of the CRCs. */
  lemma {:induction false} RegisterXor(m: Bits, e: Bits)
    requires |m| == |e|
    ensures Register(Xor(m, e)) == Sum(Register(m), Register(e))
  {
    hide Next, Sum, Register;
    if m == [] {
      RegisterNone();
      assert Xor(m, e) == [] && e == [];
    } else {
      var n := |m| - 1;
      var m', e' := m[..n], e[..n];
      RegisterXor(m', e');
      assert m == m' + [m[n]] && e == e' + [e[n]];
      assert Xor(m, e) == Xor(m', e') + [m[n] != e[n]];
      RegisterSnoc(m', m[n]);
      RegisterSnoc(e', e[n]);
      RegisterSnoc(Xor(m', e'), m[n] != e[n]);
      NextXor(Register(m'), Register(e'), m[n], e[n]);
    }
  }

  lemma RegisterNone()
    ensures Register([]) == 0 && Sum(0, 0) == 0
  {
  }

  lemma NextNonzero(r: bv8)
    requires r & 0x80 == 0 && r != 0
    ensures Next(r, false) != 0
  {
  }

  /** Zeros behind a message do not hide a nonzero register. */
  lemma {:induction false} ZerosBehind(m: Bits, j: nat)
    requires Register(m) != 0
    ensures Register(m + Zeros(j)) != 0
  {
    hide Next;
    if j == 0 {
      assert m + Zeros(0) == m;
    } else {
      ZerosBehind(m, j - 1);
      SevenBits(m + Zeros(j - 1));
      assert m + Zeros(j) == m + Zeros(j - 1) + [false];
      RegisterSnoc(m + Zeros(j - 1), false);
      NextNonzero(Register(m + Zeros(j - 1)));
    }
  }

  /** Zeros in front of a message do not change the register. */
  lemma {:induction false} ZerosBefore(i: nat, m: Bits)
    ensures Register(Zeros(i) + m) == Register(m)
    decreases |m|, i
  {
    if m != [] {
      var n := |m| - 1;
      ZerosBefore(i, m[..n]);
      assert Zeros(i) + m == Zeros(i) + m[..n] + [m[n]];
      RegisterSnoc(Zeros(i) + m[..n], m[n]);
    } else if i > 0 {
      ZerosBefore(i - 1, []);
      assert Zeros(i) + [] == Zeros(i - 1) + [] + [false];
      RegisterSnoc(Zeros(i - 1) + [], false);
    } else {
      assert Zeros(0) + [] == [];
    }
  }

  lemma SevenSteps(d0: bool, d1: bool, d2: bool, d3: bool, d4: bool, d5: bool, d6: bool)
    requires d0 || d1 || d2 || d3 || d4 || d5 || d6
    ensures Next(Next(Next(Next(Next(Next(Next(0, d0), d1), d2), d3), d4), d5), d6) != 0
  {
  }

  lemma SevenNonzero(b: Bits)
    requires |b| == 7 && b != Zeros(7)
    ensures Register(b) != 0
  {
    hide Next, Register, Zeros;
    SomeBit(b);
    SevenSteps(b[0], b[1], b[2], b[3], b[4], b[5], b[6]);
    RegisterNone();
    Unrolled(b, 0);
    Unrolled(b, 1);
    Unrolled(b, 2);
    Unrolled(b, 3);
    Unrolled(b, 4);
    Unrolled(b, 5);
    Unrolled(b, 6);
    assert b[..0] == [] && b[..7] == b;
  }

  lemma SomeBit(b: Bits)
    requires |b| == 7 && b != Zeros(7)
    ensures b[0] || b[1] || b[2] || b[3] || b[4] || b[5] || b[6]
  {
  }

  lemma Unrolled(b: Bits, i: nat)
    requires i < |b|
    ensures Register(b[..i + 1]) == Next(Register(b[..i]), b[i])
  {
    assert b[..i + 1] == b[..i] + [b[i]];
    RegisterSnoc(b[..i], b[i]);
  }

  /** Shifting a register's own bits in empties it. */
  lemma OwnBits(r: bv8)
    requires r & 0x80 == 0
    ensures var c := Coeffs(r); Next(Next(Next(Next(Next(Next(Next(r, c[0]), c[1]), c[2]), c[3]), c[4]), c[5]), c[6]) == 0
  {
  }

  lemma CodewordZero(m: Bits)
    ensures Register(m + Coeffs(Register(m))) == 0
  {
    hide Next, Register, Coeffs;
    var c := Coeffs(Register(m));
    var w := m + c;
    SevenBits(m);
    OwnBits(Register(m));
    assert w[..|m|] == m && w[..|m| + 7] == w;
    Unrolled(w, |m|);
    Unrolled(w, |m| + 1);
    Unrolled(w, |m| + 2);
    Unrolled(w, |m| + 3);
    Unrolled(w, |m| + 4);
    Unrolled(w, |m| + 5);
    Unrolled(w, |m| + 6);
  }

  /** A received message with its CRC checks out exactly when the whole is divisible. */
  lemma CheckExact(m: Bits, t: Bits)
    requires |t| == 7
    ensures Register(m + t) == 0 <==> t == Coeffs(Register(m))
  {
    hide Next, Register, Coeffs, Sum;
    var c := Coeffs(Register(m));
    CodewordZero(m);
    var d := Xor(t, c);
    assert m + t == Xor(m + c, Zeros(|m|) + d);
    RegisterXor(m + c, Zeros(|m|) + d);
    ZerosBefore(|m|, d);
    SumZero(Register(d));
    if t != c {
      var i :| 0 <= i < 7 && t[i] != c[i];
      assert d[i];
      SevenNonzero(d);
    }
  }

  lemma SumZero(r: bv8)
    ensures Sum(0, r) == r
  {
  }

  /** Any error within seven consecutive bits of a message with its CRC, wherever they are,
      makes the received CRC differ from the CRC of the received message. */
  lemma BurstDetected(m: Bits, i: nat, b: Bits, j: nat, m': Bits, t': Bits)
    requires |b| == 7 && b != Zeros(7) && i + j == |m| && |m'| == |m| && |t'| == 7
    requires m' + t' == Xor(m + Coeffs(Register(m)), Zeros(i) + b + Zeros(j))
    ensures t' != Coeffs(Register(m'))
  {
    hide Next, Register, Coeffs, Sum;
    var e := Zeros(i) + b + Zeros(j);
    CodewordZero(m);
    RegisterXor(m + Coeffs(Register(m)), e);
    SumZero(Register(e));
    SevenNonzero(b);
    ZerosBefore(i, b);
    ZerosBehind(Zeros(i) + b, j);
    CheckExact(m', t');
  }

  // ----- the byte-wise code -----

  /** A byte after i shifts to the left. */
  function Advanced(d: bv8, i: nat): bv8 {
    if i == 0 then d else Advanced(d, i - 1) << 1
  }

  /** The bits of a byte, highest first. */
  function ByteBits(d: bv8): (bits: Bits)
    ensures |bits| == 8
  {
    seq(8, i requires 0 <= i < 8 => Advanced(d, i) & 0x80 != 0)
  }

  function MessageBits(data: seq<bv8>): Bits {
    if data == [] then [] else MessageBits(data[..|data| - 1]) + ByteBits(data[|data| - 1])
  }

  lemma ByteBitsAre(d: bv8)
    ensures ByteBits(d) == [d & 0x80 != 0, d & 0x40 != 0, d & 0x20 != 0, d & 0x10 != 0,
                            d & 0x08 != 0, d & 0x04 != 0, d & 0x02 != 0, d & 0x01 != 0]
    ensures Advanced(d, 8) == 0
  {
    assert Advanced(d, 1) == d << 1;
    assert Advanced(d, 2) == d << 2;
    assert Advanced(d, 3) == d << 3;
    assert Advanced(d, 4) == d << 4;
    assert Advanced(d, 5) == d << 5;
    assert Advanced(d, 6) == d << 6;
    assert Advanced(d, 7) == d << 7;
  }

  /** The byte register is the seven bit one with the bits still to come added in. */
  function Loaded(r: bv8, rest: bv8): bv8 {
    (r << 1) ^ rest
  }

  predicate High(x: bv8) {
    x & 0x80 != 0
  }

  lemma LoadedHigh(r: bv8, rest: bv8)
    ensures High(Loaded(r, rest)) == (Top(r) != High(rest))
  {
  }

  lemma LoadedShifts(r: bv8, rest: bv8)
    requires r & 0x80 == 0
    ensures Doubled(Loaded(r, rest)) == Loaded(Shifted(r), Doubled(rest))
  {
  }

  lemma LoadedAdds(r: bv8, rest: bv8)
    ensures Loaded(r, rest) ^ 0x12 == Loaded(Sum(r, 0x09), rest)
  {
  }

  function Doubled(x: bv8): bv8 {
    x << 1
  }

  /** One round of the inner loop; the divisor is 0x89 << 1, cut to a byte. */
  function Stepped(crc: bv8): bv8 {
    if High(crc) then Doubled(crc) ^ 0x12 else Doubled(crc)
  }

  lemma SteppedIsNext(r: bv8, rest: bv8)
    requires r & 0x80 == 0
    ensures Stepped(Loaded(r, rest)) == Loaded(Next(r, High(rest)), Doubled(rest))
  {
    hide Loaded, High, Top, Shifted, Sum;
    LoadedHigh(r, rest);
    LoadedShifts(r, rest);
    LoadedAdds(Shifted(r), Doubled(rest));
  }

  lemma AdvancedNext(d: bv8, i: nat)
    ensures Advanced(d, i + 1) == Doubled(Advanced(d, i)) && Advanced(d, 0) == d
  {
  }

  /** The inner loop: a byte goes into the register, bit by bit. */
  method Absorb(start: bv8, d: bv8, ghost m: Bits) returns (crc: bv8)
    requires start == Loaded(Register(m), d)
    ensures crc == Loaded(Register(m + ByteBits(d)), 0)
  {
    hide Register, ByteBits, Loaded, High, Next, Stepped, Advanced, Doubled;
    crc := start;
    AdvancedNext(d, 0);
    assert m + ByteBits(d)[..0] == m;
    for i := 0 to 8
      invariant crc == Loaded(Register(m + ByteBits(d)[..i]), Advanced(d, i))
    {
      SevenBits(m + ByteBits(d)[..i]);
      SteppedIsNext(Register(m + ByteBits(d)[..i]), Advanced(d, i));
      AdvancedNext(d, i);
      assert m + ByteBits(d)[..i + 1] == m + ByteBits(d)[..i] + [ByteBits(d)[i]];
      RegisterSnoc(m + ByteBits(d)[..i], ByteBits(d)[i]);
      ByteBit(d, i);
      crc := Stepped(crc);
    }
    ByteBitsAre(d);
    assert ByteBits(d)[..8] == ByteBits(d);
  }

  /** crc7. */
  method Compute(data: seq<bv8>) returns (crc: bv8)
    ensures crc == Register(MessageBits(data))
  {
    hide Register, ByteBits, Loaded, Next;
    crc := 0;
    RegisterNone();
    LoadedNone();
    for n := 0 to |data|
      invariant crc == Loaded(Register(MessageBits(data[..n])), 0)
    {
      assert data[..n + 1][..n] == data[..n];
      LoadedByte(Register(MessageBits(data[..n])), data[n]);
      crc := crc ^ data[n];
      crc := Absorb(crc, data[n], MessageBits(data[..n]));
    }
    assert data[..|data|] == data;
    SevenBits(MessageBits(data));
    Unloaded(Register(MessageBits(data)));
    crc := crc >> 1;
  }

  lemma ByteBit(d: bv8, i: nat)
    requires i < 8
    ensures ByteBits(d)[i] == High(Advanced(d, i))
  {
  }

  lemma LoadedNone()
    ensures Loaded(0, 0) == 0
  {
  }

  lemma LoadedByte(r: bv8, d: bv8)
    ensures Loaded(r, 0) ^ d == Loaded(r, d)
  {
  }

  lemma Unloaded(r: bv8)
    requires r & 0x80 == 0
    ensures Loaded(r, 0) >> 1 == r
  {
  }
}
